/**
 Runs of the frame capability service: concurrent issues, redemptions, proxied requests and
 WebSocket checks, each suspended at one of its awaits, among revocations and new sessions.
 */
module FrameCapabilityRuns {
  import opened CanonicalJson
  import opened FrameCapability

  /** Where a call is suspended. */
  datatype Point =
    | Over
    | Resolving(issuer: Session)
    | InspectingTarget(issuer: Session, target: Target, at: int)
    | Redeeming(capability: CapId, at: int)
    | ProxyFirst(capability: CapId)
    | ProxyForwarding(capability: CapId)
    | ProxyLast(capability: CapId)
    | Rechecking(registration: RegId)

  /** What was given out: a broker session, a response, or a passed check of a WebSocket. */
  datatype Entry = Redeemed(capability: CapId, cookie: nat) | Responded(capability: CapId) | Checked(capability: CapId)

  datatype System = System(s: State, clock: int, calls: seq<Point>, log: seq<Entry>)

  datatype Answer = Answer(target: Option<Target>, inspection: Inspection, allowed: bool, answered: bool)

  datatype Event =
    | Bootstrap(reentry: Reentry)
    | Clear(reentry: Reentry)
    | Revoke(matching: set<CapId>, reentry: Reentry)
    | StartIssue(authorized: bool)
    | StartRedeem(nonce: CapId)
    | StartProxy(route: CapId, cookie: Option<nat>)
    | StartSocket(route: CapId, cookie: Option<nat>, owner: nat, requested: bool, allowed: bool, pause: nat)
    | StartRecheck(registration: RegId)
    | Release(registration: RegId)
    | Open(registration: RegId)
    | Resume(call: nat, answer: Answer)
    | Tick(duration: nat)

  const INITIAL: System := System(State(0, None, {}, {}, map[], [], [], 0), 0, [], [])

  predicate IsProxy(p: Point, c: CapId) {
    (p.ProxyFirst? || p.ProxyForwarding? || p.ProxyLast?) && p.capability == c
  }

  predicate IsRedeeming(p: Point, c: CapId) {
    p.Redeeming? && p.capability == c
  }

  predicate PointClosed(s: State, p: Point) {
    match p
    case Over => true
    case Resolving(_) => true
    case InspectingTarget(_, _, _) => true
    case Rechecking(r) => r < |s.registrations|
    case _ => p.capability < |s.capabilities|
  }

  // Steps.

  function Moved(y: System, i: nat, s: State, p: Point): System
    requires i < |y.calls|
  {
    y.(s := s, calls := y.calls[i := p])
  }

  function Noted(y: System, e: Entry): System {
    y.(log := y.log + [e])
  }

  /** One suspended call runs to its next await. */
  function Resumed(y: System, i: nat, a: Answer): System
    requires References(y.s) && i < |y.calls| && PointClosed(y.s, y.calls[i])
  {
    match y.calls[i]
    case Over => y
    case Resolving(issuer) =>
      Moved(y, i, y.s, if a.target.Some?
          && a.target.value.expiresAt > y.clock then InspectingTarget(issuer, a.target.value, y.clock) else Over)
    case InspectingTarget(issuer, target, at) =>
      if a.inspection.Passed? then Moved(y, i, Issued(y.s, issuer, target, a.allowed, at).0, Over)
      else Moved(y, i, y.s, Over)
    case Redeeming(c, at) =>
      var (s, cookie) := RedeemFinished(y.s, c, at, a.inspection, a.allowed, y.clock);
      if cookie.Some? then Noted(Moved(y, i, s, Over), Redeemed(c, cookie.value)) else Moved(y, i, s, Over)
    case ProxyFirst(c) =>
      var (s, on) := ProxyInspected(y.s, c, a.inspection, y.clock);
      Moved(y, i, s, if on then ProxyForwarding(c) else Over)
    case ProxyForwarding(c) => if a.answered then Moved(y, i, y.s, ProxyLast(c))
      else Moved(y, i, ProxyLeft(y.s, c), Over)
    case ProxyLast(c) =>
      var (s, on) := ProxyInspected(y.s, c, a.inspection, y.clock);
      if on then Noted(Moved(y, i, ProxyLeft(s, c), Over), Responded(c)) else Moved(y, i, s, Over)
    case Rechecking(r) =>
      var (s, ok) := SocketChecked(y.s, r, a.inspection.Passed?, y.clock);
      if ok then Noted(Moved(y, i, s, Over), Checked(y.s.registrations[r].capability)) else Moved(y, i, s, Over)
  }

  function Started(y: System, s: State, p: Point): System {
    y.(s := s, calls := y.calls + [p])
  }

  // What the log says.

  function SessionsOf(log: seq<Entry>, c: CapId): nat {
    if log == [] then 0
    else SessionsOf(log[..|log| - 1], c) + if log[|log| - 1].Redeemed? && log[|log| - 1].capability == c then 1 else 0
  }

  function EntriesOf(log: seq<Entry>, c: CapId): nat {
    if log == [] then 0
    else EntriesOf(log[..|log| - 1], c) + if log[|log| - 1].capability == c then 1 else 0
  }

  lemma AppendEntry(log: seq<Entry>, e: Entry, c: CapId)
    ensures SessionsOf(log + [e], c) == SessionsOf(log, c) + if e.Redeemed? && e.capability == c then 1 else 0
    ensures EntriesOf(log + [e], c) == EntriesOf(log, c) + if e.capability == c then 1 else 0
  {
    assert (log + [e])[..|log|] == log;
  }

  // WebSockets.

  predicate Filed(s: State, k: Attempt, r: RegId)
    requires References(s)
  {
    && r < |s.registrations| && !s.registrations[r].released
    && var c := s.registrations[r].capability;
    s.capabilities[c].target.attempt == k && r in s.capabilities[c].sockets
  }

  predicate OwnersDiffer(s: State, a: RegId, b: RegId) {
    a < |s.registrations| && b < |s.registrations| && s.registrations[a].owner != s.registrations[b].owner
  }

  /** A capability of the attempt whose policy admits this many connections. */
  predicate WithinPolicy(s: State, k: Attempt, n: nat) {
    exists c | 0 <= c < |s.capabilities| ::
      && s.capabilities[c].target.attempt == k
      && s.capabilities[c].target.maxConnections.Some? && n <= s.capabilities[c].target.maxConnections.value
  }

  ghost predicate AllFiled(s: State)
    requires References(s)
  {
    forall k, r | k in s.attempts && r in s.attempts[k] :: Filed(s, k, r)
  }

  predicate AllOwnersDiffer(s: State) {
    forall k, a, b | k in s.attempts && a in s.attempts[k] && b in s.attempts[k] && a != b :: OwnersDiffer(s, a, b)
  }

  predicate AllWithinPolicy(s: State) {
    forall k | k in s.attempts :: WithinPolicy(s, k, |s.attempts[k]|)
  }

  predicate Holds(s: State, c: CapId, r: RegId) {
    r < |s.registrations| && s.registrations[r].capability == c && !s.registrations[r].released
  }

  predicate SocketsAreOwn(s: State) {
    forall c: CapId, r: RegId | c < |s.capabilities| && r in s.capabilities[c].sockets :: Holds(s, c, r)
  }

  ghost predicate SocketsKept(s: State) {
    References(s) && AllFiled(s) && AllOwnersDiffer(s) && AllWithinPolicy(s) && SocketsAreOwn(s)
  }

  predicate SameCapability(a: Capability, b: Capability) {
    a.(sockets := {}, epoch := 0) == b.(sockets := {}, epoch := 0)
  }

  /** Nothing but WebSockets, and the epoch, changed. */
  ghost predicate SocketsOnly(s: State, q: State) {
    && q.generation == s.generation && q.session == s.session && q.nonces == s.nonces && q.routes == s.routes
    && q.secrets == s.secrets
    && |q.capabilities| == |s.capabilities| && |q.registrations| == |s.registrations|
    && forall c | 0 <= c < |s.capabilities| :: SameCapability(s.capabilities[c], q.capabilities[c])
  }

  lemma SmallerSet(a: set<RegId>, r: RegId)
    ensures |a - {r}| <= |a|
  {
    if r in a {
      assert a == a - {r} + {r};
    } else {
      assert a - {r} == a;
    }
  }

  /** A release takes one registration out of the three places that hold it. */
  lemma ReleasedShape(s: State, r: RegId)
    requires SocketsKept(s) && r < |s.registrations| && !s.registrations[r].released
    ensures var q := Released(s, r);
            && q.registrations == s.registrations[r := s.registrations[r].(released := true)]
            && (forall k | k in q.attempts :: k in s.attempts && q.attempts[k] == s.attempts[k] - {r})
            && (forall c | 0 <= c < |s.capabilities| ::
                  SameCapability(s.capabilities[c], q.capabilities[c])
                      && q.capabilities[c].sockets == s.capabilities[c].sockets - {r})
            && SocketsOnly(s, q)
  {
    var own := s.capabilities[s.registrations[r].capability].target.attempt;
    var q := Released(s, r);
    forall k | k in q.attempts
      ensures k in s.attempts && q.attempts[k] == s.attempts[k] - {r}
    {
      assert k != own && r in s.attempts[k] ==> Filed(s, k, r);
    }
    forall c | 0 <= c < |s.capabilities|
      ensures SameCapability(s.capabilities[c], q.capabilities[c])
      ensures q.capabilities[c].sockets == s.capabilities[c].sockets - {r}
    {
      assert r in s.capabilities[c].sockets ==> s.registrations[r].capability == c;
    }
  }

  lemma SmallerWithinPolicy(s: State, q: State, k: Attempt, r: RegId)
    requires SocketsOnly(s, q) && k in s.attempts && WithinPolicy(s, k, |s.attempts[k]|)
    ensures WithinPolicy(q, k, |s.attempts[k] - {r}|)
  {
    SmallerSet(s.attempts[k], r);
    var c :| 0 <= c < |s.capabilities| && s.capabilities[c].target.attempt == k
             && s.capabilities[c].target.maxConnections.Some?
             && |s.attempts[k]| <= s.capabilities[c].target.maxConnections.value;
    assert SameCapability(s.capabilities[c], q.capabilities[c]);
  }

  lemma StillFiled(s: State, q: State, k: Attempt, r: RegId, x: RegId)
    requires References(s) && References(q) && SocketsOnly(s, q) && Filed(s, k, x) && x != r
    requires r < |s.registrations| && q.registrations == s.registrations[r := s.registrations[r].(released := true)]
    requires forall c | 0 <= c < |s.capabilities| :: q.capabilities[c].sockets == s.capabilities[c].sockets - {r}
    ensures Filed(q, k, x)
  {
    assert SameCapability(s.capabilities[s.registrations[x].capability], q.capabilities[s.registrations[x].capability]);
  }

  /** What ReleasedShape says, as a relation. */
  ghost predicate Takes(s: State, q: State, r: RegId) {
    && r < |s.registrations| && SocketsOnly(s, q)
    && q.registrations == s.registrations[r := s.registrations[r].(released := true)]
    && (forall k | k in q.attempts :: k in s.attempts && q.attempts[k] == s.attempts[k] - {r})
    && (forall c | 0 <= c < |s.capabilities| :: q.capabilities[c].sockets == s.capabilities[c].sockets - {r})
  }

  lemma TakenStaysFiled(s: State, q: State, r: RegId)
    requires References(s) && References(q) && AllFiled(s) && Takes(s, q, r)
    ensures AllFiled(q)
  {
    hide Filed, References;
    forall k, x | k in q.attempts && x in q.attempts[k]
      ensures Filed(q, k, x)
    {
      StillFiled(s, q, k, r, x);
    }
  }

  lemma TakenOwnersDiffer(s: State, q: State, r: RegId)
    requires AllOwnersDiffer(s) && Takes(s, q, r)
    ensures AllOwnersDiffer(q)
  {
    hide SocketsOnly;
    forall k, a, b | k in q.attempts && a in q.attempts[k] && b in q.attempts[k] && a != b
      ensures OwnersDiffer(q, a, b)
    {
      assert OwnersDiffer(s, a, b);
    }
  }

  lemma TakenWithinPolicy(s: State, q: State, r: RegId)
    requires AllWithinPolicy(s) && Takes(s, q, r)
    ensures AllWithinPolicy(q)
  {
    hide WithinPolicy, SocketsOnly;
    forall k | k in q.attempts
      ensures WithinPolicy(q, k, |q.attempts[k]|)
    {
      SmallerWithinPolicy(s, q, k, r);
    }
  }

  lemma TakenSocketsAreOwn(s: State, q: State, r: RegId)
    requires SocketsAreOwn(s) && Takes(s, q, r)
    ensures SocketsAreOwn(q)
  {
    forall c: CapId, x: RegId | c < |q.capabilities| && x in q.capabilities[c].sockets
      ensures Holds(q, c, x)
    {
      assert x in s.capabilities[c].sockets && x != r;
      assert Holds(s, c, x);
    }
  }

  lemma ReleasedKeeps(s: State, r: RegId)
    requires SocketsKept(s)
    ensures SocketsKept(Released(s, r)) && SocketsOnly(s, Released(s, r))
  {
    if r < |s.registrations| && !s.registrations[r].released {
      ReleasedShape(s, r);
      var q := Released(s, r);
      hide Released, AllFiled, AllOwnersDiffer, AllWithinPolicy, SocketsAreOwn;
      TakenStaysFiled(s, q, r);
      TakenOwnersDiffer(s, q, r);
      TakenWithinPolicy(s, q, r);
      TakenSocketsAreOwn(s, q, r);
    }
  }

  lemma SocketsOnlyComposes(s: State, q: State, p: State)
    requires SocketsOnly(s, q) && SocketsOnly(q, p)
    ensures SocketsOnly(s, p)
  {
    forall c | 0 <= c < |s.capabilities|
      ensures SameCapability(s.capabilities[c], p.capabilities[c])
    {
      assert SameCapability(s.capabilities[c], q.capabilities[c])
          && SameCapability(q.capabilities[c], p.capabilities[c]);
    }
  }

  lemma {:induction false} ReleasedEachKeeps(s: State, rs: seq<RegId>)
    requires SocketsKept(s)
    ensures SocketsKept(ReleasedEach(s, rs)) && SocketsOnly(s, ReleasedEach(s, rs))
    decreases |rs|
  {
    assert References(s);
    hide SocketsKept, Released;
    if rs != [] {
      var before := ReleasedEach(s, rs[..|rs| - 1]);
      ReleasedEachKeeps(s, rs[..|rs| - 1]);
      ReleasedKeeps(before, rs[|rs| - 1]);
      SocketsOnlyComposes(s, before, Released(before, rs[|rs| - 1]));
    }
  }

  lemma {:induction false} ClosedEachKeeps(s: State, rs: seq<RegId>, reentry: Reentry)
    requires SocketsKept(s)
    ensures SocketsKept(ClosedEach(s, rs, reentry)) && SocketsOnly(s, ClosedEach(s, rs, reentry))
    decreases |rs|
  {
    assert References(s);
    hide SocketsKept, Released, ReleasedEach;
    if rs != [] {
      var before := ClosedEach(s, rs[..|rs| - 1], reentry);
      ClosedEachKeeps(s, rs[..|rs| - 1], reentry);
      ReleasedEachKeeps(before, reentry(rs[|rs| - 1]));
      var called := ReleasedEach(before, reentry(rs[|rs| - 1]));
      ReleasedKeeps(called, rs[|rs| - 1]);
      SocketsOnlyComposes(s, before, called);
      SocketsOnlyComposes(s, called, Released(called, rs[|rs| - 1]));
    }
  }

  lemma RaisedKeeps(s: State, c: CapId)
    requires SocketsKept(s) && c < |s.capabilities|
    ensures var q := Put(s, c, s.capabilities[c].(epoch := s.capabilities[c].epoch + 1));
            SocketsKept(q) && SocketsOnly(s, q)
  {
    var q := Put(s, c, s.capabilities[c].(epoch := s.capabilities[c].epoch + 1));
    BegunReferences(s, c);
    assert SocketsOnly(s, q);
    SameSocketsKept(s, q);
  }

  /** A change that leaves every registry as it was. */
  lemma SameSocketsKept(s: State, q: State)
    requires SocketsKept(s) && References(q)
    requires q.attempts == s.attempts && q.registrations == s.registrations && |s.capabilities| <= |q.capabilities|
    requires forall c | 0 <= c < |s.capabilities| ::
               q.capabilities[c].target == s.capabilities[c].target
                   && q.capabilities[c].sockets == s.capabilities[c].sockets
    requires forall c | |s.capabilities| <= c < |q.capabilities| :: q.capabilities[c].sockets == {}
    ensures SocketsKept(q)
  {
    forall k, r | k in q.attempts && r in q.attempts[k]
      ensures Filed(q, k, r)
    {
      assert Filed(s, k, r);
    }
    forall k, a, b | k in q.attempts && a in q.attempts[k] && b in q.attempts[k] && a != b
      ensures OwnersDiffer(q, a, b)
    {
      assert OwnersDiffer(s, a, b);
    }
    forall k | k in q.attempts
      ensures WithinPolicy(q, k, |q.attempts[k]|)
    {
      assert WithinPolicy(s, k, |s.attempts[k]|);
      var c :| 0 <= c < |s.capabilities| && s.capabilities[c].target.attempt == k
               && s.capabilities[c].target.maxConnections.Some?
               && |s.attempts[k]| <= s.capabilities[c].target.maxConnections.value;
      assert q.capabilities[c].target == s.capabilities[c].target;
    }
  }

  // Revocation.

  /** Nothing but WebSockets, epochs, and the authority of the capabilities in `gone`. */
  ghost predicate Stripped(s: State, q: State, gone: set<CapId>) {
    SocketsOnly(s.(routes := s.routes - gone, nonces := s.nonces - gone), q)
  }

  lemma RevokedCapabilityKeeps(s: State, c: CapId, reentry: Reentry)
    requires SocketsKept(s) && c < |s.capabilities|
    ensures SocketsKept(RevokedCapability(s, c, reentry)) && Stripped(s, RevokedCapability(s, c, reentry), {c})
  {
    RaisedKeeps(s, c);
    var begun := Put(s, c, s.capabilities[c].(epoch := s.capabilities[c].epoch + 1));
    var sockets := Listed(begun.capabilities[c].sockets, |s.registrations|);
    ClosedEachKeeps(begun, sockets, reentry);
    var closed := ClosedEach(begun, sockets, reentry);
    SocketsOnlyComposes(s, begun, closed);
    var q := RevokedCapability(s, c, reentry);
    assert q == closed.(routes := closed.routes - {c}, nonces := closed.nonces - {c});
    hide ClosedEach, Listed;
    SameSocketsKept(closed, q);
  }

  function Members(cs: seq<CapId>): set<CapId> {
    set c | c in cs
  }

  lemma NothingStripped(s: State)
    ensures Stripped(s, s, Members([]))
  {
    assert s.routes - Members([]) == s.routes && s.nonces - Members([]) == s.nonces;
    assert s.(routes := s.routes - Members([]), nonces := s.nonces - Members([])) == s;
  }

  lemma LastRevoked(s: State, cs: seq<CapId>, reentry: Reentry)
    requires References(s) && cs != [] && forall i | 0 <= i < |cs| :: cs[i] < |s.capabilities|
    ensures RevokedEach(s, cs, reentry)
            == RevokedCapability(RevokedEach(s, cs[..|cs| - 1], reentry), cs[|cs| - 1], reentry)
    ensures Members(cs) == Members(cs[..|cs| - 1]) + {cs[|cs| - 1]}
  {
    hide References, RevokedCapability;
  }

  lemma {:induction false} RevokedEachKeeps(s: State, cs: seq<CapId>, reentry: Reentry)
    requires SocketsKept(s) && forall i | 0 <= i < |cs| :: cs[i] < |s.capabilities|
    ensures SocketsKept(RevokedEach(s, cs, reentry)) && Stripped(s, RevokedEach(s, cs, reentry), Members(cs))
    decreases |cs|
  {
    assert References(s);
    if cs == [] {
      assert RevokedEach(s, cs, reentry) == s;
      NothingStripped(s);
      assert Members(cs) == Members([]);
    } else {
      hide SocketsKept, RevokedCapability, Stripped, References, RevokedEach, Members;
      var before, c := RevokedEach(s, cs[..|cs| - 1], reentry), cs[|cs| - 1];
      RevokedEachKeeps(s, cs[..|cs| - 1], reentry);
      RevokedCapabilityKeeps(before, c, reentry);
      LastRevoked(s, cs, reentry);
      StrippedComposes(s, before, RevokedCapability(before, c, reentry), Members(cs[..|cs| - 1]), {c});
    }
  }

  lemma StrippedComposes(s: State, q: State, p: State, a: set<CapId>, b: set<CapId>)
    requires Stripped(s, q, a) && Stripped(q, p, b)
    ensures Stripped(s, p, a + b)
  {
    assert s.routes - (a + b) == (s.routes - a) - b && s.nonces - (a + b) == (s.nonces - a) - b;
    forall c | 0 <= c < |s.capabilities|
      ensures SameCapability(s.capabilities[c], p.capabilities[c])
    {
      assert SameCapability(s.capabilities[c], q.capabilities[c])
          && SameCapability(q.capabilities[c], p.capabilities[c]);
    }
  }

  lemma RevokedKeeps(s: State, matching: set<CapId>, reentry: Reentry)
    requires SocketsKept(s)
    ensures SocketsKept(Revoked(s, matching, reentry))
    ensures Stripped(s, Revoked(s, matching, reentry), s.routes * matching)
  {
    var cs := Listed(s.routes * matching, |s.capabilities|);
    RevokedEachKeeps(s, cs, reentry);
    assert Members(cs) == s.routes * matching;
  }

  lemma ClearedKeeps(s: State, reentry: Reentry)
    requires SocketsKept(s)
    ensures var q := Cleared(s, reentry);
            && SocketsKept(q) && q.session.None? && q.routes == {} && q.nonces == {} && q.secrets == s.secrets
            && q.generation == s.generation + 1
            && |q.capabilities| == |s.capabilities| && |q.registrations| == |s.registrations|
            && forall c | 0 <= c < |s.capabilities| :: SameCapability(s.capabilities[c], q.capabilities[c])
  {
    var cs := Listed(s.routes, |s.capabilities|);
    RevokedEachKeeps(s, cs, reentry);
  }

  // Nonces, sessions and requests in flight.

  function ProxyCalls(calls: seq<Point>, c: CapId): set<nat> {
    set i | 0 <= i < |calls| && IsProxy(calls[i], c)
  }

  /** A capability's nonce, its redemptions under way, and its session exclude each other. */
  predicate OneShot(s: State, calls: seq<Point>, log: seq<Entry>, c: CapId)
    requires c < |s.capabilities|
  {
    && SessionsOf(log, c) <= 1 && (s.capabilities[c].cookie.None? <==> SessionsOf(log, c) == 0)
    && (c in s.nonces ==> c in s.routes && SessionsOf(log, c) == 0)
    && (forall i | 0 <= i < |calls| && IsRedeeming(calls[i], c) :: c !in s.nonces && SessionsOf(log, c) == 0)
    && (forall i, j | 0 <= i < j < |calls| :: !(IsRedeeming(calls[i], c) && IsRedeeming(calls[j], c)))
  }

  predicate Flight(s: State, calls: seq<Point>, c: CapId)
    requires c < |s.capabilities|
  {
    && s.capabilities[c].inFlight == |ProxyCalls(calls, c)| <= MAX_PROXY_CONCURRENCY
    && (ProxyCalls(calls, c) != {} ==> s.capabilities[c].cookie.Some?)
  }

  /** A capability with a route belongs to the current browser session. */
  predicate Routed(s: State, c: CapId)
    requires c < |s.capabilities|
  {
    c in s.routes ==> s.session.Some? && s.capabilities[c].appGeneration == s.session.value.generation
  }

  predicate CapabilityKept(s: State, calls: seq<Point>, log: seq<Entry>, c: CapId)
    requires c < |s.capabilities|
  {
    OneShot(s, calls, log, c) && Flight(s, calls, c) && Routed(s, c)
  }

  predicate CookieKept(s: State, c: CapId, d: CapId)
    requires c < |s.capabilities| && d < |s.capabilities|
  {
    var a, b := s.capabilities[c].cookie, s.capabilities[d].cookie;
    (a.Some? ==> a.value < s.secrets) && (c != d && a.Some? ==> a != b)
  }

  ghost predicate Kept(s: State, calls: seq<Point>, log: seq<Entry>) {
    && (forall c | 0 <= c < |s.capabilities| :: CapabilityKept(s, calls, log, c))
    && (forall c, d | 0 <= c < |s.capabilities| && 0 <= d < |s.capabilities| :: CookieKept(s, c, d))
    && (forall c: CapId | |s.capabilities| <= c :: SessionsOf(log, c) == 0)
    && (forall i | 0 <= i < |calls| :: PointClosed(s, calls[i]))
  }

  ghost predicate Invariant(y: System) {
    SocketsKept(y.s) && Kept(y.s, y.calls, y.log)
  }

  predicate SameCore(a: Capability, b: Capability) {
    && a.appGeneration == b.appGeneration && a.target == b.target && a.cookie == b.cookie && a.inFlight == b.inFlight
  }

  /** Authority only shrinks; requests, cookies and calls are untouched. */
  ghost predicate Shrinks(s: State, q: State) {
    && |q.capabilities| == |s.capabilities| && |q.registrations| >= |s.registrations| && q.secrets == s.secrets
    && (forall c | 0 <= c < |s.capabilities| :: SameCore(s.capabilities[c], q.capabilities[c]))
    && q.nonces <= s.nonces && q.routes <= s.routes && q.nonces <= q.routes
    && (q.routes != {} ==> q.session == s.session)
  }

  lemma ClosedPoint(s: State, q: State, p: Point)
    requires PointClosed(s, p) && |q.capabilities| >= |s.capabilities| && |q.registrations| >= |s.registrations|
    ensures PointClosed(q, p)
  {
  }

  lemma ShrinkKeeps(s: State, q: State, calls: seq<Point>, log: seq<Entry>)
    requires Kept(s, calls, log) && Shrinks(s, q)
    ensures Kept(q, calls, log)
  {
    hide SessionsOf, ProxyCalls, IsRedeeming;
    forall c | 0 <= c < |q.capabilities|
      ensures CapabilityKept(q, calls, log, c)
    {
      assert CapabilityKept(s, calls, log, c) && SameCore(s.capabilities[c], q.capabilities[c]);
    }
    forall c, d | 0 <= c < |q.capabilities| && 0 <= d < |q.capabilities|
      ensures CookieKept(q, c, d)
    {
      assert CookieKept(s, c, d) && SameCore(s.capabilities[c], q.capabilities[c])
          && SameCore(s.capabilities[d], q.capabilities[d]);
    }
    forall i | 0 <= i < |calls|
      ensures PointClosed(q, calls[i])
    {
      ClosedPoint(s, q, calls[i]);
    }
  }

  /** Points that are neither redeeming nor proxying do not matter to any capability. */
  predicate Neutral(p: Point) {
    p.Over? || p.Resolving? || p.InspectingTarget? || p.Rechecking?
  }

  lemma NeutralMoveKeeps(s: State, calls: seq<Point>, log: seq<Entry>, i: nat, p: Point)
    requires Kept(s, calls, log) && i < |calls| && Neutral(calls[i]) && Neutral(p) && PointClosed(s, p)
    ensures Kept(s, calls[i := p], log)
  {
    hide SessionsOf, PointClosed, CookieKept;
    var after := calls[i := p];
    forall c | 0 <= c < |s.capabilities|
      ensures CapabilityKept(s, after, log, c)
    {
      assert CapabilityKept(s, calls, log, c);
      assert ProxyCalls(after, c) == ProxyCalls(calls, c);
    }
    assert forall j | 0 <= j < |after| :: PointClosed(s, after[j]);
  }

  lemma NeutralStartKeeps(s: State, calls: seq<Point>, log: seq<Entry>, p: Point)
    requires Kept(s, calls, log) && Neutral(p) && PointClosed(s, p)
    ensures Kept(s, calls + [p], log)
  {
    hide SessionsOf, PointClosed, CookieKept;
    var after := calls + [p];
    forall c | 0 <= c < |s.capabilities|
      ensures CapabilityKept(s, after, log, c)
    {
      assert CapabilityKept(s, calls, log, c);
      assert ProxyCalls(after, c) == ProxyCalls(calls, c);
    }
    assert forall j | 0 <= j < |after| :: PointClosed(s, after[j]);
  }

  /** An entry that is not a session. */
  lemma NoteKeeps(s: State, calls: seq<Point>, log: seq<Entry>, e: Entry)
    requires Kept(s, calls, log) && !e.Redeemed?
    ensures Kept(s, calls, log + [e])
  {
    forall c
      ensures SessionsOf(log + [e], c) == SessionsOf(log, c)
    {
      AppendEntry(log, e, c);
    }
    hide SessionsOf, PointClosed, CookieKept, ProxyCalls, IsRedeeming;
    forall c | 0 <= c < |s.capabilities|
      ensures CapabilityKept(s, calls, log + [e], c)
    {
      assert CapabilityKept(s, calls, log, c);
    }
  }

  // Issuing and redeeming.

  lemma IssueKeeps(y: System, issuer: Session, target: Target, allowed: bool, at: int)
    requires Invariant(y)
    ensures Invariant(y.(s := Issued(y.s, issuer, target, allowed, at).0))
  {
    var s := y.s;
    var (q, made) := Issued(s, issuer, target, allowed, at);
    if made.Some? {
      assert References(q);
      SameSocketsKept(s, q);
      hide SessionsOf, SocketsKept, References, Min;
      forall c | 0 <= c < |q.capabilities|
        ensures CapabilityKept(q, y.calls, y.log, c)
      {
        if c < |s.capabilities| {
          assert CapabilityKept(s, y.calls, y.log, c);
        } else {
          assert forall i | 0 <= i < |y.calls| :: PointClosed(s, y.calls[i]);
          assert ProxyCalls(y.calls, c) == {};
        }
      }
      forall c, d | 0 <= c < |q.capabilities| && 0 <= d < |q.capabilities|
        ensures CookieKept(q, c, d)
      {
        assert c < |s.capabilities| && d < |s.capabilities| ==> CookieKept(s, c, d);
        assert c < |s.capabilities| ==> CookieKept(s, c, c);
      }
      forall i | 0 <= i < |y.calls|
        ensures PointClosed(q, y.calls[i])
      {
        ClosedPoint(s, q, y.calls[i]);
      }
    } else {
      assert y.(s := q) == y;
    }
  }

  lemma BeginRedeemKeeps(y: System, c: CapId)
    requires Invariant(y) && c in y.s.nonces
    ensures References(y.s) && Invariant(Started(y, RedeemBegun(y.s, c).0, Redeeming(c, y.clock)))
  {
    var s, q := y.s, RedeemBegun(y.s, c).0;
    assert References(q);
    SameSocketsKept(s, q);
    hide SessionsOf, SocketsKept, References;
    var after := y.calls + [Redeeming(c, y.clock)];
    forall d | 0 <= d < |q.capabilities|
      ensures CapabilityKept(q, after, y.log, d)
    {
      assert CapabilityKept(s, y.calls, y.log, d);
      assert ProxyCalls(after, d) == ProxyCalls(y.calls, d);
    }
    forall d, e | 0 <= d < |q.capabilities| && 0 <= e < |q.capabilities|
      ensures CookieKept(q, d, e)
    {
      assert CookieKept(s, d, e);
    }
    forall i | 0 <= i < |after|
      ensures PointClosed(q, after[i])
    {
      assert i < |y.calls| ==> PointClosed(s, y.calls[i]);
    }
  }

  /** A redemption that ends without a session. */
  lemma DropRedeemKeeps(s: State, calls: seq<Point>, log: seq<Entry>, i: nat, c: CapId)
    requires Kept(s, calls, log) && i < |calls| && IsRedeeming(calls[i], c)
    ensures Kept(s, calls[i := Over], log)
  {
    hide SessionsOf, PointClosed, CookieKept;
    var after := calls[i := Over];
    forall d | 0 <= d < |s.capabilities|
      ensures CapabilityKept(s, after, log, d)
    {
      assert CapabilityKept(s, calls, log, d);
      assert ProxyCalls(after, d) == ProxyCalls(calls, d);
    }
    assert PointClosed(s, Over) by { OverIsClosed(s); }
    assert forall j | 0 <= j < |after| :: PointClosed(s, after[j]);
  }

  lemma OverIsClosed(s: State)
    ensures PointClosed(s, Over)
  {
  }

  /** The session of a redemption: the only one of its capability. */
  lemma SessionKeeps(s: State, q: State, calls: seq<Point>, log: seq<Entry>, i: nat, c: CapId, until: int)
    requires Kept(s, calls, log) && i < |calls| && IsRedeeming(calls[i], c) && c < |s.capabilities|
    requires q == Put(s, c, s.capabilities[c].(redeeming := false, cookie := Some(s.secrets),
             brokerExpiresAt := until)).(secrets := s.secrets + 1)
    ensures Kept(q, calls[i := Over], log + [Redeemed(c, s.secrets)])
  {
    var after, more := calls[i := Over], log + [Redeemed(c, s.secrets)];
    forall d
      ensures SessionsOf(more, d) == SessionsOf(log, d) + if d == c then 1 else 0
    {
      AppendEntry(log, Redeemed(c, s.secrets), d);
    }
    assert SessionsOf(log, c) == 0 && c !in s.nonces by { assert CapabilityKept(s, calls, log, c); }
    hide SessionsOf;
    forall d | 0 <= d < |q.capabilities|
      ensures CapabilityKept(q, after, more, d)
    {
      assert CapabilityKept(s, calls, log, d);
      assert ProxyCalls(after, d) == ProxyCalls(calls, d);
    }
    forall d, e | 0 <= d < |q.capabilities| && 0 <= e < |q.capabilities|
      ensures CookieKept(q, d, e)
    {
      assert CookieKept(s, d, e) && CookieKept(s, e, d);
    }
    forall j | 0 <= j < |after|
      ensures PointClosed(q, after[j])
    {
      assert PointClosed(s, calls[j]);
    }
  }

  // Requests in flight.

  lemma CoreKeepsCookies(s: State, q: State)
    requires forall c, d | 0 <= c < |s.capabilities| && 0 <= d < |s.capabilities| :: CookieKept(s, c, d)
    requires |q.capabilities| == |s.capabilities| && q.secrets == s.secrets
    requires forall c | 0 <= c < |s.capabilities| :: q.capabilities[c].cookie == s.capabilities[c].cookie
    ensures forall c, d | 0 <= c < |q.capabilities| && 0 <= d < |q.capabilities| :: CookieKept(q, c, d)
  {
    forall c, d | 0 <= c < |q.capabilities| && 0 <= d < |q.capabilities|
      ensures CookieKept(q, c, d)
    {
      assert CookieKept(s, c, d);
    }
  }

  /** A change of the number of requests in flight, matched by the calls. */
  ghost predicate Counts(s: State, q: State, c: CapId, calls: seq<Point>, after: seq<Point>) {
    && c < |s.capabilities| == |q.capabilities|
    && q == Put(s, c, s.capabilities[c].(inFlight := q.capabilities[c].inFlight))
    && q.capabilities[c].inFlight == |ProxyCalls(after, c)| <= MAX_PROXY_CONCURRENCY && s.capabilities[c].cookie.Some?
    && (forall d | d != c :: ProxyCalls(after, d) == ProxyCalls(calls, d))
    && (forall i, d | 0 <= i < |after| && IsRedeeming(after[i], d) :: i < |calls| && IsRedeeming(calls[i], d))
    && (forall i | 0 <= i < |after| :: PointClosed(q, after[i]))
  }

  lemma CountsKeep(s: State, q: State, c: CapId, calls: seq<Point>, after: seq<Point>, log: seq<Entry>)
    requires Kept(s, calls, log) && c < |s.capabilities| && |q.capabilities| == |s.capabilities|
    requires Counts(s, q, c, calls, after)
    ensures Kept(q, after, log)
  {
    CoreKeepsCookies(s, q);
    hide SessionsOf, ProxyCalls, PointClosed, CookieKept, IsRedeeming;
    forall d | 0 <= d < |q.capabilities|
      ensures CapabilityKept(q, after, log, d)
    {
      assert CapabilityKept(s, calls, log, d);
    }
  }

  lemma BeginProxyKeeps(y: System, c: CapId, cookie: Option<nat>)
    requires Invariant(y) && ProxyBegun(y.s, c, cookie, y.clock).1
    ensures Invariant(Started(y, ProxyBegun(y.s, c, cookie, y.clock).0, ProxyFirst(c)))
  {
    var s, q := y.s, ProxyBegun(y.s, c, cookie, y.clock).0;
    assert References(q);
    SameSocketsKept(s, q);
    hide SocketsKept, References;
    var after := y.calls + [ProxyFirst(c)];
    assert CapabilityKept(s, y.calls, y.log, c);
    assert ProxyCalls(after, c) == ProxyCalls(y.calls, c) + {|y.calls|};
    forall d | d != c
      ensures ProxyCalls(after, d) == ProxyCalls(y.calls, d)
    {
    }
    forall i | 0 <= i < |after|
      ensures PointClosed(q, after[i])
    {
      assert i < |y.calls| ==> PointClosed(s, y.calls[i]);
    }
    CountsKeep(s, q, c, y.calls, after, y.log);
  }

  lemma LeaveProxyKeeps(s: State, calls: seq<Point>, log: seq<Entry>, i: nat, c: CapId)
    requires Kept(s, calls, log) && i < |calls| && IsProxy(calls[i], c) && c < |s.capabilities|
    ensures Kept(ProxyLeft(s, c), calls[i := Over], log)
  {
    var q, after := ProxyLeft(s, c), calls[i := Over];
    assert CapabilityKept(s, calls, log, c);
    assert i in ProxyCalls(calls, c);
    assert ProxyCalls(after, c) == ProxyCalls(calls, c) - {i};
    forall d | d != c
      ensures ProxyCalls(after, d) == ProxyCalls(calls, d)
    {
    }
    forall j | 0 <= j < |after|
      ensures PointClosed(q, after[j])
    {
      assert PointClosed(s, calls[j]);
    }
    CountsKeep(s, q, c, calls, after, log);
  }

  lemma ForwardKeeps(s: State, calls: seq<Point>, log: seq<Entry>, i: nat, c: CapId, p: Point)
    requires Kept(s, calls, log) && i < |calls| && IsProxy(calls[i], c) && IsProxy(p, c) && c < |s.capabilities|
    ensures Kept(s, calls[i := p], log)
  {
    var after := calls[i := p];
    assert CapabilityKept(s, calls, log, c);
    assert i in ProxyCalls(calls, c);
    forall d
      ensures ProxyCalls(after, d) == ProxyCalls(calls, d)
    {
    }
    forall j | 0 <= j < |after|
      ensures PointClosed(s, after[j])
    {
      assert PointClosed(s, calls[j]);
    }
    assert Put(s, c, s.capabilities[c].(inFlight := s.capabilities[c].inFlight)) == s;
    CountsKeep(s, s, c, calls, after, log);
  }

  /** A failed inspection takes the route away; the nonce was already spent. */
  lemma DropRouteShrinks(s: State, calls: seq<Point>, log: seq<Entry>, c: CapId)
    requires Kept(s, calls, log) && c < |s.capabilities| && c !in s.nonces && forall d | d in s.nonces ::
             d < |s.capabilities|
    ensures Shrinks(s, s.(routes := s.routes - {c}))
  {
    forall d | d in s.nonces
      ensures d in s.routes
    {
      assert CapabilityKept(s, calls, log, d);
    }
  }

  lemma CallerHasNoNonce(s: State, calls: seq<Point>, log: seq<Entry>, i: nat, c: CapId)
    requires Kept(s, calls, log) && i < |calls| && c < |s.capabilities|
    requires (IsProxy(calls[i], c) || IsRedeeming(calls[i], c))
    ensures c !in s.nonces
  {
    assert CapabilityKept(s, calls, log, c);
    assert IsProxy(calls[i], c) ==> i in ProxyCalls(calls, c);
  }

  lemma RoutesKeepSockets(s: State, routes: set<CapId>)
    requires SocketsKept(s) && routes <= s.routes
    ensures SocketsKept(s.(routes := routes))
  {
    SameSocketsKept(s, s.(routes := routes));
  }

  lemma InspectedKeeps(y: System, i: nat, c: CapId, inspection: Inspection, on: Point)
    requires Invariant(y) && i < |y.calls| && IsProxy(y.calls[i], c) && c < |y.s.capabilities| && IsProxy(on, c)
    ensures var (s, ok) := ProxyInspected(y.s, c, inspection, y.clock);
            Invariant(Moved(y, i, s, if ok then on else Over))
  {
    var s := y.s;
    var (q, ok) := ProxyInspected(s, c, inspection, y.clock);
    var x := if inspection.Failed? then s.(routes := s.routes - {c}) else s;
    CallerHasNoNonce(s, y.calls, y.log, i, c);
    assert References(s);
    DropRouteShrinks(s, y.calls, y.log, c);
    RoutesKeepSockets(s, x.routes);
    hide SocketsKept, Kept, Shrinks, References;
    if inspection.Failed? {
      ShrinkKeeps(s, x, y.calls, y.log);
    }
    assert x.(routes := x.routes) == x;
    if ok {
      ForwardKeeps(x, y.calls, y.log, i, c, on);
    } else {
      LeaveProxyKeeps(x, y.calls, y.log, i, c);
      LeftKeepsSockets(x, c);
    }
  }

  lemma LeftKeepsSockets(s: State, c: CapId)
    requires SocketsKept(s) && c < |s.capabilities|
    ensures SocketsKept(ProxyLeft(s, c))
  {
    SameSocketsKept(s, ProxyLeft(s, c));
  }

  // WebSockets begun and checked.

  lemma SocketsOnlyShrinks(s: State, q: State, calls: seq<Point>, log: seq<Entry>)
    requires Kept(s, calls, log) && SocketsOnly(s, q) && forall c | c in s.nonces :: c < |s.capabilities|
    ensures Shrinks(s, q)
  {
    forall c | 0 <= c < |s.capabilities|
      ensures SameCore(s.capabilities[c], q.capabilities[c])
    {
      assert SameCapability(s.capabilities[c], q.capabilities[c]);
    }
    forall c | c in q.nonces
      ensures c in q.routes
    {
      assert CapabilityKept(s, calls, log, c);
    }
  }

  lemma SocketsOnlyKeeps(y: System, q: State)
    requires Invariant(y) && SocketsKept(q) && SocketsOnly(y.s, q)
    ensures Invariant(y.(s := q))
  {
    SocketsOnlyShrinks(y.s, q, y.calls, y.log);
    hide SocketsKept, SocketsOnly, Kept, Shrinks;
    ShrinkKeeps(y.s, q, y.calls, y.log);
  }

  /** A new registration, within the policy and with an owner of its own. */
  lemma AddedKeeps(s: State, c: CapId, owner: nat)
    requires SocketsKept(s) && c < |s.capabilities| && s.capabilities[c].target.maxConnections.Some?
    requires var sockets := SocketsOf(s, s.capabilities[c].target.attempt);
             && |sockets| < s.capabilities[c].target.maxConnections.value
             && forall r | r in sockets && r < |s.registrations| :: s.registrations[r].owner != owner
    ensures var r := |s.registrations|;
            var k := s.capabilities[c].target.attempt;
            var q := Put(s, c, s.capabilities[c].(sockets := s.capabilities[c].sockets + {r}))
                       .(registrations := s.registrations
                           + [Registration(c, owner, false, s.capabilities[c].epoch, false)],
                         attempts := s.attempts[k := SocketsOf(s, k) + {r}]);
            SocketsKept(q)
  {
    var r := |s.registrations|;
    var k := s.capabilities[c].target.attempt;
    var q := Put(s, c, s.capabilities[c].(sockets := s.capabilities[c].sockets + {r}))
               .(registrations := s.registrations + [Registration(c, owner, false, s.capabilities[c].epoch, false)],
                 attempts := s.attempts[k := SocketsOf(s, k) + {r}]);
    assert References(q);
    AddedFiled(s, q, c, owner, r, k);
    AddedOwners(s, q, c, owner, r, k);
    AddedPolicy(s, q, c, owner, r, k);
    AddedHeld(s, q, c, owner, r, k);
  }

  ghost predicate Adds(s: State, q: State, c: CapId, owner: nat, r: RegId, k: Attempt) {
    && c < |s.capabilities| && r == |s.registrations| && k == s.capabilities[c].target.attempt
    && q == Put(s, c, s.capabilities[c].(sockets := s.capabilities[c].sockets + {r}))
              .(registrations := s.registrations + [Registration(c, owner, false, s.capabilities[c].epoch, false)],
                attempts := s.attempts[k := SocketsOf(s, k) + {r}])
  }

  lemma AddedFiled(s: State, q: State, c: CapId, owner: nat, r: RegId, k: Attempt)
    requires References(s) && References(q) && AllFiled(s) && Adds(s, q, c, owner, r, k)
    ensures AllFiled(q)
  {
    forall j, x | j in q.attempts && x in q.attempts[j]
      ensures Filed(q, j, x)
    {
      assert x != r ==> Filed(s, j, x);
    }
  }

  lemma AddedOwners(s: State, q: State, c: CapId, owner: nat, r: RegId, k: Attempt)
    requires References(s) && AllFiled(s) && AllOwnersDiffer(s) && Adds(s, q, c, owner, r, k)
    requires forall x | x in SocketsOf(s, k) && x < |s.registrations| :: s.registrations[x].owner != owner
    ensures AllOwnersDiffer(q)
  {
    forall j, a, b | j in q.attempts && a in q.attempts[j] && b in q.attempts[j] && a != b
      ensures OwnersDiffer(q, a, b)
    {
      assert a != r ==> Filed(s, j, a);
      assert b != r ==> Filed(s, j, b);
      assert a != r && b != r ==> OwnersDiffer(s, a, b);
    }
  }

  lemma AddedPolicy(s: State, q: State, c: CapId, owner: nat, r: RegId, k: Attempt)
    requires AllWithinPolicy(s) && Adds(s, q, c, owner, r, k)
    requires s.capabilities[c].target.maxConnections.Some?
    requires |SocketsOf(s, k)| < s.capabilities[c].target.maxConnections.value
    ensures AllWithinPolicy(q)
  {
    forall j | j in q.attempts
      ensures WithinPolicy(q, j, |q.attempts[j]|)
    {
      if j == k {
        assert |SocketsOf(s, k) + {r}| <= |SocketsOf(s, k)| + 1;
        assert q.capabilities[c].target == s.capabilities[c].target;
      } else {
        assert WithinPolicy(s, j, |s.attempts[j]|);
        var d :| 0 <= d < |s.capabilities| && s.capabilities[d].target.attempt == j
                 && s.capabilities[d].target.maxConnections.Some?
                 && |s.attempts[j]| <= s.capabilities[d].target.maxConnections.value;
        assert q.capabilities[d].target == s.capabilities[d].target;
      }
    }
  }

  lemma AddedHeld(s: State, q: State, c: CapId, owner: nat, r: RegId, k: Attempt)
    requires SocketsAreOwn(s) && Adds(s, q, c, owner, r, k)
    ensures SocketsAreOwn(q)
  {
    forall d: CapId, x: RegId | d < |q.capabilities| && x in q.capabilities[d].sockets
      ensures Holds(q, d, x)
    {
      assert x in s.capabilities[d].sockets ==> Holds(s, d, x);
    }
  }

  lemma NoncesHaveRoutes(s: State, calls: seq<Point>, log: seq<Entry>)
    requires Kept(s, calls, log) && References(s)
    ensures s.nonces <= s.routes
  {
    forall c | c in s.nonces
      ensures c in s.routes
    {
      assert CapabilityKept(s, calls, log, c);
    }
  }

  lemma AddedShrinks(s: State, q: State, c: CapId, owner: nat, r: RegId, k: Attempt)
    requires Adds(s, q, c, owner, r, k) && s.nonces <= s.routes
    ensures Shrinks(s, q)
  {
  }

  lemma BeginSocketKeeps(y: System, c: CapId, cookie: Option<nat>, owner: nat, requested: bool, allowed: bool, now: int,
      later: int)
    requires Invariant(y)
    ensures References(y.s)
    ensures var (q, r) := SocketBegun(y.s, c, cookie, owner, requested, allowed, now, later);
            Invariant(y.(s := q)) && (r.Some? ==> r.value < |q.registrations|)
  {
    var s := y.s;
    assert References(s);
    var (q, made) := SocketBegun(s, c, cookie, owner, requested, allowed, now, later);
    if q != s {
      var r, k := |s.registrations|, s.capabilities[c].target.attempt;
      var added := Put(s, c, s.capabilities[c].(sockets := s.capabilities[c].sockets + {r}))
                     .(registrations := s.registrations
                         + [Registration(c, owner, false, s.capabilities[c].epoch, false)],
                       attempts := s.attempts[k := SocketsOf(s, k) + {r}]);
      AddedKeeps(s, c, owner);
      assert Adds(s, added, c, owner, r, k);
      NoncesHaveRoutes(s, y.calls, y.log);
      AddedShrinks(s, added, c, owner, r, k);
      hide SocketsKept, Kept, Shrinks, Live, SocketCurrent, Released, References;
      ShrinkKeeps(s, added, y.calls, y.log);
      ReleasedKeeps(added, r);
      SocketsOnlyKeeps(y.(s := added), Released(added, r));
      assert q == added || q == Released(added, r);
    } else {
      assert y.(s := q) == y;
    }
  }

  lemma CheckedKeeps(y: System, r: RegId, passed: bool)
    requires Invariant(y) && r < |y.s.registrations|
    ensures References(y.s) && Invariant(y.(s := SocketChecked(y.s, r, passed, y.clock).0))
  {
    assert References(y.s);
    ReleasedKeeps(y.s, r);
    hide SocketsKept, Kept, References, SocketCurrent, Released;
    SocketsOnlyKeeps(y, Released(y.s, r));
    assert y.(s := y.s) == y;
  }

  lemma OpenedKeeps(y: System, r: RegId)
    requires Invariant(y) && r < |y.s.registrations|
    ensures References(y.s) && Invariant(y.(s := SocketOpened(y.s, r, y.clock).0))
  {
    assert References(y.s);
    ReleasedKeeps(y.s, r);
    var g := y.s.registrations[r];
    var q := y.s.(registrations := y.s.registrations[r := g.(open := true)]);
    OpenKeepsSockets(y.s, r);
    hide SocketsKept, Kept, References, SocketCurrent, Released;
    SocketsOnlyKeeps(y, Released(y.s, r));
    SocketsOnlyKeeps(y, q);
  }

  lemma OpenKeepsSockets(s: State, r: RegId)
    requires SocketsKept(s) && r < |s.registrations|
    ensures var q := s.(registrations := s.registrations[r := s.registrations[r].(open := true)]);
            SocketsKept(q) && SocketsOnly(s, q)
  {
    var q := s.(registrations := s.registrations[r := s.registrations[r].(open := true)]);
    assert References(q);
    forall k, x | k in q.attempts && x in q.attempts[k]
      ensures Filed(q, k, x)
    {
      assert Filed(s, k, x);
    }
    forall k, a, b | k in q.attempts && a in q.attempts[k] && b in q.attempts[k] && a != b
      ensures OwnersDiffer(q, a, b)
    {
      assert OwnersDiffer(s, a, b);
    }
    forall k | k in q.attempts
      ensures WithinPolicy(q, k, |q.attempts[k]|)
    {
      assert WithinPolicy(s, k, |s.attempts[k]|);
      var c :| 0 <= c < |s.capabilities| && s.capabilities[c].target.attempt == k
               && s.capabilities[c].target.maxConnections.Some?
               && |s.attempts[k]| <= s.capabilities[c].target.maxConnections.value;
      assert q.capabilities[c] == s.capabilities[c];
    }
    forall c: CapId, x: RegId | c < |q.capabilities| && x in q.capabilities[c].sockets
      ensures Holds(q, c, x)
    {
      assert Holds(s, c, x);
    }
  }

  // Steps.

  ghost function Apply(y: System, e: Event): System
    requires Invariant(y)
  {
    assert References(y.s);
    match e
    case Bootstrap(reentry) => y.(s := Bootstrapped(y.s, y.clock, reentry))
    case Clear(reentry) => y.(s := Cleared(y.s, reentry))
    case Revoke(matching, reentry) => y.(s := Revoked(y.s, matching, reentry))
    case StartIssue(authorized) =>
      Started(y, y.s, if authorized && y.s.session.Some?
          && y.s.session.value.expiresAt > y.clock then Resolving(y.s.session.value) else Over)
    case StartRedeem(nonce) =>
      var (s, ok) := RedeemBegun(y.s, nonce);
      Started(y, s, if ok then Redeeming(nonce, y.clock) else Over)
    case StartProxy(route, cookie) =>
      var (s, ok) := ProxyBegun(y.s, route, cookie, y.clock);
      Started(y, s, if ok then ProxyFirst(route) else Over)
    case StartSocket(route, cookie, owner, requested, allowed, pause) =>
      var (s, r) := SocketBegun(y.s, route, cookie, owner, requested, allowed, y.clock, y.clock + pause);
      Started(y, s, if r.Some? then Rechecking(r.value) else Over).(clock := y.clock + pause)
    case StartRecheck(r) =>
      if r < |y.s.registrations| then
        var (s, ok) := SocketChecked(y.s, r, true, y.clock);
        Started(y, s, if ok then Rechecking(r) else Over)
      else y
    case Release(r) => y.(s := Released(y.s, r))
    case Open(r) => if r < |y.s.registrations| then y.(s := SocketOpened(y.s, r, y.clock).0) else y
    case Resume(i, answer) =>
      if i < |y.calls| then
        assert PointClosed(y.s, y.calls[i]);
        Resumed(y, i, answer)
      else y
    case Tick(duration) => y.(clock := y.clock + duration)
  }

  lemma StartNeutralKeeps(y: System, q: State, p: Point)
    requires Invariant(y.(s := q)) && Neutral(p) && PointClosed(q, p)
    ensures Invariant(Started(y, q, p))
  {
    hide Kept, SocketsKept;
    NeutralStartKeeps(q, y.calls, y.log, p);
  }

  lemma ClockKeeps(y: System, clock: int)
    requires Invariant(y)
    ensures Invariant(y.(clock := clock))
  {
  }

  lemma RevokeKeeps(y: System, matching: set<CapId>, reentry: Reentry)
    requires Invariant(y)
    ensures References(y.s) && Invariant(y.(s := Revoked(y.s, matching, reentry)))
  {
    RevokedKeeps(y.s, matching, reentry);
    NoncesHaveRoutes(y.s, y.calls, y.log);
    var q := Revoked(y.s, matching, reentry);
    StrippedShrinks(y.s, q, y.s.routes * matching);
    hide Kept, SocketsKept, Revoked, Shrinks;
    ShrinkKeeps(y.s, q, y.calls, y.log);
  }

  lemma StrippedShrinks(s: State, q: State, gone: set<CapId>)
    requires Stripped(s, q, gone) && s.nonces <= s.routes
    ensures Shrinks(s, q)
  {
    forall c | 0 <= c < |s.capabilities|
      ensures SameCore(s.capabilities[c], q.capabilities[c])
    {
      assert SameCapability(s.(routes := s.routes - gone, nonces := s.nonces - gone).capabilities[c],
          q.capabilities[c]);
    }
  }

  lemma ClearKeeps(y: System, session: Option<Session>, reentry: Reentry)
    requires Invariant(y)
    ensures References(y.s) && Invariant(y.(s := Cleared(y.s, reentry).(session := session)))
  {
    ClearedKeeps(y.s, reentry);
    var cleared := Cleared(y.s, reentry);
    var q := cleared.(session := session);
    forall c | 0 <= c < |y.s.capabilities|
      ensures SameCore(y.s.capabilities[c], q.capabilities[c])
    {
      assert SameCapability(y.s.capabilities[c], cleared.capabilities[c]);
    }
    SameSocketsKept(cleared, q);
    hide Kept, SocketsKept, Cleared, References;
    ShrinkKeeps(y.s, q, y.calls, y.log);
  }

  lemma ResumeRedeemKeeps(y: System, i: nat, c: CapId, at: int, a: Answer)
    requires Invariant(y) && i < |y.calls| && y.calls[i] == Redeeming(c, at) && c < |y.s.capabilities|
    ensures References(y.s) && Invariant(Resumed(y, i, a))
  {
    var s := y.s;
    assert References(s) && PointClosed(s, y.calls[i]);
    var (q, cookie) := RedeemFinished(s, c, at, a.inspection, a.allowed, y.clock);
    SameSocketsKept(s, q);
    CallerHasNoNonce(s, y.calls, y.log, i, c);
    if cookie.Some? {
      hide SocketsKept, Kept, Live, References;
      SessionKeeps(s, q, y.calls, y.log, i, c,
          Min(y.clock + BROKER_SESSION_TTL_MS, s.capabilities[c].target.expiresAt));
    } else {
      NoncesHaveRoutes(s, y.calls, y.log);
      assert Shrinks(s, q);
      hide SocketsKept, Kept, Live, Shrinks, References;
      DropRedeemKeeps(s, y.calls, y.log, i, c);
      ShrinkKeeps(s, q, y.calls[i := Over], y.log);
    }
  }

  lemma ResumeKeepsInvariant(y: System, i: nat, a: Answer)
    requires Invariant(y) && i < |y.calls|
    ensures References(y.s) && PointClosed(y.s, y.calls[i]) && Invariant(Resumed(y, i, a))
  {
    var s := y.s;
    assert References(s) && PointClosed(s, y.calls[i]);
    hide SocketsKept, Kept, References, Issued, RedeemFinished, ProxyInspected, ProxyLeft, SocketChecked;
    match y.calls[i]
    case Over =>
    case Resolving(issuer) =>
      NeutralMoveKeeps(s, y.calls, y.log, i, Over);
      if a.target.Some? {
        NeutralMoveKeeps(s, y.calls, y.log, i, InspectingTarget(issuer, a.target.value, y.clock));
      }
    case InspectingTarget(issuer, target, at) =>
      NeutralMoveKeeps(s, y.calls, y.log, i, Over);
      IssueKeeps(y.(calls := y.calls[i := Over]), issuer, target, a.allowed, at);
    case Redeeming(c, at) => ResumeRedeemKeeps(y, i, c, at, a);
    case ProxyFirst(c) => InspectedKeeps(y, i, c, a.inspection, ProxyForwarding(c));
    case ProxyForwarding(c) =>
      ForwardKeeps(s, y.calls, y.log, i, c, ProxyLast(c));
      LeaveProxyKeeps(s, y.calls, y.log, i, c);
      LeftKeepsSockets(s, c);
    case ProxyLast(c) => ResumeLastKeeps(y, i, c, a);
    case Rechecking(r) =>
      CheckedKeeps(y, r, a.inspection.Passed?);
      var (q, ok) := SocketChecked(s, r, a.inspection.Passed?, y.clock);
      OverIsClosed(q);
      NeutralMoveKeeps(q, y.calls, y.log, i, Over);
      NoteKeeps(q, y.calls[i := Over], y.log, Checked(s.registrations[r].capability));
  }

  lemma ResumeLastKeeps(y: System, i: nat, c: CapId, a: Answer)
    requires Invariant(y) && i < |y.calls| && y.calls[i] == ProxyLast(c) && c < |y.s.capabilities|
    ensures References(y.s) && Invariant(Resumed(y, i, a))
  {
    assert References(y.s);
    InspectedKeeps(y, i, c, a.inspection, ProxyLast(c));
    PassedInspection(y.s, c, a.inspection, y.clock);
    hide SocketsKept, Kept, References, ProxyInspected, ProxyLeft;
    if ProxyInspected(y.s, c, a.inspection, y.clock).1 {
      LeaveProxyKeeps(y.s, y.calls, y.log, i, c);
      LeftKeepsSockets(y.s, c);
      NoteKeeps(ProxyLeft(y.s, c), y.calls[i := Over], y.log, Responded(c));
    }
  }

  lemma PassedInspection(s: State, c: CapId, inspection: Inspection, now: int)
    requires c < |s.capabilities|
    ensures ProxyInspected(s, c, inspection, now).1 ==> ProxyInspected(s, c, inspection, now).0 == s && c in s.routes
  {
  }

  lemma StartIssueKeeps(y: System, authorized: bool)
    requires Invariant(y)
    ensures Invariant(Apply(y, StartIssue(authorized)))
  {
    assert y.(s := y.s) == y;
    hide Invariant;
    StartNeutralKeeps(y, y.s, Over);
    if y.s.session.Some? {
      StartNeutralKeeps(y, y.s, Resolving(y.s.session.value));
    }
  }

  lemma StartSocketKeeps(y: System, e: Event)
    requires Invariant(y) && e.StartSocket?
    ensures Invariant(Apply(y, e))
  {
    BeginSocketKeeps(y, e.route, e.cookie, e.owner, e.requested, e.allowed, y.clock, y.clock + e.pause);
    hide Invariant, SocketBegun, References;
    var (q, r) := SocketBegun(y.s, e.route, e.cookie, e.owner, e.requested, e.allowed, y.clock, y.clock + e.pause);
    var p := if r.Some? then Rechecking(r.value) else Over;
    StartNeutralKeeps(y, q, p);
    ClockKeeps(Started(y, q, p), y.clock + e.pause);
  }

  lemma StartRecheckKeeps(y: System, r: RegId)
    requires Invariant(y)
    ensures Invariant(Apply(y, StartRecheck(r)))
  {
    if r < |y.s.registrations| {
      CheckedKeeps(y, r, true);
      CheckedKeepsCount(y.s, r, true, y.clock);
      hide Invariant, SocketChecked, References;
      var (q, ok) := SocketChecked(y.s, r, true, y.clock);
      StartNeutralKeeps(y, q, if ok then Rechecking(r) else Over);
    }
  }

  lemma ClearEventKeeps(y: System, reentry: Reentry)
    requires Invariant(y)
    ensures Invariant(Apply(y, Clear(reentry))) && Invariant(Apply(y, Bootstrap(reentry)))
  {
    ClearKeeps(y, Some(Session(y.s.generation + 1, y.clock + APP_SESSION_TTL_MS)), reentry);
    ClearKeeps(y, None, reentry);
    NoSession(y.s, reentry);
    hide Invariant, Cleared, References;
    assert Cleared(y.s, reentry).(session := None) == Cleared(y.s, reentry);
  }

  /** Every segment keeps the invariant. */
  lemma ApplyKeepsInvariant(y: System, e: Event)
    requires Invariant(y)
    ensures Invariant(Apply(y, e))
  {
    assert References(y.s);
    match e
    case Bootstrap(reentry) => ClearEventKeeps(y, reentry);
    case Clear(reentry) => ClearEventKeeps(y, reentry);
    case Revoke(matching, reentry) => RevokeKeeps(y, matching, reentry);
    case StartIssue(authorized) => StartIssueKeeps(y, authorized);
    case StartRedeem(nonce) =>
      hide Invariant, RedeemBegun, References;
      StartRedeemKeeps(y, nonce);
    case StartProxy(route, cookie) =>
      hide Invariant, ProxyBegun;
      StartProxyKeeps(y, route, cookie);
    case StartSocket(_, _, _, _, _, _) => StartSocketKeeps(y, e);
    case StartRecheck(r) => StartRecheckKeeps(y, r);
    case Release(r) =>
      hide Invariant, Released, References;
      ReleaseKeeps(y, r);
    case Open(r) =>
      hide Invariant, SocketOpened, References;
      if r < |y.s.registrations| {
        OpenedKeeps(y, r);
      }
    case Resume(i, answer) =>
      hide Invariant, Resumed, References;
      if i < |y.calls| {
        ResumeKeepsInvariant(y, i, answer);
      }
    case Tick(duration) =>
      hide Invariant;
      ClockKeeps(y, y.clock + duration);
  }

  lemma NoSession(s: State, reentry: Reentry)
    requires References(s)
    ensures Cleared(s, reentry).session == None
  {
  }

  lemma CheckedKeepsCount(s: State, r: RegId, passed: bool, now: int)
    requires References(s) && r < |s.registrations|
    ensures |SocketChecked(s, r, passed, now).0.registrations| == |s.registrations|
  {
  }

  lemma ReleaseKeeps(y: System, r: RegId)
    requires Invariant(y)
    ensures References(y.s) && Invariant(y.(s := Released(y.s, r)))
  {
    ReleasedKeeps(y.s, r);
    hide SocketsKept, Kept;
    SocketsOnlyKeeps(y, Released(y.s, r));
  }

  lemma StartRedeemKeeps(y: System, c: CapId)
    requires Invariant(y)
    ensures References(y.s)
    ensures var (s, ok) := RedeemBegun(y.s, c); Invariant(Started(y, s, if ok then Redeeming(c, y.clock) else Over))
  {
    assert References(y.s);
    assert y.(s := y.s) == y;
    hide Invariant;
    if c in y.s.nonces {
      BeginRedeemKeeps(y, c);
    } else {
      StartNeutralKeeps(y, y.s, Over);
    }
  }

  lemma StartProxyKeeps(y: System, c: CapId, cookie: Option<nat>)
    requires Invariant(y)
    ensures var (s, ok) := ProxyBegun(y.s, c, cookie, y.clock);
            Invariant(Started(y, s, if ok then ProxyFirst(c) else Over))
  {
    assert y.(s := y.s) == y;
    hide Invariant;
    if ProxyBegun(y.s, c, cookie, y.clock).1 {
      BeginProxyKeeps(y, c, cookie);
    } else {
      StartNeutralKeeps(y, y.s, Over);
    }
  }

  // Runs.

  ghost function Continue(y: System, events: seq<Event>): (z: System)
    requires Invariant(y)
    ensures Invariant(z)
    decreases |events|
  {
    if events == [] then y
    else
      ApplyKeepsInvariant(y, events[0]);
      Continue(Apply(y, events[0]), events[1..])
  }

  ghost function Run(events: seq<Event>): (y: System)
    ensures Invariant(y)
  {
    Continue(INITIAL, events)
  }

  // Main results.

  /** In every run, a capability's nonce yields at most one broker session. */
  lemma OneSessionPerNonce(events: seq<Event>, c: CapId)
    ensures SessionsOf(Run(events).log, c) <= 1
  {
    var y := Run(events);
    hide SessionsOf;
    if c < |y.s.capabilities| {
      assert CapabilityKept(y.s, y.calls, y.log, c);
    }
  }

  /**
   In every run, each registration in the index of an attempt is unreleased, filed under its
   own capability's attempt, and held by that capability; no owner holds two of them; and
   where the attempt has one policy, there are at most as many as it admits.
   */
  lemma SocketIndexIsConsistent(events: seq<Event>, k: Attempt, r: RegId, max: nat)
    requires k in Run(events).s.attempts && r in Run(events).s.attempts[k]
    ensures var s := Run(events).s;
            && r < |s.registrations| && !s.registrations[r].released
            && s.registrations[r].capability < |s.capabilities|
            && s.capabilities[s.registrations[r].capability].target.attempt == k
            && r in s.capabilities[s.registrations[r].capability].sockets
            && (forall x | x in s.attempts[k] && x != r ::
               x < |s.registrations| && s.registrations[x].owner != s.registrations[r].owner)
            && ((forall c | 0 <= c < |s.capabilities| && s.capabilities[c].target.attempt == k ::
               s.capabilities[c].target.maxConnections == Some(max))
                ==> |s.attempts[k]| <= max)
  {
    var s := Run(events).s;
    assert Filed(s, k, r);
    forall x | x in s.attempts[k] && x != r
      ensures x < |s.registrations| && s.registrations[x].owner != s.registrations[r].owner
    {
      assert OwnersDiffer(s, x, r);
    }
    assert WithinPolicy(s, k, |s.attempts[k]|);
  }

  /** In every run, the counter of a capability's requests is the number of them under way. */
  lemma InFlightIsCounted(events: seq<Event>, c: CapId)
    requires c < |Run(events).s.capabilities|
    ensures var y := Run(events); y.s.capabilities[c].inFlight == |ProxyCalls(y.calls, c)| <= MAX_PROXY_CONCURRENCY
  {
    var y := Run(events);
    assert CapabilityKept(y.s, y.calls, y.log, c);
  }

  /** A capability that has lost its route. */
  predicate Gone(y: System, c: CapId) {
    c < |y.s.capabilities| && c !in y.s.routes
  }

  /** Gone for good, and given nothing more. */
  predicate StaysGone(y: System, z: System, c: CapId) {
    Gone(z, c) && EntriesOf(z.log, c) == EntriesOf(y.log, c)
  }

  predicate Keeps(s: State, q: State, c: CapId) {
    |q.capabilities| >= |s.capabilities| && (c in q.routes && c < |s.capabilities| ==> c in s.routes)
  }

  lemma GoneByFrame(y: System, z: System, c: CapId)
    requires Gone(y, c) && Keeps(y.s, z.s, c)
    requires z.log == y.log || (|z.log| > 0 && z.log[..|z.log| - 1] == y.log && z.log[|z.log| - 1].capability != c)
    ensures StaysGone(y, z, c)
  {
    if z.log != y.log {
      AppendEntry(y.log, z.log[|z.log| - 1], c);
      assert z.log == y.log + [z.log[|z.log| - 1]];
    }
  }

  lemma ResumeStaysGone(y: System, i: nat, a: Answer, c: CapId)
    requires Invariant(y) && i < |y.calls| && Gone(y, c)
    ensures References(y.s) && PointClosed(y.s, y.calls[i]) && StaysGone(y, Resumed(y, i, a), c)
  {
    assert References(y.s) && PointClosed(y.s, y.calls[i]);
    ReleasedRoutes(y.s);
    hide SocketsKept, Kept, Released, Live, References, EntriesOf;
    var z := Resumed(y, i, a);
    match y.calls[i]
    case Over => GoneByFrame(y, z, c);
    case Resolving(issuer) => GoneByFrame(y, z, c);
    case InspectingTarget(issuer, target, at) => GoneByFrame(y, z, c);
    case Redeeming(d, at) => GoneByFrame(y, z, c);
    case ProxyFirst(d) => GoneByFrame(y, z, c);
    case ProxyForwarding(d) => GoneByFrame(y, z, c);
    case ProxyLast(d) => GoneByFrame(y, z, c);
    case Rechecking(r) => GoneByFrame(y, z, c);
  }

  lemma ReleasedRoutes(s: State)
    requires References(s)
    ensures forall r :: Released(s, r).routes == s.routes && |Released(s, r).capabilities| == |s.capabilities|
  {
  }

  lemma RevokedRoutes(y: System, matching: set<CapId>, reentry: Reentry)
    requires Invariant(y)
    ensures References(y.s)
    ensures var q := Revoked(y.s, matching, reentry);
            q.routes == y.s.routes - matching && |q.capabilities| == |y.s.capabilities|
  {
    RevokedKeeps(y.s, matching, reentry);
  }

  lemma ClearedRoutes(s: State, reentry: Reentry)
    requires References(s)
    ensures Cleared(s, reentry).routes == {} && |Cleared(s, reentry).capabilities| == |s.capabilities|
  {
  }

  lemma StepStaysGone(y: System, e: Event, c: CapId)
    requires Invariant(y) && Gone(y, c)
    ensures StaysGone(y, Apply(y, e), c)
  {
    assert References(y.s);
    if e.Resume? && e.call < |y.calls| {
      ResumeStaysGone(y, e.call, e.answer, c);
    } else if e.Revoke? {
      RevokedRoutes(y, e.matching, e.reentry);
      hide Revoked, Invariant, References;
      GoneByFrame(y, Apply(y, e), c);
    } else if e.Clear? || e.Bootstrap? {
      ClearedRoutes(y.s, e.reentry);
      hide Cleared, Invariant, References;
      GoneByFrame(y, Apply(y, e), c);
    } else {
      ReleasedRoutes(y.s);
      hide Released, Live, Invariant, References, EntriesOf;
      GoneByFrame(y, Apply(y, e), c);
    }
  }

  /**
   A capability that has lost its route is never live again: it gets no session, no response
   and no passed WebSocket check, whatever is still running.
   */
  lemma {:induction false} GoneIsFinal(y: System, after: seq<Event>, c: CapId)
    requires Invariant(y) && Gone(y, c)
    ensures StaysGone(y, Continue(y, after), c)
    decreases |after|
  {
    if after != [] {
      hide Invariant, Apply;
      StepStaysGone(y, after[0], c);
      ApplyKeepsInvariant(y, after[0]);
      GoneIsFinal(Apply(y, after[0]), after[1..], c);
    }
  }

  /** Revoking, clearing and starting a new browser session are final for what they reach. */
  lemma RevocationIsFinal(before: seq<Event>, e: Event, after: seq<Event>, c: CapId)
    requires c < |Run(before).s.capabilities|
    requires (e.Revoke? && c in e.matching) || e.Clear? || e.Bootstrap?
    ensures var y := Run(before);
            && Invariant(Apply(y, e))
            && EntriesOf(Continue(Apply(y, e), after).log, c) == EntriesOf(y.log, c)
  {
    var y := Run(before);
    ApplyKeepsInvariant(y, e);
    RouteIsTaken(y, e, c);
    hide Invariant, Apply, Run;
    GoneIsFinal(Apply(y, e), after, c);
  }

  lemma RouteIsTaken(y: System, e: Event, c: CapId)
    requires Invariant(y) && c < |y.s.capabilities|
    requires (e.Revoke? && c in e.matching) || e.Clear? || e.Bootstrap?
    ensures Gone(Apply(y, e), c) && Apply(y, e).log == y.log
  {
    assert References(y.s);
    if e.Revoke? {
      RevokedRoutes(y, e.matching, e.reentry);
    } else {
      ClearedRoutes(y.s, e.reentry);
    }
    hide Revoked, Cleared, Invariant, References;
  }

  /** A nonce redeemed in time gives a session whose cookie, and no other, opens the proxy; the nonce is spent. */
  lemma RedeemedSessionOpens(s: State, c: CapId, at: int, now: int, cookie: Option<nat>)
    requires SocketsKept(s) && c in s.nonces && c in s.routes && at <= now < s.capabilities[c].nonceExpiresAt
    requires Live(s, c, now) && s.capabilities[c].inFlight < MAX_PROXY_CONCURRENCY
    ensures References(s)
    ensures var begun := RedeemBegun(s, c).0;
            var (q, session) := RedeemFinished(begun, c, at, Passed, true, now);
            && session == Some(s.secrets) && References(q) && c !in q.nonces && !RedeemBegun(q, c).1
            && (ProxyBegun(q, c, cookie, now).1 <==> cookie == session)
  {
    assert References(s);
  }
}
