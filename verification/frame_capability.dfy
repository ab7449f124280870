/**
 Frame capabilities of a browser session: one-time nonces, routes, proxied requests, and the
 registry of WebSockets. Each function is one segment without an await. Secrets are fresh
 numbers, and a capability's nonce and route are identified with the capability; the
 answers of the target resolver and the clock are parameters.
 */
module FrameCapability {
  import opened CanonicalJson

  type CapId = nat
  type RegId = nat

  datatype Attempt = Attempt(project: Text, run: Text, generation: nat)
  datatype Target = Target(attempt: Attempt, expiresAt: int, maxConnections: Option<nat>)

  datatype Capability = Capability(
    appGeneration: nat, target: Target, nonceExpiresAt: int, cookie: Option<nat>, brokerExpiresAt: int,
    inFlight: int, redeeming: bool, epoch: nat, sockets: set<RegId>)

  datatype Registration = Registration(capability: CapId, owner: nat, open: bool, epoch: nat, released: bool)

  datatype Session = Session(generation: nat, expiresAt: int)

  /** `secrets` counts the cookies handed out. */
  datatype State = State(
    generation: nat, session: Option<Session>, nonces: set<CapId>, routes: set<CapId>,
    attempts: map<Attempt, set<RegId>>,
    capabilities: seq<Capability>, registrations: seq<Registration>, secrets: nat)

  datatype Inspection = Passed | Failed | Threw

  const APP_SESSION_TTL_MS := 15 * 60_000
  const FRAME_NONCE_TTL_MS := 60_000
  const BROKER_SESSION_TTL_MS := 15 * 60_000
  const MAX_PROXY_CONCURRENCY := 8

  /** Every reference leads to an object. */
  predicate References(s: State) {
    && (forall c | c in s.nonces :: c < |s.capabilities|)
    && (forall c | c in s.routes :: c < |s.capabilities|)
    && (forall r | 0 <= r < |s.registrations| :: s.registrations[r].capability < |s.capabilities|)
    && (forall c, r | 0 <= c < |s.capabilities| && r in s.capabilities[c].sockets :: r < |s.registrations|)
  }

  function Put(s: State, c: CapId, capability: Capability): (r: State)
    requires c < |s.capabilities|
    ensures |r.capabilities| == |s.capabilities| && r.registrations == s.registrations
  {
    s.(capabilities := s.capabilities[c := capability])
  }

  function Min(a: int, b: int): int {
    if a < b then a else b
  }

  // Sockets and revocation.

  function WithoutSocket(attempts: map<Attempt, set<RegId>>, k: Attempt, r: RegId): map<Attempt, set<RegId>> {
    if k !in attempts then attempts
    else if attempts[k] - {r} == {} then attempts - {k}
    else attempts[k := attempts[k] - {r}]
  }

  /** `#releaseWebSocket`. */
  function Released(s: State, r: RegId): (q: State)
    requires References(s)
    ensures References(q) && |q.capabilities| == |s.capabilities| && |q.registrations| == |s.registrations|
  {
    if r >= |s.registrations| || s.registrations[r].released then s
    else
      var g := s.registrations[r];
      var owner := s.capabilities[g.capability];
      s.(registrations := s.registrations[r := g.(released := true)],
         capabilities := s.capabilities[g.capability := owner.(sockets := owner.sockets - {r})],
         attempts := WithoutSocket(s.attempts, owner.target.attempt, r))
  }

  function ReleasedEach(s: State, rs: seq<RegId>): (q: State)
    requires References(s)
    ensures References(q) && |q.capabilities| == |s.capabilities| && |q.registrations| == |s.registrations|
    decreases |rs|
  {
    if rs == [] then s else Released(ReleasedEach(s, rs[..|rs| - 1]), rs[|rs| - 1])
  }

  /** Which registrations an owner's `close` releases before it returns. */
  type Reentry = RegId -> seq<RegId>

  /** The members of a set below `n`, in insertion order. */
  function Listed(members: set<nat>, n: nat): (r: seq<nat>)
    ensures forall i | 0 <= i < |r| :: r[i] in members && r[i] < n
    ensures forall x | x in members && x < n :: x in r
  {
    if n == 0 then [] else Listed(members, n - 1) + if n - 1 in members then [n - 1] else []
  }

  function ClosedEach(s: State, rs: seq<RegId>, reentry: Reentry): (q: State)
    requires References(s)
    ensures References(q) && |q.capabilities| == |s.capabilities| && |q.registrations| == |s.registrations|
    decreases |rs|
  {
    if rs == [] then s
    else
      var before := ClosedEach(s, rs[..|rs| - 1], reentry);
      Released(ReleasedEach(before, reentry(rs[|rs| - 1])), rs[|rs| - 1])
  }

  /** `#revokeCapability`. */
  function RevokedCapability(s: State, c: CapId, reentry: Reentry): (q: State)
    requires References(s) && c < |s.capabilities|
    ensures References(q) && |q.capabilities| == |s.capabilities| && |q.registrations| == |s.registrations|
  {
    var begun := Put(s, c, s.capabilities[c].(epoch := s.capabilities[c].epoch + 1));
    var closed := ClosedEach(begun, Listed(begun.capabilities[c].sockets, |s.registrations|), reentry);
    closed.(routes := closed.routes - {c}, nonces := closed.nonces - {c})
  }

  function RevokedEach(s: State, cs: seq<CapId>, reentry: Reentry): (q: State)
    requires References(s) && forall i | 0 <= i < |cs| :: cs[i] < |s.capabilities|
    ensures References(q) && |q.capabilities| == |s.capabilities| && |q.registrations| == |s.registrations|
    decreases |cs|
  {
    if cs == [] then s
    else
      RevokedCapability(RevokedEach(s, cs[..|cs| - 1], reentry), cs[|cs| - 1], reentry)
  }

  /** `revoke` and `revokeRun`, by the capabilities they match. */
  function Revoked(s: State, matching: set<CapId>, reentry: Reentry): (q: State)
    requires References(s)
    ensures References(q) && |q.capabilities| == |s.capabilities| && |q.registrations| == |s.registrations|
  {
    RevokedEach(s, Listed(s.routes * matching, |s.capabilities|), reentry)
  }

  function Cleared(s: State, reentry: Reentry): (q: State)
    requires References(s)
    ensures References(q) && |q.capabilities| == |s.capabilities| && |q.registrations| == |s.registrations|
  {
    RevokedEach(s, Listed(s.routes, |s.capabilities|), reentry)
      .(generation := s.generation + 1, session := None, nonces := {}, routes := {}, attempts := map[])
  }

  function Bootstrapped(s: State, now: int, reentry: Reentry): State
    requires References(s)
  {
    Cleared(s, reentry).(session := Some(Session(s.generation + 1, now + APP_SESSION_TTL_MS)))
  }

  // Capabilities.

  /** `#live`. */
  predicate Live(s: State, c: CapId, now: int)
    requires c < |s.capabilities|
  {
    && s.session.Some? && s.capabilities[c].appGeneration == s.session.value.generation
    && s.capabilities[c].target.expiresAt > now
  }

  /** `issueFrameSession` after its last await; `resolvedAt` is the clock read before the inspection. */
  function Issued(s: State, session: Session, target: Target, allowed: bool, resolvedAt: int): (State, Option<CapId>) {
    if s.session.None? || s.session.value.generation != session.generation
        || s.session.value.expiresAt <= resolvedAt then (s, None)
    else
      var expiresAt := Min(Min(resolvedAt + FRAME_NONCE_TTL_MS, target.expiresAt), session.expiresAt);
      if !allowed || expiresAt <= resolvedAt then (s, None)
      else
        var c := |s.capabilities|;
        (s.(capabilities := s.capabilities
            + [Capability(session.generation, target, expiresAt, None, 0, 0, false, 0, {})],
            nonces := s.nonces + {c}, routes := s.routes + {c}),
         Some(c))
  }

  /** `redeem` up to its await: the nonce is spent. */
  function RedeemBegun(s: State, c: CapId): (State, bool)
    requires References(s)
  {
    if c !in s.nonces then (s, false)
    else (Put(s, c, s.capabilities[c].(redeeming := true)).(nonces := s.nonces - {c}), true)
  }

  /** `redeem` after its await: the cookie of the broker session, or refusal and the end of the route. */
  function RedeemFinished(s: State, c: CapId, startedAt: int, inspection: Inspection, allowed: bool,
      now: int): (State, Option<nat>)
    requires c < |s.capabilities|
  {
    var idle := s.capabilities[c].(redeeming := false);
    if inspection.Passed? && c in s.routes && s.capabilities[c].nonceExpiresAt > startedAt
        && s.capabilities[c].nonceExpiresAt > now
       && Live(s, c, startedAt) && Live(s, c, now) && allowed
    then
      (Put(s, c, idle.(cookie := Some(s.secrets),
          brokerExpiresAt := Min(now + BROKER_SESSION_TTL_MS, idle.target.expiresAt)))
         .(secrets := s.secrets + 1),
       Some(s.secrets))
    else (Put(s, c, idle).(routes := s.routes - {c}), None)
  }

  /** A broker session that may be used now. */
  predicate Open(s: State, c: CapId, now: int) {
    c in s.routes && c < |s.capabilities| && s.capabilities[c].cookie.Some? && s.capabilities[c].brokerExpiresAt > now
        && Live(s, c, now)
  }

  /** `proxy` up to its first await. */
  function ProxyBegun(s: State, c: CapId, cookie: Option<nat>, now: int): (State, bool) {
    if !Open(s, c, now) || cookie != s.capabilities[c].cookie
        || s.capabilities[c].inFlight >= MAX_PROXY_CONCURRENCY then (s, false)
    else (Put(s, c, s.capabilities[c].(inFlight := s.capabilities[c].inFlight + 1)), true)
  }

  function ProxyLeft(s: State, c: CapId): State
    requires c < |s.capabilities|
  {
    Put(s, c, s.capabilities[c].(inFlight := s.capabilities[c].inFlight - 1))
  }

  /** Either inspection of `proxy`: whether it goes on. A failed one removes the route. */
  function ProxyInspected(s: State, c: CapId, inspection: Inspection, now: int): (State, bool)
    requires c < |s.capabilities|
  {
    if inspection.Threw? then (ProxyLeft(s, c), false)
    else if inspection.Failed? then (ProxyLeft(s.(routes := s.routes - {c}), c), false)
    else if c !in s.routes || s.capabilities[c].brokerExpiresAt <= now || !Live(s, c, now) then (ProxyLeft(s, c), false)
    else (s, true)
  }

  // WebSockets.

  /** `live` of an admission. */
  predicate SocketCurrent(s: State, r: RegId, now: int)
    requires References(s) && r < |s.registrations|
  {
    var g := s.registrations[r];
    && !g.released && g.epoch == s.capabilities[g.capability].epoch
    && g.capability in s.routes && s.capabilities[g.capability].brokerExpiresAt > now && Live(s, g.capability, now)
  }

  function SocketsOf(s: State, k: Attempt): set<RegId> {
    if k in s.attempts then s.attempts[k] else {}
  }

  /** `admitWebSocket` up to its await; `requested` stands for the checks of the request alone. */
  function SocketBegun(s: State, c: CapId, cookie: Option<nat>, owner: nat, requested: bool, allowed: bool, now: int,
      later: int): (State, Option<RegId>)
    requires References(s)
  {
    if !Open(s, c, now) || s.capabilities[c].target.maxConnections.None? || cookie != s.capabilities[c].cookie
        || !requested || !allowed
    then (s, None)
    else
      var capability := s.capabilities[c];
      var sockets := SocketsOf(s, capability.target.attempt);
      if |sockets| >= capability.target.maxConnections.value
         || exists r | r in sockets :: r < |s.registrations| && s.registrations[r].owner == owner
      then (s, None)
      else
        var r := |s.registrations|;
        var added :=
          Put(s, c, capability.(sockets := capability.sockets + {r}))
            .(registrations := s.registrations + [Registration(c, owner, false, capability.epoch, false)],
              attempts := s.attempts[capability.target.attempt := sockets + {r}]);
        if SocketCurrent(added, r, later) then (added, Some(r)) else (Released(added, r), None)
  }

  /** What an admission does on a check: release, unless it is current. */
  function SocketChecked(s: State, r: RegId, passed: bool, now: int): (State, bool)
    requires References(s) && r < |s.registrations|
  {
    if passed && SocketCurrent(s, r, now) then (s, true) else (Released(s, r), false)
  }

  function SocketOpened(s: State, r: RegId, now: int): (State, bool)
    requires References(s) && r < |s.registrations|
  {
    if SocketCurrent(s, r, now) then (s.(registrations := s.registrations[r := s.registrations[r].(open := true)]),
        true)
    else (Released(s, r), false)
  }

  // The capability service.

  class BrowserFrameCapability {
    var generation: nat
    var session: Option<Session>
    var nonces: set<CapId>
    var routes: set<CapId>
    var attempts: map<Attempt, set<RegId>>
    var capabilities: seq<Capability>
    var registrations: seq<Registration>
    var secrets: nat

    function View(): State
      reads this
    {
      State(generation, session, nonces, routes, attempts, capabilities, registrations, secrets)
    }

    constructor ()
      ensures View() == State(0, None, {}, {}, map[], [], [], 0)
    {
      generation, session, nonces, routes, attempts := 0, None, {}, {}, map[];
      capabilities, registrations, secrets := [], [], 0;
    }

    method ReleaseWebSocket(r: RegId)
      requires References(View())
      modifies this
      ensures View() == Released(old(View()), r)
    {
      if r >= |registrations| || registrations[r].released {
        return;
      }
      var g := registrations[r];
      registrations := registrations[r := g.(released := true)];
      var owner := capabilities[g.capability];
      capabilities := capabilities[g.capability := owner.(sockets := owner.sockets - {r})];
      var k := owner.target.attempt;
      if k in attempts {
        attempts := attempts[k := attempts[k] - {r}];
        if attempts[k] == {} {
          attempts := attempts - {k};
        }
      }
      assert attempts == WithoutSocket(old(attempts), k, r);
    }

    /** `close` of an owner, as far as it calls back: it may release any registrations. */
    method CloseOwner(released: seq<RegId>)
      requires References(View())
      modifies this
      ensures View() == ReleasedEach(old(View()), released)
    {
      var i := 0;
      while i < |released|
        invariant i <= |released|
        invariant View() == ReleasedEach(old(View()), released[..i])
      {
        ReleaseWebSocket(released[i]);
        assert released[..i + 1][..i] == released[..i];
        i := i + 1;
      }
      assert released[..i] == released;
    }

    /** The loop over a snapshot of a capability's sockets. */
    method CloseSockets(snapshot: seq<RegId>, reentry: Reentry)
      requires References(View())
      modifies this
      ensures View() == ClosedEach(old(View()), snapshot, reentry)
    {
      hide Released, ReleasedEach, References;
      var i := 0;
      while i < |snapshot|
        invariant i <= |snapshot| && References(View())
        invariant View() == ClosedEach(old(View()), snapshot[..i], reentry)
      {
        CloseOwner(reentry(snapshot[i]));
        ReleaseWebSocket(snapshot[i]);
        assert snapshot[..i + 1][..i] == snapshot[..i];
        i := i + 1;
      }
      assert snapshot[..i] == snapshot;
    }

    method RevokeCapability(c: CapId, reentry: Reentry)
      requires References(View()) && c < |capabilities|
      modifies this
      ensures View() == RevokedCapability(old(View()), c, reentry)
    {
      capabilities := capabilities[c := capabilities[c].(epoch := capabilities[c].epoch + 1)];
      ghost var begun := View();
      BegunReferences(old(View()), c);
      CloseSockets(Listed(capabilities[c].sockets, |registrations|), reentry);
      assert begun == Put(old(View()), c, old(capabilities)[c].(epoch := old(capabilities)[c].epoch + 1));
      hide ClosedEach, Listed, References;
      routes := routes - {c};
      nonces := nonces - {c};
    }

    method RevokeEach(cs: seq<CapId>, reentry: Reentry)
      requires References(View()) && forall i | 0 <= i < |cs| :: cs[i] < |capabilities|
      modifies this
      ensures View() == RevokedEach(old(View()), cs, reentry)
    {
      hide RevokedCapability, References;
      var i := 0;
      while i < |cs|
        invariant i <= |cs| && References(View()) && |capabilities| == old(|capabilities|)
        invariant View() == RevokedEach(old(View()), cs[..i], reentry)
      {
        RevokeCapability(cs[i], reentry);
        assert cs[..i + 1][..i] == cs[..i];
        i := i + 1;
      }
      assert cs[..i] == cs;
    }

    method Revoke(matching: set<CapId>, reentry: Reentry)
      requires References(View())
      modifies this
      ensures View() == Revoked(old(View()), matching, reentry)
    {
      RevokeEach(Listed(routes * matching, |capabilities|), reentry);
    }

    method Clear(reentry: Reentry)
      requires References(View())
      modifies this
      ensures View() == Cleared(old(View()), reentry)
    {
      hide RevokedEach, References, Listed;
      RevokeEach(Listed(routes, |capabilities|), reentry);
      RevokedKeepsGeneration(old(View()), Listed(old(routes), |old(capabilities)|), reentry);
      generation := generation + 1;
      session := None;
      nonces, routes, attempts := {}, {}, map[];
    }

    method Bootstrap(now: int, reentry: Reentry)
      requires References(View())
      modifies this
      ensures View() == Bootstrapped(old(View()), now, reentry)
    {
      Clear(reentry);
      session := Some(Session(generation, now + APP_SESSION_TTL_MS));
    }

    method FinishIssue(issuer: Session, target: Target, allowed: bool, resolvedAt: int) returns (c: Option<CapId>)
      modifies this
      ensures (View(), c) == Issued(old(View()), issuer, target, allowed, resolvedAt)
    {
      if session.None? || session.value.generation != issuer.generation || session.value.expiresAt <= resolvedAt
          || !allowed {
        return None;
      }
      var expiresAt := Min(Min(resolvedAt + FRAME_NONCE_TTL_MS, target.expiresAt), issuer.expiresAt);
      if expiresAt <= resolvedAt {
        return None;
      }
      var added := |capabilities|;
      capabilities := capabilities + [Capability(issuer.generation, target, expiresAt, None, 0, 0, false, 0, {})];
      nonces := nonces + {added};
      routes := routes + {added};
      return Some(added);
    }

    method BeginRedeem(c: CapId) returns (ok: bool)
      requires References(View())
      modifies this
      ensures (View(), ok) == RedeemBegun(old(View()), c)
    {
      if c !in nonces {
        return false;
      }
      nonces := nonces - {c};
      capabilities := capabilities[c := capabilities[c].(redeeming := true)];
      return true;
    }

    method FinishRedeem(c: CapId, startedAt: int, inspection: Inspection, allowed: bool, now: int)
        returns (cookie: Option<nat>)
      requires c < |capabilities|
      modifies this
      ensures (View(), cookie) == RedeemFinished(old(View()), c, startedAt, inspection, allowed, now)
    {
      capabilities := capabilities[c := capabilities[c].(redeeming := false)];
      assert View() == Put(old(View()), c, old(capabilities)[c].(redeeming := false));
      if inspection.Threw? || capabilities[c].nonceExpiresAt <= startedAt || !Live(View(), c, startedAt)
          || inspection.Failed?
         || c !in routes || capabilities[c].nonceExpiresAt <= now || !Live(View(), c, now) || !allowed {
        routes := routes - {c};
        return None;
      }
      cookie := Some(secrets);
      secrets := secrets + 1;
      capabilities := capabilities[c := capabilities[c].(
        cookie := cookie, brokerExpiresAt := Min(now + BROKER_SESSION_TTL_MS, capabilities[c].target.expiresAt))];
      assert capabilities == old(capabilities)[c := capabilities[c]];
    }

    method BeginProxy(c: CapId, cookie: Option<nat>, now: int) returns (ok: bool)
      modifies this
      ensures (View(), ok) == ProxyBegun(old(View()), c, cookie, now)
    {
      if !Open(View(), c, now) || cookie != capabilities[c].cookie
          || capabilities[c].inFlight >= MAX_PROXY_CONCURRENCY {
        return false;
      }
      capabilities := capabilities[c := capabilities[c].(inFlight := capabilities[c].inFlight + 1)];
      return true;
    }

    method LeaveProxy(c: CapId)
      requires c < |capabilities|
      modifies this
      ensures View() == ProxyLeft(old(View()), c)
    {
      capabilities := capabilities[c := capabilities[c].(inFlight := capabilities[c].inFlight - 1)];
    }

    method InspectProxy(c: CapId, inspection: Inspection, now: int) returns (ok: bool)
      requires c < |capabilities|
      modifies this
      ensures (View(), ok) == ProxyInspected(old(View()), c, inspection, now)
    {
      ok := inspection.Passed? && c in routes && capabilities[c].brokerExpiresAt > now && Live(View(), c, now);
      if inspection.Failed? {
        routes := routes - {c};
      }
      if !ok {
        LeaveProxy(c);
      }
    }

    method BeginWebSocket(c: CapId, cookie: Option<nat>, owner: nat, requested: bool, allowed: bool, now: int,
        later: int) returns (r: Option<RegId>)
      requires References(View())
      modifies this
      ensures (View(), r) == SocketBegun(old(View()), c, cookie, owner, requested, allowed, now, later)
    {
      hide Released, Live;
      if !Open(View(), c, now) || capabilities[c].target.maxConnections.None? || cookie != capabilities[c].cookie
          || !requested || !allowed {
        return None;
      }
      var k := capabilities[c].target.attempt;
      var sockets := SocketsOf(View(), k);
      if |sockets| >= capabilities[c].target.maxConnections.value
         || exists r | r in sockets :: r < |registrations| && registrations[r].owner == owner {
        return None;
      }
      var added := |registrations|;
      registrations := registrations + [Registration(c, owner, false, capabilities[c].epoch, false)];
      attempts := attempts[k := sockets + {added}];
      capabilities := capabilities[c := capabilities[c].(sockets := capabilities[c].sockets + {added})];
      if SocketCurrent(View(), added, later) {
        return Some(added);
      }
      ReleaseWebSocket(added);
      return None;
    }

    method CheckWebSocket(r: RegId, passed: bool, now: int) returns (ok: bool)
      requires References(View()) && r < |registrations|
      modifies this
      ensures (View(), ok) == SocketChecked(old(View()), r, passed, now)
    {
      ok := passed && SocketCurrent(View(), r, now);
      if !ok {
        ReleaseWebSocket(r);
      }
    }

    method MarkOpen(r: RegId, now: int) returns (ok: bool)
      requires References(View()) && r < |registrations|
      modifies this
      ensures (View(), ok) == SocketOpened(old(View()), r, now)
    {
      ok := SocketCurrent(View(), r, now);
      if ok {
        registrations := registrations[r := registrations[r].(open := true)];
      } else {
        ReleaseWebSocket(r);
      }
    }
  }

  lemma BegunReferences(s: State, c: CapId)
    requires References(s) && c < |s.capabilities|
    ensures References(Put(s, c, s.capabilities[c].(epoch := s.capabilities[c].epoch + 1)))
  {
  }

  lemma {:induction false} ReleasedKeepsGeneration(s: State, rs: seq<RegId>)
    requires References(s)
    ensures ReleasedEach(s, rs).generation == s.generation && ReleasedEach(s, rs).session == s.session
    ensures ReleasedEach(s, rs).secrets == s.secrets
    ensures ReleasedEach(s, rs).routes == s.routes && ReleasedEach(s, rs).nonces == s.nonces
    decreases |rs|
  {
    hide References;
    if rs != [] {
      ReleasedKeepsGeneration(s, rs[..|rs| - 1]);
    }
  }

  lemma {:induction false} ClosedKeepsGeneration(s: State, rs: seq<RegId>, reentry: Reentry)
    requires References(s)
    ensures var q := ClosedEach(s, rs, reentry);
            && q.generation == s.generation && q.session == s.session && q.secrets == s.secrets
            && q.routes == s.routes && q.nonces == s.nonces
    decreases |rs|
  {
    hide References;
    if rs != [] {
      ClosedKeepsGeneration(s, rs[..|rs| - 1], reentry);
      ReleasedKeepsGeneration(ClosedEach(s, rs[..|rs| - 1], reentry), reentry(rs[|rs| - 1]));
    }
  }

  lemma {:induction false} RevokedKeepsGeneration(s: State, cs: seq<CapId>, reentry: Reentry)
    requires References(s) && forall i | 0 <= i < |cs| :: cs[i] < |s.capabilities|
    ensures var q := RevokedEach(s, cs, reentry);
            q.generation == s.generation && q.session == s.session && q.secrets == s.secrets
    decreases |cs|
  {
    hide References, ClosedEach, Listed;
    if cs != [] {
      RevokedKeepsGeneration(s, cs[..|cs| - 1], reentry);
      var before, c := RevokedEach(s, cs[..|cs| - 1], reentry), cs[|cs| - 1];
      BegunReferences(before, c);
      var begun := Put(before, c, before.capabilities[c].(epoch := before.capabilities[c].epoch + 1));
      ClosedKeepsGeneration(begun, Listed(begun.capabilities[c].sockets, |before.registrations|), reentry);
    }
  }
}
