/**
 Runs of the server: segments of any number of concurrent calls in any order, with the clock
 moving between them. The log is what the executor and the permission prompt have seen.
 */
module AgentMcpRuns {
  import opened CanonicalJson
  import opened CanonicalBytes
  import opened Planner
  import opened AgentMcp

  datatype Entry =
    | Authorization(cap: Capability, commitment: Commitment)
    | Call(cap: Capability, tool: Tool, input: Json, admission: Admission)

  /** `terms` remembers every grant as issued. */
  datatype System = System(s: State, clock: int, terms: map<Capability, Grant>, log: seq<Entry>)

  /** `pause` is how far the clock moves between the two readings of one segment. */
  datatype Event =
    | Issue(cap: Capability, terms: Grant)
    | RevokeOne(cap: Capability)
    | RevokeConversation(conversation: Text)
    | RevokeGeneration(conversation: Text, generation: nat)
    | RevokeEverything
    | DropExpired(caps: set<Capability>)
    | Authorize(cap: Capability, commitment: Commitment, pause: nat)
    | ToolCall(cap: Capability, tool: Tool, input: Json, pause: nat)
    | Finish(cap: Capability)
    | Tick(duration: nat)

  const INITIAL: System := System(State(map[], {}, {}, {}, map[]), 0, map[], [])

  function Expired(s: State, caps: set<Capability>, now: int): set<Capability> {
    set cap | cap in caps && cap in s.grants && s.grants[cap].expiresAt <= now
  }

  /** One segment. A capability is issued once: it is a fresh random identifier. */
  function Apply(env: Environment, y: System, e: Event): System {
    match e
    case Issue(cap, terms) =>
      if cap in y.terms || !GrantAccepted(env, terms) then y
      else
        y.(s := y.s.(grants := y.s.grants[cap := terms]), terms := y.terms[cap := terms],
           log := if terms.commitment.Some? then y.log + [Authorization(cap, terms.commitment.value)] else y.log)
    case RevokeOne(cap) => y.(s := Revoked(y.s, {cap}))
    case RevokeConversation(conversation) => y.(s := Revoked(y.s, InConversation(y.s, conversation)))
    case RevokeGeneration(conversation, generation) =>
      y.(s := Revoked(y.s, InGeneration(y.s, conversation, generation)))
    case RevokeEverything => y.(s := State(map[], {}, {}, {}, map[]))
    case DropExpired(caps) => y.(s := y.s.(grants := y.s.grants - Expired(y.s, caps, y.clock)))
    case Authorize(cap, c, pause) =>
      var (s, ok) := Authorized(env, y.s, cap, c, y.clock, y.clock + pause);
      y.(s := s, clock := y.clock + pause, log := if ok then y.log + [Authorization(cap, c)] else y.log)
    case ToolCall(cap, tool, input, pause) =>
      var (s, decision) := Admit(env, y.s, cap, tool, input, y.clock, y.clock + pause);
      y.(s := s, clock := y.clock + pause,
         log := if decision.Started? then y.log + [Call(cap, tool, input, decision.admission)] else y.log)
    case Finish(cap) => y.(s := y.s.(inFlight := y.s.inFlight - {cap}))
    case Tick(duration) => y.(clock := y.clock + duration)
  }

  function Continue(env: Environment, y: System, events: seq<Event>): System
    decreases |events|
  {
    if events == [] then y else Continue(env, Apply(env, y, events[0]), events[1..])
  }

  function Run(env: Environment, events: seq<Event>): System {
    Continue(env, INITIAL, events)
  }

  // What the log says.

  /** The commitment in force after a log: the last one authorized. */
  function Latest(log: seq<Entry>, cap: Capability): Option<Commitment> {
    if log == [] then None
    else
      var e := log[|log| - 1];
      if e.Authorization? && e.cap == cap then Some(e.commitment) else Latest(log[..|log| - 1], cap)
  }

  predicate IsImplicit(e: Entry, cap: Capability, tool: Tool) {
    e.Call? && e.cap == cap && e.tool == tool && e.admission.Implicit?
  }

  predicate IsPermitted(e: Entry, cap: Capability) {
    e.Call? && e.cap == cap && e.admission.Permitted?
  }

  function ImplicitCalls(log: seq<Entry>, cap: Capability, tool: Tool): nat {
    if log == [] then 0
    else ImplicitCalls(log[..|log| - 1], cap, tool) + if IsImplicit(log[|log| - 1], cap, tool) then 1 else 0
  }

  function PermittedCalls(log: seq<Entry>, cap: Capability): nat {
    if log == [] then 0
    else PermittedCalls(log[..|log| - 1], cap) + if IsPermitted(log[|log| - 1], cap) then 1 else 0
  }

  predicate CallIsAuthorized(env: Environment, before: seq<Entry>, e: Entry) {
    e.Call? && e.admission.Permitted? ==>
      && OperationDigest(env, e.tool, e.input) == Some(e.admission.digest)
      && Latest(before, e.cap) == Some(Commitment(e.tool, e.admission.digest))
  }

  predicate CallsAreAuthorized(env: Environment, log: seq<Entry>) {
    forall i | 0 <= i < |log| :: CallIsAuthorized(env, log[..i], log[i])
  }

  function Budget(env: Environment, terms: map<Capability, Grant>, cap: Capability, tool: Tool): nat {
    if cap in terms then Limit(env, terms[cap], tool) else 0
  }

  lemma Append(env: Environment, log: seq<Entry>, e: Entry)
    ensures forall cap ::
            Latest(log + [e], cap) == if e.Authorization? && e.cap == cap then Some(e.commitment) else Latest(log, cap)
    ensures forall cap, tool ::
            ImplicitCalls(log + [e], cap, tool) == ImplicitCalls(log, cap, tool) + if IsImplicit(e, cap, tool) then 1
                else 0
    ensures forall cap ::
            PermittedCalls(log + [e], cap) == PermittedCalls(log, cap) + if IsPermitted(e, cap) then 1 else 0
    ensures CallsAreAuthorized(env, log) && CallIsAuthorized(env, log, e) ==> CallsAreAuthorized(env, log + [e])
  {
    var more := log + [e];
    assert more[..|more| - 1] == log;
    hide CallIsAuthorized;
    if CallsAreAuthorized(env, log) && CallIsAuthorized(env, log, e) {
      forall i | 0 <= i < |more|
        ensures CallIsAuthorized(env, more[..i], more[i])
      {
        assert more[..i] == log[..i];
        assert i == |log| ==> log[..i] == log;
      }
    }
  }

  // The invariant.

  predicate SameTerms(g: Grant, h: Grant) {
    g.(commitment := None) == h.(commitment := None)
  }

  predicate LiveInvariant(env: Environment, y: System, cap: Capability)
    requires cap in y.s.grants
  {
    && cap in y.terms && SameTerms(y.s.grants[cap], y.terms[cap])
    && y.s.grants[cap].commitment == Latest(y.log, cap)
    && (cap in y.s.consumed <==> PermittedCalls(y.log, cap) == 1)
    && (cap in y.s.consumed ==> cap !in y.s.rejected)
    && (cap in y.s.rejected ==> y.s.grants[cap].commitment.Some?)
  }

  ghost predicate Invariant(env: Environment, y: System) {
    && (forall cap | cap in y.s.grants :: LiveInvariant(env, y, cap))
    && (forall cap, tool | cap in y.s.grants :: Spent(y.s, cap, tool) == ImplicitCalls(y.log, cap, tool))
    && (forall cap | cap !in y.terms ::
          cap !in y.s.spent && cap !in y.s.consumed && cap !in y.s.rejected
          && Latest(y.log, cap).None? && PermittedCalls(y.log, cap) == 0)
    && (forall cap :: PermittedCalls(y.log, cap) <= 1)
    && (forall cap, tool :: ImplicitCalls(y.log, cap, tool) <= Budget(env, y.terms, cap, tool))
    && CallsAreAuthorized(env, y.log)
  }

  lemma RevokedKeepsInvariant(env: Environment, y: System, caps: set<Capability>)
    requires Invariant(env, y)
    ensures Invariant(env, y.(s := Revoked(y.s, caps)))
  {
    hide Latest, ImplicitCalls, PermittedCalls, CallsAreAuthorized;
    var z := y.(s := Revoked(y.s, caps));
    forall cap | cap in z.s.grants
      ensures LiveInvariant(env, z, cap)
    {
      assert LiveInvariant(env, y, cap);
    }
    forall cap, tool | cap in z.s.grants
      ensures Spent(z.s, cap, tool) == Spent(y.s, cap, tool)
    {
    }
  }

  lemma ActiveKeepsInvariant(env: Environment, y: System, cap: Capability, now: int, later: int)
    requires Invariant(env, y) && now <= later
    ensures var (s, grant) := Active(y.s, cap, now, later);
            && Invariant(env, y.(s := s))
            && (grant.Some? ==> s == y.s && cap in y.s.grants && grant.value == y.s.grants[cap])
  {
    hide Invariant;
    RevokedKeepsInvariant(env, y, {cap});
    assert y.(s := y.s) == y;
  }

  /** A log that gained at most an authorization. */
  ghost predicate Extends(env: Environment, log: seq<Entry>, more: seq<Entry>, cap: Capability, c: Option<Commitment>) {
    && (forall other :: Latest(more, other) == if other == cap && c.Some? then c else Latest(log, other))
    && (forall other, tool :: ImplicitCalls(more, other, tool) == ImplicitCalls(log, other, tool))
    && (forall other :: PermittedCalls(more, other) == PermittedCalls(log, other))
    && (CallsAreAuthorized(env, log) ==> CallsAreAuthorized(env, more))
  }

  lemma IssueExtends(env: Environment, log: seq<Entry>, cap: Capability, c: Option<Commitment>)
    ensures Extends(env, log, if c.Some? then log + [Authorization(cap, c.value)] else log, cap, c)
  {
    if c.Some? {
      Append(env, log, Authorization(cap, c.value));
    }
  }

  lemma IssueKeepsInvariant(env: Environment, y: System, cap: Capability, terms: Grant)
    requires Invariant(env, y)
    ensures Invariant(env, Apply(env, y, Issue(cap, terms)))
  {
    hide Latest, ImplicitCalls, PermittedCalls, CallsAreAuthorized, Limit, GrantAccepted;
    if cap !in y.terms && GrantAccepted(env, terms) {
      var z := Apply(env, y, Issue(cap, terms));
      IssueExtends(env, y.log, cap, terms.commitment);
      forall other | other in z.s.grants
        ensures LiveInvariant(env, z, other)
      {
        assert other != cap ==> LiveInvariant(env, y, other);
      }
      IssueKeepsCounts(env, y, cap, terms, z);
    }
  }

  lemma IssueKeepsCounts(env: Environment, y: System, cap: Capability, terms: Grant, z: System)
    requires Invariant(env, y) && cap !in y.terms
    requires z == y.(s := y.s.(grants := y.s.grants[cap := terms]), terms := y.terms[cap := terms], log := z.log)
    requires Extends(env, y.log, z.log, cap, terms.commitment)
    ensures forall other, tool | other in z.s.grants :: Spent(z.s, other, tool) == ImplicitCalls(z.log, other, tool)
    ensures forall other, tool :: ImplicitCalls(z.log, other, tool) <= Budget(env, z.terms, other, tool)
  {
    hide Latest, ImplicitCalls, PermittedCalls, CallsAreAuthorized, Limit, LiveInvariant;
    forall other, tool
      ensures ImplicitCalls(z.log, other, tool) <= Budget(env, z.terms, other, tool)
      ensures other in z.s.grants ==> Spent(z.s, other, tool) == ImplicitCalls(z.log, other, tool)
    {
      assert ImplicitCalls(y.log, other, tool) <= Budget(env, y.terms, other, tool);
      assert other in y.s.grants ==> Spent(y.s, other, tool) == ImplicitCalls(y.log, other, tool);
    }
  }

  lemma AuthorizeKeepsInvariant(env: Environment, y: System, cap: Capability, c: Commitment, pause: nat)
    requires Invariant(env, y)
    ensures Invariant(env, Apply(env, y, Authorize(cap, c, pause)))
  {
    ActiveKeepsInvariant(env, y, cap, y.clock, y.clock + pause);
    var (s, grant) := Active(y.s, cap, y.clock, y.clock + pause);
    var x := y.(s := s, clock := y.clock + pause);
    var z := Apply(env, y, Authorize(cap, c, pause));
    ClockKeepsInvariant(env, y.(s := s), y.clock + pause);
    RevokedKeepsInvariant(env, x, {cap});
    if z.log != y.log {
      AuthorizedKeepsInvariant(env, x, cap, c);
    }
    hide Invariant, Active, Revoked, HexDigest;
    assert z.log == y.log ==> z == x || z == x.(s := Revoked(s, {cap}));
  }

  /** An authorization that stands: the first, a repetition, or a replacement before anything was consumed. */
  lemma AuthorizedKeepsInvariant(env: Environment, y: System, cap: Capability, c: Commitment)
    requires Invariant(env, y) && cap in y.s.grants && cap !in y.s.consumed
    ensures Invariant(env, y.(
              s := y.s.(grants := y.s.grants[cap := y.s.grants[cap].(commitment := Some(c))],
                  rejected := y.s.rejected - {cap}),
              log := y.log + [Authorization(cap, c)]))
    ensures y.s.grants[cap].commitment == Some(c) ==> Invariant(env, y.(log := y.log + [Authorization(cap, c)]))
  {
    Append(env, y.log, Authorization(cap, c));
    hide Latest, ImplicitCalls, PermittedCalls, CallsAreAuthorized, Limit;
    var repeated := y.(log := y.log + [Authorization(cap, c)]);
    var replaced := repeated.(
      s := y.s.(grants := y.s.grants[cap := y.s.grants[cap].(commitment := Some(c))],
          rejected := y.s.rejected - {cap}));
    forall other | other in y.s.grants
      ensures LiveInvariant(env, replaced, other)
      ensures y.s.grants[cap].commitment == Some(c) ==> LiveInvariant(env, repeated, other)
    {
      assert LiveInvariant(env, y, other);
    }
    SameCounts(env, y, replaced);
    SameCounts(env, y, repeated);
  }

  lemma SameCounts(env: Environment, y: System, z: System)
    requires Invariant(env, y) && z.terms == y.terms && z.s.spent == y.s.spent && z.s.grants.Keys == y.s.grants.Keys
    requires forall cap, tool :: ImplicitCalls(z.log, cap, tool) == ImplicitCalls(y.log, cap, tool)
    ensures forall cap, tool | cap in z.s.grants :: Spent(z.s, cap, tool) == ImplicitCalls(z.log, cap, tool)
    ensures forall cap, tool :: ImplicitCalls(z.log, cap, tool) <= Budget(env, z.terms, cap, tool)
  {
    hide ImplicitCalls, LiveInvariant, CallsAreAuthorized, PermittedCalls, Latest;
    forall cap, tool
      ensures ImplicitCalls(z.log, cap, tool) <= Budget(env, z.terms, cap, tool)
      ensures cap in z.s.grants ==> Spent(z.s, cap, tool) == ImplicitCalls(z.log, cap, tool)
    {
      assert ImplicitCalls(y.log, cap, tool) <= Budget(env, y.terms, cap, tool);
      assert cap in y.s.grants ==> Spent(y.s, cap, tool) == ImplicitCalls(y.log, cap, tool);
    }
  }

  /** The decision to start a call is backed by the grant it was made under. */
  predicate Admissible(env: Environment, s: State, cap: Capability, tool: Tool, input: Json, admission: Admission)
    requires cap in s.grants
  {
    match admission
    case Free => true
    case Implicit => Spent(s, cap, tool) < Limit(env, s.grants[cap], tool)
    case Permitted(digest) =>
      && cap !in s.consumed && OperationDigest(env, tool, input) == Some(digest)
      && s.grants[cap].commitment == Some(Commitment(tool, digest))
  }

  lemma StartedIsAdmissible(env: Environment, s: State, cap: Capability, tool: Tool, input: Json)
    requires cap in s.grants && Permission(env, s, cap, s.grants[cap], tool, input).Started?
    ensures Admissible(env, s, cap, tool, input, Permission(env, s, cap, s.grants[cap], tool, input).admission)
  {
    hide OperationDigest;
  }

  lemma LimitIsOfTerms(env: Environment, g: Grant, h: Grant, tool: Tool)
    requires SameTerms(g, h)
    ensures Limit(env, g, tool) == Limit(env, h, tool)
  {
  }

  lemma ChargedSpends(s: State, cap: Capability, tool: Tool, admission: Admission)
    ensures var after := Charged(s, cap, tool, admission);
            && after.grants == s.grants
            && (forall other, t :: Spent(after, other, t) ==
                  Spent(s, other, t) + if admission.Implicit? && other == cap && t == tool then 1 else 0)
            && after.consumed == (if admission.Permitted? then s.consumed + {cap} else s.consumed)
            && after.rejected == (if admission.Permitted? then s.rejected - {cap} else s.rejected)
            && after.spent.Keys <= s.spent.Keys + {cap}
  {
  }

  lemma StartKeepsLive(env: Environment, y: System, cap: Capability, tool: Tool, input: Json, admission: Admission)
    requires Invariant(env, y) && cap in y.s.grants && Admissible(env, y.s, cap, tool, input, admission)
    ensures var z := y.(s := Charged(y.s, cap, tool, admission), log := y.log + [Call(cap, tool, input, admission)]);
            && (forall other | other in z.s.grants :: LiveInvariant(env, z, other))
            && (forall other :: PermittedCalls(z.log, other) <= 1)
  {
    var z := y.(s := Charged(y.s, cap, tool, admission), log := y.log + [Call(cap, tool, input, admission)]);
    ChargedSpends(y.s, cap, tool, admission);
    Append(env, y.log, Call(cap, tool, input, admission));
    hide Latest, ImplicitCalls, PermittedCalls, CallsAreAuthorized, OperationDigest, Charged, Spent, Limit;
    assert LiveInvariant(env, y, cap);
    forall other | other in z.s.grants
      ensures LiveInvariant(env, z, other)
    {
      assert LiveInvariant(env, y, other);
    }
  }

  lemma StartKeepsCounts(env: Environment, y: System, cap: Capability, tool: Tool, input: Json, admission: Admission)
    requires Invariant(env, y) && cap in y.s.grants && Admissible(env, y.s, cap, tool, input, admission)
    ensures var z := y.(s := Charged(y.s, cap, tool, admission), log := y.log + [Call(cap, tool, input, admission)]);
            && (forall other, t | other in z.s.grants :: Spent(z.s, other, t) == ImplicitCalls(z.log, other, t))
            && (forall other, t :: ImplicitCalls(z.log, other, t) <= Budget(env, z.terms, other, t))
  {
    var z := y.(s := Charged(y.s, cap, tool, admission), log := y.log + [Call(cap, tool, input, admission)]);
    assert LiveInvariant(env, y, cap);
    LimitIsOfTerms(env, y.s.grants[cap], y.terms[cap], tool);
    ChargedSpends(y.s, cap, tool, admission);
    Append(env, y.log, Call(cap, tool, input, admission));
    hide Latest, ImplicitCalls, PermittedCalls, CallsAreAuthorized, OperationDigest, Charged, Spent, Limit;
    hide LiveInvariant;
    forall other, t
      ensures ImplicitCalls(z.log, other, t) <= Budget(env, z.terms, other, t)
    {
      assert ImplicitCalls(y.log, other, t) <= Budget(env, y.terms, other, t);
      assert Spent(y.s, cap, tool) == ImplicitCalls(y.log, cap, tool);
    }
  }

  lemma StartKeepsInvariant(env: Environment, y: System, cap: Capability, tool: Tool, input: Json, admission: Admission)
    requires Invariant(env, y) && cap in y.s.grants && Admissible(env, y.s, cap, tool, input, admission)
    ensures Invariant(env, y.(s := Charged(y.s, cap, tool, admission),
            log := y.log + [Call(cap, tool, input, admission)]))
  {
    StartKeepsLive(env, y, cap, tool, input, admission);
    StartKeepsCounts(env, y, cap, tool, input, admission);
    assert LiveInvariant(env, y, cap);
    ChargedSpends(y.s, cap, tool, admission);
    Append(env, y.log, Call(cap, tool, input, admission));
    hide Latest, ImplicitCalls, PermittedCalls, CallsAreAuthorized, OperationDigest, Charged, Spent, Limit;
    hide LiveInvariant, Budget;
  }

  lemma RejectKeepsInvariant(env: Environment, y: System, cap: Capability)
    requires Invariant(env, y) && cap in y.s.grants && cap !in y.s.consumed && y.s.grants[cap].commitment.Some?
    ensures Invariant(env, y.(s := y.s.(rejected := y.s.rejected + {cap})))
  {
    hide Latest, ImplicitCalls, PermittedCalls, CallsAreAuthorized;
    var z := y.(s := y.s.(rejected := y.s.rejected + {cap}));
    assert cap in y.terms by { assert LiveInvariant(env, y, cap); }
    forall other | other in z.s.grants
      ensures LiveInvariant(env, z, other)
    {
      assert LiveInvariant(env, y, other);
    }
    forall other, tool | other in z.s.grants
      ensures Spent(z.s, other, tool) == ImplicitCalls(z.log, other, tool)
    {
      assert Spent(y.s, other, tool) == ImplicitCalls(y.log, other, tool);
    }
  }

  lemma ClockKeepsInvariant(env: Environment, y: System, clock: int)
    requires Invariant(env, y)
    ensures Invariant(env, y.(clock := clock))
  {
    hide Latest, ImplicitCalls, PermittedCalls, CallsAreAuthorized, Limit, Spent;
    var z := y.(clock := clock);
    forall cap | cap in z.s.grants
      ensures LiveInvariant(env, z, cap)
    {
      assert LiveInvariant(env, y, cap);
    }
  }

  lemma ToolCallKeepsInvariant(env: Environment, y: System, cap: Capability, tool: Tool, input: Json, pause: nat)
    requires Invariant(env, y)
    ensures Invariant(env, Apply(env, y, ToolCall(cap, tool, input, pause)))
  {
    hide Invariant, Active, Permission, Validated, Charged, Admissible;
    var (s, grant) := Active(y.s, cap, y.clock, y.clock + pause);
    ActiveKeepsInvariant(env, y, cap, y.clock, y.clock + pause);
    ClockKeepsInvariant(env, y.(s := s), y.clock + pause);
    var x := y.(s := s, clock := y.clock + pause);
    var z := Apply(env, y, ToolCall(cap, tool, input, pause));
    if grant.Some? && tool in grant.value.allowed {
      var decision := Permission(env, s, cap, grant.value, tool, input);
      if decision.Started? {
        StartedIsAdmissible(env, s, cap, tool, input);
        var admission := decision.admission;
        var valid := Validated(env, grant.value, admission, tool, input);
        if valid.Some? {
          StartKeepsInvariant(env, x, cap, tool, input, admission);
          assert z == x.(s := Charged(s, cap, tool, admission), log := y.log + [Call(cap, tool, input, admission)]);
        } else if admission.Permitted? {
          PermittedFacts(env, s, cap, tool, input, admission);
          RejectKeepsInvariant(env, x, cap);
          assert z == x.(s := s.(rejected := s.rejected + {cap}));
        } else {
          assert z == x;
        }
      } else {
        assert z == x;
      }
    } else {
      assert z == x;
    }
  }

  lemma PermittedFacts(env: Environment, s: State, cap: Capability, tool: Tool, input: Json, admission: Admission)
    requires cap in s.grants && Admissible(env, s, cap, tool, input, admission) && admission.Permitted?
    ensures cap !in s.consumed && s.grants[cap].commitment.Some?
  {
  }

  lemma SmallerKeepsInvariant(env: Environment, y: System, kept: set<Capability>, inFlight: set<Capability>)
    requires Invariant(env, y)
    ensures Invariant(env, y.(s := y.s.(grants := y.s.grants - kept, inFlight := inFlight)))
  {
    hide Latest, ImplicitCalls, PermittedCalls, CallsAreAuthorized, Limit;
    var z := y.(s := y.s.(grants := y.s.grants - kept, inFlight := inFlight));
    forall cap | cap in z.s.grants
      ensures LiveInvariant(env, z, cap)
    {
      assert LiveInvariant(env, y, cap);
    }
    forall cap, tool | cap in z.s.grants
      ensures Spent(z.s, cap, tool) == Spent(y.s, cap, tool)
    {
    }
  }

  lemma ClearedKeepsInvariant(env: Environment, y: System)
    requires Invariant(env, y)
    ensures Invariant(env, y.(s := State(map[], {}, {}, {}, map[])))
  {
  }

  /** Every segment keeps the invariant. */
  lemma ApplyKeepsInvariant(env: Environment, y: System, e: Event)
    requires Invariant(env, y)
    ensures Invariant(env, Apply(env, y, e))
  {
    hide Invariant, Revoked, Authorized, Admit;
    match e
    case Issue(cap, terms) => IssueKeepsInvariant(env, y, cap, terms);
    case RevokeOne(cap) => RevokedKeepsInvariant(env, y, {cap});
    case RevokeConversation(conversation) => RevokedKeepsInvariant(env, y, InConversation(y.s, conversation));
    case RevokeGeneration(conversation, generation) =>
      RevokedKeepsInvariant(env, y, InGeneration(y.s, conversation, generation));
    case RevokeEverything => ClearedKeepsInvariant(env, y);
    case DropExpired(caps) => SmallerKeepsInvariant(env, y, Expired(y.s, caps, y.clock), y.s.inFlight);
    case Authorize(cap, c, pause) => AuthorizeKeepsInvariant(env, y, cap, c, pause);
    case ToolCall(cap, tool, input, pause) => ToolCallKeepsInvariant(env, y, cap, tool, input, pause);
    case Finish(cap) =>
      SmallerKeepsInvariant(env, y, {}, y.s.inFlight - {cap});
      assert y.s.grants - {} == y.s.grants;
    case Tick(duration) => ClockKeepsInvariant(env, y, y.clock + duration);
  }

  lemma {:induction false} ContinueKeepsInvariant(env: Environment, y: System, events: seq<Event>)
    requires Invariant(env, y)
    ensures Invariant(env, Continue(env, y, events))
    decreases |events|
  {
    hide Invariant, Apply;
    if events != [] {
      ApplyKeepsInvariant(env, y, events[0]);
      ContinueKeepsInvariant(env, Apply(env, y, events[0]), events[1..]);
    }
  }

  // Main results.

  /**
   In every run, the executor sees at most one permitted call for a capability, and that
   call's arguments have the digest authorized last; each implicitly allowed tool is called
   at most as often as its budget says.
   */
  lemma AdmissionIsBounded(env: Environment, events: seq<Event>)
    ensures var y := Run(env, events);
            && (forall cap :: PermittedCalls(y.log, cap) <= 1)
            && (forall cap, tool :: ImplicitCalls(y.log, cap, tool) <= Budget(env, y.terms, cap, tool))
            && CallsAreAuthorized(env, y.log)
  {
    ContinueKeepsInvariant(env, INITIAL, events);
  }

  function CallsOf(log: seq<Entry>, cap: Capability): nat {
    if log == [] then 0
    else CallsOf(log[..|log| - 1], cap) + if log[|log| - 1].Call? && log[|log| - 1].cap == cap then 1 else 0
  }

  lemma AppendCall(log: seq<Entry>, e: Entry, cap: Capability)
    ensures CallsOf(log + [e], cap) == CallsOf(log, cap) + if e.Call? && e.cap == cap then 1 else 0
  {
    assert (log + [e])[..|log|] == log;
  }

  lemma GoneStep(env: Environment, y: System, e: Event, cap: Capability)
    requires cap in y.terms && cap !in y.s.grants
    ensures var z := Apply(env, y, e);
            cap in z.terms && cap !in z.s.grants && CallsOf(z.log, cap) == CallsOf(y.log, cap)
  {
    hide Permission, Validated, HexDigest, CallsOf, GrantAccepted;
    var z := Apply(env, y, e);
    if |z.log| > |y.log| {
      AppendCall(y.log, z.log[|y.log|], cap);
    }
  }

  /** A capability that has been revoked or dropped never starts another call. */
  lemma {:induction false} GoneStaysGone(env: Environment, y: System, after: seq<Event>, cap: Capability)
    requires cap in y.terms && cap !in y.s.grants
    ensures var z := Continue(env, y, after); cap !in z.s.grants && CallsOf(z.log, cap) == CallsOf(y.log, cap)
    decreases |after|
  {
    hide Apply, CallsOf;
    if after != [] {
      GoneStep(env, y, after[0], cap);
      GoneStaysGone(env, Apply(env, y, after[0]), after[1..], cap);
    }
  }

  /** Revocation takes effect at once, whatever is still running. */
  lemma RevokedNeverCallsAgain(env: Environment, before: seq<Event>, cap: Capability, after: seq<Event>)
    requires cap in Run(env, before).s.grants
    ensures var y := Run(env, before);
            CallsOf(Continue(env, Apply(env, y, RevokeOne(cap)), after).log, cap) == CallsOf(y.log, cap)
  {
    hide CallsOf;
    ContinueKeepsInvariant(env, INITIAL, before);
    var y := Run(env, before);
    assert LiveInvariant(env, y, cap);
    GoneStaysGone(env, Apply(env, y, RevokeOne(cap)), after, cap);
  }

  lemma ConsumedStep(env: Environment, y: System, e: Event, cap: Capability)
    requires cap in y.terms && cap in y.s.grants && cap in y.s.consumed
    ensures var z := Apply(env, y, e);
            && cap in z.terms
            && (cap in z.s.grants ==> cap in z.s.consumed && z.s.grants[cap].commitment == y.s.grants[cap].commitment)
  {
    hide Validated, HexDigest, GrantAccepted, OperationDigest;
  }

  /** Once its operation is consumed, a capability's commitment is never replaced. */
  lemma {:induction false} ConsumedCommitmentIsFinal(env: Environment, y: System, after: seq<Event>, cap: Capability)
    requires cap in y.terms && cap in y.s.grants && cap in y.s.consumed
    ensures var z := Continue(env, y, after);
            cap in z.s.grants ==> cap in z.s.consumed && z.s.grants[cap].commitment == y.s.grants[cap].commitment
    decreases |after|
  {
    hide Apply;
    if after != [] {
      var x := Apply(env, y, after[0]);
      ConsumedStep(env, y, after[0], cap);
      if cap in x.s.grants {
        ConsumedCommitmentIsFinal(env, x, after[1..], cap);
      } else {
        GoneStaysGone(env, x, after[1..], cap);
      }
    }
  }

  /**
   Exactly when a new authorization replaces what is in force: before the operation is
   consumed, and only if nothing was authorized yet or the authorized call was rejected
   before it ran. A competing authorization revokes the capability instead.
   */
  lemma ReplacementIsExact(env: Environment, y: System, cap: Capability, c: Commitment, pause: nat)
    requires cap in y.s.grants && y.s.grants[cap].expiresAt > y.clock + pause
    requires y.s.grants[cap].commitment != Some(c)
    requires c.tool in y.s.grants[cap].allowed && c.tool in env.consequential && HexDigest(c.digest)
    ensures var s := Apply(env, y, Authorize(cap, c, pause)).s;
            var open := y.s.grants[cap].commitment.None? || cap in y.s.rejected;
            && (cap in s.grants && s.grants[cap].commitment == Some(c) <==> cap !in y.s.consumed && open)
            && (cap !in s.grants <==> cap !in y.s.consumed && !open)
  {
  }

  /** A call that is denied, for whatever reason, spends nothing of any grant that is left. */
  lemma DenialSpendsNothing(env: Environment, s: State, cap: Capability, tool: Tool, input: Json, now: int, later: int)
    requires Admit(env, s, cap, tool, input, now, later).1.Denied?
    ensures var after := Admit(env, s, cap, tool, input, now, later).0;
            forall other | other in after.grants ::
              && other in s.grants && after.grants[other] == s.grants[other]
              && (other in after.consumed <==> other in s.consumed)
              && forall t :: Spent(after, other, t) == Spent(s, other, t)
  {
    hide OperationDigest, Validated;
  }

  /** Absent a collision of the hash, a commitment names one tool and one argument value. */
  lemma CommitmentNamesOneCall(env: Environment, tool: Tool, input: Json, tool': Tool, input': Json)
    requires OperationDigest(env, tool, input).Some?
    requires OperationDigest(env, tool, input) == OperationDigest(env, tool', input')
    ensures var a, b := Bytes(CommitmentJson(tool, input)), Bytes(CommitmentJson(tool', input'));
            (a == b || env.hash(a) != env.hash(b)) ==> tool == tool' && input == input'
  {
    var a, b := CommitmentJson(tool, input), CommitmentJson(tool', input');
    BytesDecideEquality(a, b);
    assert |F_TOOL| == 4 && |F_ARGUMENTS| == 9 && |F_VERSION| == 13;
    if a == b {
      assert a.fields[F_TOOL] == b.fields[F_TOOL] && a.fields[F_ARGUMENTS] == b.fields[F_ARGUMENTS];
    }
  }

  /** The call a person permitted runs, once: the executor gets its normalized input, and any repetition is refused. */
  lemma PermittedCallRunsOnce(env: Environment, s: State, cap: Capability, tool: Tool, input: Json, now: int,
      later: int, tool': Tool, input': Json)
    requires cap in s.grants && now <= later < s.grants[cap].expiresAt
    requires tool in s.grants[cap].allowed && tool in env.consequential && Limit(env, s.grants[cap], tool) == 0
    requires OperationDigest(env, tool, input).Some?
    requires s.grants[cap].commitment == Some(Commitment(tool, OperationDigest(env, tool, input).value))
    requires env.normalize(tool, input).Some?
    requires tool' in s.grants[cap].allowed && tool' in env.consequential && Limit(env, s.grants[cap], tool') == 0
    ensures var (after, decision) := Admit(env, s, cap, tool, input, now, later);
            && (decision == if cap in s.consumed then Denied(OperationConsumed)
                            else Started(Permitted(OperationDigest(env, tool, input).value),
                              env.normalize(tool, input).value))
            && Admit(env, after, cap, tool', input', now, later) == (after, Denied(OperationConsumed))
  {
    hide OperationDigest, WRITE_FILES;
  }
}
