/**
 One-shot capabilities to observe or operate a running visual, and the audit facts appended
 for each. Each function is one segment without an await. What the store answers, and whether
 an append fails, are parameters; grants are numbered in the order they are minted.
 */
module VisualAuthority {
  import opened CanonicalJson

  type GrantId = nat

  datatype Scope = Scope(conversation: Text, turn: Text, generation: nat, project: Text)
  datatype Target = Target(run: Text, identity: Text, expiresAt: int)
  datatype Resolution = Resolution(scope: Scope, target: Target)
  datatype Operation = Operation(observes: bool, digest: Text)

  /** The controller that aborts the call using a grant, while there is such a call. */
  datatype Abort = NoCall | Running | Aborted

  datatype Grant = Grant(
    scope: Scope, target: Target, operation: Operation, expiresAt: int,
    consumed: bool, terminal: bool, abort: Abort)

  datatype Kind = Mint | Consume | Outcome | Failure
  datatype Fact = Fact(grant: GrantId, kind: Kind, code: Text)

  datatype Limits = Limits(ttlMs: int, maxGrants: nat, maxObservations: nat, maxInteractions: nat)

  /** `observations` and `interactions` count the running calls of each conversation. */
  datatype State = State(
    grants: seq<Grant>, live: set<GrantId>, handles: set<GrantId>,
    observations: map<Text, nat>, interactions: map<Text, nat>,
    observationCount: int, interactionCount: int,
    facts: seq<Fact>)

  const DENIED: Text := Ascii("capability_denied")
  const EXPIRED: Text := Ascii("capability_expired")
  const OBSERVED: Text := Ascii("observation_succeeded")
  const OBSERVATION_ABORTED: Text := Ascii("observation_aborted")
  const OBSERVATION_FAILED: Text := Ascii("observation_failed")
  const DISPATCHED: Text := Ascii("interaction_dispatched")
  const INTERACTION_UNKNOWN: Text := Ascii("interaction_aborted_or_unknown")
  const INTERACTION_FAILED: Text := Ascii("interaction_failed")

  predicate References(s: State) {
    && (forall g | g in s.live :: g < |s.grants|)
    && (forall g | g in s.handles :: g < |s.grants|)
  }

  // Audit facts.

  function Put(s: State, g: GrantId, grant: Grant): (r: State)
    requires g < |s.grants|
    ensures |r.grants| == |s.grants|
  {
    s.(grants := s.grants[g := grant])
  }

  function Recorded(s: State, g: GrantId, kind: Kind, code: Text): State {
    s.(facts := s.facts + [Fact(g, kind, code)])
  }

  /** `#terminal`: false where it throws. */
  function Ended(s: State, g: GrantId, kind: Kind, code: Text, stored: bool): (r: (State, bool))
    requires g < |s.grants|
    ensures |r.0.grants| == |s.grants|
  {
    if s.grants[g].terminal || !stored then (s, false)
    else
      var t := Recorded(s, g, kind, code);
      (Put(t, g, s.grants[g].(terminal := true)).(live := s.live - {g}), true)
  }

  // Revocation.

  /** Which appends succeed during one sweep over the grants. */
  datatype Storage = Storage(consume: GrantId -> bool, terminal: GrantId -> bool)

  /** One grant met by `#revokeMatching`. */
  function RevokedOne(s: State, g: GrantId, code: Text, storage: Storage): (r: State)
    requires g < |s.grants|
    ensures |r.grants| == |s.grants|
  {
    var grant := s.grants[g];
    var aborted := Put(s, g, grant.(abort := if grant.abort.NoCall? then NoCall else Aborted));
    var consumed :=
      if grant.terminal || grant.consumed then aborted
      else
        var c := Put(aborted, g, aborted.grants[g].(consumed := true));
        if storage.consume(g) then Recorded(c, g, Consume, []) else c;
    Ended(consumed, g, Failure, code, storage.terminal(g)).0.(live := s.live - {g})
  }

  /** `#revokeMatching`, up to grant `n`. */
  function RevokedUpTo(s: State, n: nat, matching: set<GrantId>, code: Text, storage: Storage): (r: State)
    requires n <= |s.grants|
    ensures |r.grants| == |s.grants|
  {
    if n == 0 then s
    else
      var before := RevokedUpTo(s, n - 1, matching, code, storage);
      if n - 1 in matching && n - 1 in before.live then RevokedOne(before, n - 1, code, storage) else before
  }

  function Revoked(s: State, matching: set<GrantId>, code: Text, storage: Storage): (r: State)
    ensures |r.grants| == |s.grants|
  {
    RevokedUpTo(s, |s.grants|, matching, code, storage)
  }

  function Expired(s: State, now: int): set<GrantId> {
    set g | 0 <= g < |s.grants| && s.grants[g].expiresAt <= now
  }

  // Capabilities.

  /** What `mint` asks of the world around it. */
  datatype MintInput = MintInput(
    operation: Option<Operation>, confirmed: bool, resolution: Option<Resolution>, allowed: bool,
    stored: bool, sweep: Storage)

  /** `mint`; None where it throws. */
  function Minted(s: State, limits: Limits, m: MintInput, now: int): (State, Option<GrantId>) {
    var swept := Revoked(s, Expired(s, now), EXPIRED, m.sweep);
    if |swept.live| >= limits.maxGrants || m.operation.None? then (swept, None)
    else if !m.operation.value.observes && !m.confirmed then (swept, None)
    else if m.resolution.None? || !m.allowed || m.resolution.value.target.expiresAt <= now
      || !m.stored then (swept, None)
    else
      var r := m.resolution.value;
      var expiresAt := if now + limits.ttlMs < r.target.expiresAt then now + limits.ttlMs else r.target.expiresAt;
      var g := |swept.grants|;
      (Recorded(swept, g, Mint, [])
         .(grants := swept.grants + [Grant(r.scope, r.target, m.operation.value, expiresAt, false, false, NoCall)],
           live := swept.live + {g}),
       Some(g))
  }

  /** The scope and the process are still those the grant was minted for, and it has not expired. */
  predicate StillValid(grant: Grant, resolution: Option<Resolution>, now: int) {
    && now < grant.expiresAt
    && resolution.Some? && resolution.value.scope == grant.scope
    && resolution.value.target.identity == grant.target.identity
  }

  datatype ConsumeInput = ConsumeInput(requested: Option<Operation>, resolution: Option<Resolution>,
      consumeStored: bool, failureStored: bool)

  /** `consume`; false where it throws. */
  function Consumed(s: State, g: GrantId, c: ConsumeInput, now: int): (r: (State, bool))
    requires References(s)
    ensures |r.0.grants| == |s.grants|
  {
    if g !in s.live || s.grants[g].consumed then (s, false)
    else
      var spent := Put(s, g, s.grants[g].(consumed := true));
      if !c.consumeStored then (spent, false)
      else
        var recorded := Recorded(spent, g, Consume, []);
        if c.requested.Some? && c.requested.value.digest == s.grants[g].operation.digest
            && StillValid(s.grants[g], c.resolution, now)
        then (recorded.(handles := recorded.handles + {g}), true)
        else (Ended(recorded, g, Failure, DENIED, c.failureStored).0, false)
  }

  /** `recordOutcome`; false where it throws. */
  function OutcomeRecorded(s: State, g: GrantId, succeeded: bool, code: Text, stored: bool): (r: (State, bool))
    requires References(s)
    ensures |r.0.grants| == |s.grants|
  {
    if g !in s.handles || !s.grants[g].consumed || s.grants[g].terminal then (s, false)
    else
      var (ended, ok) := Ended(s, g, if succeeded then Outcome else Failure, code, stored);
      if ok then (ended.(handles := ended.handles - {g}), true) else (s, false)
  }

  // Running calls.

  function Count(m: map<Text, nat>, conversation: Text): nat {
    if conversation in m then m[conversation] else 0
  }

  /** `#acquireObservation` and `#acquireInteraction`; None where they throw. */
  function Acquired(s: State, limits: Limits, conversation: Text, observes: bool): Option<State> {
    var mine, other := if observes then s.observations else s.interactions, if observes then s.interactions
        else s.observations;
    var count, limit := if observes then s.observationCount
        else s.interactionCount, if observes then limits.maxObservations else limits.maxInteractions;
    if conversation == [] || count >= limit || Count(other, conversation) > 0
        || Count(mine, conversation) >= 1 then None
    else if observes then Some(s.(observationCount := s.observationCount + 1,
      observations := s.observations[conversation := 1]))
    else Some(s.(interactionCount := s.interactionCount + 1, interactions := s.interactions[conversation := 1]))
  }

  function ReleasedCall(s: State, conversation: Text, observes: bool): State {
    if observes then
      if Count(s.observations, conversation) > 0
      then s.(observationCount := s.observationCount - 1, observations := s.observations - {conversation})
      else s
    else
      if Count(s.interactions, conversation) > 0
      then s.(interactionCount := s.interactionCount - 1, interactions := s.interactions - {conversation})
      else s
  }

  /** The `catch` of a call: a terminal failure, or at least the end of the grant. */
  function FailedCall(s: State, g: GrantId, code: Text, stored: bool): (r: State)
    requires g < |s.grants|
    ensures |r.grants| == |s.grants|
  {
    if s.grants[g].terminal then s
    else
      var (ended, ok) := Ended(s, g, Failure, code, stored);
      if ok then ended else s.(live := s.live - {g})
  }

  function FailureCode(observes: bool, unknown: bool): Text {
    if observes then (if unknown then OBSERVATION_ABORTED else OBSERVATION_FAILED)
    else (if unknown then INTERACTION_UNKNOWN else INTERACTION_FAILED)
  }

  /** Acquire, mint and consume, up to the await of `observe` or `interact`; None where the call has failed. */
  function Begun(s: State, limits: Limits, conversation: Text, observes: bool, m: MintInput, c: ConsumeInput,
      stored: bool, now: int): (State, Option<GrantId>)
    requires References(s)
  {
    match Acquired(s, limits, conversation, observes)
    case None => (s, None)
    case Some(acquired) =>
      var (minted, g) := Minted(acquired, limits, m, now);
      if g.None? then (ReleasedCall(minted, conversation, observes), None)
      else
        MintedReferences(acquired, limits, m, now);
        var (consumed, ok) := Consumed(minted, g.value, c, now);
        if !ok || consumed.grants[g.value].terminal || consumed.grants[g.value].operation.observes != observes then
          var failed := FailedCall(consumed, g.value, FailureCode(observes, false), stored);
          (ReleasedCall(failed.(handles := failed.handles - {g.value}), conversation, observes), None)
        else (Put(consumed, g.value, consumed.grants[g.value].(abort := Running)), g)
  }

  /** What the world answers when the observer or interactor settles. */
  datatype EndInput = EndInput(settled: bool, dispatched: bool, resolution: Option<Resolution>, outcomeStored: bool,
      failureStored: bool)

  /** The outcome is recorded only for a call that was not aborted and whose grant is still valid. */
  function Attempted(s: State, observes: bool, g: GrantId, e: EndInput, now: int): (r: (State, bool))
    requires References(s) && g < |s.grants|
    ensures |r.0.grants| == |s.grants|
  {
    var grant := s.grants[g];
    if e.settled && !grant.abort.Aborted? && !grant.terminal && StillValid(grant, e.resolution, now)
    then OutcomeRecorded(s, g, true, if observes then OBSERVED else DISPATCHED, e.outcomeStored)
    else (s, false)
  }

  function Closed(s: State, observes: bool, g: GrantId, e: EndInput, now: int): (r: (State, bool))
    requires References(s) && g < |s.grants|
    ensures |r.0.grants| == |s.grants|
  {
    var (outcome, ok) := Attempted(s, observes, g, e, now);
    var unknown := s.grants[g].abort.Aborted? || (!observes && (e.settled || e.dispatched));
    (if ok then outcome else FailedCall(outcome, g, FailureCode(observes, unknown), e.failureStored), ok)
  }

  function Idle(s: State, g: GrantId): (r: State)
    requires g < |s.grants|
    ensures |r.grants| == |s.grants|
  {
    Put(s, g, s.grants[g].(abort := NoCall)).(handles := s.handles - {g})
  }

  /** `observe` or `interact` after its await: whether it succeeds. */
  function Finished(s: State, conversation: Text, observes: bool, g: GrantId, e: EndInput, now: int): (State, bool)
    requires References(s) && g < |s.grants|
  {
    var (closed, ok) := Closed(s, observes, g, e, now);
    (ReleasedCall(Idle(closed, g), conversation, observes), ok)
  }

  lemma {:induction false} RevokedReferences(s: State, n: nat, matching: set<GrantId>, code: Text, storage: Storage)
    requires n <= |s.grants| && References(s)
    ensures References(RevokedUpTo(s, n, matching, code, storage))
  {
    if n > 0 {
      RevokedReferences(s, n - 1, matching, code, storage);
    }
  }

  lemma MintedReferences(s: State, limits: Limits, m: MintInput, now: int)
    requires References(s)
    ensures var (r, g) := Minted(s, limits, m, now); References(r) && (g.Some? ==> g.value < |r.grants|)
  {
    RevokedReferences(s, |s.grants|, Expired(s, now), EXPIRED, m.sweep);
  }

  // The authority.

  class VisualAgentAuthority {
    const limits: Limits
    var grants: seq<Grant>
    var live: set<GrantId>
    var handles: set<GrantId>
    var observations: map<Text, nat>
    var interactions: map<Text, nat>
    var observationCount: int
    var interactionCount: int
    var facts: seq<Fact>

    function View(): State
      reads this
    {
      State(grants, live, handles, observations, interactions, observationCount, interactionCount, facts)
    }

    constructor (limits: Limits)
      ensures this.limits == limits && View() == State([], {}, {}, map[], map[], 0, 0, [])
    {
      this.limits := limits;
      grants, live, handles, facts := [], {}, {}, [];
      observations, interactions, observationCount, interactionCount := map[], map[], 0, 0;
    }

    /** The append of the audit store, which may fail. */
    method Append(g: GrantId, kind: Kind, code: Text, stored: bool) returns (ok: bool)
      modifies this`facts
      ensures ok == stored && View() == if stored then Recorded(old(View()), g, kind, code) else old(View())
    {
      if stored {
        facts := facts + [Fact(g, kind, code)];
      }
      return stored;
    }

    method Terminal(g: GrantId, kind: Kind, code: Text, stored: bool) returns (ok: bool)
      requires g < |grants|
      modifies this
      ensures (View(), ok) == Ended(old(View()), g, kind, code, stored)
    {
      if grants[g].terminal {
        return false;
      }
      var appended := Append(g, kind, code, stored);
      if !appended {
        return false;
      }
      grants := grants[g := grants[g].(terminal := true)];
      live := live - {g};
      return true;
    }

    method RevokeOne(g: GrantId, code: Text, storage: Storage)
      requires g < |grants|
      modifies this
      ensures View() == RevokedOne(old(View()), g, code, storage)
    {
      if !grants[g].abort.NoCall? {
        grants := grants[g := grants[g].(abort := Aborted)];
      }
      ghost var aborted := View();
      assert aborted == Put(old(View()), g, old(grants)[g].(abort := if old(grants)[g].abort.NoCall? then NoCall
          else Aborted));
      if !grants[g].terminal {
        if !grants[g].consumed {
          grants := grants[g := grants[g].(consumed := true)];
          assert View() == Put(aborted, g, aborted.grants[g].(consumed := true));
          var recorded := Append(g, Consume, [], storage.consume(g));
        }
        var ended := Terminal(g, Failure, code, storage.terminal(g));
      }
      live := live - {g};
    }

    /** `revokeConversation`, `revokeTurn`, `revokeProject`, `revokeRun` and `revokeAll`, by the grants they match. */
    method RevokeMatching(matching: set<GrantId>, code: Text, storage: Storage)
      modifies this
      ensures View() == Revoked(old(View()), matching, code, storage)
    {
      var g := 0;
      while g < |grants|
        invariant g <= |grants| == |old(grants)|
        invariant View() == RevokedUpTo(old(View()), g, matching, code, storage)
      {
        if g in matching && g in live {
          RevokeOne(g, code, storage);
        }
        g := g + 1;
      }
    }

    method SweepExpired(now: int, storage: Storage)
      modifies this
      ensures View() == Revoked(old(View()), Expired(old(View()), now), EXPIRED, storage)
    {
      var expired := set g | 0 <= g < |grants| && grants[g].expiresAt <= now;
      RevokeMatching(expired, EXPIRED, storage);
    }

    method MintCapability(m: MintInput, now: int) returns (capability: Option<GrantId>)
      modifies this
      ensures (View(), capability) == Minted(old(View()), limits, m, now)
    {
      hide Revoked;
      SweepExpired(now, m.sweep);
      if |live| >= limits.maxGrants || m.operation.None? {
        return None;
      }
      if !m.operation.value.observes && !m.confirmed {
        return None;
      }
      if m.resolution.None? || !m.allowed {
        return None;
      }
      var r := m.resolution.value;
      if r.target.expiresAt <= now {
        return None;
      }
      var expiresAt := if now + limits.ttlMs < r.target.expiresAt then now + limits.ttlMs else r.target.expiresAt;
      var g := |grants|;
      var recorded := Append(g, Mint, [], m.stored);
      if !recorded {
        return None;
      }
      grants := grants + [Grant(r.scope, r.target, m.operation.value, expiresAt, false, false, NoCall)];
      live := live + {g};
      return Some(g);
    }

    method ConsumeCapability(g: GrantId, c: ConsumeInput, now: int) returns (ok: bool)
      requires References(View())
      modifies this
      ensures (View(), ok) == Consumed(old(View()), g, c, now)
    {
      hide Ended, StillValid;
      if g !in live || grants[g].consumed {
        return false;
      }
      grants := grants[g := grants[g].(consumed := true)];
      assert View() == Put(old(View()), g, old(grants)[g].(consumed := true));
      var recorded := Append(g, Consume, [], c.consumeStored);
      if !recorded {
        return false;
      }
      var grant := grants[g];
      assert StillValid(grant, c.resolution, now)
          == StillValid(old(grants)[g], c.resolution, now) by { ConsumedStillValid(old(grants)[g], c.resolution, now); }
      if c.requested.Some? && c.requested.value.digest == grant.operation.digest
          && StillValid(grant, c.resolution, now) {
        handles := handles + {g};
        return true;
      }
      var ended := Terminal(g, Failure, DENIED, c.failureStored);
      return false;
    }

    method RecordOutcome(g: GrantId, succeeded: bool, code: Text, stored: bool) returns (ok: bool)
      requires References(View())
      modifies this
      ensures (View(), ok) == OutcomeRecorded(old(View()), g, succeeded, code, stored)
    {
      if g !in handles || !grants[g].consumed || grants[g].terminal {
        return false;
      }
      ok := Terminal(g, if succeeded then Outcome else Failure, code, stored);
      if ok {
        handles := handles - {g};
      }
    }

    method Acquire(conversation: Text, observes: bool) returns (ok: bool)
      modifies this
      ensures ok == Acquired(old(View()), limits, conversation, observes).Some?
      ensures View() == if ok then Acquired(old(View()), limits, conversation, observes).value else old(View())
    {
      if observes {
        if conversation == [] || observationCount >= limits.maxObservations
           || Count(interactions, conversation) > 0 || Count(observations, conversation) >= 1 {
          return false;
        }
        observationCount := observationCount + 1;
        observations := observations[conversation := 1];
      } else {
        if conversation == [] || interactionCount >= limits.maxInteractions
           || Count(observations, conversation) > 0 || Count(interactions, conversation) >= 1 {
          return false;
        }
        interactionCount := interactionCount + 1;
        interactions := interactions[conversation := 1];
      }
      return true;
    }

    method Release(conversation: Text, observes: bool)
      modifies this
      ensures View() == ReleasedCall(old(View()), conversation, observes)
    {
      if observes {
        if Count(observations, conversation) > 0 {
          observations := observations - {conversation};
          observationCount := observationCount - 1;
        }
      } else if Count(interactions, conversation) > 0 {
        interactions := interactions - {conversation};
        interactionCount := interactionCount - 1;
      }
    }

    method Fail(g: GrantId, code: Text, stored: bool)
      requires g < |grants|
      modifies this
      ensures View() == FailedCall(old(View()), g, code, stored)
    {
      if !grants[g].terminal {
        var ended := Terminal(g, Failure, code, stored);
        if !ended {
          live := live - {g};
        }
      }
    }

    method BeginCall(conversation: Text, observes: bool, m: MintInput, c: ConsumeInput, stored: bool, now: int)
        returns (begun: Option<GrantId>)
      requires References(View())
      modifies this
      ensures (View(), begun) == Begun(old(View()), limits, conversation, observes, m, c, stored, now)
    {
      hide Acquired, Minted, Consumed, FailedCall, ReleasedCall, FailureCode;
      var acquired := Acquire(conversation, observes);
      if !acquired {
        return None;
      }
      AcquiredReferences(old(View()), limits, conversation, observes);
      MintedReferences(View(), limits, m, now);
      var g := MintCapability(m, now);
      if g.None? {
        Release(conversation, observes);
        return None;
      }
      var consumed := ConsumeCapability(g.value, c, now);
      if !consumed || grants[g.value].terminal || grants[g.value].operation.observes != observes {
        Fail(g.value, FailureCode(observes, false), stored);
        handles := handles - {g.value};
        Release(conversation, observes);
        return None;
      }
      grants := grants[g.value := grants[g.value].(abort := Running)];
      return g;
    }

    method EndCall(conversation: Text, observes: bool, g: GrantId, e: EndInput, now: int) returns (ok: bool)
      requires References(View()) && g < |grants|
      modifies this
      ensures (View(), ok) == Finished(old(View()), conversation, observes, g, e, now)
    {
      hide OutcomeRecorded, FailedCall, ReleasedCall, FailureCode, StillValid, OBSERVED, DISPATCHED;
      var grant := grants[g];
      ok := false;
      if e.settled && !grant.abort.Aborted? && !grant.terminal && StillValid(grant, e.resolution, now) {
        ok := RecordOutcome(g, true, if observes then OBSERVED else DISPATCHED, e.outcomeStored);
      }
      if !ok {
        Fail(g, FailureCode(observes, grant.abort.Aborted? || (!observes && (e.settled || e.dispatched))),
            e.failureStored);
      }
      grants := grants[g := grants[g].(abort := NoCall)];
      handles := handles - {g};
      Release(conversation, observes);
    }
  }

  lemma ConsumedStillValid(grant: Grant, resolution: Option<Resolution>, now: int)
    ensures StillValid(grant.(consumed := true), resolution, now) == StillValid(grant, resolution, now)
  {
  }

  lemma AcquiredReferences(s: State, limits: Limits, conversation: Text, observes: bool)
    requires References(s) && Acquired(s, limits, conversation, observes).Some?
    ensures References(Acquired(s, limits, conversation, observes).value)
  {
  }
}
