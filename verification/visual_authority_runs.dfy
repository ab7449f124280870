/**
 Runs of the visual authority: concurrent observations and interactions, direct use of
 capabilities, revocations, timers, and a store whose appends may fail at any call.
 */
module VisualAuthorityRuns {
  import opened CanonicalJson
  import opened SetFacts
  import opened VisualAuthority

  /** A call at its await, or how it ended. */
  datatype Call = Pending(conversation: Text, observes: bool, grant: GrantId) | Over(succeeded: bool)

  datatype System = System(s: State, clock: int, calls: seq<Call>)

  datatype Event =
    | Begin(conversation: Text, observes: bool, m: MintInput, c: ConsumeInput, stored: bool)
    | End(call: nat, e: EndInput)
    | MintDirectly(m: MintInput)
    | ConsumeDirectly(grant: GrantId, c: ConsumeInput)
    | RecordDirectly(grant: GrantId, succeeded: bool, code: Text, stored: bool)
    | AbortByTimer(grant: GrantId)
    | Revoke(matching: set<GrantId>, code: Text, storage: Storage)
    | Sweep(storage: Storage)
    | Tick(duration: nat)

  const INITIAL: System := System(State([], {}, {}, map[], map[], 0, 0, []), 0, [])

  // Audit trails.

  /** The kinds of fact recorded for one grant, in order. */
  function Trail(facts: seq<Fact>, g: GrantId): seq<Kind> {
    if facts == [] then []
    else
      var last := facts[|facts| - 1];
      Trail(facts[..|facts| - 1], g) + if last.grant == g then [last.kind] else []
  }

  /**
   One mint, at most one consume, at most one terminal fact with nothing after it, and no outcome
   without a consume.
   */
  predicate Lawful(trail: seq<Kind>) {
    || trail == [Mint]
    || trail == [Mint, Consume]
    || trail == [Mint, Failure]
    || trail == [Mint, Consume, Outcome]
    || trail == [Mint, Consume, Failure]
  }

  predicate TrailFits(grant: Grant, handled: bool, trail: seq<Kind>) {
    && (!grant.consumed ==> !grant.terminal && !handled && trail == [Mint])
    && (grant.consumed && !grant.terminal ==> trail == [Mint, Consume] || (trail == [Mint] && !handled))
    && (grant.terminal ==>
          grant.consumed && (trail == [Mint, Failure] || trail == [Mint, Consume, Outcome]
              || trail == [Mint, Consume, Failure]))
  }

  predicate GrantKept(s: State, g: GrantId)
    requires g < |s.grants|
  {
    TrailFits(s.grants[g], g in s.handles, Trail(s.facts, g)) && (g in s.live ==> !s.grants[g].terminal)
  }

  ghost predicate StateKept(s: State) {
    && References(s)
    && (forall g | 0 <= g < |s.grants| :: GrantKept(s, g))
    && (forall g: nat | |s.grants| <= g :: Trail(s.facts, g) == [])
  }

  lemma AppendTrail(s: State, g: GrantId, kind: Kind, code: Text)
    ensures forall h :: Trail(Recorded(s, g, kind, code).facts, h) == Trail(s.facts, h) + if h == g then [kind] else []
  {
    var more := Recorded(s, g, kind, code).facts;
    assert more[..|more| - 1] == s.facts;
    forall h
      ensures Trail(more, h) == Trail(s.facts, h) + if h == g then [kind] else []
    {
    }
  }

  lemma EndedKeeps(s: State, g: GrantId, kind: Kind, code: Text, stored: bool)
    requires StateKept(s) && g < |s.grants| && s.grants[g].consumed
    requires kind == Failure || (kind == Outcome && Trail(s.facts, g) == [Mint, Consume])
    ensures StateKept(Ended(s, g, kind, code, stored).0)
  {
    AppendTrail(s, g, kind, code);
    hide Trail;
    var r := Ended(s, g, kind, code, stored).0;
    forall h | 0 <= h < |r.grants|
      ensures GrantKept(r, h)
    {
      assert GrantKept(s, h);
    }
  }

  /** The one-way door: an unconsumed grant is consumed, and that may be recorded. */
  lemma SpentKeeps(s: State, g: GrantId, stored: bool)
    requires StateKept(s) && g < |s.grants| && !s.grants[g].consumed
    ensures var spent := Put(s, g, s.grants[g].(consumed := true));
            var r := if stored then Recorded(spent, g, Consume, []) else spent;
            && StateKept(r) && Trail(r.facts, g) == if stored then [Mint, Consume] else [Mint]
  {
    var spent := Put(s, g, s.grants[g].(consumed := true));
    var r := if stored then Recorded(spent, g, Consume, []) else spent;
    AppendTrail(spent, g, Consume, []);
    hide Trail;
    assert GrantKept(s, g);
    forall h | 0 <= h < |r.grants|
      ensures GrantKept(r, h)
    {
      assert GrantKept(s, h);
    }
  }

  lemma AbortKeeps(s: State, g: GrantId, abort: Abort)
    requires StateKept(s) && g < |s.grants|
    ensures StateKept(Put(s, g, s.grants[g].(abort := abort)))
  {
    hide Trail;
    var r := Put(s, g, s.grants[g].(abort := abort));
    forall h | 0 <= h < |r.grants|
      ensures GrantKept(r, h)
    {
      assert GrantKept(s, h);
    }
  }

  lemma ShrinkKeeps(s: State, live: set<GrantId>, handles: set<GrantId>)
    requires StateKept(s) && live <= s.live && handles <= s.handles
    ensures StateKept(s.(live := live, handles := handles))
  {
    hide Trail;
    var r := s.(live := live, handles := handles);
    forall h | 0 <= h < |r.grants|
      ensures GrantKept(r, h)
    {
      assert GrantKept(s, h);
    }
  }

  lemma RevokedOneKeeps(s: State, g: GrantId, code: Text, storage: Storage)
    requires StateKept(s) && g < |s.grants|
    ensures StateKept(RevokedOne(s, g, code, storage))
  {
    var abort := if s.grants[g].abort.NoCall? then NoCall else Aborted;
    var aborted := Put(s, g, s.grants[g].(abort := abort));
    AbortKeeps(s, g, abort);
    assert s.grants[g].terminal ==> s.grants[g].consumed by { assert GrantKept(s, g); }
    hide Trail, StateKept;
    var consumed := aborted;
    if !s.grants[g].consumed {
      SpentKeeps(aborted, g, storage.consume(g));
      var c := Put(aborted, g, aborted.grants[g].(consumed := true));
      consumed := if storage.consume(g) then Recorded(c, g, Consume, []) else c;
    }
    EndedKeeps(consumed, g, Failure, code, storage.terminal(g));
    var ended := Ended(consumed, g, Failure, code, storage.terminal(g)).0;
    ShrinkKeeps(ended, s.live - {g}, ended.handles) by { EndedLive(consumed, g, Failure, code, storage.terminal(g)); }
  }

  lemma EndedLive(s: State, g: GrantId, kind: Kind, code: Text, stored: bool)
    requires g < |s.grants|
    ensures s.live - {g} <= Ended(s, g, kind, code, stored).0.live
  {
  }

  lemma {:induction false} RevokedKeeps(s: State, n: nat, matching: set<GrantId>, code: Text, storage: Storage)
    requires StateKept(s) && n <= |s.grants|
    ensures StateKept(RevokedUpTo(s, n, matching, code, storage))
  {
    hide StateKept, RevokedOne;
    if n > 0 {
      RevokedKeeps(s, n - 1, matching, code, storage);
      if n - 1 in matching && n - 1 in RevokedUpTo(s, n - 1, matching, code, storage).live {
        RevokedOneKeeps(RevokedUpTo(s, n - 1, matching, code, storage), n - 1, code, storage);
      }
    }
  }

  lemma MintedKeeps(s: State, limits: Limits, m: MintInput, now: int)
    requires StateKept(s)
    ensures StateKept(Minted(s, limits, m, now).0)
  {
    var swept := Revoked(s, Expired(s, now), EXPIRED, m.sweep);
    RevokedKeeps(s, |s.grants|, Expired(s, now), EXPIRED, m.sweep);
    var (r, made) := Minted(s, limits, m, now);
    if made.Some? {
      AppendTrail(swept, made.value, Mint, []);
      hide Trail, Revoked, EXPIRED;
      forall h | 0 <= h < |r.grants|
        ensures GrantKept(r, h)
      {
        assert h < |swept.grants| ==> GrantKept(swept, h);
      }
    }
  }

  lemma ConsumedKeeps(s: State, g: GrantId, c: ConsumeInput, now: int)
    requires StateKept(s)
    ensures StateKept(Consumed(s, g, c, now).0)
    ensures g in s.live ==> Consumed(s, g, c, now).0.grants[g].consumed
  {
    if g in s.live && !s.grants[g].consumed {
      SpentKeeps(s, g, c.consumeStored);
      hide Trail, StillValid, DENIED;
      var spent := Put(s, g, s.grants[g].(consumed := true));
      if c.consumeStored {
        var recorded := Recorded(spent, g, Consume, []);
        EndedKeeps(recorded, g, Failure, DENIED, c.failureStored);
        HandledKeeps(recorded, g);
      }
    }
  }

  lemma HandledKeeps(s: State, g: GrantId)
    requires StateKept(s) && g < |s.grants| && s.grants[g].consumed && Trail(s.facts, g) == [Mint, Consume]
    ensures StateKept(s.(handles := s.handles + {g}))
  {
    hide Trail;
    var r := s.(handles := s.handles + {g});
    forall h | 0 <= h < |r.grants|
      ensures GrantKept(r, h)
    {
      assert GrantKept(s, h);
    }
  }

  lemma OutcomeKeeps(s: State, g: GrantId, succeeded: bool, code: Text, stored: bool)
    requires StateKept(s)
    ensures StateKept(OutcomeRecorded(s, g, succeeded, code, stored).0)
  {
    hide Trail;
    if g in s.handles && s.grants[g].consumed && !s.grants[g].terminal {
      assert GrantKept(s, g);
      var kind := if succeeded then Outcome else Failure;
      EndedKeeps(s, g, kind, code, stored);
      var ended := Ended(s, g, kind, code, stored).0;
      ShrinkKeeps(ended, ended.live, ended.handles - {g});
    }
  }

  lemma FailedKeeps(s: State, g: GrantId, code: Text, stored: bool)
    requires StateKept(s) && g < |s.grants| && s.grants[g].consumed
    ensures StateKept(FailedCall(s, g, code, stored))
  {
    EndedKeeps(s, g, Failure, code, stored);
    ShrinkKeeps(s, s.live - {g}, s.handles);
    hide StateKept;
  }

  lemma CountersKeep(s: State, r: State)
    requires StateKept(s)
    requires r.grants == s.grants && r.live == s.live && r.handles == s.handles && r.facts == s.facts
    ensures StateKept(r)
  {
    hide Trail;
    forall h | 0 <= h < |r.grants|
      ensures GrantKept(r, h)
    {
      assert GrantKept(s, h);
    }
  }

  lemma AcquiredKeeps(s: State, limits: Limits, conversation: Text, observes: bool)
    requires StateKept(s) && Acquired(s, limits, conversation, observes).Some?
    ensures StateKept(Acquired(s, limits, conversation, observes).value)
  {
    CountersKeep(s, Acquired(s, limits, conversation, observes).value);
  }

  lemma ReleasedKeeps(s: State, conversation: Text, observes: bool)
    requires StateKept(s)
    ensures StateKept(ReleasedCall(s, conversation, observes))
  {
    CountersKeep(s, ReleasedCall(s, conversation, observes));
  }

  lemma MintedIsNew(s: State, limits: Limits, m: MintInput, now: int)
    requires Minted(s, limits, m, now).1.Some?
    ensures var (r, g) := Minted(s, limits, m, now);
            g.value == |s.grants| && |r.grants| == |s.grants| + 1 && g.value in r.live && !r.grants[g.value].consumed
            && r.grants[g.value].abort.NoCall?
  {
  }

  lemma BegunKeeps(s: State, limits: Limits, conversation: Text, observes: bool, m: MintInput, c: ConsumeInput,
      stored: bool, now: int)
    requires StateKept(s)
    ensures StateKept(Begun(s, limits, conversation, observes, m, c, stored, now).0)
  {
    hide StateKept, Minted, Consumed, FailedCall, ReleasedCall, Acquired, FailureCode;
    assert References(s) by { KeptReferences(s); }
    var begun := Acquired(s, limits, conversation, observes);
    if begun.Some? {
      var acquired := begun.value;
      AcquiredKeeps(s, limits, conversation, observes);
      KeptReferences(acquired);
      MintedKeeps(acquired, limits, m, now);
      var (minted, g) := Minted(acquired, limits, m, now);
      if g.None? {
        ReleasedKeeps(minted, conversation, observes);
      } else {
        MintedIsNew(acquired, limits, m, now);
        KeptReferences(minted);
        ConsumedKeeps(minted, g.value, c, now);
        var (consumed, ok) := Consumed(minted, g.value, c, now);
        FailedKeeps(consumed, g.value, FailureCode(observes, false), stored);
        var failed := FailedCall(consumed, g.value, FailureCode(observes, false), stored);
        ShrinkKeeps(failed, failed.live, failed.handles - {g.value});
        ReleasedKeeps(failed.(handles := failed.handles - {g.value}), conversation, observes);
        AbortKeeps(consumed, g.value, Abort.Running);
      }
    }
  }

  lemma KeptReferences(s: State)
    requires StateKept(s)
    ensures References(s)
  {
  }

  lemma ClosedKeeps(s: State, observes: bool, g: GrantId, e: EndInput, now: int)
    requires StateKept(s) && References(s) && g < |s.grants| && s.grants[g].consumed
    ensures StateKept(Closed(s, observes, g, e, now).0)
  {
    OutcomeKeeps(s, g, true, if observes then OBSERVED else DISPATCHED, e.outcomeStored);
    OutcomeStaysConsumed(s, g, true, if observes then OBSERVED else DISPATCHED, e.outcomeStored);
    hide StateKept, OutcomeRecorded, FailedCall, StillValid, FailureCode, OBSERVED, DISPATCHED;
    var unknown := s.grants[g].abort.Aborted? || (!observes && (e.settled || e.dispatched));
    FailedKeeps(Attempted(s, observes, g, e, now).0, g, FailureCode(observes, unknown), e.failureStored);
  }

  lemma FinishedKeeps(s: State, conversation: Text, observes: bool, g: GrantId, e: EndInput, now: int)
    requires StateKept(s) && References(s) && g < |s.grants| && s.grants[g].consumed
    ensures StateKept(Finished(s, conversation, observes, g, e, now).0)
  {
    ClosedKeeps(s, observes, g, e, now);
    hide StateKept, Closed, ReleasedCall;
    var closed := Closed(s, observes, g, e, now).0;
    AbortKeeps(closed, g, NoCall);
    var idle := Put(closed, g, closed.grants[g].(abort := NoCall));
    ShrinkKeeps(idle, idle.live, idle.handles - {g});
    ReleasedKeeps(Idle(closed, g), conversation, observes);
  }

  lemma OutcomeStaysConsumed(s: State, g: GrantId, succeeded: bool, code: Text, stored: bool)
    requires References(s) && g < |s.grants| && s.grants[g].consumed
    ensures OutcomeRecorded(s, g, succeeded, code, stored).0.grants[g].consumed
  {
  }

  // What a segment does to the grants of other calls.

  predicate GrantProgress(s: State, r: State, g: GrantId)
    requires g < |s.grants| && g < |r.grants|
  {
    var x, z := s.grants[g], r.grants[g];
    && (x.consumed ==> z.consumed) && (x.terminal ==> z.terminal)
    && (x.abort.NoCall? <==> z.abort.NoCall?) && (x.abort.Aborted? ==> z.abort.Aborted?)
    && (g in r.live ==> g in s.live)
    && (g in s.live && g !in r.live && !x.abort.NoCall? ==> z.abort.Aborted? || z.terminal)
  }

  ghost predicate Progress(s: State, r: State, skip: set<GrantId>) {
    && |s.grants| <= |r.grants|
    && (forall g | 0 <= g < |s.grants| && g !in skip :: GrantProgress(s, r, g))
  }

  predicate SameCounts(s: State, r: State) {
    && r.observations == s.observations && r.interactions == s.interactions
    && r.observationCount == s.observationCount && r.interactionCount == s.interactionCount
  }

  lemma ProgressComposes(s: State, r: State, q: State, skip: set<GrantId>)
    requires Progress(s, r, skip) && Progress(r, q, skip)
    ensures Progress(s, q, skip)
  {
    forall g | 0 <= g < |s.grants| && g !in skip
      ensures GrantProgress(s, q, g)
    {
      assert GrantProgress(s, r, g) && GrantProgress(r, q, g);
    }
  }

  lemma EndedProgress(s: State, g: GrantId, kind: Kind, code: Text, stored: bool)
    requires g < |s.grants|
    ensures var r := Ended(s, g, kind, code, stored).0; Progress(s, r, {}) && SameCounts(s, r) && r.live <= s.live
  {
  }

  lemma RevokedOneProgress(s: State, g: GrantId, code: Text, storage: Storage)
    requires g < |s.grants|
    ensures var r := RevokedOne(s, g, code, storage);
            Progress(s, r, {}) && SameCounts(s, r) && r.live == s.live - {g}
                && (s.grants[g].abort.NoCall? || r.grants[g].abort.Aborted?)
  {
  }

  lemma {:induction false} RevokedProgress(s: State, n: nat, matching: set<GrantId>, code: Text, storage: Storage)
    requires n <= |s.grants|
    ensures var r := RevokedUpTo(s, n, matching, code, storage);
            && Progress(s, r, {}) && SameCounts(s, r)
            && r.live == s.live - (set g | g in matching && g < n)
            && forall g | g in matching && g < n && g in s.live ::
               s.grants[g].abort.NoCall? || r.grants[g].abort.Aborted?
  {
    hide RevokedOne;
    if n > 0 {
      RevokedProgress(s, n - 1, matching, code, storage);
      var before := RevokedUpTo(s, n - 1, matching, code, storage);
      var r := RevokedUpTo(s, n, matching, code, storage);
      if n - 1 in matching && n - 1 in before.live {
        RevokedOneProgress(before, n - 1, code, storage);
        ProgressComposes(s, before, r, {});
        forall g | g in matching && g < n && g in s.live
          ensures s.grants[g].abort.NoCall? || r.grants[g].abort.Aborted?
        {
          assert GrantProgress(s, before, g) && GrantProgress(before, r, g);
        }
      }
      assert (set g | g in matching && g < n) == (set g | g in matching && g < n - 1)
          + (if n - 1 in matching then {n - 1} else {});
    }
  }

  lemma SweptProgress(s: State, now: int, storage: Storage)
    ensures var r := Revoked(s, Expired(s, now), EXPIRED, storage);
            Progress(s, r, {}) && SameCounts(s, r) && r.live <= s.live
  {
    RevokedProgress(s, |s.grants|, Expired(s, now), EXPIRED, storage);
  }

  lemma MintedProgress(s: State, limits: Limits, m: MintInput, now: int)
    requires References(s) && |s.live| <= limits.maxGrants
    ensures var r := Minted(s, limits, m, now).0; Progress(s, r, {}) && SameCounts(s, r) && |r.live| <= limits.maxGrants
  {
    SweptProgress(s, now, m.sweep);
    var swept := Revoked(s, Expired(s, now), EXPIRED, m.sweep);
    SubsetIsSmaller(swept.live, s.live);
    RevokedReferences(s, |s.grants|, Expired(s, now), EXPIRED, m.sweep);
    hide Revoked, EXPIRED;
    var (r, g) := Minted(s, limits, m, now);
    if g.Some? {
      forall h | 0 <= h < |s.grants|
        ensures GrantProgress(s, r, h)
      {
        assert GrantProgress(s, swept, h);
      }
    }
  }

  lemma ConsumedProgress(s: State, g: GrantId, c: ConsumeInput, now: int)
    requires References(s)
    ensures var r := Consumed(s, g, c, now).0; Progress(s, r, {}) && SameCounts(s, r) && r.live <= s.live
  {
    hide StillValid, DENIED;
    if g in s.live && !s.grants[g].consumed {
      var recorded := Recorded(Put(s, g, s.grants[g].(consumed := true)), g, Consume, []);
      EndedProgress(recorded, g, Failure, DENIED, c.failureStored);
      var r := Consumed(s, g, c, now).0;
      forall h | 0 <= h < |s.grants|
        ensures GrantProgress(s, r, h)
      {
        assert GrantProgress(recorded, Ended(recorded, g, Failure, DENIED, c.failureStored).0, h);
      }
    }
  }

  lemma OutcomeProgress(s: State, g: GrantId, succeeded: bool, code: Text, stored: bool)
    requires References(s)
    ensures var r := OutcomeRecorded(s, g, succeeded, code, stored).0;
            Progress(s, r, {}) && SameCounts(s, r) && r.live <= s.live
  {
  }

  lemma FailedProgress(s: State, g: GrantId, code: Text, stored: bool)
    requires g < |s.grants|
    ensures var r := FailedCall(s, g, code, stored); Progress(s, r, {g}) && SameCounts(s, r) && r.live <= s.live
  {
  }

  // The calls and the counters.

  predicate Held(s: State, call: Call)
    requires call.Pending?
  {
    var g := call.grant;
    && g < |s.grants| && s.grants[g].consumed && !s.grants[g].abort.NoCall?
    && (g in s.live || s.grants[g].abort.Aborted? || s.grants[g].terminal)
  }

  predicate Apart(a: Call, b: Call) {
    a.Pending? && b.Pending? ==> a.grant != b.grant && a.conversation != b.conversation
  }

  predicate Counted(s: State, call: Call)
    requires call.Pending?
  {
    call.conversation in if call.observes then s.observations else s.interactions
  }

  predicate CallsKept(s: State, calls: seq<Call>) {
    && (forall c | 0 <= c < |calls| && calls[c].Pending? :: Held(s, calls[c]) && Counted(s, calls[c]))
    && (forall c, d | 0 <= c < d < |calls| :: Apart(calls[c], calls[d]))
  }

  predicate HasCall(calls: seq<Call>, conversation: Text, observes: bool) {
    exists c | 0 <= c < |calls| ::
        calls[c].Pending? && calls[c].conversation == conversation && calls[c].observes == observes
  }

  /** The counters of one kind of call: as many as there are conversations, each counted once. */
  predicate Tallied(count: int, running: map<Text, nat>, limit: nat) {
    count == |running.Keys| <= limit && forall k | k in running :: running[k] == 1
  }

  predicate KindKept(count: int, running: map<Text, nat>, limit: nat, calls: seq<Call>, observes: bool) {
    Tallied(count, running, limit) && forall k | k in running :: HasCall(calls, k, observes)
  }

  predicate CountsKept(limits: Limits, s: State, calls: seq<Call>) {
    && KindKept(s.observationCount, s.observations, limits.maxObservations, calls, true)
    && KindKept(s.interactionCount, s.interactions, limits.maxInteractions, calls, false)
    && s.observations.Keys !! s.interactions.Keys
  }

  ghost predicate Invariant(limits: Limits, y: System) {
    && StateKept(y.s) && CallsKept(y.s, y.calls) && CountsKept(limits, y.s, y.calls)
    && |y.s.live| <= limits.maxGrants
  }

  /** A segment that neither begins nor ends a call. */
  lemma QuietKeepsInvariant(limits: Limits, y: System, r: State)
    requires Invariant(limits, y) && StateKept(r) && Progress(y.s, r, {}) && SameCounts(y.s, r)
    requires |r.live| <= limits.maxGrants
    ensures Invariant(limits, y.(s := r))
  {
    hide StateKept, Apart;
    forall c | 0 <= c < |y.calls| && y.calls[c].Pending?
      ensures Held(r, y.calls[c]) && Counted(r, y.calls[c])
    {
      assert Held(y.s, y.calls[c]) && GrantProgress(y.s, r, y.calls[c].grant);
    }
  }

  // Ending a call.

  lemma ReleasedOnlyCounts(s: State, x: State, conversation: Text, observes: bool)
    requires SameCounts(s, x)
    ensures var r := ReleasedCall(x, conversation, observes);
            && SameCounts(ReleasedCall(s, conversation, observes), r)
            && r.grants == x.grants && r.live == x.live && r.handles == x.handles && r.facts == x.facts
  {
  }

  lemma AttemptedProgress(s: State, observes: bool, g: GrantId, e: EndInput, now: int)
    requires References(s) && g < |s.grants|
    ensures var (r, ok) := Attempted(s, observes, g, e, now);
            && Progress(s, r, {}) && SameCounts(s, r) && r.live <= s.live
            && (ok ==> !s.grants[g].abort.Aborted? && !s.grants[g].terminal)
  {
    OutcomeProgress(s, g, true, if observes then OBSERVED else DISPATCHED, e.outcomeStored);
    hide OutcomeRecorded, StillValid, OBSERVED, DISPATCHED;
  }

  lemma ClosedProgress(s: State, observes: bool, g: GrantId, e: EndInput, now: int)
    requires References(s) && g < |s.grants|
    ensures var (r, ok) := Closed(s, observes, g, e, now);
            && Progress(s, r, {g}) && SameCounts(s, r) && r.live <= s.live
            && (ok ==> !s.grants[g].abort.Aborted? && !s.grants[g].terminal)
  {
    AttemptedProgress(s, observes, g, e, now);
    var outcome := Attempted(s, observes, g, e, now).0;
    var unknown := s.grants[g].abort.Aborted? || (!observes && (e.settled || e.dispatched));
    FailedProgress(outcome, g, FailureCode(observes, unknown), e.failureStored);
    hide Attempted, FailedCall, FailureCode, GrantProgress;
    SkipMore(s, outcome, g);
    if !Attempted(s, observes, g, e, now).1 {
      ProgressComposes(s, outcome, Closed(s, observes, g, e, now).0, {g});
    }
  }

  lemma SkipMore(s: State, r: State, g: GrantId)
    requires Progress(s, r, {})
    ensures Progress(s, r, {g})
  {
  }

  lemma FinishedEffect(s: State, conversation: Text, observes: bool, g: GrantId, e: EndInput, now: int)
    requires References(s) && g < |s.grants|
    ensures var (r, ok) := Finished(s, conversation, observes, g, e, now);
            && Progress(s, r, {g}) && r.live <= s.live && |r.grants| == |s.grants|
            && SameCounts(ReleasedCall(s, conversation, observes), r)
            && (ok ==> !s.grants[g].abort.Aborted? && !s.grants[g].terminal)
  {
    ClosedProgress(s, observes, g, e, now);
    hide Closed, ReleasedCall, GrantProgress;
    var closed := Closed(s, observes, g, e, now).0;
    ReleasedOnlyCounts(s, Idle(closed, g), conversation, observes);
    IdleProgress(s, closed, Finished(s, conversation, observes, g, e, now).0, g);
  }

  lemma IdleProgress(s: State, closed: State, r: State, g: GrantId)
    requires Progress(s, closed, {g}) && g < |s.grants| && |r.grants| == |closed.grants| && r.live == closed.live
    requires forall h | 0 <= h < |r.grants| && h != g :: r.grants[h] == closed.grants[h]
    ensures Progress(s, r, {g})
  {
    forall h | 0 <= h < |s.grants| && h != g
      ensures GrantProgress(s, r, h)
    {
      assert GrantProgress(s, closed, h);
    }
  }

  lemma EndKeepsCalls(s: State, r: State, calls: seq<Call>, c: nat, ok: bool)
    requires CallsKept(s, calls) && c < |calls| && calls[c].Pending?
    requires Progress(s, r, {calls[c].grant})
    requires SameCounts(ReleasedCall(s, calls[c].conversation, calls[c].observes), r)
    ensures CallsKept(r, calls[c := Over(ok)])
  {
    var after := calls[c := Over(ok)];
    forall d | 0 <= d < |after| && after[d].Pending?
      ensures Held(r, after[d]) && Counted(r, after[d])
    {
      assert Held(s, calls[d]) && Counted(s, calls[d]);
      assert Apart(calls[c], calls[d]) by { assert if c < d then Apart(calls[c], calls[d])
          else Apart(calls[d], calls[c]); }
      assert GrantProgress(s, r, calls[d].grant);
    }
    forall d, e | 0 <= d < e < |after|
      ensures Apart(after[d], after[e])
    {
      assert Apart(calls[d], calls[e]);
    }
  }

  lemma TallyFalls(count: int, running: map<Text, nat>, limit: nat, k: Text)
    requires Tallied(count, running, limit) && k in running
    ensures Tallied(count - 1, running - {k}, limit) && Count(running, k) > 0
  {
    assert (running - {k}).Keys == running.Keys - {k};
  }

  lemma TallyRises(count: int, running: map<Text, nat>, limit: nat, k: Text)
    requires Tallied(count, running, limit) && k !in running && count < limit
    ensures Tallied(count + 1, running[k := 1], limit)
  {
    assert running[k := 1].Keys == running.Keys + {k};
  }

  lemma KindLosesCall(count: int, running: map<Text, nat>, limit: nat, calls: seq<Call>, c: nat, ok: bool,
      observes: bool)
    requires KindKept(count, running, limit, calls, observes) && c < |calls| && calls[c].Pending?
    requires calls[c].observes == observes ==> calls[c].conversation in running
    ensures calls[c].observes == observes ==>
              && Count(running, calls[c].conversation) > 0
              && KindKept(count - 1, running - {calls[c].conversation}, limit, calls[c := Over(ok)], observes)
    ensures calls[c].observes != observes ==> KindKept(count, running, limit, calls[c := Over(ok)], observes)
  {
    var k := calls[c].conversation;
    hide Tallied, Count, HasCall;
    if calls[c].observes == observes {
      TallyFalls(count, running, limit, k);
    }
    forall x | x in running && (x != k || calls[c].observes != observes)
      ensures HasCall(calls[c := Over(ok)], x, observes)
    {
      OtherCall(calls, c, ok, x, observes);
    }
  }

  lemma EndKeepsCounts(limits: Limits, s: State, r: State, calls: seq<Call>, c: nat, ok: bool)
    requires CountsKept(limits, s, calls) && CallsKept(s, calls) && c < |calls| && calls[c].Pending?
    requires SameCounts(ReleasedCall(s, calls[c].conversation, calls[c].observes), r)
    ensures CountsKept(limits, r, calls[c := Over(ok)])
  {
    assert Counted(s, calls[c]);
    hide KindKept, CallsKept, Count;
    KindLosesCall(s.observationCount, s.observations, limits.maxObservations, calls, c, ok, true);
    KindLosesCall(s.interactionCount, s.interactions, limits.maxInteractions, calls, c, ok, false);
  }

  lemma OtherCall(calls: seq<Call>, c: nat, ok: bool, conversation: Text, observes: bool)
    requires c < |calls| && calls[c].Pending? && HasCall(calls, conversation, observes)
    requires calls[c].conversation != conversation || calls[c].observes != observes
    ensures HasCall(calls[c := Over(ok)], conversation, observes)
  {
    var d :| 0 <= d < |calls| && calls[d].Pending? && calls[d].conversation == conversation
        && calls[d].observes == observes;
    assert calls[c := Over(ok)][d] == calls[d];
  }

  function Ending(y: System, c: nat, e: EndInput): System
    requires References(y.s) && c < |y.calls| && y.calls[c].Pending? && y.calls[c].grant < |y.s.grants|
  {
    var call := y.calls[c];
    var (r, ok) := Finished(y.s, call.conversation, call.observes, call.grant, e, y.clock);
    y.(s := r, calls := y.calls[c := Over(ok)])
  }

  lemma EndKeepsInvariant(limits: Limits, y: System, c: nat, e: EndInput)
    requires Invariant(limits, y) && c < |y.calls| && y.calls[c].Pending?
    ensures References(y.s) && y.calls[c].grant < |y.s.grants|
    ensures Invariant(limits, Ending(y, c, e))
  {
    var call := y.calls[c];
    KeptReferences(y.s);
    assert Held(y.s, call);
    FinishedEffect(y.s, call.conversation, call.observes, call.grant, e, y.clock);
    FinishedKeeps(y.s, call.conversation, call.observes, call.grant, e, y.clock);
    var (r, ok) := Finished(y.s, call.conversation, call.observes, call.grant, e, y.clock);
    EndKeepsCalls(y.s, r, y.calls, c, ok);
    EndKeepsCounts(limits, y.s, r, y.calls, c, ok);
    SubsetIsSmaller(r.live, y.s.live);
    hide StateKept, CallsKept, CountsKept, Finished;
  }

  // Beginning a call.

  function Running(s: State, observes: bool): map<Text, nat> {
    if observes then s.observations else s.interactions
  }

  predicate Idling(s: State, conversation: Text) {
    conversation !in s.observations && conversation !in s.interactions
  }

  lemma AcquiredEffect(limits: Limits, s: State, calls: seq<Call>, conversation: Text, observes: bool)
    requires CountsKept(limits, s, calls) && Acquired(s, limits, conversation, observes).Some?
    ensures var r := Acquired(s, limits, conversation, observes).value;
            && Idling(s, conversation)
            && Running(r, observes) == Running(s, observes)[conversation := 1]
            && Running(r, !observes) == Running(s, !observes)
            && SameCounts(s, ReleasedCall(r, conversation, observes))
            && Tallied(r.observationCount, r.observations, limits.maxObservations)
            && Tallied(r.interactionCount, r.interactions, limits.maxInteractions)
            && r.grants == s.grants && r.live == s.live
  {
    var r := Acquired(s, limits, conversation, observes).value;
    assert conversation !in s.observations by { assert Count(s.observations, conversation) == 0; }
    assert conversation !in s.interactions by { assert Count(s.interactions, conversation) == 0; }
    hide HasCall;
    if observes {
      TallyRises(s.observationCount, s.observations, limits.maxObservations, conversation);
      assert s.observations[conversation := 1] - {conversation} == s.observations;
    } else {
      TallyRises(s.interactionCount, s.interactions, limits.maxInteractions, conversation);
      assert s.interactions[conversation := 1] - {conversation} == s.interactions;
    }
  }

  /** Mint and consume for a new call: the grant is new, consumed, and still held if the call goes on. */
  lemma OpenedEffect(s: State, limits: Limits, m: MintInput, c: ConsumeInput, now: int)
    requires References(s) && |s.live| <= limits.maxGrants && Minted(s, limits, m, now).1.Some?
    ensures References(Minted(s, limits, m, now).0)
    ensures var (minted, g) := Minted(s, limits, m, now);
            var (r, ok) := Consumed(minted, g.value, c, now);
            && g.value == |s.grants| && |r.grants| == |s.grants| + 1
            && Progress(s, r, {}) && SameCounts(s, r) && |r.live| <= limits.maxGrants
            && r.grants[g.value].consumed && r.grants[g.value].abort.NoCall?
            && (ok ==> g.value in r.live)
  {
    MintedReferences(s, limits, m, now);
    MintedIsNew(s, limits, m, now);
    MintedProgress(s, limits, m, now);
    var (minted, g) := Minted(s, limits, m, now);
    ConsumedProgress(minted, g.value, c, now);
    var r := Consumed(minted, g.value, c, now).0;
    SubsetIsSmaller(r.live, minted.live);
    ProgressComposes(s, minted, r, {});
    NewlyConsumed(minted, g.value, c, now);
  }

  lemma NewlyConsumed(s: State, g: GrantId, c: ConsumeInput, now: int)
    requires References(s) && g in s.live && !s.grants[g].consumed && s.grants[g].abort.NoCall?
    ensures var (r, ok) := Consumed(s, g, c, now);
            r.grants[g].consumed && r.grants[g].abort.NoCall? && (ok ==> g in r.live)
  {
    hide StillValid, DENIED;
  }

  lemma SameProgress(s: State, r: State, skip: set<GrantId>)
    requires r.grants == s.grants && r.live == s.live
    ensures Progress(s, r, skip)
  {
  }

  lemma ReleaseRestores(s: State, acquired: State, x: State, conversation: Text, observes: bool)
    requires SameCounts(acquired, x) && SameCounts(s, ReleasedCall(acquired, conversation, observes))
    ensures SameCounts(s, ReleasedCall(x, conversation, observes))
    ensures ReleasedCall(x, conversation, observes).grants == x.grants
    ensures ReleasedCall(x, conversation, observes).live == x.live
  {
  }

  /** A call that fails before its await leaves the counters as they were. */
  lemma BegunFails(limits: Limits, s: State, calls: seq<Call>, conversation: Text, observes: bool, m: MintInput,
      c: ConsumeInput, stored: bool, now: int)
    requires References(s) && CountsKept(limits, s, calls) && |s.live| <= limits.maxGrants
    requires Begun(s, limits, conversation, observes, m, c, stored, now).1.None?
    ensures var r := Begun(s, limits, conversation, observes, m, c, stored, now).0;
            Progress(s, r, {}) && SameCounts(s, r) && |r.live| <= limits.maxGrants
  {
    var r := Begun(s, limits, conversation, observes, m, c, stored, now).0;
    var begun := Acquired(s, limits, conversation, observes);
    SameProgress(s, s, {});
    if begun.Some? {
      var acquired := begun.value;
      AcquiredEffect(limits, s, calls, conversation, observes);
      AcquiredReferences(s, limits, conversation, observes);
      SameProgress(s, acquired, {});
      hide CountsKept, Acquired, Minted, Consumed, FailedCall, ReleasedCall, FailureCode, Progress, GrantProgress;
      hide References, Tallied;
      var (minted, g) := Minted(acquired, limits, m, now);
      if g.None? {
        MintedProgress(acquired, limits, m, now);
        ReleaseRestores(s, acquired, minted, conversation, observes);
        FailureProgress(s, acquired, minted, minted, r, |s.grants|);
      } else {
        OpenedEffect(acquired, limits, m, c, now);
        var consumed := Consumed(minted, g.value, c, now).0;
        FailedProgress(consumed, g.value, FailureCode(observes, false), stored);
        var failed := FailedCall(consumed, g.value, FailureCode(observes, false), stored);
        SubsetIsSmaller(failed.live, consumed.live);
        var x := failed.(handles := failed.handles - {g.value});
        ReleaseRestores(s, acquired, x, conversation, observes);
        FailureProgress(s, acquired, consumed, failed, r, g.value);
      }
    }
  }

  lemma FailureProgress(s: State, acquired: State, r: State, failed: State, q: State, g: GrantId)
    requires acquired.grants == s.grants && acquired.live == s.live && g >= |s.grants|
    requires Progress(acquired, r, {}) && (failed == r || (Progress(r, failed, {g}) && |failed.grants| == |r.grants|))
    requires q.grants == failed.grants && q.live == failed.live
    ensures Progress(s, q, {})
  {
    forall h | 0 <= h < |s.grants|
      ensures GrantProgress(s, q, h)
    {
      assert GrantProgress(acquired, r, h);
      assert failed != r ==> GrantProgress(r, failed, h);
    }
  }

  /** A call that reaches its await: its grant is new and its conversation was idle. */
  lemma BegunHolds(limits: Limits, s: State, calls: seq<Call>, conversation: Text, observes: bool, m: MintInput,
      c: ConsumeInput, stored: bool, now: int)
    requires References(s) && CountsKept(limits, s, calls) && |s.live| <= limits.maxGrants
    requires Begun(s, limits, conversation, observes, m, c, stored, now).1.Some?
    ensures var (r, g) := Begun(s, limits, conversation, observes, m, c, stored, now);
            && Progress(s, r, {}) && |r.live| <= limits.maxGrants
            && g.value == |s.grants| && Held(r, Pending(conversation, observes, g.value))
            && Idling(s, conversation)
            && Running(r, observes) == Running(s, observes)[conversation := 1]
            && Running(r, !observes) == Running(s, !observes)
            && Tallied(r.observationCount, r.observations, limits.maxObservations)
            && Tallied(r.interactionCount, r.interactions, limits.maxInteractions)
  {
    var (r, g) := Begun(s, limits, conversation, observes, m, c, stored, now);
    var acquired := Acquired(s, limits, conversation, observes).value;
    AcquiredEffect(limits, s, calls, conversation, observes);
    AcquiredReferences(s, limits, conversation, observes);
    hide CountsKept, Acquired, Minted, Consumed, FailedCall, ReleasedCall, FailureCode, Progress, GrantProgress;
    hide References, Tallied;
    var minted := Minted(acquired, limits, m, now).0;
    OpenedEffect(acquired, limits, m, c, now);
    var consumed := Consumed(minted, g.value, c, now).0;
    BegunProgress(s, acquired, consumed, r, g.value);
  }

  lemma BegunProgress(s: State, acquired: State, consumed: State, r: State, g: GrantId)
    requires acquired.grants == s.grants && acquired.live == s.live && g == |s.grants| && g < |consumed.grants|
    requires Progress(acquired, consumed, {}) && r == Put(consumed, g, consumed.grants[g].(abort := Abort.Running))
    ensures Progress(s, r, {})
  {
    forall h | 0 <= h < |s.grants|
      ensures GrantProgress(s, r, h)
    {
      assert GrantProgress(acquired, consumed, h);
    }
  }

  lemma BeginKeepsCalls(s: State, r: State, calls: seq<Call>, call: Call)
    requires CallsKept(s, calls) && Progress(s, r, {}) && call.Pending? && Held(r, call) && call.grant == |s.grants|
    requires Idling(s, call.conversation)
    requires Running(r, call.observes) == Running(s, call.observes)[call.conversation := 1]
    requires Running(r, !call.observes) == Running(s, !call.observes)
    ensures CallsKept(r, calls + [call])
  {
    var after := calls + [call];
    forall d | 0 <= d < |after| && after[d].Pending?
      ensures Held(r, after[d]) && Counted(r, after[d])
    {
      if d < |calls| {
        assert Held(s, calls[d]) && Counted(s, calls[d]) && GrantProgress(s, r, calls[d].grant);
      }
    }
    forall d, e | 0 <= d < e < |after|
      ensures Apart(after[d], after[e])
    {
      if e < |calls| {
        assert Apart(calls[d], calls[e]);
      } else if calls[d].Pending? {
        assert Held(s, calls[d]) && Counted(s, calls[d]);
      }
    }
  }

  lemma MoreCalls(calls: seq<Call>, call: Call)
    ensures forall k, observes | HasCall(calls, k, observes) :: HasCall(calls + [call], k, observes)
    ensures call.Pending? ==> HasCall(calls + [call], call.conversation, call.observes)
  {
    var after := calls + [call];
    assert after[|calls|] == call;
    forall k, observes | HasCall(calls, k, observes)
      ensures HasCall(after, k, observes)
    {
      var c :| 0 <= c < |calls| && calls[c].Pending? && calls[c].conversation == k && calls[c].observes == observes;
      assert after[c] == calls[c];
    }
  }

  lemma OverKeepsInvariant(limits: Limits, y: System)
    requires Invariant(limits, y)
    ensures Invariant(limits, y.(calls := y.calls + [Over(false)]))
  {
    MoreCalls(y.calls, Over(false));
    hide StateKept, Held, HasCall, Tallied, Counted;
    var after := y.calls + [Over(false)];
    forall d, e | 0 <= d < e < |after|
      ensures Apart(after[d], after[e])
    {
      assert e < |y.calls| ==> Apart(y.calls[d], y.calls[e]);
    }
  }

  function Beginning(limits: Limits, y: System, conversation: Text, observes: bool, m: MintInput, c: ConsumeInput,
      stored: bool): System
    requires References(y.s)
  {
    var (r, g) := Begun(y.s, limits, conversation, observes, m, c, stored, y.clock);
    y.(s := r, calls := y.calls + [if g.Some? then Pending(conversation, observes, g.value) else Over(false)])
  }

  lemma BeginKeepsCounts(limits: Limits, s: State, r: State, calls: seq<Call>, call: Call)
    requires CountsKept(limits, s, calls) && call.Pending? && Idling(s, call.conversation)
    requires Running(r, call.observes) == Running(s, call.observes)[call.conversation := 1]
    requires Running(r, !call.observes) == Running(s, !call.observes)
    requires Tallied(r.observationCount, r.observations, limits.maxObservations)
    requires Tallied(r.interactionCount, r.interactions, limits.maxInteractions)
    ensures CountsKept(limits, r, calls + [call])
  {
    MoreCalls(calls, call);
    hide HasCall, Tallied;
  }

  lemma BeginKeepsInvariant(limits: Limits, y: System, conversation: Text, observes: bool, m: MintInput,
      c: ConsumeInput, stored: bool)
    requires Invariant(limits, y)
    ensures References(y.s) && Invariant(limits, Beginning(limits, y, conversation, observes, m, c, stored))
  {
    KeptReferences(y.s);
    hide StateKept, CallsKept, CountsKept, Begun, Progress, Held, Running, Tallied, References;
    BegunKeeps(y.s, limits, conversation, observes, m, c, stored, y.clock);
    var (r, g) := Begun(y.s, limits, conversation, observes, m, c, stored, y.clock);
    if g.None? {
      BegunFails(limits, y.s, y.calls, conversation, observes, m, c, stored, y.clock);
      QuietKeepsInvariant(limits, y, r);
      OverKeepsInvariant(limits, y.(s := r));
    } else {
      var call := Pending(conversation, observes, g.value);
      BegunHolds(limits, y.s, y.calls, conversation, observes, m, c, stored, y.clock);
      BeginKeepsCalls(y.s, r, y.calls, call);
      BeginKeepsCounts(limits, y.s, r, y.calls, call);
    }
  }

  // Runs.

  predicate IsPending(calls: seq<Call>, g: GrantId) {
    exists c | 0 <= c < |calls| :: calls[c].Pending? && calls[c].grant == g
  }

  /** The segments that leave the list of calls alone. */
  function Quiet(limits: Limits, y: System, e: Event): State
    requires References(y.s) && !e.Begin? && !e.End?
  {
    match e
    case MintDirectly(m) => Minted(y.s, limits, m, y.clock).0
    case ConsumeDirectly(g, c) => Consumed(y.s, g, c, y.clock).0
    case RecordDirectly(g, succeeded, code, stored) =>
      if IsPending(y.calls, g) then y.s else OutcomeRecorded(y.s, g, succeeded, code, stored).0
    case AbortByTimer(g) =>
      if g < |y.s.grants| && y.s.grants[g].abort.Running? then Put(y.s, g, y.s.grants[g].(abort := Aborted)) else y.s
    case Revoke(matching, code, storage) => Revoked(y.s, matching, code, storage)
    case Sweep(storage) => Revoked(y.s, Expired(y.s, y.clock), EXPIRED, storage)
    case Tick(_) => y.s
  }

  function Elapsed(e: Event): nat {
    if e.Tick? then e.duration else 0
  }

  ghost function Apply(limits: Limits, y: System, e: Event): System
    requires Invariant(limits, y)
  {
    KeptReferences(y.s);
    match e
    case Begin(conversation, observes, m, c, stored) => Beginning(limits, y, conversation, observes, m, c, stored)
    case End(c, input) =>
      if c < |y.calls| && y.calls[c].Pending? then
        assert Held(y.s, y.calls[c]);
        Ending(y, c, input)
      else y
    case _ => System(Quiet(limits, y, e), y.clock + Elapsed(e), y.calls)
  }

  lemma AbortProgress(s: State, g: GrantId)
    requires g < |s.grants| && s.grants[g].abort.Running?
    ensures Progress(s, Put(s, g, s.grants[g].(abort := Aborted)), {})
  {
  }

  lemma QuietEffect(limits: Limits, y: System, e: Event)
    requires Invariant(limits, y) && !e.Begin? && !e.End?
    ensures References(y.s)
    ensures var r := Quiet(limits, y, e);
            StateKept(r) && Progress(y.s, r, {}) && SameCounts(y.s, r) && |r.live| <= limits.maxGrants
  {
    KeptReferences(y.s);
    SameProgress(y.s, y.s, {});
    hide StateKept, CallsKept, CountsKept, Progress, Minted, Consumed, OutcomeRecorded, Revoked, References, IsPending;
    var r := Quiet(limits, y, e);
    match e
    case MintDirectly(m) =>
      MintedKeeps(y.s, limits, m, y.clock);
      MintedProgress(y.s, limits, m, y.clock);
    case ConsumeDirectly(g, c) =>
      ConsumedKeeps(y.s, g, c, y.clock);
      ConsumedProgress(y.s, g, c, y.clock);
      SubsetIsSmaller(r.live, y.s.live);
    case RecordDirectly(g, succeeded, code, stored) =>
      OutcomeKeeps(y.s, g, succeeded, code, stored);
      OutcomeProgress(y.s, g, succeeded, code, stored);
      SubsetIsSmaller(r.live, y.s.live);
    case AbortByTimer(g) =>
      if g < |y.s.grants| && y.s.grants[g].abort.Running? {
        AbortKeeps(y.s, g, Aborted);
        AbortProgress(y.s, g);
      }
    case Revoke(matching, code, storage) => RevokedEffect(y.s, matching, code, storage);
      SubsetIsSmaller(r.live, y.s.live);
    case Sweep(storage) => RevokedEffect(y.s, Expired(y.s, y.clock), EXPIRED, storage);
      SubsetIsSmaller(r.live, y.s.live);
    case Tick(_) =>
  }

  lemma RevokedEffect(s: State, matching: set<GrantId>, code: Text, storage: Storage)
    requires StateKept(s)
    ensures var r := Revoked(s, matching, code, storage);
            && StateKept(r) && Progress(s, r, {}) && SameCounts(s, r) && r.live <= s.live
            && forall g | g in matching && g in s.live :: s.grants[g].abort.NoCall? || r.grants[g].abort.Aborted?
  {
    RevokedKeeps(s, |s.grants|, matching, code, storage);
    RevokedProgress(s, |s.grants|, matching, code, storage);
  }

  lemma ClockKeepsInvariant(limits: Limits, y: System, clock: int)
    requires Invariant(limits, y)
    ensures Invariant(limits, y.(clock := clock))
  {
  }

  /** Every segment keeps the invariant, whatever the store answers. */
  lemma ApplyKeepsInvariant(limits: Limits, y: System, e: Event)
    requires Invariant(limits, y)
    ensures Invariant(limits, Apply(limits, y, e))
  {
    KeptReferences(y.s);
    match e
    case Begin(conversation, observes, m, c, stored) =>
      BeginKeepsInvariant(limits, y, conversation, observes, m, c, stored);
    case End(c, input) =>
      if c < |y.calls| && y.calls[c].Pending? {
        EndKeepsInvariant(limits, y, c, input);
      }
    case _ =>
      QuietEffect(limits, y, e);
      hide Invariant, Quiet;
      var r := Quiet(limits, y, e);
      QuietKeepsInvariant(limits, y, r);
      ClockKeepsInvariant(limits, y.(s := r), y.clock + Elapsed(e));
  }

  ghost function Continue(limits: Limits, y: System, events: seq<Event>): (z: System)
    requires Invariant(limits, y)
    ensures Invariant(limits, z)
    decreases |events|
  {
    if events == [] then y
    else
      ApplyKeepsInvariant(limits, y, events[0]);
      Continue(limits, Apply(limits, y, events[0]), events[1..])
  }

  ghost function Run(limits: Limits, events: seq<Event>): (y: System)
    ensures Invariant(limits, y)
  {
    Continue(limits, INITIAL, events)
  }

  // Main results.

  /**
   In every run, the facts recorded for a grant are its mint, then at most one consume, then
   at most one terminal fact, with an outcome only after a consume; nothing is recorded for
   anything that was not minted.
   */
  lemma AuditTrailsAreLawful(limits: Limits, events: seq<Event>, g: GrantId)
    ensures var s := Run(limits, events).s;
            if g < |s.grants| then Lawful(Trail(s.facts, g)) else Trail(s.facts, g) == []
  {
    var s := Run(limits, events).s;
    hide Trail;
    assert StateKept(s);
    if g < |s.grants| {
      assert GrantKept(s, g);
    }
  }

  /**
   In every run, both counters equal the number of conversations with such a call and stay
   within their limits; a conversation is counted exactly while one of its calls is running;
   no conversation has two calls running; and the registry stays within its limit.
   */
  lemma CountersAgree(limits: Limits, events: seq<Event>)
    ensures var y := Run(limits, events);
            && y.s.observationCount == |y.s.observations.Keys| <= limits.maxObservations
            && y.s.interactionCount == |y.s.interactions.Keys| <= limits.maxInteractions
            && (forall k :: k in y.s.observations <==> HasCall(y.calls, k, true))
            && (forall k :: k in y.s.interactions <==> HasCall(y.calls, k, false))
            && (forall c, d | 0 <= c < d < |y.calls| && y.calls[c].Pending? && y.calls[d].Pending? ::
                  y.calls[c].conversation != y.calls[d].conversation)
            && |y.s.live| <= limits.maxGrants
  {
    var y := Run(limits, events);
    hide StateKept, Held;
    forall k, observes | HasCall(y.calls, k, observes)
      ensures k in Running(y.s, observes)
    {
      var c :| 0 <= c < |y.calls| && y.calls[c].Pending? && y.calls[c].conversation == k
          && y.calls[c].observes == observes;
      assert Counted(y.s, y.calls[c]);
    }
    forall c, d | 0 <= c < d < |y.calls| && y.calls[c].Pending? && y.calls[d].Pending?
      ensures y.calls[c].conversation != y.calls[d].conversation
    {
      assert Apart(y.calls[c], y.calls[d]);
    }
  }

  /** A call that can only fail. */
  predicate Doomed(y: System, c: nat) {
    && c < |y.calls|
    && (y.calls[c] == Over(false)
        || (y.calls[c].Pending? && y.calls[c].grant < |y.s.grants|
            && (y.s.grants[y.calls[c].grant].abort.Aborted? || y.s.grants[y.calls[c].grant].terminal)))
  }

  lemma DoomedByProgress(y: System, z: System, c: nat, skip: set<GrantId>)
    requires Doomed(y, c) && c < |z.calls| && z.calls[c] == y.calls[c] && Progress(y.s, z.s, skip)
    requires y.calls[c].Pending? ==> y.calls[c].grant !in skip
    ensures Doomed(z, c)
  {
    assert y.calls[c].Pending? ==> GrantProgress(y.s, z.s, y.calls[c].grant);
  }

  lemma EndedStaysDoomed(limits: Limits, y: System, c: nat, d: nat, input: EndInput)
    requires Invariant(limits, y) && Doomed(y, c) && d < |y.calls| && y.calls[d].Pending?
    ensures References(y.s) && y.calls[d].grant < |y.s.grants| && Doomed(Ending(y, d, input), c)
  {
    KeptReferences(y.s);
    assert Held(y.s, y.calls[d]);
    var call := y.calls[d];
    FinishedEffect(y.s, call.conversation, call.observes, call.grant, input, y.clock);
    assert c != d && y.calls[c].Pending? ==> y.calls[c].grant != call.grant by {
      assert c < d ==> Apart(y.calls[c], y.calls[d]);
      assert d < c ==> Apart(y.calls[d], y.calls[c]);
    }
    hide Finished, StateKept, CallsKept, CountsKept, Progress;
    if c != d {
      DoomedByProgress(y, Ending(y, d, input), c, {call.grant});
    }
  }

  lemma BegunStaysDoomed(limits: Limits, y: System, c: nat, conversation: Text, observes: bool, m: MintInput,
      input: ConsumeInput, stored: bool)
    requires Invariant(limits, y) && Doomed(y, c)
    ensures References(y.s) && Doomed(Beginning(limits, y, conversation, observes, m, input, stored), c)
  {
    KeptReferences(y.s);
    if Begun(y.s, limits, conversation, observes, m, input, stored, y.clock).1.None? {
      BegunFails(limits, y.s, y.calls, conversation, observes, m, input, stored, y.clock);
    } else {
      BegunHolds(limits, y.s, y.calls, conversation, observes, m, input, stored, y.clock);
    }
    hide Begun, StateKept, CallsKept, CountsKept, Progress;
    DoomedByProgress(y, Beginning(limits, y, conversation, observes, m, input, stored), c, {});
  }

  lemma StepStaysDoomed(limits: Limits, y: System, e: Event, c: nat)
    requires Invariant(limits, y) && Doomed(y, c)
    ensures Doomed(Apply(limits, y, e), c)
  {
    KeptReferences(y.s);
    match e
    case Begin(conversation, observes, m, input, stored) =>
      BegunStaysDoomed(limits, y, c, conversation, observes, m, input, stored);
    case End(d, input) =>
      if d < |y.calls| && y.calls[d].Pending? {
        EndedStaysDoomed(limits, y, c, d, input);
      }
    case _ =>
      QuietEffect(limits, y, e);
      hide Quiet, Invariant, Progress, StateKept;
      DoomedByProgress(y, Apply(limits, y, e), c, {});
  }

  lemma {:induction false} DoomedNeverSucceeds(limits: Limits, y: System, after: seq<Event>, c: nat)
    requires Invariant(limits, y) && Doomed(y, c)
    ensures Doomed(Continue(limits, y, after), c)
    decreases |after|
  {
    if after != [] {
      hide Invariant, Apply, Doomed;
      StepStaysDoomed(limits, y, after[0], c);
      ApplyKeepsInvariant(limits, y, after[0]);
      DoomedNeverSucceeds(limits, Apply(limits, y, after[0]), after[1..], c);
    }
  }

  lemma RevokedIsDoomed(limits: Limits, y: System, c: nat, matching: set<GrantId>, code: Text, storage: Storage)
    requires Invariant(limits, y) && c < |y.calls| && y.calls[c].Pending? && y.calls[c].grant in matching
    ensures Doomed(Apply(limits, y, Revoke(matching, code, storage)), c)
  {
    var g := y.calls[c].grant;
    KeptReferences(y.s);
    assert Held(y.s, y.calls[c]);
    RevokedEffect(y.s, matching, code, storage);
    hide StateKept, CallsKept, CountsKept, Revoked;
    assert GrantProgress(y.s, Revoked(y.s, matching, code, storage), g);
  }

  /** Revocation reaches every running call: no matter what is stored or observed, it never succeeds. */
  lemma RevokedCallNeverSucceeds(limits: Limits, before: seq<Event>, c: nat, matching: set<GrantId>, code: Text,
      storage: Storage, after: seq<Event>)
    requires var y := Run(limits, before); c < |y.calls| && y.calls[c].Pending? && y.calls[c].grant in matching
    ensures var y := Run(limits, before);
            var revoked := Apply(limits, y, Revoke(matching, code, storage));
            && Invariant(limits, revoked)
            && c < |Continue(limits, revoked, after).calls| && Continue(limits, revoked, after).calls[c] != Over(true)
  {
    hide Invariant, Apply, Run, Continue;
    var y := Run(limits, before);
    ApplyKeepsInvariant(limits, y, Revoke(matching, code, storage));
    RevokedIsDoomed(limits, y, c, matching, code, storage);
    DoomedNeverSucceeds(limits, Apply(limits, y, Revoke(matching, code, storage)), after, c);
  }

  /** The end of a call that nothing disturbed: the outcome is the last fact, and the grant is over. */
  lemma FinishedWell(s: State, conversation: Text, observes: bool, g: GrantId, e: EndInput, now: int)
    requires References(s) && g in s.handles && s.grants[g].consumed && !s.grants[g].terminal
    requires !s.grants[g].abort.Aborted?
    requires e.settled && e.outcomeStored && StillValid(s.grants[g], e.resolution, now)
    ensures var (q, ok) := Finished(s, conversation, observes, g, e, now);
            && ok && q.grants[g].terminal && g !in q.live && g !in q.handles
            && q.facts == Recorded(s, g, Outcome, if observes then OBSERVED else DISPATCHED).facts
  {
    var code := if observes then OBSERVED else DISPATCHED;
    var closed := Closed(s, observes, g, e, now).0;
    assert closed == OutcomeRecorded(s, g, true, code, true).0;
    ReleasedOnlyCounts(Idle(closed, g), Idle(closed, g), conversation, observes);
    hide ReleasedCall, StillValid, OBSERVED, DISPATCHED, Closed;
  }

  /** A call that nothing disturbs succeeds, and its audit trail is complete. */
  lemma UndisturbedCallSucceeds(limits: Limits, s: State, conversation: Text, observes: bool, m: MintInput,
      c: ConsumeInput, stored: bool, now: int, e: EndInput, later: int)
    requires StateKept(s) && References(s)
    requires var (r, g) := Begun(s, limits, conversation, observes, m, c, stored, now);
             g.Some? && e.settled && e.outcomeStored && StillValid(r.grants[g.value], e.resolution, later)
    ensures var (r, g) := Begun(s, limits, conversation, observes, m, c, stored, now);
            && References(r) && g.value < |r.grants|
            && var (q, ok) := Finished(r, conversation, observes, g.value, e, later);
            && ok && Trail(q.facts, g.value) == [Mint, Consume, Outcome]
            && q.grants[g.value].terminal && g.value !in q.live && g.value !in q.handles
  {
    hide Begun, Finished, StillValid, Trail, OBSERVED, DISPATCHED;
    var (r, g) := Begun(s, limits, conversation, observes, m, c, stored, now);
    BegunKeeps(s, limits, conversation, observes, m, c, stored, now);
    KeptReferences(r);
    BegunIsHandled(s, limits, conversation, observes, m, c, stored, now);
    assert GrantKept(r, g.value);
    hide StateKept, GrantKept, References;
    AppendTrail(r, g.value, Outcome, if observes then OBSERVED else DISPATCHED);
    FinishedWell(r, conversation, observes, g.value, e, later);
  }

  lemma BegunIsHandled(s: State, limits: Limits, conversation: Text, observes: bool, m: MintInput, c: ConsumeInput,
      stored: bool, now: int)
    requires StateKept(s) && References(s) && Begun(s, limits, conversation, observes, m, c, stored, now).1.Some?
    ensures var (r, g) := Begun(s, limits, conversation, observes, m, c, stored, now);
            && g.value < |r.grants| && g.value in r.handles
            && r.grants[g.value].consumed && !r.grants[g.value].terminal && r.grants[g.value].abort.Running?
  {
    var acquired := Acquired(s, limits, conversation, observes).value;
    AcquiredReferences(s, limits, conversation, observes);
    MintedReferences(acquired, limits, m, now);
    MintedIsNew(acquired, limits, m, now);
    hide Acquired, Minted, FailedCall, ReleasedCall, FailureCode, StateKept, StillValid, DENIED;
  }
}
