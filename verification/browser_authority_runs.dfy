/**
 Runs of the browser authority: any number of calls, each suspended at one of its awaits,
 resumed in any order among revocations and clock ticks.
 */
module BrowserAuthorityRuns {
  import opened CanonicalJson
  import opened SetFacts
  import opened Planner
  import opened BrowserAuthority

  /** Where a call is suspended. */
  datatype Point =
    | Done
    | Installing(terms: Grant)
    | Approving(grant: GrantId, approval: Approval, generation: nat, workspace: Text)
    | Claiming(grant: GrantId, approval: Approval)
    | Requesting(grant: GrantId, approval: Approval, generation: nat, alias: Text)
    | Waiting(grant: GrantId, approval: Approval, ticket: Ticket, alias: Text)
    | Reading(grant: GrantId)
    | Opening(grant: GrantId)
    | Leasing(grant: GrantId)
    | Finishing(grant: GrantId)

  datatype Action = Action(grant: GrantId, approval: Approval)

  /**
   `charges` records, for each call that took a unit of budget, the grant and approval it
   used; `acted` the calls whose action was put to the broker; `approvals` how often each
   operation was approved.
   */
  datatype System = System(
    s: State, clock: int, calls: seq<Point>,
    charges: map<nat, Action>, acted: set<nat>, approvals: map<Action, nat>)

  datatype Event =
    | StartPrepare(terms: Grant)
    | StartActivate(key: Key, approval: Approval, generation: nat, workspace: Text)
    | StartExecute(key: Key, approval: Approval, generation: nat, alias: Text)
    | Resume(call: nat, lease: Option<nat>, lost: bool)
    | RevokeGrant(grant: GrantId)
    | RevokeWhere(conversation: Text)
    | RevokeAll
    | Tick(duration: nat)

  const INITIAL: System := System(State(map[], [], []), 0, [], map[], {}, map[])

  function Approvals(y: System, x: Action): nat {
    if x in y.approvals then y.approvals[x] else 0
  }

  /** Suspended calls refer to objects that exist. */
  predicate PointClosed(s: State, p: Point) {
    match p
    case Done => true
    case Installing(_) => true
    case Waiting(g, _, t, _) => g < |s.grants| && t < |s.promises|
    case _ => p.grant < |s.grants|
  }

  ghost predicate WellFormedSystem(y: System) {
    && Closed(y.s)
    && (forall c | 0 <= c < |y.calls| :: PointClosed(y.s, y.calls[c]))
  }

  function Moved(y: System, c: nat, s: State, p: Point): System
    requires c < |y.calls|
  {
    y.(s := s, calls := y.calls[c := p])
  }

  function ChargeCall(y: System, c: nat, s: State, g: GrantId, a: Approval, alias: Text): System
    requires c < |y.calls| && g < |s.grants|
  {
    var (after, next) := Charge(s, g, a, alias, y.clock);
    match next
    case NotCharged => Moved(y, c, after, Done)
    case ChargedOnly => Moved(y, c, after, Finishing(g)).(charges := y.charges[c := Action(g, a)])
    case ChargedOpening => Moved(y, c, after, Opening(g)).(charges := y.charges[c := Action(g, a)],
      acted := y.acted + {c})
    case ChargedReading => Moved(y, c, after, Reading(g)).(charges := y.charges[c := Action(g, a)])
  }

  /** One suspended call runs to its next await. */
  function Resumed(y: System, c: nat, lease: Option<nat>, lost: bool): System
    requires c < |y.calls| && PointClosed(y.s, y.calls[c])
  {
    match y.calls[c]
    case Done => y
    case Installing(terms) => Moved(y, c, Installed(y.s, terms), Done)
    case Approving(g, a, generation, workspace) =>
      var (s, next) := Approve(y.s, g, a, generation, workspace);
      if next.Mismatch? then Moved(y, c, s, Done)
      else
        Moved(y, c, s, if next.Claim? then Claiming(g, a) else Done)
          .(approvals := y.approvals[Action(g, a) := Approvals(y, Action(g, a)) + 1])
    case Claiming(g, a) => Moved(y, c, Claimed(y.s, g, a, lease, y.clock), Done)
    case Requesting(g, a, generation, alias) =>
      (var (s, next) := Requested(y.s, g, a, generation);
       match next
       case Refused => Moved(y, c, s, Done)
       case Wait(t) => Moved(y, c, s, Waiting(g, a, t, alias))
       case Proceed => ChargeCall(y, c, s, g, a, alias))
    case Waiting(g, a, t, alias) =>
      (match y.s.promises[t]
       case Unsettled => y
       case Rejected => Moved(y, c, y.s, Done)
       case Resolved => ChargeCall(y, c, y.s, g, a, alias))
    case Reading(g) => Moved(y, c, y.s, Finishing(g)).(acted := if MayAct(y.s, g, y.clock) then y.acted + {c}
      else y.acted)
    case Opening(g) =>
      if lost || !IsCurrent(y.s, g, y.clock) then Moved(y, c, RevokedGrants(y.s, {g}), Finishing(g))
      else Moved(y, c, y.s, Leasing(g))
    case Leasing(g) => Moved(y, c, Leased(y.s, g, lease, y.clock), Finishing(g))
    case Finishing(g) => Moved(y, c, Finished(y.s, g, lost), Done)
  }

  function Started(y: System, s: State, p: Point): System {
    y.(s := s, calls := y.calls + [p])
  }

  ghost function Apply(y: System, e: Event): System
    requires WellFormedSystem(y)
  {
    match e
    case StartPrepare(terms) =>
      var (s, next) := Prepared(y.s, terms);
      Started(y, s, if next.Replacing? then Installing(terms) else Done)
    case StartActivate(key, a, generation, workspace) =>
      var (s, g) := Found(y.s, key, y.clock);
      Started(y, s, if g.Some? then Approving(g.value, a, generation, workspace) else Done)
    case StartExecute(key, a, generation, alias) =>
      var (s, g) := Found(y.s, key, y.clock);
      Started(y, s, if g.Some? then Requesting(g.value, a, generation, alias) else Done)
    case Resume(c, lease, lost) => if c < |y.calls| then Resumed(y, c, lease, lost) else y
    case RevokeGrant(g) => if g < |y.s.grants| then y.(s := RevokedGrants(y.s, {g})) else y
    case RevokeWhere(conversation) => y.(s := RevokedGrants(y.s, InConversation(y.s, conversation)))
    case RevokeAll => y.(s := RevokedGrants(y.s, y.s.current.Values))
    case Tick(duration) => y.(clock := y.clock + duration)
  }

  // The invariant.

  function ChargedTo(y: System, g: GrantId): set<nat> {
    set c | c in y.charges && y.charges[c].grant == g
  }

  function ChargedFor(y: System, x: Action): set<nat> {
    set c | c in y.charges && y.charges[c] == x
  }

  predicate BudgetKept(y: System, g: GrantId)
    requires g < |y.s.grants|
  {
    && y.s.grants[g].remaining == y.s.grants[g].initial - |ChargedTo(y, g)|
    && (ChargedTo(y, g) != {} ==> y.s.grants[g].remaining >= 0)
  }

  predicate IsApproved(s: State, x: Action) {
    x.grant < |s.grants| && x.approval in s.grants[x.grant].approved
  }

  predicate ApprovalsKept(y: System, x: Action) {
    |ChargedFor(y, x)| + (if IsApproved(y.s, x) then 1 else 0) <= Approvals(y, x)
  }

  /** Which calls may have been charged, and which have acted. */
  predicate CallKept(y: System, c: nat)
    requires c < |y.calls|
  {
    match y.calls[c]
    case Requesting(_, _, _, _) => c !in y.charges
    case Waiting(g, a, t, _) =>
      c !in y.charges && (t < |y.s.promises| && y.s.promises[t].Unsettled? ==> Awaited(y.s, g, a, t))
    case Reading(g) => c in y.charges && y.charges[c].grant == g && c !in y.acted
    case _ => true
  }

  /** A promise that settles when its grant is approved or revoked. */
  predicate Awaited(s: State, g: GrantId, a: Approval, t: Ticket) {
    g < |s.grants| && a in s.grants[g].pending && s.grants[g].pending[a] == t
  }

  ghost predicate Invariant(y: System) {
    && WellFormedSystem(y)
    && (forall g | 0 <= g < |y.s.grants| :: BudgetKept(y, g))
    && (forall x :: ApprovalsKept(y, x))
    && (forall c | 0 <= c < |y.calls| :: CallKept(y, c))
    && (forall c | c in y.charges :: c < |y.calls| && y.charges[c].grant < |y.s.grants|)
    && y.acted <= y.charges.Keys
  }

  /** A change of state that spends nothing, approves nothing, and leaves no waiting call behind. */
  ghost predicate Calm(s: State, r: State) {
    && Closed(r) && |s.grants| <= |r.grants| && |s.promises| <= |r.promises|
    && (forall g | 0 <= g < |s.grants| ::
          r.grants[g].initial == s.grants[g].initial && r.grants[g].remaining == s.grants[g].remaining
          && r.grants[g].approved <= s.grants[g].approved)
    && (forall g | |s.grants| <= g < |r.grants| ::
       r.grants[g].remaining == r.grants[g].initial && r.grants[g].approved == {})
    && (forall g: nat, a: Approval, t: nat | t < |s.promises| && Awaited(s, g, a, t) && r.promises[t].Unsettled? ::
       Awaited(r, g, a, t))
    && (forall t | 0 <= t < |s.promises| && r.promises[t].Unsettled? :: s.promises[t].Unsettled?)
  }

  lemma RevokedIsCalm(s: State, ids: set<GrantId>)
    requires Closed(s)
    ensures Calm(s, RevokedGrants(s, ids))
  {
    var r := RevokedGrants(s, ids);
    forall g: nat, a: Approval, t: nat | t < |s.promises| && Awaited(s, g, a, t) && r.promises[t].Unsettled?
      ensures Awaited(r, g, a, t)
    {
      assert g in ids ==> t in Tickets(s, ids);
    }
  }

  lemma ReleasedIsCalm(s: State, g: GrantId, a: Approval)
    requires Closed(s) && g < |s.grants|
    ensures Calm(s, Released(s, g, a))
  {
  }

  lemma InstalledIsCalm(s: State, terms: Grant)
    requires Closed(s)
    ensures Calm(s, Installed(s, terms))
  {
  }

  lemma EpochIsCalm(s: State, g: GrantId, epoch: Option<nat>)
    requires Closed(s) && g < |s.grants|
    ensures Calm(s, WithGrant(s, g, s.grants[g].(epoch := epoch)))
  {
  }

  lemma CalmComposes(s: State, r: State, q: State)
    requires Calm(s, r) && Calm(r, q)
    ensures Calm(s, q)
  {
    hide Closed;
    forall g | 0 <= g < |s.grants|
      ensures q.grants[g].initial == s.grants[g].initial && q.grants[g].remaining == s.grants[g].remaining
      ensures q.grants[g].approved <= s.grants[g].approved
    {
      assert r.grants[g].approved <= s.grants[g].approved;
    }
  }

  lemma PointStaysClosed(s: State, r: State, p: Point)
    requires PointClosed(s, p) && |s.grants| <= |r.grants| && |s.promises| <= |r.promises|
    ensures PointClosed(r, p)
  {
  }

  /** A calm change keeps the invariant. */
  lemma CalmKeepsInvariant(y: System, r: State)
    requires Invariant(y) && Calm(y.s, r)
    ensures Invariant(y.(s := r))
  {
    var z := y.(s := r);
    hide Closed;
    forall g | 0 <= g < |r.grants|
      ensures BudgetKept(z, g)
    {
      assert ChargedTo(z, g) == ChargedTo(y, g);
      if g < |y.s.grants| {
        assert BudgetKept(y, g);
      } else {
        assert ChargedTo(y, g) == {};
      }
    }
    forall x
      ensures ApprovalsKept(z, x)
    {
      assert ApprovalsKept(y, x);
      assert ChargedFor(z, x) == ChargedFor(y, x);
    }
    forall c | 0 <= c < |z.calls|
      ensures PointClosed(r, z.calls[c]) && CallKept(z, c)
    {
      PointStaysClosed(y.s, r, z.calls[c]);
      assert CallKept(y, c) && PointClosed(y.s, z.calls[c]);
    }
  }

  // Charging.

  /** What a charge does to the state, beyond calm changes. */
  lemma ChargeSpends(s: State, g: GrantId, a: Approval, alias: Text, now: int)
    requires Closed(s) && g < |s.grants|
    ensures var (r, next) := Charge(s, g, a, alias, now);
            && (next.NotCharged? ==> Calm(s, r))
            && (!next.NotCharged? ==>
                  && a in s.grants[g].approved && s.grants[g].remaining > 0 && IsCurrent(s, g, now)
                  && |r.grants| == |s.grants| && Calm(s, Unpaid(s, r, g))
                  && r.grants[g].remaining == s.grants[g].remaining - 1
                  && r.grants[g].approved == s.grants[g].approved - {a})
  {
    hide OPEN;
    var (r, next) := Charge(s, g, a, alias, now);
    if next.NotCharged? {
      if IsCurrent(s, g, now) && a in s.grants[g].approved {
        var used := WithGrant(s, g, s.grants[g].(approved := s.grants[g].approved - {a}));
        UsedIsCalm(s, g, a);
        RevokedIsCalm(used, {g});
        CalmComposes(s, used, r);
      } else {
        NothingIsCalm(s);
      }
    }
  }

  lemma UsedIsCalm(s: State, g: GrantId, a: Approval)
    requires Closed(s) && g < |s.grants|
    ensures Calm(s, WithGrant(s, g, s.grants[g].(approved := s.grants[g].approved - {a})))
  {
  }

  lemma NothingIsCalm(s: State)
    requires Closed(s)
    ensures Calm(s, s)
  {
  }

  lemma CardinalityGrows(a: set<nat>, b: set<nat>, c: nat)
    requires c !in a && b == a + {c}
    ensures |b| == |a| + 1
  {
  }

  function Unpaid(s: State, r: State, g: GrantId): State
    requires g < |s.grants| <= |r.grants|
  {
    r.(grants := r.grants[g := r.grants[g].(remaining := s.grants[g].remaining)])
  }

  /** The charge of call `c`, as a change of state and of the record of charges. */
  ghost predicate Paid(y: System, c: nat, r: State, g: GrantId, a: Approval) {
    && c < |y.calls| && c !in y.charges && c !in y.acted && g < |y.s.grants| <= |r.grants|
    && IsApproved(y.s, Action(g, a)) && y.s.grants[g].remaining > 0
    && r.grants[g].remaining == y.s.grants[g].remaining - 1 && r.grants[g].approved == y.s.grants[g].approved - {a}
    && Closed(r)
  }

  lemma PaidBudget(y: System, c: nat, r: State, g: GrantId, a: Approval, z: System, h: GrantId)
    requires Paid(y, c, r, g, a) && h < |r.grants|
    requires BudgetKept(y.(s := Unpaid(y.s, r, g)), h)
    requires z.s == r && z.charges == y.charges[c := Action(g, a)]
    ensures BudgetKept(z, h)
  {
    hide Closed;
    var x := y.(s := Unpaid(y.s, r, g));
    if h == g {
      CardinalityGrows(ChargedTo(x, g), ChargedTo(z, g), c);
    } else {
      assert ChargedTo(z, h) == ChargedTo(x, h);
    }
  }

  lemma PaidApprovals(y: System, c: nat, r: State, g: GrantId, a: Approval, z: System, e: Action)
    requires Paid(y, c, r, g, a)
    requires ApprovalsKept(y, e) && ApprovalsKept(y.(s := Unpaid(y.s, r, g)), e)
    requires z.s == r && z.charges == y.charges[c := Action(g, a)] && z.approvals == y.approvals
    ensures ApprovalsKept(z, e)
  {
    hide Closed;
    if e == Action(g, a) {
      CardinalityGrows(ChargedFor(y, e), ChargedFor(z, e), c);
    } else {
      assert ChargedFor(z, e) == ChargedFor(y, e);
    }
  }

  /** A call that is charged keeps the invariant: it pays one unit and uses up one approval. */
  lemma PaidKeepsInvariant(y: System, c: nat, r: State, g: GrantId, a: Approval)
    requires Invariant(y) && Paid(y, c, r, g, a) && Calm(y.s, Unpaid(y.s, r, g))
    ensures Invariant(y.(s := r, calls := y.calls[c := Done], charges := y.charges[c := Action(g, a)]))
  {
    var calm := Unpaid(y.s, r, g);
    CalmKeepsInvariant(y, calm);
    var x := y.(s := calm);
    var z := y.(s := r, calls := y.calls[c := Done], charges := y.charges[c := Action(g, a)]);
    hide Calm, Closed, BudgetKept, ApprovalsKept, PointClosed;
    forall h | 0 <= h < |r.grants|
      ensures BudgetKept(z, h)
    {
      PaidBudget(y, c, r, g, a, z, h);
    }
    forall e
      ensures ApprovalsKept(z, e)
    {
      PaidApprovals(y, c, r, g, a, z, e);
    }
    forall d | 0 <= d < |z.calls|
      ensures PointClosed(r, z.calls[d]) && CallKept(z, d)
    {
      assert d != c ==> CallKept(x, d) && PointClosed(calm, x.calls[d]);
      PaidCall(x, r, z, c, d);
    }
    assert Closed(r);
  }

  lemma PaidCall(x: System, r: State, z: System, c: nat, d: nat)
    requires c < |x.calls| && d < |x.calls| && z.s == r && z.calls == x.calls[c := Done]
    requires z.charges.Keys == x.charges.Keys + {c} && z.acted == x.acted
    requires forall e | e in x.charges && e != c :: z.charges[e] == x.charges[e]
    requires |r.grants| == |x.s.grants| && r.promises == x.s.promises
    requires forall g | 0 <= g < |r.grants| :: r.grants[g].pending == x.s.grants[g].pending
    requires d != c ==> CallKept(x, d) && PointClosed(x.s, x.calls[d])
    ensures PointClosed(r, z.calls[d]) && CallKept(z, d)
  {
  }

  /** Moving one call on, where its new point asks for nothing that is not already so. */
  lemma MoveKeepsInvariant(y: System, c: nat, p: Point)
    requires Invariant(y) && c < |y.calls| && PointClosed(y.s, p) && CallKept(y.(calls := y.calls[c := p]), c)
    ensures Invariant(y.(calls := y.calls[c := p]))
  {
    hide Closed, PointClosed;
    var z := y.(calls := y.calls[c := p]);
    forall d | 0 <= d < |z.calls|
      ensures PointClosed(z.s, z.calls[d]) && CallKept(z, d)
    {
      assert CallKept(y, d) && PointClosed(y.s, y.calls[d]);
    }
    forall g | 0 <= g < |z.s.grants|
      ensures BudgetKept(z, g)
    {
      assert BudgetKept(y, g) && ChargedTo(z, g) == ChargedTo(y, g);
    }
    forall x
      ensures ApprovalsKept(z, x)
    {
      assert ApprovalsKept(y, x) && ChargedFor(z, x) == ChargedFor(y, x);
    }
  }

  lemma ActKeepsInvariant(y: System, c: nat)
    requires Invariant(y) && c in y.charges && c < |y.calls| && !y.calls[c].Reading?
    ensures Invariant(y.(acted := y.acted + {c}))
  {
    hide Closed, PointClosed;
    var z := y.(acted := y.acted + {c});
    forall d | 0 <= d < |z.calls|
      ensures CallKept(z, d)
    {
      assert CallKept(y, d);
    }
    forall g | 0 <= g < |z.s.grants|
      ensures BudgetKept(z, g)
    {
      assert BudgetKept(y, g) && ChargedTo(z, g) == ChargedTo(y, g);
    }
    forall x
      ensures ApprovalsKept(z, x)
    {
      assert ApprovalsKept(y, x) && ChargedFor(z, x) == ChargedFor(y, x);
    }
  }

  lemma ChargeKeepsInvariant(y: System, c: nat, g: GrantId, a: Approval, alias: Text)
    requires Invariant(y) && c < |y.calls| && c !in y.charges && g < |y.s.grants|
    ensures Invariant(ChargeCall(y, c, y.s, g, a, alias))
  {
    var (r, next) := Charge(y.s, g, a, alias, y.clock);
    ChargeSpends(y.s, g, a, alias, y.clock);
    var z := ChargeCall(y, c, y.s, g, a, alias);
    if next.NotCharged? {
      hide Invariant, Charge, Calm;
      CalmKeepsInvariant(y, r);
      MoveKeepsInvariant(y.(s := r), c, Done);
      assert z == y.(s := r).(calls := y.calls[c := Done]);
    } else {
      ChargedIsClosed(y.s, g, a, alias, y.clock);
      hide Invariant, Charge, Calm, Closed;
      assert c !in y.acted by { ActedIsCharged(y); }
      var x := y.(s := r, calls := y.calls[c := Done], charges := y.charges[c := Action(g, a)]);
      PaidKeepsInvariant(y, c, r, g, a);
      if next.ChargedOpening? {
        ActKeepsInvariant(x, c);
      }
      var acted := if next.ChargedOpening? then x.acted + {c} else x.acted;
      var p := z.calls[c];
      MoveKeepsInvariant(x.(acted := acted), c, p);
      assert z == x.(acted := acted).(calls := x.calls[c := p]);
    }
  }

  lemma ActedIsCharged(y: System)
    requires Invariant(y)
    ensures y.acted <= y.charges.Keys
  {
  }

  lemma ChargedIsClosed(s: State, g: GrantId, a: Approval, alias: Text, now: int)
    requires Closed(s) && g < |s.grants|
    ensures Closed(Charge(s, g, a, alias, now).0) && |Charge(s, g, a, alias, now).0.grants| == |s.grants|
  {
    hide OPEN;
    RevokedIsCalm(s, {g});
    RevokedIsCalm(WithGrant(s, g, s.grants[g].(approved := s.grants[g].approved - {a})), {g});
  }

  // Approvals.

  function CountApproval(y: System, x: Action): System {
    y.(approvals := y.approvals[x := Approvals(y, x) + 1])
  }

  lemma ApprovedKeepsInvariant(y: System, g: GrantId, a: Approval, status: Status)
    requires Invariant(y) && g < |y.s.grants|
    ensures Invariant(CountApproval(y.(s := WithGrant(y.s, g,
            y.s.grants[g].(approved := y.s.grants[g].approved + {a}, status := status))), Action(g, a)))
  {
    var x := Action(g, a);
    var r := WithGrant(y.s, g, y.s.grants[g].(approved := y.s.grants[g].approved + {a}, status := status));
    var z := CountApproval(y.(s := r), x);
    assert Closed(r);
    hide Closed;
    forall h | 0 <= h < |r.grants|
      ensures BudgetKept(z, h)
    {
      assert BudgetKept(y, h) && ChargedTo(z, h) == ChargedTo(y, h);
    }
    forall e
      ensures ApprovalsKept(z, e)
    {
      assert ApprovalsKept(y, e) && ChargedFor(z, e) == ChargedFor(y, e);
    }
    forall c | 0 <= c < |z.calls|
      ensures PointClosed(r, z.calls[c]) && CallKept(z, c)
    {
      PointStaysClosed(y.s, r, z.calls[c]);
      assert CallKept(y, c) && PointClosed(y.s, z.calls[c]);
    }
  }

  lemma ApproveIsStep(s: State, g: GrantId, a: Approval, generation: nat, workspace: Text)
    requires Closed(s) && g < |s.grants| && !Approve(s, g, a, generation, workspace).1.Mismatch?
    ensures var grant := s.grants[g];
            var approved := WithGrant(s, g,
                grant.(approved := grant.approved + {a}, status := if grant.status.Dormant? then Active
                    else grant.status));
            var (r, next) := Approve(s, g, a, generation, workspace);
            r == if next.Claim? then approved else Released(approved, g, a)
  {
    hide OPEN, HexDigest, Released, RevokedGrants;
  }

  lemma ResumeApproving(y: System, c: nat, g: GrantId, a: Approval, generation: nat, workspace: Text)
    requires Invariant(y) && c < |y.calls| && g < |y.s.grants| && y.calls[c] == Approving(g, a, generation, workspace)
    ensures Invariant(Resumed(y, c, None, false))
  {
    var (r, next) := Approve(y.s, g, a, generation, workspace);
    var z := Resumed(y, c, None, false);
    var grant := y.s.grants[g];
    if next.Mismatch? {
      assert r == RevokedGrants(y.s, {g});
      RevokedIsCalm(y.s, {g});
      hide Invariant, Approve, Calm, Closed, RevokedGrants;
      CalmKeepsInvariant(y, r);
      MoveKeepsInvariant(y.(s := r), c, Done);
      assert z == y.(s := r).(calls := y.calls[c := Done]);
    } else {
      var status := if grant.status.Dormant? then Active else grant.status;
      ApproveIsStep(y.s, g, a, generation, workspace);
      ApprovedKeepsInvariant(y, g, a, status);
      var approved := WithGrant(y.s, g, grant.(approved := grant.approved + {a}, status := status));
      var x := CountApproval(y.(s := approved), Action(g, a));
      ReleasedIsCalm(approved, g, a);
      hide Invariant, Approve, Calm, Closed, Released, Approvals;
      if !next.Claim? {
        CalmKeepsInvariant(x, r);
      }
      var p := if next.Claim? then Claiming(g, a) else Done;
      assert x.(s := approved) == x;
      MoveKeepsInvariant(x.(s := r), c, p);
      assert z == x.(s := r).(calls := x.calls[c := p]);
    }
  }

  // Waiting.

  lemma RequestedIsCalm(s: State, g: GrantId, a: Approval, generation: nat)
    requires Closed(s) && g < |s.grants|
    ensures var (r, next) := Requested(s, g, a, generation);
            && Calm(s, r) && (next.Wait? ==> next.ticket < |r.promises| && Awaited(r, g, a, next.ticket))
            && (next.Proceed? || next.Refused? ==> r == s)
  {
  }

  lemma ResumeRequesting(y: System, c: nat, g: GrantId, a: Approval, generation: nat, alias: Text)
    requires Invariant(y) && c < |y.calls| && g < |y.s.grants| && y.calls[c] == Requesting(g, a, generation, alias)
    ensures Invariant(Resumed(y, c, None, false))
  {
    var (r, next) := Requested(y.s, g, a, generation);
    var z := Resumed(y, c, None, false);
    assert c !in y.charges by { assert CallKept(y, c); }
    RequestedIsCalm(y.s, g, a, generation);
    hide Invariant, Requested, Calm, Closed, ChargeCall;
    if next.Proceed? {
      ChargeKeepsInvariant(y, c, g, a, alias);
    } else {
      CalmKeepsInvariant(y, r);
      var p := if next.Wait? then Waiting(g, a, next.ticket, alias) else Done;
      MoveKeepsInvariant(y.(s := r), c, p);
      assert z == y.(s := r).(calls := y.calls[c := p]);
    }
  }

  lemma ResumeWaiting(y: System, c: nat, g: GrantId, a: Approval, t: Ticket, alias: Text)
    requires Invariant(y) && c < |y.calls| && g < |y.s.grants| && t < |y.s.promises|
    requires y.calls[c] == Waiting(g, a, t, alias)
    ensures Invariant(Resumed(y, c, None, false))
  {
    assert c !in y.charges by { assert CallKept(y, c); }
    hide Invariant, ChargeCall;
    match y.s.promises[t]
    case Unsettled =>
    case Rejected =>
      MoveKeepsInvariant(y, c, Done);
      assert Resumed(y, c, None, false) == y.(calls := y.calls[c := Done]);
    case Resolved => ChargeKeepsInvariant(y, c, g, a, alias);
  }

  // The other points.

  lemma CalmMove(y: System, c: nat, r: State, p: Point)
    requires Invariant(y) && c < |y.calls| && Calm(y.s, r) && PointClosed(r, p)
    requires p.Done? || p.Finishing? || p.Leasing?
    ensures Invariant(Moved(y, c, r, p))
  {
    hide Invariant, Calm;
    CalmKeepsInvariant(y, r);
    MoveKeepsInvariant(y.(s := r), c, p);
    assert Moved(y, c, r, p) == y.(s := r).(calls := y.calls[c := p]);
  }

  lemma LeasedIsCalm(s: State, g: GrantId, lease: Option<nat>, now: int)
    requires Closed(s) && g < |s.grants|
    ensures Calm(s, Leased(s, g, lease, now)) && |Leased(s, g, lease, now).grants| == |s.grants|
  {
    RevokedIsCalm(s, {g});
    EpochIsCalm(s, g, lease);
    hide Calm;
  }

  lemma ClaimedIsCalm(s: State, g: GrantId, a: Approval, lease: Option<nat>, now: int)
    requires Closed(s) && g < |s.grants|
    ensures Calm(s, Claimed(s, g, a, lease, now))
  {
    RevokedIsCalm(s, {g});
    EpochIsCalm(s, g, lease);
    var leased := WithGrant(s, g, s.grants[g].(epoch := lease));
    ReleasedIsCalm(leased, g, a);
    hide Calm, Released;
    CalmComposes(s, leased, Released(leased, g, a));
  }

  lemma FinishedIsCalm(s: State, g: GrantId, lost: bool)
    requires Closed(s) && g < |s.grants|
    ensures Calm(s, Finished(s, g, lost))
  {
    RevokedIsCalm(s, {g});
    NothingIsCalm(s);
  }

  lemma ResumeReading(y: System, c: nat, g: GrantId)
    requires Invariant(y) && c < |y.calls| && y.calls[c] == Reading(g) && g < |y.s.grants|
    ensures Invariant(Resumed(y, c, None, false))
  {
    assert c in y.charges by { assert CallKept(y, c); }
    hide Invariant;
    var x := y.(calls := y.calls[c := Finishing(g)]);
    MoveKeepsInvariant(y, c, Finishing(g));
    ActKeepsInvariant(x, c);
    assert Resumed(y, c, None, false) == if MayAct(y.s, g, y.clock) then x.(acted := x.acted + {c}) else x;
  }

  lemma ResumeKeepsInvariant(y: System, c: nat, lease: Option<nat>, lost: bool)
    requires Invariant(y) && c < |y.calls| && PointClosed(y.s, y.calls[c])
    ensures Invariant(Resumed(y, c, lease, lost))
  {
    assert Closed(y.s);
    hide Invariant, Closed, Calm, ChargeCall, Approve, Requested, RevokedGrants, Released, Installed, IsCurrent;
    hide Finished, Leased, Claimed;
    match y.calls[c]
    case Done =>
    case Installing(terms) => InstalledIsCalm(y.s, terms); CalmMove(y, c, Installed(y.s, terms), Done);
    case Approving(g, a, generation, workspace) => ResumeApproving(y, c, g, a, generation, workspace);
    case Claiming(g, a) => ClaimedIsCalm(y.s, g, a, lease, y.clock);
      CalmMove(y, c, Claimed(y.s, g, a, lease, y.clock), Done);
    case Requesting(g, a, generation, alias) => ResumeRequesting(y, c, g, a, generation, alias);
    case Waiting(g, a, t, alias) => ResumeWaiting(y, c, g, a, t, alias);
    case Reading(g) => ResumeReading(y, c, g);
    case Opening(g) =>
      RevokedIsCalm(y.s, {g});
      NothingIsCalm(y.s);
      if lost || !IsCurrent(y.s, g, y.clock) {
        CalmMove(y, c, RevokedGrants(y.s, {g}), Finishing(g));
      } else {
        CalmMove(y, c, y.s, Leasing(g));
      }
    case Leasing(g) => LeasedIsCalm(y.s, g, lease, y.clock);
      CalmMove(y, c, Leased(y.s, g, lease, y.clock), Finishing(g));
    case Finishing(g) => FinishedIsCalm(y.s, g, lost); CalmMove(y, c, Finished(y.s, g, lost), Done);
  }

  lemma StartKeepsInvariant(y: System, r: State, p: Point)
    requires Invariant(y) && Calm(y.s, r) && PointClosed(r, p) && !p.Waiting? && !p.Reading?
    ensures Invariant(Started(y, r, p))
  {
    CalmKeepsInvariant(y, r);
    var x, z := y.(s := r), Started(y, r, p);
    hide Calm, Closed, PointClosed;
    forall g | 0 <= g < |r.grants|
      ensures BudgetKept(z, g)
    {
      assert BudgetKept(x, g) && ChargedTo(z, g) == ChargedTo(x, g);
    }
    forall e
      ensures ApprovalsKept(z, e)
    {
      assert ApprovalsKept(x, e) && ChargedFor(z, e) == ChargedFor(x, e);
    }
    forall c | 0 <= c < |z.calls|
      ensures PointClosed(r, z.calls[c]) && CallKept(z, c)
    {
      assert c < |x.calls| ==> CallKept(x, c) && PointClosed(r, x.calls[c]);
    }
  }

  lemma FoundIsCalm(s: State, key: Key, now: int)
    requires Closed(s)
    ensures var (r, g) := Found(s, key, now); Calm(s, r) && (g.Some? ==> g.value < |r.grants|)
  {
    NothingIsCalm(s);
    if key in s.current {
      RevokedIsCalm(s, {s.current[key]});
    }
  }

  lemma PreparedIsCalm(s: State, terms: Grant)
    requires Closed(s)
    ensures Calm(s, Prepared(s, terms).0)
  {
    NothingIsCalm(s);
    InstalledIsCalm(s, terms);
    if terms.key in s.current {
      RevokedIsCalm(s, {s.current[terms.key]});
    }
    hide Calm, Conflict;
  }

  /** Every step of every call, and every revocation, keeps the invariant. */
  lemma ApplyKeepsInvariant(y: System, e: Event)
    requires Invariant(y)
    ensures Invariant(Apply(y, e))
  {
    assert Closed(y.s) && forall c | 0 <= c < |y.calls| :: PointClosed(y.s, y.calls[c]);
    hide Invariant, Closed, Calm, Resumed, RevokedGrants, InConversation, Found, Prepared, PointClosed;
    match e
    case StartPrepare(terms) =>
      PreparedIsCalm(y.s, terms);
      StartAnywhere(y, Prepared(y.s, terms).0, Installing(terms));
    case StartActivate(key, a, generation, workspace) =>
      FoundIsCalm(y.s, key, y.clock);
      var (s, g) := Found(y.s, key, y.clock);
      StartAnywhere(y, s, if g.Some? then Approving(g.value, a, generation, workspace) else Done);
    case StartExecute(key, a, generation, alias) =>
      FoundIsCalm(y.s, key, y.clock);
      var (s, g) := Found(y.s, key, y.clock);
      StartAnywhere(y, s, if g.Some? then Requesting(g.value, a, generation, alias) else Done);
    case Resume(c, lease, lost) =>
      if c < |y.calls| {
        ResumeKeepsInvariant(y, c, lease, lost);
      }
    case RevokeGrant(g) =>
      RevokedIsCalm(y.s, {g});
      CalmKeepsInvariant(y, RevokedGrants(y.s, {g}));
    case RevokeWhere(conversation) =>
      RevokedIsCalm(y.s, InConversation(y.s, conversation));
      CalmKeepsInvariant(y, RevokedGrants(y.s, InConversation(y.s, conversation)));
    case RevokeAll =>
      RevokedIsCalm(y.s, y.s.current.Values);
      CalmKeepsInvariant(y, RevokedGrants(y.s, y.s.current.Values));
    case Tick(duration) => TickKeepsInvariant(y, duration);
  }

  lemma StartAnywhere(y: System, r: State, p: Point)
    requires Invariant(y) && Calm(y.s, r)
    requires p.Done? || p.Installing? || ((p.Approving? || p.Requesting?) && p.grant < |r.grants|)
    ensures Invariant(Started(y, r, p)) && Invariant(Started(y, r, Done))
  {
    StartKeepsInvariant(y, r, p);
    StartKeepsInvariant(y, r, Done);
  }

  lemma TickKeepsInvariant(y: System, duration: nat)
    requires Invariant(y)
    ensures Invariant(y.(clock := y.clock + duration))
  {
    var z := y.(clock := y.clock + duration);
    hide Closed, PointClosed;
    forall g | 0 <= g < |z.s.grants|
      ensures BudgetKept(z, g)
    {
      assert BudgetKept(y, g) && ChargedTo(z, g) == ChargedTo(y, g);
    }
    forall x
      ensures ApprovalsKept(z, x)
    {
      assert ApprovalsKept(y, x) && ChargedFor(z, x) == ChargedFor(y, x);
    }
    forall c | 0 <= c < |z.calls|
      ensures CallKept(z, c)
    {
      assert CallKept(y, c);
    }
  }

  // Runs and main results.

  ghost function Continue(y: System, events: seq<Event>): (z: System)
    requires Invariant(y)
    ensures Invariant(z)
    decreases |events|
  {
    if events == [] then y
    else
      ApplyKeepsInvariant(y, events[0]);
      Continue(Apply(y, events[0]), events[1..])
  }

  ghost function Run(events: seq<Event>): (y: System)
    ensures Invariant(y)
  {
    Continue(INITIAL, events)
  }

  function AtLeastZero(n: int): nat {
    if n < 0 then 0 else n
  }

  /**
   In every run, what is left of a grant's budget is its initial budget less the calls
   charged to it, which never exceed it; an operation is charged at most as often as it
   was approved; and only charged calls put an action to the broker.
   */
  lemma ActionsAreBounded(events: seq<Event>)
    ensures var y := Run(events);
            && (forall g | 0 <= g < |y.s.grants| ::
                  && y.s.grants[g].remaining == y.s.grants[g].initial - |ChargedTo(y, g)|
                  && |ChargedTo(y, g)| <= AtLeastZero(y.s.grants[g].initial))
            && (forall x :: |ChargedFor(y, x)| <= Approvals(y, x))
            && y.acted <= y.charges.Keys
  {
    var y := Run(events);
    forall g | 0 <= g < |y.s.grants|
      ensures y.s.grants[g].remaining == y.s.grants[g].initial - |ChargedTo(y, g)|
      ensures |ChargedTo(y, g)| <= AtLeastZero(y.s.grants[g].initial)
    {
      assert BudgetKept(y, g);
    }
    forall x
      ensures |ChargedFor(y, x)| <= Approvals(y, x)
    {
      assert ApprovalsKept(y, x);
    }
  }

  /** One approval lets one call through, however many wait for it. */
  lemma OneApprovalOneCall(events: seq<Event>, x: Action, c: nat, d: nat)
    requires var y := Run(events); Approvals(y, x) <= 1 && c in ChargedFor(y, x) && d in ChargedFor(y, x)
    ensures c == d
  {
    var y := Run(events);
    assert ApprovalsKept(y, x);
    if c != d {
      var both: set<nat> := {c, d};
      assert both <= ChargedFor(y, x);
      SubsetIsSmaller(both, ChargedFor(y, x));
    }
  }

  /**
   While a call waits, its entry is with its grant: releasing that entry or revoking that
   grant lets it go. Which events do so, and when, is the subject of BrowserAuthorityWaiting.
   */
  lemma WaitingCallsWake(events: seq<Event>, c: nat, g: GrantId, a: Approval, t: Ticket, alias: Text)
    requires var y := Run(events); c < |y.calls| && y.calls[c] == Waiting(g, a, t, alias) && y.s.promises[t].Unsettled?
    ensures var s := Run(events).s;
            && g < |s.grants| && Released(s, g, a).promises[t].Resolved? && RevokedGrants(s, {g}).promises[t].Rejected?
  {
    var y := Run(events);
    assert CallKept(y, c) && PointClosed(y.s, y.calls[c]);
    assert t in Tickets(y.s, {g});
  }

  function ActedFor(y: System, g: GrantId): set<nat> {
    set c | c in y.charges && y.charges[c].grant == g && c in y.acted
  }

  lemma ChargeAfterRevocation(s: State, h: GrantId, a: Approval, alias: Text, now: int, g: GrantId)
    requires h < |s.grants| && g < |s.grants| && s.grants[g].status.Revoked?
    ensures var (r, next) := Charge(s, h, a, alias, now);
            && |r.grants| == |s.grants| && r.grants[g].status.Revoked? && (!next.NotCharged? ==> h != g)
  {
    hide OPEN;
  }

  lemma ChargeCallAfterRevocation(y: System, c: nat, h: GrantId, a: Approval, alias: Text, g: GrantId)
    requires Invariant(y) && c < |y.calls| && c !in y.charges && h < |y.s.grants| && g < |y.s.grants|
    requires y.s.grants[g].status.Revoked?
    ensures var z := ChargeCall(y, c, y.s, h, a, alias);
            && g < |z.s.grants| && z.s.grants[g].status.Revoked? && ChargedTo(z, g) == ChargedTo(y, g)
            && ActedFor(z, g) == ActedFor(y, g)
  {
    ChargeAfterRevocation(y.s, h, a, alias, y.clock, g);
    ActedIsCharged(y);
    hide Invariant, Charge;
  }

  predicate StaysRevoked(s: State, r: State, g: GrantId) {
    g < |s.grants| && s.grants[g].status.Revoked? ==> g < |r.grants| && r.grants[g].status.Revoked?
  }

  lemma SegmentsKeepRevoked(s: State, h: GrantId, a: Approval, generation: nat, workspace: Text, lease: Option<nat>,
      lost: bool, now: int, g: GrantId)
    requires h < |s.grants|
    ensures StaysRevoked(s, Approve(s, h, a, generation, workspace).0, g)
    ensures StaysRevoked(s, Claimed(s, h, a, lease, now), g)
    ensures StaysRevoked(s, Requested(s, h, a, generation).0, g)
    ensures StaysRevoked(s, Leased(s, h, lease, now), g)
    ensures StaysRevoked(s, Finished(s, h, lost), g)
    ensures StaysRevoked(s, RevokedGrants(s, {h}), g)
  {
    hide OPEN, HexDigest;
  }

  lemma FrozenByFrame(y: System, z: System, g: GrantId)
    requires g < |y.s.grants| && y.s.grants[g].status.Revoked? && StaysRevoked(y.s, z.s, g)
    requires z.charges == y.charges && z.acted == y.acted
    ensures Frozen(y, z, g)
  {
  }

  /** What revocation froze stays as it was. */
  predicate Frozen(y: System, z: System, g: GrantId) {
    g < |z.s.grants| && z.s.grants[g].status.Revoked? && ChargedTo(z, g) == ChargedTo(y, g)
        && ActedFor(z, g) == ActedFor(y, g)
  }

  predicate Charging(p: Point) {
    p.Requesting? || p.Waiting? || p.Reading?
  }

  lemma QuietFrame(y: System, c: nat, lease: Option<nat>, lost: bool)
    requires c < |y.calls| && PointClosed(y.s, y.calls[c]) && !Charging(y.calls[c])
    ensures Resumed(y, c, lease, lost).charges == y.charges && Resumed(y, c, lease, lost).acted == y.acted
  {
    hide Approve, Claimed, Leased, Finished, RevokedGrants, Installed, IsCurrent;
  }

  lemma QuietStays(y: System, c: nat, lease: Option<nat>, lost: bool, g: GrantId)
    requires c < |y.calls| && PointClosed(y.s, y.calls[c]) && !Charging(y.calls[c])
    ensures StaysRevoked(y.s, Resumed(y, c, lease, lost).s, g)
  {
    hide Approve, Claimed, Leased, Finished, RevokedGrants, IsCurrent, Approvals, Requested;
    var p := y.calls[c];
    if p.Approving? {
      SegmentsKeepRevoked(y.s, p.grant, p.approval, p.generation, p.workspace, lease, lost, y.clock, g);
    } else if p.Claiming? {
      SegmentsKeepRevoked(y.s, p.grant, p.approval, 0, [], lease, lost, y.clock, g);
    } else if p.Opening? || p.Leasing? || p.Finishing? {
      SegmentsKeepRevoked(y.s, p.grant, Approval([], []), 0, [], lease, lost, y.clock, g);
    }
  }

  lemma ResumeAfterRevocation(y: System, c: nat, lease: Option<nat>, lost: bool, g: GrantId)
    requires Invariant(y) && c < |y.calls| && PointClosed(y.s, y.calls[c]) && g < |y.s.grants|
    requires y.s.grants[g].status.Revoked?
    ensures Frozen(y, Resumed(y, c, lease, lost), g)
  {
    assert CallKept(y, c);
    hide Invariant, Resumed, StaysRevoked, Frozen;
    var p := y.calls[c];
    if p.Requesting? {
      RequestingAfterRevocation(y, c, p.grant, p.approval, p.generation, p.alias, lease, lost, g);
    } else if p.Waiting? {
      WaitingAfterRevocation(y, c, p.grant, p.approval, p.ticket, p.alias, lease, lost, g);
    } else if p.Reading? {
      ReadingAfterRevocation(y, c, p.grant, lease, lost, g);
    } else {
      QuietFrame(y, c, lease, lost);
      QuietStays(y, c, lease, lost, g);
      FrozenByFrame(y, Resumed(y, c, lease, lost), g);
    }
  }

  lemma RequestingAfterRevocation(y: System, c: nat, h: GrantId, a: Approval, generation: nat, alias: Text,
      lease: Option<nat>, lost: bool, g: GrantId)
    requires Invariant(y) && c < |y.calls| && y.calls[c] == Requesting(h, a, generation, alias) && h < |y.s.grants|
    requires g < |y.s.grants| && y.s.grants[g].status.Revoked?
    ensures Frozen(y, Resumed(y, c, lease, lost), g)
  {
    assert CallKept(y, c);
    hide Invariant, ChargeCall, ChargedTo, ActedFor, Requested, Closed;
    SegmentsKeepRevoked(y.s, h, a, generation, [], lease, lost, y.clock, g);
    if Requested(y.s, h, a, generation).1.Proceed? {
      ProceedChangesNothing(y.s, h, a, generation);
      ChargeCallAfterRevocation(y, c, h, a, alias, g);
    } else {
      FrozenByFrame(y, Resumed(y, c, lease, lost), g);
    }
  }

  lemma WaitingAfterRevocation(y: System, c: nat, h: GrantId, a: Approval, t: Ticket, alias: Text, lease: Option<nat>,
      lost: bool, g: GrantId)
    requires Invariant(y) && c < |y.calls| && y.calls[c] == Waiting(h, a, t, alias) && h < |y.s.grants|
    requires t < |y.s.promises|
    requires g < |y.s.grants| && y.s.grants[g].status.Revoked?
    ensures Frozen(y, Resumed(y, c, lease, lost), g)
  {
    assert CallKept(y, c);
    hide Invariant, ChargeCall, ChargedTo, ActedFor, Closed;
    if y.s.promises[t].Resolved? {
      ChargeCallAfterRevocation(y, c, h, a, alias, g);
    } else {
      FrozenByFrame(y, Resumed(y, c, lease, lost), g);
    }
  }

  lemma ProceedChangesNothing(s: State, g: GrantId, a: Approval, generation: nat)
    requires g < |s.grants| && Requested(s, g, a, generation).1.Proceed?
    ensures Requested(s, g, a, generation).0 == s
  {
  }

  lemma ReadingAfterRevocation(y: System, c: nat, h: GrantId, lease: Option<nat>, lost: bool, g: GrantId)
    requires c < |y.calls| && y.calls[c] == Reading(h) && h < |y.s.grants| && CallKept(y, c)
    requires g < |y.s.grants| && y.s.grants[g].status.Revoked?
    ensures Frozen(y, Resumed(y, c, lease, lost), g)
  {
  }

  lemma StepAfterRevocation(y: System, e: Event, g: GrantId)
    requires Invariant(y) && g < |y.s.grants| && y.s.grants[g].status.Revoked?
    ensures Frozen(y, Apply(y, e), g)
  {
    assert forall c | 0 <= c < |y.calls| :: PointClosed(y.s, y.calls[c]);
    if e.Resume? && e.call < |y.calls| {
      ResumeAfterRevocation(y, e.call, e.lease, e.lost, g);
    }
    hide Resumed, Conflict, ChargedTo, ActedFor;
    if !e.Resume? || e.call >= |y.calls| {
      FrozenByFrame(y, Apply(y, e), g);
    }
  }

  /** A revoked grant is never charged again, and none of its calls acts, whatever is still running. */
  lemma {:induction false} RevokedGrantNeverActs(y: System, after: seq<Event>, g: GrantId)
    requires Invariant(y) && g < |y.s.grants| && y.s.grants[g].status.Revoked?
    ensures Frozen(y, Continue(y, after), g)
    decreases |after|
  {
    hide Apply, ChargedTo, ActedFor, Closed, BudgetKept, ApprovalsKept, CallKept;
    if after != [] {
      StepAfterRevocation(y, after[0], g);
      ApplyKeepsInvariant(y, after[0]);
      RevokedGrantNeverActs(Apply(y, after[0]), after[1..], g);
    }
  }

  /**
   An approval of a live grant with budget left lets the operation through: the promise settles
   and one unit is paid.
   */
  lemma ApprovedOperationIsCharged(s: State, g: GrantId, a: Approval, alias: Text, now: int)
    requires Closed(s) && IsCurrent(s, g, now) && s.grants[g].remaining > 0
    requires a.tool in s.grants[g].operations && HexDigest(a.digest)
    requires a.tool == OPEN && s.grants[g].target.Some? ==> s.grants[g].target.value == alias
    ensures var (approved, next) := Approve(s, g, a, s.grants[g].generation, s.grants[g].workspace);
            var (charged, step) := Charge(approved, g, a, alias, now);
            && next.Activated?
            && (a in s.grants[g].pending ==> approved.promises[s.grants[g].pending[a]].Resolved?)
            && step == (if a.tool == OPEN then ChargedOpening else ChargedReading)
            && charged.grants[g].remaining == s.grants[g].remaining - 1
            && Charge(charged, g, a, alias, now) == (charged, NotCharged)
  {
    hide OPEN, HexDigest;
  }
}
