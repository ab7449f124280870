/**
 Which events wake a call that waits for an approval. Approvals and most revocations go
 through the table of grants, so they reach the call exactly while its grant is in the table.
 */
module BrowserAuthorityWaiting {
  import opened CanonicalJson
  import opened Planner
  import opened BrowserAuthority
  import opened BrowserAuthorityRuns

  predicate InTable(s: State, g: GrantId) {
    g < |s.grants| && s.grants[g].key in s.current && s.current[s.grants[g].key] == g
  }

  // The table and the tickets stay in order.

  /** The table holds grants under their own keys, none of them revoked. */
  predicate TableKept(s: State) {
    forall k | k in s.current :: var g := s.current[k];
        g < |s.grants| && s.grants[g].key == k && !s.grants[g].status.Revoked?
  }

  /** No ticket belongs to two entries. */
  predicate TicketsApart(s: State) {
    forall g, h, a, b | 0 <= g < |s.grants| && 0 <= h < |s.grants| && a in s.grants[g].pending
        && b in s.grants[h].pending ::
      s.grants[g].pending[a] == s.grants[h].pending[b] ==> g == h && a == b
  }

  predicate Orderly(s: State) {
    TableKept(s) && TicketsApart(s)
  }

  lemma RevokedStaysOrderly(s: State, ids: set<GrantId>)
    requires Closed(s) && Orderly(s)
    ensures Orderly(RevokedGrants(s, ids)) && Closed(RevokedGrants(s, ids))
  {
    var r := RevokedGrants(s, ids);
    forall k | k in r.current
      ensures r.current[k] !in ids && s.grants[s.current[k]].key == k
    {
      assert s.grants[s.current[k]].key == k && k !in Keys(s, ids);
    }
    assert forall g, a | 0 <= g < |r.grants| && a in r.grants[g].pending ::
        a in s.grants[g].pending && r.grants[g].pending[a] == s.grants[g].pending[a];
  }

  /** A grant replaced by one with the same key, no more pending entries, and not newly revoked. */
  lemma ChangedStaysOrderly(s: State, g: GrantId, grant: Grant)
    requires Closed(s) && Orderly(s) && g < |s.grants|
    requires grant.key == s.grants[g].key && (grant.status.Revoked? ==> s.grants[g].status.Revoked?)
    requires forall a | a in grant.pending :: a in s.grants[g].pending && grant.pending[a] == s.grants[g].pending[a]
    ensures Orderly(WithGrant(s, g, grant)) && Closed(WithGrant(s, g, grant))
  {
  }

  lemma SettledStaysOrderly(s: State, tickets: set<Ticket>, outcome: Promise)
    requires Closed(s) && Orderly(s)
    ensures Orderly(s.(promises := Settled(s.promises, tickets, outcome)))
    ensures Closed(s.(promises := Settled(s.promises, tickets, outcome)))
  {
  }

  lemma ReleasedStaysOrderly(s: State, g: GrantId, a: Approval)
    requires Closed(s) && Orderly(s) && g < |s.grants|
    ensures Orderly(Released(s, g, a)) && Closed(Released(s, g, a))
  {
    var grant := s.grants[g];
    if a in grant.pending {
      var changed := grant.(pending := grant.pending - {a});
      ChangedStaysOrderly(s, g, changed);
      SettledStaysOrderly(WithGrant(s, g, changed), {grant.pending[a]}, Resolved);
    }
  }

  lemma InstalledStaysOrderly(s: State, terms: Grant)
    requires Closed(s) && Orderly(s)
    ensures Orderly(Installed(s, terms)) && Closed(Installed(s, terms))
  {
  }

  lemma RequestedStaysOrderly(s: State, g: GrantId, a: Approval, generation: nat)
    requires Closed(s) && Orderly(s) && g < |s.grants|
    ensures Orderly(Requested(s, g, a, generation).0) && Closed(Requested(s, g, a, generation).0)
  {
    var r := Requested(s, g, a, generation).0;
    if r != s {
      NewTicketStaysOrderly(s, g, a);
    }
  }

  lemma NewTicketStaysOrderly(s: State, g: GrantId, a: Approval)
    requires Closed(s) && Orderly(s) && g < |s.grants| && a !in s.grants[g].pending
    ensures var grant := s.grants[g];
            var r := WithGrant(s, g, grant.(pending := grant.pending[a := |s.promises|])).(promises := s.promises
                + [Unsettled]);
            Orderly(r) && Closed(r)
  {
    var grant, n := s.grants[g], |s.promises|;
    var r := WithGrant(s, g, grant.(pending := grant.pending[a := n])).(promises := s.promises + [Unsettled]);
    assert TableKept(r);
    hide TableKept;
    forall h, b | 0 <= h < |r.grants| && b in r.grants[h].pending
      ensures if h == g && b == a then r.grants[h].pending[b] == n
              else b in s.grants[h].pending && r.grants[h].pending[b] == s.grants[h].pending[b] < n
    {
    }
  }

  lemma ApproveStaysOrderly(s: State, g: GrantId, a: Approval, generation: nat, workspace: Text)
    requires Closed(s) && Orderly(s) && g < |s.grants|
    ensures Orderly(Approve(s, g, a, generation, workspace).0)
  {
    hide Orderly, Closed, OPEN, HexDigest, RevokedGrants, Released;
    var grant := s.grants[g];
    RevokedStaysOrderly(s, {g});
    var approved := grant.(approved := grant.approved + {a});
    var active := approved.(status := Active);
    ChangedStaysOrderly(s, g, approved);
    ChangedStaysOrderly(s, g, active);
    ReleasedStaysOrderly(WithGrant(s, g, approved), g, a);
    ReleasedStaysOrderly(WithGrant(s, g, active), g, a);
  }

  lemma LeaseStaysOrderly(s: State, g: GrantId, a: Approval, lease: Option<nat>, lost: bool, now: int)
    requires Closed(s) && Orderly(s) && g < |s.grants|
    ensures Orderly(Claimed(s, g, a, lease, now)) && Orderly(Leased(s, g, lease, now)) && Orderly(Finished(s, g, lost))
  {
    hide Orderly, Closed, RevokedGrants, Released, IsCurrent;
    RevokedStaysOrderly(s, {g});
    var grant := s.grants[g].(epoch := lease);
    ChangedStaysOrderly(s, g, grant);
    ReleasedStaysOrderly(WithGrant(s, g, grant), g, a);
  }

  lemma ChargeStaysOrderly(s: State, g: GrantId, a: Approval, alias: Text, now: int)
    requires Closed(s) && Orderly(s) && g < |s.grants|
    ensures Orderly(Charge(s, g, a, alias, now).0)
  {
    hide Orderly, Closed, OPEN, RevokedGrants, IsCurrent;
    var grant := s.grants[g];
    var used := grant.(approved := grant.approved - {a});
    var paid := used.(remaining := grant.remaining - 1);
    ChangedStaysOrderly(s, g, used);
    ChangedStaysOrderly(s, g, paid);
    ChangedStaysOrderly(s, g, paid.(target := Some(alias)));
    RevokedStaysOrderly(WithGrant(s, g, used), {g});
  }

  lemma ResumedStaysOrderly(y: System, c: nat, lease: Option<nat>, lost: bool)
    requires c < |y.calls| && PointClosed(y.s, y.calls[c]) && Closed(y.s) && Orderly(y.s)
    ensures Orderly(Resumed(y, c, lease, lost).s)
  {
    hide Orderly, Closed, RevokedGrants, Installed, Approve, Claimed, Requested, Charge, Leased, Finished, Approvals;
    match y.calls[c]
    case Done =>
    case Installing(terms) => InstalledStaysOrderly(y.s, terms);
    case Approving(g, a, generation, workspace) => ApproveStaysOrderly(y.s, g, a, generation, workspace);
    case Claiming(g, a) => LeaseStaysOrderly(y.s, g, a, lease, lost, y.clock);
    case Requesting(g, a, generation, alias) =>
      RequestedStaysOrderly(y.s, g, a, generation);
      if Requested(y.s, g, a, generation).1.Proceed? {
        ProceedChangesNothing(y.s, g, a, generation);
      }
      ChargeStaysOrderly(y.s, g, a, alias, y.clock);
    case Waiting(g, a, t, alias) => ChargeStaysOrderly(y.s, g, a, alias, y.clock);
    case Reading(g) =>
    case Opening(g) => RevokedStaysOrderly(y.s, {g});
    case Leasing(g) => LeaseStaysOrderly(y.s, g, Approval([], []), lease, lost, y.clock);
    case Finishing(g) => LeaseStaysOrderly(y.s, g, Approval([], []), lease, lost, y.clock);
  }

  lemma ApplyStaysOrderly(y: System, e: Event)
    requires WellFormedSystem(y) && Orderly(y.s)
    ensures Orderly(Apply(y, e).s)
  {
    hide Orderly, Closed, RevokedGrants, Installed, Resumed, Conflict;
    match e
    case StartPrepare(terms) =>
      InstalledStaysOrderly(y.s, terms);
      if terms.key in y.s.current {
        RevokedStaysOrderly(y.s, {y.s.current[terms.key]});
      }
    case StartActivate(key, _, _, _) => FoundStaysOrderly(y.s, key, y.clock);
    case StartExecute(key, _, _, _) => FoundStaysOrderly(y.s, key, y.clock);
    case Resume(c, lease, lost) =>
      if c < |y.calls| {
        ResumedStaysOrderly(y, c, lease, lost);
      }
    case RevokeGrant(g) => RevokedStaysOrderly(y.s, {g});
    case RevokeWhere(conversation) => RevokedStaysOrderly(y.s, InConversation(y.s, conversation));
    case RevokeAll => RevokedStaysOrderly(y.s, y.s.current.Values);
    case Tick(_) =>
  }

  lemma FoundStaysOrderly(s: State, key: Key, now: int)
    requires Closed(s) && Orderly(s)
    ensures Orderly(Found(s, key, now).0)
  {
    hide Orderly, RevokedGrants;
    if key in s.current {
      RevokedStaysOrderly(s, {s.current[key]});
    }
  }

  lemma {:induction false} ContinueStaysOrderly(y: System, events: seq<Event>)
    requires Invariant(y) && Orderly(y.s)
    ensures Orderly(Continue(y, events).s)
    decreases |events|
  {
    hide Invariant, Orderly, Apply;
    if events != [] {
      assert WellFormedSystem(y) by { InvariantIsWellFormed(y); }
      ApplyStaysOrderly(y, events[0]);
      ApplyKeepsInvariant(y, events[0]);
      ContinueStaysOrderly(Apply(y, events[0]), events[1..]);
    }
  }

  lemma InvariantIsWellFormed(y: System)
    requires Invariant(y)
    ensures WellFormedSystem(y)
  {
  }

  // A call whose grant has left the table.

  /** An unsettled promise of a grant that is not in the table. */
  ghost predicate Stranded(s: State, g: GrantId, a: Approval, t: Ticket) {
    && g < |s.grants| && (forall k | k in s.current :: s.current[k] != g)
    && t < |s.promises| && s.promises[t].Unsettled? && Awaited(s, g, a, t)
    && forall h, b | 0 <= h < |s.grants| && h != g && b in s.grants[h].pending :: s.grants[h].pending[b] != t
  }

  lemma RevokedStaysStranded(s: State, ids: set<GrantId>, g: GrantId, a: Approval, t: Ticket)
    requires Stranded(s, g, a, t) && g !in ids
    ensures Stranded(RevokedGrants(s, ids), g, a, t)
  {
  }

  /** Other grants may change, as long as they get no entry with this ticket. */
  lemma ChangedStaysStranded(s: State, h: GrantId, grant: Grant, g: GrantId, a: Approval, t: Ticket)
    requires Stranded(s, g, a, t) && h < |s.grants| && h != g && t !in grant.pending.Values
    ensures Stranded(WithGrant(s, h, grant), g, a, t)
  {
  }

  lemma ReleasedStaysStranded(s: State, h: GrantId, b: Approval, g: GrantId, a: Approval, t: Ticket)
    requires Stranded(s, g, a, t) && h < |s.grants| && h != g
    ensures Stranded(Released(s, h, b), g, a, t)
  {
  }

  lemma OthersTickets(s: State, h: GrantId, g: GrantId, a: Approval, t: Ticket)
    requires Stranded(s, g, a, t) && h < |s.grants| && h != g
    ensures t !in s.grants[h].pending.Values
  {
  }

  lemma ApproveStaysStranded(s: State, h: GrantId, b: Approval, generation: nat, workspace: Text, g: GrantId,
      a: Approval, t: Ticket)
    requires Stranded(s, g, a, t) && h < |s.grants| && h != g
    ensures Stranded(Approve(s, h, b, generation, workspace).0, g, a, t)
  {
    hide Stranded, OPEN, HexDigest, RevokedGrants, Released;
    var grant := s.grants[h];
    OthersTickets(s, h, g, a, t);
    RevokedStaysStranded(s, {h}, g, a, t);
    var approved := grant.(approved := grant.approved + {b});
    var active := approved.(status := Active);
    ChangedStaysStranded(s, h, approved, g, a, t);
    ChangedStaysStranded(s, h, active, g, a, t);
    ReleasedStaysStranded(WithGrant(s, h, approved), h, b, g, a, t);
    ReleasedStaysStranded(WithGrant(s, h, active), h, b, g, a, t);
  }

  lemma LeaseStaysStranded(s: State, h: GrantId, b: Approval, lease: Option<nat>, lost: bool, now: int, g: GrantId,
      a: Approval, t: Ticket)
    requires Stranded(s, g, a, t) && h < |s.grants| && h != g
    ensures Stranded(Claimed(s, h, b, lease, now), g, a, t)
    ensures Stranded(Leased(s, h, lease, now), g, a, t)
    ensures Stranded(Finished(s, h, lost), g, a, t)
  {
    hide Stranded, RevokedGrants, Released, IsCurrent;
    OthersTickets(s, h, g, a, t);
    RevokedStaysStranded(s, {h}, g, a, t);
    var grant := s.grants[h].(epoch := lease);
    ChangedStaysStranded(s, h, grant, g, a, t);
    ReleasedStaysStranded(WithGrant(s, h, grant), h, b, g, a, t);
  }

  /** A request may add an entry, even to the same grant, but with a new ticket. */
  lemma RequestedStaysStranded(s: State, h: GrantId, b: Approval, generation: nat, g: GrantId, a: Approval, t: Ticket)
    requires Stranded(s, g, a, t) && h < |s.grants|
    ensures Stranded(Requested(s, h, b, generation).0, g, a, t)
  {
  }

  /** The grant itself is no longer current, so nothing is charged to it. */
  lemma ChargeStaysStranded(s: State, h: GrantId, b: Approval, alias: Text, now: int, g: GrantId, a: Approval,
      t: Ticket)
    requires Stranded(s, g, a, t) && h < |s.grants|
    ensures Stranded(Charge(s, h, b, alias, now).0, g, a, t)
    ensures h == g ==> Charge(s, h, b, alias, now).1.NotCharged?
  {
    if h == g {
      assert !IsCurrent(s, g, now);
    } else {
      hide Stranded, OPEN, RevokedGrants, IsCurrent;
      var grant := s.grants[h];
      OthersTickets(s, h, g, a, t);
      var used := grant.(approved := grant.approved - {b});
      var paid := used.(remaining := grant.remaining - 1);
      ChangedStaysStranded(s, h, used, g, a, t);
      ChangedStaysStranded(s, h, paid, g, a, t);
      ChangedStaysStranded(s, h, paid.(target := Some(alias)), g, a, t);
      RevokedStaysStranded(WithGrant(s, h, used), {h}, g, a, t);
    }
  }

  lemma FoundStaysStranded(s: State, key: Key, now: int, g: GrantId, a: Approval, t: Ticket)
    requires Closed(s) && Stranded(s, g, a, t)
    ensures var (r, found) := Found(s, key, now); Stranded(r, g, a, t) && found != Some(g)
  {
    if key in s.current {
      RevokedStaysStranded(s, {s.current[key]}, g, a, t);
    }
  }

  // Runs.

  /** The call is suspended in a segment that may still revoke or approve the grant. */
  predicate Holds(p: Point, g: GrantId) {
    (p.Approving? || p.Claiming? || p.Reading? || p.Opening? || p.Leasing? || p.Finishing?) && p.grant == g
  }

  /** A call that waits on a stranded promise, and no other call has the grant in hand. */
  ghost predicate Abandoned(y: System, c: nat, g: GrantId, a: Approval, t: Ticket, alias: Text) {
    && c < |y.calls| && y.calls[c] == Waiting(g, a, t, alias)
    && Stranded(y.s, g, a, t)
    && forall d | 0 <= d < |y.calls| :: !Holds(y.calls[d], g)
  }

  lemma StartStaysAbandoned(y: System, s: State, p: Point, c: nat, g: GrantId, a: Approval, t: Ticket, alias: Text)
    requires Abandoned(y, c, g, a, t, alias) && Stranded(s, g, a, t) && !Holds(p, g)
    ensures Abandoned(Started(y, s, p), c, g, a, t, alias)
  {
    hide Stranded;
  }

  lemma MoveStaysAbandoned(y: System, d: nat, s: State, p: Point, z: System, c: nat, g: GrantId, a: Approval, t: Ticket,
      alias: Text)
    requires Abandoned(y, c, g, a, t, alias) && Stranded(s, g, a, t) && d < |y.calls| && d != c && !Holds(p, g)
    requires z.s == s && z.calls == y.calls[d := p]
    ensures Abandoned(z, c, g, a, t, alias)
  {
    hide Stranded;
  }

  /** What a resumed call leaves of a promise stranded before. */
  ghost predicate LeavesStranded(y: System, d: nat, z: System, g: GrantId, a: Approval, t: Ticket)
    requires d < |y.calls|
  {
    Stranded(z.s, g, a, t) && |z.calls| == |y.calls| && z.calls == y.calls[d := z.calls[d]] && !Holds(z.calls[d], g)
  }

  lemma ChargeLeavesStranded(y: System, d: nat, h: GrantId, b: Approval, other: Text, g: GrantId, a: Approval,
      t: Ticket)
    requires Stranded(y.s, g, a, t) && d < |y.calls| && h < |y.s.grants|
    ensures LeavesStranded(y, d, ChargeCall(y, d, y.s, h, b, other), g, a, t)
  {
    hide Stranded, Charge;
    ChargeStaysStranded(y.s, h, b, other, y.clock, g, a, t);
  }

  lemma WaitLeavesStranded(y: System, d: nat, lease: Option<nat>, lost: bool, g: GrantId, a: Approval, t: Ticket)
    requires Stranded(y.s, g, a, t) && d < |y.calls| && PointClosed(y.s, y.calls[d]) && Charging(y.calls[d])
    requires !Holds(y.calls[d], g)
    ensures LeavesStranded(y, d, Resumed(y, d, lease, lost), g, a, t)
  {
    hide Stranded, ChargeCall, Requested, MayAct;
    match y.calls[d]
    case Requesting(h, b, generation, other) =>
      RequestedStaysStranded(y.s, h, b, generation, g, a, t);
      if Requested(y.s, h, b, generation).1.Proceed? {
        ProceedChangesNothing(y.s, h, b, generation);
      }
      ChargeLeavesStranded(y, d, h, b, other, g, a, t);
    case Waiting(h, b, u, other) => ChargeLeavesStranded(y, d, h, b, other, g, a, t);
    case Reading(_) =>
  }

  lemma QuietLeavesStranded(y: System, d: nat, lease: Option<nat>, lost: bool, g: GrantId, a: Approval, t: Ticket)
    requires Stranded(y.s, g, a, t) && d < |y.calls| && PointClosed(y.s, y.calls[d]) && !Charging(y.calls[d])
    requires !Holds(y.calls[d], g)
    ensures LeavesStranded(y, d, Resumed(y, d, lease, lost), g, a, t)
  {
    hide Stranded, RevokedGrants, Installed, Approve, Claimed, Leased, Finished, IsCurrent, Approvals;
    match y.calls[d]
    case Done =>
    case Installing(terms) => InstalledStaysStranded(y.s, terms, g, a, t);
    case Approving(h, b, generation, workspace) => ApproveStaysStranded(y.s, h, b, generation, workspace, g, a, t);
    case Claiming(h, b) => LeaseStaysStranded(y.s, h, b, lease, lost, y.clock, g, a, t);
    case Opening(h) => RevokedStaysStranded(y.s, {h}, g, a, t);
    case Leasing(h) => LeaseStaysStranded(y.s, h, a, lease, lost, y.clock, g, a, t);
    case Finishing(h) => LeaseStaysStranded(y.s, h, a, lease, lost, y.clock, g, a, t);
  }

  lemma ResumeStaysAbandoned(y: System, d: nat, lease: Option<nat>, lost: bool, c: nat, g: GrantId, a: Approval,
      t: Ticket, alias: Text)
    requires Abandoned(y, c, g, a, t, alias) && d < |y.calls| && PointClosed(y.s, y.calls[d])
    ensures Abandoned(Resumed(y, d, lease, lost), c, g, a, t, alias)
  {
    var z := Resumed(y, d, lease, lost);
    if d == c {
      assert z == y;
    } else {
      assert !Holds(y.calls[d], g);
      AbandonedIsStranded(y, c, g, a, t, alias);
      hide Stranded, Abandoned, Resumed;
      if Charging(y.calls[d]) {
        WaitLeavesStranded(y, d, lease, lost, g, a, t);
      } else {
        QuietLeavesStranded(y, d, lease, lost, g, a, t);
      }
      MoveStaysAbandoned(y, d, z.s, z.calls[d], z, c, g, a, t, alias);
    }
  }

  lemma AbandonedIsStranded(y: System, c: nat, g: GrantId, a: Approval, t: Ticket, alias: Text)
    requires Abandoned(y, c, g, a, t, alias)
    ensures Stranded(y.s, g, a, t)
  {
  }

  lemma InstalledStaysStranded(s: State, terms: Grant, g: GrantId, a: Approval, t: Ticket)
    requires Stranded(s, g, a, t)
    ensures Stranded(Installed(s, terms), g, a, t)
  {
  }

  lemma ApplyStaysAbandoned(y: System, e: Event, c: nat, g: GrantId, a: Approval, t: Ticket, alias: Text)
    requires WellFormedSystem(y) && Abandoned(y, c, g, a, t, alias) && e != RevokeGrant(g)
    ensures Abandoned(Apply(y, e), c, g, a, t, alias)
  {
    AbandonedIsStranded(y, c, g, a, t, alias);
    match e
    case StartPrepare(terms) =>
      InstalledStaysStranded(y.s, terms, g, a, t);
      if terms.key in y.s.current {
        RevokedStaysStranded(y.s, {y.s.current[terms.key]}, g, a, t);
      }
      var (s, next) := Prepared(y.s, terms);
      hide Stranded, RevokedGrants, Installed, Abandoned;
      StartStaysAbandoned(y, s, if next.Replacing? then Installing(terms) else Done, c, g, a, t, alias);
    case StartActivate(key, b, generation, workspace) =>
      FoundStaysStranded(y.s, key, y.clock, g, a, t);
      var (s, found) := Found(y.s, key, y.clock);
      hide Stranded, Found, Abandoned;
      StartStaysAbandoned(y, s, if found.Some? then Approving(found.value, b, generation, workspace)
          else Done, c, g, a, t, alias);
    case StartExecute(key, b, generation, other) =>
      FoundStaysStranded(y.s, key, y.clock, g, a, t);
      var (s, found) := Found(y.s, key, y.clock);
      hide Stranded, Found, Abandoned;
      StartStaysAbandoned(y, s, if found.Some? then Requesting(found.value, b, generation, other)
          else Done, c, g, a, t, alias);
    case Resume(d, lease, lost) =>
      if d < |y.calls| {
        ResumeStaysAbandoned(y, d, lease, lost, c, g, a, t, alias);
      }
    case RevokeGrant(h) => RevokedStaysStranded(y.s, {h}, g, a, t);
    case RevokeWhere(conversation) => RevokedStaysStranded(y.s, InConversation(y.s, conversation), g, a, t);
    case RevokeAll => RevokedStaysStranded(y.s, y.s.current.Values, g, a, t);
    case Tick(_) =>
  }

  /**
   Once its grant has left the table and no other call has the grant in hand, a waiting call
   waits on, whatever happens, until the timer of its own entry revokes the grant.
   */
  lemma {:induction false} AbandonedCallWaitsOn(y: System, events: seq<Event>, c: nat, g: GrantId, a: Approval,
      t: Ticket, alias: Text)
    requires Invariant(y) && Abandoned(y, c, g, a, t, alias) && RevokeGrant(g) !in events
    ensures Abandoned(Continue(y, events), c, g, a, t, alias)
    decreases |events|
  {
    hide Invariant, Abandoned, Apply;
    if events != [] {
      assert WellFormedSystem(y) by { InvariantIsWellFormed(y); }
      ApplyStaysAbandoned(y, events[0], c, g, a, t, alias);
      ApplyKeepsInvariant(y, events[0]);
      AbandonedCallWaitsOn(Apply(y, events[0]), events[1..], c, g, a, t, alias);
    }
  }

  // Which events wake a waiting call.

  /** Once the grant has left the table, its promises are stranded. */
  lemma OutOfTableIsStranded(s: State, g: GrantId, a: Approval, t: Ticket)
    requires Closed(s) && Orderly(s) && Awaited(s, g, a, t) && s.promises[t].Unsettled? && !InTable(s, g)
    ensures Stranded(s, g, a, t)
  {
  }

  lemma InTableIsReached(s: State, g: GrantId, a: Approval, t: Ticket)
    requires Closed(s) && Awaited(s, g, a, t) && InTable(s, g)
    ensures RevokedGrants(s, s.current.Values).promises[t].Rejected?
    ensures RevokedGrants(s, InConversation(s, s.grants[g].key.conversation)).promises[t].Rejected?
  {
    var k := s.grants[g].key;
    assert s.current[k] in s.current.Values && s.current[k] in InConversation(s, k.conversation);
    assert t in Tickets(s, s.current.Values) && t in Tickets(s, InConversation(s, k.conversation));
  }

  /** `activatePermission` from its lookup to its end, as one run of its segments. */
  function Activated(s: State, key: Key, a: Approval, generation: nat, workspace: Text, lease: Option<nat>,
      now: int): State
    requires Closed(s)
  {
    var (r, found) := Found(s, key, now);
    if found.None? then r
    else
      var (q, next) := Approve(r, found.value, a, generation, workspace);
      if next.Claim? then Claimed(q, found.value, a, lease, now) else q
  }

  /** The same as events: the call is started and resumed at each of its awaits. */
  function ActivationEvents(y: System, key: Key, a: Approval, generation: nat, workspace: Text,
      lease: Option<nat>): seq<Event> {
    [StartActivate(key, a, generation, workspace), Resume(|y.calls|, None, false), Resume(|y.calls|, lease, false)]
  }

  ghost function Step(y: System, e: Event): (z: System)
    requires Invariant(y)
    ensures Invariant(z)
  {
    ApplyKeepsInvariant(y, e);
    Apply(y, e)
  }

  lemma TwoSteps(y: System, e: Event, f: Event)
    requires Invariant(y)
    ensures Continue(y, [e, f]) == Step(Step(y, e), f)
  {
    hide Invariant, Apply;
    var z := Step(y, e);
    assert [e, f][1..] == [f] && [f][1..] == [];
    assert Continue(z, [f]) == Continue(Step(z, f), []);
  }

  lemma ThreeSteps(y: System, e: Event, f: Event, g: Event)
    requires Invariant(y)
    ensures Continue(y, [e, f, g]) == Step(Step(Step(y, e), f), g)
  {
    hide Invariant, Apply;
    assert [e, f, g][1..] == [f, g];
    TwoSteps(Step(y, e), f, g);
  }

  lemma ActivationRuns(y: System, key: Key, a: Approval, generation: nat, workspace: Text, lease: Option<nat>)
    requires Invariant(y)
    ensures Continue(y, ActivationEvents(y, key, a, generation, workspace, lease)).s
            == Activated(y.s, key, a, generation, workspace, lease, y.clock)
  {
    hide Invariant, Approve, Claimed, Found, Closed, Approvals;
    var n := |y.calls|;
    var e, f, g := StartActivate(key, a, generation, workspace), Resume(n, None, false), Resume(n, lease, false);
    ThreeSteps(y, e, f, g);
    InvariantIsWellFormed(y);
    InvariantIsWellFormed(Step(y, e));
    InvariantIsWellFormed(Step(Step(y, e), f));
    var (r, found) := Found(y.s, key, y.clock);
    var first := Step(y, e);
    assert first.calls[n] == if found.Some? then Approving(found.value, a, generation, workspace) else Done;
    assert ActivationEvents(y, key, a, generation, workspace, lease) == [e, f, g];
    var second := Step(first, f);
    assert second == Resumed(first, n, None, false);
    assert Step(second, g) == Resumed(second, n, lease, false);
  }

  lemma ActivationMissesStranded(s: State, key: Key, b: Approval, generation: nat, workspace: Text, lease: Option<nat>,
      now: int, g: GrantId, a: Approval, t: Ticket)
    requires Closed(s) && Stranded(s, g, a, t)
    ensures Stranded(Activated(s, key, b, generation, workspace, lease, now), g, a, t)
  {
    hide Stranded, Found, Approve, Claimed;
    FoundStaysStranded(s, key, now, g, a, t);
    var (r, found) := Found(s, key, now);
    if found.Some? {
      FoundExists(s, key, now);
      ApproveStaysStranded(r, found.value, b, generation, workspace, g, a, t);
      var q := Approve(r, found.value, b, generation, workspace).0;
      ApproveKeepsGrants(r, found.value, b, generation, workspace);
      LeaseStaysStranded(q, found.value, b, lease, false, now, g, a, t);
    }
  }

  lemma FoundExists(s: State, key: Key, now: int)
    requires Closed(s)
    ensures var (r, found) := Found(s, key, now); found.Some? ==> found.value < |r.grants|
  {
  }

  lemma ApproveKeepsGrants(s: State, g: GrantId, a: Approval, generation: nat, workspace: Text)
    requires g < |s.grants|
    ensures |Approve(s, g, a, generation, workspace).0.grants| == |s.grants|
  {
    hide OPEN, HexDigest;
  }

  /** Promises are never forgotten, so one that is not open is settled. */
  predicate StillOpen(s: State, t: Ticket) {
    t < |s.promises| && s.promises[t].Unsettled?
  }

  /** Through the table, an approval settles the promise: it resolves it, or a check that fails revokes the grant. */
  lemma ActivationSettles(s: State, g: GrantId, a: Approval, t: Ticket, generation: nat, workspace: Text,
      lease: Option<nat>, now: int)
    requires Closed(s) && Orderly(s) && Awaited(s, g, a, t) && InTable(s, g)
    ensures !StillOpen(Activated(s, s.grants[g].key, a, generation, workspace, lease, now), t)
  {
    hide OPEN, HexDigest, IsCurrent;
    var grant := s.grants[g];
    TicketIsOf(s, g, a, t);
    if grant.expiresAt > now {
      var (q, next) := Approve(s, g, a, generation, workspace);
      if next.Claim? {
        assert q.grants[g].pending == grant.pending;
        TicketIsOf(q, g, a, t);
      }
    }
  }

  lemma TicketIsOf(s: State, g: GrantId, a: Approval, t: Ticket)
    requires Awaited(s, g, a, t)
    ensures t in Tickets(s, {g})
  {
  }

  lemma WaitingIsAwaited(y: System, c: nat, g: GrantId, a: Approval, t: Ticket, alias: Text)
    requires Invariant(y) && c < |y.calls| && y.calls[c] == Waiting(g, a, t, alias) && t < |y.s.promises|
    requires y.s.promises[t].Unsettled?
    ensures Closed(y.s) && Awaited(y.s, g, a, t)
  {
    assert CallKept(y, c);
  }

  /**
   Whatever its terms, an approval through the key of its grant, a revocation of the grant's
   conversation, or one of all grants lets a waiting call go if and only if its grant is the
   one in the table; the timer of its own entry always does.
   */
  lemma WakesExactlyInTable(
    events: seq<Event>, c: nat, g: GrantId, a: Approval, t: Ticket, alias: Text,
    generation: nat, workspace: Text, lease: Option<nat>)
    requires var y := Run(events);
             c < |y.calls| && y.calls[c] == Waiting(g, a, t, alias) && StillOpen(y.s, t)
    ensures var y := Run(events);
            && g < |y.s.grants|
            && var key := y.s.grants[g].key;
               && (InTable(y.s, g)
                  <==> !StillOpen(Continue(y, ActivationEvents(y, key, a, generation, workspace, lease)).s, t))
               && (InTable(y.s, g) <==> !StillOpen(Apply(y, RevokeWhere(key.conversation)).s, t))
               && (InTable(y.s, g) <==> !StillOpen(Apply(y, RevokeAll).s, t))
               && !StillOpen(Apply(y, RevokeGrant(g)).s, t)
  {
    var y := Run(events);
    WaitingIsAwaited(y, c, g, a, t, alias);
    RunIsOrderly(events);
    RevocationsApply(y, g);
    hide Run, Invariant, Orderly, Closed, Activated, RevokedGrants, InConversation, Apply, Continue, Stranded, Awaited;
    var key := y.s.grants[g].key;
    ActivationRuns(y, key, a, generation, workspace, lease);
    RevocationReaches(y.s, g, a, t);
    if InTable(y.s, g) {
      InTableIsReached(y.s, g, a, t);
      ActivationSettles(y.s, g, a, t, generation, workspace, lease, y.clock);
    } else {
      OutOfTableIsStranded(y.s, g, a, t);
      ActivationMissesStranded(y.s, key, a, generation, workspace, lease, y.clock, g, a, t);
      RevocationsMiss(y.s, g, a, t);
      StrandedIsUnsettled(Activated(y.s, key, a, generation, workspace, lease, y.clock), g, a, t);
    }
  }

  lemma RevocationsApply(y: System, g: GrantId)
    requires Invariant(y) && g < |y.s.grants|
    ensures Apply(y, RevokeGrant(g)).s == RevokedGrants(y.s, {g})
    ensures Apply(y, RevokeAll).s == RevokedGrants(y.s, y.s.current.Values)
    ensures forall conversation ::
            Apply(y, RevokeWhere(conversation)).s == RevokedGrants(y.s, InConversation(y.s, conversation))
  {
    InvariantIsWellFormed(y);
    hide Invariant, RevokedGrants, InConversation, Closed;
  }

  lemma RevocationReaches(s: State, g: GrantId, a: Approval, t: Ticket)
    requires Closed(s) && Awaited(s, g, a, t)
    ensures RevokedGrants(s, {g}).promises[t].Rejected?
  {
    TicketIsOf(s, g, a, t);
  }

  lemma RevocationsMiss(s: State, g: GrantId, a: Approval, t: Ticket)
    requires Stranded(s, g, a, t)
    ensures RevokedGrants(s, s.current.Values).promises[t].Unsettled?
    ensures forall conversation :: RevokedGrants(s, InConversation(s, conversation)).promises[t].Unsettled?
  {
    RevokedStaysStranded(s, s.current.Values, g, a, t);
    forall conversation
      ensures RevokedGrants(s, InConversation(s, conversation)).promises[t].Unsettled?
    {
      RevokedStaysStranded(s, InConversation(s, conversation), g, a, t);
    }
  }

  lemma StrandedIsUnsettled(s: State, g: GrantId, a: Approval, t: Ticket)
    requires Stranded(s, g, a, t)
    ensures t < |s.promises| && s.promises[t].Unsettled?
  {
  }

  lemma RunIsOrderly(events: seq<Event>)
    ensures Orderly(Run(events).s)
  {
    assert Invariant(INITIAL) by {
      assert Run([]) == INITIAL;
    }
    hide Invariant;
    ContinueStaysOrderly(INITIAL, events);
  }

  // Such calls exist.

  /**
   A call resumed after the revocation of the grant it had found starts to wait, and nothing but
   its timer ends that.
   */
  lemma LateCallIsAbandoned(y: System, c: nat, g: GrantId, a: Approval, generation: nat, alias: Text)
    requires Invariant(y) && Orderly(y.s) && c < |y.calls| && y.calls[c] == Requesting(g, a, generation, alias)
    requires g < |y.s.grants| && y.s.grants[g].generation == generation && a.tool in y.s.grants[g].operations
    requires forall d | 0 <= d < |y.calls| :: !Holds(y.calls[d], g)
    ensures var z := Continue(y, [RevokeGrant(g), Resume(c, None, false)]);
            && g < |z.s.grants| && z.s.grants[g].status.Revoked?
            && Abandoned(z, c, g, a, |y.s.promises|, alias)
  {
    RequestIsStranded(y.s, g, a, generation);
    LateSteps(y, c, g, a, generation, alias);
    hide Invariant, RevokedGrants, Requested, Stranded, Orderly, Closed, Step;
    TwoSteps(y, RevokeGrant(g), Resume(c, None, false));
  }

  lemma LateSteps(y: System, c: nat, g: GrantId, a: Approval, generation: nat, alias: Text)
    requires Invariant(y) && c < |y.calls| && y.calls[c] == Requesting(g, a, generation, alias) && g < |y.s.grants|
    requires Requested(RevokedGrants(y.s, {g}), g, a, generation).1 == Wait(|y.s.promises|)
    ensures var z := Step(Step(y, RevokeGrant(g)), Resume(c, None, false));
            && z.s == Requested(RevokedGrants(y.s, {g}), g, a, generation).0
            && z.calls == y.calls[c := Waiting(g, a, |y.s.promises|, alias)]
  {
    hide Invariant, RevokedGrants, Requested, ChargeCall, Closed;
    InvariantIsWellFormed(y);
    var revoked := Step(y, RevokeGrant(g));
    InvariantIsWellFormed(revoked);
    assert Step(revoked, Resume(c, None, false)) == Resumed(revoked, c, None, false);
  }

  lemma RequestIsStranded(s: State, g: GrantId, a: Approval, generation: nat)
    requires Closed(s) && Orderly(s) && g < |s.grants| && s.grants[g].generation == generation
    requires a.tool in s.grants[g].operations
    ensures var (r, next) := Requested(RevokedGrants(s, {g}), g, a, generation);
            next == Wait(|s.promises|) && r.grants[g].status.Revoked? && Stranded(r, g, a, |s.promises|)
  {
    var q := RevokedGrants(s, {g});
    forall k | k in q.current
      ensures q.current[k] != g
    {
      assert s.grants[s.current[k]].key == k && k !in Keys(s, {g});
    }
  }

  /** The shortest such run. */
  lemma SomeCallIsAbandoned(terms: Grant, a: Approval, alias: Text)
    requires terms.key.turn != [] && a.tool in terms.operations && terms.expiresAt > 0
    ensures var events := [StartPrepare(terms), StartExecute(terms.key, a, terms.generation, alias), RevokeGrant(0),
            Resume(1, None, false)];
            Run(events).s.grants != [] && Run(events).s.grants[0].status.Revoked?
                && Abandoned(Run(events), 1, 0, a, 0, alias)
  {
    var prepare, execute := StartPrepare(terms), StartExecute(terms.key, a, terms.generation, alias);
    var prepared := Step(INITIAL, prepare);
    var executing := Step(prepared, execute);
    TwoSteps(INITIAL, prepare, execute);
    RunIsOrderly([prepare, execute]);
    RequestingAtOnce(terms, a, alias);
    hide Invariant, Apply, Orderly, Abandoned;
    LateCallIsAbandoned(executing, 1, 0, a, terms.generation, alias);
    var late := [RevokeGrant(0), Resume(1, None, false)];
    var events := [prepare, execute] + late;
    assert events == [prepare, execute, RevokeGrant(0), Resume(1, None, false)];
    assert events[1..][0] == execute && events[1..][1..] == late;
    assert Run(events) == Continue(prepared, events[1..]) == Continue(executing, late);
  }

  lemma RequestingAtOnce(terms: Grant, a: Approval, alias: Text)
    requires terms.key.turn != [] && a.tool in terms.operations && terms.expiresAt > 0
    ensures var y := Step(Step(INITIAL, StartPrepare(terms)), StartExecute(terms.key, a, terms.generation, alias));
            && y.calls == [Done, Requesting(0, a, terms.generation, alias)] && y.s.promises == []
            && |y.s.grants| == 1 && y.s.grants[0].generation == terms.generation
            && y.s.grants[0].operations == terms.operations
  {
    var y := Step(INITIAL, StartPrepare(terms));
    InvariantIsWellFormed(INITIAL);
    InvariantIsWellFormed(y);
    hide Invariant;
    assert y.s == Installed(INITIAL.s, terms) && y.calls == [Done];
  }
}
