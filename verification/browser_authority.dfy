/**
 One turn's authority over the browser: approvals of exact operations, a budget of actions,
 and calls that wait for an approval. Each function is one segment between two awaits.
 Grants and the promises of waiting calls are objects; here they are numbered in the order
 of their creation.
 */
module BrowserAuthority {
  import opened CanonicalJson
  import opened Planner

  type Tool = Text
  type GrantId = nat
  type Ticket = nat

  const OPEN: Tool := Ascii("browser_open")

  datatype Key = Key(conversation: Text, turn: Text)
  datatype Approval = Approval(tool: Tool, digest: Text)
  datatype Status = Dormant | Active | Revoked
  datatype Promise = Unsettled | Resolved | Rejected

  datatype Grant = Grant(
    key: Key, generation: nat, workspace: Text, operations: set<Tool>, target: Option<Text>,
    initial: int, remaining: int, expiresAt: int, status: Status, epoch: Option<nat>,
    approved: set<Approval>, pending: map<Approval, Ticket>)

  datatype State = State(current: map<Key, GrantId>, grants: seq<Grant>, promises: seq<Promise>)

  /** Every reference leads to an object. */
  predicate Closed(s: State) {
    && (forall k | k in s.current :: s.current[k] < |s.grants|)
    && (forall g, a | 0 <= g < |s.grants| && a in s.grants[g].pending :: s.grants[g].pending[a] < |s.promises|)
  }

  // Revocation.

  function Tickets(s: State, ids: set<GrantId>): set<Ticket> {
    set g, a | g in ids && g < |s.grants| && a in s.grants[g].pending :: s.grants[g].pending[a]
  }

  function Keys(s: State, ids: set<GrantId>): set<Key> {
    set g | g in ids && g < |s.grants| :: s.grants[g].key
  }

  function Settled(promises: seq<Promise>, tickets: set<Ticket>, outcome: Promise): (r: seq<Promise>)
    ensures |r| == |promises|
    ensures forall t | 0 <= t < |r| :: r[t] == if t in tickets then outcome else promises[t]
  {
    seq(|promises|, t requires 0 <= t < |promises| => if t in tickets then outcome else promises[t])
  }

  function Ended(g: Grant): Grant {
    g.(status := Revoked, approved := {}, pending := map[])
  }

  /** `#revoke`, for a set of grants, up to its await; also what a takeover does first. */
  function RevokedGrants(s: State, ids: set<GrantId>): (r: State)
    ensures |r.grants| == |s.grants| && |r.promises| == |s.promises|
  {
    State(
      s.current - Keys(s, ids),
      seq(|s.grants|, g requires 0 <= g < |s.grants| => if g in ids then Ended(s.grants[g]) else s.grants[g]),
      Settled(s.promises, Tickets(s, ids), Rejected))
  }

  /** The grants of a conversation that the table still holds. */
  function InConversation(s: State, conversation: Text): set<GrantId> {
    set k | k in s.current && k.conversation == conversation :: s.current[k]
  }

  lemma RevokeOneMore(s: State, ids: set<GrantId>, g: GrantId)
    ensures RevokedGrants(RevokedGrants(s, ids), {g}) == RevokedGrants(s, ids + {g})
  {
    var r := RevokedGrants(s, ids);
    if g < |s.grants| {
      assert Keys(r, {g}) == {s.grants[g].key};
      assert Keys(s, ids + {g}) == Keys(s, ids) + {s.grants[g].key};
      TicketsOfOne(s, ids, g);
    } else {
      assert Keys(s, ids + {g}) == Keys(s, ids) && Keys(r, {g}) == {};
      assert Tickets(s, ids + {g}) == Tickets(s, ids) && Tickets(r, {g}) == {};
    }
    assert RevokedGrants(r, {g}).grants == RevokedGrants(s, ids + {g}).grants;
    assert RevokedGrants(r, {g}).promises == RevokedGrants(s, ids + {g}).promises;
  }

  lemma TicketsOfOne(s: State, ids: set<GrantId>, g: GrantId)
    requires g < |s.grants|
    ensures Tickets(s, ids + {g}) == Tickets(s, ids) + Tickets(RevokedGrants(s, ids), {g})
  {
    var r := RevokedGrants(s, ids);
    assert g in ids ==> Tickets(r, {g}) == {} && ids + {g} == ids;
    assert g !in ids ==> r.grants[g] == s.grants[g];
  }

  // Segments.

  function WithGrant(s: State, g: GrantId, grant: Grant): State
    requires g < |s.grants|
  {
    s.(grants := s.grants[g := grant])
  }

  /** The unconditional part of `prepareDormant`: a new record under its key. */
  function Installed(s: State, terms: Grant): State {
    s.(current := s.current[terms.key := |s.grants|],
       grants := s.grants + [terms.(status := Dormant, epoch := None, approved := {}, pending := map[],
           remaining := terms.initial)])
  }

  /** Another grant of the conversation is still in the table. */
  predicate Conflict(s: State, key: Key)
    requires Closed(s)
  {
    exists k | k in s.current ::
        k != key && k.conversation == key.conversation && !s.grants[s.current[k]].status.Revoked?
  }

  datatype PrepareNext = Invalid | Conflicting | Replacing | Ready

  /** `prepareDormant` up to its await, or to its end when there is nothing to replace. */
  function Prepared(s: State, terms: Grant): (State, PrepareNext)
    requires Closed(s)
  {
    if terms.key.turn == [] || terms.operations == {} then (s, Invalid)
    else if Conflict(s, terms.key) then (s, Conflicting)
    else if terms.key in s.current then (RevokedGrants(s, {s.current[terms.key]}), Replacing)
    else (Installed(s, terms), Ready)
  }

  /** `#activeRecord`. */
  function Found(s: State, key: Key, now: int): (State, Option<GrantId>)
    requires Closed(s)
  {
    if key !in s.current || s.grants[s.current[key]].status.Revoked? then (s, None)
    else if s.grants[s.current[key]].expiresAt <= now then (RevokedGrants(s, {s.current[key]}), None)
    else (s, Some(s.current[key]))
  }

  /** `#assertCurrent`. */
  predicate IsCurrent(s: State, g: GrantId, now: int) {
    && g < |s.grants| && s.grants[g].status.Active?
    && s.grants[g].key in s.current && s.current[s.grants[g].key] == g
    && s.grants[g].expiresAt > now
  }

  datatype ActivateNext = Mismatch | Claim | Activated

  /** The waiting call for an approval, if there is one, is let go. */
  function Released(s: State, g: GrantId, a: Approval): State
    requires g < |s.grants|
  {
    var grant := s.grants[g];
    if a !in grant.pending then s
    else
      WithGrant(s, g, grant.(pending := grant.pending - {a})).(promises := Settled(s.promises, {grant.pending[a]},
          Resolved))
  }

  /** `activatePermission` after its first await. */
  function Approve(s: State, g: GrantId, a: Approval, generation: nat, workspace: Text): (State, ActivateNext)
    requires g < |s.grants|
  {
    var grant := s.grants[g];
    if grant.generation != generation || grant.workspace != workspace || a.tool !in grant.operations
        || !HexDigest(a.digest)
    then (RevokedGrants(s, {g}), Mismatch)
    else
      var approved := grant.(approved := grant.approved + {a});
      if grant.status.Dormant? && a.tool != OPEN then (WithGrant(s, g, approved.(status := Active)), Claim)
      else
        var active := if grant.status.Dormant? then approved.(status := Active) else approved;
        (Released(WithGrant(s, g, active), g, a), Activated)
  }

  /** `activatePermission` after the broker answered the claim. */
  function Claimed(s: State, g: GrantId, a: Approval, lease: Option<nat>, now: int): State
    requires g < |s.grants|
  {
    if lease.None? || !IsCurrent(s, g, now) then RevokedGrants(s, {g})
    else Released(WithGrant(s, g, s.grants[g].(epoch := lease)), g, a)
  }

  datatype ExecuteNext = Refused | Wait(ticket: Ticket) | Proceed

  /** `execute` after its first await, up to the wait for an approval. */
  function Requested(s: State, g: GrantId, a: Approval, generation: nat): (State, ExecuteNext)
    requires g < |s.grants|
  {
    var grant := s.grants[g];
    if grant.generation != generation || a.tool !in grant.operations then (s, Refused)
    else if a in grant.approved then (s, Proceed)
    else if exists c | c in grant.approved :: c.tool == a.tool then (s, Refused)
    else if a in grant.pending then (s, Wait(grant.pending[a]))
    else
      (WithGrant(s, g, grant.(pending := grant.pending[a := |s.promises|])).(promises := s.promises + [Unsettled]),
       Wait(|s.promises|))
  }

  datatype ChargeNext = NotCharged | ChargedOnly | ChargedOpening | ChargedReading

  /** `execute` from the check that the grant is current to its next await. */
  function Charge(s: State, g: GrantId, a: Approval, alias: Text, now: int): (State, ChargeNext)
    requires g < |s.grants|
  {
    var grant := s.grants[g];
    if !IsCurrent(s, g, now) || a !in grant.approved then (s, NotCharged)
    else
      var used := grant.(approved := grant.approved - {a});
      if grant.remaining <= 0 then (RevokedGrants(WithGrant(s, g, used), {g}), NotCharged)
      else
        var paid := used.(remaining := grant.remaining - 1);
        if a.tool != OPEN then (WithGrant(s, g, paid), ChargedReading)
        else if grant.target.Some? && grant.target.value != alias then (WithGrant(s, g, paid), ChargedOnly)
        else (WithGrant(s, g, paid.(target := Some(alias))), ChargedOpening)
  }

  /** Whether the broker is asked for the action itself, after its state was read. */
  predicate MayAct(s: State, g: GrantId, now: int) {
    IsCurrent(s, g, now) && s.grants[g].epoch.Some?
  }

  /** The end of an opening: the broker's lease, or revocation. */
  function Leased(s: State, g: GrantId, lease: Option<nat>, now: int): State
    requires g < |s.grants|
  {
    if lease.None? || !IsCurrent(s, g, now) then RevokedGrants(s, {g})
    else WithGrant(s, g, s.grants[g].(epoch := lease))
  }

  /** The `finally` of `execute`; `lost` is a closed browser or a control-loss error. */
  function Finished(s: State, g: GrantId, lost: bool): State
    requires g < |s.grants|
  {
    if lost || s.grants[g].remaining <= 0 then RevokedGrants(s, {g}) else s
  }

  // The authority.

  class BrowserAgentAuthority {
    var current: map<Key, GrantId>
    var grants: seq<Grant>
    var promises: seq<Promise>

    function View(): State
      reads this
    {
      State(current, grants, promises)
    }

    constructor ()
      ensures View() == State(map[], [], [])
    {
      current, grants, promises := map[], [], [];
    }

    method Settle(tickets: set<Ticket>, outcome: Promise)
      modifies this`promises
      ensures promises == Settled(old(promises), tickets, outcome)
    {
      var left := tickets;
      while left != {}
        invariant left <= tickets && promises == Settled(old(promises), tickets - left, outcome)
      {
        var t :| t in left;
        if t < |promises| {
          promises := promises[t := outcome];
        }
        left := left - {t};
      }
    }

    method Revoke(g: GrantId)
      requires g < |grants|
      modifies this
      ensures View() == RevokedGrants(old(View()), {g})
    {
      var grant := grants[g];
      grants := grants[g := grant.(status := Revoked, approved := {})];
      current := current - {grant.key};
      Settle(grant.pending.Values, Rejected);
      grants := grants[g := grants[g].(pending := map[])];
      assert Tickets(old(View()), {g}) == grant.pending.Values;
      assert Keys(old(View()), {g}) == {grant.key};
    }

    /** `revokeConversation`, `revokeAll` and the first half of a takeover, over the grants they select. */
    method RevokeEach(ids: set<GrantId>)
      requires forall g | g in ids :: g < |grants|
      modifies this
      ensures View() == RevokedGrants(old(View()), ids)
    {
      var left := ids;
      assert View() == RevokedGrants(View(), {});
      while left != {}
        invariant left <= ids && |grants| == old(|grants|) && View() == RevokedGrants(old(View()), ids - left)
      {
        var g :| g in left;
        RevokeOneMore(old(View()), ids - left, g);
        Revoke(g);
        assert ids - (left - {g}) == ids - left + {g};
        left := left - {g};
      }
      assert ids - {} == ids;
    }

    method RevokeConversation(conversation: Text)
      requires Closed(View())
      modifies this
      ensures View() == RevokedGrants(old(View()), InConversation(old(View()), conversation))
    {
      RevokeEach(InConversation(View(), conversation));
    }

    method Install(terms: Grant)
      modifies this
      ensures View() == Installed(old(View()), terms)
    {
      current := current[terms.key := |grants|];
      grants := grants + [terms.(status := Dormant, epoch := None, approved := {}, pending := map[],
          remaining := terms.initial)];
    }

    method ActiveRecord(key: Key, now: int) returns (g: Option<GrantId>)
      requires Closed(View())
      modifies this
      ensures (View(), g) == Found(old(View()), key, now)
    {
      if key !in current || grants[current[key]].status.Revoked? {
        return None;
      }
      if grants[current[key]].expiresAt <= now {
        Revoke(current[key]);
        return None;
      }
      return Some(current[key]);
    }

    method Release(g: GrantId, a: Approval)
      requires g < |grants|
      modifies this`grants, this`promises
      ensures View() == Released(old(View()), g, a)
    {
      if a in grants[g].pending {
        var ticket := grants[g].pending[a];
        grants := grants[g := grants[g].(pending := grants[g].pending - {a})];
        Settle({ticket}, Resolved);
      }
    }

    method ApprovePermission(g: GrantId, a: Approval, generation: nat, workspace: Text) returns (next: ActivateNext)
      requires g < |grants|
      modifies this
      ensures (View(), next) == Approve(old(View()), g, a, generation, workspace)
    {
      hide HexDigest, RevokedGrants, Released, OPEN;
      var grant := grants[g];
      if grant.generation != generation || grant.workspace != workspace || a.tool !in grant.operations
          || !HexDigest(a.digest) {
        Revoke(g);
        return Mismatch;
      }
      grant := grant.(approved := grant.approved + {a});
      grants := grants[g := grant];
      if grant.status.Dormant? {
        grant := grant.(status := Active);
        grants := grants[g := grant];
        assert View() == WithGrant(old(View()), g, grant);
        if a.tool != OPEN {
          return Claim;
        }
      }
      assert View() == WithGrant(old(View()), g, grant);
      Release(g, a);
      return Activated;
    }

    method RequestOperation(g: GrantId, a: Approval, generation: nat) returns (next: ExecuteNext)
      requires g < |grants|
      modifies this`grants, this`promises
      ensures (View(), next) == Requested(old(View()), g, a, generation)
    {
      var grant := grants[g];
      if grant.generation != generation || a.tool !in grant.operations {
        return Refused;
      }
      if a !in grant.approved {
        if exists c | c in grant.approved :: c.tool == a.tool {
          return Refused;
        }
        if a in grant.pending {
          return Wait(grant.pending[a]);
        }
        var ticket := |promises|;
        promises := promises + [Unsettled];
        grants := grants[g := grant.(pending := grant.pending[a := ticket])];
        return Wait(ticket);
      }
      return Proceed;
    }

    method StartOperation(g: GrantId, a: Approval, alias: Text, now: int) returns (next: ChargeNext)
      requires g < |grants|
      modifies this
      ensures (View(), next) == Charge(old(View()), g, a, alias, now)
    {
      hide RevokedGrants, OPEN;
      if !IsCurrent(View(), g, now) || a !in grants[g].approved {
        return NotCharged;
      }
      grants := grants[g := grants[g].(approved := grants[g].approved - {a})];
      assert View() == WithGrant(old(View()), g, grants[g]);
      if grants[g].remaining <= 0 {
        Revoke(g);
        return NotCharged;
      }
      grants := grants[g := grants[g].(remaining := grants[g].remaining - 1)];
      assert View() == WithGrant(old(View()), g, grants[g]);
      if a.tool == OPEN {
        if grants[g].target.Some? && grants[g].target.value != alias {
          return ChargedOnly;
        }
        grants := grants[g := grants[g].(target := Some(alias))];
        assert View() == WithGrant(old(View()), g, grants[g]);
        return ChargedOpening;
      }
      return ChargedReading;
    }
  
    method PrepareDormant(terms: Grant) returns (next: PrepareNext)
      requires Closed(View())
      modifies this
      ensures (View(), next) == Prepared(old(View()), terms)
    {
      if terms.key.turn == [] || terms.operations == {} {
        return Invalid;
      }
      if exists k | k in current ::
          k != terms.key && k.conversation == terms.key.conversation && !grants[current[k]].status.Revoked? {
        return Conflicting;
      }
      if terms.key in current {
        Revoke(current[terms.key]);
        return Replacing;
      }
      Install(terms);
      return Ready;
    }

    method ConfirmClaim(g: GrantId, a: Approval, lease: Option<nat>, now: int)
      requires g < |grants|
      modifies this
      ensures View() == Claimed(old(View()), g, a, lease, now)
    {
      var granted := lease.Some? && IsCurrent(View(), g, now);
      ConfirmLease(g, lease, now);
      if granted {
        Release(g, a);
      }
    }

    method ConfirmLease(g: GrantId, lease: Option<nat>, now: int)
      requires g < |grants|
      modifies this
      ensures View() == Leased(old(View()), g, lease, now)
    {
      if lease.None? || !IsCurrent(View(), g, now) {
        Revoke(g);
      } else {
        grants := grants[g := grants[g].(epoch := lease)];
      }
    }

    method FinishOperation(g: GrantId, lost: bool)
      requires g < |grants|
      modifies this
      ensures View() == Finished(old(View()), g, lost)
    {
      if lost || grants[g].remaining <= 0 {
        Revoke(g);
      }
    }
  }
}
