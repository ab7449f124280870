/**
 Admission of Agent tool calls: capability grants, the one operation a person permits, and
 the budgets of implicitly allowed operations. Each function below is one segment that runs
 without interruption; the executor is called at its end.
 */
module AgentMcp {
  import opened CanonicalJson
  import opened CanonicalBytes
  import opened Planner

  type Capability = nat
  type Tool = Text

  datatype Commitment = Commitment(tool: Tool, digest: Text)

  datatype Grant = Grant(
    conversation: Text, generation: nat, allowed: set<Tool>, explicit: bool,
    budgets: map<Tool, nat>, paths: Option<Json>, commitment: Option<Commitment>, expiresAt: int)

  /** The parts of the server that admission calls but does not define. */
  datatype Environment = Environment(
    hash: Hash,
    consequential: set<Tool>,
    normalize: (Tool, Json) -> Option<Json>,
    pathsAuthorized: (Json, Json) -> bool)

  datatype State = State(
    grants: map<Capability, Grant>,
    inFlight: set<Capability>,
    consumed: set<Capability>,
    rejected: set<Capability>,
    spent: map<Capability, map<Tool, nat>>)

  datatype Admission = Free | Implicit | Permitted(digest: Text)
  datatype Denial = UnknownCapability | ToolUnavailable | BudgetConsumed | OperationConsumed | NeedsPermission |
      InvalidInput
  datatype Decision = Denied(why: Denial) | Started(admission: Admission, normalized: Json)

  const WRITE_FILES: Tool := Ascii("riff_write_project_files")
  const MAX_COMMITTED_BYTES := 256_000
  const MAX_BUDGET := 4

  const F_TOOL: Text := Ascii("tool")
  const F_ARGUMENTS: Text := Ascii("arguments")

  function CommitmentJson(tool: Tool, input: Json): Json {
    Obj(map[F_VERSION := Num(1), F_TOOL := Str(tool), F_ARGUMENTS := input])
  }

  /** `agentToolOperationCommitment`; None where it throws. */
  function OperationDigest(env: Environment, tool: Tool, input: Json): Option<Text> {
    if tool !in env.consequential || !Canonical(input) || |Bytes(input)| > MAX_COMMITTED_BYTES then None
    else if !Canonical(CommitmentJson(tool, input)) then None
    else Some(env.hash(Bytes(CommitmentJson(tool, input))))
  }

  function Limit(env: Environment, g: Grant, tool: Tool): nat {
    if tool in env.consequential && g.explicit && tool in g.budgets then g.budgets[tool] else 0
  }

  function Spent(s: State, cap: Capability, tool: Tool): nat {
    if cap in s.spent && tool in s.spent[cap] then s.spent[cap][tool] else 0
  }

  // Segments.

  predicate GrantAccepted(env: Environment, g: Grant) {
    && (g.explicit || g.budgets == map[])
    && (forall tool | tool in g.budgets ::
       tool in g.allowed && tool in env.consequential && 1 <= g.budgets[tool] <= MAX_BUDGET)
    && (g.paths.Some? ==> g.explicit && WRITE_FILES in g.budgets)
  }

  /** `revoke`, for every capability in a set. */
  function Revoked(s: State, caps: set<Capability>): State {
    State(s.grants - caps, s.inFlight - caps, s.consumed - caps, s.rejected - caps, s.spent - caps)
  }

  function InConversation(s: State, conversation: Text): set<Capability> {
    set cap | cap in s.grants && s.grants[cap].conversation == conversation
  }

  function InGeneration(s: State, conversation: Text, generation: nat): set<Capability> {
    set cap | cap in InConversation(s, conversation) && s.grants[cap].generation == generation
  }

  /** The grant behind a capability, with the clock read twice. */
  function Active(s: State, cap: Capability, now: int, later: int): (State, Option<Grant>) {
    if cap !in s.grants then (s, None)
    else
      var g := s.grants[cap];
      var after := if g.expiresAt <= now then Revoked(s, {cap}) else s;
      (after, if g.expiresAt > later then Some(g) else None)
  }

  function Authorized(env: Environment, s: State, cap: Capability, c: Commitment, now: int, later: int): (State, bool) {
    var (s', grant) := Active(s, cap, now, later);
    if grant.None? || c.tool !in grant.value.allowed || c.tool !in env.consequential || !HexDigest(c.digest)
        || cap in s'.consumed
    then (s', false)
    else if grant.value.commitment == Some(c) then (s', true)
    else if grant.value.commitment.Some? && cap !in s'.rejected then (Revoked(s', {cap}), false)
    else (s'.(grants := s'.grants[cap := grant.value.(commitment := Some(c))], rejected := s'.rejected - {cap}), true)
  }

  /** Whether a call whose tool is available may go on to validation. */
  function Permission(env: Environment, s: State, cap: Capability, g: Grant, tool: Tool, input: Json): Decision
  {
    if tool !in env.consequential then Started(Free, input)
    else if Limit(env, g, tool) > 0 then
      if Spent(s, cap, tool) >= Limit(env, g, tool) then Denied(BudgetConsumed) else Started(Implicit, input)
    else if cap in s.consumed then Denied(OperationConsumed)
    else
      match OperationDigest(env, tool, input)
      case None => Denied(NeedsPermission)
      case Some(digest) =>
        if g.commitment == Some(Commitment(tool, digest)) then Started(Permitted(digest), input)
        else Denied(NeedsPermission)
  }

  function Validated(env: Environment, g: Grant, admission: Admission, tool: Tool, input: Json): Option<Json> {
    match env.normalize(tool, input)
    case None => None
    case Some(n) =>
      if admission.Implicit? && tool == WRITE_FILES && g.paths.Some? && !env.pathsAuthorized(n, g.paths.value) then None
      else Some(n)
  }

  function Charged(s: State, cap: Capability, tool: Tool, admission: Admission): State {
    match admission
    case Free => s
    case Implicit =>
      var bought: map<Tool, nat> := if cap in s.spent then s.spent[cap] else map[];
      s.(spent := s.spent[cap := bought[tool := Spent(s, cap, tool) + 1]])
    case Permitted(_) => s.(rejected := s.rejected - {cap}, inFlight := s.inFlight + {cap},
      consumed := s.consumed + {cap})
  }

  /** `handle` for a tool call, up to the call of the executor. */
  function Admit(env: Environment, s: State, cap: Capability, tool: Tool, input: Json, now: int,
      later: int): (State, Decision) {
    var (s', grant) := Active(s, cap, now, later);
    if grant.None? then (s', Denied(UnknownCapability))
    else if tool !in grant.value.allowed then (s', Denied(ToolUnavailable))
    else
      match Permission(env, s', cap, grant.value, tool, input)
      case Denied(why) => (s', Denied(why))
      case Started(admission, _) =>
        match Validated(env, grant.value, admission, tool, input)
        case None =>
          (if admission.Permitted? then s'.(rejected := s'.rejected + {cap}) else s', Denied(InvalidInput))
        case Some(n) => (Charged(s', cap, tool, admission), Started(admission, n))
  }

  // The server.

  class AgentMcpServer {
    const env: Environment
    const ttlMs: nat
    var grants: map<Capability, Grant>
    var inFlight: set<Capability>
    var consumed: set<Capability>
    var rejected: set<Capability>
    var spent: map<Capability, map<Tool, nat>>

    function View(): State
      reads this
    {
      State(grants, inFlight, consumed, rejected, spent)
    }

    constructor (env: Environment, ttlMs: nat)
      ensures this.env == env && this.ttlMs == ttlMs && View() == State(map[], {}, {}, {}, map[])
    {
      this.env, this.ttlMs := env, ttlMs;
      grants, inFlight, consumed, rejected, spent := map[], {}, {}, {}, map[];
    }

    /** `grant`, with a capability not used before. */
    method Issue(cap: Capability, terms: Grant, now: int) returns (ok: bool)
      requires cap !in grants
      modifies this
      ensures ok == GrantAccepted(env, terms)
      ensures View() == if ok then old(View()).(grants := old(grants)[cap := terms.(expiresAt := now + ttlMs)])
              else old(View())
    {
      if !GrantAccepted(env, terms) {
        return false;
      }
      grants := grants[cap := terms.(expiresAt := now + ttlMs)];
      return true;
    }

    method Revoke(cap: Capability)
      modifies this
      ensures View() == Revoked(old(View()), {cap})
    {
      grants := grants - {cap};
      inFlight := inFlight - {cap};
      consumed := consumed - {cap};
      rejected := rejected - {cap};
      spent := spent - {cap};
    }

    method RevokeEach(caps: set<Capability>)
      modifies this
      ensures View() == Revoked(old(View()), caps)
    {
      var left := caps;
      while left != {}
        invariant left <= caps && View() == Revoked(old(View()), caps - left)
      {
        var cap :| cap in left;
        Revoke(cap);
        left := left - {cap};
        assert caps - left == (caps - (left + {cap})) + {cap};
      }
      assert caps - {} == caps;
    }

    method RevokeConversation(conversation: Text)
      modifies this
      ensures View() == Revoked(old(View()), InConversation(old(View()), conversation))
    {
      RevokeEach(InConversation(View(), conversation));
    }

    method RevokeSessionGeneration(conversation: Text, generation: nat)
      modifies this
      ensures View() == Revoked(old(View()), InGeneration(old(View()), conversation, generation))
    {
      RevokeEach(InGeneration(View(), conversation, generation));
    }

    method RevokeAll()
      modifies this
      ensures View() == State(map[], {}, {}, {}, map[])
    {
      grants, inFlight, consumed, rejected, spent := map[], {}, {}, {}, map[];
    }

    /** Expired grants met on the way are dropped without their counters. */
    method HasActiveConversation(conversations: set<Text>, now: int)
        returns (found: bool, ghost dropped: set<Capability>)
      modifies this`grants
      ensures found <==> exists cap | cap in old(grants) ::
              old(grants)[cap].expiresAt > now && old(grants)[cap].conversation in conversations
      ensures grants == old(grants) - dropped
      ensures forall cap | cap in dropped :: cap in old(grants) && old(grants)[cap].expiresAt <= now
    {
      var left := grants.Keys;
      dropped := {};
      while left != {}
        invariant left <= grants.Keys && grants == old(grants) - dropped
        invariant forall cap | cap in dropped :: cap in old(grants) && old(grants)[cap].expiresAt <= now
        invariant forall cap | cap in old(grants) && cap !in left ::
                    !(old(grants)[cap].expiresAt > now && old(grants)[cap].conversation in conversations)
      {
        var cap :| cap in left;
        left := left - {cap};
        if grants[cap].expiresAt <= now {
          grants := grants - {cap};
          dropped := dropped + {cap};
        } else if grants[cap].conversation in conversations {
          return true, dropped;
        }
      }
      return false, dropped;
    }

    method ActiveGrant(cap: Capability, now: int, later: int) returns (grant: Option<Grant>)
      modifies this
      ensures (View(), grant) == Active(old(View()), cap, now, later)
    {
      if cap !in grants {
        return None;
      }
      var g := grants[cap];
      if g.expiresAt <= now {
        Revoke(cap);
      }
      return if g.expiresAt > later then Some(g) else None;
    }

    method AuthorizeConsequentialOperation(cap: Capability, c: Commitment, now: int, later: int) returns (ok: bool)
      requires now <= later
      modifies this
      ensures (View(), ok) == Authorized(env, old(View()), cap, c, now, later)
    {
      var found := ActiveGrant(cap, now, later);
      if found.None? || c.tool !in found.value.allowed || c.tool !in env.consequential || !HexDigest(c.digest)
          || cap in consumed {
        return false;
      }
      var grant := found.value;
      if grant.commitment.Some? {
        if grant.commitment == Some(c) {
          return true;
        }
        if cap !in rejected {
          Revoke(cap);
          return false;
        }
      }
      rejected := rejected - {cap};
      grants := grants[cap := grant.(commitment := Some(c))];
      return true;
    }

    /** A tool call up to the executor, which runs exactly when the decision is Started. */
    method HandleToolCall(cap: Capability, tool: Tool, input: Json, now: int, later: int) returns (decision: Decision)
      modifies this
      ensures (View(), decision) == Admit(env, old(View()), cap, tool, input, now, later)
    {
      hide OperationDigest, Active, WRITE_FILES;
      var found := ActiveGrant(cap, now, later);
      if found.None? {
        return Denied(UnknownCapability);
      }
      var grant := found.value;
      if tool !in grant.allowed {
        return Denied(ToolUnavailable);
      }
      var consequential := tool in env.consequential;
      var implicitBudget := if consequential && grant.explicit && tool in grant.budgets then grant.budgets[tool] else 0;
      var implicit := consequential && grant.explicit && implicitBudget > 0;
      var commitment: Option<Commitment> := None;
      if implicit && Spent(View(), cap, tool) >= implicitBudget {
        return Denied(BudgetConsumed);
      }
      if consequential && !implicit && cap in consumed {
        return Denied(OperationConsumed);
      }
      if consequential && !implicit {
        var digest := OperationDigest(env, tool, input);
        if digest.Some? {
          commitment := Some(Commitment(tool, digest.value));
        }
        if commitment.None? || grant.commitment != commitment {
          return Denied(NeedsPermission);
        }
      }
      var normalized := env.normalize(tool, input);
      if normalized.None?
         || (implicit && tool == WRITE_FILES && grant.paths.Some?
            && !env.pathsAuthorized(normalized.value, grant.paths.value)) {
        if consequential && !implicit {
          rejected := rejected + {cap};
        }
        return Denied(InvalidInput);
      }
      if implicit {
        var bought: map<Tool, nat> := if cap in spent then spent[cap] else map[];
        spent := spent[cap := bought[tool := Spent(View(), cap, tool) + 1]];
        return Started(Implicit, normalized.value);
      } else if consequential {
        rejected := rejected - {cap};
        inFlight := inFlight + {cap};
        consumed := consumed + {cap};
        return Started(Permitted(commitment.value.digest), normalized.value);
      }
      return Started(Free, normalized.value);
    }

    /** What runs when the executor's promise settles. */
    method FinishToolCall(cap: Capability, permitted: bool)
      modifies this
      ensures View() == if permitted then old(View()).(inFlight := old(inFlight) - {cap}) else old(View())
    {
      if permitted {
        inFlight := inFlight - {cap};
      }
    }
  }
}
