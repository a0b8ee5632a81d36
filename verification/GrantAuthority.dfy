/** app/runtime/execution_authority.py: single-use, short-lived execution grants. The MAC is
    ideal: a signature verifies exactly when it is over the presented fields and this
    authority issued them. Grant ids are drawn from a counter, which makes them fresh. */
module GrantAuthority {
  import opened Prelude
  import opened Binding
  import E = EnforcementPlane

  datatype IssuancePlane = ADMINISTRATIVE | ENFORCEMENT

  const MAX_GRANT_TTL: Time := 30 * SECOND

  datatype Grant = Grant(
    id: nat,
    authorityId: string,
    agentId: string,
    sessionId: string,
    binding: ExecutionBinding,
    issuedAt: Time,
    expiresAt: Time,
    profileId: Option<string>,
    digest: Option<string>)

  datatype Signature = Over(payload: Grant) | Garbage

  /** What a caller presents: nothing, some other object, or a grant with a signature. */
  datatype Token = NoGrant | NotAGrant | Signed(grant: Grant, signature: Signature)

  datatype Outstanding = Outstanding(expiresAt: Time, agentId: string, sessionId: string)

  datatype Refusal =
    | MISSING_GRANT
    | MALFORMED_GRANT
    | FOREIGN_AUTHORITY
    | INVALID_SIGNATURE
    | EXPIRED
    | REVOKED
    | CONSUMED
    | IDENTITY_MISMATCH
    | TOOL_MISMATCH
    | RESOURCE_MISMATCH
    | PARAMETER_MISMATCH

  /** What `issue` is asked for, apart from the decision and the epoch check. */
  datatype Request = Request(
    binding: ExecutionBinding,
    agentId: string,
    sessionId: string,
    profileId: Option<string>,
    digest: Option<string>)

  datatype Authority = Authority(
    authorityId: string,
    ttl: Time,
    issued: map<nat, Grant>,
    nextId: nat,
    outstanding: map<nat, Outstanding>,
    revoked: map<nat, Time>,
    closed: map<string, set<IssuancePlane>>)

  function ClosedPlanes(closed: map<string, set<IssuancePlane>>, agent: string): set<IssuancePlane> {
    if agent in closed then closed[agent] else {}
  }

  // ---- the operations as functions -----------------------------------------------------------

  /** `_prune` */
  function Prune(a: Authority, now: Time): Authority {
    a.(outstanding := map id | id in a.outstanding && a.outstanding[id].expiresAt > now :: a.outstanding[id],
       revoked := map id | id in a.revoked && a.revoked[id] > now :: a.revoked[id])
  }

  function NewGrant(authorityId: string, ttl: Time, id: nat, r: Request, now: Time): Grant {
    Grant(id, authorityId, r.agentId, r.sessionId, r.binding, now, now + ttl, r.profileId, r.digest)
  }

  /** `_create_grant` */
  function CreateGrant(a: Authority, r: Request, now: Time): (Authority, Grant) {
    var b := Prune(a, now);
    var g := NewGrant(b.authorityId, b.ttl, b.nextId, r, now);
    (b.(issued := b.issued[g.id := g], nextId := b.nextId + 1,
        outstanding := b.outstanding[g.id := Outstanding(g.expiresAt, g.agentId, g.sessionId)]), g)
  }

  /** The three conditions of `issue`. `currentEpoch` is absent without a repository. */
  predicate MayIssue(closed: map<string, set<IssuancePlane>>, agent: string, decision: Decision,
                     expectedEpoch: Option<nat>, currentEpoch: Option<nat>)
  {
    && decision == ALLOW
    && ClosedPlanes(closed, agent) == {}
    && (expectedEpoch.Some? && currentEpoch.Some? ==> expectedEpoch == currentEpoch)
  }

  function Issue(a: Authority, r: Request, decision: Decision, expectedEpoch: Option<nat>,
                 currentEpoch: Option<nat>, now: Time): (Authority, Option<Grant>)
  {
    if !MayIssue(a.closed, r.agentId, decision, expectedEpoch, currentEpoch) then (a, None)
    else
      var (b, g) := CreateGrant(a, r, now);
      (b, Some(g))
  }

  /** `_verify_authenticity` */
  function Authenticity(authorityId: string, issued: map<nat, Grant>, token: Token): Option<Refusal> {
    match token
    case NoGrant => Some(MISSING_GRANT)
    case NotAGrant => Some(MALFORMED_GRANT)
    case Signed(g, signature) =>
      if g.authorityId != authorityId then Some(FOREIGN_AUTHORITY)
      else if signature == Over(g) && g.id in issued && issued[g.id] == g then None
      else Some(INVALID_SIGNATURE)
  }

  /** `_require_exact_match` */
  function Mismatch(authorized: ExecutionBinding, requested: ExecutionBinding): Option<Refusal> {
    if requested.toolId != authorized.toolId then Some(TOOL_MISMATCH)
    else if requested.toolVersion != authorized.toolVersion then Some(TOOL_MISMATCH)
    else if requested.resource != authorized.resource then Some(RESOURCE_MISMATCH)
    else if requested.parameters != authorized.parameters then Some(PARAMETER_MISMATCH)
    else None
  }

  /** `_require_claimable_locked` */
  function Claimable(a: Authority, g: Grant, requested: ExecutionBinding, now: Time): (Authority, Option<Refusal>) {
    var b := Prune(a, now);
    if now >= g.expiresAt then (b.(outstanding := b.outstanding - {g.id}), Some(EXPIRED))
    else if g.id in b.revoked then (b, Some(REVOKED))
    else if g.id !in b.outstanding then (b, Some(CONSUMED))
    else if b.outstanding[g.id].agentId != g.agentId || b.outstanding[g.id].sessionId != g.sessionId
    then (b, Some(IDENTITY_MISMATCH))
    else (b, Mismatch(g.binding, requested))
  }

  function Verify(a: Authority, token: Token, requested: ExecutionBinding, now: Time): (Authority, Option<Refusal>) {
    var refusal := Authenticity(a.authorityId, a.issued, token);
    if refusal.Some? then (a, refusal) else Claimable(a, token.grant, requested, now)
  }

  /** `claim_grant` */
  function Claim(a: Authority, token: Token, requested: ExecutionBinding, now: Time): (Authority, Option<Refusal>) {
    var (b, refusal) := Verify(a, token, requested, now);
    if refusal.Some? then (b, refusal)
    else (b.(outstanding := b.outstanding - {token.grant.id}), None)
  }

  function Consume(a: Authority, id: nat): Authority {
    a.(outstanding := a.outstanding - {id})
  }

  function OutstandingOf(a: Authority, agent: string): set<nat> {
    set id | id in a.outstanding && a.outstanding[id].agentId == agent
  }

  /** `suspend_issuance`: the state afterwards and how many grants were revoked. */
  function SuspendIssuance(a: Authority, agent: string, plane: IssuancePlane): (Authority, nat) {
    var ids := OutstandingOf(a, agent);
    (a.(closed := a.closed[agent := ClosedPlanes(a.closed, agent) + {plane}],
        outstanding := a.outstanding - ids,
        revoked := a.revoked + ExpiryOf(a.outstanding, ids)), |ids|)
  }

  function ExpiryOf(outstanding: map<nat, Outstanding>, ids: set<nat>): map<nat, Time>
    requires ids <= outstanding.Keys
  {
    map id | id in ids :: outstanding[id].expiresAt
  }

  /** `resume_issuance` */
  function Reopen(closed: map<string, set<IssuancePlane>>, agent: string, plane: IssuancePlane)
    : map<string, set<IssuancePlane>>
  {
    var left := ClosedPlanes(closed, agent) - {plane};
    if left == {} then closed - {agent} else closed[agent := left]
  }

  function ResumeIssuance(a: Authority, agent: string, plane: IssuancePlane): Authority {
    a.(closed := Reopen(a.closed, agent, plane))
  }

  // ---- the service ------------------------------------------------------------------------------

  class ExecutionAuthority {
    const authorityId: string
    const ttl: Time
    const enforcementRepository: E.InMemoryEnforcementStateRepository?
    var issued: map<nat, Grant>
    var nextId: nat
    var outstanding: map<nat, Outstanding>
    var revoked: map<nat, Time>
    var issuanceClosed: map<string, set<IssuancePlane>>

    ghost function View(): Authority
      reads this
    {
      Authority(authorityId, ttl, issued, nextId, outstanding, revoked, issuanceClosed)
    }

    constructor (authorityId: string, ttl: Time, enforcementRepository: E.InMemoryEnforcementStateRepository?)
      requires 0 < ttl <= MAX_GRANT_TTL
      ensures View() == Authority(authorityId, ttl, map[], 0, map[], map[], map[])
      ensures this.enforcementRepository == enforcementRepository
    {
      this.authorityId, this.ttl, this.enforcementRepository := authorityId, ttl, enforcementRepository;
      issued, nextId, outstanding, revoked, issuanceClosed := map[], 0, map[], map[], map[];
    }

    /** The constructor's own refusals, as a result. */
    static method Create(authorityId: string, ttl: Time, repository: E.InMemoryEnforcementStateRepository?)
      returns (r: Result<ExecutionAuthority, string>)
      ensures r.Ok? <==> 0 < ttl <= MAX_GRANT_TTL
      ensures r.Ok? ==> fresh(r.value) && r.value.enforcementRepository == repository
                        && r.value.View() == Authority(authorityId, ttl, map[], 0, map[], map[], map[])
    {
      if ttl <= 0 {
        return Err("ttl_seconds must be positive");
      }
      if ttl > MAX_GRANT_TTL {
        return Err("ttl_seconds must not exceed the maximum");
      }
      var authority := new ExecutionAuthority(authorityId, ttl, repository);
      r := Ok(authority);
    }

    method PruneExpired(now: Time)
      modifies this`outstanding, this`revoked
      ensures View() == Prune(old(View()), now)
    {
      var expired := set id | id in outstanding && outstanding[id].expiresAt <= now;
      while expired != {}
        invariant revoked == old(revoked)
        invariant forall id :: id in expired ==> id in outstanding && outstanding[id].expiresAt <= now
        invariant forall id :: id in old(outstanding) ==>
                    id in outstanding || old(outstanding)[id].expiresAt <= now
        invariant forall id :: id in outstanding ==>
                    && id in old(outstanding) && outstanding[id] == old(outstanding)[id]
                    && (outstanding[id].expiresAt <= now ==> id in expired)
        decreases expired
      {
        var id :| id in expired;
        outstanding := outstanding - {id};
        expired := expired - {id};
      }
      var expiredRevoked := set id | id in revoked && revoked[id] <= now;
      revoked := revoked - expiredRevoked;
      assert View().outstanding == Prune(old(View()), now).outstanding;
      assert View().revoked == Prune(old(View()), now).revoked;
    }

    method IssueGrant(r: Request, decision: Decision, expectedEpoch: Option<nat>, now: Time)
      returns (grant: Option<Grant>)
      modifies this
      ensures (View(), grant)
              == Issue(old(View()), r, decision, expectedEpoch,
                       if enforcementRepository == null then None
                       else Some(old(E.StateOf(enforcementRepository.View(), r.agentId).epoch)), now)
    {
      if decision != ALLOW {
        return None;
      }
      if r.agentId in issuanceClosed && issuanceClosed[r.agentId] != {} {
        return None;
      }
      if expectedEpoch.Some? && enforcementRepository != null {
        var persisted := enforcementRepository.GetState(r.agentId);
        var currentEpoch := if persisted.Some? then persisted.value.epoch else 0;
        if currentEpoch != expectedEpoch.value {
          return None;
        }
      }
      PruneExpired(now);
      var g := NewGrant(authorityId, ttl, nextId, r, now);
      issued := issued[g.id := g];
      nextId := nextId + 1;
      outstanding := outstanding[g.id := Outstanding(g.expiresAt, g.agentId, g.sessionId)];
      grant := Some(g);
    }

    method RequireClaimable(g: Grant, requested: ExecutionBinding, now: Time) returns (refusal: Option<Refusal>)
      modifies this`outstanding, this`revoked
      ensures (View(), refusal) == Claimable(old(View()), g, requested, now)
    {
      PruneExpired(now);
      if now >= g.expiresAt {
        outstanding := outstanding - {g.id};
        return Some(EXPIRED);
      }
      if g.id in revoked {
        return Some(REVOKED);
      }
      if g.id !in outstanding {
        return Some(CONSUMED);
      }
      if outstanding[g.id].agentId != g.agentId || outstanding[g.id].sessionId != g.sessionId {
        return Some(IDENTITY_MISMATCH);
      }
      refusal := Mismatch(g.binding, requested);
    }

    method VerifyGrant(token: Token, requested: ExecutionBinding, now: Time) returns (refusal: Option<Refusal>)
      modifies this`outstanding, this`revoked
      ensures (View(), refusal) == Verify(old(View()), token, requested, now)
    {
      refusal := Authenticity(authorityId, issued, token);
      if refusal.None? {
        refusal := RequireClaimable(token.grant, requested, now);
      }
    }

    method ClaimGrant(token: Token, requested: ExecutionBinding, now: Time) returns (refusal: Option<Refusal>)
      modifies this`outstanding, this`revoked
      ensures (View(), refusal) == Claim(old(View()), token, requested, now)
    {
      refusal := Authenticity(authorityId, issued, token);
      if refusal.None? {
        refusal := RequireClaimable(token.grant, requested, now);
        if refusal.None? {
          outstanding := outstanding - {token.grant.id};
        }
      }
    }

    method ConsumeGrant(id: nat)
      modifies this`outstanding
      ensures View() == Consume(old(View()), id)
    {
      if id in outstanding {
        outstanding := outstanding - {id};
      }
      assert outstanding == old(outstanding) - {id};
    }

    method Suspend(agent: string, plane: IssuancePlane) returns (count: nat)
      modifies this`outstanding, this`revoked, this`issuanceClosed
      ensures (View(), count) == SuspendIssuance(old(View()), agent, plane)
    {
      issuanceClosed := issuanceClosed[agent := ClosedPlanes(issuanceClosed, agent) + {plane}];
      var ids := set id | id in outstanding && outstanding[id].agentId == agent;
      RevokeGrants(ids);
      count := |ids|;
      assert ids == OutstandingOf(old(View()), agent);
    }

    /** The revocation loop of `suspend_issuance`. */
    method RevokeGrants(ids: set<nat>)
      requires ids <= outstanding.Keys
      modifies this`outstanding, this`revoked
      ensures outstanding == old(outstanding) - ids
      ensures revoked == old(revoked) + ExpiryOf(old(outstanding), ids)
    {
      var left := ids;
      assert ids - left == {};
      while left != {}
        invariant left <= ids
        invariant outstanding == old(outstanding) - (ids - left)
        invariant revoked == old(revoked) + ExpiryOf(old(outstanding), ids - left)
        decreases left
      {
        var id :| id in left;
        revoked := revoked[id := outstanding[id].expiresAt];
        outstanding := outstanding - {id};
        assert ids - (left - {id}) == (ids - left) + {id};
        left := left - {id};
      }
      assert ids - left == ids;
    }

    method Resume(agent: string, plane: IssuancePlane)
      modifies this`issuanceClosed
      ensures View() == ResumeIssuance(old(View()), agent, plane)
    {
      if agent !in issuanceClosed {
        assert issuanceClosed - {agent} == issuanceClosed;
        return;
      }
      var left := issuanceClosed[agent] - {plane};
      if left == {} {
        issuanceClosed := issuanceClosed - {agent};
      } else {
        issuanceClosed := issuanceClosed[agent := left];
      }
    }

    method IssuanceClosedPlanes(agent: string) returns (planes: set<IssuancePlane>)
      ensures planes == ClosedPlanes(View().closed, agent)
    {
      planes := if agent in issuanceClosed then issuanceClosed[agent] else {};
    }

    method OutstandingGrantCount(now: Time) returns (count: nat)
      modifies this`outstanding, this`revoked
      ensures View() == Prune(old(View()), now) && count == |View().outstanding|
    {
      PruneExpired(now);
      count := |outstanding|;
    }
  }
}
