/** The authority forgets expired grants. This ledger never forgets, and every run of the
    authority answers as the ledger does. */
module GrantLedger {
  import opened Prelude
  import opened Binding
  import opened GrantAuthority

  datatype Ledger = Ledger(
    authorityId: string,
    ttl: Time,
    issued: map<nat, Grant>,
    nextId: nat,
    used: set<nat>,
    withdrawn: set<nat>,
    closed: map<string, set<IssuancePlane>>)

  /** Issued to the agent and neither used nor withdrawn, however long ago. */
  predicate Live(l: Ledger, id: nat) {
    id in l.issued && id !in l.used && id !in l.withdrawn
  }

  function LiveOf(l: Ledger, agent: string): set<nat> {
    set id | id in l.issued && Live(l, id) && l.issued[id].agentId == agent
  }

  predicate Genuine(l: Ledger, token: Token) {
    token.Signed? && token.signature == Over(token.grant)
    && token.grant.id in l.issued && l.issued[token.grant.id] == token.grant
  }

  /** The ledger's answer to a presented token. */
  function Answer(l: Ledger, token: Token, requested: ExecutionBinding, now: Time): Option<Refusal> {
    var refusal := Authenticity(l.authorityId, l.issued, token);
    if refusal.Some? then refusal
    else if now >= token.grant.expiresAt then Some(EXPIRED)
    else if token.grant.id in l.withdrawn then Some(REVOKED)
    else if token.grant.id in l.used then Some(CONSUMED)
    else Mismatch(token.grant.binding, requested)
  }

  datatype Step =
    | Ask(request: Request, decision: Decision, expectedEpoch: Option<nat>, currentEpoch: Option<nat>)
    | Check(token: Token, requested: ExecutionBinding)
    | Take(token: Token, requested: ExecutionBinding)
    | Remove(id: nat)
    | Close(agent: string, plane: IssuancePlane)
    | Open(agent: string, plane: IssuancePlane)
    | CountOutstanding

  datatype Reply = Granted(grant: Option<Grant>) | Checked(refusal: Option<Refusal>) | Counted(count: nat) | Done

  function AuthorityStep(a: Authority, step: Step, now: Time): (Authority, Reply) {
    match step
    case Ask(r, decision, expected, current) =>
      var (b, g) := Issue(a, r, decision, expected, current, now);
      (b, Granted(g))
    case Check(token, requested) =>
      var (b, refusal) := Verify(a, token, requested, now);
      (b, Checked(refusal))
    case Take(token, requested) =>
      var (b, refusal) := Claim(a, token, requested, now);
      (b, Checked(refusal))
    case Remove(id) => (Consume(a, id), Done)
    case Close(agent, plane) => (SuspendIssuance(a, agent, plane).0, Done)
    case Open(agent, plane) => (ResumeIssuance(a, agent, plane), Done)
    case CountOutstanding => (Prune(a, now), Counted(|Prune(a, now).outstanding|))
  }

  function LedgerStep(l: Ledger, step: Step, now: Time): (Ledger, Reply) {
    match step
    case Ask(r, decision, expected, current) =>
      if !MayIssue(l.closed, r.agentId, decision, expected, current) then (l, Granted(None))
      else
        var g := NewGrant(l.authorityId, l.ttl, l.nextId, r, now);
        (l.(issued := l.issued[g.id := g], nextId := l.nextId + 1), Granted(Some(g)))
    case Check(token, requested) => (l, Checked(Answer(l, token, requested, now)))
    case Take(token, requested) =>
      var refusal := Answer(l, token, requested, now);
      (if refusal.None? then l.(used := l.used + {token.grant.id}) else l, Checked(refusal))
    case Remove(id) => (if Live(l, id) then l.(used := l.used + {id}) else l, Done)
    case Close(agent, plane) =>
      (l.(closed := l.closed[agent := ClosedPlanes(l.closed, agent) + {plane}],
          withdrawn := l.withdrawn + LiveOf(l, agent)), Done)
    case Open(agent, plane) => (l.(closed := Reopen(l.closed, agent, plane)), Done)
    case CountOutstanding =>
      (l, Counted(|set id | id in l.issued && Live(l, id) && l.issued[id].expiresAt > now|))
  }

  /** A run: each step is taken `elapsed` after the one before it. */
  function AuthorityRun(a: Authority, clock: Time, steps: seq<(nat, Step)>): (run: (Authority, Time, seq<Reply>))
    ensures |run.2| == |steps|
  {
    if steps == [] then (a, clock, [])
    else
      var (b, t, replies) := AuthorityRun(a, clock, steps[..|steps| - 1]);
      var (elapsed, step) := steps[|steps| - 1];
      var (c, reply) := AuthorityStep(b, step, t + elapsed);
      (c, t + elapsed, replies + [reply])
  }

  function LedgerRun(l: Ledger, clock: Time, steps: seq<(nat, Step)>): (run: (Ledger, Time, seq<Reply>))
    ensures |run.2| == |steps|
  {
    if steps == [] then (l, clock, [])
    else
      var (m, t, replies) := LedgerRun(l, clock, steps[..|steps| - 1]);
      var (elapsed, step) := steps[|steps| - 1];
      var (n, reply) := LedgerStep(m, step, t + elapsed);
      (n, t + elapsed, replies + [reply])
  }

  function NewAuthority(authorityId: string, ttl: Time): Authority {
    Authority(authorityId, ttl, map[], 0, map[], map[], map[])
  }

  function NewLedger(authorityId: string, ttl: Time): Ledger {
    Ledger(authorityId, ttl, map[], 0, {}, {}, map[])
  }

  // ---- what the ledger keeps -----------------------------------------------------------------

  ghost predicate LedgerSound(l: Ledger, clock: Time) {
    && (forall id :: id in l.issued ==>
          && id < l.nextId
          && l.issued[id].id == id
          && l.issued[id].authorityId == l.authorityId
          && l.issued[id].issuedAt <= clock
          && l.issued[id].expiresAt == l.issued[id].issuedAt + l.ttl)
    && l.used <= l.issued.Keys && l.withdrawn <= l.issued.Keys && l.used !! l.withdrawn
    && (forall id :: id in l.issued && Live(l, id) ==> ClosedPlanes(l.closed, l.issued[id].agentId) == {})
  }

  lemma LedgerStepKeepsSound(l: Ledger, step: Step, clock: Time, now: Time)
    requires LedgerSound(l, clock) && clock <= now
    ensures LedgerSound(LedgerStep(l, step, now).0, now)
    ensures var m := LedgerStep(l, step, now).0;
            && l.used <= m.used && l.withdrawn <= m.withdrawn
            && l.issued.Keys <= m.issued.Keys && (forall id :: id in l.issued ==> m.issued[id] == l.issued[id])
  {
    hide Authenticity, Mismatch;
    if step.Take? && Answer(l, step.token, step.requested, now).None? {
      AcceptedIsLive(l, step.token, step.requested, now);
      hide Answer;
    }
  }

  lemma AcceptedIsLive(l: Ledger, token: Token, requested: ExecutionBinding, now: Time)
    requires Answer(l, token, requested, now).None?
    ensures token.Signed? && Live(l, token.grant.id)
  {
  }

  // ---- refinement ---------------------------------------------------------------------------------

  /** The authority remembers of the ledger exactly what expires after `horizon`, the moment
      it last pruned. */
  ghost predicate Remembers(a: Authority, l: Ledger, horizon: Time) {
    && a.authorityId == l.authorityId && a.ttl == l.ttl
    && a.issued == l.issued && a.nextId == l.nextId && a.closed == l.closed
    && (forall id :: id in a.outstanding <==> id in l.issued && Live(l, id) && l.issued[id].expiresAt > horizon)
    && (forall id :: id in a.outstanding ==>
          a.outstanding[id] == Outstanding(l.issued[id].expiresAt, l.issued[id].agentId, l.issued[id].sessionId))
    && (forall id :: id in a.revoked <==> id in l.issued && id in l.withdrawn && l.issued[id].expiresAt > horizon)
    && (forall id :: id in a.revoked ==> a.revoked[id] == l.issued[id].expiresAt)
  }

  lemma PruneRemembers(a: Authority, l: Ledger, horizon: Time, now: Time)
    requires Remembers(a, l, horizon) && horizon <= now
    ensures Remembers(Prune(a, now), l, now)
  {
  }

  /** The verdict on an authentic grant, once pruned to the present, is the ledger's. */
  lemma ClaimableIsAnswer(a: Authority, l: Ledger, horizon: Time, clock: Time, token: Token,
                          requested: ExecutionBinding, now: Time)
    requires Remembers(a, l, horizon) && horizon <= now && LedgerSound(l, clock)
    requires Authenticity(a.authorityId, a.issued, token).None?
    ensures var (b, refusal) := Claimable(a, token.grant, requested, now);
            refusal == Answer(l, token, requested, now) && Remembers(b, l, now)
  {
    PruneRemembers(a, l, horizon, now);
  }

  lemma AskRefines(a: Authority, l: Ledger, horizon: Time, clock: Time, step: Step, now: Time)
    requires step.Ask? && Remembers(a, l, horizon) && horizon <= now && LedgerSound(l, clock) && clock <= now
    requires a.ttl > 0
    ensures AuthorityStep(a, step, now).1 == LedgerStep(l, step, now).1
    ensures Remembers(AuthorityStep(a, step, now).0, LedgerStep(l, step, now).0, horizon)
            || Remembers(AuthorityStep(a, step, now).0, LedgerStep(l, step, now).0, now)
  {
    PruneRemembers(a, l, horizon, now);
  }

  lemma CloseRefines(a: Authority, l: Ledger, horizon: Time, agent: string, plane: IssuancePlane, now: Time)
    requires Remembers(a, l, horizon)
    ensures Remembers(SuspendIssuance(a, agent, plane).0, LedgerStep(l, Close(agent, plane), now).0, horizon)
  {
  }

  lemma CountRefines(a: Authority, l: Ledger, horizon: Time, now: Time)
    requires Remembers(a, l, horizon) && horizon <= now
    ensures |Prune(a, now).outstanding| == |set id | id in l.issued && Live(l, id) && l.issued[id].expiresAt > now|
  {
    PruneRemembers(a, l, horizon, now);
    var kept := set id | id in l.issued && Live(l, id) && l.issued[id].expiresAt > now;
    assert Prune(a, now).outstanding.Keys == kept;
  }

  lemma VerifyRefines(a: Authority, l: Ledger, horizon: Time, clock: Time, token: Token,
                      requested: ExecutionBinding, now: Time) returns (newHorizon: Time)
    requires Remembers(a, l, horizon) && horizon <= clock <= now && LedgerSound(l, clock)
    ensures horizon <= newHorizon <= now
    ensures Verify(a, token, requested, now).1 == Answer(l, token, requested, now)
    ensures Remembers(Verify(a, token, requested, now).0, l, newHorizon)
    ensures Answer(l, token, requested, now).None? ==> token.Signed? && token.grant.id in l.issued
  {
    if Authenticity(a.authorityId, a.issued, token).None? {
      ClaimableIsAnswer(a, l, horizon, clock, token, requested, now);
      newHorizon := now;
    } else {
      newHorizon := horizon;
    }
  }

  lemma TakeRefines(a: Authority, l: Ledger, horizon: Time, clock: Time, token: Token,
                    requested: ExecutionBinding, now: Time) returns (newHorizon: Time)
    requires Remembers(a, l, horizon) && horizon <= clock <= now && LedgerSound(l, clock)
    ensures horizon <= newHorizon <= now
    ensures Claim(a, token, requested, now).1 == Answer(l, token, requested, now)
    ensures Remembers(Claim(a, token, requested, now).0, LedgerStep(l, Take(token, requested), now).0, newHorizon)
  {
    hide Answer, Verify;
    newHorizon := VerifyRefines(a, l, horizon, clock, token, requested, now);
  }

  lemma RemoveRefines(a: Authority, l: Ledger, horizon: Time, id: nat)
    requires Remembers(a, l, horizon)
    ensures Remembers(Consume(a, id), if Live(l, id) then l.(used := l.used + {id}) else l, horizon)
  {
  }

  lemma OpenRefines(a: Authority, l: Ledger, horizon: Time, agent: string, plane: IssuancePlane)
    requires Remembers(a, l, horizon)
    ensures Remembers(ResumeIssuance(a, agent, plane), l.(closed := Reopen(l.closed, agent, plane)), horizon)
  {
  }

  lemma StepRefines(a: Authority, l: Ledger, horizon: Time, clock: Time, step: Step, now: Time) returns (newHorizon: Time)
    requires Remembers(a, l, horizon) && horizon <= clock <= now && LedgerSound(l, clock) && a.ttl > 0
    ensures horizon <= newHorizon <= now
    ensures AuthorityStep(a, step, now).1 == LedgerStep(l, step, now).1
    ensures Remembers(AuthorityStep(a, step, now).0, LedgerStep(l, step, now).0, newHorizon)
  {
    hide Answer, Prune, Verify, Claim, Consume, Issue, SuspendIssuance, Remembers, LedgerSound;
    newHorizon := horizon;
    match step
    case Ask(_, _, _, _) =>
      AskRefines(a, l, horizon, clock, step, now);
      newHorizon := if Remembers(AuthorityStep(a, step, now).0, LedgerStep(l, step, now).0, horizon)
                    then horizon else now;
    case Check(token, requested) =>
      newHorizon := VerifyRefines(a, l, horizon, clock, token, requested, now);
    case Take(token, requested) =>
      newHorizon := TakeRefines(a, l, horizon, clock, token, requested, now);
    case Remove(id) =>
      RemoveRefines(a, l, horizon, id);
    case Close(agent, plane) =>
      CloseRefines(a, l, horizon, agent, plane, now);
    case Open(agent, plane) =>
      OpenRefines(a, l, horizon, agent, plane);
    case CountOutstanding =>
      PruneRemembers(a, l, horizon, now);
      CountRefines(a, l, horizon, now);
      newHorizon := now;
  }

  /** Forgetting changes no answer. Every reply of any run of the authority is the reply of
      the ledger that never forgets, and what it still remembers is the unexpired part. */
  lemma {:induction false} ForgettingIsInvisible(authorityId: string, ttl: Time, clock: Time, steps: seq<(nat, Step)>)
    returns (horizon: Time)
    requires 0 < ttl
    ensures var (a, t, replies) := AuthorityRun(NewAuthority(authorityId, ttl), clock, steps);
            var (l, u, answers) := LedgerRun(NewLedger(authorityId, ttl), clock, steps);
            && replies == answers && t == u
            && horizon <= t && Remembers(a, l, horizon) && LedgerSound(l, t) && l.ttl == ttl
  {
    hide AuthorityStep, LedgerStep;
    horizon := clock;
    if steps != [] {
      var front := steps[..|steps| - 1];
      var (elapsed, step) := steps[|steps| - 1];
      var h := ForgettingIsInvisible(authorityId, ttl, clock, front);
      var (a, t, _) := AuthorityRun(NewAuthority(authorityId, ttl), clock, front);
      var (l, _, _) := LedgerRun(NewLedger(authorityId, ttl), clock, front);
      horizon := StepRefines(a, l, h, t, step, t + elapsed);
      LedgerStepKeepsSound(l, step, t, t + elapsed);
      LedgerStepKeepsTtl(l, step, t + elapsed);
    }
  }

  lemma LedgerStepKeepsTtl(l: Ledger, step: Step, now: Time)
    ensures LedgerStep(l, step, now).0.ttl == l.ttl
  {
  }

  /** An authority in a running system and the ledger it is answerable to. */
  ghost predicate Tracks(a: Authority, l: Ledger, clock: Time) {
    && LedgerSound(l, clock) && a.ttl > 0
    && exists h :: h <= clock && Remembers(a, l, h)
  }

  /** Later memory only adds. */
  ghost predicate Grows(l: Ledger, m: Ledger) {
    && l.used <= m.used && l.withdrawn <= m.withdrawn && l.issued.Keys <= m.issued.Keys
    && forall id :: id in l.issued ==> m.issued[id] == l.issued[id]
  }

  lemma StepTracks(a: Authority, l: Ledger, clock: Time, step: Step, now: Time)
    requires Tracks(a, l, clock) && clock <= now
    ensures Tracks(AuthorityStep(a, step, now).0, LedgerStep(l, step, now).0, now)
    ensures Grows(l, LedgerStep(l, step, now).0)
    ensures AuthorityStep(a, step, now).1 == LedgerStep(l, step, now).1
  {
    hide Remembers, LedgerSound, AuthorityStep, LedgerStep;
    var h :| h <= clock && Remembers(a, l, h);
    var later := StepRefines(a, l, h, clock, step, now);
    LedgerStepKeepsSound(l, step, clock, now);
    AuthorityStepKeepsTtl(a, step, now);
  }

  lemma AuthorityStepKeepsTtl(a: Authority, step: Step, now: Time)
    ensures AuthorityStep(a, step, now).0.ttl == a.ttl
  {
    hide Authenticity, Mismatch;
  }

  lemma TracksLater(a: Authority, l: Ledger, clock: Time, now: Time)
    requires Tracks(a, l, clock) && clock <= now
    ensures Tracks(a, l, now)
  {
    hide Remembers;
  }

  // ---- what the ledger's answers mean ---------------------------------------------------------------

  /** A genuine grant is refused EXPIRED exactly past its expiry; otherwise REVOKED exactly
      when withdrawn; otherwise CONSUMED exactly when used; otherwise it is claimable by its
      own binding and by no other. */
  lemma GenuineGrantAnswers(l: Ledger, clock: Time, token: Token, requested: ExecutionBinding, now: Time)
    requires LedgerSound(l, clock) && Genuine(l, token)
    ensures var g := token.grant;
            var answer := Answer(l, token, requested, now);
            && (answer == Some(EXPIRED) <==> now >= g.issuedAt + l.ttl)
            && (answer == Some(REVOKED) <==> now < g.expiresAt && g.id in l.withdrawn)
            && (answer == Some(CONSUMED) <==> now < g.expiresAt && g.id in l.used)
            && (answer == None <==> now < g.expiresAt && Live(l, g.id) && requested == g.binding)
            && answer != Some(IDENTITY_MISMATCH)
  {
  }

  /** Nothing but a genuine grant is ever accepted: a changed field, a foreign signature or
      another authority's grant is refused before any state is consulted. */
  lemma OnlyGenuineAccepted(l: Ledger, token: Token, requested: ExecutionBinding, now: Time)
    requires Answer(l, token, requested, now).None?
    ensures Genuine(l, token) && requested == token.grant.binding
  {
  }

  /** Every other refusal names its own cause: no grant, not a grant, another authority's, or one whose
      signature or fields are not what was issued; and, of a live grant in time, the first of tool,
      resource and parameters in which the operation requested differs. */
  lemma RefusalsNameCause(l: Ledger, clock: Time, token: Token, requested: ExecutionBinding, now: Time)
    requires LedgerSound(l, clock)
    ensures var answer := Answer(l, token, requested, now);
            && (answer == Some(MISSING_GRANT) <==> token.NoGrant?)
            && (answer == Some(MALFORMED_GRANT) <==> token.NotAGrant?)
            && (answer == Some(FOREIGN_AUTHORITY) <==> token.Signed? && token.grant.authorityId != l.authorityId)
            && (answer == Some(INVALID_SIGNATURE) <==>
                  token.Signed? && token.grant.authorityId == l.authorityId && !Genuine(l, token))
            && (Genuine(l, token) && Live(l, token.grant.id) && now < token.grant.expiresAt ==>
                  var b := token.grant.binding;
                  var tool := requested.toolId == b.toolId && requested.toolVersion == b.toolVersion;
                  && (answer == Some(TOOL_MISMATCH) <==> !tool)
                  && (answer == Some(RESOURCE_MISMATCH) <==> tool && requested.resource != b.resource)
                  && (answer == Some(PARAMETER_MISMATCH) <==>
                        tool && requested.resource == b.resource && requested.parameters != b.parameters))
  {
  }

  lemma {:induction false} LedgerHistory(l: Ledger, clock: Time, steps: seq<(nat, Step)>, i: nat)
    requires LedgerSound(l, clock) && i <= |steps|
    ensures var (m, t, early) := LedgerRun(l, clock, steps[..i]);
            var (n, u, replies) := LedgerRun(l, clock, steps);
            && LedgerSound(m, t) && LedgerSound(n, u) && t <= u
            && early == replies[..i]
            && m.used <= n.used && m.withdrawn <= n.withdrawn && m.issued.Keys <= n.issued.Keys
            && (forall id :: id in m.issued ==> n.issued[id] == m.issued[id])
            && m.ttl == n.ttl == l.ttl
            && (i < |steps| ==> replies[i] == LedgerStep(m, steps[i].1, t + steps[i].0).1)
  {
    hide LedgerStep;
    if steps == [] {
    } else {
      var front := steps[..|steps| - 1];
      var (elapsed, step) := steps[|steps| - 1];
      var (m, t, early) := LedgerRun(l, clock, front);
      if i == |steps| {
        LedgerHistory(l, clock, front, |front|);
        assert front[..|front|] == front && steps[..i] == steps;
      } else {
        LedgerHistory(l, clock, front, i);
        assert front[..i] == steps[..i];
      }
      LedgerStepKeepsSound(m, step, t, t + elapsed);
      LedgerStepKeepsTtl(m, step, t + elapsed);
    }
  }

  lemma OneMoreStep(l: Ledger, clock: Time, steps: seq<(nat, Step)>, i: nat)
    requires i < |steps|
    ensures var (m, t, _) := LedgerRun(l, clock, steps[..i]);
            var (n, u, _) := LedgerRun(l, clock, steps[..i + 1]);
            n == LedgerStep(m, steps[i].1, t + steps[i].0).0 && u == t + steps[i].0
  {
    assert steps[..i + 1][..i] == steps[..i];
  }

  /** What step `i` did to the ledger still stands when step `j` is taken. */
  lemma LaterStep(l: Ledger, clock: Time, steps: seq<(nat, Step)>, i: nat, j: nat)
    requires LedgerSound(l, clock) && i < j < |steps|
    ensures var (m, t, _) := LedgerRun(l, clock, steps[..i]);
            var n := LedgerStep(m, steps[i].1, t + steps[i].0).0;
            var (p, u, _) := LedgerRun(l, clock, steps[..j]);
            var replies := LedgerRun(l, clock, steps).2;
            && LedgerSound(m, t) && LedgerSound(p, u)
            && n.used <= p.used && n.withdrawn <= p.withdrawn
            && (forall id :: id in m.issued ==> id in p.issued && p.issued[id] == m.issued[id])
            && m.ttl == p.ttl == l.ttl
            && replies[i] == LedgerStep(m, steps[i].1, t + steps[i].0).1
            && replies[j] == LedgerStep(p, steps[j].1, u + steps[j].0).1
  {
    hide LedgerRun, LedgerStep, LedgerSound;
    LedgerHistory(l, clock, steps, i);
    LedgerHistory(l, clock, steps, j);
    assert steps[..j][..i + 1] == steps[..i + 1];
    assert steps[..j][..i] == steps[..i];
    LedgerHistory(l, clock, steps[..j], i + 1);
    LedgerHistory(l, clock, steps[..j], i);
    OneMoreStep(l, clock, steps, i);
  }

  /** Step i of the run is a claim, and it is accepted. */
  predicate AcceptedClaim(authorityId: string, ttl: Time, clock: Time, steps: seq<(nat, Step)>, i: nat)
    requires i < |steps|
  {
    steps[i].1.Take? && AuthorityRun(NewAuthority(authorityId, ttl), clock, steps).2[i] == Checked(None)
  }

  /** Every accepted claim of a run, first, last or only, is of a grant this authority issued
      earlier in the run, by the grant's own binding, and within its time-to-live. */
  lemma ClaimedInTime(authorityId: string, ttl: Time, clock: Time, steps: seq<(nat, Step)>, i: nat)
    requires 0 < ttl <= MAX_GRANT_TTL && i < |steps| && AcceptedClaim(authorityId, ttl, clock, steps, i)
    ensures var at := AuthorityRun(NewAuthority(authorityId, ttl), clock, steps[..i]).1 + steps[i].0;
            var l := LedgerRun(NewLedger(authorityId, ttl), clock, steps[..i]).0;
            var token := steps[i].1.token;
            && Genuine(l, token) && Live(l, token.grant.id)
            && token.grant.issuedAt <= at < token.grant.issuedAt + ttl <= token.grant.issuedAt + MAX_GRANT_TTL
            && steps[i].1.requested == token.grant.binding
  {
    hide LedgerRun, AuthorityRun, LedgerSound, Answer;
    var h := ForgettingIsInvisible(authorityId, ttl, clock, steps);
    var early := ForgettingIsInvisible(authorityId, ttl, clock, steps[..i]);
    var l0 := NewLedger(authorityId, ttl);
    NewLedgerSound(authorityId, ttl, clock);
    LedgerHistory(l0, clock, steps, i);
    var (m, t, _) := LedgerRun(l0, clock, steps[..i]);
    OnlyGenuineAccepted(m, steps[i].1.token, steps[i].1.requested, t + steps[i].0);
    GenuineGrantAnswers(m, t, steps[i].1.token, steps[i].1.requested, t + steps[i].0);
    GenuineInTime(m, t, steps[i].1.token);
  }

  /** Each grant is claimed at most once in a run: two accepted claims are of different grants,
      and each of them is by its own binding and in time. */
  lemma ClaimedOnceInTime(authorityId: string, ttl: Time, clock: Time, steps: seq<(nat, Step)>, i: nat, j: nat)
    requires 0 < ttl <= MAX_GRANT_TTL && i < j < |steps|
    requires AcceptedClaim(authorityId, ttl, clock, steps, i) && AcceptedClaim(authorityId, ttl, clock, steps, j)
    ensures steps[i].1.token.Signed? && steps[j].1.token.Signed?
    ensures steps[i].1.token.grant.id != steps[j].1.token.grant.id
    ensures forall k :: k in {i, j} ==>
              var at := AuthorityRun(NewAuthority(authorityId, ttl), clock, steps[..k]).1 + steps[k].0;
              var g := steps[k].1.token.grant;
              g.issuedAt <= at < g.issuedAt + ttl <= g.issuedAt + MAX_GRANT_TTL && steps[k].1.requested == g.binding
  {
    hide LedgerRun, AuthorityRun, LedgerSound, Answer;
    ClaimedInTime(authorityId, ttl, clock, steps, i);
    ClaimedInTime(authorityId, ttl, clock, steps, j);
    var h := ForgettingIsInvisible(authorityId, ttl, clock, steps);
    NewLedgerSound(authorityId, ttl, clock);
    LaterStep(NewLedger(authorityId, ttl), clock, steps, i, j);
  }

  lemma NewLedgerSound(authorityId: string, ttl: Time, clock: Time)
    ensures LedgerSound(NewLedger(authorityId, ttl), clock)
  {
  }

  lemma GenuineInTime(l: Ledger, clock: Time, token: Token)
    requires LedgerSound(l, clock) && Genuine(l, token)
    ensures token.grant.issuedAt <= clock && token.grant.expiresAt == token.grant.issuedAt + l.ttl
  {
  }

  /** Suspending an agent on either plane ends every grant it holds for good: no later check
      or claim of one issued before can succeed, whatever is reopened afterwards. */
  lemma SuspensionIsFinal(authorityId: string, ttl: Time, clock: Time, steps: seq<(nat, Step)>, i: nat, j: nat)
    requires 0 < ttl && i < j < |steps|
    requires steps[i].1.Close?
    requires steps[j].1.Check? || steps[j].1.Take?
    requires steps[j].1.token.Signed?
    requires var l := LedgerRun(NewLedger(authorityId, ttl), clock, steps[..i]).0;
             Genuine(l, steps[j].1.token) && steps[j].1.token.grant.agentId == steps[i].1.agent
    ensures var replies := AuthorityRun(NewAuthority(authorityId, ttl), clock, steps).2;
            replies[j] != Checked(None)
  {
    hide LedgerRun, AuthorityRun, LedgerSound, Answer;
    var h := ForgettingIsInvisible(authorityId, ttl, clock, steps);
    var l0 := NewLedger(authorityId, ttl);
    NewLedgerSound(authorityId, ttl, clock);
    LaterStep(l0, clock, steps, i, j);
    var (m, t, _) := LedgerRun(l0, clock, steps[..i]);
    var (p, u, _) := LedgerRun(l0, clock, steps[..j]);
    var id := steps[j].1.token.grant.id;
    assert Live(m, id) ==> id in LiveOf(m, steps[i].1.agent);
    assert !Live(p, id);
    GenuineGrantAnswers(p, u, steps[j].1.token, steps[j].1.requested, u + steps[j].0);
  }

  /** While any plane is closed the agent holds no outstanding grant and can obtain none, and
      reopening one plane leaves the other as it was. */
  lemma ClosedPlanesHold(authorityId: string, ttl: Time, clock: Time, steps: seq<(nat, Step)>, agent: string,
                         plane: IssuancePlane, other: IssuancePlane, step: Step, now: Time)
    requires 0 < ttl && plane != other
    ensures var a := AuthorityRun(NewAuthority(authorityId, ttl), clock, steps).0;
            && (ClosedPlanes(a.closed, agent) != {} ==> OutstandingOf(a, agent) == {})
            && (ClosedPlanes(a.closed, agent) != {} && step.Ask? && step.request.agentId == agent
                ==> AuthorityStep(a, step, now).1 == Granted(None))
            && plane !in ClosedPlanes(ResumeIssuance(a, agent, plane).closed, agent)
            && (other in ClosedPlanes(ResumeIssuance(a, agent, plane).closed, agent)
                <==> other in ClosedPlanes(a.closed, agent))
  {
    var h := ForgettingIsInvisible(authorityId, ttl, clock, steps);
  }

  function UnexpiredOf(l: Ledger, agent: string, now: Time): set<nat> {
    set id | id in l.issued && id in LiveOf(l, agent) && l.issued[id].expiresAt > now
  }

  /** The number a suspension reports counts the agent's live grants that outlast the last
      pruning: at least those unexpired now, at most all ever issued and still unused. */
  lemma RevocationCount(authorityId: string, ttl: Time, clock: Time, steps: seq<(nat, Step)>, agent: string,
                        plane: IssuancePlane, now: Time)
    requires 0 < ttl && AuthorityRun(NewAuthority(authorityId, ttl), clock, steps).1 <= now
    ensures var a := AuthorityRun(NewAuthority(authorityId, ttl), clock, steps).0;
            var l := LedgerRun(NewLedger(authorityId, ttl), clock, steps).0;
            |UnexpiredOf(l, agent, now)| <= SuspendIssuance(a, agent, plane).1 <= |LiveOf(l, agent)|
  {
    var h := ForgettingIsInvisible(authorityId, ttl, clock, steps);
    var a := AuthorityRun(NewAuthority(authorityId, ttl), clock, steps).0;
    var l := LedgerRun(NewLedger(authorityId, ttl), clock, steps).0;
    SubsetSize(UnexpiredOf(l, agent, now), OutstandingOf(a, agent));
    SubsetSize(OutstandingOf(a, agent), LiveOf(l, agent));
  }
}
