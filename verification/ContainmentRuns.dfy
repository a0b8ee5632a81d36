/** Containment (app/services/runtime_service.py:737-752) and recovery of many agents, step by
    step, with a failure possible after every step. Operations on one agent do not overlap. */
module ContainmentRuns {
  import opened Prelude
  import opened RiskProjection
  import opened RiskAggregation
  import opened AgentLifecycle
  import opened Binding
  import opened GrantAuthority
  import opened EnforcementCoordination
  import A = AdministrativePlane
  import E = EnforcementPlane
  import L = GrantLedger
  import P = LifecycleAuthorization
  import R = EnforcementRaces

  /** What is under way for an agent. */
  datatype Operation =
    | Containing
    | Recovering(mark: Watermark)
    | Repairing(mark: Watermark)

  datatype World = World(
    clock: Time,
    stores: Stores,
    ledger: L.Ledger,
    vocabulary: set<string>,
    underway: map<string, Operation>)

  datatype Step =
    | BeginContainment(agent: string, elapsed: nat)
    | FinishContainment(agent: string, elapsed: nat)
    | BeginRecovery(agent: string, elapsed: nat, actor: string, reason: string, mark: Watermark)
    | BeginRepair(agent: string)
    | ResetPosture(agent: string)
    | Reopen(agent: string)
    | Abandon(agent: string)
    | Register(record: A.AgentRecord, elapsed: nat)
    | Administer(agent: string, elapsed: nat, next: A.Lifecycle)
    | UseAuthority(elapsed: nat, step: L.Step)

  function UseOf(w: World, step: L.Step, now: Time): World {
    w.(clock := now, ledger := L.LedgerStep(w.ledger, step, now).0,
       stores := w.stores.(authority := L.AuthorityStep(w.stores.authority, step, now).0))
  }

  predicate InRecovery(w: World, agent: string) {
    agent in w.underway && !w.underway[agent].Containing?
  }

  /** A step that does not apply leaves everything as it is. Nobody but recovery reopens the
      enforcement plane. */
  function Next(w: World, step: Step): World {
    match step
    case BeginContainment(agent, elapsed) =>
      if agent in w.underway then w
      else UseOf(w, L.Close(agent, ENFORCEMENT), w.clock + elapsed).(underway := w.underway[agent := Containing])
    case FinishContainment(agent, elapsed) =>
      if agent !in w.underway || !w.underway[agent].Containing? then w
      else w.(clock := w.clock + elapsed, underway := w.underway - {agent},
              stores := w.stores.(agents := Suspend(w.stores.agents, agent, w.clock + elapsed).0))
    case BeginRecovery(agent, elapsed, actor, reason, mark) =>
      if agent in w.underway then w
      else
        var now := w.clock + elapsed;
        var (agents, r) := Reinstate(w.stores.agents, agent, actor, reason, now, Some(mark));
        w.(clock := now, stores := w.stores.(agents := agents),
           underway := if r.Ok? then w.underway[agent := Recovering(mark)] else w.underway)
    case BeginRepair(agent) =>
      if agent in w.underway || !Known(w.stores.agents, agent) || E.Suspended(w.stores.agents.enforcement, agent) then w
      else w.(underway := w.underway[agent := Repairing(E.StateOf(w.stores.agents.enforcement, agent).baseline)])
    case ResetPosture(agent) =>
      if !InRecovery(w, agent) then w
      else w.(stores := w.stores.(projections :=
                w.stores.projections[agent := Reset(agent, w.vocabulary, w.underway[agent].mark)]))
    case Reopen(agent) =>
      if !InRecovery(w, agent) then w
      else UseOf(w, L.Open(agent, ENFORCEMENT), w.clock).(underway := w.underway - {agent})
    case Abandon(agent) => w.(underway := w.underway - {agent})
    case Register(record, elapsed) =>
      w.(clock := w.clock + elapsed, stores := w.stores.(agents := w.stores.agents.(administrative :=
           A.RegisterAgent(w.stores.agents.administrative, record, w.clock + elapsed).0)))
    case Administer(agent, elapsed, next) =>
      w.(clock := w.clock + elapsed,
         stores := w.stores.(agents := Move(w.stores.agents, agent, next, w.clock + elapsed).0))
    case UseAuthority(elapsed, use) =>
      if use.Open? && use.plane == ENFORCEMENT then w else UseOf(w, use, w.clock + elapsed)
  }

  function Run(w: World, steps: seq<Step>): World {
    if steps == [] then w else Next(Run(w, steps[..|steps| - 1]), steps[|steps| - 1])
  }

  function Start(authorityId: string, ttl: Time, clock: Time, vocabulary: set<string>): World {
    World(clock, Stores(Agents(A.Register(map[], [], true, map[]), E.EMPTY_PLANE), map[], L.NewAuthority(authorityId, ttl)),
          L.NewLedger(authorityId, ttl), vocabulary, map[])
  }

  // ---- what every step keeps --------------------------------------------------------------------

  ghost predicate Tracks(w: World) {
    L.Tracks(w.stores.authority, w.ledger, w.clock)
  }

  /** Containment as far as it has got, for one agent. */
  ghost predicate Contained(w: World, agent: string) {
    && (E.Suspended(w.stores.agents.enforcement, agent) ==> !EnforcementOpen(w.stores.authority, agent))
    && (agent in w.underway && w.underway[agent].Containing? ==> !EnforcementOpen(w.stores.authority, agent))
    && (InRecovery(w, agent) ==> !E.Suspended(w.stores.agents.enforcement, agent))
  }

  ghost predicate Sound(w: World) {
    Tracks(w) && forall a :: Contained(w, a)
  }

  lemma UseTracks(w: World, step: L.Step, now: Time)
    requires Tracks(w) && w.clock <= now
    ensures Tracks(UseOf(w, step, now)) && L.Grows(w.ledger, UseOf(w, step, now).ledger)
    ensures L.AuthorityStep(w.stores.authority, step, now).1 == L.LedgerStep(w.ledger, step, now).1
  {
    L.StepTracks(w.stores.authority, w.ledger, w.clock, step, now);
  }

  /** Which planes a use of the authority leaves closed. */
  lemma UseClosed(a: Authority, step: L.Step, now: Time, agent: string)
    ensures ClosedPlanes(L.AuthorityStep(a, step, now).0.closed, agent)
            == if step.Close? && step.agent == agent then ClosedPlanes(a.closed, agent) + {step.plane}
               else if step.Open? && step.agent == agent then ClosedPlanes(a.closed, agent) - {step.plane}
               else ClosedPlanes(a.closed, agent)
  {
    hide Issue, Verify, Claim, Prune;
    PruneKeepsClosed(a, now);
    match step
    case Ask(_, _, _, _) => IssueKeepsClosed(a, step.request, step.decision, step.expectedEpoch, step.currentEpoch, now);
    case Check(token, requested) => VerifyKeepsClosed(a, token, requested, now);
    case Take(token, requested) => VerifyKeepsClosed(a, token, requested, now);
    case Remove(_) =>
    case Close(_, _) =>
      hide OutstandingOf, ExpiryOf;
    case Open(_, _) =>
    case CountOutstanding =>
  }

  lemma IssueKeepsClosed(a: Authority, r: Request, decision: Decision, expected: Option<nat>, current: Option<nat>, now: Time)
    ensures Issue(a, r, decision, expected, current, now).0.closed == a.closed
  {
    hide MayIssue;
  }

  lemma VerifyKeepsClosed(a: Authority, token: Token, requested: ExecutionBinding, now: Time)
    ensures Verify(a, token, requested, now).0.closed == a.closed
    ensures Claim(a, token, requested, now).0.closed == a.closed
  {
    hide Authenticity, Mismatch;
  }

  lemma PruneKeepsClosed(a: Authority, now: Time)
    ensures Prune(a, now).closed == a.closed
  {
  }

  lemma SuspendOnly(a: Agents, who: string, now: Time, agent: string)
    requires agent != who
    ensures E.Suspended(Suspend(a, who, now).0.enforcement, agent) == E.Suspended(a.enforcement, agent)
  {
  }

  lemma ReinstateClears(a: Agents, who: string, actor: string, reason: string, now: Time, mark: Watermark, agent: string)
    ensures var (b, r) := Reinstate(a, who, actor, reason, now, Some(mark));
            && (r.Ok? ==> !E.Suspended(b.enforcement, who))
            && (agent != who || r.Err? ==> E.Suspended(b.enforcement, agent) == E.Suspended(a.enforcement, agent))
  {
  }

  lemma StepKeepsContained(w: World, step: Step, agent: string)
    requires Contained(w, agent)
    ensures Contained(Next(w, step), agent)
  {
    hide L.AuthorityStep, L.LedgerStep, Suspend, Reinstate, Move, A.RegisterAgent, E.StateOf;
    match step
    case BeginContainment(who, elapsed) =>
      UseClosed(w.stores.authority, L.Close(who, ENFORCEMENT), w.clock + elapsed, agent);
    case FinishContainment(who, elapsed) =>
      if who != agent {
        SuspendOnly(w.stores.agents, who, w.clock + elapsed, agent);
      }
      assert Next(w, step).stores.authority == w.stores.authority;
    case BeginRecovery(who, elapsed, actor, reason, mark) =>
      ReinstateClears(w.stores.agents, who, actor, reason, w.clock + elapsed, mark, agent);
      var (b, r) := Reinstate(w.stores.agents, who, actor, reason, w.clock + elapsed, Some(mark));
      var u := Next(w, step);
      if who !in w.underway {
        assert u.stores.agents == b;
        if agent == who && r.Ok? {
          assert !E.Suspended(b.enforcement, agent);
        } else {
          assert E.Suspended(b.enforcement, agent) == E.Suspended(w.stores.agents.enforcement, agent);
          assert E.Suspended(u.stores.agents.enforcement, agent) ==> !EnforcementOpen(u.stores.authority, agent);
        }
      } else {
        assert u == w;
      }
    case Reopen(who) =>
      UseClosed(w.stores.authority, L.Open(who, ENFORCEMENT), w.clock, agent);
    case UseAuthority(elapsed, use) =>
      UseClosed(w.stores.authority, use, w.clock + elapsed, agent);
    case Administer(who, elapsed, next) =>
      MoveKeepsEnforcement(w.stores.agents, who, next, w.clock + elapsed);
    case Abandon(_) =>
    case BeginRepair(_) =>
    case ResetPosture(_) =>
    case Register(_, _) =>
  }

  lemma MoveKeepsEnforcement(a: Agents, agent: string, next: A.Lifecycle, now: Time)
    ensures Move(a, agent, next, now).0.enforcement == a.enforcement
  {
  }

  lemma StepTracks(w: World, step: Step)
    requires Tracks(w)
    ensures Tracks(Next(w, step)) && L.Grows(w.ledger, Next(w, step).ledger)
    ensures w.clock <= Next(w, step).clock
  {
    hide L.AuthorityStep, L.LedgerStep, Suspend, Reinstate, Move, A.RegisterAgent, L.Tracks;
    match step
    case BeginContainment(agent, elapsed) => UseTracks(w, L.Close(agent, ENFORCEMENT), w.clock + elapsed);
    case Reopen(agent) => UseTracks(w, L.Open(agent, ENFORCEMENT), w.clock);
    case UseAuthority(elapsed, use) => UseTracks(w, use, w.clock + elapsed);
    case FinishContainment(_, elapsed) => L.TracksLater(w.stores.authority, w.ledger, w.clock, w.clock + elapsed);
    case BeginRecovery(_, elapsed, _, _, _) => L.TracksLater(w.stores.authority, w.ledger, w.clock, w.clock + elapsed);
    case Register(_, elapsed) => L.TracksLater(w.stores.authority, w.ledger, w.clock, w.clock + elapsed);
    case Administer(_, elapsed, _) => L.TracksLater(w.stores.authority, w.ledger, w.clock, w.clock + elapsed);
    case Abandon(_) =>
    case BeginRepair(_) =>
    case ResetPosture(_) =>
  }

  lemma StepSound(w: World, step: Step)
    requires Sound(w)
    ensures Sound(Next(w, step)) && L.Grows(w.ledger, Next(w, step).ledger) && w.clock <= Next(w, step).clock
  {
    hide Next, Tracks, Contained;
    StepTracks(w, step);
    forall a ensures Contained(Next(w, step), a) {
      StepKeepsContained(w, step, a);
    }
  }

  lemma {:induction false} RunGrows(w: World, steps: seq<Step>)
    requires Sound(w)
    ensures Sound(Run(w, steps)) && L.Grows(w.ledger, Run(w, steps).ledger) && w.clock <= Run(w, steps).clock
  {
    hide Next, Sound;
    if steps != [] {
      RunGrows(w, steps[..|steps| - 1]);
      StepSound(Run(w, steps[..|steps| - 1]), steps[|steps| - 1]);
    }
  }

  lemma StartSound(authorityId: string, ttl: Time, clock: Time, vocabulary: set<string>)
    requires ttl > 0
    ensures Sound(Start(authorityId, ttl, clock, vocabulary))
  {
    var w := Start(authorityId, ttl, clock, vocabulary);
    L.NewLedgerSound(authorityId, ttl, clock);
    assert L.Remembers(w.stores.authority, w.ledger, clock);
  }

  // ---- containment holds ------------------------------------------------------------------------------

  lemma ClosedMeansNone(a: Authority, l: L.Ledger, clock: Time, agent: string)
    requires L.Tracks(a, l, clock)
    ensures ClosedPlanes(a.closed, agent) != {} ==> OutstandingOf(a, agent) == {}
  {
  }

  /** Containment with a failure at any point. In every reachable state a suspended agent has
      its enforcement issuance plane closed, and an agent with any plane closed holds no
      outstanding grant and is issued none. */
  lemma ContainmentHolds(authorityId: string, ttl: Time, clock: Time, vocabulary: set<string>, steps: seq<Step>,
                         agent: string, request: Request, expected: Option<nat>, current: Option<nat>, now: Time)
    requires ttl > 0 && request.agentId == agent
    ensures var w := Run(Start(authorityId, ttl, clock, vocabulary), steps);
            var a := w.stores.authority;
            && (E.Suspended(w.stores.agents.enforcement, agent) ==> ENFORCEMENT in ClosedPlanes(a.closed, agent))
            && (ClosedPlanes(a.closed, agent) != {} ==>
                  OutstandingOf(a, agent) == {} && Issue(a, request, ALLOW, expected, current, now) == (a, None))
  {
    hide Run, L.Tracks;
    var w0 := Start(authorityId, ttl, clock, vocabulary);
    StartSound(authorityId, ttl, clock, vocabulary);
    RunGrows(w0, steps);
    var w := Run(w0, steps);
    assert Contained(w, agent);
    ClosedMeansNone(w.stores.authority, w.ledger, w.clock, agent);
  }

  /** A grant held when containment begins is never claimable again: not while the agent is
      suspended, and not after any recovery or repair that follows. */
  lemma ContainmentEndsGrants(w: World, agent: string, elapsed: nat, steps: seq<Step>, token: Token,
                              requested: ExecutionBinding, later: Time)
    requires Sound(w) && agent !in w.underway
    requires L.Genuine(w.ledger, token) && token.grant.agentId == agent
    requires Run(Next(w, BeginContainment(agent, elapsed)), steps).clock <= later
    ensures Claim(Run(Next(w, BeginContainment(agent, elapsed)), steps).stores.authority, token, requested, later).1.Some?
  {
    var v := Next(w, BeginContainment(agent, elapsed));
    StepSound(w, BeginContainment(agent, elapsed));
    NotLiveAfterClose(w.ledger, agent, token.grant.id, w.clock + elapsed);
    hide Next, Sound, L.Genuine;
    RunGrows(v, steps);
    var u := Run(v, steps);
    ClaimRefused(u, token, requested, later);
  }

  lemma NotLiveAfterClose(l: L.Ledger, agent: string, id: nat, now: Time)
    requires id in l.issued && l.issued[id].agentId == agent
    ensures !L.Live(L.LedgerStep(l, L.Close(agent, ENFORCEMENT), now).0, id)
    ensures id in L.LedgerStep(l, L.Close(agent, ENFORCEMENT), now).0.issued
  {
    assert L.Live(l, id) ==> id in L.LiveOf(l, agent);
  }

  lemma ClaimRefused(u: World, token: Token, requested: ExecutionBinding, later: Time)
    requires Sound(u) && u.clock <= later && token.Signed?
    requires token.grant.id in u.ledger.used || token.grant.id in u.ledger.withdrawn
    ensures Claim(u.stores.authority, token, requested, later).1.Some?
  {
    UseTracks(u, L.Take(token, requested), later);
  }

  // ---- recovery -----------------------------------------------------------------------------------------

  /** Recovery opens the enforcement plane and never the administrative one. */
  lemma ReopenTouchesOnePlane(w: World, agent: string)
    requires InRecovery(w, agent)
    ensures ClosedPlanes(Next(w, Reopen(agent)).stores.authority.closed, agent)
            == ClosedPlanes(w.stores.authority.closed, agent) - {ENFORCEMENT}
    ensures forall other :: other != agent ==>
              ClosedPlanes(Next(w, Reopen(agent)).stores.authority.closed, other)
              == ClosedPlanes(w.stores.authority.closed, other)
  {
    UseClosed(w.stores.authority, L.Open(agent, ENFORCEMENT), w.clock, agent);
    forall other | other != agent
      ensures ClosedPlanes(Next(w, Reopen(agent)).stores.authority.closed, other)
              == ClosedPlanes(w.stores.authority.closed, other)
    {
      UseClosed(w.stores.authority, L.Open(agent, ENFORCEMENT), w.clock, other);
    }
  }

  /** Without faults `repair` reopens the enforcement plane exactly of an agent that is known
      and not suspended, and it reports success exactly when no other plane is closed. */
  lemma RepairConverges(s: Stores, agent: string, vocabulary: set<string>)
    ensures var (t, r) := Repair(s, agent, vocabulary, Faults(false, false));
            var repairable := Known(s.agents, agent) && !E.Suspended(s.agents.enforcement, agent);
            && t.agents == s.agents
            && (repairable ==> EnforcementOpen(t.authority, agent))
            && (!repairable ==> t == s && r.Err?)
            && (r.Ok? <==> repairable && ADMINISTRATIVE !in ClosedPlanes(s.authority.closed, agent))
  {
    var t := Repair(s, agent, vocabulary, Faults(false, false)).0;
    var closed := ClosedPlanes(s.authority.closed, agent);
    forall p | p in closed - {ENFORCEMENT} ensures p == ADMINISTRATIVE {
      assert p.ADMINISTRATIVE?;
    }
    assert ADMINISTRATIVE in closed ==> ADMINISTRATIVE in closed - {ENFORCEMENT};
    assert Known(s.agents, agent) && !E.Suspended(s.agents.enforcement, agent)
           ==> ClosedPlanes(t.authority.closed, agent) == ClosedPlanes(s.authority.closed, agent) - {ENFORCEMENT};
  }

  /** A reinstatement that failed in its second half left the agent cleared and its issuance as
      it was. Asking for the reinstatement again is refused and changes nothing; `repair` is what
      reopens. */
  lemma PartialReinstatement(s: Stores, agent: string, actor: string, reason: string, mark: Watermark, now: Time,
                             vocabulary: set<string>, faults: Faults, again: Time, mark2: Watermark)
    requires var r := ReinstateAll(s, agent, actor, reason, mark, now, vocabulary, faults).1;
             r == Err(ResetFailed) || r == Err(ResumeFailed)
    ensures var t := ReinstateAll(s, agent, actor, reason, mark, now, vocabulary, faults).0;
            && !E.Suspended(t.agents.enforcement, agent) && t.authority == s.authority
            && ReinstateAll(t, agent, actor, reason, mark2, again, vocabulary, Faults(false, false))
               == (t, Err(Refused(AgentNotSuspended)))
            && EnforcementOpen(Repair(t, agent, vocabulary, Faults(false, false)).0.authority, agent)
            && !E.Suspended(Repair(t, agent, vocabulary, Faults(false, false)).0.agents.enforcement, agent)
  {
    hide E.Commit, Reset;
    var t := ReinstateAll(s, agent, actor, reason, mark, now, vocabulary, faults).0;
    ReinstateClears(s.agents, agent, actor, reason, now, mark, agent);
    KnownStays(s.agents, agent, actor, reason, now, Some(mark));
    RepairConverges(t, agent, vocabulary);
  }

  /** A reinstatement that reports success did all of it: containment cleared at the captured
      boundary, the posture empty there, the enforcement plane open and no other plane touched. */
  lemma SuccessfulReinstatement(s: Stores, agent: string, actor: string, reason: string, mark: Watermark, now: Time,
                                vocabulary: set<string>, faults: Faults)
    requires ReinstateAll(s, agent, actor, reason, mark, now, vocabulary, faults).1.Ok?
    ensures var t := ReinstateAll(s, agent, actor, reason, mark, now, vocabulary, faults).0;
            && E.Suspended(s.agents.enforcement, agent) && !E.Suspended(t.agents.enforcement, agent)
            && E.StateOf(t.agents.enforcement, agent).recoveryGeneration
               == E.StateOf(s.agents.enforcement, agent).recoveryGeneration + 1
            && (mark.baselineAt.Some? ==> E.StateOf(t.agents.enforcement, agent).baseline == mark)
            && t.projections == s.projections[agent := Reset(agent, vocabulary, mark)]
            && ClosedPlanes(t.authority.closed, agent) == ClosedPlanes(s.authority.closed, agent) - {ENFORCEMENT}
            && t.agents.administrative == s.agents.administrative
  {
  }

  /** Were containment and recovery of one agent to overlap, a recovery reopening after the
      containment would leave a suspended agent with its enforcement plane open. */
  lemma OverlapLeavesPlaneOpen(s: Stores, agent: string, actor: string, reason: string, mark: Watermark,
                               t1: Time, t2: Time)
    requires Reinstate(s.agents, agent, actor, reason, t1, Some(mark)).1.Ok?
    requires var cleared := Reinstate(s.agents, agent, actor, reason, t1, Some(mark)).0;
             E.Suspended(Suspend(cleared, agent, t2).0.enforcement, agent)
    ensures var cleared := Reinstate(s.agents, agent, actor, reason, t1, Some(mark)).0;
            var contained := s.(agents := Suspend(cleared, agent, t2).0,
                                authority := SuspendIssuance(s.authority, agent, ENFORCEMENT).0);
            var reopened := contained.(authority := ResumeIssuance(contained.authority, agent, ENFORCEMENT));
            E.Suspended(reopened.agents.enforcement, agent) && EnforcementOpen(reopened.authority, agent)
  {
  }

  /** Disabling closes no issuance plane and withdraws no grant: the agent is refused as
      AGENT_DISABLED from then on, and whatever grant it holds is claimed as before. */
  lemma DisablingLeavesGrants(w: World, agent: string, elapsed: nat, token: Token, requested: ExecutionBinding, later: Time)
    requires Move(w.stores.agents, agent, A.DISABLED, w.clock + elapsed).1.Ok?
    ensures var u := Next(w, Administer(agent, elapsed, A.DISABLED));
            && LifecycleRefusal(u.stores.agents, agent) == Some(P.AGENT_DISABLED)
            && Claim(u.stores.authority, token, requested, later) == Claim(w.stores.authority, token, requested, later)
  {
    hide Claim, P.FirstIn;
    var agents := Move(w.stores.agents, agent, A.DISABLED, w.clock + elapsed).0;
    P.RefusalIsMostSignificant(
      P.Present(agents.administrative.states[agent]),
      if agent in agents.enforcement.states then P.Present(agents.enforcement.states[agent]) else P.Missing,
      P.AGENT_DISABLED);
  }

  /** A request that read its enforcement snapshot before a suspension or a recovery of its agent
      gets no grant after it, and with nothing in between is not refused for its epoch. */
  lemma OvertakenSnapshotGetsNoGrant(s: R.System, steps: seq<R.Step>, a: Authority, request: Request, now: Time)
    requires R.Sound(s)
    ensures var u := R.Run(s, steps);
            var ledger, later := E.LedgerOf(s.plane.transitions, request.agentId), E.LedgerOf(u.plane.transitions, request.agentId);
            var granted := Issue(a, request, ALLOW, Some(E.StateOf(s.plane, request.agentId).epoch),
                                 Some(E.StateOf(u.plane, request.agentId).epoch), now).1;
            granted.Some? <==> ledger == later && ClosedPlanes(a.closed, request.agentId) == {}
  {
    hide R.Run, E.LedgerOf, CreateGrant, E.StateOf;
    R.SameEpochSameLedger(s, steps, request.agentId);
  }
}
