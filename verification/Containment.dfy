/** app/services/enforcement_coordinator.py: recovery as a sequence of steps over several
    stores, any of which may fail and leave the earlier ones done. */
module EnforcementCoordination {
  import opened Prelude
  import opened RiskProjection
  import opened RiskAggregation
  import opened AgentLifecycle
  import opened GrantAuthority
  import F = Findings
  import S = SessionStore
  import E = EnforcementPlane

  datatype CoordinatorError =
    | Refused(cause: ServiceError)
    | ResetFailed
    | ResumeFailed
    | ReinstatementIncomplete

  /** Which of the coordinator's calls fail. */
  datatype Faults = Faults(reset: bool, resume: bool)

  /** The stores that together describe containment. */
  datatype Stores = Stores(agents: Agents, projections: Projections, authority: Authority)

  /** The watermark a reinstatement captures, one position from each allocator. */
  function CapturedMark(findings: F.Store, sessions: S.Store, agent: string, at: Time): Watermark {
    Watermark(Some(at), F.CaptureBaseline(findings, agent, at), Counter(sessions.agentSequences, agent))
  }

  predicate EnforcementOpen(a: Authority, agent: string) {
    ENFORCEMENT !in ClosedPlanes(a.closed, agent)
  }

  /** The two steps both recovery paths end with. */
  function ResetAndResume(s: Stores, agent: string, vocabulary: set<string>, mark: Watermark, faults: Faults)
    : (Stores, Result<(), CoordinatorError>)
  {
    if faults.reset then (s, Err(ResetFailed))
    else
      var t := s.(projections := s.projections[agent := Reset(agent, vocabulary, mark)]);
      if faults.resume then (t, Err(ResumeFailed))
      else (t.(authority := ResumeIssuance(t.authority, agent, ENFORCEMENT)), Ok(()))
  }

  /** `reinstate` */
  function ReinstateAll(s: Stores, agent: string, actor: string, reason: string, mark: Watermark, now: Time,
                        vocabulary: set<string>, faults: Faults): (Stores, Result<(), CoordinatorError>)
  {
    var (agents, r) := Reinstate(s.agents, agent, actor, reason, now, Some(mark));
    if r.Err? then (s.(agents := agents), Err(Refused(r.error)))
    else
      var (t, done) := ResetAndResume(s.(agents := agents), agent, vocabulary, mark, faults);
      if done.Err? then (t, done)
      else if E.Suspended(t.agents.enforcement, agent) || !EnforcementOpen(t.authority, agent)
      then (t, Err(ReinstatementIncomplete))
      else (t, Ok(()))
  }

  /** `repair` */
  function Repair(s: Stores, agent: string, vocabulary: set<string>, faults: Faults): (Stores, Result<(), CoordinatorError>) {
    if !Known(s.agents, agent) then (s, Err(Refused(AgentNotFound)))
    else if E.Suspended(s.agents.enforcement, agent) then (s, Err(ReinstatementIncomplete))
    else
      var (t, done) := ResetAndResume(s, agent, vocabulary, E.StateOf(s.agents.enforcement, agent).baseline, faults);
      if done.Err? then (t, done)
      else if ClosedPlanes(t.authority.closed, agent) != {} then (t, Err(ReinstatementIncomplete))
      else (t, Ok(()))
  }

  class EnforcementCoordinator {
    const agentService: AgentService
    const authority: ExecutionAuthority
    const findingsService: F.FindingsService
    const riskAggregator: RiskAggregator
    const sessions: S.InMemorySessionRepository

    ghost predicate Valid()
      reads riskAggregator, riskAggregator.projections.Values
    {
      agentService.Valid() && riskAggregator.Valid()
    }

    ghost function View(): Stores
      reads agentService.agentRepository, agentService.enforcementRepository, agentService.administrativeRepository
      reads riskAggregator, riskAggregator.projections.Values, authority
      requires Valid()
    {
      Stores(agentService.View(), riskAggregator.View(), authority.View())
    }

    constructor (agentService: AgentService, authority: ExecutionAuthority, findingsService: F.FindingsService,
                 riskAggregator: RiskAggregator, sessions: S.InMemorySessionRepository)
      requires agentService.Valid() && riskAggregator.Valid()
      ensures Valid() && View() == Stores(agentService.View(), riskAggregator.View(), authority.View())
      ensures this.agentService == agentService && this.authority == authority && this.riskAggregator == riskAggregator
      ensures this.findingsService == findingsService && this.sessions == sessions
    {
      this.agentService, this.authority, this.findingsService := agentService, authority, findingsService;
      this.riskAggregator, this.sessions := riskAggregator, sessions;
    }

    /** The projection reset and the reopening, each of which may fail. */
    method ResetThenResume(agent: string, mark: Watermark, faults: Faults) returns (r: Result<(), CoordinatorError>)
      requires Valid()
      modifies riskAggregator`projections, riskAggregator.projections.Values, authority
      ensures Valid() && fresh(riskAggregator.projections.Values - old(riskAggregator.projections.Values))
      ensures (View(), r) == ResetAndResume(old(View()), agent, riskAggregator.vocabulary, mark, faults)
    {
      hide Reset, ResumeIssuance;
      if faults.reset {
        return Err(ResetFailed);
      }
      riskAggregator.ResetAgentToBaseline(agent, mark);
      if faults.resume {
        return Err(ResumeFailed);
      }
      authority.Resume(agent, ENFORCEMENT);
      r := Ok(());
    }

    method CaptureMark(agent: string, at: Time) returns (mark: Watermark)
      ensures mark == CapturedMark(findingsService.View(), sessions.View(), agent, at)
    {
      hide F.HighestBy;
      var evidence := findingsService.CaptureEvidenceBaselineSequence(agent, at);
      var events := sessions.CurrentAgentSequence(agent);
      mark := Watermark(Some(at), evidence, events);
    }

    /** The closing check: success only when the containment is cleared and issuance is open. */
    method ConfirmReopened(agent: string) returns (r: Result<(), CoordinatorError>)
      requires Valid() && Known(View().agents, agent)
      ensures r == if E.Suspended(View().agents.enforcement, agent) || !EnforcementOpen(View().authority, agent)
                   then Err(ReinstatementIncomplete) else Ok(())
    {
      var enforcement := agentService.GetEnforcementState(agent);
      var planes := authority.IssuanceClosedPlanes(agent);
      r := if enforcement.value.suspendedAt.Some? || ENFORCEMENT in planes then Err(ReinstatementIncomplete) else Ok(());
    }

    /** The status transition, first of the recovery's steps. */
    method ClearSuspension(agent: string, actor: string, reason: string, now: Time, mark: Watermark)
      returns (r: Result<(), ServiceError>)
      requires Valid()
      modifies agentService.enforcementRepository
      ensures Valid()
      ensures View() == old(View()).(agents := Reinstate(old(View()).agents, agent, actor, reason, now, Some(mark)).0)
      ensures r == Reinstate(old(View()).agents, agent, actor, reason, now, Some(mark)).1
    {
      hide Reinstate;
      r := agentService.ReinstateAgent(agent, actor, reason, now, Some(mark));
    }

    method ReinstateAgent(agent: string, actor: string, reason: string, baselineAt: Time, now: Time, faults: Faults)
      returns (r: Result<(), CoordinatorError>)
      requires Valid()
      modifies agentService.enforcementRepository
      modifies riskAggregator`projections, riskAggregator.projections.Values, authority
      ensures Valid()
      ensures (View(), r)
              == ReinstateAll(old(View()), agent, actor, reason,
                              CapturedMark(findingsService.View(), sessions.View(), agent, baselineAt), now,
                              riskAggregator.vocabulary, faults)
    {
      hide Reinstate, ResetAndResume, CapturedMark, E.Suspended, EnforcementOpen, View, Known;
      ghost var before := View();
      var mark := CaptureMark(agent, baselineAt);
      var transitioned := ClearSuspension(agent, actor, reason, now, mark);
      if transitioned.Err? {
        return Err(Refused(transitioned.error));
      }
      KnownStays(before.agents, agent, actor, reason, now, Some(mark));
      ghost var middle := View();
      r := ResetThenResume(agent, mark, faults);
      assert (View(), r) == ResetAndResume(middle, agent, riskAggregator.vocabulary, mark, faults);
      if r.Ok? {
        ResumeKeepsAgents(middle, agent, riskAggregator.vocabulary, mark, faults);
        r := ConfirmReopened(agent);
      }
    }

    method RepairAgent(agent: string, faults: Faults) returns (r: Result<(), CoordinatorError>)
      requires Valid()
      modifies riskAggregator`projections, riskAggregator.projections.Values, authority
      ensures Valid()
      ensures (View(), r) == Repair(old(View()), agent, riskAggregator.vocabulary, faults)
    {
      hide ResetAndResume;
      var enforcement := agentService.GetEnforcementState(agent);
      if enforcement.Err? {
        return Err(Refused(AgentNotFound));
      }
      if enforcement.value.suspendedAt.Some? {
        return Err(ReinstatementIncomplete);
      }
      var reopened := ResetThenResume(agent, enforcement.value.baseline, faults);
      if reopened.Err? {
        return reopened;
      }
      var planes := authority.IssuanceClosedPlanes(agent);
      if planes != {} {
        return Err(ReinstatementIncomplete);
      }
      r := Ok(());
    }
  }

  lemma KnownStays(a: Agents, agent: string, actor: string, reason: string, now: Time, mark: Option<Watermark>)
    ensures Reinstate(a, agent, actor, reason, now, mark).1.Ok? ==> Known(Reinstate(a, agent, actor, reason, now, mark).0, agent)
  {
    hide E.Commit;
  }

  lemma ResumeKeepsAgents(s: Stores, agent: string, vocabulary: set<string>, mark: Watermark, faults: Faults)
    ensures ResetAndResume(s, agent, vocabulary, mark, faults).0.agents == s.agents
  {
  }
}
