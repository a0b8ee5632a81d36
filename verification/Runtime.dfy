/** app/services/runtime_service.py: the pipeline that composes every other component. */
module Runtime {
  import opened Prelude
  import opened Findings
  import opened SessionServices
  import opened RiskProjection
  import opened RiskAggregation
  import opened AgentLifecycle
  import opened Binding
  import opened Detection
  import S = SessionStore
  import E = EnforcementPlane
  import G = GrantAuthority
  import Sessions = SessionRuns
  import X = Executor

  datatype RefusalReason =
    | SESSION_BINDING_INVALID
    | HORIZON_UNAVAILABLE
    | EVIDENCE_RECORDING_FAILED
    | POSTURE_RECONCILIATION_FAILED

  datatype ResponseType = MONITOR | ALERT | REQUIRE_APPROVAL | SUSPEND_AGENT

  datatype Audit = Audit(sessionId: string, agentId: string, decision: Decision)

  /** Which of the services the pipeline calls fail for this request. `ingest` holds the
      accepted findings whose projection fails, `outage` the planes whose state cannot be read when
      the request is authorized. */
  datatype Faults = Faults(horizon: bool, evidence: bool, ingest: set<nat>, reconcile: bool, outage: Outage)

  /** A request. `version` is what the registry and governance resolved, `target` what resource
      identity made of the parameters and the resource (absent when it failed), `policy` what
      authorization says apart from lifecycle, `content` what the content rules find. */
  datatype Inquiry = Inquiry(
    sessionId: string,
    agentId: string,
    toolId: string,
    version: Option<string>,
    target: Option<(Parameters, Option<string>)>,
    policy: Decision,
    content: seq<Finding>,
    timestamp: Time,
    faults: Faults)

  datatype RuntimeResult = RuntimeResult(
    event: S.Event,
    findings: seq<Finding>,
    posture: Option<Projection>,
    response: Option<ResponseType>,
    refusal: Option<RefusalReason>,
    authorization: Option<G.Grant>)

  /** What escapes `execute` as an exception. */
  datatype RuntimeError = SessionFault(session: S.SessionError) | ContainmentFault(service: ServiceError)

  datatype Settings = Settings(
    policy: Option<Retention>,
    window: Time,
    vocabulary: set<string>,
    profiles: Option<map<string, X.Capabilities>>,
    epochChecked: bool)

  datatype Platform = Platform(
    agents: Agents,
    sessions: S.Store,
    findings: Findings.Store,
    projections: Projections,
    authority: Option<G.Authority>,
    audits: seq<Audit>)

  // ---- the pieces of the pipeline -------------------------------------------------------------------

  function BindingFor(q: Inquiry): Option<ExecutionBinding> {
    if q.target.None? || q.version.None? then None
    else
      var b := FromOperation(q.toolId, q.version.value, q.target.value.0, q.target.value.1);
      if b.Ok? then Some(b.value) else None
  }

  /** No coherent operation to evaluate, as opposed to an unresolved tool. */
  predicate Malformed(q: Inquiry) {
    q.target.None? || (q.version.Some? && BindingFor(q).None?)
  }

  function DecisionFor(agents: Agents, q: Inquiry): Decision {
    if Malformed(q) || RefusalUnder(agents, q.agentId, q.faults.outage).Some? then DENY else q.policy
  }

  /** Content rules are handed the request's session and agent, and report under them. */
  function ContentOf(q: Inquiry): seq<Finding> {
    seq(|q.content|, i requires 0 <= i < |q.content| => q.content[i].(sessionId := q.sessionId, agentId := q.agentId))
  }

  predicate AllOf(findings: seq<Finding>, agent: string) {
    forall f :: f in findings ==> f.agentId == agent
  }

  /** The enforcement snapshot: epoch, baseline and generation from one read. */
  function SnapshotOf(agents: Agents, agent: string): E.EnforcementState {
    if Known(agents, agent) then E.StateOf(agents.enforcement, agent) else E.CLEAN_STATE
  }

  /** `recommend_for_level` */
  function RecommendForLevel(level: RiskLevel): ResponseType {
    match level
    case LowRisk => MONITOR
    case MediumRisk => ALERT
    case HighRisk => REQUIRE_APPROVAL
    case CriticalRisk => SUSPEND_AGENT
  }

  /** The response may restrict what authorization allowed, and only that. */
  function Restricted(decision: Decision, response: ResponseType): Decision {
    if decision != ALLOW then decision
    else if response == SUSPEND_AGENT then DENY
    else if response == REQUIRE_APPROVAL then APPROVAL_REQUIRED
    else ALLOW
  }

  function Detected(p: Platform, settings: Settings, e: S.Event, snapshot: E.EnforcementState, now: Time): seq<Finding> {
    DetectFor(p.sessions.events, p.findings.log, e, settings.window, snapshot.baseline.agentEvents,
              snapshot.recoveryGeneration, now)
  }

  /** `_assess_agent_posture`: the projections afterwards and the posture, or none when it cannot
      be established. */
  function AssessWith(ps: Projections, mark: Watermark, log: seq<Finding>, vocabulary: set<string>, agent: string,
                      fault: bool): (Projections, Option<Projection>)
  {
    if agent in ps && ps[agent].cursor < ps[agent].baseline then (ps, None)
    else if agent in ps && ps[agent].state == HEALTHY then (ps, Some(ps[agent]))
    else if fault then (ps, None)
    else
      var rebuilt := Rebuild(agent, vocabulary, Listed(log, agent, None), mark);
      (ps[agent := rebuilt], Some(rebuilt))
  }

  function AssessPosture(p: Platform, settings: Settings, agent: string, fault: bool): (Projections, Option<Projection>) {
    AssessWith(p.projections, SnapshotOf(p.agents, agent).baseline, p.findings.log, settings.vocabulary, agent, fault)
  }

  function ProfileFor(settings: Settings, toolId: string): Option<X.Capabilities> {
    if settings.profiles.Some? && "profile-" + toolId in settings.profiles.value
    then Some(settings.profiles.value["profile-" + toolId]) else None
  }

  /** The gates between a decision and a grant: the authority afterwards, the grant, and the
      decision they leave. */
  function Authorize(p: Platform, settings: Settings, q: Inquiry, epoch: nat, intended: Decision, now: Time)
    : (Option<G.Authority>, Option<G.Grant>, Decision)
  {
    var denied := if intended == ALLOW then DENY else intended;
    if p.authority.None? then (None, None, intended)
    else if BindingFor(q).None? || ProfileFor(settings, q.toolId).None? then (p.authority, None, denied)
    else
      var profile := ProfileFor(settings, q.toolId).value;
      var current := if settings.epochChecked then Some(E.StateOf(p.agents.enforcement, q.agentId).epoch) else None;
      var (a, grant) := G.Issue(p.authority.value,
                                G.Request(BindingFor(q).value, q.agentId, q.sessionId, Some(profile.profileId), Some(profile.digest)),
                                intended, Some(epoch), current, now);
      (Some(a), grant, if grant.None? then denied else intended)
  }

  function Closing(authority: Option<G.Authority>, agent: string): Option<G.Authority> {
    if authority.None? then None else Some(G.SuspendIssuance(authority.value, agent, G.ENFORCEMENT).0)
  }

  /** `_suspend_agent`: close issuance first, then the transition. */
  function Contain(p: Platform, agent: string, now: Time): (Platform, Result<(), ServiceError>) {
    var (agents, r) := Suspend(p.agents, agent, now);
    (p.(agents := agents, authority := Closing(p.authority, agent)), if r == Err(AgentNotFound) then Ok(()) else r)
  }

  function Audited(p: Platform, e: S.Event, decision: Decision): Platform {
    p.(audits := p.audits + [Audit(e.sessionId, e.agentId, decision)])
  }

  // ---- the exits -----------------------------------------------------------------------------------

  /** The refusals reached after the event was recorded. */
  function Refuse(p: Platform, e: S.Event, reason: RefusalReason, findings: seq<Finding>)
    : (Platform, Result<RuntimeResult, RuntimeError>)
  {
    var (sessions, r) := S.Finalize(p.sessions, e.sessionId, e.sequence, DENY);
    var t := p.(sessions := sessions);
    if r.Err? then (t, Err(SessionFault(r.error)))
    else (Audited(t, e, DENY),
          Ok(RuntimeResult(e.(finalDecision := Some(DENY)), findings, None, None, Some(reason), None)))
  }

  /** From a posture to the result. */
  function Conclude(p: Platform, settings: Settings, q: Inquiry, e: S.Event, snapshot: E.EnforcementState,
                    accepted: seq<Finding>, posture: Projection, now: Time): (Platform, Result<RuntimeResult, RuntimeError>)
  {
    var response := RecommendForLevel(posture.level);
    var (authority, grant, final) := Authorize(p, settings, q, snapshot.epoch, Restricted(e.decision, response), now);
    var (sessions, r) := S.Finalize(p.sessions, e.sessionId, e.sequence, final);
    var t := p.(authority := authority, sessions := sessions);
    if r.Err? then (t, Err(SessionFault(r.error)))
    else
      var (u, contained) := if response == SUSPEND_AGENT then Contain(t, q.agentId, now) else (t, Ok(()));
      if contained.Err? then (u, Err(ContainmentFault(contained.error)))
      else (Audited(u, e, final),
            Ok(RuntimeResult(e.(finalDecision := Some(final)), accepted, Some(posture), Some(response), None, grant)))
  }

  /** The evidence store and the projections after detection. */
  function Recorded(p: Platform, q: Inquiry, candidates: seq<Finding>, now: Time): (Platform, seq<Finding>) {
    var (store, accepted) := RecordNew(p.findings, candidates, now);
    (p.(findings := store, projections := IngestAll(p.projections, accepted, q.faults.ingest)), accepted)
  }

  /** Everything after detection. */
  function AfterDetection(p: Platform, settings: Settings, q: Inquiry, e: S.Event, snapshot: E.EnforcementState,
                          candidates: seq<Finding>, now: Time): (Platform, Result<RuntimeResult, RuntimeError>)
  {
    var (t, accepted) := Recorded(p, q, candidates, now);
    var (projections, posture) := AssessPosture(t, settings, q.agentId, q.faults.reconcile);
    var u := t.(projections := projections);
    if posture.None? then Refuse(u, e, POSTURE_RECONCILIATION_FAILED, accepted)
    else Conclude(u, settings, q, e, snapshot, accepted, posture.value, now)
  }

  /** Everything after the event is recorded. */
  function AfterRecording(p: Platform, settings: Settings, q: Inquiry, e: S.Event, snapshot: E.EnforcementState, now: Time)
    : (Platform, Result<RuntimeResult, RuntimeError>)
  {
    if q.faults.horizon then Refuse(p, e, HORIZON_UNAVAILABLE, [])
    else if q.faults.evidence then Refuse(p, e, EVIDENCE_RECORDING_FAILED, [])
    else AfterDetection(p, settings, q, e, snapshot, ContentOf(q) + Detected(p, settings, e, snapshot, now), now)
  }

  function EventFor(q: Inquiry, decision: Decision): S.Event {
    S.Event(q.sessionId, q.agentId, q.toolId, q.version, decision, None, 0, 0, q.timestamp)
  }

  function UnboundEvent(q: Inquiry): S.Event {
    S.Event(q.sessionId, q.agentId, q.toolId, None, DENY, Some(DENY), 0, 0, q.timestamp)
  }

  /** `execute` */
  function Execute(p: Platform, settings: Settings, q: Inquiry, now: Time): (Platform, Result<RuntimeResult, RuntimeError>) {
    var (sessions, bound) := S.Bind(p.sessions, q.sessionId, q.agentId, now);
    var t := p.(sessions := sessions);
    if bound.Err? then
      (Audited(t, UnboundEvent(q), DENY),
       Ok(RuntimeResult(UnboundEvent(q), [], None, None, Some(SESSION_BINDING_INVALID), None)))
    else
      var (recorded, r) := RecordAndPrune(t.sessions, settings.policy, EventFor(q, DecisionFor(t.agents, q)));
      var u := t.(sessions := recorded);
      if r.Err? then (u, Err(SessionFault(r.error)))
      else AfterRecording(u, settings, q, r.value, SnapshotOf(t.agents, q.agentId), now)
  }

  // ---- the service ------------------------------------------------------------------------------------

  class AuditService {
    var records: seq<Audit>

    constructor ()
      ensures records == []
    {
      records := [];
    }

    method RecordEvent(audit: Audit)
      modifies this
      ensures records == old(records) + [audit]
    {
      records := records + [audit];
    }
  }

  class RuntimeService {
    const agentService: AgentService
    const sessionService: SessionService
    const findingsService: FindingsService
    const detectionService: DetectionService
    const riskAggregator: RiskAggregator
    const authority: G.ExecutionAuthority?
    const profiles: Option<map<string, X.Capabilities>>
    const auditService: AuditService

    /** A configured authority that checks epochs reads the same enforcement repository. */
    ghost predicate Valid()
      reads riskAggregator, riskAggregator.projections.Values
    {
      && agentService.Valid() && riskAggregator.Valid()
      && (authority != null && authority.enforcementRepository != null
          ==> authority.enforcementRepository == agentService.enforcementRepository)
    }

    ghost function Configuration(): Settings {
      Settings(sessionService.policy, detectionService.window, riskAggregator.vocabulary, profiles,
               authority != null && authority.enforcementRepository != null)
    }

    ghost function View(): Platform
      reads agentService.agentRepository, agentService.enforcementRepository, agentService.administrativeRepository
      reads sessionService.repository, findingsService, authority, auditService
      reads riskAggregator, riskAggregator.projections.Values
      requires Valid()
    {
      Platform(agentService.View(), sessionService.repository.View(), findingsService.View(), riskAggregator.View(),
               if authority == null then None else Some(authority.View()), auditService.records)
    }

    constructor (agentService: AgentService, sessionService: SessionService, findingsService: FindingsService,
                 detectionService: DetectionService, riskAggregator: RiskAggregator, authority: G.ExecutionAuthority?,
                 profiles: Option<map<string, X.Capabilities>>, auditService: AuditService)
      requires agentService.Valid() && riskAggregator.Valid()
      requires authority != null && authority.enforcementRepository != null
               ==> authority.enforcementRepository == agentService.enforcementRepository
      ensures Valid() && this.agentService == agentService && this.authority == authority
    {
      this.agentService, this.sessionService, this.findingsService := agentService, sessionService, findingsService;
      this.detectionService, this.riskAggregator, this.authority := detectionService, riskAggregator, authority;
      this.profiles, this.auditService := profiles, auditService;
    }

    method FinalizeEvent(e: S.Event, d: Decision) returns (r: Result<(), S.SessionError>)
      requires Valid()
      modifies sessionService.repository
      ensures Valid()
      ensures View() == old(View()).(sessions := S.Finalize(old(View()).sessions, e.sessionId, e.sequence, d).0)
      ensures r == S.Finalize(old(View()).sessions, e.sessionId, e.sequence, d).1
    {
      hide S.Finalize;
      r := sessionService.repository.UpdateEventFinalDecision(e.sessionId, e.sequence, d);
    }

    method AuditDecision(e: S.Event, d: Decision)
      requires Valid()
      modifies auditService
      ensures Valid() && View() == Audited(old(View()), e, d)
    {
      auditService.RecordEvent(Audit(e.sessionId, e.agentId, d));
    }

    /** The shared tail of the refusals that follow the recorded event. */
    method RefuseRecorded(e: S.Event, reason: RefusalReason, findings: seq<Finding>)
      returns (r: Result<RuntimeResult, RuntimeError>)
      requires Valid()
      modifies sessionService.repository, auditService
      ensures Valid() && (View(), r) == Refuse(old(View()), e, reason, findings)
    {
      hide View, S.Finalize;
      var finalized := FinalizeEvent(e, DENY);
      if finalized.Err? {
        return Err(SessionFault(finalized.error));
      }
      AuditDecision(e, DENY);
      r := Ok(RuntimeResult(e.(finalDecision := Some(DENY)), findings, None, None, Some(reason), None));
    }

    method DetectBehaviour(e: S.Event, snapshot: E.EnforcementState, now: Time) returns (detected: seq<Finding>)
      requires Valid()
      ensures detected == Detected(View(), Configuration(), e, snapshot, now)
    {
      hide Detect, S.Eligible, Listed;
      var eligible := sessionService.repository.ListEligibleEvents(
        QueryFor(e, detectionService.window, snapshot.baseline.agentEvents));
      var priors := findingsService.ListForAgent(e.agentId, Some(e.sessionId));
      detected := detectionService.DetectExcessiveDenials(eligible, e.timestamp, priors, snapshot.recoveryGeneration, now);
    }

    /** Evidence is recorded, then projected; a failed projection degrades the posture of the
        request's agent, whose evidence all of it is. */
    method RecordEvidence(candidates: seq<Finding>, q: Inquiry, now: Time) returns (accepted: seq<Finding>)
      requires Valid()
      requires AllOf(candidates, q.agentId)
      modifies findingsService, riskAggregator.projections.Values
      ensures Valid() && riskAggregator.projections == old(riskAggregator.projections)
      ensures (View(), accepted) == Recorded(old(View()), q, candidates, now)
    {
      hide RecordNew, Ingest;
      accepted := findingsService.RecordNewFindings(candidates, now);
      AcceptedKeepAgent(old(findingsService.View()), candidates, now, q.agentId);
      ghost var start := riskAggregator.View();
      for i := 0 to |accepted|
        invariant Valid() && riskAggregator.projections == old(riskAggregator.projections)
        invariant findingsService.View() == RecordNew(old(findingsService.View()), candidates, now).0
        invariant riskAggregator.View() == IngestAll(start, accepted[..i], q.faults.ingest)
      {
        assert accepted[..i + 1][..i] == accepted[..i];
        ghost var before := riskAggregator.View();
        if i in q.faults.ingest {
          riskAggregator.MarkAgentStale(q.agentId);
          FaultMarksStale(before, accepted[i]);
        } else {
          var applied := riskAggregator.IngestFinding(accepted[i]);
        }
      }
      assert accepted[..|accepted|] == accepted;
    }

    /** `get_current_baseline`, with an empty baseline for an unregistered agent. */
    method CurrentBaseline(agent: string) returns (mark: Watermark)
      requires agentService.Valid()
      ensures mark == SnapshotOf(agentService.View(), agent).baseline
    {
      var enforcement := agentService.GetEnforcementState(agent);
      mark := if enforcement.Ok? then enforcement.value.baseline else NO_BASELINE;
    }

    /** The authoritative scan at the stored baseline. */
    method ReconcilePosture(agent: string, mark: Watermark) returns (posture: Option<Projection>)
      requires riskAggregator.Valid()
      modifies riskAggregator`projections, riskAggregator.projections.Values
      ensures riskAggregator.Valid() && fresh(riskAggregator.projections.Values - old(riskAggregator.projections.Values))
      ensures var rebuilt := Rebuild(agent, riskAggregator.vocabulary, Listed(findingsService.View().log, agent, None), mark);
              riskAggregator.View() == old(riskAggregator.View())[agent := rebuilt] && posture == Some(rebuilt)
    {
      hide Rebuild, Listed;
      var evidence := findingsService.ListForAgent(agent, None);
      var reconciled := riskAggregator.ReconcileAgent(agent, evidence, mark);
      posture := Some(reconciled.value);
    }

    method EstablishPosture(agent: string, fault: bool) returns (posture: Option<Projection>)
      requires Valid()
      modifies riskAggregator`projections, riskAggregator.projections.Values
      ensures riskAggregator.Valid() && fresh(riskAggregator.projections.Values - old(riskAggregator.projections.Values))
      ensures (riskAggregator.View(), posture)
              == AssessWith(old(riskAggregator.View()), SnapshotOf(agentService.View(), agent).baseline,
                            findingsService.View().log, riskAggregator.vocabulary, agent, fault)
    {
      hide Rebuild, Listed, SnapshotOf, View;
      var cached := riskAggregator.GetPosture(agent);
      if cached.Err? {
        return None;
      }
      if cached.value.state == HEALTHY {
        return Some(cached.value);
      }
      if fault {
        return None;
      }
      var mark := CurrentBaseline(agent);
      posture := ReconcilePosture(agent, mark);
    }

    method AssessAgentPosture(agent: string, fault: bool) returns (posture: Option<Projection>)
      requires Valid()
      modifies riskAggregator`projections, riskAggregator.projections.Values
      ensures Valid() && fresh(riskAggregator.projections.Values - old(riskAggregator.projections.Values))
      ensures View() == old(View()).(projections := riskAggregator.View())
      ensures (riskAggregator.View(), posture) == AssessPosture(old(View()), Configuration(), agent, fault)
    {
      hide AssessWith, SnapshotOf;
      posture := EstablishPosture(agent, fault);
    }

    /** The binding and capability gates, and issuance. */
    method AuthorizeExecution(q: Inquiry, epoch: nat, intended: Decision, now: Time)
      returns (grant: Option<G.Grant>, final: Decision)
      requires Valid()
      modifies authority
      ensures Valid()
      ensures var (a, g, d) := Authorize(old(View()), Configuration(), q, epoch, intended, now);
              View() == old(View()).(authority := a) && grant == g && final == d
    {
      hide FromOperation, G.CreateGrant;
      grant, final := None, intended;
      if authority == null {
        return;
      }
      var binding := BindingFor(q);
      var profileId := "profile-" + q.toolId;
      if binding.None? || profiles.None? || profileId !in profiles.value {
        final := if intended == ALLOW then DENY else intended;
        return;
      }
      var profile := profiles.value[profileId];
      grant := authority.IssueGrant(
        G.Request(binding.value, q.agentId, q.sessionId, Some(profile.profileId), Some(profile.digest)),
        intended, Some(epoch), now);
      if grant.None? && intended == ALLOW {
        final := DENY;
      }
    }

    /** Issuance closes when there is an authority to close it. */
    method CloseIssuance(agent: string)
      requires Valid()
      modifies authority
      ensures Valid() && View() == old(View()).(authority := Closing(old(View()).authority, agent))
    {
      hide G.SuspendIssuance;
      if authority != null {
        var revoked := authority.Suspend(agent, G.ENFORCEMENT);
      }
    }

    method SuspendAgent(agent: string, now: Time) returns (r: Result<(), ServiceError>)
      requires Valid()
      modifies authority, agentService.enforcementRepository
      ensures Valid() && (View(), r) == Contain(old(View()), agent, now)
    {
      hide Suspend, Closing;
      CloseIssuance(agent);
      var suspended := agentService.SuspendAgent(agent, now);
      r := if suspended == Err(AgentNotFound) then Ok(()) else suspended;
    }

    /** From the response to the result. */
    method ConcludeRequest(q: Inquiry, e: S.Event, snapshot: E.EnforcementState, accepted: seq<Finding>,
                           posture: Projection, now: Time) returns (r: Result<RuntimeResult, RuntimeError>)
      requires Valid()
      modifies sessionService.repository, auditService, authority, agentService.enforcementRepository
      ensures Valid() && (View(), r) == Conclude(old(View()), Configuration(), q, e, snapshot, accepted, posture, now)
    {
      hide View, Authorize, S.Finalize, Contain, Audited;
      var response := RecommendForLevel(posture.level);
      var grant, final := AuthorizeExecution(q, snapshot.epoch, Restricted(e.decision, response), now);
      var finalized := FinalizeEvent(e, final);
      if finalized.Err? {
        return Err(SessionFault(finalized.error));
      }
      if response == SUSPEND_AGENT {
        var contained := SuspendAgent(q.agentId, now);
        if contained.Err? {
          return Err(ContainmentFault(contained.error));
        }
      }
      AuditDecision(e, final);
      r := Ok(RuntimeResult(e.(finalDecision := Some(final)), accepted, Some(posture), Some(response), None, grant));
    }

    /** Evidence, posture, response. */
    method JudgeRequest(q: Inquiry, e: S.Event, snapshot: E.EnforcementState, candidates: seq<Finding>, now: Time)
      returns (r: Result<RuntimeResult, RuntimeError>)
      requires Valid() && AllOf(candidates, q.agentId)
      modifies sessionService.repository, findingsService, auditService, authority, agentService.enforcementRepository
      modifies riskAggregator`projections, riskAggregator.projections.Values
      ensures Valid() && (View(), r) == AfterDetection(old(View()), Configuration(), q, e, snapshot, candidates, now)
    {
      hide View, Refuse, Conclude, Recorded, AssessPosture, AllOf;
      var accepted := RecordEvidence(candidates, q, now);
      var posture := AssessAgentPosture(q.agentId, q.faults.reconcile);
      if posture.None? {
        r := RefuseRecorded(e, POSTURE_RECONCILIATION_FAILED, accepted);
        return;
      }
      r := ConcludeRequest(q, e, snapshot, accepted, posture.value, now);
    }

    /** Detection, then the judgement. */
    method ContinueRecorded(q: Inquiry, e: S.Event, snapshot: E.EnforcementState, now: Time)
      returns (r: Result<RuntimeResult, RuntimeError>)
      requires Valid() && e.agentId == q.agentId
      modifies sessionService.repository, findingsService, auditService, authority, agentService.enforcementRepository
      modifies riskAggregator`projections, riskAggregator.projections.Values
      ensures Valid() && (View(), r) == AfterRecording(old(View()), Configuration(), q, e, snapshot, now)
    {
      hide View, Refuse, AfterDetection, Detected, ContentOf, AllOf;
      if q.faults.horizon {
        r := RefuseRecorded(e, HORIZON_UNAVAILABLE, []);
        return;
      }
      var detected := DetectBehaviour(e, snapshot, now);
      if q.faults.evidence {
        r := RefuseRecorded(e, EVIDENCE_RECORDING_FAILED, []);
        return;
      }
      CandidatesOwn(View(), Configuration(), q, e, snapshot, now);
      r := JudgeRequest(q, e, snapshot, ContentOf(q) + detected, now);
    }

    method BindOrValidate(q: Inquiry, now: Time) returns (r: Result<S.Session, S.SessionError>)
      requires Valid()
      modifies sessionService.repository
      ensures Valid()
      ensures View() == old(View()).(sessions := S.Bind(old(View()).sessions, q.sessionId, q.agentId, now).0)
      ensures r == S.Bind(old(View()).sessions, q.sessionId, q.agentId, now).1
    {
      hide S.Bind;
      r := sessionService.repository.BindOrCreateSession(q.sessionId, q.agentId, now);
    }

    method RecordRequest(e: S.Event) returns (r: Result<S.Event, S.SessionError>)
      requires Valid()
      modifies sessionService.repository
      ensures Valid()
      ensures View() == old(View()).(sessions := RecordAndPrune(old(View()).sessions, Configuration().policy, e).0)
      ensures r == RecordAndPrune(old(View()).sessions, Configuration().policy, e).1
    {
      hide RecordAndPrune;
      r := sessionService.RecordEvent(e);
    }

    method Decide(q: Inquiry) returns (decision: Decision)
      requires Valid()
      ensures decision == DecisionFor(View().agents, q)
    {
      hide FromOperation, RefusalUnder;
      var refusal := agentService.RefusalFor(q.agentId, q.faults.outage);
      decision := if Malformed(q) || refusal.Some? then DENY else q.policy;
    }

    method Snapshot(agent: string) returns (snapshot: E.EnforcementState)
      requires Valid()
      ensures snapshot == SnapshotOf(View().agents, agent)
    {
      var enforcement := agentService.GetEnforcementState(agent);
      snapshot := if enforcement.Ok? then enforcement.value else E.CLEAN_STATE;
    }

    /** `execute` */
    method ExecuteRequest(q: Inquiry, now: Time) returns (r: Result<RuntimeResult, RuntimeError>)
      requires Valid()
      modifies sessionService.repository, findingsService, auditService, authority, agentService.enforcementRepository
      modifies riskAggregator`projections, riskAggregator.projections.Values
      ensures Valid() && (View(), r) == Execute(old(View()), Configuration(), q, now)
    {
      hide View, AfterRecording, S.Bind, RecordAndPrune, DecisionFor, SnapshotOf, Audited;
      var bound := BindOrValidate(q, now);
      if bound.Err? {
        AuditDecision(UnboundEvent(q), DENY);
        return Ok(RuntimeResult(UnboundEvent(q), [], None, None, Some(SESSION_BINDING_INVALID), None));
      }
      var decision := Decide(q);
      var snapshot := Snapshot(q.agentId);
      RecordedIsOwn(View().sessions, Configuration().policy, EventFor(q, decision));
      var recorded := RecordRequest(EventFor(q, decision));
      if recorded.Err? {
        return Err(SessionFault(recorded.error));
      }
      r := ContinueRecorded(q, recorded.value, snapshot, now);
    }
  }

  lemma FaultMarksStale(ps: Projections, f: Finding)
    ensures MarkStale(ps, f.agentId) == Ingest(ps, f, true)
  {
  }

  lemma {:induction false} AcceptedKeepAgent(s: Findings.Store, candidates: seq<Finding>, now: Time, agent: string)
    requires AllOf(candidates, agent)
    ensures AllOf(RecordNew(s, candidates, now).1, agent)
  {
    if candidates != [] {
      var front, last := candidates[..|candidates| - 1], candidates[|candidates| - 1];
      assert candidates == front + [last];
      AcceptedKeepAgent(s, front, now, agent);
    }
  }

  lemma RecordedIsOwn(s: S.Store, policy: Option<Retention>, e: S.Event)
    ensures var r := RecordAndPrune(s, policy, e).1;
            r.Ok? ==> r.value.agentId == e.agentId && r.value.sessionId == e.sessionId
  {
  }

  /** Detection reports crossings of the event's own agent. */
  lemma DetectedOwn(p: Platform, settings: Settings, e: S.Event, snapshot: E.EnforcementState, now: Time)
    ensures forall f :: f in Detected(p, settings, e, snapshot, now) ==> f.agentId == e.agentId
  {
    hide Detect, CrossingEvidence, SessionFindingId;
    var q := QueryFor(e, settings.window, snapshot.baseline.agentEvents);
    var eligible := S.Eligible(p.sessions.events, q);
    Sessions.MatchingMembers(p.sessions.events, q);
    StableSortSorts(S.ScopeOrder(q.scope), S.Matching(p.sessions.events, q));
    forall f | f in eligible ensures f.agentId == e.agentId {
      assert f in multiset(S.Matching(p.sessions.events, q));
      assert f in S.Matching(p.sessions.events, q);
    }
    DetectOneAgent(eligible, Listed(p.findings.log, e.agentId, Some(e.sessionId)), e.agentId, snapshot.recoveryGeneration,
                   settings.window, e.timestamp, now);
  }

  lemma CandidatesOwn(p: Platform, settings: Settings, q: Inquiry, e: S.Event, snapshot: E.EnforcementState, now: Time)
    requires e.agentId == q.agentId
    ensures AllOf(ContentOf(q) + Detected(p, settings, e, snapshot, now), q.agentId)
  {
    hide Detected;
    DetectedOwn(p, settings, e, snapshot, now);
  }
}
