/** What the result of a request says, and what the request left alone:
    app/services/runtime_service.py:839-1420. */
module RuntimeResults {
  import opened Prelude
  import opened Findings
  import opened SessionServices
  import opened RiskProjection
  import opened RiskAggregation
  import opened AgentLifecycle
  import opened Binding
  import opened Runtime
  import opened RuntimeRuns
  import A = AdministrativePlane
  import E = EnforcementPlane
  import G = GrantAuthority
  import P = LifecycleAuthorization
  import R = EnforcementRaces
  import S = SessionStore
  import Sessions = SessionRuns
  import Risk = RiskRuns

  /** The operation is coherent: its target is known, and bound to the version when one is resolved. */
  predicate Coherent(q: Inquiry) {
    q.target.Some?
    && (q.version.Some? ==> FromOperation(q.toolId, q.version.value, q.target.value.0, q.target.value.1).Ok?)
  }

  /** Both planes answer, the agent is ACTIVE, and it is not suspended. */
  predicate MayExecute(p: Platform, q: Inquiry) {
    && !q.faults.outage.administrative && !q.faults.outage.enforcement
    && q.agentId in p.agents.administrative.states && p.agents.administrative.states[q.agentId].state == A.ACTIVE
    && (q.agentId in p.agents.enforcement.states ==> p.agents.enforcement.states[q.agentId].suspendedAt.None?)
  }

  lemma DecidesExactly(p: Platform, q: Inquiry)
    ensures DecisionFor(p.agents, q) == if Coherent(q) && MayExecute(p, q) then q.policy else DENY
  {
    hide FromOperation;
    P.RefusalIsMostSignificant(
      if q.faults.outage.administrative then P.Unavailable
      else if q.agentId in p.agents.administrative.states then P.Present(p.agents.administrative.states[q.agentId]) else P.Missing,
      if q.faults.outage.enforcement then P.Unavailable
      else if q.agentId in p.agents.enforcement.states then P.Present(p.agents.enforcement.states[q.agentId]) else P.Missing,
      P.AGENT_DISABLED);
  }

  /** The response a posture calls for. */
  predicate Answers(response: ResponseType, level: RiskLevel) {
    match level
    case LowRisk => response == MONITOR
    case MediumRisk => response == ALERT
    case HighRisk => response == REQUIRE_APPROVAL
    case CriticalRisk => response == SUSPEND_AGENT
  }

  /** The session is the agent's to use: not terminated and not another agent's. */
  predicate Owns(s: S.Store, id: string, agent: string) {
    id !in s.tombstones && (id in s.sessions ==> s.sessions[id].agentId == agent)
  }

  /** What the result says. It names the request; the decision is the policy's exactly when the
      operation is coherent and the agent may execute, and DENY otherwise; each refusal is reported for
      its own cause, the first in the pipeline's order; a result without refusal carries a posture and
      the response that posture calls for, and a refused one carries neither. */
  ghost predicate ResultSays(p: Platform, settings: Settings, q: Inquiry, now: Time) {
    var r := Execute(p, settings, q, now).1;
    r.Ok? ==>
      var e, owns := r.value.event, Owns(p.sessions, q.sessionId, q.agentId);
      && e.sessionId == q.sessionId && e.agentId == q.agentId && e.toolId == q.toolId && e.timestamp == q.timestamp
      && (owns ==> e.toolVersion == q.version && e.decision == if Coherent(q) && MayExecute(p, q) then q.policy else DENY)
      && (!owns ==> e.toolVersion.None? && e.decision == DENY && e.finalDecision == Some(DENY) && r.value.findings == [])
      && (r.value.refusal == Some(SESSION_BINDING_INVALID) <==> !owns)
      && (r.value.refusal == Some(HORIZON_UNAVAILABLE) <==> owns && q.faults.horizon)
      && (r.value.refusal == Some(EVIDENCE_RECORDING_FAILED) <==> owns && !q.faults.horizon && q.faults.evidence)
      && (r.value.refusal in {None, Some(POSTURE_RECONCILIATION_FAILED)} <==> owns && !q.faults.horizon && !q.faults.evidence)
      && (r.value.posture.Some? <==> r.value.refusal.None?) && (r.value.response.Some? <==> r.value.refusal.None?)
      && (r.value.posture.Some? ==> Answers(r.value.response.value, r.value.posture.value.level))
  }

  lemma RefuseSays(p: Platform, e: S.Event, reason: RefusalReason, findings: seq<Finding>)
    ensures var r := Refuse(p, e, reason, findings).1;
            r.Ok? ==> && r.value.event == e.(finalDecision := Some(DENY)) && r.value.refusal == Some(reason)
                      && r.value.posture.None? && r.value.response.None?
  {
    hide S.Finalize;
  }

  lemma ConcludeSays(p: Platform, settings: Settings, q: Inquiry, e: S.Event, snapshot: E.EnforcementState,
                     accepted: seq<Finding>, posture: Projection, now: Time)
    ensures var r := Conclude(p, settings, q, e, snapshot, accepted, posture, now).1;
            r.Ok? ==> && r.value.event == e.(finalDecision := r.value.event.finalDecision) && r.value.refusal.None?
                      && r.value.posture == Some(posture) && r.value.response.Some? && Answers(r.value.response.value, posture.level)
  {
    hide S.Finalize, Authorize, Contain;
  }

  lemma RecordedSays(p: Platform, settings: Settings, q: Inquiry, e: S.Event, snapshot: E.EnforcementState, now: Time)
    ensures var r := AfterRecording(p, settings, q, e, snapshot, now).1;
            r.Ok? ==>
              && r.value.event == e.(finalDecision := r.value.event.finalDecision)
              && (r.value.refusal == Some(HORIZON_UNAVAILABLE) <==> q.faults.horizon)
              && (r.value.refusal == Some(EVIDENCE_RECORDING_FAILED) <==> !q.faults.horizon && q.faults.evidence)
              && (r.value.refusal.None? || r.value.refusal == Some(POSTURE_RECONCILIATION_FAILED)
                  <==> !q.faults.horizon && !q.faults.evidence)
              && (r.value.posture.Some? <==> r.value.refusal.None?) && (r.value.response.Some? <==> r.value.refusal.None?)
              && (r.value.posture.Some? ==> Answers(r.value.response.value, r.value.posture.value.level))
  {
    hide Refuse, Conclude, Recorded, AssessPosture, Detected, ContentOf, Answers;
    RefuseSays(p, e, HORIZON_UNAVAILABLE, []);
    RefuseSays(p, e, EVIDENCE_RECORDING_FAILED, []);
    var (t, accepted) := Recorded(p, q, ContentOf(q) + Detected(p, settings, e, snapshot, now), now);
    var (projections, posture) := AssessPosture(t, settings, q.agentId, q.faults.reconcile);
    var u := t.(projections := projections);
    RefuseSays(u, e, POSTURE_RECONCILIATION_FAILED, accepted);
    if posture.Some? {
      ConcludeSays(u, settings, q, e, snapshot, accepted, posture.value, now);
    }
  }

  lemma ExecuteSays(p: Platform, settings: Settings, q: Inquiry, now: Time)
    ensures ResultSays(p, settings, q, now)
  {
    hide AfterRecording, Coherent, MayExecute, Answers, DecisionFor;
    DecidesExactly(p, q);
    Sessions.BindingAnswers(p.sessions, q.sessionId, q.agentId, now);
    var (bound, owner) := S.Bind(p.sessions, q.sessionId, q.agentId, now);
    var event := EventFor(q, DecisionFor(p.agents, q));
    RecordedKeeps(bound, settings.policy, event);
    hide S.Bind, RecordAndPrune;
    var (sessions, recorded) := RecordAndPrune(bound, settings.policy, event);
    if owner.Ok? && recorded.Ok? {
      RecordedSays(p.(sessions := sessions), settings, q, recorded.value, SnapshotOf(p.agents, q.agentId), now);
    }
  }

  lemma RecordedKeeps(s: S.Store, policy: Option<Retention>, e: S.Event)
    ensures var r := RecordAndPrune(s, policy, e).1;
            r.Ok? ==> r.value == e.(sequence := r.value.sequence, agentSequence := r.value.agentSequence)
  {
  }

  /** The posture a request is judged by. A projection whose cursor precedes its boundary is refused
      and kept as it is; a HEALTHY one is taken as it stands; otherwise the rebuild at the stored
      boundary is taken and kept for the next request, unless reconciliation fails. */
  lemma AssessAnswers(ps: Projections, mark: Watermark, log: seq<Finding>, vocabulary: set<string>, agent: string, fault: bool)
    ensures var (qs, posture) := AssessWith(ps, mark, log, vocabulary, agent, fault);
            var broken := agent in ps && ps[agent].cursor < ps[agent].baseline;
            var healthy := agent in ps && ps[agent].state == HEALTHY;
            && (posture.None? <==> broken || (!healthy && fault))
            && (broken || healthy || fault ==> qs == ps)
            && (healthy && !broken ==> posture == Some(ps[agent]))
            && (!broken && !healthy && !fault ==>
                  && posture == Some(Rebuild(agent, vocabulary, log, mark)) && qs == ps[agent := posture.value])
  {
    Risk.RebuildOfAgent(log, agent, mark);
  }

  // ---- what a request leaves alone ---------------------------------------------------------------------------

  /** A request whose response is not SUSPEND_AGENT, or that was refused, suspends nobody and closes no
      plane; one whose response is, touches no other agent; and none reopens a plane. */
  ghost predicate LeavesAlone(p: Platform, settings: Settings, q: Inquiry, now: Time) {
    var (t, r) := Execute(p, settings, q, now);
    r.Ok? ==>
      var suspends := r.value.response == Some(SUSPEND_AGENT);
      && t.agents.administrative == p.agents.administrative
      && (!suspends ==> t.agents == p.agents)
      && (forall a :: a != q.agentId ==> E.StateOf(t.agents.enforcement, a) == E.StateOf(p.agents.enforcement, a))
      && (t.authority.Some? <==> p.authority.Some?)
      && (p.authority.Some? ==>
            forall a :: G.ClosedPlanes(t.authority.value.closed, a)
                        == G.ClosedPlanes(p.authority.value.closed, a) + (if suspends && a == q.agentId then {G.ENFORCEMENT} else {}))
  }

  lemma AuthorizeKeepsPlanes(p: Platform, settings: Settings, q: Inquiry, epoch: nat, intended: Decision, now: Time)
    ensures var a := Authorize(p, settings, q, epoch, intended, now).0;
            (a.Some? <==> p.authority.Some?) && (p.authority.Some? ==> a.value.closed == p.authority.value.closed)
  {
    hide BindingFor, ProfileFor;
  }

  lemma SuspendKeepsOthers(a: Agents, who: string, now: Time)
    ensures var b := Suspend(a, who, now).0;
            b.administrative == a.administrative
            && forall x :: x != who ==> E.StateOf(b.enforcement, x) == E.StateOf(a.enforcement, x)
  {
  }

  lemma ConcludeLeavesAlone(p: Platform, settings: Settings, q: Inquiry, e: S.Event, snapshot: E.EnforcementState,
                            accepted: seq<Finding>, posture: Projection, now: Time)
    ensures var (t, r) := Conclude(p, settings, q, e, snapshot, accepted, posture, now);
            r.Ok? ==>
              var suspends := r.value.response == Some(SUSPEND_AGENT);
              && t.agents.administrative == p.agents.administrative && (!suspends ==> t.agents == p.agents)
              && (forall a :: a != q.agentId ==> E.StateOf(t.agents.enforcement, a) == E.StateOf(p.agents.enforcement, a))
              && (t.authority.Some? <==> p.authority.Some?)
              && (p.authority.Some? ==>
                    forall a :: G.ClosedPlanes(t.authority.value.closed, a)
                                == G.ClosedPlanes(p.authority.value.closed, a) + (if suspends && a == q.agentId then {G.ENFORCEMENT} else {}))
  {
    hide S.Finalize, Authorize, Suspend, G.SuspendIssuance, G.ClosedPlanes;
    var intended := Restricted(e.decision, RecommendForLevel(posture.level));
    AuthorizeKeepsPlanes(p, settings, q, snapshot.epoch, intended, now);
    SuspendKeepsOthers(p.agents, q.agentId, now);
    var authority := Authorize(p, settings, q, snapshot.epoch, intended, now).0;
    if authority.Some? {
      forall a
        ensures G.ClosedPlanes(G.SuspendIssuance(authority.value, q.agentId, G.ENFORCEMENT).0.closed, a)
                == G.ClosedPlanes(authority.value.closed, a) + (if q.agentId == a then {G.ENFORCEMENT} else {})
      {
        SuspendCloses(authority.value, q.agentId, a);
      }
    }
    forall a | p.authority.Some?
      ensures G.ClosedPlanes(p.authority.value.closed, a) + {} == G.ClosedPlanes(p.authority.value.closed, a)
    {
    }
  }

  lemma RefuseLeavesAlone(p: Platform, e: S.Event, reason: RefusalReason, findings: seq<Finding>)
    ensures var (t, r) := Refuse(p, e, reason, findings);
            t.agents == p.agents && t.authority == p.authority && (r.Ok? ==> r.value.response.None?)
  {
    hide S.Finalize;
  }

  lemma ExecuteLeavesAlone(p: Platform, settings: Settings, q: Inquiry, now: Time)
    ensures LeavesAlone(p, settings, q, now)
  {
    hide S.Bind, RecordAndPrune, Conclude, Refuse, Recorded, AssessPosture, Detected, ContentOf, DecisionFor, SnapshotOf, G.ClosedPlanes,
         E.StateOf;
    var (bound, owner) := S.Bind(p.sessions, q.sessionId, q.agentId, now);
    var (sessions, recorded) := RecordAndPrune(bound, settings.policy, EventFor(q, DecisionFor(p.agents, q)));
    NothingAdded(p);
    if owner.Ok? && recorded.Ok? {
      var u, e, snapshot := p.(sessions := sessions), recorded.value, SnapshotOf(p.agents, q.agentId);
      var candidates := ContentOf(q) + Detected(u, settings, e, snapshot, now);
      var (v, accepted) := Recorded(u, q, candidates, now);
      var (projections, posture) := AssessPosture(v, settings, q.agentId, q.faults.reconcile);
      RecordedFrame(u, q, candidates, now);
      RefuseLeavesAlone(u, e, HORIZON_UNAVAILABLE, []);
      RefuseLeavesAlone(u, e, EVIDENCE_RECORDING_FAILED, []);
      RefuseLeavesAlone(v.(projections := projections), e, POSTURE_RECONCILIATION_FAILED, accepted);
      if posture.Some? {
        ConcludeLeavesAlone(v.(projections := projections), settings, q, e, snapshot, accepted, posture.value, now);
      }
    }
  }

  lemma NothingAdded(p: Platform)
    ensures p.authority.Some? ==>
              forall a :: G.ClosedPlanes(p.authority.value.closed, a) + {} == G.ClosedPlanes(p.authority.value.closed, a)
  {
  }

  /** Both hold of every request, whatever state it meets. */
  lemma EveryResultSays(p: Platform, settings: Settings, q: Inquiry, now: Time)
    ensures ResultSays(p, settings, q, now) && LeavesAlone(p, settings, q, now)
  {
    hide *;
    ExecuteSays(p, settings, q, now);
    ExecuteLeavesAlone(p, settings, q, now);
  }
}
