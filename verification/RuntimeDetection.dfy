/** Detection as the pipeline drives it: the session, evidence and boundary side of every run of the
    platform is a run of detection over its stores, so what is proved of those runs holds of requests. */
module RuntimeDetection {
  import opened Prelude
  import opened Findings
  import opened SessionServices
  import opened RiskProjection
  import opened RiskAggregation
  import opened AgentLifecycle
  import opened Detection
  import opened Runtime
  import opened RuntimeRuns
  import A = AdministrativePlane
  import C = EnforcementCoordination
  import D = DetectionRuns
  import E = EnforcementPlane
  import G = GrantAuthority
  import L = GrantLedger
  import Laws = DetectionLaws
  import Recovery = RuntimeRecovery
  import R = EnforcementRaces
  import S = SessionStore
  import Sessions = SessionRuns
  import Risk = RiskRuns

  function DetectionSettings(settings: Settings): D.Settings {
    D.Settings(settings.policy, settings.window)
  }

  // ---- the same stores ---------------------------------------------------------------------------------

  /** The detection world has the platform's sessions and evidence, and every agent's boundary and
      generation. */
  ghost predicate Mirrors(p: Platform, clock: Time, v: D.World) {
    && v.sessions == p.sessions && v.risk.store == p.findings && v.risk.clock <= clock
    && forall a :: SameLifecycle(p, v, a)
  }

  ghost predicate SameLifecycle(p: Platform, v: D.World, agent: string) {
    && Risk.BaselineOf(v.risk, agent) == E.StateOf(p.agents.enforcement, agent).baseline
    && D.Generation(v, agent) == E.StateOf(p.agents.enforcement, agent).recoveryGeneration
  }

  // ---- one request ---------------------------------------------------------------------------------------

  /** What the pipeline is handed is what the run of detection is handed. */
  lemma DetectedSame(p: Platform, clock: Time, v: D.World, settings: Settings, e: S.Event, now: Time)
    requires Mirrors(p, clock, v) && EnforcementKnown(p.agents)
    ensures Detected(p, settings, e, SnapshotOf(p.agents, e.agentId), now) == D.Detected(v, DetectionSettings(settings), e, now)
  {
    hide DetectFor;
    assert SameLifecycle(p, v, e.agentId);
  }

  function Binding(q: Inquiry, now: Time): D.Step {
    D.SessionStep(Sessions.BindStep(q.sessionId, q.agentId, now))
  }

  /** The detection world in which the request's event is evaluated: its session bound. */
  function Bound(v: D.World, settings: Settings, q: Inquiry, now: Time): D.World {
    D.Next(v, DetectionSettings(settings), Binding(q, now))
  }

  lemma BoundMirrors(p: Platform, clock: Time, v: D.World, settings: Settings, q: Inquiry, now: Time)
    requires Mirrors(p, clock, v)
    ensures Mirrors(p.(sessions := S.Bind(p.sessions, q.sessionId, q.agentId, now).0), clock, Bound(v, settings, q, now))
    ensures Bound(v, settings, q, now) == v.(sessions := S.Bind(p.sessions, q.sessionId, q.agentId, now).0)
  {
    hide S.Bind;
    var u := Bound(v, settings, q, now);
    forall a ensures SameLifecycle(p.(sessions := u.sessions), u, a) {
      assert SameLifecycle(p, v, a);
    }
  }

  /** How a request leaves the agents: untouched, or its own suspended. */
  lemma ExecuteKeepsLifecycle(p: Platform, settings: Settings, q: Inquiry, clock: Time, now: Time, agent: string)
    requires R.PlaneSound(p.agents.enforcement, clock) && clock <= now
    ensures var was, later := E.StateOf(p.agents.enforcement, agent), E.StateOf(Execute(p, settings, q, now).0.agents.enforcement, agent);
            later.baseline == was.baseline && later.recoveryGeneration == was.recoveryGeneration
  {
    hide Execute, Suspend, R.PlaneSound;
    ExecuteAgents(p, settings, q, now);
    Recovery.SuspendKeepsLifecycle(p.agents, q.agentId, clock, now, agent);
  }

  lemma ConcludeStores(p: Platform, settings: Settings, q: Inquiry, e: S.Event, snapshot: E.EnforcementState,
                       accepted: seq<Finding>, posture: Projection, now: Time) returns (d: Decision)
    ensures var t := Conclude(p, settings, q, e, snapshot, accepted, posture, now).0;
            t.findings == p.findings && t.sessions == S.Finalize(p.sessions, e.sessionId, e.sequence, d).0
  {
    hide S.Finalize, Authorize, Suspend, Closing;
    d := Authorize(p, settings, q, snapshot.epoch, Restricted(e.decision, RecommendForLevel(posture.level)), now).2;
  }

  lemma RefuseStores(p: Platform, e: S.Event, reason: RefusalReason, findings: seq<Finding>)
    ensures var t := Refuse(p, e, reason, findings).0;
            t.findings == p.findings && t.sessions == S.Finalize(p.sessions, e.sessionId, e.sequence, DENY).0
  {
    hide S.Finalize;
  }

  /** What a request past detection leaves in the stores. */
  lemma DetectionStores(p: Platform, settings: Settings, q: Inquiry, e: S.Event, snapshot: E.EnforcementState,
                        candidates: seq<Finding>, now: Time) returns (d: Decision)
    ensures var t := AfterDetection(p, settings, q, e, snapshot, candidates, now).0;
            && t.findings == RecordNew(p.findings, candidates, now).0
            && t.sessions == S.Finalize(p.sessions, e.sessionId, e.sequence, d).0
  {
    hide S.Finalize, RecordNew, IngestAll, AssessPosture, Conclude, Refuse;
    var (t, accepted) := Recorded(p, q, candidates, now);
    var (projections, posture) := AssessPosture(t, settings, q.agentId, q.faults.reconcile);
    var u := t.(projections := projections);
    if posture.None? {
      RefuseStores(u, e, POSTURE_RECONCILIATION_FAILED, accepted);
      d := DENY;
    } else {
      d := ConcludeStores(u, settings, q, e, snapshot, accepted, posture.value, now);
    }
  }

  /** The steps a request takes in the run of detection. */
  predicate OfRequest(step: D.Step, q: Inquiry) {
    match step
    case SessionStep(change) => change.RecordStep? ==> change.event.agentId == q.agentId && change.event.sessionId == q.sessionId
    case EvaluateStep(e, content, _, _) => e.agentId == q.agentId && e.sessionId == q.sessionId && content == ContentOf(q)
    case _ => false
  }

  /** The numbers of the agent's stored denials. */
  function StoredDenials(events: seq<S.Event>, agent: string): set<nat> {
    set i | 0 <= i < |events| && events[i].agentId == agent && events[i].decision == DENY :: events[i].agentSequence
  }

  lemma RunOne(v: D.World, settings: D.Settings, a: D.Step)
    ensures D.Run(v, settings, [a]) == D.Next(v, settings, a)
  {
    assert [a][..0] == [];
  }

  lemma RunThree(v: D.World, settings: D.Settings, a: D.Step, b: D.Step, c: D.Step)
    ensures D.Run(v, settings, [a, b, c]) == D.Next(D.Next(D.Next(v, settings, a), settings, b), settings, c)
  {
    hide D.Next;
    RunOne(v, settings, a);
    assert [a, b][..1] == [a] && [a, b, c][..2] == [a, b];
  }

  /** Recording and evaluating the request's event, in both. */
  lemma EvaluateMirrors(p: Platform, clock: Time, v: D.World, settings: Settings, q: Inquiry, event: S.Event, now: Time)
    requires Mirrors(p, clock, v) && EnforcementKnown(p.agents) && clock <= now && event.agentId == q.agentId
    requires RecordAndPrune(p.sessions, settings.policy, event).1.Ok?
    ensures var (sessions, recorded) := RecordAndPrune(p.sessions, settings.policy, event);
            var step := D.EvaluateStep(event, ContentOf(q), now - v.risk.clock, {});
            var u := D.Next(v, DetectionSettings(settings), step);
            var candidates := ContentOf(q) + Detected(p.(sessions := sessions), settings, recorded.value, SnapshotOf(p.agents, q.agentId), now);
            && Mirrors(p.(sessions := sessions, findings := RecordNew(p.findings, candidates, now).0), now, u)
            && u.denied == D.Observe(v, DetectionSettings(settings), Sessions.RecordStep(event)).denied
  {
    hide S.Record, Detected, D.Detected, RecordNew, IngestAll, ContentOf, SnapshotOf;
    D.RecordPositions(p.sessions, settings.policy, Sessions.RecordStep(event));
    var (sessions, recorded) := RecordAndPrune(p.sessions, settings.policy, event);
    var u := D.Observe(v, DetectionSettings(settings), Sessions.RecordStep(event));
    forall a ensures SameLifecycle(p.(sessions := sessions), u, a) {
      assert SameLifecycle(p, v, a);
    }
    DetectedSame(p.(sessions := sessions), clock, u, settings, recorded.value, now);
    var candidates := ContentOf(q) + Detected(p.(sessions := sessions), settings, recorded.value, SnapshotOf(p.agents, q.agentId), now);
    var t := p.(sessions := sessions, findings := RecordNew(p.findings, candidates, now).0);
    var w := D.Next(v, DetectionSettings(settings), D.EvaluateStep(event, ContentOf(q), now - v.risk.clock, {}));
    forall a ensures SameLifecycle(t, w, a) {
      assert SameLifecycle(p, v, a);
    }
  }

  /** Only recording adds a denial, and a recorded denial is stored. */
  lemma RecordDenies(v: D.World, settings: D.Settings, event: S.Event, agent: string)
    requires var r := S.Record(v.sessions, event).1;
             r.Ok? ==> r.value in D.Observe(v, settings, Sessions.RecordStep(event)).sessions.events
    ensures var u := D.Observe(v, settings, Sessions.RecordStep(event));
            D.Denied(u, agent) <= D.Denied(v, agent) + StoredDenials(u.sessions.events, agent)
  {
    hide S.Record, RecordAndPrune;
    var r := S.Record(v.sessions, event).1;
    var u := D.Observe(v, settings, Sessions.RecordStep(event));
    if r.Ok? && r.value.decision == DENY && r.value.agentId == agent {
      var i :| 0 <= i < |u.sessions.events| && u.sessions.events[i] == r.value;
      assert u.sessions.events[i].agentSequence in StoredDenials(u.sessions.events, agent);
    }
  }

  /** Finalizing changes no decision and no number. */
  lemma FinalizeKeepsDenials(s: S.Store, id: string, n: nat, d: Decision, agent: string, boundary: nat, from: Time, until: Time)
    ensures var t := S.Finalize(s, id, n, d).0;
            && StoredDenials(t.events, agent) == StoredDenials(s.events, agent)
            && Laws.Recent(t.events, agent, boundary, from, until) == Laws.Recent(s.events, agent, boundary, from, until)
  {
    var events, t := s.events, S.Finalize(s, id, n, d).0.events;
    assert |t| == |events| && forall i :: 0 <= i < |t| ==>
             t[i].agentId == events[i].agentId && t[i].decision == events[i].decision
             && t[i].agentSequence == events[i].agentSequence && t[i].timestamp == events[i].timestamp;
    hide S.Finalize;
    SameRecent(events, t, agent, boundary, from, until);
    SameRecent(t, events, agent, boundary, from, until);
  }

  lemma SameRecent(events: seq<S.Event>, others: seq<S.Event>, agent: string, boundary: nat, from: Time, until: Time)
    requires |events| == |others|
    requires forall i :: 0 <= i < |events| ==>
               others[i].agentId == events[i].agentId && others[i].decision == events[i].decision
               && others[i].agentSequence == events[i].agentSequence && others[i].timestamp == events[i].timestamp
    ensures StoredDenials(events, agent) <= StoredDenials(others, agent)
    ensures Laws.Recent(events, agent, boundary, from, until) <= Laws.Recent(others, agent, boundary, from, until)
  {
    forall n | n in StoredDenials(events, agent) ensures n in StoredDenials(others, agent) {
      var i :| 0 <= i < |events| && events[i].agentId == agent && events[i].decision == DENY && events[i].agentSequence == n;
      assert others[i].agentSequence == n;
    }
    forall n | n in Laws.Recent(events, agent, boundary, from, until) ensures n in Laws.Recent(others, agent, boundary, from, until) {
      var i :| 0 <= i < |events| && events[i].agentId == agent && events[i].decision == DENY && events[i].agentSequence > boundary
               && from <= events[i].timestamp <= until && events[i].agentSequence == n;
      assert others[i].agentSequence == n;
    }
  }

  /** Finalizing, in both. */
  lemma FinalizeMirrors(p: Platform, clock: Time, v: D.World, settings: Settings, e: S.Event, d: Decision, t: Platform, now: Time)
    requires Mirrors(p, clock, v) && clock <= now
    requires t.findings == p.findings && t.sessions == S.Finalize(p.sessions, e.sessionId, e.sequence, d).0
    requires forall a :: E.StateOf(t.agents.enforcement, a).baseline == E.StateOf(p.agents.enforcement, a).baseline
                         && E.StateOf(t.agents.enforcement, a).recoveryGeneration == E.StateOf(p.agents.enforcement, a).recoveryGeneration
    ensures var u := D.Next(v, DetectionSettings(settings), D.SessionStep(Sessions.FinalizeStep(e.sessionId, e.sequence, d)));
            Mirrors(t, now, u) && u.denied == v.denied
  {
    hide S.Finalize;
    var u := D.Next(v, DetectionSettings(settings), D.SessionStep(Sessions.FinalizeStep(e.sessionId, e.sequence, d)));
    forall a ensures SameLifecycle(t, u, a) {
      assert SameLifecycle(p, v, a);
    }
  }

  /** The request reaches detection: its session is the agent's, and neither the horizon nor the
      evidence store fails. */
  predicate ReachesDetection(p: Platform, q: Inquiry, now: Time) {
    S.Bind(p.sessions, q.sessionId, q.agentId, now).1.Ok? && !q.faults.horizon && !q.faults.evidence
  }

  function EventOf(p: Platform, q: Inquiry): S.Event {
    EventFor(q, DecisionFor(p.agents, q))
  }

  /** The stores once the request's event is recorded. */
  function AfterEvent(p: Platform, settings: Settings, q: Inquiry, now: Time): (S.Store, Result<S.Event, S.SessionError>) {
    RecordAndPrune(S.Bind(p.sessions, q.sessionId, q.agentId, now).0, settings.policy, EventOf(p, q))
  }

  /** What the request leaves in the sessions and the evidence. */
  lemma RequestStores(p: Platform, settings: Settings, q: Inquiry, clock: Time, now: Time) returns (d: Decision)
    requires Operable(p, clock) && clock <= now && RetentionSound(settings)
    requires S.Bind(p.sessions, q.sessionId, q.agentId, now).1.Ok?
    ensures AfterEvent(p, settings, q, now).1.Ok?
    ensures var t := Execute(p, settings, q, now).0;
            var (sessions, recorded) := AfterEvent(p, settings, q, now);
            var e := recorded.value;
            && Finalizable(sessions, e) && e.agentId == q.agentId && e.sessionId == q.sessionId
            && t.sessions == S.Finalize(sessions, e.sessionId, e.sequence, d).0
            && t.findings == if ReachesDetection(p, q, now)
                             then RecordNew(p.findings, ContentOf(q) + Detected(p.(sessions := sessions), settings, e,
                                                                                 SnapshotOf(p.agents, q.agentId), now), now).0
                             else p.findings
  {
    hide Sessions.Sound, S.Bind, RecordAndPrune, AfterDetection, Detected, RecordNew, S.Finalize, Refuse, DecisionFor, Finalizable,
         ContentOf, R.PlaneSound, Risk.Grown, EnforcementKnown, SnapshotOf;
    BoundRecordSucceeds(p.sessions, q.sessionId, q.agentId, now, settings.policy, EventOf(p, q));
    var (sessions, recorded) := AfterEvent(p, settings, q, now);
    var u, e := p.(sessions := sessions), recorded.value;
    RefuseStores(u, e, HORIZON_UNAVAILABLE, []);
    RefuseStores(u, e, EVIDENCE_RECORDING_FAILED, []);
    d := DENY;
    if ReachesDetection(p, q, now) {
      var snapshot := SnapshotOf(p.agents, q.agentId);
      d := DetectionStores(u, settings, q, e, snapshot, ContentOf(q) + Detected(u, settings, e, snapshot, now), now);
    }
  }

  lemma LastIsStored(s: S.Store, e: S.Event)
    requires Finalizable(s, e)
    ensures e in s.events
  {
  }

  /** A request is a run of detection over the same stores. */
  lemma ExecuteMirrors(p: Platform, clock: Time, v: D.World, settings: Settings, q: Inquiry, now: Time) returns (trace: seq<D.Step>)
    requires Operable(p, clock) && Mirrors(p, clock, v) && clock <= now && RetentionSound(settings)
    ensures var t := Execute(p, settings, q, now).0;
            var u := D.Run(v, DetectionSettings(settings), trace);
            && Mirrors(t, now, u)
            && (forall i :: 0 <= i < |trace| ==> OfRequest(trace[i], q))
            && (forall a :: D.Denied(u, a) <= D.Denied(v, a) + StoredDenials(t.sessions.events, a))
  {
    hide Execute, D.Next, S.Bind, RecordAndPrune, Detected, RecordNew, S.Finalize, Finalizable, DecisionFor, ContentOf, D.Run,
         Sessions.Sound, R.PlaneSound, Risk.Grown, EnforcementKnown, SnapshotOf, Bound, D.Denied, StoredDenials, Mirrors;
    var ds := DetectionSettings(settings);
    var t := Execute(p, settings, q, now).0;
    forall a
      ensures E.StateOf(t.agents.enforcement, a).baseline == E.StateOf(p.agents.enforcement, a).baseline
      ensures E.StateOf(t.agents.enforcement, a).recoveryGeneration == E.StateOf(p.agents.enforcement, a).recoveryGeneration
    {
      ExecuteKeepsLifecycle(p, settings, q, clock, now, a);
    }
    BoundMirrors(p, clock, v, settings, q, now);
    BoundIs(v, settings, q, now);
    MirrorsNotAhead(p, clock, v);
    var b := Bound(v, settings, q, now);
    var bound := p.(sessions := S.Bind(p.sessions, q.sessionId, q.agentId, now).0);
    SameDenied(v, b);
    if S.Bind(p.sessions, q.sessionId, q.agentId, now).1.Err? {
      UnboundStores(p, settings, q, now);
      trace := [Binding(q, now)];
      RunOne(v, ds, trace[0]);
      StillMirrors(bound, clock, b, t, now);
    } else {
      var d := RequestStores(p, settings, q, clock, now);
      var (sessions, recorded) := AfterEvent(p, settings, q, now);
      var e := recorded.value;
      var finish := D.SessionStep(Sessions.FinalizeStep(e.sessionId, e.sequence, d));
      var recording := D.SessionStep(Sessions.RecordStep(EventOf(p, q)));
      LastIsStored(sessions, e);
      if ReachesDetection(p, q, now) {
        recording := D.EvaluateStep(EventOf(p, q), ContentOf(q), now - v.risk.clock, {});
        EvaluateMirrors(bound, clock, b, settings, q, EventOf(p, q), now);
        var candidates := ContentOf(q) + Detected(p.(sessions := sessions), settings, e, SnapshotOf(p.agents, q.agentId), now);
        SameDetected(bound.(sessions := sessions), p.(sessions := sessions), settings, e, SnapshotOf(p.agents, q.agentId), now);
        FinalizeMirrors(bound.(sessions := sessions, findings := RecordNew(p.findings, candidates, now).0), now,
                        D.Next(b, ds, recording), settings, e, d, t, now);
      } else {
        RecordMirrors(bound, clock, b, settings, EventOf(p, q), now);
        FinalizeMirrors(bound.(sessions := sessions), now, D.Next(b, ds, recording), settings, e, d, t, now);
      }
      trace := [Binding(q, now), recording, finish];
      RunThree(v, ds, trace[0], trace[1], trace[2]);
      forall a ensures D.Denied(D.Run(v, ds, trace), a) <= D.Denied(v, a) + StoredDenials(t.sessions.events, a) {
        DeniedByRequest(p, clock, v, settings, q, now, d, a, D.Run(v, ds, trace));
      }
    }
  }

  lemma MirrorsNotAhead(p: Platform, clock: Time, v: D.World)
    requires Mirrors(p, clock, v)
    ensures v.risk.clock <= clock
  {
  }

  lemma BoundIs(v: D.World, settings: Settings, q: Inquiry, now: Time)
    ensures Bound(v, settings, q, now) == D.Next(v, DetectionSettings(settings), Binding(q, now))
  {
  }

  lemma SameDenied(v: D.World, u: D.World)
    ensures v.denied == u.denied ==> forall a :: D.Denied(u, a) == D.Denied(v, a)
  {
  }

  lemma SameDetected(p: Platform, t: Platform, settings: Settings, e: S.Event, snapshot: E.EnforcementState, now: Time)
    requires p.sessions == t.sessions && p.findings == t.findings
    ensures Detected(p, settings, e, snapshot, now) == Detected(t, settings, e, snapshot, now)
  {
  }

  lemma StillMirrors(p: Platform, clock: Time, v: D.World, t: Platform, now: Time)
    requires Mirrors(p, clock, v) && clock <= now
    requires t.sessions == p.sessions && t.findings == p.findings
    requires forall a :: E.StateOf(t.agents.enforcement, a).baseline == E.StateOf(p.agents.enforcement, a).baseline
                         && E.StateOf(t.agents.enforcement, a).recoveryGeneration == E.StateOf(p.agents.enforcement, a).recoveryGeneration
    ensures Mirrors(t, now, v)
  {
    forall a ensures SameLifecycle(t, v, a) {
      assert SameLifecycle(p, v, a);
    }
  }

  lemma UnboundStores(p: Platform, settings: Settings, q: Inquiry, now: Time)
    requires S.Bind(p.sessions, q.sessionId, q.agentId, now).1.Err?
    ensures var t := Execute(p, settings, q, now).0;
            t.sessions == S.Bind(p.sessions, q.sessionId, q.agentId, now).0 && t.findings == p.findings
  {
    hide S.Bind;
  }

  /** Recording without evaluating, in both. */
  lemma RecordMirrors(p: Platform, clock: Time, v: D.World, settings: Settings, event: S.Event, now: Time)
    requires Mirrors(p, clock, v) && clock <= now
    ensures var u := D.Next(v, DetectionSettings(settings), D.SessionStep(Sessions.RecordStep(event)));
            && Mirrors(p.(sessions := RecordAndPrune(p.sessions, settings.policy, event).0), now, u)
            && u == D.Observe(v, DetectionSettings(settings), Sessions.RecordStep(event))
  {
    hide S.Record, RecordAndPrune;
    var u := D.Observe(v, DetectionSettings(settings), Sessions.RecordStep(event));
    StillMirrors(p.(sessions := u.sessions), now, u, p.(sessions := u.sessions), now) by {
      forall a ensures SameLifecycle(p.(sessions := u.sessions), u, a) {
        assert SameLifecycle(p, v, a);
      }
    }
  }

  lemma DeniedByRequest(p: Platform, clock: Time, v: D.World, settings: Settings, q: Inquiry, now: Time, d: Decision, agent: string,
                        u: D.World)
    requires var b := Bound(v, settings, q, now);
             && b == v.(sessions := S.Bind(p.sessions, q.sessionId, q.agentId, now).0)
             && u.denied == D.Observe(b, DetectionSettings(settings), Sessions.RecordStep(EventOf(p, q))).denied
    requires var (sessions, recorded) := AfterEvent(p, settings, q, now);
             && recorded.Ok? && recorded.value in sessions.events
             && Execute(p, settings, q, now).0.sessions == S.Finalize(sessions, recorded.value.sessionId, recorded.value.sequence, d).0
    ensures D.Denied(u, agent) <= D.Denied(v, agent) + StoredDenials(Execute(p, settings, q, now).0.sessions.events, agent)
  {
    hide S.Bind, S.Record, Execute, S.Finalize, DecisionFor, Bound;
    var b := Bound(v, settings, q, now);
    var (sessions, recorded) := AfterEvent(p, settings, q, now);
    RecordDenies(b, DetectionSettings(settings), EventOf(p, q), agent);
    FinalizeKeepsDenials(sessions, recorded.value.sessionId, recorded.value.sequence, d, agent, 0, 0, 0);
    hide RecordAndPrune, StoredDenials, D.Observe;
    SameDenied(v, b);
    SameDenied(u, D.Observe(b, DetectionSettings(settings), Sessions.RecordStep(EventOf(p, q))));
    ObservedSessions(b, settings, EventOf(p, q));
  }

  lemma ObservedSessions(v: D.World, settings: Settings, event: S.Event)
    ensures D.Observe(v, DetectionSettings(settings), Sessions.RecordStep(event)).sessions
            == RecordAndPrune(v.sessions, settings.policy, event).0
    ensures RecordAndPrune(v.sessions, settings.policy, event).1 == S.Record(v.sessions, event).1
  {
  }

  // ---- whole runs -----------------------------------------------------------------------------------------

  /** The steps the run of detection takes for a step of the platform. */
  predicate OfStep(traced: D.Step, step: Step) {
    match step
    case ExecuteStep(q, _) => OfRequest(traced, q)
    case SessionStep(change) => traced == D.SessionStep(change)
    case ReinstateStep(agent, _, _, _, _) => traced.ReinstateStep? && traced.agent == agent
    case _ => false
  }

  lemma ReinstateMirrors(p: Platform, clock: Time, v: D.World, settings: Settings, agent: string, actor: string, reason: string,
                         failing: C.Faults, now: Time) returns (trace: seq<D.Step>)
    requires p.authority.Some? && Operable(p, clock) && Mirrors(p, clock, v) && clock <= now
    ensures var u := D.Run(v, DetectionSettings(settings), trace);
            && Mirrors(ReinstateOn(p, settings, agent, actor, reason, failing, now), now, u)
            && (forall i :: 0 <= i < |trace| ==> trace[i].ReinstateStep? && trace[i].agent == agent)
            && u.denied == v.denied
  {
    hide Sessions.Sound, R.PlaneSound, Risk.Grown, EnforcementKnown, CaptureBaseline, Reset, G.ResumeIssuance, Reinstate;
    var mark := C.CapturedMark(p.findings, p.sessions, agent, now);
    var t := ReinstateOn(p, settings, agent, actor, reason, failing, now);
    Recovery.ReinstateOutcomes(p.agents, agent, actor, reason, clock, now, mark);
    var (agents, r) := Reinstate(p.agents, agent, actor, reason, now, Some(mark));
    assert t.agents == agents && t.sessions == p.sessions && t.findings == p.findings;
    assert SameLifecycle(p, v, agent);
    if r.Err? {
      trace := [];
    } else {
      trace := [D.ReinstateStep(agent, now - v.risk.clock)];
      RunOne(v, DetectionSettings(settings), trace[0]);
    }
    var u := D.Run(v, DetectionSettings(settings), trace);
    forall a ensures SameLifecycle(t, u, a) {
      assert SameLifecycle(p, v, a);
    }
  }

  lemma SessionMirrors(p: Platform, clock: Time, v: D.World, settings: Settings, change: Sessions.Step)
    requires Operable(p, clock) && Mirrors(p, clock, v) && RetentionSound(settings)
    ensures var u := D.Next(v, DetectionSettings(settings), D.SessionStep(change));
            && Mirrors(p.(sessions := Sessions.Next(p.sessions, settings.policy, change)), clock, u)
            && forall a :: D.Denied(u, a) <= D.Denied(v, a) + StoredDenials(u.sessions.events, a)
  {
    hide Sessions.Next, S.Record, Sessions.Sound, R.PlaneSound, Risk.Grown, EnforcementKnown;
    var u := D.Next(v, DetectionSettings(settings), D.SessionStep(change));
    forall a ensures SameLifecycle(p.(sessions := u.sessions), u, a) {
      assert SameLifecycle(p, v, a);
    }
    if change.RecordStep? {
      RecordedSurvives(p.sessions, settings.policy, change.event);
      forall a ensures D.Denied(u, a) <= D.Denied(v, a) + StoredDenials(u.sessions.events, a) {
        RecordDenies(v, DetectionSettings(settings), change.event, a);
      }
    } else {
      SameDenied(v, u);
    }
  }

  /** An event just recorded survives its own pruning. */
  lemma RecordedSurvives(s: S.Store, policy: Option<Retention>, e: S.Event)
    requires policy.Some? ==> policy.value.window + policy.value.grace >= 0
    ensures var r := S.Record(s, e).1;
            r.Ok? ==> r.value in Sessions.Next(s, policy, Sessions.RecordStep(e)).events
  {
    var (t, r) := S.Record(s, e);
    if r.Ok? {
      assert t.events[|t.events| - 1] == r.value;
      if policy.Some? {
        SinceKeepsLast(t.events, Cutoff(policy.value, r.value.timestamp));
      }
    }
  }

  lemma StepMirrors(w: World, settings: Settings, step: Step, v: D.World) returns (trace: seq<D.Step>)
    requires Operable(w.platform, w.clock) && Mirrors(w.platform, w.clock, v) && RetentionSound(settings)
    ensures var n := Next(w, settings, step);
            var u := D.Run(v, DetectionSettings(settings), trace);
            && Mirrors(n.platform, n.clock, u)
            && (forall i :: 0 <= i < |trace| ==> OfStep(trace[i], step))
            && (forall a :: D.Denied(u, a) <= D.Denied(v, a) + StoredDenials(n.platform.sessions.events, a))
  {
    hide Execute, D.Next, L.AuthorityStep, Sessions.Next, Move, A.RegisterAgent, ReinstateOn, Reset, Mirrors, D.Denied,
         StoredDenials, OfRequest, Operable;
    var ds := DetectionSettings(settings);
    var p, now := w.platform, Next(w, settings, step).clock;
    trace := [];
    match step
    case ExecuteStep(q, elapsed) => trace := ExecuteMirrors(p, w.clock, v, settings, q, now);
    case ReinstateStep(agent, elapsed, actor, reason, failing) =>
      if p.authority.Some? {
        trace := ReinstateMirrors(p, w.clock, v, settings, agent, actor, reason, failing, now);
        SameDenied(v, D.Run(v, ds, trace));
      }
    case SessionStep(change) =>
      trace := [D.SessionStep(change)];
      RunOne(v, ds, trace[0]);
      SessionMirrors(p, w.clock, v, settings, change);
      MirrorSessions(p.(sessions := Sessions.Next(p.sessions, settings.policy, change)), w.clock, D.Next(v, ds, trace[0]));
    case RepairStep(_, _) => StillMirrors(p, w.clock, v, Next(w, settings, step).platform, now);
    case AdministerStep(who, elapsed, next) =>
      MovedKeepsEnforcement(p.agents, who, next, now);
      StillMirrors(p, w.clock, v, Next(w, settings, step).platform, now);
    case RegisterStep(_, _) => StillMirrors(p, w.clock, v, Next(w, settings, step).platform, now);
    case AuthorityStep(_, _) => StillMirrors(p, w.clock, v, Next(w, settings, step).platform, now);
  }

  lemma MovedKeepsEnforcement(a: Agents, agent: string, next: A.Lifecycle, now: Time)
    ensures Move(a, agent, next, now).0.enforcement == a.enforcement
  {
  }

  lemma MirrorSessions(p: Platform, clock: Time, v: D.World)
    requires Mirrors(p, clock, v)
    ensures v.sessions == p.sessions && v.risk.store == p.findings
    ensures forall a :: SameLifecycle(p, v, a)
  {
  }

  /** The numbers of every denial the run ever stored for the agent. */
  function DenialsEver(w: World, settings: Settings, steps: seq<Step>, agent: string): set<nat> {
    (if steps == [] then {} else DenialsEver(w, settings, steps[..|steps| - 1], agent))
    + StoredDenials(Run(w, settings, steps).platform.sessions.events, agent)
  }

  lemma {:induction false} RunAppend(v: D.World, settings: D.Settings, front: seq<D.Step>, back: seq<D.Step>)
    ensures D.Run(v, settings, front + back) == D.Run(D.Run(v, settings, front), settings, back)
  {
    hide D.Next;
    if back == [] {
      assert front + back == front;
    } else {
      RunAppend(v, settings, front, back[..|back| - 1]);
      assert (front + back)[..|front + back| - 1] == front + back[..|back| - 1];
    }
  }

  ghost predicate Traces(trace: seq<D.Step>, steps: seq<Step>) {
    forall i :: 0 <= i < |trace| ==> exists j :: 0 <= j < |steps| && OfStep(trace[i], steps[j])
  }

  /** Every run of the platform from its empty state is a run of detection from its own. */
  lemma {:induction false} RunMirrors(clock: Time, settings: Settings, authority: Option<G.Authority>, steps: seq<Step>)
    returns (trace: seq<D.Step>)
    requires RetentionSound(settings)
    ensures var w0 := World(clock, EmptyPlatform(authority));
            var w := Run(w0, settings, steps);
            var v := D.Run(D.Start(clock, settings.vocabulary), DetectionSettings(settings), trace);
            && Mirrors(w.platform, w.clock, v) && Traces(trace, steps)
            && forall a :: D.Denied(v, a) <= DenialsEver(w0, settings, steps, a)
  {
    hide Next, D.Next, Mirrors, D.Denied, StoredDenials, OfStep, Operable, EmptyPlatform;
    var w0, v0, ds := World(clock, EmptyPlatform(authority)), D.Start(clock, settings.vocabulary), DetectionSettings(settings);
    if steps == [] {
      trace := [];
      StartMirrors(clock, settings, authority);
    } else {
      var front, last := steps[..|steps| - 1], steps[|steps| - 1];
      var early := RunMirrors(clock, settings, authority, front);
      RunOperable(clock, settings, authority, front);
      var more := StepMirrors(Run(w0, settings, front), settings, last, D.Run(v0, ds, early));
      trace := early + more;
      RunAppend(v0, ds, early, more);
      assert forall j :: 0 <= j < |front| ==> steps[j] == front[j];
      forall i | 0 <= i < |trace| ensures exists j :: 0 <= j < |steps| && OfStep(trace[i], steps[j]) {
        if i < |early| {
          var j :| 0 <= j < |front| && OfStep(early[i], front[j]);
          assert OfStep(trace[i], steps[j]);
        } else {
          assert OfStep(trace[i], steps[|steps| - 1]);
        }
      }
    }
  }

  lemma StartMirrors(clock: Time, settings: Settings, authority: Option<G.Authority>)
    ensures var v := D.Run(D.Start(clock, settings.vocabulary), DetectionSettings(settings), []);
            && Mirrors(EmptyPlatform(authority), clock, v) && v == D.Start(clock, settings.vocabulary)
            && forall a :: D.Denied(v, a) == {}
  {
    forall a ensures SameLifecycle(EmptyPlatform(authority), D.Start(clock, settings.vocabulary), a) {
    }
  }

  // ---- requests charge recent denials ------------------------------------------------------------------------

  /** Names hold no separator, and content rules neither speak in the name of detection nor bear its
      identifiers. */
  ghost predicate SeparableRequest(q: Inquiry) {
    Separable(q.sessionId, q.agentId)
    && forall f :: f in q.content ==> f.ruleName != EXCESSIVE_DENIALS && !IsCrossingId(f.id)
  }

  ghost predicate SeparableSteps(steps: seq<Step>) {
    forall i :: 0 <= i < |steps| ==>
      && (steps[i].ExecuteStep? ==> SeparableRequest(steps[i].inquiry))
      && (steps[i].SessionStep? && steps[i].change.RecordStep?
          ==> Separable(steps[i].change.event.sessionId, steps[i].change.event.agentId))
  }

  lemma ContentKeeps(q: Inquiry)
    ensures forall f :: f in ContentOf(q) ==> f.agentId == q.agentId && exists c :: c in q.content && c.id == f.id && c.ruleName == f.ruleName
  {
    forall f | f in ContentOf(q)
      ensures f.agentId == q.agentId && exists c :: c in q.content && c.id == f.id && c.ruleName == f.ruleName
    {
      var i :| 0 <= i < |ContentOf(q)| && ContentOf(q)[i] == f;
      assert q.content[i] in q.content;
    }
  }

  lemma SeparableTrace(trace: seq<D.Step>, steps: seq<Step>)
    requires Traces(trace, steps) && SeparableSteps(steps)
    ensures D.SeparableRun(trace)
  {
    hide IsCrossingId, ContentOf;
    forall i | 0 <= i < |trace| ensures D.SeparableStep(trace[i]) {
      var j :| 0 <= j < |steps| && OfStep(trace[i], steps[j]);
      if steps[j].ExecuteStep? {
        ContentKeeps(steps[j].inquiry);
      }
    }
  }

  /** What a request that reaches detection stores, in the terms of the evaluation it mirrors. */
  lemma RequestEvaluates(p: Platform, clock: Time, v: D.World, settings: Settings, q: Inquiry, now: Time)
    requires Operable(p, clock) && Mirrors(p, clock, v) && clock <= now && RetentionSound(settings)
    requires ReachesDetection(p, q, now) && D.Named(v) && SeparableRequest(q)
    ensures var t := Execute(p, settings, q, now).0;
            var state := E.StateOf(p.agents.enforcement, q.agentId);
            Laws.ChargesRecent(p.findings.log, t.findings.log, q.agentId, state.recoveryGeneration,
                               Laws.Recent(t.sessions.events, q.agentId, state.baseline.agentEvents,
                                           q.timestamp - settings.window, q.timestamp))
  {
    hide Execute, S.Bind, RecordAndPrune, Detected, RecordNew, S.Finalize, Finalizable, DecisionFor, Operable, Bound,
         D.Named, Mirrors, Laws.ChargesRecent, Laws.Recent, IsCrossingId, ContentOf, D.Next, S.Record;
    var ds := DetectionSettings(settings);
    BoundMirrors(p, clock, v, settings, q, now);
    BoundIs(v, settings, q, now);
    MirrorsNotAhead(p, clock, v);
    var b := Bound(v, settings, q, now);
    var bound := p.(sessions := S.Bind(p.sessions, q.sessionId, q.agentId, now).0);
    BindNamed(v, settings, q, now);
    var d := RequestStores(p, settings, q, clock, now);
    var (sessions, recorded) := AfterEvent(p, settings, q, now);
    var e := recorded.value;
    OperableParts(p, clock);
    EvaluateMirrors(bound, clock, b, settings, q, EventOf(p, q), now);
    SameDetected(bound.(sessions := sessions), p.(sessions := sessions), settings, e, SnapshotOf(p.agents, q.agentId), now);
    ContentKeeps(q);
    ObservedSessions(b, settings, EventOf(p, q));
    Laws.EvaluationChargesRecent(b, ds, EventOf(p, q), ContentOf(q), now - v.risk.clock, {});
    var u := D.Next(b, ds, D.EvaluateStep(EventOf(p, q), ContentOf(q), now - v.risk.clock, {}));
    var candidates := ContentOf(q) + Detected(p.(sessions := sessions), settings, e, SnapshotOf(p.agents, q.agentId), now);
    MirrorSessions(bound.(sessions := sessions, findings := RecordNew(p.findings, candidates, now).0), now, u);
    MirrorSessions(p, clock, v);
    MirrorSessions(bound, clock, b);
    assert SameLifecycle(bound, b, q.agentId);
    var state := E.StateOf(p.agents.enforcement, q.agentId);
    FinalizeKeepsDenials(sessions, e.sessionId, e.sequence, d, q.agentId, state.baseline.agentEvents,
                         q.timestamp - settings.window, q.timestamp);
  }

  lemma OperableParts(p: Platform, clock: Time)
    requires Operable(p, clock)
    ensures EnforcementKnown(p.agents) && Sessions.Sound(p.sessions)
  {
  }

  lemma BindNamed(v: D.World, settings: Settings, q: Inquiry, now: Time)
    requires D.Named(v)
    ensures D.Named(Bound(v, settings, q, now))
  {
    hide D.Named, D.Observe;
    D.ObserveNamed(v, DetectionSettings(settings), Sessions.BindStep(q.sessionId, q.agentId, now));
  }

  /** The result reports exactly what the evidence store gained. */
  ghost predicate ReportsGains(p: Platform, settings: Settings, q: Inquiry, now: Time) {
    var (t, r) := Execute(p, settings, q, now);
    r.Ok? && t.findings.log == p.findings.log + r.value.findings
  }

  /** Unless it is refused for its session, the horizon or the evidence store, a request leaves three
      recent denials charged: of the events it leaves stored, those of its agent that were denied,
      come after the boundary of the last reinstatement and lie in the window that ends with the
      request. With three or more, some EXCESSIVE_DENIALS finding of the present generation names one
      of them; if none did before, a new OPEN one of MEDIUM severity names the first three. With
      fewer there is no new one, and there are never two. */
  ghost predicate DetectsRecent(p: Platform, settings: Settings, q: Inquiry, now: Time) {
    var (t, r) := Execute(p, settings, q, now);
    var state := E.StateOf(p.agents.enforcement, q.agentId);
    r.Ok? && r.value.refusal in {None, Some(POSTURE_RECONCILIATION_FAILED)} ==>
      Laws.ChargesRecent(p.findings.log, t.findings.log, q.agentId, state.recoveryGeneration,
                         Laws.Recent(t.sessions.events, q.agentId, state.baseline.agentEvents,
                                     q.timestamp - settings.window, q.timestamp))
  }

  /** Every request of every run from the empty platform detects, and its result says so. */
  lemma EveryRequestDetects(clock: Time, settings: Settings, authority: Option<G.Authority>, steps: seq<Step>, q: Inquiry, elapsed: nat)
    requires RetentionSound(settings) && SeparableSteps(steps) && SeparableRequest(q)
    ensures var w := Run(World(clock, EmptyPlatform(authority)), settings, steps);
            && ReportsGains(w.platform, settings, q, w.clock + elapsed)
            && DetectsRecent(w.platform, settings, q, w.clock + elapsed)
  {
    hide *;
    EveryRequestAgrees(clock, settings, authority, steps, q, elapsed);
    var w := Run(World(clock, EmptyPlatform(authority)), settings, steps);
    ReportedIsGained(w.platform, settings, q, w.clock + elapsed);
    if ReachesDetection(w.platform, q, w.clock + elapsed) {
      ReachedCharges(clock, settings, authority, steps, q, elapsed);
    } else {
      RefusedUnlessReached(w.platform, settings, q, w.clock + elapsed);
    }
  }

  lemma ReportedIsGained(p: Platform, settings: Settings, q: Inquiry, now: Time)
    requires PipelineAgrees(p, settings, q, now) && EvidenceDurable(p, settings, q, now)
    ensures ReportsGains(p, settings, q, now)
  {
    hide Execute, OnRecord, HasId, ContentOf;
  }

  lemma ReachedCharges(clock: Time, settings: Settings, authority: Option<G.Authority>, steps: seq<Step>, q: Inquiry, elapsed: nat)
    requires RetentionSound(settings) && SeparableSteps(steps) && SeparableRequest(q)
    requires var w := Run(World(clock, EmptyPlatform(authority)), settings, steps);
             ReachesDetection(w.platform, q, w.clock + elapsed)
    ensures var w := Run(World(clock, EmptyPlatform(authority)), settings, steps);
            DetectsRecent(w.platform, settings, q, w.clock + elapsed)
  {
    hide Run, Execute, D.Run, D.Named, Mirrors, Laws.ChargesRecent, Laws.Recent, EmptyPlatform, Operable, ReachesDetection,
         SeparableSteps, SeparableRequest, Traces, D.SeparableStep;
    var trace := RunMirrors(clock, settings, authority, steps);
    SeparableTrace(trace, steps);
    D.RunNamed(clock, settings.vocabulary, DetectionSettings(settings), trace);
    RunOperable(clock, settings, authority, steps);
    var w := Run(World(clock, EmptyPlatform(authority)), settings, steps);
    RequestEvaluates(w.platform, w.clock, D.Run(D.Start(clock, settings.vocabulary), DetectionSettings(settings), trace),
                     settings, q, w.clock + elapsed);
  }

  lemma RefusedUnlessReached(p: Platform, settings: Settings, q: Inquiry, now: Time)
    requires !ReachesDetection(p, q, now)
    ensures DetectsRecent(p, settings, q, now)
  {
    hide S.Bind, RecordAndPrune, S.Finalize, AfterDetection, DecisionFor, Laws.ChargesRecent, Laws.Recent;
  }

  // ---- denials are charged once ---------------------------------------------------------------------------------

  /** The agent uses one session, and content rules do not speak in the name of detection. */
  ghost predicate OneSession(steps: seq<Step>, agent: string, session: string) {
    forall i :: 0 <= i < |steps| ==>
      && (steps[i].ExecuteStep? && steps[i].inquiry.agentId == agent ==>
            steps[i].inquiry.sessionId == session && forall f :: f in steps[i].inquiry.content ==> f.ruleName != EXCESSIVE_DENIALS)
      && (steps[i].SessionStep? && steps[i].change.RecordStep? ==> D.KeepsTo(steps[i].change.event, agent, session))
  }

  lemma OneSessionTrace(trace: seq<D.Step>, steps: seq<Step>, agent: string, session: string)
    requires Traces(trace, steps) && OneSession(steps, agent, session)
    ensures D.OneSession(trace, agent, session)
  {
    hide ContentOf;
    forall i | 0 <= i < |trace| ensures D.OneSessionStep(trace[i], agent, session) {
      var j :| 0 <= j < |steps| && OfStep(trace[i], steps[j]);
      if steps[j].ExecuteStep? {
        ContentKeeps(steps[j].inquiry);
      }
    }
  }

  /** Denials are charged once, over runs of the platform: requests, suspensions, reinstatements that
      succeed or fail at any point, repairs, retention. Every EXCESSIVE_DENIALS finding of an agent that
      keeps to one session names three denials that were stored, no denial is named twice, and so
      there are three denials to a finding. */
  lemma RunsChargeOnce(clock: Time, settings: Settings, authority: Option<G.Authority>, steps: seq<Step>, agent: string, session: string)
    requires RetentionSound(settings) && OneSession(steps, agent, session)
    ensures var w0 := World(clock, EmptyPlatform(authority));
            var log := Run(w0, settings, steps).platform.findings.log;
            var charges, denials := D.Charges(log, agent), DenialsEver(w0, settings, steps, agent);
            && (forall f :: f in charges <==> f in log && D.IsChargeTo(f, agent))
            && D.Triples(charges) && D.AllApart(charges)
            && D.Evidence(charges) <= denials && 3 * |charges| <= |denials|
  {
    hide Run, D.Run, DenialsEver, D.Denied, D.Triples, D.AllApart, D.Evidence, D.Charges, EmptyPlatform, D.IsChargeTo;
    var trace := RunMirrors(clock, settings, authority, steps);
    OneSessionTrace(trace, steps, agent, session);
    D.DenialsChargedOnce(clock, settings.vocabulary, DetectionSettings(settings), trace, agent, session);
    var w0 := World(clock, EmptyPlatform(authority));
    SubsetSize(D.Denied(D.Run(D.Start(clock, settings.vocabulary), DetectionSettings(settings), trace), agent),
                 DenialsEver(w0, settings, steps, agent));
  }

  // ---- what CRITICAL costs ---------------------------------------------------------------------------------------

  /** The content rules find nothing for the agent. */
  ghost predicate NoContent(steps: seq<Step>, agent: string) {
    forall i :: 0 <= i < |steps| && steps[i].ExecuteStep? && steps[i].inquiry.agentId == agent ==> steps[i].inquiry.content == []
  }

  lemma NoContentTrace(trace: seq<D.Step>, steps: seq<Step>, agent: string)
    requires Traces(trace, steps) && NoContent(steps, agent)
    ensures D.NoContentFor(trace, agent)
  {
    hide ContentOf;
    forall i | 0 <= i < |trace| && trace[i].EvaluateStep? ensures forall f :: f in trace[i].content ==> f.agentId != agent {
      var j :| 0 <= j < |steps| && OfStep(trace[i], steps[j]);
      ContentKeeps(steps[j].inquiry);
    }
  }

  lemma {:induction false} RunKeepsVocabulary(v: D.World, settings: D.Settings, steps: seq<D.Step>)
    ensures D.Run(v, settings, steps).risk.vocabulary == v.risk.vocabulary
  {
    if steps != [] {
      RunKeepsVocabulary(v, settings, steps[..|steps| - 1]);
      StepKeepsVocabulary(D.Run(v, settings, steps[..|steps| - 1]), settings, steps[|steps| - 1]);
    }
  }

  lemma StepKeepsVocabulary(v: D.World, settings: D.Settings, step: D.Step)
    ensures D.Next(v, settings, step).risk.vocabulary == v.risk.vocabulary
  {
    hide S.Record, Sessions.Next, RecordNew, IngestAll, CaptureBaseline, Reset, D.Detected;
  }

  /** The posture a request is decided by is the one detection's run assesses. */
  lemma SamePosture(t: Platform, now: Time, v: D.World, settings: Settings, agent: string)
    requires Mirrors(t, now, v) && Risk.Sound(v.risk) && v.risk.vocabulary == settings.vocabulary
    ensures Risk.FullRebuild(RiskOf(t, now, settings), agent) == Risk.Assessed(v.risk, agent)
  {
    hide Risk.Sound, Rebuild, Risk.Assessed;
    Risk.AssessedIsRebuild(v.risk, agent);
    BaselineIsStored(t, now, settings, agent);
    assert SameLifecycle(t, v, agent);
  }

  /** The posture the request is decided by took three of the denials for every 25 points of its
      score, and twelve if it is CRITICAL. */
  ghost predicate PaidInDenials(p: Platform, settings: Settings, q: Inquiry, now: Time, denials: set<nat>) {
    var r := Execute(p, settings, q, now).1;
    r.Ok? && r.value.posture.Some? ==>
      && 3 * r.value.posture.value.score <= 25 * |denials|
      && (r.value.posture.value.level == CriticalRisk ==> |denials| >= 12)
  }

  /** The numbers beyond the agent's stored boundary. */
  function SinceReinstatement(p: Platform, agent: string, numbers: set<nat>): set<nat> {
    set n | n in numbers && n > E.StateOf(p.agents.enforcement, agent).baseline.agentEvents
  }

  /** What a CRITICAL posture costs. In a run from the empty platform that resets projections only to
      the truth, with no content findings for the agent and one session, every posture a request of it
      is decided by is paid for in denials stored since its last reinstatement. */
  lemma CriticalRequestNeedsTwelveDenials(clock: Time, settings: Settings, authority: Option<G.Authority>, steps: seq<Step>,
                                          q: Inquiry, elapsed: nat)
    requires RetentionSound(settings) && AllResetTruthfully(World(clock, EmptyPlatform(authority)), settings, steps)
    requires var all := steps + [ExecuteStep(q, elapsed)];
             OneSession(all, q.agentId, q.sessionId) && NoContent(all, q.agentId)
    ensures var w0 := World(clock, EmptyPlatform(authority));
            var w := Run(w0, settings, steps);
            var denials := DenialsEver(w0, settings, steps + [ExecuteStep(q, elapsed)], q.agentId);
            PaidInDenials(w.platform, settings, q, w.clock + elapsed, SinceReinstatement(w.platform, q.agentId, denials))
  {
    hide *;
    var w0, all := World(clock, EmptyPlatform(authority)), steps + [ExecuteStep(q, elapsed)];
    var w, agent := Run(w0, settings, steps), q.agentId;
    LastStep(w0, settings, steps, ExecuteStep(q, elapsed));
    RequestIsStep(w, settings, q, elapsed);
    var trace := RunMirrors(clock, settings, authority, all);
    OneSessionTrace(trace, all, agent, q.sessionId);
    NoContentTrace(trace, all, agent);
    var v0, ds := D.Start(clock, settings.vocabulary), DetectionSettings(settings);
    var v := D.Run(v0, ds, trace);
    D.CriticalNeedsTwelveDenials(clock, settings.vocabulary, ds, trace, agent, q.sessionId);
    D.RunBalanced(clock, settings.vocabulary, ds, trace, agent, q.sessionId);
    BalancedRisk(v, agent, q.sessionId);
    RunKeepsVocabulary(v0, ds, trace);
    StartVocabulary(clock, settings.vocabulary);
    EveryPostureIsTrue(clock, settings, authority, steps, q, elapsed);
    RunOperable(clock, settings, authority, steps);
    OperablePlane(w.platform, w.clock);
    CostOfPosture(w, settings, q, elapsed, v, DenialsEver(w0, settings, all, agent));
  }

  lemma CostOfPosture(w: World, settings: Settings, q: Inquiry, elapsed: nat, v: D.World, ever: set<nat>)
    requires R.PlaneSound(w.platform.agents.enforcement, w.clock)
    requires Mirrors(Execute(w.platform, settings, q, w.clock + elapsed).0, w.clock + elapsed, v)
    requires Risk.Sound(v.risk) && v.risk.vocabulary == settings.vocabulary && D.Denied(v, q.agentId) <= ever
    requires var posture := Risk.Assessed(v.risk, q.agentId);
             && 3 * posture.score <= 25 * |D.DeniedSince(v, q.agentId)|
             && (posture.level == CriticalRisk ==> |D.DeniedSince(v, q.agentId)| >= 12)
    requires var (t, r) := Execute(w.platform, settings, q, w.clock + elapsed);
             r.Ok? && r.value.posture.Some?
             ==> r.value.posture.value == Risk.FullRebuild(RiskOf(t, w.clock + elapsed, settings), q.agentId)
    ensures PaidInDenials(w.platform, settings, q, w.clock + elapsed, SinceReinstatement(w.platform, q.agentId, ever))
  {
    hide Execute, D.Denied, Mirrors, Risk.FullRebuild, Risk.Assessed, RiskOf, D.DeniedSince, Risk.Sound, R.PlaneSound;
    var now := w.clock + elapsed;
    var t := Execute(w.platform, settings, q, now).0;
    SamePosture(t, now, v, settings, q.agentId);
    ExecuteKeepsLifecycle(w.platform, settings, q, w.clock, now, q.agentId);
    MirrorSessions(t, now, v);
    SinceBoundary(v, q.agentId, ever, t);
  }

  lemma LastStep(w0: World, settings: Settings, steps: seq<Step>, last: Step)
    ensures Run(w0, settings, steps + [last]) == Next(Run(w0, settings, steps), settings, last)
  {
    hide Next;
    assert (steps + [last])[..|steps|] == steps;
  }

  lemma RequestIsStep(w: World, settings: Settings, q: Inquiry, elapsed: nat)
    ensures Next(w, settings, ExecuteStep(q, elapsed)) == World(w.clock + elapsed, Execute(w.platform, settings, q, w.clock + elapsed).0)
  {
    hide Execute;
  }

  lemma BalancedRisk(v: D.World, agent: string, session: string)
    requires D.Balanced(v, agent, session)
    ensures Risk.Sound(v.risk)
  {
  }

  lemma StartVocabulary(clock: Time, vocabulary: set<string>)
    ensures D.Start(clock, vocabulary).risk.vocabulary == vocabulary
  {
  }

  lemma OperablePlane(p: Platform, clock: Time)
    requires Operable(p, clock)
    ensures R.PlaneSound(p.agents.enforcement, clock)
  {
  }

  lemma SinceBoundary(v: D.World, agent: string, ever: set<nat>, t: Platform)
    requires D.Denied(v, agent) <= ever && SameLifecycle(t, v, agent)
    ensures |D.DeniedSince(v, agent)| <= |SinceReinstatement(t, agent, ever)|
  {
    hide D.Denied;
    SubsetSize(D.DeniedSince(v, agent), SinceReinstatement(t, agent, ever));
  }
}
