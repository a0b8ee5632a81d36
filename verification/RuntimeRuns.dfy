/** What holds of every request, and over whole runs of requests, reinstatements and the other
    activity of the platform. */
module RuntimeRuns {
  import opened Prelude
  import opened Findings
  import opened SessionServices
  import opened RiskProjection
  import opened RiskAggregation
  import opened AgentLifecycle
  import opened Runtime
  import A = AdministrativePlane
  import C = EnforcementCoordination
  import E = EnforcementPlane
  import G = GrantAuthority
  import L = GrantLedger
  import P = LifecycleAuthorization
  import R = EnforcementRaces
  import S = SessionStore
  import Sessions = SessionRuns
  import Risk = RiskRuns

  // ---- agreement across the exits -----------------------------------------------------------------

  predicate RetentionSound(settings: Settings) {
    settings.policy.Some? ==> settings.policy.value.window + settings.policy.value.grace >= 0
  }

  /** An event just recorded in a bound session survives its own pruning and can be finalized,
      to any decision, exactly once stored. */
  ghost predicate Finalizable(s: S.Store, e: S.Event) {
    && e.sessionId in s.sessions && e.sessionId !in s.tombstones
    && s.events != [] && s.events[|s.events| - 1] == e && e.finalDecision.None?
    && forall i :: 0 <= i < |s.events| - 1 ==> !(s.events[i].sessionId == e.sessionId && s.events[i].sequence == e.sequence)
  }

  /** Binding settles what recording needs. */
  lemma BoundIsRecordable(s: S.Store, id: string, agent: string, at: Time, e: S.Event)
    requires S.Bind(s, id, agent, at).1.Ok? && e.sessionId == id && e.agentId == agent
    requires e.sequence == 0 && e.agentSequence == 0
    ensures var bound := S.Bind(s, id, agent, at).0;
            var (t, r) := S.Record(bound, e);
            && r.Ok? && t.events == bound.events + [r.value]
            && r.value == e.(sequence := r.value.sequence, agentSequence := r.value.agentSequence)
            && id in t.sessions && id !in t.tombstones
  {
  }

  lemma BoundRecordSucceeds(s: S.Store, id: string, agent: string, at: Time, policy: Option<Retention>, e: S.Event)
    requires Sessions.Sound(s) && S.Bind(s, id, agent, at).1.Ok?
    requires e.sessionId == id && e.agentId == agent && e.sequence == 0 && e.agentSequence == 0 && e.finalDecision.None?
    requires policy.Some? ==> policy.value.window + policy.value.grace >= 0
    ensures var bound := S.Bind(s, id, agent, at).0;
            var (t, r) := RecordAndPrune(bound, policy, e);
            && r.Ok? && Finalizable(t, r.value)
            && r.value == e.(sequence := r.value.sequence, agentSequence := r.value.agentSequence)
            && Sessions.Sound(bound) && Sessions.Sound(t)
  {
    hide Sessions.Sound, Sessions.Evolves, S.Since;
    BoundIsRecordable(s, id, agent, at, e);
    var bound := S.Bind(s, id, agent, at).0;
    Sessions.StepSound(s, policy, Sessions.BindStep(id, agent, at));
    Sessions.StepSound(bound, policy, Sessions.RecordStep(e));
    hide S.Bind, S.Record;
    var stored, r := S.Record(bound, e).0.events, S.Record(bound, e).1;
    assert stored[|stored| - 1] == r.value;
    if policy.Some? {
      SinceKeepsLast(stored, Cutoff(policy.value, r.value.timestamp));
    }
    OnlyLastIsNamed(RecordAndPrune(bound, policy, e).0);
  }

  lemma SinceKeepsLast(events: seq<S.Event>, cutoff: Time)
    requires events != [] && events[|events| - 1].timestamp >= cutoff
    ensures S.Since(events, cutoff) != []
    ensures S.Since(events, cutoff)[|S.Since(events, cutoff)| - 1] == events[|events| - 1]
  {
  }

  lemma OnlyLastIsNamed(s: S.Store)
    requires Sessions.Sound(s) && s.events != []
    ensures var e := s.events[|s.events| - 1];
            forall i :: 0 <= i < |s.events| - 1 ==> !(s.events[i].sessionId == e.sessionId && s.events[i].sequence == e.sequence)
  {
    var e := s.events[|s.events| - 1];
    forall i | 0 <= i < |s.events| - 1 ensures !(s.events[i].sessionId == e.sessionId && s.events[i].sequence == e.sequence) {
      assert Sessions.Precedes(s.events[i], e);
    }
  }

  lemma FinalizeLast(s: S.Store, e: S.Event, d: Decision)
    requires Finalizable(s, e)
    ensures var (t, r) := S.Finalize(s, e.sessionId, e.sequence, d);
            && r.Ok?
            && t == s.(events := s.events[|s.events| - 1 := e.(finalDecision := Some(d))])
  {
    assert S.Find(s.events, e.sessionId, e.sequence) == |s.events| - 1;
  }

  /** The event of a result is on record as it is reported. */
  ghost predicate OnRecord(s: S.Store, e: S.Event) {
    && e in s.events
    && forall f :: f in s.events && f.sessionId == e.sessionId && f.sequence == e.sequence ==> f == e
  }

  lemma FinalizedOnRecord(s: S.Store, e: S.Event, d: Decision)
    requires Finalizable(s, e)
    ensures OnRecord(S.Finalize(s, e.sessionId, e.sequence, d).0, e.(finalDecision := Some(d)))
  {
    FinalizeLast(s, e, d);
    var t := S.Finalize(s, e.sessionId, e.sequence, d).0;
    assert t.events[|t.events| - 1] == e.(finalDecision := Some(d));
  }

  /** What is promised of a request that got as far as recording its event. */
  ghost predicate Agrees(p: Platform, e: S.Event, t: Platform, r: Result<RuntimeResult, RuntimeError>) {
    && r.Ok?
    && r.value.event == e.(finalDecision := r.value.event.finalDecision)
    && r.value.event.finalDecision.Some?
    && t.audits == p.audits + [Audit(e.sessionId, e.agentId, r.value.event.finalDecision.value)]
    && OnRecord(t.sessions, r.value.event)
    && r.value.refusal != Some(SESSION_BINDING_INVALID)
    && (r.value.refusal.Some? ==> r.value.event.finalDecision == Some(DENY) && r.value.authorization.None?)
    && (p.authority.None? ==> r.value.authorization.None?)
    && (p.authority.Some? ==> (r.value.authorization.Some? <==> r.value.event.finalDecision == Some(ALLOW)))
  }

  lemma RefuseAgrees(p: Platform, e: S.Event, reason: RefusalReason, findings: seq<Finding>)
    requires Finalizable(p.sessions, e) && reason != SESSION_BINDING_INVALID
    ensures Agrees(p, e, Refuse(p, e, reason, findings).0, Refuse(p, e, reason, findings).1)
  {
    hide Finalizable, OnRecord, S.Finalize;
    FinalizeLast(p.sessions, e, DENY);
    FinalizedOnRecord(p.sessions, e, DENY);
  }

  /** A grant comes exactly with a final ALLOW. */
  lemma AuthorizeAgrees(p: Platform, settings: Settings, q: Inquiry, epoch: nat, intended: Decision, now: Time)
    ensures var (a, grant, final) := Authorize(p, settings, q, epoch, intended, now);
            && (p.authority.None? ==> grant.None? && final == intended)
            && (p.authority.Some? ==> a.Some? && (grant.Some? <==> final == ALLOW))
            && (final == ALLOW ==> intended == ALLOW)
            && (a.None? <==> p.authority.None?)
  {
    hide BindingFor, ProfileFor, G.CreateGrant;
  }

  lemma SuspendSucceeds(a: Agents, agent: string, clock: Time, now: Time)
    requires R.PlaneSound(a.enforcement, clock) && clock <= now
    ensures var (b, r) := Suspend(a, agent, now);
            && (r.Ok? || r == Err(AgentNotFound))
            && R.PlaneSound(b.enforcement, now)
            && b.administrative == a.administrative
            && (forall x :: E.StateOf(b.enforcement, x).baseline == E.StateOf(a.enforcement, x).baseline)
            && (forall x :: x in b.enforcement.states ==> x in a.enforcement.states || x == agent)
            && (forall x :: x in a.enforcement.states ==> x in b.enforcement.states)
            && (r == Err(AgentNotFound) <==> !Known(a, agent))
            && (r == Err(AgentNotFound) ==> b == a)
  {
    R.CommitOutcome(a.enforcement, clock, agent, E.StateOf(a.enforcement, agent), E.SUSPEND, now, None);
    hide E.Commit, R.CountsLedger;
  }

  lemma ConcludeAgrees(p: Platform, settings: Settings, q: Inquiry, e: S.Event, snapshot: E.EnforcementState,
                       accepted: seq<Finding>, posture: Projection, clock: Time, now: Time)
    requires Finalizable(p.sessions, e) && R.PlaneSound(p.agents.enforcement, clock) && clock <= now
    ensures var (t, r) := Conclude(p, settings, q, e, snapshot, accepted, posture, now);
            Agrees(p, e, t, r)
  {
    hide Finalizable, OnRecord, S.Finalize, Authorize, Suspend, R.PlaneSound, G.SuspendIssuance;
    var response := RecommendForLevel(posture.level);
    AuthorizeAgrees(p, settings, q, snapshot.epoch, Restricted(e.decision, response), now);
    var final := Authorize(p, settings, q, snapshot.epoch, Restricted(e.decision, response), now).2;
    FinalizeLast(p.sessions, e, final);
    FinalizedOnRecord(p.sessions, e, final);
    SuspendSucceeds(p.agents, q.agentId, clock, now);
  }

  /** What every request comes to. `execute` returns a result, by one of five exits, and whichever
      it is there is exactly one new audit record, whose decision is the result event's final
      decision; a recorded event is stored exactly as the result reports it; only the
      session-binding refusal records none, and it changes nothing else at all; and with an
      authority configured a grant is returned exactly when the final decision is ALLOW. */
  ghost predicate PipelineAgrees(p: Platform, settings: Settings, q: Inquiry, now: Time) {
    var (t, r) := Execute(p, settings, q, now);
    && r.Ok?
    && r.value.event.finalDecision.Some?
    && r.value.event.sessionId == q.sessionId && r.value.event.agentId == q.agentId
    && t.audits == p.audits + [Audit(q.sessionId, q.agentId, r.value.event.finalDecision.value)]
    && (r.value.refusal == Some(SESSION_BINDING_INVALID) ==>
          t == p.(audits := t.audits) && r.value.event.finalDecision == Some(DENY) && r.value.authorization.None?)
    && (r.value.refusal != Some(SESSION_BINDING_INVALID) ==> OnRecord(t.sessions, r.value.event))
    && (r.value.refusal.Some? ==> r.value.event.finalDecision == Some(DENY) && r.value.authorization.None?)
    && (p.authority.None? ==> r.value.authorization.None?)
    && (p.authority.Some? ==> (r.value.authorization.Some? <==> r.value.event.finalDecision == Some(ALLOW)))
  }

  /** Pipeline agreement, from any sound state. */
  lemma PipelineAgreement(p: Platform, settings: Settings, q: Inquiry, clock: Time, now: Time)
    requires Sessions.Sound(p.sessions) && R.PlaneSound(p.agents.enforcement, clock) && clock <= now
    requires RetentionSound(settings)
    ensures PipelineAgrees(p, settings, q, now)
  {
    hide Sessions.Sound, RecordAndPrune, AfterRecording, DecisionFor, OnRecord, Finalizable, R.PlaneSound;
    var (bound, owner) := S.Bind(p.sessions, q.sessionId, q.agentId, now);
    if owner.Ok? {
      hide S.Bind;
      var event := EventFor(q, DecisionFor(p.agents, q));
      BoundRecordSucceeds(p.sessions, q.sessionId, q.agentId, now, settings.policy, event);
      var (sessions, recorded) := RecordAndPrune(bound, settings.policy, event);
      RecordedAgrees(p.(sessions := sessions), settings, q, recorded.value, SnapshotOf(p.agents, q.agentId), clock, now);
    }
  }

  lemma RecordedAgrees(p: Platform, settings: Settings, q: Inquiry, e: S.Event, snapshot: E.EnforcementState,
                       clock: Time, now: Time)
    requires Finalizable(p.sessions, e) && R.PlaneSound(p.agents.enforcement, clock) && clock <= now
    ensures var (t, r) := AfterRecording(p, settings, q, e, snapshot, now);
            Agrees(p, e, t, r)
  {
    hide Finalizable, Refuse, Conclude, RecordNew, IngestAll, AssessPosture, Detected, R.PlaneSound;
    if q.faults.horizon {
      RefuseAgrees(p, e, HORIZON_UNAVAILABLE, []);
    } else if q.faults.evidence {
      RefuseAgrees(p, e, EVIDENCE_RECORDING_FAILED, []);
    } else {
      var (t, accepted) := Recorded(p, q, ContentOf(q) + Detected(p, settings, e, snapshot, now), now);
      var (projections, posture) := AssessPosture(t, settings, q.agentId, q.faults.reconcile);
      var u := t.(projections := projections);
      if posture.None? {
        RefuseAgrees(u, e, POSTURE_RECONCILIATION_FAILED, accepted);
      } else {
        ConcludeAgrees(u, settings, q, e, snapshot, accepted, posture.value, clock, now);
      }
    }
  }

  // ---- when a grant comes ------------------------------------------------------------------------------

  /** Every precondition of a grant that can be read off the request and the platform before it. */
  predicate Grantable(p: Platform, settings: Settings, q: Inquiry, now: Time) {
    && S.Bind(p.sessions, q.sessionId, q.agentId, now).1.Ok?
    && !q.faults.horizon && !q.faults.evidence
    && BindingFor(q).Some? && ProfileFor(settings, q.toolId).Some?
    && RefusalUnder(p.agents, q.agentId, q.faults.outage).None? && q.policy == ALLOW
    && p.authority.Some? && G.ClosedPlanes(p.authority.value.closed, q.agentId) == {}
  }

  /** The platform whose posture the request is decided by: the event recorded, evidence accepted. */
  function Judged(p: Platform, settings: Settings, q: Inquiry, now: Time): Platform {
    var bound := S.Bind(p.sessions, q.sessionId, q.agentId, now).0;
    var (sessions, r) := RecordAndPrune(bound, settings.policy, EventFor(q, DecisionFor(p.agents, q)));
    var u := p.(sessions := sessions);
    if r.Err? then u
    else Recorded(u, q, ContentOf(q) + Detected(u, settings, r.value, SnapshotOf(p.agents, q.agentId), now), now).0
  }

  function PostureOf(p: Platform, settings: Settings, q: Inquiry, now: Time): Option<Projection> {
    AssessPosture(Judged(p, settings, q, now), settings, q.agentId, q.faults.reconcile).1
  }

  lemma AllowedExactly(p: Platform, q: Inquiry)
    ensures DecisionFor(p.agents, q) == ALLOW && BindingFor(q).Some?
            <==> BindingFor(q).Some? && RefusalUnder(p.agents, q.agentId, q.faults.outage).None? && q.policy == ALLOW
  {
    hide RefusalUnder;
  }

  /** The gates before a grant, whatever snapshot the request brings. With an authority a grant comes
      exactly for an ALLOW of a bound operation with a capability profile, no plane closed and, where
      epochs are checked, a snapshot that is still current; it is for that operation, agent and
      session. An ALLOW that gets none becomes DENY, and every other decision stands. */
  lemma AuthorizeExactly(p: Platform, settings: Settings, q: Inquiry, epoch: nat, intended: Decision, now: Time)
    requires p.authority.Some?
    ensures var (a, grant, final) := Authorize(p, settings, q, epoch, intended, now);
            && (grant.Some? <==> intended == ALLOW && BindingFor(q).Some? && ProfileFor(settings, q.toolId).Some?
                                 && G.ClosedPlanes(p.authority.value.closed, q.agentId) == {}
                                 && (settings.epochChecked ==> epoch == E.StateOf(p.agents.enforcement, q.agentId).epoch))
            && (grant.Some? ==>
                  && grant.value.agentId == q.agentId && grant.value.sessionId == q.sessionId
                  && grant.value.binding == BindingFor(q).value
                  && grant.value.profileId == Some(ProfileFor(settings, q.toolId).value.profileId)
                  && grant.value.digest == Some(ProfileFor(settings, q.toolId).value.digest)
                  && grant.value.issuedAt == now && grant.value.expiresAt == now + p.authority.value.ttl)
            && final == (if intended == ALLOW && grant.None? then DENY else intended)
  {
    hide BindingFor, ProfileFor;
  }

  /** A grant comes exactly when everything permits it: the session is the agent's, detection and
      evidence work, the operation is bound to a resolved version with a capability profile, the
      lifecycle and the policy allow it, no issuance plane is closed, and the posture, once
      established, is below HIGH. It is for this agent, session and operation and no longer than
      the time-to-live. Approval is required exactly when the policy asks for it or a HIGH posture
      restricts what the policy allowed. */
  ghost predicate GrantsExactly(p: Platform, settings: Settings, q: Inquiry, now: Time)
    requires p.authority.Some?
  {
    var (t, r) := Execute(p, settings, q, now);
    var posture := PostureOf(p, settings, q, now);
    && r.Ok?
    && (r.value.authorization.Some? <==> Grantable(p, settings, q, now) && posture.Some? && Rank(posture.value.level) <= 1)
    && (r.value.authorization.Some? ==>
          var g := r.value.authorization.value;
          && ProfileFor(settings, q.toolId).Some?
          && g.agentId == q.agentId && g.sessionId == q.sessionId && Some(g.binding) == BindingFor(q)
          && g.profileId == Some(ProfileFor(settings, q.toolId).value.profileId)
          && g.digest == Some(ProfileFor(settings, q.toolId).value.digest)
          && g.expiresAt == now + p.authority.value.ttl)
    && (r.value.event.finalDecision == Some(APPROVAL_REQUIRED) <==>
          && S.Bind(p.sessions, q.sessionId, q.agentId, now).1.Ok?
          && !q.faults.horizon && !q.faults.evidence && posture.Some?
          && (DecisionFor(p.agents, q) == APPROVAL_REQUIRED
              || (DecisionFor(p.agents, q) == ALLOW && posture.value.level == HighRisk)))
  }

  lemma GrantExactlyWhen(p: Platform, settings: Settings, q: Inquiry, clock: Time, now: Time)
    requires Sessions.Sound(p.sessions) && R.PlaneSound(p.agents.enforcement, clock) && clock <= now
    requires RetentionSound(settings) && EnforcementKnown(p.agents) && p.authority.Some?
    ensures GrantsExactly(p, settings, q, now)
  {
    hide Sessions.Sound, RecordAndPrune, AssessPosture, Recorded, Detected, R.PlaneSound, Refuse, Conclude, RefusalUnder,
         BindingFor, ProfileFor, DecisionFor, SnapshotOf, Finalizable, Agrees, G.ClosedPlanes;
    PipelineAgreement(p, settings, q, clock, now);
    AllowedExactly(p, q);
    var (bound, owner) := S.Bind(p.sessions, q.sessionId, q.agentId, now);
    if owner.Ok? {
      hide S.Bind;
      var event := EventFor(q, DecisionFor(p.agents, q));
      BoundRecordSucceeds(p.sessions, q.sessionId, q.agentId, now, settings.policy, event);
      var (sessions, recorded) := RecordAndPrune(bound, settings.policy, event);
      var u := p.(sessions := sessions);
      var snapshot := SnapshotOf(p.agents, q.agentId);
      var (v, accepted) := Recorded(u, q, ContentOf(q) + Detected(u, settings, recorded.value, snapshot, now), now);
      var (projections, posture) := AssessPosture(v, settings, q.agentId, q.faults.reconcile);
      RefusedWithout(u, recorded.value, HORIZON_UNAVAILABLE, []);
      RefusedWithout(u, recorded.value, EVIDENCE_RECORDING_FAILED, []);
      RefusedWithout(v.(projections := projections), recorded.value, POSTURE_RECONCILIATION_FAILED, accepted);
      RecordedFrame(u, q, ContentOf(q) + Detected(u, settings, recorded.value, snapshot, now), now);
      if posture.Some? {
        ConcludeExactly(v.(projections := projections), settings, q, recorded.value, snapshot, accepted, posture.value, now, p);
      }
    }
  }

  lemma RecordedFrame(p: Platform, q: Inquiry, candidates: seq<Finding>, now: Time)
    ensures var t := Recorded(p, q, candidates, now).0;
            t.agents == p.agents && t.authority == p.authority && t.sessions == p.sessions && t.audits == p.audits
  {
  }

  lemma RefusedWithout(p: Platform, e: S.Event, reason: RefusalReason, findings: seq<Finding>)
    ensures var r := Refuse(p, e, reason, findings).1;
            r.Ok? ==> r.value.authorization.None? && r.value.event.finalDecision == Some(DENY)
  {
    hide S.Finalize;
  }

  lemma ConcludeExactly(p: Platform, settings: Settings, q: Inquiry, e: S.Event, snapshot: E.EnforcementState,
                        accepted: seq<Finding>, posture: Projection, now: Time, before: Platform)
    requires p.authority.Some? && p.authority == before.authority && p.agents == before.agents
    requires EnforcementKnown(p.agents) && snapshot == SnapshotOf(p.agents, q.agentId)
    requires e.decision == DecisionFor(p.agents, q)
    ensures var r := Conclude(p, settings, q, e, snapshot, accepted, posture, now).1;
            r.Ok? ==>
              && (r.value.authorization.Some? <==>
                    && DecisionFor(p.agents, q) == ALLOW && BindingFor(q).Some? && ProfileFor(settings, q.toolId).Some?
                    && G.ClosedPlanes(p.authority.value.closed, q.agentId) == {} && Rank(posture.level) <= 1)
              && (r.value.authorization.Some? ==>
                    var g := r.value.authorization.value;
                    && g.agentId == q.agentId && g.sessionId == q.sessionId && Some(g.binding) == BindingFor(q)
                    && g.profileId == Some(ProfileFor(settings, q.toolId).value.profileId)
                    && g.digest == Some(ProfileFor(settings, q.toolId).value.digest)
                    && g.expiresAt == now + p.authority.value.ttl)
              && (r.value.event.finalDecision == Some(APPROVAL_REQUIRED) <==>
                    DecisionFor(p.agents, q) == APPROVAL_REQUIRED
                    || (DecisionFor(p.agents, q) == ALLOW && posture.level == HighRisk))
  {
    hide S.Finalize, Contain, BindingFor, ProfileFor, DecisionFor, Authorize, RefusalUnder;
    SnapshotIsCurrent(p.agents, q.agentId);
    AuthorizeExactly(p, settings, q, snapshot.epoch, Restricted(e.decision, RecommendForLevel(posture.level)), now);
  }

  lemma SnapshotIsCurrent(a: Agents, agent: string)
    requires EnforcementKnown(a)
    ensures SnapshotOf(a, agent).epoch == E.StateOf(a.enforcement, agent).epoch
  {
  }

  // ---- evidence is durable --------------------------------------------------------------------------------

  lemma {:induction false} RecordNewKnowsAll(s: Findings.Store, candidates: seq<Finding>, now: Time)
    ensures forall f :: f in candidates ==> HasId(RecordNew(s, candidates, now).0.log, f.id)
  {
    if candidates != [] {
      var front, f := candidates[..|candidates| - 1], candidates[|candidates| - 1];
      RecordNewKnowsAll(s, front, now);
      assert candidates == front + [f];
      var t := RecordNew(s, front, now).0;
      var u := RecordNew(s, candidates, now).0;
      RecordKeepsIds(t, f, now);
      forall c | c in candidates ensures HasId(u.log, c.id) {
        assert c in front || c == f;
      }
    }
  }

  lemma RecordKeepsIds(t: Findings.Store, f: Finding, now: Time)
    ensures forall id :: HasId(t.log, id) ==> HasId(Record(t, f, now).0.log, id)
    ensures HasId(Record(t, f, now).0.log, f.id)
  {
    var u := Record(t, f, now).0;
    var k := IndexOf(t.log, f.id);
    forall id | HasId(t.log, id) ensures HasId(u.log, id) {
      var i :| 0 <= i < |t.log| && t.log[i].id == id;
      assert u.log[i].id == id;
    }
    assert u.log[k].id == f.id;
  }

  /** Evidence is durable before a request concludes. Unless it was refused before detection
      could record, everything the content rules found is stored, and what the result reports is
      exactly what the store gained; a request refused earlier stores nothing. */
  ghost predicate EvidenceDurable(p: Platform, settings: Settings, q: Inquiry, now: Time) {
    var (t, r) := Execute(p, settings, q, now);
    r.Ok? ==>
      && t.findings.log == p.findings.log + r.value.findings
      && (r.value.refusal in {Some(SESSION_BINDING_INVALID), Some(HORIZON_UNAVAILABLE), Some(EVIDENCE_RECORDING_FAILED)}
          ==> t.findings == p.findings)
      && (r.value.refusal in {None, Some(POSTURE_RECONCILIATION_FAILED)}
          ==> forall f :: f in ContentOf(q) ==> HasId(t.findings.log, f.id))
  }

  lemma EvidenceIsDurable(p: Platform, clock: Time, settings: Settings, q: Inquiry, now: Time)
    requires Risk.Grown(p.findings, clock) && clock <= now
    ensures EvidenceDurable(p, settings, q, now)
  {
    hide S.Bind, RecordAndPrune, DecisionFor, AssessPosture, Detected, IngestAll, RecordNew, Refuse, Conclude, Risk.Grown,
         HasId, ContentOf;
    var (bound, owner) := S.Bind(p.sessions, q.sessionId, q.agentId, now);
    var (sessions, recorded) := RecordAndPrune(bound, settings.policy, EventFor(q, DecisionFor(p.agents, q)));
    assert p.findings.log + [] == p.findings.log;
    if owner.Ok? && recorded.Ok? {
      var u := p.(sessions := sessions);
      var snapshot := SnapshotOf(p.agents, q.agentId);
      var candidates := ContentOf(q) + Detected(u, settings, recorded.value, snapshot, now);
      Risk.RecordNewAppends(p.findings, candidates, clock, now);
      RecordNewKnowsAll(p.findings, candidates, now);
      var (v, accepted) := Recorded(u, q, candidates, now);
      var (projections, posture) := AssessPosture(v, settings, q.agentId, q.faults.reconcile);
      RefuseReports(u, recorded.value, HORIZON_UNAVAILABLE, []);
      RefuseReports(u, recorded.value, EVIDENCE_RECORDING_FAILED, []);
      RefuseReports(v.(projections := projections), recorded.value, POSTURE_RECONCILIATION_FAILED, accepted);
      if posture.Some? {
        ConcludeReports(v.(projections := projections), settings, q, recorded.value, snapshot, accepted, posture.value, now);
      }
    }
  }

  lemma RefuseReports(p: Platform, e: S.Event, reason: RefusalReason, findings: seq<Finding>)
    ensures var (t, r) := Refuse(p, e, reason, findings);
            t.findings == p.findings && (r.Ok? ==> r.value.findings == findings && r.value.refusal == Some(reason))
  {
    hide S.Finalize;
  }

  lemma ConcludeReports(p: Platform, settings: Settings, q: Inquiry, e: S.Event, snapshot: E.EnforcementState,
                        accepted: seq<Finding>, posture: Projection, now: Time)
    ensures var (t, r) := Conclude(p, settings, q, e, snapshot, accepted, posture, now);
            t.findings == p.findings && (r.Ok? ==> r.value.findings == accepted && r.value.refusal.None?)
  {
    hide S.Finalize, Authorize, Suspend, G.SuspendIssuance;
  }

  // ---- a critical posture contains ----------------------------------------------------------------------------

  /** A request decided by a CRITICAL posture leaves its agent contained: no grant, none
      outstanding, issuance closed, and, if it is registered and not disabled, suspended. */
  ghost predicate CriticalContains(p: Platform, settings: Settings, q: Inquiry, now: Time) {
    var (t, r) := Execute(p, settings, q, now);
    r.Ok? && r.value.posture.Some? && r.value.posture.value.level == CriticalRisk ==>
      && r.value.authorization.None? && t.authority.Some?
      && G.OutstandingOf(t.authority.value, q.agentId) == {}
      && G.ENFORCEMENT in G.ClosedPlanes(t.authority.value.closed, q.agentId)
      && (Known(p.agents, q.agentId) && !Disabled(p.agents, q.agentId) ==> E.Suspended(t.agents.enforcement, q.agentId))
  }

  lemma CriticalPostureContains(p: Platform, settings: Settings, q: Inquiry, clock: Time, now: Time)
    requires R.PlaneSound(p.agents.enforcement, clock) && clock <= now && p.authority.Some?
    ensures CriticalContains(p, settings, q, now)
  {
    hide RecordAndPrune, AssessPosture, Recorded, Detected, R.PlaneSound, Refuse, Conclude, DecisionFor,
         SnapshotOf, S.Bind, Known, Disabled;
    var (bound, owner) := S.Bind(p.sessions, q.sessionId, q.agentId, now);
    var (sessions, recorded) := RecordAndPrune(bound, settings.policy, EventFor(q, DecisionFor(p.agents, q)));
    if owner.Ok? && recorded.Ok? {
      var u := p.(sessions := sessions);
      var snapshot := SnapshotOf(p.agents, q.agentId);
      var candidates := ContentOf(q) + Detected(u, settings, recorded.value, snapshot, now);
      var (v, accepted) := Recorded(u, q, candidates, now);
      var (projections, posture) := AssessPosture(v, settings, q.agentId, q.faults.reconcile);
      RecordedFrame(u, q, candidates, now);
      RefusedWithoutPosture(u, recorded.value, HORIZON_UNAVAILABLE, []);
      RefusedWithoutPosture(u, recorded.value, EVIDENCE_RECORDING_FAILED, []);
      RefusedWithoutPosture(v.(projections := projections), recorded.value, POSTURE_RECONCILIATION_FAILED, accepted);
      if posture.Some? {
        ConcludeContains(v.(projections := projections), settings, q, recorded.value, snapshot, accepted, posture.value, clock, now);
      }
    }
  }

  lemma RefusedWithoutPosture(p: Platform, e: S.Event, reason: RefusalReason, findings: seq<Finding>)
    ensures var r := Refuse(p, e, reason, findings).1; r.Ok? ==> r.value.posture.None?
  {
    hide S.Finalize;
  }

  lemma SuspendSuspends(a: Agents, agent: string, clock: Time, now: Time)
    requires R.PlaneSound(a.enforcement, clock) && clock <= now && Known(a, agent) && !Disabled(a, agent)
    ensures E.Suspended(Suspend(a, agent, now).0.enforcement, agent)
  {
    R.CommitOutcome(a.enforcement, clock, agent, E.StateOf(a.enforcement, agent), E.SUSPEND, now, None);
    hide E.Commit, R.PlaneSound;
  }

  lemma SuspendEmpties(a: G.Authority, agent: string)
    ensures var b := G.SuspendIssuance(a, agent, G.ENFORCEMENT).0;
            G.OutstandingOf(b, agent) == {} && G.ENFORCEMENT in G.ClosedPlanes(b.closed, agent)
  {
  }

  lemma ConcludeContains(p: Platform, settings: Settings, q: Inquiry, e: S.Event, snapshot: E.EnforcementState,
                         accepted: seq<Finding>, posture: Projection, clock: Time, now: Time)
    requires p.authority.Some? && R.PlaneSound(p.agents.enforcement, clock) && clock <= now
    ensures var (t, r) := Conclude(p, settings, q, e, snapshot, accepted, posture, now);
            r.Ok? ==>
              && r.value.posture == Some(posture)
              && (posture.level == CriticalRisk ==>
                    && r.value.authorization.None? && t.authority.Some?
                    && G.OutstandingOf(t.authority.value, q.agentId) == {}
                    && G.ENFORCEMENT in G.ClosedPlanes(t.authority.value.closed, q.agentId)
                    && (Known(p.agents, q.agentId) && !Disabled(p.agents, q.agentId)
                        ==> E.Suspended(t.agents.enforcement, q.agentId)))
  {
    hide S.Finalize, Authorize, Suspend, G.SuspendIssuance, G.OutstandingOf, G.ClosedPlanes, R.PlaneSound, Known, Disabled;
    var intended := Restricted(e.decision, RecommendForLevel(posture.level));
    AuthorizeAgrees(p, settings, q, snapshot.epoch, intended, now);
    SuspendEmpties(Authorize(p, settings, q, snapshot.epoch, intended, now).0.value, q.agentId);
    if Known(p.agents, q.agentId) && !Disabled(p.agents, q.agentId) {
      SuspendSuspends(p.agents, q.agentId, clock, now);
    }
  }

  // ---- runs --------------------------------------------------------------------------------------------

  datatype World = World(clock: Time, platform: Platform)

  datatype Step =
    | ExecuteStep(inquiry: Inquiry, elapsed: nat)
    | ReinstateStep(agent: string, elapsed: nat, actor: string, reason: string, failing: C.Faults)
    | RepairStep(agent: string, failing: C.Faults)
    | AdministerStep(agent: string, elapsed: nat, next: A.Lifecycle)
    | RegisterStep(record: A.AgentRecord, elapsed: nat)
    | AuthorityStep(use: L.Step, elapsed: nat)
    | SessionStep(change: Sessions.Step)

  function ReinstateOn(p: Platform, settings: Settings, agent: string, actor: string, reason: string, failing: C.Faults,
                       now: Time): Platform
    requires p.authority.Some?
  {
    var t := C.ReinstateAll(C.Stores(p.agents, p.projections, p.authority.value), agent, actor, reason,
                            C.CapturedMark(p.findings, p.sessions, agent, now), now, settings.vocabulary,
                            failing).0;
    p.(agents := t.agents, projections := t.projections, authority := Some(t.authority))
  }

  function RepairOn(p: Platform, settings: Settings, agent: string, failing: C.Faults): Platform
    requires p.authority.Some?
  {
    var t := C.Repair(C.Stores(p.agents, p.projections, p.authority.value), agent, settings.vocabulary, failing).0;
    p.(agents := t.agents, projections := t.projections, authority := Some(t.authority))
  }

  /** The steps of a platform. Issuance is reopened on the enforcement plane by reinstatement and
      repair only; both need the authority they coordinate. */
  function Next(w: World, settings: Settings, step: Step): World {
    match step
    case ExecuteStep(q, elapsed) => World(w.clock + elapsed, Execute(w.platform, settings, q, w.clock + elapsed).0)
    case ReinstateStep(agent, elapsed, actor, reason, failing) =>
      if w.platform.authority.None? then w
      else World(w.clock + elapsed, ReinstateOn(w.platform, settings, agent, actor, reason, failing, w.clock + elapsed))
    case RepairStep(agent, failing) =>
      if w.platform.authority.None? then w else w.(platform := RepairOn(w.platform, settings, agent, failing))
    case AdministerStep(agent, elapsed, next) =>
      World(w.clock + elapsed, w.platform.(agents := Move(w.platform.agents, agent, next, w.clock + elapsed).0))
    case RegisterStep(record, elapsed) =>
      World(w.clock + elapsed, w.platform.(agents := w.platform.agents.(administrative :=
              A.RegisterAgent(w.platform.agents.administrative, record, w.clock + elapsed).0)))
    case AuthorityStep(use, elapsed) =>
      if w.platform.authority.None? || (use.Open? && use.plane == G.ENFORCEMENT) then w
      else World(w.clock + elapsed,
                 w.platform.(authority := Some(L.AuthorityStep(w.platform.authority.value, use, w.clock + elapsed).0)))
    case SessionStep(change) =>
      w.(platform := w.platform.(sessions := Sessions.Next(w.platform.sessions, settings.policy, change)))
  }

  function Run(w: World, settings: Settings, steps: seq<Step>): World {
    if steps == [] then w else Next(Run(w, settings, steps[..|steps| - 1]), settings, steps[|steps| - 1])
  }

  predicate NotReinstated(steps: seq<Step>, agent: string) {
    forall i :: 0 <= i < |steps| ==> !(steps[i].ReinstateStep? && steps[i].agent == agent)
  }

  predicate NotRepaired(steps: seq<Step>, agent: string) {
    forall i :: 0 <= i < |steps| ==> !(steps[i].RepairStep? && steps[i].agent == agent)
  }

  // ---- every run from the empty platform ------------------------------------------------------------

  ghost predicate EnforcementKnown(a: Agents) {
    forall x :: x in a.enforcement.states ==> Known(a, x)
  }

  /** What every request needs of the stores, whatever became of the projections. */
  ghost predicate Operable(p: Platform, clock: Time) {
    && Sessions.Sound(p.sessions) && R.PlaneSound(p.agents.enforcement, clock)
    && EnforcementKnown(p.agents) && Risk.Grown(p.findings, clock) && Risk.Contiguous(p.findings)
  }

  lemma OperableLater(p: Platform, clock: Time, now: Time)
    requires Operable(p, clock) && clock <= now
    ensures Operable(p, now)
  {
    hide Sessions.Sound, R.CountsLedger, Risk.Contiguous;
  }

  /** A request changes the agents by suspending its own, if at all; with a response of
      SUSPEND_AGENT it does suspend it. */
  lemma ExecuteAgents(p: Platform, settings: Settings, q: Inquiry, now: Time)
    ensures var (t, r) := Execute(p, settings, q, now);
            && (t.agents == p.agents || t.agents == Suspend(p.agents, q.agentId, now).0)
            && (r.Ok? && r.value.response == Some(SUSPEND_AGENT) ==> t.agents == Suspend(p.agents, q.agentId, now).0)
  {
    hide S.Bind, RecordAndPrune, S.Finalize, RecordNew, IngestAll, AssessPosture, Detected, DecisionFor, Suspend, Authorize,
         Closing, ContentOf;
  }

  /** A request binds, records and finalizes: three steps of the session runs, or fewer. */
  lemma ExecuteSessions(p: Platform, settings: Settings, q: Inquiry, now: Time)
    requires Sessions.Sound(p.sessions)
    ensures var t := Execute(p, settings, q, now).0;
            Sessions.Sound(t.sessions) && Sessions.Evolves(p.sessions, t.sessions)
  {
    hide Sessions.Sound, S.Bind, RecordAndPrune, AfterRecording, DecisionFor, Sessions.Evolves;
    Sessions.StepSound(p.sessions, settings.policy, Sessions.BindStep(q.sessionId, q.agentId, now));
    var (bound, owner) := S.Bind(p.sessions, q.sessionId, q.agentId, now);
    var event := EventFor(q, DecisionFor(p.agents, q));
    Sessions.EvolvesReflexive(bound);
    Sessions.StepSound(bound, settings.policy, Sessions.RecordStep(event));
    var (sessions, recorded) := RecordAndPrune(bound, settings.policy, event);
    if owner.Ok? && recorded.Ok? {
      RecordedSessions(p.(sessions := sessions), settings, q, recorded.value, SnapshotOf(p.agents, q.agentId), now);
      Sessions.EvolvesTransitive(bound, sessions, Execute(p, settings, q, now).0.sessions);
    }
    Sessions.EvolvesTransitive(p.sessions, bound, Execute(p, settings, q, now).0.sessions);
  }

  lemma FinalizeSound(s: S.Store, policy: Option<Retention>, e: S.Event, d: Decision)
    requires Sessions.Sound(s)
    ensures Sessions.Sound(S.Finalize(s, e.sessionId, e.sequence, d).0)
    ensures Sessions.Evolves(s, S.Finalize(s, e.sessionId, e.sequence, d).0)
  {
    hide Sessions.Sound, Sessions.Evolves, S.Finalize;
    Sessions.StepSound(s, policy, Sessions.FinalizeStep(e.sessionId, e.sequence, d));
  }

  lemma RefuseSessions(p: Platform, settings: Settings, e: S.Event, reason: RefusalReason, findings: seq<Finding>)
    requires Sessions.Sound(p.sessions)
    ensures Sessions.Sound(Refuse(p, e, reason, findings).0.sessions)
    ensures Sessions.Evolves(p.sessions, Refuse(p, e, reason, findings).0.sessions)
  {
    hide Sessions.Sound, Sessions.Evolves, S.Finalize;
    FinalizeSound(p.sessions, settings.policy, e, DENY);
  }

  lemma ConcludeSessions(p: Platform, settings: Settings, q: Inquiry, e: S.Event, snapshot: E.EnforcementState,
                         accepted: seq<Finding>, posture: Projection, now: Time)
    requires Sessions.Sound(p.sessions)
    ensures Sessions.Sound(Conclude(p, settings, q, e, snapshot, accepted, posture, now).0.sessions)
    ensures Sessions.Evolves(p.sessions, Conclude(p, settings, q, e, snapshot, accepted, posture, now).0.sessions)
  {
    hide Sessions.Sound, Sessions.Evolves, S.Finalize, Authorize, Suspend, Closing;
    var intended := Restricted(e.decision, RecommendForLevel(posture.level));
    FinalizeSound(p.sessions, settings.policy, e, Authorize(p, settings, q, snapshot.epoch, intended, now).2);
  }

  lemma RecordedSessions(p: Platform, settings: Settings, q: Inquiry, e: S.Event, snapshot: E.EnforcementState, now: Time)
    requires Sessions.Sound(p.sessions)
    ensures Sessions.Sound(AfterRecording(p, settings, q, e, snapshot, now).0.sessions)
    ensures Sessions.Evolves(p.sessions, AfterRecording(p, settings, q, e, snapshot, now).0.sessions)
  {
    hide Sessions.Sound, Sessions.Evolves, Refuse, Conclude, Recorded, AssessPosture, Detected, ContentOf;
    RefuseSessions(p, settings, e, HORIZON_UNAVAILABLE, []);
    RefuseSessions(p, settings, e, EVIDENCE_RECORDING_FAILED, []);
    var candidates := ContentOf(q) + Detected(p, settings, e, snapshot, now);
    RecordedFrame(p, q, candidates, now);
    var (t, accepted) := Recorded(p, q, candidates, now);
    var (projections, posture) := AssessPosture(t, settings, q.agentId, q.faults.reconcile);
    var u := t.(projections := projections);
    RefuseSessions(u, settings, e, POSTURE_RECONCILIATION_FAILED, accepted);
    if posture.Some? {
      ConcludeSessions(u, settings, q, e, snapshot, accepted, posture.value, now);
    }
  }

  lemma ExecuteFindings(p: Platform, settings: Settings, q: Inquiry, clock: Time, now: Time)
    requires Risk.Grown(p.findings, clock) && Risk.Contiguous(p.findings) && clock <= now
    ensures var t := Execute(p, settings, q, now).0;
            Risk.Grown(t.findings, now) && Risk.Contiguous(t.findings)
  {
    hide Risk.Grown, Risk.Contiguous, S.Bind, RecordAndPrune, S.Finalize, RecordNew, IngestAll, AssessPosture, Detected, DecisionFor, Suspend,
         Authorize, Closing, ContentOf;
    forall candidates: seq<Finding>
      ensures Risk.Grown(RecordNew(p.findings, candidates, now).0, now) && Risk.Contiguous(RecordNew(p.findings, candidates, now).0)
    {
      Risk.RecordNewAppends(p.findings, candidates, clock, now);
      Risk.RecordNewContiguous(p.findings, candidates, now);
    }
    GrownLater(p.findings, clock, now);
  }

  lemma GrownLater(s: Findings.Store, clock: Time, now: Time)
    requires Risk.Grown(s, clock) && clock <= now
    ensures Risk.Grown(s, now)
  {
  }

  lemma SuspendKeepsKnown(a: Agents, agent: string, clock: Time, now: Time)
    requires R.PlaneSound(a.enforcement, clock) && clock <= now && EnforcementKnown(a)
    ensures R.PlaneSound(Suspend(a, agent, now).0.enforcement, now) && EnforcementKnown(Suspend(a, agent, now).0)
  {
    hide R.PlaneSound, Suspend;
    SuspendSucceeds(a, agent, clock, now);
  }

  lemma ReinstateKeepsKnown(a: Agents, agent: string, actor: string, reason: string, clock: Time, now: Time, mark: Watermark)
    requires R.PlaneSound(a.enforcement, clock) && clock <= now && EnforcementKnown(a) && mark.baselineAt.Some?
    ensures var b := Reinstate(a, agent, actor, reason, now, Some(mark)).0;
            R.PlaneSound(b.enforcement, now) && EnforcementKnown(b)
  {
    hide R.PlaneSound, Reinstate;
    ReinstateOutcome(a, agent, actor, reason, clock, now, mark);
  }

  lemma StepOperable(w: World, settings: Settings, step: Step)
    requires Operable(w.platform, w.clock)
    ensures Operable(Next(w, settings, step).platform, Next(w, settings, step).clock)
    ensures w.clock <= Next(w, settings, step).clock
  {
    hide Execute, L.AuthorityStep, Sessions.Next, Move, A.RegisterAgent, Reinstate, Suspend, Reset, C.CapturedMark,
         Sessions.Sound, Sessions.Evolves, R.PlaneSound, Risk.Grown, Risk.Contiguous, EnforcementKnown;
    var p, a, now := w.platform, w.platform.agents, Next(w, settings, step).clock;
    OperableLater(p, w.clock, now);
    match step
    case ExecuteStep(q, elapsed) =>
      ExecuteAgents(p, settings, q, now);
      SuspendKeepsKnown(a, q.agentId, w.clock, now);
      ExecuteSessions(p, settings, q, now);
      ExecuteFindings(p, settings, q, w.clock, now);
    case ReinstateStep(who, elapsed, actor, reason, failing) =>
      CapturedHasMoment(p, who, now);
      ReinstateKeepsKnown(a, who, actor, reason, w.clock, now, C.CapturedMark(p.findings, p.sessions, who, now));
    case RepairStep(_, _) =>
    case AdministerStep(who, elapsed, next) => MovedStayKnown(a, who, next, now);
    case RegisterStep(record, elapsed) => RegisteredStayKnown(a, record, now);
    case AuthorityStep(_, _) =>
    case SessionStep(change) => Sessions.StepSound(p.sessions, settings.policy, change);
  }

  lemma CapturedHasMoment(p: Platform, agent: string, now: Time)
    ensures C.CapturedMark(p.findings, p.sessions, agent, now).baselineAt == Some(now)
  {
  }

  function EmptyPlatform(authority: Option<G.Authority>): Platform {
    Platform(Agents(A.Register(map[], [], true, map[]), E.EMPTY_PLANE), S.EMPTY_SESSIONS, EMPTY_STORE, map[], authority, [])
  }

  lemma EmptyOperable(clock: Time, authority: Option<G.Authority>)
    ensures Operable(EmptyPlatform(authority), clock)
  {
    Sessions.EmptySound();
    R.EmptyPlaneSound(clock);
  }

  lemma {:induction false} RunOperable(clock: Time, settings: Settings, authority: Option<G.Authority>, steps: seq<Step>)
    ensures var w := Run(World(clock, EmptyPlatform(authority)), settings, steps);
            Operable(w.platform, w.clock)
  {
    hide Next, Operable, EmptyPlatform;
    if steps == [] {
      EmptyOperable(clock, authority);
    } else {
      RunOperable(clock, settings, authority, steps[..|steps| - 1]);
      StepOperable(Run(World(clock, EmptyPlatform(authority)), settings, steps[..|steps| - 1]), settings, steps[|steps| - 1]);
    }
  }

  /** Every request of every run from the empty platform, repairs and failing reinstatements
      included: it agrees with its record and its audit, its evidence is durable, it is granted
      exactly when everything permits it, and a CRITICAL posture contains. */
  lemma EveryRequestAgrees(clock: Time, settings: Settings, authority: Option<G.Authority>, steps: seq<Step>, q: Inquiry, elapsed: nat)
    requires RetentionSound(settings)
    ensures var w := Run(World(clock, EmptyPlatform(authority)), settings, steps);
            var p, now := w.platform, w.clock + elapsed;
            && PipelineAgrees(p, settings, q, now)
            && EvidenceDurable(p, settings, q, now)
            && (p.authority.Some? ==> GrantsExactly(p, settings, q, now) && CriticalContains(p, settings, q, now))
  {
    hide Run, EmptyPlatform, PipelineAgrees, EvidenceDurable, GrantsExactly, CriticalContains, Sessions.Sound, R.PlaneSound,
         EnforcementKnown, Risk.Grown;
    RunOperable(clock, settings, authority, steps);
    var w := Run(World(clock, EmptyPlatform(authority)), settings, steps);
    PipelineAgreement(w.platform, settings, q, w.clock, w.clock + elapsed);
    EvidenceIsDurable(w.platform, w.clock, settings, q, w.clock + elapsed);
    if w.platform.authority.Some? {
      GrantExactlyWhen(w.platform, settings, q, w.clock, w.clock + elapsed);
      CriticalPostureContains(w.platform, settings, q, w.clock, w.clock + elapsed);
    }
  }

  // ---- the audit trail ----------------------------------------------------------------------------------

  /** The record a result calls for: its final decision, under its session and agent. */
  function AuditOf(r: Result<RuntimeResult, RuntimeError>): seq<Audit> {
    if r.Ok? && r.value.event.finalDecision.Some?
    then [Audit(r.value.event.sessionId, r.value.event.agentId, r.value.event.finalDecision.value)] else []
  }

  /** The records the results of a run call for, in order. */
  function ResultsOf(w: World, settings: Settings, steps: seq<Step>): seq<Audit> {
    if steps == [] then []
    else
      var u, last := Run(w, settings, steps[..|steps| - 1]), steps[|steps| - 1];
      ResultsOf(w, settings, steps[..|steps| - 1])
      + (if last.ExecuteStep? then AuditOf(Execute(u.platform, settings, last.inquiry, u.clock + last.elapsed).1) else [])
  }

  function Requests(steps: seq<Step>): nat {
    if steps == [] then 0 else Requests(steps[..|steps| - 1]) + (if steps[|steps| - 1].ExecuteStep? then 1 else 0)
  }

  lemma StepAudits(w: World, settings: Settings, step: Step)
    requires step.ExecuteStep? ==> PipelineAgrees(w.platform, settings, step.inquiry, w.clock + step.elapsed)
    ensures Next(w, settings, step).platform.audits == w.platform.audits
            + (if step.ExecuteStep? then AuditOf(Execute(w.platform, settings, step.inquiry, w.clock + step.elapsed).1) else [])
    ensures step.ExecuteStep? ==> |AuditOf(Execute(w.platform, settings, step.inquiry, w.clock + step.elapsed).1)| == 1
  {
    hide Execute, L.AuthorityStep, Sessions.Next, Move, A.RegisterAgent, Reinstate, Reset, C.CapturedMark, OnRecord;
    assert w.platform.audits + [] == w.platform.audits;
  }

  /** Over any run from the empty platform the audit log is the results' final decisions in order:
      one record for each request and none for anything else. */
  lemma {:induction false} AuditsAreResults(clock: Time, settings: Settings, authority: Option<G.Authority>, steps: seq<Step>)
    requires RetentionSound(settings)
    ensures var w := World(clock, EmptyPlatform(authority));
            && Run(w, settings, steps).platform.audits == ResultsOf(w, settings, steps)
            && |ResultsOf(w, settings, steps)| == Requests(steps)
  {
    hide Next, Execute, AuditOf, PipelineAgrees, EvidenceDurable, GrantsExactly, CriticalContains;
    if steps != [] {
      var front, last := steps[..|steps| - 1], steps[|steps| - 1];
      var u := Run(World(clock, EmptyPlatform(authority)), settings, front);
      AuditsAreResults(clock, settings, authority, front);
      if last.ExecuteStep? {
        EveryRequestAgrees(clock, settings, authority, front, last.inquiry, last.elapsed);
      }
      StepAudits(u, settings, last);
    }
  }

  // ---- containment over runs ---------------------------------------------------------------------------

  /** The agent's enforcement issuance plane is closed. */
  predicate Closed(p: Platform, agent: string) {
    p.authority.Some? && G.ENFORCEMENT in G.ClosedPlanes(p.authority.value.closed, agent)
  }

  lemma UseKeepsClosed(a: G.Authority, use: L.Step, now: Time, agent: string)
    requires !(use.Open? && use.plane == G.ENFORCEMENT)
    requires G.ENFORCEMENT in G.ClosedPlanes(a.closed, agent)
    ensures G.ENFORCEMENT in G.ClosedPlanes(L.AuthorityStep(a, use, now).0.closed, agent)
  {
    hide G.Authenticity, G.Mismatch, G.OutstandingOf, G.ExpiryOf;
  }

  lemma SuspendCloses(a: G.Authority, who: string, agent: string)
    ensures G.ClosedPlanes(G.SuspendIssuance(a, who, G.ENFORCEMENT).0.closed, agent)
            == G.ClosedPlanes(a.closed, agent) + (if who == agent then {G.ENFORCEMENT} else {})
  {
  }

  lemma AuthorizeKeepsClosed(p: Platform, settings: Settings, q: Inquiry, epoch: nat, intended: Decision, now: Time, agent: string)
    requires Closed(p, agent)
    ensures var (a, grant, _) := Authorize(p, settings, q, epoch, intended, now);
            && a.Some? && G.ENFORCEMENT in G.ClosedPlanes(a.value.closed, agent)
            && (q.agentId == agent ==> grant.None?)
  {
    hide BindingFor, ProfileFor, G.OutstandingOf;
  }

  lemma ConcludeKeepsClosed(p: Platform, settings: Settings, q: Inquiry, e: S.Event, snapshot: E.EnforcementState,
                            accepted: seq<Finding>, posture: Projection, now: Time, agent: string)
    requires Closed(p, agent)
    ensures var (t, r) := Conclude(p, settings, q, e, snapshot, accepted, posture, now);
            Closed(t, agent) && (r.Ok? && q.agentId == agent ==> r.value.authorization.None?)
  {
    hide S.Finalize, Suspend, Authorize, G.SuspendIssuance, G.ClosedPlanes;
    var response := RecommendForLevel(posture.level);
    var intended := Restricted(e.decision, response);
    AuthorizeKeepsClosed(p, settings, q, snapshot.epoch, intended, now, agent);
    SuspendCloses(Authorize(p, settings, q, snapshot.epoch, intended, now).0.value, q.agentId, agent);
  }

  lemma ExecuteKeepsClosed(p: Platform, settings: Settings, q: Inquiry, now: Time, agent: string)
    requires Closed(p, agent)
    ensures var (t, r) := Execute(p, settings, q, now);
            Closed(t, agent) && (r.Ok? && q.agentId == agent ==> r.value.authorization.None?)
  {
    hide S.Bind, RecordAndPrune, AfterRecording, DecisionFor, G.ClosedPlanes;
    var (bound, owner) := S.Bind(p.sessions, q.sessionId, q.agentId, now);
    var (sessions, recorded) := RecordAndPrune(bound, settings.policy, EventFor(q, DecisionFor(p.agents, q)));
    if owner.Ok? && recorded.Ok? {
      RecordedKeepsClosed(p.(sessions := sessions), settings, q, recorded.value, SnapshotOf(p.agents, q.agentId), now, agent);
    }
  }

  lemma RecordedKeepsClosed(p: Platform, settings: Settings, q: Inquiry, e: S.Event, snapshot: E.EnforcementState,
                            now: Time, agent: string)
    requires Closed(p, agent)
    ensures var (t, r) := AfterRecording(p, settings, q, e, snapshot, now);
            Closed(t, agent) && (r.Ok? && q.agentId == agent ==> r.value.authorization.None?)
  {
    hide S.Finalize, RecordNew, IngestAll, AssessPosture, Detected, Conclude, G.ClosedPlanes;
    if !q.faults.horizon && !q.faults.evidence {
      var (t, accepted) := Recorded(p, q, ContentOf(q) + Detected(p, settings, e, snapshot, now), now);
      var (projections, posture) := AssessPosture(t, settings, q.agentId, q.faults.reconcile);
      if posture.Some? {
        ConcludeKeepsClosed(t.(projections := projections), settings, q, e, snapshot, accepted, posture.value, now, agent);
      }
    }
  }

  lemma StepKeepsClosed(w: World, settings: Settings, step: Step, agent: string)
    requires Closed(w.platform, agent)
    requires !(step.ReinstateStep? && step.agent == agent) && !(step.RepairStep? && step.agent == agent)
    ensures Closed(Next(w, settings, step).platform, agent)
  {
    hide Execute, L.AuthorityStep, Sessions.Next, Move, A.RegisterAgent, Reinstate, C.CapturedMark, Reset, G.ClosedPlanes;
    match step
    case ExecuteStep(q, elapsed) => ExecuteKeepsClosed(w.platform, settings, q, w.clock + elapsed, agent);
    case ReinstateStep(who, elapsed, _, _, _) => ResumeKeepsOthers(w.platform.authority.value, who, agent);
    case RepairStep(who, _) => ResumeKeepsOthers(w.platform.authority.value, who, agent);
    case AuthorityStep(use, elapsed) =>
      if !(use.Open? && use.plane == G.ENFORCEMENT) {
        UseKeepsClosed(w.platform.authority.value, use, w.clock + elapsed, agent);
      }
    case AdministerStep(_, _, _) =>
    case RegisterStep(_, _) =>
    case SessionStep(_) =>
  }

  lemma ResumeKeepsOthers(a: G.Authority, who: string, agent: string)
    requires who != agent
    ensures G.ClosedPlanes(G.ResumeIssuance(a, who, G.ENFORCEMENT).closed, agent) == G.ClosedPlanes(a.closed, agent)
  {
  }

  lemma {:induction false} RunKeepsClosed(w: World, settings: Settings, steps: seq<Step>, agent: string)
    requires Closed(w.platform, agent) && NotReinstated(steps, agent) && NotRepaired(steps, agent)
    ensures Closed(Run(w, settings, steps).platform, agent)
  {
    hide Next, Closed;
    if steps != [] {
      RunKeepsClosed(w, settings, steps[..|steps| - 1], agent);
      StepKeepsClosed(Run(w, settings, steps[..|steps| - 1]), settings, steps[|steps| - 1], agent);
    }
  }

  lemma SuspendResponseCloses(p: Platform, settings: Settings, q: Inquiry, now: Time)
    requires p.authority.Some?
    requires var r := Execute(p, settings, q, now).1; r.Ok? && r.value.response == Some(SUSPEND_AGENT)
    ensures Closed(Execute(p, settings, q, now).0, q.agentId)
    ensures Execute(p, settings, q, now).1.value.authorization.None?
  {
    hide S.Bind, RecordAndPrune, S.Finalize, RecordNew, IngestAll, AssessPosture, Detected, DecisionFor, Conclude;
    var (bound, owner) := S.Bind(p.sessions, q.sessionId, q.agentId, now);
    var (sessions, recorded) := RecordAndPrune(bound, settings.policy, EventFor(q, DecisionFor(p.agents, q)));
    var v := p.(sessions := sessions);
    var snapshot := SnapshotOf(p.agents, q.agentId);
    var (t, accepted) := Recorded(v, q, ContentOf(q) + Detected(v, settings, recorded.value, snapshot, now), now);
    var (projections, posture) := AssessPosture(t, settings, q.agentId, q.faults.reconcile);
    ConcludeCloses(t.(projections := projections), settings, q, recorded.value, snapshot, accepted, posture.value, now);
  }

  lemma ConcludeCloses(p: Platform, settings: Settings, q: Inquiry, e: S.Event, snapshot: E.EnforcementState,
                       accepted: seq<Finding>, posture: Projection, now: Time)
    requires p.authority.Some?
    requires var r := Conclude(p, settings, q, e, snapshot, accepted, posture, now).1;
             r.Ok? && r.value.response == Some(SUSPEND_AGENT)
    ensures Closed(Conclude(p, settings, q, e, snapshot, accepted, posture, now).0, q.agentId)
    ensures Conclude(p, settings, q, e, snapshot, accepted, posture, now).1.value.authorization.None?
  {
    hide S.Finalize, Suspend, Authorize, G.SuspendIssuance;
    var intended := Restricted(e.decision, RecommendForLevel(posture.level));
    AuthorizeAgrees(p, settings, q, snapshot.epoch, intended, now);
    SuspendCloses(Authorize(p, settings, q, snapshot.epoch, intended, now).0.value, q.agentId, q.agentId);
  }

  // An agent known when it is suspended needs no closed plane: it is refused by its lifecycle.

  /** The agent is registered, and disabled or suspended. */
  predicate Barred(a: Agents, agent: string) {
    Known(a, agent) && (Disabled(a, agent) || E.Suspended(a.enforcement, agent))
  }

  lemma BarredIsRefused(a: Agents, agent: string, outage: Outage)
    requires Barred(a, agent)
    ensures RefusalUnder(a, agent, outage).Some?
  {
    P.RefusalIsMostSignificant(
      if outage.administrative then P.Unavailable
      else if agent in a.administrative.states then P.Present(a.administrative.states[agent]) else P.Missing,
      if outage.enforcement then P.Unavailable
      else if agent in a.enforcement.states then P.Present(a.enforcement.states[agent]) else P.Missing,
      P.AGENT_DISABLED);
  }

  lemma SuspendKeepsBarred(a: Agents, who: string, now: Time, agent: string)
    requires Barred(a, agent)
    ensures Barred(Suspend(a, who, now).0, agent)
  {
  }

  lemma AdministrationKeepsBarred(a: Agents, who: string, next: A.Lifecycle, record: A.AgentRecord, now: Time, agent: string)
    requires Barred(a, agent)
    ensures Barred(Move(a, who, next, now).0, agent)
    ensures Barred(a.(administrative := A.RegisterAgent(a.administrative, record, now).0), agent)
  {
  }

  lemma ReinstateKeepsOthersBarred(a: Agents, who: string, actor: string, reason: string, now: Time, mark: Watermark, agent: string)
    requires Barred(a, agent) && who != agent
    ensures Barred(Reinstate(a, who, actor, reason, now, Some(mark)).0, agent)
  {
  }

  lemma StepKeepsBarred(w: World, settings: Settings, step: Step, agent: string)
    requires Barred(w.platform.agents, agent) && !(step.ReinstateStep? && step.agent == agent)
    ensures Barred(Next(w, settings, step).platform.agents, agent)
  {
    hide Execute, L.AuthorityStep, Sessions.Next, Move, A.RegisterAgent, Reinstate, C.CapturedMark, Reset, Barred, Suspend;
    var a := w.platform.agents;
    match step
    case ExecuteStep(q, elapsed) =>
      ExecuteAgents(w.platform, settings, q, w.clock + elapsed);
      SuspendKeepsBarred(a, q.agentId, w.clock + elapsed, agent);
    case ReinstateStep(who, elapsed, actor, reason, _) =>
      ReinstateKeepsOthersBarred(a, who, actor, reason, w.clock + elapsed,
                                 C.CapturedMark(w.platform.findings, w.platform.sessions, who, w.clock + elapsed), agent);
    case AdministerStep(who, elapsed, next) =>
      AdministrationKeepsBarred(a, who, next, A.AgentRecord("", ""), w.clock + elapsed, agent);
    case RegisterStep(record, elapsed) =>
      AdministrationKeepsBarred(a, agent, A.DISABLED, record, w.clock + elapsed, agent);
    case RepairStep(_, _) =>
    case AuthorityStep(_, _) =>
    case SessionStep(_) =>
  }

  lemma {:induction false} RunKeepsBarred(w: World, settings: Settings, steps: seq<Step>, agent: string)
    requires Barred(w.platform.agents, agent) && NotReinstated(steps, agent)
    ensures Barred(Run(w, settings, steps).platform.agents, agent)
  {
    hide Next, Barred;
    if steps != [] {
      RunKeepsBarred(w, settings, steps[..|steps| - 1], agent);
      StepKeepsBarred(Run(w, settings, steps[..|steps| - 1]), settings, steps[|steps| - 1], agent);
    }
  }

  lemma RefusedGetsNoGrant(p: Platform, settings: Settings, q: Inquiry, now: Time)
    requires RefusalUnder(p.agents, q.agentId, q.faults.outage).Some?
    ensures var r := Execute(p, settings, q, now).1; r.Ok? ==> r.value.authorization.None?
  {
    hide S.Bind, RecordAndPrune, Recorded, AssessPosture, Detected, Conclude, Refuse, Malformed, RefusalUnder, SnapshotOf;
    var (bound, owner) := S.Bind(p.sessions, q.sessionId, q.agentId, now);
    var event := EventFor(q, DecisionFor(p.agents, q));
    var (sessions, recorded) := RecordAndPrune(bound, settings.policy, event);
    if owner.Ok? && recorded.Ok? {
      var u, e := p.(sessions := sessions), recorded.value;
      RecordedDecision(bound, settings.policy, event);
      var snapshot := SnapshotOf(p.agents, q.agentId);
      var (v, accepted) := Recorded(u, q, ContentOf(q) + Detected(u, settings, e, snapshot, now), now);
      var (projections, posture) := AssessPosture(v, settings, q.agentId, q.faults.reconcile);
      RefusedWithout(u, e, HORIZON_UNAVAILABLE, []);
      RefusedWithout(u, e, EVIDENCE_RECORDING_FAILED, []);
      RefusedWithout(v.(projections := projections), e, POSTURE_RECONCILIATION_FAILED, accepted);
      if posture.Some? {
        DeniedGetsNoGrant(v.(projections := projections), settings, q, e, snapshot, accepted, posture.value, now);
      }
    }
  }

  lemma RecordedDecision(s: S.Store, policy: Option<Retention>, e: S.Event)
    ensures var r := RecordAndPrune(s, policy, e).1; r.Ok? ==> r.value.decision == e.decision
  {
  }

  lemma DeniedGetsNoGrant(p: Platform, settings: Settings, q: Inquiry, e: S.Event, snapshot: E.EnforcementState,
                          accepted: seq<Finding>, posture: Projection, now: Time)
    requires e.decision == DENY
    ensures var r := Conclude(p, settings, q, e, snapshot, accepted, posture, now).1; r.Ok? ==> r.value.authorization.None?
  {
    hide S.Finalize, Contain, BindingFor, ProfileFor, Authorize;
    AuthorizeAgrees(p, settings, q, snapshot.epoch, Restricted(e.decision, RecommendForLevel(posture.level)), now);
  }

  lemma SuspendResponseBars(p: Platform, settings: Settings, q: Inquiry, clock: Time, now: Time)
    requires R.PlaneSound(p.agents.enforcement, clock) && clock <= now && Known(p.agents, q.agentId)
    requires var r := Execute(p, settings, q, now).1; r.Ok? && r.value.response == Some(SUSPEND_AGENT)
    ensures Barred(Execute(p, settings, q, now).0.agents, q.agentId)
  {
    hide Execute, R.PlaneSound, Suspend, Disabled;
    ExecuteAgents(p, settings, q, now);
    SuspendSucceeds(p.agents, q.agentId, clock, now);
    SameAdministration(p.agents, Suspend(p.agents, q.agentId, now).0, q.agentId);
    if !Disabled(p.agents, q.agentId) {
      SuspendSuspends(p.agents, q.agentId, clock, now);
    }
  }

  lemma SameAdministration(a: Agents, b: Agents, agent: string)
    requires a.administrative == b.administrative
    ensures Disabled(a, agent) == Disabled(b, agent)
  {
  }

  /** After a request whose response is SUSPEND_AGENT, which itself returns no grant, no later
      request of the agent returns one until it is reinstated, whatever else happens meanwhile: an
      agent registered at the time may even be repaired, one registered only later must not be. */
  lemma NoGrantAfterSuspension(w: World, settings: Settings, q: Inquiry, elapsed: nat, steps: seq<Step>, later: Inquiry, now: Time)
    requires w.platform.authority.Some? && later.agentId == q.agentId && NotReinstated(steps, q.agentId)
    requires NotRepaired(steps, q.agentId)
             || (Known(w.platform.agents, q.agentId) && R.PlaneSound(w.platform.agents.enforcement, w.clock))
    requires var r := Execute(w.platform, settings, q, w.clock + elapsed).1; r.Ok? && r.value.response == Some(SUSPEND_AGENT)
    ensures Execute(w.platform, settings, q, w.clock + elapsed).1.value.authorization.None?
    ensures var u := Run(Next(w, settings, ExecuteStep(q, elapsed)), settings, steps);
            var r := Execute(u.platform, settings, later, now).1;
            r.Ok? ==> r.value.authorization.None?
  {
    hide Execute, Run, Closed, Barred, RefusalUnder, R.PlaneSound, Known;
    SuspendResponseCloses(w.platform, settings, q, w.clock + elapsed);
    var v := Next(w, settings, ExecuteStep(q, elapsed));
    if NotRepaired(steps, q.agentId) {
      RunKeepsClosed(v, settings, steps, q.agentId);
      ExecuteKeepsClosed(Run(v, settings, steps).platform, settings, later, now, q.agentId);
    } else {
      SuspendResponseBars(w.platform, settings, q, w.clock, w.clock + elapsed);
      RunKeepsBarred(v, settings, steps, q.agentId);
      BarredIsRefused(Run(v, settings, steps).platform.agents, q.agentId, later.faults.outage);
      RefusedGetsNoGrant(Run(v, settings, steps).platform, settings, later, now);
    }
  }

  // ---- the ratchet over runs --------------------------------------------------------------------------

  /** The platform as the risk projection sees it. */
  function RiskOf(p: Platform, clock: Time, settings: Settings): Risk.World {
    Risk.World(clock, p.findings,
               map a | a in p.agents.enforcement.states :: p.agents.enforcement.states[a].baseline,
               p.projections, settings.vocabulary)
  }

  ghost predicate Sound(p: Platform, clock: Time, settings: Settings) {
    && Risk.Sound(RiskOf(p, clock, settings))
    && R.PlaneSound(p.agents.enforcement, clock)
    && EnforcementKnown(p.agents)
  }

  lemma BaselineIsStored(p: Platform, clock: Time, settings: Settings, agent: string)
    ensures Risk.BaselineOf(RiskOf(p, clock, settings), agent) == E.StateOf(p.agents.enforcement, agent).baseline
    ensures EnforcementKnown(p.agents) ==>
              SnapshotOf(p.agents, agent).baseline == Risk.BaselineOf(RiskOf(p, clock, settings), agent)
  {
  }

  /** Soundness of the projection depends on the baselines only through their values. */
  lemma SameBaselinesSound(v: Risk.World, u: Risk.World)
    requires Risk.Sound(v) && u == v.(baselines := u.baselines)
    requires forall a :: Risk.BaselineOf(u, a) == Risk.BaselineOf(v, a)
    ensures Risk.Sound(u)
  {
    hide Risk.Grown, Risk.Contiguous, Rebuild;
    forall a ensures Risk.BaselineSound(u, a) && Risk.ProjectionSound(u, a) {
      assert Risk.BaselineSound(v, a) && Risk.ProjectionSound(v, a);
      assert Risk.FullRebuild(u, a) == Risk.FullRebuild(v, a);
    }
  }

  lemma PlaneSoundLater(p: E.Plane, clock: Time, now: Time)
    requires R.PlaneSound(p, clock) && clock <= now
    ensures R.PlaneSound(p, now)
  {
  }

  /** Accepting evidence, the empty list included, is a step of the risk runs. */
  lemma RecordedSound(p: Platform, clock: Time, settings: Settings, q: Inquiry, candidates: seq<Finding>, now: Time)
    requires Sound(p, clock, settings) && clock <= now
    ensures var t := Recorded(p, q, candidates, now).0;
            && Sound(t, now, settings) && p.findings.log <= t.findings.log && t.agents == p.agents
  {
    hide RecordNew, IngestAll, Risk.Sound, R.PlaneSound;
    var v := RiskOf(p, clock, settings);
    var step := Risk.Accept(now - clock, candidates, q.faults.ingest);
    Risk.StepKeepsSound(v, step);
    SoundIsGrown(v);
    Risk.RecordNewAppends(p.findings, candidates, clock, now);
    PlaneSoundLater(p.agents.enforcement, clock, now);
    assert RiskOf(Recorded(p, q, candidates, now).0, now, settings) == Risk.Next(v, step);
  }

  lemma SoundIsGrown(v: Risk.World)
    requires Risk.Sound(v)
    ensures Risk.Grown(v.store, v.clock)
  {
  }

  lemma LaterSound(p: Platform, clock: Time, settings: Settings, now: Time)
    requires Sound(p, clock, settings) && clock <= now
    ensures Sound(p, now, settings)
  {
    hide Risk.Sound, R.PlaneSound;
    var v := RiskOf(p, clock, settings);
    Risk.StepKeepsSound(v, Risk.Accept(now - clock, [], {}));
    PlaneSoundLater(p.agents.enforcement, clock, now);
    assert RiskOf(p, now, settings) == Risk.Next(v, Risk.Accept(now - clock, [], {}));
  }

  /** The posture a request acts on is the full rebuild of the evidence, by either path. */
  lemma AssessSound(p: Platform, clock: Time, settings: Settings, agent: string, fault: bool)
    requires Sound(p, clock, settings)
    ensures var (projections, posture) := AssessPosture(p, settings, agent, fault);
            && Sound(p.(projections := projections), clock, settings)
            && (posture.Some? ==> posture.value == Risk.FullRebuild(RiskOf(p, clock, settings), agent))
            && (posture.None? ==> fault && projections == p.projections)
  {
    hide Rebuild, Listed, Risk.Grown, Risk.Contiguous, R.PlaneSound, Risk.BaselineSound;
    var v := RiskOf(p, clock, settings);
    BaselineIsStored(p, clock, settings, agent);
    assert Risk.ProjectionSound(v, agent);
    Risk.StepKeepsSound(v, Risk.Assess(agent));
    Risk.AssessedIsRebuild(v, agent);
    hide Risk.Sound, Risk.ProjectionSound;
    var projections := AssessPosture(p, settings, agent, fault).0;
    assert RiskOf(p.(projections := projections), clock, settings)
           == if projections == p.projections then v else Risk.Next(v, Risk.Assess(agent));
  }

  /** Suspension leaves every baseline, and so the projection, as it was. */
  lemma SuspendedSound(p: Platform, clock: Time, settings: Settings, agent: string, now: Time)
    requires Sound(p, now, settings) && R.PlaneSound(p.agents.enforcement, clock) && clock <= now
    ensures Sound(p.(agents := Suspend(p.agents, agent, now).0), now, settings)
    ensures forall a :: E.StateOf(Suspend(p.agents, agent, now).0.enforcement, a).baseline
                        == E.StateOf(p.agents.enforcement, a).baseline
  {
    hide Risk.Sound, R.PlaneSound, Suspend;
    SuspendSucceeds(p.agents, agent, clock, now);
    var t := p.(agents := Suspend(p.agents, agent, now).0);
    forall a ensures Risk.BaselineOf(RiskOf(t, now, settings), a) == Risk.BaselineOf(RiskOf(p, now, settings), a) {
      BaselineIsStored(t, now, settings, a);
      BaselineIsStored(p, now, settings, a);
    }
    SameBaselinesSound(RiskOf(p, now, settings), RiskOf(t, now, settings));
  }

  ghost predicate KeepsBaselines(p: Platform, t: Platform) {
    forall a :: E.StateOf(t.agents.enforcement, a).baseline == E.StateOf(p.agents.enforcement, a).baseline
  }

  lemma ConcludeSound(p: Platform, clock: Time, settings: Settings, q: Inquiry, e: S.Event, snapshot: E.EnforcementState,
                      accepted: seq<Finding>, posture: Projection, now: Time)
    requires Sound(p, now, settings)
    ensures var (t, r) := Conclude(p, settings, q, e, snapshot, accepted, posture, now);
            && Sound(t, now, settings) && t.findings == p.findings && KeepsBaselines(p, t)
            && (r.Ok? ==> r.value.posture == Some(posture))
  {
    hide S.Finalize, Authorize, Suspend, G.SuspendIssuance, Risk.Sound, R.PlaneSound;
    SuspendedSound(p, now, settings, q.agentId, now);
  }

  /** What a request does to the risk side of the platform. */
  ghost predicate Ratchets(p: Platform, t: Platform, now: Time, settings: Settings, agent: string,
                           r: Result<RuntimeResult, RuntimeError>)
  {
    && Sound(t, now, settings) && p.findings.log <= t.findings.log && KeepsBaselines(p, t)
    && (r.Ok? && r.value.posture.Some? ==> r.value.posture.value == Risk.FullRebuild(RiskOf(t, now, settings), agent))
  }

  lemma RecordedRatchets(p: Platform, clock: Time, settings: Settings, q: Inquiry, e: S.Event,
                         snapshot: E.EnforcementState, now: Time)
    requires Sound(p, clock, settings) && clock <= now
    ensures var (t, r) := AfterRecording(p, settings, q, e, snapshot, now);
            Ratchets(p, t, now, settings, q.agentId, r)
  {
    hide S.Finalize, Recorded, AssessPosture, Detected, Conclude, Sound, RiskOf;
    LaterSound(p, clock, settings, now);
    var candidates := ContentOf(q) + Detected(p, settings, e, snapshot, now);
    RecordedSound(p, clock, settings, q, candidates, now);
    var (t, accepted) := Recorded(p, q, candidates, now);
    AssessSound(t, now, settings, q.agentId, q.faults.reconcile);
    var (projections, posture) := AssessPosture(t, settings, q.agentId, q.faults.reconcile);
    var u := t.(projections := projections);
    if posture.Some? {
      ConcludeSound(u, clock, settings, q, e, snapshot, accepted, posture.value, now);
      var v := Conclude(u, settings, q, e, snapshot, accepted, posture.value, now).0;
      SameEvidenceSameRebuild(t, u, v, now, settings, q.agentId);
    }
    RefuseSound(p, e, HORIZON_UNAVAILABLE, [], now, settings);
    RefuseSound(p, e, EVIDENCE_RECORDING_FAILED, [], now, settings);
    RefuseSound(u, e, POSTURE_RECONCILIATION_FAILED, accepted, now, settings);
  }

  lemma RefuseSound(p: Platform, e: S.Event, reason: RefusalReason, findings: seq<Finding>, now: Time, settings: Settings)
    requires Sound(p, now, settings)
    ensures var (t, r) := Refuse(p, e, reason, findings);
            && Sound(t, now, settings) && t.findings == p.findings && t.agents == p.agents
            && (r.Ok? ==> r.value.posture.None?)
  {
    hide S.Finalize, Risk.Sound, R.PlaneSound;
  }

  lemma SameEvidenceSameRebuild(t: Platform, u: Platform, v: Platform, now: Time, settings: Settings, agent: string)
    requires t.findings == u.findings == v.findings && t.agents == u.agents && KeepsBaselines(u, v)
    ensures Risk.FullRebuild(RiskOf(t, now, settings), agent) == Risk.FullRebuild(RiskOf(v, now, settings), agent)
  {
    BaselineIsStored(t, now, settings, agent);
    BaselineIsStored(v, now, settings, agent);
  }

  lemma ExecuteRatchets(p: Platform, clock: Time, settings: Settings, q: Inquiry, now: Time)
    requires Sound(p, clock, settings) && clock <= now
    ensures var (t, r) := Execute(p, settings, q, now);
            Ratchets(p, t, now, settings, q.agentId, r)
  {
    hide S.Bind, RecordAndPrune, AfterRecording, DecisionFor, Risk.Sound, R.PlaneSound;
    LaterSound(p, clock, settings, now);
    var (bound, owner) := S.Bind(p.sessions, q.sessionId, q.agentId, now);
    var (sessions, recorded) := RecordAndPrune(bound, settings.policy, EventFor(q, DecisionFor(p.agents, q)));
    if owner.Ok? && recorded.Ok? {
      RecordedRatchets(p.(sessions := sessions), clock, settings, q, recorded.value, SnapshotOf(p.agents, q.agentId), now);
    }
  }

  /** A reinstatement is a reinstatement of the projection too, whether or not its issuance
      could be reopened; a refused one changes nothing. */
  lemma ReinstateSound(p: Platform, clock: Time, settings: Settings, agent: string, actor: string, reason: string,
                       failing: C.Faults, now: Time)
    requires p.authority.Some? && Sound(p, clock, settings) && clock <= now && !failing.reset
    ensures var t := ReinstateOn(p, settings, agent, actor, reason, failing, now);
            && Sound(t, now, settings) && t.findings == p.findings
            && forall a :: a != agent ==> E.StateOf(t.agents.enforcement, a) == E.StateOf(p.agents.enforcement, a)
  {
    hide Risk.Sound, R.PlaneSound, G.ResumeIssuance, CaptureBaseline, Reset;
    LaterSound(p, clock, settings, now);
    var t := ReinstateOn(p, settings, agent, actor, reason, failing, now);
    var mark := C.CapturedMark(p.findings, p.sessions, agent, now);
    ReinstateOutcome(p.agents, agent, actor, reason, clock, now, mark);
    var (agents, r) := Reinstate(p.agents, agent, actor, reason, now, Some(mark));
    assert t.agents == agents;
    if r.Ok? {
      hide Reinstate;
      var step := Risk.Reinstate(agent, now - clock, Counter(p.sessions.agentSequences, agent));
      Risk.StepKeepsSound(RiskOf(p, clock, settings), step);
      assert RiskOf(t, now, settings).baselines == RiskOf(p, clock, settings).baselines[agent := mark];
      assert RiskOf(t, now, settings) == Risk.Next(RiskOf(p, clock, settings), step);
    }
  }

  lemma ReinstateOutcome(a: Agents, agent: string, actor: string, reason: string, clock: Time, now: Time, mark: Watermark)
    requires R.PlaneSound(a.enforcement, clock) && clock <= now && mark.baselineAt.Some?
    ensures var (b, r) := Reinstate(a, agent, actor, reason, now, Some(mark));
            && (r.Err? ==> b == a)
            && R.PlaneSound(b.enforcement, now)
            && b.administrative == a.administrative
            && (r.Ok? ==> Known(a, agent)
                          && exists s: E.EnforcementState :: s.baseline == mark && b.enforcement.states == a.enforcement.states[agent := s])
  {
    R.CommitOutcome(a.enforcement, clock, agent, E.StateOf(a.enforcement, agent), E.REINSTATE, now, Some(mark));
    PlaneSoundLater(a.enforcement, clock, now);
    hide E.Commit, R.PlaneSound;
    var s := E.Advance(E.StateOf(a.enforcement, agent), E.REINSTATE, now, Some(mark));
    assert s.baseline == mark;
  }

  lemma MovedStayKnown(a: Agents, agent: string, next: A.Lifecycle, now: Time)
    requires EnforcementKnown(a)
    ensures EnforcementKnown(Move(a, agent, next, now).0)
    ensures Move(a, agent, next, now).0.enforcement == a.enforcement
  {
  }

  lemma RegisteredStayKnown(a: Agents, record: A.AgentRecord, now: Time)
    requires EnforcementKnown(a)
    ensures EnforcementKnown(a.(administrative := A.RegisterAgent(a.administrative, record, now).0))
  {
  }

  lemma OtherAgentsSound(p: Platform, clock: Time, settings: Settings, agents: Agents, now: Time)
    requires Sound(p, clock, settings) && clock <= now
    requires agents.enforcement == p.agents.enforcement && EnforcementKnown(agents)
    ensures Sound(p.(agents := agents), now, settings)
  {
    hide Risk.Sound, R.PlaneSound;
    LaterSound(p, clock, settings, now);
  }

  /** The projection is reset only to the truth: no reinstatement's reset fails, and a repair
      resets only an agent with no evidence since its baseline. */
  ghost predicate ResetsTruthfully(p: Platform, step: Step) {
    && (step.ReinstateStep? ==> !step.failing.reset)
    && (step.RepairStep? && !step.failing.reset ==>
          PostBaseline(p.findings.log, step.agent, E.StateOf(p.agents.enforcement, step.agent).baseline) == [])
  }

  ghost predicate AllResetTruthfully(w: World, settings: Settings, steps: seq<Step>) {
    steps == []
    || (AllResetTruthfully(w, settings, steps[..|steps| - 1])
        && ResetsTruthfully(Run(w, settings, steps[..|steps| - 1]).platform, steps[|steps| - 1]))
  }

  /** Such a repair is a rebuild by another name. */
  lemma RepairSound(p: Platform, clock: Time, settings: Settings, agent: string, failing: C.Faults)
    requires p.authority.Some? && Sound(p, clock, settings) && ResetsTruthfully(p, RepairStep(agent, failing))
    ensures Sound(RepairOn(p, settings, agent, failing), clock, settings)
  {
    hide Risk.Sound, R.PlaneSound, G.ResumeIssuance, Reset, PostBaseline;
    var v, t := RiskOf(p, clock, settings), RepairOn(p, settings, agent, failing);
    var mark := E.StateOf(p.agents.enforcement, agent).baseline;
    BaselineIsStored(p, clock, settings, agent);
    if t.projections != p.projections {
      Risk.RepairResetsTruthfullyIffNothingSince(v, agent);
      Risk.StepKeepsSound(v, Risk.Assess(agent));
      Risk.AssessedIsRebuild(v, agent);
      AssessSets(v, agent);
      assert t.projections == p.projections[agent := Reset(agent, settings.vocabulary, mark)];
      assert RiskOf(t, clock, settings) == Risk.Next(v, Risk.Assess(agent));
    } else {
      assert RiskOf(t, clock, settings) == v;
    }
  }

  lemma AssessSets(v: Risk.World, agent: string)
    requires Risk.Sound(v)
    ensures Risk.Next(v, Risk.Assess(agent)) == v.(projections := v.projections[agent := Risk.FullRebuild(v, agent)])
  {
    Risk.AssessedIsRebuild(v, agent);
    hide Risk.Grown, Risk.Contiguous, Risk.BaselineSound, Rebuild;
    assert Risk.ProjectionSound(v, agent);
    if Risk.Healthy(v, agent) {
      assert v.projections[agent := Risk.FullRebuild(v, agent)] == v.projections;
    }
  }

  lemma StepRatchets(w: World, settings: Settings, step: Step, agent: string)
    requires Sound(w.platform, w.clock, settings) && ResetsTruthfully(w.platform, step)
    ensures var u := Next(w, settings, step);
            && Sound(u.platform, u.clock, settings) && w.clock <= u.clock
            && w.platform.findings.log <= u.platform.findings.log
            && (!(step.ReinstateStep? && step.agent == agent) ==>
                  E.StateOf(u.platform.agents.enforcement, agent).baseline == E.StateOf(w.platform.agents.enforcement, agent).baseline)
  {
    hide Execute, L.AuthorityStep, Sessions.Next, Move, A.RegisterAgent, ReinstateOn, Risk.Sound, R.PlaneSound, Reset,
         PostBaseline;
    match step
    case ExecuteStep(q, elapsed) =>
      ExecuteRatchets(w.platform, w.clock, settings, q, w.clock + elapsed);
    case ReinstateStep(who, elapsed, actor, reason, failing) =>
      if w.platform.authority.Some? {
        ReinstateSound(w.platform, w.clock, settings, who, actor, reason, failing, w.clock + elapsed);
      }
    case RepairStep(who, failing) =>
      if w.platform.authority.Some? {
        RepairSound(w.platform, w.clock, settings, who, failing);
      }
    case AdministerStep(who, elapsed, next) =>
      MovedStayKnown(w.platform.agents, who, next, w.clock + elapsed);
      OtherAgentsSound(w.platform, w.clock, settings, Move(w.platform.agents, who, next, w.clock + elapsed).0, w.clock + elapsed);
    case RegisterStep(record, elapsed) =>
      RegisteredStayKnown(w.platform.agents, record, w.clock + elapsed);
      OtherAgentsSound(w.platform, w.clock, settings,
                       w.platform.agents.(administrative := A.RegisterAgent(w.platform.agents.administrative, record, w.clock + elapsed).0),
                       w.clock + elapsed);
    case AuthorityStep(_, elapsed) => LaterSound(w.platform, w.clock, settings, w.clock + elapsed);
    case SessionStep(_) =>
  }

  lemma {:induction false} RunRatchets(w: World, settings: Settings, steps: seq<Step>, agent: string)
    requires Sound(w.platform, w.clock, settings) && AllResetTruthfully(w, settings, steps)
    ensures var u := Run(w, settings, steps);
            && Sound(u.platform, u.clock, settings) && w.clock <= u.clock
            && w.platform.findings.log <= u.platform.findings.log
            && (NotReinstated(steps, agent) ==>
                  E.StateOf(u.platform.agents.enforcement, agent).baseline == E.StateOf(w.platform.agents.enforcement, agent).baseline)
  {
    hide Next, Sound, E.StateOf, ResetsTruthfully;
    if steps != [] {
      RunRatchets(w, settings, steps[..|steps| - 1], agent);
      StepRatchets(Run(w, settings, steps[..|steps| - 1]), settings, steps[|steps| - 1], agent);
      assert NotReinstated(steps, agent) ==> NotReinstated(steps[..|steps| - 1], agent);
    }
  }

  lemma LongerEvidenceScoresNoLess(p: Platform, t: Platform, clock: Time, now: Time, settings: Settings, agent: string)
    requires p.findings.log <= t.findings.log
    requires E.StateOf(t.agents.enforcement, agent).baseline == E.StateOf(p.agents.enforcement, agent).baseline
    ensures var a, b := Risk.FullRebuild(RiskOf(p, clock, settings), agent), Risk.FullRebuild(RiskOf(t, now, settings), agent);
            a.score <= b.score && Rank(a.level) <= Rank(b.level)
  {
    hide PostBaseline, TallyOf;
    BaselineIsStored(p, clock, settings, agent);
    BaselineIsStored(t, now, settings, agent);
    var more := t.findings.log[|p.findings.log|..];
    assert t.findings.log == p.findings.log + more;
    var mark := E.StateOf(p.agents.enforcement, agent).baseline;
    Risk.LongerLogScoresNoLess(p.findings.log, more, agent, settings.vocabulary, mark);
    LevelMonotone(Risk.FullRebuild(RiskOf(p, clock, settings), agent).score, Risk.FullRebuild(RiskOf(t, now, settings), agent).score);
  }

  /** The ratchet. Between reinstatements the score and level that successive requests of an agent
      are decided by never decrease, whichever of the incremental and the rebuild path produced
      them and whatever else runs in between. */
  lemma RuntimeRatchet(w: World, settings: Settings, q: Inquiry, elapsed: nat, steps: seq<Step>, later: Inquiry, pause: nat)
    requires Sound(w.platform, w.clock, settings)
    requires later.agentId == q.agentId && NotReinstated(steps, q.agentId)
    requires AllResetTruthfully(Next(w, settings, ExecuteStep(q, elapsed)), settings, steps)
    ensures var first := Execute(w.platform, settings, q, w.clock + elapsed).1;
            var u := Run(Next(w, settings, ExecuteStep(q, elapsed)), settings, steps);
            var second := Execute(u.platform, settings, later, u.clock + pause).1;
            first.Ok? && second.Ok? && first.value.posture.Some? && second.value.posture.Some?
            ==> first.value.posture.value.score <= second.value.posture.value.score
                && Rank(first.value.posture.value.level) <= Rank(second.value.posture.value.level)
  {
    hide Execute, Run, Sound, E.StateOf, RiskOf, Risk.FullRebuild, AllResetTruthfully;
    var v := Next(w, settings, ExecuteStep(q, elapsed));
    ExecuteRatchets(w.platform, w.clock, settings, q, w.clock + elapsed);
    RunRatchets(v, settings, steps, q.agentId);
    var u := Run(v, settings, steps);
    ExecuteRatchets(u.platform, u.clock, settings, later, u.clock + pause);
    var t := Execute(u.platform, settings, later, u.clock + pause).0;
    LongerEvidenceScoresNoLess(v.platform, t, v.clock, u.clock + pause, settings, q.agentId);
  }

  /** In every run from the empty platform that resets projections only to the truth, the platform
      is sound and the posture a request is decided by is the full rebuild of its agent's evidence. */
  lemma EveryPostureIsTrue(clock: Time, settings: Settings, authority: Option<G.Authority>, steps: seq<Step>, q: Inquiry, elapsed: nat)
    requires AllResetTruthfully(World(clock, EmptyPlatform(authority)), settings, steps)
    ensures var w := Run(World(clock, EmptyPlatform(authority)), settings, steps);
            var (t, r) := Execute(w.platform, settings, q, w.clock + elapsed);
            && Sound(w.platform, w.clock, settings)
            && (r.Ok? && r.value.posture.Some?
                ==> r.value.posture.value == Risk.FullRebuild(RiskOf(t, w.clock + elapsed, settings), q.agentId))
  {
    hide Execute, Run, Sound, RiskOf, Risk.FullRebuild, EmptyPlatform, AllResetTruthfully;
    EmptyPlatformSound(clock, settings, authority);
    RunRatchets(World(clock, EmptyPlatform(authority)), settings, steps, q.agentId);
    var w := Run(World(clock, EmptyPlatform(authority)), settings, steps);
    ExecuteRatchets(w.platform, w.clock, settings, q, w.clock + elapsed);
  }

  lemma EmptyPlatformSound(clock: Time, settings: Settings, authority: Option<G.Authority>)
    ensures Sound(EmptyPlatform(authority), clock, settings)
  {
    Risk.ProjectionEquivalence(clock, settings.vocabulary, [], "");
    assert RiskOf(EmptyPlatform(authority), clock, settings) == Risk.Start(clock, settings.vocabulary);
    R.EmptyPlaneSound(clock);
  }
}
