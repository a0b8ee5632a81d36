/** What a reinstatement leaves behind in the running platform, and what it keeps out of everything
    after it: app/services/enforcement_coordinator.py:86-139. */
module RuntimeRecovery {
  import opened Prelude
  import opened Findings
  import opened RiskProjection
  import opened RiskAggregation
  import opened AgentLifecycle
  import opened Runtime
  import opened RuntimeRuns
  import A = AdministrativePlane
  import C = EnforcementCoordination
  import E = EnforcementPlane
  import G = GrantAuthority
  import L = GrantLedger
  import R = EnforcementRaces
  import S = SessionStore
  import Sessions = SessionRuns
  import Risk = RiskRuns

  // ---- the line a reinstatement draws -------------------------------------------------------------------

  /** The text is more than blanks. */
  predicate Says(text: string) {
    exists i :: 0 <= i < |text| && text[i] !in {' ', '\t', '\n', '\r'}
  }

  /** The four things a reinstatement asks for. */
  predicate Reinstatable(p: Platform, agent: string, actor: string, reason: string) {
    && agent in p.agents.administrative.agents
    && Says(actor) && Says(reason)
    && E.StateOf(p.agents.enforcement, agent).suspendedAt.Some?
  }

  /** A reinstatement that is asked for properly clears the agent and draws the line at the present
      moment: the agent's last finding number, its last event number and the time, under the next
      generation and epoch. Unless the reset fails the projection is empty there, and unless something
      fails the enforcement plane is open. Asked for otherwise it changes nothing. */
  ghost predicate DrawsTheLine(p: Platform, settings: Settings, agent: string, actor: string, reason: string,
                               failing: C.Faults, now: Time)
    requires p.authority.Some?
  {
    var t := ReinstateOn(p, settings, agent, actor, reason, failing, now);
    var was, line := E.StateOf(p.agents.enforcement, agent),
                     Watermark(Some(now), Counter(p.findings.sequences, agent), Counter(p.sessions.agentSequences, agent));
    if !Reinstatable(p, agent, actor, reason) then t == p
    else
      && t.agents.administrative == p.agents.administrative
      && t.agents.enforcement.states
         == p.agents.enforcement.states[agent := E.EnforcementState(was.epoch + 1, None, line, was.recoveryGeneration + 1, Some(now))]
      && (!failing.reset ==>
            && t.projections.Keys == p.projections.Keys + {agent}
            && (forall a :: a in p.projections && a != agent ==> t.projections[a] == p.projections[a])
            && var q := t.projections[agent];
               && q.state == HEALTHY && q.score == 0 && q.level == LowRisk
               && q.cursor == q.baseline == line.evidence && q.baselineAt == Some(now))
      && (!failing.reset && !failing.resume ==> C.EnforcementOpen(t.authority.value, agent))
      && t.findings == p.findings && t.sessions == p.sessions
  }

  lemma ReinstateDraws(p: Platform, settings: Settings, agent: string, actor: string, reason: string, failing: C.Faults,
                       clock: Time, now: Time)
    requires Operable(p, clock) && clock <= now && p.authority.Some?
    ensures DrawsTheLine(p, settings, agent, actor, reason, failing, now)
  {
    hide Sessions.Sound, R.PlaneSound, Risk.Grown, Risk.Contiguous, EnforcementKnown, CaptureBaseline, Reinstate, Says;
    Risk.CaptureAtAllocator(p.findings, clock, agent, now);
    var mark := C.CapturedMark(p.findings, p.sessions, agent, now);
    ReinstateOutcomes(p.agents, agent, actor, reason, clock, now, mark);
    if !Reinstatable(p, agent, actor, reason) {
      assert Reinstate(p.agents, agent, actor, reason, now, Some(mark)).0 == p.agents;
      var s := C.Stores(p.agents, p.projections, p.authority.value);
      assert C.ReinstateAll(s, agent, actor, reason, mark, now, settings.vocabulary, failing).0 == s;
    }
  }

  lemma ReinstateOutcomes(a: Agents, who: string, actor: string, reason: string, clock: Time, now: Time, mark: Watermark)
    requires R.PlaneSound(a.enforcement, clock) && clock <= now && mark.baselineAt.Some?
    ensures var (b, r) := Reinstate(a, who, actor, reason, now, Some(mark));
            var was := E.StateOf(a.enforcement, who);
            && (r.Ok? <==> && who in a.administrative.agents
                           && Says(actor) && Says(reason) && was.suspendedAt.Some?)
            && (r.Err? ==> b == a)
            && (r.Ok? ==>
                  && b.administrative == a.administrative
                  && b.enforcement.states
                     == a.enforcement.states[who := E.EnforcementState(was.epoch + 1, None, mark, was.recoveryGeneration + 1, Some(now))])
  {
    R.CommitOutcome(a.enforcement, clock, who, E.StateOf(a.enforcement, who), E.REINSTATE, now, Some(mark));
    hide E.Commit, R.PlaneSound;
  }

  /** Every reinstatement of every run from the empty platform draws the line where the stores stand. */
  lemma EveryReinstatementDrawsTheLine(clock: Time, settings: Settings, authority: Option<G.Authority>, steps: seq<Step>,
                                       agent: string, elapsed: nat, actor: string, reason: string, failing: C.Faults)
    ensures var w := Run(World(clock, EmptyPlatform(authority)), settings, steps);
            w.platform.authority.Some? ==> DrawsTheLine(w.platform, settings, agent, actor, reason, failing, w.clock + elapsed)
  {
    hide *;
    RunOperable(clock, settings, authority, steps);
    var w := Run(World(clock, EmptyPlatform(authority)), settings, steps);
    if w.platform.authority.Some? {
      ReinstateDraws(w.platform, settings, agent, actor, reason, failing, w.clock, w.clock + elapsed);
    }
  }

  // ---- what stays behind the line ------------------------------------------------------------------------

  /** The agent's boundary stands at event n or later, and n events or more have been numbered. */
  ghost predicate Beyond(p: Platform, agent: string, n: nat) {
    n <= E.StateOf(p.agents.enforcement, agent).baseline.agentEvents && n <= Counter(p.sessions.agentSequences, agent)
  }

  lemma SuspendKeepsLifecycle(a: Agents, who: string, clock: Time, now: Time, agent: string)
    requires R.PlaneSound(a.enforcement, clock) && clock <= now
    ensures var was, later := E.StateOf(a.enforcement, agent), E.StateOf(Suspend(a, who, now).0.enforcement, agent);
            later.baseline == was.baseline && later.recoveryGeneration == was.recoveryGeneration
  {
    R.CommitOutcome(a.enforcement, clock, who, E.StateOf(a.enforcement, who), E.SUSPEND, now, None);
    hide E.Commit, R.PlaneSound;
  }

  lemma StepKeepsBeyond(w: World, settings: Settings, step: Step, agent: string, n: nat)
    requires Operable(w.platform, w.clock) && Beyond(w.platform, agent, n)
    ensures var u := Next(w, settings, step);
            Beyond(u.platform, agent, n) && Sessions.Evolves(w.platform.sessions, u.platform.sessions)
  {
    hide Execute, L.AuthorityStep, Sessions.Next, Move, A.RegisterAgent, ReinstateOn, Reset, Suspend, R.PlaneSound, Risk.Grown,
         Risk.Contiguous, EnforcementKnown, Sessions.Sound;
    var p, u := w.platform, Next(w, settings, step);
    Sessions.EvolvesReflexive(p.sessions);
    match step
    case ExecuteStep(q, elapsed) =>
      ExecuteSessions(p, settings, q, u.clock);
      ExecuteAgents(p, settings, q, u.clock);
      SuspendKeepsLifecycle(p.agents, q.agentId, w.clock, u.clock, agent);
    case ReinstateStep(who, elapsed, actor, reason, failing) =>
      if p.authority.Some? {
        ReinstateDraws(p, settings, who, actor, reason, failing, w.clock, u.clock);
        DrawnBeyond(p, settings, who, actor, reason, failing, u.clock, agent, n);
      }
    case SessionStep(change) => Sessions.StepSound(p.sessions, settings.policy, change);
    case AdministerStep(who, elapsed, next) => MovedStayKnown(p.agents, who, next, u.clock);
    case RepairStep(_, _) =>
    case RegisterStep(_, _) =>
    case AuthorityStep(_, _) =>
  }

  lemma DrawnBeyond(p: Platform, settings: Settings, who: string, actor: string, reason: string, failing: C.Faults, now: Time,
                    agent: string, n: nat)
    requires p.authority.Some? && DrawsTheLine(p, settings, who, actor, reason, failing, now) && Beyond(p, agent, n)
    ensures var t := ReinstateOn(p, settings, who, actor, reason, failing, now);
            Beyond(t, agent, n) && t.sessions == p.sessions
  {
    hide ReinstateOn, Reinstatable;
  }

  lemma {:induction false} RunKeepsBeyond(w: World, settings: Settings, steps: seq<Step>, agent: string, n: nat)
    requires Operable(w.platform, w.clock) && Beyond(w.platform, agent, n)
    ensures var u := Run(w, settings, steps);
            && Operable(u.platform, u.clock) && Beyond(u.platform, agent, n)
            && Sessions.Evolves(w.platform.sessions, u.platform.sessions)
  {
    hide Next, Beyond, Sessions.Evolves;
    if steps == [] {
      OperableSessions(w.platform, w.clock);
      Sessions.EvolvesReflexive(w.platform.sessions);
    } else {
      hide Operable;
      var v := Run(w, settings, steps[..|steps| - 1]);
      RunKeepsBeyond(w, settings, steps[..|steps| - 1], agent, n);
      StepOperable(v, settings, steps[|steps| - 1]);
      StepKeepsBeyond(v, settings, steps[|steps| - 1], agent, n);
      Sessions.EvolvesTransitive(w.platform.sessions, v.platform.sessions, Run(w, settings, steps).platform.sessions);
    }
  }

  lemma OperableSessions(p: Platform, clock: Time)
    requires Operable(p, clock)
    ensures Sessions.Sound(p.sessions)
  {
  }

  /** The event was recorded after `s`: it is none of the events stored there, and its number is
      beyond every number the agent had. */
  ghost predicate RecordedAfter(s: S.Store, f: S.Event) {
    f.agentSequence > Counter(s.agentSequences, f.agentId)
    && forall e :: e in s.events ==> !(e.agentId == f.agentId && e.agentSequence == f.agentSequence)
  }

  lemma QueryBeyond(s: S.Store, t: S.Store, q: S.HorizonQuery, f: S.Event)
    requires Sessions.Sound(s) && f in S.Eligible(t.events, q) && q.baseline >= Counter(s.agentSequences, q.agentId)
    ensures RecordedAfter(s, f) && f.agentId == q.agentId
  {
    hide S.Matching;
    Sessions.MatchingMembers(t.events, q);
    StableSortSorts(S.ScopeOrder(q.scope), S.Matching(t.events, q));
    hide S.Eligible, StableSort;
    assert f in multiset(S.Matching(t.events, q)) by {
      EligibleIsSorted(t.events, q, f);
    }
    assert S.Matches(f, q);
    forall e | e in s.events ensures !(e.agentId == f.agentId && e.agentSequence == f.agentSequence) {
      var i :| 0 <= i < |s.events| && s.events[i] == e;
      assert Sessions.EventFits(s, s.events[i]);
    }
  }

  lemma EligibleIsSorted(events: seq<S.Event>, q: S.HorizonQuery, f: S.Event)
    requires f in S.Eligible(events, q)
    ensures f in multiset(StableSort(S.ScopeOrder(q.scope), S.Matching(events, q)))
  {
  }

  /** No earlier event is handed to detection again. After a reinstatement in any run, however the run
      goes on, further reinstatements included, a query at the agent's stored boundary answers with
      events recorded after that reinstatement only. */
  lemma EarlierEventsStayOut(clock: Time, settings: Settings, authority: Option<G.Authority>, before: seq<Step>,
                             agent: string, elapsed: nat, actor: string, reason: string, failing: C.Faults,
                             steps: seq<Step>, q: S.HorizonQuery, f: S.Event)
    requires var w := Run(World(clock, EmptyPlatform(authority)), settings, before);
             && w.platform.authority.Some? && Reinstatable(w.platform, agent, actor, reason)
             && var u := Run(Next(w, settings, ReinstateStep(agent, elapsed, actor, reason, failing)), settings, steps);
                && q.agentId == agent && q.baseline == E.StateOf(u.platform.agents.enforcement, agent).baseline.agentEvents
                && f in S.Eligible(u.platform.sessions.events, q)
    ensures RecordedAfter(Run(World(clock, EmptyPlatform(authority)), settings, before).platform.sessions, f)
  {
    hide *;
    RunOperable(clock, settings, authority, before);
    var w := Run(World(clock, EmptyPlatform(authority)), settings, before);
    var step := ReinstateStep(agent, elapsed, actor, reason, failing);
    StepOperable(w, settings, step);
    ReinstateDraws(w.platform, settings, agent, actor, reason, failing, w.clock, w.clock + elapsed);
    var n := Counter(w.platform.sessions.agentSequences, agent);
    DrawnHere(w, settings, agent, elapsed, actor, reason, failing);
    RunKeepsBeyond(Next(w, settings, step), settings, steps, agent, n);
    var u := Run(Next(w, settings, step), settings, steps);
    BeyondMeans(u.platform, agent, n);
    OperableSessions(w.platform, w.clock);
    QueryBeyond(w.platform.sessions, u.platform.sessions, q, f);
  }

  lemma DrawnHere(w: World, settings: Settings, agent: string, elapsed: nat, actor: string, reason: string, failing: C.Faults)
    requires w.platform.authority.Some? && Reinstatable(w.platform, agent, actor, reason)
    requires DrawsTheLine(w.platform, settings, agent, actor, reason, failing, w.clock + elapsed)
    ensures Beyond(Next(w, settings, ReinstateStep(agent, elapsed, actor, reason, failing)).platform, agent,
                   Counter(w.platform.sessions.agentSequences, agent))
  {
    hide ReinstateOn, Reinstatable;
  }

  lemma BeyondMeans(p: Platform, agent: string, n: nat)
    requires Beyond(p, agent, n)
    ensures n <= E.StateOf(p.agents.enforcement, agent).baseline.agentEvents
  {
  }
}
