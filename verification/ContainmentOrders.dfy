/** Containment (app/services/runtime_service.py:737-752) and recovery
    (app/services/enforcement_coordinator.py:86-139) taken apart into the calls they make on the
    stores, each call of any agent free to come at any moment. Recovery holds the agent's
    coordination lock and containment does not, so the calls of the two may mix. */
module ContainmentOrders {
  import opened Prelude
  import opened RiskProjection
  import opened RiskAggregation
  import opened AgentLifecycle
  import opened GrantAuthority
  import opened EnforcementCoordination
  import A = AdministrativePlane
  import C = ContainmentRuns
  import E = EnforcementPlane
  import L = GrantLedger
  import R = EnforcementRaces

  datatype World = World(clock: Time, stores: Stores, vocabulary: set<string>)

  /** Containment is closing issuance and then `SuspendAgent`; recovery is `ClearSuspension`,
      `ResetPosture` and then reopening issuance. */
  datatype Step =
    | SuspendAgent(agent: string, elapsed: nat)
    | ClearSuspension(agent: string, elapsed: nat, actor: string, reason: string, mark: Watermark)
    | ResetPosture(agent: string, mark: Watermark)
    | Register(record: A.AgentRecord, elapsed: nat)
    | Administer(agent: string, elapsed: nat, next: A.Lifecycle)
    | UseAuthority(elapsed: nat, use: L.Step)

  function Next(w: World, step: Step): World {
    var s := w.stores;
    match step
    case SuspendAgent(agent, elapsed) =>
      w.(clock := w.clock + elapsed, stores := s.(agents := Suspend(s.agents, agent, w.clock + elapsed).0))
    case ClearSuspension(agent, elapsed, actor, reason, mark) =>
      w.(clock := w.clock + elapsed,
         stores := s.(agents := Reinstate(s.agents, agent, actor, reason, w.clock + elapsed, Some(mark)).0))
    case ResetPosture(agent, mark) =>
      w.(stores := s.(projections := s.projections[agent := Reset(agent, w.vocabulary, mark)]))
    case Register(record, elapsed) =>
      w.(clock := w.clock + elapsed,
         stores := s.(agents := s.agents.(administrative :=
                       A.RegisterAgent(s.agents.administrative, record, w.clock + elapsed).0)))
    case Administer(agent, elapsed, next) =>
      w.(clock := w.clock + elapsed, stores := s.(agents := Move(s.agents, agent, next, w.clock + elapsed).0))
    case UseAuthority(elapsed, use) =>
      w.(clock := w.clock + elapsed, stores := s.(authority := L.AuthorityStep(s.authority, use, w.clock + elapsed).0))
  }

  function Run(w: World, steps: seq<Step>): World {
    if steps == [] then w else Next(Run(w, steps[..|steps| - 1]), steps[|steps| - 1])
  }

  function Start(authorityId: string, ttl: Time, clock: Time, vocabulary: set<string>): World {
    World(clock, C.Start(authorityId, ttl, clock, vocabulary).stores, vocabulary)
  }

  // ---- the calls that matter to one agent -------------------------------------------------------------

  predicate IsClose(step: Step, agent: string) {
    step.UseAuthority? && step.use == L.Close(agent, ENFORCEMENT)
  }

  predicate IsReopen(step: Step, agent: string) {
    step.UseAuthority? && step.use == L.Open(agent, ENFORCEMENT)
  }

  predicate IsSuspend(step: Step, agent: string) {
    step.SuspendAgent? && step.agent == agent
  }

  predicate IsClear(step: Step, agent: string) {
    step.ClearSuspension? && step.agent == agent
  }

  /** Recovery of the agent names its actor and reason, and nobody disables the agent. */
  predicate Leaves(step: Step, agent: string) {
    && (IsClear(step, agent) ==> !Blank(step.actor) && !Blank(step.reason))
    && (step.Administer? && step.agent == agent ==> step.next != A.DISABLED)
  }

  ghost predicate AllLeave(steps: seq<Step>, agent: string) {
    forall i :: 0 <= i < |steps| ==> Leaves(steps[i], agent)
  }

  /** Whether the last of the agent's suspensions and clearances is a suspension. */
  function EndsSuspended(steps: seq<Step>, agent: string, before: bool): bool {
    if steps == [] then before
    else if IsSuspend(steps[|steps| - 1], agent) then true
    else if IsClear(steps[|steps| - 1], agent) then false
    else EndsSuspended(steps[..|steps| - 1], agent, before)
  }

  /** Whether the last of the agent's closings and reopenings is a reopening. */
  function EndsOpen(steps: seq<Step>, agent: string, before: bool): bool {
    if steps == [] then before
    else if IsReopen(steps[|steps| - 1], agent) then true
    else if IsClose(steps[|steps| - 1], agent) then false
    else EndsOpen(steps[..|steps| - 1], agent, before)
  }

  // ---- one step -------------------------------------------------------------------------------------------

  ghost predicate Ready(w: World, agent: string) {
    && R.PlaneSound(w.stores.agents.enforcement, w.clock)
    && Known(w.stores.agents, agent) && !Disabled(w.stores.agents, agent)
  }

  lemma PlaneSoundLater(p: E.Plane, clock: Time, now: Time)
    requires R.PlaneSound(p, clock) && clock <= now
    ensures R.PlaneSound(p, now)
  {
  }

  lemma StepKeepsPlaneSound(w: World, step: Step)
    requires R.PlaneSound(w.stores.agents.enforcement, w.clock)
    ensures R.PlaneSound(Next(w, step).stores.agents.enforcement, Next(w, step).clock)
  {
    hide R.PlaneSound, E.Commit, A.Commit, A.RegisterAgent, L.AuthorityStep, Reset;
    var p := w.stores.agents.enforcement;
    PlaneSoundLater(p, w.clock, Next(w, step).clock);
    match step
    case SuspendAgent(agent, elapsed) =>
      R.CommitOutcome(p, w.clock, agent, E.StateOf(p, agent), E.SUSPEND, w.clock + elapsed, None);
    case ClearSuspension(agent, elapsed, _, _, mark) =>
      R.CommitOutcome(p, w.clock, agent, E.StateOf(p, agent), E.REINSTATE, w.clock + elapsed, Some(mark));
    case ResetPosture(_, _) =>
    case Register(_, _) =>
    case Administer(_, _, _) =>
    case UseAuthority(_, _) =>
  }

  lemma {:induction false} RunPlaneSound(authorityId: string, ttl: Time, clock: Time, vocabulary: set<string>, steps: seq<Step>)
    ensures var w := Run(Start(authorityId, ttl, clock, vocabulary), steps);
            R.PlaneSound(w.stores.agents.enforcement, w.clock)
  {
    hide Next, R.PlaneSound;
    if steps == [] {
      R.EmptyPlaneSound(clock);
    } else {
      RunPlaneSound(authorityId, ttl, clock, vocabulary, steps[..|steps| - 1]);
      StepKeepsPlaneSound(Run(Start(authorityId, ttl, clock, vocabulary), steps[..|steps| - 1]), steps[|steps| - 1]);
    }
  }

  /** Registering and moving agents keeps a known agent known, and not disabled unless told to. */
  lemma AdministrationKeepsReady(a: Agents, step: Step, now: Time, agent: string)
    requires Known(a, agent) && !Disabled(a, agent) && Leaves(step, agent)
    ensures step.Register? ==>
              var b := a.(administrative := A.RegisterAgent(a.administrative, step.record, now).0);
              Known(b, agent) && !Disabled(b, agent)
    ensures step.Administer? ==>
              var b := Move(a, step.agent, step.next, now).0;
              Known(b, agent) && !Disabled(b, agent) && b.enforcement == a.enforcement
  {
  }

  lemma StepKeepsReady(w: World, step: Step, agent: string)
    requires Ready(w, agent) && Leaves(step, agent)
    ensures Ready(Next(w, step), agent)
  {
    hide R.PlaneSound, E.Commit, A.RegisterAgent, L.AuthorityStep, Reset, Disabled, A.Commit;
    StepKeepsPlaneSound(w, step);
    AdministrationKeepsReady(w.stores.agents, step, Next(w, step).clock, agent);
    assert Disabled(w.stores.agents, agent) == Disabled(w.stores.agents.(enforcement := E.EMPTY_PLANE), agent) by {
      SameAdministration(w.stores.agents, w.stores.agents.(enforcement := E.EMPTY_PLANE), agent);
    }
    SameAdministration(w.stores.agents, Next(w, step).stores.agents, agent);
  }

  lemma SameAdministration(a: Agents, b: Agents, agent: string)
    ensures a.administrative == b.administrative ==> Disabled(a, agent) == Disabled(b, agent)
  {
  }

  /** Each call decides its own half of containment and leaves the other alone. */
  lemma StepDecides(w: World, step: Step, agent: string)
    requires Ready(w, agent) && Leaves(step, agent)
    ensures E.Suspended(Next(w, step).stores.agents.enforcement, agent)
            <==> IsSuspend(step, agent) || (E.Suspended(w.stores.agents.enforcement, agent) && !IsClear(step, agent))
    ensures EnforcementOpen(Next(w, step).stores.authority, agent)
            <==> IsReopen(step, agent) || (EnforcementOpen(w.stores.authority, agent) && !IsClose(step, agent))
  {
    hide R.PlaneSound, E.Commit, A.RegisterAgent, L.AuthorityStep, Reset, Disabled, A.Commit;
    var p := w.stores.agents.enforcement;
    match step
    case SuspendAgent(who, elapsed) =>
      R.CommitOutcome(p, w.clock, who, E.StateOf(p, who), E.SUSPEND, w.clock + elapsed, None);
    case ClearSuspension(who, elapsed, actor, reason, mark) =>
      R.CommitOutcome(p, w.clock, who, E.StateOf(p, who), E.REINSTATE, w.clock + elapsed, Some(mark));
    case UseAuthority(elapsed, use) =>
      C.UseClosed(w.stores.authority, use, w.clock + elapsed, agent);
    case Administer(who, elapsed, next) =>
      C.MoveKeepsEnforcement(w.stores.agents, who, next, w.clock + elapsed);
    case ResetPosture(_, _) =>
    case Register(_, _) =>
  }

  // ---- any number of containments and recoveries ---------------------------------------------------------

  /** However many containments and recoveries of however many agents are mixed, the last call
      on each half decides that half: an agent is suspended by its last suspension or clearance,
      and its plane is open by its last closing or reopening. */
  lemma {:induction false} LastCallsDecide(w: World, steps: seq<Step>, agent: string)
    requires Ready(w, agent) && AllLeave(steps, agent)
    ensures var u := Run(w, steps);
            && Ready(u, agent)
            && (E.Suspended(u.stores.agents.enforcement, agent)
                <==> EndsSuspended(steps, agent, E.Suspended(w.stores.agents.enforcement, agent)))
            && (EnforcementOpen(u.stores.authority, agent)
                <==> EndsOpen(steps, agent, EnforcementOpen(w.stores.authority, agent)))
  {
    hide Next, Ready, Leaves, E.Suspended, EnforcementOpen;
    if steps != [] {
      LastCallsDecide(w, steps[..|steps| - 1], agent);
      StepKeepsReady(Run(w, steps[..|steps| - 1]), steps[|steps| - 1], agent);
      StepDecides(Run(w, steps[..|steps| - 1]), steps[|steps| - 1], agent);
    }
  }

  // ---- one containment and one recovery ------------------------------------------------------------------

  predicate Touches(step: Step, agent: string) {
    IsClose(step, agent) || IsSuspend(step, agent) || IsClear(step, agent) || IsReopen(step, agent)
  }

  /** One containment of the agent, closing at c and suspending at s, and one recovery of it,
      clearing at l and reopening at o. The other steps are anything else of any agent. */
  ghost predicate IsRace(steps: seq<Step>, agent: string, c: nat, s: nat, l: nat, o: nat) {
    && c < s < |steps| && l < o < |steps|
    && IsClose(steps[c], agent) && IsSuspend(steps[s], agent)
    && IsClear(steps[l], agent) && IsReopen(steps[o], agent)
    && forall i :: 0 <= i < |steps| && Touches(steps[i], agent) ==> i == c || i == s || i == l || i == o
  }

  lemma {:induction false} EndsSuspendedAt(steps: seq<Step>, agent: string, before: bool, k: nat)
    requires k < |steps| && (IsSuspend(steps[k], agent) || IsClear(steps[k], agent))
    requires forall i :: k < i < |steps| ==> !IsSuspend(steps[i], agent) && !IsClear(steps[i], agent)
    ensures EndsSuspended(steps, agent, before) <==> IsSuspend(steps[k], agent)
  {
    if k < |steps| - 1 {
      EndsSuspendedAt(steps[..|steps| - 1], agent, before, k);
    }
  }

  lemma {:induction false} EndsOpenAt(steps: seq<Step>, agent: string, before: bool, k: nat)
    requires k < |steps| && (IsReopen(steps[k], agent) || IsClose(steps[k], agent))
    requires forall i :: k < i < |steps| ==> !IsReopen(steps[i], agent) && !IsClose(steps[i], agent)
    ensures EndsOpen(steps, agent, before) <==> IsReopen(steps[k], agent)
  {
    if k < |steps| - 1 {
      EndsOpenAt(steps[..|steps| - 1], agent, before, k);
    }
  }

  lemma {:induction false} SuspendedUntilCleared(steps: seq<Step>, agent: string)
    requires forall i :: 0 <= i < |steps| ==> !IsClear(steps[i], agent)
    ensures EndsSuspended(steps, agent, true)
  {
    if steps != [] {
      SuspendedUntilCleared(steps[..|steps| - 1], agent);
    }
  }

  /** The exact orders that break "a suspended agent has its plane closed". In any reachable
      state a suspended agent is contained once more and recovered once, all calls in any of the
      six orders, other steps in between. The clearance succeeds in each of them. The agent ends
      suspended exactly when it is cleared before it is suspended, open exactly when it is closed
      before it is reopened, and suspended with its plane open exactly when neither operation is
      over before the other begins. */
  lemma OverlapBreaksContainmentIff(authorityId: string, ttl: Time, clock: Time, vocabulary: set<string>, before: seq<Step>,
                                    steps: seq<Step>, agent: string, c: nat, s: nat, l: nat, o: nat)
    requires IsRace(steps, agent, c, s, l, o) && AllLeave(steps, agent)
    requires var w := Run(Start(authorityId, ttl, clock, vocabulary), before);
             && Known(w.stores.agents, agent) && !Disabled(w.stores.agents, agent)
             && E.Suspended(w.stores.agents.enforcement, agent)
    ensures var w := Run(Start(authorityId, ttl, clock, vocabulary), before);
            var v, u := Run(w, steps[..l]), Run(w, steps);
            var suspended, open := E.Suspended(u.stores.agents.enforcement, agent), EnforcementOpen(u.stores.authority, agent);
            && Reinstate(v.stores.agents, agent, steps[l].actor, steps[l].reason, v.clock + steps[l].elapsed,
                         Some(steps[l].mark)).1.Ok?
            && (suspended <==> l < s)
            && (open <==> c < o)
            && (suspended && open <==> !(s < l) && !(o < c))
  {
    hide Run, R.PlaneSound, Known, Disabled, E.Suspended, EnforcementOpen, Blank, E.Commit;
    RunPlaneSound(authorityId, ttl, clock, vocabulary, before);
    var w := Run(Start(authorityId, ttl, clock, vocabulary), before);
    LastCallsDecide(w, steps, agent);
    EndsSuspendedAt(steps, agent, true, if l < s then s else l);
    EndsOpenAt(steps, agent, EnforcementOpen(w.stores.authority, agent), if c < o then o else c);
    LastCallsDecide(w, steps[..l], agent);
    SuspendedUntilCleared(steps[..l], agent);
    ClearSucceeds(Run(w, steps[..l]), steps[l], agent);
  }

  lemma ClearSucceeds(w: World, step: Step, agent: string)
    requires Ready(w, agent) && Leaves(step, agent) && IsClear(step, agent)
    requires E.Suspended(w.stores.agents.enforcement, agent)
    ensures Reinstate(w.stores.agents, agent, step.actor, step.reason, w.clock + step.elapsed, Some(step.mark)).1.Ok?
  {
    hide R.PlaneSound, E.Commit, Blank;
    var p := w.stores.agents.enforcement;
    R.CommitOutcome(p, w.clock, agent, E.StateOf(p, agent), E.REINSTATE, w.clock + step.elapsed, Some(step.mark));
  }

  // ---- the condition can be met ----------------------------------------------------------------------------

  /** A registered agent, suspended. */
  function Prepared(record: A.AgentRecord): seq<Step> {
    [Register(record, 0), SuspendAgent(record.agentId, 0)]
  }

  /** The recovery clears, the containment runs to its end, the recovery reopens. */
  function Overlap(agent: string, actor: string, reason: string, mark: Watermark): seq<Step> {
    [ClearSuspension(agent, 0, actor, reason, mark), UseAuthority(0, L.Close(agent, ENFORCEMENT)),
     SuspendAgent(agent, 0), UseAuthority(0, L.Open(agent, ENFORCEMENT))]
  }

  lemma PreparedIsSuspended(authorityId: string, ttl: Time, clock: Time, vocabulary: set<string>, record: A.AgentRecord)
    ensures var w := Run(Start(authorityId, ttl, clock, vocabulary), Prepared(record));
            && Known(w.stores.agents, record.agentId) && !Disabled(w.stores.agents, record.agentId)
            && E.Suspended(w.stores.agents.enforcement, record.agentId)
  {
    hide R.PlaneSound;
    var w0, steps, agent := Start(authorityId, ttl, clock, vocabulary), Prepared(record), record.agentId;
    RunPlaneSound(authorityId, ttl, clock, vocabulary, [steps[0]]);
    assert [steps[0]][..0] == [] && steps[..1] == [steps[0]];
    var w := Run(w0, [steps[0]]);
    assert w == Next(w0, steps[0]);
    StepKeepsReady(w, steps[1], agent);
    StepDecides(w, steps[1], agent);
    assert Run(w0, steps) == Next(w, steps[1]);
  }

  /** From the empty platform: an agent ends suspended with its plane open. */
  lemma OverlapIsReachable(authorityId: string, ttl: Time, clock: Time, vocabulary: set<string>, record: A.AgentRecord,
                           actor: string, reason: string, mark: Watermark)
    requires !Blank(actor) && !Blank(reason)
    ensures var u := Run(Run(Start(authorityId, ttl, clock, vocabulary), Prepared(record)),
                         Overlap(record.agentId, actor, reason, mark));
            E.Suspended(u.stores.agents.enforcement, record.agentId) && EnforcementOpen(u.stores.authority, record.agentId)
  {
    hide Run, Known, Disabled, E.Suspended, EnforcementOpen, Blank, Start, Prepared;
    PreparedIsSuspended(authorityId, ttl, clock, vocabulary, record);
    OverlapBreaksContainmentIff(authorityId, ttl, clock, vocabulary, Prepared(record),
                                Overlap(record.agentId, actor, reason, mark), record.agentId, 1, 2, 0, 3);
  }
}
