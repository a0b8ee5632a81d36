/** app/repositories/in_memory/enforcement_state_repository.py and the enforcement half of
    app/services/agent_service.py: the suspension ledger, versioned by `epoch`. */
module EnforcementPlane {
  import opened Prelude
  import opened RiskProjection

  datatype Action = SUSPEND | REINSTATE

  datatype Transition = Transition(agentId: string, action: Action, occurredAt: Time)

  datatype EnforcementState = EnforcementState(
    epoch: nat,
    suspendedAt: Option<Time>,
    baseline: Watermark,
    recoveryGeneration: nat,
    lastTransitionAt: Option<Time>)

  const CLEAN_STATE := EnforcementState(0, None, NO_BASELINE, 0, None)

  datatype Plane = Plane(
    states: map<string, EnforcementState>,
    transitions: seq<Transition>,
    epochs: map<string, nat>)

  const EMPTY_PLANE := Plane(map[], [], map[])

  datatype RepositoryError = NonMonotonicGeneration

  function StateOf(p: Plane, agent: string): EnforcementState {
    if agent in p.states then p.states[agent] else CLEAN_STATE
  }

  predicate Suspended(p: Plane, agent: string) {
    StateOf(p, agent).suspendedAt.Some?
  }

  /** `record_transition`: compare-and-set on the epoch, then the generation check. */
  function RecordTransition(p: Plane, t: Transition, newState: EnforcementState, expectedEpoch: nat)
    : (Plane, Result<bool, RepositoryError>)
  {
    var currentEpoch := if t.agentId in p.states then p.states[t.agentId].epoch else Counter(p.epochs, t.agentId);
    var currentGeneration := StateOf(p, t.agentId).recoveryGeneration;
    if currentEpoch != expectedEpoch || newState.epoch != expectedEpoch + 1 then (p, Ok(false))
    else if newState.recoveryGeneration != currentGeneration
            && newState.recoveryGeneration != currentGeneration + 1
    then (p, Err(NonMonotonicGeneration))
    else (Plane(p.states[t.agentId := newState], p.transitions + [t],
                p.epochs[t.agentId := expectedEpoch + 1]), Ok(true))
  }

  /** The state `_transition` computes from the state it read. */
  function Advance(s: EnforcementState, action: Action, now: Time, mark: Option<Watermark>): EnforcementState {
    match action
    case SUSPEND =>
      s.(epoch := s.epoch + 1, suspendedAt := Some(now), lastTransitionAt := Some(now))
    case REINSTATE =>
      var boundary :=
        if mark.None? then NO_BASELINE.(baselineAt := Some(now))
        else if mark.value.baselineAt.None? then mark.value.(baselineAt := Some(now))
        else mark.value;
      s.(epoch := s.epoch + 1, suspendedAt := None, baseline := boundary,
         recoveryGeneration := s.recoveryGeneration + 1, lastTransitionAt := Some(now))
  }

  /** The committing half of `_transition`, from a state read earlier. */
  function Commit(p: Plane, agent: string, read: EnforcementState, action: Action, now: Time,
                  mark: Option<Watermark>): (Plane, Result<bool, RepositoryError>)
  {
    RecordTransition(p, Transition(agent, action, now), Advance(read, action, now, mark), read.epoch)
  }

  function LedgerOf(ts: seq<Transition>, agent: string): seq<Transition> {
    if ts == [] then []
    else
      var rest := LedgerOf(ts[..|ts| - 1], agent);
      if ts[|ts| - 1].agentId == agent then rest + [ts[|ts| - 1]] else rest
  }

  /** `get_epoch`: reinstatements of the agent that happened by `asOf`. */
  function GetEpoch(ts: seq<Transition>, agent: string, asOf: Time): nat {
    if ts == [] then 0
    else
      var t := ts[|ts| - 1];
      GetEpoch(ts[..|ts| - 1], agent, asOf)
      + (if t.agentId == agent && t.action == REINSTATE && t.occurredAt <= asOf then 1 else 0)
  }

  function Reinstatements(ts: seq<Transition>): nat {
    if ts == [] then 0
    else Reinstatements(ts[..|ts| - 1]) + (if ts[|ts| - 1].action == REINSTATE then 1 else 0)
  }

  class InMemoryEnforcementStateRepository {
    var states: map<string, EnforcementState>
    var transitions: seq<Transition>
    var epochs: map<string, nat>

    ghost function View(): Plane
      reads this
    {
      Plane(states, transitions, epochs)
    }

    constructor ()
      ensures View() == EMPTY_PLANE
    {
      states, transitions, epochs := map[], [], map[];
    }

    method GetState(agent: string) returns (state: Option<EnforcementState>)
      ensures state == if agent in View().states then Some(View().states[agent]) else None
    {
      state := if agent in states then Some(states[agent]) else None;
    }

    method Record(t: Transition, newState: EnforcementState, expectedEpoch: nat)
      returns (r: Result<bool, RepositoryError>)
      modifies this
      ensures (View(), r) == RecordTransition(old(View()), t, newState, expectedEpoch)
    {
      var currentEpoch := if t.agentId in states then states[t.agentId].epoch else Counter(epochs, t.agentId);
      if currentEpoch != expectedEpoch || newState.epoch != expectedEpoch + 1 {
        return Ok(false);
      }
      var currentGeneration := if t.agentId in states then states[t.agentId].recoveryGeneration else 0;
      if newState.recoveryGeneration != currentGeneration
         && newState.recoveryGeneration != currentGeneration + 1 {
        return Err(NonMonotonicGeneration);
      }
      states := states[t.agentId := newState];
      transitions := transitions + [t];
      epochs := epochs[t.agentId := expectedEpoch + 1];
      r := Ok(true);
    }

    method CountReinstatements(agent: string, asOf: Time) returns (count: nat)
      ensures count == GetEpoch(View().transitions, agent, asOf)
    {
      count := 0;
      for i := 0 to |transitions|
        invariant count == GetEpoch(transitions[..i], agent, asOf)
      {
        assert transitions[..i + 1][..i] == transitions[..i];
        var t := transitions[i];
        if t.agentId == agent && t.action == REINSTATE && t.occurredAt <= asOf {
          count := count + 1;
        }
      }
      assert transitions[..|transitions|] == transitions;
    }
  }
}

/** Any number of writers of the enforcement ledger, each reading an agent's state at one
    moment and committing at another, with every other writer free to act in between. */
module EnforcementRaces {
  import opened Prelude
  import opened RiskProjection
  import opened EnforcementPlane

  datatype Pending = Pending(agentId: string, read: EnforcementState)

  datatype System = System(clock: Time, plane: Plane, pending: map<nat, Pending>)

  datatype Step =
    | Read(writer: nat, agent: string)
    | Write(writer: nat, action: Action, mark: Option<Watermark>, elapsed: nat)

  function Next(s: System, step: Step): System {
    match step
    case Read(writer, agent) =>
      s.(pending := s.pending[writer := Pending(agent, StateOf(s.plane, agent))])
    case Write(writer, action, mark, elapsed) =>
      if writer !in s.pending then s
      else
        var p := s.pending[writer];
        var now := s.clock + elapsed;
        System(now, Commit(s.plane, p.agentId, p.read, action, now, mark).0, s.pending - {writer})
  }

  function Run(s: System, steps: seq<Step>): System {
    if steps == [] then s else Next(Run(s, steps[..|steps| - 1]), steps[|steps| - 1])
  }

  ghost predicate CountsLedger(p: Plane, agent: string) {
    && StateOf(p, agent).epoch == |LedgerOf(p.transitions, agent)|
    && StateOf(p, agent).recoveryGeneration == Reinstatements(LedgerOf(p.transitions, agent))
  }

  ghost predicate PlaneSound(p: Plane, clock: Time) {
    && p.epochs.Keys == p.states.Keys
    && (forall a :: a in p.states ==> p.epochs[a] == p.states[a].epoch >= 1)
    && (forall a :: CountsLedger(p, a))
    && (forall i :: 0 <= i < |p.transitions| ==> p.transitions[i].occurredAt <= clock)
  }

  ghost predicate Sound(s: System) {
    && PlaneSound(s.plane, s.clock)
    && forall w :: w in s.pending ==>
         var now := StateOf(s.plane, s.pending[w].agentId);
         s.pending[w].read.epoch <= now.epoch && (s.pending[w].read.epoch == now.epoch ==> s.pending[w].read == now)
  }

  lemma LedgerAppend(ts: seq<Transition>, t: Transition, agent: string)
    ensures LedgerOf(ts + [t], agent) == LedgerOf(ts, agent) + (if t.agentId == agent then [t] else [])
    ensures t.agentId == agent ==>
              Reinstatements(LedgerOf(ts + [t], agent))
              == Reinstatements(LedgerOf(ts, agent)) + (if t.action == REINSTATE then 1 else 0)
  {
    assert (ts + [t])[..|ts|] == ts;
    var rest := LedgerOf(ts, agent);
    assert (rest + [t])[..|rest|] == rest;
    assert rest + [] == rest;
  }

  lemma CommitCounts(p: Plane, q: Plane, t: Transition, newState: EnforcementState, agent: string)
    requires CountsLedger(p, agent)
    requires q.states == p.states[t.agentId := newState] && q.transitions == p.transitions + [t]
    requires exists mark :: newState == Advance(StateOf(p, t.agentId), t.action, t.occurredAt, mark)
    ensures CountsLedger(q, agent)
  {
    LedgerAppend(p.transitions, t, agent);
  }

  /** A commit either loses without a trace, exactly when the agent's epoch has moved since
      the read, or appends its one transition. The generation check never refuses it. */
  lemma CommitOutcome(p: Plane, clock: Time, agent: string, read: EnforcementState, action: Action, now: Time,
                      mark: Option<Watermark>)
    requires PlaneSound(p, clock) && clock <= now
    requires read.epoch == StateOf(p, agent).epoch ==> read == StateOf(p, agent)
    ensures var (q, r) := Commit(p, agent, read, action, now, mark);
            && PlaneSound(q, now)
            && r == Ok(read.epoch == StateOf(p, agent).epoch)
            && (r == Ok(false) ==> q == p)
            && (r == Ok(true) ==> q.transitions == p.transitions + [Transition(agent, action, now)]
                                  && q.states == p.states[agent := Advance(StateOf(p, agent), action, now, mark)])
  {
    hide LedgerOf, Reinstatements, CountsLedger;
    var t := Transition(agent, action, now);
    var q := Commit(p, agent, read, action, now, mark).0;
    if read == StateOf(p, agent) {
      forall a ensures CountsLedger(q, a) {
        CommitCounts(p, q, t, Advance(read, action, now, mark), a);
      }
    }
  }

  /** The repository defends its generations against any writer: a write is admitted exactly when it
      is based on the present epoch, takes the next one, and keeps the generation or takes the next;
      one that would skip a generation is an error, any other is lost, and neither leaves a trace. */
  lemma RecordAdmits(p: Plane, clock: Time, t: Transition, newState: EnforcementState, expectedEpoch: nat)
    requires PlaneSound(p, clock)
    ensures var (q, r) := RecordTransition(p, t, newState, expectedEpoch);
            var now := StateOf(p, t.agentId);
            var based := expectedEpoch == now.epoch && newState.epoch == now.epoch + 1;
            var steady := newState.recoveryGeneration in {now.recoveryGeneration, now.recoveryGeneration + 1};
            && (r == Ok(true) <==> based && steady)
            && (r == Err(NonMonotonicGeneration) <==> based && !steady)
            && (r == Ok(true) ==>
                  && q.states == p.states[t.agentId := newState] && q.transitions == p.transitions + [t]
                  && q.epochs == p.epochs[t.agentId := newState.epoch])
            && (r != Ok(true) ==> q == p)
  {
    hide CountsLedger;
  }

  lemma StepKeepsSound(s: System, step: Step)
    requires Sound(s)
    ensures Sound(Next(s, step))
  {
    hide LedgerOf, Reinstatements, CountsLedger;
    if step.Write? && step.writer in s.pending {
      hide Commit, PlaneSound;
      var p := s.pending[step.writer];
      CommitOutcome(s.plane, s.clock, p.agentId, p.read, step.action, s.clock + step.elapsed, step.mark);
    }
  }

  lemma EmptyPlaneSound(clock: Time)
    ensures PlaneSound(EMPTY_PLANE, clock)
  {
  }

  /** Epoch compare-and-set under any interleaving: an agent's epoch is the length of its
      ledger and its recovery generation the number of reinstatements in it. */
  lemma {:induction false} EpochCountsLedger(clock: Time, steps: seq<Step>, agent: string)
    ensures var s := Run(System(clock, EMPTY_PLANE, map[]), steps);
            && Sound(s)
            && StateOf(s.plane, agent).epoch == |LedgerOf(s.plane.transitions, agent)|
            && StateOf(s.plane, agent).recoveryGeneration == Reinstatements(LedgerOf(s.plane.transitions, agent))
  {
    hide Next, LedgerOf, Reinstatements;
    var s0 := System(clock, EMPTY_PLANE, map[]);
    if steps == [] {
      EmptyPlaneSound(clock);
    } else {
      EpochCountsLedger(clock, steps[..|steps| - 1], agent);
      StepKeepsSound(Run(s0, steps[..|steps| - 1]), steps[|steps| - 1]);
    }
    assert CountsLedger(Run(s0, steps).plane, agent);
  }

  lemma StepExtendsLedger(s: System, step: Step, agent: string)
    requires Sound(s)
    ensures LedgerOf(s.plane.transitions, agent) <= LedgerOf(Next(s, step).plane.transitions, agent)
  {
    hide Reinstatements, CountsLedger;
    if step.Write? && step.writer in s.pending {
      var p := s.pending[step.writer];
      var t := Transition(p.agentId, step.action, s.clock + step.elapsed);
      CommitOutcome(s.plane, s.clock, p.agentId, p.read, step.action, s.clock + step.elapsed, step.mark);
      LedgerAppend(s.plane.transitions, t, agent);
      hide Commit, LedgerOf;
    }
  }

  /** An agent's ledger is append-only, so two of its states have the same epoch only if no
      transition came between them. */
  lemma {:induction false} SameEpochSameLedger(s: System, steps: seq<Step>, agent: string)
    requires Sound(s)
    ensures var u := Run(s, steps);
            && Sound(u)
            && LedgerOf(s.plane.transitions, agent) <= LedgerOf(u.plane.transitions, agent)
            && (StateOf(s.plane, agent).epoch == StateOf(u.plane, agent).epoch
                <==> LedgerOf(s.plane.transitions, agent) == LedgerOf(u.plane.transitions, agent))
  {
    hide Next, LedgerOf, Reinstatements, StateOf;
    var u := Run(s, steps);
    if steps != [] {
      SameEpochSameLedger(s, steps[..|steps| - 1], agent);
      StepKeepsSound(Run(s, steps[..|steps| - 1]), steps[|steps| - 1]);
      StepExtendsLedger(Run(s, steps[..|steps| - 1]), steps[|steps| - 1], agent);
    }
    assert CountsLedger(s.plane, agent) && CountsLedger(u.plane, agent);
  }

  /** The timestamped count of reinstatements, asked now or later, is the allocated generation. */
  lemma GenerationIsEpochQuery(s: System, agent: string, asOf: Time)
    requires Sound(s) && s.clock <= asOf
    ensures GetEpoch(s.plane.transitions, agent, asOf) == StateOf(s.plane, agent).recoveryGeneration
  {
    EpochQueryCountsAll(s.plane.transitions, agent, asOf);
    assert CountsLedger(s.plane, agent);
  }

  lemma {:induction false} EpochQueryCountsAll(ts: seq<Transition>, agent: string, asOf: Time)
    requires forall i :: 0 <= i < |ts| ==> ts[i].occurredAt <= asOf
    ensures GetEpoch(ts, agent, asOf) == Reinstatements(LedgerOf(ts, agent))
  {
    if ts != [] {
      var front, t := ts[..|ts| - 1], ts[|ts| - 1];
      EpochQueryCountsAll(front, agent, asOf);
      ReinstatementsAppend(front, t, agent);
      assert ts == front + [t];
      hide LedgerOf, Reinstatements;
    }
  }

  lemma ReinstatementsAppend(ts: seq<Transition>, t: Transition, agent: string)
    ensures Reinstatements(LedgerOf(ts + [t], agent))
            == Reinstatements(LedgerOf(ts, agent)) + (if t.agentId == agent && t.action == REINSTATE then 1 else 0)
  {
    hide Reinstatements;
    LedgerAppend(ts, t, agent);
    assert LedgerOf(ts, agent) + [] == LedgerOf(ts, agent);
  }

  // ---- alternation -----------------------------------------------------------------------------

  /** SUSPEND and REINSTATE take turns, SUSPEND first. */
  predicate Alternates(ledger: seq<Transition>) {
    forall i :: 0 <= i < |ledger| ==> ledger[i].action == if i % 2 == 0 then SUSPEND else REINSTATE
  }

  predicate EndsSuspended(ledger: seq<Transition>) {
    ledger != [] && ledger[|ledger| - 1].action == SUSPEND
  }

  /** The step commits a transition of the agent. */
  predicate Commits(s: System, step: Step, agent: string) {
    && step.Write? && step.writer in s.pending && s.pending[step.writer].agentId == agent
    && s.pending[step.writer].read.epoch == StateOf(s.plane, agent).epoch
  }

  /** The action fits the state its own writer read: a suspension of an agent read as clear, a
      reinstatement of one read as suspended. */
  predicate Fits(s: System, step: Step, agent: string) {
    Commits(s, step, agent) ==> (step.action == SUSPEND <==> s.pending[step.writer].read.suspendedAt.None?)
  }

  predicate AllFit(s: System, steps: seq<Step>, agent: string) {
    steps == [] || (AllFit(s, steps[..|steps| - 1], agent) && Fits(Run(s, steps[..|steps| - 1]), steps[|steps| - 1], agent))
  }

  lemma AlternatesAppend(ledger: seq<Transition>, t: Transition)
    ensures Alternates(ledger + [t]) <==> Alternates(ledger) && (t.action == SUSPEND <==> !EndsSuspended(ledger))
  {
    var longer := ledger + [t];
    assert forall i :: 0 <= i < |ledger| ==> longer[i] == ledger[i];
    assert longer[|ledger|] == t;
  }

  /** The stored state says suspended exactly while a SUSPEND is last in the ledger. */
  ghost predicate LastDecides(p: Plane, agent: string) {
    Suspended(p, agent) <==> EndsSuspended(LedgerOf(p.transitions, agent))
  }

  lemma AppendDecides(p: Plane, q: Plane, t: Transition, newState: EnforcementState, agent: string)
    requires LastDecides(p, agent)
    requires q.states == p.states[t.agentId := newState] && q.transitions == p.transitions + [t]
    requires newState.suspendedAt.Some? <==> t.action == SUSPEND
    ensures LastDecides(q, agent)
    ensures LedgerOf(q.transitions, agent) == LedgerOf(p.transitions, agent) + (if t.agentId == agent then [t] else [])
  {
    LedgerAppend(p.transitions, t, agent);
    hide LedgerOf;
    assert LedgerOf(p.transitions, agent) + [] == LedgerOf(p.transitions, agent);
  }

  /** What a step does to the plane: nothing, or one transition appended. */
  lemma StepPlane(s: System, step: Step)
    requires Sound(s)
    ensures var q := Next(s, step).plane;
            if step.Write? && step.writer in s.pending && Commits(s, step, s.pending[step.writer].agentId)
            then
              var who := s.pending[step.writer].agentId;
              var t := Transition(who, step.action, s.clock + step.elapsed);
              && s.pending[step.writer].read == StateOf(s.plane, who)
              && q.transitions == s.plane.transitions + [t]
              && q.states == s.plane.states[who := Advance(StateOf(s.plane, who), step.action, s.clock + step.elapsed, step.mark)]
            else q == s.plane
  {
    hide LedgerOf, CountsLedger;
    if step.Write? && step.writer in s.pending {
      var p := s.pending[step.writer];
      CommitOutcome(s.plane, s.clock, p.agentId, p.read, step.action, s.clock + step.elapsed, step.mark);
      hide Commit;
    }
  }

  /** What one step does to an agent's ledger. */
  lemma StepLedger(s: System, step: Step, agent: string)
    requires Sound(s) && LastDecides(s.plane, agent)
    ensures LastDecides(Next(s, step).plane, agent)
    ensures var ledger, longer := LedgerOf(s.plane.transitions, agent), LedgerOf(Next(s, step).plane.transitions, agent);
            if Commits(s, step, agent)
            then Alternates(longer) <==> Alternates(ledger) && Fits(s, step, agent)
            else longer == ledger
  {
    StepPlane(s, step);
    hide LedgerOf, Alternates, Next, Sound;
    if step.Write? && step.writer in s.pending && Commits(s, step, s.pending[step.writer].agentId) {
      var who := s.pending[step.writer].agentId;
      var t := Transition(who, step.action, s.clock + step.elapsed);
      var newState := Advance(StateOf(s.plane, who), step.action, s.clock + step.elapsed, step.mark);
      AppendDecides(s.plane, Next(s, step).plane, t, newState, agent);
      var ledger := LedgerOf(s.plane.transitions, agent);
      AlternatesAppend(ledger, t);
      assert ledger + [] == ledger;
    }
  }

  /** When racing writers alternate. Under any interleaving of reads and writes an agent's ledger
      alternates exactly when every committed write fitted the state its own writer had read. */
  lemma {:induction false} AlternatesIffWritesFit(clock: Time, steps: seq<Step>, agent: string)
    ensures var s := Run(System(clock, EMPTY_PLANE, map[]), steps);
            && Sound(s) && LastDecides(s.plane, agent)
            && (Alternates(LedgerOf(s.plane.transitions, agent))
                <==> AllFit(System(clock, EMPTY_PLANE, map[]), steps, agent))
  {
    hide Next, Fits, Commits, LastDecides, Sound;
    var s0 := System(clock, EMPTY_PLANE, map[]);
    if steps == [] {
      StartsUndecided(clock, agent);
    } else {
      var front, step := steps[..|steps| - 1], steps[|steps| - 1];
      AlternatesIffWritesFit(clock, front, agent);
      StepKeepsSound(Run(s0, front), step);
      StepLedger(Run(s0, front), step, agent);
      if !Commits(Run(s0, front), step, agent) {
        UncommittedFits(Run(s0, front), step, agent);
      }
    }
  }

  lemma StartsUndecided(clock: Time, agent: string)
    ensures Sound(System(clock, EMPTY_PLANE, map[])) && LastDecides(EMPTY_PLANE, agent)
  {
    EmptyPlaneSound(clock);
  }

  lemma UncommittedFits(s: System, step: Step, agent: string)
    requires !Commits(s, step, agent)
    ensures Fits(s, step, agent)
  {
  }

  /** Compare-and-set alone does not make writes fit: a writer that decided to suspend before
      another suspension committed, and reads after it, suspends a second time. */
  lemma RacingWritersNeedNotAlternate(clock: Time, agent: string)
    ensures var s := Run(System(clock, EMPTY_PLANE, map[]),
                         [Read(0, agent), Write(0, SUSPEND, None, 0), Read(1, agent), Write(1, SUSPEND, None, 0)]);
            && |s.plane.transitions| == 2
            && s.plane.transitions[0] == s.plane.transitions[1] == Transition(agent, SUSPEND, clock)
            && !Alternates(s.plane.transitions)
  {
    var s0 := System(clock, EMPTY_PLANE, map[]);
    var a, b, c, d := Read(0, agent), Write(0, SUSPEND, None, 0), Read(1, agent), Write(1, SUSPEND, None, 0);
    assert [a, b, c, d][..3] == [a, b, c] && [a, b, c][..2] == [a, b] && [a, b][..1] == [a] && [a][..0] == [];
    var s2 := Next(Next(s0, a), b);
    assert s2.plane.transitions == [Transition(agent, SUSPEND, clock)];
    assert Run(s0, [a]) == Next(s0, a);
    assert Run(s0, [a, b]) == s2;
    assert Run(s0, [a, b, c]) == Next(s2, c);
  }
}
