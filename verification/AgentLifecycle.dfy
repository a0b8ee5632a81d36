/** app/policy/lifecycle_authorization.py: whether two independently kept planes permit an
    agent to execute, and the status that is displayed for it. */
module LifecycleAuthorization {
  import opened Prelude
  import opened AdministrativePlane
  import E = EnforcementPlane

  datatype RefusalCode =
    | ADMINISTRATIVE_STATE_UNAVAILABLE
    | ENFORCEMENT_STATE_UNAVAILABLE
    | AGENT_DISABLED
    | AGENT_NOT_ACTIVE
    | AGENT_SUSPENDED

  const REFUSAL_PRECEDENCE: seq<RefusalCode> :=
    [ADMINISTRATIVE_STATE_UNAVAILABLE, ENFORCEMENT_STATE_UNAVAILABLE, AGENT_DISABLED, AGENT_NOT_ACTIVE,
     AGENT_SUSPENDED]

  /** What a plane's reader got: no answer, no record, or a record. */
  datatype Reading<+T> = Unavailable | Missing | Present(state: T)

  function FailingConditions(administrative: Reading<AdministrativeState>, enforcement: Reading<E.EnforcementState>)
    : set<RefusalCode>
  {
    (match administrative
     case Unavailable => {ADMINISTRATIVE_STATE_UNAVAILABLE}
     case Missing => {ADMINISTRATIVE_STATE_UNAVAILABLE}
     case Present(s) =>
       match s.state case REGISTERED => {AGENT_NOT_ACTIVE} case DISABLED => {AGENT_DISABLED} case ACTIVE => {})
    + (match enforcement
       case Unavailable => {ENFORCEMENT_STATE_UNAVAILABLE}
       case Missing => {}
       case Present(s) => if s.suspendedAt.Some? then {AGENT_SUSPENDED} else {})
  }

  /** The precedence scan. */
  function FirstIn(order: seq<RefusalCode>, failing: set<RefusalCode>): RefusalCode {
    if order == [] then AGENT_NOT_ACTIVE
    else if order[0] in failing then order[0]
    else FirstIn(order[1..], failing)
  }

  function Evaluate(administrative: Reading<AdministrativeState>, enforcement: Reading<E.EnforcementState>)
    : Option<RefusalCode>
  {
    var failing := FailingConditions(administrative, enforcement);
    if failing == {} then None else Some(FirstIn(REFUSAL_PRECEDENCE, failing))
  }

  function Significance(c: RefusalCode): nat {
    match c
    case ADMINISTRATIVE_STATE_UNAVAILABLE => 0
    case ENFORCEMENT_STATE_UNAVAILABLE => 1
    case AGENT_DISABLED => 2
    case AGENT_NOT_ACTIVE => 3
    case AGENT_SUSPENDED => 4
  }

  /** Execution needs both conditions present: no code at all exactly when the agent is known
      to be ACTIVE and known not to be suspended. Otherwise the code named is failing and no
      failing code is more significant. */
  lemma RefusalIsMostSignificant(administrative: Reading<AdministrativeState>,
                                 enforcement: Reading<E.EnforcementState>, other: RefusalCode)
    ensures Evaluate(administrative, enforcement).None?
            <==> && administrative.Present? && administrative.state.state == ACTIVE
                 && !enforcement.Unavailable?
                 && (enforcement.Present? ==> enforcement.state.suspendedAt.None?)
    ensures var code := Evaluate(administrative, enforcement);
            code.Some? ==>
              && code.value in FailingConditions(administrative, enforcement)
              && (other in FailingConditions(administrative, enforcement)
                  ==> Significance(code.value) <= Significance(other))
  {
    var failing := FailingConditions(administrative, enforcement);
    if failing != {} {
      var c :| c in failing;
      PrecedenceIsSignificance(c);
      PrecedenceIsSignificance(other);
      var k := ScanFindsFirst(REFUSAL_PRECEDENCE, failing, Significance(c));
      PrecedenceIsSignificance(REFUSAL_PRECEDENCE[k]);
    }
  }

  lemma PrecedenceIsSignificance(c: RefusalCode)
    ensures Significance(c) < |REFUSAL_PRECEDENCE| && REFUSAL_PRECEDENCE[Significance(c)] == c
    ensures forall k :: 0 <= k < |REFUSAL_PRECEDENCE| ==> Significance(REFUSAL_PRECEDENCE[k]) == k
  {
  }

  lemma {:induction false} ScanFindsFirst(order: seq<RefusalCode>, failing: set<RefusalCode>, known: nat) returns (k: nat)
    requires known < |order| && order[known] in failing
    ensures k <= known && order[k] == FirstIn(order, failing) && order[k] in failing
    ensures forall j :: 0 <= j < k ==> order[j] !in failing
  {
    if order[0] in failing {
      k := 0;
    } else {
      var j := ScanFindsFirst(order[1..], failing, known - 1);
      k := j + 1;
    }
  }

  datatype AgentStatus = StatusRegistered | StatusActive | StatusDisabled | StatusSuspended

  /** `AgentService._project_status` */
  function ProjectStatus(administrative: Option<AdministrativeState>, enforcement: E.EnforcementState): AgentStatus {
    if administrative.None? then StatusRegistered
    else if administrative.value.state == DISABLED then StatusDisabled
    else if enforcement.suspendedAt.Some? then StatusSuspended
    else if administrative.value.state == ACTIVE then StatusActive
    else StatusRegistered
  }

  function CodeShown(status: AgentStatus): Option<RefusalCode> {
    match status
    case StatusActive => None
    case StatusRegistered => Some(AGENT_NOT_ACTIVE)
    case StatusDisabled => Some(AGENT_DISABLED)
    case StatusSuspended => Some(AGENT_SUSPENDED)
  }

  /** What a plane whose repository answers reads. */
  function ReadingOf<T>(stored: Option<T>): Reading<T> {
    if stored.Some? then Present(stored.value) else Missing
  }

  /** The displayed status is ACTIVE exactly when nothing refuses, and it names the refusing
      condition exactly unless the administrative record is missing or the agent is both merely
      REGISTERED and suspended. */
  lemma StatusAgainstDecision(administrative: Option<AdministrativeState>, enforcement: Option<E.EnforcementState>)
    ensures var decision := Evaluate(ReadingOf(administrative), ReadingOf(enforcement));
            var contained := if enforcement.Some? then enforcement.value else E.CLEAN_STATE;
            var status := ProjectStatus(administrative, contained);
            && (status == StatusActive <==> decision.None?)
            && (CodeShown(status) == decision
                <==> administrative.Some? && !(administrative.value.state == REGISTERED && contained.suspendedAt.Some?))
  {
    var a, e := ReadingOf(administrative), ReadingOf(enforcement);
    RefusalIsMostSignificant(a, e, AGENT_SUSPENDED);
    RefusalIsMostSignificant(a, e, AGENT_NOT_ACTIVE);
    RefusalIsMostSignificant(a, e, AGENT_DISABLED);
    RefusalIsMostSignificant(a, e, ADMINISTRATIVE_STATE_UNAVAILABLE);
  }

  /** A registered agent that is contained is shown as SUSPENDED and refused as NOT_ACTIVE. */
  lemma StatusCanDisagree(at: Time)
    ensures var administrative := AdministrativeState(REGISTERED, 1, at);
            var enforcement := E.CLEAN_STATE.(suspendedAt := Some(at));
            && ProjectStatus(Some(administrative), enforcement) == StatusSuspended
            && Evaluate(Present(administrative), Present(enforcement)) == Some(AGENT_NOT_ACTIVE)
  {
    StatusAgainstDecision(Some(AdministrativeState(REGISTERED, 1, at)), Some(E.CLEAN_STATE.(suspendedAt := Some(at))));
    RefusalIsMostSignificant(Present(AdministrativeState(REGISTERED, 1, at)),
                             Present(E.CLEAN_STATE.(suspendedAt := Some(at))), AGENT_NOT_ACTIVE);
  }
}

/** app/services/agent_service.py: both planes behind one service lock. */
module AgentLifecycle {
  import opened Prelude
  import opened RiskProjection
  import opened LifecycleAuthorization
  import A = AdministrativePlane
  import E = EnforcementPlane

  datatype Agents = Agents(administrative: A.Register, enforcement: E.Plane)

  datatype ServiceError =
    | AgentNotFound
    | AgentNotSuspended
    | MissingActor
    | MissingReason
    | EnforcementConcurrency
    | GenerationRefused
    | Administrative(cause: A.AdministrativeError)

  predicate Blank(s: string) {
    forall i :: 0 <= i < |s| ==> s[i] in {' ', '\t', '\n', '\r'}
  }

  predicate Known(a: Agents, agent: string) {
    agent in a.administrative.agents
  }

  predicate Disabled(a: Agents, agent: string) {
    A.LifecycleOf(A.StateOf(a.administrative, agent)) == Some(A.DISABLED)
  }

  /** Which plane's repository fails to answer a read. */
  datatype Outage = Outage(administrative: bool, enforcement: bool)

  const NO_OUTAGE := Outage(false, false)

  /** `_read_planes` and `lifecycle_refusal`: a repository that fails reads as unavailable. */
  function RefusalUnder(a: Agents, agent: string, outage: Outage): Option<RefusalCode> {
    Evaluate(
      if outage.administrative then Unavailable
      else if agent in a.administrative.states then Present(a.administrative.states[agent]) else Missing,
      if outage.enforcement then Unavailable
      else if agent in a.enforcement.states then Present(a.enforcement.states[agent]) else Missing)
  }

  /** The refusal when both repositories answer. */
  function LifecycleRefusal(a: Agents, agent: string): Option<RefusalCode> {
    RefusalUnder(a, agent, NO_OUTAGE)
  }

  function TransitionError(r: Result<bool, E.RepositoryError>): Result<(), ServiceError> {
    if r.Err? then Err(GenerationRefused) else if r.value then Ok(()) else Err(EnforcementConcurrency)
  }

  /** `suspend_agent` */
  function Suspend(a: Agents, agent: string, now: Time): (Agents, Result<(), ServiceError>) {
    if !Known(a, agent) then (a, Err(AgentNotFound))
    else if E.Suspended(a.enforcement, agent) || Disabled(a, agent) then (a, Ok(()))
    else
      var (p, r) := E.Commit(a.enforcement, agent, E.StateOf(a.enforcement, agent), E.SUSPEND, now, None);
      (a.(enforcement := p), TransitionError(r))
  }

  /** `reinstate_agent` */
  function Reinstate(a: Agents, agent: string, actor: string, reason: string, now: Time, mark: Option<Watermark>)
    : (Agents, Result<(), ServiceError>)
  {
    if !Known(a, agent) then (a, Err(AgentNotFound))
    else if Blank(actor) then (a, Err(MissingActor))
    else if Blank(reason) then (a, Err(MissingReason))
    else if !E.Suspended(a.enforcement, agent) then (a, Err(AgentNotSuspended))
    else
      var (p, r) := E.Commit(a.enforcement, agent, E.StateOf(a.enforcement, agent), E.REINSTATE, now, mark);
      (a.(enforcement := p), TransitionError(r))
  }

  /** `activate_agent` and `disable_agent` */
  function Move(a: Agents, agent: string, next: A.Lifecycle, now: Time): (Agents, Result<(), ServiceError>) {
    if !Known(a, agent) then (a, Err(AgentNotFound))
    else
      var (p, r) := A.Commit(a.administrative, agent, A.StateOf(a.administrative, agent), next, now);
      (a.(administrative := p), ServiceOutcome(r))
  }

  function ServiceOutcome(r: Result<(), A.AdministrativeError>): Result<(), ServiceError> {
    if r.Ok? then Ok(()) else Err(Administrative(r.error))
  }

  class AgentService {
    const agentRepository: A.InMemoryAgentRepository
    const enforcementRepository: E.InMemoryEnforcementStateRepository
    const administrativeRepository: A.InMemoryAdministrativeStateRepository

    ghost predicate Valid() {
      administrativeRepository.agentRepository == agentRepository
    }

    ghost function View(): Agents
      reads agentRepository, enforcementRepository, administrativeRepository
      requires Valid()
    {
      Agents(administrativeRepository.View(), enforcementRepository.View())
    }

    constructor (agents: A.InMemoryAgentRepository, enforcement: E.InMemoryEnforcementStateRepository,
                 administrative: A.InMemoryAdministrativeStateRepository)
      requires administrative.agentRepository == agents
      ensures Valid()
      ensures View() == Agents(administrative.View(), enforcement.View())
      ensures agentRepository == agents && enforcementRepository == enforcement
              && administrativeRepository == administrative
    {
      agentRepository, enforcementRepository, administrativeRepository := agents, enforcement, administrative;
    }

    method RegisterAgent(agent: A.AgentRecord, now: Time) returns (r: Result<(), A.AdministrativeError>)
      requires Valid()
      modifies agentRepository, administrativeRepository
      ensures Valid()
      ensures (View().administrative, r) == A.RegisterAgent(old(View().administrative), agent, now)
      ensures View().enforcement == old(View().enforcement)
    {
      var e := A.Entry(agent.agentId, A.REGISTER, None, A.REGISTERED, 0, 1, now);
      r := administrativeRepository.Registration(agent, e, A.AdministrativeState(A.REGISTERED, 1, now));
    }

    method AdministrativeTransition(agent: string, next: A.Lifecycle, now: Time) returns (r: Result<(), ServiceError>)
      requires Valid()
      modifies administrativeRepository
      ensures Valid()
      ensures (View(), r) == Move(old(View()), agent, next, now)
    {
      if agent !in agentRepository.agents {
        return Err(AgentNotFound);
      }
      var current := administrativeRepository.GetState(agent);
      if !A.Legal(A.LifecycleOf(current), next) {
        return Err(Administrative(A.IllegalTransition));
      }
      var version := A.VersionOf(current);
      var e := A.Entry(agent, A.ActionFor(next), A.LifecycleOf(current), next, version, version + 1, now);
      var committed := administrativeRepository.Record(e, A.AdministrativeState(next, version + 1, now), version);
      r := ServiceOutcome(A.Outcome(committed));
    }

    /** `_transition`: read the state, compute its successor, commit by compare-and-set. */
    method Transition(agent: string, action: E.Action, now: Time, mark: Option<Watermark>)
      returns (r: Result<(), ServiceError>)
      requires Valid()
      requires !(action == E.SUSPEND && Disabled(View(), agent))
      modifies enforcementRepository
      ensures Valid() && View().administrative == old(View().administrative)
      ensures var was := old(View().enforcement);
              var (p, committed) := E.Commit(was, agent, E.StateOf(was, agent), action, now, mark);
              View().enforcement == p && r == TransitionError(committed)
    {
      var stored := enforcementRepository.GetState(agent);
      var state := if stored.Some? then stored.value else E.CLEAN_STATE;
      var committed := enforcementRepository.Record(E.Transition(agent, action, now),
                                                    E.Advance(state, action, now, mark), state.epoch);
      r := TransitionError(committed);
    }

    method SuspendAgent(agent: string, now: Time) returns (r: Result<(), ServiceError>)
      requires Valid()
      modifies enforcementRepository
      ensures Valid()
      ensures (View(), r) == Suspend(old(View()), agent, now)
    {
      if agent !in agentRepository.agents {
        return Err(AgentNotFound);
      }
      var administrative := administrativeRepository.GetState(agent);
      var enforcement := enforcementRepository.GetState(agent);
      if (enforcement.Some? && enforcement.value.suspendedAt.Some?)
         || A.LifecycleOf(administrative) == Some(A.DISABLED) {
        return Ok(());
      }
      r := Transition(agent, E.SUSPEND, now, None);
    }

    method ReinstateAgent(agent: string, actor: string, reason: string, now: Time, mark: Option<Watermark>)
      returns (r: Result<(), ServiceError>)
      requires Valid()
      modifies enforcementRepository
      ensures Valid()
      ensures (View(), r) == Reinstate(old(View()), agent, actor, reason, now, mark)
    {
      if agent !in agentRepository.agents {
        return Err(AgentNotFound);
      }
      if Blank(actor) {
        return Err(MissingActor);
      }
      if Blank(reason) {
        return Err(MissingReason);
      }
      var enforcement := enforcementRepository.GetState(agent);
      if enforcement.None? || enforcement.value.suspendedAt.None? {
        return Err(AgentNotSuspended);
      }
      r := Transition(agent, E.REINSTATE, now, mark);
    }

    /** `get_enforcement_state`, and through it `get_current_baseline`. */
    method GetEnforcementState(agent: string) returns (r: Result<E.EnforcementState, ServiceError>)
      requires Valid()
      ensures r == if Known(View(), agent) then Ok(E.StateOf(View().enforcement, agent)) else Err(AgentNotFound)
    {
      if agent !in agentRepository.agents {
        return Err(AgentNotFound);
      }
      var stored := enforcementRepository.GetState(agent);
      r := Ok(if stored.Some? then stored.value else E.CLEAN_STATE);
    }

    method RefusalFor(agent: string, outage: Outage) returns (code: Option<RefusalCode>)
      requires Valid()
      ensures code == RefusalUnder(View(), agent, outage)
    {
      var administrative, enforcement := Unavailable, Unavailable;
      if !outage.administrative {
        var stored := administrativeRepository.GetState(agent);
        administrative := ReadingOf(stored);
      }
      if !outage.enforcement {
        var stored := enforcementRepository.GetState(agent);
        enforcement := ReadingOf(stored);
      }
      code := Evaluate(administrative, enforcement);
    }
  }
}

/** Runs of one agent service holding its lock for each call. */
module AgentLifecycleRuns {
  import opened Prelude
  import opened RiskProjection
  import opened AgentLifecycle
  import A = AdministrativePlane
  import E = EnforcementPlane
  import R = EnforcementRaces

  datatype Call =
    | Register(record: A.AgentRecord)
    | Administer(agent: string, next: A.Lifecycle)
    | SuspendCall(agent: string)
    | ReinstateCall(agent: string, actor: string, reason: string, mark: Option<Watermark>)

  datatype System = System(clock: Time, agents: Agents)

  function Next(s: System, call: Call, elapsed: nat): System {
    var now := s.clock + elapsed;
    System(now,
      match call
      case Register(record) => s.agents.(administrative := A.RegisterAgent(s.agents.administrative, record, now).0)
      case Administer(agent, next) => Move(s.agents, agent, next, now).0
      case SuspendCall(agent) => Suspend(s.agents, agent, now).0
      case ReinstateCall(agent, actor, reason, mark) => Reinstate(s.agents, agent, actor, reason, now, mark).0)
  }

  function Run(s: System, calls: seq<(Call, nat)>): System {
    if calls == [] then s
    else Next(Run(s, calls[..|calls| - 1]), calls[|calls| - 1].0, calls[|calls| - 1].1)
  }

  /** SUSPEND and REINSTATE take turns, and the agent is suspended while a SUSPEND is last. */
  ghost predicate TakesTurns(p: E.Plane, agent: string) {
    var ledger := E.LedgerOf(p.transitions, agent);
    && R.Alternates(ledger)
    && (E.Suspended(p, agent) <==> |ledger| % 2 == 1)
    && E.Reinstatements(ledger) == |ledger| / 2
  }

  ghost predicate Sound(s: System) {
    && R.PlaneSound(s.agents.enforcement, s.clock)
    && forall a :: TakesTurns(s.agents.enforcement, a)
  }

  lemma TurnsAppend(p: E.Plane, q: E.Plane, t: E.Transition, newState: E.EnforcementState, agent: string)
    requires TakesTurns(p, agent)
    requires q.states == p.states[t.agentId := newState] && q.transitions == p.transitions + [t]
    requires E.Suspended(p, t.agentId) <==> t.action == E.REINSTATE
    requires newState.suspendedAt.Some? <==> t.action == E.SUSPEND
    ensures TakesTurns(q, agent)
  {
    hide E.LedgerOf, E.Reinstatements;
    R.LedgerAppend(p.transitions, t, agent);
    var ledger := E.LedgerOf(p.transitions, agent);
    if t.agentId != agent {
      assert ledger + [] == ledger;
    }
  }

  lemma CommitKeepsTurns(p: E.Plane, clock: Time, who: string, action: E.Action, now: Time, mark: Option<Watermark>,
                         agent: string)
    requires R.PlaneSound(p, clock) && clock <= now
    requires TakesTurns(p, agent)
    requires E.Suspended(p, who) <==> action == E.REINSTATE
    ensures TakesTurns(E.Commit(p, who, E.StateOf(p, who), action, now, mark).0, agent)
  {
    hide TakesTurns, R.PlaneSound, E.LedgerOf, E.Commit;
    R.CommitOutcome(p, clock, who, E.StateOf(p, who), action, now, mark);
    TurnsAppend(p, E.Commit(p, who, E.StateOf(p, who), action, now, mark).0, E.Transition(who, action, now),
                E.Advance(E.StateOf(p, who), action, now, mark), agent);
  }

  lemma CallKeepsSound(s: System, call: Call, elapsed: nat)
    requires Sound(s)
    ensures Sound(Next(s, call, elapsed))
  {
    hide E.Commit, TakesTurns, E.LedgerOf;
    var now := s.clock + elapsed;
    var p := s.agents.enforcement;
    match call
    case Register(_) =>
    case Administer(_, _) =>
    case SuspendCall(agent) =>
      R.CommitOutcome(p, s.clock, agent, E.StateOf(p, agent), E.SUSPEND, now, None);
      if !E.Suspended(p, agent) {
        forall a ensures TakesTurns(E.Commit(p, agent, E.StateOf(p, agent), E.SUSPEND, now, None).0, a) {
          CommitKeepsTurns(p, s.clock, agent, E.SUSPEND, now, None, a);
        }
      }
    case ReinstateCall(agent, _, _, mark) =>
      R.CommitOutcome(p, s.clock, agent, E.StateOf(p, agent), E.REINSTATE, now, mark);
      if E.Suspended(p, agent) {
        forall a ensures TakesTurns(E.Commit(p, agent, E.StateOf(p, agent), E.REINSTATE, now, mark).0, a) {
          CommitKeepsTurns(p, s.clock, agent, E.REINSTATE, now, mark, a);
        }
      }
  }

  /** Through the service the ledger alternates, so in every reachable state the epoch is
      twice the recovery generation, plus one while suspended; and a call on the enforcement
      plane is never refused for concurrency. */
  lemma {:induction false} EpochFromGeneration(s: System, calls: seq<(Call, nat)>, agent: string)
    requires s.agents.enforcement == E.EMPTY_PLANE
    ensures var p := Run(s, calls).agents.enforcement;
            var state := E.StateOf(p, agent);
            && Sound(Run(s, calls))
            && state.epoch == 2 * state.recoveryGeneration + (if E.Suspended(p, agent) then 1 else 0)
            && (forall now | now >= Run(s, calls).clock ::
                  && Suspend(Run(s, calls).agents, agent, now).1 != Err(EnforcementConcurrency)
                  && Suspend(Run(s, calls).agents, agent, now).1 != Err(GenerationRefused))
            && (forall now, actor, reason, mark | now >= Run(s, calls).clock ::
                  && Reinstate(Run(s, calls).agents, agent, actor, reason, now, mark).1 != Err(EnforcementConcurrency)
                  && Reinstate(Run(s, calls).agents, agent, actor, reason, now, mark).1 != Err(GenerationRefused))
  {
    hide Next, TakesTurns;
    if calls == [] {
      R.EmptyPlaneSound(s.clock);
      forall a ensures TakesTurns(s.agents.enforcement, a) {
        EmptyTakesTurns(a);
      }
    } else {
      EpochFromGeneration(s, calls[..|calls| - 1], agent);
      CallKeepsSound(Run(s, calls[..|calls| - 1]), calls[|calls| - 1].0, calls[|calls| - 1].1);
    }
    var t := Run(s, calls);
    TurnsCount(t.agents.enforcement, t.clock, agent);
    forall now | now >= t.clock
      ensures Suspend(t.agents, agent, now).1 != Err(EnforcementConcurrency)
      ensures Suspend(t.agents, agent, now).1 != Err(GenerationRefused)
    {
      R.CommitOutcome(t.agents.enforcement, t.clock, agent, E.StateOf(t.agents.enforcement, agent), E.SUSPEND, now, None);
    }
    forall now, actor, reason, mark | now >= t.clock
      ensures Reinstate(t.agents, agent, actor, reason, now, mark).1 != Err(EnforcementConcurrency)
      ensures Reinstate(t.agents, agent, actor, reason, now, mark).1 != Err(GenerationRefused)
    {
      R.CommitOutcome(t.agents.enforcement, t.clock, agent, E.StateOf(t.agents.enforcement, agent), E.REINSTATE, now, mark);
    }
  }

  lemma EmptyTakesTurns(agent: string)
    ensures TakesTurns(E.EMPTY_PLANE, agent)
  {
  }

  lemma TurnsCount(p: E.Plane, clock: Time, agent: string)
    requires R.PlaneSound(p, clock) && TakesTurns(p, agent)
    ensures var state := E.StateOf(p, agent);
            state.epoch == 2 * state.recoveryGeneration + (if E.Suspended(p, agent) then 1 else 0)
  {
    assert R.CountsLedger(p, agent);
  }

  /** What a suspension writes. In every reachable state an agent that is known, not disabled and not
      suspended gets its next state, whose boundary and generation are the old ones; any other agent
      is left as it was, and only an unknown one is an error. */
  lemma SuspensionKeepsBoundary(s: System, calls: seq<(Call, nat)>, agent: string, elapsed: nat)
    requires s.agents.enforcement == E.EMPTY_PLANE
    ensures var u := Run(s, calls);
            var now := u.clock + elapsed;
            var (after, r) := Suspend(u.agents, agent, now);
            var was := E.StateOf(u.agents.enforcement, agent);
            var known := agent in u.agents.administrative.agents;
            var disabled := agent in u.agents.administrative.states && u.agents.administrative.states[agent].state == A.DISABLED;
            && (r == Err(AgentNotFound) <==> !known) && (known ==> r == Ok(()))
            && after.administrative == u.agents.administrative
            && (if known && !disabled && was.suspendedAt.None?
                then && after.enforcement.states
                        == u.agents.enforcement.states[agent := was.(epoch := was.epoch + 1, suspendedAt := Some(now),
                                                                     lastTransitionAt := Some(now))]
                     && after.enforcement.transitions == u.agents.enforcement.transitions + [E.Transition(agent, E.SUSPEND, now)]
                else after == u.agents)
  {
    hide Run, TakesTurns, R.PlaneSound;
    EpochFromGeneration(s, calls, agent);
    var u := Run(s, calls);
    var p := u.agents.enforcement;
    R.CommitOutcome(p, u.clock, agent, E.StateOf(p, agent), E.SUSPEND, u.clock + elapsed, None);
    hide E.Commit;
  }

  /** What a reinstatement writes. In every reachable state it is refused for the first thing missing,
      an agent, an actor, a reason, a suspension, and then changes nothing; else the agent is clear
      under the next generation, its boundary the one given, or drawn at the present moment where none
      is given. */
  lemma ReinstatementMovesBoundary(s: System, calls: seq<(Call, nat)>, agent: string, actor: string, reason: string, elapsed: nat,
                                   mark: Option<Watermark>)
    requires s.agents.enforcement == E.EMPTY_PLANE
    ensures var u := Run(s, calls);
            var now := u.clock + elapsed;
            var (after, r) := Reinstate(u.agents, agent, actor, reason, now, mark);
            var was := E.StateOf(u.agents.enforcement, agent);
            var line := if mark.None? then Watermark(Some(now), 0, 0)
                        else if mark.value.baselineAt.Some? then mark.value else mark.value.(baselineAt := Some(now));
            && r == (if agent !in u.agents.administrative.agents then Err(AgentNotFound)
                     else if Blank(actor) then Err(MissingActor)
                     else if Blank(reason) then Err(MissingReason)
                     else if was.suspendedAt.None? then Err(AgentNotSuspended)
                     else Ok(()))
            && after.administrative == u.agents.administrative
            && (if r.Ok?
                then && after.enforcement.states
                        == u.agents.enforcement.states[agent := E.EnforcementState(was.epoch + 1, None, line,
                                                                                   was.recoveryGeneration + 1, Some(now))]
                     && after.enforcement.transitions == u.agents.enforcement.transitions + [E.Transition(agent, E.REINSTATE, now)]
                else after == u.agents)
  {
    hide Run, TakesTurns, R.PlaneSound, Blank;
    EpochFromGeneration(s, calls, agent);
    var u := Run(s, calls);
    var p := u.agents.enforcement;
    R.CommitOutcome(p, u.clock, agent, E.StateOf(p, agent), E.REINSTATE, u.clock + elapsed, mark);
    hide E.Commit;
  }

  ghost predicate NoSuspension(ts: seq<E.Transition>) {
    forall i :: 0 <= i < |ts| ==> ts[i].action == E.REINSTATE
  }

  /** A disabled agent is never suspended again: whatever is called, everything its ledger gains is
      reinstatement, and so at most one entry. */
  lemma {:induction false} DisabledNeverSuspended(s: System, calls: seq<(Call, nat)>, agent: string)
    requires Sound(s) && Known(s.agents, agent) && Disabled(s.agents, agent)
    ensures var u := Run(s, calls);
            var was, later := E.LedgerOf(s.agents.enforcement.transitions, agent), E.LedgerOf(u.agents.enforcement.transitions, agent);
            && Sound(u) && Known(u.agents, agent) && Disabled(u.agents, agent)
            && was <= later && NoSuspension(later[|was|..]) && |later| <= |was| + 1
  {
    hide *;
    var was, later := E.LedgerOf(s.agents.enforcement.transitions, agent), E.LedgerOf(Run(s, calls).agents.enforcement.transitions, agent);
    if calls == [] {
      RunNothing(s, calls);
      LedgerSame(was);
    } else {
      var front, last := calls[..|calls| - 1], calls[|calls| - 1];
      RunOneMore(s, calls);
      DisabledNeverSuspended(s, front, agent);
      CallKeepsSound(Run(s, front), last.0, last.1);
      CallOfDisabled(Run(s, front), last.0, last.1, agent);
      LedgerGains(was, E.LedgerOf(Run(s, front).agents.enforcement.transitions, agent), later, agent);
    }
    LedgersAlternate(Run(s, calls), agent);
    OneAtMost(later, |was|);
  }

  lemma RunNothing(s: System, calls: seq<(Call, nat)>)
    requires calls == []
    ensures Run(s, calls) == s
  {
  }

  lemma RunOneMore(s: System, calls: seq<(Call, nat)>)
    requires calls != []
    ensures var last := calls[|calls| - 1]; Run(s, calls) == Next(Run(s, calls[..|calls| - 1]), last.0, last.1)
  {
  }

  lemma LedgerSame(was: seq<E.Transition>)
    ensures NoSuspension(was[|was|..])
  {
  }

  lemma LedgerGains(was: seq<E.Transition>, mid: seq<E.Transition>, later: seq<E.Transition>, agent: string)
    requires was <= mid && NoSuspension(mid[|was|..])
    requires later == mid || exists at :: later == mid + [E.Transition(agent, E.REINSTATE, at)]
    ensures was <= later && NoSuspension(later[|was|..])
  {
    if later != mid {
      assert later[|was|..] == mid[|was|..] + [later[|mid|]];
    }
  }

  lemma OneAtMost(ledger: seq<E.Transition>, n: nat)
    requires n <= |ledger| && NoSuspension(ledger[n..])
    requires forall i :: 0 <= i < |ledger| - 1 ==> ledger[i].action != ledger[i + 1].action
    ensures |ledger| <= n + 1
  {
    assert forall i :: n <= i < |ledger| ==> ledger[i] == ledger[n..][i - n];
    assert n < |ledger| - 1 ==> ledger[n].action != ledger[n + 1].action;
  }

  lemma LedgersAlternate(s: System, agent: string)
    requires Sound(s)
    ensures var ledger := E.LedgerOf(s.agents.enforcement.transitions, agent);
            forall i :: 0 <= i < |ledger| - 1 ==> ledger[i].action != ledger[i + 1].action
  {
    hide E.LedgerOf, R.PlaneSound;
    assert TakesTurns(s.agents.enforcement, agent);
  }

  lemma CallOfDisabled(s: System, call: Call, elapsed: nat, agent: string)
    requires Sound(s) && Known(s.agents, agent) && Disabled(s.agents, agent)
    ensures var u := Next(s, call, elapsed);
            var was, later := E.LedgerOf(s.agents.enforcement.transitions, agent), E.LedgerOf(u.agents.enforcement.transitions, agent);
            && Known(u.agents, agent) && Disabled(u.agents, agent)
            && (later == was || exists at :: later == was + [E.Transition(agent, E.REINSTATE, at)])
  {
    hide E.LedgerOf, E.Commit, TakesTurns, R.PlaneSound;
    var p, now := s.agents.enforcement, s.clock + elapsed;
    match call
    case Register(_) =>
    case Administer(_, _) =>
    case SuspendCall(who) =>
      R.CommitOutcome(p, s.clock, who, E.StateOf(p, who), E.SUSPEND, now, None);
      R.LedgerAppend(p.transitions, E.Transition(who, E.SUSPEND, now), agent);
      assert E.LedgerOf(p.transitions, agent) + [] == E.LedgerOf(p.transitions, agent);
    case ReinstateCall(who, _, _, mark) =>
      R.CommitOutcome(p, s.clock, who, E.StateOf(p, who), E.REINSTATE, now, mark);
      R.LedgerAppend(p.transitions, E.Transition(who, E.REINSTATE, now), agent);
      assert E.LedgerOf(p.transitions, agent) + [] == E.LedgerOf(p.transitions, agent);
  }
}
