/** app/models/agent_administrative.py, app/repositories/in_memory/administrative_state_repository.py
    and the administrative half of app/services/agent_service.py. */
module AdministrativePlane {
  import opened Prelude

  datatype Lifecycle = REGISTERED | ACTIVE | DISABLED

  datatype AdministrativeAction = REGISTER | ACTIVATE | DISABLE

  datatype AdministrativeState = AdministrativeState(state: Lifecycle, version: nat, lastTransitionAt: Time)

  datatype Entry = Entry(
    agentId: string,
    action: AdministrativeAction,
    previous: Option<Lifecycle>,
    next: Lifecycle,
    versionBefore: nat,
    versionAfter: nat,
    occurredAt: Time)

  datatype AgentRecord = AgentRecord(agentId: string, owner: string)

  /** `agents` is the identity store registration composes with; `wired` says whether the
      repository was constructed with one. */
  datatype Register = Register(
    states: map<string, AdministrativeState>,
    ledger: seq<Entry>,
    wired: bool,
    agents: map<string, AgentRecord>)

  datatype AdministrativeError =
    | VersionMustAdvanceByOne
    | IllegalTransition
    | EntryDoesNotDescribeTransition
    | NoAgentRepository
    | AlreadyRegistered
    | RegistrationMustCommitVersionOne
    | AgentNotFound
    | LostUpdate

  /** `LEGAL_ADMINISTRATIVE_TRANSITIONS` */
  predicate Legal(previous: Option<Lifecycle>, next: Lifecycle) {
    match previous
    case None => next == REGISTERED
    case Some(REGISTERED) => next == ACTIVE || next == DISABLED
    case Some(ACTIVE) => next == DISABLED
    case Some(DISABLED) => false
  }

  /** `ADMINISTRATIVE_TRANSITION_ACTIONS` */
  function ActionFor(next: Lifecycle): AdministrativeAction {
    match next case REGISTERED => REGISTER case ACTIVE => ACTIVATE case DISABLED => DISABLE
  }

  function StateOf(p: Register, agent: string): Option<AdministrativeState> {
    if agent in p.states then Some(p.states[agent]) else None
  }

  function VersionOf(s: Option<AdministrativeState>): nat {
    if s.Some? then s.value.version else 0
  }

  function LifecycleOf(s: Option<AdministrativeState>): Option<Lifecycle> {
    if s.Some? then Some(s.value.state) else None
  }

  /** `record_transition`: a stale version is a lost update, anything else wrong is an error. */
  function RecordTransition(p: Register, e: Entry, newState: AdministrativeState, expectedVersion: nat)
    : (Register, Result<bool, AdministrativeError>)
  {
    var persisted := StateOf(p, e.agentId);
    if VersionOf(persisted) != expectedVersion then (p, Ok(false))
    else if newState.version != expectedVersion + 1 then (p, Err(VersionMustAdvanceByOne))
    else if !Legal(LifecycleOf(persisted), newState.state) then (p, Err(IllegalTransition))
    else if e.previous != LifecycleOf(persisted) || e.next != newState.state
            || e.versionBefore != VersionOf(persisted) || e.versionAfter != newState.version
    then (p, Err(EntryDoesNotDescribeTransition))
    else (p.(states := p.states[e.agentId := newState], ledger := p.ledger + [e]), Ok(true))
  }

  /** `commit_registration` */
  function CommitRegistration(p: Register, agent: AgentRecord, e: Entry, newState: AdministrativeState)
    : (Register, Result<(), AdministrativeError>)
  {
    if !p.wired then (p, Err(NoAgentRepository))
    else if agent.agentId in p.agents then (p, Err(AlreadyRegistered))
    else if !Legal(None, newState.state) then (p, Err(IllegalTransition))
    else if newState.version != 1 then (p, Err(RegistrationMustCommitVersionOne))
    else (p.(states := p.states[agent.agentId := newState], ledger := p.ledger + [e],
             agents := p.agents[agent.agentId := agent]), Ok(()))
  }

  /** `AgentService.register_agent` */
  function RegisterAgent(p: Register, agent: AgentRecord, now: Time): (Register, Result<(), AdministrativeError>) {
    CommitRegistration(p, agent, Entry(agent.agentId, REGISTER, None, REGISTERED, 0, 1, now),
                       AdministrativeState(REGISTERED, 1, now))
  }

  /** The committing half of `_administrative_transition`, from a state read earlier. */
  function Commit(p: Register, agent: string, read: Option<AdministrativeState>, next: Lifecycle, now: Time)
    : (Register, Result<(), AdministrativeError>)
  {
    if !Legal(LifecycleOf(read), next) then (p, Err(IllegalTransition))
    else
      var version := VersionOf(read);
      var e := Entry(agent, ActionFor(next), LifecycleOf(read), next, version, version + 1, now);
      var (q, r) := RecordTransition(p, e, AdministrativeState(next, version + 1, now), version);
      (q, Outcome(r))
  }

  /** A lost update surfaces as the service's concurrency error. */
  function Outcome(r: Result<bool, AdministrativeError>): Result<(), AdministrativeError> {
    if r.Err? then Err(r.error) else if r.value then Ok(()) else Err(LostUpdate)
  }

  function EntriesOf(ledger: seq<Entry>, agent: string): seq<Entry> {
    if ledger == [] then []
    else
      var rest := EntriesOf(ledger[..|ledger| - 1], agent);
      if ledger[|ledger| - 1].agentId == agent then rest + [ledger[|ledger| - 1]] else rest
  }

  /** The state a reader of the ledger alone arrives at. */
  function Replay(entries: seq<Entry>): Option<AdministrativeState> {
    if entries == [] then None
    else
      var e := entries[|entries| - 1];
      Some(AdministrativeState(e.next, VersionOf(Replay(entries[..|entries| - 1])) + 1, e.occurredAt))
  }

  class InMemoryAgentRepository {
    var agents: map<string, AgentRecord>

    constructor ()
      ensures agents == map[]
    {
      agents := map[];
    }

    method Save(agent: AgentRecord)
      modifies this
      ensures agents == old(agents)[agent.agentId := agent]
    {
      agents := agents[agent.agentId := agent];
    }
  }

  class InMemoryAdministrativeStateRepository {
    var states: map<string, AdministrativeState>
    var ledger: seq<Entry>
    const agentRepository: InMemoryAgentRepository?

    ghost function View(): Register
      reads this, agentRepository
    {
      Register(states, ledger, agentRepository != null, if agentRepository == null then map[] else agentRepository.agents)
    }

    constructor (agentRepository: InMemoryAgentRepository?)
      ensures View() == Register(map[], [], agentRepository != null,
                                 if agentRepository == null then map[] else agentRepository.agents)
      ensures this.agentRepository == agentRepository
    {
      this.agentRepository := agentRepository;
      states, ledger := map[], [];
    }

    method GetState(agent: string) returns (state: Option<AdministrativeState>)
      ensures state == StateOf(View(), agent)
    {
      state := if agent in states then Some(states[agent]) else None;
    }

    method Record(e: Entry, newState: AdministrativeState, expectedVersion: nat)
      returns (r: Result<bool, AdministrativeError>)
      modifies this
      ensures (View(), r) == RecordTransition(old(View()), e, newState, expectedVersion)
    {
      var persisted := GetState(e.agentId);
      if VersionOf(persisted) != expectedVersion {
        return Ok(false);
      }
      if newState.version != expectedVersion + 1 {
        return Err(VersionMustAdvanceByOne);
      }
      if !Legal(LifecycleOf(persisted), newState.state) {
        return Err(IllegalTransition);
      }
      if e.previous != LifecycleOf(persisted) || e.next != newState.state
         || e.versionBefore != VersionOf(persisted) || e.versionAfter != newState.version {
        return Err(EntryDoesNotDescribeTransition);
      }
      states := states[e.agentId := newState];
      ledger := ledger + [e];
      r := Ok(true);
    }

    method Registration(agent: AgentRecord, e: Entry, newState: AdministrativeState)
      returns (r: Result<(), AdministrativeError>)
      modifies this, agentRepository
      ensures (View(), r) == CommitRegistration(old(View()), agent, e, newState)
    {
      if agentRepository == null {
        return Err(NoAgentRepository);
      }
      if agent.agentId in agentRepository.agents {
        return Err(AlreadyRegistered);
      }
      if !Legal(None, newState.state) {
        return Err(IllegalTransition);
      }
      if newState.version != 1 {
        return Err(RegistrationMustCommitVersionOne);
      }
      agentRepository.Save(agent);
      states := states[agent.agentId := newState];
      ledger := ledger + [e];
      r := Ok(());
    }
  }
}

/** Any number of administrators: registrations are one atomic step, every other transition
    reads its agent once and commits later. */
module AdministrativeRaces {
  import opened Prelude
  import opened AdministrativePlane

  datatype Pending = Pending(agentId: string, read: Option<AdministrativeState>)

  datatype System = System(plane: Register, pending: map<nat, Pending>)

  datatype Step =
    | Enrol(record: AgentRecord, now: Time)
    | Read(writer: nat, agent: string)
    | Write(writer: nat, next: Lifecycle, now: Time)

  /** `get_agent` refuses an unknown agent before its administrative state is read. */
  function Next(s: System, step: Step): System {
    match step
    case Enrol(agent, now) =>
      s.(plane := RegisterAgent(s.plane, agent, now).0)
    case Read(writer, agent) =>
      if agent in s.plane.agents
      then s.(pending := s.pending[writer := Pending(agent, StateOf(s.plane, agent))]) else s
    case Write(writer, next, now) =>
      if writer !in s.pending then s
      else System(Commit(s.plane, s.pending[writer].agentId, s.pending[writer].read, next, now).0,
                  s.pending - {writer})
  }

  function Run(s: System, steps: seq<Step>): System {
    if steps == [] then s else Next(Run(s, steps[..|steps| - 1]), steps[|steps| - 1])
  }

  /** Consecutive versions from 1, each entry leaving where the last one arrived, legally. */
  ghost predicate Chain(entries: seq<Entry>) {
    forall i :: 0 <= i < |entries| ==>
      && entries[i].versionBefore == i && entries[i].versionAfter == i + 1
      && entries[i].previous == (if i == 0 then None else Some(entries[i - 1].next))
      && Legal(entries[i].previous, entries[i].next)
      && entries[i].action == ActionFor(entries[i].next)
  }

  ghost predicate AgentSound(p: Register, agent: string) {
    && Chain(EntriesOf(p.ledger, agent))
    && StateOf(p, agent) == Replay(EntriesOf(p.ledger, agent))
    && (agent in p.agents <==> agent in p.states)
  }

  ghost predicate ReadSound(s: System, w: nat) {
    w in s.pending ==>
      var now := StateOf(s.plane, s.pending[w].agentId);
      && s.pending[w].read.Some?
      && VersionOf(s.pending[w].read) <= VersionOf(now)
      && (VersionOf(s.pending[w].read) == VersionOf(now) ==> s.pending[w].read == now)
  }

  ghost predicate Sound(s: System) {
    (forall a :: AgentSound(s.plane, a)) && (forall w :: ReadSound(s, w))
  }

  lemma EntriesAppend(ledger: seq<Entry>, e: Entry, agent: string)
    ensures EntriesOf(ledger + [e], agent) == EntriesOf(ledger, agent) + (if e.agentId == agent then [e] else [])
  {
    assert (ledger + [e])[..|ledger|] == ledger;
    assert EntriesOf(ledger, agent) + [] == EntriesOf(ledger, agent);
  }

  lemma ReplayShape(entries: seq<Entry>)
    ensures VersionOf(Replay(entries)) == |entries|
    ensures LifecycleOf(Replay(entries)) == if entries == [] then None else Some(entries[|entries| - 1].next)
  {
    if entries != [] {
      ReplayShape(entries[..|entries| - 1]);
    }
  }

  lemma ReplayAppend(entries: seq<Entry>, e: Entry)
    requires e.versionBefore == |entries| && e.versionAfter == |entries| + 1
    ensures Replay(entries + [e]) == Some(AdministrativeState(e.next, |entries| + 1, e.occurredAt))
  {
    ReplayShape(entries);
    assert (entries + [e])[..|entries|] == entries;
  }

  lemma ChainAppend(entries: seq<Entry>, e: Entry)
    requires Chain(entries)
    requires e.versionBefore == |entries| && e.versionAfter == |entries| + 1
    requires e.previous == LifecycleOf(Replay(entries)) && Legal(e.previous, e.next) && e.action == ActionFor(e.next)
    ensures Chain(entries + [e])
    ensures Replay(entries + [e]) == Some(AdministrativeState(e.next, |entries| + 1, e.occurredAt))
  {
    hide Replay, Legal, ActionFor;
    ReplayAppend(entries, e);
    ReplayShape(entries);
    assert forall i :: 0 <= i < |entries| ==> (entries + [e])[i] == entries[i];
  }

  /** Appending the entry for a legal move from the current state extends the chain. */
  lemma ChainExtends(p: Register, q: Register, e: Entry, newState: AdministrativeState, agent: string)
    requires AgentSound(p, agent) && AgentSound(p, e.agentId)
    requires e.previous == LifecycleOf(StateOf(p, e.agentId)) && Legal(e.previous, e.next)
    requires e.versionBefore == VersionOf(StateOf(p, e.agentId)) && e.versionAfter == e.versionBefore + 1
    requires e.action == ActionFor(e.next)
    requires newState == AdministrativeState(e.next, e.versionAfter, e.occurredAt)
    requires q.states == p.states[e.agentId := newState] && q.ledger == p.ledger + [e]
    requires agent in q.agents <==> agent in q.states
    ensures AgentSound(q, agent)
  {
    hide Chain, Replay, EntriesOf;
    EntriesAppend(p.ledger, e, agent);
    var entries := EntriesOf(p.ledger, agent);
    if agent == e.agentId {
      ReplayShape(entries);
      ChainAppend(entries, e);
    } else {
      assert entries + [] == entries;
    }
  }

  lemma StepKeepsSound(s: System, step: Step)
    requires Sound(s)
    ensures Sound(Next(s, step))
    ensures forall a :: VersionOf(StateOf(s.plane, a)) <= VersionOf(StateOf(Next(s, step).plane, a))
  {
    hide EntriesOf, Replay, Chain;
    var t := Next(s, step);
    match step
    case Read(writer, agent) =>
      assert AgentSound(s.plane, agent);
      forall w ensures ReadSound(t, w) {
        assert ReadSound(s, w);
      }
    case Enrol(agent, now) =>
      assert AgentSound(s.plane, agent.agentId);
      forall a ensures AgentSound(t.plane, a) {
        assert AgentSound(s.plane, a);
        if t.plane != s.plane {
          ChainExtends(s.plane, t.plane, Entry(agent.agentId, REGISTER, None, REGISTERED, 0, 1, now),
                       AdministrativeState(REGISTERED, 1, now), a);
        }
      }
      forall w ensures ReadSound(t, w) {
        assert ReadSound(s, w);
      }
    case Write(writer, next, now) =>
      if writer in s.pending {
        var pend := s.pending[writer];
        assert ReadSound(s, writer);
        forall a ensures AgentSound(t.plane, a) {
          assert AgentSound(s.plane, a) && AgentSound(s.plane, pend.agentId);
          if t.plane != s.plane {
            var v := VersionOf(pend.read);
            ChainExtends(s.plane, t.plane,
                         Entry(pend.agentId, ActionFor(next), LifecycleOf(pend.read), next, v, v + 1, now),
                         AdministrativeState(next, v + 1, now), a);
          }
        }
        forall w ensures ReadSound(t, w) {
          assert ReadSound(s, w);
        }
      }
  }

  function Stage(l: Option<Lifecycle>): nat {
    match l case None => 0 case Some(REGISTERED) => 1 case Some(ACTIVE) => 2 case Some(DISABLED) => 3
  }

  /** Every legal move is a strict advance, so a chain has at most three entries and none
      after DISABLED. */
  lemma {:induction false} ChainIsShort(entries: seq<Entry>, i: nat)
    requires Chain(entries) && i < |entries|
    ensures i < Stage(Some(entries[i].next)) <= 3
    ensures entries[i].next == DISABLED ==> i == |entries| - 1
  {
    if i > 0 {
      ChainIsShort(entries, i - 1);
    }
    if i + 1 < |entries| {
      assert entries[i + 1].previous == Some(entries[i].next) && Legal(entries[i + 1].previous, entries[i + 1].next);
    }
  }

  /** The administrative ledger under any interleaving: consecutive versions, linked states,
      the stored state is the ledger replayed, DISABLED is final, the version stays within 3,
      and identity and lifecycle exist together. */
  lemma {:induction false} LedgerChain(wired: bool, steps: seq<Step>, agent: string)
    ensures var p := Run(System(Register(map[], [], wired, map[]), map[]), steps).plane;
            var entries := EntriesOf(p.ledger, agent);
            && Sound(Run(System(Register(map[], [], wired, map[]), map[]), steps))
            && Chain(entries)
            && StateOf(p, agent) == Replay(entries)
            && VersionOf(StateOf(p, agent)) == |entries| <= 3
            && (forall i :: 0 <= i < |entries| && entries[i].next == DISABLED ==> i == |entries| - 1)
            && (agent in p.agents <==> StateOf(p, agent).Some?)
  {
    hide Next;
    var s0 := System(Register(map[], [], wired, map[]), map[]);
    if steps == [] {
      assert forall a :: AgentSound(s0.plane, a);
    } else {
      LedgerChain(wired, steps[..|steps| - 1], agent);
      StepKeepsSound(Run(s0, steps[..|steps| - 1]), steps[|steps| - 1]);
    }
    var p := Run(s0, steps).plane;
    assert AgentSound(p, agent);
    var entries := EntriesOf(p.ledger, agent);
    ReplayShape(entries);
    forall i | 0 <= i < |entries| ensures entries[i].next == DISABLED ==> i == |entries| - 1 {
      ChainIsShort(entries, i);
    }
    if |entries| > 3 {
      ChainIsShort(entries, 3);
    }
  }

  /** Which moves there are. In every reachable state, an agent registers exactly once; REGISTERED
      moves to ACTIVE or DISABLED and ACTIVE to DISABLED, a move on a fresh read always succeeds, and
      every other move is refused as illegal and changes nothing. */
  lemma MovesExactly(wired: bool, steps: seq<Step>, agent: string, owner: string, next: Lifecycle, now: Time)
    ensures var p := Run(System(Register(map[], [], wired, map[]), map[]), steps).plane;
            var state := if agent in p.states then Some(p.states[agent].state) else None;
            var (q, moved) := Commit(p, agent, StateOf(p, agent), next, now);
            var (t, registered) := RegisterAgent(p, AgentRecord(agent, owner), now);
            && (moved == Ok(()) <==> (state, next) in {(None, REGISTERED), (Some(REGISTERED), ACTIVE), (Some(REGISTERED), DISABLED),
                                                       (Some(ACTIVE), DISABLED)})
            && (moved != Ok(()) ==> moved == Err(IllegalTransition) && q == p)
            && (moved == Ok(()) ==>
                  q.states == p.states[agent := AdministrativeState(next, (if state.None? then 0 else p.states[agent].version) + 1, now)]
                  && q.agents == p.agents)
            && (registered == if !p.wired then Err(NoAgentRepository) else if state.Some? then Err(AlreadyRegistered) else Ok(()))
            && (registered != Ok(()) ==> t == p)
            && (registered == Ok(()) ==>
                  && t.states == p.states[agent := AdministrativeState(REGISTERED, 1, now)]
                  && t.agents == p.agents[agent := AgentRecord(agent, owner)])
  {
    hide Run, EntriesOf, Replay;
    LedgerChain(wired, steps, agent);
  }

  /** The repository defends its ledger against any writer: a write is admitted exactly when it is
      based on the stored version, takes the next, moves legally, and its entry describes that very
      move; a stale one is lost, each other kind is its own error, and none leaves a trace. */
  lemma RecordAdmits(p: Register, e: Entry, newState: AdministrativeState, expectedVersion: nat)
    ensures var (q, r) := RecordTransition(p, e, newState, expectedVersion);
            var now := if e.agentId in p.states then Some(p.states[e.agentId]) else None;
            var version := if now.Some? then now.value.version else 0;
            var from := if now.Some? then Some(now.value.state) else None;
            var based, advances, legal := version == expectedVersion, newState.version == expectedVersion + 1, Legal(from, newState.state);
            var describes := e.previous == from && e.next == newState.state && e.versionBefore == version && e.versionAfter == newState.version;
            && (r == Ok(true) <==> based && advances && legal && describes)
            && (r == Ok(false) <==> !based)
            && (r == Err(VersionMustAdvanceByOne) <==> based && !advances)
            && (r == Err(IllegalTransition) <==> based && advances && !legal)
            && (r == Err(EntryDoesNotDescribeTransition) <==> based && advances && legal && !describes)
            && (r == Ok(true) ==> q.states == p.states[e.agentId := newState] && q.ledger == p.ledger + [e] && q.agents == p.agents)
            && (r != Ok(true) ==> q == p)
  {
  }
}
