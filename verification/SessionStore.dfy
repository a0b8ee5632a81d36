/** app/repositories/in_memory/session_repository.py: sessions, their final owners, and the
    event store that detection reads. */
module SessionStore {
  import opened Prelude

  datatype Session = Session(sessionId: string, agentId: string, startedAt: Time, lastActivityAt: Time)

  datatype TerminalReason = EXPLICIT_END | IDLE_TIMEOUT

  datatype Tombstone = Tombstone(sessionId: string, agentId: string, terminatedAt: Time, reason: TerminalReason)

  datatype Event = Event(
    sessionId: string,
    agentId: string,
    toolId: string,
    toolVersion: Option<string>,
    decision: Decision,
    finalDecision: Option<Decision>,
    sequence: nat,
    agentSequence: nat,
    timestamp: Time)

  datatype Scope = SessionScope(sessionId: string) | AgentScope

  datatype HorizonQuery = HorizonQuery(
    agentId: string,
    scope: Scope,
    window: Time,
    evaluationTime: Time,
    baseline: nat)

  datatype SessionError =
    | SessionTerminal
    | SessionBinding
    | SessionNotFound
    | SessionAlreadyExists
    | CallerSuppliedSequence
    | EventNotFound
    | AlreadyFinalized
    | IdleThresholdNotPositive

  datatype Store = Store(
    sessions: map<string, Session>,
    tombstones: map<string, Tombstone>,
    events: seq<Event>,
    sessionSequences: map<string, nat>,
    agentSequences: map<string, nat>)

  const EMPTY_SESSIONS := Store(map[], map[], [], map[], map[])

  // ---- the operations as functions -------------------------------------------------------------

  function Create(s: Store, session: Session): (Store, Result<Session, SessionError>) {
    if session.sessionId in s.tombstones then (s, Err(SessionTerminal))
    else if session.sessionId in s.sessions then (s, Err(SessionAlreadyExists))
    else (s.(sessions := s.sessions[session.sessionId := session]), Ok(session))
  }

  /** `bind_or_create_session` */
  function Bind(s: Store, id: string, agent: string, now: Time): (Store, Result<Session, SessionError>) {
    if id in s.tombstones then (s, Err(SessionTerminal))
    else if id !in s.sessions then
      var session := Session(id, agent, now, now);
      (s.(sessions := s.sessions[id := session]), Ok(session))
    else if s.sessions[id].agentId != agent then (s, Err(SessionBinding))
    else
      var session := s.sessions[id].(lastActivityAt := now);
      (s.(sessions := s.sessions[id := session]), Ok(session))
  }

  function Terminalize(s: Store, id: string, tombstone: Tombstone): (Store, bool) {
    if id !in s.sessions || id in s.tombstones then (s, false)
    else (s.(sessions := s.sessions - {id}, tombstones := s.tombstones[id := tombstone]), true)
  }

  /** `record_event` */
  function Record(s: Store, e: Event): (Store, Result<Event, SessionError>) {
    if e.sessionId in s.tombstones then (s, Err(SessionTerminal))
    else if e.sessionId !in s.sessions then (s, Err(SessionNotFound))
    else if s.sessions[e.sessionId].agentId != e.agentId then (s, Err(SessionBinding))
    else if e.sequence != 0 || e.agentSequence != 0 then (s, Err(CallerSuppliedSequence))
    else
      var n := Counter(s.sessionSequences, e.sessionId) + 1;
      var m := Counter(s.agentSequences, e.agentId) + 1;
      var recorded := e.(sequence := n, agentSequence := m);
      (Store(s.sessions[e.sessionId := s.sessions[e.sessionId].(lastActivityAt := e.timestamp)],
             s.tombstones, s.events + [recorded],
             s.sessionSequences[e.sessionId := n], s.agentSequences[e.agentId := m]), Ok(recorded))
  }

  predicate Matches(e: Event, q: HorizonQuery) {
    && e.agentId == q.agentId
    && (q.scope.SessionScope? ==> e.sessionId == q.scope.sessionId)
    && e.agentSequence > q.baseline
    && q.evaluationTime - q.window <= e.timestamp <= q.evaluationTime
  }

  function Matching(events: seq<Event>, q: HorizonQuery): seq<Event> {
    if events == [] then []
    else
      var rest := Matching(events[..|events| - 1], q);
      if Matches(events[|events| - 1], q) then rest + [events[|events| - 1]] else rest
  }

  function ScopeOrder(scope: Scope): (Event, Event) -> bool {
    if scope.AgentScope? then (a: Event, b: Event) => a.agentSequence <= b.agentSequence
    else (a: Event, b: Event) => a.sequence <= b.sequence
  }

  /** `list_eligible_events` */
  function Eligible(events: seq<Event>, q: HorizonQuery): seq<Event> {
    StableSort(ScopeOrder(q.scope), Matching(events, q))
  }

  function Since(events: seq<Event>, cutoff: Time): seq<Event> {
    if events == [] then []
    else
      var rest := Since(events[..|events| - 1], cutoff);
      if events[|events| - 1].timestamp >= cutoff then rest + [events[|events| - 1]] else rest
  }

  function Find(events: seq<Event>, id: string, n: nat): (k: nat)
    ensures k <= |events|
    ensures k < |events| ==> events[k].sessionId == id && events[k].sequence == n
    ensures forall i :: 0 <= i < k ==> !(events[i].sessionId == id && events[i].sequence == n)
  {
    if events == [] then 0
    else
      var front := events[..|events| - 1];
      var k := Find(front, id, n);
      assert forall i :: 0 <= i < |front| ==> front[i] == events[i];
      if k < |front| then k
      else if events[|front|].sessionId == id && events[|front|].sequence == n then |front| else |events|
  }

  /** `update_event_final_decision` */
  function Finalize(s: Store, id: string, n: nat, d: Decision): (Store, Result<(), SessionError>) {
    if id in s.tombstones then (s, Err(SessionTerminal))
    else if id !in s.sessions then (s, Err(SessionNotFound))
    else
      var k := Find(s.events, id, n);
      if k == |s.events| then (s, Err(EventNotFound))
      else if s.events[k].finalDecision.Some? && s.events[k].finalDecision.value != d then (s, Err(AlreadyFinalized))
      else (s.(events := s.events[k := s.events[k].(finalDecision := Some(d))]), Ok(()))
  }

  // ---- the repository ------------------------------------------------------------------------------

  class InMemorySessionRepository {
    var sessions: map<string, Session>
    var tombstones: map<string, Tombstone>
    var events: seq<Event>
    var sessionSequences: map<string, nat>
    var agentSequences: map<string, nat>

    ghost function View(): Store
      reads this
    {
      Store(sessions, tombstones, events, sessionSequences, agentSequences)
    }

    constructor ()
      ensures View() == EMPTY_SESSIONS
    {
      sessions, tombstones, events, sessionSequences, agentSequences := map[], map[], [], map[], map[];
    }

    method CreateSession(session: Session) returns (r: Result<Session, SessionError>)
      modifies this
      ensures (View(), r) == Create(old(View()), session)
    {
      if session.sessionId in tombstones {
        return Err(SessionTerminal);
      }
      if session.sessionId in sessions {
        return Err(SessionAlreadyExists);
      }
      sessions := sessions[session.sessionId := session];
      r := Ok(session);
    }

    method BindOrCreateSession(id: string, agent: string, now: Time) returns (r: Result<Session, SessionError>)
      modifies this
      ensures (View(), r) == Bind(old(View()), id, agent, now)
    {
      if id in tombstones {
        return Err(SessionTerminal);
      }
      if id !in sessions {
        sessions := sessions[id := Session(id, agent, now, now)];
        return Ok(sessions[id]);
      }
      if sessions[id].agentId != agent {
        return Err(SessionBinding);
      }
      sessions := sessions[id := sessions[id].(lastActivityAt := now)];
      r := Ok(sessions[id]);
    }

    method TerminalizeSession(id: string, tombstone: Tombstone) returns (terminalized: bool)
      modifies this
      ensures (View(), terminalized) == Terminalize(old(View()), id, tombstone)
    {
      if id !in sessions || id in tombstones {
        return false;
      }
      sessions := sessions - {id};
      tombstones := tombstones[id := tombstone];
      terminalized := true;
    }

    method RecordEvent(e: Event) returns (r: Result<Event, SessionError>)
      modifies this
      ensures (View(), r) == Record(old(View()), e)
    {
      if e.sessionId in tombstones {
        return Err(SessionTerminal);
      }
      if e.sessionId !in sessions {
        return Err(SessionNotFound);
      }
      var active := sessions[e.sessionId];
      if active.agentId != e.agentId {
        return Err(SessionBinding);
      }
      if e.sequence != 0 || e.agentSequence != 0 {
        return Err(CallerSuppliedSequence);
      }
      var n := Counter(sessionSequences, e.sessionId) + 1;
      sessionSequences := sessionSequences[e.sessionId := n];
      var m := Counter(agentSequences, e.agentId) + 1;
      agentSequences := agentSequences[e.agentId := m];
      sessions := sessions[e.sessionId := active.(lastActivityAt := e.timestamp)];
      var recorded := e.(sequence := n, agentSequence := m);
      events := events + [recorded];
      r := Ok(recorded);
    }

    method ListEligibleEvents(q: HorizonQuery) returns (listed: seq<Event>)
      ensures listed == Eligible(View().events, q)
    {
      var matching: seq<Event> := [];
      for i := 0 to |events|
        invariant matching == Matching(events[..i], q)
      {
        assert events[..i + 1][..i] == events[..i];
        if Matches(events[i], q) {
          matching := matching + [events[i]];
        }
      }
      assert events[..|events|] == events;
      listed := StableSort(ScopeOrder(q.scope), matching);
    }

    method PruneEvents(cutoff: Time) returns (evicted: nat)
      modifies this`events
      ensures View() == old(View()).(events := Since(old(events), cutoff))
      ensures evicted == |old(events)| - |events|
    {
      var kept: seq<Event> := [];
      for i := 0 to |events|
        invariant events == old(events) && kept == Since(events[..i], cutoff) && |kept| <= i
      {
        assert events[..i + 1][..i] == events[..i];
        if events[i].timestamp >= cutoff {
          kept := kept + [events[i]];
        }
      }
      assert events[..|events|] == events;
      evicted := |events| - |kept|;
      events := kept;
    }

    method CurrentAgentSequence(agent: string) returns (n: nat)
      ensures n == Counter(View().agentSequences, agent)
    {
      n := Counter(agentSequences, agent);
    }

    method UpdateEventFinalDecision(id: string, n: nat, d: Decision) returns (r: Result<(), SessionError>)
      modifies this`events
      ensures (View(), r) == Finalize(old(View()), id, n, d)
    {
      if id in tombstones {
        return Err(SessionTerminal);
      }
      if id !in sessions {
        return Err(SessionNotFound);
      }
      for i := 0 to |events|
        invariant events == old(events)
        invariant forall j :: 0 <= j < i ==> !(events[j].sessionId == id && events[j].sequence == n)
      {
        if events[i].sessionId == id && events[i].sequence == n {
          assert Find(events, id, n) == i;
          if events[i].finalDecision.Some? && events[i].finalDecision.value != d {
            return Err(AlreadyFinalized);
          }
          events := events[i := events[i].(finalDecision := Some(d))];
          return Ok(());
        }
      }
      r := Err(EventNotFound);
    }
  }
}

/** app/services/session_service.py: lifecycle and retention on top of the repository. */
module SessionServices {
  import opened Prelude
  import opened SessionStore

  /** `DetectionRetentionPolicy` */
  datatype Retention = Retention(window: Time, grace: Time)

  function Cutoff(policy: Retention, now: Time): Time {
    now - (policy.window + policy.grace)
  }

  function Pruned(s: Store, policy: Option<Retention>, now: Time): Store {
    if policy.None? then s else s.(events := Since(s.events, Cutoff(policy.value, now)))
  }

  /** `record_event` followed by `_prune_events` at the event's own moment. */
  function RecordAndPrune(s: Store, policy: Option<Retention>, e: Event): (Store, Result<Event, SessionError>) {
    var (t, r) := Record(s, e);
    if r.Err? then (s, r) else (Pruned(t, policy, r.value.timestamp), r)
  }

  /** `end_session`: idempotent for the owner, refused for anyone else. */
  function End(s: Store, id: string, agent: string, now: Time): (Store, Result<(), SessionError>) {
    if id in s.tombstones then
      (s, if s.tombstones[id].agentId != agent then Err(SessionBinding) else Ok(()))
    else if id !in s.sessions then (s, Err(SessionNotFound))
    else if s.sessions[id].agentId != agent then (s, Err(SessionBinding))
    else (Terminalize(s, id, Tombstone(id, agent, now, EXPLICIT_END)).0, Ok(()))
  }

  predicate Idle(s: Store, id: string, threshold: Time, now: Time) {
    id in s.sessions && now - s.sessions[id].lastActivityAt >= threshold
  }

  function IdleIn(s: Store, threshold: Time, now: Time): set<string> {
    set id | id in s.sessions && Idle(s, id, threshold, now) && id !in s.tombstones
  }

  /** `expire_idle_sessions`: every idle session gets its owner's tombstone. */
  function ExpireIdle(s: Store, threshold: Time, now: Time): (Store, Result<set<string>, SessionError>) {
    if threshold <= 0 then (s, Err(IdleThresholdNotPositive))
    else
      var idle := IdleIn(s, threshold, now);
      (s.(sessions := s.sessions - idle,
          tombstones := s.tombstones
            + map id | id in idle :: Tombstone(id, s.sessions[id].agentId, now, IDLE_TIMEOUT)), Ok(idle))
  }

  class SessionService {
    const repository: InMemorySessionRepository
    const policy: Option<Retention>

    constructor (repository: InMemorySessionRepository, policy: Option<Retention>)
      ensures this.repository == repository && this.policy == policy
    {
      this.repository, this.policy := repository, policy;
    }

    method RecordEvent(e: Event) returns (r: Result<Event, SessionError>)
      modifies repository
      ensures (repository.View(), r) == RecordAndPrune(old(repository.View()), policy, e)
    {
      r := repository.RecordEvent(e);
      if r.Ok? && policy.Some? {
        var evicted := repository.PruneEvents(Cutoff(policy.value, r.value.timestamp));
      }
    }

    method EndSession(id: string, agent: string, now: Time) returns (r: Result<(), SessionError>)
      modifies repository
      ensures (repository.View(), r) == End(old(repository.View()), id, agent, now)
    {
      if id in repository.tombstones {
        return if repository.tombstones[id].agentId != agent then Err(SessionBinding) else Ok(());
      }
      if id !in repository.sessions {
        return Err(SessionNotFound);
      }
      if repository.sessions[id].agentId != agent {
        return Err(SessionBinding);
      }
      var terminalized := repository.TerminalizeSession(id, Tombstone(id, agent, now, EXPLICIT_END));
      r := Ok(());
    }

    method ExpireIdleSessions(threshold: Time, now: Time) returns (r: Result<set<string>, SessionError>)
      modifies repository
      ensures (repository.View(), r) == ExpireIdle(old(repository.View()), threshold, now)
    {
      if threshold <= 0 {
        return Err(IdleThresholdNotPositive);
      }
      var listed := repository.sessions;
      var left := listed.Keys;
      var expired: set<string> := {};
      ghost var start := repository.View();
      while left != {}
        invariant left <= listed.Keys
        invariant expired == IdleIn(start, threshold, now) - left
        invariant repository.View() == start.(sessions := start.sessions - expired,
          tombstones := start.tombstones
            + map id | id in expired :: Tombstone(id, start.sessions[id].agentId, now, IDLE_TIMEOUT))
        decreases left
      {
        var id :| id in left;
        ghost var done := expired;
        if now - listed[id].lastActivityAt >= threshold {
          var terminalized := repository.TerminalizeSession(id, Tombstone(id, listed[id].agentId, now, IDLE_TIMEOUT));
          if terminalized {
            expired := expired + {id};
            assert start.sessions - done - {id} == start.sessions - expired;
          }
        }
        left := left - {id};
      }
      assert expired == IdleIn(start, threshold, now);
      r := Ok(expired);
    }
  }
}
