/** Runs of detection over the session store and the evidence store together:
    app/services/runtime_service.py:1147-1221 with app/services/enforcement_coordinator.py:86-123. */
module DetectionRuns {
  import opened Prelude
  import opened Findings
  import opened SessionStore
  import opened SessionServices
  import opened RiskProjection
  import opened Detection
  import Sessions = SessionRuns
  import Risk = RiskRuns

  datatype Settings = Settings(policy: Option<Retention>, window: Time)

  /** `denied` remembers the position of every denial ever recorded, pruned or not. */
  datatype World = World(
    sessions: SessionStore.Store,
    risk: Risk.World,
    generations: map<string, nat>,
    denied: map<string, set<nat>>)

  datatype Step =
    | SessionStep(step: Sessions.Step)
    | DistrustStep(agent: string)
    | AssessStep(agent: string)
    | EvaluateStep(event: Event, content: seq<Finding>, elapsed: nat, faults: set<nat>)
    | ReinstateStep(agent: string, elapsed: nat)

  function Denied(w: World, agent: string): set<nat> {
    if agent in w.denied then w.denied[agent] else {}
  }

  function Generation(w: World, agent: string): nat {
    Counter(w.generations, agent)
  }

  function EventMark(w: World, agent: string): nat {
    Risk.BaselineOf(w.risk, agent).agentEvents
  }

  /** A step of the session store, with denials remembered. */
  function Observe(w: World, settings: Settings, step: Sessions.Step): World {
    var recorded := if step.RecordStep? then SessionStore.Record(w.sessions, step.event).1 else Err(EventNotFound);
    w.(sessions := Sessions.Next(w.sessions, settings.policy, step),
       denied := if recorded.Ok? && recorded.value.decision == DENY
                 then w.denied[recorded.value.agentId :=
                        Denied(w, recorded.value.agentId) + {recorded.value.agentSequence}]
                 else w.denied)
  }

  function Query(w: World, settings: Settings, recorded: Event): HorizonQuery {
    QueryFor(recorded, settings.window, EventMark(w, recorded.agentId))
  }

  /** What detection reports for the event just recorded. */
  function Detected(w: World, settings: Settings, recorded: Event, now: Time): seq<Finding> {
    DetectFor(w.sessions.events, w.risk.store.log, recorded, settings.window, EventMark(w, recorded.agentId),
              Generation(w, recorded.agentId), now)
  }

  function Next(w: World, settings: Settings, step: Step): World {
    match step
    case SessionStep(step) => Observe(w, settings, step)
    case DistrustStep(agent) => w.(risk := Risk.Next(w.risk, Risk.Distrust(agent)))
    case AssessStep(agent) => w.(risk := Risk.Next(w.risk, Risk.Assess(agent)))
    case EvaluateStep(e, content, elapsed, faults) =>
      var v := Observe(w, settings, Sessions.RecordStep(e));
      var r := SessionStore.Record(w.sessions, e).1;
      if r.Err? then v
      else
        var detected := Detected(v, settings, r.value, w.risk.clock + elapsed);
        v.(risk := Risk.Next(w.risk, Risk.Accept(elapsed, content + detected, faults)))
    case ReinstateStep(agent, elapsed) =>
      w.(risk := Risk.Next(w.risk, Risk.Reinstate(agent, elapsed, Counter(w.sessions.agentSequences, agent))),
         generations := w.generations[agent := Generation(w, agent) + 1])
  }

  function Run(w: World, settings: Settings, steps: seq<Step>): World {
    if steps == [] then w else Next(Run(w, settings, steps[..|steps| - 1]), settings, steps[|steps| - 1])
  }

  function Start(clock: Time, vocabulary: set<string>): World {
    World(EMPTY_SESSIONS, Risk.Start(clock, vocabulary), map[], map[])
  }

  // ---- hypotheses on a run ---------------------------------------------------------------------

  predicate IsChargeTo(f: Finding, agent: string) {
    f.ruleName == EXCESSIVE_DENIALS && f.agentId == agent
  }

  predicate KeepsTo(e: Event, agent: string, session: string) {
    e.agentId == agent ==> e.sessionId == session
  }

  /** The agent uses one session, and content rules do not speak in the name of detection. */
  ghost predicate OneSessionStep(step: Step, agent: string, session: string) {
    match step
    case SessionStep(step) => step.RecordStep? ==> KeepsTo(step.event, agent, session)
    case EvaluateStep(e, content, _, _) =>
      KeepsTo(e, agent, session) && forall f :: f in content ==> !IsChargeTo(f, agent)
    case _ => true
  }

  ghost predicate OneSession(steps: seq<Step>, agent: string, session: string) {
    forall i :: 0 <= i < |steps| ==> OneSessionStep(steps[i], agent, session)
  }

  // ---- the charge account ------------------------------------------------------------------------

  /** What the charges of one agent are checked against. */
  datatype Account = Account(
    agent: string,
    session: string,
    denied: set<nat>,
    eventMark: nat,
    evidenceMark: nat,
    generation: nat)

  function AccountOf(w: World, agent: string, session: string): Account {
    Account(agent, session, Denied(w, agent), EventMark(w, agent),
            Risk.BaselineOf(w.risk, agent).evidence, Generation(w, agent))
  }

  ghost predicate Triple(ns: seq<nat>) {
    |ns| == 3 && ns[0] < ns[1] < ns[2]
  }

  /** A charge names three denials of its own lifecycle, under the identity they determine. */
  ghost predicate Entry(acc: Account, f: Finding) {
    && f.sessionId == acc.session && f.severity == MEDIUM
    && Triple(f.evidenceEvents)
    && (forall k :: 0 <= k < 3 ==> f.evidenceEvents[k] in acc.denied)
    && f.id == SessionFindingId(EXCESSIVE_DENIALS, acc.session, acc.agent, DENIAL_THRESHOLD,
                                f.evidenceEvents, f.recoveryGeneration)
    && f.recoveryGeneration <= acc.generation
    && (f.recoveryGeneration == acc.generation ==> acc.eventMark < f.evidenceEvents[0] && f.sequence > acc.evidenceMark)
    && (f.recoveryGeneration < acc.generation ==> f.evidenceEvents[2] <= acc.eventMark && f.sequence <= acc.evidenceMark)
  }

  ghost predicate Entries(acc: Account, log: seq<Finding>) {
    forall i :: 0 <= i < |log| && IsChargeTo(log[i], acc.agent) ==> Entry(acc, log[i])
  }

  ghost predicate Apart(agent: string, log: seq<Finding>) {
    forall i, j :: 0 <= i < j < |log| && IsChargeTo(log[i], agent) && IsChargeTo(log[j], agent)
                   ==> !Overlap(log[j].evidenceEvents, log[i].evidenceEvents)
  }

  ghost predicate Known(acc: Account, e: Event) {
    e.agentId == acc.agent ==> e.sessionId == acc.session && (e.decision == DENY ==> e.agentSequence in acc.denied)
  }

  ghost predicate EventsKnown(acc: Account, events: seq<Event>) {
    forall e :: e in events ==> Known(acc, e)
  }

  ghost predicate Balanced(w: World, agent: string, session: string) {
    var acc := AccountOf(w, agent, session);
    && Sessions.Sound(w.sessions) && Risk.Sound(w.risk)
    && EventsKnown(acc, w.sessions.events)
    && (forall n :: n in acc.denied ==> n <= Counter(w.sessions.agentSequences, agent))
    && acc.eventMark <= Counter(w.sessions.agentSequences, agent)
    && Entries(acc, w.risk.store.log)
    && Apart(agent, w.risk.store.log)
  }

  // ---- session steps --------------------------------------------------------------------------------

  /** Every stored event is an earlier record or the one just made. */
  lemma StepEvents(s: SessionStore.Store, policy: Option<Retention>, step: Sessions.Step, f: Event)
    requires f in Sessions.Next(s, policy, step).events
    ensures (exists e :: e in s.events && Sessions.SameRecord(e, f))
            || (step.RecordStep? && SessionStore.Record(s, step.event).1 == Ok(f))
  {
    if f in s.events {
      assert Sessions.SameRecord(f, f);
    } else {
      match step
      case RecordStep(e) =>
        var (t, r) := SessionStore.Record(s, e);
        if policy.Some? && r.Ok? {
          Sessions.SinceMembers(t.events, Cutoff(policy.value, r.value.timestamp));
        }
      case FinalizeStep(id, n, d) =>
        var k := Find(s.events, id, n);
        assert Sessions.SameRecord(s.events[k], f) && s.events[k] in s.events;
      case PruneStep(now) =>
        Sessions.SinceMembers(s.events, Cutoff(policy.value, now));
      case _ =>
    }
  }

  lemma ObserveBalanced(w: World, settings: Settings, step: Sessions.Step, agent: string, session: string)
    requires Balanced(w, agent, session) && OneSessionStep(SessionStep(step), agent, session)
    ensures Balanced(Observe(w, settings, step), agent, session)
  {
    hide Sessions.Sound, Risk.Sound, Sessions.Next, SessionStore.Record, Entry;
    var v := Observe(w, settings, step);
    var acc := AccountOf(v, agent, session);
    Sessions.StepSound(w.sessions, settings.policy, step);
    assert Sessions.Evolves(w.sessions, v.sessions);
    RecordPositions(w.sessions, settings.policy, step);
    forall f | f in v.sessions.events ensures Known(acc, f) {
      StepEvents(w.sessions, settings.policy, step, f);
    }
    EntriesWiden(AccountOf(w, agent, session), acc, w.risk.store.log);
  }

  lemma RecordPositions(s: SessionStore.Store, policy: Option<Retention>, step: Sessions.Step)
    ensures step.RecordStep? ==>
              var r := SessionStore.Record(s, step.event).1;
              r.Ok? ==> r.value == step.event.(sequence := r.value.sequence, agentSequence := r.value.agentSequence)
                        && r.value.agentSequence == Counter(Sessions.Next(s, policy, step).agentSequences, r.value.agentId)
  {
  }

  lemma EntriesWiden(acc: Account, wider: Account, log: seq<Finding>)
    requires Entries(acc, log)
    requires wider == acc.(denied := wider.denied) && acc.denied <= wider.denied
    ensures Entries(wider, log)
  {
  }

  // ---- evaluation -------------------------------------------------------------------------------------

  lemma {:induction false} DenialsInOrder(events: seq<Event>, agent: string, window: Time, at: Time)
    requires Sessions.EventsOrdered(events)
    requires forall e :: e in events ==> e.agentSequence > 0
    ensures RecordOrder(DenialsOf(events, agent, window, at))
  {
    if events != [] {
      var front, last := events[..|events| - 1], events[|events| - 1];
      assert events == front + [last];
      Sessions.OrderedLast(front, last);
      DenialsInOrder(front, agent, window, at);
      DenialsMembers(front, agent, window, at);
    }
  }

  /** The denials detection is handed for an event just recorded. */
  function HandedDenials(w: World, settings: Settings, recorded: Event): seq<Event> {
    DenialsOf(Eligible(w.sessions.events, Query(w, settings, recorded)), recorded.agentId, settings.window, recorded.timestamp)
  }

  /** They are the agent's own stored denials, in record order, all recorded after the stored
      boundary, and detection reports one crossing of them or none. */
  lemma HandedInOrder(w: World, settings: Settings, recorded: Event)
    requires Sessions.Sound(w.sessions)
    ensures var denials := HandedDenials(w, settings, recorded);
            && RecordOrder(denials)
            && (forall e :: e in denials ==> e in w.sessions.events && e.agentId == recorded.agentId && e.decision == DENY
                                             && e.agentSequence > EventMark(w, recorded.agentId))
            && forall now :: Detected(w, settings, recorded, now)
                             == if |denials| < DENIAL_THRESHOLD then []
                                else [Candidate(denials, Listed(w.risk.store.log, recorded.agentId, Some(recorded.sessionId)),
                                                recorded.agentId, Generation(w, recorded.agentId), now)]
  {
    hide Detect, Candidate, Eligible, DenialsOf, Matching, Sessions.Sound;
    var agent, q := recorded.agentId, Query(w, settings, recorded);
    var found := Eligible(w.sessions.events, q);
    Sessions.EligibleInRecordOrder(w.sessions, q);
    Sessions.MatchingMembers(w.sessions.events, q);
    SoundIsOrdered(w.sessions);
    Sessions.MatchingOrdered(w.sessions.events, q);
    DenialsMembers(found, agent, settings.window, recorded.timestamp);
    DenialsInOrder(found, agent, settings.window, recorded.timestamp);
    forall now ensures Detected(w, settings, recorded, now)
                       == if |HandedDenials(w, settings, recorded)| < DENIAL_THRESHOLD then []
                          else [Candidate(HandedDenials(w, settings, recorded),
                                          Listed(w.risk.store.log, agent, Some(recorded.sessionId)), agent,
                                          Generation(w, agent), now)]
    {
      DetectOneAgent(found, Listed(w.risk.store.log, agent, Some(recorded.sessionId)), agent, Generation(w, agent),
                     settings.window, recorded.timestamp, now);
    }
  }

  lemma SoundIsOrdered(s: SessionStore.Store)
    requires Sessions.Sound(s)
    ensures Sessions.EventsOrdered(s.events)
  {
  }

  /** For an agent keeping to one session they are remembered denials of that session. */
  lemma HorizonDenials(w: World, settings: Settings, recorded: Event, agent: string, session: string)
    requires Balanced(w, agent, session) && recorded.agentId == agent
    ensures forall e :: e in HandedDenials(w, settings, recorded) ==>
              e.sessionId == session && e.agentSequence in Denied(w, agent) && e.agentSequence > EventMark(w, agent)
    ensures RecordOrder(HandedDenials(w, settings, recorded))
  {
    hide HandedDenials, Entries, Apart, Risk.Sound, Sessions.Sound;
    HandedInOrder(w, settings, recorded);
    forall e | e in HandedDenials(w, settings, recorded)
      ensures e.sessionId == session && e.agentSequence in Denied(w, agent)
    {
      assert Known(AccountOf(w, agent, session), e);
    }
  }

  /** A crossing still in the window gives back its own identity. */
  lemma OpenCrossingKeepsIdentity(acc: Account, log: seq<Finding>, denials: seq<Event>, now: Time)
    requires Entries(acc, log) && denials != []
    requires denials[|denials| - 1].sessionId == acc.session
    requires PriorFor(Listed(log, acc.agent, Some(acc.session)), acc.agent, acc.generation, InWindow(denials)).Some?
    ensures HasId(log, Candidate(denials, Listed(log, acc.agent, Some(acc.session)), acc.agent, acc.generation, now).id)
  {
    hide SessionFindingId, FirstThree, Listed, PriorFor, InWindow;
    var priors := Listed(log, acc.agent, Some(acc.session));
    ListedMembers(log, acc.agent, Some(acc.session));
    PriorForMeaning(priors, acc.agent, acc.generation, InWindow(denials));
    var f := Candidate(denials, priors, acc.agent, acc.generation, now);
    var p :| p in priors && IsCrossing(p, acc.agent, acc.generation) && p.evidenceEvents == f.evidenceEvents;
    var i :| 0 <= i < |log| && log[i] == p;
    assert Entry(acc, log[i]);
  }

  /** A crossing made of the window's first three denials is apart from every stored one. */
  lemma FreshTripleIsApart(acc: Account, log: seq<Finding>, denials: seq<Event>)
    requires Entries(acc, log)
    requires RecordOrder(denials) && |denials| >= DENIAL_THRESHOLD
    requires forall e :: e in denials ==> e.agentSequence > acc.eventMark
    requires PriorFor(Listed(log, acc.agent, Some(acc.session)), acc.agent, acc.generation, InWindow(denials)).None?
    ensures forall i :: 0 <= i < |log| && IsChargeTo(log[i], acc.agent)
                        ==> !Overlap(FirstThree(denials), log[i].evidenceEvents)
  {
    hide FirstThree, Listed, PriorFor, SessionFindingId, InWindow;
    var priors := Listed(log, acc.agent, Some(acc.session));
    ListedMembers(log, acc.agent, Some(acc.session));
    PriorForMeaning(priors, acc.agent, acc.generation, InWindow(denials));
    FirstThreeInWindow(denials);
    var e := FirstThree(denials);
    forall k | 0 <= k < 3 ensures e[k] in InWindow(denials) && e[k] > acc.eventMark {
      assert denials[k] in denials;
    }
    forall i | 0 <= i < |log| && IsChargeTo(log[i], acc.agent)
      ensures !Overlap(e, log[i].evidenceEvents)
    {
      assert log[i] in log && Entry(acc, log[i]);
      assert log[i].recoveryGeneration == acc.generation ==> log[i] in priors;
      ApartFromEntry(acc, log[i], e, InWindow(denials));
    }
  }

  lemma ApartFromEntry(acc: Account, f: Finding, e: seq<nat>, numbers: set<nat>)
    requires Entry(acc, f) && IsChargeTo(f, acc.agent)
    requires f.recoveryGeneration == acc.generation ==> !Meets(f.evidenceEvents, numbers)
    requires forall k :: 0 <= k < |e| ==> e[k] in numbers && e[k] > acc.eventMark
    ensures !Overlap(e, f.evidenceEvents)
  {
    hide SessionFindingId;
    forall k, j | 0 <= k < |e| && 0 <= j < |f.evidenceEvents| ensures e[k] != f.evidenceEvents[j] {
      assert f.recoveryGeneration == acc.generation ==> f.evidenceEvents[j] !in numbers;
    }
  }

  /** A crossing whose identity is new names three denials no stored crossing has charged. */
  lemma NewCrossingIsApart(acc: Account, log: seq<Finding>, denials: seq<Event>, now: Time)
    requires Entries(acc, log)
    requires RecordOrder(denials) && |denials| >= DENIAL_THRESHOLD
    requires forall e :: e in denials ==> e.sessionId == acc.session && e.agentSequence in acc.denied
                                          && e.agentSequence > acc.eventMark
    requires !HasId(log, Candidate(denials, Listed(log, acc.agent, Some(acc.session)), acc.agent, acc.generation, now).id)
    ensures var f := Candidate(denials, Listed(log, acc.agent, Some(acc.session)), acc.agent, acc.generation, now);
            && (forall n: nat, at: Time :: n > acc.evidenceMark ==> Entry(acc, Stamp(f, n, at)))
            && forall i :: 0 <= i < |log| && IsChargeTo(log[i], acc.agent)
                           ==> !Overlap(f.evidenceEvents, log[i].evidenceEvents)
  {
    hide SessionFindingId, FirstThree, Listed, PriorFor, HasId, Entries, Overlap, InWindow;
    var priors := Listed(log, acc.agent, Some(acc.session));
    assert denials[|denials| - 1] in denials && denials[0] in denials && denials[1] in denials && denials[2] in denials;
    if PriorFor(priors, acc.agent, acc.generation, InWindow(denials)).Some? {
      OpenCrossingKeepsIdentity(acc, log, denials, now);
    } else {
      FirstThreeOfRecorded(denials);
      FreshTripleIsApart(acc, log, denials);
    }
  }

  lemma {:induction false} AcceptedAreCandidates(s: Findings.Store, candidates: seq<Finding>, now: Time)
    ensures forall g :: g in RecordNew(s, candidates, now).1
                        ==> exists c :: c in candidates && g == Stamp(c, g.sequence, now)
  {
    if candidates != [] {
      var front, f := candidates[..|candidates| - 1], candidates[|candidates| - 1];
      AcceptedAreCandidates(s, front, now);
      assert candidates == front + [f];
      var (t, accepted) := RecordNew(s, front, now);
      assert forall c :: c in front ==> c in candidates;
      if !HasId(t.log, f.id) {
        var g := Findings.Record(t, f, now).1;
        assert g == Stamp(f, g.sequence, now) && f in candidates;
      }
    }
  }

  lemma AppendUncharged(acc: Account, log: seq<Finding>, more: seq<Finding>)
    requires Entries(acc, log) && Apart(acc.agent, log)
    requires forall g :: g in more ==> !IsChargeTo(g, acc.agent)
    ensures Entries(acc, log + more) && Apart(acc.agent, log + more)
  {
    hide Entry, Overlap;
    var all := log + more;
    forall i | |log| <= i < |all| ensures !IsChargeTo(all[i], acc.agent) {
      assert all[i] in more;
    }
  }

  lemma AppendCharge(acc: Account, log: seq<Finding>, g: Finding)
    requires Entries(acc, log) && Apart(acc.agent, log)
    requires IsChargeTo(g, acc.agent) ==> Entry(acc, g)
    requires forall i :: 0 <= i < |log| && IsChargeTo(log[i], acc.agent) ==> !Overlap(g.evidenceEvents, log[i].evidenceEvents)
    ensures Entries(acc, log + [g]) && Apart(acc.agent, log + [g])
  {
    hide Entry, Overlap;
  }

  /** Detection speaks only of the agent whose event it is handed, and only of crossings. */
  lemma DetectedAreCharges(v: World, settings: Settings, recorded: Event, now: Time)
    requires Sessions.Sound(v.sessions)
    ensures forall f :: f in Detected(v, settings, recorded, now) ==> IsChargeTo(f, recorded.agentId)
  {
    hide HandedDenials, Detected, Sessions.Sound;
    HandedInOrder(v, settings, recorded);
  }

  /** Recording content leaves what detection is told about earlier crossings as it was. */
  lemma {:induction false} SamePriors(log: seq<Finding>, more: seq<Finding>, agent: string, session: string,
                                      generation: nat, numbers: set<nat>)
    requires forall g :: g in more ==> !IsChargeTo(g, agent)
    ensures PriorFor(Listed(log + more, agent, Some(session)), agent, generation, numbers)
            == PriorFor(Listed(log, agent, Some(session)), agent, generation, numbers)
  {
    if more == [] {
      assert log + more == log;
    } else {
      var front, g := more[..|more| - 1], more[|more| - 1];
      assert g in more;
      SamePriors(log, front, agent, session, generation, numbers);
      assert (log + more)[..|log + more| - 1] == log + front;
      var rest := Listed(log + front, agent, Some(session));
      assert (rest + [g])[..|rest|] == rest;
    }
  }

  lemma RecordNewSnoc(s: Findings.Store, content: seq<Finding>, c: Finding, now: Time)
    ensures var (t, accepted) := RecordNew(s, content, now);
            RecordNew(s, content + [c], now)
            == if HasId(t.log, c.id) then (t, accepted)
               else (Findings.Record(t, c, now).0, accepted + [Findings.Record(t, c, now).1])
  {
    assert (content + [c])[..|content|] == content;
  }

  /** The evidence store after one evaluation of the agent. */
  lemma EvaluationCharges(acc: Account, risk: Risk.World, now: Time, content: seq<Finding>, denials: seq<Event>)
    requires Risk.Sound(risk) && risk.clock <= now
    requires acc.evidenceMark <= Counter(risk.store.sequences, acc.agent)
    requires Entries(acc, risk.store.log) && Apart(acc.agent, risk.store.log)
    requires forall f :: f in content ==> !IsChargeTo(f, acc.agent)
    requires RecordOrder(denials)
    requires forall e :: e in denials ==> e.sessionId == acc.session && e.agentSequence in acc.denied
                                          && e.agentSequence > acc.eventMark
    ensures var detected := if |denials| < DENIAL_THRESHOLD then []
                            else [Candidate(denials, Listed(risk.store.log, acc.agent, Some(acc.session)), acc.agent, acc.generation, now)];
            var log := RecordNew(risk.store, content + detected, now).0.log;
            Entries(acc, log) && Apart(acc.agent, log)
  {
    hide Entries, Apart, Candidate, Listed, PriorFor, Entry, RecordNew, Risk.Contiguous;
    var (t, accepted) := RecordNew(risk.store, content, now);
    Risk.RecordNewAppends(risk.store, content, risk.clock, now);
    AcceptedAreCandidates(risk.store, content, now);
    AppendUncharged(acc, risk.store.log, accepted);
    if |denials| < DENIAL_THRESHOLD {
      assert content + [] == content;
    } else {
      var f := Candidate(denials, Listed(risk.store.log, acc.agent, Some(acc.session)), acc.agent, acc.generation, now);
      SameCandidate(acc, risk.store.log, accepted, denials, now);
      RecordNewSnoc(risk.store, content, f, now);
      if !HasId(t.log, f.id) {
        Risk.RecordFreshAppends(t, f, now);
        NewCrossingIsApart(acc, t.log, denials, now);
        RecordStamps(t, f, now);
        AppendCharge(acc, t.log, Findings.Record(t, f, now).1);
      }
    }
  }

  lemma RecordStamps(t: Findings.Store, f: Finding, now: Time)
    requires !HasId(t.log, f.id)
    ensures Findings.Record(t, f, now).1 == Stamp(f, Counter(t.sequences, f.agentId) + 1, now)
  {
  }

  lemma SameCandidate(acc: Account, log: seq<Finding>, more: seq<Finding>, denials: seq<Event>, now: Time)
    requires forall g :: g in more ==> !IsChargeTo(g, acc.agent)
    requires denials != []
    ensures var f := Candidate(denials, Listed(log, acc.agent, Some(acc.session)), acc.agent, acc.generation, now);
            && f == Candidate(denials, Listed(log + more, acc.agent, Some(acc.session)), acc.agent, acc.generation, now)
            && f.agentId == acc.agent
  {
    hide FirstThree, InWindow, SessionFindingId, Listed, PriorFor;
    SamePriors(log, more, acc.agent, acc.session, acc.generation, InWindow(denials));
  }

  lemma AcceptBalanced(v: World, u: World, agent: string, session: string)
    requires Balanced(v, agent, session)
    requires u.sessions == v.sessions && u.denied == v.denied && u.generations == v.generations
    requires u.risk.baselines == v.risk.baselines && Risk.Sound(u.risk)
    requires Entries(AccountOf(v, agent, session), u.risk.store.log) && Apart(agent, u.risk.store.log)
    ensures Balanced(u, agent, session)
  {
  }

  lemma EvaluateBalanced(w: World, settings: Settings, e: Event, content: seq<Finding>, elapsed: nat, faults: set<nat>,
                         agent: string, session: string)
    requires Balanced(w, agent, session)
    requires OneSessionStep(EvaluateStep(e, content, elapsed, faults), agent, session)
    ensures Balanced(Next(w, settings, EvaluateStep(e, content, elapsed, faults)), agent, session)
  {
    hide Sessions.Next, SessionStore.Record, Detected, HandedDenials, Entries, Apart, RecordNew, Risk.Contiguous, Risk.Grown,
         Candidate, Listed;
    var v := Observe(w, settings, Sessions.RecordStep(e));
    ObserveBalanced(w, settings, Sessions.RecordStep(e), agent, session);
    RecordPositions(w.sessions, settings.policy, Sessions.RecordStep(e));
    var r := SessionStore.Record(w.sessions, e).1;
    if r.Ok? {
      var now := w.risk.clock + elapsed;
      var detected := Detected(v, settings, r.value, now);
      var acc := AccountOf(v, agent, session);
      var u := Next(w, settings, EvaluateStep(e, content, elapsed, faults));
      Risk.StepKeepsSound(v.risk, Risk.Accept(elapsed, content + detected, faults));
      assert u.risk.store == RecordNew(v.risk.store, content + detected, now).0;
      assert Risk.BaselineSound(v.risk, agent);
      if e.agentId == agent {
        HorizonDenials(v, settings, r.value, agent, session);
        HandedInOrder(v, settings, r.value);
        EvaluationCharges(acc, v.risk, now, content, HandedDenials(v, settings, r.value));
      } else {
        DetectedAreCharges(v, settings, r.value, now);
        Risk.RecordNewAppends(v.risk.store, content + detected, v.risk.clock, now);
        AcceptedAreCandidates(v.risk.store, content + detected, now);
        AppendUncharged(acc, v.risk.store.log, RecordNew(v.risk.store, content + detected, now).1);
      }
      AcceptBalanced(v, u, agent, session);
    }
  }

  lemma ReinstateBalanced(w: World, settings: Settings, who: string, elapsed: nat, agent: string, session: string)
    requires Balanced(w, agent, session)
    ensures Balanced(Next(w, settings, ReinstateStep(who, elapsed)), agent, session)
  {
    hide Sessions.Sound, Risk.Sound, HighestBy, Apart, EventsKnown, SessionFindingId, CaptureBaseline, Entry;
    var u := Next(w, settings, ReinstateStep(who, elapsed));
    Risk.StepKeepsSound(w.risk, Risk.Reinstate(who, elapsed, Counter(w.sessions.agentSequences, who)));
    if who == agent {
      ReinstatedEntries(w, settings, elapsed, agent, session);
    } else {
      assert AccountOf(u, agent, session) == AccountOf(w, agent, session);
    }
    KnownSame(AccountOf(w, agent, session), AccountOf(u, agent, session), w.sessions.events);
  }

  lemma ReinstatedEntries(w: World, settings: Settings, elapsed: nat, agent: string, session: string)
    requires Balanced(w, agent, session)
    ensures Entries(AccountOf(Next(w, settings, ReinstateStep(agent, elapsed)), agent, session), w.risk.store.log)
  {
    hide Sessions.Sound, Risk.ProjectionSound, Risk.Contiguous, HighestBy, Apart, EventsKnown, SessionFindingId, CaptureBaseline;
    var u := Next(w, settings, ReinstateStep(agent, elapsed));
    Risk.CaptureIsAllocator(w.risk, agent, w.risk.clock + elapsed);
    var log := w.risk.store.log;
    forall i | 0 <= i < |log| && IsChargeTo(log[i], agent) ensures Entry(AccountOf(u, agent, session), log[i]) {
      assert Entry(AccountOf(w, agent, session), log[i]);
      assert log[i].sequence <= Counter(w.risk.store.sequences, agent);
    }
  }

  lemma KnownSame(acc: Account, other: Account, events: seq<Event>)
    requires EventsKnown(acc, events)
    requires other.agent == acc.agent && other.session == acc.session && other.denied == acc.denied
    ensures EventsKnown(other, events)
  {
    forall e | e in events ensures Known(other, e) {
      assert Known(acc, e);
    }
  }

  lemma StepBalanced(w: World, settings: Settings, step: Step, agent: string, session: string)
    requires Balanced(w, agent, session) && OneSessionStep(step, agent, session)
    ensures Balanced(Next(w, settings, step), agent, session)
  {
    match step
    case SessionStep(step) => ObserveBalanced(w, settings, step, agent, session);
    case EvaluateStep(e, content, elapsed, faults) =>
      EvaluateBalanced(w, settings, e, content, elapsed, faults, agent, session);
    case ReinstateStep(who, elapsed) => ReinstateBalanced(w, settings, who, elapsed, agent, session);
    case DistrustStep(who) => QuietBalanced(w, settings, step, Risk.Distrust(who), agent, session);
    case AssessStep(who) => QuietBalanced(w, settings, step, Risk.Assess(who), agent, session);
  }

  lemma QuietBalanced(w: World, settings: Settings, step: Step, quiet: Risk.Step, agent: string, session: string)
    requires Balanced(w, agent, session)
    requires quiet.Distrust? || quiet.Assess?
    requires Next(w, settings, step) == w.(risk := Risk.Next(w.risk, quiet))
    ensures Balanced(Next(w, settings, step), agent, session)
  {
    hide Risk.Sound, Rebuild, Risk.OfAgent;
    Risk.StepKeepsSound(w.risk, quiet);
    AcceptBalanced(w, Next(w, settings, step), agent, session);
  }

  lemma StartBalanced(clock: Time, vocabulary: set<string>, agent: string, session: string)
    ensures Balanced(Start(clock, vocabulary), agent, session)
  {
    Risk.ProjectionEquivalence(clock, vocabulary, [], agent);
    Sessions.EmptySound();
  }

  lemma {:induction false} RunBalanced(clock: Time, vocabulary: set<string>, settings: Settings, steps: seq<Step>,
                                       agent: string, session: string)
    requires OneSession(steps, agent, session)
    ensures Balanced(Run(Start(clock, vocabulary), settings, steps), agent, session)
  {
    hide Balanced, Next, OneSessionStep;
    if steps == [] {
      StartBalanced(clock, vocabulary, agent, session);
    } else {
      RunBalanced(clock, vocabulary, settings, steps[..|steps| - 1], agent, session);
      StepBalanced(Run(Start(clock, vocabulary), settings, steps[..|steps| - 1]), settings, steps[|steps| - 1], agent, session);
    }
  }

  // ---- counting ------------------------------------------------------------------------------------------

  function Charges(log: seq<Finding>, agent: string): seq<Finding> {
    if log == [] then []
    else
      var rest := Charges(log[..|log| - 1], agent);
      var f := log[|log| - 1];
      if IsChargeTo(f, agent) then rest + [f] else rest
  }

  function Evidence(fs: seq<Finding>): set<nat> {
    set i, k | 0 <= i < |fs| && 0 <= k < |fs[i].evidenceEvents| :: fs[i].evidenceEvents[k]
  }

  ghost predicate Triples(fs: seq<Finding>) {
    forall i :: 0 <= i < |fs| ==> Triple(fs[i].evidenceEvents)
  }

  ghost predicate AllApart(fs: seq<Finding>) {
    forall i, j :: 0 <= i < j < |fs| ==> !Overlap(fs[j].evidenceEvents, fs[i].evidenceEvents)
  }

  lemma EvidenceApart(front: seq<Finding>, f: Finding)
    requires forall i :: 0 <= i < |front| ==> !Overlap(f.evidenceEvents, front[i].evidenceEvents)
    ensures forall n :: n in f.evidenceEvents ==> n !in Evidence(front)
  {
  }

  /** Disjoint triples: three numbers for every finding. */
  lemma {:induction false} ThreeEach(fs: seq<Finding>)
    requires Triples(fs) && AllApart(fs)
    ensures |Evidence(fs)| == 3 * |fs|
  {
    hide Overlap, Evidence;
    if fs == [] {
      assert Evidence(fs) == {} by { NoEvidence(); }
    } else {
      var front, f := fs[..|fs| - 1], fs[|fs| - 1];
      ThreeEach(front);
      EvidenceSnoc(front, f);
      EvidenceApart(front, f);
      assert fs == front + [f];
      var ns := f.evidenceEvents;
      var triple := {ns[0], ns[1], ns[2]};
      assert ns[0] in ns && ns[1] in ns && ns[2] in ns;
      assert |triple| == 3;
      assert Evidence(front) !! triple;
    }
  }

  lemma NoEvidence()
    ensures Evidence([]) == {}
  {
  }

  lemma EvidenceSnoc(front: seq<Finding>, f: Finding)
    requires Triple(f.evidenceEvents)
    ensures Evidence(front + [f]) == Evidence(front) + {f.evidenceEvents[0], f.evidenceEvents[1], f.evidenceEvents[2]}
  {
    var fs, ns := front + [f], f.evidenceEvents;
    forall n ensures n in Evidence(fs) <==> n in Evidence(front) + {ns[0], ns[1], ns[2]} {
      if n in Evidence(front) {
        var i, k :| 0 <= i < |front| && 0 <= k < |front[i].evidenceEvents| && front[i].evidenceEvents[k] == n;
        assert fs[i].evidenceEvents[k] == n;
      }
      assert fs[|front|].evidenceEvents == ns;
    }
  }

  lemma {:induction false} ChargesMembers(log: seq<Finding>, agent: string)
    ensures forall f :: f in Charges(log, agent) <==> f in log && IsChargeTo(f, agent)
  {
    hide IsChargeTo;
    if log != [] {
      ChargesMembers(log[..|log| - 1], agent);
      assert log == log[..|log| - 1] + [log[|log| - 1]];
    }
  }

  lemma {:induction false} ChargesApart(log: seq<Finding>, agent: string)
    requires Apart(agent, log)
    ensures AllApart(Charges(log, agent))
  {
    hide Overlap, IsChargeTo;
    if log != [] {
      var front, last := log[..|log| - 1], log[|log| - 1];
      ChargesApart(front, agent);
      ChargesMembers(front, agent);
      var rest := Charges(front, agent);
      forall i | 0 <= i < |rest| && IsChargeTo(last, agent) ensures !Overlap(last.evidenceEvents, rest[i].evidenceEvents) {
        assert rest[i] in rest;
        var j :| 0 <= j < |front| && front[j] == rest[i];
        assert log[j] == rest[i];
      }
    }
  }

  lemma EvidenceDenied(acc: Account, fs: seq<Finding>)
    requires forall f :: f in fs ==> Entry(acc, f)
    ensures Triples(fs) && Evidence(fs) <= acc.denied
  {
    hide SessionFindingId;
    forall i | 0 <= i < |fs| ensures Entry(acc, fs[i]) {
      assert fs[i] in fs;
    }
  }

  /** Denials are charged once. In any run where the agent keeps to one session, every
      EXCESSIVE_DENIALS finding names three of its recorded denials, no denial is named by two
      of them, within or across recovery generations, and so there are at least three denials
      to a finding. */
  lemma DenialsChargedOnce(clock: Time, vocabulary: set<string>, settings: Settings, steps: seq<Step>,
                           agent: string, session: string)
    requires OneSession(steps, agent, session)
    ensures var w := Run(Start(clock, vocabulary), settings, steps);
            var charges := Charges(w.risk.store.log, agent);
            && (forall f :: f in charges <==> f in w.risk.store.log && IsChargeTo(f, agent))
            && Triples(charges) && AllApart(charges)
            && Evidence(charges) <= Denied(w, agent)
            && 3 * |charges| <= |Denied(w, agent)|
  {
    hide Run, AllApart, Overlap, Entry, Sessions.Sound, Risk.Sound, Evidence, EventsKnown;
    RunBalanced(clock, vocabulary, settings, steps, agent, session);
    var w := Run(Start(clock, vocabulary), settings, steps);
    ChargesMembers(w.risk.store.log, agent);
    ChargesApart(w.risk.store.log, agent);
    var charges := Charges(w.risk.store.log, agent);
    EvidenceDenied(AccountOf(w, agent, session), charges);
    ThreeEach(charges);
    SubsetSize(Evidence(charges), Denied(w, agent));
  }

  // ---- what it takes to become CRITICAL -------------------------------------------------------------------

  /** No content finding is ever recorded for the agent. */
  ghost predicate NoContentFor(steps: seq<Step>, agent: string) {
    forall i :: 0 <= i < |steps| && steps[i].EvaluateStep? ==> forall f :: f in steps[i].content ==> f.agentId != agent
  }

  ghost predicate OnlyCharges(log: seq<Finding>, agent: string) {
    forall f :: f in log && f.agentId == agent ==> IsChargeTo(f, agent)
  }

  lemma StepOnlyCharges(w: World, settings: Settings, step: Step, agent: string)
    requires Sessions.Sound(w.sessions) && Risk.Sound(w.risk)
    requires OnlyCharges(w.risk.store.log, agent)
    requires step.EvaluateStep? ==> forall f :: f in step.content ==> f.agentId != agent
    ensures OnlyCharges(Next(w, settings, step).risk.store.log, agent)
  {
    hide Sessions.Sound, Sessions.Next, SessionStore.Record, Detected, RecordNew, Risk.Grown, Risk.Contiguous;
    if step.EvaluateStep? {
      var v := Observe(w, settings, Sessions.RecordStep(step.event));
      var r := SessionStore.Record(w.sessions, step.event).1;
      Sessions.StepSound(w.sessions, settings.policy, Sessions.RecordStep(step.event));
      RecordPositions(w.sessions, settings.policy, Sessions.RecordStep(step.event));
      if r.Ok? {
        var now := w.risk.clock + step.elapsed;
        var candidates := step.content + Detected(v, settings, r.value, now);
        DetectedAreCharges(v, settings, r.value, now);
        Risk.RecordNewAppends(w.risk.store, candidates, w.risk.clock, now);
        AcceptedAreCandidates(w.risk.store, candidates, now);
      }
    }
  }

  lemma {:induction false} RunOnlyCharges(clock: Time, vocabulary: set<string>, settings: Settings, steps: seq<Step>,
                                          agent: string, session: string)
    requires OneSession(steps, agent, session) && NoContentFor(steps, agent)
    ensures OnlyCharges(Run(Start(clock, vocabulary), settings, steps).risk.store.log, agent)
  {
    hide OneSessionStep, Next;
    if steps != [] {
      var front := steps[..|steps| - 1];
      RunOnlyCharges(clock, vocabulary, settings, front, agent, session);
      RunBalanced(clock, vocabulary, settings, front, agent, session);
      StepOnlyCharges(Run(Start(clock, vocabulary), settings, front), settings, steps[|steps| - 1], agent);
    }
  }

  lemma {:induction false} PostBaselineApart(log: seq<Finding>, agent: string, mark: Watermark)
    requires Apart(agent, log) && OnlyCharges(log, agent)
    ensures AllApart(PostBaseline(log, agent, mark))
  {
    hide Overlap, AcceptedTime;
    if log != [] {
      var front, last := log[..|log| - 1], log[|log| - 1];
      assert log == front + [last];
      PostBaselineApart(front, agent, mark);
      Risk.PostBaselineMembers(front, agent, mark);
      var rest := PostBaseline(front, agent, mark);
      forall i | 0 <= i < |rest| && last.agentId == agent ensures !Overlap(last.evidenceEvents, rest[i].evidenceEvents) {
        assert rest[i] in rest;
        var j :| 0 <= j < |front| && front[j] == rest[i];
        assert log[j] == rest[i] && log[j] in log && last in log;
      }
    }
  }

  lemma {:induction false} MediumScore(fs: seq<Finding>)
    requires forall f :: f in fs ==> f.severity == MEDIUM
    ensures ScoreFindings(ActiveOnly(fs)) <= 25 * |fs|
  {
    if fs != [] {
      var front, f := fs[..|fs| - 1], fs[|fs| - 1];
      assert fs == front + [f];
      MediumScore(front);
      var rest := ActiveOnly(front);
      assert (rest + [f])[..|rest|] == rest;
    }
  }

  /** The agent's denials since its last reinstatement. */
  function DeniedSince(w: World, agent: string): set<nat> {
    set n | n in Denied(w, agent) && n > EventMark(w, agent)
  }

  lemma CurrentCharges(w: World, agent: string, session: string)
    requires Balanced(w, agent, session) && OnlyCharges(w.risk.store.log, agent)
    ensures var post := PostBaseline(w.risk.store.log, agent, Risk.BaselineOf(w.risk, agent));
            && Triples(post) && (forall f :: f in post ==> f.severity == MEDIUM)
            && Evidence(post) <= DeniedSince(w, agent)
  {
    hide Sessions.Sound, Risk.Sound, PostBaseline, SessionFindingId;
    var acc := AccountOf(w, agent, session);
    var log, mark := w.risk.store.log, Risk.BaselineOf(w.risk, agent);
    var post := PostBaseline(log, agent, mark);
    Risk.PostBaselineMembers(log, agent, mark);
    forall f | f in post ensures Entry(acc, f) && f.recoveryGeneration == acc.generation {
      assert f in log && IsChargeTo(f, agent);
      var i :| 0 <= i < |log| && log[i] == f;
      assert Entry(acc, log[i]);
    }
    EvidenceDenied(acc, post);
    forall n | n in Evidence(post) ensures n > EventMark(w, agent) {
      var i, k :| 0 <= i < |post| && 0 <= k < |post[i].evidenceEvents| && post[i].evidenceEvents[k] == n;
      assert post[i] in post;
    }
  }

  /** Without content findings the posture the runtime acts on is paid for in denials: three
      since the last reinstatement for every 25 points, hence twelve before it is CRITICAL. */
  lemma CriticalNeedsTwelveDenials(clock: Time, vocabulary: set<string>, settings: Settings, steps: seq<Step>,
                                   agent: string, session: string)
    requires OneSession(steps, agent, session) && NoContentFor(steps, agent)
    ensures var w := Run(Start(clock, vocabulary), settings, steps);
            var posture := Risk.Assessed(w.risk, agent);
            && 3 * posture.score <= 25 * |DeniedSince(w, agent)|
            && (posture.level == CriticalRisk ==> |DeniedSince(w, agent)| >= 12)
  {
    hide Run, AllApart, Triples, Evidence, PostBaseline, Risk.Sound, TallyOf, TallyScore, DeniedSince, Risk.Assessed;
    RunBalanced(clock, vocabulary, settings, steps, agent, session);
    RunOnlyCharges(clock, vocabulary, settings, steps, agent, session);
    var w := Run(Start(clock, vocabulary), settings, steps);
    var log, mark := w.risk.store.log, Risk.BaselineOf(w.risk, agent);
    var post := PostBaseline(log, agent, mark);
    Risk.AssessedIsRebuild(w.risk, agent);
    CurrentCharges(w, agent, session);
    PostBaselineApart(log, agent, mark);
    ThreeEach(post);
    SubsetSize(Evidence(post), DeniedSince(w, agent));
    TallyScoreIsFindingScore(post, w.risk.vocabulary);
    MediumScore(post);
  }

  // ---- beyond one session -----------------------------------------------------------------------------------

  /** Names hold no separator, and content rules neither speak in the name of detection nor bear
      its identifiers. */
  ghost predicate SeparableStep(step: Step) {
    match step
    case SessionStep(step) => step.RecordStep? ==> Separable(step.event.sessionId, step.event.agentId)
    case EvaluateStep(e, content, _, _) =>
      Separable(e.sessionId, e.agentId)
      && forall f :: f in content ==> f.ruleName != EXCESSIVE_DENIALS && !IsCrossingId(f.id)
    case _ => true
  }

  ghost predicate SeparableRun(steps: seq<Step>) {
    forall i :: 0 <= i < |steps| ==> SeparableStep(steps[i])
  }

  ghost predicate Named(w: World) {
    && Sessions.Sound(w.sessions) && Risk.Sound(w.risk)
    && (forall e :: e in w.sessions.events ==> Separable(e.sessionId, e.agentId))
    && (forall p :: p in w.risk.store.log ==> WellNamed(p))
  }

  lemma ObserveNamed(w: World, settings: Settings, step: Sessions.Step)
    requires Named(w) && SeparableStep(SessionStep(step))
    ensures Named(Observe(w, settings, step))
  {
    hide Sessions.Sound, Risk.Sound, Sessions.Next, SessionStore.Record, WellNamed;
    var v := Observe(w, settings, step);
    Sessions.StepSound(w.sessions, settings.policy, step);
    RecordPositions(w.sessions, settings.policy, step);
    forall f | f in v.sessions.events ensures Separable(f.sessionId, f.agentId) {
      StepEvents(w.sessions, settings.policy, step, f);
    }
  }

  lemma DetectedNamed(v: World, settings: Settings, recorded: Event, now: Time)
    requires Named(v) && Separable(recorded.sessionId, recorded.agentId)
    ensures forall f :: f in Detected(v, settings, recorded, now) ==> WellNamed(f)
  {
    hide Detected, HandedDenials, SessionFindingId, CrossingEvidence, Sessions.Sound, Risk.Sound;
    HandedInOrder(v, settings, recorded);
    var denials := HandedDenials(v, settings, recorded);
    if |denials| >= DENIAL_THRESHOLD {
      assert denials[|denials| - 1] in denials;
    }
  }

  lemma StepNamed(w: World, settings: Settings, step: Step)
    requires Named(w) && SeparableStep(step)
    ensures Named(Next(w, settings, step))
  {
    hide Sessions.Sound, Risk.Sound, SessionStore.Record, Observe, Detected, RecordNew, Risk.OfAgent, Rebuild, IsCrossingId,
         SessionFindingId, HighestBy, Sessions.Next;
    match step
    case SessionStep(step) => ObserveNamed(w, settings, step);
    case DistrustStep(agent) => Risk.StepKeepsSound(w.risk, Risk.Distrust(agent));
    case AssessStep(agent) => Risk.StepKeepsSound(w.risk, Risk.Assess(agent));
    case ReinstateStep(agent, elapsed) =>
      Risk.StepKeepsSound(w.risk, Risk.Reinstate(agent, elapsed, Counter(w.sessions.agentSequences, agent)));
    case EvaluateStep(e, content, elapsed, faults) => EvaluateNamed(w, settings, e, content, elapsed, faults);
  }

  lemma EvaluateNamed(w: World, settings: Settings, e: Event, content: seq<Finding>, elapsed: nat, faults: set<nat>)
    requires Named(w) && SeparableStep(EvaluateStep(e, content, elapsed, faults))
    ensures Named(Next(w, settings, EvaluateStep(e, content, elapsed, faults)))
  {
    hide Sessions.Sound, Risk.Sound, SessionStore.Record, Detected, RecordNew, IsCrossingId, SessionFindingId, Sessions.Next;
    ObserveNamed(w, settings, Sessions.RecordStep(e));
    RecordPositions(w.sessions, settings.policy, Sessions.RecordStep(e));
    var v := Observe(w, settings, Sessions.RecordStep(e));
    var r := SessionStore.Record(w.sessions, e).1;
    if r.Ok? {
      var now := w.risk.clock + elapsed;
      var candidates := content + Detected(v, settings, r.value, now);
      DetectedNamed(v, settings, r.value, now);
      Risk.StepKeepsSound(v.risk, Risk.Accept(elapsed, candidates, faults));
      RiskIsGrown(v.risk);
      Risk.RecordNewAppends(v.risk.store, candidates, v.risk.clock, now);
      AcceptedAreCandidates(v.risk.store, candidates, now);
      var (t, accepted) := RecordNew(v.risk.store, candidates, now);
      forall p | p in t.log ensures WellNamed(p) {
        if p in accepted {
          var c :| c in candidates && p == Stamp(c, p.sequence, now);
          assert WellNamed(c);
        }
      }
    }
  }

  lemma RiskIsGrown(w: Risk.World)
    requires Risk.Sound(w)
    ensures Risk.Grown(w.store, w.clock)
  {
  }

  lemma {:induction false} RunNamed(clock: Time, vocabulary: set<string>, settings: Settings, steps: seq<Step>)
    requires SeparableRun(steps)
    ensures Named(Run(Start(clock, vocabulary), settings, steps))
  {
    hide Named, Next, SeparableStep;
    if steps == [] {
      StartNamed(clock, vocabulary);
    } else {
      RunNamed(clock, vocabulary, settings, steps[..|steps| - 1]);
      StepNamed(Run(Start(clock, vocabulary), settings, steps[..|steps| - 1]), settings, steps[|steps| - 1]);
    }
  }

  lemma StartNamed(clock: Time, vocabulary: set<string>)
    ensures Named(Start(clock, vocabulary))
  {
    StartBalanced(clock, vocabulary, "", "");
  }

  /** When a denial is charged again, in any run and any number of sessions. At a reachable state
      an event is recorded and detection is handed three denials or more: the crossing it reports
      is new and shares evidence with one already charged in the agent's lifecycle exactly when it
      is not stored under the last denial's session, and either a crossing of the requesting session
      still has evidence in the window or the window's first three are partly charged under another. */
  lemma ReachableRechargesIff(clock: Time, vocabulary: set<string>, settings: Settings, steps: seq<Step>, e: Event, now: Time)
    requires SeparableRun(steps) && Separable(e.sessionId, e.agentId)
    requires var w := Run(Start(clock, vocabulary), settings, steps);
             var r := SessionStore.Record(w.sessions, e).1;
             r.Ok? && |HandedDenials(Observe(w, settings, Sessions.RecordStep(e)), settings, r.value)| >= DENIAL_THRESHOLD
    ensures var w := Run(Start(clock, vocabulary), settings, steps);
            var v := Observe(w, settings, Sessions.RecordStep(e));
            var denials := HandedDenials(v, settings, SessionStore.Record(w.sessions, e).1.value);
            var log, agent, generation := w.risk.store.log, e.agentId, Generation(w, e.agentId);
            var priors := Listed(log, agent, Some(e.sessionId));
            var f := Candidate(denials, priors, agent, generation, now);
            && Detected(v, settings, SessionStore.Record(w.sessions, e).1.value, now) == [f]
            && (!HasId(log, f.id) && Charged(log, agent, generation, f.evidenceEvents)
                <==>
                && !NamedAlready(log, denials[|denials| - 1].sessionId, agent, generation,
                                 CrossingEvidence(denials, priors, agent, generation))
                && (StillOpen(log, e.sessionId, agent, generation, InWindow(denials))
                    || ChargedElsewhere(log, e.sessionId, agent, generation, FirstThree(denials))))
  {
    hide Run, HandedDenials, Candidate, CrossingEvidence, FirstThree, InWindow, Charged, StillOpen, ChargedElsewhere, NamedAlready,
         SessionStore.Record, Sessions.Next, Detected, Sessions.Sound, Risk.Sound, WellNamed, FaithfulIds, HasId;
    RunNamed(clock, vocabulary, settings, steps);
    var w := Run(Start(clock, vocabulary), settings, steps);
    ObserveNamed(w, settings, Sessions.RecordStep(e));
    RecordPositions(w.sessions, settings.policy, Sessions.RecordStep(e));
    var v := Observe(w, settings, Sessions.RecordStep(e));
    var recorded := SessionStore.Record(w.sessions, e).1.value;
    HandedInOrder(v, settings, recorded);
    var denials := HandedDenials(v, settings, recorded);
    var last := denials[|denials| - 1];
    assert last in denials && last in v.sessions.events;
    WellNamedIsFaithful(w.risk.store.log, last.sessionId, e.agentId);
    RechargesIff(denials, w.risk.store.log, e.sessionId, e.agentId, Generation(w, e.agentId), now);
  }

  // A run in which three denials are charged in session s and charged again by a fourth in t.

  function Denial(agent: string, session: string, at: Time): Event {
    Event(session, agent, "tool", None, DENY, None, 0, 0, at)
  }

  /** The n-th denial, as stored: the first three in session s, the fourth in t. */
  function StoredDenial(agent: string, s: string, t: string, n: nat, at: Time): Event {
    if n <= 3 then Denial(agent, s, at).(sequence := n, agentSequence := n)
    else Denial(agent, t, at).(sequence := 1, agentSequence := n)
  }

  function StoredDenials(agent: string, s: string, t: string, n: nat, at: Time): seq<Event> {
    seq(n, i requires 0 <= i < n => StoredDenial(agent, s, t, i + 1, at))
  }

  /** The stores after n denials, with the crossings recorded so far. */
  ghost predicate Scene(w: World, agent: string, s: string, t: string, n: nat, at: Time, log: seq<Finding>) {
    && s != t && n <= 4
    && Sessions.Sound(w.sessions)
    && w.sessions.tombstones == map[] && s in w.sessions.sessions && t in w.sessions.sessions
    && w.sessions.sessions[s].agentId == agent && w.sessions.sessions[t].agentId == agent
    && w.sessions.events == StoredDenials(agent, s, t, n, at)
    && Counter(w.sessions.agentSequences, agent) == n
    && Counter(w.sessions.sessionSequences, s) == (if n <= 3 then n else 3)
    && Counter(w.sessions.sessionSequences, t) == (if n <= 3 then 0 else 1)
    && w.risk.baselines == map[] && w.generations == map[]
    && w.risk.store.log == log && Counter(w.risk.store.sequences, agent) == |log|
  }

  function SessionAt(s: string, t: string, n: nat): string {
    if n <= 3 then s else t
  }

  lemma DenialsGrow(agent: string, s: string, t: string, n: nat, at: Time)
    ensures StoredDenials(agent, s, t, n, at) + [StoredDenial(agent, s, t, n + 1, at)] == StoredDenials(agent, s, t, n + 1, at)
  {
  }

  lemma SceneRecords(w: World, settings: Settings, agent: string, s: string, t: string, n: nat, at: Time, log: seq<Finding>)
    requires Scene(w, agent, s, t, n, at, log) && n < 4 && settings.policy.None?
    ensures var step := Sessions.RecordStep(Denial(agent, SessionAt(s, t, n + 1), at));
            var v := Observe(w, settings, step);
            && Scene(v, agent, s, t, n + 1, at, log) && v.risk == w.risk
            && SessionStore.Record(w.sessions, step.event).1 == Ok(StoredDenial(agent, s, t, n + 1, at))
  {
    hide Sessions.Sound, StoredDenials;
    var step := Sessions.RecordStep(Denial(agent, SessionAt(s, t, n + 1), at));
    Sessions.StepSound(w.sessions, settings.policy, step);
    var v := Observe(w, settings, step);
    DenialsGrow(agent, s, t, n, at);
    assert v.sessions.events == StoredDenials(agent, s, t, n, at) + [StoredDenial(agent, s, t, n + 1, at)];
  }

  lemma {:induction false} AllMatch(events: seq<Event>, q: HorizonQuery)
    requires forall e :: e in events ==> Matches(e, q)
    ensures Matching(events, q) == events
  {
    if events != [] {
      assert events == events[..|events| - 1] + [events[|events| - 1]];
      AllMatch(events[..|events| - 1], q);
    }
  }

  lemma {:induction false} AllDenied(events: seq<Event>, agent: string, window: Time, at: Time)
    requires forall e :: e in events ==> e.agentId == agent && DeniedIn(e, window, at)
    ensures DenialsOf(events, agent, window, at) == events
  {
    if events != [] {
      assert events == events[..|events| - 1] + [events[|events| - 1]];
      AllDenied(events[..|events| - 1], agent, window, at);
    }
  }

  /** Every denial of the scene is handed to detection. */
  lemma SceneHandsAll(v: World, settings: Settings, agent: string, s: string, t: string, n: nat, at: Time, log: seq<Finding>)
    requires Scene(v, agent, s, t, n, at, log) && 0 < n && settings.window >= 0
    ensures HandedDenials(v, settings, StoredDenial(agent, s, t, n, at)) == StoredDenials(agent, s, t, n, at)
  {
    hide Sessions.Sound, Eligible, Matching;
    var q := Query(v, settings, StoredDenial(agent, s, t, n, at));
    Sessions.EligibleInRecordOrder(v.sessions, q);
    AllMatch(v.sessions.events, q);
    AllDenied(v.sessions.events, agent, settings.window, at);
  }

  /** The crossing reported at the third and at the fourth denial. */
  function Crossing(agent: string, session: string, at: Time): Finding {
    Finding(SessionFindingId(EXCESSIVE_DENIALS, session, agent, DENIAL_THRESHOLD, [1, 2, 3], 0), session, agent,
            EXCESSIVE_DENIALS, EXCESSIVE_DENIALS, MEDIUM, "UNKNOWN", OPEN, at, None, [1, 2, 3], 0, UNASSIGNED)
  }

  lemma FirstThreeNumbered(denials: seq<Event>)
    requires |denials| >= DENIAL_THRESHOLD
    requires forall k :: 0 <= k < |denials| ==> denials[k].agentSequence == k + 1
    ensures FirstThree(denials) == [1, 2, 3]
  {
    FirstThreeInWindow(denials);
  }

  lemma NoPriorListed(log: seq<Finding>, agent: string, session: string)
    requires forall f :: f in log ==> f.sessionId != session
    ensures Listed(log, agent, Some(session)) == []
  {
    ListedMembers(log, agent, Some(session));
    if Listed(log, agent, Some(session)) != [] {
      assert Listed(log, agent, Some(session))[0] in Listed(log, agent, Some(session));
    }
  }

  /** With no earlier crossing of the session listed, the first three are reported. */
  lemma SceneReports(v: World, settings: Settings, agent: string, s: string, t: string, n: nat, at: Time, log: seq<Finding>, now: Time)
    requires Scene(v, agent, s, t, n, at, log) && 0 < n && settings.window >= 0
    requires forall f :: f in log ==> f.sessionId != SessionAt(s, t, n)
    ensures Detected(v, settings, StoredDenial(agent, s, t, n, at), now)
            == if n < 3 then [] else [Crossing(agent, SessionAt(s, t, n), now)]
  {
    HandedInOrder(v, settings, StoredDenial(agent, s, t, n, at));
    SceneHandsAll(v, settings, agent, s, t, n, at, log);
    NoPriorListed(log, agent, SessionAt(s, t, n));
    hide Sessions.Sound, HandedDenials, Detected, Candidate, StoredDenials, Listed;
    if n >= 3 {
      SceneCandidate(agent, s, t, n, at, now);
    }
  }

  lemma SceneCandidate(agent: string, s: string, t: string, n: nat, at: Time, now: Time)
    requires 3 <= n <= 4
    ensures Candidate(StoredDenials(agent, s, t, n, at), [], agent, 0, now) == Crossing(agent, SessionAt(s, t, n), now)
  {
    hide FirstThree, InWindow, SessionFindingId;
    FirstThreeNumbered(StoredDenials(agent, s, t, n, at));
  }

  lemma SceneEvaluates(w: World, settings: Settings, agent: string, s: string, t: string, n: nat, at: Time, log: seq<Finding>)
    requires Scene(w, agent, s, t, n, at, log) && n < 4 && settings.policy.None? && settings.window >= 0
    requires forall f :: f in log ==> f.sessionId != SessionAt(s, t, n + 1)
    requires !HasId(log, Crossing(agent, SessionAt(s, t, n + 1), w.risk.clock).id)
    ensures var u := Next(w, settings, EvaluateStep(Denial(agent, SessionAt(s, t, n + 1), at), [], 0, {}));
            var more := if n + 1 < 3 then []
                        else [Stamp(Crossing(agent, SessionAt(s, t, n + 1), w.risk.clock), |log| + 1, w.risk.clock)];
            Scene(u, agent, s, t, n + 1, at, log + more) && u.risk.clock == w.risk.clock
  {
    hide Scene, Observe, Detected, SessionStore.Record, SessionFindingId, StoredDenial, RecordNew, Risk.Next;
    SceneRecords(w, settings, agent, s, t, n, at, log);
    var session := SessionAt(s, t, n + 1);
    var v := Observe(w, settings, Sessions.RecordStep(Denial(agent, session, at)));
    SceneReports(v, settings, agent, s, t, n + 1, at, log, w.risk.clock);
    var reported := if n + 1 < 3 then [] else [Crossing(agent, session, w.risk.clock)];
    assert [] + reported == reported;
    SceneAccepts(v, agent, s, t, n + 1, at, log, reported);
  }

  /** The stores once the reported crossing is accepted. */
  lemma SceneAccepts(v: World, agent: string, s: string, t: string, n: nat, at: Time, log: seq<Finding>, reported: seq<Finding>)
    requires Scene(v, agent, s, t, n, at, log)
    requires reported == [] || (|reported| == 1 && reported[0].agentId == agent && !HasId(log, reported[0].id))
    ensures var u := v.(risk := Risk.Next(v.risk, Risk.Accept(0, reported, {})));
            var more := if reported == [] then [] else [Stamp(reported[0], |log| + 1, v.risk.clock)];
            Scene(u, agent, s, t, n, at, log + more) && u.risk.clock == v.risk.clock
  {
    hide Sessions.Sound, StoredDenials, Findings.Record;
    if reported == [] {
      assert RecordNew(v.risk.store, [], v.risk.clock) == (v.risk.store, []);
      assert log + [] == log;
    } else {
      assert reported == [reported[0]];
      Risk.RecordOne(v.risk.store, reported[0], v.risk.clock);
      RecordFresh(v.risk.store, reported[0], v.risk.clock);
    }
  }

  lemma RecordFresh(t: Findings.Store, f: Finding, now: Time)
    requires !HasId(t.log, f.id)
    ensures var g := Stamp(f, Counter(t.sequences, f.agentId) + 1, now);
            && Findings.Record(t, f, now).1 == g && Findings.Record(t, f, now).0.log == t.log + [g]
            && Counter(Findings.Record(t, f, now).0.sequences, f.agentId) == Counter(t.sequences, f.agentId) + 1
  {
  }

  /** Bind both sessions, then deny three times in s and once in t. */
  function TwoSessionSteps(agent: string, s: string, t: string, at: Time): seq<Step> {
    [SessionStep(Sessions.BindStep(s, agent, at)), SessionStep(Sessions.BindStep(t, agent, at)),
     EvaluateStep(Denial(agent, s, at), [], 0, {}), EvaluateStep(Denial(agent, s, at), [], 0, {}),
     EvaluateStep(Denial(agent, s, at), [], 0, {}), EvaluateStep(Denial(agent, t, at), [], 0, {})]
  }

  lemma {:induction false} RunPrefix(w: World, settings: Settings, steps: seq<Step>, k: nat)
    requires k < |steps|
    ensures Run(w, settings, steps[..k + 1]) == Next(Run(w, settings, steps[..k]), settings, steps[k])
  {
    assert steps[..k + 1][..k] == steps[..k];
  }

  lemma ScenePrepared(clock: Time, vocabulary: set<string>, settings: Settings, agent: string, s: string, t: string, at: Time)
    requires s != t && settings.policy.None?
    ensures var w1 := Next(Start(clock, vocabulary), settings, SessionStep(Sessions.BindStep(s, agent, at)));
            var w2 := Next(w1, settings, SessionStep(Sessions.BindStep(t, agent, at)));
            Scene(w2, agent, s, t, 0, at, []) && w2.risk.clock == clock
  {
    var w0 := Start(clock, vocabulary);
    var w1 := Next(w0, settings, SessionStep(Sessions.BindStep(s, agent, at)));
    Sessions.EmptySound();
    Sessions.StepSound(w0.sessions, settings.policy, Sessions.BindStep(s, agent, at));
    Sessions.StepSound(w1.sessions, settings.policy, Sessions.BindStep(t, agent, at));
    hide Sessions.Sound;
  }

  /** With two sessions a denial can be charged twice. In this run three denials in session s are
      charged, and a fourth denial, in session t, charges the same three again. */
  lemma SecondSessionChargesAgain(clock: Time, vocabulary: set<string>, settings: Settings, agent: string,
                                  s: string, t: string, at: Time)
    requires s != t && settings.policy.None? && settings.window >= 0
    ensures var w := Run(Start(clock, vocabulary), settings, TwoSessionSteps(agent, s, t, at));
            w.risk.store.log == [Stamp(Crossing(agent, s, clock), 1, clock), Stamp(Crossing(agent, t, clock), 2, clock)]
    ensures Crossing(agent, s, clock).evidenceEvents == Crossing(agent, t, clock).evidenceEvents == [1, 2, 3]
  {
    hide Scene, Run, Next, SessionFindingId, Crossing;
    var w0, steps := Start(clock, vocabulary), TwoSessionSteps(agent, s, t, at);
    RunStart(w0, settings, steps);
    RunPrefix(w0, settings, steps, 0);
    RunPrefix(w0, settings, steps, 1);
    ScenePrepared(clock, vocabulary, settings, agent, s, t, at);
    for n := 0 to 4
      invariant Run(w0, settings, steps[..n + 2]).risk.clock == clock
      invariant Scene(Run(w0, settings, steps[..n + 2]), agent, s, t, n, at, SceneFindings(agent, s, t, n, clock))
    {
      RunPrefix(w0, settings, steps, n + 2);
      SceneAdvances(Run(w0, settings, steps[..n + 2]), settings, agent, s, t, n, at);
    }
    assert steps[..6] == steps;
    SceneLog(Run(w0, settings, steps), agent, s, t, 4, at, SceneFindings(agent, s, t, 4, clock));
    CrossingsShareEvidence(agent, s, t, clock);
  }

  /** What is stored after n denials. */
  function SceneFindings(agent: string, s: string, t: string, n: nat, now: Time): seq<Finding> {
    if n < 3 then []
    else if n == 3 then [Stamp(Crossing(agent, s, now), 1, now)]
    else [Stamp(Crossing(agent, s, now), 1, now), Stamp(Crossing(agent, t, now), 2, now)]
  }

  lemma SceneAdvances(w: World, settings: Settings, agent: string, s: string, t: string, n: nat, at: Time)
    requires Scene(w, agent, s, t, n, at, SceneFindings(agent, s, t, n, w.risk.clock))
    requires s != t && n < 4 && settings.policy.None? && settings.window >= 0
    ensures var u := Next(w, settings, EvaluateStep(Denial(agent, SessionAt(s, t, n + 1), at), [], 0, {}));
            u.risk.clock == w.risk.clock && Scene(u, agent, s, t, n + 1, at, SceneFindings(agent, s, t, n + 1, w.risk.clock))
  {
    hide Scene, Next, SessionFindingId;
    SessionsTellApart(s, t, agent, [1, 2, 3], 0);
    var log := SceneFindings(agent, s, t, n, w.risk.clock);
    SceneEvaluates(w, settings, agent, s, t, n, at, log);
    var more := if n + 1 < 3 then []
                else [Stamp(Crossing(agent, SessionAt(s, t, n + 1), w.risk.clock), |log| + 1, w.risk.clock)];
    assert log + more == SceneFindings(agent, s, t, n + 1, w.risk.clock);
  }

  lemma CrossingsShareEvidence(agent: string, s: string, t: string, now: Time)
    ensures Crossing(agent, s, now).evidenceEvents == Crossing(agent, t, now).evidenceEvents == [1, 2, 3]
  {
  }

  lemma RunStart(w: World, settings: Settings, steps: seq<Step>)
    ensures Run(w, settings, steps[..0]) == w
  {
  }

  lemma SceneLog(w: World, agent: string, s: string, t: string, n: nat, at: Time, log: seq<Finding>)
    requires Scene(w, agent, s, t, n, at, log)
    ensures w.risk.store.log == log
  {
  }

  lemma SessionsTellApart(s: string, t: string, agent: string, evidence: seq<nat>, generation: nat)
    requires s != t
    ensures SessionFindingId(EXCESSIVE_DENIALS, s, agent, DENIAL_THRESHOLD, evidence, generation)
            != SessionFindingId(EXCESSIVE_DENIALS, t, agent, DENIAL_THRESHOLD, evidence, generation)
  {
    hide Joined, Decimal;
    var head := EXCESSIVE_DENIALS + "|";
    var tail := "|" + agent + "|" + Decimal(DENIAL_THRESHOLD) + "|" + Joined(evidence) + "|" + Decimal(generation);
    var a := SessionFindingId(EXCESSIVE_DENIALS, s, agent, DENIAL_THRESHOLD, evidence, generation);
    var b := SessionFindingId(EXCESSIVE_DENIALS, t, agent, DENIAL_THRESHOLD, evidence, generation);
    assert a == head + s + tail && b == head + t + tail;
    if |s| == |t| {
      assert (head + s + tail)[|head|..|head| + |s|] == s;
      assert (head + t + tail)[|head|..|head| + |t|] == t;
    }
  }
}
