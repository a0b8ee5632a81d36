/** What one evaluation adds to the evidence, read off the stored events themselves:
    app/services/runtime_service.py:1150-1221. */
module DetectionLaws {
  import opened Prelude
  import opened Findings
  import opened SessionStore
  import opened Detection
  import opened DetectionRuns
  import Sessions = SessionRuns
  import Risk = RiskRuns

  /** The numbers of the agent's stored denials after the boundary and within the times. */
  function Recent(events: seq<Event>, agent: string, boundary: nat, from: Time, until: Time): set<nat> {
    set i | 0 <= i < |events| && events[i].agentId == agent && events[i].decision == DENY
            && events[i].agentSequence > boundary && from <= events[i].timestamp <= until
      :: events[i].agentSequence
  }

  /** An EXCESSIVE_DENIALS finding of the agent's lifecycle that names one of the numbers. */
  predicate Names(f: Finding, agent: string, generation: nat, numbers: set<nat>) {
    && f.ruleName == "EXCESSIVE_DENIALS" && f.agentId == agent && f.recoveryGeneration == generation
    && exists k :: 0 <= k < |f.evidenceEvents| && f.evidenceEvents[k] in numbers
  }

  /** The three least of the numbers, in order. */
  predicate FirstThreeOf(evidence: seq<nat>, numbers: set<nat>) {
    && |evidence| == 3 && evidence[0] < evidence[1] < evidence[2]
    && evidence[0] in numbers && evidence[1] in numbers && evidence[2] in numbers
    && forall n :: n in numbers && n !in evidence ==> n > evidence[2]
  }

  lemma {:induction false} DistinctNumbers(denials: seq<Event>)
    requires RecordOrder(denials)
    ensures |set i | 0 <= i < |denials| :: denials[i].agentSequence| == |denials|
  {
    var numbers := set i | 0 <= i < |denials| :: denials[i].agentSequence;
    if denials != [] {
      var k := |denials| - 1;
      DistinctNumbers(denials[..k]);
      var fewer := set i | 0 <= i < k :: denials[..k][i].agentSequence;
      assert numbers == fewer + {denials[k].agentSequence};
      assert denials[k].agentSequence !in fewer;
    }
  }

  /** One of the agent's denials after the boundary and within the times. */
  predicate IsRecent(e: Event, agent: string, boundary: nat, from: Time, until: Time) {
    e.agentId == agent && e.decision == DENY && e.agentSequence > boundary && from <= e.timestamp <= until
  }

  lemma HandedMembers(w: World, settings: Settings, recorded: Event)
    requires Sessions.Sound(w.sessions)
    ensures forall e :: e in HandedDenials(w, settings, recorded)
                        <==> e in w.sessions.events
                             && IsRecent(e, recorded.agentId, EventMark(w, recorded.agentId),
                                         recorded.timestamp - settings.window, recorded.timestamp)
  {
    hide Eligible, Matching, Sessions.Sound, DenialsOf;
    var q := Query(w, settings, recorded);
    Sessions.EligibleInRecordOrder(w.sessions, q);
    Sessions.MatchingMembers(w.sessions.events, q);
    DenialsMembers(Eligible(w.sessions.events, q), recorded.agentId, settings.window, recorded.timestamp);
  }

  /** Two lists with the same recent denials number them alike. */
  lemma SameNumbers(events: seq<Event>, denials: seq<Event>, agent: string, boundary: nat, from: Time, until: Time)
    requires forall e :: e in denials <==> e in events && IsRecent(e, agent, boundary, from, until)
    ensures Recent(events, agent, boundary, from, until) == set i | 0 <= i < |denials| :: denials[i].agentSequence
  {
    var recent := Recent(events, agent, boundary, from, until);
    var numbers := set i | 0 <= i < |denials| :: denials[i].agentSequence;
    forall n | n in recent ensures n in numbers {
      var i :| 0 <= i < |events| && IsRecent(events[i], agent, boundary, from, until) && events[i].agentSequence == n;
      assert events[i] in denials;
    }
    forall n | n in numbers ensures n in recent {
      var i :| 0 <= i < |denials| && denials[i].agentSequence == n;
      assert denials[i] in denials;
    }
  }

  /** Detection is handed exactly the recent denials. */
  lemma HandedExactly(w: World, settings: Settings, recorded: Event)
    requires Sessions.Sound(w.sessions)
    ensures var denials := HandedDenials(w, settings, recorded);
            var recent := Recent(w.sessions.events, recorded.agentId, EventMark(w, recorded.agentId),
                                 recorded.timestamp - settings.window, recorded.timestamp);
            && RecordOrder(denials) && |recent| == |denials|
            && recent == set i | 0 <= i < |denials| :: denials[i].agentSequence
  {
    HandedInOrder(w, settings, recorded);
    HandedMembers(w, settings, recorded);
    hide HandedDenials, Recent, Sessions.Sound, IsRecent, RecordOrder;
    SameNumbers(w.sessions.events, HandedDenials(w, settings, recorded), recorded.agentId, EventMark(w, recorded.agentId),
                recorded.timestamp - settings.window, recorded.timestamp);
    DistinctNumbers(HandedDenials(w, settings, recorded));
  }

  /** What detection reports of recent denials: nothing of fewer than three; else one OPEN crossing
      of MEDIUM severity in the lifecycle, naming the evidence of the session's first earlier crossing
      that names one of them, or, without such, their first three. */
  lemma DetectedExactly(w: World, settings: Settings, recorded: Event, now: Time)
    requires Sessions.Sound(w.sessions)
    ensures var recent := Recent(w.sessions.events, recorded.agentId, EventMark(w, recorded.agentId),
                                 recorded.timestamp - settings.window, recorded.timestamp);
            var agent, generation := recorded.agentId, Generation(w, recorded.agentId);
            var reported := Detected(w, settings, recorded, now);
            && |reported| == (if |recent| < 3 then 0 else 1)
            && (|reported| == 1 ==>
                  var f := reported[0];
                  && f.agentId == agent && f.recoveryGeneration == generation && f.createdAt == now
                  && f.ruleName == f.ruleId == "EXCESSIVE_DENIALS" && f.severity == MEDIUM && f.status == OPEN
                  && (exists e :: e in w.sessions.events && e.agentId == agent && e.sessionId == f.sessionId)
                  && f.id == SessionFindingId("EXCESSIVE_DENIALS", f.sessionId, agent, 3, f.evidenceEvents, generation)
                  && Names(f, agent, generation, recent)
                  && ((forall p :: p in w.risk.store.log && p.sessionId == recorded.sessionId ==> !Names(p, agent, generation, recent))
                      ==> FirstThreeOf(f.evidenceEvents, recent)))
  {
    HandedInOrder(w, settings, recorded);
    HandedExactly(w, settings, recorded);
    hide Detected, Eligible, Sessions.Sound, DenialsOf, HandedDenials, SessionFindingId, Recent, Listed, PriorFor, FirstThree;
    var denials := HandedDenials(w, settings, recorded);
    if |denials| >= DENIAL_THRESHOLD {
      var agent, generation := recorded.agentId, Generation(w, recorded.agentId);
      var priors := Listed(w.risk.store.log, agent, Some(recorded.sessionId));
      ListedMembers(w.risk.store.log, agent, Some(recorded.sessionId));
      PriorForMeaning(priors, agent, generation, InWindow(denials));
      FirstThreeOfRecorded(denials);
      assert denials[|denials| - 1] in denials;
      CandidateNames(denials, priors, agent, generation, now);
    }
  }

  lemma CandidateNames(denials: seq<Event>, priors: seq<Finding>, agent: string, generation: nat, now: Time)
    requires RecordOrder(denials) && |denials| >= 3
    ensures var numbers := set i | 0 <= i < |denials| :: denials[i].agentSequence;
            var f := Candidate(denials, priors, agent, generation, now);
            && Names(f, agent, generation, numbers)
            && ((forall p :: p in priors && p.agentId == agent ==> !Names(p, agent, generation, numbers))
                ==> FirstThreeOf(f.evidenceEvents, numbers))
  {
    hide SessionFindingId, FirstThree;
    FirstThreeOfRecorded(denials);
    PriorForMeaning(priors, agent, generation, InWindow(denials));
    hide PriorFor, InWindow;
    var numbers := set i | 0 <= i < |denials| :: denials[i].agentSequence;
    var f := Candidate(denials, priors, agent, generation, now);
    if PriorFor(priors, agent, generation, numbers).Some? {
      var p :| p in priors && IsCrossing(p, agent, generation) && Meets(p.evidenceEvents, numbers) && p.evidenceEvents == f.evidenceEvents;
      assert Names(p, agent, generation, numbers);
    } else {
      FirstThreeAreFirst(denials);
      assert FirstThreeOf(f.evidenceEvents, numbers);
      assert f.evidenceEvents[0] in numbers;
    }
  }

  lemma FirstThreeAreFirst(denials: seq<Event>)
    requires RecordOrder(denials) && |denials| >= 3
    ensures FirstThreeOf([denials[0].agentSequence, denials[1].agentSequence, denials[2].agentSequence],
                         set i | 0 <= i < |denials| :: denials[i].agentSequence)
  {
  }

  // ---- what an evaluation stores -----------------------------------------------------------------------

  /** What a longer log must show of the recent denials. */
  ghost predicate ChargesRecent(log: seq<Finding>, longer: seq<Finding>, agent: string, generation: nat, recent: set<nat>) {
    && log <= longer
    && var gained := longer[|log|..];
       && (forall i, j :: 0 <= i < j < |gained| ==> !(gained[i].ruleName == gained[j].ruleName == "EXCESSIVE_DENIALS"))
       && (|recent| < 3 ==> forall f :: f in gained ==> f.ruleName != "EXCESSIVE_DENIALS")
       && (|recent| >= 3 ==> exists f :: f in longer && Names(f, agent, generation, recent))
       && (|recent| >= 3 && (forall f :: f in log ==> !Names(f, agent, generation, recent))
           ==> exists f :: f in gained && Names(f, agent, generation, recent) && FirstThreeOf(f.evidenceEvents, recent)
                           && f.severity == MEDIUM && f.status == OPEN)
  }

  lemma NothingReported(log: seq<Finding>, accepted: seq<Finding>, agent: string, generation: nat, recent: set<nat>)
    requires |recent| < 3 && forall f :: f in accepted ==> f.ruleName != "EXCESSIVE_DENIALS"
    ensures ChargesRecent(log, log + accepted, agent, generation, recent)
  {
    assert (log + accepted)[|log|..] == accepted;
    forall i | 0 <= i < |accepted| ensures accepted[i].ruleName != "EXCESSIVE_DENIALS" {
      assert accepted[i] in accepted;
    }
  }

  lemma NewlyReported(log: seq<Finding>, accepted: seq<Finding>, g: Finding, agent: string, generation: nat, recent: set<nat>)
    requires |recent| >= 3 && forall f :: f in accepted ==> f.ruleName != "EXCESSIVE_DENIALS"
    requires Names(g, agent, generation, recent) && g.severity == MEDIUM && g.status == OPEN
    requires (forall f :: f in log ==> !Names(f, agent, generation, recent)) ==> FirstThreeOf(g.evidenceEvents, recent)
    ensures ChargesRecent(log, log + accepted + [g], agent, generation, recent)
  {
    hide Names, FirstThreeOf;
    var longer := log + accepted + [g];
    assert longer[|log|..] == accepted + [g];
    forall i | 0 <= i < |accepted| ensures accepted[i].ruleName != "EXCESSIVE_DENIALS" {
      assert accepted[i] in accepted;
    }
    assert longer[|longer| - 1] == g && g in longer && g in accepted + [g];
  }

  lemma AlreadyReported(log: seq<Finding>, accepted: seq<Finding>, p: Finding, agent: string, generation: nat, recent: set<nat>)
    requires |recent| >= 3 && forall f :: f in accepted ==> f.ruleName != "EXCESSIVE_DENIALS"
    requires p in log && Names(p, agent, generation, recent)
    ensures ChargesRecent(log, log + accepted, agent, generation, recent)
  {
    hide Names, FirstThreeOf;
    var longer := log + accepted;
    assert longer[|log|..] == accepted;
    forall i | 0 <= i < |accepted| ensures accepted[i].ruleName != "EXCESSIVE_DENIALS" {
      assert accepted[i] in accepted;
    }
    assert p in longer;
  }

  /** A stored finding that bears a crossing's identifier is that crossing. */
  lemma BearerNames(log: seq<Finding>, f: Finding, agent: string, generation: nat, recent: set<nat>) returns (p: Finding)
    requires (forall x :: x in log ==> WellNamed(x)) && HasId(log, f.id)
    requires Separable(f.sessionId, agent) && Names(f, agent, generation, recent)
    requires f.id == SessionFindingId("EXCESSIVE_DENIALS", f.sessionId, agent, 3, f.evidenceEvents, generation)
    ensures p in log && Names(p, agent, generation, recent)
  {
    hide SessionFindingId;
    var i :| 0 <= i < |log| && log[i].id == f.id;
    p := log[i];
    assert p in log && WellNamed(p);
    assert IsCrossingId(p.id);
    IdNamesEverything(p.sessionId, p.agentId, p.evidenceEvents, p.recoveryGeneration,
                      f.sessionId, agent, f.evidenceEvents, generation);
  }

  /** Detection over the stored events. After an event is recorded and evaluated, three recent
      denials of its agent, stored after the boundary of the lifecycle and within the window that
      ends with the event, are charged: some EXCESSIVE_DENIALS finding of the lifecycle names one of
      them, and if none did before, a new OPEN one of MEDIUM severity names their first three. With
      fewer than three nothing is charged, and never more than one crossing is. */
  lemma EvaluationChargesRecent(w: World, settings: Settings, e: Event, content: seq<Finding>, elapsed: nat, faults: set<nat>)
    requires Named(w) && SeparableStep(EvaluateStep(e, content, elapsed, faults)) && SessionStore.Record(w.sessions, e).1.Ok?
    ensures var u := Next(w, settings, EvaluateStep(e, content, elapsed, faults));
            ChargesRecent(w.risk.store.log, u.risk.store.log, e.agentId, Generation(w, e.agentId),
                          Recent(u.sessions.events, e.agentId, EventMark(w, e.agentId), e.timestamp - settings.window, e.timestamp))
  {
    hide Detected, Sessions.Sound, Risk.Sound, SessionStore.Record, Sessions.Next, WellNamed, ChargesRecent, Recent, RecordNew,
         SessionFindingId, Names, FirstThreeOf, IsCrossingId;
    var step := Sessions.RecordStep(e);
    ObserveNamed(w, settings, step);
    RecordPositions(w.sessions, settings.policy, step);
    var v := Observe(w, settings, step);
    var recorded := SessionStore.Record(w.sessions, e).1.value;
    var now := w.risk.clock + elapsed;
    DetectedExactly(v, settings, recorded, now);
    var reported := Detected(v, settings, recorded, now);
    var recent := Recent(v.sessions.events, e.agentId, EventMark(w, e.agentId), e.timestamp - settings.window, e.timestamp);
    EvaluationStores(v, content, reported, now, e.agentId, Generation(w, e.agentId), recent);
  }

  /** The evidence store once what was reported is recorded. */
  lemma EvaluationStores(v: World, content: seq<Finding>, reported: seq<Finding>, now: Time, agent: string, generation: nat,
                         recent: set<nat>)
    requires Named(v) && v.risk.clock <= now
    requires forall f :: f in content ==> f.ruleName != "EXCESSIVE_DENIALS" && !IsCrossingId(f.id)
    requires |reported| == (if |recent| < 3 then 0 else 1)
    requires |reported| == 1 ==>
               var f := reported[0];
               && (exists e :: e in v.sessions.events && e.agentId == agent && e.sessionId == f.sessionId)
               && f.severity == MEDIUM && f.status == OPEN && Names(f, agent, generation, recent)
               && f.id == SessionFindingId("EXCESSIVE_DENIALS", f.sessionId, agent, 3, f.evidenceEvents, generation)
               && ((forall p :: p in v.risk.store.log ==> !Names(p, agent, generation, recent))
                   ==> FirstThreeOf(f.evidenceEvents, recent))
    ensures ChargesRecent(v.risk.store.log, RecordNew(v.risk.store, content + reported, now).0.log, agent, generation, recent)
  {
    hide Sessions.Sound, ChargesRecent, RecordNew, SessionFindingId, FirstThreeOf, IsCrossingId;
    var store := v.risk.store;
    RiskIsGrown(v.risk);
    hide Risk.Sound, Risk.Grown;
    var (t, accepted) := RecordNew(store, content, now);
    Risk.RecordNewAppends(store, content, v.risk.clock, now);
    AcceptedAreCandidates(store, content, now);
    forall g | g in accepted ensures g.ruleName != "EXCESSIVE_DENIALS" && WellNamed(g) {
      var c :| c in content && g == Stamp(c, g.sequence, now);
    }
    if reported == [] {
      assert content + reported == content;
      NothingReported(store.log, accepted, agent, generation, recent);
    } else {
      var f := reported[0];
      assert reported == [f];
      RecordNewSnoc(store, content, f, now);
      if HasId(t.log, f.id) {
        var p := BearerNames(t.log, f, agent, generation, recent);
        assert p.ruleName == "EXCESSIVE_DENIALS" && p !in accepted;
        AlreadyReported(store.log, accepted, p, agent, generation, recent);
      } else {
        RecordFresh(t, f, now);
        var g := Stamp(f, Counter(t.sequences, f.agentId) + 1, now);
        SameNames(f, g, agent, generation, recent);
        NewlyReported(store.log, accepted, g, agent, generation, recent);
      }
    }
  }

  lemma SameNames(f: Finding, g: Finding, agent: string, generation: nat, recent: set<nat>)
    requires Names(f, agent, generation, recent)
    requires g.ruleName == f.ruleName && g.agentId == f.agentId && g.recoveryGeneration == f.recoveryGeneration
             && g.evidenceEvents == f.evidenceEvents
    ensures Names(g, agent, generation, recent)
  {
  }
}
