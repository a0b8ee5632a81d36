/** app/services/detection_service.py: the EXCESSIVE_DENIALS rule and the identity of a crossing. */
module Detection {
  import opened Prelude
  import opened Findings
  import opened SessionStore

  const EXCESSIVE_DENIALS := "EXCESSIVE_DENIALS"

  const DENIAL_THRESHOLD: nat := 3

  // ---- identity -----------------------------------------------------------------------------

  function Digit(d: nat): char
    requires d < 10
  {
    "0123456789"[d]
  }

  function Decimal(n: nat): (s: string)
    ensures |s| > 0
    ensures forall c :: c in s ==> '0' <= c <= '9'
  {
    if n < 10 then [Digit(n)] else Decimal(n / 10) + [Digit(n % 10)]
  }

  function Joined(ns: seq<nat>): string {
    if ns == [] then ""
    else if |ns| == 1 then Decimal(ns[0])
    else Joined(ns[..|ns| - 1]) + "," + Decimal(ns[|ns| - 1])
  }

  /** `session_finding_id`, with the name-based UUID standing for the name it digests. */
  function SessionFindingId(rule: string, session: string, agent: string, threshold: nat,
                            evidence: seq<nat>, generation: nat): string {
    rule + "|" + session + "|" + agent + "|" + Decimal(threshold) + "|" + Joined(evidence) + "|" + Decimal(generation)
  }

  lemma {:induction false} DecimalInjective(m: nat, n: nat)
    requires Decimal(m) == Decimal(n)
    ensures m == n
  {
    if m >= 10 && n >= 10 {
      var a, b := Decimal(m / 10), Decimal(n / 10);
      assert (a + [Digit(m % 10)])[..|a|] == a && (b + [Digit(n % 10)])[..|b|] == b;
      assert (a + [Digit(m % 10)])[|a|] == (b + [Digit(n % 10)])[|b|];
      DecimalInjective(m / 10, n / 10);
    }
  }

  lemma LongerHead(u: string, v: string, x: string, y: string, separator: char)
    requires u + [separator] + v == x + [separator] + y && |u| > |x|
    ensures separator in y
  {
    assert (u + [separator] + v)[|u|] == separator;
    assert (x + [separator] + y)[|u|] == y[|u| - |x| - 1];
  }

  /** Text split at its last separator, when what follows holds none. */
  lemma SplitAtLast(u: string, v: string, x: string, y: string, separator: char)
    requires u + [separator] + v == x + [separator] + y
    requires separator !in v && separator !in y
    ensures u == x && v == y
  {
    if |u| > |x| {
      LongerHead(u, v, x, y, separator);
    } else if |x| > |u| {
      LongerHead(x, y, u, v, separator);
    } else {
      var whole := u + [separator] + v;
      assert u == whole[..|u|] && x == whole[..|u|];
      assert v == whole[|u| + 1..] && y == whole[|u| + 1..];
    }
  }

  lemma JoinedMany(ns: seq<nat>)
    requires |ns| > 1
    ensures ',' in Joined(ns) && |Joined(ns)| > 0
  {
    var front := Joined(ns[..|ns| - 1]);
    assert (front + "," + Decimal(ns[|ns| - 1]))[|front|] == ',';
  }

  lemma {:induction false} JoinedInjective(ms: seq<nat>, ns: seq<nat>)
    requires Joined(ms) == Joined(ns)
    ensures ms == ns
  {
    if |ms| > 1 { JoinedMany(ms); }
    if |ns| > 1 { JoinedMany(ns); }
    if |ms| == 1 && |ns| == 1 {
      DecimalInjective(ms[0], ns[0]);
    } else if |ms| > 1 && |ns| > 1 {
      SplitAtLast(Joined(ms[..|ms| - 1]), Decimal(ms[|ms| - 1]), Joined(ns[..|ns| - 1]), Decimal(ns[|ns| - 1]), ',');
      JoinedInjective(ms[..|ms| - 1], ns[..|ns| - 1]);
      DecimalInjective(ms[|ms| - 1], ns[|ns| - 1]);
      assert ms == ms[..|ms| - 1] + [ms[|ms| - 1]] && ns == ns[..|ns| - 1] + [ns[|ns| - 1]];
    }
  }

  /** Among the crossings of one agent in one session the identifier names the evidence and
      the enforcement lifecycle it belongs to. */
  lemma IdNamesCrossing(session: string, agent: string, e: seq<nat>, g: nat, f: seq<nat>, h: nat)
    ensures SessionFindingId(EXCESSIVE_DENIALS, session, agent, DENIAL_THRESHOLD, e, g)
            == SessionFindingId(EXCESSIVE_DENIALS, session, agent, DENIAL_THRESHOLD, f, h)
            <==> e == f && g == h
  {
    var prefix := EXCESSIVE_DENIALS + "|" + session + "|" + agent + "|" + Decimal(DENIAL_THRESHOLD) + "|";
    var a := SessionFindingId(EXCESSIVE_DENIALS, session, agent, DENIAL_THRESHOLD, e, g);
    var b := SessionFindingId(EXCESSIVE_DENIALS, session, agent, DENIAL_THRESHOLD, f, h);
    assert a == prefix + Joined(e) + "|" + Decimal(g) && b == prefix + Joined(f) + "|" + Decimal(h);
    if a == b {
      SplitAtLast(prefix + Joined(e), Decimal(g), prefix + Joined(f), Decimal(h), '|');
      assert Joined(e) == (prefix + Joined(e))[|prefix|..] == (prefix + Joined(f))[|prefix|..] == Joined(f);
      JoinedInjective(e, f);
      DecimalInjective(g, h);
    }
  }

  lemma LongerStart(u: string, v: string, x: string, y: string, separator: char)
    requires u + [separator] + v == x + [separator] + y && |u| < |x|
    ensures separator in x
  {
    assert (u + [separator] + v)[|u|] == separator;
    assert (x + [separator] + y)[|u|] == x[|u|];
  }

  /** Text split at its first separator, when what precedes holds none. */
  lemma SplitAtFirst(u: string, v: string, x: string, y: string, separator: char)
    requires u + [separator] + v == x + [separator] + y
    requires separator !in u && separator !in x
    ensures u == x && v == y
  {
    if |u| < |x| {
      LongerStart(u, v, x, y, separator);
    } else if |x| < |u| {
      LongerStart(x, y, u, v, separator);
    } else {
      var whole := u + [separator] + v;
      assert u == whole[..|u|] && x == whole[..|u|];
      assert v == whole[|u| + 1..] && y == whole[|u| + 1..];
    }
  }

  /** Between sessions and agents whose names hold no separator the identifier names all of it:
      session, agent, evidence and lifecycle. */
  lemma IdNamesEverything(s: string, a: string, e: seq<nat>, g: nat, t: string, b: string, f: seq<nat>, h: nat)
    requires '|' !in s && '|' !in a && '|' !in t && '|' !in b
    ensures SessionFindingId(EXCESSIVE_DENIALS, s, a, DENIAL_THRESHOLD, e, g)
            == SessionFindingId(EXCESSIVE_DENIALS, t, b, DENIAL_THRESHOLD, f, h)
            <==> s == t && a == b && e == f && g == h
  {
    hide Joined, Decimal;
    var x := SessionFindingId(EXCESSIVE_DENIALS, s, a, DENIAL_THRESHOLD, e, g);
    var y := SessionFindingId(EXCESSIVE_DENIALS, t, b, DENIAL_THRESHOLD, f, h);
    if x == y {
      var head := EXCESSIVE_DENIALS + "|";
      var p := Decimal(DENIAL_THRESHOLD) + "|" + Joined(e) + "|" + Decimal(g);
      var q := Decimal(DENIAL_THRESHOLD) + "|" + Joined(f) + "|" + Decimal(h);
      assert x == head + (s + "|" + (a + "|" + p)) && y == head + (t + "|" + (b + "|" + q));
      assert x[|head|..] == s + "|" + (a + "|" + p) && y[|head|..] == t + "|" + (b + "|" + q);
      SplitAtFirst(s, a + "|" + p, t, b + "|" + q, '|');
      SplitAtFirst(a, p, b, q, '|');
      IdNamesCrossing(s, a, e, g, f, h);
    }
  }

  // ---- the rule -----------------------------------------------------------------------------

  predicate DeniedIn(e: Event, window: Time, at: Time) {
    e.decision == DENY && at - window <= e.timestamp <= at
  }

  /** `denied_events[agent]` */
  function DenialsOf(events: seq<Event>, agent: string, window: Time, at: Time): seq<Event> {
    if events == [] then []
    else
      var rest := DenialsOf(events[..|events| - 1], agent, window, at);
      var e := events[|events| - 1];
      if e.agentId == agent && DeniedIn(e, window, at) then rest + [e] else rest
  }

  /** The keys of `denied_events`, in insertion order. */
  function Accused(events: seq<Event>, window: Time, at: Time): seq<string> {
    if events == [] then []
    else
      var rest := Accused(events[..|events| - 1], window, at);
      var e := events[|events| - 1];
      if DeniedIn(e, window, at) && e.agentId !in rest then rest + [e.agentId] else rest
  }

  predicate ByAgentSequence(denials: seq<Event>) {
    exists i :: 0 <= i < |denials| && denials[i].agentSequence > 0
  }

  function InWindow(denials: seq<Event>): set<nat> {
    if ByAgentSequence(denials)
    then set i | 0 <= i < |denials| && denials[i].agentSequence > 0 :: denials[i].agentSequence
    else set i | 0 <= i < |denials| :: denials[i].sequence
  }

  predicate Meets(evidence: seq<nat>, numbers: set<nat>) {
    exists i :: 0 <= i < |evidence| && evidence[i] in numbers
  }

  /** A stored crossing of the agent's present lifecycle. */
  predicate IsCrossing(f: Finding, agent: string, generation: nat) {
    f.ruleName == EXCESSIVE_DENIALS && f.agentId == agent && f.recoveryGeneration == generation
  }

  /** The first earlier crossing whose evidence is still in the window. */
  function PriorFor(priors: seq<Finding>, agent: string, generation: nat, numbers: set<nat>): Option<seq<nat>> {
    if priors == [] then None
    else
      var found := PriorFor(priors[..|priors| - 1], agent, generation, numbers);
      var p := priors[|priors| - 1];
      if found.Some? then found
      else if IsCrossing(p, agent, generation) && Meets(p.evidenceEvents, numbers) then Some(p.evidenceEvents)
      else None
  }

  function EvidenceOrder(byAgent: bool): (Event, Event) -> bool {
    if byAgent then ((a: Event, b: Event) => a.agentSequence <= b.agentSequence)
    else ((a: Event, b: Event) =>
            a.timestamp < b.timestamp || (a.timestamp == b.timestamp && a.sequence <= b.sequence))
  }

  function Positions(events: seq<Event>, byAgent: bool): seq<nat> {
    seq(|events|, i requires 0 <= i < |events| => if byAgent then events[i].agentSequence else events[i].sequence)
  }

  function FirstThree(denials: seq<Event>): seq<nat> {
    var ordered := StableSort(EvidenceOrder(ByAgentSequence(denials)), denials);
    Positions(ordered[..if |ordered| < DENIAL_THRESHOLD then |ordered| else DENIAL_THRESHOLD], ByAgentSequence(denials))
  }

  /** `_crossing_evidence` */
  function CrossingEvidence(denials: seq<Event>, priors: seq<Finding>, agent: string, generation: nat): seq<nat> {
    var prior := PriorFor(priors, agent, generation, InWindow(denials));
    if prior.Some? then prior.value else FirstThree(denials)
  }

  function Candidate(denials: seq<Event>, priors: seq<Finding>, agent: string, generation: nat, now: Time): Finding
    requires denials != []
  {
    var session := denials[|denials| - 1].sessionId;
    var evidence := CrossingEvidence(denials, priors, agent, generation);
    Finding(SessionFindingId(EXCESSIVE_DENIALS, session, agent, DENIAL_THRESHOLD, evidence, generation),
            session, agent, EXCESSIVE_DENIALS, EXCESSIVE_DENIALS, MEDIUM, "UNKNOWN", OPEN, now, None, evidence, generation, UNASSIGNED)
  }

  function Reports(events: seq<Event>, accused: seq<string>, priors: seq<Finding>, generation: nat,
                   window: Time, at: Time, now: Time): seq<Finding> {
    if accused == [] then []
    else
      var rest := Reports(events, accused[..|accused| - 1], priors, generation, window, at, now);
      var agent := accused[|accused| - 1];
      var denials := DenialsOf(events, agent, window, at);
      if |denials| < DENIAL_THRESHOLD then rest else rest + [Candidate(denials, priors, agent, generation, now)]
  }

  /** `detect_excessive_denials` */
  function Detect(events: seq<Event>, priors: seq<Finding>, generation: nat,
                  window: Time, at: Time, now: Time): seq<Finding> {
    Reports(events, Accused(events, window, at), priors, generation, window, at, now)
  }

  /** The agent-wide query for the event just recorded: evidence after the enforcement baseline,
      within the window that ends with the event. */
  function QueryFor(e: Event, window: Time, baseline: nat): HorizonQuery {
    HorizonQuery(e.agentId, AgentScope, window, e.timestamp, baseline)
  }

  /** What detection reports for an event just recorded, given the events and findings stored. */
  function DetectFor(events: seq<Event>, log: seq<Finding>, e: Event, window: Time, baseline: nat, generation: nat,
                     now: Time): seq<Finding>
  {
    Detect(Eligible(events, QueryFor(e, window, baseline)), Listed(log, e.agentId, Some(e.sessionId)), generation,
           window, e.timestamp, now)
  }

  datatype DetectionError = WindowNotPositive

  class DetectionService {
    const window: Time

    constructor (window: Time)
      ensures this.window == window
    {
      this.window := window;
    }

    /** The source's constructor refuses a window that is not positive. */
    static method Create(window: Time) returns (r: Result<DetectionService, DetectionError>)
      ensures r.Ok? <==> window > 0
      ensures r.Ok? ==> fresh(r.value) && r.value.window == window
    {
      if window <= 0 {
        return Err(WindowNotPositive);
      }
      var service := new DetectionService(window);
      r := Ok(service);
    }

    method CrossingEvidenceFor(denials: seq<Event>, priors: seq<Finding>, agent: string, generation: nat)
      returns (evidence: seq<nat>)
      ensures evidence == CrossingEvidence(denials, priors, agent, generation)
    {
      var numbers := InWindow(denials);
      for i := 0 to |priors|
        invariant PriorFor(priors[..i], agent, generation, numbers).None?
      {
        assert priors[..i + 1][..i] == priors[..i];
        if IsCrossing(priors[i], agent, generation) && Meets(priors[i].evidenceEvents, numbers) {
          PriorForPrefix(priors, i + 1, agent, generation, numbers);
          return priors[i].evidenceEvents;
        }
      }
      assert priors[..|priors|] == priors;
      evidence := FirstThree(denials);
    }

    /** The first loop: `denied_events` and the order of its keys. */
    method GroupDenials(events: seq<Event>, at: Time) returns (keys: seq<string>, denied: map<string, seq<Event>>)
      ensures keys == Accused(events, window, at)
      ensures forall a :: a in keys <==> a in denied
      ensures forall a :: DenialsOf(events, a, window, at) == if a in denied then denied[a] else []
    {
      denied, keys := map[], [];
      for i := 0 to |events|
        invariant keys == Accused(events[..i], window, at)
        invariant forall a :: a in keys <==> a in denied
        invariant forall a :: DenialsOf(events[..i], a, window, at) == if a in denied then denied[a] else []
      {
        assert events[..i + 1][..i] == events[..i];
        var e := events[i];
        if DeniedIn(e, window, at) {
          assert DenialsOf(events[..i], e.agentId, window, at) == if e.agentId in denied then denied[e.agentId] else [];
          if e.agentId !in denied {
            keys := keys + [e.agentId];
            denied := denied[e.agentId := [e]];
          } else {
            denied := denied[e.agentId := denied[e.agentId] + [e]];
          }
        }
      }
      assert events[..|events|] == events;
    }

    method DetectExcessiveDenials(events: seq<Event>, at: Time, priors: seq<Finding>, generation: nat, now: Time)
      returns (findings: seq<Finding>)
      ensures findings == Detect(events, priors, generation, window, at, now)
    {
      hide CrossingEvidence, SessionFindingId, DenialsOf, Accused;
      var keys, denied := GroupDenials(events, at);
      findings := [];
      for i := 0 to |keys|
        invariant findings == Reports(events, keys[..i], priors, generation, window, at, now)
      {
        assert keys[..i + 1][..i] == keys[..i];
        var denials := denied[keys[i]];
        if |denials| >= DENIAL_THRESHOLD {
          var session := denials[|denials| - 1].sessionId;
          var evidence := CrossingEvidenceFor(denials, priors, keys[i], generation);
          findings := findings + [Finding(
              SessionFindingId(EXCESSIVE_DENIALS, session, keys[i], DENIAL_THRESHOLD, evidence, generation),
              session, keys[i], EXCESSIVE_DENIALS, EXCESSIVE_DENIALS, MEDIUM, "UNKNOWN", OPEN, now, None, evidence, generation, UNASSIGNED)];
        }
      }
      assert keys[..|keys|] == keys;
    }
  }

  lemma {:induction false} PriorForPrefix(priors: seq<Finding>, k: nat, agent: string, generation: nat, numbers: set<nat>)
    requires k <= |priors| && PriorFor(priors[..k], agent, generation, numbers).Some?
    ensures PriorFor(priors, agent, generation, numbers) == PriorFor(priors[..k], agent, generation, numbers)
    decreases |priors| - k
  {
    if k == |priors| {
      assert priors[..k] == priors;
    } else {
      assert priors[..k + 1][..k] == priors[..k];
      PriorForPrefix(priors, k + 1, agent, generation, numbers);
    }
  }

  // ---- what detection reports ---------------------------------------------------------------

  lemma {:induction false} PriorForMeaning(priors: seq<Finding>, agent: string, generation: nat, numbers: set<nat>)
    ensures var found := PriorFor(priors, agent, generation, numbers);
            && (found.Some? ==> exists p :: p in priors && IsCrossing(p, agent, generation)
                                            && Meets(p.evidenceEvents, numbers) && p.evidenceEvents == found.value)
            && (found.None? ==> forall p :: p in priors && IsCrossing(p, agent, generation)
                                            ==> !Meets(p.evidenceEvents, numbers))
  {
    if priors != [] {
      PriorForMeaning(priors[..|priors| - 1], agent, generation, numbers);
      assert priors == priors[..|priors| - 1] + [priors[|priors| - 1]];
    }
  }

  lemma {:induction false} DenialsMembers(events: seq<Event>, agent: string, window: Time, at: Time)
    ensures forall e :: e in DenialsOf(events, agent, window, at)
                        <==> e in events && e.agentId == agent && DeniedIn(e, window, at)
  {
    if events != [] {
      DenialsMembers(events[..|events| - 1], agent, window, at);
      assert events == events[..|events| - 1] + [events[|events| - 1]];
    }
  }

  lemma {:induction false} OneAgentAccused(events: seq<Event>, agent: string, window: Time, at: Time)
    requires forall e :: e in events ==> e.agentId == agent
    ensures Accused(events, window, at) == if DenialsOf(events, agent, window, at) == [] then [] else [agent]
  {
    if events != [] {
      var front, last := events[..|events| - 1], events[|events| - 1];
      assert events == front + [last];
      OneAgentAccused(front, agent, window, at);
    }
  }

  /** Over one agent's evidence the rule reports at most one crossing, and reports it exactly
      when the window holds three denials. */
  lemma DetectOneAgent(events: seq<Event>, priors: seq<Finding>, agent: string, generation: nat,
                       window: Time, at: Time, now: Time)
    requires forall e :: e in events ==> e.agentId == agent
    ensures var denials := DenialsOf(events, agent, window, at);
            Detect(events, priors, generation, window, at, now)
            == if |denials| < DENIAL_THRESHOLD then [] else [Candidate(denials, priors, agent, generation, now)]
  {
    hide Candidate;
    OneAgentAccused(events, agent, window, at);
    var denials := DenialsOf(events, agent, window, at);
    if denials != [] {
      assert [agent][..0] == [] && [agent][0] == agent;
      assert Reports(events, [agent][..0], priors, generation, window, at, now) == [];
    }
  }

  /** How many of the events are denials of the agent within the window that ends at the moment. */
  function DeniedWithin(events: seq<Event>, agent: string, window: Time, at: Time): nat {
    if events == [] then 0
    else
      var e := events[|events| - 1];
      DeniedWithin(events[..|events| - 1], agent, window, at)
      + (if e.agentId == agent && e.decision == DENY && at - window <= e.timestamp && e.timestamp <= at then 1 else 0)
  }

  lemma {:induction false} DenialsCounted(events: seq<Event>, agent: string, window: Time, at: Time)
    ensures |DenialsOf(events, agent, window, at)| == DeniedWithin(events, agent, window, at)
  {
    if events != [] {
      DenialsCounted(events[..|events| - 1], agent, window, at);
    }
  }

  lemma {:induction false} AccusedMembers(events: seq<Event>, window: Time, at: Time)
    ensures forall a :: a in Accused(events, window, at) <==> DenialsOf(events, a, window, at) != []
    ensures forall i, j :: 0 <= i < j < |Accused(events, window, at)| ==> Accused(events, window, at)[i] != Accused(events, window, at)[j]
  {
    if events != [] {
      AccusedMembers(events[..|events| - 1], window, at);
    }
  }

  lemma {:induction false} ReportsMembers(events: seq<Event>, accused: seq<string>, priors: seq<Finding>, generation: nat,
                                          window: Time, at: Time, now: Time)
    requires forall i, j :: 0 <= i < j < |accused| ==> accused[i] != accused[j]
    ensures var found := Reports(events, accused, priors, generation, window, at, now);
            && (forall f :: f in found ==> f.agentId in accused && |DenialsOf(events, f.agentId, window, at)| >= 3)
            && (forall a :: a in accused && |DenialsOf(events, a, window, at)| >= 3 ==> exists f :: f in found && f.agentId == a)
            && (forall i, j :: 0 <= i < j < |found| ==> found[i].agentId != found[j].agentId)
  {
    hide CrossingEvidence, SessionFindingId, DenialsOf;
    if accused != [] {
      var front, last := accused[..|accused| - 1], accused[|accused| - 1];
      ReportsMembers(events, front, priors, generation, window, at, now);
      var rest, found := Reports(events, front, priors, generation, window, at, now),
                         Reports(events, accused, priors, generation, window, at, now);
      assert accused == front + [last];
      forall i | 0 <= i < |rest| ensures rest[i].agentId != last {
        assert rest[i] in rest;
      }
      forall a | a in accused && |DenialsOf(events, a, window, at)| >= 3 ensures exists f :: f in found && f.agentId == a {
        if a == last {
          assert found[|found| - 1].agentId == a && found[|found| - 1] in found;
        } else {
          var f :| f in rest && f.agentId == a;
          assert f in found;
        }
      }
    }
  }

  /** Over anyone's events the rule reports one crossing for each agent with three denials in the window
      or more, and none for any other. */
  lemma OneCrossingPerAgent(events: seq<Event>, priors: seq<Finding>, generation: nat, window: Time, at: Time, now: Time, agent: string)
    ensures var found := Detect(events, priors, generation, window, at, now);
            && ((exists f :: f in found && f.agentId == agent) <==> DeniedWithin(events, agent, window, at) >= 3)
            && (forall i, j :: 0 <= i < j < |found| ==> found[i].agentId != found[j].agentId)
  {
    AccusedMembers(events, window, at);
    ReportsMembers(events, Accused(events, window, at), priors, generation, window, at, now);
    DenialsCounted(events, agent, window, at);
  }

  /** Denials of one agent in record order. */
  ghost predicate RecordOrder(denials: seq<Event>) {
    && (forall i :: 0 <= i < |denials| ==> denials[i].agentSequence > 0)
    && (forall i, j :: 0 <= i < j < |denials| ==> denials[i].agentSequence < denials[j].agentSequence)
  }

  lemma FirstThreeOfRecorded(denials: seq<Event>)
    requires RecordOrder(denials) && |denials| >= DENIAL_THRESHOLD
    ensures FirstThree(denials) == [denials[0].agentSequence, denials[1].agentSequence, denials[2].agentSequence]
    ensures InWindow(denials) == set i | 0 <= i < |denials| :: denials[i].agentSequence
  {
    assert denials[0].agentSequence > 0;
    assert Ordered(EvidenceOrder(true), denials);
    StableSortIdentity(EvidenceOrder(true), denials);
  }

  lemma FirstThreeInWindow(denials: seq<Event>)
    requires RecordOrder(denials) && |denials| >= DENIAL_THRESHOLD
    ensures |FirstThree(denials)| == 3
    ensures forall k :: 0 <= k < 3 ==> FirstThree(denials)[k] in InWindow(denials)
                                       && FirstThree(denials)[k] == denials[k].agentSequence
  {
    FirstThreeOfRecorded(denials);
  }

  predicate Overlap(a: seq<nat>, b: seq<nat>) {
    exists i, j :: 0 <= i < |a| && 0 <= j < |b| && a[i] == b[j]
  }

  /** Some of `evidence` is already charged in this lifecycle. */
  ghost predicate Charged(log: seq<Finding>, agent: string, generation: nat, evidence: seq<nat>) {
    exists p :: p in log && IsCrossing(p, agent, generation) && Overlap(evidence, p.evidenceEvents)
  }

  /** A crossing stored for this session still has evidence in the window. */
  ghost predicate StillOpen(log: seq<Finding>, session: string, agent: string, generation: nat, numbers: set<nat>) {
    exists p :: p in log && p.sessionId == session && IsCrossing(p, agent, generation) && Meets(p.evidenceEvents, numbers)
  }

  /** Some of `evidence` is charged in this lifecycle under another session. */
  ghost predicate ChargedElsewhere(log: seq<Finding>, session: string, agent: string, generation: nat, evidence: seq<nat>) {
    exists p :: p in log && p.sessionId != session && IsCrossing(p, agent, generation) && Overlap(evidence, p.evidenceEvents)
  }

  /** This very crossing is stored. */
  ghost predicate NamedAlready(log: seq<Finding>, session: string, agent: string, generation: nat, evidence: seq<nat>) {
    exists p :: p in log && p.sessionId == session && IsCrossing(p, agent, generation) && p.evidenceEvents == evidence
  }

  /** Stored crossings of the session and agent bear their own identifiers, and nothing else does. */
  ghost predicate FaithfulIds(log: seq<Finding>, session: string, agent: string) {
    && (forall p :: p in log && p.ruleName == EXCESSIVE_DENIALS && p.sessionId == session && p.agentId == agent
                    ==> p.id == SessionFindingId(EXCESSIVE_DENIALS, session, agent, DENIAL_THRESHOLD, p.evidenceEvents, p.recoveryGeneration))
    && (forall p, e, g :: p in log && p.id == SessionFindingId(EXCESSIVE_DENIALS, session, agent, DENIAL_THRESHOLD, e, g)
                          ==> p.ruleName == EXCESSIVE_DENIALS && p.sessionId == session && p.agentId == agent)
  }

  /** The identifier of some crossing of some session and agent. */
  ghost predicate IsCrossingId(id: string) {
    exists s, a, e, g :: id == SessionFindingId(EXCESSIVE_DENIALS, s, a, DENIAL_THRESHOLD, e, g)
  }

  predicate Separable(session: string, agent: string) {
    '|' !in session && '|' !in agent
  }

  /** A crossing bears its own identifier over separable names; other findings bear none. */
  ghost predicate WellNamed(p: Finding) {
    if p.ruleName == EXCESSIVE_DENIALS
    then Separable(p.sessionId, p.agentId)
         && p.id == SessionFindingId(EXCESSIVE_DENIALS, p.sessionId, p.agentId, DENIAL_THRESHOLD, p.evidenceEvents, p.recoveryGeneration)
    else !IsCrossingId(p.id)
  }

  lemma WellNamedIsFaithful(log: seq<Finding>, session: string, agent: string)
    requires Separable(session, agent) && forall p :: p in log ==> WellNamed(p)
    ensures FaithfulIds(log, session, agent)
  {
    hide SessionFindingId;
    forall p, e, g | p in log && p.id == SessionFindingId(EXCESSIVE_DENIALS, session, agent, DENIAL_THRESHOLD, e, g)
      ensures p.ruleName == EXCESSIVE_DENIALS && p.sessionId == session && p.agentId == agent
    {
      assert WellNamed(p) && IsCrossingId(p.id);
      IdNamesEverything(p.sessionId, p.agentId, p.evidenceEvents, p.recoveryGeneration, session, agent, e, g);
    }
    forall p | p in log && p.ruleName == EXCESSIVE_DENIALS && p.sessionId == session && p.agentId == agent
      ensures p.id == SessionFindingId(EXCESSIVE_DENIALS, session, agent, DENIAL_THRESHOLD, p.evidenceEvents, p.recoveryGeneration)
    {
      assert WellNamed(p);
    }
  }

  /** An identifier is on file exactly when its crossing is. */
  lemma IdMeansNamed(log: seq<Finding>, session: string, agent: string, generation: nat, evidence: seq<nat>)
    requires FaithfulIds(log, session, agent)
    ensures HasId(log, SessionFindingId(EXCESSIVE_DENIALS, session, agent, DENIAL_THRESHOLD, evidence, generation))
            <==> NamedAlready(log, session, agent, generation, evidence)
  {
    hide SessionFindingId;
    var id := SessionFindingId(EXCESSIVE_DENIALS, session, agent, DENIAL_THRESHOLD, evidence, generation);
    if HasId(log, id) {
      var i :| 0 <= i < |log| && log[i].id == id;
      assert log[i] in log;
      IdNamesCrossing(session, agent, log[i].evidenceEvents, log[i].recoveryGeneration, evidence, generation);
    }
    if NamedAlready(log, session, agent, generation, evidence) {
      var p :| p in log && p.sessionId == session && IsCrossing(p, agent, generation) && p.evidenceEvents == evidence;
      var i :| 0 <= i < |log| && log[i] == p;
      assert log[i].id == id;
    }
  }

  /** What a reported crossing overlaps, whether or not it is stored. */
  lemma ReportedOverlaps(denials: seq<Event>, log: seq<Finding>, session: string, agent: string, generation: nat, now: Time)
    requires RecordOrder(denials) && |denials| >= DENIAL_THRESHOLD
    ensures var f := Candidate(denials, Listed(log, agent, Some(session)), agent, generation, now);
            Charged(log, agent, generation, f.evidenceEvents)
            <==> StillOpen(log, session, agent, generation, InWindow(denials))
                 || ChargedElsewhere(log, session, agent, generation, FirstThree(denials))
  {
    var priors := Listed(log, agent, Some(session));
    var f := Candidate(denials, priors, agent, generation, now);
    ListedMembers(log, agent, Some(session));
    PriorForMeaning(priors, agent, generation, InWindow(denials));
    FirstThreeInWindow(denials);
    hide FirstThree, InWindow, Listed, PriorFor;
    if PriorFor(priors, agent, generation, InWindow(denials)).Some? {
      var p :| p in priors && IsCrossing(p, agent, generation) && Meets(p.evidenceEvents, InWindow(denials))
               && p.evidenceEvents == f.evidenceEvents;
      assert p.evidenceEvents[0] == f.evidenceEvents[0];
      assert Overlap(f.evidenceEvents, p.evidenceEvents);
      assert p in log && p.sessionId == session;
    } else {
      assert f.evidenceEvents == FirstThree(denials);
      assert forall p :: p in log && p.agentId == agent && p.sessionId == session ==> p in priors;
      forall p | p in log && IsCrossing(p, agent, generation) && Overlap(FirstThree(denials), p.evidenceEvents)
        ensures p.sessionId != session
      {
        var i, j :| 0 <= i < |FirstThree(denials)| && 0 <= j < |p.evidenceEvents| && FirstThree(denials)[i] == p.evidenceEvents[j];
        assert Meets(p.evidenceEvents, InWindow(denials));
      }
    }
  }

  /** When a denial is charged again. A request in `session` stores a crossing that shares evidence
      with one already charged in the lifecycle exactly when the crossing it reports is not stored
      under the last denial's session, and either a crossing stored for the requesting session
      still has evidence in the window or the window's first three denials are partly charged under
      another session. */
  lemma RechargesIff(denials: seq<Event>, log: seq<Finding>, session: string, agent: string, generation: nat, now: Time)
    requires RecordOrder(denials) && |denials| >= DENIAL_THRESHOLD
    requires FaithfulIds(log, denials[|denials| - 1].sessionId, agent)
    ensures var priors := Listed(log, agent, Some(session));
            var f := Candidate(denials, priors, agent, generation, now);
            !HasId(log, f.id) && Charged(log, agent, generation, f.evidenceEvents)
            <==>
            && !NamedAlready(log, denials[|denials| - 1].sessionId, agent, generation,
                             CrossingEvidence(denials, priors, agent, generation))
            && (StillOpen(log, session, agent, generation, InWindow(denials))
                || ChargedElsewhere(log, session, agent, generation, FirstThree(denials)))
  {
    hide CrossingEvidence, FirstThree, InWindow, Listed, FaithfulIds, SessionFindingId, Charged, StillOpen;
    ReportedOverlaps(denials, log, session, agent, generation, now);
    IdMeansNamed(log, denials[|denials| - 1].sessionId, agent, generation,
                 CrossingEvidence(denials, Listed(log, agent, Some(session)), agent, generation));
  }

  /** For an agent whose denials and crossings are all of one session the condition never holds. */
  lemma OneSessionNeverRecharges(denials: seq<Event>, log: seq<Finding>, session: string, agent: string, generation: nat, now: Time)
    requires RecordOrder(denials) && |denials| >= DENIAL_THRESHOLD && FaithfulIds(log, session, agent)
    requires denials[|denials| - 1].sessionId == session
    requires forall p :: p in log && IsCrossing(p, agent, generation) ==> p.sessionId == session
    ensures var f := Candidate(denials, Listed(log, agent, Some(session)), agent, generation, now);
            HasId(log, f.id) || !Charged(log, agent, generation, f.evidenceEvents)
  {
    var priors := Listed(log, agent, Some(session));
    RechargesIff(denials, log, session, agent, generation, now);
    ListedMembers(log, agent, Some(session));
    PriorForMeaning(priors, agent, generation, InWindow(denials));
    hide FirstThree, InWindow, Listed, PriorFor, FaithfulIds, SessionFindingId, RecordOrder;
    if StillOpen(log, session, agent, generation, InWindow(denials)) {
      var q :| q in log && q.sessionId == session && IsCrossing(q, agent, generation) && Meets(q.evidenceEvents, InWindow(denials));
      assert q in priors;
      var p :| p in priors && IsCrossing(p, agent, generation)
               && p.evidenceEvents == PriorFor(priors, agent, generation, InWindow(denials)).value;
      assert p in log && p.sessionId == session;
      assert NamedAlready(log, session, agent, generation, CrossingEvidence(denials, priors, agent, generation));
    }
  }
}
