/** app/services/agent_risk_aggregate.py and the scoring half of app/services/risk_service.py:
    one agent's risk posture, maintained incrementally or rebuilt from the evidence. */
module RiskProjection {
  import opened Prelude
  import opened Findings

  datatype RiskLevel = LowRisk | MediumRisk | HighRisk | CriticalRisk

  datatype PostureState = UNINITIALIZED | HEALTHY | STALE

  /** `BaselineWatermark`: the boundary left by the last reinstatement, once per namespace. */
  datatype Watermark = Watermark(baselineAt: Option<Time>, evidence: nat, agentEvents: nat)

  const NO_BASELINE := Watermark(None, 0, 0)

  datatype Tally = Tally(bySeverity: map<Severity, nat>, byRule: map<string, nat>, count: nat)

  datatype Projection = Projection(
    agentId: string,
    vocabulary: set<string>,
    baselineAt: Option<Time>,
    baseline: nat,
    cursor: nat,
    tally: Tally,
    score: nat,
    level: RiskLevel,
    state: PostureState)

  const EMPTY_TALLY := Tally(map[LOW := 0, MEDIUM := 0, HIGH := 0, CRITICAL := 0], map[], 0)

  // ---- scoring ------------------------------------------------------------------

  function Weight(s: Severity): nat {
    match s case LOW => 10 case MEDIUM => 25 case HIGH => 50 case CRITICAL => 100
  }

  /** `level_for_score` */
  function LevelFor(score: int): RiskLevel {
    if score >= 100 then CriticalRisk
    else if score >= 50 then HighRisk
    else if score >= 25 then MediumRisk
    else LowRisk
  }

  function Rank(l: RiskLevel): nat {
    match l case LowRisk => 0 case MediumRisk => 1 case HighRisk => 2 case CriticalRisk => 3
  }

  lemma LevelMonotone(a: int, b: int)
    requires a <= b
    ensures Rank(LevelFor(a)) <= Rank(LevelFor(b))
  {
  }

  /** `score_findings` */
  function ScoreFindings(fs: seq<Finding>): nat {
    if fs == [] then 0 else ScoreFindings(fs[..|fs| - 1]) + Weight(fs[|fs| - 1].severity)
  }

  function At(m: map<Severity, nat>, s: Severity): nat {
    if s in m then m[s] else 0
  }

  /** `_recalculate_score_and_level`: the weighted sum over the four severities. */
  function TallyScore(t: Tally): nat {
    At(t.bySeverity, LOW) * 10 + At(t.bySeverity, MEDIUM) * 25
    + At(t.bySeverity, HIGH) * 50 + At(t.bySeverity, CRITICAL) * 100
  }

  // ---- the evidence that counts ---------------------------------------------------

  predicate Active(f: Finding) {
    f.status == OPEN || f.status == ACKNOWLEDGED
  }

  function AcceptedTime(f: Finding): Time {
    if f.recordedAt.Some? then f.recordedAt.value else f.createdAt
  }

  predicate AfterBaseline(f: Finding, agent: string, w: Watermark) {
    && f.agentId == agent
    && f.sequence > w.evidence
    && (w.baselineAt.Some? ==> AcceptedTime(f) > w.baselineAt.value)
  }

  function PostBaseline(log: seq<Finding>, agent: string, w: Watermark): seq<Finding> {
    if log == [] then []
    else
      var rest := PostBaseline(log[..|log| - 1], agent, w);
      var f := log[|log| - 1];
      if AfterBaseline(f, agent, w) then rest + [f] else rest
  }

  function ActiveOnly(fs: seq<Finding>): seq<Finding> {
    if fs == [] then []
    else
      var rest := ActiveOnly(fs[..|fs| - 1]);
      if Active(fs[|fs| - 1]) then rest + [fs[|fs| - 1]] else rest
  }

  function MaxSequence(fs: seq<Finding>, floor: nat): nat {
    if fs == [] then floor else Max(MaxSequence(fs[..|fs| - 1], floor), fs[|fs| - 1].sequence)
  }

  function Count(t: Tally, f: Finding, vocabulary: set<string>): Tally {
    if !Active(f) then t
    else Tally(
           t.bySeverity[f.severity := At(t.bySeverity, f.severity) + 1],
           if f.ruleId != "" && f.ruleId in vocabulary
           then t.byRule[f.ruleId := Counter(t.byRule, f.ruleId) + 1] else t.byRule,
           t.count + 1)
  }

  function TallyOf(fs: seq<Finding>, vocabulary: set<string>): Tally {
    if fs == [] then EMPTY_TALLY
    else Count(TallyOf(fs[..|fs| - 1], vocabulary), fs[|fs| - 1], vocabulary)
  }

  // ---- the operations as functions --------------------------------------------------

  /** A projection whose score and level are derived from its counts. */
  function Derived(agent: string, vocabulary: set<string>, w: Watermark, cursor: nat, t: Tally,
                   state: PostureState): Projection {
    Projection(agent, vocabulary, w.baselineAt, w.evidence, cursor, t,
               TallyScore(t), LevelFor(TallyScore(t)), state)
  }

  /** `__init__` and `reset_to_baseline` */
  function Reset(agent: string, vocabulary: set<string>, w: Watermark): Projection {
    Projection(agent, vocabulary, w.baselineAt, w.evidence, w.evidence, EMPTY_TALLY, 0, LowRisk, HEALTHY)
  }

  /** `rebuild_from_findings` */
  function Rebuild(agent: string, vocabulary: set<string>, log: seq<Finding>, w: Watermark): Projection {
    var post := PostBaseline(log, agent, w);
    Derived(agent, vocabulary, w, MaxSequence(post, w.evidence), TallyOf(post, vocabulary), HEALTHY)
  }

  datatype ApplyError = AgentMismatch | UnassignedFinding | CursorBeforeBaseline

  /** `apply_finding`: the projection afterwards and whether the finding was applied. */
  function Apply(p: Projection, f: Finding): (Projection, Result<bool, ApplyError>) {
    if f.agentId != p.agentId then (p, Err(AgentMismatch))
    else if f.sequence <= UNASSIGNED then (p, Err(UnassignedFinding))
    else if f.sequence <= p.baseline then (p, Ok(false))
    else if f.sequence <= p.cursor then (p, Ok(false))
    else if p.baselineAt.Some? && AcceptedTime(f) <= p.baselineAt.value then
      (p.(state := STALE), Ok(false))
    else if f.sequence > p.cursor + 1 then (p.(state := STALE), Ok(false))
    else
      var t := Count(p.tally, f, p.vocabulary);
      (p.(cursor := f.sequence, tally := t,
          score := if Active(f) then TallyScore(t) else p.score,
          level := if Active(f) then LevelFor(TallyScore(t)) else p.level), Ok(true))
  }

  // ---- what the numbers mean --------------------------------------------------------

  function CountSeverity(fs: seq<Finding>, s: Severity): nat {
    if fs == [] then 0
    else CountSeverity(fs[..|fs| - 1], s)
         + (if Active(fs[|fs| - 1]) && fs[|fs| - 1].severity == s then 1 else 0)
  }

  function CountRule(fs: seq<Finding>, rule: string): nat {
    if fs == [] then 0
    else CountRule(fs[..|fs| - 1], rule) + (if Active(fs[|fs| - 1]) && fs[|fs| - 1].ruleId == rule then 1 else 0)
  }

  /** The counters count: active findings per severity, per known named rule, and in all. */
  lemma {:induction false} TallyCounts(fs: seq<Finding>, vocabulary: set<string>, s: Severity, rule: string)
    ensures At(TallyOf(fs, vocabulary).bySeverity, s) == CountSeverity(fs, s)
    ensures Counter(TallyOf(fs, vocabulary).byRule, rule)
            == if rule != "" && rule in vocabulary then CountRule(fs, rule) else 0
    ensures TallyOf(fs, vocabulary).count == |ActiveOnly(fs)|
    ensures TallyOf(fs, vocabulary).byRule.Keys <= vocabulary
  {
    if fs != [] {
      TallyCounts(fs[..|fs| - 1], vocabulary, s, rule);
    }
  }

  lemma CountAddsWeight(t: Tally, f: Finding, vocabulary: set<string>)
    ensures TallyScore(Count(t, f, vocabulary)) == TallyScore(t) + (if Active(f) then Weight(f.severity) else 0)
  {
  }

  /** Two services agree: the projection's weighted counts are what the session assessment's
      `score_findings` gives for the active findings. */
  lemma {:induction false} TallyScoreIsFindingScore(fs: seq<Finding>, vocabulary: set<string>)
    ensures TallyScore(TallyOf(fs, vocabulary)) == ScoreFindings(ActiveOnly(fs))
  {
    hide TallyScore, Count;
    if fs == [] {
      assert TallyScore(EMPTY_TALLY) == 0 by { EmptyTallyScore(); }
    } else {
      TallyScoreIsFindingScore(fs[..|fs| - 1], vocabulary);
      CountAddsWeight(TallyOf(fs[..|fs| - 1], vocabulary), fs[|fs| - 1], vocabulary);
      var rest := ActiveOnly(fs[..|fs| - 1]);
      assert (rest + [fs[|fs| - 1]])[..|rest|] == rest;
    }
  }

  lemma EmptyTallyScore()
    ensures TallyScore(EMPTY_TALLY) == 0
  {
  }

  /** How many of the log's findings count for the agent at the boundary with the given severity: its
      own, numbered and accepted after the boundary, and neither resolved nor a false positive. */
  function Counting(log: seq<Finding>, agent: string, w: Watermark, severity: Severity): nat {
    if log == [] then 0
    else
      var f := log[|log| - 1];
      Counting(log[..|log| - 1], agent, w, severity)
      + (if f.agentId == agent && f.severity == severity && f.status in {OPEN, ACKNOWLEDGED} && f.sequence > w.evidence
            && (w.baselineAt.Some? ==> (if f.recordedAt.Some? then f.recordedAt.value else f.createdAt) > w.baselineAt.value)
         then 1 else 0)
  }

  lemma {:induction false} CountingIsCount(log: seq<Finding>, agent: string, w: Watermark, severity: Severity)
    ensures CountSeverity(PostBaseline(log, agent, w), severity) == Counting(log, agent, w, severity)
  {
    if log != [] {
      var front, f := log[..|log| - 1], log[|log| - 1];
      CountingIsCount(front, agent, w, severity);
      var rest := PostBaseline(front, agent, w);
      assert (rest + [f])[..|rest|] == rest;
    }
  }

  /** What a rebuilt posture says: 10, 25, 50 and 100 points for each LOW, MEDIUM, HIGH and CRITICAL
      finding that counts, and the level with thresholds at 25, 50 and 100 points. */
  lemma PostureIsWeighted(agent: string, vocabulary: set<string>, log: seq<Finding>, w: Watermark)
    ensures var p := Rebuild(agent, vocabulary, log, w);
            && p.score == 10 * Counting(log, agent, w, LOW) + 25 * Counting(log, agent, w, MEDIUM)
                          + 50 * Counting(log, agent, w, HIGH) + 100 * Counting(log, agent, w, CRITICAL)
            && (p.level == LowRisk <==> p.score < 25) && (p.level == MediumRisk <==> 25 <= p.score < 50)
            && (p.level == HighRisk <==> 50 <= p.score < 100) && (p.level == CriticalRisk <==> p.score >= 100)
            && p.agentId == agent && p.state == HEALTHY && p.baseline == w.evidence && p.baselineAt == w.baselineAt
  {
    var post := PostBaseline(log, agent, w);
    TallyCounts(post, vocabulary, LOW, "");
    TallyCounts(post, vocabulary, MEDIUM, "");
    TallyCounts(post, vocabulary, HIGH, "");
    TallyCounts(post, vocabulary, CRITICAL, "");
    CountingIsCount(log, agent, w, LOW);
    CountingIsCount(log, agent, w, MEDIUM);
    CountingIsCount(log, agent, w, HIGH);
    CountingIsCount(log, agent, w, CRITICAL);
    hide PostBaseline, Counting, CountSeverity, TallyOf, MaxSequence;
  }

  // ---- the aggregate ------------------------------------------------------------------

  class AgentRiskAggregate {
    const agentId: string
    const vocabulary: set<string>
    var baselineAt: Option<Time>
    var baseline: nat
    var lastAppliedSequence: nat
    var countsBySeverity: map<Severity, nat>
    var countsByRule: map<string, nat>
    var findingCount: nat
    var riskScore: nat
    var riskLevel: RiskLevel
    var state: PostureState

    ghost function View(): Projection
      reads this
    {
      Projection(agentId, vocabulary, baselineAt, baseline, lastAppliedSequence,
                 Tally(countsBySeverity, countsByRule, findingCount), riskScore, riskLevel, state)
    }

    constructor (agent: string, vocabulary: set<string>, mark: Watermark)
      ensures View() == Reset(agent, vocabulary, mark)
    {
      this.agentId, this.vocabulary := agent, vocabulary;
      baselineAt, baseline, lastAppliedSequence := mark.baselineAt, mark.evidence, mark.evidence;
      countsBySeverity, countsByRule, findingCount := EMPTY_TALLY.bySeverity, map[], 0;
      riskScore, riskLevel, state := 0, LowRisk, HEALTHY;
    }

    method RecalculateScoreAndLevel()
      modifies this`riskScore, this`riskLevel
      ensures riskScore == TallyScore(View().tally) && riskLevel == LevelFor(riskScore)
    {
      riskScore := At(countsBySeverity, LOW) * Weight(LOW) + At(countsBySeverity, MEDIUM) * Weight(MEDIUM)
                   + At(countsBySeverity, HIGH) * Weight(HIGH) + At(countsBySeverity, CRITICAL) * Weight(CRITICAL);
      riskLevel := LevelFor(riskScore);
    }

    method CountFinding(f: Finding)
      requires Active(f)
      modifies this`countsBySeverity, this`countsByRule, this`findingCount
      ensures View().tally == Count(old(View().tally), f, vocabulary)
    {
      countsBySeverity := countsBySeverity[f.severity := At(countsBySeverity, f.severity) + 1];
      if f.ruleId != "" && f.ruleId in vocabulary {
        countsByRule := countsByRule[f.ruleId := Counter(countsByRule, f.ruleId) + 1];
      }
      findingCount := findingCount + 1;
    }

    method ApplyFinding(f: Finding) returns (r: Result<bool, ApplyError>)
      modifies this
      ensures (View(), r) == Apply(old(View()), f)
    {
      if f.agentId != agentId {
        return Err(AgentMismatch);
      }
      if f.sequence <= UNASSIGNED {
        return Err(UnassignedFinding);
      }
      if f.sequence <= baseline || f.sequence <= lastAppliedSequence {
        return Ok(false);
      }
      if baselineAt.Some? && AcceptedTime(f) <= baselineAt.value {
        state := STALE;
        return Ok(false);
      }
      if f.sequence > lastAppliedSequence + 1 {
        state := STALE;
        return Ok(false);
      }
      lastAppliedSequence := f.sequence;
      if Active(f) {
        CountFinding(f);
        RecalculateScoreAndLevel();
      }
      r := Ok(true);
    }

    method RebuildFromFindings(findings: seq<Finding>, mark: Watermark)
      modifies this
      ensures View() == Rebuild(agentId, vocabulary, findings, mark)
    {
      baselineAt, baseline := mark.baselineAt, mark.evidence;
      countsBySeverity, countsByRule, findingCount := EMPTY_TALLY.bySeverity, map[], 0;
      var post: seq<Finding> := [];
      for i := 0 to |findings|
        invariant post == PostBaseline(findings[..i], agentId, mark)
      {
        assert findings[..i + 1][..i] == findings[..i];
        if AfterBaseline(findings[i], agentId, mark) {
          post := post + [findings[i]];
        }
      }
      assert findings[..|findings|] == findings;
      lastAppliedSequence := MaxSequence(post, mark.evidence);
      for i := 0 to |post|
        invariant baselineAt == mark.baselineAt && baseline == mark.evidence
        invariant lastAppliedSequence == MaxSequence(post, mark.evidence)
        invariant View().tally == TallyOf(post[..i], vocabulary)
      {
        assert post[..i + 1][..i] == post[..i];
        if Active(post[i]) {
          CountFinding(post[i]);
        }
      }
      assert post[..|post|] == post;
      RecalculateScoreAndLevel();
      state := HEALTHY;
    }

    method ResetToBaseline(mark: Watermark)
      modifies this
      ensures View() == Reset(agentId, vocabulary, mark)
    {
      baselineAt, baseline, lastAppliedSequence := mark.baselineAt, mark.evidence, mark.evidence;
      countsBySeverity, countsByRule, findingCount := EMPTY_TALLY.bySeverity, map[], 0;
      riskScore, riskLevel, state := 0, LowRisk, HEALTHY;
    }

    method MarkStale()
      modifies this`state
      ensures View() == old(View()).(state := STALE)
    {
      state := STALE;
    }

    /** `snapshot` re-checks that the cursor does not precede the baseline. */
    method Snapshot() returns (posture: Result<Projection, ApplyError>)
      ensures posture == if lastAppliedSequence < baseline then Err(CursorBeforeBaseline) else Ok(View())
    {
      if lastAppliedSequence < baseline {
        return Err(CursorBeforeBaseline);
      }
      return Ok(Projection(agentId, vocabulary, baselineAt, baseline, lastAppliedSequence,
                           Tally(countsBySeverity, countsByRule, findingCount), riskScore, riskLevel, state));
    }
  }
}
