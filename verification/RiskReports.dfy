/** The reporting half of app/services/risk_service.py: assessments per session and agent,
    derived from the evidence on demand. */
module RiskReports {
  import opened Prelude
  import opened Findings
  import opened RiskProjection
  import opened Binding

  datatype Assessment = Assessment(sessionId: string, agentId: string, score: nat, level: RiskLevel, count: nat)

  datatype AssessmentError = MixedFindings

  function PairOf(f: Finding): Pair {
    (f.sessionId, f.agentId)
  }

  function OfPair(fs: seq<Finding>, pair: Pair): seq<Finding> {
    if fs == [] then []
    else
      var rest := OfPair(fs[..|fs| - 1], pair);
      if PairOf(fs[|fs| - 1]) == pair then rest + [fs[|fs| - 1]] else rest
  }

  /** The pairs that have findings, in order of first appearance. */
  function Pairs(fs: seq<Finding>): seq<Pair> {
    if fs == [] then []
    else
      var rest := Pairs(fs[..|fs| - 1]);
      if PairOf(fs[|fs| - 1]) in rest then rest else rest + [PairOf(fs[|fs| - 1])]
  }

  /** `_derive` */
  function Derive(pair: Pair, fs: seq<Finding>): Assessment {
    Assessment(pair.0, pair.1, ScoreFindings(fs), LevelFor(ScoreFindings(fs)), |fs|)
  }

  /** `assess_session` */
  function AssessSession(session: string, agent: string, fs: seq<Finding>): Result<Assessment, AssessmentError> {
    if exists i :: 0 <= i < |fs| && PairOf(fs[i]) != (session, agent) then Err(MixedFindings)
    else Ok(Derive((session, agent), fs))
  }

  function ReportOrder(fs: seq<Finding>): seq<Pair> {
    StableSort(PairOrder(), Pairs(fs))
  }

  function DeriveAll(pairs: seq<Pair>, fs: seq<Finding>): seq<Assessment> {
    seq(|pairs|, i requires 0 <= i < |pairs| => Derive(pairs[i], OfPair(fs, pairs[i])))
  }

  class RiskService {
    constructor () {}

    /** The grouping loop: a dictionary and the order of its keys. */
    method Group(findings: seq<Finding>) returns (keys: seq<Pair>, grouped: map<Pair, seq<Finding>>)
      ensures keys == Pairs(findings)
      ensures forall k :: k in keys <==> k in grouped
      ensures forall k :: OfPair(findings, k) == if k in grouped then grouped[k] else []
    {
      keys, grouped := [], map[];
      for i := 0 to |findings|
        invariant keys == Pairs(findings[..i])
        invariant forall k :: k in keys <==> k in grouped
        invariant forall k :: OfPair(findings[..i], k) == if k in grouped then grouped[k] else []
      {
        assert findings[..i + 1][..i] == findings[..i];
        var k := PairOf(findings[i]);
        assert OfPair(findings[..i], k) == if k in grouped then grouped[k] else [];
        if k !in grouped {
          keys := keys + [k];
          grouped := grouped[k := [findings[i]]];
        } else {
          grouped := grouped[k := grouped[k] + [findings[i]]];
        }
      }
      assert findings[..|findings|] == findings;
    }

    /** `reconstruct`: group in one pass, then derive pair by pair in sorted order. */
    method Reconstruct(findings: seq<Finding>) returns (assessments: seq<Assessment>)
      ensures assessments == DeriveAll(ReportOrder(findings), findings)
    {
      hide ScoreFindings, StableSort, OfPair, Pairs, PairOrder;
      var keys, grouped := Group(findings);
      var order := StableSort(PairOrder(), keys);
      SortedMembers(keys);
      assessments := [];
      for i := 0 to |order|
        invariant assessments == DeriveAll(order[..i], findings)
      {
        assert order[i] in order;
        assert order[..i + 1] == order[..i] + [order[i]];
        DeriveSnoc(order[..i], order[i], findings);
        assessments := assessments + [Derive(order[i], grouped[order[i]])];
      }
      assert order[..|order|] == order;
    }
  }

  lemma SortedMembers(keys: seq<Pair>)
    ensures forall k :: k in StableSort(PairOrder(), keys) <==> k in keys
    ensures Ordered(PairOrder(), StableSort(PairOrder(), keys))
  {
    PairOrderTotal();
    StableSortSorts(PairOrder(), keys);
    assert forall k :: k in StableSort(PairOrder(), keys) <==> k in multiset(StableSort(PairOrder(), keys));
    assert forall k :: k in keys <==> k in multiset(keys);
  }

  /** How many of the findings have the severity. */
  function WithSeverity(fs: seq<Finding>, severity: Severity): nat {
    if fs == [] then 0 else WithSeverity(fs[..|fs| - 1], severity) + (if fs[|fs| - 1].severity == severity then 1 else 0)
  }

  lemma {:induction false} ScoreIsWeighted(fs: seq<Finding>)
    ensures ScoreFindings(fs) == 10 * WithSeverity(fs, LOW) + 25 * WithSeverity(fs, MEDIUM) + 50 * WithSeverity(fs, HIGH)
                                 + 100 * WithSeverity(fs, CRITICAL)
  {
    if fs != [] {
      ScoreIsWeighted(fs[..|fs| - 1]);
    }
  }

  /** What an assessment says of a session: it is refused exactly when some finding is of another session
      or agent; else it names both, counts the findings, and scores them, whatever their status, with 10,
      25, 50 and 100 points by severity and levels at 25, 50 and 100. */
  lemma AssessmentMeans(session: string, agent: string, fs: seq<Finding>)
    ensures var r := AssessSession(session, agent, fs);
            && (r == Err(MixedFindings) <==> exists f :: f in fs && (f.sessionId != session || f.agentId != agent))
            && (r.Ok? ==>
                  var a := r.value;
                  && a.sessionId == session && a.agentId == agent && a.count == |fs|
                  && a.score == 10 * WithSeverity(fs, LOW) + 25 * WithSeverity(fs, MEDIUM) + 50 * WithSeverity(fs, HIGH)
                                + 100 * WithSeverity(fs, CRITICAL)
                  && (a.level == LowRisk <==> a.score < 25) && (a.level == MediumRisk <==> 25 <= a.score < 50)
                  && (a.level == HighRisk <==> 50 <= a.score < 100) && (a.level == CriticalRisk <==> a.score >= 100))
  {
    ScoreIsWeighted(fs);
    hide ScoreFindings, WithSeverity;
    if f :| f in fs && (f.sessionId != session || f.agentId != agent) {
      var i :| 0 <= i < |fs| && fs[i] == f;
      assert PairOf(fs[i]) != (session, agent);
    }
  }

  // ---- what a reconstruction says ---------------------------------------------------------------

  function Total(assessments: seq<Assessment>): nat {
    if assessments == [] then 0 else Total(assessments[..|assessments| - 1]) + assessments[|assessments| - 1].score
  }

  function TotalCount(assessments: seq<Assessment>): nat {
    if assessments == [] then 0 else TotalCount(assessments[..|assessments| - 1]) + assessments[|assessments| - 1].count
  }

  lemma DeriveSnoc(pairs: seq<Pair>, k: Pair, fs: seq<Finding>)
    ensures DeriveAll(pairs + [k], fs) == DeriveAll(pairs, fs) + [Derive(k, OfPair(fs, k))]
  {
  }

  lemma TotalSnoc(a: seq<Assessment>, x: Assessment)
    ensures Total(a + [x]) == Total(a) + x.score && TotalCount(a + [x]) == TotalCount(a) + x.count
  {
    assert (a + [x])[..|a|] == a;
  }

  /** Sorting the pairs does not change what their assessments add up to. */
  lemma {:induction false} InsertTotal(pairs: seq<Pair>, k: Pair, fs: seq<Finding>)
    ensures var a := DeriveAll(InsertStable(PairOrder(), pairs, k), fs);
            && Total(a) == Total(DeriveAll(pairs, fs)) + ScoreFindings(OfPair(fs, k))
            && TotalCount(a) == TotalCount(DeriveAll(pairs, fs)) + |OfPair(fs, k)|
  {
    hide ScoreFindings, OfPair, PairOrder, Total, TotalCount, DeriveAll;
    if pairs == [] || PairOrder()(pairs[|pairs| - 1], k) {
      DeriveSnoc(pairs, k, fs);
      TotalSnoc(DeriveAll(pairs, fs), Derive(k, OfPair(fs, k)));
    } else {
      var front, last := pairs[..|pairs| - 1], pairs[|pairs| - 1];
      InsertTotal(front, k, fs);
      DeriveSnoc(InsertStable(PairOrder(), front, k), last, fs);
      DeriveSnoc(front, last, fs);
      assert pairs == front + [last];
      TotalSnoc(DeriveAll(InsertStable(PairOrder(), front, k), fs), Derive(last, OfPair(fs, last)));
      TotalSnoc(DeriveAll(front, fs), Derive(last, OfPair(fs, last)));
    }
  }

  lemma {:induction false} SortTotal(pairs: seq<Pair>, fs: seq<Finding>)
    ensures var a := DeriveAll(StableSort(PairOrder(), pairs), fs);
            Total(a) == Total(DeriveAll(pairs, fs)) && TotalCount(a) == TotalCount(DeriveAll(pairs, fs))
  {
    hide ScoreFindings, OfPair, PairOrder, Total, TotalCount, DeriveAll;
    if pairs != [] {
      var front, last := pairs[..|pairs| - 1], pairs[|pairs| - 1];
      SortTotal(front, fs);
      InsertTotal(StableSort(PairOrder(), front), last, fs);
      DeriveSnoc(front, last, fs);
      assert pairs == front + [last];
      TotalSnoc(DeriveAll(front, fs), Derive(last, OfPair(fs, last)));
    }
  }

  predicate NoRepeats(pairs: seq<Pair>) {
    forall i, j :: 0 <= i < j < |pairs| ==> pairs[i] != pairs[j]
  }

  /** One more finding adds its weight to its own pair's assessment and to no other. */
  lemma {:induction false} FindingAdds(pairs: seq<Pair>, front: seq<Finding>, f: Finding)
    requires NoRepeats(pairs)
    ensures var before, after := DeriveAll(pairs, front), DeriveAll(pairs, front + [f]);
            && Total(after) == Total(before) + (if PairOf(f) in pairs then Weight(f.severity) else 0)
            && TotalCount(after) == TotalCount(before) + (if PairOf(f) in pairs then 1 else 0)
  {
    hide Total, TotalCount, DeriveAll, ScoreFindings, OfPair;
    if pairs == [] {
      assert DeriveAll(pairs, front) == DeriveAll(pairs, front + [f]) by { NoPairs(front, front + [f]); }
    } else {
      var rest, last := pairs[..|pairs| - 1], pairs[|pairs| - 1];
      assert pairs == rest + [last];
      FindingAdds(rest, front, f);
      DeriveSnoc(rest, last, front);
      DeriveSnoc(rest, last, front + [f]);
      TotalSnoc(DeriveAll(rest, front), Derive(last, OfPair(front, last)));
      TotalSnoc(DeriveAll(rest, front + [f]), Derive(last, OfPair(front + [f], last)));
      OfPairSnoc(front, f, last);
    }
  }

  lemma NoPairs(a: seq<Finding>, b: seq<Finding>)
    ensures DeriveAll([], a) == DeriveAll([], b) == []
  {
  }

  lemma OfPairSnoc(front: seq<Finding>, f: Finding, pair: Pair)
    ensures |OfPair(front + [f], pair)| == |OfPair(front, pair)| + (if PairOf(f) == pair then 1 else 0)
    ensures ScoreFindings(OfPair(front + [f], pair))
            == ScoreFindings(OfPair(front, pair)) + (if PairOf(f) == pair then Weight(f.severity) else 0)
  {
    assert (front + [f])[..|front|] == front;
    var rest := OfPair(front, pair);
    assert (rest + [f])[..|rest|] == rest;
  }

  lemma {:induction false} PairsMembers(fs: seq<Finding>)
    ensures NoRepeats(Pairs(fs))
    ensures forall k :: k in Pairs(fs) <==> exists f :: f in fs && PairOf(f) == k
  {
    if fs != [] {
      var front, last := fs[..|fs| - 1], fs[|fs| - 1];
      PairsMembers(front);
      assert fs == front + [last];
    }
  }

  lemma {:induction false} NothingOfPair(fs: seq<Finding>, k: Pair)
    requires forall f :: f in fs ==> PairOf(f) != k
    ensures OfPair(fs, k) == []
  {
    if fs != [] {
      assert fs == fs[..|fs| - 1] + [fs[|fs| - 1]];
      NothingOfPair(fs[..|fs| - 1], k);
    }
  }

  lemma {:induction false} PairsTotal(fs: seq<Finding>)
    ensures Total(DeriveAll(Pairs(fs), fs)) == ScoreFindings(fs)
    ensures TotalCount(DeriveAll(Pairs(fs), fs)) == |fs|
  {
    if fs == [] {
      NoPairs(fs, fs);
    } else {
      var front, last := fs[..|fs| - 1], fs[|fs| - 1];
      var k := PairOf(last);
      assert fs == front + [last];
      PairsTotal(front);
      PairsMembers(front);
      PairsMembers(fs);
      hide Total, TotalCount, DeriveAll;
      FindingAdds(Pairs(fs), front, last);
      if k !in Pairs(front) {
        NothingOfPair(front, k);
        DeriveSnoc(Pairs(front), k, front);
        TotalSnoc(DeriveAll(Pairs(front), front), Derive(k, []));
      }
    }
  }

  function Named(a: Assessment): Pair {
    (a.sessionId, a.agentId)
  }

  predicate Covered(assessments: seq<Assessment>, pair: Pair) {
    exists i :: 0 <= i < |assessments| && Named(assessments[i]) == pair
  }

  predicate HasEvidence(fs: seq<Finding>, pair: Pair) {
    exists f :: f in fs && PairOf(f) == pair
  }

  /** Assessments are defined by evidence: one for each session and agent that has findings and
      none for others, in strictly increasing order, and together they account for every
      finding and every point of its weight exactly once. */
  lemma ReconstructionAccountsForEvidence(fs: seq<Finding>)
    ensures var a := DeriveAll(ReportOrder(fs), fs);
            && (forall i, j :: 0 <= i < j < |a| ==> PairLE(Named(a[i]), Named(a[j])) && Named(a[i]) != Named(a[j]))
            && (forall k :: Covered(a, k) <==> HasEvidence(fs, k))
            && Total(a) == ScoreFindings(fs) && TotalCount(a) == |fs|
  {
    hide Total, TotalCount, ScoreFindings, OfPair, Pairs, StableSort, InsertStable;
    var keys, order, a := Pairs(fs), ReportOrder(fs), DeriveAll(ReportOrder(fs), fs);
    PairsMembers(fs);
    PairsTotal(fs);
    SortTotal(keys, fs);
    SortedMembers(keys);
    SortKeepsDistinct(keys);
    forall i | 0 <= i < |a| ensures Named(a[i]) == order[i] {
    }
    forall i, j | 0 <= i < j < |a| ensures PairLE(Named(a[i]), Named(a[j])) && Named(a[i]) != Named(a[j]) {
      assert PairOrder()(order[i], order[j]);
    }
    forall k ensures Covered(a, k) <==> k in order {
      if k in order {
        var i :| 0 <= i < |order| && order[i] == k;
        assert Named(a[i]) == k;
      }
    }
  }

  lemma SortKeepsDistinct(keys: seq<Pair>)
    requires NoRepeats(keys)
    ensures NoRepeats(StableSort(PairOrder(), keys))
  {
    var order := StableSort(PairOrder(), keys);
    PairOrderTotal();
    StableSortSorts(PairOrder(), keys);
    forall i, j | 0 <= i < j < |order| ensures order[i] != order[j] {
      if order[i] == order[j] {
        RepeatedTwice(order, i, j);
        OnceEach(keys, order[i]);
      }
    }
  }

  lemma {:induction false} OnceEach(keys: seq<Pair>, k: Pair)
    requires NoRepeats(keys)
    ensures multiset(keys)[k] <= 1
  {
    if keys != [] {
      OnceEach(keys[..|keys| - 1], k);
      assert keys == keys[..|keys| - 1] + [keys[|keys| - 1]];
      if k == keys[|keys| - 1] {
        assert k !in keys[..|keys| - 1];
      }
    }
  }

  lemma {:induction false} OfPairMembers(fs: seq<Finding>, pair: Pair)
    ensures forall f :: f in OfPair(fs, pair) ==> PairOf(f) == pair
  {
    if fs != [] {
      OfPairMembers(fs[..|fs| - 1], pair);
    }
  }

  /** The management plane's reconstruction and a request's own assessment of its session are
      one derivation. */
  lemma ReconstructionIsSessionAssessment(fs: seq<Finding>, i: nat)
    requires i < |DeriveAll(ReportOrder(fs), fs)|
    ensures var a := DeriveAll(ReportOrder(fs), fs)[i];
            AssessSession(a.sessionId, a.agentId, OfPair(fs, Named(a))) == Ok(a)
  {
    var a := DeriveAll(ReportOrder(fs), fs)[i];
    OfPairMembers(fs, Named(a));
    assert forall j :: 0 <= j < |OfPair(fs, Named(a))| ==> OfPair(fs, Named(a))[j] in OfPair(fs, Named(a));
  }
}
