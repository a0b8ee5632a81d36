/** Runs of the evidence store together with the risk projections that summarise it:
    app/services/risk_aggregator.py driven by app/services/runtime_service.py:1208-1221 and
    app/services/enforcement_coordinator.py:86-123. */
module RiskRuns {
  import opened Prelude
  import opened Findings
  import opened RiskProjection
  import opened RiskAggregation

  /** `list_findings(agent_id=...)` */
  function OfAgent(log: seq<Finding>, agent: string): seq<Finding> {
    Listed(log, agent, None)
  }

  // ---- the world and its steps ------------------------------------------------------

  datatype World = World(
    clock: Time,
    store: Store,
    baselines: map<string, Watermark>,
    projections: Projections,
    vocabulary: set<string>)

  function BaselineOf(w: World, agent: string): Watermark {
    if agent in w.baselines then w.baselines[agent] else NO_BASELINE
  }

  predicate Healthy(w: World, agent: string) {
    agent in w.projections && w.projections[agent].state == HEALTHY
  }

  function FullRebuild(w: World, agent: string): Projection {
    Rebuild(agent, w.vocabulary, w.store.log, BaselineOf(w, agent))
  }

  datatype Step =
    | Accept(elapsed: nat, candidates: seq<Finding>, faults: set<nat>)
    | Distrust(agent: string)
    | Assess(agent: string)
    | Reinstate(agent: string, elapsed: nat, agentEvents: nat)

  function Next(w: World, step: Step): World {
    match step
    case Accept(elapsed, candidates, faults) =>
      var now := w.clock + elapsed;
      var (store, accepted) := RecordNew(w.store, candidates, now);
      w.(clock := now, store := store, projections := IngestAll(w.projections, accepted, faults))
    case Distrust(agent) =>
      w.(projections := MarkStale(w.projections, agent))
    case Assess(agent) =>
      if Healthy(w, agent) then w
      else w.(projections := w.projections[agent :=
          Rebuild(agent, w.vocabulary, OfAgent(w.store.log, agent), BaselineOf(w, agent))])
    case Reinstate(agent, elapsed, agentEvents) =>
      var now := w.clock + elapsed;
      var mark := Watermark(Some(now), CaptureBaseline(w.store, agent, now), agentEvents);
      w.(clock := now, baselines := w.baselines[agent := mark],
         projections := w.projections[agent := Reset(agent, w.vocabulary, mark)])
  }

  function Run(w: World, steps: seq<Step>): World {
    if steps == [] then w else Next(Run(w, steps[..|steps| - 1]), steps[|steps| - 1])
  }

  function Start(clock: Time, vocabulary: set<string>): World {
    World(clock, EMPTY_STORE, map[], map[], vocabulary)
  }

  // ---- what every step keeps ----------------------------------------------------------

  /** Numbers grow along an agent's findings, recording times along the whole log. */
  ghost predicate Grown(s: Store, clock: Time) {
    && UniqueIds(s.log)
    && (forall i :: 0 <= i < |s.log| ==>
          && 1 <= s.log[i].sequence <= Counter(s.sequences, s.log[i].agentId)
          && s.log[i].recordedAt.Some?
          && s.log[i].id in s.recordedAt
          && s.recordedAt[s.log[i].id] == s.log[i].recordedAt.value <= clock)
    && (forall i, j :: 0 <= i < j < |s.log| ==>
          && s.log[i].recordedAt.value <= s.log[j].recordedAt.value
          && (s.log[i].agentId == s.log[j].agentId ==> s.log[i].sequence < s.log[j].sequence))
  }

  /** The boundary never runs ahead of the allocator, and what it excludes by number was
      also accepted by the boundary's moment. */
  ghost predicate BaselineSound(w: World, agent: string) {
    var mark := BaselineOf(w, agent);
    && mark.evidence <= Counter(w.store.sequences, agent)
    && (mark.baselineAt.None? ==> mark.evidence == 0)
    && (mark.baselineAt.Some? ==>
          && mark.baselineAt.value <= w.clock
          && forall i :: 0 <= i < |w.store.log| && w.store.log[i].agentId == agent
                         && w.store.log[i].sequence <= mark.evidence
               ==> AcceptedTime(w.store.log[i]) <= mark.baselineAt.value)
  }

  ghost predicate ProjectionSound(w: World, agent: string) {
    agent in w.projections ==>
      var p := w.projections[agent];
      && p.agentId == agent && p.vocabulary == w.vocabulary
      && p.baseline == BaselineOf(w, agent).evidence
      && p.baselineAt == BaselineOf(w, agent).baselineAt
      && p.baseline <= p.cursor <= Counter(w.store.sequences, agent)
      && p.state != UNINITIALIZED
      && (p.state == HEALTHY ==> p == FullRebuild(w, agent))
  }

  /** An agent's findings carry exactly 1, 2, ..., n, and the allocator stands at n. */
  ghost predicate Contiguous(s: Store) {
    forall a :: |OfAgent(s.log, a)| == Counter(s.sequences, a)
                && forall k :: 0 <= k < |OfAgent(s.log, a)| ==> OfAgent(s.log, a)[k].sequence == k + 1
  }

  ghost predicate Sound(w: World) {
    && Grown(w.store, w.clock)
    && Contiguous(w.store)
    && (forall a :: BaselineSound(w, a))
    && (forall a :: ProjectionSound(w, a))
  }

  // ---- recording appends ---------------------------------------------------------------

  lemma RecordFreshAppends(s: Store, f: Finding, now: Time)
    requires Grown(s, now) && !HasId(s.log, f.id)
    ensures var (t, g) := Record(s, f, now);
            && t.log == s.log + [g] && Grown(t, now)
            && t.sequences == s.sequences[f.agentId := Counter(s.sequences, f.agentId) + 1]
            && g.agentId == f.agentId && g.sequence == t.sequences[f.agentId] && g.recordedAt == Some(now)
  {
    var (t, g) := Record(s, f, now);
    assert IndexOf(s.log, f.id) == |s.log|;
    forall i | 0 <= i < |s.log|
      ensures t.log[i] == s.log[i] && t.log[i].id != g.id
      ensures 1 <= t.log[i].sequence <= Counter(s.sequences, t.log[i].agentId) <= Counter(t.sequences, t.log[i].agentId)
      ensures t.log[i].id in t.recordedAt && t.recordedAt[t.log[i].id] == s.recordedAt[s.log[i].id]
    {
    }
  }

  lemma RecordNewAppends(s: Store, candidates: seq<Finding>, clock: Time, now: Time)
    requires Grown(s, clock) && clock <= now
    ensures var (t, accepted) := RecordNew(s, candidates, now);
            && t.log == s.log + accepted
            && Grown(t, now)
            && (forall a :: Counter(s.sequences, a) <= Counter(t.sequences, a))
            && (forall g :: g in accepted ==> g.recordedAt == Some(now)
                                              && g.sequence > Counter(s.sequences, g.agentId))
  {
    if candidates == [] {
      assert s.log + [] == s.log;
    } else {
      var front, f := candidates[..|candidates| - 1], candidates[|candidates| - 1];
      RecordNewAppends(s, front, clock, now);
      var (t, accepted) := RecordNew(s, front, now);
      if !HasId(t.log, f.id) {
        RecordFreshAppends(t, f, now);
        var (u, g) := Record(t, f, now);
        assert u.log == s.log + (accepted + [g]);
      }
    }
  }

  lemma OfAgentAppend(log: seq<Finding>, f: Finding, agent: string)
    ensures OfAgent(log + [f], agent) == OfAgent(log, agent) + (if f.agentId == agent then [f] else [])
  {
    assert (log + [f])[..|log|] == log;
    assert OfAgent(log, agent) + [] == OfAgent(log, agent);
  }

  lemma OfAgentMembers(log: seq<Finding>, agent: string)
    ensures forall f :: f in OfAgent(log, agent) <==> f in log && f.agentId == agent
  {
    ListedMembers(log, agent, None);
  }

  lemma {:induction false} RecordNewContiguous(s: Store, candidates: seq<Finding>, now: Time)
    requires Contiguous(s)
    ensures Contiguous(RecordNew(s, candidates, now).0)
  {
    if candidates != [] {
      var front, f := candidates[..|candidates| - 1], candidates[|candidates| - 1];
      RecordNewContiguous(s, front, now);
      var t := RecordNew(s, front, now).0;
      if !HasId(t.log, f.id) {
        var (u, g) := Record(t, f, now);
        forall a ensures |OfAgent(u.log, a)| == Counter(u.sequences, a)
                         && forall k :: 0 <= k < |OfAgent(u.log, a)| ==> OfAgent(u.log, a)[k].sequence == k + 1
        {
          OfAgentAppend(t.log, g, a);
        }
      }
    }
  }

  // ---- incremental and full rebuild agree on one finding ---------------------------------

  lemma PostBaselineAppend(log: seq<Finding>, f: Finding, agent: string, mark: Watermark)
    ensures PostBaseline(log + [f], agent, mark)
            == PostBaseline(log, agent, mark) + (if AfterBaseline(f, agent, mark) then [f] else [])
  {
    assert (log + [f])[..|log|] == log;
  }

  lemma RebuildAppend(log: seq<Finding>, f: Finding, agent: string, vocabulary: set<string>, mark: Watermark)
    ensures var before := Rebuild(agent, vocabulary, log, mark);
            Rebuild(agent, vocabulary, log + [f], mark)
            == if AfterBaseline(f, agent, mark)
               then Derived(agent, vocabulary, mark, Max(before.cursor, f.sequence),
                            Count(before.tally, f, vocabulary), HEALTHY)
               else before
  {
    PostBaselineAppend(log, f, agent, mark);
    var post := PostBaseline(log, agent, mark);
    assert (post + [f])[..|post|] == post;
    assert post + [] == post;
  }

  lemma RebuildCursorBound(log: seq<Finding>, agent: string, vocabulary: set<string>, mark: Watermark, top: nat)
    requires forall i :: 0 <= i < |log| && log[i].agentId == agent ==> log[i].sequence <= top
    requires mark.evidence <= top
    ensures mark.evidence <= Rebuild(agent, vocabulary, log, mark).cursor <= top
  {
    if log != [] {
      RebuildCursorBound(log[..|log| - 1], agent, vocabulary, mark, top);
      RebuildAppend(log[..|log| - 1], log[|log| - 1], agent, vocabulary, mark);
      assert log == log[..|log| - 1] + [log[|log| - 1]];
    }
  }

  /** Applying the agent's newest finding to a rebuilt projection either distrusts it or
      yields the rebuild of the longer log. */
  lemma ApplyMatchesRebuild(log: seq<Finding>, f: Finding, vocabulary: set<string>, mark: Watermark)
    requires f.sequence >= 1 && mark.evidence < f.sequence
    requires forall i :: 0 <= i < |log| && log[i].agentId == f.agentId ==> log[i].sequence < f.sequence
    ensures var (p, r) := Apply(Rebuild(f.agentId, vocabulary, log, mark), f);
            && r.Ok?
            && (p.state == HEALTHY ==> p == Rebuild(f.agentId, vocabulary, log + [f], mark))
            && (p.state != HEALTHY ==> p == Rebuild(f.agentId, vocabulary, log, mark).(state := STALE))
  {
    RebuildCursorBound(log, f.agentId, vocabulary, mark, f.sequence - 1);
    RebuildAppend(log, f, f.agentId, vocabulary, mark);
  }

  /** Applying the agent's newest finding to a rebuilt projection: it is applied, and gives the
      healthy rebuild of the longer log, exactly when it is the next number and was accepted after
      the boundary's moment. Otherwise it is reported as not applied and distrusts the projection. */
  lemma NewestAppliedIffInOrder(log: seq<Finding>, f: Finding, vocabulary: set<string>, mark: Watermark)
    requires f.sequence >= 1 && mark.evidence < f.sequence
    requires forall i :: 0 <= i < |log| && log[i].agentId == f.agentId ==> log[i].sequence < f.sequence
    ensures var before, after := Rebuild(f.agentId, vocabulary, log, mark), Rebuild(f.agentId, vocabulary, log + [f], mark);
            var moment := if f.recordedAt.Some? then f.recordedAt.value else f.createdAt;
            if f.sequence == before.cursor + 1 && (mark.baselineAt.Some? ==> moment > mark.baselineAt.value)
            then Apply(before, f) == (after, Ok(true)) && after.state == HEALTHY && after.cursor == f.sequence
            else Apply(before, f) == (before.(state := STALE), Ok(false))
  {
    RebuildCursorBound(log, f.agentId, vocabulary, mark, f.sequence - 1);
    RebuildAppend(log, f, f.agentId, vocabulary, mark);
  }

  /** Evidence the projection already holds, or that the boundary excludes by number, changes
      nothing, whatever the projection's state. */
  lemma SeenIsIgnored(log: seq<Finding>, f: Finding, vocabulary: set<string>, mark: Watermark, state: PostureState)
    requires f.sequence >= 1
    requires f.sequence <= mark.evidence || f in PostBaseline(log, f.agentId, mark)
    ensures var p := Rebuild(f.agentId, vocabulary, log, mark).(state := state); Apply(p, f) == (p, Ok(false))
  {
    MaxSequenceCovers(PostBaseline(log, f.agentId, mark), mark.evidence);
  }

  lemma {:induction false} MaxSequenceCovers(fs: seq<Finding>, floor: nat)
    ensures floor <= MaxSequence(fs, floor)
    ensures forall f :: f in fs ==> f.sequence <= MaxSequence(fs, floor)
  {
    if fs != [] {
      MaxSequenceCovers(fs[..|fs| - 1], floor);
      assert fs == fs[..|fs| - 1] + [fs[|fs| - 1]];
    }
  }

  /** One ingest takes every projection from the log without `f` to the log with it. */
  lemma IngestKeeps(w: World, f: Finding, fault: bool)
    requires forall a :: ProjectionSound(w, a)
    requires 1 <= f.sequence <= Counter(w.store.sequences, f.agentId)
    requires BaselineOf(w, f.agentId).evidence < f.sequence
    requires forall i :: 0 <= i < |w.store.log| && w.store.log[i].agentId == f.agentId
                         ==> w.store.log[i].sequence < f.sequence
    ensures var u := w.(store := w.store.(log := w.store.log + [f]),
                        projections := Ingest(w.projections, f, fault));
            forall a :: ProjectionSound(u, a)
  {
    var u := w.(store := w.store.(log := w.store.log + [f]),
                projections := Ingest(w.projections, f, fault));
    forall a ensures ProjectionSound(u, a) {
      assert ProjectionSound(w, a);
      if a != f.agentId {
        RebuildAppend(w.store.log, f, a, w.vocabulary, BaselineOf(w, a));
      } else if a in w.projections && w.projections[a].state == HEALTHY {
        ApplyMatchesRebuild(w.store.log, f, w.vocabulary, BaselineOf(w, a));
      }
    }
  }

  lemma IngestAllKeeps(w: World, accepted: seq<Finding>, faults: set<nat>)
    requires forall a :: ProjectionSound(w, a)
    requires forall i :: 0 <= i < |accepted| ==>
               && 1 <= accepted[i].sequence <= Counter(w.store.sequences, accepted[i].agentId)
               && BaselineOf(w, accepted[i].agentId).evidence < accepted[i].sequence
    requires var log := w.store.log + accepted;
             forall i, j :: 0 <= i < j < |log| && log[i].agentId == log[j].agentId
                            ==> log[i].sequence < log[j].sequence
    ensures var u := w.(store := w.store.(log := w.store.log + accepted),
                        projections := IngestAll(w.projections, accepted, faults));
            forall a :: ProjectionSound(u, a)
  {
    var log := w.store.log;
    if accepted == [] {
      assert log + accepted == log;
    } else {
      var front, f := accepted[..|accepted| - 1], accepted[|accepted| - 1];
      var all := log + accepted;
      assert forall i :: 0 <= i < |log + front| ==> (log + front)[i] == all[i];
      assert all[|log + front|] == f;
      IngestAllKeeps(w, front, faults);
      var mid := w.(store := w.store.(log := log + front),
                    projections := IngestAll(w.projections, front, faults));
      IngestKeeps(mid, f, |front| in faults);
      assert log + accepted == log + front + [f];
    }
  }

  lemma AcceptKeepsBaselines(w: World, u: World, accepted: seq<Finding>)
    requires forall a :: BaselineSound(w, a)
    requires u.store.log == w.store.log + accepted
    requires w.clock <= u.clock && u.baselines == w.baselines
    requires forall a :: Counter(w.store.sequences, a) <= Counter(u.store.sequences, a)
    requires forall g :: g in accepted ==> g.sequence > Counter(w.store.sequences, g.agentId)
    ensures forall a :: BaselineSound(u, a)
  {
    forall a ensures BaselineSound(u, a) {
      assert BaselineSound(w, a);
      var log := u.store.log;
      forall i | 0 <= i < |log| && log[i].agentId == a && log[i].sequence <= BaselineOf(w, a).evidence
        ensures i < |w.store.log| && log[i] == w.store.log[i]
      {
        assert log[i] in w.store.log + accepted;
      }
    }
  }

  lemma AcceptKeepsProjections(w: World, mid: World, accepted: seq<Finding>, faults: set<nat>)
    requires forall a :: BaselineSound(w, a)
    requires forall a :: ProjectionSound(w, a)
    requires mid.store.log == w.store.log && mid.baselines == w.baselines
    requires mid.projections == w.projections && mid.vocabulary == w.vocabulary
    requires forall a :: Counter(w.store.sequences, a) <= Counter(mid.store.sequences, a)
    requires Grown(mid.store.(log := w.store.log + accepted), mid.clock)
    requires forall g :: g in accepted ==> g.sequence > Counter(w.store.sequences, g.agentId)
    ensures var u := mid.(store := mid.store.(log := mid.store.log + accepted),
                          projections := IngestAll(mid.projections, accepted, faults));
            forall a :: ProjectionSound(u, a)
  {
    forall a ensures ProjectionSound(mid, a) {
      assert ProjectionSound(w, a);
    }
    var log := w.store.log + accepted;
    forall i | 0 <= i < |accepted|
      ensures 1 <= accepted[i].sequence <= Counter(mid.store.sequences, accepted[i].agentId)
      ensures BaselineOf(mid, accepted[i].agentId).evidence < accepted[i].sequence
    {
      assert accepted[i] in accepted && log[|w.store.log| + i] == accepted[i];
      assert BaselineSound(w, accepted[i].agentId);
    }
    IngestAllKeeps(mid, accepted, faults);
  }

  lemma AcceptKeepsSound(w: World, elapsed: nat, candidates: seq<Finding>, faults: set<nat>)
    requires Sound(w)
    ensures Sound(Next(w, Accept(elapsed, candidates, faults)))
  {
    hide RecordNew, IngestAll, Grown, Contiguous, BaselineSound, ProjectionSound;
    var now := w.clock + elapsed;
    RecordNewAppends(w.store, candidates, w.clock, now);
    RecordNewContiguous(w.store, candidates, now);
    var (store, accepted) := RecordNew(w.store, candidates, now);
    var mid := w.(clock := now, store := store.(log := w.store.log));
    var u := Next(w, Accept(elapsed, candidates, faults));
    assert mid.store.(log := w.store.log + accepted) == store;
    AcceptKeepsProjections(w, mid, accepted, faults);
    assert u == mid.(store := mid.store.(log := mid.store.log + accepted),
                     projections := IngestAll(mid.projections, accepted, faults));
    AcceptKeepsBaselines(w, u, accepted);
  }

  // ---- reinstatement ------------------------------------------------------------------------

  /** With every recording time in the past, the captured position covers exactly the agent's
      stored findings. */
  lemma CaptureCoversAll(log: seq<Finding>, recordedAt: map<string, Time>, agent: string, at: Time, top: nat)
    requires forall i :: 0 <= i < |log| ==> log[i].id in recordedAt && recordedAt[log[i].id] <= at
    requires forall i :: 0 <= i < |log| && log[i].agentId == agent ==> log[i].sequence <= top
    ensures HighestBy(log, recordedAt, agent, at) <= top
    ensures forall i :: 0 <= i < |log| && log[i].agentId == agent
                        ==> log[i].sequence <= HighestBy(log, recordedAt, agent, at)
  {
    if log != [] {
      CaptureCoversAll(log[..|log| - 1], recordedAt, agent, at, top);
      assert forall i :: 0 <= i < |log| - 1 ==> log[i] == log[..|log| - 1][i];
    }
  }

  lemma NothingAfterBaseline(log: seq<Finding>, agent: string, mark: Watermark)
    requires forall i :: 0 <= i < |log| && log[i].agentId == agent ==> log[i].sequence <= mark.evidence
    ensures PostBaseline(log, agent, mark) == []
  {
    if log != [] {
      NothingAfterBaseline(log[..|log| - 1], agent, mark);
      assert log[|log| - 1].agentId == agent ==> log[|log| - 1].sequence <= mark.evidence;
    }
  }

  lemma ReinstatedProjection(w: World, agent: string, elapsed: nat, agentEvents: nat)
    requires Sound(w)
    ensures var u := Next(w, Reinstate(agent, elapsed, agentEvents));
            BaselineSound(u, agent) && ProjectionSound(u, agent)
  {
    hide OfAgent, Contiguous;
    var u := Next(w, Reinstate(agent, elapsed, agentEvents));
    var mark := BaselineOf(u, agent);
    CaptureCoversAll(w.store.log, w.store.recordedAt, agent, u.clock, Counter(w.store.sequences, agent));
    NothingAfterBaseline(w.store.log, agent, mark);
    assert FullRebuild(u, agent) == Reset(agent, w.vocabulary, mark);
  }

  lemma ReinstateKeepsSound(w: World, agent: string, elapsed: nat, agentEvents: nat)
    requires Sound(w)
    ensures Sound(Next(w, Reinstate(agent, elapsed, agentEvents)))
  {
    var u := Next(w, Reinstate(agent, elapsed, agentEvents));
    ReinstatedProjection(w, agent, elapsed, agentEvents);
    hide Rebuild, HighestBy, OfAgent, Reset, CaptureBaseline;
    forall a ensures BaselineSound(u, a) && ProjectionSound(u, a) {
      assert BaselineSound(w, a) && ProjectionSound(w, a);
    }
  }

  lemma RebuildOfAgent(log: seq<Finding>, agent: string, mark: Watermark)
    ensures PostBaseline(OfAgent(log, agent), agent, mark) == PostBaseline(log, agent, mark)
  {
    if log != [] {
      var front, f := log[..|log| - 1], log[|log| - 1];
      RebuildOfAgent(front, agent, mark);
      if f.agentId == agent {
        PostBaselineAppend(OfAgent(front, agent), f, agent, mark);
      }
    }
  }

  /** Only projections changed, and each of them to a sound one. */
  lemma ProjectionsKeepSound(w: World, u: World)
    requires Sound(w) && u == w.(projections := u.projections)
    requires forall a :: ProjectionSound(u, a)
    ensures Sound(u)
  {
    hide Grown, Contiguous, ProjectionSound;
    forall a ensures BaselineSound(u, a) {
      assert BaselineSound(w, a);
    }
  }

  lemma DistrustKeepsSound(w: World, agent: string)
    requires Sound(w)
    ensures Sound(Next(w, Distrust(agent)))
  {
    hide Grown, Contiguous, BaselineSound, Rebuild;
    var u := Next(w, Distrust(agent));
    forall a ensures ProjectionSound(u, a) {
      assert ProjectionSound(w, a);
    }
    ProjectionsKeepSound(w, u);
  }

  /** The projection an assessment writes is sound. */
  lemma RebuiltIsSound(w: World, agent: string)
    requires Grown(w.store, w.clock) && BaselineSound(w, agent)
    ensures var rebuilt := Rebuild(agent, w.vocabulary, OfAgent(w.store.log, agent), BaselineOf(w, agent));
            ProjectionSound(w.(projections := w.projections[agent := rebuilt]), agent)
  {
    RebuildOfAgent(w.store.log, agent, BaselineOf(w, agent));
    RebuildCursorBound(w.store.log, agent, w.vocabulary, BaselineOf(w, agent), Counter(w.store.sequences, agent));
    hide PostBaseline, OfAgent, TallyOf, TallyScore;
  }

  lemma AssessKeepsSound(w: World, agent: string)
    requires Sound(w)
    ensures Sound(Next(w, Assess(agent)))
  {
    assert BaselineSound(w, agent);
    RebuiltIsSound(w, agent);
    hide Grown, Contiguous, BaselineSound, Rebuild;
    var u := Next(w, Assess(agent));
    forall a ensures ProjectionSound(u, a) {
      assert ProjectionSound(w, a);
    }
    ProjectionsKeepSound(w, u);
  }

  lemma StepKeepsSound(w: World, step: Step)
    requires Sound(w)
    ensures Sound(Next(w, step))
  {
    match step
    case Accept(elapsed, candidates, faults) => AcceptKeepsSound(w, elapsed, candidates, faults);
    case Reinstate(agent, elapsed, agentEvents) => ReinstateKeepsSound(w, agent, elapsed, agentEvents);
    case Distrust(agent) => DistrustKeepsSound(w, agent);
    case Assess(agent) => AssessKeepsSound(w, agent);
  }

  /** Projection equivalence. After any run, a posture still called HEALTHY is the full
      rebuild of the whole evidence store at the stored baseline: cursor, counts, score and
      level. The cursor never precedes the baseline, HEALTHY or not. */
  lemma {:induction false} ProjectionEquivalence(clock: Time, vocabulary: set<string>, steps: seq<Step>, agent: string)
    ensures var w := Run(Start(clock, vocabulary), steps);
            && Sound(w)
            && (Healthy(w, agent) ==> w.projections[agent] == FullRebuild(w, agent))
            && (agent in w.projections ==> w.projections[agent].baseline <= w.projections[agent].cursor)
  {
    var w0 := Start(clock, vocabulary);
    if steps == [] {
    } else {
      ProjectionEquivalence(clock, vocabulary, steps[..|steps| - 1], agent);
      StepKeepsSound(Run(w0, steps[..|steps| - 1]), steps[|steps| - 1]);
    }
    assert ProjectionSound(Run(w0, steps), agent);
  }

  /** Evidence sequence allocation. After any run from an empty store an agent's findings carry
      exactly 1, 2, ..., n in the order they were recorded, and its cursor stands at n. */
  lemma EvidenceIsNumberedFromOne(clock: Time, vocabulary: set<string>, steps: seq<Step>, agent: string, k: nat)
    ensures var s := Run(Start(clock, vocabulary), steps).store;
            && Counter(s.sequences, agent) == |OfAgent(s.log, agent)|
            && (k < |OfAgent(s.log, agent)| ==> OfAgent(s.log, agent)[k].sequence == k + 1)
  {
    hide Run, Grown, BaselineSound, ProjectionSound;
    ProjectionEquivalence(clock, vocabulary, steps, agent);
  }

  // ---- leaving STALE ---------------------------------------------------------------------------

  lemma {:induction false} IngestKeepsDistrust(ps: Projections, accepted: seq<Finding>, faults: set<nat>, agent: string)
    requires agent in ps && ps[agent].state == STALE
    ensures agent in IngestAll(ps, accepted, faults)
    ensures IngestAll(ps, accepted, faults)[agent].state == STALE
  {
    if accepted != [] {
      IngestKeepsDistrust(ps, accepted[..|accepted| - 1], faults, agent);
    }
  }

  /** A distrusted posture becomes HEALTHY again only through a full rebuild from the evidence
      or through a reinstatement. */
  lemma StaleLeftOnlyByRebuildOrReset(w: World, step: Step, agent: string)
    requires agent in w.projections && w.projections[agent].state == STALE
    requires Healthy(Next(w, step), agent)
    ensures step == Assess(agent) || (step.Reinstate? && step.agent == agent)
    ensures Next(w, step).projections[agent]
            == if step.Assess? then Rebuild(agent, w.vocabulary, OfAgent(w.store.log, agent), BaselineOf(w, agent))
               else Reset(agent, w.vocabulary, BaselineOf(Next(w, step), agent))
  {
    if step.Accept? {
      var (store, accepted) := RecordNew(w.store, step.candidates, w.clock + step.elapsed);
      IngestKeepsDistrust(w.projections, accepted, step.faults, agent);
    }
  }

  // ---- the ratchet -----------------------------------------------------------------------------

  /** The posture `_assess_agent_posture` answers with: the cached one while HEALTHY, else a
      rebuild. */
  function Assessed(w: World, agent: string): Projection {
    Next(w, Assess(agent)).projections[agent]
  }

  lemma AssessedIsRebuild(w: World, agent: string)
    requires Sound(w)
    ensures Assessed(w, agent) == FullRebuild(w, agent)
  {
    assert ProjectionSound(w, agent);
    RebuildOfAgent(w.store.log, agent, BaselineOf(w, agent));
  }

  lemma {:induction false} LongerLogScoresNoLess(log: seq<Finding>, more: seq<Finding>, agent: string,
                                                 vocabulary: set<string>, mark: Watermark)
    ensures Rebuild(agent, vocabulary, log, mark).score <= Rebuild(agent, vocabulary, log + more, mark).score
  {
    if more == [] {
      assert log + more == log;
    } else {
      var front, f := more[..|more| - 1], more[|more| - 1];
      LongerLogScoresNoLess(log, front, agent, vocabulary, mark);
      RebuildAppend(log + front, f, agent, vocabulary, mark);
      assert log + more == log + front + [f];
    }
  }

  predicate NotReinstated(steps: seq<Step>, agent: string) {
    forall i :: 0 <= i < |steps| ==> !(steps[i].Reinstate? && steps[i].agent == agent)
  }

  lemma CaptureAtAllocator(s: Store, clock: Time, agent: string, at: Time)
    requires Grown(s, clock) && Contiguous(s) && clock <= at
    ensures CaptureBaseline(s, agent, at) == Counter(s.sequences, agent)
  {
    var top := Counter(s.sequences, agent);
    CaptureCoversAll(s.log, s.recordedAt, agent, at, top);
    if top > 0 {
      OfAgentMembers(s.log, agent);
      var last := OfAgent(s.log, agent)[top - 1];
      assert last in s.log && last.sequence == top;
    }
  }

  /** A capture taken at the present moment stands exactly at the allocator. */
  lemma CaptureIsAllocator(w: World, agent: string, at: Time)
    requires Sound(w) && w.clock <= at
    ensures CaptureBaseline(w.store, agent, at) == Counter(w.store.sequences, agent)
  {
    CaptureAtAllocator(w.store, w.clock, agent, at);
  }

  lemma StepOnlyGrows(w: World, step: Step, agent: string)
    requires Sound(w)
    ensures var u := Next(w, step);
            && u.vocabulary == w.vocabulary
            && w.store.log <= u.store.log
            && BaselineOf(w, agent).evidence <= BaselineOf(u, agent).evidence
            && (NotReinstated([step], agent) ==> BaselineOf(u, agent) == BaselineOf(w, agent))
  {
    hide RecordNew, IngestAll, OfAgent, HighestBy, Contiguous, Rebuild;
    assert [step][0] == step;
    if step.Accept? {
      RecordNewAppends(w.store, step.candidates, w.clock, w.clock + step.elapsed);
    } else if step.Reinstate? && step.agent == agent {
      CaptureIsAllocator(w, agent, w.clock + step.elapsed);
      assert BaselineSound(w, agent);
    }
  }

  /** The log only grows, and an agent's stored boundary moves only when it is reinstated,
      and then never back. */
  lemma {:induction false} RunOnlyGrows(w: World, steps: seq<Step>, agent: string)
    requires Sound(w)
    ensures var u := Run(w, steps);
            && Sound(u) && u.vocabulary == w.vocabulary
            && w.store.log <= u.store.log
            && BaselineOf(w, agent).evidence <= BaselineOf(u, agent).evidence
            && (NotReinstated(steps, agent) ==> BaselineOf(u, agent) == BaselineOf(w, agent))
  {
    if steps != [] {
      var front, step := steps[..|steps| - 1], steps[|steps| - 1];
      RunOnlyGrows(w, front, agent);
      StepKeepsSound(Run(w, front), step);
      StepOnlyGrows(Run(w, front), step, agent);
      assert NotReinstated(steps, agent) ==> NotReinstated(front, agent) && NotReinstated([step], agent);
    }
  }

  /** Between reinstatements the enforcement score and level can only rise, whichever of the
      incremental or the rebuild path answers. */
  lemma RiskRatchet(w: World, steps: seq<Step>, agent: string)
    requires Sound(w) && NotReinstated(steps, agent)
    ensures var u := Run(w, steps);
            && Assessed(w, agent).score <= Assessed(u, agent).score
            && Rank(Assessed(w, agent).level) <= Rank(Assessed(u, agent).level)
  {
    var u := Run(w, steps);
    RunOnlyGrows(w, steps, agent);
    AssessedIsRebuild(w, agent);
    AssessedIsRebuild(u, agent);
    var more := u.store.log[|w.store.log|..];
    assert u.store.log == w.store.log + more;
    LongerLogScoresNoLess(w.store.log, more, agent, w.vocabulary, BaselineOf(w, agent));
    LevelMonotone(Assessed(w, agent).score, Assessed(u, agent).score);
  }

  // ---- what a reinstatement cuts off --------------------------------------------------------------

  /** At the moment of reinstatement number and time draw the same line: a stored finding is
      at or below the captured position exactly when it was accepted by `baseline_at`. */
  lemma ReinstatementSplitsEvidence(w: World, agent: string, elapsed: nat, agentEvents: nat, f: Finding)
    requires Sound(w) && f in w.store.log && f.agentId == agent
    ensures var mark := BaselineOf(Next(w, Reinstate(agent, elapsed, agentEvents)), agent);
            f.sequence <= mark.evidence <==> AcceptedTime(f) <= mark.baselineAt.value
  {
    CaptureIsAllocator(w, agent, w.clock + elapsed);
  }

  lemma StoredNumberBounded(w: World, f: Finding)
    requires Sound(w) && f in w.store.log
    ensures f.sequence <= Counter(w.store.sequences, f.agentId)
  {
  }

  /** No finding stored before a reinstatement contributes to any rebuild after it, however
      the run continues. */
  lemma NoEarlierFindingContributes(w: World, agent: string, elapsed: nat, agentEvents: nat,
                                    steps: seq<Step>, f: Finding)
    requires Sound(w) && f in w.store.log
    ensures var u := Run(Next(w, Reinstate(agent, elapsed, agentEvents)), steps);
            f !in PostBaseline(u.store.log, agent, BaselineOf(u, agent))
  {
    hide Run, PostBaseline, Grown, Contiguous;
    var v := Next(w, Reinstate(agent, elapsed, agentEvents));
    StepKeepsSound(w, Reinstate(agent, elapsed, agentEvents));
    StoredNumberBounded(w, f);
    CaptureIsAllocator(w, agent, w.clock + elapsed);
    RunOnlyGrows(v, steps, agent);
    var u := Run(v, steps);
    PostBaselineMembers(u.store.log, agent, BaselineOf(u, agent));
  }

  lemma {:induction false} PostBaselineMembers(log: seq<Finding>, agent: string, mark: Watermark)
    ensures forall f :: f in PostBaseline(log, agent, mark) <==> f in log && AfterBaseline(f, agent, mark)
  {
    if log != [] {
      PostBaselineMembers(log[..|log| - 1], agent, mark);
      assert log == log[..|log| - 1] + [log[|log| - 1]];
    }
  }

  /** Accepting one new finding without a fault. */
  lemma AcceptOne(v: World, later: nat, f: Finding)
    requires !HasId(v.store.log, f.id)
    ensures var (store, g) := Record(v.store, f, v.clock + later);
            Next(v, Accept(later, [f], {}))
            == v.(clock := v.clock + later, store := store, projections := Ingest(v.projections, g, false))
  {
    hide Record, Ingest;
    RecordOne(v.store, f, v.clock + later);
    var g := Record(v.store, f, v.clock + later).1;
    assert [g][..0] == [] && [g][0] == g;
    assert IngestAll(v.projections, [g][..0], {}) == v.projections;
  }

  lemma FirstAfterReset(agent: string, vocabulary: set<string>, mark: Watermark, g: Finding)
    requires g.agentId == agent && g.sequence == mark.evidence + 1 && g.recordedAt.Some? && mark.baselineAt.Some?
    ensures var p := Apply(Reset(agent, vocabulary, mark), g).0;
            Apply(Reset(agent, vocabulary, mark), g).1.Ok?
            && (p.state == HEALTHY <==> g.recordedAt.value > mark.baselineAt.value)
  {
  }

  /** The line drawn by number and the line drawn by time part company for evidence accepted
      later, exactly when the clock has not moved since the reinstatement. */
  lemma LaterEvidenceSplitsIffClockMoved(w: World, agent: string, elapsed: nat, agentEvents: nat,
                                         later: nat, f: Finding)
    requires Sound(w) && f.agentId == agent && !HasId(w.store.log, f.id)
    ensures var v := Next(w, Reinstate(agent, elapsed, agentEvents));
            var u := Next(v, Accept(later, [f], {}));
            var mark := BaselineOf(u, agent);
            var g := u.store.log[|u.store.log| - 1];
            && g.id == f.id && g.sequence > mark.evidence
            && ((g.sequence <= mark.evidence <==> AcceptedTime(g) <= mark.baselineAt.value) <==> later > 0)
            && (Healthy(u, agent) <==> later > 0)
  {
    hide RecordNew, IngestAll, HighestBy, Sound, Apply, Reset;
    var v := Next(w, Reinstate(agent, elapsed, agentEvents));
    CaptureIsAllocator(w, agent, w.clock + elapsed);
    AcceptOne(v, later, f);
    var g := Record(v.store, f, v.clock + later).1;
    FirstAfterReset(agent, w.vocabulary, BaselineOf(v, agent), g);
  }

  lemma RecordOne(s: Store, f: Finding, now: Time)
    requires !HasId(s.log, f.id)
    ensures RecordNew(s, [f], now) == (Record(s, f, now).0, [Record(s, f, now).1])
  {
    assert [f][..0] == [];
    assert [] + [Record(s, f, now).1] == [Record(s, f, now).1];
  }

  /** `repair` zeroes the projection at the stored baseline. That is the full rebuild exactly
      when nothing was accepted since the baseline. */
  lemma RepairResetsTruthfullyIffNothingSince(w: World, agent: string)
    requires Sound(w)
    ensures Reset(agent, w.vocabulary, BaselineOf(w, agent)) == FullRebuild(w, agent)
            <==> PostBaseline(w.store.log, agent, BaselineOf(w, agent)) == []
  {
    var mark := BaselineOf(w, agent);
    var post := PostBaseline(w.store.log, agent, mark);
    if post != [] {
      PostBaselineMembers(w.store.log, agent, mark);
      var f := post[|post| - 1];
      assert f in post;
      assert MaxSequence(post, mark.evidence) >= f.sequence > mark.evidence;
    }
  }

  /** After a repair that dropped evidence, the next finding ingested is a gap: the posture
      goes STALE rather than staying wrongly low. */
  lemma RepairIsCaughtByNextFinding(w: World, agent: string, f: Finding)
    requires Sound(w) && f.agentId == agent
    requires f.sequence == Counter(w.store.sequences, agent) + 1
    requires PostBaseline(w.store.log, agent, BaselineOf(w, agent)) != []
    ensures Apply(Reset(agent, w.vocabulary, BaselineOf(w, agent)), f).0.state == STALE
  {
    var mark := BaselineOf(w, agent);
    PostBaselineMembers(w.store.log, agent, mark);
    var e := PostBaseline(w.store.log, agent, mark)[0];
    assert e in PostBaseline(w.store.log, agent, mark);
    assert e in w.store.log && e.sequence > mark.evidence;
    assert e.sequence <= Counter(w.store.sequences, agent);
  }
}
