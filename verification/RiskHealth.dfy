/** When the incremental projection keeps up with the evidence, and when it falls back on a rebuild:
    app/services/agent_risk_aggregate.py:120-190 over whole batches and whole runs. */
module RiskHealth {
  import opened Prelude
  import opened Findings
  import opened RiskProjection
  import opened RiskAggregation
  import opened RiskRuns

  /** The moment lies after the agent's boundary. */
  predicate PastBoundary(w: World, agent: string, at: Time) {
    var mark := BaselineOf(w, agent);
    mark.baselineAt.Some? ==> at > mark.baselineAt.value
  }

  // ---- numbering of a batch ------------------------------------------------------------------------

  lemma OfAgentSnoc(log: seq<Finding>, agent: string)
    requires log != []
    ensures OfAgent(log, agent)
            == OfAgent(log[..|log| - 1], agent) + (if log[|log| - 1].agentId == agent then [log[|log| - 1]] else [])
  {
    assert log == log[..|log| - 1] + [log[|log| - 1]];
    OfAgentAppend(log[..|log| - 1], log[|log| - 1], agent);
  }

  /** Accepted findings take their agent's next numbers in turn. */
  lemma {:induction false} BatchNumbers(s: Store, candidates: seq<Finding>, now: Time, agent: string)
    ensures var (t, accepted) := RecordNew(s, candidates, now);
            && Counter(t.sequences, agent) == Counter(s.sequences, agent) + |OfAgent(accepted, agent)|
            && forall i :: 0 <= i < |accepted| && accepted[i].agentId == agent ==>
                 accepted[i].sequence == Counter(s.sequences, agent) + |OfAgent(accepted[..i], agent)| + 1
                 && accepted[i].recordedAt == Some(now)
  {
    if candidates != [] {
      var front, f := candidates[..|candidates| - 1], candidates[|candidates| - 1];
      BatchNumbers(s, front, now, agent);
      var (t, accepted) := RecordNew(s, front, now);
      hide OfAgent;
      if !HasId(t.log, f.id) {
        var g := Record(t, f, now).1;
        OfAgentAppend(accepted, g, agent);
        assert (accepted + [g])[..|accepted|] == accepted;
        assert forall i :: 0 <= i < |accepted| ==> (accepted + [g])[..i] == accepted[..i];
      }
    }
  }

  // ---- one batch -------------------------------------------------------------------------------------

  lemma {:induction false} OthersLeaveAlone(ps: Projections, accepted: seq<Finding>, faults: set<nat>, agent: string)
    requires agent in ps && OfAgent(accepted, agent) == []
    ensures agent in IngestAll(ps, accepted, faults) && IngestAll(ps, accepted, faults)[agent] == ps[agent]
  {
    if accepted != [] {
      OfAgentSnoc(accepted, agent);
      OthersLeaveAlone(ps, accepted[..|accepted| - 1], faults, agent);
    }
  }

  /** In order and in time, every finding of the batch is applied. */
  lemma {:induction false} BatchApplied(ps: Projections, accepted: seq<Finding>, faults: set<nat>, agent: string)
    requires agent in ps && ps[agent].state == HEALTHY && ps[agent].agentId == agent && ps[agent].baseline <= ps[agent].cursor
    requires forall i :: 0 <= i < |accepted| && accepted[i].agentId == agent ==>
               && i !in faults
               && accepted[i].sequence == ps[agent].cursor + |OfAgent(accepted[..i], agent)| + 1
               && (ps[agent].baselineAt.Some? ==> AcceptedTime(accepted[i]) > ps[agent].baselineAt.value)
    ensures agent in IngestAll(ps, accepted, faults)
    ensures var p := IngestAll(ps, accepted, faults)[agent];
            && p.state == HEALTHY && p.agentId == agent && p.baseline == ps[agent].baseline
            && p.baselineAt == ps[agent].baselineAt && p.cursor == ps[agent].cursor + |OfAgent(accepted, agent)|
  {
    hide OfAgent;
    if accepted == [] {
      NoneOfAgent(agent);
    } else {
      var front := accepted[..|accepted| - 1];
      assert forall i :: 0 <= i < |front| ==> front[..i] == accepted[..i];
      OfAgentSnoc(accepted, agent);
      BatchApplied(ps, front, faults, agent);
    }
  }

  lemma NoneOfAgent(agent: string)
    ensures OfAgent([], agent) == []
  {
  }

  /** A batch whose first finding of the agent is out of order or out of time distrusts. */
  lemma {:induction false} BatchRefused(ps: Projections, accepted: seq<Finding>, faults: set<nat>, agent: string)
    requires agent in ps && ps[agent].agentId == agent && ps[agent].baseline <= ps[agent].cursor
    requires OfAgent(accepted, agent) != []
    requires forall i :: 0 <= i < |accepted| && accepted[i].agentId == agent && OfAgent(accepted[..i], agent) == [] ==>
               && accepted[i].sequence > ps[agent].cursor
               && (accepted[i].sequence != ps[agent].cursor + 1
                   || (ps[agent].baselineAt.Some? && AcceptedTime(accepted[i]) <= ps[agent].baselineAt.value))
    ensures agent in IngestAll(ps, accepted, faults)
    ensures IngestAll(ps, accepted, faults)[agent].state == STALE
  {
    hide OfAgent;
    if accepted == [] {
      NoneOfAgent(agent);
    } else {
      var front := accepted[..|accepted| - 1];
      assert forall i :: 0 <= i < |front| ==> front[..i] == accepted[..i];
      OfAgentSnoc(accepted, agent);
      if OfAgent(front, agent) == [] {
        OthersLeaveAlone(ps, front, faults, agent);
      } else {
        BatchRefused(ps, front, faults, agent);
      }
    }
  }

  /** The whole store is in the projection exactly when the agent's latest finding is after the
      boundary by time, if it is by number. */
  lemma CursorAtAllocatorIff(w: World, agent: string)
    requires Sound(w) && Healthy(w, agent)
    ensures var own, mark := OfAgent(w.store.log, agent), BaselineOf(w, agent);
            && |own| == Counter(w.store.sequences, agent)
            && (own != [] ==> own[|own| - 1].recordedAt.Some?)
            && (w.projections[agent].cursor == |own|
                <==> |own| <= mark.evidence || PastBoundary(w, agent, own[|own| - 1].recordedAt.value))
  {
    var own, mark := OfAgent(w.store.log, agent), BaselineOf(w, agent);
    assert ProjectionSound(w, agent) && BaselineSound(w, agent);
    OfAgentMembers(w.store.log, agent);
    var post := PostBaseline(w.store.log, agent, mark);
    PostBaselineMembers(w.store.log, agent, mark);
    MaxSequenceCovers(post, mark.evidence);
    hide OfAgent, PostBaseline;
    if |own| > mark.evidence {
      var last := own[|own| - 1];
      assert last in own && last.sequence == |own|;
      if PastBoundary(w, agent, last.recordedAt.value) {
        assert last in post;
      } else {
        if post != [] {
          assert post[0] in post;
          LatestIsLast(w, agent, post[0]);
        }
      }
    }
  }

  lemma LatestIsLast(w: World, agent: string, f: Finding)
    requires Sound(w) && f in w.store.log && f.agentId == agent
    ensures OfAgent(w.store.log, agent) != [] && f.recordedAt.Some?
    ensures var last := OfAgent(w.store.log, agent)[|OfAgent(w.store.log, agent)| - 1];
            last.recordedAt.Some? && f.recordedAt.value <= last.recordedAt.value
  {
    OfAgentMembers(w.store.log, agent);
    assert f in OfAgent(w.store.log, agent);
    var last := OfAgent(w.store.log, agent)[|OfAgent(w.store.log, agent)| - 1];
    assert last in OfAgent(w.store.log, agent);
    var i :| 0 <= i < |w.store.log| && w.store.log[i] == f;
    var j :| 0 <= j < |w.store.log| && w.store.log[j] == last;
    assert f.sequence <= Counter(w.store.sequences, agent) == last.sequence;
  }

  /** Accepting a batch without a fault on the agent. A HEALTHY projection stays HEALTHY exactly
      when the agent gained no evidence, or the projection held all there was and the clock is past
      the boundary; and then it holds all there is again. */
  lemma AcceptKeepsHealthyIff(w: World, elapsed: nat, candidates: seq<Finding>, faults: set<nat>, agent: string)
    requires Sound(w) && Healthy(w, agent)
    requires var accepted := RecordNew(w.store, candidates, w.clock + elapsed).1;
             forall i :: 0 <= i < |accepted| && accepted[i].agentId == agent ==> i !in faults
    ensures var u := Next(w, Accept(elapsed, candidates, faults));
            var held, had, has := w.projections[agent].cursor, Counter(w.store.sequences, agent), Counter(u.store.sequences, agent);
            && had <= has
            && (Healthy(u, agent) <==> has == had || (held == had && PastBoundary(w, agent, w.clock + elapsed)))
            && (Healthy(u, agent) ==> u.projections[agent].cursor == held + (has - had))
  {
    var now := w.clock + elapsed;
    var (t, accepted) := RecordNew(w.store, candidates, now);
    assert ProjectionSound(w, agent);
    hide Grown, Contiguous, BaselineSound, ProjectionSound, RecordNew, OfAgent, IngestAll, Rebuild;
    BatchNumbers(w.store, candidates, now, agent);
    if OfAgent(accepted, agent) == [] {
      OthersLeaveAlone(w.projections, accepted, faults, agent);
    } else if w.projections[agent].cursor == Counter(w.store.sequences, agent) && PastBoundary(w, agent, now) {
      BatchApplied(w.projections, accepted, faults, agent);
    } else {
      BatchRefused(w.projections, accepted, faults, agent);
    }
  }

  /** A finding that is not the agent's own, or carries no number, is an error and not applied; the
      aggregator answers an unnumbered one with distrust, and any error of the call likewise. */
  lemma UnusableDistrusts(ps: Projections, f: Finding, fault: bool)
    requires f.agentId in ps && ps[f.agentId].agentId == f.agentId
    ensures forall p: Projection :: p.agentId != f.agentId ==> Apply(p, f) == (p, Err(AgentMismatch))
    ensures f.sequence == UNASSIGNED ==> Apply(ps[f.agentId], f) == (ps[f.agentId], Err(UnassignedFinding))
    ensures f.sequence == UNASSIGNED || fault ==> Ingest(ps, f, fault) == ps[f.agentId := ps[f.agentId].(state := STALE)]
  {
  }

  // ---- runs without faults -----------------------------------------------------------------------------

  /** No projection call fails and evidence is accepted only once the clock is past every
      boundary drawn so far. */
  ghost predicate Prompt(w: World, step: Step) {
    && !step.Distrust?
    && (step.Accept? ==> step.faults == {} && forall a :: a in w.baselines ==> PastBoundary(w, a, w.clock + step.elapsed))
  }

  ghost predicate AllPrompt(w: World, steps: seq<Step>) {
    steps == [] || (AllPrompt(w, steps[..|steps| - 1]) && Prompt(Run(w, steps[..|steps| - 1]), steps[|steps| - 1]))
  }

  ghost predicate Current(w: World) {
    && w.baselines.Keys <= w.projections.Keys
    && forall a :: a in w.projections ==>
         w.projections[a].state == HEALTHY && w.projections[a].cursor == Counter(w.store.sequences, a)
  }

  lemma {:induction false} IngestKeepsKeys(ps: Projections, accepted: seq<Finding>, faults: set<nat>)
    ensures IngestAll(ps, accepted, faults).Keys == ps.Keys
  {
    if accepted != [] {
      IngestKeepsKeys(ps, accepted[..|accepted| - 1], faults);
    }
  }

  lemma StepKeepsCurrent(w: World, step: Step)
    requires Sound(w) && Current(w) && Prompt(w, step)
    ensures Current(Next(w, step))
  {
    var u := Next(w, step);
    match step
    case Accept(elapsed, candidates, faults) =>
      IngestKeepsKeys(w.projections, RecordNew(w.store, candidates, w.clock + elapsed).1, faults);
      hide RecordNew, IngestAll, Sound;
      forall a | a in u.projections
        ensures u.projections[a].state == HEALTHY && u.projections[a].cursor == Counter(u.store.sequences, a)
      {
        AcceptKeepsHealthyIff(w, elapsed, candidates, faults, a);
      }
    case Assess(agent) =>
      if agent !in w.projections {
        StepKeepsSound(w, step);
        CursorAtAllocatorIff(u, agent);
      }
    case Reinstate(agent, elapsed, agentEvents) =>
      CaptureIsAllocator(w, agent, w.clock + elapsed);
      hide Sound, CaptureBaseline;
    case Distrust(_) =>
  }

  /** The incremental projection is never left behind. In every run from an empty store in which no
      projection call fails and the clock is past a boundary before evidence is accepted after it,
      every projection is HEALTHY, holds its agent's whole evidence and is its full rebuild: no
      assessment ever has to scan. */
  lemma {:induction false} PromptRunsStayHealthy(clock: Time, vocabulary: set<string>, steps: seq<Step>)
    requires AllPrompt(Start(clock, vocabulary), steps)
    ensures var w := Run(Start(clock, vocabulary), steps);
            Current(w) && forall a :: a in w.projections ==> w.projections[a] == FullRebuild(w, a)
  {
    hide Next, Current, Prompt, Sound, FullRebuild;
    var w := Run(Start(clock, vocabulary), steps);
    if steps == [] {
      StartCurrent(clock, vocabulary);
    } else {
      PromptRunsStayHealthy(clock, vocabulary, steps[..|steps| - 1]);
      var v := Run(Start(clock, vocabulary), steps[..|steps| - 1]);
      ProjectionEquivalence(clock, vocabulary, steps[..|steps| - 1], "");
      StepKeepsCurrent(v, steps[|steps| - 1]);
    }
    forall a | a in w.projections ensures w.projections[a] == FullRebuild(w, a) {
      CurrentIsHealthy(w, a);
      ProjectionEquivalence(clock, vocabulary, steps, a);
    }
  }

  lemma StartCurrent(clock: Time, vocabulary: set<string>)
    ensures Current(Start(clock, vocabulary))
  {
  }

  lemma CurrentIsHealthy(w: World, agent: string)
    requires Current(w) && agent in w.projections
    ensures Healthy(w, agent)
  {
  }
}
