/** app/services/risk_aggregator.py: the owner of every agent's projection. */
module RiskAggregation {
  import opened Prelude
  import opened Findings
  import opened RiskProjection

  type Projections = map<string, Projection>

  /** `mark_stale`: nothing happens for an agent without a projection. */
  function MarkStale(ps: Projections, agent: string): Projections {
    if agent in ps then ps[agent := ps[agent].(state := STALE)] else ps
  }

  /** `ingest_finding` as the runtime calls it. A raised error and a failed call (`fault`)
      both leave the projection STALE; an agent without a projection is left alone. */
  function Ingest(ps: Projections, f: Finding, fault: bool): Projections {
    if f.agentId !in ps then ps
    else if fault then MarkStale(ps, f.agentId)
    else
      var (p, r) := Apply(ps[f.agentId], f);
      if r.Ok? then ps[f.agentId := p] else MarkStale(ps, f.agentId)
  }

  /** The ingest loop; `faults` holds the positions whose projection call fails. */
  function IngestAll(ps: Projections, accepted: seq<Finding>, faults: set<nat>): Projections {
    if accepted == [] then ps
    else Ingest(IngestAll(ps, accepted[..|accepted| - 1], faults), accepted[|accepted| - 1],
                |accepted| - 1 in faults)
  }

  /** `get_posture` before any projection exists. */
  function Uninitialized(agent: string, vocabulary: set<string>): Projection {
    Reset(agent, vocabulary, NO_BASELINE).(state := UNINITIALIZED)
  }

  class RiskAggregator {
    const vocabulary: set<string>
    var projections: map<string, AgentRiskAggregate>

    ghost predicate Valid()
      reads this, projections.Values
    {
      && (forall a :: a in projections ==> projections[a].agentId == a && projections[a].vocabulary == vocabulary)
      && (forall a, b :: a in projections && b in projections && a != b ==> projections[a] != projections[b])
    }

    ghost function View(): Projections
      reads this, projections.Values
    {
      map a | a in projections :: projections[a].View()
    }

    constructor (vocabulary: set<string>)
      ensures Valid() && View() == map[] && this.vocabulary == vocabulary && projections == map[]
    {
      this.vocabulary := vocabulary;
      projections := map[];
    }

    method GetPosture(agent: string) returns (posture: Result<Projection, ApplyError>)
      requires Valid()
      ensures posture == if agent !in View() then Ok(Uninitialized(agent, vocabulary))
                         else if View()[agent].cursor < View()[agent].baseline then Err(CursorBeforeBaseline)
                         else Ok(View()[agent])
    {
      if agent !in projections {
        return Ok(Uninitialized(agent, vocabulary));
      }
      posture := projections[agent].Snapshot();
    }

    method IngestFinding(f: Finding) returns (r: Result<bool, ApplyError>)
      requires Valid()
      modifies projections.Values
      ensures Valid() && projections == old(projections)
      ensures View() == Ingest(old(View()), f, false)
      ensures f.agentId !in old(View()) ==> r == Ok(false)
      ensures f.agentId in old(View()) ==> r == Apply(old(View())[f.agentId], f).1
    {
      if f.agentId !in projections {
        return Ok(false);
      }
      var aggregate := projections[f.agentId];
      r := aggregate.ApplyFinding(f);
      if r.Err? {
        aggregate.MarkStale();
      }
    }

    method MarkAgentStale(agent: string)
      requires Valid()
      modifies projections.Values
      ensures Valid() && projections == old(projections)
      ensures View() == MarkStale(old(View()), agent)
    {
      if agent in projections {
        projections[agent].MarkStale();
      }
    }

    /** The projection of an agent, created empty at the given baseline if there is none. */
    method Claim(agent: string, mark: Watermark) returns (aggregate: AgentRiskAggregate)
      requires Valid()
      modifies this`projections
      ensures Valid() && agent in projections && projections[agent] == aggregate
      ensures projections.Keys == old(projections.Keys) + {agent}
      ensures forall a :: a in old(projections) ==> projections[a] == old(projections[a])
      ensures agent !in old(projections) ==> fresh(aggregate)
    {
      if agent !in projections {
        aggregate := new AgentRiskAggregate(agent, vocabulary, mark);
        projections := projections[agent := aggregate];
      } else {
        aggregate := projections[agent];
      }
    }

    method ReconcileAgent(agent: string, findings: seq<Finding>, mark: Watermark)
      returns (posture: Result<Projection, ApplyError>)
      requires Valid()
      modifies this`projections, projections.Values
      ensures Valid() && fresh(projections.Values - old(projections.Values))
      ensures View() == old(View())[agent := Rebuild(agent, vocabulary, findings, mark)]
      ensures posture == Ok(Rebuild(agent, vocabulary, findings, mark))
    {
      hide Rebuild;
      var aggregate := Claim(agent, mark);
      aggregate.RebuildFromFindings(findings, mark);
      RebuildAboveBaseline(agent, vocabulary, findings, mark);
      posture := aggregate.Snapshot();
      OneChanged(agent);
    }

    method ResetAgentToBaseline(agent: string, mark: Watermark)
      requires Valid()
      modifies this`projections, projections.Values
      ensures Valid() && fresh(projections.Values - old(projections.Values))
      ensures View() == old(View())[agent := Reset(agent, vocabulary, mark)]
    {
      hide Reset;
      var aggregate := Claim(agent, mark);
      aggregate.ResetToBaseline(mark);
      OneChanged(agent);
    }

    twostate lemma OneChanged(agent: string)
      requires old(Valid()) && Valid()
      requires projections.Keys == old(projections.Keys) + {agent}
      requires forall a :: a in old(projections) ==> projections[a] == old(projections[a])
      requires forall a :: a in old(projections) && a != agent ==> unchanged(old(projections[a]))
      ensures View() == old(View())[agent := projections[agent].View()]
    {
    }
  }

  lemma RebuildAboveBaseline(agent: string, vocabulary: set<string>, log: seq<Finding>, mark: Watermark)
    ensures Rebuild(agent, vocabulary, log, mark).baseline == mark.evidence
            <= Rebuild(agent, vocabulary, log, mark).cursor
  {
    MaxSequenceAboveFloor(PostBaseline(log, agent, mark), mark.evidence);
  }

  lemma MaxSequenceAboveFloor(fs: seq<Finding>, floor: nat)
    ensures floor <= MaxSequence(fs, floor)
  {
  }
}
