/** app/services/findings_service.py: the evidence store and its per-agent sequence allocator. */
module Findings {
  import opened Prelude

  datatype Severity = LOW | MEDIUM | HIGH | CRITICAL

  datatype FindingStatus = OPEN | ACKNOWLEDGED | RESOLVED | FALSE_POSITIVE

  datatype Finding = Finding(
    id: string,
    sessionId: string,
    agentId: string,
    ruleId: string,
    ruleName: string,
    severity: Severity,
    category: string,
    status: FindingStatus,
    createdAt: Time,
    recordedAt: Option<Time>,
    evidenceEvents: seq<nat>,
    recoveryGeneration: nat,
    sequence: nat)

  /** Sequence of a finding the store has not numbered yet. */
  const UNASSIGNED: nat := 0

  /** The store as a value. `log` is the `_findings` dictionary in insertion order,
      `recordedAt` and `sequences` are the two side dictionaries. */
  datatype Store = Store(
    log: seq<Finding>,
    recordedAt: map<string, Time>,
    sequences: map<string, nat>)

  const EMPTY_STORE := Store([], map[], map[])

  predicate HasId(log: seq<Finding>, id: string) {
    exists i :: 0 <= i < |log| && log[i].id == id
  }

  predicate UniqueIds(log: seq<Finding>) {
    forall i, j :: 0 <= i < j < |log| ==> log[i].id != log[j].id
  }

  /** Where `id` sits in the log, or |log|. */
  function IndexOf(log: seq<Finding>, id: string): (k: nat)
    ensures k <= |log|
    ensures k < |log| ==> log[k].id == id
    ensures HasId(log, id) <==> k < |log|
  {
    if log == [] then 0
    else
      var k := IndexOf(log[..|log| - 1], id);
      if k < |log| - 1 then k
      else if log[|log| - 1].id == id then |log| - 1
      else
        assert forall i :: 0 <= i < |log| - 1 ==> log[i] == log[..|log| - 1][i];
        |log|
  }

  // ---- recording ----------------------------------------------------------------

  function Stamp(f: Finding, sequence: nat, at: Time): Finding {
    f.(sequence := sequence, recordedAt := Some(at))
  }

  /** `_record_finding_locked`: an id already stored keeps its number and its recording
      time; a new id is appended under the next number of its agent. */
  function Record(s: Store, f: Finding, now: Time): (Store, Finding) {
    var k := IndexOf(s.log, f.id);
    var next := Counter(s.sequences, f.agentId) + 1;
    if k < |s.log| then
      var existing := s.log[k];
      var at := if existing.id in s.recordedAt then s.recordedAt[existing.id] else now;
      var number := if existing.sequence > UNASSIGNED then existing.sequence else next;
      var g := Stamp(f, number, at);
      (Store(s.log[k := g], s.recordedAt[f.id := at],
             if existing.sequence > UNASSIGNED then s.sequences else s.sequences[f.agentId := next]), g)
    else
      var g := Stamp(f, next, now);
      (Store(s.log + [g], s.recordedAt[f.id := now], s.sequences[f.agentId := next]), g)
  }

  /** `record_new_findings`: the store afterwards and what it accepted, in order. */
  function RecordNew(s: Store, candidates: seq<Finding>, now: Time): (Store, seq<Finding>) {
    if candidates == [] then (s, [])
    else
      var (t, accepted) := RecordNew(s, candidates[..|candidates| - 1], now);
      var f := candidates[|candidates| - 1];
      if HasId(t.log, f.id) then (t, accepted)
      else
        var (u, g) := Record(t, f, now);
        (u, accepted + [g])
  }

  /** `capture_evidence_baseline_sequence`: the highest number recorded by `at`. */
  function CaptureBaseline(s: Store, agent: string, at: Time): nat {
    HighestBy(s.log, s.recordedAt, agent, at)
  }

  function HighestBy(log: seq<Finding>, recordedAt: map<string, Time>, agent: string, at: Time): nat {
    if log == [] then 0
    else
      var rest := HighestBy(log[..|log| - 1], recordedAt, agent, at);
      var f := log[|log| - 1];
      if f.agentId == agent && (f.id in recordedAt ==> recordedAt[f.id] <= at)
      then Max(rest, f.sequence) else rest
  }

  /** The filters of `list_findings`; an absent one admits everything. */
  datatype Filter = Filter(
    sessionId: Option<string>,
    agentId: Option<string>,
    severity: Option<Severity>,
    category: Option<string>,
    status: Option<FindingStatus>,
    ruleId: Option<string>,
    recordedAfter: Option<Time>)

  const ANY_FINDING := Filter(None, None, None, None, None, None, None)

  predicate Selects(filter: Filter, recordedAt: map<string, Time>, f: Finding) {
    && (filter.recordedAfter.Some? ==> f.id in recordedAt && recordedAt[f.id] > filter.recordedAfter.value)
    && (filter.sessionId.Some? ==> f.sessionId == filter.sessionId.value)
    && (filter.agentId.Some? ==> f.agentId == filter.agentId.value)
    && (filter.severity.Some? ==> f.severity == filter.severity.value)
    && (filter.category.Some? ==> f.category == filter.category.value)
    && (filter.status.Some? ==> f.status == filter.status.value)
    && (filter.ruleId.Some? ==> f.ruleId == filter.ruleId.value)
  }

  /** `list_findings`, in recording order. */
  function Selected(log: seq<Finding>, recordedAt: map<string, Time>, filter: Filter): seq<Finding> {
    if log == [] then []
    else
      var rest := Selected(log[..|log| - 1], recordedAt, filter);
      if Selects(filter, recordedAt, log[|log| - 1]) then rest + [log[|log| - 1]] else rest
  }

  lemma {:induction false} SelectedForAgent(log: seq<Finding>, recordedAt: map<string, Time>, agent: string,
                                            session: Option<string>)
    ensures Selected(log, recordedAt, ANY_FINDING.(agentId := Some(agent), sessionId := session)) == Listed(log, agent, session)
  {
    if log != [] {
      SelectedForAgent(log[..|log| - 1], recordedAt, agent, session);
    }
  }

  /** `list_findings` for an agent, in recording order. */
  function Listed(log: seq<Finding>, agent: string, session: Option<string>): seq<Finding> {
    if log == [] then []
    else
      var rest := Listed(log[..|log| - 1], agent, session);
      var f := log[|log| - 1];
      if f.agentId == agent && (session.Some? ==> f.sessionId == session.value) then rest + [f] else rest
  }

  lemma {:induction false} ListedMembers(log: seq<Finding>, agent: string, session: Option<string>)
    ensures forall f :: f in Listed(log, agent, session)
                        <==> f in log && f.agentId == agent && (session.Some? ==> f.sessionId == session.value)
  {
    if log != [] {
      ListedMembers(log[..|log| - 1], agent, session);
      assert log == log[..|log| - 1] + [log[|log| - 1]];
    }
  }

  // ---- bootstrap ----------------------------------------------------------------

  /** Highest number already assigned to the agent, 0 if none. */
  function MaxAssigned(log: seq<Finding>, agent: string): nat {
    if log == [] then 0
    else
      var rest := MaxAssigned(log[..|log| - 1], agent);
      var f := log[|log| - 1];
      if f.agentId == agent then Max(rest, f.sequence) else rest
  }

  function Unassigned(log: seq<Finding>, agent: string): seq<Finding> {
    if log == [] then []
    else
      var rest := Unassigned(log[..|log| - 1], agent);
      var f := log[|log| - 1];
      if f.agentId == agent && f.sequence == UNASSIGNED then rest + [f] else rest
  }

  function AgentsOf(log: seq<Finding>): set<string> {
    set i | 0 <= i < |log| :: log[i].agentId
  }

  /** `self._recorded_at.get(f.finding_id, f.created_at)` */
  function AcceptedAt(recordedAt: map<string, Time>, f: Finding): Time {
    if f.id in recordedAt then recordedAt[f.id] else f.createdAt
  }

  /** The bootstrap order: recording time, then creation time, then id. */
  predicate Earlier(recordedAt: map<string, Time>, f: Finding, g: Finding) {
    var a, b := AcceptedAt(recordedAt, f), AcceptedAt(recordedAt, g);
    a < b || (a == b && (f.createdAt < g.createdAt
                         || (f.createdAt == g.createdAt && LexLE(f.id, g.id))))
  }

  function BootstrapOrder(recordedAt: map<string, Time>): (Finding, Finding) -> bool {
    (f, g) => Earlier(recordedAt, f, g)
  }

  lemma BootstrapOrderTotal(recordedAt: map<string, Time>)
    ensures TotalPreorder(BootstrapOrder(recordedAt))
  {
    var le := BootstrapOrder(recordedAt);
    forall x, y ensures le(x, y) || le(y, x) {
      LexTotal(x.id, y.id);
    }
    forall x, y, z | le(x, y) && le(y, z) ensures le(x, z) {
      if LexLE(x.id, y.id) && LexLE(y.id, z.id) { LexTransitive(x.id, y.id, z.id); }
    }
  }

  /** An agent's unnumbered findings, in the order in which bootstrap numbers them. */
  function Queue(s: Store, agent: string): seq<Finding> {
    StableSort(BootstrapOrder(s.recordedAt), Unassigned(s.log, agent))
  }

  /** What bootstrap makes of the finding stored under `f.id`. */
  function Numbered(s: Store, f: Finding): Finding {
    var k := IndexOf(Queue(s, f.agentId), f.id);
    if f.sequence > UNASSIGNED || k == |Queue(s, f.agentId)| then f
    else Stamp(f, MaxAssigned(s.log, f.agentId) + 1 + k, AcceptedAt(s.recordedAt, f))
  }

  /** `_bootstrap_sequences`. */
  function Bootstrap(s: Store): Store {
    Store(seq(|s.log|, i requires 0 <= i < |s.log| => Numbered(s, s.log[i])),
          s.recordedAt,
          map a | a in s.sequences.Keys + AgentsOf(s.log) ::
            if a in AgentsOf(s.log) then MaxAssigned(s.log, a) + |Unassigned(s.log, a)| else s.sequences[a])
  }

  // ---- what bootstrap achieves -----------------------------------------------------------

  lemma {:induction false} UnassignedMembers(log: seq<Finding>, agent: string)
    ensures forall f :: f in Unassigned(log, agent) <==> f in log && f.agentId == agent && f.sequence == UNASSIGNED
    ensures multiset(Unassigned(log, agent)) <= multiset(log)
  {
    if log != [] {
      UnassignedMembers(log[..|log| - 1], agent);
      assert log == log[..|log| - 1] + [log[|log| - 1]];
    }
  }

  lemma UniqueIdsOnce(log: seq<Finding>, f: Finding)
    requires UniqueIds(log)
    ensures multiset(log)[f] <= 1
  {
    if log != [] {
      UniqueIdsOnce(log[..|log| - 1], f);
      assert log == log[..|log| - 1] + [log[|log| - 1]];
      if f == log[|log| - 1] {
        assert f !in log[..|log| - 1];
      }
    }
  }

  lemma PermutationKeepsUniqueIds(pool: seq<Finding>, queue: seq<Finding>, log: seq<Finding>)
    requires UniqueIds(log) && multiset(pool) <= multiset(log) && multiset(queue) == multiset(pool)
    ensures UniqueIds(queue)
    ensures forall f :: f in queue <==> f in pool
  {
    forall f ensures f in queue <==> f in pool {
      assert f in queue <==> f in multiset(queue);
    }
    forall i, j | 0 <= i < j < |queue| ensures queue[i].id != queue[j].id {
      assert queue[i] in multiset(log) && queue[j] in multiset(log);
      if queue[i].id == queue[j].id {
        assert queue[i] == queue[j];
        RepeatedTwice(queue, i, j);
        UniqueIdsOnce(log, queue[i]);
      }
    }
  }

  /** The queue holds each unnumbered finding of the agent exactly once, in bootstrap order. */
  lemma QueueHoldsUnassigned(s: Store, agent: string)
    requires UniqueIds(s.log)
    ensures |Queue(s, agent)| == |Unassigned(s.log, agent)|
    ensures forall f :: f in Queue(s, agent) <==> f in s.log && f.agentId == agent && f.sequence == UNASSIGNED
    ensures UniqueIds(Queue(s, agent))
    ensures Ordered(BootstrapOrder(s.recordedAt), Queue(s, agent))
  {
    var pool := Unassigned(s.log, agent);
    BootstrapOrderTotal(s.recordedAt);
    StableSortSorts(BootstrapOrder(s.recordedAt), pool);
    UnassignedMembers(s.log, agent);
    PermutationKeepsUniqueIds(pool, Queue(s, agent), s.log);
  }

  lemma PositionOf(log: seq<Finding>, k: nat)
    requires UniqueIds(log) && k < |log|
    ensures IndexOf(log, log[k].id) == k
  {
  }

  /** Every unnumbered finding is numbered, and finding k of an agent's queue becomes the
      highest assigned number plus k + 1. */
  lemma BootstrapNumbersQueue(s: Store, agent: string, k: nat)
    requires UniqueIds(s.log) && k < |Queue(s, agent)|
    ensures Queue(s, agent)[k] in s.log
    ensures Numbered(s, Queue(s, agent)[k])
            == Stamp(Queue(s, agent)[k], MaxAssigned(s.log, agent) + 1 + k,
                     AcceptedAt(s.recordedAt, Queue(s, agent)[k]))
  {
    hide StableSort, InsertStable, Unassigned, MaxAssigned, LexLE;
    QueueHoldsUnassigned(s, agent);
    assert Queue(s, agent)[k] in Queue(s, agent);
    PositionOf(Queue(s, agent), k);
  }

  lemma MaxAssignedBounds(log: seq<Finding>, agent: string)
    ensures forall f :: f in log && f.agentId == agent ==> f.sequence <= MaxAssigned(log, agent)
    ensures MaxAssigned(log, agent) > 0
            ==> exists f :: f in log && f.agentId == agent && f.sequence == MaxAssigned(log, agent)
  {
    if log != [] {
      MaxAssignedBounds(log[..|log| - 1], agent);
      assert log == log[..|log| - 1] + [log[|log| - 1]];
    }
  }

  lemma QueuePosition(s: Store, i: nat) returns (k: nat)
    requires UniqueIds(s.log) && i < |s.log| && s.log[i].sequence == UNASSIGNED
    ensures k < |Queue(s, s.log[i].agentId)| && Queue(s, s.log[i].agentId)[k] == s.log[i]
    ensures Bootstrap(s).log[i].sequence == MaxAssigned(s.log, s.log[i].agentId) + 1 + k
  {
    hide StableSort, InsertStable, Unassigned, MaxAssigned, LexLE, IndexOf;
    var agent := s.log[i].agentId;
    QueueHoldsUnassigned(s, agent);
    assert s.log[i] in s.log;
    k :| 0 <= k < |Queue(s, agent)| && Queue(s, agent)[k] == s.log[i];
    BootstrapNumbersQueue(s, agent, k);
  }

  /** What a listing holds: exactly the findings that pass each filter given. */
  lemma {:induction false} SelectedExactly(log: seq<Finding>, recordedAt: map<string, Time>, filter: Filter)
    ensures forall f :: f in Selected(log, recordedAt, filter)
                        <==> && f in log
                             && filter.sessionId in {None, Some(f.sessionId)} && filter.agentId in {None, Some(f.agentId)}
                             && filter.severity in {None, Some(f.severity)} && filter.category in {None, Some(f.category)}
                             && filter.status in {None, Some(f.status)} && filter.ruleId in {None, Some(f.ruleId)}
                             && (filter.recordedAfter.Some? ==> f.id in recordedAt && filter.recordedAfter.value < recordedAt[f.id])
  {
    if log != [] {
      SelectedExactly(log[..|log| - 1], recordedAt, filter);
      assert log == log[..|log| - 1] + [log[|log| - 1]];
    }
  }

  /** What a capture is: the highest number among the agent's findings recorded by the moment, those
      without a recorded moment included; 0 if there is none. */
  lemma {:induction false} CaptureIsHighest(log: seq<Finding>, recordedAt: map<string, Time>, agent: string, at: Time)
    ensures var top := HighestBy(log, recordedAt, agent, at);
            && (forall f :: f in log && f.agentId == agent && (f.id !in recordedAt || recordedAt[f.id] <= at) ==> f.sequence <= top)
            && (top > 0 ==> exists f :: f in log && f.agentId == agent && (f.id !in recordedAt || recordedAt[f.id] <= at)
                                         && f.sequence == top)
  {
    if log != [] {
      CaptureIsHighest(log[..|log| - 1], recordedAt, agent, at);
      assert log == log[..|log| - 1] + [log[|log| - 1]];
    }
  }

  /** Recording under a stored id again replaces the finding and nothing else: its number and the
      moment it was first accepted stay, no number is drawn, and everyone else's findings stay put. */
  lemma ReRecordingKeepsIdentity(s: Store, f: Finding, now: Time, g: Finding, later: Time)
    requires !HasId(s.log, f.id) && g.id == f.id
    ensures var (t, first) := Record(s, f, now);
            var (u, second) := Record(t, g, later);
            && first.sequence == Counter(s.sequences, f.agentId) + 1 && first.recordedAt == Some(now)
            && second == g.(sequence := first.sequence, recordedAt := Some(now))
            && u.log == s.log + [second] && u.sequences == t.sequences == s.sequences[f.agentId := first.sequence]
            && u.recordedAt == t.recordedAt == s.recordedAt[f.id := now]
  {
    var (t, first) := Record(s, f, now);
    assert IndexOf(s.log, f.id) == |s.log|;
    assert t.log == s.log + [first];
    assert forall i :: 0 <= i < |s.log| ==> t.log[i] == s.log[i] && t.log[i].id != f.id;
    assert IndexOf(t.log, f.id) == |s.log|;
  }

  /** Bootstrap keeps assigned numbers, leaves nothing unnumbered, and numbers an agent's
      unnumbered findings after every assigned one, in (recorded, created, id) order. */
  lemma BootstrapOrdersEvidence(s: Store, i: nat, j: nat)
    requires UniqueIds(s.log) && i < |s.log| && j < |s.log|
    requires s.log[i].agentId == s.log[j].agentId
    ensures var t := Bootstrap(s);
            && t.log[i].id == s.log[i].id && t.log[i].agentId == s.log[i].agentId
            && t.log[i].sequence > UNASSIGNED
            && (s.log[i].sequence > UNASSIGNED ==> t.log[i] == s.log[i])
            && (s.log[i].sequence > UNASSIGNED && s.log[j].sequence == UNASSIGNED
                ==> t.log[i].sequence < t.log[j].sequence)
            && (i != j && s.log[i].sequence == UNASSIGNED && s.log[j].sequence == UNASSIGNED
                ==> t.log[i].sequence != t.log[j].sequence
                    && (t.log[i].sequence < t.log[j].sequence ==> Earlier(s.recordedAt, s.log[i], s.log[j])))
  {
    hide Queue, MaxAssigned, IndexOf, LexLE;
    var agent := s.log[i].agentId;
    MaxAssignedBounds(s.log, agent);
    assert s.log[i] in s.log;
    if s.log[i].sequence == UNASSIGNED {
      var k := QueuePosition(s, i);
      if s.log[j].sequence == UNASSIGNED {
        var m := QueuePosition(s, j);
        QueueHoldsUnassigned(s, agent);
        assert i != j ==> k != m;
        assert k < m ==> BootstrapOrder(s.recordedAt)(s.log[i], s.log[j]);
      }
    } else if s.log[j].sequence == UNASSIGNED {
      var m := QueuePosition(s, j);
    }
  }

  ghost predicate DistinctPerAgent(log: seq<Finding>) {
    forall i, j :: 0 <= i < j < |log| && log[i].agentId == log[j].agentId
                   && log[i].sequence > UNASSIGNED && log[j].sequence > UNASSIGNED
                   ==> log[i].sequence != log[j].sequence
  }

  lemma BootstrapKeepsDistinct(s: Store)
    requires UniqueIds(s.log) && DistinctPerAgent(s.log)
    ensures UniqueIds(Bootstrap(s).log) && DistinctPerAgent(Bootstrap(s).log)
  {
    var t := Bootstrap(s);
    forall i, j | 0 <= i < j < |t.log| && t.log[i].agentId == t.log[j].agentId
      ensures t.log[i].sequence != t.log[j].sequence
    {
      BootstrapOrdersEvidence(s, i, j);
      BootstrapOrdersEvidence(s, j, i);
    }
  }

  lemma BootstrapElement(s: Store, i: nat)
    requires UniqueIds(s.log) && i < |s.log|
    ensures Bootstrap(s).log[i].agentId == s.log[i].agentId
    ensures UNASSIGNED < Bootstrap(s).log[i].sequence
            <= MaxAssigned(s.log, s.log[i].agentId) + |Unassigned(s.log, s.log[i].agentId)|
  {
    var f := s.log[i];
    QueueHoldsUnassigned(s, f.agentId);
    MaxAssignedBounds(s.log, f.agentId);
    assert f in s.log;
    if f.sequence == UNASSIGNED {
      assert f in Queue(s, f.agentId);
    }
  }

  lemma BootstrapReachesTop(s: Store, agent: string) returns (i: nat)
    requires UniqueIds(s.log) && agent in AgentsOf(s.log)
    ensures i < |s.log| && s.log[i].agentId == agent
    ensures Bootstrap(s).log[i].sequence == MaxAssigned(s.log, agent) + |Unassigned(s.log, agent)|
  {
    hide Queue, Unassigned, MaxAssigned, LexLE, BootstrapOrder, Ordered, UniqueIds;
    var queue := Queue(s, agent);
    QueueHoldsUnassigned(s, agent);
    if queue != [] {
      BootstrapNumbersQueue(s, agent, |queue| - 1);
      i :| 0 <= i < |s.log| && s.log[i] == queue[|queue| - 1];
      assert queue[|queue| - 1] in queue;
    } else {
      MaxAssignedBounds(s.log, agent);
      var k :| 0 <= k < |s.log| && s.log[k].agentId == agent;
      assert s.log[k] in s.log && s.log[k] !in queue;
      var f :| f in s.log && f.agentId == agent && f.sequence == MaxAssigned(s.log, agent);
      i :| 0 <= i < |s.log| && s.log[i] == f;
    }
  }

  /** The rebuilt cursor is the highest number the agent's findings now carry. */
  lemma BootstrapCursor(s: Store, agent: string)
    requires UniqueIds(s.log) && agent in AgentsOf(s.log)
    ensures Bootstrap(s).sequences[agent] == MaxAssigned(Bootstrap(s).log, agent)
  {
    var t := Bootstrap(s);
    MaxAssignedBounds(t.log, agent);
    forall f | f in t.log && f.agentId == agent ensures f.sequence <= t.sequences[agent] {
      var i :| 0 <= i < |t.log| && t.log[i] == f;
      BootstrapElement(s, i);
    }
    var top := BootstrapReachesTop(s, agent);
    BootstrapElement(s, top);
    assert t.log[top] in t.log;
  }

  lemma SameAgents(a: seq<Finding>, b: seq<Finding>)
    requires |a| == |b| && forall i :: 0 <= i < |a| ==> a[i].agentId == b[i].agentId
    ensures AgentsOf(a) == AgentsOf(b)
  {
    forall x ensures x in AgentsOf(a) <==> x in AgentsOf(b) {
      if x in AgentsOf(a) {
        var i :| 0 <= i < |a| && a[i].agentId == x;
        assert b[i].agentId == x;
      }
      if x in AgentsOf(b) {
        var i :| 0 <= i < |b| && b[i].agentId == x;
        assert a[i].agentId == x;
      }
    }
  }

  lemma {:induction false} NothingUnassigned(log: seq<Finding>, agent: string)
    requires forall i :: 0 <= i < |log| ==> log[i].sequence > UNASSIGNED
    ensures Unassigned(log, agent) == []
  {
    if log != [] {
      NothingUnassigned(log[..|log| - 1], agent);
    }
  }

  /** A fully numbered store whose cursors are its highest numbers is a fixed point. */
  lemma NumberedStoreIsFixed(t: Store)
    requires forall i :: 0 <= i < |t.log| ==> t.log[i].sequence > UNASSIGNED
    requires forall a :: a in AgentsOf(t.log) ==> a in t.sequences && t.sequences[a] == MaxAssigned(t.log, a)
    ensures Bootstrap(t) == t
  {
    forall a ensures Unassigned(t.log, a) == [] {
      NothingUnassigned(t.log, a);
    }
    assert Bootstrap(t).log == t.log;
    assert Bootstrap(t).sequences == t.sequences;
  }

  /** Running bootstrap again changes nothing. */
  lemma BootstrapIdempotent(s: Store)
    requires UniqueIds(s.log)
    ensures Bootstrap(Bootstrap(s)) == Bootstrap(s)
  {
    var t := Bootstrap(s);
    forall i | 0 <= i < |s.log| ensures t.log[i].sequence > UNASSIGNED && t.log[i].agentId == s.log[i].agentId {
      BootstrapElement(s, i);
    }
    SameAgents(t.log, s.log);
    forall a | a in AgentsOf(t.log) ensures a in t.sequences && t.sequences[a] == MaxAssigned(t.log, a) {
      BootstrapCursor(s, a);
    }
    NumberedStoreIsFixed(t);
  }

  // ---- the service --------------------------------------------------------------------------

  class FindingsService {
    var findings: seq<Finding>
    var recordedAt: map<string, Time>
    var agentSequences: map<string, nat>

    ghost function View(): Store
      reads this
    {
      Store(findings, recordedAt, agentSequences)
    }

    constructor ()
      ensures View() == EMPTY_STORE
    {
      findings, recordedAt, agentSequences := [], map[], map[];
    }

    method NextSequenceForAgent(agent: string) returns (number: nat)
      modifies this`agentSequences
      ensures number == Counter(old(agentSequences), agent) + 1
      ensures agentSequences == old(agentSequences)[agent := number]
    {
      number := Counter(agentSequences, agent) + 1;
      agentSequences := agentSequences[agent := number];
    }

    method RecordFindingLocked(f: Finding, now: Time) returns (stored: Finding)
      modifies this
      ensures (View(), stored) == Record(old(View()), f, now)
    {
      var k := IndexOf(findings, f.id);
      var number: nat;
      if k < |findings| {
        var existing := findings[k];
        if existing.sequence > UNASSIGNED {
          number := existing.sequence;
        } else {
          number := NextSequenceForAgent(f.agentId);
        }
        var at := if existing.id in recordedAt then recordedAt[existing.id] else now;
        stored := Stamp(f, number, at);
        findings := findings[k := stored];
        if stored.id !in recordedAt {
          recordedAt := recordedAt[stored.id := now];
        }
        assert recordedAt == old(recordedAt)[f.id := at];
      } else {
        number := NextSequenceForAgent(f.agentId);
        stored := Stamp(f, number, now);
        findings := findings + [stored];
        recordedAt := recordedAt[stored.id := now];
      }
    }

    method RecordNewFindings(candidates: seq<Finding>, now: Time) returns (recorded: seq<Finding>)
      modifies this
      ensures (View(), recorded) == RecordNew(old(View()), candidates, now)
    {
      recorded := [];
      for i := 0 to |candidates|
        invariant (View(), recorded) == RecordNew(old(View()), candidates[..i], now)
      {
        assert candidates[..i + 1][..i] == candidates[..i];
        if !HasId(findings, candidates[i].id) {
          var f := RecordFindingLocked(candidates[i], now);
          recorded := recorded + [f];
        }
      }
      assert candidates[..|candidates|] == candidates;
    }

    method GetAgentSequence(agent: string) returns (number: nat)
      ensures number == Counter(View().sequences, agent)
    {
      number := Counter(agentSequences, agent);
    }

    method CaptureEvidenceBaselineSequence(agent: string, at: Time) returns (highest: nat)
      ensures highest == CaptureBaseline(View(), agent, at)
    {
      highest := 0;
      for i := 0 to |findings|
        invariant highest == HighestBy(findings[..i], recordedAt, agent, at)
      {
        assert findings[..i + 1][..i] == findings[..i];
        var f := findings[i];
        if f.agentId == agent && (f.id in recordedAt ==> recordedAt[f.id] <= at) && f.sequence > highest {
          highest := f.sequence;
        }
      }
      assert findings[..|findings|] == findings;
    }

    method ListFindings(filter: Filter) returns (listed: seq<Finding>)
      ensures listed == Selected(View().log, View().recordedAt, filter)
    {
      listed := [];
      for i := 0 to |findings|
        invariant listed == Selected(findings[..i], recordedAt, filter)
      {
        assert findings[..i + 1][..i] == findings[..i];
        if Selects(filter, recordedAt, findings[i]) {
          listed := listed + [findings[i]];
        }
      }
      assert findings[..|findings|] == findings;
    }

    /** The query the pipeline makes: one agent's findings, in one session or in all. */
    method ListForAgent(agent: string, session: Option<string>) returns (listed: seq<Finding>)
      ensures listed == Listed(View().log, agent, session)
    {
      listed := ListFindings(ANY_FINDING.(agentId := Some(agent), sessionId := session));
      SelectedForAgent(findings, recordedAt, agent, session);
    }

    method BootstrapSequences()
      requires UniqueIds(findings)
      modifies this
      ensures View() == Bootstrap(old(View()))
    {
      hide StableSort, Numbered, NumberedFor, CursorsFor, Unassigned, MaxAssigned;
      ghost var start := View();
      var agents := AgentsOf(findings);
      ghost var done: set<string> := {};
      LoopsStart(start);
      while agents != {}
        invariant recordedAt == start.recordedAt
        invariant agents !! done && agents + done == AgentsOf(start.log)
        invariant NumberedFor(start, done, findings)
        invariant CursorsFor(start, done, agentSequences)
        decreases agents
      {
        var agent :| agent in agents;
        NumberedForMeansSame(start, done, findings, agent);
        var highest := MaxAssigned(findings, agent);
        var queue := StableSort(BootstrapOrder(recordedAt), Unassigned(findings, agent));
        highest := NumberQueue(queue, highest, agent, start, done);
        QueueHoldsUnassigned(start, agent);
        CursorsForStep(start, done, agentSequences, agent);
        agentSequences := agentSequences[agent := highest];
        agents, done := agents - {agent}, done + {agent};
      }
      NumberedForAll(start, done, findings);
      CursorsForAll(start, done, agentSequences);
    }

    /** The inner loop of `_bootstrap_sequences`: number one agent's sorted findings. */
    method NumberQueue(queue: seq<Finding>, top: nat, agent: string, ghost start: Store, ghost done: set<string>)
      returns (highest: nat)
      requires UniqueIds(start.log) && agent !in done && recordedAt == start.recordedAt
      requires NumberedFor(start, done, findings)
      requires queue == Queue(start, agent) && top == MaxAssigned(start.log, agent)
      modifies this`findings
      ensures NumberedFor(start, done + {agent}, findings)
      ensures highest == top + |queue|
    {
      hide Queue, Numbered, Wanted, PartlyNumbered, NumberedFor;
      highest := top;
      PartlyNumberedStart(start, done, agent, findings);
      for k := 0 to |queue|
        invariant highest == top + k
        invariant PartlyNumbered(start, done, agent, k, findings)
      {
        var f := queue[k];
        highest := highest + 1;
        ghost var before := findings;
        var slot := IndexOf(findings, f.id);
        PartlyNumberedStep(start, done, agent, k, before);
        findings := findings[slot := Stamp(f, highest, AcceptedAt(recordedAt, f))];
      }
      PartlyNumberedEnd(start, done, agent, findings);
    }
  }

  // ---- the bootstrap loops ---------------------------------------------------------------------

  /** The log after numbering exactly the agents in `done`. */
  ghost predicate NumberedFor(start: Store, done: set<string>, log: seq<Finding>) {
    && |log| == |start.log|
    && forall i :: 0 <= i < |log| ==>
         log[i] == if start.log[i].agentId in done then Numbered(start, start.log[i]) else start.log[i]
  }

  ghost predicate CursorsFor(start: Store, done: set<string>, cursors: map<string, nat>) {
    && cursors.Keys == start.sequences.Keys + done
    && forall a :: a in cursors ==>
         cursors[a] == if a in done then MaxAssigned(start.log, a) + |Unassigned(start.log, a)| else start.sequences[a]
  }

  /** Slot `i` after numbering `done` and the first `k` findings of one more agent's queue. */
  ghost function Wanted(start: Store, done: set<string>, agent: string, k: nat, i: nat): Finding
    requires i < |start.log|
  {
    if start.log[i].agentId in done || IndexOf(Queue(start, agent), start.log[i].id) < k
    then Numbered(start, start.log[i]) else start.log[i]
  }

  ghost predicate PartlyNumbered(start: Store, done: set<string>, agent: string, k: nat, log: seq<Finding>) {
    |log| == |start.log| && forall i :: 0 <= i < |log| ==> log[i] == Wanted(start, done, agent, k, i)
  }

  lemma LoopsStart(start: Store)
    ensures NumberedFor(start, {}, start.log)
    ensures CursorsFor(start, {}, start.sequences)
  {
  }

  lemma NumberedForMeansSame(start: Store, done: set<string>, log: seq<Finding>, agent: string)
    requires NumberedFor(start, done, log) && agent !in done
    ensures MaxAssigned(log, agent) == MaxAssigned(start.log, agent)
    ensures Unassigned(log, agent) == Unassigned(start.log, agent)
  {
    SameFindingsOfAgent(log, start.log, agent);
  }

  lemma NumberedForAll(start: Store, done: set<string>, log: seq<Finding>)
    requires NumberedFor(start, done, log) && done == AgentsOf(start.log)
    ensures log == Bootstrap(start).log
  {
    forall i | 0 <= i < |log| ensures log[i] == Bootstrap(start).log[i] {
      assert start.log[i].agentId in AgentsOf(start.log);
    }
  }

  lemma PartlyNumberedStart(start: Store, done: set<string>, agent: string, log: seq<Finding>)
    requires NumberedFor(start, done, log)
    ensures PartlyNumbered(start, done, agent, 0, log)
  {
  }

  lemma CursorsForStep(start: Store, done: set<string>, cursors: map<string, nat>, agent: string)
    requires CursorsFor(start, done, cursors)
    ensures CursorsFor(start, done + {agent},
              cursors[agent := MaxAssigned(start.log, agent) + |Unassigned(start.log, agent)|])
  {
  }

  lemma CursorsForAll(start: Store, done: set<string>, cursors: map<string, nat>)
    requires CursorsFor(start, done, cursors) && done == AgentsOf(start.log)
    ensures cursors == Bootstrap(start).sequences
  {
  }

  /** An id names one place in the log, and one place in its own agent's queue. */
  lemma QueuePlace(start: Store, agent: string, k: nat, i: nat)
    requires UniqueIds(start.log) && i < |start.log| && k < |Queue(start, agent)|
    ensures IndexOf(Queue(start, agent), start.log[i].id) == k <==> start.log[i] == Queue(start, agent)[k]
  {
    QueueHoldsUnassigned(start, agent);
    PositionOf(Queue(start, agent), k);
    var f := Queue(start, agent)[k];
    assert f in Queue(start, agent);
    var home :| 0 <= home < |start.log| && start.log[home] == f;
    if start.log[i].id == f.id {
      assert i == home;
    }
  }

  lemma WantedStep(start: Store, done: set<string>, agent: string, k: nat, i: nat)
    requires UniqueIds(start.log) && agent !in done && i < |start.log| && k < |Queue(start, agent)|
    ensures Wanted(start, done, agent, k, i).id == start.log[i].id
    ensures Wanted(start, done, agent, k + 1, i)
            == if start.log[i] == Queue(start, agent)[k]
               then Stamp(Queue(start, agent)[k], MaxAssigned(start.log, agent) + 1 + k,
                          AcceptedAt(start.recordedAt, Queue(start, agent)[k]))
               else Wanted(start, done, agent, k, i)
  {
    hide StableSort, InsertStable, Unassigned, MaxAssigned, LexLE;
    QueuePlace(start, agent, k, i);
    BootstrapNumbersQueue(start, agent, k);
    QueueHoldsUnassigned(start, agent);
    assert Queue(start, agent)[k] in Queue(start, agent);
  }

  lemma PartlyNumberedStep(start: Store, done: set<string>, agent: string, k: nat, log: seq<Finding>)
    requires UniqueIds(start.log) && agent !in done
    requires PartlyNumbered(start, done, agent, k, log) && k < |Queue(start, agent)|
    ensures var f := Queue(start, agent)[k];
            var slot := IndexOf(log, f.id);
            && slot < |log|
            && PartlyNumbered(start, done, agent, k + 1,
                 log[slot := Stamp(f, MaxAssigned(start.log, agent) + 1 + k, AcceptedAt(start.recordedAt, f))])
  {
    hide Wanted, Queue, MaxAssigned, AcceptedAt, Stamp;
    var f := Queue(start, agent)[k];
    BootstrapNumbersQueue(start, agent, k);
    var home :| 0 <= home < |start.log| && start.log[home] == f;
    forall i | 0 <= i < |log|
      ensures log[i].id == start.log[i].id
    {
      WantedStep(start, done, agent, k, i);
    }
    PositionOf(log, home);
    forall i | 0 <= i < |log|
      ensures Wanted(start, done, agent, k + 1, i)
              == if i == home then Stamp(f, MaxAssigned(start.log, agent) + 1 + k, AcceptedAt(start.recordedAt, f))
                 else log[i]
    {
      WantedStep(start, done, agent, k, i);
    }
  }

  lemma StrangerNotQueued(start: Store, agent: string, i: nat)
    requires UniqueIds(start.log) && i < |start.log| && start.log[i].agentId != agent
    ensures IndexOf(Queue(start, agent), start.log[i].id) == |Queue(start, agent)|
  {
    QueueHoldsUnassigned(start, agent);
    var k := IndexOf(Queue(start, agent), start.log[i].id);
    if k < |Queue(start, agent)| {
      QueuePlace(start, agent, k, i);
    }
  }

  lemma PartlyNumberedEnd(start: Store, done: set<string>, agent: string, log: seq<Finding>)
    requires UniqueIds(start.log)
    requires PartlyNumbered(start, done, agent, |Queue(start, agent)|, log)
    ensures NumberedFor(start, done + {agent}, log)
  {
    forall i | 0 <= i < |log| && start.log[i].agentId != agent
      ensures IndexOf(Queue(start, agent), start.log[i].id) == |Queue(start, agent)|
    {
      StrangerNotQueued(start, agent, i);
    }
  }

  lemma SameFindingsOfAgent(a: seq<Finding>, b: seq<Finding>, agent: string)
    requires |a| == |b|
    requires forall i :: 0 <= i < |a| ==> a[i].agentId == b[i].agentId && (b[i].agentId == agent ==> a[i] == b[i])
    ensures MaxAssigned(a, agent) == MaxAssigned(b, agent)
    ensures Unassigned(a, agent) == Unassigned(b, agent)
  {
    if a != [] {
      SameFindingsOfAgent(a[..|a| - 1], b[..|b| - 1], agent);
    }
  }
}
