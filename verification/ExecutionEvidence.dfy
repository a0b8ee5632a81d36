/** app/services/execution_evidence_service.py: the bounded store of execution receipts. */
module ExecutionEvidence {
  import opened Prelude
  import opened Binding

  datatype ExecutionStatus = STARTED | SUCCEEDED | FAILED | TIMEOUT | INTERRUPTED | UNKNOWN

  datatype ReconciliationReason = PROCESS_RESTART | EXECUTION_TIMEOUT | WORKER_LOST | EVIDENCE_UNAVAILABLE

  /** Who ran what under which authority, fixed when the receipt is opened. The binding's
      digest is ideal and stands as the binding itself. */
  datatype Provenance = Provenance(
    sessionId: string,
    agentId: string,
    requestId: string,
    toolId: string,
    toolVersion: string,
    implementationId: string,
    binding: ExecutionBinding,
    capabilityProfileId: string,
    capabilityDigest: string)

  datatype Outcome =
    | Pending
    | Observed(completedAt: Time, duration: int, errorType: Option<string>, errorCode: Option<string>,
               outputDigest: Option<string>)
    | Reconciled(reconciledAt: Time, reason: ReconciliationReason)

  datatype Receipt = Receipt(
    receiptId: string,
    grantId: nat,
    provenance: Provenance,
    declaredTimeout: Time,
    startedAt: Time,
    status: ExecutionStatus,
    outcome: Outcome)

  datatype EvidenceError =
    | DuplicateReceipt
    | DuplicateGrant
    | InvalidReceipt
    | IllegalStatus
    | ReceiptNotFound
    | AlreadyTerminal

  /** `receipts` is the dictionary in insertion order. */
  datatype Store = Store(
    receipts: seq<Receipt>,
    grantToReceipt: map<nat, string>,
    monotonicStarts: map<string, Time>,
    failures: nat,
    unknowns: nat)

  const EMPTY_EVIDENCE := Store([], map[], map[], 0, 0)

  predicate Ended(r: Receipt) {
    r.status != STARTED
  }

  /** The field constraints of the receipt model. */
  predicate WellFormed(r: Receipt) {
    var p := r.provenance;
    && r.receiptId != "" && r.declaredTimeout > 0
    && p.sessionId != "" && p.agentId != "" && p.requestId != "" && p.toolId != "" && p.toolVersion != ""
    && p.implementationId != "" && p.capabilityProfileId != "" && p.capabilityDigest != ""
    && (r.outcome.Observed? ==> r.outcome.duration >= 0)
  }

  function Find(rs: seq<Receipt>, id: string): (k: nat)
    ensures k <= |rs|
    ensures k < |rs| ==> rs[k].receiptId == id
    ensures forall i :: 0 <= i < k ==> rs[i].receiptId != id
  {
    if rs == [] then 0
    else
      var front := rs[..|rs| - 1];
      var k := Find(front, id);
      assert forall i :: 0 <= i < |front| ==> front[i] == rs[i];
      if k < |front| then k else if rs[|front|].receiptId == id then |front| else |rs|
  }

  function EndedOnly(rs: seq<Receipt>): seq<Receipt> {
    if rs == [] then []
    else
      var rest := EndedOnly(rs[..|rs| - 1]);
      if Ended(rs[|rs| - 1]) then rest + [rs[|rs| - 1]] else rest
  }

  /** `list_open` */
  function OpenOnly(rs: seq<Receipt>): seq<Receipt> {
    if rs == [] then []
    else
      var rest := OpenOnly(rs[..|rs| - 1]);
      if Ended(rs[|rs| - 1]) then rest else rest + [rs[|rs| - 1]]
  }

  function Without(rs: seq<Receipt>, gone: set<string>): seq<Receipt> {
    if rs == [] then []
    else
      var rest := Without(rs[..|rs| - 1], gone);
      if rs[|rs| - 1].receiptId in gone then rest else rest + [rs[|rs| - 1]]
  }

  function Ids(rs: seq<Receipt>): set<string> {
    set i | 0 <= i < |rs| :: rs[i].receiptId
  }

  function Grants(rs: seq<Receipt>): set<nat> {
    set i | 0 <= i < |rs| :: rs[i].grantId
  }

  function ByStart(): (Receipt, Receipt) -> bool {
    (a: Receipt, b: Receipt) => a.startedAt <= b.startedAt
  }

  /** The receipts beyond the bound, oldest first. */
  function Victims(rs: seq<Receipt>, bound: nat): seq<Receipt> {
    var ended := EndedOnly(rs);
    if |ended| <= bound then [] else StableSort(ByStart(), ended)[..|ended| - bound]
  }

  /** The store with `victims` taken out of the receipts and of both indexes. */
  function Evicted(s: Store, victims: seq<Receipt>): Store {
    s.(receipts := Without(s.receipts, Ids(victims)),
       grantToReceipt := s.grantToReceipt - Grants(victims),
       monotonicStarts := s.monotonicStarts - Ids(victims))
  }

  /** `_prune_terminal_locked` */
  function Prune(s: Store, bound: nat): Store {
    Evicted(s, Victims(s.receipts, bound))
  }

  /** `record_started` */
  function Open(s: Store, r: Receipt, start: Option<Time>): (Store, Result<Receipt, EvidenceError>) {
    if Find(s.receipts, r.receiptId) < |s.receipts| then (s.(failures := s.failures + 1), Err(DuplicateReceipt))
    else if r.grantId in s.grantToReceipt then (s.(failures := s.failures + 1), Err(DuplicateGrant))
    else if !WellFormed(r) then (s, Err(InvalidReceipt))
    else
      (s.(receipts := s.receipts + [r],
          grantToReceipt := s.grantToReceipt[r.grantId := r.receiptId],
          monotonicStarts := if start.Some? then s.monotonicStarts[r.receiptId := start.value]
                             else s.monotonicStarts), Ok(r))
  }

  predicate ExecutorStatus(status: ExecutionStatus) {
    status == SUCCEEDED || status == FAILED || status == TIMEOUT || status == INTERRUPTED
  }

  /** The transition of an open receipt to `status`, before retention is applied. */
  function Close(s: Store, id: string, status: ExecutionStatus, outcome: Outcome): (Store, Result<Receipt, EvidenceError>) {
    var k := Find(s.receipts, id);
    if k == |s.receipts| then (s, Err(ReceiptNotFound))
    else if Ended(s.receipts[k]) then (s, Err(AlreadyTerminal))
    else
      var r := s.receipts[k].(status := status, outcome := outcome);
      if !WellFormed(r) then (s, Err(InvalidReceipt))
      else
        (s.(receipts := s.receipts[k := r],
            monotonicStarts := s.monotonicStarts - {id},
            unknowns := if status == UNKNOWN then s.unknowns + 1 else s.unknowns), Ok(r))
  }

  function Bounded(tr: (Store, Result<Receipt, EvidenceError>), bound: nat): (Store, Result<Receipt, EvidenceError>) {
    (if tr.1.Ok? then Prune(tr.0, bound) else tr.0, tr.1)
  }

  /** `record_terminal` */
  function RecordTerminal(s: Store, bound: nat, id: string, status: ExecutionStatus, outcome: Outcome)
    : (Store, Result<Receipt, EvidenceError>)
  {
    if !ExecutorStatus(status) then (s, Err(IllegalStatus)) else Bounded(Close(s, id, status, outcome), bound)
  }

  /** `record_reconciled` */
  function RecordReconciled(s: Store, bound: nat, id: string, at: Time, reason: ReconciliationReason)
    : (Store, Result<Receipt, EvidenceError>)
  {
    Bounded(Close(s, id, UNKNOWN, Reconciled(at, reason)), bound)
  }

  lemma {:induction false} WithoutMembers(rs: seq<Receipt>, gone: set<string>)
    ensures forall r :: r in Without(rs, gone) <==> r in rs && r.receiptId !in gone
  {
    if rs != [] {
      WithoutMembers(rs[..|rs| - 1], gone);
      assert rs == rs[..|rs| - 1] + [rs[|rs| - 1]];
    }
  }

  lemma {:induction false} WithoutTwice(rs: seq<Receipt>, a: set<string>, b: set<string>)
    ensures Without(Without(rs, a), b) == Without(rs, a + b)
  {
    if rs != [] {
      WithoutTwice(rs[..|rs| - 1], a, b);
      var rest, last := Without(rs[..|rs| - 1], a), rs[|rs| - 1];
      if last.receiptId !in a {
        assert (rest + [last])[..|rest|] == rest;
      }
    }
  }

  lemma {:induction false} WithoutNone(rs: seq<Receipt>)
    ensures Without(rs, {}) == rs
  {
    if rs != [] {
      WithoutNone(rs[..|rs| - 1]);
    }
  }

  lemma EvictedNone(s: Store)
    ensures Evicted(s, []) == s
  {
    WithoutNone(s.receipts);
    assert Ids([]) == {} && Grants([]) == {};
  }

  lemma IdsSnoc(rs: seq<Receipt>, r: Receipt)
    ensures Ids(rs + [r]) == Ids(rs) + {r.receiptId}
    ensures Grants(rs + [r]) == Grants(rs) + {r.grantId}
  {
    var all := rs + [r];
    assert all[|rs|] == r && forall i :: 0 <= i < |rs| ==> all[i] == rs[i];
    forall id | id in Ids(rs) ensures id in Ids(all) {
      var i :| 0 <= i < |rs| && rs[i].receiptId == id;
      assert all[i].receiptId == id;
    }
    forall g | g in Grants(rs) ensures g in Grants(all) {
      var i :| 0 <= i < |rs| && rs[i].grantId == g;
      assert all[i].grantId == g;
    }
  }

  lemma OneId(r: Receipt)
    ensures Ids([r]) == {r.receiptId} && Grants([r]) == {r.grantId}
  {
    assert [r][0] == r;
  }

  lemma EvictedSnoc(s: Store, victims: seq<Receipt>, r: Receipt)
    ensures Evicted(s, victims + [r]) == Evicted(Evicted(s, victims), [r])
  {
    hide Without;
    WithoutTwice(s.receipts, Ids(victims), {r.receiptId});
    IdsSnoc(victims, r);
    OneId(r);
    assert s.grantToReceipt - (Grants(victims) + {r.grantId}) == s.grantToReceipt - Grants(victims) - {r.grantId};
    assert s.monotonicStarts - (Ids(victims) + {r.receiptId}) == s.monotonicStarts - Ids(victims) - {r.receiptId};
  }

  class ExecutionEvidenceService {
    const maxTerminalReceipts: nat
    var receipts: seq<Receipt>
    var grantToReceipt: map<nat, string>
    var monotonicStarts: map<string, Time>
    var failures: nat
    var unknowns: nat

    ghost function View(): Store
      reads this
    {
      Store(receipts, grantToReceipt, monotonicStarts, failures, unknowns)
    }

    /** The retention policy carries no default and admits no bound below one. */
    constructor (maxTerminalReceipts: nat)
      requires maxTerminalReceipts >= 1
      ensures View() == EMPTY_EVIDENCE && this.maxTerminalReceipts == maxTerminalReceipts
    {
      this.maxTerminalReceipts := maxTerminalReceipts;
      receipts, grantToReceipt, monotonicStarts, failures, unknowns := [], map[], map[], 0, 0;
    }

    /** Take one receipt out of every structure keyed by it. */
    method Evict(r: Receipt)
      modifies this
      ensures View() == Evicted(old(View()), [r])
    {
      receipts := Without(receipts, {r.receiptId});
      grantToReceipt := grantToReceipt - {r.grantId};
      monotonicStarts := monotonicStarts - {r.receiptId};
      OneId(r);
    }

    method PruneTerminalLocked()
      modifies this
      ensures View() == Prune(old(View()), maxTerminalReceipts)
    {
      hide Evicted, StableSort;
      var ended: seq<Receipt> := [];
      for i := 0 to |receipts|
        invariant ended == EndedOnly(receipts[..i]) && View() == old(View())
      {
        assert receipts[..i + 1][..i] == receipts[..i];
        if Ended(receipts[i]) {
          ended := ended + [receipts[i]];
        }
      }
      assert receipts[..|receipts|] == receipts;
      EvictedNone(View());
      if |ended| <= maxTerminalReceipts {
        return;
      }
      var victims := StableSort(ByStart(), ended)[..|ended| - maxTerminalReceipts];
      ghost var start := View();
      for i := 0 to |victims|
        invariant View() == Evicted(start, victims[..i])
      {
        EvictedSnoc(start, victims[..i], victims[i]);
        assert victims[..i + 1] == victims[..i] + [victims[i]];
        Evict(victims[i]);
      }
      assert victims[..|victims|] == victims;
    }

    method RecordStarted(receiptId: string, grantId: nat, provenance: Provenance, declaredTimeout: Time,
                         startedAt: Time, monotonicStart: Option<Time>)
      returns (r: Result<Receipt, EvidenceError>)
      modifies this
      ensures (View(), r) == Open(old(View()), Receipt(receiptId, grantId, provenance, declaredTimeout, startedAt,
                                                       STARTED, Pending), monotonicStart)
    {
      if Find(receipts, receiptId) < |receipts| {
        failures := failures + 1;
        return Err(DuplicateReceipt);
      }
      if grantId in grantToReceipt {
        failures := failures + 1;
        return Err(DuplicateGrant);
      }
      var receipt := Receipt(receiptId, grantId, provenance, declaredTimeout, startedAt, STARTED, Pending);
      if !WellFormed(receipt) {
        return Err(InvalidReceipt);
      }
      receipts := receipts + [receipt];
      grantToReceipt := grantToReceipt[grantId := receiptId];
      if monotonicStart.Some? {
        monotonicStarts := monotonicStarts[receiptId := monotonicStart.value];
      }
      r := Ok(receipt);
    }

    method RecordTerminalReceipt(receiptId: string, status: ExecutionStatus, outcome: Outcome)
      returns (r: Result<Receipt, EvidenceError>)
      requires outcome.Observed?
      modifies this
      ensures (View(), r) == RecordTerminal(old(View()), maxTerminalReceipts, receiptId, status, outcome)
    {
      hide Prune;
      if !ExecutorStatus(status) {
        return Err(IllegalStatus);
      }
      var k := Find(receipts, receiptId);
      if k == |receipts| {
        return Err(ReceiptNotFound);
      }
      if Ended(receipts[k]) {
        return Err(AlreadyTerminal);
      }
      var terminal := receipts[k].(status := status, outcome := outcome);
      if !WellFormed(terminal) {
        return Err(InvalidReceipt);
      }
      receipts := receipts[k := terminal];
      monotonicStarts := monotonicStarts - {receiptId};
      PruneTerminalLocked();
      r := Ok(terminal);
    }

    method RecordReconciledReceipt(receiptId: string, at: Time, reason: ReconciliationReason)
      returns (r: Result<Receipt, EvidenceError>)
      modifies this
      ensures (View(), r) == RecordReconciled(old(View()), maxTerminalReceipts, receiptId, at, reason)
    {
      hide Prune;
      var k := Find(receipts, receiptId);
      if k == |receipts| {
        return Err(ReceiptNotFound);
      }
      if Ended(receipts[k]) {
        return Err(AlreadyTerminal);
      }
      var reconciled := receipts[k].(status := UNKNOWN, outcome := Reconciled(at, reason));
      if !WellFormed(reconciled) {
        return Err(InvalidReceipt);
      }
      receipts := receipts[k := reconciled];
      unknowns := unknowns + 1;
      monotonicStarts := monotonicStarts - {receiptId};
      PruneTerminalLocked();
      r := Ok(reconciled);
    }

    method GetMonotonicStart(receiptId: string) returns (start: Option<Time>)
      ensures start == if receiptId in View().monotonicStarts then Some(View().monotonicStarts[receiptId]) else None
    {
      start := if receiptId in monotonicStarts then Some(monotonicStarts[receiptId]) else None;
    }

    method ListOpen() returns (open: seq<Receipt>)
      ensures open == OpenOnly(View().receipts)
    {
      open := [];
      for i := 0 to |receipts|
        invariant open == OpenOnly(receipts[..i])
      {
        assert receipts[..i + 1][..i] == receipts[..i];
        if !Ended(receipts[i]) {
          open := open + [receipts[i]];
        }
      }
      assert receipts[..|receipts|] == receipts;
    }
  }
}
