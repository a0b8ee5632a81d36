/** app/services/execution_reconciler.py: establishing UNKNOWN for executions whose outcome
    can no longer be observed. */
module Reconciliation {
  import opened Prelude
  import opened ExecutionEvidence
  import opened EvidenceRuns

  datatype Occasion =
    | Startup
    | Periodic(monotonicNow: Time, grace: Time)

  /** Why an open receipt is reconciled now, if it is. */
  function Verdict(occasion: Occasion, r: Receipt, start: Option<Time>): Option<ReconciliationReason> {
    match occasion
    case Startup => Some(PROCESS_RESTART)
    case Periodic(now, grace) =>
      if start.None? then Some(EVIDENCE_UNAVAILABLE)
      else if now >= start.value + r.declaredTimeout + grace then Some(EXECUTION_TIMEOUT)
      else None
  }

  function StartOf(s: Store, id: string): Option<Time> {
    if id in s.monotonicStarts then Some(s.monotonicStarts[id]) else None
  }

  /** One receipt of the snapshot against the store as it is by then. */
  function ReconcileOne(s: Store, bound: nat, occasion: Occasion, r: Receipt, at: Time): (Store, seq<Receipt>) {
    var verdict := Verdict(occasion, r, StartOf(s, r.receiptId));
    if verdict.None? then (s, [])
    else
      var (t, result) := RecordReconciled(s, bound, r.receiptId, at, verdict.value);
      (t, if result.Ok? then [result.value] else [])
  }

  /** The loop over the snapshot: the store afterwards and what was reconciled, in order. */
  function ReconcileEach(s: Store, bound: nat, occasion: Occasion, snapshot: seq<Receipt>, at: Time): (Store, seq<Receipt>) {
    if snapshot == [] then (s, [])
    else
      var (t, done) := ReconcileEach(s, bound, occasion, snapshot[..|snapshot| - 1], at);
      var (u, more) := ReconcileOne(t, bound, occasion, snapshot[|snapshot| - 1], at);
      (u, done + more)
  }

  class ExecutionReconciler {
    const store: ExecutionEvidenceService
    const grace: Time

    constructor (store: ExecutionEvidenceService, grace: Time)
      ensures this.store == store && this.grace == grace
    {
      this.store, this.grace := store, grace;
    }

    /** A receipt that ended by itself meanwhile is resolved, not reconciled. */
    method ReconcileReceipt(r: Receipt, at: Time, reason: ReconciliationReason) returns (reconciled: Option<Receipt>)
      modifies store
      ensures var (t, result) := RecordReconciled(old(store.View()), store.maxTerminalReceipts, r.receiptId, at, reason);
              store.View() == t && reconciled == if result.Ok? then Some(result.value) else None
    {
      var result := store.RecordReconciledReceipt(r.receiptId, at, reason);
      reconciled := if result.Ok? then Some(result.value) else None;
    }

    method ReconcileOnStartup(at: Time) returns (reconciled: seq<Receipt>)
      modifies store
      ensures (store.View(), reconciled)
              == ReconcileEach(old(store.View()), store.maxTerminalReceipts, Startup, OpenOnly(old(store.View()).receipts), at)
    {
      hide RecordReconciled;
      var open := store.ListOpen();
      reconciled := [];
      for i := 0 to |open|
        invariant (store.View(), reconciled)
                  == ReconcileEach(old(store.View()), store.maxTerminalReceipts, Startup, open[..i], at)
      {
        assert open[..i + 1][..i] == open[..i];
        var one := ReconcileReceipt(open[i], at, PROCESS_RESTART);
        if one.Some? {
          reconciled := reconciled + [one.value];
        } else {
          assert reconciled + [] == reconciled;
        }
      }
      assert open[..|open|] == open;
    }

    method ReconcileUnresolved(at: Time, monotonicNow: Time) returns (reconciled: seq<Receipt>)
      modifies store
      ensures (store.View(), reconciled)
              == ReconcileEach(old(store.View()), store.maxTerminalReceipts, Periodic(monotonicNow, grace),
                               OpenOnly(old(store.View()).receipts), at)
    {
      hide RecordReconciled;
      var open := store.ListOpen();
      ghost var before := store.View();
      reconciled := [];
      for i := 0 to |open|
        invariant (store.View(), reconciled)
                  == ReconcileEach(before, store.maxTerminalReceipts, Periodic(monotonicNow, grace), open[..i], at)
      {
        assert open[..i + 1][..i] == open[..i];
        ghost var sofar := reconciled;
        var start := store.GetMonotonicStart(open[i].receiptId);
        if start.None? {
          var one := ReconcileReceipt(open[i], at, EVIDENCE_UNAVAILABLE);
          if one.Some? {
            reconciled := reconciled + [one.value];
          }
        } else if monotonicNow >= start.value + open[i].declaredTimeout + grace {
          var one := ReconcileReceipt(open[i], at, EXECUTION_TIMEOUT);
          if one.Some? {
            reconciled := reconciled + [one.value];
          }
        }
        assert sofar + [] == sofar;
      }
      assert open[..|open|] == open;
    }
  }

  // ---- reconciliation is exact ------------------------------------------------------------------------

  /** What a reconciliation makes of one receipt of the history. */
  function Resolved(s: Store, occasion: Occasion, at: Time, r: Receipt): Receipt {
    var verdict := Verdict(occasion, r, StartOf(s, r.receiptId));
    if Ended(r) || verdict.None? then r else r.(status := UNKNOWN, outcome := Reconciled(at, verdict.value))
  }

  function ResolvedAll(s: Store, occasion: Occasion, at: Time, rs: seq<Receipt>): seq<Receipt> {
    seq(|rs|, i requires 0 <= i < |rs| => Resolved(s, occasion, at, rs[i]))
  }

  /** The open receipts that are due, resolved, in the order in which they were opened. */
  function DueOnly(s: Store, occasion: Occasion, at: Time, rs: seq<Receipt>): seq<Receipt> {
    if rs == [] then []
    else
      var rest := DueOnly(s, occasion, at, rs[..|rs| - 1]);
      var r := rs[|rs| - 1];
      if Ended(r) || Verdict(occasion, r, StartOf(s, r.receiptId)).None? then rest
      else rest + [Resolved(s, occasion, at, r)]
  }

  lemma OpenSnoc(rs: seq<Receipt>, n: nat)
    requires n < |rs|
    ensures OpenOnly(rs[..n + 1]) == OpenOnly(rs[..n]) + (if Ended(rs[n]) then [] else [rs[n]])
  {
    assert rs[..n + 1][..n] == rs[..n];
    assert OpenOnly(rs[..n]) + [] == OpenOnly(rs[..n]);
  }

  lemma DueSnoc(s: Store, occasion: Occasion, at: Time, rs: seq<Receipt>, n: nat)
    requires n < |rs|
    ensures DueOnly(s, occasion, at, rs[..n + 1])
            == DueOnly(s, occasion, at, rs[..n])
               + (if Ended(rs[n]) || Verdict(occasion, rs[n], StartOf(s, rs[n].receiptId)).None? then []
                  else [Resolved(s, occasion, at, rs[n])])
  {
    assert rs[..n + 1][..n] == rs[..n];
    assert DueOnly(s, occasion, at, rs[..n]) + [] == DueOnly(s, occasion, at, rs[..n]);
  }

  lemma EachSnoc(s: Store, bound: nat, occasion: Occasion, snapshot: seq<Receipt>, r: Receipt, at: Time)
    ensures var (t, done) := ReconcileEach(s, bound, occasion, snapshot, at);
            var (u, more) := ReconcileOne(t, bound, occasion, r, at);
            ReconcileEach(s, bound, occasion, snapshot + [r], at) == (u, done + more)
  {
    assert (snapshot + [r])[..|snapshot|] == snapshot;
  }

  /** Receipts are well formed whenever they are stored. */
  ghost predicate AllWellFormed(rs: seq<Receipt>) {
    forall r :: r in rs ==> WellFormed(r)
  }

  lemma CloseWellFormed(s: Store, id: string, status: ExecutionStatus, outcome: Outcome)
    requires AllWellFormed(s.receipts)
    ensures AllWellFormed(Close(s, id, status, outcome).0.receipts)
  {
    var (t, r) := Close(s, id, status, outcome);
    forall e | e in t.receipts ensures WellFormed(e) {
      assert e in s.receipts || (r.Ok? && e == r.value);
    }
  }

  lemma {:induction false} RunWellFormed(bound: nat, steps: seq<Step>)
    ensures AllWellFormed(Run(bound, steps).full.receipts)
  {
    hide WellFormed, Close, Next;
    if steps != [] {
      var front, step := steps[..|steps| - 1], steps[|steps| - 1];
      RunWellFormed(bound, front);
      var s := Run(bound, front).full;
      match step
      case OpenStep(_, _) =>
      case EndStep(id, status, outcome) => CloseWellFormed(s, id, status, outcome);
      case ReconcileStep(id, at, reason) => CloseWellFormed(s, id, UNKNOWN, Reconciled(at, reason));
    }
  }

  /** Closing an open receipt of the history succeeds in both stores, with the same record. */
  lemma CloseOpenReceipt(w: Twins, bound: nat, n: nat, at: Time, reason: ReconciliationReason)
    requires Agree(w, bound) && AllWellFormed(w.full.receipts)
    requires n < |w.full.receipts| && !Ended(w.full.receipts[n])
    ensures var r := w.full.receipts[n];
            var closed := r.(status := UNKNOWN, outcome := Reconciled(at, reason));
            var (kept, result) := RecordReconciled(w.kept, bound, r.receiptId, at, reason);
            var full := Close(w.full, r.receiptId, UNKNOWN, Reconciled(at, reason)).0;
            && result == Ok(closed)
            && full.receipts == w.full.receipts[n := closed]
            && full.monotonicStarts == w.full.monotonicStarts - {r.receiptId}
            && Agree(Twins(kept, full), bound)
  {
    var r := w.full.receipts[n];
    assert r in w.full.receipts && WellFormed(r);
    SameRecord(w, bound, n);
    assert Find(w.full.receipts, r.receiptId) == n by {
      hide Without, EndedOnly, Evicted;
    }
    hide Agree, Without, EndedOnly, Evicted, Find;
    CloseAgree(w, bound, r.receiptId, UNKNOWN, Reconciled(at, reason));
  }

  lemma SameRecord(w: Twins, bound: nat, n: nat)
    requires Agree(w, bound) && n < |w.full.receipts| && !Ended(w.full.receipts[n])
    ensures var j := Find(w.kept.receipts, w.full.receipts[n].receiptId);
            j < |w.kept.receipts| && w.kept.receipts[j] == w.full.receipts[n]
  {
    hide Sound, KeptAreLatest, EndedOnly, Without;
    WithoutUpdate(w.full.receipts, Gone(w), n, w.full.receipts[n]);
  }

  /** The history when the loop has passed its first n receipts. */
  ghost predicate Passed(w: Twins, occasion: Occasion, at: Time, n: nat, full: Store) {
    && n <= |w.full.receipts| == |full.receipts|
    && (forall i :: 0 <= i < n ==> full.receipts[i] == Resolved(w.full, occasion, at, w.full.receipts[i]))
    && (forall i :: n <= i < |full.receipts| ==>
          full.receipts[i] == w.full.receipts[i]
          && StartOf(full, full.receipts[i].receiptId) == StartOf(w.full, full.receipts[i].receiptId))
  }

  lemma {:induction false} ReconcilePrefix(w: Twins, bound: nat, occasion: Occasion, at: Time, n: nat) returns (full: Store)
    requires Agree(w, bound) && AllWellFormed(w.full.receipts) && n <= |w.full.receipts|
    ensures var (kept, done) := ReconcileEach(w.kept, bound, occasion, OpenOnly(w.full.receipts[..n]), at);
            && Agree(Twins(kept, full), bound) && AllWellFormed(full.receipts)
            && Passed(w, occasion, at, n, full)
            && done == DueOnly(w.full, occasion, at, w.full.receipts[..n])
  {
    hide Agree, WellFormed, RecordReconciled, OpenOnly, DueOnly, ReconcileEach, Close, Find;
    if n == 0 {
      NothingToDo(w, bound, occasion, at);
      full := w.full;
    } else {
      var before := ReconcilePrefix(w, bound, occasion, at, n - 1);
      var r := w.full.receipts[n - 1];
      var snapshot := OpenOnly(w.full.receipts[..n - 1]);
      var (kept, done) := ReconcileEach(w.kept, bound, occasion, snapshot, at);
      OpenSnoc(w.full.receipts, n - 1);
      DueSnoc(w.full, occasion, at, w.full.receipts, n - 1);
      EachSnoc(w.kept, bound, occasion, snapshot, r, at);
      assert snapshot + [] == snapshot && done + [] == done;
      SameStarts(Twins(kept, before), bound);
      var verdict := Verdict(occasion, r, StartOf(before, r.receiptId));
      if Ended(r) || verdict.None? {
        full := before;
      } else {
        CloseOpenReceipt(Twins(kept, before), bound, n - 1, at, verdict.value);
        full := Close(before, r.receiptId, UNKNOWN, Reconciled(at, verdict.value)).0;
        CloseWellFormed(before, r.receiptId, UNKNOWN, Reconciled(at, verdict.value));
        AgreeUnique(Twins(kept, before), bound);
      }
    }
  }

  lemma NothingToDo(w: Twins, bound: nat, occasion: Occasion, at: Time)
    ensures ReconcileEach(w.kept, bound, occasion, OpenOnly(w.full.receipts[..0]), at) == (w.kept, [])
    ensures DueOnly(w.full, occasion, at, w.full.receipts[..0]) == []
  {
  }

  lemma SameStarts(w: Twins, bound: nat)
    requires Agree(w, bound)
    ensures forall id :: StartOf(w.kept, id) == StartOf(w.full, id)
  {
  }

  lemma AgreeUnique(w: Twins, bound: nat)
    requires Agree(w, bound)
    ensures Unique(w.full.receipts)
  {
  }

  lemma ReconciliationResolves(bound: nat, steps: seq<Step>, occasion: Occasion, at: Time) returns (full: Store)
    requires FreshRun(bound, steps)
    ensures var w := Run(bound, steps);
            var (kept, done) := ReconcileEach(w.kept, bound, occasion, OpenOnly(w.kept.receipts), at);
            && full.receipts == ResolvedAll(w.full, occasion, at, w.full.receipts)
            && done == DueOnly(w.full, occasion, at, w.full.receipts)
            && Agree(Twins(kept, full), bound)
  {
    hide Agree, FreshRun, Run, AllWellFormed, ReconcileEach, DueOnly;
    RunAgree(bound, steps);
    RunWellFormed(bound, steps);
    var w := Run(bound, steps);
    full := ReconcilePrefix(w, bound, occasion, at, |w.full.receipts|);
    assert w.full.receipts[..|w.full.receipts|] == w.full.receipts;
    OpenInBoth(w, bound);
  }

  /** The records of a history that differ from the same records before, in order. */
  function Turned(before: seq<Receipt>, after: seq<Receipt>): seq<Receipt>
    requires |before| == |after|
  {
    if before == [] then []
    else
      var k := |before| - 1;
      Turned(before[..k], after[..k]) + (if before[k] == after[k] then [] else [after[k]])
  }

  lemma {:induction false} DueIsTurned(s: Store, occasion: Occasion, at: Time, rs: seq<Receipt>)
    ensures DueOnly(s, occasion, at, rs) == Turned(rs, ResolvedAll(s, occasion, at, rs))
  {
    if rs != [] {
      var k := |rs| - 1;
      DueIsTurned(s, occasion, at, rs[..k]);
      assert ResolvedAll(s, occasion, at, rs)[..k] == ResolvedAll(s, occasion, at, rs[..k]);
      var rest := DueOnly(s, occasion, at, rs[..k]);
      assert rest + [] == rest;
    }
  }

  /** Reconciliation is exact. After any run of the store, at startup every receipt of the history
      that is still STARTED becomes UNKNOWN; periodically exactly those that have no monotonic
      start, and those whose start, declared timeout and grace are all past, each for its own
      reason. Every other receipt stays as it was; what was turned is returned in the order it was
      opened; and what the store retains afterwards is again the latest of the resulting history. */
  lemma ReconciliationIsExact(bound: nat, steps: seq<Step>, occasion: Occasion, at: Time) returns (full: Store)
    requires FreshRun(bound, steps)
    ensures var w := Run(bound, steps);
            var (kept, done) := ReconcileEach(w.kept, bound, occasion, OpenOnly(w.kept.receipts), at);
            var starts := w.full.monotonicStarts;
            && |full.receipts| == |w.full.receipts|
            && (forall i :: 0 <= i < |full.receipts| ==>
                  var r := w.full.receipts[i];
                  full.receipts[i]
                  == if r.status != STARTED then r
                     else if occasion.Startup? then r.(status := UNKNOWN, outcome := Reconciled(at, PROCESS_RESTART))
                     else if r.receiptId !in starts
                     then r.(status := UNKNOWN, outcome := Reconciled(at, EVIDENCE_UNAVAILABLE))
                     else if occasion.monotonicNow >= starts[r.receiptId] + r.declaredTimeout + occasion.grace
                     then r.(status := UNKNOWN, outcome := Reconciled(at, EXECUTION_TIMEOUT))
                     else r)
            && done == Turned(w.full.receipts, full.receipts)
            && Agree(Twins(kept, full), bound)
  {
    hide Agree, FreshRun, Run, ReconcileEach, DueOnly, Turned;
    full := ReconciliationResolves(bound, steps, occasion, at);
    DueIsTurned(Run(bound, steps).full, occasion, at, Run(bound, steps).full.receipts);
  }

  lemma OpenInBoth(w: Twins, bound: nat)
    requires Agree(w, bound)
    ensures OpenOnly(w.kept.receipts) == OpenOnly(w.full.receipts)
  {
    hide Without, OpenOnly, EndedOnly, Sound;
    OpenKept(w.full.receipts, Gone(w));
  }

  /** Between the calls of a reconciliation the executor may record outcomes of its own: each
      call is one step of the store, so whatever interleaves with it, an outcome already
      recorded stands. */
  lemma ReconcileOneIsAStep(s: Store, bound: nat, occasion: Occasion, r: Receipt, at: Time)
    ensures var starts := s.monotonicStarts;
            var due := occasion.Periodic? && r.receiptId in starts
                       ==> occasion.monotonicNow >= starts[r.receiptId] + r.declaredTimeout + occasion.grace;
            ReconcileOne(s, bound, occasion, r, at).0
            == if !due then s
               else Next(s, bound, ReconcileStep(r.receiptId, at,
                           if occasion.Startup? then PROCESS_RESTART
                           else if r.receiptId in starts then EXECUTION_TIMEOUT else EVIDENCE_UNAVAILABLE))
    ensures forall e :: e in s.receipts && e.receiptId == r.receiptId && Ended(e) && Unique(s.receipts)
                        ==> ReconcileOne(s, bound, occasion, r, at) == (s, [])
  {
    forall e | e in s.receipts && e.receiptId == r.receiptId && Ended(e) && Unique(s.receipts)
      ensures ReconcileOne(s, bound, occasion, r, at) == (s, [])
    {
      assert s.receipts[Find(s.receipts, r.receiptId)] == e;
    }
  }
}
