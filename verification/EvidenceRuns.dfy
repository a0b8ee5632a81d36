/** Runs of the receipt store beside a history that never evicts. */
module EvidenceRuns {
  import opened Prelude
  import opened ExecutionEvidence

  datatype Step =
    | OpenStep(receipt: Receipt, start: Option<Time>)
    | EndStep(id: string, status: ExecutionStatus, outcome: Outcome)
    | ReconcileStep(id: string, at: Time, reason: ReconciliationReason)

  /** A call of the store whose retention bound is `bound`. */
  function Next(s: Store, bound: nat, step: Step): Store {
    match step
    case OpenStep(r, start) => Open(s, r.(status := STARTED, outcome := Pending), start).0
    case EndStep(id, status, outcome) => RecordTerminal(s, bound, id, status, outcome).0
    case ReconcileStep(id, at, reason) => RecordReconciled(s, bound, id, at, reason).0
  }

  /** The same call of a store that keeps everything. */
  function NextUnbounded(s: Store, step: Step): Store {
    match step
    case OpenStep(r, start) => Open(s, r.(status := STARTED, outcome := Pending), start).0
    case EndStep(id, status, outcome) =>
      if ExecutorStatus(status) then Close(s, id, status, outcome).0 else s
    case ReconcileStep(id, at, reason) => Close(s, id, UNKNOWN, Reconciled(at, reason)).0
  }

  datatype Twins = Twins(kept: Store, full: Store)

  function NextTwins(w: Twins, bound: nat, step: Step): Twins {
    Twins(Next(w.kept, bound, step), NextUnbounded(w.full, step))
  }

  function Run(bound: nat, steps: seq<Step>): Twins {
    if steps == [] then Twins(EMPTY_EVIDENCE, EMPTY_EVIDENCE)
    else NextTwins(Run(bound, steps[..|steps| - 1]), bound, steps[|steps| - 1])
  }

  /** Receipt identifiers once opened and since evicted. */
  function Gone(w: Twins): set<string> {
    Ids(w.full.receipts) - Ids(w.kept.receipts)
  }

  /** Identifiers are fresh as far as eviction is concerned: one whose receipt was evicted is
      not used again. One still stored may be, and is refused. */
  ghost predicate Fresh(w: Twins, step: Step) {
    step.OpenStep? ==>
      && (step.receipt.receiptId in Ids(w.full.receipts) ==> step.receipt.receiptId in Ids(w.kept.receipts))
      && (step.receipt.grantId in w.full.grantToReceipt ==> step.receipt.grantId in w.kept.grantToReceipt)
  }

  ghost predicate FreshRun(bound: nat, steps: seq<Step>) {
    steps == [] || (FreshRun(bound, steps[..|steps| - 1]) && Fresh(Run(bound, steps[..|steps| - 1]), steps[|steps| - 1]))
  }

  // ---- a single store --------------------------------------------------------------------------

  ghost predicate Unique(rs: seq<Receipt>) {
    forall i, j :: 0 <= i < j < |rs| ==> rs[i].receiptId != rs[j].receiptId && rs[i].grantId != rs[j].grantId
  }

  /** The grant index is the exact inverse of the stored receipts. */
  ghost predicate GrantIndexExact(s: Store) {
    && (forall r :: r in s.receipts ==> r.grantId in s.grantToReceipt && s.grantToReceipt[r.grantId] == r.receiptId)
    && (forall g :: g in s.grantToReceipt ==> exists r :: r in s.receipts && r.grantId == g)
  }

  /** Monotonic starts exist for open receipts only. */
  ghost predicate StartsOpen(s: Store) {
    forall id :: id in s.monotonicStarts ==> exists r :: r in s.receipts && r.receiptId == id && !Ended(r)
  }

  ghost predicate Sound(s: Store) {
    Unique(s.receipts) && GrantIndexExact(s) && StartsOpen(s)
  }

  lemma IdsMembers(rs: seq<Receipt>)
    ensures forall id :: id in Ids(rs) <==> exists r :: r in rs && r.receiptId == id
    ensures forall id :: id in Ids(rs) <==> Find(rs, id) < |rs|
  {
    forall id | exists r :: r in rs && r.receiptId == id ensures id in Ids(rs) {
      var r :| r in rs && r.receiptId == id;
    }
    forall id | Find(rs, id) < |rs| ensures id in Ids(rs) {
      assert rs[Find(rs, id)].receiptId == id;
    }
  }

  lemma OpenSound(s: Store, r: Receipt, start: Option<Time>)
    requires Sound(s) && !Ended(r)
    ensures Sound(Open(s, r, start).0)
  {
    var (t, result) := Open(s, r, start);
    if result.Ok? {
      assert forall e :: e in t.receipts <==> e in s.receipts || e == r;
      forall i | 0 <= i < |s.receipts| ensures s.receipts[i].receiptId != r.receiptId && s.receipts[i].grantId != r.grantId {
        assert s.receipts[i] in s.receipts;
      }
    }
  }

  lemma UpdateMembers(rs: seq<Receipt>, k: nat, r: Receipt)
    requires Unique(rs) && k < |rs|
    ensures forall e :: e in rs[k := r] <==> e == r || (e in rs && e != rs[k])
  {
    forall e | e in rs && e != rs[k] ensures e in rs[k := r] {
      var i :| 0 <= i < |rs| && rs[i] == e;
      assert rs[k := r][i] == e;
    }
    assert rs[k := r][k] == r;
  }

  /** A successful close changes one open receipt and drops its monotonic start. */
  lemma CloseShape(s: Store, id: string, status: ExecutionStatus, outcome: Outcome)
    ensures var (t, result) := Close(s, id, status, outcome);
            var k := Find(s.receipts, id);
            && (result.Err? ==> t == s)
            && (result.Ok? ==>
                  && k < |s.receipts| && !Ended(s.receipts[k])
                  && result.value == s.receipts[k].(status := status, outcome := outcome)
                  && t.receipts == s.receipts[k := result.value]
                  && t.grantToReceipt == s.grantToReceipt
                  && t.monotonicStarts == s.monotonicStarts - {id}
                  && t.failures == s.failures
                  && t.unknowns == s.unknowns + (if status == UNKNOWN then 1 else 0))
  {
  }

  lemma CloseSound(s: Store, id: string, status: ExecutionStatus, outcome: Outcome)
    requires Sound(s) && status != STARTED
    ensures Sound(Close(s, id, status, outcome).0)
  {
    hide Close;
    CloseShape(s, id, status, outcome);
    var (t, result) := Close(s, id, status, outcome);
    if result.Ok? {
      var k, r := Find(s.receipts, id), result.value;
      assert s.receipts[k] in s.receipts && t.receipts[k] == r;
      UpdateMembers(s.receipts, k, r);
      hide Unique;
      forall g | g in t.grantToReceipt ensures exists e :: e in t.receipts && e.grantId == g {
        var e :| e in s.receipts && e.grantId == g;
        assert e != s.receipts[k] ==> e in t.receipts;
      }
      forall other | other in t.monotonicStarts
        ensures exists e :: e in t.receipts && e.receiptId == other && !Ended(e)
      {
        assert other in s.monotonicStarts && other != id;
        var e :| e in s.receipts && e.receiptId == other && !Ended(e);
        assert e in t.receipts;
      }
      CloseUnique(s, id, status, outcome);
    }
  }

  lemma CloseUnique(s: Store, id: string, status: ExecutionStatus, outcome: Outcome)
    requires Unique(s.receipts)
    ensures Unique(Close(s, id, status, outcome).0.receipts)
  {
    hide Close;
    CloseShape(s, id, status, outcome);
  }

  lemma {:induction false} WithoutUnique(rs: seq<Receipt>, gone: set<string>)
    requires Unique(rs)
    ensures Unique(Without(rs, gone))
  {
    if rs != [] {
      var front, last := rs[..|rs| - 1], rs[|rs| - 1];
      WithoutUnique(front, gone);
      WithoutMembers(front, gone);
      var rest := Without(front, gone);
      forall i | 0 <= i < |rest| ensures rest[i].receiptId != last.receiptId && rest[i].grantId != last.grantId {
        assert rest[i] in front;
        var j :| 0 <= j < |front| && front[j] == rest[i];
        assert rs[j] == rest[i];
      }
    }
  }

  lemma EvictedShape(s: Store, m: Receipt)
    requires Unique(s.receipts) && m in s.receipts
    ensures var t := Evicted(s, [m]);
            && (forall r :: r in t.receipts <==> r in s.receipts && r != m)
            && Unique(t.receipts)
            && t.grantToReceipt == s.grantToReceipt - {m.grantId}
            && t.monotonicStarts == s.monotonicStarts - {m.receiptId}
  {
    hide Without;
    OneId(m);
    WithoutUnique(s.receipts, {m.receiptId});
    WithoutMembers(s.receipts, {m.receiptId});
    SameReceipt(s.receipts, m);
  }

  lemma SameReceipt(rs: seq<Receipt>, m: Receipt)
    requires Unique(rs) && m in rs
    ensures forall r :: r in rs && (r.receiptId == m.receiptId || r.grantId == m.grantId) ==> r == m
  {
  }

  lemma EvictSound(s: Store, m: Receipt)
    requires Sound(s) && m in s.receipts && Ended(m)
    ensures Sound(Evicted(s, [m]))
    ensures Evicted(s, [m]).monotonicStarts == s.monotonicStarts
  {
    EvictedShape(s, m);
    SameReceipt(s.receipts, m);
    hide Evicted, Unique;
    assert m.receiptId !in s.monotonicStarts;
  }

  // ---- order of starting ---------------------------------------------------------------------------

  /** Receipt i of the history started after receipt j: later by the clock, or at the same
      moment and opened after it. */
  predicate Later(rs: seq<Receipt>, i: nat, j: nat)
    requires i < |rs| && j < |rs|
  {
    rs[i].startedAt > rs[j].startedAt || (rs[i].startedAt == rs[j].startedAt && i > j)
  }

  lemma ByStartTotal()
    ensures TotalPreorder(ByStart())
  {
  }

  lemma {:induction false} InsertHead(s: seq<Receipt>, x: Receipt)
    requires s != [] && Ordered(ByStart(), s)
    ensures InsertStable(ByStart(), s, x)[0] == if s[0].startedAt <= x.startedAt then s[0] else x
  {
    if !ByStart()(s[|s| - 1], x) {
      var front := s[..|s| - 1];
      if front != [] {
        InsertHead(front, x);
      }
    }
  }

  lemma SortHead(ended: seq<Receipt>, last: Receipt)
    ensures var head := StableSort(ByStart(), ended + [last])[0];
            head == if ended == [] then last
                    else
                      var oldest := StableSort(ByStart(), ended)[0];
                      if oldest.startedAt <= last.startedAt then oldest else last
  {
    assert (ended + [last])[..|ended|] == ended;
    ByStartTotal();
    StableSortSorts(ByStart(), ended);
    if ended != [] {
      InsertHead(StableSort(ByStart(), ended), last);
    } else {
      assert StableSort(ByStart(), []) == [];
    }
  }

  lemma WithoutSnoc(rs: seq<Receipt>, r: Receipt, gone: set<string>)
    ensures Without(rs + [r], gone) == Without(rs, gone) + (if r.receiptId in gone then [] else [r])
  {
    assert (rs + [r])[..|rs|] == rs;
    assert Without(rs, gone) + [] == Without(rs, gone);
  }

  lemma EndedSnoc(rs: seq<Receipt>, r: Receipt)
    ensures EndedOnly(rs + [r]) == EndedOnly(rs) + (if Ended(r) then [r] else [])
  {
    assert (rs + [r])[..|rs|] == rs;
    assert EndedOnly(rs) + [] == EndedOnly(rs);
  }

  /** Of the ended receipts still kept, every other started after receipt p. */
  ghost predicate IsOldest(full: seq<Receipt>, gone: set<string>, p: nat) {
    && p < |full| && Ended(full[p]) && full[p].receiptId !in gone
    && forall i :: 0 <= i < |full| && i != p && Ended(full[i]) && full[i].receiptId !in gone ==> Later(full, i, p)
  }

  lemma StillOldest(front: seq<Receipt>, last: Receipt, gone: set<string>, p: nat)
    requires IsOldest(front, gone, p)
    requires last.receiptId in gone || !Ended(last) || front[p].startedAt <= last.startedAt
    ensures IsOldest(front + [last], gone, p) && (front + [last])[p] == front[p]
  {
  }

  lemma NewOldest(front: seq<Receipt>, last: Receipt, gone: set<string>, p: nat)
    requires Ended(last) && last.receiptId !in gone
    requires IsOldest(front, gone, p) && last.startedAt < front[p].startedAt
    ensures IsOldest(front + [last], gone, |front|)
  {
  }

  lemma FirstOldest(front: seq<Receipt>, last: Receipt, gone: set<string>)
    requires Ended(last) && last.receiptId !in gone
    requires forall i :: 0 <= i < |front| ==> !(Ended(front[i]) && front[i].receiptId !in gone)
    ensures IsOldest(front + [last], gone, |front|)
  {
  }

  /** What eviction takes first. */
  lemma {:induction false} OldestKept(full: seq<Receipt>, gone: set<string>) returns (p: nat)
    requires EndedOnly(Without(full, gone)) != []
    ensures IsOldest(full, gone, p)
    ensures full[p] == StableSort(ByStart(), EndedOnly(Without(full, gone)))[0]
  {
    assert full != [];
    hide StableSort, Without, EndedOnly, IsOldest;
    var front, last := full[..|full| - 1], full[|full| - 1];
    assert full == front + [last];
    var ended := EndedOnly(Without(front, gone));
    WithoutSnoc(front, last, gone);
    EndedSnoc(Without(front, gone), last);
    assert Without(front, gone) + [] == Without(front, gone) && ended + [] == ended;
    if last.receiptId in gone || !Ended(last) {
      p := OldestKept(front, gone);
      StillOldest(front, last, gone, p);
    } else {
      SortHead(ended, last);
      if ended == [] {
        NoneEndedKept(front, gone);
        FirstOldest(front, last, gone);
        p := |front|;
      } else {
        p := OldestKept(front, gone);
        if front[p].startedAt <= last.startedAt {
          StillOldest(front, last, gone, p);
        } else {
          NewOldest(front, last, gone, p);
          p := |front|;
        }
      }
    }
  }

  lemma NoneEndedKept(full: seq<Receipt>, gone: set<string>)
    requires EndedOnly(Without(full, gone)) == []
    ensures forall i :: 0 <= i < |full| ==> !(Ended(full[i]) && full[i].receiptId !in gone)
  {
    EndedMembers(Without(full, gone));
    WithoutMembers(full, gone);
    forall i | 0 <= i < |full| ensures !(Ended(full[i]) && full[i].receiptId !in gone) {
      assert full[i] in full;
    }
  }

  lemma {:induction false} EndedMembers(rs: seq<Receipt>)
    ensures forall r :: r in EndedOnly(rs) <==> r in rs && Ended(r)
  {
    if rs != [] {
      EndedMembers(rs[..|rs| - 1]);
      assert rs == rs[..|rs| - 1] + [rs[|rs| - 1]];
    }
  }

  // ---- how the two stores agree -----------------------------------------------------------------------

  ghost predicate KeptAreLatest(full: seq<Receipt>, gone: set<string>) {
    forall i, j ::
      (0 <= i < |full| && 0 <= j < |full| && Ended(full[i]) && full[i].receiptId !in gone && full[j].receiptId in gone)
      ==> Later(full, i, j)
  }

  ghost predicate GoneEnded(full: seq<Receipt>, gone: set<string>) {
    forall i :: 0 <= i < |full| && full[i].receiptId in gone ==> Ended(full[i])
  }

  /** The receipts half of the agreement, for a given set of evicted identifiers. */
  ghost predicate Retains(kept: seq<Receipt>, full: seq<Receipt>, gone: set<string>, bound: nat) {
    && Unique(full)
    && kept == Without(full, gone)
    && gone <= Ids(full)
    && GoneEnded(full, gone)
    && KeptAreLatest(full, gone)
    && |EndedOnly(kept)| <= bound
    && (gone != {} ==> |EndedOnly(kept)| == bound)
  }

  ghost predicate Agree(w: Twins, bound: nat) {
    && Sound(w.kept) && Sound(w.full)
    && Retains(w.kept.receipts, w.full.receipts, Gone(w), bound)
    && w.kept.monotonicStarts == w.full.monotonicStarts
    && w.kept.unknowns == w.full.unknowns
    && w.kept.failures == w.full.failures
  }

  lemma GoneIs(kept: seq<Receipt>, full: seq<Receipt>, gone: set<string>)
    requires kept == Without(full, gone) && gone <= Ids(full)
    ensures Ids(full) - Ids(kept) == gone
  {
    WithoutMembers(full, gone);
    IdsMembers(full);
    IdsMembers(kept);
  }

  lemma FindSnoc(rs: seq<Receipt>, r: Receipt, id: string)
    ensures Find(rs + [r], id)
            == if Find(rs, id) < |rs| then Find(rs, id) else if r.receiptId == id then |rs| else |rs| + 1
  {
    assert (rs + [r])[..|rs|] == rs;
  }

  lemma LastIsNew(front: seq<Receipt>, last: Receipt)
    requires Unique(front + [last])
    ensures Unique(front)
    ensures forall e :: e in front ==> e.receiptId != last.receiptId
  {
    var all := front + [last];
    assert forall i :: 0 <= i < |front| ==> all[i] == front[i];
    assert all[|front|] == last;
  }

  lemma AbsentNotFound(rs: seq<Receipt>, id: string)
    requires forall e :: e in rs ==> e.receiptId != id
    ensures Find(rs, id) == |rs|
  {
    if Find(rs, id) < |rs| {
      assert rs[Find(rs, id)] in rs;
    }
  }

  /** Closing a receipt commutes with eviction of others. */
  lemma {:induction false} WithoutUpdate(full: seq<Receipt>, gone: set<string>, k: nat, r: Receipt)
    requires Unique(full) && k < |full| && full[k].receiptId == r.receiptId && r.receiptId !in gone
    ensures var kept := Without(full, gone);
            var j := Find(kept, r.receiptId);
            && j < |kept| && kept[j] == full[k]
            && Without(full[k := r], gone) == kept[j := r]
  {
    hide Without, Unique, Find;
    var front, last := full[..|full| - 1], full[|full| - 1];
    assert full == front + [last];
    LastIsNew(front, last);
    var rest := Without(front, gone);
    WithoutSnoc(front, last, gone);
    FindSnoc(rest, last, r.receiptId);
    var tail := if last.receiptId in gone then [] else [last];
    if k < |front| {
      WithoutUpdate(front, gone, k, r);
      assert full[k := r] == front[k := r] + [last];
      WithoutSnoc(front[k := r], last, gone);
      var j := Find(rest, r.receiptId);
      assert Find(rest + tail, r.receiptId) == j by {
        assert rest + [] == rest;
      }
      assert (rest + tail)[j := r] == rest[j := r] + tail;
    } else {
      assert full[k := r] == front + [r];
      WithoutSnoc(front, r, gone);
      WithoutMembers(front, gone);
      AbsentNotFound(rest, r.receiptId);
      assert (rest + [last])[|rest| := r] == rest + [r];
    }
  }

  lemma {:induction false} EndedUpdate(kept: seq<Receipt>, j: nat, r: Receipt)
    requires j < |kept| && !Ended(kept[j]) && Ended(r)
    ensures |EndedOnly(kept[j := r])| == |EndedOnly(kept)| + 1
  {
    var front := kept[..|kept| - 1];
    if j < |front| {
      EndedUpdate(front, j, r);
      assert kept[j := r][..|front|] == front[j := r];
    } else {
      assert kept[j := r][..|front|] == front;
    }
  }

  lemma {:induction false} EndedRemove(kept: seq<Receipt>, m: Receipt)
    requires Unique(kept) && m in kept && Ended(m)
    ensures |EndedOnly(Without(kept, {m.receiptId}))| == |EndedOnly(kept)| - 1
  {
    var front, last := kept[..|kept| - 1], kept[|kept| - 1];
    var rest := Without(front, {m.receiptId});
    if last == m {
      assert forall e :: e in front ==> e.receiptId != m.receiptId;
      NobodyWithout(front, {m.receiptId});
    } else {
      assert kept == front + [last];
      EndedRemove(front, m);
      assert (rest + [last])[..|rest|] == rest;
    }
  }

  lemma {:induction false} NobodyWithout(rs: seq<Receipt>, gone: set<string>)
    requires forall r :: r in rs ==> r.receiptId !in gone
    ensures Without(rs, gone) == rs
  {
    if rs != [] {
      assert rs == rs[..|rs| - 1] + [rs[|rs| - 1]];
      NobodyWithout(rs[..|rs| - 1], gone);
    }
  }

  // ---- one step of both stores ---------------------------------------------------------------------

  lemma AppendRetains(kept: seq<Receipt>, full: seq<Receipt>, gone: set<string>, bound: nat, r: Receipt)
    requires Retains(kept, full, gone, bound) && !Ended(r)
    requires Unique(full + [r])
    ensures Retains(kept + [r], full + [r], gone, bound)
  {
    hide Without, Find, EndedOnly;
    var longer := full + [r];
    assert forall i :: 0 <= i < |full| ==> longer[i] == full[i];
    assert longer[|full|] == r;
    IdsSnoc(full, r);
    assert r.receiptId !in gone;
    WithoutSnoc(full, r, gone);
    EndedSnocOpen(kept, r);
    hide Unique, Ids;
    assert GoneEnded(longer, gone);
    assert KeptAreLatest(longer, gone);
  }

  lemma EndedSnocOpen(kept: seq<Receipt>, r: Receipt)
    requires !Ended(r)
    ensures EndedOnly(kept + [r]) == EndedOnly(kept)
  {
    assert (kept + [r])[..|kept|] == kept;
  }

  /** Both stores close the receipt, before retention is applied: one too many may be kept. */
  ghost predicate AlmostRetains(kept: seq<Receipt>, full: seq<Receipt>, gone: set<string>, q: nat, bound: nat) {
    && Unique(full) && q < |full| && full[q].receiptId !in gone
    && kept == Without(full, gone) && gone <= Ids(full) && GoneEnded(full, gone)
    && (forall i, j ::
          (0 <= i < |full| && 0 <= j < |full| && i != q && Ended(full[i])
           && full[i].receiptId !in gone && full[j].receiptId in gone)
          ==> Later(full, i, j))
    && |EndedOnly(kept)| <= bound + 1
    && (gone != {} ==> |EndedOnly(kept)| == bound + 1)
  }

  lemma UpdateAlmostRetains(kept: seq<Receipt>, full: seq<Receipt>, gone: set<string>, bound: nat, q: nat, r: Receipt)
    requires Retains(kept, full, gone, bound) && q < |full| && !Ended(full[q]) && Ended(r)
    requires r.receiptId == full[q].receiptId && r.grantId == full[q].grantId && r.startedAt == full[q].startedAt
    ensures var j := Find(kept, r.receiptId);
            && j < |kept| && kept[j] == full[q]
            && AlmostRetains(kept[j := r], full[q := r], gone, q, bound)
  {
    hide Find, Without, EndedOnly;
    WithoutUpdate(full, gone, q, r);
    EndedUpdate(kept, Find(kept, r.receiptId), r);
    SameIds(full, q, r);
    hide Ids, Unique;
    var longer := full[q := r];
    assert forall i :: 0 <= i < |full| ==> longer[i].receiptId == full[i].receiptId
                                           && longer[i].startedAt == full[i].startedAt;
    assert full[q].receiptId !in gone;
    assert GoneEnded(longer, gone);
  }

  lemma SameIds(full: seq<Receipt>, q: nat, r: Receipt)
    requires Unique(full) && q < |full| && r.receiptId == full[q].receiptId && r.grantId == full[q].grantId
    ensures Ids(full[q := r]) == Ids(full) && Unique(full[q := r])
  {
    assert forall i :: 0 <= i < |full| ==> full[q := r][i].receiptId == full[i].receiptId;
  }

  /** Within the bound nothing is evicted; one over it, exactly the oldest ended receipt is. */
  lemma VictimsOfOneOver(kept: seq<Receipt>, bound: nat)
    requires |EndedOnly(kept)| <= bound + 1
    ensures Victims(kept, bound)
            == if |EndedOnly(kept)| <= bound then [] else [StableSort(ByStart(), EndedOnly(kept))[0]]
  {
  }

  lemma EvictRetains(kept: seq<Receipt>, full: seq<Receipt>, gone: set<string>, q: nat, bound: nat)
    returns (victims: seq<Receipt>)
    requires AlmostRetains(kept, full, gone, q, bound)
    ensures victims == Victims(kept, bound) && (victims == [] || (|victims| == 1 && victims[0] in kept && Ended(victims[0])))
    ensures Retains(Without(kept, Ids(victims)), full, gone + Ids(victims), bound)
  {
    hide StableSort, EndedOnly, Without;
    VictimsOfOneOver(kept, bound);
    hide Victims;
    victims := Victims(kept, bound);
    if |EndedOnly(kept)| <= bound {
      assert Ids([]) == {};
      WithoutNone(kept);
      assert gone + {} == gone;
    } else {
      var p := OldestKept(full, gone);
      var m := full[p];
      OneId(m);
      WithoutMembers(full, gone);
      WithoutUnique(full, gone);
      EndedRemove(kept, m);
      WithoutTwice(full, gone, {m.receiptId});
      OldestGoes(full, gone, q, p);
    }
  }

  lemma OldestGoes(full: seq<Receipt>, gone: set<string>, q: nat, p: nat)
    requires Unique(full) && q < |full| && p < |full| && Ended(full[p]) && full[p].receiptId !in gone
    requires gone <= Ids(full) && GoneEnded(full, gone)
    requires forall i, j ::
               (0 <= i < |full| && 0 <= j < |full| && i != q && Ended(full[i])
                && full[i].receiptId !in gone && full[j].receiptId in gone)
               ==> Later(full, i, j)
    requires forall i :: 0 <= i < |full| && i != p && Ended(full[i]) && full[i].receiptId !in gone ==> Later(full, i, p)
    ensures var longer := gone + {full[p].receiptId};
            longer <= Ids(full) && GoneEnded(full, longer) && KeptAreLatest(full, longer)
  {
    var longer := gone + {full[p].receiptId};
    forall i, j |
      0 <= i < |full| && 0 <= j < |full| && Ended(full[i]) && full[i].receiptId !in longer && full[j].receiptId in longer
      ensures Later(full, i, j)
    {
      assert i != p;
      if j != p && i == q {
        assert Later(full, p, j) && Later(full, q, p);
      }
    }
  }

  lemma OpenTogether(w: Twins, bound: nat, r: Receipt, start: Option<Time>)
    requires Agree(w, bound) && !Ended(r)
    requires r.receiptId in Ids(w.full.receipts) ==> r.receiptId in Ids(w.kept.receipts)
    requires r.grantId in w.full.grantToReceipt ==> r.grantId in w.kept.grantToReceipt
    ensures var (kept, a) := Open(w.kept, r, start);
            var (full, b) := Open(w.full, r, start);
            && a == b && kept.monotonicStarts == full.monotonicStarts
            && kept.unknowns == full.unknowns && kept.failures == full.failures
            && kept.receipts == w.kept.receipts + (if a.Ok? then [r] else [])
            && full.receipts == w.full.receipts + (if a.Ok? then [r] else [])
  {
    hide Without, EndedOnly, Retains, WellFormed, Sound, Ids;
    KeptInFull(w, bound);
    IdsMembers(w.kept.receipts);
    IdsMembers(w.full.receipts);
    assert Find(w.kept.receipts, r.receiptId) < |w.kept.receipts| <==> Find(w.full.receipts, r.receiptId) < |w.full.receipts|;
    assert w.kept.receipts + [] == w.kept.receipts && w.full.receipts + [] == w.full.receipts;
  }

  lemma OpenAgree(w: Twins, bound: nat, r: Receipt, start: Option<Time>)
    requires Agree(w, bound) && !Ended(r)
    requires r.receiptId in Ids(w.full.receipts) ==> r.receiptId in Ids(w.kept.receipts)
    requires r.grantId in w.full.grantToReceipt ==> r.grantId in w.kept.grantToReceipt
    ensures Agree(Twins(Open(w.kept, r, start).0, Open(w.full, r, start).0), bound)
  {
    hide Open, Without, EndedOnly, Retains, Sound, Ids;
    OpenTogether(w, bound, r, start);
    OpenSound(w.kept, r, start);
    OpenSound(w.full, r, start);
    var (kept, result) := Open(w.kept, r, start);
    var full := Open(w.full, r, start).0;
    if result.Ok? {
      SoundUnique(full);
      AppendRetains(w.kept.receipts, w.full.receipts, Gone(w), bound, r);
      RetainsGone(kept.receipts, full.receipts, Gone(w), bound);
    } else {
      assert kept.receipts == w.kept.receipts && full.receipts == w.full.receipts;
    }
  }

  lemma SoundUnique(s: Store)
    requires Sound(s)
    ensures Unique(s.receipts)
  {
  }

  lemma RetainsGone(kept: seq<Receipt>, full: seq<Receipt>, gone: set<string>, bound: nat)
    requires Retains(kept, full, gone, bound)
    ensures Ids(full) - Ids(kept) == gone
  {
    GoneIs(kept, full, gone);
  }

  lemma KeptInFull(w: Twins, bound: nat)
    requires Agree(w, bound)
    ensures Ids(w.kept.receipts) <= Ids(w.full.receipts)
    ensures w.kept.grantToReceipt.Keys <= w.full.grantToReceipt.Keys
  {
    WithoutMembers(w.full.receipts, Gone(w));
    IdsMembers(w.kept.receipts);
    IdsMembers(w.full.receipts);
  }

  lemma CloseAgree(w: Twins, bound: nat, id: string, status: ExecutionStatus, outcome: Outcome)
    requires Agree(w, bound) && status != STARTED
    ensures Agree(Twins(Bounded(Close(w.kept, id, status, outcome), bound).0, Close(w.full, id, status, outcome).0), bound)
    ensures Close(w.kept, id, status, outcome).1.Ok? <==> Close(w.full, id, status, outcome).1.Ok?
  {
    hide Sound, Without, EndedOnly, Retains, Victims, WellFormed, Evicted;
    CloseSound(w.kept, id, status, outcome);
    CloseSound(w.full, id, status, outcome);
    var gone := Gone(w);
    var kept, full := Close(w.kept, id, status, outcome).0, Close(w.full, id, status, outcome).0;
    CloseTogether(w, bound, id, status, outcome);
    if Close(w.kept, id, status, outcome).1.Ok? {
      var q := Find(w.full.receipts, id);
      var victims := EvictRetains(kept.receipts, full.receipts, gone, q, bound);
      var pruned := Prune(kept, bound);
      assert pruned == Evicted(kept, victims);
      if victims == [] {
        EvictedNone(kept);
        assert Ids([]) == {};
        WithoutNone(kept.receipts);
        assert gone + {} == gone;
      } else {
        assert victims == [victims[0]];
        EvictSound(kept, victims[0]);
      }
      EvictedReceipts(kept, victims);
      RetainsGone(pruned.receipts, full.receipts, gone + Ids(victims), bound);
    }
  }

  lemma EvictedReceipts(s: Store, victims: seq<Receipt>)
    ensures Evicted(s, victims).receipts == Without(s.receipts, Ids(victims))
    ensures Evicted(s, victims).unknowns == s.unknowns && Evicted(s, victims).failures == s.failures
  {
  }

  lemma CloseTogether(w: Twins, bound: nat, id: string, status: ExecutionStatus, outcome: Outcome)
    requires Agree(w, bound) && status != STARTED
    ensures var (kept, a) := Close(w.kept, id, status, outcome);
            var (full, b) := Close(w.full, id, status, outcome);
            && (a.Ok? <==> b.Ok?) && (a.Err? ==> kept == w.kept && full == w.full)
            && (a.Ok? ==>
                  && AlmostRetains(kept.receipts, full.receipts, Gone(w), Find(w.full.receipts, id), bound)
                  && kept.monotonicStarts == full.monotonicStarts
                  && kept.unknowns == full.unknowns && kept.failures == full.failures)
  {
    hide Close, Sound, Without, EndedOnly, AlmostRetains;
    CloseShape(w.kept, id, status, outcome);
    CloseShape(w.full, id, status, outcome);
    CloseAnswers(w, bound, id, status, outcome);
    var q := Find(w.full.receipts, id);
    var (full, b) := Close(w.full, id, status, outcome);
    if b.Ok? {
      UpdateAlmostRetains(w.kept.receipts, w.full.receipts, Gone(w), bound, q, b.value);
    }
  }

  /** A receipt can be closed in the bounded store exactly when it can in the history. */
  lemma CloseAnswers(w: Twins, bound: nat, id: string, status: ExecutionStatus, outcome: Outcome)
    requires Agree(w, bound)
    ensures Close(w.kept, id, status, outcome).1.Ok? <==> Close(w.full, id, status, outcome).1.Ok?
  {
    hide Sound, Without, EndedOnly, KeptAreLatest, WellFormed;
    var q := Find(w.full.receipts, id);
    WithoutMembers(w.full.receipts, Gone(w));
    if q < |w.full.receipts| {
      var e := w.full.receipts[q];
      assert e in w.full.receipts;
      if id in Gone(w) {
        assert Ended(e);
        assert forall r :: r in w.kept.receipts ==> r.receiptId != id;
      } else {
        WithoutUpdate(w.full.receipts, Gone(w), q, e);
      }
    } else {
      assert forall r :: r in w.kept.receipts ==> r.receiptId != id;
    }
  }

  lemma StepAgree(w: Twins, bound: nat, step: Step)
    requires Agree(w, bound) && Fresh(w, step)
    ensures Agree(NextTwins(w, bound, step), bound)
  {
    hide Agree, Open, Close, Bounded;
    match step
    case OpenStep(r, start) => OpenAgree(w, bound, r.(status := STARTED, outcome := Pending), start);
    case EndStep(id, status, outcome) =>
      if ExecutorStatus(status) {
        CloseAgree(w, bound, id, status, outcome);
      }
    case ReconcileStep(id, at, reason) => CloseAgree(w, bound, id, UNKNOWN, Reconciled(at, reason));
  }

  lemma StartAgree(bound: nat)
    ensures Agree(Twins(EMPTY_EVIDENCE, EMPTY_EVIDENCE), bound)
  {
    assert Ids([]) == {};
  }

  lemma {:induction false} RunAgree(bound: nat, steps: seq<Step>)
    requires FreshRun(bound, steps)
    ensures Agree(Run(bound, steps), bound)
  {
    hide Agree, Fresh, NextTwins;
    if steps == [] {
      StartAgree(bound);
    } else {
      RunAgree(bound, steps[..|steps| - 1]);
      StepAgree(Run(bound, steps[..|steps| - 1]), bound, steps[|steps| - 1]);
    }
  }

  // ---- what a run leaves behind -------------------------------------------------------------------

  lemma {:induction false} OpenPlusEnded(rs: seq<Receipt>)
    ensures |rs| == |OpenOnly(rs)| + |EndedOnly(rs)|
  {
    if rs != [] {
      OpenPlusEnded(rs[..|rs| - 1]);
    }
  }

  lemma {:induction false} WithoutSize(rs: seq<Receipt>, gone: set<string>)
    requires Unique(rs) && gone <= Ids(rs)
    ensures |rs| == |Without(rs, gone)| + |gone|
  {
    if rs == [] {
      assert gone == {};
    } else {
      hide Without, Ids, Unique;
      var front, last := rs[..|rs| - 1], rs[|rs| - 1];
      assert rs == front + [last];
      IdsSnoc(front, last);
      LastIsNew(front, last);
      WithoutSnoc(front, last, gone);
      WithoutElsewhere(front, gone, last.receiptId);
      var earlier := gone - {last.receiptId};
      WithoutSize(front, earlier);
      if last.receiptId in gone {
        assert gone == earlier + {last.receiptId};
      } else {
        assert gone == earlier;
      }
    }
  }

  lemma {:induction false} WithoutElsewhere(rs: seq<Receipt>, gone: set<string>, id: string)
    requires forall r :: r in rs ==> r.receiptId != id
    ensures Without(rs, gone - {id}) == Without(rs, gone)
  {
    if rs != [] {
      assert rs == rs[..|rs| - 1] + [rs[|rs| - 1]];
      WithoutElsewhere(rs[..|rs| - 1], gone, id);
    }
  }

  lemma {:induction false} OpenKept(full: seq<Receipt>, gone: set<string>)
    requires GoneEnded(full, gone)
    ensures OpenOnly(Without(full, gone)) == OpenOnly(full)
  {
    if full != [] {
      var front, last := full[..|full| - 1], full[|full| - 1];
      assert forall i :: 0 <= i < |front| ==> front[i] == full[i];
      OpenKept(front, gone);
      var rest := Without(front, gone);
      assert (rest + [last])[..|rest|] == rest;
    }
  }

  /** Bounded retention keeps its accounts. After any run every open receipt is still stored,
      the evicted ones are all ended, the grant index is the exact inverse of the stored
      receipts, monotonic starts exist for open receipts only, and what was opened is what is
      open, retained or evicted. */
  lemma RetentionConserves(bound: nat, steps: seq<Step>)
    requires FreshRun(bound, steps)
    ensures var w := Run(bound, steps);
            && OpenOnly(w.kept.receipts) == OpenOnly(w.full.receipts)
            && (forall r :: r in w.full.receipts && r.receiptId in Gone(w) ==> Ended(r))
            && GrantIndexExact(w.kept) && StartsOpen(w.kept)
            && |w.full.receipts| == |OpenOnly(w.kept.receipts)| + |EndedOnly(w.kept.receipts)| + |Gone(w)|
            && |EndedOnly(w.kept.receipts)| <= bound
            && (Gone(w) != {} ==> |EndedOnly(w.kept.receipts)| == bound)
  {
    hide Run, FreshRun, Without, EndedOnly, OpenOnly, KeptAreLatest;
    RunAgree(bound, steps);
    var w := Run(bound, steps);
    OpenKept(w.full.receipts, Gone(w));
    OpenPlusEnded(w.kept.receipts);
    WithoutSize(w.full.receipts, Gone(w));
  }

  /** How many ended receipts of the history started after receipt i. */
  function Outranking(full: seq<Receipt>, i: nat): set<nat>
    requires i < |full|
  {
    set j | 0 <= j < |full| && Ended(full[j]) && Later(full, j, i)
  }

  function KeptEnded(full: seq<Receipt>, gone: set<string>): set<nat> {
    set j | 0 <= j < |full| && Ended(full[j]) && full[j].receiptId !in gone
  }

  lemma {:induction false} KeptEndedSize(full: seq<Receipt>, gone: set<string>)
    ensures |KeptEnded(full, gone)| == |EndedOnly(Without(full, gone))|
  {
    if full == [] {
      assert KeptEnded(full, gone) == {};
    } else {
      var front, last := full[..|full| - 1], full[|full| - 1];
      KeptEndedSize(front, gone);
      var rest := Without(front, gone);
      assert (rest + [last])[..|rest|] == rest;
      assert forall i :: 0 <= i < |front| ==> front[i] == full[i];
      if Ended(last) && last.receiptId !in gone {
        assert KeptEnded(full, gone) == KeptEnded(front, gone) + {|front|};
      } else {
        assert KeptEnded(full, gone) == KeptEnded(front, gone);
      }
    }
  }

  lemma KeptIffOutrankedByFew(full: seq<Receipt>, gone: set<string>, bound: nat, i: nat)
    requires KeptAreLatest(full, gone) && GoneEnded(full, gone) && i < |full| && Ended(full[i])
    requires |KeptEnded(full, gone)| <= bound && (gone != {} ==> |KeptEnded(full, gone)| == bound)
    ensures full[i].receiptId !in gone <==> |Outranking(full, i)| < bound
  {
    var kept, above := KeptEnded(full, gone), Outranking(full, i);
    if full[i].receiptId !in gone {
      forall j | j in above ensures j in kept {
        assert !Later(full, i, j);
      }
      assert i in kept && i !in above;
      SubsetSize(above + {i}, kept);
    } else {
      assert forall j :: j in kept ==> Later(full, j, i);
      SubsetSize(kept, above);
    }
  }

  lemma StoredIffNotGone(w: Twins, bound: nat, i: nat)
    requires Agree(w, bound) && i < |w.full.receipts|
    ensures w.full.receipts[i] in w.kept.receipts <==> w.full.receipts[i].receiptId !in Gone(w)
    ensures |KeptEnded(w.full.receipts, Gone(w))| == |EndedOnly(w.kept.receipts)|
    ensures KeptAreLatest(w.full.receipts, Gone(w)) && GoneEnded(w.full.receipts, Gone(w))
    ensures |EndedOnly(w.kept.receipts)| <= bound && (Gone(w) != {} ==> |EndedOnly(w.kept.receipts)| == bound)
  {
    hide Without, EndedOnly, Sound, KeptEnded;
    WithoutMembers(w.full.receipts, Gone(w));
    KeptEndedSize(w.full.receipts, Gone(w));
  }

  /** Bounded retention is streaming top-k. A receipt that ever ended is still stored exactly
      when fewer than `bound` ended receipts of the whole history started after it. */
  lemma RetainedIffAmongLatest(bound: nat, steps: seq<Step>, i: nat)
    requires FreshRun(bound, steps)
    requires i < |Run(bound, steps).full.receipts| && Ended(Run(bound, steps).full.receipts[i])
    ensures var w := Run(bound, steps);
            w.full.receipts[i] in w.kept.receipts <==> |Outranking(w.full.receipts, i)| < bound
  {
    hide Run, FreshRun, Agree, KeptAreLatest, GoneEnded, KeptEnded, Outranking, Gone;
    RunAgree(bound, steps);
    var w := Run(bound, steps);
    StoredIffNotGone(w, bound, i);
    KeptIffOutrankedByFew(w.full.receipts, Gone(w), bound, i);
  }

  /** What the history records is final: identities never change, an ended receipt never
      changes, and UNKNOWN is reached only by reconciliation of that receipt. */
  ghost predicate Extends(a: seq<Receipt>, b: seq<Receipt>) {
    && |a| <= |b|
    && forall i :: 0 <= i < |a| ==>
         && b[i].receiptId == a[i].receiptId && b[i].grantId == a[i].grantId
         && b[i].provenance == a[i].provenance && b[i].startedAt == a[i].startedAt
         && b[i].declaredTimeout == a[i].declaredTimeout
         && (Ended(a[i]) ==> b[i] == a[i])
  }

  lemma StepExtends(s: Store, step: Step)
    ensures Extends(s.receipts, NextUnbounded(s, step).receipts)
    ensures forall i :: 0 <= i < |s.receipts| && !Ended(s.receipts[i]) && NextUnbounded(s, step).receipts[i].status == UNKNOWN
                        ==> step.ReconcileStep? && step.id == s.receipts[i].receiptId
  {
    hide Close, WellFormed;
    match step
    case OpenStep(_, _) =>
    case EndStep(id, status, outcome) => CloseShape(s, id, status, outcome);
    case ReconcileStep(id, at, reason) => CloseShape(s, id, UNKNOWN, Reconciled(at, reason));
  }

  lemma {:induction false} HistoryIsFinal(bound: nat, steps: seq<Step>, more: seq<Step>)
    ensures Extends(Run(bound, steps).full.receipts, Run(bound, steps + more).full.receipts)
  {
    hide NextUnbounded, Next;
    if more == [] {
      assert steps + more == steps;
    } else {
      HistoryIsFinal(bound, steps, more[..|more| - 1]);
      assert (steps + more)[..|steps + more| - 1] == steps + more[..|more| - 1];
      StepExtends(Run(bound, steps + more[..|more| - 1]).full, more[|more| - 1]);
    }
  }

  function UnknownCount(rs: seq<Receipt>): nat {
    if rs == [] then 0 else UnknownCount(rs[..|rs| - 1]) + (if rs[|rs| - 1].status == UNKNOWN then 1 else 0)
  }

  lemma {:induction false} UnknownUpdate(rs: seq<Receipt>, k: nat, r: Receipt)
    requires k < |rs| && rs[k].status != UNKNOWN
    ensures UnknownCount(rs[k := r]) == UnknownCount(rs) + (if r.status == UNKNOWN then 1 else 0)
  {
    var front := rs[..|rs| - 1];
    if k < |front| {
      assert rs[k := r][..|front|] == front[k := r];
      UnknownUpdate(front, k, r);
    } else {
      assert rs[k := r][..|front|] == front;
    }
  }

  lemma CloseCountsUnknown(s: Store, id: string, status: ExecutionStatus, outcome: Outcome)
    requires s.unknowns == UnknownCount(s.receipts)
    ensures var t := Close(s, id, status, outcome).0; t.unknowns == UnknownCount(t.receipts)
  {
    hide Close, UnknownCount;
    CloseShape(s, id, status, outcome);
    var (t, r) := Close(s, id, status, outcome);
    if r.Ok? {
      UnknownUpdate(s.receipts, Find(s.receipts, id), r.value);
    }
  }

  /** `reconciled_unknown_count` counts every receipt that ever became UNKNOWN, evicted or not. */
  lemma {:induction false} UnknownsCounted(bound: nat, steps: seq<Step>)
    requires FreshRun(bound, steps)
    ensures Run(bound, steps).kept.unknowns == UnknownCount(Run(bound, steps).full.receipts)
  {
    hide Agree, Close, Open, Fresh;
    RunAgree(bound, steps);
    assert Run(bound, steps).kept.unknowns == Run(bound, steps).full.unknowns by { AgreeOnUnknowns(Run(bound, steps), bound); }
    if steps != [] {
      var front, step := steps[..|steps| - 1], steps[|steps| - 1];
      UnknownsCounted(bound, front);
      RunAgree(bound, front);
      AgreeOnUnknowns(Run(bound, front), bound);
      var s := Run(bound, front).full;
      match step
      case OpenStep(r, start) => OpenCountsUnknown(s, r.(status := STARTED, outcome := Pending), start);
      case EndStep(id, status, outcome) => CloseCountsUnknown(s, id, status, outcome);
      case ReconcileStep(id, at, reason) => CloseCountsUnknown(s, id, UNKNOWN, Reconciled(at, reason));
    }
  }

  lemma AgreeOnUnknowns(w: Twins, bound: nat)
    requires Agree(w, bound)
    ensures w.kept.unknowns == w.full.unknowns
  {
  }

  lemma OpenCountsUnknown(s: Store, r: Receipt, start: Option<Time>)
    requires s.unknowns == UnknownCount(s.receipts) && r.status != UNKNOWN
    ensures var t := Open(s, r, start).0; t.unknowns == UnknownCount(t.receipts)
  {
    assert (s.receipts + [r])[..|s.receipts|] == s.receipts;
  }

  // ---- what the store admits ----------------------------------------------------------------------------

  /** Everything a receipt must name, and its limit. */
  predicate Complete(r: Receipt) {
    && r.receiptId != "" && r.declaredTimeout > 0
    && "" !in {r.provenance.sessionId, r.provenance.agentId, r.provenance.requestId, r.provenance.toolId, r.provenance.toolVersion,
               r.provenance.implementationId, r.provenance.capabilityProfileId, r.provenance.capabilityDigest}
    && (r.outcome.Observed? ==> r.outcome.duration >= 0)
  }

  /** Opening a receipt. One whose id or whose grant is stored already is refused, and counted; an
      incomplete one is refused; any other is stored last, indexed by its grant, with its start. */
  lemma OpeningAdmits(s: Store, r: Receipt, start: Option<Time>)
    requires Sound(s)
    ensures var (t, result) := Open(s, r, start);
            var known, spent := (exists e :: e in s.receipts && e.receiptId == r.receiptId), (exists e :: e in s.receipts && e.grantId == r.grantId);
            && result == (if known then Err(DuplicateReceipt) else if spent then Err(DuplicateGrant)
                          else if !Complete(r) then Err(InvalidReceipt) else Ok(r))
            && t == (if known || spent then s.(failures := s.failures + 1)
                     else if !Complete(r) then s
                     else s.(receipts := s.receipts + [r], grantToReceipt := s.grantToReceipt[r.grantId := r.receiptId],
                             monotonicStarts := if start.Some? then s.monotonicStarts[r.receiptId := start.value] else s.monotonicStarts))
  {
    var k := Find(s.receipts, r.receiptId);
    if k < |s.receipts| {
      assert s.receipts[k] in s.receipts;
    }
    assert r.grantId in s.grantToReceipt <==> exists e :: e in s.receipts && e.grantId == r.grantId;
  }

  /** Ending a receipt. Only one of the four outcomes an executor can report is taken, only of a stored
      receipt that is still STARTED, and only if it is well formed; the receipt then bears it. Anything
      else is refused for its own reason and changes nothing. */
  lemma EndingAdmits(s: Store, bound: nat, id: string, status: ExecutionStatus, outcome: Outcome)
    requires Sound(s) && forall e :: e in s.receipts ==> WellFormed(e)
    ensures var (t, result) := RecordTerminal(s, bound, id, status, outcome);
            var reportable := status in {SUCCEEDED, FAILED, TIMEOUT, INTERRUPTED};
            && (result == Err(IllegalStatus) <==> !reportable)
            && (result == Err(ReceiptNotFound) <==> reportable && forall e :: e in s.receipts ==> e.receiptId != id)
            && (result == Err(AlreadyTerminal) <==> reportable && exists e :: e in s.receipts && e.receiptId == id && e.status != STARTED)
            && (result == Err(InvalidReceipt) <==>
                  && reportable && (exists e :: e in s.receipts && e.receiptId == id && e.status == STARTED)
                  && outcome.Observed? && outcome.duration < 0)
            && (result.Err? ==> t == s && result.error in {IllegalStatus, ReceiptNotFound, AlreadyTerminal, InvalidReceipt})
            && (result.Ok? ==> exists e :: e in s.receipts && e.receiptId == id && e.status == STARTED
                                           && result.value == e.(status := status, outcome := outcome))
  {
    hide ExecutionEvidence.Prune;
    var k := Find(s.receipts, id);
    if k < |s.receipts| {
      assert s.receipts[k] in s.receipts && WellFormed(s.receipts[k]);
      forall e | e in s.receipts && e.receiptId == id ensures e == s.receipts[k] {
        OnlyOne(s.receipts, e, k);
      }
    }
  }

  lemma OnlyOne(rs: seq<Receipt>, e: Receipt, k: nat)
    requires Unique(rs) && e in rs && k < |rs| && e.receiptId == rs[k].receiptId
    ensures e == rs[k]
  {
    var i :| 0 <= i < |rs| && rs[i] == e;
  }
}
