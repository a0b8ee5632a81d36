/** Vocabulary shared by every component: optional values, results that stand for the
    program's exceptions, time, string order and Python's stable `sorted`. */
module Prelude {

  datatype Option<+T> = None | Some(value: T)

  datatype Result<+T, +E> = Ok(value: T) | Err(error: E)

  /** A moment or a length of time, counted in microseconds. */
  type Time = int

  const SECOND: Time := 1_000_000

  /** app/models/audit_event.py: what the pipeline concluded about a request. */
  datatype Decision = ALLOW | DENY | APPROVAL_REQUIRED

  function Max(a: int, b: int): int {
    if a < b then b else a
  }

  /** `mapping.get(key, 0)` for the per-agent counters. */
  function Counter<K>(m: map<K, nat>, key: K): nat {
    if key in m then m[key] else 0
  }

  /** Lexicographic order on strings, by character. */
  predicate LexLE(a: string, b: string) {
    a == [] || (b != [] && (a[0] < b[0] || (a[0] == b[0] && LexLE(a[1..], b[1..]))))
  }

  lemma LexTotal(a: string, b: string)
    ensures LexLE(a, b) || LexLE(b, a)
    ensures LexLE(a, b) && LexLE(b, a) ==> a == b
  {
    if a != [] && b != [] && a[0] == b[0] {
      LexTotal(a[1..], b[1..]);
      assert a == [a[0]] + a[1..] && b == [b[0]] + b[1..];
    }
  }

  lemma LexTransitive(a: string, b: string, c: string)
    requires LexLE(a, b) && LexLE(b, c)
    ensures LexLE(a, c)
  {
    if a != [] && a[0] == b[0] == c[0] {
      LexTransitive(a[1..], b[1..], c[1..]);
    }
  }

  ghost predicate TotalPreorder<T(!new)>(le: (T, T) -> bool) {
    && (forall x, y :: le(x, y) || le(y, x))
    && (forall x, y, z :: le(x, y) && le(y, z) ==> le(x, z))
  }

  predicate Ordered<T>(le: (T, T) -> bool, s: seq<T>) {
    forall i, j :: 0 <= i < j < |s| ==> le(s[i], s[j])
  }

  /** Put `x` behind every trailing element that does not exceed it. */
  function InsertStable<T>(le: (T, T) -> bool, s: seq<T>, x: T): (r: seq<T>)
    ensures |r| == |s| + 1
  {
    if s == [] || le(s[|s| - 1], x) then s + [x]
    else InsertStable(le, s[..|s| - 1], x) + [s[|s| - 1]]
  }

  /** Python's `sorted`: stable, and the identity on a list already in order. */
  function StableSort<T>(le: (T, T) -> bool, s: seq<T>): (r: seq<T>)
    ensures |r| == |s|
  {
    if s == [] then []
    else InsertStable(le, StableSort(le, s[..|s| - 1]), s[|s| - 1])
  }

  lemma InsertStableOrdered<T(!new)>(le: (T, T) -> bool, s: seq<T>, x: T)
    requires TotalPreorder(le) && Ordered(le, s)
    ensures multiset(InsertStable(le, s, x)) == multiset(s) + multiset{x}
    ensures Ordered(le, InsertStable(le, s, x))
  {
    if s == [] || le(s[|s| - 1], x) {
    } else {
      var front, last := s[..|s| - 1], s[|s| - 1];
      assert s == front + [last];
      InsertStableOrdered(le, front, x);
      var r := InsertStable(le, front, x);
      forall e | e in r ensures le(e, last) {
        assert e in multiset(r);
        assert e in front || e == x;
      }
    }
  }

  lemma StableSortSorts<T(!new)>(le: (T, T) -> bool, s: seq<T>)
    requires TotalPreorder(le)
    ensures multiset(StableSort(le, s)) == multiset(s)
    ensures Ordered(le, StableSort(le, s))
  {
    if s != [] {
      StableSortSorts(le, s[..|s| - 1]);
      InsertStableOrdered(le, StableSort(le, s[..|s| - 1]), s[|s| - 1]);
      assert s == s[..|s| - 1] + [s[|s| - 1]];
    }
  }

  lemma StableSortIdentity<T>(le: (T, T) -> bool, s: seq<T>)
    requires Ordered(le, s)
    ensures StableSort(le, s) == s
  {
    if s != [] {
      StableSortIdentity(le, s[..|s| - 1]);
    }
  }

  /** Under an antisymmetric order a sorted list is determined by its contents. */
  lemma OrderedHead<T(!new)>(le: (T, T) -> bool, a: seq<T>, x: T)
    requires Ordered(le, a) && TotalPreorder(le) && x in multiset(a)
    ensures le(a[0], x)
  {
    assert x in a;
  }

  lemma OrderedTail<T(!new)>(le: (T, T) -> bool, a: seq<T>)
    requires Ordered(le, a) && a != []
    ensures Ordered(le, a[1..])
    ensures multiset(a[1..]) == multiset(a) - multiset{a[0]} && a == [a[0]] + a[1..]
  {
    assert a == [a[0]] + a[1..];
    assert multiset(a) == multiset{a[0]} + multiset(a[1..]);
  }

  lemma OrderedUnique<T(!new)>(le: (T, T) -> bool, a: seq<T>, b: seq<T>)
    requires TotalPreorder(le)
    requires forall x, y :: le(x, y) && le(y, x) ==> x == y
    requires Ordered(le, a) && Ordered(le, b)
    requires multiset(a) == multiset(b)
    ensures a == b
  {
    hide Ordered, TotalPreorder;
    assert |a| == |multiset(a)| == |multiset(b)| == |b|;
    if a != [] {
      assert a[0] in multiset(b) && b[0] in multiset(a);
      OrderedHead(le, a, b[0]);
      OrderedHead(le, b, a[0]);
      OrderedTail(le, a);
      OrderedTail(le, b);
      OrderedUnique(le, a[1..], b[1..]);
    }
  }

  lemma RepeatedTwice<T>(s: seq<T>, i: nat, j: nat)
    requires i < j < |s| && s[i] == s[j]
    ensures multiset(s)[s[i]] >= 2
  {
    assert s == s[..j] + [s[j]] + s[j + 1..];
    assert s[i] in s[..j];
  }

  lemma SubsetSize<T>(a: set<T>, b: set<T>)
    requires a <= b
    ensures |a| <= |b|
    ensures |a| == |b| ==> a == b
  {
    assert b == a + (b - a);
    assert |b| == |a| + |b - a|;
  }
}
