/** app/models/execution_binding.py: the canonical description of one tool operation. */
module Binding {
  import opened Prelude

  /** A parameter name or value: a string, or anything else Python could hold there. */
  datatype Datum = Text(text: string) | NotText

  /** What a caller passes as parameters. A mapping is its items in iteration order. */
  datatype Parameters = Absent | NotMapping | Mapping(items: seq<(Datum, Datum)>)

  type Pair = (string, string)

  datatype ExecutionBinding = ExecutionBinding(
    toolId: string,
    toolVersion: string,
    resource: Option<string>,
    parameters: seq<Pair>)

  datatype BindingError =
    | ParametersNotMapping
    | BadParameterName
    | BadParameterValue
    | ResourceContradiction
    | Inexpressible

  const RESOURCE_PARAMETER: string := "path"

  predicate PairLE(a: Pair, b: Pair) {
    a == b || (a.0 != b.0 && LexLE(a.0, b.0)) || (a.0 == b.0 && LexLE(a.1, b.1))
  }

  function PairOrder(): (Pair, Pair) -> bool {
    (a, b) => PairLE(a, b)
  }

  lemma PairOrderTotal()
    ensures TotalPreorder(PairOrder())
    ensures forall a, b :: PairOrder()(a, b) && PairOrder()(b, a) ==> a == b
  {
    forall a: Pair, b: Pair
      ensures PairLE(a, b) || PairLE(b, a)
      ensures PairLE(a, b) && PairLE(b, a) ==> a == b
    {
      LexTotal(a.0, b.0);
      LexTotal(a.1, b.1);
    }
    forall a: Pair, b: Pair, c: Pair | PairLE(a, b) && PairLE(b, c) ensures PairLE(a, c) {
      LexTotal(a.0, b.0);
      LexTotal(b.0, c.0);
      if LexLE(a.0, b.0) && LexLE(b.0, c.0) { LexTransitive(a.0, b.0, c.0); }
      if LexLE(a.1, b.1) && LexLE(b.1, c.1) { LexTransitive(a.1, b.1, c.1); }
    }
  }

  // ---- canonicalisation ------------------------------------------------------------------

  predicate GoodName(d: Datum) {
    d.Text? && d.text != ""
  }

  /** The first objection to an item, in the order the code raises it. */
  function ItemError(item: (Datum, Datum)): Option<BindingError> {
    if !GoodName(item.0) then Some(BadParameterName)
    else if !item.1.Text? then Some(BadParameterValue)
    else None
  }

  /** The pairs collected from the items, or the first objection met. */
  function Collect(items: seq<(Datum, Datum)>): (r: Result<seq<Pair>, BindingError>)
    ensures r.Ok? ==> |r.value| == |items|
                      && forall i :: 0 <= i < |items| ==> items[i] == (Text(r.value[i].0), Text(r.value[i].1))
    ensures r.Ok? <==> forall i :: 0 <= i < |items| ==> ItemError(items[i]) == None
  {
    if items == [] then Ok([])
    else
      var rest := Collect(items[..|items| - 1]);
      var item := items[|items| - 1];
      if rest.Err? then rest
      else if ItemError(item).Some? then Err(ItemError(item).value)
      else Ok(rest.value + [(item.0.text, item.1.text)])
  }

  /** `canonicalize_parameters` */
  function Canonicalize(p: Parameters): Result<seq<Pair>, BindingError> {
    match p
    case Absent => Ok([])
    case NotMapping => Err(ParametersNotMapping)
    case Mapping(items) =>
      var pairs := Collect(items);
      if pairs.Err? then pairs else Ok(StableSort(PairOrder(), pairs.value))
  }

  method CanonicalizeParameters(p: Parameters) returns (r: Result<seq<Pair>, BindingError>)
    ensures r == Canonicalize(p)
  {
    if p.Absent? {
      return Ok([]);
    }
    if p.NotMapping? {
      return Err(ParametersNotMapping);
    }
    var pairs: seq<Pair> := [];
    for i := 0 to |p.items|
      invariant Collect(p.items[..i]) == Ok(pairs)
    {
      assert p.items[..i + 1][..i] == p.items[..i];
      var item := p.items[i];
      if !GoodName(item.0) {
        CollectStopsAt(p.items, i);
        return Err(BadParameterName);
      }
      if !item.1.Text? {
        CollectStopsAt(p.items, i);
        return Err(BadParameterValue);
      }
      pairs := pairs + [(item.0.text, item.1.text)];
    }
    assert p.items[..|p.items|] == p.items;
    r := Ok(StableSort(PairOrder(), pairs));
  }

  lemma CollectStopsAt(items: seq<(Datum, Datum)>, i: nat)
    requires i < |items| && Collect(items[..i]).Ok? && ItemError(items[i]).Some?
    ensures Collect(items) == Err(ItemError(items[i]).value)
  {
    var front := items[..|items| - 1];
    if i == |items| - 1 {
      assert front == items[..i];
    } else {
      assert front[..i] == items[..i];
      CollectStopsAt(front, i);
    }
  }

  ghost predicate DistinctNames(items: seq<(Datum, Datum)>) {
    forall i, j :: 0 <= i < j < |items| ==> items[i].0 != items[j].0
  }

  /** Two acceptable mappings canonicalise alike exactly when they hold the same entries,
      whatever order they list them in. */
  lemma SameCanonicalIffSameEntries(a: seq<(Datum, Datum)>, b: seq<(Datum, Datum)>)
    requires Canonicalize(Mapping(a)).Ok? && Canonicalize(Mapping(b)).Ok?
    ensures Canonicalize(Mapping(a)) == Canonicalize(Mapping(b)) <==> multiset(a) == multiset(b)
  {
    var p, q := Collect(a).value, Collect(b).value;
    PairOrderTotal();
    StableSortSorts(PairOrder(), p);
    StableSortSorts(PairOrder(), q);
    CollectEntries(a);
    CollectEntries(b);
    if multiset(p) == multiset(q) {
      OrderedUnique(PairOrder(), StableSort(PairOrder(), p), StableSort(PairOrder(), q));
      forall x: (Datum, Datum) ensures multiset(a)[x] == multiset(b)[x] {
        EntryCount(a, x);
        EntryCount(b, x);
      }
    }
    if multiset(a) == multiset(b) {
      forall x: Pair ensures multiset(p)[x] == multiset(q)[x] {
        assert multiset(p)[x] == multiset(a)[(Text(x.0), Text(x.1))];
      }
    }
  }

  lemma SnocCount<T>(front: seq<T>, last: T, x: T)
    ensures multiset(front + [last])[x] == multiset(front)[x] + (if x == last then 1 else 0)
  {
  }

  lemma {:induction false} CollectEntries(items: seq<(Datum, Datum)>)
    requires Collect(items).Ok?
    ensures forall x: Pair :: multiset(Collect(items).value)[x] == multiset(items)[(Text(x.0), Text(x.1))]
  {
    if items != [] {
      var front, last := items[..|items| - 1], items[|items| - 1];
      CollectEntries(front);
      var rest, pairs, pair := Collect(front).value, Collect(items).value, (last.0.text, last.1.text);
      assert pairs == rest + [pair] && items == front + [last];
      hide Collect;
      forall x: Pair ensures multiset(pairs)[x] == multiset(items)[(Text(x.0), Text(x.1))] {
        SnocCount(rest, pair, x);
        SnocCount(front, last, (Text(x.0), Text(x.1)));
      }
    }
  }

  lemma EntryCount(items: seq<(Datum, Datum)>, x: (Datum, Datum))
    requires Collect(items).Ok?
    ensures multiset(items)[x]
            == if x.0.Text? && x.1.Text? then multiset(Collect(items).value)[(x.0.text, x.1.text)] else 0
  {
    CollectEntries(items);
    if x in items {
      var i :| 0 <= i < |items| && items[i] == x;
    }
  }

  // ---- the binding ---------------------------------------------------------------------------

  /** `dict(pairs).get(name)` */
  function Lookup(pairs: seq<Pair>, name: string): Option<string> {
    if pairs == [] then None
    else if pairs[|pairs| - 1].0 == name then Some(pairs[|pairs| - 1].1)
    else Lookup(pairs[..|pairs| - 1], name)
  }

  predicate UniqueNames(pairs: seq<Pair>) {
    forall i, j :: 0 <= i < j < |pairs| ==> pairs[i].0 != pairs[j].0
  }

  /** The model's validators. */
  predicate Expressible(b: ExecutionBinding) {
    && b.toolId != "" && b.toolVersion != ""
    && (forall i :: 0 <= i < |b.parameters| ==> b.parameters[i].0 != "")
    && UniqueNames(b.parameters)
    && (Lookup(b.parameters, RESOURCE_PARAMETER).Some? ==> b.resource == Lookup(b.parameters, RESOURCE_PARAMETER))
  }

  /** `from_operation` */
  function FromOperation(toolId: string, toolVersion: string, parameters: Parameters, resource: Option<string>)
    : Result<ExecutionBinding, BindingError>
  {
    var canonical := Canonicalize(parameters);
    if canonical.Err? then Err(canonical.error)
    else
      var declared := Lookup(canonical.value, RESOURCE_PARAMETER);
      if resource.Some? && declared.Some? && resource != declared then Err(ResourceContradiction)
      else
        var b := ExecutionBinding(toolId, toolVersion, if resource.Some? then resource else declared,
                                  StableSort(PairOrder(), canonical.value));
        if Expressible(b) then Ok(b) else Err(Inexpressible)
  }

  /** A binding's own parameters, handed back as a caller's mapping. */
  function AsParameters(b: ExecutionBinding): Parameters {
    Mapping(seq(|b.parameters|, i requires 0 <= i < |b.parameters| =>
              (Text(b.parameters[i].0), Text(b.parameters[i].1))))
  }

  lemma CanonicalOrdered(p: Parameters)
    requires Canonicalize(p).Ok?
    ensures Ordered(PairOrder(), Canonicalize(p).value)
  {
    PairOrderTotal();
    if p.Mapping? {
      StableSortSorts(PairOrder(), Collect(p.items).value);
    }
  }

  lemma CollectBack(b: ExecutionBinding)
    requires Expressible(b)
    ensures Collect(AsParameters(b).items) == Ok(b.parameters)
  {
    var pairs := Collect(AsParameters(b).items);
    assert forall i :: 0 <= i < |b.parameters| ==> ItemError(AsParameters(b).items[i]) == None;
    assert pairs.value == b.parameters;
  }

  /** The executor rebuilds a binding from the operation's parameters alone. It gets the same
      binding back exactly when the resource is absent or was the `path` parameter; an
      explicit resource without that parameter is lost, and nothing else ever is. */
  lemma RebuildingKeepsBinding(toolId: string, toolVersion: string, parameters: Parameters, resource: Option<string>)
    requires FromOperation(toolId, toolVersion, parameters, resource).Ok?
    ensures var b := FromOperation(toolId, toolVersion, parameters, resource).value;
            var again := FromOperation(b.toolId, b.toolVersion, AsParameters(b), None);
            && (again == Ok(b) <==> b.resource.None? || Lookup(b.parameters, RESOURCE_PARAMETER).Some?)
            && again == Ok(b.(resource := Lookup(b.parameters, RESOURCE_PARAMETER)))
  {
    var b := FromOperation(toolId, toolVersion, parameters, resource).value;
    CanonicalOrdered(parameters);
    StableSortIdentity(PairOrder(), Canonicalize(parameters).value);
    CollectBack(b);
    StableSortIdentity(PairOrder(), b.parameters);
  }

  lemma SortedPairs(items: seq<(Datum, Datum)>)
    requires DistinctNames(items) && Collect(items).Ok?
    ensures var sorted := StableSort(PairOrder(), Collect(items).value);
            && StableSort(PairOrder(), sorted) == sorted
            && UniqueNames(sorted)
            && (forall i :: 0 <= i < |sorted| ==> sorted[i].0 != "")
            && (forall v :: Lookup(sorted, RESOURCE_PARAMETER) == Some(v)
                            <==> (Text(RESOURCE_PARAMETER), Text(v)) in items)
  {
    hide StableSort, PairOrder, Lookup, Collect, LexLE;
    var pairs := Collect(items).value;
    var sorted := StableSort(PairOrder(), pairs);
    PairOrderTotal();
    StableSortSorts(PairOrder(), pairs);
    StableSortIdentity(PairOrder(), sorted);
    forall i, j | 0 <= i < j < |pairs| ensures pairs[i].0 != pairs[j].0 {
      assert items[i] == (Text(pairs[i].0), Text(pairs[i].1)) && items[j] == (Text(pairs[j].0), Text(pairs[j].1));
    }
    SortKeepsUniqueNames(pairs, sorted);
    LookupFinds(sorted, RESOURCE_PARAMETER);
    forall i | 0 <= i < |sorted| ensures sorted[i].0 != "" {
      assert sorted[i] in pairs;
      var k :| 0 <= k < |pairs| && pairs[k] == sorted[i];
      assert ItemError(items[k]) == None;
    }
    CollectEntries(items);
    forall v ensures (RESOURCE_PARAMETER, v) in sorted <==> (Text(RESOURCE_PARAMETER), Text(v)) in items {
      assert (RESOURCE_PARAMETER, v) in pairs <==> (RESOURCE_PARAMETER, v) in multiset(pairs);
      assert (Text(RESOURCE_PARAMETER), Text(v)) in items
             <==> (Text(RESOURCE_PARAMETER), Text(v)) in multiset(items);
    }
  }

  /** An operation on distinct names is refused exactly for a bad entry, a missing tool
      identity, or an explicit resource that contradicts a declared one. */
  lemma BindingRefusals(toolId: string, toolVersion: string, items: seq<(Datum, Datum)>, resource: Option<string>)
    requires DistinctNames(items)
    ensures FromOperation(toolId, toolVersion, Mapping(items), resource).Ok?
            <==> && (forall i :: 0 <= i < |items| ==> ItemError(items[i]) == None)
                 && toolId != "" && toolVersion != ""
                 && (resource.Some? ==> forall v :: (Text(RESOURCE_PARAMETER), Text(v)) in items ==> v == resource.value)
  {
    hide StableSort, PairOrder, Lookup, LexLE;
    if Collect(items).Ok? {
      SortedPairs(items);
      var declared := Lookup(StableSort(PairOrder(), Collect(items).value), RESOURCE_PARAMETER);
      assert declared.Some? ==> (Text(RESOURCE_PARAMETER), Text(declared.value)) in items;
    }
  }

  predicate Usable(item: (Datum, Datum)) {
    item.0.Text? && item.0.text != "" && item.1.Text?
  }

  /** Each refusal names its own cause: the first entry that is not a named text, then a resource that
      contradicts a declared one, then a missing tool identity. */
  lemma BindingErrors(toolId: string, toolVersion: string, items: seq<(Datum, Datum)>, resource: Option<string>, k: nat)
    requires DistinctNames(items)
    ensures var r := FromOperation(toolId, toolVersion, Mapping(items), resource);
            var usable := forall i :: 0 <= i < |items| ==> Usable(items[i]);
            var contradicted := resource.Some?
                                && exists i :: 0 <= i < |items| && items[i].0 == Text(RESOURCE_PARAMETER) && items[i].1 != Text(resource.value);
            && (k < |items| && !Usable(items[k]) && (forall i :: 0 <= i < k ==> Usable(items[i]))
                ==> r == Err(if !items[k].0.Text? || items[k].0.text == "" then BadParameterName else BadParameterValue))
            && (usable && contradicted ==> r == Err(ResourceContradiction))
            && (usable && !contradicted && (toolId == "" || toolVersion == "") ==> r == Err(Inexpressible))
            && (usable && !contradicted && toolId != "" && toolVersion != "" ==> r.Ok?)
  {
    hide StableSort, PairOrder, Lookup, LexLE;
    if k < |items| && !Usable(items[k]) && (forall i :: 0 <= i < k ==> Usable(items[i])) {
      assert forall i :: 0 <= i < k ==> items[..k][i] == items[i];
      CollectStopsAt(items, k);
    }
    if forall i :: 0 <= i < |items| ==> Usable(items[i]) {
      assert forall i :: 0 <= i < |items| ==> ItemError(items[i]) == None;
      SortedPairs(items);
      var declared := Lookup(StableSort(PairOrder(), Collect(items).value), RESOURCE_PARAMETER);
      if declared.Some? {
        assert (Text(RESOURCE_PARAMETER), Text(declared.value)) in items;
      }
    }
  }

  /** Whatever the caller passed, an accepted binding lists each name once, in strictly increasing
      order, none of them empty, and its resource is the declared path when there is one. */
  lemma AcceptedInOrder(toolId: string, toolVersion: string, parameters: Parameters, resource: Option<string>)
    requires FromOperation(toolId, toolVersion, parameters, resource).Ok?
    ensures var b := FromOperation(toolId, toolVersion, parameters, resource).value;
            && (forall i, j :: 0 <= i < j < |b.parameters|
                  ==> b.parameters[i].0 != b.parameters[j].0 && LexLE(b.parameters[i].0, b.parameters[j].0))
            && (forall i :: 0 <= i < |b.parameters| ==> b.parameters[i].0 != "")
            && (forall v :: (RESOURCE_PARAMETER, v) in b.parameters ==> b.resource == Some(v))
  {
    hide LexLE, Lookup;
    var b := FromOperation(toolId, toolVersion, parameters, resource).value;
    CanonicalOrdered(parameters);
    StableSortIdentity(PairOrder(), Canonicalize(parameters).value);
    LookupFinds(b.parameters, RESOURCE_PARAMETER);
    forall i, j | 0 <= i < j < |b.parameters| ensures LexLE(b.parameters[i].0, b.parameters[j].0) {
      assert PairOrder()(b.parameters[i], b.parameters[j]);
    }
  }

  lemma SortKeepsUniqueNames(pairs: seq<Pair>, sorted: seq<Pair>)
    requires UniqueNames(pairs) && multiset(pairs) == multiset(sorted)
    ensures UniqueNames(sorted)
    ensures forall x :: x in sorted <==> x in pairs
  {
    forall x ensures x in sorted <==> x in pairs {
      assert x in sorted <==> x in multiset(sorted);
    }
    forall i, j | 0 <= i < j < |sorted| ensures sorted[i].0 != sorted[j].0 {
      var x, y := sorted[i], sorted[j];
      assert x in pairs && y in pairs;
      if x == y {
        RepeatedTwice(sorted, i, j);
        UniqueNamesOnce(pairs, x);
      }
    }
  }

  lemma UniqueNamesOnce(pairs: seq<Pair>, x: Pair)
    requires UniqueNames(pairs)
    ensures multiset(pairs)[x] <= 1
  {
    if pairs != [] {
      UniqueNamesOnce(pairs[..|pairs| - 1], x);
      assert pairs == pairs[..|pairs| - 1] + [pairs[|pairs| - 1]];
      if x == pairs[|pairs| - 1] {
        assert x !in pairs[..|pairs| - 1];
      }
    }
  }

  lemma {:induction false} LookupFinds(pairs: seq<Pair>, name: string)
    requires UniqueNames(pairs)
    ensures forall v :: Lookup(pairs, name) == Some(v) <==> (name, v) in pairs
  {
    if pairs != [] {
      LookupFinds(pairs[..|pairs| - 1], name);
      assert pairs == pairs[..|pairs| - 1] + [pairs[|pairs| - 1]];
    }
  }
}
