// Checking, reordering and totalling a resume score (score_validation.py), with the weight
// map that the caller builds from the same snapshot (resumes.py).
module ResumeScore {
  import opened Common
  import Text

  // A list entry that is not a dictionary carries nothing the code reads.
  datatype SnapshotItem = NotDict | Dimension(name: string, weight: real)

  datatype OutputItem = NotDict | Scored(name: string, score: Option<real>, weight: Option<real>)

  datatype ScoreError = NoDimensions | DuplicateNames | NameMismatch | CountMismatch

  const SCORE_DIFF_EPSILON := 0.01

  // ---------- names ----------

  // Dictionary entries with a non-empty name, in order.
  function SnapshotDimensions(raw: seq<SnapshotItem>): (dims: seq<SnapshotItem>)
    ensures forall d | d in dims :: d.Dimension? && d.name != "" && d in raw
  {
    if raw == [] then []
    else if raw[0].Dimension? && raw[0].name != "" then [raw[0]] + SnapshotDimensions(raw[1..])
    else SnapshotDimensions(raw[1..])
  }

  function Dicts(items: seq<OutputItem>): (r: seq<OutputItem>)
    ensures forall d | d in r :: d.Scored?
  {
    if items == [] then []
    else if items[0].Scored? then [items[0]] + Dicts(items[1..])
    else Dicts(items[1..])
  }

  function ExpectedNames(dims: seq<SnapshotItem>): (names: seq<string>)
    requires forall d | d in dims :: d.Dimension?
    ensures |names| == |dims| && forall i | 0 <= i < |dims| :: names[i] == Text.Strip(dims[i].name)
  {
    seq(|dims|, i requires 0 <= i < |dims| => Text.Strip(dims[i].name))
  }

  function ActualNames(dicts: seq<OutputItem>): (names: seq<string>)
    requires forall d | d in dicts :: d.Scored?
    ensures |names| == |dicts| && forall i | 0 <= i < |dicts| :: names[i] == Text.Strip(dicts[i].name)
  {
    seq(|dicts|, i requires 0 <= i < |dicts| => Text.Strip(dicts[i].name))
  }

  function NameSet(names: seq<string>): set<string> {
    set i | 0 <= i < |names| :: names[i]
  }

  predicate Distinct(names: seq<string>) {
    forall i, j | 0 <= i < j < |names| :: names[i] != names[j]
  }

  function ValidateScore(items: seq<OutputItem>, raw: seq<SnapshotItem>): Result<(), ScoreError> {
    var expected := ExpectedNames(SnapshotDimensions(raw));
    var actual := ActualNames(Dicts(items));
    if expected == [] then Err(NoDimensions)
    else if |actual| != |NameSet(actual)| then Err(DuplicateNames)
    else if NameSet(actual) - NameSet(expected) != {} || NameSet(expected) - NameSet(actual) != {} then Err(NameMismatch)
    else if |actual| != |expected| then Err(CountMismatch)
    else Ok(())
  }

  lemma {:induction false} NamesTellDistinct(names: seq<string>)
    ensures |NameSet(names)| <= |names|
    ensures |NameSet(names)| == |names| <==> Distinct(names)
  {
    CountTellsDistinct(names);
    assert NameSet(names) == set x | x in names;
  }

  lemma {:induction false} DistinctCountsOnce(names: seq<string>, x: string)
    requires Distinct(names)
    ensures multiset(names)[x] == if x in names then 1 else 0
  {
    if names != [] {
      var rest := names[1..];
      assert names == [names[0]] + rest;
      forall i, j | 0 <= i < j < |rest|
        ensures rest[i] != rest[j]
      {
        assert rest[i] == names[i + 1] && rest[j] == names[j + 1];
      }
      assert names[0] !in rest;
      DistinctCountsOnce(rest, x);
    }
  }

  // The output is accepted exactly when the snapshot has dimensions, their stripped names are
  // distinct, and the output's stripped names are a permutation of them.
  lemma {:induction false} AcceptedIffPermutation(items: seq<OutputItem>, raw: seq<SnapshotItem>)
    ensures ValidateScore(items, raw).Ok? <==>
            var expected := ExpectedNames(SnapshotDimensions(raw));
            expected != [] && Distinct(expected) && multiset(ActualNames(Dicts(items))) == multiset(expected)
  {
    var expected := ExpectedNames(SnapshotDimensions(raw));
    var actual := ActualNames(Dicts(items));
    NamesTellDistinct(actual);
    NamesTellDistinct(expected);
    if ValidateScore(items, raw).Ok? {
      assert NameSet(actual) == NameSet(expected);
      forall x
        ensures multiset(actual)[x] == multiset(expected)[x]
      {
        DistinctCountsOnce(actual, x);
        DistinctCountsOnce(expected, x);
        assert x in actual <==> x in NameSet(actual);
        assert x in expected <==> x in NameSet(expected);
      }
    } else if expected != [] && Distinct(expected) && multiset(actual) == multiset(expected) {
      PermutationKeepsNames(actual, expected);
    }
  }

  lemma {:induction false} PermutationKeepsNames(actual: seq<string>, expected: seq<string>)
    requires multiset(actual) == multiset(expected)
    ensures NameSet(actual) == NameSet(expected) && |actual| == |expected|
  {
    assert |multiset(actual)| == |actual| && |multiset(expected)| == |expected|;
    forall x
      ensures x in NameSet(actual) <==> x in NameSet(expected)
    {
      assert x in NameSet(actual) <==> x in multiset(actual);
      assert x in NameSet(expected) <==> x in multiset(expected);
    }
  }

  // ---------- reordering ----------

  type ItemsByName = map<string, OutputItem>

  // The items by stripped name; a later item replaces an earlier one of the same name.
  function ByName(dicts: seq<OutputItem>, names: seq<string>): ItemsByName
    requires |dicts| == |names|
  {
    if dicts == [] then map[]
    else
      var n := |dicts| - 1;
      ByName(dicts[..n], names[..n])[names[n] := dicts[n]]
  }

  lemma {:induction false} ByNameContents(dicts: seq<OutputItem>, names: seq<string>)
    requires |dicts| == |names|
    ensures forall name | name in ByName(dicts, names) ::
              exists i | 0 <= i < |dicts| :: names[i] == name && dicts[i] == ByName(dicts, names)[name]
    ensures forall i | 0 <= i < |names| :: names[i] in ByName(dicts, names)
  {
    if dicts != [] {
      var n := |dicts| - 1;
      var shorter := ByName(dicts[..n], names[..n]);
      ByNameContents(dicts[..n], names[..n]);
      forall name | name in ByName(dicts, names)
        ensures exists i | 0 <= i < |dicts| :: names[i] == name && dicts[i] == ByName(dicts, names)[name]
      {
        if name != names[n] {
          var i :| 0 <= i < n && names[..n][i] == name && dicts[..n][i] == shorter[name];
          assert names[i] == name && dicts[i] == ByName(dicts, names)[name];
        }
      }
      forall i | 0 <= i < |names|
        ensures names[i] in ByName(dicts, names)
      {
        assert i < n ==> names[..n][i] in shorter;
      }
    }
  }

  function OutputByName(items: seq<OutputItem>): ItemsByName {
    ByName(Dicts(items), ActualNames(Dicts(items)))
  }

  function Ordered(byName: ItemsByName, names: seq<string>): seq<OutputItem> {
    if names == [] then []
    else
      var n := |names| - 1;
      Ordered(byName, names[..n]) + (if names[n] in byName then [byName[names[n]]] else [])
  }

  method OrderDimensionsBySnapshot(items: seq<OutputItem>, raw: seq<SnapshotItem>) returns (ordered: seq<OutputItem>)
    ensures ordered == Ordered(OutputByName(items), ExpectedNames(SnapshotDimensions(raw)))
  {
    var byName := OutputByName(items);
    var names := ExpectedNames(SnapshotDimensions(raw));
    ordered := [];
    for i := 0 to |names|
      invariant ordered == Ordered(byName, names[..i])
    {
      assert names[..i + 1][..i] == names[..i];
      if names[i] in byName {
        ordered := ordered + [byName[names[i]]];
      }
    }
    assert names[..|names|] == names;
  }

  lemma {:induction false} OrderedPointwise(byName: ItemsByName, names: seq<string>)
    requires forall i | 0 <= i < |names| :: names[i] in byName
    ensures |Ordered(byName, names)| == |names|
    ensures forall i | 0 <= i < |names| :: Ordered(byName, names)[i] == byName[names[i]]
  {
    if names != [] {
      OrderedPointwise(byName, names[..|names| - 1]);
    }
  }

  function OrderedOutput(items: seq<OutputItem>, raw: seq<SnapshotItem>): seq<OutputItem> {
    Ordered(OutputByName(items), ExpectedNames(SnapshotDimensions(raw)))
  }

  // An accepted output is reordered into the snapshot's order, name by name.
  lemma {:induction false} ReorderFollowsSnapshot(items: seq<OutputItem>, raw: seq<SnapshotItem>)
    requires ValidateScore(items, raw).Ok?
    ensures forall d | d in OrderedOutput(items, raw) :: d in Dicts(items)
    ensures ActualNames(OrderedOutput(items, raw)) == ExpectedNames(SnapshotDimensions(raw))
  {
    var dicts := Dicts(items);
    var expected := ExpectedNames(SnapshotDimensions(raw));
    var actual := ActualNames(dicts);
    var ordered := OrderedOutput(items, raw);
    ByNameContents(dicts, actual);
    assert NameSet(actual) == NameSet(expected);
    forall i | 0 <= i < |expected|
      ensures expected[i] in OutputByName(items)
    {
      assert expected[i] in NameSet(expected);
      var j :| 0 <= j < |actual| && actual[j] == expected[i];
    }
    OrderedPointwise(OutputByName(items), expected);
    forall i | 0 <= i < |ordered|
      ensures ordered[i] in dicts && ordered[i].Scored? && Text.Strip(ordered[i].name) == expected[i]
    {
      var j :| 0 <= j < |dicts| && actual[j] == expected[i] && dicts[j] == ordered[i];
    }
  }

  // Sequences of the same length, the first drawn from the second without repeating an element,
  // are permutations of each other.
  lemma {:induction false} NoneLost(ordered: seq<OutputItem>, dicts: seq<OutputItem>)
    requires forall i | 0 <= i < |ordered| :: ordered[i] in dicts
    requires forall i, j | 0 <= i < j < |ordered| :: ordered[i] != ordered[j]
    requires |ordered| == |dicts|
    ensures multiset(ordered) == multiset(dicts)
  {
    if ordered != [] {
      var k :| 0 <= k < |dicts| && dicts[k] == ordered[0];
      var rest, others := ordered[1..], dicts[..k] + dicts[k + 1..];
      assert ordered == [ordered[0]] + rest;
      assert dicts == dicts[..k] + [dicts[k]] + dicts[k + 1..];
      forall i | 0 <= i < |rest|
        ensures rest[i] in others
      {
        assert rest[i] == ordered[i + 1] && ordered[i + 1] in dicts;
        StillThere(dicts, k, rest[i]);
      }
      NoneLost(rest, others);
    }
  }

  lemma {:induction false} StillThere(dicts: seq<OutputItem>, k: nat, item: OutputItem)
    requires k < |dicts| && item in dicts && item != dicts[k]
    ensures item in dicts[..k] + dicts[k + 1..]
  {
    var others := dicts[..k] + dicts[k + 1..];
    var j :| 0 <= j < |dicts| && dicts[j] == item;
    assert if j < k then others[j] == item else others[j - 1] == item;
  }

  // Reordering an accepted output loses and repeats nothing.
  lemma {:induction false} ReorderIsPermutation(items: seq<OutputItem>, raw: seq<SnapshotItem>)
    requires ValidateScore(items, raw).Ok?
    ensures multiset(OrderedOutput(items, raw)) == multiset(Dicts(items))
  {
    var ordered := OrderedOutput(items, raw);
    var dims := SnapshotDimensions(raw);
    ReorderFollowsSnapshot(items, raw);
    AcceptedIffPermutation(items, raw);
    PermutationKeepsNames(ActualNames(Dicts(items)), ExpectedNames(dims));
    forall i, j | 0 <= i < j < |ordered|
      ensures ordered[i] != ordered[j]
    {
      assert ActualNames(ordered)[i] != ActualNames(ordered)[j];
    }
    NoneLost(ordered, Dicts(items));
  }

  // ---------- totals ----------

  // Python's round on exact numbers: nearest multiple of 1/scale, ties to the even multiple.
  function RoundHalfEven(x: real, scale: int): real
    requires scale > 0
  {
    var y := x * scale as real;
    var f := y.Floor;
    var rest := y - f as real;
    var n := if rest < 0.5 || (rest == 0.5 && f % 2 == 0) then f else f + 1;
    n as real / scale as real
  }

  function Or0(x: Option<real>): real {
    if x.Some? then x.value else 0.0
  }

  type WeightMap = map<string, real>

  function WeightOf(item: OutputItem, weights: WeightMap): real
    requires item.Scored?
  {
    if item.name in weights then weights[item.name] else Or0(item.weight)
  }

  function ExactTerm(item: OutputItem, weights: WeightMap): real
    requires item.Scored?
  {
    Weighted(Or0(item.score), WeightOf(item, weights))
  }

  function Weighted(score: real, weight: real): real {
    score * (weight / 100.0)
  }

  datatype Recomputed = Recomputed(name: string, weight: real, score: real, weighted: real)

  function RecomputedOf(item: OutputItem, weights: WeightMap): Recomputed
    requires item.Scored?
  {
    Recomputed(item.name, WeightOf(item, weights), Or0(item.score), RoundHalfEven(ExactTerm(item, weights), 100))
  }

  predicate AllScored(items: seq<OutputItem>) {
    forall d | d in items :: d.Scored?
  }

  function RecomputeAll(items: seq<OutputItem>, weights: WeightMap): seq<Recomputed>
    requires AllScored(items)
  {
    seq(|items|, i requires 0 <= i < |items| => RecomputedOf(items[i], weights))
  }

  function RoundedSum(items: seq<OutputItem>, weights: WeightMap): real
    requires AllScored(items)
  {
    if items == [] then 0.0
    else
      var n := |items| - 1;
      RoundedSum(items[..n], weights) + RoundHalfEven(ExactTerm(items[n], weights), 100)
  }

  function ExactSum(items: seq<OutputItem>, weights: WeightMap): real
    requires AllScored(items)
  {
    if items == [] then 0.0
    else
      var n := |items| - 1;
      ExactSum(items[..n], weights) + ExactTerm(items[n], weights)
  }

  datatype Totals = Totals(rows: seq<Recomputed>, calculated: real, difference: Option<real>, warned: bool)

  function Abs(x: real): real {
    if x < 0.0 then -x else x
  }

  function TotalsOf(items: seq<OutputItem>, weights: WeightMap, modelTotal: Option<real>): Totals
    requires AllScored(items)
  {
    var calculated := RoundHalfEven(RoundedSum(items, weights), 100);
    var difference := if modelTotal.None? then None else Some(RoundHalfEven(modelTotal.value - calculated, 10000));
    Totals(RecomputeAll(items, weights), calculated, difference,
           difference.Some? && Abs(difference.value) > SCORE_DIFF_EPSILON)
  }

  method ComputeScoreTotals(items: seq<OutputItem>, weights: WeightMap, modelTotal: Option<real>) returns (t: Totals)
    requires AllScored(items)
    ensures t == TotalsOf(items, weights, modelTotal)
  {
    var rows: seq<Recomputed> := [];
    var total := 0.0;
    for i := 0 to |items|
      invariant rows == RecomputeAll(items[..i], weights)
      invariant total == RoundedSum(items[..i], weights)
    {
      assert items[..i + 1][..i] == items[..i];
      var row := RecomputedOf(items[i], weights);
      rows := rows + [row];
      total := total + row.weighted;
    }
    assert items[..|items|] == items;
    var calculated := RoundHalfEven(total, 100);
    var difference: Option<real> := None;
    var warned := false;
    if modelTotal.Some? {
      difference := Some(RoundHalfEven(modelTotal.value - calculated, 10000));
      warned := Abs(difference.value) > SCORE_DIFF_EPSILON;
    }
    t := Totals(rows, calculated, difference, warned);
  }

  lemma {:induction false} RoundedCents(x: real)
    ensures Abs(RoundHalfEven(x, 100) - x) <= 0.005
    ensures exists n: int :: RoundHalfEven(x, 100) == CentsValue(n)
  {
    var y := x * 100.0;
    var f := y.Floor;
    var rest := y - f as real;
    var n := if rest < 0.5 || (rest == 0.5 && f % 2 == 0) then f else f + 1;
    assert RoundHalfEven(x, 100) == CentsValue(n);
  }

  function CentsValue(n: int): real {
    n as real / 100.0
  }

  lemma {:induction false} CentsAreFixed(n: int)
    ensures RoundHalfEven(CentsValue(n), 100) == CentsValue(n)
  {
    assert CentsValue(n) * 100.0 == n as real;
  }

  lemma {:induction false} RoundedSumIsCents(items: seq<OutputItem>, weights: WeightMap) returns (n: int)
    requires AllScored(items)
    ensures RoundedSum(items, weights) == CentsValue(n)
  {
    if items == [] {
      n := 0;
    } else {
      var m := |items| - 1;
      var a := RoundedSumIsCents(items[..m], weights);
      RoundedCents(ExactTerm(items[m], weights));
      var b: int :| RoundHalfEven(ExactTerm(items[m], weights), 100) == CentsValue(b);
      n := a + b;
    }
  }

  lemma {:induction false} RoundedSumClose(items: seq<OutputItem>, weights: WeightMap)
    requires AllScored(items)
    ensures Abs(RoundedSum(items, weights) - ExactSum(items, weights)) <= 0.005 * |items| as real
  {
    if items != [] {
      var m := |items| - 1;
      RoundedSumClose(items[..m], weights);
      RoundedCents(ExactTerm(items[m], weights));
    }
  }

  // The recomputed total of n dimensions is within half a cent per dimension of the exact
  // weighted sum: rounding the running total once more adds no error.
  lemma {:induction false} TotalIsAccurate(items: seq<OutputItem>, weights: WeightMap, modelTotal: Option<real>)
    requires AllScored(items)
    ensures TotalsOf(items, weights, modelTotal).calculated == RoundedSum(items, weights)
    ensures Abs(TotalsOf(items, weights, modelTotal).calculated - ExactSum(items, weights)) <= 0.005 * |items| as real
  {
    var n := RoundedSumIsCents(items, weights);
    CentsAreFixed(n);
    RoundedSumClose(items, weights);
  }

  lemma {:induction false} RoundFourStaysBelow(x: real)
    requires Abs(x) <= SCORE_DIFF_EPSILON
    ensures Abs(RoundHalfEven(x, 10000)) <= SCORE_DIFF_EPSILON
  {
    var y := x * 10000.0;
    assert -100.0 <= y <= 100.0;
    var f := y.Floor;
    assert -100 <= f <= 100;
    assert f == 100 ==> y == 100.0;
  }

  // A model that reports the exact weighted sum is never warned about on one or two dimensions.
  lemma {:induction false} ExactTotalNotWarned(items: seq<OutputItem>, weights: WeightMap)
    requires AllScored(items) && |items| <= 2
    ensures !TotalsOf(items, weights, Some(ExactSum(items, weights))).warned
  {
    var modelTotal := Some(ExactSum(items, weights));
    TotalIsAccurate(items, weights, modelTotal);
    RoundFourStaysBelow(modelTotal.value - TotalsOf(items, weights, modelTotal).calculated);
  }

  // On any larger number it can be: three half-cent ties rounded the same way exceed the
  // tolerance, and further dimensions of weight zero leave the sums alone. The output is accepted
  // and its weights are those of the snapshot.
  lemma {:induction false} ExactTotalCanBeWarned(n: nat) returns (items: seq<OutputItem>, raw: seq<SnapshotItem>)
    requires n >= 3
    ensures |items| == n && AllScored(items) && SnapshotDimensions(raw) == raw
    ensures ValidateScore(items, raw).Ok? && OrderedOutput(items, raw) == items
    ensures forall i | 0 <= i < n :: items[i].name in SnapshotWeights(raw)
    ensures TotalsOf(items, SnapshotWeights(raw), Some(ExactSum(items, SnapshotWeights(raw)))).warned
  {
    items, raw := WarnedItems(n), WarnedSnapshot(n);
    WarnedIsAccepted(n);
    WarnedTies(n);
    TieTotalIsWarned(items, SnapshotWeights(raw));
  }

  // Three ties and nothing else.
  predicate Ties(items: seq<OutputItem>, weights: WeightMap) {
    && |items| >= 3
    && forall i | 0 <= i < |items| ::
         && items[i].Scored? && items[i].name in weights
         && ExactTerm(items[i], weights) == if i < 2 then 0.165 else if i == 2 then 0.085 else 0.0
  }

  lemma {:induction false} WarnedTies(n: nat)
    requires n >= 3
    ensures Ties(WarnedItems(n), SnapshotWeights(WarnedSnapshot(n)))
  {
    var items, weights := WarnedItems(n), SnapshotWeights(WarnedSnapshot(n));
    forall i | 0 <= i < n
      ensures items[i].Scored? && items[i].name in weights
      ensures ExactTerm(items[i], weights) == if i < 2 then 0.165 else if i == 2 then 0.085 else 0.0
    {
      WarnedTerm(n, i);
    }
  }

  lemma {:induction false} TieTotalIsWarned(items: seq<OutputItem>, weights: WeightMap)
    requires Ties(items, weights)
    ensures AllScored(items) && TotalsOf(items, weights, Some(ExactSum(items, weights))).warned
  {
    TieSums(items, weights, |items|);
    assert items[..|items|] == items;
    TieRoundings();
  }

  lemma {:induction false} TieSums(items: seq<OutputItem>, weights: WeightMap, k: nat)
    requires Ties(items, weights) && 3 <= k <= |items|
    ensures RoundedSum(items[..k], weights) == 0.4 && ExactSum(items[..k], weights) == 0.415
  {
    TieRoundings();
    if k == 3 {
      assert items[..3] == [items[0], items[1], items[2]];
      ThreeTermSums(items[0], items[1], items[2], weights);
    } else {
      TieSums(items, weights, k - 1);
      assert items[..k][..k - 1] == items[..k - 1];
    }
  }

  // a, b, c, and then names of growing length.
  function WarnedName(i: nat): (name: string)
    ensures |name| == if i < 3 then 1 else i
    ensures forall k | 0 <= k < |name| :: !Text.IsSpace(name[k])
  {
    if i == 0 then "a" else if i == 1 then "b" else if i == 2 then "c" else seq(i, _ => 'z')
  }

  function WarnedSnapshot(n: nat): (raw: seq<SnapshotItem>)
    ensures |raw| == n
    ensures forall i | 0 <= i < n ::
              raw[i] == Dimension(WarnedName(i), if i < 2 then 33.0 else if i == 2 then 34.0 else 0.0)
  {
    seq(n, i requires 0 <= i => Dimension(WarnedName(i), if i < 2 then 33.0 else if i == 2 then 34.0 else 0.0))
  }

  function WarnedItems(n: nat): (items: seq<OutputItem>)
    ensures |items| == n
    ensures forall i | 0 <= i < n :: items[i] == Scored(WarnedName(i), Some(if i == 2 then 0.25 else 0.5), None)
  {
    seq(n, i requires 0 <= i => Scored(WarnedName(i), Some(if i == 2 then 0.25 else 0.5), None))
  }

  lemma {:induction false} WarnedNamesDiffer(i: nat, j: nat)
    requires i < j
    ensures WarnedName(i) != WarnedName(j)
  {
    if j < 3 {
      assert WarnedName(i)[0] != WarnedName(j)[0];
    } else {
      assert |WarnedName(i)| < |WarnedName(j)|;
    }
  }

  lemma {:induction false} SolidNameStrips(name: string)
    requires name != "" && forall k | 0 <= k < |name| :: !Text.IsSpace(name[k])
    ensures Text.Strip(name) == name
  {
    Text.StripOfSplit("", name, "");
    assert "" + name + "" == name;
  }

  lemma {:induction false} AllDimensionsKept(raw: seq<SnapshotItem>)
    requires forall i | 0 <= i < |raw| :: raw[i].Dimension? && raw[i].name != ""
    ensures SnapshotDimensions(raw) == raw
  {
    if raw != [] {
      AllDimensionsKept(raw[1..]);
    }
  }

  lemma {:induction false} AllItemsKept(items: seq<OutputItem>)
    requires forall i | 0 <= i < |items| :: items[i].Scored?
    ensures Dicts(items) == items
  {
    if items != [] {
      AllItemsKept(items[1..]);
    }
  }

  lemma {:induction false} WarnedIsAccepted(n: nat)
    requires n >= 3
    ensures SnapshotDimensions(WarnedSnapshot(n)) == WarnedSnapshot(n)
    ensures ValidateScore(WarnedItems(n), WarnedSnapshot(n)).Ok?
    ensures OrderedOutput(WarnedItems(n), WarnedSnapshot(n)) == WarnedItems(n)
  {
    var items, raw := WarnedItems(n), WarnedSnapshot(n);
    forall i | 0 <= i < n
      ensures Text.Strip(WarnedName(i)) == WarnedName(i)
    {
      SolidNameStrips(WarnedName(i));
    }
    forall i, j | 0 <= i < j < n
      ensures raw[i].name != raw[j].name
    {
      WarnedNamesDiffer(i, j);
    }
    SameNamesAccepted(items, raw);
  }

  // An output that repeats the snapshot's distinct, stripped names in order is accepted and stays
  // in its order.
  lemma {:induction false} SameNamesAccepted(items: seq<OutputItem>, raw: seq<SnapshotItem>)
    requires |items| == |raw| > 0 && forall i | 0 <= i < |raw| :: items[i].Scored? && raw[i].Dimension? && raw[i].name != ""
    requires forall i | 0 <= i < |raw| :: items[i].name == raw[i].name == Text.Strip(raw[i].name)
    requires forall i, j | 0 <= i < j < |raw| :: raw[i].name != raw[j].name
    ensures SnapshotDimensions(raw) == raw && ValidateScore(items, raw).Ok? && OrderedOutput(items, raw) == items
  {
    AllDimensionsKept(raw);
    AllItemsKept(items);
    assert ExpectedNames(raw) == ActualNames(items);
    AcceptedIffPermutation(items, raw);
    ReorderFollowsSnapshot(items, raw);
    SameNamesSameItems(OrderedOutput(items, raw), items, ActualNames(items));
  }

  lemma {:induction false} SameNamesSameItems(ordered: seq<OutputItem>, items: seq<OutputItem>, names: seq<string>)
    requires AllScored(ordered) && AllScored(items) && Distinct(names)
    requires ActualNames(ordered) == names && ActualNames(items) == names
    requires forall d | d in ordered :: d in items
    ensures ordered == items
  {
    assert |ordered| == |names| == |items|;
    forall i | 0 <= i < |names|
      ensures ordered[i] == items[i]
    {
      var j := FoundByName(items, names, ordered[i]);
      assert names[i] == Text.Strip(ordered[i].name);
      assert !(i < j) && !(j < i);
    }
  }

  lemma {:induction false} FoundByName(items: seq<OutputItem>, names: seq<string>, item: OutputItem) returns (j: nat)
    requires AllScored(items) && ActualNames(items) == names && item in items
    ensures j < |items| == |names| && items[j] == item && names[j] == Text.Strip(item.name)
  {
    assert |items| == |names|;
    var k :| 0 <= k < |items| && items[k] == item;
    j := k;
  }

  lemma {:induction false} WarnedTerm(n: nat, i: nat)
    requires i < n
    ensures WarnedItems(n)[i].name in SnapshotWeights(WarnedSnapshot(n))
    ensures ExactTerm(WarnedItems(n)[i], SnapshotWeights(WarnedSnapshot(n)))
            == if i < 2 then 0.165 else if i == 2 then 0.085 else 0.0
  {
    var raw, item := WarnedSnapshot(n), WarnedItems(n)[i];
    forall j | 0 <= j < n && raw[j].name == item.name
      ensures j == i
    {
      if j < i {
        WarnedNamesDiffer(j, i);
      } else if i < j {
        WarnedNamesDiffer(i, j);
      }
    }
    WeightLookup(raw, item, i);
    assert raw[i].name == item.name;
  }

  // So a model reporting the exact weighted sum is safe from the warning for exactly the numbers
  // of dimensions up to two.
  lemma {:induction false} ExactTotalSafeIff(n: nat)
    ensures n <= 2 <==>
            forall items, weights | AllScored(items) && |items| == n ::
              !TotalsOf(items, weights, Some(ExactSum(items, weights))).warned
  {
    if n <= 2 {
      forall items, weights | AllScored(items) && |items| == n
        ensures !TotalsOf(items, weights, Some(ExactSum(items, weights))).warned
      {
        ExactTotalNotWarned(items, weights);
      }
    } else {
      var items, raw := ExactTotalCanBeWarned(n);
    }
  }

  lemma {:induction false} TieRoundings()
    ensures RoundHalfEven(0.165, 100) == 0.16 && RoundHalfEven(0.085, 100) == 0.08
    ensures RoundHalfEven(0.4, 100) == 0.4 && RoundHalfEven(0.015, 10000) == 0.015
  {
    assert 16.5.Floor == 16 && 8.5.Floor == 8 && 40.0.Floor == 40 && 150.0.Floor == 150;
  }

  lemma {:induction false} ThreeTermSums(a: OutputItem, b: OutputItem, c: OutputItem, weights: WeightMap)
    requires a.Scored? && b.Scored? && c.Scored?
    ensures RoundedSum([a, b, c], weights) == RoundHalfEven(ExactTerm(a, weights), 100)
              + RoundHalfEven(ExactTerm(b, weights), 100) + RoundHalfEven(ExactTerm(c, weights), 100)
    ensures ExactSum([a, b, c], weights) == ExactTerm(a, weights) + ExactTerm(b, weights) + ExactTerm(c, weights)
  {
    var three, two, one: seq<OutputItem> := [a, b, c], [a, b], [a];
    assert three[..2] == two && two[..1] == one && one[..0] == [];
    assert ExactSum(one, weights) == ExactTerm(a, weights);
    assert ExactSum(two, weights) == ExactSum(two[..1], weights) + ExactTerm(b, weights);
    assert RoundedSum(one, weights) == RoundHalfEven(ExactTerm(a, weights), 100);
    assert RoundedSum(two, weights) == RoundedSum(two[..1], weights) + RoundHalfEven(ExactTerm(b, weights), 100);
  }

  // ---------- which weight is used ----------

  // The weights by snapshot name as written; names are not stripped here.
  function SnapshotWeights(dims: seq<SnapshotItem>): (m: WeightMap)
    requires forall d | d in dims :: d.Dimension?
    ensures forall name | name in m :: exists i | 0 <= i < |dims| :: dims[i].name == name && dims[i].weight == m[name]
    ensures forall i | 0 <= i < |dims| :: dims[i].name in m
  {
    if dims == [] then map[]
    else
      var n := |dims| - 1;
      SnapshotWeights(dims[..n])[dims[n].name := dims[n].weight]
  }

  // An accepted dimension is weighted by the snapshot exactly when the output repeats the
  // snapshot's name character for character, or happens to carry the same weight itself:
  // names are matched stripped, weights are looked up unstripped.
  lemma {:induction false} SnapshotWeightUsedIff(items: seq<OutputItem>, raw: seq<SnapshotItem>, i: nat)
    requires ValidateScore(items, raw).Ok? && i < |SnapshotDimensions(raw)|
    ensures i < |OrderedOutput(items, raw)| && OrderedOutput(items, raw)[i] in Dicts(items)
    ensures var dims := SnapshotDimensions(raw);
            var item := OrderedOutput(items, raw)[i];
            WeightOf(item, SnapshotWeights(dims)) == dims[i].weight
            <==> item.name == dims[i].name || Or0(item.weight) == dims[i].weight
  {
    var dims := SnapshotDimensions(raw);
    ReorderFollowsSnapshot(items, raw);
    AcceptedIffPermutation(items, raw);
    var item := OrderedOutput(items, raw)[i];
    assert item in Dicts(items);
    var expected := ExpectedNames(dims);
    assert ActualNames(OrderedOutput(items, raw))[i] == expected[i];
    forall j | 0 <= j < |dims| && dims[j].name == item.name
      ensures j == i
    {
      assert expected[j] == expected[i];
    }
    WeightLookup(dims, item, i);
  }

  lemma {:induction false} WeightLookup(dims: seq<SnapshotItem>, item: OutputItem, i: nat)
    requires forall d | d in dims :: d.Dimension?
    requires i < |dims| && item.Scored?
    requires forall j | 0 <= j < |dims| && dims[j].name == item.name :: j == i
    ensures item.name in SnapshotWeights(dims) <==> item.name == dims[i].name
    ensures item.name in SnapshotWeights(dims) ==> SnapshotWeights(dims)[item.name] == dims[i].weight
  {
    var weights := SnapshotWeights(dims);
    if item.name in weights {
      var j :| 0 <= j < |dims| && dims[j].name == item.name && dims[j].weight == weights[item.name];
    }
  }

  // A trailing space in the output's name passes validation and zeroes the dimension's weight.
  lemma {:induction false} TrailingSpaceLosesWeight() returns (items: seq<OutputItem>, raw: seq<SnapshotItem>)
    ensures ValidateScore(items, raw).Ok?
    ensures SnapshotDimensions(raw) == [Dimension("a", 100.0)]
    ensures OrderedOutput(items, raw) == [Scored("a ", Some(80.0), None)]
    ensures TotalsOf([Scored("a ", Some(80.0), None)], SnapshotWeights([Dimension("a", 100.0)]), None).calculated == 0.0
  {
    var item, dim := Scored("a ", Some(80.0), None), Dimension("a", 100.0);
    items, raw := [item], [dim];
    SingleNameStrips();
    SingletonDicts(item, dim);
    assert ExpectedNames([dim]) == ["a"] && ActualNames([item]) == ["a"];
    AcceptedIffPermutation(items, raw);
    ReorderFollowsSnapshot(items, raw);
    assert |OrderedOutput(items, raw)| == 1 && OrderedOutput(items, raw)[0] in [item];
    LostWeight(item, dim);
  }

  lemma {:induction false} SingletonDicts(item: OutputItem, dim: SnapshotItem)
    requires item.Scored? && dim.Dimension? && dim.name != ""
    ensures SnapshotDimensions([dim]) == [dim] && Dicts([item]) == [item]
  {
    assert [dim][1..] == [] && [item][1..] == [];
  }

  lemma {:induction false} LostWeight(item: OutputItem, dim: SnapshotItem)
    requires item.Scored? && item.weight == None && dim.Dimension? && |item.name| != |dim.name|
    ensures TotalsOf([item], SnapshotWeights([dim]), None).calculated == 0.0
  {
    var weights := SnapshotWeights([dim]);
    assert item.name !in weights;
    assert [item][..0] == [];
    assert ExactTerm(item, weights) == 0.0;
    assert RoundedSum([item], weights) == RoundHalfEven(0.0, 100) == 0.0;
  }

  lemma {:induction false} SingleNameStrips()
    ensures Text.Strip("a") == "a" && Text.Strip("a ") == "a"
  {
    assert Text.SkipSpaces("a") == "a" && Text.SkipSpaces("a ") == "a ";
    assert "a "[..1] == "a";
    assert Text.DropTrailing("a") == "a";
    assert Text.DropTrailing("a ") == Text.DropTrailing("a");
  }

  // ---------- what the totals say ----------

  // Each recomputed row repeats the item's name and score (zero if there is none) and the weight
  // that was looked up, and its weighted score is within half a cent of their product.
  lemma {:induction false} RowsExplained(items: seq<OutputItem>, weights: WeightMap, modelTotal: Option<real>, i: nat)
    requires AllScored(items) && i < |items|
    ensures var rows := TotalsOf(items, weights, modelTotal).rows;
            |rows| == |items| && RowShows(rows[i], items[i], weights)
  {
    RowExplained(items[i], weights);
  }

  predicate RowShows(row: Recomputed, item: OutputItem, weights: WeightMap)
    requires item.Scored?
  {
    && row.name == item.name
    && row.score == (if item.score.Some? then item.score.value else 0.0)
    && row.weight == (if item.name in weights then weights[item.name] else if item.weight.Some? then item.weight.value else 0.0)
    && NearProduct(row.weighted, row.score, row.weight)
  }

  predicate NearProduct(weighted: real, score: real, weight: real) {
    -0.005 <= weighted - Weighted(score, weight) <= 0.005
  }

  lemma {:induction false} RowExplained(item: OutputItem, weights: WeightMap)
    requires item.Scored?
    ensures RowShows(RecomputedOf(item, weights), item, weights)
  {
    RoundedCents(ExactTerm(item, weights));
  }

  // The difference is the model's total less the recomputed one, to four places, and the warning
  // is raised exactly when it exceeds one cent in either direction.
  lemma {:induction false} DifferenceExplained(items: seq<OutputItem>, weights: WeightMap, modelTotal: Option<real>)
    requires AllScored(items)
    ensures var t := TotalsOf(items, weights, modelTotal);
            && (t.difference.None? <==> modelTotal.None?)
            && (modelTotal.Some? ==> -0.00005 <= t.difference.value - (modelTotal.value - t.calculated) <= 0.00005)
            && (t.warned <==> t.difference.Some? && (t.difference.value > 0.01 || t.difference.value < -0.01))
  {
    if modelTotal.Some? {
      var x := modelTotal.value - TotalsOf(items, weights, modelTotal).calculated;
      var y := x * 10000.0;
      assert y.Floor as real <= y < y.Floor as real + 1.0;
    }
  }
}
