// Dimension snapshots and the weighted interview score of interview_ai_validation.py.
// Decimals are exact, so weights and scores are real numbers.
module Scoring {
  import opened Common
  import Text

  datatype AIError =
    | InvalidDimensionKey
    | InvalidDimensionSnapshot
    | IncompleteAnchors
    | InvalidDimensionWeights
    | InvalidInterviewScore
    | InvalidQuestionResult
    | InvalidAnalysisResult
    | InvalidEvidence
    | OutputValidationFailed

  // A field of a raw JSON object: absent or null, of the wrong type, or usable.
  datatype Field<+T> = Absent | Malformed | Present(value: T)

  datatype RawDimension =
    | NotAnObject
    | RawDimension(name: Field<string>, description: Field<string>,
                   anchors: Field<seq<string>>, weight: Field<real>)

  datatype Dimension = Dimension(
    key: string, displayOrder: nat, name: string, weight: real,
    description: string, anchors: seq<string>)

  const MAX_DIMENSIONS := 50
  const WEIGHT_TOLERANCE := 0.01

  function Digit(n: nat): char
    requires n < 10
  {
    '0' + n as char
  }

  // The letter D and the position in three digits.
  function AllocateDimensionKey(position: int): Result<string, AIError> {
    if position < 1 || position > 999 then Err(InvalidDimensionKey)
    else Ok(['D', Digit(position / 100), Digit(position / 10 % 10), Digit(position % 10)])
  }

  lemma {:induction false} DimensionKeysAreDistinct(p: int, q: int)
    requires AllocateDimensionKey(p).Ok? && AllocateDimensionKey(p) == AllocateDimensionKey(q)
    ensures p == q
  {
    var a, b := AllocateDimensionKey(p).value, AllocateDimensionKey(q).value;
    assert a[1] == b[1] && a[2] == b[2] && a[3] == b[3];
    DigitIsInjective(p / 100, q / 100);
    DigitIsInjective(p / 10 % 10, q / 10 % 10);
    DigitIsInjective(p % 10, q % 10);
    ThreeDigits(p);
    ThreeDigits(q);
  }

  lemma {:induction false} DigitIsInjective(m: nat, n: nat)
    requires m < 10 && n < 10 && Digit(m) == Digit(n)
    ensures m == n
  {
  }

  lemma {:induction false} ThreeDigits(p: nat)
    requires p < 1000
    ensures p == 100 * (p / 100) + 10 * (p / 10 % 10) + p % 10
  {
    var tens := p / 10;
    assert tens / 10 == p / 100;
    assert p == 10 * tens + p % 10 && tens == 10 * (tens / 10) + tens % 10;
  }

  lemma {:induction false} KeysOfPositionsDiffer(p: int, q: int)
    requires 1 <= p <= 999 && 1 <= q <= 999 && p != q
    ensures AllocateDimensionKey(p).value != AllocateDimensionKey(q).value
  {
    if AllocateDimensionKey(p).value == AllocateDimensionKey(q).value {
      DimensionKeysAreDistinct(p, q);
    }
  }

  predicate WellFormedRaw(raw: RawDimension) {
    && raw.RawDimension?
    && raw.name.Present? && Text.Strip(raw.name.value) != ""
    && !raw.description.Malformed?
    && !raw.anchors.Malformed?
    && raw.weight.Present?
  }

  function StripAll(texts: seq<string>): seq<string> {
    seq(|texts|, i requires 0 <= i < |texts| => Text.Strip(texts[i]))
  }

  function SnapshotOf(raw: RawDimension, index: int): Dimension
    requires WellFormedRaw(raw) && 1 <= index <= MAX_DIMENSIONS
  {
    Dimension(AllocateDimensionKey(index).value, index, Text.Strip(raw.name.value), raw.weight.value,
              if raw.description.Present? then Text.Strip(raw.description.value) else "",
              if raw.anchors.Present? then StripAll(raw.anchors.value) else [])
  }

  predicate SnapshotAccepted(raws: seq<RawDimension>) {
    && 0 < |raws| <= MAX_DIMENSIONS
    && forall i | 0 <= i < |raws| :: WellFormedRaw(raws[i])
  }

  // The first n snapshot items, numbered from 1.
  function SnapshotPrefix(raws: seq<RawDimension>, n: nat): (r: seq<Dimension>)
    requires n <= |raws| <= MAX_DIMENSIONS && forall i | 0 <= i < n :: WellFormedRaw(raws[i])
    ensures |r| == n && forall k | 0 <= k < n :: r[k] == SnapshotOf(raws[k], k + 1)
  {
    seq(n, k requires 0 <= k < n => SnapshotOf(raws[k], k + 1))
  }

  function Snapshot(raws: seq<RawDimension>): Result<seq<Dimension>, AIError> {
    if SnapshotAccepted(raws) then Ok(SnapshotPrefix(raws, |raws|)) else Err(InvalidDimensionSnapshot)
  }

  lemma {:induction false} SnapshotPrefixStep(raws: seq<RawDimension>, n: nat)
    requires n < |raws| <= MAX_DIMENSIONS && forall i | 0 <= i <= n :: WellFormedRaw(raws[i])
    ensures SnapshotPrefix(raws, n + 1) == SnapshotPrefix(raws, n) + [SnapshotOf(raws[n], n + 1)]
  {
  }

  method BuildDimensionSnapshot(raws: seq<RawDimension>) returns (r: Result<seq<Dimension>, AIError>)
    ensures r == Snapshot(raws)
  {
    if |raws| == 0 {
      return Err(InvalidDimensionSnapshot);
    }
    if |raws| > MAX_DIMENSIONS {
      return Err(InvalidDimensionSnapshot);
    }
    var snapshot: seq<Dimension> := [];
    for i := 0 to |raws|
      invariant forall k | 0 <= k < i :: WellFormedRaw(raws[k])
      invariant snapshot == SnapshotPrefix(raws, i)
    {
      if !WellFormedRaw(raws[i]) {
        return Err(InvalidDimensionSnapshot);
      }
      SnapshotPrefixStep(raws, i);
      snapshot := snapshot + [SnapshotOf(raws[i], i + 1)];
    }
    return Ok(snapshot);
  }

  lemma {:induction false} SnapshotKeyAt(raws: seq<RawDimension>, i: nat)
    requires SnapshotAccepted(raws)
    ensures |SnapshotPrefix(raws, |raws|)| == |raws|
    ensures i < |raws| ==> SnapshotPrefix(raws, |raws|)[i].key == AllocateDimensionKey(i + 1).value
                           && SnapshotPrefix(raws, |raws|)[i].displayOrder == i + 1
  {
  }

  predicate KeysDistinct(dims: seq<Dimension>) {
    forall i, j | 0 <= i < j < |dims| :: dims[i].key != dims[j].key
  }

  predicate OrdersConsecutive(dims: seq<Dimension>) {
    forall i | 0 <= i < |dims| :: dims[i].displayOrder == i + 1
  }

  // A built snapshot satisfies the uniqueness constraints of the dimension tables.
  lemma {:induction false} SnapshotKeysUnique(raws: seq<RawDimension>)
    requires Snapshot(raws).Ok?
    ensures var dims := Snapshot(raws).value;
            dims != [] && KeysDistinct(dims) && OrdersConsecutive(dims)
  {
    var dims := Snapshot(raws).value;
    SnapshotKeyAt(raws, 0);
    forall i | 0 <= i < |dims|
      ensures dims[i].displayOrder == i + 1
    {
      SnapshotKeyAt(raws, i);
    }
    forall i, j | 0 <= i < j < |dims|
      ensures dims[i].key != dims[j].key
    {
      KeysOfPositionsDiffer(i + 1, j + 1);
      SnapshotKeyAt(raws, i);
      SnapshotKeyAt(raws, j);
    }
  }

  predicate AnchorsComplete(d: Dimension) {
    var trimmed := StripAll(d.anchors);
    |trimmed| == 5 && "" !in trimmed && |set a | a in trimmed| == 5
  }

  function RequireCompleteAnalysisAnchors(dims: seq<Dimension>): Result<(), AIError> {
    if forall d | d in dims :: AnchorsComplete(d) then Ok(()) else Err(IncompleteAnchors)
  }

  // ---------- weights ----------

  function TotalWeight(dims: seq<Dimension>): real {
    if dims == [] then 0.0 else TotalWeight(dims[..|dims| - 1]) + dims[|dims| - 1].weight
  }

  predicate WeightInRange(d: Dimension) {
    0.0 < d.weight <= 100.0
  }

  predicate WeightsValid(dims: seq<Dimension>) {
    && (forall i | 0 <= i < |dims| :: WeightInRange(dims[i]))
    && -WEIGHT_TOLERANCE <= TotalWeight(dims) - 100.0 <= WEIGHT_TOLERANCE
  }

  method ValidateDimensionWeights(dims: seq<Dimension>) returns (r: Result<(), AIError>)
    ensures r == if WeightsValid(dims) then Ok(()) else Err(InvalidDimensionWeights)
  {
    var total := 0.0;
    for i := 0 to |dims|
      invariant forall k | 0 <= k < i :: WeightInRange(dims[k])
      invariant total == TotalWeight(dims[..i])
    {
      var weight := dims[i].weight;
      if weight <= 0.0 || weight > 100.0 {
        return Err(InvalidDimensionWeights);
      }
      total := total + weight;
      assert dims[..i + 1][..i] == dims[..i];
    }
    assert dims[..|dims|] == dims;
    var deviation := total - 100.0;
    if (if deviation < 0.0 then -deviation else deviation) > WEIGHT_TOLERANCE {
      return Err(InvalidDimensionWeights);
    }
    return Ok(());
  }

  // ---------- the overall score ----------

  // Rounding to whole cents, halves away from zero.
  function RoundHalfUp(x: real): real {
    if x < 0.0 then -((-x * 100.0 + 0.5).Floor as real / 100.0)
    else (x * 100.0 + 0.5).Floor as real / 100.0
  }

  predicate ScoreInRange(score: int) {
    1 <= score <= 5
  }

  function Term(score: int, weight: real): real {
    score as real * weight
  }

  // The exact weighted total of one score per dimension.
  function WeightedTotal(dims: seq<Dimension>, scores: seq<int>): real
    requires |dims| == |scores|
  {
    if dims == [] then 0.0
    else
      var n := |dims| - 1;
      WeightedTotal(dims[..n], scores[..n]) + Term(scores[n], dims[n].weight) / 100.0
  }

  type ScoreTable = map<string, Option<int>>

  function SnapshotKeys(dims: seq<Dimension>): set<string> {
    set i | 0 <= i < |dims| :: dims[i].key
  }

  predicate EveryScoreLegal(dims: seq<Dimension>, table: ScoreTable) {
    forall i | 0 <= i < |dims| ::
      dims[i].key in table && (table[dims[i].key].Some? ==> ScoreInRange(table[dims[i].key].value))
  }

  predicate ScoreMissing(dims: seq<Dimension>, table: ScoreTable) {
    exists i | 0 <= i < |dims| :: dims[i].key in table && table[dims[i].key].None?
  }

  function ScoresOf(dims: seq<Dimension>, table: ScoreTable): (scores: seq<int>)
    requires EveryScoreLegal(dims, table) && !ScoreMissing(dims, table)
    ensures |scores| == |dims|
  {
    seq(|dims|, i requires 0 <= i < |dims| && EveryScoreLegal(dims, table) && !ScoreMissing(dims, table) =>
      assert dims[i].key in table;
      table[dims[i].key].value)
  }

  predicate ScoreRequestLegal(dims: seq<Dimension>, table: ScoreTable) {
    WeightsValid(dims) && table.Keys == SnapshotKeys(dims) && EveryScoreLegal(dims, table)
  }

  // What a legal request evaluates to: no score while one dimension lacks one.
  function OverallScore(dims: seq<Dimension>, table: ScoreTable): Option<real>
    requires ScoreRequestLegal(dims, table)
  {
    if ScoreMissing(dims, table) then None
    else Some(RoundHalfUp(WeightedTotal(dims, ScoresOf(dims, table))))
  }

  // The final range check of the code is kept; the contract says that it never fires:
  // the only errors are bad weights, mismatched keys and out-of-range scores.
  method ComputeInterviewOverallScore(dims: seq<Dimension>, table: ScoreTable)
    returns (r: Result<Option<real>, AIError>)
    ensures !WeightsValid(dims) ==> r == Err(InvalidDimensionWeights)
    ensures WeightsValid(dims) && !ScoreRequestLegal(dims, table) ==> r == Err(InvalidInterviewScore)
    ensures ScoreRequestLegal(dims, table) ==> r == Ok(OverallScore(dims, table))
    ensures r.Ok? && r.value.Some? ==> 1.0 <= r.value.value <= 5.0
  {
    var weights := ValidateDimensionWeights(dims);
    if weights.Err? {
      return Err(weights.error);
    }
    if SnapshotKeys(dims) != table.Keys {
      return Err(InvalidInterviewScore);
    }
    var collected := CollectScores(dims, table);
    if collected.Err? {
      return Err(collected.error);
    }
    var scores := collected.value;
    if exists k | 0 <= k < |scores| :: scores[k].None? {
      var k :| 0 <= k < |scores| && scores[k].None?;
      assert table[dims[k].key].None?;
      return Ok(None);
    }
    var total := AccumulateTotal(dims, scores);
    ghost var exact := ScoresOf(dims, table);
    assert Unwrapped(scores) == exact;
    RangeCheckNeverFires(dims, exact);
    var quantized := RoundHalfUp(total);
    if quantized < 1.0 || quantized > 5.0 {
      return Err(InvalidInterviewScore);
    }
    return Ok(Some(quantized));
  }

  method CollectScores(dims: seq<Dimension>, table: ScoreTable)
    returns (r: Result<seq<Option<int>>, AIError>)
    requires SnapshotKeys(dims) == table.Keys
    ensures !EveryScoreLegal(dims, table) ==> r == Err(InvalidInterviewScore)
    ensures EveryScoreLegal(dims, table) ==> r.Ok? && |r.value| == |dims|
    ensures r.Ok? ==> forall k | 0 <= k < |dims| :: dims[k].key in table && r.value[k] == table[dims[k].key]
  {
    var scores: seq<Option<int>> := [];
    for i := 0 to |dims|
      invariant |scores| == i
      invariant forall k | 0 <= k < i :: dims[k].key in table && scores[k] == table[dims[k].key]
      invariant forall k | 0 <= k < i :: scores[k].Some? ==> ScoreInRange(scores[k].value)
    {
      assert dims[i].key in SnapshotKeys(dims);
      var score := table[dims[i].key];
      if score.Some? && !(1 <= score.value <= 5) {
        return Err(InvalidInterviewScore);
      }
      scores := scores + [score];
    }
    return Ok(scores);
  }

  function Unwrapped(scores: seq<Option<int>>): (r: seq<int>)
    requires forall k | 0 <= k < |scores| :: scores[k].Some?
    ensures |r| == |scores|
  {
    seq(|scores|, k requires 0 <= k < |scores| && scores[k].Some? => scores[k].value)
  }

  method AccumulateTotal(dims: seq<Dimension>, scores: seq<Option<int>>) returns (total: real)
    requires |dims| == |scores| && forall k | 0 <= k < |scores| :: scores[k].Some?
    ensures total == WeightedTotal(dims, Unwrapped(scores))
  {
    ghost var exact := Unwrapped(scores);
    total := 0.0;
    for i := 0 to |dims|
      invariant total == WeightedTotal(dims[..i], exact[..i])
    {
      total := total + Term(scores[i].value, dims[i].weight) / 100.0;
      assert dims[..i + 1][..i] == dims[..i] && exact[..i + 1][..i] == exact[..i];
    }
    assert dims[..|dims|] == dims && exact[..|dims|] == exact;
  }

  // ---------- rounding ----------

  lemma {:induction false} RoundingIsNearest(x: real)
    requires x >= 0.0
    ensures -0.005 <= RoundHalfUp(x) - x <= 0.005
  {
    var y := x * 100.0 + 0.5;
    assert y.Floor as real <= y < y.Floor as real + 1.0;
  }

  lemma {:induction false} RoundingIsMonotone(x: real, y: real)
    requires 0.0 <= x <= y
    ensures RoundHalfUp(x) <= RoundHalfUp(y)
  {
    assert (x * 100.0 + 0.5).Floor <= (y * 100.0 + 0.5).Floor;
  }

  // A value less than half a cent from a whole cent rounds to it.
  lemma {:induction false} RoundingSnaps(x: real, cents: int)
    requires x >= 0.0 && -0.005 <= x - cents as real / 100.0 < 0.005
    ensures RoundHalfUp(x) == cents as real / 100.0
  {
    var y := x * 100.0 + 0.5;
    assert cents as real <= y < cents as real + 1.0;
    assert y.Floor == cents;
  }

  // ---------- the weighted total ----------

  lemma {:induction false} ScoreTermBounds(score: int, weight: real)
    requires ScoreInRange(score) && weight > 0.0
    ensures weight <= Term(score, weight) <= 5.0 * weight
  {
    if score == 1 {
      assert Term(score, weight) == 1.0 * weight;
    } else if score == 2 {
      assert Term(score, weight) == 2.0 * weight;
    } else if score == 3 {
      assert Term(score, weight) == 3.0 * weight;
    } else if score == 4 {
      assert Term(score, weight) == 4.0 * weight;
    } else {
      assert score == 5;
      assert Term(score, weight) == 5.0 * weight;
    }
  }

  // The recursive steps of both sums, without their divisions and slices.
  lemma {:induction false} WeightedTotalStep(dims: seq<Dimension>, scores: seq<int>)
    returns (ds: seq<Dimension>, ss: seq<int>, term: real)
    requires |dims| == |scores| && dims != []
    ensures ds == dims[..|dims| - 1] && ss == scores[..|dims| - 1]
    ensures term == Term(scores[|dims| - 1], dims[|dims| - 1].weight)
    ensures 100.0 * WeightedTotal(dims, scores) == 100.0 * WeightedTotal(ds, ss) + term
    ensures TotalWeight(dims) == TotalWeight(ds) + dims[|dims| - 1].weight
  {
    ds, ss := dims[..|dims| - 1], scores[..|dims| - 1];
    term := Term(scores[|dims| - 1], dims[|dims| - 1].weight);
    assert WeightedTotal(dims, scores) == WeightedTotal(ds, ss) + term / 100.0;
  }

  lemma {:induction false} WeightedTotalBounds(dims: seq<Dimension>, scores: seq<int>)
    requires |dims| == |scores|
    requires forall i | 0 <= i < |dims| :: WeightInRange(dims[i]) && ScoreInRange(scores[i])
    ensures TotalWeight(dims) <= 100.0 * WeightedTotal(dims, scores) <= 5.0 * TotalWeight(dims)
  {
    if dims != [] {
      var w := dims[|dims| - 1].weight;
      var ds, ss, term := WeightedTotalStep(dims, scores);
      WeightedTotalBounds(ds, ss);
      ScoreTermBounds(scores[|dims| - 1], w);
      BoundsAdd(100.0 * WeightedTotal(ds, ss), TotalWeight(ds), term, w);
      assert 100.0 * WeightedTotal(dims, scores) == 100.0 * WeightedTotal(ds, ss) + term;
      assert TotalWeight(dims) == TotalWeight(ds) + w;
    }
  }

  lemma {:induction false} BoundsAdd(total: real, weights: real, term: real, weight: real)
    requires weights <= total <= 5.0 * weights && weight <= term <= 5.0 * weight
    ensures weights + weight <= total + term <= 5.0 * (weights + weight)
  {
  }

  lemma {:induction false} WeightedTotalMonotone(dims: seq<Dimension>, low: seq<int>, high: seq<int>)
    requires |dims| == |low| == |high|
    requires forall i | 0 <= i < |dims| :: WeightInRange(dims[i]) && low[i] <= high[i]
    ensures WeightedTotal(dims, low) <= WeightedTotal(dims, high)
  {
    if dims != [] {
      var n := |dims| - 1;
      var ds, ls, a := WeightedTotalStep(dims, low);
      var _, hs, b := WeightedTotalStep(dims, high);
      WeightedTotalMonotone(ds, ls, hs);
      ScoreTermMonotone(low[n], high[n], dims[n].weight);
    }
  }

  lemma {:induction false} ScoreTermMonotone(low: int, high: int, weight: real)
    requires low <= high && weight > 0.0
    ensures Term(low, weight) <= Term(high, weight)
  {
    var d := (high - low) as real;
    assert d * weight >= 0.0;
    assert Term(high, weight) == Term(low, weight) + d * weight;
  }

  lemma {:induction false} WeightedTotalConstant(dims: seq<Dimension>, scores: seq<int>, s: int)
    requires |dims| == |scores| && forall i | 0 <= i < |dims| :: scores[i] == s
    ensures 100.0 * WeightedTotal(dims, scores) == s as real * TotalWeight(dims)
  {
    if dims != [] {
      var ds, ss, term := WeightedTotalStep(dims, scores);
      WeightedTotalConstant(ds, ss, s);
    }
  }

  predicate Scored(dims: seq<Dimension>, scores: seq<int>) {
    && WeightsValid(dims) && |dims| == |scores|
    && forall i | 0 <= i < |dims| :: ScoreInRange(scores[i])
  }

  // The rounded total of valid weights and scores always lies in [1.00, 5.00].
  lemma {:induction false} RangeCheckNeverFires(dims: seq<Dimension>, scores: seq<int>)
    requires Scored(dims, scores)
    ensures 1.0 <= RoundHalfUp(WeightedTotal(dims, scores)) <= 5.0
  {
    WeightedTotalBounds(dims, scores);
    var t := WeightedTotal(dims, scores);
    assert 0.9999 <= t <= 5.0005;
    RoundingSnaps(0.9999, 100);
    RoundingSnaps(5.0005, 500);
    RoundingIsMonotone(0.9999, t);
    RoundingIsMonotone(t, 5.0005);
  }

  // The reported score is within half a cent of the exact weighted total.
  lemma {:induction false} ScoreIsAccurate(dims: seq<Dimension>, scores: seq<int>)
    requires Scored(dims, scores)
    ensures var t := WeightedTotal(dims, scores); -0.005 <= RoundHalfUp(t) - t <= 0.005
  {
    WeightedTotalBounds(dims, scores);
    RoundingIsNearest(WeightedTotal(dims, scores));
  }

  // Raising scores never lowers the reported score.
  lemma {:induction false} ScoreIsMonotone(dims: seq<Dimension>, low: seq<int>, high: seq<int>)
    requires Scored(dims, low) && Scored(dims, high)
    requires forall i | 0 <= i < |dims| :: low[i] <= high[i]
    ensures RoundHalfUp(WeightedTotal(dims, low)) <= RoundHalfUp(WeightedTotal(dims, high))
  {
    WeightedTotalBounds(dims, low);
    WeightedTotalMonotone(dims, low, high);
    RoundingIsMonotone(WeightedTotal(dims, low), WeightedTotal(dims, high));
  }

  // Equal scores are reported exactly, however the weights miss 100 within tolerance.
  lemma {:induction false} UniformScoreIsExact(dims: seq<Dimension>, scores: seq<int>, s: int)
    requires Scored(dims, scores) && ScoreInRange(s) && forall i | 0 <= i < |dims| :: scores[i] == s
    ensures RoundHalfUp(WeightedTotal(dims, scores)) == s as real
  {
    WeightedTotalConstant(dims, scores, s);
    var t, w := WeightedTotal(dims, scores), TotalWeight(dims);
    assert t == s as real * w / 100.0;
    UniformTermBound(s, w);
    RoundingSnaps(t, 100 * s);
  }

  lemma {:induction false} UniformTermBound(s: int, w: real)
    requires ScoreInRange(s) && 99.99 <= w <= 100.01
    ensures -0.005 <= s as real * w / 100.0 - s as real < 0.005 && s as real * w / 100.0 >= 0.0
  {
    var e := w - 100.0;
    assert s as real * w == 100.0 * s as real + s as real * e;
    ScaledErrorBound(s, e);
  }

  lemma {:induction false} ScaledErrorBound(s: int, e: real)
    requires ScoreInRange(s) && -0.01 <= e <= 0.01
    ensures -0.05 <= s as real * e <= 0.05
  {
    if s == 1 {
    } else if s == 2 {
    } else if s == 3 {
    } else if s == 4 {
    } else {
    }
  }

  // ---------- what the operations mean ----------

  function DigitValue(c: char): int {
    c as int - '0' as int
  }

  // A key is D and the three digits of its position.
  lemma {:induction false} KeyShowsPosition(position: int)
    ensures AllocateDimensionKey(position).Ok? <==> 1 <= position <= 999
    ensures 1 <= position <= 999 ==>
              var key := AllocateDimensionKey(position).value;
              && |key| == 4 && key[0] == 'D'
              && (forall k | 1 <= k <= 3 :: '0' <= key[k] <= '9')
              && position == 100 * DigitValue(key[1]) + 10 * DigitValue(key[2]) + DigitValue(key[3])
  {
    if 1 <= position <= 999 {
      ThreeDigits(position);
    }
  }

  // A raw list is accepted exactly when it has 1 to 50 items, each with a name that is not blank,
  // a weight, and no malformed field; the snapshot then holds the items' stripped texts and weights.
  lemma {:induction false} SnapshotIff(raws: seq<RawDimension>)
    ensures Snapshot(raws).Ok? <==>
            && 1 <= |raws| <= 50
            && forall i | 0 <= i < |raws| ::
                 && raws[i].RawDimension?
                 && raws[i].name.Present? && Text.Strip(raws[i].name.value) != ""
                 && raws[i].weight.Present?
                 && (raws[i].description.Absent? || raws[i].description.Present?)
                 && (raws[i].anchors.Absent? || raws[i].anchors.Present?)
    ensures Snapshot(raws).Ok? ==>
              var dims := Snapshot(raws).value;
              |dims| == |raws| && forall i | 0 <= i < |raws| :: Shows(dims[i], i, raws[i])
  {
  }

  predicate Shows(dim: Dimension, i: nat, raw: RawDimension) {
    && raw.RawDimension? && raw.name.Present? && raw.weight.Present?
    && Ok(dim.key) == AllocateDimensionKey(i + 1)
    && dim.displayOrder == i + 1
    && dim.name == Text.Strip(raw.name.value)
    && dim.weight == raw.weight.value
    && dim.description == (if raw.description.Present? then Text.Strip(raw.description.value) else "")
    && |dim.anchors| == (if raw.anchors.Present? then |raw.anchors.value| else 0)
    && forall k | 0 <= k < |dim.anchors| :: dim.anchors[k] == Text.Strip(raw.anchors.value[k])
  }

  // Anchors are complete exactly when there are five, none blank, and no two alike once stripped.
  lemma {:induction false} AnchorsCompleteIff(dims: seq<Dimension>)
    ensures RequireCompleteAnalysisAnchors(dims).Ok? <==>
            forall i | 0 <= i < |dims| :: FiveDifferentAnchors(dims[i].anchors)
  {
    forall i | 0 <= i < |dims|
      ensures AnchorsComplete(dims[i]) <==> FiveDifferentAnchors(dims[i].anchors)
    {
      AnchorsOfOne(dims[i]);
    }
    assert forall i | 0 <= i < |dims| :: dims[i] in dims;
  }

  predicate FiveDifferentAnchors(anchors: seq<string>) {
    && |anchors| == 5
    && (forall k | 0 <= k < 5 :: Text.Strip(anchors[k]) != "")
    && (forall j, k | 0 <= j < k < 5 :: Text.Strip(anchors[j]) != Text.Strip(anchors[k]))
  }

  lemma {:induction false} AnchorsOfOne(d: Dimension)
    ensures AnchorsComplete(d) <==> FiveDifferentAnchors(d.anchors)
  {
    var trimmed := StripAll(d.anchors);
    CountTellsDistinct(trimmed);
    assert forall k | 0 <= k < |trimmed| :: trimmed[k] in trimmed && trimmed[k] == Text.Strip(d.anchors[k]);
  }

  predicate AllScored(dims: seq<Dimension>, table: ScoreTable) {
    forall i | 0 <= i < |dims| :: dims[i].key in table && table[dims[i].key].Some?
  }

  // The exact weighted sum of the scores that a table holds.
  function TableTotal(dims: seq<Dimension>, table: ScoreTable): real
    requires AllScored(dims, table)
  {
    if dims == [] then 0.0
    else
      var n := |dims| - 1;
      TableTotal(dims[..n], table) + table[dims[n].key].value as real * dims[n].weight / 100.0
  }

  lemma {:induction false} TotalOfTable(dims: seq<Dimension>, table: ScoreTable, scores: seq<int>)
    requires AllScored(dims, table) && |scores| == |dims|
    requires forall i | 0 <= i < |dims| :: scores[i] == table[dims[i].key].value
    ensures WeightedTotal(dims, scores) == TableTotal(dims, table)
  {
    if dims != [] {
      var n := |dims| - 1;
      TotalOfTable(dims[..n], table, scores[..n]);
      assert Term(scores[n], dims[n].weight) == table[dims[n].key].value as real * dims[n].weight;
    }
  }

  predicate HalfUpCent(x: real, v: real, cents: int) {
    v == cents as real / 100.0 && -0.005 < v - x <= 0.005
  }

  // The value is the whole number of cents nearest to x, the upper one if there are two.
  ghost predicate NearestCent(x: real, v: real) {
    exists cents: int :: HalfUpCent(x, v, cents)
  }

  lemma {:induction false} RoundingIsHalfUp(x: real)
    requires x >= 0.0
    ensures NearestCent(x, RoundHalfUp(x))
  {
    var y := x * 100.0 + 0.5;
    assert y.Floor as real <= y < y.Floor as real + 1.0;
    assert HalfUpCent(x, RoundHalfUp(x), y.Floor);
  }

  // A request is legal exactly for weights in (0, 100] that sum to 100 within 0.01, and a table of
  // exactly the snapshot's keys whose scores are absent or from 1 to 5. There is no overall score
  // exactly if some dimension has none; otherwise it is the weighted sum of the table's scores,
  // rounded half up to cents.
  lemma {:induction false} OverallScoreOfTable(dims: seq<Dimension>, table: ScoreTable)
    ensures ScoreRequestLegal(dims, table) <==>
            && (forall i | 0 <= i < |dims| :: 0.0 < dims[i].weight <= 100.0)
            && 99.99 <= TotalWeight(dims) <= 100.01
            && table.Keys == (set i | 0 <= i < |dims| :: dims[i].key)
            && forall k | k in table :: table[k].None? || 1 <= table[k].value <= 5
    ensures ScoreRequestLegal(dims, table) ==>
              && (OverallScore(dims, table).None? <==> exists i | 0 <= i < |dims| :: table[dims[i].key].None?)
              && (OverallScore(dims, table).Some? ==>
                    AllScored(dims, table) && NearestCent(TableTotal(dims, table), OverallScore(dims, table).value))
  {
    LegalIff(dims, table);
    if ScoreRequestLegal(dims, table) {
      assert forall i | 0 <= i < |dims| :: dims[i].key in SnapshotKeys(dims);
      if !ScoreMissing(dims, table) {
        var scores := ScoresOf(dims, table);
        TotalOfTable(dims, table, scores);
        WeightedTotalBounds(dims, scores);
        RoundingIsHalfUp(WeightedTotal(dims, scores));
      }
    }
  }

  lemma {:induction false} LegalIff(dims: seq<Dimension>, table: ScoreTable)
    ensures table.Keys == SnapshotKeys(dims) <==> table.Keys == (set i | 0 <= i < |dims| :: dims[i].key)
    ensures table.Keys == SnapshotKeys(dims) ==>
              (EveryScoreLegal(dims, table) <==> forall k | k in table :: table[k].None? || 1 <= table[k].value <= 5)
  {
    if table.Keys == SnapshotKeys(dims) && EveryScoreLegal(dims, table) {
      forall k | k in table
        ensures table[k].None? || 1 <= table[k].value <= 5
      {
        assert k in SnapshotKeys(dims);
        var i :| 0 <= i < |dims| && dims[i].key == k;
      }
    }
    if table.Keys == SnapshotKeys(dims) {
      assert forall i | 0 <= i < |dims| :: dims[i].key in SnapshotKeys(dims);
    }
  }

  // Raising entries of the table never lowers the overall score.
  lemma {:induction false} RaisingScoresRaisesOverall(dims: seq<Dimension>, low: ScoreTable, high: ScoreTable)
    requires ScoreRequestLegal(dims, low) && ScoreRequestLegal(dims, high)
    requires AllScored(dims, low) && AllScored(dims, high)
    requires forall i | 0 <= i < |dims| :: low[dims[i].key].value <= high[dims[i].key].value
    ensures OverallScore(dims, low).Some? && OverallScore(dims, high).Some?
    ensures OverallScore(dims, low).value <= OverallScore(dims, high).value
  {
    ScoreIsMonotone(dims, ScoresOf(dims, low), ScoresOf(dims, high));
  }

  // The same score everywhere is reported exactly.
  lemma {:induction false} UniformTableIsExact(dims: seq<Dimension>, table: ScoreTable, s: int)
    requires ScoreRequestLegal(dims, table) && forall i | 0 <= i < |dims| :: table[dims[i].key] == Some(s)
    ensures OverallScore(dims, table) == Some(s as real)
  {
    NoWeightsNoTotal(dims);
    assert ScoreInRange(table[dims[0].key].value);
    UniformScoreIsExact(dims, ScoresOf(dims, table), s);
  }

  lemma {:induction false} NoWeightsNoTotal(dims: seq<Dimension>)
    requires WeightsValid(dims)
    ensures dims != []
  {
  }
}
