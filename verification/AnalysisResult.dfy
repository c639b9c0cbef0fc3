// Validation of the AI output of a single-round analysis against its frozen input
// (interview_ai_validation.py), and the rows that an accepted output is stored as
// (interview_analyses.py).
module AnalysisResult {
  import opened Common
  import opened Scoring
  import Text

  datatype EvidenceSegment = EvidenceSegment(
    id: Id, versionId: Id, segmentNo: int, included: bool, text: string)

  datatype EvidenceRef = EvidenceRef(segmentId: Id, segmentNo: int, quote: string)

  datatype DimensionResult = DimensionResult(
    key: string, score: Option<int>, evidence: seq<EvidenceRef>, analysis: string,
    strengths: seq<string>, risks: seq<string>, insufficient: Option<string>, followUps: seq<string>)

  datatype AnalyzeResult = AnalyzeResult(dimensions: seq<DimensionResult>, overallSummary: string)

  type Catalog = map<Id, EvidenceSegment>

  predicate SegmentIdsDistinct(segments: seq<EvidenceSegment>) {
    forall i, j | 0 <= i < j < |segments| :: segments[i].id != segments[j].id
  }

  function CatalogOf(segments: seq<EvidenceSegment>): Catalog {
    if segments == [] then map[]
    else
      var last := segments[|segments| - 1];
      CatalogOf(segments[..|segments| - 1])[last.id := last]
  }

  lemma {:induction false} CatalogContents(segments: seq<EvidenceSegment>)
    ensures forall id | id in CatalogOf(segments) :: CatalogOf(segments)[id] in segments && CatalogOf(segments)[id].id == id
    ensures forall i | 0 <= i < |segments| :: segments[i].id in CatalogOf(segments)
  {
    if segments != [] {
      CatalogContents(segments[..|segments| - 1]);
    }
  }

  lemma {:induction false} CatalogStep(segments: seq<EvidenceSegment>, i: nat)
    requires i < |segments| && SegmentIdsDistinct(segments[..i])
    ensures CatalogOf(segments[..i + 1]) == CatalogOf(segments[..i])[segments[i].id := segments[i]]
    ensures SegmentIdsDistinct(segments[..i + 1]) <==> segments[i].id !in CatalogOf(segments[..i])
  {
    var shorter, longer := segments[..i], segments[..i + 1];
    assert longer[..i] == shorter;
    CatalogContents(shorter);
    if segments[i].id in CatalogOf(shorter) {
      var j :| 0 <= j < i && shorter[j] == CatalogOf(shorter)[segments[i].id];
      assert longer[j].id == longer[i].id;
    }
  }

  lemma {:induction false} DistinctPrefix(segments: seq<EvidenceSegment>, i: nat)
    requires i <= |segments| && SegmentIdsDistinct(segments)
    ensures SegmentIdsDistinct(segments[..i])
  {
  }

  method SegmentCatalog(segments: seq<EvidenceSegment>) returns (r: Result<Catalog, AIError>)
    ensures r == if SegmentIdsDistinct(segments) then Ok(CatalogOf(segments)) else Err(InvalidEvidence)
  {
    var catalog: Catalog := map[];
    for i := 0 to |segments|
      invariant SegmentIdsDistinct(segments[..i])
      invariant catalog == CatalogOf(segments[..i])
    {
      CatalogStep(segments, i);
      if segments[i].id in catalog {
        if SegmentIdsDistinct(segments) {
          DistinctPrefix(segments, i + 1);
          assert false;
        }
        return Err(InvalidEvidence);
      }
      catalog := catalog[segments[i].id := segments[i]];
    }
    assert segments[..|segments|] == segments;
    return Ok(catalog);
  }

  // ---------- evidence ----------

  predicate QuoteInSegment(text: string, quote: string) {
    && Text.NormalizeEvidenceText(text).Ok?
    && Text.NormalizeEvidenceText(quote).Ok?
    && Text.Contains(Text.NormalizeEvidenceText(text).value, Text.NormalizeEvidenceText(quote).value)
  }

  // One reference names an included segment of the frozen version, by its right number,
  // and quotes it.
  predicate RefSupported(ref: EvidenceRef, catalog: Catalog, versionId: Id) {
    && ref.segmentId in catalog
    && var segment := catalog[ref.segmentId];
       && segment.versionId == versionId
       && segment.included
       && segment.segmentNo == ref.segmentNo
       && QuoteInSegment(segment.text, ref.quote)
  }

  predicate RefsDistinct(refs: seq<EvidenceRef>) {
    forall i, j | 0 <= i < j < |refs| :: refs[i].segmentId != refs[j].segmentId
  }

  predicate EvidenceValid(refs: seq<EvidenceRef>, catalog: Catalog, versionId: Id) {
    && RefsDistinct(refs)
    && forall i | 0 <= i < |refs| :: RefSupported(refs[i], catalog, versionId)
  }

  method ValidateEvidence(refs: seq<EvidenceRef>, catalog: Catalog, versionId: Id) returns (r: Result<(), AIError>)
    ensures r == if EvidenceValid(refs, catalog, versionId) then Ok(()) else Err(InvalidEvidence)
  {
    var seen: set<Id> := {};
    for i := 0 to |refs|
      invariant EvidenceValid(refs[..i], catalog, versionId)
      invariant seen == set k | 0 <= k < i :: refs[k].segmentId
    {
      var ref := refs[i];
      assert refs[..i + 1] == refs[..i] + [ref];
      if ref.segmentId in seen {
        return Err(InvalidEvidence);
      }
      seen := seen + {ref.segmentId};
      if !RefSupported(ref, catalog, versionId) {
        return Err(InvalidEvidence);
      }
    }
    assert refs[..|refs|] == refs;
    return Ok(());
  }

  // Any non-blank contiguous piece of an included segment is accepted as its evidence.
  lemma {:induction false} VerbatimQuoteIsAccepted(segment: EvidenceSegment, catalog: Catalog, a: string,
                                        quote: string, b: string)
    requires segment.id in catalog && catalog[segment.id] == segment && segment.included
    requires segment.text == a + quote + b && !Text.Blank(quote)
    ensures RefSupported(EvidenceRef(segment.id, segment.segmentNo, quote), catalog, segment.versionId)
  {
    Text.VerbatimQuoteIsFound(a, quote, b);
  }

  // A reference is accepted exactly when it names an included segment of the frozen version by
  // its number, and its quote is, up to white space, a contiguous piece of that segment's text.
  lemma {:induction false} RefSupportedIff(ref: EvidenceRef, catalog: Catalog, versionId: Id)
    ensures RefSupported(ref, catalog, versionId) <==>
            && ref.segmentId in catalog
            && catalog[ref.segmentId].versionId == versionId
            && catalog[ref.segmentId].included
            && catalog[ref.segmentId].segmentNo == ref.segmentNo
            && !Text.Blank(ref.quote)
            && Text.HasPiece(catalog[ref.segmentId].text, Text.Canonical(ref.quote))
  {
    if ref.segmentId in catalog {
      QuoteInSegmentIff(catalog[ref.segmentId].text, ref.quote);
    }
  }

  lemma {:induction false} QuoteInSegmentIff(text: string, quote: string)
    ensures QuoteInSegment(text, quote) <==> !Text.Blank(quote) && Text.HasPiece(text, Text.Canonical(quote))
  {
    Text.NormalizeFailsIffBlank(quote);
    if !Text.Blank(quote) {
      Text.QuoteFoundIffVerbatimPiece(text, quote);
      if Text.HasPiece(text, Text.Canonical(quote)) {
        var a, piece, b :| Text.IsPiece(text, Text.Canonical(quote), a, piece, b);
        Text.VerbatimQuoteIsFound(a, piece, b);
      }
    }
  }

  // ---------- the whole result ----------

  function KeysOf(items: seq<DimensionResult>): set<string> {
    set i | 0 <= i < |items| :: items[i].key
  }

  predicate ItemKeysDistinct(items: seq<DimensionResult>) {
    forall i, j | 0 <= i < j < |items| :: items[i].key != items[j].key
  }

  type ItemsByKey = map<string, DimensionResult>

  // The results by dimension key; a later one takes the place of an earlier one.
  function ByKey(items: seq<DimensionResult>): ItemsByKey {
    if items == [] then map[]
    else
      var last := items[|items| - 1];
      ByKey(items[..|items| - 1])[last.key := last]
  }

  lemma {:induction false} ByKeyContents(items: seq<DimensionResult>)
    ensures ByKey(items).Keys == KeysOf(items)
    ensures forall k | k in ByKey(items) :: ByKey(items)[k].key == k && ByKey(items)[k] in items
  {
    if items != [] {
      var n := |items| - 1;
      ByKeyContents(items[..n]);
      assert items == items[..n] + [items[n]];
      assert KeysOf(items) == KeysOf(items[..n]) + {items[n].key};
    }
  }

  predicate InsufficientGiven(item: DimensionResult) {
    item.insufficient.Some? && !Text.Blank(item.insufficient.value)
  }

  // A missing score needs an explanation; a score forbids one and needs evidence.
  predicate ItemAccepted(item: DimensionResult, catalog: Catalog, versionId: Id) {
    && (if item.score.None? then InsufficientGiven(item) else !InsufficientGiven(item) && item.evidence != [])
    && EvidenceValid(item.evidence, catalog, versionId)
  }

  function ScoreTableOf(byKey: ItemsByKey): ScoreTable {
    map k | k in byKey :: byKey[k].score
  }

  predicate KeysMatch(result: AnalyzeResult, dims: seq<Dimension>) {
    ItemKeysDistinct(result.dimensions) && KeysOf(result.dimensions) == SnapshotKeys(dims)
  }

  predicate ItemsAccepted(dims: seq<Dimension>, byKey: ItemsByKey, catalog: Catalog, versionId: Id) {
    forall i | 0 <= i < |dims| :: dims[i].key in byKey && ItemAccepted(byKey[dims[i].key], catalog, versionId)
  }

  predicate AnalysisAccepted(result: AnalyzeResult, dims: seq<Dimension>, versionId: Id, segments: seq<EvidenceSegment>) {
    && KeysMatch(result, dims)
    && SegmentIdsDistinct(segments)
    && ItemsAccepted(dims, ByKey(result.dimensions), CatalogOf(segments), versionId)
    && ScoreRequestLegal(dims, ScoreTableOf(ByKey(result.dimensions)))
  }

  method CheckResultKeys(items: seq<DimensionResult>, dims: seq<Dimension>) returns (r: Result<(), AIError>)
    ensures r == if ItemKeysDistinct(items) && KeysOf(items) == SnapshotKeys(dims) then Ok(()) else Err(InvalidAnalysisResult)
  {
    var seen: set<string> := {};
    for i := 0 to |items|
      invariant ItemKeysDistinct(items[..i])
      invariant seen == set k | 0 <= k < i :: items[k].key
    {
      if items[i].key in seen {
        return Err(InvalidAnalysisResult);
      }
      seen := seen + {items[i].key};
    }
    assert items[..|items|] == items;
    if SnapshotKeys(dims) - seen != {} || seen - SnapshotKeys(dims) != {} {
      return Err(InvalidAnalysisResult);
    }
    return Ok(());
  }

  method ValidateAnalysisResult(result: AnalyzeResult, dims: seq<Dimension>, versionId: Id, segments: seq<EvidenceSegment>)
    returns (r: Result<Option<real>, AIError>)
    ensures r.Ok? <==> AnalysisAccepted(result, dims, versionId, segments)
    ensures r.Ok? ==> r.value == OverallScore(dims, ScoreTableOf(ByKey(result.dimensions)))
    ensures r.Ok? && r.value.Some? ==> 1.0 <= r.value.value <= 5.0
  {
    var keys := CheckResultKeys(result.dimensions, dims);
    if keys.Err? {
      return Err(keys.error);
    }
    var catalog := SegmentCatalog(segments);
    if catalog.Err? {
      return Err(catalog.error);
    }
    var byKey := ByKey(result.dimensions);
    ByKeyContents(result.dimensions);
    var items := ValidateItems(dims, byKey, catalog.value, versionId);
    if items.Err? {
      return Err(items.error);
    }
    r := ComputeInterviewOverallScore(dims, items.value);
  }

  method ValidateItems(dims: seq<Dimension>, byKey: ItemsByKey, catalog: Catalog, versionId: Id)
    returns (r: Result<ScoreTable, AIError>)
    requires byKey.Keys == SnapshotKeys(dims)
    requires forall k | k in byKey :: byKey[k].key == k
    ensures r.Ok? <==> ItemsAccepted(dims, byKey, catalog, versionId)
    ensures r.Ok? ==> r.value == ScoreTableOf(byKey)
  {
    var scores: ScoreTable := map[];
    for i := 0 to |dims|
      invariant forall k | 0 <= k < i :: dims[k].key in byKey && ItemAccepted(byKey[dims[k].key], catalog, versionId)
      invariant scores.Keys == set k | 0 <= k < i :: dims[k].key
      invariant forall k | k in scores :: k in byKey && scores[k] == byKey[k].score
    {
      assert dims[i].key in SnapshotKeys(dims);
      var item := byKey[dims[i].key];
      var insufficient := item.insufficient.Some? && !Text.Blank(item.insufficient.value);
      if item.score.None? {
        if !insufficient {
          return Err(InvalidAnalysisResult);
        }
      } else if insufficient || item.evidence == [] {
        return Err(InvalidAnalysisResult);
      }
      var evidence := ValidateEvidence(item.evidence, catalog, versionId);
      if evidence.Err? {
        return Err(evidence.error);
      }
      scores := scores[item.key := item.score];
    }
    assert scores.Keys == SnapshotKeys(dims);
    return Ok(scores);
  }

  // ---------- the stored rows ----------

  datatype DimensionRow = DimensionRow(
    key: string, name: string, weight: real, score: Option<int>, analysis: string,
    strengths: seq<string>, risks: seq<string>, insufficient: Option<string>,
    followUps: seq<string>, displayOrder: nat, evidence: seq<EvidenceRef>)

  function RowOf(dim: Dimension, item: DimensionResult): DimensionRow {
    DimensionRow(dim.key, dim.name, dim.weight, item.score, item.analysis, item.strengths, item.risks,
                 if item.score.None? then item.insufficient else None,
                 item.followUps, dim.displayOrder, item.evidence)
  }

  function RowsOf(dims: seq<Dimension>, byKey: ItemsByKey): seq<DimensionRow>
    requires forall i | 0 <= i < |dims| :: dims[i].key in byKey
  {
    if dims == [] then []
    else
      var n := |dims| - 1;
      RowsOf(dims[..n], byKey) + [RowOf(dims[n], byKey[dims[n].key])]
  }

  lemma {:induction false} RowsPointwise(dims: seq<Dimension>, byKey: ItemsByKey)
    requires forall i | 0 <= i < |dims| :: dims[i].key in byKey
    ensures |RowsOf(dims, byKey)| == |dims|
    ensures forall i | 0 <= i < |dims| :: RowsOf(dims, byKey)[i] == RowOf(dims[i], byKey[dims[i].key])
  {
    if dims != [] {
      RowsPointwise(dims[..|dims| - 1], byKey);
    }
  }

  method BuildRows(dims: seq<Dimension>, byKey: ItemsByKey) returns (rows: seq<DimensionRow>)
    requires forall i | 0 <= i < |dims| :: dims[i].key in byKey
    ensures rows == RowsOf(dims, byKey)
  {
    rows := [];
    for i := 0 to |dims|
      invariant rows == RowsOf(dims[..i], byKey)
    {
      rows := rows + [RowOf(dims[i], byKey[dims[i].key])];
      assert dims[..i + 1][..i] == dims[..i];
    }
    assert dims[..|dims|] == dims;
  }

  // The check and uniqueness constraints of the analysis dimension and evidence tables.
  ghost predicate RowLegal(row: DimensionRow, segments: seq<EvidenceSegment>, versionId: Id) {
    && row.displayOrder > 0
    && 0.0 < row.weight <= 100.0
    && (row.score.Some? ==> ScoreInRange(row.score.value))
    && (row.score.Some? <==> row.insufficient.None?)
    && (row.score.Some? ==> row.evidence != [])
    && (row.insufficient.Some? ==> !Text.Blank(row.insufficient.value))
    && RefsDistinct(row.evidence)
    && forall i | 0 <= i < |row.evidence| :: EvidenceRowLegal(row.evidence[i], segments, versionId)
  }

  // The quote of a stored row is, up to white space, a contiguous piece of its segment's text.
  ghost predicate IsSourceOf(segment: EvidenceSegment, ref: EvidenceRef, versionId: Id) {
    && segment.id == ref.segmentId
    && segment.versionId == versionId
    && segment.included
    && segment.segmentNo == ref.segmentNo
    && !Text.Blank(ref.quote)
    && Text.HasPiece(segment.text, Text.Canonical(ref.quote))
  }

  ghost predicate EvidenceRowLegal(ref: EvidenceRef, segments: seq<EvidenceSegment>, versionId: Id) {
    && ref.segmentNo > 0
    && exists i | 0 <= i < |segments| :: IsSourceOf(segments[i], ref, versionId)
  }

  ghost predicate RowsLegal(rows: seq<DimensionRow>, dims: seq<Dimension>, segments: seq<EvidenceSegment>, versionId: Id) {
    && |rows| == |dims|
    && (forall i | 0 <= i < |rows| :: rows[i].key == dims[i].key && rows[i].name == dims[i].name)
    && (forall i, j | 0 <= i < j < |rows| :: rows[i].key != rows[j].key)
    && (forall i, j | 0 <= i < j < |rows| :: rows[i].displayOrder != rows[j].displayOrder)
    && (forall i | 0 <= i < |rows| :: RowLegal(rows[i], segments, versionId))
  }

  lemma {:induction false} SupportedRefHasSource(ref: EvidenceRef, segments: seq<EvidenceSegment>, versionId: Id)
    requires RefSupported(ref, CatalogOf(segments), versionId)
    requires forall i | 0 <= i < |segments| :: segments[i].segmentNo > 0
    ensures EvidenceRowLegal(ref, segments, versionId)
  {
    CatalogContents(segments);
    RefSupportedIff(ref, CatalogOf(segments), versionId);
    var segment := CatalogOf(segments)[ref.segmentId];
    var i :| 0 <= i < |segments| && segments[i] == segment;
    assert IsSourceOf(segments[i], ref, versionId);
  }

  // An accepted output is stored as one row per snapshot dimension, in snapshot order, and
  // every row meets the table constraints.
  lemma {:induction false} AcceptedRowsAreLegal(result: AnalyzeResult, dims: seq<Dimension>, versionId: Id,
                                        segments: seq<EvidenceSegment>)
    requires AnalysisAccepted(result, dims, versionId, segments)
    requires KeysDistinct(dims) && OrdersConsecutive(dims)
    requires forall i | 0 <= i < |segments| :: segments[i].segmentNo > 0
    ensures forall i | 0 <= i < |dims| :: dims[i].key in ByKey(result.dimensions)
    ensures RowsLegal(RowsOf(dims, ByKey(result.dimensions)), dims, segments, versionId)
  {
    var byKey := ByKey(result.dimensions);
    var rows := RowsOf(dims, byKey);
    RowsPointwise(dims, byKey);
    forall i | 0 <= i < |rows|
      ensures RowLegal(rows[i], segments, versionId)
    {
      RowIsLegal(dims[i], byKey[dims[i].key], versionId, segments);
      assert ScoreTableOf(byKey)[dims[i].key] == rows[i].score;
    }
  }

  lemma {:induction false} RowIsLegal(dim: Dimension, item: DimensionResult, versionId: Id, segments: seq<EvidenceSegment>)
    requires ItemAccepted(item, CatalogOf(segments), versionId)
    requires WeightInRange(dim) && dim.displayOrder > 0
    requires item.score.Some? ==> ScoreInRange(item.score.value)
    requires forall i | 0 <= i < |segments| :: segments[i].segmentNo > 0
    ensures RowLegal(RowOf(dim, item), segments, versionId)
  {
    forall i | 0 <= i < |item.evidence|
      ensures EvidenceRowLegal(item.evidence[i], segments, versionId)
    {
      SupportedRefHasSource(item.evidence[i], segments, versionId);
    }
  }

  // ---------- what acceptance means ----------

  lemma {:induction false} ByKeyAt(items: seq<DimensionResult>, j: nat)
    requires ItemKeysDistinct(items) && j < |items|
    ensures items[j].key in ByKey(items) && ByKey(items)[items[j].key] == items[j]
  {
    ByKeyContents(items);
    assert items[j].key in KeysOf(items);
    var found := ByKey(items)[items[j].key];
    var k :| 0 <= k < |items| && items[k] == found;
    assert !(j < k) && !(k < j);
  }

  lemma {:induction false} CatalogAt(segments: seq<EvidenceSegment>, i: nat)
    requires SegmentIdsDistinct(segments) && i < |segments|
    ensures segments[i].id in CatalogOf(segments) && CatalogOf(segments)[segments[i].id] == segments[i]
  {
    CatalogContents(segments);
    var found := CatalogOf(segments)[segments[i].id];
    var k :| 0 <= k < |segments| && segments[k] == found;
    assert !(i < k) && !(k < i);
  }

  ghost predicate HasSource(ref: EvidenceRef, segments: seq<EvidenceSegment>, versionId: Id) {
    exists i | 0 <= i < |segments| :: IsSourceOf(segments[i], ref, versionId)
  }

  // An item is scored from 1 to 5 and cites evidence, or it is unscored and says why; either way
  // it cites no segment twice and every reference has its source.
  ghost predicate ItemFits(item: DimensionResult, segments: seq<EvidenceSegment>, versionId: Id) {
    && (item.score.None? <==> item.insufficient.Some? && !Text.Blank(item.insufficient.value))
    && (item.score.Some? ==> 1 <= item.score.value <= 5 && item.evidence != [])
    && (forall i, j | 0 <= i < j < |item.evidence| :: item.evidence[i].segmentId != item.evidence[j].segmentId)
    && (forall i {:trigger item.evidence[i]} | 0 <= i < |item.evidence| :: HasSource(item.evidence[i], segments, versionId))
  }

  lemma {:induction false} SupportedIffSource(ref: EvidenceRef, segments: seq<EvidenceSegment>, versionId: Id)
    requires SegmentIdsDistinct(segments)
    ensures RefSupported(ref, CatalogOf(segments), versionId) <==> HasSource(ref, segments, versionId)
  {
    RefSupportedIff(ref, CatalogOf(segments), versionId);
    CatalogContents(segments);
    if RefSupported(ref, CatalogOf(segments), versionId) {
      var segment := CatalogOf(segments)[ref.segmentId];
      var i :| 0 <= i < |segments| && segments[i] == segment;
      assert IsSourceOf(segments[i], ref, versionId);
    }
    if HasSource(ref, segments, versionId) {
      var i :| 0 <= i < |segments| && IsSourceOf(segments[i], ref, versionId);
      CatalogAt(segments, i);
    }
  }

  lemma {:induction false} ItemAcceptedIff(item: DimensionResult, segments: seq<EvidenceSegment>, versionId: Id)
    requires SegmentIdsDistinct(segments)
    ensures ItemAccepted(item, CatalogOf(segments), versionId) && (item.score.Some? ==> ScoreInRange(item.score.value))
            <==> ItemFits(item, segments, versionId)
  {
    forall i | 0 <= i < |item.evidence|
      ensures RefSupported(item.evidence[i], CatalogOf(segments), versionId)
              <==> HasSource(item.evidence[i], segments, versionId)
    {
      SupportedIffSource(item.evidence[i], segments, versionId);
    }
  }

  // An output is accepted exactly when its keys are those of the snapshot, each once, no segment
  // is given twice, every item fits, every weight lies in (0, 100] and they sum to 100 within 0.01.
  lemma {:induction false} AnalysisAcceptedIff(result: AnalyzeResult, dims: seq<Dimension>, versionId: Id,
                                               segments: seq<EvidenceSegment>)
    ensures AnalysisAccepted(result, dims, versionId, segments) <==>
            var items := result.dimensions;
            && (forall i, j | 0 <= i < j < |items| :: items[i].key != items[j].key)
            && (set i | 0 <= i < |items| :: items[i].key) == (set i | 0 <= i < |dims| :: dims[i].key)
            && (forall i, j | 0 <= i < j < |segments| :: segments[i].id != segments[j].id)
            && (forall j | 0 <= j < |items| :: ItemFits(items[j], segments, versionId))
            && (forall i | 0 <= i < |dims| :: 0.0 < dims[i].weight <= 100.0)
            && 99.99 <= TotalWeight(dims) <= 100.01
  {
    if KeysMatch(result, dims) && SegmentIdsDistinct(segments) {
      ItemsAcceptedIff(result, dims, versionId, segments);
    }
  }

  lemma {:induction false} ItemsAcceptedIff(result: AnalyzeResult, dims: seq<Dimension>, versionId: Id,
                                            segments: seq<EvidenceSegment>)
    requires KeysMatch(result, dims) && SegmentIdsDistinct(segments)
    ensures var byKey := ByKey(result.dimensions);
            ItemsAccepted(dims, byKey, CatalogOf(segments), versionId) && EveryScoreLegal(dims, ScoreTableOf(byKey))
            && ScoreTableOf(byKey).Keys == SnapshotKeys(dims)
            <==> forall j | 0 <= j < |result.dimensions| :: ItemFits(result.dimensions[j], segments, versionId)
  {
    var items, byKey := result.dimensions, ByKey(result.dimensions);
    ByKeyContents(items);
    assert ScoreTableOf(byKey).Keys == KeysOf(items);
    if ItemsAccepted(dims, byKey, CatalogOf(segments), versionId) && EveryScoreLegal(dims, ScoreTableOf(byKey)) {
      forall j | 0 <= j < |items|
        ensures ItemFits(items[j], segments, versionId)
      {
        ByKeyAt(items, j);
        assert items[j].key in SnapshotKeys(dims);
        var i :| 0 <= i < |dims| && dims[i].key == items[j].key;
        assert ScoreTableOf(byKey)[dims[i].key] == items[j].score;
        ItemAcceptedIff(items[j], segments, versionId);
      }
    }
    if forall j | 0 <= j < |items| :: ItemFits(items[j], segments, versionId) {
      forall i | 0 <= i < |dims|
        ensures dims[i].key in byKey && ItemAccepted(byKey[dims[i].key], CatalogOf(segments), versionId)
        ensures byKey[dims[i].key].score.Some? ==> ScoreInRange(byKey[dims[i].key].score.value)
      {
        assert dims[i].key in SnapshotKeys(dims);
        var item := byKey[dims[i].key];
        var j :| 0 <= j < |items| && items[j] == item;
        ItemAcceptedIff(item, segments, versionId);
      }
    }
  }

  // The stored row of each dimension carries what the result says under the dimension's key, and
  // an explanation only if the score is missing.
  lemma {:induction false} RowsCarryResult(items: seq<DimensionResult>, dims: seq<Dimension>, i: nat, j: nat)
    requires ItemKeysDistinct(items) && i < |dims| && j < |items| && items[j].key == dims[i].key
    requires forall k | 0 <= k < |dims| :: dims[k].key in ByKey(items)
    ensures |RowsOf(dims, ByKey(items))| == |dims|
    ensures var row := RowsOf(dims, ByKey(items))[i];
            && row.key == dims[i].key && row.name == dims[i].name && row.weight == dims[i].weight
            && row.displayOrder == dims[i].displayOrder
            && row.score == items[j].score && row.analysis == items[j].analysis
            && row.strengths == items[j].strengths && row.risks == items[j].risks
            && row.followUps == items[j].followUps && row.evidence == items[j].evidence
            && row.insufficient == (if items[j].score == None then items[j].insufficient else None)
  {
    RowsPointwise(dims, ByKey(items));
    ByKeyAt(items, j);
  }

  predicate RowsScored(rows: seq<DimensionRow>) {
    forall i | 0 <= i < |rows| :: rows[i].score.Some?
  }

  // The exact weighted sum of the scores that the rows hold.
  function RowsTotal(rows: seq<DimensionRow>): real
    requires RowsScored(rows)
  {
    if rows == [] then 0.0
    else
      var n := |rows| - 1;
      RowsTotal(rows[..n]) + rows[n].score.value as real * rows[n].weight / 100.0
  }

  // An overall score is there exactly if every row is scored, and is then their weighted sum,
  // rounded half up to cents.
  ghost predicate OverallOfRows(rows: seq<DimensionRow>, overall: Option<real>) {
    && (overall.Some? <==> RowsScored(rows))
    && (overall.Some? ==> NearestCent(RowsTotal(rows), overall.value))
  }

  lemma {:induction false} TotalsAgree(dims: seq<Dimension>, byKey: ItemsByKey)
    requires forall i | 0 <= i < |dims| :: dims[i].key in byKey
    ensures RowsScored(RowsOf(dims, byKey)) <==> AllScored(dims, ScoreTableOf(byKey))
    ensures RowsScored(RowsOf(dims, byKey)) ==> RowsTotal(RowsOf(dims, byKey)) == TableTotal(dims, ScoreTableOf(byKey))
  {
    var table, rows := ScoreTableOf(byKey), RowsOf(dims, byKey);
    RowsPointwise(dims, byKey);
    forall i | 0 <= i < |dims|
      ensures table[dims[i].key] == rows[i].score
    {
    }
    if dims != [] {
      var n := |dims| - 1;
      TotalsAgree(dims[..n], byKey);
      assert rows[..n] == RowsOf(dims[..n], byKey);
      assert rows[n] == RowOf(dims[n], byKey[dims[n].key]);
    }
  }

  lemma {:induction false} OverallIsOfRows(dims: seq<Dimension>, byKey: ItemsByKey)
    requires forall i | 0 <= i < |dims| :: dims[i].key in byKey
    requires ScoreRequestLegal(dims, ScoreTableOf(byKey))
    ensures OverallOfRows(RowsOf(dims, byKey), OverallScore(dims, ScoreTableOf(byKey)))
  {
    OverallScoreOfTable(dims, ScoreTableOf(byKey));
    TotalsAgree(dims, byKey);
  }
}
