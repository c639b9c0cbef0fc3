// What a single-round analysis request freezes and what persisting an output stores, stated
// without the code that does it.
module AnalysisEffects {
  import opened Common
  import opened Segments
  import opened Inputs
  import opened RoundAnalysis
  import A = AnalysisHistory
  import AR = AnalysisResult
  import H = TranscriptHistory
  import RoundStatus
  import Runs = TranscriptRuns
  import Scoring
  import Text
  import Transcript

  // ---------- freezing ----------

  predicate WeightsSumTo100(dims: seq<Scoring.Dimension>) {
    && (forall i | 0 <= i < |dims| :: 0.0 < dims[i].weight <= 100.0)
    && 99.99 <= Scoring.TotalWeight(dims) <= 100.01
  }

  predicate Askable(raw: Option<seq<Scoring.RawDimension>>) {
    && raw.Some? && Scoring.Snapshot(raw.value).Ok?
    && var dims := Scoring.Snapshot(raw.value).value;
       && (forall i | 0 <= i < |dims| :: Scoring.FiveDifferentAnchors(dims[i].anchors))
       && WeightsSumTo100(dims)
  }

  // A request can be frozen exactly when the round was completed with a confirmed transcript, its
  // dimensions make a snapshot with five different anchors each and weights that sum to 100, and
  // the included texts have at most 120000 characters.
  lemma {:induction false} FreezeSucceedsIff(r: Transcript.Round, nextId: Id, jobVersionId: Id,
                                             raw: Option<seq<Scoring.RawDimension>>)
    requires H.Inv(r, nextId)
    ensures Freeze(r, jobVersionId, raw).Ok? <==>
            && r.completion == Transcript.ConfirmedTranscript
            && Askable(raw)
            && Transcript.ConfirmedOf(r).Some?
            && TotalChars(IncludedPlaintext(Transcript.ConfirmedOf(r).value.segments)) <= 120000
  {
    ConfirmedSide(r, nextId);
    DimensionSide(raw);
  }

  lemma {:induction false} ConfirmedSide(r: Transcript.Round, nextId: Id)
    requires H.Inv(r, nextId)
    ensures r.completion == Transcript.ConfirmedTranscript ==>
              && r.status == RoundStatus.Completed && r.master.Some? && Transcript.ConfirmedOf(r).Some?
              && IncludedPlaintext(Transcript.ConfirmedOf(r).value.segments) != []
  {
    if r.completion == Transcript.ConfirmedTranscript {
      Runs.ConfirmedHasText(r, nextId);
      A.IncludedNotEmpty(Transcript.ConfirmedOf(r).value);
    }
  }

  lemma {:induction false} DimensionSide(raw: Option<seq<Scoring.RawDimension>>)
    ensures Askable(raw) <==>
            && raw.Some? && Scoring.Snapshot(raw.value).Ok?
            && Scoring.RequireCompleteAnalysisAnchors(Scoring.Snapshot(raw.value).value).Ok?
            && Scoring.WeightsValid(Scoring.Snapshot(raw.value).value)
  {
    if raw.Some? && Scoring.Snapshot(raw.value).Ok? {
      Scoring.AnchorsCompleteIff(Scoring.Snapshot(raw.value).value);
    }
  }

  // The characters are counted over the stripped texts of the included segments.
  lemma {:induction false} CharsOfIncluded(segments: seq<Segment>, last: Segment)
    ensures TotalChars(IncludedPlaintext(segments + [last]))
            == TotalChars(IncludedPlaintext(segments)) + if last.body.included then |Text.Strip(last.body.text)| else 0
    ensures TotalChars(IncludedPlaintext([])) == 0
  {
    var longer, before, text := segments + [last], IncludedPlaintext(segments), Text.Strip(last.body.text);
    assert longer[..|segments|] == segments && longer[|segments|] == last;
    if last.body.included && text != "" {
      assert IncludedPlaintext(longer) == before + [Loaded(last, text)];
      TotalStep(before, Loaded(last, text));
    } else {
      assert IncludedPlaintext(longer) == before + [] == before;
    }
  }

  // The frozen input names the round, its transcript and the confirmed version, holds the snapshot
  // of the dimensions, and refers to each included segment by id and number with its text's hash.
  lemma {:induction false} FrozenInputShows(r: Transcript.Round, jobVersionId: Id, raw: Option<seq<Scoring.RawDimension>>)
    requires Freeze(r, jobVersionId, raw).Ok?
    ensures raw.Some? && Scoring.Snapshot(raw.value).Ok? && r.master.Some? && Transcript.ConfirmedOf(r).Some?
    ensures var input, confirmed := Freeze(r, jobVersionId, raw).value, Transcript.ConfirmedOf(r).value;
            var included := IncludedPlaintext(confirmed.segments);
            && input.AnalysisInput?
            && input.roundId == r.id && input.jobVersionId == jobVersionId
            && input.transcriptId == r.master.value.id && input.transcriptVersionId == confirmed.id
            && input.dimensions == Scoring.Snapshot(raw.value).value
            && |input.refs| == |included|
            && forall k | 0 <= k < |included| ::
                 input.refs[k] == SegmentRef(included[k].segment.id, included[k].segment.no, TextHash(included[k].text))
  {
  }

  // ---------- loading ----------

  // A stored snapshot is used only if it has references and its hash is that of its input.
  lemma {:induction false} SnapshotPassesIff(s: Snapshot)
    ensures RequireSnapshot(s).Ok? <==> s.input.AnalysisInput? && s.input.refs != [] && s.storedHash == s.input
    ensures RequireSnapshot(s).Ok? ==> RequireSnapshot(s).value == s.input
  {
  }

  // A reference loads exactly if the version has a segment of its id that is included, bears its
  // number, and has a non-empty stripped text of its hash; it loads that segment and that text.
  lemma {:induction false} LoadRefIff(segments: seq<Segment>, ref: SegmentRef, i: nat)
    requires H.IdsRise(segments)
    ensures (forall k | 0 <= k < |segments| :: segments[k].id != ref.segmentId) ==> LoadRef(segments, ref) == None
    ensures i < |segments| && segments[i].id == ref.segmentId ==>
              var text := Text.Strip(segments[i].body.text);
              LoadRef(segments, ref) ==
              if segments[i].body.included && segments[i].no == ref.segmentNo && text != "" && TextHash(text) == ref.textHash
              then Some(Loaded(segments[i], text)) else None
  {
    if i < |segments| && segments[i].id == ref.segmentId {
      A.FindSegmentAt(segments, segments[i]);
    }
  }

  // An analysis is stale unless the version it was made from is the confirmed one, and so always
  // where nothing is confirmed.
  lemma {:induction false} StaleIff(transcriptVersionId: Id, confirmed: Option<Id>)
    ensures Stale(transcriptVersionId, None)
    ensures confirmed.Some? ==> (Stale(transcriptVersionId, confirmed) <==> confirmed.value != transcriptVersionId)
  {
  }

  // ---------- persisting ----------

  // A version holds what its task froze and what the output says, with one row for each frozen
  // dimension that carries the item of its key.
  ghost predicate Holds(v: Version, no: nat, taskId: Id, input: Input, result: AR.AnalyzeResult)
    requires input.AnalysisInput?
  {
    && v.no == no && v.taskId == taskId
    && v.transcriptVersionId == input.transcriptVersionId && v.jobVersionId == input.jobVersionId
    && v.dimensions == input.dimensions
    && v.summary == result.overallSummary
    && |v.rows| == |input.dimensions|
    && (forall i, j | 0 <= i < |v.rows| && 0 <= j < |result.dimensions| && result.dimensions[j].key == input.dimensions[i].key ::
          Carries(v.rows[i], input.dimensions[i], result.dimensions[j]))
    && AR.OverallOfRows(v.rows, v.overall)
  }

  predicate Carries(row: AR.DimensionRow, dim: Scoring.Dimension, item: AR.DimensionResult) {
    && row.key == dim.key && row.name == dim.name && row.weight == dim.weight && row.displayOrder == dim.displayOrder
    && row.score == item.score && row.analysis == item.analysis
    && row.strengths == item.strengths && row.risks == item.risks
    && row.followUps == item.followUps && row.evidence == item.evidence
    && row.insufficient == (if item.score == None then item.insufficient else None)
  }

  // Persisting a task that has no version yet succeeds exactly if its output is accepted against
  // the frozen dimensions and the included segments of the frozen version; it then appends one
  // version that holds the output and makes it current. A task that has one is answered with it.
  lemma {:induction false} PersistEffect(a: Analysis, nextId: Id, r: Transcript.Round, task: Task, result: AR.AnalyzeResult,
                                         source: Transcript.Version)
    requires A.Inv(a, r, nextId) && H.Inv(r, nextId)
    requires task.snapshot == Seal(task.snapshot.input) && A.FrozenIn(r, task.snapshot.input)
    requires Transcript.FindVersion(r.versions, task.snapshot.input.transcriptVersionId) == Some(source)
    ensures var o := Persist(a, nextId, r, task, result);
            var input := task.snapshot.input;
            var stored := FindByTask(a.versions, task.id);
            && (stored.Some? ==> o == Outcome(a, nextId, Ok(stored.value)))
            && (stored.None? ==>
                  && (o.reply.Ok? <==> AR.AnalysisAccepted(result, input.dimensions, input.transcriptVersionId, A.EvidenceOf(source)))
                  && (o.reply.Err? ==> o.analysis == a && o.nextId == nextId)
                  && (o.reply.Ok? ==>
                        && o.reply.value.id == nextId && o.nextId == nextId + 1
                        && Holds(o.reply.value, |a.versions| + 1, task.id, input, result)
                        && o.analysis.versions == a.versions + [o.reply.value]
                        && o.analysis.current == Some(o.reply.value.id)))
  {
    var input := task.snapshot.input;
    AcceptedAgainst(r, nextId, input, result, source);
    A.MaxNoUpTo(a.versions, |a.versions|);
    assert a.versions[..|a.versions|] == a.versions;
    if FindByTask(a.versions, task.id).None? && Accepted(r, input, result) {
      NewVersionHolds(a, nextId, task, input, result);
    }
  }

  lemma {:induction false} AcceptedAgainst(r: Transcript.Round, nextId: Id, input: Input, result: AR.AnalyzeResult,
                                           source: Transcript.Version)
    requires H.Inv(r, nextId) && A.FrozenIn(r, input)
    requires Transcript.FindVersion(r.versions, input.transcriptVersionId) == Some(source)
    ensures RequireSnapshot(Seal(input)) == Ok(input) && LoadSegments(r, input).Ok?
    ensures Accepted(r, input, result)
            <==> AR.AnalysisAccepted(result, input.dimensions, input.transcriptVersionId, A.EvidenceOf(source))
  {
    var i := A.FrozenLoads(r, nextId, input);
    H.FindAt(r.versions, i);
  }

  lemma {:induction false} NewVersionHolds(a: Analysis, nextId: Id, task: Task, input: Input, result: AR.AnalyzeResult)
    requires input.AnalysisInput? && AR.KeysMatch(result, input.dimensions)
    requires forall i | 0 <= i < |input.dimensions| :: input.dimensions[i].key in AR.ByKey(result.dimensions)
    requires Scoring.ScoreRequestLegal(input.dimensions, AR.ScoreTableOf(AR.ByKey(result.dimensions)))
    ensures Holds(NewVersion(a, nextId, task, input, result), MaxNo(a.versions) + 1, task.id, input, result)
  {
    var v, dims, items := NewVersion(a, nextId, task, input, result), input.dimensions, result.dimensions;
    AR.RowsPointwise(dims, AR.ByKey(items));
    AR.OverallIsOfRows(dims, AR.ByKey(items));
    forall i, j | 0 <= i < |v.rows| && 0 <= j < |items| && items[j].key == dims[i].key
      ensures Carries(v.rows[i], dims[i], items[j])
    {
      AR.RowsCarryResult(items, dims, i, j);
    }
  }
}
