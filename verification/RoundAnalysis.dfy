// Single-round analysis: freezing the confirmed transcript of a round into a hash-sealed
// snapshot, loading and re-checking it later, and storing validated outputs as versions An
// (interview_analyses.py).
module RoundAnalysis {
  import opened Common
  import opened Segments
  import opened Inputs
  import AR = AnalysisResult
  import RoundStatus
  import Scoring
  import Text
  import Transcript

  const INTERVIEW_ANALYZE_MAX_CHARS := 120000

  datatype Error = Invalid | NotFound | NothingIncluded | TooLong | SnapshotIncomplete | HashMismatch | RefInvalid | OutputInvalid

  // A segment with its decrypted, stripped text.
  datatype Loaded = Loaded(segment: Segment, text: string)

  // The included segments with a non-empty stripped text, in order.
  function IncludedPlaintext(segments: seq<Segment>): seq<Loaded> {
    if segments == [] then []
    else
      var n := |segments| - 1;
      var text := Text.Strip(segments[n].body.text);
      IncludedPlaintext(segments[..n])
      + if segments[n].body.included && text != "" then [Loaded(segments[n], text)] else []
  }

  method CollectIncluded(segments: seq<Segment>) returns (selected: seq<Loaded>)
    ensures selected == IncludedPlaintext(segments)
  {
    selected := [];
    for i := 0 to |segments|
      invariant selected == IncludedPlaintext(segments[..i])
    {
      assert segments[..i + 1][..i] == segments[..i];
      if !segments[i].body.included {
        continue;
      }
      var text := Text.Strip(segments[i].body.text);
      if text == "" {
        continue;
      }
      selected := selected + [Loaded(segments[i], text)];
    }
    assert segments[..|segments|] == segments;
  }

  function TotalChars(loaded: seq<Loaded>): nat {
    if loaded == [] then 0 else TotalChars(loaded[..|loaded| - 1]) + |loaded[|loaded| - 1].text|
  }

  lemma {:induction false} TotalStep(loaded: seq<Loaded>, last: Loaded)
    ensures TotalChars(loaded + [last]) == TotalChars(loaded) + |last.text|
  {
    assert (loaded + [last])[..|loaded|] == loaded;
  }

  function RefOf(l: Loaded): SegmentRef {
    SegmentRef(l.segment.id, l.segment.no, TextHash(l.text))
  }

  function RefsOf(loaded: seq<Loaded>): (r: seq<SegmentRef>)
    ensures |r| == |loaded| && forall i | 0 <= i < |r| :: r[i] == RefOf(loaded[i])
  {
    seq(|loaded|, i requires 0 <= i < |loaded| => RefOf(loaded[i]))
  }

  // ---------- freezing ----------

  // The checks and the frozen input of a generation request; dimensions is None when the
  // round's job version cannot be loaded.
  function Freeze(r: Transcript.Round, jobVersionId: Id, raw: Option<seq<Scoring.RawDimension>>): Result<Input, Error> {
    var confirmed := Transcript.ConfirmedOf(r);
    if r.status != RoundStatus.Completed || r.completion != Transcript.ConfirmedTranscript then Err(Invalid)
    else if r.master.None? || confirmed.None? then Err(Invalid)
    else if raw.None? then Err(Invalid)
    else
      var dims := Scoring.Snapshot(raw.value);
      if dims.Err? || Scoring.RequireCompleteAnalysisAnchors(dims.value).Err? || !Scoring.WeightsValid(dims.value) then Err(Invalid)
      else
        var included := IncludedPlaintext(confirmed.value.segments);
        if included == [] then Err(NothingIncluded)
        else if TotalChars(included) > INTERVIEW_ANALYZE_MAX_CHARS then Err(TooLong)
        else Ok(AnalysisInput(r.id, jobVersionId, r.master.value.id, confirmed.value.id, dims.value, RefsOf(included)))
  }

  // A task's stored snapshot: the input and the hash stored beside it.
  datatype Snapshot = Snapshot(input: Input, storedHash: Input)

  function Seal(input: Input): Snapshot {
    Snapshot(input, input)
  }

  // _require_snapshot: the references are there and the recomputed hash is the stored one.
  function RequireSnapshot(s: Snapshot): Result<Input, Error> {
    if !s.input.AnalysisInput? || s.input.refs == [] then Err(SnapshotIncomplete)
    else if s.input != s.storedHash then Err(HashMismatch)
    else Ok(s.input)
  }

  // ---------- loading ----------

  function FindSegment(segments: seq<Segment>, id: Id): (r: Option<Segment>)
    ensures r.Some? ==> r.value in segments && r.value.id == id
    ensures r.None? ==> forall s | s in segments :: s.id != id
  {
    if segments == [] then None
    else if segments[0].id == id then Some(segments[0])
    else FindSegment(segments[1..], id)
  }

  // The segment a reference leads to, if it passes every check.
  function LoadRef(segments: seq<Segment>, ref: SegmentRef): Option<Loaded> {
    var found := FindSegment(segments, ref.segmentId);
    if found.None? || !found.value.body.included || found.value.no != ref.segmentNo then None
    else
      var text := Text.Strip(found.value.body.text);
      if text == "" || TextHash(text) != ref.textHash then None else Some(Loaded(found.value, text))
  }

  predicate AllLoad(segments: seq<Segment>, refs: seq<SegmentRef>) {
    forall i | 0 <= i < |refs| :: LoadRef(segments, refs[i]).Some?
  }

  function LoadAll(segments: seq<Segment>, refs: seq<SegmentRef>): (r: seq<Loaded>)
    requires AllLoad(segments, refs)
    ensures |r| == |refs| && forall i | 0 <= i < |r| :: r[i] == LoadRef(segments, refs[i]).value
  {
    seq(|refs|, i requires 0 <= i < |refs| => LoadRef(segments, refs[i]).value)
  }

  // _segments_from_refs
  function LoadSegments(r: Transcript.Round, input: Input): Result<seq<Loaded>, Error>
    requires input.AnalysisInput?
  {
    var version := Transcript.FindVersion(r.versions, input.transcriptVersionId);
    if r.master.None? || r.master.value.id != input.transcriptId || version.None? then Err(NotFound)
    else if !AllLoad(version.value.segments, input.refs) then Err(RefInvalid)
    else
      var loaded := LoadAll(version.value.segments, input.refs);
      if TotalChars(loaded) > INTERVIEW_ANALYZE_MAX_CHARS then Err(TooLong) else Ok(loaded)
  }

  method SegmentsFromRefs(r: Transcript.Round, input: Input) returns (result: Result<seq<Loaded>, Error>)
    requires input.AnalysisInput?
    ensures result == LoadSegments(r, input)
  {
    var version := Transcript.FindVersion(r.versions, input.transcriptVersionId);
    if r.master.None? || r.master.value.id != input.transcriptId || version.None? {
      return Err(NotFound);
    }
    var segments := version.value.segments;
    var loaded: seq<Loaded> := [];
    var total := 0;
    for i := 0 to |input.refs|
      invariant |loaded| == i
      invariant forall k | 0 <= k < i :: LoadRef(segments, input.refs[k]) == Some(loaded[k])
      invariant total == TotalChars(loaded)
    {
      var one := LoadRef(segments, input.refs[i]);
      if one.None? {
        assert !AllLoad(segments, input.refs);
        return Err(RefInvalid);
      }
      TotalStep(loaded, one.value);
      loaded := loaded + [one.value];
      total := total + |one.value.text|;
    }
    assert AllLoad(segments, input.refs) && loaded == LoadAll(segments, input.refs);
    return if total > INTERVIEW_ANALYZE_MAX_CHARS then Err(TooLong) else Ok(loaded);
  }

  function EvidenceSegments(versionId: Id, loaded: seq<Loaded>): (r: seq<AR.EvidenceSegment>)
    ensures |r| == |loaded|
    ensures forall i | 0 <= i < |r| ::
              r[i] == AR.EvidenceSegment(loaded[i].segment.id, versionId, loaded[i].segment.no, true, loaded[i].text)
  {
    seq(|loaded|, i requires 0 <= i < |loaded| =>
      AR.EvidenceSegment(loaded[i].segment.id, versionId, loaded[i].segment.no, true, loaded[i].text))
  }

  // ---------- versions ----------

  datatype Version = Version(
    id: Id, no: nat, transcriptVersionId: Id, jobVersionId: Id, taskId: Id,
    dimensions: seq<Scoring.Dimension>, overall: Option<real>, summary: string, rows: seq<AR.DimensionRow>)

  datatype Analysis = Analysis(versions: seq<Version>, current: Option<Id>)

  datatype Task = Task(id: Id, snapshot: Snapshot)

  datatype Outcome = Outcome(analysis: Analysis, nextId: Id, reply: Result<Version, Error>)

  function FindByTask(versions: seq<Version>, taskId: Id): (r: Option<Version>)
    ensures r.Some? ==> r.value in versions && r.value.taskId == taskId
    ensures r.None? ==> forall v | v in versions :: v.taskId != taskId
  {
    if versions == [] then None
    else if versions[0].taskId == taskId then Some(versions[0])
    else FindByTask(versions[1..], taskId)
  }

  function Find(versions: seq<Version>, id: Id): (r: Option<Version>)
    ensures r.Some? ==> r.value in versions && r.value.id == id
    ensures r.None? ==> forall v | v in versions :: v.id != id
  {
    if versions == [] then None
    else if versions[0].id == id then Some(versions[0])
    else Find(versions[1..], id)
  }

  function MaxNo(versions: seq<Version>): nat {
    if versions == [] then 0 else Max(MaxNo(versions[..|versions| - 1]), versions[|versions| - 1].no)
  }

  function NewVersion(a: Analysis, nextId: Id, task: Task, input: Input, result: AR.AnalyzeResult): Version
    requires input.AnalysisInput?
    requires forall i | 0 <= i < |input.dimensions| :: input.dimensions[i].key in AR.ByKey(result.dimensions)
    requires Scoring.ScoreRequestLegal(input.dimensions, AR.ScoreTableOf(AR.ByKey(result.dimensions)))
  {
    var byKey := AR.ByKey(result.dimensions);
    Version(nextId, MaxNo(a.versions) + 1, input.transcriptVersionId, input.jobVersionId, task.id, input.dimensions,
            Scoring.OverallScore(input.dimensions, AR.ScoreTableOf(byKey)), result.overallSummary,
            AR.RowsOf(input.dimensions, byKey))
  }

  predicate Accepted(r: Transcript.Round, input: Input, result: AR.AnalyzeResult)
    requires input.AnalysisInput?
  {
    && LoadSegments(r, input).Ok?
    && AR.AnalysisAccepted(result, input.dimensions, input.transcriptVersionId,
                           EvidenceSegments(input.transcriptVersionId, LoadSegments(r, input).value))
  }

  function Persist(a: Analysis, nextId: Id, r: Transcript.Round, task: Task, result: AR.AnalyzeResult): Outcome {
    var checked := RequireSnapshot(task.snapshot);
    if checked.Err? then Outcome(a, nextId, Err(checked.error))
    else
      var input := checked.value;
      var existing := FindByTask(a.versions, task.id);
      var loaded := LoadSegments(r, input);
      if existing.Some? then Outcome(a, nextId, Ok(existing.value))
      else if loaded.Err? then Outcome(a, nextId, Err(loaded.error))
      else if !Accepted(r, input, result) then Outcome(a, nextId, Err(OutputInvalid))
      else
        var version := NewVersion(a, nextId, task, input, result);
        Outcome(Analysis(a.versions + [version], Some(version.id)), nextId + 1, Ok(version))
  }

  // is_analysis_version_stale
  predicate Stale(transcriptVersionId: Id, confirmed: Option<Id>) {
    confirmed != Some(transcriptVersionId)
  }

  // Checks an output against the loaded segments and computes its overall score.
  method ValidateOutput(r: Transcript.Round, input: Input, result: AR.AnalyzeResult, loaded: seq<Loaded>)
    returns (score: Result<Option<real>, Error>)
    requires input.AnalysisInput? && LoadSegments(r, input) == Ok(loaded)
    ensures score.Ok? <==> Accepted(r, input, result)
    ensures score.Err? ==> score.error == OutputInvalid
    ensures score.Ok? ==>
              && (forall i | 0 <= i < |input.dimensions| :: input.dimensions[i].key in AR.ByKey(result.dimensions))
              && Scoring.ScoreRequestLegal(input.dimensions, AR.ScoreTableOf(AR.ByKey(result.dimensions)))
              && score.value == Scoring.OverallScore(input.dimensions, AR.ScoreTableOf(AR.ByKey(result.dimensions)))
  {
    var evidence := EvidenceSegments(input.transcriptVersionId, loaded);
    var checked := AR.ValidateAnalysisResult(result, input.dimensions, input.transcriptVersionId, evidence);
    score := if checked.Ok? then Ok(checked.value) else Err(OutputInvalid);
  }

  class Service {
    var versions: seq<Version>
    var current: Option<Id>
    var nextId: Id

    function Contents(): Analysis
      reads this
    {
      Analysis(versions, current)
    }

    constructor (firstId: Id)
      ensures Contents() == Analysis([], None) && nextId == firstId
    {
      versions, current, nextId := [], None, firstId;
    }

    method PersistResult(r: Transcript.Round, task: Task, result: AR.AnalyzeResult) returns (reply: Result<Version, Error>)
      modifies this
      ensures Outcome(Contents(), nextId, reply) == old(Persist(Contents(), nextId, r, task, result))
    {
      var checked := RequireSnapshot(task.snapshot);
      if checked.Err? {
        return Err(checked.error);
      }
      var input := checked.value;
      var existing := FindByTask(versions, task.id);
      if existing.Some? {
        return Ok(existing.value);
      }
      var loaded := SegmentsFromRefs(r, input);
      if loaded.Err? {
        return Err(loaded.error);
      }
      var score := ValidateOutput(r, input, result, loaded.value);
      if score.Err? {
        return Err(score.error);
      }
      var version := AppendVersion(task, input, result, score.value);
      return Ok(version);
    }

    // The writes of an accepted output: the version, one row per dimension, the current pointer.
    method AppendVersion(task: Task, input: Input, result: AR.AnalyzeResult, overall: Option<real>)
    returns (version: Version)
      requires input.AnalysisInput?
      requires forall i | 0 <= i < |input.dimensions| :: input.dimensions[i].key in AR.ByKey(result.dimensions)
      requires Scoring.ScoreRequestLegal(input.dimensions, AR.ScoreTableOf(AR.ByKey(result.dimensions)))
      requires overall == Scoring.OverallScore(input.dimensions, AR.ScoreTableOf(AR.ByKey(result.dimensions)))
      modifies this
      ensures version == old(NewVersion(Contents(), nextId, task, input, result))
      ensures Contents() == Analysis(old(versions) + [version], Some(version.id)) && nextId == old(nextId) + 1
    {
      var rows := AR.BuildRows(input.dimensions, AR.ByKey(result.dimensions));
      version := Version(nextId, MaxNo(versions) + 1, input.transcriptVersionId, input.jobVersionId, task.id,
                         input.dimensions, overall, result.overallSummary, rows);
      nextId := nextId + 1;
      versions := versions + [version];
      current := Some(version.id);
    }
  }
}
