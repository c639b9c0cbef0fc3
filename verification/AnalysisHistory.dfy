// What holds of frozen inputs and stored analyses whatever happens to the round later: frozen
// input loads back unchanged, and every stored version meets the table constraints.
module AnalysisHistory {
  import opened Common
  import opened Segments
  import opened Inputs
  import opened RoundAnalysis
  import AR = AnalysisResult
  import Scoring
  import Text
  import Transcript
  import H = TranscriptHistory
  import Runs = TranscriptRuns

  // ---------- included segments ----------

  lemma {:induction false} StripKeepsSolid(s: string)
    ensures Text.Strip(s) == "" <==> Text.Blank(s)
  {
    var l, r := Text.StripSplits(s);
    if Text.Strip(s) == "" {
      assert s == l + "" + r;
      forall i | 0 <= i < |s|
        ensures Text.IsSpace(s[i])
      {
        assert s[i] == if i < |l| then l[i] else r[i - |l|];
      }
    } else {
      var core := Text.Strip(s);
      assert !Text.IsSpace(core[|core| - 1]);
      assert s[|l| + |core| - 1] == core[|core| - 1];
    }
  }

  lemma {:induction false} IncludedMembers(segments: seq<Segment>)
    ensures forall k | 0 <= k < |IncludedPlaintext(segments)| ::
              var l := IncludedPlaintext(segments)[k];
              l.segment in segments && l.segment.body.included && l.text == Text.Strip(l.segment.body.text) && l.text != ""
  {
    if segments != [] {
      IncludedMembers(segments[..|segments| - 1]);
    }
  }

  lemma {:induction false} IncludedHasAll(segments: seq<Segment>, i: nat)
    requires i < |segments| && segments[i].body.included && !Text.Blank(segments[i].body.text)
    ensures Loaded(segments[i], Text.Strip(segments[i].body.text)) in IncludedPlaintext(segments)
  {
    var n := |segments| - 1;
    StripKeepsSolid(segments[i].body.text);
    if i < n {
      IncludedHasAll(segments[..n], i);
    }
  }

  lemma {:induction false} IncludedIdsRise(segments: seq<Segment>)
    requires H.IdsRise(segments)
    ensures forall j, k | 0 <= j < k < |IncludedPlaintext(segments)| ::
              IncludedPlaintext(segments)[j].segment.id < IncludedPlaintext(segments)[k].segment.id
  {
    if segments != [] {
      var n := |segments| - 1;
      var shorter := segments[..n];
      IncludedIdsRise(shorter);
      IncludedMembers(shorter);
      forall k | 0 <= k < |IncludedPlaintext(shorter)|
        ensures IncludedPlaintext(shorter)[k].segment.id < segments[n].id
      {
        var s := IncludedPlaintext(shorter)[k].segment;
        var i :| 0 <= i < n && shorter[i] == s;
      }
    }
  }

  lemma {:induction false} FindSegmentAt(segments: seq<Segment>, s: Segment)
    requires H.IdsRise(segments) && s in segments
    ensures FindSegment(segments, s.id) == Some(s)
  {
    var i :| 0 <= i < |segments| && segments[i] == s;
    var found := FindSegment(segments, s.id);
    var j :| 0 <= j < |segments| && segments[j] == found.value;
  }

  // References taken of the included segments lead back to exactly those segments.
  lemma {:induction false} RefsLoadBack(segments: seq<Segment>)
    requires H.IdsRise(segments)
    ensures AllLoad(segments, RefsOf(IncludedPlaintext(segments)))
    ensures LoadAll(segments, RefsOf(IncludedPlaintext(segments))) == IncludedPlaintext(segments)
  {
    var included := IncludedPlaintext(segments);
    var refs := RefsOf(included);
    IncludedMembers(segments);
    forall i | 0 <= i < |refs|
      ensures LoadRef(segments, refs[i]) == Some(included[i])
    {
      FindSegmentAt(segments, included[i].segment);
    }
  }

  // ---------- frozen inputs ----------

  ghost predicate SourceAt(r: Transcript.Round, i: nat, input: Input) {
    && input.AnalysisInput?
    && i < |r.versions|
    && r.versions[i].id == input.transcriptVersionId
    && r.versions[i].kind == Transcript.C
    && !r.versions[i].editing
    && input.refs == RefsOf(IncludedPlaintext(r.versions[i].segments))
    && TotalChars(IncludedPlaintext(r.versions[i].segments)) <= INTERVIEW_ANALYZE_MAX_CHARS
  }

  ghost predicate DimensionsOk(dims: seq<Scoring.Dimension>) {
    dims != [] && Scoring.KeysDistinct(dims) && Scoring.OrdersConsecutive(dims) && Scoring.WeightsValid(dims)
  }

  // The input was taken from a confirmed version that the round still has.
  ghost predicate FrozenIn(r: Transcript.Round, input: Input) {
    && input.AnalysisInput?
    && input.roundId == r.id
    && input.refs != []
    && DimensionsOk(input.dimensions)
    && r.master.Some? && r.master.value.id == input.transcriptId
    && exists i: nat :: SourceAt(r, i, input)
  }

  lemma {:induction false} FreezeIsFrozen(r: Transcript.Round, nextId: Id, jobVersionId: Id,
                                        raw: Option<seq<Scoring.RawDimension>>)
    requires H.Inv(r, nextId) && Freeze(r, jobVersionId, raw).Ok?
    ensures FrozenIn(r, Freeze(r, jobVersionId, raw).value)
    ensures Freeze(r, jobVersionId, raw).value.transcriptVersionId < nextId
    ensures H.CurrentConfirmed(r) == Some(Freeze(r, jobVersionId, raw).value.transcriptVersionId)
  {
    var input := Freeze(r, jobVersionId, raw).value;
    Scoring.SnapshotKeysUnique(raw.value);
    Runs.ConfirmedHasText(r, nextId);
    var top := H.ConfirmedIndex(|r.versions|);
    assert H.LinkAt(r.versions, top) && H.VersionOk(r.versions[top], nextId);
    assert SourceAt(r, top, input);
  }

  lemma {:induction false} FrozenStays(r: Transcript.Round, later: Transcript.Round, input: Input)
    requires FrozenIn(r, input) && H.Later(r, later)
    ensures FrozenIn(later, input)
  {
    var i: nat :| SourceAt(r, i, input);
    assert SourceAt(later, i, input);
  }

  function EvidenceOf(v: Transcript.Version): seq<AR.EvidenceSegment> {
    EvidenceSegments(v.id, IncludedPlaintext(v.segments))
  }

  lemma {:induction false} FrozenLoads(r: Transcript.Round, nextId: Id, input: Input) returns (i: nat)
    requires H.Inv(r, nextId) && FrozenIn(r, input)
    ensures SourceAt(r, i, input)
    ensures LoadSegments(r, input) == Ok(IncludedPlaintext(r.versions[i].segments))
  {
    i :| SourceAt(r, i, input);
    assert H.VersionOk(r.versions[i], nextId);
    H.FindAt(r.versions, i);
    RefsLoadBack(r.versions[i].segments);
  }

  // Freeze and load are inverse over time: at the moment of the request and in every later
  // state, the stored snapshot passes its hash check and loading it yields the same segments
  // and texts, in the same order, that were included when it was frozen.
  lemma {:induction false} FreezeLoadRoundTrip(s: Runs.State, id: Id, firstId: Id, calls: seq<Transcript.Call>,
                                               jobVersionId: Id, raw: Option<seq<Scoring.RawDimension>>, more: seq<Transcript.Call>)
    requires Runs.Reachable(s, id, firstId, calls) && Freeze(s.round, jobVersionId, raw).Ok?
    ensures var input := Freeze(s.round, jobVersionId, raw).value;
            && RequireSnapshot(Seal(input)) == Ok(input)
            && Transcript.ConfirmedOf(s.round).Some?
            && LoadSegments(Runs.Exec(s, more).round, input)
               == Ok(IncludedPlaintext(Transcript.ConfirmedOf(s.round).value.segments))
  {
    var input := Freeze(s.round, jobVersionId, raw).value;
    var later := Runs.Exec(s, more);
    Runs.ReachableInv(s, id, firstId, calls);
    Runs.RunsKeepInvariant(s, more);
    FreezeIsFrozen(s.round, s.nextId, jobVersionId, raw);
    var i := FrozenLoads(s.round, s.nextId, input);
    FrozenStays(s.round, later.round, input);
    var j := FrozenLoads(later.round, later.nextId, input);
    SourcesAgree(s.round, later.round, later.nextId, input, i, j);
    Runs.ConfirmedHasText(s.round, s.nextId);
    H.FindAt(s.round.versions, i);
  }

  lemma {:induction false} SourcesAgree(r: Transcript.Round, later: Transcript.Round, laterId: Id,
                                        input: Input, i: nat, j: nat)
    requires H.Later(r, later) && H.Inv(later, laterId) && SourceAt(r, i, input) && SourceAt(later, j, input)
    ensures r.versions[i] == later.versions[j]
  {
    assert later.versions[i] == r.versions[i];
    H.FindAt(later.versions, i);
    H.FindAt(later.versions, j);
  }

  // The checks of loading are sound: from any round whatever, if the references load, they load
  // segments with the frozen ids, numbers and texts, all of them included.
  lemma {:induction false} LoadedIsWhatWasFrozen(r: Transcript.Round, input: Input)
    requires input.AnalysisInput? && LoadSegments(r, input).Ok?
    ensures RefsOf(LoadSegments(r, input).value) == input.refs
    ensures forall l | l in LoadSegments(r, input).value :: l.segment.body.included && l.text == Text.Strip(l.segment.body.text)
  {
    var version := Transcript.FindVersion(r.versions, input.transcriptVersionId).value;
    var loaded := LoadSegments(r, input).value;
    forall i | 0 <= i < |loaded|
      ensures RefOf(loaded[i]) == input.refs[i] && loaded[i].segment.body.included
      ensures loaded[i].text == Text.Strip(loaded[i].segment.body.text)
    {
      assert loaded[i] == LoadRef(version.segments, input.refs[i]).value;
    }
  }

  // In no reachable state does a request fail for lack of included segments.
  lemma {:induction false} NothingIncludedNeverHappens(s: Runs.State, id: Id, firstId: Id, calls: seq<Transcript.Call>,
                                                       jobVersionId: Id, raw: Option<seq<Scoring.RawDimension>>)
    requires Runs.Reachable(s, id, firstId, calls)
    ensures Freeze(s.round, jobVersionId, raw) != Err(NothingIncluded)
  {
    Runs.ReachableInv(s, id, firstId, calls);
    ConfirmedHasIncluded(s.round, s.nextId);
    if Freeze(s.round, jobVersionId, raw) == Err(NothingIncluded) {
      NothingIncludedOnlyIf(s.round, jobVersionId, raw);
      assert false;
    }
  }

  lemma {:induction false} ConfirmedHasIncluded(r: Transcript.Round, nextId: Id)
    requires H.Inv(r, nextId)
    ensures r.completion == Transcript.ConfirmedTranscript && Transcript.ConfirmedOf(r).Some? ==>
              IncludedPlaintext(Transcript.ConfirmedOf(r).value.segments) != []
  {
    if r.completion == Transcript.ConfirmedTranscript {
      Runs.ConfirmedHasText(r, nextId);
      IncludedNotEmpty(Transcript.ConfirmedOf(r).value);
    }
  }

  lemma {:induction false} NothingIncludedOnlyIf(r: Transcript.Round, jobVersionId: Id,
                                        raw: Option<seq<Scoring.RawDimension>>)
    requires Freeze(r, jobVersionId, raw) == Err(NothingIncluded)
    ensures r.completion == Transcript.ConfirmedTranscript && Transcript.ConfirmedOf(r).Some?
    ensures IncludedPlaintext(Transcript.ConfirmedOf(r).value.segments) == []
  {
  }

  lemma {:induction false} IncludedNotEmpty(v: Transcript.Version)
    requires Runs.IncludedText(v)
    ensures IncludedPlaintext(v.segments) != []
  {
    var i :| 0 <= i < |v.segments| && v.segments[i].body.included && !Text.Blank(v.segments[i].body.text);
    IncludedHasAll(v.segments, i);
  }

  // ---------- stored versions ----------

  ghost predicate LegalAt(r: Transcript.Round, i: nat, v: Version) {
    && i < |r.versions|
    && r.versions[i].id == v.transcriptVersionId
    && r.versions[i].kind == Transcript.C
    && !r.versions[i].editing
    && AR.RowsLegal(v.rows, v.dimensions, EvidenceOf(r.versions[i]), v.transcriptVersionId)
    && (v.overall.Some? ==> 1.0 <= v.overall.value <= 5.0)
    && AR.OverallOfRows(v.rows, v.overall)
  }

  ghost predicate VersionOk(v: Version, r: Transcript.Round, nextId: Id) {
    && v.id < nextId
    && v.transcriptVersionId < nextId
    && exists i: nat :: LegalAt(r, i, v)
  }

  ghost predicate AllLegal(vs: seq<Version>, r: Transcript.Round, nextId: Id) {
    forall i {:trigger VersionOk(vs[i], r, nextId)} | 0 <= i < |vs| :: VersionOk(vs[i], r, nextId)
  }

  ghost predicate Ordered(vs: seq<Version>) {
    && (forall i | 0 <= i < |vs| :: vs[i].no == i + 1)
    && (forall i, j | 0 <= i < j < |vs| :: vs[i].id < vs[j].id)
    && (forall i, j | 0 <= i < j < |vs| :: vs[i].taskId != vs[j].taskId)
  }

  ghost predicate Inv(a: Analysis, r: Transcript.Round, nextId: Id) {
    && AllLegal(a.versions, r, nextId)
    && Ordered(a.versions)
    && a.current == (if a.versions == [] then None else Some(a.versions[|a.versions| - 1].id))
  }

  ghost predicate Grows(a: Analysis, b: Analysis) {
    |a.versions| <= |b.versions| && b.versions[..|a.versions|] == a.versions
  }

  lemma {:induction false} InvLater(a: Analysis, r: Transcript.Round, nextId: Id, later: Transcript.Round, laterId: Id)
    requires Inv(a, r, nextId) && H.Later(r, later) && nextId <= laterId
    ensures Inv(a, later, laterId)
  {
    forall i | 0 <= i < |a.versions|
      ensures VersionOk(a.versions[i], later, laterId)
    {
      assert VersionOk(a.versions[i], r, nextId);
      var k: nat :| LegalAt(r, k, a.versions[i]);
      assert LegalAt(later, k, a.versions[i]);
    }
  }

  lemma {:induction false} FindAt(a: Analysis, r: Transcript.Round, nextId: Id, i: nat)
    requires Inv(a, r, nextId) && i < |a.versions|
    ensures Find(a.versions, a.versions[i].id) == Some(a.versions[i])
  {
    assert a.versions[i] in a.versions;
    var found := Find(a.versions, a.versions[i].id);
    var j :| 0 <= j < |a.versions| && a.versions[j] == found.value;
  }

  lemma {:induction false} MaxNoUpTo(vs: seq<Version>, n: nat)
    requires n <= |vs| && forall i | 0 <= i < |vs| :: vs[i].no == i + 1
    ensures MaxNo(vs[..n]) == n
  {
    if n > 0 {
      MaxNoUpTo(vs, n - 1);
      assert vs[..n][..n - 1] == vs[..n - 1];
    }
  }

  // An accepted output of a frozen input makes a legal version.
  lemma {:induction false} AcceptedIsLegal(a: Analysis, nextId: Id, r: Transcript.Round, task: Task,
                                        input: Input, result: AR.AnalyzeResult)
    requires H.Inv(r, nextId) && FrozenIn(r, input) && Accepted(r, input, result)
    ensures forall i | 0 <= i < |input.dimensions| :: input.dimensions[i].key in AR.ByKey(result.dimensions)
    ensures VersionOk(NewVersion(a, nextId, task, input, result), r, nextId + 1)
  {
    var i := FrozenLoads(r, nextId, input);
    var source := r.versions[i];
    assert H.VersionOk(source, nextId);
    var evidence := EvidenceSegments(input.transcriptVersionId, LoadSegments(r, input).value);
    assert evidence == EvidenceOf(source);
    EvidenceNosPositive(source, nextId);
    AR.AcceptedRowsAreLegal(result, input.dimensions, input.transcriptVersionId, evidence);
    OverallInRange(input.dimensions, AR.ScoreTableOf(AR.ByKey(result.dimensions)));
    AR.OverallIsOfRows(input.dimensions, AR.ByKey(result.dimensions));
    var version := NewVersion(a, nextId, task, input, result);
    assert version.transcriptVersionId == source.id && version.dimensions == input.dimensions;
    assert LegalAt(r, i, NewVersion(a, nextId, task, input, result));
  }

  lemma {:induction false} EvidenceNosPositive(source: Transcript.Version, nextId: Id)
    requires H.VersionOk(source, nextId)
    ensures forall k | 0 <= k < |EvidenceOf(source)| :: EvidenceOf(source)[k].segmentNo > 0
  {
    var evidence := EvidenceOf(source);
    IncludedMembers(source.segments);
    forall k | 0 <= k < |evidence|
      ensures evidence[k].segmentNo > 0
    {
      var s := IncludedPlaintext(source.segments)[k].segment;
      var j :| 0 <= j < |source.segments| && source.segments[j] == s;
    }
  }

  lemma {:induction false} OverallInRange(dims: seq<Scoring.Dimension>, table: Scoring.ScoreTable)
    requires Scoring.ScoreRequestLegal(dims, table)
    ensures Scoring.OverallScore(dims, table).Some? ==> 1.0 <= Scoring.OverallScore(dims, table).value <= 5.0
  {
    if Scoring.OverallScore(dims, table).Some? {
      Scoring.RangeCheckNeverFires(dims, Scoring.ScoresOf(dims, table));
    }
  }

  // A persist of a sealed snapshot either changes nothing or appends an accepted version.
  lemma {:induction false} PersistCases(a: Analysis, nextId: Id, r: Transcript.Round, task: Task, result: AR.AnalyzeResult)
    requires task.snapshot == Seal(task.snapshot.input)
    ensures var o := Persist(a, nextId, r, task, result);
            var input := task.snapshot.input;
            || (o.analysis == a && o.nextId == nextId)
            || (&& input.AnalysisInput? && Accepted(r, input, result) && FindByTask(a.versions, task.id).None?
                && var version := NewVersion(a, nextId, task, input, result);
                   o == Outcome(Analysis(a.versions + [version], Some(version.id)), nextId + 1, Ok(version)))
  {
  }

  // Every stored version is legal: one row per frozen dimension, scores and explanations
  // exclusive, evidence only from included segments of the frozen transcript version.
  lemma {:induction false} PersistKeeps(a: Analysis, nextId: Id, r: Transcript.Round, task: Task, result: AR.AnalyzeResult)
    requires Inv(a, r, nextId) && H.Inv(r, nextId)
    requires task.snapshot == Seal(task.snapshot.input) && FrozenIn(r, task.snapshot.input)
    ensures var o := Persist(a, nextId, r, task, result);
            && Inv(o.analysis, r, o.nextId) && Grows(a, o.analysis) && nextId <= o.nextId <= nextId + 1
            && (o.analysis.current == a.current || o.analysis.current == Some(nextId))
  {
    var o := Persist(a, nextId, r, task, result);
    PersistCases(a, nextId, r, task, result);
    if o.nextId != nextId {
      AcceptedKeeps(a, nextId, r, task, task.snapshot.input, result);
    }
  }

  lemma {:induction false} AcceptedKeeps(a: Analysis, nextId: Id, r: Transcript.Round, task: Task, input: Input,
                                         result: AR.AnalyzeResult)
    requires Inv(a, r, nextId) && H.Inv(r, nextId) && FrozenIn(r, input)
    requires Accepted(r, input, result) && FindByTask(a.versions, task.id).None?
    ensures var version := NewVersion(a, nextId, task, input, result);
            var after := Analysis(a.versions + [version], Some(version.id));
            version.id == nextId && Inv(after, r, nextId + 1) && Grows(a, after)
  {
    AcceptedIsLegal(a, nextId, r, task, input, result);
    AppendKeeps(a, nextId, r, NewVersion(a, nextId, task, input, result));
  }

  lemma {:induction false} AppendKeeps(a: Analysis, nextId: Id, r: Transcript.Round, version: Version)
    requires Inv(a, r, nextId)
    requires version.id == nextId && version.no == MaxNo(a.versions) + 1 && VersionOk(version, r, nextId + 1)
    requires FindByTask(a.versions, version.taskId).None?
    ensures Inv(Analysis(a.versions + [version], Some(version.id)), r, nextId + 1)
  {
    AllLegalAppend(a.versions, version, r, nextId);
    OrderedAppend(a.versions, version);
  }

  lemma {:induction false} AllLegalAppend(vs: seq<Version>, version: Version, r: Transcript.Round, nextId: Id)
    requires AllLegal(vs, r, nextId) && VersionOk(version, r, nextId + 1)
    ensures AllLegal(vs + [version], r, nextId + 1)
    ensures forall i | 0 <= i < |vs| :: vs[i].id < nextId
  {
    var longer, later := vs + [version], nextId + 1;
    forall i | 0 <= i < |longer|
      ensures VersionOk(longer[i], r, later)
    {
      if i < |vs| {
        assert VersionOk(vs[i], r, nextId);
      }
    }
    forall i | 0 <= i < |vs|
      ensures vs[i].id < nextId
    {
      assert VersionOk(vs[i], r, nextId);
    }
  }

  lemma {:induction false} OrderedAppend(vs: seq<Version>, version: Version)
    requires Ordered(vs) && version.no == MaxNo(vs) + 1
    requires forall i | 0 <= i < |vs| :: vs[i].id < version.id
    requires FindByTask(vs, version.taskId).None?
    ensures Ordered(vs + [version])
  {
    MaxNoUpTo(vs, |vs|);
    assert vs[..|vs|] == vs;
    forall i | 0 <= i < |vs|
      ensures vs[i].taskId != version.taskId
    {
      assert vs[i] in vs;
    }
  }
}
