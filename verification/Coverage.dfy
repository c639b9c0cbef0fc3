// Comprehensive analysis of an application: which rounds it covers, the references it freezes
// to their analysis versions, and when those references have gone stale
// (comprehensive_analyses.py).
module Coverage {
  import opened Common
  import opened Inputs
  import AR = AnalysisResult
  import RoundAnalysis
  import RoundStatus
  import TaskLedger
  import Transcript

  // One interview round of an application with everything that hangs on it. The rounds of an
  // application are listed by sequence number.
  datatype Entry = Entry(sequenceNo: nat, round: Transcript.Round, analysis: RoundAnalysis.Analysis, tasks: TaskLedger.Ledger)

  function Confirmed(e: Entry): Option<Id> {
    if e.round.master.None? then None else e.round.master.value.confirmed
  }

  function CurrentVersion(e: Entry): Option<RoundAnalysis.Version> {
    if e.analysis.current.None? then None else RoundAnalysis.Find(e.analysis.versions, e.analysis.current.value)
  }

  // ---------- coverage of one round ----------

  function GapReasonOf(e: Entry): Option<GapReason> {
    var version := CurrentVersion(e);
    if e.round.status == RoundStatus.Cancelled then Some(CancelledRound)
    else if e.round.status == RoundStatus.EndedAbnormally then Some(GapReason.EndedAbnormally)
    else if e.round.status != RoundStatus.Completed then Some(GapReason.NotCompleted)
    else if e.round.completion.WithoutTranscript? then Some(GapReason.WithoutTranscript)
    else if !e.round.completion.ConfirmedTranscript? then Some(TranscriptUnconfirmed)
    else if Confirmed(e).None? then Some(TranscriptUnconfirmed)
    else if e.analysis.current.None? || version.None? then Some(AnalysisNone)
    else if e.analysis.current != Some(version.value.id) then Some(AnalysisStale)
    else if RoundAnalysis.Stale(version.value.transcriptVersionId, Confirmed(e)) then Some(AnalysisStale)
    else None
  }

  predicate Covered(e: Entry) {
    GapReasonOf(e).None?
  }

  function GapOf(e: Entry): CoverageGap
    requires !Covered(e)
  {
    CoverageGap(e.round.id, e.sequenceNo, GapReasonOf(e).value, e.round.status)
  }

  function IncludedOf(e: Entry): IncludedRound
    requires Covered(e)
  {
    var version := CurrentVersion(e).value;
    IncludedRound(e.round.id, e.sequenceNo, version.id, version.overall)
  }

  // A round is covered exactly when it is completed with a confirmed transcript and its current
  // analysis was made from the transcript version that is confirmed now.
  lemma {:induction false} CoveredIff(e: Entry)
    ensures Covered(e) <==>
            && e.round.status == RoundStatus.Completed
            && e.round.completion.ConfirmedTranscript?
            && CurrentVersion(e).Some?
            && Confirmed(e) == Some(CurrentVersion(e).value.transcriptVersionId)
  {
  }

  // ---------- the report ----------

  function CoveredCount(entries: seq<Entry>): nat {
    if entries == [] then 0
    else CoveredCount(entries[..|entries| - 1]) + if Covered(entries[|entries| - 1]) then 1 else 0
  }

  function IncludedOfAll(entries: seq<Entry>): seq<IncludedRound> {
    if entries == [] then []
    else
      var last := entries[|entries| - 1];
      IncludedOfAll(entries[..|entries| - 1]) + if Covered(last) then [IncludedOf(last)] else []
  }

  function GapsOfAll(entries: seq<Entry>): seq<CoverageGap> {
    if entries == [] then []
    else
      var last := entries[|entries| - 1];
      GapsOfAll(entries[..|entries| - 1]) + if Covered(last) then [] else [GapOf(last)]
  }

  function ReportOf(total: nat, included: seq<IncludedRound>, gaps: seq<CoverageGap>): CoverageReport {
    var eligible := |included|;
    CoverageReport(eligible, total, included, gaps,
                   eligible < total || gaps != [] || (eligible == 1 && total >= 2),
                   eligible == 1,
                   if total < eligible then 0 else total - eligible)
  }

  function Report(entries: seq<Entry>): CoverageReport {
    ReportOf(|entries|, IncludedOfAll(entries), GapsOfAll(entries))
  }

  method BuildCoverageReport(entries: seq<Entry>) returns (report: CoverageReport)
    ensures report == Report(entries)
  {
    var gaps: seq<CoverageGap> := [];
    var included: seq<IncludedRound> := [];
    for i := 0 to |entries|
      invariant gaps == GapsOfAll(entries[..i])
      invariant included == IncludedOfAll(entries[..i])
    {
      assert entries[..i + 1][..i] == entries[..i];
      var reason := GapReasonOf(entries[i]);
      if reason.Some? {
        gaps := gaps + [CoverageGap(entries[i].round.id, entries[i].sequenceNo, reason.value, entries[i].round.status)];
        continue;
      }
      var version := CurrentVersion(entries[i]).value;
      included := included + [IncludedRound(entries[i].round.id, entries[i].sequenceNo, version.id, version.overall)];
    }
    assert entries[..|entries|] == entries;
    report := ReportOf(|entries|, included, gaps);
  }

  lemma {:induction false} SplitCounts(entries: seq<Entry>)
    ensures |IncludedOfAll(entries)| == CoveredCount(entries)
    ensures |IncludedOfAll(entries)| + |GapsOfAll(entries)| == |entries|
  {
    if entries != [] {
      SplitCounts(entries[..|entries| - 1]);
    }
  }

  lemma {:induction false} CoveredBefore(entries: seq<Entry>, i: nat)
    requires i < |entries|
    ensures CoveredCount(entries[..i + 1]) == CoveredCount(entries[..i]) + if Covered(entries[i]) then 1 else 0
    ensures CoveredCount(entries[..i]) <= i
    decreases i
  {
    assert entries[..i + 1][..i] == entries[..i];
    if i > 0 {
      CoveredBefore(entries, i - 1);
    }
  }

  // The loop splits the rounds in order: a covered round stands among the included ones at the
  // number of covered rounds before it, any other round among the gaps at the number of gaps
  // before it.
  lemma {:induction false} SplitKeepsOrder(entries: seq<Entry>, i: nat)
    requires i < |entries|
    ensures var before := CoveredCount(entries[..i]);
            && before <= i
            && (Covered(entries[i]) ==> before < |IncludedOfAll(entries)| && IncludedOfAll(entries)[before] == IncludedOf(entries[i]))
            && (!Covered(entries[i]) ==> i - before < |GapsOfAll(entries)| && GapsOfAll(entries)[i - before] == GapOf(entries[i]))
  {
    var n := |entries| - 1;
    var shorter := entries[..n];
    CoveredBefore(entries, i);
    if i == n {
      SplitCounts(shorter);
    } else {
      SplitKeepsOrder(shorter, i);
      assert shorter[..i] == entries[..i];
    }
  }

  // The counters of the report agree with the split: every round is included or a gap, the
  // missing rounds are exactly the gaps, and coverage is insufficient exactly when there is one.
  lemma {:induction false} ReportAddsUp(entries: seq<Entry>)
    ensures var report := Report(entries);
            && report.eligible + |report.gaps| == report.total == |entries|
            && report.missing == |report.gaps|
            && report.eligible == |report.included|
            && (report.singleOnly <==> |report.included| == 1)
            && (report.insufficient <==> report.gaps != [])
            && (report.insufficient <==> exists i | 0 <= i < |entries| :: !Covered(entries[i]))
  {
    SplitCounts(entries);
    if exists i | 0 <= i < |entries| :: !Covered(entries[i]) {
      var i :| 0 <= i < |entries| && !Covered(entries[i]);
      SplitKeepsOrder(entries, i);
    } else {
      AllCoveredNoGaps(entries);
    }
  }

  // What the report shows of each round: an included one with its current analysis version and
  // score, a gap with its status and the reason.
  lemma {:induction false} ReportShowsRound(entries: seq<Entry>, i: nat)
    requires i < |entries|
    ensures var e, before := entries[i], CoveredCount(entries[..i]);
            var report := Report(entries);
            && (Covered(e) ==>
                  && before < |report.included| && CurrentVersion(e).Some?
                  && report.included[before]
                     == IncludedRound(e.round.id, e.sequenceNo, CurrentVersion(e).value.id, CurrentVersion(e).value.overall))
            && (!Covered(e) ==>
                  && before <= i && i - before < |report.gaps|
                  && Some(report.gaps[i - before].reason) == GapReasonOf(e)
                  && report.gaps[i - before].roundId == e.round.id
                  && report.gaps[i - before].sequenceNo == e.sequenceNo
                  && report.gaps[i - before].status == e.round.status)
  {
    SplitKeepsOrder(entries, i);
  }

  lemma {:induction false} AllCoveredNoGaps(entries: seq<Entry>)
    requires forall i | 0 <= i < |entries| :: Covered(entries[i])
    ensures GapsOfAll(entries) == []
  {
    if entries != [] {
      AllCoveredNoGaps(entries[..|entries| - 1]);
    }
  }

  // ---------- references ----------

  function DimensionRefs(rows: seq<AR.DimensionRow>): seq<DimensionRef> {
    seq(|rows|, i requires 0 <= i < |rows| =>
      DimensionRef(rows[i].key, rows[i].name, rows[i].weight, rows[i].score, rows[i].score.None?))
  }

  function Pointers(key: string, refs: seq<AR.EvidenceRef>): seq<EvidencePointer> {
    seq(|refs|, i requires 0 <= i < |refs| => EvidencePointer(key, refs[i].segmentNo, refs[i].segmentId))
  }

  function EvidencePointers(rows: seq<AR.DimensionRow>): seq<EvidencePointer> {
    if rows == [] then []
    else EvidencePointers(rows[..|rows| - 1]) + Pointers(rows[|rows| - 1].key, rows[|rows| - 1].evidence)
  }

  function RefOf(e: Entry): RoundRef
    requires Covered(e)
  {
    var v := CurrentVersion(e).value;
    RoundRef(e.round.id, e.sequenceNo, v.id, v.no, v.overall, DimensionRefs(v.rows), EvidencePointers(v.rows))
  }

  // How many pieces of evidence the first i rows cite.
  function EvidenceBefore(rows: seq<AR.DimensionRow>, i: nat): nat
    requires i <= |rows|
  {
    if i == 0 then 0 else EvidenceBefore(rows, i - 1) + |rows[i - 1].evidence|
  }

  // The pointers are the evidence of all rows, row by row and in order, each under its row's key.
  lemma {:induction false} PointersInOrder(rows: seq<AR.DimensionRow>, n: nat)
    requires n <= |rows|
    ensures |EvidencePointers(rows[..n])| == EvidenceBefore(rows, n)
    ensures forall i, k | 0 <= i < n && 0 <= k < |rows[i].evidence| ::
              PointsTo(EvidencePointers(rows[..n]), EvidenceBefore(rows, i) + k, rows[i].key, rows[i].evidence[k])
  {
    if n > 0 {
      var before, last := EvidencePointers(rows[..n - 1]), rows[n - 1];
      PointersInOrder(rows, n - 1);
      assert rows[..n][..n - 1] == rows[..n - 1];
      var pointers := before + Pointers(last.key, last.evidence);
      assert EvidencePointers(rows[..n]) == pointers;
      forall i, k | 0 <= i < n && 0 <= k < |rows[i].evidence|
        ensures PointsTo(pointers, EvidenceBefore(rows, i) + k, rows[i].key, rows[i].evidence[k])
      {
        var at := EvidenceBefore(rows, i) + k;
        if i < n - 1 {
          assert PointsTo(before, at, rows[i].key, rows[i].evidence[k]);
          assert pointers[at] == before[at];
        } else {
          assert at == |before| + k && pointers[at] == Pointers(last.key, last.evidence)[k];
        }
      }
    }
  }

  predicate PointsTo(pointers: seq<EvidencePointer>, at: nat, key: string, evidence: AR.EvidenceRef) {
    && at < |pointers|
    && pointers[at].key == key
    && pointers[at].segmentId == evidence.segmentId
    && pointers[at].segmentNo == evidence.segmentNo
  }

  // What a frozen reference holds: the round, its current analysis version with number and
  // overall score, one dimension for each row of that version, marked insufficient exactly if the
  // row has no score, and a pointer for each piece of evidence.
  lemma {:induction false} RefShowsVersion(e: Entry)
    requires Covered(e)
    ensures CurrentVersion(e).Some?
    ensures var ref, v := RefOf(e), CurrentVersion(e).value;
            && ref.roundId == e.round.id && ref.sequenceNo == e.sequenceNo
            && ref.versionId == v.id && ref.versionNo == v.no && ref.overall == v.overall
            && |ref.dimensions| == |v.rows|
            && (forall i | 0 <= i < |v.rows| :: RefersTo(ref.dimensions[i], v.rows[i]))
            && |ref.evidence| == EvidenceBefore(v.rows, |v.rows|)
            && (forall i, k | 0 <= i < |v.rows| && 0 <= k < |v.rows[i].evidence| ::
                  PointsTo(ref.evidence, EvidenceBefore(v.rows, i) + k, v.rows[i].key, v.rows[i].evidence[k]))
  {
    var v := CurrentVersion(e).value;
    PointersInOrder(v.rows, |v.rows|);
    assert v.rows[..|v.rows|] == v.rows;
    RefersToRows(v.rows);
  }

  predicate RefersTo(ref: DimensionRef, row: AR.DimensionRow) {
    && ref.key == row.key && ref.name == row.name && ref.weight == row.weight && ref.score == row.score
    && (ref.insufficient <==> row.score == None)
  }

  lemma {:induction false} RefersToRows(rows: seq<AR.DimensionRow>)
    ensures |DimensionRefs(rows)| == |rows|
    ensures forall i | 0 <= i < |rows| :: RefersTo(DimensionRefs(rows)[i], rows[i])
  {
  }

  method BuildRoundRef(e: Entry) returns (ref: RoundRef)
    requires Covered(e)
    ensures ref == RefOf(e)
  {
    var v := CurrentVersion(e).value;
    var dimensions: seq<DimensionRef> := [];
    var evidence: seq<EvidencePointer> := [];
    for i := 0 to |v.rows|
      invariant dimensions == DimensionRefs(v.rows[..i])
      invariant evidence == EvidencePointers(v.rows[..i])
    {
      var row := v.rows[i];
      assert v.rows[..i + 1][..i] == v.rows[..i];
      dimensions := dimensions + [DimensionRef(row.key, row.name, row.weight, row.score, row.score.None?)];
      var pointers := BuildPointers(row.key, row.evidence);
      evidence := evidence + pointers;
    }
    assert v.rows[..|v.rows|] == v.rows;
    ref := RoundRef(e.round.id, e.sequenceNo, v.id, v.no, v.overall, dimensions, evidence);
  }

  method BuildPointers(key: string, refs: seq<AR.EvidenceRef>) returns (pointers: seq<EvidencePointer>)
    ensures pointers == Pointers(key, refs)
  {
    pointers := [];
    for k := 0 to |refs|
      invariant pointers == Pointers(key, refs[..k])
    {
      pointers := pointers + [EvidencePointer(key, refs[k].segmentNo, refs[k].segmentId)];
    }
    assert refs[..|refs|] == refs;
  }

  function RefsOfAll(entries: seq<Entry>): seq<RoundRef> {
    if entries == [] then []
    else
      var last := entries[|entries| - 1];
      RefsOfAll(entries[..|entries| - 1]) + if Covered(last) then [RefOf(last)] else []
  }

  function FindEntry(entries: seq<Entry>, roundId: Id): (r: Option<Entry>)
    ensures r.Some? ==> r.value in entries && r.value.round.id == roundId
    ensures r.None? ==> forall e | e in entries :: e.round.id != roundId
  {
    if entries == [] then None
    else if entries[0].round.id == roundId then Some(entries[0])
    else FindEntry(entries[1..], roundId)
  }

  // One reference is still the round's current analysis, made from the confirmed transcript.
  predicate RefFresh(entries: seq<Entry>, ref: RoundRef) {
    var found := FindEntry(entries, ref.roundId);
    && found.Some?
    && found.value.analysis.current == Some(ref.versionId)
    && var version := RoundAnalysis.Find(found.value.analysis.versions, ref.versionId);
       version.Some? && !RoundAnalysis.Stale(version.value.transcriptVersionId, Confirmed(found.value))
  }

  predicate ComprehensiveStale(refs: seq<RoundRef>, entries: seq<Entry>) {
    refs == [] || exists i | 0 <= i < |refs| :: !RefFresh(entries, refs[i])
  }

  method IsComprehensiveVersionStale(refs: seq<RoundRef>, entries: seq<Entry>) returns (stale: bool)
    ensures stale <==> ComprehensiveStale(refs, entries)
  {
    if refs == [] {
      return true;
    }
    for i := 0 to |refs|
      invariant forall k | 0 <= k < i :: RefFresh(entries, refs[k])
    {
      var found := FindEntry(entries, refs[i].roundId);
      if found.None? {
        return true;
      }
      if found.value.analysis.current != Some(refs[i].versionId) {
        return true;
      }
      var version := RoundAnalysis.Find(found.value.analysis.versions, refs[i].versionId);
      if version.None? || RoundAnalysis.Stale(version.value.transcriptVersionId, Confirmed(found.value)) {
        return true;
      }
    }
    return false;
  }

  predicate RoundsDistinct(entries: seq<Entry>) {
    forall i, j | 0 <= i < j < |entries| :: entries[i].round.id != entries[j].round.id
  }

  lemma {:induction false} FindEntryAt(entries: seq<Entry>, i: nat)
    requires RoundsDistinct(entries) && i < |entries|
    ensures FindEntry(entries, entries[i].round.id) == Some(entries[i])
  {
    assert entries[i] in entries;
    var found := FindEntry(entries, entries[i].round.id);
    var j :| 0 <= j < |entries| && entries[j] == found.value;
  }

  lemma {:induction false} RefsComeFromCovered(entries: seq<Entry>, k: nat) returns (i: nat)
    requires k < |RefsOfAll(entries)|
    ensures i < |entries| && Covered(entries[i]) && RefsOfAll(entries)[k] == RefOf(entries[i])
  {
    var n := |entries| - 1;
    var shorter := entries[..n];
    if k < |RefsOfAll(shorter)| {
      i := RefsComeFromCovered(shorter, k);
    } else {
      i := n;
    }
  }

  // The references are those of the covered rounds, in the order of the rounds.
  lemma {:induction false} RefsKeepOrder(entries: seq<Entry>, i: nat)
    requires i < |entries| && Covered(entries[i])
    ensures |RefsOfAll(entries)| == CoveredCount(entries)
    ensures CoveredCount(entries[..i]) < |RefsOfAll(entries)|
    ensures RefsOfAll(entries)[CoveredCount(entries[..i])] == RefOf(entries[i])
  {
    var n := |entries| - 1;
    var shorter := entries[..n];
    RefsMatchIncluded(entries);
    SplitCounts(entries);
    SplitKeepsOrder(entries, i);
    if i == n {
      RefsMatchIncluded(shorter);
      SplitCounts(shorter);
    } else {
      RefsKeepOrder(shorter, i);
      assert shorter[..i] == entries[..i];
    }
  }

  lemma {:induction false} RefsMatchIncluded(entries: seq<Entry>)
    ensures |RefsOfAll(entries)| == |IncludedOfAll(entries)|
    ensures forall k | 0 <= k < |RefsOfAll(entries)| ::
              && RefsOfAll(entries)[k].roundId == IncludedOfAll(entries)[k].roundId
              && RefsOfAll(entries)[k].versionId == IncludedOfAll(entries)[k].versionId
  {
    if entries != [] {
      RefsMatchIncluded(entries[..|entries| - 1]);
    }
  }

  // References frozen and checked in the same state are stale only if there are none.
  lemma {:induction false} FrozenRefsAreFresh(entries: seq<Entry>)
    requires RoundsDistinct(entries)
    ensures ComprehensiveStale(RefsOfAll(entries), entries) <==> Report(entries).eligible == 0
  {
    var refs := RefsOfAll(entries);
    RefsMatchIncluded(entries);
    forall k | 0 <= k < |refs|
      ensures RefFresh(entries, refs[k])
    {
      var i := RefsComeFromCovered(entries, k);
      FindEntryAt(entries, i);
    }
  }

  // ---------- comprehensive versions ----------

  datatype Version = Version(
    id: Id, no: nat, taskId: Id, input: Input, refs: seq<RoundRef>, coverage: CoverageReport,
    overall: Option<real>, summary: string)

  datatype Comprehensive = Comprehensive(versions: seq<Version>, current: Option<Id>)

  function FindByTask(versions: seq<Version>, taskId: Id): (r: Option<Version>)
    ensures r.Some? ==> r.value in versions && r.value.taskId == taskId
    ensures r.None? ==> forall v | v in versions :: v.taskId != taskId
  {
    if versions == [] then None
    else if versions[0].taskId == taskId then Some(versions[0])
    else FindByTask(versions[1..], taskId)
  }

  function MaxNo(versions: seq<Version>): nat {
    if versions == [] then 0 else Max(MaxNo(versions[..|versions| - 1]), versions[|versions| - 1].no)
  }

  function InputFor(applicationId: Id, entries: seq<Entry>): Input {
    ComprehensiveInput(applicationId, RefsOfAll(entries), Report(entries))
  }
}
