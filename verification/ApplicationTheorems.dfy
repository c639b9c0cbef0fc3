// The cross-module theorems about every reachable state of an application.
module ApplicationTheorems {
  import opened Common
  import opened Application
  import opened ApplicationHistory
  import opened Coverage
  import opened Inputs
  import A = AnalysisHistory
  import AR = AnalysisResult
  import H = TranscriptHistory
  import Hiring
  import RoundAnalysis
  import RoundStatus
  import TaskLedger
  import TaskStatus
  import Text
  import Transcript

  // Once a stored round analysis was made from a transcript version that is no longer the
  // confirmed one, it stays so: no later confirm, re-analysis or persist makes it fresh again.
  lemma {:induction false} RoundStalenessIsPermanent(h: Run, t: nat, u: nat, i: nat, j: nat)
    requires IsRun(h) && t <= u < |h.states|
    requires i < |h.states[t].app.entries| && j < |h.states[t].app.entries[i].analysis.versions|
    ensures var now, later := h.states[t].app.entries, h.states[u].app.entries;
            var v := now[i].analysis.versions[j];
            && i < |later| && later[i].round.id == now[i].round.id
            && j < |later[i].analysis.versions| && later[i].analysis.versions[j] == v
            && (RoundAnalysis.Stale(v.transcriptVersionId, Confirmed(now[i])) ==>
                  RoundAnalysis.Stale(v.transcriptVersionId, Confirmed(later[i])))
  {
    ReachableInv(h, t);
    RunsKeep(h, t, u);
    var a, b := h.states[t].app.entries[i], h.states[u].app.entries[i];
    assert EntryOk(a, h.states[t].nextId) && EntryLater(a, b, h.states[t].nextId);
    assert A.VersionOk(a.analysis.versions[j], a.round, h.states[t].nextId);
    assert b.analysis.versions[j] == b.analysis.versions[..|a.analysis.versions|][j];
  }

  // Nor does an analysis version that was superseded ever become current again.
  lemma {:induction false} SupersededStaysSuperseded(h: Run, t: nat, u: nat, i: nat, j: nat)
    requires IsRun(h) && t <= u < |h.states|
    requires i < |h.states[t].app.entries| && j < |h.states[t].app.entries[i].analysis.versions|
    requires h.states[t].app.entries[i].analysis.current != Some(h.states[t].app.entries[i].analysis.versions[j].id)
    ensures i < |h.states[u].app.entries|
    ensures h.states[u].app.entries[i].analysis.current != Some(h.states[t].app.entries[i].analysis.versions[j].id)
  {
    ReachableInv(h, t);
    RunsKeep(h, t, u);
    var a, b := h.states[t].app.entries[i], h.states[u].app.entries[i];
    assert EntryOk(a, h.states[t].nextId) && EntryLater(a, b, h.states[t].nextId);
    assert A.VersionOk(a.analysis.versions[j], a.round, h.states[t].nextId);
  }

  // A comprehensive version that is stale stays stale.
  lemma {:induction false} ComprehensiveStalenessIsPermanent(h: Run, t: nat, u: nat, k: nat)
    requires IsRun(h) && t <= u < |h.states|
    requires k < |h.states[t].app.comprehensive.versions|
    requires ComprehensiveStale(h.states[t].app.comprehensive.versions[k].refs, h.states[t].app.entries)
    ensures var now, later := h.states[t].app, h.states[u].app;
            && k < |later.comprehensive.versions| && later.comprehensive.versions[k] == now.comprehensive.versions[k]
            && ComprehensiveStale(later.comprehensive.versions[k].refs, later.entries)
  {
    ReachableInv(h, t);
    RunsKeep(h, t, u);
    var now, later := h.states[t], h.states[u];
    var refs := now.app.comprehensive.versions[k].refs;
    assert later.app.comprehensive.versions[k] == later.app.comprehensive.versions[..|now.app.comprehensive.versions|][k];
    assert RefsKnown(now.app.entries, refs);
    var r :| 0 <= r < |refs| && !RefFresh(now.app.entries, refs[r]);
    assert RefKnown(now.app.entries, refs[r]);
    StaleRefStays(now.app.entries, later.app.entries, now.nextId, later.nextId, refs[r]);
  }

  // The round a reference names is covered, by the same analysis version.
  predicate StillCovered(entries: seq<Entry>, ref: RoundRef) {
    exists i | 0 <= i < |entries| :: CoversRef(entries[i], ref)
  }

  predicate CoversRef(e: Entry, ref: RoundRef) {
    e.round.id == ref.roundId && Covered(e) && CurrentVersion(e).value.id == ref.versionId
  }

  // In every reachable state the two judgements agree: a comprehensive version is not stale
  // exactly when every round it references is still classified as included, with the same
  // analysis version.
  lemma {:induction false} FreshIffStillCovered(h: Run, t: nat, s: State, k: nat)
    requires At(h, t, s)
    requires k < |s.app.comprehensive.versions|
    ensures var refs := s.app.comprehensive.versions[k].refs;
            !ComprehensiveStale(refs, s.app.entries) <==> forall r | 0 <= r < |refs| :: StillCovered(s.app.entries, refs[r])
  {
    ReachableInv(h, t);
    var refs := s.app.comprehensive.versions[k].refs;
    assert RefsKnown(s.app.entries, refs);
    forall r | 0 <= r < |refs|
      ensures RefFresh(s.app.entries, refs[r]) <==> StillCovered(s.app.entries, refs[r])
    {
      assert RefKnown(s.app.entries, refs[r]);
      FreshRefIffCovered(s.app.entries, s.nextId, refs[r]);
    }
  }

  lemma {:induction false} FreshRefIffCovered(entries: seq<Entry>, nextId: Id, ref: RoundRef)
    requires EntriesOk(entries, nextId) && RefKnown(entries, ref)
    ensures RefFresh(entries, ref) <==> StillCovered(entries, ref)
  {
    var i := FreshRefIsCovered(entries, nextId, ref);
    if StillCovered(entries, ref) {
      var c :| 0 <= c < |entries| && CoversRef(entries[c], ref);
      assert c == i;
    } else {
      assert !CoversRef(entries[i], ref);
    }
  }

  // So the coverage report lists each round of a non-stale version among the included rounds,
  // with that version, and not among the gaps.
  lemma {:induction false} FreshRoundsAreReported(h: Run, t: nat, s: State, k: nat, r: nat)
    requires At(h, t, s)
    requires k < |s.app.comprehensive.versions| && r < |s.app.comprehensive.versions[k].refs|
    requires !ComprehensiveStale(s.app.comprehensive.versions[k].refs, s.app.entries)
    ensures var ref := s.app.comprehensive.versions[k].refs[r];
            var report := Report(s.app.entries);
            && (exists x | x in report.included :: x.roundId == ref.roundId && x.versionId == ref.versionId)
            && (forall g | g in report.gaps :: g.roundId != ref.roundId)
  {
    FreshIffStillCovered(h, t, s, k);
    ReachableInv(h, t);
    var entries, ref := s.app.entries, s.app.comprehensive.versions[k].refs[r];
    assert StillCovered(entries, ref);
    CoveredIsReported(entries, ref);
  }

  lemma {:induction false} CoveredIsReported(entries: seq<Entry>, ref: RoundRef)
    requires RoundsDistinct(entries) && StillCovered(entries, ref)
    ensures exists x | x in Report(entries).included :: x.roundId == ref.roundId && x.versionId == ref.versionId
    ensures forall g | g in Report(entries).gaps :: g.roundId != ref.roundId
  {
    var i :| 0 <= i < |entries| && CoversRef(entries[i], ref);
    SplitKeepsOrder(entries, i);
    assert IncludedOf(entries[i]) in Report(entries).included;
    forall g | g in Report(entries).gaps
      ensures g.roundId != ref.roundId
    {
      var c := GapHasRound(entries, g);
    }
  }

  // In every reachable state each reason for a gap says exactly one thing about the round, and a
  // completed round without a confirmed transcript is never the reason.
  lemma {:induction false} GapReasonsExplained(h: Run, t: nat, s: State, i: nat)
    requires At(h, t, s) && i < |s.app.entries|
    ensures ReasonsFit(s.app.entries[i])
  {
    ReachableInv(h, t);
    assert EntryOk(s.app.entries[i], s.nextId);
    ReasonsFitEntry(s.app.entries[i], s.nextId);
  }

  ghost predicate ReasonsFit(e: Entry) {
    var reason := GapReasonOf(e);
    var vs := e.analysis.versions;
    && (reason == Some(CancelledRound) <==> e.round.status == RoundStatus.Cancelled)
    && (reason == Some(GapReason.EndedAbnormally) <==> e.round.status == RoundStatus.EndedAbnormally)
    && (reason == Some(GapReason.NotCompleted) <==>
          e.round.status !in {RoundStatus.Cancelled, RoundStatus.EndedAbnormally, RoundStatus.Completed})
    && (reason == Some(GapReason.WithoutTranscript) <==> e.round.completion.WithoutTranscript?)
    && reason != Some(TranscriptUnconfirmed)
    && (reason == Some(AnalysisNone) <==> e.round.completion.ConfirmedTranscript? && vs == [])
    && (reason == Some(AnalysisStale) <==>
          e.round.completion.ConfirmedTranscript? && vs != [] && Confirmed(e) != Some(vs[|vs| - 1].transcriptVersionId))
    && (reason == None <==>
          e.round.completion.ConfirmedTranscript? && vs != [] && Confirmed(e) == Some(vs[|vs| - 1].transcriptVersionId))
  }

  lemma {:induction false} ReasonsFitEntry(e: Entry, nextId: Id)
    requires EntryOk(e, nextId)
    ensures ReasonsFit(e)
  {
    CurrentIsLast(e, nextId);
    ConfirmedMeansCompleted(e.round, nextId);
  }

  lemma {:induction false} GapHasRound(entries: seq<Entry>, g: CoverageGap) returns (c: nat)
    requires g in GapsOfAll(entries)
    ensures c < |entries| && !Covered(entries[c]) && entries[c].round.id == g.roundId
  {
    var n := |entries| - 1;
    if g in GapsOfAll(entries[..n]) {
      c := GapHasRound(entries[..n], g);
    } else {
      c := n;
    }
  }

  // An output stored right after the request that created its task is not stale; staleness
  // comes only from what happens between the request and now.
  lemma {:induction false} StoredAtOnceIsFresh(h: Run, t: nat, s: State, actor: Id, key: string, summary: string, overall: Option<real>)
    requires At(h, t, s) && !Text.Blank(summary)
    requires RequestComprehensive(s.app, s.nextId, actor, key).reply == Ok(s.nextId)
    ensures var asked := RequestComprehensive(s.app, s.nextId, actor, key);
            var stored := PersistComprehensive(asked.app, asked.nextId, s.nextId, summary, overall).app;
            NewestIsFresh(stored)
  {
    ReachableInv(h, t);
    AskedAndStoredIsFresh(s, actor, key, summary, overall);
  }

  lemma {:induction false} AskedAndStoredIsFresh(s: State, actor: Id, key: string, summary: string, overall: Option<real>)
    requires Inv(s) && !Text.Blank(summary)
    requires RequestComprehensive(s.app, s.nextId, actor, key).reply == Ok(s.nextId)
    ensures var asked := RequestComprehensive(s.app, s.nextId, actor, key);
            NewestIsFresh(PersistComprehensive(asked.app, asked.nextId, s.nextId, summary, overall).app)
  {
    FrozenRefsAreFresh(s.app.entries);
    NewTask(s, actor, key, InputFor(s.app.id, s.app.entries));
    forall v | v in s.app.comprehensive.versions
      ensures v.taskId != s.nextId
    {
      var i :| 0 <= i < |s.app.comprehensive.versions| && s.app.comprehensive.versions[i] == v;
    }
  }

  predicate NewestIsFresh(a: App) {
    var vs := a.comprehensive.versions;
    && vs != []
    && a.comprehensive.current == Some(vs[|vs| - 1].id)
    && !ComprehensiveStale(vs[|vs| - 1].refs, a.entries)
  }

  // A request answered with an id that was unused created that task.
  lemma {:induction false} NewTask(s: State, actor: Id, key: string, input: Input)
    requires Inv(s) && TaskLedger.Request(s.app.tasks, s.nextId, actor, key, input).reply == Ok(s.nextId)
    ensures var o := TaskLedger.Request(s.app.tasks, s.nextId, actor, key, input);
            var task := TaskLedger.Task(s.nextId, actor, key, input, TaskStatus.Pending);
            o.nextId == s.nextId + 1 && TaskLedger.FindTask(o.ledger.tasks, s.nextId) == Some(task)
  {
    var l := s.app.tasks;
    var task := TaskLedger.Task(s.nextId, actor, key, input, TaskStatus.Pending);
    forall t | t in l.tasks
      ensures t.id != s.nextId
    {
      var i :| 0 <= i < |l.tasks| && l.tasks[i] == t;
    }
    var after := TaskLedger.Request(l, s.nextId, actor, key, input).ledger.tasks;
    assert after == l.tasks + [task];
    assert after[|l.tasks|] in after;
  }

  // Every frozen input that any task of the application holds can be loaded in every reachable
  // state: the references pass all checks and at least one segment comes back.
  lemma {:induction false} FrozenInputsAlwaysLoad(h: Run, t: nat, s: State, i: nat, task: TaskLedger.Task)
    requires At(h, t, s)
    requires i < |s.app.entries| && task in s.app.entries[i].tasks.tasks
    ensures task.input.AnalysisInput? && RoundAnalysis.RequireSnapshot(RoundAnalysis.Seal(task.input)).Ok?
    ensures var loaded := RoundAnalysis.LoadSegments(s.app.entries[i].round, task.input);
            loaded.Ok? && loaded.value != [] && RoundAnalysis.RefsOf(loaded.value) == task.input.refs
  {
    ReachableInv(h, t);
    var e := s.app.entries[i];
    assert EntryOk(e, s.nextId);
    var k := A.FrozenLoads(e.round, s.nextId, task.input);
  }

  // Every stored analysis meets the table constraints: one row per frozen dimension, distinct
  // keys and orders, a score exactly without an explanation, evidence that quotes contiguous
  // pieces of included segments of the confirmed transcript version it was made from, and the
  // overall score of exactly those rows.
  lemma {:induction false} StoredRowsAreLegal(h: Run, t: nat, s: State, i: nat, j: nat)
    requires At(h, t, s)
    requires i < |s.app.entries| && j < |s.app.entries[i].analysis.versions|
    ensures var e := s.app.entries[i];
            var v := e.analysis.versions[j];
            var source := Transcript.FindVersion(e.round.versions, v.transcriptVersionId);
            && v.no == j + 1
            && source.Some? && source.value.kind == Transcript.C
            && AR.RowsLegal(v.rows, v.dimensions, A.EvidenceOf(source.value), v.transcriptVersionId)
            && (v.overall.Some? ==> 1.0 <= v.overall.value <= 5.0)
            && AR.OverallOfRows(v.rows, v.overall)
  {
    ReachableInv(h, t);
    var e := s.app.entries[i];
    var v := e.analysis.versions[j];
    assert EntryOk(e, s.nextId);
    assert A.VersionOk(v, e.round, s.nextId);
    var k: nat :| A.LegalAt(e.round, k, v);
    H.FindAt(e.round.versions, k);
  }

  // A hiring decision can only be added while the analysis it cites is the current one of a round
  // that the coverage code counts as included at that moment.
  lemma {:induction false} DecisionsCiteCoveredRounds(h: Run, t: nat, s: State, actor: Id, payload: Hiring.Payload)
    requires At(h, t, s)
    requires var o := Hiring.Decide(s.app.board, s.app.entries, s.nextId, actor, payload);
             o.board.decisions != s.app.board.decisions
    ensures var row := Hiring.Decide(s.app.board, s.app.entries, s.nextId, actor, payload).reply.value;
            exists x | x in Report(s.app.entries).included ::
              x.roundId == row.roundId && x.versionId == row.versionId && x.overall == row.overall
  {
    ReachableInv(h, t);
    Hiring.DecideEffect(s.app.board, s.app.entries, s.nextId, actor, payload);
    var row := Hiring.Decide(s.app.board, s.app.entries, s.nextId, actor, payload).reply.value;
    var e, v :| Hiring.Cites(s.app.entries, row, e, v);
    CitedIsIncluded(s.app.entries, s.nextId, row, e, v);
  }

  lemma {:induction false} CitedIsIncluded(entries: seq<Entry>, nextId: Id, row: Hiring.Decision, e: Entry,
                                        v: RoundAnalysis.Version)
    requires EntriesOk(entries, nextId) && Hiring.Cites(entries, row, e, v)
    ensures exists x | x in Report(entries).included ::
              x.roundId == row.roundId && x.versionId == row.versionId && x.overall == row.overall
  {
    var i :| 0 <= i < |entries| && entries[i] == e;
    assert EntryOk(entries[i], nextId);
    ConfirmedMeansCompleted(e.round, nextId);
    CoveredIff(e);
    SplitKeepsOrder(entries, i);
    assert IncludedOf(e) in Report(entries).included;
  }
}
