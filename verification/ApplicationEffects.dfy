// What the calls on an application store, stated without the code that does it: requests and
// outputs of comprehensive analyses, and of the analyses of its rounds.
module ApplicationEffects {
  import opened Common
  import opened Application
  import opened ApplicationHistory
  import opened Coverage
  import opened Inputs
  import A = AnalysisHistory
  import AE = AnalysisEffects
  import AR = AnalysisResult
  import Hiring
  import H = TranscriptHistory
  import RoundAnalysis
  import RoundStatus
  import Scoring
  import TaskLedger
  import TaskRows
  import TaskRuns
  import TaskStatus
  import Text
  import Transcript

  predicate NothingInFlight(tasks: seq<TaskLedger.Task>) {
    forall j | 0 <= j < |tasks| :: tasks[j].status != TaskStatus.Pending && tasks[j].status != TaskStatus.Running
  }

  predicate NewKey(l: TaskLedger.Ledger, actor: Id, key: string) {
    key != "" && TaskLedger.RequestKey(actor, key) !in l.keys
  }

  // ---------- comprehensive analyses ----------

  // A comprehensive request is refused without change on a closed application or one that is not
  // interviewing, and if no round is covered. Otherwise, under an unused key and with nothing in
  // flight, it makes a pending task whose input is the application's report and its references, and
  // with a task in flight it is answered with that task if its input is the same.
  lemma {:induction false} ComprehensiveRequestEffect(a: App, nextId: Id, actor: Id, key: string, k: nat)
    ensures var o := RequestComprehensive(a, nextId, actor, key);
            var input := ComprehensiveInput(a.id, RefsOfAll(a.entries), Report(a.entries));
            var open := a.board.status == Hiring.InProgress && a.board.pipeline == Hiring.Interviewing;
            var covered := exists i | 0 <= i < |a.entries| :: Covered(a.entries[i]);
            && (o.reply.Err? ==> o.app == a && o.nextId == nextId)
            && (o.reply.Ok? ==> open && covered)
            && (!open ==> o.reply == Err(WrongState))
            && (open && !covered ==> o.reply == Err(NothingEligible))
            && (open && covered && NewKey(a.tasks, actor, key) && NothingInFlight(a.tasks.tasks) ==>
                  && o.reply == Ok(nextId) && o.nextId == nextId + 1
                  && o.app == a.(tasks := TaskLedger.Ledger(
                       a.tasks.tasks + [TaskLedger.Task(nextId, actor, key, input, TaskStatus.Pending)],
                       a.tasks.keys[TaskLedger.RequestKey(actor, key) := input])))
            && (open && covered && NewKey(a.tasks, actor, key) && TaskRuns.LatestInFlightAt(a.tasks.tasks, k) ==>
                  (o.reply == if a.tasks.tasks[k].input == input then Ok(a.tasks.tasks[k].id) else Err(Refused)))
  {
    EligibleIffCovered(a.entries);
    TaskRuns.RequestEffect(a.tasks, nextId, actor, key, ComprehensiveInput(a.id, RefsOfAll(a.entries), Report(a.entries)), k);
  }

  lemma {:induction false} EligibleIffCovered(entries: seq<Entry>)
    ensures Report(entries).eligible >= 1 <==> exists i | 0 <= i < |entries| :: Covered(entries[i])
  {
    ReportAddsUp(entries);
    if i :| 0 <= i < |entries| && Covered(entries[i]) {
      SplitKeepsOrder(entries, i);
    } else {
      NoneCovered(entries);
    }
  }

  lemma {:induction false} NoneCovered(entries: seq<Entry>)
    requires forall i | 0 <= i < |entries| :: !Covered(entries[i])
    ensures IncludedOfAll(entries) == []
  {
    if entries != [] {
      NoneCovered(entries[..|entries| - 1]);
    }
  }

  // A stored version: the sent summary, stripped, and score, with the references and the report
  // that its task froze.
  predicate HoldsSummary(v: Version, no: nat, taskId: Id, input: Input, summary: string, overall: Option<real>) {
    && v.no == no && v.taskId == taskId && v.input == input
    && input.ComprehensiveInput? && v.refs == input.roundRefs && v.coverage == input.coverage
    && v.overall == overall && v.summary == Text.Strip(summary)
  }

  // Storing the output of a comprehensive task that has no version yet succeeds exactly for a
  // summary that is not blank, and then appends one version that holds it and makes it current. A
  // task that has one is answered with it; an unknown task is refused.
  lemma {:induction false} StoreEffect(s: State, taskId: Id, summary: string, overall: Option<real>)
    requires Inv(s)
    ensures var o := PersistComprehensive(s.app, s.nextId, taskId, summary, overall);
            var task := TaskLedger.FindTask(s.app.tasks.tasks, taskId);
            var stored := FindByTask(s.app.comprehensive.versions, taskId);
            && (o.reply.Err? ==> o.app == s.app && o.nextId == s.nextId)
            && (task.None? ==> o.reply == Err(NotFound))
            && (task.Some? && stored.Some? ==> o == Outcome(s.app, s.nextId, Ok(stored.value.id)))
            && (task.Some? && stored.None? ==> (o.reply.Ok? <==> !Text.Blank(summary)))
            && (task.Some? && stored.None? && o.reply.Ok? ==>
                  Stores(s.app, o.app, s.nextId, task.value, summary, overall) && o.reply == Ok(s.nextId) && o.nextId == s.nextId + 1)
  {
    var vs := s.app.comprehensive.versions;
    MaxNoUpTo(vs, |vs|);
    assert vs[..|vs|] == vs;
    var task := TaskLedger.FindTask(s.app.tasks.tasks, taskId);
    if task.Some? {
      assert InputOk(s.app.entries, task.value.input);
    }
  }

  predicate Stores(a: App, after: App, id: Id, task: TaskLedger.Task, summary: string, overall: Option<real>) {
    var n := |a.comprehensive.versions|;
    && after == a.(comprehensive := after.comprehensive)
    && |after.comprehensive.versions| == n + 1
    && after.comprehensive.versions[..n] == a.comprehensive.versions
    && after.comprehensive.versions[n].id == id && after.comprehensive.current == Some(id)
    && HoldsSummary(after.comprehensive.versions[n], n + 1, task.id, task.input, summary, overall)
  }

  // A stored version stays as it was stored in every later state of a run.
  lemma {:induction false} StoredForGood(h: Run, t: nat, u: nat, n: nat)
    requires IsRun(h) && t <= u < |h.states| && n < |h.states[t].app.comprehensive.versions|
    ensures n < |h.states[u].app.comprehensive.versions|
    ensures h.states[u].app.comprehensive.versions[n] == h.states[t].app.comprehensive.versions[n]
  {
    ReachableInv(h, t);
    RunsKeep(h, t, u);
    StaysInPlace(h.states[t], h.states[u], n);
  }

  lemma {:induction false} StaysInPlace(s: State, later: State, n: nat)
    requires Later(s, later) && n < |s.app.comprehensive.versions|
    ensures n < |later.app.comprehensive.versions| && later.app.comprehensive.versions[n] == s.app.comprehensive.versions[n]
  {
    var vs := s.app.comprehensive.versions;
    assert later.app.comprehensive.versions[n] == later.app.comprehensive.versions[..|vs|][n];
  }

  // In every reachable state, the reference that a covered round would freeze marks a dimension
  // as insufficient exactly if the stored row carries an explanation instead of a score.
  lemma {:induction false} InsufficientMeansExplained(h: Run, t: nat, s: State, i: nat, k: nat)
    requires At(h, t, s) && i < |s.app.entries| && Covered(s.app.entries[i])
    requires CurrentVersion(s.app.entries[i]).Some? && k < |CurrentVersion(s.app.entries[i]).value.rows|
    ensures k < |RefOf(s.app.entries[i]).dimensions|
    ensures var row := CurrentVersion(s.app.entries[i]).value.rows[k];
            RefOf(s.app.entries[i]).dimensions[k].insufficient
            <==> row.insufficient.Some? && !Text.Blank(row.insufficient.value)
  {
    ReachableInv(h, t);
    var e := s.app.entries[i];
    assert EntryOk(e, s.nextId);
    RefShowsVersion(e);
    CurrentRowLegal(e, s.nextId, k);
  }

  lemma {:induction false} CurrentRowLegal(e: Entry, nextId: Id, k: nat)
    requires EntryOk(e, nextId) && CurrentVersion(e).Some? && k < |CurrentVersion(e).value.rows|
    ensures var row := CurrentVersion(e).value.rows[k];
            row.score == None <==> row.insufficient.Some? && !Text.Blank(row.insufficient.value)
  {
    var v := CurrentVersion(e).value;
    var j :| 0 <= j < |e.analysis.versions| && e.analysis.versions[j] == v;
    assert A.VersionOk(e.analysis.versions[j], e.round, nextId);
    var x: nat :| A.LegalAt(e.round, x, v);
  }

  // ---------- analyses of rounds ----------

  // A request that cannot be frozen changes nothing. One that can, under an unused key and with
  // nothing in flight, makes a pending task of exactly the frozen input.
  lemma {:induction false} AnalysisRequestEffect(e: Entry, nextId: Id, actor: Id, key: string, jobVersionId: Id,
                                                 raw: Option<seq<Scoring.RawDimension>>)
    ensures var (later, laterId) := RequestAnalysis(e, nextId, actor, key, jobVersionId, raw);
            var frozen := RoundAnalysis.Freeze(e.round, jobVersionId, raw);
            && later == e.(tasks := later.tasks)
            && (frozen.Err? ==> later == e && laterId == nextId)
            && (frozen.Ok? && NewKey(e.tasks, actor, key) && NothingInFlight(e.tasks.tasks) ==>
                  && laterId == nextId + 1
                  && later.tasks.tasks == e.tasks.tasks + [TaskLedger.Task(nextId, actor, key, frozen.value, TaskStatus.Pending)]
                  && later.tasks.keys == e.tasks.keys[TaskLedger.RequestKey(actor, key) := frozen.value])
  {
    var frozen := RoundAnalysis.Freeze(e.round, jobVersionId, raw);
    if frozen.Ok? {
      TaskRuns.RequestEffect(e.tasks, nextId, actor, key, frozen.value, 0);
    }
  }

  // An output for a task of the round that has no version yet is stored exactly if it is accepted
  // against the confirmed version its task was frozen from; the new version holds it and is current.
  lemma {:induction false} AnalysisStoreEffect(e: Entry, nextId: Id, taskId: Id, result: AR.AnalyzeResult)
    requires EntryOk(e, nextId) && TaskLedger.FindTask(e.tasks.tasks, taskId).Some?
    requires RoundAnalysis.FindByTask(e.analysis.versions, taskId).None?
    ensures var input := TaskLedger.FindTask(e.tasks.tasks, taskId).value.input;
            var (later, laterId) := PersistAnalysis(e, nextId, taskId, result);
            && input.AnalysisInput?
            && later == e.(analysis := later.analysis)
            && var source := Transcript.FindVersion(e.round.versions, input.transcriptVersionId);
               && source.Some?
               && if AR.AnalysisAccepted(result, input.dimensions, input.transcriptVersionId, A.EvidenceOf(source.value))
                  then AppendsAnalysis(e.analysis, later.analysis, nextId, taskId, input, result)
                  else later == e
  {
    var task := TaskLedger.FindTask(e.tasks.tasks, taskId).value;
    var i := A.FrozenLoads(e.round, nextId, task.input);
    var source := SourceOfInput(e.round, nextId, task.input, i);
    AE.PersistEffect(e.analysis, nextId, e.round, RoundAnalysis.Task(task.id, RoundAnalysis.Seal(task.input)), result, source);
  }

  ghost predicate AppendsAnalysis(a: RoundAnalysis.Analysis, after: RoundAnalysis.Analysis, id: Id, taskId: Id, input: Input,
                                  result: AR.AnalyzeResult)
    requires input.AnalysisInput?
  {
    var n := |a.versions|;
    && |after.versions| == n + 1
    && after.versions[..n] == a.versions
    && after.versions[n].id == id && after.current == Some(id)
    && AE.Holds(after.versions[n], n + 1, taskId, input, result)
  }

  lemma {:induction false} SourceOfInput(r: Transcript.Round, nextId: Id, input: Input, i: nat) returns (source: Transcript.Version)
    requires H.Inv(r, nextId) && A.SourceAt(r, i, input)
    ensures Transcript.FindVersion(r.versions, input.transcriptVersionId) == Some(source)
  {
    H.FindAt(r.versions, i);
    source := r.versions[i];
  }

  // A status change reaches the task of its id only, and keeps all but the status: a worker, cancel
  // or recovery moves it only while it is in flight, a late outcome in any case, and a retry takes
  // a failed or invalid one back to pending.
  lemma {:induction false} TaskMoveEffect(l: TaskLedger.Ledger, nextId: Id, taskId: Id, status: TaskStatus.Status, cause: Cause,
                                          i: nat)
    requires TaskRuns.IdsRise(l.tasks, nextId) && i < |l.tasks|
    ensures var after := MovedTasks(l, nextId, taskId, status, cause);
            var was := l.tasks[i].status;
            && after.keys == l.keys && |after.tasks| == |l.tasks|
            && after.tasks[i] == l.tasks[i].(status := after.tasks[i].status)
            && (l.tasks[i].id != taskId ==> after.tasks[i].status == was)
            && (l.tasks[i].id == taskId && cause == Moves ==>
                  after.tasks[i].status == if was == TaskStatus.Pending || was == TaskStatus.Running then status else was)
            && (l.tasks[i].id == taskId && cause == LateOutcome ==> after.tasks[i].status == status)
            && (l.tasks[i].id == taskId && cause == Retried ==>
                  after.tasks[i].status == if was == TaskStatus.Failed || was == TaskStatus.OutputInvalid then TaskStatus.Pending else was)
  {
    match cause
    case Moves => ProgressEffect(l, nextId, taskId, status, i);
    case LateOutcome => LateOutcomeEffect(l, nextId, taskId, status, i);
    case Retried => RetryEffect(l, nextId, taskId, i);
  }

  lemma {:induction false} ProgressEffect(l: TaskLedger.Ledger, nextId: Id, taskId: Id, status: TaskStatus.Status, i: nat)
    requires TaskRuns.IdsRise(l.tasks, nextId) && i < |l.tasks|
    ensures var after := TaskLedger.Progress(l, nextId, taskId, status).ledger;
            var was := l.tasks[i].status;
            && after.keys == l.keys && |after.tasks| == |l.tasks|
            && after.tasks[i] == l.tasks[i].(status :=
                 if l.tasks[i].id == taskId && (was == TaskStatus.Pending || was == TaskStatus.Running) then status else was)
  {
    if l.tasks[i].id == taskId {
      TaskRows.FoundAt(l.tasks, nextId, i);
    }
  }

  lemma {:induction false} LateOutcomeEffect(l: TaskLedger.Ledger, nextId: Id, taskId: Id, status: TaskStatus.Status, i: nat)
    requires TaskRuns.IdsRise(l.tasks, nextId) && i < |l.tasks|
    ensures var after := TaskLedger.LateOutcome(l, nextId, taskId, status).ledger;
            && after.keys == l.keys && |after.tasks| == |l.tasks|
            && after.tasks[i] == l.tasks[i].(status := if l.tasks[i].id == taskId then status else l.tasks[i].status)
  {
    if l.tasks[i].id == taskId {
      TaskRows.FoundAt(l.tasks, nextId, i);
    }
  }

  lemma {:induction false} RetryEffect(l: TaskLedger.Ledger, nextId: Id, taskId: Id, i: nat)
    requires TaskRuns.IdsRise(l.tasks, nextId) && i < |l.tasks|
    ensures var after := TaskLedger.Retry(l, nextId, taskId).ledger;
            var was := l.tasks[i].status;
            && after.keys == l.keys && |after.tasks| == |l.tasks|
            && after.tasks[i] == l.tasks[i].(status :=
                 if l.tasks[i].id == taskId && (was == TaskStatus.Failed || was == TaskStatus.OutputInvalid) then TaskStatus.Pending
                 else was)
  {
    if l.tasks[i].id == taskId {
      TaskRows.FoundAt(l.tasks, nextId, i);
    }
  }

  ghost predicate AddsRow(b: Hiring.Board, after: Hiring.Board, entries: seq<Entry>, id: Id, actor: Id, payload: Hiring.Payload) {
    var n := |b.decisions|;
    && after.lock == b.lock + 1
    && |after.decisions| == n + 1 && after.decisions[..n] == b.decisions
    && Hiring.Records(after.decisions[n], id, actor, payload)
    && exists e, v :: Hiring.Cites(entries, after.decisions[n], e, v)
  }

  // A hiring decision on the application changes its board only, and takes an id exactly if it
  // adds a row, which then records the call and cites a round of the application.
  lemma {:induction false} DecisionEffect(s: State, actor: Id, payload: Hiring.Payload)
    ensures var later := Apply(s, Decide(actor, payload));
            var o := Hiring.Decide(s.app.board, s.app.entries, s.nextId, actor, payload);
            && later.app == s.app.(board := later.app.board)
            && (o.reply.Ok? && o.nextId != s.nextId ==>
                  later.nextId == s.nextId + 1 && AddsRow(s.app.board, later.app.board, s.app.entries, s.nextId, actor, payload))
            && (o.reply.Err? || o.nextId == s.nextId ==> later == s)
  {
    Hiring.DecideEffect(s.app.board, s.app.entries, s.nextId, actor, payload);
  }

  // A new round is a draft with the next sequence number and nothing else.
  lemma {:induction false} NewRoundEffect(s: State)
    ensures var later := Apply(s, AddRound);
            var n := |s.app.entries|;
            && later.nextId == s.nextId + 1
            && later.app == s.app.(entries := later.app.entries)
            && |later.app.entries| == n + 1 && later.app.entries[..n] == s.app.entries
            && Blank(later.app.entries[n], s.nextId)
            && (forall i | 0 <= i < n :: s.app.entries[i].sequenceNo < later.app.entries[n].sequenceNo)
            && (later.app.entries[n].sequenceNo == 1
                || exists i | 0 <= i < n :: later.app.entries[n].sequenceNo == s.app.entries[i].sequenceNo + 1)
  {
    MaxSequenceIsMax(s.app.entries);
  }

  predicate Blank(e: Entry, id: Id) {
    && e.round.id == id && e.round.status == RoundStatus.Draft && e.round.version == 1
    && e.round.completion == Transcript.NotCompleted
    && e.round.master == None && e.round.versions == [] && e.round.keys == map[]
    && e.analysis == RoundAnalysis.Analysis([], None) && e.tasks == TaskLedger.Ledger([], map[])
  }

  lemma {:induction false} MaxSequenceIsMax(entries: seq<Entry>)
    ensures forall i | 0 <= i < |entries| :: entries[i].sequenceNo <= MaxSequence(entries)
    ensures MaxSequence(entries) == 0 || exists i | 0 <= i < |entries| :: entries[i].sequenceNo == MaxSequence(entries)
  {
    if entries != [] {
      var n := |entries| - 1;
      MaxSequenceIsMax(entries[..n]);
      assert forall i | 0 <= i < n :: entries[i] == entries[..n][i];
    }
  }
}
