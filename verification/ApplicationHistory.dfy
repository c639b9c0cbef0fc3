// What every run of an application keeps, and the theorems that cross its parts: staleness is
// permanent, and an analysis that is not stale is still covered.
module ApplicationHistory {
  import opened Common
  import opened Application
  import opened Coverage
  import opened Inputs
  import A = AnalysisHistory
  import AR = AnalysisResult
  import H = TranscriptHistory
  import Hiring
  import RoundAnalysis
  import RoundStatus
  import Runs = TranscriptRuns
  import Scoring
  import TaskLedger
  import TaskStatus
  import Transcript

  // ---------- one round ----------

  ghost predicate TasksFrozen(e: Entry) {
    forall t | t in e.tasks.tasks :: A.FrozenIn(e.round, t.input)
  }

  ghost predicate EntryOk(e: Entry, nextId: Id) {
    && e.round.id < nextId
    && H.Inv(e.round, nextId)
    && A.Inv(e.analysis, e.round, nextId)
    && TasksFrozen(e)
  }

  // Both current pointers, confirmed transcript and analysis, move only to unused ids.
  ghost predicate EntryLater(e: Entry, later: Entry, nextId: Id) {
    && later.sequenceNo == e.sequenceNo
    && H.Later(e.round, later.round)
    && H.PointerFresh(e.round, later.round, nextId)
    && A.Grows(e.analysis, later.analysis)
    && (later.analysis.current == e.analysis.current
        || (later.analysis.current.Some? && later.analysis.current.value >= nextId))
  }

  ghost predicate GoodMove(e: Entry, nextId: Id, later: Entry, laterId: Id) {
    EntryOk(later, laterId) && EntryLater(e, later, nextId) && nextId <= laterId
  }

  lemma {:induction false} EntryOkLater(e: Entry, nextId: Id, laterId: Id)
    requires EntryOk(e, nextId) && nextId <= laterId
    ensures GoodMove(e, nextId, e, laterId)
  {
    Runs.NothingChangesIsGood(e.round, nextId, Transcript.Outcome(e.round, laterId, Ok(Transcript.Done)));
    A.InvLater(e.analysis, e.round, nextId, e.round, laterId);
  }

  lemma {:induction false} CallKeeps(e: Entry, nextId: Id, call: Transcript.Call)
    requires EntryOk(e, nextId)
    ensures var (later, laterId) := CallRound(e, nextId, call);
            GoodMove(e, nextId, later, laterId)
  {
    var o := Transcript.Apply(e.round, nextId, call);
    Runs.CallKeeps(e.round, nextId, call);
    A.InvLater(e.analysis, e.round, nextId, o.round, o.nextId);
    forall t | t in e.tasks.tasks
      ensures A.FrozenIn(o.round, t.input)
    {
      A.FrozenStays(e.round, o.round, t.input);
    }
  }

  lemma {:induction false} LedgerChangeKeeps(e: Entry, nextId: Id, tasks: TaskLedger.Ledger, laterId: Id)
    requires EntryOk(e, nextId) && nextId <= laterId && TasksFrozen(e.(tasks := tasks))
    ensures GoodMove(e, nextId, e.(tasks := tasks), laterId)
  {
    EntryOkLater(e, nextId, laterId);
  }

  lemma {:induction false} RequestTasks(l: TaskLedger.Ledger, nextId: Id, actor: Id, key: string, input: Input)
    ensures var o := TaskLedger.Request(l, nextId, actor, key, input);
            && nextId <= o.nextId
            && (forall t | t in o.ledger.tasks :: t in l.tasks || t.input == input)
            && (TaskIdsBelow(l, nextId) ==> TaskIdsBelow(o.ledger, o.nextId))
  {
  }

  ghost predicate SameInputs(tasks: seq<TaskLedger.Task>, after: seq<TaskLedger.Task>) {
    |after| == |tasks| && forall i | 0 <= i < |tasks| :: after[i].input == tasks[i].input && after[i].id == tasks[i].id
  }

  lemma {:induction false} StatusTasks(l: TaskLedger.Ledger, nextId: Id, taskId: Id, status: TaskStatus.Status, cause: Cause)
    ensures SameInputs(l.tasks, MovedTasks(l, nextId, taskId, status, cause).tasks)
  {
  }

  lemma {:induction false} RequestKeeps(e: Entry, nextId: Id, actor: Id, key: string, jobVersionId: Id,
                                        raw: Option<seq<Scoring.RawDimension>>)
    requires EntryOk(e, nextId)
    ensures var (later, laterId) := RequestAnalysis(e, nextId, actor, key, jobVersionId, raw);
            GoodMove(e, nextId, later, laterId)
  {
    match RoundAnalysis.Freeze(e.round, jobVersionId, raw)
    case Err(_) => EntryOkLater(e, nextId, nextId);
    case Ok(input) =>
      var o := TaskLedger.Request(e.tasks, nextId, actor, key, input);
      A.FreezeIsFrozen(e.round, nextId, jobVersionId, raw);
      RequestTasks(e.tasks, nextId, actor, key, input);
      LedgerChangeKeeps(e, nextId, o.ledger, o.nextId);
  }

  lemma {:induction false} MovedTasksKeep(e: Entry, nextId: Id, taskId: Id, status: TaskStatus.Status, cause: Cause)
    requires EntryOk(e, nextId)
    ensures GoodMove(e, nextId, e.(tasks := MovedTasks(e.tasks, nextId, taskId, status, cause)), nextId)
  {
    var after := MovedTasks(e.tasks, nextId, taskId, status, cause);
    StatusTasks(e.tasks, nextId, taskId, status, cause);
    forall t | t in after.tasks
      ensures A.FrozenIn(e.round, t.input)
    {
      var i :| 0 <= i < |after.tasks| && after.tasks[i] == t;
      assert e.tasks.tasks[i] in e.tasks.tasks;
    }
    LedgerChangeKeeps(e, nextId, after, nextId);
  }

  lemma {:induction false} PersistKeeps(e: Entry, nextId: Id, taskId: Id, result: AR.AnalyzeResult)
    requires EntryOk(e, nextId)
    ensures var (later, laterId) := PersistAnalysis(e, nextId, taskId, result);
            GoodMove(e, nextId, later, laterId)
  {
    match TaskLedger.FindTask(e.tasks.tasks, taskId)
    case None => EntryOkLater(e, nextId, nextId);
    case Some(task) =>
      var o := RoundAnalysis.Persist(e.analysis, nextId, e.round, RoundAnalysis.Task(task.id, RoundAnalysis.Seal(task.input)), result);
      A.PersistKeeps(e.analysis, nextId, e.round, RoundAnalysis.Task(task.id, RoundAnalysis.Seal(task.input)), result);
      EntryOkLater(e, nextId, o.nextId);
  }

  lemma {:induction false} RoundStepKeeps(e: Entry, nextId: Id, step: RoundStep)
    requires EntryOk(e, nextId)
    ensures var (later, laterId) := StepRound(e, nextId, step);
            GoodMove(e, nextId, later, laterId)
  {
    match step
    case Call(call) => CallKeeps(e, nextId, call);
    case Request(actor, key, jobVersionId, raw) => RequestKeeps(e, nextId, actor, key, jobVersionId, raw);
    case TaskMoves(taskId, status, cause) => MovedTasksKeep(e, nextId, taskId, status, cause);
    case Persist(taskId, result) => PersistKeeps(e, nextId, taskId, result);
  }

  // ---------- all rounds ----------

  ghost predicate EntriesOk(entries: seq<Entry>, nextId: Id) {
    && RoundsDistinct(entries)
    && forall i {:trigger EntryOk(entries[i], nextId)} | 0 <= i < |entries| :: EntryOk(entries[i], nextId)
  }

  ghost predicate EntriesLater(a: seq<Entry>, b: seq<Entry>, nextId: Id) {
    && |a| <= |b|
    && forall i {:trigger EntryLater(a[i], b[i], nextId)} | 0 <= i < |a| :: EntryLater(a[i], b[i], nextId)
  }

  lemma {:induction false} EntryLaterTrans(a: Entry, b: Entry, c: Entry, nextId: Id, midId: Id)
    requires EntryOk(a, nextId) && EntryOk(b, midId) && nextId <= midId
    requires EntryLater(a, b, nextId) && EntryLater(b, c, midId)
    ensures EntryLater(a, c, nextId)
  {
    H.LaterIsTransitive(a.round, b.round, c.round);
    assert c.analysis.versions[..|a.analysis.versions|] == c.analysis.versions[..|b.analysis.versions|][..|a.analysis.versions|];
  }

  lemma {:induction false} EntriesLaterTrans(a: seq<Entry>, b: seq<Entry>, c: seq<Entry>, nextId: Id, midId: Id)
    requires EntriesOk(a, nextId) && EntriesOk(b, midId) && nextId <= midId
    requires EntriesLater(a, b, nextId) && EntriesLater(b, c, midId)
    ensures EntriesLater(a, c, nextId)
  {
    forall i | 0 <= i < |a|
      ensures EntryLater(a[i], c[i], nextId)
    {
      assert EntryOk(a[i], nextId) && EntryOk(b[i], midId);
      assert EntryLater(a[i], b[i], nextId) && EntryLater(b[i], c[i], midId);
      EntryLaterTrans(a[i], b[i], c[i], nextId, midId);
    }
  }

  lemma {:induction false} EntriesUnchanged(entries: seq<Entry>, nextId: Id, laterId: Id)
    requires EntriesOk(entries, nextId) && nextId <= laterId
    ensures EntriesOk(entries, laterId) && EntriesLater(entries, entries, nextId)
  {
    forall i | 0 <= i < |entries|
      ensures EntryOk(entries[i], laterId) && EntryLater(entries[i], entries[i], nextId)
    {
      assert EntryOk(entries[i], nextId);
      EntryOkLater(entries[i], nextId, laterId);
    }
  }

  lemma {:induction false} EntryReplaced(entries: seq<Entry>, nextId: Id, k: nat, e: Entry, laterId: Id)
    requires EntriesOk(entries, nextId) && k < |entries| && GoodMove(entries[k], nextId, e, laterId)
    ensures EntriesOk(entries[k := e], laterId) && EntriesLater(entries, entries[k := e], nextId)
  {
    var changed := entries[k := e];
    forall i | 0 <= i < |entries|
      ensures EntryOk(changed[i], laterId) && EntryLater(entries[i], changed[i], nextId)
    {
      assert EntryOk(entries[i], nextId);
      if i != k {
        EntryOkLater(entries[i], nextId, laterId);
      }
    }
    forall i, j | 0 <= i < j < |changed|
      ensures changed[i].round.id != changed[j].round.id
    {
      assert EntryLater(entries[i], changed[i], nextId) && EntryLater(entries[j], changed[j], nextId);
    }
  }

  lemma {:induction false} EntryAdded(entries: seq<Entry>, nextId: Id)
    requires EntriesOk(entries, nextId)
    ensures var longer := entries + [NewEntry(entries, nextId)];
            EntriesOk(longer, nextId + 1) && EntriesLater(entries, longer, nextId)
  {
    var added, laterId := NewEntry(entries, nextId), nextId + 1;
    var longer := entries + [added];
    H.NewRoundOk(nextId, laterId);
    EntriesUnchanged(entries, nextId, laterId);
    forall i | 0 <= i < |longer|
      ensures EntryOk(longer[i], laterId)
    {
      if i < |entries| {
        assert EntryOk(entries[i], laterId);
      }
    }
    forall i | 0 <= i < |entries|
      ensures EntryLater(entries[i], longer[i], nextId) && entries[i].round.id < nextId
    {
      assert EntryLater(entries[i], entries[i], nextId);
      assert EntryOk(entries[i], nextId);
    }
  }

  // ---------- references ----------

  ghost predicate KnownAt(entries: seq<Entry>, ref: RoundRef, i: nat, j: nat) {
    && i < |entries| && entries[i].round.id == ref.roundId
    && j < |entries[i].analysis.versions| && entries[i].analysis.versions[j].id == ref.versionId
  }

  ghost predicate RefKnown(entries: seq<Entry>, ref: RoundRef) {
    exists i: nat, j: nat :: KnownAt(entries, ref, i, j)
  }

  ghost predicate RefsKnown(entries: seq<Entry>, refs: seq<RoundRef>) {
    refs != [] && forall k {:trigger RefKnown(entries, refs[k])} | 0 <= k < |refs| :: RefKnown(entries, refs[k])
  }

  lemma {:induction false} CurrentIsLast(e: Entry, nextId: Id)
    requires EntryOk(e, nextId)
    ensures CurrentVersion(e) == if e.analysis.versions == [] then None else Some(e.analysis.versions[|e.analysis.versions| - 1])
  {
    if e.analysis.versions != [] {
      A.FindAt(e.analysis, e.round, nextId, |e.analysis.versions| - 1);
    }
  }

  lemma {:induction false} FrozenRefsAreKnown(entries: seq<Entry>, nextId: Id)
    requires EntriesOk(entries, nextId) && Report(entries).eligible >= 1
    ensures RefsKnown(entries, RefsOfAll(entries))
  {
    var refs := RefsOfAll(entries);
    RefsMatchIncluded(entries);
    forall k | 0 <= k < |refs|
      ensures RefKnown(entries, refs[k])
    {
      var i := RefsComeFromCovered(entries, k);
      assert EntryOk(entries[i], nextId);
      CurrentIsLast(entries[i], nextId);
      assert KnownAt(entries, refs[k], i, |entries[i].analysis.versions| - 1);
    }
  }

  lemma {:induction false} RefsStayKnown(a: seq<Entry>, b: seq<Entry>, nextId: Id, refs: seq<RoundRef>)
    requires RefsKnown(a, refs) && EntriesLater(a, b, nextId)
    ensures RefsKnown(b, refs)
  {
    forall k | 0 <= k < |refs|
      ensures RefKnown(b, refs[k])
    {
      assert RefKnown(a, refs[k]);
      var i: nat, j: nat :| KnownAt(a, refs[k], i, j);
      assert EntryLater(a[i], b[i], nextId);
      assert b[i].analysis.versions[j] == b[i].analysis.versions[..|a[i].analysis.versions|][j];
      assert KnownAt(b, refs[k], i, j);
    }
  }

  // What freshness of a known reference means in its own round.
  lemma {:induction false} FreshInRound(entries: seq<Entry>, nextId: Id, ref: RoundRef, i: nat, j: nat)
    requires EntriesOk(entries, nextId) && KnownAt(entries, ref, i, j)
    ensures RefFresh(entries, ref) <==>
            && entries[i].analysis.current == Some(ref.versionId)
            && Confirmed(entries[i]) == Some(entries[i].analysis.versions[j].transcriptVersionId)
  {
    assert EntryOk(entries[i], nextId);
    FindEntryAt(entries, i);
    A.FindAt(entries[i].analysis, entries[i].round, nextId, j);
  }

  // A stale reference stays stale.
  lemma {:induction false} StaleRefStays(a: seq<Entry>, b: seq<Entry>, nextId: Id, laterId: Id, ref: RoundRef)
    requires EntriesOk(a, nextId) && EntriesOk(b, laterId) && EntriesLater(a, b, nextId)
    requires RefKnown(a, ref) && !RefFresh(a, ref)
    ensures !RefFresh(b, ref)
  {
    var i: nat, j: nat :| KnownAt(a, ref, i, j);
    assert EntryOk(a[i], nextId) && EntryLater(a[i], b[i], nextId);
    var v := a[i].analysis.versions[j];
    assert A.VersionOk(v, a[i].round, nextId);
    assert b[i].analysis.versions[j] == b[i].analysis.versions[..|a[i].analysis.versions|][j] == v;
    FreshInRound(a, nextId, ref, i, j);
    FreshInRound(b, laterId, ref, i, j);
  }

  // Fresh means covered: completion, its mode and the confirmed transcript cannot have changed.
  lemma {:induction false} FreshRefIsCovered(entries: seq<Entry>, nextId: Id, ref: RoundRef) returns (i: nat)
    requires EntriesOk(entries, nextId) && RefKnown(entries, ref)
    ensures i < |entries| && entries[i].round.id == ref.roundId
    ensures RefFresh(entries, ref) <==>
            Covered(entries[i]) && CurrentVersion(entries[i]).Some? && CurrentVersion(entries[i]).value.id == ref.versionId
  {
    var k: nat, j: nat :| KnownAt(entries, ref, k, j);
    i := k;
    var e := entries[i];
    assert EntryOk(e, nextId);
    CurrentIsLast(e, nextId);
    FreshInRound(entries, nextId, ref, i, j);
    A.FindAt(e.analysis, e.round, nextId, j);
    CoveredIff(e);
    ConfirmedMeansCompleted(e.round, nextId);
  }

  lemma {:induction false} ConfirmedMeansCompleted(r: Transcript.Round, nextId: Id)
    requires H.Inv(r, nextId)
    ensures H.CurrentConfirmed(r).Some? ==> r.status == RoundStatus.Completed && r.completion.ConfirmedTranscript?
  {
  }

  // ---------- the application ----------

  ghost predicate InputOk(entries: seq<Entry>, input: Input) {
    input.ComprehensiveInput? && RefsKnown(entries, input.roundRefs)
  }

  ghost predicate TasksOk(entries: seq<Entry>, tasks: TaskLedger.Ledger) {
    forall t {:trigger InputOk(entries, t.input)} | t in tasks.tasks :: InputOk(entries, t.input)
  }

  ghost predicate TaskIdsBelow(tasks: TaskLedger.Ledger, nextId: Id) {
    forall i | 0 <= i < |tasks.tasks| :: tasks.tasks[i].id < nextId
  }

  ghost predicate ComprehensiveOk(entries: seq<Entry>, c: Comprehensive, nextId: Id) {
    && (forall i {:trigger RefsKnown(entries, c.versions[i].refs)} | 0 <= i < |c.versions| :: RefsKnown(entries, c.versions[i].refs))
    && (forall i | 0 <= i < |c.versions| ::
          c.versions[i].id < nextId && c.versions[i].taskId < nextId && c.versions[i].no == i + 1)
    && OnePerTask(c.versions)
    && c.current == (if c.versions == [] then None else Some(c.versions[|c.versions| - 1].id))
  }

  // The unique index on tasks: no task is stored twice.
  ghost predicate OnePerTask(vs: seq<Version>) {
    forall i, j | 0 <= i < j < |vs| :: vs[i].taskId != vs[j].taskId
  }

  ghost predicate Inv(s: State) {
    && EntriesOk(s.app.entries, s.nextId)
    && TasksOk(s.app.entries, s.app.tasks)
    && TaskIdsBelow(s.app.tasks, s.nextId)
    && ComprehensiveOk(s.app.entries, s.app.comprehensive, s.nextId)
  }

  ghost predicate Later(s: State, t: State) {
    && s.nextId <= t.nextId
    && EntriesLater(s.app.entries, t.app.entries, s.nextId)
    && |s.app.comprehensive.versions| <= |t.app.comprehensive.versions|
    && t.app.comprehensive.versions[..|s.app.comprehensive.versions|] == s.app.comprehensive.versions
  }

  // Comprehensive rows are untouched and the rounds moved on.
  lemma {:induction false} RoundsMoveKeeps(s: State, entries: seq<Entry>, laterId: Id)
    requires Inv(s) && EntriesOk(entries, laterId) && EntriesLater(s.app.entries, entries, s.nextId) && s.nextId <= laterId
    ensures Inv(State(s.app.(entries := entries), laterId)) && Later(s, State(s.app.(entries := entries), laterId))
  {
    var entriesBefore, c := s.app.entries, s.app.comprehensive;
    forall t | t in s.app.tasks.tasks
      ensures InputOk(entries, t.input)
    {
      assert InputOk(entriesBefore, t.input);
      RefsStayKnown(entriesBefore, entries, s.nextId, t.input.roundRefs);
    }
    forall i | 0 <= i < |c.versions|
      ensures RefsKnown(entries, c.versions[i].refs)
    {
      assert RefsKnown(entriesBefore, c.versions[i].refs);
      RefsStayKnown(entriesBefore, entries, s.nextId, c.versions[i].refs);
    }
  }

  lemma {:induction false} TasksChangeKeeps(s: State, tasks: TaskLedger.Ledger, laterId: Id)
    requires Inv(s) && s.nextId <= laterId && TasksOk(s.app.entries, tasks) && TaskIdsBelow(tasks, laterId)
    ensures Inv(State(s.app.(tasks := tasks), laterId)) && Later(s, State(s.app.(tasks := tasks), laterId))
  {
    EntriesUnchanged(s.app.entries, s.nextId, laterId);
  }

  lemma {:induction false} BoardChangeKeeps(s: State, board: Hiring.Board, laterId: Id)
    requires Inv(s) && s.nextId <= laterId
    ensures Inv(State(s.app.(board := board), laterId)) && Later(s, State(s.app.(board := board), laterId))
  {
    EntriesUnchanged(s.app.entries, s.nextId, laterId);
  }

  lemma {:induction false} AskKeeps(s: State, actor: Id, key: string)
    requires Inv(s)
    ensures var o := RequestComprehensive(s.app, s.nextId, actor, key);
            Inv(State(o.app, o.nextId)) && Later(s, State(o.app, o.nextId))
  {
    var o := RequestComprehensive(s.app, s.nextId, actor, key);
    if o.app == s.app {
      RequestTasks(s.app.tasks, s.nextId, actor, key, InputFor(s.app.id, s.app.entries));
      TasksChangeKeeps(s, s.app.tasks, o.nextId);
    } else {
      var input := InputFor(s.app.id, s.app.entries);
      FrozenRefsAreKnown(s.app.entries, s.nextId);
      RequestTasks(s.app.tasks, s.nextId, actor, key, input);
      var after := TaskLedger.Request(s.app.tasks, s.nextId, actor, key, input).ledger;
      forall t | t in after.tasks
        ensures InputOk(s.app.entries, t.input)
      {
        if t in s.app.tasks.tasks {
          assert InputOk(s.app.entries, t.input);
        }
      }
      TasksChangeKeeps(s, after, o.nextId);
    }
  }

  lemma {:induction false} InputsStayOk(entries: seq<Entry>, tasks: TaskLedger.Ledger, after: TaskLedger.Ledger)
    requires TasksOk(entries, tasks) && SameInputs(tasks.tasks, after.tasks)
    ensures TasksOk(entries, after)
  {
    forall t | t in after.tasks
      ensures InputOk(entries, t.input)
    {
      var i :| 0 <= i < |after.tasks| && after.tasks[i] == t;
      assert tasks.tasks[i] in tasks.tasks && InputOk(entries, tasks.tasks[i].input);
    }
  }

  lemma {:induction false} MaxNoUpTo(vs: seq<Version>, n: nat)
    requires n <= |vs| && forall i | 0 <= i < |vs| :: vs[i].no == i + 1
    ensures MaxNo(vs[..n]) == n
  {
    if n > 0 {
      MaxNoUpTo(vs, n - 1);
      assert vs[..n][..n - 1] == vs[..n - 1];
    }
  }

  lemma {:induction false} StoreKeeps(s: State, taskId: Id, summary: string, overall: Option<real>)
    requires Inv(s)
    ensures var o := PersistComprehensive(s.app, s.nextId, taskId, summary, overall);
            Inv(State(o.app, o.nextId)) && Later(s, State(o.app, o.nextId))
  {
    var o := PersistComprehensive(s.app, s.nextId, taskId, summary, overall);
    EntriesUnchanged(s.app.entries, s.nextId, o.nextId);
    if o.app != s.app {
      var task := TaskLedger.FindTask(s.app.tasks.tasks, taskId).value;
      assert InputOk(s.app.entries, task.input);
      var i :| 0 <= i < |s.app.tasks.tasks| && s.app.tasks.tasks[i] == task;
      ComprehensiveAppended(s, NewComprehensive(s.app, s.nextId, task, summary, overall));
    }
  }

  lemma {:induction false} ComprehensiveAppended(s: State, v: Version)
    requires Inv(s) && v.id == s.nextId && v.taskId < s.nextId && v.no == MaxNo(s.app.comprehensive.versions) + 1
    requires RefsKnown(s.app.entries, v.refs) && FindByTask(s.app.comprehensive.versions, v.taskId).None?
    ensures ComprehensiveOk(s.app.entries, Comprehensive(s.app.comprehensive.versions + [v], Some(v.id)), s.nextId + 1)
  {
    var vs, entries := s.app.comprehensive.versions, s.app.entries;
    var c := Comprehensive(vs + [v], Some(v.id));
    MaxNoUpTo(vs, |vs|);
    assert vs[..|vs|] == vs;
    OnePerTaskAppend(vs, v);
    forall i | 0 <= i < |c.versions|
      ensures RefsKnown(entries, c.versions[i].refs)
    {
      if i < |vs| {
        assert RefsKnown(entries, vs[i].refs);
      }
    }
  }

  lemma {:induction false} OnePerTaskAppend(vs: seq<Version>, v: Version)
    requires OnePerTask(vs) && FindByTask(vs, v.taskId).None?
    ensures OnePerTask(vs + [v])
  {
    var longer := vs + [v];
    forall i, j | 0 <= i < j < |longer|
      ensures longer[i].taskId != longer[j].taskId
    {
      if j == |vs| {
        assert vs[i] in vs;
      }
    }
  }

  lemma {:induction false} RoundMoves(s: State, i: nat, step: RoundStep)
    requires Inv(s) && i < |s.app.entries|
    ensures var (e, laterId) := StepRound(s.app.entries[i], s.nextId, step);
            var t := State(s.app.(entries := s.app.entries[i := e]), laterId);
            Inv(t) && Later(s, t)
  {
    var (e, laterId) := StepRound(s.app.entries[i], s.nextId, step);
    assert EntryOk(s.app.entries[i], s.nextId);
    RoundStepKeeps(s.app.entries[i], s.nextId, step);
    EntryReplaced(s.app.entries, s.nextId, i, e, laterId);
    RoundsMoveKeeps(s, s.app.entries[i := e], laterId);
  }

  lemma {:induction false} DecisionKeeps(s: State, actor: Id, payload: Hiring.Payload)
    requires Inv(s)
    ensures var o := Hiring.Decide(s.app.board, s.app.entries, s.nextId, actor, payload);
            var t := State(s.app.(board := o.board), o.nextId);
            Inv(t) && Later(s, t)
  {
    var o := Hiring.Decide(s.app.board, s.app.entries, s.nextId, actor, payload);
    Hiring.DecideEffect(s.app.board, s.app.entries, s.nextId, actor, payload);
    BoardChangeKeeps(s, o.board, o.nextId);
  }

  lemma {:induction false} TaskMoveKeeps(s: State, taskId: Id, status: TaskStatus.Status, cause: Cause)
    requires Inv(s)
    ensures var t := State(s.app.(tasks := MovedTasks(s.app.tasks, s.nextId, taskId, status, cause)), s.nextId);
            Inv(t) && Later(s, t)
  {
    var after := MovedTasks(s.app.tasks, s.nextId, taskId, status, cause);
    StatusTasks(s.app.tasks, s.nextId, taskId, status, cause);
    InputsStayOk(s.app.entries, s.app.tasks, after);
    TasksChangeKeeps(s, after, s.nextId);
  }

  lemma {:induction false} StepKeeps(s: State, step: Step)
    requires Inv(s)
    ensures Inv(Apply(s, step)) && Later(s, Apply(s, step))
  {
    if step.AddRound? || step.RoundSteps? {
      RoundsStepKeeps(s, step);
    } else if step.Decide? || step.OtherBoardChange? || step.IdsTaken? {
      BoardStepKeeps(s, step);
    } else {
      ComprehensiveStepKeeps(s, step);
    }
  }

  lemma {:induction false} RoundsStepKeeps(s: State, step: Step)
    requires Inv(s) && (step.AddRound? || step.RoundSteps?)
    ensures Inv(Apply(s, step)) && Later(s, Apply(s, step))
  {
    match step
    case AddRound =>
      EntryAdded(s.app.entries, s.nextId);
      RoundsMoveKeeps(s, Apply(s, step).app.entries, s.nextId + 1);
    case RoundSteps(i, roundStep) =>
      if i < |s.app.entries| {
        RoundMoves(s, i, roundStep);
      } else {
        BoardChangeKeeps(s, s.app.board, s.nextId);
      }
  }

  lemma {:induction false} BoardStepKeeps(s: State, step: Step)
    requires Inv(s) && (step.Decide? || step.OtherBoardChange? || step.IdsTaken?)
    ensures Inv(Apply(s, step)) && Later(s, Apply(s, step))
  {
    match step
    case Decide(actor, payload) => DecisionKeeps(s, actor, payload);
    case OtherBoardChange(board) => BoardChangeKeeps(s, board, s.nextId);
    case IdsTaken(count) => BoardChangeKeeps(s, s.app.board, s.nextId + count);
  }

  lemma {:induction false} ComprehensiveStepKeeps(s: State, step: Step)
    requires Inv(s) && (step.AskComprehensive? || step.ComprehensiveTaskMoves? || step.StoreComprehensive?)
    ensures Inv(Apply(s, step)) && Later(s, Apply(s, step))
  {
    match step
    case AskComprehensive(actor, key) => AskKeeps(s, actor, key);
    case ComprehensiveTaskMoves(taskId, status, cause) => TaskMoveKeeps(s, taskId, status, cause);
    case StoreComprehensive(taskId, summary, overall) => StoreKeeps(s, taskId, summary, overall);
  }

  lemma {:induction false} LaterTrans(a: State, b: State, c: State)
    requires Inv(a) && Inv(b) && Later(a, b) && Later(b, c)
    ensures Later(a, c)
  {
    EntriesLaterTrans(a.app.entries, b.app.entries, c.app.entries, a.nextId, b.nextId);
    var n := |a.app.comprehensive.versions|;
    assert c.app.comprehensive.versions[..n] == c.app.comprehensive.versions[..|b.app.comprehensive.versions|][..n];
  }

  // From any moment of a run to any later one the invariant is kept and the state moves forward.
  lemma {:induction false} RunsKeep(h: Run, t: nat, u: nat)
    requires IsRun(h) && t <= u < |h.states| && Inv(h.states[t])
    ensures Inv(h.states[u]) && Later(h.states[t], h.states[u])
    decreases u
  {
    if t == u {
      EntriesUnchanged(h.states[t].app.entries, h.states[t].nextId, h.states[t].nextId);
    } else {
      RunsKeep(h, t, u - 1);
      assert StepAt(h, u - 1);
      StepKeeps(h.states[u - 1], h.steps[u - 1]);
      LaterTrans(h.states[t], h.states[u - 1], h.states[u]);
    }
  }

  lemma {:induction false} ReachableInv(h: Run, t: nat)
    requires IsRun(h) && t < |h.states|
    ensures Inv(h.states[t])
  {
    RunsKeep(h, 0, t);
  }
}
