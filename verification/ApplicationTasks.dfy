// The task protocol inside an application: in-flight tasks and replayed requests over whole runs
// in which rounds, analyses and tasks of all types move on together.
module ApplicationTasks {
  import opened Common
  import opened Application
  import opened Coverage
  import History = ApplicationHistory
  import L = TaskLedger
  import TaskStatus
  import TaskRuns
  import RoundAnalysis
  import Scoring

  // The command of the task protocol that a status change is.
  function CommandFor(taskId: Id, status: TaskStatus.Status, cause: Cause): L.Cmd {
    match cause
    case Moves => L.DoProgress(taskId, status)
    case LateOutcome => L.DoLateOutcome(taskId, status)
    case Retried => L.DoRetry(taskId)
  }

  // A manual retry, or a late outcome that puts its task back in the queue.
  predicate RequeuesInRound(step: RoundStep) {
    step.TaskMoves? && TaskRuns.Requeues(CommandFor(step.taskId, step.status, step.cause))
  }

  predicate Requeues(step: Step) {
    match step
    case RoundSteps(_, roundStep) => RequeuesInRound(roundStep)
    case ComprehensiveTaskMoves(taskId, status, cause) => TaskRuns.Requeues(CommandFor(taskId, status, cause))
    case _ => false
  }

  predicate NoRequeue(steps: seq<Step>) {
    forall i | 0 <= i < |steps| :: !Requeues(steps[i])
  }

  ghost predicate LedgerOk(l: L.Ledger, nextId: Id) {
    TaskRuns.Inv(L.State(l, nextId))
  }

  ghost predicate AllLedgersOk(s: State) {
    && LedgerOk(s.app.tasks, s.nextId)
    && forall i {:trigger LedgerOk(s.app.entries[i].tasks, s.nextId)} | 0 <= i < |s.app.entries| ::
         LedgerOk(s.app.entries[i].tasks, s.nextId)
  }

  ghost predicate AllOneInFlight(a: App) {
    && TaskRuns.OneInFlight(a.tasks)
    && forall i {:trigger TaskRuns.OneInFlight(a.entries[i].tasks)} | 0 <= i < |a.entries| :: TaskRuns.OneInFlight(a.entries[i].tasks)
  }

  lemma {:induction false} LedgerLater(l: L.Ledger, nextId: Id, laterId: Id)
    requires LedgerOk(l, nextId) && nextId <= laterId
    ensures LedgerOk(l, laterId)
  {
  }

  // What one round step does to the round's ledger is one step of the task protocol.
  lemma {:induction false} RoundStepOnLedger(e: Entry, nextId: Id, step: RoundStep)
    requires LedgerOk(e.tasks, nextId) && StepRound(e, nextId, step).1 >= nextId
    ensures var (later, laterId) := StepRound(e, nextId, step);
            && LedgerOk(later.tasks, laterId)
            && (!RequeuesInRound(step) && TaskRuns.OneInFlight(e.tasks) ==> TaskRuns.OneInFlight(later.tasks))
  {
    var (later, laterId) := StepRound(e, nextId, step);
    var s := L.State(e.tasks, nextId);
    match step
    case Call(call) => LedgerLater(e.tasks, nextId, laterId);
    case Persist(taskId, result) => LedgerLater(e.tasks, nextId, laterId);
    case Request(actor, key, jobVersionId, raw) =>
      if RoundAnalysis.Freeze(e.round, jobVersionId, raw).Ok? {
        var input := RoundAnalysis.Freeze(e.round, jobVersionId, raw).value;
        ProtocolStep(s, L.DoRequest(actor, key, input));
      }
    case TaskMoves(taskId, status, cause) => ProtocolStep(s, CommandFor(taskId, status, cause));
  }

  lemma {:induction false} ProtocolStep(s: L.State, cmd: L.Cmd)
    requires TaskRuns.Inv(s)
    ensures TaskRuns.Inv(L.Step(s, cmd))
    ensures !TaskRuns.Requeues(cmd) && TaskRuns.OneInFlight(s.ledger) ==> TaskRuns.OneInFlight(L.Step(s, cmd).ledger)
  {
    TaskRuns.StepKeeps(s, cmd);
    if !TaskRuns.Requeues(cmd) && TaskRuns.OneInFlight(s.ledger) {
      TaskRuns.OneInFlightStep(s, cmd);
    }
  }

  lemma {:induction false} EntriesSame(s: State, t: State)
    requires AllLedgersOk(s) && t.app.entries == s.app.entries && s.nextId <= t.nextId
    ensures forall i | 0 <= i < |t.app.entries| :: LedgerOk(t.app.entries[i].tasks, t.nextId)
  {
    forall i | 0 <= i < |t.app.entries|
      ensures LedgerOk(t.app.entries[i].tasks, t.nextId)
    {
      assert LedgerOk(s.app.entries[i].tasks, s.nextId);
      LedgerLater(s.app.entries[i].tasks, s.nextId, t.nextId);
    }
  }

  lemma {:induction false} EntryChanged(s: State, k: nat, e: Entry, laterId: Id)
    requires AllLedgersOk(s) && k < |s.app.entries| && LedgerOk(e.tasks, laterId) && s.nextId <= laterId
    ensures AllLedgersOk(State(s.app.(entries := s.app.entries[k := e]), laterId))
    ensures AllOneInFlight(s.app) && TaskRuns.OneInFlight(e.tasks) ==> AllOneInFlight(s.app.(entries := s.app.entries[k := e]))
  {
    var t := State(s.app.(entries := s.app.entries[k := e]), laterId);
    LedgerLater(s.app.tasks, s.nextId, laterId);
    forall i | 0 <= i < |t.app.entries|
      ensures LedgerOk(t.app.entries[i].tasks, t.nextId)
    {
      assert LedgerOk(s.app.entries[i].tasks, s.nextId);
      LedgerLater(s.app.entries[i].tasks, s.nextId, laterId);
    }
    if AllOneInFlight(s.app) && TaskRuns.OneInFlight(e.tasks) {
      forall i | 0 <= i < |t.app.entries|
        ensures TaskRuns.OneInFlight(t.app.entries[i].tasks)
      {
        assert TaskRuns.OneInFlight(s.app.entries[i].tasks);
      }
    }
  }

  lemma {:induction false} EntryAdded(s: State)
    requires AllLedgersOk(s)
    ensures AllLedgersOk(Apply(s, AddRound))
    ensures AllOneInFlight(s.app) ==> AllOneInFlight(Apply(s, AddRound).app)
  {
    var t := Apply(s, AddRound);
    LedgerLater(s.app.tasks, s.nextId, t.nextId);
    forall i | 0 <= i < |t.app.entries|
      ensures LedgerOk(t.app.entries[i].tasks, t.nextId)
    {
      if i < |s.app.entries| {
        assert LedgerOk(s.app.entries[i].tasks, s.nextId);
        LedgerLater(s.app.entries[i].tasks, s.nextId, t.nextId);
      }
    }
    if AllOneInFlight(s.app) {
      forall i | 0 <= i < |t.app.entries|
        ensures TaskRuns.OneInFlight(t.app.entries[i].tasks)
      {
        if i < |s.app.entries| {
          assert TaskRuns.OneInFlight(s.app.entries[i].tasks);
        }
      }
    }
  }

  lemma {:induction false} AppLedgerChanged(s: State, tasks: L.Ledger, laterId: Id)
    requires AllLedgersOk(s) && LedgerOk(tasks, laterId) && s.nextId <= laterId
    ensures AllLedgersOk(State(s.app.(tasks := tasks), laterId))
    ensures AllOneInFlight(s.app) && TaskRuns.OneInFlight(tasks) ==> AllOneInFlight(s.app.(tasks := tasks))
  {
    var t := State(s.app.(tasks := tasks), laterId);
    EntriesSame(s, t);
    if AllOneInFlight(s.app) && TaskRuns.OneInFlight(tasks) {
      forall i | 0 <= i < |t.app.entries|
        ensures TaskRuns.OneInFlight(t.app.entries[i].tasks)
      {
        assert TaskRuns.OneInFlight(s.app.entries[i].tasks);
      }
    }
  }

  // A step that leaves the rounds and the application's own ledger alone.
  lemma {:induction false} NoLedgerChanged(s: State, t: State)
    requires AllLedgersOk(s) && t.app.entries == s.app.entries && t.app.tasks == s.app.tasks && s.nextId <= t.nextId
    ensures AllLedgersOk(t)
    ensures AllOneInFlight(s.app) ==> AllOneInFlight(t.app)
  {
    EntriesSame(s, t);
    LedgerLater(s.app.tasks, s.nextId, t.nextId);
    if AllOneInFlight(s.app) {
      forall i | 0 <= i < |t.app.entries|
        ensures TaskRuns.OneInFlight(t.app.entries[i].tasks)
      {
        assert TaskRuns.OneInFlight(s.app.entries[i].tasks);
      }
    }
  }

  lemma {:induction false} RoundMoves(s: State, i: nat, step: RoundStep)
    requires AllLedgersOk(s) && i < |s.app.entries| && s.nextId <= StepRound(s.app.entries[i], s.nextId, step).1
    ensures var (e, laterId) := StepRound(s.app.entries[i], s.nextId, step);
            var t := State(s.app.(entries := s.app.entries[i := e]), laterId);
            AllLedgersOk(t) && (!RequeuesInRound(step) && AllOneInFlight(s.app) ==> AllOneInFlight(t.app))
  {
    var (e, laterId) := StepRound(s.app.entries[i], s.nextId, step);
    assert LedgerOk(s.app.entries[i].tasks, s.nextId);
    assert AllOneInFlight(s.app) ==> TaskRuns.OneInFlight(s.app.entries[i].tasks);
    RoundStepOnLedger(s.app.entries[i], s.nextId, step);
    EntryChanged(s, i, e, laterId);
  }

  lemma {:induction false} Asks(s: State, actor: Id, key: string)
    requires AllLedgersOk(s) && s.nextId <= RequestComprehensive(s.app, s.nextId, actor, key).nextId
    ensures var o := RequestComprehensive(s.app, s.nextId, actor, key);
            AllLedgersOk(State(o.app, o.nextId)) && (AllOneInFlight(s.app) ==> AllOneInFlight(o.app))
  {
    var o := RequestComprehensive(s.app, s.nextId, actor, key);
    ProtocolStep(L.State(s.app.tasks, s.nextId), L.DoRequest(actor, key, InputFor(s.app.id, s.app.entries)));
    if o.app.tasks == s.app.tasks && o.nextId == s.nextId {
      NoLedgerChanged(s, State(o.app, o.nextId));
    } else {
      AppLedgerChanged(s, o.app.tasks, o.nextId);
    }
  }

  lemma {:induction false} TaskMoves(s: State, taskId: Id, status: TaskStatus.Status, cause: Cause)
    requires AllLedgersOk(s)
    ensures var a := s.app.(tasks := MovedTasks(s.app.tasks, s.nextId, taskId, status, cause));
            && AllLedgersOk(State(a, s.nextId))
            && (!TaskRuns.Requeues(CommandFor(taskId, status, cause)) && AllOneInFlight(s.app) ==> AllOneInFlight(a))
  {
    ProtocolStep(L.State(s.app.tasks, s.nextId), CommandFor(taskId, status, cause));
    AppLedgerChanged(s, MovedTasks(s.app.tasks, s.nextId, taskId, status, cause), s.nextId);
  }

  lemma {:induction false} StepKeeps(s: State, step: Step)
    requires AllLedgersOk(s) && s.nextId <= Apply(s, step).nextId
    ensures AllLedgersOk(Apply(s, step))
    ensures !Requeues(step) && AllOneInFlight(s.app) ==> AllOneInFlight(Apply(s, step).app)
  {
    match step
    case AddRound => EntryAdded(s);
    case RoundSteps(i, roundStep) =>
      if i < |s.app.entries| {
        RoundMoves(s, i, roundStep);
      }
    case AskComprehensive(actor, key) => Asks(s, actor, key);
    case ComprehensiveTaskMoves(taskId, status, cause) => TaskMoves(s, taskId, status, cause);
    case _ => NoLedgerChanged(s, Apply(s, step));
  }

  lemma {:induction false} RunsKeep(h: Run, t: nat)
    requires IsRun(h) && t < |h.states|
    ensures AllLedgersOk(h.states[t])
    ensures NoRequeue(h.steps[..t]) ==> AllOneInFlight(h.states[t].app)
  {
    if t > 0 {
      RunsKeep(h, t - 1);
      assert StepAt(h, t - 1);
      IdsOnlyGrow(h, t - 1);
      StepKeeps(h.states[t - 1], h.steps[t - 1]);
      if NoRequeue(h.steps[..t]) {
        assert h.steps[..t][t - 1] == h.steps[t - 1];
        NoRequeueBefore(h.steps, t);
      }
    }
  }

  lemma {:induction false} NoRequeueBefore(steps: seq<Step>, t: nat)
    requires 0 < t <= |steps| && NoRequeue(steps[..t])
    ensures NoRequeue(steps[..t - 1])
  {
    var fewer := steps[..t - 1];
    forall i | 0 <= i < |fewer|
      ensures !Requeues(fewer[i])
    {
      assert fewer[i] == steps[..t][i];
    }
  }

  lemma {:induction false} IdsOnlyGrow(h: Run, t: nat)
    requires IsRun(h) && t < |h.steps|
    ensures h.states[t].nextId <= Apply(h.states[t], h.steps[t]).nextId
  {
    History.ReachableInv(h, t);
    History.StepKeeps(h.states[t], h.steps[t]);
  }

  // Over every run without manual retry and without late requeue, however its steps interleave,
  // each round has at most one analysis task pending or running, and the application at most one
  // comprehensive task.
  lemma {:induction false} AtMostOneInFlight(h: Run, t: nat, i: nat)
    requires IsRun(h) && t < |h.states| && NoRequeue(h.steps[..t])
    ensures TaskRuns.OneInFlight(h.states[t].app.tasks)
    ensures i < |h.states[t].app.entries| ==> TaskRuns.OneInFlight(h.states[t].app.entries[i].tasks)
  {
    RunsKeep(h, t);
    var a := h.states[t].app;
    if i < |a.entries| {
      assert TaskRuns.OneInFlight(a.entries[i].tasks);
    }
  }

  // In every reachable state, a request under a key that was used before changes nothing, and is
  // answered with a task exactly when the round still freezes to the input the key was stored
  // with; after a newer confirm it is refused as a conflict.
  lemma {:induction false} ReplayedRequest(h: Run, t: nat, s: State, i: nat, actor: Id, key: string, jobVersionId: Id,
                                           raw: Option<seq<Scoring.RawDimension>>)
    requires At(h, t, s) && i < |s.app.entries|
    requires key != "" && L.RequestKey(actor, key) in s.app.entries[i].tasks.keys
    requires RoundAnalysis.Freeze(s.app.entries[i].round, jobVersionId, raw).Ok?
    ensures var e := s.app.entries[i];
            var input := RoundAnalysis.Freeze(e.round, jobVersionId, raw).value;
            && RequestAnalysis(e, s.nextId, actor, key, jobVersionId, raw) == (e, s.nextId)
            && (L.Request(e.tasks, s.nextId, actor, key, input).reply.Ok? <==> e.tasks.keys[L.RequestKey(actor, key)] == input)
  {
    RunsKeep(h, t);
    var e := s.app.entries[i];
    assert LedgerOk(e.tasks, s.nextId);
    StoredKeyHasTask(e.tasks, s.nextId, L.RequestKey(actor, key));
  }

  lemma {:induction false} StoredKeyHasTask(l: L.Ledger, nextId: Id, k: L.RequestKey)
    requires LedgerOk(l, nextId) && k in l.keys
    ensures L.Earliest(l.tasks, l.keys[k]).Some?
  {
    assert TaskRuns.HasTask(l.tasks, l.keys[k]);
    var i :| 0 <= i < |l.tasks| && l.tasks[i].input == l.keys[k];
    assert l.tasks[i] in l.tasks;
  }
}
