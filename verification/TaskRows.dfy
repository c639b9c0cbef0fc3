// The request protocol over real task rows: every task of a ledger is a row on which cancels,
// recoveries, retries and workers interleave step by step. Each such step is one command of the
// ledger, so what is proved of the ledger's runs holds of the interleaved rows.
module TaskRows {
  import opened Common
  import opened TaskStatus
  import AiTask
  import L = TaskLedger
  import TaskRuns

  datatype Row = Row(id: Id, createdBy: Id, key: string, input: L.Digest, state: AiTask.State)

  datatype Table = Table(rows: seq<Row>, keys: map<L.RequestKey, L.Digest>, nextId: Id)

  datatype Move =
    | Ask(actor: Id, key: string, input: L.Digest, now: int)
    | OnRow(index: nat, step: AiTask.Step)
    | ElsewhereIdsTaken(count: nat)

  function TaskOf(row: Row): L.Task {
    L.Task(row.id, row.createdBy, row.key, row.input, row.state.task.status)
  }

  function TasksOf(rows: seq<Row>): (tasks: seq<L.Task>)
    ensures |tasks| == |rows| && forall i | 0 <= i < |rows| :: tasks[i] == TaskOf(rows[i])
  {
    seq(|rows|, i requires 0 <= i < |rows| => TaskOf(rows[i]))
  }

  // What the protocol sees of a table.
  function LedgerOf(t: Table): L.State {
    L.State(L.Ledger(TasksOf(t.rows), t.keys), t.nextId)
  }

  // A request that creates a task inserts a fresh row for it.
  function Do(t: Table, m: Move): Table {
    match m
    case Ask(actor, key, input, now) =>
      var o := L.Request(LedgerOf(t).ledger, t.nextId, actor, key, input);
      var created := |o.ledger.tasks| > |t.rows|;
      Table(if created then t.rows + [Row(t.nextId, actor, key, input, AiTask.NewTask(now))] else t.rows, o.ledger.keys, o.nextId)
    case OnRow(i, step) =>
      if i < |t.rows| then t.(rows := t.rows[i := t.rows[i].(state := AiTask.Apply(t.rows[i].state, step))]) else t
    case ElsewhereIdsTaken(count) => t.(nextId := t.nextId + count)
  }

  function Runs(t: Table, moves: seq<Move>): Table {
    if moves == [] then t else Do(Runs(t, moves[..|moves| - 1]), moves[|moves| - 1])
  }

  function Empty(firstId: Id): Table {
    Table([], map[], firstId)
  }

  // The command that a move amounts to.
  function CommandFor(t: Table, m: Move): L.Cmd {
    match m
    case Ask(actor, key, input, _) => L.DoRequest(actor, key, input)
    case OnRow(i, step) =>
      if i >= |t.rows| then L.ElsewhereIdsTaken(0)
      else if step.Retry? then L.DoRetry(t.rows[i].id)
      else if InFlight(t.rows[i].state.task.status)
      then L.DoProgress(t.rows[i].id, AiTask.Apply(t.rows[i].state, step).task.status)
      else L.DoLateOutcome(t.rows[i].id, AiTask.Apply(t.rows[i].state, step).task.status)
    case ElsewhereIdsTaken(count) => L.ElsewhereIdsTaken(count)
  }

  function CommandsFor(t: Table, moves: seq<Move>): seq<L.Cmd> {
    if moves == [] then []
    else
      var before := moves[..|moves| - 1];
      CommandsFor(t, before) + [CommandFor(Runs(t, before), moves[|moves| - 1])]
  }

  // A retry moves only failed and invalid tasks.
  lemma {:induction false} RetryMoves(s: AiTask.State, now: int)
    ensures AiTask.Apply(s, AiTask.Retry(now)).task.status == if AiTask.Retryable(s.task) then Pending else s.task.status
  {
  }

  lemma {:induction false} FoundAt(tasks: seq<L.Task>, nextId: Id, i: nat)
    requires TaskRuns.IdsRise(tasks, nextId) && i < |tasks|
    ensures L.FindTask(tasks, tasks[i].id) == Some(tasks[i])
  {
    assert tasks[i] in tasks;
    var found := L.FindTask(tasks, tasks[i].id);
    var j :| 0 <= j < |tasks| && tasks[j] == found.value;
    TaskRuns.IdIndex(tasks, nextId, i, j);
  }

  lemma {:induction false} SetStatusAt(tasks: seq<L.Task>, nextId: Id, i: nat, status: Status)
    requires TaskRuns.IdsRise(tasks, nextId) && i < |tasks|
    ensures L.SetStatus(tasks, tasks[i].id, status) == tasks[i := tasks[i].(status := status)]
  {
    forall j | 0 <= j < |tasks| && tasks[j].id == tasks[i].id
      ensures j == i
    {
      TaskRuns.IdIndex(tasks, nextId, i, j);
    }
  }

  lemma {:induction false} RowStepIsCommand(t: Table, i: nat, step: AiTask.Step)
    requires TaskRuns.Inv(LedgerOf(t)) && i < |t.rows|
    ensures LedgerOf(Do(t, OnRow(i, step))) == L.Step(LedgerOf(t), CommandFor(t, OnRow(i, step)))
  {
    var row := t.rows[i];
    var after := AiTask.Apply(row.state, step);
    var changed := L.Task(row.id, row.createdBy, row.key, row.input, after.task.status);
    if step.Retry? {
      RetryMoves(row.state, step.now);
    }
    assert TasksOf(t.rows[i := row.(state := after)]) == TasksOf(t.rows)[i := changed];
    CommandSetsStatus(LedgerOf(t), i, after.task.status);
  }

  // What the status commands do to the task at this place.
  lemma {:induction false} CommandSetsStatus(s: L.State, i: nat, status: Status)
    requires TaskRuns.Inv(s) && i < |s.ledger.tasks|
    ensures var tasks := s.ledger.tasks;
            && L.Step(s, L.DoProgress(tasks[i].id, status)) ==
                 (if InFlight(tasks[i].status) then L.State(s.ledger.(tasks := tasks[i := tasks[i].(status := status)]), s.nextId) else s)
            && L.Step(s, L.DoLateOutcome(tasks[i].id, status)) ==
                 L.State(s.ledger.(tasks := tasks[i := tasks[i].(status := status)]), s.nextId)
            && L.Step(s, L.DoRetry(tasks[i].id)) ==
                 (if tasks[i].status == Failed || tasks[i].status == OutputInvalid
                  then L.State(s.ledger.(tasks := tasks[i := tasks[i].(status := Pending)]), s.nextId) else s)
  {
    FoundAt(s.ledger.tasks, s.nextId, i);
    SetStatusAt(s.ledger.tasks, s.nextId, i, status);
    SetStatusAt(s.ledger.tasks, s.nextId, i, Pending);
  }

  lemma {:induction false} AskIsCommand(t: Table, actor: Id, key: string, input: L.Digest, now: int)
    ensures LedgerOf(Do(t, Ask(actor, key, input, now))) == L.Step(LedgerOf(t), L.DoRequest(actor, key, input))
  {
    var l := LedgerOf(t).ledger;
    var o := L.Request(l, t.nextId, actor, key, input);
    TaskRuns.RequestCases(l, t.nextId, actor, key, input);
    var row := Row(t.nextId, actor, key, input, AiTask.NewTask(now));
    assert TasksOf(t.rows + [row]) == l.tasks + [L.Task(t.nextId, actor, key, input, Pending)];
  }

  // One move on the rows is one command on the ledger.
  lemma {:induction false} MoveIsCommand(t: Table, m: Move)
    requires TaskRuns.Inv(LedgerOf(t))
    ensures LedgerOf(Do(t, m)) == L.Step(LedgerOf(t), CommandFor(t, m))
  {
    match m
    case Ask(actor, key, input, now) => AskIsCommand(t, actor, key, input, now);
    case OnRow(i, step) =>
      if i < |t.rows| {
        RowStepIsCommand(t, i, step);
      }
    case ElsewhereIdsTaken(count) =>
  }

  // Every interleaved run of the rows is a run of the ledger.
  lemma {:induction false} RunIsProtocolRun(firstId: Id, moves: seq<Move>)
    ensures LedgerOf(Runs(Empty(firstId), moves)) == L.Exec(L.Empty(firstId), CommandsFor(Empty(firstId), moves))
  {
    var t, cmds := Empty(firstId), CommandsFor(Empty(firstId), moves);
    if moves == [] {
      assert TasksOf(t.rows) == [];
    } else {
      var before := moves[..|moves| - 1];
      RunIsProtocolRun(firstId, before);
      TaskRuns.RunsKeep(L.Empty(firstId), CommandsFor(t, before));
      MoveIsCommand(Runs(t, before), moves[|moves| - 1]);
      assert cmds[..|cmds| - 1] == CommandsFor(t, before);
    }
  }

  // ---------- at most one row in flight ----------

  predicate NoRetry(moves: seq<Move>) {
    forall i | 0 <= i < |moves| && moves[i].OnRow? :: !moves[i].step.Retry?
  }

  // Recovers a row that a worker may still requeue.
  predicate Careless(t: Table, m: Move) {
    m.OnRow? && m.index < |t.rows| && AiTask.Careless(t.rows[m.index].state, m.step)
  }

  predicate Careful(t: Table, moves: seq<Move>) {
    forall k | 0 <= k < |moves| :: !Careless(Runs(t, moves[..k]), moves[k])
  }

  ghost predicate RowsSound(rows: seq<Row>) {
    forall i {:trigger AiTask.Sound(rows[i].state)} | 0 <= i < |rows| :: AiTask.Sound(rows[i].state)
  }

  ghost predicate TableSound(t: Table) {
    TaskRuns.Inv(LedgerOf(t)) && RowsSound(t.rows) && TaskRuns.OneInFlight(LedgerOf(t).ledger)
  }

  lemma {:induction false} RowStaysSound(t: Table, i: nat, step: AiTask.Step)
    requires RowsSound(t.rows) && i < |t.rows| && !step.Retry? && !AiTask.Careless(t.rows[i].state, step)
    ensures RowsSound(Do(t, OnRow(i, step)).rows) && !TaskRuns.Requeues(CommandFor(t, OnRow(i, step)))
  {
    var after := Do(t, OnRow(i, step)).rows;
    assert AiTask.Sound(t.rows[i].state);
    AiTask.StaysSound(t.rows[i].state, step);
    forall j | 0 <= j < |after|
      ensures AiTask.Sound(after[j].state)
    {
      assert AiTask.Sound(t.rows[j].state);
    }
  }

  lemma {:induction false} NewRowSound(rows: seq<Row>, row: Row, now: int)
    requires RowsSound(rows) && row.state == AiTask.NewTask(now)
    ensures RowsSound(rows + [row])
  {
    AiTask.OneOwnerUntilRecovery(now, []);
    forall j | 0 <= j < |rows + [row]|
      ensures AiTask.Sound((rows + [row])[j].state)
    {
      assert j < |rows| ==> AiTask.Sound(rows[j].state);
    }
  }

  lemma {:induction false} SoundStep(t: Table, m: Move)
    requires TableSound(t) && !Careless(t, m) && (m.OnRow? ==> !m.step.Retry?)
    ensures TableSound(Do(t, m))
  {
    MoveIsCommand(t, m);
    TaskRuns.StepKeeps(LedgerOf(t), CommandFor(t, m));
    match m
    case Ask(actor, key, input, now) =>
      NewRowSound(t.rows, Row(t.nextId, actor, key, input, AiTask.NewTask(now)), now);
      TaskRuns.OneInFlightStep(LedgerOf(t), CommandFor(t, m));
    case OnRow(i, step) =>
      if i < |t.rows| {
        RowStaysSound(t, i, step);
        TaskRuns.OneInFlightStep(LedgerOf(t), CommandFor(t, m));
      }
    case ElsewhereIdsTaken(count) =>
  }

  lemma {:induction false} SoundRuns(t: Table, moves: seq<Move>)
    requires TableSound(t) && NoRetry(moves) && Careful(t, moves)
    ensures TableSound(Runs(t, moves))
  {
    if moves != [] {
      var n := |moves| - 1;
      CarefulBefore(t, moves);
      SoundRuns(t, moves[..n]);
      SoundStep(Runs(t, moves[..n]), moves[n]);
    }
  }

  lemma {:induction false} CarefulBefore(t: Table, moves: seq<Move>)
    requires Careful(t, moves) && NoRetry(moves) && moves != []
    ensures Careful(t, moves[..|moves| - 1]) && NoRetry(moves[..|moves| - 1])
    ensures !Careless(Runs(t, moves[..|moves| - 1]), moves[|moves| - 1])
  {
    var before := moves[..|moves| - 1];
    forall k | 0 <= k < |before|
      ensures !Careless(Runs(t, before[..k]), before[k])
    {
      assert before[..k] == moves[..k] && before[k] == moves[k];
    }
  }

  lemma {:induction false} FinishIsCareful(t: Table, moves: seq<Move>)
    requires |moves| == 2 && moves[0].Ask? && moves[1].OnRow? && moves[1].step.Finish?
    ensures NoRetry(moves) && Careful(t, moves)
  {
  }

  lemma {:induction false} InFlightIndex(t: Table, i: nat, j: nat)
    requires TaskRuns.OneInFlight(LedgerOf(t).ledger) && i < |t.rows| && j < |t.rows|
    requires InFlight(t.rows[i].state.task.status) && InFlight(t.rows[j].state.task.status)
    ensures i == j
  {
    var tasks := TasksOf(t.rows);
    assert tasks[i].status == t.rows[i].state.task.status && tasks[j].status == t.rows[j].state.task.status;
  }

  lemma {:induction false} OtherNotInFlight(t: Table, i: nat, j: nat)
    requires TaskRuns.OneInFlight(LedgerOf(t).ledger) && i < |t.rows| && j < |t.rows| && i != j
    requires InFlight(t.rows[i].state.task.status)
    ensures !InFlight(t.rows[j].state.task.status)
  {
    var tasks := TasksOf(t.rows);
    assert tasks[i].status == t.rows[i].state.task.status && tasks[j].status == t.rows[j].state.task.status;
  }

  // So, however cancels, recoveries and workers interleave on however many rows: without manual
  // retries, and if no row is recovered from a worker that may requeue it, at most one row is
  // pending or running.
  lemma {:induction false} AtMostOneRowInFlight(firstId: Id, moves: seq<Move>, i: nat, j: nat)
    requires NoRetry(moves) && Careful(Empty(firstId), moves)
    requires var rows := Runs(Empty(firstId), moves).rows;
             && i < |rows| && j < |rows|
             && InFlight(rows[i].state.task.status) && InFlight(rows[j].state.task.status)
    ensures i == j
  {
    SoundRuns(Empty(firstId), moves);
    InFlightIndex(Runs(Empty(firstId), moves), i, j);
  }

  lemma {:induction false} RunsMore(t: Table, moves: seq<Move>, last: Move)
    ensures Runs(t, moves + [last]) == Do(Runs(t, moves), last)
  {
    assert (moves + [last])[..|moves|] == moves;
  }

  lemma {:induction false} TwoMoves(t: Table, a: Move, b: Move)
    ensures Runs(t, [a, b]) == Do(Do(t, a), b)
  {
    RunsMore(t, [], a);
    RunsMore(t, [a], b);
    assert [] + [a] == [a] && [a] + [b] == [a, b];
  }

  // An actor who has not asked for anything yet.
  lemma {:induction false} FreshActor(keys: set<L.RequestKey>) returns (actor: Id)
    ensures forall k | k in keys :: k.actor < actor
  {
    if keys == {} {
      actor := 0;
    } else {
      var k :| k in keys;
      var rest := FreshActor(keys - {k});
      actor := Max(rest, k.actor + 1);
    }
  }

  // The failing run: while a settled row may still be requeued, a new request creates a task, and
  // the late failure makes two rows pending.
  lemma {:induction false} LateFailureMakesTwo(t: Table, i: nat, w: Id, actor: Id, key: string, input: L.Digest, moves: seq<Move>)
    requires i < |t.rows| && !InFlight(t.rows[i].state.task.status) && L.LatestInFlight(TasksOf(t.rows)).None?
    requires key != "" && L.RequestKey(actor, key) !in t.keys
    requires var workers := t.rows[i].state.workers;
             w in workers && AiTask.Owns(workers[w]) && workers[w].cycle < AiTask.MAX_ATTEMPTS
    requires moves == [Ask(actor, key, input, 0), OnRow(i, AiTask.Finish(w, AiTask.ProviderFailed(true), 0))]
    ensures !TaskRuns.OneInFlight(LedgerOf(Runs(t, moves)).ledger)
  {
    var ask, finish := Ask(actor, key, input, 0), OnRow(i, AiTask.Finish(w, AiTask.ProviderFailed(true), 0));
    TwoMoves(t, ask, finish);
    var n, asked := |t.rows|, Do(t, ask);
    assert asked.rows == t.rows + [Row(t.nextId, actor, key, input, AiTask.NewTask(0))];
    var late := Do(asked, finish);
    assert late.rows[i].state.task.status == Pending && late.rows[n].state.task.status == Pending;
    if TaskRuns.OneInFlight(LedgerOf(late).ledger) {
      InFlightIndex(late, i, n);
    }
  }

  function OnRowAll(i: nat, steps: seq<AiTask.Step>): (moves: seq<Move>)
    ensures |moves| == |steps| && forall k | 0 <= k < |steps| :: moves[k] == OnRow(i, steps[k])
  {
    seq(|steps|, k requires 0 <= k < |steps| => OnRow(i, steps[k]))
  }

  lemma {:induction false} RowRuns(t: Table, i: nat, steps: seq<AiTask.Step>)
    requires i < |t.rows|
    ensures Runs(t, OnRowAll(i, steps)) == t.(rows := t.rows[i := t.rows[i].(state := AiTask.Exec(t.rows[i].state, steps))])
  {
    if steps == [] {
      assert OnRowAll(i, steps) == [];
      assert t.rows[i := t.rows[i].(state := t.rows[i].state)] == t.rows;
    } else {
      var n := |steps| - 1;
      RowRuns(t, i, steps[..n]);
      assert OnRowAll(i, steps)[..n] == OnRowAll(i, steps[..n]);
    }
  }

  // From scratch: request, claim, start, recover, request again, and the first worker's late failure.
  lemma {:induction false} TwoInFlightWithoutRetry(firstId: Id, actor: Id, first: L.Digest, second: L.Digest, now: int, w: Id, op: Id)
    ensures var late := now + AiTask.STALE_RUNNING_MIN_AGE;
            var asked := Do(Empty(firstId), Ask(actor, "first", first, now));
            var recovered := Runs(asked, OnRowAll(0, [AiTask.Claim(w, now), AiTask.Start(w), AiTask.RecoverRead(op, now, late),
                                                      AiTask.RecoverWrite(op)]));
            var more := [Ask(actor, "second", second, 0), OnRow(0, AiTask.Finish(w, AiTask.ProviderFailed(true), 0))];
            !TaskRuns.OneInFlight(LedgerOf(Runs(recovered, more)).ledger)
  {
    var late := now + AiTask.STALE_RUNNING_MIN_AGE;
    var steps := [AiTask.Claim(w, now), AiTask.Start(w), AiTask.RecoverRead(op, now, late), AiTask.RecoverWrite(op)];
    var asked := Do(Empty(firstId), Ask(actor, "first", first, now));
    assert asked.rows == [Row(firstId, actor, "first", first, AiTask.NewTask(now))];
    RowRuns(asked, 0, steps);
    AiTask.OwnerSurvivesRecovery(now, w, op);
    var recovered := Runs(asked, OnRowAll(0, steps));
    assert forall task | task in TasksOf(recovered.rows) :: task.status == Failed;
    assert |"first"| != |"second"| && L.RequestKey(actor, "second") !in recovered.keys;
    var more := [Ask(actor, "second", second, 0), OnRow(0, AiTask.Finish(w, AiTask.ProviderFailed(true), 0))];
    LateFailureMakesTwo(recovered, 0, w, actor, "second", second, more);
  }

  // Recovering a row keeps at most one in flight over every later run without retries and without
  // further careless recoveries if and only if no worker of the row may still requeue it.
  lemma {:induction false} RecoveryKeepsOneIff(t: Table, i: nat, op: Id)
    requires TableSound(t) && i < |t.rows| && AiTask.Recovers(t.rows[i].state, op)
    ensures var after := Do(t, OnRow(i, AiTask.RecoverWrite(op)));
            !AiTask.MayRequeue(t.rows[i].state.workers) <==>
            forall moves {:trigger Runs(after, moves)} | NoRetry(moves) && Careful(after, moves) ::
              TaskRuns.OneInFlight(LedgerOf(Runs(after, moves)).ledger)
  {
    var recovery := OnRow(i, AiTask.RecoverWrite(op));
    var after := Do(t, recovery);
    if AiTask.MayRequeue(t.rows[i].state.workers) {
      CarelessMakesTwo(t, i, op);
    } else {
      SoundStep(t, recovery);
      forall moves | NoRetry(moves) && Careful(after, moves)
        ensures TaskRuns.OneInFlight(LedgerOf(Runs(after, moves)).ledger)
      {
        SoundRuns(after, moves);
      }
    }
  }

  lemma {:induction false} CarelessMakesTwo(t: Table, i: nat, op: Id)
    requires TableSound(t) && i < |t.rows| && AiTask.Recovers(t.rows[i].state, op)
    requires AiTask.MayRequeue(t.rows[i].state.workers)
    ensures var after := Do(t, OnRow(i, AiTask.RecoverWrite(op)));
            exists moves {:trigger Runs(after, moves)} | NoRetry(moves) && Careful(after, moves) ::
              !TaskRuns.OneInFlight(LedgerOf(Runs(after, moves)).ledger)
  {
    NoneLeftInFlight(t, i, op);
    var after := Do(t, OnRow(i, AiTask.RecoverWrite(op)));
    assert after.rows[i].state.workers == t.rows[i].state.workers;
    TwoAreReachable(after, i);
  }

  lemma {:induction false} TwoAreReachable(t: Table, i: nat)
    requires i < |t.rows| && !InFlight(t.rows[i].state.task.status) && L.LatestInFlight(TasksOf(t.rows)).None?
    requires AiTask.MayRequeue(t.rows[i].state.workers)
    ensures exists moves {:trigger Runs(t, moves)} | NoRetry(moves) && Careful(t, moves) ::
              !TaskRuns.OneInFlight(LedgerOf(Runs(t, moves)).ledger)
  {
    var workers := t.rows[i].state.workers;
    var w :| w in workers && AiTask.Owns(workers[w]) && workers[w].cycle < AiTask.MAX_ATTEMPTS;
    var actor := FreshActor(t.keys.Keys);
    var input := t.rows[i].input;
    var moves := [Ask(actor, "again", input, 0), OnRow(i, AiTask.Finish(w, AiTask.ProviderFailed(true), 0))];
    LateFailureMakesTwo(t, i, w, actor, "again", input, moves);
    FinishIsCareful(t, moves);
  }

  // The recovered row was the one in flight.
  lemma {:induction false} NoneLeftInFlight(t: Table, i: nat, op: Id)
    requires TaskRuns.OneInFlight(LedgerOf(t).ledger) && i < |t.rows| && AiTask.Recovers(t.rows[i].state, op)
    ensures L.LatestInFlight(TasksOf(Do(t, OnRow(i, AiTask.RecoverWrite(op))).rows)).None?
  {
    var after := Do(t, OnRow(i, AiTask.RecoverWrite(op)));
    var tasks := TasksOf(after.rows);
    forall j | 0 <= j < |tasks|
      ensures !InFlight(tasks[j].status)
    {
      if j != i {
        OtherNotInFlight(t, i, j);
      }
    }
    assert forall task | task in tasks :: !InFlight(task.status);
  }
}
