// What every run of the task protocol keeps: replayed requests never conflict, and without manual
// retries at most one task is in flight.
module TaskRuns {
  import opened Common
  import opened TaskLedger
  import opened TaskStatus

  lemma {:induction false} ExecTwo(s: State, a: Cmd, b: Cmd)
    ensures Exec(s, [a, b]) == Step(Step(s, a), b)
  {
    var two, one: seq<Cmd> := [a, b], [a];
    assert two[..1] == one && one[..0] == [];
    assert Exec(s, one) == Step(Exec(s, one[..0]), a);
  }

  // ---------- invariant of all runs ----------

  ghost predicate IdsRise(tasks: seq<Task>, nextId: Id) {
    && (forall i | 0 <= i < |tasks| :: tasks[i].id < nextId)
    && (forall i, j | 0 <= i < j < |tasks| :: tasks[i].id < tasks[j].id)
  }

  ghost predicate HasTask(tasks: seq<Task>, input: Digest) {
    exists i | 0 <= i < |tasks| :: tasks[i].input == input
  }

  ghost predicate KeysHaveTasks(l: Ledger) {
    forall k {:trigger HasTask(l.tasks, l.keys[k])} | k in l.keys :: HasTask(l.tasks, l.keys[k])
  }

  // The key row behind each task.
  ghost predicate KeyStored(l: Ledger, t: Task) {
    var k := RequestKey(t.createdBy, t.key);
    k in l.keys && l.keys[k] == t.input
  }

  // The unique index on creator, business, type and key.
  ghost predicate KeyUsedOnce(l: Ledger) {
    && (forall i {:trigger KeyStored(l, l.tasks[i])} | 0 <= i < |l.tasks| :: KeyStored(l, l.tasks[i]))
    && (forall i, j | 0 <= i < j < |l.tasks| ::
          l.tasks[i].createdBy != l.tasks[j].createdBy || l.tasks[i].key != l.tasks[j].key)
  }

  ghost predicate Inv(s: State) {
    IdsRise(s.ledger.tasks, s.nextId) && KeysHaveTasks(s.ledger) && KeyUsedOnce(s.ledger)
  }

  // The task list only grows, and a task keeps everything but its status.
  ghost predicate Grows(a: Ledger, b: Ledger) {
    && |a.tasks| <= |b.tasks|
    && (forall i | 0 <= i < |a.tasks| :: b.tasks[i] == a.tasks[i].(status := b.tasks[i].status))
    && (forall k | k in a.keys :: k in b.keys && b.keys[k] == a.keys[k])
  }

  lemma {:induction false} KeptTasks(l: Ledger, after: Ledger, k: RequestKey, input: Digest)
    requires KeysHaveTasks(l) && Grows(l, after) && HasTask(after.tasks, input)
    requires after.keys == l.keys[k := input]
    ensures KeysHaveTasks(after)
  {
    forall c | c in after.keys
      ensures HasTask(after.tasks, after.keys[c])
    {
      if c != k {
        assert HasTask(l.tasks, l.keys[c]);
        var i :| 0 <= i < |l.tasks| && l.tasks[i].input == l.keys[c];
        assert after.tasks[i].input == after.keys[c];
      }
    }
  }

  lemma {:induction false} StoringKeepsUse(l: Ledger, k: RequestKey, input: Digest)
    requires KeyUsedOnce(l) && k !in l.keys
    ensures KeyUsedOnce(l.(keys := l.keys[k := input]))
    ensures forall i | 0 <= i < |l.tasks| :: RequestKey(l.tasks[i].createdBy, l.tasks[i].key) != k
  {
    var after := l.(keys := l.keys[k := input]);
    forall i | 0 <= i < |l.tasks|
      ensures KeyStored(after, l.tasks[i]) && RequestKey(l.tasks[i].createdBy, l.tasks[i].key) != k
    {
      assert KeyStored(l, l.tasks[i]);
    }
  }

  lemma {:induction false} CreatingKeepsUse(l: Ledger, t: Task)
    requires KeyUsedOnce(l) && RequestKey(t.createdBy, t.key) !in l.keys
    ensures KeyUsedOnce(Ledger(l.tasks + [t], l.keys[RequestKey(t.createdBy, t.key) := t.input]))
  {
    var k := RequestKey(t.createdBy, t.key);
    var after := Ledger(l.tasks + [t], l.keys[k := t.input]);
    StoringKeepsUse(l, k, t.input);
    forall i | 0 <= i < |after.tasks|
      ensures KeyStored(after, after.tasks[i])
    {
      assert i < |l.tasks| ==> KeyStored(l.(keys := after.keys), l.tasks[i]);
    }
    forall i, j | 0 <= i < j < |after.tasks|
      ensures after.tasks[i].createdBy != after.tasks[j].createdBy || after.tasks[i].key != after.tasks[j].key
    {
      assert j == |l.tasks| ==> RequestKey(l.tasks[i].createdBy, l.tasks[i].key) != k;
    }
  }

  // A request either changes nothing, stores its key for the task in flight, or makes a task.
  lemma {:induction false} RequestCases(l: Ledger, nextId: Id, actor: Id, key: string, input: Digest)
    ensures var o := Request(l, nextId, actor, key, input);
            var k := RequestKey(actor, key);
            || (o.ledger == l && o.nextId == nextId)
            || (&& k !in l.keys && o.nextId == nextId && o.ledger == l.(keys := l.keys[k := input])
                && exists i | 0 <= i < |l.tasks| :: l.tasks[i].input == input)
            || (&& k !in l.keys && o.nextId == nextId + 1
                && o.ledger == Ledger(l.tasks + [Task(nextId, actor, key, input, Pending)], l.keys[k := input]))
  {
    var inflight := LatestInFlight(l.tasks);
    if inflight.Some? {
      var i :| 0 <= i < |l.tasks| && l.tasks[i] == inflight.value;
    }
  }

  lemma {:induction false} RequestKeeps(s: State, actor: Id, key: string, input: Digest)
    requires Inv(s)
    ensures var o := Request(s.ledger, s.nextId, actor, key, input);
            Inv(State(o.ledger, o.nextId)) && Grows(s.ledger, o.ledger) && s.nextId <= o.nextId
  {
    var l := s.ledger;
    var o := Request(l, s.nextId, actor, key, input);
    var k := RequestKey(actor, key);
    RequestCases(l, s.nextId, actor, key, input);
    if o.nextId > s.nextId {
      TaskAdded(s, Task(s.nextId, actor, key, input, Pending), o.ledger);
    } else if o.ledger != l {
      StoringKeepsUse(l, k, input);
      KeptTasks(l, o.ledger, k, input);
    }
  }

  lemma {:induction false} TaskAdded(s: State, task: Task, after: Ledger)
    requires Inv(s) && task.id == s.nextId && RequestKey(task.createdBy, task.key) !in s.ledger.keys
    requires after == Ledger(s.ledger.tasks + [task], s.ledger.keys[RequestKey(task.createdBy, task.key) := task.input])
    ensures Inv(State(after, s.nextId + 1)) && Grows(s.ledger, after)
  {
    assert after.tasks[|s.ledger.tasks|] == task;
    CreatingKeepsUse(s.ledger, task);
    KeptTasks(s.ledger, after, RequestKey(task.createdBy, task.key), task.input);
  }

  lemma {:induction false} StatusChangeKeeps(s: State, id: Id, status: Status)
    requires Inv(s)
    ensures var l := s.ledger.(tasks := SetStatus(s.ledger.tasks, id, status));
            Inv(State(l, s.nextId)) && Grows(s.ledger, l)
  {
    var l := s.ledger.(tasks := SetStatus(s.ledger.tasks, id, status));
    forall k | k in l.keys
      ensures HasTask(l.tasks, l.keys[k])
    {
      assert HasTask(s.ledger.tasks, s.ledger.keys[k]);
      var i :| 0 <= i < |s.ledger.tasks| && s.ledger.tasks[i].input == s.ledger.keys[k];
      assert l.tasks[i].input == l.keys[k];
    }
    StatusChangeKeepsUse(s.ledger, id, status);
  }

  lemma {:induction false} StatusChangeKeepsUse(before: Ledger, id: Id, status: Status)
    requires KeyUsedOnce(before)
    ensures KeyUsedOnce(before.(tasks := SetStatus(before.tasks, id, status)))
  {
    var l := before.(tasks := SetStatus(before.tasks, id, status));
    forall i | 0 <= i < |l.tasks|
      ensures KeyStored(l, l.tasks[i])
    {
      assert KeyStored(before, before.tasks[i]);
    }
  }

  lemma {:induction false} StepKeeps(s: State, cmd: Cmd)
    requires Inv(s)
    ensures var o := Apply(s.ledger, s.nextId, cmd);
            Inv(State(o.ledger, o.nextId)) && Grows(s.ledger, o.ledger) && s.nextId <= o.nextId
  {
    if cmd.DoRequest? {
      RequestKeeps(s, cmd.actor, cmd.key, cmd.input);
    } else {
      StatusStepKeeps(s, cmd);
    }
  }

  lemma {:induction false} StatusStepKeeps(s: State, cmd: Cmd)
    requires Inv(s) && !cmd.DoRequest?
    ensures var o := Apply(s.ledger, s.nextId, cmd);
            Inv(State(o.ledger, o.nextId)) && Grows(s.ledger, o.ledger) && s.nextId <= o.nextId
  {
    match cmd
    case DoProgress(id, status) => StatusChangeKeeps(s, id, status);
    case DoLateOutcome(id, status) => StatusChangeKeeps(s, id, status);
    case DoRetry(id) => StatusChangeKeeps(s, id, Pending);
    case ElsewhereIdsTaken(count) =>
  }

  lemma {:induction false} RunsKeep(s: State, cmds: seq<Cmd>)
    requires Inv(s)
    ensures Inv(Exec(s, cmds)) && Grows(s.ledger, Exec(s, cmds).ledger) && s.nextId <= Exec(s, cmds).nextId
  {
    if cmds != [] {
      var before := Exec(s, cmds[..|cmds| - 1]);
      RunsKeep(s, cmds[..|cmds| - 1]);
      StepKeeps(before, cmds[|cmds| - 1]);
    }
  }

  lemma {:induction false} ReachableInv(s: State, firstId: Id, cmds: seq<Cmd>)
    requires s == Exec(Empty(firstId), cmds)
    ensures Inv(s)
  {
    RunsKeep(Empty(firstId), cmds);
  }

  // ---------- what a request does ----------

  predicate LatestInFlightAt(tasks: seq<Task>, k: nat) {
    && k < |tasks|
    && (tasks[k].status == Pending || tasks[k].status == Running)
    && forall j | k < j < |tasks| :: tasks[j].status != Pending && tasks[j].status != Running
  }

  lemma {:induction false} LatestIsLast(tasks: seq<Task>)
    ensures LatestInFlight(tasks).Some? ==>
              exists k: nat :: LatestInFlightAt(tasks, k) && tasks[k] == LatestInFlight(tasks).value
    ensures LatestInFlight(tasks).None? ==>
              forall k | 0 <= k < |tasks| :: tasks[k].status != Pending && tasks[k].status != Running
  {
    if tasks != [] {
      var n := |tasks| - 1;
      if InFlight(tasks[n].status) {
        assert LatestInFlightAt(tasks, n);
      } else {
        LatestIsLast(tasks[..n]);
        if LatestInFlight(tasks[..n]).Some? {
          var k: nat :| LatestInFlightAt(tasks[..n], k) && tasks[..n][k] == LatestInFlight(tasks[..n]).value;
          assert LatestInFlightAt(tasks, k);
        } else {
          assert forall k | 0 <= k < n :: tasks[k] == tasks[..n][k];
        }
      }
    }
  }

  // A request without a key is refused. Under an unused key it is answered with the latest task in
  // flight, and the key is stored for it, if that task has the same input; it is refused if the
  // task has another; and if nothing is in flight it makes a pending task of its input under its
  // key. Under a used key another input is a conflict. Refusals change nothing.
  lemma {:induction false} RequestEffect(l: Ledger, nextId: Id, actor: Id, key: string, input: Digest, k: nat)
    ensures var o := Request(l, nextId, actor, key, input);
            var used := RequestKey(actor, key);
            && (o.reply.Err? ==> o.ledger == l && o.nextId == nextId)
            && (key == "" ==> o.reply == Err(KeyRequired))
            && (key != "" && used in l.keys && l.keys[used] != input ==> o.reply == Err(IdempotencyConflict))
            && (key != "" && used !in l.keys && LatestInFlightAt(l.tasks, k) ==>
                  if l.tasks[k].input == input
                  then o == Outcome(l.(keys := l.keys[used := input]), nextId, Ok(l.tasks[k].id))
                  else o.reply == Err(TaskInFlight))
            && (key != "" && used !in l.keys
                && (forall j | 0 <= j < |l.tasks| :: l.tasks[j].status != Pending && l.tasks[j].status != Running) ==>
                  o == Outcome(Ledger(l.tasks + [Task(nextId, actor, key, input, Pending)], l.keys[used := input]), nextId + 1, Ok(nextId)))
  {
    LatestIsLast(l.tasks);
    if LatestInFlight(l.tasks).Some? {
      var j: nat :| LatestInFlightAt(l.tasks, j) && l.tasks[j] == LatestInFlight(l.tasks).value;
      if LatestInFlightAt(l.tasks, k) {
        assert !(j < k) && !(k < j);
      }
    }
  }

  // ---------- replays ----------

  // Whatever happened before, manual retries included: a stored key replayed with its own input
  // is answered with a task of that input, and neither a conflict nor a new task results.
  lemma {:induction false} ReplayNeverConflicts(s: State, firstId: Id, cmds: seq<Cmd>, actor: Id, key: string)
    requires s == Exec(Empty(firstId), cmds)
    requires key != "" && RequestKey(actor, key) in s.ledger.keys
    ensures var input := s.ledger.keys[RequestKey(actor, key)];
            Earliest(s.ledger.tasks, input).Some?
            && Request(s.ledger, s.nextId, actor, key, input)
               == Outcome(s.ledger, s.nextId, Ok(Earliest(s.ledger.tasks, input).value.id))
  {
    ReachableInv(s, firstId, cmds);
    var input := s.ledger.keys[RequestKey(actor, key)];
    assert HasTask(s.ledger.tasks, input);
    var i :| 0 <= i < |s.ledger.tasks| && s.ledger.tasks[i].input == input;
    assert s.ledger.tasks[i] in s.ledger.tasks;
  }

  lemma {:induction false} EarliestIndex(tasks: seq<Task>, input: Digest) returns (i: nat)
    requires Earliest(tasks, input).Some?
    ensures i < |tasks| && tasks[i] == Earliest(tasks, input).value && forall j | 0 <= j < i :: tasks[j].input != input
  {
    if tasks[0].input == input {
      i := 0;
    } else {
      var k := EarliestIndex(tasks[1..], input);
      i := k + 1;
      forall j | 0 <= j < i
        ensures tasks[j].input != input
      {
        assert j > 0 ==> tasks[j] == tasks[1..][j - 1];
      }
    }
  }

  // The earliest task of an input stays the earliest.
  lemma {:induction false} EarliestIsStable(a: Ledger, b: Ledger, input: Digest)
    requires Grows(a, b) && Earliest(a.tasks, input).Some?
    ensures Earliest(b.tasks, input).Some? && Earliest(b.tasks, input).value.id == Earliest(a.tasks, input).value.id
  {
    var i := EarliestIndex(a.tasks, input);
    assert b.tasks[i] in b.tasks && b.tasks[i].input == input;
    var j := EarliestIndex(b.tasks, input);
    assert j < |a.tasks| ==> b.tasks[j].input == a.tasks[j].input;
  }

  // A replay returns the task of the original call if and only if that call either found no
  // earlier task of the same input or was itself answered with the earliest one.
  lemma {:induction false} ReplayReturnsOriginalIff(s: State, actor: Id, key: string, input: Digest, cmds: seq<Cmd>)
    requires Inv(s) && key != "" && Request(s.ledger, s.nextId, actor, key, input).reply.Ok?
    ensures var first := Request(s.ledger, s.nextId, actor, key, input);
            var later := Exec(State(first.ledger, first.nextId), cmds);
            var replay := Request(later.ledger, later.nextId, actor, key, input);
            var known := Earliest(s.ledger.tasks, input);
            && replay.reply.Ok? && replay.ledger == later.ledger
            && (replay.reply == first.reply <==> known.None? || known.value.id == first.reply.value)
  {
    var first := Request(s.ledger, s.nextId, actor, key, input);
    var after := State(first.ledger, first.nextId);
    var later := Exec(after, cmds);
    RequestKeeps(s, actor, key, input);
    RunsKeep(after, cmds);
    var k := RequestKey(actor, key);
    assert k in later.ledger.keys && later.ledger.keys[k] == input;
    var known := Earliest(s.ledger.tasks, input);
    if known.Some? {
      EarliestIsStable(s.ledger, first.ledger, input);
    } else {
      OnlyTaskOfInput(s, actor, key, input);
    }
    EarliestIsStable(first.ledger, later.ledger, input);
  }

  // Without an earlier task of the input, a successful request creates one and names it.
  lemma {:induction false} OnlyTaskOfInput(s: State, actor: Id, key: string, input: Digest)
    requires Inv(s) && key != "" && Earliest(s.ledger.tasks, input).None?
    requires Request(s.ledger, s.nextId, actor, key, input).reply.Ok?
    ensures var first := Request(s.ledger, s.nextId, actor, key, input);
            Earliest(first.ledger.tasks, input).Some? && first.reply.value == Earliest(first.ledger.tasks, input).value.id
  {
    var l := s.ledger;
    var first := Request(l, s.nextId, actor, key, input);
    UnknownInputHasNoKey(l, RequestKey(actor, key), input);
    var longer := first.ledger.tasks;
    assert longer == l.tasks + [Task(s.nextId, actor, key, input, Pending)];
    assert longer[|l.tasks|] in longer;
    var i := EarliestIndex(longer, input);
    assert forall t | t in l.tasks :: t.input != input;
  }

  lemma {:induction false} UnknownInputHasNoKey(l: Ledger, k: RequestKey, input: Digest)
    requires KeysHaveTasks(l) && Earliest(l.tasks, input).None?
    ensures k in l.keys ==> l.keys[k] != input
  {
    assert k in l.keys ==> HasTask(l.tasks, l.keys[k]);
  }

  // It can be another task: request, let it fail, request the same input under a new key; the
  // new key's replay then answers with the first task.
  lemma {:induction false} ReplayCanReturnEarlier(firstId: Id, actor: Id, input: Digest, laterKey: string)
    requires laterKey != "" && laterKey != "first"
    ensures var s0 := Empty(firstId);
            var s1 := Exec(s0, [DoRequest(actor, "first", input), DoProgress(firstId, Failed)]);
            var again := Request(s1.ledger, s1.nextId, actor, laterKey, input);
            var replay := Request(again.ledger, again.nextId, actor, laterKey, input);
            again.reply.Ok? && replay.reply.Ok? && again.reply != replay.reply
  {
    var cmds: seq<Cmd> := [DoRequest(actor, "first", input), DoProgress(firstId, Failed)];
    var s0 := Empty(firstId);
    var task := Task(firstId, actor, "first", input, Pending);
    ExecTwo(s0, cmds[0], cmds[1]);
    assert Step(s0, cmds[0]).ledger.tasks == [task];
    var s1 := Exec(s0, cmds);
    assert s1.ledger.tasks == [task.(status := Failed)];
    var again := Request(s1.ledger, s1.nextId, actor, laterKey, input);
    assert RequestKey(actor, laterKey) != RequestKey(actor, "first");
    assert again.ledger.tasks[0] == task.(status := Failed);
  }

  // ---------- at most one in flight ----------

  ghost predicate OneInFlight(l: Ledger) {
    forall i, j | 0 <= i < |l.tasks| && 0 <= j < |l.tasks| && InFlight(l.tasks[i].status) && InFlight(l.tasks[j].status) :: i == j
  }

  // Puts a task in flight without looking for another one: a manual retry, and the late outcome
  // of a worker whose failure is retried.
  predicate Requeues(cmd: Cmd) {
    cmd.DoRetry? || (cmd.DoLateOutcome? && InFlight(cmd.status))
  }

  predicate NoRequeue(cmds: seq<Cmd>) {
    forall i | 0 <= i < |cmds| :: !Requeues(cmds[i])
  }

  lemma {:induction false} IdIndex(tasks: seq<Task>, nextId: Id, i: nat, j: nat)
    requires IdsRise(tasks, nextId) && i < |tasks| && j < |tasks| && tasks[i].id == tasks[j].id
    ensures i == j
  {
  }

  // Over runs without manual retry and without late requeue, at most one task is pending or running.
  lemma {:induction false} AtMostOneInFlight(firstId: Id, cmds: seq<Cmd>)
    requires NoRequeue(cmds)
    ensures OneInFlight(Exec(Empty(firstId), cmds).ledger)
  {
    OneInFlightStays(Empty(firstId), cmds);
  }

  lemma {:induction false} OneInFlightStays(s: State, cmds: seq<Cmd>)
    requires Inv(s) && OneInFlight(s.ledger) && NoRequeue(cmds)
    ensures OneInFlight(Exec(s, cmds).ledger)
  {
    if cmds != [] {
      var cmd := cmds[|cmds| - 1];
      OneInFlightStays(s, cmds[..|cmds| - 1]);
      RunsKeep(s, cmds[..|cmds| - 1]);
      assert !Requeues(cmd);
      OneInFlightStep(Exec(s, cmds[..|cmds| - 1]), cmd);
    }
  }

  lemma {:induction false} OneInFlightStep(s: State, cmd: Cmd)
    requires Inv(s) && OneInFlight(s.ledger) && !Requeues(cmd)
    ensures OneInFlight(Apply(s.ledger, s.nextId, cmd).ledger)
  {
    match cmd
    case DoRequest(actor, key, input) => RequestKeepsOne(s, actor, key, input);
    case DoProgress(id, status) => ProgressKeepsOne(s, id, status);
    case DoLateOutcome(id, status) => SettlingKeepsOne(s.ledger, id, status);
    case ElsewhereIdsTaken(count) =>
  }

  lemma {:induction false} RequestKeepsOne(s: State, actor: Id, key: string, input: Digest)
    requires OneInFlight(s.ledger)
    ensures OneInFlight(Request(s.ledger, s.nextId, actor, key, input).ledger)
  {
    var l := s.ledger;
    var after := Request(l, s.nextId, actor, key, input).ledger;
    if |after.tasks| > |l.tasks| {
      forall i | 0 <= i < |l.tasks|
        ensures !InFlight(after.tasks[i].status)
      {
        assert l.tasks[i] in l.tasks;
      }
    }
  }

  lemma {:induction false} ProgressKeepsOne(s: State, id: Id, status: Status)
    requires Inv(s) && OneInFlight(s.ledger)
    ensures OneInFlight(Progress(s.ledger, s.nextId, id, status).ledger)
  {
    var l := s.ledger;
    var after := Progress(l, s.nextId, id, status).ledger;
    if after != l {
      var k :| 0 <= k < |l.tasks| && l.tasks[k] == FindTask(l.tasks, id).value;
      forall i | 0 <= i < |l.tasks| && InFlight(after.tasks[i].status)
        ensures i == k
      {
        if l.tasks[i].id == id {
          IdIndex(l.tasks, s.nextId, i, k);
        }
      }
    }
  }

  lemma {:induction false} SettlingKeepsOne(l: Ledger, id: Id, status: Status)
    requires OneInFlight(l) && !InFlight(status)
    ensures OneInFlight(l.(tasks := SetStatus(l.tasks, id, status)))
  {
    var after := SetStatus(l.tasks, id, status);
    assert forall i | 0 <= i < |l.tasks| && InFlight(after[i].status) :: InFlight(l.tasks[i].status);
  }

  // Putting a task that is not in flight back there leaves at most one exactly when there was none.
  lemma {:induction false} RequeueKeepsOneIff(s: State, k: nat, status: Status)
    requires Inv(s) && OneInFlight(s.ledger) && k < |s.ledger.tasks|
    requires !InFlight(s.ledger.tasks[k].status) && InFlight(status)
    ensures OneInFlight(s.ledger.(tasks := SetStatus(s.ledger.tasks, s.ledger.tasks[k].id, status)))
            <==> LatestInFlight(s.ledger.tasks).None?
  {
    var l := s.ledger;
    var after := SetStatus(l.tasks, l.tasks[k].id, status);
    assert after[k].status == status;
    if LatestInFlight(l.tasks).Some? {
      var i :| 0 <= i < |l.tasks| && l.tasks[i] == LatestInFlight(l.tasks).value;
      assert i != k && InFlight(after[i].status);
    } else {
      forall i | 0 <= i < |l.tasks| && InFlight(after[i].status)
        ensures i == k
      {
        assert l.tasks[i] in l.tasks;
        if l.tasks[i].id == l.tasks[k].id {
          IdIndex(l.tasks, s.nextId, i, k);
        }
      }
    }
  }

  // So a successful manual retry, and a late outcome that requeues a settled task, keep at most
  // one task in flight exactly when none was before.
  lemma {:induction false} RetryKeepsOneIff(s: State, id: Id)
    requires Inv(s) && OneInFlight(s.ledger) && Retry(s.ledger, s.nextId, id).reply.Ok?
    ensures OneInFlight(Retry(s.ledger, s.nextId, id).ledger) <==> LatestInFlight(s.ledger.tasks).None?
  {
    var k :| 0 <= k < |s.ledger.tasks| && s.ledger.tasks[k] == FindTask(s.ledger.tasks, id).value;
    RequeueKeepsOneIff(s, k, Pending);
  }

  lemma {:induction false} LateRequeueKeepsOneIff(s: State, id: Id)
    requires Inv(s) && OneInFlight(s.ledger)
    requires FindTask(s.ledger.tasks, id).Some? && !InFlight(FindTask(s.ledger.tasks, id).value.status)
    ensures OneInFlight(LateOutcome(s.ledger, s.nextId, id, Pending).ledger) <==> LatestInFlight(s.ledger.tasks).None?
  {
    var k :| 0 <= k < |s.ledger.tasks| && s.ledger.tasks[k] == FindTask(s.ledger.tasks, id).value;
    RequeueKeepsOneIff(s, k, Pending);
  }

  // A creator's key never makes two tasks, so the unique index on tasks is never violated.
  lemma {:induction false} UniqueIndexNeverFires(firstId: Id, cmds: seq<Cmd>, i: nat, j: nat)
    requires i < j < |Exec(Empty(firstId), cmds).ledger.tasks|
    ensures var tasks := Exec(Empty(firstId), cmds).ledger.tasks;
            (tasks[i].createdBy, tasks[i].key) != (tasks[j].createdBy, tasks[j].key)
  {
    RunsKeep(Empty(firstId), cmds);
  }
}
