// The generation tasks of one round or application and of one type, with the idempotency keys
// of their requests. Question, single-round and comprehensive requests share this protocol
// (interview_questions.py, interview_analyses.py, comprehensive_analyses.py); they differ in
// the input they freeze, which the protocol sees only as its hash.
module TaskLedger {
  import opened Common
  import opened TaskStatus
  import Inputs

  // The hash of a frozen input.
  type Digest = Inputs.Input

  datatype Task = Task(id: Id, createdBy: Id, key: string, input: Digest, status: Status)

  datatype RequestKey = RequestKey(actor: Id, text: string)

  // Tasks in order of creation.
  datatype Ledger = Ledger(tasks: seq<Task>, keys: map<RequestKey, Digest>)

  datatype Error = KeyRequired | IdempotencyConflict | TaskInFlight | NotFound | NotRetryable

  datatype Outcome = Outcome(ledger: Ledger, nextId: Id, reply: Result<Id, Error>)

  // find_task_by_input_snapshot_hash: the earliest task of this input.
  function Earliest(tasks: seq<Task>, input: Digest): (r: Option<Task>)
    ensures r.Some? ==> r.value in tasks && r.value.input == input
    ensures r.None? ==> forall t | t in tasks :: t.input != input
  {
    if tasks == [] then None
    else if tasks[0].input == input then Some(tasks[0])
    else Earliest(tasks[1..], input)
  }

  // find_inflight_task: the latest pending or running task.
  function LatestInFlight(tasks: seq<Task>): (r: Option<Task>)
    ensures r.Some? ==> r.value in tasks && InFlight(r.value.status)
    ensures r.None? ==> forall t | t in tasks :: !InFlight(t.status)
  {
    if tasks == [] then None
    else
      var n := |tasks| - 1;
      if InFlight(tasks[n].status) then Some(tasks[n]) else LatestInFlight(tasks[..n])
  }

  function Request(l: Ledger, nextId: Id, actor: Id, key: string, input: Digest): Outcome {
    var k := RequestKey(actor, key);
    var stored := l.(keys := l.keys[k := input]);
    var inflight := LatestInFlight(l.tasks);
    if key == "" then Outcome(l, nextId, Err(KeyRequired))
    else if k in l.keys then
      if l.keys[k] != input then Outcome(l, nextId, Err(IdempotencyConflict))
      else if Earliest(l.tasks, input).Some? then Outcome(l, nextId, Ok(Earliest(l.tasks, input).value.id))
      else if inflight.Some? then Outcome(l, nextId, Ok(inflight.value.id))
      else Outcome(l, nextId, Err(IdempotencyConflict))
    else if inflight.Some? then
      if inflight.value.input == input then Outcome(stored, nextId, Ok(inflight.value.id))
      else Outcome(l, nextId, Err(TaskInFlight))
    else
      var task := Task(nextId, actor, key, input, Pending);
      Outcome(stored.(tasks := l.tasks + [task]), nextId + 1, Ok(task.id))
  }

  function SetStatus(tasks: seq<Task>, id: Id, status: Status): (r: seq<Task>)
    ensures |r| == |tasks|
    ensures forall i | 0 <= i < |r| :: r[i] == if tasks[i].id == id then tasks[i].(status := status) else tasks[i]
  {
    seq(|tasks|, i requires 0 <= i < |tasks| => if tasks[i].id == id then tasks[i].(status := status) else tasks[i])
  }

  function FindTask(tasks: seq<Task>, id: Id): (r: Option<Task>)
    ensures r.Some? ==> r.value in tasks && r.value.id == id
    ensures r.None? ==> forall t | t in tasks :: t.id != id
  {
    if tasks == [] then None
    else if tasks[0].id == id then Some(tasks[0])
    else FindTask(tasks[1..], id)
  }

  // A worker, a cancel or a recovery moves a task that is in flight to any status.
  function Progress(l: Ledger, nextId: Id, id: Id, status: Status): Outcome {
    var found := FindTask(l.tasks, id);
    if found.None? || !InFlight(found.value.status) then Outcome(l, nextId, Err(NotFound))
    else Outcome(l.(tasks := SetStatus(l.tasks, id, status)), nextId, Ok(id))
  }

  // A manual retry makes a failed task pending again, whatever else is in flight.
  function Retry(l: Ledger, nextId: Id, id: Id): Outcome {
    var found := FindTask(l.tasks, id);
    if found.None? then Outcome(l, nextId, Err(NotFound))
    else if found.value.status != Failed && found.value.status != OutputInvalid then Outcome(l, nextId, Err(NotRetryable))
    else Outcome(l.(tasks := SetStatus(l.tasks, id, Pending)), nextId, Ok(id))
  }

  // A worker that started while the task ran writes its outcome whatever the task has become.
  function LateOutcome(l: Ledger, nextId: Id, id: Id, status: Status): Outcome {
    if FindTask(l.tasks, id).None? then Outcome(l, nextId, Err(NotFound))
    else Outcome(l.(tasks := SetStatus(l.tasks, id, status)), nextId, Ok(id))
  }

  datatype Cmd =
    | DoRequest(actor: Id, key: string, input: Digest)
    | DoProgress(id: Id, status: Status)
    | DoLateOutcome(id: Id, status: Status)
    | DoRetry(id: Id)
    | ElsewhereIdsTaken(count: nat)

  function Apply(l: Ledger, nextId: Id, cmd: Cmd): Outcome {
    match cmd
    case DoRequest(actor, key, input) => Request(l, nextId, actor, key, input)
    case DoProgress(id, status) => Progress(l, nextId, id, status)
    case DoLateOutcome(id, status) => LateOutcome(l, nextId, id, status)
    case DoRetry(id) => Retry(l, nextId, id)
    case ElsewhereIdsTaken(count) => Outcome(l, nextId + count, Err(NotFound))
  }

  datatype State = State(ledger: Ledger, nextId: Id)

  function Step(s: State, cmd: Cmd): State {
    var o := Apply(s.ledger, s.nextId, cmd);
    State(o.ledger, o.nextId)
  }

  function Exec(s: State, cmds: seq<Cmd>): State {
    if cmds == [] then s
    else
      Step(Exec(s, cmds[..|cmds| - 1]), cmds[|cmds| - 1])
  }

  function Empty(firstId: Id): State {
    State(Ledger([], map[]), firstId)
  }

  // ---------- the service ----------

  class Service {
    var tasks: seq<Task>
    var keys: map<RequestKey, Digest>
    var nextId: Id

    function Contents(): Ledger
      reads this
    {
      Ledger(tasks, keys)
    }

    constructor (firstId: Id)
      ensures State(Contents(), nextId) == Empty(firstId)
    {
      tasks, keys, nextId := [], map[], firstId;
    }

    method RequestGeneration(actor: Id, key: string, input: Digest) returns (reply: Result<Id, Error>)
      modifies this
      ensures Outcome(Contents(), nextId, reply) == old(Request(Contents(), nextId, actor, key, input))
    {
      if key == "" {
        return Err(KeyRequired);
      }
      var k := RequestKey(actor, key);
      var inflight := LatestInFlight(tasks);
      if k in keys {
        if keys[k] != input {
          return Err(IdempotencyConflict);
        }
        var existing := Earliest(tasks, input);
        if existing.None? {
          existing := inflight;
        }
        return if existing.None? then Err(IdempotencyConflict) else Ok(existing.value.id);
      }
      if inflight.Some? {
        if inflight.value.input == input {
          keys := keys[k := input];
          return Ok(inflight.value.id);
        }
        return Err(TaskInFlight);
      }
      var id := nextId;
      nextId := nextId + 1;
      tasks := tasks + [Task(id, actor, key, input, Pending)];
      keys := keys[k := input];
      return Ok(id);
    }
  }
}
