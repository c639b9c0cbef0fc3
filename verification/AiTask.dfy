// One AI task row under concurrent writers: cancel and stale recovery read first and then write
// conditionally, a manual retry works under the row lock (services/ai_tasks.py), and a worker
// claims, starts and finishes in three transactions (workers/ai_tasks.py). All three use one
// session that never reloads what it has loaded, so the third judges the task and the attempt by
// what the second one saw of them, and writes over whatever the row has become (db/session.py).
module AiTask {
  import opened Common
  import opened TaskStatus

  datatype Attempt = Attempt(no: nat, cycle: nat, cycleNo: nat, status: Status)

  datatype Task = Task(
    status: Status, attemptCount: nat, retryCycle: nat, cycleAttempts: nat, updatedAt: int, attempts: seq<Attempt>)

  // A worker between its transactions: after the claim, or with an attempt of this number and
  // with the status and the cycle count of the task as its session remembers them.
  datatype Phase = Claimed(at: int) | Started(no: nat, seen: Status, cycle: nat)

  // A stale recovery between its read and its write.
  datatype RecoveryRead = RecoveryRead(expected: int, now: int)

  datatype State = State(task: Task, workers: map<Id, Phase>, cancels: set<Id>, recoveries: map<Id, RecoveryRead>)

  datatype RunResult = Success | PersistFailed | Invalid | ProviderFailed(retryable: bool)

  const MAX_ATTEMPTS := 3

  // Five minutes, in milliseconds.
  const STALE_RUNNING_MIN_AGE := 300000

  datatype Step =
    | CancelRead(op: Id)
    | CancelWrite(op: Id)
    | RecoverRead(op: Id, expected: int, now: int)
    | RecoverWrite(op: Id)
    | Retry(now: int)
    | Claim(worker: Id, now: int)
    | Start(worker: Id)
    | Finish(worker: Id, result: RunResult, now: int)
    | Crash(worker: Id)

  // ---------- the writes ----------

  function AfterCancel(t: Task): Task {
    if t.status == Pending then t.(status := Cancelled) else t
  }

  predicate Recoverable(t: Task, read: RecoveryRead) {
    t.status == Running && t.updatedAt == read.expected && t.updatedAt <= read.now - STALE_RUNNING_MIN_AGE
  }

  function FailRunning(attempts: seq<Attempt>): (r: seq<Attempt>)
    ensures |r| == |attempts|
    ensures forall i | 0 <= i < |r| :: r[i] == if attempts[i].status == Running then attempts[i].(status := Failed) else attempts[i]
  {
    seq(|attempts|, i requires 0 <= i < |attempts| =>
      if attempts[i].status == Running then attempts[i].(status := Failed) else attempts[i])
  }

  function AfterRecovery(t: Task, read: RecoveryRead): Task {
    if Recoverable(t, read) then t.(status := Failed, updatedAt := read.now, attempts := FailRunning(t.attempts)) else t
  }

  predicate Retryable(t: Task) {
    t.status == Failed || t.status == OutputInvalid
  }

  function AfterRetry(t: Task, now: int): Task {
    if Retryable(t) then t.(status := Pending, retryCycle := t.retryCycle + 1, cycleAttempts := 0, updatedAt := now) else t
  }

  function MaxAttemptNo(attempts: seq<Attempt>): nat {
    if attempts == [] then 0
    else
      var n := |attempts| - 1;
      var before := MaxAttemptNo(attempts[..n]);
      if before < attempts[n].no then attempts[n].no else before
  }

  // The second worker transaction numbers and adds its attempt; it does not look at the status.
  function AfterStart(t: Task, at: int): Task {
    var no := MaxAttemptNo(t.attempts) + 1;
    t.(attemptCount := no, cycleAttempts := t.cycleAttempts + 1, updatedAt := at,
       attempts := t.attempts + [Attempt(no, t.retryCycle, t.cycleAttempts + 1, Running)])
  }

  function SetAttempt(attempts: seq<Attempt>, no: nat, status: Status): (r: seq<Attempt>)
    ensures |r| == |attempts|
    ensures forall i | 0 <= i < |r| :: r[i] == if attempts[i].no == no then attempts[i].(status := status) else attempts[i]
  {
    seq(|attempts|, i requires 0 <= i < |attempts| => if attempts[i].no == no then attempts[i].(status := status) else attempts[i])
  }

  // The third worker transaction looks at the remembered status only.
  function AfterFinish(t: Task, no: nat, seen: Status, cycle: nat, result: RunResult, now: int): Task {
    if seen == Cancelled then t.(attempts := SetAttempt(t.attempts, no, Failed))
    else if seen != Running then t
    else
      match result
      case Success => t.(status := Succeeded, updatedAt := now, attempts := SetAttempt(t.attempts, no, Succeeded))
      case PersistFailed => t.(status := Failed, updatedAt := now, attempts := SetAttempt(t.attempts, no, Failed))
      case Invalid => t.(status := OutputInvalid, updatedAt := now, attempts := SetAttempt(t.attempts, no, OutputInvalid))
      case ProviderFailed(retryable) =>
        t.(status := if retryable && cycle < MAX_ATTEMPTS then Pending else Failed,
           updatedAt := now, attempts := SetAttempt(t.attempts, no, Failed))
  }

  // ---------- interleaved steps; a step that is not enabled does nothing ----------

  function Apply(s: State, step: Step): State {
    match step
    case CancelRead(op) => if s.task.status == Pending then s.(cancels := s.cancels + {op}) else s
    case CancelWrite(op) => if op in s.cancels then s.(task := AfterCancel(s.task), cancels := s.cancels - {op}) else s
    case RecoverRead(op, expected, now) =>
      if Recoverable(s.task, RecoveryRead(expected, now)) then s.(recoveries := s.recoveries[op := RecoveryRead(expected, now)]) else s
    case RecoverWrite(op) =>
      if op in s.recoveries then s.(task := AfterRecovery(s.task, s.recoveries[op]), recoveries := s.recoveries - {op}) else s
    case Retry(now) => s.(task := AfterRetry(s.task, now))
    case Claim(worker, now) =>
      if s.task.status == Pending && worker !in s.workers
      then s.(task := s.task.(status := Running, updatedAt := now), workers := s.workers[worker := Claimed(now)])
      else s
    case Start(worker) =>
      if worker in s.workers && s.workers[worker].Claimed?
      then s.(task := AfterStart(s.task, s.workers[worker].at),
              workers := s.workers[worker := Started(MaxAttemptNo(s.task.attempts) + 1, s.task.status, s.task.cycleAttempts + 1)])
      else s
    case Finish(worker, result, now) =>
      if worker in s.workers && s.workers[worker].Started?
      then s.(task := AfterFinish(s.task, s.workers[worker].no, s.workers[worker].seen, s.workers[worker].cycle, result, now),
              workers := s.workers - {worker})
      else s
    case Crash(worker) => s.(workers := s.workers - {worker})
  }

  function Exec(s: State, steps: seq<Step>): State {
    if steps == [] then s else Apply(Exec(s, steps[..|steps| - 1]), steps[|steps| - 1])
  }

  lemma {:induction false} ExecMore(s: State, steps: seq<Step>, last: Step)
    ensures Exec(s, steps + [last]) == Apply(Exec(s, steps), last)
  {
    assert (steps + [last])[..|steps|] == steps;
  }

  function NewTask(now: int): State {
    State(Task(Pending, 0, 0, 0, now, []), map[], {}, map[])
  }

  // ---------- what every interleaving keeps ----------

  ghost predicate Numbered(attempts: seq<Attempt>) {
    forall i | 0 <= i < |attempts| :: attempts[i].no == i + 1
  }

  ghost predicate Inv(s: State) {
    && Numbered(s.task.attempts)
    && s.task.attemptCount == |s.task.attempts|
    && (forall w | w in s.workers && s.workers[w].Started? :: 1 <= s.workers[w].no <= |s.task.attempts|)
  }

  lemma {:induction false} MaxIsLast(attempts: seq<Attempt>, n: nat)
    requires Numbered(attempts) && n <= |attempts|
    ensures MaxAttemptNo(attempts[..n]) == n
  {
    if n > 0 {
      MaxIsLast(attempts, n - 1);
      assert attempts[..n][..n - 1] == attempts[..n - 1];
    }
  }

  ghost predicate Forward(s: State, t: State) {
    && s.task.attemptCount <= t.task.attemptCount
    && s.task.retryCycle <= t.task.retryCycle
  }

  lemma {:induction false} StepKeeps(s: State, step: Step)
    requires Inv(s)
    ensures Inv(Apply(s, step)) && Forward(s, Apply(s, step))
  {
    if step.Start? {
      StartKeeps(s, step.worker);
    } else if step.Finish? {
      FinishKeeps(s, step.worker, step.result, step.now);
    }
  }

  lemma {:induction false} StartKeeps(s: State, worker: Id)
    requires Inv(s)
    ensures Inv(Apply(s, Start(worker))) && Forward(s, Apply(s, Start(worker)))
  {
    MaxIsLast(s.task.attempts, |s.task.attempts|);
    assert s.task.attempts[..|s.task.attempts|] == s.task.attempts;
  }

  lemma {:induction false} FinishKeeps(s: State, worker: Id, result: RunResult, now: int)
    requires Inv(s)
    ensures Inv(Apply(s, Finish(worker, result, now))) && Forward(s, Apply(s, Finish(worker, result, now)))
  {
    if worker in s.workers && s.workers[worker].Started? {
      var phase := s.workers[worker];
      var after := AfterFinish(s.task, phase.no, phase.seen, phase.cycle, result, now);
      assert |after.attempts| == |s.task.attempts| && after.attemptCount == s.task.attemptCount;
      assert Numbered(after.attempts);
    }
  }

  // Under every interleaving attempts are numbered 1..n with the attempt count naming the last,
  // and neither the attempt count nor the retry cycle falls.
  lemma {:induction false} EveryInterleaving(s: State, steps: seq<Step>)
    requires Inv(s)
    ensures Inv(Exec(s, steps)) && Forward(s, Exec(s, steps))
  {
    if steps != [] {
      EveryInterleaving(s, steps[..|steps| - 1]);
      StepKeeps(Exec(s, steps[..|steps| - 1]), steps[|steps| - 1]);
    }
  }

  // How many of the retries in a run went through.
  function RetriesDone(s: State, steps: seq<Step>): nat {
    if steps == [] then 0
    else
      var before := Exec(s, steps[..|steps| - 1]);
      RetriesDone(s, steps[..|steps| - 1]) + if steps[|steps| - 1].Retry? && Retryable(before.task) then 1 else 0
  }

  // The retry cycle counts exactly the manual retries.
  lemma {:induction false} RetryCycleCounts(s: State, steps: seq<Step>)
    ensures Exec(s, steps).task.retryCycle == s.task.retryCycle + RetriesDone(s, steps)
  {
    if steps != [] {
      RetryCycleCounts(s, steps[..|steps| - 1]);
    }
  }

  // ---------- what each write does ----------

  // A worker that remembers the task running leaves it as its outcome says: succeeded, failed
  // after an error while storing, invalid after a rejected output, and after a provider error
  // pending again if that may be retried and fewer than three attempts were made, else failed. One
  // that remembers a cancelled task fails its attempt only, any other writes nothing.
  lemma {:induction false} OutcomeEffect(t: Task, no: nat, seen: Status, cycle: nat, result: RunResult, now: int)
    ensures var after := AfterFinish(t, no, seen, cycle, result, now);
            && after.attemptCount == t.attemptCount && after.retryCycle == t.retryCycle && after.cycleAttempts == t.cycleAttempts
            && |after.attempts| == |t.attempts|
            && (forall i | 0 <= i < |t.attempts| ::
                  after.attempts[i] == (if t.attempts[i].no == no then t.attempts[i].(status := after.attempts[i].status) else t.attempts[i]))
            && (seen != Running ==> after.status == t.status && after.updatedAt == t.updatedAt)
            && (seen != Running && seen != Cancelled ==> after == t)
            && (seen == Cancelled ==> AttemptsEnd(after.attempts, no, Failed))
            && (seen == Running ==> after.updatedAt == now && OutcomeStatus(result, cycle, after.status))
            && (seen == Running ==>
                  AttemptsEnd(after.attempts, no, if result == Success then Succeeded
                                                  else if result == Invalid then OutputInvalid else Failed))
  {
  }

  predicate OutcomeStatus(result: RunResult, cycle: nat, status: Status) {
    && (status == Succeeded <==> result == Success)
    && (status == OutputInvalid <==> result == Invalid)
    && (status == Pending <==> result == ProviderFailed(true) && cycle <= 2)
    && (status == Failed <==>
          result == PersistFailed || result == ProviderFailed(false) || (result == ProviderFailed(true) && cycle >= 3))
  }

  predicate AttemptsEnd(attempts: seq<Attempt>, no: nat, status: Status) {
    forall i | 0 <= i < |attempts| && attempts[i].no == no :: attempts[i].status == status
  }

  // A cancel takes a pending task, a retry a failed or invalid one into a new cycle, a recovery a
  // running one that nobody has touched for five minutes; otherwise they write nothing.
  lemma {:induction false} ServiceWrites(t: Task, read: RecoveryRead, now: int)
    ensures AfterCancel(t) == if t.status == Pending then t.(status := Cancelled) else t
    ensures AfterRetry(t, now) ==
            if t.status == Failed || t.status == OutputInvalid
            then t.(status := Pending, retryCycle := t.retryCycle + 1, cycleAttempts := 0, updatedAt := now) else t
    ensures var stale := t.status == Running && t.updatedAt == read.expected && read.now - t.updatedAt >= 5 * 60 * 1000;
            var after := AfterRecovery(t, read);
            && (!stale ==> after == t)
            && (stale ==> after == t.(status := Failed, updatedAt := read.now, attempts := after.attempts))
            && (stale ==> |after.attempts| == |t.attempts|)
            && (stale ==> forall i | 0 <= i < |t.attempts| ::
                  after.attempts[i] == if t.attempts[i].status == Running then t.attempts[i].(status := Failed) else t.attempts[i])
  {
  }

  // A worker claims a pending task only, and its start adds the next attempt, running, under the
  // current cycle, whatever the status is by then; one that crashes writes nothing more.
  lemma {:induction false} WorkerWrites(s: State, worker: Id, now: int)
    requires Inv(s)
    ensures var after := Apply(s, Claim(worker, now));
            if s.task.status == Pending && worker !in s.workers
            then after.task == s.task.(status := Running, updatedAt := now) && after.workers == s.workers[worker := Claimed(now)]
            else after == s
    ensures worker in s.workers && s.workers[worker].Claimed? ==>
              var after := Apply(s, Start(worker));
              var no := |s.task.attempts| + 1;
              && after.task == s.task.(
                   attemptCount := no, cycleAttempts := s.task.cycleAttempts + 1, updatedAt := s.workers[worker].at,
                   attempts := s.task.attempts + [Attempt(no, s.task.retryCycle, s.task.cycleAttempts + 1, Running)])
              && after.workers == s.workers[worker := Started(no, s.task.status, s.task.cycleAttempts + 1)]
    ensures Apply(s, Crash(worker)).workers == s.workers - {worker} && Apply(s, Crash(worker)).task == s.task
  {
    MaxIsLast(s.task.attempts, |s.task.attempts|);
    assert s.task.attempts[..|s.task.attempts|] == s.task.attempts;
  }

  // ---------- late outcomes ----------

  predicate NoRetry(steps: seq<Step>) {
    forall i | 0 <= i < |steps| :: !steps[i].Retry?
  }

  // A worker whose outcome will be written, whatever the task has become.
  predicate Owns(phase: Phase) {
    phase.Started? && phase.seen == Running
  }

  predicate SomeOwner(workers: map<Id, Phase>) {
    exists w | w in workers :: Owns(workers[w])
  }

  // Moreover one whose failure may still put the task back in the queue.
  predicate MayRequeue(workers: map<Id, Phase>) {
    exists w | w in workers :: Owns(workers[w]) && workers[w].cycle < MAX_ATTEMPTS
  }

  predicate Absorbing(status: Status) {
    status == Succeeded || status == Cancelled
  }

  lemma {:induction false} SettledStep(s: State, step: Step)
    requires !InFlight(s.task.status) && !SomeOwner(s.workers)
    requires step.Retry? ==> Absorbing(s.task.status)
    ensures Apply(s, step).task.status == s.task.status && !SomeOwner(Apply(s, step).workers)
  {
    if step.Finish? && step.worker in s.workers {
      assert !Owns(s.workers[step.worker]);
    }
  }

  lemma {:induction false} SettledRun(s: State, steps: seq<Step>)
    requires !InFlight(s.task.status) && !SomeOwner(s.workers)
    requires Absorbing(s.task.status) || NoRetry(steps)
    ensures Exec(s, steps).task.status == s.task.status && !SomeOwner(Exec(s, steps).workers)
  {
    if steps != [] {
      SettledRun(s, steps[..|steps| - 1]);
      SettledStep(Exec(s, steps[..|steps| - 1]), steps[|steps| - 1]);
    }
  }

  // The outcome of an owner replaces any settled status by another one.
  lemma {:induction false} OwnerOverwrites(s: State, w: Id)
    requires !InFlight(s.task.status) && w in s.workers && Owns(s.workers[w])
    ensures exists steps {:trigger Exec(s, steps)} | NoRetry(steps) :: Exec(s, steps).task.status != s.task.status
  {
    var finish := Finish(w, if s.task.status == Failed then Success else PersistFailed, 0);
    ExecMore(s, [], finish);
    assert [] + [finish] == [finish];
    assert NoRetry([finish]) && Exec(s, [finish]).task.status != s.task.status;
  }

  // The status of a task that is neither pending nor running stays until a manual retry if and
  // only if no worker is left that started while the task ran.
  lemma {:induction false} SettledStaysIff(s: State)
    requires !InFlight(s.task.status)
    ensures !SomeOwner(s.workers) <==>
            forall steps {:trigger Exec(s, steps)} | NoRetry(steps) :: Exec(s, steps).task.status == s.task.status
  {
    if SomeOwner(s.workers) {
      var w :| w in s.workers && Owns(s.workers[w]);
      OwnerOverwrites(s, w);
    } else {
      forall steps | NoRetry(steps)
        ensures Exec(s, steps).task.status == s.task.status
      {
        SettledRun(s, steps);
      }
    }
  }

  // Succeeded and cancelled are final, retries included, under exactly the same condition.
  lemma {:induction false} FinalStaysIff(s: State)
    requires Absorbing(s.task.status)
    ensures !SomeOwner(s.workers) <==> forall steps :: Exec(s, steps).task.status == s.task.status
  {
    if SomeOwner(s.workers) {
      var w :| w in s.workers && Owns(s.workers[w]);
      OwnerOverwrites(s, w);
    } else {
      forall steps
        ensures Exec(s, steps).task.status == s.task.status
      {
        SettledRun(s, steps);
      }
    }
  }

  lemma {:induction false} OwnerSurvivesRecovery(now: int, worker: Id, op: Id)
    ensures var late := now + STALE_RUNNING_MIN_AGE;
            var s := Exec(NewTask(now), [Claim(worker, now), Start(worker), RecoverRead(op, now, late), RecoverWrite(op)]);
            s.task.status == Failed && s.workers == map[worker := Started(1, Running, 1)]
  {
    var late := now + STALE_RUNNING_MIN_AGE;
    var s1 := Apply(NewTask(now), Claim(worker, now));
    var s2 := Apply(s1, Start(worker));
    FourSteps(NewTask(now), Claim(worker, now), Start(worker), RecoverRead(op, now, late), RecoverWrite(op));
    assert s2.workers == map[worker := Started(1, Running, 1)];
  }

  // The failing run: a started worker is taken for dead, its task is recovered, retried and
  // cancelled, and its success is then written over the cancellation.
  lemma {:induction false} SuccessOverwritesCancelled(now: int, worker: Id, op: Id)
    ensures var late := now + STALE_RUNNING_MIN_AGE;
            var s := Exec(NewTask(now), [Claim(worker, now), Start(worker), RecoverRead(op, now, late), RecoverWrite(op)]);
            var cancelled := Exec(s, [Retry(late), CancelRead(op), CancelWrite(op)]);
            && cancelled.task.status == Cancelled
            && Exec(cancelled, [Finish(worker, Success, late)]).task.status == Succeeded
  {
    var late := now + STALE_RUNNING_MIN_AGE;
    OwnerSurvivesRecovery(now, worker, op);
    CancelledIsOverwritten(Exec(NewTask(now), [Claim(worker, now), Start(worker), RecoverRead(op, now, late), RecoverWrite(op)]),
                           late, worker, op);
  }

  lemma {:induction false} CancelledIsOverwritten(s: State, late: int, worker: Id, op: Id)
    requires s.task.status == Failed && worker in s.workers && Owns(s.workers[worker])
    ensures var cancelled := Exec(s, [Retry(late), CancelRead(op), CancelWrite(op)]);
            && cancelled.task.status == Cancelled
            && Exec(cancelled, [Finish(worker, Success, late)]).task.status == Succeeded
  {
    var cancelled := Exec(s, [Retry(late), CancelRead(op), CancelWrite(op)]);
    ThreeSteps(s, Retry(late), CancelRead(op), CancelWrite(op));
    assert cancelled.task.status == Cancelled && cancelled.workers == s.workers;
    ExecMore(cancelled, [], Finish(worker, Success, late));
    assert [] + [Finish(worker, Success, late)] == [Finish(worker, Success, late)];
  }

  lemma {:induction false} ThreeSteps(s: State, a: Step, b: Step, c: Step)
    ensures Exec(s, [a, b, c]) == Apply(Apply(Apply(s, a), b), c)
  {
    ExecMore(s, [], a);
    ExecMore(s, [a], b);
    ExecMore(s, [a, b], c);
    assert [] + [a] == [a] && [a] + [b] == [a, b] && [a, b] + [c] == [a, b, c];
  }

  lemma {:induction false} FourSteps(s: State, a: Step, b: Step, c: Step, d: Step)
    ensures Exec(s, [a, b, c, d]) == Apply(Apply(Apply(Apply(s, a), b), c), d)
  {
    ThreeSteps(s, a, b, c);
    ExecMore(s, [a, b, c], d);
    assert [a, b, c] + [d] == [a, b, c, d];
  }

  // ---------- recovery ----------

  predicate NoneRunning(attempts: seq<Attempt>) {
    forall i | 0 <= i < |attempts| :: attempts[i].status != Running
  }

  predicate NobodyClaimed(workers: map<Id, Phase>) {
    forall w | w in workers :: workers[w].Started?
  }

  predicate Recovers(s: State, op: Id) {
    op in s.recoveries && Recoverable(s.task, s.recoveries[op])
  }

  // At the moment of a recovery the task is failed and no attempt of it is running.
  lemma {:induction false} RecoveryStopsAttempts(s: State, op: Id)
    requires Recovers(s, op)
    ensures Apply(s, RecoverWrite(op)).task.status == Failed
    ensures NoneRunning(Apply(s, RecoverWrite(op)).task.attempts)
  {
  }

  // Neither pending nor running, and nobody is left who could requeue the task.
  predicate Settled(s: State) {
    !InFlight(s.task.status) && !MayRequeue(s.workers)
  }

  lemma {:induction false} StaysSettled(s: State, step: Step)
    requires Settled(s) && !step.Retry?
    ensures Settled(Apply(s, step))
  {
    if step.Finish? && step.worker in s.workers {
      assert !(Owns(s.workers[step.worker]) && s.workers[step.worker].cycle < MAX_ATTEMPTS);
    }
  }

  // Moreover no attempt runs, and nobody is left who could start one.
  ghost predicate Quiet(s: State) {
    Settled(s) && NoneRunning(s.task.attempts) && NobodyClaimed(s.workers)
  }

  lemma {:induction false} QuietStep(s: State, step: Step)
    requires Quiet(s) && !step.Retry?
    ensures Quiet(Apply(s, step))
  {
    StaysSettled(s, step);
  }

  lemma {:induction false} QuietStays(s: State, steps: seq<Step>)
    requires Quiet(s) && NoRetry(steps)
    ensures Quiet(Exec(s, steps))
  {
    if steps != [] {
      QuietStays(s, steps[..|steps| - 1]);
      QuietStep(Exec(s, steps[..|steps| - 1]), steps[|steps| - 1]);
    }
  }

  // A recovered task keeps no running attempt until it is retried if and only if, at the moment
  // of recovery, no worker stands between its claim and its start, and none that started while
  // the task ran may still requeue it. It moreover stays failed until then if and only if no
  // worker at all is left that started while it ran.
  lemma {:induction false} RecoveredStaysQuietIff(s: State, op: Id)
    requires Recovers(s, op)
    ensures var after := Apply(s, RecoverWrite(op));
            NobodyClaimed(s.workers) && !MayRequeue(s.workers) <==>
            forall steps {:trigger Exec(after, steps)} | NoRetry(steps) :: NoneRunning(Exec(after, steps).task.attempts)
    ensures var after := Apply(s, RecoverWrite(op));
            !SomeOwner(s.workers) <==>
            forall steps {:trigger Exec(after, steps)} | NoRetry(steps) :: Exec(after, steps).task.status == Failed
  {
    var after := Apply(s, RecoverWrite(op));
    SettledStaysIff(after);
    if NobodyClaimed(s.workers) && !MayRequeue(s.workers) {
      forall steps | NoRetry(steps)
        ensures NoneRunning(Exec(after, steps).task.attempts)
      {
        QuietStays(after, steps);
      }
    } else if !NobodyClaimed(s.workers) {
      var w :| w in s.workers && s.workers[w].Claimed?;
      LateStart(after, w);
      assert NoRetry([Start(w)]);
    } else {
      var w :| w in s.workers && Owns(s.workers[w]) && s.workers[w].cycle < MAX_ATTEMPTS;
      LateRequeue(after, w);
    }
  }

  // A worker's late failure puts the task back in the queue, and the next worker starts it.
  lemma {:induction false} LateRequeue(s: State, w: Id)
    requires w in s.workers && Owns(s.workers[w]) && s.workers[w].cycle < MAX_ATTEMPTS
    ensures var steps := [Finish(w, ProviderFailed(true), 0), Claim(w, 0), Start(w)];
            NoRetry(steps) && !NoneRunning(Exec(s, steps).task.attempts)
  {
    var queued := Apply(s, Finish(w, ProviderFailed(true), 0));
    var claimed := Apply(queued, Claim(w, 0));
    assert queued.task.status == Pending && w !in queued.workers;
    assert claimed.workers[w] == Claimed(0);
    ThreeSteps(s, Finish(w, ProviderFailed(true), 0), Claim(w, 0), Start(w));
    var attempts := Apply(claimed, Start(w)).task.attempts;
    assert attempts[|claimed.task.attempts|].status == Running;
  }

  lemma {:induction false} LateStart(s: State, w: Id)
    requires w in s.workers && s.workers[w].Claimed?
    ensures !NoneRunning(Exec(s, [Start(w)]).task.attempts)
    ensures Exec(s, [Start(w)]).task.status == s.task.status
  {
    ExecMore(s, [], Start(w));
    assert [] + [Start(w)] == [Start(w)];
    var attempts := Apply(s, Start(w)).task.attempts;
    assert attempts[|s.task.attempts|].status == Running;
  }

  // ---------- before the first recovery ----------

  predicate NoRecovery(steps: seq<Step>) {
    forall i | 0 <= i < |steps| :: !steps[i].RecoverWrite?
  }

  // The only worker there may be, seen with the task it works on.
  ghost predicate Current(t: Task, phase: Phase) {
    && t.status == Running
    && match phase
       case Claimed(_) => t.cycleAttempts < MAX_ATTEMPTS && NoneRunning(t.attempts)
       case Started(no, seen, cycle) => no == |t.attempts| && seen == Running && cycle == t.cycleAttempts
  }

  ghost predicate OneOwner(s: State) {
    && Inv(s)
    && (forall w, v | w in s.workers && v in s.workers :: w == v)
    && (forall w | w in s.workers :: Current(s.task, s.workers[w]))
    && (forall i | 0 <= i < |s.task.attempts| && s.task.attempts[i].status == Running ::
          i == |s.task.attempts| - 1 && s.task.status == Running)
    && s.task.cycleAttempts <= MAX_ATTEMPTS
    && (s.task.status == Pending ==> s.task.cycleAttempts < MAX_ATTEMPTS)
  }

  lemma {:induction false} OneOwnerStep(s: State, step: Step)
    requires OneOwner(s) && !step.RecoverWrite?
    ensures OneOwner(Apply(s, step))
  {
    StepKeeps(s, step);
    match step
    case CancelRead(op) =>
    case CancelWrite(op) =>
    case RecoverRead(op, expected, now) =>
    case Retry(now) =>
    case Claim(worker, now) =>
    case Start(worker) => OneOwnerStarts(s, worker);
    case Finish(worker, result, now) => OneOwnerFinishes(s, worker, result, now);
    case Crash(worker) =>
  }

  lemma {:induction false} OneOwnerStarts(s: State, worker: Id)
    requires OneOwner(s)
    ensures OneOwner(Apply(s, Start(worker)))
  {
    StartKeeps(s, worker);
    MaxIsLast(s.task.attempts, |s.task.attempts|);
    assert s.task.attempts[..|s.task.attempts|] == s.task.attempts;
  }

  lemma {:induction false} OneOwnerFinishes(s: State, worker: Id, result: RunResult, now: int)
    requires OneOwner(s)
    ensures OneOwner(Apply(s, Finish(worker, result, now)))
  {
    FinishKeeps(s, worker, result, now);
  }

  // Until a recovery has happened there is at most one worker, which remembers the task as it
  // is; at most one attempt is running, never while a worker stands between claim and start, and
  // no retry cycle uses more than three attempts.
  lemma {:induction false} OneOwnerUntilRecovery(now: int, steps: seq<Step>)
    requires NoRecovery(steps)
    ensures OneOwner(Exec(NewTask(now), steps))
  {
    if steps != [] {
      OneOwnerUntilRecovery(now, steps[..|steps| - 1]);
      assert !steps[|steps| - 1].RecoverWrite?;
      OneOwnerStep(Exec(NewTask(now), steps[..|steps| - 1]), steps[|steps| - 1]);
    }
  }

  // Sound rows: no recovery yet, or settled for good. Without manual retries a row stays sound as
  // long as no recovery takes it from a worker that may requeue it.
  ghost predicate Sound(s: State) {
    OneOwner(s) || Settled(s)
  }

  predicate Careless(s: State, step: Step) {
    step.RecoverWrite? && Recovers(s, step.op) && MayRequeue(s.workers)
  }

  lemma {:induction false} StaysSound(s: State, step: Step)
    requires Sound(s) && !step.Retry? && !Careless(s, step)
    ensures Sound(Apply(s, step))
    ensures !InFlight(s.task.status) ==> !InFlight(Apply(s, step).task.status)
  {
    if Settled(s) {
      StaysSettled(s, step);
    } else if !step.RecoverWrite? {
      OneOwnerStep(s, step);
    }
  }

  // So a task that succeeds or is cancelled before any recovery stays so for good.
  lemma {:induction false} FinalBeforeRecovery(now: int, steps: seq<Step>, more: seq<Step>)
    requires NoRecovery(steps) && Absorbing(Exec(NewTask(now), steps).task.status)
    ensures Exec(Exec(NewTask(now), steps), more).task.status == Exec(NewTask(now), steps).task.status
  {
    OneOwnerUntilRecovery(now, steps);
    SettledRun(Exec(NewTask(now), steps), more);
  }

  // A first recovery that finds a running attempt leaves the task failed and without running
  // attempts until it is retried if and only if the worker of that attempt is gone.
  lemma {:induction false} FirstRecoverySafeIff(now: int, steps: seq<Step>, op: Id)
    requires NoRecovery(steps)
    requires var s := Exec(NewTask(now), steps);
             Recovers(s, op) && !NoneRunning(s.task.attempts)
    ensures var s := Exec(NewTask(now), steps);
            var after := Apply(s, RecoverWrite(op));
            s.workers == map[] <==>
            forall more {:trigger Exec(after, more)} | NoRetry(more) ::
              Exec(after, more).task.status == Failed && NoneRunning(Exec(after, more).task.attempts)
  {
    var s := Exec(NewTask(now), steps);
    OneOwnerUntilRecovery(now, steps);
    RecoveredStaysQuietIff(s, op);
    if s.workers != map[] {
      var w :| w in s.workers;
      assert Current(s.task, s.workers[w]);
      assert Owns(s.workers[w]);
    }
  }

  // Before its start a worker is as dangerous: claim, wait, recover, start leaves a running attempt on a failed task.
  lemma {:induction false} RecoveryBetweenClaimAndStart(now: int, worker: Id, op: Id)
    ensures var late := now + STALE_RUNNING_MIN_AGE;
            var s := Exec(NewTask(now), [Claim(worker, now), RecoverRead(op, now, late), RecoverWrite(op), Start(worker)]);
            s.task.status == Failed && !NoneRunning(s.task.attempts)
  {
    var late := now + STALE_RUNNING_MIN_AGE;
    var s0 := NewTask(now);
    var s1 := Apply(s0, Claim(worker, now));
    var s2 := Apply(s1, RecoverRead(op, now, late));
    var s3 := Apply(s2, RecoverWrite(op));
    ExecMore(s0, [], Claim(worker, now));
    ExecMore(s0, [Claim(worker, now)], RecoverRead(op, now, late));
    ExecMore(s0, [Claim(worker, now), RecoverRead(op, now, late)], RecoverWrite(op));
    ExecMore(s0, [Claim(worker, now), RecoverRead(op, now, late), RecoverWrite(op)], Start(worker));
    assert [] + [Claim(worker, now)] == [Claim(worker, now)];
    assert [Claim(worker, now)] + [RecoverRead(op, now, late)] == [Claim(worker, now), RecoverRead(op, now, late)];
    assert [Claim(worker, now), RecoverRead(op, now, late)] + [RecoverWrite(op)]
        == [Claim(worker, now), RecoverRead(op, now, late), RecoverWrite(op)];
    assert [Claim(worker, now), RecoverRead(op, now, late), RecoverWrite(op)] + [Start(worker)]
        == [Claim(worker, now), RecoverRead(op, now, late), RecoverWrite(op), Start(worker)];
    assert Apply(s3, Start(worker)).task.attempts[0].status == Running;
  }

  // ---------- the row updated in place ----------

  class Row {
    var status: Status
    var attemptCount: nat
    var retryCycle: nat
    var cycleAttempts: nat
    var updatedAt: int
    var attempts: seq<Attempt>

    function Contents(): Task
      reads this
    {
      Task(status, attemptCount, retryCycle, cycleAttempts, updatedAt, attempts)
    }

    constructor (now: int)
      ensures Contents() == NewTask(now).task
    {
      status, attemptCount, retryCycle, cycleAttempts, updatedAt, attempts := Pending, 0, 0, 0, now, [];
    }

    method RetryTask(now: int) returns (ok: bool)
      modifies this
      ensures ok == old(Retryable(Contents())) && Contents() == old(AfterRetry(Contents(), now))
    {
      if status != Failed && status != OutputInvalid {
        return false;
      }
      status := Pending;
      retryCycle := retryCycle + 1;
      cycleAttempts := 0;
      updatedAt := now;
      return true;
    }

    // The conditional update of a cancel; false is a row count other than one.
    method CancelClaim() returns (ok: bool)
      modifies this
      ensures ok == (old(status) == Pending) && Contents() == old(AfterCancel(Contents()))
    {
      if status == Pending {
        status := Cancelled;
        return true;
      }
      return false;
    }

    method RecoverClaim(expected: int, now: int) returns (ok: bool)
      modifies this
      ensures ok == old(Recoverable(Contents(), RecoveryRead(expected, now)))
      ensures Contents() == old(AfterRecovery(Contents(), RecoveryRead(expected, now)))
    {
      if status != Running || updatedAt != expected || updatedAt > now - STALE_RUNNING_MIN_AGE {
        return false;
      }
      status := Failed;
      updatedAt := now;
      var rows := attempts;
      for i := 0 to |rows|
        invariant |rows| == |old(attempts)| && attempts == old(attempts)
        invariant forall k | 0 <= k < i :: rows[k] == FailRunning(attempts)[k]
        invariant forall k | i <= k < |rows| :: rows[k] == attempts[k]
        invariant Contents() == old(Contents()).(status := Failed, updatedAt := now)
      {
        if rows[i].status == Running {
          rows := rows[i := rows[i].(status := Failed)];
        }
      }
      assert rows == FailRunning(attempts);
      attempts := rows;
      return true;
    }

    // The second worker transaction.
    method StartAttempt(at: int) returns (no: nat, seen: Status, cycle: nat)
      modifies this
      ensures no == old(MaxAttemptNo(attempts)) + 1 && seen == old(status) && cycle == old(cycleAttempts) + 1
      ensures Contents() == old(AfterStart(Contents(), at))
    {
      no := MaxAttemptNo(attempts) + 1;
      attemptCount := no;
      cycleAttempts := cycleAttempts + 1;
      updatedAt := at;
      attempts := attempts + [Attempt(no, retryCycle, cycleAttempts, Running)];
      seen, cycle := status, cycleAttempts;
    }

    // The third worker transaction: the ownership checks see what the session remembers.
    method FinishAttempt(no: nat, seen: Status, cycle: nat, result: RunResult, now: int)
      modifies this
      ensures Contents() == old(AfterFinish(Contents(), no, seen, cycle, result, now))
    {
      if seen == Cancelled {
        attempts := SetAttempt(attempts, no, Failed);
        return;
      }
      if seen != Running {
        return;
      }
      updatedAt := now;
      match result {
        case Success =>
          status := Succeeded;
          attempts := SetAttempt(attempts, no, Succeeded);
        case PersistFailed =>
          status := Failed;
          attempts := SetAttempt(attempts, no, Failed);
        case Invalid =>
          status := OutputInvalid;
          attempts := SetAttempt(attempts, no, OutputInvalid);
        case ProviderFailed(retryable) =>
          attempts := SetAttempt(attempts, no, Failed);
          if retryable && cycle < MAX_ATTEMPTS {
            status := Pending;
          } else {
            status := Failed;
          }
      }
    }
  }
}
