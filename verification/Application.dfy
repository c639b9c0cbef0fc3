// One application as a whole: its rounds with their transcripts and analyses, its comprehensive
// analysis, its hiring log, and every step that may change any of them.
module Application {
  import opened Common
  import opened Coverage
  import Inputs
  import AR = AnalysisResult
  import Hiring
  import RoundAnalysis
  import Scoring
  import TaskLedger
  import TaskStatus
  import Text
  import Transcript
  import H = TranscriptHistory

  datatype App = App(
    id: Id, entries: seq<Entry>, comprehensive: Comprehensive, tasks: TaskLedger.Ledger, board: Hiring.Board)

  datatype State = State(app: App, nextId: Id)

  // ---------- rounds ----------

  function MaxSequence(entries: seq<Entry>): nat {
    if entries == [] then 0 else Max(MaxSequence(entries[..|entries| - 1]), entries[|entries| - 1].sequenceNo)
  }

  function NewEntry(entries: seq<Entry>, id: Id): Entry {
    Entry(MaxSequence(entries) + 1, H.NewRound(id), RoundAnalysis.Analysis([], None), TaskLedger.Ledger([], map[]))
  }

  function CallRound(e: Entry, nextId: Id, call: Transcript.Call): (Entry, Id) {
    var o := Transcript.Apply(e.round, nextId, call);
    (e.(round := o.round), o.nextId)
  }

  // A generation request: freeze the input, then go through the task protocol.
  function RequestAnalysis(e: Entry, nextId: Id, actor: Id, key: string, jobVersionId: Id,
                           raw: Option<seq<Scoring.RawDimension>>): (Entry, Id)
  {
    match RoundAnalysis.Freeze(e.round, jobVersionId, raw)
    case Err(_) => (e, nextId)
    case Ok(input) =>
      var o := TaskLedger.Request(e.tasks, nextId, actor, key, input);
      (e.(tasks := o.ledger), o.nextId)
  }

  // How a stored task changes its status: while it is in flight, by the outcome of a worker that
  // started earlier, or by a manual retry.
  datatype Cause = Moves | LateOutcome | Retried

  function MovedTasks(l: TaskLedger.Ledger, nextId: Id, taskId: Id, status: TaskStatus.Status, cause: Cause): TaskLedger.Ledger {
    match cause
    case Moves => TaskLedger.Progress(l, nextId, taskId, status).ledger
    case LateOutcome => TaskLedger.LateOutcome(l, nextId, taskId, status).ledger
    case Retried => TaskLedger.Retry(l, nextId, taskId).ledger
  }

  // A worker stores an output, at whatever time it gets there.
  function PersistAnalysis(e: Entry, nextId: Id, taskId: Id, result: AR.AnalyzeResult): (Entry, Id) {
    match TaskLedger.FindTask(e.tasks.tasks, taskId)
    case None => (e, nextId)
    case Some(task) =>
      var o := RoundAnalysis.Persist(e.analysis, nextId, e.round,
                                     RoundAnalysis.Task(task.id, RoundAnalysis.Seal(task.input)), result);
      (e.(analysis := o.analysis), o.nextId)
  }

  datatype RoundStep =
    | Call(call: Transcript.Call)
    | Request(actor: Id, key: string, jobVersionId: Id, raw: Option<seq<Scoring.RawDimension>>)
    | TaskMoves(taskId: Id, status: TaskStatus.Status, cause: Cause)
    | Persist(taskId: Id, result: AR.AnalyzeResult)

  function StepRound(e: Entry, nextId: Id, step: RoundStep): (Entry, Id) {
    match step
    case Call(call) => CallRound(e, nextId, call)
    case Request(actor, key, jobVersionId, raw) => RequestAnalysis(e, nextId, actor, key, jobVersionId, raw)
    case TaskMoves(taskId, status, cause) => (e.(tasks := MovedTasks(e.tasks, nextId, taskId, status, cause)), nextId)
    case Persist(taskId, result) => PersistAnalysis(e, nextId, taskId, result)
  }

  // ---------- comprehensive analysis ----------

  datatype Error = WrongState | NothingEligible | NotFound | SummaryRequired | Refused

  datatype Outcome = Outcome(app: App, nextId: Id, reply: Result<Id, Error>)

  function RequestComprehensive(a: App, nextId: Id, actor: Id, key: string): Outcome {
    if a.board.status != Hiring.InProgress || a.board.pipeline != Hiring.Interviewing then Outcome(a, nextId, Err(WrongState))
    else if Report(a.entries).eligible < 1 then Outcome(a, nextId, Err(NothingEligible))
    else
      var o := TaskLedger.Request(a.tasks, nextId, actor, key, InputFor(a.id, a.entries));
      Outcome(a.(tasks := o.ledger), o.nextId, if o.reply.Ok? then Ok(o.reply.value) else Err(Refused))
  }

  function NewComprehensive(a: App, nextId: Id, task: TaskLedger.Task, summary: string, overall: Option<real>): Version
    requires task.input.ComprehensiveInput?
  {
    Version(nextId, MaxNo(a.comprehensive.versions) + 1, task.id, task.input, task.input.roundRefs, task.input.coverage,
            overall, Text.Strip(summary))
  }

  function PersistComprehensive(a: App, nextId: Id, taskId: Id, summary: string, overall: Option<real>): Outcome {
    var task := TaskLedger.FindTask(a.tasks.tasks, taskId);
    var existing := FindByTask(a.comprehensive.versions, taskId);
    if task.None? || !task.value.input.ComprehensiveInput? then Outcome(a, nextId, Err(NotFound))
    else if existing.Some? then Outcome(a, nextId, Ok(existing.value.id))
    else if Text.Blank(summary) then Outcome(a, nextId, Err(SummaryRequired))
    else
      var version := NewComprehensive(a, nextId, task.value, summary, overall);
      Outcome(a.(comprehensive := Comprehensive(a.comprehensive.versions + [version], Some(version.id))),
              nextId + 1, Ok(version.id))
  }

  // ---------- steps and runs ----------

  datatype Step =
    | AddRound
    | RoundSteps(index: nat, step: RoundStep)
    | AskComprehensive(actor: Id, key: string)
    | ComprehensiveTaskMoves(taskId: Id, status: TaskStatus.Status, cause: Cause)
    | StoreComprehensive(taskId: Id, summary: string, overall: Option<real>)
    | Decide(actor: Id, payload: Hiring.Payload)
    | OtherBoardChange(board: Hiring.Board)
    | IdsTaken(count: nat)

  function Apply(s: State, step: Step): State {
    var a, n := s.app, s.nextId;
    match step
    case AddRound => State(a.(entries := a.entries + [NewEntry(a.entries, n)]), n + 1)
    case RoundSteps(i, roundStep) =>
      if i < |a.entries| then
        var (e, m) := StepRound(a.entries[i], n, roundStep);
        State(a.(entries := a.entries[i := e]), m)
      else s
    case AskComprehensive(actor, key) =>
      var o := RequestComprehensive(a, n, actor, key);
      State(o.app, o.nextId)
    case ComprehensiveTaskMoves(taskId, status, cause) => State(a.(tasks := MovedTasks(a.tasks, n, taskId, status, cause)), n)
    case StoreComprehensive(taskId, summary, overall) =>
      var o := PersistComprehensive(a, n, taskId, summary, overall);
      State(o.app, o.nextId)
    case Decide(actor, payload) =>
      var o := Hiring.Decide(a.board, a.entries, n, actor, payload);
      State(a.(board := o.board), o.nextId)
    case OtherBoardChange(board) => State(a.(board := board), n)
    case IdsTaken(count) => State(a, n + count)
  }

  function NewApp(id: Id, board: Hiring.Board): App {
    App(id, [], Comprehensive([], None), TaskLedger.Ledger([], map[]), board)
  }

  function Start(id: Id, board: Hiring.Board, firstId: Id): State {
    State(NewApp(id, board), firstId)
  }

  // A run: the states an application goes through under a sequence of steps.
  datatype Run = Run(id: Id, board: Hiring.Board, firstId: Id, states: seq<State>, steps: seq<Step>)

  ghost predicate StepAt(h: Run, k: nat)
    requires k < |h.steps| && |h.states| == |h.steps| + 1
  {
    h.states[k + 1] == Apply(h.states[k], h.steps[k])
  }

  ghost predicate IsRun(h: Run) {
    && |h.states| == |h.steps| + 1
    && h.states[0] == Start(h.id, h.board, h.firstId)
    && forall k {:trigger StepAt(h, k)} | 0 <= k < |h.steps| :: StepAt(h, k)
  }

  // s is the state of the run after t steps.
  ghost predicate At(h: Run, t: nat, s: State) {
    IsRun(h) && t < |h.states| && s == h.states[t]
  }

  class ComprehensiveService {
    var versions: seq<Version>
    var current: Option<Id>
    var ledger: TaskLedger.Ledger
    var nextId: Id

    constructor (firstId: Id)
      ensures versions == [] && current == None && ledger == TaskLedger.Ledger([], map[]) && nextId == firstId
    {
      versions, current, ledger, nextId := [], None, TaskLedger.Ledger([], map[]), firstId;
    }

    // The application row with this service's own columns in place.
    function With(a: App): App
      reads this
    {
      a.(comprehensive := Comprehensive(versions, current), tasks := ledger)
    }

    method RequestGeneration(a: App, actor: Id, key: string) returns (reply: Result<Id, Error>)
      modifies this
      ensures Outcome(With(a), nextId, reply) == old(RequestComprehensive(With(a), nextId, actor, key))
    {
      if a.board.status != Hiring.InProgress {
        return Err(WrongState);
      }
      if a.board.pipeline != Hiring.Interviewing {
        return Err(WrongState);
      }
      var report := BuildCoverageReport(a.entries);
      if report.eligible < 1 {
        return Err(NothingEligible);
      }
      var refs := CollectRefs(a.entries);
      var o := TaskLedger.Request(ledger, nextId, actor, key, Inputs.ComprehensiveInput(a.id, refs, report));
      ledger, nextId := o.ledger, o.nextId;
      return if o.reply.Ok? then Ok(o.reply.value) else Err(Refused);
    }

    method CollectRefs(entries: seq<Entry>) returns (refs: seq<Inputs.RoundRef>)
      ensures refs == RefsOfAll(entries)
    {
      refs := [];
      for i := 0 to |entries|
        invariant refs == RefsOfAll(entries[..i])
      {
        assert entries[..i + 1][..i] == entries[..i];
        if GapReasonOf(entries[i]).None? {
          var ref := BuildRoundRef(entries[i]);
          refs := refs + [ref];
        }
      }
      assert entries[..|entries|] == entries;
    }

    method PersistResult(a: App, taskId: Id, summary: string, overall: Option<real>) returns (reply: Result<Id, Error>)
      modifies this
      ensures Outcome(With(a), nextId, reply) == old(PersistComprehensive(With(a), nextId, taskId, summary, overall))
    {
      var task := TaskLedger.FindTask(ledger.tasks, taskId);
      if task.None? || !task.value.input.ComprehensiveInput? {
        return Err(NotFound);
      }
      var existing := FindByTask(versions, taskId);
      if existing.Some? {
        return Ok(existing.value.id);
      }
      if Text.Blank(summary) {
        return Err(SummaryRequired);
      }
      var input := task.value.input;
      var version := Version(nextId, MaxNo(versions) + 1, task.value.id, input, input.roundRefs, input.coverage, overall,
                             Text.Strip(summary));
      nextId := nextId + 1;
      versions := versions + [version];
      current := Some(version.id);
      return Ok(version.id);
    }
  }
}
