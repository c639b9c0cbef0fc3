// The status machine of one interview round (interview_state.py).
module RoundStatus {
  import opened Common

  datatype Status =
    | Draft
    | Scheduled
    | Confirmed
    | InProgress
    | PendingTranscript
    | Completed
    | Cancelled
    | EndedAbnormally

  datatype Action =
    | Schedule
    | ConfirmInvitation
    | Start
    | Finish
    | Complete
    | Cancel
    | EndAbnormally
    | Edit
    | Reschedule
    | GenerateInvitation
    | ViewInvitation
    | GenerateCancellation

  // The transition table; None is the source's InterviewStateError.
  function NextStatus(current: Status, action: Action): Option<Status> {
    match (action, current)
    case (Schedule, Draft) => Some(Scheduled)
    case (ConfirmInvitation, Scheduled) => Some(Confirmed)
    case (Start, Scheduled) => Some(InProgress)
    case (Start, Confirmed) => Some(InProgress)
    case (Finish, InProgress) => Some(PendingTranscript)
    case (Complete, PendingTranscript) => Some(Completed)
    case (Cancel, Draft) => Some(Cancelled)
    case (Cancel, Scheduled) => Some(Cancelled)
    case (Cancel, Confirmed) => Some(Cancelled)
    case (Cancel, InProgress) => Some(Cancelled)
    case (EndAbnormally, InProgress) => Some(EndedAbnormally)
    case _ => None
  }

  // assert_transition accepts exactly the table's entries.
  predicate TransitionAllowed(current: Status, target: Status, action: Action) {
    NextStatus(current, action) == Some(target)
  }

  function AllowedActions(status: Status): set<Action> {
    match status
    case Draft => {Edit, Schedule, Cancel}
    case Scheduled => {Edit, Reschedule, Cancel, Start, GenerateInvitation, ViewInvitation, ConfirmInvitation}
    case Confirmed => {Edit, Reschedule, Cancel, Start, ViewInvitation}
    case InProgress => {Finish, EndAbnormally}
    case PendingTranscript => {Complete}
    case Completed => {}
    case Cancelled => {GenerateCancellation, ViewInvitation}
    case EndedAbnormally => {}
  }

  predicate Terminal(status: Status) {
    status in {Completed, Cancelled, EndedAbnormally}
  }

  // What a status move may be: an action of the table, or the reschedule call, which sends a
  // scheduled or confirmed round back to Scheduled without consulting the table.
  predicate Moves(current: Status, target: Status) {
    || current == target
    || (exists action :: TransitionAllowed(current, target, action))
    || (current in {Scheduled, Confirmed} && target == Scheduled)
  }

  // The actions offered for a status and the actions the table accepts differ in one place:
  // a round in progress can be cancelled although the action is not offered.
  lemma {:induction false} OfferedVersusAccepted(status: Status, action: Action)
    requires action in {Schedule, ConfirmInvitation, Start, Finish, Complete, Cancel, EndAbnormally}
    ensures (action in AllowedActions(status) <==> NextStatus(status, action).Some?)
            <==> !(status == InProgress && action == Cancel)
  {
    match status {
      case Draft =>
      case Scheduled =>
      case Confirmed =>
      case InProgress =>
      case PendingTranscript =>
      case Completed =>
      case Cancelled =>
      case EndedAbnormally =>
    }
  }

  function Rank(status: Status): nat {
    match status
    case Draft => 0
    case Scheduled => 1
    case Confirmed => 1
    case InProgress => 2
    case PendingTranscript => 3
    case Completed => 4
    case Cancelled => 4
    case EndedAbnormally => 4
  }

  predicate Path(statuses: seq<Status>) {
    forall i | 0 <= i < |statuses| - 1 :: Moves(statuses[i], statuses[i + 1])
  }

  // Over a whole life, rescheduling included, a round never falls back to an earlier stage,
  // and a terminal status is final.
  lemma {:induction false} StagesNeverFallBack(statuses: seq<Status>, i: nat, j: nat)
    requires Path(statuses) && i <= j < |statuses|
    ensures Rank(statuses[i]) <= Rank(statuses[j])
    ensures Terminal(statuses[i]) ==> statuses[j] == statuses[i]
    decreases j
  {
    if i < j {
      StagesNeverFallBack(statuses, i, j - 1);
      assert Moves(statuses[j - 1], statuses[j - 1 + 1]);
    }
  }

  // A round that reached Completed was pending its transcript just before.
  lemma {:induction false} CompletedComesFromPending(statuses: seq<Status>)
    requires Path(statuses) && |statuses| > 0
    requires statuses[0] == Draft && statuses[|statuses| - 1] == Completed
    ensures exists i | 0 <= i < |statuses| - 1 :: statuses[i] == PendingTranscript && statuses[i + 1] == Completed
  {
    var last := |statuses| - 2;
    assert last >= 0 && Moves(statuses[last], statuses[last + 1]);
    if statuses[last] == Completed {
      var shorter := statuses[..last + 1];
      CompletedComesFromPending(shorter);
      var i :| 0 <= i < |shorter| - 1 && shorter[i] == PendingTranscript && shorter[i + 1] == Completed;
      assert statuses[i] == PendingTranscript && statuses[i + 1] == Completed;
    } else {
      assert statuses[last] == PendingTranscript && statuses[last + 1] == Completed;
    }
  }

  // Where each action may start and where it leads; the other actions move nothing.
  lemma {:induction false} TableIs(current: Status, action: Action)
    ensures NextStatus(current, Schedule) == if current == Draft then Some(Scheduled) else None
    ensures NextStatus(current, ConfirmInvitation) == if current == Scheduled then Some(Confirmed) else None
    ensures NextStatus(current, Start) == if current == Scheduled || current == Confirmed then Some(InProgress) else None
    ensures NextStatus(current, Finish) == if current == InProgress then Some(PendingTranscript) else None
    ensures NextStatus(current, Complete) == if current == PendingTranscript then Some(Completed) else None
    ensures NextStatus(current, Cancel) == if Rank(current) <= 2 then Some(Cancelled) else None
    ensures NextStatus(current, EndAbnormally) == if current == InProgress then Some(EndedAbnormally) else None
    ensures action in {Edit, Reschedule, GenerateInvitation, ViewInvitation, GenerateCancellation} ==>
              NextStatus(current, action) == None
    ensures Rank(current) <= 2 <==> current == Draft || current == Scheduled || current == Confirmed || current == InProgress
  {
    match current
    case Draft =>
    case Scheduled =>
    case Confirmed =>
    case InProgress =>
    case PendingTranscript =>
    case Completed =>
    case Cancelled =>
    case EndedAbnormally =>
  }

  // A status is terminal exactly if no action of the table leads on from it.
  lemma {:induction false} TerminalIff(status: Status)
    ensures Terminal(status) <==> forall action :: NextStatus(status, action) == None
  {
    match status
    case Draft => assert NextStatus(status, Schedule).Some?;
    case Scheduled => assert NextStatus(status, Start).Some?;
    case Confirmed => assert NextStatus(status, Start).Some?;
    case InProgress => assert NextStatus(status, Finish).Some?;
    case PendingTranscript => assert NextStatus(status, Complete).Some?;
    case Completed =>
    case Cancelled =>
    case EndedAbnormally =>
  }

  // The actions that only ask for a document or an edit are offered while they make sense.
  lemma {:induction false} DocumentActions(status: Status)
    ensures Edit in AllowedActions(status) <==> status in {Draft, Scheduled, Confirmed}
    ensures Reschedule in AllowedActions(status) <==> status in {Scheduled, Confirmed}
    ensures GenerateInvitation in AllowedActions(status) <==> status == Scheduled
    ensures ViewInvitation in AllowedActions(status) <==> status in {Scheduled, Confirmed, Cancelled}
    ensures GenerateCancellation in AllowedActions(status) <==> status == Cancelled
  {
    match status
    case Draft =>
    case Scheduled =>
    case Confirmed =>
    case InProgress =>
    case PendingTranscript =>
    case Completed =>
    case Cancelled =>
    case EndedAbnormally =>
  }
}
