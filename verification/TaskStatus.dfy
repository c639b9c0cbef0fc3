// The status of an AI task, as its row stores it.
module TaskStatus {
  datatype Status = Pending | Running | Succeeded | Failed | OutputInvalid | Cancelled

  predicate InFlight(status: Status) {
    status == Pending || status == Running
  }
}
