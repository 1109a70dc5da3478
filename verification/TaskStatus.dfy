/** The states of a task, shared by the server's tables and the client's reducer. */
module TaskStatus {

  datatype Status =
    Queued | Planning | Running | Replanning | Finalizing | WaitingUserInput | WaitingApproval | RetryWait
    | CancelRequested | Completed | Failed | Cancelled

  predicate IsTerminal(s: Status) {
    s == Completed || s == Failed || s == Cancelled
  }
}
