/** Task records and what their statuses mean. */
module Tasks {
  type Id = string

  datatype Status = Queued | Blocked | Running | Succeeded | Failed | Cancelled | Lost

  predicate TerminalStatus(s: Status) {
    s.Succeeded? || s.Failed? || s.Cancelled? || s.Lost?
  }

  predicate PendingStatus(s: Status) {
    s.Queued? || s.Blocked?
  }

  datatype Blocker = OnNothing | OnClaude | OnMemory | OnSlots

  /** `token` is the caller's own claude token, "" for none. */
  datatype Task = Task(
    id: Id, created: int, status: Status, blockedOn: Blocker, attempts: nat,
    needsClaude: bool, token: string, memory: int, cpus: int)
  {
    predicate Terminal() {
      TerminalStatus(status)
    }

    predicate Pending() {
      PendingStatus(status)
    }

    /** The run spends the machine's claude usage rather than the caller's. */
    predicate OnMachineToken() {
      needsClaude && token == ""
    }
  }
}
