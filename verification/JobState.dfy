/** The job statuses and the transition graph that the domain layer allows. */
module JobState {
  datatype Status = Pending | Queued | Running | Completed | Failed | Cancelled

  predicate Terminal(st: Status) {
    st in {Completed, Failed, Cancelled}
  }

  function AllowedTransitions(current: Status): set<Status> {
    match current
    case Pending => {Queued, Cancelled}
    case Queued => {Running, Cancelled}
    case Running => {Completed, Queued, Failed, Cancelled}
    case Completed => {}
    case Failed => {}
    case Cancelled => {}
  }

  predicate CanTransition(current: Status, target: Status) {
    target in AllowedTransitions(current)
  }
}
