// The eleven task states and their transition table.
module StateMachine {
  import opened Wrappers

  datatype RunState =
    | Created | Ready | Dispatched | Running | RetryReady
    | ResultReady | Reviewing | RevisionReady
    | Completed | Blocked | Failed

  datatype StateEvent =
    | Validate | Dispatch | Start
    | WorkerSucceeded | WorkerRetry | WorkerFailed
    | RequestReview | ReviewPass | ReviewRevise
    | Block | UserResolved

  // None stands for the InvalidTransitionError.
  function Transition(current: RunState, event: StateEvent): Option<RunState> {
    match (current, event)
    case (Created, Validate) => Some(Ready)
    case (Ready, Dispatch) => Some(Dispatched)
    case (Dispatched, Start) => Some(Running)
    case (Running, WorkerSucceeded) => Some(ResultReady)
    case (Running, WorkerRetry) => Some(RetryReady)
    case (Running, WorkerFailed) => Some(Failed)
    case (RetryReady, Dispatch) => Some(Dispatched)
    case (ResultReady, RequestReview) => Some(Reviewing)
    case (Reviewing, ReviewPass) => Some(Completed)
    case (Reviewing, ReviewRevise) => Some(RevisionReady)
    case (RevisionReady, Dispatch) => Some(Dispatched)
    case (Blocked, UserResolved) => Some(Ready)
    case (s, Block) => if Terminal(s) then None else Some(Blocked)
    case _ => None
  }

  predicate Terminal(s: RunState) {
    s.Completed? || s.Blocked? || s.Failed?
  }
}
