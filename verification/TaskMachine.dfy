/** The task status table. */
module TaskMachine {

  datatype TaskStatus =
    | Backlog | Ready | Building | SelfVerifying | IndependentAuditing | Repairing
    | FinalVerify | Approved | Completed | BlockedTask | Failed | PausedTask | CancelledTask

  /** The `_TRANSITIONS` table. */
  function Targets(s: TaskStatus): set<TaskStatus> {
    match s
    case Backlog => {Ready, BlockedTask, CancelledTask}
    case Ready => {Building, BlockedTask, PausedTask, CancelledTask}
    case Building => {SelfVerifying, Failed, BlockedTask, PausedTask}
    case SelfVerifying => {IndependentAuditing, Repairing, Failed, BlockedTask}
    case IndependentAuditing => {Repairing, FinalVerify, Failed, BlockedTask}
    case Repairing => {FinalVerify, Failed, BlockedTask}
    case FinalVerify => {Approved, Failed, BlockedTask}
    case Approved => {Completed}
    case PausedTask => {Ready, Building, BlockedTask, CancelledTask}
    case Failed => {Ready, Building, SelfVerifying, IndependentAuditing, Repairing, FinalVerify, BlockedTask}
    case BlockedTask => {Ready, Building, SelfVerifying, IndependentAuditing, Repairing, FinalVerify, CancelledTask}
    case Completed => {}
    case CancelledTask => {}
  }

  predicate Legal(s: TaskStatus, t: TaskStatus) {
    t in Targets(s)
  }

  /** The table read the other way: what leads to each status. A task is completed only from APPROVED,
      approved only from FINAL_VERIFY, and left for good when it is completed or cancelled. */
  lemma LedFrom(s: TaskStatus, t: TaskStatus)
    ensures Legal(s, t) <==>
      match t
      case Backlog => false
      case Ready => s in {Backlog, PausedTask, Failed, BlockedTask}
      case Building => s in {Ready, PausedTask, Failed, BlockedTask}
      case SelfVerifying => s in {Building, Failed, BlockedTask}
      case IndependentAuditing => s in {SelfVerifying, Failed, BlockedTask}
      case Repairing => s in {SelfVerifying, IndependentAuditing, Failed, BlockedTask}
      case FinalVerify => s in {IndependentAuditing, Repairing, Failed, BlockedTask}
      case Approved => s == FinalVerify
      case Completed => s == Approved
      case BlockedTask => s !in {Approved, BlockedTask, Completed, CancelledTask}
      case Failed => s in {Building, SelfVerifying, IndependentAuditing, Repairing, FinalVerify}
      case PausedTask => s in {Ready, Building}
      case CancelledTask => s in {Backlog, Ready, PausedTask, BlockedTask}
  {
  }
}
