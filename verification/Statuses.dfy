/** Status vocabularies and transition tables shared by the governance model. */
module Statuses {

  datatype Option<+T> = None | Some(value: T)

  datatype RunStatus =
    | Accepted | Queued | Starting | Running | WaitingApproval | WaitingInput
    | Cancelling | Retrying | RunSucceeded | RunFailed | RunCancelled

  predicate TerminalRun(s: RunStatus) {
    s.RunSucceeded? || s.RunFailed? || s.RunCancelled?
  }

  /** The sole Run state machine. */
  predicate RunEdge(from: RunStatus, to: RunStatus) {
    match from
    case Accepted => to.Queued?
    case Queued => to.Starting? || to.Cancelling?
    case Starting => to.Running? || to.Retrying? || to.RunFailed?
    case Running =>
      || to.RunSucceeded? || to.WaitingApproval? || to.WaitingInput?
      || to.Cancelling? || to.Retrying? || to.RunFailed?
    case WaitingApproval => to.Running?
    case WaitingInput => to.Running?
    case Cancelling => to.RunCancelled?
    case Retrying => to.Queued? || to.RunFailed?
    case RunSucceeded => false
    case RunFailed => false
    case RunCancelled => false
  }

  datatype ToolStatus =
    | Proposed | ToolWaiting | ToolRunning
    | ToolSucceeded | ToolFailed | ToolCancelled | ToolUnknown

  predicate TerminalTool(s: ToolStatus) {
    s.ToolSucceeded? || s.ToolFailed? || s.ToolCancelled? || s.ToolUnknown?
  }

  /** How far along its life a tool execution is. */
  function ToolRank(s: ToolStatus): nat {
    match s
    case Proposed => 0
    case ToolWaiting => 1
    case ToolRunning => 2
    case _ => 3
  }

  datatype ApprovalStatus =
    | ApprovalPending | Approved | Rejected | Expired | ApprovalCancelled

  datatype InputStatus = InputPending | InputResolved | InputCancelled

  /** Hand-off phase of an answered interaction. */
  datatype ResumePhase = NoPhase | Ready | Claimed | Applied

  function PhaseRank(p: ResumePhase): nat {
    match p
    case NoPhase => 0
    case Ready => 1
    case Claimed => 2
    case Applied => 3
  }
}
