/** The lifecycle of a run: the states an `agent_runs` row may be in, and the moves between them. */
module Lifecycle {

  datatype AgentRunStatus = Pending | Running | AwaitingApproval | Completed | Failed | Cancelled

  /** States a run object never leaves. */
  predicate Terminal(s: AgentRunStatus) {
    s == Completed || s == Failed || s == Cancelled
  }

  /** States in which some request is supposed to be advancing the run. */
  predicate Active(s: AgentRunStatus) {
    s == Pending || s == Running
  }

  /** The transition table. */
  function AllowedFrom(s: AgentRunStatus): set<AgentRunStatus> {
    match s
    case Pending => {Running, Cancelled, Failed}
    case Running => {AwaitingApproval, Completed, Failed, Cancelled}
    case AwaitingApproval => {Running, Cancelled, Failed}
    case Completed => {}
    case Failed => {}
    case Cancelled => {}
  }
}
