/**
 The durable rows two requests can contend over, and the conditional updates that move them.

 Every update here is one SQL statement with the expected state in its WHERE clause, so it is
 written as a function from the table to the table: the rows the clause selects change, and
 every other row is the row it was.
 */
module Rows {
  import opened Lifecycle

  type Id = nat
  type Instant = int

  datatype Option<+T> = None | Some(value: T)

  datatype ApprovalStatus = Pending | Approved | Rejected | Expired | Cancelled

  datatype Approval = Approval(
    org: Id,
    runId: Option<Id>,
    executionId: Option<Id>,
    workflowRunId: Option<Id>,
    stepRunId: Option<Id>,
    toolName: Option<string>,
    requestedAt: Instant,
    expiresAt: Option<Instant>,
    status: ApprovalStatus,
    approvedBy: Option<Id>,
    approvedAt: Option<Instant>,
    decisionReason: Option<string>)

  type Approvals = map<Id, Approval>

  /** The same question: everything about a row but what a decision or a sweep may write. */
  predicate SameQuestion(before: Approval, after: Approval) {
    && after.org == before.org && after.runId == before.runId && after.executionId == before.executionId
    && after.workflowRunId == before.workflowRunId && after.stepRunId == before.stepRunId && after.toolName == before.toolName
    && after.requestedAt == before.requestedAt && after.expiresAt == before.expiresAt
  }

  predicate Undecided(before: Approval, after: Approval) {
    after.approvedBy == before.approvedBy && after.approvedAt == before.approvedAt && after.decisionReason == before.decisionReason
  }

  /** Whether the deadline has not passed at the transaction's instant. */
  predicate StillOpen(a: Approval, now: Instant) {
    a.expiresAt.None? || a.expiresAt.value > now
  }

  /** The clause of the expiry sweep: there is a deadline, and it has been reached. */
  predicate Overdue(a: Approval, now: Instant) {
    a.expiresAt.Some? && a.expiresAt.value <= now
  }

  /** Every approval is either still open or overdue: at the deadline itself it is overdue, and without one never. */
  lemma DeadlinesAreSharp(a: Approval, now: Instant)
    ensures StillOpen(a, now) <==> !Overdue(a, now)
    ensures a.expiresAt.None? ==> StillOpen(a, now)
    ensures a.expiresAt.Some? ==> Overdue(a, a.expiresAt.value) && StillOpen(a, a.expiresAt.value - 1)
  {
  }

  // -- decide ------------------------------------------------------------------

  predicate Decidable(rows: Approvals, org: Id, id: Id, now: Instant) {
    id in rows && rows[id].org == org && rows[id].status == ApprovalStatus.Pending && StillOpen(rows[id], now)
  }

  function Decided(a: Approval, decision: ApprovalStatus, decider: Id, reason: Option<string>, now: Instant): Approval {
    a.(status := decision, approvedBy := Some(decider), approvedAt := Some(now), decisionReason := reason)
  }

  // -- expire_due --------------------------------------------------------------

  predicate Lapses(a: Approval, org: Id, now: Instant) {
    a.org == org && a.status == ApprovalStatus.Pending && Overdue(a, now)
  }

  function LapsedIds(rows: Approvals, org: Id, now: Instant): set<Id> {
    set id | id in rows && Lapses(rows[id], org, now)
  }

  function ExpireRows(rows: Approvals, org: Id, now: Instant): Approvals {
    map id | id in rows :: if Lapses(rows[id], org, now) then rows[id].(status := Expired) else rows[id]
  }

  // -- cancel_for_run, cancel_for_workflow_run -----------------------------------

  /** Which process an approval is withdrawn for. */
  datatype Holder = AgentRun(run: Id) | WorkflowRun(workflowRun: Id)

  predicate HeldBy(a: Approval, holder: Holder) {
    match holder
    case AgentRun(run) => a.runId == Some(run)
    case WorkflowRun(run) => a.workflowRunId == Some(run)
  }

  predicate Withdraws(a: Approval, org: Id, holder: Holder) {
    a.org == org && a.status == ApprovalStatus.Pending && HeldBy(a, holder)
  }

  function WithdrawnIds(rows: Approvals, org: Id, holder: Holder): set<Id> {
    set id | id in rows && Withdraws(rows[id], org, holder)
  }

  function WithdrawRows(rows: Approvals, org: Id, holder: Holder): Approvals {
    map id | id in rows :: if Withdraws(rows[id], org, holder) then rows[id].(status := ApprovalStatus.Cancelled) else rows[id]
  }

  // -- agent_runs ----------------------------------------------------------------

  datatype RunRow = RunRow(org: Id, status: AgentRunStatus, errorCode: Option<string>)

  type Runs = map<Id, RunRow>

  const CANCELLED_ERROR_CODE := "agent_run_cancelled"
  const ABANDONED_ERROR_CODE := "agent_run_abandoned"
  const EXPIRED_ERROR_CODE := "approval_expired"

  /** The run a lapsed approval was holding up. */
  function HeldRuns(rows: Approvals, org: Id, now: Instant): set<Id> {
    set id | id in LapsedIds(rows, org, now) && rows[id].runId.Some? :: rows[id].runId.value
  }

  /** Fail the named runs of one organization that are still waiting, and no others. */
  function FailAgentRuns(runs: Runs, org: Id, ids: set<Id>): Runs {
    map r | r in runs ::
      if r in ids && runs[r].org == org && runs[r].status == AwaitingApproval
      then runs[r].(status := Failed, errorCode := Some(EXPIRED_ERROR_CODE))
      else runs[r]
  }

  predicate Cancellable(runs: Runs, org: Id, run: Id) {
    run in runs && runs[run].org == org && runs[run].status == AwaitingApproval
  }

  function CancelPausedRows(runs: Runs, org: Id, run: Id): Runs {
    if Cancellable(runs, org, run)
    then runs[run := runs[run].(status := AgentRunStatus.Cancelled, errorCode := Some(CANCELLED_ERROR_CODE))]
    else runs
  }

  /** `stale` stands for the rows whose `updated_at` is older than the cutoff. */
  function SweepRows(runs: Runs, org: Id, stale: set<Id>): Runs {
    map r | r in runs ::
      if r in stale && runs[r].org == org && Active(runs[r].status)
      then runs[r].(status := Failed, errorCode := Some(ABANDONED_ERROR_CODE))
      else runs[r]
  }

  // -- tool_executions -------------------------------------------------------------

  datatype ExecRow = ExecRow(org: Id, run: Id, requiresApproval: bool, executed: bool)

  type Executions = map<Id, ExecRow>

  predicate Claimable(execs: Executions, org: Id, exec: Id) {
    exec in execs && execs[exec].org == org && !execs[exec].executed
  }

  function ClaimRows(execs: Executions, org: Id, exec: Id): Executions {
    if Claimable(execs, org, exec) then execs[exec := execs[exec].(executed := true)] else execs
  }
}
