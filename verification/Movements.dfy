/**
 The step system seen from its tables: every way a row comes to be and every way it changes, field by
 field, what a request may do after what it did, and what the log gains, in every history.
 */
module Movements {
  import opened Lifecycle
  import opened Rows
  import opened Protocol

  // -- Approvals ---------------------------------------------------------------------------------

  /** The deadline is behind the instant a step takes place at, in the organization it takes place in. */
  predicate PastDeadline(s: State, t: Step, a: Approval) {
    a.expiresAt.Some?
    && match t
       case Expire(org, now) => a.org == org && a.expiresAt.value <= now
       case Lapse(q) =>
         IsRefused(s, q) && a.org == s.db.approvals[s.actors[q].approval].org && a.expiresAt.value <= s.actors[q].now
       case _ => false
  }

  /** The step withdraws questions of this process. */
  predicate TakenBack(s: State, t: Step, a: Approval) {
    match t
    case Cancel(run) => run in s.db.runs && a.org == s.db.runs[run].org && a.runId == Some(run)
    case CancelWorkflow(org, workflowRun) => a.org == org && a.workflowRunId == Some(workflowRun)
    case _ => false
  }

  predicate DecidedBy(t: Step, id: Id, after: Approval) {
    && t.Decide? && t.approval == id
    && after.status == (if t.approve then Approved else Rejected)
    && after.approvedBy == Some(t.decider) && after.approvedAt == Some(t.now) && after.decisionReason == t.reason
  }

  /** A question as it is first written down, by the request that drives its run. */
  predicate AskedBy(s: State, t: Step, id: Id, row: Approval) {
    && t.AskApproval? && t.approval == id && IsDriving(s, t.q) && s.actors[t.q].at.Asking?
    && row.org == s.db.runs[s.actors[t.q].run].org
    && row.runId == Some(s.actors[t.q].run) && row.executionId == Some(s.actors[t.q].at.exec)
    && row.workflowRunId == t.stamp && row.stepRunId.None? && row.toolName.None?
    && row.requestedAt == t.requestedAt && row.expiresAt == t.expiresAt
    && row.status == ApprovalStatus.Pending && row.approvedBy.None? && row.approvedAt.None? && row.decisionReason.None?
  }

  predicate ApprovalMoved(s: State, t: Step, s': State, id: Id) {
    if id !in s'.db.approvals then id !in s.db.approvals
    else if id !in s.db.approvals then AskedBy(s, t, id, s'.db.approvals[id])
    else
      var before, after := s.db.approvals[id], s'.db.approvals[id];
      || after == before
      || (before.status == ApprovalStatus.Pending && SameQuestion(before, after)
          && (|| DecidedBy(t, id, after)
              || (after.status == Expired && Undecided(before, after) && PastDeadline(s, t, before))
              || (after.status == ApprovalStatus.Cancelled && Undecided(before, after) && TakenBack(s, t, before))))
  }

  /** An approval's row is written once, by the request that asks, and moves once: decided, lapsed or withdrawn. */
  lemma ApprovalsMove(states: seq<State>, steps: seq<Step>, i: nat, id: Id)
    requires History(false, states, steps) && i < |steps|
    ensures ApprovalMoved(states[i], steps[i], states[i + 1], id)
  {
    assert Next(false, states[i], steps[i], states[i + 1]);
  }

  /**
   Every decision that wins finds its approval pending and in time, and records who decided, when,
   what and why; everything else about the row, and every other row, is as it was.
   */
  lemma DecisionsAreRecorded(weak: bool, states: seq<State>, steps: seq<Step>, i: nat)
    requires History(weak, states, steps) && i < |steps| && steps[i].Decide?
    ensures var id, before, after := steps[i].approval, states[i].db.approvals, states[i + 1].db.approvals;
            && id in before && id in after
            && after[id].status == (if steps[i].approve then Approved else Rejected)
            && after[id].approvedBy == Some(steps[i].decider) && after[id].approvedAt == Some(steps[i].now)
            && after[id].decisionReason == steps[i].reason
            && SameQuestion(before[id], after[id])
            && after == before[id := after[id]]
            && (!weak ==> before[id].status == ApprovalStatus.Pending
                          && (before[id].expiresAt.None? || steps[i].now < before[id].expiresAt.value))
    ensures states[i + 1].db.runs == states[i].db.runs && states[i + 1].db.executions == states[i].db.executions
  {
    assert Next(weak, states[i], steps[i], states[i + 1]);
  }

  /** What a step must sweep it does: nothing overdue, and nothing withdrawn, is left pending behind it. */
  lemma SweepsLeaveNothing(states: seq<State>, steps: seq<Step>, i: nat, id: Id)
    requires History(false, states, steps) && i < |steps|
    requires id in states[i].db.approvals && states[i].db.approvals[id].status == ApprovalStatus.Pending
    ensures id in states[i + 1].db.approvals
    ensures PastDeadline(states[i], steps[i], states[i].db.approvals[id]) ==> states[i + 1].db.approvals[id].status == Expired
    ensures TakenBack(states[i], steps[i], states[i].db.approvals[id])
            && (steps[i].Cancel? ==> states[i].db.runs[steps[i].run].status == AwaitingApproval) ==>
              states[i + 1].db.approvals[id].status == ApprovalStatus.Cancelled
  {
    var s, t := states[i], steps[i];
    assert Next(false, s, t, states[i + 1]);
    if t.Cancel? && TakenBack(s, t, s.db.approvals[id]) {
      assert id in WithdrawnIds(s.db.approvals, s.db.runs[t.run].org, AgentRun(t.run));
    }
  }

  // -- Runs ------------------------------------------------------------------------------------------

  /** The request that takes the step drives this run, or is about to. */
  predicate TakenFor(s: State, t: Step, run: Id) {
    match t
    case Begin(q) => IsDriving(s, q) && s.actors[q].run == run
    case Pause(q) => IsDriving(s, q) && s.actors[q].run == run
    case Finish(q, _, _) => IsDriving(s, q) && s.actors[q].run == run
    case Resume(q) => IsDeciding(s, q) && s.actors[q].run == run
    case _ => false
  }

  /** What a request writes of its own run's state; an error it does not have it does not write. */
  predicate WrittenBy(t: Step, before: RunRow, after: RunRow) {
    match t
    case Begin(_) => after.status == Running && after.errorCode == before.errorCode
    case Resume(_) => after.status == Running && after.errorCode == before.errorCode
    case Pause(_) => after.status == AwaitingApproval && after.errorCode == before.errorCode
    case Finish(_, status, code) =>
      after.status == status && Terminal(status) && after.errorCode == if code.Some? then code else before.errorCode
    case _ => false
  }

  /** The question a run was waiting on lapsed in this step. */
  ghost predicate LapsedUnder(s: State, s': State, run: Id) {
    exists a ::
      && a in s.db.approvals && a in s'.db.approvals && s.db.approvals[a].runId == Some(run)
      && s.db.approvals[a].status == ApprovalStatus.Pending && s'.db.approvals[a].status == Expired
  }

  ghost predicate EndedFromOutside(s: State, t: Step, s': State, run: Id)
    requires run in s.db.runs && run in s'.db.runs
  {
    var before, after := s.db.runs[run], s'.db.runs[run];
    || (t == Cancel(run) && before.status == AwaitingApproval
        && after.status == AgentRunStatus.Cancelled && after.errorCode == Some("agent_run_cancelled"))
    || ((t.Expire? || t.Lapse?) && before.status == AwaitingApproval && LapsedUnder(s, s', run)
        && after.status == Failed && after.errorCode == Some("approval_expired"))
    || (t.SweepAbandoned? && t.org == before.org && run in t.stale && (before.status == AgentRunStatus.Pending || before.status == Running)
        && after.status == Failed && after.errorCode == Some("agent_run_abandoned"))
  }

  ghost predicate RunMoved(s: State, t: Step, s': State, run: Id) {
    if run !in s'.db.runs then run !in s.db.runs
    else if run !in s.db.runs then
      t.CreateRun? && t.run == run && s'.db.runs[run] == RunRow(t.org, AgentRunStatus.Pending, None)
    else
      && s'.db.runs[run].org == s.db.runs[run].org
      && if TakenFor(s, t, run) then WrittenBy(t, s.db.runs[run], s'.db.runs[run])
         else s'.db.runs[run] == s.db.runs[run] || EndedFromOutside(s, t, s', run)
  }

  /** A run's row moves by the request that drives it, or is ended from outside in one of three ways. */
  lemma RunsMove(states: seq<State>, steps: seq<Step>, i: nat, run: Id)
    requires History(false, states, steps) && i < |steps|
    ensures RunMoved(states[i], steps[i], states[i + 1], run)
  {
    var s, t := states[i], steps[i];
    assert Next(false, s, t, states[i + 1]);
    if run in s.db.runs && t.Expire? && states[i + 1].db.runs[run] != s.db.runs[run] {
      HeldMeansLapsed(s, states[i + 1], t.org, t.now, run);
    } else if run in s.db.runs && t.Lapse? && states[i + 1].db.runs[run] != s.db.runs[run] {
      HeldMeansLapsed(s, states[i + 1], s.db.approvals[s.actors[t.q].approval].org, s.actors[t.q].now, run);
    }
  }

  /** What a sweep or a cancellation must end it does: the abandoned, what waited behind a lapsed question, what is called off. */
  lemma SweepsReachRuns(states: seq<State>, steps: seq<Step>, i: nat, run: Id, a: Id)
    requires History(false, states, steps) && i < |steps| && run in states[i].db.runs
    ensures run in states[i + 1].db.runs
    ensures var s, t, s' := states[i], steps[i], states[i + 1];
            var before, after := s.db.runs[run], s'.db.runs[run];
            && (t.SweepAbandoned? && t.org == before.org && run in t.stale && Active(before.status) ==> after.status == Failed)
            && (a in s.db.approvals && s.db.approvals[a].status == ApprovalStatus.Pending && s.db.approvals[a].org == before.org
                && s.db.approvals[a].runId == Some(run) && before.status == AwaitingApproval ==>
                  && (PastDeadline(s, t, s.db.approvals[a]) ==> after.status == Failed)
                  && (t == Cancel(run) ==> after.status == AgentRunStatus.Cancelled))
  {
    var s, t := states[i], steps[i];
    assert Next(false, s, t, states[i + 1]);
    if a in s.db.approvals && s.db.approvals[a].runId == Some(run) && s.db.approvals[a].status == ApprovalStatus.Pending {
      if t == Cancel(run) && s.db.approvals[a].org == s.db.runs[run].org {
        assert a in WithdrawnIds(s.db.approvals, s.db.runs[run].org, AgentRun(run));
      }
      if PastDeadline(s, t, s.db.approvals[a]) {
        var now := if t.Expire? then t.now else s.actors[t.q].now;
        assert a in LapsedIds(s.db.approvals, s.db.approvals[a].org, now);
        assert run in HeldRuns(s.db.approvals, s.db.approvals[a].org, now);
      }
    }
  }

  lemma HeldMeansLapsed(s: State, s': State, org: Id, now: Instant, run: Id)
    requires s'.db == ExpireDb(s.db, org, now) && run in s.db.runs && s'.db.runs[run] != s.db.runs[run]
    ensures LapsedUnder(s, s', run)
  {
    var a :| a in LapsedIds(s.db.approvals, org, now) && s.db.approvals[a].runId == Some(run);
    assert s'.db.approvals[a].status == Expired;
  }

  // -- Executions --------------------------------------------------------------------------------------

  predicate ExecutionMoved(s: State, t: Step, s': State, exec: Id) {
    if exec !in s'.db.executions then exec !in s.db.executions
    else if exec !in s.db.executions then
      && t.RecordTool? && IsDriving(s, t.q) && s.actors[t.q].at.Ran? && s.actors[t.q].at.exec == exec
      && s'.db.executions[exec] == ExecRow(s.db.runs[s.actors[t.q].run].org, s.actors[t.q].run, s.actors[t.q].at.gated, s.actors[t.q].at.reached)
    else
      || s'.db.executions[exec] == s.db.executions[exec]
      || s'.db.executions[exec] == s.db.executions[exec].(executed := true)
  }

  /** The step takes the right to run this execution, or records that it ran. */
  predicate Raises(s: State, t: Step, exec: Id) {
    match t
    case Claim(q) => IsDeciding(s, q) && s.actors[q].exec == exec && s.actors[q].approve && s.db.executions[exec].org == s.db.approvals[s.actors[q].approval].org
    case RecordOutcome(q) => IsDeciding(s, q) && s.actors[q].exec == exec && s.actors[q].then_ == Executed(true)
    case _ => false
  }

  /** An execution's row is written by the request that ran the tool, and its flag goes up, once and for good. */
  lemma ExecutionsMove(states: seq<State>, steps: seq<Step>, i: nat, exec: Id)
    requires History(false, states, steps) && i < |steps|
    ensures ExecutionMoved(states[i], steps[i], states[i + 1], exec)
    ensures exec in states[i].db.executions ==>
              (states[i + 1].db.executions[exec].executed <==> states[i].db.executions[exec].executed || Raises(states[i], steps[i], exec))
  {
    assert Next(false, states[i], steps[i], states[i + 1]);
  }

  // -- Requests ----------------------------------------------------------------------------------------

  /** What a request that drives a run does next. */
  predicate Follows(at: DrivePc, at': DrivePc) {
    match at
    case Created => at' == Looping
    case Looping => at' == Called
    case Called => at' == Chosen
    case Chosen => at' == Answered || at'.Ran?
    case Ran(exec, _, asks, _) => at' == Told(exec, asks)
    case Told(exec, asks) => at' == if asks then Asking(exec) else Performing
    case Asking(_) => at'.Pausing?
    case Performing => at' == Looping
    case Resumed => at' == Looping
    case Answered => false
    case Pausing(_) => false
  }

  predicate FollowsDeciding(then_: DecidePc, then_': DecidePc) {
    match then_
    case Won => then_' == Checked
    case Checked => then_' == Claimed
    case Claimed => then_'.Executed?
    case Executed(_) => then_' == Recorded
    case Recorded => false
  }

  predicate DrivenOn(s: State, t: Step, s': State, run: Id, at: DrivePc, at': DrivePc) {
    && Follows(at, at')
    && (at'.Ran? ==> t.RunTool? && at' == Ran(t.exec, t.gated, t.asks, t.reached))
    && (at.Asking? ==> at'.approval !in s.db.approvals && at'.approval in s'.db.approvals
                       && s'.db.approvals[at'.approval].runId == Some(run) && s'.db.approvals[at'.approval].executionId == Some(at.exec))
  }

  predicate RequestMoved(s: State, t: Step, s': State, q: Id)
    requires q in s.actors && q in s'.actors
  {
    match (s.actors[q], s'.actors[q])
    case (Driving(run, at), Driving(run', at')) => run' == run && DrivenOn(s, t, s', run, at, at')
    case (Deciding(approval, run, exec, approve, then_), Deciding(approval', run', exec', approve', then_')) =>
      && approval' == approval && run' == run && exec' == exec && approve' == approve && FollowsDeciding(then_, then_')
      && (then_'.Checked? ==> run in s.db.runs && s.db.runs[run].status == AwaitingApproval)
      && (then_'.Claimed? && approve ==> exec in s.db.executions && !s.db.executions[exec].executed)
      && (then_'.Executed? ==> t.Execute? && then_'.outcomeReached == t.reached)
    case (Deciding(_, run, _, _, then_), Driving(run', at)) => then_ == Recorded && run' == run && at == Resumed
    case (Refused(approval, now, why), Refused(approval', now', why')) =>
      && approval' == approval && now' == now && why == Refreshing && why' == Lapsing
      && approval in s.db.approvals && s.db.approvals[approval].status == ApprovalStatus.Pending
    case _ => false
  }

  /** A request arrives to start a run, or to decide an approval and be the one that does, or not. */
  predicate MayArrive(s: State, t: Step, a: Actor) {
    match t
    case CreateRun(_, run, _) => a == Driving(run, Created)
    case Decide(_, approval, approve, _, _, _) =>
      && a.Deciding? && a.approval == approval && a.approve == approve && a.then_ == Won && approval in s.db.approvals
      && s.db.approvals[approval].runId == Some(a.run) && s.db.approvals[approval].executionId == Some(a.exec)
    case DecideLost(_, approval, now) => a == Refused(approval, now, Refreshing)
    case _ => false
  }

  /** How a request ends: it vanished, or it has nothing left to do. */
  predicate MayLeave(s: State, t: Step, q: Id)
    requires q in s.actors
  {
    || t == Vanish(q)
    || match s.actors[q]
       case Driving(_, at) =>
         || (t == Pause(q) && at.Pausing?)
         || (t.Finish? && (t.status == Completed ==> at.Answered?) && (t.status == Failed <==> t.errorCode.Some?))
       case Deciding(approval, run, exec, approve, then_) =>
         && run in s.db.runs && exec in s.db.executions && approval in s.db.approvals
         && (|| (then_ == Won && s.db.runs[run].status != AwaitingApproval)
             || (then_ == Checked && approve
                 && (s.db.executions[exec].executed || s.db.executions[exec].org != s.db.approvals[approval].org)))
       case Refused(approval, _, why) =>
         why == Lapsing || (approval in s.db.approvals && s.db.approvals[approval].status != ApprovalStatus.Pending)
  }

  predicate TakenBy(t: Step, q: Id) {
    !Sweeps(t) && t.q == q
  }

  ghost predicate RequestStep(s: State, t: Step, s': State, q: Id) {
    match (q in s.actors, q in s'.actors)
    case (true, true) => if TakenBy(t, q) then RequestMoved(s, t, s', q) else s'.actors[q] == s.actors[q]
    case (true, false) => TakenBy(t, q) && MayLeave(s, t, q)
    case (false, true) => TakenBy(t, q) && MayArrive(s, t, s'.actors[q])
    case (false, false) => true
  }

  /** The steps of a driver up to a tool's coming back. */
  predicate Thinks(t: Step) {
    t.CreateRun? || t.Begin? || t.CallModel? || t.RecordStep? || t.StoreAnswer? || t.RunTool?
  }

  lemma ThinkersMove(s: State, t: Step, q: Id)
    requires Enabled(false, s, t) && Thinks(t)
    ensures RequestStep(s, t, Do(s, t), q)
  {
  }

  lemma DriversMove(s: State, t: Step, q: Id)
    requires Enabled(false, s, t) && ByDriver(t) && !Thinks(t)
    ensures RequestStep(s, t, Do(s, t), q)
  {
  }

  lemma DecidersMove(s: State, t: Step, q: Id)
    requires Enabled(false, s, t) && CarriesOut(t)
    ensures RequestStep(s, t, Do(s, t), q)
  {
  }

  lemma AnswerersMove(s: State, t: Step, q: Id)
    requires Enabled(false, s, t) && Answers(t)
    ensures RequestStep(s, t, Do(s, t), q)
  {
  }

  lemma SweepersMoveNobody(s: State, t: Step, q: Id)
    requires Enabled(false, s, t) && Sweeps(t)
    ensures RequestStep(s, t, Do(s, t), q)
  {
  }

  /** Each request does one thing after another, in the order of the code, and about one run; nobody moves another's. */
  lemma RequestsMove(states: seq<State>, steps: seq<Step>, i: nat, q: Id)
    requires History(false, states, steps) && i < |steps|
    ensures RequestStep(states[i], steps[i], states[i + 1], q)
  {
    assert Next(false, states[i], steps[i], states[i + 1]);
    hide Do, Enabled, RequestStep;
    if Thinks(steps[i]) {
      ThinkersMove(states[i], steps[i], q);
    } else if ByDriver(steps[i]) {
      DriversMove(states[i], steps[i], q);
    } else if CarriesOut(steps[i]) {
      DecidersMove(states[i], steps[i], q);
    } else if Answers(steps[i]) {
      AnswerersMove(states[i], steps[i], q);
    } else {
      SweepersMoveNobody(states[i], steps[i], q);
    }
  }

  // -- The log -----------------------------------------------------------------------------------------

  /** What a step shows the outside world, if anything. */
  ghost predicate Shows(s: State, t: Step, e: Event) {
    match e
    case ModelCall(run) => t.CallModel? && IsDriving(s, t.q) && s.actors[t.q].run == run
    case ToolBody(run, exec, grantedBy) =>
      || (t.RunTool? && t.entered && !t.gated && t.exec == exec && grantedBy.None? && IsDriving(s, t.q) && s.actors[t.q].run == run)
      || (t.Execute? && t.entered && IsDeciding(s, t.q) && s.actors[t.q].exec == exec && s.actors[t.q].run == run
          && grantedBy == if s.actors[t.q].approve then Some(s.actors[t.q].approval) else None)
    case TurnStored(run) => (t.StoreAnswer? || t.StoreRequest? || t.StoreResult?) && IsDriving(s, t.q) && s.actors[t.q].run == run
    case StateWritten(run) =>
      TakenFor(s, t, run) || (t.RecordStep? && IsDriving(s, t.q) && s.actors[t.q].run == run)
    case DecisionWon(approval) => t.Decide? && t.approval == approval
    case DecisionRefused(approval, _) => (t.Refresh? || t.Lapse?) && IsRefused(s, t.q) && s.actors[t.q].approval == approval
    case ClaimRefused(approval) =>
      && t.Claim? && IsDeciding(s, t.q) && s.actors[t.q].approval == approval && s.actors[t.q].approve
      && (s.db.executions[s.actors[t.q].exec].executed || s.db.executions[s.actors[t.q].exec].org != s.db.approvals[approval].org)
  }

  /** A step that shows something appends it, and only it; a refusal still to be explained shows nothing yet. */
  ghost predicate LogStep(s: State, t: Step, s': State) {
    || (exists e :: s'.log == s.log + [e] && Shows(s, t, e))
    || (s'.log == s.log
        && forall e | Shows(s, t, e) ::
             e.DecisionRefused? && t.Refresh? && s.db.approvals[e.approval].status == ApprovalStatus.Pending)
  }

  lemma DriversAreLogged(s: State, t: Step)
    requires Enabled(false, s, t) && ByDriver(t)
    ensures LogStep(s, t, Do(s, t))
  {
    var log, log' := s.log, Do(s, t).log;
    if log' != log { assert log' == log + [log'[|log|]]; }
  }

  lemma OthersAreLogged(s: State, t: Step)
    requires Enabled(false, s, t) && !ByDriver(t)
    ensures LogStep(s, t, Do(s, t))
  {
    var log, log' := s.log, Do(s, t).log;
    if log' != log { assert log' == log + [log'[|log|]]; }
  }

  /** The log says what happened, no more and no less. */
  lemma TheLogIsWhatHappened(states: seq<State>, steps: seq<Step>, i: nat)
    requires History(false, states, steps) && i < |steps|
    ensures LogStep(states[i], steps[i], states[i + 1])
  {
    assert Next(false, states[i], steps[i], states[i + 1]);
    hide Do, Enabled, LogStep;
    if ByDriver(steps[i]) { DriversAreLogged(states[i], steps[i]); } else { OthersAreLogged(states[i], steps[i]); }
  }
}
