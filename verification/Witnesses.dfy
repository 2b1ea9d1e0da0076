/**
 Histories that do happen: the gated tool is reached, and three things the protocol does not
 promise really fail.
 */
module Witnesses {
  import opened Lifecycle
  import opened Rows
  import opened Protocol
  import opened SingleDriver
  import opened Guarantees
  import AtMostOnce

  ghost predicate Reachable(s: State) {
    exists states, steps :: History(false, states, steps) && states[|steps|] == s
  }

  lemma StepReaches(s: State, t: Step)
    requires Reachable(s) && Enabled(false, s, t)
    ensures Reachable(Do(s, t))
  {
    var states, steps :| History(false, states, steps) && states[|steps|] == s;
    var states', steps' := states + [Do(s, t)], steps + [t];
    forall i | 0 <= i < |steps'| ensures Next(false, states'[i], steps'[i], states'[i + 1]) {
      if i < |steps| {
        assert Next(false, states[i], steps[i], states[i + 1]);
        assert states'[i] == states[i] && states'[i + 1] == states[i + 1];
      }
    }
    assert states'[|steps'|] == Do(s, t);
  }

  lemma StartReaches()
    ensures Reachable(EMPTY)
  {
    var states: seq<State>, steps: seq<Step> := [EMPTY], [];
    assert History(false, states, steps) && states[|steps|] == EMPTY;
  }

  /** Organization 1 starts a run and its model is called. */
  lemma RunCalled(s: State, q: Id, run: Id) returns (s': State)
    requires Reachable(s) && q !in s.actors && run !in s.db.runs
    ensures Reachable(s')
    ensures s'.actors == s.actors[q := Driving(run, Chosen)]
    ensures s'.db == s.db.(runs := s.db.runs[run := RunRow(1, Running, None)]) && s'.issued == s.issued
  {
    hide Reachable;
    var s1 := Do(s, CreateRun(q, run, 1));
    StepReaches(s, CreateRun(q, run, 1));
    var s2 := Do(s1, Begin(q));
    StepReaches(s1, Begin(q));
    var s3 := Do(s2, CallModel(q));
    StepReaches(s2, CallModel(q));
    s' := Do(s3, RecordStep(q));
    StepReaches(s3, RecordStep(q));
  }

  /** ... and its gated tool is stopped for a decision, with a row of its own. */
  lemma RunStopped(s: State, q: Id, run: Id, exec: Id) returns (s': State)
    requires Reachable(s) && IsDriving(s, q) && s.actors[q] == Driving(run, Chosen) && s.db.runs[run].org == 1
    requires exec !in s.issued && exec !in s.db.executions
    ensures Reachable(s')
    ensures s'.actors == s.actors[q := Driving(run, Told(exec, true))] && s'.issued == s.issued + {exec}
    ensures s'.db == s.db.(executions := s.db.executions[exec := ExecRow(1, run, true, false)])
  {
    hide Reachable;
    var tool := RunTool(q, exec, true, false, true, false);
    var s1 := Do(s, tool);
    StepReaches(s, tool);
    s' := Do(s1, RecordTool(q));
    StepReaches(s1, RecordTool(q));
  }

  /** ... and asks a person about it, until instant 10. */
  lemma RunAsked(s: State, q: Id, run: Id, exec: Id, approval: Id) returns (s': State)
    requires Reachable(s) && q !in s.actors && run !in s.db.runs
    requires exec !in s.issued && exec !in s.db.executions && approval !in s.db.approvals
    ensures Reachable(s')
    ensures s'.actors == s.actors[q := Driving(run, Pausing(approval))] && s'.issued == s.issued + {exec}
    ensures s'.db == Db(s.db.runs[run := RunRow(1, Running, None)],
                        s.db.executions[exec := ExecRow(1, run, true, false)],
                        s.db.approvals[approval := Question(run, exec)])
  {
    hide Reachable;
    var s1 := RunCalled(s, q, run);
    var s2 := RunStopped(s1, q, run, exec);
    var s3 := Do(s2, StoreRequest(q));
    StepReaches(s2, StoreRequest(q));
    s' := Do(s3, AskApproval(q, approval, 0, Some(10), None));
    StepReaches(s3, AskApproval(q, approval, 0, Some(10), None));
  }

  function Question(run: Id, exec: Id): Approval {
    Approval(1, Some(run), Some(exec), None, None, None, 0, Some(10), ApprovalStatus.Pending, None, None, None)
  }

  /** Somebody approves it at instant 5, while it can still be decided. */
  lemma Approving(s: State, q: Id, a: Id) returns (s': State)
    requires Reachable(s) && q !in s.actors && a in s.db.approvals
    requires s.db.approvals[a].runId.Some? && s.db.approvals[a].executionId.Some?
    requires Decidable(s.db.approvals, s.db.approvals[a].org, a, 5)
    ensures Reachable(s')
    ensures s'.actors == s.actors[q := Deciding(a, s.db.approvals[a].runId.value, s.db.approvals[a].executionId.value, true, Won)]
    ensures s'.db.runs == s.db.runs && s'.db.executions == s.db.executions
    ensures s'.db.approvals == s.db.approvals[a := Decided(s.db.approvals[a], Approved, 9, None, 5)]
  {
    hide Reachable;
    var decide := Decide(q, a, true, 9, None, 5);
    s' := Do(s, decide);
    StepReaches(s, decide);
  }

  lemma Parking(s: State, q: Id) returns (s': State)
    requires Reachable(s) && IsDriving(s, q) && s.actors[q].at.Pausing?
    ensures Reachable(s') && s'.actors == s.actors - {q}
    ensures s'.db == WriteState(s.db, s.actors[q].run, AwaitingApproval, None)
  {
    hide Reachable;
    s' := Do(s, Pause(q));
    StepReaches(s, Pause(q));
  }

  /** The approved request finds the run waiting and takes the claim. */
  lemma Claiming(s: State, q: Id) returns (s': State)
    requires Reachable(s) && IsDeciding(s, q) && s.actors[q].then_.Won? && s.actors[q].approve
    requires s.db.runs[s.actors[q].run].status == AwaitingApproval
    requires Claimable(s.db.executions, s.db.approvals[s.actors[q].approval].org, s.actors[q].exec)
    ensures Reachable(s') && IsDeciding(s', q) && s'.actors[q] == s.actors[q].(then_ := Claimed)
    ensures s'.db.executions[s.actors[q].exec].requiresApproval == s.db.executions[s.actors[q].exec].requiresApproval
  {
    hide Reachable;
    var s1 := Do(s, ReadRun(q));
    StepReaches(s, ReadRun(q));
    s' := Do(s1, Claim(q));
    StepReaches(s1, Claim(q));
  }

  lemma Entering(s: State, q: Id) returns (s': State)
    requires Reachable(s) && IsDeciding(s, q) && s.actors[q].then_.Claimed? && s.actors[q].approve
    ensures Reachable(s') && s'.db == s.db && Entries(s'.log, s.actors[q].exec) >= 1
  {
    hide Reachable;
    s' := Do(s, Execute(q, true, true));
    StepReaches(s, Execute(q, true, true));
    assert s'.log[..|s'.log| - 1] == s.log;
  }

  /** The guarantee is not empty: an approved execution is entered. */
  lemma GatedToolIsReached()
    ensures exists s, exec :: Reachable(s) && AtMostOnce.IsGated(s, exec) && Entries(s.log, exec) == 1
  {
    StartReaches();
    var s := RunAsked(EMPTY, 0, 0, 0, 0);
    s := Parking(s, 0);
    s := Approving(s, 1, 0);
    s := Claiming(s, 1);
    s := Entering(s, 1);
    var states, steps :| History(false, states, steps) && states[|steps|] == s;
    BodyEnteredAtMostOnce(false, states, steps, |steps|, 0);
    assert AtMostOnce.IsGated(s, 0);
  }

  /** A question can be open while its run is still RUNNING: the two are separate commits. */
  lemma OpenBeforeThePause()
    ensures exists s, a, run :: Reachable(s) && a in s.db.approvals && run in s.db.runs
                                && Waits(s.db.approvals[a], run) && s.db.runs[run].status == Running
  {
    StartReaches();
    var s := RunAsked(EMPTY, 0, 0, 0, 0);
    assert Waits(s.db.approvals[0], 0);
  }

  /** A run can be durably waiting with nothing left to answer: the decision came before the pause. */
  lemma WaitingOnNothing()
    ensures exists s, run :: Reachable(s) && run in s.db.runs && s.db.runs[run].status == AwaitingApproval
                             && Unattended(s, run)
                             && forall a | a in s.db.approvals :: !Waits(s.db.approvals[a], run)
  {
    StartReaches();
    var s := RunAsked(EMPTY, 0, 0, 0, 0);
    s := Approving(s, 1, 0);
    var s' := Do(s, ReadRun(1));
    StepReaches(s, ReadRun(1));
    s' := Parking(s', 0);
    assert Unattended(s', 0);
  }

  /** The model answered, and the answer is stored; the run is not closed yet. */
  lemma RunAnswered(s: State, q: Id, run: Id) returns (s': State)
    requires Reachable(s) && q !in s.actors && run !in s.db.runs
    ensures Reachable(s') && s'.actors == s.actors[q := Driving(run, Answered)]
    ensures s'.db == s.db.(runs := s.db.runs[run := RunRow(1, Running, None)])
  {
    hide Reachable;
    var s1 := RunCalled(s, q, run);
    s' := Do(s1, StoreAnswer(q));
    StepReaches(s1, StoreAnswer(q));
  }

  /** A driver closes its run over whatever the row says by then. */
  lemma ClosingOver(s: State, q: Id)
    requires IsDriving(s, q) && s.actors[q].at.Answered?
    ensures Enabled(false, s, Finish(q, Completed, None))
    ensures Do(s, Finish(q, Completed, None)).db == WriteState(s.db, s.actors[q].run, Completed, None)
  {
  }

  /** A terminal row can move: the sweep judges by age, and a slow driver writes over all but its code. */
  lemma TerminalRowsCanMove()
    ensures exists s, t, run :: Reachable(s) && Enabled(false, s, t) && run in s.db.runs && run in Do(s, t).db.runs
                                && Terminal(s.db.runs[run].status)
                                && Do(s, t).db.runs[run] == RunRow(1, Completed, Some(ABANDONED_ERROR_CODE))
  {
    StartReaches();
    var s1 := RunAnswered(EMPTY, 0, 0);
    var sweep := SweepAbandoned(1, {0});
    var s2 := Do(s1, sweep);
    StepReaches(s1, sweep);
    assert s2.db.runs[0] == RunRow(1, AgentRunStatus.Failed, Some(ABANDONED_ERROR_CODE));
    hide Reachable, Do, Enabled;
    ClosingOver(s2, 0);
    assert Terminal(s2.db.runs[0].status);
  }

  /** A request arrives after the deadline, loses to the clock, and reads the row back as PENDING. */
  lemma LosingToTheClock(s: State, q: Id, a: Id, now: Instant) returns (s': State)
    requires Reachable(s) && q !in s.actors && a in s.db.approvals
    requires s.db.approvals[a].status == ApprovalStatus.Pending && Overdue(s.db.approvals[a], now)
    ensures Reachable(s') && s'.db == s.db && s'.actors == s.actors[q := Refused(a, now, Lapsing)]
  {
    hide Reachable;
    var lost := DecideLost(q, a, now);
    var s1 := Do(s, lost);
    StepReaches(s, lost);
    s' := Do(s1, Refresh(q));
    StepReaches(s1, Refresh(q));
  }

  lemma LapsingAnother(s: State, q: Id, b: Id)
    requires IsRefused(s, q) && s.actors[q].why.Lapsing? && b in s.db.approvals
    requires s.db.approvals[s.actors[q].approval].status == Approved
    requires Lapses(s.db.approvals[b], s.db.approvals[s.actors[q].approval].org, s.actors[q].now)
    ensures Enabled(false, s, Lapse(q))
    ensures Do(s, Lapse(q)).log == s.log + [DecisionRefused(s.actors[q].approval, true)]
    ensures Do(s, Lapse(q)).db.approvals[s.actors[q].approval].status == Approved
  {
    assert b in LapsedIds(s.db.approvals, s.db.approvals[s.actors[q].approval].org, s.actors[q].now);
  }

  /**
   A refusal can say 410 about an approval somebody approved: the count it goes by is the
   organization's, and another approval lapsed in the same sweep.
   */
  lemma RefusalCanMislead()
    ensures exists s, q, a :: Reachable(s) && Enabled(false, s, Lapse(q)) && s.actors[q].approval == a
                              && Do(s, Lapse(q)).log == s.log + [DecisionRefused(a, true)]
                              && Do(s, Lapse(q)).db.approvals[a].status == Approved
  {
    StartReaches();
    var s := RunAsked(EMPTY, 0, 0, 0, 0);
    s := RunAsked(s, 1, 1, 1, 1);
    s := LosingToTheClock(s, 2, 0, 20);
    s := Approving(s, 3, 0);
    LapsingAnother(s, 2, 1);
  }
}
