/** What the protocol guarantees, over every history it can produce. */
module Guarantees {
  import opened Lifecycle
  import opened Rows
  import opened Protocol
  import AtMostOnce
  import opened SingleDriver
  import opened Decisions

  lemma {:induction false} SafeAlways(weak: bool, states: seq<State>, steps: seq<Step>, i: nat)
    requires History(weak, states, steps) && i < |states|
    ensures AtMostOnce.Safe(states[i])
  {
    if i > 0 {
      SafeAlways(weak, states, steps, i - 1);
      assert Next(weak, states[i - 1], steps[i - 1], states[i]);
      AtMostOnce.StepKeepsSafe(states[i - 1], steps[i - 1]);
    }
  }

  lemma {:induction false} InvAlways(states: seq<State>, steps: seq<Step>, i: nat)
    requires History(false, states, steps) && i < |states|
    ensures Inv(states[i])
  {
    if i > 0 {
      InvAlways(states, steps, i - 1);
      assert Next(false, states[i - 1], steps[i - 1], states[i]);
      StepKeepsInv(states[i - 1], steps[i - 1]);
    }
  }

  // -- One execution ------------------------------------------------------------------

  /** How often the body of one execution was entered. */
  function Entries(log: seq<Event>, exec: Id): nat {
    if log == [] then 0
    else Entries(log[..|log| - 1], exec) + (if AtMostOnce.Body(log[|log| - 1], exec) then 1 else 0)
  }

  lemma {:induction false} EntriesAtMostOne(log: seq<Event>, exec: Id)
    requires forall i, j | 0 <= i < j < |log| && AtMostOnce.Body(log[i], exec) :: !AtMostOnce.Body(log[j], exec)
    ensures Entries(log, exec) <= 1
    ensures Entries(log, exec) == 1 ==> exists i :: 0 <= i < |log| && AtMostOnce.Body(log[i], exec)
    ensures Entries(log, exec) == 0 ==> forall i | 0 <= i < |log| :: !AtMostOnce.Body(log[i], exec)
  {
    if log != [] {
      var front := log[..|log| - 1];
      assert forall i | 0 <= i < |front| :: front[i] == log[i];
      EntriesAtMostOne(front, exec);
    }
  }

  /**
   In every history, with or without the guard of `decide`: a tool body is entered at most once
   per execution, and a gated one only with a grant and after `executed` was raised.
   */
  lemma BodyEnteredAtMostOnce(weak: bool, states: seq<State>, steps: seq<Step>, i: nat, exec: Id)
    requires History(weak, states, steps) && i < |states|
    ensures Entries(states[i].log, exec) <= 1
    ensures AtMostOnce.IsGated(states[i], exec) && Entries(states[i].log, exec) == 1 ==>
              states[i].db.executions[exec].executed
  {
    SafeAlways(weak, states, steps, i);
    EntriesAtMostOne(states[i].log, exec);
    if AtMostOnce.IsGated(states[i], exec) && Entries(states[i].log, exec) == 1 {
      var k :| 0 <= k < |states[i].log| && AtMostOnce.Body(states[i].log[k], exec);
      assert AtMostOnce.MarkedEvent(states[i], states[i].log[k]);
    }
  }

  /** The step enters the body of a gated execution. */
  predicate EntersGated(s: State, t: Step, s': State, exec: Id) {
    && |s'.log| == |s.log| + 1 && AtMostOnce.Body(s'.log[|s.log|], exec)
    && exec in s'.db.executions && s'.db.executions[exec].requiresApproval
  }

  ghost predicate Agreed(s: State, exec: Id) {
    && exec in s.db.executions && s.db.executions[exec].executed
    && exists a :: a in s.db.approvals && About(s.db.approvals[a], exec) && s.db.approvals[a].status == Approved
  }

  /** Only a request holding an approved decision enters a gated body. */
  lemma EnteringIsAgreed(s: State, t: Step, exec: Id)
    requires Inv(s) && Enabled(false, s, t) && EntersGated(s, t, Do(s, t), exec)
    requires AtMostOnce.MarkedEvent(Do(s, t), Do(s, t).log[|s.log|])
    ensures Agreed(s, exec)
  {
    assert LinkedActor(s, s.actors[t.q]) && ClaimedActor(s, s.actors[t.q]);
  }

  lemma EntryIsTheFirst(log: seq<Event>, log': seq<Event>, exec: Id)
    requires |log| < |log'| && log'[..|log|] == log && AtMostOnce.Body(log'[|log|], exec)
    requires forall i, j | 0 <= i < j < |log'| && AtMostOnce.Body(log'[i], exec) :: !AtMostOnce.Body(log'[j], exec)
    ensures Entries(log, exec) == 0
  {
    assert forall k | 0 <= k < |log| :: log'[k] == log[k];
    EntriesAtMostOne(log, exec);
  }

  /** At the moment a gated body is entered its approval says APPROVED and the claim is taken. */
  lemma GatedBodyWasAgreedTo(states: seq<State>, steps: seq<Step>, i: nat, exec: Id)
    requires History(false, states, steps) && i < |steps|
    requires EntersGated(states[i], steps[i], states[i + 1], exec)
    ensures Agreed(states[i], exec) && Entries(states[i].log, exec) == 0
  {
    var s, t, s' := states[i], steps[i], states[i + 1];
    assert Next(false, s, t, s');
    InvAlways(states, steps, i);
    SafeAlways(false, states, steps, i + 1);
    EnteringIsAgreed(s, t, exec);
    StepAppends(s, t);
    EntryIsTheFirst(s.log, s'.log, exec);
  }

  /** Under the real `decide`, the branch for a lost claim is never taken. */
  lemma ClaimNeverRefused(states: seq<State>, steps: seq<Step>, i: nat, k: nat)
    requires History(false, states, steps) && i < |states| && k < |states[i].log|
    ensures !states[i].log[k].ClaimRefused?
  {
    InvAlways(states, steps, i);
    assert Vouched(states[i], states[i].log[k]);
  }

  // -- One driver ---------------------------------------------------------------------

  ghost predicate Unattended(s: State, run: Id) {
    forall q | q in s.actors && !s.actors[q].Refused? :: s.actors[q].run != run
  }

  /** Somebody is being asked about the run. */
  ghost predicate Asked(s: State, run: Id) {
    exists a :: a in s.db.approvals && Waits(s.db.approvals[a], run)
  }

  /** A run that is durably waiting on an open question is in nobody's hands. */
  lemma WaitingIsUnattended(states: seq<State>, steps: seq<Step>, i: nat, run: Id, a: Id)
    requires History(false, states, steps) && i < |states|
    requires run in states[i].db.runs && states[i].db.runs[run].status == AwaitingApproval
    requires a in states[i].db.approvals && Waits(states[i].db.approvals[a], run)
    ensures Unattended(states[i], run)
  {
    InvAlways(states, steps, i);
    var s := states[i];
    assert forall q | q in s.actors :: ParkedActor(s.db.runs, s.actors[q]);
  }

  /** At most one request advances a run, and nobody else is on the way to. */
  lemma OneRequestPerRun(states: seq<State>, steps: seq<Step>, i: nat, q: Id, q': Id)
    requires History(false, states, steps) && i < |states|
    requires q in states[i].actors && q' in states[i].actors
    requires Busy(states[i].actors[q]) && Busy(states[i].actors[q'])
    requires states[i].actors[q].run == states[i].actors[q'].run
    ensures q == q'
  {
    InvAlways(states, steps, i);
  }

  // -- Finality -----------------------------------------------------------------------

  predicate Concerns(e: Event, run: Id) {
    match e
    case ModelCall(r) => r == run
    case ToolBody(r, _, _) => r == run
    case TurnStored(r) => r == run
    case StateWritten(r) => r == run
    case _ => false
  }

  ghost predicate Driven(s: State, run: Id) {
    exists q :: q in s.actors && s.actors[q].Driving? && s.actors[q].run == run
  }

  /** Over, and no request is driving it; what may still be open about it makes no difference. */
  ghost predicate Dead(s: State, run: Id) {
    run in s.db.runs && Terminal(s.db.runs[run].status) && !Driven(s, run)
  }

  /** The step is a cancellation or an expiry, and it moved this run. */
  predicate Ends(s: State, t: Step, s': State, run: Id) {
    && (t.Cancel? || t.Expire? || t.Lapse?)
    && run in s.db.runs && run in s'.db.runs && s'.db.runs[run] != s.db.runs[run]
  }

  lemma ExpiryClosesTheQuestion(s: State, org: Id, now: Instant, run: Id)
    requires Inv(s) && run in s.db.runs && ExpireDb(s.db, org, now).runs[run] != s.db.runs[run]
    ensures s.db.runs[run].status == AwaitingApproval && ExpireDb(s.db, org, now).runs[run].status == Failed
    ensures Unattended(s, run)
    ensures var rows := ExpireDb(s.db, org, now).approvals;
            forall a | a in rows :: !Waits(rows[a], run)
  {
    var id :| id in LapsedIds(s.db.approvals, org, now) && s.db.approvals[id].runId == Some(run);
    assert forall q | q in s.actors :: ParkedActor(s.db.runs, s.actors[q]);
    assert Waits(s.db.approvals[id], run);
  }

  lemma CancelClosesTheQuestion(s: State, run: Id, r: Id)
    requires Inv(s) && run in s.db.runs && r in s.db.runs && CancelDb(s.db, r).runs[run] != s.db.runs[run]
    ensures r == run && s.db.runs[run].status == AwaitingApproval
    ensures CancelDb(s.db, r).runs[run].status == AgentRunStatus.Cancelled && Unattended(s, run)
    ensures var rows := CancelDb(s.db, r).approvals;
            forall a | a in rows :: !Waits(rows[a], run)
  {
    var id :| id in WithdrawnIds(s.db.approvals, s.db.runs[run].org, AgentRun(run));
    assert forall q | q in s.actors :: ParkedActor(s.db.runs, s.actors[q]);
    assert Waits(s.db.approvals[id], run);
    assert forall a | a in s.db.approvals :: LinkedApproval(s, s.db.approvals[a]);
  }

  lemma EndingKills(s: State, t: Step, run: Id)
    requires Inv(s) && Enabled(false, s, t) && Ends(s, t, Do(s, t), run)
    ensures s.db.runs[run].status == AwaitingApproval && Unattended(s, run)
    ensures Dead(Do(s, t), run) && !Asked(Do(s, t), run)
  {
    if t.Cancel? { CancelClosesTheQuestion(s, run, t.run); }
    else if t.Expire? { ExpiryClosesTheQuestion(s, t.org, t.now, run); }
    else { ExpiryClosesTheQuestion(s, s.db.approvals[s.actors[t.q].approval].org, s.actors[t.q].now, run); }
  }

  /** Whatever a step says about a run, the request that moves is busy with it. */
  lemma OnlyTheBusySpeak(s: State, t: Step, run: Id)
    requires Enabled(false, s, t)
    ensures Do(s, t).log == s.log
            || (|Do(s, t).log| == |s.log| + 1 && Do(s, t).log[..|s.log|] == s.log
                && (Concerns(Do(s, t).log[|s.log|], run) ==>
                      Mover(t).Some? && t.q in s.actors && Busy(s.actors[t.q]) && s.actors[t.q].run == run))
  {
  }

  /** A terminal row moves only by a request busy with its run, and only such a request comes to drive it. */
  lemma OnlyTheBusyWrite(s: State, t: Step, run: Id)
    requires Enabled(false, s, t) && Dead(s, run)
    ensures run in Do(s, t).db.runs
    ensures (Do(s, t).db.runs[run] == s.db.runs[run] && !Driven(Do(s, t), run))
            || (Mover(t).Some? && t.q in s.actors && Busy(s.actors[t.q]) && s.actors[t.q].run == run)
  {
  }

  lemma NobodyIsBusyWithTheDead(s: State, run: Id, q: Id)
    requires Parked(s) && Dead(s, run) && q in s.actors && Busy(s.actors[q])
    ensures s.actors[q].run != run
  {
    assert ParkedActor(s.db.runs, s.actors[q]);
  }

  /** Nothing new in the log is about the run. */
  ghost predicate Silent(log: seq<Event>, log': seq<Event>, run: Id) {
    |log| <= |log'| && log'[..|log|] == log && forall k | |log| <= k < |log'| :: !Concerns(log'[k], run)
  }

  lemma DeadStepIsSilent(s: State, t: Step, s': State, run: Id)
    requires Parked(s) && Next(false, s, t, s') && Dead(s, run)
    ensures Dead(s', run) && s'.db.runs[run] == s.db.runs[run]
    ensures Silent(s.log, s'.log, run)
  {
    OnlyTheBusyWrite(s, t, run);
    OnlyTheBusySpeak(s, t, run);
    if Mover(t).Some? && t.q in s.actors && Busy(s.actors[t.q]) { NobodyIsBusyWithTheDead(s, run, t.q); }
    hide Do, Enabled;
  }

  lemma SilenceComposes(a: seq<Event>, b: seq<Event>, c: seq<Event>, run: Id)
    requires Silent(a, b, run) && Silent(b, c, run)
    ensures Silent(a, c, run)
  {
    assert c[..|a|] == b[..|a|];
    assert forall k | |a| <= k < |b| :: c[k] == b[k];
  }

  /** A terminal run nobody is driving is final: its row never moves again, and no step speaks of it. */
  lemma {:induction false} DeadStaysDead(states: seq<State>, steps: seq<Step>, i: nat, j: nat, run: Id)
    requires History(false, states, steps) && i <= j < |states| && Dead(states[i], run)
    ensures Dead(states[j], run) && states[j].db.runs[run] == states[i].db.runs[run]
    ensures Silent(states[i].log, states[j].log, run)
    decreases j - i
  {
    if i < j {
      DeadStaysDead(states, steps, i, j - 1, run);
      InvAlways(states, steps, j - 1);
      hide Do, Enabled, Linked, Exclusive, Sound, Silent, Dead;
      DeadStepIsSilent(states[j - 1], steps[j - 1], states[j], run);
      SilenceComposes(states[i].log, states[j - 1].log, states[j].log, run);
    }
  }

  /**
   Finality. A cancellation or an expiry only ever moves a run nobody is driving, and from that
   commit on, whatever anybody does, its row stays as it is and no later step makes a model call,
   enters a tool, stores a turn or writes state for it.
   */
  lemma EndedRunsStayEnded(states: seq<State>, steps: seq<Step>, i: nat, j: nat, run: Id)
    requires History(false, states, steps) && i < |steps| && i < j < |states|
    requires Ends(states[i], steps[i], states[i + 1], run)
    ensures states[i].db.runs[run].status == AwaitingApproval && Unattended(states[i], run)
    ensures Terminal(states[i + 1].db.runs[run].status) && !Asked(states[i + 1], run)
    ensures run in states[j].db.runs && states[j].db.runs[run] == states[i + 1].db.runs[run]
    ensures Silent(states[i + 1].log, states[j].log, run)
  {
    InvAlways(states, steps, i);
    assert Next(false, states[i], steps[i], states[i + 1]);
    EndingKills(states[i], steps[i], run);
    DeadStaysDead(states, steps, i + 1, j, run);
  }

  // -- What a terminal row can still do ----------------------------------------------------

  /** The step is possible and changes the run's row. */
  ghost predicate Moves(s: State, t: Step, run: Id) {
    Enabled(false, s, t) && run in s.db.runs && run in Do(s, t).db.runs && Do(s, t).db.runs[run] != s.db.runs[run]
  }

  /** Only the abandonment sweep ends a run somebody is driving, so the row can only say FAILED. */
  ghost predicate DrivenEndsFailed(s: State) {
    forall q | q in s.actors && s.actors[q].Driving? ::
      s.actors[q].run in s.db.runs
      && (Terminal(s.db.runs[s.actors[q].run].status) ==> s.db.runs[s.actors[q].run].status == Failed)
  }

  lemma EndedByDriver(s: State, t: Step, q: Id)
    requires Enabled(false, s, t) && OneDriver(s) && DrivenEndsFailed(s) && ByDriver(t)
    requires q in Do(s, t).actors && Do(s, t).actors[q].Driving?
    ensures var r := Do(s, t).actors[q].run;
            r in Do(s, t).db.runs && (Terminal(Do(s, t).db.runs[r].status) ==> Do(s, t).db.runs[r].status == Failed)
  {
  }

  lemma EndedByDecider(s: State, t: Step, q: Id)
    requires Enabled(false, s, t) && DrivenEndsFailed(s) && (Answers(t) || CarriesOut(t))
    requires q in Do(s, t).actors && Do(s, t).actors[q].Driving?
    ensures var r := Do(s, t).actors[q].run;
            r in Do(s, t).db.runs && (Terminal(Do(s, t).db.runs[r].status) ==> Do(s, t).db.runs[r].status == Failed)
  {
  }

  lemma EndedBySweep(s: State, t: Step, q: Id)
    requires Enabled(false, s, t) && Parked(s) && DrivenEndsFailed(s) && Sweeps(t)
    requires q in Do(s, t).actors && Do(s, t).actors[q].Driving?
    ensures var r := Do(s, t).actors[q].run;
            r in Do(s, t).db.runs && (Terminal(Do(s, t).db.runs[r].status) ==> Do(s, t).db.runs[r].status == Failed)
  {
    assert ParkedActor(s.db.runs, s.actors[q]);
  }

  lemma {:induction false} DrivenEndsFailedAlways(states: seq<State>, steps: seq<Step>, i: nat)
    requires History(false, states, steps) && i < |states|
    ensures DrivenEndsFailed(states[i])
  {
    if i > 0 {
      DrivenEndsFailedAlways(states, steps, i - 1);
      InvAlways(states, steps, i - 1);
      var s, t := states[i - 1], steps[i - 1];
      assert Next(false, s, t, states[i]);
      hide Do, Enabled, Linked, Sound;
      forall q | q in states[i].actors && states[i].actors[q].Driving?
        ensures states[i].actors[q].run in states[i].db.runs
        ensures Terminal(states[i].db.runs[states[i].actors[q].run].status) ==> states[i].db.runs[states[i].actors[q].run].status == Failed
      {
        if ByDriver(t) { EndedByDriver(s, t, q); }
        else if Sweeps(t) { EndedBySweep(s, t, q); }
        else { EndedByDecider(s, t, q); }
      }
    }
  }

  /** The write a request still has before it, whichever point of the loop it is at. */
  function NextWrite(s: State, q: Id): Step
    requires IsDriving(s, q)
  {
    match s.actors[q].at
    case Created => Begin(q)
    case Answered => Finish(q, Completed, None)
    case _ =>
      var code := s.db.runs[s.actors[q].run].errorCode;
      Finish(q, Failed, Some(if code == Some("agent_run_error") then "agent_max_steps_exceeded" else "agent_run_error"))
  }

  lemma DriversCanWrite(s: State, q: Id)
    requires IsDriving(s, q) && s.db.runs[s.actors[q].run].status == Failed
    ensures Moves(s, NextWrite(s, q), s.actors[q].run)
  {
  }

  /**
   A terminal row can still move exactly while a request is driving its run: then the very next write
   of that request moves it, and otherwise no step of any history ever does.
   */
  lemma TerminalRowMovesExactlyWhileDriven(states: seq<State>, steps: seq<Step>, i: nat, run: Id)
    requires History(false, states, steps) && i < |states|
    requires run in states[i].db.runs && Terminal(states[i].db.runs[run].status)
    ensures Driven(states[i], run) <==> exists t :: Moves(states[i], t, run)
    ensures !Driven(states[i], run) ==>
              forall j | i <= j < |states| :: run in states[j].db.runs && states[j].db.runs[run] == states[i].db.runs[run]
  {
    InvAlways(states, steps, i);
    DrivenEndsFailedAlways(states, steps, i);
    hide Do, Enabled, Linked, Exclusive, Parked, Sound, Silent;
    if Driven(states[i], run) {
      var q :| q in states[i].actors && states[i].actors[q].Driving? && states[i].actors[q].run == run;
      DriversCanWrite(states[i], q);
    } else {
      forall t | Enabled(false, states[i], t) ensures !Moves(states[i], t, run) {
        DeadStepIsSilent(states[i], t, Do(states[i], t), run);
      }
      forall j | i <= j < |states| ensures run in states[j].db.runs && states[j].db.runs[run] == states[i].db.runs[run] {
        DeadStaysDead(states, steps, i, j, run);
      }
    }
  }

  // -- What a pause leaves open --------------------------------------------------------------

  /** A run that starts to wait has an open question exactly if its own was still PENDING at that commit. */
  lemma PauseLeavesAQuestionExactlyWhen(states: seq<State>, steps: seq<Step>, i: nat, q: Id)
    requires History(false, states, steps) && i < |steps| && steps[i] == Pause(q)
    requires IsDriving(states[i], q) && states[i].actors[q].at.Pausing?
    ensures states[i].actors[q].at.approval in states[i].db.approvals
    ensures Asked(states[i + 1], states[i].actors[q].run)
            <==> states[i].db.approvals[states[i].actors[q].at.approval].status == ApprovalStatus.Pending
  {
    InvAlways(states, steps, i);
    var s, run, a := states[i], states[i].actors[q].run, states[i].actors[q].at.approval;
    assert Next(false, s, steps[i], states[i + 1]);
    assert LinkedActor(s, s.actors[q]);
    assert states[i + 1].db.approvals == s.db.approvals;
    hide Do, Enabled, Sound, Parked;
    if s.db.approvals[a].status == ApprovalStatus.Pending { assert Waits(s.db.approvals[a], run); }
    if Asked(s, run) {
      var b :| b in s.db.approvals && Waits(s.db.approvals[b], run);
      assert s.actors[q].at == Pausing(b);
    }
  }

  lemma ClosingIsADecision(s: State, t: Step, run: Id, a: Id)
    requires Enabled(false, s, t) && run in s.db.runs && s.db.runs[run].status == AwaitingApproval
    requires a in s.db.approvals && Waits(s.db.approvals[a], run) && LinkedApproval(s, s.db.approvals[a])
    requires a in Do(s, t).db.approvals && !Waits(Do(s, t).db.approvals[a], run)
    ensures (t.Decide? && t.approval == a) || t.CancelWorkflow?
            || (run in Do(s, t).db.runs && Terminal(Do(s, t).db.runs[run].status))
  {
    if t.Expire? { assert a in LapsedIds(s.db.approvals, t.org, t.now); }
    if t.Lapse? { assert a in LapsedIds(s.db.approvals, s.db.approvals[s.actors[t.q].approval].org, s.actors[t.q].now); }
  }

  /**
   While a run waits, its question closes in three ways only: somebody decides it, the workflow
   around it is cancelled, or the run ends in the same commit.
   */
  lemma WaitingIsClosedOnlyBy(states: seq<State>, steps: seq<Step>, i: nat, run: Id, a: Id)
    requires History(false, states, steps) && i < |steps|
    requires run in states[i].db.runs && states[i].db.runs[run].status == AwaitingApproval
    requires a in states[i].db.approvals && Waits(states[i].db.approvals[a], run)
    ensures a in states[i + 1].db.approvals
    ensures !Waits(states[i + 1].db.approvals[a], run) ==>
              || (steps[i].Decide? && steps[i].approval == a)
              || steps[i].CancelWorkflow?
              || (run in states[i + 1].db.runs && Terminal(states[i + 1].db.runs[run].status))
  {
    InvAlways(states, steps, i);
    assert Next(false, states[i], steps[i], states[i + 1]);
    StepGrows(states[i], steps[i]);
    assert LinkedApproval(states[i], states[i].db.approvals[a]);
    hide Do, Enabled, Exclusive, Sound, Parked;
    if !Waits(states[i + 1].db.approvals[a], run) { ClosingIsADecision(states[i], steps[i], run, a); }
  }

  // -- One decision --------------------------------------------------------------------

  /** An approval that has left PENDING is frozen: its status and its decision fields. */
  lemma {:induction false} DecidedIsFrozen(states: seq<State>, steps: seq<Step>, i: nat, j: nat, a: Id)
    requires History(false, states, steps) && i <= j < |states|
    requires a in states[i].db.approvals && states[i].db.approvals[a].status != ApprovalStatus.Pending
    ensures a in states[j].db.approvals && states[j].db.approvals[a] == states[i].db.approvals[a]
    decreases j - i
  {
    if i < j {
      DecidedIsFrozen(states, steps, i, j - 1, a);
      assert Next(false, states[j - 1], steps[j - 1], states[j]);
      StepGrows(states[j - 1], steps[j - 1]);
    }
  }

  /** Every `decide` that was answered, won or refused, leaves the approval out of PENDING for good. */
  lemma AnsweredIsClosed(states: seq<State>, steps: seq<Step>, i: nat, k: nat, a: Id)
    requires History(false, states, steps) && i < |states| && k < |states[i].log|
    requires states[i].log[k] == DecisionWon(a) || (states[i].log[k].DecisionRefused? && states[i].log[k].approval == a)
    ensures a in states[i].db.approvals && states[i].db.approvals[a].status != ApprovalStatus.Pending
  {
    InvAlways(states, steps, i);
    assert Vouched(states[i], states[i].log[k]);
  }

  /** Of any number of decisions of one approval, at most one wins. */
  lemma {:induction false} OneDecisionWins(states: seq<State>, steps: seq<Step>, i: nat, k: nat, l: nat, a: Id)
    requires History(false, states, steps) && i < |states| && k < l < |states[i].log|
    ensures states[i].log[k] != DecisionWon(a) || states[i].log[l] != DecisionWon(a)
  {
    if i > 0 {
      var s, t := states[i - 1], steps[i - 1];
      assert Next(false, s, t, states[i]);
      StepAppends(s, t);
      if l < |s.log| {
        OneDecisionWins(states, steps, i - 1, k, l, a);
      } else if states[i].log[k] == DecisionWon(a) {
        AnsweredIsClosed(states, steps, i - 1, k, a);
      }
    }
  }

  /**
   The refusal re-tests the exact complement of the deadline guard. A refused request that found
   the row still PENDING can only have lost to the clock: if nobody else moves the row before the
   sweep, the sweep lapses it and the answer is 410.
   */
  lemma RefusalLapsesThePending(states: seq<State>, steps: seq<Step>, i: nat, q: Id)
    requires History(false, states, steps) && i < |steps| && steps[i] == Lapse(q) && IsRefused(states[i], q)
    ensures var a := states[i].actors[q].approval;
            && a in states[i].db.approvals && a in states[i + 1].db.approvals
            && states[i + 1].db.approvals[a].status != ApprovalStatus.Pending
            && (states[i].db.approvals[a].status == ApprovalStatus.Pending ==>
                  states[i + 1].db.approvals[a].status == Expired
                  && states[i + 1].log == states[i].log + [DecisionRefused(a, true)])
  {
    var s := states[i];
    assert Next(false, s, steps[i], states[i + 1]);
    InvAlways(states, steps, i);
    var a := s.actors[q].approval;
    assert UnusedActor(s, s.actors[q]);
    assert s.db.approvals[a].status == ApprovalStatus.Pending ==> a in LapsedIds(s.db.approvals, s.db.approvals[a].org, s.actors[q].now);
  }

  /** A refusal says "gone" of an approval exactly when its row says EXPIRED. */
  predicate AnswersTruly(s': State, a: Id, gone: bool) {
    a in s'.db.approvals && (gone <==> s'.db.approvals[a].status == Expired)
  }

  /** Some pending approval of the organization has reached its deadline. */
  ghost predicate SomethingLapses(rows: Approvals, org: Id, now: Instant) {
    exists b ::
      && b in rows && rows[b].org == org && rows[b].status == ApprovalStatus.Pending
      && rows[b].expiresAt.Some? && rows[b].expiresAt.value <= now
  }

  lemma SomethingLapsesExactlyWhenCounted(rows: Approvals, org: Id, now: Instant)
    ensures LapsedIds(rows, org, now) != {} <==> SomethingLapses(rows, org, now)
  {
    if SomethingLapses(rows, org, now) {
      var b :| b in rows && rows[b].org == org && rows[b].status == ApprovalStatus.Pending
               && rows[b].expiresAt.Some? && rows[b].expiresAt.value <= now;
      assert b in LapsedIds(rows, org, now);
    }
    if LapsedIds(rows, org, now) != {} {
      var b :| b in LapsedIds(rows, org, now);
      assert b in rows && rows[b].org == org;
    }
  }

  /**
   A refused request that refreshes the row answers what the row says, about a row nobody touches in
   that step: "expired" of an EXPIRED one, "already decided" of any other that is not PENDING; of a
   PENDING one it says nothing yet and goes on to the sweep.
   */
  lemma RefreshAnswersTheRow(states: seq<State>, steps: seq<Step>, i: nat, q: Id)
    requires History(false, states, steps) && i < |steps| && steps[i] == Refresh(q) && IsRefused(states[i], q)
    ensures var s, s', a := states[i], states[i + 1], states[i].actors[q].approval;
            && a in s.db.approvals && s'.db == s.db
            && match s.db.approvals[a].status
               case Expired => s'.log == s.log + [DecisionRefused(a, true)] && q !in s'.actors
               case Approved => s'.log == s.log + [DecisionRefused(a, false)] && q !in s'.actors
               case Rejected => s'.log == s.log + [DecisionRefused(a, false)] && q !in s'.actors
               case Cancelled => s'.log == s.log + [DecisionRefused(a, false)] && q !in s'.actors
               case Pending => s'.log == s.log && q in s'.actors && s'.actors[q] == Refused(a, s.actors[q].now, Lapsing)
  {
    assert Next(false, states[i], steps[i], states[i + 1]);
  }

  lemma LapseAnswers(states: seq<State>, steps: seq<Step>, i: nat, q: Id)
    requires History(false, states, steps) && i < |steps| && steps[i] == Lapse(q) && IsRefused(states[i], q)
    ensures var s, s', a := states[i], states[i + 1], states[i].actors[q].approval;
            && a in s.db.approvals && |s'.log| == |s.log| + 1 && s'.log[|s.log|].DecisionRefused? && s'.log[|s.log|].approval == a
            && (AnswersTruly(s', a, s'.log[|s.log|].gone) <==>
                  || s.db.approvals[a].status == ApprovalStatus.Pending
                  || (s.db.approvals[a].status == Expired <==> SomethingLapses(s.db.approvals, s.db.approvals[a].org, s.actors[q].now)))
  {
    assert Next(false, states[i], steps[i], states[i + 1]);
    SomethingLapsesExactlyWhenCounted(states[i].db.approvals, states[i].db.approvals[states[i].actors[q].approval].org, states[i].actors[q].now);
    RefusalLapsesThePending(states, steps, i, q);
    StepGrows(states[i], steps[i]);
  }

  lemma OnlyTheRefusedAreRefused(s: State, t: Step)
    requires Enabled(false, s, t) && |Do(s, t).log| > |s.log| && Do(s, t).log[|s.log|].DecisionRefused?
    ensures (t.Refresh? || t.Lapse?) && IsRefused(s, t.q) && s.actors[t.q].approval == Do(s, t).log[|s.log|].approval
  {
  }

  /**
   Of every refusal in any history: it says "expired" of an EXPIRED row and "already decided" of any
   other exactly when it was read off the row, or the row was still PENDING at the sweep, or what the
   sweep lapsed elsewhere agrees with it: the count is organization-wide.
   */
  lemma RefusalIsTrueExactlyWhen(states: seq<State>, steps: seq<Step>, i: nat, a: Id, gone: bool)
    requires History(false, states, steps) && i < |steps|
    requires |states[i + 1].log| > |states[i].log| && states[i + 1].log[|states[i].log|] == DecisionRefused(a, gone)
    ensures var s, t := states[i], steps[i];
            && (t.Refresh? || t.Lapse?) && IsRefused(s, t.q) && s.actors[t.q].approval == a && a in s.db.approvals
            && (AnswersTruly(states[i + 1], a, gone) <==>
                  || t.Refresh?
                  || s.db.approvals[a].status == ApprovalStatus.Pending
                  || (s.db.approvals[a].status == Expired <==> SomethingLapses(s.db.approvals, s.db.approvals[a].org, s.actors[t.q].now)))
  {
    var s, t := states[i], steps[i];
    assert Next(false, s, t, states[i + 1]);
    OnlyTheRefusedAreRefused(s, t);
    hide Do, Enabled, SomethingLapses;
    if t.Refresh? {
      RefreshAnswersTheRow(states, steps, i, t.q);
    } else {
      LapseAnswers(states, steps, i, t.q);
    }
  }
}
