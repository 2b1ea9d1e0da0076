/**
 What a decision is worth: the claim it leads to cannot fail, a gated body was agreed to, and an
 approval somebody tried to decide is no longer open.
 */
module Decisions {
  import opened Lifecycle
  import opened Rows
  import opened Protocol
  import opened SingleDriver

  predicate About(a: Approval, exec: Id) {
    a.executionId == Some(exec)
  }

  ghost predicate Unused(s: State, exec: Id) {
    exec in s.db.executions && !s.db.executions[exec].executed
  }

  ghost predicate NotAsked(s: State, exec: Id) {
    forall a | a in s.db.approvals :: !About(s.db.approvals[a], exec)
  }

  /** An execution a person is, or will be, asked about has not been run. */
  ghost predicate UnusedActor(s: State, a: Actor) {
    match a
    case Driving(_, Ran(_, _, asks, reached)) => asks ==> !reached
    case Driving(_, Told(exec, asks)) => asks ==> Unused(s, exec) && NotAsked(s, exec)
    case Driving(_, Asking(exec)) => Unused(s, exec) && NotAsked(s, exec)
    case Deciding(_, _, exec, true, Won) => Unused(s, exec)
    case Deciding(_, _, exec, true, Checked) => Unused(s, exec)
    case Refused(approval, now, _) =>
      approval in s.db.approvals
      && (s.db.approvals[approval].status != ApprovalStatus.Pending || Overdue(s.db.approvals[approval], now))
    case _ => true
  }

  ghost predicate UnusedApproval(s: State, a: Approval) {
    a.status == ApprovalStatus.Pending ==> a.executionId.Some? && Unused(s, a.executionId.value)
  }

  /** UNIQUE(tool_execution_id), which here follows from how approvals come to be. */
  ghost predicate OnePerExecution(s: State) {
    forall a, a' | a in s.db.approvals && a' in s.db.approvals
      && s.db.approvals[a].executionId == s.db.approvals[a'].executionId :: a == a'
  }

  /** What the log says is still true of the rows. */
  ghost predicate Vouched(s: State, e: Event) {
    match e
    case ToolBody(_, exec, Some(a)) =>
      && a in s.db.approvals && About(s.db.approvals[a], exec) && s.db.approvals[a].status == Approved
      && exec in s.db.executions && s.db.executions[exec].executed
    case DecisionWon(a) => a in s.db.approvals && s.db.approvals[a].status in {Approved, Rejected}
    case DecisionRefused(a, _) => a in s.db.approvals && s.db.approvals[a].status != ApprovalStatus.Pending
    case ClaimRefused(_) => false
    case _ => true
  }

  ghost predicate ClaimedActor(s: State, a: Actor) {
    a.Deciding? && a.approve && a.then_.Claimed? ==> a.exec in s.db.executions && s.db.executions[a.exec].executed
  }

  ghost predicate Sound(s: State) {
    && OnePerExecution(s)
    && (forall q | q in s.actors :: UnusedActor(s, s.actors[q]) && ClaimedActor(s, s.actors[q]))
    && (forall a | a in s.db.approvals :: UnusedApproval(s, s.db.approvals[a]))
    && (forall i | 0 <= i < |s.log| :: Vouched(s, s.log[i]))
  }

  ghost predicate Inv(s: State) {
    Linked(s) && Exclusive(s) && Parked(s) && Sound(s)
  }

  lemma AskingIsAboutANewExecution(s: State, t: Step, a: Id)
    requires Enabled(false, s, t) && t.AskApproval? && UnusedActor(s, s.actors[t.q])
    requires a in s.db.approvals && a != t.approval
    ensures t.approval in Do(s, t).db.approvals
    ensures Do(s, t).db.approvals[t.approval].executionId != s.db.approvals[a].executionId
  {
    assert !About(s.db.approvals[a], s.actors[t.q].at.exec);
  }

  lemma OnlyAskingAdds(s: State, t: Step)
    requires Enabled(false, s, t)
    ensures forall a | a in Do(s, t).db.approvals :: a in s.db.approvals || (t.AskApproval? && a == t.approval)
  {
  }

  lemma StepKeepsOnePerExecution(s: State, t: Step)
    requires Enabled(false, s, t) && Inv(s)
    ensures OnePerExecution(Do(s, t))
  {
    StepGrows(s, t);
    OnlyAskingAdds(s, t);
    if t.AskApproval? {
      assert t.q in s.actors && UnusedActor(s, s.actors[t.q]);
      forall a | a in s.db.approvals && a != t.approval
        ensures Do(s, t).db.approvals[t.approval].executionId != s.db.approvals[a].executionId
      {
        AskingIsAboutANewExecution(s, t, a);
      }
    }
    hide Do, Linked, Exclusive, Parked, Enabled;
  }

  // -- What one step can do to an execution ---------------------------------------------

  /** `touched` is the execution a step is about; nothing is said of any other. */
  ghost predicate OnlyTouches(s: State, s': State, touched: Option<Id>) {
    && (forall e | e in s.db.executions ::
          e in s'.db.executions && (s.db.executions[e].executed ==> s'.db.executions[e].executed)
          && (touched != Some(e) ==> s'.db.executions[e].executed == s.db.executions[e].executed))
    && (forall a | a in s'.db.approvals ::
          if a in s.db.approvals
          then s'.db.approvals[a].executionId == s.db.approvals[a].executionId
          else touched.Some? && About(s'.db.approvals[a], touched.value))
  }

  predicate Touches(t: Step) {
    t.Claim? || t.RecordOutcome? || t.AskApproval?
  }

  function TouchedExec(s: State, t: Step): Option<Id>
    requires Enabled(false, s, t)
  {
    if t.AskApproval? then Some(s.actors[t.q].at.exec)
    else if t.Claim? || t.RecordOutcome? then Some(s.actors[t.q].exec)
    else None
  }

  lemma StepTouchesItsOwn(s: State, t: Step)
    requires Enabled(false, s, t)
    ensures OnlyTouches(s, Do(s, t), TouchedExec(s, t))
  {
  }

  /** The execution an actor is counting on being unused. */
  function CountsOn(a: Actor): Option<Id> {
    match a
    case Driving(_, Told(exec, true)) => Some(exec)
    case Driving(_, Asking(exec)) => Some(exec)
    case Deciding(_, _, exec, true, Won) => Some(exec)
    case Deciding(_, _, exec, true, Checked) => Some(exec)
    case _ => None
  }

  /** Two requests never count on one execution. */
  lemma NotShared(s: State, t: Step, q: Id)
    requires Enabled(false, s, t) && Inv(s) && Touches(t) && q in s.actors && q != t.q
    ensures CountsOn(s.actors[q]).Some? ==> CountsOn(s.actors[q]) != TouchedExec(s, t)
  {
    assert LinkedActor(s, s.actors[q]) && LinkedActor(s, s.actors[t.q]);
    assert UnusedActor(s, s.actors[q]) && UnusedActor(s, s.actors[t.q]);
  }

  /** A request that is not counting on the touched execution keeps what it counts on. */
  lemma BystanderKept(s: State, s': State, a: Actor, touched: Option<Id>)
    requires UnusedActor(s, a) && ClaimedActor(s, a) && Grows(s, s') && OnlyTouches(s, s', touched)
    requires CountsOn(a).Some? ==> CountsOn(a) != touched
    ensures UnusedActor(s', a) && ClaimedActor(s', a)
  {
  }

  lemma StepKeepsBystander(s: State, t: Step, s': State, q: Id)
    requires Enabled(false, s, t) && Inv(s) && Some(q) != Mover(t) && q in s.actors
    requires Grows(s, s') && OnlyTouches(s, s', TouchedExec(s, t))
    ensures UnusedActor(s', s.actors[q]) && ClaimedActor(s', s.actors[q])
  {
    if Touches(t) { NotShared(s, t, q); }
    BystanderKept(s, s', s.actors[q], TouchedExec(s, t));
  }

  lemma StepKeepsMover(s: State, t: Step)
    requires Enabled(false, s, t) && Inv(s) && Mover(t).Some? && t.q in Do(s, t).actors
    ensures UnusedActor(Do(s, t), Do(s, t).actors[t.q]) && ClaimedActor(Do(s, t), Do(s, t).actors[t.q])
  {
    if t.q in s.actors { assert LinkedActor(s, s.actors[t.q]) && UnusedActor(s, s.actors[t.q]); }
  }

  /** Who claims or records is deciding about a run with nothing open; who asks, about an execution nobody was asked about. */
  lemma OpenIsNotTouchedBy(s: State, t: Step, a: Id)
    requires Enabled(false, s, t) && Touches(t) && OnePerExecution(s)
    requires LinkedActor(s, s.actors[t.q]) && UnusedActor(s, s.actors[t.q])
    requires a in s.db.approvals && s.db.approvals[a].status == ApprovalStatus.Pending
    ensures s.db.approvals[a].executionId != TouchedExec(s, t)
  {
    hide Decidable, Wins;
  }

  lemma TouchersAreActors(s: State, t: Step)
    requires Enabled(false, s, t) && Touches(t) && Linked(s) && Sound(s)
    ensures t.q in s.actors && LinkedActor(s, s.actors[t.q]) && UnusedActor(s, s.actors[t.q])
  {
    hide LinkedActor, UnusedActor, ClaimedActor, OnePerExecution, Vouched, UnusedApproval, LinkedApproval, Decidable, Wins;
  }

  lemma PendingIsUnused(s: State, a: Id)
    requires Sound(s) && a in s.db.approvals && s.db.approvals[a].status == ApprovalStatus.Pending
    ensures s.db.approvals[a].executionId.Some? && OnePerExecution(s)
  {
    hide UnusedActor, ClaimedActor, OnePerExecution, Vouched;
  }

  /** An open question is about an execution nobody is claiming. */
  lemma OpenIsNotTouched(s: State, t: Step, a: Id)
    requires Enabled(false, s, t) && Inv(s) && a in s.db.approvals
    requires s.db.approvals[a].status == ApprovalStatus.Pending
    ensures s.db.approvals[a].executionId.Some? && s.db.approvals[a].executionId != TouchedExec(s, t)
  {
    hide Linked, Exclusive, Parked, Sound, Enabled, LinkedActor, UnusedActor, OnePerExecution;
    PendingIsUnused(s, a);
    if Touches(t) {
      TouchersAreActors(s, t);
      OpenIsNotTouchedBy(s, t, a);
    }
  }

  lemma OldApprovalKept(s: State, t: Step, s': State, a: Id)
    requires Enabled(false, s, t) && Inv(s) && a in s.db.approvals
    requires Grows(s, s') && OnlyTouches(s, s', TouchedExec(s, t))
    ensures UnusedApproval(s', s'.db.approvals[a])
  {
    if s.db.approvals[a].status == ApprovalStatus.Pending {
      OpenIsNotTouched(s, t, a);
      assert UnusedApproval(s, s.db.approvals[a]);
    }
  }

  lemma NewApprovalUnused(s: State, t: Step, a: Id)
    requires Enabled(false, s, t) && Inv(s) && a in Do(s, t).db.approvals && a !in s.db.approvals
    ensures UnusedApproval(Do(s, t), Do(s, t).db.approvals[a])
  {
    assert UnusedActor(s, s.actors[t.q]);
  }

  // -- The log --------------------------------------------------------------------------

  lemma StepAppends(s: State, t: Step)
    requires Enabled(false, s, t)
    ensures Do(s, t).log == s.log || exists e: Event :: Do(s, t).log == s.log + [e]
  {
  }

  lemma VouchedKept(s: State, s': State, e: Event, touched: Option<Id>)
    requires Grows(s, s') && OnlyTouches(s, s', touched) && Vouched(s, e)
    ensures Vouched(s', e)
  {
  }

  lemma StepLogsTruth(s: State, t: Step, e: Event)
    requires Enabled(false, s, t) && Inv(s) && Do(s, t).log == s.log + [e]
    ensures Vouched(Do(s, t), e)
  {
    assert Do(s, t).log[|s.log|] == e;
    if Mover(t).Some? && t.q in s.actors {
      assert LinkedActor(s, s.actors[t.q]) && UnusedActor(s, s.actors[t.q]) && ClaimedActor(s, s.actors[t.q]);
    }
  }

  lemma StepKeepsActors(s: State, t: Step)
    requires Enabled(false, s, t) && Inv(s)
    ensures forall q | q in Do(s, t).actors ::
              UnusedActor(Do(s, t), Do(s, t).actors[q]) && ClaimedActor(Do(s, t), Do(s, t).actors[q])
  {
    StepMovesOne(s, t);
    StepGrows(s, t);
    StepTouchesItsOwn(s, t);
    forall q | q in Do(s, t).actors
      ensures UnusedActor(Do(s, t), Do(s, t).actors[q]) && ClaimedActor(Do(s, t), Do(s, t).actors[q])
    {
      if Some(q) == Mover(t) { StepKeepsMover(s, t); } else { StepKeepsBystander(s, t, Do(s, t), q); }
    }
  }

  lemma StepKeepsApprovals(s: State, t: Step)
    requires Enabled(false, s, t) && Inv(s)
    ensures forall a | a in Do(s, t).db.approvals :: UnusedApproval(Do(s, t), Do(s, t).db.approvals[a])
  {
    StepGrows(s, t);
    StepTouchesItsOwn(s, t);
    forall a | a in Do(s, t).db.approvals ensures UnusedApproval(Do(s, t), Do(s, t).db.approvals[a]) {
      if a in s.db.approvals { OldApprovalKept(s, t, Do(s, t), a); } else { NewApprovalUnused(s, t, a); }
    }
  }

  lemma StepKeepsLog(s: State, t: Step)
    requires Enabled(false, s, t) && Inv(s)
    ensures forall i | 0 <= i < |Do(s, t).log| :: Vouched(Do(s, t), Do(s, t).log[i])
  {
    StepGrows(s, t);
    StepTouchesItsOwn(s, t);
    StepAppends(s, t);
    forall i | 0 <= i < |Do(s, t).log| ensures Vouched(Do(s, t), Do(s, t).log[i]) {
      if i < |s.log| { VouchedKept(s, Do(s, t), s.log[i], TouchedExec(s, t)); }
      else { StepLogsTruth(s, t, Do(s, t).log[i]); }
    }
  }

  lemma StepKeepsInv(s: State, t: Step)
    requires Enabled(false, s, t) && Inv(s)
    ensures Inv(Do(s, t))
  {
    StepKeepsLinked(s, t);
    StepKeepsExclusive(s, t);
    StepKeepsParked(s, t);
    StepKeepsOnePerExecution(s, t);
    StepKeepsActors(s, t);
    StepKeepsApprovals(s, t);
    StepKeepsLog(s, t);
  }
}
