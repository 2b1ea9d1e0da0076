/**
 One driver per run, under the real conditional updates.

 At any moment at most one request is advancing a run, a request that won a decision is the
 only one that may take it over, and a run that is durably waiting is being driven by nobody.
 */
module SingleDriver {
  import opened Lifecycle
  import opened Rows
  import opened Protocol

  predicate Waits(a: Approval, run: Id) {
    a.runId == Some(run) && a.status == ApprovalStatus.Pending
  }

  ghost predicate RowOf(s: State, exec: Id, run: Id) {
    && exec in s.db.executions && s.db.executions[exec].run == run
    && run in s.db.runs && s.db.executions[exec].org == s.db.runs[run].org
  }

  /** The composite foreign keys: an approval names a run and an execution of one organization. */
  ghost predicate LinkedApproval(s: State, a: Approval) {
    && a.runId.Some? && a.executionId.Some?
    && RowOf(s, a.executionId.value, a.runId.value)
    && a.org == s.db.runs[a.runId.value].org
  }

  ghost predicate LinkedActor(s: State, a: Actor) {
    match a
    case Driving(run, at) =>
      && run in s.db.runs
      && (at.Told? || at.Asking? ==> RowOf(s, at.exec, run))
      && (at.Pausing? ==> at.approval in s.db.approvals && s.db.approvals[at.approval].runId == Some(run))
    case Deciding(approval, run, exec, approve, _) =>
      && approval in s.db.approvals && run in s.db.runs && exec in s.db.executions
      && s.db.approvals[approval].runId == Some(run) && s.db.approvals[approval].executionId == Some(exec)
      && s.db.approvals[approval].status == (if approve then Approved else Rejected)
    case Refused(approval, _, _) => approval in s.db.approvals
  }

  ghost predicate Linked(s: State) {
    && (forall a | a in s.db.approvals :: LinkedApproval(s, s.db.approvals[a]))
    && (forall q | q in s.actors :: LinkedActor(s, s.actors[q]))
  }

  // Who may be busy with one run at the same time.

  ghost predicate OneDriver(s: State) {
    forall q, q' | q in s.actors && q' in s.actors && s.actors[q].Driving? && s.actors[q'].Driving?
      && s.actors[q].run == s.actors[q'].run :: q == q'
  }

  ghost predicate OneDecider(s: State) {
    forall q, q' | q in s.actors && q' in s.actors && s.actors[q].Deciding? && s.actors[q'].Deciding?
      && s.actors[q].run == s.actors[q'].run :: q == q'
  }

  /** The driver that asked may still be on its way out when the answer arrives. */
  ghost predicate HandOver(s: State) {
    forall q, q' | q in s.actors && q' in s.actors && s.actors[q].Driving? && s.actors[q'].Deciding?
      && s.actors[q].run == s.actors[q'].run ::
      s.actors[q].at == Pausing(s.actors[q'].approval) && s.actors[q'].then_.Won?
  }

  ghost predicate DecidedIsClosed(s: State) {
    forall q, a | q in s.actors && a in s.db.approvals && s.actors[q].Deciding? ::
      !Waits(s.db.approvals[a], s.actors[q].run)
  }

  ghost predicate OpenWhilePausing(s: State) {
    forall q, a | q in s.actors && a in s.db.approvals && s.actors[q].Driving?
      && Waits(s.db.approvals[a], s.actors[q].run) :: s.actors[q].at == Pausing(a)
  }

  ghost predicate OneQuestion(s: State) {
    forall a, a' | a in s.db.approvals && a' in s.db.approvals && s.db.approvals[a].runId == s.db.approvals[a'].runId
      && s.db.approvals[a].status == ApprovalStatus.Pending && s.db.approvals[a'].status == ApprovalStatus.Pending :: a == a'
  }

  ghost predicate Exclusive(s: State) {
    && OneDriver(s) && OneDecider(s) && HandOver(s)
    && DecidedIsClosed(s) && OpenWhilePausing(s) && OneQuestion(s)
  }

  /** Advancing a run, or on the way to: past the check that the run is waiting. */
  predicate Busy(a: Actor) {
    a.Driving? || (a.Deciding? && !a.then_.Won?)
  }

  /** What AWAITING_APPROVAL promises: no driver, and nobody taking over but a decided request. */
  ghost predicate ParkedActor(runs: Runs, a: Actor) {
    Busy(a) ==> a.run in runs && (a.Deciding? <==> runs[a.run].status == AwaitingApproval)
  }

  ghost predicate Parked(s: State) {
    forall q | q in s.actors :: ParkedActor(s.db.runs, s.actors[q])
  }

  // -- Rows only grow, and a decided approval is frozen --------------------------------

  ghost predicate Grows(s: State, s': State) {
    && (forall r | r in s.db.runs :: r in s'.db.runs && s'.db.runs[r].org == s.db.runs[r].org)
    && (forall e | e in s.db.executions :: e in s'.db.executions
          && s'.db.executions[e].run == s.db.executions[e].run && s'.db.executions[e].org == s.db.executions[e].org)
    && (forall a | a in s.db.approvals :: a in s'.db.approvals && Stands(s.db.approvals[a], s'.db.approvals[a]))
  }

  /** The same question, still open or answered once and for all. */
  predicate Stands(a: Approval, a': Approval) {
    SameQuestion(a, a') && (a.status != ApprovalStatus.Pending ==> a' == a)
  }

  lemma StepGrowsByDriver(s: State, t: Step)
    requires Enabled(false, s, t) && ByDriver(t)
    ensures Grows(s, Do(s, t))
  {
  }

  lemma StepGrowsAnswering(s: State, t: Step)
    requires Enabled(false, s, t) && Answers(t)
    ensures Grows(s, Do(s, t))
  {
  }

  lemma StepGrowsCarryingOut(s: State, t: Step)
    requires Enabled(false, s, t) && CarriesOut(t)
    ensures Grows(s, Do(s, t))
  {
  }

  lemma ExpiryGrows(s: State, s': State, org: Id, now: Instant)
    requires s'.db == ExpireDb(s.db, org, now)
    ensures Grows(s, s')
  {
    hide HeldRuns, Overdue;
  }

  lemma CancellingGrows(s: State, s': State, run: Id)
    requires run in s.db.runs && s'.db == CancelDb(s.db, run)
    ensures Grows(s, s')
  {
    hide WithdrawnIds;
  }

  lemma StepGrowsSweeping(s: State, t: Step)
    requires Enabled(false, s, t) && Sweeps(t)
    ensures Grows(s, Do(s, t))
  {
    if t.Expire? {
      ExpiryGrows(s, Do(s, t), t.org, t.now);
    } else if t.Cancel? {
      CancellingGrows(s, Do(s, t), t.run);
    }
    hide ExpireDb, CancelDb;
  }

  lemma StepGrows(s: State, t: Step)
    requires Enabled(false, s, t)
    ensures Grows(s, Do(s, t))
  {
    hide Do, Enabled;
    if ByDriver(t) { StepGrowsByDriver(s, t); }
    else if Answers(t) { StepGrowsAnswering(s, t); }
    else if CarriesOut(t) { StepGrowsCarryingOut(s, t); }
    else if Sweeps(t) { StepGrowsSweeping(s, t); }
  }

  lemma GrowingKeepsLinks(s: State, s': State)
    requires Grows(s, s') && Linked(s)
    ensures forall a | a in s.db.approvals :: LinkedApproval(s', s'.db.approvals[a])
    ensures forall q | q in s.actors :: LinkedActor(s', s.actors[q])
  {
  }

  lemma StepKeepsApprovalsLinked(s: State, t: Step)
    requires Enabled(false, s, t) && Linked(s)
    ensures forall a | a in Do(s, t).db.approvals :: LinkedApproval(Do(s, t), Do(s, t).db.approvals[a])
  {
    StepGrows(s, t);
    GrowingKeepsLinks(s, Do(s, t));
    if t.AskApproval? { assert LinkedActor(s, s.actors[t.q]); }
  }

  /** The actor a step moves. */
  function Mover(t: Step): Option<Id> {
    if Sweeps(t) then None else Some(t.q)
  }

  lemma StepMovesOne(s: State, t: Step)
    requires Enabled(false, s, t)
    ensures forall q | q in Do(s, t).actors && Some(q) != Mover(t) :: q in s.actors && Do(s, t).actors[q] == s.actors[q]
  {
  }

  lemma MoverStaysLinked(s: State, t: Step)
    requires Enabled(false, s, t) && Linked(s) && Mover(t).Some? && t.q in Do(s, t).actors
    ensures LinkedActor(Do(s, t), Do(s, t).actors[t.q])
  {
    if t.q in s.actors { assert LinkedActor(s, s.actors[t.q]); }
  }

  lemma StepKeepsLinked(s: State, t: Step)
    requires Enabled(false, s, t) && Linked(s)
    ensures Linked(Do(s, t))
  {
    var s' := Do(s, t);
    StepKeepsApprovalsLinked(s, t);
    StepGrows(s, t);
    GrowingKeepsLinks(s, s');
    StepMovesOne(s, t);
    forall q | q in s'.actors ensures LinkedActor(s', s'.actors[q]) {
      if Some(q) == Mover(t) { MoverStaysLinked(s, t); }
    }
  }

  // -- Who is busy with a run -------------------------------------------------------

  /** Nobody new becomes busy with a run, and no new question is asked. */
  ghost predicate Subsides(s: State, s': State) {
    && (forall a | a in s'.db.approvals ::
          a in s.db.approvals && s'.db.approvals[a].runId == s.db.approvals[a].runId
          && (s'.db.approvals[a].status == ApprovalStatus.Pending ==> s.db.approvals[a].status == ApprovalStatus.Pending))
    && (forall q | q in s'.actors && !s'.actors[q].Refused? :: q in s.actors && Calmer(s, s.actors[q], s'.actors[q]))
  }

  ghost predicate Calmer(s: State, a: Actor, a': Actor) {
    || a' == a
    || (a.Driving? && a'.Driving? && a.run == a'.run && !a.at.Pausing? && !a'.at.Pausing?)
    || (a.Deciding? && a'.Deciding? && a'.run == a.run && a'.approval == a.approval
        && (!a.then_.Won? || (a.run in s.db.runs && s.db.runs[a.run].status == AwaitingApproval)))
  }

  predicate Engages(t: Step) {
    t.CreateRun? || t.AskApproval? || t.Decide? || t.Resume?
  }

  lemma StepSubsidesByDriver(s: State, t: Step)
    requires Enabled(false, s, t) && Linked(s) && !Engages(t) && ByDriver(t)
    ensures Subsides(s, Do(s, t))
  {
  }

  lemma StepSubsidesAnswering(s: State, t: Step)
    requires Enabled(false, s, t) && Linked(s) && !Engages(t) && Answers(t)
    ensures Subsides(s, Do(s, t))
  {
  }

  lemma StepSubsidesCarryingOut(s: State, t: Step)
    requires Enabled(false, s, t) && Linked(s) && !Engages(t) && CarriesOut(t)
    ensures Subsides(s, Do(s, t))
  {
  }

  lemma StepSubsidesSweeping(s: State, t: Step)
    requires Enabled(false, s, t) && Linked(s) && !Engages(t) && Sweeps(t)
    ensures Subsides(s, Do(s, t))
  {
  }

  lemma StepSubsides(s: State, t: Step)
    requires Enabled(false, s, t) && Linked(s) && !Engages(t)
    ensures Subsides(s, Do(s, t))
  {
    hide Do, Enabled;
    if ByDriver(t) { StepSubsidesByDriver(s, t); }
    else if Answers(t) { StepSubsidesAnswering(s, t); }
    else if CarriesOut(t) { StepSubsidesCarryingOut(s, t); }
    else if Sweeps(t) { StepSubsidesSweeping(s, t); }
  }

  lemma SubsidingKeepsOneEach(s: State, s': State)
    requires Exclusive(s) && Subsides(s, s')
    ensures OneDriver(s') && OneDecider(s') && OneQuestion(s')
  {
  }

  lemma SubsidingKeepsHandOver(s: State, s': State)
    requires Linked(s) && HandOver(s) && Parked(s) && Subsides(s, s')
    ensures HandOver(s')
  {
    forall q, q' | q in s'.actors && q' in s'.actors && s'.actors[q].Driving? && s'.actors[q'].Deciding?
      && s'.actors[q].run == s'.actors[q'].run
      ensures s'.actors[q].at == Pausing(s'.actors[q'].approval) && s'.actors[q'].then_.Won?
    {
      assert Calmer(s, s.actors[q], s'.actors[q]) && Calmer(s, s.actors[q'], s'.actors[q']);
      assert ParkedActor(s.db.runs, s.actors[q]);
    }
  }

  lemma SubsidingKeepsQuestions(s: State, s': State)
    requires Exclusive(s) && Subsides(s, s')
    ensures DecidedIsClosed(s') && OpenWhilePausing(s')
  {
  }

  lemma SubsidingKeepsExclusive(s: State, s': State)
    requires Linked(s) && Exclusive(s) && Parked(s) && Subsides(s, s')
    ensures Exclusive(s')
  {
    SubsidingKeepsOneEach(s, s');
    SubsidingKeepsHandOver(s, s');
    SubsidingKeepsQuestions(s, s');
  }

  /** A new run: nothing else knows its id. */
  lemma StartingKeepsExclusive(s: State, s': State, q: Id, run: Id)
    requires Linked(s) && Exclusive(s) && run !in s.db.runs && q !in s.actors
    requires s'.db.approvals == s.db.approvals && s'.actors == s.actors[q := Driving(run, Created)]
    ensures Exclusive(s')
  {
    assert forall q' | q' in s.actors :: LinkedActor(s, s.actors[q']);
    assert forall a | a in s.db.approvals :: LinkedApproval(s, s.db.approvals[a]);
  }

  /** A new question: its driver was not pausing, so nothing about the run was open. */
  lemma AskingKeepsExclusive(s: State, s': State, q: Id, approval: Id, row: Approval)
    requires Linked(s) && Exclusive(s) && q in s.actors && s.actors[q].Driving? && s.actors[q].at.Asking?
    requires approval !in s.db.approvals && row.runId == Some(s.actors[q].run)
    requires s'.db.approvals == s.db.approvals[approval := row]
    requires s'.actors == s.actors[q := Driving(s.actors[q].run, Pausing(approval))]
    ensures Exclusive(s')
  {
    NobodyDecidesWhatIsAsked(s, q);
    AskingKeepsActors(s, s', q, approval);
    AskingKeepsQuestions(s, s', q, approval, row);
  }

  /** Its driver is asking, so nobody holds a decision about the run and nothing about it is open. */
  lemma NobodyDecidesWhatIsAsked(s: State, q: Id)
    requires HandOver(s) && OpenWhilePausing(s) && q in s.actors && s.actors[q].Driving? && s.actors[q].at.Asking?
    ensures forall q' | q' in s.actors && s.actors[q'].Deciding? :: s.actors[q'].run != s.actors[q].run
    ensures forall a | a in s.db.approvals :: !Waits(s.db.approvals[a], s.actors[q].run)
  {
  }

  lemma AskingKeepsActors(s: State, s': State, q: Id, approval: Id)
    requires OneDriver(s) && OneDecider(s) && HandOver(s) && q in s.actors && s.actors[q].Driving?
    requires forall q' | q' in s.actors && s.actors[q'].Deciding? :: s.actors[q'].run != s.actors[q].run
    requires s'.actors == s.actors[q := Driving(s.actors[q].run, Pausing(approval))]
    ensures OneDriver(s') && OneDecider(s') && HandOver(s')
  {
  }

  lemma AskingKeepsQuestions(s: State, s': State, q: Id, approval: Id, row: Approval)
    requires OneDriver(s) && DecidedIsClosed(s) && OpenWhilePausing(s) && OneQuestion(s)
    requires forall a | a in s.db.approvals :: LinkedApproval(s, s.db.approvals[a])
    requires q in s.actors && s.actors[q].Driving? && approval !in s.db.approvals && row.runId == Some(s.actors[q].run)
    requires forall q' | q' in s.actors && s.actors[q'].Deciding? :: s.actors[q'].run != s.actors[q].run
    requires forall a | a in s.db.approvals :: !Waits(s.db.approvals[a], s.actors[q].run)
    requires s'.db.approvals == s.db.approvals[approval := row]
    requires s'.actors == s.actors[q := Driving(s.actors[q].run, Pausing(approval))]
    ensures DecidedIsClosed(s') && OpenWhilePausing(s') && OneQuestion(s')
  {
  }

  /** A won decision: the question was open, so nobody else was deciding about the run. */
  lemma WinningKeepsExclusive(s: State, s': State, q: Id, approval: Id, run: Id, row: Approval, winner: Actor)
    requires Linked(s) && Exclusive(s) && q !in s.actors
    requires approval in s.db.approvals && Waits(s.db.approvals[approval], run)
    requires row.status != ApprovalStatus.Pending && row.runId == Some(run)
    requires winner.Deciding? && winner.run == run && winner.approval == approval && winner.then_.Won?
    requires s'.db.approvals == s.db.approvals[approval := row] && s'.actors == s.actors[q := winner]
    ensures Exclusive(s')
  {
  }

  /** Taking the run over: whoever was pausing it has gone. */
  lemma ResumingKeepsExclusive(s: State, s': State, q: Id)
    requires Linked(s) && Exclusive(s) && q in s.actors && s.actors[q].Deciding? && !s.actors[q].then_.Won?
    requires s'.db.approvals == s.db.approvals && s'.actors == s.actors[q := Driving(s.actors[q].run, Resumed)]
    ensures Exclusive(s')
  {
  }

  lemma StepKeepsExclusive(s: State, t: Step)
    requires Enabled(false, s, t) && Linked(s) && Exclusive(s) && Parked(s)
    ensures Exclusive(Do(s, t))
  {
    var s' := Do(s, t);
    if t.CreateRun? {
      StartingKeepsExclusive(s, s', t.q, t.run);
    } else if t.AskApproval? {
      AskingKeepsExclusive(s, s', t.q, t.approval, s'.db.approvals[t.approval]);
    } else if t.Decide? {
      WinningKeepsExclusive(s, s', t.q, t.approval, s.db.approvals[t.approval].runId.value, s'.db.approvals[t.approval], s'.actors[t.q]);
    } else if t.Resume? {
      ResumingKeepsExclusive(s, s', t.q);
    } else {
      StepSubsides(s, t);
      SubsidingKeepsExclusive(s, s');
    }
  }

  // -- What AWAITING_APPROVAL promises ------------------------------------------------

  /** Expiry may end a run that is waiting on an open question, and nothing else. */
  lemma ExpirySparesBusy(s: State, q: Id, org: Id, now: Instant)
    requires DecidedIsClosed(s) && Parked(s) && q in s.actors && Busy(s.actors[q])
    ensures ParkedActor(ExpireDb(s.db, org, now).runs, s.actors[q])
  {
    var a := s.actors[q];
    assert ParkedActor(s.db.runs, a);
    if a.run in HeldRuns(s.db.approvals, org, now) {
      var id :| id in LapsedIds(s.db.approvals, org, now) && s.db.approvals[id].runId == Some(a.run);
      assert Waits(s.db.approvals[id], a.run);
    }
  }

  /** A cancellation needs an open question too. */
  lemma CancelSparesBusy(s: State, q: Id, run: Id)
    requires DecidedIsClosed(s) && Parked(s) && q in s.actors && Busy(s.actors[q]) && run in s.db.runs
    ensures ParkedActor(CancelDb(s.db, run).runs, s.actors[q])
  {
    var a := s.actors[q];
    assert ParkedActor(s.db.runs, a);
    var open := WithdrawnIds(s.db.approvals, s.db.runs[run].org, AgentRun(run));
    if open != {} && a.run == run {
      var id :| id in open;
      assert Waits(s.db.approvals[id], run);
    }
  }

  /** A driver's own writes are about its own run, which nobody else is busy with. */
  lemma DriverSparesOthers(s: State, t: Step, q: Id)
    requires Enabled(false, s, t) && OneDriver(s) && HandOver(s) && ByDriver(t)
    requires t.q != q && q in s.actors && Busy(s.actors[q]) && ParkedActor(s.db.runs, s.actors[q])
    ensures ParkedActor(Do(s, t).db.runs, s.actors[q])
  {
  }

  lemma AnswerSparesOthers(s: State, t: Step, q: Id)
    requires Enabled(false, s, t) && DecidedIsClosed(s) && Parked(s) && Answers(t)
    requires q in s.actors && Busy(s.actors[q])
    ensures ParkedActor(Do(s, t).db.runs, s.actors[q])
  {
    assert ParkedActor(s.db.runs, s.actors[q]);
    if t.Lapse? {
      ExpirySparesBusy(s, q, s.db.approvals[s.actors[t.q].approval].org, s.actors[t.q].now);
    }
  }

  lemma TakeOverSparesOthers(s: State, t: Step, q: Id)
    requires Enabled(false, s, t) && OneDecider(s) && HandOver(s) && CarriesOut(t)
    requires t.q != q && q in s.actors && Busy(s.actors[q]) && ParkedActor(s.db.runs, s.actors[q])
    ensures ParkedActor(Do(s, t).db.runs, s.actors[q])
  {
  }

  lemma SweepSparesOthers(s: State, t: Step, q: Id)
    requires Enabled(false, s, t) && DecidedIsClosed(s) && Parked(s) && Sweeps(t)
    requires q in s.actors && Busy(s.actors[q])
    ensures ParkedActor(Do(s, t).db.runs, s.actors[q])
  {
    assert ParkedActor(s.db.runs, s.actors[q]);
    if t.Cancel? { CancelSparesBusy(s, q, t.run); }
    else if t.Expire? { ExpirySparesBusy(s, q, t.org, t.now); }
  }

  lemma BystanderStaysParked(s: State, t: Step, q: Id)
    requires Enabled(false, s, t) && Exclusive(s) && Parked(s)
    requires Some(q) != Mover(t) && q in s.actors && Busy(s.actors[q])
    ensures ParkedActor(Do(s, t).db.runs, s.actors[q])
  {
    hide Do, Enabled;
    assert ParkedActor(s.db.runs, s.actors[q]);
    if ByDriver(t) { DriverSparesOthers(s, t, q); }
    else if Answers(t) { AnswerSparesOthers(s, t, q); }
    else if CarriesOut(t) { TakeOverSparesOthers(s, t, q); }
    else { SweepSparesOthers(s, t, q); }
  }

  lemma MoverStaysParked(s: State, t: Step)
    requires Enabled(false, s, t) && Linked(s) && Parked(s) && Mover(t).Some?
    requires t.q in Do(s, t).actors
    ensures ParkedActor(Do(s, t).db.runs, Do(s, t).actors[t.q])
  {
    if t.q in s.actors { assert ParkedActor(s.db.runs, s.actors[t.q]); }
  }

  lemma StepKeepsParked(s: State, t: Step)
    requires Enabled(false, s, t) && Linked(s) && Exclusive(s) && Parked(s)
    ensures Parked(Do(s, t))
  {
    var s' := Do(s, t);
    StepMovesOne(s, t);
    forall q | q in s'.actors
      ensures ParkedActor(s'.db.runs, s'.actors[q])
    {
      if Some(q) == Mover(t) { MoverStaysParked(s, t); }
      else if Busy(s.actors[q]) { BystanderStaysParked(s, t, q); }
    }
  }
}
