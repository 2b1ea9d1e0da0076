/**
 At most one entry into a gated tool, from `claim` alone.

 Everything here holds with the conditional update of `decide` taken away: any number of
 requests may win the same approval, and the tool body is still entered at most once.
 */
module AtMostOnce {
  import opened Lifecycle
  import opened Rows
  import opened Protocol

  predicate Body(e: Event, exec: Id) {
    e.ToolBody? && e.exec == exec
  }

  ghost predicate Entered(s: State, exec: Id) {
    exists i :: 0 <= i < |s.log| && Body(s.log[i], exec)
  }

  /** Holding the claim: the request may enter the tool, and has not. */
  predicate Holds(a: Actor, exec: Id) {
    a.Deciding? && a.approve && a.then_.Claimed? && a.exec == exec
  }

  predicate JustRan(a: Actor, exec: Id) {
    a.Driving? && a.at.Ran? && a.at.exec == exec
  }

  /** The ids the executor has handed out cover everything that mentions one, and none is shared. */
  ghost predicate Issued(s: State) {
    && (forall e | e in s.db.executions :: e in s.issued)
    && (forall i | 0 <= i < |s.log| && s.log[i].ToolBody? :: s.log[i].exec in s.issued)
    && (forall q, e | q in s.actors && JustRan(s.actors[q], e) :: e in s.issued && e !in s.db.executions)
    && (forall q, q', e | q in s.actors && q' in s.actors
                          && JustRan(s.actors[q], e) && JustRan(s.actors[q'], e) :: q == q')
  }

  ghost predicate IsGated(s: State, exec: Id) {
    exec in s.db.executions && s.db.executions[exec].requiresApproval
  }

  /** Whoever is asking, or deciding, is doing it about a gated execution that has a row. */
  ghost predicate GatedActor(s: State, a: Actor) {
    match a
    case Driving(_, Ran(_, gated, asks, _)) => asks ==> gated
    case Driving(_, Told(exec, asks)) => asks ==> IsGated(s, exec)
    case Driving(_, Asking(exec)) => IsGated(s, exec)
    case Deciding(_, _, exec, _, _) => IsGated(s, exec)
    case _ => true
  }

  ghost predicate Gated(s: State) {
    && (forall a | a in s.db.approvals && s.db.approvals[a].executionId.Some? ::
          IsGated(s, s.db.approvals[a].executionId.value))
    && (forall q | q in s.actors :: GatedActor(s, s.actors[q]))
  }

  /** A body entered for a gated execution was granted, and left the claim behind it. */
  ghost predicate MarkedEvent(s: State, e: Event) {
    e.ToolBody? && IsGated(s, e.exec) ==> s.db.executions[e.exec].executed && e.grantedBy.Some?
  }

  ghost predicate Marked(s: State) {
    && (forall i | 0 <= i < |s.log| :: MarkedEvent(s, s.log[i]))
    && (forall i, q | 0 <= i < |s.log| && q in s.actors && s.log[i].ToolBody? && JustRan(s.actors[q], s.log[i].exec) ::
          !s.actors[q].at.gated)
  }

  /** The claim has one holder, who has not used it. */
  ghost predicate OneHolder(s: State) {
    && (forall q, q', exec | q in s.actors && q' in s.actors
                             && Holds(s.actors[q], exec) && Holds(s.actors[q'], exec) :: q == q')
    && (forall q, exec | q in s.actors && Holds(s.actors[q], exec) ::
          exec in s.db.executions && s.db.executions[exec].executed && !Entered(s, exec))
  }

  ghost predicate EnteredOnce(s: State) {
    forall i, j, exec | 0 <= i < j < |s.log| && Body(s.log[i], exec) :: !Body(s.log[j], exec)
  }

  ghost predicate Safe(s: State) {
    Issued(s) && Gated(s) && Marked(s) && OneHolder(s) && EnteredOnce(s)
  }

  lemma StepKeepsIssuedByDriver(s: State, t: Step)
    requires Enabled(true, s, t) && Issued(s) && ByDriver(t)
    ensures Issued(Do(s, t))
  {
  }

  lemma StepKeepsIssuedAnswering(s: State, t: Step)
    requires Enabled(true, s, t) && Issued(s) && Answers(t)
    ensures Issued(Do(s, t))
  {
  }

  lemma StepKeepsIssuedCarryingOut(s: State, t: Step)
    requires Enabled(true, s, t) && Issued(s) && CarriesOut(t)
    ensures Issued(Do(s, t))
  {
  }

  lemma StepKeepsIssuedSweeping(s: State, t: Step)
    requires Enabled(true, s, t) && Issued(s) && Sweeps(t)
    ensures Issued(Do(s, t))
  {
  }

  lemma StepKeepsIssued(s: State, t: Step)
    requires Enabled(true, s, t) && Issued(s)
    ensures Issued(Do(s, t))
  {
    hide Do, Enabled;
    if ByDriver(t) { StepKeepsIssuedByDriver(s, t); }
    else if Answers(t) { StepKeepsIssuedAnswering(s, t); }
    else if CarriesOut(t) { StepKeepsIssuedCarryingOut(s, t); }
    else if Sweeps(t) { StepKeepsIssuedSweeping(s, t); }
  }

  lemma StepKeepsGatedByDriver(s: State, t: Step)
    requires Enabled(true, s, t) && Gated(s) && ByDriver(t)
    ensures Gated(Do(s, t))
  {
  }

  lemma StepKeepsGatedAnswering(s: State, t: Step)
    requires Enabled(true, s, t) && Gated(s) && Answers(t)
    ensures Gated(Do(s, t))
  {
  }

  lemma StepKeepsGatedCarryingOut(s: State, t: Step)
    requires Enabled(true, s, t) && Gated(s) && CarriesOut(t)
    ensures Gated(Do(s, t))
  {
  }

  lemma StepKeepsGatedSweeping(s: State, t: Step)
    requires Enabled(true, s, t) && Gated(s) && Sweeps(t)
    ensures Gated(Do(s, t))
  {
  }

  lemma StepKeepsGated(s: State, t: Step)
    requires Enabled(true, s, t) && Gated(s)
    ensures Gated(Do(s, t))
  {
    hide Do, Enabled;
    if ByDriver(t) { StepKeepsGatedByDriver(s, t); }
    else if Answers(t) { StepKeepsGatedAnswering(s, t); }
    else if CarriesOut(t) { StepKeepsGatedCarryingOut(s, t); }
    else if Sweeps(t) { StepKeepsGatedSweeping(s, t); }
  }

  predicate Loud(t: Step) {
    t.RunTool? || t.RecordTool? || t.Claim? || t.Execute? || t.RecordOutcome?
  }

  /** What a step that is not about executions leaves alone. */
  ghost predicate Quiet(s: State, s': State) {
    && s'.db.executions == s.db.executions
    && (s'.log == s.log || exists e: Event :: !e.ToolBody? && s'.log == s.log + [e])
    && (forall q, exec | q in s'.actors && (JustRan(s'.actors[q], exec) || Holds(s'.actors[q], exec)) ::
          q in s.actors && s.actors[q] == s'.actors[q])
  }

  lemma QuietSteps(s: State, t: Step)
    requires Enabled(true, s, t) && !Loud(t)
    ensures Quiet(s, Do(s, t))
  {
  }

  lemma QuietKeepsSafe(s: State, s': State)
    requires Safe(s) && Quiet(s, s')
    ensures Marked(s') && OneHolder(s') && EnteredOnce(s')
  {
    assert forall i | 0 <= i < |s.log| :: s'.log[i] == s.log[i];
    assert forall i, exec | 0 <= i < |s'.log| && Body(s'.log[i], exec) :: i < |s.log| && Body(s.log[i], exec);
  }

  // -- The five steps that are about executions, by what they change ---------------

  ghost predicate ClaimSafe(s: State) {
    Marked(s) && OneHolder(s) && EnteredOnce(s)
  }

  /** A new execution id: nothing on record is about it. */
  lemma IssuingKeepsSafe(s: State, s': State, q: Id, exec: Id)
    requires Safe(s) && exec !in s.issued
    requires q in s.actors && q in s'.actors && JustRan(s'.actors[q], exec)
    requires s'.db.executions == s.db.executions && s'.actors == s.actors[q := s'.actors[q]]
    requires s'.log == s.log || (!s'.actors[q].at.gated && |s'.log| == |s.log| + 1 && s'.log[..|s.log|] == s.log
                                 && Body(s'.log[|s.log|], exec))
    ensures ClaimSafe(s')
  {
    assert forall i | 0 <= i < |s.log| :: s'.log[i] == s'.log[..|s.log|][i] == s.log[i];
  }

  /** Its row: the flag says what the attempt said. */
  lemma InsertingKeepsSafe(s: State, s': State, q: Id, exec: Id, row: ExecRow)
    requires Safe(s) && q in s.actors && JustRan(s.actors[q], exec) && row.requiresApproval == s.actors[q].at.gated
    requires q in s'.actors && s'.actors[q].Driving? && s'.actors[q].at.Told?
    requires s'.actors == s.actors[q := s'.actors[q]] && s'.log == s.log
    requires s'.db.executions == s.db.executions[exec := row]
    ensures ClaimSafe(s')
  {
  }

  /** Taking the claim: the row said nobody had, so nobody holds it and the body was never entered. */
  lemma ClaimingKeepsSafe(s: State, s': State, q: Id, exec: Id)
    requires Safe(s) && q in s.actors && s.actors[q].Deciding? && s.actors[q].exec == exec
    requires IsGated(s, exec) && !s.db.executions[exec].executed
    requires s'.actors == s.actors[q := s.actors[q].(then_ := Claimed)] && s'.log == s.log
    requires s'.db.executions == s.db.executions[exec := s.db.executions[exec].(executed := true)]
    ensures ClaimSafe(s')
  {
    assert !Entered(s', exec);
    assert forall e :: Entered(s', e) == Entered(s, e);
  }

  /** Entering on the claim: the one holder stops holding it. */
  lemma EnteringKeepsSafe(s: State, s': State, q: Id, exec: Id, e: Event)
    requires Safe(s) && q in s.actors && Holds(s.actors[q], exec) && IsGated(s, exec)
    requires q in s'.actors && s'.actors[q].Deciding? && s'.actors[q].then_.Executed?
    requires s'.actors == s.actors[q := s'.actors[q]]
    requires s'.db.executions == s.db.executions && s'.log == s.log + [e] && Body(e, exec) && e.grantedBy.Some?
    ensures ClaimSafe(s')
  {
    assert !Entered(s, exec);
    assert forall i | 0 <= i < |s.log| :: s'.log[i] == s.log[i] && !Body(s.log[i], exec);
  }

  /** Recording an outcome: the flag may rise, and never falls. */
  lemma RecordingKeepsSafe(s: State, s': State, q: Id, exec: Id, executed: bool)
    requires Safe(s) && q in s.actors && s.actors[q].Deciding?
    requires exec in s.db.executions && (s.db.executions[exec].executed ==> executed)
    requires q in s'.actors && s'.actors[q].Deciding? && s'.actors[q].then_.Recorded?
    requires s'.actors == s.actors[q := s'.actors[q]] && s'.log == s.log
    requires s'.db.executions == s.db.executions[exec := s.db.executions[exec].(executed := executed)]
    ensures ClaimSafe(s')
  {
    assert forall e :: Entered(s', e) == Entered(s, e);
  }

  lemma RunToolKeepsSafe(s: State, t: Step)
    requires Enabled(true, s, t) && Safe(s) && t.RunTool?
    ensures ClaimSafe(Do(s, t))
  {
    IssuingKeepsSafe(s, Do(s, t), t.q, t.exec);
  }

  lemma RecordToolKeepsSafe(s: State, t: Step)
    requires Enabled(true, s, t) && Safe(s) && t.RecordTool?
    ensures ClaimSafe(Do(s, t))
  {
    var exec := s.actors[t.q].at.exec;
    InsertingKeepsSafe(s, Do(s, t), t.q, exec, Do(s, t).db.executions[exec]);
  }

  lemma ClaimKeepsSafe(s: State, t: Step)
    requires Enabled(true, s, t) && Safe(s) && t.Claim?
    ensures ClaimSafe(Do(s, t))
  {
    var a := s.actors[t.q];
    if a.approve && Claimable(s.db.executions, s.db.approvals[a.approval].org, a.exec) {
      assert GatedActor(s, a);
      ClaimingKeepsSafe(s, Do(s, t), t.q, a.exec);
    } else {
      QuietKeepsSafe(s, Do(s, t));
    }
  }

  lemma ExecuteKeepsSafe(s: State, t: Step)
    requires Enabled(true, s, t) && Safe(s) && t.Execute?
    ensures ClaimSafe(Do(s, t))
  {
    var a := s.actors[t.q];
    assert GatedActor(s, a);
    if t.entered {
      EnteringKeepsSafe(s, Do(s, t), t.q, a.exec, ToolBody(a.run, a.exec, Some(a.approval)));
    } else {
      QuietKeepsSafe(s, Do(s, t));
    }
  }

  lemma RecordOutcomeKeepsSafe(s: State, t: Step)
    requires Enabled(true, s, t) && Safe(s) && t.RecordOutcome?
    ensures ClaimSafe(Do(s, t))
  {
    var exec := s.actors[t.q].exec;
    RecordingKeepsSafe(s, Do(s, t), t.q, exec, Do(s, t).db.executions[exec].executed);
  }

  lemma OtherKeepsSafe(s: State, t: Step)
    requires Enabled(true, s, t) && Safe(s) && !Loud(t)
    ensures ClaimSafe(Do(s, t))
  {
    QuietSteps(s, t);
    QuietKeepsSafe(s, Do(s, t));
  }

  lemma StepKeepsSafe(s: State, t: Step)
    requires Enabled(true, s, t) && Safe(s)
    ensures Safe(Do(s, t))
  {
    StepKeepsIssued(s, t);
    StepKeepsGated(s, t);
    if t.RunTool? { RunToolKeepsSafe(s, t); }
    else if t.RecordTool? { RecordToolKeepsSafe(s, t); }
    else if t.Claim? { ClaimKeepsSafe(s, t); }
    else if t.Execute? { ExecuteKeepsSafe(s, t); }
    else if t.RecordOutcome? { RecordOutcomeKeepsSafe(s, t); }
    else { OtherKeepsSafe(s, t); }
  }
}
