/**
 Approval, cancellation, expiry and resume as one step system over the shared database.

 A step is one committed transaction, or one effect outside the database (a model call, a tool).
 Requests interleave freely, any request may vanish between two of its steps, and every step
 that reads the clock takes an instant of its own.
 */
module Protocol {
  import opened Lifecycle
  import opened Rows

  datatype Db = Db(runs: Runs, executions: Executions, approvals: Approvals)

  /** Where a request that drives a run has got to. */
  datatype DrivePc =
    | Created                                   // row inserted, nothing driven yet
    | Looping                                   // top of the loop
    | Called                                    // the model was called
    | Chosen                                    // its step is recorded
    | Answered                                  // the answer is stored, the run not yet closed
    | Ran(exec: Id, gated: bool, asks: bool, reached: bool)   // a tool came back
    | Told(exec: Id, asks: bool)                // its execution row is written
    | Asking(exec: Id)                          // the request turn is stored, a person must be asked
    | Pausing(approval: Id)                     // the approval is written, the pause is not
    | Performing                                // the request turn is stored, its result is not
    | Resumed                                   // running again after a decision

  /** Where a request that won a decision has got to, before it drives the run. */
  datatype DecidePc = Won | Checked | Claimed | Executed(outcomeReached: bool) | Recorded

  /** Where a request that lost the conditional update has got to. */
  datatype RefusePc = Refreshing | Lapsing

  datatype Actor =
    | Driving(run: Id, at: DrivePc)
    | Deciding(approval: Id, run: Id, exec: Id, approve: bool, then_: DecidePc)
    | Refused(approval: Id, now: Instant, why: RefusePc)

  /** What the outside world could observe, in order. */
  datatype Event =
    | ModelCall(run: Id)
    | ToolBody(run: Id, exec: Id, grantedBy: Option<Id>)
    | TurnStored(run: Id)
    | StateWritten(run: Id)
    | DecisionWon(approval: Id)
    | DecisionRefused(approval: Id, gone: bool)
    | ClaimRefused(approval: Id)

  datatype State = State(db: Db, actors: map<Id, Actor>, log: seq<Event>, issued: set<Id>)

  const EMPTY := State(Db(map[], map[], map[]), map[], [], {})

  datatype Step =
    // a request that starts a run
    | CreateRun(q: Id, run: Id, org: Id)
    | Begin(q: Id)
    // the loop
    | CallModel(q: Id)
    | RecordStep(q: Id)
    | StoreAnswer(q: Id)
    | RunTool(q: Id, exec: Id, gated: bool, entered: bool, asks: bool, reached: bool)
    | RecordTool(q: Id)
    | StoreRequest(q: Id)
    | AskApproval(q: Id, approval: Id, requestedAt: Instant, expiresAt: Option<Instant>, stamp: Option<Id>)
    | Pause(q: Id)
    | StoreResult(q: Id)
    | Finish(q: Id, status: AgentRunStatus, errorCode: Option<string>)
    | Vanish(q: Id)
    // a request that decides an approval
    | Decide(q: Id, approval: Id, approve: bool, decider: Id, reason: Option<string>, now: Instant)
    | DecideLost(q: Id, approval: Id, now: Instant)
    | Refresh(q: Id)
    | Lapse(q: Id)
    | ReadRun(q: Id)
    | Claim(q: Id)
    | Execute(q: Id, entered: bool, reached: bool)
    | RecordOutcome(q: Id)
    | Resume(q: Id)
    // requests of one transaction
    | Cancel(run: Id)
    | CancelWorkflow(org: Id, workflowRun: Id)
    | Expire(org: Id, now: Instant)
    | SweepAbandoned(org: Id, stale: set<Id>)

  // Steps by who takes them: each step is in exactly one of these.

  predicate ByDriver(t: Step) {
    || t.CreateRun? || t.Begin? || t.CallModel? || t.RecordStep? || t.StoreAnswer? || t.RunTool? || t.RecordTool?
    || t.StoreRequest? || t.AskApproval? || t.Pause? || t.StoreResult? || t.Finish? || t.Vanish?
  }

  predicate Answers(t: Step) {
    t.Decide? || t.DecideLost? || t.Refresh? || t.Lapse?
  }

  predicate CarriesOut(t: Step) {
    t.ReadRun? || t.Claim? || t.Execute? || t.RecordOutcome? || t.Resume?
  }

  predicate Sweeps(t: Step) {
    t.Cancel? || t.CancelWorkflow? || t.Expire? || t.SweepAbandoned?
  }

  // -- Guards ---------------------------------------------------------------------

  predicate IsDriving(s: State, q: Id) {
    q in s.actors && s.actors[q].Driving? && s.actors[q].run in s.db.runs
  }

  predicate IsDeciding(s: State, q: Id) {
    q in s.actors && s.actors[q].Deciding?
    && s.actors[q].run in s.db.runs && s.actors[q].exec in s.db.executions
    && s.actors[q].approval in s.db.approvals
  }

  predicate IsRefused(s: State, q: Id) {
    q in s.actors && s.actors[q].Refused? && s.actors[q].approval in s.db.approvals
  }

  /** Where the loop can end a run: a terminal state written from each point of it. */
  predicate MayFinish(at: DrivePc, status: AgentRunStatus) {
    match status
    case Completed => at.Answered?
    case Cancelled => at.Looping? || at.Chosen? || at.Performing?
    case Failed => !at.Created? && !at.Answered?
    case _ => false
  }

  /** The executor's gate: a tool marked for approval is entered only with a grant in hand. */
  predicate MayEnter(gated: bool, granted: bool) {
    gated ==> granted
  }

  predicate Wins(weak: bool, s: State, approval: Id, now: Instant) {
    approval in s.db.approvals
    && s.db.approvals[approval].runId.Some? && s.db.approvals[approval].executionId.Some?
    && (weak || Decidable(s.db.approvals, s.db.approvals[approval].org, approval, now))
  }

  /**
   What may happen next. With `weak` the conditional update of `decide` is taken away, so any
   number of decisions of one approval win; everything else is unchanged.
   */
  predicate Enabled(weak: bool, s: State, t: Step) {
    match t
    case CreateRun(q, run, org) => q !in s.actors && run !in s.db.runs
    case Begin(q) => IsDriving(s, q) && s.actors[q].at.Created?
    case CallModel(q) => IsDriving(s, q) && s.actors[q].at.Looping?
    case RecordStep(q) => IsDriving(s, q) && s.actors[q].at.Called?
    case StoreAnswer(q) => IsDriving(s, q) && s.actors[q].at.Chosen?
    case RunTool(q, exec, gated, entered, asks, reached) =>
      && IsDriving(s, q) && s.actors[q].at.Chosen?
      && exec !in s.issued
      && (entered ==> MayEnter(gated, false))
      && (asks ==> gated && !entered && !reached)
    case RecordTool(q) => IsDriving(s, q) && s.actors[q].at.Ran? && s.actors[q].at.exec !in s.db.executions
    case StoreRequest(q) => IsDriving(s, q) && s.actors[q].at.Told?
    case AskApproval(q, approval, _, _, _) =>
      IsDriving(s, q) && s.actors[q].at.Asking? && approval !in s.db.approvals
    case Pause(q) => IsDriving(s, q) && s.actors[q].at.Pausing?
    case StoreResult(q) => IsDriving(s, q) && (s.actors[q].at.Performing? || s.actors[q].at.Resumed?)
    case Finish(q, status, code) =>
      IsDriving(s, q) && MayFinish(s.actors[q].at, status) && (code.Some? <==> status == AgentRunStatus.Failed)
    case Vanish(q) => q in s.actors
    case Decide(q, approval, approve, _, _, now) => q !in s.actors && Wins(weak, s, approval, now)
    case DecideLost(q, approval, now) =>
      q !in s.actors && approval in s.db.approvals
      && !Decidable(s.db.approvals, s.db.approvals[approval].org, approval, now)
    case Refresh(q) => IsRefused(s, q) && s.actors[q].why.Refreshing?
    case Lapse(q) => IsRefused(s, q) && s.actors[q].why.Lapsing?
    case ReadRun(q) => IsDeciding(s, q) && s.actors[q].then_.Won?
    case Claim(q) => IsDeciding(s, q) && s.actors[q].then_.Checked?
    case Execute(q, entered, reached) =>
      && IsDeciding(s, q) && s.actors[q].then_.Claimed?
      && (entered ==> MayEnter(s.db.executions[s.actors[q].exec].requiresApproval, s.actors[q].approve))
    case RecordOutcome(q) => IsDeciding(s, q) && s.actors[q].then_.Executed?
    case Resume(q) => IsDeciding(s, q) && s.actors[q].then_.Recorded?
    case Cancel(run) => run in s.db.runs
    case CancelWorkflow(_, _) => true
    case Expire(_, _) => true
    case SweepAbandoned(_, _) => true
  }

  // -- Effects --------------------------------------------------------------------

  /** A driver's session still holds no error for the run, so writing none again reaches no column. */
  function WriteState(db: Db, run: Id, status: AgentRunStatus, code: Option<string>): Db
    requires run in db.runs
  {
    var row := db.runs[run];
    db.(runs := db.runs[run := row.(status := status, errorCode := if code.Some? then code else row.errorCode)])
  }

  function ExpireDb(db: Db, org: Id, now: Instant): Db
  {
    db.(approvals := ExpireRows(db.approvals, org, now),
        runs := FailAgentRuns(db.runs, org, HeldRuns(db.approvals, org, now)))
  }

  /** `AgentExecutionService.cancel`: both updates, or a rollback of both. */
  function CancelDb(db: Db, run: Id): Db
    requires run in db.runs
  {
    var org := db.runs[run].org;
    if WithdrawnIds(db.approvals, org, AgentRun(run)) != {} && Cancellable(db.runs, org, run)
    then db.(approvals := WithdrawRows(db.approvals, org, AgentRun(run)),
             runs := CancelPausedRows(db.runs, org, run))
    else db
  }

  /** A workflow's cancellation: the agent's question goes with it, the agent's run does not. */
  function CancelWorkflowDb(db: Db, org: Id, workflowRun: Id): Db
  {
    db.(approvals := WithdrawRows(db.approvals, org, WorkflowRun(workflowRun)))
  }

  function To(s: State, q: Id, at: DrivePc): State
    requires IsDriving(s, q)
  {
    s.(actors := s.actors[q := Driving(s.actors[q].run, at)])
  }

  function Onto(s: State, q: Id, at: DecidePc): State
    requires IsDeciding(s, q)
  {
    s.(actors := s.actors[q := s.actors[q].(then_ := at)])
  }

  function Gone(s: State, q: Id): State {
    s.(actors := s.actors - {q})
  }

  function Log(s: State, e: Event): State {
    s.(log := s.log + [e])
  }

  function Do(s: State, t: Step): State
    requires Enabled(true, s, t)
  {
    match t
    case CreateRun(q, run, org) =>
      s.(db := s.db.(runs := s.db.runs[run := RunRow(org, AgentRunStatus.Pending, None)]),
         actors := s.actors[q := Driving(run, Created)])
    case Begin(q) =>
      var r := s.actors[q].run;
      Log(To(s.(db := WriteState(s.db, r, Running, None)), q, Looping), StateWritten(r))
    case CallModel(q) => Log(To(s, q, Called), ModelCall(s.actors[q].run))
    case RecordStep(q) =>
      // the session already holds RUNNING, so only counters reach the row
      Log(To(s, q, Chosen), StateWritten(s.actors[q].run))
    case StoreAnswer(q) => Log(To(s, q, Answered), TurnStored(s.actors[q].run))
    case RunTool(q, exec, gated, entered, asks, reached) =>
      var s1 := To(s.(issued := s.issued + {exec}), q, Ran(exec, gated, asks, reached));
      if entered then Log(s1, ToolBody(s.actors[q].run, exec, None)) else s1
    case RecordTool(q) =>
      var at := s.actors[q].at;
      var row := ExecRow(s.db.runs[s.actors[q].run].org, s.actors[q].run, at.gated, at.reached);
      To(s.(db := s.db.(executions := s.db.executions[at.exec := row])), q, Told(at.exec, at.asks))
    case StoreRequest(q) =>
      var at := s.actors[q].at;
      Log(To(s, q, if at.asks then Asking(at.exec) else Performing), TurnStored(s.actors[q].run))
    case AskApproval(q, approval, requestedAt, expiresAt, stamp) =>
      // a workflow stamps the row with its run once the agent has paused; only its cancellation reads the stamp
      var r := s.actors[q].run;
      var row := Approval(s.db.runs[r].org, Some(r), Some(s.actors[q].at.exec), stamp, None, None,
                          requestedAt, expiresAt, ApprovalStatus.Pending, None, None, None);
      To(s.(db := s.db.(approvals := s.db.approvals[approval := row])), q, Pausing(approval))
    case Pause(q) =>
      var r := s.actors[q].run;
      Log(Gone(s.(db := WriteState(s.db, r, AwaitingApproval, None)), q), StateWritten(r))
    case StoreResult(q) => Log(To(s, q, Looping), TurnStored(s.actors[q].run))
    case Finish(q, status, code) =>
      var r := s.actors[q].run;
      Log(Gone(s.(db := WriteState(s.db, r, status, code)), q), StateWritten(r))
    case Vanish(q) => Gone(s, q)
    case Decide(q, approval, approve, decider, reason, now) =>
      var a := s.db.approvals[approval];
      var row := Decided(a, if approve then Approved else Rejected, decider, reason, now);
      Log(s.(db := s.db.(approvals := s.db.approvals[approval := row]),
             actors := s.actors[q := Deciding(approval, a.runId.value, a.executionId.value, approve, Won)]),
          DecisionWon(approval))
    case DecideLost(q, approval, now) =>
      s.(actors := s.actors[q := Refused(approval, now, Refreshing)])
    case Refresh(q) =>
      var a := s.actors[q].approval;
      var status := s.db.approvals[a].status;
      if status == Expired then Log(Gone(s, q), DecisionRefused(a, true))
      else if status != ApprovalStatus.Pending then Log(Gone(s, q), DecisionRefused(a, false))
      else s.(actors := s.actors[q := s.actors[q].(why := Lapsing)])
    case Lapse(q) =>
      var a := s.actors[q].approval;
      var org := s.db.approvals[a].org;
      var lapsed := LapsedIds(s.db.approvals, org, s.actors[q].now);
      Log(Gone(s.(db := ExpireDb(s.db, org, s.actors[q].now)), q), DecisionRefused(a, lapsed != {}))
    case ReadRun(q) =>
      if s.db.runs[s.actors[q].run].status == AwaitingApproval then Onto(s, q, Checked) else Gone(s, q)
    case Claim(q) =>
      var a := s.actors[q];
      var org := s.db.approvals[a.approval].org;
      if a.approve && !Claimable(s.db.executions, org, a.exec) then Log(Gone(s, q), ClaimRefused(a.approval))
      else if a.approve then Onto(s.(db := s.db.(executions := ClaimRows(s.db.executions, org, a.exec))), q, Claimed)
      else Onto(s, q, Claimed)
    case Execute(q, entered, reached) =>
      var a := s.actors[q];
      var s1 := Onto(s, q, Executed(reached));
      if entered then Log(s1, ToolBody(a.run, a.exec, if a.approve then Some(a.approval) else None)) else s1
    case RecordOutcome(q) =>
      var a := s.actors[q];
      var row := s.db.executions[a.exec];
      Onto(s.(db := s.db.(executions := s.db.executions[a.exec := row.(executed := row.executed || a.then_.outcomeReached)])),
           q, Recorded)
    case Resume(q) =>
      var r := s.actors[q].run;
      Log(s.(db := WriteState(s.db, r, Running, None), actors := s.actors[q := Driving(r, Resumed)]), StateWritten(r))
    case Cancel(run) => s.(db := CancelDb(s.db, run))
    case CancelWorkflow(org, workflowRun) => s.(db := CancelWorkflowDb(s.db, org, workflowRun))
    case Expire(org, now) => s.(db := ExpireDb(s.db, org, now))
    case SweepAbandoned(org, stale) => s.(db := s.db.(runs := SweepRows(s.db.runs, org, stale)))
  }

  // -- Histories --------------------------------------------------------------------

  ghost predicate Next(weak: bool, s: State, t: Step, s': State) {
    Enabled(weak, s, t) && s' == Do(s, t)
  }

  /** `states` is a history that `steps` produce from the empty database. */
  ghost predicate History(weak: bool, states: seq<State>, steps: seq<Step>) {
    && |states| == |steps| + 1
    && states[0] == EMPTY
    && forall i :: 0 <= i < |steps| ==> Next(weak, states[i], steps[i], states[i + 1])
  }
}
