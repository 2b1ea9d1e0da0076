/**
 What a crash between any two commits of a run leaves behind: every stored request has its execution
 on record, every question its stored request, and a run that says it waits has a question to wait on.
 */
module Recovery {
  import opened Lifecycle
  import opened Rows
  import opened Messages
  import opened Conversation
  import opened AgentModels
  import opened RunJournal
  import opened Runner
  import opened Transparency
  import opened Accounts

  /** A request in the conversation names an execution on record. */
  predicate Known(tools: map<string, ToolRow>, row: MessageRow) {
    HasType(Metadata(row), TURN_TOOL_REQUEST) ==>
      var id := Get(Metadata(row), "tool_execution_id");
      id.JString? && id.text in tools
  }

  /** A question is about a request this run stored, from row `past` on. */
  predicate Stated(past: nat, rows: seq<MessageRow>, executionId: string) {
    exists i :: past <= i < |rows| && Requests(rows[i], executionId)
  }

  predicate Recoverable(past: nat, s: Snapshot) {
    && past <= |s.rows|
    && (forall i | past <= i < |s.rows| :: Known(s.tools, s.rows[i]))
    && (forall id | id in s.asked :: Stated(past, s.rows, id))
    && (s.record.status == AgentRunStatus.AwaitingApproval ==>
          s.asked != [] && s.rows != [] && Requests(s.rows[|s.rows| - 1], s.asked[|s.asked| - 1]))
  }

  function Now(m: Machine): Snapshot {
    Durable(m.journal, m.conversation)
  }

  /** So at every commit from the `since`-th on, and now. */
  predicate Kept(past: nat, since: nat, m: Machine) {
    && since <= |m.journal.commits|
    && (forall i | since <= i < |m.journal.commits| :: Recoverable(past, m.journal.commits[i]))
    && Recoverable(past, Now(m))
  }

  /** Kept, by a run whose row does not say it waits. */
  predicate Ready(past: nat, since: nat, m: Machine) {
    Kept(past, since, m) && m.journal.record.status != AgentRunStatus.AwaitingApproval
  }

  /** The newest row is a result, and tells what its execution's row says. */
  predicate Told(m: Machine) {
    m.journal.rows != []
    && var p := Metadata(m.journal.rows[|m.journal.rows| - 1]);
       && HasType(p, TURN_TOOL_RESULT) && Get(p, "execution_id").JString?
       && Get(p, "execution_id").text in m.journal.tools
       && Get(p, "outcome") == JString(OutcomeValue(m.journal.tools[Get(p, "execution_id").text].outcome))
  }

  lemma CommitKeeps(past: nat, since: nat, m: Machine, m': Machine)
    requires Kept(past, since, m) && m'.journal.commits == m.journal.commits + [Now(m')]
    requires Recoverable(past, Now(m'))
    ensures Kept(past, since, m')
  {
  }

  // -- One write each ---------------------------------------------------------------------------

  lemma StateKeeps(past: nat, since: nat, m: Machine, c: Call)
    requires Kept(past, since, m) && Apply(m.run, c).status != AgentRunStatus.AwaitingApproval
    ensures Ready(past, since, SaveState(Called(m, c)))
  {
    hide Apply;
    CommitKeeps(past, since, m, SaveState(Called(m, c)));
  }

  lemma StepKeeps(past: nat, since: nat, cfg: Config, m: Machine, decision: Decision, usage: Usage)
    requires Kept(past, since, m) && m.run.status == Running
    ensures Ready(past, since, StepTaken(Sent(cfg, m), decision, usage))
    ensures StepTaken(Sent(cfg, m), decision, usage).run.status == Running
  {
    CommitKeeps(past, since, Sent(cfg, m), StepTaken(Sent(cfg, m), decision, usage));
  }

  lemma ToolKeeps(past: nat, since: nat, m: Machine, m': Machine, attempt: ToolAttempt)
    requires Kept(past, since, m) && m'.conversation == m.conversation
    requires m'.journal == ToolRecorded(m.journal, attempt, m.conversation)
    ensures Kept(past, since, m') && attempt.result.executionId in m'.journal.tools
    ensures m'.journal.tools[attempt.result.executionId].outcome == attempt.result.outcome
    ensures m'.journal.record == m.journal.record && m'.journal.rows == m.journal.rows && m'.journal.asked == m.journal.asked
  {
    hide HasType;
    forall i | past <= i < |m.journal.rows| ensures Known(m'.journal.tools, m'.journal.rows[i]) {
      assert Known(m.journal.tools, m.journal.rows[i]);
    }
    CommitKeeps(past, since, m, m');
  }

  lemma TurnKeeps(past: nat, since: nat, m: Machine, m': Machine, turn: RecordedTurn)
    requires Ready(past, since, m) && m'.journal == TurnsRecorded(m.journal, [turn], m'.conversation)
    requires forall at: nat :: Known(m.journal.tools, RowOf(turn, at))
    ensures Ready(past, since, m')
    ensures |m'.journal.rows| > past && m'.journal.rows[|m'.journal.rows| - 1] == RowOf(turn, NextSequence(m.journal.rows))
    ensures m'.journal.tools == m.journal.tools
  {
    hide Known;
    AppendOne(m.journal.rows, turn);
    forall id | id in m'.journal.asked ensures Stated(past, m'.journal.rows, id) {
      assert Stated(past, m.journal.rows, id);
      var i :| past <= i < |m.journal.rows| && Requests(m.journal.rows[i], id);
      assert m'.journal.rows[i] == m.journal.rows[i];
    }
    CommitKeeps(past, since, m, m');
  }

  // -- The loop ----------------------------------------------------------------------------------

  /** The execution is written down before the request that names it. */
  lemma AskKeeps(past: nat, since: nat, cfg: Config, m: Machine, request: ToolRequest, result: ToolResult)
    requires Ready(past, since, m)
    ensures var a := Ask(cfg, m, request, result);
            && Ready(past, since, a) && |a.journal.rows| > past
            && Requests(a.journal.rows[|a.journal.rows| - 1], result.executionId)
            && result.executionId in a.journal.tools && a.journal.tools[result.executionId].outcome == result.outcome
  {
    var m1 := Called(m, RecordTool);
    var attempt := ToolAttempt(m1.run.stepCount, request.toolName, result);
    var m2 := m1.(journal := ToolRecorded(m1.journal, attempt, m1.conversation));
    var turn := RequestedTurn(cfg, request, result.executionId);
    RequestRoundTrip(request, result.executionId);
    hide Apply, Requested;
    ToolKeeps(past, since, m1, m2, attempt);
    TurnKeeps(past, since, m2, Ask(cfg, m, request, result), turn);
  }

  /** The question is asked before the run says it waits. */
  lemma PauseKeeps(past: nat, since: nat, m: Machine, executionId: string)
    requires Ready(past, since, m) && |m.journal.rows| > past
    requires Requests(m.journal.rows[|m.journal.rows| - 1], executionId)
    ensures Kept(past, since, Pause(m, executionId))
  {
    hide Apply, Requests, Known;
    var m1 := m.(journal := ApprovalRecorded(m.journal, executionId, m.conversation));
    forall id | id in m1.journal.asked ensures Stated(past, m1.journal.rows, id) {
      if id in m.journal.asked { assert Stated(past, m.journal.rows, id); }
    }
    CommitKeeps(past, since, m, m1);
    CommitKeeps(past, since, m1, Pause(m, executionId));
  }

  predicate Left(past: nat, since: nat, p: Progress) {
    if p.Going? then Ready(past, since, p.m) && Told(p.m) else Kept(past, since, p.end)
  }

  lemma GivingUpKeeps(past: nat, since: nat, m: Machine, code: string)
    requires Kept(past, since, m) && m.run.status == Running
    ensures Kept(past, since, GiveUp(m, code).end) && Kept(past, since, Stop(m).end)
  {
    hide Kept;
    StateKeeps(past, since, m, Fail(code));
    StateKeeps(past, since, m, Cancel);
    ReadyIsKept(past, since, SaveState(Called(m, Fail(code))));
    ReadyIsKept(past, since, SaveState(Called(m, Cancel)));
  }

  lemma ReadyIsKept(past: nat, since: nat, m: Machine)
    requires Ready(past, since, m)
    ensures Kept(past, since, m)
  {
  }

  lemma PerformKeeps(past: nat, since: nat, cfg: Config, m: Machine, request: ToolRequest, result: ToolResult)
    requires Ready(past, since, m) && m.run.status == Running
    requires result.executionId in m.journal.tools && m.journal.tools[result.executionId].outcome == result.outcome
    ensures Left(past, since, Perform(cfg, m, request, result))
  {
    var turn, told := PerformedTurn(cfg, request, result), ResultStored(cfg, m, request, result);
    ResultRoundTrip(LLMResultOf(request, result));
    hide Kept, Performed, GiveUp, TooLarge;
    TurnKeeps(past, since, m, told, turn);
    ReadyIsKept(past, since, told);
    GivingUpKeeps(past, since, told, CONVERSATION_TOO_LARGE);
  }

  lemma HeedKeeps(past: nat, since: nat, cfg: Config, o: Oracle, n: nat, m: Machine, request: ToolRequest, result: ToolResult)
    requires Ready(past, since, m) && m.run.status == Running && |m.journal.rows| > past
    requires Requests(m.journal.rows[|m.journal.rows| - 1], result.executionId)
    requires result.executionId in m.journal.tools && m.journal.tools[result.executionId].outcome == result.outcome
    ensures Left(past, since, Heed(cfg, o, n, m, request, result))
  {
    hide Kept, Pause, Perform, GiveUp, Stop, Told;
    ReadyIsKept(past, since, m);
    PauseKeeps(past, since, m, result.executionId);
    GivingUpKeeps(past, since, m, RUN_ERROR);
    PerformKeeps(past, since, cfg, m, request, result);
  }

  lemma AnswerKeeps(past: nat, since: nat, m: Machine, content: string)
    requires Ready(past, since, m) && m.run.status == Running
    ensures Kept(past, since, Answer(m, content).end)
  {
    var m1 := Called(m, Complete(content));
    var m2 := SaveTurn(m1, AnswerTurn(content));
    assert Ready(past, since, m1);
    TurnKeeps(past, since, m1, m2, AnswerTurn(content));
    CommitKeeps(past, since, m2, Answer(m, content).end);
  }

  lemma ActKeeps(past: nat, since: nat, cfg: Config, o: Oracle, n: nat, m: Machine, decision: Decision)
    requires Ready(past, since, m) && m.run.status == Running
    ensures Left(past, since, Act(cfg, o, n, m, decision))
  {
    hide Kept, Ask, Heed, Stop, Answer, Told;
    ReadyIsKept(past, since, m);
    match decision
    case Final(content) => AnswerKeeps(past, since, m, content);
    case AskTool(tool) =>
      GivingUpKeeps(past, since, m, "");
      UseToolIs(cfg, o, n, m, tool);
      AskKeeps(past, since, cfg, m, tool, o.execute(n, tool));
      AskRuns(cfg, m, tool, o.execute(n, tool));
      HeedKeeps(past, since, cfg, o, n, Ask(cfg, m, tool, o.execute(n, tool)), tool, o.execute(n, tool));
  }

  lemma AskRuns(cfg: Config, m: Machine, request: ToolRequest, result: ToolResult)
    requires m.run.status == Running
    ensures Ask(cfg, m, request, result).run.status == Running
  {
  }

  /** One pass of the loop. */
  lemma PassKeeps(past: nat, since: nat, cfg: Config, o: Oracle, m: Machine)
    requires Ready(past, since, m) && m.run.status == Running
    ensures Left(past, since, Pass(cfg, o, m))
  {
    var n := m.run.stepCount + 1;
    PassIs(cfg, o, m);
    assert Kept(past, since, Sent(cfg, m)) && Sent(cfg, m).run == m.run;
    hide Kept, Act, Stop, GiveUp, StepTaken, Sent, Told, Pass;
    GivingUpKeeps(past, since, m, "");
    match o.reply(n, BuildMessages(cfg, m.conversation))
    case Raised(code) => GivingUpKeeps(past, since, Sent(cfg, m), code);
    case Decided(decision, usage) =>
      StepKeeps(past, since, cfg, m, decision, usage);
      ActKeeps(past, since, cfg, o, n, StepTaken(Sent(cfg, m), decision, usage), decision);
  }

  // -- Across a pause ------------------------------------------------------------------------------

  lemma MemoryIsNotDurable(past: nat, since: nat, m: Machine, m': Machine)
    requires Kept(past, since, m) && m'.journal == m.journal
    ensures Kept(past, since, m')
  {
  }

  lemma TakingUpKeeps(past: nat, since: nat, cfg: Config, m: Machine, request: ToolRequest, result: ToolResult)
    requires Kept(past, since, m)
    requires result.executionId in m.journal.tools && m.journal.tools[result.executionId].outcome == result.outcome
    ensures Left(past, since, TakeUp(cfg, m, request, result))
  {
    if Accepts(m.run, Resume) {
      var m1 := SaveState(Called(m, Resume));
      StateKeeps(past, since, m, Resume);
      assert m1.run.status == Running && m1.journal.tools == m.journal.tools;
      ReadyIsKept(past, since, m1);
      hide Kept, Perform, Told;
      if Buildable(result) { PerformKeeps(past, since, cfg, m1, request, result); }
    }
  }

  lemma ResumingKeeps(past: nat, since: nat, cfg: Config, end: Machine, again: Reopened, result: ToolResult)
    requires Kept(past, since, end) && again.Reopened?
    ensures Left(past, since, ResumeWith(cfg, end, again, result))
  {
    var stepNumber := if end.journal.record.stepCount > 1 then end.journal.record.stepCount else 1;
    var attempt := ToolAttempt(stepNumber, again.request.toolName, result);
    MemoryIsNotDurable(past, since, end, end.(conversation := again.history));
    ToolKeeps(past, since, end.(conversation := again.history), HandedOver(end, again, result), attempt);
    hide Kept, TakeUp, HandedOver, Told;
    TakingUpKeeps(past, since, cfg, HandedOver(end, again, result), again.request, result);
  }

  lemma AnsweringKeeps(past: nat, since: nat, cfg: Config, answers: Answers, end: Machine)
    requires Kept(past, since, end) && end.run.pending.Some?
    ensures Left(past, since, Answered(cfg, answers, end))
  {
    var again := Reopen(cfg, end.journal, end.run.pending.value);
    hide Kept, Reopen, ResumeWith, Told, Named;
    if again.Reopened? && answers(again.run.stepCount, again.request).Some? {
      ResumingKeeps(past, since, cfg, end, again, Named(answers(again.run.stepCount, again.request).value, end.run.pending.value));
    }
  }

  lemma {:induction false} ServingKeeps(past: nat, since: nat, cfg: Config, o: Oracle, answers: Answers, m: Machine)
    requires Ready(past, since, m) && m.run.status == Running
    ensures Kept(past, since, Served(cfg, o, answers, m).end)
    decreases cfg.maxSteps - m.run.stepCount
  {
    hide Kept, Pass, Answered, GiveUp, Told;
    ReadyIsKept(past, since, m);
    if m.run.stepCount >= cfg.maxSteps {
      GivingUpKeeps(past, since, m, MAX_STEPS_EXCEEDED);
    } else {
      var pass := Pass(cfg, o, m);
      PassKeeps(past, since, cfg, o, m);
      if pass.Going? {
        ServingKeeps(past, since, cfg, o, answers, pass.m);
      } else if Paused(pass) {
        AnsweringKeeps(past, since, cfg, answers, pass.end);
        PausesCount(cfg, o, m);
        var resumed := Answered(cfg, answers, pass.end);
        if resumed.Going? { ServingKeeps(past, since, cfg, o, answers, resumed.m); }
      }
    }
  }

  /**
   Whatever the model, the tools and the people do, and whichever commit of a run's life is the last
   before a crash: every request stored since it began has its execution on record, every question its
   stored request, and a run whose row says it waits ends in the request its last question is about.
   */
  lemma EveryCommitIsRecoverable(cfg: Config, o: Oracle, answers: Answers, m: Machine, i: nat)
    requires m.run.status == Running && m.journal.record.status == Running && m.journal.asked == []
    requires |m.journal.commits| <= i < |Served(cfg, o, answers, m).end.journal.commits|
    ensures Recoverable(|m.journal.rows|, Served(cfg, o, answers, m).end.journal.commits[i])
  {
    var past, since := |m.journal.rows|, |m.journal.commits|;
    assert Ready(past, since, m);
    hide Served;
    ServingKeeps(past, since, cfg, o, answers, m);
  }
}
