/**
 What the store holds at every commit: exactly the conversation in memory, told as requests each
 followed by its own result, with at most the last one still waiting.
 */
module Storage {
  import opened Lifecycle
  import opened Rows
  import opened Messages
  import opened Conversation
  import opened AgentModels
  import opened RunJournal
  import opened Runner
  import opened Transparency

  predicate IsRequest(row: MessageRow) {
    HasType(Metadata(row), TURN_TOOL_REQUEST)
  }

  /** A result under the id and the name the request was made with. */
  predicate Matched(request: MessageRow, result: MessageRow) {
    && IsRequest(request) && HasType(Metadata(result), TURN_TOOL_RESULT)
    && Get(Metadata(result), "execution_id") == Get(Metadata(request), "tool_execution_id")
    && Get(Metadata(result), "tool_name") == Get(Metadata(request), "tool_name")
  }

  /** Request, result, request, result, ... */
  predicate Paired(rows: seq<MessageRow>) {
    rows == [] || (|rows| >= 2 && Matched(rows[|rows| - 2], rows[|rows| - 1]) && Paired(rows[..|rows| - 2]))
  }

  /** ... and at most one request nobody has answered yet, which is the last row. */
  predicate Tidy(rows: seq<MessageRow>) {
    Paired(rows) || (rows != [] && IsRequest(rows[|rows| - 1]) && Paired(rows[..|rows| - 1]))
  }

  /** One commit, of a run that began when the store held `past`. */
  predicate Faithful(cfg: Config, past: seq<MessageRow>, s: Snapshot) {
    && Rebuild(cfg.dumps, s.rows) == Some(s.memory)
    && past <= s.rows && Tidy(s.rows[|past|..])
  }

  /** Every commit from the `since`-th on. */
  predicate Logged(cfg: Config, past: seq<MessageRow>, since: nat, j: Ledger) {
    since <= |j.commits| && forall i | since <= i < |j.commits| :: Faithful(cfg, past, j.commits[i])
  }

  function Now(m: Machine): Snapshot {
    Durable(m.journal, m.conversation)
  }

  /** The commit stored the conversation of `m`, and held the conversation of `m`. */
  predicate Tells(s: Snapshot, m: Machine) {
    s.rows == m.journal.rows && s.memory == m.conversation
  }

  predicate Held(cfg: Config, past: seq<MessageRow>, since: nat, m: Machine) {
    Logged(cfg, past, since, m.journal) && Faithful(cfg, past, Now(m))
  }

  /** Nobody is being waited for. */
  predicate Even(cfg: Config, past: seq<MessageRow>, since: nat, m: Machine) {
    Held(cfg, past, since, m) && Paired(m.journal.rows[|past|..])
  }

  /** The last row asks for `request`, under `executionId`. */
  predicate Waiting(cfg: Config, past: seq<MessageRow>, since: nat, m: Machine, request: ToolRequest, executionId: string) {
    && Held(cfg, past, since, m)
    && |past| < |m.journal.rows|
    && Paired(m.journal.rows[|past|..|m.journal.rows| - 1])
    && m.journal.rows[|m.journal.rows| - 1].metadata == Some(ToolRequestPayload(request, Some(executionId)))
  }

  // -- Writing nothing into the conversation ----------------------------------------------

  /** Commits may happen, but nothing is said. */
  predicate Silent(m: Machine, m': Machine) {
    && Tells(Now(m'), m)
    && m.journal.commits <= m'.journal.commits
    && forall i | |m.journal.commits| <= i < |m'.journal.commits| :: Tells(m'.journal.commits[i], m)
  }

  lemma SilentKeepsHeld(cfg: Config, past: seq<MessageRow>, since: nat, m: Machine, m': Machine)
    requires Silent(m, m') && Held(cfg, past, since, m)
    ensures Held(cfg, past, since, m')
  {
    forall i | since <= i < |m'.journal.commits| ensures Faithful(cfg, past, m'.journal.commits[i]) {
      if i < |m.journal.commits| { assert m'.journal.commits[i] == m.journal.commits[i]; }
    }
  }

  lemma SilentSteps(m: Machine, code: string, executionId: string)
    ensures Silent(m, GiveUp(m, code).end) && Silent(m, Stop(m).end) && Silent(m, Pause(m, executionId))
  {
  }

  lemma SilentModelCall(cfg: Config, m: Machine, decision: Decision, usage: Usage)
    ensures Silent(m, Sent(cfg, m)) && Silent(m, StepTaken(Sent(cfg, m), decision, usage))
  {
  }

  // -- Writing a request, and its result ----------------------------------------------------

  /** One turn said and stored, and committed. */
  predicate Said(m: Machine, m': Machine, row: MessageRow, message: LLMMessage) {
    && m'.journal.rows == m.journal.rows + [row] && m'.conversation == m.conversation + [message]
    && m'.journal.commits == m.journal.commits + [Now(m')]
  }

  lemma SaidKeepsHeld(cfg: Config, past: seq<MessageRow>, since: nat, m: Machine, m': Machine, row: MessageRow, message: LLMMessage)
    requires Held(cfg, past, since, m) && Said(m, m', row, message)
    requires RebuildRow(cfg.dumps, row) == Kept(message)
    requires Tidy(m.journal.rows[|past|..] + [row])
    ensures Held(cfg, past, since, m')
  {
    RebuildOneMore(cfg.dumps, m.journal.rows, row);
    assert m'.journal.rows[|past|..] == m.journal.rows[|past|..] + [row];
  }

  lemma RequestIsKept(cfg: Config, request: ToolRequest, executionId: string, at: nat)
    ensures var row := RowOf(RequestedTurn(cfg, request, executionId), at);
            && RebuildRow(cfg.dumps, row) == Kept(Requested(cfg, request))
            && IsRequest(row) && row.metadata == Some(ToolRequestPayload(request, Some(executionId)))
  {
  }

  lemma ResultIsKept(cfg: Config, request: ToolRequest, result: ToolResult, at: nat)
    ensures var row := RowOf(PerformedTurn(cfg, request, result), at);
            && RebuildRow(cfg.dumps, row) == Kept(Performed(cfg, request, result))
            && row.metadata == Some(ToolResultPayload(LLMResultOf(request, result)))
  {
    ResultRoundTrip(LLMResultOf(request, result));
  }

  lemma PayloadsMatch(asked: MessageRow, told: MessageRow, request: ToolRequest, result: ToolResult)
    requires asked.metadata == Some(ToolRequestPayload(request, Some(result.executionId)))
    requires told.metadata == Some(ToolResultPayload(LLMResultOf(request, result)))
    ensures Matched(asked, told)
  {
  }

  lemma AskOpens(cfg: Config, past: seq<MessageRow>, since: nat, m: Machine, request: ToolRequest, result: ToolResult)
    requires Even(cfg, past, since, m)
    ensures Waiting(cfg, past, since, Ask(cfg, m, request, result), request, result.executionId)
  {
    var attempt := ToolAttempt(Called(m, RecordTool).run.stepCount, request.toolName, result);
    var m1 := Called(m, RecordTool).(journal := ToolRecorded(m.journal, attempt, m.conversation));
    var a := Ask(cfg, m, request, result);
    var turn := RequestedTurn(cfg, request, result.executionId);
    var row := RowOf(turn, NextSequence(m.journal.rows));
    assert Silent(m, m1);
    SilentKeepsHeld(cfg, past, since, m, m1);
    AppendOne(m.journal.rows, turn);
    RequestIsKept(cfg, request, result.executionId, NextSequence(m.journal.rows));
    assert (m.journal.rows[|past|..] + [row])[..|m.journal.rows| - |past|] == m.journal.rows[|past|..];
    SaidKeepsHeld(cfg, past, since, m1, a, row, Requested(cfg, request));
    assert a.journal.rows[|past|..|a.journal.rows| - 1] == m.journal.rows[|past|..];
  }

  lemma ResultCloses(cfg: Config, past: seq<MessageRow>, since: nat, m: Machine, request: ToolRequest, result: ToolResult)
    requires Waiting(cfg, past, since, m, request, result.executionId)
    ensures Even(cfg, past, since, ResultStored(cfg, m, request, result))
  {
    hide Faithful, Rebuild, Matched, ToolRequestPayload, ToolResultPayload, Performed;
    var m' := ResultStored(cfg, m, request, result);
    var turn := PerformedTurn(cfg, request, result);
    var row := RowOf(turn, NextSequence(m.journal.rows));
    var suffix := m.journal.rows[|past|..];
    AppendOne(m.journal.rows, turn);
    ResultIsKept(cfg, request, result, NextSequence(m.journal.rows));
    PayloadsMatch(m.journal.rows[|m.journal.rows| - 1], row, request, result);
    assert (suffix + [row])[..|suffix| - 1] == m.journal.rows[|past|..|m.journal.rows| - 1];
    assert Paired(suffix + [row]);
    SaidKeepsHeld(cfg, past, since, m, m', row, Performed(cfg, request, result));
    assert m'.journal.rows[|past|..] == suffix + [row];
  }

  // -- How a request leaves the store ----------------------------------------------------------

  predicate RowSays(row: MessageRow, turn: RecordedTurn) {
    row == RowOf(turn, row.sequence)
  }

  /** The answer is stored, and the two commits that close the run are the only ones that say so. */
  predicate AnsweredWell(cfg: Config, past: seq<MessageRow>, since: nat, end: Machine) {
    var j := end.journal;
    && |j.commits| >= since + 2
    && (forall i | since <= i < |j.commits| - 2 :: Faithful(cfg, past, j.commits[i]))
    && Tells(j.commits[|j.commits| - 2], end) && Tells(j.commits[|j.commits| - 1], end)
    && end.run.finalResponse.Some?
    && Rebuild(cfg.dumps, j.rows) == Some(end.conversation + [AssistantTurn(end.run.finalResponse.value)])
    && |past| < |j.rows| && past <= j.rows && Paired(j.rows[|past|..|j.rows| - 1])
    && RowSays(j.rows[|j.rows| - 1], AnswerTurn(end.run.finalResponse.value))
  }

  predicate Closed(cfg: Config, past: seq<MessageRow>, since: nat, end: Machine) {
    if end.run.status == Completed then AnsweredWell(cfg, past, since, end)
    else
      && Held(cfg, past, since, end)
      && (end.run.status == AgentRunStatus.AwaitingApproval ==>
            end.run.pending.Some? && end.journal.rows != []
            && Requests(end.journal.rows[|end.journal.rows| - 1], end.run.pending.value))
  }

  /** Where a pass, or a resumption, leaves the store. */
  predicate Left(cfg: Config, past: seq<MessageRow>, since: nat, p: Progress) {
    if p.Going? then Even(cfg, past, since, p.m) else Closed(cfg, past, since, p.end)
  }

  lemma LeavingQuietly(cfg: Config, past: seq<MessageRow>, since: nat, m: Machine, code: string)
    requires Held(cfg, past, since, m) && m.run.status == Running
    ensures Closed(cfg, past, since, GiveUp(m, code).end) && Closed(cfg, past, since, Stop(m).end)
  {
    SilentSteps(m, code, "");
    SilentKeepsHeld(cfg, past, since, m, GiveUp(m, code).end);
    SilentKeepsHeld(cfg, past, since, m, Stop(m).end);
  }

  lemma AnsweringCloses(cfg: Config, past: seq<MessageRow>, since: nat, m: Machine, content: string)
    requires Even(cfg, past, since, m) && m.run.status == Running
    ensures Closed(cfg, past, since, Answer(m, content).end)
  {
    var turn := AnswerTurn(content);
    var row := RowOf(turn, NextSequence(m.journal.rows));
    var end := Answer(m, content).end;
    AppendOne(m.journal.rows, turn);
    RebuildOneMore(cfg.dumps, m.journal.rows, row);
    assert end.journal.rows == m.journal.rows + [row];
    assert |end.journal.commits| == |m.journal.commits| + 2 && end.journal.commits[..|m.journal.commits|] == m.journal.commits;
    assert end.journal.rows[|past|..|end.journal.rows| - 1] == m.journal.rows[|past|..];
  }

  lemma PausingCloses(cfg: Config, past: seq<MessageRow>, since: nat, m: Machine, request: ToolRequest, executionId: string)
    requires Waiting(cfg, past, since, m, request, executionId) && m.run.status == Running
    ensures Closed(cfg, past, since, Pause(m, executionId))
    ensures Waiting(cfg, past, since, Pause(m, executionId), request, executionId)
  {
    hide Faithful, Paired;
    SilentSteps(m, "", executionId);
    SilentKeepsHeld(cfg, past, since, m, Pause(m, executionId));
  }

  lemma PerformingLeaves(cfg: Config, past: seq<MessageRow>, since: nat, m: Machine, request: ToolRequest, result: ToolResult)
    requires Waiting(cfg, past, since, m, request, result.executionId) && m.run.status == Running
    ensures Left(cfg, past, since, Perform(cfg, m, request, result))
  {
    hide Waiting, Even, Held, Closed, ResultStored, GiveUp;
    ResultCloses(cfg, past, since, m, request, result);
    EvenIsHeld(cfg, past, since, ResultStored(cfg, m, request, result));
    LeavingQuietly(cfg, past, since, ResultStored(cfg, m, request, result), CONVERSATION_TOO_LARGE);
  }

  lemma EvenIsHeld(cfg: Config, past: seq<MessageRow>, since: nat, m: Machine)
    requires Even(cfg, past, since, m)
    ensures Held(cfg, past, since, m)
  {
  }

  lemma WaitingIsHeld(cfg: Config, past: seq<MessageRow>, since: nat, m: Machine, request: ToolRequest, executionId: string)
    requires Waiting(cfg, past, since, m, request, executionId)
    ensures Held(cfg, past, since, m)
  {
  }

  lemma HeedingLeaves(cfg: Config, past: seq<MessageRow>, since: nat, o: Oracle, n: nat, m: Machine,
                      request: ToolRequest, result: ToolResult)
    requires Waiting(cfg, past, since, m, request, result.executionId) && m.run.status == Running
    ensures Left(cfg, past, since, Heed(cfg, o, n, m, request, result))
  {
    hide Waiting, Even, Held, Closed, Perform, Pause, Stop, GiveUp;
    WaitingIsHeld(cfg, past, since, m, request, result.executionId);
    LeavingQuietly(cfg, past, since, m, RUN_ERROR);
    PausingCloses(cfg, past, since, m, request, result.executionId);
    PerformingLeaves(cfg, past, since, m, request, result);
  }

  lemma ActingLeaves(cfg: Config, past: seq<MessageRow>, since: nat, o: Oracle, n: nat, m: Machine, decision: Decision)
    requires Even(cfg, past, since, m) && m.run.status == Running
    ensures Left(cfg, past, since, Act(cfg, o, n, m, decision))
  {
    hide Waiting, Even, Held, Closed, Heed, Ask, Stop, Answer;
    match decision
    case Final(content) => AnsweringCloses(cfg, past, since, m, content);
    case AskTool(tool) =>
      if o.tripped(n, BeforeTool) {
        EvenIsHeld(cfg, past, since, m);
        LeavingQuietly(cfg, past, since, m, "");
      } else {
        AskOpens(cfg, past, since, m, tool, o.execute(n, tool));
        HeedingLeaves(cfg, past, since, o, n, Ask(cfg, m, tool, o.execute(n, tool)), tool, o.execute(n, tool));
      }
  }

  lemma SilentKeepsEven(cfg: Config, past: seq<MessageRow>, since: nat, m: Machine, m': Machine)
    requires Silent(m, m') && Even(cfg, past, since, m)
    ensures Even(cfg, past, since, m')
  {
    SilentKeepsHeld(cfg, past, since, m, m');
  }

  /** One pass of the loop leaves the store telling what memory tells, at each of its commits. */
  lemma PassLeaves(cfg: Config, past: seq<MessageRow>, since: nat, o: Oracle, m: Machine)
    requires Even(cfg, past, since, m) && m.run.status == Running
    ensures Left(cfg, past, since, Pass(cfg, o, m))
  {
    hide Even, Held, Closed, Act, Stop, GiveUp, StepTaken, Sent, Silent;
    var n := m.run.stepCount + 1;
    if o.tripped(n, BeforeStep) {
      EvenIsHeld(cfg, past, since, m);
      LeavingQuietly(cfg, past, since, m, "");
    } else {
      match o.reply(n, BuildMessages(cfg, m.conversation))
      case Raised(code) =>
        SilentModelCall(cfg, m, Final(""), Usage(0, 0));
        SentRuns(cfg, m);
        SilentKeepsEven(cfg, past, since, m, Sent(cfg, m));
        EvenIsHeld(cfg, past, since, Sent(cfg, m));
        LeavingQuietly(cfg, past, since, Sent(cfg, m), code);
      case Decided(decision, usage) =>
        SilentModelCall(cfg, m, decision, usage);
        SentRuns(cfg, m);
        SilentKeepsEven(cfg, past, since, m, StepTaken(Sent(cfg, m), decision, usage));
        ActingLeaves(cfg, past, since, o, n, StepTaken(Sent(cfg, m), decision, usage), decision);
    }
  }

  lemma SentRuns(cfg: Config, m: Machine)
    ensures Sent(cfg, m).run == m.run
  {
  }

  // -- Across a pause ---------------------------------------------------------------------------

  lemma ResumingLeaves(cfg: Config, past: seq<MessageRow>, since: nat, end: Machine, request: ToolRequest, answer: ToolResult)
    requires Waiting(cfg, past, since, end, request, answer.executionId)
    requires end.run.status == AgentRunStatus.AwaitingApproval
    ensures Left(cfg, past, since, ResumeWith(cfg, end, Reopened(end.run, end.conversation, request), answer))
  {
    var handed := HandedOver(end, Reopened(end.run, end.conversation, request), answer);
    var m2 := SaveState(Called(handed, Resume));
    StillWaiting(cfg, past, since, end, handed, m2, request, answer);
    assert m2.run.status == Running;
    hide Waiting, Perform, TakeUp, Held, Even;
    WaitingIsHeld(cfg, past, since, m2, request, answer.executionId);
    if Buildable(answer) {
      TakenUpIsPerforming(cfg, handed, request, answer);
      PerformingLeaves(cfg, past, since, m2, request, answer);
    } else {
      UntoldIsLeftRunning(cfg, handed, request, answer);
    }
  }

  /** Recording the outcome and the new state says nothing yet. */
  lemma StillWaiting(cfg: Config, past: seq<MessageRow>, since: nat, end: Machine, handed: Machine, m2: Machine,
                     request: ToolRequest, answer: ToolResult)
    requires Waiting(cfg, past, since, end, request, answer.executionId)
    requires handed == HandedOver(end, Reopened(end.run, end.conversation, request), answer)
    requires m2 == SaveState(Called(handed, Resume))
    ensures Waiting(cfg, past, since, m2, request, answer.executionId)
  {
    hide Faithful, ToolRequestPayload, Paired;
    assert Silent(end, m2);
    SilentKeepsHeld(cfg, past, since, end, m2);
  }

  /** Where a pause is read back from, while a replay reaches it: what it asked, and what it holds. */
  lemma PausedHolds(cfg: Config, o: Oracle, m: Machine)
    requires Live(m.run) && Stored(cfg, m) && |m.journal.rows| < MAX_REPLAYED_MESSAGES && Paused(Pass(cfg, o, m))
    ensures Consults(cfg, o, m)
    ensures var n := m.run.stepCount + 1;
            var tool := o.reply(n, BuildMessages(cfg, m.conversation)).decision.request;
            var asked := o.execute(n, tool);
            var end := Pause(Ask(cfg, Deciding(cfg, o, m), tool, asked), asked.executionId);
            && Pass(cfg, o, m).end == end
            && end.run.pending == Some(asked.executionId) && end.run.status == AgentRunStatus.AwaitingApproval
            && end.conversation == m.conversation + [Requested(cfg, tool)]
            && Reopen(cfg, end.journal, asked.executionId) == Reopened(end.run, end.conversation, tool)
            && Stored(cfg, end)
            && end.journal.rows == m.journal.rows + [RowOf(RequestedTurn(cfg, tool, asked.executionId), NextSequence(m.journal.rows))]
  {
    PausedMeansAsked(cfg, o, m);
    var n := m.run.stepCount + 1;
    var tool := o.reply(n, BuildMessages(cfg, m.conversation)).decision.request;
    var asked := o.execute(n, tool);
    var d := Deciding(cfg, o, m);
    assert d.conversation == m.conversation && d.run.status == Running;
    hide Ask, Pass, Reopen, Sent, StepTaken, BuildMessages, Deciding, Requested, RequestedTurn;
    PassThatConsults(cfg, o, m);
    ReopenFindsThePause(cfg, d, tool, asked);
    AskStores(cfg, d, tool, asked);
    AskRunsOn(cfg, d, tool, asked);
    PauseHolds(Ask(cfg, d, tool, asked), asked.executionId);
  }

  lemma AskRunsOn(cfg: Config, m: Machine, request: ToolRequest, result: ToolResult)
    ensures Ask(cfg, m, request, result).conversation == m.conversation + [Requested(cfg, request)]
    ensures m.run.status == Running ==> Ask(cfg, m, request, result).run.status == Running
  {
  }

  lemma AnsweredLeaves(cfg: Config, past: seq<MessageRow>, since: nat, o: Oracle, answers: Answers, m: Machine)
    requires Live(m.run) && Stored(cfg, m) && |m.journal.rows| < MAX_REPLAYED_MESSAGES && Paused(Pass(cfg, o, m))
    requires Even(cfg, past, since, m)
    ensures Left(cfg, past, since, Answered(cfg, answers, Pass(cfg, o, m).end))
  {
    hide Even, Waiting, Held, Closed, ResumeWith, Ask, Pause, Deciding, Reopen, Pass, Stored, Roomy, Live, BuildMessages, Requested;
    PausedHolds(cfg, o, m);
    var n := m.run.stepCount + 1;
    var tool := o.reply(n, BuildMessages(cfg, m.conversation)).decision.request;
    var asked := o.execute(n, tool);
    var d := Deciding(cfg, o, m);
    var end := Pause(Ask(cfg, d, tool, asked), asked.executionId);
    DecidingIsEven(cfg, past, since, o, m);
    DecidingRuns(cfg, o, m);
    AskOpens(cfg, past, since, d, tool, asked);
    AskRunsOn(cfg, d, tool, asked);
    PausingCloses(cfg, past, since, Ask(cfg, d, tool, asked), tool, asked.executionId);
    if answers(end.run.stepCount, tool).Some? {
      ResumingLeaves(cfg, past, since, end, tool, Named(answers(end.run.stepCount, tool).value, asked.executionId));
    }
  }

  lemma DecidingRuns(cfg: Config, o: Oracle, m: Machine)
    requires o.reply(m.run.stepCount + 1, BuildMessages(cfg, m.conversation)).Decided? && Live(m.run)
    ensures Deciding(cfg, o, m).run.status == Running
  {
  }

  lemma PauseHolds(a: Machine, executionId: string)
    requires a.run.status == Running
    ensures Pause(a, executionId).conversation == a.conversation
    ensures Pause(a, executionId).run.pending == Some(executionId)
    ensures Pause(a, executionId).run.status == AgentRunStatus.AwaitingApproval
    ensures Pause(a, executionId).run.stepCount == a.run.stepCount
  {
  }

  lemma DecidingIsEven(cfg: Config, past: seq<MessageRow>, since: nat, o: Oracle, m: Machine)
    requires o.reply(m.run.stepCount + 1, BuildMessages(cfg, m.conversation)).Decided?
    requires Even(cfg, past, since, m)
    ensures Even(cfg, past, since, Deciding(cfg, o, m))
  {
    var d := o.reply(m.run.stepCount + 1, BuildMessages(cfg, m.conversation));
    SilentModelCall(cfg, m, d.decision, d.usage);
    SilentKeepsEven(cfg, past, since, m, Deciding(cfg, o, m));
  }

  /**
   What a pause is read back by is not mistaken: a replay reaches the end of the conversation, or the
   ids steps are given are drawn once.
   */
  ghost predicate Findable(cfg: Config, o: Oracle, m: Machine) {
    Roomy(cfg, m) || Unreused(o, m)
  }

  /** Past the rows a replay reads, under an id of its own, a pause is not found, and stays. */
  lemma PastTheWindowStaysPaused(cfg: Config, o: Oracle, answers: Answers, m: Machine)
    requires Live(m.run) && Stored(cfg, m) && |m.journal.rows| >= MAX_REPLAYED_MESSAGES && Unreused(o, m)
    requires Paused(Pass(cfg, o, m))
    ensures Answered(cfg, answers, Pass(cfg, o, m).end) == Ended(Pass(cfg, o, m).end, Returned)
  {
    PausedMeansAsked(cfg, o, m);
    var n := m.run.stepCount + 1;
    var tool := o.reply(n, BuildMessages(cfg, m.conversation)).decision.request;
    var asked := o.execute(n, tool);
    var d := Deciding(cfg, o, m);
    var a := Ask(cfg, d, tool, asked);
    assert d.run.status == Running && d.journal.rows == m.journal.rows;
    NobodyAsked(o, m, n, tool);
    hide Ask, Pass, Sent, StepTaken, BuildMessages, Deciding, Requests, Rebuild, Unreused;
    PassThatConsults(cfg, o, m);
    PauseIsFoundExactlyInTheWindow(cfg, d, tool, asked);
    AskStores(cfg, d, tool, asked);
    AskRunsOn(cfg, d, tool, asked);
    PauseHolds(a, asked.executionId);
  }

  lemma NobodyAsked(o: Oracle, m: Machine, n: nat, tool: ToolRequest)
    requires Unreused(o, m) && n > m.run.stepCount
    ensures forall i | 0 <= i < |m.journal.rows| :: !Requests(m.journal.rows[i], o.execute(n, tool).executionId)
  {
  }

  lemma {:induction false} ServedLeaves(cfg: Config, past: seq<MessageRow>, since: nat, o: Oracle, answers: Answers, m: Machine)
    requires Live(m.run) && Stored(cfg, m) && Findable(cfg, o, m) && Even(cfg, past, since, m)
    ensures Closed(cfg, past, since, Served(cfg, o, answers, m).end)
    decreases cfg.maxSteps - m.run.stepCount
  {
    RoomyMeansRead(cfg, m);
    hide Even, Held, Closed, Pass, Answered, Stored, Roomy, Unreused, GiveUp;
    EvenIsHeld(cfg, past, since, m);
    if m.run.stepCount >= cfg.maxSteps {
      LeavingQuietly(cfg, past, since, m, MAX_STEPS_EXCEEDED);
    } else {
      var pass := Pass(cfg, o, m);
      PassLeaves(cfg, past, since, o, m);
      if pass.Going? {
        PassKeepsStored(cfg, o, m);
        ServedLeaves(cfg, past, since, o, answers, pass.m);
      } else if Paused(pass) {
        if |m.journal.rows| < MAX_REPLAYED_MESSAGES {
          AnsweredLeaves(cfg, past, since, o, answers, m);
          var resumed := Answered(cfg, answers, pass.end);
          if resumed.Going? {
            ResumedIsReady(cfg, o, answers, m);
            ServedLeaves(cfg, past, since, o, answers, resumed.m);
          }
        } else {
          PastTheWindowStaysPaused(cfg, o, answers, m);
        }
      }
    }
  }

  lemma RoomyMeansRead(cfg: Config, m: Machine)
    ensures Roomy(cfg, m) ==> |m.journal.rows| < MAX_REPLAYED_MESSAGES
  {
  }

  /** A run that goes on from a pause can pause, and be picked up, again. */
  lemma ResumingIsReady(cfg: Config, end: Machine, again: Reopened, result: ToolResult)
    requires again.Reopened? && Rebuild(cfg.dumps, end.journal.rows) == Some(again.history)
    requires again.run == RebuiltRun(end.journal.record, result.executionId)
    requires ResumeWith(cfg, end, again, result).Going?
    ensures var next := ResumeWith(cfg, end, again, result).m;
            && Live(next.run) && Stored(cfg, next) && |next.conversation| <= cfg.maxMessages
            && next.journal.rows == end.journal.rows + [RowOf(PerformedTurn(cfg, again.request, result), NextSequence(end.journal.rows))]
            && |next.conversation| == |again.history| + 1
  {
    var handed := HandedOver(end, again, result);
    var m2 := SaveState(Called(handed, Resume));
    assert Buildable(result) && handed.run.status == AgentRunStatus.AwaitingApproval;
    assert Live(m2.run) && Stored(cfg, m2) && m2.journal.rows == end.journal.rows;
    assert m2.conversation == again.history;
    hide Perform, PerformedTurn, TakeUp, HandedOver, SaveState, Called, Stored;
    TakenUpIsPerforming(cfg, handed, again.request, result);
    PerformStores(cfg, m2, again.request, result);
  }

  lemma ResumedIsReady(cfg: Config, o: Oracle, answers: Answers, m: Machine)
    requires Live(m.run) && Stored(cfg, m) && |m.journal.rows| < MAX_REPLAYED_MESSAGES && Paused(Pass(cfg, o, m))
    requires Answered(cfg, answers, Pass(cfg, o, m).end).Going?
    ensures var next := Answered(cfg, answers, Pass(cfg, o, m).end).m;
            && Live(next.run) && Stored(cfg, next) && next.run.stepCount == m.run.stepCount + 1
            && (Roomy(cfg, m) ==> Roomy(cfg, next)) && (Unreused(o, m) ==> Unreused(o, next))
  {
    PausedHolds(cfg, o, m);
    PausesCount(cfg, o, m);
    var end := Pass(cfg, o, m).end;
    var n := m.run.stepCount + 1;
    var tool := o.reply(n, BuildMessages(cfg, m.conversation)).decision.request;
    assert Rebuild(cfg.dumps, end.journal.rows) == Some(end.conversation);
    hide Pass, ResumeWith, Pause, Ask, Deciding, Requested, RequestedTurn, PerformedTurn, BuildMessages, Reopen, Unreused, DistinctIds, NoneAhead;
    var id := end.run.pending.value;
    var again := Reopen(cfg, end.journal, id);
    var answer := Named(answers(again.run.stepCount, again.request).value, id);
    ResumingIsReady(cfg, end, again, answer);
    if Unreused(o, m) {
      UnreusedRows(o, m);
      AskedOnce(cfg, o, m.journal.rows, m.run.stepCount, tool, NextSequence(m.journal.rows));
      ToldKeepsUnreused(cfg, o, end.journal.rows, n, tool, answer, NextSequence(end.journal.rows));
      UnreusedRows(o, Answered(cfg, answers, end).m);
    }
  }

  /**
   Storage refines memory, over any number of pauses and whatever they are answered: at every commit of a run's life the rows
   rebuild to exactly the conversation in memory, plus the answer at the commits that complete it;
   what the run added is requests each followed by its own result, with at most the last one open;
   and a run that stays paused leaves the request it waits on as its last row.
   */
  lemma StorageRefinesMemory(cfg: Config, o: Oracle, answers: Answers, m: Machine)
    requires Live(m.run) && Stored(cfg, m) && Findable(cfg, o, m)
    ensures Closed(cfg, m.journal.rows, |m.journal.commits|, Served(cfg, o, answers, m).end)
  {
    assert m.journal.rows[|m.journal.rows|..] == [];
    assert Even(cfg, m.journal.rows, |m.journal.commits|, m);
    ServedLeaves(cfg, m.journal.rows, |m.journal.commits|, o, answers, m);
  }
}
