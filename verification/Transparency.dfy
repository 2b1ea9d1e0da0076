/**
 A pause is not an ending: pausing on a tool, storing the conversation, rebuilding the run and
 resuming it with an answer comes to the same thing as never having paused.
 */
module Transparency {
  import opened Lifecycle
  import opened Rows
  import opened Messages
  import opened Conversation
  import opened AgentModels
  import opened RunJournal
  import opened Runner

  // -- Resuming from what is stored -----------------------------------------------------

  /** `_rebuild`: the working copy of a paused run. */
  function RebuiltRun(record: RunRecord, executionId: string): RunView {
    var c := BuildCarryover(record);
    RunView(AgentRunStatus.AwaitingApproval, c.stepCount, c.toolCallCount, c.inputTokens, c.outputTokens,
            None, None, false, Some(executionId))
  }

  datatype Reopened = NotResumable | Reopened(run: RunView, history: seq<LLMMessage>, request: ToolRequest)

  /** What `_resume` reads back before the tool runs, from the durable rows and nothing else. */
  function Reopen(cfg: Config, j: Ledger, executionId: string): (again: Reopened)
    ensures again.Reopened? ==>
              again.run == RebuiltRun(j.record, executionId) && Rebuild(cfg.dumps, Window(j.rows)) == Some(again.history)
  {
    if j.record.status != AgentRunStatus.AwaitingApproval then NotResumable
    else
      var rows := Window(j.rows);
      match (PendingToolRequest(rows, executionId), Rebuild(cfg.dumps, rows))
      case (Some(payload), Some(history)) =>
        (match PendingRequestFromPayload(payload)
         case Some(request) => Reopened(RebuiltRun(j.record, executionId), history, request)
         case None => NotResumable)
      case _ => NotResumable
  }

  /** What `resume` is handed: the run as the rows have it, its outcome recorded on the execution's row. */
  function HandedOver(m: Machine, again: Reopened, result: ToolResult): Machine
    requires again.Reopened?
  {
    var stepNumber := if m.journal.record.stepCount > 1 then m.journal.record.stepCount else 1;
    var attempt := ToolAttempt(stepNumber, again.request.toolName, result);
    Machine(again.run, again.history, m.sent, ToolRecorded(m.journal, attempt, again.history))
  }

  /** The outcome lands on the execution's row, then the runner takes the run up again. */
  function ResumeWith(cfg: Config, m: Machine, again: Reopened, result: ToolResult): (p: Progress)
    requires again.Reopened?
    ensures p.Going? ==> p.m.run == Apply(again.run, Resume) && p.m.run.status == Running
  {
    TakeUp(cfg, HandedOver(m, again, result), again.request, result)
  }

  /** An execution run on a grant is named after the grant: the executor draws no id of its own then. */
  function Named(answer: ToolResult, executionId: string): ToolResult {
    answer.(executionId := executionId)
  }

  /** What people answer, if they do: by the step that asked, and the request it made. */
  type Answers = (nat, ToolRequest) -> Option<ToolResult>

  predicate Paused(p: Progress) {
    p.Ended? && p.end.run.status == AgentRunStatus.AwaitingApproval && p.end.run.pending.Some?
  }

  /** Somebody answers the request that was read back, or nobody does and the run stays as it is. */
  function AnsweredFrom(cfg: Config, answers: Answers, end: Machine, again: Reopened, executionId: string): (p: Progress)
    ensures p.Going? ==> again.Reopened? && p.m.run.status == Running && p.m.run.stepCount == again.run.stepCount
  {
    if again.NotResumable? then Ended(end, Returned)
    else
      match answers(again.run.stepCount, again.request)
      case None => Ended(end, Returned)
      case Some(answer) => ResumeWith(cfg, end, again, Named(answer, executionId))
  }

  /** A paused run, answered from what is stored of it. */
  function Answered(cfg: Config, answers: Answers, end: Machine): (p: Progress)
    requires end.run.pending.Some?
    ensures p.Going? ==> p.m.run.status == Running && p.m.run.stepCount == end.journal.record.stepCount
  {
    AnsweredFrom(cfg, answers, end, Reopen(cfg, end.journal, end.run.pending.value), end.run.pending.value)
  }

  /** A run served by any number of requests: driven, paused, resumed whenever somebody answers. */
  function Served(cfg: Config, o: Oracle, answers: Answers, m: Machine): (p: Progress)
    requires m.run.status == Running
    ensures p.Ended?
    decreases cfg.maxSteps - m.run.stepCount
  {
    if m.run.stepCount >= cfg.maxSteps then GiveUp(m, MAX_STEPS_EXCEEDED)
    else
      var pass := Pass(cfg, o, m);
      if pass.Going? then Served(cfg, o, answers, pass.m)
      else if !Paused(pass) then pass
      else
        var resumed := Answered(cfg, answers, pass.end);
        if resumed.Going? then Served(cfg, o, answers, resumed.m) else resumed
  }

  // -- What a pause may not change ---------------------------------------------------------

  /** Equal in everything a pause may not change: what was sent, said, counted and stored. */
  predicate Same(m1: Machine, m2: Machine) {
    && m1.run == m2.run && m1.conversation == m2.conversation && m1.sent == m2.sent
    && m1.journal.rows == m2.journal.rows && m1.journal.steps == m2.journal.steps && m1.journal.tools == m2.journal.tools
  }

  predicate SameProgress(p1: Progress, p2: Progress) {
    match (p1, p2)
    case (Going(m1), Going(m2)) => Same(m1, m2)
    case (Ended(m1, outcome1), Ended(m2, outcome2)) => Same(m1, m2) && outcome1 == outcome2
    case _ => false
  }

  /** Running, with nothing of an ending and nothing of a pause about it. */
  predicate Live(v: RunView) {
    v.status == Running && v.finalResponse.None? && v.errorCode.None? && !v.completed && v.pending.None?
  }

  /** The stored rows rebuild to the conversation in memory. */
  predicate Stored(cfg: Config, m: Machine) {
    Rebuild(cfg.dumps, m.journal.rows) == Some(m.conversation)
  }

  /** A replay reaches the last row even when the conversation is as long as it may get. */
  predicate Roomy(cfg: Config, m: Machine) {
    |m.conversation| <= cfg.maxMessages
    && |m.journal.rows| - |m.conversation| + cfg.maxMessages < MAX_REPLAYED_MESSAGES
  }

  /** The uninterrupted executor: where the real one asks a person, it returns the answer at once. */
  function AtOnce(o: Oracle, answers: Answers): Oracle {
    o.(execute := (n: nat, request) =>
      var result := o.execute(n, request);
      match answers(n, request)
      case Some(answer) => if result.outcome == ToolOutcome.ApprovalRequired then Named(answer, result.executionId) else result
      case None => result)
  }

  /** An answer that changes nothing by coming late: it can be told, asks nothing again, and nobody stopped it. */
  predicate Tellable(o: Oracle, n: nat, answer: ToolResult) {
    && Buildable(answer) && answer.outcome != ToolOutcome.ApprovalRequired
    && !(answer.outcome == ToolOutcome.Cancelled && o.tripped(n, AfterTool))
  }

  /** Every answer somebody gives to a question is of that kind. */
  ghost predicate Honest(o: Oracle, answers: Answers) {
    forall n: nat, request | o.execute(n, request).outcome == ToolOutcome.ApprovalRequired && answers(n, request).Some? ::
      Tellable(o, n, answers(n, request).value)
  }

  // -- Steps ----------------------------------------------------------------------------------

  lemma GiveUpRespects(m1: Machine, m2: Machine, code: string)
    requires Same(m1, m2)
    ensures SameProgress(GiveUp(m1, code), GiveUp(m2, code))
  {
  }

  lemma PerformRespects(cfg: Config, m1: Machine, m2: Machine, request: ToolRequest, result: ToolResult)
    requires Same(m1, m2)
    ensures SameProgress(Perform(cfg, m1, request, result), Perform(cfg, m2, request, result))
  {
  }

  lemma AskRespects(cfg: Config, m1: Machine, m2: Machine, request: ToolRequest, result: ToolResult)
    requires Same(m1, m2)
    ensures Same(Ask(cfg, m1, request, result), Ask(cfg, m2, request, result))
  {
  }

  lemma HeedRespects(cfg: Config, o: Oracle, n: nat, m1: Machine, m2: Machine, request: ToolRequest, result: ToolResult)
    requires Same(m1, m2)
    ensures SameProgress(Heed(cfg, o, n, m1, request, result), Heed(cfg, o, n, m2, request, result))
  {
    hide Perform, GiveUp;
    PerformRespects(cfg, m1, m2, request, result);
    GiveUpRespects(m1, m2, RUN_ERROR);
  }

  lemma UseToolRespects(cfg: Config, o: Oracle, n: nat, m1: Machine, m2: Machine, request: ToolRequest)
    requires Same(m1, m2)
    ensures SameProgress(UseTool(cfg, o, n, m1, request), UseTool(cfg, o, n, m2, request))
  {
    var result := o.execute(n, request);
    AskRespects(cfg, m1, m2, request, result);
    HeedRespects(cfg, o, n, Ask(cfg, m1, request, result), Ask(cfg, m2, request, result), request, result);
  }

  /** One pass reads nothing of a machine but what a pause may not change. */
  lemma PassRespects(cfg: Config, o: Oracle, m1: Machine, m2: Machine)
    requires Same(m1, m2) && m1.run.status == Running
    ensures SameProgress(Pass(cfg, o, m1), Pass(cfg, o, m2))
  {
    var n := m1.run.stepCount + 1;
    var request := BuildMessages(cfg, m1.conversation);
    var s1, s2 := Sent(cfg, m1), Sent(cfg, m2);
    if !o.tripped(n, BeforeStep) {
      match o.reply(n, request)
      case Raised(code) => GiveUpRespects(s1, s2, code);
      case Decided(decision, usage) =>
        assert Same(StepTaken(s1, decision, usage), StepTaken(s2, decision, usage));
        match decision
        case Final(_) =>
        case AskTool(tool) => UseToolRespects(cfg, o, n, StepTaken(s1, decision, usage), StepTaken(s2, decision, usage), tool);
    }
  }

  // -- What the store holds --------------------------------------------------------------------

  lemma AskStores(cfg: Config, m: Machine, request: ToolRequest, result: ToolResult)
    requires Stored(cfg, m)
    ensures var a := Ask(cfg, m, request, result);
            && Stored(cfg, a) && |a.journal.rows| == |m.journal.rows| + 1 && |a.conversation| == |m.conversation| + 1
            && a.journal.rows == m.journal.rows + [RowOf(RequestedTurn(cfg, request, result.executionId), NextSequence(m.journal.rows))]
  {
    var turn := RequestedTurn(cfg, request, result.executionId);
    AppendOne(m.journal.rows, turn);
    RebuildOneMore(cfg.dumps, m.journal.rows, RowOf(turn, NextSequence(m.journal.rows)));
  }

  lemma PerformStores(cfg: Config, m: Machine, request: ToolRequest, result: ToolResult)
    requires Stored(cfg, m) && Perform(cfg, m, request, result).Going?
    ensures var next := Perform(cfg, m, request, result).m;
            && Stored(cfg, next) && |next.conversation| <= cfg.maxMessages
            && |next.journal.rows| == |m.journal.rows| + 1 && |next.conversation| == |m.conversation| + 1
            && next.journal.rows == m.journal.rows + [RowOf(PerformedTurn(cfg, request, result), NextSequence(m.journal.rows))]
  {
    var turn := PerformedTurn(cfg, request, result);
    ResultRoundTrip(LLMResultOf(request, result));
    AppendOne(m.journal.rows, turn);
    RebuildOneMore(cfg.dumps, m.journal.rows, RowOf(turn, NextSequence(m.journal.rows)));
  }

  // -- The pause -------------------------------------------------------------------------------

  /**
   At a pause the store gives back exactly what the request held: the run, the conversation, and
   the decision the model made.
   */
  lemma ReopenFindsThePause(cfg: Config, m: Machine, request: ToolRequest, asked: ToolResult)
    requires Live(m.run) && Stored(cfg, m) && |m.journal.rows| < MAX_REPLAYED_MESSAGES
    ensures var a := Ask(cfg, m, request, asked);
            var end := Pause(a, asked.executionId);
            Reopen(cfg, end.journal, asked.executionId) == Reopened(end.run, a.conversation, request)
  {
    var a := Ask(cfg, m, request, asked);
    var end := Pause(a, asked.executionId);
    AskStores(cfg, m, request, asked);
    var last := a.journal.rows[|a.journal.rows| - 1];
    RequestRoundTrip(request, asked.executionId);
    assert Requests(last, asked.executionId);
    assert PendingToolRequest(a.journal.rows, asked.executionId) == Some(Metadata(last));
    assert end.journal.rows == a.journal.rows && Window(a.journal.rows) == a.journal.rows;
  }

  /** Recording an answer over its question leaves what recording the answer at once leaves. */
  lemma RecordedTwice(j: Ledger, asked: ToolAttempt, answered: ToolAttempt, atOnce: ToolAttempt, m1: seq<LLMMessage>, m2: seq<LLMMessage>)
    requires asked.result.outcome == ToolOutcome.ApprovalRequired && answered.result == atOnce.result
    requires asked.result.executionId == answered.result.executionId
    requires atOnce.stepNumber == asked.stepNumber && atOnce.toolName == asked.toolName
    ensures forall j': Ledger | j'.tools == ToolRecorded(j, asked, m1).tools ::
              ToolRecorded(j', answered, m2).tools == ToolRecorded(j, atOnce, m1).tools
  {
  }

  lemma TakenUpIsPerforming(cfg: Config, m: Machine, request: ToolRequest, result: ToolResult)
    requires m.run.status == AgentRunStatus.AwaitingApproval && Buildable(result)
    ensures TakeUp(cfg, m, request, result) == Perform(cfg, SaveState(Called(m, Resume)), request, result)
  {
    hide Perform;
  }

  /** A turn that cannot be built leaves the run as the state write left it. */
  lemma UntoldIsLeftRunning(cfg: Config, m: Machine, request: ToolRequest, result: ToolResult)
    requires m.run.status == AgentRunStatus.AwaitingApproval && !Buildable(result)
    ensures TakeUp(cfg, m, request, result) == Ended(SaveState(Called(m, Resume)), RaisedError(RUN_ERROR))
  {
  }

  /** Two results under one id are asked about alike: only the execution's row tells them apart. */
  lemma AskedAlike(cfg: Config, m: Machine, request: ToolRequest, asked: ToolResult, answer: ToolResult)
    requires answer.executionId == asked.executionId
    ensures var a, b := Ask(cfg, m, request, asked), Ask(cfg, m, request, answer);
            && a.run == b.run && a.conversation == b.conversation && a.sent == b.sent
            && a.journal.rows == b.journal.rows && a.journal.steps == b.journal.steps
            && a.journal.tools == ToolRecorded(m.journal, ToolAttempt(a.run.stepCount, request.toolName, asked), m.conversation).tools
            && b.journal.tools == ToolRecorded(m.journal, ToolAttempt(a.run.stepCount, request.toolName, answer), m.conversation).tools
  {
    hide Requested, RequestedTurn;
  }

  /** Pausing, reading back and resuming change nothing of the run but its row, and of the rows but the execution's. */
  lemma ResumedKeeps(a: Machine, request: ToolRequest, answer: ToolResult)
    requires Live(a.run)
    ensures var end := Pause(a, answer.executionId);
            var handed := HandedOver(end, Reopened(end.run, a.conversation, request), answer);
            var resumed := SaveState(Called(handed, Resume));
            && handed.run.status == AgentRunStatus.AwaitingApproval
            && resumed.run == a.run && resumed.conversation == a.conversation && resumed.sent == a.sent
            && resumed.journal.rows == a.journal.rows && resumed.journal.steps == a.journal.steps
            && exists j: Ledger, step: nat ::
                 j.tools == a.journal.tools
                 && resumed.journal.tools == ToolRecorded(j, ToolAttempt(step, request.toolName, answer), a.conversation).tools
  {
    var end := Pause(a, answer.executionId);
    var step := if end.journal.record.stepCount > 1 then end.journal.record.stepCount else 1;
    var handed := HandedOver(end, Reopened(end.run, a.conversation, request), answer);
    assert SaveState(Called(handed, Resume)).journal.tools
           == ToolRecorded(end.journal, ToolAttempt(step, request.toolName, answer), a.conversation).tools;
  }

  /** What a resumption holds once the answer is on record is what asking a tool that answered at once holds. */
  lemma ResumedIsAsked(cfg: Config, m: Machine, request: ToolRequest, asked: ToolResult, answer: ToolResult)
    requires Live(m.run) && Stored(cfg, m)
    requires asked.outcome == ToolOutcome.ApprovalRequired && answer.executionId == asked.executionId
    ensures var a := Ask(cfg, m, request, asked);
            var end := Pause(a, asked.executionId);
            var handed := HandedOver(end, Reopened(end.run, a.conversation, request), answer);
            && handed.run.status == AgentRunStatus.AwaitingApproval
            && Same(SaveState(Called(handed, Resume)), Ask(cfg, m, request, answer))
  {
    var a := Ask(cfg, m, request, asked);
    AskedAlike(cfg, m, request, asked, answer);
    ResumedKeeps(a, request, answer);
    hide Ask, Pause, HandedOver, SaveState, Called, ToolRecorded;
    var end := Pause(a, asked.executionId);
    var resumed := SaveState(Called(HandedOver(end, Reopened(end.run, a.conversation, request), answer), Resume));
    var j: Ledger, step: nat :|
      j.tools == a.journal.tools
      && resumed.journal.tools == ToolRecorded(j, ToolAttempt(step, request.toolName, answer), a.conversation).tools;
    RecordedTwice(m.journal, ToolAttempt(a.run.stepCount, request.toolName, asked), ToolAttempt(step, request.toolName, answer),
                  ToolAttempt(a.run.stepCount, request.toolName, answer), m.conversation, a.conversation);
  }

  /** Resuming with an answer is performing the tool that answered at once. */
  lemma AnswerContinues(cfg: Config, m: Machine, request: ToolRequest, asked: ToolResult, answer: ToolResult)
    requires Live(m.run) && Stored(cfg, m) && |m.journal.rows| < MAX_REPLAYED_MESSAGES
    requires asked.outcome == ToolOutcome.ApprovalRequired && answer.executionId == asked.executionId && Buildable(answer)
    ensures var a := Ask(cfg, m, request, asked);
            SameProgress(ResumeWith(cfg, Pause(a, asked.executionId), Reopened(Pause(a, asked.executionId).run, a.conversation, request), answer),
                         Perform(cfg, Ask(cfg, m, request, answer), request, answer))
  {
    hide Perform, TakeUp, Ask, Pause, HandedOver, SaveState, Same, SameProgress;
    var end := Pause(Ask(cfg, m, request, asked), asked.executionId);
    var handed := HandedOver(end, Reopened(end.run, Ask(cfg, m, request, asked).conversation, request), answer);
    ResumedIsAsked(cfg, m, request, asked, answer);
    TakenUpIsPerforming(cfg, handed, request, answer);
    PerformRespects(cfg, SaveState(Called(handed, Resume)), Ask(cfg, m, request, answer), request, answer);
  }

  /** The machine as the model's decision leaves it, before the decision is acted on. */
  function Deciding(cfg: Config, o: Oracle, m: Machine): (m': Machine)
    requires o.reply(m.run.stepCount + 1, BuildMessages(cfg, m.conversation)).Decided?
    ensures Stored(cfg, m) ==> Stored(cfg, m')
    ensures Live(m.run) ==> Live(m'.run)
    ensures m'.run.stepCount == m.run.stepCount + (if m.run.status == Running then 1 else 0)
    ensures m'.journal.rows == m.journal.rows
  {
    var request := BuildMessages(cfg, m.conversation);
    var d := o.reply(m.run.stepCount + 1, request);
    StepTaken(Sent(cfg, m), d.decision, d.usage)
  }

  /** A pass gets as far as consulting the executor. */
  predicate Consults(cfg: Config, o: Oracle, m: Machine) {
    var n := m.run.stepCount + 1;
    var reply := o.reply(n, BuildMessages(cfg, m.conversation));
    !o.tripped(n, BeforeStep) && reply.Decided? && reply.decision.AskTool? && !o.tripped(n, BeforeTool)
  }

  lemma PassThatConsults(cfg: Config, o: Oracle, m: Machine)
    requires m.run.status == Running
    ensures Consults(cfg, o, m) ==>
              var n := m.run.stepCount + 1;
              var tool := o.reply(n, BuildMessages(cfg, m.conversation)).decision.request;
              var result := o.execute(n, tool);
              Pass(cfg, o, m) == Heed(cfg, o, n, Ask(cfg, Deciding(cfg, o, m), tool, result), tool, result)
  {
    if Consults(cfg, o, m) {
      var n := m.run.stepCount + 1;
      var tool := o.reply(n, BuildMessages(cfg, m.conversation)).decision.request;
      PassActs(cfg, o, m);
      ActUses(cfg, o, n, Deciding(cfg, o, m), tool);
    }
  }

  lemma PassActs(cfg: Config, o: Oracle, m: Machine)
    requires m.run.status == Running && Consults(cfg, o, m)
    ensures var n := m.run.stepCount + 1;
            Pass(cfg, o, m) == Act(cfg, o, n, Deciding(cfg, o, m), o.reply(n, BuildMessages(cfg, m.conversation)).decision)
  {
    hide Act, StepTaken, BuildMessages;
  }

  lemma ActUses(cfg: Config, o: Oracle, n: nat, m: Machine, tool: ToolRequest)
    requires m.run.status == Running && !o.tripped(n, BeforeTool)
    ensures Act(cfg, o, n, m, AskTool(tool)) == Heed(cfg, o, n, Ask(cfg, m, tool, o.execute(n, tool)), tool, o.execute(n, tool))
  {
  }

  /** What a pass that gets as far as the executor comes to. */
  function Consulted(cfg: Config, o: Oracle, m: Machine): Progress
    requires Consults(cfg, o, m)
  {
    var n := m.run.stepCount + 1;
    var tool := o.reply(n, BuildMessages(cfg, m.conversation)).decision.request;
    Perform(cfg, Ask(cfg, Deciding(cfg, o, m), tool, o.execute(n, tool)), tool, o.execute(n, tool))
  }

  /** A pass that goes on asked a tool and stored its result. */
  lemma GoingMeansPerformed(cfg: Config, o: Oracle, m: Machine)
    requires m.run.status == Running && Pass(cfg, o, m).Going?
    ensures Consults(cfg, o, m) && Pass(cfg, o, m) == Consulted(cfg, o, m)
  {
    hide Ask, Deciding, Perform, Pause, StepTaken, Sent, BuildMessages;
    PassThatConsults(cfg, o, m);
  }

  lemma PerformLeavesLive(cfg: Config, m: Machine, request: ToolRequest, result: ToolResult)
    requires Live(m.run)
    ensures var p := Perform(cfg, Ask(cfg, m, request, result), request, result); p.Going? ==> Live(p.m.run)
  {
    hide ResultStored;
  }

  /** A pass that goes on leaves a run that can pause, and be picked up, again. */
  lemma PassKeepsStored(cfg: Config, o: Oracle, m: Machine)
    requires Live(m.run) && Stored(cfg, m) && Pass(cfg, o, m).Going?
    ensures var next := Pass(cfg, o, m).m;
            && Live(next.run) && Stored(cfg, next) && (Roomy(cfg, m) ==> Roomy(cfg, next))
            && (Unreused(o, m) ==> Unreused(o, next))
  {
    hide Ask, Perform, Pass, BuildMessages, Stored, Unreused, DistinctIds, NoneAhead, PerformedTurn, RequestedTurn;
    GoingMeansPerformed(cfg, o, m);
    var n := m.run.stepCount + 1;
    var tool := o.reply(n, BuildMessages(cfg, m.conversation)).decision.request;
    var result := o.execute(n, tool);
    var d := Deciding(cfg, o, m);
    assert d.conversation == m.conversation && d.journal.rows == m.journal.rows;
    AskStores(cfg, d, tool, result);
    var a := Ask(cfg, d, tool, result);
    PerformStores(cfg, a, tool, result);
    PerformLeavesLive(cfg, d, tool, result);
    if Unreused(o, m) {
      UnreusedRows(o, m);
      AskedOnce(cfg, o, m.journal.rows, m.run.stepCount, tool, NextSequence(m.journal.rows));
      ToldKeepsUnreused(cfg, o, a.journal.rows, n, tool, result, NextSequence(a.journal.rows));
      UnreusedRows(o, Pass(cfg, o, m).m);
    }
  }

  // -- Ids that are not drawn twice ---------------------------------------------------------------

  /** No two steps are given one execution id. */
  ghost predicate DistinctIds(o: Oracle) {
    forall n: nat, n': nat, request, request' | n != n' :: o.execute(n, request).executionId != o.execute(n', request').executionId
  }

  /** No row asks under an id a step after the `n`-th is given. */
  ghost predicate NoneAhead(o: Oracle, rows: seq<MessageRow>, n: nat) {
    forall later: nat, request, i | later > n && 0 <= i < |rows| :: !Requests(rows[i], o.execute(later, request).executionId)
  }

  /** What every draw of a random id promises: distinct, and none of them in the store already. */
  ghost predicate Unreused(o: Oracle, m: Machine) {
    DistinctIds(o) && NoneAhead(o, m.journal.rows, m.run.stepCount)
  }

  lemma UnreusedRows(o: Oracle, m: Machine)
    ensures Unreused(o, m) <==> DistinctIds(o) && NoneAhead(o, m.journal.rows, m.run.stepCount)
  {
  }

  lemma AskedOnce(cfg: Config, o: Oracle, rows: seq<MessageRow>, n: nat, tool: ToolRequest, at: nat)
    requires DistinctIds(o) && NoneAhead(o, rows, n)
    ensures NoneAhead(o, rows + [RowOf(RequestedTurn(cfg, tool, o.execute(n + 1, tool).executionId), at)], n + 1)
  {
    var id := o.execute(n + 1, tool).executionId;
    var row := RowOf(RequestedTurn(cfg, tool, id), at);
    RequestRoundTrip(tool, id);
    assert forall other | Requests(row, other) :: other == id;
  }

  lemma ToldKeepsUnreused(cfg: Config, o: Oracle, rows: seq<MessageRow>, n: nat, tool: ToolRequest, result: ToolResult, at: nat)
    requires NoneAhead(o, rows, n)
    ensures NoneAhead(o, rows + [RowOf(PerformedTurn(cfg, tool, result), at)], n)
  {
    ResultRoundTrip(LLMResultOf(tool, result));
    assert forall other :: !Requests(RowOf(PerformedTurn(cfg, tool, result), at), other);
  }

  lemma PausedMeansAsked(cfg: Config, o: Oracle, m: Machine)
    requires m.run.status == Running && Paused(Pass(cfg, o, m))
    ensures Consults(cfg, o, m)
    ensures o.execute(m.run.stepCount + 1, o.reply(m.run.stepCount + 1, BuildMessages(cfg, m.conversation)).decision.request).outcome
            == ToolOutcome.ApprovalRequired
  {
    var p := Pass(cfg, o, m);
    PassThatConsults(cfg, o, m);
  }

  /** A pause is durable with the step that asked counted. */
  lemma PausesCount(cfg: Config, o: Oracle, m: Machine)
    requires m.run.status == Running && Paused(Pass(cfg, o, m))
    ensures Pass(cfg, o, m).end.journal.record.stepCount == m.run.stepCount + 1
  {
    hide Act, StepTaken, GiveUp, Stop;
  }

  lemma NotAskedMeansTheSame(cfg: Config, o: Oracle, answers: Answers, m: Machine)
    requires m.run.status == Running
    requires Consults(cfg, o, m) ==>
               var n := m.run.stepCount + 1;
               var tool := o.reply(n, BuildMessages(cfg, m.conversation)).decision.request;
               o.execute(n, tool).outcome != ToolOutcome.ApprovalRequired || answers(n, tool).None?
    ensures Pass(cfg, AtOnce(o, answers), m) == Pass(cfg, o, m)
  {
  }

  lemma UntellableEndsOtherwise(cfg: Config, o: Oracle, n: nat, d: Machine, tool: ToolRequest, asked: ToolResult, answer: ToolResult)
    requires Live(d.run) && !Tellable(o, n, answer)
    ensures var a := Ask(cfg, d, tool, asked);
            var end := Pause(a, asked.executionId);
            !SameProgress(ResumeWith(cfg, end, Reopened(end.run, a.conversation, tool), answer),
                          Heed(cfg, o, n, Ask(cfg, d, tool, answer), tool, answer))
  {
    var a, b := Ask(cfg, d, tool, asked), Ask(cfg, d, tool, answer);
    var end := Pause(a, asked.executionId);
    assert b.run.status == Running && end.run.status == AgentRunStatus.AwaitingApproval;
    hide Ask, Pause, ResumeWith, Heed, Live, Tellable, Same;
    LateAnswerEnds(cfg, end, Reopened(end.run, a.conversation, tool), answer);
    UntellableStops(cfg, o, n, b, tool, answer);
  }

  /** A late answer goes on or fails over the limits, or cannot be told and leaves the run RUNNING. */
  lemma LateAnswerEnds(cfg: Config, end: Machine, again: Reopened, answer: ToolResult)
    requires again.Reopened? && again.run.status == AgentRunStatus.AwaitingApproval
    ensures var p := ResumeWith(cfg, end, again, answer);
            p.Ended? ==> p.end.run.status == if Buildable(answer) then AgentRunStatus.Failed else Running
  {
    var handed := HandedOver(end, again, answer);
    assert handed.run.status == AgentRunStatus.AwaitingApproval;
    hide HandedOver, TakeUp;
    if Buildable(answer) {
      TakenUpIsPerforming(cfg, handed, again.request, answer);
      PerformNeverStops(cfg, SaveState(Called(handed, Resume)), again.request, answer);
    } else {
      UntoldIsLeftRunning(cfg, handed, again.request, answer);
    }
  }

  /** Performing goes on, or fails over the limits. */
  lemma PerformNeverStops(cfg: Config, m: Machine, tool: ToolRequest, answer: ToolResult)
    requires m.run.status == Running
    ensures var p := Perform(cfg, m, tool, answer); p.Ended? ==> p.end.run.status == AgentRunStatus.Failed
  {
    hide ResultStored, TooLarge;
  }

  /** At once, such an answer pauses the run again, cancels it, or fails it. */
  lemma UntellableStops(cfg: Config, o: Oracle, n: nat, m: Machine, tool: ToolRequest, answer: ToolResult)
    requires m.run.status == Running && !Tellable(o, n, answer)
    ensures var p := Heed(cfg, o, n, m, tool, answer);
            && p.Ended? && p.end.run.status != Running
            && (Buildable(answer) ==> p.end.run.status != AgentRunStatus.Failed)
  {
    hide Perform;
  }

  /** One answered pause comes to what answering at once comes to exactly when the answer can be told late. */
  lemma PauseIsTransparentExactlyWhen(cfg: Config, o: Oracle, answers: Answers, m: Machine)
    requires Live(m.run) && Stored(cfg, m) && |m.journal.rows| < MAX_REPLAYED_MESSAGES && Paused(Pass(cfg, o, m))
    ensures o.reply(m.run.stepCount + 1, BuildMessages(cfg, m.conversation)).Decided?
    ensures o.reply(m.run.stepCount + 1, BuildMessages(cfg, m.conversation)).decision.AskTool?
    ensures var n := m.run.stepCount + 1;
            var tool := o.reply(n, BuildMessages(cfg, m.conversation)).decision.request;
            answers(n, tool).Some? ==>
              (SameProgress(Answered(cfg, answers, Pass(cfg, o, m).end), Pass(cfg, AtOnce(o, answers), m))
               <==> Tellable(o, n, answers(n, tool).value))
  {
    hide Ask, Perform, Pass, Reopen, ResumeWith, Sent, StepTaken, BuildMessages, SameProgress;
    PausedMeansAsked(cfg, o, m);
    var n := m.run.stepCount + 1;
    var tool := o.reply(n, BuildMessages(cfg, m.conversation)).decision.request;
    var asked := o.execute(n, tool);
    var d := Deciding(cfg, o, m);
    PassThatConsults(cfg, o, m);
    ReopenFindsThePause(cfg, d, tool, asked);
    if answers(n, tool).Some? {
      var answer := Named(answers(n, tool).value, asked.executionId);
      PassThatConsults(cfg, AtOnce(o, answers), m);
      assert Deciding(cfg, AtOnce(o, answers), m) == d;
      assert AtOnce(o, answers).execute(n, tool) == answer;
      var a := Ask(cfg, d, tool, asked);
      var end := Pause(a, asked.executionId);
      assert Answered(cfg, answers, Pass(cfg, o, m).end) == ResumeWith(cfg, end, Reopened(end.run, a.conversation, tool), answer);
      assert Pass(cfg, AtOnce(o, answers), m) == Heed(cfg, AtOnce(o, answers), n, Ask(cfg, d, tool, answer), tool, answer);
      if Tellable(o, n, answer) {
        AnswerContinues(cfg, d, tool, asked, answer);
        TellableIsPerformed(cfg, o, n, Ask(cfg, d, tool, answer), tool, answer);
        TellableIsPerformed(cfg, AtOnce(o, answers), n, Ask(cfg, d, tool, answer), tool, answer);
      } else {
        UntellableEndsOtherwise(cfg, o, n, d, tool, asked, answer);
        TokenDecides(cfg, o, AtOnce(o, answers), n, Ask(cfg, d, tool, answer), tool, answer);
      }
    }
  }

  lemma TellableIsPerformed(cfg: Config, o: Oracle, n: nat, m: Machine, tool: ToolRequest, answer: ToolResult)
    requires Tellable(o, n, answer)
    ensures Heed(cfg, o, n, m, tool, answer) == Perform(cfg, m, tool, answer)
  {
    hide Perform;
  }

  lemma TokenDecides(cfg: Config, o: Oracle, o': Oracle, n: nat, m: Machine, tool: ToolRequest, answer: ToolResult)
    requires o.tripped == o'.tripped
    ensures Heed(cfg, o, n, m, tool, answer) == Heed(cfg, o', n, m, tool, answer)
  {
    hide Perform, Pause, Stop, GiveUp;
  }

  /** One pause: answered now, or answered at once. */
  lemma PauseIsAnsweredAtOnce(cfg: Config, o: Oracle, answers: Answers, m: Machine)
    requires Live(m.run) && Stored(cfg, m) && Roomy(cfg, m) && Honest(o, answers)
    requires Paused(Pass(cfg, o, m))
    ensures SameProgress(Answered(cfg, answers, Pass(cfg, o, m).end), Pass(cfg, AtOnce(o, answers), m))
  {
    hide Ask, Perform, Pass, Reopen, ResumeWith, Sent, StepTaken, BuildMessages;
    PauseIsTransparentExactlyWhen(cfg, o, answers, m);
    PausedMeansAsked(cfg, o, m);
    var n := m.run.stepCount + 1;
    var tool := o.reply(n, BuildMessages(cfg, m.conversation)).decision.request;
    if answers(n, tool).None? {
      PassThatConsults(cfg, o, m);
      ReopenFindsThePause(cfg, Deciding(cfg, o, m), tool, o.execute(n, tool));
      NotAskedMeansTheSame(cfg, o, answers, m);
    }
  }

  /**
   Pause/resume transparency, over any number of pauses: a run served by as many requests as it
   takes sends the same model requests, numbers the same steps, stores the same turns and ends the
   same way as one uninterrupted request whose executor gave every answer at once.
   */
  lemma {:induction false} PausesAreTransparent(cfg: Config, o: Oracle, answers: Answers, m1: Machine, m2: Machine)
    requires Live(m1.run) && Stored(cfg, m1) && Roomy(cfg, m1) && Honest(o, answers) && Same(m1, m2)
    ensures SameProgress(Served(cfg, o, answers, m1), Drive(cfg, AtOnce(o, answers), m2))
    decreases cfg.maxSteps - m1.run.stepCount
  {
    var o' := AtOnce(o, answers);
    if m1.run.stepCount >= cfg.maxSteps {
      GiveUpRespects(m1, m2, MAX_STEPS_EXCEEDED);
    } else {
      var pass := Pass(cfg, o, m1);
      PassRespects(cfg, o', m1, m2);
      if Paused(pass) {
        PauseIsAnsweredAtOnce(cfg, o, answers, m1);
        var resumed := Answered(cfg, answers, pass.end);
        if resumed.Going? {
          PassKeepsStored(cfg, o', m1);
          PausesAreTransparent(cfg, o, answers, resumed.m, Pass(cfg, o', m2).m);
        }
      } else {
        NotPausedIsTheSame(cfg, o, answers, m1);
        if pass.Going? {
          PassKeepsStored(cfg, o', m1);
          PausesAreTransparent(cfg, o, answers, pass.m, Pass(cfg, o', m2).m);
        }
      }
    }
  }

  lemma NotPausedIsTheSame(cfg: Config, o: Oracle, answers: Answers, m: Machine)
    requires m.run.status == Running && !Paused(Pass(cfg, o, m))
    ensures Pass(cfg, AtOnce(o, answers), m) == Pass(cfg, o, m)
  {
    PassThatConsults(cfg, o, m);
    NotAskedMeansTheSame(cfg, o, answers, m);
  }

  // -- Where it stops being transparent ----------------------------------------------------------

  /**
   `resume` builds the tool turn before the handler that records failures. A failure message too
   long for the field therefore escapes with the run still RUNNING, and this is the only way a
   resume leaves a run unsettled.
   */
  lemma ResumeSettlesExactlyWhen(cfg: Config, o: Oracle, m: Machine, request: ToolRequest, result: ToolResult)
    requires m.run.status == AgentRunStatus.AwaitingApproval
    ensures Settled(Continue(cfg, o, m, request, result)) <==> Buildable(result)
    ensures !Buildable(result) ==> Continue(cfg, o, m, request, result).end.run.status == Running
  {
    if !Buildable(result) {
      assert TakeUp(cfg, m, request, result) == Ended(SaveState(Called(m, Resume)), RaisedError(RUN_ERROR));
    }
  }

  /**
   A replay reads the oldest rows, so the request a person is asked about is found exactly while
   the conversation fits the window.
   */
  lemma PauseIsFoundExactlyInTheWindow(cfg: Config, m: Machine, request: ToolRequest, asked: ToolResult)
    requires Stored(cfg, m)
    requires forall i | 0 <= i < |m.journal.rows| :: !Requests(m.journal.rows[i], asked.executionId)
    ensures var rows := Ask(cfg, m, request, asked).journal.rows;
            PendingToolRequest(Window(rows), asked.executionId).Some? <==> |rows| <= MAX_REPLAYED_MESSAGES
  {
    AskStores(cfg, m, request, asked);
    RequestRoundTrip(request, asked.executionId);
    var rows := Ask(cfg, m, request, asked).journal.rows;
    assert Requests(rows[|rows| - 1], asked.executionId);
  }
}
