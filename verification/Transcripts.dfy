/**
 A run told from the outside: what the model was sent and what it said, what the tools returned, and
 what was made of it. Nothing here mentions how the runner builds a turn, a request or a row.
 */
module Transcripts {
  import opened Lifecycle
  import opened Rows
  import opened Messages
  import opened Conversation
  import opened AgentModels
  import opened RunJournal
  import opened Runner
  import opened Transparency
  import opened Accounts
  import opened Storage

  // -- Turns, as a reader sees them -------------------------------------------------------------

  /** An assistant turn proposing a tool, spelled out. */
  predicate AsksFor(dumps: Dumps, turn: LLMMessage, tool: ToolRequest) {
    && turn.role == Assistant && turn.tool.None?
    && turn.content == "[tool request: " + tool.toolName + "]" + "\n" + dumps(JObject(tool.arguments)) + "\n" + "[end tool request]"
  }

  predicate Spells(outcome: ToolOutcome, text: string) {
    match outcome
    case Succeeded => text == "succeeded"
    case Failed => text == "failed"
    case TimedOut => text == "timed_out"
    case Cancelled => text == "cancelled"
    case ApprovalRequired => text == "approval_required"
    case Rejected => text == "rejected"
  }

  /** A tool turn telling of a result: under whose id, with what data, with what error, in what words. */
  predicate TellsOf(dumps: Dumps, turn: LLMMessage, tool: ToolRequest, result: ToolResult) {
    && turn.role == Role.Tool && turn.tool.Some?
    && var told := turn.tool.value;
       && told.toolName == tool.toolName && told.executionId == result.executionId
       && (told.succeeded <==> result.outcome == Succeeded) && Spells(result.outcome, told.outcome)
       && told.data == result.data
       && told.error == (match result.failure case None => None case Some(failure) => Some(failure.message))
       && turn.content == "[tool result: " + tool.toolName + " #" + result.executionId + " "
                          + (if result.outcome == Succeeded then "succeeded" else "failed (" + told.outcome + ")") + "]" + "\n"
                          + Body(dumps, result) + "\n" + "[end tool result]"
  }

  /** What a tool turn reads between its two lines: the data of a success, the message of anything else. */
  function Body(dumps: Dumps, result: ToolResult): string {
    if result.outcome == Succeeded then dumps(match result.data case None => JNull case Some(fields) => JObject(fields))
    else if result.failure.None? || result.failure.value.message == "" then "No further detail."
    else result.failure.value.message
  }

  lemma RequestsAsk(cfg: Config, tool: ToolRequest)
    ensures AsksFor(cfg.dumps, Requested(cfg, tool), tool)
  {
  }

  lemma ResultsTell(cfg: Config, tool: ToolRequest, result: ToolResult)
    ensures TellsOf(cfg.dumps, Performed(cfg, tool, result), tool, result)
  {
  }

  // -- What becomes of a run ----------------------------------------------------------------------

  /** What asking comes to: the tool's own result, or what somebody answered if the tool asked for a person. */
  function CameTo(o: Oracle, answers: Answers, n: nat, tool: ToolRequest): ToolResult {
    var result := o.execute(n, tool);
    if result.outcome == ToolOutcome.ApprovalRequired && answers(n, tool).Some?
    then answers(n, tool).value.(executionId := result.executionId)
    else result
  }

  predicate TooLongToTell(result: ToolResult) {
    result.failure.Some? && |result.failure.value.message| > 2000
  }

  /** The conversation fits the agent's limits. */
  predicate Fits(cfg: Config, conversation: seq<LLMMessage>) {
    |conversation| <= cfg.maxMessages && TransportSize(cfg.dumps, conversation) <= cfg.maxCharacters
  }

  /** A result is told only if nobody still has to decide, nobody stopped the run, and its error fits. */
  predicate MayBeTold(o: Oracle, answers: Answers, n: nat, tool: ToolRequest) {
    && (o.execute(n, tool).outcome == ToolOutcome.ApprovalRequired ==> answers(n, tool).Some?)
    && (o.execute(n, tool).outcome == ToolOutcome.Cancelled ==> !o.tripped(n, AfterTool))
    && !TooLongToTell(CameTo(o, answers, n, tool))
  }

  /**
   The `k`-th model call since `m`: it was sent the agent's instructions and the whole conversation
   so far, and whatever the conversation and the step rows gained by it follow from the reply.
   */
  predicate CallTold(cfg: Config, o: Oracle, answers: Answers, m: Machine, end: Machine, k: nat) {
    var n, at := m.run.stepCount + 1 + k, |m.conversation| + 2 * k;
    && |m.sent| + k < |end.sent| && at <= |end.conversation| && n <= cfg.maxSteps && !o.tripped(n, BeforeStep)
    && end.sent[|m.sent| + k] == [LLMMessage(System, cfg.instructions, None)] + end.conversation[..at]
    && match o.reply(n, end.sent[|m.sent| + k])
       case Raised(_) => at == |end.conversation| && |m.journal.steps| + k == |end.journal.steps|
       case Decided(Final(_), usage) =>
         && at == |end.conversation|
         && |m.journal.steps| + k < |end.journal.steps| && end.journal.steps[|m.journal.steps| + k] == StepRow(n, None, usage)
       case Decided(AskTool(tool), usage) =>
         && |m.journal.steps| + k < |end.journal.steps|
         && end.journal.steps[|m.journal.steps| + k] == StepRow(n, Some(tool.toolName), usage)
         && (at < |end.conversation| <==> !o.tripped(n, BeforeTool))
         && (at < |end.conversation| ==> AsksFor(cfg.dumps, end.conversation[at], tool))
         && (at + 1 < |end.conversation| ==>
               && TellsOf(cfg.dumps, end.conversation[at + 1], tool, CameTo(o, answers, n, tool))
               && MayBeTold(o, answers, n, tool))
         && (|m.sent| + k + 1 < |end.sent| ==> at + 2 <= |end.conversation| && Fits(cfg, end.conversation[..at + 2]))
  }

  function Calls(m: Machine, end: Machine): int { |end.sent| - |m.sent| }

  function Said(m: Machine, end: Machine): int { |end.conversation| - |m.conversation| }

  /** Everything sent, said and counted between `m` and `end`, call by call. */
  predicate Transcribed(cfg: Config, o: Oracle, answers: Answers, m: Machine, end: Machine) {
    && m.sent <= end.sent && m.conversation <= end.conversation && m.journal.steps <= end.journal.steps
    && 2 * Calls(m, end) - 2 <= Said(m, end) <= 2 * Calls(m, end)
    && end.run.toolCallCount == m.run.toolCallCount + (Said(m, end) + 1) / 2
    && (forall k: nat | k < Calls(m, end) :: CallTold(cfg, o, answers, m, end, k))
  }

  /** The row carries what the run says of itself. */
  predicate RowIsTheRuns(end: Machine) {
    && end.journal.record.status == end.run.status && end.journal.record.errorCode == end.run.errorCode
    && end.journal.record.stepCount == end.run.stepCount && end.journal.record.toolCallCount == end.run.toolCallCount
    && end.journal.record.inputTokens == end.run.inputTokens && end.journal.record.outputTokens == end.run.outputTokens
  }

  /** What the model said to the last call of a run that was called since `m`. */
  function LastReply(o: Oracle, m: Machine, end: Machine): Option<Reply>
    requires Calls(m, end) >= 0
  {
    if Calls(m, end) == 0 then None else Some(o.reply(m.run.stepCount + Calls(m, end), end.sent[|end.sent| - 1]))
  }

  /** The last call asked for this tool. */
  predicate LastAsked(o: Oracle, m: Machine, end: Machine, tool: ToolRequest)
    requires Calls(m, end) >= 0
  {
    && LastReply(o, m, end).Some? && LastReply(o, m, end).value.Decided?
    && LastReply(o, m, end).value.decision == AskTool(tool)
  }

  /** It ended in an answer: the model's own words. */
  predicate EndedInAnswer(o: Oracle, m: Machine, end: Machine)
    requires Calls(m, end) >= 0
  {
    && end.run.status == Completed && Said(m, end) == 2 * Calls(m, end) - 2
    && LastReply(o, m, end).Some? && LastReply(o, m, end).value.Decided? && LastReply(o, m, end).value.decision.Final?
    && end.run.finalResponse == Some(LastReply(o, m, end).value.decision.content)
    && end.run.stepCount == m.run.stepCount + Calls(m, end)
  }

  /** It stopped to ask a person about the tool it asked for last. */
  ghost predicate EndedInQuestion(o: Oracle, m: Machine, end: Machine)
    requires Calls(m, end) >= 0
  {
    && end.run.status == AgentRunStatus.AwaitingApproval && Said(m, end) == 2 * Calls(m, end) - 1
    && end.run.stepCount == m.run.stepCount + Calls(m, end)
    && exists tool ::
         && LastAsked(o, m, end, tool)
         && o.execute(end.run.stepCount, tool).outcome == ToolOutcome.ApprovalRequired
         && end.run.pending == Some(o.execute(end.run.stepCount, tool).executionId)
         && end.journal.asked != [] && end.journal.asked[|end.journal.asked| - 1] == o.execute(end.run.stepCount, tool).executionId
  }

  /** Somebody stopped it: before a call, before a tool, or while a tool ran that noticed. */
  ghost predicate EndedStopped(o: Oracle, m: Machine, end: Machine)
    requires Calls(m, end) >= 0
  {
    && end.run.status == AgentRunStatus.Cancelled && end.run.stepCount == m.run.stepCount + Calls(m, end)
    && (|| (Said(m, end) == 2 * Calls(m, end) && o.tripped(end.run.stepCount + 1, BeforeStep))
        || (Said(m, end) == 2 * Calls(m, end) - 2 && (exists tool :: LastAsked(o, m, end, tool)) && o.tripped(end.run.stepCount, BeforeTool))
        || (Said(m, end) == 2 * Calls(m, end) - 1 && o.tripped(end.run.stepCount, AfterTool)
            && exists tool :: LastAsked(o, m, end, tool) && o.execute(end.run.stepCount, tool).outcome == ToolOutcome.Cancelled))
  }

  /** The model call failed, and its error is the run's. */
  predicate EndedUncalled(o: Oracle, m: Machine, end: Machine, code: string)
    requires Calls(m, end) >= 0
  {
    && end.run.status == AgentRunStatus.Failed && Said(m, end) == 2 * Calls(m, end) - 2
    && LastReply(o, m, end) == Some(Reply.Raised(code)) && end.run.stepCount + 1 == m.run.stepCount + Calls(m, end)
  }

  /** The error of the last tool does not fit a turn: late, that leaves the run RUNNING. */
  ghost predicate EndedUntold(o: Oracle, answers: Answers, m: Machine, end: Machine, code: string)
    requires Calls(m, end) >= 0
  {
    && code == "agent_run_error" && Said(m, end) == 2 * Calls(m, end) - 1
    && end.run.stepCount == m.run.stepCount + Calls(m, end)
    && exists tool ::
         && LastAsked(o, m, end, tool) && TooLongToTell(CameTo(o, answers, end.run.stepCount, tool))
         && end.run.status == if o.execute(end.run.stepCount, tool).outcome == ToolOutcome.ApprovalRequired then Running
                              else AgentRunStatus.Failed
  }

  /** The conversation outgrew the agent's limits, or the run its budget. */
  predicate EndedOverLimits(cfg: Config, m: Machine, end: Machine, code: string) {
    && end.run.status == AgentRunStatus.Failed && Said(m, end) == 2 * Calls(m, end)
    && end.run.stepCount == m.run.stepCount + Calls(m, end)
    && (|| (code == "agent_max_steps_exceeded" && end.run.stepCount >= cfg.maxSteps)
        || (code == "agent_conversation_too_large" && Calls(m, end) > 0 && !Fits(cfg, end.conversation)))
  }

  /** How a run was left, explained by what was said to it last. */
  ghost predicate EndedAs(cfg: Config, o: Oracle, answers: Answers, m: Machine, end: Machine, outcome: Runner.Outcome)
    requires Calls(m, end) >= 0
  {
    && RowIsTheRuns(end)
    && (end.run.status == AgentRunStatus.Failed ==> outcome.RaisedError? && end.run.errorCode == Some(outcome.code))
    && match outcome
       case Returned => EndedInAnswer(o, m, end) || EndedInQuestion(o, m, end)
       case RaisedCancelled => EndedStopped(o, m, end)
       case RaisedError(code) =>
         EndedUncalled(o, m, end, code) || EndedUntold(o, answers, m, end, code) || EndedOverLimits(cfg, m, end, code)
  }

  // -- One pass ------------------------------------------------------------------------------------

  /** Nothing sent, said or counted. */
  predicate Quiet(m: Machine, m': Machine) {
    && m'.sent == m.sent && m'.conversation == m.conversation && m'.journal.steps == m.journal.steps
    && m'.run.stepCount == m.run.stepCount && m'.run.toolCallCount == m.run.toolCallCount
  }

  /** One call sent, on the whole conversation. */
  predicate Called1(cfg: Config, m: Machine, m': Machine) {
    && m'.sent == m.sent + [[LLMMessage(System, cfg.instructions, None)] + m.conversation]
    && m.conversation <= m'.conversation
  }

  lemma SentIs(cfg: Config, m: Machine)
    ensures Sent(cfg, m) == m.(sent := m.sent + [[LLMMessage(System, cfg.instructions, None)] + m.conversation])
    ensures BuildMessages(cfg, m.conversation) == [LLMMessage(System, cfg.instructions, None)] + m.conversation
  {
  }

  lemma StepTakenIs(m: Machine, decision: Decision, usage: Usage)
    requires m.run.status == Running
    ensures var m' := StepTaken(m, decision, usage);
            && m'.sent == m.sent && m'.conversation == m.conversation && m'.run.status == Running
            && m'.run.stepCount == m.run.stepCount + 1 && m'.run.toolCallCount == m.run.toolCallCount
            && m'.journal.steps == m.journal.steps
                 + [StepRow(m.run.stepCount + 1, match decision case Final(_) => None case AskTool(tool) => Some(tool.toolName), usage)]
  {
  }

  lemma StopIs(m: Machine)
    requires m.run.status == Running
    ensures var p := Stop(m); p.Ended? && p.outcome == RaisedCancelled && Quiet(m, p.end) && RowIsTheRuns(p.end)
                              && p.end.run.status == AgentRunStatus.Cancelled
  {
  }

  lemma GiveUpIs(m: Machine, code: string)
    requires m.run.status == Running
    ensures var p := GiveUp(m, code); p.Ended? && p.outcome == RaisedError(code) && Quiet(m, p.end) && RowIsTheRuns(p.end)
                                      && p.end.run.status == AgentRunStatus.Failed && p.end.run.errorCode == Some(code)
  {
  }

  lemma AnswerIs(m: Machine, content: string)
    requires m.run.status == Running
    ensures var p := Answer(m, content); p.Ended? && p.outcome == Returned && Quiet(m, p.end) && RowIsTheRuns(p.end)
                                         && p.end.run.status == Completed && p.end.run.finalResponse == Some(content)
  {
  }

  lemma PauseIs(m: Machine, executionId: string)
    requires m.run.status == Running
    ensures var m' := Pause(m, executionId);
            && Quiet(m, m') && RowIsTheRuns(m') && m'.run.status == AgentRunStatus.AwaitingApproval
            && m'.run.pending == Some(executionId)
            && m'.journal.asked == m.journal.asked + [executionId]
  {
  }

  lemma PerformIs(cfg: Config, m: Machine, tool: ToolRequest, result: ToolResult)
    requires m.run.status == Running
    ensures var p := Perform(cfg, m, tool, result);
            var m' := Of(p);
            && m'.sent == m.sent && m'.journal.steps == m.journal.steps
            && m'.run.stepCount == m.run.stepCount && m'.run.toolCallCount == m.run.toolCallCount
            && |m'.conversation| == |m.conversation| + 1 && m.conversation <= m'.conversation
            && TellsOf(cfg.dumps, m'.conversation[|m.conversation|], tool, result)
            && (p.Going? <==> Fits(cfg, m'.conversation))
            && (p.Going? ==> m'.run.status == Running)
            && (p.Ended? ==> p.outcome == RaisedError("agent_conversation_too_large") && RowIsTheRuns(m')
                             && m'.run.status == AgentRunStatus.Failed && m'.run.errorCode == Some("agent_conversation_too_large"))
  {
    ResultsTell(cfg, tool, result);
    hide Performed, TellsOf;
  }

  /** A call was made, a tool asked for, and the request turn said. */
  predicate Asking(cfg: Config, o: Oracle, m: Machine, m': Machine, tool: ToolRequest) {
    && Called1(cfg, m, m') && |m'.conversation| == |m.conversation| + 1
    && AsksFor(cfg.dumps, m'.conversation[|m.conversation|], tool)
    && m'.run.stepCount == m.run.stepCount + 1 && m'.run.toolCallCount == m.run.toolCallCount + 1
    && var n := m.run.stepCount + 1;
       var reply := o.reply(n, [LLMMessage(System, cfg.instructions, None)] + m.conversation);
       && !o.tripped(n, BeforeStep) && !o.tripped(n, BeforeTool)
       && reply.Decided? && reply.decision == AskTool(tool)
       && m'.journal.steps == m.journal.steps + [StepRow(n, Some(tool.toolName), reply.usage)]
  }

  lemma AskIs(cfg: Config, m: Machine, tool: ToolRequest, result: ToolResult)
    requires m.run.status == Running
    ensures var m' := Ask(cfg, m, tool, result);
            && m'.sent == m.sent && m'.journal.steps == m.journal.steps && m'.run.status == Running
            && m'.run.stepCount == m.run.stepCount && m'.run.toolCallCount == m.run.toolCallCount + 1
            && |m'.conversation| == |m.conversation| + 1 && m.conversation <= m'.conversation
            && AsksFor(cfg.dumps, m'.conversation[|m.conversation|], tool)
  {
    RequestsAsk(cfg, tool);
    hide Requested, AsksFor, RequestedTurn;
  }

  lemma ConsultingAsks(cfg: Config, o: Oracle, m: Machine)
    requires m.run.status == Running && Consults(cfg, o, m)
    ensures var n := m.run.stepCount + 1;
            var tool := o.reply(n, BuildMessages(cfg, m.conversation)).decision.request;
            var m' := Ask(cfg, Deciding(cfg, o, m), tool, o.execute(n, tool));
            Asking(cfg, o, m, m', tool) && m'.run.status == Running
  {
    var n := m.run.stepCount + 1;
    var reply := o.reply(n, BuildMessages(cfg, m.conversation));
    SentIs(cfg, m);
    StepTakenIs(Sent(cfg, m), reply.decision, reply.usage);
    AskIs(cfg, Deciding(cfg, o, m), reply.decision.request, o.execute(n, reply.decision.request));
    hide Ask, StepTaken, Sent, BuildMessages, AsksFor;
  }

  /** Nothing sent or counted since, and at most the result told. */
  predicate Since(cfg: Config, o: Oracle, answers: Answers, n: nat, m: Machine, m': Machine, tool: ToolRequest) {
    && m'.sent == m.sent && m'.journal.steps == m.journal.steps
    && m'.run.stepCount == m.run.stepCount && m'.run.toolCallCount == m.run.toolCallCount
    && m.conversation <= m'.conversation && |m'.conversation| <= |m.conversation| + 1
    && (|m'.conversation| > |m.conversation| ==>
          TellsOf(cfg.dumps, m'.conversation[|m.conversation|], tool, CameTo(o, answers, n, tool)) && MayBeTold(o, answers, n, tool))
  }

  lemma AskedTranscribes(cfg: Config, o: Oracle, answers: Answers, m: Machine, a: Machine, end: Machine, tool: ToolRequest)
    requires m.run.stepCount < cfg.maxSteps && Asking(cfg, o, m, a, tool)
    requires Since(cfg, o, answers, m.run.stepCount + 1, a, end, tool)
    ensures Transcribed(cfg, o, answers, m, end) && Calls(m, end) == 1 && LastAsked(o, m, end, tool)
    ensures |end.journal.steps| == |m.journal.steps| + 1 && Said(m, end) == 1 + |end.conversation| - |a.conversation|
  {
    assert end.conversation[..|m.conversation|] == m.conversation;
    assert end.sent[|m.sent|] == [LLMMessage(System, cfg.instructions, None)] + m.conversation;
    assert end.conversation[|m.conversation|] == a.conversation[|m.conversation|];
    hide AsksFor, TellsOf, MayBeTold, CameTo;
    assert CallTold(cfg, o, answers, m, end, 0);
  }

  /** A pass that goes on: one call, a tool asked for, its result told. */
  predicate Exchanged(cfg: Config, o: Oracle, answers: Answers, m: Machine, next: Machine) {
    && Transcribed(cfg, o, answers, m, next) && Calls(m, next) == 1 && Said(m, next) == 2
    && |next.journal.steps| == |m.journal.steps| + 1 && next.run.stepCount == m.run.stepCount + 1
    && Fits(cfg, next.conversation)
  }

  ghost predicate ToldAsEnded(cfg: Config, o: Oracle, answers: Answers, m: Machine, p: Progress) {
    match p
    case Going(next) => Exchanged(cfg, o, answers, m, next)
    case Ended(end, outcome) => Transcribed(cfg, o, answers, m, end) && EndedAs(cfg, o, answers, m, end, outcome)
  }

  /** Performing tells the result, and goes on if the conversation still fits. */
  lemma PerformingIsTold(cfg: Config, o: Oracle, answers: Answers, m: Machine, a: Machine, tool: ToolRequest)
    requires m.run.stepCount < cfg.maxSteps && Asking(cfg, o, m, a, tool) && a.run.status == Running
    requires MayBeTold(o, answers, m.run.stepCount + 1, tool)
    ensures ToldAsEnded(cfg, o, answers, m, Perform(cfg, a, tool, CameTo(o, answers, m.run.stepCount + 1, tool)))
  {
    hide Perform, AsksFor, TellsOf, MayBeTold, CameTo, Transcribed, Fits;
    PerformIs(cfg, a, tool, CameTo(o, answers, m.run.stepCount + 1, tool));
    AskedTranscribes(cfg, o, answers, m, a, Of(Perform(cfg, a, tool, CameTo(o, answers, m.run.stepCount + 1, tool))), tool);
  }

  /** What follows once the request turn is stored, if nobody answers a question in between. */
  lemma HeedingIsTold(cfg: Config, o: Oracle, answers: Answers, m: Machine, a: Machine, tool: ToolRequest)
    requires m.run.stepCount < cfg.maxSteps && Asking(cfg, o, m, a, tool) && a.run.status == Running
    ensures var n := m.run.stepCount + 1; ToldAsEnded(cfg, o, answers, m, Heed(cfg, o, n, a, tool, o.execute(n, tool)))
  {
    var n := m.run.stepCount + 1;
    var result := o.execute(n, tool);
    hide Perform, AsksFor, TellsOf, Pause, Stop, GiveUp, Transcribed, Fits;
    if result.outcome == ToolOutcome.ApprovalRequired {
      PauseIs(a, result.executionId);
      AskedTranscribes(cfg, o, answers, m, a, Pause(a, result.executionId), tool);
    } else if result.outcome == ToolOutcome.Cancelled && o.tripped(n, AfterTool) {
      StopIs(a);
      AskedTranscribes(cfg, o, answers, m, a, Stop(a).end, tool);
    } else if !Buildable(result) {
      GiveUpIs(a, RUN_ERROR);
      AskedTranscribes(cfg, o, answers, m, a, GiveUp(a, RUN_ERROR).end, tool);
    } else {
      PerformingIsTold(cfg, o, answers, m, a, tool);
    }
  }

  /** A call that was made and led to no turn. */
  lemma CalledTranscribes(cfg: Config, o: Oracle, answers: Answers, m: Machine, end: Machine)
    requires m.run.stepCount < cfg.maxSteps && !o.tripped(m.run.stepCount + 1, BeforeStep)
    requires end.sent == m.sent + [[LLMMessage(System, cfg.instructions, None)] + m.conversation]
    requires end.conversation == m.conversation && end.run.toolCallCount == m.run.toolCallCount
    requires match o.reply(m.run.stepCount + 1, [LLMMessage(System, cfg.instructions, None)] + m.conversation)
             case Raised(_) => end.journal.steps == m.journal.steps
             case Decided(Final(_), usage) => end.journal.steps == m.journal.steps + [StepRow(m.run.stepCount + 1, None, usage)]
             case Decided(AskTool(tool), usage) =>
               && end.journal.steps == m.journal.steps + [StepRow(m.run.stepCount + 1, Some(tool.toolName), usage)]
               && o.tripped(m.run.stepCount + 1, BeforeTool)
    ensures Transcribed(cfg, o, answers, m, end) && Calls(m, end) == 1 && Said(m, end) == 0
    ensures LastReply(o, m, end)
            == Some(o.reply(m.run.stepCount + 1, [LLMMessage(System, cfg.instructions, None)] + m.conversation))
  {
    assert end.conversation[..|m.conversation|] == m.conversation;
    assert end.sent[|m.sent|] == [LLMMessage(System, cfg.instructions, None)] + m.conversation;
    assert CallTold(cfg, o, answers, m, end, 0);
  }

  lemma QuietTranscribes(cfg: Config, o: Oracle, answers: Answers, m: Machine, end: Machine)
    requires Quiet(m, end)
    ensures Transcribed(cfg, o, answers, m, end) && Calls(m, end) == 0 && Said(m, end) == 0
  {
  }

  lemma StoppedIsTold(cfg: Config, o: Oracle, answers: Answers, m: Machine)
    requires m.run.status == Running && o.tripped(m.run.stepCount + 1, BeforeStep)
    ensures ToldAsEnded(cfg, o, answers, m, Stop(m))
  {
    hide Stop, Transcribed;
    StopIs(m);
    QuietTranscribes(cfg, o, answers, m, Stop(m).end);
  }

  lemma UncalledIsTold(cfg: Config, o: Oracle, answers: Answers, m: Machine, code: string)
    requires m.run.status == Running && m.run.stepCount < cfg.maxSteps && !o.tripped(m.run.stepCount + 1, BeforeStep)
    requires o.reply(m.run.stepCount + 1, BuildMessages(cfg, m.conversation)) == Reply.Raised(code)
    ensures ToldAsEnded(cfg, o, answers, m, GiveUp(Sent(cfg, m), code))
  {
    SentIs(cfg, m);
    hide GiveUp, Sent, Transcribed, BuildMessages;
    GiveUpIs(Sent(cfg, m), code);
    CalledTranscribes(cfg, o, answers, m, GiveUp(Sent(cfg, m), code).end);
  }

  lemma AnsweringIsTold(cfg: Config, o: Oracle, answers: Answers, m: Machine, content: string)
    requires m.run.status == Running && m.run.stepCount < cfg.maxSteps && !o.tripped(m.run.stepCount + 1, BeforeStep)
    requires o.reply(m.run.stepCount + 1, BuildMessages(cfg, m.conversation)).Decided?
    requires o.reply(m.run.stepCount + 1, BuildMessages(cfg, m.conversation)).decision == Final(content)
    ensures ToldAsEnded(cfg, o, answers, m, Answer(Deciding(cfg, o, m), content))
  {
    var reply := o.reply(m.run.stepCount + 1, BuildMessages(cfg, m.conversation));
    SentIs(cfg, m);
    StepTakenIs(Sent(cfg, m), reply.decision, reply.usage);
    hide StepTaken, Sent, BuildMessages, Answer, Transcribed;
    AnswerIs(Deciding(cfg, o, m), content);
    CalledTranscribes(cfg, o, answers, m, Answer(Deciding(cfg, o, m), content).end);
  }

  lemma WithheldIsTold(cfg: Config, o: Oracle, answers: Answers, m: Machine, tool: ToolRequest)
    requires m.run.status == Running && m.run.stepCount < cfg.maxSteps && !o.tripped(m.run.stepCount + 1, BeforeStep)
    requires o.reply(m.run.stepCount + 1, BuildMessages(cfg, m.conversation)).Decided?
    requires o.reply(m.run.stepCount + 1, BuildMessages(cfg, m.conversation)).decision == AskTool(tool)
    requires o.tripped(m.run.stepCount + 1, BeforeTool)
    ensures ToldAsEnded(cfg, o, answers, m, Stop(Deciding(cfg, o, m)))
  {
    var reply := o.reply(m.run.stepCount + 1, BuildMessages(cfg, m.conversation));
    SentIs(cfg, m);
    StepTakenIs(Sent(cfg, m), reply.decision, reply.usage);
    hide StepTaken, Sent, BuildMessages, Stop, Transcribed;
    StopIs(Deciding(cfg, o, m));
    CalledTranscribes(cfg, o, answers, m, Stop(Deciding(cfg, o, m)).end);
    assert LastAsked(o, m, Stop(Deciding(cfg, o, m)).end, tool);
  }

  lemma ConsultingIsTold(cfg: Config, o: Oracle, answers: Answers, m: Machine)
    requires m.run.status == Running && m.run.stepCount < cfg.maxSteps && Consults(cfg, o, m)
    ensures ToldAsEnded(cfg, o, answers, m, Pass(cfg, o, m))
  {
    var n := m.run.stepCount + 1;
    var tool := o.reply(n, BuildMessages(cfg, m.conversation)).decision.request;
    PassThatConsults(cfg, o, m);
    ConsultingAsks(cfg, o, m);
    hide Pass, BuildMessages, ToldAsEnded, Heed, Ask, Deciding, Asking;
    HeedingIsTold(cfg, o, answers, m, Ask(cfg, Deciding(cfg, o, m), tool, o.execute(n, tool)), tool);
  }

  /** What a pass that does not get as far as the executor comes to. */
  lemma PassWithoutATool(cfg: Config, o: Oracle, m: Machine)
    requires m.run.status == Running && !Consults(cfg, o, m)
    ensures var n := m.run.stepCount + 1;
            Pass(cfg, o, m)
            == if o.tripped(n, BeforeStep) then Stop(m)
               else match o.reply(n, BuildMessages(cfg, m.conversation))
                    case Raised(code) => GiveUp(Sent(cfg, m), code)
                    case Decided(Final(content), _) => Answer(Deciding(cfg, o, m), content)
                    case Decided(AskTool(_), _) => Stop(Deciding(cfg, o, m))
  {
    hide Answer, GiveUp, Stop, StepTaken, BuildMessages, Heed;
  }

  /** One pass of the loop. */
  lemma PassIsTold(cfg: Config, o: Oracle, answers: Answers, m: Machine)
    requires m.run.status == Running && m.run.stepCount < cfg.maxSteps
    ensures ToldAsEnded(cfg, o, answers, m, Pass(cfg, o, m))
  {
    var n := m.run.stepCount + 1;
    if Consults(cfg, o, m) {
      ConsultingIsTold(cfg, o, answers, m);
    } else {
      PassWithoutATool(cfg, o, m);
      hide Pass, Stop, GiveUp, Answer, Deciding, Sent, BuildMessages, ToldAsEnded;
      if o.tripped(n, BeforeStep) {
        StoppedIsTold(cfg, o, answers, m);
      } else {
        match o.reply(n, BuildMessages(cfg, m.conversation))
        case Raised(code) => UncalledIsTold(cfg, o, answers, m, code);
        case Decided(Final(content), _) => AnsweringIsTold(cfg, o, answers, m, content);
        case Decided(AskTool(tool), _) => WithheldIsTold(cfg, o, answers, m, tool);
      }
    }
  }

  // -- One exchange after another -----------------------------------------------------------------

  lemma CallsShift(cfg: Config, o: Oracle, answers: Answers, m: Machine, next: Machine, end: Machine)
    requires Exchanged(cfg, o, answers, m, next) && Transcribed(cfg, o, answers, next, end)
    ensures Transcribed(cfg, o, answers, m, end)
    ensures Calls(m, end) == Calls(next, end) + 1 && Said(m, end) == Said(next, end) + 2
  {
    hide AsksFor, TellsOf, MayBeTold, CameTo, Fits;
    forall k: nat | k < Calls(m, end) ensures CallTold(cfg, o, answers, m, end, k) {
      if k == 0 {
        FirstCallStays(cfg, o, answers, m, next, end);
      } else {
        assert CallTold(cfg, o, answers, next, end, k - 1);
        CallShifts(cfg, o, answers, m, next, end, k);
      }
    }
  }

  lemma FirstCallStays(cfg: Config, o: Oracle, answers: Answers, m: Machine, next: Machine, end: Machine)
    requires Exchanged(cfg, o, answers, m, next)
    requires next.sent <= end.sent && next.conversation <= end.conversation && next.journal.steps <= end.journal.steps
    ensures CallTold(cfg, o, answers, m, end, 0)
  {
    hide AsksFor, TellsOf, MayBeTold, CameTo, Fits;
    assert CallTold(cfg, o, answers, m, next, 0);
    assert end.conversation[..|m.conversation|] == next.conversation[..|m.conversation|];
    assert end.conversation[..|m.conversation| + 2] == next.conversation;
  }

  lemma CallShifts(cfg: Config, o: Oracle, answers: Answers, m: Machine, next: Machine, end: Machine, k: nat)
    requires Exchanged(cfg, o, answers, m, next) && k > 0 && CallTold(cfg, o, answers, next, end, k - 1)
    ensures CallTold(cfg, o, answers, m, end, k)
  {
    hide AsksFor, TellsOf, MayBeTold, CameTo, Fits, Transcribed;
    assert m.run.stepCount + 1 + k == next.run.stepCount + 1 + (k - 1);
    assert |m.conversation| + 2 * k == |next.conversation| + 2 * (k - 1);
    assert |m.sent| + k == |next.sent| + (k - 1);
    assert |m.journal.steps| + k == |next.journal.steps| + (k - 1);
  }

  lemma EndShifts(cfg: Config, o: Oracle, answers: Answers, m: Machine, next: Machine, end: Machine, outcome: Runner.Outcome)
    requires Exchanged(cfg, o, answers, m, next) && Transcribed(cfg, o, answers, next, end)
    requires EndedAs(cfg, o, answers, next, end, outcome)
    ensures Transcribed(cfg, o, answers, m, end) && EndedAs(cfg, o, answers, m, end, outcome)
  {
    CallsShift(cfg, o, answers, m, next, end);
    assert next.run.stepCount == m.run.stepCount + 1;
    hide Transcribed, Exchanged, Fits, TooLongToTell, CameTo;
    if Calls(next, end) > 0 {
      assert LastReply(o, next, end) == LastReply(o, m, end);
      assert forall tool :: LastAsked(o, next, end, tool) <==> LastAsked(o, m, end, tool);
    }
  }

  // -- Across a pause -----------------------------------------------------------------------------

  lemma SavedIs(m: Machine)
    ensures SaveState(m) == m.(journal := SaveState(m).journal)
    ensures SaveState(m).journal.steps == m.journal.steps && RowIsTheRuns(SaveState(m))
  {
  }

  /** What a resumed run takes up is what the pass that paused it had asked. */
  lemma TakenUpAsks(cfg: Config, o: Oracle, m: Machine, a: Machine, tool: ToolRequest, answer: ToolResult)
    requires Asking(cfg, o, m, a, tool) && a.run.status == Running
    ensures var end := Pause(a, answer.executionId);
            var resumed := SaveState(Called(HandedOver(end, Reopened(end.run, end.conversation, tool), answer), Resume));
            && Asking(cfg, o, m, resumed, tool) && resumed.run.status == Running && RowIsTheRuns(resumed)
  {
    var end := Pause(a, answer.executionId);
    PauseIs(a, answer.executionId);
    SavedIs(Called(HandedOver(end, Reopened(end.run, end.conversation, tool), answer), Resume));
    hide Pause, AsksFor, SaveState, TellsOf;
  }

  /** Left RUNNING with the result untold, for want of a turn that holds it. */
  lemma UntoldIsTold(cfg: Config, o: Oracle, answers: Answers, m: Machine, resumed: Machine, tool: ToolRequest)
    requires m.run.stepCount < cfg.maxSteps && Asking(cfg, o, m, resumed, tool)
    requires resumed.run.status == Running && RowIsTheRuns(resumed)
    requires o.execute(m.run.stepCount + 1, tool).outcome == ToolOutcome.ApprovalRequired
    requires TooLongToTell(CameTo(o, answers, m.run.stepCount + 1, tool))
    ensures ToldAsEnded(cfg, o, answers, m, Ended(resumed, RaisedError("agent_run_error")))
  {
    hide Asking, TellsOf, Transcribed, CameTo;
    AskedTranscribes(cfg, o, answers, m, resumed, resumed, tool);
    AskingCounts(cfg, o, m, resumed, tool);
  }

  lemma ResumingIsTold(cfg: Config, o: Oracle, answers: Answers, m: Machine, a: Machine, tool: ToolRequest)
    requires m.run.stepCount < cfg.maxSteps && Asking(cfg, o, m, a, tool) && a.run.status == Running
    requires o.execute(m.run.stepCount + 1, tool).outcome == ToolOutcome.ApprovalRequired && answers(m.run.stepCount + 1, tool).Some?
    ensures var answer := CameTo(o, answers, m.run.stepCount + 1, tool);
            var end := Pause(a, answer.executionId);
            ToldAsEnded(cfg, o, answers, m, ResumeWith(cfg, end, Reopened(end.run, end.conversation, tool), answer))
  {
    var answer := CameTo(o, answers, m.run.stepCount + 1, tool);
    var end := Pause(a, answer.executionId);
    var handed := HandedOver(end, Reopened(end.run, end.conversation, tool), answer);
    var resumed := SaveState(Called(handed, Resume));
    PauseIs(a, answer.executionId);
    TakenUpAsks(cfg, o, m, a, tool, answer);
    assert handed.run == end.run;
    hide Pause, SaveState, Called, HandedOver, Perform, TakeUp, Asking, CameTo, ToldAsEnded;
    if Buildable(answer) {
      TakenUpIsPerforming(cfg, handed, tool, answer);
      PerformingIsTold(cfg, o, answers, m, resumed, tool);
    } else {
      UntoldIsLeftRunning(cfg, handed, tool, answer);
      UntoldIsTold(cfg, o, answers, m, resumed, tool);
    }
  }

  lemma AskingCounts(cfg: Config, o: Oracle, m: Machine, a: Machine, tool: ToolRequest)
    requires Asking(cfg, o, m, a, tool)
    ensures a.run.stepCount == m.run.stepCount + 1
  {
  }

  ghost predicate Unanswered(answers: Answers) {
    forall n: nat, tool :: answers(n, tool).None?
  }

  /** Nobody answers, or what is answered is read back from a store that holds the conversation. */
  ghost predicate Readable(cfg: Config, o: Oracle, answers: Answers, m: Machine) {
    Unanswered(answers) || (Live(m.run) && Stored(cfg, m) && Findable(cfg, o, m))
  }

  lemma PausedReturns(cfg: Config, o: Oracle, m: Machine)
    requires m.run.status == Running && Paused(Pass(cfg, o, m))
    ensures Pass(cfg, o, m).outcome == Returned
  {
    hide Act, StepTaken, GiveUp, Stop;
  }

  lemma UnansweredStays(cfg: Config, answers: Answers, end: Machine)
    requires Unanswered(answers) && end.run.pending.Some?
    ensures Answered(cfg, answers, end) == Ended(end, Returned)
  {
    hide Reopen, ResumeWith;
  }

  /** A pause, answered or not. */
  lemma PauseIsTold(cfg: Config, o: Oracle, answers: Answers, m: Machine)
    requires m.run.status == Running && m.run.stepCount < cfg.maxSteps && Paused(Pass(cfg, o, m)) && Readable(cfg, o, answers, m)
    ensures ToldAsEnded(cfg, o, answers, m, Answered(cfg, answers, Pass(cfg, o, m).end))
  {
    PausedReturns(cfg, o, m);
    PassIsTold(cfg, o, answers, m);
    var end := Pass(cfg, o, m).end;
    hide ToldAsEnded, Pass, Reopen, Ask, Deciding, Pause, BuildMessages, Stored, Live, Roomy, Unreused, ResumeWith, Asking;
    if Unanswered(answers) {
      UnansweredStays(cfg, answers, end);
    } else if |m.journal.rows| < MAX_REPLAYED_MESSAGES {
      AnsweredPauseIsTold(cfg, o, answers, m);
    } else {
      RoomyMeansRead(cfg, m);
      PastTheWindowStaysPaused(cfg, o, answers, m);
    }
  }

  /** A pause that is read back and answered is taken up with the answer. */
  lemma AnsweredIsResumed(cfg: Config, o: Oracle, answers: Answers, m: Machine)
    requires Live(m.run) && Stored(cfg, m) && |m.journal.rows| < MAX_REPLAYED_MESSAGES && Paused(Pass(cfg, o, m))
    ensures Consults(cfg, o, m)
    ensures var n := m.run.stepCount + 1;
            var tool := o.reply(n, BuildMessages(cfg, m.conversation)).decision.request;
            var a := Ask(cfg, Deciding(cfg, o, m), tool, o.execute(n, tool));
            var end := Pause(a, CameTo(o, answers, n, tool).executionId);
            && o.execute(n, tool).outcome == ToolOutcome.ApprovalRequired
            && Answered(cfg, answers, Pass(cfg, o, m).end)
               == if answers(n, tool).Some? then ResumeWith(cfg, end, Reopened(end.run, end.conversation, tool), CameTo(o, answers, n, tool))
                  else Ended(Pass(cfg, o, m).end, Returned)
  {
    PausedHolds(cfg, o, m);
    PausedMeansAsked(cfg, o, m);
    ConsultingAsks(cfg, o, m);
    var n := m.run.stepCount + 1;
    var tool := o.reply(n, BuildMessages(cfg, m.conversation)).decision.request;
    var asked := o.execute(n, tool);
    var a := Ask(cfg, Deciding(cfg, o, m), tool, asked);
    AskingCounts(cfg, o, m, a, tool);
    PauseHolds(a, asked.executionId);
    hide Pass, Reopen, Ask, Deciding, Pause, BuildMessages, Stored, Live, ResumeWith, Asking, Requested, RequestedTurn;
    if answers(n, tool).Some? {
      assert CameTo(o, answers, n, tool) == Named(answers(n, tool).value, asked.executionId);
    }
  }

  lemma AnsweredPauseIsTold(cfg: Config, o: Oracle, answers: Answers, m: Machine)
    requires Live(m.run) && Stored(cfg, m) && |m.journal.rows| < MAX_REPLAYED_MESSAGES
    requires m.run.stepCount < cfg.maxSteps && Paused(Pass(cfg, o, m))
    ensures ToldAsEnded(cfg, o, answers, m, Answered(cfg, answers, Pass(cfg, o, m).end))
  {
    PausedReturns(cfg, o, m);
    PassIsTold(cfg, o, answers, m);
    AnsweredIsResumed(cfg, o, answers, m);
    ConsultingAsks(cfg, o, m);
    hide ToldAsEnded, Pass, Answered, Ask, Deciding, Pause, BuildMessages, Stored, Live, ResumeWith, Asking, CameTo;
    var n := m.run.stepCount + 1;
    var tool := o.reply(n, BuildMessages(cfg, m.conversation)).decision.request;
    if answers(n, tool).Some? {
      ResumingIsTold(cfg, o, answers, m, Ask(cfg, Deciding(cfg, o, m), tool, o.execute(n, tool)), tool);
    }
  }

  // -- A whole life ---------------------------------------------------------------------------------

  lemma BudgetIsTold(cfg: Config, o: Oracle, answers: Answers, m: Machine)
    requires m.run.status == Running && m.run.stepCount >= cfg.maxSteps
    ensures ToldAsEnded(cfg, o, answers, m, GiveUp(m, MAX_STEPS_EXCEEDED))
  {
    hide GiveUp, Transcribed;
    GiveUpIs(m, MAX_STEPS_EXCEEDED);
    QuietTranscribes(cfg, o, answers, m, GiveUp(m, MAX_STEPS_EXCEEDED).end);
  }

  lemma GoingOnIsReadable(cfg: Config, o: Oracle, answers: Answers, m: Machine)
    requires m.run.status == Running && Readable(cfg, o, answers, m) && Pass(cfg, o, m).Going?
    ensures Readable(cfg, o, answers, Pass(cfg, o, m).m)
  {
    hide Live, Stored, Roomy, Unreused, Pass, Unanswered;
    if !Unanswered(answers) { PassKeepsStored(cfg, o, m); }
  }

  lemma ResumingIsReadable(cfg: Config, o: Oracle, answers: Answers, m: Machine)
    requires m.run.status == Running && Readable(cfg, o, answers, m) && Paused(Pass(cfg, o, m))
    requires Answered(cfg, answers, Pass(cfg, o, m).end).Going?
    ensures var next := Answered(cfg, answers, Pass(cfg, o, m).end).m;
            Readable(cfg, o, answers, next) && next.run.stepCount == m.run.stepCount + 1
  {
    hide Live, Stored, Roomy, Unreused, Pass, Unanswered, Answered;
    RoomyMeansRead(cfg, m);
    if Unanswered(answers) {
      UnansweredStays(cfg, answers, Pass(cfg, o, m).end);
    } else if |m.journal.rows| >= MAX_REPLAYED_MESSAGES {
      PastTheWindowStaysPaused(cfg, o, answers, m);
    } else {
      ResumedIsReady(cfg, o, answers, m);
    }
  }

  lemma GoingOnIsTold(cfg: Config, o: Oracle, answers: Answers, m: Machine, next: Machine, p: Progress)
    requires ToldAsEnded(cfg, o, answers, m, Going(next)) && p.Ended? && ToldAsEnded(cfg, o, answers, next, p)
    ensures ToldAsEnded(cfg, o, answers, m, p)
  {
    hide Exchanged, Transcribed, EndedAs;
    EndShifts(cfg, o, answers, m, next, p.end, p.outcome);
  }

  /**
   The whole life of a run, however many requests serve it: each model call is sent the agent's
   instructions and the conversation so far, word for word; the conversation and the step rows gain
   what the reply and the tool's result say and nothing else; and the run ends as the last of them says.
   */
  lemma {:induction false} ServedIsTold(cfg: Config, o: Oracle, answers: Answers, m: Machine)
    requires m.run.status == Running && Readable(cfg, o, answers, m)
    ensures var p := Served(cfg, o, answers, m);
            Transcribed(cfg, o, answers, m, p.end) && EndedAs(cfg, o, answers, m, p.end, p.outcome)
    decreases cfg.maxSteps - m.run.stepCount
  {
    hide Readable, Pass, Answered, Transcribed, EndedAs, Exchanged, GiveUp;
    if m.run.stepCount >= cfg.maxSteps {
      BudgetIsTold(cfg, o, answers, m);
    } else {
      var pass := Pass(cfg, o, m);
      PassIsTold(cfg, o, answers, m);
      if pass.Going? {
        GoingOnIsReadable(cfg, o, answers, m);
        ServedIsTold(cfg, o, answers, pass.m);
        GoingOnIsTold(cfg, o, answers, m, pass.m, Served(cfg, o, answers, pass.m));
      } else if Paused(pass) {
        PauseIsTold(cfg, o, answers, m);
        var resumed := Answered(cfg, answers, pass.end);
        if resumed.Going? {
          ResumingIsReadable(cfg, o, answers, m);
          ServedIsTold(cfg, o, answers, resumed.m);
          GoingOnIsTold(cfg, o, answers, m, resumed.m, Served(cfg, o, answers, resumed.m));
        }
      }
    }
  }

  /** Nobody to answer: one request is all that serves a run. */
  lemma {:induction false} UnansweredIsDriving(cfg: Config, o: Oracle, answers: Answers, m: Machine)
    requires m.run.status == Running && Unanswered(answers)
    ensures Served(cfg, o, answers, m) == Drive(cfg, o, m)
    decreases cfg.maxSteps - m.run.stepCount
  {
    hide Pass, Answered, Unanswered, GiveUp;
    if m.run.stepCount < cfg.maxSteps {
      var pass := Pass(cfg, o, m);
      if pass.Going? {
        UnansweredIsDriving(cfg, o, answers, pass.m);
      } else if Paused(pass) {
        PausedReturns(cfg, o, m);
        UnansweredStays(cfg, answers, pass.end);
      }
    }
  }

  /** The same of one request, with nothing assumed of the store. */
  lemma DriveIsTold(cfg: Config, o: Oracle, m: Machine)
    requires m.run.status == Running
    ensures var p := Drive(cfg, o, m);
            Transcribed(cfg, o, (_, _) => None, m, p.end) && EndedAs(cfg, o, (_, _) => None, m, p.end, p.outcome)
  {
    var nobody: Answers := (_, _) => None;
    UnansweredIsDriving(cfg, o, nobody, m);
    ServedIsTold(cfg, o, nobody, m);
    hide Transcribed, EndedAs, Served, Drive;
  }

  /** Every new request, in full: the instructions, then the conversation held at that call. */
  predicate SentTheConversation(cfg: Config, m: Machine, end: Machine) {
    && m.sent <= end.sent && m.conversation <= end.conversation
    && forall k: nat | k < |end.sent| - |m.sent| ::
         && |m.conversation| + 2 * k <= |end.conversation|
         && end.sent[|m.sent| + k] == [LLMMessage(System, cfg.instructions, None)] + end.conversation[..|m.conversation| + 2 * k]
  }

  lemma TranscribedSends(cfg: Config, o: Oracle, answers: Answers, m: Machine, end: Machine)
    requires Transcribed(cfg, o, answers, m, end)
    ensures SentTheConversation(cfg, m, end)
  {
    hide AsksFor, TellsOf, MayBeTold, CameTo, Fits;
    forall k: nat | k < |end.sent| - |m.sent|
      ensures |m.conversation| + 2 * k <= |end.conversation|
      ensures end.sent[|m.sent| + k] == [LLMMessage(System, cfg.instructions, None)] + end.conversation[..|m.conversation| + 2 * k]
    {
      assert CallTold(cfg, o, answers, m, end, k);
    }
  }

  lemma DriveSendsTheConversation(cfg: Config, o: Oracle, m: Machine)
    requires m.run.status == Running
    ensures SentTheConversation(cfg, m, Drive(cfg, o, m).end)
  {
    hide Drive, Transcribed, EndedAs, SentTheConversation;
    DriveIsTold(cfg, o, m);
    TranscribedSends(cfg, o, (_, _) => None, m, Drive(cfg, o, m).end);
  }

  /** The same over a run's whole life, while its pauses are read back from a store that holds the conversation. */
  lemma ServedSendsTheConversation(cfg: Config, o: Oracle, answers: Answers, m: Machine)
    requires Live(m.run) && Stored(cfg, m) && Findable(cfg, o, m)
    ensures SentTheConversation(cfg, m, Served(cfg, o, answers, m).end)
  {
    hide Served, Findable, Stored, Transcribed, EndedAs, SentTheConversation;
    ServedIsTold(cfg, o, answers, m);
    TranscribedSends(cfg, o, answers, m, Served(cfg, o, answers, m).end);
  }
}
