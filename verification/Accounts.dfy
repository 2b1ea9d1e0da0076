/** The budget and the books: what a run spends over its whole life, however often it pauses. */
module Accounts {
  import opened Lifecycle
  import opened Rows
  import opened Messages
  import opened Conversation
  import opened AgentModels
  import opened RunJournal
  import opened Runner
  import opened Transparency

  function SumStepInput(rows: seq<StepRow>): nat {
    if rows == [] then 0 else SumStepInput(rows[..|rows| - 1]) + rows[|rows| - 1].usage.inputTokens
  }

  function SumStepOutput(rows: seq<StepRow>): nat {
    if rows == [] then 0 else SumStepOutput(rows[..|rows| - 1]) + rows[|rows| - 1].usage.outputTokens
  }

  lemma SumOneMore(rows: seq<StepRow>, row: StepRow)
    ensures SumStepInput(rows + [row]) == SumStepInput(rows) + row.usage.inputTokens
    ensures SumStepOutput(rows + [row]) == SumStepOutput(rows) + row.usage.outputTokens
  {
    assert (rows + [row])[..|rows|] == rows;
  }

  /** A tool's row names the step that asked for it. */
  predicate AskedBy(steps: seq<StepRow>, row: ToolRow) {
    1 <= row.stepNumber <= |steps| && steps[row.stepNumber - 1].toolName == Some(row.toolName)
  }

  /** Every tool on record is filed under the step that asked for it, and no step asked for two. */
  predicate Filed(steps: seq<StepRow>, tools: map<string, ToolRow>) {
    && (forall id | id in tools :: AskedBy(steps, tools[id]))
    && (forall id, id' | id in tools && id' in tools && tools[id].stepNumber == tools[id'].stepNumber :: id == id')
  }

  /** Steps are numbered 1, 2, ..., n; the totals are sums over them; the tools are filed under them. */
  predicate Balanced(m: Machine) {
    && |m.journal.steps| == m.run.stepCount
    && (forall i | 0 <= i < |m.journal.steps| :: m.journal.steps[i].number == i + 1)
    && m.run.inputTokens == SumStepInput(m.journal.steps)
    && m.run.outputTokens == SumStepOutput(m.journal.steps)
    && Filed(m.journal.steps, m.journal.tools)
  }

  /** Every model call so far was a recorded step, but perhaps the last. */
  predicate Spent(cfg: Config, m: Machine) {
    && m.run.stepCount <= |m.sent| <= m.run.stepCount + 1
    && |m.sent| <= cfg.maxSteps
  }

  /** A model request: the agent's instructions, then a bounded conversation with no system turn. */
  predicate Shaped(cfg: Config, request: seq<LLMMessage>) {
    && |request| > 0 && request[0] == SystemTurn(cfg.instructions)
    && |request[1..]| <= cfg.maxMessages
    && TransportSize(cfg.dumps, request[1..]) <= cfg.maxCharacters
    && forall i | 0 < i < |request| :: request[i].role != System
  }

  predicate Sendable(cfg: Config, conversation: seq<LLMMessage>) {
    && !TooLarge(cfg, conversation)
    && forall i | 0 <= i < |conversation| :: conversation[i].role != System
  }

  predicate AllShaped(cfg: Config, m: Machine) {
    forall i | 0 <= i < |m.sent| :: Shaped(cfg, m.sent[i])
  }

  /** What holds at the top of the loop. */
  predicate InOrder(cfg: Config, m: Machine) {
    && m.run.status == Running && Balanced(m) && Sendable(cfg, m.conversation) && AllShaped(cfg, m)
    && |m.sent| == m.run.stepCount <= cfg.maxSteps
  }

  /** What holds wherever a run is left: the row is the run's, and a pause knows the execution it is about. */
  predicate Accounted(cfg: Config, m: Machine) {
    && Balanced(m) && Spent(cfg, m) && AllShaped(cfg, m) && m.journal.record == RecordOf(m.run)
    && (m.run.status == AgentRunStatus.AwaitingApproval ==> |m.sent| == m.run.stepCount && KnowsItsQuestion(m))
  }

  predicate KnowsItsQuestion(m: Machine) {
    m.run.pending.Some? && m.run.pending.value in m.journal.tools
  }

  lemma StepKeepsBalance(m: Machine, decision: Decision, usage: Usage)
    requires m.run.status == Running && Balanced(m)
    ensures Balanced(StepTaken(m, decision, usage))
    ensures StepTaken(m, decision, usage).journal.steps[m.run.stepCount].toolName
            == if decision.AskTool? then Some(decision.request.toolName) else None
    ensures forall id | id in m.journal.tools :: m.journal.tools[id].stepNumber <= m.run.stepCount
  {
    var row := StepRowOf(AgentStep(m.run.stepCount + 1, decision, usage));
    SumOneMore(m.journal.steps, row);
    FiledStaysFiled(m.journal.steps, [row], m.journal.tools);
    FiledUnderSteps(m.journal.steps, m.journal.tools);
    hide Filed, SumStepInput, SumStepOutput;
  }

  lemma FiledUnderSteps(steps: seq<StepRow>, tools: map<string, ToolRow>)
    requires Filed(steps, tools)
    ensures forall id | id in tools :: tools[id].stepNumber <= |steps|
  {
  }

  /** Under the same step and the same name. */
  predicate SameFile(row: ToolRow, row': ToolRow) {
    row'.stepNumber == row.stepNumber && row'.toolName == row.toolName
  }

  /** Filing one more tool under the last step, which nothing is filed under yet; or one again where it is filed. */
  lemma FilingOneMore(steps: seq<StepRow>, tools: map<string, ToolRow>, tools': map<string, ToolRow>, id: string)
    requires Filed(steps, tools) && forall i | i in tools :: tools[i].stepNumber < |steps|
    requires tools'.Keys == tools.Keys + {id} && forall i | i in tools :: SameFile(tools[i], tools'[i])
    requires id !in tools ==> tools'[id].stepNumber == |steps| && AskedBy(steps, tools'[id])
    ensures Filed(steps, tools')
  {
    forall i | i in tools' ensures AskedBy(steps, tools'[i]) {
      if i in tools { assert AskedBy(steps, tools[i]); }
    }
  }

  lemma FiledStaysFiled(steps: seq<StepRow>, more: seq<StepRow>, tools: map<string, ToolRow>)
    requires Filed(steps, tools)
    ensures Filed(steps + more, tools)
  {
    forall id | id in tools ensures AskedBy(steps + more, tools[id]) {
      assert AskedBy(steps, tools[id]);
    }
  }

  /** Asking after a step that asked: the execution is recorded under that step, once. */
  lemma AskKeepsBalance(cfg: Config, m: Machine, request: ToolRequest, result: ToolResult)
    requires m.run.status == Running && Balanced(m) && m.run.stepCount >= 1
    requires m.journal.steps[m.run.stepCount - 1].toolName == Some(request.toolName)
    requires forall id | id in m.journal.tools :: m.journal.tools[id].stepNumber < m.run.stepCount
    ensures Balanced(Ask(cfg, m, request, result))
  {
    hide Filed, Requested;
    FilingOneMore(m.journal.steps, m.journal.tools, Ask(cfg, m, request, result).journal.tools, result.executionId);
  }

  /** Nothing after the ask touches steps, tokens, what was sent, or which step a tool is filed under. */
  predicate SameBooks(m: Machine, m': Machine) {
    && m'.sent == m.sent && m'.journal.steps == m.journal.steps
    && m'.journal.tools.Keys == m.journal.tools.Keys
    && (forall id | id in m.journal.tools :: SameFile(m.journal.tools[id], m'.journal.tools[id]))
    && m'.run.stepCount == m.run.stepCount
    && m'.run.inputTokens == m.run.inputTokens && m'.run.outputTokens == m.run.outputTokens
  }

  function Of(p: Progress): Machine {
    match p
    case Going(m) => m
    case Ended(end, _) => end
  }

  lemma PerformKeepsBooks(cfg: Config, m: Machine, request: ToolRequest, result: ToolResult)
    ensures SameBooks(m, Of(Perform(cfg, m, request, result)))
    ensures Perform(cfg, m, request, result).Going? ==>
              Of(Perform(cfg, m, request, result)).conversation == m.conversation + [Performed(cfg, request, result)]
              && !TooLarge(cfg, Of(Perform(cfg, m, request, result)).conversation)
  {
  }

  lemma HeedKeepsBooks(cfg: Config, o: Oracle, n: nat, m: Machine, request: ToolRequest, result: ToolResult)
    ensures SameBooks(m, Of(Heed(cfg, o, n, m, request, result)))
    ensures Heed(cfg, o, n, m, request, result).Going? ==>
              Heed(cfg, o, n, m, request, result) == Perform(cfg, m, request, result)
  {
    hide Perform;
    PerformKeepsBooks(cfg, m, request, result);
  }

  lemma SendableIsShaped(cfg: Config, conversation: seq<LLMMessage>)
    requires Sendable(cfg, conversation)
    ensures Shaped(cfg, BuildMessages(cfg, conversation))
  {
    assert BuildMessages(cfg, conversation)[1..] == conversation;
  }

  lemma BooksKeepBalance(m: Machine, m': Machine)
    requires SameBooks(m, m') && Balanced(m)
    ensures Balanced(m')
  {
    RefiledIsFiled(m.journal.steps, m.journal.tools, m'.journal.tools);
    hide Filed;
  }

  lemma RefiledIsFiled(steps: seq<StepRow>, tools: map<string, ToolRow>, tools': map<string, ToolRow>)
    requires Filed(steps, tools) && tools'.Keys == tools.Keys && forall id | id in tools :: SameFile(tools[id], tools'[id])
    ensures Filed(steps, tools')
  {
    forall id | id in tools' ensures AskedBy(steps, tools'[id]) {
      assert AskedBy(steps, tools[id]);
    }
  }

  lemma AskKeepsSent(cfg: Config, m: Machine, request: ToolRequest, result: ToolResult)
    ensures var a := Ask(cfg, m, request, result);
            a.sent == m.sent && a.run.stepCount == m.run.stepCount
            && a.conversation == m.conversation + [Requested(cfg, request)]
            && result.executionId in a.journal.tools && (m.run.status == Running ==> a.run.status == Running)
  {
  }

  lemma PerformedIsSendable(cfg: Config, before: seq<LLMMessage>, request: ToolRequest, result: ToolResult)
    requires Sendable(cfg, before)
    ensures var after := before + [Requested(cfg, request)] + [Performed(cfg, request, result)];
            !TooLarge(cfg, after) ==> Sendable(cfg, after)
  {
  }

  lemma StopKeepsBooks(m: Machine)
    ensures SameBooks(m, Of(Stop(m)))
  {
  }

  /** What acting on a decision may change of the books. */
  predicate Acted(cfg: Config, m: Machine, p: Progress) {
    && Balanced(Of(p)) && Of(p).sent == m.sent && Of(p).run.stepCount == m.run.stepCount
    && (p.Going? ==> Sendable(cfg, p.m.conversation))
    && (p.Ended? && p.end.run.status == AgentRunStatus.AwaitingApproval ==> KnowsItsQuestion(p.end))
  }

  lemma HeedActs(cfg: Config, o: Oracle, n: nat, m: Machine, request: ToolRequest, result: ToolResult)
    requires Balanced(Ask(cfg, m, request, result)) && Sendable(cfg, m.conversation) && m.run.status == Running
    ensures Acted(cfg, m, Heed(cfg, o, n, Ask(cfg, m, request, result), request, result))
  {
    var a := Ask(cfg, m, request, result);
    AskKeepsSent(cfg, m, request, result);
    HeedKeepsBooks(cfg, o, n, a, request, result);
    PerformKeepsBooks(cfg, a, request, result);
    PerformedIsSendable(cfg, m.conversation, request, result);
    BooksKeepBalance(a, Of(Heed(cfg, o, n, a, request, result)));
    PauseKnows(cfg, o, n, a, request, result);
  }

  lemma PauseKnows(cfg: Config, o: Oracle, n: nat, a: Machine, request: ToolRequest, result: ToolResult)
    requires a.run.status == Running && result.executionId in a.journal.tools
    ensures var p := Heed(cfg, o, n, a, request, result);
            p.Ended? && p.end.run.status == AgentRunStatus.AwaitingApproval ==> KnowsItsQuestion(p.end)
  {
    hide ResultStored, TooLarge;
  }

  lemma UseToolIs(cfg: Config, o: Oracle, n: nat, m: Machine, request: ToolRequest)
    ensures UseTool(cfg, o, n, m, request)
            == if o.tripped(n, BeforeTool) then Stop(m)
               else Heed(cfg, o, n, Ask(cfg, m, request, o.execute(n, request)), request, o.execute(n, request))
  {
  }

  /** A tool pass after a step that asked: the books balance, and what goes on may be sent. */
  lemma UseToolActs(cfg: Config, o: Oracle, n: nat, m: Machine, request: ToolRequest)
    requires m.run.status == Running && Balanced(m) && m.run.stepCount >= 1
    requires m.journal.steps[m.run.stepCount - 1].toolName == Some(request.toolName)
    requires forall id | id in m.journal.tools :: m.journal.tools[id].stepNumber < m.run.stepCount
    requires Sendable(cfg, m.conversation)
    ensures Acted(cfg, m, UseTool(cfg, o, n, m, request))
  {
    UseToolIs(cfg, o, n, m, request);
    if o.tripped(n, BeforeTool) {
      StopKeepsBooks(m);
      BooksKeepBalance(m, Of(Stop(m)));
    } else {
      AskKeepsBalance(cfg, m, request, o.execute(n, request));
      HeedActs(cfg, o, n, m, request, o.execute(n, request));
    }
  }

  lemma AnswerKeepsBooks(m: Machine, content: string)
    ensures SameBooks(m, Of(Answer(m, content))) && Answer(m, content).Ended?
  {
  }

  lemma ActActs(cfg: Config, o: Oracle, n: nat, m: Machine, decision: Decision)
    requires m.run.status == Running && Balanced(m) && m.run.stepCount >= 1
    requires m.journal.steps[m.run.stepCount - 1].toolName
             == if decision.AskTool? then Some(decision.request.toolName) else None
    requires forall id | id in m.journal.tools :: m.journal.tools[id].stepNumber < m.run.stepCount
    requires Sendable(cfg, m.conversation)
    ensures Acted(cfg, m, Act(cfg, o, n, m, decision))
  {
    match decision
    case Final(content) =>
      AnswerKeepsBooks(m, content);
      BooksKeepBalance(m, Of(Answer(m, content)));
    case AskTool(tool) => UseToolActs(cfg, o, n, m, tool);
  }

  lemma SentIsShaped(cfg: Config, m: Machine)
    requires InOrder(cfg, m)
    ensures AllShaped(cfg, Sent(cfg, m)) && Balanced(Sent(cfg, m))
  {
    SendableIsShaped(cfg, m.conversation);
  }

  lemma PassIs(cfg: Config, o: Oracle, m: Machine)
    requires m.run.status == Running
    ensures var n := m.run.stepCount + 1;
            Pass(cfg, o, m)
            == if o.tripped(n, BeforeStep) then Stop(m)
               else match o.reply(n, BuildMessages(cfg, m.conversation))
                    case Raised(code) => GiveUp(Sent(cfg, m), code)
                    case Decided(decision, usage) => Act(cfg, o, n, StepTaken(Sent(cfg, m), decision, usage), decision)
  {
    hide Act, GiveUp, Stop, StepTaken, BuildMessages;
  }

  lemma GiveUpKeepsBooks(m: Machine, code: string)
    ensures SameBooks(m, Of(GiveUp(m, code)))
  {
  }

  lemma StepTakenKeeps(m: Machine, decision: Decision, usage: Usage)
    requires m.run.status == Running
    ensures var m' := StepTaken(m, decision, usage);
            m'.sent == m.sent && m'.run.stepCount == m.run.stepCount + 1 && m'.conversation == m.conversation
            && m'.run.status == Running && m'.journal.tools == m.journal.tools
  {
  }

  lemma PassKeepsOrder(cfg: Config, o: Oracle, m: Machine)
    requires InOrder(cfg, m) && m.run.stepCount < cfg.maxSteps
    ensures var p := Pass(cfg, o, m); if p.Going? then InOrder(cfg, p.m) else Accounted(cfg, p.end)
  {
    var n, m1 := m.run.stepCount + 1, Sent(cfg, m);
    PassIs(cfg, o, m);
    SentIsShaped(cfg, m);
    if o.tripped(n, BeforeStep) {
      StopKeepsBooks(m);
      BooksKeepBalance(m, Of(Stop(m)));
    } else {
      match o.reply(n, BuildMessages(cfg, m.conversation))
      case Raised(code) =>
        GiveUpKeepsBooks(m1, code);
        BooksKeepBalance(m1, Of(GiveUp(m1, code)));
      case Decided(decision, usage) =>
        StepTakenKeeps(m1, decision, usage);
        StepKeepsBalance(m1, decision, usage);
        ActActs(cfg, o, n, StepTaken(m1, decision, usage), decision);
    }
  }

  lemma BudgetEnds(cfg: Config, m: Machine)
    requires InOrder(cfg, m)
    ensures Accounted(cfg, GiveUp(m, MAX_STEPS_EXCEEDED).end)
  {
    GiveUpKeepsBooks(m, MAX_STEPS_EXCEEDED);
    BooksKeepBalance(m, GiveUp(m, MAX_STEPS_EXCEEDED).end);
    hide Balanced;
  }

  /** The loop spends at most its budget and leaves the books balanced, however it ends. */
  lemma {:induction false} DriveKeepsAccounts(cfg: Config, o: Oracle, m: Machine)
    requires InOrder(cfg, m)
    ensures Accounted(cfg, Drive(cfg, o, m).end)
    decreases cfg.maxSteps - m.run.stepCount
  {
    hide Balanced, AllShaped, Pass, Sendable;
    if m.run.stepCount >= cfg.maxSteps {
      BudgetEnds(cfg, m);
    } else {
      PassKeepsOrder(cfg, o, m);
      if Pass(cfg, o, m).Going? {
        DriveKeepsAccounts(cfg, o, Pass(cfg, o, m).m);
      }
    }
  }

  /** Whatever is read back of a run, and whatever it is answered, its books go on where they were. */
  lemma HandedOverBooks(m: Machine, again: Reopened, result: ToolResult)
    requires Balanced(m) && m.journal.record == RecordOf(m.run) && result.executionId in m.journal.tools
    requires again.Reopened? && again.run == RebuiltRun(m.journal.record, result.executionId)
    ensures var resumed := SaveState(Called(HandedOver(m, again, result), Resume));
            && Balanced(resumed) && resumed.sent == m.sent && resumed.run.stepCount == m.run.stepCount
            && resumed.run.status == Running && resumed.journal.record == RecordOf(resumed.run)
            && resumed.conversation == again.history
  {
    var resumed := SaveState(Called(HandedOver(m, again, result), Resume));
    hide Balanced;
    assert SameBooks(m, resumed);
    BooksKeepBalance(m, resumed);
  }

  lemma PerformIsSendable(cfg: Config, m: Machine, request: ToolRequest, result: ToolResult)
    requires forall i | 0 <= i < |m.conversation| :: m.conversation[i].role != System
    ensures Perform(cfg, m, request, result).Going? ==> Sendable(cfg, Perform(cfg, m, request, result).m.conversation)
  {
    PerformKeepsBooks(cfg, m, request, result);
    hide Perform;
  }

  lemma TakenUpKeepsAccounts(cfg: Config, m: Machine, again: Reopened, result: ToolResult)
    requires Accounted(cfg, m) && m.run.status == AgentRunStatus.AwaitingApproval && result.executionId in m.journal.tools
    requires again.Reopened? && again.run == RebuiltRun(m.journal.record, result.executionId)
    requires forall i | 0 <= i < |again.history| :: again.history[i].role != System
    ensures var p := ResumeWith(cfg, m, again, result); if p.Going? then InOrder(cfg, p.m) else Accounted(cfg, p.end)
  {
    var handed := HandedOver(m, again, result);
    var resumed := SaveState(Called(handed, Resume));
    HandedOverBooks(m, again, result);
    SentKeepsShape(cfg, m, resumed);
    if Buildable(result) {
      TakenUpIsPerforming(cfg, handed, again.request, result);
      PerformKeepsBooks(cfg, resumed, again.request, result);
      PerformIsSendable(cfg, resumed, again.request, result);
      var p := Perform(cfg, resumed, again.request, result);
      BooksKeepBalance(resumed, Of(p));
      SentKeepsShape(cfg, resumed, Of(p));
      hide Perform, TakeUp, HandedOver, SaveState, Called, Balanced, AllShaped, Sendable;
    } else {
      UntoldIsLeftRunning(cfg, handed, again.request, result);
    }
  }

  lemma AnsweredKeepsAccounts(cfg: Config, answers: Answers, end: Machine)
    requires Accounted(cfg, end) && end.run.status == AgentRunStatus.AwaitingApproval && end.run.pending.Some?
    ensures var p := Answered(cfg, answers, end); if p.Going? then InOrder(cfg, p.m) else Accounted(cfg, p.end)
  {
    var id := end.run.pending.value;
    var again := Reopen(cfg, end.journal, id);
    hide Reopen, ResumeWith, InOrder, Balanced, Spent, AllShaped;
    if again.Reopened? && answers(again.run.stepCount, again.request).Some? {
      RebuiltIsClean(cfg.dumps, Window(end.journal.rows));
      TakenUpKeepsAccounts(cfg, end, again, Named(answers(again.run.stepCount, again.request).value, id));
    }
  }

  lemma {:induction false} ServedKeepsAccounts(cfg: Config, o: Oracle, answers: Answers, m: Machine)
    requires InOrder(cfg, m)
    ensures Accounted(cfg, Served(cfg, o, answers, m).end)
    decreases cfg.maxSteps - m.run.stepCount
  {
    hide Balanced, AllShaped, Pass, Answered, Sendable;
    if m.run.stepCount >= cfg.maxSteps {
      BudgetEnds(cfg, m);
    } else {
      PassKeepsOrder(cfg, o, m);
      var pass := Pass(cfg, o, m);
      if pass.Going? {
        ServedKeepsAccounts(cfg, o, answers, pass.m);
      } else if Paused(pass) {
        AnsweredKeepsAccounts(cfg, answers, pass.end);
        PausesCount(cfg, o, m);
        var resumed := Answered(cfg, answers, pass.end);
        if resumed.Going? { ServedKeepsAccounts(cfg, o, answers, resumed.m); }
      }
    }
  }

  /**
   Over a run's whole life, however many requests serve it, whatever its pauses are answered and
   whatever a replay reads back of it: at most `max_steps` model calls, every one of them the
   agent's instructions and a bounded conversation; steps numbered 1..n; each tool on record under
   the step that asked for it, once; and the durable row carrying the sums of all of them.
   */
  lemma LifetimeAccounts(cfg: Config, o: Oracle, answers: Answers, m: Machine)
    requires InOrder(cfg, m)
    ensures var end := Served(cfg, o, answers, m).end;
            && |end.sent| <= cfg.maxSteps && AllShaped(cfg, end)
            && Balanced(end) && end.journal.record == RecordOf(end.run)
            && end.journal.record.stepCount == |end.journal.steps|
            && end.journal.record.inputTokens == SumStepInput(end.journal.steps)
            && end.journal.record.outputTokens == SumStepOutput(end.journal.steps)
  {
    hide Served, AllShaped;
    ServedKeepsAccounts(cfg, o, answers, m);
  }

  lemma SentKeepsShape(cfg: Config, m: Machine, m': Machine)
    requires m'.sent == m.sent && AllShaped(cfg, m)
    ensures AllShaped(cfg, m')
  {
  }

  /** A fresh run over an admitted conversation starts in order, whatever its store holds. */
  lemma RunsStartInOrder(cfg: Config, messages: seq<LLMMessage>, rows: seq<MessageRow>)
    requires forall i | 0 <= i < |messages| :: messages[i].role != System && WellFormed(cfg.dumps, messages[i])
    requires |messages| <= cfg.maxMessages && ContentSize(messages) <= cfg.maxCharacters
    ensures var m := Machine(FRESH, messages, [], Ledger(RecordOf(FRESH), [], map[], rows, [], []));
            var started := SaveState(Called(m, Start));
            && InOrder(cfg, started) && Live(started.run)
            && (Rebuild(cfg.dumps, rows) == Some(messages) ==> Stored(cfg, started))
            && (|rows| - |messages| + cfg.maxMessages < MAX_REPLAYED_MESSAGES ==> Roomy(cfg, started))
  {
    SizesAgree(cfg.dumps, messages);
  }
}
