/**
 The bounded loop that advances one run.

 The model, the tool executor and the cancellation token are oracles: arbitrary functions of the
 step that consults them. `Drive` is the loop as a function of what the oracles say; the runner's
 methods below execute it step by step and are proved to compute it.
 */
module Runner {
  import opened Lifecycle
  import opened Rows
  import opened Messages
  import opened Conversation
  import opened AgentModels
  import opened RunJournal

  datatype Config = Config(
    instructions: string, maxSteps: nat, maxMessages: nat, maxCharacters: nat, dumps: Dumps)

  datatype CheckPoint = BeforeStep | BeforeTool | AfterTool

  datatype Reply = Decided(decision: Decision, usage: Usage) | Raised(code: string)

  datatype Oracle = Oracle(
    reply: (nat, seq<LLMMessage>) -> Reply,
    execute: (nat, ToolRequest) -> ToolResult,
    tripped: (nat, CheckPoint) -> bool)

  datatype Outcome = Returned | RaisedCancelled | RaisedError(code: string)

  const MAX_STEPS_EXCEEDED := "agent_max_steps_exceeded"
  const CONVERSATION_TOO_LARGE := "agent_conversation_too_large"
  const RUN_ERROR := "agent_run_error"
  const STATE_ERROR := "agent_state_error"

  const MAX_ERROR_CHARACTERS: nat := 2000

  /** One request's hold on a run: the object, the conversation in memory, what was sent, what is stored. */
  datatype Machine = Machine(
    run: RunView, conversation: seq<LLMMessage>, sent: seq<seq<LLMMessage>>, journal: Ledger)

  datatype Progress = Going(m: Machine) | Ended(end: Machine, outcome: Outcome)

  /** How a run may be left: the row copied from it, and an outcome that says what it is. */
  predicate Settled(p: Progress) {
    p.Ended? ==>
      && p.end.journal.record == RecordOf(p.end.run)
      && match p.outcome
         case Returned => p.end.run.status == Completed || (p.end.run.status == AgentRunStatus.AwaitingApproval && p.end.run.pending.Some?)
         case RaisedCancelled => p.end.run.status == AgentRunStatus.Cancelled
         case RaisedError(_) => p.end.run.status == AgentRunStatus.Failed
  }

  // -- Turns ----------------------------------------------------------------------------

  function BuildMessages(cfg: Config, conversation: seq<LLMMessage>): seq<LLMMessage> {
    [SystemTurn(cfg.instructions)] + conversation
  }

  /** The assistant turn recording what the agent asked for. */
  function Requested(cfg: Config, request: ToolRequest): LLMMessage {
    AssistantTurn("[tool request: " + request.toolName + "]" + "\n" + cfg.dumps(JObject(request.arguments))
                  + "\n" + "[end tool request]")
  }

  function RequestedTurn(cfg: Config, request: ToolRequest, executionId: string): RecordedTurn {
    RecordedTurn(Requested(cfg, request), Some(ToolRequestPayload(request, Some(executionId))))
  }

  function LLMResultOf(request: ToolRequest, result: ToolResult): LLMToolResult {
    LLMToolResult(request.toolName, result.executionId, result.outcome == ToolOutcome.Succeeded,
                  OutcomeValue(result.outcome), result.data,
                  if result.failure.Some? then Some(result.failure.value.message) else None)
  }

  /** A tool turn can be built: its error text fits the field. */
  predicate Buildable(result: ToolResult) {
    result.failure.Some? ==> |result.failure.value.message| <= MAX_ERROR_CHARACTERS
  }

  /** The tool turn recording what the framework did; built from the result and nothing else. */
  function Performed(cfg: Config, request: ToolRequest, result: ToolResult): LLMMessage {
    ToolTurn(cfg.dumps, LLMResultOf(request, result))
  }

  function PerformedTurn(cfg: Config, request: ToolRequest, result: ToolResult): RecordedTurn {
    RecordedTurn(Performed(cfg, request, result), Some(ToolResultPayload(LLMResultOf(request, result))))
  }

  function AnswerTurn(content: string): RecordedTurn {
    RecordedTurn(AssistantTurn(content), None)
  }

  predicate TooLarge(cfg: Config, conversation: seq<LLMMessage>) {
    |conversation| > cfg.maxMessages || TransportSize(cfg.dumps, conversation) > cfg.maxCharacters
  }

  // -- Bookkeeping ------------------------------------------------------------------------

  function Called(m: Machine, c: Call): Machine {
    m.(run := Apply(m.run, c))
  }

  function SaveState(m: Machine): Machine {
    m.(journal := StateRecorded(m.journal, m.run, m.conversation))
  }

  function SaveTurn(m: Machine, turn: RecordedTurn): Machine {
    m.(journal := TurnsRecorded(m.journal, [turn], m.conversation))
  }

  /** `_record_failure`, the state write, and the re-raise. */
  function GiveUp(m: Machine, code: string): (p: Progress)
    ensures p.Ended? && p.end.run.stepCount == m.run.stepCount
    ensures m.run.status == Running ==> Settled(p)
  {
    Ended(SaveState(if Terminal(m.run.status) then m else Called(m, Fail(code))), RaisedError(code))
  }

  /**
   Whatever is raised, and wherever - a journal that fails after the run was completed, paused or
   cancelled included - the handler leaves the run terminal: FAILED with the error's code if it was
   not over, and otherwise exactly as it was, so an error can be raised over a COMPLETED run.
   */
  lemma HandlerLeavesTerminal(m: Machine, code: string)
    ensures var end := GiveUp(m, code).end;
            && Terminal(end.run.status) && end.journal.record == RecordOf(end.run)
            && if Terminal(m.run.status) then end.run == m.run
               else end.run.status == AgentRunStatus.Failed && end.run.errorCode == Some(code)
  {
  }

  /** `_raise_if_cancelled`, tripped. */
  function Stop(m: Machine): (p: Progress)
    ensures p.Ended? && p.end.run.stepCount == m.run.stepCount
    ensures m.run.status == Running ==> Settled(p)
  {
    Ended(SaveState(Called(m, Cancel)), RaisedCancelled)
  }

  // -- One pass of the loop -----------------------------------------------------------------

  function Answer(m: Machine, content: string): (p: Progress)
    ensures p.Ended? && p.end.run.stepCount == m.run.stepCount
    ensures m.run.status == Running ==> Settled(p)
  {
    Ended(SaveState(SaveTurn(Called(m, Complete(content)), AnswerTurn(content))), Returned)
  }

  /** The tool's result is said and stored. */
  function ResultStored(cfg: Config, m: Machine, request: ToolRequest, result: ToolResult): (m': Machine)
    ensures m'.run == m.run
  {
    SaveTurn(m.(conversation := m.conversation + [Performed(cfg, request, result)]), PerformedTurn(cfg, request, result))
  }

  /** The tool's result enters the conversation, and the conversation is measured. */
  function Perform(cfg: Config, m: Machine, request: ToolRequest, result: ToolResult): (p: Progress)
    ensures p.Going? ==> p.m.run == m.run
    ensures p.Ended? ==> p.end.run.stepCount == m.run.stepCount
    ensures m.run.status == Running ==> Settled(p)
  {
    var m1 := ResultStored(cfg, m, request, result);
    if TooLarge(cfg, m1.conversation) then GiveUp(m1, CONVERSATION_TOO_LARGE) else Going(m1)
  }

  /** The request is stored whatever came of it; a gated tool pauses the run behind a question. */
  function Ask(cfg: Config, m: Machine, request: ToolRequest, result: ToolResult): (m': Machine)
    ensures m'.run == Apply(m.run, RecordTool)
  {
    var m1 := Called(m, RecordTool);
    var attempt := ToolAttempt(m1.run.stepCount, request.toolName, result);
    var m2 := m1.(journal := ToolRecorded(m1.journal, attempt, m1.conversation));
    SaveTurn(m2.(conversation := m2.conversation + [Requested(cfg, request)]),
             RequestedTurn(cfg, request, result.executionId))
  }

  function Pause(m: Machine, executionId: string): (m': Machine)
    ensures m'.run == Apply(m.run, AwaitApproval(executionId)) && m'.journal.record == RecordOf(m'.run)
  {
    SaveState(Called(m.(journal := ApprovalRecorded(m.journal, executionId, m.conversation)), AwaitApproval(executionId)))
  }

  /** What follows once the request is stored: a pause, a stop, or the result. */
  function Heed(cfg: Config, o: Oracle, n: nat, m: Machine, request: ToolRequest, result: ToolResult): (p: Progress)
    ensures p.Going? ==> p.m.run == m.run
    ensures p.Ended? ==> p.end.run.stepCount == m.run.stepCount
    ensures m.run.status == Running ==> Settled(p)
  {
    if result.outcome == ToolOutcome.ApprovalRequired then Ended(Pause(m, result.executionId), Returned)
    else if result.outcome == ToolOutcome.Cancelled && o.tripped(n, AfterTool) then Stop(m)
    else if !Buildable(result) then GiveUp(m, RUN_ERROR)
    else Perform(cfg, m, request, result)
  }

  function UseTool(cfg: Config, o: Oracle, n: nat, m: Machine, request: ToolRequest): (p: Progress)
    ensures p.Going? ==> p.m.run == Apply(m.run, RecordTool)
    ensures p.Ended? ==> p.end.run.stepCount == m.run.stepCount
    ensures m.run.status == Running ==> Settled(p)
  {
    if o.tripped(n, BeforeTool) then Stop(m)
    else
      var result := o.execute(n, request);
      Heed(cfg, o, n, Ask(cfg, m, request, result), request, result)
  }

  /** The model answered: its step counts against the budget, and is recorded before it is acted on. */
  function StepTaken(m: Machine, decision: Decision, usage: Usage): (m': Machine)
    ensures m'.run == Apply(m.run, Record(usage))
  {
    var m1 := Called(m, Record(usage));
    m1.(journal := StepRecorded(m1.journal, m1.run, AgentStep(m.run.stepCount + 1, decision, usage), m1.conversation))
  }

  function Act(cfg: Config, o: Oracle, n: nat, m: Machine, decision: Decision): (p: Progress)
    requires m.run.status == Running
    ensures p.Going? ==> p.m.run == Apply(m.run, RecordTool)
    ensures p.Ended? ==> p.end.run.stepCount == m.run.stepCount
    ensures Settled(p)
  {
    match decision
    case Final(content) => Answer(m, content)
    case AskTool(tool) => UseTool(cfg, o, n, m, tool)
  }

  /** The model has been called, on the instructions and the conversation so far. */
  function Sent(cfg: Config, m: Machine): Machine {
    m.(sent := m.sent + [BuildMessages(cfg, m.conversation)])
  }

  function Pass(cfg: Config, o: Oracle, m: Machine): (p: Progress)
    requires m.run.status == Running
    ensures p.Going? ==> p.m.run.status == Running && p.m.run.stepCount == m.run.stepCount + 1
    ensures p.Ended? ==> p.end.run.stepCount <= m.run.stepCount + 1
    ensures p.Ended? && p.end.run.status == AgentRunStatus.AwaitingApproval ==> p.end.run.stepCount == m.run.stepCount + 1
    ensures Settled(p)
  {
    var n := m.run.stepCount + 1;
    if o.tripped(n, BeforeStep) then Stop(m)
    else
      match o.reply(n, BuildMessages(cfg, m.conversation))
      case Raised(code) => GiveUp(Sent(cfg, m), code)
      case Decided(decision, usage) =>
        Act(cfg, o, n, StepTaken(Sent(cfg, m), decision, usage), decision)
  }

  /** The loop: bounded by `max_steps - step_count`, and the count is the run's, not the request's. */
  function Drive(cfg: Config, o: Oracle, m: Machine): Progress
    requires m.run.status == Running
    ensures Drive(cfg, o, m).Ended? && Settled(Drive(cfg, o, m))
    decreases cfg.maxSteps - m.run.stepCount
  {
    if m.run.stepCount >= cfg.maxSteps then GiveUp(m, MAX_STEPS_EXCEEDED)
    else
      match Pass(cfg, o, m)
      case Ended(end, outcome) => Ended(end, outcome)
      case Going(next) =>
        Drive(cfg, o, next)
  }

  /** `run`: start, record, and drive. */
  function Run(cfg: Config, o: Oracle, m: Machine): Progress
    ensures Run(cfg, o, m).Ended?
  {
    if !Accepts(m.run, Start) then Ended(m, RaisedError(STATE_ERROR))
    else Drive(cfg, o, SaveState(Called(m, Start)))
  }

  /** `resume`, up to the loop. The tool turn is built before the handler that records failures. */
  function TakeUp(cfg: Config, m: Machine, request: ToolRequest, result: ToolResult): (p: Progress)
    ensures p.Going? ==> p.m.run == Apply(m.run, Resume) && p.m.run.status == Running
  {
    if !Accepts(m.run, Resume) then Ended(m, RaisedError(STATE_ERROR))
    else
      var m1 := SaveState(Called(m, Resume));
      if !Buildable(result) then Ended(m1, RaisedError(RUN_ERROR))
      else Perform(cfg, m1, request, result)
  }

  function Continue(cfg: Config, o: Oracle, m: Machine, request: ToolRequest, result: ToolResult): Progress
    ensures Continue(cfg, o, m, request, result).Ended?
  {
    match TakeUp(cfg, m, request, result)
    case Ended(end, outcome) => Ended(end, outcome)
    case Going(next) =>
      Drive(cfg, o, next)
  }

  // -- The runner -----------------------------------------------------------------------------

  class AgentRunner {
    const cfg: Config
    const oracle: Oracle

    constructor (cfg: Config, oracle: Oracle)
      ensures this.cfg == cfg && this.oracle == oracle
    {
      this.cfg, this.oracle := cfg, oracle;
    }

    ghost function Now(run: AgentRun, conversation: seq<LLMMessage>, sent: seq<seq<LLMMessage>>,
                       journal: DatabaseRunJournal): Machine
      reads run, journal, journal.store
    {
      Machine(run.View(), conversation, sent, journal.View())
    }

    method RecordFailure(run: AgentRun, code: string, journal: DatabaseRunJournal,
                         ghost conversation: seq<LLMMessage>, ghost sent: seq<seq<LLMMessage>>)
      modifies run, journal
      ensures GiveUp(old(Now(run, conversation, sent, journal)), code)
              == Ended(Now(run, conversation, sent, journal), RaisedError(code))
    {
      if !Terminal(run.status) {
        var ok := run.GiveUp(code);
      }
      journal.RecordState(run, conversation);
    }

    method CancelRun(run: AgentRun, journal: DatabaseRunJournal,
                     ghost conversation: seq<LLMMessage>, ghost sent: seq<seq<LLMMessage>>)
      modifies run, journal
      ensures Stop(old(Now(run, conversation, sent, journal)))
              == Ended(Now(run, conversation, sent, journal), RaisedCancelled)
    {
      var ok := run.Stop();
      journal.RecordState(run, conversation);
    }

    /** Where a pass or a resume left off. */
    ghost predicate At(p: Progress, m: Machine, outcome: Option<Outcome>) {
      p == match outcome
           case None => Going(m)
           case Some(result) => Ended(m, result)
    }

    method PerformTool(run: AgentRun, conversation: seq<LLMMessage>, journal: DatabaseRunJournal,
                       request: ToolRequest, result: ToolResult, ghost sent: seq<seq<LLMMessage>>)
      returns (grown: seq<LLMMessage>, outcome: Option<Outcome>)
      modifies run, journal, journal.store
      ensures At(Perform(cfg, old(Now(run, conversation, sent, journal)), request, result),
                 Now(run, grown, sent, journal), outcome)
    {
      grown := conversation + [Performed(cfg, request, result)];
      journal.RecordTurns([PerformedTurn(cfg, request, result)], grown);
      outcome := None;
      if TooLarge(cfg, grown) {
        RecordFailure(run, CONVERSATION_TOO_LARGE, journal, grown, sent);
        outcome := Some(RaisedError(CONVERSATION_TOO_LARGE));
      }
    }

    method AskForTool(run: AgentRun, conversation: seq<LLMMessage>, journal: DatabaseRunJournal,
                      request: ToolRequest, result: ToolResult, ghost sent: seq<seq<LLMMessage>>)
      returns (grown: seq<LLMMessage>)
      requires run.status == Running
      modifies run, journal, journal.store
      ensures Now(run, grown, sent, journal) == Ask(cfg, old(Now(run, conversation, sent, journal)), request, result)
    {
      var ok := run.RecordToolCall(request, result);
      journal.RecordTool(ToolAttempt(run.StepCount(), request.toolName, result), conversation);
      grown := conversation + [Requested(cfg, request)];
      journal.RecordTurns([RequestedTurn(cfg, request, result.executionId)], grown);
    }

    method ToolPass(n: nat, run: AgentRun, conversation: seq<LLMMessage>, journal: DatabaseRunJournal,
                    request: ToolRequest, ghost sent: seq<seq<LLMMessage>>)
      returns (grown: seq<LLMMessage>, outcome: Option<Outcome>)
      requires run.status == Running
      modifies run, journal, journal.store
      ensures At(UseTool(cfg, oracle, n, old(Now(run, conversation, sent, journal)), request),
                 Now(run, grown, sent, journal), outcome)
    {
      grown := conversation;
      if oracle.tripped(n, BeforeTool) {
        CancelRun(run, journal, grown, sent);
        return grown, Some(RaisedCancelled);
      }
      var result := oracle.execute(n, request);
      grown := AskForTool(run, conversation, journal, request, result, sent);
      if result.outcome == ToolOutcome.ApprovalRequired {
        journal.RecordApprovalRequest(result.executionId, grown);
        var ok := run.Await(result.executionId);
        journal.RecordState(run, grown);
        return grown, Some(Returned);
      }
      if result.outcome == ToolOutcome.Cancelled && oracle.tripped(n, AfterTool) {
        CancelRun(run, journal, grown, sent);
        return grown, Some(RaisedCancelled);
      }
      if !Buildable(result) {
        RecordFailure(run, RUN_ERROR, journal, grown, sent);
        return grown, Some(RaisedError(RUN_ERROR));
      }
      grown, outcome := PerformTool(run, grown, journal, request, result, sent);
    }

    method ActOn(n: nat, run: AgentRun, conversation: seq<LLMMessage>, journal: DatabaseRunJournal,
                 decision: Decision, ghost sent: seq<seq<LLMMessage>>)
      returns (grown: seq<LLMMessage>, outcome: Option<Outcome>)
      requires run.status == Running
      modifies run, journal, journal.store
      ensures At(Act(cfg, oracle, n, old(Now(run, conversation, sent, journal)), decision),
                 Now(run, grown, sent, journal), outcome)
      ensures decision.Final? ==>
                && outcome == Some(Returned) && grown == conversation
                && run.status == Completed && run.finalResponse == Some(decision.content)
                && journal.store.rows != []
                && journal.store.rows[|journal.store.rows| - 1].role == Assistant
                && journal.store.rows[|journal.store.rows| - 1].content == decision.content
    {
      grown := conversation;
      match decision
      case Final(content) =>
        var ok := run.Finish(content);
        journal.RecordTurns([AnswerTurn(content)], grown);
        journal.RecordState(run, grown);
        outcome := Some(Returned);
      case AskTool(tool) =>
        grown, outcome := ToolPass(n, run, grown, journal, tool, sent);
    }

    method TakeStep(n: nat, run: AgentRun, decision: Decision, usage: Usage, journal: DatabaseRunJournal,
                    ghost conversation: seq<LLMMessage>, ghost sent: seq<seq<LLMMessage>>)
      requires run.status == Running && n == run.StepCount() + 1
      modifies run, journal
      ensures Now(run, conversation, sent, journal) == StepTaken(old(Now(run, conversation, sent, journal)), decision, usage)
    {
      var step := AgentStep(n, decision, usage);
      var ok := run.RecordStep(step);
      journal.RecordStep(run, step, conversation);
    }

    method OnePass(run: AgentRun, conversation: seq<LLMMessage>, journal: DatabaseRunJournal, ghost sent: seq<seq<LLMMessage>>)
      returns (grown: seq<LLMMessage>, outcome: Option<Outcome>, ghost sent': seq<seq<LLMMessage>>)
      requires run.status == Running
      modifies run, journal, journal.store
      ensures At(Pass(cfg, oracle, old(Now(run, conversation, sent, journal))),
                 Now(run, grown, sent', journal), outcome)
      ensures sent' == if oracle.tripped(old(run.StepCount()) + 1, BeforeStep) then sent
                       else sent + [[LLMMessage(System, cfg.instructions, None)] + conversation]
    {
      hide Act, GiveUp, Stop, StepTaken;
      var n := run.StepCount() + 1;
      grown, sent' := conversation, sent;
      if oracle.tripped(n, BeforeStep) {
        CancelRun(run, journal, grown, sent');
        return grown, Some(RaisedCancelled), sent';
      }
      var request := BuildMessages(cfg, conversation);
      sent' := sent + [request];
      match oracle.reply(n, request)
      case Raised(code) =>
        RecordFailure(run, code, journal, grown, sent');
        outcome := Some(RaisedError(code));
      case Decided(decision, usage) =>
        TakeStep(n, run, decision, usage, journal, grown, sent');
        grown, outcome := ActOn(n, run, grown, journal, decision, sent');
    }

    /** The loop itself. */
    method Loop(run: AgentRun, conversation: seq<LLMMessage>, journal: DatabaseRunJournal, ghost sent: seq<seq<LLMMessage>>)
      returns (outcome: Outcome, grown: seq<LLMMessage>, ghost sent': seq<seq<LLMMessage>>)
      requires run.status == Running
      modifies run, journal, journal.store
      ensures Drive(cfg, oracle, old(Now(run, conversation, sent, journal)))
              == Ended(Now(run, grown, sent', journal), outcome)
    {
      grown, sent' := conversation, sent;
      while run.StepCount() < cfg.maxSteps
        invariant run.status == Running
        invariant Drive(cfg, oracle, old(Now(run, conversation, sent, journal)))
                  == Drive(cfg, oracle, Now(run, grown, sent', journal))
        decreases cfg.maxSteps - run.StepCount()
      {
        var stopped: Option<Outcome>;
        grown, stopped, sent' := OnePass(run, grown, journal, sent');
        if stopped.Some? {
          return stopped.value, grown, sent';
        }
      }
      RecordFailure(run, MAX_STEPS_EXCEEDED, journal, grown, sent');
      outcome := RaisedError(MAX_STEPS_EXCEEDED);
    }

    method RunAgent(run: AgentRun, messages: seq<LLMMessage>, journal: DatabaseRunJournal)
      returns (outcome: Outcome, grown: seq<LLMMessage>, ghost sent: seq<seq<LLMMessage>>)
      modifies run, journal, journal.store
      ensures Run(cfg, oracle, old(Now(run, messages, [], journal))) == Ended(Now(run, grown, sent, journal), outcome)
    {
      grown, sent := messages, [];
      var ok := run.Begin();
      if !ok { return RaisedError(STATE_ERROR), grown, sent; }
      journal.RecordState(run, grown);
      outcome, grown, sent := Loop(run, grown, journal, sent);
    }

    method ResumeAgent(run: AgentRun, messages: seq<LLMMessage>, journal: DatabaseRunJournal,
                       request: ToolRequest, result: ToolResult, ghost sent: seq<seq<LLMMessage>>)
      returns (outcome: Outcome, grown: seq<LLMMessage>, ghost sent': seq<seq<LLMMessage>>)
      modifies run, journal, journal.store
      ensures Continue(cfg, oracle, old(Now(run, messages, sent, journal)), request, result)
              == Ended(Now(run, grown, sent', journal), outcome)
    {
      grown, sent' := messages, sent;
      var ok := run.CarryOn();
      if !ok { return RaisedError(STATE_ERROR), grown, sent'; }
      journal.RecordState(run, grown);
      if !Buildable(result) { return RaisedError(RUN_ERROR), grown, sent'; }
      var stopped: Option<Outcome>;
      grown, stopped := PerformTool(run, grown, journal, request, result, sent');
      if stopped.Some? { return stopped.value, grown, sent'; }
      outcome, grown, sent' := Loop(run, grown, journal, sent');
    }
  }
}
