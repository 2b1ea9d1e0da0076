/** Where a run writes itself down: one commit per call, metadata in rows and turns in the conversation. */
module RunJournal {
  import opened Lifecycle
  import opened Rows
  import opened Messages
  import opened Conversation
  import opened AgentModels

  /** The counters and the state the durable row copies from the working one. */
  datatype RunRecord = RunRecord(
    status: AgentRunStatus, stepCount: nat, toolCallCount: nat, inputTokens: nat, outputTokens: nat,
    errorCode: Option<string>)

  function RecordOf(v: RunView): RunRecord {
    RunRecord(v.status, v.stepCount, v.toolCallCount, v.inputTokens, v.outputTokens, v.errorCode)
  }

  datatype StepRow = StepRow(number: nat, toolName: Option<string>, usage: Usage)

  datatype ToolRow = ToolRow(stepNumber: nat, toolName: string, outcome: ToolOutcome, executed: bool)

  /** `reached_the_tool`: read off the outcome alone. */
  predicate ReachedTheTool(r: ToolResult) {
    r.outcome == Succeeded || r.outcome == ToolOutcome.Failed || r.outcome == ToolOutcome.TimedOut
  }

  datatype ToolAttempt = ToolAttempt(stepNumber: nat, toolName: string, result: ToolResult)

  /** One commit: what became durable, and the conversation the request held in memory at that moment. */
  datatype Snapshot = Snapshot(
    rows: seq<MessageRow>, memory: seq<LLMMessage>, record: RunRecord, tools: map<string, ToolRow>, asked: seq<string>)

  datatype Ledger = Ledger(
    record: RunRecord, steps: seq<StepRow>, tools: map<string, ToolRow>, rows: seq<MessageRow>,
    asked: seq<string>, commits: seq<Snapshot>)

  /** What a crash right now would leave. */
  function Durable(j: Ledger, memory: seq<LLMMessage>): Snapshot {
    Snapshot(j.rows, memory, j.record, j.tools, j.asked)
  }

  function Committed(j: Ledger, memory: seq<LLMMessage>): Ledger {
    j.(commits := j.commits + [Durable(j, memory)])
  }

  function StateRecorded(j: Ledger, v: RunView, memory: seq<LLMMessage>): Ledger {
    Committed(j.(record := RecordOf(v)), memory)
  }

  function StepRowOf(step: AgentStep): StepRow {
    StepRow(step.number, if step.decision.AskTool? then Some(step.decision.request.toolName) else None, step.usage)
  }

  function StepRecorded(j: Ledger, v: RunView, step: AgentStep, memory: seq<LLMMessage>): Ledger {
    StateRecorded(j.(steps := j.steps + [StepRowOf(step)]), v, memory)
  }

  /** An update when the execution already has a row: the same execution, now with an outcome. */
  function ToolRecorded(j: Ledger, attempt: ToolAttempt, memory: seq<LLMMessage>): Ledger {
    var id := attempt.result.executionId;
    var row := if id in j.tools then j.tools[id] else ToolRow(attempt.stepNumber, attempt.toolName, attempt.result.outcome, false);
    Committed(j.(tools := j.tools[id := row.(outcome := attempt.result.outcome,
                                             executed := row.executed || ReachedTheTool(attempt.result))]), memory)
  }

  /**
   The execution's row says what came of it last, under the step and the name it was first filed
   under; the flag is raised by an outcome of the tool's own and never lowered, whoever raised it;
   and no other execution is touched.
   */
  lemma RecordingNeverLowers(j: Ledger, attempt: ToolAttempt, memory: seq<LLMMessage>)
    ensures var id, outcome, after := attempt.result.executionId, attempt.result.outcome, ToolRecorded(j, attempt, memory).tools;
            && after.Keys == j.tools.Keys + {id} && after[id].outcome == outcome
            && (after[id].executed <==>
                  || (id in j.tools && j.tools[id].executed)
                  || outcome == ToolOutcome.Succeeded || outcome == ToolOutcome.Failed || outcome == ToolOutcome.TimedOut)
            && after[id].stepNumber == (if id in j.tools then j.tools[id].stepNumber else attempt.stepNumber)
            && after[id].toolName == (if id in j.tools then j.tools[id].toolName else attempt.toolName)
            && forall other | other in j.tools && other != id :: after[other] == j.tools[other]
  {
  }

  function TurnsRecorded(j: Ledger, turns: seq<RecordedTurn>, memory: seq<LLMMessage>): Ledger {
    if turns == [] then j else Committed(j.(rows := Appended(j.rows, turns)), memory)
  }

  function ApprovalRecorded(j: Ledger, executionId: string, memory: seq<LLMMessage>): Ledger {
    Committed(j.(asked := j.asked + [executionId]), memory)
  }

  /** What a resumed run has already spent, from its durable record. */
  function BuildCarryover(record: RunRecord): Carryover {
    Carryover(record.stepCount, record.toolCallCount, record.inputTokens, record.outputTokens)
  }

  class DatabaseRunJournal {
    var record: RunRecord
    var steps: seq<StepRow>
    var tools: map<string, ToolRow>
    var asked: seq<string>
    const store: ConversationStore
    ghost var commits: seq<Snapshot>

    constructor (store: ConversationStore)
      ensures this.store == store
      ensures View() == Ledger(RecordOf(FRESH), [], map[], store.rows, [], [])
    {
      record, steps, tools, asked := RecordOf(FRESH), [], map[], [];
      this.store := store;
      commits := [];
    }

    ghost function View(): Ledger
      reads this, store
    {
      Ledger(record, steps, tools, store.rows, asked, commits)
    }

    method RecordState(run: AgentRun, ghost memory: seq<LLMMessage>)
      modifies this
      ensures View() == StateRecorded(old(View()), run.View(), memory)
    {
      record := RunRecord(run.status, run.StepCount(), run.ToolCallCount(),
                          run.View().inputTokens, run.View().outputTokens, run.errorCode);
      commits := commits + [Snapshot(store.rows, memory, record, tools, asked)];
    }

    method RecordStep(run: AgentRun, step: AgentStep, ghost memory: seq<LLMMessage>)
      modifies this
      ensures View() == StepRecorded(old(View()), run.View(), step, memory)
    {
      steps := steps + [StepRowOf(step)];
      RecordState(run, memory);
    }

    method RecordTool(attempt: ToolAttempt, ghost memory: seq<LLMMessage>)
      modifies this
      ensures View() == ToolRecorded(old(View()), attempt, memory)
      ensures attempt.result.executionId in tools && (ReachedTheTool(attempt.result) ==> tools[attempt.result.executionId].executed)
      ensures forall id | id in old(tools) :: id in tools && (old(tools)[id].executed ==> tools[id].executed)
    {
      var id := attempt.result.executionId;
      if id !in tools {
        tools := tools[id := ToolRow(attempt.stepNumber, attempt.toolName, attempt.result.outcome, false)];
      }
      if ReachedTheTool(attempt.result) { tools := tools[id := tools[id].(executed := true)]; }
      tools := tools[id := tools[id].(outcome := attempt.result.outcome)];
      assert tools == ToolRecorded(old(View()), attempt, memory).tools;
      commits := commits + [Snapshot(store.rows, memory, record, tools, asked)];
    }

    method RecordTurns(turns: seq<RecordedTurn>, ghost memory: seq<LLMMessage>)
      modifies this, store
      ensures View() == TurnsRecorded(old(View()), turns, memory)
    {
      if turns == [] { return; }
      store.AppendAll(turns);
      commits := commits + [Snapshot(store.rows, memory, record, tools, asked)];
    }

    method RecordApprovalRequest(executionId: string, ghost memory: seq<LLMMessage>)
      modifies this
      ensures View() == ApprovalRecorded(old(View()), executionId, memory)
    {
      asked := asked + [executionId];
      commits := commits + [Snapshot(store.rows, memory, record, tools, asked)];
    }
  }
}
