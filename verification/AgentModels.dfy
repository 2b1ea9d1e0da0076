/** The working copy of a run: what one request holds while it advances the durable row. */
module AgentModels {
  import opened Lifecycle
  import opened Rows
  import opened Messages

  datatype Usage = Usage(inputTokens: nat, outputTokens: nat)

  datatype Decision = Final(content: string) | AskTool(request: ToolRequest)

  datatype AgentStep = AgentStep(number: nat, decision: Decision, usage: Usage)

  datatype AgentToolCall = AgentToolCall(stepNumber: nat, toolName: string, result: ToolResult)

  /** What earlier requests of the same run already spent. */
  datatype Carryover = Carryover(stepCount: nat, toolCallCount: nat, inputTokens: nat, outputTokens: nat)

  const NOTHING_CARRIED := Carryover(0, 0, 0, 0)

  function SumInput(steps: seq<AgentStep>): nat {
    if steps == [] then 0 else SumInput(steps[..|steps| - 1]) + steps[|steps| - 1].usage.inputTokens
  }

  function SumOutput(steps: seq<AgentStep>): nat {
    if steps == [] then 0 else SumOutput(steps[..|steps| - 1]) + steps[|steps| - 1].usage.outputTokens
  }

  /** Everything about a run that does not depend on which request did it. */
  datatype RunView = RunView(
    status: AgentRunStatus,
    stepCount: nat,
    toolCallCount: nat,
    inputTokens: nat,
    outputTokens: nat,
    finalResponse: Option<string>,
    errorCode: Option<string>,
    completed: bool,
    pending: Option<string>)

  const FRESH := RunView(AgentRunStatus.Pending, 0, 0, 0, 0, None, None, false, None)

  // -- The lifecycle, as calls ------------------------------------------------------------

  datatype Call =
    | Start
    | Record(usage: Usage)
    | Complete(finalResponse: string)
    | RecordTool
    | AwaitApproval(executionId: string)
    | Resume
    | Fail(code: string)
    | Cancel

  /** The state a call moves to. `start` and `resume` share one. */
  function Target(c: Call): Option<AgentRunStatus> {
    match c
    case Start => Some(Running)
    case Resume => Some(Running)
    case Complete(_) => Some(Completed)
    case AwaitApproval(_) => Some(AgentRunStatus.AwaitingApproval)
    case Fail(_) => Some(AgentRunStatus.Failed)
    case Cancel => Some(AgentRunStatus.Cancelled)
    case Record(_) => None
    case RecordTool => None
  }

  /** Whether a call is accepted; otherwise it raises AgentStateError and changes nothing. */
  predicate Accepts(v: RunView, c: Call) {
    match Target(c)
    case Some(status) => status in AllowedFrom(v.status)
    case None => v.status == Running
  }

  function Apply(v: RunView, c: Call): RunView {
    if !Accepts(v, c) then v
    else
      match c
      case Start => v.(status := Running)
      case Record(usage) =>
        v.(stepCount := v.stepCount + 1,
           inputTokens := v.inputTokens + usage.inputTokens, outputTokens := v.outputTokens + usage.outputTokens)
      case Complete(response) => v.(status := Completed, finalResponse := Some(response), completed := true)
      case RecordTool => v.(toolCallCount := v.toolCallCount + 1)
      case AwaitApproval(exec) => v.(status := AgentRunStatus.AwaitingApproval, pending := Some(exec))
      case Resume => v.(status := Running, pending := None)
      case Fail(code) => v.(status := AgentRunStatus.Failed, errorCode := Some(code), completed := true)
      case Cancel => v.(status := AgentRunStatus.Cancelled, completed := true)
  }

  function ApplyAll(v: RunView, calls: seq<Call>): RunView {
    if calls == [] then v else Apply(ApplyAll(v, calls[..|calls| - 1]), calls[|calls| - 1])
  }

  /** What a run object never contradicts. */
  predicate Coherent(v: RunView) {
    && (v.finalResponse.Some? <==> v.status == Completed)
    && (v.errorCode.Some? <==> v.status == AgentRunStatus.Failed)
    && (v.completed <==> Terminal(v.status))
    && (v.status == AgentRunStatus.AwaitingApproval ==> v.pending.Some?)
  }

  /** Over every sequence of calls, accepted or refused, from a fresh run or a rebuilt one. */
  lemma {:induction false} CallsKeepCoherent(v: RunView, calls: seq<Call>)
    requires Coherent(v)
    ensures Coherent(ApplyAll(v, calls))
  {
    if calls != [] {
      CallsKeepCoherent(v, calls[..|calls| - 1]);
    }
  }

  lemma FreshRunsStayCoherent(calls: seq<Call>)
    ensures Coherent(ApplyAll(FRESH, calls))
  {
    CallsKeepCoherent(FRESH, calls);
  }

  /** A terminal state absorbs every call: nothing about the run changes again. */
  lemma {:induction false} TerminalAbsorbs(v: RunView, calls: seq<Call>)
    requires Terminal(v.status)
    ensures ApplyAll(v, calls) == v
  {
    if calls != [] {
      TerminalAbsorbs(v, calls[..|calls| - 1]);
    }
  }

  /** Calls only add: no call takes back a step, a tool or a token. */
  lemma {:induction false} CallsOnlyAdd(v: RunView, calls: seq<Call>)
    ensures var w := ApplyAll(v, calls);
            v.stepCount <= w.stepCount && v.toolCallCount <= w.toolCallCount
            && v.inputTokens <= w.inputTokens && v.outputTokens <= w.outputTokens
  {
    if calls != [] {
      CallsOnlyAdd(v, calls[..|calls| - 1]);
    }
  }

  /** The table, not the method names, decides: `resume` is accepted exactly where `start` is. */
  lemma StartAndResumeShareATarget(v: RunView)
    ensures Accepts(v, Resume) <==> Accepts(v, Start)
    ensures Accepts(v, Resume) <==> v.status == AgentRunStatus.Pending || v.status == AgentRunStatus.AwaitingApproval
  {
  }

  /** Where each call is accepted: work only while running, an end from wherever there is still one to come. */
  lemma AcceptedExactlyWhere(v: RunView, c: Call)
    ensures Accepts(v, c) <==>
              match c
              case Record(_) => v.status == Running
              case RecordTool => v.status == Running
              case Complete(_) => v.status == Running
              case AwaitApproval(_) => v.status == Running
              case Start => v.status == AgentRunStatus.Pending || v.status == AgentRunStatus.AwaitingApproval
              case Resume => v.status == AgentRunStatus.Pending || v.status == AgentRunStatus.AwaitingApproval
              case Fail(_) => v.status != Completed && v.status != AgentRunStatus.Failed && v.status != AgentRunStatus.Cancelled
              case Cancel => v.status != Completed && v.status != AgentRunStatus.Failed && v.status != AgentRunStatus.Cancelled
    ensures !Accepts(v, c) ==> Apply(v, c) == v
  {
  }

  // -- The object -------------------------------------------------------------------------

  class AgentRun {
    var status: AgentRunStatus
    var steps: seq<AgentStep>
    var carried: Carryover
    var finalResponse: Option<string>
    var toolCalls: seq<AgentToolCall>
    var errorCode: Option<string>
    var completed: bool
    var pendingToolExecutionId: Option<string>

    constructor ()
      ensures View() == FRESH && steps == [] && toolCalls == []
    {
      status, steps, carried := AgentRunStatus.Pending, [], NOTHING_CARRIED;
      finalResponse, toolCalls, errorCode := None, [], None;
      completed, pendingToolExecutionId := false, None;
    }

    /** The working copy of a paused run, rebuilt from its durable record. */
    constructor Rebuilt(carried: Carryover, pending: string)
      ensures View() == RunView(AgentRunStatus.AwaitingApproval, carried.stepCount, carried.toolCallCount,
                                carried.inputTokens, carried.outputTokens, None, None, false, Some(pending))
      ensures Coherent(View())
    {
      status, steps, this.carried := AgentRunStatus.AwaitingApproval, [], carried;
      finalResponse, toolCalls, errorCode := None, [], None;
      completed, pendingToolExecutionId := false, Some(pending);
    }

    function StepCount(): nat reads this { carried.stepCount + |steps| }

    function ToolCallCount(): nat reads this { carried.toolCallCount + |toolCalls| }

    function View(): RunView
      reads this
    {
      RunView(status, StepCount(), ToolCallCount(),
              carried.inputTokens + SumInput(steps), carried.outputTokens + SumOutput(steps),
              finalResponse, errorCode, completed, pendingToolExecutionId)
    }

    /** `_transition`: move if the table allows it, and raise otherwise. */
    method Transition(to: AgentRunStatus) returns (ok: bool)
      modifies this`status
      ensures ok <==> to in AllowedFrom(old(status))
      ensures status == if ok then to else old(status)
    {
      ok := to in AllowedFrom(status);
      if ok { status := to; }
    }

    method Begin() returns (ok: bool)
      modifies this`status
      ensures ok <==> Accepts(old(View()), Start)
      ensures View() == Apply(old(View()), Start)
    {
      ok := Transition(Running);
    }

    method RecordStep(step: AgentStep) returns (ok: bool)
      modifies this`steps
      ensures ok <==> Accepts(old(View()), Record(step.usage))
      ensures View() == Apply(old(View()), Record(step.usage))
      ensures steps == if ok then old(steps) + [step] else old(steps)
    {
      ok := status == Running;
      if ok {
        assert (steps + [step])[..|steps|] == steps;
        steps := steps + [step];
      }
    }

    method Finish(response: string) returns (ok: bool)
      modifies this`status, this`finalResponse, this`completed
      ensures ok <==> Accepts(old(View()), Complete(response))
      ensures View() == Apply(old(View()), Complete(response))
    {
      ok := Transition(Completed);
      if ok { finalResponse, completed := Some(response), true; }
    }

    /** The record carries the number of the step that asked. */
    method RecordToolCall(request: ToolRequest, result: ToolResult) returns (ok: bool)
      modifies this`toolCalls
      ensures ok <==> Accepts(old(View()), RecordTool)
      ensures View() == Apply(old(View()), RecordTool)
      ensures toolCalls == old(toolCalls) + (if ok then [AgentToolCall(StepCount(), request.toolName, result)] else [])
    {
      ok := status == Running;
      if ok { toolCalls := toolCalls + [AgentToolCall(StepCount(), request.toolName, result)]; }
    }

    method Await(executionId: string) returns (ok: bool)
      modifies this`status, this`pendingToolExecutionId
      ensures ok <==> Accepts(old(View()), AwaitApproval(executionId))
      ensures View() == Apply(old(View()), AwaitApproval(executionId))
    {
      ok := Transition(AgentRunStatus.AwaitingApproval);
      if ok { pendingToolExecutionId := Some(executionId); }
    }

    method CarryOn() returns (ok: bool)
      modifies this`status, this`pendingToolExecutionId
      ensures ok <==> Accepts(old(View()), Resume)
      ensures View() == Apply(old(View()), Resume)
    {
      ok := Transition(Running);
      if ok { pendingToolExecutionId := None; }
    }

    method GiveUp(code: string) returns (ok: bool)
      modifies this`status, this`errorCode, this`completed
      ensures ok <==> Accepts(old(View()), Fail(code))
      ensures View() == Apply(old(View()), Fail(code))
    {
      ok := Transition(AgentRunStatus.Failed);
      if ok { errorCode, completed := Some(code), true; }
    }

    method Stop() returns (ok: bool)
      modifies this`status, this`completed
      ensures ok <==> Accepts(old(View()), Cancel)
      ensures View() == Apply(old(View()), Cancel)
    {
      ok := Transition(AgentRunStatus.Cancelled);
      if ok { completed := true; }
    }
  }
}
