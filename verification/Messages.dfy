/**
 Conversation turns, tool results, and the structured form a turn is stored in.

 An execution id is written here as its canonical text, and `json.dumps` is a parameter: the
 model never depends on how a value is spelled, only on its being a function of the value.
 */
module Messages {
  import opened Rows

  // -- JSON values -----------------------------------------------------------------

  datatype Json =
    | JNull
    | JBool(truth: bool)
    | JNumber(number: real)
    | JString(text: string)
    | JArray(items: seq<Json>)
    | JObject(fields: Object)

  type Object = map<string, Json>

  type Dumps = Json -> string

  // -- What a tool did ---------------------------------------------------------------

  datatype ToolOutcome = Succeeded | Failed | TimedOut | Cancelled | ApprovalRequired | Rejected

  function OutcomeValue(o: ToolOutcome): string {
    match o
    case Succeeded => "succeeded"
    case Failed => "failed"
    case TimedOut => "timed_out"
    case Cancelled => "cancelled"
    case ApprovalRequired => "approval_required"
    case Rejected => "rejected"
  }

  datatype ToolRequest = ToolRequest(toolName: string, arguments: Object)

  datatype ToolFailure = ToolFailure(code: string, message: string)

  datatype ToolResult = ToolResult(
    executionId: string, toolName: string, outcome: ToolOutcome, data: Option<Object>, failure: Option<ToolFailure>)

  /** The same, in terms no provider is involved in. */
  datatype LLMToolResult = LLMToolResult(
    toolName: string, executionId: string, succeeded: bool, outcome: string, data: Option<Object>, error: Option<string>)

  // -- Turns -------------------------------------------------------------------------

  datatype Role = System | User | Assistant | Tool

  datatype LLMMessage = LLMMessage(role: Role, content: string, tool: Option<LLMToolResult>)

  function OfOption(data: Option<Object>): Json {
    match data
    case None => JNull
    case Some(fields) => JObject(fields)
  }

  /** The text form a provider receives of a tool turn. */
  function Render(dumps: Dumps, r: LLMToolResult): string {
    var verdict := if r.succeeded then "succeeded" else "failed (" + r.outcome + ")";
    var body := if r.succeeded then dumps(OfOption(r.data))
                else match r.error case Some(text) => (if text == "" then "No further detail." else text)
                                   case None => "No further detail.";
    "[tool result: " + r.toolName + " #" + r.executionId + " " + verdict + "]" + "\n" + body + "\n" + "[end tool result]"
  }

  function SystemTurn(content: string): LLMMessage { LLMMessage(System, content, None) }

  function AssistantTurn(content: string): LLMMessage { LLMMessage(Assistant, content, None) }

  function ToolTurn(dumps: Dumps, r: LLMToolResult): LLMMessage { LLMMessage(Tool, Render(dumps, r), Some(r)) }

  function TransportContent(dumps: Dumps, m: LLMMessage): string {
    match m.tool
    case Some(r) => Render(dumps, r)
    case None => m.content
  }

  /** A tool message carries a result whose rendering is its content; nothing else carries one. */
  predicate WellFormed(dumps: Dumps, m: LLMMessage) {
    if m.role == Tool then m.tool.Some? && m.content == Render(dumps, m.tool.value) else m.tool.None?
  }

  function ContentSize(messages: seq<LLMMessage>): nat {
    if messages == [] then 0 else ContentSize(messages[..|messages| - 1]) + |messages[|messages| - 1].content|
  }

  function TransportSize(dumps: Dumps, messages: seq<LLMMessage>): nat {
    if messages == [] then 0
    else TransportSize(dumps, messages[..|messages| - 1]) + |TransportContent(dumps, messages[|messages| - 1])|
  }

  /** A conversation is as long as its turns together. */
  lemma {:induction false} SizesAdd(a: seq<LLMMessage>, b: seq<LLMMessage>)
    ensures ContentSize(a + b) == ContentSize(a) + ContentSize(b)
    ensures |b| == 1 ==> ContentSize(b) == |b[0].content|
  {
    if b == [] {
      assert a + b == a;
    } else {
      assert (a + b)[..|a + b| - 1] == a + b[..|b| - 1];
      SizesAdd(a, b[..|b| - 1]);
      if |b| == 1 { assert b[..0] == []; }
    }
  }

  /** The check at the door counts `content`, the check in the loop counts `transport_content`: one number. */
  lemma {:induction false} SizesAgree(dumps: Dumps, messages: seq<LLMMessage>)
    requires forall i | 0 <= i < |messages| :: WellFormed(dumps, messages[i])
    ensures ContentSize(messages) == TransportSize(dumps, messages)
  {
    if messages != [] {
      assert forall i | 0 <= i < |messages| - 1 :: messages[..|messages| - 1][i] == messages[i];
      SizesAgree(dumps, messages[..|messages| - 1]);
      assert WellFormed(dumps, messages[|messages| - 1]);
    }
  }

  // -- The structured form of a rendered turn ------------------------------------------

  const TURN_TOOL_REQUEST := "tool_request"
  const TURN_TOOL_RESULT := "tool_result"

  function OfText(text: Option<string>): Json {
    match text
    case None => JNull
    case Some(t) => JString(t)
  }

  function ToolRequestPayload(request: ToolRequest, executionId: Option<string>): Object {
    map["type" := JString(TURN_TOOL_REQUEST), "tool_name" := JString(request.toolName),
        "arguments" := JObject(request.arguments), "tool_execution_id" := OfText(executionId)]
  }

  function ToolResultPayload(r: LLMToolResult): Object {
    map["type" := JString(TURN_TOOL_RESULT), "tool_name" := JString(r.toolName),
        "execution_id" := JString(r.executionId), "succeeded" := JBool(r.succeeded),
        "outcome" := JString(r.outcome), "data" := OfOption(r.data), "error" := OfText(r.error)]
  }

  function Get(p: Object, key: string): Json {
    if key in p then p[key] else JNull
  }

  predicate HasType(p: Object, kind: string) {
    Get(p, "type") == JString(kind)
  }

  /** Rebuild a tool turn's result; `None` where the original raises on a payload it did not write. */
  function ToolResultFromPayload(p: Object): Option<LLMToolResult> {
    match (Get(p, "tool_name"), Get(p, "execution_id"), Get(p, "succeeded"), Get(p, "outcome"))
    case (JString(name), JString(id), JBool(ok), JString(outcome)) =>
      (match (Get(p, "data"), Get(p, "error"))
       case (JNull, JNull) => Some(LLMToolResult(name, id, ok, outcome, None, None))
       case (JObject(fields), JNull) => Some(LLMToolResult(name, id, ok, outcome, Some(fields), None))
       case (JNull, JString(text)) => Some(LLMToolResult(name, id, ok, outcome, None, Some(text)))
       case (JObject(fields), JString(text)) => Some(LLMToolResult(name, id, ok, outcome, Some(fields), Some(text)))
       case _ => None)
    case _ => None
  }

  /** Rebuild the request a paused run is waiting on, arguments as the agent proposed them. */
  function PendingRequestFromPayload(p: Object): Option<ToolRequest> {
    match (Get(p, "tool_name"), Get(p, "arguments"))
    case (JString(name), JObject(arguments)) => Some(ToolRequest(name, arguments))
    case (JString(name), JNull) => Some(ToolRequest(name, map[]))
    case _ => None
  }

  lemma RequestRoundTrip(request: ToolRequest, executionId: string)
    ensures var p := ToolRequestPayload(request, Some(executionId));
            && HasType(p, TURN_TOOL_REQUEST) && !HasType(p, TURN_TOOL_RESULT)
            && Get(p, "type") == JString("tool_request")
            && Get(p, "tool_execution_id") == JString(executionId)
            && PendingRequestFromPayload(p) == Some(request)
  {
  }

  lemma ResultRoundTrip(r: LLMToolResult)
    ensures var p := ToolResultPayload(r);
            && HasType(p, TURN_TOOL_RESULT) && !HasType(p, TURN_TOOL_REQUEST)
            && Get(p, "type") == JString("tool_result")
            && ToolResultFromPayload(p) == Some(r)
  {
  }
}
