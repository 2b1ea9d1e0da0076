/** The tool executor: the one place a tool's body is entered, and everything that stands before it. */
module Executor {
  import opened Rows
  import opened Messages
  import opened Conversation
  import opened AgentModels
  import opened RunJournal
  import opened Runner
  import opened Transparency

  datatype ToolErrorKind =
    | NotFound | Disabled | NotPermitted | InvalidArguments | ExecutionFailed | Timeout
    | ApprovalNeeded | ApprovalDeclined | InvalidResult | CancelledMark | AnotherToolError

  datatype ToolError = ToolError(kind: ToolErrorKind, failure: ToolFailure)

  /** What a body did once it was entered. */
  datatype Body = Output(value: Json) | DeadlineExpired | RaisedToolError(error: ToolError) | Crashed

  datatype Tool = Tool(
    enabled: bool, requiresApproval: bool,
    accepts: Object -> bool, body: (string, Object) -> Body, validates: Json -> Option<Object>)

  /** A decision somebody made about one execution. */
  datatype Grant = Grant(executionId: string, granted: bool)

  datatype Framework = Framework(
    registry: map<string, Tool>, permits: string -> bool, dumps: Dumps, maxResultBytes: nat)

  /** What one call sees of the world: the id it would draw, and its two looks at the token. */
  datatype Moment = Moment(freshId: string, cancelledBefore: bool, cancelledAfter: bool)

  function ReservedArgumentNames(): set<string> {
    {"organization_id", "organisation_id", "org_id", "tenant_id", "user_id", "actor_id", "run_id", "request_id",
     "api_key", "apikey", "token", "access_token", "authorization", "credentials", "password", "secret"}
  }

  datatype Checked<+T> = Pass(value: T) | Raise(error: ToolError) {
    predicate IsFailure() { Raise? }

    function PropagateFailure<U>(): Checked<U>
      requires Raise?
    {
      Raise(error)
    }

    function Extract(): T
      requires Pass?
    {
      value
    }
  }

  /** The code and the message the framework gives each of its own errors. */
  function Standard(kind: ToolErrorKind): (failure: ToolFailure)
    ensures |failure.message| <= MAX_ERROR_CHARACTERS
  {
    match kind
    case NotFound => ToolFailure("tool_not_found", "That tool is not available.")
    case Disabled => ToolFailure("tool_disabled", "That tool is currently disabled.")
    case NotPermitted => ToolFailure("tool_not_permitted", "That tool is not permitted here.")
    case InvalidArguments => ToolFailure("tool_invalid_arguments", "The tool was called with arguments it cannot accept.")
    case ExecutionFailed => ToolFailure("tool_execution_failed", "The tool failed while running.")
    case Timeout => ToolFailure("tool_timeout", "The tool took too long and was stopped.")
    case ApprovalNeeded => ToolFailure("tool_approval_required", "That tool needs approval before it can run.")
    case ApprovalDeclined => ToolFailure("tool_approval_rejected", "A person declined this action, so it was not performed.")
    case InvalidResult => ToolFailure("tool_invalid_result", "The tool returned a result that could not be used.")
    case CancelledMark => ToolFailure("tool_cancelled", "The tool run was cancelled.")
    case AnotherToolError => ToolFailure("tool_error", "The tool could not be run.")
  }

  function Refuse<T>(kind: ToolErrorKind): Checked<T> {
    Raise(ToolError(kind, Standard(kind)))
  }

  function Require(holds: bool, kind: ToolErrorKind): Checked<()> {
    if holds then Pass(()) else Refuse(kind)
  }

  // -- Before the body ------------------------------------------------------------------

  function Resolve(f: Framework, name: string): Checked<Tool> {
    if name in f.registry then Pass(f.registry[name]) else Refuse(NotFound)
  }

  /** Reserved names are refused whatever the tool declares, then the schema is enforced. */
  predicate ArgumentsFit(tool: Tool, arguments: Object) {
    arguments.Keys !! ReservedArgumentNames() && tool.accepts(arguments)
  }

  function CheckApproval(tool: Tool, approval: Option<Grant>): Checked<()> {
    if !tool.requiresApproval then Pass(())
    else
      match approval
      case None => Refuse(ApprovalNeeded)
      case Some(grant) => Require(grant.granted, ApprovalDeclined)
  }

  /** Every check before the body, in order; the tool, if all of them pass. */
  function Admit(f: Framework, now: Moment, request: ToolRequest, approval: Option<Grant>): Checked<Tool> {
    var tool :- Resolve(f, request.toolName);
    var _ :- Require(tool.enabled, Disabled);
    var _ :- Require(f.permits(request.toolName), NotPermitted);
    var _ :- Require(ArgumentsFit(tool, request.arguments), InvalidArguments);
    var _ :- CheckApproval(tool, approval);
    var _ :- Require(!now.cancelledBefore, CancelledMark);
    Pass(tool)
  }

  // -- The body, and after ----------------------------------------------------------------

  function RunBody(tool: Tool, executionId: string, arguments: Object): Checked<Json> {
    match tool.body(executionId, arguments)
    case Output(value) => Pass(value)
    case DeadlineExpired => Refuse(Timeout)
    case RaisedToolError(error) => Raise(error)
    case Crashed => Refuse(ExecutionFailed)
  }

  function ValidateResult(f: Framework, tool: Tool, output: Json): Checked<Object> {
    match tool.validates(output)
    case Some(data) => if |f.dumps(JObject(data))| > f.maxResultBytes then Refuse(InvalidResult) else Pass(data)
    case None => Refuse(InvalidResult)
  }

  function Finish(f: Framework, now: Moment, tool: Tool, executionId: string, arguments: Object): Checked<Object> {
    var output :- RunBody(tool, executionId, arguments);
    var _ :- Require(!now.cancelledAfter, CancelledMark);
    ValidateResult(f, tool, output)
  }

  function OutcomeOf(kind: ToolErrorKind): ToolOutcome {
    match kind
    case Timeout => ToolOutcome.TimedOut
    case ApprovalNeeded => ToolOutcome.ApprovalRequired
    case ApprovalDeclined => ToolOutcome.Rejected
    case CancelledMark => ToolOutcome.Cancelled
    case _ => ToolOutcome.Failed
  }

  function Describe(executionId: string, name: string, end: Checked<Object>): ToolResult {
    match end
    case Pass(data) => ToolResult(executionId, name, Succeeded, Some(data), None)
    case Raise(error) => ToolResult(executionId, name, OutcomeOf(error.kind), None, Some(error.failure))
  }

  /** A call's result, and whether the tool's body was entered to get it. */
  datatype Execution = Execution(result: ToolResult, entered: bool)

  function Execute(f: Framework, now: Moment, request: ToolRequest, approval: Option<Grant>): Execution {
    var id := if approval.Some? then approval.value.executionId else now.freshId;
    match Admit(f, now, request, approval)
    case Raise(error) => Execution(Describe(id, request.toolName, Raise(error)), false)
    case Pass(tool) => Execution(Describe(id, request.toolName, Finish(f, now, tool, id, request.arguments)), true)
  }

  // -- What it promises -------------------------------------------------------------------

  /** Refused before anybody's approval is looked at. */
  predicate RefusedEarly(f: Framework, request: ToolRequest) {
    || request.toolName !in f.registry
    || !f.registry[request.toolName].enabled
    || !f.permits(request.toolName)
    || !ArgumentsFit(f.registry[request.toolName], request.arguments)
  }

  predicate Gated(f: Framework, request: ToolRequest) {
    request.toolName in f.registry && f.registry[request.toolName].requiresApproval
  }

  predicate Granted(approval: Option<Grant>) {
    approval.Some? && approval.value.granted
  }

  function BodyOf(f: Framework, now: Moment, request: ToolRequest, approval: Option<Grant>): Body
    requires request.toolName in f.registry
  {
    f.registry[request.toolName].body(if approval.Some? then approval.value.executionId else now.freshId, request.arguments)
  }

  lemma AdmitSays(f: Framework, now: Moment, request: ToolRequest, approval: Option<Grant>)
    ensures var a := Admit(f, now, request, approval);
            if RefusedEarly(f, request) then a.Raise? && OutcomeOf(a.error.kind) == ToolOutcome.Failed && a.error.failure == Standard(a.error.kind)
            else if Gated(f, request) && approval.None? then a == Refuse(ApprovalNeeded)
            else if Gated(f, request) && !Granted(approval) then a == Refuse(ApprovalDeclined)
            else if now.cancelledBefore then a == Refuse(CancelledMark)
            else a == Pass(f.registry[request.toolName])
  {
    hide Standard, ReservedArgumentNames, ArgumentsFit;
  }

  /** What becomes of a body's work. */
  lemma FinishReports(f: Framework, now: Moment, tool: Tool, id: string, arguments: Object)
    ensures Finish(f, now, tool, id, arguments)
            == match tool.body(id, arguments)
               case Output(value) =>
                 if now.cancelledAfter then Refuse(CancelledMark)
                 else if tool.validates(value).None? || |f.dumps(JObject(tool.validates(value).value))| > f.maxResultBytes then
                   Refuse(InvalidResult)
                 else Pass(tool.validates(value).value)
               case DeadlineExpired => Refuse(Timeout)
               case RaisedToolError(error) => Raise(error)
               case Crashed => Refuse(ExecutionFailed)
  {
    hide Standard;
  }

  /** A name no tool may be given an argument under: who is asking, or with what right. */
  predicate Reserved(name: string) {
    || name == "organization_id" || name == "organisation_id" || name == "org_id" || name == "tenant_id"
    || name == "user_id" || name == "actor_id" || name == "run_id" || name == "request_id"
    || name == "api_key" || name == "apikey" || name == "token" || name == "access_token"
    || name == "authorization" || name == "credentials" || name == "password" || name == "secret"
  }

  lemma FitsMeans(tool: Tool, arguments: Object)
    ensures ArgumentsFit(tool, arguments) <==> (forall name | name in arguments :: !Reserved(name)) && tool.accepts(arguments)
  {
    assert forall name :: name in ReservedArgumentNames() <==> Reserved(name);
  }

  /**
   A body is entered exactly when the tool is there, enabled and permitted, its arguments are its own
   and name nothing reserved, a person agreed if one must, and nobody stopped the run. The result is
   named after the grant if there is one.
   */
  lemma EnteredExactlyWhen(f: Framework, now: Moment, request: ToolRequest, approval: Option<Grant>)
    ensures var e := Execute(f, now, request, approval);
            && (e.entered <==>
                  && request.toolName in f.registry
                  && var tool := f.registry[request.toolName];
                     && tool.enabled && f.permits(request.toolName)
                     && (forall name | name in request.arguments :: !Reserved(name)) && tool.accepts(request.arguments)
                     && (tool.requiresApproval ==> approval.Some? && approval.value.granted)
                     && !now.cancelledBefore)
            && e.result.executionId == (if approval.Some? then approval.value.executionId else now.freshId)
            && e.result.toolName == request.toolName
  {
    hide Standard, Admit, Finish, ArgumentsFit, Reserved;
    AdmitSays(f, now, request, approval);
    if request.toolName in f.registry { FitsMeans(f.registry[request.toolName], request.arguments); }
  }

  /** A call that is not carried out, and says why. */
  predicate Declines(r: ToolResult, outcome: ToolOutcome, code: string) {
    r.outcome == outcome && r.data.None? && r.failure.Some? && r.failure.value.code == code
  }

  lemma AdmitReports(f: Framework, now: Moment, request: ToolRequest, approval: Option<Grant>)
    ensures Admit(f, now, request, approval)
            == if request.toolName !in f.registry then Refuse(NotFound)
               else
                 var tool := f.registry[request.toolName];
                 if !tool.enabled then Refuse(Disabled)
                 else if !f.permits(request.toolName) then Refuse(NotPermitted)
                 else if !ArgumentsFit(tool, request.arguments) then Refuse(InvalidArguments)
                 else if tool.requiresApproval && approval.None? then Refuse(ApprovalNeeded)
                 else if tool.requiresApproval && !approval.value.granted then Refuse(ApprovalDeclined)
                 else if now.cancelledBefore then Refuse(CancelledMark)
                 else Pass(tool)
  {
    hide Standard, ArgumentsFit;
  }

  lemma RefusingDeclines(f: Framework, now: Moment, request: ToolRequest, approval: Option<Grant>, kind: ToolErrorKind)
    requires Admit(f, now, request, approval) == Refuse(kind)
    ensures Declines(Execute(f, now, request, approval).result, OutcomeOf(kind), Standard(kind).code)
  {
    hide Admit, Standard, Finish;
  }

  lemma UnenteredIsRefused(f: Framework, now: Moment, request: ToolRequest, approval: Option<Grant>)
    ensures Execute(f, now, request, approval).entered <==> Admit(f, now, request, approval).Pass?
  {
    hide Admit, Finish, Standard;
  }

  /** The checks come in order, and the first that refuses is the one the result reports. */
  lemma RefusalsSayWhy(f: Framework, now: Moment, request: ToolRequest, approval: Option<Grant>)
    requires !Execute(f, now, request, approval).entered
    ensures var r := Execute(f, now, request, approval).result;
            if request.toolName !in f.registry then Declines(r, ToolOutcome.Failed, "tool_not_found")
            else
              var tool := f.registry[request.toolName];
              if !tool.enabled then Declines(r, ToolOutcome.Failed, "tool_disabled")
              else if !f.permits(request.toolName) then Declines(r, ToolOutcome.Failed, "tool_not_permitted")
              else if (exists name :: name in request.arguments && Reserved(name)) || !tool.accepts(request.arguments) then
                Declines(r, ToolOutcome.Failed, "tool_invalid_arguments")
              else if tool.requiresApproval && approval.None? then Declines(r, ToolOutcome.ApprovalRequired, "tool_approval_required")
              else if tool.requiresApproval && !approval.value.granted then Declines(r, ToolOutcome.Rejected, "tool_approval_rejected")
              else Declines(r, ToolOutcome.Cancelled, "tool_cancelled")
  {
    AdmitReports(f, now, request, approval);
    UnenteredIsRefused(f, now, request, approval);
    hide Execute, Admit, ArgumentsFit, Reserved, Declines;
    if request.toolName in f.registry { FitsMeans(f.registry[request.toolName], request.arguments); }
    RefusingDeclines(f, now, request, approval, Admit(f, now, request, approval).error.kind);
  }

  /** What a body did is what the result reports, unless the run was stopped meanwhile or the output cannot be used. */
  lemma BodiesSayWhat(f: Framework, now: Moment, request: ToolRequest, approval: Option<Grant>)
    requires Execute(f, now, request, approval).entered
    ensures request.toolName in f.registry
    ensures var tool, r := f.registry[request.toolName], Execute(f, now, request, approval).result;
            match tool.body(if approval.Some? then approval.value.executionId else now.freshId, request.arguments)
            case Output(value) =>
              if now.cancelledAfter then Declines(r, ToolOutcome.Cancelled, "tool_cancelled")
              else if tool.validates(value).None? || |f.dumps(JObject(tool.validates(value).value))| > f.maxResultBytes then
                Declines(r, ToolOutcome.Failed, "tool_invalid_result")
              else r.outcome == Succeeded && r.data == tool.validates(value) && r.failure.None?
            case DeadlineExpired => Declines(r, ToolOutcome.TimedOut, "tool_timeout")
            case Crashed => Declines(r, ToolOutcome.Failed, "tool_execution_failed")
            case RaisedToolError(error) =>
              && r.failure == Some(error.failure) && r.data.None?
              && r.outcome == (match error.kind
                               case Timeout => ToolOutcome.TimedOut
                               case ApprovalNeeded => ToolOutcome.ApprovalRequired
                               case ApprovalDeclined => ToolOutcome.Rejected
                               case CancelledMark => ToolOutcome.Cancelled
                               case _ => ToolOutcome.Failed)
  {
    hide ArgumentsFit, Reserved, CheckApproval;
    var id := if approval.Some? then approval.value.executionId else now.freshId;
    AdmitReports(f, now, request, approval);
    UnenteredIsRefused(f, now, request, approval);
    FinishReports(f, now, f.registry[request.toolName], id, request.arguments);
    hide Admit, Finish;
  }

  predicate RaisedKind(b: Body, kind: ToolErrorKind) {
    b.RaisedToolError? && b.error.kind == kind
  }

  /** A result of the framework's own making. */
  predicate RefusedAs(r: ToolResult, kind: ToolErrorKind) {
    r.outcome == OutcomeOf(kind) && r.data.None? && r.failure == Some(Standard(kind))
  }

  /** What a body that ran shows of itself. */
  predicate Shows(f: Framework, b: Body, cancelledAfter: bool, r: ToolResult) {
    match b
    case Output(_) =>
      if cancelledAfter then RefusedAs(r, CancelledMark)
      else
        || (r.outcome == Succeeded && r.data.Some? && r.failure.None? && |f.dumps(JObject(r.data.value))| <= f.maxResultBytes)
        || RefusedAs(r, InvalidResult)
    case DeadlineExpired => RefusedAs(r, Timeout)
    case RaisedToolError(error) => r.outcome == OutcomeOf(error.kind) && r.data.None? && r.failure == Some(error.failure)
    case Crashed => RefusedAs(r, ExecutionFailed)
  }

  /** Every way a call can end, from what the checks and the body say. */
  lemma EndSays(f: Framework, now: Moment, request: ToolRequest, approval: Option<Grant>)
    ensures var e := Execute(f, now, request, approval);
            if RefusedEarly(f, request) then
              !e.entered && exists kind :: OutcomeOf(kind) == ToolOutcome.Failed && RefusedAs(e.result, kind)
            else if Gated(f, request) && approval.None? then !e.entered && RefusedAs(e.result, ApprovalNeeded)
            else if Gated(f, request) && !Granted(approval) then !e.entered && RefusedAs(e.result, ApprovalDeclined)
            else if now.cancelledBefore then !e.entered && RefusedAs(e.result, CancelledMark)
            else e.entered && Shows(f, BodyOf(f, now, request, approval), now.cancelledAfter, e.result)
  {
    hide Standard, RefusedEarly, Admit, Finish;
    AdmitSays(f, now, request, approval);
    var a := Admit(f, now, request, approval);
    if a.Raise? {
      assert RefusedAs(Execute(f, now, request, approval).result, a.error.kind);
    } else {
      FinishReports(f, now, a.value, if approval.Some? then approval.value.executionId else now.freshId, request.arguments);
      RunsRegistered(f, now, request, approval);
    }
  }

  lemma RunsRegistered(f: Framework, now: Moment, request: ToolRequest, approval: Option<Grant>)
    ensures Admit(f, now, request, approval).Pass? ==> !RefusedEarly(f, request)
  {
    hide Standard, ReservedArgumentNames;
  }

  /** A person is asked exactly when a well-formed call to a gated tool comes with no decision, or a body says so. */
  lemma AsksExactlyWhen(f: Framework, now: Moment, request: ToolRequest, approval: Option<Grant>)
    ensures var e := Execute(f, now, request, approval);
            e.result.outcome == ToolOutcome.ApprovalRequired <==>
              if e.entered then RaisedKind(BodyOf(f, now, request, approval), ApprovalNeeded)
              else !RefusedEarly(f, request) && Gated(f, request) && approval.None?
  {
    hide Standard, RefusedEarly, Admit, Finish;
    EndSays(f, now, request, approval);
  }

  /** Success carries data and no failure, everything else a failure and no data. */
  lemma ResultsAreConsistent(f: Framework, now: Moment, request: ToolRequest, approval: Option<Grant>)
    ensures var r := Execute(f, now, request, approval).result;
            || (r.outcome == Succeeded && r.data.Some? && r.failure.None? && |f.dumps(JObject(r.data.value))| <= f.maxResultBytes)
            || (r.outcome != Succeeded && r.data.None? && r.failure.Some?)
  {
    hide Standard, RefusedEarly, Admit, Finish;
    EndSays(f, now, request, approval);
  }

  /** A body whose work the outcome does not show. */
  predicate Hidden(b: Body, cancelledAfter: bool) {
    || (b.Output? && cancelledAfter)
    || RaisedKind(b, ApprovalNeeded) || RaisedKind(b, ApprovalDeclined) || RaisedKind(b, CancelledMark)
  }

  /**
   The outcome tells whether the body ran exactly when the call was not refused early (those count
   as FAILED, and so as reached, though nothing ran) and a body that ran is not hidden behind a
   cancellation noticed only afterwards.
   */
  lemma ReachedIsTrueExactlyWhen(f: Framework, now: Moment, request: ToolRequest, approval: Option<Grant>)
    ensures var e := Execute(f, now, request, approval);
            (ReachedTheTool(e.result) <==> e.entered) <==>
              && !RefusedEarly(f, request)
              && (e.entered ==> !Hidden(BodyOf(f, now, request, approval), now.cancelledAfter))
  {
    hide Standard, RefusedEarly, Admit, Finish;
    EndSays(f, now, request, approval);
  }

  function Quiet(): Framework {
    Framework(map["note" := Tool.Tool(true, false, _ => true, (_, _) => Output(JNull), _ => Some(map[]))], _ => true, _ => "", 0)
  }

  /** Both ways it can be wrong: a tool nobody has counts as reached, and a cancelled one that ran does not. */
  lemma ReachedCanMislead()
    ensures var nobody := Execute(Quiet(), Moment("e", false, false), ToolRequest("ghost", map[]), None);
            !nobody.entered && ReachedTheTool(nobody.result)
    ensures var stopped := Execute(Quiet(), Moment("e", false, true), ToolRequest("note", map[]), None);
            stopped.entered && !ReachedTheTool(stopped.result)
  {
  }

  // -- The executor as the loop sees it -----------------------------------------------------

  /** Bodies keep to errors of their own, with messages that fit. */
  ghost predicate WellBehaved(f: Framework) {
    forall name, id, arguments | name in f.registry && f.registry[name].body(id, arguments).RaisedToolError? ::
      var error := f.registry[name].body(id, arguments).error;
      error.kind != ApprovalNeeded && error.kind != CancelledMark && |error.failure.message| <= MAX_ERROR_CHARACTERS
  }

  /** Asking and answering through the executor: a decision is executed under the id it was asked about. */
  ghost predicate ThroughExecutor(f: Framework, o: Oracle, answers: Answers, asked: nat -> Moment, decided: nat -> Option<bool>) {
    forall n: nat, request: ToolRequest ::
      && o.execute(n, request) == Execute(f, asked(n), request, None).result
      && answers(n, request) == AnswerTo(f, asked(n), request, decided(n))
  }

  /** What a decision comes to: the same call again, under the same id, on a token nobody trips. */
  function AnswerTo(f: Framework, asked: Moment, request: ToolRequest, decided: Option<bool>): Option<ToolResult> {
    match decided
    case None => None
    case Some(granted) =>
      var id := Execute(f, asked, request, None).result.executionId;
      Some(Execute(f, Moment(id, false, false), request, Some(Grant(id, granted))).result)
  }

  lemma AnAnswerIsHonest(f: Framework, asked: Moment, request: ToolRequest, granted: bool)
    requires WellBehaved(f)
    ensures var answer := AnswerTo(f, asked, request, Some(granted)).value;
            && answer.executionId == Execute(f, asked, request, None).result.executionId
            && answer.outcome != ToolOutcome.ApprovalRequired && answer.outcome != ToolOutcome.Cancelled
            && Buildable(answer)
  {
    var id := Execute(f, asked, request, None).result.executionId;
    var now, approval := Moment(id, false, false), Some(Grant(id, granted));
    hide Standard, ArgumentsFit, Admit, Finish;
    EnteredExactlyWhen(f, now, request, approval);
    EndSays(f, now, request, approval);
    if request.toolName in f.registry {
      var tool := f.registry[request.toolName];
      assert BodyOf(f, now, request, approval) == tool.body(id, request.arguments);
    }
  }

  /** The executor never breaks the promise a transparent pause rests on, and names its answers as they are taken. */
  lemma ExecutorIsHonest(f: Framework, o: Oracle, answers: Answers, asked: nat -> Moment, decided: nat -> Option<bool>)
    requires WellBehaved(f) && ThroughExecutor(f, o, answers, asked, decided)
    ensures Honest(o, answers)
    ensures forall n: nat, request | answers(n, request).Some? ::
              Named(answers(n, request).value, o.execute(n, request).executionId) == answers(n, request).value
  {
    forall n: nat, request | answers(n, request).Some?
      ensures answers(n, request).value.executionId == o.execute(n, request).executionId
      ensures answers(n, request).value.outcome != ToolOutcome.ApprovalRequired
      ensures answers(n, request).value.outcome != ToolOutcome.Cancelled
      ensures Buildable(answers(n, request).value)
    {
      AnAnswerIsHonest(f, asked(n), request, decided(n).value);
    }
  }
}
