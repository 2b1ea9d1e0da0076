/** Taking a paused run up again, as the request that won its approval does it. */
module Resumption {
  import opened Lifecycle
  import opened Rows
  import opened Messages
  import opened Conversation
  import opened AgentModels
  import opened RunJournal
  import opened Runner
  import opened Transparency

  /** One request's share of a resumed run: what it hands over, driven as far as it goes. */
  function Finished(cfg: Config, o: Oracle, p: Progress): Progress {
    match p
    case Ended(end, outcome) => p
    case Going(next) => if next.run.status == Running then Drive(cfg, o, next) else p
  }

  /** The loop that serves a resumed run in one more request is the loop any number of requests serve it by. */
  lemma ContinuingIsFinishing(cfg: Config, o: Oracle, m: Machine, again: Reopened, result: ToolResult)
    requires again.Reopened?
    ensures Continue(cfg, o, HandedOver(m, again, result), again.request, result) == Finished(cfg, o, ResumeWith(cfg, m, again, result))
  {
    hide Drive, HandedOver, TakeUp;
  }

  /**
   `_resume`, after the decision and its claim: everything it goes by is read from the stores, and
   the run it drives is rebuilt from them: it comes to what answering a served run's pause comes to.
   `None` where the run cannot be resumed, and then nothing has been written.
   */
  method ResumePaused(runner: AgentRunner, journal: DatabaseRunJournal, executionId: string, execute: ToolRequest -> ToolResult,
                      ghost end: Machine)
    returns (outcome: Option<Outcome>, run: AgentRun?, grown: seq<LLMMessage>, ghost sent': seq<seq<LLMMessage>>)
    requires end.journal == journal.View()
    modifies journal, journal.store
    ensures var again := Reopen(runner.cfg, end.journal, executionId);
            if again.NotResumable? then outcome.None? && journal.View() == old(journal.View())
            else
              && outcome.Some? && run != null
              && Finished(runner.cfg, runner.oracle, ResumeWith(runner.cfg, end, again, Named(execute(again.request), executionId)))
                 == Ended(runner.Now(run, grown, sent', journal), outcome.value)
  {
    hide Window, Rebuild, PendingToolRequest, PendingRequestFromPayload, Continue, ToolRecorded, ResumeWith, Finished;
    outcome, run, grown, sent' := None, null, [], end.sent;
    if journal.record.status != AgentRunStatus.AwaitingApproval { return; }
    var rows := journal.store.Messages();
    var payload := FindPendingToolRequest(rows, executionId);
    if payload.None? { return; }
    var history := ToLlmMessages(runner.cfg.dumps, rows);
    var request := PendingRequestFromPayload(payload.value);
    if request.None? || history.None? { return; }
    ghost var again := Reopen(runner.cfg, end.journal, executionId);
    assert again == Reopened(RebuiltRun(end.journal.record, executionId), history.value, request.value);

    var result := Named(execute(request.value), executionId);
    run := new AgentRun.Rebuilt(BuildCarryover(journal.record), executionId);
    var stepNumber := if journal.record.stepCount > 1 then journal.record.stepCount else 1;
    journal.RecordTool(ToolAttempt(stepNumber, request.value.toolName, result), history.value);
    var ended: Outcome;
    ended, grown, sent' := runner.ResumeAgent(run, history.value, journal, request.value, result, end.sent);
    outcome := Some(ended);
    ContinuingIsFinishing(runner.cfg, runner.oracle, end, again, result);
  }
}
