# Approvals, agent runs and their instruments

A model, in Dafny 4.11, of the backend's two linked protocols and of the self-contained
algorithms around them.

**The approval protocol.** Requests that start runs, decide approvals, cancel, expire and sweep
interleave freely over one database, and may vanish between any two of their commits
(`Rows`, `Protocol`). Every step is one committed transaction or one effect outside the database;
every conditional UPDATE is a compare-and-set on rows; every transaction has an instant of its own.
`Movements` states, field by field, every way a row, a request or the log may change in a history;
`AtMostOnce`, `SingleDriver` and `Decisions` hold what every step keeps, `Guarantees` what follows
for every history, and `Witnesses` histories that do happen. `Sessions` holds the one-transaction
requests in imperative form, with commit and rollback; `Expiry` the sweep over the deployment;
`Creation` the idempotent insert.

**The bounded agent loop.** `AgentModels`, `Messages`, `Conversation`, `RunJournal` and `Runner`
follow the run object, the turns and their payloads, the conversation store, the journal and the
runner. The loop is written twice: as functions of what the model, the executor and the
cancellation token say (arbitrary functions of the step), and as methods that mutate the run, the
conversation and the journal, proved to compute those functions. `Transparency`, `Storage`,
`Accounts`, `Recovery`, `Entry` and `Resumption` prove what the loop promises over a run's whole
life, across any number of pauses, and `Rehearsals` shows such a run. `Transcripts` tells a run from
the outside alone: every request sent, every turn and step row it led to, and why the run ended, from
what the model said and the tools returned. `Executor` is the tool executor,
with its checks in order, and it meets what those proofs ask of the oracle.

**Algorithms.** `Metrics` and `Histograms` (the bounded series index against the whole history of
calls), `Exposition` (label blocks printed and read back), `Paging` (keyset paging while rows
change), `Gateway` (the retry loop), `Pricing` (the price book) and `Tracing` (`traceparent` and
spans).

`dafny verify dfyconfig.toml` checks all of it.

## What the code does that its prose does not say

- Asking for an approval and pausing the run are separate commits
  (backend/app/agents/runner.py:238-245). A question can be open, answered or lapsed while its run
  is still RUNNING, and a run can wait on nothing: `Witnesses.OpenBeforeThePause`,
  `Witnesses.WaitingOnNothing`. Exactly when a pause leaves a question, and how one closes while the
  run waits: `Guarantees.PauseLeavesAQuestionExactlyWhen`, `Guarantees.WaitingIsClosedOnlyBy`.
- The abandonment sweep judges by age, so a slow driver can write over a row it failed, and the
  abandoned code stays beside the new status: `Witnesses.TerminalRowsCanMove`. A terminal row can move
  exactly while a request drives its run: `Guarantees.TerminalRowMovesExactlyWhileDriven`. What
  cancellation or expiry ends is driven by nobody and stays ended: `Guarantees.EndedRunsStayEnded`.
- `_explain_refusal` goes by the number of approvals the whole organization lapsed, so it can answer
  410 about an approval somebody approved: `Witnesses.RefusalCanMislead`. When it tells the truth,
  exactly: `Guarantees.RefusalIsTrueExactlyWhen`.
- `reached_the_tool` reads the outcome alone. Its docstring excludes a missing tool and bad
  arguments; the code counts both as FAILED, hence as reached, and does not count a body that ran
  and was then cancelled: `Executor.ReachedIsTrueExactlyWhen`, `Executor.ReachedCanMislead`.
- `resume` builds the tool turn before the handler that records failures
  (backend/app/agents/runner.py:150-166), so a failure message too long for the field leaves the run
  RUNNING: `Transparency.ResumeSettlesExactlyWhen`.
- A replay reads the oldest 500 rows and the last plain assistant turn among them, whichever run wrote
  it: `Transparency.PauseIsFoundExactlyInTheWindow`, `Entry.ReplayIsTheOriginalExactlyWhen`,
  `Entry.CompletedRunsReplay`.
- The handler of the loop leaves a run that is already over as it is, so an error a journal raises after
  completion is raised over a COMPLETED run: `Runner.HandlerLeavesTerminal`.
- `start` and `resume` share one transition target, so each is accepted where the other is:
  `AgentModels.StartAndResumeShareATarget`.
- With a negative `max_retries` the retry loop does reach its final assertion: `Gateway.Attempt`.

## Assumptions

- The executor oracle of the loop asks a person at most the way the executor does (`Executor.AsksExactlyWhen`);
  in the step system a request for approval comes from a gated tool that was not entered, which holds
  of every tool whose body does not itself raise the framework's approval error.
- An execution run on a grant is named after the grant (backend/app/tools/executor.py:154-157), so an
  answer to a pause carries the id it was asked about; nothing else is assumed of answers by the accounts,
  the storage and the recovery results. Transparency is stated for answers that can be told, that do not
  ask again, and that the token did not cancel (`Transparency.Tellable`, met by `Executor.ExecutorIsHonest`);
  an answer of any other kind does end otherwise (`Transparency.PauseIsTransparentExactlyWhen`).
- Nobody else writes to a conversation while one of its runs is paused. Transparency is stated for
  conversations a replay reaches the end of (`Transparency.Roomy`); storage for those, and for any other
  whose execution ids are drawn once (`Storage.Findable`).
- Figures, durations and amounts are exact: `real` stands for float and Decimal.
- Random ids are arbitrary functions of how many were drawn; the clock is an arbitrary instant per transaction.

## Model

| member | source | states |
|---|---|---|
| Guarantees.SafeAlways | backend/app/repositories/agent_run.py:260-283 | In every history of starters, deciders, cancels, sweeps and crashes, with or without the guard of `decide`: ids are issued once, gated executions stay gated, a claim has one holder and a body one entry |
| Guarantees.BodyEnteredAtMostOnce | backend/app/services/approvals.py:493-515 | A tool body is entered at most once per execution, and a gated one only with `executed` raised, even when `decide` admits many winners |
| Guarantees.GatedBodyWasAgreedTo | backend/app/services/approvals.py:341-352 | When a gated body is entered its approval says APPROVED, its execution is claimed, and it was never entered before |
| Guarantees.ClaimNeverRefused | backend/app/services/approvals.py:493-498 | Under the real `decide`, the branch for a lost claim is unreachable |
| Guarantees.InvAlways | backend/app/services/approvals.py:306-398 | Links, exclusivity, what waiting promises and what was logged hold in every reachable state |
| Guarantees.WaitingIsUnattended | backend/app/agents/runner.py:238-245 | A run durably AWAITING_APPROVAL with a PENDING approval is in no request's hands |
| Guarantees.OneRequestPerRun | backend/app/services/approvals.py:478-500 | At most one request drives a run or is about to take it over |
| Guarantees.EndedRunsStayEnded | backend/app/services/agent_execution.py:303-386 | A run that a cancel or an expiry ends was waiting and unattended, nobody is asked about it any more, and afterwards no step of any history calls a model, enters a tool, stores a turn or writes state for it |
| Guarantees.DeadStaysDead | backend/app/services/approval_expiry.py:158-185 | A terminal run no request is driving keeps its row and stays silent for good, whatever is still open about it |
| Guarantees.TerminalRowMovesExactlyWhileDriven | backend/app/repositories/agent_run.py:133-172 | A terminal row can still move exactly while a request drives its run; otherwise no step of any history moves it |
| Guarantees.PauseLeavesAQuestionExactlyWhen | backend/app/agents/runner.py:238-245 | A run that starts to wait has an open question exactly when its own approval is still PENDING at that commit |
| Guarantees.WaitingIsClosedOnlyBy | backend/app/services/workflow_execution.py:337-355 | While a run waits its question closes only by a decision, by the cancellation of the workflow around it, or in the commit that ends the run |
| Guarantees.DecidedIsFrozen | backend/app/repositories/approval.py:161-178 | An approval out of PENDING keeps its status and its decision fields through every later step |
| Guarantees.AnsweredIsClosed | backend/app/services/approvals.py:400-447 | Every decision request that was answered, won or refused, finds the approval out of PENDING |
| Guarantees.OneDecisionWins | backend/app/repositories/approval.py:131-178 | Of any number of decisions of one approval at most one wins |
| Guarantees.RefusalLapsesThePending | backend/app/services/approvals.py:428-447 | A refused request that finds the row still PENDING lapses it, at the same instant, and answers "expired" |
| Guarantees.RefusalIsTrueExactlyWhen | backend/app/services/approvals.py:430-447 | Of every refusal in any history: it says "expired" of an EXPIRED row and "already decided" of any other exactly when it was read off the refreshed row, or the row was still PENDING at the sweep, or what the sweep lapsed elsewhere in the organization agrees with it |
| Guarantees.RefreshAnswersTheRow | backend/app/services/approvals.py:430-437 | The refreshed row is answered as it stands and left as it is: "expired" exactly of an EXPIRED one, "already decided" of a decided or cancelled one, nothing yet of a PENDING one |
| Movements.DecisionsAreRecorded | backend/app/repositories/approval.py:161-178 | In every history a decision that wins records its status, who decided, when and why; everything else about the row, and every other row, is as it was; and the row was pending and in time |
| Movements.ApprovalsMove | backend/app/repositories/approval.py:131-256 | An approval's row is written once, by the request that drives the run it is about, and moves once: decided by a person, lapsed past its deadline, or withdrawn with its run or workflow; field by field |
| Movements.SweepsLeaveNothing | backend/app/repositories/approval.py:193-256 | No approval that a sweep, a refusal or a cancellation must close is left PENDING behind it |
| Movements.RunsMove | backend/app/repositories/agent_run.py:101-207 | A run's row moves only by the request that drives it, or is ended from outside: cancelled while waiting, failed when its question lapses, failed as abandoned; with which status and which error code |
| Movements.SweepsReachRuns | backend/app/repositories/agent_run.py:133-207 | What is abandoned, called off, or waits behind a lapsed question is ended in that very commit |
| Movements.ExecutionsMove | backend/app/repositories/agent_run.py:260-283 | An execution's flag goes up exactly when a granted claim takes it or an outcome that reached the tool is recorded, and never comes down |
| Movements.RequestsMove | backend/app/services/approvals.py:306-398 | Every request does one thing after another in the order of the code, about one run, and nobody else moves it |
| Movements.TheLogIsWhatHappened | backend/app/agents/runner.py:189-258 | The log gains exactly what a step shows: a model call, a body entered under its grant, a turn, a state, a decision or its refusal |
| AtMostOnce.StepKeepsSafe | backend/app/repositories/agent_run.py:260-283 | Every step keeps the at-most-once invariants, from `claim` alone |
| SingleDriver.StepGrows | backend/app/repositories/approval.py:161-178 | No step removes a row, moves an approval in time, or touches one that has left PENDING |
| SingleDriver.StepKeepsExclusive | backend/app/services/approvals.py:478-500 | Every step keeps one driver, one decider and one open question per run, and hands over only from a request on its way out |
| SingleDriver.StepKeepsParked | backend/app/repositories/agent_run.py:174-207 | Every step keeps: no request drives a run whose row says AWAITING_APPROVAL, but for the one that won its decision |
| Decisions.StepKeepsInv | backend/app/services/approvals.py:306-398 | Every step keeps all invariants together, including what the log vouches for |
| Witnesses.GatedToolIsReached | backend/app/services/approvals.py:500-515 | There is a history in which an approved gated tool is entered, exactly once |
| Witnesses.OpenBeforeThePause | backend/app/agents/runner.py:241-243 | A PENDING approval whose run is still RUNNING is reachable |
| Witnesses.WaitingOnNothing | backend/app/services/approvals.py:478-480 | A run durably waiting, unattended, with no open question is reachable |
| Witnesses.TerminalRowsCanMove | backend/app/repositories/agent_run.py:133-172 | A run the abandonment sweep failed can still be completed by its slow driver, beside the abandoned code |
| Witnesses.RefusalCanMislead | backend/app/services/approvals.py:439-447 | A reachable refusal answers "expired" about an approval that is APPROVED |
| Sessions.Session.Decide | backend/app/repositories/approval.py:131-178 | The conditional update: refused for a status no person can record; won exactly by a pending approval of this organization whose deadline has not come; it then holds the decision, the decider, the instant and the reason, and nothing else changes |
| Sessions.Session.LapseDue | backend/app/repositories/approval.py:193-226 | Afterwards nothing of the organization is pending and overdue; exactly the returned rows moved, from PENDING to EXPIRED and in nothing else; every other row is as it was |
| Sessions.Session.Withdraw | backend/app/repositories/approval.py:244-256 | Afterwards nobody of the organization is asked for that process; the count is of the rows that moved, from PENDING to CANCELLED and in nothing else; every other row is as it was |
| Sessions.Session.CancelPaused | backend/app/repositories/agent_run.py:174-207 | Cancels exactly a run of the organization that is waiting, with its error code and nothing else, and says whether it did |
| Sessions.Session.SweepAbandoned | backend/app/repositories/agent_run.py:133-172 | Fails exactly the stale pending or running runs of the organization, as abandoned; every other row, a paused run above all, is as it was |
| Sessions.Session.Claim | backend/app/repositories/agent_run.py:260-283 | True to exactly the caller that found the flag down; the flag is up afterwards either way |
| Sessions.Session.ExpireDue | backend/app/services/approval_expiry.py:64-120 | Approvals and every process behind them in one commit, and the number lapsed |
| Sessions.Session.ExpireEveryOrganization | backend/app/services/approval_expiry.py:123-150 | The loop comes to one global filter, each organization judged at its own instant, and totals what it lapsed |
| Sessions.Session.ExplainRefusal | backend/app/services/approvals.py:400-447 | With nobody in between: "expired" exactly when the row says so; a pending row lapses with what it held up |
| Sessions.Session.DecideApproval | backend/app/services/approvals.py:330-352 | Won exactly by a pending approval in time, and then recorded field by field; otherwise not found, or refused with the approval out of PENDING and the true reason |
| Rows.DeadlinesAreSharp | backend/app/repositories/approval.py:182-226 | Decidable in time and due for expiry are exact complements: at the deadline itself an approval is overdue, an instant before it is open, and without one it never lapses |
| Sessions.Session.Cancel | backend/app/services/agent_execution.py:303-386 | Both updates or a rollback of both; cancelled exactly when a question was withdrawn and the run was waiting |
| Expiry.SweepIsOneFilter | backend/app/services/approval_expiry.py:123-150 | Organization by organization is one filter over the deployment: exactly the overdue lapse, exactly what waited behind them fails, nothing else changes, and the count is theirs |
| Expiry.OtherOrganizationsAreUntouched | backend/app/services/approval_expiry.py:64-120 | One organization's expiry leaves every approval, run, workflow run and step of every other as it was |
| Expiry.OneMoreOfRuns | backend/app/services/approval_expiry.py:158-185 | Sweeping one more organization fails exactly the waiting runs behind its lapsed approvals |
| Expiry.OneMoreOfWorks | backend/app/services/approval_expiry.py:188-233 | The same for workflow runs and for workflow steps |
| Creation.InvAlways | backend/app/repositories/agent_run.py:54-99 | One row per key, one uncommitted holder, true answers, one creator per row, in every history of inserts, waits, rollbacks and read-backs |
| Creation.AtMostOneRun | backend/app/repositories/agent_run.py:66-74 | At most one run ever exists under one organization's key |
| Creation.AnswersAgree | backend/app/repositories/agent_run.py:84-99 | Every answer about a key names the same run, and exactly one of them reports that it created it |
| Creation.LosersAreAnswered | backend/app/repositories/agent_run.py:89-95 | A request refused by the idempotency constraint reads back the run it lost to |
| Creation.RaisesExactlyWithoutARow | backend/app/repositories/agent_run.py:89-95 | In every history the integrity error reaches the caller exactly when no run of its key exists, and then it lost over its run id to a run made under another claim, never over its key |
| AgentModels.CallsKeepCoherent | backend/app/agents/models.py:355-423 | Over every sequence of calls, accepted or refused: an answer exactly when COMPLETED, an error exactly when FAILED, an end time exactly when terminal, a pending execution whenever waiting |
| AgentModels.FreshRunsStayCoherent | backend/app/agents/models.py:246-308 | So for every run object made fresh, whatever is called on it |
| AgentModels.TerminalAbsorbs | backend/app/agents/models.py:204-225 | A terminal run object ignores every later call |
| AgentModels.CallsOnlyAdd | backend/app/agents/models.py:311-333 | No call takes back a step, a tool or a token |
| AgentModels.StartAndResumeShareATarget | backend/app/agents/models.py:362-411 | `resume` is accepted exactly where `start` is: from PENDING and from AWAITING_APPROVAL |
| AgentModels.AcceptedExactlyWhere | backend/app/agents/models.py:191-225 | Each call is accepted in exactly these states: work while RUNNING, an end from wherever one is still to come; refused, it changes nothing |
| AgentModels.AgentRun.Transition | backend/app/agents/models.py:355-360 | Moves exactly along the table, and otherwise changes nothing |
| AgentModels.AgentRun.RecordStep | backend/app/agents/models.py:366-370 | Accepted exactly while RUNNING; the derived count and tokens grow by this step's |
| AgentModels.AgentRun.RecordToolCall | backend/app/agents/models.py:378-396 | The record carries the number of the step that asked, counting steps of earlier requests |
| AgentModels.AgentRun.CarryOn | backend/app/agents/models.py:408-411 | `resume`: running again, and nothing pending |
| AgentModels.AgentRun.Rebuilt | backend/app/services/approvals.py:546-566 | The working copy of a paused run has spent what its durable record says, and is coherent |
| Conversation.AppendKeepsNumbering | backend/app/repositories/conversation.py:126-168 | Turns are numbered 1, 2, 3, ... with no gap or collision, in however many batches |
| Conversation.NextIsNew | backend/app/repositories/conversation.py:126-168 | The next turn's position is one past the highest stored, so it collides with none, gaps or not |
| Conversation.ConversationStore.AppendAll | backend/app/repositories/conversation.py:140-168 | Stages turns in order from the next free position, and keeps what was stored |
| Conversation.ToLlmMessages | backend/app/repositories/conversation.py:171-203 | The loop rebuilds exactly the messages the rows stand for, or raises where one cannot be rebuilt |
| Conversation.RebuiltIsClean | backend/app/repositories/conversation.py:186-203 | A rebuilt conversation has no system turn, and every tool turn says what its result renders to |
| Conversation.FindPendingToolRequest | backend/app/repositories/conversation.py:206-222 | The backwards scan finds the last request made under the execution id, and none exactly when there is none |
| Messages.SizesAgree | backend/app/ai/models.py:133-163 | The entry check on `content` and the loop check on `transport_content` count the same characters |
| Messages.SizesAdd | backend/app/ai/models.py:133-163 | A conversation counts the characters of its turns, each once |
| Messages.RequestRoundTrip | backend/app/agents/journal.py:152-212 | Storing and reading back a request gives the decision the model made, arguments included |
| Messages.ResultRoundTrip | backend/app/agents/journal.py:170-198 | Storing and reading back a tool result gives the same result |
| Transcripts.ServedIsTold | backend/app/agents/runner.py:123-276 | However many requests serve a run: each model call is sent the agent's instructions and the whole conversation so far; each reply that asks for a tool adds its request turn, spelled out, and its result turn with the name, the id, the data and the error of what the tool or the person returned; each step row carries the reply's usage; and why the run ended follows from the last reply and result |
| Transcripts.DriveIsTold | backend/app/agents/runner.py:178-276 | The same of one request, with nothing assumed of the store: it returns only in the model's answer or in the question of the tool asked for last, is cancelled only by the token, and fails only with the model's error, an error too long to tell, a conversation over its limits, or the budget spent, each with its code |
| Transcripts.DriveSendsTheConversation | backend/app/agents/runner.py:346-359 | The k-th new request of a drive is the instructions followed by the conversation it then held: what the run began with and the 2k turns said since |
| Transcripts.ServedSendsTheConversation | backend/app/agents/runner.py:346-359 | The same across pauses, while they are read back from a store that holds the conversation |
| Transcripts.UnansweredIsDriving | backend/app/agents/runner.py:90-121 | A run nobody answers is one drive of the loop |
| Transcripts.ResultsTell | backend/app/agents/runner.py:374-393 | A tool turn carries the tool, the execution id, whether it succeeded, the outcome's name, the data and the error's message, and reads them out |
| Runner.HandlerLeavesTerminal | backend/app/agents/runner.py:273-276 | Whatever is raised and wherever, a failing journal included, the handler leaves the run terminal: FAILED if it was not over, exactly as it was if it was |
| Runner.AgentRunner.OnePass | backend/app/agents/runner.py:189-258 | One pass of the loop, step by step on the run, the conversation and the journal, computes `Pass`; what it sends, unless stopped before, is the instructions and the conversation it was given |
| Runner.AgentRunner.ActOn | backend/app/agents/runner.py:198-206 | A final decision completes the run with the model's own content and stores it as the last turn; anything else computes the tool branch |
| Runner.AgentRunner.ToolPass | backend/app/agents/runner.py:203-256 | The tool branch: check, execute, record, store the request, then pause, stop, fail or store the result |
| Runner.AgentRunner.Loop | backend/app/agents/runner.py:178-276 | The `while` over the step budget computes `Drive` |
| Runner.AgentRunner.RunAgent | backend/app/agents/runner.py:90-121 | `run`: refused where the run cannot start, and otherwise started, recorded and driven |
| Runner.AgentRunner.ResumeAgent | backend/app/agents/runner.py:123-166 | `resume`: running again, the result stored and measured, then driven; the turn is built outside the handler |
| RunJournal.DatabaseRunJournal.RecordTool | backend/app/services/run_journal.py:148-186 | A second record of one execution updates its row and keeps the step that asked; the `executed` flag is raised when the outcome says the tool was reached, and never lowered |
| RunJournal.RecordingNeverLowers | backend/app/services/run_journal.py:152-178 | Recording an attempt leaves the row with that outcome, under the step and the name it was first filed under; raises the flag exactly for an outcome of the tool's own, lowers none, and touches no other row |
| RunJournal.DatabaseRunJournal.RecordTurns | backend/app/services/run_journal.py:190-200 | Turns reach the store in one commit, and no turns make none |
| Transparency.PassRespects | backend/app/agents/runner.py:178-276 | A pass reads nothing of a run but what a pause preserves |
| Transparency.ReopenFindsThePause | backend/app/services/approvals.py:478-491 | At a pause the durable rows give back exactly the run, the conversation and the decision that were in memory |
| Transparency.AnswerContinues | backend/app/services/approvals.py:517-543 | Recording the answer and resuming with it comes to performing a tool that answered at once |
| Transparency.PauseIsTransparentExactlyWhen | backend/app/services/approvals.py:467-566 | One answered pause comes to what an executor that answered at once comes to exactly when the answer can be told, does not ask again and was not cancelled by the token |
| Transparency.PauseIsAnsweredAtOnce | backend/app/services/approvals.py:467-566 | One pause, answered now or never, equals one pass of an executor that answered at once |
| Transparency.PausesAreTransparent | backend/app/agents/runner.py:123-269 | A run served by any number of requests sends the same model requests, numbers the same steps, stores the same turns and ends the same way as one uninterrupted run |
| Transparency.ResumeSettlesExactlyWhen | backend/app/agents/runner.py:150-166 | A resume leaves the run settled exactly when the tool turn can be built; otherwise it stays RUNNING |
| Transparency.PauseIsFoundExactlyInTheWindow | backend/app/repositories/conversation.py:106-124 | The pending request is found exactly while the conversation fits the replayed rows |
| Storage.PastTheWindowStaysPaused | backend/app/repositories/conversation.py:106-124 | Past the replayed rows, under an id of its own, a pause is not found and the run stays paused, whoever answers |
| Storage.PassLeaves | backend/app/agents/runner.py:203-256 | One pass leaves rows that rebuild to the conversation in memory at each of its commits |
| Storage.ResultCloses | backend/app/agents/runner.py:254-256 | A stored result carries the id and the name of the request before it, and closes it |
| Storage.AnsweredLeaves | backend/app/services/approvals.py:517-566 | Whatever a pause is answered, the rows stay faithful and the answer, if it can be told, is paired with the request that waited |
| Storage.StorageRefinesMemory | backend/app/agents/runner.py:224-256 | Whatever pauses are answered: at every commit of a run's life the rows rebuild to the conversation in memory, plus the answer at the commits that complete it; requests and results alternate, at most the last is open, a completed run ends in its answer and a pause in its request |
| Accounts.PassKeepsOrder | backend/app/agents/runner.py:189-231 | One pass keeps steps numbered 1..n, totals equal to their sums, tools under the step that asked, and requests bounded |
| Accounts.DriveKeepsAccounts | backend/app/agents/runner.py:178-276 | The loop spends at most its budget, however it ends |
| Accounts.LifetimeAccounts | backend/app/services/agent_execution.py:578-591 | Over any number of pauses, whatever they are answered and whatever is read back: at most `max_steps` model calls, none of a conversation over its limits or holding a system turn after the instructions, steps 1..n, each tool under the step that asked, once, and the durable row the sums over all of them |
| Accounts.AnsweredKeepsAccounts | backend/app/services/approvals.py:546-566 | A run rebuilt from any rows and resumed with any answer goes on within the same books |
| Accounts.RunsStartInOrder | backend/app/agents/runtime.py:235-252 | A conversation the entry admits starts a run in order, whatever the store holds |
| Recovery.EveryCommitIsRecoverable | backend/app/services/run_journal.py:92-269 | Whichever commit is the last before a crash: every stored request has its execution on record, every question its stored request, and a run that says it waits ends in the request its last question is about |
| Recovery.AskKeeps | backend/app/agents/runner.py:214-236 | The execution is written down, under its outcome, before the request that names it is stored |
| Recovery.PauseKeeps | backend/app/agents/runner.py:238-245 | The question is asked before the run's row says it waits |
| Recovery.PassKeeps | backend/app/agents/runner.py:189-258 | A pass that goes on ends in a stored result that tells the outcome its execution's row says; any other leaves a recoverable store |
| Recovery.AnsweringKeeps | backend/app/services/approvals.py:517-566 | The same of a pause answered by a later request, whatever the answer |
| Rehearsals.APauseIsAnswered | backend/app/agents/runner.py:123-269 | A run within every hypothesis above pauses on a gated tool, is approved and completes |
| Entry.ValidateConversation | backend/app/agents/runtime.py:235-252 | Empty, too many messages, too many characters, or admitted: exactly as bounded |
| Entry.PrepareConversation | backend/app/services/agent_execution.py:434-487 | A new conversation takes every message, a continued one exactly one user turn; the run is given what the store rebuilds to, without system turns |
| Entry.FromTheDoor | backend/app/services/agent_execution.py:160-248 | From an admitted conversation to wherever the run is left, whatever pauses are answered: accounts and bounds in order; and, if the conversation is what the store holds, every commit too, and every model call sent the admitted messages and all that was said since |
| Entry.FindFinalResponse | backend/app/services/agent_execution.py:415-430 | The scan finds the last plain assistant turn of the rows a replay reads |
| Entry.AnswersAreToldApart | backend/app/services/agent_execution.py:426-430 | A plain assistant turn is an answer; what a run asked for, what it was told and what a client asked are not |
| Entry.ServedEndsInItsAnswer | backend/app/agents/runner.py:198-206 | However many requests served it and whatever they read back: a completed run answers in the words of the model's last reply, given to the instructions and the whole conversation, and its stored conversation ends in them |
| Entry.CompletedRunsReplay | backend/app/services/agent_execution.py:388-430 | What is replayed of a completed run is its own answer exactly when the conversation fits the replayed rows, or what is read of it ends in the same words |
| Entry.ReplayIsTheOriginalExactlyWhen | backend/app/services/agent_execution.py:426-430 | For conversations of any length: a replay is a given answer exactly when, if it is read, nothing read after it differs, and if it is not, what comes before happens to say the same |
| Entry.ReplayMissesPastTheWindow | backend/app/repositories/conversation.py:106-124 | An answer past the replayed rows is not read, nor is anything after it |
| Resumption.ResumePaused | backend/app/services/approvals.py:478-543 | Read the rows, rebuild the run, record the outcome, resume: exactly what answering the pause of a served run comes to, for every pause, and nothing is written where it cannot resume |
| Executor.EnteredExactlyWhen | backend/app/tools/executor.py:174-187 | A body is entered exactly when the tool is registered, enabled and permitted, no argument has one of the sixteen reserved names, its schema accepts them, a person agreed if one must, and nobody stopped the run; the result reuses the granted id |
| Executor.RefusalsSayWhy | backend/app/tools/executor.py:174-295 | The first check that refuses is the one reported, each with its outcome and code |
| Executor.BodiesSayWhat | backend/app/tools/executor.py:188-361 | What a body did is what is reported: its validated data, its own error, the deadline, a crash, or a result or a run that came too late to use |
| Executor.AsksExactlyWhen | backend/app/tools/executor.py:267-291 | A person is asked exactly when a well-formed call to a gated tool comes with no decision, or a body says so itself |
| Executor.ResultsAreConsistent | backend/app/tools/models.py:277-287 | Success carries data within the size limit and no failure, anything else a failure and no data |
| Executor.ReachedIsTrueExactlyWhen | backend/app/agents/runner.py:517-527 | The outcome tells whether the body ran exactly when the call was not refused early and the body is not hidden |
| Executor.ReachedCanMislead | backend/app/agents/runner.py:517-527 | A missing tool counts as reached; a body cancelled afterwards does not |
| Executor.ExecutorIsHonest | backend/app/tools/executor.py:154-157 | Answers executed through the executor meet what a transparent pause asks of them |
| Metrics.AdmittedExactly | backend/app/observability/metrics.py:162-170 | A key has a series of its own exactly when it came while fewer than 255 others were known |
| Metrics.AdmittedHoldTheirOwn | backend/app/observability/metrics.py:162-170 | An admitted series holds its own key's calls and no others |
| Metrics.SeriesConserve | backend/app/observability/metrics.py:162-170 | The sum over all series is the sum of everything put in |
| Metrics.SeriesOneMore | backend/app/observability/metrics.py:167-169 | Where a call lands by the index is where the whole history says it lands |
| Metrics.KeysStayDeclared | backend/app/observability/metrics.py:123-141 | A declared label yields a declared value or `other` |
| Metrics.Counter.Increment | backend/app/observability/metrics.py:162-170 | After every accepted call each series equals its share of the history and there are at most 256; a refused call leaves no trace |
| Metrics.Counter.Value | backend/app/observability/metrics.py:172-175 | Reads what the history says of that key's own series |
| Histograms.BucketsAreCumulative | backend/app/observability/metrics.py:239-255 | A later bucket counts whatever an earlier one does, and none more than the observations |
| Histograms.AtMostCounts | backend/app/observability/metrics.py:251-255 | A bucket's count is the number of observations at or below its bound |
| Histograms.Bucketed.Add | backend/app/observability/metrics.py:251-255 | Bucket i counts exactly the observations at or below bound i, with their sum and number |
| Histograms.Histogram.Observe | backend/app/observability/metrics.py:239-255 | After every accepted observation every series object tells exactly its share of the history, and none is shared |
| Histograms.Histogram.CountAndSum | backend/app/observability/metrics.py:257-266 | Reads the number and the sum of the observations in the series these labels name |
| Exposition.EscapeIsPerCharacter | backend/app/observability/metrics.py:92-94 | Three replacements in a row are one substitution per character |
| Exposition.LabelsReadBack | backend/app/observability/metrics.py:143-150 | A reader of the text format recovers every label value from its block, whatever it contains |
| Exposition.WithReadsBack | backend/app/observability/metrics.py:285-290 | The same for the block with `le` appended |
| Exposition.LabelsAreInjective | backend/app/observability/metrics.py:143-150 | Two series of one metric never print alike |
| Exposition.BlockHasNoNewline | backend/app/observability/metrics.py:143-150 | A block stays on its line |
| Paging.InOrderIsTheFirst | backend/app/repositories/approval.py:85-103 | A page is in (requested_at, id) order and leaves out only what comes after it; a short one leaves out nothing |
| Paging.APageIsWhatWasAskedFor | backend/app/repositories/approval.py:58-103 | Between 1 and 100 rows as asked; of the organization, the states and the tool asked for; all after the cursor; in (requested_at, id) order; what is left out comes later, and nothing is left out of a page that is not full |
| Paging.ScanShowsEachOnce | backend/app/repositories/approval.py:58-103 | Following cursors to a short page shows every approval of the organization, the states and the tool asked for throughout exactly once, in (requested_at, id) order, whatever changes in between |
| Paging.AScanOfTwoPages | backend/app/repositories/approval.py:58-103 | A scan of a full page and then a short one exists |
| Paging.CursorAdvances | backend/app/services/approvals.py:256-270 | Every non-empty page moves the cursor strictly on |
| Gateway.Attempt | backend/app/ai/gateway.py:230-277 | One more call than waits, at most `max_retries + 1`; the first success or the error not retried; the assertion reached exactly for a negative `max_retries` |
| Gateway.GivesUpExactlyWhen | backend/app/ai/gateway.py:279-301 | No retry exactly when the retries are used up, the error is permanent or a 4xx other than 408 and 429, or the hint exceeds the cap |
| Gateway.WaitsAsAsked | backend/app/ai/gateway.py:279-301 | A rate limit's own hint is what is waited, floored at zero; otherwise the draw below the ceiling |
| Gateway.CeilingsDouble | backend/app/ai/gateway.py:114-120 | The ceiling starts at the base and doubles with each attempt, up to the cap |
| Gateway.WaitIsBounded | backend/app/ai/gateway.py:279-301 | Every wait lies between zero and the cap, follows an error that is not permanent, and without a hint is below its doubled base |
| Gateway.CallersAreHeldBriefly | backend/app/ai/gateway.py:114-120 | All waits total at most r caps, and without hints at most base times 2^r - 1 |
| Pricing.RoundingIsTheNearest | backend/app/observability/pricing.py:44-46 | Half-even rounding is the one nearest integer of micro-units, even on a tie |
| Pricing.PriceFor | backend/app/observability/pricing.py:102-117 | The latest price of the model in force at the moment, and none exactly when none applies |
| Pricing.PriceIsOrderIndependent | backend/app/observability/pricing.py:102-117 | Without duplicates the order of the book decides nothing |
| Pricing.DuplicatesDependOnOrder | backend/app/observability/pricing.py:281-296 | With a duplicate it would |
| Pricing.RejectDuplicates | backend/app/observability/pricing.py:281-296 | The loop accepts exactly the books with one price per model and date |
| Pricing.EstimateIsTheNearest | backend/app/observability/pricing.py:119-145 | Priced exactly when a price applies: in its currency, at the whole number of micro-units nearest to input tokens times the input price plus output tokens times the output price, negative counts as none, ties to even |
| Pricing.EstimateIsMonotone | backend/app/observability/pricing.py:119-145 | More tokens never cost less, and none cost less than nothing |
| Pricing.SummingIsNearPricingTheSum | backend/app/observability/pricing.py:119-178 | The figures of n calls added up are within n / 2 micro-units of all their tokens at the price, and within (n + 1) / 2 of the figure of the tokens added up |
| Pricing.Total | backend/app/observability/pricing.py:147-178 | Nothing when nothing is priced, refused exactly across currencies, one rounded sum otherwise |
| Pricing.TotalIsOrderIndependent | backend/app/observability/pricing.py:147-178 | The order of the figures decides nothing, not even the refusal |
| Pricing.TotalDistributes | backend/app/observability/pricing.py:147-178 | In one currency the total of two lists is the total of their totals |
| Tracing.ParseInvertsPrinting | backend/app/observability/tracing.py:102-105 | Reading inverts writing on every valid context, blanks around it or not |
| Tracing.ParseAcceptsExactly | backend/app/observability/tracing.py:120-154 | Accepted exactly: version 00, two lower-case hexadecimal ids of 32 and 16 digits that are not all zeros, two of flags whose low bit says sampled, between blanks |
| Tracing.AcceptedReprints | backend/app/observability/tracing.py:120-154 | What is accepted prints back the same up to the flags |
| Tracing.SamplingIsMonotone | backend/app/observability/tracing.py:157-171 | A higher ratio records whatever a lower one does, and one rule covers both ends |
| Tracing.HexIsPositional | backend/app/observability/tracing.py:157-171 | The fraction sampled by reads the digits as one number: a digit more is sixteen times as much, and the digit |
| Tracing.Tracer.Span | backend/app/observability/tracing.py:479-506 | The ambient context is restored however the work ends; everything inside keeps the trace id and the sampling decision, hangs under the span, and the span is emitted last with how it ended |

## Left out

- The workflow engine and `_resume_workflow`: the same compare-and-set shape over rows of its own. Workflow runs and steps appear as rows the expiry fails. A workflow's cancellation is a step, as the withdrawal of the agent approvals stamped with its run; the stamp is given with the row, since nothing but that withdrawal reads it.
- HTTP endpoints, dependencies, authentication, schemas, settings validation, migrations and the frontend.
- Provider SDKs, logging, audit rows, wall-clock timings, latency, spans and metrics written beside a step: nothing reads them back.
- Agent resolution, visibility and the check that a model is configured: single branches before a run starts or resumes.
- Transcripts.DriveIsTold: a journal or a database that fails inside the loop. What the handler then makes of the run is `Runner.HandlerLeavesTerminal`; a request that dies is a request vanishing between two commits.
- RunJournal.DatabaseRunJournal.RecordTool: the claim that raises `executed` before a granted tool runs is a step of `Protocol`, not of this journal.
- `json.dumps`, `uuid4`, `secrets` and `random.uniform` are parameters; `str()` of a payload field that is not a string is not modelled, the original's own payloads hold strings there.
- Other requests writing to a conversation while one of its runs is paused.
- A registry whose approval flag for a tool changes between the ask and the decision.
- Gauges and `_format`: a last write and a number's text. `clean_attributes` and the span setters: regular expressions over allow-lists.
- Reading a price book from JSON and ISO 8601; the 28-digit context of Decimal.
- NaN and infinities in amounts, observations and delays.
- Creation.AnswersAgree: rows are never deleted in this model, as nothing in the modelled code deletes a run.
- Sessions.Session.ExplainRefusal: stated for a session nothing interleaves with; `Guarantees.RefusalIsTrueExactlyWhen` has the interleavings.
- Resumption.ResumePaused: begins after the claim; the claim and the commit before the tool runs are steps of `Protocol`.
- Exposition.LabelsReadBack: label names without an equals sign, as the format requires of them.
