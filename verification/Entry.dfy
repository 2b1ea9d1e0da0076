/** How a run gets in, and what a client is told of it afterwards: the conversation at both ends. */
module Entry {
  import opened Lifecycle
  import opened Rows
  import opened Messages
  import opened Conversation
  import opened AgentModels
  import opened RunJournal
  import opened Runner
  import opened Transparency
  import opened Accounts
  import opened Storage
  import opened Transcripts

  // -- At the door ---------------------------------------------------------------------------------

  /** What a client may send: user and assistant turns. */
  predicate Plain(m: LLMMessage) {
    (m.role == User || m.role == Assistant) && m.tool.None?
  }

  /** No system turn, and no tool turn that says other than its result. */
  predicate Clean(dumps: Dumps, messages: seq<LLMMessage>) {
    forall i | 0 <= i < |messages| :: messages[i].role != System && WellFormed(dumps, messages[i])
  }

  datatype Verdict = Accepted | NoMessages | TooManyMessages | TooManyCharacters

  method ValidateConversation(cfg: Config, messages: seq<LLMMessage>) returns (verdict: Verdict)
    ensures verdict == if messages == [] then NoMessages
                       else if |messages| > cfg.maxMessages then TooManyMessages
                       else if ContentSize(messages) > cfg.maxCharacters then TooManyCharacters
                       else Accepted
  {
    if messages == [] { return NoMessages; }
    if |messages| > cfg.maxMessages { return TooManyMessages; }
    var total := 0;
    for k := 0 to |messages|
      invariant total == ContentSize(messages[..k])
    {
      assert messages[..k + 1][..k] == messages[..k];
      total := total + |messages[k].content|;
    }
    assert messages[..|messages|] == messages;
    if total > cfg.maxCharacters { return TooManyCharacters; }
    return Accepted;
  }

  function Turns(messages: seq<LLMMessage>): seq<RecordedTurn> {
    seq(|messages|, i requires 0 <= i < |messages| => RecordedTurn(messages[i], None))
  }

  lemma StagedOneMore(rows: seq<MessageRow>, at: nat, messages: seq<LLMMessage>)
    requires messages != []
    ensures var n := |messages| - 1;
            rows + Staged(at, Turns(messages))
            == rows + Staged(at, Turns(messages[..n])) + [RowOf(RecordedTurn(messages[n], None), at + n)]
  {
  }

  lemma {:induction false} PlainTurnsRebuild(dumps: Dumps, rows: seq<MessageRow>, at: nat, messages: seq<LLMMessage>)
    requires Rebuild(dumps, rows).Some? && forall i | 0 <= i < |messages| :: Plain(messages[i])
    ensures Rebuild(dumps, rows + Staged(at, Turns(messages))) == Some(Rebuild(dumps, rows).value + messages)
  {
    if messages == [] {
      assert rows + Staged(at, Turns(messages)) == rows;
      assert Rebuild(dumps, rows).value + messages == Rebuild(dumps, rows).value;
    } else {
      hide Rebuild, Staged, Turns;
      var n := |messages| - 1;
      var front, last := messages[..n], messages[n];
      PlainTurnsRebuild(dumps, rows, at, front);
      StagedOneMore(rows, at, messages);
      RebuildOneMore(dumps, rows + Staged(at, Turns(front)), RowOf(RecordedTurn(last, None), at + n));
      assert messages == front + [last];
      assert Rebuild(dumps, rows).value + messages == Rebuild(dumps, rows).value + front + [last];
    }
  }

  /**
   `_prepare_conversation`: a new conversation takes every message, a continued one exactly one user
   turn. What the run is given is what the store now rebuilds to, while the history fits a replay.
   */
  method PrepareConversation(dumps: Dumps, store: ConversationStore, continuing: bool, messages: seq<LLMMessage>)
    returns (prepared: Option<seq<LLMMessage>>)
    requires !continuing ==> store.rows == []
    modifies store
    ensures prepared.None? <==>
              continuing && (|messages| != 1 || messages[0].role != User || Rebuild(dumps, Window(old(store.rows))).None?)
    ensures store.rows == if prepared.Some? then Appended(old(store.rows), Turns(messages)) else old(store.rows)
    ensures prepared.Some? ==> prepared.value == Rebuild(dumps, Window(old(store.rows))).value + messages
    ensures prepared.Some? && |old(store.rows)| <= MAX_REPLAYED_MESSAGES && (forall i | 0 <= i < |messages| :: Plain(messages[i])) ==>
              Rebuild(dumps, store.rows) == prepared
    ensures prepared.Some? && (forall i | 0 <= i < |messages| :: Plain(messages[i])) ==> Clean(dumps, prepared.value)
    ensures Numbered(old(store.rows)) ==> Numbered(store.rows)
  {
    var history: seq<LLMMessage> := [];
    if continuing {
      if |messages| != 1 || messages[0].role != User { return None; }
      var rows := store.Messages();
      var rebuilt := ToLlmMessages(dumps, rows);
      if rebuilt.None? { return None; }
      history := rebuilt.value;
      RebuiltIsClean(dumps, rows);
    }
    if |store.rows| <= MAX_REPLAYED_MESSAGES && forall i | 0 <= i < |messages| :: Plain(messages[i]) {
      PlainTurnsRebuild(dumps, store.rows, NextSequence(store.rows), messages);
    }
    store.AppendAll(Turns(messages));
    return Some(history + messages);
  }

  /** A run as it is when the loop takes it over. */
  function Started(messages: seq<LLMMessage>, rows: seq<MessageRow>): Machine {
    SaveState(Called(Machine(FRESH, messages, [], Ledger(RecordOf(FRESH), [], map[], rows, [], [])), Start))
  }

  /** A replay reaches as far as the conversation may grow, or ids are drawn once. */
  ghost predicate FindableLater(cfg: Config, o: Oracle, messages: seq<LLMMessage>, rows: seq<MessageRow>) {
    || |rows| - |messages| + cfg.maxMessages < MAX_REPLAYED_MESSAGES
    || (DistinctIds(o) && NoneAhead(o, rows, 0))
  }

  /**
   From the door to wherever the run is left, over any number of pauses and whatever they are
   answered: nothing is asked of the client but what the entry checks, and every account is in order;
   and if the conversation is what the store holds, so is every commit, and every call was sent the
   admitted messages and whatever was said since.
   */
  lemma FromTheDoor(cfg: Config, o: Oracle, answers: Answers, messages: seq<LLMMessage>, rows: seq<MessageRow>)
    requires Clean(cfg.dumps, messages)
    requires |messages| <= cfg.maxMessages && ContentSize(messages) <= cfg.maxCharacters
    ensures var end := Served(cfg, o, answers, Started(messages, rows)).end;
            && |end.sent| <= cfg.maxSteps && AllShaped(cfg, end) && Balanced(end)
            && end.journal.record == RecordOf(end.run)
            && (Rebuild(cfg.dumps, rows) == Some(messages) && FindableLater(cfg, o, messages, rows) ==>
                  && Closed(cfg, rows, 1, end)
                  && messages <= end.conversation
                  && (forall k: nat | k < |end.sent| ::
                        && |messages| + 2 * k <= |end.conversation|
                        && end.sent[k] == [LLMMessage(System, cfg.instructions, None)] + end.conversation[..|messages| + 2 * k]))
  {
    hide InOrder, Live, Stored, Roomy, Closed, Served, AllShaped, Balanced, DistinctIds, NoneAhead, SentTheConversation;
    RunsStartInOrder(cfg, messages, rows);
    LifetimeAccounts(cfg, o, answers, Started(messages, rows));
    if Rebuild(cfg.dumps, rows) == Some(messages) && FindableLater(cfg, o, messages, rows) {
      UnreusedRows(o, Started(messages, rows));
      StorageRefinesMemory(cfg, o, answers, Started(messages, rows));
      ServedSendsTheConversation(cfg, o, answers, Started(messages, rows));
      SentFromTheStart(cfg, Started(messages, rows), Served(cfg, o, answers, Started(messages, rows)).end);
    }
  }

  lemma SentFromTheStart(cfg: Config, m: Machine, end: Machine)
    requires m.sent == [] && SentTheConversation(cfg, m, end)
    ensures m.conversation <= end.conversation
    ensures forall k: nat | k < |end.sent| ::
              && |m.conversation| + 2 * k <= |end.conversation|
              && end.sent[k] == [LLMMessage(System, cfg.instructions, None)] + end.conversation[..|m.conversation| + 2 * k]
  {
    assert forall k: nat | k < |end.sent| :: end.sent[k] == end.sent[|m.sent| + k];
  }

  // -- What is answered later -------------------------------------------------------------------------

  /** An assistant turn that is an answer: a request carries a structured payload. */
  predicate IsAnswer(row: MessageRow) {
    row.role == Assistant && row.metadata.None?
  }

  /** A client's assistant turn and a run's answer are answers; what a run asked or was told is not, nor is a question. */
  lemma AnswersAreToldApart(cfg: Config, at: nat, content: string, tool: ToolRequest, result: ToolResult, message: LLMMessage)
    ensures IsAnswer(MessageRow(at, Assistant, content, None))
    ensures !IsAnswer(RowOf(RequestedTurn(cfg, tool, result.executionId), at))
    ensures !IsAnswer(RowOf(PerformedTurn(cfg, tool, result), at))
    ensures message.role != Assistant ==> !IsAnswer(RowOf(RecordedTurn(message, None), at))
  {
  }

  /** `_final_response`: the last answer of the whole conversation, whichever run gave it. */
  function FinalResponse(rows: seq<MessageRow>): (found: Option<string>)
    ensures found.None? <==> forall i | 0 <= i < |rows| :: !IsAnswer(rows[i])
  {
    if rows == [] then None
    else if IsAnswer(rows[|rows| - 1]) then Some(rows[|rows| - 1].content)
    else
      var found := FinalResponse(rows[..|rows| - 1]);
      assert forall i | 0 <= i < |rows| - 1 :: rows[..|rows| - 1][i] == rows[i];
      found
  }

  method FindFinalResponse(store: ConversationStore) returns (found: Option<string>)
    ensures found == FinalResponse(Window(store.rows))
  {
    var rows := store.Messages();
    var k := |rows|;
    assert rows[..k] == rows;
    while k > 0
      invariant 0 <= k <= |rows|
      invariant FinalResponse(rows) == FinalResponse(rows[..k])
    {
      assert rows[..k][..k - 1] == rows[..k - 1];
      if IsAnswer(rows[k - 1]) { return Some(rows[k - 1].content); }
      k := k - 1;
    }
    return None;
  }

  lemma {:induction false} LaterAnswersWin(rows: seq<MessageRow>, more: seq<MessageRow>)
    ensures FinalResponse(rows + more) == if FinalResponse(more).Some? then FinalResponse(more) else FinalResponse(rows)
  {
    if more == [] {
      assert rows + more == rows;
    } else {
      assert (rows + more)[..|rows + more| - 1] == rows + more[..|more| - 1];
      LaterAnswersWin(rows, more[..|more| - 1]);
    }
  }

  // A completed run ends its conversation in its answer, whatever came before, and the answer is the model's.

  predicate EndsInItsAnswer(m: Machine) {
    m.run.status == Completed ==>
      && m.run.finalResponse.Some? && m.journal.rows != []
      && IsAnswer(m.journal.rows[|m.journal.rows| - 1])
      && m.journal.rows[|m.journal.rows| - 1].content == m.run.finalResponse.value
  }

  /** The last call was sent the instructions and the whole conversation, and was answered in these words. */
  predicate InTheModelsWords(cfg: Config, o: Oracle, m: Machine) {
    m.run.status == Completed ==>
      && m.sent != [] && m.sent[|m.sent| - 1] == [LLMMessage(System, cfg.instructions, None)] + m.conversation
      && var reply := o.reply(m.run.stepCount, m.sent[|m.sent| - 1]);
         reply.Decided? && reply.decision.Final? && m.run.finalResponse == Some(reply.decision.content)
  }

  lemma PassAnswersInTheModelsWords(cfg: Config, o: Oracle, m: Machine)
    requires m.run.status == Running && m.run.stepCount < cfg.maxSteps && Pass(cfg, o, m).Ended?
    ensures InTheModelsWords(cfg, o, Pass(cfg, o, m).end)
  {
    var nobody: Answers := (_, _) => None;
    var end := Pass(cfg, o, m).end;
    PassIsTold(cfg, o, nobody, m);
    hide Pass, AsksFor, TellsOf, MayBeTold, CameTo, Fits;
    if end.run.status == Completed {
      assert CallTold(cfg, o, nobody, m, end, 0);
      assert end.conversation[..|m.conversation|] == end.conversation;
    }
  }

  lemma AnsweringEnds(m: Machine, content: string)
    requires m.run.status == Running
    ensures EndsInItsAnswer(Answer(m, content).end)
  {
    AppendOne(m.journal.rows, AnswerTurn(content));
  }

  lemma UsingAToolDoesNotComplete(cfg: Config, o: Oracle, n: nat, m: Machine, request: ToolRequest)
    requires m.run.status == Running
    ensures var p := UseTool(cfg, o, n, m, request); p.Ended? ==> p.end.run.status != Completed
  {
    hide Ask, ResultStored, TooLarge;
  }

  lemma PassEnds(cfg: Config, o: Oracle, m: Machine)
    requires m.run.status == Running && Pass(cfg, o, m).Ended?
    ensures EndsInItsAnswer(Pass(cfg, o, m).end)
  {
    PassIs(cfg, o, m);
    var n := m.run.stepCount + 1;
    if !o.tripped(n, BeforeStep) {
      match o.reply(n, BuildMessages(cfg, m.conversation))
      case Raised(_) =>
      case Decided(decision, usage) =>
        StepTakenKeeps(Sent(cfg, m), decision, usage);
        var m2 := StepTaken(Sent(cfg, m), decision, usage);
        hide Pass, UseTool, Answer, StepTaken, Sent;
        match decision
        case Final(content) => AnsweringEnds(m2, content);
        case AskTool(tool) => UsingAToolDoesNotComplete(cfg, o, n, m2, tool);
    }
  }

  lemma ResumingDoesNotComplete(cfg: Config, m: Machine, again: Reopened, result: ToolResult)
    requires again.Reopened? && again.run.status == AgentRunStatus.AwaitingApproval
    ensures var p := ResumeWith(cfg, m, again, result); p.Ended? ==> p.end.run.status != Completed
  {
    hide ResultStored, TooLarge, ToolRecorded;
  }

  lemma {:induction false} ServedEndsInItsAnswer(cfg: Config, o: Oracle, answers: Answers, m: Machine)
    requires m.run.status == Running
    ensures EndsInItsAnswer(Served(cfg, o, answers, m).end) && InTheModelsWords(cfg, o, Served(cfg, o, answers, m).end)
    decreases cfg.maxSteps - m.run.stepCount
  {
    hide Pass, Reopen, ResumeWith;
    if m.run.stepCount < cfg.maxSteps {
      var pass := Pass(cfg, o, m);
      if pass.Going? {
        ServedEndsInItsAnswer(cfg, o, answers, pass.m);
      } else {
        PassEnds(cfg, o, m);
        PassAnswersInTheModelsWords(cfg, o, m);
        if Paused(pass) {
          var id := pass.end.run.pending.value;
          var again := Reopen(cfg, pass.end.journal, id);
          if again.Reopened? && answers(again.run.stepCount, again.request).Some? {
            ResumingDoesNotComplete(cfg, pass.end, again, Named(answers(again.run.stepCount, again.request).value, id));
          }
          PausesCount(cfg, o, m);
          var resumed := Answered(cfg, answers, pass.end);
          if resumed.Going? { ServedEndsInItsAnswer(cfg, o, answers, resumed.m); }
        }
      }
    }
  }

  // -- The scan and the window -------------------------------------------------------------------------

  /** The part of what came after that a replay still reads. */
  function ReadAfter(before: seq<MessageRow>, later: seq<MessageRow>): seq<MessageRow>
    requires |before| < MAX_REPLAYED_MESSAGES
  {
    if |before| + 1 + |later| <= MAX_REPLAYED_MESSAGES then later else later[..MAX_REPLAYED_MESSAGES - |before| - 1]
  }

  /** What stands past the rows a replay reads is not read, nor is anything after it. */
  lemma ReplayMissesPastTheWindow(before: seq<MessageRow>, answer: MessageRow, later: seq<MessageRow>)
    requires |before| >= MAX_REPLAYED_MESSAGES
    ensures FinalResponse(Window(before + [answer] + later)) == FinalResponse(Window(before))
  {
    hide FinalResponse;
    assert Window(before + [answer] + later) == Window(before);
  }

  /**
   A replay returns a given answer exactly when, if it is read at all, nothing read after it answers
   differently, and if it is past the rows a replay reads, what comes before them happens to say the same.
   */
  lemma ReplayIsTheOriginalExactlyWhen(before: seq<MessageRow>, answer: MessageRow, later: seq<MessageRow>)
    requires IsAnswer(answer)
    ensures FinalResponse(Window(before + [answer] + later)) == Some(answer.content) <==>
              if |before| >= MAX_REPLAYED_MESSAGES then FinalResponse(Window(before)) == Some(answer.content)
              else FinalResponse(ReadAfter(before, later)).None? || FinalResponse(ReadAfter(before, later)) == Some(answer.content)
  {
    hide FinalResponse;
    if |before| >= MAX_REPLAYED_MESSAGES {
      ReplayMissesPastTheWindow(before, answer, later);
    } else {
      assert Window(before + [answer] + later) == (before + [answer]) + ReadAfter(before, later);
      LaterAnswersWin(before + [answer], ReadAfter(before, later));
      AnAnswerIsFound(before, answer);
    }
  }

  lemma AnAnswerIsFound(before: seq<MessageRow>, answer: MessageRow)
    requires IsAnswer(answer)
    ensures FinalResponse(before + [answer]) == Some(answer.content)
  {
    assert (before + [answer])[|before|] == answer;
  }

  /**
   What a client is told of a completed run, once nobody else has written: its own answer, exactly if
   the conversation still fits a replay or what is read of it happens to end in the same words.
   */
  lemma CompletedRunsReplay(cfg: Config, o: Oracle, answers: Answers, m: Machine)
    requires m.run.status == Running && Served(cfg, o, answers, m).end.run.status == Completed
    ensures var end := Served(cfg, o, answers, m).end;
            && end.run.finalResponse.Some? && end.journal.rows != []
            && (FinalResponse(Window(end.journal.rows)) == end.run.finalResponse <==>
                  || |end.journal.rows| <= MAX_REPLAYED_MESSAGES
                  || FinalResponse(Window(end.journal.rows[..|end.journal.rows| - 1])) == end.run.finalResponse)
  {
    hide Served, FinalResponse;
    ServedEndsInItsAnswer(cfg, o, answers, m);
    LastAnswerReplays(Served(cfg, o, answers, m).end.journal.rows);
  }

  lemma LastAnswerReplays(rows: seq<MessageRow>)
    requires rows != [] && IsAnswer(rows[|rows| - 1])
    ensures FinalResponse(Window(rows)) == Some(rows[|rows| - 1].content) <==>
              || |rows| <= MAX_REPLAYED_MESSAGES
              || FinalResponse(Window(rows[..|rows| - 1])) == Some(rows[|rows| - 1].content)
  {
    hide FinalResponse;
    var before, answer := rows[..|rows| - 1], rows[|rows| - 1];
    assert rows == before + [answer] + [];
    ReplayIsTheOriginalExactlyWhen(before, answer, []);
    NothingAfter();
  }

  lemma NothingAfter()
    ensures FinalResponse([]).None?
  {
  }
}
