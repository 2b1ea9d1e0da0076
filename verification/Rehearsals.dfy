/** Runs that do happen: a pause that is answered, and a scan that pages. What is proved of them is about something. */
module Rehearsals {
  import opened Lifecycle
  import opened Rows
  import opened Messages
  import opened Conversation
  import opened AgentModels
  import opened RunJournal
  import opened Runner
  import opened Transparency
  import opened Accounts
  import opened Entry

  const ASK := ToolRequest("send", map[])
  const QUESTION := ToolResult("x", "send", ToolOutcome.ApprovalRequired, None, None)
  const DONE := ToolResult("x", "send", Succeeded, Some(map[]), None)

  function Reply1(n: nat): Reply {
    if n == 1 then Decided(AskTool(ASK), Usage(1, 1)) else Decided(Final("sent"), Usage(1, 1))
  }

  /** The model asks for a gated tool, then answers. */
  function Rehearsed(): Oracle {
    Oracle((n: nat, _) => Reply1(n), (_, _) => QUESTION, (_, _) => false)
  }

  function Approving(): Answers {
    (_, _) => Some(DONE)
  }

  function Hello(): LLMMessage { LLMMessage(User, "hello", None) }

  function HelloRow(): MessageRow { MessageRow(1, User, "hello", None) }

  function Bounds(size: nat): Config {
    Config("be brief", 2, 10, size, _ => "")
  }

  /** What the conversation has grown to once the tool has answered. */
  function Grown(size: nat): seq<LLMMessage> {
    [Hello(), Requested(Bounds(size), ASK), Performed(Bounds(size), ASK, DONE)]
  }

  lemma SizesDoNotDepend(size: nat)
    ensures TransportSize(Bounds(size).dumps, Grown(size)) == TransportSize(Bounds(0).dumps, Grown(0))
  {
  }

  lemma HelloIsStored(size: nat)
    requires size >= 5
    ensures var m := Started([Hello()], [HelloRow()]);
            InOrder(Bounds(size), m) && Live(m.run) && Stored(Bounds(size), m) && Roomy(Bounds(size), m)
            && m.run.stepCount == 0 && m.conversation == [Hello()]
  {
    var rows, messages := [HelloRow()], [Hello()];
    assert rows == [] + rows && messages == [] + messages && messages[..0] == [];
    assert RebuildRow(Bounds(size).dumps, HelloRow()) == Kept(Hello());
    RebuildOneMore(Bounds(size).dumps, [], HelloRow());
    assert ContentSize(messages) == 5;
    RunsStartInOrder(Bounds(size), messages, rows);
  }

  lemma FirstPassPauses(cfg: Config, m: Machine)
    requires m.run.status == Running && m.run.stepCount == 0
    ensures Paused(Pass(cfg, Rehearsed(), m))
  {
    hide Ask;
    PassThatConsults(cfg, Rehearsed(), m);
    PauseIsWaiting(Ask(cfg, Deciding(cfg, Rehearsed(), m), ASK, QUESTION));
  }

  lemma PauseIsWaiting(a: Machine)
    requires a.run.status == Running
    ensures Pause(a, "x").run.status == AgentRunStatus.AwaitingApproval && Pause(a, "x").run.pending == Some("x")
  {
  }

  lemma AnsweredAtOnce()
    ensures AtOnce(Rehearsed(), Approving()).execute(1, ASK) == DONE
  {
    assert DONE.executionId == QUESTION.executionId;
    assert Named(DONE, QUESTION.executionId) == DONE;
  }

  lemma AnsweredPassGoesOn(cfg: Config, m: Machine)
    requires m.run.status == Running && m.run.stepCount == 0
    requires !TooLarge(cfg, m.conversation + [Requested(cfg, ASK)] + [Performed(cfg, ASK, DONE)])
    ensures var p := Pass(cfg, AtOnce(Rehearsed(), Approving()), m);
            p.Going? && p.m.run.stepCount == 1
  {
    var o := AtOnce(Rehearsed(), Approving());
    PassThatConsults(cfg, o, m);
    AnsweredAtOnce();
    var d := Deciding(cfg, o, m);
    AskKeepsSent(cfg, d, ASK, DONE);
    assert d.conversation == m.conversation;
    PerformKeepsBooks(cfg, Ask(cfg, d, ASK, DONE), ASK, DONE);
    assert Pass(cfg, o, m) == Perform(cfg, Ask(cfg, d, ASK, DONE), ASK, DONE);
  }

  lemma SecondPassAnswers(cfg: Config, o: Oracle, m: Machine)
    requires m.run.status == Running && m.run.stepCount == 1 && !o.tripped(2, BeforeStep)
    requires o.reply(2, BuildMessages(cfg, m.conversation)) == Decided(Final("sent"), Usage(1, 1))
    ensures Pass(cfg, o, m).Ended? && Pass(cfg, o, m).end.run.status == Completed
  {
    PassIs(cfg, o, m);
  }

  /** A run in order pauses on a gated tool, is approved, and completes: all that is assumed of one can hold. */
  lemma APauseIsAnswered()
    ensures exists cfg, o, answers, m ::
              && InOrder(cfg, m) && Live(m.run) && Stored(cfg, m) && Roomy(cfg, m) && Honest(o, answers)
              && Paused(Pass(cfg, o, m))
              && Served(cfg, o, answers, m).end.run.status == Completed
  {
    var size := TransportSize(Bounds(0).dumps, Grown(0)) + 5;
    var cfg, o, answers, m := Bounds(size), Rehearsed(), Approving(), Started([Hello()], [HelloRow()]);
    SizesDoNotDepend(size);
    HelloIsStored(size);
    FirstPassPauses(cfg, m);
    assert Honest(o, answers);
    RehearsalEnds(cfg, m, size);
    PausesAreTransparent(cfg, o, answers, m, m);
  }

  lemma RehearsalEnds(cfg: Config, m: Machine, size: nat)
    requires cfg == Bounds(size) && size >= TransportSize(cfg.dumps, Grown(size))
    requires m.run.status == Running && m.run.stepCount == 0 && m.conversation == [Hello()]
    ensures Drive(cfg, AtOnce(Rehearsed(), Approving()), m).end.run.status == Completed
  {
    hide TransportSize, Requested, Performed, BuildMessages, Pass;
    var o := AtOnce(Rehearsed(), Approving());
    assert m.conversation + [Requested(cfg, ASK)] + [Performed(cfg, ASK, DONE)] == Grown(size);
    AnsweredPassGoesOn(cfg, m);
    var next := Pass(cfg, o, m).m;
    SecondPassAnswers(cfg, o, next);
    assert Drive(cfg, o, next) == Pass(cfg, o, next);
  }
}
