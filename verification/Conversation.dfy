/** The content store of one conversation: turns go in numbered, and come back as messages. */
module Conversation {
  import opened Rows
  import opened Messages

  datatype MessageRow = MessageRow(sequence: nat, role: Role, content: string, metadata: Option<Object>)

  /** A turn on its way to being stored. */
  datatype RecordedTurn = RecordedTurn(message: LLMMessage, payload: Option<Object>)

  const MAX_REPLAYED_MESSAGES: nat := 500

  // -- What is stored ------------------------------------------------------------------

  function MaxSequence(rows: seq<MessageRow>): nat {
    if rows == [] then 0
    else
      var front := MaxSequence(rows[..|rows| - 1]);
      if rows[|rows| - 1].sequence > front then rows[|rows| - 1].sequence else front
  }

  function NextSequence(rows: seq<MessageRow>): nat {
    MaxSequence(rows) + 1
  }

  /** The next position follows the highest there is, whatever gaps there are below it. */
  lemma {:induction false} NextIsNew(rows: seq<MessageRow>)
    ensures forall i | 0 <= i < |rows| :: rows[i].sequence < NextSequence(rows)
    ensures NextSequence(rows) == 1 || exists i :: 0 <= i < |rows| && NextSequence(rows) == rows[i].sequence + 1
  {
    if rows != [] {
      var front := rows[..|rows| - 1];
      NextIsNew(front);
      assert forall i | 0 <= i < |front| :: front[i] == rows[i];
      if NextSequence(rows) == NextSequence(front) && NextSequence(front) != 1 {
        var i :| 0 <= i < |front| && NextSequence(front) == front[i].sequence + 1;
        assert NextSequence(rows) == rows[i].sequence + 1;
      }
    }
  }

  function RowOf(turn: RecordedTurn, sequence: nat): MessageRow {
    MessageRow(sequence, turn.message.role, turn.message.content, turn.payload)
  }

  function Staged(position: nat, turns: seq<RecordedTurn>): seq<MessageRow> {
    seq(|turns|, i requires 0 <= i < |turns| => RowOf(turns[i], position + i))
  }

  function Appended(rows: seq<MessageRow>, turns: seq<RecordedTurn>): seq<MessageRow> {
    rows + Staged(NextSequence(rows), turns)
  }

  /** Positions run 1, 2, 3, ... with no gap and no collision. */
  predicate Numbered(rows: seq<MessageRow>) {
    forall i | 0 <= i < |rows| :: rows[i].sequence == i + 1
  }

  lemma {:induction false} NumberedMax(rows: seq<MessageRow>)
    requires Numbered(rows)
    ensures MaxSequence(rows) == |rows|
  {
    if rows != [] {
      assert Numbered(rows[..|rows| - 1]);
      NumberedMax(rows[..|rows| - 1]);
    }
  }

  /** Appending keeps the numbering, in however many batches. */
  lemma AppendKeepsNumbering(rows: seq<MessageRow>, turns: seq<RecordedTurn>)
    requires Numbered(rows)
    ensures Numbered(Appended(rows, turns))
  {
    NumberedMax(rows);
  }

  lemma AppendOne(rows: seq<MessageRow>, turn: RecordedTurn)
    ensures Appended(rows, [turn]) == rows + [RowOf(turn, NextSequence(rows))]
  {
  }

  // -- What comes back -------------------------------------------------------------------

  datatype Rebuilt = Kept(message: LLMMessage) | Skipped | Raised

  /** `row.tool_metadata or {}` */
  function Metadata(row: MessageRow): Object {
    match row.metadata
    case None => map[]
    case Some(p) => p
  }

  /** One stored row, as the message it becomes: system turns and unstructured tool turns do not. */
  function RebuildRow(dumps: Dumps, row: MessageRow): Rebuilt {
    if row.role == System then Skipped
    else if row.role == Tool then
      if !HasType(Metadata(row), TURN_TOOL_RESULT) then Skipped
      else
        match ToolResultFromPayload(Metadata(row))
        case Some(r) => Kept(ToolTurn(dumps, r))
        case None => Raised
    else Kept(LLMMessage(row.role, row.content, None))
  }

  /** The whole conversation, or `None` where rebuilding a row raises. */
  function Rebuild(dumps: Dumps, rows: seq<MessageRow>): Option<seq<LLMMessage>> {
    if rows == [] then Some([])
    else
      match Rebuild(dumps, rows[..|rows| - 1])
      case None => None
      case Some(messages) =>
        match RebuildRow(dumps, rows[|rows| - 1])
        case Kept(m) => Some(messages + [m])
        case Skipped => Some(messages)
        case Raised => None
  }

  lemma RebuildOneMore(dumps: Dumps, rows: seq<MessageRow>, row: MessageRow)
    requires Rebuild(dumps, rows).Some? && RebuildRow(dumps, row).Kept?
    ensures Rebuild(dumps, rows + [row]) == Some(Rebuild(dumps, rows).value + [RebuildRow(dumps, row).message])
  {
    assert (rows + [row])[..|rows|] == rows;
  }

  /** What a rebuilt conversation can never contain: a system turn, or a turn that lies about its text. */
  lemma {:induction false} RebuiltIsClean(dumps: Dumps, rows: seq<MessageRow>)
    requires Rebuild(dumps, rows).Some?
    ensures var messages := Rebuild(dumps, rows).value;
            |messages| <= |rows|
            && forall i | 0 <= i < |messages| :: messages[i].role != System && WellFormed(dumps, messages[i])
  {
    if rows != [] {
      RebuiltIsClean(dumps, rows[..|rows| - 1]);
    }
  }

  function Window(rows: seq<MessageRow>): seq<MessageRow> {
    if |rows| <= MAX_REPLAYED_MESSAGES then rows else rows[..MAX_REPLAYED_MESSAGES]
  }

  predicate Requests(row: MessageRow, executionId: string) {
    HasType(Metadata(row), TURN_TOOL_REQUEST) && Get(Metadata(row), "tool_execution_id") == JString(executionId)
  }

  /** The last stored request made under `executionId`. */
  function PendingToolRequest(rows: seq<MessageRow>, executionId: string): (found: Option<Object>)
    ensures found.None? <==> forall i | 0 <= i < |rows| :: !Requests(rows[i], executionId)
    ensures found.Some? ==> exists i :: 0 <= i < |rows| && Requests(rows[i], executionId) && found.value == Metadata(rows[i])
                                        && forall j | i < j < |rows| :: !Requests(rows[j], executionId)
  {
    if rows == [] then None
    else if Requests(rows[|rows| - 1], executionId) then Some(Metadata(rows[|rows| - 1]))
    else
      var found := PendingToolRequest(rows[..|rows| - 1], executionId);
      assert forall i | 0 <= i < |rows| - 1 :: rows[..|rows| - 1][i] == rows[i];
      found
  }

  // -- The store -----------------------------------------------------------------------

  class ConversationStore {
    var rows: seq<MessageRow>

    constructor ()
      ensures rows == []
    {
      rows := [];
    }

    /** Stage turns in order, numbered from wherever the conversation got to. */
    method AppendAll(turns: seq<RecordedTurn>)
      modifies this
      ensures rows == Appended(old(rows), turns)
      ensures Numbered(old(rows)) ==> Numbered(rows)
    {
      var position := NextSequence(rows);
      var staged: seq<MessageRow> := [];
      for offset := 0 to |turns|
        invariant staged == Staged(position, turns[..offset])
        invariant rows == old(rows)
      {
        staged := staged + [RowOf(turns[offset], position + offset)];
      }
      assert turns[..|turns|] == turns;
      if Numbered(rows) { AppendKeepsNumbering(rows, turns); }
      rows := rows + staged;
    }

    /** The turns, oldest first, as many as a replay may read. */
    method Messages() returns (found: seq<MessageRow>)
      ensures found == Window(rows)
    {
      found := if |rows| <= MAX_REPLAYED_MESSAGES then rows else rows[..MAX_REPLAYED_MESSAGES];
    }
  }

  method ToLlmMessages(dumps: Dumps, rows: seq<MessageRow>) returns (rebuilt: Option<seq<LLMMessage>>)
    ensures rebuilt == Rebuild(dumps, rows)
  {
    var messages: seq<LLMMessage> := [];
    for k := 0 to |rows|
      invariant Rebuild(dumps, rows[..k]) == Some(messages)
    {
      assert rows[..k + 1][..k] == rows[..k];
      match RebuildRow(dumps, rows[k]) {
        case Kept(m) => messages := messages + [m];
        case Skipped =>
        case Raised =>
          RaisedStaysRaised(dumps, rows, k + 1);
          return None;
      }
    }
    assert rows[..|rows|] == rows;
    return Some(messages);
  }

  lemma {:induction false} RaisedStaysRaised(dumps: Dumps, rows: seq<MessageRow>, k: nat)
    requires k <= |rows| && Rebuild(dumps, rows[..k]) == None
    ensures Rebuild(dumps, rows) == None
  {
    if k == |rows| {
      assert rows[..k] == rows;
    } else {
      assert rows[..|rows| - 1][..k] == rows[..k];
      RaisedStaysRaised(dumps, rows[..|rows| - 1], k);
    }
  }

  /** The scan runs backwards, so the newest request under the id is the one found. */
  method FindPendingToolRequest(rows: seq<MessageRow>, executionId: string) returns (found: Option<Object>)
    ensures found == PendingToolRequest(rows, executionId)
  {
    var k := |rows|;
    assert rows[..k] == rows;
    while k > 0
      invariant 0 <= k <= |rows|
      invariant PendingToolRequest(rows, executionId) == PendingToolRequest(rows[..k], executionId)
    {
      assert rows[..k][..k - 1] == rows[..k - 1];
      if Requests(rows[k - 1], executionId) {
        return Some(Metadata(rows[k - 1]));
      }
      k := k - 1;
    }
    return None;
  }
}
