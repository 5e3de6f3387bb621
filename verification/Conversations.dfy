/** The chat tables and the statements `ConversationRepository` runs against them. */
module Conversations {
  import opened Wrappers
  import opened Unicode
  import opened UnitOfWork

  type ConversationId = nat
  type MessageId = nat
  type UserId = nat

  datatype Role = USER | ASSISTANT | SYSTEM

  datatype MessageRow = MessageRow(
    id: MessageId,
    conversationId: ConversationId,
    sequence: nat,
    role: Role,
    content: PyString)

  datatype Conversation = Conversation(userId: UserId, title: PyString)

  /** One row of `llm_calls`; `cost` in millionths of a dollar, None for NULL. */
  datatype CallRow = CallRow(
    conversationId: ConversationId,
    messageId: Option<MessageId>,
    provider: string,
    model: string,
    inputTokens: nat,
    outputTokens: nat,
    cachedInputTokens: nat,
    cost: Option<nat>,
    retries: nat,
    succeeded: bool,
    finishReason: Option<PyString>,
    errorCode: Option<PyString>)

  /** `messages` holds the rows in no particular order. */
  datatype ChatDb = ChatDb(
    conversations: map<ConversationId, Conversation>,
    messages: seq<MessageRow>,
    calls: seq<CallRow>)

  // --- queries ------------------------------------------------------------------------------

  /** `WHERE conversation_id = c`. */
  function RowsOf(rows: seq<MessageRow>, c: ConversationId): (r: seq<MessageRow>)
    ensures forall m :: m in r <==> m in rows && m.conversationId == c
  {
    if rows == [] then []
    else
      var init := RowsOf(rows[..|rows| - 1], c);
      assert rows == rows[..|rows| - 1] + [rows[|rows| - 1]];
      if rows[|rows| - 1].conversationId == c then init + [rows[|rows| - 1]] else init
  }

  /** `coalesce(max(sequence), 0)`. */
  function MaxSequence(rows: seq<MessageRow>): (r: nat)
    ensures forall m :: m in rows ==> m.sequence <= r
    ensures r > 0 ==> exists m :: m in rows && m.sequence == r
  {
    if rows == [] then 0
    else
      var rest := MaxSequence(rows[..|rows| - 1]);
      var last := rows[|rows| - 1];
      assert rows == rows[..|rows| - 1] + [last];
      assert last in rows;
      if last.sequence > rest then last.sequence else rest
  }

  function NextSequence(rows: seq<MessageRow>, c: ConversationId): nat {
    MaxSequence(RowsOf(rows, c)) + 1
  }

  // --- ordering -----------------------------------------------------------------------------

  function InsertBy(m: MessageRow, rows: seq<MessageRow>, descending: bool): (r: seq<MessageRow>)
    ensures |r| == |rows| + 1
  {
    if rows == [] then [m]
    else if (if descending then m.sequence >= rows[0].sequence else m.sequence <= rows[0].sequence) then [m] + rows
    else [rows[0]] + InsertBy(m, rows[1..], descending)
  }

  /** `ORDER BY sequence [DESC]`. */
  function OrderBy(rows: seq<MessageRow>, descending: bool): (r: seq<MessageRow>)
    ensures |r| == |rows|
  {
    if rows == [] then [] else InsertBy(rows[0], OrderBy(rows[1..], descending), descending)
  }

  predicate InOrder(rows: seq<MessageRow>, descending: bool) {
    forall i, j :: 0 <= i < j < |rows| ==>
      if descending then rows[i].sequence >= rows[j].sequence else rows[i].sequence <= rows[j].sequence
  }

  /** The unique index on (conversation_id, sequence), for the rows of one conversation. */
  ghost predicate DistinctSequences(rows: seq<MessageRow>) {
    forall i, j :: 0 <= i < j < |rows| ==> rows[i].sequence != rows[j].sequence
  }

  lemma {:induction false} InsertKeepsOrder(m: MessageRow, rows: seq<MessageRow>, descending: bool)
    requires InOrder(rows, descending)
    ensures InOrder(InsertBy(m, rows, descending), descending)
    ensures InsertBy(m, rows, descending)[0] == m || (rows != [] && InsertBy(m, rows, descending)[0] == rows[0])
  {
    if rows != [] {
      InsertKeepsOrder(m, rows[1..], descending);
    }
  }

  lemma {:induction false} InsertAddsRow(m: MessageRow, rows: seq<MessageRow>, descending: bool)
    ensures multiset(InsertBy(m, rows, descending)) == multiset(rows) + multiset{m}
  {
    if rows != [] {
      InsertAddsRow(m, rows[1..], descending);
      assert rows == [rows[0]] + rows[1..];
    }
  }

  /** The result is in order ... */
  lemma {:induction false} OrderByIsInOrder(rows: seq<MessageRow>, descending: bool)
    ensures InOrder(OrderBy(rows, descending), descending)
  {
    if rows != [] {
      OrderByIsInOrder(rows[1..], descending);
      InsertKeepsOrder(rows[0], OrderBy(rows[1..], descending), descending);
    }
  }

  /** ... and has exactly the given rows. */
  lemma {:induction false} OrderByKeepsRows(rows: seq<MessageRow>, descending: bool)
    ensures multiset(OrderBy(rows, descending)) == multiset(rows)
  {
    if rows != [] {
      OrderByKeepsRows(rows[1..], descending);
      InsertAddsRow(rows[0], OrderBy(rows[1..], descending), descending);
      assert rows == [rows[0]] + rows[1..];
    }
  }

  function Reverse(rows: seq<MessageRow>): (r: seq<MessageRow>)
    ensures |r| == |rows| && forall i :: 0 <= i < |r| ==> r[i] == rows[|rows| - 1 - i]
  {
    if rows == [] then [] else Reverse(rows[1..]) + [rows[0]]
  }

  lemma {:induction false} InsertLast(m: MessageRow, rows: seq<MessageRow>)
    requires forall i :: 0 <= i < |rows| ==> m.sequence < rows[i].sequence
    ensures InsertBy(m, rows, true) == rows + [m]
  {
    if rows != [] {
      InsertLast(m, rows[1..]);
      assert rows == [rows[0]] + rows[1..];
    }
  }

  lemma {:induction false} InsertBeforeLast(m: MessageRow, rows: seq<MessageRow>, z: MessageRow)
    requires z.sequence <= m.sequence
    ensures InsertBy(m, rows + [z], true) == InsertBy(m, rows, true) + [z]
  {
    if rows != [] {
      InsertBeforeLast(m, rows[1..], z);
      assert (rows + [z])[1..] == rows[1..] + [z];
    }
  }

  lemma {:induction false} InsertIntoReverse(m: MessageRow, rows: seq<MessageRow>)
    requires InOrder(rows, false) && forall i :: 0 <= i < |rows| ==> rows[i].sequence != m.sequence
    ensures InsertBy(m, Reverse(rows), true) == Reverse(InsertBy(m, rows, false))
  {
    if rows == [] {
    } else if m.sequence < rows[0].sequence {
      InsertLast(m, Reverse(rows));
      assert ([m] + rows)[1..] == rows;
    } else {
      InsertIntoReverse(m, rows[1..]);
      InsertBeforeLast(m, Reverse(rows[1..]), rows[0]);
      assert InsertBy(m, rows, false)[1..] == InsertBy(m, rows[1..], false);
    }
  }

  /** Without equal sequence numbers the two orders are each other's reverse. */
  lemma {:induction false} DescendingIsReversed(rows: seq<MessageRow>)
    requires DistinctSequences(rows)
    ensures OrderBy(rows, true) == Reverse(OrderBy(rows, false))
  {
    if rows != [] {
      DescendingIsReversed(rows[1..]);
      var sorted := OrderBy(rows[1..], false);
      OrderByIsInOrder(rows[1..], false);
      OrderByKeepsRows(rows[1..], false);
      forall i | 0 <= i < |sorted|
        ensures sorted[i].sequence != rows[0].sequence
      {
        assert sorted[i] in multiset(rows[1..]);
        assert sorted[i] in rows[1..];
      }
      InsertIntoReverse(rows[0], sorted);
    }
  }

  function Least(a: nat, b: nat): nat {
    if a < b then a else b
  }

  /** `ORDER BY sequence DESC LIMIT limit`, reversed. */
  function Tail(rows: seq<MessageRow>, limit: nat): seq<MessageRow> {
    var newest := OrderBy(rows, true);
    Reverse(newest[..Least(limit, |newest|)])
  }

  /** The last `min(limit, n)` rows. */
  function Suffix(rows: seq<MessageRow>, limit: nat): seq<MessageRow> {
    rows[|rows| - Least(limit, |rows|)..]
  }

  /** Order-desc, limit, reverse is the last `min(limit, n)` rows of the full ascending log. */
  lemma TailIsSuffixOfLog(rows: seq<MessageRow>, limit: nat)
    requires DistinctSequences(rows)
    ensures Tail(rows, limit) == Suffix(OrderBy(rows, false), limit)
  {
    DescendingIsReversed(rows);
    var log := OrderBy(rows, false);
    var k := Least(limit, |log|);
    assert Reverse(Reverse(log)[..k]) == log[|log| - k..];
  }

  lemma {:induction false} OrderOfSorted(rows: seq<MessageRow>)
    requires InOrder(rows, false)
    ensures OrderBy(rows, false) == rows
  {
    if rows != [] {
      OrderOfSorted(rows[1..]);
      assert rows == [rows[0]] + rows[1..];
    }
  }

  // --- statements ---------------------------------------------------------------------------

  predicate Taken(db: ChatDb, c: ConversationId, sequence: nat) {
    exists m :: m in db.messages && m.conversationId == c && m.sequence == sequence
  }

  /** A message insert: None when the unique index on (conversation_id, sequence) rejects it. */
  function Inserted(db: ChatDb, m: MessageRow): Option<ChatDb> {
    if Taken(db, m.conversationId, m.sequence) then None
    else Some(db.(messages := db.messages + [m]))
  }

  lemma NextSequenceIsFree(db: ChatDb, c: ConversationId)
    ensures !Taken(db, c, NextSequence(db.messages, c))
  {
    forall m | m in db.messages && m.conversationId == c
      ensures m.sequence != NextSequence(db.messages, c)
    {
      assert m in RowsOf(db.messages, c);
    }
  }

  lemma RowsOfAppended(rows: seq<MessageRow>, m: MessageRow, c: ConversationId)
    ensures RowsOf(rows + [m], c) == if m.conversationId == c then RowsOf(rows, c) + [m] else RowsOf(rows, c)
  {
    assert (rows + [m])[..|rows|] == rows;
  }

  /** The log of a conversation is its rows numbered 1, 2, ..., n in the order they were committed. */
  ghost predicate Numbered(rows: seq<MessageRow>) {
    forall i :: 0 <= i < |rows| ==> rows[i].sequence == i + 1
  }

  lemma NumberedMax(rows: seq<MessageRow>)
    requires Numbered(rows)
    ensures MaxSequence(rows) == |rows|
  {
    if rows != [] {
      var last := rows[|rows| - 1];
      assert last in rows;
      var top :| top in rows && top.sequence == MaxSequence(rows);
    }
  }

  /** `get_owned`: one answer for a missing conversation and for somebody else's. */
  predicate Owned(db: ChatDb, c: ConversationId, user: UserId) {
    c in db.conversations && db.conversations[c].userId == user
  }

  class ConversationRepository {
    const session: Session<ChatDb>

    constructor (session: Session<ChatDb>)
      ensures this.session == session
    {
      this.session := session;
    }

    /** `next_sequence` followed by the insert, in one unit of work with nobody in between. */
    method AddMessage(c: ConversationId, role: Role, content: PyString, id: MessageId) returns (m: MessageRow)
      modifies session
      ensures m == MessageRow(id, c, NextSequence(old(session.working.messages), c), role, content)
      ensures Inserted(old(session.working), m) == Some(session.working)
      ensures session.committed == old(session.committed)
    {
      var db := session.working;
      m := MessageRow(id, c, NextSequence(db.messages, c), role, content);
      NextSequenceIsFree(db, c);
      session.working := db.(messages := db.messages + [m]);
    }

    method ListMessages(c: ConversationId, limit: Option<nat>) returns (rows: seq<MessageRow>)
      ensures rows == var all := RowsOf(session.working.messages, c);
        if limit.Some? then Tail(all, limit.value) else OrderBy(all, false)
    {
      var all := RowsOf(session.working.messages, c);
      if limit.Some? {
        var newest := OrderBy(all, true);
        rows := Reverse(newest[..Least(limit.value, |newest|)]);
      } else {
        rows := OrderBy(all, false);
      }
    }

    method MessageCount(c: ConversationId) returns (n: nat)
      ensures n == |RowsOf(session.working.messages, c)|
    {
      n := |RowsOf(session.working.messages, c)|;
    }
  }
}
