/** The three units of work of a chat turn, as effects on the chat database. */
module ChatUnits {
  import opened Wrappers
  import opened Unicode
  import opened Conversations
  import opened LlmErrors
  import opened LlmProvider
  import opened ChatEvents
  import Decimals
  import Pricing

  const TITLE_LENGTH: nat := 80

  const ELLIPSIS: CodePoint := 0x2026

  /** An identifier as text. */
  function IdText(id: MessageId): PyString {
    Py(Decimals.Print(id))
  }

  function Titled(content: PyString): PyString {
    if |content| > TITLE_LENGTH then content[..TITLE_LENGTH] + [ELLIPSIS] else content
  }

  /** The first message of a conversation gives it its title. */
  function Retitled(db: ChatDb, c: ConversationId, content: PyString): ChatDb
    requires c in db.conversations
  {
    if |RowsOf(db.messages, c)| == 1 then
      db.(conversations := db.conversations[c := db.conversations[c].(title := Titled(content))])
    else db
  }

  /** The user's message under `sequence`, and the title when it is the first message. None when
      the unique index rejects the insert. */
  function UserUnit(db: ChatDb, c: ConversationId, content: PyString, id: MessageId, sequence: nat): Option<ChatDb>
    requires c in db.conversations
  {
    match Inserted(db, MessageRow(id, c, sequence, USER, content))
    case None => None
    case Some(db') => Some(Retitled(db', c, content))
  }

  /** The first message of a conversation, and no later one, sets its title: the message itself, or
      its first 80 characters and an ellipsis. Nothing else about any conversation changes. */
  lemma TitleSetByFirstMessage(db: ChatDb, c: ConversationId, content: PyString, id: MessageId, sequence: nat, db': ChatDb)
    requires c in db.conversations && UserUnit(db, c, content, id, sequence) == Some(db')
    ensures RowsOf(db.messages, c) != [] ==> db'.conversations == db.conversations
    ensures RowsOf(db.messages, c) == [] ==>
      && db'.conversations == db.conversations[c := db.conversations[c].(title := db'.conversations[c].title)]
      && (|content| <= 80 ==> db'.conversations[c].title == content)
      && (|content| > 80 ==> db'.conversations[c].title == content[..80] + [ELLIPSIS])
    ensures db'.calls == db.calls
  {
    RowsOfAppended(db.messages, MessageRow(id, c, sequence, USER, content), c);
  }

  datatype ChatMessage = ChatMessage(role: Role, content: PyString)

  function NonSystem(rows: seq<MessageRow>): seq<ChatMessage> {
    if rows == [] then []
    else
      var init, last := NonSystem(rows[..|rows| - 1]), rows[|rows| - 1];
      if last.role == SYSTEM then init else init + [ChatMessage(last.role, last.content)]
  }

  /** What the model is shown of a conversation. */
  function History(db: ChatDb, c: ConversationId, limit: nat): seq<ChatMessage> {
    NonSystem(Tail(RowsOf(db.messages, c), limit))
  }

  lemma NonSystemAppend(rows: seq<MessageRow>, m: MessageRow)
    ensures NonSystem(rows + [m]) == if m.role == SYSTEM then NonSystem(rows)
        else NonSystem(rows) + [ChatMessage(m.role, m.content)]
  {
    assert (rows + [m])[..|rows|] == rows;
  }

  /** `shown` is the end of the log in order, and its last message is `last`. */
  ghost predicate ShowsEnd(log: seq<MessageRow>, shown: seq<ChatMessage>, limit: nat, last: ChatMessage) {
    && OrderBy(log, false) == log
    && shown == NonSystem(Suffix(log, limit))
    && |shown| > 0 && shown[|shown| - 1] == last
  }

  lemma SuffixOfExtended(before: seq<MessageRow>, m: MessageRow, limit: nat)
    requires Numbered(before + [m]) && limit > 0 && m.role != SYSTEM
    ensures ShowsEnd(before + [m], NonSystem(Tail(before + [m], limit)), limit, ChatMessage(m.role, m.content))
  {
    var log := before + [m];
    OrderOfSorted(log);
    TailIsSuffixOfLog(log, limit);
    var start := |log| - Least(limit, |log|);
    assert log[start..] == before[start..] + [m];
    NonSystemAppend(before[start..], m);
  }

  lemma UserUnitAdds(db: ChatDb, c: ConversationId, content: PyString, id: MessageId, sequence: nat, db': ChatDb)
    requires c in db.conversations && UserUnit(db, c, content, id, sequence) == Some(db')
    ensures db'.messages == db.messages + [MessageRow(id, c, sequence, USER, content)]
    ensures db'.calls == db.calls && !Taken(db, c, sequence)
  {
  }

  lemma ExtendedTail(messages: seq<MessageRow>, m: MessageRow, limit: nat)
    requires Numbered(RowsOf(messages, m.conversationId)) && m.sequence == NextSequence(messages, m.conversationId)
    requires limit > 0 && m.role != SYSTEM
    ensures var log := RowsOf(messages + [m], m.conversationId);
      ShowsEnd(log, NonSystem(Tail(log, limit)), limit, ChatMessage(m.role, m.content))
  {
    RowsOfAppended(messages, m, m.conversationId);
    NumberedMax(RowsOf(messages, m.conversationId));
    SuffixOfExtended(RowsOf(messages, m.conversationId), m, limit);
  }

  /** The model is shown the last `min(limit, n)` messages of the log, oldest first, and the last of
      them is the message just stored. */
  lemma ModelSeesLogSuffix(db: ChatDb, c: ConversationId, content: PyString, id: MessageId, db': ChatDb, limit: nat)
    requires c in db.conversations && Numbered(RowsOf(db.messages, c)) && limit > 0
    requires UserUnit(db, c, content, id, NextSequence(db.messages, c)) == Some(db')
    ensures ShowsEnd(RowsOf(db'.messages, c), History(db', c, limit), limit, ChatMessage(USER, content))
  {
    UserUnitAdds(db, c, content, id, NextSequence(db.messages, c), db');
    ExtendedTail(db.messages, MessageRow(id, c, NextSequence(db.messages, c), USER, content), limit);
  }

  function SucceededCall(c: ConversationId, id: MessageId, k: Completion): CallRow {
    CallRow(c, Some(id), k.provider, k.model, k.usage.inputTokens, k.usage.outputTokens, k.usage.cachedInputTokens,
            Pricing.EstimateCost(k.provider, k.model, k.usage), k.retries, true, Some(k.finishReason), None)
  }

  /** The assistant's message and the record of the call, or neither. */
  function ReplyUnit(db: ChatDb, c: ConversationId, text: PyString, k: Completion, id: MessageId,
                     sequence: nat): Option<ChatDb> {
    match Inserted(db, MessageRow(id, c, sequence, ASSISTANT, text))
    case None => None
    case Some(db') => Some(db'.(calls := db.calls + [SucceededCall(c, id, k)]))
  }

  function FailedCall(c: ConversationId, provider: string, model: string, e: LlmError): CallRow {
    CallRow(c, None, provider, model, 0, 0, 0, None, 0, false, None, Some(e.Code()))
  }

  /** The partial answer, when there is one, and the record of the failed call, or neither. */
  function FailureUnit(db: ChatDb, c: ConversationId, partial: PyString, e: LlmError, provider: string, model: string,
                       id: MessageId, sequence: nat): Option<ChatDb>
  {
    var stored := if partial == [] then Some(db) else Inserted(db, MessageRow(id, c, sequence, ASSISTANT, partial));
    match stored
    case None => None
    case Some(db') => Some(db'.(calls := db.calls + [FailedCall(c, provider, model, e)]))
  }

  lemma ReplyUnitAdds(db: ChatDb, c: ConversationId, text: PyString, k: Completion, id: MessageId, sequence: nat,
                      db': ChatDb)
    requires ReplyUnit(db, c, text, k, id, sequence) == Some(db')
    ensures db'.messages == db.messages + [MessageRow(id, c, sequence, ASSISTANT, text)]
    ensures db'.calls == db.calls + [SucceededCall(c, id, k)]
    ensures !Taken(db, c, sequence) && db'.conversations == db.conversations
  {
  }

  lemma FailureUnitAdds(db: ChatDb, c: ConversationId, partial: PyString, e: LlmError, provider: string, model: string,
                        id: MessageId, sequence: nat, db': ChatDb)
    requires FailureUnit(db, c, partial, e, provider, model, id, sequence) == Some(db')
    ensures db'.messages == db.messages + if partial == [] then [] else [MessageRow(id, c, sequence, ASSISTANT, partial)]
    ensures db'.calls == db.calls + [FailedCall(c, provider, model, e)]
    ensures partial != [] ==> !Taken(db, c, sequence)
    ensures db'.conversations == db.conversations
  {
  }

  // --- events about stored rows -------------------------------------------------------------

  function Metadata(id: MessageId, k: Completion, latency: Literal): TurnMetadata {
    TurnMetadata(IdText(id), Py(k.provider), Py(k.model), k.provider == "fake", k.finishReason,
                 k.usage.inputTokens, k.usage.outputTokens, latency,
                 PrintedCost(Pricing.EstimateCost(k.provider, k.model, k.usage)))
  }

  /** `str(cost) if cost is not None else None`. */
  function PrintedCost(cost: Option<nat>): Option<PyString> {
    if cost.Some? then Some(Py(Pricing.CostText(cost.value))) else None
  }

  /** The rows one turn has committed: where its question, its reply and the record of its call
      stand in their tables, which only grow. */
  datatype OwnRows = OwnRows(question: Option<nat>, reply: Option<nat>, call: Option<nat>)

  predicate MessageAt(db: ChatDb, at: Option<nat>, c: ConversationId, role: Role, content: PyString) {
    && at.Some? && at.value < |db.messages|
    && db.messages[at.value].conversationId == c
    && db.messages[at.value].role == role
    && db.messages[at.value].content == content
  }

  /** The record of a call in conversation `c`, about the message `at`, if any. */
  predicate CallAt(db: ChatDb, at: Option<nat>, c: ConversationId, succeeded: bool) {
    at.Some? && at.value < |db.calls| && db.calls[at.value].conversationId == c && db.calls[at.value].succeeded == succeeded
  }

  /** The event tells of rows that this very turn has committed, given its question and the text it
      has relayed: the question; the whole reply and its call; the kept part, if any, and the failed
      call. */
  predicate Backed(e: TurnEvent, db: ChatDb, own: OwnRows, c: ConversationId, question: PyString, collected: PyString) {
    match e
    case UserMessage(id, conversation) =>
      && MessageAt(db, own.question, c, USER, question)
      && id == IdText(db.messages[own.question.value].id) && conversation == IdText(c)
    case Delta(_) => true
    case Done(meta) =>
      && MessageAt(db, own.reply, c, ASSISTANT, collected) && CallAt(db, own.call, c, true)
      && var m, call := db.messages[own.reply.value], db.calls[own.call.value];
        && IdText(m.id) == meta.messageId && call.messageId == Some(m.id)
        && Py(call.provider) == meta.provider && Py(call.model) == meta.model
        && call.inputTokens == meta.inputTokens && call.outputTokens == meta.outputTokens
        && call.finishReason == Some(meta.finishReason) && PrintedCost(call.cost) == meta.cost
    case Failed(code, _, _) =>
      && CallAt(db, own.call, c, false) && db.calls[own.call.value].errorCode == Some(code)
      && (if collected == [] then own.reply.None? else MessageAt(db, own.reply, c, ASSISTANT, collected))
  }

  /** Committing more rows never takes the backing of an event away. */
  lemma BackedStays(e: TurnEvent, db: ChatDb, db': ChatDb, own: OwnRows, c: ConversationId, question: PyString,
                    collected: PyString)
    requires Backed(e, db, own, c, question, collected)
    requires db.messages <= db'.messages && db.calls <= db'.calls
    ensures Backed(e, db', own, c, question, collected)
  {
  }

  lemma ReplyIsBacked(db: ChatDb, c: ConversationId, text: PyString, k: Completion, id: MessageId, sequence: nat,
                      latency: Literal, db': ChatDb, asked: Option<nat>, question: PyString)
    requires ReplyUnit(db, c, text, k, id, sequence) == Some(db')
    ensures Backed(Done(Metadata(id, k, latency)), db', OwnRows(asked, Some(|db.messages|), Some(|db.calls|)), c,
                   question, text)
  {
  }

  /** Where the kept part of a failed turn is stored, if there is one. */
  function KeptAt(db: ChatDb, partial: PyString): Option<nat> {
    if partial == [] then None else Some(|db.messages|)
  }

  lemma FailureIsBacked(db: ChatDb, c: ConversationId, partial: PyString, e: LlmError, provider: string, model: string,
                        id: MessageId, sequence: nat, db': ChatDb, asked: Option<nat>, question: PyString,
                        flag: Option<bool>)
    requires FailureUnit(db, c, partial, e, provider, model, id, sequence) == Some(db')
    ensures Backed(Failed(e.Code(), e.message, flag), db', OwnRows(asked, KeptAt(db, partial), Some(|db.calls|)), c,
                   question, partial)
  {
  }

  lemma QuestionIsBacked(db: ChatDb, c: ConversationId, content: PyString, id: MessageId, sequence: nat, db': ChatDb,
                         own: OwnRows, text: PyString)
    requires c in db.conversations && UserUnit(db, c, content, id, sequence) == Some(db')
    requires own.question == Some(|db.messages|)
    ensures Backed(UserMessage(IdText(id), IdText(c)), db', own, c, content, text)
  {
  }

  /** Without system messages, which the service never stores, the model is shown the messages of the log's
      end one by one, each with its role and content. */
  lemma {:induction false} ShownOneByOne(rows: seq<MessageRow>, i: nat)
    requires i < |rows| && forall j :: 0 <= j < |rows| ==> rows[j].role != SYSTEM
    ensures |NonSystem(rows)| == |rows| && NonSystem(rows)[i] == ChatMessage(rows[i].role, rows[i].content)
  {
    var n := |rows| - 1;
    if n > 0 { ShownOneByOne(rows[..n], if i < n then i else 0); }
  }

  /** System messages are left out, and only those. */
  lemma {:induction false} ShownWithoutSystem(before: seq<MessageRow>, after: seq<MessageRow>)
    ensures NonSystem(before + after) == NonSystem(before) + NonSystem(after)
    decreases |after|
  {
    if after == [] {
      assert before + after == before;
    } else {
      assert (before + after)[..|before + after| - 1] == before + after[..|after| - 1];
      ShownWithoutSystem(before, after[..|after| - 1]);
    }
  }
}
