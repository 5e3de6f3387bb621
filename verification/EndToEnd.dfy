/** A turn from the provider to the screen: what the provider reported, what the database stored and
    what the user saw are the same text, and the client's list replicates the server's log. */
module EndToEnd {
  import opened Wrappers
  import opened Unicode
  import opened Conversations
  import opened LlmProvider
  import opened ChatEvents
  import opened ChatUnits
  import opened ChatService
  import opened ChatEndpoint
  import opened UseChat
  import ChatStream

  // --- the text the client accumulates ------------------------------------------------------

  function Texts(events: seq<TurnEvent>): seq<PyString> {
    if events == [] then []
    else
      var init, last := Texts(events[..|events| - 1]), events[|events| - 1];
      if last.Delta? then init + [last.text] else init
  }

  lemma {:induction false} AccumulatedIsJoined(events: seq<TurnEvent>)
    ensures Accumulated(ChatStream.ClientViews(events)) == Utf16(Join(Texts(events)))
  {
    if events != [] {
      var init, last := events[..|events| - 1], events[|events| - 1];
      AccumulatedIsJoined(init);
      assert ChatStream.ClientViews(events)[..|events| - 1] == ChatStream.ClientViews(init);
      if last.Delta? {
        JoinLast(Texts(init), last.text);
        Utf16Append(Join(Texts(init)), last.text);
      }
    }
  }

  lemma {:induction false} TextsAppend(a: seq<TurnEvent>, b: seq<TurnEvent>)
    ensures Texts(a + b) == Texts(a) + Texts(b)
    decreases |b|
  {
    if b == [] {
      assert a + b == a;
    } else {
      assert (a + b)[..|a + b| - 1] == a + b[..|b| - 1];
      TextsAppend(a, b[..|b| - 1]);
    }
  }

  lemma {:induction false} TextsOfDeltas(texts: seq<PyString>, db: ChatDb)
    ensures Texts(EventsOf(Emissions(texts, db))) == texts
  {
    if texts != [] {
      var init := texts[..|texts| - 1];
      TextsOfDeltas(init, db);
      assert EventsOf(Emissions(texts, db))[..|texts| - 1] == EventsOf(Emissions(init, db));
    }
  }

  lemma JoinedPrefix(events: seq<TurnEvent>, n: nat)
    requires n <= |events|
    ensures Utf16(Join(Texts(events[..n]))) <= Utf16(Join(Texts(events)))
  {
    assert events == events[..n] + events[n..];
    TextsAppend(events[..n], events[n..]);
    JoinAppend(Texts(events[..n]), Texts(events[n..]));
    Utf16Append(Join(Texts(events[..n])), Join(Texts(events[n..])));
  }

  /** However the body breaks off, what the client has accumulated is a prefix of the text that was
      streamed, and no frame that arrived fails to parse. */
  lemma LossyClientSeesPrefix(events: seq<TurnEvent>, body: string, read: ChatStream.Delivery<ClientEvent>)
    requires body <= ChatStream.Wire(events) && read == ChatStream.Reading(body)
    ensures !read.threw && Accumulated(read.events) <= Utf16(Join(Texts(events)))
  {
    var n := ChatStream.BrokenConnectionDeliversPrefix(events, body);
    AccumulatedIsJoined(events[..n]);
    JoinedPrefix(events, n);
  }

  lemma {:induction false} AnyEnds(events: seq<TurnEvent>)
    ensures (exists e :: e in ChatStream.ClientViews(events) && Ends(e)) <==>
      exists i :: 0 <= i < |events| && (events[i].Done? || events[i].Failed?)
  {
    var views := ChatStream.ClientViews(events);
    if i :| 0 <= i < |events| && (events[i].Done? || events[i].Failed?) {
      assert views[i] in views && Ends(views[i]);
    }
    if e :| e in views && Ends(e) {
      var i :| 0 <= i < |views| && views[i] == e;
      assert events[i].Done? || events[i].Failed?;
    }
  }

  /** At any moment of a stream, with any part of the body read, the page shows the join of the deltas
      whose frames have arrived, until done or error has. */
  lemma ShownIsDelivered(events: seq<TurnEvent>, body: string, s: ChatState, content: JsString, ids: LocalIds)
    returns (n: nat)
    requires body <= ChatStream.Wire(events) && !JsBlank(content)
    ensures n <= |events| && ChatStream.Wire(events[..n]) <= body
    ensures n < |events| ==> |body| < |ChatStream.Wire(events[..n + 1])|
    ensures var shown := AfterSend(s, content, ChatStream.Reading(body).events, None, ids).streaming;
      (forall i :: 0 <= i < n ==> !events[i].Done? && !events[i].Failed?) ==>
        shown == Some(Utf16(Join(Texts(events[..n]))))
  {
    n := ChatStream.BrokenConnectionDeliversPrefix(events, body);
    var first := events[..n];
    AnyEnds(first);
    AccumulatedIsJoined(first);
    if forall i :: 0 <= i < n ==> !events[i].Done? && !events[i].Failed? {
      ShownWhileStreaming(s, content, ChatStream.ClientViews(first), ids);
    }
  }

  // --- the rows a turn adds -----------------------------------------------------------------

  lemma AddedRow(db: ChatDb, m: MessageRow, db': ChatDb)
    requires Numbered(RowsOf(db.messages, m.conversationId))
    requires m.sequence == NextSequence(db.messages, m.conversationId)
    requires db'.messages == db.messages + [m]
    ensures RowsOf(db'.messages, m.conversationId) == RowsOf(db.messages, m.conversationId) + [m]
    ensures Numbered(RowsOf(db'.messages, m.conversationId))
  {
    RowsOfAppended(db.messages, m, m.conversationId);
    NumberedMax(RowsOf(db.messages, m.conversationId));
  }

  /** The server's log of a conversation, in sequence order, as a client would load it. */
  function ServerLog(db: ChatDb, c: ConversationId): seq<Said> {
    LogOf(OrderBy(RowsOf(db.messages, c), false))
  }

  function LogOf(rows: seq<MessageRow>): (r: seq<Said>)
    ensures |r| == |rows| && forall i :: 0 <= i < |r| ==> r[i] == Said(rows[i].role, Utf16(rows[i].content))
  {
    seq(|rows|, i requires 0 <= i < |rows| => Said(rows[i].role, Utf16(rows[i].content)))
  }

  lemma LogOfNumbered(db: ChatDb, c: ConversationId)
    requires Numbered(RowsOf(db.messages, c))
    ensures ServerLog(db, c) == LogOf(RowsOf(db.messages, c))
  {
    OrderOfSorted(RowsOf(db.messages, c));
  }

  lemma LogGrows(db: ChatDb, m: MessageRow, db': ChatDb)
    requires Numbered(RowsOf(db.messages, m.conversationId))
    requires m.sequence == NextSequence(db.messages, m.conversationId)
    requires db'.messages == db.messages + [m]
    ensures Numbered(RowsOf(db'.messages, m.conversationId))
    ensures ServerLog(db', m.conversationId) == ServerLog(db, m.conversationId) + [Said(m.role, Utf16(m.content))]
  {
    AddedRow(db, m, db');
    LogOfNumbered(db, m.conversationId);
    LogOfNumbered(db', m.conversationId);
    LogOfAppended(RowsOf(db.messages, m.conversationId), m);
  }

  lemma LogOfAppended(rows: seq<MessageRow>, m: MessageRow)
    ensures LogOf(rows + [m]) == LogOf(rows) + [Said(m.role, Utf16(m.content))]
  {
  }

  /** What a completed turn adds after the question. */
  function ReplyOf(run: Attempt): seq<Said>
    requires MeetsContract(run)
  {
    var text := Utf16(Join(Deltas(run.events)));
    if run.failure.None? || text != [] then [Said(ASSISTANT, text)] else []
  }

  lemma ServerAddsReply(r: Request, db: ChatDb, run: Attempt, provider: string, model: string, faults: Faults,
                        closing: TurnResult)
    requires MeetsContract(run) && closing == Closing(r, db, run, provider, model, faults) && closing.ending.Completed?
    requires Numbered(RowsOf(db.messages, r.c))
    ensures Numbered(RowsOf(closing.committed.messages, r.c))
    ensures ServerLog(closing.committed, r.c) == ServerLog(db, r.c) + ReplyOf(run)
  {
    var text := Join(Deltas(run.events));
    var m := MessageRow(r.replyId, r.c, NextSequence(db.messages, r.c), ASSISTANT, text);
    if run.failure.None? { ReportedIsStreamed(run); }
    if run.failure.None? || text != [] {
      LogGrows(db, m, closing.committed);
    } else {
      assert closing.committed.messages == db.messages;
    }
  }

  lemma ServerAddsQuestion(r: Request, db: ChatDb, db1: ChatDb, content: PyString)
    requires r.c in db.conversations && Numbered(RowsOf(db.messages, r.c))
    requires UserUnit(db, r.c, content, r.userMessageId, NextSequence(db.messages, r.c)) == Some(db1)
    ensures Numbered(RowsOf(db1.messages, r.c))
    ensures ServerLog(db1, r.c) == ServerLog(db, r.c) + [Said(USER, Utf16(content))]
  {
    LogGrows(db, MessageRow(r.userMessageId, r.c, NextSequence(db.messages, r.c), USER, content), db1);
  }

  /** A completed turn adds the stripped question and the reply to the log, and numbers them on. */
  lemma ServerAddsTurn(r: Request, db: ChatDb, run: Attempt, provider: string, model: string, faults: Faults, t: TurnResult)
    requires MeetsContract(run) && t == WholeTurn(r, db, run, provider, model, faults) && t.ending.Completed?
    requires Numbered(RowsOf(db.messages, r.c))
    ensures Numbered(RowsOf(t.committed.messages, r.c))
    ensures ServerLog(t.committed, r.c) == ServerLog(db, r.c) + [Said(USER, Utf16(PyStrip(r.content)))] + ReplyOf(run)
  {
    var db1, closing := TurnHasShape(r, db, run, provider, model, faults, t);
    ServerAddsQuestion(r, db, db1, PyStrip(r.content));
    ServerAddsReply(r, db1, run, provider, model, faults, closing);
  }

  // --- what the client makes of a completed turn --------------------------------------------

  lemma ShapeSends(t: TurnResult, db: ChatDb, r: Request, texts: seq<PyString>, db1: ChatDb, closing: TurnResult)
    requires Shape(t, db, r, texts, db1, closing) && t.ending.Completed?
    ensures |closing.trace| == 1
    ensures Sent(t) == [Opening(r, db1).event] + EventsOf(Emissions(texts, db1)) + [closing.trace[0].event]
  {
    var e :| closing.trace == [Emission(e, closing.committed)] && (e.Done? || e.Failed?);
    assert EventsOf(t.trace) == [Opening(r, db1).event] + EventsOf(Emissions(texts, db1)) + [closing.trace[0].event];
  }

  lemma LastEvent(r: Request, db: ChatDb, run: Attempt, provider: string, model: string, faults: Faults,
                  closing: TurnResult)
    requires MeetsContract(run) && closing == Closing(r, db, run, provider, model, faults) && |closing.trace| == 1
    ensures if run.failure.None? then closing.trace[0].event.Done? else closing.trace[0].event.Failed?
  {
  }

  /** The events of a completed turn: the announcement, the deltas, and done or error. */
  lemma SentByCompletedTurn(r: Request, db: ChatDb, run: Attempt, provider: string, model: string, faults: Faults,
                            t: TurnResult)
    returns (opening: TurnEvent, deltas: seq<TurnEvent>, last: TurnEvent)
    requires MeetsContract(run) && t == WholeTurn(r, db, run, provider, model, faults) && t.ending.Completed?
    ensures Sent(t) == [opening] + deltas + [last]
    ensures opening.UserMessage? && Texts(deltas) == Deltas(run.events)
    ensures forall i :: 0 <= i < |deltas| ==> deltas[i].Delta?
    ensures if run.failure.None? then last.Done? else last.Failed?
  {
    var db1, closing := TurnHasShape(r, db, run, provider, model, faults, t);
    ShapeSends(t, db, r, Deltas(run.events), db1, closing);
    LastEvent(r, db1, run, provider, model, faults, closing);
    opening, last := Opening(r, db1).event, closing.trace[0].event;
    deltas := EventsOf(Emissions(Deltas(run.events), db1));
    TextsOfDeltas(Deltas(run.events), db1);
  }

  lemma {:induction false} NoReplyYet(events: seq<ClientEvent>)
    requires forall i :: 0 <= i < |events| ==> !Ends(events[i])
    ensures Replies(events) == []
  {
    if events != [] { NoReplyYet(events[..|events| - 1]); }
  }

  lemma RepliesOfLast(before: seq<ClientEvent>, last: ClientEvent, text: JsString)
    requires forall i :: 0 <= i < |before| ==> !Ends(before[i])
    requires Ends(last) && Accumulated(before + [last]) == text
    ensures Replies(before + [last]) == if last.TurnDone? || text != [] then [Said(ASSISTANT, text)] else []
  {
    assert (before + [last])[..|before|] == before;
    NoReplyYet(before);
  }

  lemma TextsOfTurn(opening: TurnEvent, deltas: seq<TurnEvent>, last: TurnEvent)
    requires !opening.Delta? && !last.Delta?
    ensures Texts([opening] + deltas + [last]) == Texts(deltas)
  {
    TextsAppend([opening] + deltas, [last]);
    TextsAppend([opening], deltas);
    assert [last][..0] == [] && [opening][..0] == [];
  }

  lemma ViewsOfTurn(opening: TurnEvent, deltas: seq<TurnEvent>, last: TurnEvent) returns (before: seq<ClientEvent>)
    requires opening.UserMessage? && forall i :: 0 <= i < |deltas| ==> deltas[i].Delta?
    ensures ChatStream.ClientViews([opening] + deltas + [last]) == before + [ClientView(last)]
    ensures forall i :: 0 <= i < |before| ==> !Ends(before[i])
  {
    before := ChatStream.ClientViews([opening] + deltas);
  }

  lemma RepliesOfTurn(opening: TurnEvent, deltas: seq<TurnEvent>, last: TurnEvent, views: seq<ClientEvent>)
    requires opening.UserMessage? && forall i :: 0 <= i < |deltas| ==> deltas[i].Delta?
    requires last.Done? || last.Failed?
    requires views == ChatStream.ClientViews([opening] + deltas + [last])
    ensures var text := Utf16(Join(Texts(deltas)));
      && Accumulated(views) == text
      && Replies(views) == if last.Done? || text != [] then [Said(ASSISTANT, text)] else []
  {
    AccumulatedIsJoined([opening] + deltas + [last]);
    TextsOfTurn(opening, deltas, last);
    var before := ViewsOfTurn(opening, deltas, last);
    RepliesOfLast(before, ClientView(last), Utf16(Join(Texts(deltas))));
  }

  /** The client's state after a turn whose body arrived complete, in whatever chunks. */
  function ClientAfter(s: ChatState, r: Request, t: TurnResult, chunks: seq<string>, ids: LocalIds): ChatState {
    AfterSend(s, Utf16(r.content), ChatStream.Reading(Join(chunks)).events, None, ids)
  }

  /** The text the user watched arrive is the text that was stored, and on success the text the
      provider reported; on failure it is the kept partial text, stored when there is any. */
  lemma SeenStoredAndReportedAgree(r: Request, db: ChatDb, run: Attempt, provider: string, model: string, faults: Faults,
                                   t: TurnResult, chunks: seq<string>)
    requires MeetsContract(run) && t == WholeTurn(r, db, run, provider, model, faults) && t.ending.Completed?
    requires Join(chunks) == ChatStream.Wire(Sent(t)) && Numbered(RowsOf(db.messages, r.c))
    ensures var read := ChatStream.Reading(Join(chunks));
      && !read.threw
      && Accumulated(read.events) == Utf16(Join(Deltas(run.events)))
      && (run.failure.None? ==> Accumulated(read.events) == Utf16(run.events[|run.events| - 1].completion.text))
      && ServerLog(t.committed, r.c) == ServerLog(db, r.c) + [Said(USER, Utf16(PyStrip(r.content)))]
           + (if run.failure.None? || Accumulated(read.events) != [] then [Said(ASSISTANT, Accumulated(read.events))]
               else [])
      && Replies(read.events) == ReplyOf(run)
  {
    var opening, deltas, last := SentByCompletedTurn(r, db, run, provider, model, faults, t);
    ChatStream.EventsRoundTrip(Sent(t));
    RepliesOfTurn(opening, deltas, last, ChatStream.ClientViews(Sent(t)));
    if run.failure.None? { ReportedIsStreamed(run); }
    ServerAddsTurn(r, db, run, provider, model, faults, t);
  }

  predicate SomeText(texts: seq<PyString>) {
    exists i :: 0 <= i < |texts| && texts[i] != []
  }

  lemma {:induction false} JoinIsEmpty(texts: seq<PyString>)
    ensures Join(texts) != [] <==> SomeText(texts)
  {
    if texts != [] { JoinIsEmpty(texts[1..]); }
  }

  lemma FailedLast(r: Request, db: ChatDb, run: Attempt, provider: string, model: string, faults: Faults,
                   closing: TurnResult)
    requires MeetsContract(run) && closing == Closing(r, db, run, provider, model, faults) && |closing.trace| == 1
    requires run.failure.Some?
    ensures closing.trace[0].event == Failed(run.failure.value.Code(), run.failure.value.message,
        Some(Deltas(run.events) != []))
  {
  }

  lemma FailedTurnSends(r: Request, db: ChatDb, run: Attempt, provider: string, model: string, faults: Faults,
                        t: TurnResult)
    requires MeetsContract(run) && t == WholeTurn(r, db, run, provider, model, faults) && t.ending.Completed?
    requires run.failure.Some?
    ensures Sent(t) != []
    ensures Sent(t)[|Sent(t)| - 1]
      == Failed(run.failure.value.Code(), run.failure.value.message, Some(Deltas(run.events) != []))
  {
    var db1, closing := TurnHasShape(r, db, run, provider, model, faults, t);
    ShapeSends(t, db, r, Deltas(run.events), db1, closing);
    FailedLast(r, db1, run, provider, model, faults, closing);
  }

  lemma KeptExactlyWhenSomeText(run: Attempt)
    requires MeetsContract(run) && run.failure.Some?
    ensures ReplyOf(run) != [] <==> SomeText(Deltas(run.events))
  {
    JoinIsEmpty(Deltas(run.events));
  }

  /** The `partial` flag of an error tells whether a partial reply was stored, except for a provider
      that streamed nothing but empty deltas. */
  lemma PartialFlagIsTruthfulUnlessAllDeltasEmpty(r: Request, db: ChatDb, run: Attempt, provider: string, model: string,
                                                  faults: Faults, t: TurnResult)
    returns (flag: bool)
    requires MeetsContract(run) && t == WholeTurn(r, db, run, provider, model, faults) && t.ending.Completed?
    requires run.failure.Some?
    ensures Sent(t) != []
    ensures Sent(t)[|Sent(t)| - 1] == Failed(run.failure.value.Code(), run.failure.value.message, Some(flag))
    ensures (flag <==> ReplyOf(run) != []) <==> Deltas(run.events) == [] || SomeText(Deltas(run.events))
  {
    flag := Deltas(run.events) != [];
    FailedTurnSends(r, db, run, provider, model, faults, t);
    KeptExactlyWhenSomeText(run);
  }

  // --- identifiers --------------------------------------------------------------------------

  lemma {:induction false} DeltasKeepMessages(s: ChatState, first: ClientEvent, deltas: seq<ClientEvent>, ids: LocalIds)
    requires forall i :: 0 <= i < |deltas| ==> deltas[i].DeltaArrived?
    ensures Played(s, [first] + deltas, ids).messages == Played(s, [first], ids).messages
  {
    if deltas == [] {
      assert [first] + deltas == [first];
    } else {
      var init := deltas[..|deltas| - 1];
      DeltasKeepMessages(s, first, init, ids);
      assert ([first] + deltas)[..|deltas|] == [first] + init;
    }
  }

  /** After a completed turn the client knows its question, and on success the reply, by the ids
      under which they are stored. */
  lemma ClientLearnsStoredIds(s: ChatState, content: JsString, ids: LocalIds, question: JsString, conversation: JsString,
                              deltas: seq<ClientEvent>, last: ClientEvent, thrown: Option<JsString>)
    requires !JsBlank(content) && forall i :: 0 <= i < |deltas| ==> deltas[i].DeltaArrived?
    requires Ends(last)
    ensures var messages :=
        AfterSend(s, content, [UserConfirmed(question, conversation)] + deltas + [last], thrown, ids).messages;
      && |messages| > |s.messages|
      && messages[|s.messages|].id == question
      && (last.TurnDone? ==>
            && |messages| == |s.messages| + 2
            && messages[|s.messages| + 1].id == StringOf(Lookup(last.metadata, Js(MESSAGE_ID))))
  {
    var first := UserConfirmed(question, conversation);
    var echoed := WithEcho(s, content, ids);
    DeltasKeepMessages(echoed, first, deltas, ids);
    assert ([first] + deltas + [last])[..|deltas| + 1] == [first] + deltas;
    assert [first][..0] == [];
    assert Played(echoed, [first], ids) == Applied(echoed, first, Accumulated([first]), ids);
  }

  lemma FirstAndLastSent(t: TurnResult, opening: TurnEvent, deltas: seq<TurnEvent>, last: TurnEvent)
    requires Sent(t) == [opening] + deltas + [last] && t.ending.Completed?
    ensures |t.trace| > 0 && t.trace[0].event == opening && t.trace[|t.trace| - 1].event == last
  {
    assert Sent(t) == EventsOf(t.trace);
    assert Sent(t)[0] == opening && Sent(t)[|Sent(t)| - 1] == last;
  }

  /** The events that open and close a completed turn name the rows it has stored. */
  lemma SentNamesStoredRows(r: Request, db: ChatDb, run: Attempt, provider: string, model: string, faults: Faults,
                            t: TurnResult)
    returns (opening: TurnEvent, deltas: seq<TurnEvent>, last: TurnEvent)
    requires MeetsContract(run) && t == WholeTurn(r, db, run, provider, model, faults) && t.ending.Completed?
    ensures Sent(t) == [opening] + deltas + [last] && opening.UserMessage?
    ensures forall i :: 0 <= i < |deltas| ==> deltas[i].Delta?
    ensures if run.failure.None? then last.Done? else last.Failed?
    ensures var text, own := Join(Deltas(run.events)), RowsAdded(db, run);
      Backed(opening, t.committed, own, r.c, PyStrip(r.content), text)
      && Backed(last, t.committed, own, r.c, PyStrip(r.content), text)
  {
    opening, deltas, last := SentByCompletedTurn(r, db, run, provider, model, faults, t);
    FirstAndLastSent(t, opening, deltas, last);
    PersistedBeforeAnnounced(r, db, run, provider, model, faults, t, None, 0);
    PersistedBeforeAnnounced(r, db, run, provider, model, faults, t, None, |t.trace| - 1);
  }

  lemma ViewsOfCompleted(opening: TurnEvent, deltas: seq<TurnEvent>, last: TurnEvent) returns (views: seq<ClientEvent>)
    requires forall i :: 0 <= i < |deltas| ==> deltas[i].Delta?
    ensures ChatStream.ClientViews([opening] + deltas + [last]) == [ClientView(opening)] + views + [ClientView(last)]
    ensures forall i :: 0 <= i < |views| ==> views[i].DeltaArrived?
  {
    views := ChatStream.ClientViews(deltas);
  }

  /** After a completed turn, however its body was cut, the client's list holds the question under
      the id of the row stored for it, and after a success the reply under the id of its row. */
  lemma ClientHoldsStoredIds(r: Request, db: ChatDb, run: Attempt, provider: string, model: string, faults: Faults,
                             t: TurnResult, chunks: seq<string>, s: ChatState, ids: LocalIds)
    requires MeetsContract(run) && t == WholeTurn(r, db, run, provider, model, faults) && t.ending.Completed?
    requires Join(chunks) == ChatStream.Wire(Sent(t)) && !JsBlank(Utf16(r.content))
    ensures var shown, stored := ClientAfter(s, r, t, chunks, ids).messages, t.committed.messages;
      var n, m := |s.messages|, |db.messages|;
      && n < |shown| && MessageAt(t.committed, Some(m), r.c, USER, PyStrip(r.content))
      && shown[n].id == Utf16(IdText(stored[m].id))
      && (run.failure.None? ==>
            && |shown| == n + 2 && MessageAt(t.committed, Some(m + 1), r.c, ASSISTANT, Join(Deltas(run.events)))
            && shown[n + 1].id == Utf16(IdText(stored[m + 1].id)))
  {
    var opening, deltas, last := SentNamesStoredRows(r, db, run, provider, model, faults, t);
    ChatStream.EventsRoundTrip(Sent(t));
    var views := ViewsOfCompleted(opening, deltas, last);
    ClientLearnsStoredIds(s, Utf16(r.content), ids, ClientView(opening).messageId, ClientView(opening).conversationId,
                          views, ClientView(last), None);
    if run.failure.None? { DoneField(last.metadata); }
  }

  // --- replication --------------------------------------------------------------------------

  ghost predicate InSync(s: ChatState, db: ChatDb, c: ConversationId) {
    Projected(s.messages) == ServerLog(db, c)
  }

  /** A confirmed turn that ended in done or error keeps the client's list equal to the server's log
      exactly when the content had no surrounding whitespace: the server strips it, the client does not. */
  lemma TurnKeepsSyncExactlyWhenStripped(r: Request, db: ChatDb, run: Attempt, provider: string, model: string,
                                         faults: Faults, t: TurnResult, chunks: seq<string>, s: ChatState, ids: LocalIds)
    requires MeetsContract(run) && t == WholeTurn(r, db, run, provider, model, faults) && t.ending.Completed?
    requires Join(chunks) == ChatStream.Wire(Sent(t)) && Numbered(RowsOf(db.messages, r.c))
    requires InSync(s, db, r.c) && !JsBlank(Utf16(r.content))
    ensures Numbered(RowsOf(t.committed.messages, r.c))
    ensures InSync(ClientAfter(s, r, t, chunks, ids), t.committed, r.c) <==> PyStrip(r.content) == r.content
  {
    var read := ChatStream.Reading(Join(chunks));
    SeenStoredAndReportedAgree(r, db, run, provider, model, faults, t, chunks);
    ServerAddsTurn(r, db, run, provider, model, faults, t);
    SendAppends(s, Utf16(r.content), read.events, None, ids);
    var client := Projected(s.messages) + [Said(USER, Utf16(r.content))] + ReplyOf(run);
    var server := Projected(s.messages) + [Said(USER, Utf16(PyStrip(r.content)))] + ReplyOf(run);
    assert client[|s.messages|].content == Utf16(r.content) && server[|s.messages|].content == Utf16(PyStrip(r.content));
    Utf16Length(r.content);
  }

  /** What the page sends is trimmed, so a confirmed turn keeps the client's list equal to the log
      exactly when neither end of the content is one of U+001C to U+001F and U+0085, which Python
      strips and JavaScript does not. */
  lemma TrimmedTurnKeepsSyncExactly(r: Request, db: ChatDb, run: Attempt, provider: string, model: string, faults: Faults,
                                    t: TurnResult, chunks: seq<string>, s: ChatState, ids: LocalIds)
    requires MeetsContract(run) && t == WholeTurn(r, db, run, provider, model, faults) && t.ending.Completed?
    requires Join(chunks) == ChatStream.Wire(Sent(t)) && Numbered(RowsOf(db.messages, r.c))
    requires InSync(s, db, r.c) && Trimmed(Utf16(r.content))
    ensures r.content != []
    ensures InSync(ClientAfter(s, r, t, chunks, ids), t.committed, r.c) <==>
      !OnlyPySpace(r.content[0]) && !OnlyPySpace(r.content[|r.content| - 1])
  {
    TrimmedIsStrippedExactly(r.content);
    TurnKeepsSyncExactlyWhenStripped(r, db, run, provider, model, faults, t, chunks, s, ids);
  }

  lemma Utf16Length(s: PyString)
    ensures Utf16(s) == Utf16(PyStrip(s)) <==> PyStrip(s) == s
  {
    StripIsShorter(s);
  }

  /** Stripping removes code units whenever it removes anything. */
  lemma {:induction false} StripIsShorter(s: PyString)
    ensures |Utf16(PyStrip(s))| <= |Utf16(s)|
    ensures PyStrip(s) != s ==> |Utf16(PyStrip(s))| < |Utf16(s)|
    decreases |s|
  {
    if s != [] {
      if PySpace(s[0]) {
        StripIsShorter(s[1..]);
      } else if PySpace(s[|s| - 1]) {
        assert s == s[..|s| - 1] + [s[|s| - 1]];
        Utf16Append(s[..|s| - 1], [s[|s| - 1]]);
        StripIsShorter(s[..|s| - 1]);
      }
    }
  }

  /** One turn as both sides live it: the request, what the provider did, and the chunks read. */
  datatype Turn = Turn(r: Request, run: Run, provider: string, model: string, faults: Faults, chunks: seq<string>,
                       ids: LocalIds)

  type Run = a: Attempt | MeetsContract(a) witness Attempt([], Some(TIMED_OUT))

  datatype Sides = Sides(db: ChatDb, client: ChatState)

  ghost function Served(db: ChatDb, turn: Turn): TurnResult {
    WholeTurn(turn.r, db, turn.run, turn.provider, turn.model, turn.faults)
  }

  /** The turn was confirmed, ended in done or error, was read completely, and its content was
      stripped and sendable. */
  ghost predicate Confirmed(db: ChatDb, turn: Turn) {
    && Served(db, turn).ending.Completed?
    && Join(turn.chunks) == ChatStream.Wire(Sent(Served(db, turn)))
    && PyStrip(turn.r.content) == turn.r.content
    && !JsBlank(Utf16(turn.r.content))
  }

  ghost function TakeTurn(sides: Sides, turn: Turn): Sides {
    Sides(Served(sides.db, turn).committed,
          ClientAfter(sides.client, turn.r, Served(sides.db, turn), turn.chunks, turn.ids))
  }

  lemma TurnKeepsSync(sides: Sides, turn: Turn)
    requires InSync(sides.client, sides.db, turn.r.c) && Numbered(RowsOf(sides.db.messages, turn.r.c))
    requires Confirmed(sides.db, turn)
    ensures InSync(TakeTurn(sides, turn).client, TakeTurn(sides, turn).db, turn.r.c)
    ensures Numbered(RowsOf(TakeTurn(sides, turn).db.messages, turn.r.c))
  {
    TurnKeepsSyncExactlyWhenStripped(turn.r, sides.db, turn.run, turn.provider, turn.model, turn.faults,
                                     Served(sides.db, turn), turn.chunks, sides.client, turn.ids);
  }

  /** What happens next: a turn of this client, or anything that leaves the rows of its conversation
      alone, such as the turns of other conversations and users. */
  datatype Step = Mine(turn: Turn) | Others(db: ChatDb)

  ghost predicate Follows(sides: Sides, step: Step, sides': Sides, c: ConversationId) {
    match step
    case Mine(turn) => turn.r.c == c && Confirmed(sides.db, turn) && sides' == TakeTurn(sides, turn)
    case Others(db) => RowsOf(db.messages, c) == RowsOf(sides.db.messages, c) && sides' == Sides(db, sides.client)
  }

  ghost predicate Follow(start: Sides, steps: seq<Step>, sides: seq<Sides>, c: ConversationId) {
    && |sides| == |steps| + 1
    && sides[0] == start
    && forall i, j :: 0 <= i < |steps| && j == i + 1 ==> Follows(sides[i], steps[i], sides[j], c)
  }

  lemma QuestionLeavesRowsAlone(r: Request, db: ChatDb, db1: ChatDb, content: PyString, c: ConversationId)
    requires r.c in db.conversations && r.c != c
    requires UserUnit(db, r.c, content, r.userMessageId, NextSequence(db.messages, r.c)) == Some(db1)
    ensures RowsOf(db1.messages, c) == RowsOf(db.messages, c)
  {
    UserUnitAdds(db, r.c, content, r.userMessageId, NextSequence(db.messages, r.c), db1);
    RowsOfAppended(db.messages, db1.messages[|db.messages|], c);
  }

  lemma ShapeLeavesRowsAlone(t: TurnResult, db: ChatDb, r: Request, texts: seq<PyString>, db1: ChatDb, closing: TurnResult,
                             stopAfter: Option<Positive>, c: ConversationId)
    requires Shape(t, db, r, texts, db1, closing)
    requires t.trace != [] ==> RowsOf(db1.messages, c) == RowsOf(db.messages, c)
    requires t.trace != [] ==> RowsOf(closing.committed.messages, c) == RowsOf(db.messages, c)
    ensures RowsOf(Until(t, stopAfter).committed.messages, c) == RowsOf(db.messages, c)
  {
    var u := Until(t, stopAfter);
    if u.ending.Abandoned? && u != t {
      assert u.trace[stopAfter.value - 1] == t.trace[stopAfter.value - 1];
      EmissionOfShape(t, db, r, texts, db1, closing, None, stopAfter.value - 1);
    }
  }

  /** Turns of other conversations are such steps, however they end and wherever their clients leave. */
  lemma OtherTurnsLeaveRowsAlone(db: ChatDb, turn: Turn, stopAfter: Option<Positive>, c: ConversationId)
    requires turn.r.c != c
    ensures RowsOf(Until(Served(db, turn), stopAfter).committed.messages, c) == RowsOf(db.messages, c)
  {
    var r, t := turn.r, Served(db, turn);
    var db1, closing := TurnHasShape(r, db, turn.run, turn.provider, turn.model, turn.faults, t);
    if t.trace != [] {
      QuestionLeavesRowsAlone(r, db, db1, PyStrip(r.content), c);
      ClosingLeavesRowsAlone(r, db1, turn.run, turn.provider, turn.model, turn.faults, c);
    }
    ShapeLeavesRowsAlone(t, db, r, Deltas(turn.run.events), db1, closing, stopAfter, c);
  }

  lemma ClosingLeavesRowsAlone(r: Request, db: ChatDb, run: Attempt, provider: string, model: string, faults: Faults,
                               c: ConversationId)
    requires MeetsContract(run) && r.c != c
    ensures RowsOf(Closing(r, db, run, provider, model, faults).committed.messages, c) == RowsOf(db.messages, c)
  {
    var closing := Closing(r, db, run, provider, model, faults);
    if closing.committed.messages != db.messages {
      RowsOfAppended(db.messages, closing.committed.messages[|db.messages|], c);
    }
  }

  lemma StepKeepsSync(sides: Sides, step: Step, sides': Sides, c: ConversationId)
    requires InSync(sides.client, sides.db, c) && Numbered(RowsOf(sides.db.messages, c))
    requires Follows(sides, step, sides', c)
    ensures InSync(sides'.client, sides'.db, c) && Numbered(RowsOf(sides'.db.messages, c))
  {
    if step.Mine? { TurnKeepsSync(sides, step.turn); }
  }

  /** Over any sequence of confirmed turns that each ended in done or error, with anything in between
      that happens in other conversations, the client's list, projected to role and content, stays
      the server's ordered log. */
  lemma {:induction false} ReplicaFollowsLog(start: Sides, steps: seq<Step>, sides: seq<Sides>, c: ConversationId, i: nat)
    requires Follow(start, steps, sides, c) && i < |sides|
    requires InSync(start.client, start.db, c) && Numbered(RowsOf(start.db.messages, c))
    ensures InSync(sides[i].client, sides[i].db, c) && Numbered(RowsOf(sides[i].db.messages, c))
  {
    if i > 0 {
      var before := i - 1;
      ReplicaFollowsLog(start, steps, sides, c, before);
      StepKeepsSync(sides[before], steps[before], sides[i], c);
    }
  }
}
