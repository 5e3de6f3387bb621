/** `send_message`: frames the events of a turn, stops when the client is gone, and turns an error
    raised before streaming into an event, since the response status is already sent. */
module ChatEndpoint {
  import opened Wrappers
  import opened Unicode
  import opened Conversations
  import opened LlmProvider
  import opened ChatEvents
  import opened ChatUnits
  import opened ChatService
  import ChatStream

  function EventsOf(trace: seq<Emission>): (r: seq<TurnEvent>)
    ensures |r| == |trace| && forall i :: 0 <= i < |r| ==> r[i] == trace[i].event
  {
    seq(|trace|, i requires 0 <= i < |trace| => trace[i].event)
  }

  /** Everything the endpoint writes for a turn. */
  function Sent(t: TurnResult): seq<TurnEvent> {
    EventsOf(t.trace) + if t.ending.Refused? then [Failed(t.ending.code, t.ending.message, None)] else []
  }

  method Frame(trace: seq<Emission>, ending: Ending) returns (chunks: seq<string>)
    ensures chunks == ChatStream.Encoded(EventsOf(trace)
        + if ending.Refused? then [Failed(ending.code, ending.message, None)] else [])
  {
    chunks := [];
    ghost var sent: seq<TurnEvent> := [];
    for i := 0 to |trace|
      invariant sent == EventsOf(trace[..i])
      invariant chunks == ChatStream.Encoded(sent)
    {
      chunks := EncodeOne(chunks, sent, trace[i].event);
      sent := sent + [trace[i].event];
    }
    assert trace[..|trace|] == trace;
    if ending.Refused? {
      chunks := EncodeOne(chunks, sent, Failed(ending.code, ending.message, None));
    }
  }

  /** `yield event.encode()`. */
  method EncodeOne(chunks: seq<string>, ghost sent: seq<TurnEvent>, e: TurnEvent) returns (more: seq<string>)
    requires chunks == ChatStream.Encoded(sent)
    ensures more == ChatStream.Encoded(sent + [e])
  {
    var chunk := EncodeEvent(e);
    ChatStream.EncodedAppend(sent, e, chunk);
    more := chunks + [chunk];
  }

  /** `disconnectAfter` is the number of events after which the client is found disconnected. */
  method SendMessage(service: ChatService, r: Request, systemPrompt: PyString, attempts: nat -> Attempt, faults: Faults,
                     disconnectAfter: Option<Positive>)
    returns (chunks: seq<string>, ghost t: TurnResult, ghost run: Attempt)
    requires service.session.working == service.session.committed
    requires forall k: nat :: k <= service.provider.maxRetries ==> MeetsContract(attempts(k))
    modifies service.session
    ensures MeetsContract(run)
    ensures t == WholeTurn(r, old(service.session.committed), run, service.provider.name, service.provider.defaultModel,
        faults)
    ensures chunks == ChatStream.Encoded(Sent(Until(t, disconnectAfter)))
    ensures service.session.committed == Until(t, disconnectAfter).committed
  {
    var trace, ending, asked;
    trace, ending, asked, run := service.StreamTurn(r, systemPrompt, attempts, faults, disconnectAfter);
    t := WholeTurn(r, old(service.session.committed), run, service.provider.name, service.provider.defaultModel, faults);
    chunks := Frame(trace, ending);
  }

  // --- the shape of a turn ------------------------------------------------------------------

  /** Either nothing was announced and nothing committed, or the question was committed as `db1`,
      announced and relayed, and the turn ended by `closing`. */
  ghost predicate Shape(t: TurnResult, db: ChatDb, r: Request, texts: seq<PyString>, db1: ChatDb, closing: TurnResult) {
    if t.trace == [] then (t.ending.Refused? || t.ending.Crashed?) && t.committed == db
    else
      && t == TurnResult([Opening(r, db1)] + Emissions(texts, db1) + closing.trace, closing.ending, closing.committed)
      && (closing.ending.Completed? || closing.ending.Crashed?)
      && (closing.ending.Crashed? ==> closing.trace == [] && closing.committed == db1)
      && (closing.ending.Completed? ==>
            exists e: TurnEvent :: closing.trace == [Emission(e, closing.committed)] && (e.Done? || e.Failed?))
      && db1.messages <= closing.committed.messages && db1.calls <= closing.committed.calls
  }

  lemma ClosingShape(r: Request, db: ChatDb, run: Attempt, provider: string, model: string, faults: Faults)
    requires MeetsContract(run)
    ensures var closing := Closing(r, db, run, provider, model, faults);
      && (closing.ending.Completed? || closing.ending.Crashed?)
      && (closing.ending.Crashed? ==> closing.trace == [] && closing.committed == db)
      && (closing.ending.Completed? ==>
            exists e: TurnEvent :: closing.trace == [Emission(e, closing.committed)] && (e.Done? || e.Failed?))
      && db.messages <= closing.committed.messages && db.calls <= closing.committed.calls
  {
    var closing := Closing(r, db, run, provider, model, faults);
    if closing.ending.Completed? {
      var e := closing.trace[0].event;
      assert closing.trace == [Emission(e, closing.committed)];
    }
  }

  lemma TurnHasShape(r: Request, db: ChatDb, run: Attempt, provider: string, model: string, faults: Faults, t: TurnResult)
    returns (db1: ChatDb, closing: TurnResult)
    requires MeetsContract(run) && t == WholeTurn(r, db, run, provider, model, faults)
    ensures Shape(t, db, r, Deltas(run.events), db1, closing)
    ensures t.trace != [] ==> Owned(db, r.c, r.user)
    ensures t.trace != [] ==>
        UserUnit(db, r.c, PyStrip(r.content), r.userMessageId, NextSequence(db.messages, r.c)) == Some(db1)
    ensures t.trace != [] ==> closing == Closing(r, db1, run, provider, model, faults)
  {
    db1 := db;
    if t.trace != [] {
      db1 := UserUnit(db, r.c, PyStrip(r.content), r.userMessageId, NextSequence(db.messages, r.c)).value;
    }
    ClosingShape(r, db1, run, provider, model, faults);
    closing := Closing(r, db1, run, provider, model, faults);
  }

  // --- the grammar of a stream --------------------------------------------------------------

  /** A prefix of `user_message delta* (done | error)`, or a lone error. */
  predicate IsTurnPrefix(events: seq<TurnEvent>) {
    || (|events| == 1 && events[0].Failed?)
    || forall i :: 0 <= i < |events| ==>
         if i == 0 then events[i].UserMessage?
         else if i < |events| - 1 then events[i].Delta?
         else !events[i].UserMessage?
  }

  predicate Terminal(events: seq<TurnEvent>) {
    |events| > 0 && (events[|events| - 1].Done? || events[|events| - 1].Failed?)
  }

  lemma ShapeGivesGrammar(t: TurnResult, db: ChatDb, r: Request, texts: seq<PyString>, db1: ChatDb, closing: TurnResult,
                          stopAfter: Option<Positive>)
    requires Shape(t, db, r, texts, db1, closing)
    ensures var u := Until(t, stopAfter);
      && IsTurnPrefix(Sent(u))
      && (u.ending.Completed? || u.ending.Refused? ==> Terminal(Sent(u)))
      && (u.ending.Crashed? ==> !Terminal(Sent(u)))
  {
    var u := Until(t, stopAfter);
    if t.trace != [] {
      assert Sent(u) == EventsOf(u.trace);
      assert forall i :: 0 <= i < |u.trace| ==> u.trace[i] == t.trace[i];
    }
  }

  /** Whatever the provider does and the database refuses, and wherever the client leaves, the
      stream follows the grammar; and it ends in done or error unless the database failed or the
      client left. */
  lemma StreamFollowsGrammar(r: Request, db: ChatDb, run: Attempt, provider: string, model: string, faults: Faults,
                             t: TurnResult, stopAfter: Option<Positive>)
    requires MeetsContract(run) && t == WholeTurn(r, db, run, provider, model, faults)
    ensures var u := Until(t, stopAfter);
      && IsTurnPrefix(Sent(u))
      && (u.ending.Completed? || u.ending.Refused? ==> Terminal(Sent(u)))
      && (u.ending.Crashed? ==> !Terminal(Sent(u)))
  {
    var db1, closing := TurnHasShape(r, db, run, provider, model, faults, t);
    ShapeGivesGrammar(t, db, r, Deltas(run.events), db1, closing, stopAfter);
  }

  // --- persist before announce --------------------------------------------------------------

  /** What the provider reports as its text is what it streamed. */
  lemma ReportedIsStreamed(run: Attempt)
    requires MeetsContract(run) && run.failure.None?
    ensures run.events[|run.events| - 1].completion.text == Join(Deltas(run.events))
  {
    assert Deltas(run.events) == Deltas(run.events[..|run.events| - 1]);
  }

  /** The rows a turn adds to `db`, in the order it commits them. */
  function RowsAdded(db: ChatDb, run: Attempt): OwnRows {
    var kept := run.failure.None? || Join(Deltas(run.events)) != [];
    OwnRows(Some(|db.messages|), if kept then Some(|db.messages| + 1) else None, Some(|db.calls|))
  }

  lemma ClosingIsBacked(r: Request, db: ChatDb, db1: ChatDb, run: Attempt, provider: string, model: string, faults: Faults,
                        closing: TurnResult, question: PyString)
    requires MeetsContract(run) && closing == Closing(r, db1, run, provider, model, faults)
    requires |db1.messages| == |db.messages| + 1 && |db1.calls| == |db.calls|
    requires closing.trace != []
    ensures Backed(closing.trace[0].event, closing.committed, RowsAdded(db, run), r.c, question, Join(Deltas(run.events)))
  {
    var text, next := Join(Deltas(run.events)), NextSequence(db1.messages, r.c);
    var asked := Some(|db.messages|);
    if run.failure.None? {
      ReportedIsStreamed(run);
      var k := run.events[|run.events| - 1].completion;
      ReplyIsBacked(db1, r.c, text, k, r.replyId, next, r.latency, closing.committed, asked, question);
    } else {
      FailureIsBacked(db1, r.c, text, run.failure.value, provider, model, r.replyId, next,
                      closing.committed, asked, question, Some(Deltas(run.events) != []));
    }
  }

  /** What the i-th event of a turn is, and the state committed when it is yielded. */
  lemma EmissionOfShape(t: TurnResult, db: ChatDb, r: Request, texts: seq<PyString>, db1: ChatDb, closing: TurnResult,
                        stopAfter: Option<Positive>, i: nat)
    requires Shape(t, db, r, texts, db1, closing) && i < |Until(t, stopAfter).trace|
    ensures var u := Until(t, stopAfter);
      && db1.messages <= u.committed.messages && db1.calls <= u.committed.calls
      && (u.trace[i] == Opening(r, db1)
          || (u.trace[i].event.Delta? && u.trace[i].committed == db1)
          || (closing.trace != [] && u.trace[i] == closing.trace[0]
              && u.committed == closing.committed == u.trace[i].committed))
  {
    var u := Until(t, stopAfter);
    assert u.trace[i] == t.trace[i];
  }

  lemma ShapeIsBacked(t: TurnResult, db: ChatDb, r: Request, texts: seq<PyString>, db1: ChatDb, closing: TurnResult,
                      stopAfter: Option<Positive>, i: nat, own: OwnRows, question: PyString)
    requires Shape(t, db, r, texts, db1, closing) && i < |Until(t, stopAfter).trace|
    requires Backed(Opening(r, db1).event, db1, own, r.c, question, Join(texts))
    requires closing.trace != [] ==> Backed(closing.trace[0].event, closing.committed, own, r.c, question, Join(texts))
    ensures var u := Until(t, stopAfter);
      && Backed(u.trace[i].event, u.trace[i].committed, own, r.c, question, Join(texts))
      && Backed(u.trace[i].event, u.committed, own, r.c, question, Join(texts))
  {
    var u := Until(t, stopAfter);
    EmissionOfShape(t, db, r, texts, db1, closing, stopAfter, i);
    BackedStays(u.trace[i].event, u.trace[i].committed, u.committed, own, r.c, question, Join(texts));
  }

  /** Whatever an event announces was committed by this turn before it was yielded: the question
      before user_message, the whole reply and its record before done, the kept part, if any, and its
      record before error. Each is a row that `db` did not have. Leaving at any point takes none of
      it back. */
  lemma PersistedBeforeAnnounced(r: Request, db: ChatDb, run: Attempt, provider: string, model: string, faults: Faults,
                                 t: TurnResult, stopAfter: Option<Positive>, i: nat)
    requires MeetsContract(run) && t == WholeTurn(r, db, run, provider, model, faults)
    requires i < |Until(t, stopAfter).trace|
    ensures var u := Until(t, stopAfter);
      var question, text, own := PyStrip(r.content), Join(Deltas(run.events)), RowsAdded(db, run);
      && Backed(u.trace[i].event, u.trace[i].committed, own, r.c, question, text)
      && Backed(u.trace[i].event, u.committed, own, r.c, question, text)
  {
    var db1, closing := TurnHasShape(r, db, run, provider, model, faults, t);
    var question, text, own := PyStrip(r.content), Join(Deltas(run.events)), RowsAdded(db, run);
    var next := NextSequence(db.messages, r.c);
    QuestionIsBacked(db, r.c, question, r.userMessageId, next, db1, own, text);
    UserUnitAdds(db, r.c, question, r.userMessageId, next, db1);
    if closing.trace != [] { ClosingIsBacked(r, db, db1, run, provider, model, faults, closing, question); }
    ShapeIsBacked(t, db, r, Deltas(run.events), db1, closing, stopAfter, i, own, question);
  }

  // --- what is stored of a request ----------------------------------------------------------

  lemma StrippedEnds(s: PyString) returns (i: nat, j: nat)
    requires PyStrip(s) != []
    ensures i < j <= |s| && OuterSpace(s, i, j) && PyStrip(s) == s[i..j]
    ensures !PySpace(s[i]) && !PySpace(s[j - 1])
  {
    i, j := StripKeepsSlice(s);
    assert PyStrip(s)[0] == s[i] && PyStrip(s)[|PyStrip(s)| - 1] == s[j - 1];
  }

  lemma AnsweredIsNotBlank(r: Request, db: ChatDb, run: Attempt, provider: string, model: string, faults: Faults)
    requires MeetsContract(run) && WholeTurn(r, db, run, provider, model, faults).trace != []
    ensures PyStrip(r.content) != []
  {
  }

  /** The question of a turn that has announced it. */
  lemma QuestionRow(r: Request, db: ChatDb, run: Attempt, provider: string, model: string, faults: Faults, t: TurnResult)
    requires MeetsContract(run) && t == WholeTurn(r, db, run, provider, model, faults) && t.trace != []
    ensures |t.committed.messages| > |db.messages|
    ensures var m := t.committed.messages[|db.messages|];
      m.id == r.userMessageId && m.conversationId == r.c && m.role == USER && m.content == PyStrip(r.content)
  {
    var db1, closing := TurnHasShape(r, db, run, provider, model, faults, t);
    UserUnitAdds(db, r.c, PyStrip(r.content), r.userMessageId, NextSequence(db.messages, r.c), db1);
    assert db1.messages <= t.committed.messages;
  }

  /** The question a turn stores is one slice of what was sent: not empty, without whitespace at its
      ends, and with nothing but whitespace left out around it. */
  lemma StoredQuestionIsStripped(r: Request, db: ChatDb, run: Attempt, provider: string, model: string, faults: Faults,
                                 t: TurnResult)
    returns (i: nat, j: nat)
    requires MeetsContract(run) && t == WholeTurn(r, db, run, provider, model, faults) && t.trace != []
    ensures i < j <= |r.content| && OuterSpace(r.content, i, j)
    ensures !PySpace(r.content[i]) && !PySpace(r.content[j - 1])
    ensures MessageAt(t.committed, Some(|db.messages|), r.c, USER, r.content[i..j])
    ensures t.committed.messages[|db.messages|].id == r.userMessageId
  {
    AnsweredIsNotBlank(r, db, run, provider, model, faults);
    i, j := StrippedEnds(r.content);
    QuestionRow(r, db, run, provider, model, faults, t);
  }

  /** The error a request is refused with, if it is: the checks in their order. */
  function Refusal(r: Request, db: ChatDb): Option<TurnEvent> {
    if AllSpace(r.content) then
      Some(Failed(Py("validation_error"), Py("Message content must not be empty."), None))
    else if |PyStrip(r.content)| > 8000 then
      Some(Failed(Py("validation_error"), Py("Message exceeds the 8000 character limit."), None))
    else if r.c !in db.conversations || db.conversations[r.c].userId != r.user then
      Some(Failed(Py("not_found"), Py("Conversation not found."), None))
    else None
  }

  /** A request is refused exactly when its content is blank, longer than 8000 characters without its
      outer whitespace, or for a conversation that the user does not own. Nothing is stored then, and
      the stream is the one error event that says which. */
  lemma RefusedExactly(r: Request, db: ChatDb, run: Attempt, provider: string, model: string, faults: Faults,
                       t: TurnResult)
    requires MeetsContract(run) && t == WholeTurn(r, db, run, provider, model, faults)
    ensures t.ending.Refused? <==> Refusal(r, db).Some?
    ensures t.ending.Refused? ==> t.trace == [] && t.committed == db && Sent(t) == [Refusal(r, db).value]
  {
    StripIsEmptyExactly(r.content);
    if Refusal(r, db).None? { AcceptedEnds(r, db, run, provider, model, faults); }
  }

  lemma AcceptedEnds(r: Request, db: ChatDb, run: Attempt, provider: string, model: string, faults: Faults)
    requires MeetsContract(run) && Refusal(r, db).None?
    ensures !WholeTurn(r, db, run, provider, model, faults).ending.Refused?
  {
    StripIsEmptyExactly(r.content);
    var asked := UserUnit(db, r.c, PyStrip(r.content), r.userMessageId, NextSequence(db.messages, r.c));
    if asked.Some? { ClosingShape(r, asked.value, run, provider, model, faults); }
  }
}
