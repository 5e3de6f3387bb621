/** Inputs at which the code falls short of what its parts promise together. */
module Divergences {
  import opened Wrappers
  import opened Unicode
  import opened Conversations
  import opened LlmProvider
  import opened ChatEvents
  import opened ChatUnits
  import opened ChatService
  import opened ChatEndpoint
  import opened UseChat
  import opened EndToEnd
  import ChatStream

  const ONE_CONVERSATION := ChatDb(map[0 := Conversation(0, [])], [], [])
  const NEW_CLIENT := ChatState([], None, None, None, false)
  const NO_FAULTS := Faults(false, false, false)

  /** "a", and the same after a next-line control. */
  const LETTER: PyString := [0x61]
  const NEXT_LINE_LETTER: PyString := [0x85, 0x61]

  function Question(content: PyString): Request {
    Request(0, 0, content, 1, 2, "0")
  }

  lemma LetterIsStripped()
    ensures PyStrip(LETTER) == LETTER && PyStrip(NEXT_LINE_LETTER) == LETTER
    ensures Trimmed(Utf16(LETTER)) && Trimmed(Utf16(NEXT_LINE_LETTER))
  {
    assert NEXT_LINE_LETTER[1..] == LETTER;
    assert Utf16(LETTER) == [0x61];
    assert NEXT_LINE_LETTER == [0x85] + LETTER;
    Utf16Append([0x85], LETTER);
    assert Utf16([0x85]) == [0x85];
  }

  /** A turn whose question is accepted is answered. */
  lemma AcceptedIsAnswered(r: Request, db: ChatDb, run: Attempt, provider: string, model: string, faults: Faults)
    returns (db1: ChatDb)
    requires MeetsContract(run) && Owned(db, r.c, r.user) && !faults.onUser
    requires 0 < |PyStrip(r.content)| <= MAX_MESSAGE_LENGTH
    ensures UserUnit(db, r.c, PyStrip(r.content), r.userMessageId, NextSequence(db.messages, r.c)) == Some(db1)
    ensures WholeTurn(r, db, run, provider, model, faults) == AnsweredTurn(r, db1, run, provider, model, faults)
    ensures |db1.messages| == |db.messages| + 1 && db1.messages[|db.messages|].role == USER
  {
    NextSequenceIsFree(db, r.c);
    db1 := UserUnit(db, r.c, PyStrip(r.content), r.userMessageId, NextSequence(db.messages, r.c)).value;
  }

  /** A failure is recorded, with no message when nothing was kept. */
  lemma FailureIsRecorded(r: Request, db: ChatDb, run: Attempt, provider: string, model: string, faults: Faults)
    requires MeetsContract(run) && run.failure.Some?
    ensures var closing := Closing(r, db, run, provider, model, faults);
      && closing.ending == (if faults.onFailure then Crashed else Completed)
      && (faults.onFailure ==> closing.trace == [])
      && (Join(Deltas(run.events)) == [] ==> closing.committed.messages == db.messages)
  {
    NextSequenceIsFree(db, r.c);
  }

  lemma UnrecordedTrace(r: Request, db: ChatDb, run: Attempt, faults: Faults)
    requires MeetsContract(run) && run.failure.Some? && faults.onFailure
    ensures |AnsweredTurn(r, db, run, "", "", faults).trace| == 1 + |Deltas(run.events)|
  {
  }

  /** The turn at hand: the question "a" to a provider that fails after these deltas. */
  lemma FailedTurn(content: PyString, run: Attempt, faults: Faults, t: TurnResult) returns (db1: ChatDb)
    requires PyStrip(content) == LETTER && MeetsContract(run) && run.failure.Some? && !faults.onUser
    requires t == WholeTurn(Question(content), ONE_CONVERSATION, run, "", "", faults)
    ensures t == AnsweredTurn(Question(content), db1, run, "", "", faults)
    ensures t.ending == if faults.onFailure then Crashed else Completed
    ensures |db1.messages| == 1 && db1.messages[0].role == USER
    ensures faults.onFailure ==> |t.trace| == 1 + |Deltas(run.events)|
    ensures Join(Deltas(run.events)) == [] ==> t.committed.messages == db1.messages
  {
    db1 := AcceptedIsAnswered(Question(content), ONE_CONVERSATION, run, "", "", faults);
    FailureIsRecorded(Question(content), db1, run, "", "", faults);
    if faults.onFailure { UnrecordedTrace(Question(content), db1, run, faults); }
  }

  lemma NewClientIsInSync()
    ensures InSync(NEW_CLIENT, ONE_CONVERSATION, 0) && Numbered(RowsOf(ONE_CONVERSATION.messages, 0))
  {
  }

  /** The page trims what was typed, but leaves a next-line control that the server strips: the
      server's log then says "a", and the client's list does not. */
  lemma NextLineBreaksSync(t: TurnResult, chunks: seq<string>, ids: LocalIds)
    requires t == WholeTurn(Question(NEXT_LINE_LETTER), ONE_CONVERSATION, Attempt([], Some(TIMED_OUT)), "", "", NO_FAULTS)
    requires Join(chunks) == ChatStream.Wire(Sent(t))
    ensures t.ending.Completed? && InSync(NEW_CLIENT, ONE_CONVERSATION, 0)
    ensures Trimmed(Utf16(NEXT_LINE_LETTER))
    ensures !InSync(ClientAfter(NEW_CLIENT, Question(NEXT_LINE_LETTER), t, chunks, ids), t.committed, 0)
  {
    LetterIsStripped();
    NewClientIsInSync();
    var _ := FailedTurn(NEXT_LINE_LETTER, Attempt([], Some(TIMED_OUT)), NO_FAULTS, t);
    TurnKeepsSyncExactlyWhenStripped(Question(NEXT_LINE_LETTER), ONE_CONVERSATION, Attempt([], Some(TIMED_OUT)), "", "",
                                     NO_FAULTS, t, chunks, NEW_CLIENT, ids);
  }

  const ONE_EMPTY_DELTA := Attempt([TextDelta([])], Some(TIMED_OUT))

  lemma EmptyDeltaIsNoText()
    ensures MeetsContract(ONE_EMPTY_DELTA) && Deltas(ONE_EMPTY_DELTA.events) == [[]]
        && Join(Deltas(ONE_EMPTY_DELTA.events)) == []
  {
    assert ONE_EMPTY_DELTA.events[..0] == [];
    var none: PyString := [];
    assert Join([none]) == none + Join([none][1..]);
  }

  /** One empty delta before the failure: the error says that something was kept, and nothing is stored
      but the question. */
  lemma EmptyDeltaMakesFlagUntrue(t: TurnResult)
    requires t == WholeTurn(Question(LETTER), ONE_CONVERSATION, ONE_EMPTY_DELTA, "", "", NO_FAULTS)
    ensures t.ending.Completed?
    ensures Sent(t) != []
    ensures Sent(t)[|Sent(t)| - 1] == Failed(TIMED_OUT.Code(), TIMED_OUT.message, Some(true))
    ensures |t.committed.messages| == 1 && t.committed.messages[0].role == USER
  {
    LetterIsStripped();
    EmptyDeltaIsNoText();
    var _ := FailedTurn(LETTER, ONE_EMPTY_DELTA, NO_FAULTS, t);
    FailedTurnSends(Question(LETTER), ONE_CONVERSATION, ONE_EMPTY_DELTA, "", "", NO_FAULTS, t);
  }

  // --- a turn the database ends -------------------------------------------------------------

  lemma NothingEnds(events: seq<TurnEvent>)
    requires forall i :: 0 <= i < |events| ==> events[i].UserMessage? || events[i].Delta?
    ensures forall e :: e in ChatStream.ClientViews(events) ==> !Ends(e)
  {
  }

  lemma CrashedShapeSends(t: TurnResult, db: ChatDb, r: Request, texts: seq<PyString>, db1: ChatDb, closing: TurnResult)
    requires Shape(t, db, r, texts, db1, closing) && t.ending.Crashed?
    ensures forall i :: 0 <= i < |Sent(t)| ==> Sent(t)[i].UserMessage? || Sent(t)[i].Delta?
  {
    forall i | 0 <= i < |t.trace|
      ensures t.trace[i].event.UserMessage? || t.trace[i].event.Delta?
    {
      EmissionOfShape(t, db, r, texts, db1, closing, None, i);
    }
  }

  lemma CrashedTurnSends(r: Request, db: ChatDb, run: Attempt, provider: string, model: string, faults: Faults,
                         t: TurnResult)
    requires MeetsContract(run) && t == WholeTurn(r, db, run, provider, model, faults) && t.ending.Crashed?
    ensures forall i :: 0 <= i < |Sent(t)| ==> Sent(t)[i].UserMessage? || Sent(t)[i].Delta?
  {
    var db1, closing := TurnHasShape(r, db, run, provider, model, faults, t);
    CrashedShapeSends(t, db, r, Deltas(run.events), db1, closing);
  }

  lemma EndedTurnSends(r: Request, db: ChatDb, run: Attempt, provider: string, model: string, faults: Faults,
                       t: TurnResult)
    requires MeetsContract(run) && t == WholeTurn(r, db, run, provider, model, faults) && !t.ending.Crashed?
    ensures Sent(t) != [] && Ends(ClientView(Sent(t)[|Sent(t)| - 1]))
  {
    StreamFollowsGrammar(r, db, run, provider, model, faults, t, None);
    WholeTurnEnds(r, db, run, provider, model, faults, t);
  }

  lemma WholeTurnEnds(r: Request, db: ChatDb, run: Attempt, provider: string, model: string, faults: Faults, t: TurnResult)
    requires MeetsContract(run) && t == WholeTurn(r, db, run, provider, model, faults)
    ensures t.ending.Completed? || t.ending.Refused? || t.ending.Crashed?
  {
  }

  lemma ViewsEndExactly(events: seq<TurnEvent>, crashed: bool)
    requires crashed ==> forall i :: 0 <= i < |events| ==> events[i].UserMessage? || events[i].Delta?
    requires !crashed ==> events != [] && Ends(ClientView(events[|events| - 1]))
    ensures (exists e :: e in ChatStream.ClientViews(events) && Ends(e)) <==> !crashed
  {
    if crashed {
      NothingEnds(events);
    } else {
      var views := ChatStream.ClientViews(events);
      assert views[|events| - 1] in views;
    }
  }

  /** A client that has read the whole body of a turn goes on sending exactly when a database error
      ended the turn and the read that follows reports no failure: the body holds no done or error
      then, so only the exception of a broken response releases the hook. */
  lemma SendingAfterTurnExactlyWhenCrashedQuietly(
      r: Request, db: ChatDb, run: Attempt, provider: string, model: string, faults: Faults, t: TurnResult,
      chunks: seq<string>, thrown: Option<JsString>, s: ChatState, ids: LocalIds)
    requires MeetsContract(run) && t == WholeTurn(r, db, run, provider, model, faults)
    requires Join(chunks) == ChatStream.Wire(Sent(t)) && !JsBlank(Utf16(r.content))
    ensures var read := ChatStream.Reading(Join(chunks));
      && !read.threw
      && (AfterSend(s, Utf16(r.content), read.events, thrown, ids).isSending <==> t.ending.Crashed? && thrown.None?)
  {
    if t.ending.Crashed? { CrashedTurnSends(r, db, run, provider, model, faults, t); }
    else { EndedTurnSends(r, db, run, provider, model, faults, t); }
    ChatStream.EventsRoundTrip(Sent(t));
    ViewsEndExactly(Sent(t), t.ending.Crashed?);
    ReleasedExactlyWhenEnded(s, Utf16(r.content), ChatStream.ClientViews(Sent(t)), thrown, ids);
  }

  /** Such a turn: the provider fails and so does the commit that records it. */
  lemma UnrecordedFailureIsReleasedOnlyByThrow(t: TurnResult, chunks: seq<string>, thrown: Option<JsString>, ids: LocalIds)
    requires t == WholeTurn(Question(LETTER), ONE_CONVERSATION, Attempt([], Some(TIMED_OUT)), "", "",
        Faults(false, false, true))
    requires Join(chunks) == ChatStream.Wire(Sent(t))
    ensures t.ending.Crashed? && |t.trace| == 1
    ensures var read := ChatStream.Reading(Join(chunks));
      AfterSend(NEW_CLIENT, Utf16(LETTER), read.events, thrown, ids).isSending <==> thrown.None?
  {
    LetterIsStripped();
    var silent := Attempt([], Some(TIMED_OUT));
    var _ := FailedTurn(LETTER, silent, Faults(false, false, true), t);
    assert Deltas(silent.events) == [];
    SendingAfterTurnExactlyWhenCrashedQuietly(Question(LETTER), ONE_CONVERSATION, silent, "", "",
                                              Faults(false, false, true), t, chunks, thrown, NEW_CLIENT, ids);
  }
}
