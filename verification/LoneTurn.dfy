/** The two models of a turn agree: a turn that runs alone in the interleaved system sends and commits
    what `stream_turn` does. */
module LoneTurn {
  import opened Wrappers
  import opened Unicode
  import opened Conversations
  import opened LlmProvider
  import LlmErrors
  import opened ChatEvents
  import opened ChatUnits
  import opened ChatService
  import opened ChatEndpoint
  import opened TurnSystem

  lemma {:induction false} RunAppended(s: System, first: seq<Event>, rest: seq<Event>)
    ensures Run(s, first + rest) == Run(Run(s, first), rest)
  {
    if rest == [] {
      assert first + rest == first;
    } else {
      assert (first + rest)[..|first + rest| - 1] == first + rest[..|rest| - 1];
      RunAppended(s, first, rest[..|rest| - 1]);
    }
  }

  lemma RunOne(s: System, e: Event)
    ensures Run(s, [e]) == Next(s, e)
  {
    assert [e][..0] == [];
  }

  // --- the script of a turn -----------------------------------------------------------------

  function Opens(r: Request, faults: Faults): seq<Event> {
    [Begin(r.c, PyStrip(r.content))] + [ReadForQuestion(0)]
    + if faults.onUser then [DatabaseFails(0)] else [CommitQuestion(0, r.userMessageId)] + [Announce(0)]
  }

  function Relays(texts: seq<PyString>): seq<Event> {
    seq(|texts|, i requires 0 <= i < |texts| => Relay(0, texts[i]))
  }

  function Closes(r: Request, run: Attempt, provider: string, model: string, faults: Faults): seq<Event>
    requires MeetsContract(run)
  {
    match run.failure
    case None =>
      [ReadForReply(0, run.events[|run.events| - 1].completion)]
      + if faults.onReply then [DatabaseFails(0)] else [CommitReply(0, r.replyId, r.latency)] + [Conclude(0)]
    case Some(e) =>
      [ReadForFailure(0, e)]
      + if faults.onFailure then [DatabaseFails(0)] else [CommitFailure(0, r.replyId, provider, model)] + [Conclude(0)]
  }

  /** The steps of one turn, from its acceptance to its end. */
  function Script(r: Request, run: Attempt, provider: string, model: string, faults: Faults): seq<Event>
    requires MeetsContract(run)
  {
    Opens(r, faults)
    + if faults.onUser then [] else Relays(Deltas(run.events)) + Closes(r, run, provider, model, faults)
  }

  // --- one step of a lone turn --------------------------------------------------------------

  lemma LoneMove(db: ChatDb, t: Turn, e: Event)
    requires !e.Begin? && !IsCommit(e) && e.turn == 0 && Ready(t, e) && t.c in db.conversations
    ensures Next(System(db, [t]), e) == System(db, [Moved(db, t, e)])
  {
  }

  lemma LoneQuestion(db: ChatDb, t: Turn, id: MessageId, db1: ChatDb)
    requires t.phase.NumberingQuestion? && t.c in db.conversations
    requires UserUnit(db, t.c, t.question, id, t.phase.sequence) == Some(db1)
    ensures Next(System(db, [t]), CommitQuestion(0, id))
      == System(db1, [t.(phase := Asked(id), own := t.own.(question := Some(|db.messages|)))])
  {
  }

  lemma LoneReply(db: ChatDb, t: Turn, id: MessageId, latency: Literal, db': ChatDb)
    requires t.phase.NumberingReply? && t.c in db.conversations
    requires ReplyUnit(db, t.c, Join(t.collected), t.phase.k, id, t.phase.sequence) == Some(db')
    ensures Next(System(db, [t]), CommitReply(0, id, latency))
      == System(db', [Replied(System(db, [t]), t, id, latency)])
  {
  }

  lemma LoneFailure(db: ChatDb, t: Turn, id: MessageId, provider: string, model: string, db': ChatDb)
    requires t.phase.NumberingFailure? && t.c in db.conversations
    requires FailureUnit(db, t.c, Join(t.collected), t.phase.e, provider, model, id, t.phase.sequence) == Some(db')
    ensures Next(System(db, [t]), CommitFailure(0, id, provider, model))
      == System(db', [Failing(System(db, [t]), t)])
  {
  }

  lemma RunTwo(s: System, a: Event, b: Event)
    ensures Run(s, [a] + [b]) == Next(Next(s, a), b)
  {
    RunAppended(s, [a], [b]);
    RunOne(s, a);
    RunOne(Next(s, a), b);
  }

  lemma RunThree(s: System, a: Event, b: Event, c: Event)
    ensures Run(s, [a] + ([b] + [c])) == Next(Next(Next(s, a), b), c)
  {
    RunAppended(s, [a], [b] + [c]);
    RunOne(s, a);
    RunTwo(Next(s, a), b, c);
  }

  // --- part by part -------------------------------------------------------------------------

  /** A turn that relays, and has committed its question as the row `at`. */
  function RelayingTurn(r: Request, db: ChatDb, at: nat, texts: seq<PyString>): Turn {
    Turn(r.c, PyStrip(r.content), Relaying, texts, [Opening(r, db).event] + EventsOf(Emissions(texts, db)),
         OwnRows(Some(at), None, None))
  }

  function Accepting(r: Request): Turn {
    Turn(r.c, PyStrip(r.content), Accepted, [], [], OwnRows(None, None, None))
  }

  function Numbering(r: Request, db: ChatDb): Turn {
    Accepting(r).(phase := NumberingQuestion(NextSequence(db.messages, r.c)))
  }

  lemma BeginAlone(r: Request, db: ChatDb)
    requires r.c in db.conversations
    ensures Next(System(db, []), Begin(r.c, PyStrip(r.content)))
      == System(db, [Accepting(r)])
  {
  }

  lemma ReadAlone(r: Request, db: ChatDb)
    requires r.c in db.conversations
    ensures Run(System(db, []), [Begin(r.c, PyStrip(r.content))] + [ReadForQuestion(0)])
      == System(db, [Numbering(r, db)])
  {
    RunTwo(System(db, []), Begin(r.c, PyStrip(r.content)), ReadForQuestion(0));
    BeginAlone(r, db);
    LoneMove(db, Accepting(r), ReadForQuestion(0));
  }

  function AskedTurn(r: Request, at: nat): Turn {
    Turn(r.c, PyStrip(r.content), Asked(r.userMessageId), [], [], OwnRows(Some(at), None, None))
  }

  lemma AnnouncedIsOpening(r: Request, db: ChatDb, at: nat)
    ensures Moved(db, AskedTurn(r, at), Announce(0)) == RelayingTurn(r, db, at, [])
  {
    assert EventsOf(Emissions([], db)) == [];
  }

  lemma CommitAlone(r: Request, db: ChatDb, db1: ChatDb)
    requires r.c in db.conversations
    requires UserUnit(db, r.c, PyStrip(r.content), r.userMessageId, NextSequence(db.messages, r.c)) == Some(db1)
    ensures r.c in db1.conversations
    ensures Next(System(db, [Numbering(r, db)]), CommitQuestion(0, r.userMessageId))
      == System(db1, [AskedTurn(r, |db.messages|)])
  {
    LoneQuestion(db, Numbering(r, db), r.userMessageId, db1);
  }

  lemma AnnounceAlone(r: Request, db: ChatDb, at: nat)
    requires r.c in db.conversations
    ensures Next(System(db, [AskedTurn(r, at)]), Announce(0))
      == System(db, [RelayingTurn(r, db, at, [])])
  {
    LoneMove(db, AskedTurn(r, at), Announce(0));
    AnnouncedIsOpening(r, db, at);
  }

  lemma AskAlone(r: Request, db: ChatDb, db1: ChatDb)
    requires r.c in db.conversations
    requires UserUnit(db, r.c, PyStrip(r.content), r.userMessageId, NextSequence(db.messages, r.c)) == Some(db1)
    ensures Run(System(db, [Numbering(r, db)]), [CommitQuestion(0, r.userMessageId)] + [Announce(0)])
      == System(db1, [RelayingTurn(r, db1, |db.messages|, [])])
  {
    RunTwo(System(db, [Numbering(r, db)]), CommitQuestion(0, r.userMessageId), Announce(0));
    CommitAlone(r, db, db1);
    AnnounceAlone(r, db1, |db.messages|);
  }

  lemma OpenAlone(r: Request, db: ChatDb, db1: ChatDb, faults: Faults)
    requires r.c in db.conversations && !faults.onUser
    requires UserUnit(db, r.c, PyStrip(r.content), r.userMessageId, NextSequence(db.messages, r.c)) == Some(db1)
    ensures Run(System(db, []), Opens(r, faults))
      == System(db1, [RelayingTurn(r, db1, |db.messages|, [])])
  {
    ReadAlone(r, db);
    AskAlone(r, db, db1);
    RunAppended(System(db, []), [Begin(r.c, PyStrip(r.content))] + [ReadForQuestion(0)],
                [CommitQuestion(0, r.userMessageId)] + [Announce(0)]);
  }

  /** The commit of the question fails: nothing is stored, nothing is sent. */
  lemma RefusedAlone(r: Request, db: ChatDb, faults: Faults)
    requires r.c in db.conversations && faults.onUser
    ensures Run(System(db, []), Opens(r, faults))
      == System(db, [Numbering(r, db).(phase := Aborted)])
  {
    ReadAlone(r, db);
    RunAppended(System(db, []), [Begin(r.c, PyStrip(r.content))] + [ReadForQuestion(0)],
                [DatabaseFails(0)]);
    RunOne(System(db, [Numbering(r, db)]), DatabaseFails(0));
    LoneMove(db, Numbering(r, db), DatabaseFails(0));
  }

  lemma RelayOneAlone(r: Request, db: ChatDb, at: nat, init: seq<PyString>, last: PyString)
    requires r.c in db.conversations
    ensures Next(System(db, [RelayingTurn(r, db, at, init)]), Relay(0, last))
      == System(db, [RelayingTurn(r, db, at, init + [last])])
  {
    LoneMove(db, RelayingTurn(r, db, at, init), Relay(0, last));
    var opening := [Opening(r, db).event];
    assert opening + EventsOf(Emissions(init + [last], db)) == opening + EventsOf(Emissions(init, db)) + [Delta(last)];
  }

  lemma {:induction false} RelayAlone(r: Request, db: ChatDb, at: nat, texts: seq<PyString>)
    requires r.c in db.conversations
    ensures Run(System(db, [RelayingTurn(r, db, at, [])]), Relays(texts))
      == System(db, [RelayingTurn(r, db, at, texts)])
  {
    if texts == [] {
      assert Relays(texts) == [];
    } else {
      var init, last := texts[..|texts| - 1], texts[|texts| - 1];
      RelayAlone(r, db, at, init);
      RelayOneAlone(r, db, at, init, last);
      assert Relays(texts) == Relays(init) + [Relay(0, last)] && texts == init + [last];
      RunAppended(System(db, [RelayingTurn(r, db, at, [])]), Relays(init), [Relay(0, last)]);
      RunOne(System(db, [RelayingTurn(r, db, at, init)]), Relay(0, last));
    }
  }

  /** What the last part leaves, for a turn that has relayed everything. */
  ghost predicate ClosesAs(s': System, t: Turn, closing: TurnResult) {
    && s'.db == closing.committed && |s'.turns| == 1
    && s'.turns[0].announced == t.announced + EventsOf(closing.trace)
    && s'.turns[0].phase == if closing.ending.Completed? then Over else Aborted
  }

  lemma AbortAlone(r: Request, db: ChatDb, t: Turn, read: Event)
    requires r.c in db.conversations && t.phase.Relaying? && t.c == r.c
    requires (read.ReadForReply? || read.ReadForFailure?) && read.turn == 0 && Ready(t, read)
    ensures ClosesAs(Run(System(db, [t]), [read] + [DatabaseFails(0)]), t, TurnResult([], Crashed, db))
  {
    RunTwo(System(db, [t]), read, DatabaseFails(0));
    LoneMove(db, t, read);
    LoneMove(db, Moved(db, t, read), DatabaseFails(0));
  }

  /** The end of a lone turn that has recorded its call. */
  lemma ConcludeAlone(r: Request, db: ChatDb, t: Turn, recorded: Turn, last: TurnEvent)
    requires recorded.phase == Recorded(last) && recorded.c == r.c && r.c in db.conversations
    requires recorded.announced == t.announced
    ensures ClosesAs(Next(System(db, [recorded]), Conclude(0)), t,
        TurnResult([Emission(last, db)], Completed, db))
  {
    LoneMove(db, recorded, Conclude(0));
    assert EventsOf([Emission(last, db)]) == [last];
  }

  /** Three steps of which the last concludes. */
  lemma ThreeSteps(s: System, a: Event, b: Event, read: System, recorded: System, t: Turn, closing: TurnResult)
    requires Next(s, a) == read && Next(read, b) == recorded && ClosesAs(Next(recorded, Conclude(0)), t, closing)
    ensures ClosesAs(Run(s, [a] + ([b] + [Conclude(0)])), t, closing)
  {
    RunThree(s, a, b, Conclude(0));
  }

  function ReplyRead(r: Request, db: ChatDb, t: Turn, k: Completion): Turn {
    t.(phase := NumberingReply(NextSequence(db.messages, r.c), k))
  }

  lemma ReadReplyAlone(r: Request, db: ChatDb, t: Turn, k: Completion)
    requires r.c in db.conversations && t.phase.Relaying? && t.c == r.c && k.text == Join(t.collected)
    ensures Next(System(db, [t]), ReadForReply(0, k)) == System(db, [ReplyRead(r, db, t, k)])
  {
    LoneMove(db, t, ReadForReply(0, k));
  }

  lemma RecordReplyAlone(r: Request, db: ChatDb, t: Turn, k: Completion, db': ChatDb, last: TurnEvent)
    returns (recorded: Turn)
    requires r.c in db.conversations && t.c == r.c && k.text == Join(t.collected)
    requires ReplyUnit(db, r.c, k.text, k, r.replyId, NextSequence(db.messages, r.c)) == Some(db')
    requires last == Done(Metadata(r.replyId, k, r.latency))
    ensures Next(System(db, [ReplyRead(r, db, t, k)]), CommitReply(0, r.replyId, r.latency))
      == System(db', [recorded])
    ensures recorded.phase == Recorded(last) && recorded.c == r.c && recorded.announced == t.announced
  {
    var read := ReplyRead(r, db, t, k);
    recorded := Replied(System(db, [read]), read, r.replyId, r.latency);
    LoneReply(db, read, r.replyId, r.latency, db');
  }

  lemma StoreReplyAlone(r: Request, db: ChatDb, t: Turn, k: Completion, db': ChatDb, last: TurnEvent)
    requires r.c in db.conversations && t.phase.Relaying? && t.c == r.c && k.text == Join(t.collected)
    requires ReplyUnit(db, r.c, k.text, k, r.replyId, NextSequence(db.messages, r.c)) == Some(db')
    requires last == Done(Metadata(r.replyId, k, r.latency))
    ensures ClosesAs(Run(System(db, [t]),
                         [ReadForReply(0, k)] + ([CommitReply(0, r.replyId, r.latency)] + [Conclude(0)])), t,
                     TurnResult([Emission(last, db')], Completed, db'))
  {
    ReadReplyAlone(r, db, t, k);
    var recorded := RecordReplyAlone(r, db, t, k, db', last);
    ReplyUnitAdds(db, r.c, k.text, k, r.replyId, NextSequence(db.messages, r.c), db');
    ConcludeAlone(r, db', t, recorded, last);
    ThreeSteps(System(db, [t]), ReadForReply(0, k), CommitReply(0, r.replyId, r.latency),
               System(db, [ReplyRead(r, db, t, k)]), System(db', [recorded]), t,
               TurnResult([Emission(last, db')], Completed, db'));
  }

  lemma StoreFailureAlone(r: Request, db: ChatDb, t: Turn, e: LlmErrors.LlmError, provider: string, model: string,
                          db': ChatDb)
    requires r.c in db.conversations && t.phase.Relaying? && t.c == r.c
    requires FailureUnit(db, r.c, Join(t.collected), e, provider, model, r.replyId, NextSequence(db.messages, r.c))
      == Some(db')
    ensures ClosesAs(Run(System(db, [t]),
                         [ReadForFailure(0, e)] + ([CommitFailure(0, r.replyId, provider, model)] + [Conclude(0)])), t,
                     TurnResult([Emission(Failed(e.Code(), e.message, Some(t.collected != [])), db')], Completed, db'))
  {
    var last := Failed(e.Code(), e.message, Some(t.collected != []));
    var read := t.(phase := NumberingFailure(NextSequence(db.messages, r.c), e));
    var recorded := Failing(System(db, [read]), read);
    LoneMove(db, t, ReadForFailure(0, e));
    LoneFailure(db, read, r.replyId, provider, model, db');
    FailureUnitAdds(db, r.c, Join(t.collected), e, provider, model, r.replyId, NextSequence(db.messages, r.c), db');
    ConcludeAlone(r, db', t, recorded, last);
    ThreeSteps(System(db, [t]), ReadForFailure(0, e), CommitFailure(0, r.replyId, provider, model),
               System(db, [read]), System(db', [recorded]), t,
               TurnResult([Emission(last, db')], Completed, db'));
  }

  lemma CloseAlone(r: Request, db: ChatDb, t: Turn, run: Attempt, provider: string, model: string, faults: Faults)
    requires MeetsContract(run) && r.c in db.conversations
    requires t.phase.Relaying? && t.c == r.c && t.collected == Deltas(run.events)
    ensures ClosesAs(Run(System(db, [t]), Closes(r, run, provider, model, faults)), t,
                     Closing(r, db, run, provider, model, faults))
  {
    NextSequenceIsFree(db, r.c);
    var next := NextSequence(db.messages, r.c);
    if run.failure.None? {
      var k := run.events[|run.events| - 1].completion;
      ReportedIsStreamed(run);
      if faults.onReply {
        AbortAlone(r, db, t, ReadForReply(0, k));
      } else {
        StoreReplyAlone(r, db, t, k, ReplyUnit(db, r.c, k.text, k, r.replyId, next).value,
                        Done(Metadata(r.replyId, k, r.latency)));
      }
    } else if faults.onFailure {
      AbortAlone(r, db, t, ReadForFailure(0, run.failure.value));
    } else {
      StoreFailureAlone(r, db, t, run.failure.value, provider, model,
                        FailureUnit(db, r.c, Join(t.collected), run.failure.value, provider, model, r.replyId, next).value);
    }
  }

  lemma AnsweredAlone(r: Request, db: ChatDb, db1: ChatDb, run: Attempt, provider: string, model: string, faults: Faults)
    requires MeetsContract(run) && r.c in db.conversations && !faults.onUser
    requires UserUnit(db, r.c, PyStrip(r.content), r.userMessageId, NextSequence(db.messages, r.c)) == Some(db1)
    ensures ClosesAs(Run(System(db, []), Script(r, run, provider, model, faults)),
                     RelayingTurn(r, db1, |db.messages|, Deltas(run.events)), Closing(r, db1, run, provider, model, faults))
  {
    var s, texts := System(db, []), Deltas(run.events);
    OpenAlone(r, db, db1, faults);
    RunAppended(s, Opens(r, faults), Relays(texts) + Closes(r, run, provider, model, faults));
    RelayAlone(r, db1, |db.messages|, texts);
    var begun := System(db1, [RelayingTurn(r, db1, |db.messages|, [])]);
    RunAppended(begun, Relays(texts), Closes(r, run, provider, model, faults));
    CloseAlone(r, db1, RelayingTurn(r, db1, |db.messages|, texts), run, provider, model, faults);
  }

  /** A turn as the interleaved system leaves it says what `stream_turn` says. */
  ghost predicate SameTurn(s: System, t: TurnResult) {
    && s.db == t.committed && |s.turns| == 1
    && s.turns[0].announced == EventsOf(t.trace)
    && s.turns[0].phase == if t.ending.Completed? then Over else Aborted
  }

  lemma AnsweredIsSame(s': System, r: Request, db: ChatDb, at: nat, run: Attempt, provider: string, model: string,
                       faults: Faults)
    requires MeetsContract(run)
    requires ClosesAs(s', RelayingTurn(r, db, at, Deltas(run.events)), Closing(r, db, run, provider, model, faults))
    ensures SameTurn(s', AnsweredTurn(r, db, run, provider, model, faults))
  {
    var closing := Closing(r, db, run, provider, model, faults);
    assert EventsOf([Opening(r, db)] + Emissions(Deltas(run.events), db) + closing.trace)
        == [Opening(r, db).event] + EventsOf(Emissions(Deltas(run.events), db)) + EventsOf(closing.trace);
  }

  /** A turn whose question was accepted, run alone, sends the events of `stream_turn`, in order, and
      commits the same rows, whatever the provider does and whichever commit the database refuses. */
  lemma LoneTurnIsWholeTurn(r: Request, db: ChatDb, run: Attempt, provider: string, model: string, faults: Faults,
                            t: TurnResult)
    requires MeetsContract(run) && t == WholeTurn(r, db, run, provider, model, faults) && !t.ending.Refused?
    ensures SameTurn(Run(System(db, []), Script(r, run, provider, model, faults)), t)
  {
    NextSequenceIsFree(db, r.c);
    if faults.onUser {
      RefusedAlone(r, db, faults);
      assert Script(r, run, provider, model, faults) == Opens(r, faults);
    } else {
      var db1 := UserUnit(db, r.c, PyStrip(r.content), r.userMessageId, NextSequence(db.messages, r.c)).value;
      AnsweredAlone(r, db, db1, run, provider, model, faults);
      AnsweredIsSame(Run(System(db, []), Script(r, run, provider, model, faults)), r, db1, |db.messages|,
                     run, provider, model, faults);
    }
  }
}
