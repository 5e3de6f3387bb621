/** The clients of interleaved turns: what each has seen is what was stored, and the list of a client
    that sends one question at a time follows the log, whatever happens meanwhile elsewhere. */
module Replicas {
  import opened Wrappers
  import opened Unicode
  import opened Conversations
  import opened ChatEvents
  import opened ChatUnits
  import opened ChatEndpoint
  import opened UseChat
  import opened TurnSystem
  import ChatStream
  import EndToEnd

  // --- the text a client sees ---------------------------------------------------------------

  /** The deltas announced are the texts collected, and a finished turn has said so. */
  predicate Told(t: Turn) {
    EndToEnd.Texts(t.announced) == t.collected && (t.phase.Over? ==> Terminal(t.announced))
  }

  lemma ToldMore(t: Turn, e: TurnEvent)
    ensures EndToEnd.Texts(t.announced + [e]) == EndToEnd.Texts(t.announced) + if e.Delta? then [e.text] else []
  {
    assert (t.announced + [e])[..|t.announced|] == t.announced;
  }

  lemma MovedKeepsTold(db: ChatDb, t: Turn, e: Event)
    requires TurnOk(db, t) && Told(t) && Ready(t, e) && !IsCommit(e)
    ensures Told(Moved(db, t, e))
  {
    match e
    case Announce(_) => ToldMore(t, UserMessage(IdText(t.phase.id), IdText(t.c)));
    case Relay(_, text) => ToldMore(t, Delta(text));
    case Conclude(_) => ToldMore(t, t.phase.last);
    case _ =>
  }

  ghost predicate AllTold(s: System) {
    forall i :: 0 <= i < |s.turns| ==> Told(s.turns[i])
  }

  lemma UpdateKeepsTold(s: System, s': System, i: nat, t: Turn)
    requires AllTold(s) && i < |s.turns| && s'.turns == s.turns[i := t] && Told(t)
    ensures AllTold(s')
  {
    forall j | 0 <= j < |s'.turns|
      ensures Told(s'.turns[j])
    {
      assert j != i ==> Told(s.turns[j]);
    }
  }

  lemma CommitKeepsTold(s: System, e: Event)
    requires AllTold(s) && Enabled(s, e) && IsCommit(e)
    ensures AllTold(Next(s, e))
  {
    assert Told(s.turns[e.turn]);
    UpdateKeepsTold(s, Next(s, e), e.turn, Next(s, e).turns[e.turn]);
  }

  lemma MoveKeepsTold(s: System, e: Event)
    requires AllTold(s) && Enabled(s, e) && !IsCommit(e) && !e.Begin? && TurnOk(s.db, s.turns[e.turn])
    ensures AllTold(With(s, e.turn, Moved(s.db, s.turns[e.turn], e)))
  {
    var t, t' := s.turns[e.turn], Moved(s.db, s.turns[e.turn], e);
    assert Told(t);
    MovedKeepsTold(s.db, t, e);
    UpdateKeepsTold(s, With(s, e.turn, t'), e.turn, t');
  }

  lemma NextKeepsTold(s: System, e: Event)
    requires Inv(s) && AllTold(s)
    ensures AllTold(Next(s, e))
  {
    if Enabled(s, e) {
      if IsCommit(e) { CommitKeepsTold(s, e); } else if !e.Begin? { MoveKeepsTold(s, e); }
    }
  }

  lemma {:induction false} RunKeepsTold(s: System, events: seq<Event>)
    requires Initial(s)
    ensures AllTold(Run(s, events))
  {
    if events != [] {
      RunKeepsTold(s, events[..|events| - 1]);
      RunKeepsInv(s, events[..|events| - 1]);
      NextKeepsTold(Run(s, events[..|events| - 1]), events[|events| - 1]);
    }
  }

  /** In every interleaving, however the body of a turn is cut or breaks off: the text its client has
      accumulated is a prefix of the text relayed, all of it when the body arrived, and the reply the
      turn stored, if it stored one, is the text relayed. */
  lemma SeenIsStoredInEveryInterleaving(s: System, events: seq<Event>, i: nat, body: string)
    requires Initial(s) && i < |Run(s, events).turns|
    requires body <= ChatStream.Wire(Run(s, events).turns[i].announced)
    ensures var s' := Run(s, events);
      var t := s'.turns[i];
      var read := ChatStream.Reading(body);
      && !read.threw && Accumulated(read.events) <= Utf16(Join(t.collected))
      && (body == ChatStream.Wire(t.announced) ==> Accumulated(read.events) == Utf16(Join(t.collected)))
      && (t.own.reply.Some? ==> MessageAt(s'.db, t.own.reply, t.c, ASSISTANT, Join(t.collected)))
  {
    RunKeepsInv(s, events);
    RunKeepsTold(s, events);
    var s' := Run(s, events);
    StoredIsRelayed(s'.db, s'.turns[i]);
    SeenIsRelayed(s'.turns[i], body);
  }

  lemma StoredIsRelayed(db: ChatDb, t: Turn)
    requires TurnOk(db, t)
    ensures t.own.reply.Some? ==> MessageAt(db, t.own.reply, t.c, ASSISTANT, Join(t.collected))
  {
  }

  lemma SeenIsRelayed(t: Turn, body: string)
    requires Told(t) && body <= ChatStream.Wire(t.announced)
    ensures var read := ChatStream.Reading(body);
      && !read.threw && Accumulated(read.events) <= Utf16(Join(t.collected))
      && (body == ChatStream.Wire(t.announced) ==> Accumulated(read.events) == Utf16(Join(t.collected)))
  {
    EndToEnd.LossyClientSeesPrefix(t.announced, body, ChatStream.Reading(body));
    if body == ChatStream.Wire(t.announced) {
      ChatStream.EventsRoundTrip(t.announced);
      EndToEnd.AccumulatedIsJoined(t.announced);
    }
  }

  // --- what the turns of a conversation say -------------------------------------------------

  /** What a turn has added to its conversation. */
  function TurnSaid(t: Turn): seq<Said> {
    (if t.own.question.Some? then [Said(USER, Utf16(t.question))] else [])
    + if t.own.reply.Some? then [Said(ASSISTANT, Utf16(Join(t.collected)))] else []
  }

  function SaidIn(turns: seq<Turn>, c: ConversationId): seq<Said> {
    if turns == [] then []
    else
      var last := turns[|turns| - 1];
      SaidIn(turns[..|turns| - 1], c) + if last.c == c then TurnSaid(last) else []
  }

  /** The client of `c` sends one question at a time: a turn begins only when the earlier ones have
      reached their terminal events. */
  predicate Quiet(s: System, c: ConversationId) {
    forall i :: 0 <= i < |s.turns| && s.turns[i].c == c ==> s.turns[i].phase.Over?
  }

  ghost predicate OneAtATime(s: System, events: seq<Event>, c: ConversationId) {
    if events == [] then true
    else
      var before, e := events[..|events| - 1], events[|events| - 1];
      OneAtATime(s, before, c) && (e.Begin? && e.c == c ==> Quiet(Run(s, before), c))
  }

  predicate Sequential(turns: seq<Turn>, c: ConversationId) {
    forall i, j :: 0 <= i < j < |turns| && turns[i].c == c && turns[j].c == c ==> turns[i].phase.Over?
  }

  /** The log is what it was, and what the turns have said since. */
  ghost predicate LogIsSaid(base: seq<Said>, s: System, c: ConversationId) {
    Sequential(s.turns, c) && EndToEnd.ServerLog(s.db, c) == base + SaidIn(s.turns, c)
  }

  /** Changing a turn of another conversation, or one that says no more than before, changes nothing. */
  lemma {:induction false} SaidAfterSame(turns: seq<Turn>, i: nat, t: Turn, c: ConversationId)
    requires i < |turns| && t.c == turns[i].c && (t.c == c ==> TurnSaid(t) == TurnSaid(turns[i]))
    ensures SaidIn(turns[i := t], c) == SaidIn(turns, c)
  {
    var init := turns[..|turns| - 1];
    if i == |turns| - 1 {
      assert turns[i := t][..|turns| - 1] == init;
    } else {
      SaidAfterSame(init, i, t, c);
      assert turns[i := t][..|turns| - 1] == init[i := t];
    }
  }

  lemma SaidInMore(init: seq<Turn>, t: Turn, c: ConversationId)
    ensures SaidIn(init + [t], c) == SaidIn(init, c) + if t.c == c then TurnSaid(t) else []
  {
    assert (init + [t])[..|init|] == init;
  }

  lemma {:induction false} SaidAfterOthers(turns: seq<Turn>, n: nat, c: ConversationId)
    requires n <= |turns| && forall j :: n <= j < |turns| ==> turns[j].c != c
    ensures SaidIn(turns, c) == SaidIn(turns[..n], c)
  {
    if n == |turns| {
      assert turns[..n] == turns;
    } else {
      var init := turns[..|turns| - 1];
      SaidAfterOthers(init, n, c);
      assert init[..n] == turns[..n];
    }
  }

  /** What the last turn of a conversation adds, it adds at the end. */
  lemma SaidAfterMore(turns: seq<Turn>, i: nat, t: Turn, c: ConversationId, more: seq<Said>)
    requires i < |turns| && t.c == turns[i].c == c && TurnSaid(t) == TurnSaid(turns[i]) + more
    requires forall j :: i < j < |turns| ==> turns[j].c != c
    ensures SaidIn(turns[i := t], c) == SaidIn(turns, c) + more
  {
    var before := turns[..i];
    SaidAfterOthers(turns, i + 1, c);
    SaidAfterOthers(turns[i := t], i + 1, c);
    assert turns[..i + 1] == before + [turns[i]] && turns[i := t][..i + 1] == before + [t];
    SaidInMore(before, turns[i], c);
    SaidInMore(before, t, c);
    Assoc(SaidIn(before, c), TurnSaid(turns[i]), more);
  }

  lemma UpdateKeepsSequential(turns: seq<Turn>, i: nat, t: Turn, c: ConversationId)
    requires Sequential(turns, c) && i < |turns| && !turns[i].phase.Over? && t.c == turns[i].c
    ensures Sequential(turns[i := t], c)
    ensures t.c == c ==> forall j :: i < j < |turns| ==> turns[j].c != c
  {
  }

  /** A step of one turn that is not over yet and says no more of `c` than before. */
  lemma SilentStepKeepsLog(base: seq<Said>, s: System, s': System, i: nat, t: Turn, c: ConversationId)
    requires LogIsSaid(base, s, c) && i < |s.turns| && !s.turns[i].phase.Over?
    requires s'.turns == s.turns[i := t] && t.c == s.turns[i].c
    requires t.c == c ==> TurnSaid(t) == TurnSaid(s.turns[i])
    requires EndToEnd.ServerLog(s'.db, c) == EndToEnd.ServerLog(s.db, c)
    ensures LogIsSaid(base, s', c)
  {
    SaidAfterSame(s.turns, i, t, c);
    UpdateKeepsSequential(s.turns, i, t, c);
  }

  /** A step that says more, and commits it. */
  lemma SpokenStepKeepsLog(base: seq<Said>, s: System, s': System, i: nat, t: Turn, c: ConversationId, more: seq<Said>)
    requires LogIsSaid(base, s, c) && i < |s.turns| && !s.turns[i].phase.Over?
    requires s'.turns == s.turns[i := t] && t.c == s.turns[i].c
    requires TurnSaid(t) == TurnSaid(s.turns[i]) + more
    requires EndToEnd.ServerLog(s'.db, c) == EndToEnd.ServerLog(s.db, c) + if t.c == c then more else []
    ensures LogIsSaid(base, s', c)
  {
    if t.c == c {
      UpdateKeepsSequential(s.turns, i, t, c);
      SaidAfterMore(s.turns, i, t, c, more);
      Assoc(base, SaidIn(s.turns, c), more);
    } else {
      SilentStepKeepsLog(base, s, s', i, t, c);
    }
  }

  /** A committed message extends the log of its conversation and no other. */
  lemma LogAfterInsert(db: ChatDb, m: MessageRow, db': ChatDb, c: ConversationId)
    requires AllNumbered(db) && WasNext(db, m.conversationId, m.sequence) && !Taken(db, m.conversationId, m.sequence)
    requires db'.messages == db.messages + [m]
    ensures EndToEnd.ServerLog(db', c)
      == EndToEnd.ServerLog(db, c) + if m.conversationId == c then [Said(m.role, Utf16(m.content))] else []
  {
    CommitExtendsLog(db, m, db');
    ReadsNext(db, m.conversationId);
    if m.conversationId == c { EndToEnd.LogGrows(db, m, db'); } else { RowsOfAppended(db.messages, m, c); }
  }

  /** A turn that has just stored `m` in its conversation. */
  lemma StoredKeepsLog(base: seq<Said>, s: System, s': System, i: nat, t: Turn, m: MessageRow, c: ConversationId)
    requires LogIsSaid(base, s, c) && AllNumbered(s.db) && i < |s.turns| && !s.turns[i].phase.Over?
    requires WasNext(s.db, m.conversationId, m.sequence) && !Taken(s.db, m.conversationId, m.sequence)
    requires s'.db.messages == s.db.messages + [m] && s'.turns == s.turns[i := t]
    requires t.c == s.turns[i].c == m.conversationId
    requires TurnSaid(t) == TurnSaid(s.turns[i]) + [Said(m.role, Utf16(m.content))]
    ensures LogIsSaid(base, s', c)
  {
    LogAfterInsert(s.db, m, s'.db, c);
    SpokenStepKeepsLog(base, s, s', i, t, c, [Said(m.role, Utf16(m.content))]);
  }

  lemma AbortKeepsLog(base: seq<Said>, s: System, i: nat, c: ConversationId)
    requires LogIsSaid(base, s, c) && i < |s.turns| && !s.turns[i].phase.Over?
    ensures LogIsSaid(base, With(s, i, s.turns[i].(phase := Aborted)), c)
  {
    SilentStepKeepsLog(base, s, With(s, i, s.turns[i].(phase := Aborted)), i, s.turns[i].(phase := Aborted), c);
  }

  lemma QuestionKeepsLog(base: seq<Said>, s: System, i: nat, id: MessageId, c: ConversationId)
    requires Inv(s) && Enabled(s, CommitQuestion(i, id)) && LogIsSaid(base, s, c)
    ensures LogIsSaid(base, QuestionCommitted(s, i, id), c)
  {
    var t, s' := s.turns[i], QuestionCommitted(s, i, id);
    assert TurnOk(s.db, t);
    var stored := UserUnit(s.db, t.c, t.question, id, t.phase.sequence);
    if stored.Some? {
      UserUnitAdds(s.db, t.c, t.question, id, t.phase.sequence, stored.value);
      StoredKeepsLog(base, s, s', i, s'.turns[i], MessageRow(id, t.c, t.phase.sequence, USER, t.question), c);
    } else {
      AbortKeepsLog(base, s, i, c);
    }
  }

  lemma ReplyKeepsLog(base: seq<Said>, s: System, i: nat, id: MessageId, latency: Literal, c: ConversationId)
    requires Inv(s) && Enabled(s, CommitReply(i, id, latency)) && LogIsSaid(base, s, c)
    ensures LogIsSaid(base, ReplyCommitted(s, i, id, latency), c)
  {
    var t := s.turns[i];
    assert TurnOk(s.db, t);
    var text := Join(t.collected);
    var stored := ReplyUnit(s.db, t.c, text, t.phase.k, id, t.phase.sequence);
    if stored.Some? {
      ReplyUnitAdds(s.db, t.c, text, t.phase.k, id, t.phase.sequence, stored.value);
      StoredKeepsLog(base, s, ReplyCommitted(s, i, id, latency), i, Replied(s, t, id, latency),
                     MessageRow(id, t.c, t.phase.sequence, ASSISTANT, text), c);
    } else {
      AbortKeepsLog(base, s, i, c);
    }
  }

  lemma FailureKeepsLog(base: seq<Said>, s: System, i: nat, id: MessageId, provider: string, model: string,
                        c: ConversationId)
    requires Inv(s) && Enabled(s, CommitFailure(i, id, provider, model)) && LogIsSaid(base, s, c)
    ensures LogIsSaid(base, FailureCommitted(s, i, id, provider, model), c)
  {
    var t, s' := s.turns[i], FailureCommitted(s, i, id, provider, model);
    assert TurnOk(s.db, t);
    var text := Join(t.collected);
    var stored := FailureUnit(s.db, t.c, text, t.phase.e, provider, model, id, t.phase.sequence);
    if stored.None? {
      AbortKeepsLog(base, s, i, c);
    } else {
      FailureUnitAdds(s.db, t.c, text, t.phase.e, provider, model, id, t.phase.sequence, stored.value);
      if text != [] {
        StoredKeepsLog(base, s, s', i, Failing(s, t), MessageRow(id, t.c, t.phase.sequence, ASSISTANT, text), c);
      } else {
        SilentStepKeepsLog(base, s, s', i, Failing(s, t), c);
      }
    }
  }

  lemma MovedSaysNothing(db: ChatDb, t: Turn, e: Event)
    requires TurnOk(db, t) && Ready(t, e) && !IsCommit(e)
    ensures !t.phase.Over? && Moved(db, t, e).c == t.c && TurnSaid(Moved(db, t, e)) == TurnSaid(t)
  {
  }

  lemma MoveKeepsLog(base: seq<Said>, s: System, e: Event, c: ConversationId)
    requires Inv(s) && Enabled(s, e) && !e.Begin? && !IsCommit(e) && LogIsSaid(base, s, c)
    ensures LogIsSaid(base, With(s, e.turn, Moved(s.db, s.turns[e.turn], e)), c)
  {
    assert TurnOk(s.db, s.turns[e.turn]);
    var t' := Moved(s.db, s.turns[e.turn], e);
    MovedSaysNothing(s.db, s.turns[e.turn], e);
    SilentStepKeepsLog(base, s, With(s, e.turn, t'), e.turn, t', c);
  }

  lemma BeginKeepsLog(base: seq<Said>, s: System, e: Event, c: ConversationId)
    requires Enabled(s, e) && e.Begin? && LogIsSaid(base, s, c) && (e.c == c ==> Quiet(s, c))
    ensures LogIsSaid(base, Next(s, e), c)
  {
    assert Next(s, e).turns[..|s.turns|] == s.turns;
  }

  lemma NextKeepsLog(base: seq<Said>, s: System, e: Event, c: ConversationId)
    requires Inv(s) && LogIsSaid(base, s, c) && (e.Begin? && e.c == c ==> Quiet(s, c))
    ensures LogIsSaid(base, Next(s, e), c)
  {
    if Enabled(s, e) {
      if e.Begin? {
        BeginKeepsLog(base, s, e, c);
      } else if !IsCommit(e) {
        MoveKeepsLog(base, s, e, c);
      } else if e.CommitQuestion? {
        QuestionKeepsLog(base, s, e.turn, e.id, c);
      } else if e.CommitReply? {
        ReplyKeepsLog(base, s, e.turn, e.id, e.latency, c);
      } else {
        FailureKeepsLog(base, s, e.turn, e.id, e.provider, e.model, c);
      }
    }
  }

  lemma {:induction false} RunKeepsLog(s: System, events: seq<Event>, c: ConversationId)
    requires Initial(s) && OneAtATime(s, events, c)
    ensures LogIsSaid(EndToEnd.ServerLog(s.db, c), Run(s, events), c)
  {
    if events != [] {
      var before := events[..|events| - 1];
      RunKeepsLog(s, before, c);
      RunKeepsInv(s, before);
      NextKeepsLog(EndToEnd.ServerLog(s.db, c), Run(s, before), events[|events| - 1], c);
    }
  }

  // --- the client's list --------------------------------------------------------------------

  /** The client of `c` after its turns, where `send` is what one turn makes of it. */
  function After(s0: ChatState, turns: seq<Turn>, c: ConversationId, send: (ChatState, Turn, nat) -> ChatState): ChatState {
    if turns == [] then s0
    else
      var n, last := |turns| - 1, turns[|turns| - 1];
      var before := After(s0, turns[..n], c, send);
      if last.c == c then send(before, last, n) else before
  }

  /** The n-th turn, its question sent as stored and its body read in these chunks. */
  function SendTurn(before: ChatState, t: Turn, chunks: seq<string>, ids: LocalIds): ChatState {
    AfterSend(before, Utf16(t.question), ChatStream.Reading(Join(chunks)).events, None, ids)
  }

  function ClientOf(s0: ChatState, turns: seq<Turn>, c: ConversationId, ids: nat -> LocalIds,
                    chunks: nat -> seq<string>): ChatState
  {
    After(s0, turns, c, (before: ChatState, t: Turn, n: nat) => SendTurn(before, t, chunks(n), ids(n)))
  }

  /** A finished turn has said its question and what its events make the client append. */
  lemma OverTurnSaid(db: ChatDb, t: Turn)
    requires TurnOk(db, t) && Told(t) && t.phase.Over?
    ensures TurnSaid(t) == [Said(USER, Utf16(t.question))] + Replies(ChatStream.ClientViews(t.announced))
  {
    var opening, deltas, last := Parts(t.announced);
    EndToEnd.TextsOfTurn(opening, deltas, last);
    EndToEnd.RepliesOfTurn(opening, deltas, last, ChatStream.ClientViews(t.announced));
    LastTellsReply(db, t, last);
  }

  /** A complete stream: the announcement, the deltas, and done or error. */
  lemma Parts(events: seq<TurnEvent>) returns (opening: TurnEvent, deltas: seq<TurnEvent>, last: TurnEvent)
    requires IsTurnPrefix(events) && Terminal(events) && events[0].UserMessage?
    ensures events == [opening] + deltas + [last] && events[|events| - 1] == last
    ensures opening.UserMessage? && (last.Done? || last.Failed?)
    ensures forall i :: 0 <= i < |deltas| ==> deltas[i].Delta?
  {
    opening, deltas, last := events[0], events[1..|events| - 1], events[|events| - 1];
  }

  lemma LastTellsReply(db: ChatDb, t: Turn, last: TurnEvent)
    requires TurnOk(db, t) && t.phase.Over? && t.announced != [] && last == t.announced[|t.announced| - 1]
    requires last.Done? || last.Failed?
    ensures t.own.question.Some? && (t.own.reply.Some? <==> last.Done? || Join(t.collected) != [])
  {
    assert Backed(last, db, t.own, t.c, t.question, Join(t.collected));
  }

  /** A turn of the conversation as its client lives it: complete, sendable, and read in full. */
  ghost predicate LivedThrough(db: ChatDb, t: Turn, chunks: seq<string>) {
    && TurnOk(db, t) && Told(t) && t.phase.Over?
    && !JsBlank(Utf16(t.question))
    && Join(chunks) == ChatStream.Wire(t.announced)
  }

  lemma SendSaysViews(before: ChatState, question: JsString, views: seq<ClientEvent>, ids: LocalIds)
    requires !JsBlank(question)
    ensures Projected(AfterSend(before, question, views, None, ids).messages)
      == Projected(before.messages) + ([Said(USER, question)] + Replies(views))
  {
    SendAppends(before, question, views, None, ids);
    Assoc(Projected(before.messages), [Said(USER, question)], Replies(views));
  }

  lemma SendSays(db: ChatDb, t: Turn, chunks: seq<string>, before: ChatState, ids: LocalIds)
    requires LivedThrough(db, t, chunks)
    ensures Projected(SendTurn(before, t, chunks, ids).messages) == Projected(before.messages) + TurnSaid(t)
  {
    ChatStream.EventsRoundTrip(t.announced);
    OverTurnSaid(db, t);
    SendSaysViews(before, Utf16(t.question), ChatStream.ClientViews(t.announced), ids);
  }

  lemma {:induction false} ClientSays(s0: ChatState, turns: seq<Turn>, c: ConversationId,
                                      send: (ChatState, Turn, nat) -> ChatState)
    requires forall before, i: nat {:trigger send(before, turns[i], i)} :: i < |turns| && turns[i].c == c ==>
               Projected(send(before, turns[i], i).messages) == Projected(before.messages) + TurnSaid(turns[i])
    ensures Projected(After(s0, turns, c, send).messages) == Projected(s0.messages) + SaidIn(turns, c)
  {
    if turns != [] {
      var n, last := |turns| - 1, turns[|turns| - 1];
      var before := After(s0, turns[..n], c, send);
      assert forall b, i: nat :: i < n ==> send(b, turns[..n][i], i) == send(b, turns[i], i);
      ClientSays(s0, turns[..n], c, send);
      if last.c == c {
        assert send(before, turns[n], n) == send(before, last, n);
        Assoc(Projected(s0.messages), SaidIn(turns[..n], c), TurnSaid(last));
      }
    }
  }

  /** In every interleaving with any other turns, between and during its own: a client that sends
      stripped questions one at a time in `c`, each of which ended in done or error, holds the
      server's ordered log of `c`, projected to role and content. */
  lemma ReplicaFollowsInterleavedLog(s: System, events: seq<Event>, c: ConversationId, s0: ChatState, ids: nat -> LocalIds,
                                     chunks: nat -> seq<string>)
    requires Initial(s) && OneAtATime(s, events, c) && Quiet(Run(s, events), c)
    requires Projected(s0.messages) == EndToEnd.ServerLog(s.db, c)
    requires var turns := Run(s, events).turns;
      forall i :: 0 <= i < |turns| && turns[i].c == c ==>
        !JsBlank(Utf16(turns[i].question)) && Join(chunks(i)) == ChatStream.Wire(turns[i].announced)
    ensures Projected(ClientOf(s0, Run(s, events).turns, c, ids, chunks).messages)
      == EndToEnd.ServerLog(Run(s, events).db, c)
  {
    RunKeepsInv(s, events);
    RunKeepsTold(s, events);
    RunKeepsLog(s, events, c);
    var s' := Run(s, events);
    forall i | 0 <= i < |s'.turns| && s'.turns[i].c == c
      ensures LivedThrough(s'.db, s'.turns[i], chunks(i))
    {
      assert TurnOk(s'.db, s'.turns[i]);
    }
    var send := (before: ChatState, t: Turn, n: nat) => SendTurn(before, t, chunks(n), ids(n));
    forall before, i: nat {:trigger send(before, s'.turns[i], i)} | i < |s'.turns| && s'.turns[i].c == c
      ensures Projected(send(before, s'.turns[i], i).messages) == Projected(before.messages) + TurnSaid(s'.turns[i])
    {
      SendSays(s'.db, s'.turns[i], chunks(i), before, ids(i));
    }
    ClientSays(s0, s'.turns, c, send);
  }
}
