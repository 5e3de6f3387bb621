/** Any number of chat turns, in any conversations, interleaved at every read, commit and yield.

    `next_sequence` and the insert that uses it are separate steps, so two turns may read the same
    number; the unique index then lets one commit and aborts the other. */
module TurnSystem {
  import opened Wrappers
  import opened Unicode
  import opened Conversations
  import opened LlmErrors
  import opened LlmProvider
  import opened ChatEvents
  import opened ChatUnits
  import opened ChatEndpoint
  import Ledger
  import Pricing

  datatype Phase =
    | Accepted
    | NumberingQuestion(sequence: nat)
    | Asked(id: MessageId)
    | Relaying
    | NumberingReply(sequence: nat, k: Completion)
    | NumberingFailure(sequence: nat, e: LlmError)
    | Recorded(last: TurnEvent)
    | Over
    | Aborted
    | Left

  /** A turn; `own` remembers the rows it has committed. */
  datatype Turn = Turn(
    c: ConversationId,
    question: PyString,
    phase: Phase,
    collected: seq<PyString>,
    announced: seq<TurnEvent>,
    own: OwnRows)

  datatype System = System(db: ChatDb, turns: seq<Turn>)

  /** A commit of a message carries the id that was drawn for it. */
  datatype Event =
    | Begin(c: ConversationId, question: PyString)
    | ReadForQuestion(turn: nat)
    | CommitQuestion(turn: nat, id: MessageId)
    | Announce(turn: nat)
    | Relay(turn: nat, text: PyString)
    | ReadForReply(turn: nat, k: Completion)
    | CommitReply(turn: nat, id: MessageId, latency: Literal)
    | ReadForFailure(turn: nat, e: LlmError)
    | CommitFailure(turn: nat, id: MessageId, provider: string, model: string)
    | Conclude(turn: nat)
    | DatabaseFails(turn: nat)
    | Disconnect(turn: nat)

  function With(s: System, i: nat, t: Turn): System
    requires i < |s.turns|
  {
    s.(turns := s.turns[i := t])
  }

  /** The step that commits a unit of work: the new database, or None when the index rejects it. */
  function Committed(s: System, i: nat, db: Option<ChatDb>, t: Turn): System
    requires i < |s.turns|
  {
    if db.Some? then With(s, i, t).(db := db.value)
    else With(s, i, s.turns[i].(phase := Aborted))
  }

  function QuestionCommitted(s: System, i: nat, id: MessageId): System
    requires i < |s.turns| && s.turns[i].phase.NumberingQuestion? && s.turns[i].c in s.db.conversations
  {
    var t := s.turns[i];
    Committed(s, i, UserUnit(s.db, t.c, t.question, id, t.phase.sequence),
              t.(phase := Asked(id), own := t.own.(question := Some(|s.db.messages|))))
  }

  function Replied(s: System, t: Turn, id: MessageId, latency: Literal): Turn
    requires t.phase.NumberingReply?
  {
    t.(phase := Recorded(Done(Metadata(id, t.phase.k, latency))),
       own := OwnRows(t.own.question, Some(|s.db.messages|), Some(|s.db.calls|)))
  }

  function ReplyCommitted(s: System, i: nat, id: MessageId, latency: Literal): System
    requires i < |s.turns| && s.turns[i].phase.NumberingReply?
  {
    var t := s.turns[i];
    Committed(s, i, ReplyUnit(s.db, t.c, Join(t.collected), t.phase.k, id, t.phase.sequence), Replied(s, t, id, latency))
  }

  function Failing(s: System, t: Turn): Turn
    requires t.phase.NumberingFailure?
  {
    var e := t.phase.e;
    t.(phase := Recorded(Failed(e.Code(), e.message, Some(t.collected != []))),
       own := OwnRows(t.own.question, KeptAt(s.db, Join(t.collected)), Some(|s.db.calls|)))
  }

  function FailureCommitted(s: System, i: nat, id: MessageId, provider: string, model: string): System
    requires i < |s.turns| && s.turns[i].phase.NumberingFailure?
  {
    var t := s.turns[i];
    Committed(s, i, FailureUnit(s.db, t.c, Join(t.collected), t.phase.e, provider, model, id, t.phase.sequence),
              Failing(s, t))
  }

  /** Which steps a turn is ready for. A stream finishes with the join of its deltas: the contract
      of an attempt. */
  predicate Ready(t: Turn, e: Event) {
    match e
    case Begin(_, _) => false
    case ReadForQuestion(_) => t.phase.Accepted?
    case CommitQuestion(_, _) => t.phase.NumberingQuestion?
    case Announce(_) => t.phase.Asked?
    case Relay(_, _) => t.phase.Relaying?
    case ReadForReply(_, k) => t.phase.Relaying? && k.text == Join(t.collected)
    case CommitReply(_, _, _) => t.phase.NumberingReply?
    case ReadForFailure(_, _) => t.phase.Relaying?
    case CommitFailure(_, _, _, _) => t.phase.NumberingFailure?
    case Conclude(_) => t.phase.Recorded?
    case DatabaseFails(_) => t.phase.NumberingQuestion? || t.phase.NumberingReply? || t.phase.NumberingFailure?
    case Disconnect(_) => t.phase.Relaying?
  }

  predicate IsCommit(e: Event) {
    e.CommitQuestion? || e.CommitReply? || e.CommitFailure?
  }

  /** A turn after a step that commits nothing. */
  function Moved(db: ChatDb, t: Turn, e: Event): Turn
    requires Ready(t, e) && !IsCommit(e)
  {
    match e
    case ReadForQuestion(_) => t.(phase := NumberingQuestion(NextSequence(db.messages, t.c)))
    case Announce(_) =>
      t.(phase := Relaying, announced := t.announced + [UserMessage(IdText(t.phase.id), IdText(t.c))])
    case Relay(_, text) => t.(collected := t.collected + [text], announced := t.announced + [Delta(text)])
    case ReadForReply(_, k) => t.(phase := NumberingReply(NextSequence(db.messages, t.c), k))
    case ReadForFailure(_, error) => t.(phase := NumberingFailure(NextSequence(db.messages, t.c), error))
    case Conclude(_) => t.(phase := Over, announced := t.announced + [t.phase.last])
    case DatabaseFails(_) => t.(phase := Aborted)
    case Disconnect(_) => t.(phase := Left)
  }

  predicate Enabled(s: System, e: Event) {
    if e.Begin? then e.c in s.db.conversations
    else e.turn < |s.turns| && Ready(s.turns[e.turn], e) && s.turns[e.turn].c in s.db.conversations
  }

  function Next(s: System, e: Event): System {
    if !Enabled(s, e) then s
    else
      match e
      case Begin(c, question) => s.(turns := s.turns + [Turn(c, question, Accepted, [], [], OwnRows(None, None, None))])
      case CommitQuestion(i, id) => QuestionCommitted(s, i, id)
      case CommitReply(i, id, latency) => ReplyCommitted(s, i, id, latency)
      case CommitFailure(i, id, provider, model) => FailureCommitted(s, i, id, provider, model)
      case _ => With(s, e.turn, Moved(s.db, s.turns[e.turn], e))
  }

  function Run(s: System, events: seq<Event>): System {
    if events == [] then s else Next(Run(s, events[..|events| - 1]), events[|events| - 1])
  }

  // --- what is true of every turn in every state --------------------------------------------

  ghost predicate AllNumbered(db: ChatDb) {
    forall c :: Numbered(RowsOf(db.messages, c))
  }

  /** A sequence number somebody read earlier is at most one past the end of the log. */
  ghost predicate WasNext(db: ChatDb, c: ConversationId, n: nat) {
    1 <= n <= |RowsOf(db.messages, c)| + 1
  }

  predicate Finished(p: Phase) {
    p.Recorded? || p.Over?
  }

  predicate Unasked(p: Phase) {
    p.Accepted? || p.NumberingQuestion?
  }

  predicate RowsOk(db: ChatDb, t: Turn) {
    && (t.own.question.Some? ==> MessageAt(db, t.own.question, t.c, USER, t.question))
    && (t.own.reply.Some? ==>
          && MessageAt(db, t.own.reply, t.c, ASSISTANT, Join(t.collected)) && t.own.question.Some?
          && db.messages[t.own.question.value].sequence < db.messages[t.own.reply.value].sequence)
    && (t.own.call.Some? ==> t.own.call.value < |db.calls| && db.calls[t.own.call.value].conversationId == t.c)
  }

  ghost predicate PhaseOk(db: ChatDb, t: Turn)
    requires RowsOk(db, t)
  {
    && (Unasked(t.phase) ==> t.own.question.None? && t.announced == [] && t.collected == [])
    && (!Unasked(t.phase) && !t.phase.Aborted? ==> t.own.question.Some?)
    && (t.phase.Asked? ==>
          t.announced == [] && t.collected == [] && db.messages[t.own.question.value].id == t.phase.id)
    && (t.own.call.Some? <==> Finished(t.phase))
    && (t.own.reply.Some? ==> Finished(t.phase))
    && (t.phase.NumberingQuestion? ==> WasNext(db, t.c, t.phase.sequence))
    && (t.phase.NumberingReply? || t.phase.NumberingFailure? ==>
          WasNext(db, t.c, t.phase.sequence) && db.messages[t.own.question.value].sequence < t.phase.sequence)
    && (t.phase.NumberingReply? ==> t.phase.k.text == Join(t.collected))
    && (Finished(t.phase) ==>
          (t.own.reply.Some? <==> db.calls[t.own.call.value].succeeded || Join(t.collected) != []))
  }

  predicate EventsOk(db: ChatDb, t: Turn) {
    && IsTurnPrefix(t.announced)
    && (t.announced != [] ==> t.announced[0].UserMessage?)
    && (!t.phase.Over? ==> forall i :: 0 < i < |t.announced| ==> t.announced[i].Delta?)
    && (t.phase.Relaying? || t.phase.NumberingReply? || t.phase.NumberingFailure? || Finished(t.phase) ==>
        t.announced != [])
    && (forall i :: 0 <= i < |t.announced| ==> Backed(t.announced[i], db, t.own, t.c, t.question, Join(t.collected)))
    && (t.phase.Recorded? ==>
          && (t.phase.last.Done? || t.phase.last.Failed?)
          && Backed(t.phase.last, db, t.own, t.c, t.question, Join(t.collected)))
  }

  ghost predicate TurnOk(db: ChatDb, t: Turn) {
    RowsOk(db, t) && PhaseOk(db, t) && EventsOk(db, t)
  }

  /** No row is claimed by two turns, whether as a question, as a reply or as a call. */
  predicate Apart(a: OwnRows, b: OwnRows) {
    && (a.question.Some? ==> a.question != b.question)
    && (a.reply.Some? ==> a.reply != b.reply)
    && (a.call.Some? ==> a.call != b.call)
  }

  ghost predicate Inv(s: System) {
    && AllNumbered(s.db)
    && (forall i :: 0 <= i < |s.turns| ==> TurnOk(s.db, s.turns[i]))
    && (forall i, j :: 0 <= i < j < |s.turns| ==> Apart(s.turns[i].own, s.turns[j].own))
  }

  // --- what commits by others leave alone ---------------------------------------------------

  ghost predicate Grows(db: ChatDb, db': ChatDb) {
    db.messages <= db'.messages && db.calls <= db'.calls
  }

  lemma {:induction false} RowsOfPrefix(rows: seq<MessageRow>, more: seq<MessageRow>, c: ConversationId)
    ensures RowsOf(rows, c) <= RowsOf(rows + more, c)
    decreases |more|
  {
    if more == [] {
      assert rows + more == rows;
    } else {
      var shorter, last := more[..|more| - 1], more[|more| - 1];
      RowsOfPrefix(rows, shorter, c);
      RowsOfAppended(rows + shorter, last, c);
      assert rows + more == rows + shorter + [last];
    }
  }

  lemma GrowthKeepsRows(db: ChatDb, db': ChatDb, c: ConversationId)
    requires Grows(db, db')
    ensures RowsOf(db.messages, c) <= RowsOf(db'.messages, c)
  {
    var more := db'.messages[|db.messages|..];
    assert db'.messages == db.messages + more;
    RowsOfPrefix(db.messages, more, c);
  }

  lemma GrowthKeepsTurn(db: ChatDb, db': ChatDb, t: Turn)
    requires Grows(db, db') && TurnOk(db, t)
    ensures TurnOk(db', t)
  {
    GrowthKeepsRows(db, db', t.c);
    forall i | 0 <= i < |t.announced|
      ensures Backed(t.announced[i], db', t.own, t.c, t.question, Join(t.collected))
    {
      BackedStays(t.announced[i], db, db', t.own, t.c, t.question, Join(t.collected));
    }
    if t.phase.Recorded? { BackedStays(t.phase.last, db, db', t.own, t.c, t.question, Join(t.collected)); }
  }

  lemma NumberedTaken(db: ChatDb, c: ConversationId, n: nat)
    requires AllNumbered(db)
    ensures 1 <= n <= |RowsOf(db.messages, c)| <==> Taken(db, c, n)
  {
    var rows := RowsOf(db.messages, c);
    assert 1 <= n <= |rows| ==> rows[n - 1] in rows;
  }

  /** A number that was next when it was read either still is, and the insert extends the log, or
      has been taken meanwhile, and the insert is rejected. */
  lemma CommitExtendsLog(db: ChatDb, m: MessageRow, db': ChatDb)
    requires AllNumbered(db) && WasNext(db, m.conversationId, m.sequence)
    requires !Taken(db, m.conversationId, m.sequence) && db'.messages == db.messages + [m]
    ensures AllNumbered(db')
    ensures m.sequence == |RowsOf(db.messages, m.conversationId)| + 1
  {
    NumberedTaken(db, m.conversationId, m.sequence);
    forall c
      ensures Numbered(RowsOf(db'.messages, c))
    {
      RowsOfAppended(db.messages, m, c);
    }
    RowsOfAppended(db.messages, m, m.conversationId);
  }

  lemma ReadsNext(db: ChatDb, c: ConversationId)
    requires Numbered(RowsOf(db.messages, c))
    ensures NextSequence(db.messages, c) == |RowsOf(db.messages, c)| + 1
  {
    NumberedMax(RowsOf(db.messages, c));
  }

  /** A stored message is numbered within the log of its conversation. */
  lemma SequenceInRange(db: ChatDb, at: nat)
    requires AllNumbered(db) && at < |db.messages|
    ensures 1 <= db.messages[at].sequence <= |RowsOf(db.messages, db.messages[at].conversationId)|
  {
    var m := db.messages[at];
    var rows := RowsOf(db.messages, m.conversationId);
    assert m in rows;
    var i :| 0 <= i < |rows| && rows[i] == m;
  }

  // --- one event keeps the invariant --------------------------------------------------------

  /** A turn claims no row but those it had and those the commit appends. */
  predicate ClaimsNew(db: ChatDb, own: OwnRows, own': OwnRows) {
    && (own'.question == own.question || own'.question == Some(|db.messages|))
    && (own'.reply == own.reply || own'.reply == Some(|db.messages|))
    && (own'.call == own.call || own'.call == Some(|db.calls|))
  }

  /** Replacing one turn, with the database grown, keeps the others. */
  lemma OneTurnChanges(s: System, s': System, i: nat, t: Turn)
    requires Inv(s) && i < |s.turns| && s'.turns == s.turns[i := t]
    requires Grows(s.db, s'.db) && AllNumbered(s'.db) && TurnOk(s'.db, t)
    requires ClaimsNew(s.db, s.turns[i].own, t.own)
    ensures Inv(s')
  {
    forall j | 0 <= j < |s'.turns|
      ensures TurnOk(s'.db, s'.turns[j])
    {
      if j != i { GrowthKeepsTurn(s.db, s'.db, s.turns[j]); }
    }
    forall j, k | 0 <= j < k < |s'.turns|
      ensures Apart(s'.turns[j].own, s'.turns[k].own)
    {
      assert TurnOk(s.db, s.turns[j]) && TurnOk(s.db, s.turns[k]);
      assert Apart(s.turns[j].own, s.turns[k].own);
    }
  }

  lemma QuestionTurnOk(s: System, t: Turn, id: MessageId, db': ChatDb)
    requires AllNumbered(s.db) && TurnOk(s.db, t) && t.phase.NumberingQuestion? && t.c in s.db.conversations
    requires UserUnit(s.db, t.c, t.question, id, t.phase.sequence) == Some(db')
    ensures AllNumbered(db')
    ensures TurnOk(db', t.(phase := Asked(id), own := t.own.(question := Some(|s.db.messages|))))
  {
    UserUnitAdds(s.db, t.c, t.question, id, t.phase.sequence, db');
    CommitExtendsLog(s.db, db'.messages[|s.db.messages|], db');
  }

  lemma CommitQuestionKeepsInv(s: System, i: nat, id: MessageId)
    requires Inv(s) && Enabled(s, CommitQuestion(i, id))
    ensures Inv(QuestionCommitted(s, i, id))
  {
    var t, s' := s.turns[i], QuestionCommitted(s, i, id);
    var stored := UserUnit(s.db, t.c, t.question, id, t.phase.sequence);
    assert TurnOk(s.db, t);
    if stored.Some? {
      QuestionTurnOk(s, t, id, stored.value);
      UserUnitAdds(s.db, t.c, t.question, id, t.phase.sequence, stored.value);
    } else {
      MovingOnKeepsTurn(s.db, t, Aborted);
    }
    OneTurnChanges(s, s', i, s'.turns[i]);
  }

  /** A turn that has recorded its call, with the reply it stored, if it stored one. */
  lemma RecordedTurnOk(db: ChatDb, t: Turn, last: TurnEvent, reply: Option<nat>, call: nat)
    requires TurnOk(db, t) && (t.phase.NumberingReply? || t.phase.NumberingFailure?)
    requires call < |db.calls| && db.calls[call].conversationId == t.c
    requires reply.Some? <==> db.calls[call].succeeded || Join(t.collected) != []
    requires reply.Some? ==>
      && MessageAt(db, reply, t.c, ASSISTANT, Join(t.collected))
      && db.messages[reply.value].sequence == t.phase.sequence
    requires last.Done? || last.Failed?
    requires Backed(last, db, OwnRows(t.own.question, reply, Some(call)), t.c, t.question, Join(t.collected))
    ensures TurnOk(db, t.(phase := Recorded(last), own := OwnRows(t.own.question, reply, Some(call))))
  {
  }

  lemma ReplyTurnOk(s: System, t: Turn, id: MessageId, latency: Literal, db': ChatDb)
    requires AllNumbered(s.db) && TurnOk(s.db, t) && t.phase.NumberingReply?
    requires ReplyUnit(s.db, t.c, Join(t.collected), t.phase.k, id, t.phase.sequence) == Some(db')
    ensures AllNumbered(db') && TurnOk(db', Replied(s, t, id, latency))
  {
    var text, n, k := Join(t.collected), t.phase.sequence, t.phase.k;
    ReplyUnitAdds(s.db, t.c, text, k, id, n, db');
    CommitExtendsLog(s.db, db'.messages[|s.db.messages|], db');
    GrowthKeepsTurn(s.db, db', t);
    ReplyIsBacked(s.db, t.c, text, k, id, n, latency, db', t.own.question, t.question);
    RecordedTurnOk(db', t, Done(Metadata(id, k, latency)), Some(|s.db.messages|), |s.db.calls|);
  }

  lemma FailureTurnOk(s: System, t: Turn, id: MessageId, provider: string, model: string, db': ChatDb)
    requires AllNumbered(s.db) && TurnOk(s.db, t) && t.phase.NumberingFailure?
    requires FailureUnit(s.db, t.c, Join(t.collected), t.phase.e, provider, model, id, t.phase.sequence) == Some(db')
    ensures AllNumbered(db') && TurnOk(db', Failing(s, t))
  {
    var text, n, e := Join(t.collected), t.phase.sequence, t.phase.e;
    FailureUnitAdds(s.db, t.c, text, e, provider, model, id, n, db');
    if text != [] { CommitExtendsLog(s.db, db'.messages[|s.db.messages|], db'); }
    GrowthKeepsTurn(s.db, db', t);
    FailureIsBacked(s.db, t.c, text, e, provider, model, id, n, db', t.own.question, t.question,
                    Some(t.collected != []));
    RecordedTurnOk(db', t, Failed(e.Code(), e.message, Some(t.collected != [])), KeptAt(s.db, text), |s.db.calls|);
  }

  lemma CommitReplyKeepsInv(s: System, i: nat, id: MessageId, latency: Literal)
    requires Inv(s) && Enabled(s, CommitReply(i, id, latency))
    ensures Inv(ReplyCommitted(s, i, id, latency))
  {
    var t, s' := s.turns[i], ReplyCommitted(s, i, id, latency);
    assert TurnOk(s.db, t);
    var stored := ReplyUnit(s.db, t.c, Join(t.collected), t.phase.k, id, t.phase.sequence);
    if stored.Some? {
      ReplyTurnOk(s, t, id, latency, stored.value);
      ReplyUnitAdds(s.db, t.c, Join(t.collected), t.phase.k, id, t.phase.sequence, stored.value);
    } else {
      MovingOnKeepsTurn(s.db, t, Aborted);
    }
    OneTurnChanges(s, s', i, s'.turns[i]);
  }

  lemma CommitFailureKeepsInv(s: System, i: nat, id: MessageId, provider: string, model: string)
    requires Inv(s) && Enabled(s, CommitFailure(i, id, provider, model))
    ensures Inv(FailureCommitted(s, i, id, provider, model))
  {
    var t, s' := s.turns[i], FailureCommitted(s, i, id, provider, model);
    assert TurnOk(s.db, t);
    var stored := FailureUnit(s.db, t.c, Join(t.collected), t.phase.e, provider, model, id, t.phase.sequence);
    if stored.Some? {
      FailureTurnOk(s, t, id, provider, model, stored.value);
      FailureUnitAdds(s.db, t.c, Join(t.collected), t.phase.e, provider, model, id, t.phase.sequence, stored.value);
    } else {
      MovingOnKeepsTurn(s.db, t, Aborted);
    }
    OneTurnChanges(s, s', i, s'.turns[i]);
  }

  lemma AnnounceKeepsTurn(db: ChatDb, t: Turn, t': Turn)
    requires TurnOk(db, t) && t.phase.Asked?
    requires t' == t.(phase := Relaying, announced := [UserMessage(IdText(t.phase.id), IdText(t.c))])
    ensures TurnOk(db, t')
  {
  }

  lemma RelayKeepsTurn(db: ChatDb, t: Turn, text: PyString, t': Turn)
    requires TurnOk(db, t) && t.phase.Relaying?
    requires t' == t.(collected := t.collected + [text], announced := t.announced + [Delta(text)])
    ensures TurnOk(db, t')
  {
    forall i | 0 <= i < |t'.announced|
      ensures Backed(t'.announced[i], db, t.own, t.c, t.question, Join(t'.collected))
    {
      if i < |t.announced| {
        assert t'.announced[i] == t.announced[i];
        assert Backed(t.announced[i], db, t.own, t.c, t.question, Join(t.collected));
      }
    }
  }

  lemma ConcludeKeepsTurn(db: ChatDb, t: Turn, t': Turn)
    requires TurnOk(db, t) && t.phase.Recorded?
    requires t' == t.(phase := Over, announced := t.announced + [t.phase.last])
    ensures TurnOk(db, t')
  {
  }

  /** The steps that only move a turn on: reading the next number, failing, leaving. */
  ghost predicate MovesOn(db: ChatDb, t: Turn, p: Phase) {
    match p
    case NumberingQuestion(n) => t.phase.Accepted? && n == |RowsOf(db.messages, t.c)| + 1
    case NumberingReply(n, k) =>
      t.phase.Relaying? && n == |RowsOf(db.messages, t.c)| + 1 && k.text == Join(t.collected)
    case NumberingFailure(n, _) => t.phase.Relaying? && n == |RowsOf(db.messages, t.c)| + 1
    case Aborted => t.phase.NumberingQuestion? || t.phase.NumberingReply? || t.phase.NumberingFailure?
    case Left => t.phase.Relaying?
    case _ => false
  }

  lemma MovingOnKeepsTurn(db: ChatDb, t: Turn, p: Phase)
    requires TurnOk(db, t) && AllNumbered(db) && MovesOn(db, t, p)
    ensures TurnOk(db, t.(phase := p))
  {
    if t.own.question.Some? { SequenceInRange(db, t.own.question.value); }
  }

  /** A step that commits nothing keeps its turn in order. */
  lemma MovedKeepsTurn(db: ChatDb, t: Turn, e: Event)
    requires TurnOk(db, t) && AllNumbered(db) && Ready(t, e) && !IsCommit(e)
    ensures TurnOk(db, Moved(db, t, e))
  {
    ReadsNext(db, t.c);
    var t' := Moved(db, t, e);
    match e
    case Announce(_) => AnnounceKeepsTurn(db, t, t');
    case Relay(_, text) => RelayKeepsTurn(db, t, text, t');
    case Conclude(_) => ConcludeKeepsTurn(db, t, t');
    case _ => MovingOnKeepsTurn(db, t, t'.phase);
  }

  lemma BeginKeepsInv(s: System, e: Event)
    requires Inv(s) && Enabled(s, e) && e.Begin?
    ensures Inv(Next(s, e))
  {
  }

  lemma MoveKeepsInv(s: System, e: Event)
    requires Inv(s) && Enabled(s, e) && !e.Begin? && !IsCommit(e)
    ensures Inv(With(s, e.turn, Moved(s.db, s.turns[e.turn], e)))
  {
    assert TurnOk(s.db, s.turns[e.turn]);
    MovedKeepsTurn(s.db, s.turns[e.turn], e);
    OneTurnChanges(s, With(s, e.turn, Moved(s.db, s.turns[e.turn], e)), e.turn, Moved(s.db, s.turns[e.turn], e));
  }

  lemma NextKeepsInv(s: System, e: Event)
    requires Inv(s)
    ensures Inv(Next(s, e))
  {
    if Enabled(s, e) {
      if e.Begin? {
        BeginKeepsInv(s, e);
      } else if !IsCommit(e) {
        MoveKeepsInv(s, e);
      } else if e.CommitQuestion? {
        CommitQuestionKeepsInv(s, e.turn, e.id);
      } else if e.CommitReply? {
        CommitReplyKeepsInv(s, e.turn, e.id, e.latency);
      } else {
        CommitFailureKeepsInv(s, e.turn, e.id, e.provider, e.model);
      }
    }
  }

  /** A database whose logs are numbered and no turn yet: an empty one, for instance. */
  ghost predicate Initial(s: System) {
    s.turns == [] && AllNumbered(s.db)
  }

  lemma {:induction false} RunKeepsInv(s: System, events: seq<Event>)
    requires Initial(s)
    ensures Inv(Run(s, events))
  {
    if events != [] {
      RunKeepsInv(s, events[..|events| - 1]);
      NextKeepsInv(Run(s, events[..|events| - 1]), events[|events| - 1]);
    }
  }

  // --- what holds of every interleaving -----------------------------------------------------

  lemma NumberedIsOneToN(db: ChatDb, c: ConversationId, n: nat)
    requires AllNumbered(db)
    ensures Taken(db, c, n) <==> 1 <= n <= |RowsOf(db.messages, c)|
    ensures DistinctSequences(RowsOf(db.messages, c))
    ensures OrderBy(RowsOf(db.messages, c), false) == RowsOf(db.messages, c)
  {
    NumberedTaken(db, c, n);
    OrderOfSorted(RowsOf(db.messages, c));
  }

  /** In every interleaving the committed numbers of each conversation are exactly 1, ..., n, each
      once, in the order the messages were committed. */
  lemma NumbersAreOneToN(s: System, events: seq<Event>, c: ConversationId, n: nat)
    requires Initial(s)
    ensures var s' := Run(s, events);
      var rows := RowsOf(s'.db.messages, c);
      && (Taken(s'.db, c, n) <==> 1 <= n <= |rows|)
      && DistinctSequences(rows)
      && OrderBy(rows, false) == rows
  {
    RunKeepsInv(s, events);
    NumberedIsOneToN(Run(s, events).db, c, n);
  }

  /** Every stored reply is numbered after its own question and holds the text that was relayed. */
  lemma ReplyFollowsItsQuestion(s: System, events: seq<Event>, i: nat)
    requires Initial(s)
    requires i < |Run(s, events).turns| && Run(s, events).turns[i].own.reply.Some?
    ensures var s' := Run(s, events);
      var t := s'.turns[i];
      && MessageAt(s'.db, t.own.question, t.c, USER, t.question)
      && MessageAt(s'.db, t.own.reply, t.c, ASSISTANT, Join(t.collected))
      && s'.db.messages[t.own.question.value].sequence < s'.db.messages[t.own.reply.value].sequence
  {
    RunKeepsInv(s, events);
    assert TurnOk(Run(s, events).db, Run(s, events).turns[i]);
  }

  /** In every interleaving each client has been sent a prefix of the grammar, and whatever it was
      told is in the database, in rows that its own turn committed and no other turn claims: persist
      before announce, whatever other turns do meanwhile. */
  lemma AnnouncedIsCommitted(s: System, events: seq<Event>, i: nat, k: nat)
    requires Initial(s)
    requires i < |Run(s, events).turns| && k < |Run(s, events).turns[i].announced|
    ensures var s' := Run(s, events);
      var t := s'.turns[i];
      && IsTurnPrefix(t.announced)
      && Backed(t.announced[k], s'.db, t.own, t.c, t.question, Join(t.collected))
      && forall j :: 0 <= j < |s'.turns| && j != i ==> Apart(t.own, s'.turns[j].own)
  {
    RunKeepsInv(s, events);
    var s' := Run(s, events);
    assert TurnOk(s'.db, s'.turns[i]);
    forall j | 0 <= j < |s'.turns| && j != i
      ensures Apart(s'.turns[i].own, s'.turns[j].own)
    {
      assert i < j ==> Apart(s'.turns[i].own, s'.turns[j].own);
      assert j < i ==> Apart(s'.turns[j].own, s'.turns[i].own);
    }
  }

  // --- the ledger ---------------------------------------------------------------------------

  function Tally(turns: seq<Turn>, weight: Turn -> nat): nat {
    if turns == [] then 0 else Tally(turns[..|turns| - 1], weight) + weight(turns[|turns| - 1])
  }

  lemma {:induction false} TallyOfUpdate(turns: seq<Turn>, i: nat, t: Turn, weight: Turn -> nat)
    requires i < |turns|
    ensures Tally(turns[i := t], weight) + weight(turns[i]) == Tally(turns, weight) + weight(t)
  {
    var init := turns[..|turns| - 1];
    if i == |turns| - 1 {
      assert turns[i := t][..|turns| - 1] == init;
    } else {
      TallyOfUpdate(init, i, t, weight);
      assert turns[i := t][..|turns| - 1] == init[i := t];
    }
  }

  function Bit(b: bool): nat { if b then 1 else 0 }

  function Questions(t: Turn): nat { Bit(t.own.question.Some?) }
  function Answers(t: Turn): nat { Bit(t.own.reply.Some?) }
  function Calls(t: Turn): nat { Bit(t.own.call.Some?) }

  function RowsWith(rows: seq<MessageRow>, role: Role): nat {
    if rows == [] then 0 else RowsWith(rows[..|rows| - 1], role) + Bit(rows[|rows| - 1].role == role)
  }

  /** What has been committed since `before` is exactly what the turns remember committing. */
  ghost predicate Balanced(before: ChatDb, s: System) {
    && RowsWith(s.db.messages, USER) == RowsWith(before.messages, USER) + Tally(s.turns, Questions)
    && RowsWith(s.db.messages, ASSISTANT) == RowsWith(before.messages, ASSISTANT) + Tally(s.turns, Answers)
    && |s.db.messages| == |before.messages| + Tally(s.turns, Questions) + Tally(s.turns, Answers)
    && |s.db.calls| == |before.calls| + Tally(s.turns, Calls)
    && Grows(before, s.db)
    && (forall i :: 0 <= i < |s.turns| ==> ClaimedSince(before, s.turns[i].own))
  }

  /** None of these rows was there before. */
  predicate ClaimedSince(before: ChatDb, own: OwnRows) {
    && (own.question.Some? ==> |before.messages| <= own.question.value)
    && (own.reply.Some? ==> |before.messages| <= own.reply.value)
    && (own.call.Some? ==> |before.calls| <= own.call.value)
  }

  lemma TalliesOfUpdate(turns: seq<Turn>, i: nat, t: Turn)
    requires i < |turns|
    ensures Tally(turns[i := t], Questions) + Questions(turns[i]) == Tally(turns, Questions) + Questions(t)
    ensures Tally(turns[i := t], Answers) + Answers(turns[i]) == Tally(turns, Answers) + Answers(t)
    ensures Tally(turns[i := t], Calls) + Calls(turns[i]) == Tally(turns, Calls) + Calls(t)
  {
    TallyOfUpdate(turns, i, t, Questions);
    TallyOfUpdate(turns, i, t, Answers);
    TallyOfUpdate(turns, i, t, Calls);
  }

  lemma RowsWithAppended(rows: seq<MessageRow>, m: MessageRow, role: Role)
    ensures RowsWith(rows + [m], role) == RowsWith(rows, role) + Bit(m.role == role)
  {
    assert (rows + [m])[..|rows|] == rows;
  }

  /** A change of one turn that adds to the database what it adds to the memory of the turn. */
  ghost predicate Remembered(db: ChatDb, t: Turn, db': ChatDb, t': Turn) {
    && RowsWith(db'.messages, USER) + Questions(t) == RowsWith(db.messages, USER) + Questions(t')
    && RowsWith(db'.messages, ASSISTANT) + Answers(t) == RowsWith(db.messages, ASSISTANT) + Answers(t')
    && |db'.messages| + Questions(t) + Answers(t) == |db.messages| + Questions(t') + Answers(t')
    && |db'.calls| + Calls(t) == |db.calls| + Calls(t')
    && Grows(db, db') && ClaimsNew(db, t.own, t'.own)
  }

  lemma AskingIsRemembered(db: ChatDb, t: Turn, db': ChatDb, t': Turn, m: MessageRow)
    requires t.own.question.None? && t'.own == t.own.(question := Some(|db.messages|))
    requires db'.messages == db.messages + [m] && m.role == USER && db'.calls == db.calls
    ensures Remembered(db, t, db', t')
  {
    RowsWithAppended(db.messages, m, USER);
    RowsWithAppended(db.messages, m, ASSISTANT);
  }

  lemma QuestionIsRemembered(s: System, i: nat, id: MessageId)
    requires Inv(s) && Enabled(s, CommitQuestion(i, id))
    ensures var s' := QuestionCommitted(s, i, id);
      s'.turns == s.turns[i := s'.turns[i]] && Remembered(s.db, s.turns[i], s'.db, s'.turns[i])
  {
    var t, s' := s.turns[i], QuestionCommitted(s, i, id);
    assert TurnOk(s.db, t);
    var stored := UserUnit(s.db, t.c, t.question, id, t.phase.sequence);
    if stored.Some? {
      UserUnitAdds(s.db, t.c, t.question, id, t.phase.sequence, stored.value);
      AskingIsRemembered(s.db, t, s'.db, s'.turns[i], stored.value.messages[|s.db.messages|]);
    }
  }

  /** A unit of work that records a call, and a reply with it or not. */
  lemma RecordingIsRemembered(db: ChatDb, t: Turn, db': ChatDb, t': Turn, reply: seq<MessageRow>, call: CallRow)
    requires t.own.reply.None? && t.own.call.None?
    requires reply == [] || (|reply| == 1 && reply[0].role == ASSISTANT)
    requires t'.own == OwnRows(t.own.question, if reply == [] then None else Some(|db.messages|), Some(|db.calls|))
    requires db'.messages == db.messages + reply && db'.calls == db.calls + [call]
    ensures Remembered(db, t, db', t')
  {
    if reply != [] {
      assert reply == [reply[0]];
      RowsWithAppended(db.messages, reply[0], USER);
      RowsWithAppended(db.messages, reply[0], ASSISTANT);
    } else {
      assert db'.messages == db.messages;
    }
  }

  lemma ReplyIsRemembered(s: System, i: nat, id: MessageId, latency: Literal)
    requires Inv(s) && Enabled(s, CommitReply(i, id, latency))
    ensures var s' := ReplyCommitted(s, i, id, latency);
      s'.turns == s.turns[i := s'.turns[i]] && Remembered(s.db, s.turns[i], s'.db, s'.turns[i])
  {
    var t, s' := s.turns[i], ReplyCommitted(s, i, id, latency);
    assert TurnOk(s.db, t);
    var text, n := Join(t.collected), t.phase.sequence;
    var stored := ReplyUnit(s.db, t.c, text, t.phase.k, id, n);
    if stored.Some? {
      ReplyUnitAdds(s.db, t.c, text, t.phase.k, id, n, stored.value);
      RecordingIsRemembered(s.db, t, s'.db, s'.turns[i], [MessageRow(id, t.c, n, ASSISTANT, text)],
                            SucceededCall(t.c, id, t.phase.k));
    }
  }

  lemma FailureIsRemembered(s: System, i: nat, id: MessageId, provider: string, model: string)
    requires Inv(s) && Enabled(s, CommitFailure(i, id, provider, model))
    ensures var s' := FailureCommitted(s, i, id, provider, model);
      s'.turns == s.turns[i := s'.turns[i]] && Remembered(s.db, s.turns[i], s'.db, s'.turns[i])
  {
    var t, s' := s.turns[i], FailureCommitted(s, i, id, provider, model);
    assert TurnOk(s.db, t);
    var text, n := Join(t.collected), t.phase.sequence;
    var stored := FailureUnit(s.db, t.c, text, t.phase.e, provider, model, id, n);
    if stored.Some? {
      FailureUnitAdds(s.db, t.c, text, t.phase.e, provider, model, id, n, stored.value);
      RecordingIsRemembered(s.db, t, s'.db, s'.turns[i],
                            if text == [] then [] else [MessageRow(id, t.c, n, ASSISTANT, text)],
                            FailedCall(t.c, provider, model, t.phase.e));
    }
  }

  lemma MoveIsRemembered(db: ChatDb, t: Turn, e: Event)
    requires Ready(t, e) && !IsCommit(e)
    ensures Remembered(db, t, db, Moved(db, t, e))
  {
  }

  lemma RememberedKeepsBalance(before: ChatDb, s: System, s': System, i: nat)
    requires Balanced(before, s) && i < |s.turns| == |s'.turns|
    requires s'.turns == s.turns[i := s'.turns[i]] && Remembered(s.db, s.turns[i], s'.db, s'.turns[i])
    ensures Balanced(before, s')
  {
    TalliesOfUpdate(s.turns, i, s'.turns[i]);
    assert ClaimedSince(before, s.turns[i].own);
  }

  lemma MoveKeepsBalance(before: ChatDb, s: System, e: Event)
    requires Balanced(before, s) && Enabled(s, e) && !e.Begin? && !IsCommit(e)
    ensures Balanced(before, With(s, e.turn, Moved(s.db, s.turns[e.turn], e)))
  {
    MoveIsRemembered(s.db, s.turns[e.turn], e);
    RememberedKeepsBalance(before, s, With(s, e.turn, Moved(s.db, s.turns[e.turn], e)), e.turn);
  }

  lemma BeginKeepsBalance(before: ChatDb, s: System, e: Event)
    requires Balanced(before, s) && Enabled(s, e) && e.Begin?
    ensures Balanced(before, Next(s, e))
  {
    assert Next(s, e).turns[..|s.turns|] == s.turns;
  }

  lemma NextKeepsBalance(before: ChatDb, s: System, e: Event)
    requires Inv(s) && Balanced(before, s)
    ensures Balanced(before, Next(s, e))
  {
    if Enabled(s, e) {
      if e.Begin? {
        BeginKeepsBalance(before, s, e);
      } else if !IsCommit(e) {
        MoveKeepsBalance(before, s, e);
      } else if e.CommitQuestion? {
        QuestionIsRemembered(s, e.turn, e.id);
        RememberedKeepsBalance(before, s, QuestionCommitted(s, e.turn, e.id), e.turn);
      } else if e.CommitReply? {
        ReplyIsRemembered(s, e.turn, e.id, e.latency);
        RememberedKeepsBalance(before, s, ReplyCommitted(s, e.turn, e.id, e.latency), e.turn);
      } else {
        FailureIsRemembered(s, e.turn, e.id, e.provider, e.model);
        RememberedKeepsBalance(before, s, FailureCommitted(s, e.turn, e.id, e.provider, e.model), e.turn);
      }
    }
  }

  lemma {:induction false} RunKeepsBalance(s: System, events: seq<Event>)
    requires Initial(s)
    ensures Balanced(s.db, Run(s, events))
  {
    if events != [] {
      var shorter := events[..|events| - 1];
      RunKeepsBalance(s, shorter);
      RunKeepsInv(s, shorter);
      NextKeepsBalance(s.db, Run(s, shorter), events[|events| - 1]);
    }
  }

  /** Over any interleaving, with turns at any stage: every user message, reply and ledger row
      that was added is that of exactly one turn, none was there before, and a turn that reached its
      terminal event has exactly one question and one call, and a reply exactly when the call
      succeeded or some text was kept. */
  lemma LedgerIsConserved(s: System, events: seq<Event>)
    requires Initial(s)
    ensures var s' := Run(s, events);
      && RowsWith(s'.db.messages, USER) == RowsWith(s.db.messages, USER) + Tally(s'.turns, Questions)
      && RowsWith(s'.db.messages, ASSISTANT) == RowsWith(s.db.messages, ASSISTANT) + Tally(s'.turns, Answers)
      && |s'.db.messages| == |s.db.messages| + Tally(s'.turns, Questions) + Tally(s'.turns, Answers)
      && |s'.db.calls| == |s.db.calls| + Tally(s'.turns, Calls)
      && (forall i :: 0 <= i < |s'.turns| ==> ClaimedSince(s.db, s'.turns[i].own))
      && (forall i, j :: 0 <= i < j < |s'.turns| ==> Apart(s'.turns[i].own, s'.turns[j].own))
      && (forall i :: 0 <= i < |s'.turns| && s'.turns[i].phase.Over? ==> FullyRecorded(s'.db, s'.turns[i]))
  {
    RunKeepsInv(s, events);
    RunKeepsBalance(s, events);
  }

  /** One question, one call, and a reply exactly when there is something to store. */
  predicate FullyRecorded(db: ChatDb, t: Turn) {
    && MessageAt(db, t.own.question, t.c, USER, t.question)
    && t.own.call.Some? && t.own.call.value < |db.calls|
    && db.calls[t.own.call.value].conversationId == t.c
    && (if db.calls[t.own.call.value].succeeded || Join(t.collected) != []
        then MessageAt(db, t.own.reply, t.c, ASSISTANT, Join(t.collected)) else t.own.reply.None?)
  }

  lemma {:induction false} TallyOfAll(turns: seq<Turn>, weight: Turn -> nat)
    requires forall i :: 0 <= i < |turns| ==> weight(turns[i]) == 1
    ensures Tally(turns, weight) == |turns|
  {
    if turns != [] { TallyOfAll(turns[..|turns| - 1], weight); }
  }

  /** When all turns have reached a terminal event, each has added one user message and one ledger
      row. */
  lemma EachEndedTurnCounts(s: System, events: seq<Event>)
    requires Initial(s) && forall i :: 0 <= i < |Run(s, events).turns| ==> Run(s, events).turns[i].phase.Over?
    ensures var s' := Run(s, events);
      && RowsWith(s'.db.messages, USER) == RowsWith(s.db.messages, USER) + |s'.turns|
      && |s'.db.calls| == |s.db.calls| + |s'.turns|
  {
    LedgerIsConserved(s, events);
    var s' := Run(s, events);
    assert forall i :: 0 <= i < |s'.turns| ==> FullyRecorded(s'.db, s'.turns[i]);
    TallyOfAll(s'.turns, Questions);
    TallyOfAll(s'.turns, Calls);
  }

  ghost predicate AllWritten(calls: seq<CallRow>) {
    forall i :: 0 <= i < |calls| ==> Ledger.Written(calls[i])
  }

  lemma NextKeepsWritten(s: System, e: Event)
    requires AllWritten(s.db.calls)
    ensures AllWritten(Next(s, e).db.calls)
  {
    if Enabled(s, e) && e.CommitReply? {
      Ledger.SucceededIsWritten(s.turns[e.turn].c, e.id, s.turns[e.turn].phase.k);
    } else if Enabled(s, e) && e.CommitFailure? {
      Ledger.FailedIsWritten(s.turns[e.turn].c, e.provider, e.model, s.turns[e.turn].phase.e);
    }
  }

  /** In every state of every interleaving the usage summary is consistent: calls = succeeded +
      failed, failed <= unpriced, the coverage is a share, and the total is within half a millionth of
      a dollar per priced call of the exact cost. */
  lemma {:induction false} SummaryOfRunIsConsistent(s: System, events: seq<Event>)
    requires Initial(s) && AllWritten(s.db.calls)
    ensures AllWritten(Run(s, events).db.calls)
    ensures var calls := Run(s, events).db.calls;
      var summary := Ledger.Summarise(calls);
      && summary.calls == |calls| == Ledger.Succeeded(calls) + summary.failedCalls
      && summary.failedCalls <= summary.unpricedCalls <= summary.calls
      && 0.0 <= summary.CostCoverage() <= 1.0
      && Pricing.Abs(1000 * summary.totalCost - Ledger.ExactCost(calls)) <= 500 * (summary.calls - summary.unpricedCalls)
  {
    if events != [] {
      SummaryOfRunIsConsistent(s, events[..|events| - 1]);
      NextKeepsWritten(Run(s, events[..|events| - 1]), events[|events| - 1]);
    }
    Ledger.SummaryIsConsistent(Run(s, events).db.calls);
    Ledger.TotalCostIsClose(Run(s, events).db.calls);
  }
}
