/** `ChatService.stream_turn` and the endpoint that frames it. */
module ChatService {
  import opened Wrappers
  import opened Unicode
  import opened UnitOfWork
  import opened Conversations
  import opened LlmErrors
  import opened LlmProvider
  import opened ChatEvents
  import opened ChatUnits

  const MAX_MESSAGE_LENGTH: nat := 8000

  /** Which unit of work the database fails, for instance on the unique index. */
  datatype Faults = Faults(onUser: bool, onReply: bool, onFailure: bool)

  /** An event, and what was committed when it was yielded. */
  datatype Emission = Emission(event: TurnEvent, committed: ChatDb)

  /** How the generator ended: normally, by an application error, by a database error, or closed by
      its consumer. */
  datatype Ending = Completed | Refused(code: PyString, message: PyString) | Crashed | Abandoned

  datatype TurnResult = TurnResult(trace: seq<Emission>, ending: Ending, committed: ChatDb)

  const NOT_EMPTY := Refused(Py("validation_error"), Py("Message content must not be empty."))
  const TOO_LONG := Refused(Py("validation_error"), Py("Message exceeds the 8000 character limit."))
  const NOT_FOUND := Refused(Py("not_found"), Py("Conversation not found."))

  /** One call of `stream_turn`: who asks what, and the fresh ids and the clock of this turn. */
  datatype Request = Request(c: ConversationId, user: UserId, content: PyString, userMessageId: MessageId,
                             replyId: MessageId, latency: Literal)

  function Emissions(texts: seq<PyString>, db: ChatDb): (r: seq<Emission>)
    ensures |r| == |texts| && forall i :: 0 <= i < |r| ==> r[i] == Emission(Delta(texts[i]), db)
  {
    seq(|texts|, i requires 0 <= i < |texts| => Emission(Delta(texts[i]), db))
  }

  function Opening(r: Request, db: ChatDb): Emission {
    Emission(UserMessage(IdText(r.userMessageId), IdText(r.c)), db)
  }

  /** `"".join(collected) or completion.text`. */
  function StoredText(texts: seq<PyString>, k: Completion): PyString {
    if Join(texts) != [] then Join(texts) else k.text
  }

  /** The last step of a turn whose question is committed as `db`. */
  ghost function Closing(r: Request, db: ChatDb, run: Attempt, provider: string, model: string, faults: Faults): TurnResult
    requires MeetsContract(run)
  {
    var texts := Deltas(run.events);
    var next := NextSequence(db.messages, r.c);
    match run.failure
    case None =>
      var k := run.events[|run.events| - 1].completion;
      var db' := ReplyUnit(db, r.c, StoredText(texts, k), k, r.replyId, next);
      if faults.onReply || db'.None? then TurnResult([], Crashed, db)
      else TurnResult([Emission(Done(Metadata(r.replyId, k, r.latency)), db'.value)], Completed, db'.value)
    case Some(e) =>
      var db' := FailureUnit(db, r.c, Join(texts), e, provider, model, r.replyId, next);
      if faults.onFailure || db'.None? then TurnResult([], Crashed, db)
      else TurnResult([Emission(Failed(e.Code(), e.message, Some(texts != [])), db'.value)], Completed, db'.value)
  }

  /** A turn whose question has been committed as `db`: the announcement, the deltas, the end. */
  ghost function AnsweredTurn(r: Request, db: ChatDb, run: Attempt, provider: string, model: string,
                              faults: Faults): TurnResult
    requires MeetsContract(run)
  {
    var closing := Closing(r, db, run, provider, model, faults);
    TurnResult([Opening(r, db)] + Emissions(Deltas(run.events), db) + closing.trace, closing.ending, closing.committed)
  }

  /** A whole turn against a provider run, when its consumer reads it to the end. */
  ghost function WholeTurn(r: Request, db: ChatDb, run: Attempt, provider: string, model: string,
                           faults: Faults): TurnResult
    requires MeetsContract(run)
  {
    var content := PyStrip(r.content);
    if content == [] then TurnResult([], NOT_EMPTY, db)
    else if |content| > MAX_MESSAGE_LENGTH then TurnResult([], TOO_LONG, db)
    else if !Owned(db, r.c, r.user) then TurnResult([], NOT_FOUND, db)
    else
      var asked := UserUnit(db, r.c, content, r.userMessageId, NextSequence(db.messages, r.c));
      if faults.onUser || asked.None? then TurnResult([], Crashed, db)
      else AnsweredTurn(r, asked.value, run, provider, model, faults)
  }

  type Positive = n: nat | n > 0 witness 1

  /** The same turn when the consumer closes the generator after `stopAfter` events. */
  ghost function Until(t: TurnResult, stopAfter: Option<Positive>): TurnResult {
    if stopAfter.Some? && stopAfter.value <= |t.trace| then
      TurnResult(t.trace[..stopAfter.value], Abandoned, t.trace[stopAfter.value - 1].committed)
    else t
  }

  class ChatService {
    const session: Session<ChatDb>
    const provider: LLMProvider
    const historyLimit: nat

    constructor (session: Session<ChatDb>, provider: LLMProvider, historyLimit: nat)
      ensures this.session == session && this.provider == provider && this.historyLimit == historyLimit
    {
      this.session, this.provider, this.historyLimit := session, provider, historyLimit;
    }

    /** The first unit of work. */
    method PersistUserTurn(r: Request, content: PyString, fails: bool)
      returns (history: Option<seq<ChatMessage>>, found: bool)
      requires session.working == session.committed
      modifies session
      ensures session.working == session.committed
      ensures found == Owned(old(session.committed), r.c, r.user)
      ensures history.None? ==> session.committed == old(session.committed)
      ensures history.None? <==> !found || fails || UserUnit(old(session.committed), r.c, content, r.userMessageId,
                                                             NextSequence(old(session.committed.messages), r.c)).None?
      ensures history.Some? ==>
        && Some(session.committed) == UserUnit(old(session.committed), r.c, content, r.userMessageId,
                                               NextSequence(old(session.committed.messages), r.c))
        && history.value == History(session.committed, r.c, historyLimit)
    {
      found := r.c in session.working.conversations && session.working.conversations[r.c].userId == r.user;
      if !found {
        var _ := session.Close(true, false);
        return None, false;
      }
      var rows := StoreQuestion(r, content);
      var ok := session.Close(fails, false);
      history := if ok then Some(NonSystem(rows)) else None;
    }

    /** The statements of that unit of work: insert, title, history. */
    method StoreQuestion(r: Request, content: PyString) returns (rows: seq<MessageRow>)
      requires r.c in session.working.conversations
      modifies session
      ensures session.committed == old(session.committed)
      ensures UserUnit(old(session.working), r.c, content, r.userMessageId,
          NextSequence(old(session.working.messages), r.c))
        == Some(session.working)
      ensures NonSystem(rows) == History(session.working, r.c, historyLimit)
    {
      var repo := new ConversationRepository(session);
      var stored := repo.AddMessage(r.c, USER, content, r.userMessageId);
      var count := repo.MessageCount(r.c);
      var db := session.working;
      if count == 1 {
        session.working := db.(conversations := db.conversations[r.c := db.conversations[r.c].(title := Titled(content))]);
      }
      assert session.working == Retitled(db, r.c, content);
      rows := repo.ListMessages(r.c, Some(historyLimit));
    }

    method PersistAssistantTurn(r: Request, text: PyString, k: Completion, fails: bool) returns (ok: bool)
      requires session.working == session.committed
      modifies session
      ensures session.working == session.committed
      ensures ok == !fails
      ensures !ok ==> session.committed == old(session.committed)
      ensures ok ==> Some(session.committed) == ReplyUnit(old(session.committed), r.c, text, k, r.replyId,
                                                          NextSequence(old(session.committed.messages), r.c))
    {
      var repo := new ConversationRepository(session);
      var m := repo.AddMessage(r.c, ASSISTANT, text, r.replyId);
      session.working := session.working.(calls := session.working.calls + [SucceededCall(r.c, m.id, k)]);
      ok := session.Close(fails, false);
    }

    method RecordFailure(r: Request, partial: PyString, e: LlmError, fails: bool) returns (ok: bool)
      requires session.working == session.committed
      modifies session
      ensures session.working == session.committed
      ensures ok == !fails
      ensures !ok ==> session.committed == old(session.committed)
      ensures ok ==>
        Some(session.committed) == FailureUnit(old(session.committed), r.c, partial, e, provider.name,
          provider.defaultModel, r.replyId, NextSequence(old(session.committed.messages), r.c))
    {
      if partial != [] {
        var repo := new ConversationRepository(session);
        var _ := repo.AddMessage(r.c, ASSISTANT, partial, r.replyId);
      }
      session.working := session.working.(calls := session.working.calls
          + [FailedCall(r.c, provider.name, provider.defaultModel, e)]);
      ok := session.Close(fails, false);
    }

    /** The last unit of work and the event that announces it, on either path. */
    method FinishTurn(r: Request, ghost run: Attempt, collected: seq<PyString>, finished: Option<Completion>,
                      raised: Option<LlmError>, faults: Faults)
      returns (trace: seq<Emission>, ending: Ending)
      requires session.working == session.committed
      requires MeetsContract(run) && collected == Deltas(run.events) && raised == run.failure
      requires finished == if raised.Some? then None else Some(run.events[|run.events| - 1].completion)
      modifies session
      ensures session.working == session.committed
      ensures TurnResult(trace, ending, session.committed)
        == Closing(r, old(session.committed), run, provider.name, provider.defaultModel, faults)
    {
      if finished.Some? {
        var k := finished.value;
        var ok := PersistAssistantTurn(r, StoredText(collected, k), k, faults.onReply);
        NextSequenceIsFree(old(session.committed), r.c);
        if !ok { return [], Crashed; }
        return [Emission(Done(Metadata(r.replyId, k, r.latency)), session.committed)], Completed;
      } else {
        var e := raised.value;
        var ok := RecordFailure(r, Join(collected), e, faults.onFailure);
        NextSequenceIsFree(old(session.committed), r.c);
        if !ok { return [], Crashed; }
        return [Emission(Failed(e.Code(), e.message, Some(collected != [])), session.committed)], Completed;
      }
    }

    /** `stream_turn`. `attempts(k)` is what the k-th call of the provider's `_stream` does; `asked` is
        what the provider was sent, if it was called. */
    method StreamTurn(r: Request, systemPrompt: PyString, attempts: nat -> Attempt, faults: Faults,
                      stopAfter: Option<Positive>)
      returns (trace: seq<Emission>, ending: Ending, asked: Option<seq<ChatMessage>>, ghost run: Attempt)
      requires session.working == session.committed
      requires forall k: nat :: k <= provider.maxRetries ==> MeetsContract(attempts(k))
      modifies session
      ensures session.working == session.committed
      ensures MeetsContract(run)
      ensures asked.Some? ==> RunOf(attempts, provider.name, provider.defaultModel, provider.maxRetries, run)
      ensures asked.Some? ==>
        |trace| > 0 && asked.value == [ChatMessage(SYSTEM, systemPrompt)] + History(trace[0].committed, r.c, historyLimit)
      ensures TurnResult(trace, ending, session.committed)
        == Until(WholeTurn(r, old(session.committed), run, provider.name, provider.defaultModel, faults), stopAfter)
    {
      trace, asked, run := [], None, Attempt([], Some(TIMED_OUT));
      var content := PyStrip(r.content);
      if content == [] { return trace, NOT_EMPTY, None, run; }
      if |content| > MAX_MESSAGE_LENGTH { return trace, TOO_LONG, None, run; }

      var history, found := PersistUserTurn(r, content, faults.onUser);
      if !found { return trace, NOT_FOUND, None, run; }
      if history.None? { return trace, Crashed, None, run; }

      NextSequenceIsFree(old(session.committed), r.c);
      var opening := Emission(UserMessage(IdText(r.userMessageId), IdText(r.c)), session.committed);
      if stopAfter == Some(1) {
        trace := [opening];
        return trace, Abandoned, None, run;
      }
      asked := Some([ChatMessage(SYSTEM, systemPrompt)] + history.value);
      trace, ending, run := Answer(r, opening, attempts, faults, stopAfter);
    }

    /** Everything after the question was announced. */
    method Answer(r: Request, opening: Emission, attempts: nat -> Attempt, faults: Faults, stopAfter: Option<Positive>)
      returns (trace: seq<Emission>, ending: Ending, ghost run: Attempt)
      requires session.working == session.committed && opening == Opening(r, session.committed)
      requires forall k: nat :: k <= provider.maxRetries ==> MeetsContract(attempts(k))
      requires stopAfter != Some(1)
      modifies session
      ensures session.working == session.committed
      ensures MeetsContract(run) && RunOf(attempts, provider.name, provider.defaultModel, provider.maxRetries, run)
      ensures |trace| > 0 && trace[0] == opening
      ensures TurnResult(trace, ending, session.committed)
        == Until(AnsweredHere(r, old(session.committed), run, faults), stopAfter)
    {
      var events, raised, n := RunProvider(attempts);
      run := Attempt(events, raised);
      var collected, stopped := [], false;
      collected, trace, stopped := Relay(events, n, opening, stopAfter);
      if stopped {
        StoppedWhileRelaying(r, session.committed, run, provider.name, provider.defaultModel, faults, stopAfter.value);
        return trace, Abandoned, run;
      }
      var finished := if raised.Some? then None else Some(events[n].completion);
      var last: seq<Emission>;
      last, ending := FinishTurn(r, run, collected, finished, raised, faults);
      ClosedAtLast(r, old(session.committed), run, provider.name, provider.defaultModel, faults, stopAfter);
      trace := trace + last;
      if stopAfter == Some(|trace|) { ending := Abandoned; }
    }

    /** The provider's stream, and the number of deltas in it. */
    method RunProvider(attempts: nat -> Attempt) returns (events: seq<StreamEvent>, raised: Option<LlmError>, n: nat)
      requires forall k: nat :: k <= provider.maxRetries ==> MeetsContract(attempts(k))
      ensures MeetsContract(Attempt(events, raised))
      ensures RunOf(attempts, provider.name, provider.defaultModel, provider.maxRetries, Attempt(events, raised))
      ensures n == (if raised.Some? then |events| else |events| - 1) && OnlyDeltas(events[..n])
    {
      var calls, slept;
      events, raised, calls, slept := provider.Stream(None, attempts);
      DecidedRun(attempts, provider.name, provider.defaultModel, provider.maxRetries, calls - 1);
      n := if raised.Some? then |events| else |events| - 1;
      DeltasFirst(Attempt(events, raised), n);
    }

    ghost function AnsweredHere(r: Request, db: ChatDb, run: Attempt, faults: Faults): TurnResult
      requires MeetsContract(run)
    {
      AnsweredTurn(r, db, run, provider.name, provider.defaultModel, faults)
    }
  }

  /** The provider run a turn relays: everything the attempts up to the deciding one yield. */
  ghost predicate RunOf(attempts: nat -> Attempt, provider: string, model: string, maxRetries: nat, run: Attempt) {
    exists k: nat :: Decides(attempts, maxRetries, k)
        && run == Attempt(Emitted(attempts, provider, model, k + 1), attempts(k).failure)
  }

  lemma DecidedRun(attempts: nat -> Attempt, provider: string, model: string, maxRetries: nat, k: nat)
    requires forall j: nat :: j <= maxRetries ==> MeetsContract(attempts(j))
    requires Decides(attempts, maxRetries, k)
    ensures var run := Attempt(Emitted(attempts, provider, model, k + 1), attempts(k).failure);
      MeetsContract(run) && RunOf(attempts, provider, model, maxRetries, run)
  {
    StreamMeetsContract(attempts, provider, model, maxRetries, k);
  }

  lemma DeltasFirst(run: Attempt, n: nat)
    requires MeetsContract(run) && n == (if run.failure.Some? then |run.events| else |run.events| - 1)
    ensures OnlyDeltas(run.events[..n])
  {
    assert run.failure.Some? ==> run.events[..n] == run.events;
  }

  /** The loop over the provider's deltas: each is collected and yielded on. */
  method Relay(events: seq<StreamEvent>, n: nat, opening: Emission, stopAfter: Option<Positive>)
    returns (collected: seq<PyString>, trace: seq<Emission>, stopped: bool)
    requires n <= |events| && OnlyDeltas(events[..n])
    requires n == |events| || (n == |events| - 1 && events[n].StreamFinished?)
    requires stopAfter != Some(1)
    ensures var whole := [opening] + Emissions(Deltas(events), opening.committed);
      && (stopped <==> stopAfter.Some? && stopAfter.value <= |whole|)
      && (if stopped then trace == whole[..stopAfter.value] else trace == whole && collected == Deltas(events))
  {
    collected, trace := [], [opening];
    for i := 0 to n
      invariant collected == Deltas(events[..i])
      invariant trace == [opening] + Emissions(collected, opening.committed)
      invariant |collected| == i
      invariant stopAfter.Some? ==> |trace| < stopAfter.value
    {
      assert events[..i + 1][..i] == events[..i];
      assert events[i] == events[..n][i];
      PrefixOfDeltas(events, n, i + 1);
      collected := collected + [events[i].text];
      trace := trace + [Emission(Delta(events[i].text), opening.committed)];
      assert trace == [opening] + Emissions(collected, opening.committed);
      if stopAfter == Some(|trace|) {
        PrefixOfDeltas(events, n, n);
        stopped := true;
        return;
      }
    }
    PrefixOfDeltas(events, n, n);
    stopped := false;
  }

  /** A generator closed before the end of the turn leaves what the turn had committed by then. */
  lemma StoppedWhileRelaying(r: Request, db: ChatDb, run: Attempt, provider: string, model: string, faults: Faults,
                             stopAfter: Positive)
    requires MeetsContract(run)
    requires stopAfter <= |Deltas(run.events)| + 1
    ensures var relayed := [Opening(r, db)] + Emissions(Deltas(run.events), db);
      TurnResult(relayed[..stopAfter], Abandoned, db) ==
          Until(AnsweredTurn(r, db, run, provider, model, faults), Some(stopAfter))
  {
    var relayed := [Opening(r, db)] + Emissions(Deltas(run.events), db);
    var whole := AnsweredTurn(r, db, run, provider, model, faults).trace;
    assert whole[..|relayed|] == relayed;
    assert whole[..stopAfter] == relayed[..stopAfter];
    assert whole[stopAfter - 1] == relayed[stopAfter - 1];
  }

  lemma ClosedAtLast(r: Request, db: ChatDb, run: Attempt, provider: string, model: string, faults: Faults,
                     stopAfter: Option<Positive>)
    requires MeetsContract(run)
    requires stopAfter.Some? ==> stopAfter.value > |Deltas(run.events)| + 1
    ensures var t := AnsweredTurn(r, db, run, provider, model, faults);
      Until(t, stopAfter) == if stopAfter == Some(|t.trace|) then t.(ending := Abandoned) else t
  {
    var t := AnsweredTurn(r, db, run, provider, model, faults);
    var closing := Closing(r, db, run, provider, model, faults);
    assert |closing.trace| <= 1;
    assert t.trace[..|t.trace|] == t.trace;
    if stopAfter == Some(|t.trace|) { assert t.trace[|t.trace| - 1] == closing.trace[0]; }
  }

  /** The texts of the first events are the first texts. */
  lemma {:induction false} PrefixOfDeltas(events: seq<StreamEvent>, n: nat, i: nat)
    requires i <= n <= |events| && OnlyDeltas(events[..n])
    requires n == |events| || (n == |events| - 1 && events[n].StreamFinished?)
    ensures Deltas(events[..i]) <= Deltas(events) && |Deltas(events[..i])| == i
    ensures i == n ==> Deltas(events[..i]) == Deltas(events)
    decreases n - i
  {
    DeltasOfOnlyDeltas(events[..n]);
    assert Deltas(events) == Deltas(events[..n]) by {
      if n == |events| { assert events[..n] == events; }
    }
    DeltasOfOnlyDeltas(events[..i]);
    forall j | 0 <= j < i
      ensures Deltas(events[..i])[j] == Deltas(events)[j]
    {
      assert events[..i][j] == events[..n][j];
    }
    if i == n { assert events[..i] == events[..n]; }
  }

  lemma {:induction false} DeltasOfOnlyDeltas(events: seq<StreamEvent>)
    requires OnlyDeltas(events)
    ensures |Deltas(events)| == |events|
    ensures forall j :: 0 <= j < |events| ==> Deltas(events)[j] == events[j].text
  {
    if events != [] {
      assert OnlyDeltas(events[..|events| - 1]);
      DeltasOfOnlyDeltas(events[..|events| - 1]);
    }
  }
}
