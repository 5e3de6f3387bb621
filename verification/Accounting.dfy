/** The accounting of a turn: what the provider reports of its deciding attempt is what the ledger
    records, what the done event says and what the page shows. */
module Accounting {
  import opened Wrappers
  import opened Unicode
  import opened Conversations
  import opened LlmErrors
  import opened LlmProvider
  import opened Json
  import opened ChatEvents
  import opened ChatUnits
  import opened ChatService
  import opened ChatEndpoint
  import opened UseChat
  import ChatStream
  import Decimals
  import EndToEnd
  import Pricing

  /** The attempt that decided the run of a provider. */
  ghost predicate DecidedBy(run: Attempt, attempts: nat -> Attempt, provider: string, model: string, maxRetries: nat,
                            k: nat)
  {
    && (forall j: nat :: j <= k ==> MeetsContract(attempts(j)))
    && Decides(attempts, maxRetries, k)
    && run == Attempt(Emitted(attempts, provider, model, k + 1), attempts(k).failure)
  }

  /** What the deciding attempt itself reported. */
  function Own(a: Attempt): Completion
    requires MeetsContract(a) && a.failure.None?
  {
    a.events[|a.events| - 1].completion
  }

  /** The row of a finished call says what the provider reported, under the name and model asked. */
  predicate RecordsSuccess(call: CallRow, c: ConversationId, reply: MessageId, own: Completion, provider: string,
                           model: string, retries: nat)
  {
    && call.conversationId == c && call.messageId == Some(reply) && call.succeeded && call.errorCode == None
    && call.provider == provider && call.model == model && call.retries == retries
    && call.inputTokens == own.usage.inputTokens && call.outputTokens == own.usage.outputTokens
    && call.cachedInputTokens == own.usage.cachedInputTokens && call.finishReason == Some(own.finishReason)
    && call.cost == Pricing.EstimateCost(provider, model, own.usage)
  }

  /** The row of a failed call names the failure and claims nothing else. */
  predicate RecordsFailure(call: CallRow, c: ConversationId, e: LlmError, provider: string, model: string) {
    && call.conversationId == c && call.messageId == None && !call.succeeded && call.errorCode == Some(e.Code())
    && call.provider == provider && call.model == model && call.retries == 0
    && call.inputTokens == 0 && call.outputTokens == 0 && call.cachedInputTokens == 0
    && call.finishReason == None && call.cost == None
  }

  predicate TellsSuccess(m: TurnMetadata, reply: MessageId, own: Completion, provider: string, model: string,
                         latency: Literal)
  {
    && m.messageId == IdText(reply) && m.provider == Py(provider) && m.model == Py(model)
    && (m.isTestDouble <==> provider == "fake")
    && m.finishReason == own.finishReason
    && m.inputTokens == own.usage.inputTokens && m.outputTokens == own.usage.outputTokens && m.latency == latency
    && match Pricing.EstimateCost(provider, model, own.usage)
       case None => m.cost == None
       case Some(micros) => m.cost == Some(Py(Pricing.CostText(micros)))
  }

  /** The last event of a run is the deciding attempt's own, relabelled. */
  lemma RunReportsOwn(run: Attempt, attempts: nat -> Attempt, provider: string, model: string, maxRetries: nat, k: nat)
    requires DecidedBy(run, attempts, provider, model, maxRetries, k)
    ensures MeetsContract(run)
    ensures run.failure.None? ==>
      var own := Own(attempts(k));
      run.events[|run.events| - 1].completion == Completion(own.text, provider, model, own.usage, own.finishReason, k)
  {
    StreamMeetsContract(attempts, provider, model, maxRetries, k);
  }

  lemma SuccessIsRecorded(r: Request, db: ChatDb, run: Attempt, provider: string, model: string, faults: Faults,
                          closing: TurnResult)
    requires MeetsContract(run) && run.failure.None? && closing == Closing(r, db, run, provider, model, faults)
    requires closing.ending.Completed?
    ensures var k := run.events[|run.events| - 1].completion;
      && |closing.committed.calls| == |db.calls| + 1
      && RecordsSuccess(closing.committed.calls[|db.calls|], r.c, r.replyId, k, k.provider, k.model, k.retries)
      && closing.trace == [Emission(Done(Metadata(r.replyId, k, r.latency)), closing.committed)]
  {
  }

  lemma MetadataTells(id: MessageId, k: Completion, latency: Literal)
    ensures TellsSuccess(Metadata(id, k, latency), id, k, k.provider, k.model, latency)
  {
  }

  lemma FailureIsRecorded(r: Request, db: ChatDb, run: Attempt, provider: string, model: string, faults: Faults,
                          closing: TurnResult)
    requires MeetsContract(run) && run.failure.Some? && closing == Closing(r, db, run, provider, model, faults)
    requires closing.ending.Completed?
    ensures |closing.committed.calls| == |db.calls| + 1
    ensures RecordsFailure(closing.committed.calls[|db.calls|], r.c, run.failure.value, provider, model)
  {
  }

  /** Relabelling keeps what is accounted for. */
  lemma RecordedAlike(call: CallRow, c: ConversationId, reply: MessageId, own: Completion, provider: string, model: string,
                      retries: nat)
    requires var k := Completion(own.text, provider, model, own.usage, own.finishReason, retries);
      RecordsSuccess(call, c, reply, k, k.provider, k.model, k.retries)
    ensures RecordsSuccess(call, c, reply, own, provider, model, retries)
  {
  }

  lemma ToldAlike(m: TurnMetadata, reply: MessageId, own: Completion, provider: string, model: string, retries: nat,
                  latency: Literal)
    requires var k := Completion(own.text, provider, model, own.usage, own.finishReason, retries);
      TellsSuccess(m, reply, k, k.provider, k.model, latency)
    ensures TellsSuccess(m, reply, own, provider, model, latency)
  {
  }

  /** Every completed turn adds one row to the ledger. After a success the row and the done event carry
      the usage, finish reason and cost of what the deciding attempt itself reported, with the number of
      attempts before it; after a failure the row names that attempt's error. */
  lemma TurnRecordsWhatWasReported(r: Request, db: ChatDb, attempts: nat -> Attempt, maxRetries: nat, k: nat, run: Attempt,
                                   provider: string, model: string, faults: Faults, t: TurnResult)
    requires DecidedBy(run, attempts, provider, model, maxRetries, k) && MeetsContract(run)
    requires t == WholeTurn(r, db, run, provider, model, faults) && t.ending.Completed?
    ensures |t.committed.calls| == |db.calls| + 1 && t.trace != []
    ensures var call, last := t.committed.calls[|db.calls|], t.trace[|t.trace| - 1].event;
      match attempts(k).failure
      case Some(e) => RecordsFailure(call, r.c, e, provider, model)
      case None =>
        && RecordsSuccess(call, r.c, r.replyId, Own(attempts(k)), provider, model, k)
        && last.Done? && TellsSuccess(last.metadata, r.replyId, Own(attempts(k)), provider, model, r.latency)
  {
    RunReportsOwn(run, attempts, provider, model, maxRetries, k);
    var db1, closing := TurnHasShape(r, db, run, provider, model, faults, t);
    UserUnitAdds(db, r.c, PyStrip(r.content), r.userMessageId, NextSequence(db.messages, r.c), db1);
    if run.failure.None? {
      var own := Own(attempts(k));
      SuccessIsRecorded(r, db1, run, provider, model, faults, closing);
      RecordedAlike(closing.committed.calls[|db.calls|], r.c, r.replyId, own, provider, model, k);
      var reported := Completion(own.text, provider, model, own.usage, own.finishReason, k);
      MetadataTells(r.replyId, reported, r.latency);
      ToldAlike(Metadata(r.replyId, reported, r.latency), r.replyId, own, provider, model, k, r.latency);
    } else {
      FailureIsRecorded(r, db1, run, provider, model, faults, closing);
    }
  }

  // --- on the page --------------------------------------------------------------------------

  /** What a terminal event makes the page show. */
  predicate Shows(after: ChatState, last: TurnEvent) {
    && after.streaming == None && !after.isSending
    && after.metadata == (if last.Done? then Some(SeenObject(Payload(last))) else None)
    && after.error == (if last.Failed? then Some(Utf16(last.message)) else None)
  }

  lemma ShownOfStream(opening: TurnEvent, deltas: seq<TurnEvent>, last: TurnEvent, views: seq<ClientEvent>, s: ChatState,
                      content: JsString, ids: LocalIds)
    requires opening.UserMessage? && (last.Done? || last.Failed?) && forall i :: 0 <= i < |deltas| ==> deltas[i].Delta?
    requires views == ChatStream.ClientViews([opening] + deltas + [last]) && !JsBlank(content)
    ensures Shows(AfterSend(s, content, views, None, ids), last)
  {
    var before := EndToEnd.ViewsOfTurn(opening, deltas, last);
    ShownAfterEnd(s, content, before, ClientView(last), ids);
  }

  /** The last event of a completed turn decides what the page shows of its outcome. */
  lemma PageShowsLastEvent(r: Request, db: ChatDb, run: Attempt, provider: string, model: string, faults: Faults,
                           t: TurnResult, chunks: seq<string>, s: ChatState, ids: LocalIds)
    requires MeetsContract(run) && t == WholeTurn(r, db, run, provider, model, faults) && t.ending.Completed?
    requires Join(chunks) == ChatStream.Wire(Sent(t)) && !JsBlank(Utf16(r.content))
    ensures t.trace != []
    ensures Shows(EndToEnd.ClientAfter(s, r, t, chunks, ids), t.trace[|t.trace| - 1].event)
  {
    var opening, deltas, last := EndToEnd.SentByCompletedTurn(r, db, run, provider, model, faults, t);
    EndToEnd.FirstAndLastSent(t, opening, deltas, last);
    ChatStream.EventsRoundTrip(Sent(t));
    ShownOfStream(opening, deltas, last, ChatStream.ClientViews(Sent(t)), s, Utf16(r.content), ids);
  }

  /** What the client holds of a finished turn's accounting, by its member names. */
  predicate ShowsAccounting(o: JsObject, reply: MessageId, own: Completion, provider: string, model: string) {
    && Lookup(o, Js(MESSAGE_ID)) == Some(Text(Utf16(IdText(reply))))
    && Lookup(o, Js(PROVIDER)) == Some(Text(Utf16(Py(provider))))
    && Lookup(o, Js(MODEL)) == Some(Text(Utf16(Py(model))))
    && Lookup(o, Js(FINISH_REASON)) == Some(Text(Utf16(own.finishReason)))
    && Lookup(o, Js(INPUT_TOKENS)) == Some(Number(Decimals.Print(own.usage.inputTokens)))
    && Lookup(o, Js(OUTPUT_TOKENS)) == Some(Number(Decimals.Print(own.usage.outputTokens)))
    && Lookup(o, Js(COST_USD)) == Some(
         match Pricing.EstimateCost(provider, model, own.usage)
         case None => Null
         case Some(micros) => Text(Utf16(Py(Pricing.CostText(micros)))))
  }

  lemma ToldIsShown(m: TurnMetadata, reply: MessageId, own: Completion, provider: string, model: string, latency: Literal)
    requires TellsSuccess(m, reply, own, provider, model, latency)
    ensures ShowsAccounting(SeenObject(Payload(Done(m))), reply, own, provider, model)
  {
    AccountingIsReadBack(m);
  }

  /** After a finished turn the page holds the accounting that the deciding attempt itself reported; after
      a failed one, the message of that attempt's error. */
  lemma PageShowsWhatWasReported(r: Request, db: ChatDb, attempts: nat -> Attempt, maxRetries: nat, k: nat, run: Attempt,
                                 provider: string, model: string, faults: Faults, t: TurnResult, chunks: seq<string>,
                                 s: ChatState, ids: LocalIds)
    requires DecidedBy(run, attempts, provider, model, maxRetries, k) && MeetsContract(run)
    requires t == WholeTurn(r, db, run, provider, model, faults) && t.ending.Completed?
    requires Join(chunks) == ChatStream.Wire(Sent(t)) && !JsBlank(Utf16(r.content))
    ensures var after := EndToEnd.ClientAfter(s, r, t, chunks, ids);
      match attempts(k).failure
      case Some(e) => after.error == Some(Utf16(e.message)) && after.metadata == None
      case None =>
        && after.error == None && after.metadata.Some?
        && ShowsAccounting(after.metadata.value, r.replyId, Own(attempts(k)), provider, model)
  {
    TurnRecordsWhatWasReported(r, db, attempts, maxRetries, k, run, provider, model, faults, t);
    PageShowsLastEvent(r, db, run, provider, model, faults, t, chunks, s, ids);
    var last := t.trace[|t.trace| - 1].event;
    if run.failure.None? {
      ToldIsShown(last.metadata, r.replyId, Own(attempts(k)), provider, model, r.latency);
    } else {
      EndToEnd.FailedTurnSends(r, db, run, provider, model, faults, t);
      assert Sent(t) == EventsOf(t.trace);
    }
  }
}
