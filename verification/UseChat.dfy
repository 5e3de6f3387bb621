/** The `useChat` hook: the client's replica of a conversation and what one `send` does to it. */
module UseChat {
  import opened Wrappers
  import opened Unicode
  import opened Json
  import opened ChatEvents
  import Conversations

  type Role = Conversations.Role

  const MAX_SAFE_INTEGER: nat := 9007199254740991

  datatype UiMessage = UiMessage(id: JsString, sequence: nat, role: Role, content: JsString)

  datatype ChatState = ChatState(
    messages: seq<UiMessage>,
    streaming: Option<JsString>,
    metadata: Option<JsObject>,
    error: Option<JsString>,
    isSending: bool)

  /** The ids one `send` makes up: of the optimistic echo and of a kept partial reply. */
  datatype LocalIds = LocalIds(optimistic: JsString, partial: JsString)

  function WithEcho(s: ChatState, content: JsString, ids: LocalIds): ChatState {
    s.(messages := s.messages + [UiMessage(ids.optimistic, MAX_SAFE_INTEGER, Conversations.USER, content)],
       streaming := Some([]), metadata := None, error := None, isSending := true)
  }

  function Renamed(m: UiMessage, from: JsString, to: JsString): UiMessage {
    if m.id == from then m.(id := to) else m
  }

  function RenamedAll(messages: seq<UiMessage>, from: JsString, to: JsString): (r: seq<UiMessage>)
    ensures |r| == |messages|
    ensures forall i :: 0 <= i < |r| ==> r[i].role == messages[i].role && r[i].content == messages[i].content
  {
    seq(|messages|, i requires 0 <= i < |messages| => Renamed(messages[i], from, to))
  }

  function WithReply(s: ChatState, id: JsString, content: JsString): seq<UiMessage> {
    s.messages + [UiMessage(id, |s.messages| + 1, Conversations.ASSISTANT, content)]
  }

  /** One event of the stream; `accumulated` is the text so far, this event's delta included. */
  function Applied(s: ChatState, e: ClientEvent, accumulated: JsString, ids: LocalIds): ChatState {
    match e
    case UserConfirmed(id, _) => s.(messages := RenamedAll(s.messages, ids.optimistic, id))
    case DeltaArrived(_) => s.(streaming := Some(accumulated))
    case TurnDone(metadata) =>
      s.(streaming := None, metadata := Some(metadata), isSending := false,
         messages := WithReply(s, StringOf(Lookup(metadata, Js(MESSAGE_ID))), accumulated))
    case TurnFailed(_, message, _) =>
      s.(streaming := None, isSending := false, error := Some(message),
         messages := if accumulated != [] then WithReply(s, ids.partial, accumulated) else s.messages)
  }

  /** The concatenation of the deltas. */
  function Accumulated(events: seq<ClientEvent>): JsString {
    if events == [] then []
    else
      var init, last := Accumulated(events[..|events| - 1]), events[|events| - 1];
      if last.DeltaArrived? then init + last.text else init
  }

  /** The state after all of a stream's events. */
  function Played(s: ChatState, events: seq<ClientEvent>, ids: LocalIds): ChatState {
    if events == [] then s
    else Applied(Played(s, events[..|events| - 1], ids), events[|events| - 1], Accumulated(events), ids)
  }

  function WithThrown(s: ChatState, message: JsString): ChatState {
    s.(streaming := None, isSending := false, error := Some(message))
  }

  /** A whole `send`: the events delivered, and the message of the exception that ended the stream,
      if one did. */
  function AfterSend(s: ChatState, content: JsString, events: seq<ClientEvent>, thrown: Option<JsString>,
                     ids: LocalIds): ChatState {
    if JsBlank(content) then s
    else
      var played := Played(WithEcho(s, content, ids), events, ids);
      if thrown.Some? then WithThrown(played, thrown.value) else played
  }

  class ChatHook {
    var state: ChatState

    constructor (state: ChatState)
      ensures this.state == state
    {
      this.state := state;
    }

    /** `send`, uninterrupted. */
    method Send(content: JsString, events: seq<ClientEvent>, thrown: Option<JsString>, ids: LocalIds)
      modifies this
      ensures state == AfterSend(old(state), content, events, thrown, ids)
    {
      if JsBlank(content) { return; }
      state := state.(messages := state.messages
                                        + [UiMessage(ids.optimistic, MAX_SAFE_INTEGER, Conversations.USER, content)],
                      streaming := Some([]), metadata := None, error := None, isSending := true);
      var accumulated: JsString := [];
      for i := 0 to |events|
        invariant accumulated == Accumulated(events[..i])
        invariant state == Played(WithEcho(old(state), content, ids), events[..i], ids)
      {
        assert events[..i + 1][..i] == events[..i];
        match events[i] {
          case UserConfirmed(id, _) =>
            state := state.(messages := RenamedAll(state.messages, ids.optimistic, id));
          case DeltaArrived(text) =>
            accumulated := accumulated + text;
            state := state.(streaming := Some(accumulated));
          case TurnDone(metadata) =>
            state := state.(streaming := None, metadata := Some(metadata), isSending := false,
                            messages := WithReply(state, StringOf(Lookup(metadata, Js(MESSAGE_ID))), accumulated));
          case TurnFailed(_, message, _) =>
            state := state.(streaming := None, isSending := false, error := Some(message),
                            messages := if accumulated != [] then WithReply(state, ids.partial, accumulated)
                                else state.messages);
        }
      }
      assert events[..|events|] == events;
      if thrown.Some? {
        state := state.(streaming := None, isSending := false, error := thrown);
      }
    }
  }

  // --- what a send does, whatever arrives ---------------------------------------------------

  /** What a conversation says, without ids and sequence numbers. */
  datatype Said = Said(role: Role, content: JsString)

  function Projected(messages: seq<UiMessage>): (r: seq<Said>)
    ensures |r| == |messages| && forall i :: 0 <= i < |r| ==> r[i] == Said(messages[i].role, messages[i].content)
  {
    seq(|messages|, i requires 0 <= i < |messages| => Said(messages[i].role, messages[i].content))
  }

  predicate Ends(e: ClientEvent) {
    e.TurnDone? || e.TurnFailed?
  }

  /** What the events add to the conversation. */
  function Replies(events: seq<ClientEvent>): seq<Said> {
    if events == [] then []
    else
      var init, last := Replies(events[..|events| - 1]), events[|events| - 1];
      if last.TurnDone? || (last.TurnFailed? && Accumulated(events) != []) then
        init + [Said(Conversations.ASSISTANT, Accumulated(events))]
      else init
  }

  /** Events never reorder or drop what is there; they only append replies. */
  lemma {:induction false} PlayedAppendsReplies(s: ChatState, events: seq<ClientEvent>, ids: LocalIds)
    ensures Projected(Played(s, events, ids).messages) == Projected(s.messages) + Replies(events)
    ensures Played(s, events, ids).isSending <==> s.isSending && !exists e :: e in events && Ends(e)
  {
    if events != [] {
      var init, last := events[..|events| - 1], events[|events| - 1];
      PlayedAppendsReplies(s, init, ids);
      assert events == init + [last];
      assert last in events && forall e :: e in events <==> e in init || e == last;
      var before := Played(s, init, ids);
      AppliedAppends(before, last, Accumulated(events), ids);
    }
  }

  lemma AppliedAppends(s: ChatState, e: ClientEvent, accumulated: JsString, ids: LocalIds)
    ensures Projected(Applied(s, e, accumulated, ids).messages) == Projected(s.messages) +
      if e.TurnDone? || (e.TurnFailed? && accumulated != []) then [Said(Conversations.ASSISTANT, accumulated)] else []
    ensures Applied(s, e, accumulated, ids).isSending == (s.isSending && !Ends(e))
  {
  }

  /** The input is released exactly when the stream ended in done or error, or threw: a stream that
      stops quietly after a delta leaves the hook sending for ever. */
  lemma ReleasedExactlyWhenEnded(s: ChatState, content: JsString, events: seq<ClientEvent>, thrown: Option<JsString>,
                                 ids: LocalIds)
    requires !JsBlank(content)
    ensures !AfterSend(s, content, events, thrown, ids).isSending <==> thrown.Some? || exists e :: e in events && Ends(e)
  {
    PlayedAppendsReplies(WithEcho(s, content, ids), events, ids);
  }

  /** A send adds the user's message, then what the events add, and changes nothing before. */
  lemma SendAppends(s: ChatState, content: JsString, events: seq<ClientEvent>, thrown: Option<JsString>, ids: LocalIds)
    requires !JsBlank(content)
    ensures Projected(AfterSend(s, content, events, thrown, ids).messages)
      == Projected(s.messages) + [Said(Conversations.USER, content)] + Replies(events)
  {
    var echoed := WithEcho(s, content, ids);
    PlayedAppendsReplies(echoed, events, ids);
    assert Projected(echoed.messages) == Projected(s.messages) + [Said(Conversations.USER, content)];
  }

  // --- what the page shows ------------------------------------------------------------------

  lemma {:induction false} PlayedShows(s: ChatState, events: seq<ClientEvent>, ids: LocalIds)
    requires forall e :: e in events ==> !Ends(e)
    ensures var p := Played(s, events, ids);
      && p.metadata == s.metadata && p.error == s.error && p.isSending == s.isSending
      && p.streaming == if exists e :: e in events && e.DeltaArrived? then Some(Accumulated(events)) else s.streaming
  {
    if events != [] {
      var init, last := events[..|events| - 1], events[|events| - 1];
      assert events == init + [last] && last in events;
      assert forall e :: e in events <==> e in init || e == last;
      PlayedShows(s, init, ids);
    }
  }

  lemma {:induction false} NothingAccumulated(events: seq<ClientEvent>)
    requires forall e :: e in events ==> !e.DeltaArrived?
    ensures Accumulated(events) == []
  {
    if events != [] {
      assert events[|events| - 1] in events && forall e :: e in events[..|events| - 1] ==> e in events;
      NothingAccumulated(events[..|events| - 1]);
    }
  }

  /** While the answer streams in, the page shows all of it so far, and neither an error nor the
      accounting of an earlier turn. */
  lemma ShownWhileStreaming(s: ChatState, content: JsString, events: seq<ClientEvent>, ids: LocalIds)
    requires !JsBlank(content) && forall e :: e in events ==> !Ends(e)
    ensures var after := AfterSend(s, content, events, None, ids);
      after.streaming == Some(Accumulated(events)) && after.isSending && after.error == None && after.metadata == None
  {
    PlayedShows(WithEcho(s, content, ids), events, ids);
    if forall e :: e in events ==> !e.DeltaArrived? { NothingAccumulated(events); }
  }

  /** After the terminal event the stream is cleared, and the page shows the accounting of a finished
      turn or the message of a failed one. */
  lemma ShownAfterEnd(s: ChatState, content: JsString, events: seq<ClientEvent>, last: ClientEvent, ids: LocalIds)
    requires !JsBlank(content) && Ends(last) && forall e :: e in events ==> !Ends(e)
    ensures var after := AfterSend(s, content, events + [last], None, ids);
      && after.streaming == None && !after.isSending
      && after.metadata == (if last.TurnDone? then Some(last.metadata) else None)
      && after.error == (if last.TurnFailed? then Some(last.message) else None)
  {
    assert (events + [last])[..|events|] == events;
    PlayedShows(WithEcho(s, content, ids), events, ids);
  }

  /** An exception clears the stream and shows its message; it takes no message back and adds none. */
  lemma ShownAfterThrow(s: ChatState, content: JsString, events: seq<ClientEvent>, thrown: JsString, ids: LocalIds)
    requires !JsBlank(content)
    ensures var after := AfterSend(s, content, events, Some(thrown), ids);
      && after.streaming == None && !after.isSending && after.error == Some(thrown)
      && after.messages == AfterSend(s, content, events, None, ids).messages
      && after.metadata == AfterSend(s, content, events, None, ids).metadata
  {
  }

  /** A blank message is not sent: nothing happens. */
  lemma BlankIsIgnored(s: ChatState, content: JsString, events: seq<ClientEvent>, thrown: Option<JsString>, ids: LocalIds)
    requires JsBlank(content)
    ensures AfterSend(s, content, events, thrown, ids) == s
  {
  }

  /** Nothing but a confirmation of its own id changes a message that is there; a reply is appended
      with the number that follows and the whole text so far, under the stored id when it is complete
      and a made-up one when it was cut. */
  lemma EventChangesMessages(s: ChatState, e: ClientEvent, accumulated: JsString, ids: LocalIds)
    ensures var after := Applied(s, e, accumulated, ids).messages;
      && |s.messages| <= |after| <= |s.messages| + 1
      && (forall i :: 0 <= i < |s.messages| ==>
            if e.UserConfirmed? && s.messages[i].id == ids.optimistic then after[i] == s.messages[i].(id := e.messageId)
            else after[i] == s.messages[i])
      && (|after| > |s.messages| <==> e.TurnDone? || (e.TurnFailed? && accumulated != []))
      && (|after| > |s.messages| ==>
            var reply := after[|s.messages|];
            && reply.sequence == |s.messages| + 1 && reply.role == Conversations.ASSISTANT && reply.content == accumulated
            && reply.id == if e.TurnDone? then StringOf(Lookup(e.metadata, Js(MESSAGE_ID))) else ids.partial)
  {
  }

  /** The echo of the question sorts after everything and carries the made-up id. */
  lemma EchoIsLast(s: ChatState, content: JsString, ids: LocalIds)
    requires !JsBlank(content)
    ensures AfterSend(s, content, [], None, ids).messages
      == s.messages + [UiMessage(ids.optimistic, 9007199254740991, Conversations.USER, content)]
  {
  }
}
