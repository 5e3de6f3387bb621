/** The body of a streamed turn on its way to the client: written event by event, cut into
    arbitrary chunks, and read back incrementally by `streamMessage`. */
module ChatStream {
  import opened Wrappers
  import opened Unicode
  import opened Json
  import opened SseFrames
  import opened ChatEvents

  // --- whole-buffer reading: the reference --------------------------------------------------

  datatype Handled<E> = Skipped | Yielded(event: E) | Thrown

  /** One frame through `parseFrame` and `toEvent`. */
  function Handle(frame: string): Handled<ClientEvent> {
    match ParsedFrame(frame)
    case None => Skipped
    case Some(raw) =>
      match ToEvent(raw)
      case None => Thrown
      case Some(None) => Skipped
      case Some(Some(e)) => Yielded(e)
  }

  /** What the consumer of a generator gets: the events yielded, and whether it then threw. */
  datatype Delivery<E> = Delivery(events: seq<E>, threw: bool)

  function Deliver<E>(frames: seq<string>, handle: string -> Handled<E>): Delivery<E> {
    if frames == [] then Delivery([], false)
    else match handle(frames[0])
      case Skipped => Deliver(frames[1..], handle)
      case Yielded(e) => var rest := Deliver(frames[1..], handle); Delivery([e] + rest.events, rest.threw)
      case Thrown => Delivery([], true)
  }

  lemma {:induction false} DeliverAppend<E>(a: seq<string>, b: seq<string>, handle: string -> Handled<E>)
    ensures var first, second := Deliver(a, handle), Deliver(b, handle);
      Deliver(a + b, handle) ==
        if first.threw then first else Delivery(first.events + second.events, second.threw)
  {
    if a == [] {
      assert a + b == b;
    } else {
      assert (a + b)[1..] == a[1..] + b;
      DeliverAppend(a[1..], b, handle);
    }
  }

  lemma FramedCons(s: string, at: nat, more: seq<string>, tail: string)
    requires at == IndexOfBreak(s) && Framed(s[at + 2..], more, tail)
    ensures Framed(s, [s[..at]] + more, tail)
  {
    CutFirst(s, at);
    assert s[at + 2..] + "" == s[at + 2..] && s + "" == s;
    FramedAppend(s, [s[..at]], s[at + 2..], "", more, tail);
  }

  /** The frames of a text, found in the whole of it at once. */
  function Frames(s: string): (r: (seq<string>, string))
    ensures Framed(s, r.0, r.1)
    decreases |s|
  {
    var at := IndexOfBreak(s);
    if at == -1 then
      assert Terminated([]) + s == s;
      ([], s)
    else
      var (more, tail) := Frames(s[at + 2..]);
      FramedCons(s, at, more, tail);
      ([s[..at]] + more, tail)
  }

  /** What a client reads from a complete body. */
  function Reading(body: string): Delivery<ClientEvent> {
    Deliver(Frames(body).0, Handle)
  }

  // --- incremental reading ------------------------------------------------------------------

  /** Everything read so far, as the loop of `streamMessage` holds it. */
  ghost predicate Progress<E>(read: string, frames: seq<string>, buffer: string, events: seq<E>,
                              handle: string -> Handled<E>) {
    Cut(read, frames, buffer) && Deliver(frames, handle) == Delivery(events, false)
  }

  lemma CutNext(read: string, frames: seq<string>, buffer: string, at: nat)
    requires Cut(read, frames, buffer) && at == IndexOfBreak(buffer)
    ensures Cut(read, frames + [buffer[..at]], buffer[at + 2..])
  {
    CutFirst(buffer, at);
    TerminatedAppend(frames, [buffer[..at]]);
  }

  lemma DeliverNext<E>(frames: seq<string>, events: seq<E>, frame: string, handle: string -> Handled<E>)
    requires Deliver(frames, handle) == Delivery(events, false)
    ensures Deliver(frames + [frame], handle) == match handle(frame)
      case Skipped => Delivery(events, false)
      case Yielded(e) => Delivery(events + [e], false)
      case Thrown => Delivery(events, true)
  {
    DeliverAppend(frames, [frame], handle);
  }

  /** A frame that throws ends the delivery, whatever text follows. */
  lemma ThrownIsFinal<E>(whole: string, frames: seq<string>, rest: string, handle: string -> Handled<E>)
    requires Cut(whole, frames, rest) && Deliver(frames, handle).threw
    ensures Deliver(Frames(whole).0, handle) == Deliver(frames, handle)
  {
    var (more, tail) := Frames(rest);
    assert rest + "" == rest && whole + "" == whole;
    FramedAppend(whole, frames, rest, "", more, tail);
    FramingIsUnique(whole, frames + more, tail, Frames(whole).0, Frames(whole).1);
    DeliverAppend(frames, more, handle);
  }

  /** The loop of `streamMessage`, with `handle` for what it does to one frame. Whatever the chunks,
      the events are those of the whole text, and an unterminated tail yields nothing. */
  method ReadChunks<E>(chunks: seq<string>, handle: string -> Handled<E>) returns (events: seq<E>, threw: bool)
    ensures Delivery(events, threw) == Deliver(Frames(Join(chunks)).0, handle)
  {
    events := [];
    var buffer := "";
    ghost var frames: seq<string> := [];
    for i := 0 to |chunks|
      invariant Progress(Join(chunks[..i]), frames, buffer, events, handle)
      invariant NoBreakBefore(buffer, |buffer|)
    {
      assert chunks[..i + 1] == chunks[..i] + [chunks[i]];
      JoinLast(chunks[..i], chunks[i]);
      ghost var read := Join(chunks[..i + 1]);
      CutOfLonger(Join(chunks[..i]), frames, buffer, chunks[i]);
      buffer := buffer + chunks[i];
      var separator := IndexOfBreak(buffer);
      while separator != -1
        invariant Progress(read, frames, buffer, events, handle)
        invariant separator == IndexOfBreak(buffer)
        decreases |buffer|
      {
        var frame := buffer[..separator];
        CutNext(read, frames, buffer, separator);
        DeliverNext(frames, events, frame, handle);
        frames := frames + [frame];
        buffer := buffer[separator + 2..];
        match handle(frame) {
          case Thrown =>
            JoinSplit(chunks, i + 1);
            CutOfLonger(read, frames, buffer, Join(chunks[i + 1..]));
            ThrownIsFinal(Join(chunks), frames, buffer + Join(chunks[i + 1..]), handle);
            return events, true;
          case Yielded(event) =>
            events := events + [event];
          case Skipped =>
        }
        separator := IndexOfBreak(buffer);
      }
    }
    assert chunks[..|chunks|] == chunks;
    FramingIsUnique(Join(chunks), frames, buffer, Frames(Join(chunks)).0, Frames(Join(chunks)).1);
    threw := false;
  }

  lemma CutOfLonger(a: string, frames: seq<string>, buffer: string, b: string)
    requires Cut(a, frames, buffer)
    ensures Cut(a + b, frames, buffer + b)
  {
    assert Terminated(frames) + buffer + b == Terminated(frames) + (buffer + b);
  }

  /** `streamMessage` on the chunks of a response body. */
  method StreamMessage(chunks: seq<string>) returns (events: seq<ClientEvent>, threw: bool)
    ensures Delivery(events, threw) == Reading(Join(chunks))
  {
    events, threw := ReadChunks(chunks, Handle);
  }

  /** Chunk invariance: two splits of one text deliver the same, empty chunks and splits inside the
      separator included, and cutting off the unterminated tail changes nothing. */
  lemma ChunksDoNotMatter<E>(chunks: seq<string>, others: seq<string>, handle: string -> Handled<E>)
    requires Join(chunks) == Join(others) || Join(chunks) == Join(others) + Frames(Join(chunks)).1
    ensures Deliver(Frames(Join(chunks)).0, handle) == Deliver(Frames(Join(others)).0, handle)
  {
    var s := Join(chunks);
    var (frames, tail) := Frames(s);
    if Join(others) != s {
      assert s[..|s| - |tail|] == Terminated(frames) == Join(others);
      assert Terminated(frames) + "" == Terminated(frames);
      FramingIsUnique(Join(others), frames, "", Frames(Join(others)).0, Frames(Join(others)).1);
    }
  }

  // --- round trip ---------------------------------------------------------------------------

  function Encoded(events: seq<TurnEvent>): seq<string> {
    seq(|events|, i requires 0 <= i < |events| => EncodeEvent(events[i]))
  }

  lemma EncodedAppend(events: seq<TurnEvent>, e: TurnEvent, chunk: string)
    requires chunk == EncodeEvent(e)
    ensures Encoded(events + [e]) == Encoded(events) + [chunk]
  {
  }

  /** The body the server writes for a list of events. */
  function Wire(events: seq<TurnEvent>): string {
    Join(Encoded(events))
  }

  function FrameOf(e: TurnEvent): string {
    FrameText(Name(e), Dumps(Payload(e)))
  }

  function FramesOf(events: seq<TurnEvent>): seq<string> {
    seq(|events|, i requires 0 <= i < |events| => FrameOf(events[i]))
  }

  function ClientViews(events: seq<TurnEvent>): seq<ClientEvent> {
    seq(|events|, i requires 0 <= i < |events| => ClientView(events[i]))
  }

  lemma FrameIsHandled(e: TurnEvent)
    ensures Clean(FrameOf(e)) && Handle(FrameOf(e)) == Yielded(ClientView(e))
  {
    PayloadIsPrintable(e);
    NameIsPlain(e);
    DumpsIsOneLine(Payload(e));
    WrittenFrameIsClean(Name(e), Dumps(Payload(e)));
    ReadBack(Name(e), Dumps(Payload(e)));
    EventReadBack(e);
  }

  lemma {:induction false} TerminatedIsJoin(frames: seq<string>, texts: seq<string>)
    requires |frames| == |texts| && forall i :: 0 <= i < |frames| ==> texts[i] == frames[i] + "\n\n"
    ensures Terminated(frames) == Join(texts)
  {
    if frames != [] { TerminatedIsJoin(frames[1..], texts[1..]); }
  }

  lemma WireIsFramed(events: seq<TurnEvent>)
    ensures Framed(Wire(events), FramesOf(events), "")
  {
    TerminatedIsJoin(FramesOf(events), Encoded(events));
    assert Wire(events) + "" == Wire(events);
    forall i | 0 <= i < |events|
      ensures Clean(FramesOf(events)[i])
    {
      FrameIsHandled(events[i]);
    }
  }

  lemma {:induction false} DeliverAll<E>(frames: seq<string>, views: seq<E>, handle: string -> Handled<E>)
    requires |frames| == |views| && forall i :: 0 <= i < |frames| ==> handle(frames[i]) == Yielded(views[i])
    ensures Deliver(frames, handle) == Delivery(views, false)
  {
    if frames != [] {
      DeliverAll(frames[1..], views[1..], handle);
      assert views == [views[0]] + views[1..];
    }
  }

  lemma FramesAreDelivered(events: seq<TurnEvent>)
    ensures Deliver(FramesOf(events), Handle) == Delivery(ClientViews(events), false)
  {
    forall i | 0 <= i < |events|
      ensures Handle(FramesOf(events)[i]) == Yielded(ClientViews(events)[i])
    {
      FrameIsHandled(events[i]);
    }
    DeliverAll(FramesOf(events), ClientViews(events), Handle);
  }

  /** Encoding events, concatenating, splitting anywhere and parsing gives back the same events. */
  lemma EventsRoundTrip(events: seq<TurnEvent>)
    ensures Reading(Wire(events)) == Delivery(ClientViews(events), false)
  {
    WireIsFramed(events);
    var s := Wire(events);
    FramingIsUnique(s, FramesOf(events), "", Frames(s).0, Frames(s).1);
    FramesAreDelivered(events);
  }

  /** The frames of a text are a prefix of those of any longer text, and a whole frame of the longer
      text that fits into the shorter is among them. */
  lemma FramesOfPrefix(p: string, cut: seq<string>, rest: string, s: string, frames: seq<string>, tail: string)
    requires p <= s && Framed(p, cut, rest) && Framed(s, frames, tail)
    ensures cut <= frames && Terminated(cut) <= p
    ensures |cut| < |frames| ==> |p| < |Terminated(frames[..|cut| + 1])|
  {
    var others := s[|p|..];
    assert s == p + others;
    var (more, tail') := Frames(rest + others);
    FramedAppend(p, cut, rest, others, more, tail');
    FramingIsUnique(s, frames, tail, cut + more, tail');
    if |cut| < |frames| {
      var n := |cut| + 1;
      assert frames[..n] == cut + [more[0]];
      TerminatedAppend(cut, [more[0]]);
      FirstFrame(rest + others, more, tail');
      assert BreakAt(rest + others, |more[0]|);
      assert !BreakAt(rest, |more[0]|);
    }
  }

  /** The frames of the first events are the first frames. */
  lemma FirstFrames(events: seq<TurnEvent>, n: nat)
    requires n <= |events|
    ensures FramesOf(events[..n]) == FramesOf(events)[..n]
    ensures Wire(events[..n]) == Terminated(FramesOf(events)[..n])
  {
    WireIsFramed(events[..n]);
  }

  lemma FirstFramesDelivered(events: seq<TurnEvent>, n: nat, body: string)
    requires n <= |events| && Frames(body).0 == FramesOf(events)[..n]
    ensures Reading(body) == Delivery(ClientViews(events[..n]), false)
  {
    FirstFrames(events, n);
    FramesAreDelivered(events[..n]);
  }

  /** How far a prefix of the body reaches: exactly to the end of its last whole frame. */
  ghost predicate ReachesExactly(body: string, frames: seq<string>, n: nat)
    requires n <= |frames|
  {
    Terminated(frames[..n]) <= body && (n < |frames| ==> |body| < |Terminated(frames[..n + 1])|)
  }

  lemma CutFrames(events: seq<TurnEvent>, body: string) returns (n: nat)
    requires body <= Wire(events)
    ensures n <= |FramesOf(events)| && Frames(body).0 == FramesOf(events)[..n]
    ensures ReachesExactly(body, FramesOf(events), n)
  {
    var (cut, rest) := Frames(body);
    WireIsFramed(events);
    FramesOfPrefix(body, cut, rest, Wire(events), FramesOf(events), "");
    n := |cut|;
  }

  /** A connection that breaks anywhere in the body delivers exactly the events whose frames had
      arrived completely: a prefix of what the server sent, and no parse error. */
  lemma BrokenConnectionDeliversPrefix(events: seq<TurnEvent>, body: string) returns (n: nat)
    requires body <= Wire(events)
    ensures n <= |events|
    ensures Reading(body) == Delivery(ClientViews(events[..n]), false)
    ensures Wire(events[..n]) <= body
    ensures n < |events| ==> |body| < |Wire(events[..n + 1])|
  {
    n := CutFrames(events, body);
    FirstFramesDelivered(events, n, body);
    FirstFrames(events, n);
    if n < |events| { FirstFrames(events, n + 1); }
  }

  /** The body is ASCII, so decoding its bytes as UTF-8 yields these very characters, wherever the
      byte chunks are cut. */
  lemma WireIsAscii(events: seq<TurnEvent>)
    ensures Ascii(Wire(events))
  {
    forall i | 0 <= i < |events|
      ensures Ascii(Encoded(events)[i])
    {
      EventIsAscii(events[i]);
    }
    JoinIsAscii(Encoded(events));
  }

  lemma EventIsAscii(e: TurnEvent)
    ensures Ascii(EncodeEvent(e))
  {
    NameIsPlain(e);
    PayloadIsPrintable(e);
    DumpsIsPlain(Payload(e));
    PlainIsAscii(Dumps(Payload(e)));
    FrameIsAscii(Name(e), Dumps(Payload(e)));
  }

  lemma FrameIsAscii(name: string, payload: string)
    requires Ascii(name) && Ascii(payload)
    ensures Ascii(FrameText(name, payload) + "\n\n")
  {
  }

  lemma PlainIsAscii(s: string)
    requires Plain(s)
    ensures Ascii(s)
  {
    assert forall i :: 0 <= i < |s| ==> s[i] in s;
  }

  lemma {:induction false} JoinIsAscii(texts: seq<string>)
    requires forall i :: 0 <= i < |texts| ==> Ascii(texts[i])
    ensures Ascii(Join(texts))
  {
    if texts != [] { JoinIsAscii(texts[1..]); }
  }

  /** An event name survives encoding and reading exactly when it is a non-empty single line; the
      payload may hold any text. */
  lemma NameSurvivesExactlyWhenOneLine(name: string, data: PyObject)
    requires Printable(data)
    ensures (exists f :: f in Frames(Encode(name, data)).0 && ParsedFrame(f) == Some(RawFrame(name, Dumps(data))))
      <==> name != "" && NoNewline(name)
  {
    var s := Encode(name, data);
    var frame := FrameText(name, Dumps(data));
    DumpsIsOneLine(data);
    if name != "" && NoNewline(name) {
      WrittenFrameIsClean(name, Dumps(data));
      ReadBack(name, Dumps(data));
      assert Terminated([frame]) + "" == s;
      FramingIsUnique(s, [frame], "", Frames(s).0, Frames(s).1);
      assert frame in Frames(s).0;
    }
    forall f | f in Frames(s).0 && ParsedFrame(f).Some?
      ensures ParsedFrame(f).value.event != "" && NoNewline(ParsedFrame(f).value.event)
    {
      LastEventIsLine(SplitLines(f));
    }
  }

  // --- frames the client does not know ------------------------------------------------------

  predicate IsKnownName(name: string) {
    name == "user_message" || name == "delta" || name == "done" || name == "error"
  }

  /** A frame without a name, or with a name the client does not know, is skipped; one whose data is no
      JSON ends the stream with an exception, whatever its name. */
  lemma FrameFate(frame: string)
    ensures ParsedFrame(frame).None? ==> Handle(frame) == Skipped
    ensures ParsedFrame(frame).Some? && Parse(ParsedFrame(frame).value.data).None? ==> Handle(frame) == Thrown
    ensures ParsedFrame(frame).Some? && Parse(ParsedFrame(frame).value.data).Some? ==>
      if IsKnownName(ParsedFrame(frame).value.event) then Handle(frame).Yielded? else Handle(frame) == Skipped
  {
  }

  lemma DeliverOne<E>(frame: string, handle: string -> Handled<E>)
    ensures Deliver([frame], handle) == match handle(frame)
      case Skipped => Delivery([], false)
      case Yielded(e) => Delivery([e], false)
      case Thrown => Delivery([], true)
  {
    assert [frame][1..] == [];
    assert Deliver([frame][1..], handle) == Delivery([], false);
  }

  /** A new kind of event in the stream changes nothing for a client that does not know it. */
  lemma UnknownEventsAreIgnored(before: seq<string>, frame: string, after: seq<string>)
    requires ParsedFrame(frame).None?
             || (Parse(ParsedFrame(frame).value.data).Some? && !IsKnownName(ParsedFrame(frame).value.event))
    ensures Deliver(before + [frame] + after, Handle) == Deliver(before + after, Handle)
  {
    FrameFate(frame);
    SkippedChangesNothing(before, frame, after, Handle);
  }

  lemma SkippedChangesNothing<E>(before: seq<string>, frame: string, after: seq<string>, handle: string -> Handled<E>)
    requires handle(frame) == Skipped
    ensures Deliver(before + [frame] + after, handle) == Deliver(before + after, handle)
  {
    DeliverOne(frame, handle);
    DeliverAppend(before, [frame], handle);
    DeliverAppend(before + [frame], after, handle);
    DeliverAppend(before, after, handle);
  }

  /** A frame that is no JSON ends the stream: what came before is delivered, nothing after it is. */
  lemma MalformedFrameEndsStream(before: seq<string>, frame: string, after: seq<string>)
    requires ParsedFrame(frame).Some? && Parse(ParsedFrame(frame).value.data).None?
    ensures Deliver(before + [frame] + after, Handle) == Delivery(Deliver(before, Handle).events, true)
  {
    FrameFate(frame);
    ThrownEnds(before, frame, after, Handle);
  }

  lemma ThrownEnds<E>(before: seq<string>, frame: string, after: seq<string>, handle: string -> Handled<E>)
    requires handle(frame) == Thrown
    ensures Deliver(before + [frame] + after, handle) == Delivery(Deliver(before, handle).events, true)
  {
    DeliverOne(frame, handle);
    DeliverAppend(before, [frame], handle);
    DeliverAppend(before + [frame], after, handle);
  }
}
