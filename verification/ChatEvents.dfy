/** The events of a chat turn: what the service emits and what the client makes of them. */
module ChatEvents {
  import opened Wrappers
  import opened Unicode
  import opened Json
  import opened SseFrames
  import Decimals

  type Literal = s: string | IsLiteral(s) witness "0"

  /** Accounting of a finished turn. `latency` is the printed number of milliseconds. */
  datatype TurnMetadata = TurnMetadata(
    messageId: PyString,
    provider: PyString,
    model: PyString,
    isTestDouble: bool,
    finishReason: PyString,
    inputTokens: nat,
    outputTokens: nat,
    latency: Literal,
    cost: Option<PyString>)

  /** `partial` is absent from the error raised before streaming begins. */
  datatype TurnEvent =
    | UserMessage(messageId: PyString, conversationId: PyString)
    | Delta(text: PyString)
    | Done(metadata: TurnMetadata)
    | Failed(code: PyString, message: PyString, partial: Option<bool>)

  datatype ClientEvent =
    | UserConfirmed(messageId: JsString, conversationId: JsString)
    | DeltaArrived(text: JsString)
    | TurnDone(metadata: JsObject)
    | TurnFailed(code: JsString, message: JsString, partial: bool)

  // Member names of the payloads.
  const MESSAGE_ID: AsciiString := "message_id"
  const CONVERSATION_ID: AsciiString := "conversation_id"
  const TEXT: AsciiString := "text"
  const CODE: AsciiString := "code"
  const MESSAGE: AsciiString := "message"
  const PARTIAL: AsciiString := "partial"
  const PROVIDER: AsciiString := "provider"
  const MODEL: AsciiString := "model"
  const IS_TEST_DOUBLE: AsciiString := "is_test_double"
  const FINISH_REASON: AsciiString := "finish_reason"
  const INPUT_TOKENS: AsciiString := "input_tokens"
  const OUTPUT_TOKENS: AsciiString := "output_tokens"
  const LATENCY_MS: AsciiString := "latency_ms"
  const COST_USD: AsciiString := "cost_usd"

  lemma MemberNamesDiffer()
    ensures MESSAGE_ID != CONVERSATION_ID
    ensures CODE != MESSAGE && CODE != PARTIAL && MESSAGE != PARTIAL
    ensures PROVIDER != MESSAGE_ID && MODEL != MESSAGE_ID && IS_TEST_DOUBLE != MESSAGE_ID && FINISH_REASON != MESSAGE_ID
    ensures INPUT_TOKENS != MESSAGE_ID && OUTPUT_TOKENS != MESSAGE_ID && LATENCY_MS != MESSAGE_ID && COST_USD != MESSAGE_ID
  {
    assert PROVIDER[0] == 'p' && MODEL[1] == 'o' && IS_TEST_DOUBLE[0] == 'i' && FINISH_REASON[0] == 'f';
    assert INPUT_TOKENS[0] == 'i' && OUTPUT_TOKENS[0] == 'o' && LATENCY_MS[0] == 'l' && COST_USD[0] == 'c';
    assert MESSAGE_ID[0] == 'm' && MESSAGE_ID[1] == 'e' && CONVERSATION_ID[0] == 'c';
    assert CODE[0] == 'c' && MESSAGE[0] == 'm' && PARTIAL[0] == 'p';
  }

  // --- server side --------------------------------------------------------------------------

  function Name(e: TurnEvent): string {
    match e
    case UserMessage(_, _) => "user_message"
    case Delta(_) => "delta"
    case Done(_) => "done"
    case Failed(_, _, _) => "error"
  }

  function Entry(key: AsciiString, value: PyValue): Member<PyString> {
    Member(Py(key), value)
  }

  function Payload(e: TurnEvent): PyObject {
    match e
    case UserMessage(id, conversation) =>
      [Entry(MESSAGE_ID, Text(id)), Entry(CONVERSATION_ID, Text(conversation))]
    case Delta(text) => [Entry(TEXT, Text(text))]
    case Done(m) =>
      [ Entry(MESSAGE_ID, Text(m.messageId)),
        Entry(PROVIDER, Text(m.provider)),
        Entry(MODEL, Text(m.model)),
        Entry(IS_TEST_DOUBLE, Bool(m.isTestDouble)),
        Entry(FINISH_REASON, Text(m.finishReason)),
        Entry(INPUT_TOKENS, Number(Decimals.Print(m.inputTokens))),
        Entry(OUTPUT_TOKENS, Number(Decimals.Print(m.outputTokens))),
        Entry(LATENCY_MS, Number(m.latency)),
        Entry(COST_USD, if m.cost.Some? then Text(m.cost.value) else Null) ]
    case Failed(code, message, partial) =>
      [Entry(CODE, Text(code)), Entry(MESSAGE, Text(message))]
      + if partial.Some? then [Entry(PARTIAL, Bool(partial.value))] else []
  }

  function EncodeEvent(e: TurnEvent): string {
    Encode(Name(e), Payload(e))
  }

  // --- client side --------------------------------------------------------------------------

  /** `payload[key]`: the last member of that name, None when it is undefined. */
  function Lookup(o: JsObject, key: JsString): Option<JsValue> {
    if o == [] then None
    else if o[|o| - 1].key == key then Some(o[|o| - 1].value)
    else Lookup(o[..|o| - 1], key)
  }

  /** `String(v)`. */
  function StringOf(v: Option<JsValue>): JsString {
    match v
    case None => Js("undefined")
    case Some(Text(s)) => s
    case Some(Number(n)) => Utf16(Py(n))
    case Some(Bool(b)) => if b then Js("true") else Js("false")
    case Some(Null) => Js("null")
  }

  predicate IsZero(literal: string) {
    forall i :: 0 <= i < |literal| ==> !('1' <= literal[i] <= '9')
  }

  /** `Boolean(v)`. */
  predicate TruthOf(v: Option<JsValue>) {
    match v
    case None => false
    case Some(Text(s)) => s != []
    case Some(Number(n)) => !IsZero(n)
    case Some(Bool(b)) => b
    case Some(Null) => false
  }

  /** The switch of `toEvent`; unknown names are ignored. */
  function EventOf(name: string, payload: JsObject): Option<ClientEvent> {
    match name
    case "user_message" =>
      Some(UserConfirmed(StringOf(Lookup(payload, Js(MESSAGE_ID))), StringOf(Lookup(payload, Js(CONVERSATION_ID)))))
    case "delta" => Some(DeltaArrived(StringOf(Lookup(payload, Js(TEXT)))))
    case "done" => Some(TurnDone(payload))
    case "error" =>
      Some(TurnFailed(StringOf(Lookup(payload, Js(CODE))), StringOf(Lookup(payload, Js(MESSAGE))),
                      TruthOf(Lookup(payload, Js(PARTIAL)))))
    case _ => None
  }

  /** `toEvent`: None stands for the SyntaxError of `JSON.parse`, Some(None) for an unknown name. */
  function ToEvent(frame: RawFrame): Option<Option<ClientEvent>> {
    match Parse(frame.data)
    case None => None
    case Some(payload) => Some(EventOf(frame.event, payload))
  }

  // --- agreement ----------------------------------------------------------------------------

  /** The same event with its text in the client's representation. */
  function ClientView(e: TurnEvent): ClientEvent {
    match e
    case UserMessage(id, conversation) => UserConfirmed(Utf16(id), Utf16(conversation))
    case Delta(text) => DeltaArrived(Utf16(text))
    case Done(m) => TurnDone(SeenObject(Payload(e)))
    case Failed(code, message, partial) => TurnFailed(Utf16(code), Utf16(message), partial == Some(true))
  }

  lemma PayloadIsPrintable(e: TurnEvent)
    ensures Printable(Payload(e))
  {
    if e.Done? {
      assert IsLiteral(Decimals.Print(e.metadata.inputTokens));
      assert IsLiteral(Decimals.Print(e.metadata.outputTokens));
    }
  }

  lemma NameIsPlain(e: TurnEvent)
    ensures Name(e) != "" && NoNewline(Name(e)) && Ascii(Name(e))
  {
  }

  lemma DumpsIsOneLine(o: PyObject)
    requires Printable(o)
    ensures Dumps(o) != "" && NoNewline(Dumps(o))
  {
    DumpsIsPlain(o);
    forall i | 0 <= i < |Dumps(o)|
      ensures Dumps(o)[i] != '\n'
    {
      assert Dumps(o)[i] in Dumps(o);
    }
  }

  // --- fields of what the server wrote ------------------------------------------------------

  datatype Field = Field(key: AsciiString, value: PyValue)

  function Fields(fields: seq<Field>): PyObject {
    seq(|fields|, i requires 0 <= i < |fields| => Entry(fields[i].key, fields[i].value))
  }

  predicate Absent(fields: seq<Field>, key: AsciiString) {
    forall f :: f in fields ==> f.key != key
  }

  lemma {:induction false} LookupAbsent(fields: seq<Field>, key: AsciiString)
    requires Absent(fields, key)
    ensures Lookup(SeenObject(Fields(fields)), Js(key)) == None
  {
    if fields != [] {
      var shorter, last := fields[..|fields| - 1], fields[|fields| - 1];
      assert last in fields;
      Utf16OfAscii(last.key);
      if Js(last.key) == Js(key) { JsIsInjective(last.key, key); }
      assert SeenObject(Fields(fields))[..|shorter|] == SeenObject(Fields(shorter));
      LookupAbsent(shorter, key);
    }
  }

  /** The client finds the last field of a name, with the value the server wrote. */
  lemma {:induction false} LookupField(before: seq<Field>, key: AsciiString, value: PyValue, after: seq<Field>)
    requires Absent(after, key)
    ensures Lookup(SeenObject(Fields(before + [Field(key, value)] + after)), Js(key)) == Some(Seen(value))
  {
    var fields := before + [Field(key, value)] + after;
    if after != [] {
      var shorter, last := after[..|after| - 1], after[|after| - 1];
      assert last in after;
      Utf16OfAscii(last.key);
      if Js(last.key) == Js(key) { JsIsInjective(last.key, key); }
      assert fields[..|fields| - 1] == before + [Field(key, value)] + shorter;
      assert SeenObject(Fields(fields))[..|fields| - 1] == SeenObject(Fields(fields[..|fields| - 1]));
      LookupField(before, key, value, shorter);
    } else {
      Utf16OfAscii(key);
    }
  }

  lemma UserMessageFields(id: PyString, conversation: PyString)
    ensures var o := SeenObject(Payload(UserMessage(id, conversation)));
      && Lookup(o, Js(MESSAGE_ID)) == Some(Text(Utf16(id)))
      && Lookup(o, Js(CONVERSATION_ID)) == Some(Text(Utf16(conversation)))
  {
    MemberNamesDiffer();
    var first, second := Field(MESSAGE_ID, Text(id)), Field(CONVERSATION_ID, Text(conversation));
    assert Payload(UserMessage(id, conversation)) == Fields([first, second]);
    LookupField([], MESSAGE_ID, Text(id), [second]);
    LookupField([first], CONVERSATION_ID, Text(conversation), []);
    assert [] + [first] + [second] == [first, second] == [first] + [second] + [];
  }

  lemma DeltaField(text: PyString)
    ensures Lookup(SeenObject(Payload(Delta(text))), Js(TEXT)) == Some(Text(Utf16(text)))
  {
    assert Payload(Delta(text)) == Fields([] + [Field(TEXT, Text(text))] + []);
    LookupField([], TEXT, Text(text), []);
  }

  function FailedStart(code: PyString, message: PyString): seq<Field> {
    [Field(CODE, Text(code)), Field(MESSAGE, Text(message))]
  }

  /** `LookupField` for a field in first or in second place. */
  lemma LookupFirst(first: Field, rest: seq<Field>)
    requires Absent(rest, first.key)
    ensures Lookup(SeenObject(Fields([first] + rest)), Js(first.key)) == Some(Seen(first.value))
  {
    LookupField([], first.key, first.value, rest);
    assert [] + [Field(first.key, first.value)] + rest == [first] + rest;
  }

  lemma LookupSecond(first: Field, second: Field, rest: seq<Field>)
    requires Absent(rest, second.key)
    ensures Lookup(SeenObject(Fields([first, second] + rest)), Js(second.key)) == Some(Seen(second.value))
  {
    LookupField([first], second.key, second.value, rest);
    assert [first] + [Field(second.key, second.value)] + rest == [first, second] + rest;
  }

  lemma LookupTwo(first: Field, second: Field, rest: seq<Field>)
    requires first.key != second.key && Absent(rest, first.key) && Absent(rest, second.key)
    ensures var o := SeenObject(Fields([first, second] + rest));
      && Lookup(o, Js(first.key)) == Some(Seen(first.value))
      && Lookup(o, Js(second.key)) == Some(Seen(second.value))
  {
    LookupFirst(first, [second] + rest);
    LookupSecond(first, second, rest);
    assert [first] + ([second] + rest) == [first, second] + rest;
  }

  lemma FailedTexts(code: PyString, message: PyString, rest: seq<Field>)
    requires Absent(rest, CODE) && Absent(rest, MESSAGE)
    ensures var o := SeenObject(Fields(FailedStart(code, message) + rest));
      Lookup(o, Js(CODE)) == Some(Text(Utf16(code))) && Lookup(o, Js(MESSAGE)) == Some(Text(Utf16(message)))
  {
    MemberNamesDiffer();
    LookupTwo(Field(CODE, Text(code)), Field(MESSAGE, Text(message)), rest);
  }

  /** The third member of an error event, if it has one. */
  function PartialField(partial: Option<bool>): seq<Field> {
    if partial.Some? then [Field(PARTIAL, Bool(partial.value))] else []
  }

  lemma FailedPayload(code: PyString, message: PyString, partial: Option<bool>)
    ensures Payload(Failed(code, message, partial)) == Fields(FailedStart(code, message) + PartialField(partial))
  {
  }

  lemma FailedFlag(code: PyString, message: PyString, partial: Option<bool>)
    ensures Lookup(SeenObject(Fields(FailedStart(code, message) + PartialField(partial))), Js(PARTIAL))
      == if partial.Some? then Some(Bool(partial.value)) else None
  {
    MemberNamesDiffer();
    var start := FailedStart(code, message);
    if partial.Some? {
      LookupField(start, PARTIAL, Bool(partial.value), []);
      assert start + [Field(PARTIAL, Bool(partial.value))] + [] == start + PartialField(partial);
    } else {
      LookupAbsent(start + [], PARTIAL);
    }
  }

  lemma FailedFields(code: PyString, message: PyString, partial: Option<bool>)
    ensures var o := SeenObject(Payload(Failed(code, message, partial)));
      && Lookup(o, Js(CODE)) == Some(Text(Utf16(code)))
      && Lookup(o, Js(MESSAGE)) == Some(Text(Utf16(message)))
      && Lookup(o, Js(PARTIAL)) == if partial.Some? then Some(Bool(partial.value)) else None
  {
    MemberNamesDiffer();
    FailedPayload(code, message, partial);
    FailedTexts(code, message, PartialField(partial));
    FailedFlag(code, message, partial);
  }

  function DoneRest(m: TurnMetadata): seq<Field> {
    [ Field(PROVIDER, Text(m.provider)), Field(MODEL, Text(m.model)),
      Field(IS_TEST_DOUBLE, Bool(m.isTestDouble)), Field(FINISH_REASON, Text(m.finishReason)),
      Field(INPUT_TOKENS, Number(Decimals.Print(m.inputTokens))),
      Field(OUTPUT_TOKENS, Number(Decimals.Print(m.outputTokens))),
      Field(LATENCY_MS, Number(m.latency)),
      Field(COST_USD, if m.cost.Some? then Text(m.cost.value) else Null)]
  }

  lemma DoneRestLacksId(m: TurnMetadata)
    ensures Absent(DoneRest(m), MESSAGE_ID)
  {
    MemberNamesDiffer();
  }

  lemma DonePayload(m: TurnMetadata)
    ensures Payload(Done(m)) == Fields([Field(MESSAGE_ID, Text(m.messageId))] + DoneRest(m))
  {
  }

  /** The id the client stores for the finished reply is the id of the stored message. */
  lemma DoneField(m: TurnMetadata)
    ensures Lookup(SeenObject(Payload(Done(m))), Js(MESSAGE_ID)) == Some(Text(Utf16(m.messageId)))
  {
    DoneRestLacksId(m);
    DonePayload(m);
    LookupFirst(Field(MESSAGE_ID, Text(m.messageId)), DoneRest(m));
  }

  lemma UserMessageReadBack(id: PyString, conversation: PyString)
    ensures EventOf("user_message", SeenObject(Payload(UserMessage(id, conversation)))) ==
        Some(UserConfirmed(Utf16(id), Utf16(conversation)))
  {
    UserMessageFields(id, conversation);
  }

  lemma DeltaReadBack(text: PyString)
    ensures EventOf("delta", SeenObject(Payload(Delta(text)))) == Some(DeltaArrived(Utf16(text)))
  {
    DeltaField(text);
    assert "delta" != "user_message" by { assert |"delta"| == 5 && |"user_message"| == 12; }
  }

  lemma DoneReadBack(payload: JsObject)
    ensures EventOf("done", payload) == Some(TurnDone(payload))
  {
    assert |"done"| == 4 && |"user_message"| == 12 && |"delta"| == 5;
  }

  lemma FailedReadBack(code: PyString, message: PyString, partial: Option<bool>)
    ensures EventOf("error", SeenObject(Payload(Failed(code, message, partial)))) ==
      Some(TurnFailed(Utf16(code), Utf16(message), partial == Some(true)))
  {
    FailedFields(code, message, partial);
    assert |"error"| == 5 && |"user_message"| == 12 && |"done"| == 4 && "error"[0] == 'e' && "delta"[0] == 'd';
  }

  /** The client reads every event it is sent as the event that was meant. */
  lemma EventReadBack(e: TurnEvent)
    ensures ToEvent(RawFrame(Name(e), Dumps(Payload(e)))) == Some(Some(ClientView(e)))
  {
    PayloadIsPrintable(e);
    JsonRoundTrip(Payload(e));
    match e
    case UserMessage(id, conversation) => UserMessageReadBack(id, conversation);
    case Delta(text) => DeltaReadBack(text);
    case Done(_) => DoneReadBack(SeenObject(Payload(e)));
    case Failed(code, message, partial) => FailedReadBack(code, message, partial);
  }

  // --- the accounting of a finished turn, as the client reads it ----------------------------

  /** Names of one payload, told apart by length and first character. */
  predicate Distinct(fields: seq<Field>) {
    forall i, j :: 0 <= i < j < |fields| ==> fields[i].key != fields[j].key
  }

  lemma LookupAt(fields: seq<Field>, i: nat)
    requires i < |fields| && Distinct(fields)
    ensures Lookup(SeenObject(Fields(fields)), Js(fields[i].key)) == Some(Seen(fields[i].value))
  {
    var before, after := fields[..i], fields[i + 1..];
    LookupField(before, fields[i].key, fields[i].value, after);
    assert before + [Field(fields[i].key, fields[i].value)] + after == fields;
  }

  function DoneFields(m: TurnMetadata): seq<Field> {
    [Field(MESSAGE_ID, Text(m.messageId))] + DoneRest(m)
  }

  /** Each field reads back as written. */
  ghost predicate AllReadBack(o: JsObject, fields: seq<Field>) {
    forall i :: 0 <= i < |fields| ==> Lookup(o, Js(fields[i].key)) == Some(Seen(fields[i].value))
  }

  lemma DistinctFieldsReadBack(fields: seq<Field>)
    requires Distinct(fields)
    ensures AllReadBack(SeenObject(Fields(fields)), fields)
  {
    forall i | 0 <= i < |fields|
      ensures Lookup(SeenObject(Fields(fields)), Js(fields[i].key)) == Some(Seen(fields[i].value))
    {
      LookupAt(fields, i);
    }
  }

  /** `fields` has this one. */
  predicate HasField(fields: seq<Field>, key: AsciiString, value: PyValue) {
    exists i :: 0 <= i < |fields| && fields[i] == Field(key, value)
  }

  lemma FieldReadsBack(o: JsObject, fields: seq<Field>, key: AsciiString, value: PyValue)
    requires AllReadBack(o, fields) && HasField(fields, key, value)
    ensures Lookup(o, Js(key)) == Some(Seen(value))
  {
  }

  lemma DoneHasFields(m: TurnMetadata, fields: seq<Field>)
    requires fields == DoneFields(m)
    ensures HasField(fields, MESSAGE_ID, Text(m.messageId))
    ensures HasField(fields, PROVIDER, Text(m.provider))
    ensures HasField(fields, MODEL, Text(m.model))
    ensures HasField(fields, IS_TEST_DOUBLE, Bool(m.isTestDouble))
    ensures HasField(fields, FINISH_REASON, Text(m.finishReason))
    ensures HasField(fields, INPUT_TOKENS, Number(Decimals.Print(m.inputTokens)))
    ensures HasField(fields, OUTPUT_TOKENS, Number(Decimals.Print(m.outputTokens)))
    ensures HasField(fields, LATENCY_MS, Number(m.latency))
    ensures HasField(fields, COST_USD, if m.cost.Some? then Text(m.cost.value) else Null)
  {
    var rest := DoneRest(m);
    assert fields[0] == Field(MESSAGE_ID, Text(m.messageId)) && forall i :: 0 <= i < 8 ==> fields[i + 1] == rest[i];
    assert fields[1] == rest[0] && fields[2] == rest[1] && fields[3] == rest[2] && fields[4] == rest[3];
    assert fields[5] == rest[4] && fields[6] == rest[5] && fields[7] == rest[6] && fields[8] == rest[7];
  }

  function Mark(s: string): (nat, char)
    requires s != ""
  {
    (|s|, s[0])
  }

  lemma DoneNamesDiffer(m: TurnMetadata)
    ensures Distinct(DoneFields(m))
  {
    assert Mark(MESSAGE_ID) == (10, 'm') && Mark(PROVIDER) == (8, 'p') && Mark(MODEL) == (5, 'm');
    assert Mark(IS_TEST_DOUBLE) == (14, 'i') && Mark(FINISH_REASON) == (13, 'f') && Mark(INPUT_TOKENS) == (12, 'i');
    assert Mark(OUTPUT_TOKENS) == (13, 'o') && Mark(LATENCY_MS) == (10, 'l') && Mark(COST_USD) == (8, 'c');
    MarksDiffer(DoneFields(m));
  }

  lemma MarksDiffer(fields: seq<Field>)
    requires forall i :: 0 <= i < |fields| ==> fields[i].key != ""
    requires forall i, j :: 0 <= i < j < |fields| ==> Mark(fields[i].key) != Mark(fields[j].key)
    ensures Distinct(fields)
  {
  }

  lemma TextsAreReadBack(o: JsObject, m: TurnMetadata, fields: seq<Field>)
    requires AllReadBack(o, fields)
    requires HasField(fields, MESSAGE_ID, Text(m.messageId)) && HasField(fields, PROVIDER, Text(m.provider))
    requires HasField(fields, MODEL, Text(m.model)) && HasField(fields, FINISH_REASON, Text(m.finishReason))
    ensures Lookup(o, Js(MESSAGE_ID)) == Some(Text(Utf16(m.messageId)))
    ensures Lookup(o, Js(PROVIDER)) == Some(Text(Utf16(m.provider)))
    ensures Lookup(o, Js(MODEL)) == Some(Text(Utf16(m.model)))
    ensures Lookup(o, Js(FINISH_REASON)) == Some(Text(Utf16(m.finishReason)))
  {
    FieldReadsBack(o, fields, MESSAGE_ID, Text(m.messageId));
    FieldReadsBack(o, fields, PROVIDER, Text(m.provider));
    FieldReadsBack(o, fields, MODEL, Text(m.model));
    FieldReadsBack(o, fields, FINISH_REASON, Text(m.finishReason));
  }

  lemma FiguresAreReadBack(o: JsObject, m: TurnMetadata, fields: seq<Field>)
    requires AllReadBack(o, fields)
    requires HasField(fields, IS_TEST_DOUBLE, Bool(m.isTestDouble)) && HasField(fields, LATENCY_MS, Number(m.latency))
    requires HasField(fields, INPUT_TOKENS, Number(Decimals.Print(m.inputTokens)))
    requires HasField(fields, OUTPUT_TOKENS, Number(Decimals.Print(m.outputTokens)))
    requires HasField(fields, COST_USD, if m.cost.Some? then Text(m.cost.value) else Null)
    ensures Lookup(o, Js(IS_TEST_DOUBLE)) == Some(Bool(m.isTestDouble))
    ensures Lookup(o, Js(INPUT_TOKENS)) == Some(Number(Decimals.Print(m.inputTokens)))
    ensures Lookup(o, Js(OUTPUT_TOKENS)) == Some(Number(Decimals.Print(m.outputTokens)))
    ensures Lookup(o, Js(LATENCY_MS)) == Some(Number(m.latency))
    ensures Lookup(o, Js(COST_USD)) == Some(if m.cost.Some? then Text(Utf16(m.cost.value)) else Null)
  {
    FieldReadsBack(o, fields, IS_TEST_DOUBLE, Bool(m.isTestDouble));
    FieldReadsBack(o, fields, INPUT_TOKENS, Number(Decimals.Print(m.inputTokens)));
    FieldReadsBack(o, fields, OUTPUT_TOKENS, Number(Decimals.Print(m.outputTokens)));
    FieldReadsBack(o, fields, LATENCY_MS, Number(m.latency));
    FieldReadsBack(o, fields, COST_USD, if m.cost.Some? then Text(m.cost.value) else Null);
  }

  /** What the client reads of the accounting is what the server wrote: each of the nine members under
      its own name. */
  lemma AccountingIsReadBack(m: TurnMetadata)
    ensures var o := SeenObject(Payload(Done(m)));
      && Lookup(o, Js(MESSAGE_ID)) == Some(Text(Utf16(m.messageId)))
      && Lookup(o, Js(PROVIDER)) == Some(Text(Utf16(m.provider)))
      && Lookup(o, Js(MODEL)) == Some(Text(Utf16(m.model)))
      && Lookup(o, Js(IS_TEST_DOUBLE)) == Some(Bool(m.isTestDouble))
      && Lookup(o, Js(FINISH_REASON)) == Some(Text(Utf16(m.finishReason)))
      && Lookup(o, Js(INPUT_TOKENS)) == Some(Number(Decimals.Print(m.inputTokens)))
      && Lookup(o, Js(OUTPUT_TOKENS)) == Some(Number(Decimals.Print(m.outputTokens)))
      && Lookup(o, Js(LATENCY_MS)) == Some(Number(m.latency))
      && Lookup(o, Js(COST_USD)) == Some(if m.cost.Some? then Text(Utf16(m.cost.value)) else Null)
  {
    var o, fields := SeenObject(Payload(Done(m))), DoneFields(m);
    DonePayload(m);
    DoneNamesDiffer(m);
    DistinctFieldsReadBack(fields);
    DoneHasFields(m, fields);
    TextsAreReadBack(o, m, fields);
    FiguresAreReadBack(o, m, fields);
  }

  /** What the client makes of members that are missing or of another type: texts become their string
      form, and a flag is set by anything that is not missing, null, false, empty or zero. */
  lemma LooseMembers(o: JsObject, key: JsString)
    ensures Lookup(o, Js(TEXT)) == None ==> EventOf("delta", o) == Some(DeltaArrived(Js("undefined")))
    ensures Lookup(o, Js(TEXT)) == Some(Null) ==> EventOf("delta", o) == Some(DeltaArrived(Js("null")))
    ensures !TruthOf(None) && !TruthOf(Some(Null)) && TruthOf(Some(Bool(true))) && !TruthOf(Some(Bool(false)))
    ensures TruthOf(Some(Text(key))) <==> key != []
    ensures !TruthOf(Some(Number("0"))) && !TruthOf(Some(Number("-0.0"))) && TruthOf(Some(Number("10")))
  {
    assert "10"[0] == '1';
  }
}
