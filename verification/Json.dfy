/** `json.dumps` with default escaping (section 7 of RFC 8259) and the `JSON.parse` that reads it.

    Payloads are flat objects. The compact form has no whitespace, so the reader needs none. */
module Json {
  import opened Wrappers
  import opened Unicode

  /** A number is kept as the literal that was printed. */
  datatype Value<S> = Text(text: S) | Number(literal: string) | Bool(value: bool) | Null

  type PyValue = Value<PyString>
  type JsValue = Value<JsString>

  /** Objects keep the order of their members. */
  datatype Member<S> = Member(key: S, value: Value<S>)

  type PyObject = seq<Member<PyString>>
  type JsObject = seq<Member<JsString>>

  function Seen(v: PyValue): JsValue {
    match v
    case Text(s) => Text(Utf16(s))
    case Number(n) => Number(n)
    case Bool(b) => Bool(b)
    case Null => Null
  }

  function SeenObject(o: PyObject): JsObject {
    seq(|o|, i requires 0 <= i < |o| => Member(Utf16(o[i].key), Seen(o[i].value)))
  }

  predicate IsNumberChar(c: char) {
    '0' <= c <= '9' || c == '-' || c == '+' || c == '.' || c == 'e'
  }

  predicate IsLiteral(s: string) {
    s != "" && (s[0] == '-' || '0' <= s[0] <= '9') && forall c :: c in s ==> IsNumberChar(c)
  }

  /** Every number printed by the server is such a literal. */
  predicate Printable(o: PyObject) {
    forall m :: m in o && m.value.Number? ==> IsLiteral(m.value.literal)
  }

  // --- writing ------------------------------------------------------------------------------

  function HexDigit(n: int): char
    requires 0 <= n < 16
  {
    if n < 10 then '0' + n as char else 'a' + (n - 10) as char
  }

  function Hex4(u: CodeUnit): string {
    [HexDigit(u / 16 / 16 / 16), HexDigit(u / 16 / 16 % 16), HexDigit(u / 16 % 16), HexDigit(u % 16)]
  }

  function EscapeUnit(u: CodeUnit): string {
    "\\u" + Hex4(u)
  }

  function EscapeChar(c: CodePoint): string {
    if c == 0x22 then "\\\""
    else if c == 0x5C then "\\\\"
    else if c == 0x0A then "\\n"
    else if c == 0x0D then "\\r"
    else if c == 0x09 then "\\t"
    else if c == 0x0C then "\\f"
    else if c == 0x08 then "\\b"
    else if 0x20 <= c <= 0x7E then [c as char]
    else if c < 0x10000 then EscapeUnit(c)
    else EscapeUnit(Units(c)[0]) + EscapeUnit(Units(c)[1])
  }

  function Escape(s: PyString): string {
    if s == [] then "" else EscapeChar(s[0]) + Escape(s[1..])
  }

  function WriteValue(v: PyValue): string {
    match v
    case Text(s) => "\"" + Escape(s) + "\""
    case Number(n) => n
    case Bool(b) => if b then "true" else "false"
    case Null => "null"
  }

  function WriteMember(m: Member<PyString>): string {
    "\"" + Escape(m.key) + "\":" + WriteValue(m.value)
  }

  /** The members after the opening brace, each followed by `,` or by the closing brace. */
  function WriteMembers(o: PyObject): string
    requires o != []
  {
    WriteMember(o[0]) + if |o| == 1 then "}" else "," + WriteMembers(o[1..])
  }

  function Dumps(o: PyObject): string {
    if o == [] then "{}" else "{" + WriteMembers(o)
  }

  // --- reading ------------------------------------------------------------------------------

  function HexValue(c: char): Option<int> {
    if '0' <= c <= '9' then Some((c - '0') as int)
    else if 'a' <= c <= 'f' then Some((c - 'a') as int + 10)
    else if 'A' <= c <= 'F' then Some((c - 'A') as int + 10)
    else None
  }

  function ReadHex4(s: string): (r: Option<CodeUnit>)
    requires |s| == 4
  {
    var a, b, c, d := HexValue(s[0]), HexValue(s[1]), HexValue(s[2]), HexValue(s[3]);
    if a.None? || b.None? || c.None? || d.None? then None
    else
      var n := ((a.value * 16 + b.value) * 16 + c.value) * 16 + d.value;
      if 0 <= n < 0x10000 then Some(n) else None
  }

  datatype Read<T> = Read(value: T, rest: string)

  /** One escaped or plain character of a string body. */
  function ReadChar(s: string): (r: Option<Read<JsString>>)
    requires s != ""
    ensures r.Some? ==> |r.value.rest| < |s|
  {
    if s[0] == '\\' then
      if |s| < 2 then None
      else if s[1] == 'u' then
        if |s| < 6 then None
        else match ReadHex4(s[2..6])
          case None => None
          case Some(u) => Some(Read([u], s[6..]))
      else
        match s[1]
        case '\"' => Some(Read([0x22], s[2..]))
        case '\\' => Some(Read([0x5C], s[2..]))
        case '/' => Some(Read([0x2F], s[2..]))
        case 'n' => Some(Read([0x0A], s[2..]))
        case 'r' => Some(Read([0x0D], s[2..]))
        case 't' => Some(Read([0x09], s[2..]))
        case 'f' => Some(Read([0x0C], s[2..]))
        case 'b' => Some(Read([0x08], s[2..]))
        case _ => None
    else if s[0] as int < 0x20 then None
    else Some(Read(Units(s[0] as int), s[1..]))
  }

  /** A string body up to and including its closing quote. */
  function ReadString(s: string): (r: Option<Read<JsString>>)
    ensures r.Some? ==> |r.value.rest| < |s|
    decreases |s|
  {
    if s == "" then None
    else if s[0] == '\"' then Some(Read([], s[1..]))
    else match ReadChar(s)
      case None => None
      case Some(head) =>
        match ReadString(head.rest)
        case None => None
        case Some(tail) => Some(Read(head.value + tail.value, tail.rest))
  }

  function NumberPrefix(s: string): (n: nat)
    ensures n <= |s|
  {
    if s == "" || !IsNumberChar(s[0]) then 0 else 1 + NumberPrefix(s[1..])
  }

  function ReadValue(s: string): (r: Option<Read<JsValue>>)
    ensures r.Some? ==> |r.value.rest| < |s|
  {
    if s == "" then None
    else if s[0] == '\"' then
      match ReadString(s[1..])
      case None => None
      case Some(body) => Some(Read(Text(body.value), body.rest))
    else if "true" <= s then Some(Read(Bool(true), s[4..]))
    else if "false" <= s then Some(Read(Bool(false), s[5..]))
    else if "null" <= s then Some(Read(Null, s[4..]))
    else if s[0] == '-' || '0' <= s[0] <= '9' then
      var n := NumberPrefix(s);
      Some(Read(Number(s[..n]), s[n..]))
    else None
  }

  function ReadMember(s: string): (r: Option<Read<Member<JsString>>>)
    ensures r.Some? ==> |r.value.rest| < |s|
  {
    if s == "" || s[0] != '\"' then None
    else match ReadString(s[1..])
      case None => None
      case Some(key) =>
        if key.rest == "" || key.rest[0] != ':' then None
        else match ReadValue(key.rest[1..])
          case None => None
          case Some(v) => Some(Read(Member(key.value, v.value), v.rest))
  }

  function ReadMembers(s: string): (r: Option<Read<JsObject>>)
    ensures r.Some? ==> |r.value.rest| < |s|
    decreases |s|
  {
    match ReadMember(s)
    case None => None
    case Some(m) =>
      if m.rest == "" then None
      else if m.rest[0] == '}' then Some(Read([m.value], m.rest[1..]))
      else if m.rest[0] != ',' then None
      else match ReadMembers(m.rest[1..])
        case None => None
        case Some(more) => Some(Read([m.value] + more.value, more.rest))
  }

  /** `JSON.parse` on a whole document; None is the SyntaxError. */
  function Parse(s: string): Option<JsObject> {
    if s == "{}" then Some([])
    else if s == "" || s[0] != '{' then None
    else match ReadMembers(s[1..])
      case None => None
      case Some(o) => if o.rest == "" then Some(o.value) else None
  }

  // --- round trip ---------------------------------------------------------------------------

  lemma HexDigitRoundTrip(n: int)
    requires 0 <= n < 16
    ensures HexValue(HexDigit(n)) == Some(n)
  {
  }

  lemma HexRoundTrip(u: CodeUnit)
    ensures ReadHex4(Hex4(u)) == Some(u)
  {
    var p := u / 16;
    var q := p / 16;
    assert u == 16 * p + u % 16 && p == 16 * q + p % 16 && q == 16 * (q / 16) + q % 16;
    HexDigitRoundTrip(q / 16);
    HexDigitRoundTrip(q % 16);
    HexDigitRoundTrip(p % 16);
    HexDigitRoundTrip(u % 16);
  }

  lemma ReadEscapedUnit(u: CodeUnit, rest: string)
    ensures EscapeUnit(u) + rest != "" && ReadChar(EscapeUnit(u) + rest) == Some(Read([u], rest))
  {
    var s := EscapeUnit(u) + rest;
    HexRoundTrip(u);
    assert s[2..6] == Hex4(u);
    assert s[6..] == rest;
  }

  lemma ReadShortEscape(c: CodePoint, rest: string)
    requires c < 0x80 && |EscapeChar(c)| <= 2
    ensures EscapeChar(c) + rest != "" && ReadChar(EscapeChar(c) + rest) == Some(Read([c], rest))
  {
    var s := EscapeChar(c) + rest;
    assert s[|EscapeChar(c)|..] == rest;
  }

  lemma ReadStringStep(s: string, head: JsString, rest: string)
    requires s != "" && s[0] != '\"' && ReadChar(s) == Some(Read(head, rest))
    ensures ReadString(s) == match ReadString(rest)
      case None => None
      case Some(tail) => Some(Read(head + tail.value, tail.rest))
  {
  }

  lemma ReadUnitStep(u: CodeUnit, rest: string)
    ensures ReadString(EscapeUnit(u) + rest) == match ReadString(rest)
      case None => None
      case Some(tail) => Some(Read([u] + tail.value, tail.rest))
  {
    ReadEscapedUnit(u, rest);
    ReadStringStep(EscapeUnit(u) + rest, [u], rest);
  }

  lemma ReadPairStep(hi: CodeUnit, lo: CodeUnit, rest: string)
    ensures ReadString(EscapeUnit(hi) + EscapeUnit(lo) + rest) == match ReadString(rest)
      case None => None
      case Some(tail) => Some(Read([hi, lo] + tail.value, tail.rest))
  {
    Assoc(EscapeUnit(hi), EscapeUnit(lo), rest);
    ReadUnitStep(hi, EscapeUnit(lo) + rest);
    ReadUnitStep(lo, rest);
    assert [hi] + [lo] == [hi, lo];
    if ReadString(rest).Some? { Assoc([hi], [lo], ReadString(rest).value.value); }
  }

  /** Reading the escape of one code point yields its code units and consumes exactly it. */
  lemma ReadEscapedChar(c: CodePoint, rest: string)
    ensures ReadString(EscapeChar(c) + rest) == match ReadString(rest)
      case None => None
      case Some(tail) => Some(Read(Units(c) + tail.value, tail.rest))
  {
    if c >= 0x10000 {
      ReadPairStep(Units(c)[0], Units(c)[1], rest);
    } else if |EscapeChar(c)| <= 2 {
      ReadShortEscape(c, rest);
      ReadStringStep(EscapeChar(c) + rest, Units(c), rest);
    } else {
      ReadUnitStep(c, rest);
    }
  }

  lemma PrependChar(c: CodePoint, tail: string, value: JsString, rest: string)
    requires ReadString(tail) == Some(Read(value, rest))
    ensures ReadString(EscapeChar(c) + tail) == Some(Read(Units(c) + value, rest))
  {
    ReadEscapedChar(c, tail);
  }

  lemma EscapeStep(s: PyString, tail: string)
    requires s != []
    ensures Escape(s) + tail == EscapeChar(s[0]) + (Escape(s[1..]) + tail)
  {
  }

  lemma {:induction false} StringRoundTrip(s: PyString, rest: string)
    ensures ReadString(Escape(s) + ("\"" + rest)) == Some(Read(Utf16(s), rest))
  {
    var quoted := "\"" + rest;
    if s == [] {
      assert Escape(s) + quoted == quoted;
    } else {
      StringRoundTrip(s[1..], rest);
      PrependChar(s[0], Escape(s[1..]) + quoted, Utf16(s[1..]), rest);
      EscapeStep(s, quoted);
    }
  }

  lemma {:induction false} NumberPrefixStops(n: string, rest: string)
    requires forall c :: c in n ==> IsNumberChar(c)
    requires rest != "" && !IsNumberChar(rest[0])
    ensures NumberPrefix(n + rest) == |n|
  {
    if n == "" {
      assert n + rest == rest;
    } else {
      assert (n + rest)[1..] == n[1..] + rest;
      NumberPrefixStops(n[1..], rest);
    }
  }

  lemma NumberRoundTrip(n: string, rest: string)
    requires IsLiteral(n)
    requires rest != "" && !IsNumberChar(rest[0])
    ensures ReadValue(n + rest) == Some(Read(Number(n), rest))
  {
    var s := n + rest;
    NumberPrefixStops(n, rest);
    assert s[..|n|] == n && s[|n|..] == rest;
    assert s[0] == n[0] && "true"[0] == 't' && "false"[0] == 'f' && "null"[0] == 'n';
  }

  lemma TextRoundTrip(t: PyString, rest: string)
    ensures ReadValue("\"" + Escape(t) + "\"" + rest) == Some(Read(Text(Utf16(t)), rest))
  {
    var s := "\"" + Escape(t) + "\"" + rest;
    assert s[1..] == Escape(t) + ("\"" + rest);
    StringRoundTrip(t, rest);
  }

  lemma WordRoundTrip(v: PyValue, rest: string)
    requires v.Bool? || v.Null?
    ensures ReadValue(WriteValue(v) + rest) == Some(Read(Seen(v), rest))
  {
    var word := WriteValue(v);
    var s := word + rest;
    assert s[|word|..] == rest && s[..|word|] == word;
    assert s[0] == word[0] && "true"[0] == 't' && "false"[0] == 'f';
  }

  lemma ValueRoundTrip(v: PyValue, rest: string)
    requires v.Number? ==> IsLiteral(v.literal)
    requires rest != "" && !IsNumberChar(rest[0])
    ensures ReadValue(WriteValue(v) + rest) == Some(Read(Seen(v), rest))
  {
    match v
    case Text(t) => TextRoundTrip(t, rest);
    case Number(n) => NumberRoundTrip(n, rest);
    case _ => WordRoundTrip(v, rest);
  }

  lemma MemberText(key: string, value: string, rest: string)
    ensures var s := "\"" + key + "\":" + value + rest;
      s[0] == '\"' && s[1..] == key + ("\"" + (":" + (value + rest)))
  {
  }

  lemma ReadMemberParts(s: string, key: JsString, after: string, v: JsValue, rest: string)
    requires s != "" && s[0] == '\"' && ReadString(s[1..]) == Some(Read(key, after))
    requires after != "" && after[0] == ':' && ReadValue(after[1..]) == Some(Read(v, rest))
    ensures ReadMember(s) == Some(Read(Member(key, v), rest))
  {
  }

  lemma MemberRoundTrip(m: Member<PyString>, rest: string)
    requires m.value.Number? ==> IsLiteral(m.value.literal)
    requires rest != "" && !IsNumberChar(rest[0])
    ensures ReadMember(WriteMember(m) + rest) == Some(Read(SeenMember(m), rest))
  {
    var value := WriteValue(m.value) + rest;
    MemberText(Escape(m.key), WriteValue(m.value), rest);
    StringRoundTrip(m.key, ":" + value);
    ValueRoundTrip(m.value, rest);
    assert (":" + value)[1..] == value;
    ReadMemberParts(WriteMember(m) + rest, Utf16(m.key), ":" + value, Seen(m.value), rest);
  }

  lemma ReadLastMember(s: string, m: Member<JsString>, rest: string)
    requires ReadMember(s) == Some(Read(m, "}" + rest))
    ensures ReadMembers(s) == Some(Read([m], rest))
  {
    assert ("}" + rest)[1..] == rest;
  }

  lemma ReadNextMember(s: string, m: Member<JsString>, others: string, o: JsObject, rest: string)
    requires ReadMember(s) == Some(Read(m, "," + others)) && ReadMembers(others) == Some(Read(o, rest))
    ensures ReadMembers(s) == Some(Read([m] + o, rest))
  {
    assert ("," + others)[1..] == others;
  }

  lemma WriteMembersStep(o: PyObject, rest: string)
    requires o != []
    ensures WriteMembers(o) + rest == WriteMember(o[0]) + if |o| == 1 then "}" + rest
        else "," + (WriteMembers(o[1..]) + rest)
  {
    if |o| == 1 {
      Assoc(WriteMember(o[0]), "}", rest);
    } else {
      Assoc(WriteMember(o[0]), "," + WriteMembers(o[1..]), rest);
      Assoc(",", WriteMembers(o[1..]), rest);
    }
  }

  function SeenMember(m: Member<PyString>): Member<JsString> {
    Member(Utf16(m.key), Seen(m.value))
  }

  lemma SeenObjectStep(o: PyObject)
    requires o != []
    ensures |o| == 1 ==> SeenObject(o) == [SeenMember(o[0])]
    ensures SeenObject(o) == [SeenMember(o[0])] + SeenObject(o[1..])
  {
  }

  lemma {:induction false} MembersRoundTrip(o: PyObject, rest: string)
    requires o != [] && Printable(o)
    ensures ReadMembers(WriteMembers(o) + rest) == Some(Read(SeenObject(o), rest))
  {
    assert o[0] in o;
    WriteMembersStep(o, rest);
    SeenObjectStep(o);
    if |o| == 1 {
      MemberRoundTrip(o[0], "}" + rest);
      ReadLastMember(WriteMember(o[0]) + ("}" + rest), SeenMember(o[0]), rest);
    } else {
      var others := WriteMembers(o[1..]) + rest;
      MemberRoundTrip(o[0], "," + others);
      MembersRoundTrip(o[1..], rest);
      ReadNextMember(WriteMember(o[0]) + ("," + others), SeenMember(o[0]), others, SeenObject(o[1..]), rest);
    }
  }

  /** `JSON.parse(json.dumps(o))` is `o`, every text seen as its UTF-16 code units: for all text,
      including quotes, control characters, characters beyond the BMP and lone surrogates. */
  lemma JsonRoundTrip(o: PyObject)
    requires Printable(o)
    ensures Parse(Dumps(o)) == Some(SeenObject(o))
  {
    if o == [] {
      assert SeenObject(o) == [];
    } else {
      var s := Dumps(o);
      assert s[1..] == WriteMembers(o) + "";
      MembersRoundTrip(o, "");
      assert WriteMembers(o)[0] == WriteMember(o[0])[0] == '\"';
      assert s[1] == '\"';
    }
  }

  // --- the wire is plain ASCII --------------------------------------------------------------

  /** Printable ASCII: one byte per character in UTF-8, and no line break. */
  predicate Plain(s: string) {
    forall c :: c in s ==> ' ' <= c <= '~'
  }

  lemma PlainConcat(a: string, b: string)
    requires Plain(a) && Plain(b)
    ensures Plain(a + b)
  {
  }

  lemma EscapedUnitIsPlain(u: CodeUnit)
    ensures Plain(EscapeUnit(u))
  {
    assert forall n :: 0 <= n < 16 ==> ' ' <= HexDigit(n) <= '~';
  }

  lemma EscapedCharIsPlain(c: CodePoint)
    ensures Plain(EscapeChar(c))
  {
    if c >= 0x10000 {
      EscapedUnitIsPlain(Units(c)[0]);
      EscapedUnitIsPlain(Units(c)[1]);
      PlainConcat(EscapeUnit(Units(c)[0]), EscapeUnit(Units(c)[1]));
    } else {
      EscapedUnitIsPlain(c);
    }
  }

  lemma {:induction false} EscapedIsPlain(s: PyString)
    ensures Plain(Escape(s))
  {
    if s != [] {
      EscapedCharIsPlain(s[0]);
      EscapedIsPlain(s[1..]);
    }
  }

  lemma {:induction false} MembersArePlain(o: PyObject)
    requires o != [] && Printable(o)
    ensures Plain(WriteMembers(o))
  {
    assert o[0] in o;
    EscapedIsPlain(o[0].key);
    if o[0].value.Text? { EscapedIsPlain(o[0].value.text); }
    assert Plain(WriteValue(o[0].value));
    assert Plain(WriteMember(o[0]));
    if |o| > 1 { MembersArePlain(o[1..]); }
  }

  /** A dumped payload is printable ASCII: it holds no bare newline, whatever the text. */
  lemma DumpsIsPlain(o: PyObject)
    requires Printable(o)
    ensures Plain(Dumps(o))
  {
    if o != [] { MembersArePlain(o); }
  }

  // --- what the server does not write -------------------------------------------------------

  /** Hexadecimal digits count alike in either case, and a slash may be escaped. */
  lemma OtherSpellings(rest: string)
    ensures forall k {:trigger HexValue('A' + k)} :: '\0' <= k <= (5 as char) ==> HexValue('A' + k) == HexValue('a' + k)
    ensures ReadChar("\\/" + rest) == Some(Read([0x2F], rest))
  {
    assert ("\\/" + rest)[2..] == rest;
  }
}
