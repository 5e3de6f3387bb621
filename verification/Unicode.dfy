/** Python strings are sequences of code points, JavaScript strings of UTF-16 code units. */
module Unicode {
  type CodePoint = n: int | 0 <= n < 0x110000
  type CodeUnit = n: int | 0 <= n < 0x10000

  type PyString = seq<CodePoint>
  type JsString = seq<CodeUnit>

  function FirstUnit(c: CodePoint): CodeUnit {
    if c < 0x10000 then c else 0xD800 + (c - 0x10000) / 0x400
  }

  function LastUnit(c: CodePoint): CodeUnit {
    if c < 0x10000 then c else 0xDC00 + (c - 0x10000) % 0x400
  }

  /** One code point as code units: itself, or a surrogate pair. */
  function Units(c: CodePoint): JsString {
    if c < 0x10000 then [c] else [FirstUnit(c), LastUnit(c)]
  }

  /** What a JavaScript client sees of a Python string. */
  function Utf16(s: PyString): (r: JsString)
    ensures r == [] <==> s == []
  {
    if s == [] then [] else Units(s[0]) + Utf16(s[1..])
  }

  lemma {:induction false} Utf16Append(a: PyString, b: PyString)
    ensures Utf16(a + b) == Utf16(a) + Utf16(b)
  {
    if a == [] {
      assert a + b == b;
    } else {
      assert (a + b)[1..] == a[1..] + b;
      Utf16Append(a[1..], b);
    }
  }

  /** `"".join(parts)`, and its JavaScript counterpart, repeated `+=`. */
  function Join<T>(parts: seq<seq<T>>): seq<T> {
    if parts == [] then [] else parts[0] + Join(parts[1..])
  }

  lemma {:induction false} JoinAppend<T>(a: seq<seq<T>>, b: seq<seq<T>>)
    ensures Join(a + b) == Join(a) + Join(b)
  {
    if a == [] {
      assert a + b == b;
    } else {
      assert (a + b)[1..] == a[1..] + b;
      JoinAppend(a[1..], b);
    }
  }

  lemma JoinLast<T>(parts: seq<seq<T>>, last: seq<T>)
    ensures Join(parts + [last]) == Join(parts) + last
  {
    JoinAppend(parts, [last]);
    assert Join([last]) == last + Join([]);
  }

  lemma JoinSplit<T>(parts: seq<seq<T>>, n: nat)
    requires n <= |parts|
    ensures Join(parts) == Join(parts[..n]) + Join(parts[n..])
  {
    var first, rest := parts[..n], parts[n..];
    assert first + rest == parts;
    JoinAppend(first, rest);
  }

  lemma Assoc<T>(a: seq<T>, b: seq<T>, c: seq<T>)
    ensures a + b + c == a + (b + c)
  {
  }

  function EachUtf16(parts: seq<PyString>): seq<JsString> {
    seq(|parts|, i requires 0 <= i < |parts| => Utf16(parts[i]))
  }

  /** Joining and converting commute: a reader of the pieces sees the whole text. */
  lemma {:induction false} JoinUtf16(parts: seq<PyString>)
    ensures Join(EachUtf16(parts)) == Utf16(Join(parts))
  {
    if parts != [] {
      JoinUtf16(parts[1..]);
      assert EachUtf16(parts)[1..] == EachUtf16(parts[1..]);
      Utf16Append(parts[0], Join(parts[1..]));
    }
  }

  predicate Ascii(s: string) {
    forall i :: 0 <= i < |s| ==> s[i] as int < 0x80
  }

  type AsciiString = s: string | Ascii(s)

  /** Text of the program itself, as a Python and as a JavaScript string. */
  function Py(s: string): PyString {
    seq(|s|, i requires 0 <= i < |s| => s[i] as int)
  }

  function Js(s: AsciiString): JsString {
    seq(|s|, i requires 0 <= i < |s| => s[i] as int)
  }

  lemma {:induction false} Utf16OfAscii(s: AsciiString)
    ensures Utf16(Py(s)) == Js(s)
  {
    if s != "" {
      assert Py(s)[1..] == Py(s[1..]);
      Utf16OfAscii(s[1..]);
      assert Js(s) == [s[0] as int] + Js(s[1..]);
    }
  }

  lemma JsIsInjective(a: AsciiString, b: AsciiString)
    requires Js(a) == Js(b)
    ensures a == b
  {
    forall i | 0 <= i < |a|
      ensures a[i] == b[i]
    {
      assert Js(a)[i] == Js(b)[i];
    }
  }

  // --- whitespace ---------------------------------------------------------------------------

  predicate CommonSpace(c: int) {
    || 0x09 <= c <= 0x0D || c == 0x20 || c == 0xA0 || c == 0x1680 || 0x2000 <= c <= 0x200A
    || c == 0x2028 || c == 0x2029 || c == 0x202F || c == 0x205F || c == 0x3000
  }

  /** What Python's `str.strip` removes. */
  predicate PySpace(c: CodePoint) {
    CommonSpace(c) || OnlyPySpace(c)
  }

  /** What JavaScript's `trim` removes. */
  predicate JsSpace(c: CodeUnit) {
    CommonSpace(c) || c == 0xFEFF
  }

  function PyStrip(s: PyString): (r: PyString)
    ensures r != [] ==> !PySpace(r[0]) && !PySpace(r[|r| - 1])
    ensures r == s <==> s == [] || (!PySpace(s[0]) && !PySpace(s[|s| - 1]))
    ensures |r| <= |s|
  {
    if s == [] then []
    else if PySpace(s[0]) then PyStrip(s[1..])
    else if PySpace(s[|s| - 1]) then PyStrip(s[..|s| - 1])
    else s
  }

  /** The first `i` and the last characters from `j` on are whitespace. */
  predicate OuterSpace(s: PyString, i: nat, j: nat)
    requires i <= j <= |s|
  {
    (forall k :: 0 <= k < i ==> PySpace(s[k])) && (forall k :: j <= k < |s| ==> PySpace(s[k]))
  }

  lemma SliceOfTail(s: PyString, i: nat, j: nat)
    requires s != [] && PySpace(s[0]) && i <= j < |s| && OuterSpace(s[1..], i, j)
    ensures OuterSpace(s, i + 1, j + 1) && s[i + 1..j + 1] == s[1..][i..j]
  {
    var tail := s[1..];
    assert forall k :: 0 < k < |s| ==> s[k] == tail[k - 1];
  }

  lemma SliceOfInit(s: PyString, i: nat, j: nat)
    requires s != [] && PySpace(s[|s| - 1]) && i <= j < |s| && OuterSpace(s[..|s| - 1], i, j)
    ensures OuterSpace(s, i, j) && s[i..j] == s[..|s| - 1][i..j]
  {
    var init := s[..|s| - 1];
    assert forall k :: 0 <= k < |init| ==> s[k] == init[k];
  }

  /** Stripping keeps one slice of the text and drops whitespace only. */
  lemma {:induction false} StripKeepsSlice(s: PyString) returns (i: nat, j: nat)
    ensures i <= j <= |s| && PyStrip(s) == s[i..j] && OuterSpace(s, i, j)
    decreases |s|
  {
    if s == [] {
      i, j := 0, 0;
    } else if PySpace(s[0]) {
      var a, b := StripKeepsSlice(s[1..]);
      SliceOfTail(s, a, b);
      i, j := a + 1, b + 1;
    } else if PySpace(s[|s| - 1]) {
      i, j := StripKeepsSlice(s[..|s| - 1]);
      SliceOfInit(s, i, j);
    } else {
      i, j := 0, |s|;
    }
  }

  predicate AllSpace(s: PyString) {
    forall k :: 0 <= k < |s| ==> PySpace(s[k])
  }

  /** Nothing is left exactly when all of it is whitespace. */
  lemma StripIsEmptyExactly(s: PyString)
    ensures PyStrip(s) == [] <==> AllSpace(s)
  {
    var i, j := StripKeepsSlice(s);
    if PyStrip(s) != [] { assert PyStrip(s)[0] == s[i]; }
  }

  /** The halves of a surrogate pair give the code point back. */
  lemma PairGivesCodePoint(c: CodePoint)
    ensures c < 0x10000 ==> Units(c) == [c]
    ensures c >= 0x10000 ==>
      && |Units(c)| == 2
      && var high: int, low: int := Units(c)[0], Units(c)[1];
        && 0xD800 <= high < 0xDC00 && 0xDC00 <= low < 0xE000
        && 0x10000 + (high - 0xD800) * 0x400 + (low - 0xDC00) == c
  {
  }

  /** What Python strips and JavaScript does not trim. */
  predicate OnlyPySpace(c: CodePoint) {
    0x1C <= c <= 0x1F || c == 0x85
  }

  /** What `draft.trim()` leaves, when it leaves anything. */
  predicate Trimmed(s: JsString) {
    s != [] && !JsSpace(s[0]) && !JsSpace(s[|s| - 1])
  }

  lemma EndsOfUtf16(s: PyString)
    requires s != []
    ensures Utf16(s)[0] == FirstUnit(s[0]) && Utf16(s)[|Utf16(s)| - 1] == LastUnit(s[|s| - 1])
  {
    var init, last := s[..|s| - 1], s[|s| - 1];
    assert s == init + [last];
    Utf16Append(init, [last]);
    assert Utf16([last]) == Units(last);
  }

  /** A code point whose first or last unit is kept is no space that both would remove. */
  lemma KeptIsNotCommon(c: CodePoint)
    requires !JsSpace(FirstUnit(c)) || !JsSpace(LastUnit(c))
    ensures !CommonSpace(c)
  {
  }

  lemma KeptEndsAreNotCommon(u: JsString, first: CodePoint, last: CodePoint)
    requires Trimmed(u) && u[0] == FirstUnit(first) && u[|u| - 1] == LastUnit(last)
    ensures !CommonSpace(first) && !CommonSpace(last)
  {
    KeptIsNotCommon(first);
    KeptIsNotCommon(last);
  }

  lemma TrimmedEndsInNoSpace(s: PyString)
    requires Trimmed(Utf16(s))
    ensures s != [] && !CommonSpace(s[0]) && !CommonSpace(s[|s| - 1])
  {
    EndsOfUtf16(s);
    KeptEndsAreNotCommon(Utf16(s), s[0], s[|s| - 1]);
  }

  /** Of trimmed content the server strips exactly what has one of those characters at an end. */
  lemma TrimmedIsStrippedExactly(s: PyString)
    requires Trimmed(Utf16(s))
    ensures PyStrip(s) == s <==> !OnlyPySpace(s[0]) && !OnlyPySpace(s[|s| - 1])
  {
    TrimmedEndsInNoSpace(s);
  }

  /** `!content.trim()`. */
  predicate JsBlank(s: JsString) {
    forall i :: 0 <= i < |s| ==> JsSpace(s[i])
  }

  /** A message is blank exactly when trimming would leave nothing of it. */
  lemma BlankLeavesNothing(s: JsString)
    ensures JsBlank(s) <==> forall i, j :: 0 <= i < j <= |s| ==> !Trimmed(s[i..j])
  {
    if k :| 0 <= k < |s| && !JsSpace(s[k]) {
      assert s[k..k + 1] == [s[k]];
      assert Trimmed(s[k..k + 1]);
    }
  }

  /** Blanks, tabs, line breaks and the spaces of typography are whitespace to both; letters, digits and
      marks are to neither. */
  lemma WhitespaceListed(c: int)
    ensures CommonSpace(c) <==>
      c in [0x09, 0x0A, 0x0B, 0x0C, 0x0D, 0x20, 0xA0, 0x1680, 0x2000, 0x2001, 0x2002, 0x2003, 0x2004, 0x2005, 0x2006,
            0x2007, 0x2008, 0x2009, 0x200A, 0x2028, 0x2029, 0x202F, 0x205F, 0x3000]
    ensures 0 <= c < 0x10000 ==> (JsSpace(c) <==> CommonSpace(c) || c == 0xFEFF)
    ensures 0 <= c < 0x110000 ==> (PySpace(c) <==> CommonSpace(c) || c in [0x1C, 0x1D, 0x1E, 0x1F, 0x85])
  {
  }
}
