/** Frames of an event stream (sections 9.2.5 and 9.2.6 of the WHATWG HTML standard, the subset in
    use): how the server encodes one, how the client finds and reads them. */
module SseFrames {
  import opened Wrappers
  import opened Json
  import Unicode

  // --- encoding -----------------------------------------------------------------------------

  function FrameText(name: string, payload: string): string {
    "event: " + name + "\ndata: " + payload
  }

  /** `SSEEvent.encode`. */
  function Encode(name: string, data: PyObject): string {
    FrameText(name, Dumps(data)) + "\n\n"
  }

  // --- framing ------------------------------------------------------------------------------

  predicate BreakAt(s: string, k: int) {
    0 <= k < |s| - 1 && s[k] == '\n' && s[k + 1] == '\n'
  }

  predicate NoBreakBefore(s: string, n: int) {
    forall k :: 0 <= k < n ==> !BreakAt(s, k)
  }

  /** `s.indexOf("\n\n")`. */
  function IndexOfBreak(s: string): (r: int)
    ensures -1 <= r
    ensures r >= 0 ==> BreakAt(s, r) && NoBreakBefore(s, r)
    ensures r == -1 ==> NoBreakBefore(s, |s|)
  {
    if |s| < 2 then -1
    else if BreakAt(s, 0) then 0
    else
      var r := IndexOfBreak(s[1..]);
      assert forall k :: 0 < k ==> (BreakAt(s, k) <==> BreakAt(s[1..], k - 1));
      if r == -1 then -1 else r + 1
  }

  /** A text that a blank line ends at its own length and not earlier. */
  ghost predicate Clean(frame: string) {
    NoBreakBefore(frame + "\n\n", |frame|)
  }

  function Terminated(frames: seq<string>): string {
    if frames == [] then "" else frames[0] + "\n\n" + Terminated(frames[1..])
  }

  /** Whole frames cut off the front of a stream, each ended by the first blank line after its start. */
  ghost predicate Cut(s: string, frames: seq<string>, rest: string) {
    && s == Terminated(frames) + rest
    && (forall i :: 0 <= i < |frames| ==> Clean(frames[i]))
  }

  /** What it means to split a stream: cut off frames until no blank line ends the tail. */
  ghost predicate Framed(s: string, frames: seq<string>, tail: string) {
    Cut(s, frames, tail) && NoBreakBefore(tail, |tail|)
  }

  lemma FirstBreakOfFrame(frame: string, rest: string)
    requires Clean(frame)
    ensures BreakAt(frame + "\n\n" + rest, |frame|) && NoBreakBefore(frame + "\n\n" + rest, |frame|)
  {
    var s := frame + "\n\n" + rest;
    assert s[|frame|..] == "\n\n" + rest;
    forall k | 0 <= k < |frame|
      ensures !BreakAt(s, k)
    {
      assert !BreakAt(frame + "\n\n", k);
    }
  }

  /** The first frame of a split ends at the first break; without one there is no frame. */
  lemma FirstFrame(s: string, frames: seq<string>, tail: string)
    requires Framed(s, frames, tail)
    ensures frames == [] ==> s == tail && NoBreakBefore(s, |s|)
    ensures frames != [] ==>
      && BreakAt(s, |frames[0]|) && NoBreakBefore(s, |frames[0]|)
      && s[..|frames[0]|] == frames[0]
      && Framed(s[|frames[0]| + 2..], frames[1..], tail)
  {
    if frames == [] {
      assert s == tail;
    } else {
      var rest := Terminated(frames[1..]) + tail;
      assert s == frames[0] + "\n\n" + rest;
      FirstBreakOfFrame(frames[0], rest);
      assert s[|frames[0]| + 2..] == rest;
    }
  }

  /** A stream can be split in only one way. */
  lemma {:induction false} FramingIsUnique(s: string, f1: seq<string>, t1: string, f2: seq<string>, t2: string)
    requires Framed(s, f1, t1) && Framed(s, f2, t2)
    ensures f1 == f2 && t1 == t2
  {
    FirstFrame(s, f1, t1);
    FirstFrame(s, f2, t2);
    if f1 != [] && f2 != [] {
      assert |f1[0]| == |f2[0]|;
      assert f1[0] == s[..|f1[0]|] == f2[0];
      FramingIsUnique(s[|f1[0]| + 2..], f1[1..], t1, f2[1..], t2);
      assert f1 == [f1[0]] + f1[1..] && f2 == [f2[0]] + f2[1..];
    }
  }

  lemma {:induction false} TerminatedAppend(a: seq<string>, b: seq<string>)
    ensures Terminated(a + b) == Terminated(a) + Terminated(b)
  {
    if a == [] {
      assert a + b == b;
    } else {
      assert (a + b)[1..] == a[1..] + b;
      TerminatedAppend(a[1..], b);
    }
  }

  /** More text is split by splitting the tail together with it. */
  lemma FramedAppend(a: string, frames: seq<string>, tail: string, b: string, more: seq<string>, tail': string)
    requires Cut(a, frames, tail) && Framed(tail + b, more, tail')
    ensures Framed(a + b, frames + more, tail')
  {
    TerminatedAppend(frames, more);
    assert a + b == Terminated(frames) + (tail + b);
    assert Terminated(frames) + (Terminated(more) + tail') == Terminated(frames) + Terminated(more) + tail';
  }

  /** The text up to the first break is one frame. */
  lemma CutFirst(s: string, at: nat)
    requires at == IndexOfBreak(s)
    ensures Cut(s, [s[..at]], s[at + 2..])
  {
    var f := s[..at];
    assert Terminated([f]) == f + "\n\n";
    forall k | 0 <= k < at
      ensures !BreakAt(f + "\n\n", k)
    {
      assert !BreakAt(s, k);
    }
  }

  // --- reading one frame --------------------------------------------------------------------

  datatype RawFrame = RawFrame(event: string, data: string)

  predicate NoNewline(s: string) {
    forall i :: 0 <= i < |s| ==> s[i] != '\n'
  }

  /** `frame.split("\n")`. */
  function SplitLines(s: string): (lines: seq<string>)
    ensures |lines| > 0
    ensures forall line :: line in lines ==> NoNewline(line)
  {
    if s == "" then [""]
    else
      var rest := SplitLines(s[1..]);
      assert NoNewline(rest[0]) by { assert rest[0] in rest; }
      assert forall line :: line in rest[1..] ==> line in rest;
      if s[0] == '\n' then [""] + rest
      else [[s[0]] + rest[0]] + rest[1..]
  }

  function AfterPrefix(line: string, prefix: string): Option<string> {
    if prefix <= line then Some(line[|prefix|..]) else None
  }

  /** The value of the last `event: ` line, or the empty string. */
  function LastEvent(lines: seq<string>): (r: string) {
    if lines == [] then ""
    else match AfterPrefix(lines[|lines| - 1], "event: ")
      case Some(v) => v
      case None => LastEvent(lines[..|lines| - 1])
  }

  /** The values of the `data: ` lines, in order. */
  function DataLines(lines: seq<string>): seq<string> {
    if lines == [] then []
    else match AfterPrefix(lines[|lines| - 1], "data: ")
      case Some(v) => DataLines(lines[..|lines| - 1]) + [v]
      case None => DataLines(lines[..|lines| - 1])
  }

  function JoinLines(lines: seq<string>): string {
    if lines == [] then "" else if |lines| == 1 then lines[0] else lines[0] + "\n" + JoinLines(lines[1..])
  }

  function ParsedFrame(frame: string): Option<RawFrame> {
    var lines := SplitLines(frame);
    var data := JoinLines(DataLines(lines));
    if LastEvent(lines) == "" then None
    else Some(RawFrame(LastEvent(lines), if data == "" then "{}" else data))
  }

  /** `parseFrame`: one pass over the lines. */
  method ParseFrame(frame: string) returns (r: Option<RawFrame>)
    ensures r == ParsedFrame(frame)
  {
    var event := "";
    var dataLines: seq<string> := [];
    var lines := SplitLines(frame);
    for i := 0 to |lines|
      invariant event == LastEvent(lines[..i])
      invariant dataLines == DataLines(lines[..i])
    {
      var line := lines[i];
      assert lines[..i + 1][..i] == lines[..i];
      PrefixesDiffer(line);
      if "event: " <= line {
        event := line[7..];
      } else if "data: " <= line {
        dataLines := dataLines + [line[6..]];
      }
    }
    assert lines[..|lines|] == lines;
    if event == "" { return None; }
    var data := JoinLines(dataLines);
    return Some(RawFrame(event, if data == "" then "{}" else data));
  }

  lemma PrefixesDiffer(line: string)
    ensures !("event: " <= line && "data: " <= line)
  {
    assert "event: " <= line ==> line[0] == 'e';
    assert "data: " <= line ==> line[0] == 'd';
  }

  lemma {:induction false} SplitOfJoin(a: string, b: string)
    requires NoNewline(a)
    ensures SplitLines(a + "\n" + b) == [a] + SplitLines(b)
  {
    var s := a + "\n" + b;
    if a == "" {
      assert s[1..] == b;
    } else {
      assert s[1..] == a[1..] + "\n" + b;
      SplitOfJoin(a[1..], b);
      assert a == [a[0]] + a[1..];
    }
  }

  lemma {:induction false} SplitOfLine(a: string)
    requires NoNewline(a)
    ensures SplitLines(a) == [a]
  {
    if a != "" {
      SplitOfLine(a[1..]);
      assert a == [a[0]] + a[1..];
    }
  }

  /** Splitting loses nothing. */
  lemma {:induction false} JoinOfSplit(s: string)
    ensures JoinLines(SplitLines(s)) == s
  {
    if s != "" {
      JoinOfSplit(s[1..]);
      var rest := SplitLines(s[1..]);
      assert SplitLines(s)[1..] == if s[0] == '\n' then rest else rest[1..];
    }
  }

  /** A frame as the server writes it is read back as the same name and payload. */
  lemma ReadBack(name: string, payload: string)
    requires name != "" && NoNewline(name) && payload != "" && NoNewline(payload)
    ensures ParsedFrame(FrameText(name, payload)) == Some(RawFrame(name, payload))
  {
    var first, second := "event: " + name, "data: " + payload;
    assert FrameText(name, payload) == first + "\n" + second;
    SplitOfJoin(first, second);
    SplitOfLine(second);
    var lines := SplitLines(FrameText(name, payload));
    assert lines == [first, second];
    assert lines[..1] == [first] && [first][..0] == [];
    assert first[7..] == name && second[6..] == payload;
    PrefixesDiffer(first);
    PrefixesDiffer(second);
    assert DataLines([first]) == [];
    assert DataLines(lines) == [payload];
    assert LastEvent([first]) == name;
  }

  lemma {:induction false} LastEventIsLine(lines: seq<string>)
    requires forall line :: line in lines ==> NoNewline(line)
    ensures NoNewline(LastEvent(lines))
  {
    if lines != [] {
      assert lines[|lines| - 1] in lines;
      LastEventIsLine(lines[..|lines| - 1]);
    }
  }

  lemma WrittenFrameIsClean(name: string, payload: string)
    requires NoNewline(name) && payload != "" && NoNewline(payload)
    ensures Clean(FrameText(name, payload))
  {
    var s := FrameText(name, payload) + "\n\n";
    var first, second := "event: " + name, "data: " + payload;
    forall k | 0 <= k < |FrameText(name, payload)|
      ensures !BreakAt(s, k)
    {
      if k < |first| {
        assert s[k] == first[k];
      } else if k == |first| {
        assert s[k + 1] == second[0];
      } else {
        assert s[k] == second[k - |first| - 1];
      }
    }
  }

  // --- frames the server does not write -----------------------------------------------------

  lemma {:induction false} SplitOfJoinLines(lines: seq<string>)
    requires lines != [] && forall line :: line in lines ==> NoNewline(line)
    ensures SplitLines(JoinLines(lines)) == lines
  {
    assert lines[0] in lines;
    if |lines| == 1 {
      SplitOfLine(lines[0]);
    } else {
      assert forall line :: line in lines[1..] ==> line in lines;
      SplitOfJoinLines(lines[1..]);
      SplitOfJoin(lines[0], JoinLines(lines[1..]));
    }
  }

  function EachData(data: seq<string>): seq<string> {
    seq(|data|, i requires 0 <= i < |data| => "data: " + data[i])
  }

  lemma {:induction false} DataLinesRead(name: string, data: seq<string>)
    ensures LastEvent(["event: " + name] + EachData(data)) == name
    ensures DataLines(["event: " + name] + EachData(data)) == data
  {
    var first := "event: " + name;
    if data == [] {
      assert [first] + EachData(data) == [first] && [first][..0] == [];
      PrefixesDiffer(first);
      assert first[7..] == name;
    } else {
      var init, last := data[..|data| - 1], data[|data| - 1];
      DataLinesRead(name, init);
      assert ([first] + EachData(data))[..|data|] == [first] + EachData(init);
      PrefixesDiffer("data: " + last);
      assert ("data: " + last)[6..] == last;
    }
  }

  /** The lines of a payload written over several data lines are joined with line breaks; a frame
      without data has an empty object. */
  lemma MultilineReadBack(name: string, data: seq<string>)
    requires name != "" && NoNewline(name) && forall line :: line in data ==> NoNewline(line)
    ensures ParsedFrame(JoinLines(["event: " + name] + EachData(data)))
      == Some(RawFrame(name, if JoinLines(data) == "" then "{}" else JoinLines(data)))
    ensures data != [] ==> SplitLines(JoinLines(data)) == data
  {
    var lines := ["event: " + name] + EachData(data);
    forall line | line in lines
      ensures NoNewline(line)
    {
      if line != lines[0] {
        var i :| 0 <= i < |data| && line == "data: " + data[i];
        assert data[i] in data;
      }
    }
    SplitOfJoinLines(lines);
    DataLinesRead(name, data);
    if data != [] { SplitOfJoinLines(data); }
  }

  /** The last event line names the event; lines of other fields count for nothing. */
  lemma LastEventWins(lines: seq<string>, line: string)
    ensures "event: " <= line ==> LastEvent(lines + [line]) == line[7..] && DataLines(lines + [line]) == DataLines(lines)
    ensures "data: " <= line ==> LastEvent(lines + [line]) == LastEvent(lines)
    ensures !("event: " <= line) && !("data: " <= line) ==>
      LastEvent(lines + [line]) == LastEvent(lines) && DataLines(lines + [line]) == DataLines(lines)
  {
    PrefixesDiffer(line);
    assert (lines + [line])[..|lines|] == lines;
  }

  lemma NamelessIsNoEvent(frame: string)
    ensures ParsedFrame(frame) == None <==> LastEvent(SplitLines(frame)) == ""
  {
  }
}
