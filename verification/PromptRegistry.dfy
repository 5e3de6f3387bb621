/** Prompt files `<name>_v<number>.md`: decoding their names, loading them, choosing the latest. */
module PromptRegistry {
  import opened Wrappers
  import opened Decimals

  predicate IsNameChar(c: char) {
    'a' <= c <= 'z' || '0' <= c <= '9' || c == '_'
  }

  predicate IsName(s: string) {
    s != "" && forall i :: 0 <= i < |s| ==> IsNameChar(s[i])
  }

  predicate IsNumeral(s: string) {
    s != "" && AllDigits(s)
  }

  function FileName(name: string, version: string): string {
    name + "_v" + version + ".md"
  }

  datatype Decoded = Decoded(name: string, version: string)

  /** What the pattern matches: a name, `_v`, one or more digits, `.md`, and nothing else but, as `$`
      allows, one newline. */
  ghost predicate Matches(file: string, d: Decoded) {
    && IsName(d.name) && IsNumeral(d.version)
    && (file == FileName(d.name, d.version) || file == FileName(d.name, d.version) + "\n")
  }

  /** How many digits the text ends with. */
  function TrailingDigits(s: string): (n: nat)
    ensures n <= |s|
    ensures forall i :: |s| - n <= i < |s| ==> IsDigit(s[i])
    ensures n < |s| ==> !IsDigit(s[|s| - n - 1])
  {
    if s == "" || !IsDigit(s[|s| - 1]) then 0 else TrailingDigits(s[..|s| - 1]) + 1
  }

  /** `FILENAME_PATTERN.match`. */
  function Decode(file: string): (r: Option<Decoded>)
    ensures r.Some? ==> Matches(file, r.value)
  {
    if file != "" && file[|file| - 1] == '\n' then DecodeLine(file[..|file| - 1]) else DecodeLine(file)
  }

  function DecodeLine(file: string): (r: Option<Decoded>)
    ensures r.Some? ==>
      IsName(r.value.name) && IsNumeral(r.value.version) && file == FileName(r.value.name, r.value.version)
  {
    if |file| < 3 || file[|file| - 3..] != ".md" then None
    else
      var stem := file[..|file| - 3];
      var n := TrailingDigits(stem);
      var rest := stem[..|stem| - n];
      if n == 0 || |rest| < 2 || rest[|rest| - 2..] != "_v" then None
      else
        var name := rest[..|rest| - 2];
        assert file == FileName(name, stem[|stem| - n..]);
        if IsName(name) then Some(Decoded(name, stem[|stem| - n..])) else None
  }

  lemma {:induction false} DigitsEndAt(prefix: string, digits: string)
    requires AllDigits(digits) && prefix != "" && !IsDigit(prefix[|prefix| - 1])
    ensures TrailingDigits(prefix + digits) == |digits|
    decreases |digits|
  {
    if digits == "" {
      assert prefix + digits == prefix;
    } else {
      assert (prefix + digits)[..|prefix + digits| - 1] == prefix + digits[..|digits| - 1];
      DigitsEndAt(prefix, digits[..|digits| - 1]);
    }
  }

  lemma LineDecodes(d: Decoded)
    requires IsName(d.name) && IsNumeral(d.version)
    ensures DecodeLine(FileName(d.name, d.version)) == Some(d)
  {
    var file, rest := FileName(d.name, d.version), d.name + "_v";
    var stem := rest + d.version;
    assert file[|file| - 3..] == ".md" && file[..|file| - 3] == stem;
    DigitsEndAt(rest, d.version);
    assert stem[..|stem| - |d.version|] == rest && stem[|stem| - |d.version|..] == d.version;
    assert rest[..|rest| - 2] == d.name && rest[|rest| - 2..] == "_v";
  }

  /** File names decode uniquely: printing any name, which may itself contain `_v` and digits, and any
      numeral, then decoding, returns the same pair; and only such file names decode. */
  lemma DecodeIsExact(file: string, d: Decoded)
    ensures Decode(file) == Some(d) <==> Matches(file, d)
  {
    if Matches(file, d) {
      LineDecodes(d);
      var plain := FileName(d.name, d.version);
      assert plain[|plain| - 1] == 'd' && (plain + "\n")[..|plain|] == plain;
    }
  }

  /** What the scan of the directory for `*.md` passes on. */
  predicate IsMarkdown(path: string) {
    |path| >= 3 && path[|path| - 3..] == ".md"
  }

  /** So two of its files never decode alike, newline or not. */
  lemma MarkdownDecodesUniquely(a: string, b: string)
    requires IsMarkdown(a) && IsMarkdown(b) && Decode(a).Some? && Decode(a) == Decode(b)
    ensures a == b == FileName(Decode(a).value.name, Decode(a).value.version)
  {
    assert a[|a| - 1] == a[|a| - 3..][2] == 'd' && b[|b| - 1] == b[|b| - 3..][2] == 'd';
  }

  /** A printed version number comes back as the number. */
  lemma PrintedVersionRoundTrip(name: string, version: nat)
    requires IsName(name)
    ensures Decode(FileName(name, Print(version))) == Some(Decoded(name, Print(version)))
    ensures Value(Decode(FileName(name, Print(version))).value.version) == version
  {
    DecodeIsExact(FileName(name, Print(version)), Decoded(name, Print(version)));
    ValueOfPrint(version);
  }

  // --- the registry -------------------------------------------------------------------------

  /** Prompts by name and version numeral; the text is the stripped file content. */
  type Prompts = map<(string, string), string>

  datatype File = File(path: string, text: string)

  datatype Registry = Registry(prompts: Prompts) | BadFile(path: string)

  type Decoder = string -> Option<Decoded>

  ghost predicate AllDecode(files: seq<File>, decode: Decoder) {
    forall i :: 0 <= i < |files| ==> decode(files[i].path).Some?
  }

  ghost predicate Holds(prompts: Prompts, file: File, decode: Decoder) {
    match decode(file.path)
    case None => false
    case Some(d) => (d.name, d.version) in prompts && prompts[(d.name, d.version)] == file.text
  }

  ghost predicate FromFile(files: seq<File>, key: (string, string), decode: Decoder) {
    exists i :: 0 <= i < |files| && decode(files[i].path) == Some(Decoded(key.0, key.1))
  }

  /** The registry of a directory: exactly the prompts of its files, or the first file that does not
      follow the convention. */
  ghost predicate IsRegistry(files: seq<File>, r: Registry, decode: Decoder) {
    match r
    case Registry(prompts) =>
      && (forall i :: 0 <= i < |files| ==> Holds(prompts, files[i], decode))
      && (forall key :: key in prompts ==> FromFile(files, key, decode))
    case BadFile(path) =>
      exists i :: 0 <= i < |files| && files[i].path == path && decode(path).None? && AllDecode(files[..i], decode)
  }

  /** The loop of `_load_all`. Two files never share a key. */
  method LoadWith(files: seq<File>, decode: Decoder) returns (r: Registry)
    requires forall i, j :: 0 <= i < j < |files| && decode(files[i].path).Some? ==>
               decode(files[i].path) != decode(files[j].path)
    ensures IsRegistry(files, r, decode)
    ensures r.Registry? <==> AllDecode(files, decode)
  {
    var prompts: Prompts := map[];
    for n := 0 to |files|
      invariant forall i :: 0 <= i < n ==> Holds(prompts, files[i], decode)
      invariant forall key :: key in prompts ==> FromFile(files, key, decode)
    {
      var d := decode(files[n].path);
      if d.None? { return BadFile(files[n].path); }
      prompts := prompts[(d.value.name, d.value.version) := files[n].text];
    }
    return Registry(prompts);
  }

  /** `_load_all` over the `*.md` files of the template directory. */
  method LoadAll(files: seq<File>) returns (r: Registry)
    requires forall i, j :: 0 <= i < j < |files| ==> files[i].path != files[j].path
    requires forall i :: 0 <= i < |files| ==> IsMarkdown(files[i].path)
    ensures IsRegistry(files, r, Decode)
    ensures r.Registry? <==> AllDecode(files, Decode)
  {
    forall i, j | 0 <= i < j < |files| && Decode(files[i].path).Some?
      ensures Decode(files[i].path) != Decode(files[j].path)
    {
      if Decode(files[i].path) == Decode(files[j].path) { MarkdownDecodesUniquely(files[i].path, files[j].path); }
    }
    r := LoadWith(files, Decode);
  }

  /** Every key of a loaded registry is a name and a numeral, as `get_prompt` relies on. */
  lemma LoadedKeysAreDecoded(files: seq<File>, prompts: Prompts, key: (string, string))
    requires IsRegistry(files, Registry(prompts), Decode) && key in prompts
    ensures IsName(key.0) && IsNumeral(key.1)
  {
    var i :| 0 <= i < |files| && Decode(files[i].path) == Some(Decoded(key.0, key.1));
    DecodeIsExact(files[i].path, Decoded(key.0, key.1));
  }

  datatype Version = Latest | Exactly(numeral: string)

  /** The key a name and a version stand for among the prompts, if there is one. */
  ghost predicate Chosen(prompts: Prompts, name: string, version: Version, r: Option<(string, string)>) {
    match version
    case Exactly(v) => r == if (name, v) in prompts then Some((name, v)) else None
    case Latest =>
      && (r.None? ==> forall key :: key in prompts ==> key.0 != name)
      && (r.Some? ==>
            && r.value in prompts && r.value.0 == name
            && forall key :: key in prompts && key.0 == name && AllDigits(key.1) && AllDigits(r.value.1) ==>
                Value(key.1) <= Value(r.value.1))
  }

  /** `max(candidates, key=...)`, or the key asked for. */
  method Choose(prompts: Prompts, name: string, version: Version) returns (r: Option<(string, string)>)
    requires forall key :: key in prompts ==> AllDigits(key.1)
    ensures Chosen(prompts, name, version, r)
  {
    match version
    case Exactly(v) =>
      r := if (name, v) in prompts then Some((name, v)) else None;
    case Latest =>
      r := None;
      var candidates := set key | key in prompts && key.0 == name;
      assert forall key :: key in prompts && key.0 == name ==> key in candidates;
      var left := candidates;
      while left != {}
        invariant left <= candidates
        invariant r.None? ==> left == candidates
        invariant r.Some? ==> r.value in candidates
        invariant r.Some? ==> forall key :: key in candidates && key !in left ==> Value(key.1) <= Value(r.value.1)
      {
        var key :| key in left;
        left := left - {key};
        if r.None? || Value(key.1) > Value(r.value.1) {
          r := Some(key);
        }
      }
  }

  datatype Prompt = Prompt(name: string, version: string, template: string)

  datatype Answer = Answered(prompt: Prompt) | NotFound | BadDirectory(path: string)

  /** The prompt is what this file of the directory holds. */
  ghost predicate Contains(file: File, p: Prompt, decode: Decoder) {
    decode(file.path) == Some(Decoded(p.name, p.version)) && file.text == p.template
  }

  ghost predicate HasVersion(file: File, name: string, version: Version, decode: Decoder) {
    var d := decode(file.path);
    d.Some? && d.value.name == name && (version.Exactly? ==> d.value.version == version.numeral)
  }

  /** What `get_prompt` owes its caller, said of the directory: the text of a file with that name and
      version, the latest being numerically at least every other of that name; not found only when
      there is no such file; and an error only when some file does not follow the convention. */
  ghost predicate Answers(files: seq<File>, name: string, version: Version, r: Answer, decode: Decoder) {
    match r
    case BadDirectory(path) => exists i :: 0 <= i < |files| && files[i].path == path && decode(path).None?
    case NotFound =>
      AllDecode(files, decode) && forall i :: 0 <= i < |files| ==> !HasVersion(files[i], name, version, decode)
    case Answered(p) =>
      && AllDecode(files, decode)
      && (exists i :: 0 <= i < |files| && HasVersion(files[i], name, version, decode) && Contains(files[i], p, decode))
      && (forall i :: 0 <= i < |files| && HasVersion(files[i], name, version, decode) ==>
            NoLater(decode(files[i].path).value.version, p.version))
  }

  predicate NoLater(a: string, b: string) {
    IsNumeral(a) && IsNumeral(b) && Value(a) <= Value(b)
  }

  /** What a loaded registry and a chosen key say of the directory. */
  lemma ChosenAnswers(files: seq<File>, prompts: Prompts, name: string, version: Version, r: Option<(string, string)>,
                      decode: Decoder)
    requires IsRegistry(files, Registry(prompts), decode) && AllDecode(files, decode) && Chosen(prompts, name, version, r)
    requires forall key :: key in prompts ==> IsNumeral(key.1)
    ensures r.None? ==> Answers(files, name, version, NotFound, decode)
    ensures r.Some? ==> r.value in prompts
    ensures r.Some? ==> Answers(files, name, version, Answered(Prompt(r.value.0, r.value.1, prompts[r.value])), decode)
  {
    assert forall i :: 0 <= i < |files| ==> Holds(prompts, files[i], decode);
    if r.Some? {
      assert FromFile(files, r.value, decode);
      var i :| 0 <= i < |files| && decode(files[i].path) == Some(Decoded(r.value.0, r.value.1));
      assert HasVersion(files[i], name, version, decode);
      assert Contains(files[i], Prompt(r.value.0, r.value.1, prompts[r.value]), decode);
    }
  }

  /** `get_prompt`: loads the directory, then answers. */
  method GetPrompt(files: seq<File>, name: string, version: Version) returns (r: Answer)
    requires forall i, j :: 0 <= i < j < |files| ==> files[i].path != files[j].path
    requires forall i :: 0 <= i < |files| ==> IsMarkdown(files[i].path)
    ensures Answers(files, name, version, r, Decode)
    ensures r.BadDirectory? <==> !AllDecode(files, Decode)
  {
    var loaded := LoadAll(files);
    if loaded.BadFile? { return BadDirectory(loaded.path); }
    forall key | key in loaded.prompts
      ensures IsNumeral(key.1)
    {
      LoadedKeysAreDecoded(files, loaded.prompts, key);
    }
    var key := Choose(loaded.prompts, name, version);
    ChosenAnswers(files, loaded.prompts, name, version, key, Decode);
    if key.None? { return NotFound; }
    return Answered(Prompt(key.value.0, key.value.1, loaded.prompts[key.value]));
  }
}
