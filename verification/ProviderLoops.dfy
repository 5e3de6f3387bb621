/** The `_stream` loops of the providers, each proved to meet the contract of an attempt.

    Chunks are what the vendor library yields, and `failure` the translated exception that ends
    them early, if one does. */
module ProviderLoops {
  import opened Wrappers
  import opened Unicode
  import opened LlmErrors
  import opened LlmProvider

  /** The attempt that yields `texts` and then finishes. */
  function FinishedAttempt(texts: seq<PyString>, c: Completion): Attempt {
    Attempt(AsDeltas(texts) + [StreamFinished(c)], None)
  }

  function AsDeltas(texts: seq<PyString>): (r: seq<StreamEvent>)
    ensures |r| == |texts| && forall i :: 0 <= i < |r| ==> r[i] == TextDelta(texts[i])
  {
    seq(|texts|, i requires 0 <= i < |texts| => TextDelta(texts[i]))
  }

  /** No delta is the empty string. */
  predicate NonEmptyTexts(texts: seq<PyString>) {
    forall i :: 0 <= i < |texts| ==> texts[i] != []
  }

  lemma {:induction false} DeltasOfTexts(texts: seq<PyString>)
    ensures Deltas(AsDeltas(texts)) == texts
  {
    if texts != [] {
      DeltasOfTexts(texts[..|texts| - 1]);
      assert AsDeltas(texts)[..|texts| - 1] == AsDeltas(texts[..|texts| - 1]);
    }
  }

  /** The contract, as the loops establish it. */
  lemma LoopsMeetContract(texts: seq<PyString>, failure: Option<LlmError>, c: Completion)
    ensures MeetsContract(FinishedAttempt(texts, c)) <==> c.text == Join(texts)
    ensures failure.Some? ==> MeetsContract(Attempt(AsDeltas(texts), failure))
  {
    DeltasOfTexts(texts);
    var events := FinishedAttempt(texts, c).events;
    assert events[..|events| - 1] == AsDeltas(texts);
  }

  // --- OpenAI -------------------------------------------------------------------------------

  datatype OpenAiUsage = OpenAiUsage(promptTokens: nat, completionTokens: nat, cachedTokens: Option<nat>)

  datatype OpenAiChoice = OpenAiChoice(finishReason: Option<PyString>, content: Option<PyString>)

  /** `choice` is the first choice of the chunk, absent when the list is empty. */
  datatype OpenAiChunk = OpenAiChunk(usage: Option<OpenAiUsage>, choice: Option<OpenAiChoice>)

  function OpenAiUsageFrom(raw: Option<OpenAiUsage>): Usage {
    if raw.None? then NO_USAGE
    else Usage(raw.value.promptTokens, raw.value.completionTokens,
               if raw.value.cachedTokens.Some? then raw.value.cachedTokens.value else 0)
  }

  /** The non-empty contents of the chunks, in order. */
  function OpenAiTexts(chunks: seq<OpenAiChunk>): seq<PyString> {
    if chunks == [] then []
    else
      var init, choice := OpenAiTexts(chunks[..|chunks| - 1]), chunks[|chunks| - 1].choice;
      if choice.Some? && choice.value.content.Some? && choice.value.content.value != [] then
        init + [choice.value.content.value]
      else init
  }

  /** The usage of the last chunk that carries one. */
  function OpenAiLastUsage(chunks: seq<OpenAiChunk>): Usage {
    if chunks == [] then NO_USAGE
    else if chunks[|chunks| - 1].usage.Some? then OpenAiUsageFrom(chunks[|chunks| - 1].usage)
    else OpenAiLastUsage(chunks[..|chunks| - 1])
  }

  function OpenAiLastReason(chunks: seq<OpenAiChunk>): PyString {
    if chunks == [] then Py("stop")
    else
      var choice := chunks[|chunks| - 1].choice;
      if choice.Some? && choice.value.finishReason.Some? && choice.value.finishReason.value != [] then
        choice.value.finishReason.value
      else OpenAiLastReason(chunks[..|chunks| - 1])
  }

  method OpenAiStream(chunks: seq<OpenAiChunk>, failure: Option<LlmError>, model: string) returns (a: Attempt)
    ensures MeetsContract(a) && a.failure == failure
    ensures Deltas(a.events) == OpenAiTexts(chunks)
    ensures NonEmptyTexts(Deltas(a.events))
    ensures failure.None? ==>
      a.events[|a.events| - 1].completion
        == Completion(Join(OpenAiTexts(chunks)), "openai", model, OpenAiLastUsage(chunks), OpenAiLastReason(chunks), 0)
  {
    var collected: seq<PyString> := [];
    var yielded: seq<StreamEvent> := [];
    var usage := NO_USAGE;
    var finishReason := Py("stop");
    for i := 0 to |chunks|
      invariant yielded == AsDeltas(collected) && NonEmptyTexts(collected)
      invariant collected == OpenAiTexts(chunks[..i])
      invariant usage == OpenAiLastUsage(chunks[..i])
      invariant finishReason == OpenAiLastReason(chunks[..i])
    {
      var chunk := chunks[i];
      assert chunks[..i + 1][..i] == chunks[..i];
      if chunk.usage.Some? { usage := OpenAiUsageFrom(chunk.usage); }
      if chunk.choice.None? { continue; }
      var choice := chunk.choice.value;
      if choice.finishReason.Some? && choice.finishReason.value != [] { finishReason := choice.finishReason.value; }
      if choice.content.Some? && choice.content.value != [] {
        collected := collected + [choice.content.value];
        yielded := yielded + [TextDelta(choice.content.value)];
      }
    }
    assert chunks[..|chunks|] == chunks;
    a := Ended(collected, yielded, failure,
               Completion(Join(collected), "openai", model, usage, finishReason, 0));
  }

  /** The end of every loop: the exception, or the one Finished event. */
  method Ended(collected: seq<PyString>, yielded: seq<StreamEvent>, failure: Option<LlmError>, c: Completion)
    returns (a: Attempt)
    requires yielded == AsDeltas(collected) && c.text == Join(collected)
    ensures MeetsContract(a) && a.failure == failure && Deltas(a.events) == collected
    ensures failure.None? ==> a.events[|a.events| - 1] == StreamFinished(c)
  {
    LoopsMeetContract(collected, failure, c);
    DeltasOfTexts(collected);
    if failure.Some? {
      a := Attempt(yielded, failure);
    } else {
      a := Attempt(yielded + [StreamFinished(c)], None);
      assert a.events[..|a.events| - 1] == yielded;
    }
  }

  // --- Ollama -------------------------------------------------------------------------------

  /** A line of the response: blank or not JSON, or an object with these fields. */
  datatype OllamaLine =
    | Ignored
    | Event(content: PyString, done: bool, promptEvalCount: nat, evalCount: nat, doneReason: PyString)

  function OllamaTexts(lines: seq<OllamaLine>): seq<PyString> {
    if lines == [] then []
    else
      var init, line := OllamaTexts(lines[..|lines| - 1]), lines[|lines| - 1];
      if line.Event? && line.content != [] then init + [line.content] else init
  }

  function OllamaUsage(lines: seq<OllamaLine>): Usage {
    if lines == [] then NO_USAGE
    else
      var line := lines[|lines| - 1];
      if line.Event? && line.done then Usage(line.promptEvalCount, line.evalCount, 0)
      else OllamaUsage(lines[..|lines| - 1])
  }

  function OllamaReason(lines: seq<OllamaLine>): PyString {
    if lines == [] then Py("stop")
    else
      var line := lines[|lines| - 1];
      if line.Event? && line.done then if line.doneReason != [] then line.doneReason else Py("stop")
      else OllamaReason(lines[..|lines| - 1])
  }

  method OllamaStream(lines: seq<OllamaLine>, failure: Option<LlmError>, model: string) returns (a: Attempt)
    ensures MeetsContract(a) && a.failure == failure
    ensures Deltas(a.events) == OllamaTexts(lines)
    ensures NonEmptyTexts(Deltas(a.events))
    ensures failure.None? ==>
      a.events[|a.events| - 1].completion
        == Completion(Join(OllamaTexts(lines)), "ollama", model, OllamaUsage(lines), OllamaReason(lines), 0)
  {
    var collected: seq<PyString> := [];
    var yielded: seq<StreamEvent> := [];
    var usage := NO_USAGE;
    var finishReason := Py("stop");
    for i := 0 to |lines|
      invariant yielded == AsDeltas(collected) && NonEmptyTexts(collected)
      invariant collected == OllamaTexts(lines[..i])
      invariant usage == OllamaUsage(lines[..i]) && finishReason == OllamaReason(lines[..i])
    {
      var line := lines[i];
      assert lines[..i + 1][..i] == lines[..i];
      if line.Ignored? { continue; }
      if line.content != [] {
        collected := collected + [line.content];
        yielded := yielded + [TextDelta(line.content)];
      }
      if line.done {
        usage := Usage(line.promptEvalCount, line.evalCount, 0);
        finishReason := if line.doneReason != [] then line.doneReason else Py("stop");
      }
    }
    assert lines[..|lines|] == lines;
    a := Ended(collected, yielded, failure,
               Completion(Join(collected), "ollama", model, usage, finishReason, 0));
  }

  // --- Anthropic ----------------------------------------------------------------------------

  datatype AnthropicUsage = AnthropicUsage(inputTokens: nat, outputTokens: nat, cacheReadInputTokens: nat)

  /** Cache reads are reported outside `input_tokens`, so they are added to it. */
  function AnthropicUsageFrom(raw: Option<AnthropicUsage>): Usage {
    if raw.None? then NO_USAGE
    else Usage(raw.value.inputTokens + raw.value.cacheReadInputTokens, raw.value.outputTokens,
        raw.value.cacheReadInputTokens)
  }

  /** Unlike the other loops this one yields every delta, the empty string included. */
  method AnthropicStream(deltas: seq<PyString>, failure: Option<LlmError>, model: string,
                         usage: Option<AnthropicUsage>, stopReason: PyString) returns (a: Attempt)
    ensures MeetsContract(a) && a.failure == failure
    ensures Deltas(a.events) == deltas
    ensures failure.None? ==>
      a.events[|a.events| - 1].completion
        == Completion(Join(deltas), "anthropic", model, AnthropicUsageFrom(usage),
                      if stopReason == [] then Py("end_turn") else stopReason, 0)
  {
    var collected: seq<PyString> := [];
    var yielded: seq<StreamEvent> := [];
    for i := 0 to |deltas|
      invariant yielded == AsDeltas(collected)
      invariant collected == deltas[..i]
    {
      collected := collected + [deltas[i]];
      yielded := yielded + [TextDelta(deltas[i])];
    }
    a := Ended(collected, yielded, failure,
               Completion(Join(collected), "anthropic", model, AnthropicUsageFrom(usage),
                          if stopReason != [] then stopReason else Py("end_turn"), 0));
  }

  // --- the scripted test provider -----------------------------------------------------------

  /** `for start in range(0, len(text), size)`: a negative size makes the range empty, and zero raises
      ValueError. */
  method ChunkLoop(text: PyString, size: int) returns (raised: bool, slices: seq<PyString>)
    ensures raised <==> size == 0
    ensures size > 0 ==> Join(slices) == text
    ensures size <= 0 ==> slices == []
    ensures forall i :: 0 <= i < |slices| ==> 0 < |slices[i]| <= size
  {
    slices, raised := [], size == 0;
    var start := 0;
    while size > 0 && start < |text|
      invariant 0 <= start
      invariant forall i :: 0 <= i < |slices| ==> 0 < |slices[i]| <= size
      invariant Join(slices) == text[..if start < |text| then start else |text|]
      invariant size <= 0 ==> slices == [] && start == 0
      decreases |text| - start
    {
      var end := if start + size < |text| then start + size else |text|;
      JoinLast(slices, text[start..end]);
      assert text[..end] == text[..start] + text[start..end];
      slices := slices + [text[start..end]];
      start := start + size;
    }
    assert size > 0 ==> text[..|text|] == text;
  }

  class FakeProvider {
    var scripted: seq<PyString>
    var scriptIndex: nat
    var failTimes: nat
    var failure: LlmError
    var calls: nat
    const chunkSize: int

    constructor (scripted: seq<PyString>, failTimes: nat, failure: LlmError, chunkSize: int)
      ensures this.scripted == scripted && scriptIndex == 0 && this.failTimes == failTimes
      ensures this.failure == failure && calls == 0 && this.chunkSize == chunkSize
    {
      this.scripted, scriptIndex, this.failTimes := scripted, 0, failTimes;
      this.failure, calls, this.chunkSize := failure, 0, chunkSize;
    }

    /** The next scripted text; the last one repeats once the queue is spent. `fallback` is the
        text derived from the last user message. */
    method NextText(fallback: PyString) returns (text: PyString)
      modifies this`scriptIndex
      ensures scripted == [] ==> text == fallback && scriptIndex == old(scriptIndex)
      ensures scripted != [] ==> scriptIndex == old(scriptIndex) + 1
      ensures scripted != [] ==> text == scripted[if old(scriptIndex) < |scripted| then old(scriptIndex)
          else |scripted| - 1]
    {
      if scripted != [] {
        text := scripted[if scriptIndex < |scripted| - 1 then scriptIndex else |scripted| - 1];
        scriptIndex := scriptIndex + 1;
      } else {
        text := fallback;
      }
    }

    /** One call of `_stream`. Its contract holds exactly when the text is cut with a positive chunk
        size or there is no text to cut: with a negative size the loop over `range(0, len(text), size)`
        yields nothing while Finished reports the whole text. A size of zero raises ValueError, which
        no retry and no error path of a turn catches: `crashed`. */
    method Stream(fallback: PyString, usage: Usage, model: string) returns (a: Attempt, crashed: bool)
      modifies this
      ensures crashed <==> old(failTimes) == 0 && chunkSize == 0
      ensures scripted == old(scripted) && failure == old(failure) && calls == old(calls) + 1
      ensures old(failTimes) > 0 ==>
        a == Attempt([], Some(failure)) && failTimes == old(failTimes) - 1 && scriptIndex == old(scriptIndex)
      ensures crashed ==> a.events == [] && failTimes == 0
      ensures old(failTimes) == 0 && !crashed ==>
        && failTimes == 0 && a.failure.None? && |a.events| > 0
        && NonEmptyTexts(Deltas(a.events))
        && a.events[|a.events| - 1].StreamFinished?
        && var text := a.events[|a.events| - 1].completion.text;
          && a.events[|a.events| - 1].completion == Completion(text, "fake", model, usage, Py("stop"), 0)
          && (scripted == [] ==> text == fallback)
          && (scripted != [] ==> text == scripted[if old(scriptIndex) < |scripted| then old(scriptIndex)
              else |scripted| - 1])
          && (MeetsContract(a) <==> chunkSize > 0 || text == [])
    {
      calls := calls + 1;
      if failTimes > 0 {
        failTimes := failTimes - 1;
        return Attempt([], Some(failure)), false;
      }
      var text := NextText(fallback);
      var slices;
      crashed, slices := ChunkLoop(text, chunkSize);
      if crashed { return Attempt([], None), true; }
      var c := Completion(text, "fake", model, usage, Py("stop"), 0);
      a := FinishedAttempt(slices, c);
      LoopsMeetContract(slices, None, c);
      DeltasOfTexts(slices);
      assert a.events[..|a.events| - 1] == AsDeltas(slices);
    }
  }

  /** The attempts of a provider that fails `n` times and then behaves. */
  function FailingFirst(n: nat, e: LlmError, good: Attempt): nat -> Attempt {
    (k: nat) => if k < n then Attempt([], Some(e)) else good
  }

  /** A provider that fails `n` times and then streams is heard after exactly `n` retries when the
      failure is transient and the budget allows; otherwise the run ends in the failure, at once or
      with the budget spent. */
  lemma RecoveryAfterFailures(n: nat, e: LlmError, good: Attempt, maxRetries: nat)
    requires MeetsContract(good) && good.failure.None?
    ensures var k := if !IsRetryable(e) && n > 0 then 0 else if n <= maxRetries then n else maxRetries;
      && Decides(FailingFirst(n, e, good), maxRetries, k)
      && (FailingFirst(n, e, good)(k).failure.None? <==> n == 0 || (IsRetryable(e) && n <= maxRetries))
  {
  }

  // --- what the usage of each provider means ------------------------------------------------

  /** The usage of the last chunk that reports one is kept: prompt tokens as input, completion tokens as
      output, and the cached part of the prompt, none when it is not reported. */
  lemma {:induction false} OpenAiUsageIsLastReported(chunks: seq<OpenAiChunk>, i: nat)
    requires i < |chunks| && chunks[i].usage.Some? && forall j :: i < j < |chunks| ==> chunks[j].usage.None?
    ensures var raw, u := chunks[i].usage.value, OpenAiLastUsage(chunks);
      && u.inputTokens == raw.promptTokens && u.outputTokens == raw.completionTokens
      && (raw.cachedTokens.Some? ==> u.cachedInputTokens == raw.cachedTokens.value)
      && (raw.cachedTokens.None? ==> u.cachedInputTokens == 0)
    decreases |chunks|
  {
    if i < |chunks| - 1 { OpenAiUsageIsLastReported(chunks[..|chunks| - 1], i); }
  }

  lemma {:induction false} OpenAiWithoutUsage(chunks: seq<OpenAiChunk>)
    requires forall j :: 0 <= j < |chunks| ==> chunks[j].usage.None?
    ensures OpenAiLastUsage(chunks) == Usage(0, 0, 0)
  {
    if chunks != [] { OpenAiWithoutUsage(chunks[..|chunks| - 1]); }
  }

  /** The reason of the last choice that gives one is kept, `stop` when none does. */
  lemma {:induction false} OpenAiReasonIsLastGiven(chunks: seq<OpenAiChunk>, i: nat, reason: PyString)
    requires i < |chunks| && GivesReason(chunks[i], reason) && reason != []
    requires forall j, r {:trigger GivesReason(chunks[j], r)} :: i < j < |chunks| && GivesReason(chunks[j], r) ==> r == []
    ensures OpenAiLastReason(chunks) == reason
    decreases |chunks|
  {
    if i < |chunks| - 1 {
      var last := chunks[|chunks| - 1];
      if last.choice.Some? && last.choice.value.finishReason.Some? {
        assert GivesReason(chunks[|chunks| - 1], last.choice.value.finishReason.value);
      }
      OpenAiReasonIsLastGiven(chunks[..|chunks| - 1], i, reason);
    }
  }

  predicate GivesReason(chunk: OpenAiChunk, reason: PyString) {
    chunk.choice.Some? && chunk.choice.value.finishReason == Some(reason)
  }

  lemma {:induction false} OpenAiWithoutReason(chunks: seq<OpenAiChunk>)
    requires forall j :: 0 <= j < |chunks| ==> chunks[j].choice.None? || chunks[j].choice.value.finishReason.None?
    ensures OpenAiLastReason(chunks) == Py("stop")
  {
    if chunks != [] { OpenAiWithoutReason(chunks[..|chunks| - 1]); }
  }

  /** Every character of every content is streamed, in order: skipping empty contents loses nothing. */
  lemma {:induction false} OpenAiLosesNothing(chunks: seq<OpenAiChunk>, contents: seq<PyString>)
    requires |contents| == |chunks|
    requires forall i :: 0 <= i < |chunks| ==>
      contents[i] == match chunks[i].choice
        case None => []
        case Some(choice) => if choice.content.Some? then choice.content.value else []
    ensures Join(OpenAiTexts(chunks)) == Join(contents)
  {
    if chunks != [] {
      var n := |chunks| - 1;
      OpenAiLosesNothing(chunks[..n], contents[..n]);
      JoinLast(contents[..n], contents[n]);
      assert contents == contents[..n] + [contents[n]];
      if contents[n] != [] { JoinLast(OpenAiTexts(chunks[..n]), contents[n]); }
    }
  }

  /** The counters of the last done line are kept: evaluated prompt tokens as input, generated tokens as
      output; nothing is cached. Its reason is kept too, `stop` when it gives none. */
  lemma {:induction false} OllamaUsageIsLastDone(lines: seq<OllamaLine>, i: nat)
    requires i < |lines| && lines[i].Event? && lines[i].done
    requires forall j :: i < j < |lines| ==> lines[j].Ignored? || !lines[j].done
    ensures OllamaUsage(lines) == Usage(lines[i].promptEvalCount, lines[i].evalCount, 0)
    ensures OllamaReason(lines) == if lines[i].doneReason == [] then Py("stop") else lines[i].doneReason
    decreases |lines|
  {
    if i < |lines| - 1 { OllamaUsageIsLastDone(lines[..|lines| - 1], i); }
  }

  lemma {:induction false} OllamaLosesNothing(lines: seq<OllamaLine>, contents: seq<PyString>)
    requires |contents| == |lines|
    requires forall i :: 0 <= i < |lines| ==> contents[i] == if lines[i].Event? then lines[i].content else []
    ensures Join(OllamaTexts(lines)) == Join(contents)
  {
    if lines != [] {
      var n := |lines| - 1;
      OllamaLosesNothing(lines[..n], contents[..n]);
      JoinLast(contents[..n], contents[n]);
      assert contents == contents[..n] + [contents[n]];
      if contents[n] != [] { JoinLast(OllamaTexts(lines[..n]), contents[n]); }
    }
  }

  /** Across providers, input tokens are everything sent, the cached part included. */
  lemma AnthropicInputIsEverythingSent(raw: AnthropicUsage)
    ensures var u := AnthropicUsageFrom(Some(raw));
      && u.inputTokens == raw.inputTokens + raw.cacheReadInputTokens && u.outputTokens == raw.outputTokens
      && u.cachedInputTokens == raw.cacheReadInputTokens && u.cachedInputTokens <= u.inputTokens
  {
  }
}
