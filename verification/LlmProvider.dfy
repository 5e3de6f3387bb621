/** The provider-agnostic base class: retry only before the first delta, exponential backoff. */
module LlmProvider {
  import opened Wrappers
  import opened Unicode
  import opened LlmErrors

  datatype Usage = Usage(inputTokens: nat, outputTokens: nat, cachedInputTokens: nat)

  const NO_USAGE := Usage(0, 0, 0)

  datatype Completion = Completion(
    text: PyString,
    provider: string,
    model: string,
    usage: Usage,
    finishReason: PyString,
    retries: nat)

  datatype StreamEvent = TextDelta(text: PyString) | StreamFinished(completion: Completion)

  /** Everything one generator yields, and the error that ended it, if one did. */
  datatype Attempt = Attempt(events: seq<StreamEvent>, failure: Option<LlmError>)

  function Deltas(events: seq<StreamEvent>): seq<PyString> {
    if events == [] then []
    else
      var init := Deltas(events[..|events| - 1]);
      if events[|events| - 1].TextDelta? then init + [events[|events| - 1].text] else init
  }

  predicate OnlyDeltas(events: seq<StreamEvent>) {
    forall i :: 0 <= i < |events| ==> events[i].TextDelta?
  }

  /** Zero or more deltas, then either exactly one Finished carrying their join, or an error. */
  predicate MeetsContract(a: Attempt) {
    if a.failure.Some? then OnlyDeltas(a.events)
    else
      && |a.events| > 0
      && OnlyDeltas(a.events[..|a.events| - 1])
      && a.events[|a.events| - 1].StreamFinished?
      && a.events[|a.events| - 1].completion.text == Join(Deltas(a.events[..|a.events| - 1]))
  }

  predicate HasDelta(events: seq<StreamEvent>) {
    exists i :: 0 <= i < |events| && events[i].TextDelta?
  }

  /** A failure nobody has seen anything of and that may go away. */
  predicate Transient(a: Attempt) {
    a.failure.Some? && !HasDelta(a.events) && IsRetryable(a.failure.value)
  }

  /** The attempt that decides a run: the first that is not transient, or the last allowed. */
  ghost predicate Decides(attempts: nat -> Attempt, maxRetries: nat, k: nat) {
    && k <= maxRetries
    && (forall j: nat :: j < k ==> Transient(attempts(j)))
    && (k == maxRetries || !Transient(attempts(k)))
  }

  lemma DecidingAttemptIsUnique(attempts: nat -> Attempt, maxRetries: nat, k: nat, k': nat)
    requires Decides(attempts, maxRetries, k) && Decides(attempts, maxRetries, k')
    ensures k == k'
  {
    assert k < k' ==> Transient(attempts(k));
    assert k' < k ==> Transient(attempts(k'));
  }

  function Power2(n: nat): nat {
    if n == 0 then 1 else 2 * Power2(n - 1)
  }

  lemma {:induction false} Power2Monotone(m: nat, n: nat)
    requires m <= n
    ensures 1 <= Power2(m) <= Power2(n)
    decreases n
  {
    if m < n { Power2Monotone(m, n - 1); }
    else if m > 0 { Power2Monotone(m - 1, m - 1); }
  }

  /** Seconds slept by `k` retries: `base * 2^0 + ... + base * 2^(k-1)`. */
  function Backoff(base: real, k: nat): real {
    base * (Power2(k) - 1) as real
  }

  /** An event of attempt `k` as the base class announces it. */
  function Relabelled(e: StreamEvent, provider: string, model: string, k: nat): StreamEvent {
    match e
    case TextDelta(_) => e
    case StreamFinished(c) =>
      StreamFinished(Completion(c.text, provider, model, c.usage, c.finishReason, k))
  }

  function RelabelledAll(events: seq<StreamEvent>, provider: string, model: string, k: nat): seq<StreamEvent> {
    seq(|events|, i requires 0 <= i < |events| => Relabelled(events[i], provider, model, k))
  }

  /** Everything the first `n` attempts yield, one after the other. */
  function Emitted(attempts: nat -> Attempt, provider: string, model: string, n: nat): seq<StreamEvent> {
    if n == 0 then []
    else Emitted(attempts, provider, model, n - 1) + RelabelledAll(attempts(n - 1).events, provider, model, n - 1)
  }

  /** `model or self.default_model`. */
  function Resolved(model: Option<string>, defaultModel: string): string {
    if model.Some? && model.value != "" then model.value else defaultModel
  }

  // --- `complete` ---------------------------------------------------------------------------

  datatype Reply = Answered(text: PyString, usage: Usage, finishReason: PyString) | Raised(error: LlmError)

  /** One call of `_complete`: its reply, and how long it would take. */
  datatype Call = Call(reply: Reply, seconds: real)

  datatype Result = Returned(completion: Completion) | Failure(error: LlmError)

  const TIMED_OUT := LlmError(LLMProviderError, [])

  /** The reply under `asyncio.wait_for`. */
  function Awaited(c: Call, timeout: real): Reply {
    if c.seconds > timeout then Raised(TIMED_OUT) else c.reply
  }

  /** What the caller gets for the reply of call `k`: a completion, labelled here, or the error. */
  function Outcome(r: Reply, provider: string, model: string, k: nat): Result {
    match r
    case Answered(text, usage, finishReason) => Returned(Completion(text, provider, model, usage, finishReason, k))
    case Raised(error) => Failure(error)
  }

  function Elapsed(c: Call, timeout: real): real {
    if c.seconds > timeout then timeout else c.seconds
  }

  /** A call that is worth repeating, in terms of what it does and when. */
  predicate LateOrTransient(c: Call, timeout: real) {
    c.seconds > timeout || (c.reply.Raised? && IsRetryable(c.reply.error))
  }

  predicate Retried(r: Reply) {
    r.Raised? && IsRetryable(r.error)
  }

  /** The call whose reply is final: the first that is not retried, or the last allowed. */
  ghost predicate Settles(work: nat -> Call, timeout: real, maxRetries: nat, k: nat) {
    && k <= maxRetries
    && (forall j: nat :: j < k ==> Retried(Awaited(work(j), timeout)))
    && (k == maxRetries || !Retried(Awaited(work(k), timeout)))
  }

  function TotalElapsed(calls: nat -> Call, timeout: real, n: nat): real {
    if n == 0 then 0.0 else TotalElapsed(calls, timeout, n - 1) + Elapsed(calls(n - 1), timeout)
  }

  // --- the base class -----------------------------------------------------------------------

  class LLMProvider {
    const name: string
    const defaultModel: string
    const timeoutSeconds: real
    const maxRetries: nat
    const retryBaseDelay: real

    constructor (name: string, defaultModel: string, timeoutSeconds: real, maxRetries: nat, retryBaseDelay: real)
      ensures this.name == name && this.defaultModel == defaultModel && this.timeoutSeconds == timeoutSeconds
      ensures this.maxRetries == maxRetries && this.retryBaseDelay == retryBaseDelay
    {
      this.name, this.defaultModel, this.timeoutSeconds := name, defaultModel, timeoutSeconds;
      this.maxRetries, this.retryBaseDelay := maxRetries, retryBaseDelay;
    }

    /** The wait of `_sleep_before_retry`. */
    function Delay(attempt: nat): real {
      retryBaseDelay * Power2(attempt) as real
    }

    /** `stream`: `attempts(k)` is what the k-th call of `_stream` does. */
    method Stream(model: Option<string>, attempts: nat -> Attempt)
      returns (out: seq<StreamEvent>, raised: Option<LlmError>, calls: nat, slept: real)
      ensures calls > 0 && Decides(attempts, maxRetries, calls - 1)
      // At most one call more than there are retries; before the last, each failed transiently and unheard.
      ensures calls <= maxRetries + 1
      ensures forall j: nat :: j < calls - 1 ==>
        attempts(j).failure.Some? && IsRetryable(attempts(j).failure.value) && !HasDelta(attempts(j).events)
      ensures out == Emitted(attempts, name, Resolved(model, defaultModel), calls)
      ensures Resolved(model, defaultModel) == if model == None || model == Some("") then defaultModel else model.value
      ensures raised == attempts(calls - 1).failure
      ensures slept == Backoff(retryBaseDelay, calls - 1)
    {
      var resolved := Resolved(model, defaultModel);
      out, raised, calls, slept := [], None, 0, 0.0;
      while true
        invariant calls <= maxRetries
        invariant forall j: nat :: j < calls ==> Transient(attempts(j))
        invariant out == Emitted(attempts, name, resolved, calls)
        invariant slept == Backoff(retryBaseDelay, calls)
        decreases maxRetries - calls
      {
        var attempt := calls;
        calls := calls + 1;
        ghost var before := out;
        var emitted := false;
        var events := attempts(attempt).events;
        for i := 0 to |events|
          invariant emitted == HasDelta(events[..i])
          invariant out == before + RelabelledAll(events[..i], name, resolved, attempt)
        {
          assert events[..i + 1] == events[..i] + [events[i]];
          if events[i].TextDelta? {
            emitted := true;
            assert events[..i + 1][i].TextDelta?;
            out := out + [events[i]];
          } else {
            out := out + [Relabelled(events[i], name, resolved, attempt)];
          }
        }
        assert events[..|events|] == events;
        var failure := attempts(attempt).failure;
        if failure.None? { return; }
        if emitted || attempt >= maxRetries || !IsRetryable(failure.value) {
          raised := failure;
          return;
        }
        slept := slept + Delay(attempt);
      }
    }

    /** `complete`: `work(k)` is what the k-th call of `_complete` does. A completion reports as its
        latency the whole time since the start, the waits included. */
    method Complete(model: Option<string>, work: nat -> Call) returns (result: Result, retries: nat, seconds: real)
      ensures Settles(work, timeoutSeconds, maxRetries, retries)
      // Every call before it was late or failed transiently, and it was neither or was the last allowed.
      ensures retries <= maxRetries
      ensures forall j: nat :: j < retries ==> LateOrTransient(work(j), timeoutSeconds)
      ensures retries < maxRetries ==> !LateOrTransient(work(retries), timeoutSeconds)
      // A reply in time is returned under the provider's name and the model asked for ...
      ensures result.Returned? <==> work(retries).seconds <= timeoutSeconds && work(retries).reply.Answered?
      ensures result.Returned? ==>
        var reply, c := work(retries).reply, result.completion;
        && c.text == reply.text && c.usage == reply.usage && c.finishReason == reply.finishReason
        && c.provider == name && c.retries == retries
        && c.model == if model == None || model == Some("") then defaultModel else model.value
      // ... and a late one is the timeout, whatever it says.
      ensures result.Failure? ==>
        result.error == if work(retries).seconds > timeoutSeconds then TIMED_OUT else work(retries).reply.error
      ensures result == Outcome(Awaited(work(retries), timeoutSeconds), name, Resolved(model, defaultModel), retries)
      ensures seconds == TotalElapsed(work, timeoutSeconds, retries + 1) + Backoff(retryBaseDelay, retries)
    {
      var resolved := Resolved(model, defaultModel);
      retries, seconds := 0, 0.0;
      while true
        invariant retries <= maxRetries
        invariant forall j: nat :: j < retries ==> Retried(Awaited(work(j), timeoutSeconds))
        invariant seconds == TotalElapsed(work, timeoutSeconds, retries) + Backoff(retryBaseDelay, retries)
        decreases maxRetries - retries
      {
        var reply := Awaited(work(retries), timeoutSeconds);
        seconds := seconds + Elapsed(work(retries), timeoutSeconds);
        result := Outcome(reply, name, resolved, retries);
        if reply.Answered? { return; }
        if retries >= maxRetries || !IsRetryable(reply.error) { return; }
        seconds := seconds + Delay(retries);
        retries := retries + 1;
      }
    }
  }

  // --- what the contract of an attempt buys -------------------------------------------------

  lemma FirstIsDelta(events: seq<StreamEvent>)
    requires OnlyDeltas(events) && events != []
    ensures HasDelta(events)
  {
    assert events[0].TextDelta?;
  }

  lemma {:induction false} TransientAttemptsAreSilent(attempts: nat -> Attempt, provider: string, model: string, n: nat)
    requires forall j: nat :: j < n ==> MeetsContract(attempts(j)) && Transient(attempts(j))
    ensures Emitted(attempts, provider, model, n) == []
  {
    if n > 0 {
      TransientAttemptsAreSilent(attempts, provider, model, n - 1);
      if attempts(n - 1).events != [] { FirstIsDelta(attempts(n - 1).events); }
    }
  }

  lemma {:induction false} RelabellingKeepsDeltas(events: seq<StreamEvent>, provider: string, model: string, k: nat)
    ensures Deltas(RelabelledAll(events, provider, model, k)) == Deltas(events)
  {
    if events != [] {
      var init := events[..|events| - 1];
      RelabellingKeepsDeltas(init, provider, model, k);
      assert RelabelledAll(events, provider, model, k)[..|events| - 1] == RelabelledAll(init, provider, model, k);
    }
  }

  lemma OnlyDecidingIsHeard(attempts: nat -> Attempt, provider: string, model: string, maxRetries: nat, k: nat)
    requires forall j: nat :: j <= k ==> MeetsContract(attempts(j))
    requires Decides(attempts, maxRetries, k)
    ensures Emitted(attempts, provider, model, k + 1) == RelabelledAll(attempts(k).events, provider, model, k)
  {
    TransientAttemptsAreSilent(attempts, provider, model, k);
    assert [] + RelabelledAll(attempts(k).events, provider, model, k) ==
        RelabelledAll(attempts(k).events, provider, model, k);
  }

  lemma RelabellingKeepsContract(a: Attempt, provider: string, model: string, k: nat)
    requires MeetsContract(a)
    ensures var out := RelabelledAll(a.events, provider, model, k);
      && MeetsContract(Attempt(out, a.failure)) && Deltas(out) == Deltas(a.events)
      && (a.failure.None? ==>
            var own := a.events[|a.events| - 1].completion;
            && |out| == |a.events|
            && out[|out| - 1] == StreamFinished(own.(provider := provider, model := model, retries := k)))
  {
    var out := RelabelledAll(a.events, provider, model, k);
    RelabellingKeepsDeltas(a.events, provider, model, k);
    if a.failure.None? {
      RelabellingKeepsDeltas(a.events[..|a.events| - 1], provider, model, k);
      assert out[..|out| - 1] == RelabelledAll(a.events[..|a.events| - 1], provider, model, k);
    }
  }

  /** The streaming contract. When every attempt meets its own, only the deciding attempt is heard:
      the run meets the contract too, ends in one Finished or in that attempt's error, and a Finished
      carries the text, usage and finish reason of that attempt's own Finished, the provider's name,
      the model asked for, and as retries the number of attempts that failed before it. */
  lemma StreamMeetsContract(attempts: nat -> Attempt, provider: string, model: string, maxRetries: nat, k: nat)
    requires forall j: nat :: j <= k ==> MeetsContract(attempts(j))
    requires Decides(attempts, maxRetries, k)
    ensures var out := Emitted(attempts, provider, model, k + 1);
      && out == RelabelledAll(attempts(k).events, provider, model, k)
      && MeetsContract(Attempt(out, attempts(k).failure))
      && Deltas(out) == Deltas(attempts(k).events)
      && (attempts(k).failure.None? ==>
            var own := attempts(k).events[|attempts(k).events| - 1].completion;
            && |out| == |attempts(k).events|
            && out[|out| - 1] == StreamFinished(Completion(own.text, provider, model, own.usage, own.finishReason, k)))
      && (attempts(k).failure.Some? && k < maxRetries ==> out != [] || !IsRetryable(attempts(k).failure.value))
  {
    OnlyDecidingIsHeard(attempts, provider, model, maxRetries, k);
    RelabellingKeepsContract(attempts(k), provider, model, k);
    if attempts(k).failure.Some? && HasDelta(attempts(k).events) { assert attempts(k).events != []; }
  }

  /** The first wait is the base delay, and each further one twice the last. */
  lemma WaitsDouble(base: real, k: nat)
    ensures Backoff(base, 0) == 0.0 && Backoff(base, 1) == base
    ensures Backoff(base, k + 2) - Backoff(base, k + 1) == 2.0 * (Backoff(base, k + 1) - Backoff(base, k))
  {
    var p := Power2(k) as real;
    assert (Power2(k) - 1) as real == p - 1.0 && (Power2(k + 1) - 1) as real == 2.0 * p - 1.0;
    assert (Power2(k + 2) - 1) as real == 4.0 * p - 1.0;
    assert Power2(1) == 2;
    WaitBetween(base, p - 1.0, 2.0 * p - 1.0);
    WaitBetween(base, 2.0 * p - 1.0, 4.0 * p - 1.0);
    WaitBetween(base, p, 2.0 * p);
  }

  lemma WaitBetween(base: real, a: real, b: real)
    ensures base * b - base * a == base * (b - a)
    ensures base * (2.0 * a) == 2.0 * (base * a)
  {
  }

  /** Calls in time take their own time, late ones the timeout, and nothing else is counted. */
  lemma {:induction false} ElapsedIsSum(work: nat -> Call, timeout: real, times: seq<real>)
    requires forall i :: 0 <= i < |times| ==>
      times[i] == if work(i).seconds > timeout then timeout else work(i).seconds
    ensures TotalElapsed(work, timeout, |times|) == Sum(times)
  {
    if times != [] { ElapsedIsSum(work, timeout, times[..|times| - 1]); }
  }

  function Sum(xs: seq<real>): real {
    if xs == [] then 0.0 else Sum(xs[..|xs| - 1]) + xs[|xs| - 1]
  }

  lemma {:induction false} ElapsedBound(work: nat -> Call, timeout: real, n: nat)
    ensures TotalElapsed(work, timeout, n) <= n as real * timeout
  {
    if n > 0 { ElapsedBound(work, timeout, n - 1); }
  }

  lemma BackoffMonotone(base: real, m: nat, n: nat)
    requires base >= 0.0 && m <= n
    ensures Backoff(base, m) <= Backoff(base, n)
  {
    Power2Monotone(m, n);
    MulMonotone(base, (Power2(m) - 1) as real, (Power2(n) - 1) as real);
  }

  lemma MulMonotone(a: real, x: real, y: real)
    requires a >= 0.0 && x <= y
    ensures a * x <= a * y
  {
  }

  /** However the provider behaves, a `complete` call is over within
      `(maxRetries + 1) * timeout + base * (2^maxRetries - 1)` seconds. */
  lemma CompleteTimeBound(work: nat -> Call, timeout: real, base: real, maxRetries: nat, k: nat)
    requires base >= 0.0 && timeout >= 0.0
    requires Settles(work, timeout, maxRetries, k)
    ensures TotalElapsed(work, timeout, k + 1) + Backoff(base, k)
         <= (maxRetries + 1) as real * timeout + Backoff(base, maxRetries)
  {
    ElapsedBound(work, timeout, k + 1);
    BackoffMonotone(base, k, maxRetries);
    MulMonotone(timeout, (k + 1) as real, (maxRetries + 1) as real);
  }
}
