/** Model prices and the cost of a call, in exact decimal arithmetic. */
module Pricing {
  import opened Wrappers
  import opened LlmProvider
  import Decimals
  import ProviderLoops

  /** Prices in thousandths of a dollar per million tokens, so that tokens times price is exact in
      billionths of a dollar. */
  datatype ModelPricing = ModelPricing(input: nat, output: nat, cached: Option<nat>)

  const PRICING: map<(string, string), ModelPricing> := map[
    ("openai", "gpt-4o-mini") := ModelPricing(150, 600, Some(75)),
    ("openai", "gpt-4o") := ModelPricing(2500, 10000, Some(1250)),
    ("anthropic", "claude-haiku-4-5-20251001") := ModelPricing(1000, 5000, Some(100)),
    ("ollama", "*") := ModelPricing(0, 0, Some(0)),
    ("fake", "*") := ModelPricing(0, 0, Some(0))
  ]

  function GetPricing(provider: string, model: string): Option<ModelPricing> {
    if (provider, model) in PRICING then Some(PRICING[(provider, model)])
    else if (provider, "*") in PRICING then Some(PRICING[(provider, "*")])
    else None
  }

  function BillableInput(u: Usage): nat {
    if u.inputTokens > u.cachedInputTokens then u.inputTokens - u.cachedInputTokens else 0
  }

  function CachedRate(p: ModelPricing): nat {
    if p.cached.Some? then p.cached.value else 0
  }

  /** The exact price of a call in billionths of a dollar. */
  function ExactNanos(p: ModelPricing, u: Usage): nat {
    BillableInput(u) * p.input + u.outputTokens * p.output + u.cachedInputTokens * CachedRate(p)
  }

  /** `quantize` to the next decimal unit of a thousand, ties to even. */
  function RoundHalfEven(n: nat): nat {
    var q, r := n / 1000, n % 1000;
    if r < 500 || (r == 500 && q % 2 == 0) then q else q + 1
  }

  /** Cost in millionths of a dollar, None when the model has no recorded price. */
  function EstimateCost(provider: string, model: string, u: Usage): Option<nat> {
    match GetPricing(provider, model)
    case None => None
    case Some(p) => Some(RoundHalfEven(ExactNanos(p, u)))
  }

  function Abs(x: int): nat {
    if x < 0 then -x else x
  }

  /** No multiple of a millionth is closer to the exact price than the recorded one, and of two
      equally close ones the even is recorded. */
  lemma RoundingIsNearest(n: nat, m: nat)
    ensures Abs(1000 * RoundHalfEven(n) - n) <= 500
    ensures m != RoundHalfEven(n) ==>
      Abs(1000 * RoundHalfEven(n) - n) < Abs(1000 * m - n)
      || (Abs(1000 * RoundHalfEven(n) - n) == Abs(1000 * m - n) && RoundHalfEven(n) % 2 == 0)
  {
    assert n == 1000 * (n / 1000) + n % 1000;
    if m < RoundHalfEven(n) { assert m <= RoundHalfEven(n) - 1; }
  }

  lemma RoundingIsMonotone(m: nat, n: nat)
    requires m <= n
    ensures RoundHalfEven(m) <= RoundHalfEven(n)
  {
    assert m == 1000 * (m / 1000) + m % 1000 && n == 1000 * (n / 1000) + n % 1000;
  }

  lemma MulMonotone(a: nat, b: nat, c: nat)
    requires a <= b
    ensures a * c <= b * c
  {
  }

  /** More input with the cached part fixed, or more output, never costs less. */
  lemma CostIsMonotone(p: ModelPricing, u: Usage, v: Usage)
    requires u.inputTokens <= v.inputTokens && u.outputTokens <= v.outputTokens
    requires u.cachedInputTokens == v.cachedInputTokens
    ensures RoundHalfEven(ExactNanos(p, u)) <= RoundHalfEven(ExactNanos(p, v))
  {
    MulMonotone(BillableInput(u), BillableInput(v), p.input);
    MulMonotone(u.outputTokens, v.outputTokens, p.output);
    RoundingIsMonotone(ExactNanos(p, u), ExactNanos(p, v));
  }

  /** One more of the input tokens served from the cache lowers or keeps the exact price of a table
      entry exactly when there is an uncached token left, or cached tokens are free. */
  lemma CachingPaysExactlyWithinInput(key: (string, string), u: Usage)
    requires key in PRICING
    ensures var p := PRICING[key];
      ExactNanos(p, u.(cachedInputTokens := u.cachedInputTokens + 1)) <= ExactNanos(p, u)
      <==> u.cachedInputTokens < u.inputTokens || CachedRate(p) == 0
  {
    var p := PRICING[key];
    assert CachedRate(p) <= p.input;
    var v := u.(cachedInputTokens := u.cachedInputTokens + 1);
    assert v.cachedInputTokens * CachedRate(p) == u.cachedInputTokens * CachedRate(p) + CachedRate(p);
    if u.cachedInputTokens < u.inputTokens {
      assert BillableInput(u) * p.input == BillableInput(v) * p.input + p.input;
    }
  }

  /** Moving input tokens to the cache never raises the recorded cost of any table entry. */
  lemma {:induction false} CachingNeverCostsMore(key: (string, string), u: Usage, cached: nat)
    requires key in PRICING && u.cachedInputTokens <= cached <= u.inputTokens
    ensures ExactNanos(PRICING[key], u.(cachedInputTokens := cached)) <= ExactNanos(PRICING[key], u)
    ensures RoundHalfEven(ExactNanos(PRICING[key], u.(cachedInputTokens := cached)))
         <= RoundHalfEven(ExactNanos(PRICING[key], u))
    decreases cached
  {
    var v := u.(cachedInputTokens := cached);
    if cached > u.cachedInputTokens {
      CachingNeverCostsMore(key, u, cached - 1);
      CachingPaysExactlyWithinInput(key, u.(cachedInputTokens := cached - 1));
      assert u.(cachedInputTokens := cached - 1).(cachedInputTokens := cached - 1 + 1) == v;
    } else {
      assert v == u;
    }
    RoundingIsMonotone(ExactNanos(PRICING[key], v), ExactNanos(PRICING[key], u));
  }

  /** Local inference and the test double cost zero, which is not the same as having no price. */
  lemma LocalInferenceIsFree(model: string, u: Usage)
    ensures EstimateCost("ollama", model, u) == Some(0) && EstimateCost("fake", model, u) == Some(0)
  {
    LocalHasOnlyWildcard(model);
  }

  lemma LocalHasOnlyWildcard(model: string)
    ensures GetPricing("ollama", model) == Some(ModelPricing(0, 0, Some(0)))
    ensures GetPricing("fake", model) == Some(ModelPricing(0, 0, Some(0)))
  {
    assert "ollama"[1] == 'l' && "openai"[1] == 'p';
    assert |"fake"| == 4 && |"openai"| == 6 && |"anthropic"| == 9 && |"ollama"| == 6;
  }

  /** Folding Anthropic's cache reads into the input count bills every token once, at its own rate. */
  lemma AnthropicFoldingBillsOnce(p: ModelPricing, raw: ProviderLoops.AnthropicUsage)
    ensures ExactNanos(p, ProviderLoops.AnthropicUsageFrom(Some(raw)))
      == raw.inputTokens * p.input + raw.cacheReadInputTokens * CachedRate(p) + raw.outputTokens * p.output
  {
    assert BillableInput(ProviderLoops.AnthropicUsageFrom(Some(raw))) == raw.inputTokens;
  }

  /** Six fractional digits. */
  function Fraction(micros: nat, digits: nat): (s: string)
    ensures |s| == digits && Decimals.AllDigits(s)
  {
    if digits == 0 then "" else Fraction(micros / 10, digits - 1) + [Decimals.Digit(micros % 10)]
  }

  /** `str(cost)` of a quantized cost. */
  function CostText(micros: nat): string {
    Decimals.Print(micros / 1_000_000) + "." + Fraction(micros % 1_000_000, 6)
  }

  lemma {:induction false} FractionValue(micros: nat, digits: nat)
    requires digits <= 6
    ensures micros < Power10(digits) ==> Decimals.Value(Fraction(micros, digits)) == micros
  {
    if digits > 0 {
      FractionValue(micros / 10, digits - 1);
      assert Fraction(micros, digits)[..digits - 1] == Fraction(micros / 10, digits - 1);
    }
  }

  function Power10(n: nat): nat {
    if n == 0 then 1 else 10 * Power10(n - 1)
  }

  /** The printed cost determines the recorded one. */
  lemma CostTextIsFaithful(micros: nat)
    ensures var whole := Decimals.Print(micros / 1_000_000);
      && CostText(micros)[|whole|] == '.'
      && CostText(micros)[..|whole|] == whole
      && Decimals.AllDigits(CostText(micros)[|whole| + 1..])
      && micros == 1_000_000 * Decimals.Value(whole) + Decimals.Value(CostText(micros)[|whole| + 1..])
  {
    var whole := Decimals.Print(micros / 1_000_000);
    assert CostText(micros)[|whole| + 1..] == Fraction(micros % 1_000_000, 6);
    Decimals.ValueOfPrint(micros / 1_000_000);
    assert Power10(6) == 1_000_000 by { assert Power10(3) == 1000; }
    FractionValue(micros % 1_000_000, 6);
  }

  /** A model is priced exactly if the table lists it, or lists its provider for every model; the
      entry of the model itself comes first. An unlisted model has no cost, not a guessed one. */
  lemma PricedExactlyWhenListed(provider: string, model: string, u: Usage)
    ensures EstimateCost(provider, model, u).Some? <==> (provider, model) in PRICING || (provider, "*") in PRICING
    ensures (provider, model) in PRICING ==> GetPricing(provider, model) == Some(PRICING[(provider, model)])
    ensures (provider, model) !in PRICING && (provider, "*") in PRICING ==>
      GetPricing(provider, model) == Some(PRICING[(provider, "*")])
  {
  }

  /** A million input, output or cached tokens cost the listed dollars. */
  lemma MillionCostsListed(p: ModelPricing)
    ensures RoundHalfEven(ExactNanos(p, Usage(1_000_000, 0, 0))) == 1000 * p.input
    ensures RoundHalfEven(ExactNanos(p, Usage(0, 1_000_000, 0))) == 1000 * p.output
    ensures RoundHalfEven(ExactNanos(p, Usage(1_000_000, 0, 1_000_000)))
      == match p.cached case None => 0 case Some(rate) => 1000 * rate
  {
    EveryTokenIsBilled(p, 1_000_000, 0, 0);
    EveryTokenIsBilled(p, 0, 0, 1_000_000);
    EveryTokenIsBilled(p, 0, 1_000_000, 0);
  }

  lemma ListedModels()
    ensures GetPricing("openai", "gpt-4o-mini") == Some(ModelPricing(150, 600, Some(75)))
    ensures GetPricing("openai", "gpt-4o") == Some(ModelPricing(2500, 10000, Some(1250)))
    ensures GetPricing("anthropic", "claude-haiku-4-5-20251001") == Some(ModelPricing(1000, 5000, Some(100)))
  {
    assert |"gpt-4o-mini"| == 11 && |"gpt-4o"| == 6 && |"claude-haiku-4-5-20251001"| == 25 && |"*"| == 1;
  }

  /** What a call costs exactly: each uncached input token, cached token and output token at its rate;
      tokens cached beyond the input are billed as cached and no input is. */
  lemma EveryTokenIsBilled(p: ModelPricing, uncached: nat, cached: nat, output: nat)
    ensures var rate := match p.cached case None => 0 case Some(c) => c;
      && ExactNanos(p, Usage(uncached + cached, output, cached)) == uncached * p.input + cached * rate + output * p.output
      && ExactNanos(p, Usage(uncached, output, uncached + cached)) == (uncached + cached) * rate + output * p.output
  {
    assert BillableInput(Usage(uncached + cached, output, cached)) == uncached;
    assert BillableInput(Usage(uncached, output, uncached + cached)) == 0;
  }
}
