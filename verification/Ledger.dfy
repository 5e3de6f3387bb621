/** `LLMCallRepository.summarise`: the aggregate over the recorded calls. */
module Ledger {
  import opened Wrappers
  import opened Conversations
  import opened LlmErrors
  import opened LlmProvider
  import opened ChatUnits
  import Pricing

  datatype UsageSummary = UsageSummary(
    calls: nat,
    failedCalls: nat,
    inputTokens: nat,
    outputTokens: nat,
    totalCost: nat,
    unpricedCalls: nat)
  {
    /** Share of calls that had a known price. */
    function CostCoverage(): real {
      if calls == 0 then 1.0 else (calls - unpricedCalls) as real / calls as real
    }
  }

  function Bit(b: bool): nat { if b then 1 else 0 }

  /** The counts and sums of one SELECT over the rows in the window; SUM skips NULL costs. */
  function Summarise(rows: seq<CallRow>): UsageSummary {
    if rows == [] then UsageSummary(0, 0, 0, 0, 0, 0)
    else
      var s, r := Summarise(rows[..|rows| - 1]), rows[|rows| - 1];
      UsageSummary(
        s.calls + 1,
        s.failedCalls + Bit(!r.succeeded),
        s.inputTokens + r.inputTokens,
        s.outputTokens + r.outputTokens,
        s.totalCost + if r.cost.Some? then r.cost.value else 0,
        s.unpricedCalls + Bit(r.cost.None?))
  }

  function Succeeded(rows: seq<CallRow>): nat {
    if rows == [] then 0 else Succeeded(rows[..|rows| - 1]) + Bit(rows[|rows| - 1].succeeded)
  }

  function UsageOf(r: CallRow): Usage {
    Usage(r.inputTokens, r.outputTokens, r.cachedInputTokens)
  }

  /** Rows as the chat service writes them: a succeeded call has the estimated price, if its model
      has one, and a failed call has none. */
  predicate Written(r: CallRow) {
    if r.succeeded then r.cost == Pricing.EstimateCost(r.provider, r.model, UsageOf(r))
    else r.cost.None? && r.inputTokens == 0 && r.outputTokens == 0
  }

  lemma SucceededIsWritten(c: ConversationId, id: MessageId, k: Completion)
    ensures Written(SucceededCall(c, id, k))
  {
  }

  lemma FailedIsWritten(c: ConversationId, provider: string, model: string, e: LlmError)
    ensures Written(FailedCall(c, provider, model, e))
  {
  }

  /** The summary accounts for every call once: calls are the succeeded and the failed, every failed
      call is also unpriced, and the coverage is a share between none and all, full exactly when no
      call lacks a price. */
  lemma {:induction false} SummaryIsConsistent(rows: seq<CallRow>)
    requires forall i :: 0 <= i < |rows| ==> Written(rows[i])
    ensures var s := Summarise(rows);
      && s.calls == |rows| == Succeeded(rows) + s.failedCalls
      && s.failedCalls <= s.unpricedCalls <= s.calls
      && 0.0 <= s.CostCoverage() <= 1.0
      && (s.CostCoverage() == 1.0 <==> s.unpricedCalls == 0)
  {
    if rows != [] {
      SummaryIsConsistent(rows[..|rows| - 1]);
      var s := Summarise(rows);
      CoverageIsShare(s.calls, s.unpricedCalls);
    }
  }

  lemma CoverageIsShare(calls: nat, unpriced: nat)
    requires calls > 0 && unpriced <= calls
    ensures 0.0 <= (calls - unpriced) as real / calls as real <= 1.0
    ensures (calls - unpriced) as real / calls as real == 1.0 <==> unpriced == 0
  {
    var share := (calls - unpriced) as real / calls as real;
    assert share * calls as real == (calls - unpriced) as real;
  }

  /** The exact price of a call, in billionths of a dollar, if it has one. */
  function ExactPrice(r: CallRow): Option<nat> {
    match Pricing.GetPricing(r.provider, r.model)
    case None => None
    case Some(p) => if r.succeeded then Some(Pricing.ExactNanos(p, UsageOf(r))) else None
  }

  function ExactCost(rows: seq<CallRow>): nat {
    if rows == [] then 0
    else
      var price := ExactPrice(rows[|rows| - 1]);
      ExactCost(rows[..|rows| - 1]) + if price.Some? then price.value else 0
  }

  lemma RecordedPriceIsClose(r: CallRow)
    requires Written(r)
    ensures r.cost.Some? <==> ExactPrice(r).Some?
    ensures r.cost.Some? ==> Pricing.Abs(1000 * r.cost.value - ExactPrice(r).value) <= 500
  {
    var p := Pricing.GetPricing(r.provider, r.model);
    if p.Some? { Pricing.RoundingIsNearest(Pricing.ExactNanos(p.value, UsageOf(r)), 0); }
  }

  /** In any ledger the service writes, failed and unpriced calls included, the reported total is
      within half a millionth of a dollar per priced call of the exact cost. */
  lemma {:induction false} TotalCostIsClose(rows: seq<CallRow>)
    requires forall i :: 0 <= i < |rows| ==> Written(rows[i])
    ensures var s := Summarise(rows);
      && s.unpricedCalls <= s.calls
      && Pricing.Abs(1000 * s.totalCost - ExactCost(rows)) <= 500 * (s.calls - s.unpricedCalls)
  {
    if rows != [] {
      TotalCostIsClose(rows[..|rows| - 1]);
      RecordedPriceIsClose(rows[|rows| - 1]);
    }
  }

  /** The summary of two windows together is the sum of theirs: every count, both token sums, the
      total and the unpriced calls. */
  lemma {:induction false} SummariesAdd(a: seq<CallRow>, b: seq<CallRow>)
    ensures var s, t, both := Summarise(a), Summarise(b), Summarise(a + b);
      both == UsageSummary(s.calls + t.calls, s.failedCalls + t.failedCalls, s.inputTokens + t.inputTokens,
                           s.outputTokens + t.outputTokens, s.totalCost + t.totalCost, s.unpricedCalls + t.unpricedCalls)
    decreases |b|
  {
    if b == [] {
      assert a + b == a;
    } else {
      assert (a + b)[..|a + b| - 1] == a + b[..|b| - 1];
      SummariesAdd(a, b[..|b| - 1]);
    }
  }

  /** One call is summarised as itself. */
  lemma SummaryOfOne(r: CallRow)
    ensures var s := Summarise([r]);
      && s.calls == 1 && (s.failedCalls == 1 <==> !r.succeeded) && s.failedCalls <= 1
      && s.inputTokens == r.inputTokens && s.outputTokens == r.outputTokens
      && (r.cost.Some? ==> s.totalCost == r.cost.value && s.unpricedCalls == 0)
      && (r.cost.None? ==> s.totalCost == 0 && s.unpricedCalls == 1)
  {
    assert [r][..0] == [];
  }

  /** The coverage is the share of priced calls, and complete for an empty window. */
  lemma CoverageIsPricedShare(s: UsageSummary)
    requires s.unpricedCalls <= s.calls
    ensures s.calls == 0 ==> s.CostCoverage() == 1.0
    ensures s.CostCoverage() * s.calls as real == (s.calls - s.unpricedCalls) as real
  {
  }
}
