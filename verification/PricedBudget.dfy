/**
  Prices and the ledger together: the chat handler reserves the catalog's
  estimate and commits the price of what the serving provider used
  (internal/proxy/handler.go).  Under one catalog and one set of limits this
  keeps every account within its monthly USD limit.
 */
module PricedBudget {
  import opened Budget
  import BudgetRuns
  import Pricing

  /** What a request was estimated for, before a provider was chosen. */
  datatype Quote = Quote(model: string, prompt: nat, completion: nat)

  /** What the provider that served it reported. */
  datatype Bill = Bill(provider: string, prompt: int, completion: int)

  /** `reserved` is the estimate of the quote, and `actual` the known price of a bill within it. */
  predicate Covered(c: Pricing.Catalog, glob: Pricing.Glob, q: Quote, b: Bill, reserved: real, actual: real) {
    var estimate := Pricing.EstimateChat(c, glob, q.model, q.prompt, q.completion);
    var price := Pricing.Chat(c, glob, b.provider, q.model, b.prompt, b.completion);
    && estimate.Estimate? && reserved == estimate.usd
    && price.Estimate? && price.known && actual == price.usd
    && b.prompt <= q.prompt && b.completion <= q.completion
  }

  /** A step of a run under unchanged limits whose commits are streams' own estimates or covered bills. */
  ghost predicate PricedStep(c: Pricing.Catalog, glob: Pricing.Glob, s: BudgetRuns.System, e: BudgetRuns.Step) {
    && !e.Install? && !e.Record?
    && (e.Commit? && BudgetRuns.AtHolding(s, e.request) ==>
          var reserved := s.requests[e.request].amount.usd;
          e.actual.usd == reserved || exists q, b :: Covered(c, glob, q, b, reserved, e.actual.usd))
  }

  ghost predicate PricedRun(c: Pricing.Catalog, glob: Pricing.Glob, s: BudgetRuns.System, steps: seq<BudgetRuns.Step>)
    decreases |steps|
  {
    steps == [] ||
    (PricedStep(c, glob, s, steps[0]) && PricedRun(c, glob, BudgetRuns.Take(s, steps[0]), steps[1..]))
  }

  /** A covered commit never charges more USD than was reserved. */
  lemma CommitWithinReservation(c: Pricing.Catalog, glob: Pricing.Glob, q: Quote, b: Bill, reserved: real, actual: real)
    requires Pricing.Legal(c) && Covered(c, glob, q, b, reserved, actual)
    ensures actual <= reserved
  {
    Pricing.EstimateDominatesPrice(c, glob, b.provider, q.model, b.prompt, b.completion, q.prompt, q.completion);
  }

  ghost predicate NothingExtra(s: BudgetRuns.System, k: Account, limits: Limits) {
    && s.limits == s.largest == limits
    && At(s.overruns, k).usd == 0.0 && At(s.recorded, k).usd == 0.0
    && forall i :: 0 <= i < |s.requests| ==> s.requests[i].amount.Nonnegative()
  }

  lemma SettleAddsNoOverrun(s: BudgetRuns.System, i: nat, actual: Usage, k: Account, limits: Limits)
    requires NothingExtra(s, k, limits) && BudgetRuns.AtHolding(s, i)
    requires actual.usd <= s.requests[i].amount.usd
    ensures NothingExtra(BudgetRuns.Settle(s, i, actual), k, limits)
  {
    var r := s.requests[i];
    var delta := Usage(actual.tokens - r.amount.tokens, actual.usd - r.amount.usd);
    BudgetRuns.CreditAt(s.overruns, r.key, delta.Clamp(), k);
  }

  lemma StepAddsNothing(
      c: Pricing.Catalog, glob: Pricing.Glob, s: BudgetRuns.System, e: BudgetRuns.Step, k: Account, limits: Limits)
    requires Pricing.Legal(c) && NothingExtra(s, k, limits) && PricedStep(c, glob, s, e)
    ensures NothingExtra(BudgetRuns.Take(s, e), k, limits)
  {
    match e
    case Commit(i, actual) =>
      if BudgetRuns.AtHolding(s, i) {
        var reserved := s.requests[i].amount.usd;
        if actual.usd != reserved {
          var q, b :| Covered(c, glob, q, b, reserved, actual.usd);
          CommitWithinReservation(c, glob, q, b, reserved, actual.usd);
        }
        SettleAddsNoOverrun(s, i, actual.Clamp(), k, limits);
      }
    case Cancel(i) =>
      if BudgetRuns.AtHolding(s, i) {
        SettleAddsNoOverrun(s, i, Zero(), k, limits);
      }
    case _ =>
  }

  lemma {:induction false} RunAddsNothing(
      c: Pricing.Catalog, glob: Pricing.Glob, s: BudgetRuns.System, steps: seq<BudgetRuns.Step>, k: Account, limits: Limits)
    requires Pricing.Legal(c) && NothingExtra(s, k, limits) && PricedRun(c, glob, s, steps)
    ensures NothingExtra(BudgetRuns.Run(s, steps), k, limits)
    ensures forall i :: 0 <= i < |steps| ==> !steps[i].Install? && !steps[i].Record?
    decreases |steps|
  {
    if steps != [] {
      StepAddsNothing(c, glob, s, steps[0], k, limits);
      RunAddsNothing(c, glob, BudgetRuns.Take(s, steps[0]), steps[1..], k, limits);
      assert forall i :: 0 < i < |steps| ==> steps[i] == steps[1..][i - 1];
    }
  }

  /** Every account of every priced run stays within the monthly USD limit. */
  lemma PricedRunsStayWithinUsdLimit(
      c: Pricing.Catalog, glob: Pricing.Glob, enabled: bool, limits: Limits, steps: seq<BudgetRuns.Step>, k: Account)
    requires Pricing.Legal(c) && limits.usd > 0.0
    requires PricedRun(c, glob, BudgetRuns.Initial(enabled, limits), steps)
    ensures At(BudgetRuns.Run(BudgetRuns.Initial(enabled, limits), steps).ledger, k).usd <= limits.usd
  {
    RunAddsNothing(c, glob, BudgetRuns.Initial(enabled, limits), steps, k, limits);
    BudgetRuns.UsageBoundedByLargestLimit(enabled, limits, steps, k, true);
  }
}
