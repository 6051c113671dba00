/**
  The price catalog (internal/pricing/catalog.go): per-provider rules with rates
  per million tokens, the price of a finished chat, and the estimate reserved
  before the serving provider is known.

  Rates and costs are exact reals.  Glob matching of model patterns and case
  folding are library functions and enter as arbitrary predicates.
 */
module Pricing {
  import opened Options

  datatype Rule = Rule(provider: string, model: string, input: real, output: real, embedding: real)

  /** `rejectUnknown` is the "reject" policy for models without a rule. */
  datatype Catalog = Catalog(rules: seq<Rule>, fallback: real, rejectUnknown: bool)

  datatype Price =
    | Estimate(usd: real, known: bool)
    | UnknownPrice

  /** path.Match(pattern, model) succeeded. */
  type Glob = (string, string) -> bool

  function PerMillion(tokens: int, rate: real): real {
    tokens as real * rate / 1000000.0
  }

  function ChatCost(r: Rule, prompt: int, completion: int): real {
    PerMillion(prompt, r.input) + PerMillion(completion, r.output)
  }

  predicate ModelMatches(glob: Glob, pattern: string, model: string) {
    pattern == model || glob(pattern, model)
  }

  function Rank(r: Rule, model: string): int {
    if r.model == model then 2 else 1
  }

  function AtLeastZero(n: int): int {
    if n < 0 then 0 else n
  }

  // ----- Building a catalog -----

  predicate Acceptable(r: Rule) {
    && r.provider != "" && r.model != ""
    && r.input >= 0.0 && r.output >= 0.0 && r.embedding >= 0.0
    && !(r.input == 0.0 && r.output == 0.0 && r.embedding == 0.0)
  }

  /** Byte-wise string order. */
  predicate StringLess(a: string, b: string) {
    if b == "" then false
    else if a == "" then true
    else a[0] < b[0] || (a[0] == b[0] && StringLess(a[1..], b[1..]))
  }

  predicate RuleLess(a: Rule, b: Rule) {
    if a.provider != b.provider then StringLess(a.provider, b.provider) else StringLess(a.model, b.model)
  }

  ghost predicate Sorted(rs: seq<Rule>) {
    forall i :: 0 <= i < |rs| - 1 ==> !RuleLess(rs[i + 1], rs[i])
  }

  lemma {:induction false} StringLessAsymmetric(a: string, b: string)
    requires StringLess(a, b)
    ensures !StringLess(b, a)
  {
    if a != "" && a[0] == b[0] {
      StringLessAsymmetric(a[1..], b[1..]);
    }
  }

  /** Stable insertion: after every rule that is not greater. */
  function Insert(r: Rule, rs: seq<Rule>): (out: seq<Rule>)
    ensures multiset(out) == multiset(rs) + multiset{r}
  {
    if rs == [] then [r]
    else if RuleLess(r, rs[0]) then [r] + rs
    else
      assert rs == [rs[0]] + rs[1..];
      [rs[0]] + Insert(r, rs[1..])
  }

  function SortStable(rs: seq<Rule>): (out: seq<Rule>)
    ensures multiset(out) == multiset(rs)
  {
    if rs == [] then []
    else
      assert rs == rs[..|rs| - 1] + [rs[|rs| - 1]];
      Insert(rs[|rs| - 1], SortStable(rs[..|rs| - 1]))
  }

  lemma {:induction false} InsertKeepsSorted(r: Rule, rs: seq<Rule>)
    requires Sorted(rs)
    ensures Sorted(Insert(r, rs))
    ensures rs != [] ==> Insert(r, rs)[0] == r || Insert(r, rs)[0] == rs[0]
  {
    if rs != [] {
      if RuleLess(r, rs[0]) {
        if r.provider != rs[0].provider {
          StringLessAsymmetric(r.provider, rs[0].provider);
        } else {
          StringLessAsymmetric(r.model, rs[0].model);
        }
        var out := [r] + rs;
        assert forall i :: 0 < i < |out| ==> out[i] == rs[i - 1];
      } else {
        InsertKeepsSorted(r, rs[1..]);
        var tail := Insert(r, rs[1..]);
        var out := [rs[0]] + tail;
        assert forall i :: 0 < i < |out| ==> out[i] == tail[i - 1];
        if |rs| > 1 {
          assert !RuleLess(rs[1], rs[0]);
        }
      }
    }
  }

  lemma {:induction false} SortStableSorts(rs: seq<Rule>)
    ensures Sorted(SortStable(rs))
  {
    if rs != [] {
      SortStableSorts(rs[..|rs| - 1]);
      InsertKeepsSorted(rs[|rs| - 1], SortStable(rs[..|rs| - 1]));
    }
  }

  /** The catalog, or nothing when any part of the configuration is not acceptable. */
  method NewCatalog(rules: seq<Rule>, fallback: real, currency: string, policy: string, isUsd: string -> bool)
    returns (c: Option<Catalog>)
    ensures c.Some? <==>
      && fallback >= 0.0
      && (currency == "" || isUsd(currency))
      && policy in {"", "fallback", "reject"}
      && forall i :: 0 <= i < |rules| ==> Acceptable(rules[i])
    ensures c.Some? ==>
      && c.value.fallback == fallback
      && c.value.rejectUnknown == (policy == "reject")
      && multiset(c.value.rules) == multiset(rules) && Sorted(c.value.rules)
      && Legal(c.value)
  {
    if fallback < 0.0 {
      return None;
    }
    if currency != "" && !isUsd(currency) {
      return None;
    }
    if policy != "" && policy != "fallback" && policy != "reject" {
      return None;
    }
    for i := 0 to |rules|
      invariant forall j :: 0 <= j < i ==> Acceptable(rules[j])
    {
      var r := rules[i];
      if r.provider == "" || r.model == "" {
        return None;
      }
      if r.input < 0.0 || r.output < 0.0 || r.embedding < 0.0 {
        return None;
      }
      if r.input == 0.0 && r.output == 0.0 && r.embedding == 0.0 {
        return None;
      }
    }
    SortStableSorts(rules);
    var sorted := SortStable(rules);
    forall i | 0 <= i < |sorted|
      ensures Acceptable(sorted[i])
    {
      assert sorted[i] in multiset(rules);
    }
    return Some(Catalog(sorted, fallback, policy == "reject"));
  }

  /** What every built catalog satisfies. */
  ghost predicate Legal(c: Catalog) {
    c.fallback >= 0.0 && forall i :: 0 <= i < |c.rules| ==> Acceptable(c.rules[i])
  }

  // ----- The rule a finished chat is priced with -----

  predicate Eligible(r: Rule, glob: Glob, provider: string, model: string) {
    && (provider == "" || r.provider == provider)
    && ModelMatches(glob, r.model, model)
    && r.input + r.output > 0.0
  }

  /** Higher rank wins, then the higher combined rate. */
  predicate Beats(r: Rule, s: Rule, model: string) {
    Rank(r, model) > Rank(s, model) ||
    (Rank(r, model) == Rank(s, model) && r.input + r.output > s.input + s.output)
  }

  /** The first eligible rule among the first `n` that no eligible one beats. */
  function BestRule(rules: seq<Rule>, glob: Glob, provider: string, model: string, n: nat): (best: Option<Rule>)
    requires n <= |rules|
    ensures best.Some? ==> best.value in rules[..n] && Eligible(best.value, glob, provider, model)
    ensures forall i :: 0 <= i < n && Eligible(rules[i], glob, provider, model) ==>
      best.Some? && !Beats(rules[i], best.value, model)
  {
    if n == 0 then None
    else
      var best := BestRule(rules, glob, provider, model, n - 1);
      var r := rules[n - 1];
      if Eligible(r, glob, provider, model) && (best.None? || Beats(r, best.value, model)) then Some(r) else best
  }

  method FindBestRule(c: Catalog, glob: Glob, provider: string, model: string) returns (best: Option<Rule>)
    ensures best == BestRule(c.rules, glob, provider, model, |c.rules|)
  {
    best := None;
    for i := 0 to |c.rules|
      invariant best == BestRule(c.rules, glob, provider, model, i)
    {
      var r := c.rules[i];
      if provider != "" && r.provider != provider {
        continue;
      }
      if !ModelMatches(glob, r.model, model) {
        continue;
      }
      var rate := r.input + r.output;
      if rate <= 0.0 {
        continue;
      }
      var bestRate := 0.0;
      if best.Some? {
        bestRate := best.value.input + best.value.output;
      }
      if best.None? || Rank(r, model) > Rank(best.value, model)
         || (Rank(r, model) == Rank(best.value, model) && rate > bestRate) {
        best := Some(r);
      }
    }
  }

  function UnknownEstimate(c: Catalog, tokens: int): Price {
    if c.rejectUnknown then UnknownPrice else Estimate(PerMillion(tokens, c.fallback), false)
  }

  function Chat(c: Catalog, glob: Glob, provider: string, model: string, prompt: int, completion: int): Price {
    var p, q := AtLeastZero(prompt), AtLeastZero(completion);
    match BestRule(c.rules, glob, provider, model, |c.rules|)
    case Some(r) => Estimate(ChatCost(r, p, q), true)
    case None => UnknownEstimate(c, p + q)
  }

  /** An eligible rule for exactly this model is never passed over for a pattern. */
  lemma ExactRuleWins(c: Catalog, glob: Glob, provider: string, model: string, i: nat)
    requires i < |c.rules| && c.rules[i].model == model && c.rules[i].input + c.rules[i].output > 0.0
    requires provider == "" || c.rules[i].provider == provider
    ensures
      var best := BestRule(c.rules, glob, provider, model, |c.rules|);
      && best.Some? && best.value.model == model
      && best.value.input + best.value.output >= c.rules[i].input + c.rules[i].output
  {
    assert Eligible(c.rules[i], glob, provider, model);
  }

  /**
    A known price is that of one rule of the provider for the model, per million
    tokens of either kind, with negative counts taken as none.
   */
  lemma KnownPriceIs(c: Catalog, glob: Glob, provider: string, model: string, prompt: int, completion: int)
    returns (r: Rule)
    requires var price := Chat(c, glob, provider, model, prompt, completion); price.Estimate? && price.known
    ensures r in c.rules && (provider == "" || r.provider == provider) && (r.model == model || glob(r.model, model))
    ensures
      var p, q := if prompt > 0 then prompt else 0, if completion > 0 then completion else 0;
      1000000.0 * Chat(c, glob, provider, model, prompt, completion).usd == p as real * r.input + q as real * r.output
  {
    r := BestRule(c.rules, glob, provider, model, |c.rules|).value;
    var p, q := AtLeastZero(prompt), AtLeastZero(completion);
    assert 1000000.0 * PerMillion(p, r.input) == p as real * r.input;
    assert 1000000.0 * PerMillion(q, r.output) == q as real * r.output;
  }

  /**
    A price is known exactly when some chat rule of the provider covers the
    model; otherwise it is refused or the fallback per million tokens, by policy.
   */
  lemma PriceKnownExactlyWhen(c: Catalog, glob: Glob, provider: string, model: string, prompt: int, completion: int)
    ensures
      var price := Chat(c, glob, provider, model, prompt, completion);
      var known := exists i :: 0 <= i < |c.rules| && CoversModel(c.rules[i], glob, provider, model);
      && (price.Estimate? && price.known <==> known)
      && (!known ==> (price.UnknownPrice? <==> c.rejectUnknown))
      && (!known && !c.rejectUnknown ==>
           var p, q := if prompt > 0 then prompt else 0, if completion > 0 then completion else 0;
           1000000.0 * price.usd == (p + q) as real * c.fallback)
  {
    var p, q := AtLeastZero(prompt), AtLeastZero(completion);
    assert 1000000.0 * PerMillion(p + q, c.fallback) == (p + q) as real * c.fallback;
    assert forall i :: 0 <= i < |c.rules| ==>
      (CoversModel(c.rules[i], glob, provider, model) <==> Eligible(c.rules[i], glob, provider, model));
    var best := BestRule(c.rules, glob, provider, model, |c.rules|);
    if best.Some? {
      var i :| 0 <= i < |c.rules| && c.rules[i] == best.value;
      assert CoversModel(c.rules[i], glob, provider, model);
    }
  }

  predicate CoversModel(r: Rule, glob: Glob, provider: string, model: string) {
    && (provider == "" || r.provider == provider) && (r.model == model || glob(r.model, model))
    && r.input + r.output > 0.0
  }

  // ----- The estimate reserved up front -----

  /** The dearest matching rule among the first `n`; an exact match wins a tie. */
  function Dearest(rules: seq<Rule>, glob: Glob, model: string, p: int, q: int, n: nat): (best: Option<Rule>)
    requires n <= |rules|
    ensures best.Some? ==> best.value in rules[..n] && ModelMatches(glob, best.value.model, model)
    ensures forall i :: 0 <= i < n && ModelMatches(glob, rules[i].model, model) ==>
      best.Some? && ChatCost(rules[i], p, q) <= ChatCost(best.value, p, q)
  {
    if n == 0 then None
    else
      var best := Dearest(rules, glob, model, p, q, n - 1);
      var r := rules[n - 1];
      if !ModelMatches(glob, r.model, model) then best
      else if best.None? || ChatCost(r, p, q) > ChatCost(best.value, p, q)
              || (ChatCost(r, p, q) == ChatCost(best.value, p, q) && Rank(r, model) > Rank(best.value, model))
      then Some(r)
      else best
  }

  function EstimateChat(c: Catalog, glob: Glob, model: string, p: int, q: int): Price {
    match Dearest(c.rules, glob, model, p, q, |c.rules|)
    case Some(r) => Estimate(ChatCost(r, p, q), true)
    case None => UnknownEstimate(c, p + q)
  }

  method ComputeEstimate(c: Catalog, glob: Glob, model: string, p: int, q: int) returns (price: Price)
    ensures price == EstimateChat(c, glob, model, p, q)
  {
    var best: Option<Rule> := None;
    var bestCost := -1.0;
    for i := 0 to |c.rules|
      invariant best == Dearest(c.rules, glob, model, p, q, i)
      invariant best.Some? ==> bestCost == ChatCost(best.value, p, q)
    {
      var r := c.rules[i];
      if !ModelMatches(glob, r.model, model) {
        continue;
      }
      var cost := PerMillion(p, r.input) + PerMillion(q, r.output);
      if best.None? || cost > bestCost || (cost == bestCost && Rank(r, model) > Rank(best.value, model)) {
        best := Some(r);
        bestCost := cost;
      }
    }
    if best.Some? {
      return Estimate(PerMillion(p, best.value.input) + PerMillion(q, best.value.output), true);
    }
    return UnknownEstimate(c, p + q);
  }

  // ----- The estimate dominates the price -----

  lemma PerMillionMonotone(a: int, b: int, rate: real)
    requires a <= b && rate >= 0.0
    ensures PerMillion(a, rate) <= PerMillion(b, rate)
  {
    assert (b - a) as real * rate >= 0.0;
    assert b as real * rate == a as real * rate + (b - a) as real * rate;
  }

  /**
    In any built catalog, if a provider's chat price is known, the estimate for
    token counts at least as large is known too and no cheaper, whichever
    provider ends up serving the model.
   */
  lemma EstimateDominatesPrice(
      c: Catalog, glob: Glob, provider: string, model: string, prompt: int, completion: int, p: int, q: int)
    requires Legal(c)
    requires prompt <= p && completion <= q && 0 <= p && 0 <= q
    requires var price := Chat(c, glob, provider, model, prompt, completion); price.Estimate? && price.known
    ensures
      var estimate := EstimateChat(c, glob, model, p, q);
      && estimate.Estimate? && estimate.known
      && Chat(c, glob, provider, model, prompt, completion).usd <= estimate.usd
  {
    var best := BestRule(c.rules, glob, provider, model, |c.rules|);
    var r := best.value;
    var i :| 0 <= i < |c.rules| && c.rules[i] == r;
    PerMillionMonotone(AtLeastZero(prompt), p, r.input);
    PerMillionMonotone(AtLeastZero(completion), q, r.output);
    assert ModelMatches(glob, c.rules[i].model, model);
  }

  /** A known price is covered by a known estimate. */
  ghost predicate Covers(
      c: Catalog, glob: Glob, provider: string, model: string, prompt: int, completion: int, p: int, q: int)
  {
    var price, estimate := Chat(c, glob, provider, model, prompt, completion), EstimateChat(c, glob, model, p, q);
    price.Estimate? && price.known ==> estimate.Estimate? && estimate.known && price.usd <= estimate.usd
  }

  lemma PerMillionNegative(n: int, rate: real)
    requires n < 0 && rate > 0.0
    ensures PerMillion(n, rate) < 0.0
  {
    assert n as real * rate < 0.0;
  }

  lemma PerMillionZero(n: int, rate: real)
    requires n == 0 || rate == 0.0
    ensures PerMillion(n, rate) == 0.0
  {
  }

  lemma SingleRule(c: Catalog, r: Rule, glob: Glob, p: int, q: int)
    requires c.rules == [r] && r.input + r.output > 0.0
    ensures Chat(c, glob, r.provider, r.model, p, q) == Estimate(ChatCost(r, AtLeastZero(p), AtLeastZero(q)), true)
    ensures EstimateChat(c, glob, r.model, p, q) == Estimate(ChatCost(r, p, q), true)
  {
    assert c.rules[0] == r && Eligible(r, glob, r.provider, r.model);
    assert BestRule(c.rules, glob, r.provider, r.model, 1) == Some(r);
    assert Dearest(c.rules, glob, r.model, p, q, 1) == Some(r);
  }

  lemma SingleRuleUndercut(c: Catalog, r: Rule, glob: Glob, p: int, q: int)
    requires c.rules == [r] && r.input + r.output > 0.0
    requires ChatCost(r, p, q) < ChatCost(r, AtLeastZero(p), AtLeastZero(q))
    ensures !Covers(c, glob, r.provider, r.model, p, q, p, q)
  {
    SingleRule(c, r, glob, p, q);
  }

  lemma ChargeOne(r: Rule, p: int, q: int)
    requires (p < 0 && r.input > 0.0 && r.output == 0.0) || (q < 0 && r.input == 0.0 && r.output > 0.0)
    ensures ChatCost(r, p, q) < ChatCost(r, AtLeastZero(p), AtLeastZero(q))
  {
    if p < 0 && r.input > 0.0 {
      PerMillionNegative(p, r.input);
      PerMillionZero(0, r.input);
      PerMillionZero(q, r.output);
      PerMillionZero(AtLeastZero(q), r.output);
    } else {
      PerMillionNegative(q, r.output);
      PerMillionZero(0, r.output);
      PerMillionZero(p, r.input);
      PerMillionZero(AtLeastZero(p), r.input);
    }
  }

  /** One rule that charges for one kind of token only: a negative count makes the estimate negative. */
  lemma NegativeCountsUndercut(p: int, q: int, rate: real, glob: Glob)
    returns (c: Catalog, provider: string, model: string)
    requires (p < 0 || q < 0) && rate > 0.0
    ensures Legal(c) && !Covers(c, glob, provider, model, p, q, p, q)
  {
    var r := if p < 0 then Rule("p", "m", rate, 0.0, 0.0) else Rule("p", "m", 0.0, rate, 0.0);
    c, provider, model := Catalog([r], 0.0, false), r.provider, r.model;
    ChargeOne(r, p, q);
    SingleRuleUndercut(c, r, glob, p, q);
  }

  /** The estimate for these counts covers the price of all smaller ones in all catalogs. */
  ghost predicate AlwaysCovers(p: int, q: int, glob: Glob) {
    forall c: Catalog, provider: string, model: string, prompt: int, completion: int ::
      Legal(c) && prompt <= p && completion <= q ==> Covers(c, glob, provider, model, prompt, completion, p, q)
  }

  lemma NonnegativeCountsCover(p: int, q: int, glob: Glob)
    requires p >= 0 && q >= 0
    ensures AlwaysCovers(p, q, glob)
  {
    forall c: Catalog, provider: string, model: string, prompt: int, completion: int |
        Legal(c) && prompt <= p && completion <= q
      ensures Covers(c, glob, provider, model, prompt, completion, p, q)
    {
      var price := Chat(c, glob, provider, model, prompt, completion);
      if price.Estimate? && price.known {
        EstimateDominatesPrice(c, glob, provider, model, prompt, completion, p, q);
      }
    }
  }

  /** The estimate for given counts dominates every price of smaller counts exactly when neither is negative. */
  lemma DominanceConditionIsExact(p: int, q: int, glob: Glob)
    ensures AlwaysCovers(p, q, glob) <==> p >= 0 && q >= 0
  {
    if p >= 0 && q >= 0 {
      NonnegativeCountsCover(p, q, glob);
    } else {
      var c, provider, model := NegativeCountsUndercut(p, q, 1.0, glob);
    }
  }
}
