/**
  The ledger under concurrency.  A reservation reads the limits before it takes
  the lock, so it is three steps here; a settlement and a `Record` are one
  locked step each.  A run is any sequence of steps of any number of requests,
  mixed with configuration reloads, on the in-memory backend.

  Beside the ledger the system keeps what an auditor would: the usage committed,
  recorded and overrun so far per account, and the largest limits ever installed.
 */
module BudgetRuns {
  import opened Budget

  datatype Phase =
    | Entered
    | Snapped(lim: Limits)
    | Denied
    | Holding
    | Settled

  datatype Request = Request(key: Account, amount: Usage, phase: Phase)

  datatype System = System(
    enabled: bool,
    limits: Limits,
    ledger: Ledger,
    requests: seq<Request>,
    committed: Ledger,
    recorded: Ledger,
    overruns: Ledger,
    largest: Limits)

  datatype Step =
    | Install(enabled: bool, limits: Limits)
    /** Reserve sees budgets enabled and fixes the month. */
    | Enter(key: Account, estimate: Usage)
    | Snapshot(request: nat)
    | Lock(request: nat)
    | Commit(request: nat, actual: Usage)
    | Cancel(request: nat)
    /** The adjustment of a Record call whose enabled check has passed. */
    | Record(key: Account, usage: Usage)

  function Initial(enabled: bool, limits: Limits): System {
    System(enabled, limits, map[], [], map[], map[], map[], limits)
  }

  function Larger(a: Limits, b: Limits): Limits {
    Limits(if a.tokens >= b.tokens then a.tokens else b.tokens, if a.usd >= b.usd then a.usd else b.usd)
  }

  function Credit(l: Ledger, key: Account, u: Usage): Ledger {
    l[key := Usage(At(l, key).tokens + u.tokens, At(l, key).usd + u.usd)]
  }

  predicate AtEntered(s: System, i: nat) {
    i < |s.requests| && s.requests[i].phase.Entered?
  }

  predicate AtSnapped(s: System, i: nat) {
    i < |s.requests| && s.requests[i].phase.Snapped?
  }

  predicate AtHolding(s: System, i: nat) {
    i < |s.requests| && s.requests[i].phase.Holding?
  }

  function Settle(s: System, i: nat, actual: Usage): System
    requires i < |s.requests|
  {
    var r := s.requests[i];
    var delta := Usage(actual.tokens - r.amount.tokens, actual.usd - r.amount.usd);
    s.(ledger := Adjusted(s.ledger, r.key, s.limits, delta.tokens, delta.usd).0,
       requests := s.requests[i := r.(phase := Settled)],
       committed := Credit(s.committed, r.key, actual),
       overruns := Credit(s.overruns, r.key, delta.Clamp()))
  }

  function Take(s: System, e: Step): System {
    match e
    case Install(enabled, limits) =>
      s.(enabled := enabled, limits := limits, largest := Larger(s.largest, limits))
    case Enter(key, estimate) =>
      if !s.enabled || key.tenant == "" then s
      else s.(requests := s.requests + [Request(key, estimate.Clamp(), Entered)])
    case Snapshot(i) =>
      if AtEntered(s, i)
      then s.(requests := s.requests[i := s.requests[i].(phase := Snapped(s.limits))]) else s
    case Lock(i) =>
      if AtSnapped(s, i) then
        var r := s.requests[i];
        var (ledger, ok) := Reserved(s.ledger, r.key, r.phase.lim, r.amount.tokens, r.amount.usd);
        s.(ledger := ledger, requests := s.requests[i := r.(phase := if ok then Holding else Denied)])
      else s
    case Commit(i, actual) =>
      if AtHolding(s, i) then Settle(s, i, actual.Clamp()) else s
    case Cancel(i) =>
      if AtHolding(s, i) then Settle(s, i, Zero()) else s
    case Record(key, usage) =>
      s.(ledger := Adjusted(s.ledger, key, s.limits, usage.tokens, usage.usd).0, recorded := Credit(s.recorded, key, usage))
  }

  function Run(s: System, steps: seq<Step>): System
    decreases |steps|
  {
    if steps == [] then s else Run(Take(s, steps[0]), steps[1..])
  }

  /** What `r` currently holds in account `k`. */
  function Share(r: Request, k: Account): Usage {
    if r.phase.Holding? && r.key == k then r.amount else Zero()
  }

  /** Open reservations of account `k`. */
  function Held(rs: seq<Request>, k: Account): Usage {
    if rs == [] then Zero()
    else Usage(Share(rs[0], k).tokens + Held(rs[1..], k).tokens, Share(rs[0], k).usd + Held(rs[1..], k).usd)
  }

  lemma {:induction false} HeldUpdate(rs: seq<Request>, i: nat, r: Request, k: Account)
    requires i < |rs|
    ensures Held(rs[i := r], k).tokens == Held(rs, k).tokens - Share(rs[i], k).tokens + Share(r, k).tokens
    ensures Held(rs[i := r], k).usd == Held(rs, k).usd - Share(rs[i], k).usd + Share(r, k).usd
  {
    if i == 0 {
      assert rs[i := r][1..] == rs[1..];
    } else {
      assert rs[i := r][1..] == rs[1..][i - 1 := r];
      HeldUpdate(rs[1..], i - 1, r, k);
    }
  }

  lemma {:induction false} HeldAppend(rs: seq<Request>, r: Request, k: Account)
    ensures Held(rs + [r], k).tokens == Held(rs, k).tokens + Share(r, k).tokens
    ensures Held(rs + [r], k).usd == Held(rs, k).usd + Share(r, k).usd
  {
    if rs == [] {
      assert rs + [r] == [r];
    } else {
      assert (rs + [r])[1..] == rs[1..] + [r];
      HeldAppend(rs[1..], r, k);
    }
  }

  lemma {:induction false} HeldCovers(rs: seq<Request>, k: Account)
    requires forall i :: 0 <= i < |rs| ==> rs[i].amount.Nonnegative()
    ensures Held(rs, k).Nonnegative()
    ensures forall i :: 0 <= i < |rs| ==> Share(rs[i], k).tokens <= Held(rs, k).tokens
    ensures forall i :: 0 <= i < |rs| ==> Share(rs[i], k).usd <= Held(rs, k).usd
  {
    if rs != [] {
      HeldCovers(rs[1..], k);
      assert forall i :: 0 < i < |rs| ==> rs[i] == rs[1..][i - 1];
    }
  }

  // ----- Conservation -----

  ghost predicate RecordsNonnegative(steps: seq<Step>) {
    forall i :: 0 <= i < |steps| && steps[i].Record? ==> steps[i].usage.Nonnegative()
  }

  ghost predicate Balanced(s: System, k: Account) {
    && (forall i :: 0 <= i < |s.requests| ==> s.requests[i].amount.Nonnegative())
    && At(s.committed, k).Nonnegative()
    && At(s.recorded, k).Nonnegative()
    && IsSum(s, k)
  }

  /** The ledger of `k` is what is held, committed and recorded, in tokens and in USD. */
  predicate IsSum(s: System, k: Account) {
    && At(s.ledger, k).tokens == Held(s.requests, k).tokens + At(s.committed, k).tokens + At(s.recorded, k).tokens
    && At(s.ledger, k).usd == Held(s.requests, k).usd + At(s.committed, k).usd + At(s.recorded, k).usd
  }

  lemma CreditAt(l: Ledger, key: Account, u: Usage, k: Account)
    ensures k == key ==> At(Credit(l, key, u), k) == Usage(At(l, k).tokens + u.tokens, At(l, k).usd + u.usd)
    ensures k != key ==> At(Credit(l, key, u), k) == At(l, k)
  {
  }

  lemma ReservedAt(l: Ledger, key: Account, lim: Limits, u: Usage, k: Account)
    ensures
      var (l', ok) := Reserved(l, key, lim, u.tokens, u.usd);
      && (k == key && ok ==> At(l', k) == Usage(At(l, k).tokens + u.tokens, At(l, k).usd + u.usd))
      && (k != key || !ok ==> At(l', k) == At(l, k))
  {
  }

  /** An adjustment that stays nonnegative is a plain addition. */
  lemma AdjustedAt(l: Ledger, key: Account, lim: Limits, dTokens: int, dUsd: real, k: Account)
    requires k == key ==> At(l, k).tokens + dTokens >= 0 && At(l, k).usd + dUsd >= 0.0
    ensures
      var l' := Adjusted(l, key, lim, dTokens, dUsd).0;
      && (k == key ==> At(l', k).tokens == At(l, k).tokens + dTokens && At(l', k).usd == At(l, k).usd + dUsd)
      && (k != key ==> At(l', k) == At(l, k))
  {
  }

  /** The account of an open reservation holds at least what it reserved. */
  lemma LedgerCoversReservation(s: System, i: nat)
    requires AtHolding(s, i) && Balanced(s, s.requests[i].key)
    ensures
      var r := s.requests[i];
      At(s.ledger, r.key).tokens >= r.amount.tokens && At(s.ledger, r.key).usd >= r.amount.usd
  {
    HeldCovers(s.requests, s.requests[i].key);
    assert Share(s.requests[i], s.requests[i].key) == s.requests[i].amount;
  }

  /** What a settlement does to an account, and to any other one. */
  lemma SettledAt(s: System, i: nat, actual: Usage, k: Account)
    requires Balanced(s, k) && AtHolding(s, i) && actual.Nonnegative()
    ensures
      var (r, s') := (s.requests[i], Settle(s, i, actual));
      && (r.key == k ==>
            && At(s'.ledger, k).tokens == At(s.ledger, k).tokens + (actual.tokens - r.amount.tokens)
            && At(s'.ledger, k).usd == At(s.ledger, k).usd + (actual.usd - r.amount.usd))
      && (r.key != k ==> At(s'.ledger, k) == At(s.ledger, k))
  {
    var r := s.requests[i];
    if r.key == k {
      LedgerCoversReservation(s, i);
    }
    AdjustedAt(s.ledger, r.key, s.limits, actual.tokens - r.amount.tokens, actual.usd - r.amount.usd, k);
  }

  lemma SettleSums(s: System, i: nat, actual: Usage, k: Account)
    requires Balanced(s, k) && AtHolding(s, i) && actual.Nonnegative()
    ensures IsSum(Settle(s, i, actual), k) && At(Settle(s, i, actual).committed, k).Nonnegative()
  {
    var r, r' := s.requests[i], s.requests[i].(phase := Settled);
    HeldUpdate(s.requests, i, r', k);
    SettledAt(s, i, actual, k);
    CreditAt(s.committed, r.key, actual, k);
  }

  lemma SettleKeepsBalanced(s: System, i: nat, actual: Usage, k: Account)
    requires Balanced(s, k) && AtHolding(s, i) && actual.Nonnegative()
    ensures Balanced(Settle(s, i, actual), k)
  {
    SettleSums(s, i, actual, k);
    assert At(Settle(s, i, actual).recorded, k) == At(s.recorded, k);
  }

  lemma PhaseKeepsBalanced(s: System, i: nat, r: Request, ledger: Ledger, k: Account)
    requires Balanced(s, k) && i < |s.requests| && !s.requests[i].phase.Holding?
    requires r.key == s.requests[i].key && r.amount == s.requests[i].amount
    requires At(ledger, k).tokens == At(s.ledger, k).tokens + Share(r, k).tokens
    requires At(ledger, k).usd == At(s.ledger, k).usd + Share(r, k).usd
    ensures Balanced(s.(ledger := ledger, requests := s.requests[i := r]), k)
  {
    HeldUpdate(s.requests, i, r, k);
  }

  lemma TakeKeepsBalanced(s: System, e: Step, k: Account)
    requires Balanced(s, k) && (e.Record? ==> e.usage.Nonnegative())
    ensures Balanced(Take(s, e), k)
  {
    match e
    case Install(_, _) =>
    case Enter(key, estimate) =>
      HeldAppend(s.requests, Request(key, estimate.Clamp(), Entered), k);
    case Snapshot(i) =>
      if AtEntered(s, i) {
        PhaseKeepsBalanced(s, i, s.requests[i].(phase := Snapped(s.limits)), s.ledger, k);
      }
    case Lock(i) =>
      if AtSnapped(s, i) {
        var r := s.requests[i];
        ReservedAt(s.ledger, r.key, r.phase.lim, r.amount, k);
        var (ledger, ok) := Reserved(s.ledger, r.key, r.phase.lim, r.amount.tokens, r.amount.usd);
        PhaseKeepsBalanced(s, i, r.(phase := if ok then Holding else Denied), ledger, k);
      }
    case Commit(i, actual) =>
      if AtHolding(s, i) {
        SettleKeepsBalanced(s, i, actual.Clamp(), k);
      }
    case Cancel(i) =>
      if AtHolding(s, i) {
        SettleKeepsBalanced(s, i, Zero(), k);
      }
    case Record(key, usage) =>
      HeldCovers(s.requests, k);
      AdjustedAt(s.ledger, key, s.limits, usage.tokens, usage.usd, k);
      CreditAt(s.recorded, key, usage, k);
  }

  lemma {:induction false} RunKeepsBalanced(s: System, steps: seq<Step>, k: Account)
    requires Balanced(s, k) && RecordsNonnegative(steps)
    ensures Balanced(Run(s, steps), k)
    decreases |steps|
  {
    if steps != [] {
      TakeKeepsBalanced(s, steps[0], k);
      RunKeepsBalanced(Take(s, steps[0]), steps[1..], k);
    }
  }

  /** Every account's ledger is its open reservations plus committed plus recorded usage, in every run. */
  lemma LedgerConserved(enabled: bool, limits: Limits, steps: seq<Step>, k: Account)
    requires RecordsNonnegative(steps)
    ensures IsSum(Run(Initial(enabled, limits), steps), k)
  {
    RunKeepsBalanced(Initial(enabled, limits), steps, k);
  }

  lemma RecordBooked(l: Ledger, key: Account, lim: Limits, u: Usage)
    requires At(l, key).Nonnegative()
    ensures
      var after := At(Adjusted(l, key, lim, u.tokens, u.usd).0, key);
      && (after.tokens == At(l, key).tokens + u.tokens && after.usd == At(l, key).usd + u.usd <==>
           At(l, key).tokens + u.tokens >= 0 && At(l, key).usd + u.usd >= 0.0)
  {
  }

  /** What the condition on Record is for: the sum survives a record exactly when it does not overdraw the account. */
  lemma RecordKeepsSumExactlyWhen(enabled: bool, limits: Limits, steps: seq<Step>, k: Account, u: Usage)
    requires RecordsNonnegative(steps)
    ensures
      var s := Run(Initial(enabled, limits), steps);
      IsSum(Take(s, Record(k, u)), k) <==> At(s.ledger, k).tokens + u.tokens >= 0 && At(s.ledger, k).usd + u.usd >= 0.0
  {
    var s := Run(Initial(enabled, limits), steps);
    RunKeepsBalanced(Initial(enabled, limits), steps, k);
    HeldCovers(s.requests, k);
    RecordBooked(s.ledger, k, s.limits, u);
    CreditAt(s.recorded, k, u, k);
  }

  /** No settlement in any run would take its account below zero, so the clamps never change anything. */
  lemma ClampsNeverFire(enabled: bool, limits: Limits, steps: seq<Step>, i: nat, actual: Usage)
    requires RecordsNonnegative(steps) && AtHolding(Run(Initial(enabled, limits), steps), i) && actual.Nonnegative()
    ensures
      var s := Run(Initial(enabled, limits), steps);
      var (r, s') := (s.requests[i], Settle(s, i, actual));
      && At(s'.ledger, r.key).tokens == At(s.ledger, r.key).tokens - r.amount.tokens + actual.tokens
      && At(s'.ledger, r.key).usd == At(s.ledger, r.key).usd - r.amount.usd + actual.usd
  {
    var s := Run(Initial(enabled, limits), steps);
    var r := s.requests[i];
    RunKeepsBalanced(Initial(enabled, limits), steps, r.key);
    LedgerCoversReservation(s, i);
    AdjustedAt(s.ledger, r.key, s.limits, actual.tokens - r.amount.tokens, actual.usd - r.amount.usd, r.key);
  }

  /** No reservation is open. */
  ghost predicate NoneHolding(rs: seq<Request>) {
    forall i :: 0 <= i < |rs| ==> !rs[i].phase.Holding?
  }

  lemma {:induction false} NothingHeld(rs: seq<Request>, k: Account)
    requires NoneHolding(rs)
    ensures Held(rs, k) == Zero()
  {
    if rs != [] {
      NothingHeld(rs[1..], k);
    }
  }

  lemma {:induction false} SettledStays(s: System, steps: seq<Step>, i: nat)
    requires i < |s.requests| && s.requests[i].phase.Settled?
    ensures i < |Run(s, steps).requests| && Run(s, steps).requests[i].phase.Settled?
    decreases |steps|
  {
    if steps != [] {
      SettledStays(Take(s, steps[0]), steps[1..], i);
    }
  }

  /** Whatever happens in between, committing or cancelling a settled reservation again changes nothing. */
  lemma SettlesOnce(s: System, e: Step, between: seq<Step>, again: Step)
    requires (e.Commit? || e.Cancel?) && AtHolding(s, e.request)
    requires (again.Commit? || again.Cancel?) && again.request == e.request
    ensures Take(Run(Take(s, e), between), again) == Run(Take(s, e), between)
  {
    SettledStays(Take(s, e), between, e.request);
  }

  // ----- How far an account can go past its limits -----

  ghost predicate AllPositive(limits: Limits, steps: seq<Step>, ofUsd: bool) {
    && (if ofUsd then limits.usd > 0.0 else limits.tokens > 0)
    && forall i :: 0 <= i < |steps| && steps[i].Install? ==>
         if ofUsd then steps[i].limits.usd > 0.0 else steps[i].limits.tokens > 0
  }

  /** `lim` is one of the limits in force so far, and limits tokens (or USD). */
  predicate Within(lim: Limits, largest: Limits, ofUsd: bool) {
    if ofUsd then 0.0 < lim.usd <= largest.usd else 0 < lim.tokens <= largest.tokens
  }

  /** `k` is at most the largest limit so far plus its overruns and recorded usage. */
  predicate UnderBound(s: System, k: Account, ofUsd: bool) {
    if ofUsd
    then At(s.ledger, k).usd <= s.largest.usd + At(s.overruns, k).usd + At(s.recorded, k).usd
    else At(s.ledger, k).tokens <= s.largest.tokens + At(s.overruns, k).tokens + At(s.recorded, k).tokens
  }

  ghost predicate Bounded(s: System, k: Account, ofUsd: bool) {
    && Within(s.limits, s.largest, ofUsd)
    && (forall i :: 0 <= i < |s.requests| && s.requests[i].phase.Snapped? ==>
          Within(s.requests[i].phase.lim, s.largest, ofUsd))
    && At(s.overruns, k).Nonnegative()
    && UnderBound(s, k, ofUsd)
  }

  lemma SettleKeepsBounded(s: System, i: nat, actual: Usage, k: Account, ofUsd: bool)
    requires Balanced(s, k) && Bounded(s, k, ofUsd) && AtHolding(s, i) && actual.Nonnegative()
    ensures Bounded(Settle(s, i, actual), k, ofUsd)
  {
    var r := s.requests[i];
    SettledAt(s, i, actual, k);
    CreditAt(s.overruns, r.key, Usage(actual.tokens - r.amount.tokens, actual.usd - r.amount.usd).Clamp(), k);
  }

  lemma LockKeepsBounded(s: System, i: nat, k: Account, ofUsd: bool)
    requires Bounded(s, k, ofUsd) && At(s.recorded, k).Nonnegative() && AtSnapped(s, i)
    ensures Bounded(Take(s, Lock(i)), k, ofUsd)
  {
    var r := s.requests[i];
    ReservedAt(s.ledger, r.key, r.phase.lim, r.amount, k);
    assert Within(r.phase.lim, s.largest, ofUsd);
  }

  lemma RecordKeepsBounded(s: System, key: Account, usage: Usage, k: Account, ofUsd: bool)
    requires Balanced(s, k) && Bounded(s, k, ofUsd) && usage.Nonnegative()
    ensures Bounded(Take(s, Record(key, usage)), k, ofUsd)
  {
    HeldCovers(s.requests, k);
    AdjustedAt(s.ledger, key, s.limits, usage.tokens, usage.usd, k);
    CreditAt(s.recorded, key, usage, k);
  }

  lemma TakeKeepsBounded(s: System, e: Step, k: Account, ofUsd: bool)
    requires Balanced(s, k) && Bounded(s, k, ofUsd)
    requires e.Record? ==> e.usage.Nonnegative()
    requires e.Install? ==> if ofUsd then e.limits.usd > 0.0 else e.limits.tokens > 0
    ensures Bounded(Take(s, e), k, ofUsd)
  {
    match e
    case Install(_, _) =>
    case Enter(_, _) =>
    case Snapshot(_) =>
    case Lock(i) =>
      if AtSnapped(s, i) {
        LockKeepsBounded(s, i, k, ofUsd);
      }
    case Commit(i, actual) =>
      if AtHolding(s, i) {
        SettleKeepsBounded(s, i, actual.Clamp(), k, ofUsd);
      }
    case Cancel(i) =>
      if AtHolding(s, i) {
        SettleKeepsBounded(s, i, Zero(), k, ofUsd);
      }
    case Record(key, usage) =>
      RecordKeepsBounded(s, key, usage, k, ofUsd);
  }

  lemma {:induction false} RunKeepsBounded(s: System, steps: seq<Step>, k: Account, ofUsd: bool)
    requires Balanced(s, k) && Bounded(s, k, ofUsd) && RecordsNonnegative(steps)
    requires AllPositive(s.limits, steps, ofUsd)
    ensures Bounded(Run(s, steps), k, ofUsd)
    decreases |steps|
  {
    if steps != [] {
      TakeKeepsBalanced(s, steps[0], k);
      TakeKeepsBounded(s, steps[0], k, ofUsd);
      RunKeepsBounded(Take(s, steps[0]), steps[1..], k, ofUsd);
    }
  }

  /**
    If every limit ever installed is positive, an account never exceeds the
    largest of them by more than its commit overruns and recorded usage, even
    though reservations act on limits read before the lock.  The same holds for
    tokens and for USD.
   */
  lemma UsageBoundedByLargestLimit(enabled: bool, limits: Limits, steps: seq<Step>, k: Account, ofUsd: bool)
    requires RecordsNonnegative(steps) && AllPositive(limits, steps, ofUsd)
    ensures UnderBound(Run(Initial(enabled, limits), steps), k, ofUsd)
  {
    RunKeepsBounded(Initial(enabled, limits), steps, k, ofUsd);
  }
}
