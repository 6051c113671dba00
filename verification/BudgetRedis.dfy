/**
  Conservation on the Redis backend.  Every run of the budget system under fixed
  limits is, for the ledger, a sequence of reservations and adjustments; with a
  time for each step it is also a sequence of script runs.  While no account is
  used 35 days after its last write, the scripts decide each step as the process
  would and their hashes obey the same sum.
 */
module BudgetRedis {
  import opened Options
  import opened Budget
  import BudgetRuns
  import BudgetLua

  datatype Timed = Timed(now: int, step: BudgetRuns.Step)

  function Steps(timed: seq<Timed>): seq<BudgetRuns.Step> {
    if timed == [] then [] else [timed[0].step] + Steps(timed[1..])
  }

  /** What a step asks of the ledger. */
  function OpOf(s: BudgetRuns.System, e: BudgetRuns.Step): Option<BudgetLua.Op> {
    match e
    case Lock(i) =>
      if BudgetRuns.AtSnapped(s, i)
      then Some(BudgetLua.Reserve(s.requests[i].key, s.requests[i].amount.tokens, s.requests[i].amount.usd)) else None
    case Commit(i, actual) => if BudgetRuns.AtHolding(s, i) then Some(Settling(s.requests[i], actual.Clamp())) else None
    case Cancel(i) => if BudgetRuns.AtHolding(s, i) then Some(Settling(s.requests[i], Zero())) else None
    case Record(key, usage) => Some(BudgetLua.Adjust(key, usage.tokens, usage.usd))
    case _ => None
  }

  function Settling(r: BudgetRuns.Request, actual: Usage): BudgetLua.Op {
    BudgetLua.Adjust(r.key, actual.tokens - r.amount.tokens, actual.usd - r.amount.usd)
  }

  /** The script runs of a run. */
  function Scripts(s: BudgetRuns.System, timed: seq<Timed>): seq<BudgetLua.Event>
    decreases |timed|
  {
    if timed == [] then []
    else
      var rest := Scripts(BudgetRuns.Take(s, timed[0].step), timed[1..]);
      match OpOf(s, timed[0].step)
      case None => rest
      case Some(op) => [BudgetLua.Event(timed[0].now, op)] + rest
  }

  /** `lim` is in force and is what every reservation under way has read. */
  ghost predicate Fixed(s: BudgetRuns.System, lim: Limits) {
    && s.limits == lim
    && forall i :: 0 <= i < |s.requests| && s.requests[i].phase.Snapped? ==> s.requests[i].phase.lim == lim
  }

  lemma TakeIsOperation(s: BudgetRuns.System, e: BudgetRuns.Step, lim: Limits)
    requires Fixed(s, lim) && !e.Install?
    ensures BudgetRuns.Take(s, e).ledger ==
      if OpOf(s, e).Some? then BudgetLua.MemStep(s.ledger, lim, OpOf(s, e).value).0 else s.ledger
  {
  }

  lemma TakeKeepsFixed(s: BudgetRuns.System, e: BudgetRuns.Step, lim: Limits)
    requires Fixed(s, lim) && !e.Install?
    ensures Fixed(BudgetRuns.Take(s, e), lim)
  {
  }

  ghost predicate NoInstalls(timed: seq<Timed>) {
    forall i :: 0 <= i < |timed| ==> !timed[i].step.Install?
  }

  lemma {:induction false} RunIsOperations(s: BudgetRuns.System, timed: seq<Timed>, lim: Limits)
    requires Fixed(s, lim) && NoInstalls(timed)
    ensures BudgetRuns.Run(s, Steps(timed)).ledger == BudgetLua.MemAfter(s.ledger, lim, Scripts(s, timed))
    decreases |timed|
  {
    if timed != [] {
      var e := timed[0].step;
      var s' := BudgetRuns.Take(s, e);
      TakeIsOperation(s, e, lim);
      TakeKeepsFixed(s, e, lim);
      RunIsOperations(s', timed[1..], lim);
      assert Steps(timed)[1..] == Steps(timed[1..]);
      if OpOf(s, e).Some? {
        assert Scripts(s, timed)[1..] == Scripts(s', timed[1..]);
      }
    }
  }

  /** What Redis holds for an account. */
  function HashOf(store: BudgetLua.Store, k: Account): Usage {
    if k in store then Usage(store[k].tokens, store[k].usd) else Zero()
  }

  /**
    For every run under fixed limits in which no account is used 35 days after
    its last write: Redis answers every operation as the process does, and each
    hash is the account's open reservations plus committed plus recorded usage.
   */
  lemma HashesConserved(enabled: bool, lim: Limits, timed: seq<Timed>, k: Account)
    requires NoInstalls(timed) && BudgetRuns.RecordsNonnegative(Steps(timed))
    requires BudgetLua.Fresh(map[], lim, Scripts(BudgetRuns.Initial(enabled, lim), timed))
    ensures
      var (s, evs) := (BudgetRuns.Run(BudgetRuns.Initial(enabled, lim), Steps(timed)),
                       Scripts(BudgetRuns.Initial(enabled, lim), timed));
      var hash := HashOf(BudgetLua.LuaAfter(map[], lim, evs), k);
      && BudgetLua.LuaRun(map[], lim, evs) == BudgetLua.MemRun(map[], lim, evs)
      && hash.tokens ==
         BudgetRuns.Held(s.requests, k).tokens + At(s.committed, k).tokens + At(s.recorded, k).tokens
      && hash.usd == BudgetRuns.Held(s.requests, k).usd + At(s.committed, k).usd + At(s.recorded, k).usd
  {
    var s0 := BudgetRuns.Initial(enabled, lim);
    var evs := Scripts(s0, timed);
    BudgetRuns.LedgerConserved(enabled, lim, Steps(timed), k);
    RunIsOperations(s0, timed, lim);
    BudgetLua.FreshRunsAgree(lim, evs);
  }
}
