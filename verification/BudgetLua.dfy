/**
  The budget on Redis: the two Lua scripts of internal/budget/budget.go, which
  keep one hash per account and expire it 35 days after the last write.

  Numbers are exact; each script run is one atomic step on one clock (seconds).
 */
module BudgetLua {
  import opened Budget

  const TTL: int := 35 * 24 * 60 * 60

  datatype Hash = Hash(tokens: int, usd: real, expiresAt: int)
  type Store = map<Account, Hash>

  predicate Live(store: Store, key: Account, now: int) {
    key in store && now < store[key].expiresAt
  }

  /** HGET with a missing or expired hash reading as zero. */
  function Stored(store: Store, key: Account, now: int): Usage {
    if Live(store, key, now) then Usage(store[key].tokens, store[key].usd) else Zero()
  }

  class RedisLedger {
    var store: Store

    constructor ()
      ensures store == map[]
    {
      store := map[];
    }

    /** budgetReserveScript: answers 1 and charges, or answers 0 and writes nothing. */
    method ReserveScript(key: Account, tokenLimit: int, usdLimit: real, reserveTokens: int, reserveUsd: real, now: int)
      returns (allowed: int)
      modifies this
      ensures (store, allowed == 1)
           == LuaReserve(old(store), key, Limits(tokenLimit, usdLimit), reserveTokens, reserveUsd, now)
    {
      var tokens, usd := 0, 0.0;
      if key in store && now < store[key].expiresAt {
        tokens, usd := store[key].tokens, store[key].usd;
      }
      if tokenLimit > 0 && tokens + reserveTokens > tokenLimit {
        return 0;
      }
      if usdLimit > 0.0 && usd + reserveUsd > usdLimit {
        return 0;
      }
      store := store[key := Hash(tokens + reserveTokens, usd + reserveUsd, now + TTL)];
      return 1;
    }

    /** budgetAdjustScript: always writes the clamped sums, and answers 1 when they exceed a limit. */
    method AdjustScript(key: Account, deltaTokens: int, deltaUsd: real, tokenLimit: int, usdLimit: real, now: int)
      returns (over: int)
      modifies this
      ensures (store, over == 1)
           == LuaAdjust(old(store), key, Limits(tokenLimit, usdLimit), deltaTokens, deltaUsd, now)
    {
      var tokens, usd := deltaTokens, deltaUsd;
      if key in store && now < store[key].expiresAt {
        tokens, usd := tokens + store[key].tokens, usd + store[key].usd;
      }
      if tokens < 0 {
        tokens := 0;
      }
      if usd < 0.0 {
        usd := 0.0;
      }
      store := store[key := Hash(tokens, usd, now + TTL)];
      over := 0;
      if tokenLimit > 0 && tokens > tokenLimit {
        over := 1;
      }
      if usdLimit > 0.0 && usd > usdLimit {
        over := 1;
      }
    }
  }

  function LuaReserve(store: Store, key: Account, lim: Limits, tokens: int, usd: real, now: int): (Store, bool) {
    var old_ := Stored(store, key, now);
    var u := Usage(old_.tokens + tokens, old_.usd + usd);
    if lim.Exceeded(u) then (store, false) else (store[key := Hash(u.tokens, u.usd, now + TTL)], true)
  }

  function LuaAdjust(store: Store, key: Account, lim: Limits, dTokens: int, dUsd: real, now: int): (Store, bool) {
    var old_ := Stored(store, key, now);
    var tokens, usd := old_.tokens + dTokens, old_.usd + dUsd;
    var u := Usage(if tokens < 0 then 0 else tokens, if usd < 0.0 then 0.0 else usd);
    (store[key := Hash(u.tokens, u.usd, now + TTL)], lim.Exceeded(u))
  }

  // ----- The scripts simulate the in-memory ledger -----

  datatype Op =
    | Reserve(key: Account, tokens: int, usd: real)
    | Adjust(key: Account, tokens: int, usd: real)
    | Check(key: Account)

  datatype Event = Event(now: int, op: Op)

  /** One operation on the process-local ledger: its new value, and admitted / over / within budget. */
  function MemStep(l: Ledger, lim: Limits, op: Op): (Ledger, bool) {
    match op
    case Reserve(key, tokens, usd) => Reserved(l, key, lim, tokens, usd)
    case Adjust(key, tokens, usd) => Adjusted(l, key, lim, tokens, usd)
    case Check(key) => (l, key !in l || !lim.Exhausted(l[key]))
  }

  function LuaStep(store: Store, lim: Limits, e: Event): (Store, bool) {
    match e.op
    case Reserve(key, tokens, usd) => LuaReserve(store, key, lim, tokens, usd, e.now)
    case Adjust(key, tokens, usd) => LuaAdjust(store, key, lim, tokens, usd, e.now)
    case Check(key) => (store, !lim.Exhausted(Stored(store, key, e.now)))
  }

  function MemRun(l: Ledger, lim: Limits, evs: seq<Event>): seq<bool>
    decreases |evs|
  {
    if evs == [] then []
    else
      var (l', a) := MemStep(l, lim, evs[0].op);
      [a] + MemRun(l', lim, evs[1..])
  }

  function LuaRun(store: Store, lim: Limits, evs: seq<Event>): seq<bool>
    decreases |evs|
  {
    if evs == [] then []
    else
      var (store', a) := LuaStep(store, lim, evs[0]);
      [a] + LuaRun(store', lim, evs[1..])
  }

  /** Hash and ledger hold the same usage. */
  ghost predicate Simulates(l: Ledger, store: Store) {
    forall k: Account ::
      && (k in store ==> At(l, k).tokens == store[k].tokens && At(l, k).usd == store[k].usd)
      && (k !in store ==> At(l, k).tokens == 0 && At(l, k).usd == 0.0)
  }

  /** The account has no hash or one that has not expired. */
  predicate Unexpired(store: Store, k: Account, now: int) {
    k in store ==> now < store[k].expiresAt
  }

  lemma StoredIsLedger(l: Ledger, store: Store, k: Account, now: int)
    requires Simulates(l, store) && Unexpired(store, k, now)
    ensures Stored(store, k, now).tokens == At(l, k).tokens && Stored(store, k, now).usd == At(l, k).usd
  {
  }

  lemma WriteSimulates(l: Ledger, store: Store, k: Account, u: Usage, now: int)
    requires Simulates(l, store)
    ensures Simulates(l[k := u], store[k := Hash(u.tokens, u.usd, now + TTL)])
  {
    var l', store' := l[k := u], store[k := Hash(u.tokens, u.usd, now + TTL)];
    forall j: Account
      ensures j in store' ==> At(l', j).tokens == store'[j].tokens && At(l', j).usd == store'[j].usd
      ensures j !in store' ==> At(l', j).tokens == 0 && At(l', j).usd == 0.0
    {
      if j != k {
        assert At(l', j) == At(l, j);
      }
    }
  }

  /** A denied reservation only makes the process-local entry visible. */
  lemma TouchSimulates(l: Ledger, store: Store, k: Account)
    requires Simulates(l, store)
    ensures Simulates(l[k := At(l, k)], store)
  {
    var l' := l[k := At(l, k)];
    forall j: Account
      ensures At(l', j) == At(l, j)
    {
    }
  }

  lemma ReserveSimulates(l: Ledger, store: Store, lim: Limits, k: Account, u: Usage, now: int)
    requires Simulates(l, store) && Unexpired(store, k, now)
    ensures Reserved(l, k, lim, u.tokens, u.usd).1 == LuaReserve(store, k, lim, u.tokens, u.usd, now).1
    ensures Simulates(Reserved(l, k, lim, u.tokens, u.usd).0, LuaReserve(store, k, lim, u.tokens, u.usd, now).0)
  {
    StoredIsLedger(l, store, k, now);
    var sum := Usage(At(l, k).tokens + u.tokens, At(l, k).usd + u.usd);
    if lim.Exceeded(sum) {
      TouchSimulates(l, store, k);
    } else {
      WriteSimulates(l, store, k, sum, now);
    }
  }

  /** The ledger does not store a settlement to zero of an account it has never seen; the script does. */
  lemma UnwrittenZero(l: Ledger, store: Store, k: Account, u: Usage)
    requires k !in l && u.tokens == 0 && u.usd == 0.0
    requires Simulates(l[k := u], store)
    ensures Simulates(l, store)
  {
    forall j: Account
      ensures At(l, j).tokens == At(l[k := u], j).tokens && At(l, j).usd == At(l[k := u], j).usd
    {
    }
  }

  lemma AdjustSimulates(l: Ledger, store: Store, lim: Limits, k: Account, d: Usage, now: int)
    requires Simulates(l, store) && Unexpired(store, k, now)
    ensures Adjusted(l, k, lim, d.tokens, d.usd).1 == LuaAdjust(store, k, lim, d.tokens, d.usd, now).1
    ensures Simulates(Adjusted(l, k, lim, d.tokens, d.usd).0, LuaAdjust(store, k, lim, d.tokens, d.usd, now).0)
  {
    StoredIsLedger(l, store, k, now);
    var tokens, usd := At(l, k).tokens + d.tokens, At(l, k).usd + d.usd;
    var u := Usage(if tokens < 0 then 0 else tokens, if usd < 0.0 then 0.0 else usd);
    WriteSimulates(l, store, k, u, now);
    if k !in l && d.tokens <= 0 && d.usd <= 0.0 {
      UnwrittenZero(l, store[k := Hash(u.tokens, u.usd, now + TTL)], k, u);
    }
  }

  lemma StepSimulates(l: Ledger, store: Store, lim: Limits, e: Event)
    requires Simulates(l, store) && Unexpired(store, e.op.key, e.now)
    ensures Simulates(MemStep(l, lim, e.op).0, LuaStep(store, lim, e).0)
    ensures MemStep(l, lim, e.op).1 == LuaStep(store, lim, e).1
  {
    match e.op
    case Reserve(k, tokens, usd) =>
      ReserveSimulates(l, store, lim, k, Usage(tokens, usd), e.now);
    case Adjust(k, tokens, usd) =>
      AdjustSimulates(l, store, lim, k, Usage(tokens, usd), e.now);
    case Check(k) =>
      StoredIsLedger(l, store, k, e.now);
  }

  /** Each operation of the run comes less than 35 days after the last write to its account, if there was one. */
  predicate Fresh(store: Store, lim: Limits, evs: seq<Event>)
    decreases |evs|
  {
    evs == [] ||
    (Unexpired(store, evs[0].op.key, evs[0].now) && Fresh(LuaStep(store, lim, evs[0]).0, lim, evs[1..]))
  }

  /** What the operations leave in the process. */
  function MemAfter(l: Ledger, lim: Limits, evs: seq<Event>): Ledger
    decreases |evs|
  {
    if evs == [] then l else MemAfter(MemStep(l, lim, evs[0].op).0, lim, evs[1..])
  }

  /** What they leave in Redis. */
  function LuaAfter(store: Store, lim: Limits, evs: seq<Event>): Store
    decreases |evs|
  {
    if evs == [] then store else LuaAfter(LuaStep(store, lim, evs[0]).0, lim, evs[1..])
  }

  lemma {:induction false} RunsSimulate(l: Ledger, store: Store, lim: Limits, evs: seq<Event>)
    requires Simulates(l, store) && Fresh(store, lim, evs)
    ensures MemRun(l, lim, evs) == LuaRun(store, lim, evs)
    ensures Simulates(MemAfter(l, lim, evs), LuaAfter(store, lim, evs))
    decreases |evs|
  {
    if evs != [] {
      StepSimulates(l, store, lim, evs[0]);
      RunsSimulate(MemStep(l, lim, evs[0].op).0, LuaStep(store, lim, evs[0]).0, lim, evs[1..]);
    }
  }

  /**
    With fixed limits Redis gives every answer the process would, and ends with
    the same usage in every hash, while no account goes 35 days unwritten.
   */
  lemma FreshRunsAgree(lim: Limits, evs: seq<Event>)
    requires Fresh(map[], lim, evs)
    ensures MemRun(map[], lim, evs) == LuaRun(map[], lim, evs)
    ensures Simulates(MemAfter(map[], lim, evs), LuaAfter(map[], lim, evs))
  {
    RunsSimulate(map[], map[], lim, evs);
  }

  // ----- Operations within a window -----

  /** All operations on an account fall within `window` seconds of its start. */
  ghost predicate InWindow(evs: seq<Event>, start: Account -> int, window: int) {
    forall i :: 0 <= i < |evs| ==> start(evs[i].op.key) <= evs[i].now < start(evs[i].op.key) + window
  }

  predicate Ordered(evs: seq<Event>) {
    forall i :: 0 < i < |evs| ==> evs[i - 1].now <= evs[i].now
  }

  lemma {:induction false} WindowIsFresh(store: Store, lim: Limits, evs: seq<Event>, start: Account -> int, window: int)
    requires window <= TTL && InWindow(evs, start, window)
    requires forall k :: k in store ==> store[k].expiresAt >= start(k) + TTL
    ensures Fresh(store, lim, evs)
    decreases |evs|
  {
    if evs != [] {
      WindowIsFresh(LuaStep(store, lim, evs[0]).0, lim, evs[1..], start, window);
    }
  }

  /** A month has at most 31 days, so operations on the current month's account always agree. */
  lemma ScriptsSimulateLedger(lim: Limits, start: Account -> int, evs: seq<Event>)
    requires InWindow(evs, start, TTL)
    ensures MemRun(map[], lim, evs) == LuaRun(map[], lim, evs)
  {
    WindowIsFresh(map[], lim, evs, start, TTL);
    FreshRunsAgree(lim, evs);
  }

  predicate Unlimited(lim: Limits) {
    lim.tokens <= 0 && lim.usd <= 0.0
  }

  /** All that `lim` allows, in tokens if those are limited. */
  function Fill(k: Account, lim: Limits): Op {
    if lim.tokens > 0 then Reserve(k, lim.tokens, 0.0) else Reserve(k, 0, lim.usd)
  }

  /** Once the hash is gone an account that was full is open again, on Redis only: for all limits and all times. */
  lemma ExpiredAccountsDiffer(k: Account, lim: Limits, now: int, later: int)
    requires !Unlimited(lim) && later >= now + TTL
    ensures
      var evs := [Event(now, Fill(k, lim)), Event(later, Fill(k, lim))];
      MemRun(map[], lim, evs) == [true, false] && LuaRun(map[], lim, evs) == [true, true]
  {
    var fill := Fill(k, lim);
    var evs := [Event(now, fill), Event(later, fill)];
    assert evs[1..] == [evs[1]] && evs[1..][1..] == [];
    var l := MemStep(map[], lim, fill).0;
    var store := LuaStep(map[], lim, evs[0]).0;
    assert At(l, k) == Usage(fill.tokens, fill.usd);
    assert !Live(store, k, later);
    assert MemRun(l, lim, [evs[1]]) == [false] + MemRun(MemStep(l, lim, fill).0, lim, []);
    assert LuaRun(store, lim, [evs[1]]) == [true] + LuaRun(LuaStep(store, lim, evs[1]).0, lim, []);
  }

  lemma {:induction false} UnlimitedAgree(l: Ledger, store: Store, lim: Limits, evs: seq<Event>)
    requires Unlimited(lim)
    ensures MemRun(l, lim, evs) == LuaRun(store, lim, evs)
    decreases |evs|
  {
    if evs != [] {
      UnlimitedAgree(MemStep(l, lim, evs[0].op).0, LuaStep(store, lim, evs[0]).0, lim, evs[1..]);
    }
  }

  ghost predicate AgreeWithin(lim: Limits, window: int) {
    forall start: Account -> int, evs: seq<Event> :: Ordered(evs) && InWindow(evs, start, window) ==>
      MemRun(map[], lim, evs) == LuaRun(map[], lim, evs)
  }

  lemma LongWindowsDiffer(lim: Limits, window: int)
    requires !Unlimited(lim) && window > TTL
    ensures !AgreeWithin(lim, window)
  {
    var k, start := Account("t", "2026-01"), (_: Account) => 0;
    var evs := [Event(0, Fill(k, lim)), Event(TTL, Fill(k, lim))];
    ExpiredAccountsDiffer(k, lim, 0, TTL);
    assert Ordered(evs) && InWindow(evs, start, window);
    assert MemRun(map[], lim, evs)[1] != LuaRun(map[], lim, evs)[1];
  }

  /** Redis and the process agree on all runs within a window exactly when it has at most 35 days or nothing is limited. */
  lemma WindowConditionIsExact(lim: Limits, window: int)
    ensures AgreeWithin(lim, window) <==> window <= 35 * 86400 || (lim.tokens <= 0 && lim.usd <= 0.0)
  {
    if window <= TTL || Unlimited(lim) {
      forall start: Account -> int, evs: seq<Event> | Ordered(evs) && InWindow(evs, start, window)
        ensures MemRun(map[], lim, evs) == LuaRun(map[], lim, evs)
      {
        if Unlimited(lim) {
          UnlimitedAgree(map[], map[], lim, evs);
        } else {
          WindowIsFresh(map[], lim, evs, start, window);
          FreshRunsAgree(lim, evs);
        }
      }
    } else {
      LongWindowsDiffer(lim, window);
    }
  }
}
