/**
  The distributed token bucket: the Lua script that internal/ratelimit/redis.go
  runs on a Redis hash per key, with a 600 second EXPIRE after every call.

  Redis is taken to be reachable, so the in-process fallback of the limiter is
  never used, and both limiters read one clock.
 */
module LuaBucket {
  import opened TokenBucket

  datatype Stored = Stored(tokens: real, lastRefill: real, expiresAt: real)
  type Store = map<string, Stored>

  predicate Live(store: Store, key: string, now: real) {
    key in store && now < store[key].expiresAt
  }

  /** What the script computes before it compares with the requested units. */
  function LuaTokens(store: Store, key: string, rate: real, burst: real, now: real): real {
    if !Live(store, key, now) then burst
    else Grown(store[key].tokens, now - store[key].lastRefill, rate, burst)
  }

  function LuaAllow(store: Store, key: string, n: int, rpm: int, burst: int, now: real): (Store, bool) {
    if rpm <= 0 || burst <= 0 then (store, false)
    else
      var tokens := LuaTokens(store, key, Rate(rpm), burst as real, now);
      var allowed := tokens >= Units(n) as real;
      (store[key := Stored(if allowed then tokens - Units(n) as real else tokens, now, now + TTL)], allowed)
  }

  /** Reads of the in-process limiter have no counterpart here: only Allow reaches Redis. */
  function RunLua(store: Store, evs: seq<Event>): (answers: seq<Answer>)
    ensures |answers| == |evs|
    decreases |evs|
  {
    if evs == [] then []
    else match evs[0].call
      case Allow(key, n, rpm, burst) =>
        var (store', ok) := LuaAllow(store, key, n, rpm, burst, evs[0].now);
        [Decision(ok)] + RunLua(store', evs[1..])
      case _ => [Silent] + RunLua(store, evs[1..])
  }

  class RedisLimiter {
    var hashes: Store

    constructor ()
      ensures hashes == map[]
    {
      hashes := map[];
    }

    /** The script: read the hash, refill, try to take the units, write back, expire. */
    method Script(key: string, rate: real, burst: real, now: real, ttl: real, requested: int) returns (allowed: bool)
      modifies this
      ensures
        var tokens := LuaTokens(old(hashes), key, rate, burst, now);
        && allowed == (tokens >= requested as real)
        && hashes == old(hashes)[key :=
             Stored(if allowed then tokens - requested as real else tokens, now, now + ttl)]
    {
      var tokens;
      if key !in hashes || now >= hashes[key].expiresAt {
        tokens := burst;
      } else {
        var elapsed := now - hashes[key].lastRefill;
        tokens := hashes[key].tokens + elapsed * rate;
        if tokens > burst {
          tokens := burst;
        }
      }
      allowed := false;
      if tokens >= requested as real {
        tokens := tokens - requested as real;
        allowed := true;
      }
      hashes := hashes[key := Stored(tokens, now, now + ttl)];
    }

    method AllowWithLimits(key: string, n: int, rpm: int, burst: int, now: real) returns (ok: bool)
      modifies this
      ensures (hashes, ok) == LuaAllow(old(hashes), key, n, rpm, burst, now)
    {
      var units := n;
      if units <= 0 {
        units := 1;
      }
      if rpm <= 0 || burst <= 0 {
        return false;
      }
      ok := Script(key, rpm as real / 60.0, burst as real, now, 600.0, units);
    }
  }

  // ----- The two limiters agree -----

  ghost predicate LuaSound(store: Store, now: real) {
    forall k :: k in store ==>
      store[k].tokens >= 0.0 && store[k].lastRefill <= now && store[k].expiresAt == store[k].lastRefill + TTL
  }

  /** At `now` every key holds the same number of tokens in both. */
  ghost predicate SameLevel(m: Shard, store: Store, rate: real, burst: real, now: real) {
    forall k :: Refilled(m, k, rate, burst, now).tokens == LuaTokens(store, k, rate, burst, now)
  }

  lemma LevelAdvances(m: Shard, k: string, rate: real, burst: real, now: real, later: real)
    requires rate >= 0.0 && now <= later
    ensures Refilled(m, k, rate, burst, later).tokens
         == Grown(Refilled(m, k, rate, burst, now).tokens, later - now, rate, burst)
  {
    if k in m {
      GrownInSteps(m[k].tokens, now - m[k].lastRefill, later - now, rate, burst);
    } else {
      GrownFromFull(burst, later - now, rate);
    }
  }

  lemma GrownFromFull(burst: real, elapsed: real, rate: real)
    requires elapsed >= 0.0 && rate >= 0.0
    ensures Grown(burst, elapsed, rate, burst) == burst
  {
    ScaleUp(0.0, elapsed, rate);
  }

  /** The same for the script, even when the hash expires in between: by then it is full. */
  lemma LuaLevelAdvances(store: Store, k: string, rate: real, burst: real, now: real, later: real)
    requires rate >= 0.0 && now <= later && burst <= TTL * rate && LuaSound(store, now)
    ensures LuaTokens(store, k, rate, burst, later)
         == Grown(LuaTokens(store, k, rate, burst, now), later - now, rate, burst)
  {
    if Live(store, k, now) {
      GrownInSteps(store[k].tokens, now - store[k].lastRefill, later - now, rate, burst);
      if !Live(store, k, later) {
        GrownFull(store[k].tokens, (now - store[k].lastRefill) + (later - now), rate, burst);
      }
    } else {
      GrownFromFull(burst, later - now, rate);
    }
  }

  lemma LevelsStaySame(m: Shard, store: Store, rate: real, burst: real, now: real, later: real)
    requires SameLevel(m, store, rate, burst, now) && LuaSound(store, now)
    requires rate >= 0.0 && now <= later && burst <= TTL * rate
    ensures SameLevel(m, store, rate, burst, later)
  {
    forall k
      ensures Refilled(m, k, rate, burst, later).tokens == LuaTokens(store, k, rate, burst, later)
    {
      LevelAdvances(m, k, rate, burst, now, later);
      LuaLevelAdvances(store, k, rate, burst, now, later);
      assert Refilled(m, k, rate, burst, now).tokens == LuaTokens(store, k, rate, burst, now);
    }
  }

  /** Leaving `k` with the same tokens at `now` on both sides keeps the levels equal. */
  lemma BothTouched(m: Shard, store: Store, k: string, tokens: real, rate: real, burst: real, now: real)
    requires SameLevel(m, store, rate, burst, now) && tokens <= burst
    ensures SameLevel(m[k := Bucket(tokens, now, now)], store[k := Stored(tokens, now, now + TTL)], rate, burst, now)
  {
    var m', store' := m[k := Bucket(tokens, now, now)], store[k := Stored(tokens, now, now + TTL)];
    GrownAtOnce(tokens, now - now, rate, burst);
    forall j
      ensures Refilled(m', j, rate, burst, now).tokens == LuaTokens(store', j, rate, burst, now)
    {
      if j == k {
        assert Live(store', k, now);
      } else {
        assert Refilled(m, j, rate, burst, now).tokens == LuaTokens(store, j, rate, burst, now);
        assert Live(store', j, now) == Live(store, j, now);
      }
    }
  }

  lemma CapIsCapped(m: Shard, k: string, rate: real, burst: real, now: real)
    ensures Refilled(m, k, rate, burst, now).tokens <= burst
  {
  }

  /** An in-process read only moves its own refill forward. */
  lemma OnlyRead(m: Shard, store: Store, k: string, rate: real, burst: real, now: real)
    requires SameLevel(m, store, rate, burst, now)
    ensures SameLevel(m[k := Refilled(m, k, rate, burst, now)], store, rate, burst, now)
  {
    var m' := m[k := Refilled(m, k, rate, burst, now)];
    GrownAtOnce(m'[k].tokens, now - now, rate, burst);
    CapIsCapped(m, k, rate, burst, now);
    forall j
      ensures Refilled(m', j, rate, burst, now).tokens == LuaTokens(store, j, rate, burst, now)
    {
      assert Refilled(m, j, rate, burst, now).tokens == LuaTokens(store, j, rate, burst, now);
    }
  }

  ghost predicate LuaFixed(c: Call, rpm: int, burst: int) {
    !c.Sweep? ==> LimitsOf(c) == (Rate(rpm), burst as real) && (!c.Tokens? ==> c.rpm == rpm && c.burst == burst)
  }

  lemma LevelStep(m: Shard, store: Store, e: Event, rpm: int, burst: int)
    requires 0 < burst <= 10 * rpm && LuaFixed(e.call, rpm, burst)
    requires Sound(m, e.now) && LuaSound(store, e.now) && SameLevel(m, store, Rate(rpm), burst as real, e.now)
    ensures
      var m' := Perform(m, e).0;
      var (store', a) :=
        if e.call.Allow?
        then (var r := LuaAllow(store, e.call.key, e.call.n, rpm, burst, e.now); (r.0, Decision(r.1)))
        else (store, Silent);
      && Sound(m', e.now) && LuaSound(store', e.now) && SameLevel(m', store', Rate(rpm), burst as real, e.now)
      && (e.call.Allow? ==> Perform(m, e).1 == a)
  {
    if !e.call.Sweep? {
      var (rate, b) := (Rate(rpm), burst as real);
      LimitsRefillWithinTtl(Allow("", 1, rpm, burst));
      RefillIsSound(m, e.call.key, rate, b, e.now);
      var full := Refilled(m, e.call.key, rate, b, e.now);
      assert full.tokens == LuaTokens(store, e.call.key, rate, b, e.now);
      if e.call.Allow? {
        BothTouched(m, store, e.call.key, Serve(full, e.call).0.tokens, rate, b, e.now);
      } else {
        OnlyRead(m, store, e.call.key, rate, b, e.now);
      }
    }
  }

  ghost predicate SameDecisions(evs: seq<Event>, xs: seq<Answer>, ys: seq<Answer>)
    requires |evs| == |xs| == |ys|
  {
    forall i :: 0 <= i < |evs| && evs[i].call.Allow? ==> xs[i] == ys[i]
  }

  lemma {:induction false} LuaRunsAgree(m: Shard, store: Store, last: real, evs: seq<Event>, rpm: int, burst: int)
    requires 0 < burst <= 10 * rpm
    requires Ordered(evs, last) && forall i :: 0 <= i < |evs| ==> LuaFixed(evs[i].call, rpm, burst)
    requires Sound(m, last) && LuaSound(store, last) && SameLevel(m, store, Rate(rpm), burst as real, last)
    ensures SameDecisions(evs, RunReference(m, evs), RunLua(store, evs))
    decreases |evs|
  {
    if evs != [] {
      var e := evs[0];
      LimitsRefillWithinTtl(Allow("", 1, rpm, burst));
      LevelsStaySame(m, store, Rate(rpm), burst as real, last, e.now);
      LevelStep(m, store, e, rpm, burst);
      var store' := if e.call.Allow? then LuaAllow(store, e.call.key, e.call.n, rpm, burst, e.now).0 else store;
      LuaRunsAgree(Perform(m, e).0, store', e.now, evs[1..], rpm, burst);
      assert forall i :: 0 < i < |evs| ==> evs[i] == evs[1..][i - 1];
    }
  }

  /** For one fixed limit with burst <= 10 * rpm, Redis and the process decide every call alike. */
  lemma LuaAgreesWithLimiter(h: Hash, evs: seq<Event>, start: real, rpm: int, burst: int)
    requires 0 < burst <= 10 * rpm
    requires Ordered(evs, start) && FixedLimits(evs, rpm, burst)
    ensures SameDecisions(evs, RunSharded(h, EmptyShards(), evs), RunLua(map[], evs))
  {
    forall i | 0 <= i < |evs|
      ensures LuaFixed(evs[i].call, rpm, burst) && RefillsWithinTtl(evs[i].call)
    {
      LimitsRefillWithinTtl(Allow("", 1, rpm, burst));
    }
    ForgettingIsInvisible(h, evs, start);
    LuaRunsAgree(map[], map[], start, evs, rpm, burst);
  }

  /** Otherwise they disagree: the hash expires before the bucket has refilled. */
  lemma LuaDisagrees(h: Hash, rpm: int, burst: int) returns (evs: seq<Event>)
    requires rpm > 0 && burst > 10 * rpm
    ensures Ordered(evs, 0.0) && FixedLimits(evs, rpm, burst)
    ensures !SameDecisions(evs, RunSharded(h, EmptyShards(), evs), RunLua(map[], evs))
  {
    var ask := Allow("k", burst, rpm, burst);
    evs := [Event(0.0, ask), Event(600.0, ask)];
    var i := ShardOf(h, "k");
    assert evs[1..] == [evs[1]];
    assert Ordered(evs[1..], 0.0);
    var shards := ShardedStep(h, EmptyShards(), evs[0]).0;
    assert shards[i] == map["k" := Bucket(0.0, 0.0, 0.0)];
    assert Refilled(shards[i], "k", Rate(rpm), burst as real, 600.0).tokens == Grown(0.0, 600.0, Rate(rpm), burst as real);
    assert RunSharded(h, EmptyShards(), evs)[1] == RunSharded(h, shards, evs[1..])[0] == Decision(false);
    var store := LuaAllow(map[], "k", burst, rpm, burst, 0.0).0;
    assert !Live(store, "k", 600.0);
    assert RunLua(map[], evs)[1] == RunLua(store, evs[1..])[0] == Decision(true);
  }

  /** So burst <= 10 * rpm is exactly the condition under which the two never differ. */
  lemma LuaConditionIsExact(h: Hash, rpm: int, burst: int)
    requires rpm > 0 && burst > 0
    ensures burst <= 10 * rpm <==>
      forall evs :: Ordered(evs, 0.0) && FixedLimits(evs, rpm, burst) ==>
        SameDecisions(evs, RunSharded(h, EmptyShards(), evs), RunLua(map[], evs))
  {
    if burst <= 10 * rpm {
      forall evs: seq<Event> | Ordered(evs, 0.0) && FixedLimits(evs, rpm, burst)
        ensures SameDecisions(evs, RunSharded(h, EmptyShards(), evs), RunLua(map[], evs))
      {
        LuaAgreesWithLimiter(h, evs, 0.0, rpm, burst);
      }
    } else {
      var evs := LuaDisagrees(h, rpm, burst);
    }
  }
}
