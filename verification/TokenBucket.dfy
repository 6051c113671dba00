/**
  The in-process token bucket limiter (internal/ratelimit/token_bucket.go):
  16 shards picked by a hash of the key, refill on every touch, and a
  background cleanup that forgets buckets not seen for ten minutes.

  Tokens, rates and times (in seconds) are exact reals; the clock is passed in
  and never goes back.  The hash is an arbitrary function.  Each call carries
  the limits it was evaluated with, whether they came from a tenant override or
  from the limiter's own settings read just before.
 */
module TokenBucket {

  datatype Bucket = Bucket(tokens: real, lastRefill: real, lastSeen: real)
  type Shard = map<string, Bucket>
  type Hash = string -> nat

  const TTL: real := 600.0
  const SHARDS: nat := 16

  function Rate(rpm: int): real {
    rpm as real / 60.0
  }

  function Min(a: real, b: real): real {
    if a > b then b else a
  }

  /** A level after `elapsed` seconds of refilling, capped at the burst. */
  function Grown(tokens: real, elapsed: real, rate: real, burst: real): real {
    Min(tokens + elapsed * rate, burst)
  }

  datatype Call =
    | Allow(key: string, n: int, rpm: int, burst: int)
    | RetryAfter(key: string, rpm: int, burst: int)
    | Tokens(key: string, rate: real, capacity: real)
    /** Cleanup reaches one shard, with the cutoff it computed when it started. */
    | Sweep(shard: nat, cutoff: real)

  datatype Answer =
    | Decision(ok: bool)
    | Wait(seconds: real)
    | Level(tokens: real)
    | Silent

  datatype Event = Event(now: real, call: Call)

  /** The bucket of `key` after the refill that every touch performs. */
  function Refilled(m: Shard, key: string, rate: real, burst: real, now: real): Bucket {
    if key !in m then Bucket(burst, now, now)
    else Bucket(Grown(m[key].tokens, now - m[key].lastRefill, rate, burst), now, now)
  }

  function Units(n: int): (r: int)
    ensures r >= 1
  {
    if n <= 0 then 1 else n
  }

  /** The rate and capacity a call is evaluated with. */
  function LimitsOf(c: Call): (real, real)
    requires !c.Sweep?
  {
    if c.Tokens? then (c.rate, c.capacity) else (Rate(c.rpm), c.burst as real)
  }

  /** Calls whose limits are not positive are answered without touching a bucket. */
  predicate Unconfigured(c: Call)
    requires !c.Sweep?
  {
    !c.Tokens? && (c.rpm <= 0 || c.burst <= 0)
  }

  /** What a call does with its refilled bucket. */
  function Serve(b: Bucket, c: Call): (Bucket, Answer)
    requires !c.Sweep? && !Unconfigured(c)
  {
    match c
    case Allow(_, n, _, _) =>
      if b.tokens < Units(n) as real then (b, Decision(false))
      else (b.(tokens := b.tokens - Units(n) as real), Decision(true))
    case RetryAfter(_, rpm, _) =>
      (b, Wait(if b.tokens >= 1.0 then 0.0 else (1.0 - b.tokens) / Rate(rpm)))
    case Tokens(_, _, _) => (b, Level(b.tokens))
  }

  /** A call against one map of buckets. */
  function Perform(m: Shard, e: Event): (Shard, Answer) {
    if e.call.Sweep? then (m, Silent)
    else if Unconfigured(e.call) then (m, if e.call.Allow? then Decision(false) else Wait(1.0))
    else
      var (rate, burst) := LimitsOf(e.call);
      var (b, a) := Serve(Refilled(m, e.call.key, rate, burst, e.now), e.call);
      (m[e.call.key := b], a)
  }

  function Swept(m: Shard, cutoff: real): Shard {
    map k | k in m && !(m[k].lastSeen < cutoff) :: m[k]
  }

  function ShardOf(h: Hash, key: string): nat {
    h(key) % SHARDS
  }

  /** One event of the sharded limiter. */
  function ShardedStep(h: Hash, shards: seq<Shard>, e: Event): (seq<Shard>, Answer)
    requires |shards| == SHARDS
  {
    if e.call.Sweep? then
      (if e.call.shard < SHARDS
       then shards[e.call.shard := Swept(shards[e.call.shard], e.call.cutoff)] else shards,
       Silent)
    else
      var i := ShardOf(h, e.call.key);
      var (m, a) := Perform(shards[i], e);
      (shards[i := m], a)
  }

  function RunSharded(h: Hash, shards: seq<Shard>, evs: seq<Event>): (answers: seq<Answer>)
    requires |shards| == SHARDS
    ensures |answers| == |evs|
    decreases |evs|
  {
    if evs == [] then []
    else
      var (shards', a) := ShardedStep(h, shards, evs[0]);
      [a] + RunSharded(h, shards', evs[1..])
  }

  /** The simple limiter: a single map that never forgets. */
  function RunReference(m: Shard, evs: seq<Event>): (answers: seq<Answer>)
    ensures |answers| == |evs|
    decreases |evs|
  {
    if evs == [] then []
    else
      var (m', a) := Perform(m, evs[0]);
      [a] + RunReference(m', evs[1..])
  }

  function EmptyShards(): seq<Shard> {
    seq(SHARDS, _ => map[])
  }

  // ----- The object -----

  class Limiter {
    const hash: Hash
    const shards: array<Shard>
    var rate: real
    var burst: real

    ghost predicate Valid() {
      shards.Length == SHARDS
    }

    constructor (rpm: int, burst: int, hash: Hash)
      ensures Valid() && shards[..] == EmptyShards() && fresh(shards)
      ensures rate == Rate(rpm) && this.burst == burst as real && this.hash == hash
    {
      this.hash := hash;
      this.rate := rpm as real / 60.0;
      this.burst := burst as real;
      this.shards := new Shard[16](_ => map[]);
    }

    method RefillLocked(i: nat, key: string, rate: real, burst: real, now: real) returns (b: Bucket)
      requires Valid() && i < SHARDS
      modifies shards
      ensures b == Refilled(old(shards[i]), key, rate, burst, now)
      ensures shards[..] == old(shards[..])[i := old(shards[i])[key := b]]
    {
      if key !in shards[i] {
        b := Bucket(burst, now, now);
      } else {
        b := shards[i][key];
        var elapsed := now - b.lastRefill;
        b := b.(tokens := b.tokens + elapsed * rate);
        if b.tokens > burst {
          b := b.(tokens := burst);
        }
        b := b.(lastRefill := now, lastSeen := now);
      }
      shards[i] := shards[i][key := b];
    }

    method AllowWithLimits(key: string, n: int, rpm: int, burst: int, now: real) returns (ok: bool)
      requires Valid()
      modifies shards
      ensures (shards[..], Decision(ok)) == ShardedStep(hash, old(shards[..]), Event(now, Allow(key, n, rpm, burst)))
    {
      var units := n;
      if units <= 0 {
        units := 1;
      }
      var i := ShardOf(hash, key);
      assert shards[..][i := shards[..][i]] == shards[..];
      if rpm <= 0 || burst <= 0 {
        return false;
      }
      var b := RefillLocked(i, key, rpm as real / 60.0, burst as real, now);
      if b.tokens < units as real {
        return false;
      }
      shards[i] := shards[i][key := b.(tokens := b.tokens - units as real)];
      assert shards[i] == Perform(old(shards[i]), Event(now, Allow(key, n, rpm, burst))).0;
      assert shards[..] == old(shards[..])[i := shards[i]];
      return true;
    }

    method RetryAfterWithLimits(key: string, rpm: int, burst: int, now: real) returns (seconds: real)
      requires Valid()
      modifies shards
      ensures (shards[..], Wait(seconds)) == ShardedStep(hash, old(shards[..]), Event(now, RetryAfter(key, rpm, burst)))
    {
      assert shards[..][ShardOf(hash, key) := shards[..][ShardOf(hash, key)]] == shards[..];
      if rpm <= 0 || burst <= 0 {
        return 1.0;
      }
      var r := rpm as real / 60.0;
      var b := RefillLocked(ShardOf(hash, key), key, r, burst as real, now);
      if b.tokens >= 1.0 {
        return 0.0;
      }
      return (1.0 - b.tokens) / r;
    }

    method ReadTokens(key: string, now: real) returns (tokens: real)
      requires Valid()
      modifies shards
      ensures (shards[..], Level(tokens)) == ShardedStep(hash, old(shards[..]), Event(now, Tokens(key, rate, burst)))
    {
      var b := RefillLocked(ShardOf(hash, key), key, rate, burst, now);
      return b.tokens;
    }

    method UpdateLimits(rpm: int, burst: int)
      modifies this
      ensures rate == if rpm > 0 then Rate(rpm) else old(rate)
      ensures this.burst == if burst > 0 then burst as real else old(this.burst)
    {
      if rpm > 0 {
        rate := rpm as real / 60.0;
      }
      if burst > 0 {
        this.burst := burst as real;
      }
    }

    /** The cleanup pass forgets exactly the buckets last seen before the cutoff. */
    method Cleanup(now: real)
      requires Valid()
      modifies shards
      ensures forall i :: 0 <= i < SHARDS ==> shards[i] == Swept(old(shards[i]), now - TTL)
    {
      var cutoff := now - TTL;
      for i := 0 to 16
        invariant forall j :: 0 <= j < i ==> shards[j] == Swept(old(shards[j]), cutoff)
        invariant forall j :: i <= j < SHARDS ==> shards[j] == old(shards[j])
      {
        var m := shards[i];
        var todo := m.Keys;
        while todo != {}
          invariant todo <= m.Keys
          invariant shards[i] == map k | k in m && (k in todo || !(m[k].lastSeen < cutoff)) :: m[k]
          invariant forall j :: 0 <= j < i ==> shards[j] == Swept(old(shards[j]), cutoff)
          invariant forall j :: i < j < SHARDS ==> shards[j] == old(shards[j])
          decreases todo
        {
          var k :| k in todo;
          if m[k].lastSeen < cutoff {
            shards[i] := shards[i] - {k};
          }
          todo := todo - {k};
        }
      }
    }
  }

  // ----- Forgetting is invisible -----

  /** Times never go back, and a sweep only forgets what was last seen before its own cutoff. */
  ghost predicate Ordered(evs: seq<Event>, start: real)
    decreases |evs|
  {
    evs == [] ||
    (start <= evs[0].now
     && (evs[0].call.Sweep? ==> evs[0].call.cutoff <= evs[0].now - TTL)
     && Ordered(evs[1..], evs[0].now))
  }

  /** The burst refills from empty within the TTL: for a call's limits, burst <= 10 * rpm. */
  ghost predicate RefillsWithinTtl(c: Call) {
    match c
    case Allow(_, _, rpm, burst) => rpm > 0 && burst > 0 ==> burst <= 10 * rpm
    case RetryAfter(_, rpm, burst) => rpm > 0 && burst > 0 ==> burst <= 10 * rpm
    case Tokens(_, rate, burst) => 0.0 <= rate && 0.0 <= burst <= TTL * rate
    case Sweep(_, _) => true
  }

  ghost predicate Sound(m: Shard, now: real) {
    forall k :: k in m ==> m[k].tokens >= 0.0 && m[k].lastSeen == m[k].lastRefill <= now
  }

  /** Every bucket the shards still hold is the reference's; those forgotten have been idle past the TTL. */
  ghost predicate Agree(h: Hash, shards: seq<Shard>, m: Shard, now: real) {
    && |shards| == SHARDS
    && Sound(m, now)
    && (forall k, i :: i == ShardOf(h, k) && k in shards[i] ==> k in m && shards[i][k] == m[k])
    && (forall k :: k in m && k !in shards[ShardOf(h, k)] ==> m[k].lastRefill + TTL < now)
  }

  // The arithmetic of refilling, apart from buckets and maps.

  lemma ScaleUp(x: real, y: real, rate: real)
    requires x <= y && rate >= 0.0
    ensures x * rate <= y * rate
  {
    assert (y - x) * rate >= 0.0;
  }

  lemma GrownFull(tokens: real, elapsed: real, rate: real, burst: real)
    requires tokens >= 0.0 && TTL <= elapsed && rate >= 0.0 && burst <= TTL * rate
    ensures Grown(tokens, elapsed, rate, burst) == burst
  {
    ScaleUp(TTL, elapsed, rate);
  }

  lemma GrownBounds(tokens: real, elapsed: real, rate: real, burst: real)
    requires tokens >= 0.0 && elapsed >= 0.0 && rate >= 0.0 && burst >= 0.0
    ensures 0.0 <= Grown(tokens, elapsed, rate, burst) <= burst
  {
    ScaleUp(0.0, elapsed, rate);
  }

  lemma GrownMonotone(tokens: real, elapsed: real, r: real, b: real, rate: real, burst: real)
    requires elapsed >= 0.0 && r <= rate && b <= burst
    ensures Grown(tokens, elapsed, r, b) <= Grown(tokens, elapsed, rate, burst)
  {
    ScaleUp(r, rate, elapsed);
  }

  lemma GrownAtOnce(tokens: real, elapsed: real, rate: real, burst: real)
    requires elapsed == 0.0
    ensures Grown(tokens, elapsed, rate, burst) == Min(tokens, burst)
  {
  }

  /** Refilling in two steps is refilling in one. */
  lemma GrownInSteps(tokens: real, first: real, more: real, rate: real, burst: real)
    requires more >= 0.0 && rate >= 0.0
    ensures Grown(tokens, first + more, rate, burst) == Grown(Grown(tokens, first, rate, burst), more, rate, burst)
    ensures Grown(tokens, first + more, rate, burst) <= Grown(tokens, first, rate, burst) + more * rate
  {
    ScaleUp(0.0, more, rate);
    assert (first + more) * rate == first * rate + more * rate;
  }

  /** A bucket idle for the TTL refills to the brim, so forgetting it changes nothing. */
  lemma IdleBucketIsFull(m: Shard, key: string, rate: real, burst: real, now: real)
    requires Sound(m, now) && key in m && m[key].lastRefill + TTL <= now
    requires rate >= 0.0 && burst <= TTL * rate
    ensures Refilled(m, key, rate, burst, now) == Bucket(burst, now, now)
  {
    GrownFull(m[key].tokens, now - m[key].lastRefill, rate, burst);
  }

  lemma LimitsRefillWithinTtl(c: Call)
    requires !c.Sweep? && !Unconfigured(c) && RefillsWithinTtl(c)
    ensures LimitsOf(c).0 >= 0.0 && 0.0 <= LimitsOf(c).1 <= TTL * LimitsOf(c).0
  {
  }

  lemma RefillIsSound(m: Shard, key: string, rate: real, burst: real, now: real)
    requires Sound(m, now) && rate >= 0.0 && burst >= 0.0
    ensures Refilled(m, key, rate, burst, now).tokens >= 0.0
  {
    if key in m {
      GrownBounds(m[key].tokens, now - m[key].lastRefill, rate, burst);
    }
  }

  lemma SameRefill(h: Hash, shards: seq<Shard>, m: Shard, key: string, rate: real, burst: real, now: real)
    requires Agree(h, shards, m, now) && rate >= 0.0 && 0.0 <= burst <= TTL * rate
    ensures Refilled(shards[ShardOf(h, key)], key, rate, burst, now) == Refilled(m, key, rate, burst, now)
    ensures Refilled(m, key, rate, burst, now).tokens >= 0.0
  {
    RefillIsSound(m, key, rate, burst, now);
    if key in m && key !in shards[ShardOf(h, key)] {
      IdleBucketIsFull(m, key, rate, burst, now);
    }
  }

  lemma TouchAgrees(h: Hash, shards: seq<Shard>, m: Shard, key: string, b: Bucket, now: real)
    requires Agree(h, shards, m, now) && b.tokens >= 0.0 && b.lastRefill == b.lastSeen == now
    ensures
      var i := ShardOf(h, key);
      Agree(h, shards[i := shards[i][key := b]], m[key := b], now)
  {
  }

  lemma SweepAgrees(h: Hash, shards: seq<Shard>, m: Shard, i: nat, cutoff: real, now: real)
    requires Agree(h, shards, m, now) && i < SHARDS && cutoff <= now - TTL
    ensures Agree(h, shards[i := Swept(shards[i], cutoff)], m, now)
  {
  }

  lemma StepAgrees(h: Hash, shards: seq<Shard>, m: Shard, last: real, e: Event)
    requires Agree(h, shards, m, last)
    requires last <= e.now && RefillsWithinTtl(e.call)
    requires e.call.Sweep? ==> e.call.cutoff <= e.now - TTL
    ensures Agree(h, ShardedStep(h, shards, e).0, Perform(m, e).0, e.now)
    ensures ShardedStep(h, shards, e).1 == Perform(m, e).1
  {
    assert Agree(h, shards, m, e.now);
    if e.call.Sweep? {
      if e.call.shard < SHARDS {
        SweepAgrees(h, shards, m, e.call.shard, e.call.cutoff, e.now);
      }
    } else {
      var i := ShardOf(h, e.call.key);
      assert shards[i := shards[i]] == shards;
      if !Unconfigured(e.call) {
        var (rate, burst) := LimitsOf(e.call);
        LimitsRefillWithinTtl(e.call);
        SameRefill(h, shards, m, e.call.key, rate, burst, e.now);
        TouchAgrees(h, shards, m, e.call.key, Serve(Refilled(m, e.call.key, rate, burst, e.now), e.call).0, e.now);
      }
    }
  }

  lemma {:induction false} RunsAgree(h: Hash, shards: seq<Shard>, m: Shard, last: real, evs: seq<Event>)
    requires Agree(h, shards, m, last) && Ordered(evs, last)
    requires forall i :: 0 <= i < |evs| ==> RefillsWithinTtl(evs[i].call)
    ensures RunSharded(h, shards, evs) == RunReference(m, evs)
    decreases |evs|
  {
    if evs != [] {
      StepAgrees(h, shards, m, last, evs[0]);
      RunsAgree(h, ShardedStep(h, shards, evs[0]).0, Perform(m, evs[0]).0, evs[0].now, evs[1..]);
    }
  }

  /** For any hash, sharding and forgetting give every call the answer of the map that never forgets. */
  lemma ForgettingIsInvisible(h: Hash, evs: seq<Event>, start: real)
    requires Ordered(evs, start)
    requires forall i :: 0 <= i < |evs| ==> RefillsWithinTtl(evs[i].call)
    ensures RunSharded(h, EmptyShards(), evs) == RunReference(map[], evs)
  {
    RunsAgree(h, EmptyShards(), map[], start, evs);
  }

  // ----- The TTL condition is exact -----

  ghost predicate FixedLimits(evs: seq<Event>, rpm: int, burst: int) {
    forall i :: 0 <= i < |evs| ==>
      match evs[i].call
      case Allow(_, _, r, b) => r == rpm && b == burst
      case RetryAfter(_, r, b) => r == rpm && b == burst
      case Tokens(_, r, b) => r == Rate(rpm) && b == burst as real
      case Sweep(_, _) => true
  }

  /** Empty the bucket, let cleanup forget it just after the TTL, and ask for the whole burst again. */
  function Forgotten(h: Hash, rpm: int, burst: int): seq<Event>
    requires rpm > 0
  {
    var t := 600.0 + 30.0 * (burst - 10 * rpm) as real / rpm as real;
    [Event(0.0, Allow("k", burst, rpm, burst)),
     Event(t, Sweep(ShardOf(h, "k"), t - TTL)),
     Event(t, Allow("k", burst, rpm, burst))]
  }

  lemma ForgottenTime(rpm: int, burst: int)
    requires rpm > 0 && burst > 10 * rpm
    ensures
      var t := 600.0 + 30.0 * (burst - 10 * rpm) as real / rpm as real;
      t > 600.0 && t * Rate(rpm) < burst as real
  {
    var gap := (burst - 10 * rpm) as real;
    var r := rpm as real;
    var t := 600.0 + 30.0 * gap / r;
    assert 30.0 * gap / r > 0.0;
    calc {
      t * Rate(rpm);
      t * (r / 60.0);
      600.0 * (r / 60.0) + (30.0 * gap / r) * (r / 60.0);
      10.0 * r + gap / 2.0;
    }
  }

  lemma ForgottenDiffers(h: Hash, rpm: int, burst: int)
    requires rpm > 0 && burst > 10 * rpm
    ensures Ordered(Forgotten(h, rpm, burst), 0.0) && FixedLimits(Forgotten(h, rpm, burst), rpm, burst)
    ensures RunSharded(h, EmptyShards(), Forgotten(h, rpm, burst))[2] == Decision(true)
    ensures RunReference(map[], Forgotten(h, rpm, burst))[2] == Decision(false)
  {
    ForgottenTime(rpm, burst);
    var evs := Forgotten(h, rpm, burst);
    var t := evs[1].now;
    var m1 := Perform(map[], evs[0]).0;
    assert m1 == map["k" := Bucket(0.0, 0.0, 0.0)];
    assert evs[1..][0] == evs[1] && evs[1..][1..] == [evs[2]];
    assert Ordered([evs[2]], t) && Ordered(evs[1..], 0.0);
    var i := ShardOf(h, "k");
    var s1 := ShardedStep(h, EmptyShards(), evs[0]).0;
    assert s1[i] == m1;
    var s2 := ShardedStep(h, s1, evs[1]).0;
    assert s2[i] == map[];
    assert RunSharded(h, s1, evs[1..]) == [Silent] + RunSharded(h, s2, [evs[2]]);
    assert RunReference(m1, evs[1..]) == [Silent] + RunReference(m1, [evs[2]]);
    assert Refilled(m1, "k", Rate(rpm), burst as real, t).tokens == Grown(0.0, t - 0.0, Rate(rpm), burst as real);
  }

  /** With one fixed limit, forgetting is invisible in every run exactly when burst <= 10 * rpm. */
  lemma TtlConditionIsExact(h: Hash, rpm: int, burst: int)
    requires rpm > 0 && burst > 0
    ensures burst <= 10 * rpm <==>
      forall evs :: Ordered(evs, 0.0) && FixedLimits(evs, rpm, burst) ==>
        RunSharded(h, EmptyShards(), evs) == RunReference(map[], evs)
  {
    if burst <= 10 * rpm {
      LimitsRefillWithinTtl(Allow("", 1, rpm, burst));
      forall evs: seq<Event> | Ordered(evs, 0.0) && FixedLimits(evs, rpm, burst)
        ensures RunSharded(h, EmptyShards(), evs) == RunReference(map[], evs)
      {
        ForgettingIsInvisible(h, evs, 0.0);
      }
    } else {
      ForgottenDiffers(h, rpm, burst);
    }
  }

  // ----- How long to wait -----

  lemma WaitScales(missing: real, rate: real, delay: real)
    requires rate > 0.0
    ensures delay >= missing / rate <==> delay * rate >= missing
  {
    var wait := missing / rate;
    assert wait * rate == missing;
    if delay >= wait {
      ScaleUp(wait, delay, rate);
    } else {
      assert (wait - delay) * rate > 0.0;
    }
  }

  /** One token is there after `delay` exactly when the missing part has refilled. */
  lemma OneTokenAfter(tokens: real, rate: real, burst: real, delay: real)
    requires rate > 0.0 && burst >= 1.0 && delay >= 0.0
    ensures Grown(Min(tokens, burst), delay, rate, burst) >= 1.0 <==>
            delay >= if tokens >= 1.0 then 0.0 else (1.0 - tokens) / rate
  {
    ScaleUp(0.0, delay, rate);
    WaitScales(1.0 - tokens, rate, delay);
  }

  /**
    The waiting time is exact: with no other call on the key, a request for one
    unit succeeds after a delay if and only if the delay is at least that long.
   */
  lemma RetryAfterIsExact(m: Shard, key: string, rpm: int, burst: int, now: real, delay: real)
    requires rpm > 0 && burst > 0 && delay >= 0.0
    ensures
      var (m', a) := Perform(m, Event(now, RetryAfter(key, rpm, burst)));
      && a.Wait? && a.seconds >= 0.0
      && Perform(m', Event(now + delay, Allow(key, 1, rpm, burst))).1 == Decision(delay >= a.seconds)
  {
    var b := Refilled(m, key, Rate(rpm), burst as real, now);
    var (m', a) := Perform(m, Event(now, RetryAfter(key, rpm, burst)));
    assert m'[key] == b;
    assert b.tokens == Min(b.tokens, burst as real);
    OneTokenAfter(b.tokens, Rate(rpm), burst as real, delay);
    assert now + delay - b.lastRefill == delay;
    if b.tokens < 1.0 {
      assert (1.0 - b.tokens) / Rate(rpm) >= 0.0;
    }
  }

  /** The level read is exact: with no other call in between, a request is granted if and only if it fits in it. */
  lemma TokensIsExact(m: Shard, key: string, n: int, rpm: int, burst: int, now: real)
    requires rpm > 0 && burst > 0
    ensures
      var (m', a) := Perform(m, Event(now, Tokens(key, Rate(rpm), burst as real)));
      && a.Level? && a.tokens <= burst as real
      && Perform(m', Event(now, Allow(key, n, rpm, burst))).1 == Decision((if n > 0 then n else 1) as real <= a.tokens)
  {
    var b := Refilled(m, key, Rate(rpm), burst as real, now);
    var (m', a) := Perform(m, Event(now, Tokens(key, Rate(rpm), burst as real)));
    assert m'[key] == b;
    GrownAtOnce(b.tokens, now - b.lastRefill, Rate(rpm), burst as real);
  }

  // ----- What one key can be granted in a window -----

  /** Units granted to `key` by the calls of the run that fall in [s, t]. */
  function Granted(evs: seq<Event>, answers: seq<Answer>, key: string, s: real, t: real): int
    requires |evs| == |answers|
    decreases |evs|
  {
    if evs == [] then 0
    else
      (if evs[0].call.Allow? && evs[0].call.key == key && s <= evs[0].now <= t && answers[0] == Decision(true)
       then Units(evs[0].call.n) else 0)
      + Granted(evs[1..], answers[1..], key, s, t)
  }

  /** `burst` and `rate` bound the limits of the calls made on `key`. */
  ghost predicate Bounded(c: Call, key: string, burst: real, rate: real) {
    !c.Sweep? && c.key == key && !Unconfigured(c) ==> LimitsOf(c).0 <= rate && LimitsOf(c).1 <= burst
  }

  /** The most `key` could hold at time `at`. */
  function Potential(m: Shard, key: string, burst: real, rate: real, at: real): real {
    if key !in m then burst else Grown(m[key].tokens, at - m[key].lastRefill, rate, burst)
  }

  lemma RefillWithinPotential(m: Shard, key: string, r: real, b: real, burst: real, rate: real, now: real)
    requires Sound(m, now) && 0.0 <= r <= rate && b <= burst
    ensures Refilled(m, key, r, b, now).tokens <= Potential(m, key, burst, rate, now)
  {
    if key in m {
      GrownMonotone(m[key].tokens, now - m[key].lastRefill, r, b, rate, burst);
    }
  }

  lemma PotentialIsNonnegative(m: Shard, key: string, burst: real, rate: real, at: real)
    requires Sound(m, at) && rate >= 0.0 && burst >= 0.0
    ensures 0.0 <= Potential(m, key, burst, rate, at) <= burst
  {
    if key in m {
      GrownBounds(m[key].tokens, at - m[key].lastRefill, rate, burst);
    }
  }

  lemma GrownBetween(tokens: real, from: real, at: real, now: real, rate: real, burst: real)
    requires at <= now && rate >= 0.0
    ensures Grown(tokens, now - from, rate, burst) <= Grown(tokens, at - from, rate, burst) + (now - at) * rate
  {
    GrownInSteps(tokens, at - from, now - at, rate, burst);
    assert (at - from) + (now - at) == now - from;
  }

  lemma PotentialGrows(m: Shard, key: string, burst: real, rate: real, at: real, now: real)
    requires at <= now && rate >= 0.0
    ensures Potential(m, key, burst, rate, now) <= Potential(m, key, burst, rate, at) + (now - at) * rate
  {
    ScaleUp(0.0, now - at, rate);
    assert 0.0 <= (now - at) * rate;
    if key in m {
      var b := m[key];
      GrownBetween(b.tokens, b.lastRefill, at, now, rate, burst);
    }
  }

  lemma SpendWithinPotential(
      m: Shard, k: string, r: real, b: real, spend: real, now: real, key: string, burst: real, rate: real)
    requires Sound(m, now) && 0.0 <= r && 0.0 <= b
    requires k == key ==> r <= rate && b <= burst
    requires 0.0 <= spend <= Refilled(m, k, r, b, now).tokens
    ensures
      var full := Refilled(m, k, r, b, now);
      var m' := m[k := full.(tokens := full.tokens - spend)];
      && Sound(m', now)
      && Potential(m', key, burst, rate, now) + (if k == key then spend else 0.0) <= Potential(m, key, burst, rate, now)
  {
    RefillIsSound(m, k, r, b, now);
    if k == key {
      RefillWithinPotential(m, key, r, b, burst, rate, now);
      GrownAtOnce(Refilled(m, k, r, b, now).tokens - spend, now - now, rate, burst);
    }
  }

  lemma GrantSpendsPotential(m: Shard, e: Event, key: string, burst: real, rate: real)
    requires Sound(m, e.now) && RefillsWithinTtl(e.call) && Bounded(e.call, key, burst, rate)
    ensures
      var (m', a) := Perform(m, e);
      && Sound(m', e.now)
      && Potential(m', key, burst, rate, e.now)
         + (if e.call.Allow? && e.call.key == key && a == Decision(true) then Units(e.call.n) as real else 0.0)
         <= Potential(m, key, burst, rate, e.now)
  {
    if !e.call.Sweep? && !Unconfigured(e.call) {
      var (r, b) := LimitsOf(e.call);
      LimitsRefillWithinTtl(e.call);
      RefillIsSound(m, e.call.key, r, b, e.now);
      var full := Refilled(m, e.call.key, r, b, e.now);
      SpendWithinPotential(m, e.call.key, r, b, full.tokens - Serve(full, e.call).0.tokens, e.now, key, burst, rate);
    }
  }

  lemma {:induction false} NothingAfterWindow(m: Shard, evs: seq<Event>, key: string, s: real, t: real, last: real)
    requires Ordered(evs, last) && t < last
    ensures Granted(evs, RunReference(m, evs), key, s, t) == 0
    decreases |evs|
  {
    if evs != [] {
      NothingAfterWindow(Perform(m, evs[0]).0, evs[1..], key, s, t, evs[0].now);
    }
  }

  lemma Telescope(rest: real, spent: real, after: real, before: real, first: real, at: real, now: real, t: real, rate: real)
    requires rest <= after + (t - now) * rate
    requires spent + after <= before <= first + (now - at) * rate
    ensures spent + rest <= first + (t - at) * rate
  {
  }

  lemma ShrinkWindow(granted: real, held: real, burst: real, s: real, at: real, t: real, rate: real)
    requires granted <= held + (t - at) * rate && held <= burst && s <= at && rate >= 0.0
    ensures granted <= burst + (t - s) * rate
  {
    ScaleUp(t - at, t - s, rate);
  }

  lemma SpentStep(m: Shard, evs: seq<Event>, key: string, s: real, t: real, burst: real, rate: real)
    requires evs != [] && Sound(m, evs[0].now)
    requires RefillsWithinTtl(evs[0].call) && Bounded(evs[0].call, key, burst, rate)
    ensures
      var (m', now) := (Perform(m, evs[0]).0, evs[0].now);
      && Sound(m', now)
      && (Granted(evs, RunReference(m, evs), key, s, t) - Granted(evs[1..], RunReference(m', evs[1..]), key, s, t)) as real
         + Potential(m', key, burst, rate, now) <= Potential(m, key, burst, rate, now)
  {
    assert RunReference(m, evs)[1..] == RunReference(Perform(m, evs[0]).0, evs[1..]);
    GrantSpendsPotential(m, evs[0], key, burst, rate);
  }

  lemma {:induction false} GrantedInside(
      m: Shard, evs: seq<Event>, key: string, s: real, t: real, burst: real, rate: real, at: real)
    requires Ordered(evs, at) && Sound(m, at) && s <= at <= t
    requires rate >= 0.0 && burst >= 0.0
    requires forall i :: 0 <= i < |evs| ==> RefillsWithinTtl(evs[i].call) && Bounded(evs[i].call, key, burst, rate)
    ensures Granted(evs, RunReference(m, evs), key, s, t) as real
         <= Potential(m, key, burst, rate, at) + (t - at) * rate
    decreases |evs|
  {
    if evs == [] || t < evs[0].now {
      PotentialIsNonnegative(m, key, burst, rate, at);
      ShrinkWindow(0.0, 0.0, Potential(m, key, burst, rate, at), at, t, t, rate);
      if evs != [] {
        assert Ordered(evs, evs[0].now);
        NothingAfterWindow(m, evs, key, s, t, evs[0].now);
      }
    } else {
      var now, m' := evs[0].now, Perform(m, evs[0]).0;
      SpentStep(m, evs, key, s, t, burst, rate);
      GrantedInside(m', evs[1..], key, s, t, burst, rate, now);
      PotentialGrows(m, key, burst, rate, at, now);
      var rest := Granted(evs[1..], RunReference(m', evs[1..]), key, s, t);
      Telescope(rest as real, (Granted(evs, RunReference(m, evs), key, s, t) - rest) as real,
                Potential(m', key, burst, rate, now), Potential(m, key, burst, rate, now),
                Potential(m, key, burst, rate, at), at, now, t, rate);
    }
  }

  lemma {:induction false} GrantedFrom(
      m: Shard, evs: seq<Event>, key: string, s: real, t: real, burst: real, rate: real, last: real)
    requires Ordered(evs, last) && Sound(m, last) && s <= t
    requires rate >= 0.0 && burst >= 0.0
    requires forall i :: 0 <= i < |evs| ==> RefillsWithinTtl(evs[i].call) && Bounded(evs[i].call, key, burst, rate)
    ensures Granted(evs, RunReference(m, evs), key, s, t) as real <= burst + (t - s) * rate
    decreases |evs|
  {
    if evs == [] || t < evs[0].now {
      ShrinkWindow(0.0, 0.0, burst, s, t, t, rate);
      if evs != [] {
        assert Ordered(evs, evs[0].now);
        NothingAfterWindow(m, evs, key, s, t, evs[0].now);
      }
    } else if evs[0].now < s {
      SpentStep(m, evs, key, s, t, burst, rate);
      assert RunReference(m, evs)[1..] == RunReference(Perform(m, evs[0]).0, evs[1..]);
      GrantedFrom(Perform(m, evs[0]).0, evs[1..], key, s, t, burst, rate, evs[0].now);
    } else {
      var at := if last <= s then s else last;
      assert Ordered(evs, at);
      GrantedInside(m, evs, key, s, t, burst, rate, at);
      PotentialIsNonnegative(m, key, burst, rate, at);
      ShrinkWindow(Granted(evs, RunReference(m, evs), key, s, t) as real,
                   Potential(m, key, burst, rate, at), burst, s, at, t, rate);
    }
  }

  // ----- Other keys do not matter -----

  predicate Concerns(c: Call, key: string) {
    c.Sweep? || c.key == key
  }

  /** The calls on `key`, and the sweeps. */
  function Only(evs: seq<Event>, key: string): seq<Event> {
    if evs == [] then []
    else if Concerns(evs[0].call, key) then [evs[0]] + Only(evs[1..], key)
    else Only(evs[1..], key)
  }

  /** Both limiters hold the same bucket of `key`, or none. */
  ghost predicate SameAt(h: Hash, shards: seq<Shard>, others: seq<Shard>, key: string) {
    && |shards| == |others| == SHARDS
    && var (m, n) := (shards[ShardOf(h, key)], others[ShardOf(h, key)]);
    (key in m <==> key in n) && (key in m ==> m[key] == n[key])
  }

  lemma ConcernedStep(h: Hash, shards: seq<Shard>, others: seq<Shard>, key: string, e: Event)
    requires SameAt(h, shards, others, key) && Concerns(e.call, key)
    ensures SameAt(h, ShardedStep(h, shards, e).0, ShardedStep(h, others, e).0, key)
    ensures ShardedStep(h, shards, e).1 == ShardedStep(h, others, e).1
  {
  }

  lemma UnconcernedStep(h: Hash, shards: seq<Shard>, others: seq<Shard>, key: string, e: Event)
    requires SameAt(h, shards, others, key) && !Concerns(e.call, key)
    ensures SameAt(h, ShardedStep(h, shards, e).0, others, key)
  {
  }

  lemma {:induction false} OnlyGrants(
      h: Hash, shards: seq<Shard>, others: seq<Shard>, evs: seq<Event>, key: string, s: real, t: real)
    requires SameAt(h, shards, others, key)
    ensures Granted(evs, RunSharded(h, shards, evs), key, s, t)
         == Granted(Only(evs, key), RunSharded(h, others, Only(evs, key)), key, s, t)
    decreases |evs|
  {
    if evs != [] {
      var e, rest := evs[0], Only(evs[1..], key);
      var shards' := ShardedStep(h, shards, e).0;
      assert RunSharded(h, shards, evs)[1..] == RunSharded(h, shards', evs[1..]);
      if Concerns(e.call, key) {
        ConcernedStep(h, shards, others, key, e);
        var others' := ShardedStep(h, others, e).0;
        OnlyGrants(h, shards', others', evs[1..], key, s, t);
        assert Only(evs, key)[1..] == rest;
        assert RunSharded(h, others, Only(evs, key))[1..] == RunSharded(h, others', rest);
      } else {
        UnconcernedStep(h, shards, others, key, e);
        OnlyGrants(h, shards', others, evs[1..], key, s, t);
      }
    }
  }

  lemma {:induction false} OnlyOrdered(evs: seq<Event>, key: string, start: real)
    requires Ordered(evs, start)
    ensures Ordered(Only(evs, key), start)
    decreases |evs|
  {
    if evs != [] {
      OnlyOrdered(evs[1..], key, evs[0].now);
      var rest := Only(evs[1..], key);
      if Concerns(evs[0].call, key) {
        assert ([evs[0]] + rest)[1..] == rest;
      }
    }
  }

  lemma {:induction false} OnlyKeeps(evs: seq<Event>, key: string, burst: real, rate: real)
    requires forall i :: 0 <= i < |evs| ==> WithinLimits(evs[i].call, key, burst, rate)
    ensures forall i :: 0 <= i < |Only(evs, key)| ==>
      RefillsWithinTtl(Only(evs, key)[i].call) && Bounded(Only(evs, key)[i].call, key, burst, rate)
  {
    if evs != [] {
      OnlyKeeps(evs[1..], key, burst, rate);
      assert WithinLimits(evs[0].call, key, burst, rate);
    }
  }

  /** A call on `key` has limits that refill within the TTL and are bounded by `burst` and `rate`. */
  ghost predicate WithinLimits(c: Call, key: string, burst: real, rate: real) {
    !c.Sweep? && c.key == key ==> RefillsWithinTtl(c) && Bounded(c, key, burst, rate)
  }

  /**
    Over any window the forgetful limiter grants a key at most the largest burst
    plus what the largest rate refills, even when limits change call by call and
    whatever the limits of other keys are.
   */
  lemma WindowGrantBound(h: Hash, evs: seq<Event>, start: real, key: string, s: real, t: real, burst: real, rate: real)
    requires Ordered(evs, start) && s <= t && burst >= 0.0 && rate >= 0.0
    requires forall i :: 0 <= i < |evs| ==> WithinLimits(evs[i].call, key, burst, rate)
    ensures Granted(evs, RunSharded(h, EmptyShards(), evs), key, s, t) as real <= burst + (t - s) * rate
  {
    var own := Only(evs, key);
    OnlyGrants(h, EmptyShards(), EmptyShards(), evs, key, s, t);
    OnlyOrdered(evs, key, start);
    OnlyKeeps(evs, key, burst, rate);
    ForgettingIsInvisible(h, own, start);
    GrantedFrom(map[], own, key, s, t, burst, rate, start);
  }

  // ----- The bound needs its condition -----

  /** All runs with one fixed limit keep every key within the bound in every window. */
  ghost predicate AlwaysWithinBound(h: Hash, rpm: int, burst: int) {
    forall evs: seq<Event>, key: string, s: real, t: real ::
      Ordered(evs, 0.0) && FixedLimits(evs, rpm, burst) && s <= t ==>
        GrantsWithin(h, evs, key, s, t, rpm, burst)
  }

  ghost predicate GrantsWithin(h: Hash, evs: seq<Event>, key: string, s: real, t: real, rpm: int, burst: int) {
    Under(Granted(evs, RunSharded(h, EmptyShards(), evs), key, s, t), burst as real, t - s, Rate(rpm))
  }

  predicate Under(granted: int, burst: real, span: real, rate: real) {
    granted as real <= burst + span * rate
  }

  lemma WindowGrantUnder(h: Hash, evs: seq<Event>, key: string, s: real, t: real, burst: real, rate: real)
    requires Ordered(evs, 0.0) && s <= t && burst >= 0.0 && rate >= 0.0
    requires forall i :: 0 <= i < |evs| ==> WithinLimits(evs[i].call, key, burst, rate)
    ensures Under(Granted(evs, RunSharded(h, EmptyShards(), evs), key, s, t), burst, t - s, rate)
  {
    WindowGrantBound(h, evs, 0.0, key, s, t, burst, rate);
  }

  /** Emptied, forgotten and emptied again: twice the burst in a window that refills less than one. */
  lemma ForgottenGrantsTwice(h: Hash, rpm: int, burst: int)
    requires rpm > 0 && burst > 10 * rpm
    ensures
      var evs := Forgotten(h, rpm, burst);
      Granted(evs, RunSharded(h, EmptyShards(), evs), "k", 0.0, evs[2].now) == 2 * burst
  {
    ForgottenTime(rpm, burst);
    ForgottenDiffers(h, rpm, burst);
    var evs := Forgotten(h, rpm, burst);
    var answers := RunSharded(h, EmptyShards(), evs);
    var t := evs[2].now;
    assert answers[0] == Decision(true);
    assert evs[1..][1..] == [evs[2]] && answers[1..][1..] == [answers[2]];
    assert Granted([evs[2]], [answers[2]], "k", 0.0, t) == burst + Granted([], [], "k", 0.0, t);
    assert Granted(evs[1..], answers[1..], "k", 0.0, t) == Granted([evs[2]], [answers[2]], "k", 0.0, t);
  }

  lemma ForgottenExceedsBound(h: Hash, rpm: int, burst: int)
    requires rpm > 0 && burst > 10 * rpm
    ensures !AlwaysWithinBound(h, rpm, burst)
  {
    ForgottenTime(rpm, burst);
    ForgottenDiffers(h, rpm, burst);
    ForgottenGrantsTwice(h, rpm, burst);
    var evs := Forgotten(h, rpm, burst);
    assert !GrantsWithin(h, evs, "k", 0.0, evs[2].now, rpm, burst);
  }

  lemma FixedLimitsWithin(evs: seq<Event>, key: string, rpm: int, burst: int)
    requires 0 < burst <= 10 * rpm && FixedLimits(evs, rpm, burst)
    ensures Rate(rpm) >= 0.0
    ensures forall i :: 0 <= i < |evs| ==> WithinLimits(evs[i].call, key, burst as real, Rate(rpm))
  {
    LimitsRefillWithinTtl(Allow("", 1, rpm, burst));
  }

  lemma FixedLimitGrants(h: Hash, evs: seq<Event>, key: string, s: real, t: real, rpm: int, burst: int)
    requires 0 < burst <= 10 * rpm && FixedLimits(evs, rpm, burst) && Ordered(evs, 0.0) && s <= t
    ensures GrantsWithin(h, evs, key, s, t, rpm, burst)
  {
    FixedLimitsWithin(evs, key, rpm, burst);
    WindowGrantUnder(h, evs, key, s, t, burst as real, Rate(rpm));
  }

  lemma ShortRefillsStayWithin(h: Hash, rpm: int, burst: int)
    requires 0 < burst <= 10 * rpm
    ensures AlwaysWithinBound(h, rpm, burst)
  {
    forall evs: seq<Event>, key: string, s: real, t: real |
        Ordered(evs, 0.0) && FixedLimits(evs, rpm, burst) && s <= t
      ensures GrantsWithin(h, evs, key, s, t, rpm, burst)
    {
      FixedLimitGrants(h, evs, key, s, t, rpm, burst);
    }
  }

  /** With one fixed limit the bound holds in all runs and windows exactly when burst <= 10 * rpm. */
  lemma WindowConditionIsExact(h: Hash, rpm: int, burst: int)
    requires rpm > 0 && burst > 0
    ensures AlwaysWithinBound(h, rpm, burst) <==> burst <= 10 * rpm
  {
    if burst <= 10 * rpm {
      ShortRefillsStayWithin(h, rpm, burst);
    } else {
      ForgottenExceedsBound(h, rpm, burst);
    }
  }
}
