/**
  The per-provider circuit breaker (internal/resilience/circuit.go).

  `Breaker` is the object the gateway shares between requests; `Snapshot` is its
  abstract value, and the functions on it are what the methods are proved
  against.  Times are nanoseconds on one clock and are passed in.
 */
module CircuitBreaker {

  datatype State = Closed | Open | HalfOpen

  datatype Config = Config(failureThreshold: int, openTimeout: int, halfOpenMax: int) {
    predicate Valid() {
      failureThreshold > 0 && openTimeout > 0 && halfOpenMax > 0
    }
  }

  datatype Snapshot = Snapshot(
    cfg: Config,
    state: State,
    failures: int,
    successes: int,
    lastOpenedAt: int,
    halfOpenPend: int)

  const DEFAULT_CONFIG := Config(5, 30_000_000_000, 1)

  /** Non-positive settings fall back to the defaults when a breaker is made. */
  function Normalize(cfg: Config): (r: Config)
    ensures r.Valid()
    ensures cfg.Valid() ==> r == cfg
    ensures cfg.failureThreshold <= 0 ==> r.failureThreshold == 5
    ensures cfg.openTimeout <= 0 ==> r.openTimeout == 30_000_000_000
    ensures cfg.halfOpenMax <= 0 ==> r.halfOpenMax == 1
  {
    Config(if cfg.failureThreshold <= 0 then DEFAULT_CONFIG.failureThreshold else cfg.failureThreshold,
           if cfg.openTimeout <= 0 then DEFAULT_CONFIG.openTimeout else cfg.openTimeout,
           if cfg.halfOpenMax <= 0 then DEFAULT_CONFIG.halfOpenMax else cfg.halfOpenMax)
  }

  function Fresh(cfg: Config): Snapshot {
    Snapshot(Normalize(cfg), Closed, 0, 0, 0, 0)
  }

  predicate TimedOut(b: Snapshot, now: int) {
    now - b.lastOpenedAt >= b.cfg.openTimeout
  }

  predicate Admits(b: Snapshot, now: int) {
    match b.state
    case Closed => true
    case Open => TimedOut(b, now)
    case HalfOpen => b.halfOpenPend < b.cfg.halfOpenMax
  }

  function AfterAllow(b: Snapshot, now: int): Snapshot {
    if !Admits(b, now) || b.state.Closed? then b
    else if b.state.Open? then b.(state := HalfOpen, halfOpenPend := 1, successes := 0)
    else b.(halfOpenPend := b.halfOpenPend + 1)
  }

  function ReleaseSlot(pend: int): int {
    if pend - 1 < 0 then 0 else pend - 1
  }

  function AfterSuccess(b: Snapshot): Snapshot {
    match b.state
    case Closed => b.(failures := 0)
    case Open => b
    case HalfOpen =>
      var b' := b.(halfOpenPend := ReleaseSlot(b.halfOpenPend));
      if b.successes + 1 >= b.cfg.halfOpenMax
      then b'.(state := Closed, failures := 0, successes := 0)
      else b'.(successes := b.successes + 1)
  }

  function AfterFailure(b: Snapshot, now: int): Snapshot {
    match b.state
    case Open => b
    case Closed =>
      var b' := b.(failures := b.failures + 1);
      if b'.failures >= b.cfg.failureThreshold then b'.(state := Open, lastOpenedAt := now) else b'
    case HalfOpen =>
      b.(state := Open, lastOpenedAt := now, halfOpenPend := ReleaseSlot(b.halfOpenPend), successes := 0)
  }

  /** Reading the state moves an open breaker whose timeout has passed to half-open. */
  function AfterRead(b: Snapshot, now: int): Snapshot {
    if b.state.Open? && TimedOut(b, now)
    then b.(state := HalfOpen, halfOpenPend := 0, successes := 0)
    else b
  }

  function Reconfigured(b: Snapshot, cfg: Config): Snapshot {
    b.(cfg := Config(if cfg.failureThreshold > 0 then cfg.failureThreshold else b.cfg.failureThreshold,
                     if cfg.openTimeout > 0 then cfg.openTimeout else b.cfg.openTimeout,
                     if cfg.halfOpenMax > 0 then cfg.halfOpenMax else b.cfg.halfOpenMax))
  }

  class Breaker {
    var cfg: Config
    var state: State
    var failures: int
    var successes: int
    var lastOpenedAt: int
    var halfOpenPend: int

    ghost function View(): Snapshot
      reads this
    {
      Snapshot(cfg, state, failures, successes, lastOpenedAt, halfOpenPend)
    }

    constructor (cfg: Config)
      ensures View() == Fresh(cfg)
    {
      var c := cfg;
      if c.failureThreshold <= 0 {
        c := c.(failureThreshold := 5);
      }
      if c.openTimeout <= 0 {
        c := c.(openTimeout := 30_000_000_000);
      }
      if c.halfOpenMax <= 0 {
        c := c.(halfOpenMax := 1);
      }
      this.cfg := c;
      state := Closed;
      failures, successes, lastOpenedAt, halfOpenPend := 0, 0, 0, 0;
    }

    method Allow(now: int) returns (ok: bool)
      modifies this
      ensures ok == Admits(old(View()), now)
      ensures View() == AfterAllow(old(View()), now)
    {
      match state {
        case Closed =>
          return true;
        case Open =>
          if now - lastOpenedAt >= cfg.openTimeout {
            state := HalfOpen;
            halfOpenPend := 1;
            successes := 0;
            return true;
          }
          return false;
        case HalfOpen =>
          if halfOpenPend >= cfg.halfOpenMax {
            return false;
          }
          halfOpenPend := halfOpenPend + 1;
          return true;
      }
    }

    method RecordSuccess()
      modifies this
      ensures View() == AfterSuccess(old(View()))
    {
      match state {
        case Closed =>
          failures := 0;
        case HalfOpen =>
          successes := successes + 1;
          if successes >= cfg.halfOpenMax {
            state := Closed;
            failures := 0;
            successes := 0;
          }
          halfOpenPend := halfOpenPend - 1;
          if halfOpenPend < 0 {
            halfOpenPend := 0;
          }
        case Open =>
      }
    }

    method RecordFailure(now: int)
      modifies this
      ensures View() == AfterFailure(old(View()), now)
    {
      match state {
        case Closed =>
          failures := failures + 1;
          if failures >= cfg.failureThreshold {
            state := Open;
            lastOpenedAt := now;
          }
        case HalfOpen =>
          state := Open;
          lastOpenedAt := now;
          halfOpenPend := halfOpenPend - 1;
          if halfOpenPend < 0 {
            halfOpenPend := 0;
          }
          successes := 0;
        case Open =>
      }
    }

    method ReadState(now: int) returns (s: State)
      modifies this
      ensures View() == AfterRead(old(View()), now) && s == state
    {
      if state == Open && now - lastOpenedAt >= cfg.openTimeout {
        state := HalfOpen;
        halfOpenPend := 0;
        successes := 0;
      }
      return state;
    }

    method UpdateConfig(c: Config)
      modifies this`cfg
      ensures View() == Reconfigured(old(View()), c)
      ensures cfg.failureThreshold == if c.failureThreshold > 0 then c.failureThreshold else old(cfg.failureThreshold)
      ensures cfg.openTimeout == if c.openTimeout > 0 then c.openTimeout else old(cfg.openTimeout)
      ensures cfg.halfOpenMax == if c.halfOpenMax > 0 then c.halfOpenMax else old(cfg.halfOpenMax)
    {
      if c.failureThreshold > 0 {
        cfg := cfg.(failureThreshold := c.failureThreshold);
      }
      if c.openTimeout > 0 {
        cfg := cfg.(openTimeout := c.openTimeout);
      }
      if c.halfOpenMax > 0 {
        cfg := cfg.(halfOpenMax := c.halfOpenMax);
      }
    }
  }

  // ----- Every run of one breaker, late results included -----

  datatype Event =
    | Allow(now: int)
    | Success
    | Failure(now: int)
    | Read(now: int)

  function Apply(b: Snapshot, e: Event): Snapshot {
    match e
    case Allow(now) => AfterAllow(b, now)
    case Success => AfterSuccess(b)
    case Failure(now) => AfterFailure(b, now)
    case Read(now) => AfterRead(b, now)
  }

  /**
    A breaker together with what an outside observer has seen: the results
    recorded while closed since it last closed (`true` for a success), the calls
    admitted and the successes recorded in the current or most recent half-open
    episode, and when a failure last opened it.
   */
  datatype Tracker = Tracker(b: Snapshot, since: seq<bool>, episode: nat, wins: nat, openedAt: int)

  function Start(cfg: Config): Tracker {
    Tracker(Fresh(cfg), [], 0, 0, 0)
  }

  function Observe(t: Tracker, e: Event): Tracker {
    var b' := Apply(t.b, e);
    var since' :=
      if t.b.state.Closed? then
        if e.Success? then t.since + [true] else if e.Failure? then t.since + [false] else t.since
      else if b'.state.Closed? then [] else t.since;
    var episode' :=
      if !t.b.state.HalfOpen? && b'.state.HalfOpen? then (if e.Allow? then 1 else 0)
      else if t.b.state.HalfOpen? && e.Allow? && Admits(t.b, e.now) then t.episode + 1
      else t.episode;
    var wins' :=
      if !t.b.state.HalfOpen? && b'.state.HalfOpen? then 0
      else if t.b.state.HalfOpen? && e.Success? then t.wins + 1
      else t.wins;
    var openedAt' := if !t.b.state.Open? && b'.state.Open? && e.Failure? then e.now else t.openedAt;
    Tracker(b', since', episode', wins', openedAt')
  }

  function Track(t: Tracker, evs: seq<Event>): Tracker
    decreases |evs|
  {
    if evs == [] then t else Track(Observe(t, evs[0]), evs[1..])
  }

  /** The last `k` results are all failures. */
  predicate LastAllFailures(results: seq<bool>, k: int) {
    0 <= k <= |results| && forall i :: |results| - k <= i < |results| ==> !results[i]
  }

  function TrailingFailures(results: seq<bool>): nat {
    if results == [] || results[|results| - 1] then 0
    else 1 + TrailingFailures(results[..|results| - 1])
  }

  lemma {:induction false} TrailingFailuresMeaning(results: seq<bool>, k: nat)
    ensures LastAllFailures(results, k) <==> k <= TrailingFailures(results)
  {
    if results != [] && k > 0 {
      var front := results[..|results| - 1];
      TrailingFailuresMeaning(front, k - 1);
      if LastAllFailures(front, k - 1) && !results[|results| - 1] {
        assert forall i :: |results| - k <= i < |results| - 1 ==> !results[i] by {
          assert forall i :: |results| - k <= i < |results| - 1 ==> results[i] == front[i];
        }
      }
      if LastAllFailures(results, k) {
        assert forall i :: |front| - (k - 1) <= i < |front| ==> front[i] == results[i];
      }
    }
  }

  ghost predicate Tracked(t: Tracker) {
    var m := t.b.cfg.halfOpenMax;
    && t.b.cfg.Valid()
    && (t.b.state.Closed? ==>
          t.b.failures == TrailingFailures(t.since) && t.b.failures < t.b.cfg.failureThreshold)
    && (t.b.state.HalfOpen? ==>
          && 0 <= t.b.halfOpenPend <= m
          && 0 <= t.b.successes < m && t.b.successes == t.wins
          && t.episode <= t.b.halfOpenPend + t.b.successes)
    && (t.b.state.Open? ==> t.b.lastOpenedAt == t.openedAt)
    && t.episode <= 2 * m - 1
  }

  lemma ObserveKeepsTracked(t: Tracker, e: Event)
    requires Tracked(t)
    ensures Tracked(Observe(t, e)) && Observe(t, e).b.cfg == t.b.cfg
  {
    if t.b.state.Closed? && e.Failure? {
      assert (t.since + [false])[..|t.since|] == t.since;
    }
  }

  lemma {:induction false} TrackKeepsTracked(t: Tracker, evs: seq<Event>)
    requires Tracked(t)
    ensures Tracked(Track(t, evs)) && Track(t, evs).b.cfg == t.b.cfg
    decreases |evs|
  {
    if evs != [] {
      ObserveKeepsTracked(t, evs[0]);
      TrackKeepsTracked(Observe(t, evs[0]), evs[1..]);
    }
  }

  /**
    After any run, a closed breaker opens on the next event exactly when that
    event is a failure completing `failureThreshold` failures in a row.
   */
  lemma OpensExactlyOnConsecutiveFailures(cfg: Config, evs: seq<Event>, e: Event)
    requires Track(Start(cfg), evs).b.state.Closed?
    ensures
      var t := Track(Start(cfg), evs);
      var t' := Observe(t, e);
      t'.b.state.Open? <==> e.Failure? && LastAllFailures(t'.since, Normalize(cfg).failureThreshold)
  {
    TrackKeepsTracked(Start(cfg), evs);
    var t := Track(Start(cfg), evs);
    if e.Failure? {
      var since' := t.since + [false];
      assert since'[..|since'| - 1] == t.since;
      TrailingFailuresMeaning(since', Normalize(cfg).failureThreshold);
    }
  }

  /**
    After any run, a half-open breaker opens again exactly on a failure, and
    closes exactly on the success that completes `halfOpenMax` of them in this
    episode.
   */
  lemma HalfOpenEndsExactlyOn(cfg: Config, evs: seq<Event>, e: Event)
    requires Track(Start(cfg), evs).b.state.HalfOpen?
    ensures
      var t := Track(Start(cfg), evs);
      var b' := Observe(t, e).b;
      && (b'.state.Open? <==> e.Failure?)
      && (e.Failure? ==> b'.lastOpenedAt == e.now)
      && (b'.state.Closed? <==> e.Success? && t.wins + 1 == Normalize(cfg).halfOpenMax)
  {
    TrackKeepsTracked(Start(cfg), evs);
  }

  /**
    After any run, an open breaker turns half-open exactly when it is asked or
    read once the timeout since the failure that opened it has run, and does
    nothing else; a closed one never turns half-open.
   */
  lemma OpenEndsExactlyOn(cfg: Config, evs: seq<Event>, e: Event)
    ensures
      var t := Track(Start(cfg), evs);
      var b' := Observe(t, e).b;
      && (t.b.state.Open? ==>
           if (e.Allow? || e.Read?) && e.now - t.openedAt >= Normalize(cfg).openTimeout
           then b'.state.HalfOpen? && b'.halfOpenPend == (if e.Allow? then 1 else 0)
           else b' == t.b)
      && (t.b.state.Closed? ==> !b'.state.HalfOpen?)
  {
    TrackKeepsTracked(Start(cfg), evs);
  }

  function AdmittedCount(b: Snapshot, evs: seq<Event>): nat
    decreases |evs|
  {
    if evs == [] then 0
    else (if evs[0].Allow? && Admits(b, evs[0].now) then 1 else 0) + AdmittedCount(Apply(b, evs[0]), evs[1..])
  }

  ghost predicate AllBefore(evs: seq<Event>, deadline: int) {
    forall i :: 0 <= i < |evs| && !evs[i].Success? ==> evs[i].now < deadline
  }

  lemma {:induction false} OpenAdmitsNothing(b: Snapshot, evs: seq<Event>)
    requires b.state.Open? && AllBefore(evs, b.lastOpenedAt + b.cfg.openTimeout)
    ensures AdmittedCount(b, evs) == 0
  {
    if evs != [] {
      assert !evs[0].Success? ==> evs[0].now < b.lastOpenedAt + b.cfg.openTimeout;
      assert Apply(b, evs[0]) == b;
      OpenAdmitsNothing(b, evs[1..]);
    }
  }

  /** Once it opens, from closed or half-open, no call is admitted until the timeout has run. */
  lemma QuietAfterOpening(cfg: Config, evs: seq<Event>, e: Event, later: seq<Event>)
    requires !Track(Start(cfg), evs).b.state.Open?
    requires Observe(Track(Start(cfg), evs), e).b.state.Open?
    requires e.Failure? ==> AllBefore(later, e.now + Normalize(cfg).openTimeout)
    ensures e.Failure?
    ensures AdmittedCount(Observe(Track(Start(cfg), evs), e).b, later) == 0
  {
    TrackKeepsTracked(Start(cfg), evs);
    OpenAdmitsNothing(Observe(Track(Start(cfg), evs), e).b, later);
  }

  /** One half-open episode admits at most 2 * halfOpenMax - 1 calls: one probe when the maximum is one. */
  lemma EpisodeAdmissionBound(cfg: Config, evs: seq<Event>)
    ensures Track(Start(cfg), evs).episode <= 2 * Normalize(cfg).halfOpenMax - 1
  {
    TrackKeepsTracked(Start(cfg), evs);
  }

  /**
    Why every admitted call must be recorded: once the half-open slots are
    taken by calls that never record, time and reads alone never admit another.
   */
  lemma {:induction false} UnrecordedProbesBlock(b: Snapshot, evs: seq<Event>)
    requires b.state.HalfOpen? && b.halfOpenPend >= b.cfg.halfOpenMax
    requires forall i :: 0 <= i < |evs| ==> !evs[i].Success? && !evs[i].Failure?
    ensures AdmittedCount(b, evs) == 0
  {
    if evs != [] {
      assert Apply(b, evs[0]) == b;
      UnrecordedProbesBlock(b, evs[1..]);
    }
  }

  // ----- The episode bound is attained -----

  function Times(e: Event, n: nat): seq<Event> {
    seq(n, _ => e)
  }

  lemma {:induction false} TrackAppend(t: Tracker, xs: seq<Event>, ys: seq<Event>)
    ensures Track(t, xs + ys) == Track(Track(t, xs), ys)
    decreases |xs|
  {
    if xs == [] {
      assert xs + ys == ys;
    } else {
      assert (xs + ys)[1..] == xs[1..] + ys;
      TrackAppend(Observe(t, xs[0]), xs[1..], ys);
    }
  }

  lemma {:induction false} FailuresUntilOpen(t: Tracker, n: nat)
    requires t.b.state.Closed? && t.b.failures + n == t.b.cfg.failureThreshold && n > 0
    ensures
      var t' := Track(t, Times(Failure(0), n));
      t'.b.state.Open? && t'.b.lastOpenedAt == 0 && t'.b.cfg == t.b.cfg
    decreases n
  {
    assert Times(Failure(0), n)[1..] == Times(Failure(0), n - 1);
    if n > 1 {
      FailuresUntilOpen(Observe(t, Failure(0)), n - 1);
    }
  }

  lemma {:induction false} ProbesTakeSlots(t: Tracker, now: int, n: nat)
    requires t.b.state.HalfOpen? && t.b.halfOpenPend + n <= t.b.cfg.halfOpenMax
    ensures Track(t, Times(Allow(now), n))
         == t.(b := t.b.(halfOpenPend := t.b.halfOpenPend + n), episode := t.episode + n)
    decreases n
  {
    if n > 0 {
      assert Times(Allow(now), n)[1..] == Times(Allow(now), n - 1);
      ProbesTakeSlots(Observe(t, Allow(now)), now, n - 1);
    }
  }

  lemma {:induction false} SuccessesReturnSlots(t: Tracker, n: nat)
    requires t.b.state.HalfOpen? && t.b.successes + n < t.b.cfg.halfOpenMax && n <= t.b.halfOpenPend
    ensures Track(t, Times(Success, n))
         == t.(b := t.b.(halfOpenPend := t.b.halfOpenPend - n, successes := t.b.successes + n), wins := t.wins + n)
    decreases n
  {
    if n > 0 {
      assert Times(Success, n)[1..] == Times(Success, n - 1);
      SuccessesReturnSlots(Observe(t, Success), n - 1);
    }
  }

  /** Every configuration has a run that reaches the episode bound, so it cannot be lowered. */
  lemma EpisodeBoundIsAttained(cfg: Config) returns (evs: seq<Event>)
    ensures Track(Start(cfg), evs).episode == 2 * Normalize(cfg).halfOpenMax - 1
  {
    var c := Normalize(cfg);
    var m := c.halfOpenMax;
    var t0 := Start(cfg);
    FailuresUntilOpen(t0, c.failureThreshold);
    var t1 := Track(t0, Times(Failure(0), c.failureThreshold));
    var probe := Allow(c.openTimeout);
    var t2 := Observe(t1, probe);
    ProbesTakeSlots(t2, c.openTimeout, m - 1);
    var t3 := Track(t2, Times(probe, m - 1));
    SuccessesReturnSlots(t3, m - 1);
    var t4 := Track(t3, Times(Success, m - 1));
    ProbesTakeSlots(t4, c.openTimeout, m - 1);
    var opening := Times(Failure(0), c.failureThreshold);
    var more := Times(probe, m - 1);
    var late := Times(Success, m - 1) + more;
    TrackAppend(t3, Times(Success, m - 1), more);
    TrackAppend(t2, more, late);
    assert ([probe] + (more + late))[1..] == more + late;
    TrackAppend(t0, opening, [probe] + (more + late));
    evs := opening + ([probe] + (more + late));
  }
}
