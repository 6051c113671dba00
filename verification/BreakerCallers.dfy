/**
  The breakers together with everything that calls them: chat `dispatch`,
  `openStream` (internal/proxy/handler.go) and the embeddings `dispatch`
  (internal/proxy/embeddings.go), with hedging off and a fixed provider set.

  Each request is a small program over the breaker operations.  A run is any
  sequence of events, so it covers every interleaving of any number of
  requests with metric reads and configuration reloads.  An event whose request
  is not at the matching point does nothing.
 */
module BreakerCallers {
  import opened CircuitBreaker

  datatype Kind = Chat | Stream | Embedding

  /** Chat completions, streamed or not, share one set of breakers; embeddings have their own. */
  datatype BreakerId = BreakerId(embeddings: bool, name: string)

  datatype Request =
    | Trying(kind: Kind, name: string, primary: bool, rest: seq<string>)
    | Reporting(kind: Kind, rest: seq<string>, skipped: string)
    | Calling(kind: Kind, name: string, primary: bool, rest: seq<string>)
    | Returned

  datatype System = System(
    registry: set<string>,
    embedders: set<string>,
    breakers: map<BreakerId, Snapshot>,
    requests: seq<Request>)

  datatype Step =
    /** A request resolves its primary; `chain` is the fallback chain it will read. */
    | Begin(kind: Kind, primary: string, chain: seq<string>)
    | Attempt(request: nat, now: int)
    /** A skipped chat provider has its state read for the log line. */
    | Report(request: nat, now: int)
    /** The provider call ends and its result is recorded. */
    | Settle(request: nat, ok: bool, retryable: bool, now: int)
    | ReadMetric(breaker: BreakerId, now: int)
    | Reload(breaker: BreakerId, cfg: Config)

  function IdOf(kind: Kind, name: string): BreakerId {
    BreakerId(kind.Embedding?, name)
  }

  function Breakers(registry: set<string>): set<BreakerId> {
    (set n | n in registry :: BreakerId(false, n)) + (set n | n in registry :: BreakerId(true, n))
  }

  /** Breakers are made for every registered provider when the handlers are built. */
  function Initial(registry: set<string>, embedders: set<string>, cfg: Config): System {
    System(registry, embedders, map id | id in Breakers(registry) :: Fresh(cfg), [])
  }

  /** The providers tried after the primary, in order. */
  function Fallbacks(s: System, kind: Kind, primary: string, chain: seq<string>): seq<string> {
    if chain == [] then []
    else
      var rest := Fallbacks(s, kind, primary, chain[1..]);
      if chain[0] != primary && chain[0] in s.registry && (kind.Embedding? ==> chain[0] in s.embedders)
      then [chain[0]] + rest
      else rest
  }

  function Next(kind: Kind, rest: seq<string>): Request {
    if rest == [] then Returned else Trying(kind, rest[0], false, rest[1..])
  }

  /** Whether a failed call ends the request instead of moving to the next provider. */
  predicate GivesUp(r: Request, retryable: bool)
    requires r.Calling?
  {
    !retryable && (r.primary || r.kind.Stream?)
  }

  function Take(s: System, e: Step): System {
    match e
    case Begin(kind, primary, chain) =>
      if primary !in s.registry then s
      else
        var rest := Fallbacks(s, kind, primary, chain);
        s.(requests := s.requests +
             [if kind.Embedding? && primary !in s.embedders then Next(kind, rest)
              else Trying(kind, primary, true, rest)])
    case Attempt(i, now) =>
      if i < |s.requests| && s.requests[i].Trying? && IdOf(s.requests[i].kind, s.requests[i].name) in s.breakers then
        var r := s.requests[i];
        var id := IdOf(r.kind, r.name);
        var b := s.breakers[id];
        s.(breakers := s.breakers[id := AfterAllow(b, now)],
           requests := s.requests[i :=
             if Admits(b, now) then Calling(r.kind, r.name, r.primary, r.rest)
             else if r.kind.Chat? then Reporting(r.kind, r.rest, r.name)
             else Next(r.kind, r.rest)])
      else s
    case Report(i, now) =>
      if i < |s.requests| && s.requests[i].Reporting? && IdOf(s.requests[i].kind, s.requests[i].skipped) in s.breakers then
        var r := s.requests[i];
        var id := IdOf(r.kind, r.skipped);
        s.(breakers := s.breakers[id := AfterRead(s.breakers[id], now)],
           requests := s.requests[i := Next(r.kind, r.rest)])
      else s
    case Settle(i, ok, retryable, now) =>
      if i < |s.requests| && s.requests[i].Calling? && IdOf(s.requests[i].kind, s.requests[i].name) in s.breakers then
        var r := s.requests[i];
        var id := IdOf(r.kind, r.name);
        var b := s.breakers[id];
        s.(breakers := s.breakers[id := if ok then AfterSuccess(b) else AfterFailure(b, now)],
           requests := s.requests[i :=
             if ok || GivesUp(r, retryable) then Returned else Next(r.kind, r.rest)])
      else s
    case ReadMetric(id, now) =>
      if id in s.breakers then s.(breakers := s.breakers[id := AfterRead(s.breakers[id], now)]) else s
    case Reload(id, cfg) =>
      if id in s.breakers then s.(breakers := s.breakers[id := Reconfigured(s.breakers[id], cfg)]) else s
  }

  function Run(s: System, steps: seq<Step>): System
    decreases |steps|
  {
    if steps == [] then s else Run(Take(s, steps[0]), steps[1..])
  }

  predicate Holds(r: Request, id: BreakerId) {
    r.Calling? && IdOf(r.kind, r.name) == id
  }

  /** Calls a breaker admitted whose result has not been recorded yet. */
  function InFlight(requests: seq<Request>, id: BreakerId): nat {
    if requests == [] then 0
    else (if Holds(requests[0], id) then 1 else 0) + InFlight(requests[1..], id)
  }

  lemma {:induction false} InFlightUpdate(requests: seq<Request>, i: nat, r: Request, id: BreakerId)
    requires i < |requests|
    ensures InFlight(requests[i := r], id)
         == InFlight(requests, id) - (if Holds(requests[i], id) then 1 else 0) + (if Holds(r, id) then 1 else 0)
  {
    if i == 0 {
      assert requests[i := r][1..] == requests[1..];
    } else {
      assert requests[i := r][1..] == requests[1..][i - 1 := r];
      InFlightUpdate(requests[1..], i - 1, r, id);
    }
  }

  lemma {:induction false} InFlightAppend(requests: seq<Request>, r: Request, id: BreakerId)
    ensures InFlight(requests + [r], id) == InFlight(requests, id) + (if Holds(r, id) then 1 else 0)
  {
    if requests == [] {
      assert requests + [r] == [r];
    } else {
      assert (requests + [r])[1..] == requests[1..] + [r];
      InFlightAppend(requests[1..], r, id);
    }
  }

  /** The joint invariant: a half-open breaker never counts more slots than calls in flight. */
  ghost predicate SlotsBacked(s: System) {
    forall id :: id in s.breakers ==>
      var b := s.breakers[id];
      && b.cfg.Valid()
      && (b.state.HalfOpen? ==> 0 <= b.halfOpenPend <= InFlight(s.requests, id))
  }

  lemma TakeKeepsSlotsBacked(s: System, e: Step)
    requires SlotsBacked(s)
    ensures SlotsBacked(Take(s, e))
  {
    var s' := Take(s, e);
    forall id | id in s'.breakers
      ensures
        var b := s'.breakers[id];
        b.cfg.Valid() && (b.state.HalfOpen? ==> 0 <= b.halfOpenPend <= InFlight(s'.requests, id))
    {
      assert id in s.breakers;
      match e
      case Begin(_, _, _) =>
        if s' != s {
          InFlightAppend(s.requests, s'.requests[|s.requests|], id);
        }
      case Attempt(i, _) =>
        if s' != s { InFlightUpdate(s.requests, i, s'.requests[i], id); }
      case Report(i, _) =>
        if s' != s { InFlightUpdate(s.requests, i, s'.requests[i], id); }
      case Settle(i, _, _, _) =>
        if s' != s { InFlightUpdate(s.requests, i, s'.requests[i], id); }
      case _ =>
    }
  }

  lemma {:induction false} RunKeepsSlotsBacked(s: System, steps: seq<Step>)
    requires SlotsBacked(s)
    ensures SlotsBacked(Run(s, steps))
    decreases |steps|
  {
    if steps != [] {
      TakeKeepsSlotsBacked(s, steps[0]);
      RunKeepsSlotsBacked(Take(s, steps[0]), steps[1..]);
    }
  }

  /** Over every run, the slots of a half-open breaker are backed by calls in flight. */
  lemma SlotsNeverExceedCallsInFlight(
      registry: set<string>, embedders: set<string>, cfg: Config, steps: seq<Step>, id: BreakerId)
    requires id in Run(Initial(registry, embedders, cfg), steps).breakers
    ensures
      var s := Run(Initial(registry, embedders, cfg), steps);
      s.breakers[id].state.HalfOpen? ==> s.breakers[id].halfOpenPend <= InFlight(s.requests, id)
  {
    RunKeepsSlotsBacked(Initial(registry, embedders, cfg), steps);
  }

  /** So no slot leaks: with no call in flight and the open timeout passed, the breaker admits. */
  lemma IdleBreakerAdmits(
      registry: set<string>, embedders: set<string>, cfg: Config, steps: seq<Step>, id: BreakerId, now: int)
    requires id in Run(Initial(registry, embedders, cfg), steps).breakers
    requires InFlight(Run(Initial(registry, embedders, cfg), steps).requests, id) == 0
    requires
      var b := Run(Initial(registry, embedders, cfg), steps).breakers[id];
      b.state.Open? ==> TimedOut(b, now)
    ensures Admits(Run(Initial(registry, embedders, cfg), steps).breakers[id], now)
  {
    RunKeepsSlotsBacked(Initial(registry, embedders, cfg), steps);
  }

  // ----- How a request moves through its providers -----

  /** The providers after the primary are exactly the usable ones of the chain, in its order. */
  lemma {:induction false} FallbacksAre(s: System, kind: Kind, primary: string, chain: seq<string>, n: string)
    ensures n in Fallbacks(s, kind, primary, chain) <==>
      n in chain && n != primary && n in s.registry && (kind.Embedding? ==> n in s.embedders)
  {
    if chain != [] {
      FallbacksAre(s, kind, primary, chain[1..], n);
      assert n in chain <==> n == chain[0] || n in chain[1..];
    }
  }

  lemma {:induction false} FallbacksInOrder(s: System, kind: Kind, primary: string, a: seq<string>, b: seq<string>)
    ensures Fallbacks(s, kind, primary, a + b) == Fallbacks(s, kind, primary, a) + Fallbacks(s, kind, primary, b)
    decreases |a|
  {
    if a == [] {
      assert a + b == b;
    } else {
      assert (a + b)[1..] == a[1..] + b;
      FallbacksInOrder(s, kind, primary, a[1..], b);
    }
  }

  ghost predicate Covered(s: System) {
    && (forall n :: n in s.registry ==> BreakerId(false, n) in s.breakers && BreakerId(true, n) in s.breakers)
    && (forall i :: 0 <= i < |s.requests| ==> Registered(s, s.requests[i]))
  }

  ghost predicate Registered(s: System, r: Request) {
    match r
    case Trying(_, name, _, rest) => name in s.registry && forall n :: n in rest ==> n in s.registry
    case Reporting(_, rest, skipped) => skipped in s.registry && forall n :: n in rest ==> n in s.registry
    case Calling(_, name, _, rest) => name in s.registry && forall n :: n in rest ==> n in s.registry
    case Returned => true
  }

  lemma TakeKeepsCovered(s: System, e: Step)
    requires Covered(s)
    ensures Covered(Take(s, e))
  {
    if e.Begin? {
      forall n | n in Fallbacks(s, e.kind, e.primary, e.chain)
        ensures n in s.registry
      {
        FallbacksAre(s, e.kind, e.primary, e.chain, n);
      }
    }
  }

  lemma {:induction false} RunKeepsCovered(s: System, steps: seq<Step>)
    requires Covered(s)
    ensures Covered(Run(s, steps))
    decreases |steps|
  {
    if steps != [] {
      TakeKeepsCovered(s, steps[0]);
      RunKeepsCovered(Take(s, steps[0]), steps[1..]);
    }
  }

  /**
    After any run, a call that ends is recorded with the breaker of its provider
    only.  Its request is over exactly when the call succeeded, when no provider
    is left, or when the failure is final and came from the primary or a stream;
    otherwise the next provider is tried.
   */
  lemma CallEndsExactlyWhen(
      registry: set<string>, embedders: set<string>, cfg: Config, steps: seq<Step>,
      i: nat, ok: bool, retryable: bool, now: int)
    requires i < |Run(Initial(registry, embedders, cfg), steps).requests|
    requires Run(Initial(registry, embedders, cfg), steps).requests[i].Calling?
    ensures
      var s := Run(Initial(registry, embedders, cfg), steps);
      var s' := Take(s, Settle(i, ok, retryable, now));
      var Calling(kind, name, primary, rest) := s.requests[i];
      && (s'.requests[i].Returned? <==> ok || rest == [] || (!retryable && (primary || kind.Stream?)))
      && (!s'.requests[i].Returned? ==> s'.requests[i] == Trying(kind, rest[0], false, rest[1..]))
      && IdOf(kind, name) in s.breakers
      && s'.breakers == s.breakers[IdOf(kind, name) :=
           if ok then AfterSuccess(s.breakers[IdOf(kind, name)]) else AfterFailure(s.breakers[IdOf(kind, name)], now)]
  {
    RunKeepsCovered(Initial(registry, embedders, cfg), steps);
    var s := Run(Initial(registry, embedders, cfg), steps);
    assert Registered(s, s.requests[i]);
  }

  /** After any run, a provider is called exactly when its breaker admits the request, and skipped otherwise. */
  lemma ProviderCalledExactlyWhen(
      registry: set<string>, embedders: set<string>, cfg: Config, steps: seq<Step>, i: nat, now: int)
    requires i < |Run(Initial(registry, embedders, cfg), steps).requests|
    requires Run(Initial(registry, embedders, cfg), steps).requests[i].Trying?
    ensures
      var s := Run(Initial(registry, embedders, cfg), steps);
      var s' := Take(s, Attempt(i, now));
      var Trying(kind, name, primary, rest) := s.requests[i];
      && IdOf(kind, name) in s.breakers
      && (s'.requests[i] == Calling(kind, name, primary, rest) <==> Admits(s.breakers[IdOf(kind, name)], now))
      && (!s'.requests[i].Calling? && !kind.Chat? ==>
           if rest == [] then s'.requests[i].Returned?
           else s'.requests[i] == Trying(kind, rest[0], false, rest[1..]))
      && (!s'.requests[i].Calling? && kind.Chat? ==> s'.requests[i] == Reporting(kind, rest, name))
  {
    RunKeepsCovered(Initial(registry, embedders, cfg), steps);
    var s := Run(Initial(registry, embedders, cfg), steps);
    assert Registered(s, s.requests[i]);
  }

  /** A request starts with its primary, unless that cannot embed, and goes on with the chain. */
  lemma RequestStartsWith(s: System, kind: Kind, primary: string, chain: seq<string>)
    requires primary in s.registry
    ensures
      var s' := Take(s, Begin(kind, primary, chain));
      var rest := Fallbacks(s, kind, primary, chain);
      && |s'.requests| == |s.requests| + 1 && s'.requests[..|s.requests|] == s.requests
      && s'.requests[|s.requests|] ==
         (if kind.Embedding? && primary !in s.embedders
          then (if rest == [] then Returned else Trying(kind, rest[0], false, rest[1..]))
          else Trying(kind, primary, true, rest))
  {
  }

  /** A chat request whose provider was skipped and logged goes on with the next one. */
  lemma SkippedGoesOn(
      registry: set<string>, embedders: set<string>, cfg: Config, steps: seq<Step>, i: nat, now: int)
    requires i < |Run(Initial(registry, embedders, cfg), steps).requests|
    requires Run(Initial(registry, embedders, cfg), steps).requests[i].Reporting?
    ensures
      var s := Run(Initial(registry, embedders, cfg), steps);
      var rest := s.requests[i].rest;
      Take(s, Report(i, now)).requests[i] ==
        if rest == [] then Returned else Trying(s.requests[i].kind, rest[0], false, rest[1..])
  {
    RunKeepsCovered(Initial(registry, embedders, cfg), steps);
    var s := Run(Initial(registry, embedders, cfg), steps);
    assert Registered(s, s.requests[i]);
  }

  /** Reading a metric moves only a timed-out open breaker, and a reload changes only settings, each of one breaker. */
  lemma ReadsAndReloads(s: System, id: BreakerId, now: int, cfg: Config)
    requires id in s.breakers
    ensures
      var (b, read, reload) := (s.breakers[id], Take(s, ReadMetric(id, now)), Take(s, Reload(id, cfg)));
      && read.requests == s.requests && reload.requests == s.requests
      && read.breakers == s.breakers[id := read.breakers[id]]
      && reload.breakers == s.breakers[id := reload.breakers[id]]
      && (if b.state.Open? && now - b.lastOpenedAt >= b.cfg.openTimeout
          then read.breakers[id].state.HalfOpen? && read.breakers[id].halfOpenPend == 0
          else read.breakers[id] == b)
      && reload.breakers[id] == b.(cfg := reload.breakers[id].cfg)
      && (cfg.Valid() ==> reload.breakers[id].cfg == cfg)
  {
    assert s.breakers[id := s.breakers[id]] == s.breakers;
  }
}
