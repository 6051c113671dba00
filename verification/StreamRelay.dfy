/**
  Streaming hand-off: `openStream`, `firstStreamChunk` and `handleStream`
  (internal/proxy/handler.go) against the goroutines that feed them.

  A provider sends its chunks on a channel of 16, may then send one error on a
  channel of one, and closes both, the error channel first.  The handler picks a provider by waiting for
  its first event and then relays.  Every `select` may take any ready branch,
  so a run is any sequence of steps; a step that is not ready does nothing.  The
  client stays connected; while waiting for the first event a deadline may pass.
 */
module StreamRelay {
  import opened Options

  datatype Failure = Failure(message: string, retryable: bool)

  /** What a provider is going to send. */
  datatype Plan = Plan(chunks: seq<string>, failure: Option<Failure>)

  /** A provider goroutine and its two channels. */
  datatype Source = Source(
    plan: Plan,
    started: bool,
    sent: nat,
    errSent: bool,
    chClosed: bool,
    errClosed: bool,
    taken: nat,
    errTaken: bool)

  /** Server-sent events written to the client. */
  datatype Sse = Chunk(data: string) | ErrorEvent(failure: Failure) | Done

  datatype Phase =
    | Choosing(i: nat)
    | Opening(i: nat, chDone: bool, errDone: bool)
    | Relaying(i: nat, errDone: bool, body: seq<Sse>)
    | Finished(i: nat, body: seq<Sse>)
    | Failed(error: Option<Failure>)

  datatype System = System(sources: seq<Source>, phase: Phase, lastErr: Option<Failure>)

  datatype Step =
    | Send(p: nat)
    | SendError(p: nat)
    | CloseChunks(p: nat)
    | CloseErrors(p: nat)
    /** The breaker lets the next provider be tried, or not. */
    | Gate(admit: bool)
    | GiveUp
    | TakeChunk
    | SeeChunksClosed
    | TakeError
    | SeeErrorsClosed
    | Deadline(failure: Failure)

  const BUFFER: nat := 16

  function Initial(plans: seq<Plan>): System {
    System(seq(|plans|, i requires 0 <= i < |plans| => Source(plans[i], false, 0, false, false, false, 0, false)),
           Choosing(0), None)
  }

  predicate SaidAll(src: Source) {
    src.sent == |src.plan.chunks| && (src.plan.failure.None? || src.errSent)
  }

  predicate ErrorWaiting(src: Source) {
    src.errSent && !src.errTaken
  }

  /** The provider's own steps. */
  function Provide(src: Source, e: Step): Source {
    if !src.started then src
    else match e
      case Send(_) =>
        if src.sent < |src.plan.chunks| && src.sent - src.taken < BUFFER then src.(sent := src.sent + 1) else src
      case SendError(_) =>
        if src.sent == |src.plan.chunks| && src.plan.failure.Some? && !src.errSent then src.(errSent := true) else src
      case CloseChunks(_) => if SaidAll(src) && src.errClosed then src.(chClosed := true) else src
      case CloseErrors(_) => if SaidAll(src) then src.(errClosed := true) else src
      case _ => src
  }

  /** A provider that failed before its first chunk: fall back, or stop if the error is final. */
  function Fallback(s: System, i: nat, f: Failure): System {
    s.(phase := if f.retryable then Choosing(i + 1) else Failed(Some(f)), lastErr := Some(f))
  }

  /** The first-event loop, with one channel seen closed: both closed means an empty stream. */
  function Opened(i: nat, chDone: bool, errDone: bool): Phase {
    if chDone && errDone then Relaying(i, false, []) else Opening(i, chDone, errDone)
  }

  function Open(s: System, i: nat, chDone: bool, errDone: bool, e: Step): System
    requires i < |s.sources| && s.phase == Opening(i, chDone, errDone)
  {
    var src := s.sources[i];
    match e
    case TakeChunk =>
      if !chDone && src.taken < src.sent <= |src.plan.chunks|
      then s.(sources := s.sources[i := src.(taken := src.taken + 1)],
              phase := Relaying(i, false, [Chunk(src.plan.chunks[src.taken])]))
      else s
    case SeeChunksClosed =>
      if !chDone && src.chClosed && src.taken == src.sent then s.(phase := Opened(i, true, errDone)) else s
    case TakeError =>
      if !errDone && ErrorWaiting(src) && src.plan.failure.Some?
      then Fallback(s.(sources := s.sources[i := src.(errTaken := true)]), i, src.plan.failure.value)
      else s
    case SeeErrorsClosed =>
      if !errDone && src.errClosed && !ErrorWaiting(src) then s.(phase := Opened(i, chDone, true)) else s
    case Deadline(f) => Fallback(s, i, f)
    case _ => s
  }

  function Relay(s: System, i: nat, errDone: bool, body: seq<Sse>, e: Step): System
    requires i < |s.sources| && s.phase == Relaying(i, errDone, body)
  {
    var src := s.sources[i];
    match e
    case TakeChunk =>
      if src.taken < src.sent <= |src.plan.chunks|
      then s.(sources := s.sources[i := src.(taken := src.taken + 1)],
              phase := Relaying(i, errDone, body + [Chunk(src.plan.chunks[src.taken])]))
      else s
    case SeeChunksClosed =>
      if src.chClosed && src.taken == src.sent then s.(phase := Finished(i, body + [Done])) else s
    case TakeError =>
      if !errDone && ErrorWaiting(src) && src.plan.failure.Some?
      then s.(sources := s.sources[i := src.(errTaken := true)],
              phase := Finished(i, body + [ErrorEvent(src.plan.failure.value), Done]))
      else s
    case SeeErrorsClosed =>
      if !errDone && src.errClosed && !ErrorWaiting(src) then s.(phase := Relaying(i, true, body)) else s
    case _ => s
  }

  function Take(s: System, e: Step): System {
    if ByProvider(e) then
      if e.p < |s.sources| then s.(sources := s.sources[e.p := Provide(s.sources[e.p], e)]) else s
    else match s.phase
      case Choosing(i) =>
        if e.Gate? && i < |s.sources| then
          if e.admit
          then s.(sources := s.sources[i := s.sources[i].(started := true)], phase := Opening(i, false, false))
          else s.(phase := Choosing(i + 1))
        else if e.GiveUp? && i >= |s.sources| then s.(phase := Failed(s.lastErr))
        else s
      case Opening(i, chDone, errDone) => if i < |s.sources| then Open(s, i, chDone, errDone, e) else s
      case Relaying(i, errDone, body) => if i < |s.sources| then Relay(s, i, errDone, body, e) else s
      case Finished(_, _) => s
      case Failed(_) => s
  }

  function Run(s: System, steps: seq<Step>): System
    decreases |steps|
  {
    if steps == [] then s else Run(Take(s, steps[0]), steps[1..])
  }

  // ----- What the client receives -----

  function Events(chunks: seq<string>): seq<Sse> {
    seq(|chunks|, i requires 0 <= i < |chunks| => Chunk(chunks[i]))
  }

  lemma EventsExtend(chunks: seq<string>, n: nat)
    requires n < |chunks|
    ensures Events(chunks[..n + 1]) == Events(chunks[..n]) + [Chunk(chunks[n])]
  {
  }

  ghost predicate Consistent(src: Source) {
    && src.taken <= src.sent <= |src.plan.chunks|
    && (src.errSent ==> src.sent == |src.plan.chunks| && src.plan.failure.Some?)
    && (src.errTaken ==> src.errSent)
    && (src.errClosed ==> SaidAll(src))
    && (src.chClosed ==> src.errClosed)
    && (!src.started ==> src.sent == 0 && !src.errSent && !src.chClosed && !src.errClosed)
  }

  /** A finished body: all chunks, or the chunks taken so far and an error event; then one [DONE]. */
  ghost predicate Complete(src: Source, body: seq<Sse>)
    requires src.taken <= |src.plan.chunks|
  {
    var relayed := Events(src.plan.chunks[..src.taken]);
    || (body == relayed + [Done] && src.taken == |src.plan.chunks|)
    || (src.plan.failure.Some? && body == relayed + [ErrorEvent(src.plan.failure.value), Done])
  }

  ghost predicate PhaseOk(s: System) {
    match s.phase
    case Choosing(i) => i <= |s.sources|
    case Opening(i, chDone, errDone) =>
      && i < |s.sources| && s.sources[i].started
      && s.sources[i].taken == 0 && !s.sources[i].errTaken
      && !(chDone && errDone)
      && (chDone ==> s.sources[i].chClosed && s.sources[i].sent == 0)
      && (errDone ==> s.sources[i].errClosed && !s.sources[i].errSent)
    case Relaying(i, errDone, body) =>
      && i < |s.sources| && s.sources[i].started
      && !s.sources[i].errTaken
      && s.sources[i].taken <= |s.sources[i].plan.chunks|
      && body == Events(s.sources[i].plan.chunks[..s.sources[i].taken])
      && (s.sources[i].plan.failure.Some? ==> s.sources[i].taken > 0)
      && (errDone ==> s.sources[i].errClosed && !s.sources[i].errSent)
    case Finished(i, body) =>
      && i < |s.sources|
      && s.sources[i].taken <= |s.sources[i].plan.chunks|
      && (s.sources[i].plan.failure.Some? ==> s.sources[i].taken > 0)
      && Complete(s.sources[i], body)
    case Failed(_) => true
  }

  ghost predicate Ok(s: System, plans: seq<Plan>) {
    && |s.sources| == |plans|
    && (forall i :: 0 <= i < |plans| ==> s.sources[i].plan == plans[i] && Consistent(s.sources[i]))
    && PhaseOk(s)
    && (forall j :: NextIndex(s) <= j < |s.sources| ==> Untouched(s.sources[j]))
  }

  /** Providers from this index on have not been tried. */
  function NextIndex(s: System): int {
    match s.phase
    case Choosing(i) => i
    case Opening(i, _, _) => i + 1
    case _ => |s.sources|
  }

  predicate Untouched(src: Source) {
    !src.started && src.taken == 0 && !src.errTaken
  }

  lemma ProvideKeepsConsistent(src: Source, e: Step)
    requires Consistent(src)
    ensures Consistent(Provide(src, e)) && Provide(src, e).plan == src.plan
    ensures Provide(src, e).taken == src.taken && Provide(src, e).errTaken == src.errTaken
    ensures Untouched(src) ==> Untouched(Provide(src, e))
    ensures src.chClosed ==> Provide(src, e).chClosed && Provide(src, e).sent == src.sent
    ensures src.errClosed ==> Provide(src, e).errClosed && Provide(src, e).errSent == src.errSent
  {
  }

  lemma OpenKeepsOk(s: System, plans: seq<Plan>, e: Step)
    requires Ok(s, plans) && s.phase.Opening?
    ensures Ok(Open(s, s.phase.i, s.phase.chDone, s.phase.errDone, e), plans)
  {
    var i := s.phase.i;
    var src := s.sources[i];
    if e.TakeChunk? && !s.phase.chDone && src.taken < src.sent {
      EventsExtend(src.plan.chunks, 0);
      assert Events(src.plan.chunks[..0]) == [];
    }
    assert Events(src.plan.chunks[..0]) == [];
  }

  lemma RelayKeepsOk(s: System, plans: seq<Plan>, e: Step)
    requires Ok(s, plans) && s.phase.Relaying?
    ensures Ok(Relay(s, s.phase.i, s.phase.errDone, s.phase.body, e), plans)
  {
    var src := s.sources[s.phase.i];
    if e.TakeChunk? && src.taken < src.sent {
      EventsExtend(src.plan.chunks, src.taken);
    }
  }

  predicate ByProvider(e: Step) {
    e.Send? || e.SendError? || e.CloseChunks? || e.CloseErrors?
  }

  lemma ProvideKeepsOk(s: System, plans: seq<Plan>, e: Step)
    requires Ok(s, plans) && ByProvider(e) && e.p < |s.sources|
    ensures Ok(s.(sources := s.sources[e.p := Provide(s.sources[e.p], e)]), plans)
  {
    ProvideKeepsConsistent(s.sources[e.p], e);
  }

  lemma TakeKeepsOk(s: System, plans: seq<Plan>, e: Step)
    requires Ok(s, plans)
    ensures Ok(Take(s, e), plans)
  {
    if ByProvider(e) {
      if e.p < |s.sources| {
        ProvideKeepsOk(s, plans, e);
      }
    } else if s.phase.Opening? {
      OpenKeepsOk(s, plans, e);
    } else if s.phase.Relaying? {
      RelayKeepsOk(s, plans, e);
    }
  }

  lemma {:induction false} RunKeepsOk(s: System, plans: seq<Plan>, steps: seq<Step>)
    requires Ok(s, plans)
    ensures Ok(Run(s, steps), plans)
    decreases |steps|
  {
    if steps != [] {
      TakeKeepsOk(s, plans, steps[0]);
      RunKeepsOk(Take(s, steps[0]), plans, steps[1..]);
    }
  }

  /**
    Under every schedule a finished body is either all chunks of one provider, or
    a nonempty prefix of them and that provider's error; then one [DONE].  So a
    truncated body always announces its error, whoever the provider is.
   */
  lemma FinishedBodyShape(plans: seq<Plan>, steps: seq<Step>) returns (n: nat)
    requires Run(Initial(plans), steps).phase.Finished?
    ensures
      var Finished(i, body) := Run(Initial(plans), steps).phase;
      && i < |plans| && n <= |plans[i].chunks|
      && ((n == |plans[i].chunks| && body == Events(plans[i].chunks) + [Done]) ||
          (plans[i].failure.Some? && body == Events(plans[i].chunks[..n]) + [ErrorEvent(plans[i].failure.value), Done]))
      && (plans[i].failure.Some? ==> n > 0)
  {
    RunKeepsOk(Initial(plans), plans, steps);
    var s := Run(Initial(plans), steps);
    n := s.sources[s.phase.i].taken;
    assert n == |plans[s.phase.i].chunks| ==> plans[s.phase.i].chunks[..n] == plans[s.phase.i].chunks;
  }

  /** Before the end, what has been written is a prefix of one provider's chunks, and nothing else. */
  lemma RelayedPrefix(plans: seq<Plan>, steps: seq<Step>) returns (n: nat)
    requires Run(Initial(plans), steps).phase.Relaying?
    ensures
      var Relaying(i, _, body) := Run(Initial(plans), steps).phase;
      && i < |plans| && n <= |plans[i].chunks| && body == Events(plans[i].chunks[..n])
      && (plans[i].failure.Some? ==> n > 0)
  {
    RunKeepsOk(Initial(plans), plans, steps);
    var s := Run(Initial(plans), steps);
    n := s.sources[s.phase.i].taken;
  }

  // ----- When an error is always reported -----

  /** If this schedule ends on provider `i`, the client is told of its error. */
  ghost predicate ReportsError(plans: seq<Plan>, i: nat, steps: seq<Step>)
    requires i < |plans| && plans[i].failure.Some?
  {
    match Run(Initial(plans), steps).phase
    case Finished(j, body) => j == i ==> ErrorEvent(plans[i].failure.value) in body
    case _ => true
  }

  ghost predicate EndsOn(plans: seq<Plan>, i: nat, steps: seq<Step>) {
    var phase := Run(Initial(plans), steps).phase;
    phase.Finished? && phase.i == i
  }

  lemma {:induction false} RunAppend(s: System, a: seq<Step>, b: seq<Step>)
    ensures Run(s, a + b) == Run(Run(s, a), b)
    decreases |a|
  {
    if a == [] {
      assert a + b == b;
    } else {
      assert (a + b)[1..] == a[1..] + b;
      RunAppend(Take(s, a[0]), a[1..], b);
    }
  }

  lemma RunOne(s: System, e: Step)
    ensures Run(s, [e]) == Take(s, e)
  {
    assert [e][1..] == [];
  }

  lemma RunSnoc(s: System, steps: seq<Step>, e: Step)
    ensures Run(s, steps + [e]) == Take(Run(s, steps), e)
  {
    RunAppend(s, steps, [e]);
    RunOne(Run(s, steps), e);
  }

  /** The breakers refuse the first `i` providers. */
  function Skips(i: nat): seq<Step> {
    if i == 0 then [] else Skips(i - 1) + [Gate(false)]
  }

  lemma {:induction false} SkipsReach(plans: seq<Plan>, i: nat)
    requires i <= |plans|
    ensures Run(Initial(plans), Skips(i)) == Initial(plans).(phase := Choosing(i))
  {
    if i > 0 {
      SkipsReach(plans, i - 1);
      RunSnoc(Initial(plans), Skips(i - 1), Gate(false));
    }
  }

  /** Provider `i` is tried, and each of its first `n` chunks is taken as soon as it is sent. */
  function Delivers(i: nat, n: nat): seq<Step> {
    if n == 0 then Skips(i) + [Gate(true)] else Delivers(i, n - 1) + [Send(i)] + [TakeChunk]
  }

  function Delivered(plans: seq<Plan>, i: nat, n: nat): System
    requires i < |plans| && n <= |plans[i].chunks|
  {
    System(Initial(plans).sources[i := Source(plans[i], true, n, false, false, false, n, false)],
           if n == 0 then Opening(i, false, false) else Relaying(i, false, Events(plans[i].chunks[..n])), None)
  }

  lemma DeliverOne(plans: seq<Plan>, i: nat, n: nat)
    requires i < |plans| && n < |plans[i].chunks|
    ensures Take(Take(Delivered(plans, i, n), Send(i)), TakeChunk) == Delivered(plans, i, n + 1)
  {
    var chunks := plans[i].chunks;
    var s := Take(Delivered(plans, i, n), Send(i));
    assert s.sources[i] == Source(plans[i], true, n + 1, false, false, false, n, false);
    var s' := Take(s, TakeChunk);
    EventsExtend(chunks, n);
    assert Events(chunks[..0]) + [Chunk(chunks[n])] == [Chunk(chunks[n])];
    assert s'.phase == Relaying(i, false, Events(chunks[..n + 1]));
    assert s'.sources == Delivered(plans, i, n + 1).sources;
  }

  lemma {:induction false} DeliversReach(plans: seq<Plan>, i: nat, n: nat)
    requires i < |plans| && n <= |plans[i].chunks|
    ensures Run(Initial(plans), Delivers(i, n)) == Delivered(plans, i, n)
    decreases n
  {
    if n == 0 {
      SkipsReach(plans, i);
      RunSnoc(Initial(plans), Skips(i), Gate(true));
      assert Run(Initial(plans), Delivers(i, 0)).sources == Delivered(plans, i, 0).sources;
    } else {
      DeliversReach(plans, i, n - 1);
      RunSnoc(Initial(plans), Delivers(i, n - 1), Send(i));
      RunSnoc(Initial(plans), Delivers(i, n - 1) + [Send(i)], TakeChunk);
      DeliverOne(plans, i, n - 1);
    }
  }

  /** The error waits, both channels are closed, and the handler looks at the chunk channel first. */
  lemma LosingEnd(plans: seq<Plan>, i: nat, s: System)
    requires i < |plans| && plans[i].failure.Some? && plans[i].chunks != []
    requires s == Delivered(plans, i, |plans[i].chunks|)
    ensures Take(Take(Take(Take(s, SendError(i)), CloseErrors(i)), CloseChunks(i)), SeeChunksClosed).phase
         == Finished(i, Events(plans[i].chunks) + [Done])
  {
    var s1 := Take(s, SendError(i));
    assert s1.sources[i] == s.sources[i].(errSent := true);
    var s2 := Take(s1, CloseErrors(i));
    assert s2.sources[i] == s1.sources[i].(errClosed := true);
    var s3 := Take(s2, CloseChunks(i));
    assert s3.sources[i] == s2.sources[i].(chClosed := true);
    assert plans[i].chunks[..|plans[i].chunks|] == plans[i].chunks;
  }

  /** Whatever the other providers, an error after some chunk can be lost, though no chunk is. */
  lemma LateErrorMayBeDropped(plans: seq<Plan>, i: nat) returns (steps: seq<Step>)
    requires i < |plans| && plans[i].failure.Some? && plans[i].chunks != []
    ensures Run(Initial(plans), steps).phase == Finished(i, Events(plans[i].chunks) + [Done])
    ensures !ReportsError(plans, i, steps)
  {
    var n := |plans[i].chunks|;
    var s := Delivered(plans, i, n);
    var a := Delivers(i, n);
    var b := a + [SendError(i)];
    var c := b + [CloseErrors(i)];
    var d := c + [CloseChunks(i)];
    steps := d + [SeeChunksClosed];
    DeliversReach(plans, i, n);
    RunSnoc(Initial(plans), a, SendError(i));
    RunSnoc(Initial(plans), b, CloseErrors(i));
    RunSnoc(Initial(plans), c, CloseChunks(i));
    RunSnoc(Initial(plans), d, SeeChunksClosed);
    LosingEnd(plans, i, s);
  }

  /**
    Every schedule that ends on a failing provider reports its error exactly
    when that provider sends no chunk: then no schedule ends on it at all, and
    with any chunk some schedule loses the error.
   */
  lemma ErrorReportedExactlyWhen(plans: seq<Plan>, i: nat)
    requires i < |plans| && plans[i].failure.Some?
    ensures (forall steps :: ReportsError(plans, i, steps)) <==> plans[i].chunks == []
    ensures plans[i].chunks == [] ==> forall steps :: !EndsOn(plans, i, steps)
  {
    if plans[i].chunks == [] {
      forall steps
        ensures ReportsError(plans, i, steps) && !EndsOn(plans, i, steps)
      {
        RunKeepsOk(Initial(plans), plans, steps);
      }
    } else {
      var steps := LateErrorMayBeDropped(plans, i);
    }
  }

  // ----- Who is tried, and when a request gives up -----

  /** What ends the wait for the first event of the current provider without one. */
  predicate FirstEventFails(s: System, e: Step, f: Failure) {
    && s.phase.Opening? && s.phase.i < |s.sources|
    && ((e.TakeError? && !s.phase.errDone && ErrorWaiting(s.sources[s.phase.i])
         && s.sources[s.phase.i].plan.failure == Some(f))
        || e == Deadline(f))
  }

  /**
    From any reachable state, a failure before the first chunk leads to the next
    provider exactly when it is retryable and ends the request otherwise; a
    provider its breaker refuses is passed over; and nothing else moves on or
    gives up but having no provider left.
   */
  lemma MovesOnExactlyWhen(plans: seq<Plan>, steps: seq<Step>, e: Step)
    requires !Final(Run(Initial(plans), steps))
    ensures
      var s := Run(Initial(plans), steps);
      var s' := Take(s, e);
      && (forall f :: FirstEventFails(s, e, f) && f.retryable ==> s'.phase == Choosing(s.phase.i + 1))
      && (forall f :: FirstEventFails(s, e, f) && !f.retryable ==> s'.phase == Failed(Some(f)))
      && (s'.phase.Failed? <==>
           (exists f :: FirstEventFails(s, e, f) && !f.retryable) || (s.phase == Choosing(|plans|) && e.GiveUp?))
      && (s'.phase.Choosing? && s'.phase != s.phase <==>
           (exists f :: FirstEventFails(s, e, f) && f.retryable) ||
           (s.phase.Choosing? && s.phase.i < |plans| && e == Gate(false)))
  {
    RunKeepsOk(Initial(plans), plans, steps);
    var s := Run(Initial(plans), steps);
    if s.phase.Opening? && e.TakeError? && !s.phase.errDone && ErrorWaiting(s.sources[s.phase.i]) {
      assert FirstEventFails(s, e, s.sources[s.phase.i].plan.failure.value);
    }
    if s.phase.Opening? && e.Deadline? {
      assert FirstEventFails(s, e, e.failure);
    }
  }

  // ----- What a failed request reports -----

  /** The last provider tried among the first `n` failed with `f`: its own error if that was taken, or a deadline. */
  ghost predicate Blames(srcs: seq<Source>, n: int, f: Failure) {
    exists j :: 0 <= j < n <= |srcs| && srcs[j].started
      && (forall i :: j < i < n ==> !srcs[i].started)
      && (srcs[j].errTaken ==> srcs[j].plan.failure == Some(f))
  }

  ghost predicate NoneTried(srcs: seq<Source>, n: int) {
    forall i :: 0 <= i < n <= |srcs| ==> !srcs[i].started
  }

  ghost predicate Explains(srcs: seq<Source>, n: int, error: Option<Failure>) {
    match error
    case None => NoneTried(srcs, n)
    case Some(f) => Blames(srcs, n, f)
  }

  ghost predicate ErrorsOk(s: System) {
    match s.phase
    case Choosing(i) => Explains(s.sources, i, s.lastErr)
    case Opening(i, _, _) => Explains(s.sources, i, s.lastErr)
    case Failed(error) => Explains(s.sources, |s.sources|, error)
    case _ => true
  }

  predicate SamePart(src: Source, src': Source) {
    src'.started == src.started && src'.errTaken == src.errTaken && src'.plan == src.plan
  }

  lemma ProvideKeepsPart(src: Source, e: Step)
    ensures SamePart(src, Provide(src, e))
  {
  }

  /** What explains the error stays the explanation while the sources keep their part in it. */
  lemma ExplainsStays(srcs: seq<Source>, srcs': seq<Source>, n: int, n': int, error: Option<Failure>)
    requires Explains(srcs, n, error) && 0 <= n <= n' <= |srcs| == |srcs'|
    requires forall i :: 0 <= i < n ==> SamePart(srcs[i], srcs'[i])
    requires forall i :: n <= i < n' ==> !srcs'[i].started
    ensures Explains(srcs', n', error)
  {
    if error.Some? {
      var j :| 0 <= j < n <= |srcs| && srcs[j].started
        && (forall i :: j < i < n ==> !srcs[i].started)
        && (srcs[j].errTaken ==> srcs[j].plan.failure == error);
      assert srcs'[j].started;
    }
  }

  lemma FallbackKeepsErrors(s: System, plans: seq<Plan>, i: nat, f: Failure)
    requires |s.sources| == |plans| && i < |plans| && s.sources[i].started
    requires s.sources[i].errTaken ==> s.sources[i].plan.failure == Some(f)
    requires forall j :: i < j < |s.sources| ==> !s.sources[j].started
    ensures ErrorsOk(Fallback(s, i, f))
  {
    assert s.sources[i].started;
  }

  lemma OpenKeepsErrors(s: System, plans: seq<Plan>, e: Step)
    requires Ok(s, plans) && ErrorsOk(s) && s.phase.Opening?
    ensures ErrorsOk(Open(s, s.phase.i, s.phase.chDone, s.phase.errDone, e))
  {
    var i := s.phase.i;
    var src := s.sources[i];
    if e.TakeError? && !s.phase.errDone && ErrorWaiting(src) {
      FallbackKeepsErrors(s.(sources := s.sources[i := src.(errTaken := true)]), plans, i, src.plan.failure.value);
    } else if e.Deadline? {
      FallbackKeepsErrors(s, plans, i, e.failure);
    }
  }

  lemma ProvideKeepsErrors(s: System, plans: seq<Plan>, e: Step)
    requires Ok(s, plans) && ErrorsOk(s) && ByProvider(e) && e.p < |s.sources|
    ensures ErrorsOk(s.(sources := s.sources[e.p := Provide(s.sources[e.p], e)]))
  {
    ProvideKeepsPart(s.sources[e.p], e);
    var srcs := s.sources[e.p := Provide(s.sources[e.p], e)];
    assert forall i :: 0 <= i < |srcs| ==> SamePart(s.sources[i], srcs[i]);
    match s.phase
    case Choosing(i) => ExplainsStays(s.sources, srcs, i, i, s.lastErr);
    case Opening(i, _, _) => ExplainsStays(s.sources, srcs, i, i, s.lastErr);
    case Failed(error) => ExplainsStays(s.sources, srcs, |srcs|, |srcs|, error);
    case _ =>
  }

  lemma TakeKeepsErrors(s: System, plans: seq<Plan>, e: Step)
    requires Ok(s, plans) && ErrorsOk(s)
    ensures ErrorsOk(Take(s, e))
  {
    if ByProvider(e) {
      if e.p < |s.sources| {
        ProvideKeepsErrors(s, plans, e);
      }
    } else if s.phase.Opening? {
      OpenKeepsErrors(s, plans, e);
    } else if s.phase.Choosing? && e.Gate? && s.phase.i < |s.sources| {
      var i := s.phase.i;
      ExplainsStays(s.sources, Take(s, e).sources, i, if e.admit then i else i + 1, s.lastErr);
    }
  }

  lemma {:induction false} RunKeepsErrors(s: System, plans: seq<Plan>, steps: seq<Step>)
    requires Ok(s, plans) && ErrorsOk(s)
    ensures ErrorsOk(Run(s, steps))
    decreases |steps|
  {
    if steps != [] {
      TakeKeepsErrors(s, plans, steps[0]);
      TakeKeepsOk(s, plans, steps[0]);
      RunKeepsErrors(Take(s, steps[0]), plans, steps[1..]);
    }
  }

  /**
    A failed request carries no error exactly when no provider was tried.
    Otherwise it carries the error of the last one tried, or the deadline that
    cut that one short.
   */
  lemma FailureReportsLastTried(plans: seq<Plan>, steps: seq<Step>)
    requires Run(Initial(plans), steps).phase.Failed?
    ensures
      var s := Run(Initial(plans), steps);
      && (s.phase.error.None? <==> NoneTried(s.sources, |s.sources|))
      && (s.phase.error.Some? ==> Blames(s.sources, |s.sources|, s.phase.error.value))
  {
    RunKeepsErrors(Initial(plans), plans, steps);
  }

  // ----- No schedule gets stuck -----

  predicate Final(s: System) {
    s.phase.Finished? || s.phase.Failed?
  }

  /** A step that some party can take next, without waiting for a deadline. */
  ghost function Ready(s: System): Step
    requires PhaseOk(s)
  {
    match s.phase
    case Choosing(i) => if i < |s.sources| then Gate(true) else GiveUp
    case Opening(i, chDone, errDone) => ReadyAt(s.sources[i], i, chDone)
    case Relaying(i, errDone, _) => ReadyAt(s.sources[i], i, false)
    case _ => GiveUp
  }

  ghost function ReadyAt(src: Source, i: nat, chDone: bool): Step {
    if src.taken < src.sent then TakeChunk
    else if ErrorWaiting(src) then TakeError
    else if src.sent < |src.plan.chunks| then Send(i)
    else if !SaidAll(src) then SendError(i)
    else if !src.errClosed then CloseErrors(i)
    else if !src.chClosed then CloseChunks(i)
    else if !chDone then SeeChunksClosed
    else SeeErrorsClosed
  }

  /** The work left in a provider and its channels. */
  function Backlog(src: Source): nat
    requires src.taken <= src.sent <= |src.plan.chunks|
  {
    (|src.plan.chunks| - src.sent) + (|src.plan.chunks| - src.taken)
    + (if src.started then 0 else 1) + (if src.errSent then 0 else 1) + (if src.errTaken then 0 else 1)
    + (if src.chClosed then 0 else 1) + (if src.errClosed then 0 else 1)
  }

  function TotalBacklog(srcs: seq<Source>): nat
    requires forall i :: 0 <= i < |srcs| ==> srcs[i].taken <= srcs[i].sent <= |srcs[i].plan.chunks|
  {
    if srcs == [] then 0 else Backlog(srcs[0]) + TotalBacklog(srcs[1..])
  }

  function PhaseRank(s: System): int {
    var n := |s.sources|;
    match s.phase
    case Choosing(i) => 4 * (n - i) + 4
    case Opening(i, chDone, errDone) => 4 * (n - i) + 3 - (if chDone then 1 else 0) - (if errDone then 1 else 0)
    case Relaying(_, errDone, _) => if errDone then 1 else 2
    case _ => 0
  }

  ghost function Measure(s: System, plans: seq<Plan>): int
    requires Ok(s, plans)
  {
    TotalBacklog(s.sources) + PhaseRank(s)
  }

  lemma {:induction false} BacklogUpdate(srcs: seq<Source>, i: nat, src: Source)
    requires forall j :: 0 <= j < |srcs| ==> srcs[j].taken <= srcs[j].sent <= |srcs[j].plan.chunks|
    requires i < |srcs| && src.taken <= src.sent <= |src.plan.chunks|
    ensures TotalBacklog(srcs[i := src]) == TotalBacklog(srcs) - Backlog(srcs[i]) + Backlog(src)
  {
    if i == 0 {
      assert srcs[i := src][1..] == srcs[1..];
    } else {
      assert srcs[i := src][1..] == srcs[1..][i - 1 := src];
      BacklogUpdate(srcs[1..], i - 1, src);
    }
  }

  lemma ProvideMakesProgress(src: Source, e: Step)
    requires Consistent(src)
    ensures Consistent(Provide(src, e)) && (Provide(src, e) != src ==> Backlog(Provide(src, e)) < Backlog(src))
  {
  }

  lemma OpenMakesProgress(s: System, plans: seq<Plan>, e: Step)
    requires Ok(s, plans) && s.phase.Opening?
    ensures
      var s' := Open(s, s.phase.i, s.phase.chDone, s.phase.errDone, e);
      Ok(s', plans) && (s' != s ==> Measure(s', plans) < Measure(s, plans))
  {
    OpenKeepsOk(s, plans, e);
    var src := s.sources[s.phase.i];
    if e.TakeChunk? && src.taken < src.sent {
      BacklogUpdate(s.sources, s.phase.i, src.(taken := src.taken + 1));
    } else if e.TakeError? {
      BacklogUpdate(s.sources, s.phase.i, src.(errTaken := true));
    }
  }

  lemma RelayMakesProgress(s: System, plans: seq<Plan>, e: Step)
    requires Ok(s, plans) && s.phase.Relaying?
    ensures
      var s' := Relay(s, s.phase.i, s.phase.errDone, s.phase.body, e);
      Ok(s', plans) && (s' != s ==> Measure(s', plans) < Measure(s, plans))
  {
    RelayKeepsOk(s, plans, e);
    var src := s.sources[s.phase.i];
    if e.TakeChunk? && src.taken < src.sent {
      BacklogUpdate(s.sources, s.phase.i, src.(taken := src.taken + 1));
    } else if e.TakeError? {
      BacklogUpdate(s.sources, s.phase.i, src.(errTaken := true));
    }
  }

  /** Every step that does anything brings the exchange closer to its end. */
  lemma StepsMakeProgress(s: System, plans: seq<Plan>, e: Step)
    requires Ok(s, plans) && Take(s, e) != s
    ensures Ok(Take(s, e), plans) && Measure(Take(s, e), plans) < Measure(s, plans)
  {
    TakeKeepsOk(s, plans, e);
    if ByProvider(e) {
      var src := s.sources[e.p];
      ProvideMakesProgress(src, e);
      BacklogUpdate(s.sources, e.p, Provide(src, e));
    } else if s.phase.Opening? {
      OpenMakesProgress(s, plans, e);
    } else if s.phase.Relaying? {
      RelayMakesProgress(s, plans, e);
    } else if s.phase.Choosing? && e.Gate? && e.admit {
      BacklogUpdate(s.sources, s.phase.i, s.sources[s.phase.i].(started := true));
    }
  }

  /** Until the exchange has ended some party can move, so no schedule deadlocks. */
  lemma NeverStuck(plans: seq<Plan>, steps: seq<Step>)
    requires !Final(Run(Initial(plans), steps))
    ensures
      var s := Run(Initial(plans), steps);
      exists e: Step :: !e.Deadline? && Take(s, e) != s
  {
    RunKeepsOk(Initial(plans), plans, steps);
    var s := Run(Initial(plans), steps);
    var e := Ready(s);
    var s' := Take(s, e);
    if s.phase.Opening? || s.phase.Relaying? {
      var src := s.sources[s.phase.i];
      assert Consistent(src);
    }
    assert s' != s;
  }

  /** Every step of the run does something. */
  ghost predicate Effective(s: System, steps: seq<Step>)
    decreases |steps|
  {
    steps == [] || (Take(s, steps[0]) != s && Effective(Take(s, steps[0]), steps[1..]))
  }

  lemma {:induction false} EffectiveRunsAreBounded(s: System, plans: seq<Plan>, steps: seq<Step>)
    requires Ok(s, plans) && Effective(s, steps)
    ensures |steps| <= Measure(s, plans)
    decreases |steps|
  {
    if steps != [] {
      StepsMakeProgress(s, plans, steps[0]);
      EffectiveRunsAreBounded(Take(s, steps[0]), plans, steps[1..]);
    }
  }
}
