/**
  The hedged race `DoHedge` (internal/resilience/hedge.go): a primary call, a
  timer, a fallback call started when the timer fires first, two result channels
  with room for one, and a context that ends when the caller gives up or
  DoHedge returns.  Any ready branch of a `select` may be taken, so a run is any
  sequence of steps.
 */
module Hedge {
  import opened Options

  datatype Result = Success(value: int) | Error(error: int) | Cancelled

  /** A goroutine: not started, running its call, holding the result, gone. */
  datatype Branch = Idle | Running | Computed | Gone

  datatype Main =
    | Waiting
    | Racing
    | AwaitFallback
    | AwaitPrimary
    | Returned(result: Result)

  datatype System = System(
    main: Main,
    primary: Branch,
    fallback: Branch,
    primaryCh: Option<Result>,
    fallbackCh: Option<Result>,
    hedged: bool,
    cancelled: bool)

  datatype Step =
    | Compute(primary: bool)
    | Deliver(primary: bool)
    /** The goroutine sees the context done instead of sending. */
    | Discard(primary: bool)
    | TimerFires
    | Receive(primary: bool)
    | CallerCancels
    | SeeCancelled

  /** What each branch's call returns if it is allowed to finish; never a context error of DoHedge itself. */
  datatype Calls = Calls(primary: Result, fallback: Result)

  const START := System(Waiting, Running, Idle, None, None, false, false)

  predicate ContextDone(s: System) {
    s.cancelled || s.main.Returned?
  }

  function AfterReceive(s: System, primary: bool, r: Result): Main {
    match s.main
    case Waiting => Returned(r)
    case Racing => if r.Success? then Returned(r) else if primary then AwaitFallback else AwaitPrimary
    case AwaitFallback => Returned(r)
    case AwaitPrimary => Returned(r)
    case Returned(_) => s.main
  }

  function Take(s: System, calls: Calls, e: Step): System {
    match e
    case Compute(true) => if s.primary.Running? then s.(primary := Computed) else s
    case Compute(false) => if s.fallback.Running? then s.(fallback := Computed) else s
    case Deliver(true) =>
      if s.primary.Computed? && s.primaryCh.None?
      then s.(primary := Gone, primaryCh := Some(calls.primary)) else s
    case Deliver(false) =>
      if s.fallback.Computed? && s.fallbackCh.None?
      then s.(fallback := Gone, fallbackCh := Some(calls.fallback)) else s
    case Discard(true) => if s.primary.Computed? && ContextDone(s) then s.(primary := Gone) else s
    case Discard(false) => if s.fallback.Computed? && ContextDone(s) then s.(fallback := Gone) else s
    case TimerFires =>
      if s.main.Waiting? then s.(main := Racing, fallback := Running, hedged := true) else s
    case Receive(true) =>
      if s.primaryCh.Some? && (s.main.Waiting? || s.main.Racing? || s.main.AwaitPrimary?)
      then s.(main := AfterReceive(s, true, s.primaryCh.value), primaryCh := None) else s
    case Receive(false) =>
      if s.fallbackCh.Some? && (s.main.Racing? || s.main.AwaitFallback?)
      then s.(main := AfterReceive(s, false, s.fallbackCh.value), fallbackCh := None) else s
    case CallerCancels => s.(cancelled := true)
    case SeeCancelled =>
      if s.cancelled && !s.main.Returned? then s.(main := Returned(Cancelled)) else s
  }

  function Run(s: System, calls: Calls, steps: seq<Step>): System
    decreases |steps|
  {
    if steps == [] then s else Run(Take(s, calls, steps[0]), calls, steps[1..])
  }

  ghost predicate Ok(s: System, calls: Calls) {
    // a channel is filled only by its own, finished goroutine
    && (s.primaryCh.Some? ==> s.primaryCh.value == calls.primary && s.primary.Gone?)
    && (s.fallbackCh.Some? ==> s.fallbackCh.value == calls.fallback && s.fallback.Gone?)
    && (s.hedged <==> !s.fallback.Idle?)
    && !s.primary.Idle?
    && (match s.main
        case Waiting => !s.hedged && (s.primary.Gone? ==> s.primaryCh.Some? || s.cancelled)
        case Racing =>
          && s.hedged
          && (s.primary.Gone? ==> s.primaryCh.Some? || s.cancelled)
          && (s.fallback.Gone? ==> s.fallbackCh.Some? || s.cancelled)
        case AwaitFallback =>
          && s.hedged && s.primary.Gone? && !calls.primary.Success?
          && (s.fallback.Gone? ==> s.fallbackCh.Some? || s.cancelled)
        case AwaitPrimary =>
          && s.hedged && s.fallback.Gone? && !calls.fallback.Success?
          && (s.primary.Gone? ==> s.primaryCh.Some? || s.cancelled)
        case Returned(r) =>
          || (r.Cancelled? && s.cancelled)
          || (!s.hedged && r == calls.primary && s.primary.Gone?)
          || (s.hedged && r.Success? && r == calls.primary && s.primary.Gone?)
          || (s.hedged && r.Success? && r == calls.fallback && s.fallback.Gone?)
          || (s.hedged && (r == calls.primary || r == calls.fallback) && s.primary.Gone? && s.fallback.Gone?
              && !calls.primary.Success? && !calls.fallback.Success?))
  }

  lemma TakeKeepsOk(s: System, calls: Calls, e: Step)
    requires Ok(s, calls)
    ensures Ok(Take(s, calls, e), calls)
  {
  }

  lemma {:induction false} RunKeepsOk(s: System, calls: Calls, steps: seq<Step>)
    requires Ok(s, calls)
    ensures Ok(Run(s, calls, steps), calls)
    ensures !s.cancelled && CallerCancels !in steps ==> !Run(s, calls, steps).cancelled
    decreases |steps|
  {
    if steps != [] {
      TakeKeepsOk(s, calls, steps[0]);
      RunKeepsOk(Take(s, calls, steps[0]), calls, steps[1..]);
    }
  }

  /**
    Without cancellation, a race whose timer fired succeeds exactly when one of
    the calls does, with the value of a call that finished; it reports an error
    only after both calls finished and failed.  If the timer never fired the
    answer is the primary's own.
   */
  lemma HedgeResult(calls: Calls, steps: seq<Step>)
    requires CallerCancels !in steps && !calls.primary.Cancelled? && !calls.fallback.Cancelled?
    requires Run(START, calls, steps).main.Returned?
    ensures
      var s := Run(START, calls, steps);
      var r := s.main.result;
      if !s.hedged then r == calls.primary
      else
        && (r.Success? <==> calls.primary.Success? || calls.fallback.Success?)
        && (r.Success? ==> (r == calls.primary && s.primary.Gone?) || (r == calls.fallback && s.fallback.Gone?))
        && (!r.Success? ==> (r == calls.primary || r == calls.fallback) && s.primary.Gone? && s.fallback.Gone?)
  {
    RunKeepsOk(START, calls, steps);
  }

  /** A primary that fails before the timer fires decides the race, even if the fallback would have succeeded. */
  lemma EarlyFailureIsNotHedged(calls: Calls) returns (steps: seq<Step>)
    ensures CallerCancels !in steps && Run(START, calls, steps).main == Returned(calls.primary)
  {
    var e1, e2, e3 := Compute(true), Deliver(true), Receive(true);
    steps := [e1, e2, e3];
    assert steps[1..] == [e2, e3] && [e2, e3][1..] == [e3] && [e3][1..] == [];
    var s1 := Take(START, calls, e1);
    var s2 := Take(s1, calls, e2);
    var s3 := Take(s2, calls, e3);
    assert Run(s2, calls, [e3]) == Run(s3, calls, []) == s3;
    assert Run(s1, calls, [e2, e3]) == Run(s2, calls, [e3]);
  }

  ghost predicate Succeeds(calls: Calls, steps: seq<Step>) {
    var main := Run(START, calls, steps).main;
    CallerCancels !in steps && main.Returned? ==> main.result.Success?
  }

  /** Every uncancelled schedule succeeds exactly when the primary does: the fallback only helps after the timer. */
  lemma AlwaysSucceedsExactlyWhen(calls: Calls)
    requires !calls.primary.Cancelled? && !calls.fallback.Cancelled?
    ensures (forall steps :: Succeeds(calls, steps)) <==> calls.primary.Success?
  {
    if calls.primary.Success? {
      forall steps
        ensures Succeeds(calls, steps)
      {
        if CallerCancels !in steps && Run(START, calls, steps).main.Returned? {
          HedgeResult(calls, steps);
        }
      }
    } else {
      var steps := EarlyFailureIsNotHedged(calls);
      assert !Succeeds(calls, steps);
    }
  }

  /** When the timer fires first the fallback is started, and its result can be the answer. */
  lemma FallbackCanWin(calls: Calls) returns (steps: seq<Step>)
    requires calls.fallback.Success?
    ensures CallerCancels !in steps && Run(START, calls, steps).main == Returned(calls.fallback)
  {
    var e1, e2, e3, e4 := TimerFires, Compute(false), Deliver(false), Receive(false);
    steps := [e1, e2, e3, e4];
    assert steps[1..] == [e2, e3, e4] && [e2, e3, e4][1..] == [e3, e4] && [e3, e4][1..] == [e4] && [e4][1..] == [];
    var s1 := Take(START, calls, e1);
    var s2 := Take(s1, calls, e2);
    var s3 := Take(s2, calls, e3);
    var s4 := Take(s3, calls, e4);
    assert Run(s3, calls, [e4]) == Run(s4, calls, []) == s4;
    assert Run(s2, calls, [e3, e4]) == Run(s3, calls, [e4]);
    assert Run(s1, calls, [e2, e3, e4]) == Run(s2, calls, [e3, e4]);
  }

  /** An uncancelled schedule that ends in a success. */
  ghost predicate Wins(calls: Calls, steps: seq<Step>) {
    var main := Run(START, calls, steps).main;
    CallerCancels !in steps && main.Returned? && main.result.Success?
  }

  /** Some uncancelled schedule succeeds exactly when one of the two calls does. */
  lemma CanSucceedExactlyWhen(calls: Calls)
    requires !calls.primary.Cancelled? && !calls.fallback.Cancelled?
    ensures (exists steps :: Wins(calls, steps)) <==> calls.primary.Success? || calls.fallback.Success?
  {
    if calls.primary.Success? {
      var steps := EarlyFailureIsNotHedged(calls);
      assert Wins(calls, steps);
    } else if calls.fallback.Success? {
      var steps := FallbackCanWin(calls);
      assert Wins(calls, steps);
    } else if steps :| Wins(calls, steps) {
      HedgeResult(calls, steps);
    }
  }

  /** A caller that gives up gets the cancellation at once, and nobody else ever does. */
  lemma CancellationIsTheCallers(calls: Calls, steps: seq<Step>)
    requires !calls.primary.Cancelled? && !calls.fallback.Cancelled?
    ensures
      var s := Run(START, calls, steps);
      && (s.main == Returned(Cancelled) ==> CallerCancels in steps)
      && (!s.main.Returned? ==>
           Take(Take(s, calls, CallerCancels), calls, SeeCancelled).main == Returned(Cancelled))
  {
    RunKeepsOk(START, calls, steps);
  }

  /** In every run, cancelled or not, a goroutine that holds a result can send it at once. */
  lemma SendsNeverBlock(calls: Calls, steps: seq<Step>, primary: bool)
    ensures
      var s := Run(START, calls, steps);
      (if primary then s.primary else s.fallback).Computed? ==>
        (var s' := Take(s, calls, Deliver(primary)); (if primary then s'.primary else s'.fallback).Gone?)
  {
    RunKeepsOk(START, calls, steps);
  }

  /** Until it returns, some party can always move: the race cannot deadlock. */
  lemma NeverStuck(calls: Calls, steps: seq<Step>)
    requires !Run(START, calls, steps).main.Returned?
    ensures
      var s := Run(START, calls, steps);
      exists e: Step :: !e.CallerCancels? && !e.TimerFires? && Take(s, calls, e) != s
  {
    RunKeepsOk(START, calls, steps);
    var s := Run(START, calls, steps);
    var onPrimary := !s.main.AwaitFallback?;
    var b := if onPrimary then s.primary else s.fallback;
    var e :=
      if b.Running? then Compute(onPrimary)
      else if b.Computed? then Deliver(onPrimary)
      else if (if onPrimary then s.primaryCh else s.fallbackCh).Some? then Receive(onPrimary)
      else SeeCancelled;
    assert Take(s, calls, e) != s;
  }
}
