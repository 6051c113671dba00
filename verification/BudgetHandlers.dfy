/**
  The request handlers over the shared ledger: what ServeHTTP does with its
  reservation (internal/proxy/handler.go:316-411, internal/proxy/embeddings.go:254-313).

  A streaming request settles when its stream is over.  Any other request
  commits when it completed, notes that it did, and a deferred function cancels
  on the way out if it did not.  A panic unwinds through the deferred function;
  a streaming handler has none.  A run interleaves the steps of any number of
  handlers with configuration reloads and Record calls.
 */
module BudgetHandlers {
  import opened Options
  import opened Budget
  import BudgetRuns

  /** Where a handler is. */
  datatype Pc =
    /** In Reserve, before and after it read the limits. */
    | Snapping
    | Locking
    /** The provider call or the stream is running. */
    | Serving
    | Served(outcome: Outcome)
    /** The commit was made and the flag is not yet set. */
    | Unflagged
    /** On the way out, with the deferred function still to run. */
    | Deferred(committed: bool)
    | Returned
    /** A streaming handler that panicked. */
    | Crashed

  /**
    `reservation` is the handler's request in the ledger, or nothing when budgets
    do not apply to it.  `ended` is how its call ended, and `lost` says that it
    panicked before it settled.
   */
  datatype Handler = Handler(
    streaming: bool, estimate: Usage, reservation: Option<nat>, pc: Pc, ended: Option<Outcome>, lost: bool)

  /** `owners[r]` is the handler of request `r`. */
  datatype System = System(base: BudgetRuns.System, handlers: seq<Handler>, owners: seq<nat>)

  datatype Step =
    | Install(enabled: bool, limits: Limits)
    | Record(key: Account, usage: Usage)
    | Arrive(key: Account, estimate: Usage, streaming: bool)
    | Snap(h: nat)
    | Locks(h: nat)
    | Ends(h: nat, outcome: Outcome)
    | Settles(h: nat)
    | Flags(h: nat)
    | Returns(h: nat)
    | Panics(h: nat)

  function Initial(enabled: bool, limits: Limits): System {
    System(BudgetRuns.Initial(enabled, limits), [], [])
  }

  /** Streams end started or not, other calls completed or not. */
  predicate Suits(streaming: bool, outcome: Outcome) {
    streaming <==> outcome.StreamStarted? || outcome.StreamNotStarted?
  }

  function Settlement(handler: Handler, outcome: Outcome, r: nat): Option<BudgetRuns.Step> {
    match outcome
    case StreamStarted => Some(BudgetRuns.Commit(r, handler.estimate))
    case StreamNotStarted => Some(BudgetRuns.Cancel(r))
    case Completed(actual) => Some(BudgetRuns.Commit(r, actual))
    case DispatchFailed => None
  }

  /** What a handler's step does to the ledger. */
  function Touches(handler: Handler, e: Step): Option<BudgetRuns.Step> {
    match handler.reservation
    case None => None
    case Some(r) =>
      match e
      case Snap(_) => if handler.pc.Snapping? then Some(BudgetRuns.Snapshot(r)) else None
      case Locks(_) => if handler.pc.Locking? then Some(BudgetRuns.Lock(r)) else None
      case Settles(_) => if handler.pc.Served? then Settlement(handler, handler.pc.outcome, r) else None
      case Returns(_) =>
        if handler.pc.Deferred? && !handler.pc.committed then Some(BudgetRuns.Cancel(r)) else None
      case _ => None
  }

  function Apply(base: BudgetRuns.System, e: Option<BudgetRuns.Step>): BudgetRuns.System {
    match e
    case None => base
    case Some(b) => BudgetRuns.Take(base, b)
  }

  /** Where the step takes the handler; `admitted` is the answer of the reservation. */
  function Moves(handler: Handler, e: Step, admitted: bool): Pc {
    match e
    case Snap(_) => if handler.pc.Snapping? then Locking else handler.pc
    case Locks(_) => if handler.pc.Locking? then (if admitted then Serving else Returned) else handler.pc
    case Ends(_, outcome) =>
      if handler.pc.Serving? && Suits(handler.streaming, outcome) then Served(outcome) else handler.pc
    case Settles(_) =>
      if !handler.pc.Served? then handler.pc
      else if handler.streaming then Returned
      else if handler.pc.outcome.Completed? && handler.reservation.Some? then Unflagged
      else Deferred(false)
    case Flags(_) => if handler.pc.Unflagged? then Deferred(true) else handler.pc
    case Returns(_) => if handler.pc.Deferred? then Returned else handler.pc
    case Panics(_) =>
      if handler.pc.Serving? || handler.pc.Served? || handler.pc.Unflagged?
      then (if handler.streaming then Crashed else Deferred(false))
      else handler.pc
    case _ => handler.pc
  }

  function Acts(s: System, h: nat, e: Step): System
    requires h < |s.handlers|
  {
    var handler := s.handlers[h];
    var base := Apply(s.base, Touches(handler, e));
    var admitted := handler.reservation.Some? && BudgetRuns.AtHolding(base, handler.reservation.value);
    var ended :=
      if e.Ends? && handler.pc.Serving? && Suits(handler.streaming, e.outcome) then Some(e.outcome) else handler.ended;
    var lost := handler.lost || (e.Panics? && (handler.pc.Serving? || handler.pc.Served?));
    s.(base := base,
       handlers := s.handlers[h := handler.(pc := Moves(handler, e, admitted), ended := ended, lost := lost)])
  }

  function Arrives(s: System, key: Account, estimate: Usage, streaming: bool): System {
    var base := BudgetRuns.Take(s.base, BudgetRuns.Enter(key, estimate));
    if base == s.base
    then s.(handlers := s.handlers + [Handler(streaming, estimate, None, Serving, None, false)])
    else System(base,
                s.handlers + [Handler(streaming, estimate, Some(|s.base.requests|), Snapping, None, false)],
                s.owners + [|s.handlers|])
  }

  function Take(s: System, e: Step): System {
    match e
    case Install(enabled, limits) => s.(base := BudgetRuns.Take(s.base, BudgetRuns.Install(enabled, limits)))
    case Record(key, usage) => s.(base := BudgetRuns.Take(s.base, BudgetRuns.Record(key, usage)))
    case Arrive(key, estimate, streaming) => Arrives(s, key, estimate, streaming)
    case _ => if e.h < |s.handlers| then Acts(s, e.h, e) else s
  }

  function Run(s: System, steps: seq<Step>): System
    decreases |steps|
  {
    if steps == [] then s else Run(Take(s, steps[0]), steps[1..])
  }

  // ----- A handler that has returned has settled -----

  predicate Fits(handler: Handler, phase: BudgetRuns.Phase) {
    match handler.pc
    case Snapping => phase.Entered?
    case Locking => phase.Snapped?
    case Serving => phase.Holding?
    case Served(_) => phase.Holding?
    case Unflagged => phase.Settled? && !handler.streaming
    case Deferred(committed) => (phase.Settled? || (!committed && phase.Holding?)) && !handler.streaming
    case Returned => phase.Denied? || phase.Settled?
    case Crashed => phase.Holding? && handler.streaming
  }

  /** Handlers and requests point at each other. */
  ghost predicate Linked(s: System) {
    && |s.owners| == |s.base.requests|
    && (forall r :: 0 <= r < |s.owners| ==>
          s.owners[r] < |s.handlers| && s.handlers[s.owners[r]].reservation == Some(r))
    && (forall h :: 0 <= h < |s.handlers| && s.handlers[h].reservation.Some? ==>
          s.handlers[h].reservation.value < |s.owners| && s.owners[s.handlers[h].reservation.value] == h)
  }

  ghost predicate Ok(s: System) {
    && Linked(s)
    && (forall h :: 0 <= h < |s.handlers| && s.handlers[h].reservation.Some? ==>
          Fits(s.handlers[h], s.base.requests[s.handlers[h].reservation.value].phase))
    && (forall h :: 0 <= h < |s.handlers| && s.handlers[h].pc.Served? ==>
          Suits(s.handlers[h].streaming, s.handlers[h].pc.outcome))
  }

  /** A step about request `r` leaves the other requests alone. */
  lemma OnlyOwnRequest(base: BudgetRuns.System, b: BudgetRuns.Step, r: nat)
    requires (b.Snapshot? || b.Lock? || b.Commit? || b.Cancel?) && b.request == r && r < |base.requests|
    ensures
      var base' := BudgetRuns.Take(base, b);
      && |base'.requests| == |base.requests|
      && (forall j :: 0 <= j < |base.requests| && j != r ==> base'.requests[j] == base.requests[j])
      && (match base.requests[r].phase
          case Entered => b.Snapshot? ==> base'.requests[r].phase.Snapped?
          case Snapped(_) => b.Lock? ==> base'.requests[r].phase.Holding? || base'.requests[r].phase.Denied?
          case Holding => b.Commit? || b.Cancel? ==> base'.requests[r].phase.Settled?
          case Settled => base'.requests[r].phase.Settled?
          case Denied => base'.requests[r].phase.Denied?)
  {
  }

  lemma ActsFits(s: System, h: nat, e: Step)
    requires Ok(s) && h < |s.handlers| && s.handlers[h].reservation.Some?
    ensures
      var r := s.handlers[h].reservation.value;
      var s' := Acts(s, h, e);
      && |s'.base.requests| == |s.base.requests|
      && (forall j :: 0 <= j < |s.base.requests| && j != r ==> s'.base.requests[j] == s.base.requests[j])
      && Fits(s'.handlers[h], s'.base.requests[r].phase)
  {
    var handler := s.handlers[h];
    var r := handler.reservation.value;
    assert Fits(handler, s.base.requests[r].phase);
    var touch := Touches(handler, e);
    if touch.Some? {
      OnlyOwnRequest(s.base, touch.value, r);
    }
  }

  lemma ActsKeepsOk(s: System, h: nat, e: Step)
    requires Ok(s) && h < |s.handlers|
    ensures Ok(Acts(s, h, e))
  {
    if s.handlers[h].reservation.Some? {
      ActsFits(s, h, e);
    }
  }

  lemma ArrivesKeepsOk(s: System, key: Account, estimate: Usage, streaming: bool)
    requires Ok(s)
    ensures Ok(Arrives(s, key, estimate, streaming))
  {
  }

  lemma TakeKeepsOk(s: System, e: Step)
    requires Ok(s)
    ensures Ok(Take(s, e))
  {
    match e
    case Install(_, _) =>
    case Record(_, _) =>
    case Arrive(key, estimate, streaming) => ArrivesKeepsOk(s, key, estimate, streaming);
    case _ => if e.h < |s.handlers| { ActsKeepsOk(s, e.h, e); }
  }

  lemma {:induction false} RunKeepsOk(s: System, steps: seq<Step>)
    requires Ok(s)
    ensures Ok(Run(s, steps))
    decreases |steps|
  {
    if steps != [] {
      TakeKeepsOk(s, steps[0]);
      RunKeepsOk(Take(s, steps[0]), steps[1..]);
    }
  }

  predicate Ended(handler: Handler) {
    handler.pc.Returned? || handler.pc.Crashed?
  }

  /**
    In every interleaving a handler that has returned was refused or has settled
    its reservation, panics included; one that is over still holds it exactly
    when it is a stream that panicked.
   */
  lemma ReturnedHasSettled(enabled: bool, limits: Limits, steps: seq<Step>, h: nat)
    requires h < |Run(Initial(enabled, limits), steps).handlers|
    requires Run(Initial(enabled, limits), steps).handlers[h].reservation.Some?
    ensures
      var s := Run(Initial(enabled, limits), steps);
      var handler := s.handlers[h];
      && handler.reservation.value < |s.base.requests|
      && var phase := s.base.requests[handler.reservation.value].phase;
      && (handler.pc.Returned? ==> phase.Denied? || phase.Settled?)
      && (Ended(handler) ==> (phase.Holding? <==> handler.pc.Crashed?))
      && (handler.pc.Crashed? ==> handler.streaming)
  {
    RunKeepsOk(Initial(enabled, limits), steps);
    var s := Run(Initial(enabled, limits), steps);
    assert Fits(s.handlers[h], s.base.requests[s.handlers[h].reservation.value].phase);
  }

  // ----- A stream that panics keeps its reservation -----

  /** The request of handler `h`. */
  function RequestOf(s: System, h: nat): Option<BudgetRuns.Request> {
    if h < |s.handlers| && s.handlers[h].reservation.Some? && s.handlers[h].reservation.value < |s.base.requests|
    then Some(s.base.requests[s.handlers[h].reservation.value])
    else None
  }

  lemma ActsLeavesOthers(s: System, h: nat, e: Step, other: nat)
    requires Ok(s) && h < |s.handlers| && other < |s.handlers| && h != other
    ensures RequestOf(Acts(s, h, e), other) == RequestOf(s, other)
  {
    if s.handlers[h].reservation.Some? {
      ActsFits(s, h, e);
    }
  }

  /** A crashed handler does nothing any more. */
  lemma CrashedActs(s: System, h: nat, e: Step)
    requires h < |s.handlers| && s.handlers[h].pc.Crashed?
    ensures Acts(s, h, e) == s
  {
    assert Touches(s.handlers[h], e).None?;
    assert s.handlers[h := s.handlers[h]] == s.handlers;
  }

  lemma ArrivesLeavesOthers(s: System, key: Account, estimate: Usage, streaming: bool, h: nat)
    requires Ok(s) && h < |s.handlers|
    ensures Arrives(s, key, estimate, streaming).handlers[h] == s.handlers[h]
    ensures RequestOf(Arrives(s, key, estimate, streaming), h) == RequestOf(s, h)
  {
  }

  lemma CrashedStep(s: System, e: Step, h: nat)
    requires Ok(s) && h < |s.handlers| && s.handlers[h].pc.Crashed?
    ensures h < |Take(s, e).handlers| && Take(s, e).handlers[h] == s.handlers[h]
    ensures RequestOf(Take(s, e), h) == RequestOf(s, h)
  {
    if e.Install? || e.Record? {
      assert Take(s, e).base.requests == s.base.requests;
    } else if e.Arrive? {
      ArrivesLeavesOthers(s, e.key, e.estimate, e.streaming, h);
    } else if e.h < |s.handlers| {
      if e.h == h {
        CrashedActs(s, h, e);
      } else {
        ActsLeavesOthers(s, e.h, e, h);
      }
    }
  }

  lemma {:induction false} CrashedStays(s: System, steps: seq<Step>, h: nat)
    requires Ok(s) && h < |s.handlers| && s.handlers[h].pc.Crashed?
    ensures h < |Run(s, steps).handlers| && Run(s, steps).handlers[h] == s.handlers[h]
    ensures RequestOf(Run(s, steps), h) == RequestOf(s, h)
    decreases |steps|
  {
    if steps != [] {
      CrashedStep(s, steps[0], h);
      TakeKeepsOk(s, steps[0]);
      CrashedStays(Take(s, steps[0]), steps[1..], h);
    }
  }

  lemma {:induction false} RunAppend(s: System, a: seq<Step>, b: seq<Step>)
    ensures Run(s, a + b) == Run(Run(s, a), b)
    decreases |a|
  {
    if a == [] {
      assert a + b == b;
    } else {
      assert (a + b)[1..] == a[1..] + b;
      RunAppend(Take(s, a[0]), a[1..], b);
    }
  }

  /** A streaming handler whose reservation was admitted and whose stream is not yet settled. */
  predicate Streaming(s: System, h: nat) {
    && h < |s.handlers| && s.handlers[h].streaming && s.handlers[h].reservation.Some?
    && (s.handlers[h].pc.Serving? || s.handlers[h].pc.Served?)
  }

  /**
    In any run, if an admitted stream panics, its reservation stays open and its
    amount stays on the ledger, whatever happens afterwards.
   */
  lemma PanickedStreamNeverSettles(enabled: bool, limits: Limits, before: seq<Step>, h: nat, later: seq<Step>)
    requires Streaming(Run(Initial(enabled, limits), before), h)
    requires RecordsNonnegative(before) && RecordsNonnegative(later)
    ensures
      var s := Run(Initial(enabled, limits), before);
      var s' := Run(Take(s, Panics(h)), later);
      && RequestOf(s, h).Some? && RequestOf(s', h) == RequestOf(s, h)
      && s'.handlers[h].pc.Crashed?
      && var r := RequestOf(s', h).value;
      && r.phase.Holding?
      && At(s'.base.ledger, r.key).tokens >= r.amount.tokens && At(s'.base.ledger, r.key).usd >= r.amount.usd
  {
    var s := Run(Initial(enabled, limits), before);
    var crashed := Take(s, Panics(h));
    var steps := before + ([Panics(h)] + later);
    assert ([Panics(h)] + later)[1..] == later;
    RunAppend(Initial(enabled, limits), before, [Panics(h)] + later);
    assert Run(Initial(enabled, limits), steps) == Run(crashed, later);
    RunKeepsOk(Initial(enabled, limits), before);
    assert Fits(s.handlers[h], s.base.requests[s.handlers[h].reservation.value].phase);
    TakeKeepsOk(s, Panics(h));
    CrashedStays(crashed, later, h);
    LedgerCovers(enabled, limits, steps, h);
  }

  lemma LedgerCovers(enabled: bool, limits: Limits, steps: seq<Step>, h: nat)
    requires RecordsNonnegative(steps)
    requires RequestOf(Run(Initial(enabled, limits), steps), h).Some?
    requires RequestOf(Run(Initial(enabled, limits), steps), h).value.phase.Holding?
    ensures
      var s := Run(Initial(enabled, limits), steps);
      var r := RequestOf(s, h).value;
      At(s.base.ledger, r.key).tokens >= r.amount.tokens && At(s.base.ledger, r.key).usd >= r.amount.usd
  {
    var s := Run(Initial(enabled, limits), steps);
    var bs := RunProjects(Initial(enabled, limits), steps);
    BudgetRuns.RunKeepsBalanced(BudgetRuns.Initial(enabled, limits), bs, RequestOf(s, h).value.key);
    BudgetRuns.LedgerCoversReservation(s.base, s.handlers[h].reservation.value);
  }

  /** Such streams exist for every estimate the limits admit. */
  lemma StreamsCanPanic(limits: Limits, key: Account, estimate: Usage)
    requires key.tenant != "" && !limits.Exceeded(estimate.Clamp())
    ensures
      var s := Run(Initial(true, limits), [Arrive(key, estimate, true), Snap(0), Locks(0)]);
      && Streaming(s, 0) && RequestOf(s, 0) == Some(BudgetRuns.Request(key, estimate.Clamp(), BudgetRuns.Holding))
      && At(s.base.ledger, key) == estimate.Clamp()
  {
    var s0 := Initial(true, limits);
    var e1, e2, e3 := Arrive(key, estimate, true), Snap(0), Locks(0);
    var s1 := Take(s0, e1);
    var s2 := Take(s1, e2);
    var s3 := Take(s2, e3);
    assert [e1, e2, e3][1..] == [e2, e3] && [e2, e3][1..] == [e3] && [e3][1..] == [];
    assert Run(s2, [e3]) == Run(s3, []) == s3;
    assert Run(s1, [e2, e3]) == Run(s2, [e3]);
    assert s2.base.requests == [BudgetRuns.Request(key, estimate.Clamp(), BudgetRuns.Snapped(limits))];
  }

  // ----- What the ledger holds -----

  ghost predicate RecordsNonnegative(steps: seq<Step>) {
    forall i :: 0 <= i < |steps| && steps[i].Record? ==> steps[i].usage.Nonnegative()
  }

  /** The step of the ledger that a step performs, if any. */
  function Projected(s: System, e: Step): Option<BudgetRuns.Step> {
    match e
    case Install(enabled, limits) => Some(BudgetRuns.Install(enabled, limits))
    case Record(key, usage) => Some(BudgetRuns.Record(key, usage))
    case Arrive(key, estimate, _) => Some(BudgetRuns.Enter(key, estimate))
    case _ => if e.h < |s.handlers| then Touches(s.handlers[e.h], e) else None
  }

  lemma TakeProjects(s: System, e: Step)
    ensures Take(s, e).base == Apply(s.base, Projected(s, e))
    ensures Projected(s, e).Some? && Projected(s, e).value.Record? ==>
      e.Record? && Projected(s, e).value.usage == e.usage
  {
  }

  /** Every run of the handlers is a run of the ledger. */
  lemma {:induction false} RunProjects(s: System, steps: seq<Step>) returns (bs: seq<BudgetRuns.Step>)
    requires RecordsNonnegative(steps)
    ensures Run(s, steps).base == BudgetRuns.Run(s.base, bs) && BudgetRuns.RecordsNonnegative(bs)
    decreases |steps|
  {
    bs := [];
    if steps != [] {
      TakeProjects(s, steps[0]);
      assert forall i :: 0 <= i < |steps[1..]| ==> steps[1..][i] == steps[i + 1];
      var rest := RunProjects(Take(s, steps[0]), steps[1..]);
      var b := Projected(s, steps[0]);
      bs := if b.Some? then [b.value] + rest else rest;
      assert b.Some? ==> bs[1..] == rest;
    }
  }

  // ----- What each request is charged -----

  /**
    What a handler owes for its request: the actual usage of a completed call,
    the estimate of a stream that started, nothing for a call that failed, a
    stream that did not start or a handler that panicked before it settled.
   */
  function Owes(handler: Handler): Usage {
    if handler.lost || handler.ended.None? then Zero()
    else
      match handler.ended.value
      case Completed(actual) =>
        Usage(if actual.tokens > 0 then actual.tokens else 0, if actual.usd > 0.0 then actual.usd else 0.0)
      case StreamStarted =>
        Usage(if handler.estimate.tokens > 0 then handler.estimate.tokens else 0,
              if handler.estimate.usd > 0.0 then handler.estimate.usd else 0.0)
      case StreamNotStarted => Zero()
      case DispatchFailed => Zero()
  }

  /** Its part in account `k`, once it has settled. */
  function Bill(handler: Handler, requests: seq<BudgetRuns.Request>, k: Account): Usage {
    if handler.reservation.None? || handler.reservation.value >= |requests| then Zero()
    else
      var r := requests[handler.reservation.value];
      if r.phase.Settled? && r.key == k then Owes(handler) else Zero()
  }

  function Bills(handlers: seq<Handler>, requests: seq<BudgetRuns.Request>, k: Account): Usage {
    if handlers == [] then Zero()
    else
      var b, rest := Bill(handlers[0], requests, k), Bills(handlers[1..], requests, k);
      Usage(b.tokens + rest.tokens, b.usd + rest.usd)
  }

  lemma {:induction false} BillsSame(
      a: seq<Handler>, b: seq<Handler>, rs: seq<BudgetRuns.Request>, rs': seq<BudgetRuns.Request>, k: Account)
    requires |a| == |b| && forall j :: 0 <= j < |a| ==> Bill(a[j], rs, k) == Bill(b[j], rs', k)
    ensures Bills(a, rs, k) == Bills(b, rs', k)
  {
    if a != [] {
      BillsSame(a[1..], b[1..], rs, rs', k);
    }
  }

  lemma {:induction false} BillsChange(
      a: seq<Handler>, b: seq<Handler>, rs: seq<BudgetRuns.Request>, rs': seq<BudgetRuns.Request>, k: Account, h: nat)
    requires |a| == |b| && h < |a| && forall j :: 0 <= j < |a| && j != h ==> Bill(a[j], rs, k) == Bill(b[j], rs', k)
    ensures Bills(b, rs', k).tokens == Bills(a, rs, k).tokens - Bill(a[h], rs, k).tokens + Bill(b[h], rs', k).tokens
    ensures Bills(b, rs', k).usd == Bills(a, rs, k).usd - Bill(a[h], rs, k).usd + Bill(b[h], rs', k).usd
  {
    if h == 0 {
      BillsSame(a[1..], b[1..], rs, rs', k);
    } else {
      assert Bill(a[0], rs, k) == Bill(b[0], rs', k);
      BillsChange(a[1..], b[1..], rs, rs', k, h - 1);
    }
  }

  lemma {:induction false} BillsAppend(
      a: seq<Handler>, handler: Handler, rs: seq<BudgetRuns.Request>, k: Account)
    requires Bill(handler, rs, k) == Zero()
    ensures Bills(a + [handler], rs, k) == Bills(a, rs, k)
  {
    if a == [] {
      assert (a + [handler])[1..] == [];
    } else {
      assert (a + [handler])[1..] == a[1..] + [handler];
      BillsAppend(a[1..], handler, rs, k);
    }
  }

  predicate Holds(handler: Handler, requests: seq<BudgetRuns.Request>) {
    && handler.reservation.Some? && handler.reservation.value < |requests|
    && requests[handler.reservation.value].phase.Holding?
  }

  /** A handler's record of its call fits where it is. */
  ghost predicate Recorded(handler: Handler, requests: seq<BudgetRuns.Request>) {
    && (handler.pc.Snapping? || handler.pc.Locking? || handler.pc.Serving? ==> handler.ended.None? && !handler.lost)
    && (handler.pc.Served? ==> handler.ended == Some(handler.pc.outcome) && !handler.lost)
    && (handler.pc.Deferred? && Holds(handler, requests) ==> Owes(handler) == Zero())
  }

  ghost predicate Billed(s: System, k: Account) {
    && (forall h :: 0 <= h < |s.handlers| ==> Recorded(s.handlers[h], s.base.requests))
    && At(s.base.committed, k).tokens == Bills(s.handlers, s.base.requests, k).tokens
    && At(s.base.committed, k).usd == Bills(s.handlers, s.base.requests, k).usd
  }

  /** A settlement credits its account with the clamped amount if the reservation was open, and nothing else does. */
  lemma CommittedBy(base: BudgetRuns.System, b: BudgetRuns.Step, k: Account)
    ensures
      var base' := BudgetRuns.Take(base, b);
      var amount := if b.Commit? then b.actual.Clamp() else Zero();
      if (b.Commit? || b.Cancel?) && BudgetRuns.AtHolding(base, b.request) && base.requests[b.request].key == k
      then
        && At(base'.committed, k).tokens == At(base.committed, k).tokens + amount.tokens
        && At(base'.committed, k).usd == At(base.committed, k).usd + amount.usd
      else At(base'.committed, k) == At(base.committed, k)
  {
    if (b.Commit? || b.Cancel?) && BudgetRuns.AtHolding(base, b.request) {
      var amount := if b.Commit? then b.actual.Clamp() else Zero();
      BudgetRuns.CreditAt(base.committed, base.requests[b.request].key, amount, k);
    }
  }

  lemma ActsKeepsRecorded(s: System, h: nat, e: Step)
    requires Ok(s) && h < |s.handlers| && Recorded(s.handlers[h], s.base.requests)
    ensures Recorded(Acts(s, h, e).handlers[h], Acts(s, h, e).base.requests)
  {
    if s.handlers[h].reservation.Some? {
      ActsFits(s, h, e);
      assert Fits(s.handlers[h], s.base.requests[s.handlers[h].reservation.value].phase);
    }
  }

  /** The step settles an open reservation: from here on the bill counts. */
  predicate SettlesNow(s: System, h: nat, e: Step)
    requires h < |s.handlers|
  {
    var touch := Touches(s.handlers[h], e);
    touch.Some? && (touch.value.Commit? || touch.value.Cancel?) && BudgetRuns.AtHolding(s.base, touch.value.request)
  }

  lemma SettlingBills(s: System, h: nat, e: Step, k: Account)
    requires Ok(s) && h < |s.handlers| && Recorded(s.handlers[h], s.base.requests) && SettlesNow(s, h, e)
    ensures BillMatches(s, h, e, k)
  {
    var handler := s.handlers[h];
    var touch := Touches(handler, e).value;
    ActsFits(s, h, e);
    CommittedBy(s.base, touch, k);
    KeepsKey(s.base, touch, handler.reservation.value);
    assert Fits(handler, s.base.requests[handler.reservation.value].phase);
  }

  /** A step that leaves the ledger alone bills nothing: how the call ended only matters once it settles. */
  lemma UntouchedBills(s: System, h: nat, e: Step, k: Account)
    requires Ok(s) && h < |s.handlers| && Recorded(s.handlers[h], s.base.requests)
    requires Touches(s.handlers[h], e).None?
    ensures BillMatches(s, h, e, k)
  {
    var handler := s.handlers[h];
    if handler.reservation.Some? {
      assert Fits(handler, s.base.requests[handler.reservation.value].phase);
    }
  }

  lemma OtherwiseBills(s: System, h: nat, e: Step, k: Account)
    requires Ok(s) && h < |s.handlers| && Recorded(s.handlers[h], s.base.requests)
    requires Touches(s.handlers[h], e).Some? && !SettlesNow(s, h, e)
    ensures BillMatches(s, h, e, k)
  {
    var handler := s.handlers[h];
    var touch := Touches(handler, e).value;
    assert Fits(handler, s.base.requests[handler.reservation.value].phase);
    OnlyOwnRequest(s.base, touch, handler.reservation.value);
    CommittedBy(s.base, touch, k);
    KeepsKey(s.base, touch, handler.reservation.value);
  }

  /** A handler's step changes what is committed by what it changes in its own bill. */
  ghost predicate BillMatches(s: System, h: nat, e: Step, k: Account)
    requires h < |s.handlers|
  {
    var s' := Acts(s, h, e);
    var before, after := Bill(s.handlers[h], s.base.requests, k), Bill(s'.handlers[h], s'.base.requests, k);
    && At(s'.base.committed, k).tokens - At(s.base.committed, k).tokens == after.tokens - before.tokens
    && At(s'.base.committed, k).usd - At(s.base.committed, k).usd == after.usd - before.usd
  }

  lemma KeepsKey(base: BudgetRuns.System, b: BudgetRuns.Step, r: nat)
    requires r < |base.requests|
    ensures r < |BudgetRuns.Take(base, b).requests| && BudgetRuns.Take(base, b).requests[r].key == base.requests[r].key
  {
  }

  lemma ActsKeepsBilled(s: System, h: nat, e: Step, k: Account)
    requires Ok(s) && Billed(s, k) && h < |s.handlers|
    ensures Billed(Acts(s, h, e), k)
  {
    var s' := Acts(s, h, e);
    ActsKeepsRecorded(s, h, e);
    if SettlesNow(s, h, e) {
      SettlingBills(s, h, e, k);
    } else if Touches(s.handlers[h], e).None? {
      UntouchedBills(s, h, e, k);
    } else {
      OtherwiseBills(s, h, e, k);
    }
    if s.handlers[h].reservation.Some? {
      ActsFits(s, h, e);
    }
    forall j | 0 <= j < |s.handlers| && j != h
      ensures Bill(s.handlers[j], s.base.requests, k) == Bill(s'.handlers[j], s'.base.requests, k)
      ensures Recorded(s'.handlers[j], s'.base.requests)
    {
      ActsLeavesOthers(s, h, e, j);
      assert Recorded(s.handlers[j], s.base.requests);
    }
    BillsChange(s.handlers, s'.handlers, s.base.requests, s'.base.requests, k, h);
  }

  lemma ArrivesKeepsBilled(s: System, key: Account, estimate: Usage, streaming: bool, k: Account)
    requires Ok(s) && Billed(s, k)
    ensures Billed(Arrives(s, key, estimate, streaming), k)
  {
    var s' := Arrives(s, key, estimate, streaming);
    CommittedBy(s.base, BudgetRuns.Enter(key, estimate), k);
    forall j | 0 <= j < |s.handlers|
      ensures Bill(s.handlers[j], s.base.requests, k) == Bill(s.handlers[j], s'.base.requests, k)
      ensures Recorded(s'.handlers[j], s'.base.requests)
    {
      ArrivesLeavesOthers(s, key, estimate, streaming, j);
      assert Recorded(s.handlers[j], s.base.requests);
    }
    BillsSame(s.handlers, s.handlers, s.base.requests, s'.base.requests, k);
    BillsAppend(s.handlers, s'.handlers[|s.handlers|], s'.base.requests, k);
    assert s'.handlers == s.handlers + [s'.handlers[|s.handlers|]];
  }

  lemma TakeKeepsBilled(s: System, e: Step, k: Account)
    requires Ok(s) && Billed(s, k)
    ensures Billed(Take(s, e), k)
  {
    if e.Install? || e.Record? {
      assert Take(s, e).base.requests == s.base.requests && Take(s, e).base.committed == s.base.committed;
    } else if e.Arrive? {
      ArrivesKeepsBilled(s, e.key, e.estimate, e.streaming, k);
    } else if e.h < |s.handlers| {
      ActsKeepsBilled(s, e.h, e, k);
    }
  }

  lemma {:induction false} RunKeepsBilled(s: System, steps: seq<Step>, k: Account)
    requires Ok(s) && Billed(s, k)
    ensures Billed(Run(s, steps), k)
    decreases |steps|
  {
    if steps != [] {
      TakeKeepsBilled(s, steps[0], k);
      TakeKeepsOk(s, steps[0]);
      RunKeepsBilled(Take(s, steps[0]), steps[1..], k);
    }
  }

  /** In every run what is committed to an account is exactly what its settled handlers owe. */
  lemma CommittedIsOwed(enabled: bool, limits: Limits, steps: seq<Step>, k: Account)
    ensures
      var s := Run(Initial(enabled, limits), steps);
      && At(s.base.committed, k).tokens == Bills(s.handlers, s.base.requests, k).tokens
      && At(s.base.committed, k).usd == Bills(s.handlers, s.base.requests, k).usd
  {
    RunKeepsBilled(Initial(enabled, limits), steps, k);
  }

  /** Once every handler has returned, an account holds what its requests owe and what was recorded, nothing else. */
  lemma QuietLedgerHoldsOnlyActuals(enabled: bool, limits: Limits, steps: seq<Step>, k: Account)
    requires RecordsNonnegative(steps)
    requires
      var s := Run(Initial(enabled, limits), steps);
      forall h :: 0 <= h < |s.handlers| ==> s.handlers[h].pc.Returned?
    ensures
      var s := Run(Initial(enabled, limits), steps);
      var owed := Bills(s.handlers, s.base.requests, k);
      && At(s.base.ledger, k).tokens == owed.tokens + At(s.base.recorded, k).tokens
      && At(s.base.ledger, k).usd == owed.usd + At(s.base.recorded, k).usd
  {
    RunKeepsOk(Initial(enabled, limits), steps);
    CommittedIsOwed(enabled, limits, steps, k);
    var s := Run(Initial(enabled, limits), steps);
    var bs := RunProjects(Initial(enabled, limits), steps);
    BudgetRuns.LedgerConserved(enabled, limits, bs, k);
    forall r | 0 <= r < |s.base.requests|
      ensures !s.base.requests[r].phase.Holding?
    {
      assert Fits(s.handlers[s.owners[r]], s.base.requests[r].phase);
    }
    BudgetRuns.NothingHeld(s.base.requests, k);
  }

  // ----- Every request can be served to its end -----

  /** How a request that is being served runs to its end. */
  function Ending(h: nat, outcome: Outcome): seq<Step> {
    [Ends(h, outcome), Settles(h), Flags(h), Returns(h)]
  }

  lemma RunFour(s: System, e1: Step, e2: Step, e3: Step, e4: Step)
    ensures Run(s, [e1, e2, e3, e4]) == Take(Take(Take(Take(s, e1), e2), e3), e4)
  {
    assert [e1, e2, e3, e4][1..] == [e2, e3, e4] && [e2, e3, e4][1..] == [e3, e4];
    assert [e3, e4][1..] == [e4] && [e4][1..] == [];
    var s3 := Take(Take(Take(s, e1), e2), e3);
    assert Run(s3, [e4]) == Run(Take(s3, e4), []) == Take(s3, e4);
    assert Run(Take(Take(s, e1), e2), [e3, e4]) == Run(s3, [e4]);
  }

  /** The places of a handler on that way. */
  lemma EndingMoves(s: System, h: nat, outcome: Outcome)
    requires Ok(s) && h < |s.handlers| && s.handlers[h].pc.Serving? && Suits(s.handlers[h].streaming, outcome)
    requires Recorded(s.handlers[h], s.base.requests)
    ensures
      var s' := Run(s, Ending(h, outcome));
      && Ok(s') && h < |s'.handlers| && s'.handlers[h].pc.Returned?
      && s'.handlers[h].ended == Some(outcome) && !s'.handlers[h].lost
      && s'.handlers[h].reservation == s.handlers[h].reservation && s'.handlers[h].estimate == s.handlers[h].estimate
  {
    RunFour(s, Ends(h, outcome), Settles(h), Flags(h), Returns(h));
    RunKeepsOk(s, Ending(h, outcome));
    var s1 := Acts(s, h, Ends(h, outcome));
    assert s1.handlers[h].pc == Served(outcome);
    var s2 := Acts(s1, h, Settles(h));
    var s3 := Acts(s2, h, Flags(h));
    var s4 := Acts(s3, h, Returns(h));
  }

  lemma RunKeepsKey(s: System, steps: seq<Step>, r: nat)
    requires r < |s.base.requests|
    ensures r < |Run(s, steps).base.requests| && Run(s, steps).base.requests[r].key == s.base.requests[r].key
    decreases |steps|
  {
    if steps != [] {
      TakeProjects(s, steps[0]);
      var b := Projected(s, steps[0]);
      if b.Some? {
        KeepsKey(s.base, b.value, r);
      }
      RunKeepsKey(Take(s, steps[0]), steps[1..], r);
    }
  }

  /**
    In any run a request that is being served can be served to its end, whatever
    its outcome: its handler returns and its account is billed the actual usage
    of a completed call, the estimate of a started stream, or nothing.
   */
  lemma ServedToTheEnd(enabled: bool, limits: Limits, steps: seq<Step>, h: nat, outcome: Outcome)
    requires
      var s := Run(Initial(enabled, limits), steps);
      && h < |s.handlers| && s.handlers[h].pc.Serving? && s.handlers[h].reservation.Some?
      && Suits(s.handlers[h].streaming, outcome)
    ensures
      var s := Run(Initial(enabled, limits), steps);
      var s' := Run(s, Ending(h, outcome));
      && RequestOf(s, h).Some? && h < |s'.handlers| && s'.handlers[h].pc.Returned?
      && var bill := Bill(s'.handlers[h], s'.base.requests, RequestOf(s, h).value.key);
      && (outcome.Completed? ==> bill == outcome.actual.Clamp())
      && (outcome.StreamStarted? ==> bill == s.handlers[h].estimate.Clamp())
      && (outcome.DispatchFailed? || outcome.StreamNotStarted? ==> bill == Usage(0, 0.0))
  {
    var s := Run(Initial(enabled, limits), steps);
    RunKeepsOk(Initial(enabled, limits), steps);
    RunKeepsBilled(Initial(enabled, limits), steps, Account("", ""));
    assert Recorded(s.handlers[h], s.base.requests);
    EndingMoves(s, h, outcome);
    var s' := Run(s, Ending(h, outcome));
    var r := s.handlers[h].reservation.value;
    RunKeepsKey(s, Ending(h, outcome), r);
    assert Fits(s'.handlers[h], s'.base.requests[r].phase);
    StillHeld(s, h, outcome);
  }

  /** It was admitted, so it ends settled and not refused. */
  lemma StillHeld(s: System, h: nat, outcome: Outcome)
    requires Ok(s) && h < |s.handlers| && s.handlers[h].pc.Serving? && s.handlers[h].reservation.Some?
    ensures
      var r := s.handlers[h].reservation.value;
      r < |Run(s, Ending(h, outcome)).base.requests| && !Run(s, Ending(h, outcome)).base.requests[r].phase.Denied?
  {
    assert Fits(s.handlers[h], s.base.requests[s.handlers[h].reservation.value].phase);
    NeverDenied(s, Ending(h, outcome), s.handlers[h].reservation.value);
  }

  lemma {:induction false} NeverDenied(s: System, steps: seq<Step>, r: nat)
    requires r < |s.base.requests| && (s.base.requests[r].phase.Holding? || s.base.requests[r].phase.Settled?)
    ensures
      var s' := Run(s, steps);
      r < |s'.base.requests| && (s'.base.requests[r].phase.Holding? || s'.base.requests[r].phase.Settled?)
    decreases |steps|
  {
    if steps != [] {
      TakeProjects(s, steps[0]);
      var b := Projected(s, steps[0]);
      if b.Some? {
        OnceAdmitted(s.base, b.value, r);
      }
      NeverDenied(Take(s, steps[0]), steps[1..], r);
    }
  }

  lemma OnceAdmitted(base: BudgetRuns.System, b: BudgetRuns.Step, r: nat)
    requires r < |base.requests| && (base.requests[r].phase.Holding? || base.requests[r].phase.Settled?)
    ensures
      var base' := BudgetRuns.Take(base, b);
      r < |base'.requests| && (base'.requests[r].phase.Holding? || base'.requests[r].phase.Settled?)
  {
  }
}
