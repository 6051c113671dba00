/**
  What changing limits do to the budget guarantee.  A lowered limit does not
  reach back to what was reserved under the old one, and a reservation acts on
  the limits it read before the lock (internal/budget/budget.go:300-316).  Both
  effects are stated exactly, for tokens and for USD.
 */
module BudgetLimits {
  import opened Budget
  import opened BudgetRuns

  function Bound(lim: Limits, ofUsd: bool): real {
    if ofUsd then lim.usd else lim.tokens as real
  }

  function Amount(u: Usage, ofUsd: bool): real {
    if ofUsd then u.usd else u.tokens as real
  }

  /** A request for all that `lim` allows. */
  function Full(lim: Limits, ofUsd: bool): Usage {
    if ofUsd then Usage(0, lim.usd) else Usage(lim.tokens, 0.0)
  }

  // ----- Runs -----

  lemma {:induction false} RunAppend(s: System, a: seq<Step>, b: seq<Step>)
    ensures Run(s, a + b) == Run(Run(s, a), b)
    decreases |a|
  {
    if a == [] {
      assert a + b == b;
    } else {
      assert (a + b)[1..] == a[1..] + b;
      RunAppend(Take(s, a[0]), a[1..], b);
    }
  }

  lemma RunSnoc(s: System, steps: seq<Step>, e: Step)
    ensures Run(s, steps + [e]) == Take(Run(s, steps), e)
  {
    RunAppend(s, steps, [e]);
    assert [e][1..] == [];
  }

  // ----- Limit histories -----

  function Installed(e: Step): seq<Limits> {
    if e.Install? then [e.limits] else []
  }

  /** The limits a run installs, in order. */
  function Installs(steps: seq<Step>): seq<Limits> {
    if steps == [] then [] else Installed(steps[0]) + Installs(steps[1..])
  }

  /** The run starts from the first limits of `history` and installs the following ones, maybe not all. */
  predicate Follows(steps: seq<Step>, history: seq<Limits>)
    requires history != []
  {
    Installs(steps) <= history[1..]
  }

  predicate NeverLowered(history: seq<Limits>, ofUsd: bool) {
    forall i :: 0 < i < |history| ==> Bound(history[i - 1], ofUsd) <= Bound(history[i], ofUsd)
  }

  ghost predicate Positive(history: seq<Limits>, ofUsd: bool) {
    forall i :: 0 <= i < |history| ==> Bound(history[i], ofUsd) > 0.0
  }

  /** `k` is within the limit in force plus its overruns and recorded usage. */
  predicate UnderCurrent(s: System, k: Account, ofUsd: bool) {
    Amount(At(s.ledger, k), ofUsd) <=
      Bound(s.limits, ofUsd) + Amount(At(s.overruns, k), ofUsd) + Amount(At(s.recorded, k), ofUsd)
  }

  ghost predicate AlwaysUnderCurrent(history: seq<Limits>, ofUsd: bool)
    requires history != []
  {
    forall enabled: bool, steps: seq<Step>, k: Account :: RecordsNonnegative(steps) && Follows(steps, history) ==>
      UnderCurrent(Run(Initial(enabled, history[0]), steps), k, ofUsd)
  }

  lemma FollowsTail(steps: seq<Step>, history: seq<Limits>)
    requires history != [] && steps != [] && Follows(steps, history)
    ensures steps[0].Install? ==>
      |history| > 1 && history[1] == steps[0].limits && Follows(steps[1..], history[1..])
    ensures !steps[0].Install? ==> Follows(steps[1..], history)
  {
    if steps[0].Install? {
      var installs := Installs(steps);
      assert installs[0] == steps[0].limits == history[1..][0];
      assert installs[1..] == Installs(steps[1..]);
      assert installs[1..] == history[1..][1..][..|installs| - 1];
    }
  }

  /** With limits that never go down, the largest so far is the one in force. */
  lemma {:induction false} LargestIsCurrent(s: System, steps: seq<Step>, history: seq<Limits>, ofUsd: bool)
    requires history != [] && NeverLowered(history, ofUsd) && Follows(steps, history)
    requires s.limits == history[0] && Bound(s.largest, ofUsd) == Bound(s.limits, ofUsd)
    ensures Bound(Run(s, steps).largest, ofUsd) == Bound(Run(s, steps).limits, ofUsd)
    decreases |steps|
  {
    if steps != [] {
      FollowsTail(steps, history);
      var s' := Take(s, steps[0]);
      if steps[0].Install? {
        assert Bound(history[0], ofUsd) <= Bound(history[1], ofUsd);
        assert forall i :: 0 < i < |history[1..]| ==> history[1..][i] == history[i + 1];
        LargestIsCurrent(s', steps[1..], history[1..], ofUsd);
      } else {
        LargestIsCurrent(s', steps[1..], history, ofUsd);
      }
    }
  }

  lemma {:induction false} FollowsPositive(steps: seq<Step>, history: seq<Limits>, ofUsd: bool)
    requires history != [] && Positive(history, ofUsd) && Follows(steps, history)
    ensures AllPositive(history[0], steps, ofUsd)
    decreases |steps|
  {
    if steps != [] {
      FollowsTail(steps, history);
      assert Bound(history[0], ofUsd) > 0.0;
      if steps[0].Install? {
        assert Bound(history[1], ofUsd) > 0.0;
        FollowsPositive(steps[1..], history[1..], ofUsd);
      } else {
        FollowsPositive(steps[1..], history, ofUsd);
      }
      assert forall i :: 0 < i < |steps| ==> steps[i] == steps[1..][i - 1];
    }
  }

  lemma NeverLoweredSuffices(history: seq<Limits>, ofUsd: bool)
    requires history != [] && Positive(history, ofUsd) && NeverLowered(history, ofUsd)
    ensures AlwaysUnderCurrent(history, ofUsd)
  {
    forall enabled: bool, steps: seq<Step>, k: Account | RecordsNonnegative(steps) && Follows(steps, history)
      ensures UnderCurrent(Run(Initial(enabled, history[0]), steps), k, ofUsd)
    {
      FollowsPositive(steps, history, ofUsd);
      LargestIsCurrent(Initial(enabled, history[0]), steps, history, ofUsd);
      UsageBoundedByLargestLimit(enabled, history[0], steps, k, ofUsd);
    }
  }

  // ----- Filling an account and lowering its limit -----

  /** The first `n` changes of the history. */
  function InstallTo(history: seq<Limits>, n: nat): seq<Step>
    requires n < |history|
  {
    if n == 0 then [] else InstallTo(history, n - 1) + [Install(true, history[n])]
  }

  lemma {:induction false} InstallsAppend(a: seq<Step>, e: Step)
    ensures Installs(a + [e]) == Installs(a) + Installed(e)
  {
    if a == [] {
      assert a + [e] == [e] && [e][1..] == [];
    } else {
      assert (a + [e])[1..] == a[1..] + [e];
      InstallsAppend(a[1..], e);
    }
  }

  predicate NoRecords(steps: seq<Step>) {
    forall i :: 0 <= i < |steps| ==> !steps[i].Record?
  }

  lemma {:induction false} InstallToReaches(history: seq<Limits>, n: nat)
    requires n < |history|
    ensures NoRecords(InstallTo(history, n)) && Installs(InstallTo(history, n)) == history[1..n + 1]
    ensures
      var s := Run(Initial(true, history[0]), InstallTo(history, n));
      s == Initial(true, history[0]).(limits := history[n], largest := s.largest)
  {
    if n > 0 {
      InstallToReaches(history, n - 1);
      InstallsAppend(InstallTo(history, n - 1), Install(true, history[n]));
      RunSnoc(Initial(true, history[0]), InstallTo(history, n - 1), Install(true, history[n]));
    }
  }

  /** A request enters and reads the limits. */
  lemma SnapsFull(s: System, k: Account, ofUsd: bool)
    requires s.enabled && k.tenant != "" && s.requests == [] && Bound(s.limits, ofUsd) > 0.0
    ensures Take(Take(s, Enter(k, Full(s.limits, ofUsd))), Snapshot(0))
         == s.(requests := [Request(k, Full(s.limits, ofUsd), Snapped(s.limits))])
  {
  }

  /** On an empty account it is admitted under the limits it read, whatever they are now. */
  lemma LocksFull(s: System, k: Account, lim: Limits, ofUsd: bool)
    requires s.requests == [Request(k, Full(lim, ofUsd), Snapped(lim))] && s.ledger == map[]
    requires Bound(lim, ofUsd) > 0.0
    ensures
      var s' := Take(s, Lock(0));
      && s' == s.(ledger := s'.ledger, requests := s'.requests)
      && AtHolding(s', 0) && s'.requests[0].key == k && At(s'.ledger, k) == Full(lim, ofUsd)
  {
  }

  lemma LoweringFails(history: seq<Limits>, ofUsd: bool, n: nat)
    requires Positive(history, ofUsd) && n + 1 < |history|
    requires Bound(history[n], ofUsd) > Bound(history[n + 1], ofUsd)
    ensures !AlwaysUnderCurrent(history, ofUsd)
  {
    var k, lim := Account("t", "2026-01"), history[n];
    var s0 := Initial(true, history[0]);
    var a := InstallTo(history, n);
    var b := a + [Enter(k, Full(lim, ofUsd))];
    var c := b + [Snapshot(0)];
    var d := c + [Lock(0)];
    var steps := d + [Install(true, history[n + 1])];
    InstallToReaches(history, n);
    RunSnoc(s0, a, Enter(k, Full(lim, ofUsd)));
    RunSnoc(s0, b, Snapshot(0));
    RunSnoc(s0, c, Lock(0));
    RunSnoc(s0, d, Install(true, history[n + 1]));
    SnapsFull(Run(s0, a), k, ofUsd);
    LocksFull(Run(s0, c), k, lim, ofUsd);
    InstallsAppend(a, Enter(k, Full(lim, ofUsd)));
    InstallsAppend(b, Snapshot(0));
    InstallsAppend(c, Lock(0));
    InstallsAppend(d, Install(true, history[n + 1]));
    assert Installs(steps) == history[1..n + 2] == history[1..][..n + 1];
    assert !UnderCurrent(Run(s0, steps), k, ofUsd);
  }

  /**
    Every run under a history of positive limits keeps every account within the
    limit in force plus overruns and recorded usage exactly when the limits
    never go down.
   */
  lemma CurrentLimitHoldsExactlyWhen(history: seq<Limits>, ofUsd: bool)
    requires history != [] && Positive(history, ofUsd)
    ensures AlwaysUnderCurrent(history, ofUsd) <==> NeverLowered(history, ofUsd)
  {
    if NeverLowered(history, ofUsd) {
      NeverLoweredSuffices(history, ofUsd);
    } else {
      var i :| 0 < i < |history| && Bound(history[i - 1], ofUsd) > Bound(history[i], ofUsd);
      LoweringFails(history, ofUsd, i - 1);
    }
  }

  // ----- Stale snapshots -----

  /** If request `i` read `snapshot` and is now admitted while `current` is in force, its account is within that. */
  ghost predicate AdmittedWithin(s: System, i: nat, snapshot: Limits, current: Limits, ofUsd: bool) {
    var s' := Take(s, Lock(i));
    AtSnapped(s, i) && s.requests[i].phase.lim == snapshot && s.limits == current && AtHolding(s', i) ==>
      Amount(At(s'.ledger, s.requests[i].key), ofUsd) <= Bound(current, ofUsd)
  }

  ghost predicate AlwaysAdmittedWithin(snapshot: Limits, current: Limits, ofUsd: bool) {
    forall enabled: bool, first: Limits, steps: seq<Step>, i: nat ::
      AdmittedWithin(Run(Initial(enabled, first), steps), i, snapshot, current, ofUsd)
  }

  lemma AdmittedUnderSnapshot(s: System, i: nat, ofUsd: bool)
    requires AtSnapped(s, i) && Bound(s.requests[i].phase.lim, ofUsd) > 0.0 && AtHolding(Take(s, Lock(i)), i)
    ensures Amount(At(Take(s, Lock(i)).ledger, s.requests[i].key), ofUsd) <= Bound(s.requests[i].phase.lim, ofUsd)
  {
    var r := s.requests[i];
    ReservedAt(s.ledger, r.key, r.phase.lim, r.amount, r.key);
  }

  lemma StaleSnapshotFails(snapshot: Limits, current: Limits, ofUsd: bool)
    requires Bound(snapshot, ofUsd) > Bound(current, ofUsd) > 0.0
    ensures !AlwaysAdmittedWithin(snapshot, current, ofUsd)
  {
    var k := Account("t", "2026-01");
    var s0 := Initial(true, snapshot);
    var e := Enter(k, Full(snapshot, ofUsd));
    var a := [e];
    var b := a + [Snapshot(0)];
    var steps := b + [Install(true, current)];
    assert [] + [e] == a;
    RunSnoc(s0, [], e);
    RunSnoc(s0, a, Snapshot(0));
    RunSnoc(s0, b, Install(true, current));
    SnapsFull(s0, k, ofUsd);
    LocksFull(Run(s0, steps), k, snapshot, ofUsd);
    assert !AdmittedWithin(Run(Initial(true, snapshot), steps), 0, snapshot, current, ofUsd);
  }

  /**
    Reservations that read one limit and are admitted while another is in force
    stay within the latter, in every run, exactly when the one they read is not
    the larger.  With a fresh snapshot the two are the same.
   */
  lemma StaleAdmissionsWithinExactlyWhen(snapshot: Limits, current: Limits, ofUsd: bool)
    requires Bound(snapshot, ofUsd) > 0.0 && Bound(current, ofUsd) > 0.0
    ensures AlwaysAdmittedWithin(snapshot, current, ofUsd) <==> Bound(snapshot, ofUsd) <= Bound(current, ofUsd)
  {
    if Bound(snapshot, ofUsd) <= Bound(current, ofUsd) {
      forall enabled: bool, first: Limits, steps: seq<Step>, i: nat
        ensures AdmittedWithin(Run(Initial(enabled, first), steps), i, snapshot, current, ofUsd)
      {
        var s := Run(Initial(enabled, first), steps);
        if AtSnapped(s, i) && s.requests[i].phase.lim == snapshot && AtHolding(Take(s, Lock(i)), i) {
          AdmittedUnderSnapshot(s, i, ofUsd);
        }
      }
    } else {
      StaleSnapshotFails(snapshot, current, ofUsd);
    }
  }
}
