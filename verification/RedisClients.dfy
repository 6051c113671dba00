/**
  The replaceable Redis connection (internal/redisstore/store.go): callbacks run
  on the installed client under a read lock; a replacement is created and
  pinged outside the lock, swapped in under the write lock, and the client it
  displaced is closed afterwards.

  Clients are numbered in creation order.  A run is any interleaving of the
  steps of any number of WithClient, ReplaceURL and Close calls.
 */
module RedisClients {
  import opened Options

  type Client = nat

  /** Where a call is. */
  datatype Op =
    | Reading(client: Client)
    | Opened(next: Client, url: string)
    | Verified(next: Client, url: string)
    | Closing(doomed: Client)
    | Clearing
    | Finished

  datatype System = System(
    installed: Option<Client>,
    url: string,
    /** The URL each client was created for. */
    made: seq<string>,
    closes: map<Client, nat>,
    ops: seq<Op>)

  datatype Step =
    | BeginRead
    | EndRead(op: nat)
    | BeginReplace(url: string, parses: bool)
    | BeginClose
    | Ping(op: nat, ok: bool)
    | Swap(op: nat)
    | Clear(op: nat)
    | CloseClient(op: nat)

  const START := System(None, "", [], map[], [])

  predicate Disables(url: string) {
    url == "" || url == "${REDIS_URL}"
  }

  function Closes(s: System, c: Client): nat {
    if c in s.closes then s.closes[c] else 0
  }

  predicate NoReaders(ops: seq<Op>) {
    forall i :: 0 <= i < |ops| ==> !ops[i].Reading?
  }

  /** The client a swap or a disconnect displaced still has to be closed by the call that displaced it. */
  function Displace(old_: Option<Client>): Op {
    if old_.Some? then Closing(old_.value) else Finished
  }

  function Take(s: System, e: Step): System {
    match e
    case BeginRead =>
      if s.installed.Some? then s.(ops := s.ops + [Reading(s.installed.value)]) else s
    case EndRead(i) =>
      if i < |s.ops| && s.ops[i].Reading? then s.(ops := s.ops[i := Finished]) else s
    case BeginReplace(url, parses) =>
      if Disables(url) then s.(ops := s.ops + [Clearing])
      else if !parses then s
      else s.(made := s.made + [url], ops := s.ops + [Opened(|s.made|, url)])
    case BeginClose => s.(ops := s.ops + [Clearing])
    case Ping(i, ok) =>
      if i < |s.ops| && s.ops[i].Opened?
      then s.(ops := s.ops[i := if ok then Verified(s.ops[i].next, s.ops[i].url) else Closing(s.ops[i].next)])
      else s
    case Swap(i) =>
      if i < |s.ops| && s.ops[i].Verified? && NoReaders(s.ops) then
        if s.url == s.ops[i].url && s.installed.Some?
        then s.(ops := s.ops[i := Closing(s.ops[i].next)])
        else s.(installed := Some(s.ops[i].next), url := s.ops[i].url, ops := s.ops[i := Displace(s.installed)])
      else s
    case Clear(i) =>
      if i < |s.ops| && s.ops[i].Clearing? && NoReaders(s.ops)
      then s.(installed := None, url := "", ops := s.ops[i := Displace(s.installed)])
      else s
    case CloseClient(i) =>
      if i < |s.ops| && s.ops[i].Closing?
      then s.(closes := s.closes[s.ops[i].doomed := Closes(s, s.ops[i].doomed) + 1], ops := s.ops[i := Finished])
      else s
  }

  function Run(s: System, steps: seq<Step>): System
    decreases |steps|
  {
    if steps == [] then s else Run(Take(s, steps[0]), steps[1..])
  }

  /** `op` is responsible for installing or closing `c`. */
  function Owns(op: Op, c: Client): nat {
    match op
    case Opened(next, _) => if next == c then 1 else 0
    case Verified(next, _) => if next == c then 1 else 0
    case Closing(doomed) => if doomed == c then 1 else 0
    case _ => 0
  }

  function Owners(ops: seq<Op>, c: Client): nat {
    if ops == [] then 0 else Owns(ops[0], c) + Owners(ops[1..], c)
  }

  lemma {:induction false} OwnersUpdate(ops: seq<Op>, i: nat, op: Op, c: Client)
    requires i < |ops|
    ensures Owners(ops[i := op], c) == Owners(ops, c) - Owns(ops[i], c) + Owns(op, c)
  {
    if i == 0 {
      assert ops[i := op][1..] == ops[1..];
    } else {
      assert ops[i := op][1..] == ops[1..][i - 1 := op];
      OwnersUpdate(ops[1..], i - 1, op, c);
    }
  }

  lemma {:induction false} OwnersAppend(ops: seq<Op>, op: Op, c: Client)
    ensures Owners(ops + [op], c) == Owners(ops, c) + Owns(op, c)
  {
    if ops == [] {
      assert ops + [op] == [op];
    } else {
      assert (ops + [op])[1..] == ops[1..] + [op];
      OwnersAppend(ops[1..], op, c);
    }
  }

  function Installed(s: System, c: Client): nat {
    if s.installed == Some(c) then 1 else 0
  }

  /** Each created client is, exactly once, installed, owned by one call, or closed. */
  ghost predicate Accounted(s: System, c: Client) {
    Installed(s, c) + Owners(s.ops, c) + Closes(s, c) == if c < |s.made| then 1 else 0
  }

  /** The read lock keeps the installed client in place while a callback runs on it. */
  ghost predicate ReadersPinned(s: System) {
    forall i :: 0 <= i < |s.ops| && s.ops[i].Reading? ==> s.installed == Some(s.ops[i].client)
  }

  lemma AppendKeepsAccounted(s: System, op: Op, made: seq<string>, c: Client)
    requires Accounted(s, c)
    requires |s.made| <= |made|
    requires Owns(op, c) == if |s.made| <= c < |made| then 1 else 0
    ensures Accounted(s.(made := made, ops := s.ops + [op]), c)
  {
    OwnersAppend(s.ops, op, c);
  }

  lemma BeginKeepsAccounted(s: System, e: Step, c: Client)
    requires e.BeginRead? || e.BeginReplace? || e.BeginClose?
    requires Accounted(s, c)
    ensures Accounted(Take(s, e), c)
  {
    match e
    case BeginRead =>
      if s.installed.Some? { AppendKeepsAccounted(s, Reading(s.installed.value), s.made, c); }
    case BeginReplace(url, parses) =>
      if Disables(url) {
        AppendKeepsAccounted(s, Clearing, s.made, c);
      } else if parses {
        AppendKeepsAccounted(s, Opened(|s.made|, url), s.made + [url], c);
      }
    case BeginClose =>
      AppendKeepsAccounted(s, Clearing, s.made, c);
  }

  lemma SwapKeepsAccounted(s: System, e: Step, c: Client)
    requires e.Swap? || e.Clear?
    requires Accounted(s, c)
    ensures Accounted(Take(s, e), c)
  {
    var s' := Take(s, e);
    if s' != s {
      OwnersUpdate(s.ops, e.op, s'.ops[e.op], c);
    }
  }

  lemma TakeKeepsAccounted(s: System, e: Step, c: Client)
    requires Accounted(s, c)
    ensures Accounted(Take(s, e), c)
  {
    if e.BeginRead? || e.BeginReplace? || e.BeginClose? {
      BeginKeepsAccounted(s, e, c);
    } else if e.Swap? || e.Clear? {
      SwapKeepsAccounted(s, e, c);
    } else {
      var s' := Take(s, e);
      if s' != s {
        OwnersUpdate(s.ops, e.op, s'.ops[e.op], c);
      }
    }
  }

  lemma TakeKeepsReadersPinned(s: System, e: Step)
    requires ReadersPinned(s)
    ensures ReadersPinned(Take(s, e))
  {
  }

  lemma {:induction false} RunKeepsInvariants(s: System, steps: seq<Step>, c: Client)
    requires Accounted(s, c) && ReadersPinned(s)
    ensures Accounted(Run(s, steps), c) && ReadersPinned(Run(s, steps))
    decreases |steps|
  {
    if steps != [] {
      TakeKeepsAccounted(s, steps[0], c);
      TakeKeepsReadersPinned(s, steps[0]);
      RunKeepsInvariants(Take(s, steps[0]), steps[1..], c);
    }
  }

  /** No callback ever runs on a client that has been closed, or on one that was displaced. */
  lemma CallbacksSeeOpenClient(steps: seq<Step>, i: nat)
    requires i < |Run(START, steps).ops| && Run(START, steps).ops[i].Reading?
    ensures
      var s := Run(START, steps);
      s.installed == Some(s.ops[i].client) && Closes(s, s.ops[i].client) == 0
  {
    RunKeepsInvariants(START, steps, Run(START, steps).ops[i].client);
  }

  /** No call in flight still has to install or close `c`. */
  ghost predicate Unowned(ops: seq<Op>, c: Client) {
    forall i :: 0 <= i < |ops| ==> Owns(ops[i], c) == 0
  }

  lemma {:induction false} NoOwners(ops: seq<Op>, c: Client)
    ensures Owners(ops, c) == 0 <==> Unowned(ops, c)
  {
    if ops != [] {
      NoOwners(ops[1..], c);
      assert forall i :: 0 < i < |ops| ==> ops[i] == ops[1..][i - 1];
      assert Unowned(ops, c) <==> Owns(ops[0], c) == 0 && Unowned(ops[1..], c);
    }
  }

  /**
    No client is ever closed twice or while installed, and a client is installed
    or closed exactly as soon as no call in flight owns it.
   */
  lemma EveryClientInstalledOrClosedOnce(steps: seq<Step>, c: Client)
    requires c < |Run(START, steps).made|
    ensures
      var s := Run(START, steps);
      && Closes(s, c) <= 1
      && !(s.installed == Some(c) && Closes(s, c) == 1)
      && (s.installed == Some(c) || Closes(s, c) == 1 <==> Unowned(s.ops, c))
  {
    RunKeepsInvariants(START, steps, c);
    NoOwners(Run(START, steps).ops, c);
  }

  lemma {:induction false} OwnersAtLeast(ops: seq<Op>, i: nat, c: Client)
    requires i < |ops|
    ensures Owners(ops, c) >= Owns(ops[i], c)
  {
    if i > 0 {
      OwnersAtLeast(ops[1..], i - 1, c);
    }
  }

  /** Close after drain: a client about to be closed is open, out of service, and no callback runs on it. */
  lemma OnlyIdleClientsAreClosed(steps: seq<Step>, i: nat)
    requires i < |Run(START, steps).ops| && Run(START, steps).ops[i].Closing?
    ensures
      var s := Run(START, steps);
      var c := s.ops[i].doomed;
      && s.installed != Some(c) && Closes(s, c) == 0
      && (forall j :: 0 <= j < |s.ops| && s.ops[j].Reading? ==> s.ops[j].client != c)
      && Take(s, CloseClient(i)).installed == s.installed && Take(s, CloseClient(i)).url == s.url
      && Closes(Take(s, CloseClient(i)), c) == 1
  {
    var c := Run(START, steps).ops[i].doomed;
    RunKeepsInvariants(START, steps, c);
    OwnersAtLeast(Run(START, steps).ops, i, c);
  }

  // ----- A replacement that succeeds -----

  /** Clients in service or on their way there were created for the URL they stand for. */
  ghost predicate MadeFor(s: System) {
    && (s.installed.Some? ==> s.installed.value < |s.made| && s.made[s.installed.value] == s.url)
    && (forall i :: 0 <= i < |s.ops| && (s.ops[i].Opened? || s.ops[i].Verified?) ==>
          s.ops[i].next < |s.made| && s.made[s.ops[i].next] == s.ops[i].url)
  }

  lemma TakeKeepsMadeFor(s: System, e: Step)
    requires MadeFor(s)
    ensures MadeFor(Take(s, e))
  {
  }

  /** The write lock is free and call `i` is waiting for it with a verified client. */
  predicate CanSwap(s: System, i: nat) {
    i < |s.ops| && s.ops[i].Verified? && forall j :: 0 <= j < |s.ops| ==> !s.ops[j].Reading?
  }

  predicate CanClear(s: System, i: nat) {
    i < |s.ops| && s.ops[i].Clearing? && forall j :: 0 <= j < |s.ops| ==> !s.ops[j].Reading?
  }

  /** The URL asked for by the last swap of the run that took effect, unless a disconnect came after it. */
  function InForce(s: System, steps: seq<Step>, last: Option<string>): Option<string>
    decreases |steps|
  {
    if steps == [] then last
    else
      var e := steps[0];
      InForce(Take(s, e), steps[1..],
              if e.Swap? && CanSwap(s, e.op) then Some(s.ops[e.op].url)
              else if e.Clear? && CanClear(s, e.op) then None
              else last)
  }

  ghost predicate Reflects(s: System, last: Option<string>) {
    && (s.installed.Some? <==> last.Some?)
    && s.url == (if last.Some? then last.value else "")
  }

  lemma {:induction false} RunReflects(s: System, steps: seq<Step>, last: Option<string>)
    requires Reflects(s, last) && MadeFor(s)
    ensures Reflects(Run(s, steps), InForce(s, steps, last)) && MadeFor(Run(s, steps))
    decreases |steps|
  {
    if steps != [] {
      var e := steps[0];
      var last' :=
        if e.Swap? && CanSwap(s, e.op) then Some(s.ops[e.op].url)
        else if e.Clear? && CanClear(s, e.op) then None
        else last;
      TakeKeepsMadeFor(s, e);
      RunReflects(Take(s, e), steps[1..], last');
    }
  }

  /**
    In every run a client is installed exactly when the last swap or disconnect
    that took effect was a swap; the URL in force is the one it asked for, and
    the client was created for it.
   */
  lemma InstalledIsLastSwap(steps: seq<Step>)
    ensures
      var s := Run(START, steps);
      var last := InForce(START, steps, None);
      && (s.installed.Some? <==> last.Some?)
      && (last.Some? ==> s.url == last.value && s.installed.value < |s.made| && s.made[s.installed.value] == last.value)
      && (last.None? ==> s.url == "")
  {
    RunReflects(START, steps, None);
  }

  /**
    From any reachable state without readers, a replacement whose URL parses and
    whose ping succeeds puts that URL in force, and a callback started then runs
    on a client created for it.
   */
  lemma GoodReplacementServes(steps: seq<Step>, url: string)
    requires NoReaders(Run(START, steps).ops) && url != "" && url != "${REDIS_URL}"
    ensures
      var s := Run(START, steps);
      var i := |s.ops|;
      var s' := Take(Take(Take(s, BeginReplace(url, true)), Ping(i, true)), Swap(i));
      var read := Take(s', BeginRead);
      && s'.installed.Some? && s'.url == url
      && |read.ops| == |s'.ops| + 1 && read.ops[|s'.ops|].Reading?
      && read.ops[|s'.ops|].client < |read.made| && read.made[read.ops[|s'.ops|].client] == url
  {
    RunReflects(START, steps, None);
    var s := Run(START, steps);
    var i := |s.ops|;
    var s1 := Take(s, BeginReplace(url, true));
    var s2 := Take(s1, Ping(i, true));
    TakeKeepsMadeFor(s, BeginReplace(url, true));
    TakeKeepsMadeFor(s1, Ping(i, true));
    assert s2.ops[i] == Verified(|s.made|, url) && NoReaders(s2.ops);
    TakeKeepsMadeFor(s2, Swap(i));
  }

  /** Replacing a URL by itself keeps the installed client, and the new one is closed. */
  lemma SameUrlKeepsClient(steps: seq<Step>, i: nat)
    requires CanSwap(Run(START, steps), i)
    requires Run(START, steps).installed.Some? && Run(START, steps).url == Run(START, steps).ops[i].url
    ensures
      var s := Run(START, steps);
      var s' := Take(Take(s, Swap(i)), CloseClient(i));
      && s'.installed == s.installed && s'.url == s.url
      && s.installed != Some(s.ops[i].next) && Closes(s', s.ops[i].next) == 1
  {
    var s := Run(START, steps);
    var c := s.ops[i].next;
    RunKeepsInvariants(START, steps, c);
    OwnersAtLeast(s.ops, i, c);
  }

  // ----- A replacement that fails -----

  /** Call `i` has given up its client `c`: it is about to close it or has done so. */
  ghost predicate GaveUp(s: System, i: nat, c: Client) {
    i < |s.ops| && (s.ops[i] == Closing(c) || (s.ops[i].Finished? && Closes(s, c) >= 1))
  }

  lemma {:induction false} GaveUpStays(s: System, steps: seq<Step>, i: nat, c: Client)
    requires GaveUp(s, i, c)
    ensures GaveUp(Run(s, steps), i, c)
    decreases |steps|
  {
    if steps != [] {
      GaveUpStays(Take(s, steps[0]), steps[1..], i, c);
    }
  }

  lemma GaveUpMeansUnused(s: System, i: nat, c: Client)
    requires GaveUp(s, i, c) && Accounted(s, c) && ReadersPinned(s)
    ensures s.installed != Some(c)
    ensures forall j :: 0 <= j < |s.ops| && s.ops[j].Reading? ==> s.ops[j].client != c
  {
    OwnersAtLeast(s.ops, i, c);
  }

  predicate Targets(e: Step, i: nat) {
    (e.EndRead? || e.Ping? || e.Swap? || e.Clear? || e.CloseClient?) && e.op == i
  }

  /**
    A failed ping changes neither client nor URL.  After it, under any
    interleaving, the new client is never installed and no callback runs on it,
    and no later step of that call changes what is installed.
   */
  lemma FailedReplacementNeverServes(before: seq<Step>, i: nat, later: seq<Step>, e: Step)
    requires i < |Run(START, before).ops| && Run(START, before).ops[i].Opened?
    requires Targets(e, i)
    ensures
      var s := Run(START, before);
      var failed := Take(s, Ping(i, false));
      var s' := Run(failed, later);
      && failed.installed == s.installed && failed.url == s.url
      && s'.installed != Some(s.ops[i].next)
      && (forall j :: 0 <= j < |s'.ops| && s'.ops[j].Reading? ==> s'.ops[j].client != s.ops[i].next)
      && Take(s', e).installed == s'.installed && Take(s', e).url == s'.url
  {
    var s := Run(START, before);
    var c, failed := s.ops[i].next, Take(s, Ping(i, false));
    RunKeepsInvariants(START, before, c);
    TakeKeepsAccounted(s, Ping(i, false), c);
    TakeKeepsReadersPinned(s, Ping(i, false));
    RunKeepsInvariants(failed, later, c);
    GaveUpStays(failed, later, i, c);
    GaveUpMeansUnused(Run(failed, later), i, c);
  }

  // ----- Every call can finish -----

  /** The next step of a call that does not wait for the write lock. */
  function NextStep(op: Op, i: nat, ok: bool): Step {
    match op
    case Reading(_) => EndRead(i)
    case Opened(_, _) => Ping(i, ok)
    case Verified(_, _) => Swap(i)
    case Closing(_) => CloseClient(i)
    case Clearing => Clear(i)
    case Finished => EndRead(i)
  }

  /**
    In any state an unfinished call can take its next step, unless it waits for
    the write lock and some callback is running; that callback can then end.
   */
  lemma CallsCanMove(s: System, i: nat, ok: bool)
    requires i < |s.ops| && !s.ops[i].Finished?
    ensures
      if (s.ops[i].Verified? || s.ops[i].Clearing?) && !NoReaders(s.ops)
      then exists j :: 0 <= j < |s.ops| && s.ops[j].Reading? && Take(s, EndRead(j)).ops[j].Finished?
      else Take(s, NextStep(s.ops[i], i, ok)).ops[i] != s.ops[i]
  {
    if !NoReaders(s.ops) {
      var j :| 0 <= j < |s.ops| && s.ops[j].Reading?;
      assert Take(s, EndRead(j)).ops[j].Finished?;
    }
  }
}
