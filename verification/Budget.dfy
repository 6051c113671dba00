/**
  Monthly token and USD budgets per tenant (internal/budget/budget.go): the
  in-memory ledger, the reservation that is settled once, and the request
  handlers' settlement paths (internal/proxy/handler.go, embeddings.go).

  USD amounts are exact reals.
 */
module Budget {

  /** Tokens and USD together: what was used, reserved or is being charged. */
  datatype Usage = Usage(tokens: int, usd: real) {
    /** Negative parts become zero. */
    function Clamp(): Usage {
      Usage(if tokens < 0 then 0 else tokens, if usd < 0.0 then 0.0 else usd)
    }

    predicate Nonnegative() {
      tokens >= 0 && usd >= 0.0
    }
  }

  function Zero(): Usage {
    Usage(0, 0.0)
  }

  /** A limit that is not positive does not limit. */
  datatype Limits = Limits(tokens: int, usd: real) {
    /** A reservation or an adjustment may reach the limit but not pass it. */
    predicate Exceeded(u: Usage) {
      (tokens > 0 && u.tokens > tokens) || (usd > 0.0 && u.usd > usd)
    }

    /** A plain check already fails at the limit. */
    predicate Exhausted(u: Usage) {
      (tokens > 0 && u.tokens >= tokens) || (usd > 0.0 && u.usd >= usd)
    }
  }

  /** One tenant's month. */
  datatype Account = Account(tenant: string, month: string)

  /** The string the process-local map is keyed by. */
  function MemKey(a: Account): string {
    a.tenant + ['\0'] + a.month
  }

  /** Months have one fixed width, so the keys identify accounts and the ledger can be keyed by account. */
  lemma MemKeyIdentifiesAccount(a: Account, b: Account)
    requires |a.month| == |b.month|
    ensures MemKey(a) == MemKey(b) <==> a == b
  {
    if MemKey(a) == MemKey(b) {
      assert a.tenant == MemKey(a)[..|a.tenant|] && b.tenant == MemKey(b)[..|b.tenant|];
      assert a.month == MemKey(a)[|a.tenant| + 1..] && b.month == MemKey(b)[|b.tenant| + 1..];
    }
  }

  type Ledger = map<Account, Usage>

  function At(l: Ledger, key: Account): Usage {
    if key in l then l[key] else Zero()
  }

  /** The locked part of a reservation: check against the limits read earlier, then charge. */
  function Reserved(l: Ledger, key: Account, lim: Limits, tokens: int, usd: real): (Ledger, bool) {
    var u := Usage(At(l, key).tokens + tokens, At(l, key).usd + usd);
    if lim.Exceeded(u) then (l[key := At(l, key)], false) else (l[key := u], true)
  }

  /** The locked part of a settlement; the flag reports a ledger left over its limits. */
  function Adjusted(l: Ledger, key: Account, lim: Limits, dTokens: int, dUsd: real): (Ledger, bool) {
    if key !in l && dTokens <= 0 && dUsd <= 0.0 then (l, false)
    else
      var tokens, usd := At(l, key).tokens + dTokens, At(l, key).usd + dUsd;
      var u := Usage(if tokens < 0 then 0 else tokens, if usd < 0.0 then 0.0 else usd);
      (l[key := u], lim.Exceeded(u))
  }

  // ----- The objects -----

  class Manager {
    var mem: Ledger
    var enabled: bool
    var limits: Limits

    constructor (enabled: bool, limits: Limits)
      ensures mem == map[] && this.enabled == enabled && this.limits == limits
    {
      this.mem, this.enabled, this.limits := map[], enabled, limits;
    }

    /** Only the settings change: usage survives a reload. */
    method UpdateConfig(enabled: bool, limits: Limits)
      modifies this`enabled, this`limits
      ensures this.enabled == enabled && this.limits == limits
    {
      this.enabled, this.limits := enabled, limits;
    }

    method Check(tenant: string, month: string) returns (ok: bool)
      ensures ok <==> !enabled || tenant == "" ||
                      Account(tenant, month) !in mem || !limits.Exhausted(mem[Account(tenant, month)])
    {
      if !enabled || tenant == "" {
        return true;
      }
      var key := Account(tenant, month);
      if key !in mem {
        return true;
      }
      var u := mem[key];
      if limits.tokens > 0 && u.tokens >= limits.tokens {
        return false;
      }
      if limits.usd > 0.0 && u.usd >= limits.usd {
        return false;
      }
      return true;
    }

    method ReserveMem(key: Account, lim: Limits, amount: Usage) returns (ok: bool)
      modifies this`mem
      ensures (mem, ok) == Reserved(old(mem), key, lim, amount.tokens, amount.usd)
    {
      if key !in mem {
        mem := mem[key := Zero()];
      }
      var u := mem[key];
      assert mem == old(mem)[key := At(old(mem), key)];
      if lim.tokens > 0 && u.tokens + amount.tokens > lim.tokens {
        return false;
      }
      if lim.usd > 0.0 && u.usd + amount.usd > lim.usd {
        return false;
      }
      mem := mem[key := Usage(u.tokens + amount.tokens, u.usd + amount.usd)];
      assert mem == old(mem)[key := Usage(At(old(mem), key).tokens + amount.tokens, At(old(mem), key).usd + amount.usd)];
      return true;
    }

    method Adjust(key: Account, delta: Usage) returns (over: bool)
      modifies this`mem
      ensures (mem, over) == Adjusted(old(mem), key, limits, delta.tokens, delta.usd)
    {
      if key !in mem {
        if delta.tokens <= 0 && delta.usd <= 0.0 {
          return false;
        }
        mem := mem[key := Zero()];
      }
      var tokens, usd := mem[key].tokens + delta.tokens, mem[key].usd + delta.usd;
      if tokens < 0 {
        tokens := 0;
      }
      if usd < 0.0 {
        usd := 0.0;
      }
      mem := mem[key := Usage(tokens, usd)];
      assert mem == old(mem)[key := Usage(tokens, usd)];
      return (limits.tokens > 0 && tokens > limits.tokens) || (limits.usd > 0.0 && usd > limits.usd);
    }

    /** No reservation is made when budgets are off or the tenant is unknown. */
    method Reserve(tenant: string, month: string, amount: Usage) returns (r: Reservation?, ok: bool)
      modifies this`mem
      ensures !enabled || tenant == "" ==> r == null && ok && mem == old(mem)
      ensures enabled && tenant != "" ==>
        && (mem, ok) == Reserved(old(mem), Account(tenant, month), limits, amount.Clamp().tokens, amount.Clamp().usd)
        && (ok <==> r != null)
      ensures r != null ==>
        && fresh(r) && !r.settled && r.manager == this
        && r.key == Account(tenant, month) && r.amount == amount.Clamp()
    {
      if !enabled || tenant == "" {
        return null, true;
      }
      var tokens, usd := amount.tokens, amount.usd;
      if tokens < 0 {
        tokens := 0;
      }
      if usd < 0.0 {
        usd := 0.0;
      }
      ok := ReserveMem(Account(tenant, month), limits, Usage(tokens, usd));
      if !ok {
        return null, false;
      }
      r := new Reservation(this, Account(tenant, month), Usage(tokens, usd));
    }

    method Record(tenant: string, month: string, amount: Usage)
      modifies this`mem
      ensures mem == if enabled && tenant != ""
                     then Adjusted(old(mem), Account(tenant, month), limits, amount.tokens, amount.usd).0
                     else old(mem)
    {
      if enabled && tenant != "" {
        var _ := Adjust(Account(tenant, month), amount);
      }
    }
  }

  class Reservation {
    const manager: Manager
    const key: Account
    const amount: Usage
    var settled: bool
    var over: bool

    constructor (manager: Manager, key: Account, amount: Usage)
      ensures this.manager == manager && this.key == key && this.amount == amount && !settled && !over
    {
      this.manager, this.key, this.amount, settled, over := manager, key, amount, false, false;
    }

    /** Only the first settlement counts; later calls repeat its answer. */
    method Commit(actual: Usage) returns (result: bool)
      modifies this, manager`mem
      ensures settled && result == over
      ensures old(settled) ==> manager.mem == old(manager.mem) && over == old(over)
      ensures !old(settled) ==>
        (manager.mem, over) == Adjusted(old(manager.mem), key, manager.limits,
                                        actual.Clamp().tokens - amount.tokens, actual.Clamp().usd - amount.usd)
    {
      var a := actual;
      if a.tokens < 0 {
        a := a.(tokens := 0);
      }
      if a.usd < 0.0 {
        a := a.(usd := 0.0);
      }
      if !settled {
        over := manager.Adjust(key, Usage(a.tokens - amount.tokens, a.usd - amount.usd));
        settled := true;
      }
      return over;
    }

    method Cancel()
      modifies this, manager`mem
      ensures settled
      ensures old(settled) ==> manager.mem == old(manager.mem) && over == old(over)
      ensures !old(settled) ==>
        (manager.mem, over) == Adjusted(old(manager.mem), key, manager.limits, -amount.tokens, -amount.usd)
    {
      if !settled {
        over := manager.Adjust(key, Usage(-amount.tokens, -amount.usd));
        settled := true;
      }
    }
  }

  /** A check passes exactly when some reservation of positive tokens and USD would still be admitted. */
  lemma CheckPassesExactlyWhen(l: Ledger, key: Account, lim: Limits)
    ensures !lim.Exhausted(At(l, key)) <==>
      exists amount: Usage :: amount.tokens > 0 && amount.usd > 0.0 &&
        Reserved(l, key, lim, amount.tokens, amount.usd).1
  {
    var u := At(l, key);
    if !lim.Exhausted(u) {
      var room := if lim.usd > 0.0 then (lim.usd - u.usd) / 2.0 else 1.0;
      var amount := Usage(1, room);
      assert room > 0.0 && (lim.usd > 0.0 ==> u.usd + room <= lim.usd);
      assert Reserved(l, key, lim, amount.tokens, amount.usd).1;
    }
  }

  // ----- Settlement paths of a request -----

  datatype Outcome =
    | StreamNotStarted
    | StreamStarted
    | DispatchFailed
    | Completed(actual: Usage)

  /** The net charge of a request once it has returned. */
  function Charge(outcome: Outcome, estimate: Usage): Usage {
    match outcome
    case StreamNotStarted => Zero()
    case StreamStarted => estimate.Clamp()
    case DispatchFailed => Zero()
    case Completed(actual) => actual.Clamp()
  }

  /**
    How a request ends.  A stream settles as soon as it is over; any other
    request commits when it completed and cancels on the way out otherwise.
   */
  method Settle(r: Reservation, estimate: Usage, outcome: Outcome)
    requires !r.settled && r.amount == estimate.Clamp()
    modifies r, r.manager`mem
    ensures r.settled
    ensures r.manager.mem == Adjusted(old(r.manager.mem), r.key, r.manager.limits,
                                      Charge(outcome, estimate).tokens - r.amount.tokens,
                                      Charge(outcome, estimate).usd - r.amount.usd).0
  {
    if outcome.StreamStarted? {
      var _ := r.Commit(estimate);
      return;
    }
    if outcome.StreamNotStarted? {
      r.Cancel();
      return;
    }
    var committed := false;
    if outcome.Completed? {
      var _ := r.Commit(outcome.actual);
      committed := true;
    }
    if !committed {
      r.Cancel();
    }
  }

  /** `after` is `before` with `key` charged `amount` and nothing else changed. */
  ghost predicate Charged(before: Ledger, after: Ledger, key: Account, amount: Usage) {
    && At(after, key) == Usage(At(before, key).tokens + amount.tokens, At(before, key).usd + amount.usd)
    && forall k :: k != key ==> At(after, k) == At(before, k)
  }

  /** Reserving and then settling for `actual` charges `actual`. */
  lemma ReserveThenSettle(l: Ledger, key: Account, lim: Limits, amount: Usage, actual: Usage)
    requires At(l, key).Nonnegative() && amount.Nonnegative() && actual.Nonnegative()
    requires Reserved(l, key, lim, amount.tokens, amount.usd).1
    ensures
      var l1 := Reserved(l, key, lim, amount.tokens, amount.usd).0;
      var l2 := Adjusted(l1, key, lim, actual.tokens - amount.tokens, actual.usd - amount.usd).0;
      Charged(l, l2, key, actual)
  {
  }

  /** One request, reservation to return: it leaves behind its charge if admitted and nothing if not. */
  method Serve(m: Manager, tenant: string, month: string, estimate: Usage, outcome: Outcome) returns (admitted: bool)
    requires At(m.mem, Account(tenant, month)).Nonnegative()
    modifies m`mem
    ensures !m.enabled || tenant == "" ==> admitted && m.mem == old(m.mem)
    ensures m.enabled && tenant != "" ==>
      && admitted == Reserved(old(m.mem), Account(tenant, month), m.limits,
                              estimate.Clamp().tokens, estimate.Clamp().usd).1
      && (admitted && outcome.Completed? ==>
           Charged(old(m.mem), m.mem, Account(tenant, month), outcome.actual.Clamp()))
      && (admitted && outcome.StreamStarted? ==>
           Charged(old(m.mem), m.mem, Account(tenant, month), estimate.Clamp()))
      && (admitted && (outcome.DispatchFailed? || outcome.StreamNotStarted?) ==>
           Charged(old(m.mem), m.mem, Account(tenant, month), Usage(0, 0.0)))
      && (!admitted ==> m.mem == old(m.mem)[Account(tenant, month) := At(old(m.mem), Account(tenant, month))])
  {
    ghost var key, before := Account(tenant, month), m.mem;
    var r, ok := m.Reserve(tenant, month, estimate);
    if r == null {
      return ok;
    }
    ReserveThenSettle(before, key, m.limits, r.amount, Charge(outcome, estimate));
    Settle(r, estimate, outcome);
    assert Charged(before, m.mem, key, Charge(outcome, estimate));
    return true;
  }
}
