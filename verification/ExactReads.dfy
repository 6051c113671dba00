/** How operations on the exact cache bear on later reads of it. */
module ExactReads {
  import opened Options
  import opened LruCache

  /** A Get at time `now`, hit or miss, changes no answer at that time or later. */
  lemma GetIsTransparent(c: Cache, key: string, now: int, other: string, later: int)
    requires now <= later
    ensures Lookup(AfterGet(c, key, now), other, later) == Lookup(c, other, later)
  {
    FindWithout(c.entries, key, other);
    FindSound(c.entries, key);
    if Find(c.entries, key).Some? {
      var e := Find(c.entries, key).value;
      assert ([e] + Without(c.entries, key))[1..] == Without(c.entries, key);
    }
  }

  /** Some operation sets `key`. */
  predicate Writes(ops: seq<Op>, key: string) {
    exists i :: 0 <= i < |ops| && ops[i].Set? && ops[i].key == key
  }

  lemma {:induction false} FindInFront(es: seq<Entry>, key: string)
    requires es != []
    ensures Find(es[..|es| - 1], key) in {None, Find(es, key)}
  {
    if |es| > 1 && es[0].key != key {
      assert es[..|es| - 1][1..] == es[1..][..|es| - 2];
      FindInFront(es[1..], key);
    }
  }

  /** An operation other than a Set of `key` leaves its entry as it is or removes it. */
  lemma FindAfter(c: Cache, op: Op, key: string)
    requires !(op.Set? && op.key == key)
    ensures Find(Apply(c, op).entries, key) in {None, Find(c.entries, key)}
  {
    FindWithout(c.entries, op.key, key);
    FindSound(c.entries, op.key);
    match op
    case Get(_, _) =>
      if Find(c.entries, op.key).Some? {
        var e := Find(c.entries, op.key).value;
        assert ([e] + Without(c.entries, op.key))[1..] == Without(c.entries, op.key);
      }
    case Set(_, value, ttl, now) =>
      var e := Entry(op.key, value, now + ttl);
      var rest := if Find(c.entries, op.key).Some? then Without(c.entries, op.key) else Evicted(c);
      assert ([e] + rest)[1..] == rest;
      if c.entries != [] {
        FindInFront(c.entries, key);
      }
    case Delete(_, _) =>
  }

  /** Only a Set of the key itself can bring a missing value back. */
  lemma {:induction false} AbsencePersists(c: Cache, ops: seq<Op>, key: string, now: int, later: int)
    requires Lookup(c, key, now).None? && now <= later && !Writes(ops, key)
    ensures Lookup(Run(c, ops), key, later).None?
    decreases |ops|
  {
    if ops != [] {
      FindAfter(c, ops[0], key);
      assert forall i :: 0 <= i < |ops[1..]| ==> ops[1..][i] == ops[i + 1];
      AbsencePersists(Apply(c, ops[0]), ops[1..], key, now, later);
    }
  }

  lemma SetThenBoth(c: Cache, key: string, other: string, value: Bytes, t: int)
    requires c.maxSize == 2 && c.entries == [Entry(key, value, t)] && key != other
    ensures
      var c' := Apply(c, Set(other, value, 0, t));
      Lookup(c', key, t) == Some(value) && Lookup(c', other, t) == Some(value)
  {
    var es := [Entry(other, value, t)] + c.entries;
    WithoutAbsent(c.entries, other);
    assert Apply(c, Set(other, value, 0, t)).entries == es;
    assert es[1..] == c.entries && c.entries[0].key == key;
    assert Find(es, key) == Find(es[1..], key) == Some(c.entries[0]);
  }
}
