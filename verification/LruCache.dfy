/**
  The exact response cache: LRU with a time to live (internal/cache/memory.go).

  `Memory` keeps a list of elements, most recently used first, and a map from
  key to element.  `Cache` is its abstract value; the runs and theorems below
  are about that value.
 */
module LruCache {
  import opened Options

  newtype byte = x: int | 0 <= x < 256
  type Bytes = seq<byte>

  datatype Entry = Entry(key: string, value: Bytes, expiresAt: int)

  datatype Cache = Cache(maxSize: int, entries: seq<Entry>, hits: nat, misses: nat)

  function EffectiveSize(maxSize: int): (r: int)
    ensures r > 0 && (maxSize <= 0 ==> r == 1000)
  {
    if maxSize <= 0 then 1000 else maxSize
  }

  function New(maxSize: int): Cache {
    Cache(EffectiveSize(maxSize), [], 0, 0)
  }

  function Find(es: seq<Entry>, key: string): Option<Entry> {
    if es == [] then None
    else if es[0].key == key then Some(es[0])
    else Find(es[1..], key)
  }

  function Without(es: seq<Entry>, key: string): seq<Entry> {
    if es == [] then []
    else if es[0].key == key then Without(es[1..], key)
    else [es[0]] + Without(es[1..], key)
  }

  function Lookup(c: Cache, key: string, now: int): Option<Bytes> {
    match Find(c.entries, key)
    case None => None
    case Some(e) => if now > e.expiresAt then None else Some(e.value)
  }

  function AfterGet(c: Cache, key: string, now: int): Cache {
    match Find(c.entries, key)
    case None => c.(misses := c.misses + 1)
    case Some(e) =>
      if now > e.expiresAt
      then c.(entries := Without(c.entries, key), misses := c.misses + 1)
      else c.(entries := [e] + Without(c.entries, key), hits := c.hits + 1)
  }

  /** Makes room for one entry by dropping the least recently used one when full. */
  function Evicted(c: Cache): seq<Entry> {
    if |c.entries| >= c.maxSize && c.entries != [] then c.entries[..|c.entries| - 1] else c.entries
  }

  function AfterSet(c: Cache, key: string, value: Bytes, ttl: int, now: int): Cache {
    var e := Entry(key, value, now + ttl);
    if Find(c.entries, key).Some?
    then c.(entries := [e] + Without(c.entries, key))
    else c.(entries := [e] + Evicted(c))
  }

  function AfterDelete(c: Cache, key: string): Cache {
    c.(entries := Without(c.entries, key))
  }

  /** No two entries share a key. */
  predicate DistinctKeys(es: seq<Entry>) {
    es == [] || (Find(es[1..], es[0].key).None? && DistinctKeys(es[1..]))
  }

  lemma {:induction false} FindAt(es: seq<Entry>, i: nat)
    requires DistinctKeys(es) && i < |es|
    ensures Find(es, es[i].key) == Some(es[i])
    ensures Without(es, es[i].key) == es[..i] + es[i + 1..]
  {
    if i == 0 {
      FindSound(es[1..], es[0].key);
      WithoutAbsent(es[1..], es[0].key);
    } else {
      FindSound(es[1..], es[0].key);
      assert es[i] == es[1..][i - 1];
      FindAt(es[1..], i - 1);
      assert es[..i] + es[i + 1..] == [es[0]] + (es[1..][..i - 1] + es[1..][i..]);
    }
  }

  lemma {:induction false} DistinctAt(es: seq<Entry>, i: nat, j: nat)
    requires DistinctKeys(es) && i < j < |es|
    ensures es[i].key != es[j].key
  {
    if i == 0 {
      FindSound(es[1..], es[0].key);
      assert es[j] in es[1..];
    } else {
      DistinctAt(es[1..], i - 1, j - 1);
    }
  }

  lemma DistinctKeysCons(e: Entry, es: seq<Entry>)
    requires DistinctKeys(es) && Find(es, e.key).None?
    ensures DistinctKeys([e] + es)
  {
    assert ([e] + es)[1..] == es;
  }

  lemma {:induction false} FindWithout(es: seq<Entry>, key: string, other: string)
    ensures Find(Without(es, key), other) == if other == key then None else Find(es, other)
  {
    if es != [] {
      FindWithout(es[1..], key, other);
      if es[0].key != key {
        assert Without(es, key)[1..] == Without(es[1..], key);
      }
    }
  }

  lemma {:induction false} WithoutKeepsDistinct(es: seq<Entry>, key: string)
    requires DistinctKeys(es)
    ensures DistinctKeys(Without(es, key))
  {
    if es != [] {
      WithoutKeepsDistinct(es[1..], key);
      if es[0].key != key {
        FindWithout(es[1..], key, es[0].key);
        DistinctKeysCons(es[0], Without(es[1..], key));
      }
    }
  }

  lemma {:induction false} DropLastKeepsDistinct(es: seq<Entry>)
    requires DistinctKeys(es) && es != []
    ensures DistinctKeys(es[..|es| - 1])
  {
    if |es| > 1 {
      var front := es[..|es| - 1];
      assert front[1..] == es[1..][..|es| - 2];
      DropLastKeepsDistinct(es[1..]);
      FindSound(es[1..], es[0].key);
      WithoutAbsent(front[1..], es[0].key);
    }
  }

  lemma {:induction false} WithoutAbsent(es: seq<Entry>, key: string)
    requires forall i :: 0 <= i < |es| ==> es[i].key != key
    ensures Without(es, key) == es && Find(es, key) == None
  {
    if es != [] {
      WithoutAbsent(es[1..], key);
    }
  }

  lemma {:induction false} FindSound(es: seq<Entry>, key: string)
    ensures Find(es, key).Some? ==> Find(es, key).value in es && Find(es, key).value.key == key
    ensures Find(es, key).None? ==> forall e :: e in es ==> e.key != key
  {
    if es != [] && es[0].key != key {
      FindSound(es[1..], key);
    }
  }

  // ----- The object -----

  class Element {
    const key: string
    var value: Bytes
    var expiresAt: int

    constructor (key: string, value: Bytes, expiresAt: int)
      ensures this.key == key && this.value == value && this.expiresAt == expiresAt
    {
      this.key, this.value, this.expiresAt := key, value, expiresAt;
    }
  }

  /** The map has the keys of `entries`, and each element of the list under its key. */
  ghost predicate Linked(ll: seq<Element>, items: map<string, Element>, entries: seq<Entry>) {
    && |entries| == |ll|
    && DistinctKeys(entries)
    && (forall k :: k in items <==> Find(entries, k).Some?)
    && (forall i :: 0 <= i < |ll| ==> entries[i].key == ll[i].key)
    && (forall i :: 0 <= i < |ll| ==> ll[i].key in items && items[ll[i].key] == ll[i])
  }

  lemma Located(ll: seq<Element>, items: map<string, Element>, entries: seq<Entry>, key: string) returns (i: nat)
    requires Linked(ll, items, entries) && key in items
    ensures i < |ll| && ll[i].key == key && ll[i] == items[key]
  {
    FindSound(entries, key);
    i :| 0 <= i < |entries| && entries[i] == Find(entries, key).value;
  }

  lemma Unlinked(ll: seq<Element>, items: map<string, Element>, entries: seq<Entry>, i: nat)
    requires Linked(ll, items, entries) && i < |ll|
    ensures Linked(ll[..i] + ll[i + 1..], items - {ll[i].key}, entries[..i] + entries[i + 1..])
  {
    var key := ll[i].key;
    FindAt(entries, i);
    WithoutKeepsDistinct(entries, key);
    forall k
      ensures k in items - {key} <==> Find(Without(entries, key), k).Some?
    {
      FindWithout(entries, key, k);
    }
    var ll', entries' := ll[..i] + ll[i + 1..], entries[..i] + entries[i + 1..];
    forall j | 0 <= j < |ll'|
      ensures entries'[j].key == ll'[j].key != key && items[ll'[j].key] == ll'[j]
    {
      var was := if j < i then j else j + 1;
      assert ll'[j] == ll[was] && entries'[j] == entries[was];
      OthersDiffer(ll, items, entries, i, was);
    }
  }

  lemma OthersDiffer(ll: seq<Element>, items: map<string, Element>, entries: seq<Entry>, i: nat, j: nat)
    requires Linked(ll, items, entries) && i < |ll| && j < |ll| && i != j
    ensures ll[j].key != ll[i].key
  {
    assert entries[i].key == ll[i].key && entries[j].key == ll[j].key;
    if j < i {
      DistinctAt(entries, j, i);
    } else {
      DistinctAt(entries, i, j);
    }
  }

  lemma Pushed(ll: seq<Element>, items: map<string, Element>, entries: seq<Entry>, el: Element, e: Entry)
    requires Linked(ll, items, entries)
    requires el.key !in items && e.key == el.key
    ensures Linked([el] + ll, items[el.key := el], [e] + entries)
  {
    DistinctKeysCons(e, entries);
    assert ([e] + entries)[1..] == entries;
  }

  class Memory {
    const maxSize: int
    var ll: seq<Element>
    var items: map<string, Element>
    var hits: nat
    var misses: nat
    /** What the list holds, front first. */
    ghost var entries: seq<Entry>

    ghost predicate Valid()
      reads this, ll
    {
      && Linked(ll, items, entries)
      && forall i :: 0 <= i < |ll| ==> entries[i].value == ll[i].value && entries[i].expiresAt == ll[i].expiresAt
    }

    ghost function View(): Cache
      reads this
    {
      Cache(maxSize, entries, hits, misses)
    }

    constructor (maxSize: int)
      ensures Valid() && View() == New(maxSize)
    {
      this.maxSize := if maxSize <= 0 then 1000 else maxSize;
      ll, items, hits, misses, entries := [], map[], 0, 0, [];
    }

    lemma Missing(key: string)
      requires Valid() && key !in items
      ensures Find(entries, key) == None && Without(entries, key) == entries
    {
      FindSound(entries, key);
      WithoutAbsent(entries, key);
    }

    /** Unlinks the element of `key`, wherever it is in the list. */
    method Remove(key: string)
      requires Valid() && key in items
      modifies this`ll, this`items, this`entries
      ensures Valid() && items == old(items) - {key} && old(items)[key].key == key
      ensures Find(old(entries), key) == Some(Entry(key, old(items)[key].value, old(items)[key].expiresAt))
      ensures entries == Without(old(entries), key)
      ensures old(items)[key] in old(ll) && forall el :: el in ll ==> el in old(ll)
    {
      ghost var at := Located(ll, items, entries, key);
      var i :| 0 <= i < |ll| && ll[i] == items[key];
      FindAt(entries, i);
      Unlinked(ll, items, entries, i);
      ll := ll[..i] + ll[i + 1..];
      items := items - {key};
      entries := entries[..i] + entries[i + 1..];
    }

    method PushFront(el: Element)
      requires Valid() && el.key !in items
      modifies this`ll, this`items, this`entries
      ensures Valid() && el.key in items && items[el.key] == el && ll == [el] + old(ll)
      ensures entries == [Entry(el.key, el.value, el.expiresAt)] + old(entries)
    {
      Pushed(ll, items, entries, el, Entry(el.key, el.value, el.expiresAt));
      ll := [el] + ll;
      items := items[el.key := el];
      entries := [Entry(el.key, el.value, el.expiresAt)] + entries;
    }

    method RemoveBack()
      requires Valid() && |ll| > 0
      modifies this`ll, this`items, this`entries
      ensures Valid() && items.Keys <= old(items.Keys)
      ensures entries == old(entries)[..|old(entries)| - 1]
      ensures forall el :: el in ll ==> el in old(ll)
    {
      var back := ll[|ll| - 1];
      Unlinked(ll, items, entries, |ll| - 1);
      assert entries[..|ll| - 1] + entries[|ll|..] == entries[..|ll| - 1];
      assert ll[..|ll| - 1] + ll[|ll|..] == ll[..|ll| - 1];
      ll := ll[..|ll| - 1];
      items := items - {back.key};
      entries := entries[..|entries| - 1];
    }

    /** Moves the element of `key` to the front of the list. */
    method MoveToFront(key: string)
      requires Valid() && key in items
      modifies this`ll, this`items, this`entries
      ensures Valid() && |ll| > 0 && ll[0] == old(items[key])
      ensures Find(old(entries), key) == Some(Entry(key, old(items)[key].value, old(items)[key].expiresAt))
      ensures entries == [Find(old(entries), key).value] + Without(old(entries), key)
      ensures forall el :: el in ll ==> el in old(ll)
    {
      var el := items[key];
      Remove(key);
      PushFront(el);
    }

    method Get(key: string, now: int) returns (value: Bytes, ok: bool)
      requires Valid()
      modifies this
      ensures Valid() && View() == AfterGet(old(View()), key, now)
      ensures Lookup(old(View()), key, now) == if ok then Some(value) else None
      ensures forall el :: el in ll ==> el in old(ll)
    {
      if key !in items {
        Missing(key);
        misses := misses + 1;
        return [], false;
      }
      var el := items[key];
      if now > el.expiresAt {
        Remove(key);
        misses := misses + 1;
        return [], false;
      }
      MoveToFront(key);
      hits := hits + 1;
      return el.value, true;
    }

    /** Overwrites the element at the front. */
    method Refresh(value: Bytes, expiresAt: int)
      requires Valid() && |ll| > 0
      modifies ll[0], this`entries
      ensures Valid()
      ensures entries == [Entry(old(entries)[0].key, value, expiresAt)] + old(entries)[1..]
    {
      var el := ll[0];
      forall i | 0 < i < |ll|
        ensures ll[i] != el
      {
        DistinctAt(entries, 0, i);
      }
      var e := Entry(el.key, value, expiresAt);
      DistinctKeysCons(e, entries[1..]);
      el.value := value;
      el.expiresAt := expiresAt;
      entries := [e] + entries[1..];
    }

    method Set(key: string, value: Bytes, ttl: int, now: int)
      requires Valid()
      modifies this, if key in items then {items[key]} else {}
      ensures Valid() && View() == AfterSet(old(View()), key, value, ttl, now)
      ensures forall el :: el in ll ==> el in old(ll) || fresh(el)
    {
      if key in items {
        MoveToFront(key);
        Refresh(value, now + ttl);
        return;
      }
      Missing(key);
      if |ll| >= maxSize && |ll| > 0 {
        RemoveBack();
      }
      var el := new Element(key, value, now + ttl);
      PushFront(el);
    }

    method Delete(key: string)
      requires Valid()
      modifies this
      ensures Valid() && View() == AfterDelete(old(View()), key)
      ensures forall el :: el in ll ==> el in old(ll)
    {
      if key in items {
        Remove(key);
      } else {
        Missing(key);
      }
    }

    method Stats() returns (hits: nat, misses: nat, size: nat)
      requires Valid()
      ensures hits == View().hits && misses == View().misses && size == |View().entries|
    {
      return this.hits, this.misses, |ll|;
    }
  }

  /** Carries out operations one after another, as any callers of the cache may. */
  method Perform(m: Memory, ops: seq<Op>)
    requires m.Valid()
    modifies m, m.ll
    ensures m.Valid() && m.View() == Run(old(m.View()), ops)
    ensures forall el :: el in m.ll ==> el in old(m.ll) || fresh(el)
  {
    assert ops[0..] == ops;
    for i := 0 to |ops|
      invariant m.Valid() && Run(old(m.View()), ops) == Run(m.View(), ops[i..])
      invariant forall el :: el in m.ll ==> el in old(m.ll) || fresh(el)
    {
      assert ops[i..][0] == ops[i] && ops[i..][1..] == ops[i + 1..];
      match ops[i]
      case Get(key, now) =>
        var _, _ := m.Get(key, now);
      case Set(key, value, ttl, now) =>
        if key in m.items {
          ghost var at := Located(m.ll, m.items, m.entries, key);
          assert m.items[key] in m.ll;
        }
        m.Set(key, value, ttl, now);
      case Delete(key, _) =>
        m.Delete(key);
    }
  }

  // ----- Runs -----

  datatype Op =
    | Get(key: string, now: int)
    | Set(key: string, value: Bytes, ttl: int, now: int)
    | Delete(key: string, now: int)

  function Apply(c: Cache, op: Op): Cache {
    match op
    case Get(key, now) => AfterGet(c, key, now)
    case Set(key, value, ttl, now) => AfterSet(c, key, value, ttl, now)
    case Delete(key, _) => AfterDelete(c, key)
  }

  function Run(c: Cache, ops: seq<Op>): Cache
    decreases |ops|
  {
    if ops == [] then c else Run(Apply(c, ops[0]), ops[1..])
  }

  ghost predicate WellFormed(c: Cache) {
    c.maxSize > 0 && |c.entries| <= c.maxSize && DistinctKeys(c.entries)
  }

  lemma {:induction false} WithoutProperties(es: seq<Entry>, key: string)
    requires DistinctKeys(es)
    ensures forall e :: e in Without(es, key) <==> e in es && e.key != key
    ensures |Without(es, key)| == |es| - (if Find(es, key).Some? then 1 else 0)
  {
    if es != [] {
      WithoutProperties(es[1..], key);
      assert es == [es[0]] + es[1..];
      if es[0].key == key {
        FindSound(es[1..], key);
        WithoutAbsent(es[1..], key);
      }
    }
  }

  lemma ApplyKeepsWellFormed(c: Cache, op: Op)
    requires WellFormed(c)
    ensures WellFormed(Apply(c, op)) && Apply(c, op).maxSize == c.maxSize
  {
    var w := Without(c.entries, op.key);
    WithoutProperties(c.entries, op.key);
    WithoutKeepsDistinct(c.entries, op.key);
    FindWithout(c.entries, op.key, op.key);
    FindSound(c.entries, op.key);
    match op
    case Get(key, now) =>
      if Find(c.entries, key).Some? {
        DistinctKeysCons(Find(c.entries, key).value, w);
      }
    case Set(key, value, ttl, now) =>
      if Find(c.entries, key).Some? {
        DistinctKeysCons(Entry(key, value, now + ttl), w);
      } else {
        EvictedKeepsDistinct(c, key);
        DistinctKeysCons(Entry(key, value, now + ttl), Evicted(c));
      }
    case Delete(_, _) =>
  }

  lemma EvictedKeepsDistinct(c: Cache, key: string)
    requires DistinctKeys(c.entries) && Find(c.entries, key).None?
    ensures DistinctKeys(Evicted(c)) && Find(Evicted(c), key).None?
  {
    FindSound(c.entries, key);
    WithoutAbsent(Evicted(c), key);
    if c.entries != [] {
      DropLastKeepsDistinct(c.entries);
    }
  }

  lemma {:induction false} RunKeepsWellFormed(c: Cache, ops: seq<Op>)
    requires WellFormed(c)
    ensures WellFormed(Run(c, ops)) && Run(c, ops).maxSize == c.maxSize
    decreases |ops|
  {
    if ops != [] {
      ApplyKeepsWellFormed(c, ops[0]);
      RunKeepsWellFormed(Apply(c, ops[0]), ops[1..]);
    }
  }

  // ----- A larger cache is never worse -----

  /** `a` can be obtained from `b` by dropping elements. */
  predicate Subsequence(a: seq<Entry>, b: seq<Entry>) {
    if a == [] then true
    else if b == [] then false
    else (a[0] == b[0] && Subsequence(a[1..], b[1..])) || Subsequence(a, b[1..])
  }

  lemma {:induction false} SubsequenceMembers(a: seq<Entry>, b: seq<Entry>)
    requires Subsequence(a, b)
    ensures |a| <= |b| && forall e :: e in a ==> e in b
  {
    if a != [] {
      if a[0] == b[0] && Subsequence(a[1..], b[1..]) {
        SubsequenceMembers(a[1..], b[1..]);
        assert forall e :: e in a ==> e == a[0] || e in a[1..];
      } else {
        SubsequenceMembers(a, b[1..]);
      }
    }
  }

  lemma {:induction false} SubsequenceWithout(a: seq<Entry>, b: seq<Entry>, key: string)
    requires Subsequence(a, b)
    ensures Subsequence(Without(a, key), Without(b, key))
  {
    if a != [] {
      if a[0] == b[0] && Subsequence(a[1..], b[1..]) {
        SubsequenceWithout(a[1..], b[1..], key);
        if a[0].key != key {
          assert Without(a, key)[1..] == Without(a[1..], key) && Without(b, key)[1..] == Without(b[1..], key);
        }
      } else {
        SubsequenceWithout(a, b[1..], key);
        if b[0].key != key {
          assert Without(b, key)[1..] == Without(b[1..], key);
        }
      }
    }
  }

  lemma {:induction false} SubsequenceDropLast(a: seq<Entry>, b: seq<Entry>)
    requires Subsequence(a, b) && a != []
    ensures b != [] && Subsequence(a[..|a| - 1], b[..|b| - 1]) && Subsequence(a[..|a| - 1], b)
  {
    var a', b' := a[..|a| - 1], b[..|b| - 1];
    if |a| > 1 {
      if a[0] == b[0] && Subsequence(a[1..], b[1..]) {
        SubsequenceDropLast(a[1..], b[1..]);
        assert a'[1..] == a[1..][..|a[1..]| - 1] && b'[1..] == b[1..][..|b[1..]| - 1];
      } else {
        SubsequenceDropLast(a, b[1..]);
        assert b'[1..] == b[1..][..|b[1..]| - 1];
      }
    }
  }

  lemma SubsequenceCons(e: Entry, a: seq<Entry>, b: seq<Entry>)
    requires Subsequence(a, b)
    ensures Subsequence([e] + a, [e] + b) && Subsequence(a, [e] + b)
  {
    assert ([e] + a)[1..] == a && ([e] + b)[1..] == b;
  }

  /** The smaller cache's list is embedded in the larger's, with a size gap within the capacity gap. */
  ghost predicate Embedded(small: Cache, large: Cache) {
    && WellFormed(small) && WellFormed(large)
    && small.maxSize <= large.maxSize
    && Subsequence(small.entries, large.entries)
    && |large.entries| - |small.entries| <= large.maxSize - small.maxSize
    && small.hits <= large.hits
    && small.hits + small.misses == large.hits + large.misses
  }

  lemma FoundInLarger(small: Cache, large: Cache, key: string)
    requires Embedded(small, large)
    ensures Find(small.entries, key).Some? ==> Find(large.entries, key) == Find(small.entries, key)
  {
    FindSound(small.entries, key);
    SubsequenceMembers(small.entries, large.entries);
    if Find(small.entries, key).Some? {
      var e := Find(small.entries, key).value;
      var i :| 0 <= i < |large.entries| && large.entries[i] == e;
      FindAt(large.entries, i);
    }
  }

  lemma GetKeepsEmbedded(small: Cache, large: Cache, key: string, now: int)
    requires Embedded(small, large)
    ensures Embedded(AfterGet(small, key, now), AfterGet(large, key, now))
  {
    var a, b := small.entries, large.entries;
    ApplyKeepsWellFormed(small, Get(key, now));
    ApplyKeepsWellFormed(large, Get(key, now));
    FoundInLarger(small, large, key);
    SubsequenceWithout(a, b, key);
    WithoutProperties(a, key);
    WithoutProperties(b, key);
    if Find(a, key).None? {
      FindSound(a, key);
      WithoutAbsent(a, key);
    }
    if Find(b, key).Some? {
      SubsequenceCons(Find(b, key).value, Without(a, key), Without(b, key));
    }
  }

  lemma SetKeepsSubsequence(small: Cache, large: Cache, key: string, e: Entry)
    requires Embedded(small, large)
    ensures
      var rest := (c: Cache) => if Find(c.entries, key).Some? then Without(c.entries, key) else Evicted(c);
      && Subsequence([e] + rest(small), [e] + rest(large))
      && |rest(large)| - |rest(small)| <= large.maxSize - small.maxSize
  {
    var a, b := small.entries, large.entries;
    var b' := if Find(b, key).Some? then Without(b, key) else Evicted(large);
    FoundInLarger(small, large, key);
    SubsequenceWithout(a, b, key);
    WithoutProperties(a, key);
    WithoutProperties(b, key);
    if Find(a, key).Some? {
      SubsequenceCons(e, Without(a, key), b');
    } else {
      FindSound(a, key);
      WithoutAbsent(a, key);
      if |a| >= small.maxSize {
        SubsequenceDropLast(a, Without(b, key));
        SubsequenceDropLast(a, b);
      }
      SubsequenceCons(e, Evicted(small), b');
    }
  }

  lemma ApplyKeepsEmbedded(small: Cache, large: Cache, op: Op)
    requires Embedded(small, large)
    ensures Embedded(Apply(small, op), Apply(large, op))
  {
    ApplyKeepsWellFormed(small, op);
    ApplyKeepsWellFormed(large, op);
    match op
    case Get(key, now) =>
      GetKeepsEmbedded(small, large, key, now);
    case Set(key, value, ttl, now) =>
      SetKeepsSubsequence(small, large, key, Entry(key, value, now + ttl));
    case Delete(key, _) =>
      FoundInLarger(small, large, key);
      SubsequenceWithout(small.entries, large.entries, key);
      WithoutProperties(small.entries, key);
      WithoutProperties(large.entries, key);
  }

  lemma {:induction false} RunKeepsEmbedded(small: Cache, large: Cache, ops: seq<Op>)
    requires Embedded(small, large)
    ensures Embedded(Run(small, ops), Run(large, ops))
    decreases |ops|
  {
    if ops != [] {
      ApplyKeepsEmbedded(small, large, ops[0]);
      RunKeepsEmbedded(Apply(small, ops[0]), Apply(large, ops[0]), ops[1..]);
    }
  }

  /** No Belady anomaly: after the same run, whatever hits in the smaller cache hits in the larger with the same bytes. */
  lemma NoBeladyAnomaly(small: int, large: int, ops: seq<Op>, key: string, now: int)
    requires EffectiveSize(small) <= EffectiveSize(large)
    ensures
      var a, b := Run(New(small), ops), Run(New(large), ops);
      && Subsequence(a.entries, b.entries)
      && |b.entries| - |a.entries| <= EffectiveSize(large) - EffectiveSize(small)
      && a.hits <= b.hits
      && (Lookup(a, key, now).Some? ==> Lookup(b, key, now) == Lookup(a, key, now))
  {
    RunKeepsEmbedded(New(small), New(large), ops);
    RunKeepsWellFormed(New(small), ops);
    RunKeepsWellFormed(New(large), ops);
    FoundInLarger(Run(New(small), ops), Run(New(large), ops), key);
  }

  // ----- What a hit returns -----

  /** The write a reader of `key` should see: the last one, unless a deletion came after it. */
  function LastWrite(ops: seq<Op>, key: string): Option<Entry> {
    if ops == [] then None
    else
      var last := ops[|ops| - 1];
      if last.key != key || last.Get? then LastWrite(ops[..|ops| - 1], key)
      else if last.Set? then Some(Entry(key, last.value, last.now + last.ttl))
      else None
  }

  lemma {:induction false} RunSnoc(c: Cache, ops: seq<Op>)
    requires ops != []
    ensures Run(c, ops) == Apply(Run(c, ops[..|ops| - 1]), ops[|ops| - 1])
    decreases |ops|
  {
    if |ops| > 1 {
      assert ops[..|ops| - 1][1..] == ops[1..][..|ops[1..]| - 1];
      RunSnoc(Apply(c, ops[0]), ops[1..]);
    }
  }

  lemma {:induction false} EntriesAreLastWrites(maxSize: int, ops: seq<Op>)
    ensures forall e :: e in Run(New(maxSize), ops).entries ==> LastWrite(ops, e.key) == Some(e)
    decreases |ops|
  {
    if ops != [] {
      var front, op := ops[..|ops| - 1], ops[|ops| - 1];
      var c := Run(New(maxSize), front);
      EntriesAreLastWrites(maxSize, front);
      RunSnoc(New(maxSize), ops);
      RunKeepsWellFormed(New(maxSize), front);
      WithoutProperties(c.entries, op.key);
      FindSound(c.entries, op.key);
      forall e | e in Run(New(maxSize), ops).entries
        ensures LastWrite(ops, e.key) == Some(e)
      {
        if e.key != op.key {
          assert e in c.entries;
        }
      }
    }
  }

  /** A hit returns the bytes of the last write of that key, which was not deleted and has not expired. */
  lemma HitReturnsLastWrite(maxSize: int, ops: seq<Op>, key: string, now: int)
    requires Lookup(Run(New(maxSize), ops), key, now).Some?
    ensures LastWrite(ops, key).Some?
    ensures Lookup(Run(New(maxSize), ops), key, now) == Some(LastWrite(ops, key).value.value)
    ensures now <= LastWrite(ops, key).value.expiresAt
  {
    EntriesAreLastWrites(maxSize, ops);
    FindSound(Run(New(maxSize), ops).entries, key);
  }

  // ----- Recently used entries survive -----

  function Keys(ops: seq<Op>): set<string> {
    set i | 0 <= i < |ops| :: ops[i].key
  }

  function KeysOf(es: seq<Entry>): (ks: set<string>)
    ensures forall k :: k in ks <==> exists i :: 0 <= i < |es| && es[i].key == k
  {
    set i | 0 <= i < |es| :: es[i].key
  }

  lemma KeysOfTail(es: seq<Entry>)
    requires es != []
    ensures KeysOf(es) == {es[0].key} + KeysOf(es[1..])
  {
    forall k
      ensures k in KeysOf(es) <==> k in {es[0].key} + KeysOf(es[1..])
    {
      if k in KeysOf(es) {
        var i :| 0 <= i < |es| && es[i].key == k;
        assert i > 0 ==> es[1..][i - 1].key == k;
      }
    }
  }

  lemma {:induction false} DistinctKeysCount(es: seq<Entry>)
    requires DistinctKeys(es)
    ensures |KeysOf(es)| == |es|
  {
    if es != [] {
      DistinctKeysCount(es[1..]);
      FindSound(es[1..], es[0].key);
      KeysOfTail(es);
    }
  }

  /** `e` is at position `i`, and everything more recent was touched through `touched`. */
  ghost predicate Recent(c: Cache, e: Entry, i: nat, touched: set<string>) {
    && WellFormed(c)
    && i < |c.entries| && c.entries[i] == e
    && e.key !in touched
    && (forall j :: 0 <= j < i ==> c.entries[j].key in touched)
  }

  lemma SubsetSize(a: set<string>, b: set<string>)
    requires a <= b
    ensures |a| <= |b|
  {
    assert b == a + (b - a);
  }

  lemma {:induction false} PrefixKeepsDistinct(es: seq<Entry>, i: nat)
    requires DistinctKeys(es) && i <= |es|
    ensures DistinctKeys(es[..i])
    decreases |es|
  {
    if i < |es| {
      DropLastKeepsDistinct(es);
      assert es[..|es| - 1][..i] == es[..i];
      PrefixKeepsDistinct(es[..|es| - 1], i);
    } else {
      assert es[..i] == es;
    }
  }

  /** When `e` is last in a full cache, all other slots were touched: a fresh key cannot arrive. */
  lemma LastOfFullCache(c: Cache, e: Entry, i: nat, touched: set<string>, key: string)
    requires Recent(c, e, i, touched)
    requires forall x :: x in c.entries ==> x.key != key
    requires |touched + {key}| < c.maxSize
    ensures i < |c.entries| - 1 || |c.entries| < c.maxSize
  {
    var before := c.entries[..i];
    PrefixKeepsDistinct(c.entries, i);
    DistinctKeysCount(before);
    assert forall j :: 0 <= j < i ==> before[j] in c.entries;
    assert |KeysOf(before) + {key}| == i + 1;
    assert KeysOf(before) <= touched;
    SubsetSize(KeysOf(before) + {key}, touched + {key});
  }

  /** `e` in `es'` still has only touched keys in front of it. */
  ghost predicate Ahead(es: seq<Entry>, e: Entry, i: nat, touched: set<string>) {
    i < |es| && es[i] == e && forall j :: 0 <= j < i ==> es[j].key in touched
  }

  lemma AheadMoved(es: seq<Entry>, e: Entry, i: nat, touched: set<string>, k: nat, x: Entry) returns (i': nat)
    requires Ahead(es, e, i, touched) && k < |es| && k != i
    ensures Ahead([x] + (es[..k] + es[k + 1..]), e, i', touched + {x.key})
  {
    i' := if k < i then i else i + 1;
  }

  lemma AheadRemoved(es: seq<Entry>, e: Entry, i: nat, touched: set<string>, k: nat, key: string) returns (i': nat)
    requires Ahead(es, e, i, touched) && k < |es| && k != i
    ensures Ahead(es[..k] + es[k + 1..], e, i', touched + {key})
  {
    i' := if k < i then i - 1 else i;
  }

  lemma AheadFound(c: Cache, e: Entry, i: nat, touched: set<string>, op: Op, k: nat) returns (i': nat)
    requires Recent(c, e, i, touched) && k < |c.entries| && k != i && c.entries[k].key == op.key
    ensures Ahead(Apply(c, op).entries, e, i', touched + {op.key})
  {
    var es := c.entries;
    FindAt(es, k);
    match op
    case Get(key, now) =>
      if now > es[k].expiresAt {
        i' := AheadRemoved(es, e, i, touched, k, key);
      } else {
        i' := AheadMoved(es, e, i, touched, k, es[k]);
      }
    case Set(key, value, ttl, now) =>
      i' := AheadMoved(es, e, i, touched, k, Entry(key, value, now + ttl));
    case Delete(key, _) =>
      i' := AheadRemoved(es, e, i, touched, k, key);
  }

  lemma AheadAbsent(c: Cache, e: Entry, i: nat, touched: set<string>, op: Op) returns (i': nat)
    requires Recent(c, e, i, touched) && Find(c.entries, op.key).None?
    requires |touched + {op.key}| < c.maxSize
    ensures Ahead(Apply(c, op).entries, e, i', touched + {op.key})
  {
    FindSound(c.entries, op.key);
    if op.Set? {
      LastOfFullCache(c, e, i, touched, op.key);
      assert Evicted(c)[i] == e;
      i' := i + 1;
    } else {
      WithoutAbsent(c.entries, op.key);
      i' := i;
    }
  }

  lemma RecentStep(c: Cache, e: Entry, i: nat, touched: set<string>, op: Op) returns (i': nat)
    requires Recent(c, e, i, touched)
    requires op.now <= e.expiresAt && (op.key == e.key ==> op.Get?)
    requires |touched + ({op.key} - {e.key})| < c.maxSize
    ensures Recent(Apply(c, op), e, i', touched + ({op.key} - {e.key}))
  {
    ApplyKeepsWellFormed(c, op);
    FindAt(c.entries, i);
    if op.key == e.key {
      i' := 0;
    } else {
      assert {op.key} - {e.key} == {op.key};
      FindSound(c.entries, op.key);
      if Find(c.entries, op.key).None? {
        i' := AheadAbsent(c, e, i, touched, op);
      } else {
        var k :| 0 <= k < |c.entries| && c.entries[k] == Find(c.entries, op.key).value;
        i' := AheadFound(c, e, i, touched, op, k);
      }
    }
  }

  lemma KeysTail(ops: seq<Op>)
    requires ops != []
    ensures Keys(ops) == {ops[0].key} + Keys(ops[1..])
  {
    assert forall j :: 0 < j < |ops| ==> ops[j] == ops[1..][j - 1];
  }

  lemma {:induction false} RecentRun(c: Cache, e: Entry, i: nat, touched: set<string>, ops: seq<Op>)
    requires Recent(c, e, i, touched)
    requires forall j :: 0 <= j < |ops| ==> ops[j].now <= e.expiresAt && (ops[j].key == e.key ==> ops[j].Get?)
    requires |touched + (Keys(ops) - {e.key})| < c.maxSize
    ensures e in Run(c, ops).entries
    decreases |ops|
  {
    if ops != [] {
      var touched' := touched + ({ops[0].key} - {e.key});
      KeysTail(ops);
      assert touched' + (Keys(ops[1..]) - {e.key}) == touched + (Keys(ops) - {e.key});
      SubsetSize(touched', touched + (Keys(ops) - {e.key}));
      var i' := RecentStep(c, e, i, touched, ops[0]);
      ApplyKeepsWellFormed(c, ops[0]);
      RecentRun(Apply(c, ops[0]), e, i', touched', ops[1..]);
    }
  }

  /** A just-used entry stays until it expires as long as fewer than maxSize other keys are used. */
  lemma RecentlyUsedSurvives(c: Cache, ops: seq<Op>)
    requires WellFormed(c) && c.entries != []
    requires
      var e := c.entries[0];
      && (forall j :: 0 <= j < |ops| ==> ops[j].now <= e.expiresAt && (ops[j].key == e.key ==> ops[j].Get?))
      && |Keys(ops) - {e.key}| < c.maxSize
    ensures c.entries[0] in Run(c, ops).entries
  {
    assert {} + (Keys(ops) - {c.entries[0].key}) == Keys(ops) - {c.entries[0].key};
    RecentRun(c, c.entries[0], 0, {}, ops);
  }

  /** What was written is read back until it expires, as long as fewer than maxSize other keys are used. */
  lemma {:induction false} WriteIsReadBack(c: Cache, key: string, value: Bytes, ttl: int, now: int, ops: seq<Op>, later: int)
    requires WellFormed(c) && later <= now + ttl
    requires forall j :: 0 <= j < |ops| ==> ops[j].now <= now + ttl && (ops[j].key == key ==> ops[j].Get?)
    requires |Keys(ops) - {key}| < c.maxSize
    ensures Lookup(Run(AfterSet(c, key, value, ttl, now), ops), key, later) == Some(value)
  {
    var c' := AfterSet(c, key, value, ttl, now);
    ApplyKeepsWellFormed(c, Set(key, value, ttl, now));
    assert c'.entries[0] == Entry(key, value, now + ttl);
    RecentlyUsedSurvives(c', ops);
    RunKeepsWellFormed(c', ops);
    var es := Run(c', ops).entries;
    var i :| 0 <= i < |es| && es[i] == Entry(key, value, now + ttl);
    FindAt(es, i);
  }

  /** Reads of the run, and those of them that hit. */
  function Gets(ops: seq<Op>): nat {
    if ops == [] then 0 else (if ops[0].Get? then 1 else 0) + Gets(ops[1..])
  }

  function Hits(c: Cache, ops: seq<Op>): nat
    decreases |ops|
  {
    if ops == [] then 0
    else
      (if ops[0].Get? && Lookup(c, ops[0].key, ops[0].now).Some? then 1 else 0) + Hits(Apply(c, ops[0]), ops[1..])
  }

  /** The counters count the reads that found a value and those that did not. */
  lemma {:induction false} CountersCount(c: Cache, ops: seq<Op>)
    ensures Run(c, ops).hits == c.hits + Hits(c, ops)
    ensures Run(c, ops).hits + Run(c, ops).misses == c.hits + c.misses + Gets(ops)
    decreases |ops|
  {
    if ops != [] {
      CountersCount(Apply(c, ops[0]), ops[1..]);
    }
  }
}
