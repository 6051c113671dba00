/**
  The semantic response cache (internal/cache/semantic.go): a vector index whose
  entries point at keys of the exact cache, filtered in place, with eviction of
  the least recently used entry.

  Embedding vectors come from a provider, so each call is given the result of
  its embedding request.  The similarity is an arbitrary function of two
  vectors.

  The index is locked, the exact cache is not: while a lookup probes it, other
  requests may read, write and delete there.  A `Schedule` says what they do
  between the probes and when each probe reads the clock.
 */
module SemanticCache {
  import opened Options
  import LruCache
  import opened ExactReads

  type Vector = seq<real>
  type Score = (Vector, Vector) -> real

  datatype Entry = Entry(namespace: string, key: string, vector: Vector, expiresAt: int, lastUsed: nat)

  datatype Index = Index(maxEntries: nat, entries: seq<Entry>, clock: nat)

  datatype Query = Query(namespace: string, vector: Vector, now: int)

  datatype Candidate = Candidate(entry: Entry, score: real)

  // ----- The index -----

  function Kept(es: seq<Entry>, keep: Entry -> bool): seq<Entry> {
    if es == [] then []
    else
      var front, last := es[..|es| - 1], es[|es| - 1];
      if keep(last) then Kept(front, keep) + [last] else Kept(front, keep)
  }

  function Live(now: int): Entry -> bool {
    (e: Entry) => now <= e.expiresAt
  }

  function Retained(namespace: string, key: string, now: int): Entry -> bool {
    (e: Entry) => now <= e.expiresAt && !(e.namespace == namespace && e.key == key)
  }

  function OtherKey(key: string): Entry -> bool {
    (e: Entry) => e.key != key
  }

  function Without(es: seq<Entry>, i: nat): seq<Entry>
    requires i < |es|
  {
    es[..i] + es[i + 1..]
  }

  /** The first position holding the smallest lastUsed. */
  function Oldest(es: seq<Entry>): (i: nat)
    requires es != []
    ensures i < |es|
    ensures forall j :: 0 <= j < |es| ==> es[i].lastUsed <= es[j].lastUsed
    ensures forall j :: 0 <= j < i ==> es[i].lastUsed < es[j].lastUsed
  {
    if |es| == 1 then 0
    else
      var i := Oldest(es[..|es| - 1]);
      if es[|es| - 1].lastUsed < es[i].lastUsed then |es| - 1 else i
  }

  function Trimmed(es: seq<Entry>, max: nat): seq<Entry>
    decreases |es|
  {
    if |es| <= max then es else Trimmed(Without(es, Oldest(es)), max)
  }

  /** The entries after `e` was put among them: it supersedes, what has expired goes, and the oldest make room. */
  function WithPut(es: seq<Entry>, e: Entry, now: int, max: nat): seq<Entry> {
    Trimmed(Kept(es, Retained(e.namespace, e.key, now)) + [e], max)
  }

  function Indexed(ix: Index, namespace: string, key: string, vector: Vector, ttl: int, now: int): Index {
    var e := Entry(namespace, key, vector, now + ttl, ix.clock + 1);
    ix.(entries := WithPut(ix.entries, e, now, ix.maxEntries), clock := ix.clock + 1)
  }

  function TouchedEntries(es: seq<Entry>, namespace: string, key: string, clock: nat): seq<Entry> {
    if es == [] then []
    else if es[0].key == key && es[0].namespace == namespace then [es[0].(lastUsed := clock)] + es[1..]
    else [es[0]] + TouchedEntries(es[1..], namespace, key, clock)
  }

  function Touched(ix: Index, namespace: string, key: string): Index {
    ix.(entries := TouchedEntries(ix.entries, namespace, key, ix.clock + 1), clock := ix.clock + 1)
  }

  function Pruned(ix: Index, now: int): Index {
    ix.(entries := Kept(ix.entries, Live(now)))
  }

  function Unindexed(ix: Index, key: string): Index {
    ix.(entries := Kept(ix.entries, OtherKey(key)))
  }

  /** A filter keeps every copy of an entry it accepts and none of one it rejects. */
  lemma {:induction false} KeptCounts(es: seq<Entry>, keep: Entry -> bool, e: Entry)
    ensures multiset(Kept(es, keep))[e] == if keep(e) then multiset(es)[e] else 0
  {
    if es != [] {
      KeptCounts(es[..|es| - 1], keep, e);
      assert es == es[..|es| - 1] + [es[|es| - 1]];
    }
  }

  /** A filter keeps the order: what came from the front part stays in front. */
  lemma {:induction false} KeptConcat(a: seq<Entry>, b: seq<Entry>, keep: Entry -> bool)
    ensures Kept(a + b, keep) == Kept(a, keep) + Kept(b, keep)
    decreases |b|
  {
    if b == [] {
      assert a + b == a;
    } else {
      assert (a + b)[..|a + b| - 1] == a + b[..|b| - 1];
      KeptConcat(a, b[..|b| - 1], keep);
    }
  }

  lemma {:induction false} KeptMembers(es: seq<Entry>, keep: Entry -> bool)
    ensures forall e :: e in Kept(es, keep) <==> e in es && keep(e)
    ensures |Kept(es, keep)| <= |es|
  {
    if es != [] {
      KeptMembers(es[..|es| - 1], keep);
      assert es == es[..|es| - 1] + [es[|es| - 1]];
    }
  }

  // ----- What every run keeps -----

  predicate Apart(e: Entry, f: Entry) {
    (e.namespace != f.namespace || e.key != f.key) && e.lastUsed != f.lastUsed
  }

  ghost predicate Distinct(es: seq<Entry>) {
    forall i, j :: 0 <= i < j < |es| ==> Apart(es[i], es[j])
  }

  ghost predicate UsedBy(es: seq<Entry>, clock: nat) {
    forall i :: 0 <= i < |es| ==> es[i].lastUsed <= clock
  }

  ghost predicate WellFormed(ix: Index) {
    && 0 < ix.maxEntries
    && |ix.entries| <= ix.maxEntries
    && Distinct(ix.entries)
    && UsedBy(ix.entries, ix.clock)
  }

  /**
    The locked parts of the operations.  A Lookup is a Prune and, on a hit, a
    Touch; taken apart they may also interleave with everything else, and
    whatever happens to the exact cache in between does not matter.
   */
  datatype Step =
    | Put(namespace: string, key: string, vector: Vector, ttl: int, now: int)
    | Prune(now: int)
    | Touch(namespace: string, key: string)
    | Remove(key: string)

  function Take(ix: Index, step: Step): Index
  {
    match step
    case Put(namespace, key, vector, ttl, now) => Indexed(ix, namespace, key, vector, ttl, now)
    case Prune(now) => Pruned(ix, now)
    case Touch(namespace, key) => Touched(ix, namespace, key)
    case Remove(key) => Unindexed(ix, key)
  }

  function Run(ix: Index, steps: seq<Step>): Index
    decreases |steps|
  {
    if steps == [] then ix else Run(Take(ix, steps[0]), steps[1..])
  }

  function EffectiveMax(maxEntries: int): (r: nat)
    ensures r > 0 && (maxEntries <= 0 ==> r == 1000)
  {
    if maxEntries <= 0 then 1000 else maxEntries
  }

  function Empty(maxEntries: int): Index {
    Index(EffectiveMax(maxEntries), [], 0)
  }

  lemma {:induction false} KeptKeepsDistinct(es: seq<Entry>, keep: Entry -> bool)
    requires Distinct(es)
    ensures Distinct(Kept(es, keep))
  {
    if es != [] {
      var front, last := es[..|es| - 1], es[|es| - 1];
      KeptKeepsDistinct(front, keep);
      KeptMembers(front, keep);
      forall e | e in front
        ensures Apart(e, last)
      {
        var i :| 0 <= i < |front| && front[i] == e;
        assert es[i] == e;
      }
    }
  }

  lemma KeptKeepsWellFormed(es: seq<Entry>, keep: Entry -> bool, clock: nat)
    requires Distinct(es) && UsedBy(es, clock)
    ensures Distinct(Kept(es, keep)) && UsedBy(Kept(es, keep), clock) && |Kept(es, keep)| <= |es|
  {
    KeptKeepsDistinct(es, keep);
    KeptMembers(es, keep);
    var kept := Kept(es, keep);
    assert forall i :: 0 <= i < |kept| ==> kept[i] in kept;
  }

  lemma WithoutKeepsDistinct(es: seq<Entry>, i: nat, clock: nat)
    requires i < |es| && Distinct(es) && UsedBy(es, clock)
    ensures Distinct(Without(es, i)) && UsedBy(Without(es, i), clock)
  {
  }

  lemma {:induction false} TrimmedKeepsWellFormed(es: seq<Entry>, max: nat, clock: nat)
    requires Distinct(es) && UsedBy(es, clock)
    ensures Distinct(Trimmed(es, max)) && UsedBy(Trimmed(es, max), clock) && |Trimmed(es, max)| <= max
    decreases |es|
  {
    if |es| > max {
      WithoutKeepsDistinct(es, Oldest(es), clock);
      TrimmedKeepsWellFormed(Without(es, Oldest(es)), max, clock);
    }
  }

  lemma {:induction false} TouchedIs(es: seq<Entry>, namespace: string, key: string, clock: nat)
    ensures |TouchedEntries(es, namespace, key, clock)| == |es|
    ensures forall i :: 0 <= i < |es| ==>
      var t := TouchedEntries(es, namespace, key, clock)[i];
      t == es[i] || (es[i].namespace == namespace && es[i].key == key && t == es[i].(lastUsed := clock))
  {
    if es != [] && !(es[0].key == key && es[0].namespace == namespace) {
      TouchedIs(es[1..], namespace, key, clock);
    }
  }

  lemma TouchedKeepsWellFormed(ix: Index, namespace: string, key: string)
    requires WellFormed(ix)
    ensures WellFormed(Touched(ix, namespace, key))
  {
    TouchedIs(ix.entries, namespace, key, ix.clock + 1);
  }

  lemma AppendKeepsWellFormed(es: seq<Entry>, e: Entry, clock: nat)
    requires Distinct(es) && UsedBy(es, clock) && e.lastUsed == clock + 1
    requires forall i :: 0 <= i < |es| ==> es[i].namespace != e.namespace || es[i].key != e.key
    ensures Distinct(es + [e]) && UsedBy(es + [e], clock + 1)
  {
  }

  lemma ReplacedIsGone(es: seq<Entry>, namespace: string, key: string, now: int)
    ensures
      var kept := Kept(es, Retained(namespace, key, now));
      forall i :: 0 <= i < |kept| ==> kept[i].namespace != namespace || kept[i].key != key
  {
    var kept := Kept(es, Retained(namespace, key, now));
    KeptMembers(es, Retained(namespace, key, now));
    assert forall i :: 0 <= i < |kept| ==> kept[i] in kept;
  }

  lemma PutBeforeTrim(ix: Index, e: Entry, now: int)
    requires WellFormed(ix) && e.lastUsed == ix.clock + 1
    ensures
      var es := Kept(ix.entries, Retained(e.namespace, e.key, now)) + [e];
      Distinct(es) && UsedBy(es, ix.clock + 1)
  {
    KeptKeepsWellFormed(ix.entries, Retained(e.namespace, e.key, now), ix.clock);
    ReplacedIsGone(ix.entries, e.namespace, e.key, now);
    AppendKeepsWellFormed(Kept(ix.entries, Retained(e.namespace, e.key, now)), e, ix.clock);
  }

  lemma IndexedKeepsWellFormed(ix: Index, namespace: string, key: string, vector: Vector, ttl: int, now: int)
    requires WellFormed(ix)
    ensures WellFormed(Indexed(ix, namespace, key, vector, ttl, now))
  {
    var e := Entry(namespace, key, vector, now + ttl, ix.clock + 1);
    PutBeforeTrim(ix, e, now);
    TrimmedKeepsWellFormed(Kept(ix.entries, Retained(namespace, key, now)) + [e], ix.maxEntries, ix.clock + 1);
  }

  lemma TakeKeepsWellFormed(ix: Index, step: Step)
    requires WellFormed(ix)
    ensures WellFormed(Take(ix, step))
  {
    match step
    case Put(namespace, key, vector, ttl, now) => IndexedKeepsWellFormed(ix, namespace, key, vector, ttl, now);
    case Prune(now) => KeptKeepsWellFormed(ix.entries, Live(now), ix.clock);
    case Touch(namespace, key) => TouchedKeepsWellFormed(ix, namespace, key);
    case Remove(key) => KeptKeepsWellFormed(ix.entries, OtherKey(key), ix.clock);
  }

  lemma {:induction false} RunKeepsWellFormed(ix: Index, steps: seq<Step>)
    requires WellFormed(ix)
    ensures WellFormed(Run(ix, steps))
    decreases |steps|
  {
    if steps != [] {
      TakeKeepsWellFormed(ix, steps[0]);
      RunKeepsWellFormed(Take(ix, steps[0]), steps[1..]);
    }
  }

  /** At most maxEntries entries, one per namespace and key, with distinct lastUsed values up to the clock. */
  lemma IndexInvariant(maxEntries: int, steps: seq<Step>)
    ensures
      var ix := Run(Empty(maxEntries), steps);
      && |ix.entries| <= EffectiveMax(maxEntries)
      && (forall i, j :: 0 <= i < j < |ix.entries| ==>
           && (ix.entries[i].namespace != ix.entries[j].namespace || ix.entries[i].key != ix.entries[j].key)
           && ix.entries[i].lastUsed != ix.entries[j].lastUsed)
      && (forall i :: 0 <= i < |ix.entries| ==> ix.entries[i].lastUsed <= ix.clock)
  {
    RunKeepsWellFormed(Empty(maxEntries), steps);
    MaxUnchanged(Empty(maxEntries), steps);
  }

  lemma {:induction false} MaxUnchanged(ix: Index, steps: seq<Step>)
    ensures Run(ix, steps).maxEntries == ix.maxEntries
    decreases |steps|
  {
    if steps != [] {
      MaxUnchanged(Take(ix, steps[0]), steps[1..]);
    }
  }

  // ----- Eviction is least recently used -----

  lemma WithoutMembers(es: seq<Entry>, i: nat, e: Entry)
    requires i < |es|
    ensures e in Without(es, i) ==> e in es
    ensures e in es ==> e == es[i] || e in Without(es, i)
  {
    if e in es && e != es[i] {
      var j :| 0 <= j < |es| && es[j] == e;
      assert Without(es, i)[if j < i then j else j - 1] == e;
    }
  }

  lemma {:induction false} TrimmedSize(es: seq<Entry>, max: nat)
    ensures |Trimmed(es, max)| == if |es| <= max then |es| else max
    decreases |es|
  {
    if |es| > max {
      TrimmedSize(Without(es, Oldest(es)), max);
    }
  }

  lemma {:induction false} TrimmedMembers(es: seq<Entry>, max: nat, f: Entry)
    ensures f in Trimmed(es, max) ==> f in es
    decreases |es|
  {
    if |es| > max {
      TrimmedMembers(Without(es, Oldest(es)), max, f);
      WithoutMembers(es, Oldest(es), f);
    }
  }

  /** What trimming dropped was used before everything it kept. */
  lemma {:induction false} TrimmedDropsOldest(es: seq<Entry>, max: nat, e: Entry, f: Entry)
    requires Distinct(es)
    requires e in es && e !in Trimmed(es, max) && f in Trimmed(es, max)
    ensures e.lastUsed < f.lastUsed
    decreases |es|
  {
    var i := Oldest(es);
    var rest := Without(es, i);
    WithoutKeepsDistinct(es, i, MaxUsed(es));
    WithoutMembers(es, i, e);
    if e in rest {
      TrimmedDropsOldest(rest, max, e, f);
    } else {
      TrimmedMembers(rest, max, f);
      var j :| 0 <= j < |rest| && rest[j] == f;
      assert Apart(es[i], es[if j < i then j else j + 1]);
    }
  }

  function MaxUsed(es: seq<Entry>): (n: nat)
    ensures UsedBy(es, n)
  {
    if es == [] then 0
    else
      var n := MaxUsed(es[..|es| - 1]);
      if es[|es| - 1].lastUsed < n then n else es[|es| - 1].lastUsed
  }

  /** A live entry of another namespace or key. */
  predicate Unrelated(e: Entry, new_: Entry, now: int) {
    now <= e.expiresAt && (e.namespace != new_.namespace || e.key != new_.key)
  }

  /** How putting `new_` may treat `e`. */
  ghost predicate PutEffect(ix: Index, out: seq<Entry>, new_: Entry, now: int, e: Entry) {
    && (e in out && e != new_ ==> e in ix.entries && Unrelated(e, new_, now))
    && (e in ix.entries && Unrelated(e, new_, now) && e !in out ==>
         |out| == ix.maxEntries && forall f :: f in out ==> e.lastUsed < f.lastUsed)
  }

  /**
    After SetSemantic the new entry is present, the others are old unrelated
    ones, and an unrelated live entry is lost only when the index ends up full
    of entries used more recently.
   */
  lemma PutKeepsRecent(maxEntries: int, steps: seq<Step>, put: Step)
    requires put.Put?
    ensures
      var ix := Run(Empty(maxEntries), steps);
      var out := Take(ix, put).entries;
      var new_ := Entry(put.namespace, put.key, put.vector, put.now + put.ttl, ix.clock + 1);
      && new_ in out
      && forall e :: PutEffect(ix, out, new_, put.now, e)
  {
    var ix := Run(Empty(maxEntries), steps);
    RunKeepsWellFormed(Empty(maxEntries), steps);
    var new_ := Entry(put.namespace, put.key, put.vector, put.now + put.ttl, ix.clock + 1);
    NewEntryIsKept(ix, new_, put.now);
    assert Take(ix, put).entries == WithPut(ix.entries, new_, put.now, ix.maxEntries);
    forall e
      ensures PutEffect(ix, WithPut(ix.entries, new_, put.now, ix.maxEntries), new_, put.now, e)
    {
      OthersKeptUnlessOldest(ix, new_, put.now, e);
    }
  }

  lemma NewEntryIsKept(ix: Index, new_: Entry, now: int)
    requires WellFormed(ix) && new_.lastUsed == ix.clock + 1
    ensures new_ in WithPut(ix.entries, new_, now, ix.maxEntries)
  {
    var es := Kept(ix.entries, Retained(new_.namespace, new_.key, now)) + [new_];
    var out := WithPut(ix.entries, new_, now, ix.maxEntries);
    PutBeforeTrim(ix, new_, now);
    TrimmedSize(es, ix.maxEntries);
    assert es[|es| - 1] == new_;
    if new_ !in out {
      TrimmedDropsOldest(es, ix.maxEntries, new_, out[0]);
      TrimmedMembers(es, ix.maxEntries, out[0]);
    }
  }

  lemma OthersKeptUnlessOldest(ix: Index, new_: Entry, now: int, e: Entry)
    requires WellFormed(ix) && new_.lastUsed == ix.clock + 1
    ensures PutEffect(ix, WithPut(ix.entries, new_, now, ix.maxEntries), new_, now, e)
  {
    var es := Kept(ix.entries, Retained(new_.namespace, new_.key, now)) + [new_];
    var out := WithPut(ix.entries, new_, now, ix.maxEntries);
    PutBeforeTrim(ix, new_, now);
    KeptMembers(ix.entries, Retained(new_.namespace, new_.key, now));
    TrimmedMembers(es, ix.maxEntries, e);
    TrimmedSize(es, ix.maxEntries);
    if e in es && e !in out {
      forall f | f in out
        ensures e.lastUsed < f.lastUsed
      {
        TrimmedDropsOldest(es, ix.maxEntries, e, f);
      }
    }
  }

  // ----- What a deletion, an expiry and a use do -----

  /** In any run, pruning leaves exactly the live entries and deleting a key leaves exactly those of other keys. */
  lemma DropsExactly(maxEntries: int, steps: seq<Step>, now: int, key: string, e: Entry)
    ensures
      var ix := Run(Empty(maxEntries), steps);
      && (e in Take(ix, Prune(now)).entries <==> e in ix.entries && now <= e.expiresAt)
      && (e in Take(ix, Remove(key)).entries <==> e in ix.entries && e.key != key)
  {
    var ix := Run(Empty(maxEntries), steps);
    KeptMembers(ix.entries, Live(now));
    KeptMembers(ix.entries, OtherKey(key));
  }

  lemma TouchedAt(es: seq<Entry>, i: nat, clock: nat)
    requires Distinct(es) && i < |es|
    ensures TouchedEntries(es, es[i].namespace, es[i].key, clock) == es[i := es[i].(lastUsed := clock)]
  {
    forall j | 0 <= j < i
      ensures es[j].key != es[i].key || es[j].namespace != es[i].namespace
    {
      assert Apart(es[j], es[i]);
    }
    TouchedFirst(es, es[i].namespace, es[i].key, clock, i);
  }

  /** In any run, a hit makes its entry the most recently used one and leaves all others as they are. */
  lemma UsedIsMostRecent(maxEntries: int, steps: seq<Step>, i: nat)
    requires i < |Run(Empty(maxEntries), steps).entries|
    ensures
      var ix := Run(Empty(maxEntries), steps);
      var ix' := Take(ix, Touch(ix.entries[i].namespace, ix.entries[i].key));
      && ix'.entries == ix.entries[i := ix.entries[i].(lastUsed := ix'.clock)]
      && forall j :: 0 <= j < |ix'.entries| && j != i ==> ix'.entries[j].lastUsed < ix'.entries[i].lastUsed
  {
    RunKeepsWellFormed(Empty(maxEntries), steps);
    var ix := Run(Empty(maxEntries), steps);
    TouchedAt(ix.entries, i, ix.clock + 1);
  }

  // ----- Lookup -----

  predicate Matches(e: Entry, q: Query, score: Score, threshold: real) {
    && e.namespace == q.namespace && |e.vector| == |q.vector|
    && score(q.vector, e.vector) >= threshold
  }

  function Candidates(es: seq<Entry>, q: Query, score: Score, threshold: real): seq<Candidate> {
    if es == [] then []
    else
      var front, last := es[..|es| - 1], es[|es| - 1];
      var cs := Candidates(front, q, score, threshold);
      if q.now <= last.expiresAt && Matches(last, q, score, threshold)
      then cs + [Candidate(last, score(q.vector, last.vector))]
      else cs
  }

  lemma {:induction false} CandidateMember(es: seq<Entry>, q: Query, score: Score, threshold: real, c: Candidate)
    ensures c in Candidates(es, q, score, threshold) <==>
      c.entry in es && q.now <= c.entry.expiresAt && Matches(c.entry, q, score, threshold)
      && c.score == score(q.vector, c.entry.vector)
  {
    if es != [] {
      CandidateMember(es[..|es| - 1], q, score, threshold, c);
      assert es == es[..|es| - 1] + [es[|es| - 1]];
    }
  }

  ghost predicate Descending(cs: seq<Candidate>) {
    forall i, j :: 0 <= i < j < |cs| ==> cs[i].score >= cs[j].score
  }

  /** Inserts after every candidate that does not score lower. */
  function Insert(c: Candidate, cs: seq<Candidate>): (out: seq<Candidate>)
    ensures multiset(out) == multiset(cs) + multiset{c}
  {
    if cs == [] then [c]
    else
      assert cs == cs[..|cs| - 1] + [cs[|cs| - 1]];
      if cs[|cs| - 1].score >= c.score then cs + [c] else Insert(c, cs[..|cs| - 1]) + [cs[|cs| - 1]]
  }

  /** sort.SliceStable by descending score. */
  function Ranked(cs: seq<Candidate>): (out: seq<Candidate>)
    ensures multiset(out) == multiset(cs)
  {
    if cs == [] then []
    else
      assert cs == cs[..|cs| - 1] + [cs[|cs| - 1]];
      Insert(cs[|cs| - 1], Ranked(cs[..|cs| - 1]))
  }

  lemma InsertMembers(c: Candidate, cs: seq<Candidate>, k: nat)
    requires k < |Insert(c, cs)|
    ensures Insert(c, cs)[k] == c || Insert(c, cs)[k] in cs
  {
    assert Insert(c, cs)[k] in multiset(Insert(c, cs));
  }

  lemma {:induction false} InsertKeepsDescending(c: Candidate, cs: seq<Candidate>)
    requires Descending(cs)
    ensures Descending(Insert(c, cs))
  {
    if cs != [] && cs[|cs| - 1].score < c.score {
      var front := cs[..|cs| - 1];
      InsertKeepsDescending(c, front);
      var out := Insert(c, front);
      forall k | 0 <= k < |out|
        ensures out[k].score >= cs[|cs| - 1].score
      {
        InsertMembers(c, front, k);
      }
    }
  }

  lemma {:induction false} RankedDescends(cs: seq<Candidate>)
    ensures Descending(Ranked(cs))
  {
    if cs != [] {
      RankedDescends(cs[..|cs| - 1]);
      InsertKeepsDescending(cs[|cs| - 1], Ranked(cs[..|cs| - 1]));
    }
  }

  function Top(cs: seq<Candidate>, k: nat): seq<Candidate> {
    if |cs| > k then cs[..k] else cs
  }

  /** The i-th probe happens at time `at(i)`, after others have carried out `others(i)` since the one before. */
  datatype Schedule = Schedule(at: nat -> int, others: nat -> seq<LruCache.Op>)

  /** What a lookup answers, and the exact cache its probes leave behind. */
  datatype Outcome =
    | Found(position: nat, value: LruCache.Bytes, exact: LruCache.Cache)
    | NotFound(exact: LruCache.Cache)

  function Probe(c: LruCache.Cache, cs: seq<Candidate>, w: Schedule, i: nat): Outcome
    requires i <= |cs|
    decreases |cs| - i
  {
    if i == |cs| then NotFound(c)
    else
      var now := LruCache.Run(c, w.others(i));
      var answer := LruCache.Lookup(now, cs[i].entry.key, w.at(i));
      var c' := LruCache.AfterGet(now, cs[i].entry.key, w.at(i));
      if answer.Some? then Found(i, answer.value, c') else Probe(c', cs, w, i + 1)
  }

  /** The candidates a lookup may probe, best first. */
  function Best(es: seq<Entry>, q: Query, score: Score, threshold: real, topK: nat): seq<Candidate> {
    Top(Ranked(Candidates(es, q, score, threshold)), topK)
  }

  function Search(
    c: LruCache.Cache, es: seq<Entry>, q: Query, score: Score, threshold: real, topK: nat, w: Schedule): Outcome
  {
    Probe(c, Best(es, q, score, threshold, topK), w, 0)
  }

  ghost predicate Monotone(w: Schedule) {
    forall i, j :: 0 <= i <= j ==> w.at(i) <= w.at(j)
  }

  /** The exact cache after the probes before the i-th, had they all been made. */
  function After(c: LruCache.Cache, cs: seq<Candidate>, w: Schedule, i: nat): LruCache.Cache
    requires i <= |cs|
    decreases i, 0
  {
    if i == 0 then c else LruCache.AfterGet(Before(c, cs, w, i - 1), cs[i - 1].entry.key, w.at(i - 1))
  }

  /** The exact cache the i-th probe finds. */
  function Before(c: LruCache.Cache, cs: seq<Candidate>, w: Schedule, i: nat): LruCache.Cache
    requires i <= |cs|
    decreases i, 1
  {
    LruCache.Run(After(c, cs, w, i), w.others(i))
  }

  /** What the i-th probe answers. */
  function Answer(c: LruCache.Cache, cs: seq<Candidate>, w: Schedule, i: nat): Option<LruCache.Bytes>
    requires i < |cs|
  {
    LruCache.Lookup(Before(c, cs, w, i), cs[i].entry.key, w.at(i))
  }

  /** Probing stops at the first answer. */
  lemma {:induction false} ProbeFindsFirst(c: LruCache.Cache, cs: seq<Candidate>, w: Schedule, i: nat)
    requires i <= |cs| && forall j :: 0 <= j < i ==> Answer(c, cs, w, j).None?
    ensures
      match Probe(After(c, cs, w, i), cs, w, i)
      case Found(k, value, exact) =>
        && i <= k < |cs| && Answer(c, cs, w, k) == Some(value) && exact == After(c, cs, w, k + 1)
        && (forall j :: 0 <= j < k ==> Answer(c, cs, w, j).None?)
      case NotFound(exact) =>
        exact == After(c, cs, w, |cs|) && forall j :: 0 <= j < |cs| ==> Answer(c, cs, w, j).None?
    decreases |cs| - i
  {
    if i < |cs| && Answer(c, cs, w, i).None? {
      ProbeFindsFirst(c, cs, w, i + 1);
    }
  }

  lemma FirstAnswer(c: LruCache.Cache, cs: seq<Candidate>, w: Schedule, k: nat)
    requires k < |cs| && Answer(c, cs, w, k).Some? && forall j :: 0 <= j < k ==> Answer(c, cs, w, j).None?
    ensures Probe(c, cs, w, 0) == Found(k, Answer(c, cs, w, k).value, After(c, cs, w, k + 1))
  {
    ProbeFindsFirst(c, cs, w, 0);
  }

  /** Another request set `key` between probes `j` and `k`. */
  ghost predicate WrittenBetween(w: Schedule, key: string, j: nat, k: nat) {
    exists i: nat :: j < i <= k && Writes(w.others(i), key)
  }

  /** What is absent at probe `j` is absent at probe `k` unless it was written in between. */
  lemma {:induction false} StaysAbsent(
    c: LruCache.Cache, cs: seq<Candidate>, w: Schedule, key: string, j: nat, k: nat)
    requires j <= k < |cs| && Monotone(w)
    requires LruCache.Lookup(Before(c, cs, w, j), key, w.at(j)).None? && !WrittenBetween(w, key, j, k)
    ensures LruCache.Lookup(Before(c, cs, w, k), key, w.at(k)).None?
    decreases k
  {
    if j < k {
      assert !WrittenBetween(w, key, j, k - 1);
      StaysAbsent(c, cs, w, key, j, k - 1);
      GetIsTransparent(Before(c, cs, w, k - 1), cs[k - 1].entry.key, w.at(k - 1), key, w.at(k - 1));
      assert LruCache.Lookup(After(c, cs, w, k), key, w.at(k - 1)).None?;
      AbsencePersists(After(c, cs, w, k), w.others(k), key, w.at(k - 1), w.at(k));
    }
  }

  lemma RankedMember(es: seq<Entry>, q: Query, score: Score, threshold: real, c: Candidate)
    ensures c in Ranked(Candidates(es, q, score, threshold)) <==>
      c.entry in es && q.now <= c.entry.expiresAt && Matches(c.entry, q, score, threshold)
      && c.score == score(q.vector, c.entry.vector)
  {
    var cs := Candidates(es, q, score, threshold);
    CandidateMember(es, q, score, threshold, c);
    assert c in Ranked(cs) <==> c in multiset(Ranked(cs));
    assert c in cs <==> c in multiset(cs);
  }

  /** `f` is a live entry the query could match, scoring strictly better than `e`. */
  predicate Better(f: Entry, e: Entry, q: Query, score: Score) {
    && q.now <= f.expiresAt && f.namespace == q.namespace && |f.vector| == |q.vector|
    && score(q.vector, f.vector) > score(q.vector, e.vector)
  }

  lemma HigherScoreFirst(cs: seq<Candidate>, k: nat, c: Candidate) returns (j: nat)
    requires Descending(cs) && k < |cs| && c in cs && c.score > cs[k].score
    ensures j < k && cs[j] == c
  {
    j :| 0 <= j < |cs| && cs[j] == c;
  }

  lemma BetterRanksFirst(es: seq<Entry>, q: Query, score: Score, threshold: real, topK: nat, k: nat, f: Entry)
    returns (j: nat)
    requires k < |Best(es, q, score, threshold, topK)|
    requires f in es && Better(f, Best(es, q, score, threshold, topK)[k].entry, q, score)
    ensures j < k && Best(es, q, score, threshold, topK)[j].entry == f
  {
    var ranked := Ranked(Candidates(es, q, score, threshold));
    var better := Candidate(f, score(q.vector, f.vector));
    RankedDescends(Candidates(es, q, score, threshold));
    ScoreOf(es, q, score, threshold, topK, k);
    RankedMember(es, q, score, threshold, better);
    j := HigherScoreFirst(ranked, k, better);
  }

  /**
    `f` was probed before `k` and had no value then; if it has one when the
    lookup returns, some other request set it after that probe.
   */
  ghost predicate MissedFirst(c: LruCache.Cache, cs: seq<Candidate>, w: Schedule, f: Entry, k: nat)
    requires k < |cs|
  {
    exists j: nat ::
      && j < k && cs[j].entry == f && Answer(c, cs, w, j).None?
      && (LruCache.Lookup(After(c, cs, w, k + 1), f.key, w.at(k)).Some? ==> WrittenBetween(w, f.key, j, k))
  }

  lemma MissedFirstAt(c: LruCache.Cache, cs: seq<Candidate>, w: Schedule, j: nat, k: nat)
    requires j < k < |cs| && Monotone(w) && Answer(c, cs, w, j).None?
    ensures MissedFirst(c, cs, w, cs[j].entry, k)
  {
    var f := cs[j].entry;
    GetIsTransparent(Before(c, cs, w, k), cs[k].entry.key, w.at(k), f.key, w.at(k));
    if !WrittenBetween(w, f.key, j, k) {
      StaysAbsent(c, cs, w, f.key, j, k);
    }
  }

  /**
    Whatever other requests do to the exact cache meanwhile, a lookup returns
    the value it finds for a live, matching entry, and every live entry of the
    namespace that scores strictly better was probed before and had no value.
    One can have a value when the lookup returns only if another request set it
    after that probe.
   */
  lemma LookupReturnsBest(
    c: LruCache.Cache, es: seq<Entry>, q: Query, score: Score, threshold: real, topK: nat, w: Schedule)
    requires Monotone(w)
    requires Search(c, es, q, score, threshold, topK, w).Found?
    ensures
      var (r, cs) := (Search(c, es, q, score, threshold, topK, w), Best(es, q, score, threshold, topK));
      && r.position < |cs|
      && var e := cs[r.position].entry;
      && e in es && q.now <= e.expiresAt && Matches(e, q, score, threshold)
      && e.namespace == q.namespace && |e.vector| == |q.vector| && score(q.vector, e.vector) >= threshold
      && r.position < topK
      && Answer(c, cs, w, r.position) == Some(r.value) && r.exact == After(c, cs, w, r.position + 1)
      && (forall f :: f in es && Better(f, e, q, score) ==> MissedFirst(c, cs, w, f, r.position))
  {
    var cs := Best(es, q, score, threshold, topK);
    ProbeFindsFirst(c, cs, w, 0);
    var k := Probe(c, cs, w, 0).position;
    ScoreOf(es, q, score, threshold, topK, k);
    forall f | f in es && Better(f, cs[k].entry, q, score)
      ensures MissedFirst(c, cs, w, f, k)
    {
      var j := BetterRanksFirst(es, q, score, threshold, topK, k, f);
      MissedFirstAt(c, cs, w, j, k);
    }
  }

  /** A lookup fails exactly when each of the best topK candidates has no value when it is probed. */
  lemma LookupMissesExactlyWhen(
    c: LruCache.Cache, es: seq<Entry>, q: Query, score: Score, threshold: real, topK: nat, w: Schedule)
    ensures
      var cs := Best(es, q, score, threshold, topK);
      Search(c, es, q, score, threshold, topK, w).NotFound? <==>
        forall j :: 0 <= j < |cs| ==> Answer(c, cs, w, j).None?
  {
    ProbeFindsFirst(c, Best(es, q, score, threshold, topK), w, 0);
  }

  /** `e` is live, of the namespace and length asked for, and similar enough. */
  predicate Qualifies(e: Entry, q: Query, score: Score, threshold: real) {
    && q.now <= e.expiresAt && e.namespace == q.namespace && |e.vector| == |q.vector|
    && score(q.vector, e.vector) >= threshold
  }

  /**
    The candidates probed are entries that qualify, at most topK of them; one
    that qualifies and is not probed scores no better than any probed, and is
    left out only because topK others are.
   */
  lemma BestAreTheTopK(es: seq<Entry>, q: Query, score: Score, threshold: real, topK: nat, e: Entry)
    requires e in es
    ensures
      var cs := Best(es, q, score, threshold, topK);
      && |cs| <= topK
      && (forall i :: 0 <= i < |cs| ==> cs[i].entry in es && Qualifies(cs[i].entry, q, score, threshold))
      && (Qualifies(e, q, score, threshold) && (forall i :: 0 <= i < |cs| ==> cs[i].entry != e) ==>
           && |cs| == topK
           && forall i :: 0 <= i < |cs| ==> score(q.vector, e.vector) <= score(q.vector, cs[i].entry.vector))
  {
    var cs := Best(es, q, score, threshold, topK);
    forall i | 0 <= i < |cs|
      ensures cs[i].entry in es && Qualifies(cs[i].entry, q, score, threshold)
      ensures cs[i].score == score(q.vector, cs[i].entry.vector)
    {
      ScoreOf(es, q, score, threshold, topK, i);
    }
    if Qualifies(e, q, score, threshold) && forall i :: 0 <= i < |cs| ==> cs[i].entry != e {
      var c := Candidate(e, score(q.vector, e.vector));
      RankedMember(es, q, score, threshold, c);
      RankedDescends(Candidates(es, q, score, threshold));
      LeftOut(Ranked(Candidates(es, q, score, threshold)), topK, c);
    }
  }

  lemma LeftOut(ranked: seq<Candidate>, topK: nat, c: Candidate)
    requires Descending(ranked) && c in ranked && c !in Top(ranked, topK)
    ensures |Top(ranked, topK)| == topK && forall i :: 0 <= i < topK ==> c.score <= Top(ranked, topK)[i].score
  {
    var j :| 0 <= j < |ranked| && ranked[j] == c;
    assert forall i :: 0 <= i < |Top(ranked, topK)| ==> Top(ranked, topK)[i] in Top(ranked, topK);
  }

  /** The candidates with one score, in order. */
  function Scoring(cs: seq<Candidate>, x: real): seq<Candidate> {
    if cs == [] then []
    else
      var front, last := cs[..|cs| - 1], cs[|cs| - 1];
      if last.score == x then Scoring(front, x) + [last] else Scoring(front, x)
  }

  lemma {:induction false} InsertStable(c: Candidate, cs: seq<Candidate>, x: real)
    ensures Scoring(Insert(c, cs), x) == Scoring(cs, x) + if c.score == x then [c] else []
  {
    if cs == [] {
      assert [c][..0] == [];
    } else {
      var front, last := cs[..|cs| - 1], cs[|cs| - 1];
      if last.score >= c.score {
        assert (cs + [c])[..|cs|] == cs;
      } else {
        InsertStable(c, front, x);
        var out := Insert(c, front);
        assert (out + [last])[..|out|] == out;
      }
    }
  }

  /** Candidates with the same score keep the order they have in the index. */
  lemma {:induction false} RankedIsStable(cs: seq<Candidate>, x: real)
    ensures Scoring(Ranked(cs), x) == Scoring(cs, x)
  {
    if cs != [] {
      var front, last := cs[..|cs| - 1], cs[|cs| - 1];
      RankedIsStable(front, x);
      InsertStable(last, Ranked(front), x);
    }
  }

  // ----- Which writes can spoil a lookup -----

  /** While a lookup probes, other requests set only keys of `keys`. */
  ghost predicate WritesOnly(w: Schedule, keys: set<string>) {
    forall i: nat, key: string :: i > 0 && Writes(w.others(i), key) ==> key in keys
  }

  /** If the lookup returns a value, nothing strictly better has one then. */
  ghost predicate ReturnsBest(
    c: LruCache.Cache, es: seq<Entry>, q: Query, score: Score, threshold: real, topK: nat, w: Schedule)
  {
    var (r, cs) := (Search(c, es, q, score, threshold, topK, w), Best(es, q, score, threshold, topK));
    r.Found? && r.position < |cs| ==>
      forall f :: f in es && Better(f, cs[r.position].entry, q, score) ==>
        LruCache.Lookup(r.exact, f.key, w.at(r.position)).None?
  }

  /** Over all exact caches and all schedules; the lookup reads the clock before it probes. */
  ghost predicate AlwaysReturnsBest(
    es: seq<Entry>, q: Query, score: Score, threshold: real, topK: nat, keys: set<string>)
  {
    forall c: LruCache.Cache, w: Schedule :: Monotone(w) && q.now <= w.at(0) && WritesOnly(w, keys) ==>
      ReturnsBest(c, es, q, score, threshold, topK, w)
  }

  /** `keys` has a candidate that is not among the lowest scoring ones. */
  predicate Exposed(cs: seq<Candidate>, keys: set<string>) {
    exists j, k :: 0 <= j < k < |cs| && cs[j].score > cs[k].score && cs[j].entry.key in keys
  }

  lemma UnexposedReturnsBest(
    c: LruCache.Cache, es: seq<Entry>, q: Query, score: Score, threshold: real, topK: nat, w: Schedule,
    keys: set<string>)
    requires Monotone(w) && WritesOnly(w, keys)
    requires !Exposed(Best(es, q, score, threshold, topK), keys)
    ensures ReturnsBest(c, es, q, score, threshold, topK, w)
  {
    var cs := Best(es, q, score, threshold, topK);
    var r := Search(c, es, q, score, threshold, topK, w);
    if r.Found? {
      LookupReturnsBest(c, es, q, score, threshold, topK, w);
      var k := r.position;
      forall f | f in es && Better(f, cs[k].entry, q, score)
        ensures LruCache.Lookup(r.exact, f.key, w.at(k)).None?
      {
        assert MissedFirst(c, cs, w, f, k);
        var j: nat :| j < k && cs[j].entry == f &&
          (LruCache.Lookup(After(c, cs, w, k + 1), f.key, w.at(k)).Some? ==> WrittenBetween(w, f.key, j, k));
        ScoreOf(es, q, score, threshold, topK, j);
        ScoreOf(es, q, score, threshold, topK, k);
      }
    }
  }

  lemma ScoreOf(es: seq<Entry>, q: Query, score: Score, threshold: real, topK: nat, j: nat)
    requires j < |Best(es, q, score, threshold, topK)|
    ensures
      var c := Best(es, q, score, threshold, topK)[j];
      && c.score == score(q.vector, c.entry.vector)
      && c.entry in es && q.now <= c.entry.expiresAt && Matches(c.entry, q, score, threshold)
  {
    var ranked := Ranked(Candidates(es, q, score, threshold));
    assert ranked[j] in ranked;
    RankedMember(es, q, score, threshold, ranked[j]);
  }

  // The schedule that spoils it: candidate `k` has a value, `j` is set just before `k` is probed.

  function OnlyHolds(key: string, value: LruCache.Bytes, t: int): LruCache.Cache {
    LruCache.Cache(2, [LruCache.Entry(key, value, t)], 0, 0)
  }

  function LateWrite(key: string, value: LruCache.Bytes, t: int, k: nat): Schedule {
    Schedule(_ => t, i => if i == k then [LruCache.Set(key, value, 0, t)] else [])
  }

  lemma {:induction false} QuietProbes(cs: seq<Candidate>, key: string, value: LruCache.Bytes, t: int, k: nat, i: nat)
    requires i <= k < |cs| && forall j :: 0 <= j < k ==> cs[j].entry.key != cs[k].entry.key
    ensures After(OnlyHolds(cs[k].entry.key, value, t), cs, LateWrite(key, value, t, k), i).entries
         == OnlyHolds(cs[k].entry.key, value, t).entries
    ensures After(OnlyHolds(cs[k].entry.key, value, t), cs, LateWrite(key, value, t, k), i).maxSize == 2
    ensures forall j :: 0 <= j < i ==>
      Answer(OnlyHolds(cs[k].entry.key, value, t), cs, LateWrite(key, value, t, k), j).None?
    decreases i
  {
    if i > 0 {
      QuietProbes(cs, key, value, t, k, i - 1);
      var c, w := OnlyHolds(cs[k].entry.key, value, t), LateWrite(key, value, t, k);
      var before := After(c, cs, w, i - 1);
      assert Before(c, cs, w, i - 1) == LruCache.Run(before, []) == before;
      LruCache.WithoutAbsent(before.entries, cs[i - 1].entry.key);
    }
  }

  lemma LateWriteOvertaken(cs: seq<Candidate>, value: LruCache.Bytes, t: int, j: nat, k: nat)
    requires j < k < |cs| && forall i :: 0 <= i < k ==> cs[i].entry.key != cs[k].entry.key
    ensures
      var (c, w) := (OnlyHolds(cs[k].entry.key, value, t), LateWrite(cs[j].entry.key, value, t, k));
      && Monotone(w) && WritesOnly(w, {cs[j].entry.key})
      && Probe(c, cs, w, 0) == Found(k, value, After(c, cs, w, k + 1))
      && LruCache.Lookup(After(c, cs, w, k + 1), cs[j].entry.key, t).Some?
  {
    var key, other := cs[k].entry.key, cs[j].entry.key;
    var c, w := OnlyHolds(key, value, t), LateWrite(other, value, t, k);
    QuietProbes(cs, other, value, t, k, k);
    var before := After(c, cs, w, k);
    var set_ := LruCache.Set(other, value, 0, t);
    assert w.others(k) == [set_] && [set_][1..] == [];
    assert LruCache.Run(before, [set_]) == LruCache.Run(LruCache.Apply(before, set_), []);
    assert Before(c, cs, w, k) == LruCache.Apply(before, set_);
    SetThenBoth(before, key, other, value, t);
    GetIsTransparent(Before(c, cs, w, k), key, t, other, t);
    FirstAnswer(c, cs, w, k);
  }

  lemma {:induction false} InsertKeepsApart(c: Candidate, cs: seq<Candidate>)
    requires KeysApart(cs) && forall i :: 0 <= i < |cs| ==> cs[i].entry.key != c.entry.key
    ensures KeysApart(Insert(c, cs))
  {
    if cs != [] && cs[|cs| - 1].score < c.score {
      var front := cs[..|cs| - 1];
      InsertKeepsApart(c, front);
      var out := Insert(c, front);
      forall k | 0 <= k < |out|
        ensures out[k].entry.key != cs[|cs| - 1].entry.key
      {
        InsertMembers(c, front, k);
      }
    }
  }

  ghost predicate KeysApart(cs: seq<Candidate>) {
    forall i, j :: 0 <= i < j < |cs| ==> cs[i].entry.key != cs[j].entry.key
  }

  lemma {:induction false} RankedKeepsApart(cs: seq<Candidate>)
    requires KeysApart(cs)
    ensures KeysApart(Ranked(cs))
  {
    if cs != [] {
      var front, last := cs[..|cs| - 1], cs[|cs| - 1];
      RankedKeepsApart(front);
      forall i | 0 <= i < |Ranked(front)|
        ensures Ranked(front)[i].entry.key != last.entry.key
      {
        assert Ranked(front)[i] in multiset(Ranked(front));
        assert Ranked(front)[i] in front;
      }
      InsertKeepsApart(last, Ranked(front));
    }
  }

  lemma {:induction false} CandidatesApart(es: seq<Entry>, q: Query, score: Score, threshold: real)
    requires Distinct(es)
    ensures KeysApart(Candidates(es, q, score, threshold))
  {
    if es != [] {
      var front, last := es[..|es| - 1], es[|es| - 1];
      var cs := Candidates(front, q, score, threshold);
      CandidatesApart(front, q, score, threshold);
      forall i | 0 <= i < |cs|
        ensures cs[i].entry.namespace == q.namespace && Apart(cs[i].entry, last)
      {
        CandidateMember(front, q, score, threshold, cs[i]);
        var n :| 0 <= n < |front| && front[n] == cs[i].entry;
        assert es[n] == front[n];
      }
    }
  }

  /**
    For a well-formed index and any set of keys that others may set meanwhile, a
    lookup never returns a value while something strictly better has one, over
    all exact caches and schedules, exactly when none of those keys is a probed
    candidate that scores above another.
   */
  lemma ReturnsBestExactlyWhen(
    es: seq<Entry>, q: Query, score: Score, threshold: real, topK: nat, keys: set<string>)
    requires Distinct(es)
    ensures AlwaysReturnsBest(es, q, score, threshold, topK, keys) <==>
            !Exposed(Best(es, q, score, threshold, topK), keys)
  {
    var cs := Best(es, q, score, threshold, topK);
    if !Exposed(cs, keys) {
      forall c: LruCache.Cache, w: Schedule | Monotone(w) && q.now <= w.at(0) && WritesOnly(w, keys)
        ensures ReturnsBest(c, es, q, score, threshold, topK, w)
      {
        UnexposedReturnsBest(c, es, q, score, threshold, topK, w, keys);
      }
    } else {
      var j, k :| 0 <= j < k < |cs| && cs[j].score > cs[k].score && cs[j].entry.key in keys;
      CandidatesApart(es, q, score, threshold);
      RankedKeepsApart(Candidates(es, q, score, threshold));
      LateWriteOvertaken(cs, [], q.now, j, k);
      ScoreOf(es, q, score, threshold, topK, j);
      ScoreOf(es, q, score, threshold, topK, k);
      var c, w := OnlyHolds(cs[k].entry.key, [], q.now), LateWrite(cs[j].entry.key, [], q.now, k);
      assert Better(cs[j].entry, cs[k].entry, q, score);
      assert !ReturnsBest(c, es, q, score, threshold, topK, w);
    }
  }

  // ----- The object -----

  lemma KeptSnoc(es: seq<Entry>, i: nat, keep: Entry -> bool)
    requires i < |es|
    ensures Kept(es[..i + 1], keep) == Kept(es[..i], keep) + if keep(es[i]) then [es[i]] else []
  {
    assert es[..i + 1][..i] == es[..i];
  }

  lemma CandidatesSnoc(es: seq<Entry>, i: nat, q: Query, score: Score, threshold: real)
    requires i < |es|
    ensures Candidates(es[..i + 1], q, score, threshold) == Candidates(es[..i], q, score, threshold) +
            if q.now <= es[i].expiresAt && Matches(es[i], q, score, threshold)
            then [Candidate(es[i], score(q.vector, es[i].vector))] else []
  {
    assert es[..i + 1][..i] == es[..i];
  }

  /** Filters the first `n` elements in place; the result fills the first `m`. */
  method Compact(a: array<Entry>, n: nat, keep: Entry -> bool) returns (m: nat)
    requires n <= a.Length
    modifies a
    ensures m <= n && a[..m] == Kept(old(a[..n]), keep)
  {
    ghost var es := a[..n];
    m := 0;
    for i := 0 to n
      invariant m <= i && a[..m] == Kept(es[..i], keep)
      invariant forall j :: i <= j < n ==> a[j] == es[j]
    {
      KeptSnoc(es, i, keep);
      var entry := a[i];
      if keep(entry) {
        a[m] := entry;
        m := m + 1;
      }
    }
    assert es[..n] == es;
  }

  /** Filters out what has expired and collects the candidates in the same pass. */
  method CompactAndCollect(a: array<Entry>, n: nat, q: Query, score: Score, threshold: real)
    returns (m: nat, candidates: seq<Candidate>)
    requires n <= a.Length
    modifies a
    ensures m <= n && a[..m] == Kept(old(a[..n]), Live(q.now))
    ensures candidates == Candidates(old(a[..n]), q, score, threshold)
  {
    ghost var es := a[..n];
    m, candidates := 0, [];
    for i := 0 to n
      invariant m <= i && a[..m] == Kept(es[..i], Live(q.now))
      invariant candidates == Candidates(es[..i], q, score, threshold)
      invariant forall j :: i <= j < n ==> a[j] == es[j]
    {
      KeptSnoc(es, i, Live(q.now));
      CandidatesSnoc(es, i, q, score, threshold);
      var entry := a[i];
      if q.now > entry.expiresAt {
        continue;
      }
      a[m] := entry;
      m := m + 1;
      if entry.namespace != q.namespace || |entry.vector| != |q.vector| {
        continue;
      }
      var similarity := score(q.vector, entry.vector);
      if similarity >= threshold {
        candidates := candidates + [Candidate(entry, similarity)];
      }
    }
    assert es[..n] == es;
  }

  method FindOldest(a: array<Entry>, n: nat) returns (oldest: nat)
    requires 0 < n <= a.Length
    ensures oldest < n && oldest == Oldest(a[..n])
  {
    oldest := 0;
    for i := 1 to n
      invariant oldest < i && oldest == Oldest(a[..i])
    {
      assert a[..i + 1][..i] == a[..i];
      if a[i].lastUsed < a[oldest].lastUsed {
        oldest := i;
      }
    }
  }

  method RemoveAt(a: array<Entry>, n: nat, i: nat)
    requires i < n <= a.Length
    modifies a
    ensures a[..n - 1] == Without(old(a[..n]), i)
  {
    forall j | i <= j < n - 1 {
      a[j] := a[j + 1];
    }
  }

  /** Removes least recently used entries until `max` are left. */
  method EvictOldest(a: array<Entry>, n: nat, max: nat) returns (m: nat)
    requires n <= a.Length
    modifies a
    ensures m <= n && a[..m] == Trimmed(old(a[..n]), max)
  {
    m := n;
    while m > max
      invariant m <= n && Trimmed(a[..m], max) == Trimmed(old(a[..n]), max)
    {
      var oldest := FindOldest(a, m);
      RemoveAt(a, m, oldest);
      m := m - 1;
    }
  }

  lemma {:induction false} TouchedFirst(es: seq<Entry>, namespace: string, key: string, clock: nat, i: nat)
    requires i <= |es|
    requires forall j :: 0 <= j < i ==> es[j].key != key || es[j].namespace != namespace
    requires i < |es| ==> es[i].key == key && es[i].namespace == namespace
    ensures TouchedEntries(es, namespace, key, clock) ==
            if i < |es| then es[i := es[i].(lastUsed := clock)] else es
  {
    if es != [] {
      assert es == [es[0]] + es[1..];
      if i > 0 {
        TouchedFirst(es[1..], namespace, key, clock, i - 1);
      }
    }
  }

  method TouchEntry(a: array<Entry>, n: nat, key: string, namespace: string, clock: nat)
    requires n <= a.Length
    modifies a
    ensures a[..n] == TouchedEntries(old(a[..n]), namespace, key, clock)
  {
    for i := 0 to n
      invariant a[..n] == old(a[..n])
      invariant forall j :: 0 <= j < i ==> a[..n][j].key != key || a[..n][j].namespace != namespace
    {
      if a[i].key == key && a[i].namespace == namespace {
        TouchedFirst(a[..n], namespace, key, clock, i);
        a[i] := a[i].(lastUsed := clock);
        return;
      }
    }
    TouchedFirst(a[..n], namespace, key, clock, n);
  }

  /** Go's append: in place while there is capacity, into a larger array otherwise. */
  method Append(a: array<Entry>, n: nat, e: Entry) returns (b: array<Entry>)
    requires n <= a.Length
    modifies a
    ensures (b == a || fresh(b)) && n < b.Length
    ensures b[..n + 1] == old(a[..n]) + [e]
  {
    b := a;
    if n == a.Length {
      b := new Entry[2 * n + 1];
      for i := 0 to n
        invariant b[..i] == a[..i]
        invariant a[..] == old(a[..])
      {
        b[i] := a[i];
      }
    }
    b[n] := e;
  }

  /** Replaces what `e` supersedes, drops what has expired, and makes room. */
  method PutEntry(a: array<Entry>, n: nat, e: Entry, now: int, max: nat) returns (b: array<Entry>, m: nat)
    requires n <= a.Length
    modifies a
    ensures (b == a || fresh(b)) && m <= b.Length
    ensures b[..m] == WithPut(old(a[..n]), e, now, max)
  {
    m := Compact(a, n, Retained(e.namespace, e.key, now));
    b := Append(a, m, e);
    m := EvictOldest(b, m + 1, max);
  }

  method ProbeInOrder(exact: LruCache.Memory, top: seq<Candidate>, w: Schedule)
    returns (value: LruCache.Bytes, ok: bool, k: nat)
    requires exact.Valid()
    modifies exact, exact.ll
    ensures exact.Valid() && exact.View() == Probe(old(exact.View()), top, w, 0).exact
    ensures ok == Probe(old(exact.View()), top, w, 0).Found?
    ensures ok ==> k < |top| && Probe(old(exact.View()), top, w, 0) == Found(k, value, exact.View())
  {
    for i := 0 to |top|
      invariant exact.Valid()
      invariant Probe(old(exact.View()), top, w, 0) == Probe(exact.View(), top, w, i)
      invariant forall el :: el in exact.ll ==> el in old(exact.ll) || fresh(el)
    {
      assert forall n :: 0 <= n < |exact.ll| ==> exact.ll[n] in exact.ll;
      LruCache.Perform(exact, w.others(i));
      value, ok := exact.Get(top[i].entry.key, w.at(i));
      if ok {
        return value, ok, i;
      }
    }
    return [], false, 0;
  }

  class Semantic {
    const exact: LruCache.Memory
    const enabled: bool
    const threshold: real
    const topK: nat
    const maxEntries: nat
    const hasEmbedder: bool
    const score: Score

    var buffer: array<Entry>
    var len: nat
    var clock: nat

    /** What the index holds. */
    ghost var entries: seq<Entry>

    ghost predicate Valid()
      reads this, buffer, exact, exact.ll
    {
      exact.Valid() && Stored()
    }

    ghost predicate Stored()
      reads this, buffer
    {
      len <= buffer.Length && buffer[..len] == entries
    }

    ghost function View(): Index
      reads this
    {
      Index(maxEntries, entries, clock)
    }

    constructor (
      exact: LruCache.Memory, enabled: bool, threshold: real, topK: int, maxEntries: int, hasEmbedder: bool, score: Score)
      requires exact.Valid()
      ensures Valid() && View() == Empty(maxEntries) && this.exact == exact
      ensures this.enabled == enabled && this.hasEmbedder == hasEmbedder && this.score == score
      ensures this.threshold == if threshold <= 0.0 then 0.97 else threshold
      ensures this.topK == if topK <= 0 then 3 else topK
    {
      this.exact, this.enabled, this.hasEmbedder, this.score := exact, enabled, hasEmbedder, score;
      this.threshold := if threshold <= 0.0 then 0.97 else threshold;
      this.topK := if topK <= 0 then 3 else topK;
      this.maxEntries := if maxEntries <= 0 then 1000 else maxEntries;
      buffer := new Entry[0];
      len, clock, entries := 0, 0, [];
    }

    /** The index takes part in a call: it is on, and the query was embedded. */
    predicate Searchable(query: string, embedding: Option<Vector>) {
      enabled && hasEmbedder && query != "" && embedding.Some? && embedding.value != []
    }

    method Delete(key: string)
      requires Valid()
      modifies this, buffer, exact
      ensures Valid() && View() == Unindexed(old(View()), key)
      ensures exact.View() == LruCache.AfterDelete(old(exact.View()), key)
    {
      exact.Delete(key);
      Unindex(key);
    }

    /** The locked part of Delete. */
    method Unindex(key: string)
      requires Stored()
      modifies this`len, this`entries, buffer
      ensures Stored() && View() == Unindexed(old(View()), key)
    {
      len := Compact(buffer, len, OtherKey(key));
      entries := Kept(entries, OtherKey(key));
    }

    method Lookup(namespace: string, query: string, embedding: Option<Vector>, now: int, w: Schedule)
      returns (value: LruCache.Bytes, ok: bool)
      requires Valid()
      modifies this, buffer, exact, exact.ll
      ensures Valid()
      ensures !Searchable(query, embedding) ==> !ok && View() == old(View()) && exact.View() == old(exact.View())
      ensures Searchable(query, embedding) ==>
        var es := old(View()).entries;
        var q := Query(namespace, embedding.value, now);
        var r := Search(old(exact.View()), es, q, score, threshold, topK, w);
        && exact.View() == r.exact
        && ok == r.Found?
        && (!ok ==> View() == Pruned(old(View()), now))
        && (ok ==>
             && value == r.value
             && r.position < |Best(es, q, score, threshold, topK)|
             && var e := Best(es, q, score, threshold, topK)[r.position].entry;
             View() == Touched(Pruned(old(View()), now), namespace, e.key))
    {
      if !enabled || !hasEmbedder || query == "" || embedding.None? || embedding.value == [] {
        return [], false;
      }
      value, ok := FindBest(Query(namespace, embedding.value, now), w);
    }

    /** The locked part of Lookup. */
    method FindBest(q: Query, w: Schedule) returns (value: LruCache.Bytes, ok: bool)
      requires Valid()
      modifies this, buffer, exact, exact.ll
      ensures Valid()
      ensures
        var es := old(View()).entries;
        var r := Search(old(exact.View()), es, q, score, threshold, topK, w);
        && exact.View() == r.exact
        && ok == r.Found?
        && (!ok ==> View() == Pruned(old(View()), q.now))
        && (ok ==>
             && value == r.value
             && r.position < |Best(es, q, score, threshold, topK)|
             && var e := Best(es, q, score, threshold, topK)[r.position].entry;
             View() == Touched(Pruned(old(View()), q.now), q.namespace, e.key))
    {
      var candidates := Collect(q);
      var top := Ranked(candidates);
      if |top| > topK {
        top := top[..topK];
      }
      assert top == Best(old(entries), q, score, threshold, topK);
      assert Stored();
      var k;
      value, ok, k := ProbeInOrder(exact, top, w);
      if ok {
        MarkUsed(top[k].entry.key, q.namespace);
      }
    }

    /** Drops what has expired; the entries that match the query are its candidates. */
    method Collect(q: Query) returns (candidates: seq<Candidate>)
      requires Stored()
      modifies this`len, this`entries, buffer
      ensures Stored() && entries == Kept(old(entries), Live(q.now))
      ensures candidates == Candidates(old(entries), q, score, threshold)
    {
      len, candidates := CompactAndCollect(buffer, len, q, score, threshold);
      entries := Kept(entries, Live(q.now));
    }

    method MarkUsed(key: string, namespace: string)
      requires Stored()
      modifies this`clock, this`entries, buffer
      ensures Stored() && View() == Touched(old(View()), namespace, key)
    {
      clock := clock + 1;
      TouchEntry(buffer, len, key, namespace, clock);
      entries := TouchedEntries(entries, namespace, key, clock);
    }

    /** The locked part of SetSemantic. */
    method Put(namespace: string, key: string, vector: Vector, ttl: int, now: int)
      requires Stored()
      modifies this, buffer
      ensures Stored() && View() == Indexed(old(View()), namespace, key, vector, ttl, now)
    {
      clock := clock + 1;
      var e := Entry(namespace, key, vector, now + ttl, clock);
      entries := WithPut(entries, e, now, maxEntries);
      buffer, len := PutEntry(buffer, len, e, now, maxEntries);
    }

    method SetSemantic(
      namespace: string, query: string, embedding: Option<Vector>, key: string, value: LruCache.Bytes, ttl: int,
      storedAt: int, now: int)
      requires Valid()
      modifies this, buffer, exact, if key in exact.items then {exact.items[key]} else {}
      ensures Valid()
      ensures exact.View() == LruCache.AfterSet(old(exact.View()), key, value, ttl, storedAt)
      ensures !Searchable(query, embedding) ==> View() == old(View())
      ensures Searchable(query, embedding) ==>
        View() == Indexed(old(View()), namespace, key, embedding.value, ttl, now)
    {
      exact.Set(key, value, ttl, storedAt);
      if !enabled || !hasEmbedder || query == "" || embedding.None? || embedding.value == [] {
        return;
      }
      Put(namespace, key, embedding.value, ttl, now);
    }
  }
}
