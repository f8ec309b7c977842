/** MemoryCache of private_gpt/components/cache/cache_service.py: an OrderedDict kept in order of
    last use, against the unbounded map it stands for. */
module MemoryCache {
  import opened Wrappers

  type Key = string

  datatype Slot<V> = Slot(expires: Option<int>, value: V)
  datatype Entry<V> = Entry(key: Key, slot: Slot<V>)

  predicate Expired<V>(s: Slot<V>, now: int) {
    s.expires.Some? && s.expires.value <= now
  }

  /* An insertion-ordered dictionary. */

  function Keys<V>(d: seq<Entry<V>>): set<Key> {
    if d == [] then {} else {d[0].key} + Keys(d[1..])
  }

  predicate Distinct<V>(d: seq<Entry<V>>) {
    d == [] || (d[0].key !in Keys(d[1..]) && Distinct(d[1..]))
  }

  function Lookup<V>(d: seq<Entry<V>>, k: Key): Option<Slot<V>> {
    if d == [] then None else if d[0].key == k then Some(d[0].slot) else Lookup(d[1..], k)
  }

  function Without<V>(d: seq<Entry<V>>, k: Key): seq<Entry<V>> {
    if d == [] then [] else if d[0].key == k then d[1..] else [d[0]] + Without(d[1..], k)
  }

  /** The keys used after k. */
  function After<V>(d: seq<Entry<V>>, k: Key): set<Key> {
    if d == [] then {} else if d[0].key == k then Keys(d[1..]) else After(d[1..], k)
  }

  function Found<V>(d: seq<Entry<V>>, k: Key, now: int): Option<V> {
    var slot := Lookup(d, k);
    if slot.Some? && !Expired(slot.value, now) then Some(slot.value.value) else None
  }

  function AfterGet<V>(d: seq<Entry<V>>, k: Key, now: int): seq<Entry<V>> {
    var slot := Lookup(d, k);
    if slot.None? then d
    else if Expired(slot.value, now) then Without(d, k)
    else Without(d, k) + [Entry(k, slot.value)]
  }

  /** The newest `max` entries. */
  function Newest<V>(d: seq<Entry<V>>, max: nat): seq<Entry<V>> {
    if |d| <= max then d else d[|d| - max..]
  }

  function AfterSet<V>(d: seq<Entry<V>>, k: Key, s: Slot<V>, max: nat): seq<Entry<V>> {
    Newest(Without(d, k) + [Entry(k, s)], max)
  }

  class MemoryCache<V> {
    const maxEntries: nat
    var values: seq<Entry<V>>

    constructor (maxEntries: nat)
      ensures this.maxEntries == maxEntries && values == []
    {
      this.maxEntries := maxEntries;
      values := [];
    }

    method Get(k: Key, now: int) returns (value: Option<V>)
      modifies this
      ensures value == Found(old(values), k, now) && values == AfterGet(old(values), k, now)
    {
      var slot := Lookup(values, k);
      if slot.None? { return None; }
      values := Without(values, k);
      if Expired(slot.value, now) { return None; }
      values := values + [Entry(k, slot.value)];
      return Some(slot.value.value);
    }

    method Set(k: Key, value: V, ttlSeconds: Option<int>, now: int)
      modifies this
      ensures var expires := if ttlSeconds.Some? then Some(now + ttlSeconds.value) else None;
              values == AfterSet(old(values), k, Slot(expires, value), maxEntries)
    {
      var expires := if ttlSeconds.Some? then Some(now + ttlSeconds.value) else None;
      values := Without(values, k) + [Entry(k, Slot(expires, value))];
      ghost var full := values;
      while |values| > maxEntries
        invariant |values| <= |full| && values == full[|full| - |values|..]
        invariant |values| == |full| || |values| >= maxEntries
      {
        values := values[1..];
      }
    }

    method Delete(k: Key)
      modifies this
      ensures values == Without(old(values), k)
    {
      values := Without(values, k);
    }
  }

  /* The unbounded map, and for each key the other keys used since its own last use. */

  datatype Op<V> = Get(k: Key, now: int) | Set(k: Key, slot: Slot<V>) | Delete(k: Key)

  datatype World<V> = World(cache: seq<Entry<V>>, all: map<Key, Slot<V>>, since: map<Key, set<Key>>, max: nat)

  /** k has just been used. */
  function Used(since: map<Key, set<Key>>, k: Key): map<Key, set<Key>> {
    map j | j in since.Keys + {k} :: if j == k then {} else since[j] + {k}
  }

  function Step<V>(w: World<V>, op: Op<V>): World<V> {
    match op
    case Get(k, now) =>
      World(AfterGet(w.cache, k, now),
            if k in w.all && Expired(w.all[k], now) then w.all - {k} else w.all,
            if Found(w.cache, k, now).Some? then Used(w.since, k) else w.since,
            w.max)
    case Set(k, slot) => World(AfterSet(w.cache, k, slot, w.max), w.all[k := slot], Used(w.since, k), w.max)
    case Delete(k) => World(Without(w.cache, k), w.all - {k}, w.since, w.max)
  }

  function Run<V>(w: World<V>, ops: seq<Op<V>>): World<V>
    decreases |ops|
  {
    if ops == [] then w else Run(Step(w, ops[0]), ops[1..])
  }

  /** A key of the unbounded map is in the cache behind only keys used since, or `max` other keys
      have been used since. */
  predicate Kept<V>(d: seq<Entry<V>>, since: map<Key, set<Key>>, max: nat, k: Key) {
    && k in since
    && (if k in Keys(d) then After(d, k) <= since[k] else |since[k]| >= max)
  }

  /** The cache says nothing the unbounded map does not. */
  ghost predicate Agrees<V>(d: seq<Entry<V>>, all: map<Key, Slot<V>>) {
    forall k | k in Keys(d) :: k in all && Lookup(d, k) == Some(all[k])
  }

  ghost predicate Inv<V>(w: World<V>) {
    && Distinct(w.cache) && |w.cache| <= w.max && Agrees(w.cache, w.all)
    && (forall k | k in w.all :: Kept(w.cache, w.since, w.max, k))
  }

  lemma {:induction false} LookupKeys<V>(d: seq<Entry<V>>, k: Key)
    ensures Lookup(d, k).Some? <==> k in Keys(d)
  {
    if d != [] { LookupKeys(d[1..], k); }
  }

  lemma {:induction false} AfterIsKeys<V>(d: seq<Entry<V>>, k: Key)
    ensures After(d, k) <= Keys(d)
  {
    if d != [] { AfterIsKeys(d[1..], k); }
  }

  lemma {:induction false} CountKeys<V>(d: seq<Entry<V>>)
    requires Distinct(d)
    ensures |Keys(d)| == |d|
  {
    if d != [] { CountKeys(d[1..]); }
  }

  lemma {:induction false} WithoutKeys<V>(d: seq<Entry<V>>, k: Key)
    requires Distinct(d)
    ensures Keys(Without(d, k)) == Keys(d) - {k} && Distinct(Without(d, k))
    ensures |Without(d, k)| == if k in Keys(d) then |d| - 1 else |d|
  {
    if d != [] && d[0].key != k {
      WithoutKeys(d[1..], k);
      assert Without(d, k)[1..] == Without(d[1..], k);
    }
  }

  lemma {:induction false} WithoutOther<V>(d: seq<Entry<V>>, k: Key, j: Key)
    requires Distinct(d) && j != k
    ensures Lookup(Without(d, k), j) == Lookup(d, j) && After(Without(d, k), j) == After(d, j) - {k}
  {
    if d != [] {
      if d[0].key == k {
        AfterIsKeys(d[1..], j);
      } else {
        assert Without(d, k)[1..] == Without(d[1..], k);
        if d[0].key == j { WithoutKeys(d[1..], k); } else { WithoutOther(d[1..], k, j); }
      }
    }
  }

  lemma {:induction false} AppendKeys<V>(d: seq<Entry<V>>, e: Entry<V>)
    requires Distinct(d) && e.key !in Keys(d)
    ensures Keys(d + [e]) == Keys(d) + {e.key} && Distinct(d + [e])
    ensures Lookup(d + [e], e.key) == Some(e.slot) && After(d + [e], e.key) == {}
  {
    if d == [] {
      assert d + [e] == [e];
    } else {
      assert (d + [e])[1..] == d[1..] + [e];
      AppendKeys(d[1..], e);
    }
  }

  lemma {:induction false} AppendOther<V>(d: seq<Entry<V>>, e: Entry<V>, j: Key)
    requires Distinct(d) && e.key !in Keys(d) && j in Keys(d)
    ensures Lookup(d + [e], j) == Lookup(d, j) && After(d + [e], j) == After(d, j) + {e.key}
  {
    assert (d + [e])[1..] == d[1..] + [e];
    if d[0].key == j { AppendKeys(d[1..], e); } else { AppendOther(d[1..], e, j); }
  }

  lemma SubsetCard(a: set<Key>, b: set<Key>)
    requires a <= b
    ensures |a| <= |b|
  {
    assert b == a + (b - a);
  }

  /** The entry of k moves to the end: what that means for another key j. */
  lemma MoveOther<V>(d: seq<Entry<V>>, since: map<Key, set<Key>>, max: nat, e: Entry<V>, j: Key)
    requires Distinct(d) && j != e.key && Kept(d, since, max, j)
    ensures Kept(Without(d, e.key) + [e], Used(since, e.key), max, j)
    ensures j in Keys(d) ==> Lookup(Without(d, e.key) + [e], j) == Lookup(d, j)
  {
    var rest := Without(d, e.key);
    WithoutKeys(d, e.key);
    WithoutOther(d, e.key, j);
    AppendKeys(rest, e);
    if j in Keys(d) {
      AppendOther(rest, e, j);
    } else {
      SubsetCard(since[j], Used(since, e.key)[j]);
    }
  }

  /** The entry of k moves to the end, or joins there: the cache may be one over for a moment. */
  lemma Move<V>(w: World<V>, k: Key, slot: Slot<V>) returns (moved: seq<Entry<V>>)
    requires Inv(w)
    ensures moved == Without(w.cache, k) + [Entry(k, slot)] && Distinct(moved) && Agrees(moved, w.all[k := slot])
    ensures |moved| == if k in Keys(w.cache) then |w.cache| else |w.cache| + 1
    ensures forall j | j in w.all[k := slot] :: Kept(moved, Used(w.since, k), w.max, j)
  {
    var e := Entry(k, slot);
    moved := Without(w.cache, k) + [e];
    WithoutKeys(w.cache, k);
    AppendKeys(Without(w.cache, k), e);
    forall j | j in w.all[k := slot] ensures Kept(moved, Used(w.since, k), w.max, j) {
      if j != k { MoveOther(w.cache, w.since, w.max, e, j); }
    }
    forall j | j in Keys(moved) ensures j in w.all[k := slot] && Lookup(moved, j) == Some(w.all[k := slot][j]) {
      if j != k { MoveOther(w.cache, w.since, w.max, e, j); }
    }
  }

  /** k is gone from both, nothing else changed. */
  lemma Remove<V>(w: World<V>, k: Key)
    requires Inv(w)
    ensures Inv(World(Without(w.cache, k), w.all - {k}, w.since, w.max))
  {
    WithoutKeys(w.cache, k);
    forall j | j != k
      ensures Lookup(Without(w.cache, k), j) == Lookup(w.cache, j)
      ensures After(Without(w.cache, k), j) == After(w.cache, j) - {k}
    {
      WithoutOther(w.cache, k, j);
    }
  }

  /** Dropping the oldest entry of a cache that is one over: its `max` successors were used since. */
  lemma Evict<V>(d: seq<Entry<V>>, all: map<Key, Slot<V>>, since: map<Key, set<Key>>, max: nat)
    requires Distinct(d) && |d| == max + 1 && Agrees(d, all)
    requires forall k | k in all :: Kept(d, since, max, k)
    ensures Inv(World(d[1..], all, since, max))
  {
    CountKeys(d[1..]);
    var oldest := d[0].key;
    assert oldest in Keys(d);
    forall k | k in all ensures Kept(d[1..], since, max, k) {
      assert Kept(d, since, max, k);
      if k == oldest { SubsetCard(After(d, k), since[k]); }
    }
    forall k | k in Keys(d[1..]) ensures k in all && Lookup(d[1..], k) == Some(all[k]) {
      assert k in Keys(d);
    }
  }

  lemma InvStep<V>(w: World<V>, op: Op<V>)
    requires Inv(w)
    ensures Inv(Step(w, op))
  {
    match op
    case Get(k, now) =>
      var slot := Lookup(w.cache, k);
      LookupKeys(w.cache, k);
      if slot.Some? && Expired(slot.value, now) {
        Remove(w, k);
      } else if slot.Some? {
        var moved := Move(w, k, slot.value);
        assert w.all[k := slot.value] == w.all;
      }
    case Set(k, slot) =>
      var moved := Move(w, k, slot);
      if |moved| > w.max { Evict(moved, w.all[k := slot], Used(w.since, k), w.max); }
    case Delete(k) =>
      Remove(w, k);
  }

  lemma {:induction false} InvOverRuns<V>(w: World<V>, ops: seq<Op<V>>)
    requires Inv(w)
    ensures Inv(Run(w, ops)) && Run(w, ops).max == w.max
    decreases |ops|
  {
    if ops != [] {
      InvStep(w, ops[0]);
      InvOverRuns(Step(w, ops[0]), ops[1..]);
    }
  }

  lemma {:induction false} RunConcat<V>(w: World<V>, a: seq<Op<V>>, b: seq<Op<V>>)
    ensures Run(w, a + b) == Run(Run(w, a), b)
    decreases |a|
  {
    hide Step;
    if a == [] {
      assert a + b == b;
    } else {
      assert (a + b)[1..] == a[1..] + b;
      RunConcat(Step(w, a[0]), a[1..], b);
    }
  }

  /** The operation leaves the value of k as it was set: it neither sets nor deletes it, nor finds it expired. */
  predicate Spares<V>(op: Op<V>, k: Key, slot: Slot<V>) {
    match op
    case Get(j, now) => j == k ==> Lasts(slot, now)
    case Set(j, _) => j != k
    case Delete(j) => j != k
  }

  /** The operations spare k, and use no other key than these. */
  ghost predicate InBetween<V>(ops: seq<Op<V>>, k: Key, slot: Slot<V>, others: set<Key>) {
    forall op | op in ops :: Spares(op, k, slot) && (op.Delete? || op.k == k || op.k in others)
  }

  lemma {:induction false} SparedStays<V>(w: World<V>, ops: seq<Op<V>>, k: Key, slot: Slot<V>, others: set<Key>)
    requires k in w.all && w.all[k] == slot && k in w.since && w.since[k] <= others
    requires InBetween(ops, k, slot, others)
    ensures var t := Run(w, ops);
            k in t.all && t.all[k] == slot && k in t.since && t.since[k] <= others
    decreases |ops|
  {
    hide AfterGet, AfterSet, Found;
    if ops != [] {
      assert ops[0] in ops;
      SparedStays(Step(w, ops[0]), ops[1..], k, slot, others);
    }
  }

  /** After any operations: a value set is found again, as long as it lasts and is neither set anew nor deleted,
      when fewer than `max` other keys are got or set in between. */
  lemma SetIsFound<V>(before: seq<Op<V>>, k: Key, slot: Slot<V>, more: seq<Op<V>>, others: set<Key>, max: nat, now: int)
    requires InBetween(more, k, slot, others) && |others| < max && Lasts(slot, now)
    ensures Found(Run(World([], map[], map[], max), before + ([Set(k, slot)] + more)).cache, k, now) == Some(slot.value)
  {
    var start, ops := World([], map[], map[], max), [Set(k, slot)] + more;
    var w := Run(start, before);
    RunConcat(start, before, ops);
    assert ops[1..] == more;
    SparedStays(Step(w, Set(k, slot)), more, k, slot, others);
    CacheRefinesMap(before + ops, max, k, now);
    var t := Run(start, before + ops);
    SubsetCard(t.since[k], others);
  }

  /** The time to live, if there is one, is not over. */
  predicate Lasts<V>(s: Slot<V>, now: int) {
    match s.expires
    case None => true
    case Some(end) => now < end
  }

  /** After any operations on an empty cache: `get` never returns anything but the last value set,
      and not expired; it does return that value when fewer than `max` other keys were used since
      the key's own last use; and the cache never holds more than `max` entries. */
  lemma CacheRefinesMap<V>(ops: seq<Op<V>>, max: nat, k: Key, now: int)
    ensures var w := Run(World([], map[], map[], max), ops);
            var got := Found(w.cache, k, now);
            && |w.cache| <= max
            && (got.Some? ==> k in w.all && w.all[k].value == got.value && Lasts(w.all[k], now))
            && (k in w.all && Lasts(w.all[k], now) ==> k in w.since)
            && (k in w.all && Lasts(w.all[k], now) && |w.since[k]| < max ==> got == Some(w.all[k].value))
  {
    InvOverRuns(World([], map[], map[], max), ops);
    var w := Run(World([], map[], map[], max), ops);
    LookupKeys(w.cache, k);
    if k in w.all { assert Kept(w.cache, w.since, w.max, k); }
  }
}
