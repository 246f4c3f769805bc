/** The in-memory state of one node: the L1 map in insertion order, and the local tag versions. */
module CacheNode {
  import opened Common
  import opened CacheProtocol

  /** `expiresAt` is None for entries that never expire. */
  datatype Slot = Slot(key: Key, item: Item, expiresAt: Option<int>, lastAccess: int)

  predicate Distinct(s: seq<Slot>) { forall i, j | 0 <= i < j < |s| :: s[i].key != s[j].key }

  predicate Has(s: seq<Slot>, k: Key) { exists i | 0 <= i < |s| :: s[i].key == k }

  /** The entries without key `k`, in order. */
  function Without(s: seq<Slot>, k: Key): seq<Slot> {
    if s == [] then []
    else Without(s[..|s| - 1], k) + (if s[|s| - 1].key == k then [] else [s[|s| - 1]])
  }

  /** JavaScript's Map.set: an existing key keeps its place. */
  function Assign(s: seq<Slot>, e: Slot): seq<Slot> {
    if s == [] then [e]
    else if s[0].key == e.key then [e] + s[1..]
    else [s[0]] + Assign(s[1..], e)
  }

  function Find(s: seq<Slot>, k: Key): Option<Slot> {
    if s == [] then None else if s[0].key == k then Some(s[0]) else Find(s[1..], k)
  }

  predicate Expired(e: Slot, now: int) { e.expiresAt.Some? && e.expiresAt.value <= now }

  function ExpiryOf(ttlSeconds: int, now: int): Option<int> {
    if ttlSeconds <= 0 then None else Some(now + ttlSeconds * 1000)
  }

  function Get(s: seq<Slot>, k: Key, now: int): (seq<Slot>, Option<Item>) {
    match Find(s, k)
    case None => (s, None)
    case Some(e) =>
      if Expired(e, now) then (Without(s, k), None)
      else (Without(s, k) + [e.(lastAccess := now)], Some(e.item))
  }

  /** How many entries the eviction loop removes from a map of size `n`. */
  function Evictions(n: nat, limit: int): (k: nat)
    ensures k <= n
    ensures 1 <= limit ==> n - k < limit && (0 < k ==> n - k == limit - 1)
    ensures limit <= 0 ==> k == n
  {
    if n < limit then 0 else if limit <= 0 then n else n - limit + 1
  }

  function Insert(s: seq<Slot>, k: Key, item: Item, ttlSeconds: int, limit: int, now: int): seq<Slot> {
    Assign(s[Evictions(|s|, limit)..], Slot(k, item, ExpiryOf(ttlSeconds, now), now))
  }

  lemma {:induction false} FindIsHas(s: seq<Slot>, k: Key)
    ensures Find(s, k).Some? <==> Has(s, k)
    ensures Find(s, k).Some? ==> exists i :: 0 <= i < |s| && s[i] == Find(s, k).value && s[i].key == k
  {
    if s != [] && s[0].key != k {
      FindIsHas(s[1..], k);
      if Find(s, k).Some? {
        var i :| 0 <= i < |s[1..]| && s[1..][i] == Find(s, k).value && s[1..][i].key == k;
        assert s[i + 1] == s[1..][i];
      }
      if Has(s, k) {
        var i :| 0 <= i < |s| && s[i].key == k;
        assert s[1..][i - 1].key == k;
      }
    } else if s != [] {
      assert s[0].key == k;
    }
  }

  class NodeMemory {
    var l1: seq<Slot>
    var tagVersionCache: map<Tag, CachedVersion>
    var evictions: int
    const l1MaxEntries: int

    constructor (limit: int)
      ensures l1 == [] && tagVersionCache == map[] && l1MaxEntries == limit && evictions == 0
    {
      l1, tagVersionCache, evictions, l1MaxEntries := [], map[], 0, limit;
    }

    method Delete(k: Key)
      modifies this`l1
      ensures l1 == Without(old(l1), k)
    {
      var kept := [];
      for i := 0 to |l1|
        invariant l1 == old(l1)
        invariant kept == Without(l1[..i], k)
      {
        assert l1[..i + 1][..i] == l1[..i];
        if l1[i].key != k {
          kept := kept + [l1[i]];
        }
      }
      assert l1[..|l1|] == l1;
      l1 := kept;
    }

    method GetL1(k: Key, now: int) returns (r: Option<Item>)
      modifies this`l1
      ensures (l1, r) == Get(old(l1), k, now)
    {
      var entry := Find(l1, k);
      if entry.None? {
        return None;
      }
      if Expired(entry.value, now) {
        Delete(k);
        return None;
      }
      Delete(k);
      l1 := l1 + [entry.value.(lastAccess := now)];
      return Some(entry.value.item);
    }

    method SetL1(k: Key, item: Item, ttlSeconds: int, now: int)
      modifies this`l1, this`evictions
      ensures l1 == Insert(old(l1), k, item, ttlSeconds, l1MaxEntries, now)
      ensures evictions == old(evictions) + Evictions(|old(l1)|, l1MaxEntries)
    {
      ghost var done := 0;
      while |l1| >= l1MaxEntries
        invariant 0 <= done <= Evictions(|old(l1)|, l1MaxEntries)
        invariant l1 == old(l1)[done..] && evictions == old(evictions) + done
        decreases |l1|
      {
        if l1 == [] {
          break;
        }
        l1 := l1[1..];
        evictions := evictions + 1;
        done := done + 1;
      }
      l1 := Assign(l1, Slot(k, item, ExpiryOf(ttlSeconds, now), now));
    }

    method RememberVersion(t: Tag, version: int, now: int)
      modifies this`tagVersionCache
      ensures tagVersionCache == old(tagVersionCache)[t := CachedVersion(version, now + TAG_CACHE_TTL_MS)]
    {
      tagVersionCache := tagVersionCache[t := CachedVersion(version, now + TAG_CACHE_TTL_MS)];
    }

    /** The last part of an invalidation, after its pipeline has been answered. */
    method ForgetTags(tags: seq<Tag>)
      modifies this`tagVersionCache
      ensures tagVersionCache == Forget(old(tagVersionCache), tags)
    {
      for i := 0 to |tags|
        invariant tagVersionCache == Forget(old(tagVersionCache), tags[..i])
      {
        tagVersionCache := tagVersionCache - {tags[i]};
        assert tags[..i + 1] == tags[..i] + [tags[i]];
      }
      assert tags[..|tags|] == tags;
    }
  }

  // ---------------------------------------------------------------------------------------------
  // The map order is the order of last touch
  // ---------------------------------------------------------------------------------------------

  /** Position of the last occurrence, -1 if there is none. */
  function LastTouch(log: seq<Key>, k: Key): (r: int)
    ensures -1 <= r < |log|
    ensures r >= 0 ==> log[r] == k
    ensures forall i | r < i < |log| :: log[i] != k
  {
    if log == [] then -1
    else if log[|log| - 1] == k then |log| - 1
    else LastTouch(log[..|log| - 1], k)
  }

  predicate ByRecency(s: seq<Slot>, log: seq<Key>) {
    && (forall i | 0 <= i < |s| :: 0 <= LastTouch(log, s[i].key))
    && (forall i, j | 0 <= i < j < |s| :: LastTouch(log, s[i].key) < LastTouch(log, s[j].key))
  }

  lemma {:induction false} TouchOther(log: seq<Key>, k: Key, other: Key)
    ensures LastTouch(log + [k], k) == |log|
    ensures other != k ==> LastTouch(log + [k], other) == LastTouch(log, other)
  {
    assert (log + [k])[..|log|] == log;
  }

  lemma {:induction false} WithoutIsFilter(s: seq<Slot>, k: Key)
    ensures forall e: Slot :: e in Without(s, k) <==> e in s && e.key != k
  {
    if s != [] {
      WithoutIsFilter(s[..|s| - 1], k);
      assert s == s[..|s| - 1] + [s[|s| - 1]];
    }
  }

  lemma {:induction false} ExtendOrder(r: seq<Slot>, e: Slot, log: seq<Key>)
    requires ByRecency(r, log) && 0 <= LastTouch(log, e.key)
    requires forall x <- r :: LastTouch(log, x.key) < LastTouch(log, e.key)
    ensures ByRecency(r + [e], log)
  {
    hide LastTouch;
    var t := r + [e];
    forall i, j | 0 <= i < j < |t| ensures LastTouch(log, t[i].key) < LastTouch(log, t[j].key) {
      assert t[i] in r;
    }
  }

  lemma {:induction false} WithoutKeepsOrder(s: seq<Slot>, k: Key, log: seq<Key>)
    requires ByRecency(s, log)
    ensures ByRecency(Without(s, k), log)
  {
    hide LastTouch;
    if s != [] {
      var n := |s| - 1;
      WithoutKeepsOrder(s[..n], k, log);
      WithoutIsFilter(s[..n], k);
      if s[n].key != k {
        forall x | x in Without(s[..n], k) ensures LastTouch(log, x.key) < LastTouch(log, s[n].key) {
          assert x in s[..n];
        }
        ExtendOrder(Without(s[..n], k), s[n], log);
      }
    }
  }

  lemma {:induction false} AppendKeepsOrder(s: seq<Slot>, e: Slot, log: seq<Key>)
    requires ByRecency(s, log) && forall x <- s :: x.key != e.key
    ensures ByRecency(s + [e], log + [e.key])
  {
    var t := s + [e];
    forall i | 0 <= i < |s|
      ensures t[i] == s[i] && LastTouch(log + [e.key], s[i].key) == LastTouch(log, s[i].key)
    {
      assert s[i] in s;
      TouchOther(log, e.key, s[i].key);
    }
    TouchOther(log, e.key, e.key);
  }

  lemma {:induction false} AssignExisting(s: seq<Slot>, e: Slot)
    requires Has(s, e.key)
    ensures |Assign(s, e)| == |s| && forall i | 0 <= i < |s| :: Assign(s, e)[i].key == s[i].key
  {
    var i :| 0 <= i < |s| && s[i].key == e.key;
    if s[0].key != e.key {
      assert s[1..][i - 1].key == e.key;
      AssignExisting(s[1..], e);
    }
  }

  lemma {:induction false} AssignNew(s: seq<Slot>, e: Slot)
    requires !Has(s, e.key)
    ensures Assign(s, e) == s + [e]
  {
    if s != [] {
      assert s[0].key != e.key;
      forall i | 0 <= i < |s[1..]| ensures s[1..][i].key != e.key {
        assert s[1..][i] == s[i + 1];
      }
      AssignNew(s[1..], e);
    }
  }

  datatype Op = Lookup(k: Key, now: int) | Store(k: Key, item: Item, ttlSeconds: int, now: int)

  function Apply(s: seq<Slot>, limit: int, op: Op): seq<Slot> {
    match op
    case Lookup(k, now) => Get(s, k, now).0
    case Store(k, item, ttl, now) => Insert(s, k, item, ttl, limit, now)
  }

  /** A touch is a hit, or the insertion of a key that is absent at that moment. */
  predicate Touches(s: seq<Slot>, limit: int, op: Op) {
    match op
    case Lookup(k, now) => Get(s, k, now).1.Some?
    case Store(k, _, _, _) => !Has(s[Evictions(|s|, limit)..], k)
  }

  function Touched(s: seq<Slot>, limit: int, op: Op, log: seq<Key>): seq<Key> {
    if Touches(s, limit, op) then log + [op.k] else log
  }

  lemma {:induction false} OpKeepsRecency(s: seq<Slot>, limit: int, op: Op, log: seq<Key>)
    requires ByRecency(s, log)
    ensures ByRecency(Apply(s, limit, op), Touched(s, limit, op, log))
  {
    match op {
      case Lookup(k, now) =>
        FindIsHas(s, k);
        WithoutKeepsOrder(s, k, log);
        WithoutIsFilter(s, k);
        if Touches(s, limit, op) {
          AppendKeepsOrder(Without(s, k), Find(s, k).value.(lastAccess := now), log);
        }
      case Store(k, item, ttl, now) =>
        var r := s[Evictions(|s|, limit)..];
        var e := Slot(k, item, ExpiryOf(ttl, now), now);
        assert ByRecency(r, log);
        if Has(r, k) {
          AssignExisting(r, e);
        } else {
          AssignNew(r, e);
          forall x | x in r ensures x.key != k {
            var i :| 0 <= i < |r| && r[i] == x;
          }
          AppendKeepsOrder(r, e, log);
        }
    }
  }

  lemma {:induction false} OpKeepsLimit(s: seq<Slot>, limit: int, op: Op)
    requires 1 <= limit && |s| <= limit
    ensures |Apply(s, limit, op)| <= limit
  {
    match op {
      case Lookup(k, now) =>
        FindIsHas(s, k);
        if Has(s, k) {
          WithoutIsShorter(s, k);
        }
      case Store(k, item, ttl, now) =>
        var r := s[Evictions(|s|, limit)..];
        var e := Slot(k, item, ExpiryOf(ttl, now), now);
        if Has(r, k) {
          AssignExisting(r, e);
        } else {
          AssignNew(r, e);
        }
    }
  }

  lemma {:induction false} WithoutIsShorter(s: seq<Slot>, k: Key)
    ensures |Without(s, k)| <= |s|
    ensures Has(s, k) ==> |Without(s, k)| < |s|
  {
    if s != [] {
      var n := |s| - 1;
      WithoutIsShorter(s[..n], k);
      if Has(s, k) && s[n].key != k {
        var i :| 0 <= i < |s| && s[i].key == k;
        assert s[..n][i].key == k;
      }
    }
  }

  function Play(s: seq<Slot>, limit: int, log: seq<Key>, ops: seq<Op>): (seq<Slot>, seq<Key>)
    decreases |ops|
  {
    if ops == [] then (s, log)
    else Play(Apply(s, limit, ops[0]), limit, Touched(s, limit, ops[0], log), ops[1..])
  }

  /** After any operations, the L1 map lists its keys in the order of their last touch. */
  lemma {:induction false} EveryRunKeepsRecency(s: seq<Slot>, limit: int, log: seq<Key>, ops: seq<Op>)
    requires 1 <= limit && |s| <= limit && ByRecency(s, log)
    ensures var (t, touched) := Play(s, limit, log, ops);
            |t| <= limit && ByRecency(t, touched)
    decreases |ops|
  {
    if ops != [] {
      OpKeepsRecency(s, limit, ops[0], log);
      OpKeepsLimit(s, limit, ops[0]);
      EveryRunKeepsRecency(Apply(s, limit, ops[0]), limit, Touched(s, limit, ops[0], log), ops[1..]);
    }
  }

  /** Eviction takes as few entries as the limit needs, and each was touched before every kept one. */
  lemma {:induction false} EvictionTakesLeastRecent(s: seq<Slot>, limit: int, log: seq<Key>, i: nat, j: nat)
    requires ByRecency(s, log) && i < Evictions(|s|, limit) <= j < |s|
    ensures LastTouch(log, s[i].key) < LastTouch(log, s[j].key)
    ensures |s| - Evictions(|s|, limit) == limit - 1
  {
  }

  /**
   * Overwriting a present key does not refresh it: with two entries and room for three, the older
   * one is stored again and is still the next to be evicted.
   */
  lemma {:induction false} OverwriteIsNotATouch(a: Slot, b: Slot, item: Item, ttl: int, now: int)
    requires a.key != b.key
    ensures var r := Insert([a, b], a.key, item, ttl, 3, now);
            && |r| == 2 && r[0].key == a.key && r[0].item == item && r[1] == b
            && !Touches([a, b], 3, Store(a.key, item, ttl, now))
  {
    assert [a, b][0..] == [a, b] && [a, b][0].key == a.key;
  }

  // ---------------------------------------------------------------------------------------------
  // The memory is one of the behaviours the protocol allows
  // ---------------------------------------------------------------------------------------------

  function Entries(s: seq<Slot>): map<Key, Item> {
    if s == [] then map[] else Entries(s[..|s| - 1])[s[|s| - 1].key := s[|s| - 1].item]
  }

  lemma {:induction false} EntriesAreSlots(s: seq<Slot>, k: Key)
    requires Distinct(s)
    ensures k in Entries(s) ==> exists e <- s :: e.key == k && e.item == Entries(s)[k]
    ensures forall e <- s :: e.key == k ==> k in Entries(s) && Entries(s)[k] == e.item
  {
    if s != [] {
      var n := |s| - 1;
      EntriesAreSlots(s[..n], k);
      assert s == s[..n] + [s[n]];
      if k in Entries(s) && s[n].key != k {
        var e :| e in s[..n] && e.key == k && e.item == Entries(s)[k];
        assert e in s;
      }
      forall e | e in s && e.key == k ensures k in Entries(s) && Entries(s)[k] == e.item {
        if e != s[n] {
          assert e in s[..n];
        }
      }
    }
  }

  lemma {:induction false} AssignIsUpdate(s: seq<Slot>, e: Slot)
    requires Distinct(s)
    ensures forall x: Slot :: x in Assign(s, e) <==> x == e || (x in s && x.key != e.key)
  {
    if s != [] {
      assert s == [s[0]] + s[1..];
      if s[0].key != e.key {
        AssignIsUpdate(s[1..], e);
      }
    }
  }

  /** SetL1, seen as the protocol's actions: some keys are forgotten, one is put. */
  lemma {:induction false} StoreRefinesProtocol(
      s: seq<Slot>, log: seq<Key>, limit: int, k: Key, item: Item, ttl: int, now: int, key: Key)
    requires ByRecency(s, log)
    ensures var t := Entries(Insert(s, k, item, ttl, limit, now));
            && k in t && t[k] == item
            && (key != k && key in t ==> key in Entries(s) && t[key] == Entries(s)[key])
  {
    var r := s[Evictions(|s|, limit)..];
    var e := Slot(k, item, ExpiryOf(ttl, now), now);
    OpKeepsRecency(s, limit, Store(k, item, ttl, now), log);
    AssignIsUpdate(r, e);
    hide ByRecency, Assign, Entries;
    RecencyIsDistinct(s, log);
    RecencyIsDistinct(Assign(r, e), Touched(s, limit, Store(k, item, ttl, now), log));
    EntriesAreSlots(Assign(r, e), k);
    EntriesAreSlots(Assign(r, e), key);
    EntriesAreSlots(s, key);
  }

  lemma {:induction false} RecencyIsDistinct(s: seq<Slot>, log: seq<Key>)
    requires ByRecency(s, log)
    ensures Distinct(s)
  {
    hide LastTouch;
  }

  /** GetL1 returns what is stored and not expired, and at most forgets the key it looked for. */
  lemma {:induction false} LookupRefinesProtocol(s: seq<Slot>, log: seq<Key>, k: Key, now: int, key: Key)
    requires ByRecency(s, log)
    ensures var (t, r) := Get(s, k, now);
            && (r.Some? ==> k in Entries(s) && Entries(s)[k] == r.value && k in Entries(t))
            && (r.None? ==> k !in Entries(t))
            && (key != k ==> (key in Entries(t) <==> key in Entries(s)))
            && (key in Entries(t) ==> key in Entries(s) && Entries(t)[key] == Entries(s)[key])
  {
    var (t, r) := Get(s, k, now);
    FindIsHas(s, k);
    WithoutIsFilter(s, k);
    OpKeepsRecency(s, 1, Lookup(k, now), log);
    RecencyIsDistinct(s, log);
    RecencyIsDistinct(t, Touched(s, 1, Lookup(k, now), log));
    EntriesAreSlots(s, k);
    EntriesAreSlots(s, key);
    EntriesAreSlots(t, k);
    EntriesAreSlots(t, key);
    hide ByRecency, Without, Entries, Find, LastTouch;
    if r.Some? {
      assert t[|t| - 1].key == k;
    }
  }

  lemma {:induction false} FindAssigned(s: seq<Slot>, e: Slot)
    ensures Find(Assign(s, e), e.key) == Some(e)
  {
    if s != [] && s[0].key != e.key {
      FindAssigned(s[1..], e);
      assert Assign(s, e)[1..] == Assign(s[1..], e);
    }
  }

  /** A stored value is served until its seconds have passed, and not at that moment; without a lifetime, always. */
  lemma {:induction false} StoredUntil(
      s: seq<Slot>, k: Key, item: Item, ttlSeconds: int, limit: int, stored: int, now: int)
    ensures Get(Insert(s, k, item, ttlSeconds, limit, stored), k, now).1
         == if ttlSeconds <= 0 || now - stored < 1000 * ttlSeconds then Some(item) else None
  {
    FindAssigned(s[Evictions(|s|, limit)..], Slot(k, item, ExpiryOf(ttlSeconds, stored), stored));
  }
}
