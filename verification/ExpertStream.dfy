/** The cache of streamed experts and its eviction loop (src/common/expert_stream.rs). */
module ExpertStream {
  import opened Wrappers

  const GRAVEYARD_DRAIN_BYTES: nat := 512 * 1024 * 1024

  /** A layer and an expert of it. */
  type Key = (nat, nat)

  datatype Entry = Entry(expert: nat, bytes: nat, lastUse: nat)

  type Cache = map<Key, Entry>

  // ----- sums over a cache

  ghost function BytesOf(cache: Cache): nat
    decreases |cache|
  {
    if cache == map[] then 0 else
      var k :| k in cache;
      cache[k].bytes + BytesOf(cache - {k})
  }

  lemma {:induction false} BytesWithout(cache: Cache, k: Key)
    requires k in cache
    ensures BytesOf(cache) == cache[k].bytes + BytesOf(cache - {k})
    decreases |cache|
  {
    var first :| first in cache && BytesOf(cache) == cache[first].bytes + BytesOf(cache - {first});
    if first != k {
      BytesWithout(cache - {first}, k);
      BytesWithout(cache - {k}, first);
      assert cache - {first} - {k} == cache - {k} - {first};
    }
  }

  lemma {:induction false} BytesInserted(cache: Cache, k: Key, e: Entry)
    requires k !in cache
    ensures BytesOf(cache[k := e]) == BytesOf(cache) + e.bytes
  {
    BytesWithout(cache[k := e], k);
    assert cache[k := e] - {k} == cache;
  }

  /** Entries that only differ in when they were used add up to the same. */
  lemma {:induction false} BytesTouched(a: Cache, b: Cache)
    requires a.Keys == b.Keys && forall k | k in a :: a[k].bytes == b[k].bytes
    ensures BytesOf(a) == BytesOf(b)
    decreases |a|
  {
    if a == map[] {
      assert b == map[];
    } else {
      var k :| k in a;
      BytesWithout(a, k);
      BytesWithout(b, k);
      BytesTouched(a - {k}, b - {k});
    }
  }

  function GraveBytes(graves: seq<Entry>): nat {
    if graves == [] then 0 else GraveBytes(graves[..|graves| - 1]) + graves[|graves| - 1].bytes
  }

  /** Whether evicted experts still fit, or are let go. */
  predicate Drains(graves: seq<Entry>, fails: bool) {
    GraveBytes(graves) < 0x2000_0000 || !fails
  }

  function Drained(graves: seq<Entry>, fails: bool): seq<Entry> {
    if GraveBytes(graves) >= 0x2000_0000 && !fails then [] else graves
  }

  lemma {:induction false} GraveBytesConcat(a: seq<Entry>, b: seq<Entry>)
    ensures GraveBytes(a + b) == GraveBytes(a) + GraveBytes(b)
    decreases |b|
  {
    if b == [] {
      assert a + b == a;
    } else {
      assert (a + b)[..|a + b| - 1] == a + b[..|b| - 1];
      GraveBytesConcat(a, b[..|b| - 1]);
    }
  }

  // ----- one batch

  ghost function Batch(layer: nat, ids: seq<nat>): set<Key> {
    set i | 0 <= i < |ids| :: (layer, ids[i])
  }

  lemma {:induction false} BatchIsSmall(layer: nat, ids: seq<nat>)
    ensures |Batch(layer, ids)| <= |ids|
    decreases |ids|
  {
    if ids == [] {
      assert Batch(layer, ids) == {};
    } else {
      var n := |ids| - 1;
      BatchIsSmall(layer, ids[..n]);
      assert Batch(layer, ids) == Batch(layer, ids[..n]) + {(layer, ids[n])};
    }
  }

  /** The cache with the members of `batch` it holds marked as used at `clock`. */
  ghost function Touched(cache: Cache, batch: set<Key>, clock: nat): Cache {
    map k | k in cache :: if k in batch then cache[k].(lastUse := clock) else cache[k]
  }

  function CountHits(cache: Cache, layer: nat, ids: seq<nat>): nat {
    if ids == [] then 0 else
      CountHits(cache, layer, ids[..|ids| - 1]) + if (layer, ids[|ids| - 1]) in cache then 1 else 0
  }

  /** The experts of the batch that are not there, each counted once. */
  ghost function CountMisses(cache: Cache, layer: nat, ids: seq<nat>): nat {
    |Batch(layer, ids) - cache.Keys|
  }

  function ExpertsOf(stored: Key -> (nat, nat), layer: nat, ids: seq<nat>): seq<nat> {
    seq<nat>(|ids|, i requires 0 <= i < |ids| => stored((layer, ids[i])).0)
  }

  /** `k` may go next: nothing outside the batch was used before it. */
  predicate Oldest(cache: Cache, clock: nat, k: Key) {
    && k in cache && cache[k].lastUse != clock
    && forall j | j in cache && cache[j].lastUse != clock :: cache[k].lastUse <= cache[j].lastUse
  }

  lemma {:induction false} OldestExists(cache: Cache, clock: nat, ks: set<Key>)
    requires ks != {} && ks <= cache.Keys
    ensures exists k :: k in ks && forall j | j in ks :: cache[k].lastUse <= cache[j].lastUse
    decreases |ks|
  {
    var k :| k in ks;
    var rest := ks - {k};
    if rest == {} {
      assert ks == {k};
    } else {
      OldestExists(cache, clock, rest);
      var m :| m in rest && forall j | j in rest :: cache[m].lastUse <= cache[j].lastUse;
      var best := if cache[k].lastUse <= cache[m].lastUse then k else m;
      assert forall j | j in ks :: cache[best].lastUse <= cache[j].lastUse;
    }
  }

  /** Exactly the members of the batch were used at `clock`. */
  ghost predicate Current(cache: Cache, clock: nat, batch: set<Key>) {
    && batch <= cache.Keys
    && forall k | k in cache :: cache[k].lastUse == clock <==> k in batch
  }

  /** The entries are the checkpoint's, none was used in the future, and `bytes` is their size. */
  ghost predicate Sound(stored: Key -> (nat, nat), cache: Cache, clock: nat, bytes: nat) {
    && bytes == BytesOf(cache)
    && (forall k | k in cache :: cache[k].lastUse <= clock)
    && (forall k | k in cache :: stored(k) == (cache[k].expert, cache[k].bytes))
  }

  lemma {:induction false} SoundWithout(stored: Key -> (nat, nat), cache: Cache, clock: nat, bytes: nat, victim: Key,
        batch: set<Key>)
    requires Sound(stored, cache, clock, bytes) && Current(cache, clock, batch) && Oldest(cache, clock, victim)
    ensures bytes >= cache[victim].bytes
    ensures Sound(stored, cache - {victim}, clock, bytes - cache[victim].bytes)
    ensures Current(cache - {victim}, clock, batch)
    ensures |cache - {victim}| < |cache|
  {
    hide BytesOf;
    BytesWithout(cache, victim);
    assert (cache - {victim}).Keys == cache.Keys - {victim};
    assert |(cache - {victim}).Keys| == |cache - {victim}| && |cache.Keys| == |cache|;
  }

  lemma {:induction false} SoundWith(stored: Key -> (nat, nat), cache: Cache, clock: nat, bytes: nat, k: Key)
    requires Sound(stored, cache, clock, bytes) && k !in cache
    ensures Sound(stored, cache[k := Entry(stored(k).0, stored(k).1, clock)], clock, bytes + stored(k).1)
  {
    hide BytesOf;
    BytesInserted(cache, k, Entry(stored(k).0, stored(k).1, clock));
  }

  lemma {:induction false} SoundTouched(stored: Key -> (nat, nat), cache: Cache, clock: nat, bytes: nat,
        batch: set<Key>)
    requires Sound(stored, cache, clock, bytes)
    ensures Sound(stored, Touched(cache, batch, clock + 1), clock + 1, bytes)
  {
    hide BytesOf;
    BytesTouched(cache, Touched(cache, batch, clock + 1));
  }

  /** A cache larger than the batch holds something to evict. */
  lemma {:induction false} VictimExists(cache: Cache, clock: nat, batch: set<Key>)
    requires |cache| > |batch| && Current(cache, clock, batch)
    ensures exists k :: Oldest(cache, clock, k)
  {
    var others := cache.Keys - batch;
    assert cache.Keys == others + (cache.Keys * batch);
    Subset(cache.Keys * batch, batch);
    assert |cache| == |cache.Keys|;
    OldestExists(cache, clock, others);
    var k :| k in others && forall j | j in others :: cache[k].lastUse <= cache[j].lastUse;
    assert Oldest(cache, clock, k);
  }

  lemma {:induction false} Subset(a: set<Key>, b: set<Key>)
    requires a <= b
    ensures |a| <= |b|
  {
    assert b == a + (b - a);
  }

  lemma {:induction false} NothingTouched(cache: Cache, layer: nat, clock: nat)
    ensures Touched(cache, Batch(layer, []), clock) == cache && CountHits(cache, layer, []) == 0
  {
  }

  /** One id of the batch, marked or missed. */
  lemma {:induction false} TouchOne(cache: Cache, layer: nat, ids: seq<nat>, i: nat, clock: nat)
    requires i < |ids|
    ensures var key := (layer, ids[i]);
      var before := Touched(cache, Batch(layer, ids[..i]), clock);
      var after := Touched(cache, Batch(layer, ids[..i + 1]), clock);
      && before.Keys == cache.Keys
      && after == (if key in before then before[key := before[key].(lastUse := clock)] else before)
      && CountHits(cache, layer, ids[..i + 1]) == CountHits(cache, layer, ids[..i]) + if key in before then 1 else 0
  {
    BatchGrows(layer, ids, i);
    assert ids[..i + 1][..i] == ids[..i];
  }

  class StreamedExperts {
    /** What the checkpoint holds for an expert: the built expert and its size. */
    const stored: Key -> (nat, nat)
    const cacheBytes: nat
    var cache: Cache
    var clock: nat
    var bytes: nat
    var hits: nat
    var misses: nat
    var graveyard: seq<Entry>
    var graveyardBytes: nat

    ghost predicate Valid()
      reads this
    {
      && Sound(stored, cache, clock, bytes)
      && graveyardBytes == GraveBytes(graveyard)
    }

    constructor (stored: Key -> (nat, nat), cacheBytes: nat)
      ensures Valid() && cache == map[] && graveyard == []
      ensures this.stored == stored && this.cacheBytes == cacheBytes
    {
      this.stored, this.cacheBytes := stored, cacheBytes;
      cache, clock, bytes, hits, misses, graveyard, graveyardBytes := map[], 0, 0, 0, 0, [], 0;
    }

    /** Hits are marked as used now; the ids that missed are collected once each. */
    method Mark(layer: nat, ids: seq<nat>) returns (missed: seq<nat>)
      requires Valid()
      modifies `cache, `clock, `hits
      ensures Valid() && clock == old(clock) + 1
      ensures cache == Touched(old(cache), Batch(layer, ids), clock)
      ensures hits == old(hits) + CountHits(old(cache), layer, ids)
      ensures forall e :: e in missed <==> e in ids && (layer, e) !in cache
      ensures forall i, j | 0 <= i < j < |missed| :: missed[i] != missed[j]
    {
      hide BytesOf, Sound, GraveBytes, Touched, CountHits;
      SoundTouched(stored, cache, clock, bytes, Batch(layer, ids));
      clock := clock + 1;
      missed := [];
      assert ids[..0] == [];
      NothingTouched(cache, layer, clock);
      for i := 0 to |ids|
        invariant clock == old(clock) + 1
        invariant cache == Touched(old(cache), Batch(layer, ids[..i]), clock)
        invariant hits == old(hits) + CountHits(old(cache), layer, ids[..i])
        invariant forall e :: e in missed <==> e in ids[..i] && (layer, e) !in cache
        invariant forall i, j | 0 <= i < j < |missed| :: missed[i] != missed[j]
      {
        var e := ids[i];
        var key := (layer, e);
        assert ids[..i + 1][..i] == ids[..i];
        assert ids[..i + 1] == ids[..i] + [e];
        BatchGrows(layer, ids, i);
        TouchOne(old(cache), layer, ids, i, clock);
        if key in cache {
          cache := cache[key := cache[key].(lastUse := clock)];
          hits := hits + 1;
        } else if e !in missed {
          missed := missed + [e];
        }
      }
      assert ids[..|ids|] == ids;
    }

    /** Freshly built experts go in, whatever the budget says. */
    method Insert(layer: nat, missed: seq<nat>)
      requires Valid()
      requires forall e | e in missed :: (layer, e) !in cache
      requires forall i, j | 0 <= i < j < |missed| :: missed[i] != missed[j]
      modifies `cache, `bytes, `misses
      ensures Valid() && misses == old(misses) + |missed|
      ensures cache.Keys == old(cache).Keys + Batch(layer, missed)
      ensures forall k | k in old(cache) :: cache[k] == old(cache)[k]
      ensures forall k | k in Batch(layer, missed) :: cache[k].lastUse == clock
    {
      hide BytesOf, Sound, GraveBytes, Batch;
      NoBatch(layer);
      assert missed[..0] == [];
      for i := 0 to |missed|
        invariant Valid() && misses == old(misses) + i
        invariant cache.Keys == old(cache).Keys + Batch(layer, missed[..i])
        invariant forall k | k in old(cache) :: cache[k] == old(cache)[k]
        invariant forall k | k in Batch(layer, missed[..i]) :: cache[k].lastUse == clock
      {
        var key := (layer, missed[i]);
        var built := stored(key);
        BatchGrows(layer, missed, i);
        FreshKey(layer, missed, i);
        SoundWith(stored, cache, clock, bytes, key);
        misses := misses + 1;
        bytes := bytes + built.1;
        cache := cache[key := Entry(built.0, built.1, clock)];
      }
      assert missed[..|missed|] == missed;
    }

    /** Evicts, oldest first, until the budget holds or nothing but the batch may be left. */
    method Evict(count: nat, ghost batch: set<Key>) returns (ghost victims: seq<Key>)
      requires Valid() && |batch| <= count && Current(cache, clock, batch)
      modifies `cache, `bytes, `graveyard, `graveyardBytes
      ensures Valid() && Current(cache, clock, batch)
      ensures bytes > cacheBytes ==> |cache| <= count
      ensures Evicted(old(cache), cache, batch, victims)
      ensures graveyard == old(graveyard) + Entries(old(cache), victims)
      ensures victims != [] ==> bytes + old(cache)[victims[|victims| - 1]].bytes > cacheBytes
    {
      hide BytesOf, Sound, GraveBytes, Current, Evicted, Entries, Oldest;
      victims := [];
      ghost var whole := cache;
      NoVictims(whole, batch);
      while bytes > cacheBytes && |cache| > count
        invariant Valid() && Current(cache, clock, batch)
        invariant Evicted(whole, cache, batch, victims) && AllIn(victims, whole)
        invariant graveyard == old(graveyard) + Entries(whole, victims)
        invariant victims != [] ==> bytes + whole[victims[|victims| - 1]].bytes > cacheBytes
        decreases |cache|
      {
        ghost var was := cache;
        ghost var victim := EvictOne(batch);
        OneMore(whole, was, batch, victims, victim, clock);
        victims := victims + [victim];
      }
    }

    /** The oldest entry outside the batch moves to the graveyard. */
    method EvictOne(ghost batch: set<Key>) returns (ghost victim: Key)
      requires Valid() && Current(cache, clock, batch) && |cache| > |batch|
      modifies `cache, `bytes, `graveyard, `graveyardBytes
      ensures Valid() && Current(cache, clock, batch) && |cache| < |old(cache)|
      ensures Oldest(old(cache), clock, victim) && cache == old(cache) - {victim}
      ensures victim in old(cache) && graveyard == old(graveyard) + [old(cache)[victim]]
      ensures bytes + old(cache)[victim].bytes == old(bytes)
    {
      hide BytesOf, Sound, GraveBytes, Current, Oldest;
      VictimExists(cache, clock, batch);
      var k :| Oldest(cache, clock, k);
      OldestIsThere(cache, clock, k);
      var entry := cache[k];
      SoundWithout(stored, cache, clock, bytes, k, batch);
      GraveBytesConcat(graveyard, [entry]);
      OneGrave(entry);
      cache := cache - {k};
      bytes := bytes - entry.bytes;
      graveyardBytes := graveyardBytes + entry.bytes;
      graveyard := graveyard + [entry];
      victim := k;
    }

    /** Releases evicted experts together once enough of them wait. */
    method DrainGraveyard(fails: bool) returns (ok: bool)
      requires Valid()
      modifies `graveyard, `graveyardBytes
      ensures Valid()
      ensures ok == Drains(old(graveyard), fails) && graveyard == Drained(old(graveyard), fails)
      ensures ok ==> graveyardBytes < 0x2000_0000
    {
      if graveyardBytes >= GRAVEYARD_DRAIN_BYTES {
        if fails {
          return false;
        }
        graveyard := [];
        graveyardBytes := 0;
      }
      return true;
    }

    /** The end of a batch: makes room, then drains. */
    method Settle(count: nat, ghost batch: set<Key>, drainFails: bool) returns (ok: bool, ghost victims: seq<Key>)
      requires Valid() && |batch| <= count && Current(cache, clock, batch)
      modifies `cache, `bytes, `graveyard, `graveyardBytes
      ensures Valid() && Current(cache, clock, batch)
      ensures bytes > cacheBytes ==> |cache| <= count
      ensures Evicted(old(cache), cache, batch, victims)
      ensures Needed(old(cache), victims, bytes, cacheBytes)
      ensures ok ==> graveyardBytes < GRAVEYARD_DRAIN_BYTES
      ensures Buried(old(cache), victims, old(graveyard), graveyard, drainFails, ok)
    {
      hide BytesOf, Sound, GraveBytes, Current, Evicted, Entries;
      victims := Evict(count, batch);
      EvictedWereThere(old(cache), cache, batch, victims);
      ok := DrainGraveyard(drainFails);
    }

    method Collect(layer: nat, ids: seq<nat>) returns (experts: seq<nat>)
      requires Valid() && Batch(layer, ids) <= cache.Keys
      ensures experts == ExpertsOf(stored, layer, ids)
    {
      hide Sound, GraveBytes, Batch;
      CachedExperts(stored, cache, clock, bytes);
      experts := [];
      for i := 0 to |ids|
        invariant |experts| == i
        invariant forall j | 0 <= j < i :: experts[j] == stored((layer, ids[j])).0
      {
        InBatch(layer, ids, i);
        experts := experts + [cache[(layer, ids[i])].expert];
      }
    }

    /** The experts of `ids` in order. `readFails` and `drainFails` are what the disk and the device decide; a batch
        that cannot be read only marks what it hit, and one that cannot drain is cached all the same. */
    method FetchMany(layer: nat, ids: seq<nat>, readFails: bool, drainFails: bool)
      returns (r: Option<seq<nat>>, ghost victims: seq<Key>)
      requires Valid()
      modifies this
      ensures Valid() && clock == old(clock) + 1
      ensures hits == old(hits) + CountHits(old(cache), layer, ids)
      ensures r.Some? ==> graveyardBytes < 0x2000_0000
      ensures readFails ==>
        && r.None? && victims == [] && cache == Touched(old(cache), Batch(layer, ids), clock)
        && misses == old(misses) && graveyard == old(graveyard)
      ensures !readFails ==> misses == old(misses) + CountMisses(old(cache), layer, ids)
      ensures !readFails ==> Fetched(old(cache), cache, Batch(layer, ids), victims)
      ensures !readFails && bytes > cacheBytes ==> |cache| <= |ids|
      ensures !readFails ==> Needed(old(cache), victims, bytes, cacheBytes)
      ensures !readFails ==> Buried(old(cache), victims, old(graveyard), graveyard, drainFails, r.Some?)
      ensures r.Some? ==> r.value == ExpertsOf(stored, layer, ids)
    {
      hide BytesOf, Sound, GraveBytes, Current, Evicted, Entries, Batch, Touched, CountHits, CountMisses, ExpertsOf,
        Fetched, Needed, Buried;
      ghost var before, batch := cache, Batch(layer, ids);
      NotYetUsed(stored, cache, clock, bytes);
      var missed := Mark(layer, ids);
      victims := [];
      if readFails {
        return None, [];
      }
      ghost var touched := cache;
      TouchedKeys(before, batch, clock);
      BatchSplits(layer, ids, missed, touched);
      SameMisses(before, touched, layer, ids);
      Insert(layer, missed);
      ghost var whole := cache;
      NowCurrent(before, touched, whole, layer, ids, missed, clock);
      BatchIsSmall(layer, ids);
      var ok;
      ok, victims := Settle(|ids|, batch, drainFails);
      EvictedFacts(before, whole, cache, batch, victims);
      SameVictims(before, whole, victims, bytes, cacheBytes, old(graveyard), graveyard, drainFails, ok);
      CurrentHolds(cache, clock, batch);
      if !ok {
        return None, victims;
      }
      var experts := Collect(layer, ids);
      r := Some(experts);
    }
  }

  /** What a batch does to the cache: it is there afterwards, and what left was used before all that stayed. */
  ghost predicate Fetched(before: Cache, now: Cache, batch: set<Key>, victims: seq<Key>) {
    && batch <= now.Keys
    && now.Keys == before.Keys + batch - (set k | k in victims)
    && (forall v | v in victims :: v in before && v !in batch)
    && (forall i, j | 0 <= i < j < |victims| :: before[victims[i]].lastUse <= before[victims[j]].lastUse)
    && (forall v, k | v in victims && k in now && k !in batch :: before[v].lastUse <= now[k].lastUse)
  }

  ghost function Entries(cache: Cache, victims: seq<Key>): seq<Entry>
    requires forall v | v in victims :: v in cache
  {
    seq(|victims|, i requires 0 <= i < |victims| => cache[victims[i]])
  }

  /** The victims left the cache in last-use order, none of them from the batch. */
  ghost predicate Evicted(whole: Cache, now: Cache, batch: set<Key>, victims: seq<Key>) {
    && (forall v | v in victims :: v in whole && v !in batch && v !in now)
    && now == (map k | k in whole && k !in victims :: whole[k])
    && (forall i, j | 0 <= i < j < |victims| :: whole[victims[i]].lastUse <= whole[victims[j]].lastUse)
    && (forall v, k | v in victims && k in now && k !in batch :: whole[v].lastUse <= now[k].lastUse)
  }

  /** The last eviction was still needed: with its victim back, the cache is over budget. */
  ghost predicate Needed(cache: Cache, victims: seq<Key>, bytes: nat, budget: nat) {
    victims != [] ==>
      var last := victims[|victims| - 1];
      last in cache && bytes + cache[last].bytes > budget
  }

  /** The victims joined the graves, which are emptied once enough wait, unless that fails. */
  ghost predicate Buried(cache: Cache, victims: seq<Key>, before: seq<Entry>, now: seq<Entry>, fails: bool, ok: bool) {
    && AllIn(victims, cache)
    && var all := before + Entries(cache, victims);
       ok == Drains(all, fails) && now == Drained(all, fails)
  }

  lemma {:induction false} EvictedWereThere(whole: Cache, now: Cache, batch: set<Key>, victims: seq<Key>)
    requires Evicted(whole, now, batch, victims)
    ensures AllIn(victims, whole)
  {
  }

  /** Victims are not of the batch, so they are as they were before it. */
  lemma {:induction false} SameVictims(before: Cache, whole: Cache, victims: seq<Key>, bytes: nat, budget: nat,
        graves: seq<Entry>, now: seq<Entry>, fails: bool, ok: bool)
    requires forall v | v in victims :: v in before && v in whole && before[v] == whole[v]
    requires Needed(whole, victims, bytes, budget) && Buried(whole, victims, graves, now, fails, ok)
    ensures Needed(before, victims, bytes, budget) && Buried(before, victims, graves, now, fails, ok)
  {
    hide Drains, Drained;
    assert Entries(before, victims) == Entries(whole, victims);
  }

  ghost predicate AllIn(victims: seq<Key>, cache: Cache) {
    forall v | v in victims :: v in cache
  }

  lemma {:induction false} NoVictims(whole: Cache, batch: set<Key>)
    ensures Evicted(whole, whole, batch, []) && Entries(whole, []) == []
  {
  }

  lemma {:induction false} OldestIsThere(cache: Cache, clock: nat, k: Key)
    requires Oldest(cache, clock, k)
    ensures k in cache
  {
  }

  lemma {:induction false} OneMore(whole: Cache, now: Cache, batch: set<Key>, victims: seq<Key>, victim: Key,
        clock: nat)
    requires Evicted(whole, now, batch, victims) && Oldest(now, clock, victim)
    requires Current(now, clock, batch)
    ensures Evicted(whole, now - {victim}, batch, victims + [victim])
    ensures AllIn(victims + [victim], whole) && whole[victim] == now[victim]
    ensures Entries(whole, victims + [victim]) == Entries(whole, victims) + [now[victim]]
  {
  }

  lemma {:induction false} OneGrave(e: Entry)
    ensures GraveBytes([e]) == e.bytes
  {
    assert [e][..0] == [];
  }

  lemma {:induction false} BatchGrows(layer: nat, ids: seq<nat>, i: nat)
    requires i < |ids|
    ensures Batch(layer, ids[..i + 1]) == Batch(layer, ids[..i]) + {(layer, ids[i])}
  {
  }

  lemma {:induction false} NoBatch(layer: nat)
    ensures Batch(layer, []) == {}
  {
  }

  lemma {:induction false} FreshKey(layer: nat, missed: seq<nat>, i: nat)
    requires i < |missed| && forall i, j | 0 <= i < j < |missed| :: missed[i] != missed[j]
    ensures (layer, missed[i]) !in Batch(layer, missed[..i])
  {
  }

  /** The batch is what was hit and what was missed. */
  lemma {:induction false} BatchSplits(layer: nat, ids: seq<nat>, missed: seq<nat>, cache: Cache)
    requires forall e :: e in missed <==> e in ids && (layer, e) !in cache
    requires forall i, j | 0 <= i < j < |missed| :: missed[i] != missed[j]
    ensures Batch(layer, missed) == Batch(layer, ids) - cache.Keys
    ensures |missed| == CountMisses(cache, layer, ids)
  {
    BatchIsLarge(layer, missed);
  }

  lemma {:induction false} SameMisses(a: Cache, b: Cache, layer: nat, ids: seq<nat>)
    requires a.Keys == b.Keys
    ensures CountMisses(a, layer, ids) == CountMisses(b, layer, ids)
  {
  }

  lemma {:induction false} BatchIsLarge(layer: nat, ids: seq<nat>)
    requires forall i, j | 0 <= i < j < |ids| :: ids[i] != ids[j]
    ensures |Batch(layer, ids)| == |ids|
    decreases |ids|
  {
    if ids == [] {
      assert Batch(layer, ids) == {};
    } else {
      var n := |ids| - 1;
      BatchIsLarge(layer, ids[..n]);
      FreshKey(layer, ids, n);
      BatchGrows(layer, ids, n);
      assert ids[..n + 1] == ids;
    }
  }

  lemma {:induction false} InBatch(layer: nat, ids: seq<nat>, i: nat)
    requires i < |ids|
    ensures (layer, ids[i]) in Batch(layer, ids)
  {
  }

  lemma {:induction false} NotYetUsed(stored: Key -> (nat, nat), cache: Cache, clock: nat, bytes: nat)
    requires Sound(stored, cache, clock, bytes)
    ensures forall k | k in cache :: cache[k].lastUse < clock + 1
  {
  }

  lemma {:induction false} CachedExperts(stored: Key -> (nat, nat), cache: Cache, clock: nat, bytes: nat)
    requires Sound(stored, cache, clock, bytes)
    ensures forall k | k in cache :: cache[k].expert == stored(k).0
  {
  }

  lemma {:induction false} CurrentHolds(cache: Cache, clock: nat, batch: set<Key>)
    requires Current(cache, clock, batch)
    ensures batch <= cache.Keys
  {
  }

  lemma {:induction false} TouchedKeys(cache: Cache, batch: set<Key>, clock: nat)
    ensures Touched(cache, batch, clock).Keys == cache.Keys
  {
  }

  /** After the misses are in, the batch and only the batch carries the new clock, and the others are as they were. */
  lemma {:induction false} NowCurrent(before: Cache, touched: Cache, whole: Cache, layer: nat, ids: seq<nat>,
        missed: seq<nat>, clock: nat)
    requires touched == Touched(before, Batch(layer, ids), clock)
    requires forall k | k in before :: before[k].lastUse < clock
    requires Batch(layer, missed) == Batch(layer, ids) - touched.Keys
    requires whole.Keys == touched.Keys + Batch(layer, missed)
    requires forall k | k in touched :: whole[k] == touched[k]
    requires forall k | k in Batch(layer, missed) :: whole[k].lastUse == clock
    ensures Current(whole, clock, Batch(layer, ids))
    ensures whole.Keys == before.Keys + Batch(layer, ids)
    ensures forall k | k in whole && k !in Batch(layer, ids) :: k in before && whole[k] == before[k]
  {
    hide Batch;
  }

  /** What the victims and the survivors are, in terms of the cache before the call. */
  lemma {:induction false} EvictedFacts(before: Cache, whole: Cache, now: Cache, batch: set<Key>, victims: seq<Key>)
    requires Evicted(whole, now, batch, victims) && whole.Keys == before.Keys + batch
    requires forall k | k in whole && k !in batch :: k in before && whole[k] == before[k]
    ensures Fetched(before, now, batch, victims)
    ensures forall v | v in victims :: v in before && v in whole && before[v] == whole[v]
  {
    forall k | k in batch
      ensures k in now
    {
      assert k in whole && k !in victims;
    }
  }
}
