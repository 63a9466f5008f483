/** The block pool as running sequences and the prefix cache share it: whose reference is whose, and what a cached
    block holds (src/common/paged.rs, src/common/prefix_cache.rs). */
module SharedBlocks {
  import opened PagedPools
  import opened PrefixCaches
  import opened SequenceStates

  // ----- references

  /** All references of a layer's tables. */
  function Total(cs: seq<seq<nat>>): multiset<nat> {
    if cs == [] then multiset{} else Total(cs[..|cs| - 1]) + multiset(cs[|cs| - 1])
  }

  lemma {:induction false} TotalUpdate(cs: seq<seq<nat>>, i: nat, x: seq<nat>)
    requires i < |cs|
    ensures Total(cs[i := x]) + multiset(cs[i]) == Total(cs) + multiset(x)
    decreases |cs|
  {
    var n := |cs| - 1;
    var next := cs[i := x];
    if i < n {
      TotalUpdate(cs[..n], i, x);
      assert next[..n] == cs[..n][i := x];
      Regrouped(Total(next[..n]), multiset(cs[i]), Total(cs[..n]), multiset(x), multiset(cs[n]));
    } else {
      assert next[..n] == cs[..n];
      Swapped(Total(cs[..n]), multiset(x), multiset(cs[n]));
    }
  }

  lemma {:induction false} Regrouped(a: multiset<nat>, b: multiset<nat>, c: multiset<nat>, d: multiset<nat>,
        e: multiset<nat>)
    requires a + b == c + d
    ensures (a + e) + b == (c + e) + d
  {
    assert (a + e) + b == (a + b) + e;
    assert (c + e) + d == (c + d) + e;
  }

  lemma {:induction false} Swapped(a: multiset<nat>, b: multiset<nat>, c: multiset<nat>)
    ensures (a + b) + c == (a + c) + b
  {
  }

  lemma {:induction false} TotalWithout(cs: seq<seq<nat>>, i: nat)
    requires i < |cs|
    ensures Total(cs) == Total(cs[i := []]) + multiset(cs[i])
  {
    TotalUpdate(cs, i, []);
  }

  /** The blocks that the sequences hold in layer `l`. */
  function IdsAt(vals: seq<seq<Table>>, l: nat): (cs: seq<seq<nat>>)
    ensures |cs| == |vals|
  {
    seq(|vals|, i requires 0 <= i < |vals| => if l < |vals[i]| then vals[i][l].ids else [])
  }

  /** Every layer's references are those of the cached entries, of these sequences and of `outside`. */
  ghost predicate Pooled(ps: seq<Pool>, es: seq<Entry>, vals: seq<seq<Table>>, outside: seq<multiset<nat>>, size: nat)
    requires size > 0
  {
    && |outside| == |ps|
    && (forall l | 0 <= l < |ps| :: LayerPooled(ps[l], es, vals, outside[l], l))
    && forall i | 0 <= i < |vals| :: AllShaped(vals[i], |ps|, size)
  }

  ghost predicate LayerPooled(p: Pool, es: seq<Entry>, vals: seq<seq<Table>>, outside: multiset<nat>, l: nat) {
    p.refs == outside + Total(IdsAt(vals, l)) + Held(es, l)
  }

  ghost predicate AllShaped(ts: seq<Table>, n: nat, size: nat)
    requires size > 0
  {
    |ts| == n && forall l | 0 <= l < |ts| :: Shaped(ts[l], size)
  }

  /** What everybody but sequence `i` holds. */
  ghost function RestOf(es: seq<Entry>, vals: seq<seq<Table>>, i: nat,
        outside: seq<multiset<nat>>): (rest: seq<multiset<nat>>)
    requires i < |vals|
    ensures |rest| == |outside|
  {
    seq(|outside|, l requires 0 <= l < |outside| => RestAt(es, vals, i, outside[l], l))
  }

  ghost function RestAt(es: seq<Entry>, vals: seq<seq<Table>>, i: nat, outside: multiset<nat>, l: nat): multiset<nat>
    requires i < |vals|
  {
    outside + Total(IdsAt(vals, l)[i := []]) + Held(es, l)
  }

  /** What the running sequences hold, as the prefix cache sees it. */
  ghost function Others(vals: seq<seq<Table>>, outside: seq<multiset<nat>>): (others: seq<multiset<nat>>)
    ensures |others| == |outside|
  {
    seq(|outside|, l requires 0 <= l < |outside| => outside[l] + Total(IdsAt(vals, l)))
  }

  lemma {:induction false} PooledFits(ps: seq<Pool>, es: seq<Entry>, vals: seq<seq<Table>>, outside: seq<multiset<nat>>,
        size: nat, i: nat)
    requires size > 0 && i < |vals| && Pooled(ps, es, vals, outside, size)
    ensures Fits(ps, vals[i], RestOf(es, vals, i, outside), size)
  {
    hide Total, Held, Shaped, LayerPooled, LayerFits, RestAt;
    assert AllShaped(vals[i], |ps|, size);
    forall l: nat | l < |ps|
      ensures LayerFits(ps[l], vals[i][l], RestOf(es, vals, i, outside)[l], size)
    {
      LayerPooledFits(ps[l], es, vals, outside[l], size, i, l);
    }
  }

  lemma {:induction false} LayerPooledFits(p: Pool, es: seq<Entry>, vals: seq<seq<Table>>, outside: multiset<nat>,
        size: nat, i: nat, l: nat)
    requires size > 0 && i < |vals| && l < |vals[i]| && Shaped(vals[i][l], size) && LayerPooled(p, es, vals, outside, l)
    ensures LayerFits(p, vals[i][l], RestAt(es, vals, i, outside, l), size)
  {
    hide Total, Held, Shaped;
    TotalWithout(IdsAt(vals, l), i);
    Apart(outside, Total(IdsAt(vals, l)[i := []]), multiset(vals[i][l].ids), Held(es, l));
  }

  lemma {:induction false} Apart(o: multiset<nat>, t: multiset<nat>, x: multiset<nat>, h: multiset<nat>)
    ensures o + (t + x) + h == (o + t + h) + x
  {
  }

  /** Sequence `i` may change its table as long as everybody else's references stay. */
  lemma {:induction false} FitsPooled(ps: seq<Pool>, ps': seq<Pool>, es: seq<Entry>, vals: seq<seq<Table>>,
        ts: seq<Table>, outside: seq<multiset<nat>>, size: nat, i: nat)
    requires size > 0 && i < |vals| && Pooled(ps, es, vals, outside, size) && |ps'| == |ps|
    requires Fits(ps', ts, RestOf(es, vals, i, outside), size)
    ensures Pooled(ps', es, vals[i := ts], outside, size)
  {
    hide Total, Held, Shaped, LayerPooled, LayerFits, RestAt;
    forall l: nat | l < |ps|
      ensures LayerPooled(ps'[l], es, vals[i := ts], outside[l], l) && Shaped(ts[l], size)
    {
      assert LayerFits(ps'[l], ts[l], RestOf(es, vals, i, outside)[l], size);
      LayerFitsPooled(ps'[l], es, vals, ts, outside[l], size, i, l);
    }
    assert AllShaped(ts, |ps'|, size);
  }

  lemma {:induction false} LayerFitsPooled(p: Pool, es: seq<Entry>, vals: seq<seq<Table>>, ts: seq<Table>,
        outside: multiset<nat>, size: nat, i: nat, l: nat)
    requires size > 0 && i < |vals| && l < |ts| && LayerFits(p, ts[l], RestAt(es, vals, i, outside, l), size)
    ensures LayerPooled(p, es, vals[i := ts], outside, l) && Shaped(ts[l], size)
  {
    hide Total, Held, Shaped;
    var after := IdsAt(vals[i := ts], l);
    TotalWithout(after, i);
    assert after[i := []] == IdsAt(vals, l)[i := []];
    Apart(outside, Total(after[i := []]), multiset(ts[l].ids), Held(es, l));
  }

  lemma {:induction false} PooledIsBalanced(allocs: seq<BlockAllocator>, es: seq<Entry>, vals: seq<seq<Table>>,
        outside: seq<multiset<nat>>, size: nat)
    requires size > 0 && |outside| == |allocs| && forall i | 0 <= i < |vals| :: AllShaped(vals[i], |allocs|, size)
    ensures Pooled(PoolsOf(allocs), es, vals, outside, size) <==> Balanced(es, allocs, Others(vals, outside))
  {
    hide Total, Held, AllShaped, IdsAt;
    var ps := PoolsOf(allocs);
    if Balanced(es, allocs, Others(vals, outside)) {
      forall l: nat | l < |ps|
        ensures LayerPooled(ps[l], es, vals, outside[l], l)
      {
      }
    }
    if Pooled(ps, es, vals, outside, size) {
      forall l: nat | l < |allocs|
        ensures allocs[l].refs == Others(vals, outside)[l] + Held(es, l)
      {
        assert LayerPooled(ps[l], es, vals, outside[l], l);
      }
    }
  }

  // ----- what cached blocks hold

  ghost predicate BlockIs(data: Memory, id: nat, run: seq<Slot>) {
    forall j: nat | j < |run| :: Place(id, j) in data && data[Place(id, j)] == run[j]
  }

  /** The slots of a prompt's block `b`. */
  function BlockSlots(tokens: seq<nat>, size: nat, b: nat): (run: seq<Slot>)
    requires (b + 1) * size <= |tokens|
    ensures |run| == size
  {
    BlockFits(b, size);
    Slots(tokens)[b * size..(b + 1) * size]
  }

  /** The entry was registered for the prefix `r.prefix`, and in every layer its block holds that prefix's last `size`
      slots. */
  ghost predicate Backs(chain: Hash, size: nat, e: Entry, r: Registration, ds: seq<Memory>) {
    && RegisteredAs(chain, size, r, e) && |r.ids| == |ds|
    && forall l | 0 <= l < |ds| :: BlockIs(ds[l], r.ids[l], BlockSlots(r.prefix, size, r.blocks - 1))
  }

  ghost predicate Backed(chain: Hash, size: nat, e: Entry, log: set<Registration>, ds: seq<Memory>) {
    exists r | r in log :: Backs(chain, size, e, r, ds)
  }

  ghost predicate AllBacked(chain: Hash, size: nat, es: seq<Entry>, log: set<Registration>, ds: seq<Memory>) {
    forall e | e in es :: Backed(chain, size, e, log, ds)
  }

  lemma {:induction false} InHeld(es: seq<Entry>, e: Entry, l: nat)
    requires e in es && l < |e.blockIds|
    ensures e.blockIds[l] in Held(es, l)
    decreases |es|
  {
    var n := |es| - 1;
    if e == es[n] {
      assert e.blockIds[l] in HeldBy(e, l);
    } else {
      InHeld(es[..n], e, l);
    }
  }

  /** The block holds the prompt's own slots in every layer. */
  ghost predicate Matches(ds: seq<Memory>, tokens: seq<nat>, size: nat, b: nat, ids: seq<nat>) {
    && (b + 1) * size <= |tokens| && |ids| == |ds|
    && forall l | 0 <= l < |ds| :: BlockIs(ds[l], ids[l], BlockSlots(tokens, size, b))
  }

  lemma {:induction false} EntryMatches(chain: Hash, e: Entry, log: set<Registration>, ds: seq<Memory>,
        tokens: seq<nat>, size: nat, b: nat)
    requires (b + 1) * size <= |tokens| && e.hash == ChainOf(chain, tokens, size, b + 1) && size > 0
    requires e.blockTokens == BlockOf(tokens, size, b) && Consistent(chain, size, tokens, b + 1)
    requires Backed(chain, size, e, log, ds)
    requires forall r | r in log :: Distinguishes(chain, size, r.prefix, tokens)
    ensures Matches(ds, tokens, size, b, e.blockIds)
  {
    hide ChainOf, BlockIs, Slots, BlockOf, Consistent, Distinguishes;
    var r :| r in log && Backs(chain, size, e, r, ds);
    AsRegistered(chain, e, r, tokens, size, b);
    SameBlocks(r.prefix, tokens, size, r.blocks, b + 1);
  }

  lemma {:induction false} SameBlocks(prefix: seq<nat>, tokens: seq<nat>, size: nat, n: nat, m: nat)
    requires size > 0 && n > 0 && m > 0 && m * size <= |tokens| && n * size == |prefix| && prefix == tokens[..m * size]
    ensures n == m && BlockSlots(prefix, size, n - 1) == BlockSlots(tokens, size, m - 1)
  {
    if n < m {
      SmallerQuotient(n, 0, m, 0, size);
    } else if m < n {
      SmallerQuotient(m, 0, n, 0, size);
    }
    BlockFits(n - 1, size);
    SlotsPrefix(tokens, n * size);
  }

  /** Theorem: where no registered prefix is confusable with the prompt's, every matched block holds the prompt's own
      slots. */
  lemma {:induction false} HitsMatch(chain: Hash, es: seq<Entry>, log: set<Registration>, ds: seq<Memory>,
        tokens: seq<nat>, size: nat, n: nat, i: nat)
    requires n * size <= |tokens| && i <= n && size > 0
    requires AllBacked(chain, size, es, log, ds) && Reached(chain, es, tokens, size, i)
    requires forall r | r in log :: Distinguishes(chain, size, r.prefix, tokens)
    ensures var ids := Hits(chain, es, tokens, size, n, i);
      forall j: nat | j < |ids| :: Matches(ds, tokens, size, i + j, ids[j])
    decreases n - i
  {
    hide ChainOf, Distinguishes, Backed, Find, Matches, BlockOf, IsCached, Consistent;
    var ids := Hits(chain, es, tokens, size, n, i);
    if ids != [] {
      PrefixCaches.BlocksFit(n, size, i + 1, |tokens|);
      var found := Find(es, ChainOf(chain, tokens, size, i + 1));
      OneMoreReached(chain, es, tokens, size, i);
      ReachedIsConsistent(chain, es, tokens, size, i + 1);
      EntryMatches(chain, es[found.value], log, ds, tokens, size, i);
      HitsMatch(chain, es, log, ds, tokens, size, n, i + 1);
      forall j: nat | j < |ids|
        ensures Matches(ds, tokens, size, i + j, ids[j])
      {
        if j > 0 {
          assert Matches(ds, tokens, size, i + 1 + (j - 1), Hits(chain, es, tokens, size, n, i + 1)[j - 1]);
        }
      }
    }
  }

  /** Every matched block is one of an entry's, and the entry holds it. */
  lemma {:induction false} HitsAreHeld(chain: Hash, es: seq<Entry>, tokens: seq<nat>, size: nat, n: nat, i: nat, l: nat)
    requires n * size <= |tokens| && i <= n && size > 0 && forall e | e in es :: l < |e.blockIds|
    ensures var ids := Hits(chain, es, tokens, size, n, i);
      forall j: nat | j < |ids| :: l < |ids[j]| && ids[j][l] in Held(es, l)
    decreases n - i
  {
    hide ChainOf, Held, Find;
    var ids := Hits(chain, es, tokens, size, n, i);
    if ids != [] {
      PrefixCaches.BlocksFit(n, size, i + 1, |tokens|);
      var found := Find(es, ChainOf(chain, tokens, size, i + 1));
      InHeld(es, es[found.value], l);
      HitsAreHeld(chain, es, tokens, size, n, i + 1, l);
      forall j: nat | j < |ids|
        ensures l < |ids[j]| && ids[j][l] in Held(es, l)
      {
        assert j > 0 ==> ids[j] == Hits(chain, es, tokens, size, n, i + 1)[j - 1];
      }
    }
  }

  /** Entries whose blocks nobody has written into are as good as before. */
  lemma {:induction false} BackedKept(chain: Hash, size: nat, es: seq<Entry>, log: set<Registration>, ds: seq<Memory>,
        ds': seq<Memory>, rest: seq<multiset<nat>>)
    requires size > 0 && AllBacked(chain, size, es, log, ds) && |ds| == |ds'| == |rest|
    requires forall l | 0 <= l < |ds| :: Kept(ds[l], ds'[l], rest[l])
    requires forall l, x | 0 <= l < |ds| && x in Held(es, l) :: x in rest[l]
    ensures AllBacked(chain, size, es, log, ds')
  {
    hide ChainOf, BlockSlots, Held;
    forall e | e in es
      ensures Backed(chain, size, e, log, ds')
    {
      var r :| r in log && Backs(chain, size, e, r, ds);
      forall l: nat | l < |ds|
        ensures BlockIs(ds'[l], r.ids[l], BlockSlots(r.prefix, size, r.blocks - 1))
      {
        InHeld(es, e, l);
        assert BlockIs(ds[l], r.ids[l], BlockSlots(r.prefix, size, r.blocks - 1));
      }
      assert Backs(chain, size, e, r, ds');
    }
  }

  // ----- tables and prompts

  lemma {:induction false} BlocksAreStored(data: Memory, ids: seq<nat>, tokens: seq<nat>, size: nat)
    requires size > 0 && |ids| * size <= |tokens|
    requires forall b: nat | b < |ids| :: HoldsBlock(data, ids, tokens, size, b)
    ensures Stored(data, ids, Slots(tokens)[..|ids| * size], size)
  {
    var n := |ids| * size;
    forall k: nat | k < n
      ensures At(data, ids, size, k, Slots(tokens)[..n][k])
    {
      Divided(k, size);
      DividedOnce(|ids|, 0, size);
      EarlierSlot(k, n, size);
      var b := k / size;
      assert HoldsBlock(data, ids, tokens, size, b);
      BlockFits(b, size);
      assert BlockSlots(tokens, size, b)[k % size] == Slots(tokens)[k];
    }
  }

  ghost predicate HoldsBlock(data: Memory, ids: seq<nat>, tokens: seq<nat>, size: nat, b: nat)
    requires b < |ids|
  {
    (b + 1) * size <= |tokens| && BlockIs(data, ids[b], BlockSlots(tokens, size, b))
  }

  lemma {:induction false} StoredIsBlocks(data: Memory, ids: seq<nat>, tokens: seq<nat>, size: nat, b: nat)
    requires size > 0 && (b + 1) * size <= |tokens| && Stored(data, ids, Slots(tokens), size)
    ensures b < |ids| && BlockIs(data, ids[b], BlockSlots(tokens, size, b))
  {
    BlockFits(b, size);
    DividedOnce(b, 0, size);
    assert At(data, ids, size, b * size, Slots(tokens)[b * size]);
    forall j: nat | j < size
      ensures Place(ids[b], j) in data && data[Place(ids[b], j)] == BlockSlots(tokens, size, b)[j]
    {
      DividedOnce(b, j, size);
      assert At(data, ids, size, b * size + j, Slots(tokens)[b * size + j]);
    }
  }

  /** What a layer's tokens read as; a slot never written reads as zero. */
  function Gathered(data: Memory, t: Table, size: nat): (slots: seq<Slot>)
    requires size > 0
    ensures |slots| == t.numTokens
  {
    seq(t.numTokens, k requires 0 <= k < t.numTokens => Read(data, t.ids, size, k))
  }

  function Read(data: Memory, ids: seq<nat>, size: nat, k: nat): Slot
    requires size > 0
  {
    if k / size < |ids| && Place(ids[k / size], k % size) in data then data[Place(ids[k / size], k % size)]
    else Slot(0, 0)
  }

  lemma {:induction false} GatheredIsStored(data: Memory, t: Table, slots: seq<Slot>, size: nat)
    requires size > 0 && Stored(data, t.ids, slots, size) && t.numTokens == |slots|
    ensures Gathered(data, t, size) == slots
  {
    forall k: nat | k < |slots|
      ensures Read(data, t.ids, size, k) == slots[k]
    {
      assert At(data, t.ids, size, k, slots[k]);
    }
  }

  // ----- the invariant and what keeps it

  ghost function LayersOf(tables: seq<PagedCache>): (vals: seq<seq<Table>>)
    reads tables
    ensures |vals| == |tables| && forall i | 0 <= i < |tables| :: vals[i] == tables[i].layers
  {
    seq(|tables|, i requires 0 <= i < |tables| reads tables => tables[i].layers)
  }

  ghost predicate Separate(tables: seq<PagedCache>) {
    forall i, j | 0 <= i < j < |tables| :: tables[i] != tables[j]
  }

  /** Every reference is accounted for, and every cached block holds what its prompt prefix needs. */
  ghost predicate Sound(prefix: PrefixCache, allocs: seq<BlockAllocator>, vals: seq<seq<Table>>,
        outside: seq<multiset<nat>>)
    reads prefix, allocs
  {
    && prefix.Valid() && Distinct(allocs) && AllValid(allocs)
    && Pooled(PoolsOf(allocs), prefix.entries, vals, outside, prefix.size)
    && AllBacked(prefix.chain, prefix.size, prefix.entries, prefix.log, DataOf(allocs))
  }

  /** The first `split` sequences are being prefilled: their blocks hold exactly what they have cached. */
  ghost predicate Following(ps: seq<Pool>, vals: seq<seq<Table>>, split: nat, now: seq<seq<Slot>>, size: nat)
    requires size > 0
  {
    && |now| == |vals| && split <= |vals|
    && forall i | 0 <= i < split :: FilledAll(ps, vals[i], now[i], size)
  }

  lemma {:induction false} OthersKept(ps: seq<Pool>, ps': seq<Pool>, es: seq<Entry>, vals: seq<seq<Table>>,
        outside: seq<multiset<nat>>, size: nat, i: nat, j: nat, slots: seq<Slot>)
    requires size > 0 && i < |vals| && j < |vals| && i != j && Pooled(ps, es, vals, outside, size)
    requires Moved(ps, ps', RestOf(es, vals, i, outside)) && FilledAll(ps, vals[j], slots, size)
    ensures FilledAll(ps', vals[j], slots, size)
  {
    hide Total, Held, Filled, Shaped, Kept, OnlyAdds, IdsAt, LayerPooled;
    var rest := RestOf(es, vals, i, outside);
    assert AllShaped(vals[j], |ps|, size);
    forall l: nat | l < |ps|
      ensures LayerFilled(ps'[l], vals[j][l], slots, size)
    {
      assert LayerFilled(ps[l], vals[j][l], slots, size);
      assert LayerMoved(ps[l], ps'[l], rest[l]);
      forall x | x in vals[j][l].ids
        ensures x in rest[l] && x in ps[l].refs
      {
        InRest(es, vals, i, j, outside[l], l, x);
        assert LayerPooled(ps[l], es, vals, outside[l], l);
        InPool(ps[l], es, vals, outside[l], j, l, x);
      }
      FilledKept(vals[j][l], ps[l].refs, ps'[l].refs, ps[l].data, ps'[l].data, rest[l], slots, size);
    }
  }

  lemma {:induction false} InRest(es: seq<Entry>, vals: seq<seq<Table>>, i: nat, j: nat, outside: multiset<nat>, l: nat,
        x: nat)
    requires i < |vals| && j < |vals| && i != j && l < |vals[j]| && x in vals[j][l].ids
    ensures x in RestAt(es, vals, i, outside, l)
  {
    hide Total, Held;
    InTotal(IdsAt(vals, l)[i := []], j, x);
  }

  lemma {:induction false} InPool(p: Pool, es: seq<Entry>, vals: seq<seq<Table>>, outside: multiset<nat>, j: nat,
        l: nat, x: nat)
    requires j < |vals| && l < |vals[j]| && x in vals[j][l].ids && LayerPooled(p, es, vals, outside, l)
    ensures x in p.refs
  {
    hide Total, Held;
    InTotal(IdsAt(vals, l), j, x);
  }

  lemma {:induction false} InTotal(cs: seq<seq<nat>>, j: nat, x: nat)
    requires j < |cs| && x in cs[j]
    ensures x in Total(cs)
  {
    hide Total;
    TotalWithout(cs, j);
    assert x in multiset(cs[j]);
  }

  lemma {:induction false} EntriesInRest(ps: seq<Pool>, es: seq<Entry>, vals: seq<seq<Table>>,
        outside: seq<multiset<nat>>, i: nat)
    requires i < |vals|
    ensures forall l, x | 0 <= l < |outside| && x in Held(es, l) :: x in RestOf(es, vals, i, outside)[l]
  {
    hide Total, Held, IdsAt;
  }

  /** The pool is written for the first `split` sequences only. */
  ghost predicate WritesOnly(tables: seq<PagedCache>, split: nat)
    reads tables
  {
    forall i | 0 <= i < |tables| :: tables[i].poolWrites <==> i < split
  }

  /** A sound pool for these tables. */
  ghost predicate Sharing(prefix: PrefixCache, allocs: seq<BlockAllocator>, tables: seq<PagedCache>,
        outside: seq<multiset<nat>>)
    reads prefix, allocs, tables
  {
    Separate(tables) && Sound(prefix, allocs, LayersOf(tables), outside)
  }

  /** A sound pool whose first `split` tables hold what `caches` say. */
  ghost predicate Primed(prefix: PrefixCache, allocs: seq<BlockAllocator>, tables: seq<PagedCache>,
        outside: seq<multiset<nat>>, split: nat, caches: seq<seq<Slot>>)
    reads prefix, allocs, tables
  {
    && Sharing(prefix, allocs, tables, outside)
    && Following(PoolsOf(allocs), LayersOf(tables), split, caches, prefix.size)
  }

  /** A sound pool in the middle of a batch whose first `split` sequences have `now` cached. */
  ghost predicate Carrying(prefix: PrefixCache, allocs: seq<BlockAllocator>, tables: seq<PagedCache>,
        outside: seq<multiset<nat>>, split: nat, now: seq<seq<Slot>>)
    reads prefix, allocs, tables
  {
    Primed(prefix, allocs, tables, outside, split, now) && WritesOnly(tables, split)
  }

  /** Appends to sequence `i`. Nobody else's blocks and no cached block are written into. */
  method AppendRow(prefix: PrefixCache, allocs: seq<BlockAllocator>, tables: seq<PagedCache>, i: nat, slots: seq<Slot>,
        split: nat, ghost outside: seq<multiset<nat>>, ghost now: seq<seq<Slot>>)
    returns (ok: bool)
    requires Separate(tables) && i < |tables| && Sound(prefix, allocs, LayersOf(tables), outside)
    requires Following(PoolsOf(allocs), LayersOf(tables), split, now, prefix.size)
    requires WritesOnly(tables, split)
    modifies tables[i], allocs
    ensures WritesOnly(tables, split)
    ensures Sound(prefix, allocs, LayersOf(tables), outside)
    ensures ok ==> Following(PoolsOf(allocs), LayersOf(tables), split, now[i := now[i] + slots], prefix.size)
  {
    hide AllValid, Pooled, AllBacked, FilledAll, Fits, Moved, PoolsOf, DataOf, RestOf, PrefixCache.Valid, Held;
    ghost var ps, vals, es, ds := PoolsOf(allocs), LayersOf(tables), prefix.entries, DataOf(allocs);
    ghost var rest := RestOf(es, vals, i, outside);
    SizeIsPositive(prefix);
    PooledFits(ps, es, vals, outside, prefix.size, i);
    ok := tables[i].Append(allocs, slots, prefix.size, rest, now[i]);
    ghost var ps', vals' := PoolsOf(allocs), LayersOf(tables);
    MovedLength(ps, ps', rest);
    assert vals' == vals[i := tables[i].layers];
    FitsPooled(ps, ps', es, vals, tables[i].layers, outside, prefix.size, i);
    MovedBacked(prefix.chain, prefix.size, es, prefix.log, ps, ps', ds, DataOf(allocs), vals, outside, i);
    if ok {
      forall j: nat | j < split && j != i
        ensures FilledAll(ps', vals'[j], now[j], prefix.size)
      {
        OthersKept(ps, ps', es, vals, outside, prefix.size, i, j, now[j]);
      }
    }
  }

  /** The caches once the first `j` rows of a forward have been appended to sequences `b` and on. */
  function Advanced(now: seq<seq<Slot>>, b: nat, parts: seq<seq<Slot>>, j: nat): (next: seq<seq<Slot>>)
    requires b + |parts| <= |now| && j <= |parts|
    ensures |next| == |now|
  {
    seq(|now|, i requires 0 <= i < |now| => if b <= i < b + j then now[i] + parts[i - b] else now[i])
  }

  lemma {:induction false} NotAdvanced(now: seq<seq<Slot>>, b: nat, parts: seq<seq<Slot>>)
    requires b + |parts| <= |now|
    ensures Advanced(now, b, parts, 0) == now
  {
  }

  lemma {:induction false} AdvancedMore(now: seq<seq<Slot>>, b: nat, parts: seq<seq<Slot>>, j: nat)
    requires b + |parts| <= |now| && j < |parts|
    ensures var sofar := Advanced(now, b, parts, j);
      Advanced(now, b, parts, j + 1) == sofar[b + j := sofar[b + j] + parts[j]]
  {
  }

  method AppendRows(prefix: PrefixCache, allocs: seq<BlockAllocator>, tables: seq<PagedCache>, b: nat,
        parts: seq<seq<Slot>>, split: nat, ghost outside: seq<multiset<nat>>, ghost now: seq<seq<Slot>>)
    returns (ok: bool)
    requires b + |parts| <= |tables| == |now| && Carrying(prefix, allocs, tables, outside, split, now)
    modifies tables, allocs
    ensures Sound(prefix, allocs, LayersOf(tables), outside)
    ensures ok ==> Carrying(prefix, allocs, tables, outside, split, Advanced(now, b, parts, |parts|))
  {
    hide Sound, Following, PoolsOf, LayersOf, Separate, Advanced, WritesOnly;
    NotAdvanced(now, b, parts);
    for j := 0 to |parts|
      invariant Carrying(prefix, allocs, tables, outside, split, Advanced(now, b, parts, j))
    {
      ghost var sofar := Advanced(now, b, parts, j);
      AdvancedMore(now, b, parts, j);
      var fits := AppendRow(prefix, allocs, tables, b + j, parts[j], split, outside, sofar);
      if !fits {
        return false;
      }
      SoundSize(prefix, allocs, LayersOf(tables), outside);
    }
    return true;
  }

  lemma {:induction false} SoundSize(prefix: PrefixCache, allocs: seq<BlockAllocator>, vals: seq<seq<Table>>,
        outside: seq<multiset<nat>>)
    requires Sound(prefix, allocs, vals, outside)
    ensures prefix.size > 0
  {
  }

  lemma {:induction false} SizeIsPositive(prefix: PrefixCache)
    requires prefix.Valid()
    ensures prefix.size > 0
  {
  }

  lemma {:induction false} MovedLength(ps: seq<Pool>, ps': seq<Pool>, rest: seq<multiset<nat>>)
    requires Moved(ps, ps', rest)
    ensures |ps'| == |ps|
  {
  }

  ghost predicate DataIs(ps: seq<Pool>, ds: seq<Memory>) {
    |ds| == |ps| && forall l | 0 <= l < |ps| :: ds[l] == ps[l].data
  }

  lemma {:induction false} MovedBacked(chain: Hash, size: nat, es: seq<Entry>, log: set<Registration>, ps: seq<Pool>,
        ps': seq<Pool>, ds: seq<Memory>, ds': seq<Memory>, vals: seq<seq<Table>>, outside: seq<multiset<nat>>, i: nat)
    requires size > 0 && i < |vals| && AllBacked(chain, size, es, log, ds) && DataIs(ps, ds) && DataIs(ps', ds')
    requires Moved(ps, ps', RestOf(es, vals, i, outside))
    ensures AllBacked(chain, size, es, log, ds')
  {
    hide AllBacked, Kept, OnlyAdds, RestOf, Held;
    var rest := RestOf(es, vals, i, outside);
    EntriesInRest(ps, es, vals, outside, i);
    forall l: nat | l < |ds|
      ensures Kept(ds[l], ds'[l], rest[l])
    {
      assert LayerMoved(ps[l], ps'[l], rest[l]);
    }
    BackedKept(chain, size, es, log, ds, ds', rest);
  }

  /** The same data, whoever refers to it: tables that end on a block boundary hold what they held. */
  lemma {:induction false} AlignedKept(ps: seq<Pool>, ps': seq<Pool>, ts: seq<Table>, slots: seq<Slot>, size: nat)
    requires size > 0 && FilledAll(ps, ts, slots, size) && SameData(ps, ps') && |slots| % size == 0
    ensures FilledAll(ps', ts, slots, size)
  {
    hide Stored;
    forall l: nat | l < |ps|
      ensures LayerFilled(ps'[l], ts[l], slots, size)
    {
      assert LayerFilled(ps[l], ts[l], slots, size);
    }
  }

  lemma {:induction false} SameDataBacked(chain: Hash, size: nat, es: seq<Entry>, log: set<Registration>, ps: seq<Pool>,
        ps': seq<Pool>, ds: seq<Memory>, ds': seq<Memory>)
    requires AllBacked(chain, size, es, log, ds) && DataIs(ps, ds) && DataIs(ps', ds') && SameData(ps, ps')
    ensures AllBacked(chain, size, es, log, ds')
  {
    hide AllBacked;
    assert ds == ds';
  }

  /** What a lookup returns where no registered prefix is confusable with the prompt's: blocks that are held and carry
      the prompt's own slots. */
  ghost predicate Usable(ds: seq<Memory>, rest: seq<multiset<nat>>, tokens: seq<nat>, size: nat,
        matched: seq<seq<nat>>) {
    && Offered(matched, rest)
    && forall b: nat | b < |matched| :: Matches(ds, tokens, size, b, matched[b])
  }

  /** The prompt's first `n` blocks are cached one after the other, and block `n` is not. */
  ghost predicate IsMatched(chain: Hash, size: nat, es: seq<Entry>, tokens: seq<nat>, n: nat) {
    && (forall k: nat | 0 < k <= n :: Present(chain, es, tokens, size, k))
    && !Present(chain, es, tokens, size, n + 1)
  }

  lemma {:induction false} HitsAreMatched(chain: Hash, es: seq<Entry>, tokens: seq<nat>, size: nat, n: nat, i: nat)
    requires size > 0 && n * size <= |tokens| < (n + 1) * size && i <= n && Keyed(es)
    requires forall k: nat | 0 < k <= i :: Present(chain, es, tokens, size, k)
    ensures IsMatched(chain, size, es, tokens, i + |Hits(chain, es, tokens, size, n, i)|)
    decreases n - i
  {
    hide Present, Find, ChainOf, BlockOf, Keyed;
    if i < n {
      PrefixCaches.BlocksFit(n, size, i + 1, |tokens|);
      PresentIsCached(chain, es, es, tokens, size, i);
      if Present(chain, es, tokens, size, i + 1) {
        HitsAreMatched(chain, es, tokens, size, n, i + 1);
      }
    } else {
      PastTheEnd(chain, es, tokens, size, n);
    }
  }

  lemma {:induction false} LookupMatches(chain: Hash, es: seq<Entry>, tokens: seq<nat>, size: nat,
        log: set<Registration>, capacity: nat)
    requires size > 0 && |tokens| / size * size <= |tokens| && Coherent(chain, size, capacity, es, log)
    ensures IsMatched(chain, size, es, tokens, |Hits(chain, es, tokens, size, |tokens| / size, 0)|)
  {
    hide Hits, IsMatched, ChainOf, Keyed, Registered;
    Divided(|tokens|, size);
    HitsAreMatched(chain, es, tokens, size, |tokens| / size, 0);
  }

  lemma {:induction false} PastTheEnd(chain: Hash, es: seq<Entry>, tokens: seq<nat>, size: nat, n: nat)
    requires |tokens| < (n + 1) * size
    ensures !Present(chain, es, tokens, size, n + 1)
  {
  }

  /** The blocks cached for a prompt. */
  method Match(prefix: PrefixCache, allocs: seq<BlockAllocator>, tokens: seq<nat>, ghost vals: seq<seq<Table>>,
        ghost i: nat, ghost outside: seq<multiset<nat>>)
    returns (n: nat, matched: seq<seq<nat>>)
    requires i < |vals| && Sound(prefix, allocs, vals, outside)
    requires forall r | r in prefix.log :: Distinguishes(prefix.chain, prefix.size, r.prefix, tokens)
    modifies prefix`entries
    ensures Sound(prefix, allocs, vals, outside) && n == |matched|
    ensures IsMatched(prefix.chain, prefix.size, old(prefix.entries), tokens, n)
    ensures Usable(DataOf(allocs), RestOf(prefix.entries, vals, i, outside), tokens, prefix.size, matched)
  {
    hide AllValid, Distinguishes, Held, Total, IdsAt, Hits, Matches, Backed, Coherent, LayerPooled, AllShaped,
      MatchesPrefix, IsMatched, ByLastLook;
    ghost var es, chain, size, log, ds := prefix.entries, prefix.chain, prefix.size, prefix.log, DataOf(allocs);
    ghost var full := |tokens| / size;
    FullBlocks(|tokens|, size);
    NothingReached(chain, es, tokens, size);
    HitsMatch(chain, es, log, ds, tokens, size, full, 0);
    LookupMatches(chain, es, tokens, size, log, prefix.capacity);
    EntriesSpan(chain, size, es, log, ds);
    forall l: nat | l < |allocs|
      ensures forall b: nat | b < |Hits(chain, es, tokens, size, full, 0)| ::
        var ids := Hits(chain, es, tokens, size, full, 0)[b];
        l < |ids| && ids[l] in Held(es, l)
    {
      HitsAreHeld(chain, es, tokens, size, full, 0, l);
    }
    n, matched := prefix.Lookup(tokens);
    SameEntries(es, prefix.entries);
    SamePooled(PoolsOf(allocs), es, prefix.entries, vals, outside, size);
    forall b: nat | b < |matched|
      ensures |matched[b]| == |allocs|
      ensures forall l | 0 <= l < |allocs| :: matched[b][l] in RestOf(prefix.entries, vals, i, outside)[l]
    {
      assert Matches(ds, tokens, size, 0 + b, matched[b]);
      MatchesSpan(ds, tokens, size, b, matched[b]);
      EntriesInRest(PoolsOf(allocs), prefix.entries, vals, outside, i);
    }
  }

  lemma {:induction false} MatchesSpan(ds: seq<Memory>, tokens: seq<nat>, size: nat, b: nat, ids: seq<nat>)
    requires Matches(ds, tokens, size, b, ids)
    ensures |ids| == |ds|
  {
  }

  lemma {:induction false} EntriesSpan(chain: Hash, size: nat, es: seq<Entry>, log: set<Registration>, ds: seq<Memory>)
    requires AllBacked(chain, size, es, log, ds)
    ensures forall e | e in es :: |e.blockIds| == |ds|
  {
    hide ChainOf, BlockIs, BlockSlots;
  }

  lemma {:induction false} SamePooled(ps: seq<Pool>, es: seq<Entry>, es': seq<Entry>, vals: seq<seq<Table>>,
        outside: seq<multiset<nat>>, size: nat)
    requires size > 0 && Pooled(ps, es, vals, outside, size) && forall l: nat :: Held(es', l) == Held(es, l)
    ensures Pooled(ps, es', vals, outside, size)
  {
    hide Held, Total, IdsAt;
    forall l: nat | l < |ps|
      ensures LayerPooled(ps[l], es', vals, outside[l], l)
    {
      assert LayerPooled(ps[l], es, vals, outside[l], l);
    }
  }

  /** Every layer's blocks hold the prompt's first `n` blocks. */
  ghost predicate HoldsPrefix(ps: seq<Pool>, ts: seq<Table>, tokens: seq<nat>, n: nat, size: nat)
    requires size > 0
  {
    n * size <= |tokens| && FilledAll(ps, ts, Slots(tokens)[..n * size], size)
  }

  lemma {:induction false} UsableIsStored(ps: seq<Pool>, ds: seq<Memory>, rest: seq<multiset<nat>>, tokens: seq<nat>,
        size: nat, matched: seq<seq<nat>>, ts: seq<Table>)
    requires size > 0 && Usable(ds, rest, tokens, size, matched) && DataIs(ps, ds) && |rest| == |ds| == |ts|
    requires Started(ts, matched, size)
    ensures HoldsPrefix(ps, ts, tokens, |matched|, size)
  {
    hide Slots, BlockSlots;
    var n := |matched|;
    if n > 0 {
      assert Matches(ds, tokens, size, n - 1, matched[n - 1]);
    }
    DividedOnce(n, 0, size);
    forall l: nat | l < |ds|
      ensures LayerFilled(ps[l], ts[l], Slots(tokens)[..n * size], size)
    {
      assert StartedAt(ts[l], matched, l, size);
      forall b: nat | b < n
        ensures HoldsBlock(ds[l], ts[l].ids, tokens, size, b)
      {
        assert Matches(ds, tokens, size, b, matched[b]);
      }
      BlocksAreStored(ds[l], ts[l].ids, tokens, size);
    }
  }

  /** Sequence `i` starts with its prompt's cached blocks, and they hold the prompt's own slots in every layer. */
  method PrepopulateRow(prefix: PrefixCache, allocs: seq<BlockAllocator>, tables: seq<PagedCache>, i: nat,
        matched: seq<seq<nat>>, ghost tokens: seq<nat>, ghost outside: seq<multiset<nat>>)
    requires Separate(tables) && i < |tables| && Sound(prefix, allocs, LayersOf(tables), outside)
    requires tables[i].layers == NoTables(|allocs|)
    requires Usable(DataOf(allocs), RestOf(prefix.entries, LayersOf(tables), i, outside), tokens, prefix.size, matched)
    modifies tables[i], allocs
    ensures tables[i].poolWrites == old(tables[i].poolWrites)
    ensures Sound(prefix, allocs, LayersOf(tables), outside) && SameData(old(PoolsOf(allocs)), PoolsOf(allocs))
    ensures HoldsPrefix(PoolsOf(allocs), tables[i].layers, tokens, |matched|, prefix.size)
  {
    hide AllValid, Pooled, AllBacked, HoldsPrefix, Fits, PoolsOf, DataOf, RestOf, PrefixCache.Valid, Held, Usable,
      NoTables, SameData, Offered, Slots, Started;
    ghost var ps, vals, es, ds := PoolsOf(allocs), LayersOf(tables), prefix.entries, DataOf(allocs);
    ghost var rest := RestOf(es, vals, i, outside);
    SizeIsPositive(prefix);
    PooledFits(ps, es, vals, outside, prefix.size, i);
    FitsLength(ps, tables[i].layers, rest, prefix.size);
    UsableIsOffered(ds, rest, tokens, prefix.size, matched);
    tables[i].Prepopulate(allocs, matched, prefix.size, rest);
    ghost var ps', vals' := PoolsOf(allocs), LayersOf(tables);
    assert vals' == vals[i := tables[i].layers];
    FitsLength(ps', tables[i].layers, rest, prefix.size);
    FitsPooled(ps, ps', es, vals, tables[i].layers, outside, prefix.size, i);
    SameDataBacked(prefix.chain, prefix.size, es, prefix.log, ps, ps', ds, DataOf(allocs));
    DataUnchanged(ps, ps', ds, DataOf(allocs));
    UsableIsStored(ps', DataOf(allocs), rest, tokens, prefix.size, matched, tables[i].layers);
  }

  lemma {:induction false} UsableIsOffered(ds: seq<Memory>, rest: seq<multiset<nat>>, tokens: seq<nat>, size: nat,
        matched: seq<seq<nat>>)
    requires Usable(ds, rest, tokens, size, matched)
    ensures Offered(matched, rest)
  {
  }

  lemma {:induction false} DataUnchanged(ps: seq<Pool>, ps': seq<Pool>, ds: seq<Memory>, ds': seq<Memory>)
    requires DataIs(ps, ds) && DataIs(ps', ds') && SameData(ps, ps')
    ensures ds == ds'
  {
  }

  lemma {:induction false} UsablePrefix(ds: seq<Memory>, rest: seq<multiset<nat>>, tokens: seq<nat>, size: nat,
        matched: seq<seq<nat>>, n: nat)
    requires Usable(ds, rest, tokens, size, matched) && n <= |matched|
    ensures Usable(ds, rest, tokens, size, matched[..n])
  {
    hide Matches;
  }

  lemma {:induction false} NothingFilled(ps: seq<Pool>, ts: seq<Table>, size: nat)
    requires size > 0 && ts == NoTables(|ps|)
    ensures FilledAll(ps, ts, [], size)
  {
  }

  /** Drops sequence `i` back to `n` tokens; what others hold, and what it still holds, stays. */
  method TruncateRow(prefix: PrefixCache, allocs: seq<BlockAllocator>, tables: seq<PagedCache>, i: nat, n: nat,
        ghost outside: seq<multiset<nat>>)
    requires Separate(tables) && i < |tables| && Sound(prefix, allocs, LayersOf(tables), outside)
    modifies tables[i], allocs
    ensures tables[i].poolWrites == old(tables[i].poolWrites)
    ensures Sound(prefix, allocs, LayersOf(tables), outside) && SameData(old(PoolsOf(allocs)), PoolsOf(allocs))
    ensures CutTo(old(tables[i].layers), tables[i].layers, n, prefix.size, |allocs|)
  {
    hide AllValid, Pooled, AllBacked, Fits, PoolsOf, DataOf, RestOf, PrefixCache.Valid, Held, CutTo;
    ghost var ps, vals, es, ds := PoolsOf(allocs), LayersOf(tables), prefix.entries, DataOf(allocs);
    ghost var rest := RestOf(es, vals, i, outside);
    SizeIsPositive(prefix);
    PooledFits(ps, es, vals, outside, prefix.size, i);
    FitsLength(ps, tables[i].layers, rest, prefix.size);
    tables[i].TruncateTo(allocs, n, prefix.size, rest);
    ghost var ps', vals' := PoolsOf(allocs), LayersOf(tables);
    assert vals' == vals[i := tables[i].layers];
    FitsLength(ps', tables[i].layers, rest, prefix.size);
    FitsPooled(ps, ps', es, vals, tables[i].layers, outside, prefix.size, i);
    SameDataBacked(prefix.chain, prefix.size, es, prefix.log, ps, ps', ds, DataOf(allocs));
  }

  /** Sequence `i` gives up its blocks; the cached ones among them live on. */
  method ReleaseRow(prefix: PrefixCache, allocs: seq<BlockAllocator>, tables: seq<PagedCache>, i: nat,
        ghost outside: seq<multiset<nat>>)
    requires Separate(tables) && i < |tables| && Sound(prefix, allocs, LayersOf(tables), outside)
    modifies tables[i], allocs
    ensures Sound(prefix, allocs, LayersOf(tables), outside) && SameData(old(PoolsOf(allocs)), PoolsOf(allocs))
    ensures tables[i].layers == NoTables(|allocs|)
  {
    hide AllValid, Pooled, AllBacked, Fits, PoolsOf, DataOf, RestOf, PrefixCache.Valid, Held, NoTables;
    ghost var ps, vals, es, ds := PoolsOf(allocs), LayersOf(tables), prefix.entries, DataOf(allocs);
    ghost var rest := RestOf(es, vals, i, outside);
    SizeIsPositive(prefix);
    PooledFits(ps, es, vals, outside, prefix.size, i);
    tables[i].Clear(allocs, prefix.size, rest);
    ghost var ps', vals' := PoolsOf(allocs), LayersOf(tables);
    assert vals' == vals[i := tables[i].layers];
    FitsPooled(ps, ps', es, vals, tables[i].layers, outside, prefix.size, i);
    SameDataBacked(prefix.chain, prefix.size, es, prefix.log, ps, ps', ds, DataOf(allocs));
  }

  /** Takes the blocks that `n` more tokens of sequence `i` need and leaves them as they are. */
  method ReserveRow(prefix: PrefixCache, allocs: seq<BlockAllocator>, tables: seq<PagedCache>, i: nat, n: nat,
        ghost outside: seq<multiset<nat>>)
    returns (ok: bool)
    requires i < |tables| && Sharing(prefix, allocs, tables, outside) && !tables[i].poolWrites
    modifies tables[i], allocs
    ensures Sharing(prefix, allocs, tables, outside) && tables[i].poolWrites == old(tables[i].poolWrites)
  {
    hide AllValid, Pooled, AllBacked, FilledAll, Fits, Moved, PoolsOf, DataOf, RestOf, PrefixCache.Valid, Held;
    ghost var ps, vals, es, ds := PoolsOf(allocs), LayersOf(tables), prefix.entries, DataOf(allocs);
    ghost var rest := RestOf(es, vals, i, outside);
    SizeIsPositive(prefix);
    PooledFits(ps, es, vals, outside, prefix.size, i);
    ok := tables[i].Append(allocs, seq(n, _ => Slot(0, 0)), prefix.size, rest, []);
    ghost var ps' := PoolsOf(allocs);
    MovedLength(ps, ps', rest);
    assert LayersOf(tables) == vals[i := tables[i].layers];
    FitsPooled(ps, ps', es, vals, tables[i].layers, outside, prefix.size, i);
    MovedBacked(prefix.chain, prefix.size, es, prefix.log, ps, ps', ds, DataOf(allocs), vals, outside, i);
  }

  // ----- the prefix cache's own steps

  /** Drops the entry used longest ago; its blocks live on where a sequence holds them. */
  method Evict(prefix: PrefixCache, allocs: seq<BlockAllocator>, ghost vals: seq<seq<Table>>,
        ghost outside: seq<multiset<nat>>)
    returns (evicted: bool)
    requires Sound(prefix, allocs, vals, outside)
    modifies prefix`entries, allocs
    ensures Sound(prefix, allocs, vals, outside) && SameData(old(PoolsOf(allocs)), PoolsOf(allocs))
    ensures evicted <==> !prefix.disabled && old(prefix.entries) != []
  {
    hide AllValid, Held, PoolsOf, DataOf, Backed, Others, Balanced, Coherent, AllShaped, LayerPooled;
    ghost var ds := DataOf(allocs);
    PooledIsBalanced(allocs, prefix.entries, vals, outside, prefix.size);
    evicted := prefix.EvictLru(allocs, Others(vals, outside));
    PooledIsBalanced(allocs, prefix.entries, vals, outside, prefix.size);
  }

  /** Makes a prompt's cached blocks the last to be evicted. */
  method Refresh(prefix: PrefixCache, allocs: seq<BlockAllocator>, tokens: seq<nat>, ghost vals: seq<seq<Table>>,
        ghost outside: seq<multiset<nat>>)
    requires Sound(prefix, allocs, vals, outside)
    modifies prefix`entries
    ensures Sound(prefix, allocs, vals, outside)
  {
    hide AllValid, Held, Backed, Coherent, AllShaped, LayerPooled, Hits;
    ghost var es := prefix.entries;
    prefix.Touch(tokens);
    SameEntries(es, prefix.entries);
    SamePooled(PoolsOf(allocs), es, prefix.entries, vals, outside, prefix.size);
  }

  // ----- registering a prompt

  /** The blocks at index `b` of the tables that reach that far. */
  function BlocksAt(ts: seq<Table>, b: nat): seq<nat> {
    if ts == [] then [] else
      BlocksAt(ts[..|ts| - 1], b) + if b < |ts[|ts| - 1].ids| then [ts[|ts| - 1].ids[b]] else []
  }

  lemma {:induction false} BlocksAtAll(ts: seq<Table>, b: nat)
    requires forall l | 0 <= l < |ts| :: b < |ts[l].ids|
    ensures |BlocksAt(ts, b)| == |ts|
    ensures forall l | 0 <= l < |ts| :: BlocksAt(ts, b)[l] == ts[l].ids[b]
    decreases |ts|
  {
    if ts != [] {
      BlocksAtAll(ts[..|ts| - 1], b);
    }
  }

  /** The blocks that a prefill filled: indices `start` to `full`. */
  function NewBlocks(ts: seq<Table>, start: nat, full: nat): (ids: seq<seq<nat>>)
    requires start <= full
    ensures |ids| == full - start
  {
    seq(full - start, i requires 0 <= i < full - start => BlocksAt(ts, start + i))
  }

  /** Block `b` of the tables is the prompt's block `b` in every layer. */
  ghost predicate BlockIsWhole(ts: seq<Table>, ds: seq<Memory>, tokens: seq<nat>, size: nat, b: nat) {
    && |ts| == |ds| && (b + 1) * size <= |tokens| && |BlocksAt(ts, b)| == |ts|
    && forall l | 0 <= l < |ts| ::
      && b < |ts[l].ids| && BlocksAt(ts, b)[l] == ts[l].ids[b]
      && BlockIs(ds[l], ts[l].ids[b], BlockSlots(tokens, size, b))
  }

  ghost predicate LayerStored(p: Pool, t: Table, slots: seq<Slot>, size: nat)
    requires size > 0
  {
    Stored(p.data, t.ids, slots, size)
  }

  /** Every layer's blocks hold `slots`. */
  ghost predicate StoredAll(ps: seq<Pool>, ts: seq<Table>, slots: seq<Slot>, size: nat)
    requires size > 0
  {
    |ps| == |ts| && forall l | 0 <= l < |ps| :: LayerStored(ps[l], ts[l], slots, size)
  }

  lemma {:induction false} FilledIsStored(ps: seq<Pool>, ts: seq<Table>, slots: seq<Slot>, size: nat)
    requires size > 0 && FilledAll(ps, ts, slots, size)
    ensures StoredAll(ps, ts, slots, size)
  {
    hide Stored;
    forall l: nat | l < |ps|
      ensures LayerStored(ps[l], ts[l], slots, size)
    {
      assert LayerFilled(ps[l], ts[l], slots, size);
    }
  }

  lemma {:induction false} StillStored(ps: seq<Pool>, ps': seq<Pool>, ts: seq<Table>, slots: seq<Slot>, size: nat)
    requires size > 0 && StoredAll(ps, ts, slots, size) && SameData(ps, ps')
    ensures StoredAll(ps', ts, slots, size)
  {
    hide Stored;
    forall l: nat | l < |ps|
      ensures LayerStored(ps'[l], ts[l], slots, size)
    {
      assert LayerStored(ps[l], ts[l], slots, size);
    }
  }

  lemma {:induction false} StoredIsWhole(ps: seq<Pool>, ds: seq<Memory>, ts: seq<Table>, known: seq<nat>,
        tokens: seq<nat>, size: nat, b: nat)
    requires size > 0 && StoredAll(ps, ts, Slots(known), size) && DataIs(ps, ds)
    requires (b + 1) * size <= |known| && known <= tokens
    ensures BlockIsWhole(ts, ds, tokens, size, b)
  {
    hide Stored, Slots, BlockIs;
    forall l: nat | l < |ts|
      ensures b < |ts[l].ids| && BlockIs(ds[l], ts[l].ids[b], BlockSlots(tokens, size, b))
    {
      assert LayerStored(ps[l], ts[l], Slots(known), size);
      StoredIsBlocks(ds[l], ts[l].ids, known, size, b);
      SameBlockSlots(known, tokens, size, b);
    }
    BlocksAtAll(ts, b);
  }

  lemma {:induction false} SameBlockSlots(known: seq<nat>, tokens: seq<nat>, size: nat, b: nat)
    requires (b + 1) * size <= |known| && known <= tokens
    ensures BlockSlots(known, size, b) == BlockSlots(tokens, size, b)
  {
    BlockFits(b, size);
  }

  lemma {:induction false} RecordedIsBacked(chain: Hash, size: nat, ts: seq<Table>, ds: seq<Memory>, tokens: seq<nat>,
        start: nat, full: nat, log: set<Registration>, e: Entry)
    requires start <= full && size > 0
    requires forall b: nat | b < full :: BlockIsWhole(ts, ds, tokens, size, b)
    requires IsRecorded(chain, tokens, size, start, NewBlocks(ts, start, full), log, e)
    ensures Backed(chain, size, e, log, ds)
  {
    hide ChainOf, BlockIs, BlockOf, Slots, BlocksAt;
    var ids := NewBlocks(ts, start, full);
    var i: nat :| i < |ids| && (start + i + 1) * size <= |tokens|
      && e.hash == ChainOf(chain, tokens, size, start + i + 1) && e.blockIds == ids[i]
      && e.blockTokens == BlockOf(tokens, size, start + i)
      && Registration(tokens[..(start + i + 1) * size], start + i + 1, ids[i]) in log;
    var b := start + i;
    var r := Registration(tokens[..(b + 1) * size], b + 1, ids[i]);
    assert BlockIsWhole(ts, ds, tokens, size, b);
    PrefixBlock(chain, size, tokens, b + 1, b + 1);
    SameBlockSlots(r.prefix, tokens, size, b);
    assert Backs(chain, size, e, r, ds);
  }

  lemma {:induction false} BackedMore(chain: Hash, size: nat, e: Entry, a: set<Registration>, b: set<Registration>,
        ds: seq<Memory>)
    requires Backed(chain, size, e, a, ds) && a <= b
    ensures Backed(chain, size, e, b, ds)
  {
    hide Backs;
  }

  lemma {:induction false} NewAreHeld(vals: seq<seq<Table>>, i: nat, ds: seq<Memory>, tokens: seq<nat>, size: nat,
        b: nat, outside: seq<multiset<nat>>)
    requires i < |vals| && BlockIsWhole(vals[i], ds, tokens, size, b)
    ensures HeldElsewhere(BlocksAt(vals[i], b), Others(vals, outside))
  {
    hide BlocksAt, BlockIs, Total;
    var ids := BlocksAt(vals[i], b);
    forall l: nat | l < |ids| && l < |outside|
      ensures ids[l] in Others(vals, outside)[l]
    {
      assert ids[l] == vals[i][l].ids[b];
      InTotal(IdsAt(vals, l), i, ids[l]);
    }
  }

  lemma {:induction false} NewArePrefixes(tokens: seq<nat>, known: seq<nat>, size: nat, start: nat, ids: seq<seq<nat>>,
        r: Registration)
    requires IsNew(tokens, size, start, ids, r)
    requires size > 0 && (start + |ids|) * size <= |known| && known <= tokens
    ensures r.prefix <= known
  {
    var i: nat :| i < |ids| && (start + i + 1) * size <= |tokens|
      && r == Registration(tokens[..(start + i + 1) * size], start + i + 1, ids[i]);
    PrefixCaches.BlocksFit(start + |ids|, size, start + i + 1, |known|);
  }

  /** Registers the blocks that sequence `i` filled beyond its cached prefix. */
  method RegisterRow(prefix: PrefixCache, allocs: seq<BlockAllocator>, tables: seq<PagedCache>, i: nat,
        tokens: seq<nat>, start: nat, full: nat, ghost known: seq<nat>, ghost outside: seq<multiset<nat>>)
    requires i < |tables| && Sound(prefix, allocs, LayersOf(tables), outside)
    requires start <= full && full * prefix.size <= |known| && known <= tokens
    requires StoredAll(PoolsOf(allocs), tables[i].layers, Slots(known), prefix.size)
    modifies prefix`entries, prefix`log, allocs
    ensures Sound(prefix, allocs, LayersOf(tables), outside) && SameData(old(PoolsOf(allocs)), PoolsOf(allocs))
    ensures forall r | r in prefix.log :: r in old(prefix.log) || r.prefix <= known
  {
    hide AllValid, Held, PoolsOf, DataOf, Backed, Others, Balanced, Coherent, AllShaped, LayerPooled, BlockIsWhole,
      Grown, HeldElsewhere, StoredAll, Slots, Total, IsRecorded, IsNew, BlocksAt, Pooled, NewBlocks, AllBacked;
    ghost var ps, ds, size, vals, es, log :=
      PoolsOf(allocs), DataOf(allocs), prefix.size, LayersOf(tables), prefix.entries, prefix.log;
    var ts := tables[i].layers;
    var newIds := NewBlocks(ts, start, full);
    NewBlocksAreWhole(ps, ds, vals, i, tokens, known, size, start, full, outside);
    PooledShape(ps, es, vals, outside, size);
    PooledIsBalanced(allocs, es, vals, outside, size);
    prefix.Register(tokens, start, newIds, allocs, Others(vals, outside));
    PooledIsBalanced(allocs, prefix.entries, vals, outside, size);
    AllStillBacked(prefix.chain, size, es, prefix.entries, log, prefix.log, ts, ds, tokens, start, full);
    forall r | r in prefix.log && r !in log
      ensures r.prefix <= known
    {
      NewArePrefixes(tokens, known, size, start, newIds, r);
    }
  }

  lemma {:induction false} NewBlocksAreWhole(ps: seq<Pool>, ds: seq<Memory>, vals: seq<seq<Table>>, i: nat,
        tokens: seq<nat>, known: seq<nat>, size: nat, start: nat, full: nat, outside: seq<multiset<nat>>)
    requires size > 0 && i < |vals| && start <= full && full * size <= |known| && known <= tokens
    requires StoredAll(ps, vals[i], Slots(known), size) && DataIs(ps, ds)
    ensures forall b: nat | b < full :: BlockIsWhole(vals[i], ds, tokens, size, b)
    ensures forall k | 0 <= k < full - start ::
      var ids := NewBlocks(vals[i], start, full)[k];
      |ids| == |ds| && HeldElsewhere(ids, Others(vals, outside))
  {
    hide StoredAll, BlockIsWhole, HeldElsewhere, Others, BlocksAt, DataIs;
    forall b: nat | b < full
      ensures BlockIsWhole(vals[i], ds, tokens, size, b) && HeldElsewhere(BlocksAt(vals[i], b), Others(vals, outside))
      ensures |BlocksAt(vals[i], b)| == |ds|
    {
      PrefixCaches.BlocksFit(full, size, b + 1, |known|);
      StoredIsWhole(ps, ds, vals[i], known, tokens, size, b);
      NewAreHeld(vals, i, ds, tokens, size, b, outside);
      WholeLength(vals[i], ds, tokens, size, b);
    }
  }

  lemma {:induction false} AllStillBacked(chain: Hash, size: nat, es: seq<Entry>, es': seq<Entry>,
        log: set<Registration>, log': set<Registration>, ts: seq<Table>, ds: seq<Memory>, tokens: seq<nat>, start: nat,
        full: nat)
    requires start <= full && size > 0 && log <= log' && AllBacked(chain, size, es, log, ds)
    requires forall b: nat | b < full :: BlockIsWhole(ts, ds, tokens, size, b)
    requires forall e | e in es' && e !in es ::
      IsRecorded(chain, tokens, size, start, NewBlocks(ts, start, full), log', e)
    ensures AllBacked(chain, size, es', log', ds)
  {
    hide Backed, BlockIsWhole, IsRecorded;
    forall e | e in es'
      ensures Backed(chain, size, e, log', ds)
    {
      if e in es {
        BackedMore(chain, size, e, log, log', ds);
      } else {
        RecordedIsBacked(chain, size, ts, ds, tokens, start, full, log', e);
      }
    }
  }

  lemma {:induction false} WholeLength(ts: seq<Table>, ds: seq<Memory>, tokens: seq<nat>, size: nat, b: nat)
    requires BlockIsWhole(ts, ds, tokens, size, b)
    ensures |BlocksAt(ts, b)| == |ds|
  {
    hide BlocksAt, BlockIs;
  }

  lemma {:induction false} PooledShape(ps: seq<Pool>, es: seq<Entry>, vals: seq<seq<Table>>,
        outside: seq<multiset<nat>>, size: nat)
    requires size > 0 && Pooled(ps, es, vals, outside, size)
    ensures |outside| == |ps| && forall i | 0 <= i < |vals| :: AllShaped(vals[i], |ps|, size)
  {
  }
}
