/** Shared prompt blocks: what a lookup may return and who holds which block (src/common/prefix_cache.rs). */
module PrefixCaches {
  import opened SequenceStates
  import opened Wrappers

  /** What one layer's pool holds: a slot at each block and offset written so far. */
  type Memory = map<Place, Slot>

  datatype Place = Place(id: nat, offset: nat)

  /** The memory after a run of slots is written into a block from `offset` on. */
  function Written(data: Memory, id: nat, offset: nat, run: seq<Slot>): Memory {
    var places := set k: nat | offset <= k < offset + |run| :: Place(id, k);
    map p | p in data.Keys + places ::
      if p.id == id && offset <= p.offset < offset + |run| then run[p.offset - offset] else data[p]
  }

  /** One layer's block pool: who holds which block, and the slots written to each. */
  class BlockAllocator {
    const maxBlocks: nat
    const segmentBlocks: nat
    var numBlocks: nat
    var refs: multiset<nat>
    var freeList: seq<nat>
    var data: Memory

    /** A free block is free once and held by nobody. */
    ghost predicate Valid()
      reads this
    {
      && numBlocks <= maxBlocks && segmentBlocks > 0
      && (forall id | id in refs :: id < numBlocks)
      && (forall i | 0 <= i < |freeList| :: freeList[i] < numBlocks && freeList[i] !in refs)
      && forall i, j | 0 <= i < j < |freeList| :: freeList[i] != freeList[j]
    }

    constructor (maxBlocks: nat, segmentBlocks: nat)
      requires segmentBlocks > 0
      ensures Valid() && refs == multiset{}
    {
      this.maxBlocks, this.segmentBlocks := maxBlocks, segmentBlocks;
      numBlocks, refs, freeList, data := 0, multiset{}, [], map[];
    }

    /** Materialises the next segment, as far as the ceiling allows. */
    method Grow()
      requires Valid() && freeList == []
      modifies this
      ensures Valid() && refs == old(refs) && data == old(data)
      ensures freeList == [] <==> old(numBlocks) == maxBlocks
    {
      var target := if numBlocks + segmentBlocks < maxBlocks then numBlocks + segmentBlocks else maxBlocks;
      var added := target - numBlocks;
      freeList := seq(added, i requires 0 <= i < added => target - 1 - i);
      numBlocks := target;
    }

    /** Hands out a block that nobody holds, or fails at the ceiling. */
    method Allocate() returns (id: Option<nat>)
      requires Valid()
      modifies this
      ensures Valid() && data == old(data)
      ensures id.Some? ==> id.value !in old(refs) && refs == old(refs) + multiset{id.value}
      ensures id.None? ==> refs == old(refs) && old(freeList) == [] && old(numBlocks) == maxBlocks
    {
      if freeList == [] {
        Grow();
      }
      if freeList == [] {
        return None;
      }
      var last := freeList[|freeList| - 1];
      freeList := freeList[..|freeList| - 1];
      refs := refs + multiset{last};
      return Some(last);
    }

    method Share(id: nat)
      requires id in refs
      modifies this
      ensures refs == old(refs) + multiset{id} && freeList == old(freeList) && data == old(data)
      ensures old(Valid()) ==> Valid()
    {
      refs := refs + multiset{id};
    }

    method Free(id: nat)
      requires id in refs
      modifies this
      ensures refs == old(refs) - multiset{id} && data == old(data)
      ensures freeList == if old(refs)[id] == 1 then old(freeList) + [id] else old(freeList)
      ensures old(Valid()) ==> Valid()
    {
      refs := refs - multiset{id};
      if refs[id] == 0 {
        freeList := freeList + [id];
      }
    }

    method Write(id: nat, offset: nat, run: seq<Slot>)
      modifies `data
      ensures data == Written(old(data), id, offset, run)
      ensures old(Valid()) ==> Valid()
    {
      data := Written(data, id, offset, run);
    }
  }

  /** A cached block: one block id per layer and the tokens it holds. */
  datatype Entry = Entry(hash: nat, blockIds: seq<nat>, blockTokens: seq<nat>)

  type Hash = (seq<nat>, nat) -> nat

  function BlockOf(tokens: seq<nat>, size: nat, i: nat): (b: seq<nat>)
    requires (i + 1) * size <= |tokens|
  {
    BlockFits(i, size);
    tokens[i * size..(i + 1) * size]
  }

  lemma {:induction false} BlockFits(i: nat, size: nat)
    ensures i * size <= (i + 1) * size == i * size + size
  {
  }

  lemma {:induction false} BlocksFit(n: nat, size: nat, i: nat, len: nat)
    requires size > 0 && n * size <= len && i <= n
    ensures i * size <= len
  {
    var d := n - i;
    assert n * size == i * size + d * size;
  }

  /** The hash of the first `n` blocks. */
  function ChainOf(chain: Hash, tokens: seq<nat>, size: nat, n: nat): nat
    requires n * size <= |tokens|
  {
    if n == 0 then 0 else
      BlockFits(n - 1, size);
      chain(BlockOf(tokens, size, n - 1), ChainOf(chain, tokens, size, n - 1))
  }

  /** Equal chains within the first `n` blocks belong to equal blocks: else a walk over them would stop early. */
  ghost predicate Consistent(chain: Hash, size: nat, b: seq<nat>, n: nat) {
    forall i: nat, j: nat | i <= n && j <= n && SameChain(chain, size, b, i, b, j) :: SameLast(size, b, i, b, j)
  }

  ghost predicate SameChain(chain: Hash, size: nat, a: seq<nat>, i: nat, b: seq<nat>, j: nat) {
    && 0 < i && 0 < j && i * size <= |a| && j * size <= |b|
    && ChainOf(chain, a, size, i) == ChainOf(chain, b, size, j)
  }

  ghost predicate SameLast(size: nat, a: seq<nat>, i: nat, b: seq<nat>, j: nat) {
    && 0 < i && 0 < j && i * size <= |a| && j * size <= |b|
    && BlockOf(a, size, i - 1) == BlockOf(b, size, j - 1)
  }

  /** Two different prefixes of whole blocks that neither the chain nor the last block's own tokens tell apart, the
      second of them one that a walk gets through. */
  ghost predicate Confusable(chain: Hash, size: nat, a: seq<nat>, i: nat, b: seq<nat>, j: nat) {
    && i * size == |a| && j * size == |b| && a != b
    && SameChain(chain, size, a, i, b, j) && SameLast(size, a, i, b, j) && Consistent(chain, size, b, j)
  }

  /** No whole blocks that begin `a` are confusable with whole blocks that begin `b`. */
  ghost predicate Distinguishes(chain: Hash, size: nat, a: seq<nat>, b: seq<nat>) {
    forall i: nat, j: nat | i * size <= |a| && j * size <= |b| ::
      !Confusable(chain, size, a[..i * size], i, b[..j * size], j)
  }

  // ----- least-recently-used order: the first entry is the next to go

  predicate Keyed(es: seq<Entry>) {
    forall i, j | 0 <= i < j < |es| :: es[i].hash != es[j].hash
  }

  function Find(es: seq<Entry>, h: nat): (r: Option<nat>)
    ensures r.Some? ==> r.value < |es| && es[r.value].hash == h
    ensures r.None? ==> forall i | 0 <= i < |es| :: es[i].hash != h
  {
    if es == [] then None
    else if es[|es| - 1].hash == h then Some(|es| - 1)
    else Find(es[..|es| - 1], h)
  }

  /** Entry `i` becomes the most recently used. */
  function Refreshed(es: seq<Entry>, i: nat): (next: seq<Entry>)
    requires i < |es|
    ensures |next| == |es|
  {
    es[..i] + es[i + 1..] + [es[i]]
  }

  lemma {:induction false} RefreshedKeeps(es: seq<Entry>, i: nat)
    requires i < |es| && Keyed(es)
    ensures Keyed(Refreshed(es, i)) && multiset(Refreshed(es, i)) == multiset(es)
  {
    assert es == es[..i] + [es[i]] + es[i + 1..];
  }

  /** What is stored under a hash does not depend on the order. */
  lemma {:induction false} FoundAnywhere(es: seq<Entry>, fs: seq<Entry>, h: nat)
    requires Keyed(es) && Keyed(fs) && multiset(es) == multiset(fs)
    ensures Find(es, h).Some? <==> Find(fs, h).Some?
    ensures Find(es, h).Some? ==> es[Find(es, h).value] == fs[Find(fs, h).value]
  {
    if Find(es, h).Some? {
      var e := es[Find(es, h).value];
      assert e in multiset(fs);
    }
    if Find(fs, h).Some? {
      var f := fs[Find(fs, h).value];
      assert f in multiset(es);
    }
  }

  /** How many of the prompt's blocks are cached from block `i` on. */
  function Hits(chain: Hash, es: seq<Entry>, tokens: seq<nat>, size: nat, n: nat, i: nat): (ids: seq<seq<nat>>)
    requires n * size <= |tokens| && i <= n && size > 0
    ensures |ids| <= n - i
    decreases n - i
  {
    if i == n then [] else
      BlocksFit(n, size, i + 1, |tokens|);
      var found := Find(es, ChainOf(chain, tokens, size, i + 1));
      if found.Some? && es[found.value].blockTokens == BlockOf(tokens, size, i) then
        [es[found.value].blockIds] + Hits(chain, es, tokens, size, n, i + 1)
      else []
  }

  lemma {:induction false} HitsAnywhere(chain: Hash, es: seq<Entry>, fs: seq<Entry>, tokens: seq<nat>, size: nat,
        n: nat, i: nat)
    requires n * size <= |tokens| && i <= n && size > 0
    requires Keyed(es) && Keyed(fs) && multiset(es) == multiset(fs)
    ensures Hits(chain, es, tokens, size, n, i) == Hits(chain, fs, tokens, size, n, i)
    decreases n - i
  {
    hide Find;
    if i < n {
      BlocksFit(n, size, i + 1, |tokens|);
      FoundAnywhere(es, fs, ChainOf(chain, tokens, size, i + 1));
      HitsAnywhere(chain, es, fs, tokens, size, n, i + 1);
    }
  }

  /** The order after a walk over the prompt's cached blocks from block `i` on; a hit whose tokens differ is refreshed
      too. */
  function Walked(chain: Hash, es: seq<Entry>, tokens: seq<nat>, size: nat, n: nat, i: nat): (next: seq<Entry>)
    requires n * size <= |tokens| && i <= n && size > 0
    ensures |next| == |es|
    decreases n - i
  {
    if i == n then es else
      BlocksFit(n, size, i + 1, |tokens|);
      var found := Find(es, ChainOf(chain, tokens, size, i + 1));
      if found.None? then es
      else if es[found.value].blockTokens == BlockOf(tokens, size, i) then
        Walked(chain, Refreshed(es, found.value), tokens, size, n, i + 1)
      else Refreshed(es, found.value)
  }

  lemma {:induction false} WalkedKeeps(chain: Hash, es: seq<Entry>, tokens: seq<nat>, size: nat, n: nat, i: nat)
    requires n * size <= |tokens| && i <= n && size > 0 && Keyed(es)
    ensures Keyed(Walked(chain, es, tokens, size, n, i))
    ensures multiset(Walked(chain, es, tokens, size, n, i)) == multiset(es)
    decreases n - i
  {
    hide Keyed, Refreshed;
    if i < n {
      BlocksFit(n, size, i + 1, |tokens|);
      var found := Find(es, ChainOf(chain, tokens, size, i + 1));
      if found.Some? {
        RefreshedKeeps(es, found.value);
        WalkedKeeps(chain, Refreshed(es, found.value), tokens, size, n, i + 1);
      }
    }
  }

  // ----- the order after a walk, by the last look at each entry

  /** Block `k` of the prompt, counted from one, is cached. */
  ghost predicate Present(chain: Hash, es: seq<Entry>, tokens: seq<nat>, size: nat, k: nat) {
    && 0 < k && (k - 1) * size <= k * size <= |tokens|
    && exists e | e in es ::
      e.hash == ChainOf(chain, tokens, size, k) && e.blockTokens == tokens[(k - 1) * size..k * size]
  }

  /** A walk over the prompt gets to block `k`, counted from one, and finds `e` under its chain. */
  ghost predicate Looked(chain: Hash, es: seq<Entry>, tokens: seq<nat>, size: nat, k: nat, e: Entry) {
    && 0 < k && k * size <= |tokens| && e in es && e.hash == ChainOf(chain, tokens, size, k)
    && forall j: nat | 0 < j < k :: Present(chain, es, tokens, size, j)
  }

  /** The last of the first `n` blocks for which the walk looked at `e`; 0 if there is none. */
  ghost function LastLook(chain: Hash, es: seq<Entry>, tokens: seq<nat>, size: nat, n: nat, e: Entry): (k: nat)
    ensures k <= n
    ensures k > 0 ==> Looked(chain, es, tokens, size, k, e)
    ensures forall j: nat | k < j <= n :: !Looked(chain, es, tokens, size, j, e)
  {
    if n == 0 || Looked(chain, es, tokens, size, n, e) then n else LastLook(chain, es, tokens, size, n - 1, e)
  }

  ghost predicate Before(es: seq<Entry>, a: Entry, b: Entry) {
    exists i, j | 0 <= i < j < |es| :: es[i] == a && es[j] == b
  }

  /** Entry `a` has to go before `b`: its last look is earlier, or neither was looked at and it was older. */
  ghost predicate Staler(chain: Hash, es: seq<Entry>, tokens: seq<nat>, size: nat, n: nat, a: Entry, b: Entry) {
    var p, q := LastLook(chain, es, tokens, size, n, a), LastLook(chain, es, tokens, size, n, b);
    p < q || (p == 0 && q == 0 && Before(es, a, b))
  }

  /** The entries of `es` by their last look in a walk over the first `n` blocks: those not looked at in their old
      order, then those looked at in the prompt's order. */
  ghost predicate ByLastLook(chain: Hash, es: seq<Entry>, tokens: seq<nat>, size: nat, n: nat, fs: seq<Entry>) {
    && multiset(fs) == multiset(es)
    && forall p, q | 0 <= p < q < |fs| :: Staler(chain, es, tokens, size, n, fs[p], fs[q])
  }

  lemma {:induction false} UnlookedOrder(chain: Hash, es: seq<Entry>, tokens: seq<nat>, size: nat)
    ensures ByLastLook(chain, es, tokens, size, 0, es)
  {
  }

  lemma {:induction false} PresentIsCached(chain: Hash, es: seq<Entry>, cur: seq<Entry>, tokens: seq<nat>, size: nat,
        i: nat)
    requires (i + 1) * size <= |tokens| && Keyed(cur) && multiset(cur) == multiset(es)
    ensures var found := Find(cur, ChainOf(chain, tokens, size, i + 1));
      && (Present(chain, es, tokens, size, i + 1)
          <==> found.Some? && cur[found.value].blockTokens == BlockOf(tokens, size, i))
      && (found.Some? ==> cur[found.value] in es && cur[found.value].hash == ChainOf(chain, tokens, size, i + 1))
      && (forall e | e in es && e.hash == ChainOf(chain, tokens, size, i + 1) ::
          found.Some? && e == cur[found.value])
  {
    hide Find, ChainOf;
    BlockFits(i, size);
    SameEntries(es, cur);
  }

  /** One more look. */
  lemma {:induction false} LookMoves(chain: Hash, es: seq<Entry>, cur: seq<Entry>, tokens: seq<nat>, size: nat, i: nat,
        f: nat)
    requires ByLastLook(chain, es, tokens, size, i, cur) && Keyed(cur) && f < |cur|
    requires Looked(chain, es, tokens, size, i + 1, cur[f])
    ensures ByLastLook(chain, es, tokens, size, i + 1, Refreshed(cur, f))
  {
    hide Looked, Before;
    var next, e := Refreshed(cur, f), cur[f];
    RefreshedKeeps(cur, f);
    forall p | 0 <= p < |cur| && p != f
      ensures LastLook(chain, es, tokens, size, i + 1, cur[p]) == LastLook(chain, es, tokens, size, i, cur[p])
    {
      OneHash(chain, es, tokens, size, i + 1, cur[f], cur[p]);
    }
    forall p, q | 0 <= p < q < |next|
      ensures Staler(chain, es, tokens, size, i + 1, next[p], next[q])
    {
      var p', q' := if p < f then p else p + 1, if q < f then q else q + 1;
      assert next[p] == cur[p'];
      if q < |next| - 1 {
        assert next[q] == cur[q'];
        assert Staler(chain, es, tokens, size, i, cur[p'], cur[q']);
      }
    }
  }

  lemma {:induction false} OneHash(chain: Hash, es: seq<Entry>, tokens: seq<nat>, size: nat, k: nat, a: Entry, b: Entry)
    requires Looked(chain, es, tokens, size, k, a) && a.hash != b.hash
    ensures !Looked(chain, es, tokens, size, k, b)
  {
    hide ChainOf;
  }

  /** Past the block where a walk stops nothing is looked at. */
  lemma {:induction false} NoMoreLooks(chain: Hash, es: seq<Entry>, tokens: seq<nat>, size: nat, i: nat, n: nat,
        fs: seq<Entry>)
    requires i <= n && ByLastLook(chain, es, tokens, size, i, fs)
    requires forall k: nat, e | i < k <= n :: !Looked(chain, es, tokens, size, k, e)
    ensures ByLastLook(chain, es, tokens, size, n, fs)
    decreases n - i
  {
    hide Looked, Before;
    if i < n {
      forall e
        ensures LastLook(chain, es, tokens, size, i + 1, e) == LastLook(chain, es, tokens, size, i, e)
      {
        assert !Looked(chain, es, tokens, size, i + 1, e);
      }
      forall p, q | 0 <= p < q < |fs|
        ensures Staler(chain, es, tokens, size, i + 1, fs[p], fs[q])
      {
        assert Staler(chain, es, tokens, size, i, fs[p], fs[q]);
      }
      NoMoreLooks(chain, es, tokens, size, i + 1, n, fs);
    }
  }

  /** A walk from block `i` on, which the walk over `es` has got to with the order `cur`. */
  lemma {:induction false} WalkedByLook(chain: Hash, es: seq<Entry>, cur: seq<Entry>, tokens: seq<nat>, size: nat,
        n: nat, i: nat)
    requires n * size <= |tokens| && i <= n && size > 0 && Keyed(cur)
    requires ByLastLook(chain, es, tokens, size, i, cur)
    requires forall j: nat | 0 < j <= i :: Present(chain, es, tokens, size, j)
    ensures ByLastLook(chain, es, tokens, size, n, Walked(chain, cur, tokens, size, n, i))
    decreases n - i
  {
    hide Find, ChainOf, Present, LastLook, Before, Staler, Refreshed, BlockOf, Keyed;
    if i < n {
      BlocksFit(n, size, i + 1, |tokens|);
      PresentIsCached(chain, es, cur, tokens, size, i);
      var found := Find(cur, ChainOf(chain, tokens, size, i + 1));
      if found.None? {
        NoMoreLooks(chain, es, tokens, size, i, n, cur);
      } else {
        var next := Refreshed(cur, found.value);
        LookMoves(chain, es, cur, tokens, size, i, found.value);
        RefreshedKeeps(cur, found.value);
        if cur[found.value].blockTokens == BlockOf(tokens, size, i) {
          WalkedByLook(chain, es, next, tokens, size, n, i + 1);
        } else {
          NoMoreLooks(chain, es, tokens, size, i + 1, n, next);
        }
      }
    }
  }

  /** Theorem: with the entries so ordered, the next to go after `k` evictions was looked at only if every entry left
      was. */
  lemma {:induction false} LookedAtGoLast(chain: Hash, es: seq<Entry>, tokens: seq<nat>, size: nat, n: nat,
        fs: seq<Entry>, k: nat, e: Entry)
    requires ByLastLook(chain, es, tokens, size, n, fs) && k < |fs| && e in fs[k..]
    ensures LastLook(chain, es, tokens, size, n, fs[k]) > 0 ==> LastLook(chain, es, tokens, size, n, e) > 0
  {
    hide LastLook, Before;
    var q :| 0 <= q < |fs[k..]| && fs[k..][q] == e;
    if q > 0 {
      assert Staler(chain, es, tokens, size, n, fs[k], fs[k + q]);
    }
  }

  // ----- references

  /** The references layer `l` has from the entries. */
  function Held(es: seq<Entry>, l: nat): multiset<nat> {
    if es == [] then multiset{}
    else Held(es[..|es| - 1], l) + HeldBy(es[|es| - 1], l)
  }

  function HeldBy(e: Entry, l: nat): multiset<nat> {
    if l < |e.blockIds| then multiset{e.blockIds[l]} else multiset{}
  }

  lemma {:induction false} HeldConcat(es: seq<Entry>, fs: seq<Entry>, l: nat)
    ensures Held(es + fs, l) == Held(es, l) + Held(fs, l)
    decreases |fs|
  {
    hide HeldBy;
    if fs == [] {
      assert es + fs == es;
    } else {
      var init, last := fs[..|fs| - 1], fs[|fs| - 1];
      HeldConcat(es, init, l);
      assert (es + fs)[..|es + fs| - 1] == es + init;
      assert Held(es + fs, l) == Held(es + init, l) + HeldBy(last, l);
      SumsRegroup(Held(es, l), Held(init, l), HeldBy(last, l));
    }
  }

  lemma {:induction false} SumsRegroup(a: multiset<nat>, b: multiset<nat>, c: multiset<nat>)
    ensures (a + b) + c == a + (b + c)
  {
  }

  lemma {:induction false} HeldOne(e: Entry, l: nat)
    ensures Held([e], l) == HeldBy(e, l)
  {
    assert [e][..0] == [];
  }

  lemma {:induction false} HeldRefreshed(es: seq<Entry>, i: nat, l: nat)
    requires i < |es|
    ensures Held(Refreshed(es, i), l) == Held(es, l)
  {
    hide Held;
    assert es == es[..i] + ([es[i]] + es[i + 1..]);
    HeldConcat(es[..i], [es[i]] + es[i + 1..], l);
    HeldConcat([es[i]], es[i + 1..], l);
    HeldConcat(es[..i] + es[i + 1..], [es[i]], l);
    HeldConcat(es[..i], es[i + 1..], l);
  }

  lemma {:induction false} HeldWalked(chain: Hash, es: seq<Entry>, tokens: seq<nat>, size: nat, n: nat, i: nat, l: nat)
    requires n * size <= |tokens| && i <= n && size > 0
    ensures Held(Walked(chain, es, tokens, size, n, i), l) == Held(es, l)
    decreases n - i
  {
    hide Held, Refreshed;
    if i < n {
      BlocksFit(n, size, i + 1, |tokens|);
      var found := Find(es, ChainOf(chain, tokens, size, i + 1));
      if found.Some? {
        HeldRefreshed(es, found.value, l);
        HeldWalked(chain, Refreshed(es, found.value), tokens, size, n, i + 1, l);
      }
    }
  }

  // ----- where an entry comes from

  /** A block registered as the last of a prompt prefix of `blocks` blocks. */
  datatype Registration = Registration(prefix: seq<nat>, blocks: nat, ids: seq<nat>)

  ghost predicate Registered(chain: Hash, size: nat, log: set<Registration>, e: Entry) {
    exists r | r in log :: RegisteredAs(chain, size, r, e)
  }

  /** The entry carries the chain of `r.prefix` and the tokens of its last block. */
  ghost predicate RegisteredAs(chain: Hash, size: nat, r: Registration, e: Entry) {
    && 0 < r.blocks && r.blocks * size == |r.prefix| && r.ids == e.blockIds
    && ChainOf(chain, r.prefix, size, r.blocks) == e.hash
    && e.blockTokens == BlockOf(r.prefix, size, r.blocks - 1)
  }

  /** A walk over the prompt gets through its first `i` blocks. */
  ghost predicate Reached(chain: Hash, es: seq<Entry>, tokens: seq<nat>, size: nat, i: nat) {
    forall k: nat | 0 < k <= i && k * size <= |tokens| :: IsCached(chain, es, tokens, size, k)
  }

  ghost predicate IsCached(chain: Hash, es: seq<Entry>, tokens: seq<nat>, size: nat, k: nat)
    requires 0 < k && k * size <= |tokens|
  {
    var found := Find(es, ChainOf(chain, tokens, size, k));
    found.Some? && es[found.value].blockTokens == BlockOf(tokens, size, k - 1)
  }

  lemma {:induction false} ReachedIsConsistent(chain: Hash, es: seq<Entry>, tokens: seq<nat>, size: nat, i: nat)
    requires Reached(chain, es, tokens, size, i)
    ensures Consistent(chain, size, tokens, i)
  {
    hide ChainOf, BlockOf, Find;
    forall j: nat, k: nat | j <= i && k <= i && SameChain(chain, size, tokens, j, tokens, k)
      ensures SameLast(size, tokens, j, tokens, k)
    {
      assert IsCached(chain, es, tokens, size, j) && IsCached(chain, es, tokens, size, k);
    }
  }

  lemma {:induction false} ConsistentPrefix(chain: Hash, size: nat, tokens: seq<nat>, n: nat)
    requires n * size <= |tokens| && Consistent(chain, size, tokens, n)
    ensures Consistent(chain, size, tokens[..n * size], n)
  {
    hide ChainOf, BlockOf;
    var b := tokens[..n * size];
    forall i: nat, j: nat | i <= n && j <= n && SameChain(chain, size, b, i, b, j)
      ensures SameLast(size, b, i, b, j)
    {
      PrefixBlock(chain, size, tokens, n, i);
      PrefixBlock(chain, size, tokens, n, j);
      assert SameChain(chain, size, tokens, i, tokens, j);
      assert SameLast(size, tokens, i, tokens, j);
    }
  }

  /** Chain and last block of `i` blocks are those of the prefix. */
  lemma {:induction false} PrefixBlock(chain: Hash, size: nat, tokens: seq<nat>, n: nat, i: nat)
    requires n * size <= |tokens| && 0 < i && i * size <= n * size
    ensures ChainOf(chain, tokens[..n * size], size, i) == ChainOf(chain, tokens, size, i)
    ensures BlockOf(tokens[..n * size], size, i - 1) == BlockOf(tokens, size, i - 1)
  {
    hide ChainOf;
    assert tokens[..n * size][..i * size] == tokens[..i * size];
    SamePrefixChain(chain, tokens[..n * size], tokens, size, i);
    BlockFits(i - 1, size);
  }

  /** Theorem: where no registered prefix is confusable with the prompt's, the block matched at index `i` was registered
      for exactly the prompt's first `i + 1` blocks. */
  lemma {:induction false} HitsAreSound(chain: Hash, es: seq<Entry>, log: set<Registration>, tokens: seq<nat>,
        size: nat, n: nat, i: nat)
    requires n * size <= |tokens| && i <= n && size > 0 && Reached(chain, es, tokens, size, i)
    requires forall e | e in es :: Registered(chain, size, log, e)
    requires forall r | r in log :: Distinguishes(chain, size, r.prefix, tokens)
    ensures forall j: nat | j < |Hits(chain, es, tokens, size, n, i)| ::
      MatchesPrefix(log, tokens, size, i + j, Hits(chain, es, tokens, size, n, i)[j])
    decreases n - i
  {
    hide ChainOf, Distinguishes, Registered, Find, BlockOf, IsCached, Consistent;
    var ids := Hits(chain, es, tokens, size, n, i);
    if ids != [] {
      BlocksFit(n, size, i + 1, |tokens|);
      var found := Find(es, ChainOf(chain, tokens, size, i + 1));
      OneMoreReached(chain, es, tokens, size, i);
      ReachedIsConsistent(chain, es, tokens, size, i + 1);
      EntryIsSound(chain, es[found.value], log, tokens, size, i);
      HitsAreSound(chain, es, log, tokens, size, n, i + 1);
      forall j: nat | j < |ids|
        ensures MatchesPrefix(log, tokens, size, i + j, ids[j])
      {
        if j > 0 {
          assert MatchesPrefix(log, tokens, size, i + 1 + (j - 1), Hits(chain, es, tokens, size, n, i + 1)[j - 1]);
        }
      }
    }
  }

  lemma {:induction false} OneMoreReached(chain: Hash, es: seq<Entry>, tokens: seq<nat>, size: nat, i: nat)
    requires (i + 1) * size <= |tokens| && Reached(chain, es, tokens, size, i)
    ensures var found := Find(es, ChainOf(chain, tokens, size, i + 1));
      found.Some? && es[found.value].blockTokens == BlockOf(tokens, size, i)
      <==> Reached(chain, es, tokens, size, i + 1)
  {
    hide ChainOf, BlockOf, Find;
    assert IsCached(chain, es, tokens, size, i + 1) <==>
      var found := Find(es, ChainOf(chain, tokens, size, i + 1));
      found.Some? && es[found.value].blockTokens == BlockOf(tokens, size, i);
  }

  /** The start of a walk. */
  lemma {:induction false} NothingReached(chain: Hash, es: seq<Entry>, tokens: seq<nat>, size: nat)
    ensures Reached(chain, es, tokens, size, 0)
  {
  }

  lemma {:induction false} EntryIsSound(chain: Hash, e: Entry, log: set<Registration>, tokens: seq<nat>, size: nat,
        i: nat)
    requires (i + 1) * size <= |tokens| && e.hash == ChainOf(chain, tokens, size, i + 1)
    requires e.blockTokens == BlockOf(tokens, size, i) && Consistent(chain, size, tokens, i + 1)
    requires Registered(chain, size, log, e)
    requires forall r | r in log :: Distinguishes(chain, size, r.prefix, tokens)
    ensures MatchesPrefix(log, tokens, size, i, e.blockIds)
  {
    hide ChainOf, BlockOf, Consistent;
    var r :| r in log && RegisteredAs(chain, size, r, e);
    assert Distinguishes(chain, size, r.prefix, tokens);
    AsRegistered(chain, e, r, tokens, size, i);
  }

  /** An entry that matches a block of the prompt was registered for the prompt's own prefix. */
  lemma {:induction false} AsRegistered(chain: Hash, e: Entry, r: Registration, tokens: seq<nat>, size: nat, i: nat)
    requires (i + 1) * size <= |tokens| && e.hash == ChainOf(chain, tokens, size, i + 1)
    requires e.blockTokens == BlockOf(tokens, size, i) && Consistent(chain, size, tokens, i + 1)
    requires RegisteredAs(chain, size, r, e) && Distinguishes(chain, size, r.prefix, tokens)
    ensures r.prefix == tokens[..(i + 1) * size]
  {
    hide ChainOf, BlockOf, Consistent;
    var b := tokens[..(i + 1) * size];
    assert r.prefix[..r.blocks * size] == r.prefix;
    PrefixBlock(chain, size, tokens, i + 1, i + 1);
    ConsistentPrefix(chain, size, tokens, i + 1);
    assert !Confusable(chain, size, r.prefix, r.blocks, b, i + 1);
    assert SameChain(chain, size, r.prefix, r.blocks, b, i + 1) && SameLast(size, r.prefix, r.blocks, b, i + 1);
  }

  ghost predicate MatchesPrefix(log: set<Registration>, tokens: seq<nat>, size: nat, i: nat, ids: seq<nat>) {
    && (i + 1) * size <= |tokens|
    && exists r | r in log :: r.prefix == tokens[..(i + 1) * size] && r.ids == ids
  }

  // ----- registering

  /** A new entry in an LRU of `capacity`; the least recently used one makes room. */
  function Pushed(es: seq<Entry>, capacity: nat, e: Entry): seq<Entry> {
    if |es| >= capacity && es != [] then es[1..] + [e] else es + [e]
  }

  /** The entries after blocks `start + i` and on are registered. */
  function Grown(chain: Hash, es: seq<Entry>, capacity: nat, tokens: seq<nat>, size: nat, start: nat,
        ids: seq<seq<nat>>, i: nat): seq<Entry>
    requires (start + |ids|) * size <= |tokens| && i <= |ids| && size > 0
    decreases |ids| - i
  {
    if i == |ids| then es else
      BlocksFit(start + |ids|, size, start + i + 1, |tokens|);
      var h := ChainOf(chain, tokens, size, start + i + 1);
      var next := if Find(es, h).Some? then es
                  else Pushed(es, capacity, Entry(h, ids[i], BlockOf(tokens, size, start + i)));
      Grown(chain, next, capacity, tokens, size, start, ids, i + 1)
  }

  lemma {:induction false} PushedKeeps(es: seq<Entry>, capacity: nat, e: Entry)
    requires Keyed(es) && |es| <= capacity && capacity > 0 && Find(es, e.hash).None?
    ensures Keyed(Pushed(es, capacity, e)) && |Pushed(es, capacity, e)| <= capacity
    ensures forall f | f in Pushed(es, capacity, e) :: f == e || f in es
  {
  }

  ghost predicate PushedBalance(es: seq<Entry>, capacity: nat, e: Entry, l: nat) {
    if |es| >= capacity && es != []
      then Held(Pushed(es, capacity, e), l) + HeldBy(es[0], l) == Held(es, l) + HeldBy(e, l)
      else Held(Pushed(es, capacity, e), l) == Held(es, l) + HeldBy(e, l)
  }

  /** A registration of one of the blocks being recorded. */
  ghost predicate IsNew(tokens: seq<nat>, size: nat, start: nat, ids: seq<seq<nat>>, r: Registration) {
    exists i: nat | i < |ids| && (start + i + 1) * size <= |tokens| ::
      r == Registration(tokens[..(start + i + 1) * size], start + i + 1, ids[i])
  }

  /** An entry for one of the blocks being recorded, with its registration. */
  ghost predicate IsRecorded(chain: Hash, tokens: seq<nat>, size: nat, start: nat, ids: seq<seq<nat>>,
        log: set<Registration>, e: Entry) {
    exists i: nat | i < |ids| && (start + i + 1) * size <= |tokens| ::
      && e.hash == ChainOf(chain, tokens, size, start + i + 1) && e.blockIds == ids[i]
      && e.blockTokens == BlockOf(tokens, size, start + i)
      && Registration(tokens[..(start + i + 1) * size], start + i + 1, ids[i]) in log
  }

  lemma {:induction false} StillRecorded(chain: Hash, tokens: seq<nat>, size: nat, start: nat, ids: seq<seq<nat>>,
        a: set<Registration>, b: set<Registration>)
    requires a <= b
    ensures forall e ::
      IsRecorded(chain, tokens, size, start, ids, a, e) ==> IsRecorded(chain, tokens, size, start, ids, b, e)
  {
    hide ChainOf;
  }

  /** A chain only looks at the blocks it covers. */
  lemma {:induction false} SamePrefixChain(chain: Hash, tokens: seq<nat>, prefix: seq<nat>, size: nat, n: nat)
    requires n * size <= |tokens| && |prefix| >= n * size && tokens[..n * size] == prefix[..n * size]
    ensures ChainOf(chain, tokens, size, n) == ChainOf(chain, prefix, size, n)
  {
    if n > 0 {
      BlockFits(n - 1, size);
      assert tokens[..(n - 1) * size] == tokens[..n * size][..(n - 1) * size];
      assert prefix[..(n - 1) * size] == prefix[..n * size][..(n - 1) * size];
      SamePrefixChain(chain, tokens, prefix, size, n - 1);
      assert tokens[(n - 1) * size..n * size] == tokens[..n * size][(n - 1) * size..];
      assert prefix[(n - 1) * size..n * size] == prefix[..n * size][(n - 1) * size..];
    }
  }

  lemma {:induction false} ChainStep(chain: Hash, tokens: seq<nat>, size: nat, b: nat)
    requires (b + 1) * size <= |tokens| && b * size <= |tokens|
    ensures ChainOf(chain, tokens, size, b + 1) == chain(BlockOf(tokens, size, b), ChainOf(chain, tokens, size, b))
  {
  }

  lemma {:induction false} GrownStep(chain: Hash, es: seq<Entry>, capacity: nat, tokens: seq<nat>, size: nat,
        start: nat, ids: seq<seq<nat>>, i: nat)
    requires (start + |ids|) * size <= |tokens| && i <= |ids| && size > 0
    requires i < |ids| ==> (start + i + 1) * size <= |tokens|
    ensures Grown(chain, es, capacity, tokens, size, start, ids, i) == if i == |ids| then es else
      var h := ChainOf(chain, tokens, size, start + i + 1);
      var next := if Find(es, h).Some? then es
                  else Pushed(es, capacity, Entry(h, ids[i], BlockOf(tokens, size, start + i)));
      Grown(chain, next, capacity, tokens, size, start, ids, i + 1)
  {
  }

  // ----- the order in which blocks are recorded

  /** The `capacity` entries that came last. */
  function Latest(es: seq<Entry>, capacity: nat): (last: seq<Entry>) {
    if |es| <= capacity then es else es[|es| - capacity..]
  }

  /** `made[i]` of the new entries are from the first `i` blocks; block `i` makes the next one unless its chain is
      among the entries left by then. */
  ghost predicate MadeAt(chain: Hash, es: seq<Entry>, capacity: nat, tokens: seq<nat>, size: nat, start: nat,
        ids: seq<seq<nat>>, news: seq<Entry>, made: seq<nat>, i: nat) {
    && i < |ids| && i + 1 < |made| && made[i] <= |news| && HasBlock(tokens, size, start + i)
    && var h := ChainOf(chain, tokens, size, start + i + 1);
      if exists e | e in Latest(es + news[..made[i]], capacity) :: e.hash == h then made[i + 1] == made[i]
      else
        && made[i + 1] == made[i] + 1 <= |news|
        && news[made[i]].hash == h && news[made[i]].blockIds == ids[i]
        && IsBlock(tokens, size, start + i, news[made[i]].blockTokens)
  }

  predicate HasBlock(tokens: seq<nat>, size: nat, k: nat) {
    (k + 1) * size <= |tokens|
  }

  /** These are the tokens of the prompt's block `k`. */
  predicate IsBlock(tokens: seq<nat>, size: nat, k: nat, block: seq<nat>) {
    |block| == size && forall j | 0 <= j < size :: k * size + j < |tokens| && block[j] == tokens[k * size + j]
  }

  ghost predicate MadeUpTo(chain: Hash, es: seq<Entry>, capacity: nat, tokens: seq<nat>, size: nat, start: nat,
        ids: seq<seq<nat>>, news: seq<Entry>, made: seq<nat>, n: nat) {
    && |made| == n + 1 && made[0] == 0 && made[n] == |news|
    && forall i: nat | i < n :: MadeAt(chain, es, capacity, tokens, size, start, ids, news, made, i)
  }

  lemma {:induction false} PushedIsLatest(es: seq<Entry>, news: seq<Entry>, capacity: nat, e: Entry)
    requires capacity > 0
    ensures Pushed(Latest(es + news, capacity), capacity, e) == Latest(es + (news + [e]), capacity)
  {
    assert es + (news + [e]) == (es + news) + [e];
  }

  /** Theorem: what is recorded is a list of new entries in block order, one for each block whose chain is not there
      when its turn comes; the last `capacity` of the old entries and these are left. */
  lemma {:induction false} RecordedInOrder(chain: Hash, es: seq<Entry>, capacity: nat, tokens: seq<nat>, size: nat,
        start: nat, ids: seq<seq<nat>>)
    returns (news: seq<Entry>, made: seq<nat>)
    requires (start + |ids|) * size <= |tokens| && size > 0 && 0 < capacity && |es| <= capacity
    ensures MadeUpTo(chain, es, capacity, tokens, size, start, ids, news, made, |ids|)
    ensures Grown(chain, es, capacity, tokens, size, start, ids, 0) == Latest(es + news, capacity)
  {
    hide ChainOf, Find, Pushed, MadeAt;
    news, made := [], [0];
    assert es + news == es;
    var cur := es;
    var i := 0;
    while i < |ids|
      invariant i <= |ids| && cur == Latest(es + news, capacity)
      invariant MadeUpTo(chain, es, capacity, tokens, size, start, ids, news, made, i)
      invariant Grown(chain, cur, capacity, tokens, size, start, ids, i)
        == Grown(chain, es, capacity, tokens, size, start, ids, 0)
    {
      BlocksFit(start + |ids|, size, start + i + 1, |tokens|);
      GrownStep(chain, cur, capacity, tokens, size, start, ids, i);
      cur, news, made := RecordOne(chain, es, capacity, tokens, size, start, ids, news, made, i);
      i := i + 1;
    }
  }

  lemma {:induction false} RecordOne(chain: Hash, es: seq<Entry>, capacity: nat, tokens: seq<nat>, size: nat,
        start: nat, ids: seq<seq<nat>>, news: seq<Entry>, made: seq<nat>, i: nat)
    returns (cur: seq<Entry>, news': seq<Entry>, made': seq<nat>)
    requires i < |ids| && (start + i + 1) * size <= |tokens| && 0 < capacity
    requires MadeUpTo(chain, es, capacity, tokens, size, start, ids, news, made, i)
    ensures MadeUpTo(chain, es, capacity, tokens, size, start, ids, news', made', i + 1)
    ensures cur == Latest(es + news', capacity)
    ensures var h := ChainOf(chain, tokens, size, start + i + 1);
      var was := Latest(es + news, capacity);
      cur == if Find(was, h).Some? then was
             else Pushed(was, capacity, Entry(h, ids[i], BlockOf(tokens, size, start + i)))
  {
    hide ChainOf, Pushed, Latest;
    BlockFits(start + i, size);
    var h := ChainOf(chain, tokens, size, start + i + 1);
    var e := Entry(h, ids[i], BlockOf(tokens, size, start + i));
    var found := Find(Latest(es + news, capacity), h);
    news' := if found.Some? then news else news + [e];
    made' := made + [|news'|];
    cur := Latest(es + news', capacity);
    PushedIsLatest(es, news, capacity, e);
    assert news'[..|news|] == news && news[..|news|] == news;
    if found.Some? {
      assert Latest(es + news, capacity)[found.value] in Latest(es + news, capacity);
    }
    forall j: nat | j < i
      ensures MadeAt(chain, es, capacity, tokens, size, start, ids, news', made', j)
    {
      assert MadeAt(chain, es, capacity, tokens, size, start, ids, news, made, j);
      assert news'[..made[j]] == news[..made[j]];
    }
    assert IsBlock(tokens, size, start + i, e.blockTokens);
    assert MadeAt(chain, es, capacity, tokens, size, start, ids, news', made', i);
  }

  lemma {:induction false} HeldPushed(es: seq<Entry>, capacity: nat, e: Entry, l: nat)
    ensures PushedBalance(es, capacity, e, l)
  {
    hide Held, HeldBy;
    HeldOne(e, l);
    HeldConcat(es, [e], l);
    if es != [] {
      HeldFirst(es, l);
      HeldConcat(es[1..], [e], l);
    }
  }

  lemma {:induction false} HeldFirst(es: seq<Entry>, l: nat)
    requires es != []
    ensures Held(es, l) == HeldBy(es[0], l) + Held(es[1..], l)
  {
    hide Held, HeldBy;
    assert es == [es[0]] + es[1..];
    HeldConcat([es[0]], es[1..], l);
    HeldOne(es[0], l);
  }

  ghost predicate Distinct(allocs: seq<BlockAllocator>) {
    forall i, j | 0 <= i < j < |allocs| :: allocs[i] != allocs[j]
  }

  ghost predicate AllValid(allocs: seq<BlockAllocator>)
    reads allocs
  {
    forall l | 0 <= l < |allocs| :: allocs[l].Valid()
  }

  /** What every layer's blocks hold. */
  ghost function DataOf(allocs: seq<BlockAllocator>): (ds: seq<Memory>)
    reads allocs
    ensures |ds| == |allocs| && forall l | 0 <= l < |allocs| :: ds[l] == allocs[l].data
  {
    seq(|allocs|, l requires 0 <= l < |allocs| reads allocs => allocs[l].data)
  }

  /** Every layer's references are the cache's and those of `others`, the running sequences. */
  ghost predicate Balanced(es: seq<Entry>, allocs: seq<BlockAllocator>, others: seq<multiset<nat>>)
    reads allocs
  {
    && |others| == |allocs|
    && forall l | 0 <= l < |allocs| :: allocs[l].refs == others[l] + Held(es, l)
  }

  /** The sequence that computed a block still holds it in every layer. */
  predicate HeldElsewhere(ids: seq<nat>, others: seq<multiset<nat>>) {
    forall l | 0 <= l < |ids| && l < |others| :: ids[l] in others[l]
  }

  method ShareIn(allocs: seq<BlockAllocator>, k: nat, id: nat)
    requires Distinct(allocs) && k < |allocs| && AllValid(allocs) && id in allocs[k].refs
    modifies allocs[k]
    ensures AllValid(allocs)
    ensures allocs[k].refs == old(allocs[k].refs) + multiset{id} && allocs[k].data == old(allocs[k].data)
  {
    hide BlockAllocator.Valid;
    allocs[k].Share(id);
  }

  method FreeIn(allocs: seq<BlockAllocator>, ids: seq<nat>, k: nat, ghost left: multiset<nat>)
    requires Distinct(allocs) && k < |allocs| && k < |ids| && AllValid(allocs)
    requires LeftAfter(ids, k, allocs[k].refs, left)
    modifies allocs[k]
    ensures AllValid(allocs)
    ensures allocs[k].refs == left && allocs[k].data == old(allocs[k].data)
  {
    hide BlockAllocator.Valid;
    allocs[k].Free(ids[k]);
  }

  method ShareAll(ids: seq<nat>, allocs: seq<BlockAllocator>)
    requires Distinct(allocs) && |ids| == |allocs|
    requires forall l | 0 <= l < |ids| :: ids[l] in allocs[l].refs
    requires AllValid(allocs)
    modifies allocs
    ensures AllValid(allocs) && DataOf(allocs) == old(DataOf(allocs))
    ensures forall l | 0 <= l < |allocs| :: allocs[l].refs == old(allocs[l].refs) + multiset{ids[l]}
  {
    hide AllValid, DataOf;
    for k := 0 to |ids|
      invariant forall l | 0 <= l < k :: allocs[l].refs == old(allocs[l].refs) + multiset{ids[l]}
      invariant forall l | k <= l < |allocs| :: allocs[l].refs == old(allocs[l].refs)
      invariant forall l | 0 <= l < |allocs| :: allocs[l].data == old(allocs[l].data)
      invariant AllValid(allocs)
    {
      ShareIn(allocs, k, ids[k]);
    }
  }

  lemma {:induction false} HeldByIs(e: Entry, l: nat, refs: multiset<nat>)
    requires HeldBy(e, l) <= refs
    ensures l < |e.blockIds| ==> e.blockIds[l] in refs && refs - HeldBy(e, l) == refs - multiset{e.blockIds[l]}
    ensures l >= |e.blockIds| ==> refs - HeldBy(e, l) == refs
  {
    if l < |e.blockIds| {
      assert e.blockIds[l] in HeldBy(e, l);
    }
  }

  /** What is left of a layer's references when the layer's block in `ids`, if any, is given up. */
  ghost predicate LeftAfter(ids: seq<nat>, l: nat, refs: multiset<nat>, left: multiset<nat>) {
    if l < |ids| then ids[l] in refs && left == refs - multiset{ids[l]} else left == refs
  }

  method FreeIds(ids: seq<nat>, allocs: seq<BlockAllocator>, ghost left: seq<multiset<nat>>)
    requires Distinct(allocs) && AllValid(allocs) && |left| == |allocs|
    requires forall l: nat | l < |allocs| :: LeftAfter(ids, l, allocs[l].refs, left[l])
    modifies allocs
    ensures AllValid(allocs)
    ensures forall l: nat | l < |allocs| :: allocs[l].refs == left[l] && allocs[l].data == old(allocs[l].data)
  {
    hide AllValid, LeftAfter;
    for k := 0 to |ids|
      invariant forall l: nat | l < k && l < |allocs| :: allocs[l].refs == left[l]
      invariant forall l: nat | k <= l < |allocs| :: allocs[l].refs == old(allocs[l].refs)
      invariant forall l: nat | l < |allocs| :: allocs[l].data == old(allocs[l].data)
      invariant AllValid(allocs)
    {
      if k < |allocs| {
        assert LeftAfter(ids, k, allocs[k].refs, left[k]);
        FreeIn(allocs, ids, k, left[k]);
      }
    }
    forall l: nat | |ids| <= l < |allocs|
      ensures allocs[l].refs == left[l]
    {
      NothingGivenUp(ids, l, allocs[l].refs, left[l]);
    }
  }

  lemma {:induction false} NothingGivenUp(ids: seq<nat>, l: nat, refs: multiset<nat>, left: multiset<nat>)
    requires LeftAfter(ids, l, refs, left) && l >= |ids|
    ensures left == refs
  {
  }

  method FreeEntry(e: Entry, allocs: seq<BlockAllocator>)
    requires Distinct(allocs)
    requires forall l: nat | l < |allocs| :: HeldBy(e, l) <= allocs[l].refs
    requires AllValid(allocs)
    modifies allocs
    ensures AllValid(allocs) && DataOf(allocs) == old(DataOf(allocs))
    ensures forall l: nat | l < |allocs| :: allocs[l].refs == old(allocs[l].refs) - HeldBy(e, l)
  {
    hide AllValid, DataOf, HeldBy;
    ghost var left := seq(|allocs|, l requires 0 <= l < |allocs| reads allocs => allocs[l].refs - HeldBy(e, l));
    forall l: nat | l < |allocs|
      ensures LeftAfter(e.blockIds, l, allocs[l].refs, left[l])
    {
      HeldByIs(e, l, allocs[l].refs);
    }
    FreeIds(e.blockIds, allocs, left);
  }

  /** At most `capacity` entries under distinct hashes, each registered. */
  ghost predicate Coherent(chain: Hash, size: nat, capacity: nat, es: seq<Entry>, log: set<Registration>) {
    && |es| <= capacity && Keyed(es)
    && forall e | e in es :: Registered(chain, size, log, e)
  }

  lemma {:induction false} CoherentPushed(chain: Hash, size: nat, capacity: nat, es: seq<Entry>, log: set<Registration>,
        e: Entry, r: Registration)
    requires Coherent(chain, size, capacity, es, log) && capacity > 0
    requires Find(es, e.hash).None? && Registered(chain, size, {r}, e)
    ensures Coherent(chain, size, capacity, Pushed(es, capacity, e), log + {r})
  {
    hide ChainOf, Keyed, Pushed;
    PushedKeeps(es, capacity, e);
    forall f | f in Pushed(es, capacity, e)
      ensures Registered(chain, size, log + {r}, f)
    {
      if f == e {
        MoreLog(chain, size, {r}, log + {r}, f);
      } else {
        MoreLog(chain, size, log, log + {r}, f);
      }
    }
  }

  lemma {:induction false} MoreLog(chain: Hash, size: nat, a: set<Registration>, b: set<Registration>, e: Entry)
    requires Registered(chain, size, a, e) && a <= b
    ensures Registered(chain, size, b, e)
  {
    hide RegisteredAs;
    var r :| r in a && RegisteredAs(chain, size, r, e);
    assert r in b;
  }

  /** A layer's references with the new entry's: after the displaced one's are given up, they are in balance. */
  ghost predicate GivesWay(es: seq<Entry>, capacity: nat, e: Entry, l: nat, others: multiset<nat>,
        shared: multiset<nat>) {
    if |es| >= capacity && es != []
      then HeldBy(es[0], l) <= shared && shared - HeldBy(es[0], l) == others + Held(Pushed(es, capacity, e), l)
      else shared == others + Held(Pushed(es, capacity, e), l)
  }

  lemma {:induction false} Displaced(es: seq<Entry>, capacity: nat, e: Entry, l: nat, others: multiset<nat>,
        shared: multiset<nat>)
    requires GivesWay(es, capacity, e, l, others, shared)
    ensures |es| >= capacity && es != [] ==> HeldBy(es[0], l) <= shared
    ensures (if |es| >= capacity && es != [] then shared - HeldBy(es[0], l) else shared)
      == others + Held(Pushed(es, capacity, e), l)
  {
  }

  /** Sharing the new entry's blocks and freeing the displaced one's keeps a layer balanced. */
  lemma {:induction false} InsertBalance(es: seq<Entry>, capacity: nat, e: Entry, l: nat, others: multiset<nat>,
        refs: multiset<nat>)
    requires refs == others + Held(es, l) && l < |e.blockIds|
    ensures GivesWay(es, capacity, e, l, others, refs + multiset{e.blockIds[l]})
  {
    hide Held, Pushed;
    HeldPushed(es, capacity, e, l);
    if es != [] {
      HeldFirst(es, l);
      Cancel(others, Held(es, l), HeldBy(e, l), HeldBy(es[0], l), Held(Pushed(es, capacity, e), l));
    }
  }

  lemma {:induction false} Cancel(o: multiset<nat>, h: multiset<nat>, i: multiset<nat>, b: multiset<nat>,
        h': multiset<nat>)
    ensures h' + b == h + i ==> (o + h) + i - b == o + h'
  {
    if h' + b == h + i {
      forall x
        ensures ((o + h) + i - b)[x] == (o + h')[x]
      {
        assert (h' + b)[x] == (h + i)[x];
      }
    }
  }

  /** The new entry's blocks are shared, the displaced entry's given up. */
  method MakeWay(es: seq<Entry>, capacity: nat, e: Entry, allocs: seq<BlockAllocator>,
        ghost others: seq<multiset<nat>>)
    requires Distinct(allocs) && Balanced(es, allocs, others) && AllValid(allocs)
    requires |e.blockIds| == |allocs| && HeldElsewhere(e.blockIds, others)
    modifies allocs
    ensures AllValid(allocs) && DataOf(allocs) == old(DataOf(allocs))
    ensures Balanced(Pushed(es, capacity, e), allocs, others)
  {
    hide Held, HeldBy, Pushed, AllValid, DataOf, GivesWay, Distinct;
    forall l: nat | l < |allocs|
      ensures GivesWay(es, capacity, e, l, others[l], allocs[l].refs + multiset{e.blockIds[l]})
    {
      InsertBalance(es, capacity, e, l, others[l], allocs[l].refs);
    }
    ShareAll(e.blockIds, allocs);
    forall l: nat | l < |allocs|
      ensures |es| >= capacity && es != [] ==> HeldBy(es[0], l) <= allocs[l].refs
      ensures (if |es| >= capacity && es != [] then allocs[l].refs - HeldBy(es[0], l) else allocs[l].refs)
        == others[l] + Held(Pushed(es, capacity, e), l)
    {
      Displaced(es, capacity, e, l, others[l], allocs[l].refs);
    }
    if |es| >= capacity && es != [] {
      FreeEntry(es[0], allocs);
    }
  }

  class PrefixCache {
    const chain: Hash
    const size: nat
    const capacity: nat
    const disabled: bool
    var entries: seq<Entry>
    ghost var log: set<Registration>

    ghost predicate Valid()
      reads this
    {
      && size > 0 && capacity > 0
      && (disabled ==> entries == [])
      && Coherent(chain, size, capacity, entries, log)
    }

    constructor New(chain: Hash, size: nat, capacity: nat)
      requires size > 0
      ensures Valid() && entries == [] && log == {} && !disabled
      ensures this.chain == chain && this.size == size
    {
      this.chain, this.size := chain, size;
      this.capacity := if capacity < 1 then 1 else capacity;
      disabled := false;
      entries, log := [], {};
    }

    constructor Disabled(chain: Hash, size: nat)
      requires size > 0
      ensures Valid() && entries == [] && log == {} && disabled
    {
      this.chain, this.size, capacity, disabled := chain, size, 1, true;
      entries, log := [], {};
    }

    /** The blocks a walk over the prompt would match now. */
    function Cached(tokens: seq<nat>): seq<seq<nat>>
      requires Valid()
      reads this
    {
      FullBlocks(|tokens|, size);
      Hits(chain, entries, tokens, size, |tokens| / size, 0)
    }

    method CountCachedBlocks(tokens: seq<nat>) returns (count: nat)
      requires Valid()
      ensures count == |Cached(tokens)|
    {
      hide ChainOf, Find, Hits, Coherent;
      var n := |tokens| / size;
      FullBlocks(|tokens|, size);
      if disabled {
        NothingCached(chain, tokens, size, n);
        return 0;
      }
      var prev := 0;
      count := 0;
      ChainStarts(chain, tokens, size);
      while count < n
        invariant count <= n && count * size <= |tokens|
        invariant prev == ChainOf(chain, tokens, size, count)
        invariant count + |Hits(chain, entries, tokens, size, n, count)| == |Cached(tokens)|
      {
        BlocksFit(n, size, count + 1, |tokens|);
        ChainStep(chain, tokens, size, count);
        HitsStep(chain, entries, tokens, size, n, count);
        var block := BlockOf(tokens, size, count);
        var h := chain(block, prev);
        var found := Find(entries, h);
        if found.None? || entries[found.value].blockTokens != block {
          return;
        }
        count := count + 1;
        prev := h;
      }
      WalkEnds(chain, entries, tokens, size, n);
    }

    method Lookup(tokens: seq<nat>) returns (n: nat, matched: seq<seq<nat>>)
      requires Valid()
      modifies `entries
      ensures Valid() && multiset(entries) == multiset(old(entries))
      ensures n == |matched| && matched == old(Cached(tokens)) && Cached(tokens) == old(Cached(tokens))
      ensures forall l: nat :: Held(entries, l) == Held(old(entries), l)
      ensures ByLastLook(chain, old(entries), tokens, size, |tokens| / size, entries)
      ensures (forall r | r in log :: Distinguishes(chain, size, r.prefix, tokens)) ==>
        forall i: nat | i < n :: MatchesPrefix(log, tokens, size, i, matched[i])
    {
      hide Hits, Walked, Find, ChainOf, Keyed, Refreshed, Held, Registered, Distinguishes, MatchesPrefix, Reached,
        BlockOf, ByLastLook;
      var full := |tokens| / size;
      FullBlocks(|tokens|, size);
      matched := [];
      ghost var before := entries;
      WalkFacts(chain, before, tokens, size, full);
      WalkOrders(chain, before, tokens, size, full);
      if (forall r | r in log :: Distinguishes(chain, size, r.prefix, tokens)) {
        NothingReached(chain, before, tokens, size);
        HitsAreSound(chain, before, log, tokens, size, full, 0);
      }
      if disabled {
        NothingCached(chain, tokens, size, full);
        return 0, [];
      }
      var prev := 0;
      var i := 0;
      ChainStarts(chain, tokens, size);
      while i < full
        invariant i <= full && i * size <= |tokens|
        invariant prev == ChainOf(chain, tokens, size, i)
        invariant Keyed(entries)
        invariant Walked(chain, entries, tokens, size, full, i) == Walked(chain, before, tokens, size, full, 0)
        invariant matched + Hits(chain, entries, tokens, size, full, i) == Hits(chain, before, tokens, size, full, 0)
      {
        BlocksFit(full, size, i + 1, |tokens|);
        WalkStep(chain, entries, tokens, size, full, i);
        var block := BlockOf(tokens, size, i);
        var h := chain(block, prev);
        var found := Find(entries, h);
        if found.None? {
          break;
        }
        var entry := entries[found.value];
        entries := Refreshed(entries, found.value);
        if entry.blockTokens != block {
          break;
        }
        matched := matched + [entry.blockIds];
        prev := h;
        i := i + 1;
      }
      if i == full {
        WalkEnds(chain, entries, tokens, size, full);
      }
      n := |matched|;
      SameEntries(before, entries);
    }

    /** Makes the prompt's cached blocks the last to be evicted, in the order a lookup would. */
    method Touch(tokens: seq<nat>)
      requires Valid()
      modifies `entries
      ensures Valid() && multiset(entries) == multiset(old(entries))
      ensures forall l: nat :: Held(entries, l) == Held(old(entries), l)
      ensures Cached(tokens) == old(Cached(tokens))
      ensures |tokens| / size * size <= |tokens|
      ensures !disabled ==> entries == Walked(chain, old(entries), tokens, size, |tokens| / size, 0)
      ensures ByLastLook(chain, old(entries), tokens, size, |tokens| / size, entries)
    {
      hide Hits, Walked, Find, ChainOf, Keyed, Refreshed, Held, Registered, Distinguishes, MatchesPrefix, ByLastLook;
      var full := |tokens| / size;
      FullBlocks(|tokens|, size);
      ghost var before := entries;
      WalkFacts(chain, before, tokens, size, full);
      WalkOrders(chain, before, tokens, size, full);
      if disabled {
        return;
      }
      var prev := 0;
      var i := 0;
      ChainStarts(chain, tokens, size);
      while i < full
        invariant i <= full && i * size <= |tokens|
        invariant prev == ChainOf(chain, tokens, size, i)
        invariant Keyed(entries)
        invariant Walked(chain, entries, tokens, size, full, i) == Walked(chain, before, tokens, size, full, 0)
      {
        BlocksFit(full, size, i + 1, |tokens|);
        WalkStep(chain, entries, tokens, size, full, i);
        var block := BlockOf(tokens, size, i);
        var h := chain(block, prev);
        var found := Find(entries, h);
        if found.None? {
          break;
        }
        var entry := entries[found.value];
        entries := Refreshed(entries, found.value);
        if entry.blockTokens != block {
          break;
        }
        prev := h;
        i := i + 1;
      }
      if i == full {
        WalkEnds(chain, entries, tokens, size, full);
      }
      SameEntries(before, entries);
    }

    /** Records freshly computed blocks; a block whose chain is already there is left as it is. */
    method Register(tokens: seq<nat>, startBlock: nat, newIds: seq<seq<nat>>, allocs: seq<BlockAllocator>,
          ghost others: seq<multiset<nat>>)
      requires Valid() && Distinct(allocs) && Balanced(entries, allocs, others)
      requires (startBlock + |newIds|) * size <= |tokens|
      requires forall i | 0 <= i < |newIds| :: HeldElsewhere(newIds[i], others)
      requires AllValid(allocs)
      modifies `entries, `log, allocs
      ensures AllValid(allocs) && DataOf(allocs) == old(DataOf(allocs))
      ensures Valid() && Balanced(entries, allocs, others)
      ensures var takes := !disabled && forall i | 0 <= i < |newIds| :: |newIds[i]| == |allocs|;
        entries == if takes
          then Grown(chain, old(entries), capacity, tokens, size, startBlock, newIds, 0) else old(entries)
      ensures old(log) <= log
      ensures forall r | r in log && r !in old(log) :: IsNew(tokens, size, startBlock, newIds, r)
      ensures forall e | e in entries && e !in old(entries) ::
        IsRecorded(chain, tokens, size, startBlock, newIds, log, e)
    {
      hide Held, ChainOf, Grown, Coherent, Balanced, Registered;
      if disabled || exists i | 0 <= i < |newIds| :: |newIds[i]| != |allocs| {
        return;
      }
      var n := startBlock + |newIds|;
      var prev := 0;
      ChainStarts(chain, tokens, size);
      var b := 0;
      while b < startBlock
        invariant b <= startBlock && b * size <= |tokens|
        invariant prev == ChainOf(chain, tokens, size, b)
        modifies {}
      {
        BlocksFit(n, size, b + 1, |tokens|);
        ChainStep(chain, tokens, size, b);
        prev := chain(BlockOf(tokens, size, b), prev);
        b := b + 1;
      }
      var i := 0;
      while i < |newIds|
        invariant i <= |newIds| && (startBlock + i) * size <= |tokens|
        invariant prev == ChainOf(chain, tokens, size, startBlock + i)
        invariant Valid() && Balanced(entries, allocs, others)
        invariant Grown(chain, entries, capacity, tokens, size, startBlock, newIds, i)
          == Grown(chain, old(entries), capacity, tokens, size, startBlock, newIds, 0)
        invariant old(log) <= log && AllValid(allocs) && DataOf(allocs) == old(DataOf(allocs))
        invariant forall r | r in log && r !in old(log) :: IsNew(tokens, size, startBlock, newIds, r)
        invariant forall e | e in entries && e !in old(entries) ::
          IsRecorded(chain, tokens, size, startBlock, newIds, log, e)
      {
        BlocksFit(n, size, startBlock + i + 1, |tokens|);
        ghost var before := log;
        prev := RecordBlock(tokens, startBlock, newIds, i, prev, allocs, others);
        StillRecorded(chain, tokens, size, startBlock, newIds, before, log);
        i := i + 1;
      }
      GrownStep(chain, entries, capacity, tokens, size, startBlock, newIds, i);
    }

    method RecordBlock(tokens: seq<nat>, startBlock: nat, newIds: seq<seq<nat>>, i: nat, prev: nat,
          allocs: seq<BlockAllocator>, ghost others: seq<multiset<nat>>)
      returns (h: nat)
      requires Valid() && !disabled && Distinct(allocs) && Balanced(entries, allocs, others)
      requires (startBlock + |newIds|) * size <= |tokens| && i < |newIds|
      requires (startBlock + i + 1) * size <= |tokens| && (startBlock + i) * size <= |tokens|
      requires prev == ChainOf(chain, tokens, size, startBlock + i)
      requires HeldElsewhere(newIds[i], others) && |newIds[i]| == |allocs|
      requires AllValid(allocs)
      modifies `entries, `log, allocs
      ensures AllValid(allocs) && DataOf(allocs) == old(DataOf(allocs))
      ensures Valid() && Balanced(entries, allocs, others)
      ensures h == ChainOf(chain, tokens, size, startBlock + i + 1)
      ensures Grown(chain, entries, capacity, tokens, size, startBlock, newIds, i + 1)
        == Grown(chain, old(entries), capacity, tokens, size, startBlock, newIds, i)
      ensures old(log) <= log
      ensures forall r | r in log && r !in old(log) :: IsNew(tokens, size, startBlock, newIds, r)
      ensures forall e | e in entries && e !in old(entries) ::
        IsRecorded(chain, tokens, size, startBlock, newIds, log, e)
    {
      hide Held, ChainOf, Grown, Coherent, Balanced, Find, HeldElsewhere;
      ChainStep(chain, tokens, size, startBlock + i);
      GrownStep(chain, entries, capacity, tokens, size, startBlock, newIds, i);
      var block := BlockOf(tokens, size, startBlock + i);
      h := chain(block, prev);
      if Find(entries, h).None? {
        ghost var r := Registration(tokens[..(startBlock + i + 1) * size], startBlock + i + 1, newIds[i]);
        SamePrefixChain(chain, tokens, r.prefix, size, startBlock + i + 1);
        assert r in {r};
        Insert(Entry(h, newIds[i], block), allocs, others, r);
      }
    }

    /** A new entry with its references; the entry it pushes out gives up its own. */
    method Insert(e: Entry, allocs: seq<BlockAllocator>, ghost others: seq<multiset<nat>>, ghost r: Registration)
      requires Valid() && !disabled && Distinct(allocs) && Balanced(entries, allocs, others)
      requires Find(entries, e.hash).None? && |e.blockIds| == |allocs|
      requires HeldElsewhere(e.blockIds, others)
      requires Registered(chain, size, {r}, e)
      requires AllValid(allocs)
      modifies `entries, `log, allocs
      ensures AllValid(allocs) && DataOf(allocs) == old(DataOf(allocs))
      ensures Valid() && Balanced(entries, allocs, others)
      ensures entries == Pushed(old(entries), capacity, e) && log == old(log) + {r}
    {
      hide Held, HeldBy, Coherent, Pushed, Registered, Find, AllValid, DataOf, HeldElsewhere, Balanced, Distinct;
      CoherentPushed(chain, size, capacity, entries, log, e, r);
      MakeWay(entries, capacity, e, allocs, others);
      entries := Pushed(entries, capacity, e);
      log := log + {r};
    }

    /** Drops the entry that was used longest ago, and exactly its references. */
    method EvictLru(allocs: seq<BlockAllocator>, ghost others: seq<multiset<nat>>) returns (evicted: bool)
      requires Valid() && Distinct(allocs) && Balanced(entries, allocs, others)
      requires AllValid(allocs)
      modifies `entries, allocs
      ensures AllValid(allocs) && DataOf(allocs) == old(DataOf(allocs))
      ensures Valid() && Balanced(entries, allocs, others)
      ensures evicted <==> !disabled && old(entries) != []
      ensures entries == if evicted then old(entries)[1..] else old(entries)
      ensures forall l: nat | l < |allocs| ::
        allocs[l].refs == if evicted then old(allocs[l].refs) - HeldBy(old(entries)[0], l) else old(allocs[l].refs)
    {
      hide Held;
      if disabled || entries == [] {
        return false;
      }
      var e := entries[0];
      forall l: nat
        ensures Held(entries, l) == HeldBy(e, l) + Held(entries[1..], l)
      {
        HeldFirst(entries, l);
      }
      FreeEntry(e, allocs);
      entries := entries[1..];
      return true;
    }
  }

  lemma {:induction false} HitsStep(chain: Hash, es: seq<Entry>, tokens: seq<nat>, size: nat, n: nat, i: nat)
    requires n * size <= |tokens| && i < n && size > 0 && (i + 1) * size <= |tokens|
    ensures var found := Find(es, ChainOf(chain, tokens, size, i + 1));
      Hits(chain, es, tokens, size, n, i)
      == if found.Some? && es[found.value].blockTokens == BlockOf(tokens, size, i)
         then [es[found.value].blockIds] + Hits(chain, es, tokens, size, n, i + 1) else []
  {
  }

  lemma {:induction false} ChainStarts(chain: Hash, tokens: seq<nat>, size: nat)
    ensures ChainOf(chain, tokens, size, 0) == 0
  {
  }

  lemma {:induction false} SameEntries(before: seq<Entry>, after: seq<Entry>)
    requires multiset(before) == multiset(after)
    ensures |before| == |after|
    ensures forall e :: e in before <==> e in after
  {
    assert forall e :: e in before <==> e in multiset(before);
    assert forall e :: e in after <==> e in multiset(after);
  }

  lemma {:induction false} WalkEnds(chain: Hash, es: seq<Entry>, tokens: seq<nat>, size: nat, n: nat)
    requires n * size <= |tokens| && size > 0
    ensures Walked(chain, es, tokens, size, n, n) == es && Hits(chain, es, tokens, size, n, n) == []
  {
  }

  /** One block of a walk. */
  lemma {:induction false} WalkStep(chain: Hash, es: seq<Entry>, tokens: seq<nat>, size: nat, n: nat, i: nat)
    requires n * size <= |tokens| && i < n && size > 0 && (i + 1) * size <= |tokens| && i * size <= |tokens|
    requires Keyed(es)
    ensures ChainOf(chain, tokens, size, i + 1) == chain(BlockOf(tokens, size, i), ChainOf(chain, tokens, size, i))
    ensures var found := Find(es, ChainOf(chain, tokens, size, i + 1));
      var walked, hits := Walked(chain, es, tokens, size, n, i), Hits(chain, es, tokens, size, n, i);
      if found.None? then walked == es && hits == [] else
        var e, next := es[found.value], Refreshed(es, found.value);
        && Keyed(next)
        && if e.blockTokens == BlockOf(tokens, size, i) then
             && walked == Walked(chain, next, tokens, size, n, i + 1)
             && hits == [e.blockIds] + Hits(chain, next, tokens, size, n, i + 1)
           else walked == next && hits == []
  {
    hide Keyed, Refreshed;
    var found := Find(es, ChainOf(chain, tokens, size, i + 1));
    if found.Some? {
      RefreshedKeeps(es, found.value);
      HitsAnywhere(chain, es, Refreshed(es, found.value), tokens, size, n, i + 1);
    }
  }

  lemma {:induction false} FullBlocks(len: nat, size: nat)
    requires size > 0
    ensures len / size * size <= len
  {
  }

  lemma {:induction false} NothingCached(chain: Hash, tokens: seq<nat>, size: nat, n: nat)
    requires n * size <= |tokens| && size > 0
    ensures Hits(chain, [], tokens, size, n, 0) == []
  {
  }

  lemma {:induction false} WalkOrders(chain: Hash, es: seq<Entry>, tokens: seq<nat>, size: nat, n: nat)
    requires n * size <= |tokens| && size > 0 && Keyed(es)
    ensures ByLastLook(chain, es, tokens, size, n, Walked(chain, es, tokens, size, n, 0))
    ensures ByLastLook(chain, [], tokens, size, n, [])
  {
    hide Walked, Keyed, Staler;
    UnlookedOrder(chain, es, tokens, size);
    WalkedByLook(chain, es, es, tokens, size, n, 0);
  }

  /** A walk reorders the entries and changes nothing else. */
  lemma {:induction false} WalkFacts(chain: Hash, es: seq<Entry>, tokens: seq<nat>, size: nat, n: nat)
    requires n * size <= |tokens| && size > 0 && Keyed(es)
    ensures var fs := Walked(chain, es, tokens, size, n, 0);
      && Keyed(fs) && multiset(fs) == multiset(es)
      && (forall l: nat :: Held(fs, l) == Held(es, l))
      && Hits(chain, fs, tokens, size, n, 0) == Hits(chain, es, tokens, size, n, 0)
  {
    hide Held, Walked, Hits;
    WalkedKeeps(chain, es, tokens, size, n, 0);
    var fs := Walked(chain, es, tokens, size, n, 0);
    HitsAnywhere(chain, es, fs, tokens, size, n, 0);
    forall l: nat
      ensures Held(fs, l) == Held(es, l)
    {
      HeldWalked(chain, es, tokens, size, n, 0, l);
    }
  }
}
