/** Paged caches over shared blocks: what a sequence's blocks hold, and that nobody writes into a block somebody
    else holds (src/common/paged.rs). */
module PagedPools {
  import opened PrefixCaches
  import opened SequenceStates
  import opened Wrappers

  /** One layer's block table of a sequence. */
  datatype Table = Table(ids: seq<nat>, numTokens: nat)

  /** As many blocks as the tokens need. */
  predicate Shaped(t: Table, size: nat)
    requires size > 0
  {
    |t.ids| == BlocksFor(t.numTokens, size)
  }

  /** Token `k` of a sequence is at offset `k % size` of its block `k / size`. */
  predicate At(data: Memory, ids: seq<nat>, size: nat, k: nat, slot: Slot)
    requires size > 0
  {
    && k / size < |ids|
    && var p := Place(ids[k / size], k % size);
      p in data && data[p] == slot
  }

  ghost predicate Stored(data: Memory, ids: seq<nat>, slots: seq<Slot>, size: nat)
    requires size > 0
  {
    forall k: nat | k < |slots| :: At(data, ids, size, k, slots[k])
  }

  /** The block that still has room is held once, by the sequence that fills it. */
  ghost predicate Private(t: Table, refs: multiset<nat>, size: nat)
    requires size > 0
  {
    t.numTokens % size != 0 ==> t.ids != [] && refs[t.ids[|t.ids| - 1]] == 1
  }

  /** The blocks hold exactly `slots`, and the next write into them disturbs nobody. */
  ghost predicate Filled(t: Table, refs: multiset<nat>, data: Memory, slots: seq<Slot>, size: nat)
    requires size > 0
  {
    t.numTokens == |slots| && Stored(data, t.ids, slots, size) && Private(t, refs, size)
  }

  /** Nothing in the blocks that `held` refers to has changed. */
  ghost predicate Kept(before: Memory, after: Memory, held: multiset<nat>) {
    forall p | p in before && p.id in held :: p in after && after[p] == before[p]
  }

  /** New blocks have been handed out; the old ones are held as often as before. */
  ghost predicate OnlyAdds(before: multiset<nat>, after: multiset<nat>) {
    forall x | x in before :: after[x] == before[x]
  }

  lemma {:induction false} FilledKept(t: Table, refs: multiset<nat>, refs': multiset<nat>, data: Memory, data': Memory,
        held: multiset<nat>, slots: seq<Slot>, size: nat)
    requires size > 0 && Filled(t, refs, data, slots, size) && Shaped(t, size)
    requires Kept(data, data', held) && OnlyAdds(refs, refs')
    requires forall x | x in t.ids :: x in held && x in refs
    ensures Filled(t, refs', data', slots, size)
  {
    forall k: nat | k < |slots|
      ensures At(data', t.ids, size, k, slots[k])
    {
      assert At(data, t.ids, size, k, slots[k]);
      assert t.ids[k / size] in t.ids;
    }
  }

  // ----- a run of tokens in one block

  lemma {:induction false} SameBlock(n: nat, j: nat, size: nat)
    requires size > 0 && n % size + j < size
    ensures (n + j) / size == n / size && (n + j) % size == n % size + j
  {
    DividedOnce(n / size, n % size + j, size);
  }

  lemma {:induction false} Divided(n: nat, size: nat)
    requires size > 0
    ensures n == n / size * size + n % size && 0 <= n % size < size && 0 <= n / size
  {
  }

  lemma {:induction false} SmallerQuotient(q: nat, r: nat, q': nat, r': nat, size: nat)
    requires q < q' && r < size
    ensures q * size + r < q' * size + r'
  {
    var d := q' - q - 1;
    assert q' * size == q * size + size + d * size;
  }

  lemma {:induction false} DividedOnce(q: nat, r: nat, size: nat)
    requires r < size
    ensures (q * size + r) / size == q && (q * size + r) % size == r
  {
    var n := q * size + r;
    Divided(n, size);
    var q', r' := n / size, n % size;
    if q < q' {
      SmallerQuotient(q, r, q', r', size);
    } else if q' < q {
      SmallerQuotient(q', r', q, r, size);
    }
  }

  lemma {:induction false} NextBlock(n: nat, j: nat, size: nat)
    requires size > 0 && n % size + j == size
    ensures (n + j) / size == n / size + 1 && (n + j) % size == 0
  {
    DividedOnce(n / size + 1, 0, size);
    assert (n / size + 1) * size == n / size * size + size;
  }

  lemma {:induction false} EarlierSlot(k: nat, n: nat, size: nat)
    requires size > 0 && k < n
    ensures k / size <= n / size
    ensures k / size == n / size ==> k % size < n % size
  {
    Divided(k, size);
    Divided(n, size);
    if k / size > n / size {
      SmallerQuotient(n / size, n % size, k / size, k % size, size);
    }
  }

  lemma {:induction false} WrittenAt(data: Memory, id: nat, offset: nat, run: seq<Slot>, j: nat)
    requires j < |run|
    ensures var p := Place(id, offset + j);
      p in Written(data, id, offset, run) && Written(data, id, offset, run)[p] == run[j]
  {
    var places := set k: nat | offset <= k < offset + |run| :: Place(id, k);
    assert Place(id, offset + j) in places;
  }

  lemma {:induction false} WrittenElsewhere(data: Memory, id: nat, offset: nat, run: seq<Slot>, p: Place)
    requires p in data && (p.id != id || p.offset < offset)
    ensures p in Written(data, id, offset, run) && Written(data, id, offset, run)[p] == data[p]
  {
  }

  lemma {:induction false} OldSlotStays(data: Memory, ids: seq<nat>, had: seq<Slot>, run: seq<Slot>, size: nat, k: nat)
    requires size > 0 && |ids| == |had| / size + 1 && k < |had|
    requires At(data, ids, size, k, had[k]) && ids[|ids| - 1] !in ids[..|ids| - 1]
    ensures At(Written(data, ids[|ids| - 1], |had| % size, run), ids, size, k, had[k])
  {
    hide Written;
    var last := |ids| - 1;
    EarlierSlot(k, |had|, size);
    if k / size < last {
      assert ids[k / size] in ids[..last];
    }
    WrittenElsewhere(data, ids[last], |had| % size, run, Place(ids[k / size], k % size));
  }

  lemma {:induction false} NewSlotIsThere(data: Memory, ids: seq<nat>, n: nat, run: seq<Slot>, size: nat, j: nat)
    requires size > 0 && |ids| == n / size + 1 && j < |run| && n % size + |run| <= size
    ensures At(Written(data, ids[|ids| - 1], n % size, run), ids, size, n + j, run[j])
  {
    hide Written;
    SameBlock(n, j, size);
    WrittenAt(data, ids[|ids| - 1], n % size, run, j);
  }

  /** A run written from where the last block has room extends what the blocks hold. */
  lemma {:induction false} RunIsStored(data: Memory, ids: seq<nat>, had: seq<Slot>, run: seq<Slot>, size: nat)
    requires size > 0 && |ids| == |had| / size + 1 && |had| % size + |run| <= size
    requires Stored(data, ids, had, size) && ids[|ids| - 1] !in ids[..|ids| - 1]
    ensures Stored(Written(data, ids[|ids| - 1], |had| % size, run), ids, had + run, size)
  {
    hide Written, At;
    var n := |had|;
    forall k: nat | k < n + |run|
      ensures At(Written(data, ids[|ids| - 1], n % size, run), ids, size, k, (had + run)[k])
    {
      if k < n {
        OldSlotStays(data, ids, had, run, size, k);
      } else {
        NewSlotIsThere(data, ids, n, run, size, k - n);
      }
    }
  }

  lemma {:induction false} WrittenKeeps(data: Memory, id: nat, offset: nat, run: seq<Slot>, held: multiset<nat>)
    requires id !in held
    ensures Kept(data, Written(data, id, offset, run), held)
  {
  }

  /** The table after a run of `n` tokens went into its last block. */
  lemma {:induction false} RunKeepsShape(t: Table, n: nat, size: nat)
    requires size > 0 && 0 < n && t.numTokens % size + n <= size && |t.ids| == t.numTokens / size + 1
    ensures Shaped(t.(numTokens := t.numTokens + n), size)
  {
    if t.numTokens % size + n == size {
      NextBlock(t.numTokens, n, size);
    } else {
      SameBlock(t.numTokens, n, size);
    }
  }

  /** A block held once is the last of the table and held by nobody else. */
  lemma {:induction false} HeldOnce(ids: seq<nat>, rest: multiset<nat>)
    requires ids != []
    requires (rest + multiset(ids))[ids[|ids| - 1]] == 1
    ensures ids[|ids| - 1] !in rest && ids[|ids| - 1] !in ids[..|ids| - 1]
  {
    var n := |ids| - 1;
    assert ids == ids[..n] + [ids[n]];
    assert multiset(ids) == multiset(ids[..n]) + multiset{ids[n]};
    assert ids[n] in ids[..n] <==> ids[n] in multiset(ids[..n]);
  }

  lemma {:induction false} OneMoreBlock(ids: seq<nat>, id: nat, rest: multiset<nat>)
    requires id !in rest + multiset(ids)
    ensures rest + multiset(ids + [id]) == rest + multiset(ids) + multiset{id}
    ensures (rest + multiset(ids + [id]))[id] == 1
    ensures (ids + [id])[..|ids|] == ids
  {
    assert multiset(ids + [id]) == multiset(ids) + multiset{id};
  }

  lemma {:induction false} OneMoreId(ids: seq<nat>, id: nat, rest: multiset<nat>)
    requires id in rest
    ensures id in rest + multiset(ids)
    ensures rest + multiset(ids + [id]) == rest + multiset(ids) + multiset{id}
  {
    assert multiset(ids + [id]) == multiset(ids) + multiset{id};
  }

  lemma {:induction false} OneMoreIsStored(data: Memory, ids: seq<nat>, id: nat, had: seq<Slot>, size: nat)
    requires size > 0 && Stored(data, ids, had, size)
    ensures Stored(data, ids + [id], had, size)
  {
    forall k: nat | k < |had|
      ensures At(data, ids + [id], size, k, had[k])
    {
      assert At(data, ids, size, k, had[k]);
    }
  }

  lemma {:induction false} NextRun(slots: seq<Slot>, had: seq<Slot>, a: nat, b: nat)
    requires a <= b <= |slots|
    ensures had + slots[..b] == (had + slots[..a]) + slots[a..b]
  {
  }

  /** The block the next token goes into: the last one while it has room, else a fresh one. */
  method BlockForNext(alloc: BlockAllocator, t: Table, size: nat, ghost rest: multiset<nat>)
    returns (next: Table, ok: bool)
    requires alloc.Valid() && size > 0 && Shaped(t, size) && alloc.refs == rest + multiset(t.ids)
    modifies alloc
    ensures alloc.Valid() && alloc.data == old(alloc.data) && OnlyAdds(old(alloc.refs), alloc.refs)
    ensures alloc.refs == rest + multiset(next.ids) && next.numTokens == t.numTokens
    ensures !ok ==> next == t
    ensures ok ==> |next.ids| == t.numTokens / size + 1
    ensures ok ==> next.ids == if t.numTokens % size != 0 then t.ids else t.ids + [next.ids[|t.ids|]]
    ensures ok && (t.numTokens % size != 0 ==> alloc.refs[t.ids[|t.ids| - 1]] == 1) ==>
      alloc.refs[next.ids[|next.ids| - 1]] == 1
  {
    hide BlockAllocator.Valid;
    next := t;
    ok := true;
    if t.numTokens % size == 0 {
      var id := alloc.Allocate();
      if id.None? {
        return t, false;
      }
      OneMoreBlock(t.ids, id.value, rest);
      next := t.(ids := t.ids + [id.value]);
    }
  }

  /** Appends a run that fits the block; with `writes` off the block is taken and left as it is. */
  method AppendRun(alloc: BlockAllocator, t: Table, run: seq<Slot>, size: nat, writes: bool, ghost rest: multiset<nat>,
        ghost had: seq<Slot>)
    returns (next: Table, ok: bool)
    requires alloc.Valid() && size > 0 && Shaped(t, size) && alloc.refs == rest + multiset(t.ids)
    requires run != [] && t.numTokens % size + |run| <= size
    requires writes ==> Filled(t, alloc.refs, alloc.data, had, size)
    modifies alloc
    ensures alloc.Valid() && alloc.refs == rest + multiset(next.ids) && Shaped(next, size)
    ensures Kept(old(alloc.data), alloc.data, rest) && OnlyAdds(old(alloc.refs), alloc.refs)
    ensures !writes ==> alloc.data == old(alloc.data)
    ensures !ok ==> next == t
    ensures ok ==> next.numTokens == t.numTokens + |run|
    ensures ok && writes ==> Filled(next, alloc.refs, alloc.data, had + run, size)
  {
    hide BlockAllocator.Valid, Stored, OnlyAdds, Written;
    next, ok := BlockForNext(alloc, t, size, rest);
    if !ok {
      return;
    }
    var last := next.ids[|next.ids| - 1];
    if writes {
      HeldOnce(next.ids, rest);
      if t.numTokens % size == 0 {
        OneMoreIsStored(alloc.data, t.ids, last, had, size);
      }
      RunIsStored(alloc.data, next.ids, had, run, size);
      WrittenKeeps(alloc.data, last, t.numTokens % size, run, rest);
      alloc.Write(last, t.numTokens % size, run);
    }
    RunKeepsShape(next, |run|, size);
    next := next.(numTokens := next.numTokens + |run|);
  }

  method AppendTo(alloc: BlockAllocator, t: Table, slots: seq<Slot>, size: nat, writes: bool, ghost rest: multiset<nat>,
        ghost had: seq<Slot>)
    returns (next: Table, ok: bool)
    requires alloc.Valid() && size > 0 && Shaped(t, size) && alloc.refs == rest + multiset(t.ids)
    requires writes ==> Filled(t, alloc.refs, alloc.data, had, size)
    modifies alloc
    ensures alloc.Valid() && alloc.refs == rest + multiset(next.ids) && Shaped(next, size)
    ensures Kept(old(alloc.data), alloc.data, rest) && OnlyAdds(old(alloc.refs), alloc.refs)
    ensures !writes ==> alloc.data == old(alloc.data)
    ensures ok ==> next.numTokens == t.numTokens + |slots|
    ensures ok && writes ==> Filled(next, alloc.refs, alloc.data, had + slots, size)
  {
    hide BlockAllocator.Valid, Filled, Shaped;
    next := t;
    ok := true;
    var written := 0;
    assert had + slots[..0] == had;
    while written < |slots|
      invariant written <= |slots| && next.numTokens == t.numTokens + written
      invariant alloc.Valid() && alloc.refs == rest + multiset(next.ids) && Shaped(next, size)
      invariant Kept(old(alloc.data), alloc.data, rest) && OnlyAdds(old(alloc.refs), alloc.refs)
      invariant !writes ==> alloc.data == old(alloc.data)
      invariant writes ==> Filled(next, alloc.refs, alloc.data, had + slots[..written], size)
    {
      var offset := next.numTokens % size;
      var n := if |slots| - written < size - offset then |slots| - written else size - offset;
      NextRun(slots, had, written, written + n);
      next, ok := AppendRun(alloc, next, slots[written..written + n], size, writes, rest, had + slots[..written]);
      if !ok {
        return;
      }
      written := written + n;
    }
    assert slots[..written] == slots;
  }

  // ----- all layers of a sequence

  datatype Pool = Pool(refs: multiset<nat>, data: Memory)

  ghost function PoolsOf(allocs: seq<BlockAllocator>): (ps: seq<Pool>)
    reads allocs
    ensures |ps| == |allocs| && forall l | 0 <= l < |allocs| :: ps[l] == Pool(allocs[l].refs, allocs[l].data)
  {
    seq(|allocs|, l requires 0 <= l < |allocs| reads allocs => Pool(allocs[l].refs, allocs[l].data))
  }

  /** A layer's references are this sequence's and those of everybody else. */
  ghost predicate LayerFits(p: Pool, t: Table, rest: multiset<nat>, size: nat)
    requires size > 0
  {
    p.refs == rest + multiset(t.ids) && Shaped(t, size)
  }

  ghost predicate Fits(ps: seq<Pool>, ts: seq<Table>, rest: seq<multiset<nat>>, size: nat)
    requires size > 0
  {
    && |ps| == |ts| == |rest|
    && forall l | 0 <= l < |ps| :: LayerFits(ps[l], ts[l], rest[l], size)
  }

  ghost predicate LayerFilled(p: Pool, t: Table, slots: seq<Slot>, size: nat)
    requires size > 0
  {
    Filled(t, p.refs, p.data, slots, size)
  }

  /** Every layer's blocks hold exactly `slots`. */
  ghost predicate FilledAll(ps: seq<Pool>, ts: seq<Table>, slots: seq<Slot>, size: nat)
    requires size > 0
  {
    && |ps| == |ts|
    && forall l | 0 <= l < |ps| :: LayerFilled(ps[l], ts[l], slots, size)
  }

  ghost predicate LayerMoved(a: Pool, b: Pool, rest: multiset<nat>) {
    Kept(a.data, b.data, rest) && OnlyAdds(a.refs, b.refs)
  }

  /** New blocks may have been taken and written; what `rest` refers to has not changed. */
  ghost predicate Moved(before: seq<Pool>, after: seq<Pool>, rest: seq<multiset<nat>>) {
    && |before| == |after| == |rest|
    && forall l | 0 <= l < |before| :: LayerMoved(before[l], after[l], rest[l])
  }

  const EMPTY_TABLE := Table([], 0)

  function NoTables(n: nat): (ts: seq<Table>)
    ensures |ts| == n && forall l | 0 <= l < n :: ts[l] == EMPTY_TABLE
  {
    seq(n, _ => EMPTY_TABLE)
  }

  method AppendIn(allocs: seq<BlockAllocator>, l: nat, t: Table, slots: seq<Slot>, size: nat, writes: bool,
        ghost rest: multiset<nat>, ghost had: seq<Slot>)
    returns (next: Table, ok: bool)
    requires Distinct(allocs) && AllValid(allocs) && l < |allocs| && size > 0
    requires LayerFits(PoolsOf(allocs)[l], t, rest, size)
    requires writes ==> LayerFilled(PoolsOf(allocs)[l], t, had, size)
    modifies allocs[l]
    ensures AllValid(allocs) && PoolsOf(allocs) == old(PoolsOf(allocs))[l := PoolsOf(allocs)[l]]
    ensures LayerFits(PoolsOf(allocs)[l], next, rest, size)
    ensures LayerMoved(old(PoolsOf(allocs))[l], PoolsOf(allocs)[l], rest)
    ensures ok ==> next.numTokens == t.numTokens + |slots|
    ensures ok && writes ==> LayerFilled(PoolsOf(allocs)[l], next, had + slots, size)
  {
    hide BlockAllocator.Valid, Filled, Kept, OnlyAdds, Shaped;
    next, ok := AppendTo(allocs[l], t, slots, size, writes, rest, had);
  }

  function BlocksFor(n: nat, size: nat): nat
    requires size > 0
  {
    n / size + if n % size == 0 then 0 else 1
  }

  /** The least number of blocks with room for the tokens. */
  lemma {:induction false} BlocksAreLeast(n: nat, size: nat, blocks: nat)
    requires size > 0
    ensures BlocksFor(n, size) <= blocks <==> n <= blocks * size
  {
    var q := n / size;
    Divided(n, size);
    if blocks < q {
      SmallerQuotient(blocks, 0, q, 0, size);
    } else if q < blocks {
      SmallerQuotient(q, n % size, blocks, 0, size);
    }
  }

  /** A table after its sequence dropped back to `n` tokens. */
  function Cut(t: Table, n: nat, size: nat): (next: Table)
    requires size > 0
  {
    if n >= t.numTokens || BlocksFor(n, size) > |t.ids| then t else Table(t.ids[..BlocksFor(n, size)], n)
  }

  /** The first `k` tables dropped back to `n` tokens. */
  ghost predicate CutTo(was: seq<Table>, now: seq<Table>, n: nat, size: nat, k: nat)
    requires size > 0
  {
    && |now| == |was|
    && forall l | 0 <= l < |was| :: now[l] == if l < k then Cut(was[l], n, size) else was[l]
  }

  lemma {:induction false} NothingCut(was: seq<Table>, n: nat, size: nat)
    requires size > 0
    ensures CutTo(was, was, n, size, 0)
  {
    hide Cut;
  }

  lemma {:induction false} CutOneMore(was: seq<Table>, now: seq<Table>, n: nat, size: nat, k: nat)
    requires size > 0 && CutTo(was, now, n, size, k) && k < |was|
    ensures |now| == |was| && CutTo(was, now[k := Cut(now[k], n, size)], n, size, k + 1)
  {
    hide Cut;
  }

  lemma {:induction false} CutToNothing(was: seq<Table>, now: seq<Table>, size: nat)
    requires size > 0 && CutTo(was, now, 0, size, |was|) && forall l | 0 <= l < |was| :: Shaped(was[l], size)
    ensures now == NoTables(|was|)
  {
    forall l: nat | l < |was|
      ensures now[l] == EMPTY_TABLE
    {
      CutFits(was[l], 0, size);
    }
  }

  lemma {:induction false} CutFits(t: Table, n: nat, size: nat)
    requires size > 0 && Shaped(t, size)
    ensures n < t.numTokens ==> BlocksFor(n, size) <= |t.ids| && Shaped(Cut(t, n, size), size)
    ensures n < t.numTokens ==> Cut(t, n, size) == Table(t.ids[..BlocksFor(n, size)], n)
    ensures n >= t.numTokens ==> Cut(t, n, size) == t
  {
    if n < t.numTokens {
      EarlierSlot(n, t.numTokens, size);
    }
  }

  /** Gives up the blocks of a table from block `n` on. */
  method FreeFrom(allocs: seq<BlockAllocator>, l: nat, ids: seq<nat>, n: nat, ghost rest: multiset<nat>)
    requires Distinct(allocs) && AllValid(allocs) && l < |allocs| && n <= |ids|
    requires allocs[l].refs == rest + multiset(ids)
    modifies allocs[l]
    ensures AllValid(allocs) && allocs[l].data == old(allocs[l].data)
    ensures allocs[l].refs == rest + multiset(ids[..n])
    ensures PoolsOf(allocs) == old(PoolsOf(allocs))[l := PoolsOf(allocs)[l]]
  {
    hide AllValid, PoolsOf, BlockAllocator.Valid;
    ghost var kept := rest + multiset(ids[..n]);
    SplitIds(rest, ids, n);
    for k := n to |ids|
      invariant AllValid(allocs) && allocs[l].data == old(allocs[l].data)
      invariant allocs[l].refs == kept + multiset(ids[k..])
    {
      OneLess(kept, ids, k, allocs[l].refs);
      FreeOne(allocs, l, ids[k]);
    }
    NoneLeft(kept, ids);
  }

  lemma {:induction false} SplitIds(rest: multiset<nat>, ids: seq<nat>, n: nat)
    requires n <= |ids|
    ensures rest + multiset(ids) == rest + multiset(ids[..n]) + multiset(ids[n..])
  {
    assert ids == ids[..n] + ids[n..];
  }

  lemma {:induction false} OneLess(kept: multiset<nat>, ids: seq<nat>, k: nat, refs: multiset<nat>)
    requires k < |ids| && refs == kept + multiset(ids[k..])
    ensures ids[k] in refs && refs - multiset{ids[k]} == kept + multiset(ids[k + 1..])
  {
    assert ids[k..] == [ids[k]] + ids[k + 1..];
  }

  lemma {:induction false} NoneLeft(kept: multiset<nat>, ids: seq<nat>)
    ensures kept + multiset(ids[|ids|..]) == kept
  {
  }

  method FreeOne(allocs: seq<BlockAllocator>, l: nat, id: nat)
    requires Distinct(allocs) && AllValid(allocs) && l < |allocs| && id in allocs[l].refs
    modifies allocs[l]
    ensures AllValid(allocs)
    ensures allocs[l].refs == old(allocs[l].refs) - multiset{id} && allocs[l].data == old(allocs[l].data)
  {
    hide BlockAllocator.Valid;
    allocs[l].Free(id);
  }

  method TruncateIn(allocs: seq<BlockAllocator>, l: nat, t: Table, n: nat, size: nat, ghost rest: multiset<nat>)
    returns (next: Table)
    requires Distinct(allocs) && AllValid(allocs) && l < |allocs| && size > 0
    requires LayerFits(PoolsOf(allocs)[l], t, rest, size)
    modifies allocs[l]
    ensures AllValid(allocs) && allocs[l].data == old(allocs[l].data)
    ensures PoolsOf(allocs) == old(PoolsOf(allocs))[l := PoolsOf(allocs)[l]]
    ensures next == Cut(t, n, size) && LayerFits(PoolsOf(allocs)[l], next, rest, size)
  {
    hide AllValid, PoolsOf, Shaped, Cut;
    next := t;
    CutFits(t, n, size);
    if n < t.numTokens {
      FreeFrom(allocs, l, t.ids, BlocksFor(n, size), rest);
      next := Table(t.ids[..BlocksFor(n, size)], n);
    }
  }

  /** Takes cached blocks into an empty table. */
  method PrepopulateIn(allocs: seq<BlockAllocator>, l: nat, matched: seq<seq<nat>>, size: nat,
        ghost rest: multiset<nat>)
    returns (next: Table)
    requires Distinct(allocs) && AllValid(allocs) && l < |allocs| && size > 0
    requires LayerFits(PoolsOf(allocs)[l], EMPTY_TABLE, rest, size)
    requires forall b | 0 <= b < |matched| :: l < |matched[b]| && matched[b][l] in rest
    modifies allocs[l]
    ensures AllValid(allocs) && allocs[l].data == old(allocs[l].data)
    ensures StartedAt(next, matched, l, size) && LayerFits(PoolsOf(allocs)[l], next, rest, size)
    ensures PoolsOf(allocs) == old(PoolsOf(allocs))[l := PoolsOf(allocs)[l]]
  {
    hide AllValid, PoolsOf, BlockAllocator.Valid;
    var ids := Column(matched, l);
    next := EMPTY_TABLE;
    assert rest + multiset([]) == rest;
    while |next.ids| < |ids|
      invariant |next.ids| <= |ids| && next.ids == ids[..|next.ids|]
      invariant AllValid(allocs) && allocs[l].data == old(allocs[l].data)
      invariant allocs[l].refs == rest + multiset(next.ids)
    {
      var id := ids[|next.ids|];
      OneMoreId(next.ids, id, rest);
      ShareIn(allocs, l, id);
      next := next.(ids := next.ids + [id]);
    }
    assert ids[..|ids|] == ids;
    DividedOnce(|ids|, 0, size);
    next := next.(numTokens := |ids| * size);
  }

  /** The blocks of one layer, in the order of the prompt. */
  function Column(matched: seq<seq<nat>>, l: nat): (ids: seq<nat>)
    requires forall b | 0 <= b < |matched| :: l < |matched[b]|
    ensures |ids| == |matched|
  {
    seq(|matched|, b requires 0 <= b < |matched| => matched[b][l])
  }

  /** Tables that hold the matched blocks and nothing else. */
  ghost predicate Started(ts: seq<Table>, matched: seq<seq<nat>>, size: nat) {
    forall l | 0 <= l < |ts| :: StartedAt(ts[l], matched, l, size)
  }

  ghost predicate StartedAt(t: Table, matched: seq<seq<nat>>, l: nat, size: nat) {
    && (forall b | 0 <= b < |matched| :: l < |matched[b]|)
    && t == Table(Column(matched, l), |matched| * size)
  }

  /** Every matched block has one id a layer, each held by somebody. */
  ghost predicate Offered(matched: seq<seq<nat>>, rest: seq<multiset<nat>>) {
    && (forall b | 0 <= b < |matched| :: |matched[b]| == |rest|)
    && forall b, l | 0 <= b < |matched| && 0 <= l < |rest| :: matched[b][l] in rest[l]
  }

  /** The first `k` layers hold `more`, the others still `had`. */
  ghost predicate Filling(ps: seq<Pool>, ts: seq<Table>, k: nat, had: seq<Slot>, more: seq<Slot>, size: nat)
    requires size > 0
  {
    && |ps| == |ts|
    && forall l | 0 <= l < |ps| :: LayerFilled(ps[l], ts[l], if l < k then more else had, size)
  }

  /** An append that has reached layer `k`. */
  ghost predicate Appending(before: seq<Pool>, ps: seq<Pool>, ts: seq<Table>, rest: seq<multiset<nat>>, k: nat,
        had: seq<Slot>, more: seq<Slot>, size: nat, on: bool)
    requires size > 0
  {
    && Fits(ps, ts, rest, size) && Moved(before, ps, rest)
    && (forall l | k <= l < |ps| :: ps[l] == before[l])
    && (on ==> Filling(ps, ts, k, had, more, size))
  }

  lemma {:induction false} StartsAppending(ps: seq<Pool>, ts: seq<Table>, rest: seq<multiset<nat>>, had: seq<Slot>,
        more: seq<Slot>, size: nat, on: bool)
    requires size > 0 && Fits(ps, ts, rest, size) && (on ==> FilledAll(ps, ts, had, size))
    ensures |ps| == |ts| && Appending(ps, ps, ts, rest, 0, had, more, size, on)
  {
    hide LayerFilled, LayerFits;
    NothingMoved(ps, rest);
  }

  lemma {:induction false} AppendingAt(before: seq<Pool>, ps: seq<Pool>, ts: seq<Table>, rest: seq<multiset<nat>>,
        k: nat, had: seq<Slot>, more: seq<Slot>, size: nat, on: bool)
    requires size > 0 && Appending(before, ps, ts, rest, k, had, more, size, on) && k < |ts|
    ensures |ps| == |ts| == |rest| && LayerFits(ps[k], ts[k], rest[k], size)
    ensures (on ==> LayerFilled(ps[k], ts[k], had, size))
  {
    hide LayerFilled, LayerFits, LayerMoved;
  }

  lemma {:induction false} AppendingPut(before: seq<Pool>, ps: seq<Pool>, ts: seq<Table>, rest: seq<multiset<nat>>,
        k: nat, had: seq<Slot>, more: seq<Slot>, size: nat, on: bool, p: Pool, t: Table, ok: bool)
    requires size > 0 && Appending(before, ps, ts, rest, k, had, more, size, on) && k < |ps| == |ts| == |rest|
    requires LayerFits(p, t, rest[k], size) && LayerMoved(ps[k], p, rest[k])
    requires (ok && on ==> LayerFilled(p, t, more, size))
    ensures Fits(ps[k := p], ts[k := t], rest, size) && Moved(before, ps[k := p], rest)
    ensures ok ==> Appending(before, ps[k := p], ts[k := t], rest, k + 1, had, more, size, on)
  {
    hide LayerFilled, LayerFits, LayerMoved;
    FitsPut(ps, ts, rest, size, k, p, t);
    MovedPut(before, ps, rest, k, p);
  }

  lemma {:induction false} HasAppended(before: seq<Pool>, ps: seq<Pool>, ts: seq<Table>, rest: seq<multiset<nat>>,
        had: seq<Slot>, more: seq<Slot>, size: nat, on: bool)
    requires size > 0 && Appending(before, ps, ts, rest, |ts|, had, more, size, on)
    ensures Fits(ps, ts, rest, size) && Moved(before, ps, rest) && (on ==> FilledAll(ps, ts, more, size))
  {
    hide LayerFilled, LayerFits, LayerMoved;
  }

  lemma {:induction false} FitsLength(ps: seq<Pool>, ts: seq<Table>, rest: seq<multiset<nat>>, size: nat)
    requires size > 0 && Fits(ps, ts, rest, size)
    ensures |ps| == |ts| == |rest|
  {
  }

  lemma {:induction false} AllShapedNow(ps: seq<Pool>, ts: seq<Table>, rest: seq<multiset<nat>>, size: nat)
    requires size > 0 && Fits(ps, ts, rest, size)
    ensures |ps| == |ts| && forall l | 0 <= l < |ts| :: Shaped(ts[l], size)
  {
    hide Shaped;
    forall l | 0 <= l < |ts|
      ensures Shaped(ts[l], size)
    {
      assert LayerFits(ps[l], ts[l], rest[l], size);
    }
  }

  lemma {:induction false} FitsAt(ps: seq<Pool>, ts: seq<Table>, rest: seq<multiset<nat>>, size: nat, k: nat)
    requires size > 0 && Fits(ps, ts, rest, size) && k < |ps|
    ensures LayerFits(ps[k], ts[k], rest[k], size)
  {
    hide LayerFits;
  }

  lemma {:induction false} FitsPut(ps: seq<Pool>, ts: seq<Table>, rest: seq<multiset<nat>>, size: nat, k: nat, p: Pool,
        t: Table)
    requires size > 0 && Fits(ps, ts, rest, size) && k < |ps| && LayerFits(p, t, rest[k], size)
    ensures Fits(ps[k := p], ts[k := t], rest, size)
  {
    hide LayerFits;
  }

  lemma {:induction false} MovedPut(before: seq<Pool>, ps: seq<Pool>, rest: seq<multiset<nat>>, k: nat, p: Pool)
    requires Moved(before, ps, rest) && k < |ps| && LayerMoved(before[k], p, rest[k])
    ensures Moved(before, ps[k := p], rest)
  {
    hide LayerMoved;
  }

  lemma {:induction false} SameDataPut(before: seq<Pool>, ps: seq<Pool>, k: nat, p: Pool)
    requires SameData(before, ps) && k < |ps| && p.data == ps[k].data
    ensures SameData(before, ps[k := p])
  {
  }

  lemma {:induction false} OfferedAt(matched: seq<seq<nat>>, rest: seq<multiset<nat>>, l: nat)
    requires Offered(matched, rest) && l < |rest|
    ensures forall b | 0 <= b < |matched| :: l < |matched[b]| && matched[b][l] in rest[l]
  {
  }

  ghost predicate SameData(before: seq<Pool>, after: seq<Pool>) {
    && |before| == |after|
    && forall l | 0 <= l < |before| :: after[l].data == before[l].data
  }

  /** The paged caches of one sequence, one table per layer. */
  class PagedCache {
    var layers: seq<Table>
    var poolWrites: bool

    constructor (numLayers: nat)
      ensures layers == NoTables(numLayers) && poolWrites
    {
      layers, poolWrites := NoTables(numLayers), true;
    }

    /** Appends tokens in every layer; writes them too while the sequence is being prefilled. */
    method Append(allocs: seq<BlockAllocator>, slots: seq<Slot>, size: nat, ghost rest: seq<multiset<nat>>,
          ghost had: seq<Slot>)
      returns (ok: bool)
      requires Distinct(allocs) && AllValid(allocs) && size > 0
      requires Fits(PoolsOf(allocs), layers, rest, size)
      requires poolWrites ==> FilledAll(PoolsOf(allocs), layers, had, size)
      modifies `layers, allocs
      ensures AllValid(allocs) && Fits(PoolsOf(allocs), layers, rest, size)
      ensures Moved(old(PoolsOf(allocs)), PoolsOf(allocs), rest)
      ensures ok && poolWrites ==> FilledAll(PoolsOf(allocs), layers, had + slots, size)
    {
      hide AllValid, LayerFits, LayerFilled, PoolsOf, Appending, Distinct, Moved, Fits, FilledAll;
      ghost var before := PoolsOf(allocs);
      StartsAppending(before, layers, rest, had, had + slots, size, poolWrites);
      for k := 0 to |layers|
        invariant |layers| == |before| && AllValid(allocs)
        invariant Appending(before, PoolsOf(allocs), layers, rest, k, had, had + slots, size, poolWrites)
      {
        ghost var ps := PoolsOf(allocs);
        AppendingAt(before, ps, layers, rest, k, had, had + slots, size, poolWrites);
        var t, fits := AppendIn(allocs, k, layers[k], slots, size, poolWrites, rest[k], had);
        AppendingPut(before, ps, layers, rest, k, had, had + slots, size, poolWrites, PoolsOf(allocs)[k], t, fits);
        layers := layers[k := t];
        if !fits {
          return false;
        }
      }
      HasAppended(before, PoolsOf(allocs), layers, rest, had, had + slots, size, poolWrites);
      return true;
    }

    method SetPoolWrites(on: bool)
      modifies `poolWrites
      ensures poolWrites == on
    {
      poolWrites := on;
    }

    /** Starts an empty sequence off with the blocks matched for its prompt. */
    method Prepopulate(allocs: seq<BlockAllocator>, matched: seq<seq<nat>>, size: nat, ghost rest: seq<multiset<nat>>)
      requires Distinct(allocs) && AllValid(allocs) && size > 0
      requires layers == NoTables(|allocs|) && Fits(PoolsOf(allocs), layers, rest, size) && Offered(matched, rest)
      modifies `layers, allocs
      ensures AllValid(allocs) && SameData(old(PoolsOf(allocs)), PoolsOf(allocs))
      ensures Fits(PoolsOf(allocs), layers, rest, size)
      ensures Started(layers, matched, size)
    {
      hide AllValid, PoolsOf, LayerFits, Offered, StartedAt;
      ghost var before := PoolsOf(allocs);
      for k := 0 to |layers|
        invariant |layers| == |allocs| && AllValid(allocs)
        invariant Fits(PoolsOf(allocs), layers, rest, size)
        invariant SameData(before, PoolsOf(allocs))
        invariant forall l | 0 <= l < k :: StartedAt(layers[l], matched, l, size)
        invariant forall l | k <= l < |layers| :: layers[l] == EMPTY_TABLE
      {
        OfferedAt(matched, rest, k);
        var t := PrepopulateIn(allocs, k, matched, size, rest[k]);
        layers := layers[k := t];
      }
    }

    /** Gives up every block. */
    method Clear(allocs: seq<BlockAllocator>, size: nat, ghost rest: seq<multiset<nat>>)
      requires Distinct(allocs) && AllValid(allocs) && size > 0
      requires Fits(PoolsOf(allocs), layers, rest, size)
      modifies `layers, allocs
      ensures AllValid(allocs) && SameData(old(PoolsOf(allocs)), PoolsOf(allocs))
      ensures layers == NoTables(|allocs|) && Fits(PoolsOf(allocs), layers, rest, size)
    {
      hide AllValid, PoolsOf, SameData, CutTo, Distinct, LayerFits;
      ghost var was := layers;
      AllShapedNow(PoolsOf(allocs), layers, rest, size);
      TruncateTo(allocs, 0, size, rest);
      CutToNothing(was, layers, size);
    }

    /** Drops the sequence back to `n` tokens and gives up the blocks that only held dropped ones. */
    method TruncateTo(allocs: seq<BlockAllocator>, n: nat, size: nat, ghost rest: seq<multiset<nat>>)
      requires Distinct(allocs) && AllValid(allocs) && size > 0
      requires Fits(PoolsOf(allocs), layers, rest, size)
      modifies `layers, allocs
      ensures AllValid(allocs) && SameData(old(PoolsOf(allocs)), PoolsOf(allocs))
      ensures Fits(PoolsOf(allocs), layers, rest, size)
      ensures CutTo(old(layers), layers, n, size, |allocs|)
    {
      hide AllValid, PoolsOf, Shaped, Cut, SameData, Fits, LayerFits, CutTo, Distinct;
      ghost var before, was := PoolsOf(allocs), layers;
      SameAsEver(before);
      NothingCut(was, n, size);
      FitsLength(before, layers, rest, size);
      for k := 0 to |layers|
        invariant |layers| == |was| && AllValid(allocs)
        invariant Fits(PoolsOf(allocs), layers, rest, size)
        invariant SameData(before, PoolsOf(allocs))
        invariant CutTo(was, layers, n, size, k)
      {
        ghost var ps := PoolsOf(allocs);
        FitsAt(ps, layers, rest, size, k);
        CutOneMore(was, layers, n, size, k);
        var t := TruncateIn(allocs, k, layers[k], n, size, rest[k]);
        FitsPut(ps, layers, rest, size, k, PoolsOf(allocs)[k], t);
        SameDataPut(before, ps, k, PoolsOf(allocs)[k]);
        layers := layers[k := t];
      }
    }
  }

  lemma {:induction false} SameAsEver(ps: seq<Pool>)
    ensures SameData(ps, ps)
  {
  }

  lemma {:induction false} NothingMoved(ps: seq<Pool>, rest: seq<multiset<nat>>)
    requires |ps| == |rest|
    ensures Moved(ps, ps, rest)
  {
  }
}
