/** A batch picked out of all sequences, and what a sequence does in steps that it has to itself (src/engine.rs,
    src/scheduler/mod.rs). */
module EngineBatches {
  import opened BatchEngine
  import opened Chunks
  import opened PagedPools
  import opened PrefixCaches
  import opened SequenceStates
  import opened SharedBlocks
  import opened Wrappers

  // ----- a batch out of all sequences

  predicate Indices(idx: seq<nat>, n: nat) {
    && (forall k | 0 <= k < |idx| :: idx[k] < n)
    && forall j, k | 0 <= j < k < |idx| :: idx[j] != idx[k]
  }

  function Pick<T>(s: seq<T>, idx: seq<nat>): (p: seq<T>)
    requires Indices(idx, |s|)
    ensures |p| == |idx| && forall k | 0 <= k < |idx| :: p[k] == s[idx[k]]
  {
    seq(|idx|, k requires 0 <= k < |idx| => s[idx[k]])
  }

  /** The blocks of the sequences outside the batch. */
  function Blank(cs: seq<seq<nat>>, idx: seq<nat>): (rest: seq<seq<nat>>)
    ensures |rest| == |cs|
  {
    seq(|cs|, i requires 0 <= i < |cs| => if i in idx then [] else cs[i])
  }

  lemma {:induction false} TotalSplits(cs: seq<seq<nat>>, idx: seq<nat>)
    requires Indices(idx, |cs|)
    ensures Total(cs) == Total(Blank(cs, idx)) + Total(Pick(cs, idx))
    decreases |idx|
  {
    hide Total;
    if idx == [] {
      assert Blank(cs, idx) == cs;
      NoTotal();
      assert Pick(cs, idx) == [];
    } else {
      var n := |idx| - 1;
      var init, last := idx[..n], idx[n];
      assert idx == init + [last];
      TotalSplits(cs, init);
      TotalWithout(Blank(cs, init), last);
      assert Blank(cs, init)[last] == cs[last];
      assert Blank(cs, init)[last := []] == Blank(cs, idx);
      TotalGrows(Pick(cs, init), cs[last]);
      assert Pick(cs, idx) == Pick(cs, init) + [cs[last]];
      Swapped(Total(Blank(cs, idx)), multiset(cs[last]), Total(Pick(cs, init)));
      SumsRegroup(Total(Blank(cs, idx)), Total(Pick(cs, init)), multiset(cs[last]));
    }
  }

  lemma {:induction false} NoTotal()
    ensures Total([]) == multiset{}
  {
  }

  lemma {:induction false} TotalGrows(cs: seq<seq<nat>>, x: seq<nat>)
    ensures Total(cs + [x]) == Total(cs) + multiset(x)
  {
    assert (cs + [x])[..|cs|] == cs;
  }

  /** What the sequences outside the batch hold, beside `outside`. */
  ghost function Beside(vals: seq<seq<Table>>, idx: seq<nat>, outside: seq<multiset<nat>>): (o: seq<multiset<nat>>)
    ensures |o| == |outside|
  {
    seq(|outside|, l requires 0 <= l < |outside| => outside[l] + Total(Blank(IdsAt(vals, l), idx)))
  }

  lemma {:induction false} LayerSplits(p: Pool, es: seq<Entry>, vals: seq<seq<Table>>, idx: seq<nat>,
        outside: multiset<nat>, l: nat)
    requires Indices(idx, |vals|)
    ensures LayerPooled(p, es, vals, outside, l)
      <==> LayerPooled(p, es, Pick(vals, idx), outside + Total(Blank(IdsAt(vals, l), idx)), l)
  {
    hide Total, Held;
    TotalSplits(IdsAt(vals, l), idx);
    assert IdsAt(Pick(vals, idx), l) == Pick(IdsAt(vals, l), idx);
    SumsRegroup(outside, Total(Blank(IdsAt(vals, l), idx)), Total(Pick(IdsAt(vals, l), idx)));
  }

  lemma {:induction false} PooledSplits(ps: seq<Pool>, es: seq<Entry>, vals: seq<seq<Table>>, idx: seq<nat>,
        outside: seq<multiset<nat>>, size: nat)
    requires size > 0 && Indices(idx, |vals|) && Pooled(ps, es, vals, outside, size)
    ensures Pooled(ps, es, Pick(vals, idx), Beside(vals, idx, outside), size)
  {
    hide LayerPooled, AllShaped, Total, Held, Indices;
    forall l: nat | l < |ps|
      ensures LayerPooled(ps[l], es, Pick(vals, idx), Beside(vals, idx, outside)[l], l)
    {
      LayerSplits(ps[l], es, vals, idx, outside[l], l);
    }
    forall k | 0 <= k < |idx|
      ensures AllShaped(Pick(vals, idx)[k], |ps|, size)
    {
      IndexAt(idx, |vals|, k);
    }
  }

  lemma {:induction false} IndexAt(idx: seq<nat>, n: nat, k: nat)
    requires Indices(idx, n) && k < |idx|
    ensures idx[k] < n
  {
  }

  /** The sequences outside the batch kept their tables. */
  ghost predicate SameOutside<T>(before: seq<T>, after: seq<T>, idx: seq<nat>) {
    |before| == |after| && forall i: nat | i < |before| && i !in idx :: after[i] == before[i]
  }

  lemma {:induction false} PooledJoins(ps: seq<Pool>, ps': seq<Pool>, es: seq<Entry>, es': seq<Entry>,
        vals: seq<seq<Table>>, vals': seq<seq<Table>>, idx: seq<nat>, outside: seq<multiset<nat>>, size: nat)
    requires size > 0 && Indices(idx, |vals|) && Pooled(ps, es, vals, outside, size) && |ps'| == |ps|
    requires SameOutside(vals, vals', idx) && Pooled(ps', es', Pick(vals', idx), Beside(vals, idx, outside), size)
    ensures Pooled(ps', es', vals', outside, size)
  {
    hide LayerPooled, AllShaped, Total, Held, Indices;
    forall l: nat | l < |ps'|
      ensures LayerPooled(ps'[l], es', vals', outside[l], l)
    {
      assert Blank(IdsAt(vals', l), idx) == Blank(IdsAt(vals, l), idx);
      LayerSplits(ps'[l], es', vals', idx, outside[l], l);
      assert Beside(vals, idx, outside)[l] == outside[l] + Total(Blank(IdsAt(vals, l), idx));
    }
    forall i: nat | i < |vals'|
      ensures AllShaped(vals'[i], |ps'|, size)
    {
      if i in idx {
        var k :| 0 <= k < |idx| && idx[k] == i;
        assert AllShaped(Pick(vals', idx)[k], |ps'|, size);
      }
    }
  }

  lemma {:induction false} PickedAreSeparate(tables: seq<PagedCache>, idx: seq<nat>)
    requires Separate(tables) && Indices(idx, |tables|)
    ensures Separate(Pick(tables, idx))
    ensures forall i: nat | i < |tables| && i !in idx :: tables[i] !in Pick(tables, idx)
    ensures forall t | t in Pick(tables, idx) :: t in tables
    ensures forall k | 0 <= k < |idx| :: idx[k] < |tables|
  {
    forall j, k | 0 <= j < k < |idx|
      ensures tables[idx[j]] != tables[idx[k]]
    {
      assert idx[j] < idx[k] || idx[k] < idx[j];
    }
  }

  lemma {:induction false} PickedAreDistinct<P, C>(seqs: seq<SequenceState<P, C>>, idx: seq<nat>)
    requires BatchEngine.Distinct(seqs) && Indices(idx, |seqs|)
    ensures BatchEngine.Distinct(Pick(seqs, idx))
    ensures forall i: nat | i < |seqs| && i !in idx :: seqs[i] !in Pick(seqs, idx)
    ensures forall s | s in Pick(seqs, idx) :: s in seqs
  {
    forall j, k | 0 <= j < k < |idx|
      ensures seqs[idx[j]] != seqs[idx[k]]
    {
      assert idx[j] < idx[k] || idx[k] < idx[j];
    }
  }

  lemma {:induction false} SharingSplits(prefix: PrefixCache, allocs: seq<BlockAllocator>, tables: seq<PagedCache>,
        idx: seq<nat>, outside: seq<multiset<nat>>)
    requires Indices(idx, |tables|) && Sharing(prefix, allocs, tables, outside)
    ensures Sharing(prefix, allocs, Pick(tables, idx), Beside(LayersOf(tables), idx, outside))
  {
    hide Pooled, AllBacked, AllValid, PrefixCache.Valid, Separate, Indices, PoolsOf, DataOf;
    PickedAreSeparate(tables, idx);
    SoundSize(prefix, allocs, LayersOf(tables), outside);
    PooledSplits(PoolsOf(allocs), prefix.entries, LayersOf(tables), idx, outside, prefix.size);
    SameLayers(tables, idx);
  }

  lemma {:induction false} SameLayers(tables: seq<PagedCache>, idx: seq<nat>)
    requires Indices(idx, |tables|)
    ensures LayersOf(Pick(tables, idx)) == Pick(LayersOf(tables), idx)
  {
  }

  lemma {:induction false} SharingJoins(prefix: PrefixCache, allocs: seq<BlockAllocator>, tables: seq<PagedCache>,
        idx: seq<nat>, outside: seq<multiset<nat>>, ps: seq<Pool>, es: seq<Entry>, vals: seq<seq<Table>>)
    requires Separate(tables) && Indices(idx, |tables|) && |vals| == |tables|
    requires SameOutside(vals, LayersOf(tables), idx)
    requires Sharing(prefix, allocs, Pick(tables, idx), Beside(vals, idx, outside))
    requires prefix.size > 0 && |ps| == |allocs| && Pooled(ps, es, vals, outside, prefix.size)
    ensures Sharing(prefix, allocs, tables, outside)
  {
    hide Pooled, AllBacked, AllValid, PrefixCache.Valid, Separate, Indices, PoolsOf, DataOf, Beside, SameOutside;
    SameLayers(tables, idx);
    PooledJoins(ps, PoolsOf(allocs), es, prefix.entries, vals, LayersOf(tables), idx, outside, prefix.size);
  }

  lemma {:induction false} SharingIsPooled(prefix: PrefixCache, allocs: seq<BlockAllocator>, tables: seq<PagedCache>,
        outside: seq<multiset<nat>>)
    requires Sharing(prefix, allocs, tables, outside)
    ensures Separate(tables) && prefix.size > 0
    ensures Pooled(PoolsOf(allocs), prefix.entries, LayersOf(tables), outside, prefix.size)
  {
  }

  lemma {:induction false} SameValues<P, C>(seqs: seq<SequenceState<P, C>>, idx: seq<nat>)
    requires Indices(idx, |seqs|)
    ensures Values(Pick(seqs, idx)) == Pick(Values(seqs), idx)
  {
    hide SequenceState.Value;
  }

  /** A step of the sequences in `idx`; nothing happens to the others. */
  method StepPicked<P, C>(env: Env<P, C>, seqs: seq<SequenceState<P, C>>, idx: seq<nat>, split: nat,
        prefix: PrefixCache, allocs: seq<BlockAllocator>, tables: seq<PagedCache>, ghost outside: seq<multiset<nat>>,
        pacer: PrefillPacer, weather: Weather)
    returns (newTokens: Option<seq<(nat, nat)>>)
    requires pacer.Valid() && BatchEngine.Distinct(seqs) && |seqs| == |tables| && |allocs| > 0 && Indices(idx, |seqs|)
    requires Sharing(prefix, allocs, tables, outside) && split <= |idx| && Admitted(Pick(Values(seqs), idx), split)
    requires forall k | 0 <= k < split :: LayersOf(tables)[idx[k]] == NoTables(|allocs|)
    requires AllForeseen(prefix, TokensOf(Pick(Values(seqs), idx)), split)
    modifies seqs, tables, allocs, prefix`entries, prefix`log, pacer
    ensures pacer.Valid() && Sharing(prefix, allocs, tables, outside)
    ensures LogFrom(prefix.log, old(prefix.log), old(TokensOf(Pick(Values(seqs), idx))))
    ensures Stepped(env, old(Pick(Values(seqs), idx)), Pick(Values(seqs), idx), newTokens)
    ensures SameOutside(old(Values(seqs)), Values(seqs), idx)
    ensures SameOutside(old(LayersOf(tables)), LayersOf(tables), idx)
  {
    hide Indices, Sharing, Stepped, AllForeseen, LogFrom, PrefillPacer.Valid, NoTables, Pooled, PoolsOf, Beside,
      SequenceState.Value, BatchEngine.Distinct, Separate, Pick, Admitted, LayersOf, Values, TokensOf;
    ghost var ps, es, vals, before := PoolsOf(allocs), prefix.entries, LayersOf(tables), Values(seqs);
    SharingIsPooled(prefix, allocs, tables, outside);
    SharingSplits(prefix, allocs, tables, idx, outside);
    PickedAreSeparate(tables, idx);
    PickedAreDistinct(seqs, idx);
    SameValues(seqs, idx);
    var sub, subTables := Pick(seqs, idx), Pick(tables, idx);
    forall k: nat | k < split
      ensures subTables[k].layers == NoTables(|allocs|)
    {
      assert LayersOf(tables)[idx[k]] == tables[idx[k]].layers;
    }
    newTokens := Step(env, sub, split, prefix, allocs, subTables, Beside(vals, idx, outside), pacer, weather);
    SameValues(seqs, idx);
    SharingJoins(prefix, allocs, tables, idx, outside, ps, es, vals);
  }

  // ----- steps alone

  /** A sequence without what depends on where it is kept and how far it is computed. */
  function Rested<P, C>(s: Sequence<P, C>): Sequence<P, C> {
    s.(cache := [], draftCache := [], numProcessed := 0, phase := Prefill,
       status := if s.status == Finished then Finished else Running)
  }

  /** `n` steps of a sequence that has the engine to itself; a finished one is not scheduled again. */
  function AloneFor<P, C>(env: Env<P, C>, s: Sequence<P, C>, n: nat): Sequence<P, C>
    decreases n
  {
    if n == 0 then s else
      var t := AloneFor(env, s, n - 1);
      if t.status == Finished then t else StepAlone(env, t.(status := Running)).0
  }

  lemma {:induction false} StepAloneRested<P, C>(env: Env<P, C>, a: Sequence<P, C>, b: Sequence<P, C>)
    requires Rested(a) == Rested(b)
    ensures Rested(StepAlone(env, a.(status := Running)).0) == Rested(StepAlone(env, b.(status := Running)).0)
  {
    hide Stops, Slots;
    assert a.tokens == Rested(a).tokens && b.tokens == Rested(b).tokens;
    assert a.tokenCounts == Rested(a).tokenCounts && b.tokenCounts == Rested(b).tokenCounts;
    assert a.settings == Rested(a).settings && b.settings == Rested(b).settings;
    assert a.constraint == Rested(a).constraint && b.constraint == Rested(b).constraint;
    assert a.numGenerated == Rested(a).numGenerated && b.numGenerated == Rested(b).numGenerated;
    assert a.maxTokens == Rested(a).maxTokens && b.maxTokens == Rested(b).maxTokens;
    assert a.finishReason == Rested(a).finishReason && b.finishReason == Rested(b).finishReason;
  }

  /** A sequence is as far as `n` steps alone would have taken it. */
  ghost predicate Tracked<P, C>(env: Env<P, C>, orig: Sequence<P, C>, n: nat, v: Sequence<P, C>) {
    Rested(v) == Rested(AloneFor(env, orig, n))
  }

  lemma {:induction false} TrackedOn<P, C>(env: Env<P, C>, orig: Sequence<P, C>, n: nat, v: Sequence<P, C>)
    requires Tracked(env, orig, n, v)
    ensures v.tokens == AloneFor(env, orig, n).tokens
    ensures v.status == Finished ==> Tracked(env, orig, n + 1, v)
    ensures v.status != Finished ==> Tracked(env, orig, n + 1, StepAlone(env, v.(status := Running)).0)
  {
    hide StepAlone;
    var t := AloneFor(env, orig, n);
    assert v.tokens == Rested(v).tokens && t.tokens == Rested(t).tokens;
    assert v.status == Finished <==> Rested(v).status == Finished;
    assert t.status == Finished <==> Rested(t).status == Finished;
    if v.status != Finished {
      StepAloneRested(env, v, t);
    }
  }
}
