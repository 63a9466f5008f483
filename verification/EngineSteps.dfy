/** The engine's step with a draft model: plain greedy decodes take bursts, the others the batch (src/engine.rs). */
module EngineSteps {
  import opened BatchEngine
  import opened Chunks
  import opened EngineBatches
  import opened PagedPools
  import opened PrefixCaches
  import opened SequenceStates
  import opened SharedBlocks
  import opened Speculative
  import opened Wrappers

  /** A draft model beside the target, and which settings are plain greedy. */
  datatype Drafting<!P> = Drafting(target: Greedy, draft: Greedy, plain: P -> bool)

  /** Under plain greedy settings and without a constraint the sampler takes the target's most probable token. */
  ghost predicate SamplesGreedily<P(!new), C>(env: Env<P, C>, d: Drafting<P>) {
    forall h: seq<Slot>, p: P, tokens: seq<nat>, counts: multiset<nat> ::
      d.plain(p) ==> env.sample(env.logits(h), p, tokens, counts, None) == d.target(h)
  }

  predicate TakesBursts<P, C>(d: Option<Drafting<P>>, v: Sequence<P, C>) {
    d.Some? && d.value.plain(v.settings) && v.constraint.None?
  }

  // ----- a burst against steps alone

  lemma {:induction false} GreedyIsAlone<P(!new), C>(env: Env<P, C>, d: Drafting<P>, v: Sequence<P, C>)
    requires SamplesGreedily(env, d) && TakesBursts(Some(d), v) && v.phase == Decode
    ensures StepAlone(env, v) == GreedyStep(d.target, env.rules, v)
  {
    hide Stops, Slots;
    var h := Slots(v.tokens);
    assert env.sample(env.logits(h), v.settings, v.tokens, v.tokenCounts, None) == d.target(h);
  }

  /** `n` steps alone begin with one. */
  lemma {:induction false} AloneForFirst<P, C>(env: Env<P, C>, v: Sequence<P, C>, n: nat)
    requires n > 0 && v.status == Running
    ensures AloneFor(env, v, n) == AloneFor(env, StepAlone(env, v).0, n - 1)
    decreases n
  {
    hide StepAlone;
    assert v.(status := Running) == v;
    if n > 1 {
      AloneForFirst(env, v, n - 1);
    } else {
      assert AloneFor(env, v, 0) == v;
    }
  }

  lemma {:induction false} FinishedStays<P, C>(env: Env<P, C>, v: Sequence<P, C>, n: nat)
    requires v.status == Finished
    ensures AloneFor(env, v, n) == v
    decreases n
  {
    if n > 0 {
      FinishedStays(env, v, n - 1);
    }
  }

  lemma {:induction false} GreedyStepKeeps<P, C>(target: Greedy, rules: StopRules, v: Sequence<P, C>)
    requires v.status == Running
    ensures var t := GreedyStep(target, rules, v).0;
      && t.phase == v.phase && t.settings == v.settings && t.constraint == v.constraint
      && (t.status == Running || t.status == Finished)
  {
    hide Stops, Slots;
  }

  lemma {:induction false} PlainIsAlone<P(!new), C>(env: Env<P, C>, d: Drafting<P>, v: Sequence<P, C>, n: nat)
    requires SamplesGreedily(env, d) && TakesBursts(Some(d), v) && v.phase == Decode
    requires v.status == Running || v.status == Finished
    ensures Plain(d.target, env.rules, v, n) == AloneFor(env, v, n)
    decreases n
  {
    hide StepAlone, GreedyStep, SamplesGreedily;
    if v.status == Finished {
      FinishedStays(env, v, n);
    } else if n > 0 {
      GreedyIsAlone(env, d, v);
      AloneForFirst(env, v, n);
      GreedyStepKeeps(d.target, env.rules, v);
      PlainIsAlone(env, d, StepAlone(env, v).0, n - 1);
    }
  }

  /** The burst is some number of the sequence's own steps. */
  ghost predicate IsAlone<P, C>(env: Env<P, C>, v: Sequence<P, C>, t: Sequence<P, C>) {
    exists k :: Rested(t) == Rested(AloneFor(env, v, k))
  }

  /** Theorem: whatever the draft, a burst is some number of the steps the sequence would take alone exactly when the
      target's own next five tokens, cut at the first stop, fit what `max_tokens` leaves. */
  lemma {:induction false} BurstIsAloneIff<P(!new), C>(env: Env<P, C>, d: Drafting<P>, v: Sequence<P, C>)
    requires SamplesGreedily(env, d) && TakesBursts(Some(d), v) && Ready(v) && Decoding(v)
    ensures (forall draft: Greedy :: IsAlone(env, v, Burst(d.target, draft, env.rules, v)))
      <==> ChainLength(d.target, env.rules, v, SPEC_DRAFT_K + 1) <= Speculative.Room(v)
  {
    hide Slots, Burst, ChainLength, Plain, AloneFor, Rested, SamplesGreedily, EndsPlain;
    if ChainLength(d.target, env.rules, v, SPEC_DRAFT_K + 1) <= Speculative.Room(v) {
      EveryDraftIsPlainIff(d.target, env.rules, v);
      forall draft: Greedy
        ensures IsAlone(env, v, Burst(d.target, draft, env.rules, v))
      {
        assert EndsPlain(d.target, draft, env.rules, v);
        EndsPlainIsAlone(env, d, v, draft);
      }
    } else {
      OvershootsOtherwise(d.target, env.rules, v);
      var burst := Burst(d.target, d.target, env.rules, v);
      forall k
        ensures Rested(burst) != Rested(AloneFor(env, v, k))
      {
        PlainIsAlone(env, d, v, k);
        PlainLength(d.target, env.rules, v, k);
        RestedLength(burst, AloneFor(env, v, k));
      }
      assert !IsAlone(env, v, burst);
    }
  }

  lemma {:induction false} RestedLength<P, C>(a: Sequence<P, C>, b: Sequence<P, C>)
    ensures |a.tokens| != |b.tokens| ==> Rested(a) != Rested(b)
  {
    assert Rested(a).tokens == a.tokens && Rested(b).tokens == b.tokens;
  }

  lemma {:induction false} EndsPlainIsAlone<P(!new), C>(env: Env<P, C>, d: Drafting<P>, v: Sequence<P, C>,
        draft: Greedy)
    requires SamplesGreedily(env, d) && TakesBursts(Some(d), v) && Ready(v) && Decoding(v)
    requires EndsPlain(d.target, draft, env.rules, v)
    ensures IsAlone(env, v, Burst(d.target, draft, env.rules, v))
  {
    hide Slots, Burst, Plain, AloneFor, SamplesGreedily;
    var k :| SameButDraft(Burst(d.target, draft, env.rules, v), Plain(d.target, env.rules, v, k));
    PlainIsAlone(env, d, v, k);
    assert Rested(Burst(d.target, draft, env.rules, v)) == Rested(AloneFor(env, v, k));
  }

  // ----- the step

  /** Decodes that take bursts, and those that stay in the batch. */
  ghost predicate Parted<P, C>(d: Option<Drafting<P>>, vs: seq<Sequence<P, C>>, decodes: seq<nat>, specs: seq<nat>,
        normals: seq<nat>) {
    && (forall i | i in specs :: i < |vs| && i in decodes && TakesBursts(d, vs[i]))
    && (forall i | i in normals :: i < |vs| && i in decodes && !TakesBursts(d, vs[i]))
    && (forall i | i in decodes :: i in specs || i in normals)
    && Indices(specs, |vs|) && Indices(normals, |vs|)
  }

  predicate InRange(idx: seq<nat>, n: nat) {
    forall k | 0 <= k < |idx| :: idx[k] < n
  }

  /** The decodes that take bursts, in their order. */
  function SpecsOf<P, C>(d: Option<Drafting<P>>, vs: seq<Sequence<P, C>>, decodes: seq<nat>): seq<nat>
    requires InRange(decodes, |vs|)
  {
    if decodes == [] then [] else
      var i := decodes[|decodes| - 1];
      SpecsOf(d, vs, decodes[..|decodes| - 1]) + if TakesBursts(d, vs[i]) then [i] else []
  }

  /** The decodes that stay in the batch, in their order. */
  function NormalsOf<P, C>(d: Option<Drafting<P>>, vs: seq<Sequence<P, C>>, decodes: seq<nat>): seq<nat>
    requires InRange(decodes, |vs|)
  {
    if decodes == [] then [] else
      var i := decodes[|decodes| - 1];
      NormalsOf(d, vs, decodes[..|decodes| - 1]) + if TakesBursts(d, vs[i]) then [] else [i]
  }

  lemma {:induction false} OneMoreDecode<P, C>(d: Option<Drafting<P>>, vs: seq<Sequence<P, C>>, decodes: seq<nat>,
        k: nat)
    requires InRange(decodes, |vs|) && k < |decodes|
    ensures var i := decodes[k];
      && SpecsOf(d, vs, decodes[..k + 1]) == SpecsOf(d, vs, decodes[..k]) + (if TakesBursts(d, vs[i]) then [i] else [])
      && NormalsOf(d, vs, decodes[..k + 1])
         == NormalsOf(d, vs, decodes[..k]) + if TakesBursts(d, vs[i]) then [] else [i]
  {
    hide TakesBursts;
    assert decodes[..k + 1][..k] == decodes[..k];
  }

  lemma {:induction false} OneMoreParted<P, C>(d: Option<Drafting<P>>, vs: seq<Sequence<P, C>>, decodes: seq<nat>,
        k: nat, specs: seq<nat>, normals: seq<nat>)
    requires Indices(decodes, |vs|) && k < |decodes| && decodes[k] < |vs|
    requires Parted(d, vs, decodes[..k], specs, normals)
    ensures var i := decodes[k];
      if TakesBursts(d, vs[i]) then Parted(d, vs, decodes[..k + 1], specs + [i], normals)
      else Parted(d, vs, decodes[..k + 1], specs, normals + [i])
  {
    hide TakesBursts;
    var i := decodes[k];
    assert i !in decodes[..k];
    assert decodes[..k + 1] == decodes[..k] + [i];
  }

  method Partition<P, C>(d: Option<Drafting<P>>, seqs: seq<SequenceState<P, C>>, decodes: seq<nat>)
    returns (specs: seq<nat>, normals: seq<nat>)
    requires Indices(decodes, |seqs|)
    ensures Parted(d, Values(seqs), decodes, specs, normals) && InRange(decodes, |seqs|)
    ensures specs == SpecsOf(d, Values(seqs), decodes) && normals == NormalsOf(d, Values(seqs), decodes)
  {
    hide Parted, TakesBursts, SpecsOf, NormalsOf;
    specs, normals := [], [];
    ghost var vs := Values(seqs);
    assert decodes[..0] == [];
    NothingParted(d, vs);
    for k := 0 to |decodes|
      invariant Parted(d, vs, decodes[..k], specs, normals)
      invariant specs == SpecsOf(d, vs, decodes[..k]) && normals == NormalsOf(d, vs, decodes[..k])
    {
      var i := decodes[k];
      OneMoreDecode(d, vs, decodes, k);
      OneMoreParted(d, vs, decodes, k, specs, normals);
      if TakesBursts(d, seqs[i].Value()) {
        specs := specs + [i];
      } else {
        normals := normals + [i];
      }
    }
    assert decodes[..|decodes|] == decodes;
  }

  lemma {:induction false} NothingParted<P, C>(d: Option<Drafting<P>>, vs: seq<Sequence<P, C>>)
    ensures Parted(d, vs, [], [], []) && SpecsOf(d, vs, []) == NormalsOf(d, vs, []) == []
  {
  }

  /** Everything the batch asks of a step's prefills and of all its decodes. */
  ghost predicate Scheduled<P, C>(prefix: PrefixCache, vs: seq<Sequence<P, C>>, vals: seq<seq<Table>>, numLayers: nat,
        prefills: seq<nat>, decodes: seq<nat>)
    reads prefix`log
  {
    && |vs| == |vals| && Indices(prefills + decodes, |vs|)
    && (forall i | i in prefills ::
      i < |vs| && Fresh(vs[i]) && vals[i] == NoTables(numLayers) && Foreseen(prefix, vs[i].tokens))
    && forall i | i in decodes :: i < |vs| && Ready(vs[i]) && DraftReady(vs[i])
  }

  lemma {:induction false} PartsAreIndices(prefills: seq<nat>, decodes: seq<nat>, n: nat)
    requires Indices(prefills + decodes, n)
    ensures Indices(prefills, n) && Indices(decodes, n)
    ensures forall i | i in prefills :: i !in decodes
  {
    var idx := prefills + decodes;
    assert forall k | 0 <= k < |prefills| :: idx[k] == prefills[k];
    assert forall k | 0 <= k < |decodes| :: idx[|prefills| + k] == decodes[k];
  }

  lemma {:induction false} BatchIndices(prefills: seq<nat>, normals: seq<nat>, n: nat)
    requires Indices(prefills, n) && Indices(normals, n) && forall i | i in prefills :: i !in normals
    ensures Indices(prefills + normals, n)
  {
    var idx := prefills + normals;
    forall j, k | 0 <= j < k < |idx|
      ensures idx[j] != idx[k]
    {
      if j < |prefills| <= k {
        assert idx[j] in prefills && idx[k] in normals;
      }
    }
  }

  /** The batch that is left when the bursts are taken out. */
  lemma {:induction false} BatchIsAdmitted<P, C>(prefix: PrefixCache, d: Option<Drafting<P>>, vs: seq<Sequence<P, C>>,
        vals: seq<seq<Table>>, numLayers: nat, prefills: seq<nat>, decodes: seq<nat>, specs: seq<nat>,
        normals: seq<nat>)
    requires Scheduled(prefix, vs, vals, numLayers, prefills, decodes) && Parted(d, vs, decodes, specs, normals)
    ensures Indices(prefills + normals, |vs|) && InRange(prefills + normals, |vs|)
    ensures forall i | i in prefills + normals :: i !in specs
    ensures Admitted(Pick(vs, prefills + normals), |prefills|)
    ensures AllForeseen(prefix, TokensOf(Pick(vs, prefills + normals)), |prefills|)
    ensures forall k | 0 <= k < |prefills| :: vals[(prefills + normals)[k]] == NoTables(numLayers)
  {
    hide Fresh, Ready, DraftReady, Foreseen, NoTables;
    PartsAreIndices(prefills, decodes, |vs|);
    BatchIndices(prefills, normals, |vs|);
    var idx := prefills + normals;
    forall k: nat | k < |idx|
      ensures k < |prefills| ==> idx[k] in prefills
      ensures k >= |prefills| ==> idx[k] in normals
    {
    }
  }

  /** One burst: blocks for the verified tokens, the burst itself, and back to what was kept. */
  method BurstAt<P, C>(d: Drafting<P>, rules: StopRules, seqs: seq<SequenceState<P, C>>, i: nat, prefix: PrefixCache,
        allocs: seq<BlockAllocator>, tables: seq<PagedCache>, ghost outside: seq<multiset<nat>>)
    returns (tokens: Option<seq<nat>>)
    requires BatchEngine.Distinct(seqs) && i < |seqs| == |tables| && Sharing(prefix, allocs, tables, outside)
    requires Ready(Values(seqs)[i]) && DraftReady(Values(seqs)[i])
    modifies seqs[i], tables[i], allocs
    ensures Sharing(prefix, allocs, tables, outside)
    ensures SameOutside(old(LayersOf(tables)), LayersOf(tables), [i])
    ensures tokens.None? ==> Values(seqs) == old(Values(seqs))
    ensures tokens.Some? ==>
      && Values(seqs) == old(Values(seqs))[i := Burst(d.target, d.draft, rules, old(Values(seqs))[i])]
      && tokens.value == BurstEmits(d.target, d.draft, rules, old(Values(seqs))[i])
  {
    hide Sound, Burst, BurstEmits, Ready, DraftReady, SequenceState.Value, SameData;
    ghost var vals := LayersOf(tables);
    SwitchOff(prefix, allocs, tables, i, outside);
    var ok := ReserveRow(prefix, allocs, tables, i, SPEC_DRAFT_K + 1, outside);
    assert forall j | 0 <= j < |tables| && j != i :: LayersOf(tables)[j] == vals[j];
    if !ok {
      return None;
    }
    var newTokens := RunBurst(d.target, d.draft, rules, seqs[i]);
    var kept := |TokensIn(seqs[i])|;
    TruncateRow(prefix, allocs, tables, i, if kept == 0 then 0 else kept - 1, outside);
    return Some(newTokens);
  }

  method SwitchOff(prefix: PrefixCache, allocs: seq<BlockAllocator>, tables: seq<PagedCache>, i: nat,
        ghost outside: seq<multiset<nat>>)
    requires i < |tables| && Sharing(prefix, allocs, tables, outside)
    modifies tables[i]
    ensures Sharing(prefix, allocs, tables, outside) && !tables[i].poolWrites
  {
    hide Sound, Separate;
    ghost var vals := LayersOf(tables);
    tables[i].SetPoolWrites(false);
    assert LayersOf(tables) == vals;
  }

  /** The first `n` of `specs` have had their bursts. */
  ghost predicate BurstTo<P, C>(d: Drafting<P>, rules: StopRules, before: seq<Sequence<P, C>>, specs: seq<nat>, n: nat,
        now: seq<Sequence<P, C>>, bursts: seq<seq<nat>>) {
    && |now| == |before| && n == |bursts| <= |specs| && Indices(specs, |before|)
    && (forall i: nat | i < |now| && i !in specs[..n] :: now[i] == before[i])
    && forall k | 0 <= k < n ::
      && before[specs[k]].tokens != []
      && now[specs[k]] == Burst(d.target, d.draft, rules, before[specs[k]])
      && bursts[k] == BurstEmits(d.target, d.draft, rules, before[specs[k]])
  }

  lemma {:induction false} OneMoreBurst<P, C>(d: Drafting<P>, rules: StopRules, before: seq<Sequence<P, C>>,
        specs: seq<nat>, n: nat, now: seq<Sequence<P, C>>, bursts: seq<seq<nat>>, more: seq<nat>)
    requires BurstTo(d, rules, before, specs, n, now, bursts) && n < |specs|
    ensures specs[n] < |now| && now[specs[n]] == before[specs[n]]
    ensures before[specs[n]].tokens != [] && more == BurstEmits(d.target, d.draft, rules, before[specs[n]]) ==>
      BurstTo(d, rules, before, specs, n + 1,
        now[specs[n] := Burst(d.target, d.draft, rules, before[specs[n]])], bursts + [more])
  {
    hide Burst, BurstEmits;
    var i := specs[n];
    assert i !in specs[..n];
    assert specs[..n + 1] == specs[..n] + [i];
  }

  method RunBursts<P, C>(d: Drafting<P>, rules: StopRules, seqs: seq<SequenceState<P, C>>, specs: seq<nat>,
        prefix: PrefixCache, allocs: seq<BlockAllocator>, tables: seq<PagedCache>, ghost outside: seq<multiset<nat>>)
    returns (bursts: seq<seq<nat>>, ok: bool)
    requires BatchEngine.Distinct(seqs) && |seqs| == |tables| && Sharing(prefix, allocs, tables, outside)
    requires Indices(specs, |seqs|)
    requires forall i | i in specs :: i < |seqs| && Ready(Values(seqs)[i]) && DraftReady(Values(seqs)[i])
    modifies seqs, tables, allocs
    ensures Sharing(prefix, allocs, tables, outside)
    ensures |bursts| <= |specs| && (ok ==> |bursts| == |specs|)
    ensures BurstTo(d, rules, old(Values(seqs)), specs, |bursts|, Values(seqs), bursts)
    ensures SameOutside(old(LayersOf(tables)), LayersOf(tables), specs)
  {
    hide Sharing, BurstTo, Burst, BurstEmits, Values, BatchEngine.Distinct, SequenceState.Value, Indices, DraftReady,
      Ready;
    ghost var before, vals := Values(seqs), LayersOf(tables);
    bursts := [];
    NoBursts(d, rules, before, specs);
    while |bursts| < |specs|
      invariant |bursts| <= |specs| && Sharing(prefix, allocs, tables, outside)
      invariant BurstTo(d, rules, before, specs, |bursts|, Values(seqs), bursts)
      invariant SameOutside(vals, LayersOf(tables), specs)
    {
      var i := specs[|bursts|];
      assert i in specs;
      OneMoreBurst(d, rules, before, specs, |bursts|, Values(seqs), bursts,
        BurstEmits(d.target, d.draft, rules, before[i]));
      ReadyHasTokens(before[i]);
      var tokens := BurstAt(d, rules, seqs, i, prefix, allocs, tables, outside);
      if tokens.None? {
        return bursts, false;
      }
      bursts := bursts + [tokens.value];
    }
    return bursts, true;
  }

  lemma {:induction false} ReadyHasTokens<P, C>(v: Sequence<P, C>)
    requires Ready(v)
    ensures v.tokens != []
  {
    hide Slots;
  }

  lemma {:induction false} NoBursts<P, C>(d: Drafting<P>, rules: StopRules, before: seq<Sequence<P, C>>,
        specs: seq<nat>)
    requires Indices(specs, |before|)
    ensures BurstTo(d, rules, before, specs, 0, before, [])
  {
  }

  // ----- what a step emits

  /** The tokens that the first `n` of these sequences emit in a step alone, each with its sequence. */
  function EmittedBy<P, C>(env: Env<P, C>, vs: seq<Sequence<P, C>>, idx: seq<nat>, n: nat): seq<(nat, nat)>
    requires InRange(idx, |vs|) && n <= |idx|
  {
    if n == 0 then [] else
      var token := StepAlone(env, vs[idx[n - 1]]).1;
      EmittedBy(env, vs, idx, n - 1) + if token.Some? then [(idx[n - 1], token.value)] else []
  }

  /** The tokens that the bursts of the first `n` of these sequences emit, each with its sequence. */
  function EmittedInBursts<P, C>(d: Drafting<P>, rules: StopRules, vs: seq<Sequence<P, C>>, specs: seq<nat>,
        n: nat): seq<(nat, nat)>
    requires InRange(specs, |vs|) && n <= |specs|
  {
    if n == 0 then [] else
      EmittedInBursts(d, rules, vs, specs, n - 1)
      + Tagged(specs[n - 1], BurstEmits(d.target, d.draft, rules, vs[specs[n - 1]]))
  }

  function Tagged(i: nat, tokens: seq<nat>): seq<(nat, nat)> {
    seq<(nat, nat)>(|tokens|, k requires 0 <= k < |tokens| => (i, tokens[k]))
  }

  /** The batch's tokens under the numbers of their sequences. */
  function Named(idx: seq<nat>, tokens: seq<(nat, nat)>): seq<(nat, nat)>
    requires forall k | 0 <= k < |tokens| :: tokens[k].0 < |idx|
  {
    seq<(nat, nat)>(|tokens|, k requires 0 <= k < |tokens| => (idx[tokens[k].0], tokens[k].1))
  }

  lemma {:induction false} NamedIsEmitted<P, C>(env: Env<P, C>, vs: seq<Sequence<P, C>>, idx: seq<nat>, n: nat)
    requires Indices(idx, |vs|) && InRange(idx, |vs|) && n <= |idx|
    ensures var tokens := EmittedAlone(env, Pick(vs, idx), n);
      && (forall k | 0 <= k < |tokens| :: tokens[k].0 < n)
      && Named(idx, tokens) == EmittedBy(env, vs, idx, n)
  {
    hide StepAlone, Indices;
    if n > 0 {
      NamedIsEmitted(env, vs, idx, n - 1);
      assert Pick(vs, idx)[n - 1] == vs[idx[n - 1]];
    }
  }

  /** Bursts of sequences that are the same emit the same. */
  lemma {:induction false} SameBursts<P, C>(d: Drafting<P>, rules: StopRules, vs: seq<Sequence<P, C>>,
        mid: seq<Sequence<P, C>>, specs: seq<nat>, n: nat)
    requires InRange(specs, |vs|) && |vs| == |mid| && n <= |specs|
    requires forall k | 0 <= k < n :: vs[specs[k]] == mid[specs[k]]
    ensures EmittedInBursts(d, rules, vs, specs, n) == EmittedInBursts(d, rules, mid, specs, n)
  {
    hide BurstEmits;
    if n > 0 {
      SameBursts(d, rules, vs, mid, specs, n - 1);
    }
  }

  /** All that a step emits: the batch's tokens, then the bursts'. */
  function EmittedInStep<P, C>(env: Env<P, C>, d: Option<Drafting<P>>, vs: seq<Sequence<P, C>>, prefills: seq<nat>,
        decodes: seq<nat>): seq<(nat, nat)>
    requires Indices(prefills + decodes, |vs|)
  {
    PartsInRange(d, vs, prefills, decodes);
    var batch, specs := prefills + NormalsOf(d, vs, decodes), SpecsOf(d, vs, decodes);
    EmittedBy(env, vs, batch, |batch|)
    + if d.Some? then EmittedInBursts(d.value, env.rules, vs, specs, |specs|) else []
  }

  lemma {:induction false} PartsInRange<P, C>(d: Option<Drafting<P>>, vs: seq<Sequence<P, C>>, prefills: seq<nat>,
        decodes: seq<nat>)
    requires InRange(prefills + decodes, |vs|)
    ensures InRange(prefills, |vs|) && InRange(decodes, |vs|)
    ensures InRange(prefills + NormalsOf(d, vs, decodes), |vs|) && InRange(SpecsOf(d, vs, decodes), |vs|)
  {
    hide TakesBursts;
    forall k | 0 <= k < |prefills|
      ensures prefills[k] < |vs|
    {
      assert (prefills + decodes)[k] == prefills[k];
    }
    forall k | 0 <= k < |decodes|
      ensures decodes[k] < |vs|
    {
      assert (prefills + decodes)[|prefills| + k] == decodes[k];
    }
    FilteredInRange(d, vs, decodes);
  }

  lemma {:induction false} FilteredInRange<P, C>(d: Option<Drafting<P>>, vs: seq<Sequence<P, C>>, decodes: seq<nat>)
    requires InRange(decodes, |vs|)
    ensures InRange(NormalsOf(d, vs, decodes), |vs|) && InRange(SpecsOf(d, vs, decodes), |vs|)
    decreases |decodes|
  {
    hide TakesBursts;
    if decodes != [] {
      FilteredInRange(d, vs, decodes[..|decodes| - 1]);
    }
  }

  /** What a step does to sequence `i`. */
  ghost predicate Outcome<P, C>(env: Env<P, C>, d: Option<Drafting<P>>, prefills: seq<nat>, decodes: seq<nat>, i: nat,
        before: Sequence<P, C>, after: Sequence<P, C>) {
    if i in decodes && TakesBursts(d, before) then
      before.tokens != [] && after == Burst(d.value.target, d.value.draft, env.rules, before)
    else if i in prefills || i in decodes then after == StepAlone(env, before).0
    else after == before
  }

  ghost predicate Outcomes<P, C>(env: Env<P, C>, d: Option<Drafting<P>>, prefills: seq<nat>, decodes: seq<nat>,
        before: seq<Sequence<P, C>>, after: seq<Sequence<P, C>>) {
    |after| == |before| && forall i | 0 <= i < |before| :: Outcome(env, d, prefills, decodes, i, before[i], after[i])
  }

  lemma {:induction false} OutcomesAre<P, C>(env: Env<P, C>, d: Option<Drafting<P>>, prefills: seq<nat>,
        decodes: seq<nat>, specs: seq<nat>, normals: seq<nat>, before: seq<Sequence<P, C>>, mid: seq<Sequence<P, C>>,
        after: seq<Sequence<P, C>>, emitted: seq<(nat, nat)>, bursts: seq<seq<nat>>)
    requires Parted(d, before, decodes, specs, normals) && Indices(prefills + normals, |before|)
    requires forall i | i in prefills + normals :: i !in specs
    requires SameOutside(before, mid, prefills + normals)
    requires Stepped(env, Pick(before, prefills + normals), Pick(mid, prefills + normals), Some(emitted))
    requires if d.Some? then BurstTo(d.value, env.rules, mid, specs, |specs|, after, bursts) else after == mid
    ensures Outcomes(env, d, prefills, decodes, before, after)
  {
    hide Burst, BurstEmits, StepAlone, EmittedAlone, BurstTo, Indices;
    var idx := prefills + normals;
    BurstsKeepCount(env, d, specs, mid, after, bursts);
    forall i: nat | i < |before|
      ensures Outcome(env, d, prefills, decodes, i, before[i], after[i])
    {
      if i in idx {
        var k :| 0 <= k < |idx| && idx[k] == i;
        assert Pick(mid, idx)[k] == mid[i] && Pick(before, idx)[k] == before[i];
        assert AloneAll(env, Pick(before, idx))[k] == StepAlone(env, before[i]).0;
        assert i in prefills || i in normals;
        assert i !in specs;
      } else {
        assert mid[i] == before[i];
        NotInBatch(prefills, normals, i);
      }
      BurstOutcome(env, d, specs, mid, after, bursts, i);
    }
  }

  lemma {:induction false} NotInBatch(prefills: seq<nat>, normals: seq<nat>, i: nat)
    requires i !in prefills + normals
    ensures i !in prefills && i !in normals
  {
  }

  lemma {:induction false} BurstsKeepCount<P, C>(env: Env<P, C>, d: Option<Drafting<P>>, specs: seq<nat>,
        mid: seq<Sequence<P, C>>, after: seq<Sequence<P, C>>, bursts: seq<seq<nat>>)
    requires if d.Some? then BurstTo(d.value, env.rules, mid, specs, |specs|, after, bursts) else after == mid
    ensures |after| == |mid|
  {
    hide Burst, BurstEmits, Indices;
  }

  lemma {:induction false} BurstOutcome<P, C>(env: Env<P, C>, d: Option<Drafting<P>>, specs: seq<nat>,
        mid: seq<Sequence<P, C>>, after: seq<Sequence<P, C>>, bursts: seq<seq<nat>>, i: nat)
    requires if d.Some? then BurstTo(d.value, env.rules, mid, specs, |specs|, after, bursts) else after == mid
    requires i < |mid| == |after|
    ensures d.Some? && i in specs ==>
      mid[i].tokens != [] && after[i] == Burst(d.value.target, d.value.draft, env.rules, mid[i])
    ensures d.None? || i !in specs ==> after[i] == mid[i]
  {
    hide Burst, BurstEmits, Indices;
    assert specs[..|specs|] == specs;
    if i in specs {
      var k :| 0 <= k < |specs| && specs[k] == i;
    }
  }

  /** One engine step with an optional draft: prefills and the decodes that stay take the batch, plain greedy decodes
      then take their bursts, one by one. What it emits is one list, the batch's tokens first. */
  method StepWithDraft<P, C>(env: Env<P, C>, d: Option<Drafting<P>>, seqs: seq<SequenceState<P, C>>, prefills: seq<nat>,
        decodes: seq<nat>, prefix: PrefixCache, allocs: seq<BlockAllocator>, tables: seq<PagedCache>,
        ghost outside: seq<multiset<nat>>, pacer: PrefillPacer, weather: Weather)
    returns (newTokens: Option<seq<(nat, nat)>>)
    requires pacer.Valid() && BatchEngine.Distinct(seqs) && |seqs| == |tables| && |allocs| > 0
    requires Sharing(prefix, allocs, tables, outside)
    requires Scheduled(prefix, Values(seqs), LayersOf(tables), |allocs|, prefills, decodes)
    modifies seqs, tables, allocs, prefix`entries, prefix`log, pacer
    ensures pacer.Valid() && Sharing(prefix, allocs, tables, outside)
    ensures SameOutside(old(Values(seqs)), Values(seqs), prefills + decodes)
    ensures SameOutside(old(LayersOf(tables)), LayersOf(tables), prefills + decodes)
    ensures Indices(prefills + decodes, |seqs|)
    ensures LogFrom(prefix.log, old(prefix.log), old(TokensOf(Pick(Values(seqs), prefills + decodes))))
    ensures newTokens.Some? ==> Outcomes(env, d, prefills, decodes, old(Values(seqs)), Values(seqs))
    ensures newTokens.Some? ==> newTokens.value == EmittedInStep(env, d, old(Values(seqs)), prefills, decodes)
  {
    hide Sharing, Scheduled, Parted, Indices, Admitted, AllForeseen, Stepped, BatchEngine.Distinct, Values, LayersOf,
      NoTables, SequenceState.Value, PrefillPacer.Valid, LogFrom, SameOutside, Pick, BurstTo, Outcomes, DraftReady,
      Ready, SpecsOf, NormalsOf, EmittedInBursts, EmittedBy, AllTagged, TokensOf;
    ghost var before, vals, log := Values(seqs), LayersOf(tables), prefix.log;
    ScheduledDecodes(prefix, before, vals, |allocs|, prefills, decodes);
    var specs, normals := Partition(d, seqs, decodes);
    BatchIsAdmitted(prefix, d, before, vals, |allocs|, prefills, decodes, specs, normals);
    SpecsAreReady(prefix, d, before, vals, |allocs|, prefills, decodes, specs, normals);
    var batch := prefills + normals;
    var emitted := StepPicked(env, seqs, batch, |prefills|, prefix, allocs, tables, outside, pacer, weather);
    ghost var mid, vals' := Values(seqs), LayersOf(tables);
    LogFromAll(d, prefix.log, log, before, prefills, decodes, specs, normals);
    FewerOutside(d, before, before, mid, prefills, decodes, specs, normals);
    FewerOutside(d, before, vals, vals', prefills, decodes, specs, normals);
    if emitted.None? {
      return None;
    }
    newTokens := Some(BatchTokens(env, before, mid, batch, emitted.value));
    ghost var all: seq<seq<nat>> := [];
    if d.Some? {
      SpecsWait(before, mid, batch, specs);
      var bursts, ok := RunBursts(d.value, env.rules, seqs, specs, prefix, allocs, tables, outside);
      BurstsOutside(d.value, env.rules, mid, specs, Values(seqs), bursts);
      OutsideBoth(d, before, before, mid, Values(seqs), prefills, decodes, specs, normals);
      OutsideBoth(d, before, vals, vals', LayersOf(tables), prefills, decodes, specs, normals);
      if !ok {
        return None;
      }
      BurstTokens(d.value, env.rules, before, mid, batch, specs, bursts, Values(seqs));
      newTokens, all := Some(newTokens.value + AllTagged(specs, bursts, |specs|)), bursts;
    }
    OutcomesAre(env, d, prefills, decodes, specs, normals, before, mid, Values(seqs), emitted.value, all);
  }

  /** The batch's texts are among those of all that are scheduled. */
  lemma {:induction false} LogFromAll<P, C>(d: Option<Drafting<P>>, log: set<Registration>, before: set<Registration>,
        vs: seq<Sequence<P, C>>, prefills: seq<nat>, decodes: seq<nat>, specs: seq<nat>, normals: seq<nat>)
    requires Parted(d, vs, decodes, specs, normals)
    requires Indices(prefills + normals, |vs|) && Indices(prefills + decodes, |vs|)
    requires LogFrom(log, before, TokensOf(Pick(vs, prefills + normals)))
    ensures LogFrom(log, before, TokensOf(Pick(vs, prefills + decodes)))
  {
    hide TakesBursts;
    var batch, all := prefills + normals, prefills + decodes;
    forall r | r in log && r !in before
      ensures exists i | 0 <= i < |all| :: r.prefix <= TokensOf(Pick(vs, all))[i]
    {
      var k :| 0 <= k < |batch| && r.prefix <= TokensOf(Pick(vs, batch))[k];
      assert batch[k] in prefills || batch[k] in normals;
      assert batch[k] in all;
      var i :| 0 <= i < |all| && all[i] == batch[k];
      assert TokensOf(Pick(vs, all))[i] == TokensOf(Pick(vs, batch))[k];
    }
  }

  lemma {:induction false} FewerOutside<P, C, T>(d: Option<Drafting<P>>, vs: seq<Sequence<P, C>>, a: seq<T>, b: seq<T>,
        prefills: seq<nat>, decodes: seq<nat>, specs: seq<nat>, normals: seq<nat>)
    requires Parted(d, vs, decodes, specs, normals) && SameOutside(a, b, prefills + normals)
    ensures SameOutside(a, b, prefills + decodes)
  {
    hide Indices, TakesBursts;
  }

  lemma {:induction false} OutsideBoth<P, C, T>(d: Option<Drafting<P>>, vs: seq<Sequence<P, C>>, a: seq<T>, b: seq<T>,
        c: seq<T>, prefills: seq<nat>, decodes: seq<nat>, specs: seq<nat>, normals: seq<nat>)
    requires Parted(d, vs, decodes, specs, normals) && SameOutside(a, b, prefills + normals) && SameOutside(b, c, specs)
    ensures SameOutside(a, c, prefills + decodes)
  {
    hide Indices, TakesBursts;
  }

  lemma {:induction false} BurstsOutside<P, C>(d: Drafting<P>, rules: StopRules, before: seq<Sequence<P, C>>,
        specs: seq<nat>, now: seq<Sequence<P, C>>, bursts: seq<seq<nat>>)
    requires BurstTo(d, rules, before, specs, |bursts|, now, bursts)
    ensures SameOutside(before, now, specs)
  {
    hide Burst, BurstEmits, Indices;
  }

  /** The batch's tokens are those of steps alone. */
  function BatchTokens<P, C>(env: Env<P, C>, ghost before: seq<Sequence<P, C>>, ghost mid: seq<Sequence<P, C>>,
        batch: seq<nat>, emitted: seq<(nat, nat)>): (tokens: seq<(nat, nat)>)
    requires Indices(batch, |before|) && Indices(batch, |mid|) && InRange(batch, |before|)
    requires Stepped(env, Pick(before, batch), Pick(mid, batch), Some(emitted))
    ensures tokens == EmittedBy(env, before, batch, |batch|)
  {
    NamedIsEmitted(env, before, batch, |batch|);
    Named(batch, emitted)
  }

  function AllTagged(specs: seq<nat>, bursts: seq<seq<nat>>, n: nat): seq<(nat, nat)>
    requires n <= |specs| && n <= |bursts|
  {
    if n == 0 then [] else AllTagged(specs, bursts, n - 1) + Tagged(specs[n - 1], bursts[n - 1])
  }

  lemma {:induction false} BurstTokens<P, C>(d: Drafting<P>, rules: StopRules, before: seq<Sequence<P, C>>,
        mid: seq<Sequence<P, C>>, batch: seq<nat>, specs: seq<nat>, bursts: seq<seq<nat>>, after: seq<Sequence<P, C>>)
    requires BurstTo(d, rules, mid, specs, |specs|, after, bursts) && InRange(specs, |before|)
    requires SameOutside(before, mid, batch) && forall i | i in batch :: i !in specs
    ensures |bursts| == |specs|
    ensures AllTagged(specs, bursts, |specs|) == EmittedInBursts(d, rules, before, specs, |specs|)
  {
    hide Burst, BurstEmits, Indices;
    forall k | 0 <= k < |specs|
      ensures before[specs[k]] == mid[specs[k]]
    {
      assert specs[k] in specs;
    }
    SameBursts(d, rules, before, mid, specs, |specs|);
    TaggedBursts(d, rules, mid, specs, bursts, |specs|);
  }

  lemma {:induction false} TaggedBursts<P, C>(d: Drafting<P>, rules: StopRules, vs: seq<Sequence<P, C>>,
        specs: seq<nat>, bursts: seq<seq<nat>>, n: nat)
    requires InRange(specs, |vs|) && n <= |specs| == |bursts|
    requires forall k | 0 <= k < n :: bursts[k] == BurstEmits(d.target, d.draft, rules, vs[specs[k]])
    ensures AllTagged(specs, bursts, n) == EmittedInBursts(d, rules, vs, specs, n)
  {
    hide BurstEmits;
    if n > 0 {
      TaggedBursts(d, rules, vs, specs, bursts, n - 1);
    }
  }

  lemma {:induction false} ScheduledDecodes<P, C>(prefix: PrefixCache, vs: seq<Sequence<P, C>>, vals: seq<seq<Table>>,
        numLayers: nat, prefills: seq<nat>, decodes: seq<nat>)
    requires Scheduled(prefix, vs, vals, numLayers, prefills, decodes)
    ensures Indices(decodes, |vs|) && Indices(prefills + decodes, |vs|)
  {
    PartsAreIndices(prefills, decodes, |vs|);
  }

  lemma {:induction false} SpecsAreReady<P, C>(prefix: PrefixCache, d: Option<Drafting<P>>, vs: seq<Sequence<P, C>>,
        vals: seq<seq<Table>>, numLayers: nat, prefills: seq<nat>, decodes: seq<nat>, specs: seq<nat>,
        normals: seq<nat>)
    requires Scheduled(prefix, vs, vals, numLayers, prefills, decodes) && Parted(d, vs, decodes, specs, normals)
    ensures Indices(specs, |vs|) && InRange(specs, |vs|)
    ensures forall i | i in specs :: i < |vs| && Ready(vs[i]) && DraftReady(vs[i])
  {
    hide Ready, DraftReady, TakesBursts, Foreseen, Fresh, NoTables;
  }

  /** The sequences that wait for their bursts are as they were. */
  lemma {:induction false} SpecsWait<P, C>(vs: seq<Sequence<P, C>>, mid: seq<Sequence<P, C>>, idx: seq<nat>,
        specs: seq<nat>)
    requires SameOutside(vs, mid, idx) && forall i | i in idx :: i !in specs
    requires forall i | i in specs :: i < |vs| && Ready(vs[i]) && DraftReady(vs[i])
    ensures |mid| == |vs|
    ensures forall i | i in specs :: i < |mid| && Ready(mid[i]) && DraftReady(mid[i])
  {
    hide Ready, DraftReady;
    forall i | i in specs
      ensures Ready(mid[i]) && DraftReady(mid[i])
    {
      assert mid[i] == vs[i];
    }
  }

  /** Theorem: with a greedy sampler, a step with any draft leaves every scheduled sequence after some number of its own
      steps, as long as the target's next five tokens, cut at the first stop, fit what each burst sequence's
      `max_tokens` leaves. */
  lemma {:induction false} StepIsAlone<P(!new), C>(env: Env<P, C>, d: Option<Drafting<P>>, prefills: seq<nat>,
        decodes: seq<nat>, i: nat, before: Sequence<P, C>, after: Sequence<P, C>)
    requires Outcome(env, d, prefills, decodes, i, before, after) && (i in prefills || i in decodes)
    requires before.status == Running
    requires i in decodes && TakesBursts(d, before) ==>
      && SamplesGreedily(env, d.value) && Ready(before) && Decoding(before)
      && ChainLength(d.value.target, env.rules, before, SPEC_DRAFT_K + 1) <= Speculative.Room(before)
    ensures IsAlone(env, before, after)
  {
    hide Burst, StepAlone, SamplesGreedily, ChainLength, Slots, Ready, Rested;
    if i in decodes && TakesBursts(d, before) {
      BurstIsAloneIff(env, d.value, before);
    } else {
      assert before.(status := Running) == before;
      assert AloneFor(env, before, 0) == before;
      assert Rested(after) == Rested(AloneFor(env, before, 1));
    }
  }
}
