/** Whole runs of the engine, with or without a draft model: whatever the scheduler picks, preempts and evicts, and
    whichever steps fail, a sequence that is not aborted goes through the states it would go through alone
    (src/engine.rs, src/scheduler/mod.rs, src/server/routes/engine_loop.rs). */
module EngineRuns {
  import opened BatchEngine
  import opened Chunks
  import opened EngineBatches
  import opened EngineSteps
  import opened PagedPools
  import opened PrefixCaches
  import opened SequenceStates
  import opened SharedBlocks
  import opened Speculative
  import opened Wrappers

  /** After this many failed steps in a row, everything is aborted. */
  const MAX_CONSECUTIVE_ERRORS: nat := 3

  // ----- what the scheduler may do

  /** Between steps the scheduler may evict the cache entry used longest ago, refresh those of a prompt, or preempt. */
  datatype Move = EvictOldest | RefreshPrompt(i: nat) | Preempt(i: nat)

  /** One round: moves, then a step of the sequences in `picked`. */
  datatype Round = Round(moves: seq<Move>, picked: seq<nat>, weather: Weather)

  function TimesPicked(rounds: seq<Round>, i: nat): (n: nat)
    ensures n <= |rounds|
  {
    if rounds == [] then 0 else
      TimesPicked(rounds[..|rounds| - 1], i) + if i in rounds[|rounds| - 1].picked then 1 else 0
  }

  // ----- how far a sequence may have come

  /** How many own steps one pick is worth at most. */
  function StepsPerPick<P>(d: Option<Drafting<P>>): nat {
    if d.Some? then SPEC_DRAFT_K + 1 else 1
  }

  /** A last burst went past the cap: after `k` own steps, more of the target's next tokens than the cap left. */
  ghost predicate Overran<P, C>(env: Env<P, C>, d: Drafting<P>, orig: Sequence<P, C>, k: nat, v: Sequence<P, C>) {
    var t := AloneFor(env, orig, k);
    && v.status == Finished && t.status != Finished && TakesBursts(Some(d), t) && t.tokens <= v.tokens
    && var m := |v.tokens| - |t.tokens|;
       0 < Speculative.Room(t) < m <= SPEC_DRAFT_K + 1 && v.tokens == Continued(d.target, t.tokens, m)
  }

  /** Where `p` picks may have brought a sequence. */
  ghost predicate Reached<P, C>(env: Env<P, C>, d: Option<Drafting<P>>, orig: Sequence<P, C>, p: nat,
        v: Sequence<P, C>) {
    || (exists k | p <= k <= StepsPerPick(d) * p :: Tracked(env, orig, k, v))
    || (d.Some? && exists k | 0 <= k <= StepsPerPick(d) * p :: Overran(env, d.value, orig, k, v))
  }

  lemma {:induction false} TrackedIsReached<P, C>(env: Env<P, C>, d: Option<Drafting<P>>, orig: Sequence<P, C>, n: nat,
        p: nat, v: Sequence<P, C>)
    requires Tracked(env, orig, n, v) && p <= n <= StepsPerPick(d) * p
    ensures Reached(env, d, orig, p, v)
  {
  }

  /** A finished sequence may be picked again to no effect. */
  lemma {:induction false} ReachedOn<P, C>(env: Env<P, C>, d: Option<Drafting<P>>, orig: Sequence<P, C>, p: nat,
        v: Sequence<P, C>)
    requires v.status == Finished && Reached(env, d, orig, p, v)
    ensures Reached(env, d, orig, p + 1, v)
  {
    hide Tracked, Overran;
    var most := StepsPerPick(d);
    if k :| p <= k <= most * p && Tracked(env, orig, k, v) {
      TrackedOn(env, orig, k, v);
      assert Tracked(env, orig, k + 1, v) && k + 1 <= most * (p + 1);
    } else {
      var k :| 0 <= k <= most * p && Overran(env, d.value, orig, k, v);
      assert Overran(env, d.value, orig, k, v) && k <= most * (p + 1);
    }
  }

  // ----- where a sequence may be

  /** Between steps a live sequence waits with nothing cached, or runs with all but its last token cached. */
  ghost predicate Placed<P, C>(v: Sequence<P, C>, ts: seq<Table>, numLayers: nat) {
    && DraftReady(v)
    && if v.phase == Prefill then Fresh(v) && v.status == Waiting && ts == NoTables(numLayers)
       else Ready(v) && Decoding(v)
  }

  /** A sequence that has left the scheduler, finished or aborted, holds no block; a live one is placed, after `n` own
      steps, at least as many as its picks. */
  ghost predicate Stands<P, C>(env: Env<P, C>, d: Option<Drafting<P>>, orig: Sequence<P, C>, n: nat, p: nat,
        v: Sequence<P, C>, ts: seq<Table>, away: bool, aborted: bool, numLayers: nat) {
    if away then ts == NoTables(numLayers) && (aborted || (v.status == Finished && Reached(env, d, orig, p, v)))
    else !aborted && Placed(v, ts, numLayers) && Tracked(env, orig, n, v) && p <= n <= StepsPerPick(d) * p
  }

  /** What is known of all sequences, as values. */
  datatype Standing<P, C> = Standing(origs: seq<Sequence<P, C>>, times: seq<nat>, picks: seq<nat>, away: seq<bool>,
    aborted: seq<bool>)

  ghost predicate AllStand<P, C>(env: Env<P, C>, d: Option<Drafting<P>>, st: Standing<P, C>, vs: seq<Sequence<P, C>>,
        vals: seq<seq<Table>>, numLayers: nat) {
    && |st.origs| == |st.times| == |st.picks| == |st.away| == |st.aborted| == |vs| == |vals|
    && forall i | 0 <= i < |vs| :: StandsAt(env, d, st, vs, vals, numLayers, i)
  }

  ghost predicate StandsAt<P, C>(env: Env<P, C>, d: Option<Drafting<P>>, st: Standing<P, C>, vs: seq<Sequence<P, C>>,
        vals: seq<seq<Table>>, numLayers: nat, i: nat)
    requires |st.origs| == |st.times| == |st.picks| == |st.away| == |st.aborted| == |vs| == |vals| && i < |vs|
  {
    Stands(env, d, st.origs[i], st.times[i], st.picks[i], vs[i], vals[i], st.away[i], st.aborted[i], numLayers)
  }

  // ----- clearing, preempting and leaving

  function Cleared<P, C>(v: Sequence<P, C>): Sequence<P, C> {
    v.(cache := [], draftCache := [])
  }

  function Preempted<P, C>(v: Sequence<P, C>): Sequence<P, C> {
    Cleared(v).(numProcessed := 0, phase := Prefill, status := Waiting)
  }

  /** No sequence outside the run holds a block. */
  ghost function Nobody(n: nat): (o: seq<multiset<nat>>)
    ensures |o| == n
  {
    seq(n, _ => multiset{})
  }

  /** The pool is sound for all sequences of the run. */
  ghost predicate Whole(prefix: PrefixCache, allocs: seq<BlockAllocator>, tables: seq<PagedCache>)
    reads prefix, allocs, tables
  {
    |allocs| > 0 && Sharing(prefix, allocs, tables, Nobody(|allocs|))
  }

  /** Sequence `i` gives up its blocks and caches and becomes `next` apart from them. */
  method ClearAt<P, C>(seqs: seq<SequenceState<P, C>>, tables: seq<PagedCache>, i: nat, prefix: PrefixCache,
        allocs: seq<BlockAllocator>)
    requires BatchEngine.Distinct(seqs) && i < |seqs| == |tables| && Whole(prefix, allocs, tables)
    modifies seqs[i], tables[i], allocs
    ensures Whole(prefix, allocs, tables)
    ensures Values(seqs) == old(Values(seqs))[i := Cleared(old(Values(seqs))[i])]
    ensures LayersOf(tables) == old(LayersOf(tables))[i := NoTables(|allocs|)]
  {
    hide Sound, NoTables, Nobody, SameData;
    ClearCaches(seqs[i]);
    ReleaseRow(prefix, allocs, tables, i, Nobody(|allocs|));
  }

  method ClearCaches<P, C>(s: SequenceState<P, C>)
    modifies s`cache, s`draftCache
    ensures s.Value() == Cleared(old(s.Value()))
  {
    s.cache := [];
    s.draftCache := [];
  }

  method Requeue<P, C>(seqs: seq<SequenceState<P, C>>, i: nat)
    requires BatchEngine.Distinct(seqs) && i < |seqs|
    modifies seqs[i]
    ensures Values(seqs) == old(Values(seqs))[i := Preempted(old(Values(seqs))[i])]
  {
    ClearCaches(seqs[i]);
    seqs[i].numProcessed := 0;
    seqs[i].phase := Prefill;
    seqs[i].status := Waiting;
  }

  /** All of a run between two steps. */
  ghost predicate Going<P, C>(env: Env<P, C>, d: Option<Drafting<P>>, st: Standing<P, C>,
        seqs: seq<SequenceState<P, C>>, tables: seq<PagedCache>, prefix: PrefixCache, allocs: seq<BlockAllocator>)
    reads seqs, tables, prefix, allocs
  {
    && |seqs| == |tables| && Whole(prefix, allocs, tables)
    && AllStand(env, d, st, Values(seqs), LayersOf(tables), |allocs|)
  }

  lemma {:induction false} PreemptedStands<P, C>(env: Env<P, C>, d: Option<Drafting<P>>, st: Standing<P, C>,
        vs: seq<Sequence<P, C>>, vals: seq<seq<Table>>, numLayers: nat, i: nat)
    requires AllStand(env, d, st, vs, vals, numLayers) && i < |vs| && !st.away[i] && vs[i].status == Running
    ensures AllStand(env, d, st, vs[i := Preempted(vs[i])], vals[i := NoTables(numLayers)], numLayers)
  {
    hide NoTables, AloneFor, Stands;
    var vs', vals' := vs[i := Preempted(vs[i])], vals[i := NoTables(numLayers)];
    forall j: nat | j < |vs|
      ensures StandsAt(env, d, st, vs', vals', numLayers, j)
    {
      assert StandsAt(env, d, st, vs, vals, numLayers, j);
      if j == i {
        OnePreempted(env, d, st.origs[i], st.times[i], st.picks[i], vs[i], vals[i], st.aborted[i], numLayers);
      }
    }
  }

  lemma {:induction false} OnePreempted<P, C>(env: Env<P, C>, d: Option<Drafting<P>>, orig: Sequence<P, C>, n: nat,
        p: nat, v: Sequence<P, C>, ts: seq<Table>, aborted: bool, numLayers: nat)
    requires Stands(env, d, orig, n, p, v, ts, false, aborted, numLayers) && v.status == Running
    ensures Stands(env, d, orig, n, p, Preempted(v), NoTables(numLayers), false, aborted, numLayers)
  {
    hide NoTables, AloneFor, Slots, Rested;
    PreemptedIsRested(v);
    NoSlots();
  }

  lemma {:induction false} NoSlots()
    ensures Slots([]) == []
  {
  }

  lemma {:induction false} PreemptedIsRested<P, C>(v: Sequence<P, C>)
    ensures Rested(Cleared(v)) == Rested(v)
    ensures v.status != Finished ==> Rested(Preempted(v)) == Rested(v)
  {
  }

  method MakeMove<P, C>(env: Env<P, C>, d: Option<Drafting<P>>, ghost st: Standing<P, C>,
        seqs: seq<SequenceState<P, C>>, tables: seq<PagedCache>, prefix: PrefixCache, allocs: seq<BlockAllocator>,
        move: Move, away: seq<bool>)
    requires BatchEngine.Distinct(seqs) && Going(env, d, st, seqs, tables, prefix, allocs) && away == st.away
    modifies seqs, tables, prefix`entries, allocs
    ensures Going(env, d, st, seqs, tables, prefix, allocs)
  {
    hide Sound, NoTables, Nobody, SameData, StandsAt, Preempted, Cleared;
    ghost var vals, vs := LayersOf(tables), Values(seqs);
    match move
    case EvictOldest =>
      var _ := SharedBlocks.Evict(prefix, allocs, vals, Nobody(|allocs|));
    case RefreshPrompt(i) =>
      if i < |seqs| {
        SharedBlocks.Refresh(prefix, allocs, seqs[i].tokens, vals, Nobody(|allocs|));
      }
    case Preempt(i) =>
      if i < |seqs| && !away[i] && StatusOf(seqs, i) == Running {
        PreemptedStands(env, d, st, vs, vals, |allocs|, i);
        Requeue(seqs, i);
        ReleaseRow(prefix, allocs, tables, i, Nobody(|allocs|));
        assert LayersOf(tables) == vals[i := NoTables(|allocs|)];
      }
  }

  function StatusOf<P, C>(seqs: seq<SequenceState<P, C>>, i: nat): (s: Status)
    requires i < |seqs|
    reads seqs
    ensures s == Values(seqs)[i].status
  {
    seqs[i].status
  }

  /** Those of `which` that are still there, among the first `n`. */
  predicate Leaves(away: seq<bool>, which: seq<bool>, n: nat, i: nat)
    requires |away| == |which| && i < |away|
  {
    i < n && which[i] && !away[i]
  }

  ghost predicate Left<P, C>(vs: seq<Sequence<P, C>>, vals: seq<seq<Table>>, vs': seq<Sequence<P, C>>,
        vals': seq<seq<Table>>, away: seq<bool>, which: seq<bool>, n: nat, numLayers: nat) {
    && |away| == |which| == |vs| == |vals| == |vs'| == |vals'|
    && forall i: nat | i < |vs| ::
      if Leaves(away, which, n, i) then vs'[i] == Cleared(vs[i]) && vals'[i] == NoTables(numLayers)
      else vs'[i] == vs[i] && vals'[i] == vals[i]
  }

  /** Sequences leave the scheduler and give up what they hold. */
  method Leave<P, C>(seqs: seq<SequenceState<P, C>>, tables: seq<PagedCache>, prefix: PrefixCache,
        allocs: seq<BlockAllocator>, away: seq<bool>, which: seq<bool>)
    requires BatchEngine.Distinct(seqs) && |seqs| == |tables| == |away| == |which| && Whole(prefix, allocs, tables)
    modifies seqs, tables, allocs
    ensures Whole(prefix, allocs, tables)
    ensures Left(old(Values(seqs)), old(LayersOf(tables)), Values(seqs), LayersOf(tables), away, which, |seqs|,
      |allocs|)
  {
    hide Whole, NoTables, Cleared, Values, BatchEngine.Distinct, LayersOf, Left, Leaves;
    ghost var vs, vals := Values(seqs), LayersOf(tables);
    NobodyLeft(vs, vals, away, which, |allocs|);
    for i := 0 to |seqs|
      invariant Whole(prefix, allocs, tables)
      invariant Left(vs, vals, Values(seqs), LayersOf(tables), away, which, i, |allocs|)
    {
      OneMoreLeft(vs, vals, Values(seqs), LayersOf(tables), away, which, i, |allocs|);
      if which[i] && !away[i] {
        ClearAt(seqs, tables, i, prefix, allocs);
      }
    }
  }

  lemma {:induction false} NobodyLeft<P, C>(vs: seq<Sequence<P, C>>, vals: seq<seq<Table>>, away: seq<bool>,
        which: seq<bool>, numLayers: nat)
    requires |away| == |which| == |vs| == |vals|
    ensures Left(vs, vals, vs, vals, away, which, 0, numLayers)
  {
  }

  lemma {:induction false} OneMoreLeft<P, C>(vs: seq<Sequence<P, C>>, vals: seq<seq<Table>>, vs': seq<Sequence<P, C>>,
        vals': seq<seq<Table>>, away: seq<bool>, which: seq<bool>, i: nat, numLayers: nat)
    requires Left(vs, vals, vs', vals', away, which, i, numLayers) && i < |vs|
    ensures if which[i] && !away[i] then
        Left(vs, vals, vs'[i := Cleared(vs'[i])], vals'[i := NoTables(numLayers)], away, which, i + 1, numLayers)
      else Left(vs, vals, vs', vals', away, which, i + 1, numLayers)
  {
    hide NoTables, Cleared;
  }

  // ----- confusable prefixes

  /** No two of the texts that the sequences can be in within `n` steps begin with confusable prefixes. */
  ghost predicate NoneConfusable<P, C>(chain: Hash, size: nat, env: Env<P, C>, origs: seq<Sequence<P, C>>, n: nat) {
    forall i: nat, j: nat, k: nat, m: nat | i < |origs| && j < |origs| && k <= n && m <= n ::
      Distinguishes(chain, size, AloneFor(env, origs[i], k).tokens, AloneFor(env, origs[j], m).tokens)
  }

  /** Every registered prefix begins one of those texts. */
  ghost predicate Known<P, C>(env: Env<P, C>, origs: seq<Sequence<P, C>>, n: nat, log: set<Registration>) {
    forall r | r in log :: Begins(env, origs, n, r.prefix)
  }

  ghost predicate Begins<P, C>(env: Env<P, C>, origs: seq<Sequence<P, C>>, n: nat, prefix: seq<nat>) {
    exists i: nat, k: nat | i < |origs| && k <= n :: prefix <= AloneFor(env, origs[i], k).tokens
  }

  lemma {:induction false} PrefixDistinguishes(chain: Hash, size: nat, a: seq<nat>, b: seq<nat>, p: seq<nat>)
    requires Distinguishes(chain, size, a, b) && p <= a
    ensures Distinguishes(chain, size, p, b)
  {
    hide Confusable;
    forall i: nat, j: nat | i * size <= |p| && j * size <= |b|
      ensures !Confusable(chain, size, p[..i * size], i, b[..j * size], j)
    {
      assert p[..i * size] == a[..i * size];
    }
  }

  lemma {:induction false} KnownIsForeseen<P, C>(prefix: PrefixCache, env: Env<P, C>, origs: seq<Sequence<P, C>>,
        n: nat, i: nat, k: nat)
    requires NoneConfusable(prefix.chain, prefix.size, env, origs, n) && Known(env, origs, n, prefix.log)
    requires i < |origs| && k <= n
    ensures Foreseen(prefix, AloneFor(env, origs[i], k).tokens)
  {
    hide Distinguishes, AloneFor;
    forall r | r in prefix.log
      ensures Distinguishes(prefix.chain, prefix.size, r.prefix, AloneFor(env, origs[i], k).tokens)
    {
      assert Begins(env, origs, n, r.prefix);
      var j: nat, m: nat :| j < |origs| && m <= n && r.prefix <= AloneFor(env, origs[j], m).tokens;
      var (a, b) := (AloneFor(env, origs[j], m).tokens, AloneFor(env, origs[i], k).tokens);
      PrefixDistinguishes(prefix.chain, prefix.size, a, b, r.prefix);
    }
  }

  lemma {:induction false} AllKnown<P, C>(env: Env<P, C>, origs: seq<Sequence<P, C>>, n: nat, log: set<Registration>,
        before: set<Registration>, prompts: seq<seq<nat>>)
    requires LogFrom(log, before, prompts) && Known(env, origs, n, before)
    requires forall p | 0 <= p < |prompts| :: Begins(env, origs, n, prompts[p])
    ensures Known(env, origs, n, log)
  {
    hide AloneFor;
    forall r | r in log
      ensures Begins(env, origs, n, r.prefix)
    {
      if r !in before {
        var p :| 0 <= p < |prompts| && r.prefix <= prompts[p];
        assert Begins(env, origs, n, prompts[p]);
        var i: nat, k: nat :| i < |origs| && k <= n && prompts[p] <= AloneFor(env, origs[i], k).tokens;
        assert r.prefix <= AloneFor(env, origs[i], k).tokens;
      }
    }
  }

  // ----- choosing a batch

  /** The unfinished sequences among `picked`, prefills apart from decodes. */
  ghost predicate Chosen<P, C>(vs: seq<Sequence<P, C>>, gone: seq<bool>, picked: seq<nat>, prefills: seq<nat>,
        decodes: seq<nat>) {
    && |gone| == |vs| && Indices(prefills + decodes, |vs|)
    && (forall i | 0 <= i < |vs| ::
      i in prefills + decodes <==> i in picked && !gone[i] && vs[i].status != Finished)
    && (forall i | i in prefills :: i < |vs| && vs[i].phase == Prefill)
    && forall i | i in decodes :: i < |vs| && vs[i].phase == Decode
  }

  method Choose<P, C>(seqs: seq<SequenceState<P, C>>, gone: seq<bool>, picked: seq<nat>)
    returns (prefills: seq<nat>, decodes: seq<nat>)
    requires |gone| == |seqs|
    ensures Chosen(Values(seqs), gone, picked, prefills, decodes)
  {
    prefills, decodes := [], [];
    ghost var vs := Values(seqs);
    for k := 0 to |picked|
      invariant Chosen(vs, gone, picked[..k], prefills, decodes)
    {
      var i := picked[k];
      assert picked[..k + 1] == picked[..k] + [i];
      if i < |seqs| && !gone[i] && seqs[i].status != Finished && i !in prefills && i !in decodes {
        if seqs[i].phase == Prefill {
          ChosenMore(vs, gone, picked[..k], prefills, decodes, i, true);
          prefills := prefills + [i];
        } else {
          ChosenMore(vs, gone, picked[..k], prefills, decodes, i, false);
          decodes := decodes + [i];
        }
      }
    }
    assert picked[..|picked|] == picked;
  }

  lemma {:induction false} ChosenMore<P, C>(vs: seq<Sequence<P, C>>, gone: seq<bool>, picked: seq<nat>,
        prefills: seq<nat>, decodes: seq<nat>, i: nat, prefill: bool)
    requires Chosen(vs, gone, picked, prefills, decodes)
    requires i < |vs| && !gone[i] && vs[i].status != Finished && i !in prefills && i !in decodes
    requires vs[i].phase == if prefill then Prefill else Decode
    ensures var ps, ds := if prefill then prefills + [i] else prefills, if prefill then decodes else decodes + [i];
      Chosen(vs, gone, picked + [i], ps, ds)
  {
    var ps, ds := if prefill then prefills + [i] else prefills, if prefill then decodes else decodes + [i];
    assert forall j :: j in ps + ds <==> j in prefills + decodes || j == i;
    InsertedIndex(prefills, decodes, i, |vs|);
  }

  lemma {:induction false} InsertedIndex(a: seq<nat>, b: seq<nat>, i: nat, n: nat)
    requires Indices(a + b, n) && i < n && i !in a && i !in b
    ensures Indices(a + [i] + b, n) && Indices(a + (b + [i]), n)
  {
    assert forall k | 0 <= k < |a| :: (a + b)[k] == a[k];
    assert forall k | 0 <= k < |b| :: (a + b)[|a| + k] == b[k];
  }

  function Admitting<P, C>(vs: seq<Sequence<P, C>>, prefills: seq<nat>): (next: seq<Sequence<P, C>>)
    ensures |next| == |vs|
  {
    seq(|vs|, i requires 0 <= i < |vs| => if i in prefills then vs[i].(status := Running) else vs[i])
  }

  /** A waiting prompt that is picked runs. */
  method Admit<P, C>(seqs: seq<SequenceState<P, C>>, prefills: seq<nat>)
    requires BatchEngine.Distinct(seqs) && forall i | i in prefills :: i < |seqs|
    modifies seqs
    ensures Values(seqs) == Admitting(old(Values(seqs)), prefills)
  {
    hide SequenceState.Value, BatchEngine.Distinct, Values;
    assert prefills[..0] == [];
    for k := 0 to |prefills|
      invariant Values(seqs) == Admitting(old(Values(seqs)), prefills[..k])
    {
      assert prefills[k] in prefills;
      AdmittingOne(old(Values(seqs)), prefills, k);
      AdmitOne(seqs, prefills[k]);
    }
    assert prefills[..|prefills|] == prefills;
  }

  lemma {:induction false} AdmittingOne<P, C>(vs: seq<Sequence<P, C>>, prefills: seq<nat>, k: nat)
    requires k < |prefills| && prefills[k] < |vs|
    ensures var sofar, i := Admitting(vs, prefills[..k]), prefills[k];
      Admitting(vs, prefills[..k + 1]) == sofar[i := sofar[i].(status := Running)]
  {
    assert prefills[..k + 1] == prefills[..k] + [prefills[k]];
  }

  method AdmitOne<P, C>(seqs: seq<SequenceState<P, C>>, i: nat)
    requires BatchEngine.Distinct(seqs) && i < |seqs|
    modifies seqs[i]
    ensures Values(seqs) == old(Values(seqs))[i := old(Values(seqs))[i].(status := Running)]
  {
    seqs[i].status := Running;
  }

  /** A chosen batch meets what a step asks, its prompts being among the texts the sequences go through alone. */
  lemma {:induction false} ChosenIsScheduled<P, C>(env: Env<P, C>, d: Option<Drafting<P>>, st: Standing<P, C>, n: nat,
        prefix: PrefixCache, vs: seq<Sequence<P, C>>, vals: seq<seq<Table>>, numLayers: nat, picked: seq<nat>,
        prefills: seq<nat>, decodes: seq<nat>)
    requires AllStand(env, d, st, vs, vals, numLayers) && Chosen(vs, st.away, picked, prefills, decodes)
    requires NoneConfusable(prefix.chain, prefix.size, env, st.origs, n) && Known(env, st.origs, n, prefix.log)
    requires forall i | 0 <= i < |vs| :: StepsPerPick(d) * st.picks[i] <= n
    ensures Scheduled(prefix, Admitting(vs, prefills), vals, numLayers, prefills, decodes)
    ensures Indices(prefills + decodes, |vs|)
    ensures forall p | p in TokensOf(Pick(Admitting(vs, prefills), prefills + decodes)) :: Begins(env, st.origs, n, p)
  {
    hide NoTables, Fresh, Ready, DraftReady, Foreseen, NoneConfusable, Known, Decoding, Stands, Begins;
    var idx, mid := prefills + decodes, Admitting(vs, prefills);
    forall i | i in idx
      ensures i < |vs| && Begins(env, st.origs, n, mid[i].tokens)
      ensures i in prefills ==> Fresh(mid[i]) && vals[i] == NoTables(numLayers) && Foreseen(prefix, mid[i].tokens)
      ensures i in decodes ==> Ready(mid[i]) && DraftReady(mid[i])
    {
      assert i in prefills || i in decodes;
      assert StandsAt(env, d, st, vs, vals, numLayers, i);
      LiveIsScheduled(env, d, st.origs[i], st.times[i], st.picks[i], vs[i], vals[i], st.aborted[i], numLayers,
        i in prefills);
      assert vs[i].tokens == AloneFor(env, st.origs[i], st.times[i]).tokens;
      KnownIsForeseen(prefix, env, st.origs, n, i, st.times[i]);
      BeginsItself(env, st.origs, n, i, st.times[i]);
    }
  }

  lemma {:induction false} BeginsItself<P, C>(env: Env<P, C>, origs: seq<Sequence<P, C>>, n: nat, i: nat, k: nat)
    requires i < |origs| && k <= n
    ensures Begins(env, origs, n, AloneFor(env, origs[i], k).tokens)
  {
    hide AloneFor;
  }

  lemma {:induction false} LiveIsScheduled<P, C>(env: Env<P, C>, d: Option<Drafting<P>>, orig: Sequence<P, C>, n: nat,
        p: nat, v: Sequence<P, C>, ts: seq<Table>, aborted: bool, numLayers: nat, prefill: bool)
    requires Stands(env, d, orig, n, p, v, ts, false, aborted, numLayers)
    requires v.phase == if prefill then Prefill else Decode
    ensures var m := if prefill then v.(status := Running) else v;
      if prefill then Fresh(m) && ts == NoTables(numLayers) else Ready(m) && DraftReady(m)
    ensures v.tokens == AloneFor(env, orig, n).tokens && n <= StepsPerPick(d) * p
  {
    hide NoTables, Slots, AloneFor, Rested;
    TrackedOn(env, orig, n, v);
  }

  function Counted(picks: seq<nat>, picked: seq<nat>): (next: seq<nat>)
    ensures |next| == |picks|
  {
    seq(|picks|, i requires 0 <= i < |picks| => picks[i] + if i in picked then 1 else 0)
  }

  // ----- a step, sequence by sequence

  lemma {:induction false} AloneIsPlaced<P, C>(env: Env<P, C>, v: Sequence<P, C>)
    requires DraftReady(v)
    ensures var t := StepAlone(env, v.(status := Running)).0;
      && Ready(t) && DraftReady(t) && (t.status == Running || t.status == Finished)
      && (t.status == Running ==> Decoding(t))
  {
    hide Stops, Slots, Ready;
    var t := StepAlone(env, v.(status := Running)).0;
    StepAloneIsReady(env, v.(status := Running));
    assert t.tokens[..|v.draftCache|] == v.tokens[..|v.draftCache|];
  }

  lemma {:induction false} ChainStatus<P, C>(target: Greedy, rules: StopRules, s: Sequence<P, C>, n: nat)
    requires s.status == Running || s.status == Finished
    ensures var t := Chain(target, rules, s, n);
      && (t.status == Running || t.status == Finished) && (s.status == Finished ==> t.status == Finished)
      && t.maxTokens == s.maxTokens
    decreases n
  {
    hide Stops, Slots;
    if n > 0 {
      ChainStatus(target, rules, GreedyStep(target, rules, s).0, n - 1);
    }
  }

  /** A chain that goes past the cap has finished the sequence on the way. */
  lemma {:induction false} ChainPastCap<P, C>(target: Greedy, rules: StopRules, s: Sequence<P, C>, n: nat)
    requires Decoding(s) && ChainLength(target, rules, s, n) > Speculative.Room(s)
    ensures Chain(target, rules, s, n).status == Finished
    decreases n
  {
    hide Stops, Slots;
    var r := GreedyStep(target, rules, s);
    if r.1.Some? {
      if Speculative.Room(s) > 1 {
        ChainPastCap(target, rules, r.0, n - 1);
      } else {
        ChainStatus(target, rules, r.0, n - 1);
      }
    }
  }

  /** Own steps add up, wherever the sequence is kept in between. */
  lemma {:induction false} StepsAddUp<P, C>(env: Env<P, C>, orig: Sequence<P, C>, n: nat, v: Sequence<P, C>, m: nat)
    requires Tracked(env, orig, n, v)
    ensures Tracked(env, orig, n + m, AloneFor(env, v, m))
    decreases m
  {
    hide StepAlone, Tracked;
    if m > 0 {
      StepsAddUp(env, orig, n, v, m - 1);
      TrackedOn(env, orig, n + m - 1, AloneFor(env, v, m - 1));
    }
  }

  lemma {:induction false} RestedParts<P, C>(a: Sequence<P, C>, b: Sequence<P, C>)
    requires Rested(a) == Rested(b)
    ensures a.tokens == b.tokens && a.settings == b.settings && a.constraint == b.constraint
    ensures a.numGenerated == b.numGenerated && a.maxTokens == b.maxTokens
    ensures a.status == Finished <==> b.status == Finished
  {
    var (x, y) := (Rested(a), Rested(b));
    assert x.tokens == a.tokens && x.settings == a.settings && x.constraint == a.constraint;
    assert y.tokens == b.tokens && y.settings == b.settings && y.constraint == b.constraint;
    assert x.numGenerated == a.numGenerated && x.maxTokens == a.maxTokens;
    assert y.numGenerated == b.numGenerated && y.maxTokens == b.maxTokens;
    assert x.status == Finished <==> a.status == Finished;
    assert y.status == Finished <==> b.status == Finished;
  }

  /** A burst takes a sequence one to five own steps on, or past the cap. */
  lemma {:induction false} BurstTakes<P(!new), C>(env: Env<P, C>, d: Drafting<P>, orig: Sequence<P, C>, n: nat,
        v: Sequence<P, C>)
    returns (next: nat)
    requires SamplesGreedily(env, d) && TakesBursts(Some(d), v) && Ready(v) && Decoding(v) && Tracked(env, orig, n, v)
    ensures n + 1 <= next <= n + SPEC_DRAFT_K + 1
    ensures var t := Burst(d.target, d.draft, env.rules, v);
      && Ready(t) && DraftReady(t)
      && (t.status != Finished ==> Decoding(t) && Tracked(env, orig, next, t))
      && (t.status == Finished ==> Tracked(env, orig, next, t) || Overran(env, d, orig, n, t))
  {
    hide Slots, Chain, ChainLength, Proposals, Accepted, Plain, AloneFor, SamplesGreedily, Rested, Continued;
    var (target, rules) := (d.target, env.rules);
    var m := |Accepted(target, v.tokens, Proposals(d.draft, v.tokens, SPEC_DRAFT_K))|;
    var t := Burst(target, d.draft, rules, v);
    next := n + m;
    BurstIsReady(target, d.draft, rules, v);
    BurstKeepsPhase(target, d.draft, rules, v);
    ChainStatus(target, rules, v, m);
    if ChainLength(target, rules, v, m) <= Speculative.Room(v) {
      ChainWithinRoom(target, rules, v, m);
      PlainLength(target, rules, v, m);
      PlainIsAlone(env, d, v, m);
      StepsAddUp(env, orig, n, v, m);
      SameRest(t, Chain(target, rules, v, m));
    } else {
      ChainPastCap(target, rules, v, m);
      BurstIsGreedy(target, d.draft, rules, v);
      ChainTokens(target, rules, v, m);
      RestedParts(v, AloneFor(env, orig, n));
      ContinuedExtends(target, v.tokens, |t.tokens| - |v.tokens|);
    }
  }

  lemma {:induction false} ContinuedExtends(target: Greedy, tokens: seq<nat>, m: nat)
    ensures tokens <= Continued(target, tokens, m)
  {
  }

  lemma {:induction false} SameRest<P, C>(a: Sequence<P, C>, b: Sequence<P, C>)
    requires a == b.(draftCache := a.draftCache)
    ensures Rested(a) == Rested(b)
  {
  }

  /** What a successful step makes of a live sequence. */
  lemma {:induction false} LiveSteps<P(!new), C>(env: Env<P, C>, d: Option<Drafting<P>>, orig: Sequence<P, C>, n: nat,
        p: nat, v: Sequence<P, C>, ts: seq<Table>, numLayers: nat, prefills: seq<nat>, decodes: seq<nat>, i: nat,
        after: Sequence<P, C>)
    returns (next: nat)
    requires Stands(env, d, orig, n, p, v, ts, false, false, numLayers) && (d.Some? ==> SamplesGreedily(env, d.value))
    requires (i in prefills ==> v.phase == Prefill) && (i in decodes ==> v.phase == Decode)
    requires Outcome(env, d, prefills, decodes, i, if i in prefills then v.(status := Running) else v, after)
    ensures var p' := p + if i in prefills || i in decodes then 1 else 0;
      && p' <= next <= StepsPerPick(d) * p'
      && (after.status != Finished ==> Tracked(env, orig, next, after) && DraftReady(after))
      && (after.status != Finished && (i in prefills || i in decodes) ==> Ready(after) && Decoding(after))
      && (after.status == Finished ==> Reached(env, d, orig, p', after))
    ensures i !in prefills && i !in decodes ==> after == v
  {
    hide NoTables, Slots, AloneFor, Rested, Burst, StepAlone, SamplesGreedily, Fresh, Overran;
    var m := if i in prefills then v.(status := Running) else v;
    var took := i in prefills || i in decodes;
    TrackedOn(env, orig, n, v);
    if i in decodes && TakesBursts(d, v) {
      next := BurstTakes(env, d.value, orig, n, v);
    } else if took {
      assert m == v.(status := Running);
      AloneIsPlaced(env, v);
      next := n + 1;
    } else {
      next := n;
    }
    if after.status == Finished && Tracked(env, orig, next, after) {
      TrackedIsReached(env, d, orig, next, p + if took then 1 else 0, after);
    }
  }

  /** Where a successful step, and the finished ones leaving after it, put every sequence. */
  lemma {:induction false} AllStep<P(!new), C>(env: Env<P, C>, d: Option<Drafting<P>>, st: Standing<P, C>,
        vs: seq<Sequence<P, C>>, vals: seq<seq<Table>>, numLayers: nat, picked: seq<nat>, prefills: seq<nat>,
        decodes: seq<nat>, after: seq<Sequence<P, C>>, vals': seq<seq<Table>>, which: seq<bool>,
        end: seq<Sequence<P, C>>, ends: seq<seq<Table>>)
    returns (st': Standing<P, C>)
    requires AllStand(env, d, st, vs, vals, numLayers) && Chosen(vs, st.away, picked, prefills, decodes)
    requires d.Some? ==> SamplesGreedily(env, d.value)
    requires Outcomes(env, d, prefills, decodes, Admitting(vs, prefills), after)
    requires SameOutside(vals, vals', prefills + decodes)
    requires |which| == |after| && forall i | 0 <= i < |after| :: which[i] <==> after[i].status == Finished
    requires Left(after, vals', end, ends, st.away, which, |after|, numLayers)
    ensures st'.origs == st.origs && st'.picks == Counted(st.picks, picked) && st'.aborted == st.aborted
    ensures st'.away == Either(st.away, which)
    ensures AllStand(env, d, st', end, ends, numLayers)
  {
    hide Stands, Outcomes, Left, Chosen, SameOutside, SamplesGreedily, Admitting;
    var times: seq<nat> := [];
    SameCount(env, d, vs, vals, vals', prefills, decodes, after, end, ends, st.away, which, numLayers);
    st' := Standing(st.origs, st.times, Counted(st.picks, picked), Either(st.away, which), st.aborted);
    for i := 0 to |vs|
      invariant |times| == i
      invariant forall j | 0 <= j < i :: Stands(env, d, st.origs[j], times[j], st'.picks[j], end[j], ends[j],
        st'.away[j], st.aborted[j], numLayers)
    {
      assert StandsAt(env, d, st, vs, vals, numLayers, i);
      StepAt(env, d, vs, vals, st.away, numLayers, picked, prefills, decodes, after, vals', which, end, ends, i);
      var next := OneSteps(env, d, st.origs[i], st.times[i], st.picks[i], vs[i], vals[i], st.away[i], st.aborted[i],
        numLayers, picked, prefills, decodes, i, after[i], vals'[i], which[i], end[i], ends[i],
        which[i] && !st.away[i]);
      times := times + [next];
    }
    st' := st'.(times := times);
    forall i: nat | i < |vs|
      ensures StandsAt(env, d, st', end, ends, numLayers, i)
    {
    }
  }

  lemma {:induction false} SameCount<P, C>(env: Env<P, C>, d: Option<Drafting<P>>, vs: seq<Sequence<P, C>>,
        vals: seq<seq<Table>>, vals': seq<seq<Table>>, prefills: seq<nat>, decodes: seq<nat>,
        after: seq<Sequence<P, C>>, end: seq<Sequence<P, C>>, ends: seq<seq<Table>>, away: seq<bool>, which: seq<bool>,
        numLayers: nat)
    requires Outcomes(env, d, prefills, decodes, Admitting(vs, prefills), after)
    requires SameOutside(vals, vals', prefills + decodes)
    requires Left(after, vals', end, ends, away, which, |after|, numLayers)
    ensures |end| == |after| == |vs| && |ends| == |vals'| == |vals| == |which| == |after|
  {
    hide Outcome, NoTables, Cleared, Leaves;
  }

  /** What a step, and leaving after it, do at one index. */
  lemma {:induction false} StepAt<P, C>(env: Env<P, C>, d: Option<Drafting<P>>, vs: seq<Sequence<P, C>>,
        vals: seq<seq<Table>>, away: seq<bool>, numLayers: nat, picked: seq<nat>, prefills: seq<nat>, decodes: seq<nat>,
        after: seq<Sequence<P, C>>, vals': seq<seq<Table>>, which: seq<bool>, end: seq<Sequence<P, C>>,
        ends: seq<seq<Table>>, i: nat)
    requires |away| == |vs| == |vals| && Chosen(vs, away, picked, prefills, decodes) && i < |vs|
    requires Outcomes(env, d, prefills, decodes, Admitting(vs, prefills), after)
    requires SameOutside(vals, vals', prefills + decodes)
    requires Left(after, vals', end, ends, away, which, |after|, numLayers)
    ensures |after| == |vals'| == |which| == |end| == |ends| == |vs|
    ensures i in prefills || i in decodes <==> i in picked && !away[i] && vs[i].status != Finished
    ensures (i in prefills ==> vs[i].phase == Prefill) && (i in decodes ==> vs[i].phase == Decode)
    ensures Outcome(env, d, prefills, decodes, i, if i in prefills then vs[i].(status := Running) else vs[i], after[i])
    ensures i !in prefills && i !in decodes ==> vals'[i] == vals[i]
    ensures if which[i] && !away[i] then end[i] == Cleared(after[i]) && ends[i] == NoTables(numLayers)
      else end[i] == after[i] && ends[i] == vals'[i]
  {
    hide Outcome, NoTables, Cleared, Indices;
    InParts(prefills, decodes, i);
    assert Outcome(env, d, prefills, decodes, i, Admitting(vs, prefills)[i], after[i]);
    assert Leaves(away, which, |after|, i) <==> which[i] && !away[i];
  }

  lemma {:induction false} InParts(prefills: seq<nat>, decodes: seq<nat>, i: nat)
    ensures i in prefills + decodes <==> i in prefills || i in decodes
  {
  }

  lemma {:induction false} OneSteps<P(!new), C>(env: Env<P, C>, d: Option<Drafting<P>>, orig: Sequence<P, C>, n: nat,
        p: nat, v: Sequence<P, C>, ts: seq<Table>, away: bool, aborted: bool, numLayers: nat, picked: seq<nat>,
        prefills: seq<nat>, decodes: seq<nat>, i: nat, after: Sequence<P, C>, ts': seq<Table>, finished: bool,
        end: Sequence<P, C>, ends: seq<Table>, leaves: bool)
    returns (next: nat)
    requires Stands(env, d, orig, n, p, v, ts, away, aborted, numLayers) && (d.Some? ==> SamplesGreedily(env, d.value))
    requires i in prefills || i in decodes <==> i in picked && !away && v.status != Finished
    requires (i in prefills ==> v.phase == Prefill) && (i in decodes ==> v.phase == Decode)
    requires Outcome(env, d, prefills, decodes, i, if i in prefills then v.(status := Running) else v, after)
    requires i !in prefills && i !in decodes ==> ts' == ts
    requires (finished <==> after.status == Finished) && (leaves <==> finished && !away)
    requires if leaves then end == Cleared(after) && ends == NoTables(numLayers) else end == after && ends == ts'
    ensures var p' := p + if i in picked then 1 else 0;
      Stands(env, d, orig, next, p', end, ends, away || finished, aborted, numLayers)
  {
    hide NoTables, Slots, AloneFor, Outcome, SamplesGreedily, Rested, Fresh, Reached, Tracked;
    if away {
      next := n;
      Untouched(env, d, prefills, decodes, i, v, after);
      if i in picked && !aborted {
        ReachedOn(env, d, orig, p, v);
      }
    } else {
      next := LiveSteps(env, d, orig, n, p, v, ts, numLayers, prefills, decodes, i, after);
      if finished {
        ReachedCleared(env, d, orig, p + (if i in prefills || i in decodes then 1 else 0), after);
      }
    }
  }

  lemma {:induction false} Untouched<P, C>(env: Env<P, C>, d: Option<Drafting<P>>, prefills: seq<nat>,
        decodes: seq<nat>, i: nat, v: Sequence<P, C>, after: Sequence<P, C>)
    requires i !in prefills && i !in decodes && Outcome(env, d, prefills, decodes, i, v, after)
    ensures after == v
  {
  }

  lemma {:induction false} ReachedCleared<P, C>(env: Env<P, C>, d: Option<Drafting<P>>, orig: Sequence<P, C>, p: nat,
        v: Sequence<P, C>)
    requires Reached(env, d, orig, p, v)
    ensures Reached(env, d, orig, p, Cleared(v))
  {
    hide AloneFor, Rested, Continued;
    PreemptedIsRested(v);
    if k :| p <= k <= StepsPerPick(d) * p && Tracked(env, orig, k, v) {
      assert Tracked(env, orig, k, Cleared(v));
    } else {
      var k :| 0 <= k <= StepsPerPick(d) * p && Overran(env, d.value, orig, k, v);
      assert Overran(env, d.value, orig, k, Cleared(v));
    }
  }

  // ----- a failed step

  function Either(a: seq<bool>, b: seq<bool>): (c: seq<bool>)
    requires |a| == |b|
    ensures |c| == |a| && forall i | 0 <= i < |a| :: c[i] == (a[i] || b[i])
  {
    seq(|a|, i requires 0 <= i < |a| => a[i] || b[i])
  }

  /** A failed step takes all that were running with it; the others are where they were. */
  lemma {:induction false} AllFail<P, C>(env: Env<P, C>, d: Option<Drafting<P>>, st: Standing<P, C>,
        vs: seq<Sequence<P, C>>, vals: seq<seq<Table>>, numLayers: nat, picked: seq<nat>, prefills: seq<nat>,
        decodes: seq<nat>, after: seq<Sequence<P, C>>, vals': seq<seq<Table>>, ran: seq<bool>, end: seq<Sequence<P, C>>,
        ends: seq<seq<Table>>)
    returns (st': Standing<P, C>)
    requires AllStand(env, d, st, vs, vals, numLayers) && Chosen(vs, st.away, picked, prefills, decodes)
    requires SameOutside(Admitting(vs, prefills), after, prefills + decodes)
    requires SameOutside(vals, vals', prefills + decodes)
    requires |ran| == |vs| && forall i | 0 <= i < |vs| ::
      ran[i] <==> !st.away[i] && Admitting(vs, prefills)[i].status == Running
    requires Left(after, vals', end, ends, st.away, ran, |after|, numLayers)
    ensures st' ==
      Standing(st.origs, st.times, Counted(st.picks, picked), Either(st.away, ran), Either(st.aborted, ran))
    ensures AllStand(env, d, st', end, ends, numLayers)
    ensures forall i | 0 <= i < |vs| && !st'.away[i] :: end[i].status != Running
  {
    hide Stands, Left, Chosen, SameOutside, Admitting;
    st' := Standing(st.origs, st.times, Counted(st.picks, picked), Either(st.away, ran), Either(st.aborted, ran));
    assert |after| == |vs| by {
      SameLength(Admitting(vs, prefills), after, prefills + decodes);
    }
    LeftLength(after, vals', end, ends, st.away, ran, |after|, numLayers);
    forall i: nat | i < |vs|
      ensures StandsAt(env, d, st', end, ends, numLayers, i) && (!st'.away[i] ==> end[i].status != Running)
    {
      assert StandsAt(env, d, st, vs, vals, numLayers, i);
      FailAt(vs, vals, st.away, numLayers, picked, prefills, decodes, after, vals', ran, end, ends, i);
      OneFails(env, d, st.origs[i], st.times[i], st.picks[i], vs[i], vals[i], st.away[i], st.aborted[i], numLayers,
        i in picked, i in prefills, i in decodes, after[i], vals'[i], ran[i], end[i], ends[i]);
    }
  }

  lemma {:induction false} SameLength<T>(a: seq<T>, b: seq<T>, idx: seq<nat>)
    requires SameOutside(a, b, idx)
    ensures |a| == |b|
  {
  }

  lemma {:induction false} LeftLength<P, C>(vs: seq<Sequence<P, C>>, vals: seq<seq<Table>>, vs': seq<Sequence<P, C>>,
        vals': seq<seq<Table>>, away: seq<bool>, which: seq<bool>, n: nat, numLayers: nat)
    requires Left(vs, vals, vs', vals', away, which, n, numLayers)
    ensures |vs'| == |vals'| == |vs|
  {
    hide Leaves, Cleared, NoTables;
  }

  lemma {:induction false} FailAt<P, C>(vs: seq<Sequence<P, C>>, vals: seq<seq<Table>>, away: seq<bool>, numLayers: nat,
        picked: seq<nat>, prefills: seq<nat>, decodes: seq<nat>, after: seq<Sequence<P, C>>, vals': seq<seq<Table>>,
        ran: seq<bool>, end: seq<Sequence<P, C>>, ends: seq<seq<Table>>, i: nat)
    requires |away| == |vs| == |vals| == |ran| && Chosen(vs, away, picked, prefills, decodes) && i < |vs|
    requires SameOutside(Admitting(vs, prefills), after, prefills + decodes)
    requires SameOutside(vals, vals', prefills + decodes)
    requires ran[i] <==> !away[i] && Admitting(vs, prefills)[i].status == Running
    requires Left(after, vals', end, ends, away, ran, |after|, numLayers)
    ensures |after| == |vals'| == |end| == |ends| == |vs|
    ensures i in prefills || i in decodes <==> i in picked && !away[i] && vs[i].status != Finished
    ensures i in decodes ==> vs[i].phase == Decode
    ensures i !in prefills && i !in decodes ==> after[i] == vs[i] && vals'[i] == vals[i]
    ensures ran[i] <==> !away[i] && (i in prefills || vs[i].status == Running)
    ensures if ran[i] then end[i] == Cleared(after[i]) && ends[i] == NoTables(numLayers)
      else end[i] == after[i] && ends[i] == vals'[i]
  {
    hide NoTables, Cleared, Indices;
    InParts(prefills, decodes, i);
    assert Leaves(away, ran, |after|, i) <==> ran[i] && !away[i];
  }

  lemma {:induction false} OneFails<P, C>(env: Env<P, C>, d: Option<Drafting<P>>, orig: Sequence<P, C>, n: nat, p: nat,
        v: Sequence<P, C>, ts: seq<Table>, away: bool, aborted: bool, numLayers: nat, picked: bool, prefill: bool,
        decode: bool, after: Sequence<P, C>, ts': seq<Table>, ran: bool, end: Sequence<P, C>, ends: seq<Table>)
    requires Stands(env, d, orig, n, p, v, ts, away, aborted, numLayers)
    requires prefill || decode <==> picked && !away && v.status != Finished
    requires decode ==> v.phase == Decode
    requires !prefill && !decode ==> after == v && ts' == ts
    requires ran <==> !away && (prefill || v.status == Running)
    requires if ran then end == Cleared(after) && ends == NoTables(numLayers) else end == after && ends == ts'
    ensures Stands(env, d, orig, n, p + (if picked then 1 else 0), end, ends, away || ran, aborted || ran, numLayers)
    ensures !away && !ran ==> end.status != Running
  {
    hide NoTables, Slots, AloneFor, Rested, Fresh, Reached, Tracked;
    if away && !aborted && picked {
      ReachedOn(env, d, orig, p, v);
    }
  }

  /** After too many failures in a row the waiting ones are aborted too. They hold nothing. */
  lemma {:induction false} AllLeave<P, C>(env: Env<P, C>, d: Option<Drafting<P>>, st: Standing<P, C>,
        vs: seq<Sequence<P, C>>, vals: seq<seq<Table>>, numLayers: nat, rest: seq<bool>)
    requires AllStand(env, d, st, vs, vals, numLayers)
    requires |rest| == |vs| && forall i | 0 <= i < |vs| :: rest[i] == !st.away[i]
    requires forall i | 0 <= i < |vs| && !st.away[i] :: vs[i].status != Running
    ensures AllStand(env, d, st.(away := Either(st.away, rest), aborted := Either(st.aborted, rest)), vs, vals,
      numLayers)
  {
    hide NoTables, Slots, AloneFor, Rested, Fresh, Reached, Tracked;
    var st' := st.(away := Either(st.away, rest), aborted := Either(st.aborted, rest));
    forall i: nat | i < |vs|
      ensures StandsAt(env, d, st', vs, vals, numLayers, i)
    {
      assert StandsAt(env, d, st, vs, vals, numLayers, i);
    }
  }

  // ----- rounds

  method Statuses<P, C>(seqs: seq<SequenceState<P, C>>) returns (statuses: seq<Status>)
    ensures |statuses| == |seqs| && forall i | 0 <= i < |seqs| :: statuses[i] == Values(seqs)[i].status
  {
    statuses := seq(|seqs|, i requires 0 <= i < |seqs| reads seqs => StatusOf(seqs, i));
  }

  /** After a successful step the finished sequences leave. */
  method AfterSuccess<P(!new), C>(env: Env<P, C>, d: Option<Drafting<P>>, ghost st: Standing<P, C>,
        ghost vs: seq<Sequence<P, C>>, ghost vals: seq<seq<Table>>, seqs: seq<SequenceState<P, C>>,
        tables: seq<PagedCache>, prefix: PrefixCache, allocs: seq<BlockAllocator>, away: seq<bool>, picked: seq<nat>,
        prefills: seq<nat>, decodes: seq<nat>)
    returns (away': seq<bool>, ghost st': Standing<P, C>)
    requires BatchEngine.Distinct(seqs) && |seqs| == |tables| == |away| && Whole(prefix, allocs, tables)
    requires away == st.away && (d.Some? ==> SamplesGreedily(env, d.value))
    requires AllStand(env, d, st, vs, vals, |allocs|) && Chosen(vs, st.away, picked, prefills, decodes)
    requires Outcomes(env, d, prefills, decodes, Admitting(vs, prefills), Values(seqs))
    requires SameOutside(vals, LayersOf(tables), prefills + decodes)
    modifies seqs, tables, allocs
    ensures Going(env, d, st', seqs, tables, prefix, allocs) && away' == st'.away
    ensures st'.origs == st.origs && st'.picks == Counted(st.picks, picked) && st'.aborted == st.aborted
  {
    hide StandsAt, Chosen, Admitting, Whole, Outcomes, Values, LayersOf, BatchEngine.Distinct, Counted, SameOutside,
      Left, SamplesGreedily, Either;
    ghost var after, vals' := Values(seqs), LayersOf(tables);
    var statuses := Statuses(seqs);
    var which := seq(|seqs|, i requires 0 <= i < |seqs| => statuses[i] == Finished);
    Leave(seqs, tables, prefix, allocs, away, which);
    st' := AllStep(env, d, st, vs, vals, |allocs|, picked, prefills, decodes, after, vals', which, Values(seqs),
      LayersOf(tables));
    away' := Either(away, which);
  }

  /** A failed step takes with it all that were running. */
  method AfterFailure<P, C>(env: Env<P, C>, d: Option<Drafting<P>>, ghost st: Standing<P, C>,
        ghost vs: seq<Sequence<P, C>>, ghost vals: seq<seq<Table>>, seqs: seq<SequenceState<P, C>>,
        tables: seq<PagedCache>, prefix: PrefixCache, allocs: seq<BlockAllocator>, statuses: seq<Status>,
        away: seq<bool>, aborted: seq<bool>, picked: seq<nat>, prefills: seq<nat>, decodes: seq<nat>)
    returns (away': seq<bool>, aborted': seq<bool>, ghost st': Standing<P, C>)
    requires BatchEngine.Distinct(seqs) && |seqs| == |tables| == |away| == |statuses| && Whole(prefix, allocs, tables)
    requires away == st.away && aborted == st.aborted
    requires AllStand(env, d, st, vs, vals, |allocs|) && Chosen(vs, st.away, picked, prefills, decodes)
    requires |vs| == |seqs| && forall i | 0 <= i < |vs| :: statuses[i] == Admitting(vs, prefills)[i].status
    requires SameOutside(Admitting(vs, prefills), Values(seqs), prefills + decodes)
    requires SameOutside(vals, LayersOf(tables), prefills + decodes)
    modifies seqs, tables, allocs
    ensures Going(env, d, st', seqs, tables, prefix, allocs) && away' == st'.away && aborted' == st'.aborted
    ensures st'.origs == st.origs && st'.picks == Counted(st.picks, picked)
    ensures |away'| == |seqs| && forall i | 0 <= i < |seqs| && !away'[i] :: Values(seqs)[i].status != Running
  {
    hide StandsAt, Chosen, Admitting, Whole, Values, LayersOf, BatchEngine.Distinct, Counted, SameOutside, Left, Either;
    ghost var after, vals' := Values(seqs), LayersOf(tables);
    var ran := seq(|seqs|, i requires 0 <= i < |seqs| => !away[i] && statuses[i] == Running);
    Leave(seqs, tables, prefix, allocs, away, ran);
    st' := AllFail(env, d, st, vs, vals, |allocs|, picked, prefills, decodes, after, vals', ran, Values(seqs),
      LayersOf(tables));
    away', aborted' := Either(away, ran), Either(aborted, ran);
  }

  /** A step of the chosen sequences, and who was running in it. */
  method TakeStep<P, C>(env: Env<P, C>, d: Option<Drafting<P>>, ghost st: Standing<P, C>,
        seqs: seq<SequenceState<P, C>>, tables: seq<PagedCache>, prefix: PrefixCache, allocs: seq<BlockAllocator>,
        pacer: PrefillPacer, round: Round, away: seq<bool>, ghost n: nat)
    returns (ok: bool, prefills: seq<nat>, decodes: seq<nat>, statuses: seq<Status>)
    requires BatchEngine.Distinct(seqs) && pacer.Valid() && Going(env, d, st, seqs, tables, prefix, allocs)
    requires away == st.away
    requires NoneConfusable(prefix.chain, prefix.size, env, st.origs, n) && Known(env, st.origs, n, prefix.log)
    requires forall i | 0 <= i < |st.picks| :: StepsPerPick(d) * st.picks[i] <= n
    modifies seqs, tables, allocs, prefix`entries, prefix`log, pacer
    ensures pacer.Valid() && Whole(prefix, allocs, tables) && Known(env, st.origs, n, prefix.log)
    ensures |away| == |seqs| && Chosen(old(Values(seqs)), away, round.picked, prefills, decodes)
    ensures |statuses| == |seqs| &&
      forall i | 0 <= i < |seqs| :: statuses[i] == Admitting(old(Values(seqs)), prefills)[i].status
    ensures SameOutside(Admitting(old(Values(seqs)), prefills), Values(seqs), prefills + decodes)
    ensures SameOutside(old(LayersOf(tables)), LayersOf(tables), prefills + decodes)
    ensures ok ==> Outcomes(env, d, prefills, decodes, Admitting(old(Values(seqs)), prefills), Values(seqs))
  {
    hide NoneConfusable, Known, StandsAt, Chosen, Admitting, Whole, Sharing, Scheduled, Outcomes, Indices, Values,
      LayersOf, BatchEngine.Distinct, SequenceState.Value, PrefillPacer.Valid, NoTables, Nobody, LogFrom, Pick, Begins,
      SameOutside, EmittedInStep;
    ghost var vs, vals, log := Values(seqs), LayersOf(tables), prefix.log;
    prefills, decodes := Choose(seqs, away, round.picked);
    ChosenIsScheduled(env, d, st, n, prefix, vs, vals, |allocs|, round.picked, prefills, decodes);
    ChosenInRange(vs, away, round.picked, prefills, decodes);
    Admit(seqs, prefills);
    ghost var mid := Values(seqs);
    statuses := Statuses(seqs);
    WholeIsSharing(prefix, allocs, tables);
    var out :=
      StepWithDraft(env, d, seqs, prefills, decodes, prefix, allocs, tables, Nobody(|allocs|), pacer, round.weather);
    SharingIsWhole(prefix, allocs, tables);
    AllKnown(env, st.origs, n, prefix.log, log, TokensOf(Pick(mid, prefills + decodes)));
    ok := out.Some?;
  }

  /** One step of the chosen sequences, and what follows it: the finished ones leave, or, when it failed, all that were
      running; and if too many have failed in a row, everybody. */
  method StepRound<P(!new), C>(env: Env<P, C>, d: Option<Drafting<P>>, ghost st: Standing<P, C>,
        seqs: seq<SequenceState<P, C>>, tables: seq<PagedCache>, prefix: PrefixCache, allocs: seq<BlockAllocator>,
        pacer: PrefillPacer, round: Round, errors: nat, away: seq<bool>, aborted: seq<bool>, ghost n: nat)
    returns (away': seq<bool>, aborted': seq<bool>, ok: bool, ghost st': Standing<P, C>)
    requires BatchEngine.Distinct(seqs) && pacer.Valid() && Going(env, d, st, seqs, tables, prefix, allocs)
    requires away == st.away && aborted == st.aborted && (d.Some? ==> SamplesGreedily(env, d.value))
    requires NoneConfusable(prefix.chain, prefix.size, env, st.origs, n) && Known(env, st.origs, n, prefix.log)
    requires forall i | 0 <= i < |st.picks| :: StepsPerPick(d) * st.picks[i] <= n
    modifies seqs, tables, allocs, prefix`entries, prefix`log, pacer
    ensures pacer.Valid() && Going(env, d, st', seqs, tables, prefix, allocs)
    ensures Known(env, st.origs, n, prefix.log)
    ensures st'.origs == st.origs && st'.picks == Counted(st.picks, round.picked)
    ensures away' == st'.away && aborted' == st'.aborted && (ok ==> aborted' == aborted)
    ensures !ok && errors + 1 >= MAX_CONSECUTIVE_ERRORS ==> forall i | 0 <= i < |away'| :: away'[i]
  {
    hide NoneConfusable, Known, StandsAt, Chosen, Admitting, Whole, Outcomes, Values, LayersOf, BatchEngine.Distinct,
      PrefillPacer.Valid, Counted, SameOutside, SamplesGreedily, Either;
    ghost var vs, vals := Values(seqs), LayersOf(tables);
    var prefills, decodes, statuses;
    ok, prefills, decodes, statuses := TakeStep(env, d, st, seqs, tables, prefix, allocs, pacer, round, away, n);
    if ok {
      away', st' := AfterSuccess(env, d, st, vs, vals, seqs, tables, prefix, allocs, away, round.picked, prefills,
        decodes);
      aborted' := aborted;
    } else {
      away', aborted', st' := AfterFailure(env, d, st, vs, vals, seqs, tables, prefix, allocs, statuses, away, aborted,
        round.picked, prefills, decodes);
      if errors + 1 >= MAX_CONSECUTIVE_ERRORS {
        var rest := seq(|seqs|, i requires 0 <= i < |seqs| => !away'[i]);
        AllLeave(env, d, st', Values(seqs), LayersOf(tables), |allocs|, rest);
        away', aborted' := Either(away', rest), Either(aborted', rest);
        st' := st'.(away := away', aborted := aborted');
      }
    }
  }

  lemma {:induction false} ChosenInRange<P, C>(vs: seq<Sequence<P, C>>, gone: seq<bool>, picked: seq<nat>,
        prefills: seq<nat>, decodes: seq<nat>)
    requires Chosen(vs, gone, picked, prefills, decodes)
    ensures forall i | i in prefills :: i < |vs|
  {
    hide Indices;
  }

  lemma {:induction false} WholeIsSharing(prefix: PrefixCache, allocs: seq<BlockAllocator>, tables: seq<PagedCache>)
    requires Whole(prefix, allocs, tables)
    ensures |allocs| > 0 && Sharing(prefix, allocs, tables, Nobody(|allocs|))
  {
    hide Sharing, Nobody;
  }

  lemma {:induction false} SharingIsWhole(prefix: PrefixCache, allocs: seq<BlockAllocator>, tables: seq<PagedCache>)
    requires |allocs| > 0 && Sharing(prefix, allocs, tables, Nobody(|allocs|))
    ensures Whole(prefix, allocs, tables)
  {
    hide Sharing, Nobody;
  }

  /** A queued prompt. */
  predicate Queued<P, C>(v: Sequence<P, C>) {
    Fresh(v) && v.status == Waiting && v.draftCache == []
  }

  function Nowhere(n: nat): (gone: seq<bool>)
    ensures |gone| == n && forall i | 0 <= i < n :: !gone[i]
  {
    seq(n, _ => false)
  }

  function AllPicks(rounds: seq<Round>, n: nat): (picks: seq<nat>)
    ensures |picks| == n && forall i | 0 <= i < n :: picks[i] == TimesPicked(rounds, i)
  {
    seq(n, i requires 0 <= i < n => TimesPicked(rounds, i))
  }

  lemma {:induction false} OneMoreRound(rounds: seq<Round>, k: nat, n: nat)
    requires k < |rounds|
    ensures AllPicks(rounds[..k + 1], n) == Counted(AllPicks(rounds[..k], n), rounds[k].picked)
  {
    assert rounds[..k + 1][..k] == rounds[..k];
  }

  lemma {:induction false} StartsGoing<P, C>(env: Env<P, C>, d: Option<Drafting<P>>, seqs: seq<SequenceState<P, C>>,
        tables: seq<PagedCache>, prefix: PrefixCache, allocs: seq<BlockAllocator>)
    returns (st: Standing<P, C>)
    requires |seqs| == |tables| && Whole(prefix, allocs, tables)
    requires forall i | 0 <= i < |seqs| :: Queued(seqs[i].Value()) && tables[i].layers == NoTables(|allocs|)
    ensures Going(env, d, st, seqs, tables, prefix, allocs) && st.origs == Values(seqs)
    ensures st.picks == AllPicks([], |seqs|) && st.away == st.aborted == Nowhere(|seqs|)
  {
    hide Whole, NoTables, Rested, Slots;
    var n := |seqs|;
    st := Standing(Values(seqs), seq(n, _ => 0), AllPicks([], n), Nowhere(n), Nowhere(n));
    NoSlots();
    forall i: nat | i < n
      ensures StandsAt(env, d, st, Values(seqs), LayersOf(tables), |allocs|, i)
    {
      QueuedStands(env, d, seqs[i].Value(), tables[i].layers, |allocs|);
    }
  }

  lemma {:induction false} QueuedStands<P, C>(env: Env<P, C>, d: Option<Drafting<P>>, v: Sequence<P, C>, ts: seq<Table>,
        numLayers: nat)
    requires Queued(v) && ts == NoTables(numLayers)
    ensures Stands(env, d, v, 0, 0, v, ts, false, false, numLayers)
  {
    hide NoTables, Rested, Slots;
    NoSlots();
    assert v.tokens[..0] == [];
    assert AloneFor(env, v, 0) == v;
  }

  /** How many of the last steps failed in a row. */
  function FailedInARow(oks: seq<bool>): nat {
    if oks == [] || oks[|oks| - 1] then 0 else FailedInARow(oks[..|oks| - 1]) + 1
  }

  /** Theorem: whatever the scheduler picks, preempts and evicts, in whatever order, whatever the draft proposes and
      whatever steps fail, a sequence that no failed step took with it is where some number of steps alone would have
      taken it: one for each time it was picked, and with a draft one to five for each; or its last burst went past its
      cap. Without a failed step that is every sequence; and after too many in a row none is left to go on. */
  method Run<P(!new), C>(env: Env<P, C>, d: Option<Drafting<P>>, seqs: seq<SequenceState<P, C>>,
        tables: seq<PagedCache>, prefix: PrefixCache, allocs: seq<BlockAllocator>, pacer: PrefillPacer,
        rounds: seq<Round>)
    returns (aborted: seq<bool>, oks: seq<bool>)
    requires BatchEngine.Distinct(seqs) && |seqs| == |tables| && pacer.Valid()
    requires Whole(prefix, allocs, tables) && prefix.log == {} && (d.Some? ==> SamplesGreedily(env, d.value))
    requires forall i | 0 <= i < |seqs| :: Queued(seqs[i].Value()) && tables[i].layers == NoTables(|allocs|)
    requires NoneConfusable(prefix.chain, prefix.size, env, Values(seqs), StepsPerPick(d) * |rounds|)
    modifies seqs, tables, allocs, prefix`entries, prefix`log, pacer
    ensures |aborted| == |seqs| && |oks| == |rounds|
    ensures (forall k | 0 <= k < |oks| :: oks[k]) ==> aborted == Nowhere(|seqs|)
    ensures FailedInARow(oks) >= 3 ==>
      forall i | 0 <= i < |seqs| :: aborted[i] || seqs[i].status == Finished
    ensures forall i | 0 <= i < |seqs| && !aborted[i] ::
      Reached(env, d, old(seqs[i].Value()), TimesPicked(rounds, i), seqs[i].Value())
    ensures Whole(prefix, allocs, tables)
  {
    hide Going, NoneConfusable, Known, Whole, Queued, NoTables, BatchEngine.Distinct, SequenceState.Value,
      PrefillPacer.Valid, Rested, AloneFor, Nowhere, AllPicks, SamplesGreedily, Reached;
    ghost var n := StepsPerPick(d) * |rounds|;
    var away := Nowhere(|seqs|);
    aborted, oks := Nowhere(|seqs|), [];
    var errors := 0;
    ghost var st := StartsGoing(env, d, seqs, tables, prefix, allocs);
    NothingKnown(env, st.origs, n);
    assert rounds[..0] == [];
    for k := 0 to |rounds|
      invariant pacer.Valid() && Going(env, d, st, seqs, tables, prefix, allocs)
      invariant st.origs == old(Values(seqs)) && st.picks == AllPicks(rounds[..k], |seqs|)
      invariant st.away == away && st.aborted == aborted
      invariant |oks| == k && errors == FailedInARow(oks)
      invariant Known(env, st.origs, n, prefix.log)
      invariant (forall j | 0 <= j < k :: oks[j]) ==> aborted == Nowhere(|seqs|)
      invariant errors >= MAX_CONSECUTIVE_ERRORS ==> forall i | 0 <= i < |away| :: away[i]
    {
      for m := 0 to |rounds[k].moves|
        invariant pacer.Valid() && Going(env, d, st, seqs, tables, prefix, allocs)
        invariant Known(env, st.origs, n, prefix.log)
      {
        MakeMove(env, d, st, seqs, tables, prefix, allocs, rounds[k].moves[m], away);
      }
      FewPicks(d, rounds, k, |seqs|);
      var ok;
      away, aborted, ok, st :=
        StepRound(env, d, st, seqs, tables, prefix, allocs, pacer, rounds[k], errors, away, aborted, n);
      assert (oks + [ok])[..k] == oks;
      oks := oks + [ok];
      errors := if ok then 0 else errors + 1;
      OneMoreRound(rounds, k, |seqs|);
    }
    assert rounds[..|rounds|] == rounds;
    EachStands(env, d, st, seqs, tables, prefix, allocs);
  }

  lemma {:induction false} FewPicks<P>(d: Option<Drafting<P>>, rounds: seq<Round>, k: nat, n: nat)
    requires k <= |rounds|
    ensures forall i | 0 <= i < n :: StepsPerPick(d) * AllPicks(rounds[..k], n)[i] <= StepsPerPick(d) * |rounds|
  {
    hide TimesPicked;
  }

  lemma {:induction false} NothingKnown<P, C>(env: Env<P, C>, origs: seq<Sequence<P, C>>, n: nat)
    ensures Known(env, origs, n, {})
  {
  }

  lemma {:induction false} EachStands<P, C>(env: Env<P, C>, d: Option<Drafting<P>>, st: Standing<P, C>,
        seqs: seq<SequenceState<P, C>>, tables: seq<PagedCache>, prefix: PrefixCache, allocs: seq<BlockAllocator>)
    requires Going(env, d, st, seqs, tables, prefix, allocs)
    ensures |st.origs| == |st.picks| == |st.away| == |st.aborted| == |seqs| && Whole(prefix, allocs, tables)
    ensures forall i | 0 <= i < |seqs| && !st.aborted[i] ::
      && Reached(env, d, st.origs[i], st.picks[i], seqs[i].Value())
      && (st.away[i] ==> seqs[i].status == Finished)
  {
    hide Whole, Placed, Tracked, Reached, NoTables;
    forall i | 0 <= i < |seqs| && !st.aborted[i]
      ensures Reached(env, d, st.origs[i], st.picks[i], seqs[i].Value())
      ensures st.away[i] ==> seqs[i].status == Finished
    {
      assert StandsAt(env, d, st, Values(seqs), LayersOf(tables), |allocs|, i);
      if !st.away[i] {
        TrackedIsReached(env, d, st.origs[i], st.times[i], st.picks[i], seqs[i].Value());
      }
    }
  }
}
