/**
 What an engine step or a burst leaves of a sequence, token by token (src/engine.rs:404-417, 655-687 and 848-863,
 src/scheduler/sequence.rs:60-73). The stop rules are written out here, in a predicate the engine does not use.
 */
module StepOutcomes {
  import opened BatchEngine
  import opened EngineSteps
  import opened SequenceStates
  import opened Speculative
  import opened Wrappers

  /** The text ends generation: with a stop token, or with one of the listed nonempty sequences. */
  predicate Ends(rules: StopRules, tokens: seq<nat>) {
    && tokens != []
    && (tokens[|tokens| - 1] in rules.ids || exists k, m | 0 <= k < |rules.sequences| && 0 <= m < |tokens| ::
        tokens[m..] == rules.sequences[k])
  }

  lemma {:induction false} StopsAreEnds(rules: StopRules, tokens: seq<nat>, x: nat)
    ensures Stops(rules, x, tokens + [x]) <==> Ends(rules, tokens + [x])
  {
    var t := tokens + [x];
    if i :| 0 <= i < |rules.sequences| && EndsWith(t, rules.sequences[i]) {
      var m := |t| - |rules.sequences[i]|;
      assert t[m..] == rules.sequences[i];
    }
    if k, m :| 0 <= k < |rules.sequences| && 0 <= m < |t| && t[m..] == rules.sequences[k] {
      assert EndsWith(t, rules.sequences[k]);
    }
  }

  // ----- one step of a batch

  /** The tokens a sequence has, each at its own position. */
  ghost predicate Spread(tokens: seq<nat>, slots: seq<Slot>) {
    |slots| == |tokens| && forall i | 0 <= i < |tokens| :: slots[i] == Slot(tokens[i], i)
  }

  /** `w` is `v` after token `x`; `emitted` is handed out. */
  ghost predicate Took<P, C>(rules: StopRules, v: Sequence<P, C>, x: nat, w: Sequence<P, C>, emitted: seq<nat>) {
    && w.tokens == v.tokens + [x] && w.tokenCounts == v.tokenCounts + multiset{x}
    && w.settings == v.settings && w.maxTokens == v.maxTokens
    && if Ends(rules, w.tokens) then
         && w.status == Finished && w.finishReason == Some("stop")
         && w.numGenerated == v.numGenerated && emitted == []
       else
         && w.numGenerated == v.numGenerated + 1 && emitted == [x]
         && if w.numGenerated < w.maxTokens then w.status == v.status && w.finishReason == v.finishReason
            else w.status == Finished && w.finishReason == Some("length")
  }

  /** What the batch hands out for its sequence `i`. */
  function For(newTokens: seq<(nat, nat)>, i: nat): seq<nat> {
    if newTokens == [] then []
    else (if newTokens[0].0 == i then [newTokens[0].1] else []) + For(newTokens[1..], i)
  }

  lemma {:induction false} ForOfOneMore(a: seq<(nat, nat)>, x: (nat, nat), i: nat)
    ensures For(a + [x], i) == For(a, i) + if x.0 == i then [x.1] else []
  {
    if a == [] {
      assert a + [x] == [x] && [x][1..] == [];
    } else {
      ForOfOneMore(a[1..], x, i);
      assert (a + [x])[0] == a[0] && (a + [x])[1..] == a[1..] + [x];
    }
  }

  /** Theorem: after a successful step every sequence has taken the token sampled from its own history; a token that
      ends the text finishes it and stays unemitted, every other one is emitted. */
  lemma {:induction false} StepTakesOneToken<P, C>(env: Env<P, C>, before: seq<Sequence<P, C>>,
        after: seq<Sequence<P, C>>, newTokens: seq<(nat, nat)>, i: nat, history: seq<Slot>)
    requires Stepped(env, before, after, Some(newTokens)) && i < |before|
    requires Spread(before[i].tokens, history)
    ensures var v, w := before[i], after[i];
      var x := env.sample(env.logits(history), v.settings, v.tokens, v.tokenCounts, v.constraint);
      && Took(env.rules, v, x, w, For(newTokens, i))
      && w.constraint == (if v.constraint.None? then None else Some(env.advance(v.constraint.value, x)))
      && w.phase.Decode? && w.numProcessed == |v.tokens|
      && w.cache == history && w.draftCache == v.draftCache
  {
    hide Stops, Ends, EmittedAlone, For;
    var v := before[i];
    assert history == Slots(v.tokens);
    var x := env.sample(env.logits(history), v.settings, v.tokens, v.tokenCounts, v.constraint);
    StopsAreEnds(env.rules, v.tokens, x);
    OwnEmitted(env, before, |before|, i);
  }

  /** What sequence `i` emits on its own. */
  function Own<P, C>(env: Env<P, C>, vs: seq<Sequence<P, C>>, n: nat, i: nat): seq<nat>
    requires n <= |vs|
  {
    if i < n && StepAlone(env, vs[i]).1.Some? then [StepAlone(env, vs[i]).1.value] else []
  }

  lemma {:induction false} OwnEmitted<P, C>(env: Env<P, C>, vs: seq<Sequence<P, C>>, n: nat, i: nat)
    requires n <= |vs|
    ensures For(EmittedAlone(env, vs, n), i) == Own(env, vs, n, i)
  {
    hide StepAlone, For;
    if n == 0 {
      NoneEmitted(i);
    } else {
      OwnEmitted(env, vs, n - 1, i);
      var token := StepAlone(env, vs[n - 1]).1;
      if token.Some? {
        ForOfOneMore(EmittedAlone(env, vs, n - 1), (n - 1, token.value), i);
      } else {
        assert EmittedAlone(env, vs, n) == EmittedAlone(env, vs, n - 1);
      }
    }
  }

  lemma {:induction false} NoneEmitted(i: nat)
    ensures For([], i) == []
  {
  }

  /** Theorem: after a failed step a sequence is what it was, but for a cache of at most its own history. */
  lemma {:induction false} FailedStepTakesNone<P, C>(env: Env<P, C>, before: seq<Sequence<P, C>>,
        after: seq<Sequence<P, C>>, i: nat)
    requires Stepped(env, before, after, None) && i < |before|
    ensures after[i].(cache := before[i].cache) == before[i]
    ensures |after[i].cache| <= |before[i].tokens|
    ensures Spread(before[i].tokens[..|after[i].cache|], after[i].cache)
  {
    var n := |after[i].cache|;
    assert after[i].cache == Slots(before[i].tokens)[..n];
    SlotsPrefix(before[i].tokens, n);
  }

  // ----- bursts

  /** `w` is `v` after the tokens `xs`, of which only the last may end the text. */
  ghost predicate TookAll<P, C>(rules: StopRules, v: Sequence<P, C>, xs: seq<nat>, w: Sequence<P, C>,
        emitted: seq<nat>) {
    && xs != [] && w.tokens == v.tokens + xs && w.tokenCounts == v.tokenCounts + multiset(xs)
    && w.settings == v.settings && w.maxTokens == v.maxTokens
    && (forall n | 1 <= n < |xs| :: !Ends(rules, v.tokens + xs[..n]))
    && if Ends(rules, w.tokens) then
         && w.status == Finished && w.finishReason == Some("stop")
         && w.numGenerated == v.numGenerated + |xs| - 1 && emitted == xs[..|xs| - 1]
       else
         && w.numGenerated == v.numGenerated + |xs| && emitted == xs
         && if w.numGenerated < w.maxTokens then w.status == v.status && w.finishReason == v.finishReason
            else w.status == Finished && w.finishReason == Some("length")
  }

  lemma {:induction false} GreedyTakes<P, C>(target: Greedy, rules: StopRules, v: Sequence<P, C>)
    ensures var x := target(Slots(v.tokens));
      var r := GreedyStep(target, rules, v);
      && Took(rules, v, x, r.0, if r.1.Some? then [r.1.value] else [])
      && (r.1.None? <==> Ends(rules, v.tokens + [x]))
  {
    hide Stops, Ends, Slots;
    StopsAreEnds(rules, v.tokens, target(Slots(v.tokens)));
  }

  lemma {:induction false} MoreTaken<P, C>(rules: StopRules, v: Sequence<P, C>, x: nat, mid: Sequence<P, C>,
        xs: seq<nat>, w: Sequence<P, C>, emitted: seq<nat>)
    requires Took(rules, v, x, mid, [x]) && TookAll(rules, mid, xs, w, emitted)
    ensures TookAll(rules, v, [x] + xs, w, [x] + emitted)
  {
    hide Ends;
    var all := [x] + xs;
    assert v.tokens + all == mid.tokens + xs;
    forall n | 1 <= n < |all|
      ensures !Ends(rules, v.tokens + all[..n])
    {
      if n == 1 {
        assert v.tokens + all[..n] == mid.tokens;
      } else {
        assert v.tokens + all[..n] == mid.tokens + xs[..n - 1];
      }
    }
    assert all[..|all| - 1] == [x] + xs[..|xs| - 1];
  }

  lemma {:induction false} OneTaken<P, C>(rules: StopRules, v: Sequence<P, C>, x: nat, w: Sequence<P, C>,
        emitted: seq<nat>)
    requires Took(rules, v, x, w, emitted)
    ensures TookAll(rules, v, [x], w, emitted)
  {
    hide Ends;
    assert [x][..0] == [];
  }

  lemma {:induction false} ChainTakes<P, C>(target: Greedy, rules: StopRules, v: Sequence<P, C>, n: nat)
    requires n > 0
    ensures var w := Chain(target, rules, v, n);
      && |v.tokens| < |w.tokens| <= |v.tokens| + n
      && TookAll(rules, v, w.tokens[|v.tokens|..], w, ChainEmits(target, rules, v, n))
      && (|w.tokens| < |v.tokens| + n ==> Ends(rules, w.tokens))
    decreases n
  {
    hide GreedyStep, Ends, Slots, TookAll;
    var x := target(Slots(v.tokens));
    var r := GreedyStep(target, rules, v);
    GreedyTakes(target, rules, v);
    var w := Chain(target, rules, v, n);
    if r.1.None? || n == 1 {
      OneTaken(rules, v, x, r.0, if r.1.Some? then [r.1.value] else []);
      assert w == r.0;
      assert ChainEmits(target, rules, v, n) == if r.1.Some? then [r.1.value] else [];
      assert w.tokens == v.tokens + [x] by {
        TookTokens(rules, v, [x], w, ChainEmits(target, rules, v, n));
      }
      assert w.tokens[|v.tokens|..] == [x];
    } else {
      ChainTakes(target, rules, r.0, n - 1);
      MoreTaken(rules, v, x, r.0, w.tokens[|r.0.tokens|..], w, ChainEmits(target, rules, r.0, n - 1));
      assert w.tokens == r.0.tokens + w.tokens[|r.0.tokens|..] by {
        TookTokens(rules, r.0, w.tokens[|r.0.tokens|..], w, ChainEmits(target, rules, r.0, n - 1));
      }
      assert w.tokens[|v.tokens|..] == [x] + w.tokens[|r.0.tokens|..];
    }
  }

  lemma {:induction false} TookTokens<P, C>(rules: StopRules, v: Sequence<P, C>, xs: seq<nat>, w: Sequence<P, C>,
        emitted: seq<nat>)
    requires TookAll(rules, v, xs, w, emitted)
    ensures w.tokens == v.tokens + xs
  {
  }

  /** Theorem: a burst appends one to five tokens; none before the last ends the text, and the last is emitted exactly
      when it does not end it either. Fewer tokens than the draft and the target agree on are taken only at an end. */
  lemma {:induction false} BurstTakesTokens<P, C>(target: Greedy, draft: Greedy, rules: StopRules, v: Sequence<P, C>)
    requires v.tokens != []
    ensures var w := Burst(target, draft, rules, v);
      && |v.tokens| < |w.tokens| <= |v.tokens| + 5
      && TookAll(rules, v, w.tokens[|v.tokens|..], w, BurstEmits(target, draft, rules, v))
      && w.constraint == v.constraint && w.phase == v.phase && w.numProcessed == |w.tokens| - 1
      && (|w.tokens| <= |v.tokens| + Agreed(target, v.tokens, Proposals(draft, v.tokens, 4), 0)
          ==> Ends(rules, w.tokens))
  {
    hide Chain, ChainEmits, Ends, Slots;
    var n := |Accepted(target, v.tokens, Proposals(draft, v.tokens, SPEC_DRAFT_K))|;
    ChainTakes(target, rules, v, n);
    ChainKeeps(target, rules, v, n);
  }

  lemma {:induction false} ChainKeeps<P, C>(target: Greedy, rules: StopRules, v: Sequence<P, C>, n: nat)
    ensures var w := Chain(target, rules, v, n);
      && w.constraint == v.constraint && w.phase == v.phase
      && (n > 0 ==> w.numProcessed == |w.tokens| - 1)
    decreases n
  {
    hide Stops, Slots;
    if n > 0 {
      ChainKeeps(target, rules, GreedyStep(target, rules, v).0, n - 1);
    }
  }

  // ----- a step with a draft model

  lemma {:induction false} AloneTakes<P, C>(env: Env<P, C>, v: Sequence<P, C>, history: seq<Slot>)
    requires Spread(v.tokens, history)
    ensures var x := env.sample(env.logits(history), v.settings, v.tokens, v.tokenCounts, v.constraint);
      var r := StepAlone(env, v);
      Took(env.rules, v, x, r.0, if r.1.Some? then [r.1.value] else [])
  {
    hide Stops, Ends;
    assert history == Slots(v.tokens);
    StopsAreEnds(env.rules, v.tokens, env.sample(env.logits(history), v.settings, v.tokens, v.tokenCounts,
      v.constraint));
  }

  /** Theorem: in a step with a draft model exactly the decodes with plain settings and without a constraint take a
      burst; the other scheduled sequences take one token, and the rest nothing. */
  lemma {:induction false} StepWithDraftTakes<P, C>(env: Env<P, C>, d: Option<Drafting<P>>, prefills: seq<nat>,
        decodes: seq<nat>, before: seq<Sequence<P, C>>, after: seq<Sequence<P, C>>, i: nat, history: seq<Slot>)
    requires Outcomes(env, d, prefills, decodes, before, after) && i < |before|
    requires Spread(before[i].tokens, history)
    ensures var v, w := before[i], after[i];
      var x := env.sample(env.logits(history), v.settings, v.tokens, v.tokenCounts, v.constraint);
      if i in decodes && d.Some? && d.value.plain(v.settings) && v.constraint.None? then
        && |v.tokens| < |w.tokens| <= |v.tokens| + 5
        && exists emitted :: TookAll(env.rules, v, w.tokens[|v.tokens|..], w, emitted)
      else if i in prefills || i in decodes then exists emitted :: Took(env.rules, v, x, w, emitted)
      else w == v
  {
    hide StepAlone, Burst, Took, TookAll, BurstEmits, Spread;
    var v := before[i];
    assert Outcome(env, d, prefills, decodes, i, v, after[i]);
    AloneTakes(env, v, history);
    if d.Some? && v.tokens != [] {
      BurstTakesTokens(d.value.target, d.value.draft, env.rules, v);
    }
  }
}
