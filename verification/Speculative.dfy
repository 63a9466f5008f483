/** Greedy speculative decoding against plain greedy decoding (src/engine.rs). */
module Speculative {
  import opened Chunks
  import opened SequenceStates
  import opened Wrappers

  /** Number of tokens the draft proposes per burst. */
  const SPEC_DRAFT_K: nat := 4

  /** A model as greedy decoding sees it: the most probable token after a history. */
  type Greedy = seq<Slot> -> nat

  // ----- plain greedy decoding

  /** One plain greedy decode step, and the token if it is emitted. */
  function GreedyStep<P, C>(target: Greedy, rules: StopRules, s: Sequence<P, C>): (Sequence<P, C>, Option<nat>) {
    var token := target(Slots(s.tokens));
    var t := Appended(s, token);
    var u := t.(numProcessed := |t.tokens| - 1, cache := Slots(s.tokens));
    var r := Applied(u, Stops(rules, token, u.tokens));
    (r.0, if r.1 then Some(token) else None)
  }

  /** Up to `n` greedy steps; a finished sequence is not scheduled again. */
  function Plain<P, C>(target: Greedy, rules: StopRules, s: Sequence<P, C>, n: nat): Sequence<P, C>
    decreases n
  {
    if n == 0 || s.status != Running then s
    else Plain(target, rules, GreedyStep(target, rules, s).0, n - 1)
  }

  /** Up to `n` greedy steps that only a stop cuts short: the loop a burst runs over its accepted tokens. */
  function Chain<P, C>(target: Greedy, rules: StopRules, s: Sequence<P, C>, n: nat): Sequence<P, C>
    decreases n
  {
    if n == 0 then s else
      var r := GreedyStep(target, rules, s);
      if r.1.None? then r.0 else Chain(target, rules, r.0, n - 1)
  }

  function ChainEmits<P, C>(target: Greedy, rules: StopRules, s: Sequence<P, C>, n: nat): seq<nat>
    decreases n
  {
    if n == 0 then [] else
      var r := GreedyStep(target, rules, s);
      if r.1.None? then [] else [r.1.value] + ChainEmits(target, rules, r.0, n - 1)
  }

  /** How many tokens the chain appends. */
  function ChainLength<P, C>(target: Greedy, rules: StopRules, s: Sequence<P, C>, n: nat): (k: nat)
    ensures k <= n && (n > 0 ==> k > 0)
    decreases n
  {
    if n == 0 then 0 else
      var r := GreedyStep(target, rules, s);
      if r.1.None? then 1 else 1 + ChainLength(target, rules, r.0, n - 1)
  }

  /** The target's own greedy continuation of `tokens`. */
  function Continued(target: Greedy, tokens: seq<nat>, n: nat): (r: seq<nat>)
    ensures |r| == |tokens| + n && r[..|tokens|] == tokens
    decreases n
  {
    if n == 0 then tokens else Continued(target, tokens + [target(Slots(tokens))], n - 1)
  }

  lemma {:induction false} ContinuedAt(target: Greedy, tokens: seq<nat>, n: nat, i: nat)
    requires i < n
    ensures var r := Continued(target, tokens, n);
      r[|tokens| + i] == target(Slots(r[..|tokens| + i]))
    decreases n
  {
    var next := tokens + [target(Slots(tokens))];
    if i == 0 {
      assert Continued(target, next, n - 1)[..|next|] == next;
      assert next[..|tokens|] == tokens;
      assert Continued(target, tokens, n)[|tokens|] == next[|tokens|];
    } else {
      ContinuedAt(target, next, n - 1, i - 1);
    }
  }

  /** A run that agrees with the target at every step is the target's continuation. */
  lemma {:induction false} OnlyContinuation(target: Greedy, tokens: seq<nat>, xs: seq<nat>)
    requires forall i: nat | i < |xs| :: xs[i] == target(Slots(tokens + xs[..i]))
    ensures tokens + xs == Continued(target, tokens, |xs|)
    decreases |xs|
  {
    if xs == [] {
      assert tokens + xs == tokens;
    } else {
      var next := tokens + [xs[0]];
      assert tokens + xs[..0] == tokens;
      forall i: nat | i < |xs[1..]|
        ensures xs[1..][i] == target(Slots(next + xs[1..][..i]))
      {
        assert next + xs[1..][..i] == tokens + xs[..i + 1];
        assert xs[1..][i] == xs[i + 1];
      }
      OnlyContinuation(target, next, xs[1..]);
      assert next + xs[1..] == tokens + xs;
    }
  }

  /** A chain appends the target's next greedy tokens and nothing else. */
  lemma {:induction false} ChainIsGreedy<P, C>(target: Greedy, rules: StopRules, s: Sequence<P, C>, n: nat)
    ensures Chain(target, rules, s, n).tokens == Continued(target, s.tokens, ChainLength(target, rules, s, n))
    decreases n
  {
    hide Stops;
    if n > 0 {
      ChainIsGreedy(target, rules, GreedyStep(target, rules, s).0, n - 1);
      assert Continued(target, s.tokens + [target(Slots(s.tokens))], 0) == s.tokens + [target(Slots(s.tokens))];
    }
  }

  /** Tokens the sequence may still generate. */
  function Room<P, C>(s: Sequence<P, C>): int {
    s.maxTokens - s.numGenerated
  }

  predicate Decoding<P, C>(s: Sequence<P, C>) {
    s.status == Running && Room(s) > 0
  }

  lemma {:induction false} PlainLength<P, C>(target: Greedy, rules: StopRules, s: Sequence<P, C>, n: nat)
    requires s.status == Running ==> Room(s) > 0
    ensures var t := Plain(target, rules, s, n);
      && |t.tokens| <= |s.tokens| + (if s.status == Running then Room(s) else 0)
      && (t.status == Running ==> Room(t) > 0)
    decreases n
  {
    hide Stops;
    if n > 0 && s.status == Running {
      PlainLength(target, rules, GreedyStep(target, rules, s).0, n - 1);
    }
  }

  lemma {:induction false} ChainTokens<P, C>(target: Greedy, rules: StopRules, s: Sequence<P, C>, n: nat)
    ensures |Chain(target, rules, s, n).tokens| == |s.tokens| + ChainLength(target, rules, s, n)
    decreases n
  {
    hide Stops;
    if n > 0 {
      ChainTokens(target, rules, GreedyStep(target, rules, s).0, n - 1);
    }
  }

  /** While the room lasts a chain is plain decoding. */
  lemma {:induction false} ChainWithinRoom<P, C>(target: Greedy, rules: StopRules, s: Sequence<P, C>, n: nat)
    requires Decoding(s) && ChainLength(target, rules, s, n) <= Room(s)
    ensures Chain(target, rules, s, n) == Plain(target, rules, s, n)
    decreases n
  {
    hide Stops;
    if n > 0 {
      var r := GreedyStep(target, rules, s);
      if r.1.None? {
        assert r.0.status == Finished;
        assert Plain(target, rules, r.0, n - 1) == r.0;
      } else if Room(s) > 1 {
        assert Decoding(r.0) && Room(r.0) == Room(s) - 1;
        ChainWithinRoom(target, rules, r.0, n - 1);
      } else {
        assert r.0.status == Finished;
        assert ChainLength(target, rules, r.0, n - 1) == 0;
        assert n - 1 == 0;
      }
    }
  }

  /** Theorem: a chain is some amount of plain decoding exactly when it fits the room that is left. */
  lemma {:induction false} ChainIsPlainIff<P, C>(target: Greedy, rules: StopRules, s: Sequence<P, C>, n: nat)
    requires Decoding(s)
    ensures (exists k :: Chain(target, rules, s, n) == Plain(target, rules, s, k))
      <==> ChainLength(target, rules, s, n) <= Room(s)
  {
    hide Chain, Plain;
    if ChainLength(target, rules, s, n) <= Room(s) {
      ChainWithinRoom(target, rules, s, n);
    } else {
      forall k
        ensures Chain(target, rules, s, n) != Plain(target, rules, s, k)
      {
        PlainLength(target, rules, s, k);
        ChainTokens(target, rules, s, n);
      }
    }
  }

  // ----- one burst

  /** What the draft proposes after `tokens`, feeding itself. */
  function Proposals(draft: Greedy, tokens: seq<nat>, k: nat): (ds: seq<nat>)
    ensures |ds| == k
    decreases k
  {
    if k == 0 then [] else
      var before := Proposals(draft, tokens, k - 1);
      before + [draft(Slots(tokens + before))]
  }

  /** The target's choice after the first `i` proposals. */
  function Verdict(target: Greedy, tokens: seq<nat>, ds: seq<nat>, i: nat): nat
    requires i <= |ds|
  {
    target(Slots(tokens + ds[..i]))
  }

  /** How many leading proposals the target agrees with. */
  function Agreed(target: Greedy, tokens: seq<nat>, ds: seq<nat>, i: nat): (m: nat)
    requires i <= |ds|
    ensures i <= m <= |ds|
    ensures forall j: nat | i <= j < m :: ds[j] == Verdict(target, tokens, ds, j)
    ensures m < |ds| ==> ds[m] != Verdict(target, tokens, ds, m)
    decreases |ds| - i
  {
    if i < |ds| && Verdict(target, tokens, ds, i) == ds[i] then Agreed(target, tokens, ds, i + 1) else i
  }

  /** The tokens a burst accepts: the agreed proposals and the target's own next token. */
  function Accepted(target: Greedy, tokens: seq<nat>, ds: seq<nat>): (xs: seq<nat>)
    ensures 1 <= |xs| <= |ds| + 1
  {
    var m := Agreed(target, tokens, ds, 0);
    ds[..m] + [Verdict(target, tokens, ds, m)]
  }

  /** Whatever the draft proposes, what is accepted is what the target would have chosen. */
  lemma {:induction false} AcceptedIsGreedy(target: Greedy, tokens: seq<nat>, ds: seq<nat>)
    ensures var xs := Accepted(target, tokens, ds);
      forall i: nat | i < |xs| :: xs[i] == target(Slots(tokens + xs[..i]))
  {
    hide Slots;
    var m := Agreed(target, tokens, ds, 0);
    var xs := Accepted(target, tokens, ds);
    forall i: nat | i < |xs|
      ensures xs[i] == target(Slots(tokens + xs[..i]))
    {
      assert xs[..i] == ds[..i];
      if i < m {
        assert ds[i] == Verdict(target, tokens, ds, i);
      }
    }
  }

  // ----- the burst as the engine runs it

  /** One pass over `tokens` behind a cache: the choice after every one of them. */
  function Choices(model: Greedy, cache: seq<Slot>, fed: seq<Slot>): (ams: seq<nat>)
    ensures |ams| == |fed|
  {
    seq(|fed|, i requires 0 <= i < |fed| => model(cache + fed[..i + 1]))
  }

  function Placed(tokens: seq<nat>, start: nat): (s: seq<Slot>)
    ensures |s| == |tokens|
  {
    seq(|tokens|, i requires 0 <= i < |tokens| => Slot(tokens[i], start + i))
  }

  lemma {:induction false} PlacedSlots(a: seq<nat>, b: seq<nat>)
    ensures Slots(a) + Placed(b, |a|) == Slots(a + b)
  {
  }

  method GreedyForward(model: Greedy, cache: seq<Slot>, tokens: seq<nat>, start: nat)
    returns (ams: seq<nat>, next: seq<Slot>)
    ensures |ams| == |tokens|
    ensures forall before | |before| == start && cache == Slots(before) ::
      && next == Slots(before + tokens)
      && forall i | 0 <= i < |tokens| :: ams[i] == model(Slots(before + tokens[..i + 1]))
  {
    var fed := Placed(tokens, start);
    ams := Choices(model, cache, fed);
    next := cache + fed;
    forall before | |before| == start && cache == Slots(before)
      ensures next == Slots(before + tokens)
      ensures forall i | 0 <= i < |tokens| :: ams[i] == model(Slots(before + tokens[..i + 1]))
    {
      PlacedSlots(before, tokens);
      forall i | 0 <= i < |tokens|
        ensures ams[i] == model(Slots(before + tokens[..i + 1]))
      {
        assert fed[..i + 1] == Placed(tokens[..i + 1], start);
        PlacedSlots(before, tokens[..i + 1]);
      }
    }
  }

  function Truncated(cache: seq<Slot>, n: nat): seq<Slot> {
    if n >= |cache| then cache else cache[..n]
  }

  /** What the draft's cache may hold: a prefix of the sequence, at most all but the last token. */
  predicate DraftReady<P, C>(s: Sequence<P, C>) {
    && |s.draftCache| < |s.tokens|
    && s.draftCache == Slots(s.tokens[..|s.draftCache|])
  }

  /** Tokens applied one after another until one stops the sequence; the caches are not looked at. */
  function Fold<P, C>(rules: StopRules, s: Sequence<P, C>, xs: seq<nat>): Sequence<P, C>
    decreases |xs|
  {
    if xs == [] then s else
      var r := FoldStep(rules, s, xs[0]);
      if r.1 then Fold(rules, r.0, xs[1..]) else r.0
  }

  function FoldStep<P, C>(rules: StopRules, s: Sequence<P, C>, x: nat): (Sequence<P, C>, bool) {
    var t := Appended(s, x);
    var u := t.(numProcessed := |t.tokens| - 1);
    Applied(u, Stops(rules, x, u.tokens))
  }

  function FoldEmits<P, C>(rules: StopRules, s: Sequence<P, C>, xs: seq<nat>): seq<nat>
    decreases |xs|
  {
    if xs == [] then [] else
      var r := FoldStep(rules, s, xs[0]);
      if r.1 then [xs[0]] + FoldEmits(rules, r.0, xs[1..]) else []
  }

  function Recached<P, C>(s: Sequence<P, C>, cache: seq<Slot>, draftCache: seq<Slot>): Sequence<P, C> {
    s.(cache := cache, draftCache := draftCache)
  }

  lemma {:induction false} StepWithoutCaches<P, C>(target: Greedy, rules: StopRules, s: Sequence<P, C>,
        cache: seq<Slot>, draftCache: seq<Slot>)
    ensures var r := GreedyStep(target, rules, s);
      var x := target(Slots(s.tokens));
      && FoldStep(rules, Recached(s, cache, draftCache), x) == (Recached(r.0, cache, draftCache), r.1.Some?)
      && r.0.tokens == s.tokens + [x] && r.0.cache == Slots(s.tokens) && r.0.draftCache == s.draftCache
      && (r.1.Some? ==> r.1.value == x)
  {
    hide Stops, Slots;
  }

  /** The tokens of a list after the first are greedy after the first. */
  lemma {:induction false} RestIsGreedy(target: Greedy, tokens: seq<nat>, xs: seq<nat>)
    requires xs != [] && forall i: nat | i < |xs| :: xs[i] == target(Slots(tokens + xs[..i]))
    ensures xs[0] == target(Slots(tokens))
    ensures forall i: nat | i < |xs| - 1 :: xs[1..][i] == target(Slots((tokens + [xs[0]]) + xs[1..][..i]))
  {
    hide Slots;
    assert tokens + xs[..0] == tokens;
    forall i: nat | i < |xs| - 1
      ensures xs[1..][i] == target(Slots((tokens + [xs[0]]) + xs[1..][..i]))
    {
      assert (tokens + [xs[0]]) + xs[1..][..i] == tokens + xs[..i + 1];
      assert xs[1..][i] == xs[i + 1];
    }
  }

  /** Folding greedy tokens is the chain, up to what the caches hold. */
  lemma {:induction false} FoldIsChain<P, C>(target: Greedy, rules: StopRules, s: Sequence<P, C>, xs: seq<nat>,
        cache: seq<Slot>, draftCache: seq<Slot>)
    requires forall i: nat | i < |xs| :: xs[i] == target(Slots(s.tokens + xs[..i]))
    ensures var v := Recached(s, cache, draftCache);
      && Fold(rules, v, xs) == Recached(Chain(target, rules, s, |xs|), cache, draftCache)
      && FoldEmits(rules, v, xs) == ChainEmits(target, rules, s, |xs|)
    decreases |xs|
  {
    hide Stops, Slots, GreedyStep, FoldStep, Recached;
    if xs != [] {
      RestIsGreedy(target, s.tokens, xs);
      StepWithoutCaches(target, rules, s, cache, draftCache);
      FoldIsChain(target, rules, GreedyStep(target, rules, s).0, xs[1..], cache, draftCache);
    }
  }

  /** What a chain of greedy tokens leaves: some of them appended, everything but the last one cached. */
  lemma {:induction false} ChainShape<P, C>(target: Greedy, rules: StopRules, s: Sequence<P, C>, xs: seq<nat>)
    requires xs != []
    requires forall i: nat | i < |xs| :: xs[i] == target(Slots(s.tokens + xs[..i]))
    ensures var t := Chain(target, rules, s, |xs|);
      var k := |t.tokens| - |s.tokens|;
      && 1 <= k <= |xs| && t.tokens == s.tokens + xs[..k]
      && t.cache == Slots(t.tokens[..|t.tokens| - 1]) && t.draftCache == s.draftCache
    decreases |xs|
  {
    hide Stops, Slots, GreedyStep, Recached, FoldStep;
    RestIsGreedy(target, s.tokens, xs);
    StepWithoutCaches(target, rules, s, s.cache, s.draftCache);
    var r := GreedyStep(target, rules, s);
    var rest := xs[1..];
    if r.1.Some? && rest != [] {
      ChainShape(target, rules, r.0, rest);
      var k := |Chain(target, rules, r.0, |rest|).tokens| - |r.0.tokens|;
      assert r.0.tokens + rest[..k] == s.tokens + xs[..k + 1];
    } else {
      assert s.tokens + [xs[0]] == s.tokens + xs[..1];
      assert (s.tokens + [xs[0]])[..|s.tokens|] == s.tokens;
    }
  }

  /** A burst: the chain of accepted tokens, the target's cache all but the last token, and the draft's cache. */
  function Burst<P, C>(target: Greedy, draft: Greedy, rules: StopRules, s: Sequence<P, C>): Sequence<P, C>
    requires s.tokens != []
  {
    var ds := Proposals(draft, s.tokens, SPEC_DRAFT_K);
    var t := Chain(target, rules, s, |Accepted(target, s.tokens, ds)|);
    var keep := if |t.tokens| == 0 then 0 else |t.tokens| - 1;
    var have := |s.tokens| - 1 + SPEC_DRAFT_K;
    t.(draftCache := Slots(t.tokens[..if have < keep then have else keep]))
  }

  function BurstEmits<P, C>(target: Greedy, draft: Greedy, rules: StopRules, s: Sequence<P, C>): seq<nat> {
    var ds := Proposals(draft, s.tokens, SPEC_DRAFT_K);
    ChainEmits(target, rules, s, |Accepted(target, s.tokens, ds)|)
  }

  /** The draft feeds itself, one token at a time. */
  method Autoregress(draft: Greedy, tokens: seq<nat>, cache: seq<Slot>) returns (drafts: seq<nat>, next: seq<Slot>)
    requires tokens != [] && cache == Slots(tokens[..|tokens| - 1])
    ensures drafts == Proposals(draft, tokens, SPEC_DRAFT_K)
    ensures next == Slots((tokens + drafts)[..|tokens| - 1 + SPEC_DRAFT_K])
  {
    hide Slots;
    var l := |tokens|;
    drafts, next := [], cache;
    var cur := tokens[l - 1];
    assert (tokens + drafts)[..l - 1] == tokens[..l - 1];
    while |drafts| < SPEC_DRAFT_K
      invariant |drafts| <= SPEC_DRAFT_K
      invariant drafts == Proposals(draft, tokens, |drafts|)
      invariant cur == (tokens + drafts)[l - 1 + |drafts|]
      invariant next == Slots((tokens + drafts)[..l - 1 + |drafts|])
    {
      ghost var before := (tokens + drafts)[..l - 1 + |drafts|];
      var ams;
      ams, next := GreedyForward(draft, next, [cur], l - 1 + |drafts|);
      assert before + [cur] == tokens + drafts;
      assert [cur][..1] == [cur];
      assert ams[0] == draft(Slots(before + [cur][..1]));
      cur := ams[0];
      assert (tokens + (drafts + [cur]))[..l + |drafts|] == tokens + drafts;
      drafts := drafts + [cur];
    }
  }

  /** The draft catches up with the target and proposes. */
  method Propose<P, C>(draft: Greedy, s: SequenceState<P, C>) returns (drafts: seq<nat>)
    requires s.tokens != [] && DraftReady(s.Value())
    modifies s`draftCache
    ensures drafts == Proposals(draft, s.tokens, SPEC_DRAFT_K)
    ensures s.draftCache == Slots((s.tokens + drafts)[..|s.tokens| - 1 + SPEC_DRAFT_K])
  {
    hide Slots;
    var l := |s.tokens|;
    var have := |s.draftCache|;
    if have < l - 1 {
      var _, caught := GreedyForward(draft, s.draftCache, s.tokens[have..l - 1], have);
      assert s.tokens[..have] + s.tokens[have..l - 1] == s.tokens[..l - 1];
      s.draftCache := caught;
    }
    drafts, s.draftCache := Autoregress(draft, s.tokens, s.draftCache);
  }

  /** The target's choices after the last token and after each proposal, in one pass. */
  method Verify<P, C>(target: Greedy, s: SequenceState<P, C>, drafts: seq<nat>) returns (accepted: seq<nat>)
    requires Ready(s.Value())
    modifies s`cache
    ensures accepted == Accepted(target, s.tokens, drafts)
    ensures s.cache == Slots(s.tokens + drafts)
  {
    hide Slots;
    var l := |s.tokens|;
    var verify := [s.tokens[l - 1]] + drafts;
    var ams, next := GreedyForward(target, s.cache, verify, l - 1);
    ghost var before := s.tokens[..l - 1];
    assert before + verify == s.tokens + drafts;
    forall i: nat | i <= |drafts|
      ensures ams[i] == Verdict(target, s.tokens, drafts, i)
    {
      assert before + verify[..i + 1] == s.tokens + drafts[..i];
    }
    s.cache := next;
    var m := 0;
    while m < |drafts| && ams[m] == drafts[m]
      invariant 0 <= m <= |drafts|
      invariant Agreed(target, s.tokens, drafts, 0) == Agreed(target, s.tokens, drafts, m)
    {
      m := m + 1;
    }
    accepted := drafts[..m] + [ams[m]];
  }

  method ApplyOne<P, C>(rules: StopRules, s: SequenceState<P, C>, token: nat) returns (emit: bool)
    modifies s
    ensures (s.Value(), emit) == FoldStep(rules, old(s.Value()), token)
  {
    hide Stops;
    s.AppendToken(token);
    s.numProcessed := |s.tokens| - 1;
    var isStop := Stops(rules, token, s.tokens);
    emit := s.ApplyToken(isStop);
  }

  /** Applies the accepted tokens until one stops the sequence. */
  method ApplyAccepted<P, C>(rules: StopRules, s: SequenceState<P, C>, accepted: seq<nat>) returns (newTokens: seq<nat>)
    modifies s
    ensures s.Value() == Fold(rules, old(s.Value()), accepted)
    ensures newTokens == FoldEmits(rules, old(s.Value()), accepted)
  {
    hide FoldStep, SequenceState.Value;
    newTokens := [];
    var i := 0;
    assert accepted[0..] == accepted;
    while i < |accepted|
      invariant 0 <= i <= |accepted|
      invariant Fold(rules, s.Value(), accepted[i..]) == Fold(rules, old(s.Value()), accepted)
      invariant newTokens + FoldEmits(rules, s.Value(), accepted[i..]) == FoldEmits(rules, old(s.Value()), accepted)
    {
      var emit := ApplyOne(rules, s, accepted[i]);
      assert accepted[i..][1..] == accepted[i + 1..];
      if !emit {
        return;
      }
      newTokens := newTokens + [accepted[i]];
      i := i + 1;
    }
  }

  /** Proposing, verifying, applying and rolling back add up to a burst. */
  lemma {:induction false} BurstIs<P, C>(target: Greedy, draft: Greedy, rules: StopRules, v: Sequence<P, C>,
        ds: seq<nat>, xs: seq<nat>)
    requires Ready(v) && ds == Proposals(draft, v.tokens, SPEC_DRAFT_K) && xs == Accepted(target, v.tokens, ds)
    ensures var cache := Slots(v.tokens + ds);
      var draftCache := Slots((v.tokens + ds)[..|v.tokens| - 1 + SPEC_DRAFT_K]);
      var t := Fold(rules, Recached(v, cache, draftCache), xs);
      && |t.tokens| > 0 && t.cache == cache && t.draftCache == draftCache
      && Recached(t, Truncated(cache, |t.tokens| - 1), Truncated(draftCache, |t.tokens| - 1))
         == Burst(target, draft, rules, v)
      && FoldEmits(rules, Recached(v, cache, draftCache), xs) == BurstEmits(target, draft, rules, v)
  {
    hide Slots, Fold, FoldEmits, Chain, ChainEmits, Accepted, Proposals, Truncated;
    var cache := Slots(v.tokens + ds);
    var draftCache := Slots((v.tokens + ds)[..|v.tokens| - 1 + SPEC_DRAFT_K]);
    AcceptedIsGreedy(target, v.tokens, ds);
    AcceptedAgrees(target, v.tokens, ds);
    FoldIsChain(target, rules, v, xs, cache, draftCache);
    ChainShape(target, rules, v, xs);
    var t := Chain(target, rules, v, |xs|);
    KeptPrefix(v.tokens, ds, xs, t.tokens, |t.tokens| - 1);
  }

  /** After a burst the target's cache holds all but the last token again, and the draft's no more than that. */
  lemma {:induction false} BurstIsReady<P, C>(target: Greedy, draft: Greedy, rules: StopRules, v: Sequence<P, C>)
    requires Ready(v)
    ensures DraftReady(Burst(target, draft, rules, v))
    ensures var t := Burst(target, draft, rules, v);
      t.tokens != [] && t.cache == Slots(t.tokens[..|t.tokens| - 1])
  {
    hide Chain, Accepted, Proposals;
    var ds := Proposals(draft, v.tokens, SPEC_DRAFT_K);
    AcceptedIsGreedy(target, v.tokens, ds);
    ChainShape(target, rules, v, Accepted(target, v.tokens, ds));
  }

  lemma {:induction false} ChainKeepsPhase<P, C>(target: Greedy, rules: StopRules, s: Sequence<P, C>, n: nat)
    requires s.phase == Decode && |s.tokens| > 0 && s.numProcessed == |s.tokens| - 1
    ensures var t := Chain(target, rules, s, n);
      t.phase == Decode && |t.tokens| > 0 && t.numProcessed == |t.tokens| - 1
    decreases n
  {
    hide Stops, Slots;
    if n > 0 {
      ChainKeepsPhase(target, rules, GreedyStep(target, rules, s).0, n - 1);
    }
  }

  method RunBurst<P, C>(target: Greedy, draft: Greedy, rules: StopRules, s: SequenceState<P, C>)
    returns (newTokens: seq<nat>)
    requires Ready(s.Value()) && DraftReady(s.Value())
    modifies s
    ensures s.Value() == Burst(target, draft, rules, old(s.Value()))
    ensures newTokens == BurstEmits(target, draft, rules, old(s.Value()))
    ensures Ready(s.Value()) && DraftReady(s.Value())
  {
    hide Slots, Fold, FoldEmits, Chain, ChainEmits, Accepted, Proposals, Truncated, DraftReady, Burst, BurstEmits;
    ghost var v := s.Value();
    var drafts := Propose(draft, s);
    var accepted := Verify(target, s, drafts);
    assert s.Value() == Recached(v, s.cache, s.draftCache);
    BurstIs(target, draft, rules, v, drafts, accepted);
    newTokens := ApplyAccepted(rules, s, accepted);
    RollBack(s);
    BurstIsReady(target, draft, rules, v);
    BurstKeepsPhase(target, draft, rules, v);
  }

  lemma {:induction false} BurstKeepsPhase<P, C>(target: Greedy, draft: Greedy, rules: StopRules, v: Sequence<P, C>)
    requires Ready(v)
    ensures var t := Burst(target, draft, rules, v);
      t.phase == Decode && |t.tokens| > 0 && t.numProcessed == |t.tokens| - 1
  {
    hide Chain, Accepted, Proposals;
    ChainKeepsPhase(target, rules, v, |Accepted(target, v.tokens, Proposals(draft, v.tokens, SPEC_DRAFT_K))|);
  }

  method RollBack<P, C>(s: SequenceState<P, C>)
    requires s.tokens != []
    modifies s`cache, s`draftCache
    ensures s.Value() == Recached(old(s.Value()),
      Truncated(old(s.cache), |s.tokens| - 1), Truncated(old(s.draftCache), |s.tokens| - 1))
  {
    var keep := |s.tokens| - 1;
    s.cache := Truncated(s.cache, keep);
    s.draftCache := Truncated(s.draftCache, keep);
  }

  lemma {:induction false} AcceptedAgrees(target: Greedy, tokens: seq<nat>, ds: seq<nat>)
    ensures var xs := Accepted(target, tokens, ds);
      xs[..|xs| - 1] == ds[..|xs| - 1]
  {
    hide Slots;
  }

  /** What is left of both caches after the rollback belongs to the tokens that were kept. */
  lemma {:induction false} KeptPrefix(tokens: seq<nat>, drafts: seq<nat>, accepted: seq<nat>, after: seq<nat>,
        keep: nat)
    requires tokens != [] && |drafts| == SPEC_DRAFT_K && 1 <= |accepted| <= |drafts| + 1
    requires accepted[..|accepted| - 1] == drafts[..|accepted| - 1]
    requires keep == |after| - 1 && |tokens| <= keep < |tokens| + |accepted|
    requires after == tokens + accepted[..|after| - |tokens|]
    ensures Truncated(Slots(tokens + drafts), keep) == Slots(after[..keep])
    ensures var have := |tokens| - 1 + SPEC_DRAFT_K;
      Truncated(Slots((tokens + drafts)[..have]), keep) == Slots(after[..if have < keep then have else keep])
  {
    hide Slots;
    var all := tokens + drafts;
    assert after[..keep] == tokens + accepted[..keep - |tokens|];
    assert accepted[..keep - |tokens|] == accepted[..|accepted| - 1][..keep - |tokens|];
    assert all[..keep] == after[..keep];
    SlotsPrefix(all, keep);
    var have := |tokens| - 1 + SPEC_DRAFT_K;
    if keep < have {
      SlotsPrefix(all[..have], keep);
      assert all[..have][..keep] == all[..keep];
    } else {
      assert all[..have] == all[..keep][..have];
      assert after[..keep][..have] == after[..have];
    }
  }

  // ----- what speculation promises

  /** Theorem: whatever the draft proposes, a burst appends between one and five of the target's next greedy tokens. */
  lemma {:induction false} BurstIsGreedy<P, C>(target: Greedy, draft: Greedy, rules: StopRules, s: Sequence<P, C>)
    requires s.tokens != []
    ensures var t := Burst(target, draft, rules, s);
      var k := |t.tokens| - |s.tokens|;
      1 <= k <= SPEC_DRAFT_K + 1 && t.tokens == Continued(target, s.tokens, k)
  {
    hide Chain, Proposals, Continued, Accepted;
    var n := |Accepted(target, s.tokens, Proposals(draft, s.tokens, SPEC_DRAFT_K))|;
    ChainIsGreedy(target, rules, s, n);
    ChainTokens(target, rules, s, n);
  }

  /** How many tokens the next burst appends. */
  function BurstLength<P, C>(target: Greedy, draft: Greedy, rules: StopRules, s: Sequence<P, C>): (k: nat)
    ensures 1 <= k <= SPEC_DRAFT_K + 1
  {
    ChainLength(target, rules, s, |Accepted(target, s.tokens, Proposals(draft, s.tokens, SPEC_DRAFT_K))|)
  }

  /** Equal in everything but what the draft has cached. */
  ghost predicate SameButDraft<P, C>(a: Sequence<P, C>, b: Sequence<P, C>) {
    a == b.(draftCache := a.draftCache)
  }

  lemma {:induction false} PlainKeepsDraft<P, C>(target: Greedy, rules: StopRules, s: Sequence<P, C>, n: nat)
    ensures Plain(target, rules, s, n).draftCache == s.draftCache
    decreases n
  {
    hide Stops, Slots;
    if n > 0 && s.status == Running {
      PlainKeepsDraft(target, rules, GreedyStep(target, rules, s).0, n - 1);
    }
  }

  lemma {:induction false} ChainKeepsDraft<P, C>(target: Greedy, rules: StopRules, s: Sequence<P, C>, n: nat)
    ensures Chain(target, rules, s, n).draftCache == s.draftCache
    decreases n
  {
    hide Stops, Slots;
    if n > 0 {
      ChainKeepsDraft(target, rules, GreedyStep(target, rules, s).0, n - 1);
    }
  }

  /** The burst left the state of some plain greedy run. */
  ghost predicate EndsPlain<P, C>(target: Greedy, draft: Greedy, rules: StopRules, s: Sequence<P, C>)
    requires s.tokens != []
  {
    exists k :: SameButDraft(Burst(target, draft, rules, s), Plain(target, rules, s, k))
  }

  /** Theorem: a burst leaves the state of some plain greedy run exactly when it appends no more tokens than
      `max_tokens` leaves room for. */
  lemma {:induction false} BurstIsPlainIff<P, C>(target: Greedy, draft: Greedy, rules: StopRules, s: Sequence<P, C>)
    requires s.tokens != [] && Decoding(s)
    ensures EndsPlain(target, draft, rules, s) <==> BurstLength(target, draft, rules, s) <= Room(s)
    ensures SPEC_DRAFT_K + 1 <= Room(s) ==> EndsPlain(target, draft, rules, s)
  {
    hide Chain, Proposals, Plain, Accepted, Slots, ChainLength;
    var n := |Accepted(target, s.tokens, Proposals(draft, s.tokens, SPEC_DRAFT_K))|;
    var chain := Chain(target, rules, s, n);
    ChainIsPlainIff(target, rules, s, n);
    ChainKeepsDraft(target, rules, s, n);
    var burst := Burst(target, draft, rules, s);
    forall k
      ensures SameButDraft(burst, Plain(target, rules, s, k)) <==> chain == Plain(target, rules, s, k)
    {
      PlainKeepsDraft(target, rules, s, k);
    }
    if BurstLength(target, draft, rules, s) <= Room(s) {
      var k :| chain == Plain(target, rules, s, k);
      assert SameButDraft(burst, Plain(target, rules, s, k));
    } else {
      forall k
        ensures !SameButDraft(burst, Plain(target, rules, s, k))
      {
        assert chain != Plain(target, rules, s, k);
      }
    }
  }

  /** A target that drafts for itself agrees with everything it proposed. */
  lemma {:induction false} OwnProposals(target: Greedy, tokens: seq<nat>, k: nat)
    ensures forall i: nat | i < k ::
      Proposals(target, tokens, k)[i] == Verdict(target, tokens, Proposals(target, tokens, k), i)
    decreases k
  {
    hide Slots;
    if k > 0 {
      OwnProposals(target, tokens, k - 1);
      var before, ds := Proposals(target, tokens, k - 1), Proposals(target, tokens, k);
      forall i: nat | i < k
        ensures ds[i] == Verdict(target, tokens, ds, i)
      {
        assert ds[..i] == before[..i];
      }
    }
  }

  lemma {:induction false} OwnAccepted(target: Greedy, tokens: seq<nat>)
    ensures |Accepted(target, tokens, Proposals(target, tokens, SPEC_DRAFT_K))| == SPEC_DRAFT_K + 1
  {
    hide Slots, Proposals;
    OwnProposals(target, tokens, SPEC_DRAFT_K);
  }

  lemma {:induction false} ChainLengthGrows<P, C>(target: Greedy, rules: StopRules, s: Sequence<P, C>, m: nat, n: nat)
    requires m <= n
    ensures ChainLength(target, rules, s, m) <= ChainLength(target, rules, s, n)
    decreases m
  {
    hide Stops, Slots;
    if m > 0 {
      ChainLengthGrows(target, rules, GreedyStep(target, rules, s).0, m - 1, n - 1);
    }
  }

  ghost predicate EveryDraftEndsPlain<P, C>(target: Greedy, rules: StopRules, s: Sequence<P, C>)
    requires s.tokens != []
  {
    forall draft: Greedy :: EndsPlain(target, draft, rules, s)
  }

  /** Theorem: every draft leaves a plain state exactly when the target's own next five tokens, cut at the first stop,
      fit what `max_tokens` leaves. */
  lemma {:induction false} EveryDraftIsPlainIff<P, C>(target: Greedy, rules: StopRules, s: Sequence<P, C>)
    requires s.tokens != [] && Decoding(s)
    ensures EveryDraftEndsPlain(target, rules, s) <==>
      ChainLength(target, rules, s, SPEC_DRAFT_K + 1) <= Room(s)
  {
    hide Chain, Proposals, Plain, Accepted, Slots, ChainLength, EndsPlain;
    forall draft: Greedy
      ensures EndsPlain(target, draft, rules, s) <==> BurstLength(target, draft, rules, s) <= Room(s)
      ensures BurstLength(target, draft, rules, s) <= ChainLength(target, rules, s, SPEC_DRAFT_K + 1)
    {
      BurstIsPlainIff(target, draft, rules, s);
      ChainLengthGrows(target, rules, s, |Accepted(target, s.tokens, Proposals(draft, s.tokens, SPEC_DRAFT_K))|,
        SPEC_DRAFT_K + 1);
    }
    OwnAccepted(target, s.tokens);
    assert EndsPlain(target, target, rules, s) <==> BurstLength(target, target, rules, s) <= Room(s);
  }

  /** Theorem: without stop rules every burst of every pair of models leaves a plain state exactly when five tokens fit.
      */
  lemma {:induction false} EveryBurstIsPlainIff<P, C>(rules: StopRules, s: Sequence<P, C>)
    requires s.tokens != [] && Decoding(s) && rules == StopRules({}, [])
    ensures (forall target: Greedy :: EveryDraftEndsPlain(target, rules, s)) <==> SPEC_DRAFT_K + 1 <= Room(s)
  {
    hide EveryDraftEndsPlain;
    forall target: Greedy
      ensures EveryDraftEndsPlain(target, rules, s) <==> SPEC_DRAFT_K + 1 <= Room(s)
    {
      EveryDraftIsPlainIff(target, rules, s);
      NeverStops(target, rules, s, SPEC_DRAFT_K + 1);
    }
    var one: Greedy := h => 0;
    assert EveryDraftEndsPlain(one, rules, s) <==> SPEC_DRAFT_K + 1 <= Room(s);
  }

  /** Theorem: otherwise the cap is overshot: a draft as good as the target makes the burst append more tokens than
      `max_tokens` leaves. */
  lemma {:induction false} OvershootsOtherwise<P, C>(target: Greedy, rules: StopRules, s: Sequence<P, C>)
    requires s.tokens != [] && Decoding(s) && ChainLength(target, rules, s, SPEC_DRAFT_K + 1) > Room(s)
    ensures |Burst(target, target, rules, s).tokens| > |s.tokens| + Room(s)
  {
    hide Chain, Proposals, Accepted, Slots, ChainLength;
    OwnAccepted(target, s.tokens);
    ChainTokens(target, rules, s, SPEC_DRAFT_K + 1);
  }

  /** A burst that crosses `max_tokens`: one token was left to generate and five are appended. */
  lemma {:induction false} BurstOvershoots(rules: StopRules)
    requires rules == StopRules({}, [])
    ensures var same: Greedy := h => 7;
      var s: Sequence<int, int> := Sequence([1], multiset{1}, 0, None, Running, Decode, 0, 0, 1, None, [], []);
      && Ready(s) && DraftReady(s) && Decoding(s)
      && Room(s) == 1
      && |Burst(same, same, rules, s).tokens| == 6
  {
    hide Slots, ChainLength, Proposals, Chain, Accepted;
    var same: Greedy := h => 7;
    var s: Sequence<int, int> := Sequence([1], multiset{1}, 0, None, Running, Decode, 0, 0, 1, None, [], []);
    EmptySlots();
    OwnAccepted(same, s.tokens);
    NeverStops(same, rules, s, 5);
    ChainTokens(same, rules, s, 5);
  }

  lemma {:induction false} EmptySlots()
    ensures Slots([]) == []
  {
  }

  lemma {:induction false} NeverStops<P, C>(target: Greedy, rules: StopRules, s: Sequence<P, C>, n: nat)
    requires rules == StopRules({}, [])
    ensures ChainLength(target, rules, s, n) == n
    decreases n
  {
    hide Slots;
    if n > 0 {
      NeverStops(target, rules, GreedyStep(target, rules, s).0, n - 1);
    }
  }

  // ----- whole generations

  /** Bursts with drafts that may differ from one to the next; a finished sequence is not scheduled again. */
  function Bursts<P, C>(target: Greedy, drafts: seq<Greedy>, rules: StopRules, s: Sequence<P, C>): Sequence<P, C>
    requires Ready(s)
    decreases |drafts|
  {
    if drafts == [] || s.status != Running then s else
      BurstIsReady(target, drafts[0], rules, s);
      BurstKeepsPhase(target, drafts[0], rules, s);
      Bursts(target, drafts[1..], rules, Burst(target, drafts[0], rules, s))
  }

  /** Theorem: however many bursts run with whatever drafts, the text is the target's own greedy continuation. */
  lemma {:induction false} GenerationIsGreedy<P, C>(target: Greedy, drafts: seq<Greedy>, rules: StopRules,
        s: Sequence<P, C>)
    requires Ready(s)
    ensures var t := Bursts(target, drafts, rules, s);
      |t.tokens| >= |s.tokens| && t.tokens == Continued(target, s.tokens, |t.tokens| - |s.tokens|)
    decreases |drafts|
  {
    hide Burst, Slots;
    if drafts != [] && s.status == Running {
      BurstIsReady(target, drafts[0], rules, s);
      BurstKeepsPhase(target, drafts[0], rules, s);
      var u := Burst(target, drafts[0], rules, s);
      BurstIsGreedy(target, drafts[0], rules, s);
      GenerationIsGreedy(target, drafts[1..], rules, u);
      var t := Bursts(target, drafts[1..], rules, u);
      ContinuedTwice(target, s.tokens, |u.tokens| - |s.tokens|, |t.tokens| - |u.tokens|);
    }
  }

  lemma {:induction false} ContinuedTwice(target: Greedy, tokens: seq<nat>, m: nat, n: nat)
    ensures Continued(target, Continued(target, tokens, m), n) == Continued(target, tokens, m + n)
    decreases m
  {
    hide Slots;
    if m > 0 {
      ContinuedTwice(target, tokens + [target(Slots(tokens))], m - 1, n);
    }
  }
}
