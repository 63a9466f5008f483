/** When the prefix cache can hand out another prefix's block (src/common/prefix_cache.rs). */
module ConfusablePrefixes {
  import PagedPools
  import opened PrefixCaches

  // ----- runs of a cache

  /** What happens to a cache between two lookups; a lookup reorders its entries as a touch does. */
  datatype Call =
    | Register(tokens: seq<nat>, start: nat, ids: seq<seq<nat>>)
    | Touch(tokens: seq<nat>)
    | Evict

  predicate Within(tokens: seq<nat>, vocabulary: nat) {
    forall k | 0 <= k < |tokens| :: tokens[k] < vocabulary
  }

  predicate Legal(size: nat, vocabulary: nat, call: Call) {
    match call
    case Register(tokens, start, ids) => (start + |ids|) * size <= |tokens| && Within(tokens, vocabulary)
    case Touch(tokens) => Within(tokens, vocabulary)
    case Evict => true
  }

  predicate AllLegal(size: nat, vocabulary: nat, calls: seq<Call>) {
    forall c | 0 <= c < |calls| :: Legal(size, vocabulary, calls[c])
  }

  function Step(chain: Hash, size: nat, capacity: nat, es: seq<Entry>, call: Call): seq<Entry>
    requires size > 0
    requires call.Register? ==> (call.start + |call.ids|) * size <= |call.tokens|
  {
    match call
    case Register(tokens, start, ids) => Grown(chain, es, capacity, tokens, size, start, ids, 0)
    case Touch(tokens) =>
      FullBlocks(|tokens|, size);
      Walked(chain, es, tokens, size, |tokens| / size, 0)
    case Evict => if es == [] then [] else es[1..]
  }

  /** The entries of a cache that started empty. */
  function After(chain: Hash, size: nat, vocabulary: nat, capacity: nat, calls: seq<Call>): seq<Entry>
    requires size > 0 && AllLegal(size, vocabulary, calls)
  {
    if calls == [] then [] else
      var last := |calls| - 1;
      assert Legal(size, vocabulary, calls[last]);
      Step(chain, size, capacity, After(chain, size, vocabulary, capacity, calls[..last]), calls[last])
  }

  /** The registrations that the calls ask for. */
  ghost function Asked(size: nat, calls: seq<Call>): set<Registration> {
    if calls == [] then {} else Asked(size, calls[..|calls| - 1]) + AskedBy(size, calls[|calls| - 1])
  }

  ghost function AskedBy(size: nat, call: Call): set<Registration> {
    if !call.Register? then {} else
      set i: nat | i < |call.ids| && (call.start + i + 1) * size <= |call.tokens| ::
        Registration(call.tokens[..(call.start + i + 1) * size], call.start + i + 1, call.ids[i])
  }

  /** Every block that a lookup of the prompt returns was registered for exactly the prompt's prefix up to it. */
  ghost predicate HitsMatch(chain: Hash, size: nat, es: seq<Entry>, log: set<Registration>, tokens: seq<nat>)
    requires size > 0
  {
    FullBlocks(|tokens|, size);
    var ids := Hits(chain, es, tokens, size, |tokens| / size, 0);
    forall j: nat | j < |ids| :: MatchesPrefix(log, tokens, size, j, ids[j])
  }

  ghost predicate EveryHitMatches(chain: Hash, size: nat, vocabulary: nat)
    requires size > 0
  {
    forall capacity: nat, calls: seq<Call>, tokens: seq<nat>
      | capacity > 0 && AllLegal(size, vocabulary, calls) && Within(tokens, vocabulary) ::
      HitsMatch(chain, size, After(chain, size, vocabulary, capacity, calls), Asked(size, calls), tokens)
  }

  ghost predicate SomeConfusable(chain: Hash, size: nat, vocabulary: nat) {
    exists a: seq<nat>, i: nat, b: seq<nat>, j: nat | Within(a, vocabulary) && Within(b, vocabulary) ::
      Confusable(chain, size, a, i, b, j)
  }

  /** Theorem: every hit of every run matches its prefix exactly when no two prefixes are confusable. */
  lemma {:induction false} EveryHitMatchesIff(chain: Hash, size: nat, vocabulary: nat)
    requires size > 0
    ensures EveryHitMatches(chain, size, vocabulary) <==> !SomeConfusable(chain, size, vocabulary)
  {
    hide Confusable, AllLegal, Within, HitsMatch, After, Asked;
    if SomeConfusable(chain, size, vocabulary) {
      var a, i: nat, b, j: nat :| Within(a, vocabulary) && Within(b, vocabulary) && Confusable(chain, size, a, i, b, j);
      ConfusableParts(chain, size, a, i, b, j);
      WrongHit(chain, size, vocabulary, a, i, b, j);
      var calls := [Register(b, 0, Names(j - 1)), Register(a, i - 1, Names(1))];
      assert !HitsMatch(chain, size, After(chain, size, vocabulary, j, calls), Asked(size, calls), b);
    } else {
      forall capacity: nat, calls: seq<Call>, tokens: seq<nat>
        | capacity > 0 && AllLegal(size, vocabulary, calls) && Within(tokens, vocabulary)
        ensures HitsMatch(chain, size, After(chain, size, vocabulary, capacity, calls), Asked(size, calls), tokens)
      {
        RightHits(chain, size, vocabulary, capacity, calls, tokens);
      }
    }
  }

  // ----- without confusable prefixes

  lemma {:induction false} RightHits(chain: Hash, size: nat, vocabulary: nat, capacity: nat, calls: seq<Call>,
        tokens: seq<nat>)
    requires size > 0 && AllLegal(size, vocabulary, calls) && Within(tokens, vocabulary)
    requires !SomeConfusable(chain, size, vocabulary)
    ensures HitsMatch(chain, size, After(chain, size, vocabulary, capacity, calls), Asked(size, calls), tokens)
  {
    hide AllLegal, Asked, After, Registered, Confusable, Reached, Hits, MatchesPrefix;
    var es, log := After(chain, size, vocabulary, capacity, calls), Asked(size, calls);
    AllRegistered(chain, size, vocabulary, capacity, calls);
    forall r | r in log
      ensures Distinguishes(chain, size, r.prefix, tokens)
    {
      AskedWithin(size, vocabulary, calls, r);
      forall i: nat, j: nat | i * size <= |r.prefix| && j * size <= |tokens|
        ensures !Confusable(chain, size, r.prefix[..i * size], i, tokens[..j * size], j)
      {
        assert Within(r.prefix[..i * size], vocabulary) && Within(tokens[..j * size], vocabulary);
      }
    }
    FullBlocks(|tokens|, size);
    NothingReached(chain, es, tokens, size);
    HitsAreSound(chain, es, log, tokens, size, |tokens| / size, 0);
    forall j: nat | j < |Hits(chain, es, tokens, size, |tokens| / size, 0)|
      ensures MatchesPrefix(log, tokens, size, j, Hits(chain, es, tokens, size, |tokens| / size, 0)[j])
    {
      assert MatchesPrefix(log, tokens, size, 0 + j, Hits(chain, es, tokens, size, |tokens| / size, 0)[j]);
    }
  }

  lemma {:induction false} AskedWithin(size: nat, vocabulary: nat, calls: seq<Call>, r: Registration)
    requires AllLegal(size, vocabulary, calls) && r in Asked(size, calls)
    ensures Within(r.prefix, vocabulary)
  {
    var last := |calls| - 1;
    if r in Asked(size, calls[..last]) {
      AskedWithin(size, vocabulary, calls[..last], r);
    } else {
      assert Legal(size, vocabulary, calls[last]) && r in AskedBy(size, calls[last]);
    }
  }

  lemma {:induction false} AllRegistered(chain: Hash, size: nat, vocabulary: nat, capacity: nat, calls: seq<Call>)
    requires size > 0 && AllLegal(size, vocabulary, calls)
    ensures forall e | e in After(chain, size, vocabulary, capacity, calls) ::
      Registered(chain, size, Asked(size, calls), e)
  {
    hide Registered, Grown, Walked, AskedBy;
    if calls != [] {
      var last := |calls| - 1;
      AllRegistered(chain, size, vocabulary, capacity, calls[..last]);
      assert Legal(size, vocabulary, calls[last]);
      StepRegistered(chain, size, vocabulary, capacity, After(chain, size, vocabulary, capacity, calls[..last]),
        Asked(size, calls[..last]), calls[last]);
    }
  }

  lemma {:induction false} StepRegistered(chain: Hash, size: nat, vocabulary: nat, capacity: nat, es: seq<Entry>,
        log: set<Registration>, call: Call)
    requires size > 0 && Legal(size, vocabulary, call)
    requires forall e | e in es :: Registered(chain, size, log, e)
    ensures forall e | e in Step(chain, size, capacity, es, call) ::
      Registered(chain, size, log + AskedBy(size, call), e)
  {
    hide Registered, Grown, Walked, AskedBy;
    var all := log + AskedBy(size, call);
    forall e | e in es
      ensures Registered(chain, size, all, e)
    {
      MoreLog(chain, size, log, all, e);
    }
    match call
    case Register(tokens, start, ids) =>
      GrownRegistered(chain, es, capacity, tokens, size, start, ids, 0, all);
    case Touch(tokens) =>
      FullBlocks(|tokens|, size);
      WalkedOnly(chain, es, tokens, size, |tokens| / size, 0);
    case Evict =>
  }

  lemma {:induction false} GrownRegistered(chain: Hash, es: seq<Entry>, capacity: nat, tokens: seq<nat>, size: nat,
        start: nat, ids: seq<seq<nat>>, i: nat, log: set<Registration>)
    requires size > 0 && (start + |ids|) * size <= |tokens| && i <= |ids|
    requires AskedBy(size, Register(tokens, start, ids)) <= log
    requires forall e | e in es :: Registered(chain, size, log, e)
    ensures forall e | e in Grown(chain, es, capacity, tokens, size, start, ids, i) :: Registered(chain, size, log, e)
    decreases |ids| - i
  {
    hide ChainOf, Registered, BlockOf, Find;
    if i < |ids| {
      BlocksFit(start + |ids|, size, start + i + 1, |tokens|);
      var n := start + i + 1;
      var h := ChainOf(chain, tokens, size, n);
      var e := Entry(h, ids[i], BlockOf(tokens, size, start + i));
      if Find(es, h).Some? {
        GrownRegistered(chain, es, capacity, tokens, size, start, ids, i + 1, log);
      } else {
        NewRegistered(chain, tokens, size, start, ids, i, e, log);
        GrownRegistered(chain, Pushed(es, capacity, e), capacity, tokens, size, start, ids, i + 1, log);
      }
    }
  }

  lemma {:induction false} NewRegistered(chain: Hash, tokens: seq<nat>, size: nat, start: nat, ids: seq<seq<nat>>,
        i: nat, e: Entry, log: set<Registration>)
    requires size > 0 && i < |ids| && (start + i + 1) * size <= |tokens|
    requires AskedBy(size, Register(tokens, start, ids)) <= log
    requires e == Entry(ChainOf(chain, tokens, size, start + i + 1), ids[i], BlockOf(tokens, size, start + i))
    ensures Registered(chain, size, log, e)
  {
    hide ChainOf, BlockOf;
    var n := start + i + 1;
    var r := Registration(tokens[..n * size], n, ids[i]);
    assert r in AskedBy(size, Register(tokens, start, ids));
    PrefixBlock(chain, size, tokens, n, n);
    assert RegisteredAs(chain, size, r, e);
  }

  lemma {:induction false} WalkedOnly(chain: Hash, es: seq<Entry>, tokens: seq<nat>, size: nat, n: nat, i: nat)
    requires n * size <= |tokens| && i <= n && size > 0
    ensures forall e | e in Walked(chain, es, tokens, size, n, i) :: e in es
    decreases n - i
  {
    hide ChainOf, Find;
    if i < n {
      BlocksFit(n, size, i + 1, |tokens|);
      var found := Find(es, ChainOf(chain, tokens, size, i + 1));
      if found.Some? {
        WalkedOnly(chain, Refreshed(es, found.value), tokens, size, n, i + 1);
      }
    }
  }

  // ----- with confusable prefixes

  /** Some block ids, one layer each. */
  function Names(n: nat): (ids: seq<seq<nat>>)
    ensures |ids| == n
  {
    seq(n, k requires 0 <= k < n => [k])
  }

  /** Registering all but the last block of `b`, and then the last block of `a`, makes a lookup of `b` return the
      latter. */
  lemma {:induction false} WrongHit(chain: Hash, size: nat, vocabulary: nat, a: seq<nat>, i: nat, b: seq<nat>, j: nat)
    requires size > 0 && i > 0 && j > 0
    requires Within(a, vocabulary) && Within(b, vocabulary) && Confusable(chain, size, a, i, b, j)
    ensures var calls := [Register(b, 0, Names(j - 1)), Register(a, i - 1, Names(1))];
      && AllLegal(size, vocabulary, calls)
      && !HitsMatch(chain, size, After(chain, size, vocabulary, j, calls), Asked(size, calls), b)
  {
    hide *;
    var first, second := Register(b, 0, Names(j - 1)), Register(a, i - 1, Names(1));
    var calls := [first, second];
    TwoRegistered(chain, size, vocabulary, a, i, b, j);
    AfterTwo(chain, size, vocabulary, j, first, second);
    var es := After(chain, size, vocabulary, j, calls);
    assert |Hits(chain, es, b, size, j, 0)| == j;
    LastHit(chain, size, es, Asked(size, calls), b, j);
  }

  /** The two calls leave a cache that a lookup of `b` gets all the way through. */
  lemma {:induction false} TwoRegistered(chain: Hash, size: nat, vocabulary: nat, a: seq<nat>, i: nat, b: seq<nat>,
        j: nat)
    requires size > 0 && i > 0 && j > 0
    requires Within(a, vocabulary) && Within(b, vocabulary) && Confusable(chain, size, a, i, b, j)
    ensures var first, second := Register(b, 0, Names(j - 1)), Register(a, i - 1, Names(1));
      && j * size == |b| && Legal(size, vocabulary, first) && Legal(size, vocabulary, second)
      && |Hits(chain, Step(chain, size, j, Step(chain, size, j, [], first), second), b, size, j, 0)| == j
      && forall r | r in Asked(size, [first, second]) :: r.prefix != b
  {
    hide ChainOf, BlockOf, Find, Hits, Confusable, Grown, Consistent, AllOf, Covers, Reached, Asked;
    var first, second := Register(b, 0, Names(j - 1)), Register(a, i - 1, Names(1));
    ConfusableParts(chain, size, a, i, b, j);
    BlocksFit(j, size, j - 1, |b|);
    var es1 := Grown(chain, [], j, b, size, 0, Names(j - 1), 0);
    NothingCovered(chain, b, size, j - 1);
    GrownCovers(chain, [], j, b, size, Names(j - 1), 0);
    var es2 := Grown(chain, es1, j, a, size, i - 1, Names(1), 0);
    OneMoreCovered(chain, es1, a, i, b, j, size);
    CoveredIsReached(chain, es2, b, size, j);
    HitsAll(chain, es2, b, size, j, 0);
    forall r | r in Asked(size, [first, second])
      ensures r.prefix != b
    {
      AskedTwo(size, first, second, r);
      NotYet(size, a, i, b, j, r);
    }
  }

  lemma {:induction false} NothingCovered(chain: Hash, b: seq<nat>, size: nat, n: nat)
    ensures AllOf(chain, [], b, size, n) && Covers(chain, [], b, size, 0)
  {
  }

  lemma {:induction false} NotYet(size: nat, a: seq<nat>, i: nat, b: seq<nat>, j: nat, r: Registration)
    requires size > 0 && i > 0 && j > 0 && i * size == |a| && j * size == |b| && a != b
    requires r in AskedBy(size, Register(b, 0, Names(j - 1))) || r in AskedBy(size, Register(a, i - 1, Names(1)))
    ensures r.prefix != b
  {
    if r in AskedBy(size, Register(b, 0, Names(j - 1))) {
      assert r.blocks < j && |r.prefix| == r.blocks * size;
      PagedPools.SmallerQuotient(r.blocks, 0, j, 0, size);
    } else {
      assert r.prefix == a[..i * size] == a;
    }
  }

  lemma {:induction false} LastHit(chain: Hash, size: nat, es: seq<Entry>, log: set<Registration>, b: seq<nat>, j: nat)
    requires size > 0 && j > 0 && j * size == |b| && |Hits(chain, es, b, size, j, 0)| == j
    requires forall r | r in log :: r.prefix != b
    ensures !HitsMatch(chain, size, es, log, b)
  {
    hide Hits, MatchesPrefix;
    BlocksDivide(j, size);
    var ids := Hits(chain, es, b, size, j, 0);
    NotAsked(log, b, size, j, ids[j - 1]);
  }

  lemma {:induction false} ConfusableParts(chain: Hash, size: nat, a: seq<nat>, i: nat, b: seq<nat>, j: nat)
    requires Confusable(chain, size, a, i, b, j)
    ensures 0 < i && 0 < j && i * size == |a| && j * size == |b| && a != b && Consistent(chain, size, b, j)
    ensures ChainOf(chain, a, size, i) == ChainOf(chain, b, size, j)
    ensures BlockOf(a, size, i - 1) == BlockOf(b, size, j - 1)
  {
    hide ChainOf, BlockOf;
  }

  lemma {:induction false} AfterTwo(chain: Hash, size: nat, vocabulary: nat, capacity: nat, first: Call, second: Call)
    requires size > 0 && Legal(size, vocabulary, first) && Legal(size, vocabulary, second)
    ensures AllLegal(size, vocabulary, [first, second])
    ensures After(chain, size, vocabulary, capacity, [first, second])
      == Step(chain, size, capacity, Step(chain, size, capacity, [], first), second)
  {
    hide Step;
    var calls := [first, second];
    assert calls[..1] == [first] && [first][..0] == [];
    assert AllLegal(size, vocabulary, [first]);
    assert After(chain, size, vocabulary, capacity, [first]) == Step(chain, size, capacity, [], first);
  }

  lemma {:induction false} AskedTwo(size: nat, first: Call, second: Call, r: Registration)
    requires r in Asked(size, [first, second])
    ensures r in AskedBy(size, first) || r in AskedBy(size, second)
  {
    hide AskedBy;
    assert [first, second][..1] == [first] && [first][..0] == [];
    assert Asked(size, [first]) == {} + AskedBy(size, first);
  }

  lemma {:induction false} NotAsked(log: set<Registration>, b: seq<nat>, size: nat, j: nat, ids: seq<nat>)
    requires j > 0 && j * size == |b| && forall r | r in log :: r.prefix != b
    ensures !MatchesPrefix(log, b, size, j - 1, ids)
  {
    assert b[..j * size] == b;
  }

  lemma {:induction false} BlocksDivide(n: nat, size: nat)
    requires size > 0
    ensures n * size / size == n
  {
    PagedPools.DividedOnce(n, 0, size);
  }

  /** Every entry stands for one of the first `n` blocks of the prompt. */
  ghost predicate AllOf(chain: Hash, es: seq<Entry>, b: seq<nat>, size: nat, n: nat) {
    forall e | e in es :: IsOf(chain, e, b, size, n)
  }

  ghost predicate IsOf(chain: Hash, e: Entry, b: seq<nat>, size: nat, n: nat) {
    exists m: nat | 0 < m <= n && m * size <= |b| ::
      e.hash == ChainOf(chain, b, size, m) && e.blockTokens == BlockOf(b, size, m - 1)
  }

  /** Each of the first `n` blocks of the prompt has an entry under its chain. */
  ghost predicate Covers(chain: Hash, es: seq<Entry>, b: seq<nat>, size: nat, n: nat) {
    forall m: nat | 0 < m <= n && m * size <= |b| :: Find(es, ChainOf(chain, b, size, m)).Some?
  }

  lemma {:induction false} FindPushed(es: seq<Entry>, e: Entry)
    ensures forall h: nat | h == e.hash || Find(es, h).Some? :: Find(es + [e], h).Some?
  {
    assert (es + [e])[..|es|] == es;
  }

  lemma {:induction false} GrownCovers(chain: Hash, es: seq<Entry>, capacity: nat, b: seq<nat>, size: nat,
        ids: seq<seq<nat>>, k: nat)
    requires size > 0 && k <= |ids| && |ids| * size <= |b| && |es| + |ids| - k <= capacity
    requires AllOf(chain, es, b, size, |ids|) && Covers(chain, es, b, size, k)
    ensures var grown := Grown(chain, es, capacity, b, size, 0, ids, k);
      && AllOf(chain, grown, b, size, |ids|) && Covers(chain, grown, b, size, |ids|)
      && |grown| <= |es| + |ids| - k
    decreases |ids| - k
  {
    hide ChainOf, BlockOf, Find;
    if k < |ids| {
      BlocksFit(|ids|, size, k + 1, |b|);
      var h := ChainOf(chain, b, size, k + 1);
      var e := Entry(h, ids[k], BlockOf(b, size, k));
      var next := if Find(es, h).Some? then es else es + [e];
      FindPushed(es, e);
      assert IsOf(chain, e, b, size, |ids|);
      GrownCovers(chain, next, capacity, b, size, ids, k + 1);
    }
  }

  lemma {:induction false} OneMoreCovered(chain: Hash, es: seq<Entry>, a: seq<nat>, i: nat, b: seq<nat>, j: nat,
        size: nat)
    requires size > 0 && 0 < i && 0 < j && i * size == |a| && j * size == |b| && |es| < j
    requires AllOf(chain, es, b, size, j - 1) && Covers(chain, es, b, size, j - 1)
    requires ChainOf(chain, a, size, i) == ChainOf(chain, b, size, j)
    requires BlockOf(a, size, i - 1) == BlockOf(b, size, j - 1)
    ensures var grown := Grown(chain, es, j, a, size, i - 1, Names(1), 0);
      AllOf(chain, grown, b, size, j) && Covers(chain, grown, b, size, j)
  {
    hide ChainOf, BlockOf, Find;
    var h := ChainOf(chain, a, size, i);
    var e := Entry(h, Names(1)[0], BlockOf(a, size, i - 1));
    var next := if Find(es, h).Some? then es else es + [e];
    FindPushed(es, e);
    GrownStep(chain, es, j, a, size, i - 1, Names(1), 0);
    GrownStep(chain, next, j, a, size, i - 1, Names(1), 1);
    assert IsOf(chain, e, b, size, j);
    forall f | f in next
      ensures IsOf(chain, f, b, size, j)
    {
      if f in es {
        assert IsOf(chain, f, b, size, j - 1);
      }
    }
  }

  /** On a prompt whose equal chains carry equal blocks, an entry under a block's chain carries the block. */
  lemma {:induction false} CoveredIsReached(chain: Hash, es: seq<Entry>, b: seq<nat>, size: nat, n: nat)
    requires AllOf(chain, es, b, size, n) && Covers(chain, es, b, size, n) && Consistent(chain, size, b, n)
    ensures Reached(chain, es, b, size, n)
  {
    hide ChainOf, BlockOf, Find;
    forall k: nat | 0 < k <= n && k * size <= |b|
      ensures IsCached(chain, es, b, size, k)
    {
      var e := es[Find(es, ChainOf(chain, b, size, k)).value];
      assert IsOf(chain, e, b, size, n);
      var m: nat :| 0 < m <= n && m * size <= |b| && e.hash == ChainOf(chain, b, size, m)
        && e.blockTokens == BlockOf(b, size, m - 1);
      assert SameChain(chain, size, b, m, b, k);
      assert SameLast(size, b, m, b, k);
    }
  }

  lemma {:induction false} HitsAll(chain: Hash, es: seq<Entry>, tokens: seq<nat>, size: nat, n: nat, i: nat)
    requires size > 0 && n * size <= |tokens| && i <= n && Reached(chain, es, tokens, size, n)
    ensures |Hits(chain, es, tokens, size, n, i)| == n - i
    decreases n - i
  {
    hide ChainOf, BlockOf, Find;
    if i < n {
      BlocksFit(n, size, i + 1, |tokens|);
      assert IsCached(chain, es, tokens, size, i + 1);
      HitsAll(chain, es, tokens, size, n, i + 1);
    }
  }

  // ----- a hash of 64 bits

  const TOKENS: nat := 0x1_0000_0000
  const HASHES: nat := 0x1_0000_0000_0000_0000

  ghost predicate Narrow(chain: Hash) {
    forall block: seq<nat>, prev: nat :: chain(block, prev) < HASHES
  }

  /** Theorem: whatever 64-bit hash is chained, some two prefixes of 32-bit tokens are confusable, and some run of the
      cache hands out another prefix's block. */
  lemma {:induction false} NarrowHashesConfuse(chain: Hash, size: nat)
    requires Narrow(chain) && size >= 3
    ensures SomeConfusable(chain, size, TOKENS) && !EveryHitMatches(chain, size, TOKENS)
  {
    hide Confusable, EveryHitMatches;
    var value := (k: nat) => chain(Spelled(k, size), 0);
    forall k: nat | k <= HASHES
      ensures value(k) < HASHES
    {
      assert value(k) == chain(Spelled(k, size), 0);
    }
    var x, y := Pigeonhole(value, HASHES);
    Spells(x, y, size);
    var first, second := Spelled(x, size), Spelled(y, size);
    RepeatedConfuses(chain, size, first, second);
    assert Within(first + second, TOKENS) && Within(second + second, TOKENS);
    EveryHitMatchesIff(chain, size, TOKENS);
  }

  /** Blocks that collide can stand before one of them without being told apart. */
  lemma {:induction false} RepeatedConfuses(chain: Hash, size: nat, x: seq<nat>, y: seq<nat>)
    requires size > 0 && |x| == |y| == size && x != y && chain(x, 0) == chain(y, 0)
    ensures Confusable(chain, size, x + y, 2, y + y, 2)
  {
    var a, b := x + y, y + y;
    TwoBlocks(chain, size, x, y);
    TwoBlocks(chain, size, y, y);
    assert a[..size] == x && b[..size] == y;
    forall i: nat, j: nat | i <= 2 && j <= 2 && SameChain(chain, size, b, i, b, j)
      ensures SameLast(size, b, i, b, j)
    {
    }
  }

  lemma {:induction false} TwoBlocks(chain: Hash, size: nat, x: seq<nat>, y: seq<nat>)
    requires size > 0 && |x| == |y| == size
    ensures BlockOf(x + y, size, 0) == x && BlockOf(x + y, size, 1) == y
    ensures ChainOf(chain, x + y, size, 2) == chain(y, chain(x, 0))
  {
    assert BlockOf(x + y, size, 0) == x && BlockOf(x + y, size, 1) == y;
    ChainStep(chain, x + y, size, 1);
    ChainStep(chain, x + y, size, 0);
  }

  /** A block that spells `k` in its first three tokens. */
  function Spelled(k: nat, size: nat): (block: seq<nat>)
    requires size >= 3
    ensures |block| == size
  {
    [k % TOKENS, k / TOKENS % TOKENS, k / TOKENS / TOKENS % TOKENS] + seq(size - 3, _ => 0)
  }

  lemma {:induction false} Spells(x: nat, y: nat, size: nat)
    requires x < y <= HASHES && size >= 3
    ensures Spelled(x, size) != Spelled(y, size)
    ensures Within(Spelled(x, size), TOKENS) && Within(Spelled(y, size), TOKENS)
  {
    var a, b := Spelled(x, size), Spelled(y, size);
    assert a[0] != b[0] || a[1] != b[1] || a[2] != b[2];
  }

  lemma {:induction false} Pigeonhole(value: nat -> nat, n: nat) returns (x: nat, y: nat)
    requires forall k: nat | k <= n :: value(k) < n
    ensures x < y <= n && value(x) == value(y)
  {
    if forall k: nat, m: nat | k < m <= n :: value(k) != value(m) {
      assert Image(value, n + 1) <= Below(n);
      SmallerSet(Image(value, n + 1), Below(n));
      assert false;
    }
    x, y :| x < y <= n && value(x) == value(y);
  }

  ghost function Image(value: nat -> nat, n: nat): (s: set<nat>)
    ensures forall v :: v in s <==> exists k: nat | k < n :: v == value(k)
    ensures (forall k: nat, m: nat | k < m < n :: value(k) != value(m)) ==> |s| == n
  {
    if n == 0 then {} else Image(value, n - 1) + {value(n - 1)}
  }

  ghost function Below(n: nat): (s: set<nat>)
    ensures forall v: nat :: v in s <==> v < n
    ensures |s| == n
  {
    if n == 0 then {} else Below(n - 1) + {n - 1}
  }

  lemma {:induction false} SmallerSet(s: set<nat>, t: set<nat>)
    requires s <= t
    ensures |s| <= |t|
  {
    assert t == s + (t - s);
  }
}
