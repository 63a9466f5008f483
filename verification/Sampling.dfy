/** Filtering a distribution and drawing from it (src/sampling.rs). */
module Sampling {
  import opened Wrappers

  type Probs = seq<real>

  predicate NonNegative(p: Probs) {
    forall i | 0 <= i < |p| :: p[i] >= 0.0
  }

  function Total(p: Probs): real {
    if p == [] then 0.0 else Total(p[..|p| - 1]) + p[|p| - 1]
  }

  lemma {:induction false} TotalGrows(p: Probs, x: real)
    ensures Total(p + [x]) == Total(p) + x
  {
    assert (p + [x])[..|p|] == p;
  }

  // ----- counting and sorting

  function Count<T>(f: T -> bool, xs: seq<T>): (n: nat)
    ensures n <= |xs|
  {
    if xs == [] then 0 else Count(f, xs[..|xs| - 1]) + if f(xs[|xs| - 1]) then 1 else 0
  }

  lemma {:induction false} CountGrows<T>(f: T -> bool, xs: seq<T>, x: T)
    ensures Count(f, xs + [x]) == Count(f, xs) + if f(x) then 1 else 0
  {
    assert (xs + [x])[..|xs|] == xs;
  }

  lemma {:induction false} CountConcat<T>(f: T -> bool, xs: seq<T>, ys: seq<T>)
    ensures Count(f, xs + ys) == Count(f, xs) + Count(f, ys)
    decreases |ys|
  {
    if ys == [] {
      assert xs + ys == xs;
    } else {
      var n := |ys| - 1;
      assert xs + ys == (xs + ys[..n]) + [ys[n]];
      CountConcat(f, xs, ys[..n]);
      CountGrows(f, xs + ys[..n], ys[n]);
    }
  }

  /** Where the last item of a list sits in another order of it. */
  lemma {:induction false} Removal<T>(xs: seq<T>, ys: seq<T>) returns (before: seq<T>, after: seq<T>)
    requires multiset(xs) == multiset(ys) && xs != []
    ensures ys == before + [xs[|xs| - 1]] + after
    ensures multiset(xs[..|xs| - 1]) == multiset(before + after)
  {
    var n := |xs| - 1;
    assert xs == xs[..n] + [xs[n]];
    assert xs[n] in multiset(ys);
    var k :| 0 <= k < |ys| && ys[k] == xs[n];
    before, after := ys[..k], ys[k + 1..];
    assert ys == before + [ys[k]] + after;
    assert multiset(ys) == multiset(before) + multiset{ys[k]} + multiset(after);
    assert multiset(xs) == multiset(xs[..n]) + multiset{xs[n]};
    assert multiset(before + after) == multiset(before) + multiset(after);
    assert multiset(xs[..n]) == multiset(xs) - multiset{xs[n]};
  }

  /** Counting does not see order. */
  lemma {:induction false} CountPermutes<T>(f: T -> bool, xs: seq<T>, ys: seq<T>)
    requires multiset(xs) == multiset(ys)
    ensures Count(f, xs) == Count(f, ys)
    decreases |xs|
  {
    assert |xs| == |multiset(xs)| == |multiset(ys)| == |ys|;
    if xs != [] {
      var n := |xs| - 1;
      var before, after := Removal(xs, ys);
      CountPermutes(f, xs[..n], before + after);
      CountConcat(f, before, after);
      CountConcat(f, before + [xs[n]], after);
      CountGrows(f, before, xs[n]);
    }
  }

  /** A list that satisfies `f` up to `k` and not from there on. */
  lemma {:induction false} CountSplits<T>(f: T -> bool, xs: seq<T>, k: nat)
    requires k <= |xs|
    ensures (forall i | 0 <= i < k :: f(xs[i])) ==> Count(f, xs) >= k
    ensures (forall i | k <= i < |xs| :: !f(xs[i])) ==> Count(f, xs) <= k
  {
    if k < |xs| {
      CountSplits(f, xs[..|xs| - 1], k);
    } else if k > 0 {
      CountSplits(f, xs[..k - 1], k - 1);
    }
  }

  predicate SortedBy<T>(key: T -> real, xs: seq<T>) {
    forall i, j | 0 <= i < j < |xs| :: key(xs[i]) <= key(xs[j])
  }

  function Insert<T>(key: T -> real, xs: seq<T>, x: T): (ys: seq<T>)
    ensures multiset(ys) == multiset(xs) + multiset{x}
  {
    if xs == [] || key(xs[|xs| - 1]) <= key(x) then xs + [x]
    else
      assert xs == xs[..|xs| - 1] + [xs[|xs| - 1]];
      Insert(key, xs[..|xs| - 1], x) + [xs[|xs| - 1]]
  }

  /** A sorted list stays sorted when something at least as large as all of it follows. */
  lemma {:induction false} SortedGrows<T>(key: T -> real, xs: seq<T>, x: T)
    requires SortedBy(key, xs) && forall y | y in xs :: key(y) <= key(x)
    ensures SortedBy(key, xs + [x])
  {
    forall i, j | 0 <= i < j < |xs + [x]|
      ensures key((xs + [x])[i]) <= key((xs + [x])[j])
    {
      assert xs[i] in xs;
    }
  }

  lemma {:induction false} InsertSorts<T>(key: T -> real, xs: seq<T>, x: T)
    requires SortedBy(key, xs)
    ensures SortedBy(key, Insert(key, xs, x))
    decreases |xs|
  {
    var n := |xs| - 1;
    if n < 0 || key(xs[n]) <= key(x) {
      SortedGrows(key, xs, x);
    } else {
      var front := Insert(key, xs[..n], x);
      InsertSorts(key, xs[..n], x);
      forall y | y in front
        ensures key(y) <= key(xs[n])
      {
        assert y in multiset(front);
        assert y == x || y in xs[..n];
      }
      SortedGrows(key, front, xs[n]);
    }
  }

  /** Any sort will do: every claim below holds of all descending orders of the same items. */
  function Sort<T>(key: T -> real, xs: seq<T>): (ys: seq<T>)
    ensures multiset(ys) == multiset(xs)
    ensures |ys| == |xs|
  {
    if xs == [] then [] else
      assert xs == xs[..|xs| - 1] + [xs[|xs| - 1]];
      var ys := Insert(key, Sort(key, xs[..|xs| - 1]), xs[|xs| - 1]);
      assert |multiset(ys)| == |multiset(xs)|;
      ys
  }

  lemma {:induction false} SortSorts<T>(key: T -> real, xs: seq<T>)
    ensures SortedBy(key, Sort(key, xs))
    decreases |xs|
  {
    if xs != [] {
      SortSorts(key, xs[..|xs| - 1]);
      InsertSorts(key, Sort(key, xs[..|xs| - 1]), xs[|xs| - 1]);
    }
  }

  /** Two descending orders of the same items hold the same keys, position by position: were one larger at `k`, it would
      have more items beyond the other's key than the other. */
  lemma {:induction false} SameKeys<T>(key: T -> real, a: seq<T>, b: seq<T>, k: nat)
    requires SortedBy(key, a) && SortedBy(key, b) && multiset(a) == multiset(b)
    requires k < |a| && k < |b|
    ensures key(a[k]) == key(b[k])
  {
    NotSmaller(key, a, b, k);
    NotSmaller(key, b, a, k);
  }

  lemma {:induction false} NotSmaller<T>(key: T -> real, a: seq<T>, b: seq<T>, k: nat)
    requires SortedBy(key, a) && SortedBy(key, b) && multiset(a) == multiset(b)
    requires k < |a| && k < |b|
    ensures key(a[k]) >= key(b[k])
  {
    var small := (x: T) => key(x) <= key(a[k]);
    CountPermutes(small, a, b);
    CountSplits(small, a, k + 1);
    CountSplits(small, b, k);
  }

  // ----- the nucleus

  datatype Item = Item(index: nat, prob: real)

  function Descending(): Item -> real {
    (x: Item) => -x.prob
  }

  function Items(p: Probs, n: nat): (xs: seq<Item>)
    requires n <= |p|
    ensures |xs| == n
  {
    if n == 0 then [] else Items(p, n - 1) + [Item(n - 1, p[n - 1])]
  }

  /** Items of `p`, none twice. */
  predicate Drawn(p: Probs, xs: seq<Item>) {
    && (forall k | 0 <= k < |xs| :: xs[k].index < |p| && xs[k].prob == p[xs[k].index])
    && forall j, k | 0 <= j < k < |xs| :: xs[j].index != xs[k].index
  }

  /** A descending order of the whole vocabulary. */
  predicate FullOrder(p: Probs, order: seq<Item>) {
    SortedBy(Descending(), order) && multiset(order) == multiset(Items(p, |p|))
  }

  function Mass(xs: seq<Item>): real {
    if xs == [] then 0.0 else Mass(xs[..|xs| - 1]) + xs[|xs| - 1].prob
  }

  lemma {:induction false} MassConcat(xs: seq<Item>, ys: seq<Item>)
    ensures Mass(xs + ys) == Mass(xs) + Mass(ys)
    decreases |ys|
  {
    if ys == [] {
      assert xs + ys == xs;
    } else {
      var n := |ys| - 1;
      assert (xs + ys)[..|xs| + n] == xs + ys[..n];
      MassConcat(xs, ys[..n]);
    }
  }

  lemma {:induction false} MassPermutes(xs: seq<Item>, ys: seq<Item>)
    requires multiset(xs) == multiset(ys)
    ensures Mass(xs) == Mass(ys)
    decreases |xs|
  {
    assert |xs| == |multiset(xs)| == |multiset(ys)| == |ys|;
    if xs != [] {
      var n := |xs| - 1;
      var before, after := Removal(xs, ys);
      MassPermutes(xs[..n], before + after);
      MassConcat(before, after);
      MassConcat(before + [xs[n]], after);
      MassConcat(before, [xs[n]]);
    }
  }

  predicate Enough(mass: real, topP: real) {
    mass >= topP && mass > 0.0
  }

  /** `n` is where the walk down `order` stops: at the first prefix that has enough mass, or at the end. */
  ghost predicate StopsAt(order: seq<Item>, topP: real, n: nat) {
    && n <= |order|
    && (n < |order| ==> Enough(Mass(order[..n]), topP))
    && forall m | 0 <= m < n :: !Enough(Mass(order[..m]), topP)
  }

  predicate Among(kept: seq<Item>, i: nat) {
    exists k | 0 <= k < |kept| :: kept[k].index == i
  }

  function Scaled(x: real, sum: real): real {
    if sum > 0.0 then x / sum else x
  }

  /** `q` is `p` restricted to `kept` and renormalized. */
  ghost predicate Restricted(p: Probs, q: Probs, kept: seq<Item>) {
    && |q| == |p|
    && forall i | 0 <= i < |p| :: q[i] == if Among(kept, i) then Scaled(p[i], Mass(kept)) else 0.0
  }

  /** What the full sort promises: the smallest prefix of some descending order of the vocabulary that carries `topP`.
      */
  ghost predicate Nucleus(p: Probs, q: Probs, topP: real) {
    exists order, n | FullOrder(p, order) && StopsAt(order, topP, n) :: Restricted(p, q, order[..n])
  }

  method Renormalize(probs: array<real>, sum: real)
    modifies probs
    ensures forall i | 0 <= i < probs.Length :: probs[i] == Scaled(old(probs[i]), sum)
  {
    if sum > 0.0 {
      for i := 0 to probs.Length
        invariant forall j | 0 <= j < probs.Length ::
          probs[j] == if j < i then Scaled(old(probs[j]), sum) else old(probs[j])
      {
        probs[i] := probs[i] / sum;
      }
    }
  }

  lemma {:induction false} MassGrows(xs: seq<Item>, n: nat)
    requires n < |xs|
    ensures Mass(xs[..n + 1]) == Mass(xs[..n]) + xs[n].prob
  {
    assert xs[..n + 1][..n] == xs[..n];
  }

  /** How many to keep. */
  method KeepCount(sorted: seq<Item>, topP: real) returns (keep: nat)
    ensures StopsAt(sorted, topP, keep)
  {
    var cumulative := 0.0;
    keep := 0;
    while keep < |sorted| && !(cumulative >= topP && cumulative > 0.0)
      invariant 0 <= keep <= |sorted| && cumulative == Mass(sorted[..keep])
      invariant forall m | 0 <= m < keep :: !Enough(Mass(sorted[..m]), topP)
    {
      MassGrows(sorted, keep);
      cumulative := cumulative + sorted[keep].prob;
      keep := keep + 1;
    }
  }

  method KeepTopPPrefix(probs: array<real>, sorted: seq<Item>, topP: real) returns (ghost n: nat)
    requires Drawn(probs[..], sorted)
    modifies probs
    ensures StopsAt(sorted, topP, n)
    ensures Restricted(old(probs[..]), probs[..], sorted[..n])
  {
    hide Mass, StopsAt, Among;
    var keep := KeepCount(sorted, topP);
    n := keep;
    Bounds(sorted, topP, n);
    for i := 0 to probs.Length
      invariant forall j | 0 <= j < i :: probs[j] == 0.0
    {
      probs[i] := 0.0;
    }
    var sum := 0.0;
    ghost var p := old(probs[..]);
    NothingKept(sorted);
    for k := 0 to keep
      invariant sum == Mass(sorted[..k])
      invariant forall j | 0 <= j < probs.Length :: probs[j] == if Among(sorted[..k], j) then p[j] else 0.0
    {
      AmongGrows(sorted, k);
      MassGrows(sorted, k);
      probs[sorted[k].index] := sorted[k].prob;
      sum := sum + sorted[k].prob;
    }
    Renormalize(probs, sum);
    RestrictedFacts(p, probs[..], sorted[..n]);
  }

  lemma {:induction false} Bounds(sorted: seq<Item>, topP: real, n: nat)
    requires StopsAt(sorted, topP, n)
    ensures n <= |sorted|
  {
  }

  lemma {:induction false} NothingKept(sorted: seq<Item>)
    ensures Mass(sorted[..0]) == 0.0 && forall i: nat :: !Among(sorted[..0], i)
  {
  }

  lemma {:induction false} RestrictedFacts(p: Probs, q: Probs, kept: seq<Item>)
    requires |q| == |p|
    requires forall i | 0 <= i < |p| :: q[i] == Scaled(if Among(kept, i) then p[i] else 0.0, Mass(kept))
    ensures Restricted(p, q, kept)
  {
  }

  lemma {:induction false} AmongGrows(xs: seq<Item>, k: nat)
    requires k < |xs|
    ensures forall i: nat :: Among(xs[..k + 1], i) <==> Among(xs[..k], i) || i == xs[k].index
  {
    forall i: nat
      ensures Among(xs[..k + 1], i) <==> Among(xs[..k], i) || i == xs[k].index
    {
      if Among(xs[..k], i) {
        var j :| 0 <= j < k && xs[..k][j].index == i;
        assert xs[..k + 1][j].index == i;
      }
      if Among(xs[..k + 1], i) {
        var j :| 0 <= j < k + 1 && xs[..k + 1][j].index == i;
        if j < k {
          assert xs[..k][j].index == i;
        }
      }
      if i == xs[k].index {
        assert xs[..k + 1][k].index == i;
      }
    }
  }

  /** Each item of the vocabulary occurs once. */
  lemma {:induction false} ItemsOnce(p: Probs, n: nat, x: Item)
    requires n <= |p|
    ensures multiset(Items(p, n))[x] == if x.index < n && x.prob == p[x.index] then 1 else 0
  {
    if n > 0 {
      ItemsOnce(p, n - 1, x);
    }
  }

  lemma {:induction false} OccursTwice<T>(xs: seq<T>, j: nat, k: nat)
    requires j < k < |xs| && xs[j] == xs[k]
    ensures multiset(xs)[xs[j]] >= 2
  {
    assert xs == xs[..k] + xs[k..];
    assert xs[j] in xs[..k] && xs[k] in xs[k..];
  }

  lemma {:induction false} WithinIsDrawn(p: Probs, xs: seq<Item>)
    requires multiset(xs) <= multiset(Items(p, |p|))
    ensures Drawn(p, xs)
  {
    forall k | 0 <= k < |xs|
      ensures xs[k].index < |p| && xs[k].prob == p[xs[k].index]
    {
      assert xs[k] in multiset(xs);
      ItemsOnce(p, |p|, xs[k]);
    }
    forall j, k | 0 <= j < k < |xs|
      ensures xs[j].index != xs[k].index
    {
      ItemsOnce(p, |p|, xs[j]);
      if xs[j] == xs[k] {
        OccursTwice(xs, j, k);
      }
    }
  }

  lemma {:induction false} SortedConcat<T>(key: T -> real, xs: seq<T>, ys: seq<T>)
    requires SortedBy(key, xs) && SortedBy(key, ys)
    requires forall x, y | x in xs && y in ys :: key(x) <= key(y)
    ensures SortedBy(key, xs + ys)
  {
    forall i, j | 0 <= i < j < |xs + ys|
      ensures key((xs + ys)[i]) <= key((xs + ys)[j])
    {
      if i < |xs| <= j {
        assert xs[i] in xs && ys[j - |xs|] in ys;
      }
    }
  }

  /** A walk that stops with enough stops there whatever follows. */
  lemma {:induction false} StopsInPrefix(sorted: seq<Item>, rest: seq<Item>, topP: real, n: nat)
    requires StopsAt(sorted, topP, n) && (rest == [] || Enough(Mass(sorted), topP))
    ensures StopsAt(sorted + rest, topP, n) && (sorted + rest)[..n] == sorted[..n]
  {
    assert sorted[..|sorted|] == sorted;
    forall m | 0 <= m <= |sorted|
      ensures (sorted + rest)[..m] == sorted[..m]
    {
    }
  }

  /** Keeping from the sorted candidates alone is keeping from a full order, once they carry the mass. */
  lemma {:induction false} FastPathIsFull(p: Probs, sorted: seq<Item>, others: seq<Item>, topP: real, n: nat)
    requires SortedBy(Descending(), sorted) && StopsAt(sorted, topP, n)
    requires Parted(p, |p|, sorted, others)
    requires forall x, y | x in multiset(sorted) && y in others :: y.prob <= x.prob
    requires others == [] || Enough(Mass(sorted), topP)
    ensures exists order :: FullOrder(p, order) && StopsAt(order, topP, n) && order[..n] == sorted[..n]
  {
    hide Mass, StopsAt, SortedBy;
    var rest := Sort(Descending(), others);
    SortSorts(Descending(), others);
    forall x, y | x in sorted && y in rest
      ensures Descending()(x) <= Descending()(y)
    {
      assert x in multiset(sorted) && y in multiset(rest);
    }
    SortedConcat(Descending(), sorted, rest);
    StopsInPrefix(sorted, rest, topP, n);
    assert FullOrder(p, sorted + rest);
  }

  method Best(probs: array<real>) returns (best: real)
    requires NonNegative(probs[..])
    ensures best >= 0.0 && forall j | 0 <= j < probs.Length :: probs[j] <= best
    ensures best > 0.0 ==> best in probs[..]
  {
    best := 0.0;
    for i := 0 to probs.Length
      invariant best >= 0.0 && forall j | 0 <= j < i :: probs[j] <= best
      invariant best > 0.0 ==> best in probs[..i]
    {
      best := if probs[i] > best then probs[i] else best;
    }
    assert probs[..] == probs[..probs.Length];
  }

  /** The first `n` tokens are dealt to two sides. */
  ghost predicate Parted(p: Probs, n: nat, a: seq<Item>, b: seq<Item>)
    requires n <= |p|
  {
    multiset(a) + multiset(b) == multiset(Items(p, n))
  }

  lemma {:induction false} PartNone(p: Probs)
    ensures Parted(p, 0, [], []) && Mass([]) == 0.0
  {
  }

  lemma {:induction false} PartOne(p: Probs, i: nat, a: seq<Item>, b: seq<Item>, x: Item)
    requires i < |p| && Parted(p, i, a, b) && x == Item(i, p[i])
    ensures Parted(p, i + 1, a + [x], b) && Parted(p, i + 1, a, b + [x])
    ensures Mass(a + [x]) == Mass(a) + x.prob
  {
    MassConcat(a, [x]);
  }

  method Candidates(p: Probs, threshold: real) returns (indexed: seq<Item>, mass: real, ghost others: seq<Item>)
    requires NonNegative(p)
    ensures mass == Mass(indexed)
    ensures Parted(p, |p|, indexed, others)
    ensures forall k | 0 <= k < |indexed| :: indexed[k].prob >= threshold
    ensures forall k | 0 <= k < |others| :: others[k].prob < threshold
    ensures forall j | 0 <= j < |p| && p[j] >= threshold :: mass >= p[j]
  {
    hide Mass, Parted;
    indexed, mass, others := [], 0.0, [];
    PartNone(p);
    for i := 0 to |p|
      invariant mass == Mass(indexed) && mass >= 0.0
      invariant Parted(p, i, indexed, others)
      invariant forall k | 0 <= k < |indexed| :: indexed[k].prob >= threshold
      invariant forall k | 0 <= k < |others| :: others[k].prob < threshold
      invariant forall j | 0 <= j < i && p[j] >= threshold :: mass >= p[j]
    {
      var x := Item(i, p[i]);
      PartOne(p, i, indexed, others, x);
      if x.prob >= threshold {
        indexed := indexed + [x];
        mass := mass + x.prob;
      } else {
        others := others + [x];
      }
    }
  }

  method Everything(probs: array<real>) returns (indexed: seq<Item>)
    ensures indexed == Items(probs[..], probs.Length)
  {
    indexed := [];
    for i := 0 to probs.Length
      invariant indexed == Items(probs[..], i)
    {
      indexed := indexed + [Item(i, probs[i])];
    }
  }

  lemma {:induction false} OtherIsAProbability(p: Probs, indexed: seq<Item>, others: seq<Item>)
    requires NonNegative(p) && others != []
    requires Parted(p, |p|, indexed, others)
    ensures others[0] in others && others[0].prob >= 0.0
  {
    assert others[0] in multiset(others);
    ItemsOnce(p, |p|, others[0]);
  }

  /** Nucleus filtering. The candidates within a factor of ten thousand of the best are sorted alone when they carry the
      mass; either way the outcome is one the full sort may give. */
  method ApplyTopP(probs: array<real>, topP: real)
    requires NonNegative(probs[..])
    modifies probs
    ensures Nucleus(old(probs[..]), probs[..], topP)
  {
    hide Mass, StopsAt, SortedBy, Restricted;
    ghost var p := probs[..];
    var best := Best(probs);
    var threshold := best * 0.0001;
    var indexed, mass, others := Candidates(probs[..], threshold);
    var fastHit := mass >= topP;
    if !fastHit {
      indexed := Everything(probs);
      others := [];
    }
    SortSorts(Descending(), indexed);
    var sorted := Sort(Descending(), indexed);
    WithinIsDrawn(p, sorted);
    MassPermutes(sorted, indexed);
    if others != [] {
      OtherIsAProbability(p, indexed, others);
      assert best in p && mass >= best;
    }
    ghost var n := KeepTopPPrefix(probs, sorted, topP);
    FastPathIsFull(p, sorted, others, topP, n);
  }

  /** What a nucleus keeps does not depend on how ties were ordered, except for which of the tied tokens it names: the
      kept probabilities are the same, and with distinct probabilities the tokens are the same. */
  lemma {:induction false} TiesDoNotMatter(p: Probs, topP: real, a: seq<Item>, m: nat, b: seq<Item>, n: nat)
    requires FullOrder(p, a) && StopsAt(a, topP, m) && FullOrder(p, b) && StopsAt(b, topP, n)
    ensures m == n && |a| == |b| == |p|
    ensures forall k | 0 <= k < n :: a[k].prob == b[k].prob
    ensures (forall i, j | 0 <= i < j < |p| :: p[i] != p[j]) ==> a[..n] == b[..n]
  {
    assert |a| == |multiset(a)| == |multiset(b)| == |b|;
    assert |a| == |multiset(Items(p, |p|))| == |p|;
    forall k | 0 <= k < |a|
      ensures a[k].prob == b[k].prob
    {
      SameKeys(Descending(), a, b, k);
      assert Descending()(a[k]) == -a[k].prob && Descending()(b[k]) == -b[k].prob;
    }
    forall k | 0 <= k <= |a|
      ensures Mass(a[..k]) == Mass(b[..k])
    {
      SameMass(a, b, k);
    }
    WithinIsDrawn(p, a);
    WithinIsDrawn(p, b);
  }

  lemma {:induction false} SameMass(a: seq<Item>, b: seq<Item>, k: nat)
    requires k <= |a| == |b| && forall j | 0 <= j < k :: a[j].prob == b[j].prob
    ensures Mass(a[..k]) == Mass(b[..k])
  {
    if k > 0 {
      SameMass(a, b, k - 1);
      MassGrows(a, k - 1);
      MassGrows(b, k - 1);
    }
  }

  /** A nucleus keeps nothing less likely than what it drops, and is a distribution again. */
  lemma {:induction false} NucleusKeepsTheBest(p: Probs, q: Probs, topP: real, i: nat, j: nat)
    requires NonNegative(p) && Nucleus(p, q, topP) && i < |p| && j < |p|
    requires q[i] > 0.0 && q[j] == 0.0
    ensures p[i] >= p[j]
  {
    var order, n :| FullOrder(p, order) && StopsAt(order, topP, n) && Restricted(p, q, order[..n]);
    hide StopsAt, FullOrder;
    ScaledSign(p[j], Mass(order[..n]));
    if !Among(order[..n], j) {
      KeptBeatsDropped(p, order, n, i, j);
    }
  }

  lemma {:induction false} ScaledSign(x: real, sum: real)
    requires x >= 0.0
    ensures Scaled(x, sum) >= 0.0 && (Scaled(x, sum) == 0.0 <==> x == 0.0)
  {
    if sum > 0.0 && x > 0.0 {
      assert x == x / sum * sum;
    }
  }

  lemma {:induction false} KeptBeatsDropped(p: Probs, order: seq<Item>, n: nat, i: nat, j: nat)
    requires FullOrder(p, order) && n <= |order| && i < |p| && j < |p|
    requires Among(order[..n], i) && !Among(order[..n], j)
    ensures p[i] >= p[j]
  {
    var k :| 0 <= k < n && order[..n][k].index == i;
    WithinIsDrawn(p, order);
    ItemsOnce(p, |p|, Item(j, p[j]));
    assert Item(j, p[j]) in multiset(order);
    var l :| 0 <= l < |order| && order[l] == Item(j, p[j]);
    KeptIsAmong(order, n, l);
    assert Descending()(order[k]) <= Descending()(order[l]);
  }

  lemma {:induction false} KeptIsAmong(order: seq<Item>, n: nat, l: nat)
    requires n <= |order| && l < |order|
    ensures l < n ==> Among(order[..n], order[l].index)
  {
    if l < n {
      assert order[..n][l].index == order[l].index;
    }
  }

  // ----- the k most probable tokens

  function Above(t: real): real -> bool {
    (x: real) => x > t
  }

  function AtLeast(t: real): real -> bool {
    (x: real) => x >= t
  }

  function At(t: real): real -> bool {
    (x: real) => x == t
  }

  function Negated(): real -> real {
    (x: real) => -x
  }

  function Min(a: nat, b: nat): nat {
    if a <= b then a else b
  }

  /** `q` keeps `k` tokens of `p`, or all that are possible, none less likely than one dropped. */
  ghost predicate TopK(p: Probs, q: Probs, k: nat) {
    && |q| == |p|
    && Count(Above(0.0), q) == Min(k, Count(Above(0.0), p))
    && (forall i, j | 0 <= i < |p| && 0 <= j < |p| && q[i] > 0.0 && q[j] == 0.0 :: p[i] >= p[j])
    && exists kept :: Masks(p, kept) && forall i | 0 <= i < |p| :: q[i] == Scaled(kept[i], Total(kept))
  }

  predicate Masks(p: Probs, q: Probs) {
    |q| == |p| && forall i | 0 <= i < |p| :: q[i] == p[i] || q[i] == 0.0
  }

  /** The (k+1)-th largest probability: at most `k` are above it, more than `k` reach it. */
  lemma {:induction false} Selection(p: Probs, k: nat)
    requires k < |p|
    ensures var t := Sort(Negated(), p)[k]; t in p && Count(Above(t), p) <= k < Count(AtLeast(t), p)
  {
    var scratch := Sort(Negated(), p);
    SortSorts(Negated(), p);
    assert scratch[k] in multiset(scratch);
    var t := scratch[k];
    forall i | 0 <= i < |p|
      ensures i <= k ==> scratch[i] >= t
      ensures i >= k ==> scratch[i] <= t
    {
      assert i < k ==> Negated()(scratch[i]) <= Negated()(scratch[k]);
      assert i > k ==> Negated()(scratch[k]) <= Negated()(scratch[i]);
    }
    CountPermutes(Above(t), scratch, p);
    CountPermutes(AtLeast(t), scratch, p);
    CountSplits(Above(t), scratch, k);
    CountSplits(AtLeast(t), scratch, k + 1);
  }

  /** What reaches a threshold is above it or at it. */
  lemma {:induction false} CountTies(p: Probs, t: real)
    ensures Count(AtLeast(t), p) == Count(Above(t), p) + Count(At(t), p)
  {
    if p != [] {
      CountTies(p[..|p| - 1], t);
    }
  }

  lemma {:induction false} CountMonotone(p: Probs, f: real -> bool, g: real -> bool)
    requires forall i | 0 <= i < |p| && f(p[i]) :: g(p[i])
    ensures Count(f, p) <= Count(g, p)
  {
    if p != [] {
      CountMonotone(p[..|p| - 1], f, g);
    }
  }

  method CountAbove(p: Probs, t: real) returns (n: nat)
    ensures n == Count(Above(t), p)
  {
    n := 0;
    for i := 0 to |p|
      invariant n == Count(Above(t), p[..i])
    {
      CountGrows(Above(t), p[..i], p[i]);
      assert p[..i + 1] == p[..i] + [p[i]];
      n := if p[i] > t then n + 1 else n;
    }
    assert p[..|p|] == p;
  }

  /** The tokens at the threshold, in token order. */
  method Ties(p: Probs, t: real) returns (tied: seq<nat>)
    requires t > 0.0
    ensures |tied| == Count(At(t), p)
    ensures forall k | 0 <= k < |tied| :: tied[k] < |p| && p[tied[k]] == t
    ensures Ascending(tied)
  {
    tied := [];
    for i := 0 to |p|
      invariant |tied| == Count(At(t), p[..i])
      invariant forall k | 0 <= k < |tied| :: tied[k] < i && p[tied[k]] == t
      invariant Ascending(tied)
    {
      CountGrows(At(t), p[..i], p[i]);
      assert p[..i + 1] == p[..i] + [p[i]];
      if p[i] == t && p[i] > 0.0 {
        tied := tied + [i];
      }
    }
    assert p[..|p|] == p;
  }

  /** Zeroes what is not above the threshold; `sum` is what is left. */
  method KeepAbove(probs: array<real>, threshold: real) returns (sum: real)
    modifies probs
    ensures forall i | 0 <= i < probs.Length :: probs[i] == if old(probs[i]) > threshold then old(probs[i]) else 0.0
    ensures sum == Total(probs[..])
  {
    sum := 0.0;
    for i := 0 to probs.Length
      invariant forall j | 0 <= j < probs.Length ::
          probs[j] == if j < i && !(old(probs[j]) > threshold) then 0.0 else old(probs[j])
      invariant sum == Total(probs[..i])
    {
      TotalGrows(probs[..i], if probs[i] > threshold then probs[i] else 0.0);
      ghost var before := probs[..i];
      if probs[i] > threshold {
        sum := sum + probs[i];
      } else {
        probs[i] := 0.0;
      }
      assert probs[..i + 1] == before + [probs[i]];
    }
    assert probs[..] == probs[..probs.Length];
  }

  predicate Ascending(tied: seq<nat>) {
    forall j, k | 0 <= j < k < |tied| :: tied[j] < tied[k]
  }

  /** The cursor separates what lies before `i`. */
  predicate CursorAt(tied: seq<nat>, cursor: nat, i: nat) {
    cursor <= |tied| && forall k | 0 <= k < |tied| :: tied[k] < i <==> k < cursor
  }

  lemma {:induction false} CursorMoves(tied: seq<nat>, cursor: nat, i: nat)
    requires Ascending(tied) && CursorAt(tied, cursor, i)
    ensures i in tied <==> cursor < |tied| && tied[cursor] == i
    ensures CursorAt(tied, if i in tied then cursor + 1 else cursor, i + 1)
  {
    if i in tied {
      var k :| 0 <= k < |tied| && tied[k] == i;
      assert !(tied[cursor] < i);
    }
  }

  /** The merge pass: above the threshold, or next in the ascending list of chosen ties. */
  method KeepAboveAnd(probs: array<real>, threshold: real, tied: seq<nat>) returns (sum: real)
    requires forall k | 0 <= k < |tied| :: tied[k] < probs.Length && probs[tied[k]] == threshold
    requires Ascending(tied) && threshold > 0.0
    modifies probs
    ensures forall i | 0 <= i < probs.Length ::
        probs[i] == if old(probs[i]) > threshold || i in tied then old(probs[i]) else 0.0
    ensures sum == Total(probs[..])
    ensures Count(Above(0.0), probs[..]) == Count(Above(threshold), old(probs[..])) + |tied|
  {
    hide Count, Total, Ascending, CursorAt;
    sum := 0.0;
    var cursor := 0;
    ghost var p := probs[..];
    MergeStarts(p, tied, threshold);
    for i := 0 to probs.Length
      invariant CursorAt(tied, cursor, i)
      invariant forall j | i <= j < probs.Length :: probs[j] == p[j]
      invariant forall j | 0 <= j < i :: probs[j] == if p[j] > threshold || j in tied then p[j] else 0.0
      invariant sum == Total(probs[..i])
      invariant Count(Above(0.0), probs[..i]) == Count(Above(threshold), p[..i]) + cursor
    {
      ghost var before := probs[..i];
      CursorMoves(tied, cursor, i);
      if probs[i] > threshold {
        assert i !in tied;
        sum := sum + probs[i];
      } else if cursor < |tied| && tied[cursor] == i {
        cursor := cursor + 1;
        sum := sum + probs[i];
      } else {
        probs[i] := 0.0;
      }
      Longer(p[..i], p[i], threshold);
      Longer(before, probs[i], 0.0);
      assert probs[..i + 1] == before + [probs[i]] && p[..i + 1] == p[..i] + [p[i]];
    }
    assert probs[..] == probs[..probs.Length] && p[..probs.Length] == p;
    AllPassed(tied, cursor, probs.Length);
  }

  lemma {:induction false} MergeStarts(p: Probs, tied: seq<nat>, threshold: real)
    ensures CursorAt(tied, 0, 0) && Total(p[..0]) == 0.0
    ensures Count(Above(0.0), p[..0]) == Count(Above(threshold), p[..0]) == 0
  {
  }

  lemma {:induction false} Longer(p: Probs, x: real, t: real)
    ensures Total(p + [x]) == Total(p) + x
    ensures Count(Above(t), p + [x]) == Count(Above(t), p) + if x > t then 1 else 0
  {
    TotalGrows(p, x);
    CountGrows(Above(t), p, x);
  }

  lemma {:induction false} AllPassed(tied: seq<nat>, cursor: nat, n: nat)
    requires CursorAt(tied, cursor, n) && forall k | 0 <= k < |tied| :: tied[k] < n
    ensures cursor == |tied|
  {
    if tied != [] {
      assert tied[|tied| - 1] < n;
    }
  }

  function ByRank(rank: nat -> real): nat -> real {
    (i: nat) => -rank(i)
  }

  function ByIndex(): nat -> real {
    (i: nat) => i as real
  }

  /** Some of an ascending list, sorted, is ascending again. */
  lemma {:induction false} SortedAgain(tied: seq<nat>, some: seq<nat>)
    requires Ascending(tied) && multiset(some) <= multiset(tied)
    ensures Ascending(Sort(ByIndex(), some))
    ensures forall x | x in Sort(ByIndex(), some) :: x in tied
  {
    hide Ascending, Sort;
    var chosen := Sort(ByIndex(), some);
    SortSorts(ByIndex(), some);
    forall j, k | 0 <= j < k < |chosen|
      ensures chosen[j] < chosen[k]
    {
      assert ByIndex()(chosen[j]) <= ByIndex()(chosen[k]);
      AscendingOnce(tied, chosen[j]);
      if chosen[j] == chosen[k] {
        OccursTwice(chosen, j, k);
      }
    }
    IsAscending(chosen);
    forall x | x in chosen
      ensures x in tied
    {
      assert x in multiset(chosen);
    }
  }

  lemma {:induction false} IsAscending(tied: seq<nat>)
    requires forall j, k | 0 <= j < k < |tied| :: tied[j] < tied[k]
    ensures Ascending(tied)
  {
  }

  /** Whatever the shuffle, `need` of the ties are chosen, and sorted back into token order. */
  lemma {:induction false} ChosenTies(tied: seq<nat>, need: nat, rank: nat -> real)
    requires Ascending(tied) && need <= |tied|
    ensures var chosen := Sort(ByIndex(), Sort(ByRank(rank), tied)[..need]);
      |chosen| == need && Ascending(chosen) && forall x | x in chosen :: x in tied
  {
    hide Ascending;
    var shuffled := Sort(ByRank(rank), tied);
    assert shuffled == shuffled[..need] + shuffled[need..];
    assert multiset(shuffled[..need]) <= multiset(tied);
    SortedAgain(tied, shuffled[..need]);
  }

  lemma {:induction false} AscendingOnce(tied: seq<nat>, x: nat)
    requires Ascending(tied)
    ensures multiset(tied)[x] <= 1
  {
    if tied != [] {
      var n := |tied| - 1;
      assert tied == tied[..n] + [tied[n]];
      AscendingOnce(tied[..n], x);
      if tied[n] == x {
        assert x !in tied[..n];
      }
    }
  }

  lemma {:induction false} CountPointwise(f: real -> bool, p: Probs, g: real -> bool, q: Probs)
    requires |p| == |q| && forall i | 0 <= i < |p| :: f(p[i]) == g(q[i])
    ensures Count(f, p) == Count(g, q)
  {
    if p != [] {
      CountPointwise(f, p[..|p| - 1], g, q[..|q| - 1]);
    }
  }

  /** A mask that keeps `n` tokens: all above the threshold, and else only some at it. */
  predicate MaskAround(p: Probs, kept: Probs, t: real, n: nat) {
    && Masks(p, kept)
    && (forall i | 0 <= i < |p| :: kept[i] > 0.0 ==> p[i] >= t)
    && (forall i | 0 <= i < |p| :: p[i] > t ==> kept[i] == p[i])
    && Count(Above(0.0), kept) == n
  }

  /** A mask around a threshold that keeps the right number is a top-k filter once renormalized. */
  lemma {:induction false} MaskIsTopK(p: Probs, kept: Probs, q: Probs, t: real, k: nat)
    requires NonNegative(p) && |q| == |p|
    requires MaskAround(p, kept, t, Min(k, Count(Above(0.0), p)))
    requires forall i | 0 <= i < |p| :: q[i] == Scaled(kept[i], Total(kept))
    ensures TopK(p, q, k)
  {
    forall i | 0 <= i < |p|
      ensures q[i] > 0.0 <==> kept[i] > 0.0
      ensures q[i] >= 0.0
    {
      ScaledSign(kept[i], Total(kept));
    }
    CountPointwise(Above(0.0), kept, Above(0.0), q);
  }

  /** The positive tokens include those above a threshold, and those that reach it when it is positive. */
  lemma {:induction false} Positives(p: Probs, t: real)
    requires t >= 0.0
    ensures Count(AtLeast(t), p) == Count(Above(t), p) + Count(At(t), p)
    ensures Count(Above(t), p) <= Count(Above(0.0), p)
    ensures t > 0.0 ==> Count(AtLeast(t), p) <= Count(Above(0.0), p)
  {
    CountTies(p, t);
    CountMonotone(p, Above(t), Above(0.0));
    if t > 0.0 {
      CountMonotone(p, AtLeast(t), Above(0.0));
    }
  }

  method KeepStrictlyAbove(probs: array<real>, threshold: real) returns (sum: real)
    requires NonNegative(probs[..]) && threshold >= 0.0
    modifies probs
    ensures MaskAround(old(probs[..]), probs[..], threshold, Count(Above(threshold), old(probs[..])))
    ensures sum == Total(probs[..])
  {
    hide Count, Total;
    ghost var p := probs[..];
    sum := KeepAbove(probs, threshold);
    CountPointwise(Above(threshold), p, Above(0.0), probs[..]);
  }

  method KeepWithTies(probs: array<real>, threshold: real, needTies: nat, rank: nat -> real) returns (sum: real)
    requires NonNegative(probs[..]) && threshold > 0.0
    requires needTies < Count(At(threshold), probs[..])
    modifies probs
    ensures MaskAround(old(probs[..]), probs[..], threshold, Count(Above(threshold), old(probs[..])) + needTies)
    ensures sum == Total(probs[..])
  {
    hide *;
    ghost var p := probs[..];
    var tied := Ties(probs[..], threshold);
    if |tied| <= needTies {
      assert false;
    }
    ChosenTies(tied, needTies, rank);
    var chosen := Sort(ByIndex(), Sort(ByRank(rank), tied)[..needTies]);
    AtThreshold(p, threshold, tied, chosen);
    sum := KeepAboveAnd(probs, threshold, chosen);
    MergedIsMask(p, probs[..], threshold, chosen);
  }

  lemma {:induction false} AtThreshold(p: Probs, t: real, tied: seq<nat>, chosen: seq<nat>)
    requires forall k | 0 <= k < |tied| :: tied[k] < |p| && p[tied[k]] == t
    requires forall x | x in chosen :: x in tied
    ensures forall k | 0 <= k < |chosen| :: chosen[k] < |p| && p[chosen[k]] == t
  {
    forall k | 0 <= k < |chosen|
      ensures chosen[k] < |p| && p[chosen[k]] == t
    {
      assert chosen[k] in tied;
    }
  }

  lemma {:induction false} MergedIsMask(p: Probs, kept: Probs, t: real, chosen: seq<nat>)
    requires |kept| == |p| && t > 0.0
    requires forall k | 0 <= k < |chosen| :: chosen[k] < |p| && p[chosen[k]] == t
    requires forall i | 0 <= i < |p| :: kept[i] == if p[i] > t || i in chosen then p[i] else 0.0
    ensures MaskAround(p, kept, t, Count(Above(0.0), kept))
  {
  }

  /** Keeps the `k` most probable tokens; `rank` is the seeded shuffle that decides between ties. */
  method ApplyTopK(probs: array<real>, k: nat, rank: nat -> real)
    requires NonNegative(probs[..])
    modifies probs
    ensures k >= probs.Length ==> probs[..] == old(probs[..])
    ensures k < probs.Length ==> TopK(old(probs[..]), probs[..], k)
  {
    hide Count, Total, TopK, MaskAround;
    if k >= probs.Length {
      return;
    }
    ghost var p := probs[..];
    var scratch := Sort(Negated(), probs[..]);
    Selection(p, k);
    var threshold := scratch[k];
    var countStrict := CountAbove(probs[..], threshold);
    var needTies := if k >= countStrict then k - countStrict else 0;
    Positives(p, threshold);
    var sum: real;
    if needTies == 0 || threshold == 0.0 {
      sum := KeepStrictlyAbove(probs, threshold);
    } else {
      sum := KeepWithTies(probs, threshold, needTies, rank);
    }
    ghost var kept := probs[..];
    Renormalize(probs, sum);
    MaskIsTopK(p, kept, probs[..], threshold, k);
  }

  // ----- drawing

  lemma {:induction false} TotalOfPrefixes(p: Probs, m: nat, n: nat)
    requires NonNegative(p) && m <= n <= |p|
    ensures Total(p[..m]) <= Total(p[..n])
  {
    if m < n {
      TotalOfPrefixes(p, m, n - 1);
      assert p[..n][..n - 1] == p[..n - 1];
    }
  }

  /** Inverse-CDF sampling with the uniform draw `r`: the token whose stretch of the cumulative distribution holds `r`,
      or the last possible token when the total falls short of `r`; never an impossible token. */
  method CategoricalSample(p: Probs, r: real) returns (token: Option<nat>)
    requires NonNegative(p) && 0.0 <= r < 1.0
    ensures token.None? <==> forall i | 0 <= i < |p| :: p[i] == 0.0
    ensures token.Some? ==> token.value < |p| && p[token.value] > 0.0
    ensures token.Some? && r < Total(p) ==> Total(p[..token.value]) <= r < Total(p[..token.value + 1])
    ensures token.Some? && r >= Total(p) ==> forall j | token.value < j < |p| :: p[j] == 0.0
  {
    var cumulative := 0.0;
    assert p[..|p|] == p;
    for i := 0 to |p|
      invariant cumulative == Total(p[..i]) && cumulative <= r
    {
      assert p[..i + 1][..i] == p[..i];
      cumulative := cumulative + p[i];
      if r < cumulative {
        TotalOfPrefixes(p, i + 1, |p|);
        return Some(i);
      }
    }
    for i := |p| downto 0
      invariant forall j | i <= j < |p| :: p[j] == 0.0
    {
      if p[i] > 0.0 {
        return Some(i);
      }
    }
    return None;
  }

  // ----- the repetition penalty

  function Power(x: real, n: nat): real {
    if n == 0 then 1.0 else Power(x, n - 1) * x
  }

  lemma {:induction false} PowerIsPositive(x: real, n: nat)
    requires x > 0.0
    ensures Power(x, n) > 0.0
  {
    if n > 0 {
      PowerIsPositive(x, n - 1);
    }
  }

  /** A logit pushed away from being chosen by `factor`. */
  function Penalized(l: real, factor: real): real
    requires factor > 0.0
  {
    if l > 0.0 then l / factor else l * factor
  }

  lemma {:induction false} PenalizedAgain(l: real, penalty: real, n: nat)
    requires penalty > 0.0
    ensures Power(penalty, n) > 0.0 && Power(penalty, n + 1) > 0.0
    ensures Penalized(Penalized(l, Power(penalty, n)), penalty) == Penalized(l, Power(penalty, n + 1))
  {
    PowerIsPositive(penalty, n);
    PowerIsPositive(penalty, n + 1);
    var a := Power(penalty, n);
    if l > 0.0 {
      DividesTwice(l, a, penalty);
    } else {
      assert l * a <= 0.0;
      assert l * a * penalty == l * (a * penalty);
    }
  }

  lemma {:induction false} DividesTwice(l: real, a: real, b: real)
    requires l > 0.0 && a > 0.0 && b > 0.0
    ensures l / a > 0.0 && a * b > 0.0 && l / a / b == l / (a * b)
  {
    var x := l / a;
    assert x * a == l;
    assert x > 0.0;
    var y := x / b;
    assert y * b == x;
    assert y * (a * b) == y * b * a;
  }

  function Is(i: nat): nat -> bool {
    (t: nat) => t == i
  }

  /** `m` is the logit `l` of a token seen `n` times. */
  predicate PenalizedBy(l: real, m: real, penalty: real, n: nat) {
    Power(penalty, n) > 0.0 && m == Penalized(l, Power(penalty, n))
  }

  /** One division per occurrence. */
  method RepetitionPenalty(logits: array<real>, prev: seq<nat>, penalty: real)
    requires penalty > 0.0
    modifies logits
    ensures forall i | 0 <= i < logits.Length :: PenalizedBy(old(logits[i]), logits[i], penalty, Count(Is(i), prev))
  {
    hide Power, Count, Penalized, PenalizedBy;
    forall i | 0 <= i < logits.Length
      ensures PenalizedBy(logits[i], logits[i], penalty, Count(Is(i), prev[..0]))
    {
      NoneSeen(logits[i], penalty, i, prev);
    }
    for k := 0 to |prev|
      invariant forall i | 0 <= i < logits.Length ::
        PenalizedBy(old(logits[i]), logits[i], penalty, Count(Is(i), prev[..k]))
    {
      ghost var before := logits[..];
      var idx := prev[k];
      if idx < logits.Length {
        logits[idx] := Penalized(logits[idx], penalty);
      }
      forall i | 0 <= i < logits.Length
        ensures PenalizedBy(old(logits[i]), logits[i], penalty, Count(Is(i), prev[..k + 1]))
      {
        SeenOnceMore(old(logits[i]), before[i], penalty, i, prev, k);
      }
    }
    assert prev[..|prev|] == prev;
  }

  lemma {:induction false} NoneSeen(l: real, penalty: real, i: nat, prev: seq<nat>)
    ensures PenalizedBy(l, l, penalty, Count(Is(i), prev[..0]))
  {
  }

  lemma {:induction false} SeenOnceMore(l: real, m: real, penalty: real, i: nat, prev: seq<nat>, k: nat)
    requires penalty > 0.0 && k < |prev| && PenalizedBy(l, m, penalty, Count(Is(i), prev[..k]))
    ensures PenalizedBy(l, if prev[k] == i then Penalized(m, penalty) else m, penalty, Count(Is(i), prev[..k + 1]))
  {
    assert prev[..k + 1] == prev[..k] + [prev[k]];
    CountGrows(Is(i), prev[..k], prev[k]);
    PenalizedAgain(l, penalty, Count(Is(i), prev[..k]));
  }

  /** The counts kept beside a token history. */
  ghost predicate Tallies(counts: map<nat, nat>, prev: seq<nat>) {
    forall t: nat :: Count(Is(t), prev) == if t in counts then counts[t] else 0
  }

  /** One division per distinct token, by a power: the same logits as one division per occurrence. */
  method RepetitionPenaltyWithCounts(logits: array<real>, counts: map<nat, nat>, penalty: real, ghost prev: seq<nat>)
    requires penalty > 0.0 && Tallies(counts, prev)
    modifies logits
    ensures forall i | 0 <= i < logits.Length :: PenalizedBy(old(logits[i]), logits[i], penalty, Count(Is(i), prev))
  {
    hide Power, Count, Tallies, Penalized;
    var left := counts.Keys;
    while left != {}
      invariant left <= counts.Keys
      invariant forall i | 0 <= i < logits.Length && i in counts && i !in left ::
          PenalizedBy(old(logits[i]), logits[i], penalty, counts[i])
      invariant forall i | 0 <= i < logits.Length && (i !in counts || i in left) :: logits[i] == old(logits[i])
      decreases |left|
    {
      var tok :| tok in left;
      if tok < logits.Length {
        PowerIsPositive(penalty, counts[tok]);
        logits[tok] := Penalized(logits[tok], Power(penalty, counts[tok]));
      }
      left := left - {tok};
    }
    forall i | 0 <= i < logits.Length
      ensures PenalizedBy(old(logits[i]), logits[i], penalty, Count(Is(i), prev))
    {
      Tally(counts, prev, i);
      Untouched(logits[i], penalty);
    }
  }

  lemma {:induction false} Tally(counts: map<nat, nat>, prev: seq<nat>, t: nat)
    requires Tallies(counts, prev)
    ensures Count(Is(t), prev) == if t in counts then counts[t] else 0
  {
  }

  lemma {:induction false} Untouched(l: real, penalty: real)
    ensures PenalizedBy(l, l, penalty, 0)
  {
  }
}
