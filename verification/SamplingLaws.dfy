/**
 What the sampling filters leave, without the functions they are specified by (src/sampling.rs:330-560): the kept
 probabilities add up to one, a nucleus is as small as it can be, and a penalty pushes a logit down.
 */
module SamplingLaws {
  import opened Sampling

  // ----- sums

  /** The probabilities of the tokens that are still possible after filtering. */
  function Kept(p: Probs, q: Probs): (kept: Probs)
    requires |p| == |q|
    ensures |kept| == |p|
  {
    seq(|p|, i requires 0 <= i < |p| => if q[i] > 0.0 then p[i] else 0.0)
  }

  lemma {:induction false} TotalSplits(a: Probs, b: Probs)
    ensures Total(a + b) == Total(a) + Total(b)
    decreases |b|
  {
    if b == [] {
      assert a + b == a;
    } else {
      TotalSplits(a, b[..|b| - 1]);
      assert (a + b)[..|a + b| - 1] == a + b[..|b| - 1];
    }
  }

  lemma {:induction false} TotalChanges(a: Probs, i: nat, x: real)
    requires i < |a|
    ensures Total(a[i := x]) == Total(a) - a[i] + x
  {
    TotalSplits(a[..i] + [a[i]], a[i + 1..]);
    TotalSplits(a[..i], [a[i]]);
    TotalSplits(a[..i] + [x], a[i + 1..]);
    TotalSplits(a[..i], [x]);
    TotalOne(x);
    TotalOne(a[i]);
    assert a == a[..i] + [a[i]] + a[i + 1..];
    assert a[i := x] == a[..i] + [x] + a[i + 1..];
  }

  lemma {:induction false} TotalOne(x: real)
    ensures Total([x]) == x
  {
    assert [x][..0] == [];
  }

  lemma {:induction false} TotalOfZeros(a: Probs)
    requires forall i | 0 <= i < |a| :: a[i] == 0.0
    ensures Total(a) == 0.0
  {
    if a != [] {
      TotalOfZeros(a[..|a| - 1]);
    }
  }

  lemma {:induction false} TotalScaled(a: Probs, b: Probs, m: real)
    requires |a| == |b| && m > 0.0 && forall i | 0 <= i < |a| :: b[i] == a[i] / m
    ensures Total(b) == Total(a) / m
  {
    if a != [] {
      var n := |a| - 1;
      TotalScaled(a[..n], b[..n], m);
      var x, y := Total(a[..n]) / m, a[n] / m;
      assert x * m == Total(a[..n]) && y * m == a[n];
      assert (x + y) * m == Total(a);
    }
  }

  lemma {:induction false} TotalIsPositive(a: Probs, i: nat)
    requires NonNegative(a) && i < |a| && a[i] > 0.0
    ensures Total(a) > 0.0
  {
    var n := |a| - 1;
    if i < n {
      TotalIsPositive(a[..n], i);
    } else {
      TotalAtLeastZero(a[..n]);
    }
  }

  lemma {:induction false} TotalAtLeastZero(a: Probs)
    requires NonNegative(a)
    ensures Total(a) >= 0.0
  {
    if a != [] {
      TotalAtLeastZero(a[..|a| - 1]);
    }
  }

  // ----- the nucleus

  /** `p` where `xs` names it, and nothing elsewhere. */
  function Masked(p: Probs, xs: seq<Item>): (m: Probs)
    ensures |m| == |p|
  {
    seq(|p|, i requires 0 <= i < |p| => if Among(xs, i) then p[i] else 0.0)
  }

  lemma {:induction false} MaskedTotal(p: Probs, xs: seq<Item>)
    requires Drawn(p, xs)
    ensures Total(Masked(p, xs)) == Mass(xs)
    decreases |xs|
  {
    if xs == [] {
      TotalOfZeros(Masked(p, xs));
    } else {
      var n := |xs| - 1;
      var x, less := xs[n], Masked(p, xs[..n]);
      MaskedTotal(p, xs[..n]);
      assert !Among(xs[..n], x.index);
      TotalChanges(less, x.index, x.prob);
      forall i | 0 <= i < |p|
        ensures Masked(p, xs)[i] == less[x.index := x.prob][i]
      {
        AmongOneMore(xs, n, i);
      }
      assert Masked(p, xs) == less[x.index := x.prob];
    }
  }

  lemma {:induction false} AmongOneMore(xs: seq<Item>, n: nat, i: nat)
    requires |xs| == n + 1
    ensures Among(xs, i) <==> Among(xs[..n], i) || xs[n].index == i
  {
    if Among(xs, i) && xs[n].index != i {
      var k :| 0 <= k < |xs| && xs[k].index == i;
      assert xs[..n][k].index == i;
    }
  }

  lemma {:induction false} NucleusIsMasked(p: Probs, q: Probs, topP: real) returns (order: seq<Item>, n: nat)
    requires NonNegative(p) && Nucleus(p, q, topP)
    ensures FullOrder(p, order) && StopsAt(order, topP, n) && Restricted(p, q, order[..n])
    ensures |q| == |p| && Kept(p, q) == Masked(p, order[..n]) && Total(Kept(p, q)) == Mass(order[..n])
    ensures Drawn(p, order)
  {
    order, n :| FullOrder(p, order) && StopsAt(order, topP, n) && Restricted(p, q, order[..n]);
    hide StopsAt, FullOrder, Among;
    OrderIsDrawn(p, order, topP, n);
    forall i | 0 <= i < |p|
      ensures q[i] > 0.0 <==> Among(order[..n], i) && p[i] > 0.0
    {
      ScaledSign(p[i], Mass(order[..n]));
    }
    assert Kept(p, q) == Masked(p, order[..n]);
    MaskedTotal(p, order[..n]);
  }

  lemma {:induction false} OrderIsDrawn(p: Probs, order: seq<Item>, topP: real, n: nat)
    requires FullOrder(p, order) && StopsAt(order, topP, n)
    ensures n <= |order| && Drawn(p, order) && Drawn(p, order[..n])
  {
    WithinIsDrawn(p, order);
  }

  /** The whole order carries the whole distribution. */
  lemma {:induction false} OrderMass(p: Probs, order: seq<Item>)
    requires FullOrder(p, order)
    ensures Mass(order) == Total(p)
  {
    MassPermutes(order, Items(p, |p|));
    ItemsMass(p, |p|);
    assert p[..|p|] == p;
  }

  lemma {:induction false} ItemsMass(p: Probs, n: nat)
    requires n <= |p|
    ensures Mass(Items(p, n)) == Total(p[..n])
  {
    if n > 0 {
      ItemsMass(p, n - 1);
      assert p[..n][..n - 1] == p[..n - 1];
    }
  }

  /** Theorem: after nucleus filtering the probabilities add up to one, in the old proportions; where nothing was
      possible nothing changes. */
  lemma {:induction false} NucleusSumsToOne(p: Probs, q: Probs, topP: real)
    requires NonNegative(p) && Nucleus(p, q, topP)
    ensures |q| == |p|
    ensures Total(p) > 0.0 ==> Total(q) == 1.0
    ensures Total(p) > 0.0 ==>
      Total(Kept(p, q)) > 0.0 && forall i | 0 <= i < |p| :: q[i] == Kept(p, q)[i] / Total(Kept(p, q))
    ensures Total(p) == 0.0 ==> q == p
  {
    hide FullOrder, Drawn, Among;
    var order, n := NucleusIsMasked(p, q, topP);
    OrderMass(p, order);
    var m := Mass(order[..n]);
    if Total(p) > 0.0 {
      assert n == |order| ==> order[..n] == order;
      assert m > 0.0;
      forall i | 0 <= i < |p|
        ensures q[i] == Kept(p, q)[i] / m
      {
        assert 0.0 / m == 0.0;
      }
      TotalScaled(Kept(p, q), q, m);
      Itself(m);
    } else if Total(p) == 0.0 {
      forall i | 0 <= i < |p|
        ensures p[i] == 0.0
      {
        if p[i] > 0.0 {
          TotalIsPositive(p, i);
        }
      }
      forall i | 0 <= i < |p|
        ensures q[i] == 0.0
      {
        ScaledSign(p[i], m);
      }
    }
  }

  lemma {:induction false} Itself(m: real)
    requires m > 0.0
    ensures m / m == 1.0
  {
    var x := m / m;
    assert x * m == m;
  }

  /** The last possible item of a descending prefix. */
  lemma {:induction false} LastPossible(order: seq<Item>, n: nat) returns (l: nat)
    requires n <= |order| && Mass(order[..n]) > 0.0 && forall k | 0 <= k < n :: order[k].prob >= 0.0
    ensures l < n && order[l].prob > 0.0 && Mass(order[..n]) == Mass(order[..l]) + order[l].prob
    ensures forall k | l < k < n :: order[k].prob == 0.0
  {
    assert n > 0;
    MassGrows(order, n - 1);
    if order[n - 1].prob > 0.0 {
      l := n - 1;
    } else {
      l := LastPossible(order, n - 1);
    }
  }

  /** Theorem: a nucleus carries `topP`, or everything there is; and it is the smallest that does: without its least
      likely token it would fall short. */
  lemma {:induction false} NucleusIsSmallest(p: Probs, q: Probs, topP: real, i: nat)
    requires NonNegative(p) && Nucleus(p, q, topP) && i < |p|
    ensures |q| == |p|
    ensures Total(Kept(p, q)) >= topP || (p[i] > 0.0 ==> q[i] > 0.0)
    ensures q[i] > 0.0 && (forall j | 0 <= j < |p| && q[j] > 0.0 :: p[i] <= p[j]) ==>
      Total(Kept(p, q)) - p[i] < topP || Total(Kept(p, q)) == p[i]
  {
    var order, n := NucleusIsMasked(p, q, topP);
    if Total(Kept(p, q)) < topP {
      EverythingKept(p, q, order, n, topP, i);
    }
    if q[i] > 0.0 && (forall j | 0 <= j < |p| && q[j] > 0.0 :: p[i] <= p[j]) {
      LeastIsLast(p, q, order, n, topP, i);
    }
  }

  lemma {:induction false} EverythingKept(p: Probs, q: Probs, order: seq<Item>, n: nat, topP: real, i: nat)
    requires NonNegative(p) && FullOrder(p, order) && StopsAt(order, topP, n) && Restricted(p, q, order[..n])
    requires Mass(order[..n]) < topP && i < |p|
    ensures p[i] > 0.0 ==> q[i] > 0.0
  {
    hide SortedBy;
    assert n == |order|;
    ItemsOnce(p, |p|, Item(i, p[i]));
    assert Item(i, p[i]) in multiset(order);
    var l :| 0 <= l < |order| && order[l] == Item(i, p[i]);
    KeptIsAmong(order, n, l);
    ScaledSign(p[i], Mass(order[..n]));
  }

  lemma {:induction false} LeastIsLast(p: Probs, q: Probs, order: seq<Item>, n: nat, topP: real, i: nat)
    requires NonNegative(p) && FullOrder(p, order) && StopsAt(order, topP, n) && Restricted(p, q, order[..n])
    requires i < |p| && q[i] > 0.0 && (forall j | 0 <= j < |p| && q[j] > 0.0 :: p[i] <= p[j]) && Drawn(p, order)
    requires Kept(p, q) == Masked(p, order[..n]) && Total(Kept(p, q)) == Mass(order[..n])
    ensures Mass(order[..n]) - p[i] < topP || Mass(order[..n]) == p[i]
  {
    hide Total;
    var k :| 0 <= k < n && order[..n][k].index == i;
    ScaledSign(p[i], Mass(order[..n]));
    TotalIsPositive(Kept(p, q), i);
    var l := LastPossible(order, n);
    assert k <= l;
    assert Descending()(order[k]) <= Descending()(order[l]) by {
      if k < l {
        assert SortedBy(Descending(), order);
      }
    }
    KeptIsAmong(order, n, l);
    ScaledSign(p[order[l].index], Mass(order[..n]));
    assert q[order[l].index] > 0.0;
    assert order[l].prob == p[i];
    assert !Enough(Mass(order[..l]), topP);
    MassAtLeastZero(order, l);
  }

  lemma {:induction false} MassAtLeastZero(xs: seq<Item>, n: nat)
    requires n <= |xs| && forall k | 0 <= k < |xs| :: xs[k].prob >= 0.0
    ensures Mass(xs[..n]) >= 0.0
  {
    if n > 0 {
      MassAtLeastZero(xs, n - 1);
      MassGrows(xs, n - 1);
    }
  }

  // ----- the k most probable

  function Possible(p: Probs): set<nat> {
    set i: nat | i < |p| && p[i] > 0.0
  }

  lemma {:induction false} CountIsSize(p: Probs)
    ensures Count(Above(0.0), p) == |Possible(p)|
  {
    if p != [] {
      var n := |p| - 1;
      CountIsSize(p[..n]);
      assert Possible(p) == if p[n] > 0.0 then Possible(p[..n]) + {n} else Possible(p[..n]);
    }
  }

  /** Theorem: filtering keeps as many tokens as are wanted, or as are possible, and they add up to one. */
  lemma {:induction false} TopKSumsToOne(p: Probs, q: Probs, k: nat)
    requires NonNegative(p) && TopK(p, q, k)
    ensures |Possible(q)| == (if k <= |Possible(p)| then k else |Possible(p)|) && Possible(q) <= Possible(p)
    ensures Possible(q) != {} ==> Total(q) == 1.0
  {
    hide Count, Total;
    CountIsSize(p);
    CountIsSize(q);
    var kept :| Masks(p, kept) && forall i | 0 <= i < |p| :: q[i] == Scaled(kept[i], Total(kept));
    forall i | 0 <= i < |p|
      ensures q[i] > 0.0 <==> kept[i] > 0.0
    {
      ScaledSign(kept[i], Total(kept));
    }
    if i :| i in Possible(q) {
      TotalIsPositive(kept, i);
      var m := Total(kept);
      TotalScaled(kept, q, m);
      Itself(m);
    }
  }

  // ----- the repetition penalty

  lemma {:induction false} CountIsMultiplicity(i: nat, prev: seq<nat>)
    ensures Count(Is(i), prev) == multiset(prev)[i]
  {
    if prev != [] {
      var n := |prev| - 1;
      CountIsMultiplicity(i, prev[..n]);
      assert prev == prev[..n] + [prev[n]];
    }
  }

  lemma {:induction false} PowerGrows(x: real, n: nat)
    requires x > 1.0
    ensures Power(x, n) >= 1.0 && (n > 0 ==> Power(x, n) > 1.0)
  {
    if n > 0 {
      PowerGrows(x, n - 1);
      assert Power(x, n - 1) * x >= x;
    }
  }

  /** Theorem: a token that has not occurred keeps its logit; a penalty above one lowers every other logit but zero
      and never across it: a positive one is divided, a negative one multiplied, once for each occurrence. */
  lemma {:induction false} PenaltyLowers(l: real, m: real, penalty: real, prev: seq<nat>, i: nat)
    requires penalty > 1.0 && PenalizedBy(l, m, penalty, Count(Is(i), prev))
    ensures i !in prev ==> m == l
    ensures i in prev && l != 0.0 ==> m < l
    ensures l > 0.0 ==> m > 0.0 && m * Power(penalty, multiset(prev)[i]) == l
    ensures l <= 0.0 ==> m == l * Power(penalty, multiset(prev)[i]) && m <= 0.0
  {
    hide Power;
    var n := multiset(prev)[i];
    CountIsMultiplicity(i, prev);
    PowerGrows(penalty, n);
    assert n == 0 ==> Power(penalty, n) == 1.0 by {
      PowerOfNone(penalty);
    }
    Shrinks(l, m, Power(penalty, n));
  }

  lemma {:induction false} PowerOfNone(x: real)
    ensures Power(x, 0) == 1.0
  {
  }

  lemma {:induction false} Shrinks(l: real, m: real, f: real)
    requires f >= 1.0 && m == Penalized(l, f)
    ensures f == 1.0 ==> m == l
    ensures f > 1.0 && l != 0.0 ==> m < l
    ensures l > 0.0 ==> m > 0.0 && m * f == l
    ensures l <= 0.0 ==> m == l * f && m <= 0.0
  {
    if l > 0.0 {
      assert m * f == l;
      assert m > 0.0;
      if f > 1.0 {
        assert m * (f - 1.0) > 0.0;
      }
    } else {
      assert l * (f - 1.0) <= 0.0;
      assert l * f == l + l * (f - 1.0);
      if f > 1.0 && l < 0.0 {
        assert -l * (f - 1.0) > 0.0;
      }
    }
  }
}
