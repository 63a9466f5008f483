/** The rotation of the key-value quantizer: an in-place Walsh-Hadamard transform and what it undoes
    (src/common/kv_quant.rs). */
module Hadamard {
  import opened Powers

  type Vec = seq<real>

  function Plus(a: Vec, b: Vec): (c: Vec)
    requires |a| == |b|
    ensures |c| == |a| && forall i | 0 <= i < |a| :: c[i] == a[i] + b[i]
  {
    seq(|a|, i requires 0 <= i < |a| => a[i] + b[i])
  }

  function Minus(a: Vec, b: Vec): (c: Vec)
    requires |a| == |b|
    ensures |c| == |a| && forall i | 0 <= i < |a| :: c[i] == a[i] - b[i]
  {
    seq(|a|, i requires 0 <= i < |a| => a[i] - b[i])
  }

  function Times(r: real, a: Vec): (c: Vec)
    ensures |c| == |a| && forall i | 0 <= i < |a| :: c[i] == r * a[i]
  {
    seq(|a|, i requires 0 <= i < |a| => r * a[i])
  }

  /** The two halves of a vector, added and subtracted. */
  function Combine(a: Vec, b: Vec): (c: Vec)
    requires |a| == |b|
    ensures |c| == 2 * |a|
  {
    Plus(a, b) + Minus(a, b)
  }

  /** The unnormalised Walsh-Hadamard transform, by halves. */
  function Wht(x: Vec): (y: Vec)
    requires IsPow2(|x|)
    ensures |y| == |x|
  {
    if |x| == 1 then x else
      var h := |x| / 2;
      Combine(Wht(x[..h]), Wht(x[h..]))
  }

  // ----- linearity

  lemma {:induction false} CombineHalves(a: Vec, b: Vec)
    requires |a| == |b|
    ensures Combine(a, b)[..|a|] == Plus(a, b) && Combine(a, b)[|a|..] == Minus(a, b)
  {
  }

  /** Adding, subtracting and scaling go half by half. */
  lemma {:induction false} Halves(a: Vec, b: Vec, h: nat)
    requires |a| == |b| && h <= |a|
    ensures Plus(a, b)[..h] == Plus(a[..h], b[..h]) && Plus(a, b)[h..] == Plus(a[h..], b[h..])
    ensures Minus(a, b)[..h] == Minus(a[..h], b[..h]) && Minus(a, b)[h..] == Minus(a[h..], b[h..])
  {
  }

  lemma {:induction false} ScaledHalves(r: real, a: Vec, h: nat)
    requires h <= |a|
    ensures Times(r, a)[..h] == Times(r, a[..h]) && Times(r, a)[h..] == Times(r, a[h..])
  {
    var first, second := Times(r, a[..h]), Times(r, a[h..]);
    forall i | 0 <= i < h
      ensures Times(r, a)[i] == first[i]
    {
      assert a[..h][i] == a[i];
    }
    forall i | 0 <= i < |a| - h
      ensures Times(r, a)[h + i] == second[i]
    {
      assert a[h..][i] == a[h + i];
    }
  }

  lemma {:induction false} PlusCombine(a: Vec, b: Vec, c: Vec, d: Vec)
    requires |a| == |b| == |c| == |d|
    ensures Combine(Plus(a, c), Plus(b, d)) == Plus(Combine(a, b), Combine(c, d))
    ensures Combine(Minus(a, c), Minus(b, d)) == Minus(Combine(a, b), Combine(c, d))
  {
  }

  lemma {:induction false} WhtPlus(a: Vec, b: Vec)
    requires |a| == |b| && IsPow2(|a|)
    ensures Wht(Plus(a, b)) == Plus(Wht(a), Wht(b))
    decreases |a|
  {
    hide Plus, Combine;
    var h := |a| / 2;
    if |a| > 1 {
      Halves(a, b, h);
      WhtPlus(a[..h], b[..h]);
      WhtPlus(a[h..], b[h..]);
      PlusCombine(Wht(a[..h]), Wht(a[h..]), Wht(b[..h]), Wht(b[h..]));
    }
  }

  lemma {:induction false} WhtMinus(a: Vec, b: Vec)
    requires |a| == |b| && IsPow2(|a|)
    ensures Wht(Minus(a, b)) == Minus(Wht(a), Wht(b))
    decreases |a|
  {
    hide Minus, Combine;
    var h := |a| / 2;
    if |a| > 1 {
      Halves(a, b, h);
      WhtMinus(a[..h], b[..h]);
      WhtMinus(a[h..], b[h..]);
      PlusCombine(Wht(a[..h]), Wht(a[h..]), Wht(b[..h]), Wht(b[h..]));
    }
  }

  lemma {:induction false} WhtTimes(r: real, a: Vec)
    requires IsPow2(|a|)
    ensures Wht(Times(r, a)) == Times(r, Wht(a))
    decreases |a|
  {
    hide Times, Combine;
    var h := |a| / 2;
    if |a| > 1 {
      ScaledHalves(r, a, h);
      WhtTimes(r, a[..h]);
      WhtTimes(r, a[h..]);
      TimesCombine(r, Wht(a[..h]), Wht(a[h..]));
    }
  }

  lemma {:induction false} TimesCombine(r: real, a: Vec, b: Vec)
    requires |a| == |b|
    ensures Combine(Times(r, a), Times(r, b)) == Times(r, Combine(a, b))
  {
    var left, right := Combine(Times(r, a), Times(r, b)), Times(r, Combine(a, b));
    forall i | 0 <= i < 2 * |a|
      ensures left[i] == right[i]
    {
      var j := if i < |a| then i else i - |a|;
      Distribute(r, a[j], b[j]);
    }
  }

  lemma {:induction false} Distribute(r: real, x: real, y: real)
    ensures r * (x + y) == r * x + r * y && r * (x - y) == r * x - r * y
  {
  }

  // ----- twice

  /** Theorem: the transform applied twice multiplies the vector by its length. */
  lemma {:induction false} WhtTwice(x: Vec)
    requires IsPow2(|x|)
    ensures Wht(Wht(x)) == Times(|x| as real, x)
    decreases |x|
  {
    if |x| > 1 {
      var h := |x| / 2;
      var a, b := Wht(x[..h]), Wht(x[h..]);
      CombineHalves(a, b);
      WhtPlus(a, b);
      WhtMinus(a, b);
      WhtTwice(x[..h]);
      WhtTwice(x[h..]);
      BackTogether(x, h);
    }
  }

  lemma {:induction false} BackTogether(x: Vec, h: nat)
    requires |x| == 2 * h
    ensures var a, b := Times(h as real, x[..h]), Times(h as real, x[h..]);
      Combine(Plus(a, b), Minus(a, b)) == Times(|x| as real, x)
  {
    var a, b := Times(h as real, x[..h]), Times(h as real, x[h..]);
    var left, right := Combine(Plus(a, b), Minus(a, b)), Times(|x| as real, x);
    forall i | 0 <= i < |x|
      ensures left[i] == right[i]
    {
      var j := if i < h then i else i - h;
      assert x[i] == if i < h then x[..h][j] else x[h..][j];
      Doubled(h as real, x[i]);
    }
  }

  lemma {:induction false} Doubled(h: real, y: real)
    ensures h * y + h * y == (2.0 * h) * y
  {
  }

  function SumSquares(x: Vec): real {
    if x == [] then 0.0 else SumSquares(x[..|x| - 1]) + x[|x| - 1] * x[|x| - 1]
  }

  lemma {:induction false} SumSquaresConcat(a: Vec, b: Vec)
    ensures SumSquares(a + b) == SumSquares(a) + SumSquares(b)
    decreases |b|
  {
    if b == [] {
      assert a + b == a;
    } else {
      assert (a + b)[..|a + b| - 1] == a + b[..|b| - 1];
      SumSquaresConcat(a, b[..|b| - 1]);
    }
  }

  lemma {:induction false} Parallelogram(a: Vec, b: Vec)
    requires |a| == |b|
    ensures SumSquares(Plus(a, b)) + SumSquares(Minus(a, b)) == 2.0 * (SumSquares(a) + SumSquares(b))
    decreases |a|
  {
    if a != [] {
      var n := |a| - 1;
      Parallelogram(a[..n], b[..n]);
      assert Plus(a, b)[..n] == Plus(a[..n], b[..n]) && Minus(a, b)[..n] == Minus(a[..n], b[..n]);
      TwoSquares(a[n], b[n]);
    }
  }

  lemma {:induction false} TwoSquares(x: real, y: real)
    ensures (x + y) * (x + y) + (x - y) * (x - y) == 2.0 * (x * x + y * y)
  {
  }

  function Fold(n: nat, r: real): real {
    n as real * r
  }

  lemma {:induction false} FoldDoubles(h: nat, p: real, q: real)
    ensures 2.0 * (Fold(h, p) + Fold(h, q)) == Fold(2 * h, p + q)
  {
    HalvedSquares(h as real, p, q);
  }

  /** Theorem: the transform multiplies the sum of squares by the length. */
  lemma {:induction false} WhtScalesSquares(x: Vec)
    requires IsPow2(|x|)
    ensures SumSquares(Wht(x)) == |x| as real * SumSquares(x)
  {
    hide Wht, SumSquares;
    SquaresFold(x);
  }

  lemma {:induction false} SquaresFold(x: Vec)
    requires IsPow2(|x|)
    ensures SumSquares(Wht(x)) == Fold(|x|, SumSquares(x))
    decreases |x|
  {
    if |x| == 1 {
      assert x[..0] == [];
    } else {
      hide SumSquares, Plus, Minus, Wht, Fold;
      var h := |x| / 2;
      WhtUnfolds(x);
      var a, b := Wht(x[..h]), Wht(x[h..]);
      SquaresFold(x[..h]);
      SquaresFold(x[h..]);
      SumSquaresConcat(Plus(a, b), Minus(a, b));
      Parallelogram(a, b);
      SumSquaresConcat(x[..h], x[h..]);
      assert x == x[..h] + x[h..];
      FoldDoubles(h, SumSquares(x[..h]), SumSquares(x[h..]));
    }
  }

  lemma {:induction false} HalvedSquares(h: real, p: real, q: real)
    ensures 2.0 * (h * p + h * q) == (2.0 * h) * (p + q)
  {
  }

  lemma {:induction false} WhtUnfolds(x: Vec)
    requires IsPow2(|x|) && |x| > 1
    ensures var h := |x| / 2;
      && 2 * h == |x| && IsPow2(h)
      && Wht(x) == Plus(Wht(x[..h]), Wht(x[h..])) + Minus(Wht(x[..h]), Wht(x[h..]))
  {
  }

  // ----- the loops

  /** `ys` is `xs` with every aligned block of `half` entries transformed. */
  ghost predicate Blocks(xs: Vec, ys: Vec, half: nat)
    requires IsPow2(half)
    decreases |xs|
  {
    && |xs| == |ys|
    && (xs != [] ==>
        && |xs| >= half && ys[..half] == Wht(xs[..half])
        && Blocks(xs[half..], ys[half..], half))
  }

  lemma {:induction false} SingleBlocks(xs: Vec)
    ensures Blocks(xs, xs, 1)
    decreases |xs|
  {
    if xs != [] {
      SingleBlocks(xs[1..]);
    }
  }

  lemma {:induction false} OnlyBlock(xs: Vec, ys: Vec)
    requires IsPow2(|xs|) && Blocks(xs, ys, |xs|)
    ensures ys == Wht(xs)
  {
    assert xs[..|xs|] == xs && ys[..|xs|] == ys;
  }

  lemma {:induction false} BlocksAppend(xs: Vec, ys: Vec, b: Vec, half: nat)
    requires IsPow2(half) && Blocks(xs, ys, half) && |b| == half
    ensures Blocks(xs + b, ys + Wht(b), half)
    decreases |xs|
  {
    hide Wht;
    if xs == [] {
      assert xs + b == b && ys + Wht(b) == Wht(b);
      assert b[..half] == b && Wht(b)[..half] == Wht(b);
      assert Blocks(b[half..], Wht(b)[half..], half);
    } else {
      BlocksAppend(xs[half..], ys[half..], b, half);
      assert (xs + b)[..half] == xs[..half] && (ys + Wht(b))[..half] == ys[..half];
      assert (xs + b)[half..] == xs[half..] + b && (ys + Wht(b))[half..] == ys[half..] + Wht(b);
    }
  }

  /** The next pair of blocks merges into one of twice the size. */
  lemma {:induction false} PairMerges(xs: Vec, ys: Vec, half: nat)
    requires IsPow2(half) && Blocks(xs, ys, half) && |xs| >= 2 * half
    ensures IsPow2(2 * half)
    ensures Combine(ys[..half], ys[half..2 * half]) == Wht(xs[..2 * half])
    ensures Blocks(xs[2 * half..], ys[2 * half..], half)
  {
    var x2 := xs[..2 * half];
    assert x2[..half] == xs[..half] && x2[half..] == xs[half..][..half];
    assert ys[half..2 * half] == ys[half..][..half];
    assert xs[half..][half..] == xs[2 * half..] && ys[half..][half..] == ys[2 * half..];
  }

  /** The inner loop: one block of `2 half` entries at `i`. */
  method Butterfly(x: array<real>, i: nat, half: nat)
    requires i + 2 * half <= x.Length
    modifies x
    ensures x[..] == old(x[..i]) + Combine(old(x[i..i + half]), old(x[i + half..i + 2 * half])) + old(x[i + 2 * half..])
  {
    ghost var was := x[..];
    var j := i;
    while j < i + half
      invariant i <= j <= i + half
      invariant forall k | 0 <= k < x.Length :: x[k] == Halfway(was, i, half, j, k)
    {
      var a, b := x[j], x[j + half];
      x[j] := a + b;
      x[j + half] := a - b;
      j := j + 1;
    }
    ButterflyDone(was, i, half, x[..]);
  }

  /** Entry `k` when the pairs before `j` are done. */
  function Halfway(was: Vec, i: nat, half: nat, j: nat, k: nat): real
    requires i + 2 * half <= |was| && i <= j <= i + half && k < |was|
  {
    if i <= k < j then was[k] + was[k + half]
    else if i + half <= k < j + half then was[k - half] - was[k]
    else was[k]
  }

  lemma {:induction false} ButterflyDone(was: Vec, i: nat, half: nat, now: Vec)
    requires i + 2 * half <= |was| == |now|
    requires forall k | 0 <= k < |was| :: now[k] == Halfway(was, i, half, i + half, k)
    ensures now == was[..i] + Combine(was[i..i + half], was[i + half..i + 2 * half]) + was[i + 2 * half..]
  {
  }

  /** One turn of the outer loop: blocks of `half` become blocks of `2 half`. */
  method Level(x: array<real>, ghost xs: Vec, half: nat, ghost blocks: nat)
    requires half > 0 && IsPow2(half) && IsPow2(2 * half) && blocks * (2 * half) == x.Length
    requires Blocks(xs, x[..], half)
    modifies x
    ensures Blocks(xs, x[..], 2 * half)
  {
    hide Wht, Combine, Blocks, IsPow2;
    var i: nat := 0;
    ghost var left := blocks;
    LevelStarts(xs, x[..], half);
    while i < x.Length
      invariant |xs| == x.Length && i <= x.Length && i + left * (2 * half) == x.Length
      invariant Blocks(xs[..i], x[..i], 2 * half)
      invariant Blocks(xs[i..], x[i..], half)
      decreases left
    {
      AtLeastOne(left, 2 * half);
      ghost var ys := x[..];
      assert x[i..] == ys[i..] && x[..i] == ys[..i];
      LevelSteps(xs, ys, half, i);
      Butterfly(x, i, half);
      assert x[..i + 2 * half] == ys[..i] + Combine(ys[i..i + half], ys[i + half..i + 2 * half]);
      assert x[i + 2 * half..] == ys[i + 2 * half..];
      i := i + half * 2;
      left := left - 1;
    }
    assert i == x.Length;
    assert x[..i] == x[..] && xs[..i] == xs;
  }

  lemma {:induction false} LevelStarts(xs: Vec, ys: Vec, half: nat)
    requires half > 0 && IsPow2(half) && IsPow2(2 * half) && Blocks(xs, ys, half)
    ensures |xs| == |ys| && Blocks(xs[..0], ys[..0], 2 * half) && Blocks(xs[0..], ys[0..], half)
  {
    assert xs[0..] == xs && ys[0..] == ys;
  }

  lemma {:induction false} LevelSteps(xs: Vec, ys: Vec, half: nat, i: nat)
    requires half > 0 && IsPow2(half) && IsPow2(2 * half) && |xs| == |ys| && i + 2 * half <= |xs|
    requires Blocks(xs[..i], ys[..i], 2 * half) && Blocks(xs[i..], ys[i..], half)
    ensures Blocks(xs[..i + 2 * half], ys[..i] + Combine(ys[i..i + half], ys[i + half..i + 2 * half]), 2 * half)
    ensures Blocks(xs[i + 2 * half..], ys[i + 2 * half..], half)
  {
    hide Wht, Combine, Blocks, IsPow2;
    PairMerges(xs[i..], ys[i..], half);
    SliceFacts(xs, ys, i, half);
    BlocksAppend(xs[..i], ys[..i], xs[i..i + 2 * half], 2 * half);
    assert xs[..i + 2 * half] == xs[..i] + xs[i..i + 2 * half];
  }

  method WhtInPlace(x: array<real>)
    requires IsPow2(x.Length)
    modifies x
    ensures x[..] == Wht(old(x[..]))
  {
    hide Wht, Combine, Blocks;
    var d := x.Length;
    ghost var xs := x[..];
    var half: nat := 1;
    ghost var blocks: nat := d;
    SingleBlocks(xs);
    while half < d
      invariant half > 0 && IsPow2(half) && IsPow2(blocks) && blocks * half == d
      invariant Blocks(xs, x[..], half)
      decreases blocks
    {
      Halved(d, half, blocks);
      DoublePow2(half);
      Level(x, xs, half, blocks / 2);
      half := half * 2;
      blocks := blocks / 2;
    }
    OneBlock(blocks, half, d);
    OnlyBlock(xs, x[..]);
  }

  lemma {:induction false} DoublePow2(n: nat)
    requires IsPow2(n)
    ensures IsPow2(2 * n)
  {
    assert 2 * n / 2 == n;
  }

  lemma {:induction false} AtLeastOne(left: nat, s: nat)
    requires left * s > 0
    ensures left >= 1 && left * s >= s && (left - 1) * s == left * s - s
  {
  }

  lemma {:induction false} SliceFacts(xs: Vec, ys: Vec, i: nat, half: nat)
    requires |xs| == |ys| && i + 2 * half <= |xs|
    ensures xs[i..][..2 * half] == xs[i..i + 2 * half] && xs[i..][2 * half..] == xs[i + 2 * half..]
    ensures ys[i..][..half] == ys[i..i + half] && ys[i..][half..2 * half] == ys[i + half..i + 2 * half]
    ensures ys[i..][2 * half..] == ys[i + 2 * half..]
  {
  }
}
