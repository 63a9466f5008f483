/** The chunked parallel scan of the gated delta rule, proved equal to the recurrence (src/common/gdn.rs). */
module ChunkScan {
  import opened Matrices
  import opened TriangularInverse
  import opened DeltaRule
  import opened Wrappers

  // ----- elementwise operations of the tensor library

  /** Row `i` of `a` times entry `i` of the column `w`. */
  function RowScale(a: Mat, w: Mat): (m: Mat)
    requires w.rows == a.rows && w.cols == 1
    ensures m.rows == a.rows && m.cols == a.cols
  {
    Make(a.rows, a.cols, (i, j) => At(a, i, j) * At(w, i, 0))
  }

  function Hadamard(a: Mat, b: Mat): (m: Mat)
    requires a.rows == b.rows && a.cols == b.cols
    ensures m.rows == a.rows && m.cols == a.cols
  {
    Make(a.rows, a.cols, (i, j) => At(a, i, j) * At(b, i, j))
  }

  function Negated(a: Mat): (m: Mat)
    ensures m.rows == a.rows && m.cols == a.cols
  {
    Make(a.rows, a.cols, (i, j) => -At(a, i, j))
  }

  function Exp(e: real -> real, a: Mat): (m: Mat)
    ensures m.rows == a.rows && m.cols == a.cols
  {
    Make(a.rows, a.cols, (i, j) => e(At(a, i, j)))
  }

  function LowerMask(n: nat, strict: bool): (m: Mat)
    ensures Square(m, n)
  {
    Make(n, n, (i, j) => if j < i || (j == i && !strict) then 1.0 else 0.0)
  }

  /** The mask whose product with a row is the row's running sums. */
  function PrefixMask(n: nat): (m: Mat)
    ensures Square(m, n)
  {
    Make(n, n, (j, i) => if j <= i then 1.0 else 0.0)
  }

  // ----- what is computed for all chunks at once

  function Queries(x: seq<Token>): seq<Mat> { seq(|x|, i requires 0 <= i < |x| => x[i].q) }

  function Keys(x: seq<Token>): seq<Mat> { seq(|x|, i requires 0 <= i < |x| => x[i].k) }

  function Values(x: seq<Token>): seq<Mat> { seq(|x|, i requires 0 <= i < |x| => x[i].v) }

  function GateRow(x: seq<Token>): (m: Mat)
    ensures m.rows == 1 && m.cols == |x|
  {
    Make(1, |x|, (i, j) => if 0 <= j < |x| then x[j].g else 0.0)
  }

  function BetaColumn(x: seq<Token>): (m: Mat)
    ensures m.rows == |x| && m.cols == 1
  {
    Make(|x|, 1, (i, j) => if 0 <= i < |x| then x[i].beta else 0.0)
  }

  function RunningGates(x: seq<Token>): (m: Mat)
    ensures m.rows == 1 && m.cols == |x|
  {
    Mul(GateRow(x), PrefixMask(|x|))
  }

  /** `exp(g_i - g_j)` on and below the diagonal, zero above. */
  function Decay(e: real -> real, gc: Mat, tril: Mat): (m: Mat)
    requires gc.rows == 1 && Square(tril, gc.cols)
    ensures Square(m, gc.cols)
  {
    Hadamard(
      Exp(e, Hadamard(Make(gc.cols, gc.cols, (i, j) => At(gc, 0, i) - At(gc, 0, j)), tril)), tril)
  }

  function KeyProducts(x: seq<Token>, rows: Mat, dk: nat): (m: Mat)
    requires rows.cols == dk
    ensures m.rows == rows.rows && m.cols == |x|
  {
    Mul(rows, Transpose(Stack(Keys(x), dk)))
  }

  /** The strictly lower system whose solution is the matrix of deltas. */
  function System(e: real -> real, x: seq<Token>, dk: nat): (m: Mat)
    ensures Square(m, |x|)
  {
    var decay := Decay(e, RunningGates(x), LowerMask(|x|, false));
    var kBeta := RowScale(Stack(Keys(x), dk), BetaColumn(x));
    Negated(Hadamard(Hadamard(KeyProducts(x, kBeta, dk), decay), LowerMask(|x|, true)))
  }

  function Attention(e: real -> real, x: seq<Token>, dk: nat): (m: Mat)
    ensures Square(m, |x|)
  {
    Hadamard(KeyProducts(x, Stack(Queries(x), dk), dk), Decay(e, RunningGates(x), LowerMask(|x|, false)))
  }

  function ScaledQueries(e: real -> real, x: seq<Token>, dk: nat): (m: Mat)
    ensures m.rows == |x| && m.cols == dk
  {
    RowScale(Stack(Queries(x), dk), Exp(e, Transpose(RunningGates(x))))
  }

  function ScaledKeys(e: real -> real, x: seq<Token>, dk: nat): (m: Mat)
    ensures m.rows == |x| && m.cols == dk
  {
    RowScale(RowScale(Stack(Keys(x), dk), BetaColumn(x)), Exp(e, Transpose(RunningGates(x))))
  }

  function ScaledValues(x: seq<Token>, dv: nat): (m: Mat)
    ensures m.rows == |x| && m.cols == dv
  {
    RowScale(Stack(Values(x), dv), BetaColumn(x))
  }

  /** The keys, each decayed to the end of the chunk, turned on their side. */
  function Carry(e: real -> real, x: seq<Token>, dk: nat): (m: Mat)
    requires x != []
    ensures m.rows == dk && m.cols == |x|
  {
    var gc := RunningGates(x);
    var left := Make(|x|, 1, (i, j) => At(gc, 0, |x| - 1) - At(gc, 0, i));
    Transpose(RowScale(Stack(Keys(x), dk), Exp(e, left)))
  }

  // ----- running sums

  lemma {:induction false} MaskedSum(n: nat, m: nat, f: int -> real, h: int -> real)
    requires m <= n
    requires forall l | 0 <= l < m :: h(l) == f(l)
    requires forall l | m <= l < n :: h(l) == 0.0
    ensures Sum(n, h) == Sum(m, f)
  {
    if m < n {
      MaskedSum(n - 1, m, f, h);
    } else {
      SumSame(n, f, h);
    }
  }

  lemma {:induction false} SumOfGates(x: seq<Token>, f: int -> real)
    requires forall l | 0 <= l < |x| :: f(l) == x[l].g
    ensures Sum(|x|, f) == Gates(x)
  {
    if x != [] {
      SumOfGates(x[..|x| - 1], f);
    }
  }

  lemma {:induction false} RunningGatesAt(x: seq<Token>, i: nat)
    requires i < |x|
    ensures At(RunningGates(x), 0, i) == GateAt(x, i)
  {
    hide At, Sum, Mul, Gates;
    var f: int -> real := l => if 0 <= l < |x| then x[l].g else 0.0;
    var h: int -> real := l => if l <= i then f(l) else 0.0;
    forall l | 0 <= l < |x|
      ensures h(l) == At(GateRow(x), 0, l) * At(PrefixMask(|x|), l, i)
    {
    }
    MulAt(GateRow(x), PrefixMask(|x|), 0, i, h);
    MaskedSum(|x|, i + 1, f, h);
    SumOfGates(x[..i + 1], f);
  }

  // ----- entries of the intermediate matrices

  function Dot(r: Mat, k: Mat): real
    requires r.rows == 1 && k.rows == 1 && r.cols == k.cols
  {
    At(Mul(r, Transpose(k)), 0, 0)
  }

  lemma {:induction false} RowOfProduct(rows: seq<Mat>, w: nat, b: Mat, i: nat, j: nat)
    requires i < |rows| && rows[i].rows == 1 && rows[i].cols == w && b.rows == w && j < b.cols
    ensures At(Mul(Stack(rows, w), b), i, j) == At(Mul(rows[i], b), 0, j)
  {
    hide At, Sum, Mul, Stack;
    var f: int -> real := l => At(rows[i], 0, l) * At(b, l, j);
    forall l | 0 <= l < w
      ensures f(l) == At(Stack(rows, w), i, l) * At(b, l, j)
    {
      StackAt(rows, w, i, l);
    }
    MulAt(Stack(rows, w), b, i, j, f);
    MulAt(rows[i], b, 0, j, f);
  }

  lemma {:induction false} RowScaleAt(a: Mat, w: Mat, i: nat, j: nat)
    requires w.rows == a.rows && w.cols == 1 && i < a.rows && j < a.cols
    ensures At(RowScale(a, w), i, j) == At(a, i, j) * At(w, i, 0)
  {
    hide At;
  }

  lemma {:induction false} RowScaleMul(a: Mat, w: Mat, b: Mat, i: nat, j: nat)
    requires w.rows == a.rows && w.cols == 1 && a.cols == b.rows && i < a.rows && j < b.cols
    ensures At(Mul(RowScale(a, w), b), i, j) == At(w, i, 0) * At(Mul(a, b), i, j)
  {
    hide At, Sum, Mul, RowScale;
    var f: int -> real := l => At(a, i, l) * At(b, l, j);
    var h: int -> real := l => At(RowScale(a, w), i, l) * At(b, l, j);
    forall l | 0 <= l < a.cols
      ensures h(l) == At(w, i, 0) * f(l)
    {
      RowScaleAt(a, w, i, l);
      Regrouped(At(a, i, l), At(w, i, 0), At(b, l, j));
    }
    MulAt(a, b, i, j, f);
    MulAt(RowScale(a, w), b, i, j, h);
    SumScale(a.cols, At(w, i, 0), f, h);
  }

  lemma {:induction false} Regrouped(x: real, w: real, y: real)
    ensures (x * w) * y == w * (x * y)
  {
  }

  /** Entry `(i, j)` of a product with the transposed keys is a dot product. */
  lemma {:induction false} DotAt(r: Mat, k: Mat, kt: Mat, j: nat)
    requires r.rows == 1 && k.rows == 1 && r.cols == k.cols && kt.rows == k.cols && j < kt.cols
    requires forall a | 0 <= a < k.cols :: At(kt, a, j) == At(k, 0, a)
    ensures At(Mul(r, kt), 0, j) == Dot(r, k)
  {
    hide At, Sum, Mul, Transpose;
    var f: int -> real := a => At(r, 0, a) * At(k, 0, a);
    forall a | 0 <= a < k.cols
      ensures f(a) == At(r, 0, a) * At(Transpose(k), a, 0)
    {
      TransposeAt(k, a, 0);
    }
    MulAt(r, kt, 0, j, f);
    MulAt(r, Transpose(k), 0, 0, f);
  }

  lemma {:induction false} KeyProductAt(x: seq<Token>, rows: seq<Mat>, dk: nat, i: nat, j: nat)
    requires i < |rows| && rows[i].rows == 1 && rows[i].cols == dk
    requires j < |x| && x[j].k.rows == 1 && x[j].k.cols == dk
    ensures At(KeyProducts(x, Stack(rows, dk), dk), i, j) == Dot(rows[i], x[j].k)
  {
    hide At, Mul, Transpose, Stack, Dot;
    var kt := Transpose(Stack(Keys(x), dk));
    RowOfProduct(rows, dk, kt, i, j);
    forall a | 0 <= a < dk
      ensures At(kt, a, j) == At(x[j].k, 0, a)
    {
      TransposeAt(Stack(Keys(x), dk), a, j);
      StackAt(Keys(x), dk, j, a);
    }
    DotAt(rows[i], x[j].k, kt, j);
  }

  lemma {:induction false} DecayAt(e: real -> real, x: seq<Token>, i: nat, j: nat)
    requires i < |x| && j < |x|
    ensures At(Decay(e, RunningGates(x), LowerMask(|x|, false)), i, j)
         == if j <= i then e(GateAt(x, i) - GateAt(x, j)) else 0.0
  {
    hide At, RunningGates, GateAt;
    RunningGatesAt(x, i);
    RunningGatesAt(x, j);
  }

  lemma {:induction false} SystemAt(e: real -> real, x: seq<Token>, s: Mat, i: nat, j: nat)
    requires Fits(x, s) && i < |x| && j < |x|
    ensures At(System(e, x, s.rows), i, j)
         == if j < i then -(x[i].beta * Dot(x[i].k, x[j].k) * e(GateAt(x, i) - GateAt(x, j))) else 0.0
  {
    hide At, RunningGates, GateAt, Dot, Decay, Mul, Stack, RowScale, Transpose;
    var dk := s.rows;
    var kt := Transpose(Stack(Keys(x), dk));
    DecayAt(e, x, i, j);
    RowScaleMul(Stack(Keys(x), dk), BetaColumn(x), kt, i, j);
    KeyProductAt(x, Keys(x), dk, i, j);
  }

  lemma {:induction false} AttentionAt(e: real -> real, x: seq<Token>, s: Mat, i: nat, j: nat)
    requires Fits(x, s) && i < |x| && j < |x|
    ensures At(Attention(e, x, s.rows), i, j)
         == if j <= i then Dot(x[i].q, x[j].k) * e(GateAt(x, i) - GateAt(x, j)) else 0.0
  {
    hide At, RunningGates, GateAt, Dot, Decay, Mul, Stack, KeyProducts;
    DecayAt(e, x, i, j);
    KeyProductAt(x, Queries(x), s.rows, i, j);
  }

  lemma {:induction false} SystemIsStrictlyLower(e: real -> real, x: seq<Token>, s: Mat)
    requires Fits(x, s)
    ensures StrictlyLower(System(e, x, s.rows), |x|)
  {
    hide At, Dot, System, GateAt;
    forall i: nat, j: nat | i < |x| && j < |x| && i < j + 1
      ensures At(System(e, x, s.rows), i, j) == 0.0
    {
      SystemAt(e, x, s, i, j);
    }
  }

  lemma {:induction false} ScaledQueryRow(e: real -> real, x: seq<Token>, s: Mat, i: nat, b: nat)
    requires Fits(x, s) && i < |x| && b < s.cols
    ensures At(Mul(ScaledQueries(e, x, s.rows), s), i, b) == e(GateAt(x, i)) * At(Mul(x[i].q, s), 0, b)
  {
    hide At, RunningGates, GateAt, Mul, Stack, RowScale, Transpose;
    var gates := Transpose(RunningGates(x));
    RowScaleMul(Stack(Queries(x), s.rows), Exp(e, gates), s, i, b);
    RowOfProduct(Queries(x), s.rows, s, i, b);
    TransposeAt(RunningGates(x), i, 0);
    RunningGatesAt(x, i);
  }

  lemma {:induction false} ScaledKeyRow(e: real -> real, x: seq<Token>, s: Mat, i: nat, b: nat)
    requires Fits(x, s) && i < |x| && b < s.cols
    ensures At(Mul(ScaledKeys(e, x, s.rows), s), i, b)
         == e(GateAt(x, i)) * (x[i].beta * At(Mul(x[i].k, s), 0, b))
  {
    hide At, RunningGates, GateAt, Mul, Stack, RowScale, Transpose;
    var gates := Transpose(RunningGates(x));
    var kBeta := RowScale(Stack(Keys(x), s.rows), BetaColumn(x));
    RowScaleMul(kBeta, Exp(e, gates), s, i, b);
    RowScaleMul(Stack(Keys(x), s.rows), BetaColumn(x), s, i, b);
    RowOfProduct(Keys(x), s.rows, s, i, b);
    TransposeAt(RunningGates(x), i, 0);
    RunningGatesAt(x, i);
  }

  lemma {:induction false} ScaledValueAt(x: seq<Token>, s: Mat, i: nat, b: nat)
    requires Fits(x, s) && i < |x| && b < s.cols
    ensures At(ScaledValues(x, s.cols), i, b) == At(x[i].v, 0, b) * x[i].beta
  {
    hide At, Stack, RowScale;
    RowScaleAt(Stack(Values(x), s.cols), BetaColumn(x), i, b);
    StackAt(Values(x), s.cols, i, b);
  }

  lemma {:induction false} CarryIsDecayed(e: real -> real, x: seq<Token>, s: Mat)
    requires Fits(x, s) && x != []
    ensures Carry(e, x, s.rows) == Transpose(Decayed(e, x, Gates(x), s.rows))
  {
    hide At, RunningGates, GateAt, Mul, Stack, RowScale, Transpose, Decayed, Gates;
    var dk, c := s.rows, |x|;
    var gc := RunningGates(x);
    var left := Make(c, 1, (i, j) => At(gc, 0, c - 1) - At(gc, 0, i));
    var rows := RowScale(Stack(Keys(x), dk), Exp(e, left));
    LastGate(x);
    RunningGatesAt(x, c - 1);
    forall j, a | 0 <= j < c && 0 <= a < dk
      ensures At(rows, j, a) == At(Decayed(e, x, Gates(x), dk), j, a)
    {
      RowScaleAt(Stack(Keys(x), dk), Exp(e, left), j, a);
      StackAt(Keys(x), dk, j, a);
      RunningGatesAt(x, j);
      DecayedAt(e, x, Gates(x), dk, j, a);
    }
    Equal(rows, Decayed(e, x, Gates(x), dk));
  }

  lemma {:induction false} LastGate(x: seq<Token>)
    requires x != []
    ensures GateAt(x, |x| - 1) == Gates(x)
  {
    assert x[..|x|] == x;
  }

  // ----- a row read out of a state

  /** How much of delta `j` a row `r` sees in a state decayed to `g`. */
  function Weight(e: real -> real, r: Mat, x: seq<Token>, s: Mat, g: real, j: int): real
    requires r.rows == 1 && r.cols == s.rows && Fits(x, s)
  {
    if 0 <= j < |x| then e(g - GateAt(x, j)) * Dot(r, x[j].k) else 0.0
  }

  lemma {:induction false} MulScale(a: Mat, b: Mat, c: real)
    requires a.cols == b.rows
    ensures Mul(a, Scale(b, c)) == Scale(Mul(a, b), c)
  {
    hide At, Sum, Mul, Scale;
    forall i, j | 0 <= i < a.rows && 0 <= j < b.cols
      ensures At(Mul(a, Scale(b, c)), i, j) == At(Scale(Mul(a, b), c), i, j)
    {
      var f: int -> real := l => At(a, i, l) * At(b, l, j);
      var h: int -> real := l => At(a, i, l) * At(Scale(b, c), l, j);
      forall l | 0 <= l < a.cols
        ensures h(l) == c * f(l)
      {
        ScaleAt(b, c, l, j);
        Regrouped'(At(a, i, l), At(b, l, j), c);
      }
      MulAt(a, b, i, j, f);
      MulAt(a, Scale(b, c), i, j, h);
      SumScale(a.cols, c, f, h);
      ScaleAt(Mul(a, b), c, i, j);
    }
    Equal(Mul(a, Scale(b, c)), Scale(Mul(a, b), c));
  }

  lemma {:induction false} Regrouped'(x: real, y: real, c: real)
    ensures x * (y * c) == c * (x * y)
  {
  }

  lemma {:induction false} WeightIs(e: real -> real, r: Mat, x: seq<Token>, s: Mat, g: real, j: nat)
    requires r.rows == 1 && r.cols == s.rows && Fits(x, s) && j < |x|
    ensures At(Mul(r, Transpose(Decayed(e, x, g, s.rows))), 0, j) == Weight(e, r, x, s, g, j)
  {
    hide At, Sum, Mul, Transpose, Decayed, GateAt, KeyAt;
    var w := Decayed(e, x, g, s.rows);
    var k := x[j].k;
    var f: int -> real := a => At(r, 0, a) * At(k, 0, a);
    var h: int -> real := a => At(r, 0, a) * At(Transpose(w), a, j);
    forall a | 0 <= a < s.rows
      ensures h(a) == e(g - GateAt(x, j)) * f(a)
    {
      TransposeAt(w, a, j);
      DecayedAt(e, x, g, s.rows, j, a);
      KeyAtIs(x, j, a);
      Regrouped''(At(r, 0, a), e(g - GateAt(x, j)), At(k, 0, a));
    }
    MulAt(r, Transpose(w), 0, j, h);
    forall a | 0 <= a < s.rows
      ensures f(a) == At(r, 0, a) * At(Transpose(k), a, 0)
    {
      TransposeAt(k, a, 0);
    }
    MulAt(r, Transpose(k), 0, 0, f);
    SumScale(s.rows, e(g - GateAt(x, j)), f, h);
  }

  lemma {:induction false} Regrouped''(x: real, c: real, y: real)
    ensures x * (c * y) == c * (x * y)
  {
  }

  lemma {:induction false} KeyAtIs(x: seq<Token>, j: nat, a: int)
    requires j < |x|
    ensures KeyAt(x, j, a) == At(x[j].k, 0, a)
  {
  }

  lemma {:induction false} RowOfClosed(e: real -> real, r: Mat, x: seq<Token>, s: Mat, g: real, b: nat, f: int -> real)
    requires r.rows == 1 && r.cols == s.rows && Fits(x, s) && b < s.cols
    requires forall j | 0 <= j < |x| :: f(j) == Weight(e, r, x, s, g, j) * At(DeltaMat(e, x, s), j, b)
    ensures At(Mul(r, Closed(e, x, s, g)), 0, b) == At(Mul(r, s), 0, b) * e(g) + Sum(|x|, f)
  {
    hide At, Sum, Mul, Transpose, Decayed, Weight, DeltaMat, Add, Scale;
    var wt, d := Transpose(Decayed(e, x, g, s.rows)), DeltaMat(e, x, s);
    MulAdd(r, Scale(s, e(g)), Mul(wt, d));
    MulScale(r, s, e(g));
    MulAssoc(r, wt, d);
    AddAt(Scale(Mul(r, s), e(g)), Mul(Mul(r, wt), d), 0, b);
    ScaleAt(Mul(r, s), e(g), 0, b);
    forall j: int | 0 <= j < |x|
      ensures f(j) == At(Mul(r, wt), 0, j) * At(d, j, b)
    {
      WeightIs(e, r, x, s, g, j);
    }
    MulAt(Mul(r, wt), d, 0, b, f);
  }

  // ----- one chunk

  /** A prefix of the run has the gates, keys and deltas of the run. */
  lemma {:induction false} PrefixAgrees(e: real -> real, x: seq<Token>, s: Mat, r: Mat, g: real, n: nat, j: nat, b: nat)
    requires Fits(x, s) && r.rows == 1 && r.cols == s.rows && j < n <= |x| && b < s.cols
    ensures Weight(e, r, x[..n], s, g, j) == e(g - GateAt(x, j)) * Dot(r, x[j].k)
    ensures At(DeltaMat(e, x[..n], s), j, b) == At(DeltaMat(e, x, s), j, b)
  {
    hide At, Dot, Delta, State, Stack, Gates;
    var y := x[..n];
    assert y[..j + 1] == x[..j + 1] && y[..j] == x[..j];
    OutAt(e, x, s, j);
    OutAt(e, y, s, j);
    StackAt(Deltas(e, x, s), s.cols, j, b);
    StackAt(Deltas(e, y, s), s.cols, j, b);
  }

  /** Entry `b` of what row `r` reads out of the state after `n` tokens, decayed to `g`. */
  lemma {:induction false} ReadPrefix(e: real -> real, x: seq<Token>, s: Mat, r: Mat, g: real, n: nat, b: nat,
        f: int -> real)
    requires Fits(x, s) && r.rows == 1 && r.cols == s.rows && n <= |x| && b < s.cols
    requires forall j: nat | j < n ::
      f(j) == (e(g - GateAt(x, j)) * Dot(r, x[j].k)) * At(DeltaMat(e, x, s), j, b)
    ensures At(Mul(r, Closed(e, x[..n], s, g)), 0, b) == At(Mul(r, s), 0, b) * e(g) + Sum(n, f)
  {
    hide At, Dot, DeltaMat, Closed, Mul, Weight, GateAt, Sum;
    forall j | 0 <= j < n
      ensures f(j) == Weight(e, r, x[..n], s, g, j) * At(DeltaMat(e, x[..n], s), j, b)
    {
      PrefixAgrees(e, x, s, r, g, n, j, b);
    }
    RowOfClosed(e, r, x[..n], s, g, b, f);
  }

  /** Delta `i` of the recurrence, as the row of the system it solves. */
  lemma {:induction false} DeltaRow(e: real -> real, x: seq<Token>, s: Mat, i: nat, b: nat, f: int -> real)
    requires Fits(x, s) && Exponential(e) && i < |x| && b < s.cols
    requires forall j: nat | j < i ::
      f(j) == (e(GateAt(x, i) - GateAt(x, j)) * Dot(x[i].k, x[j].k)) * At(DeltaMat(e, x, s), j, b)
    ensures At(DeltaMat(e, x, s), i, b)
         == (At(x[i].v, 0, b) - (At(Mul(x[i].k, s), 0, b) * e(GateAt(x, i)) + Sum(i, f))) * x[i].beta
  {
    hide At, Dot, DeltaMat, Closed, Mul, Exponential, Sum, GateAt, Gates, Scale, Sub, State;
    var y, t := x[..i], x[i];
    var before := Scale(State(e, y, s), e(t.g));
    var recalled := Mul(t.k, before);
    DeltaAt(e, x, s, i, b);
    ScaleAt(Sub(t.v, recalled), t.beta, 0, b);
    SubAt(t.v, recalled, 0, b);
    StateIsClosed(e, y, s);
    ClosedDecays(e, y, s, Gates(y), t.g);
    GateStep(x, i);
    ReadPrefix(e, x, s, t.k, GateAt(x, i), i, b, f);
  }

  lemma {:induction false} DeltaAt(e: real -> real, x: seq<Token>, s: Mat, i: nat, b: nat)
    requires Fits(x, s) && i < |x| && b < s.cols
    ensures At(DeltaMat(e, x, s), i, b) == At(Delta(e, x[i], State(e, x[..i], s)), 0, b)
  {
    hide At, Delta, State, Stack;
    OutAt(e, x, s, i);
    StackAt(Deltas(e, x, s), s.cols, i, b);
  }

  lemma {:induction false} GateStep(x: seq<Token>, i: nat)
    requires i < |x|
    ensures GateAt(x, i) == Gates(x[..i]) + x[i].g
  {
    var y := x[..i + 1];
    assert y[..|y| - 1] == x[..i];
  }

  /** The right-hand side of the system: what each token would write into the undecayed start. */
  function Wanted(e: real -> real, x: seq<Token>, s: Mat): (m: Mat)
    ensures m.rows == |x| && m.cols == s.cols
  {
    Sub(ScaledValues(x, s.cols), Mul(ScaledKeys(e, x, s.rows), s))
  }

  /** What delta `i` sees of the deltas before it. */
  function Seen(e: real -> real, x: seq<Token>, s: Mat, i: nat, b: nat, j: int): real
    requires Fits(x, s) && i < |x|
  {
    if 0 <= j < i then
      (e(GateAt(x, i) - GateAt(x, j)) * Dot(x[i].k, x[j].k)) * At(DeltaMat(e, x, s), j, b)
    else 0.0
  }

  lemma {:induction false} SystemTerm(e: real -> real, x: seq<Token>, s: Mat, i: nat, b: nat, j: nat)
    requires Fits(x, s) && i < |x| && j < |x|
    ensures At(System(e, x, s.rows), i, j) * At(DeltaMat(e, x, s), j, b) == -x[i].beta * Seen(e, x, s, i, b, j)
  {
    hide At, Dot, DeltaMat, GateAt, System;
    SystemAt(e, x, s, i, j);
    if j < i {
      Signed(x[i].beta, Dot(x[i].k, x[j].k), e(GateAt(x, i) - GateAt(x, j)), At(DeltaMat(e, x, s), j, b));
    }
  }

  lemma {:induction false} SystemRow(e: real -> real, x: seq<Token>, s: Mat, i: nat, b: nat)
    requires Fits(x, s) && Exponential(e) && i < |x| && b < s.cols
    ensures At(DeltaMat(e, x, s), i, b) - At(Mul(System(e, x, s.rows), DeltaMat(e, x, s)), i, b)
         == At(Wanted(e, x, s), i, b)
  {
    hide At, Dot, DeltaMat, Mul, Exponential, Sum, GateAt, Sub, System, ScaledKeys, ScaledValues, Seen;
    var d, a, t := DeltaMat(e, x, s), System(e, x, s.rows), x[i];
    var f: int -> real := j => Seen(e, x, s, i, b, j);
    SeenIs(e, x, s, i, b);
    DeltaRow(e, x, s, i, b, f);
    var h: int -> real := j => At(a, i, j) * At(d, j, b);
    forall j: nat | j < |x|
      ensures h(j) == -t.beta * f(j)
    {
      SystemTerm(e, x, s, i, b, j);
    }
    MulAt(a, d, i, b, h);
    SumScale(|x|, -t.beta, f, h);
    MaskedSum(|x|, i, f, f);
    SubAt(ScaledValues(x, s.cols), Mul(ScaledKeys(e, x, s.rows), s), i, b);
    ScaledKeyRow(e, x, s, i, b);
    ScaledValueAt(x, s, i, b);
    Balance(At(d, i, b), At(t.v, 0, b), At(Mul(t.k, s), 0, b), e(GateAt(x, i)), Sum(i, f), t.beta);
  }

  lemma {:induction false} SeenIs(e: real -> real, x: seq<Token>, s: Mat, i: nat, b: nat)
    requires Fits(x, s) && i < |x|
    ensures forall j: nat | j < i ::
      Seen(e, x, s, i, b, j)
      == (e(GateAt(x, i) - GateAt(x, j)) * Dot(x[i].k, x[j].k)) * At(DeltaMat(e, x, s), j, b)
    ensures forall j: int | i <= j :: Seen(e, x, s, i, b, j) == 0.0
  {
    hide At, Dot, DeltaMat, GateAt;
  }

  lemma {:induction false} Signed(beta: real, dot: real, decay: real, d: real)
    ensures -(beta * dot * decay) * d == -beta * ((decay * dot) * d)
  {
  }

  lemma {:induction false} Balance(d: real, v: real, k: real, g: real, sum: real, beta: real)
    requires d == (v - (k * g + sum)) * beta
    ensures d - (-beta * sum) == v * beta - g * (beta * k)
  {
  }

  lemma {:induction false} DeltasSolveTheSystem(e: real -> real, x: seq<Token>, s: Mat)
    requires Fits(x, s) && Exponential(e)
    ensures Mul(UnitMinus(System(e, x, s.rows)), DeltaMat(e, x, s)) == Wanted(e, x, s)
  {
    hide At, DeltaMat, Mul, Exponential, System, Wanted, Sub, Id;
    var d, a := DeltaMat(e, x, s), System(e, x, s.rows);
    SubMul(Id(|x|), a, d);
    IdMul(d);
    forall i, b | 0 <= i < |x| && 0 <= b < s.cols
      ensures At(Sub(d, Mul(a, d)), i, b) == At(Wanted(e, x, s), i, b)
    {
      SubAt(d, Mul(a, d), i, b);
      SystemRow(e, x, s, i, b);
    }
    Equal(Sub(d, Mul(a, d)), Wanted(e, x, s));
  }

  /** What the scan calls `v_new` is exactly what the recurrence writes, token by token. */
  lemma {:induction false} NewValuesAreDeltas(e: real -> real, x: seq<Token>, s: Mat, inv: Mat)
    requires Fits(x, s) && Exponential(e) && Inverse(UnitMinus(System(e, x, s.rows)), inv)
    ensures Sub(Mul(inv, ScaledValues(x, s.cols)), Mul(Mul(inv, ScaledKeys(e, x, s.rows)), s)) == DeltaMat(e, x, s)
  {
    hide At, DeltaMat, Mul, Exponential, System, Sub, Id, ScaledKeys, ScaledValues, UnitMinus;
    var u, d := UnitMinus(System(e, x, s.rows)), DeltaMat(e, x, s);
    MulAssoc(inv, ScaledKeys(e, x, s.rows), s);
    MulSub(inv, ScaledValues(x, s.cols), Mul(ScaledKeys(e, x, s.rows), s));
    DeltasSolveTheSystem(e, x, s);
    MulAssoc(inv, u, d);
    IdMul(d);
  }

  lemma {:induction false} OutputRow(e: real -> real, x: seq<Token>, s: Mat, i: nat, b: nat)
    requires Fits(x, s) && Exponential(e) && i < |x| && b < s.cols
    ensures At(Mul(ScaledQueries(e, x, s.rows), s), i, b) + At(Mul(Attention(e, x, s.rows), DeltaMat(e, x, s)), i, b)
         == At(Mul(x[i].q, State(e, x[..i + 1], s)), 0, b)
  {
    hide At, Dot, DeltaMat, Mul, Exponential, Sum, GateAt, Attention, ScaledQueries, State, Closed;
    var d, a, t := DeltaMat(e, x, s), Attention(e, x, s.rows), x[i];
    var f: int -> real := j =>
      if 0 <= j <= i then (e(GateAt(x, i) - GateAt(x, j)) * Dot(t.q, x[j].k)) * At(d, j, b) else 0.0;
    StateIsClosed(e, x[..i + 1], s);
    GateIs(x, i);
    ReadPrefix(e, x, s, t.q, GateAt(x, i), i + 1, b, f);
    forall j: nat | j < |x|
      ensures f(j) == At(a, i, j) * At(d, j, b)
    {
      AttentionAt(e, x, s, i, j);
    }
    MulAt(a, d, i, b, f);
    MaskedSum(|x|, i + 1, f, f);
    ScaledQueryRow(e, x, s, i, b);
  }

  lemma {:induction false} GateIs(x: seq<Token>, i: nat)
    requires i < |x|
    ensures GateAt(x, i) == Gates(x[..i + 1])
  {
  }

  lemma {:induction false} OutputsOfAChunk(e: real -> real, x: seq<Token>, s: Mat)
    requires Fits(x, s) && Exponential(e)
    ensures Add(Mul(ScaledQueries(e, x, s.rows), s), Mul(Attention(e, x, s.rows), DeltaMat(e, x, s)))
         == Stack(Outs(e, x, s), s.cols)
  {
    hide At, DeltaMat, Mul, Exponential, Attention, ScaledQueries, State, Add, Stack;
    var left, right := Mul(ScaledQueries(e, x, s.rows), s), Mul(Attention(e, x, s.rows), DeltaMat(e, x, s));
    forall i, b | 0 <= i < |x| && 0 <= b < s.cols
      ensures At(Add(left, right), i, b) == At(Stack(Outs(e, x, s), s.cols), i, b)
    {
      AddAt(left, right, i, b);
      OutputRow(e, x, s, i, b);
      OutAt(e, x, s, i);
      StackAt(Outs(e, x, s), s.cols, i, b);
    }
    Equal(Add(left, right), Stack(Outs(e, x, s), s.cols));
  }

  method ScanChunk(e: real -> real, x: seq<Token>, s: Mat) returns (out: Mat, next: Mat)
    requires Fits(x, s) && Exponential(e) && x != []
    ensures out == Stack(Outs(e, x, s), s.cols)
    ensures next == State(e, x, s)
  {
    hide At, Mul, Exponential, System, Attention, ScaledQueries, ScaledKeys, ScaledValues, Carry, State, Stack,
      DeltaMat, UnitMinus, Sub, Add, RunningGates, Decayed;
    var dk, dv, c := s.rows, s.cols, |x|;
    SystemIsStrictlyLower(e, x, s);
    var inv := InvertUnitLower(System(e, x, dk), c);
    var vT := Mul(inv, ScaledValues(x, dv));
    var kCumDecay := Mul(inv, ScaledKeys(e, x, dk));
    var vNew := Sub(vT, Mul(kCumDecay, s));
    NewValuesAreDeltas(e, x, s, inv);
    out := Add(Mul(ScaledQueries(e, x, dk), s), Mul(Attention(e, x, dk), vNew));
    OutputsOfAChunk(e, x, s);
    next := Add(Scale(s, e(At(RunningGates(x), 0, c - 1))), Mul(Carry(e, x, dk), vNew));
    RunningGatesAt(x, c - 1);
    LastGate(x);
    CarryIsDecayed(e, x, s);
    StateIsClosed(e, x, s);
  }
}
