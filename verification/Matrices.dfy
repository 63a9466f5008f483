/** Matrices of exact reals, their products and the laws the scan needs. */
module Matrices {
  datatype RawMat = RawMat(rows: nat, cols: nat, data: seq<seq<real>>)

  predicate Shaped(m: RawMat) {
    |m.data| == m.rows && forall i | 0 <= i < m.rows :: |m.data[i]| == m.cols
  }

  type Mat = m: RawMat | Shaped(m) witness RawMat(0, 0, [])

  /** The entry, or zero outside the matrix. */
  function At(m: Mat, i: int, j: int): real {
    if 0 <= i < m.rows && 0 <= j < m.cols then m.data[i][j] else 0.0
  }

  function Make(rows: nat, cols: nat, f: (int, int) -> real): (m: Mat)
    ensures m.rows == rows && m.cols == cols
    ensures forall i, j | 0 <= i < rows && 0 <= j < cols :: At(m, i, j) == f(i, j)
  {
    RawMat(rows, cols, seq(rows, i => seq(cols, j => f(i, j))))
  }

  lemma {:induction false} Equal(a: Mat, b: Mat)
    requires a.rows == b.rows && a.cols == b.cols
    requires forall i, j | 0 <= i < a.rows && 0 <= j < a.cols :: At(a, i, j) == At(b, i, j)
    ensures a == b
  {
    forall i | 0 <= i < a.rows
      ensures a.data[i] == b.data[i]
    {
      forall j | 0 <= j < a.cols
        ensures a.data[i][j] == b.data[i][j]
      {
        assert At(a, i, j) == At(b, i, j);
      }
    }
  }

  function Sum(n: nat, f: int -> real): real {
    if n == 0 then 0.0 else Sum(n - 1, f) + f(n - 1)
  }

  function Mul(a: Mat, b: Mat): (m: Mat)
    requires a.cols == b.rows
    ensures m.rows == a.rows && m.cols == b.cols
  {
    Make(a.rows, b.cols, (i, j) => Sum(a.cols, l => At(a, i, l) * At(b, l, j)))
  }

  function Add(a: Mat, b: Mat): (m: Mat)
    requires a.rows == b.rows && a.cols == b.cols
    ensures m.rows == a.rows && m.cols == a.cols
  {
    Make(a.rows, a.cols, (i, j) => At(a, i, j) + At(b, i, j))
  }

  function Sub(a: Mat, b: Mat): (m: Mat)
    requires a.rows == b.rows && a.cols == b.cols
    ensures m.rows == a.rows && m.cols == a.cols
  {
    Make(a.rows, a.cols, (i, j) => At(a, i, j) - At(b, i, j))
  }

  function Zero(rows: nat, cols: nat): (m: Mat)
    ensures m.rows == rows && m.cols == cols
  {
    Make(rows, cols, (i, j) => 0.0)
  }

  function Id(n: nat): (m: Mat)
    ensures m.rows == n && m.cols == n
  {
    Make(n, n, (i, j) => if i == j then 1.0 else 0.0)
  }

  /** The `h` by `w` part of `a` that starts at row `r` and column `c`. */
  function Block(a: Mat, r: nat, c: nat, h: nat, w: nat): (m: Mat)
    requires r + h <= a.rows && c + w <= a.cols
    ensures m.rows == h && m.cols == w
  {
    Make(h, w, (i, j) => At(a, r + i, c + j))
  }

  // ----- sums

  lemma {:induction false} SumSame(n: nat, f: int -> real, g: int -> real)
    requires forall l | 0 <= l < n :: f(l) == g(l)
    ensures Sum(n, f) == Sum(n, g)
  {
    if n > 0 {
      SumSame(n - 1, f, g);
    }
  }

  lemma {:induction false} SumZero(n: nat, f: int -> real)
    requires forall l | 0 <= l < n :: f(l) == 0.0
    ensures Sum(n, f) == 0.0
  {
    if n > 0 {
      SumZero(n - 1, f);
    }
  }

  lemma {:induction false} SumAdd(n: nat, f: int -> real, g: int -> real, h: int -> real)
    requires forall l | 0 <= l < n :: h(l) == f(l) + g(l)
    ensures Sum(n, h) == Sum(n, f) + Sum(n, g)
  {
    if n > 0 {
      SumAdd(n - 1, f, g, h);
    }
  }

  lemma {:induction false} SumScale(n: nat, c: real, f: int -> real, h: int -> real)
    requires forall l | 0 <= l < n :: h(l) == c * f(l)
    ensures Sum(n, h) == c * Sum(n, f)
  {
    if n > 0 {
      SumScale(n - 1, c, f, h);
    }
  }

  /** One term of a sum whose other terms are zero. */
  lemma {:induction false} SumOne(n: nat, k: nat, f: int -> real)
    requires k < n && forall l | 0 <= l < n && l != k :: f(l) == 0.0
    ensures Sum(n, f) == f(k)
  {
    if k == n - 1 {
      SumZero(n - 1, f);
    } else {
      SumOne(n - 1, k, f);
    }
  }

  lemma {:induction false} SumSplit(s: nat, t: nat, f: int -> real, g: int -> real)
    requires forall l | 0 <= l < t :: g(l) == f(s + l)
    ensures Sum(s + t, f) == Sum(s, f) + Sum(t, g)
  {
    if t > 0 {
      SumSplit(s, t - 1, f, g);
    }
  }

  lemma {:induction false} SumSwap(m: nat, n: nat, f: (int, int) -> real)
    ensures Sum(m, i => Sum(n, j => f(i, j))) == Sum(n, j => Sum(m, i => f(i, j)))
  {
    var columns: int -> real := j => Sum(m, i => f(i, j));
    if m == 0 {
      SumZero(n, columns);
    } else {
      SumSwap(m - 1, n, f);
      var shorter: int -> real := j => Sum(m - 1, i => f(i, j));
      var last: int -> real := j => f(m - 1, j);
      SumAdd(n, shorter, last, columns);
    }
  }

  // ----- products

  lemma {:induction false} MulAt(a: Mat, b: Mat, i: int, j: int, f: int -> real)
    requires a.cols == b.rows && 0 <= i < a.rows && 0 <= j < b.cols
    requires forall l | 0 <= l < a.cols :: f(l) == At(a, i, l) * At(b, l, j)
    ensures At(Mul(a, b), i, j) == Sum(a.cols, f)
  {
    SumSame(a.cols, l => At(a, i, l) * At(b, l, j), f);
  }

  lemma {:induction false} IdMul(a: Mat)
    ensures Mul(Id(a.rows), a) == a
  {
    forall i, j | 0 <= i < a.rows && 0 <= j < a.cols
      ensures At(Mul(Id(a.rows), a), i, j) == At(a, i, j)
    {
      var f: int -> real := l => if l == i then At(a, i, j) else 0.0;
      MulAt(Id(a.rows), a, i, j, f);
      SumOne(a.rows, i, f);
    }
    Equal(Mul(Id(a.rows), a), a);
  }

  lemma {:induction false} MulId(a: Mat)
    ensures Mul(a, Id(a.cols)) == a
  {
    forall i, j | 0 <= i < a.rows && 0 <= j < a.cols
      ensures At(Mul(a, Id(a.cols)), i, j) == At(a, i, j)
    {
      var f: int -> real := l => if l == j then At(a, i, j) else 0.0;
      MulAt(a, Id(a.cols), i, j, f);
      SumOne(a.cols, j, f);
    }
    Equal(Mul(a, Id(a.cols)), a);
  }

  lemma {:induction false} AddAt(a: Mat, b: Mat, i: int, j: int)
    requires a.rows == b.rows && a.cols == b.cols && 0 <= i < a.rows && 0 <= j < a.cols
    ensures At(Add(a, b), i, j) == At(a, i, j) + At(b, i, j)
  {
    hide At;
  }

  lemma {:induction false} SubAt(a: Mat, b: Mat, i: int, j: int)
    requires a.rows == b.rows && a.cols == b.cols && 0 <= i < a.rows && 0 <= j < a.cols
    ensures At(Sub(a, b), i, j) == At(a, i, j) - At(b, i, j)
  {
    hide At;
  }

  lemma {:induction false} AddMul(a: Mat, b: Mat, c: Mat)
    requires a.rows == b.rows && a.cols == b.cols && a.cols == c.rows
    ensures Mul(Add(a, b), c) == Add(Mul(a, c), Mul(b, c))
  {
    hide Make, Sum, Mul, At, Add;
    forall i, j | 0 <= i < a.rows && 0 <= j < c.cols
      ensures At(Mul(Add(a, b), c), i, j) == At(Add(Mul(a, c), Mul(b, c)), i, j)
    {
      var f: int -> real := l => At(a, i, l) * At(c, l, j);
      var g: int -> real := l => At(b, i, l) * At(c, l, j);
      var h: int -> real := l => At(Add(a, b), i, l) * At(c, l, j);
      forall l | 0 <= l < a.cols
        ensures h(l) == f(l) + g(l)
      {
        AddAt(a, b, i, l);
      }
      MulAt(Add(a, b), c, i, j, h);
      MulAt(a, c, i, j, f);
      MulAt(b, c, i, j, g);
      SumAdd(a.cols, f, g, h);
      AddAt(Mul(a, c), Mul(b, c), i, j);
    }
    Equal(Mul(Add(a, b), c), Add(Mul(a, c), Mul(b, c)));
  }

  lemma {:induction false} SubMul(a: Mat, b: Mat, c: Mat)
    requires a.rows == b.rows && a.cols == b.cols && a.cols == c.rows
    ensures Mul(Sub(a, b), c) == Sub(Mul(a, c), Mul(b, c))
  {
    hide Make, Sum, Mul, At, Sub;
    forall i, j | 0 <= i < a.rows && 0 <= j < c.cols
      ensures At(Mul(Sub(a, b), c), i, j) == At(Sub(Mul(a, c), Mul(b, c)), i, j)
    {
      var f: int -> real := l => At(a, i, l) * At(c, l, j);
      var g: int -> real := l => At(b, i, l) * At(c, l, j);
      var h: int -> real := l => At(Sub(a, b), i, l) * At(c, l, j);
      forall l | 0 <= l < a.cols
        ensures h(l) == f(l) - g(l)
      {
        SubAt(a, b, i, l);
      }
      MulAt(Sub(a, b), c, i, j, h);
      MulAt(a, c, i, j, f);
      MulAt(b, c, i, j, g);
      SumAdd(a.cols, h, g, f);
      SubAt(Mul(a, c), Mul(b, c), i, j);
    }
    Equal(Mul(Sub(a, b), c), Sub(Mul(a, c), Mul(b, c)));
  }

  lemma {:induction false} MulAdd(a: Mat, b: Mat, c: Mat)
    requires b.rows == c.rows && b.cols == c.cols && a.cols == b.rows
    ensures Mul(a, Add(b, c)) == Add(Mul(a, b), Mul(a, c))
  {
    hide Make, Sum, Mul, At, Add;
    forall i, j | 0 <= i < a.rows && 0 <= j < b.cols
      ensures At(Mul(a, Add(b, c)), i, j) == At(Add(Mul(a, b), Mul(a, c)), i, j)
    {
      var f: int -> real := l => At(a, i, l) * At(b, l, j);
      var g: int -> real := l => At(a, i, l) * At(c, l, j);
      var h: int -> real := l => At(a, i, l) * At(Add(b, c), l, j);
      forall l | 0 <= l < a.cols
        ensures h(l) == f(l) + g(l)
      {
        AddAt(b, c, l, j);
      }
      MulAt(a, Add(b, c), i, j, h);
      MulAt(a, b, i, j, f);
      MulAt(a, c, i, j, g);
      SumAdd(a.cols, f, g, h);
      AddAt(Mul(a, b), Mul(a, c), i, j);
    }
    Equal(Mul(a, Add(b, c)), Add(Mul(a, b), Mul(a, c)));
  }

  lemma {:induction false} MulSub(a: Mat, b: Mat, c: Mat)
    requires b.rows == c.rows && b.cols == c.cols && a.cols == b.rows
    ensures Mul(a, Sub(b, c)) == Sub(Mul(a, b), Mul(a, c))
  {
    hide Make, Sum, Mul, At, Sub;
    forall i, j | 0 <= i < a.rows && 0 <= j < b.cols
      ensures At(Mul(a, Sub(b, c)), i, j) == At(Sub(Mul(a, b), Mul(a, c)), i, j)
    {
      var f: int -> real := l => At(a, i, l) * At(b, l, j);
      var g: int -> real := l => At(a, i, l) * At(c, l, j);
      var h: int -> real := l => At(a, i, l) * At(Sub(b, c), l, j);
      forall l | 0 <= l < a.cols
        ensures h(l) == f(l) - g(l)
      {
        SubAt(b, c, l, j);
      }
      MulAt(a, Sub(b, c), i, j, h);
      MulAt(a, b, i, j, f);
      MulAt(a, c, i, j, g);
      SumAdd(a.cols, h, g, f);
      SubAt(Mul(a, b), Mul(a, c), i, j);
    }
    Equal(Mul(a, Sub(b, c)), Sub(Mul(a, b), Mul(a, c)));
  }

  lemma {:induction false} MulAssoc(a: Mat, b: Mat, c: Mat)
    requires a.cols == b.rows && b.cols == c.rows
    ensures Mul(Mul(a, b), c) == Mul(a, Mul(b, c))
  {
    forall i, j | 0 <= i < a.rows && 0 <= j < c.cols
      ensures At(Mul(Mul(a, b), c), i, j) == At(Mul(a, Mul(b, c)), i, j)
    {
      MulAssocAt(a, b, c, i, j);
    }
    Equal(Mul(Mul(a, b), c), Mul(a, Mul(b, c)));
  }

  lemma {:induction false} MulAssocAt(a: Mat, b: Mat, c: Mat, i: int, j: int)
    requires a.cols == b.rows && b.cols == c.rows && 0 <= i < a.rows && 0 <= j < c.cols
    ensures At(Mul(Mul(a, b), c), i, j) == At(Mul(a, Mul(b, c)), i, j)
  {
    hide Make, Sum, Mul, At;
    var m, n := b.rows, b.cols;
    var t: (int, int) -> real := (l, k) => At(a, i, l) * At(b, l, k) * At(c, k, j);
    forall k | 0 <= k < n
      ensures Sum(m, l => t(l, k)) == At(Mul(a, b), i, k) * At(c, k, j)
    {
      var f: int -> real := l => At(a, i, l) * At(b, l, k);
      MulAt(a, b, i, k, f);
      SumScale(m, At(c, k, j), f, l => t(l, k));
    }
    forall l | 0 <= l < m
      ensures Sum(n, k => t(l, k)) == At(a, i, l) * At(Mul(b, c), l, j)
    {
      var f: int -> real := k => At(b, l, k) * At(c, k, j);
      MulAt(b, c, l, j, f);
      SumScale(n, At(a, i, l), f, k => t(l, k));
    }
    MulAt(Mul(a, b), c, i, j, k => Sum(m, l => t(l, k)));
    MulAt(a, Mul(b, c), i, j, l => Sum(n, k => t(l, k)));
    SumSwap(m, n, t);
  }
}
