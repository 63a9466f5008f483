/** The gated delta rule of one head: the token-by-token recurrence and what a chunk of it adds up to. */
module DeltaRule {
  import opened Matrices
  import opened TriangularInverse

  /** The rows one token contributes; `q`, `k` and `v` are matrices of one row. */
  datatype Token = Token(q: Mat, k: Mat, v: Mat, g: real, beta: real)

  predicate TokenFits(t: Token, dk: nat, dv: nat) {
    && t.q.rows == 1 && t.q.cols == dk
    && t.k.rows == 1 && t.k.cols == dk
    && t.v.rows == 1 && t.v.cols == dv
  }

  predicate Fits(x: seq<Token>, s: Mat) {
    forall i | 0 <= i < |x| :: TokenFits(x[i], s.rows, s.cols)
  }

  /** All the exponential is used for: it turns sums into products. */
  ghost predicate Exponential(e: real -> real) {
    e(0.0) == 1.0 && forall x, y :: e(x + y) == e(x) * e(y)
  }

  lemma {:induction false} ExpSum(e: real -> real, x: real, y: real, z: real)
    requires Exponential(e) && z == x + y
    ensures e(z) == e(x) * e(y)
  {
  }

  function Scale(a: Mat, r: real): (m: Mat)
    ensures m.rows == a.rows && m.cols == a.cols
  {
    Make(a.rows, a.cols, (i, j) => At(a, i, j) * r)
  }

  function Transpose(a: Mat): (m: Mat)
    ensures m.rows == a.cols && m.cols == a.rows
  {
    Make(a.cols, a.rows, (i, j) => At(a, j, i))
  }

  lemma {:induction false} ScaleAt(a: Mat, r: real, i: int, j: int)
    requires 0 <= i < a.rows && 0 <= j < a.cols
    ensures At(Scale(a, r), i, j) == At(a, i, j) * r
  {
    hide At;
  }

  lemma {:induction false} TransposeAt(a: Mat, i: int, j: int)
    requires 0 <= i < a.cols && 0 <= j < a.rows
    ensures At(Transpose(a), i, j) == At(a, j, i)
  {
    hide At;
  }

  /** One matrix from rows of width `w`. */
  function Stack(rows: seq<Mat>, w: nat): (m: Mat)
    ensures m.rows == |rows| && m.cols == w
  {
    Make(|rows|, w, (i, j) => if 0 <= i < |rows| then At(rows[i], 0, j) else 0.0)
  }

  // ----- the recurrence

  /** What the token writes into the state: its value less what the decayed state recalls. */
  function Delta(e: real -> real, t: Token, s: Mat): (d: Mat)
    requires TokenFits(t, s.rows, s.cols)
    ensures d.rows == 1 && d.cols == s.cols
  {
    Scale(Sub(t.v, Mul(t.k, Scale(s, e(t.g)))), t.beta)
  }

  function Next(e: real -> real, t: Token, s: Mat): (m: Mat)
    requires TokenFits(t, s.rows, s.cols)
    ensures m.rows == s.rows && m.cols == s.cols
  {
    Add(Scale(s, e(t.g)), Mul(Transpose(t.k), Delta(e, t, s)))
  }

  function State(e: real -> real, x: seq<Token>, s: Mat): (m: Mat)
    requires Fits(x, s)
    ensures m.rows == s.rows && m.cols == s.cols
  {
    if x == [] then s else Next(e, x[|x| - 1], State(e, x[..|x| - 1], s))
  }

  function Outs(e: real -> real, x: seq<Token>, s: Mat): (outs: seq<Mat>)
    requires Fits(x, s)
    ensures |outs| == |x|
  {
    if x == [] then [] else
      Outs(e, x[..|x| - 1], s) + [Mul(x[|x| - 1].q, State(e, x, s))]
  }

  function Deltas(e: real -> real, x: seq<Token>, s: Mat): (ds: seq<Mat>)
    requires Fits(x, s)
    ensures |ds| == |x|
  {
    if x == [] then [] else
      Deltas(e, x[..|x| - 1], s) + [Delta(e, x[|x| - 1], State(e, x[..|x| - 1], s))]
  }

  lemma {:induction false} OutAt(e: real -> real, x: seq<Token>, s: Mat, i: nat)
    requires Fits(x, s) && i < |x|
    ensures Outs(e, x, s)[i] == Mul(x[i].q, State(e, x[..i + 1], s))
    ensures Deltas(e, x, s)[i] == Delta(e, x[i], State(e, x[..i], s))
  {
    hide Mul, Delta, Next;
    var y := x[..|x| - 1];
    if i < |y| {
      OutAt(e, y, s, i);
      assert x[..i + 1] == y[..i + 1] && x[..i] == y[..i];
    } else {
      assert x[..i + 1] == x;
    }
  }

  /** Tokens in two pieces give what the whole gives, the second piece starting from the first one's state. */
  lemma {:induction false} PiecesOfARun(e: real -> real, x: seq<Token>, y: seq<Token>, s: Mat)
    requires Fits(x, s) && Fits(y, s)
    ensures State(e, x + y, s) == State(e, y, State(e, x, s))
    ensures Outs(e, x + y, s) == Outs(e, x, s) + Outs(e, y, State(e, x, s))
    decreases |y|
  {
    hide Mul, Next;
    if y == [] {
      assert x + y == x;
    } else {
      var y' := y[..|y| - 1];
      PiecesOfARun(e, x, y', s);
      assert (x + y)[..|x + y| - 1] == x + y';
    }
  }

  /** Rows of zeros leave the state alone. */
  lemma {:induction false} ZeroToken(e: real -> real, t: Token, s: Mat)
    requires TokenFits(t, s.rows, s.cols) && Exponential(e) && t.g == 0.0 && t.beta == 0.0
    ensures Next(e, t, s) == s
  {
    hide At;
    MulZero(Transpose(t.k), Delta(e, t, s));
    Equal(Delta(e, t, s), Zero(1, s.cols));
    Equal(Next(e, t, s), s);
  }

  lemma {:induction false} ZeroTokens(e: real -> real, x: seq<Token>, s: Mat)
    requires Fits(x, s) && Exponential(e) && forall i | 0 <= i < |x| :: x[i].g == 0.0 && x[i].beta == 0.0
    ensures State(e, x, s) == s
  {
    hide Next, Exponential;
    if x != [] {
      ZeroTokens(e, x[..|x| - 1], s);
      ZeroToken(e, x[|x| - 1], s);
    }
  }

  // ----- the state as a sum over the tokens

  function Gates(x: seq<Token>): real {
    if x == [] then 0.0 else Gates(x[..|x| - 1]) + x[|x| - 1].g
  }

  function GateAt(x: seq<Token>, j: int): real {
    if 0 <= j < |x| then Gates(x[..j + 1]) else 0.0
  }

  function KeyAt(x: seq<Token>, j: int, a: int): real {
    if 0 <= j < |x| then At(x[j].k, 0, a) else 0.0
  }

  /** Row `j` is the key of token `j` after the decay from `j` to a total gate of `g`. */
  function Decayed(e: real -> real, x: seq<Token>, g: real, dk: nat): (m: Mat)
    ensures m.rows == |x| && m.cols == dk
  {
    Make(|x|, dk, (j, a) => e(g - GateAt(x, j)) * KeyAt(x, j, a))
  }

  lemma {:induction false} DecayedAt(e: real -> real, x: seq<Token>, g: real, dk: nat, j: int, a: int)
    requires 0 <= j < |x| && 0 <= a < dk
    ensures At(Decayed(e, x, g, dk), j, a) == e(g - GateAt(x, j)) * KeyAt(x, j, a)
  {
    hide At, GateAt, KeyAt;
  }

  function DeltaMat(e: real -> real, x: seq<Token>, s: Mat): (m: Mat)
    requires Fits(x, s)
    ensures m.rows == |x| && m.cols == s.cols
  {
    Stack(Deltas(e, x, s), s.cols)
  }

  /** The state after `x`, as if every token had written straight into a state decayed to `g`. */
  function Closed(e: real -> real, x: seq<Token>, s: Mat, g: real): (m: Mat)
    requires Fits(x, s)
    ensures m.rows == s.rows && m.cols == s.cols
  {
    Add(Scale(s, e(g)), Mul(Transpose(Decayed(e, x, g, s.rows)), DeltaMat(e, x, s)))
  }

  /** What token `j` adds to entry `(a, b)` of a closed form. */
  function Term(e: real -> real, x: seq<Token>, s: Mat, g: real, a: int, b: int, j: int): real
    requires Fits(x, s)
  {
    e(g - GateAt(x, j)) * KeyAt(x, j, a) * At(DeltaMat(e, x, s), j, b)
  }

  lemma {:induction false} TermIs(e: real -> real, x: seq<Token>, s: Mat, g: real, a: int, b: int, j: int)
    requires Fits(x, s) && 0 <= j < |x| && 0 <= a < s.rows
    ensures Term(e, x, s, g, a, b, j)
         == At(Transpose(Decayed(e, x, g, s.rows)), a, j) * At(DeltaMat(e, x, s), j, b)
  {
    hide At, GateAt, KeyAt, DeltaMat, Transpose, Decayed;
    TransposeAt(Decayed(e, x, g, s.rows), a, j);
    DecayedAt(e, x, g, s.rows, j, a);
  }

  lemma {:induction false} ClosedAt(e: real -> real, x: seq<Token>, s: Mat, g: real, a: int, b: int, f: int -> real)
    requires Fits(x, s) && 0 <= a < s.rows && 0 <= b < s.cols
    requires forall j | 0 <= j < |x| :: f(j) == Term(e, x, s, g, a, b, j)
    ensures At(Closed(e, x, s, g), a, b) == At(s, a, b) * e(g) + Sum(|x|, f)
  {
    hide Sum, Mul, At, KeyAt, GateAt, DeltaMat, Add, Scale, Transpose, Decayed, Term;
    var w, d := Decayed(e, x, g, s.rows), DeltaMat(e, x, s);
    forall j | 0 <= j < |x|
      ensures f(j) == At(Transpose(w), a, j) * At(d, j, b)
    {
      TermIs(e, x, s, g, a, b, j);
    }
    MulAt(Transpose(w), d, a, b, f);
    AddAt(Scale(s, e(g)), Mul(Transpose(w), d), a, b);
    ScaleAt(s, e(g), a, b);
  }

  /** Decaying a closed form moves its gate. */
  lemma {:induction false} ClosedDecays(e: real -> real, x: seq<Token>, s: Mat, g: real, h: real)
    requires Fits(x, s) && Exponential(e)
    ensures Scale(Closed(e, x, s, g), e(h)) == Closed(e, x, s, g + h)
  {
    hide Sum, Mul, At, Closed, Exponential, Term;
    forall a, b | 0 <= a < s.rows && 0 <= b < s.cols
      ensures At(Closed(e, x, s, g), a, b) * e(h) == At(Closed(e, x, s, g + h), a, b)
    {
      var f: int -> real := j => Term(e, x, s, g, a, b, j);
      var f': int -> real := j => Term(e, x, s, g + h, a, b, j);
      forall j | 0 <= j < |x|
        ensures f'(j) == e(h) * f(j)
      {
        TermDecays(e, x, s, g, h, a, b, j);
      }
      ClosedAt(e, x, s, g, a, b, f);
      ClosedAt(e, x, s, g + h, a, b, f');
      SumScale(|x|, e(h), f, f');
      ExpSum(e, g, h, g + h);
      Distribute(At(s, a, b), e(g), Sum(|x|, f), e(h));
    }
    Equal(Scale(Closed(e, x, s, g), e(h)), Closed(e, x, s, g + h));
  }

  lemma {:induction false} TermDecays(e: real -> real, x: seq<Token>, s: Mat, g: real, h: real, a: int, b: int, j: int)
    requires Fits(x, s) && Exponential(e)
    ensures Term(e, x, s, g + h, a, b, j) == e(h) * Term(e, x, s, g, a, b, j)
  {
    hide At, KeyAt, GateAt, DeltaMat, Exponential;
    ExpSum(e, g - GateAt(x, j), h, g + h - GateAt(x, j));
    Reorder(e(g - GateAt(x, j)), e(h), KeyAt(x, j, a), At(DeltaMat(e, x, s), j, b));
  }

  lemma {:induction false} Reorder(x: real, h: real, k: real, d: real)
    ensures (x * h) * k * d == h * (x * k * d)
  {
  }

  lemma {:induction false} Distribute(s: real, g: real, t: real, h: real)
    ensures (s * g + t) * h == s * (g * h) + h * t
  {
  }

  /** Theorem: the state a run leaves is the sum of what its tokens wrote, each decayed to the end. */
  lemma {:induction false} StateIsClosed(e: real -> real, x: seq<Token>, s: Mat)
    requires Fits(x, s) && Exponential(e)
    ensures State(e, x, s) == Closed(e, x, s, Gates(x))
  {
    hide Mul, Closed, Delta, Exponential, Sum;
    if x == [] {
      ClosedEmpty(e, x, s);
    } else {
      var y, t := x[..|x| - 1], x[|x| - 1];
      StateIsClosed(e, y, s);
      ClosedDecays(e, y, s, Gates(y), t.g);
      ClosedGrows(e, y, t, s);
      assert y + [t] == x;
    }
  }

  lemma {:induction false} ClosedEmpty(e: real -> real, x: seq<Token>, s: Mat)
    requires x == [] && Exponential(e)
    ensures Closed(e, x, s, 0.0) == s
  {
    hide At, Mul, DeltaMat;
    forall a, b | 0 <= a < s.rows && 0 <= b < s.cols
      ensures At(Closed(e, x, s, 0.0), a, b) == At(s, a, b)
    {
      ClosedAt(e, x, s, 0.0, a, b, j => 0.0);
    }
    Equal(Closed(e, x, s, 0.0), s);
  }

  lemma {:induction false} ClosedGrows(e: real -> real, y: seq<Token>, t: Token, s: Mat)
    requires Fits(y, s) && TokenFits(t, s.rows, s.cols) && Exponential(e)
    ensures var x := y + [t];
      var g := Gates(y) + t.g;
      Closed(e, x, s, g) == Add(Closed(e, y, s, g), Mul(Transpose(t.k), Delta(e, t, State(e, y, s))))
  {
    hide Mul, Closed, At, Delta, Exponential, State, Sum, Term, Transpose, Add;
    var x := y + [t];
    var g := Gates(y) + t.g;
    var d := Delta(e, t, State(e, y, s));
    forall a, b | 0 <= a < s.rows && 0 <= b < s.cols
      ensures At(Closed(e, x, s, g), a, b) == At(Add(Closed(e, y, s, g), Mul(Transpose(t.k), d)), a, b)
    {
      var f: int -> real := j => Term(e, x, s, g, a, b, j);
      forall j | 0 <= j < |y|
        ensures f(j) == Term(e, y, s, g, a, b, j)
      {
        EarlierToken(e, y, t, s, g, j, a, b);
      }
      ClosedAt(e, x, s, g, a, b, f);
      ClosedAt(e, y, s, g, a, b, f);
      LastToken(e, y, t, s, a, b);
      SumLast(|y|, f);
      AddAt(Closed(e, y, s, g), Mul(Transpose(t.k), d), a, b);
    }
    Equal(Closed(e, x, s, g), Add(Closed(e, y, s, g), Mul(Transpose(t.k), d)));
  }

  lemma {:induction false} EarlierToken(e: real -> real, y: seq<Token>, t: Token, s: Mat, g: real, j: int, a: int,
        b: int)
    requires Fits(y, s) && TokenFits(t, s.rows, s.cols) && 0 <= j < |y| && 0 <= b < s.cols
    ensures Term(e, y + [t], s, g, a, b, j) == Term(e, y, s, g, a, b, j)
  {
    hide At, Delta, State;
    var x := y + [t];
    assert x[..|x| - 1] == y && x[..j + 1] == y[..j + 1];
    StackAt(Deltas(e, x, s), s.cols, j, b);
    StackAt(Deltas(e, y, s), s.cols, j, b);
  }

  lemma {:induction false} LastToken(e: real -> real, y: seq<Token>, t: Token, s: Mat, a: int, b: int)
    requires Fits(y, s) && TokenFits(t, s.rows, s.cols) && Exponential(e) && 0 <= a < s.rows && 0 <= b < s.cols
    ensures var d := Delta(e, t, State(e, y, s));
      Term(e, y + [t], s, Gates(y) + t.g, a, b, |y|) == At(Mul(Transpose(t.k), d), a, b)
  {
    hide At, Delta, State, Exponential, Mul, Transpose;
    var x := y + [t];
    assert x[..|x| - 1] == y && x[..|y| + 1] == x;
    StackAt(Deltas(e, x, s), s.cols, |y|, b);
    ExpZero(e);
    OuterAt(t.k, Delta(e, t, State(e, y, s)), a, b);
  }

  lemma {:induction false} StackAt(rows: seq<Mat>, w: nat, i: int, j: int)
    requires 0 <= i < |rows| && 0 <= j < w
    ensures At(Stack(rows, w), i, j) == At(rows[i], 0, j)
  {
    hide At;
  }

  lemma {:induction false} ExpZero(e: real -> real)
    requires Exponential(e)
    ensures e(0.0) == 1.0
  {
  }

  lemma {:induction false} SumLast(n: nat, f: int -> real)
    ensures Sum(n + 1, f) == Sum(n, f) + f(n)
  {
  }

  lemma {:induction false} OuterAt(k: Mat, d: Mat, a: int, b: int)
    requires k.rows == 1 && d.rows == 1 && 0 <= a < k.cols && 0 <= b < d.cols
    ensures At(Mul(Transpose(k), d), a, b) == At(k, 0, a) * At(d, 0, b)
  {
    hide At, Mul;
    var f: int -> real := l => At(k, 0, a) * At(d, 0, b);
    MulAt(Transpose(k), d, a, b, f);
    SumOne(1, 0, f);
  }
}
