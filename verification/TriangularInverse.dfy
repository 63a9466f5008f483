/** The inverse of `I - A` for a strictly lower triangular `A` (src/common/gdn.rs). */
module TriangularInverse {
  import opened Matrices
  import opened Powers

  const INVERT_BLOCK: nat := 16

  predicate Square(a: Mat, n: nat) {
    a.rows == n && a.cols == n
  }

  /** Everything less than `d` places below the diagonal is zero. */
  ghost predicate Band(a: Mat, d: nat) {
    forall i, j | 0 <= i < a.rows && 0 <= j < a.cols && i < j + d :: At(a, i, j) == 0.0
  }

  ghost predicate StrictlyLower(a: Mat, n: nat) {
    Square(a, n) && Band(a, 1)
  }

  function UnitMinus(a: Mat): (m: Mat)
    requires a.rows == a.cols
    ensures Square(m, a.rows)
  {
    Sub(Id(a.rows), a)
  }

  ghost predicate Inverse(m: Mat, inv: Mat) {
    && m.rows == m.cols && Square(inv, m.rows)
    && Mul(inv, m) == Id(m.rows)
    && Mul(m, inv) == Id(m.rows)
  }

  lemma {:induction false} InverseIsUnique(m: Mat, x: Mat, y: Mat)
    requires Inverse(m, x) && Inverse(m, y)
    ensures x == y
  {
    hide Mul, Id;
    MulAssoc(x, m, y);
    MulId(x);
    IdMul(y);
  }

  // ----- the doubling product

  lemma {:induction false} BandMul(a: Mat, b: Mat, d: nat, e: nat)
    requires a.cols == b.rows && Band(a, d) && Band(b, e)
    ensures Band(Mul(a, b), d + e)
  {
    hide Mul, Sum, Make, At;
    forall i, j | 0 <= i < a.rows && 0 <= j < b.cols && i < j + d + e
      ensures At(Mul(a, b), i, j) == 0.0
    {
      var f: int -> real := l => 0.0;
      MulAt(a, b, i, j, f);
      SumZero(a.cols, f);
    }
  }

  lemma {:induction false} BandTooWide(a: Mat, n: nat, d: nat)
    requires Square(a, n) && Band(a, d) && n <= d
    ensures Sub(Id(n), a) == Id(n)
  {
    Equal(Sub(Id(n), a), Id(n));
  }

  /** Where the doubling loop starts: `(I + A)(I - A) = I - A A`, on both sides. */
  lemma {:induction false} FirstFactor(a: Mat, n: nat)
    requires Square(a, n)
    ensures Mul(Add(a, Id(n)), UnitMinus(a)) == Sub(Id(n), Mul(a, a))
    ensures Mul(UnitMinus(a), Add(a, Id(n))) == Sub(Id(n), Mul(a, a))
  {
    hide Mul;
    var id := Id(n);
    AddMul(a, id, UnitMinus(a));
    MulSub(a, id, a);
    IdMul(UnitMinus(a));
    SubMul(id, a, Add(a, id));
    MulAdd(a, a, id);
    IdMul(Add(a, id));
    MulId(a);
    Equal(Mul(Add(a, id), UnitMinus(a)), Sub(id, Mul(a, a)));
    Equal(Mul(UnitMinus(a), Add(a, id)), Sub(id, Mul(a, a)));
  }

  /** `I - p p = (I - p)(I + p)` read on the side where a matrix multiplies. */
  lemma {:induction false} Difference(n: nat, p: Mat, x: Mat)
    requires Square(p, n) && Square(x, n) && x == Sub(Id(n), p)
    ensures Add(x, Mul(p, x)) == Sub(Id(n), Mul(p, p))
  {
    hide Mul;
    MulSub(p, Id(n), p);
    MulId(p);
    Equal(Add(x, Mul(p, x)), Sub(Id(n), Mul(p, p)));
  }

  lemma {:induction false} UnitMinusCommutes(a: Mat, n: nat, p: Mat)
    requires Square(a, n) && Square(p, n) && Mul(a, p) == Mul(p, a)
    ensures Mul(UnitMinus(a), p) == Mul(p, UnitMinus(a))
  {
    hide Mul, Sub, Id;
    SubMul(Id(n), a, p);
    MulSub(p, Id(n), a);
    IdMul(p);
    MulId(p);
  }

  lemma {:induction false} SquareCommutes(a: Mat, n: nat, p: Mat)
    requires Square(a, n) && Square(p, n) && Mul(a, p) == Mul(p, a)
    ensures Mul(a, Mul(p, p)) == Mul(Mul(p, p), a)
  {
    hide Mul;
    MulAssoc(a, p, p);
    MulAssoc(p, a, p);
    MulAssoc(p, p, a);
  }

  /** One turn of the doubling loop keeps `inv (I - A) = I - p p` on both sides. */
  lemma {:induction false} Doubling(a: Mat, n: nat, inv: Mat, p: Mat)
    requires Square(a, n) && Square(inv, n) && Square(p, n)
    requires Mul(a, p) == Mul(p, a)
    requires Mul(inv, UnitMinus(a)) == Sub(Id(n), p)
    requires Mul(UnitMinus(a), inv) == Sub(Id(n), p)
    ensures Mul(Add(inv, Mul(p, inv)), UnitMinus(a)) == Sub(Id(n), Mul(p, p))
    ensures Mul(UnitMinus(a), Add(inv, Mul(p, inv))) == Sub(Id(n), Mul(p, p))
  {
    hide Mul, Sub, Add, Id, UnitMinus;
    var u := UnitMinus(a);
    Difference(n, p, Sub(Id(n), p));
    AddMul(inv, Mul(p, inv), u);
    MulAssoc(p, inv, u);
    MulAdd(u, inv, Mul(p, inv));
    MulAssoc(u, p, inv);
    UnitMinusCommutes(a, n, p);
    MulAssoc(p, u, inv);
  }

  method InvertUnitLowerBase(a: Mat, n: nat) returns (inv: Mat)
    requires StrictlyLower(a, n)
    ensures Inverse(UnitMinus(a), inv)
  {
    hide Mul, Sub, Add, Id, UnitMinus, Band;
    inv := Add(a, Id(n));
    var p := a;
    var covered: nat := 2;
    ghost var d: nat := 1;
    FirstFactor(a, n);
    BandMul(a, a, 1, 1);
    while covered < n
      invariant Square(inv, n) && Square(p, n)
      invariant d >= 1 && covered == 2 * d
      invariant Band(p, d)
      invariant Mul(a, p) == Mul(p, a)
      invariant Mul(inv, UnitMinus(a)) == Sub(Id(n), Mul(p, p))
      invariant Mul(UnitMinus(a), inv) == Sub(Id(n), Mul(p, p))
    {
      BandMul(p, p, d, d);
      SquareCommutes(a, n, p);
      Doubling(a, n, inv, Mul(p, p));
      p := Mul(p, p);
      inv := Add(inv, Mul(p, inv));
      covered := covered * 2;
      d := d * 2;
    }
    BandMul(p, p, d, d);
    BandTooWide(Mul(p, p), n, covered);
  }

  // ----- merging diagonal blocks

  lemma {:induction false} Pow2Parts(n: nat)
    requires IsPow2(n) && n > INVERT_BLOCK && n % INVERT_BLOCK == 0
    ensures IsPow2(n / INVERT_BLOCK)
  {
    assert IsPow2(n / 2) && IsPow2(n / 2 / 2) && IsPow2(n / 2 / 2 / 2) && IsPow2(n / 2 / 2 / 2 / 2);
  }

  /** Two `s` by `s` blocks on the diagonal, `x` below and nothing above. */
  function Stacked(s: nat, m11: Mat, x: Mat, m22: Mat): (m: Mat)
    requires Square(m11, s) && Square(x, s) && Square(m22, s)
    ensures Square(m, 2 * s)
  {
    Make(2 * s, 2 * s, (i, j) =>
      if i < s then (if j < s then At(m11, i, j) else 0.0)
      else if j < s then At(x, i - s, j) else At(m22, i - s, j - s))
  }

  /** A product of matrices cut in four is computed block by block. */
  lemma {:induction false} BlockOfMul(s: nat, a: Mat, b: Mat, r: nat, c: nat)
    requires Square(a, 2 * s) && Square(b, 2 * s) && r <= s && c <= s
    ensures Block(Mul(a, b), r, c, s, s) ==
      Add(Mul(Block(a, r, 0, s, s), Block(b, 0, c, s, s)), Mul(Block(a, r, s, s, s), Block(b, s, c, s, s)))
  {
    hide Mul, Sum, At;
    var left := Mul(Block(a, r, 0, s, s), Block(b, 0, c, s, s));
    var right := Mul(Block(a, r, s, s, s), Block(b, s, c, s, s));
    forall i, j | 0 <= i < s && 0 <= j < s
      ensures At(Block(Mul(a, b), r, c, s, s), i, j) == At(Add(left, right), i, j)
    {
      var f: int -> real := l => At(a, r + i, l) * At(b, l, c + j);
      var g: int -> real := l => At(a, r + i, s + l) * At(b, s + l, c + j);
      MulAt(a, b, r + i, c + j, f);
      MulAt(Block(a, r, 0, s, s), Block(b, 0, c, s, s), i, j, f);
      MulAt(Block(a, r, s, s, s), Block(b, s, c, s, s), i, j, g);
      SumSplit(s, s, f, g);
      assert At(Block(Mul(a, b), r, c, s, s), i, j) == At(Mul(a, b), r + i, c + j);
    }
    Equal(Block(Mul(a, b), r, c, s, s), Add(left, right));
  }

  lemma {:induction false} FourBlocks(s: nat, a: Mat, b: Mat)
    requires Square(a, 2 * s) && Square(b, 2 * s)
    requires Block(a, 0, 0, s, s) == Block(b, 0, 0, s, s) && Block(a, 0, s, s, s) == Block(b, 0, s, s, s)
    requires Block(a, s, 0, s, s) == Block(b, s, 0, s, s) && Block(a, s, s, s, s) == Block(b, s, s, s, s)
    ensures a == b
  {
    hide At;
    forall i, j | 0 <= i < 2 * s && 0 <= j < 2 * s
      ensures At(a, i, j) == At(b, i, j)
    {
      var r: nat, c: nat := if i < s then 0 else s, if j < s then 0 else s;
      assert Block(a, r, c, s, s) == Block(b, r, c, s, s);
      assert At(a, r + (i - r), c + (j - c)) == At(Block(a, r, c, s, s), i - r, j - c);
      assert At(b, r + (i - r), c + (j - c)) == At(Block(b, r, c, s, s), i - r, j - c);
    }
    Equal(a, b);
  }

  lemma {:induction false} MulZero(a: Mat, b: Mat)
    ensures Mul(a, Zero(a.cols, b.cols)) == Zero(a.rows, b.cols)
    ensures Mul(Zero(a.rows, b.rows), b) == Zero(a.rows, b.cols)
  {
    hide Mul, Sum, At;
    forall i, j | 0 <= i < a.rows && 0 <= j < b.cols
      ensures At(Mul(a, Zero(a.cols, b.cols)), i, j) == 0.0
      ensures At(Mul(Zero(a.rows, b.rows), b), i, j) == 0.0
    {
      var f: int -> real := l => 0.0;
      MulAt(a, Zero(a.cols, b.cols), i, j, f);
      MulAt(Zero(a.rows, b.rows), b, i, j, f);
      SumZero(a.cols, f);
      SumZero(b.rows, f);
    }
    Equal(Mul(a, Zero(a.cols, b.cols)), Zero(a.rows, b.cols));
    Equal(Mul(Zero(a.rows, b.rows), b), Zero(a.rows, b.cols));
  }

  lemma {:induction false} ZeroSum(a: Mat)
    ensures Add(a, Zero(a.rows, a.cols)) == a && Add(Zero(a.rows, a.cols), a) == a
    ensures Add(Sub(Zero(a.rows, a.cols), a), a) == Zero(a.rows, a.cols)
    ensures Add(a, Sub(Zero(a.rows, a.cols), a)) == Zero(a.rows, a.cols)
  {
    hide At;
    var z := Zero(a.rows, a.cols);
    Equal(Add(a, z), a);
    Equal(Add(z, a), a);
    Equal(Add(Sub(z, a), a), z);
    Equal(Add(a, Sub(z, a)), z);
  }

  lemma {:induction false} StackedBlocks(s: nat, m11: Mat, x: Mat, m22: Mat)
    requires Square(m11, s) && Square(x, s) && Square(m22, s)
    ensures var m := Stacked(s, m11, x, m22);
      && Block(m, 0, 0, s, s) == m11 && Block(m, 0, s, s, s) == Zero(s, s)
      && Block(m, s, 0, s, s) == x && Block(m, s, s, s, s) == m22
  {
    hide At;
    var m := Stacked(s, m11, x, m22);
    Equal(Block(m, 0, 0, s, s), m11);
    Equal(Block(m, 0, s, s, s), Zero(s, s));
    Equal(Block(m, s, 0, s, s), x);
    Equal(Block(m, s, s, s, s), m22);
  }

  lemma {:induction false} IdBlocks(s: nat)
    ensures Block(Id(2 * s), 0, 0, s, s) == Id(s) && Block(Id(2 * s), 0, s, s, s) == Zero(s, s)
    ensures Block(Id(2 * s), s, 0, s, s) == Zero(s, s) && Block(Id(2 * s), s, s, s, s) == Id(s)
  {
    hide At;
    Equal(Block(Id(2 * s), 0, 0, s, s), Id(s));
    Equal(Block(Id(2 * s), 0, s, s, s), Zero(s, s));
    Equal(Block(Id(2 * s), s, 0, s, s), Zero(s, s));
    Equal(Block(Id(2 * s), s, s, s, s), Id(s));
  }

  lemma {:induction false} MergedLeft(s: nat, d: Mat, m11: Mat, a21: Mat, m22: Mat)
    requires Square(d, 2 * s) && Square(m11, s) && Square(m22, s) && Square(a21, s)
    requires Inverse(Block(d, 0, 0, s, s), m11) && Inverse(Block(d, s, s, s, s), m22)
    requires Block(d, 0, s, s, s) == Zero(s, s) && Block(d, s, 0, s, s) == Sub(Zero(s, s), a21)
    ensures Mul(Stacked(s, m11, Mul(m22, Mul(a21, m11)), m22), d) == Id(2 * s)
  {
    hide Mul, Add, Sub, Zero, Id, Block, Stacked;
    var x := Mul(m22, Mul(a21, m11));
    var m := Stacked(s, m11, x, m22);
    var d11, d22 := Block(d, 0, 0, s, s), Block(d, s, s, s, s);
    StackedBlocks(s, m11, x, m22);
    IdBlocks(s);
    BlockOfMul(s, m, d, 0, 0);
    BlockOfMul(s, m, d, 0, s);
    BlockOfMul(s, m, d, s, 0);
    BlockOfMul(s, m, d, s, s);
    MulZero(m11, Block(d, s, 0, s, s));
    MulZero(m11, d22);
    MulZero(x, d22);
    MulZero(m22, d22);
    ZeroSum(Id(s));
    ZeroSum(Zero(s, s));
    // The block below the diagonal: M22 A21 M11 N11 - M22 A21.
    MulAssoc(m22, Mul(a21, m11), d11);
    MulAssoc(a21, m11, d11);
    MulId(a21);
    MulSub(m22, Zero(s, s), a21);
    ZeroSum(Mul(m22, a21));
    FourBlocks(s, Mul(m, d), Id(2 * s));
  }

  lemma {:induction false} MergedRight(s: nat, d: Mat, m11: Mat, a21: Mat, m22: Mat)
    requires Square(d, 2 * s) && Square(m11, s) && Square(m22, s) && Square(a21, s)
    requires Inverse(Block(d, 0, 0, s, s), m11) && Inverse(Block(d, s, s, s, s), m22)
    requires Block(d, 0, s, s, s) == Zero(s, s) && Block(d, s, 0, s, s) == Sub(Zero(s, s), a21)
    ensures Mul(d, Stacked(s, m11, Mul(m22, Mul(a21, m11)), m22)) == Id(2 * s)
  {
    hide Mul, Add, Sub, Zero, Id, Block, Stacked;
    var x := Mul(m22, Mul(a21, m11));
    var m := Stacked(s, m11, x, m22);
    var d11, d21, d22 := Block(d, 0, 0, s, s), Block(d, s, 0, s, s), Block(d, s, s, s, s);
    StackedBlocks(s, m11, x, m22);
    IdBlocks(s);
    BlockOfMul(s, d, m, 0, 0);
    BlockOfMul(s, d, m, 0, s);
    BlockOfMul(s, d, m, s, 0);
    BlockOfMul(s, d, m, s, s);
    MulZero(d11, x);
    MulZero(d11, m22);
    MulZero(d21, m22);
    ZeroSum(Id(s));
    ZeroSum(Zero(s, s));
    // The block below the diagonal: N22 M22 A21 M11 - A21 M11.
    MulAssoc(d22, m22, Mul(a21, m11));
    IdMul(Mul(a21, m11));
    SubMul(Zero(s, s), a21, m11);
    MulZero(a21, m11);
    ZeroSum(Mul(a21, m11));
    FourBlocks(s, Mul(d, m), Id(2 * s));
  }

  /** The diagonal block of `a` that starts at `at`. */
  function Diagonal(a: Mat, at: nat, s: nat): (m: Mat)
    requires at + s <= a.rows == a.cols
    ensures Square(m, s)
  {
    Block(a, at, at, s, s)
  }

  lemma {:induction false} DiagonalBand(a: Mat, n: nat, at: nat, s: nat)
    requires StrictlyLower(a, n) && at + s <= n
    ensures StrictlyLower(Diagonal(a, at, s), s)
  {
    hide At;
  }

  lemma {:induction false} WholeBlock(a: Mat, n: nat)
    requires Square(a, n)
    ensures Diagonal(a, 0, n) == a
  {
    hide At;
    Equal(Diagonal(a, 0, n), a);
  }

  lemma {:induction false} UnitMinusBlocks(a: Mat, n: nat, at: nat, s: nat)
    requires StrictlyLower(a, n) && at + 2 * s <= n
    ensures var d := UnitMinus(Diagonal(a, at, 2 * s));
      && Block(d, 0, 0, s, s) == UnitMinus(Diagonal(a, at, s))
      && Block(d, s, s, s, s) == UnitMinus(Diagonal(a, at + s, s))
      && Block(d, 0, s, s, s) == Zero(s, s)
      && Block(d, s, 0, s, s) == Sub(Zero(s, s), Block(a, at + s, at, s, s))
  {
    hide At;
    var d := UnitMinus(Diagonal(a, at, 2 * s));
    Equal(Block(d, 0, 0, s, s), UnitMinus(Diagonal(a, at, s)));
    Equal(Block(d, s, s, s, s), UnitMinus(Diagonal(a, at + s, s)));
    Equal(Block(d, 0, s, s, s), Zero(s, s));
    Equal(Block(d, s, 0, s, s), Sub(Zero(s, s), Block(a, at + s, at, s, s)));
  }

  lemma {:induction false} Merged(a: Mat, n: nat, at: nat, s: nat, m11: Mat, m22: Mat)
    requires StrictlyLower(a, n) && at + 2 * s <= n
    requires Inverse(UnitMinus(Diagonal(a, at, s)), m11)
    requires Inverse(UnitMinus(Diagonal(a, at + s, s)), m22)
    ensures Inverse(UnitMinus(Diagonal(a, at, 2 * s)),
      Stacked(s, m11, Mul(m22, Mul(Block(a, at + s, at, s, s), m11)), m22))
  {
    hide Mul, Block, UnitMinus, Stacked, Diagonal, Band;
    UnitMinusBlocks(a, n, at, s);
    var d := UnitMinus(Diagonal(a, at, 2 * s));
    MergedLeft(s, d, m11, Block(a, at + s, at, s, s), m22);
    MergedRight(s, d, m11, Block(a, at + s, at, s, s), m22);
  }

  /** Block `t` of `m` is the inverse of the diagonal block of `I - A` at `t s`. */
  ghost predicate Level(a: Mat, n: nat, s: nat, m: seq<Mat>)
    requires Square(a, n)
  {
    forall t | 0 <= t < |m| :: t * s + s <= n && Inverse(UnitMinus(Diagonal(a, t * s, s)), m[t])
  }

  /** The 16 by 16 diagonal blocks, inverted one by one. */
  method InvertBlocks(a: Mat, n: nat, count: nat) returns (m: seq<Mat>)
    requires StrictlyLower(a, n) && count * INVERT_BLOCK <= n
    ensures |m| == count && Level(a, n, INVERT_BLOCK, m)
  {
    hide UnitMinus, Diagonal, Band, Inverse;
    m := [];
    while |m| < count
      invariant |m| <= count
      invariant Level(a, n, INVERT_BLOCK, m)
    {
      var at := |m| * INVERT_BLOCK;
      DiagonalBand(a, n, at, INVERT_BLOCK);
      var block := InvertUnitLowerBase(Diagonal(a, at, INVERT_BLOCK), INVERT_BLOCK);
      m := m + [block];
    }
  }

  /** One level: every two neighbouring blocks become one of twice the size. */
  method MergePairs(a: Mat, n: nat, s: nat, m: seq<Mat>, pairs: nat) returns (merged: seq<Mat>)
    requires StrictlyLower(a, n) && Level(a, n, s, m) && |m| == 2 * pairs
    ensures |merged| == pairs && Level(a, n, 2 * s, merged)
  {
    hide Mul, Block, UnitMinus, Stacked, Diagonal, Band, Inverse;
    merged := [];
    while |merged| < pairs
      invariant |merged| <= pairs
      invariant Level(a, n, 2 * s, merged)
    {
      var p := |merged|;
      var at := 2 * p * s;
      PairFits(p, s);
      assert Inverse(UnitMinus(Diagonal(a, at, s)), m[2 * p]);
      assert Inverse(UnitMinus(Diagonal(a, at + s, s)), m[2 * p + 1]);
      Merged(a, n, at, s, m[2 * p], m[2 * p + 1]);
      InverseShape(UnitMinus(Diagonal(a, at, s)), m[2 * p]);
      InverseShape(UnitMinus(Diagonal(a, at + s, s)), m[2 * p + 1]);
      var a21 := Block(a, at + s, at, s, s);
      var x := Mul(m[2 * p + 1], Mul(a21, m[2 * p]));
      merged := merged + [Stacked(s, m[2 * p], x, m[2 * p + 1])];
    }
  }

  method InvertUnitLower(a: Mat, n: nat) returns (inv: Mat)
    requires StrictlyLower(a, n)
    ensures Inverse(UnitMinus(a), inv)
  {
    hide UnitMinus, Diagonal, Band, Inverse;
    if n <= INVERT_BLOCK || n % INVERT_BLOCK != 0 || !IsPow2(n) {
      inv := InvertUnitLowerBase(a, n);
      return;
    }
    Pow2Parts(n);
    var m := InvertBlocks(a, n, n / INVERT_BLOCK);
    var s := INVERT_BLOCK;
    while s < n
      invariant |m| * s == n && IsPow2(|m|) && s > 0
      invariant Level(a, n, s, m)
      decreases |m|
    {
      Halved(n, s, |m|);
      m := MergePairs(a, n, s, m, n / (2 * s));
      s := s * 2;
    }
    OneBlock(|m|, s, n);
    WholeBlock(a, n);
    inv := m[0];
  }

  lemma {:induction false} InverseShape(m: Mat, inv: Mat)
    requires Inverse(m, inv)
    ensures Square(inv, m.rows)
  {
  }

  lemma {:induction false} PairFits(p: nat, s: nat)
    ensures 2 * p * s == p * (2 * s) && (2 * p + 1) * s == 2 * p * s + s
  {
    Regroup(p, s);
  }
}
