/** The mean-square stage of the key-value quantizer (src/common/kv_quant.rs). */
module Quantizer {
  import opened BitPacking
  import opened Hadamard
  import opened Powers

  /** One rotation: random signs, and the scale that makes the transform an isometry. */
  datatype Rotation = Rotation(signs: Vec, invSqrtD: real)

  predicate RotationOk(r: Rotation) {
    && |r.signs| > 0
    && (forall i | 0 <= i < |r.signs| :: r.signs[i] == 1.0 || r.signs[i] == -1.0)
    && r.invSqrtD > 0.0 && r.invSqrtD * r.invSqrtD * |r.signs| as real == 1.0
  }

  /** Entry by entry product. */
  function Signed(a: Vec, signs: Vec): (c: Vec)
    requires |a| == |signs|
    ensures |c| == |a| && forall i | 0 <= i < |a| :: c[i] == a[i] * signs[i]
  {
    seq(|a|, i requires 0 <= i < |a| => a[i] * signs[i])
  }

  /** The rotation before quantizing; other lengths than powers of two only change signs. */
  function Rotated(r: Rotation, x: Vec): (y: Vec)
    requires |x| == |r.signs|
    ensures |y| == |x|
  {
    if IsPow2(|x|) then Times(r.invSqrtD, Wht(Signed(x, r.signs))) else Signed(x, r.signs)
  }

  /** The rotation after dequantizing. */
  function Unrotated(r: Rotation, y: Vec): (x: Vec)
    requires |y| == |r.signs|
    ensures |x| == |y|
  {
    if IsPow2(|y|) then Times(r.invSqrtD, Signed(Wht(y), r.signs)) else Signed(y, r.signs)
  }

  lemma {:induction false} SignsUndo(a: Vec, signs: Vec)
    requires |a| == |signs| && forall i | 0 <= i < |signs| :: signs[i] == 1.0 || signs[i] == -1.0
    ensures Signed(Signed(a, signs), signs) == a
  {
    var twice := Signed(Signed(a, signs), signs);
    forall i | 0 <= i < |a|
      ensures twice[i] == a[i]
    {
      SignSquared(a[i], signs[i]);
    }
  }

  lemma {:induction false} SignsKeepSquares(a: Vec, signs: Vec)
    requires |a| == |signs| && forall i | 0 <= i < |signs| :: signs[i] == 1.0 || signs[i] == -1.0
    ensures SumSquares(Signed(a, signs)) == SumSquares(a)
    decreases |a|
  {
    if a != [] {
      var n := |a| - 1;
      SignsKeepSquares(a[..n], signs[..n]);
      assert Signed(a, signs)[..n] == Signed(a[..n], signs[..n]);
      SignSquared(a[n], signs[n]);
    }
  }

  lemma {:induction false} SignSquared(x: real, sign: real)
    requires sign == 1.0 || sign == -1.0
    ensures (x * sign) * sign == x && (x * sign) * (x * sign) == x * x
  {
  }

  lemma {:induction false} TimesSigned(r: real, a: Vec, signs: Vec)
    requires |a| == |signs|
    ensures Times(r, Signed(a, signs)) == Signed(Times(r, a), signs)
  {
    forall i | 0 <= i < |a|
      ensures Times(r, Signed(a, signs))[i] == Signed(Times(r, a), signs)[i]
    {
      Regrouped(r, a[i], signs[i]);
    }
  }

  lemma {:induction false} Regrouped(x: real, y: real, z: real)
    ensures x * (y * z) == (x * y) * z
  {
  }

  lemma {:induction false} TimesTwice(r: real, t: real, p: real, a: Vec)
    requires p == r * t
    ensures Times(r, Times(t, a)) == Times(p, a)
  {
    forall i | 0 <= i < |a|
      ensures Times(r, Times(t, a))[i] == Times(p, a)[i]
    {
      Regrouped(r, t, a[i]);
    }
  }

  lemma {:induction false} TimesOne(r: real, a: Vec)
    requires r == 1.0
    ensures Times(r, a) == a
  {
  }

  lemma {:induction false} ScaleCancels(s: real, d: real, a: Vec)
    requires s * s * d == 1.0
    ensures Times(s, Times(s, Times(d, a))) == a
  {
    hide Times;
    Regrouped(s, s, d);
    var p := s * d;
    TimesTwice(s, d, p, a);
    TimesTwice(s, p, 1.0, a);
    TimesOne(1.0, a);
  }

  lemma {:induction false} UnrotateRotated(r: Rotation, x: Vec)
    requires RotationOk(r) && |x| == |r.signs| && IsPow2(|x|)
    ensures Unrotated(r, Rotated(r, x)) == x
  {
    hide Wht, Times, Signed;
    var s, d, a := r.invSqrtD, |x| as real, Signed(x, r.signs);
    WhtTimes(s, Wht(a));
    WhtTwice(a);
    TimesSigned(s, Times(s, Times(d, a)), r.signs);
    ScaleCancels(s, d, a);
    SignsUndo(x, r.signs);
  }

  lemma {:induction false} RotateUnrotated(r: Rotation, x: Vec)
    requires RotationOk(r) && |x| == |r.signs| && IsPow2(|x|)
    ensures Rotated(r, Unrotated(r, x)) == x
  {
    hide Wht, Times, Signed;
    var s, d, w := r.invSqrtD, |x| as real, Wht(x);
    TimesSigned(s, w, r.signs);
    SignsUndo(Times(s, w), r.signs);
    WhtTimes(s, w);
    WhtTwice(x);
    ScaleCancels(s, d, x);
  }

  /** Theorem: the two rotations undo each other, in either order. */
  lemma {:induction false} RotationsUndo(r: Rotation, x: Vec)
    requires RotationOk(r) && |x| == |r.signs|
    ensures Unrotated(r, Rotated(r, x)) == x
    ensures Rotated(r, Unrotated(r, x)) == x
  {
    if IsPow2(|x|) {
      hide Wht, Times, Signed, Rotated, Unrotated;
      UnrotateRotated(r, x);
      RotateUnrotated(r, x);
    } else {
      SignsUndo(x, r.signs);
    }
  }

  lemma {:induction false} SquaresTimes(r: real, a: Vec)
    ensures SumSquares(Times(r, a)) == (r * r) * SumSquares(a)
    decreases |a|
  {
    if a != [] {
      var n := |a| - 1;
      SquaresTimes(r, a[..n]);
      ScaledHalves(r, a, n);
      SquareOfProduct(r, a[n]);
      Distribute(r * r, SumSquares(a[..n]), a[n] * a[n]);
    }
  }

  lemma {:induction false} SquareOfProduct(r: real, x: real)
    ensures (r * x) * (r * x) == (r * r) * (x * x)
  {
  }

  /** Theorem: unrotating keeps lengths, so an error after the rotation is the error before it. */
  lemma {:induction false} UnrotatedKeepsLength(r: Rotation, y: Vec)
    requires RotationOk(r) && |y| == |r.signs|
    ensures SumSquares(Unrotated(r, y)) == SumSquares(y)
  {
    hide Wht, Times, Signed, SumSquares;
    if IsPow2(|y|) {
      var s, d := r.invSqrtD, |y| as real;
      SquaresTimes(s, Signed(Wht(y), r.signs));
      SignsKeepSquares(Wht(y), r.signs);
      WhtScalesSquares(y);
      Regrouped(s * s, d, SumSquares(y));
    } else {
      SignsKeepSquares(y, r.signs);
    }
  }

  lemma {:induction false} UnrotatedMinus(r: Rotation, a: Vec, b: Vec)
    requires |a| == |b| == |r.signs|
    ensures Unrotated(r, Minus(a, b)) == Minus(Unrotated(r, a), Unrotated(r, b))
  {
    hide Wht, Times, Signed, Minus;
    if IsPow2(|a|) {
      WhtMinus(a, b);
      SignedMinus(Wht(a), Wht(b), r.signs);
      TimesMinus(r.invSqrtD, Signed(Wht(a), r.signs), Signed(Wht(b), r.signs));
    } else {
      SignedMinus(a, b, r.signs);
    }
  }

  lemma {:induction false} SignedMinus(a: Vec, b: Vec, signs: Vec)
    requires |a| == |b| == |signs|
    ensures Signed(Minus(a, b), signs) == Minus(Signed(a, signs), Signed(b, signs))
  {
    forall i | 0 <= i < |a|
      ensures Signed(Minus(a, b), signs)[i] == Minus(Signed(a, signs), Signed(b, signs))[i]
    {
      Distribute(signs[i], a[i], b[i]);
    }
  }

  lemma {:induction false} TimesMinus(r: real, a: Vec, b: Vec)
    requires |a| == |b|
    ensures Times(r, Minus(a, b)) == Minus(Times(r, a), Times(r, b))
  {
    forall i | 0 <= i < |a|
      ensures Times(r, Minus(a, b))[i] == Minus(Times(r, a), Times(r, b))[i]
    {
      Distribute(r, a[i], b[i]);
    }
  }

  // ----- centroids

  predicate Ascending(cs: Vec) {
    forall i, j | 0 <= i < j < |cs| :: cs[i] < cs[j]
  }

  /** The midpoints between neighbouring centroids. */
  predicate Midpoints(cs: Vec, bs: Vec) {
    && |cs| == |bs| + 1 && Ascending(cs)
    && forall i | 0 <= i < |bs| :: bs[i] == (cs[i] + cs[i + 1]) / 2.0
  }

  function Square(x: real): real {
    x * x
  }

  method FindNearest(boundaries: Vec, val: real, ghost cs: Vec) returns (lo: nat)
    requires Midpoints(cs, boundaries)
    ensures lo < |cs|
    ensures forall j | 0 <= j < |cs| :: Square(val - cs[lo]) <= Square(val - cs[j])
  {
    lo := 0;
    var hi := |boundaries|;
    while lo < hi
      invariant 0 <= lo <= hi <= |boundaries|
      invariant forall i | 0 <= i < lo :: boundaries[i] < val
      invariant forall i | hi <= i < |boundaries| :: val <= boundaries[i]
    {
      var mid := (lo + hi) / 2;
      if val <= boundaries[mid] {
        MidpointsAscend(cs, boundaries);
        hi := mid;
      } else {
        MidpointsAscend(cs, boundaries);
        lo := mid + 1;
      }
    }
    forall j | 0 <= j < |cs|
      ensures Square(val - cs[lo]) <= Square(val - cs[j])
    {
      if j < lo {
        assert cs[j] <= cs[lo - 1] < cs[lo] && boundaries[lo - 1] < val;
        Closer(val, cs[lo], cs[j]);
      } else if j > lo {
        assert cs[lo] < cs[lo + 1] <= cs[j] && val <= boundaries[lo];
        Closer(val, cs[lo], cs[j]);
      }
    }
  }

  lemma {:induction false} MidpointsAscend(cs: Vec, bs: Vec)
    requires Midpoints(cs, bs)
    ensures forall i, j | 0 <= i <= j < |bs| :: bs[i] <= bs[j]
  {
    forall i, j | 0 <= i <= j < |bs|
      ensures bs[i] <= bs[j]
    {
      assert cs[i] <= cs[j] && cs[i + 1] <= cs[j + 1];
    }
  }

  lemma {:induction false} Closer(val: real, near: real, far: real)
    requires (far < near && far + near <= 2.0 * val) || (near < far && 2.0 * val <= near + far)
    ensures Square(val - near) <= Square(val - far)
  {
    var gap := far - near;
    assert Square(val - far) - Square(val - near) == gap * ((near + far) - 2.0 * val);
    SameSign(gap, (near + far) - 2.0 * val);
  }

  lemma {:induction false} SameSign(x: real, y: real)
    requires (x >= 0.0 && y >= 0.0) || (x <= 0.0 && y <= 0.0)
    ensures x * y >= 0.0
  {
  }

  // ----- quantizing and back

  function Chosen(cs: Vec, indices: seq<nat>): (y: Vec)
    requires forall i | 0 <= i < |indices| :: indices[i] < |cs|
    ensures |y| == |indices|
  {
    seq(|indices|, i requires 0 <= i < |indices| => cs[indices[i]])
  }

  /** A vector too short to normalise is stored as zero. */
  const TINY: real := 0.0000000001

  lemma {:induction false} TinyIs()
    ensures TINY == 0.0000000001
  {
  }

  /** What indices stand for. */
  function Reconstructed(r: Rotation, cs: Vec, indices: seq<nat>, norm: real): (x: Vec)
    requires |indices| == |r.signs| && forall i | 0 <= i < |indices| :: indices[i] < |cs|
    ensures |x| == |indices|
  {
    Times(norm, Unrotated(r, Chosen(cs, indices)))
  }

  function ErrorOf(r: Rotation, cs: Vec, x: Vec, indices: seq<nat>, norm: real): real
    requires |x| == |indices| == |r.signs| && forall i | 0 <= i < |indices| :: indices[i] < |cs|
  {
    SumSquares(Minus(x, Reconstructed(r, cs, indices, norm)))
  }

  /** The error made on the vector is the error made on its rotated direction, scaled back. */
  lemma {:induction false} ErrorIsRotated(r: Rotation, cs: Vec, x: Vec, indices: seq<nat>, norm: real)
    requires RotationOk(r) && |x| == |indices| == |r.signs| && norm > 0.0
    requires forall i | 0 <= i < |indices| :: indices[i] < |cs|
    ensures ErrorOf(r, cs, x, indices, norm)
      == (norm * norm) * SumSquares(Minus(Rotated(r, Times(1.0 / norm, x)), Chosen(cs, indices)))
  {
    hide Rotated, Unrotated, Times, Minus, SumSquares, Chosen;
    var u := Times(1.0 / norm, x);
    var y, c := Rotated(r, u), Chosen(cs, indices);
    RotationsUndo(r, u);
    Renormalised(norm, x);
    UnrotatedMinus(r, y, c);
    TimesMinus(norm, Unrotated(r, y), Unrotated(r, c));
    SquaresTimes(norm, Unrotated(r, Minus(y, c)));
    UnrotatedKeepsLength(r, Minus(y, c));
  }

  lemma {:induction false} Renormalised(norm: real, x: Vec)
    requires norm > 0.0
    ensures Times(norm, Times(1.0 / norm, x)) == x
  {
    hide Times;
    var inv := 1.0 / norm;
    TimesTwice(norm, inv, 1.0, x);
    TimesOne(1.0, x);
  }

  lemma {:induction false} SmallerTermByTerm(a: Vec, b: Vec)
    requires |a| == |b| && forall i | 0 <= i < |a| :: Square(a[i]) <= Square(b[i])
    ensures SumSquares(a) <= SumSquares(b)
    decreases |a|
  {
    if a != [] {
      var n := |a| - 1;
      assert Square(a[n]) <= Square(b[n]);
      SmallerTermByTerm(a[..n], b[..n]);
    }
  }

  /** Theorem: no other choice of centroids reconstructs the vector with a smaller squared error. */
  lemma {:induction false} QuantizerIsBest(r: Rotation, cs: Vec, x: Vec, indices: seq<nat>, other: seq<nat>, norm: real)
    requires RotationOk(r) && |x| == |indices| == |other| == |r.signs| && norm > 0.0
    requires AreNearest(Rotated(r, Times(1.0 / norm, x)), cs, indices) && forall i | 0 <= i < |x| :: other[i] < |cs|
    ensures ErrorOf(r, cs, x, indices, norm) <= ErrorOf(r, cs, x, other, norm)
  {
    hide Rotated, SumSquares, ErrorOf, Square;
    var y := Rotated(r, Times(1.0 / norm, x));
    ErrorIsRotated(r, cs, x, indices, norm);
    ErrorIsRotated(r, cs, x, other, norm);
    var a, b := Minus(y, Chosen(cs, indices)), Minus(y, Chosen(cs, other));
    forall i | 0 <= i < |a|
      ensures Square(a[i]) <= Square(b[i])
    {
      assert a[i] == y[i] - cs[indices[i]] && b[i] == y[i] - cs[other[i]];
    }
    SmallerTermByTerm(a, b);
    Monotone(norm, SumSquares(a), SumSquares(b));
  }

  lemma {:induction false} Monotone(n: real, p: real, q: real)
    requires p <= q
    ensures (n * n) * p <= (n * n) * q
  {
    SameSign(n, n);
    SameSign(n * n, q - p);
    Distribute(n * n, q, p);
  }

  // ----- the stored form

  /** How many centroids an index of `w` bits tells apart. */
  function Levels(w: nat): nat
    requires Width(w)
  {
    match w
    case 1 => 2
    case 2 => 4
    case 3 => 8
    case _ => 16
  }

  /** The indices a packed vector holds. */
  function Indices(packed: seq<Byte>, w: nat, n: nat): (ks: seq<nat>)
    requires Width(w) && 8 * |packed| >= Bit(w, n)
    ensures |ks| == n
  {
    var x := Unpacked(packed, w, n);
    seq(n, i requires 0 <= i < n => x[i] as nat)
  }

  lemma {:induction false} IndicesInRange(packed: seq<Byte>, w: nat, n: nat)
    requires Width(w) && 8 * |packed| >= Bit(w, n)
    ensures forall i | 0 <= i < n :: Indices(packed, w, n)[i] < Levels(w)
  {
    hide Fits;
    UnpackedFit(packed, w, n);
    forall i | 0 <= i < n
      ensures Indices(packed, w, n)[i] < Levels(w)
    {
      FitIsBelow(Unpacked(packed, w, n)[i], w);
    }
  }

  lemma {:induction false} FitIsBelow(v: Byte, w: nat)
    requires Width(w) && Fits(v, w)
    ensures v as nat < Levels(w)
  {
  }

  lemma {:induction false} BelowFits(k: nat, w: nat)
    requires Width(w) && k < Levels(w)
    ensures k < 16 && Fits(k as Byte, w) && (k as Byte) as nat == k
  {
  }

  method SignInPlace(y: array<real>, signs: Vec)
    requires y.Length == |signs|
    modifies y
    ensures y[..] == Signed(old(y[..]), signs)
  {
    ghost var z := y[..];
    for i := 0 to y.Length
      invariant forall j | 0 <= j < y.Length :: y[j] == if j < i then z[j] * signs[j] else z[j]
    {
      y[i] := y[i] * signs[i];
    }
    forall j | 0 <= j < y.Length
      ensures y[j] == Signed(z, signs)[j]
    {
    }
  }

  method ScaleInPlace(y: array<real>, scale: real)
    modifies y
    ensures y[..] == Times(scale, old(y[..]))
  {
    ghost var z := y[..];
    for i := 0 to y.Length
      invariant forall j | 0 <= j < y.Length :: y[j] == if j < i then scale * z[j] else z[j]
    {
      y[i] := y[i] * scale;
    }
    forall j | 0 <= j < y.Length
      ensures y[j] == Times(scale, z)[j]
    {
    }
  }

  method RotateInPlace(r: Rotation, y: array<real>)
    requires y.Length == |r.signs|
    modifies y
    ensures y[..] == Rotated(r, old(y[..]))
  {
    hide Wht, Signed, Times;
    SignInPlace(y, r.signs);
    if IsPow2(y.Length) {
      WhtInPlace(y);
      ScaleInPlace(y, r.invSqrtD);
    }
  }

  method Nearest(y: Vec, boundaries: Vec, w: nat, ghost cs: Vec) returns (indices: seq<Byte>, ghost ks: seq<nat>)
    requires Width(w) && Midpoints(cs, boundaries) && |cs| == Levels(w)
    ensures |ks| == |y| && Bytes(indices, ks, w) && AreNearest(y, cs, ks)
  {
    hide Width, Levels;
    ks, indices := [], [];
    while |indices| < |y|
      invariant |indices| == |ks| <= |y| && Bytes(indices, ks, w) && AreNearest(y[..|ks|], cs, ks)
    {
      var k := FindNearest(boundaries, y[|indices|], cs);
      BelowFits(k, w);
      indices := indices + [k as Byte];
      ks := ks + [k];
    }
    assert y[..|y|] == y;
  }

  /** Each index names a centroid nearest to its entry. */
  predicate AreNearest(y: Vec, cs: Vec, ks: seq<nat>) {
    && |ks| == |y|
    && (forall i | 0 <= i < |ks| :: ks[i] < |cs|)
    && forall i, j | 0 <= i < |ks| && 0 <= j < |cs| :: Square(y[i] - cs[ks[i]]) <= Square(y[i] - cs[j])
  }

  /** Quantizes a vector whose length is `norm`. The packed indices decode to a choice of centroids, and no other choice
      reconstructs the vector with a smaller squared error. */
  method QuantizeMse(r: Rotation, x: Vec, boundaries: Vec, norm: real, w: nat, ghost cs: Vec)
    returns (packed: seq<Byte>, stored: real)
    requires RotationOk(r) && |x| == |r.signs| && Width(w) && Midpoints(cs, boundaries) && |cs| == Levels(w)
    ensures |packed| == PackedBytes(|x|, w) && 8 * |packed| >= Bit(w, |x|)
    ensures norm < 0.0000000001 ==> stored == 0.0 && packed == Zeros(|packed|)
    ensures norm >= 0.0000000001 ==> stored == norm && IsBest(r, cs, x, Indices(packed, w, |x|), norm)
  {
    hide *;
    TinyIs();
    if norm < TINY {
      RoomForAll(|x|, w);
      return Zeros(PackedBytes(|x|, w)), 0.0;
    }
    var y := Normalised(x, norm);
    RotateInPlace(r, y);
    var indices, ks := Nearest(y[..], boundaries, w, cs);
    BytesLength(indices, ks, w);
    packed := PackIndices(indices, w);
    stored := norm;
    IndicesBack(packed, indices, ks, w);
    BestOfAll(r, cs, x, ks, norm);
  }

  method Normalised(x: Vec, norm: real) returns (y: array<real>)
    requires norm >= TINY
    ensures fresh(y) && y.Length == |x| && y[..] == Times(1.0 / norm, x)
  {
    var inv := 1.0 / norm;
    y := new real[|x|](i requires 0 <= i < |x| => x[i] * inv);
    forall j | 0 <= j < y.Length
      ensures y[j] == Times(inv, x)[j]
    {
    }
  }

  lemma {:induction false} BytesLength(indices: seq<Byte>, ks: seq<nat>, w: nat)
    requires Width(w) && Bytes(indices, ks, w)
    ensures |indices| == |ks|
  {
  }

  lemma {:induction false} RoomForAll(n: nat, w: nat)
    ensures 8 * PackedBytes(n, w) >= Bit(w, n)
  {
  }

  /** The octets hold the indices. */
  predicate Bytes(indices: seq<Byte>, ks: seq<nat>, w: nat)
    requires Width(w)
  {
    && |indices| == |ks|
    && forall i | 0 <= i < |ks| :: ks[i] < Levels(w) && ks[i] < 16 && indices[i] == ks[i] as Byte
  }

  lemma {:induction false} IndicesBack(packed: seq<Byte>, indices: seq<Byte>, ks: seq<nat>, w: nat)
    requires Width(w) && Bytes(indices, ks, w)
    requires 8 * |packed| >= Bit(w, |ks|) && Unpacked(packed, w, |ks|) == AllKept(indices, w)
    ensures Indices(packed, w, |ks|) == ks
  {
    hide Fits, Levels, Unpacked, AllKept;
    forall i | 0 <= i < |ks|
      ensures Fits(indices[i], w) && indices[i] as nat == ks[i]
    {
      BelowFits(ks[i], w);
    }
    AllFit(indices, w);
  }

  /** No other choice of centroids comes closer. */
  ghost predicate IsBest(r: Rotation, cs: Vec, x: Vec, indices: seq<nat>, norm: real)
    requires |x| == |r.signs|
  {
    && |indices| == |x| && (forall i | 0 <= i < |x| :: indices[i] < |cs|)
    && forall other: seq<nat> | |other| == |x| && (forall i | 0 <= i < |x| :: other[i] < |cs|) ::
        ErrorOf(r, cs, x, indices, norm) <= ErrorOf(r, cs, x, other, norm)
  }

  lemma {:induction false} BestOfAll(r: Rotation, cs: Vec, x: Vec, indices: seq<nat>, norm: real)
    requires RotationOk(r) && |x| == |indices| == |r.signs| && norm >= TINY
    requires AreNearest(Rotated(r, Times(1.0 / norm, x)), cs, indices)
    ensures IsBest(r, cs, x, indices, norm)
  {
    hide Rotated, ErrorOf, Square;
    forall other: seq<nat> | |other| == |x| && (forall i | 0 <= i < |x| :: other[i] < |cs|)
      ensures ErrorOf(r, cs, x, indices, norm) <= ErrorOf(r, cs, x, other, norm)
    {
      QuantizerIsBest(r, cs, x, indices, other, norm);
    }
  }

  /** Reads a packed vector back; one that was stored as zero, or is too short, gives zeros. */
  method DequantizeMse(r: Rotation, cs: Vec, packed: seq<Byte>, norm: real, w: nat) returns (y: array<real>)
    requires Width(w) && |cs| == Levels(w)
    ensures y.Length == |r.signs|
    ensures norm < 0.0000000001 || |packed| < PackedBytes(y.Length, w) ==> forall i | 0 <= i < y.Length :: y[i] == 0.0
    ensures norm >= 0.0000000001 && |packed| >= PackedBytes(y.Length, w) ==>
        && 8 * |packed| >= Bit(w, y.Length)
        && (forall i | 0 <= i < y.Length :: Indices(packed, w, y.Length)[i] < |cs|)
        && y[..] == Reconstructed(r, cs, Indices(packed, w, y.Length), norm)
  {
    hide Unrotated, Unpacked, Width, Levels;
    var d := |r.signs|;
    RoomForAll(d, w);
    if norm < TINY || |packed| < PackedBytes(d, w) {
      y := new real[d](i => 0.0);
      return;
    }
    IndicesInRange(packed, w, d);
    PrefixUnpacked(packed, PackedBytes(d, w), w, d);
    var indices := UnpackIndices(packed[..PackedBytes(d, w)], w, d);
    ghost var ks := Indices(packed, w, d);
    y := new real[d](i requires 0 <= i < d => if indices[i] as nat < |cs| then cs[indices[i] as nat] else 0.0);
    assert y[..] == Chosen(cs, ks);
    UnrotateInPlace(r, y, norm);
  }

  lemma {:induction false} PrefixUnpacked(packed: seq<Byte>, m: nat, w: nat, n: nat)
    requires Width(w) && m <= |packed| && 8 * m >= Bit(w, n)
    ensures Unpacked(packed[..m], w, n) == Unpacked(packed, w, n)
  {
    if n > 0 {
      NextBit(w, n - 1);
      PrefixUnpacked(packed, m, w, n - 1);
    }
  }

  method UnrotateInPlace(r: Rotation, y: array<real>, norm: real)
    requires y.Length == |r.signs|
    modifies y
    ensures y[..] == Times(norm, Unrotated(r, old(y[..])))
  {
    hide Wht;
    if IsPow2(y.Length) {
      WhtInPlace(y);
      SignAndScale(y, r.signs, r.invSqrtD, norm);
    } else {
      SignAndScale(y, r.signs, 1.0, norm);
      TimesOne(1.0, Signed(old(y[..]), r.signs));
    }
  }

  /** The factors of the last loop, multiplied first. */
  method SignAndScale(y: array<real>, signs: Vec, inv: real, norm: real)
    requires y.Length == |signs|
    modifies y
    ensures y[..] == Times(norm, Times(inv, Signed(old(y[..]), signs)))
  {
    ghost var z := y[..];
    for i := 0 to y.Length
      invariant forall j | 0 <= j < y.Length :: y[j] == if j < i then norm * (inv * (z[j] * signs[j])) else z[j]
    {
      Reordered(y[i], inv, signs[i], norm);
      y[i] := y[i] * (inv * signs[i] * norm);
    }
    forall j | 0 <= j < y.Length
      ensures y[j] == Times(norm, Times(inv, Signed(z, signs)))[j]
    {
      assert Signed(z, signs)[j] == z[j] * signs[j];
      assert Times(inv, Signed(z, signs))[j] == inv * (z[j] * signs[j]);
    }
  }

  lemma {:induction false} Reordered(v: real, inv: real, sign: real, norm: real)
    ensures v * (inv * sign * norm) == norm * (inv * (v * sign))
  {
    assert inv * sign * norm == norm * (inv * sign);
  }
}
