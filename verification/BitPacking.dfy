/** Indices of one to four bits packed into octets (src/common/kv_quant.rs). */
module BitPacking {
  type Byte = bv8

  predicate Width(w: nat) {
    1 <= w <= 4
  }

  function Mask(w: nat): (m: Byte)
    requires Width(w)
  {
    match w
    case 1 => 1
    case 2 => 3
    case 3 => 7
    case _ => 15
  }

  /** A bit position as a shift. */
  function Shift(s: nat): (t: Byte)
    requires s <= 8
    ensures t <= 8
  {
    match s
    case 0 => 0
    case 1 => 1
    case 2 => 2
    case 3 => 3
    case 4 => 4
    case 5 => 5
    case 6 => 6
    case 7 => 7
    case _ => 8
  }

  function Right(q: Byte, s: nat): Byte
    requires s <= 8
  {
    q >> Shift(s)
  }

  function Left(q: Byte, s: nat): Byte
    requires s <= 8
  {
    q << Shift(s)
  }

  function Or(a: Byte, b: Byte): Byte {
    a | b
  }

  /** The bits of a value that a field of width `w` has. */
  function Kept(v: Byte, w: nat): Byte
    requires Width(w)
  {
    v & Mask(w)
  }

  predicate Fits(v: Byte, w: nat)
    requires Width(w)
  {
    v <= Mask(w)
  }

  // ----- one field

  /** What `w` bits from bit `b` on hold, lowest bit first; they may end in the next octet. */
  function FieldAt(p: seq<Byte>, w: nat, b: nat): Byte
    requires Width(w) && 8 * |p| >= b + w
  {
    var v := Kept(Right(p[b / 8], b % 8), w);
    if b % 8 + w > 8 then Or(v, Kept(Left(p[b / 8 + 1], 8 - b % 8), w)) else v
  }

  /** Nothing is set from bit `b` on. */
  predicate Clear(p: seq<Byte>, b: nat) {
    && (b / 8 < |p| ==> Right(p[b / 8], b % 8) == 0)
    && forall k | b / 8 < k < |p| :: p[k] == 0
  }

  /** `v` or-ed in at bit `b`, spilling into the next octet when it has to. */
  function Stored(p: seq<Byte>, w: nat, b: nat, v: Byte): (q: seq<Byte>)
    requires Width(w) && 8 * |p| >= b + w
    ensures |q| == |p|
  {
    var q := p[b / 8 := Or(p[b / 8], Left(v, b % 8))];
    if b % 8 + w > 8 then q[b / 8 + 1 := Or(q[b / 8 + 1], Right(v, 8 - b % 8))] else q
  }

  lemma {:induction false} ReadsBack(q: Byte, v: Byte, s: nat, w: nat)
    requires Width(w) && s < 8 && s + w <= 8 && Fits(v, w) && Right(q, s) == 0
    ensures Kept(Right(Or(q, Left(v, s)), s), w) == v
    ensures Right(Or(q, Left(v, s)), s + w) == 0
  {
  }

  lemma {:induction false} ReadsBackSplit(q: Byte, v: Byte, s: nat, w: nat)
    requires Width(w) && s < 8 && s + w > 8 && Fits(v, w) && Right(q, s) == 0
    ensures Or(Kept(Right(Or(q, Left(v, s)), s), w), Kept(Left(Right(v, 8 - s), 8 - s), w)) == v
    ensures Right(Right(v, 8 - s), s + w - 8) == 0
  {
  }

  /** Bits below `s` do not see what is or-ed in at `s`. */
  lemma {:induction false} LowerBits(q: Byte, v: Byte, s: Byte, t: Byte, m: Byte)
    requires s <= 8 && t <= 8 && (m << t) & (0xFF << s) == 0
    ensures ((q | (v << s)) >> t) & m == (q >> t) & m
  {
  }

  lemma {:induction false} Apart(s: nat, t: nat, w: nat)
    requires Width(w) && s < 8 && t + w <= s
    ensures (Mask(w) << Shift(t)) & (0xFF << Shift(s)) == 0
  {
  }

  lemma {:induction false} LowerField(q: Byte, v: Byte, s: nat, t: nat, w: nat)
    requires Width(w) && s < 8 && t + w <= s
    ensures Kept(Right(Or(q, Left(v, s)), t), w) == Kept(Right(q, t), w)
  {
    hide Shift, Mask;
    Apart(s, t, w);
    LowerBits(q, v, Shift(s), Shift(t), Mask(w));
  }

  lemma {:induction false} LowerEnd(q: Byte, v: Byte, s: nat, t: nat, w: nat)
    requires Width(w) && s < 8 && t < 8 && t + w > 8 && t + w - 8 <= s
    ensures Kept(Left(Or(q, Left(v, s)), 8 - t), w) == Kept(Left(q, 8 - t), w)
  {
  }

  /** What the ends of an octet look like. */
  lemma {:induction false} Ends(q: Byte)
    ensures Right(q, 8) == 0 && (q == 0 ==> Right(q, 0) == 0)
    ensures Or(0, q) == q && forall s | 0 <= s < 8 :: Or(q, Left(0, s)) == q
  {
  }

  lemma {:induction false} StoreReads(p: seq<Byte>, w: nat, b: nat, v: Byte)
    requires Width(w) && 8 * |p| >= b + w && Clear(p, b) && Fits(v, w)
    ensures FieldAt(Stored(p, w, b, v), w, b) == v && Clear(Stored(p, w, b, v), b + w)
  {
    hide Left, Right, Or, Kept, Fits;
    var s, k := b % 8, b / 8;
    if s + w <= 8 {
      ReadsBack(p[k], v, s, w);
      Ends(Or(p[k], Left(v, s)));
      if k + 1 < |p| {
        Ends(p[k + 1]);
      }
    } else {
      ReadsBackSplit(p[k], v, s, w);
      Ends(Right(v, 8 - s));
    }
  }

  lemma {:induction false} StoreKeeps(p: seq<Byte>, w: nat, b: nat, v: Byte, c: nat)
    requires Width(w) && 8 * |p| >= b + w && c + w <= b
    ensures FieldAt(Stored(p, w, b, v), w, c) == FieldAt(p, w, c)
  {
    hide Left, Right, Or, Kept;
    var s, t := b % 8, c % 8;
    if c / 8 == b / 8 {
      LowerField(p[b / 8], v, s, t, w);
    } else if c / 8 + 1 == b / 8 && t + w > 8 {
      LowerEnd(p[b / 8], v, s, t, w);
    }
  }

  // ----- fields bit by bit

  /** The octet with only bit `k` set. */
  function Mark(k: nat): (m: Byte)
    requires k < 8
  {
    match k
    case 0 => 0x01
    case 1 => 0x02
    case 2 => 0x04
    case 3 => 0x08
    case 4 => 0x10
    case 5 => 0x20
    case 6 => 0x40
    case _ => 0x80
  }

  predicate Meets(q: Byte, m: Byte) {
    q & m != 0
  }

  predicate IsSet(q: Byte, k: nat)
    requires k < 8
  {
    Meets(q, Mark(k))
  }

  lemma {:induction false} DownMoves(q: Byte, s: nat, m: Byte)
    requires s <= 8
    ensures Meets(Right(q, s), m) <==> Meets(q, Left(m, s))
  {
    match s
    case 0 =>
    case 1 =>
    case 2 =>
    case 3 =>
    case 4 =>
    case 5 =>
    case 6 =>
    case 7 =>
    case _ =>
  }

  lemma {:induction false} UpMoves(q: Byte, s: nat, m: Byte)
    requires s <= 8
    ensures Meets(Left(q, s), m) <==> Meets(q, Right(m, s))
  {
    match s
    case 0 =>
    case 1 =>
    case 2 =>
    case 3 =>
    case 4 =>
    case 5 =>
    case 6 =>
    case 7 =>
    case _ =>
  }

  lemma {:induction false} OneShiftMore(m: Byte, s: Byte)
    requires s < 8
    ensures (m << s) << 1 == m << (s + 1) && (m >> s) >> 1 == m >> (s + 1)
  {
  }

  lemma {:induction false} MarkMovesOnce(k: nat)
    requires k < 8
    ensures Mark(k) << 1 == if k < 7 then Mark(k + 1) else 0
    ensures Mark(k) >> 1 == if k > 0 then Mark(k - 1) else 0
    ensures Shift(k + 1) == Shift(k) + 1 && Shift(k) < 8
  {
  }

  lemma {:induction false} MarkMoves(k: nat, s: nat)
    requires k < 8 && s <= 8
    ensures Left(Mark(k), s) == if k + s < 8 then Mark(k + s) else 0
    ensures Right(Mark(k), s) == if k >= s then Mark(k - s) else 0
  {
    hide Mark, Shift;
    if s == 0 {
      NoShift(Mark(k));
    } else {
      MarkMoves(k, s - 1);
      MarkMovesOnce(s - 1);
      OneShiftMore(Mark(k), Shift(s - 1));
      ZeroStays();
      if k + s - 1 < 8 {
        MarkMovesOnce(k + s - 1);
      }
      if k >= s - 1 {
        MarkMovesOnce(k - (s - 1));
      }
    }
  }

  lemma {:induction false} NoShift(m: Byte)
    ensures m << Shift(0) == m && m >> Shift(0) == m
  {
  }

  lemma {:induction false} ZeroStays()
    ensures (0 as Byte) << 1 == 0 && (0 as Byte) >> 1 == 0
  {
  }

  lemma {:induction false} ShiftedBits(q: Byte, s: nat, k: nat)
    requires s <= 8 && k < 8
    ensures IsSet(Right(q, s), k) <==> k + s < 8 && IsSet(q, k + s)
    ensures IsSet(Left(q, s), k) <==> k >= s && IsSet(q, k - s)
  {
    hide Mark, Meets, Left, Right;
    DownMoves(q, s, Mark(k));
    UpMoves(q, s, Mark(k));
    MarkMoves(k, s);
    NoBits(q);
  }

  lemma {:induction false} NoBits(q: Byte)
    ensures !Meets(q, 0)
  {
  }

  lemma {:induction false} KeptBits(v: Byte, u: Byte, w: nat, k: nat)
    requires Width(w) && k < 8
    ensures IsSet(Kept(v, w), k) <==> k < w && IsSet(v, k)
    ensures IsSet(Or(v, u), k) <==> IsSet(v, k) || IsSet(u, k)
  {
  }

  /** Theorem: bit `k` of a field is bit `b + k` of the octets, counted from the lowest bit of the first; a field of
      `w` bits holds the numbers below 2 to the `w`. */
  lemma {:induction false} FieldBits(p: seq<Byte>, w: nat, b: nat, k: nat)
    requires Width(w) && 8 * |p| >= b + w && k < 8
    ensures IsSet(FieldAt(p, w, b), k) <==> k < w && IsSet(p[(b + k) / 8], (b + k) % 8)
    ensures forall v: Byte :: Fits(v, w) <==> v < if w == 1 then 2 else if w == 2 then 4 else if w == 3 then 8 else 16
  {
    hide IsSet, Right, Left, Kept, Or;
    var s := b % 8;
    ShiftedBits(p[b / 8], s, k);
    KeptBits(Right(p[b / 8], s), 0, w, k);
    if s + w > 8 {
      ShiftedBits(p[b / 8 + 1], 8 - s, k);
      KeptBits(Left(p[b / 8 + 1], 8 - s), 0, w, k);
      KeptBits(Kept(Right(p[b / 8], s), w), Kept(Left(p[b / 8 + 1], 8 - s), w), w, k);
    }
    if k < w {
      assert (b + k) / 8 == if s + k < 8 then b / 8 else b / 8 + 1;
      assert (b + k) % 8 == if s + k < 8 then s + k else s + k - 8;
    }
  }

  // ----- whole vectors

  /** The first bit of field `j`. */
  function Bit(w: nat, j: nat): nat {
    w * j
  }

  lemma {:induction false} NextBit(w: nat, j: nat)
    ensures Bit(w, j + 1) == Bit(w, j) + w
  {
  }

  lemma {:induction false} BitWithin(w: nat, n: nat, m: nat)
    requires n <= m
    ensures Bit(w, n) <= Bit(w, m)
  {
    if n < m {
      BitWithin(w, n, m - 1);
      NextBit(w, m - 1);
    }
  }

  function PackedBytes(n: nat, w: nat): nat {
    (Bit(w, n) + 7) / 8
  }

  lemma {:induction false} BytesAreLeast(n: nat, w: nat, bytes: nat)
    ensures PackedBytes(n, w) <= bytes <==> w * n <= 8 * bytes
  {
  }

  /** The first `n` fields. */
  function Unpacked(p: seq<Byte>, w: nat, n: nat): (x: seq<Byte>)
    requires Width(w) && 8 * |p| >= Bit(w, n)
    ensures |x| == n
  {
    if n == 0 then [] else
      NextBit(w, n - 1);
      Unpacked(p, w, n - 1) + [FieldAt(p, w, Bit(w, n - 1))]
  }

  /** What a vector keeps in fields of width `w`. */
  function AllKept(x: seq<Byte>, w: nat): (y: seq<Byte>)
    requires Width(w)
    ensures |y| == |x|
  {
    if x == [] then [] else AllKept(x[..|x| - 1], w) + [Kept(x[|x| - 1], w)]
  }

  lemma {:induction false} AllFit(x: seq<Byte>, w: nat)
    requires Width(w) && forall i | 0 <= i < |x| :: Fits(x[i], w)
    ensures AllKept(x, w) == x
  {
    hide Fits, Kept;
    if x != [] {
      var n := |x| - 1;
      AllFit(x[..n], w);
      FitIsKept(x[n], w);
      assert x == x[..n] + [x[n]];
    }
  }

  lemma {:induction false} FitIsKept(v: Byte, w: nat)
    requires Width(w)
    ensures Fits(Kept(v, w), w) && (Fits(v, w) ==> Kept(v, w) == v)
  {
  }

  lemma {:induction false} UnpackedKeeps(p: seq<Byte>, w: nat, b: nat, v: Byte, n: nat)
    requires Width(w) && 8 * |p| >= b + w && Bit(w, n) <= b
    ensures Unpacked(Stored(p, w, b, v), w, n) == Unpacked(p, w, n)
  {
    hide FieldAt, Stored;
    if n > 0 {
      NextBit(w, n - 1);
      UnpackedKeeps(p, w, b, v, n - 1);
      StoreKeeps(p, w, b, v, Bit(w, n - 1));
    }
  }

  /** The first `n` indices are in, nothing else is. */
  predicate Filled(p: seq<Byte>, w: nat, x: seq<Byte>, n: nat)
    requires Width(w) && n <= |x|
  {
    BitWithin(w, n, |x|);
    && 8 * |p| >= Bit(w, |x|)
    && Clear(p, Bit(w, n))
    && Unpacked(p, w, n) == AllKept(x[..n], w)
  }

  lemma {:induction false} OneMore(p: seq<Byte>, w: nat, x: seq<Byte>, n: nat)
    requires Width(w) && n < |x| && Filled(p, w, x, n)
    ensures 8 * |p| >= Bit(w, n) + w
    ensures Filled(Stored(p, w, Bit(w, n), Kept(x[n], w)), w, x, n + 1)
  {
    hide Stored, Clear, FieldAt, Bit, Kept, Fits;
    NextBit(w, n);
    BitWithin(w, n, |x|);
    BitWithin(w, n + 1, |x|);
    var v := Kept(x[n], w);
    FitIsKept(x[n], w);
    StoreReads(p, w, Bit(w, n), v);
    UnpackedKeeps(p, w, Bit(w, n), v, n);
    assert x[..n + 1][..n] == x[..n];
  }

  function Zeros(n: nat): (p: seq<Byte>)
    ensures |p| == n && forall k | 0 <= k < n :: p[k] == 0
  {
    seq(n, _ => 0)
  }

  lemma {:induction false} Empty(x: seq<Byte>, w: nat)
    requires Width(w)
    ensures Filled(Zeros(PackedBytes(|x|, w)), w, x, 0)
  {
    hide Right;
    assert Bit(w, 0) == 0;
    Ends(0);
  }

  method PackOneBit(x: seq<Byte>) returns (p: seq<Byte>)
    ensures |p| == PackedBytes(|x|, 1) && Filled(p, 1, x, |x|)
  {
    hide Filled, Left, Right, Or, Kept;
    p := Zeros(PackedBytes(|x|, 1));
    Empty(x, 1);
    for i := 0 to |x|
      invariant |p| == PackedBytes(|x|, 1) && Filled(p, 1, x, i)
    {
      OneMore(p, 1, x, i);
      OneBit(x[i]);
      Ends(p[i / 8]);
      assert p[i / 8 := p[i / 8]] == p;
      assert Stored(p, 1, Bit(1, i), Kept(x[i], 1)) == p[i / 8 := Or(p[i / 8], Left(Kept(x[i], 1), i % 8))];
      if Kept(x[i], 1) != 0 {
        p := p[i / 8 := Or(p[i / 8], Left(1, i % 8))];
      }
    }
  }

  lemma {:induction false} OneBit(v: Byte)
    ensures Kept(v, 1) == 0 || Kept(v, 1) == 1
  {
  }

  method PackThreeBit(x: seq<Byte>) returns (p: seq<Byte>)
    ensures |p| == PackedBytes(|x|, 3) && Filled(p, 3, x, |x|)
  {
    hide Filled, Left, Right, Or, Kept;
    p := Zeros(PackedBytes(|x|, 3));
    Empty(x, 3);
    for i := 0 to |x|
      invariant |p| == PackedBytes(|x|, 3) && Filled(p, 3, x, i)
    {
      OneMore(p, 3, x, i);
      var val := Kept(x[i], 3);
      var byteIdx, bitIdx := i * 3 / 8, i * 3 % 8;
      p := p[byteIdx := Or(p[byteIdx], Left(val, bitIdx))];
      if bitIdx > 5 && byteIdx + 1 < |p| {
        p := p[byteIdx + 1 := Or(p[byteIdx + 1], Right(val, 8 - bitIdx))];
      }
    }
  }

  method PackTwoBit(x: seq<Byte>) returns (p: seq<Byte>)
    ensures |p| == PackedBytes(|x|, 2) && Filled(p, 2, x, |x|)
  {
    hide Filled, Left, Right, Or, Kept;
    p := Zeros(PackedBytes(|x|, 2));
    Empty(x, 2);
    var i := 0;
    while i < |x|
      invariant i % 4 == 0 && i <= |x| + 3
      invariant |p| == PackedBytes(|x|, 2) && Filled(p, 2, x, if i < |x| then i else |x|)
      decreases |x| + 3 - i
    {
      var byte: Byte := 0;
      ghost var n := i;
      FirstIsZero(p, 2, x, i);
      assert p[i / 4 := 0] == p;
      for j := 0 to 4
        invariant n == (if i + j < |x| then i + j else |x|)
        invariant Filled(p[i / 4 := byte], 2, x, n)
      {
        if i + j < |x| {
          ghost var q := p[i / 4 := byte];
          OneMore(q, 2, x, i + j);
          assert Stored(q, 2, Bit(2, i + j), Kept(x[i + j], 2)) == p[i / 4 := Or(byte, Left(Kept(x[i + j], 2), j * 2))];
          byte := Or(byte, Left(Kept(x[i + j], 2), j * 2));
          n := n + 1;
        }
      }
      p := p[i / 4 := byte];
      i := i + 4;
    }
  }

  /** The octet about to be written is still zero. */
  lemma {:induction false} FirstIsZero(p: seq<Byte>, w: nat, x: seq<Byte>, n: nat)
    requires Width(w) && n < |x| && Bit(w, n) % 8 == 0 && Filled(p, w, x, n)
    ensures Bit(w, n) / 8 < |p| && p[Bit(w, n) / 8] == 0
  {
    BitWithin(w, n, |x|);
    BitWithin(w, n + 1, |x|);
    NextBit(w, n);
    NotShifted(p[Bit(w, n) / 8]);
  }

  lemma {:induction false} NotShifted(q: Byte)
    ensures Right(q, 0) == q && Left(q, 0) == q
  {
  }

  method PackFourBit(x: seq<Byte>) returns (p: seq<Byte>)
    ensures |p| == PackedBytes(|x|, 4) && Filled(p, 4, x, |x|)
  {
    hide Filled, Left, Right, Or, Kept;
    p := Zeros(PackedBytes(|x|, 4));
    Empty(x, 4);
    var i := 0;
    while i < |x|
      invariant i % 2 == 0 && i <= |x| + 1
      invariant |p| == PackedBytes(|x|, 4) && Filled(p, 4, x, if i < |x| then i else |x|)
      decreases |x| + 1 - i
    {
      var lo := Kept(x[i], 4);
      var hi := if i + 1 < |x| then Kept(x[i + 1], 4) else 0;
      FirstIsZero(p, 4, x, i);
      NotShifted(lo);
      Ends(lo);
      OneMore(p, 4, x, i);
      ghost var q := p[i / 2 := lo];
      assert Stored(p, 4, Bit(4, i), lo) == q;
      if i + 1 < |x| {
        OneMore(q, 4, x, i + 1);
        assert Stored(q, 4, Bit(4, i + 1), hi) == p[i / 2 := Or(lo, Left(hi, 4))];
      }
      p := p[i / 2 := Or(lo, Left(hi, 4))];
      i := i + 2;
    }
  }

  // ----- unpacking

  lemma {:induction false} UnpackOne(p: seq<Byte>, w: nat, j: nat, n: nat)
    requires Width(w) && 8 * |p| >= Bit(w, n) && j < n
    ensures 8 * |p| >= Bit(w, j) + w
    ensures 8 * |p| >= Bit(w, j) && Unpacked(p, w, j + 1) == Unpacked(p, w, j) + [FieldAt(p, w, Bit(w, j))]
    ensures var b := Bit(w, j); b % 8 + w <= 8 ==> FieldAt(p, w, b) == Kept(Right(p[b / 8], b % 8), w)
  {
    NextBit(w, j);
    BitWithin(w, j + 1, n);
  }

  lemma {:induction false} NoFields(p: seq<Byte>, w: nat)
    requires Width(w)
    ensures Bit(w, 0) == 0 && Unpacked(p, w, 0) == []
  {
  }

  method UnpackOneBit(p: seq<Byte>, n: nat) returns (x: seq<Byte>)
    requires 8 * |p| >= Bit(1, n)
    ensures x == Unpacked(p, 1, n)
  {
    hide Right, Kept, Unpacked;
    x := [];
    for i := 0 to n
      invariant x == Unpacked(p, 1, i)
    {
      UnpackOne(p, 1, i, n);
      x := x + [Kept(Right(p[i / 8], i % 8), 1)];
    }
  }

  method UnpackThreeBit(p: seq<Byte>, n: nat) returns (x: seq<Byte>)
    requires 8 * |p| >= Bit(3, n)
    ensures x == Unpacked(p, 3, n)
  {
    hide Right, Left, Or, Kept;
    x := [];
    for i := 0 to n
      invariant x == Unpacked(p, 3, i)
    {
      UnpackOne(p, 3, i, n);
      var byteIdx, bitIdx := i * 3 / 8, i * 3 % 8;
      var val := Kept(Right(p[byteIdx], bitIdx), 3);
      if bitIdx > 5 && byteIdx + 1 < |p| {
        val := Or(val, Kept(Left(p[byteIdx + 1], 8 - bitIdx), 3));
      }
      x := x + [val];
    }
  }

  /** Where the fields of the octet `k` sit, `per` to an octet. */
  lemma {:induction false} InOctet(w: nat, per: nat, k: nat, j: nat)
    requires w * per == 8 && j < per
    ensures Bit(w, k * per + j) / 8 == k && Bit(w, k * per + j) % 8 == w * j
  {
    assert Bit(w, k * per + j) == k * (w * per) + w * j;
    assert w * j + w <= w * per by {
      assert w * (per - j) >= w;
    }
  }

  method UnpackTwoBit(p: seq<Byte>, n: nat) returns (x: seq<Byte>)
    requires 8 * |p| >= Bit(2, n)
    ensures x == Unpacked(p, 2, n)
  {
    hide Right, Left, Or, Kept, Unpacked, FieldAt;
    x := [];
    NoFields(p, 2);
    var k := 0;
    while k * 4 < n
      invariant x == Unpacked(p, 2, if k * 4 < n then k * 4 else n)
      decreases n + 4 - k * 4
    {
      for j := 0 to 4
        invariant x == Unpacked(p, 2, if k * 4 + j < n then k * 4 + j else n)
      {
        if k * 4 + j < n {
          UnpackOne(p, 2, k * 4 + j, n);
          InOctet(2, 4, k, j);
          x := x + [Kept(Right(p[k], j * 2), 2)];
        }
      }
      k := k + 1;
    }
  }

  method UnpackFourBit(p: seq<Byte>, n: nat) returns (x: seq<Byte>)
    requires 8 * |p| >= Bit(4, n)
    ensures x == Unpacked(p, 4, n)
  {
    hide Right, Left, Or, Kept, Unpacked, FieldAt;
    x := [];
    NoFields(p, 4);
    var k := 0;
    while k * 2 < n
      invariant x == Unpacked(p, 4, if k * 2 < n then k * 2 else n)
      decreases n + 2 - k * 2
    {
      UnpackOne(p, 4, k * 2, n);
      InOctet(4, 2, k, 0);
      NotShifted(p[k]);
      x := x + [Kept(p[k], 4)];
      if k * 2 + 1 < n {
        UnpackOne(p, 4, k * 2 + 1, n);
        InOctet(4, 2, k, 1);
        x := x + [Kept(Right(p[k], 4), 4)];
      }
      k := k + 1;
    }
  }

  lemma {:induction false} UnpackedFit(p: seq<Byte>, w: nat, n: nat)
    requires Width(w) && 8 * |p| >= Bit(w, n)
    ensures forall i | 0 <= i < n :: Fits(Unpacked(p, w, n)[i], w)
  {
    hide Fits, FieldAt;
    if n > 0 {
      NextBit(w, n - 1);
      UnpackedFit(p, w, n - 1);
      FieldFits(p, w, Bit(w, n - 1));
    }
  }

  lemma {:induction false} FieldFits(p: seq<Byte>, w: nat, b: nat)
    requires Width(w) && 8 * |p| >= b + w
    ensures Fits(FieldAt(p, w, b), w)
  {
    hide Left, Right, Fits, Kept, Or;
    FitIsKept(Right(p[b / 8], b % 8), w);
    if b % 8 + w > 8 {
      FitIsKept(Left(p[b / 8 + 1], 8 - b % 8), w);
      OrFits(Kept(Right(p[b / 8], b % 8), w), Kept(Left(p[b / 8 + 1], 8 - b % 8), w), w);
    }
  }

  lemma {:induction false} OrFits(a: Byte, b: Byte, w: nat)
    requires Width(w) && Fits(a, w) && Fits(b, w)
    ensures Fits(Or(a, b), w)
  {
  }

  // ----- by width

  method PackIndices(x: seq<Byte>, w: nat) returns (p: seq<Byte>)
    requires Width(w)
    ensures |p| == PackedBytes(|x|, w) && 8 * |p| >= Bit(w, |x|)
    ensures Unpacked(p, w, |x|) == AllKept(x, w)
  {
    hide Filled;
    match w {
      case 1 => p := PackOneBit(x);
      case 4 => p := PackFourBit(x);
      case 3 => p := PackThreeBit(x);
      case _ => p := PackTwoBit(x);
    }
    AllFilled(p, w, x);
  }

  lemma {:induction false} AllFilled(p: seq<Byte>, w: nat, x: seq<Byte>)
    requires Width(w) && Filled(p, w, x, |x|)
    ensures 8 * |p| >= Bit(w, |x|) && Unpacked(p, w, |x|) == AllKept(x, w)
  {
    assert x[..|x|] == x;
  }

  method UnpackIndices(p: seq<Byte>, w: nat, n: nat) returns (x: seq<Byte>)
    requires Width(w) && 8 * |p| >= Bit(w, n)
    ensures x == Unpacked(p, w, n)
  {
    match w {
      case 1 => x := UnpackOneBit(p, n);
      case 4 => x := UnpackFourBit(p, n);
      case 3 => x := UnpackThreeBit(p, n);
      case _ => x := UnpackTwoBit(p, n);
    }
  }
}
