/** Packed four-bit weights in the interleaved layout (src/common/awq.rs). */
module Awq {
  import opened Powers
  import opened Wrappers

  type Word = bv32

  const PACK: nat := 8

  /** Which column of its word the nibble `k` holds. */
  const PACK_ORDER: seq<nat> := [0, 2, 4, 6, 1, 3, 5, 7]

  /** Where column `x` of a word is kept. */
  function Slot(x: nat): (k: nat)
    requires x < 8
    ensures k < 8 && PACK_ORDER[k] == x
  {
    [0, 4, 1, 5, 2, 6, 3, 7][x]
  }

  /** The place of nibble `k`. */
  function Place(k: nat): (s: Word)
    requires k < 8
    ensures s <= 28 && s & 3 == 0
  {
    match k
    case 0 => 0
    case 1 => 4
    case 2 => 8
    case 3 => 12
    case 4 => 16
    case 5 => 20
    case 6 => 24
    case _ => 28
  }

  function Get(w: Word, s: Word): Word
    requires s <= 28
  {
    (w >> s) & 0xF
  }

  function Put(w: Word, s: Word, n: Word): Word
    requires s <= 28
  {
    w | (n << s)
  }

  function Nibble(w: Word, k: nat): (n: Word)
    requires k < 8
    ensures n <= 15
  {
    Get(w, Place(k))
  }

  lemma {:induction false} PutThenGet(w: Word, s: Word, n: Word, t: Word)
    requires n <= 15 && s <= 28 && t <= 28 && s & 3 == 0 && t & 3 == 0 && Get(w, s) == 0
    ensures Get(Put(w, s, n), t) == if s == t then n else Get(w, t)
  {
  }

  lemma {:induction false} PlacesDiffer(k: nat, m: nat)
    requires k < 8 && m < 8
    ensures Place(k) == Place(m) <==> k == m
  {
  }

  lemma {:induction false} SetNibble(w: Word, k: nat, n: Word, m: nat)
    requires k < 8 && n <= 15 && m < 8 && Nibble(w, k) == 0
    ensures Nibble(Put(w, Place(k), n), m) == if m == k then n else Nibble(w, m)
  {
    hide Place, Get, Put;
    PlacesDiffer(k, m);
    PutThenGet(w, Place(k), n, Place(m));
  }

  /** Zero in every nibble from `k` on. */
  predicate EmptyFrom(w: Word, k: nat) {
    forall m | k <= m < 8 :: Nibble(w, m) == 0
  }

  lemma {:induction false} Constants()
    ensures EmptyFrom(0, 0)
    ensures forall m | 0 <= m < 8 :: Nibble(0x8888_8888, m) == 8
  {
    forall m | 0 <= m < 8
      ensures Nibble(0, m) == 0 && Nibble(0x8888_8888, m) == 8
    {
      Repeated(Place(m));
    }
  }

  lemma {:induction false} Repeated(s: Word)
    requires s <= 28 && s & 3 == 0
    ensures Get(0, s) == 0 && Get(0x8888_8888, s) == 8
  {
  }

  lemma {:induction false} ToAndFrom(q: nat)
    requires q < 16
    ensures (q as Word) as nat == q && q as Word <= 15
  {
  }

  lemma {:induction false} SmallWord(n: Word)
    requires n <= 15
    ensures n as nat < 16
  {
  }

  /** The number in nibble `k`. */
  function Value(w: Word, k: nat): (q: nat)
    requires k < 8
    ensures q < 16
  {
    SmallWord(Nibble(w, k));
    Nibble(w, k) as nat
  }

  // ----- tensors

  /** A matrix: rows of one length. */
  datatype Grid<T> = Grid(cols: nat, rows: seq<seq<T>>) {
    predicate Valid() {
      forall i | 0 <= i < |rows| :: |rows[i]| == cols
    }

    predicate Is(r: nat, c: nat) {
      |rows| == r && cols == c && Valid()
    }
  }

  type Bits = b: nat | b == 4 || b == 8 witness 4

  /** A quantized linear layer: `qweight` is [in, out/8], `qzeros` [groups, out/8], `scales` [groups, out]. */
  datatype QuantWeight = QuantWeight(bits: Bits, qweight: Grid<Word>, qzeros: Option<Grid<Word>>, scales: Grid<real>)

  function InFeatures(raw: QuantWeight): nat {
    |raw.qweight.rows|
  }

  function OutFeatures(raw: QuantWeight): nat {
    raw.scales.cols
  }

  function GroupSize(raw: QuantWeight): Option<nat> {
    var groups := |raw.scales.rows|;
    if groups == 0 || InFeatures(raw) % groups != 0 then None else Some(InFeatures(raw) / groups)
  }

  /** What a nibble stands for: its distance from the zero point, in steps of the scale. */
  function Back(q: nat, zero: nat, scale: real): real {
    var steps: int := q as int - zero as int;
    steps as real * scale
  }

  /** What the dequantizer accepts; without input features it divides by an empty group. */
  predicate Dequantizable(raw: QuantWeight) {
    && GroupSize(raw).Some? && GroupSize(raw).value > 0
    && OutFeatures(raw) % PACK == 0
    && raw.qweight.Is(InFeatures(raw), OutFeatures(raw) / PACK)
    && raw.qzeros.Some? && raw.qzeros.value.Is(InFeatures(raw) / GroupSize(raw).value, OutFeatures(raw) / PACK)
    && raw.scales.Is(InFeatures(raw) / GroupSize(raw).value, OutFeatures(raw))
  }

  lemma {:induction false} GroupOf(i: nat, n: nat, g: nat)
    requires g > 0 && i < n && n % g == 0
    ensures i / g < n / g
  {
    assert n == n / g * g + n % g && i == i / g * g + i % g;
    var e := i / g - n / g + 1;
    assert e * g == i / g * g - n / g * g + g;
    AtMostZero(e, g);
  }

  lemma {:induction false} SizeDivides(raw: QuantWeight)
    requires GroupSize(raw).Some? && GroupSize(raw).value > 0
    ensures InFeatures(raw) % GroupSize(raw).value == 0
    ensures InFeatures(raw) / GroupSize(raw).value == |raw.scales.rows|
  {
    var n, groups, g := InFeatures(raw), |raw.scales.rows|, GroupSize(raw).value;
    assert n == n / groups * groups + n % groups;
    Quotient(n, g, groups);
  }

  lemma {:induction false} Quotient(n: nat, g: nat, groups: nat)
    requires g > 0 && n == g * groups
    ensures n % g == 0 && n / g == groups
  {
    DivMul(groups, g);
    assert n == n / g * g + n % g;
  }

  /** The weight at output `o` and input `i`. */
  function Weight(raw: QuantWeight, o: nat, i: nat): real
    requires Dequantizable(raw) && o < OutFeatures(raw) && i < InFeatures(raw)
  {
    var size := GroupSize(raw).value;
    SizeDivides(raw);
    GroupOf(i, InFeatures(raw), size);
    var g := i / size;
    Back(Value(raw.qweight.rows[i][o / PACK], Slot(o % PACK)),
      Value(raw.qzeros.value.rows[g][o / PACK], Slot(o % PACK)),
      raw.scales.rows[g][o])
  }

  // ----- dequantizing

  method Inverse() returns (inv: seq<nat>)
    ensures |inv| == PACK && forall x | 0 <= x < PACK :: inv[x] == Slot(x)
  {
    inv := [0, 0, 0, 0, 0, 0, 0, 0];
    for k := 0 to PACK
      invariant |inv| == PACK && forall m | 0 <= m < k :: inv[PACK_ORDER[m]] == m
    {
      inv := inv[PACK_ORDER[k] := k];
    }
    assert forall x | 0 <= x < PACK :: PACK_ORDER[Slot(x)] == x;
  }

  /** The columns of the word `j` go where the interleaving says. */
  method UnpackWord(row: seq<nat>, j: nat, packed: Word) returns (r: seq<nat>)
    requires j * PACK + PACK <= |row|
    ensures |r| == |row|
    ensures forall x | 0 <= x < |r| ::
        r[x] == if j * PACK <= x < j * PACK + PACK then Value(packed, Slot(x - j * PACK)) else row[x]
  {
    hide Value;
    r := row;
    for k := 0 to PACK
      invariant |r| == |row|
      invariant forall x | 0 <= x < |r| ::
          r[x] == if j * PACK <= x < j * PACK + PACK && Slot(x - j * PACK) < k then Value(packed, Slot(x - j * PACK))
            else row[x]
    {
      SlotOfOrder(k);
      r := r[j * PACK + PACK_ORDER[k] := Value(packed, k)];
    }
  }

  lemma {:induction false} SlotOfOrder(k: nat)
    requires k < 8
    ensures PACK_ORDER[k] < 8 && forall x | 0 <= x < 8 :: Slot(x) == k <==> x == PACK_ORDER[k]
  {
  }

  /** The columns of a row of words. */
  predicate Unpacked(words: seq<Word>, row: seq<nat>) {
    |row| == |words| * PACK && forall x | 0 <= x < |row| :: row[x] == Value(words[x / PACK], Slot(x % PACK))
  }

  method UnpackRow(words: seq<Word>) returns (row: seq<nat>)
    ensures Unpacked(words, row)
  {
    hide Value, Slot;
    row := seq(|words| * PACK, _ => 0);
    for j := 0 to |words|
      invariant |row| == |words| * PACK
      invariant forall x | 0 <= x < j * PACK :: row[x] == Value(words[x / PACK], Slot(x % PACK))
    {
      row := UnpackWord(row, j, words[j]);
    }
  }

  /** The unpacked zero points, one row a group. */
  predicate AreZeros(raw: QuantWeight, zeros: seq<seq<nat>>)
    requires Dequantizable(raw)
  {
    SizeDivides(raw);
    && |zeros| == |raw.scales.rows|
    && forall g | 0 <= g < |zeros| :: Unpacked(raw.qzeros.value.rows[g], zeros[g])
  }

  method Zeros(raw: QuantWeight) returns (zeros: seq<seq<nat>>)
    requires Dequantizable(raw)
    ensures AreZeros(raw, zeros)
  {
    hide Unpacked;
    SizeDivides(raw);
    zeros := [];
    for g := 0 to |raw.scales.rows|
      invariant |zeros| == g && forall h | 0 <= h < g :: Unpacked(raw.qzeros.value.rows[h], zeros[h])
    {
      var row := UnpackRow(raw.qzeros.value.rows[g]);
      zeros := zeros + [row];
    }
  }

  /** One output row of the weight. */
  method FillRow(raw: QuantWeight, zeros: seq<seq<nat>>, inv: seq<nat>, o: nat) returns (row: seq<real>)
    requires Dequantizable(raw) && o < OutFeatures(raw)
    requires |inv| == PACK && forall x | 0 <= x < PACK :: inv[x] == Slot(x)
    requires AreZeros(raw, zeros)
    ensures |row| == InFeatures(raw) && forall i | 0 <= i < |row| :: row[i] == Weight(raw, o, i)
  {
    hide Value, Slot;
    row := [];
    var size := GroupSize(raw).value;
    SizeDivides(raw);
    var j, slot := o / PACK, inv[o % PACK];
    for i := 0 to InFeatures(raw)
      invariant |row| == i && forall m | 0 <= m < i :: row[m] == Weight(raw, o, m)
    {
      var g := i / size;
      GroupOf(i, InFeatures(raw), size);
      var x := Back(Value(raw.qweight.rows[i][j], slot), zeros[g][o], raw.scales.rows[g][o]);
      assert x == Weight(raw, o, i);
      row := row + [x];
    }
  }

  /** The dequantized weight, [out, in]. */
  method Dequantize(raw: QuantWeight) returns (w: Option<Grid<real>>)
    ensures w.Some? <==> Dequantizable(raw)
    ensures w.Some? ==> w.value.Is(OutFeatures(raw), InFeatures(raw))
    ensures w.Some? ==> forall o, i | 0 <= o < OutFeatures(raw) && 0 <= i < InFeatures(raw) ::
        w.value.rows[o][i] == Weight(raw, o, i)
  {
    if !Dequantizable(raw) {
      return None;
    }
    hide Value, Slot, Weight, Dequantizable, AreZeros;
    var out := OutFeatures(raw);
    var zeros := Zeros(raw);
    var inv := Inverse();
    var rows: seq<seq<real>> := [];
    for o := 0 to out
      invariant |rows| == o && forall p | 0 <= p < o :: |rows[p]| == InFeatures(raw)
      invariant forall p, i | 0 <= p < o && 0 <= i < InFeatures(raw) :: rows[p][i] == Weight(raw, p, i)
    {
      var row := FillRow(raw, zeros, inv, o);
      rows := rows + [row];
    }
    w := Some(Grid(InFeatures(raw), rows));
  }

  // ----- from the sequential to the interleaved layout

  /** What the conversion accepts: words of eight inputs by row, and a scale for each group of a row. Without rows it
      would cut the result into chunks of nothing. */
  predicate Convertible(packed: Grid<Word>, scale: Grid<real>) {
    && |packed.rows| > 0 && |scale.rows| == |packed.rows|
    && scale.cols > 0 && (packed.cols * PACK) % scale.cols == 0
    && |packed.rows| % PACK == 0
  }

  /** The symmetric weight the sequential layout stands for. */
  function Direct(packed: Grid<Word>, scale: Grid<real>, o: nat, i: nat): real
    requires packed.Valid() && scale.Valid() && Convertible(packed, scale)
    requires o < |packed.rows| && i < packed.cols * PACK
  {
    var size := packed.cols * PACK / scale.cols;
    GroupOfRow(i, packed.cols * PACK, scale.cols);
    Back(Value(packed.rows[o][i / PACK], i % PACK), 8, scale.rows[o][i / size])
  }

  lemma {:induction false} GroupOfRow(i: nat, n: nat, groups: nat)
    requires groups > 0 && n % groups == 0 && i < n
    ensures n / groups > 0 && i / (n / groups) < groups
    ensures n % (n / groups) == 0 && n / (n / groups) == groups
  {
    var g := n / groups;
    assert n == g * groups + n % groups;
    if g > 0 {
      Quotient(n, g, groups);
      GroupOf(i, n, g);
    }
  }

  /** One word of the interleaved layout: input `i` of outputs `j * 8` to `j * 8 + 7`. */
  predicate ColumnIs(packed: Grid<Word>, i: nat, j: nat, w: Word)
    requires packed.Valid() && i < packed.cols * PACK && j * PACK + PACK <= |packed.rows|
  {
    forall k | 0 <= k < PACK :: Nibble(w, k) == Nibble(packed.rows[j * PACK + PACK_ORDER[k]][i / PACK], i % PACK)
  }

  method PackColumn(packed: Grid<Word>, i: nat, j: nat) returns (w: Word)
    requires packed.Valid() && i < packed.cols * PACK && j * PACK + PACK <= |packed.rows|
    ensures ColumnIs(packed, i, j, w)
  {
    hide Nibble, Place, Put;
    w := 0;
    Constants();
    for k := 0 to PACK
      invariant EmptyFrom(w, k)
      invariant forall m | 0 <= m < k ::
        Nibble(w, m) == Nibble(packed.rows[j * PACK + PACK_ORDER[m]][i / PACK], i % PACK)
    {
      ghost var before := w;
      var n := Nibble(packed.rows[j * PACK + PACK_ORDER[k]][i / PACK], i % PACK);
      w := Put(w, Place(k), n);
      forall m | 0 <= m < PACK
        ensures Nibble(w, m) == if m == k then n else Nibble(before, m)
      {
        SetNibble(before, k, n, m);
      }
    }
  }

  /** The layout the conversion builds: nibbles carried over one by one, every zero point eight, scales transposed. */
  predicate Interleaved(packed: Grid<Word>, scale: Grid<real>, raw: QuantWeight)
    requires packed.Valid() && scale.Valid() && Convertible(packed, scale)
  {
    var (input, out) := (packed.cols * PACK, |packed.rows|);
    && raw.qweight.Is(input, out / PACK)
    && raw.qzeros.Some? && raw.qzeros.value.Is(scale.cols, out / PACK)
    && raw.scales.Is(scale.cols, out)
    && (forall i, j | 0 <= i < input && 0 <= j < out / PACK :: ColumnIs(packed, i, j, raw.qweight.rows[i][j]))
    && (forall g, j | 0 <= g < scale.cols && 0 <= j < out / PACK :: raw.qzeros.value.rows[g][j] == 0x8888_8888)
    && (forall g, o | 0 <= g < scale.cols && 0 <= o < out :: raw.scales.rows[g][o] == scale.rows[o][g])
  }

  method ConvertRow(packed: Grid<Word>, i: nat) returns (row: seq<Word>)
    requires packed.Valid() && i < packed.cols * PACK && |packed.rows| % PACK == 0
    ensures |row| == |packed.rows| / PACK && forall j | 0 <= j < |row| :: ColumnIs(packed, i, j, row[j])
  {
    hide ColumnIs;
    row := [];
    for j := 0 to |packed.rows| / PACK
      invariant |row| == j && forall l | 0 <= l < j :: ColumnIs(packed, i, l, row[l])
    {
      var w := PackColumn(packed, i, j);
      row := row + [w];
    }
  }

  method TransposeScales(scale: Grid<real>) returns (t: Grid<real>)
    requires scale.Valid()
    ensures t.Is(scale.cols, |scale.rows|)
    ensures forall g, o | 0 <= g < scale.cols && 0 <= o < |scale.rows| :: t.rows[g][o] == scale.rows[o][g]
  {
    t := Grid(|scale.rows|, Transposed(scale.rows, scale.cols));
  }

  function Transposed<T>(rows: seq<seq<T>>, n: nat): (t: seq<seq<T>>)
    requires forall i | 0 <= i < |rows| :: |rows[i]| == n
    ensures |t| == n && forall i | 0 <= i < n :: |t[i]| == |rows|
    ensures forall i, j | 0 <= i < n && 0 <= j < |rows| :: t[i][j] == rows[j][i]
  {
    seq(n, i requires 0 <= i < n => seq(|rows|, j requires 0 <= j < |rows| => rows[j][i]))
  }

  method CompressedToAwq(packed: Grid<Word>, scale: Grid<real>) returns (raw: Option<QuantWeight>)
    requires packed.Valid() && scale.Valid()
    ensures raw.Some? <==> Convertible(packed, scale)
    ensures raw.Some? ==> raw.value.bits == 4 && Interleaved(packed, scale, raw.value)
  {
    if !Convertible(packed, scale) {
      return None;
    }
    hide ColumnIs;
    var packedOut := |packed.rows| / PACK;
    var rows: seq<seq<Word>> := [];
    for i := 0 to packed.cols * PACK
      invariant |rows| == i && forall m | 0 <= m < i :: |rows[m]| == packedOut
      invariant forall m, j | 0 <= m < i && 0 <= j < packedOut :: ColumnIs(packed, m, j, rows[m][j])
    {
      var row := ConvertRow(packed, i);
      rows := rows + [row];
    }
    var zeros := seq(scale.cols, _ => seq(packedOut, _ => 0x8888_8888 as Word));
    var scales := TransposeScales(scale);
    raw := Some(QuantWeight(4, Grid(packedOut, rows), Some(Grid(packedOut, zeros)), scales));
  }

  /** Theorem: the conversion keeps every weight; and only a layer without inputs cannot be read back. */
  lemma {:induction false} ConversionKeepsWeights(packed: Grid<Word>, scale: Grid<real>, raw: QuantWeight)
    requires packed.Valid() && scale.Valid() && Convertible(packed, scale) && Interleaved(packed, scale, raw)
    ensures Dequantizable(raw) <==> packed.cols > 0
    ensures Dequantizable(raw) ==>
        forall o, i | 0 <= o < |packed.rows| && 0 <= i < packed.cols * PACK ::
          Weight(raw, o, i) == Direct(packed, scale, o, i)
  {
    hide ColumnIs, Value, Slot, Direct, Weight;
    if packed.cols > 0 {
      GroupOfRow(0, packed.cols * PACK, scale.cols);
      forall o, i | 0 <= o < |packed.rows| && 0 <= i < packed.cols * PACK
        ensures Weight(raw, o, i) == Direct(packed, scale, o, i)
      {
        SameWeight(packed, scale, raw, o, i);
      }
    }
  }

  /** Eight outputs without inputs. */
  function NoInputs(): Grid<Word> {
    Grid(0, seq(8, _ => []))
  }

  /** Eight outputs without inputs, under one scale each, convert; what comes out cannot be read back. */
  lemma {:induction false} NoInputsConvertButCannotBeRead(raw: QuantWeight)
    ensures var packed, scale := NoInputs(), Grid(1, seq(8, _ => [1.0]));
      && packed.Valid() && scale.Valid() && Convertible(packed, scale)
      && (Interleaved(packed, scale, raw) ==> GroupSize(raw) == Some(0) && !Dequantizable(raw))
  {
    hide ColumnIs;
  }

  lemma {:induction false} SameNibble(packed: Grid<Word>, scale: Grid<real>, raw: QuantWeight, o: nat, i: nat)
    requires packed.Valid() && scale.Valid() && Convertible(packed, scale) && Interleaved(packed, scale, raw)
    requires o < |packed.rows| && i < packed.cols * PACK
    ensures o / PACK < raw.qweight.cols && i < |raw.qweight.rows| && |raw.qweight.rows[i]| == raw.qweight.cols
    ensures |packed.rows[o]| == packed.cols && i / PACK < packed.cols
    ensures Value(raw.qweight.rows[i][o / PACK], Slot(o % PACK)) == Value(packed.rows[o][i / PACK], i % PACK)
  {
    hide Nibble, Slot;
    var j, k := o / PACK, Slot(o % PACK);
    assert ColumnIs(packed, i, j, raw.qweight.rows[i][j]);
    assert j * PACK + PACK_ORDER[k] == o;
  }

  lemma {:induction false} SameWeight(packed: Grid<Word>, scale: Grid<real>, raw: QuantWeight, o: nat, i: nat)
    requires packed.Valid() && scale.Valid() && Convertible(packed, scale) && Interleaved(packed, scale, raw)
    requires Dequantizable(raw) && o < |packed.rows| && i < packed.cols * PACK
    ensures Weight(raw, o, i) == Direct(packed, scale, o, i)
  {
    hide Nibble, Slot, ColumnIs;
    Constants();
    EightIsEight();
    GroupOfRow(i, packed.cols * PACK, scale.cols);
    SameNibble(packed, scale, raw, o, i);
  }

  lemma {:induction false} EightIsEight()
    ensures (8 as Word) as nat == 8
  {
    ToAndFrom(8);
  }

  // ----- fusing layers along their outputs

  /** Concatenation along the second dimension. */
  function Beside<T>(a: Grid<T>, b: Grid<T>): (c: Grid<T>)
    requires a.Valid() && b.Valid() && |a.rows| == |b.rows|
    ensures c.Is(|a.rows|, a.cols + b.cols)
    ensures forall i | 0 <= i < |a.rows| :: c.rows[i] == a.rows[i] + b.rows[i]
  {
    Grid(a.cols + b.cols, seq(|a.rows|, i requires 0 <= i < |a.rows| => a.rows[i] + b.rows[i]))
  }

  predicate Alike<T>(grids: seq<Grid<T>>) {
    forall p | 0 <= p < |grids| :: grids[p].Valid() && |grids[p].rows| == |grids[0].rows|
  }

  function Cat<T>(grids: seq<Grid<T>>): (c: Grid<T>)
    requires grids != [] && Alike(grids)
    ensures c.Valid() && |c.rows| == |grids[0].rows|
  {
    if |grids| == 1 then grids[0] else Beside(Cat(grids[..|grids| - 1]), grids[|grids| - 1])
  }

  predicate WellShaped(raw: QuantWeight) {
    raw.qweight.Valid() && raw.scales.Valid() && (raw.qzeros.Some? ==> raw.qzeros.value.Valid())
  }

  function PackFactor(raw: QuantWeight): nat {
    32 / raw.bits
  }

  function Qweights(parts: seq<QuantWeight>): (gs: seq<Grid<Word>>)
    ensures |gs| == |parts| && forall p | 0 <= p < |parts| :: gs[p] == parts[p].qweight
  {
    seq(|parts|, p requires 0 <= p < |parts| => parts[p].qweight)
  }

  function Scales(parts: seq<QuantWeight>): (gs: seq<Grid<real>>)
    ensures |gs| == |parts| && forall p | 0 <= p < |parts| :: gs[p] == parts[p].scales
  {
    seq(|parts|, p requires 0 <= p < |parts| => parts[p].scales)
  }

  function Qzeros(parts: seq<QuantWeight>): (gs: seq<Grid<Word>>)
    requires forall p | 0 <= p < |parts| :: parts[p].qzeros.Some?
    ensures |gs| == |parts| && forall p | 0 <= p < |parts| :: gs[p] == parts[p].qzeros.value
  {
    seq(|parts|, p requires 0 <= p < |parts| => parts[p].qzeros.value)
  }

  /** What `p` must share with the first part; the first part's own outputs are not checked. */
  predicate Matches(first: QuantWeight, p: QuantWeight) {
    && InFeatures(p) == InFeatures(first) && GroupSize(p).Some? && GroupSize(p) == GroupSize(first)
    && p.bits == first.bits && OutFeatures(p) % PackFactor(first) == 0
  }

  predicate Fusible(parts: seq<QuantWeight>) {
    && parts != [] && GroupSize(parts[0]).Some?
    && (forall p | 1 <= p < |parts| :: Matches(parts[0], parts[p]))
    && (forall p | 0 <= p < |parts| :: parts[p].qzeros.Some?)
    && Alike(Qweights(parts)) && Alike(Qzeros(parts)) && Alike(Scales(parts))
  }

  function Concat(parts: seq<QuantWeight>): QuantWeight
    requires Fusible(parts)
  {
    QuantWeight(parts[0].bits, Cat(Qweights(parts)), Some(Cat(Qzeros(parts))), Cat(Scales(parts)))
  }

  method ConcatAlongOut(parts: seq<QuantWeight>) returns (raw: Option<QuantWeight>)
    requires forall p | 0 <= p < |parts| :: WellShaped(parts[p])
    ensures raw.Some? <==> Fusible(parts)
    ensures raw.Some? ==> raw.value == Concat(parts)
  {
    if parts == [] || GroupSize(parts[0]).None? {
      return None;
    }
    for i := 1 to |parts|
      invariant forall p | 1 <= p < i :: Matches(parts[0], parts[p])
    {
      if !Matches(parts[0], parts[i]) {
        return None;
      }
    }
    for i := 0 to |parts|
      invariant forall p | 0 <= p < i :: parts[p].qzeros.Some?
    {
      if parts[i].qzeros.None? {
        return None;
      }
    }
    if !(Alike(Qweights(parts)) && Alike(Qzeros(parts)) && Alike(Scales(parts))) {
      return None;
    }
    raw := Some(Concat(parts));
  }

  /** Two layers side by side. */
  function Fused(a: QuantWeight, b: QuantWeight): QuantWeight
    requires Dequantizable(a) && Dequantizable(b)
    requires InFeatures(a) == InFeatures(b) && GroupSize(a) == GroupSize(b)
  {
    SizeDivides(a);
    SizeDivides(b);
    QuantWeight(a.bits, Beside(a.qweight, b.qweight), Some(Beside(a.qzeros.value, b.qzeros.value)),
      Beside(a.scales, b.scales))
  }

  lemma {:induction false} FusedShape(a: QuantWeight, b: QuantWeight)
    requires Dequantizable(a) && Dequantizable(b)
    requires InFeatures(a) == InFeatures(b) && GroupSize(a) == GroupSize(b)
    ensures var c := Fused(a, b);
      && Dequantizable(c) && InFeatures(c) == InFeatures(a) && GroupSize(c) == GroupSize(a)
      && OutFeatures(c) == OutFeatures(a) + OutFeatures(b)
  {
    SizeDivides(a);
    SizeDivides(b);
  }

  lemma {:induction false} FusedWeights(a: QuantWeight, b: QuantWeight, o: nat, i: nat)
    requires Dequantizable(a) && Dequantizable(b)
    requires InFeatures(a) == InFeatures(b) && GroupSize(a) == GroupSize(b)
    requires Dequantizable(Fused(a, b)) && InFeatures(Fused(a, b)) == InFeatures(a)
    requires GroupSize(Fused(a, b)) == GroupSize(a)
    requires OutFeatures(Fused(a, b)) == OutFeatures(a) + OutFeatures(b)
    requires o < OutFeatures(a) + OutFeatures(b) && i < InFeatures(a)
    ensures Weight(Fused(a, b), o, i) == if o < OutFeatures(a) then Weight(a, o, i)
      else Weight(b, o - OutFeatures(a), i)
  {
    hide Value, Slot, GroupSize;
    SizeDivides(a);
    SizeDivides(b);
    var c, g, m := Fused(a, b), i / GroupSize(a).value, OutFeatures(a);
    GroupOf(i, InFeatures(a), GroupSize(a).value);
    WordsBeside(a.qweight.rows[i], b.qweight.rows[i], o, m);
    WordsBeside(a.qzeros.value.rows[g], b.qzeros.value.rows[g], o, m);
    assert c.scales.rows[g] == a.scales.rows[g] + b.scales.rows[g];
  }

  /** Column `o` of two rows of words side by side. */
  lemma {:induction false} WordsBeside(a: seq<Word>, b: seq<Word>, o: nat, m: nat)
    requires m % PACK == 0 && |a| == m / PACK && o / PACK < |a| + |b|
    ensures o < m ==> o / PACK < |a| && (a + b)[o / PACK] == a[o / PACK]
    ensures o >= m ==> (o - m) / PACK < |b| && (o - m) % PACK == o % PACK && (a + b)[o / PACK] == b[(o - m) / PACK]
  {
  }

  /** The outputs before part `p`. */
  function Before(parts: seq<QuantWeight>, p: nat): nat
    requires p <= |parts|
  {
    if p == 0 then 0 else Before(parts, p - 1) + OutFeatures(parts[p - 1])
  }

  lemma {:induction false} BeforeInPrefix(parts: seq<QuantWeight>, p: nat, n: nat)
    requires p <= n <= |parts|
    ensures Before(parts[..n], p) == Before(parts, p)
  {
    if p > 0 {
      BeforeInPrefix(parts, p - 1, n);
    }
  }

  lemma {:induction false} LastFused(parts: seq<QuantWeight>)
    requires Fusible(parts) && |parts| > 1
    ensures var n := |parts| - 1;
      && Fusible(parts[..n])
      && Concat(parts).qweight == Beside(Concat(parts[..n]).qweight, parts[n].qweight)
      && Concat(parts).qzeros == Some(Beside(Concat(parts[..n]).qzeros.value, parts[n].qzeros.value))
      && Concat(parts).scales == Beside(Concat(parts[..n]).scales, parts[n].scales)
      && Concat(parts).bits == Concat(parts[..n]).bits
  {
    hide GroupSize, Matches;
    var n := |parts| - 1;
    assert Qweights(parts)[..n] == Qweights(parts[..n]);
    assert Qzeros(parts)[..n] == Qzeros(parts[..n]);
    assert Scales(parts)[..n] == Scales(parts[..n]);
  }

  predicate AllDequantizable(parts: seq<QuantWeight>) {
    forall p | 0 <= p < |parts| :: Dequantizable(parts[p])
  }

  lemma {:induction false} ConcatShape(parts: seq<QuantWeight>)
    requires Fusible(parts) && AllDequantizable(parts)
    ensures Dequantizable(Concat(parts)) && OutFeatures(Concat(parts)) == Before(parts, |parts|)
    ensures InFeatures(Concat(parts)) == InFeatures(parts[0]) && GroupSize(Concat(parts)) == GroupSize(parts[0])
    decreases |parts|
  {
    hide Dequantizable, GroupSize, Cat;
    if |parts| == 1 {
      OneAlone(parts);
    } else {
      var n := |parts| - 1;
      LastFused(parts);
      ConcatShape(parts[..n]);
      assert Concat(parts) == Fused(Concat(parts[..n]), parts[n]);
      FusedShape(Concat(parts[..n]), parts[n]);
      BeforeInPrefix(parts, n, n);
    }
  }

  lemma {:induction false} OneAlone(parts: seq<QuantWeight>)
    requires Fusible(parts) && |parts| == 1
    ensures Concat(parts) == parts[0] && Before(parts, 1) == OutFeatures(parts[0])
  {
  }

  /** Theorem: dequantizing the fused layer stacks the dequantized parts. */
  lemma {:induction false} ConcatStacks(parts: seq<QuantWeight>, p: nat, o: nat, i: nat)
    requires Fusible(parts) && AllDequantizable(parts)
    requires p < |parts| && o < OutFeatures(parts[p]) && i < InFeatures(parts[0])
    ensures Dequantizable(Concat(parts)) && InFeatures(parts[p]) == InFeatures(parts[0]) == InFeatures(Concat(parts))
    ensures Before(parts, p) + o < OutFeatures(Concat(parts))
    ensures Weight(Concat(parts), Before(parts, p) + o, i) == Weight(parts[p], o, i)
    decreases |parts|
  {
    hide Dequantizable, GroupSize, Cat, Weight;
    ConcatShape(parts);
    if |parts| == 1 {
      OneAlone(parts);
    } else {
      var n := |parts| - 1;
      var front := Concat(parts[..n]);
      LastFused(parts);
      ConcatShape(parts[..n]);
      assert Concat(parts) == Fused(front, parts[n]);
      FusedShape(front, parts[n]);
      BeforeInPrefix(parts, n, n);
      BeforeInPrefix(parts, p, n);
      if p < n {
        ConcatStacks(parts[..n], p, o, i);
      }
      FusedWeights(front, parts[n], Before(parts, p) + o, i);
    }
  }

  // ----- quantizing by rounding to nearest

  /** Rounds half away from zero. */
  function Round(x: real): int {
    if x >= 0.0 then (x + 0.5).Floor else -(0.5 - x).Floor
  }

  lemma {:induction false} RoundIsNear(x: real)
    ensures -0.5 <= Round(x) as real - x <= 0.5
  {
  }

  function Clamp(n: int): (q: nat)
    ensures q < 16
  {
    if n < 0 then 0 else if n > 15 then 15 else n
  }

  /** Clamping moves no value of the range further from its rounding than half a step. */
  lemma {:induction false} ClampIsNear(x: real)
    requires -0.5 <= x <= 15.5
    ensures -0.5 <= Clamp(Round(x)) as real - x <= 0.5
  {
    RoundIsNear(x);
  }

  /** The group's range, which always takes in zero. */
  function Low(group: seq<real>): (x: real)
    ensures x <= 0.0 && forall k | 0 <= k < |group| :: x <= group[k]
  {
    if group == [] then 0.0 else
      var x := Low(group[..|group| - 1]);
      if group[|group| - 1] < x then group[|group| - 1] else x
  }

  function High(group: seq<real>): (x: real)
    ensures x >= 0.0 && forall k | 0 <= k < |group| :: x >= group[k]
  {
    if group == [] then 0.0 else
      var x := High(group[..|group| - 1]);
      if group[|group| - 1] > x then group[|group| - 1] else x
  }

  const TINY: real := 0.000000000001

  predicate Flat(group: seq<real>) {
    High(group) - Low(group) < TINY
  }

  /** How far a weight of the group may be from what is read back. */
  function Tolerance(group: seq<real>): real {
    if Flat(group) then TINY else (High(group) - Low(group)) / 15.0 / 2.0
  }

  predicate Within(a: real, b: real, tolerance: real) {
    -tolerance <= a - b <= tolerance
  }

  /** A group's scale, zero point and nibbles. */
  ghost predicate Rounded(group: seq<real>, scale: real, zero: nat, qs: seq<nat>) {
    && |qs| == |group| && zero < 16
    && scale == (if Flat(group) then Low(group) else (High(group) - Low(group)) / 15.0)
    && forall k | 0 <= k < |group| :: qs[k] < 16 && Within(Back(qs[k], zero, scale), group[k], Tolerance(group))
  }

  /** A value of a range that is no point, over fifteen steps of it, lands within half a step. */
  lemma {:induction false} StepIsNear(low: real, high: real, v: real, scale: real, zero: nat)
    requires low <= 0.0 <= high && low <= v <= high && low < high
    requires scale == (high - low) / 15.0 && zero == Clamp(Round(-low / scale))
    ensures Within(Back(Clamp(Round(v / scale + zero as real)), zero, scale), v, scale / 2.0)
  {
    var a, y, b := -low / scale, v / scale, high / scale;
    Ratios(low, high, v, scale);
    ClampIsNear(a);
    var x := y + zero as real;
    ClampIsNear(x);
    LandsNear(Clamp(Round(x)), zero, y, scale);
  }

  lemma {:induction false} Ratios(low: real, high: real, v: real, scale: real)
    requires low <= 0.0 <= high && low <= v <= high && scale > 0.0 && high - low == 15.0 * scale
    ensures 0.0 <= -low / scale <= 15.0 && low / scale == -(-low / scale) && v / scale * scale == v
    ensures -(-low / scale) <= v / scale <= 15.0 - (-low / scale)
  {
    Divides(low, v, scale);
    Divides(v, high, scale);
    Divides(low, 0.0, scale);
    Divides(0.0, high, scale);
    Negates(low, scale);
    Sum(low, high, scale);
  }

  lemma {:induction false} Divides(x: real, y: real, scale: real)
    requires scale > 0.0 && x <= y
    ensures x / scale <= y / scale && x / scale * scale == x && 0.0 / scale == 0.0
  {
    var p, q := x / scale, y / scale;
    assert p * scale == x && q * scale == y;
    assert (q - p) * scale >= 0.0;
  }

  lemma {:induction false} Negates(x: real, scale: real)
    requires scale > 0.0
    ensures -x / scale == -(x / scale)
  {
    var p := x / scale;
    assert p * scale == x;
    assert -p * scale == -x;
  }

  lemma {:induction false} Sum(low: real, high: real, scale: real)
    requires scale > 0.0 && high - low == 15.0 * scale
    ensures high / scale == 15.0 + low / scale
  {
    var p := low / scale;
    assert p * scale == low;
    var q := 15.0 + p;
    assert q * scale == 15.0 * scale + p * scale;
    QuotientIs(q, high, scale);
  }

  lemma {:induction false} QuotientIs(q: real, x: real, scale: real)
    requires scale > 0.0 && q * scale == x
    ensures x / scale == q
  {
  }

  lemma {:induction false} LandsNear(q: nat, zero: nat, y: real, scale: real)
    requires scale > 0.0 && -0.5 <= q as real - (y + zero as real) <= 0.5
    ensures Within(Back(q, zero, scale), y * scale, scale / 2.0)
  {
    var steps: int := q as int - zero as int;
    var d := steps as real - y;
    assert -0.5 <= d <= 0.5;
    assert d * scale <= 0.5 * scale && d * scale >= -0.5 * scale;
    assert d * scale == steps as real * scale - y * scale;
  }

  method Range(group: seq<real>) returns (low: real, high: real)
    requires group != []
    ensures low == Low(group) && high == High(group)
  {
    var xmin, xmax := group[0], group[0];
    for k := 0 to |group|
      invariant Below(0.0, xmin) == Low(group[..k + (if k == 0 then 1 else 0)])
      invariant Above(0.0, xmax) == High(group[..k + (if k == 0 then 1 else 0)])
    {
      xmin := Below(xmin, group[k]);
      xmax := Above(xmax, group[k]);
      assert group[..k + 1][..k] == group[..k];
    }
    assert group[..|group|] == group;
    low, high := Below(xmin, 0.0), Above(xmax, 0.0);
  }

  function Below(a: real, b: real): real {
    if a <= b then a else b
  }

  function Above(a: real, b: real): real {
    if a >= b then a else b
  }

  /** The branch for a group whose weights are all but equal. */
  lemma {:induction false} FlatIsNear(group: seq<real>, qs: seq<nat>)
    requires Flat(group) && |qs| == |group| && forall k | 0 <= k < |group| :: qs[k] == 1
    ensures Rounded(group, Low(group), 0, qs)
  {
  }

  method RoundAll(group: seq<real>, scale: real, zero: nat) returns (qs: seq<nat>)
    requires !Flat(group) && scale == (High(group) - Low(group)) / 15.0 && zero == Clamp(Round(-Low(group) / scale))
    ensures Rounded(group, scale, zero, qs)
  {
    hide Within, Low, High, Clamp, Round, Back;
    qs := [];
    for k := 0 to |group|
      invariant |qs| == k
      invariant forall m | 0 <= m < k :: qs[m] < 16 && Within(Back(qs[m], zero, scale), group[m], scale / 2.0)
    {
      StepIsNear(Low(group), High(group), group[k], scale, zero);
      var q := Clamp(Round(group[k] / scale + zero as real));
      assert Within(Back(q, zero, scale), group[k], scale / 2.0);
      qs := qs + [q];
    }
  }

  method QuantizeGroup(group: seq<real>) returns (scale: real, zero: nat, qs: seq<nat>)
    requires group != []
    ensures Rounded(group, scale, zero, qs)
  {
    hide Rounded, Low, High, Clamp, Round;
    var low, high := Range(group);
    if high - low < TINY {
      scale, zero, qs := low, 0, seq(|group|, _ => 1);
      FlatIsNear(group, qs);
    } else {
      scale := (high - low) / 15.0;
      zero := Clamp(Round(-low / scale));
      qs := RoundAll(group, scale, zero);
    }
  }

  lemma {:induction false} GroupFits(g: nat, size: nat, n: nat)
    requires size > 0 && g < n / size
    ensures g * size + size <= n && (g + 1) * size == g * size + size
  {
    assert n == n / size * size + n % size;
    AtMost(g + 1, n / size, size);
    Next(g, size);
  }

  lemma {:induction false} AtMost(p: nat, q: nat, size: nat)
    requires p <= q
    ensures p * size <= q * size
  {
  }

  lemma {:induction false} Next(g: nat, size: nat)
    ensures (g + 1) * size == g * size + size
  {
  }

  function Group(row: seq<real>, size: nat, g: nat): (group: seq<real>)
    requires size > 0 && g < |row| / size
    ensures |group| == size
  {
    GroupFits(g, size, |row|);
    row[g * size..g * size + size]
  }

  /** A row of weights, group by group. */
  ghost predicate RowRounded(row: seq<real>, size: nat, scales: seq<real>, zeros: seq<nat>, qs: seq<nat>, groups: nat)
    requires size > 0 && groups <= |row| / size
  {
    && |scales| == |zeros| == groups && |qs| == groups * size
    && forall g | 0 <= g < groups ::
        && g * size + size <= |qs|
        && Rounded(Group(row, size, g), scales[g], zeros[g], qs[g * size..g * size + size])
  }

  lemma {:induction false} OneMoreGroup(row: seq<real>, size: nat, scales: seq<real>, zeros: seq<nat>, qs: seq<nat>,
        g: nat, scale: real, zero: nat, more: seq<nat>)
    requires size > 0 && g < |row| / size && RowRounded(row, size, scales, zeros, qs, g)
    requires Rounded(Group(row, size, g), scale, zero, more)
    ensures RowRounded(row, size, scales + [scale], zeros + [zero], qs + more, g + 1)
  {
    hide Rounded;
    GroupFits(g, size, |row|);
    RoundedLength(Group(row, size, g), scale, zero, more);
    assert (qs + more)[g * size..g * size + size] == more;
    forall h | 0 <= h < g
      ensures h * size + size <= |qs| && (qs + more)[h * size..h * size + size] == qs[h * size..h * size + size]
    {
      assert h * size + size <= |qs|;
    }
  }

  lemma {:induction false} RoundedLength(group: seq<real>, scale: real, zero: nat, qs: seq<nat>)
    requires Rounded(group, scale, zero, qs)
    ensures |qs| == |group|
  {
  }

  method QuantizeRow(row: seq<real>, size: nat) returns (scales: seq<real>, zeros: seq<nat>, qs: seq<nat>)
    requires size > 0 && |row| % size == 0
    ensures RowRounded(row, size, scales, zeros, qs, |row| / size)
  {
    hide Rounded, RowRounded;
    scales, zeros, qs := [], [], [];
    NoGroups(row, size);
    for g := 0 to |row| / size
      invariant RowRounded(row, size, scales, zeros, qs, g)
    {
      var scale, zero, more := QuantizeGroup(Group(row, size, g));
      OneMoreGroup(row, size, scales, zeros, qs, g, scale, zero, more);
      scales, zeros, qs := scales + [scale], zeros + [zero], qs + more;
    }
  }

  lemma {:induction false} NoGroups(row: seq<real>, size: nat)
    requires size > 0
    ensures RowRounded(row, size, [], [], [], 0)
  {
  }

  /** Where weight `i` sits in its group. */
  lemma {:induction false} InGroup(i: nat, size: nat, n: nat)
    requires size > 0 && n % size == 0 && i < n
    ensures i / size < n / size && n == n / size * size
    ensures i / size * size + size <= n && i == i / size * size + i % size
  {
    GroupOf(i, n, size);
    GroupFits(i / size, size, n);
    assert n == n / size * size + n % size && i == i / size * size + i % size;
  }

  /** Every weight of the row is near what its nibble stands for. */
  lemma {:induction false} RowIsNear(row: seq<real>, size: nat, scales: seq<real>, zeros: seq<nat>, qs: seq<nat>,
        i: nat)
    requires size > 0 && |row| % size == 0 && i < |row| && RowRounded(row, size, scales, zeros, qs, |row| / size)
    ensures |qs| == |row| && i / size < |row| / size && |scales| == |zeros| == |row| / size
    ensures qs[i] < 16 && zeros[i / size] < 16
    ensures Within(Back(qs[i], zeros[i / size], scales[i / size]), row[i], Tolerance(Group(row, size, i / size)))
  {
    hide Within, Back, Tolerance, Rounded;
    InGroup(i, size, |row|);
    var g := i / size;
    var start := g * size;
    var group := Group(row, size, g);
    NearAt(group, scales[g], zeros[g], qs[start..start + size], i - start);
  }

  lemma {:induction false} NearAt(group: seq<real>, scale: real, zero: nat, qs: seq<nat>, k: nat)
    requires Rounded(group, scale, zero, qs) && k < |group|
    ensures |qs| == |group| && zero < 16 && qs[k] < 16 && Within(Back(qs[k], zero, scale), group[k], Tolerance(group))
  {
    hide Within, Back, Tolerance;
  }

  // ----- packing

  predicate Small(rows: seq<seq<nat>>, n: nat) {
    forall o | 0 <= o < |rows| :: |rows[o]| == n && forall i | 0 <= i < n :: rows[o][i] < 16
  }

  /** A column of words holds the eight rows from `j * 8` on, each in its slot. */
  predicate Packed(rows: seq<seq<nat>>, j: nat, n: nat, column: seq<Word>)
    requires Small(rows, n) && j * PACK + PACK <= |rows|
  {
    && |column| == n
    && forall i, k | 0 <= i < n && 0 <= k < PACK :: Value(column[i], k) == rows[j * PACK + PACK_ORDER[k]][i]
  }

  /** One row or-ed into its slot of every word. */
  method PutRow(column: seq<Word>, row: seq<nat>, k: nat) returns (c: seq<Word>)
    requires |row| == |column| && k < PACK
    requires forall i | 0 <= i < |row| :: row[i] < 16 && EmptyFrom(column[i], k)
    ensures |c| == |column|
    ensures forall i | 0 <= i < |c| :: EmptyFrom(c[i], k + 1) && Value(c[i], k) == row[i]
    ensures forall i, m | 0 <= i < |c| && 0 <= m < k :: Value(c[i], m) == Value(column[i], m)
  {
    hide Value, EmptyFrom, Place, Put;
    c := column;
    for i := 0 to |row|
      invariant |c| == |column|
      invariant forall h | i <= h < |c| :: c[h] == column[h]
      invariant forall h | 0 <= h < i :: EmptyFrom(c[h], k + 1) && Value(c[h], k) == row[h]
      invariant forall h, m | 0 <= h < i && 0 <= m < k :: Value(c[h], m) == Value(column[h], m)
    {
      ToAndFrom(row[i]);
      PutKeeps(column[i], k, row[i]);
      c := c[i := Put(c[i], Place(k), row[i] as Word)];
    }
  }

  lemma {:induction false} PutKeeps(w: Word, k: nat, q: nat)
    requires k < PACK && q < 16 && EmptyFrom(w, k)
    ensures EmptyFrom(Put(w, Place(k), q as Word), k + 1) && Value(Put(w, Place(k), q as Word), k) == q
    ensures forall m | 0 <= m < k :: Value(Put(w, Place(k), q as Word), m) == Value(w, m)
  {
    hide Nibble, Place, Put;
    ToAndFrom(q);
    PutWordKeeps(w, k, q as Word);
  }

  lemma {:induction false} PutWordKeeps(w: Word, k: nat, n: Word)
    requires k < PACK && n <= 15 && EmptyFrom(w, k)
    ensures EmptyFrom(Put(w, Place(k), n), k + 1) && Nibble(Put(w, Place(k), n), k) == n
    ensures forall m | 0 <= m < k :: Nibble(Put(w, Place(k), n), m) == Nibble(w, m)
  {
    hide Nibble, Place, Put;
    assert Nibble(w, k) == 0;
    forall m | 0 <= m < PACK
      ensures Nibble(Put(w, Place(k), n), m) == if m == k then n else Nibble(w, m)
    {
      SetNibble(w, k, n, m);
    }
  }

  method PackRows(rows: seq<seq<nat>>, j: nat, n: nat) returns (column: seq<Word>)
    requires Small(rows, n) && j * PACK + PACK <= |rows|
    ensures Packed(rows, j, n, column)
  {
    hide Value, EmptyFrom;
    Constants();
    column := seq(n, _ => 0);
    for k := 0 to PACK
      invariant |column| == n && forall i | 0 <= i < n :: EmptyFrom(column[i], k)
      invariant forall i, m | 0 <= i < n && 0 <= m < k :: Value(column[i], m) == rows[j * PACK + PACK_ORDER[m]][i]
    {
      column := PutRow(column, rows[j * PACK + PACK_ORDER[k]], k);
    }
  }

  /** All columns, transposed into the interleaved layout. */
  method PackAll(rows: seq<seq<nat>>, n: nat) returns (words: Grid<Word>)
    requires Small(rows, n) && |rows| % PACK == 0
    ensures words.Is(n, |rows| / PACK)
    ensures forall i, o | 0 <= i < n && 0 <= o < |rows| :: Value(words.rows[i][o / PACK], Slot(o % PACK)) == rows[o][i]
  {
    hide Value, Packed;
    var columns: seq<seq<Word>> := [];
    for j := 0 to |rows| / PACK
      invariant |columns| == j && forall l | 0 <= l < j :: Packed(rows, l, n, columns[l])
    {
      var column := PackRows(rows, j, n);
      columns := columns + [column];
    }
    forall l | 0 <= l < |columns|
      ensures |columns[l]| == n
    {
      PackedAt(rows, l, n, columns[l]);
    }
    words := Grid(|rows| / PACK, Transposed(columns, n));
    forall i, o | 0 <= i < n && 0 <= o < |rows|
      ensures Value(words.rows[i][o / PACK], Slot(o % PACK)) == rows[o][i]
    {
      PackedAt(rows, o / PACK, n, columns[o / PACK]);
      SlotPlace(rows, o, n, columns[o / PACK], i);
    }
  }

  lemma {:induction false} PackedAt(rows: seq<seq<nat>>, j: nat, n: nat, column: seq<Word>)
    requires Small(rows, n) && j * PACK + PACK <= |rows| && Packed(rows, j, n, column)
    ensures |column| == n
  {
  }

  lemma {:induction false} SlotPlace(rows: seq<seq<nat>>, o: nat, n: nat, column: seq<Word>, i: nat)
    requires Small(rows, n) && o < |rows| && |rows| % PACK == 0 && i < n && Packed(rows, o / PACK, n, column)
    ensures Value(column[i], Slot(o % PACK)) == rows[o][i]
  {
    hide Value;
    var k := Slot(o % PACK);
    assert o / PACK * PACK + PACK_ORDER[k] == o;
  }

  // ----- the whole quantization

  /** What the quantizer accepts. Without columns it would cut its buffers into chunks of nothing. */
  predicate Quantizable(w: Grid<real>, size: nat) {
    |w.rows| % PACK == 0 && size > 0 && w.cols > 0 && w.cols % size == 0
  }

  /** Every row rounded. */
  ghost predicate AllRounded(w: Grid<real>, size: nat, scales: seq<seq<real>>, zeros: seq<seq<nat>>, qs: seq<seq<nat>>,
        n: nat)
    requires w.Valid() && Quantizable(w, size) && n <= |w.rows|
  {
    && |scales| == |zeros| == |qs| == n
    && forall o | 0 <= o < n :: RowRounded(w.rows[o], size, scales[o], zeros[o], qs[o], w.cols / size)
  }

  method QuantizeRows(w: Grid<real>, size: nat)
    returns (scales: seq<seq<real>>, zeros: seq<seq<nat>>, qs: seq<seq<nat>>)
    requires w.Valid() && Quantizable(w, size)
    ensures AllRounded(w, size, scales, zeros, qs, |w.rows|)
  {
    hide RowRounded;
    scales, zeros, qs := [], [], [];
    for o := 0 to |w.rows|
      invariant AllRounded(w, size, scales, zeros, qs, o)
    {
      var s, z, q := QuantizeRow(w.rows[o], size);
      scales, zeros, qs := scales + [s], zeros + [z], qs + [q];
    }
  }

  lemma {:induction false} RoundedShapes(w: Grid<real>, size: nat, scales: seq<seq<real>>, zeros: seq<seq<nat>>,
        qs: seq<seq<nat>>)
    requires w.Valid() && Quantizable(w, size) && AllRounded(w, size, scales, zeros, qs, |w.rows|)
    ensures |scales| == |zeros| == |qs| == |w.rows|
    ensures forall o | 0 <= o < |scales| :: |scales[o]| == w.cols / size
    ensures Small(zeros, w.cols / size) && Small(qs, w.cols)
  {
    hide RowRounded;
    forall o | 0 <= o < |w.rows|
      ensures |scales[o]| == |zeros[o]| == w.cols / size && |qs[o]| == w.cols
      ensures forall g | 0 <= g < w.cols / size :: zeros[o][g] < 16
      ensures forall i | 0 <= i < w.cols :: qs[o][i] < 16
    {
      assert RowRounded(w.rows[o], size, scales[o], zeros[o], qs[o], w.cols / size);
      RowShape(w.rows[o], size, scales[o], zeros[o], qs[o]);
    }
  }

  lemma {:induction false} RowShape(row: seq<real>, size: nat, scales: seq<real>, zeros: seq<nat>, qs: seq<nat>)
    requires size > 0 && |row| % size == 0 && RowRounded(row, size, scales, zeros, qs, |row| / size)
    ensures |scales| == |zeros| == |row| / size && |qs| == |row|
    ensures forall g | 0 <= g < |zeros| :: zeros[g] < 16
    ensures forall i | 0 <= i < |qs| :: qs[i] < 16
  {
    assert |row| == |row| / size * size + |row| % size;
    forall i | 0 <= i < |qs|
      ensures qs[i] < 16
    {
      RowIsNear(row, size, scales, zeros, qs, i);
    }
    forall g | 0 <= g < |zeros|
      ensures zeros[g] < 16
    {
      assert Rounded(Group(row, size, g), scales[g], zeros[g], qs[g * size..g * size + size]);
    }
  }

  /** The layers' parts, read back. */
  predicate Holds(w: Grid<real>, size: nat, scales: seq<seq<real>>, zeros: seq<seq<nat>>, qs: seq<seq<nat>>,
        raw: QuantWeight)
    requires w.Valid() && Quantizable(w, size)
    requires |scales| == |zeros| == |qs| == |w.rows|
    requires forall o | 0 <= o < |scales| :: |scales[o]| == w.cols / size
    requires Small(zeros, w.cols / size) && Small(qs, w.cols)
  {
    var (n, groups) := (|w.rows|, w.cols / size);
    && raw.qweight.Is(w.cols, n / PACK) && raw.qzeros.Some? && raw.qzeros.value.Is(groups, n / PACK)
    && raw.scales.Is(groups, n)
    && (forall i, o | 0 <= i < w.cols && 0 <= o < n :: Value(raw.qweight.rows[i][o / PACK], Slot(o % PACK)) == qs[o][i])
    && (forall g, o | 0 <= g < groups && 0 <= o < n ::
      Value(raw.qzeros.value.rows[g][o / PACK], Slot(o % PACK)) == zeros[o][g])
    && (forall g, o | 0 <= g < groups && 0 <= o < n :: raw.scales.rows[g][o] == scales[o][g])
  }

  /** Quantizes to the interleaved layout. What is read back lies within half a step of the group's scale, or, in a
      group of all but equal weights, within the bound that branch tests. */
  method RtnQuantize(w: Grid<real>, size: nat) returns (raw: Option<QuantWeight>)
    requires w.Valid()
    ensures raw.Some? <==> Quantizable(w, size)
    ensures raw.Some? ==> raw.value.bits == 4 && OutFeatures(raw.value) == |w.rows| && InFeatures(raw.value) == w.cols
    ensures raw.Some? ==> Dequantizable(raw.value) && GroupSize(raw.value) == Some(size)
    ensures raw.Some? ==>
        forall o, i | 0 <= o < |w.rows| && 0 <= i < w.cols :: IsNear(w, size, raw.value, o, i)
  {
    if !Quantizable(w, size) {
      return None;
    }
    hide AllRounded, Small, Holds, Dequantizable, GroupSize, IsNear;
    var scales, zeros, qs := QuantizeRows(w, size);
    RoundedShapes(w, size, scales, zeros, qs);
    var qweight := PackAll(qs, w.cols);
    var qzeros := PackAll(zeros, w.cols / size);
    var transposed := Transposed(scales, w.cols / size);
    raw := Some(QuantWeight(4, qweight, Some(qzeros), Grid(|w.rows|, transposed)));
    ItHolds(w, size, scales, zeros, qs, raw.value);
    ShapeBack(raw.value, |w.rows|, w.cols, size);
    forall o, i | 0 <= o < |w.rows| && 0 <= i < w.cols
      ensures IsNear(w, size, raw.value, o, i)
    {
      WeightIsNear(w, size, scales, zeros, qs, raw.value, o, i);
    }
  }

  lemma {:induction false} ItHolds(w: Grid<real>, size: nat, scales: seq<seq<real>>, zeros: seq<seq<nat>>,
        qs: seq<seq<nat>>, raw: QuantWeight)
    requires w.Valid() && Quantizable(w, size)
    requires |scales| == |zeros| == |qs| == |w.rows|
    requires forall o | 0 <= o < |scales| :: |scales[o]| == w.cols / size
    requires Small(zeros, w.cols / size) && Small(qs, w.cols)
    requires raw.qweight.Is(w.cols, |w.rows| / PACK)
    requires forall i, o | 0 <= i < w.cols && 0 <= o < |w.rows| ::
        Value(raw.qweight.rows[i][o / PACK], Slot(o % PACK)) == qs[o][i]
    requires raw.qzeros.Some? && raw.qzeros.value.Is(w.cols / size, |w.rows| / PACK)
    requires forall g, o | 0 <= g < w.cols / size && 0 <= o < |w.rows| ::
        Value(raw.qzeros.value.rows[g][o / PACK], Slot(o % PACK)) == zeros[o][g]
    requires raw.scales == Grid(|w.rows|, Transposed(scales, w.cols / size))
    ensures Holds(w, size, scales, zeros, qs, raw)
  {
    hide Value, Slot;
  }

  lemma {:induction false} ShapeBack(raw: QuantWeight, n: nat, input: nat, size: nat)
    requires size > 0 && input > 0 && input % size == 0 && n % PACK == 0
    requires raw.qweight.Is(input, n / PACK) && raw.scales.Is(input / size, n)
    requires raw.qzeros.Some? && raw.qzeros.value.Is(input / size, n / PACK)
    ensures OutFeatures(raw) == n && InFeatures(raw) == input
    ensures Dequantizable(raw) && GroupSize(raw) == Some(size)
  {
    InGroup(0, size, input);
    Quotient(input, input / size, size);
  }

  predicate IsNear(w: Grid<real>, size: nat, raw: QuantWeight, o: nat, i: nat)
    requires w.Valid() && Quantizable(w, size) && Dequantizable(raw)
    requires o < |w.rows| == OutFeatures(raw) && i < w.cols == InFeatures(raw)
  {
    GroupOf(i, w.cols, size);
    Within(Weight(raw, o, i), w.rows[o][i], Tolerance(Group(w.rows[o], size, i / size)))
  }

  /** What is read back at (o, i) is what was stored for it. */
  lemma {:induction false} ReadBackAt(w: Grid<real>, size: nat, scales: seq<seq<real>>, zeros: seq<seq<nat>>,
        qs: seq<seq<nat>>, raw: QuantWeight, o: nat, i: nat)
    requires w.Valid() && Quantizable(w, size) && |scales| == |zeros| == |qs| == |w.rows|
    requires forall p | 0 <= p < |scales| :: |scales[p]| == w.cols / size
    requires Small(zeros, w.cols / size) && Small(qs, w.cols) && Holds(w, size, scales, zeros, qs, raw)
    requires Dequantizable(raw) && GroupSize(raw) == Some(size)
    requires o < |w.rows| == OutFeatures(raw) && i < w.cols == InFeatures(raw)
    ensures i / size < |scales[o]| && i / size < |zeros[o]| && i < |qs[o]|
    ensures Weight(raw, o, i) == Back(qs[o][i], zeros[o][i / size], scales[o][i / size])
  {
    hide Value, Slot, Back;
    GroupOf(i, w.cols, size);
  }

  lemma {:induction false} WeightIsNear(w: Grid<real>, size: nat, scales: seq<seq<real>>, zeros: seq<seq<nat>>,
        qs: seq<seq<nat>>, raw: QuantWeight, o: nat, i: nat)
    requires w.Valid() && Quantizable(w, size) && AllRounded(w, size, scales, zeros, qs, |w.rows|)
    requires |scales| == |zeros| == |qs| == |w.rows|
    requires forall p | 0 <= p < |scales| :: |scales[p]| == w.cols / size
    requires Small(zeros, w.cols / size) && Small(qs, w.cols) && Holds(w, size, scales, zeros, qs, raw)
    requires Dequantizable(raw) && GroupSize(raw) == Some(size)
    requires o < |w.rows| == OutFeatures(raw) && i < w.cols == InFeatures(raw)
    ensures IsNear(w, size, raw, o, i)
  {
    hide Weight, Within, Back, Tolerance, RowRounded, Small, Holds, Dequantizable, GroupSize;
    assert RowRounded(w.rows[o], size, scales[o], zeros[o], qs[o], w.cols / size);
    RowIsNear(w.rows[o], size, scales[o], zeros[o], qs[o], i);
    GroupOf(i, w.cols, size);
    ReadBackAt(w, size, scales, zeros, qs, raw, o, i);
  }
}
