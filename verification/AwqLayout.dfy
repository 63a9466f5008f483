/**
 The interleaved layout in literal positions (src/common/awq.rs:20-40, 187-254, 325-406 and 637-740): where a column's
 four bits stand, which shapes are taken, and how far a quantized weight may move.
 */
module AwqLayout {
  import opened Awq
  import opened Wrappers

  /** Theorem: a word is its nibbles, the lowest four bits first. */
  lemma {:induction false} WordIsItsNibbles(w: Word)
    ensures w == Nibble(w, 0) | (Nibble(w, 1) << 4) | (Nibble(w, 2) << 8) | (Nibble(w, 3) << 12)
      | (Nibble(w, 4) << 16) | (Nibble(w, 5) << 20) | (Nibble(w, 6) << 24) | (Nibble(w, 7) << 28)
  {
  }

  /** The nibble of column `x`: even columns come first, odd ones behind them. */
  function NibbleOf(x: nat): (k: nat)
    requires x < 8
    ensures k < 8
  {
    if x % 2 == 0 then x / 2 else 4 + x / 2
  }

  lemma {:induction false} SlotIsNibble(x: nat)
    requires x < 8
    ensures Slot(x) == NibbleOf(x) && PACK_ORDER[NibbleOf(x)] == x
  {
  }

  /** A layer of `n` inputs, `out` outputs and `groups` groups in the interleaved layout. */
  predicate Shaped(raw: QuantWeight, n: nat, out: nat, groups: nat) {
    && raw.qweight.Is(n, out / 8)
    && raw.qzeros.Some? && raw.qzeros.value.Is(groups, out / 8)
    && raw.scales.Is(groups, out)
  }

  /** Theorem: a layer can be read exactly when its parts have one shape, with outputs by the eight and equal groups of
      at least one input. */
  lemma {:induction false} ReadableIff(raw: QuantWeight)
    ensures Dequantizable(raw) <==>
      exists n: nat, out: nat, groups: nat | Shaped(raw, n, out, groups) ::
        out % 8 == 0 && groups > 0 && n > 0 && n % groups == 0
  {
    if Dequantizable(raw) {
      SizeDivides(raw);
      assert Shaped(raw, InFeatures(raw), OutFeatures(raw), |raw.scales.rows|);
    }
    if n: nat, out: nat, groups: nat :|
      Shaped(raw, n, out, groups) && out % 8 == 0 && groups > 0 && n > 0 && n % groups == 0 {
      assert n == n / groups * groups + n % groups;
      SizeDivides(raw);
    }
  }

  /** Theorem: weight (o, i) is the difference of two nibbles of column `o`, the weight's and its group's zero point, in
      steps of the group's scale. */
  lemma {:induction false} WeightByNibbles(raw: QuantWeight, n: nat, out: nat, groups: nat, o: nat, i: nat)
    requires Shaped(raw, n, out, groups) && out % 8 == 0 && groups > 0 && n > 0 && n % groups == 0
    requires o < out && i < n
    ensures Dequantizable(raw) && OutFeatures(raw) == out && InFeatures(raw) == n
    ensures n / groups > 0 && i / (n / groups) < groups && o / 8 < out / 8
    ensures var g, k := i / (n / groups), NibbleOf(o % 8);
      var q: int := Value(raw.qweight.rows[i][o / 8], k);
      var zero: int := Value(raw.qzeros.value.rows[g][o / 8], k);
      Weight(raw, o, i) == (q - zero) as real * raw.scales.rows[g][o]
  {
    hide Value, Dequantizable, Slot;
    ReadableIff(raw);
    assert n == n / groups * groups + n % groups;
    GroupOfRow(i, n, groups);
    SlotIsNibble(o % 8);
    assert GroupSize(raw) == Some(n / groups);
  }

  /** Theorem: which inputs conversion, fusion and quantization take. */
  lemma {:induction false} ConvertibleIff(packed: Grid<Word>, scale: Grid<real>)
    ensures Convertible(packed, scale) <==>
      && (exists words: nat | |packed.rows| == 8 * words :: words > 0)
      && |scale.rows| == |packed.rows| && scale.cols > 0 && 8 * packed.cols % scale.cols == 0
  {
    if Convertible(packed, scale) {
      assert |packed.rows| == 8 * (|packed.rows| / 8);
    }
  }

  lemma {:induction false} QuantizableIff(w: Grid<real>, size: nat)
    ensures Quantizable(w, size) <==>
      exists words: nat, groups: nat | |w.rows| == 8 * words && w.cols == groups * size :: size > 0 && groups > 0
  {
    if Quantizable(w, size) {
      assert |w.rows| == 8 * (|w.rows| / 8) && w.cols == w.cols / size * size;
    }
    if words: nat, groups: nat :| |w.rows| == 8 * words && w.cols == groups * size && size > 0 && groups > 0 {
      Quotient(w.cols, size, groups);
      assert groups * size >= size;
    }
  }

  lemma {:induction false} MatchesIff(first: QuantWeight, p: QuantWeight)
    requires GroupSize(first).Some?
    ensures Matches(first, p) <==>
      && |p.qweight.rows| == |first.qweight.rows| && p.bits == first.bits
      && GroupSize(p) == GroupSize(first)
      && p.scales.cols % (if first.bits == 4 then 8 else 4) == 0
  {
  }

  /** Zero and the whole group lie between `low` and `high`. */
  predicate Spans(low: real, high: real, group: seq<real>) {
    low <= 0.0 <= high && forall k | 0 <= k < |group| :: low <= group[k] <= high
  }

  lemma {:induction false} TightRange(group: seq<real>, low: real, high: real)
    requires Spans(low, high, group)
    ensures low <= Low(group) && High(group) <= high
  {
    if group != [] {
      TightRange(group[..|group| - 1], low, high);
    }
  }

  /** Theorem: a quantized weight comes back within a thirtieth of any range that holds zero and its group, or within
      1e-12. */
  lemma {:induction false} WithinAThirtieth(w: Grid<real>, size: nat, raw: QuantWeight, o: nat, i: nat, low: real,
        high: real)
    requires w.Valid() && Quantizable(w, size) && Dequantizable(raw)
    requires o < |w.rows| == OutFeatures(raw) && i < w.cols == InFeatures(raw) && IsNear(w, size, raw, o, i)
    requires i / size < w.cols / size && Spans(low, high, Group(w.rows[o], size, i / size))
    ensures var bound := if (high - low) / 30.0 < 0.000000000001 then 0.000000000001 else (high - low) / 30.0;
      -bound <= Weight(raw, o, i) - w.rows[o][i] <= bound
  {
    hide Weight, Dequantizable;
    TightRange(Group(w.rows[o], size, i / size), low, high);
  }

  /** Rounding is to the nearest, and away from zero from the middle. */
  lemma {:induction false} HalvesGoOutwards(x: real, n: nat)
    ensures Round(-x) == -Round(x) && Round(n as real + 0.5) == n + 1
    ensures -0.5 <= Round(x) as real - x <= 0.5
  {
    RoundIsNear(x);
    RoundIsNear(n as real + 0.5);
    assert (n as real + 1.0).Floor == n + 1;
  }
}
