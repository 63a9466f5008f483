/**
 The GGUF header octet by octet (src/common/gguf_header.rs:18-32, 66-90, 128-267 and 340-374): what each tag reads,
 which files are taken at all and how a table lists dimensions and offsets, in literal numbers and characters.
 */
module GgufOctets {
  import opened Utf8
  import opened Wrappers
  import opened Gguf

  predicate Reads(s: Text, t: string) {
    |s| == |t| && forall i | 0 <= i < |s| :: s[i] == t[i] as int
  }

  function Two(b: Text, i: nat): nat
    requires i + 2 <= |b|
  {
    var low: nat, high: nat := b[i], b[i + 1];
    low + 0x100 * high
  }

  function Four(b: Text, i: nat): nat
    requires i + 4 <= |b|
  {
    Two(b, i) + 0x1_0000 * Two(b, i + 2)
  }

  function Eight(b: Text, i: nat): nat
    requires i + 8 <= |b|
  {
    Four(b, i) + 0x1_0000_0000 * Four(b, i + 4)
  }

  /** An unsigned number read as two's complement under the modulus `m`. */
  function TwosComplement(n: nat, m: nat): int {
    if 2 * n < m then n else n - m
  }

  lemma {:induction false} FromLeSplits(x: Text, y: Text)
    ensures FromLe(x + y) == FromLe(x) + Power(|x|) * FromLe(y)
    decreases |x|
  {
    if x == [] {
      assert x + y == y;
    } else {
      FromLeSplits(x[1..], y);
      assert (x + y)[1..] == x[1..] + y;
      assert 256 * (Power(|x| - 1) * FromLe(y)) == Power(|x|) * FromLe(y);
    }
  }

  lemma {:induction false} TwoIs(b: Text, i: nat)
    requires i + 2 <= |b|
    ensures FromLe(b[i..i + 2]) == Two(b, i) && FromLe(b[i..i + 1]) == b[i]
  {
    assert b[i..i + 2][1..] == [b[i + 1]] && [b[i + 1]][1..] == [] && b[i..i + 1][1..] == [];
    assert FromLe([b[i + 1]]) == b[i + 1] + 256 * FromLe([]);
  }

  lemma {:induction false} FourIs(b: Text, i: nat)
    requires i + 4 <= |b|
    ensures FromLe(b[i..i + 4]) == Four(b, i)
  {
    hide FromLe, Two;
    PowersOf256();
    TwoIs(b, i);
    TwoIs(b, i + 2);
    FromLeSplits(b[i..i + 2], b[i + 2..i + 4]);
    assert b[i..i + 4] == b[i..i + 2] + b[i + 2..i + 4];
  }

  lemma {:induction false} EightIs(b: Text, i: nat)
    requires i + 8 <= |b|
    ensures FromLe(b[i..i + 8]) == Eight(b, i)
  {
    hide FromLe, Two, Four;
    PowersOf256();
    FourIs(b, i);
    FourIs(b, i + 4);
    FromLeSplits(b[i..i + 4], b[i + 4..i + 8]);
    assert b[i..i + 8] == b[i..i + 4] + b[i + 4..i + 8];
  }

  /** What an integer of each width reads. */
  lemma {:induction false} IntsByOctets(b: Text, i: nat)
    ensures IntAt(b, i, 1) == if i + 1 <= |b| then Some((b[i], i + 1)) else None
    ensures IntAt(b, i, 2) == if i + 2 <= |b| then Some((Two(b, i), i + 2)) else None
    ensures IntAt(b, i, 4) == if i + 4 <= |b| then Some((Four(b, i), i + 4)) else None
    ensures IntAt(b, i, 8) == if i + 8 <= |b| then Some((Eight(b, i), i + 8)) else None
  {
    hide Two, Four, Eight, FromLe;
    if i + 1 <= |b| {
      OneIs(b, i);
    }
    if i + 2 <= |b| {
      TwoIs(b, i);
    }
    if i + 4 <= |b| {
      FourIs(b, i);
    }
    if i + 8 <= |b| {
      EightIs(b, i);
    }
  }

  lemma {:induction false} OneIs(b: Text, i: nat)
    requires i + 1 <= |b|
    ensures FromLe(b[i..i + 1]) == b[i]
  {
    assert b[i..i + 1][1..] == [];
  }

  lemma {:induction false} NarrowNumbers(b: Text, i: nat, v: Version, depth: nat)
    requires depth <= 64
    ensures ValueAt(b, i, v, 0, depth) == if i + 1 <= |b| then Some((U8(b[i]), i + 1)) else None
    ensures ValueAt(b, i, v, 1, depth) == if i + 1 <= |b| then Some((I8(TwosComplement(b[i], 0x100)), i + 1)) else None
    ensures ValueAt(b, i, v, 2, depth) == if i + 2 <= |b| then Some((U16(Two(b, i)), i + 2)) else None
    ensures ValueAt(b, i, v, 3, depth)
      == if i + 2 <= |b| then Some((I16(TwosComplement(Two(b, i), 0x1_0000)), i + 2)) else None
    ensures ValueAt(b, i, v, 7, depth) == if i + 1 <= |b| then Some((Bool(b[i] != 0), i + 1)) else None
  {
    hide IntAt, Two, Four, Eight, StringAt, ArrayAt, Power;
    PowersOf256();
    IntsByOctets(b, i);
  }

  lemma {:induction false} WideNumbers(b: Text, i: nat, v: Version, depth: nat)
    requires depth <= 64
    ensures ValueAt(b, i, v, 4, depth) == if i + 4 <= |b| then Some((U32(Four(b, i)), i + 4)) else None
    ensures ValueAt(b, i, v, 5, depth)
      == if i + 4 <= |b| then Some((I32(TwosComplement(Four(b, i), 0x1_0000_0000)), i + 4)) else None
    ensures ValueAt(b, i, v, 6, depth) == if i + 4 <= |b| then Some((F32(Four(b, i)), i + 4)) else None
    ensures ValueAt(b, i, v, 10, depth) == if i + 8 <= |b| then Some((U64(Eight(b, i)), i + 8)) else None
    ensures ValueAt(b, i, v, 11, depth)
      == if i + 8 <= |b| then Some((I64(TwosComplement(Eight(b, i), 0x1_0000_0000_0000_0000)), i + 8)) else None
    ensures ValueAt(b, i, v, 12, depth) == if i + 8 <= |b| then Some((F64(Eight(b, i)), i + 8)) else None
    ensures forall tag: nat | tag > 12 :: ValueAt(b, i, v, tag, depth) == None
  {
    hide IntAt, Two, Four, Eight, StringAt, ArrayAt, Power;
    PowersOf256();
    IntsByOctets(b, i);
  }

  /** Theorem: which octets each number tag takes and what it makes of them; what lies past the end is not read. */
  lemma {:induction false} NumbersByOctets(b: Text, i: nat, v: Version, depth: nat)
    requires depth <= 64
    ensures ValueAt(b, i, v, 0, depth) == if i + 1 <= |b| then Some((U8(b[i]), i + 1)) else None
    ensures ValueAt(b, i, v, 1, depth) == if i + 1 <= |b| then Some((I8(TwosComplement(b[i], 0x100)), i + 1)) else None
    ensures ValueAt(b, i, v, 2, depth) == if i + 2 <= |b| then Some((U16(Two(b, i)), i + 2)) else None
    ensures ValueAt(b, i, v, 3, depth)
      == if i + 2 <= |b| then Some((I16(TwosComplement(Two(b, i), 0x1_0000)), i + 2)) else None
    ensures ValueAt(b, i, v, 4, depth) == if i + 4 <= |b| then Some((U32(Four(b, i)), i + 4)) else None
    ensures ValueAt(b, i, v, 5, depth)
      == if i + 4 <= |b| then Some((I32(TwosComplement(Four(b, i), 0x1_0000_0000)), i + 4)) else None
    ensures ValueAt(b, i, v, 6, depth) == if i + 4 <= |b| then Some((F32(Four(b, i)), i + 4)) else None
    ensures ValueAt(b, i, v, 7, depth) == if i + 1 <= |b| then Some((Bool(b[i] != 0), i + 1)) else None
    ensures ValueAt(b, i, v, 10, depth) == if i + 8 <= |b| then Some((U64(Eight(b, i)), i + 8)) else None
    ensures ValueAt(b, i, v, 11, depth)
      == if i + 8 <= |b| then Some((I64(TwosComplement(Eight(b, i), 0x1_0000_0000_0000_0000)), i + 8)) else None
    ensures ValueAt(b, i, v, 12, depth) == if i + 8 <= |b| then Some((F64(Eight(b, i)), i + 8)) else None
    ensures forall tag: nat | tag > 12 :: ValueAt(b, i, v, tag, depth) == None
  {
    hide ValueAt, Two, Four, Eight;
    NarrowNumbers(b, i, v, depth);
    WideNumbers(b, i, v, depth);
  }

  lemma {:induction false} TextAt(b: Text, i: nat, v: Version, depth: nat)
    requires depth <= 64
    ensures var w := if v.V1? then 4 else 8;
      ValueAt(b, i, v, 8, depth) ==
        if i + w > |b| then None else
          var n := if v.V1? then Four(b, i) else Eight(b, i);
          if i + w + n <= |b| then Some((Str(Lossy(b[i + w..i + w + n])), i + w + n)) else None
    ensures depth == 64 ==> ValueAt(b, i, v, 9, depth) == None
  {
    hide IntAt, Two, Four, Eight, ArrayAt, Lossy;
    IntsByOctets(b, i);
  }

  lemma {:induction false} ArrayLength(b: Text, i: nat, v: Version, depth: nat)
    requires depth < 64 && ValueAt(b, i, v, 9, depth).Some?
    ensures i + 8 <= |b| && ValueAt(b, i, v, 9, depth).value.0.Array?
    ensures v.V1? ==> |ValueAt(b, i, v, 9, depth).value.0.items| == Four(b, i + 4)
    ensures !v.V1? ==> i + 12 <= |b| && |ValueAt(b, i, v, 9, depth).value.0.items| == Eight(b, i + 4)
  {
    hide IntAt, Two, Four, Eight, ItemsAt, StringAt;
    IntsByOctets(b, i);
    IntsByOctets(b, i + 4);
    assert ValueAt(b, i, v, 9, depth) == ArrayAt(b, i, v, depth);
    var elem := IntAt(b, i, 4);
    var n := IntAt(b, elem.value.1, LenWidth(v));
    ItemsCount(b, n.value.1, v, elem.value.0, depth + 1, n.value.0);
  }

  /** Theorem: text and arrays. A length has four octets in version 1 and eight otherwise; an array inside 64 others is
      refused. */
  lemma {:induction false} TextsAndArrays(b: Text, i: nat, v: Version, depth: nat)
    requires depth <= 64
    ensures var w := if v.V1? then 4 else 8;
      ValueAt(b, i, v, 8, depth) ==
        if i + w > |b| then None else
          var n := if v.V1? then Four(b, i) else Eight(b, i);
          if i + w + n <= |b| then Some((Str(Lossy(b[i + w..i + w + n])), i + w + n)) else None
    ensures depth == 64 ==> ValueAt(b, i, v, 9, depth) == None
    ensures depth < 64 && ValueAt(b, i, v, 9, depth).Some? ==>
      && i + 8 <= |b|
      && ValueAt(b, i, v, 9, depth).value.0.Array?
      && (v.V1? ==> |ValueAt(b, i, v, 9, depth).value.0.items| == Four(b, i + 4))
      && (!v.V1? ==> i + 12 <= |b| && |ValueAt(b, i, v, 9, depth).value.0.items| == Eight(b, i + 4))
  {
    hide ValueAt, Two, Four, Eight, Lossy;
    TextAt(b, i, v, depth);
    if depth < 64 && ValueAt(b, i, v, 9, depth).Some? {
      ArrayLength(b, i, v, depth);
    }
  }

  lemma {:induction false} ItemsCount(b: Text, i: nat, v: Version, tag: nat, depth: nat, n: nat)
    requires depth <= 64
    ensures var r := ItemsAt(b, i, v, tag, depth, n);
      r.Some? ==> |r.value.0| == n
  {
    hide ValueAt;
    if n > 0 {
      ItemsCount(b, i, v, tag, depth, n - 1);
    }
  }

  // ----- which files are taken

  lemma {:induction false} TensorsCount(b: Text, i: nat, v: Version, n: nat)
    ensures var r := TensorsAt(b, i, v, n);
      r.Some? ==> |r.value.0| == n
  {
    hide TensorAt;
    if n > 0 {
      TensorsCount(b, i, v, n - 1);
    }
  }

  /** Theorem: a file that is taken begins with "GGUF" and a version from 1 to 3, and has as many tensors as it says. */
  lemma {:induction false} TakenFiles(b: Text)
    ensures Parsed(b).Some? ==>
      && |b| >= 12 && Reads(b[..4], "GGUF")
      && (Parsed(b).value.version.V1? <==> Four(b, 4) == 1)
      && (Parsed(b).value.version.V2? <==> Four(b, 4) == 2)
      && (Parsed(b).value.version.V3? <==> Four(b, 4) == 3)
      && (Four(b, 4) == 1 ==> |Parsed(b).value.tensors| == Four(b, 8))
      && (Four(b, 4) != 1 ==> |b| >= 16 && |Parsed(b).value.tensors| == Eight(b, 8))
  {
    hide IntAt, Two, Four, Eight, MetadataAt, TensorsAt, NamedOf, AlignmentOf, AlignedUp;
    IntsByOctets(b, 4);
    IntsByOctets(b, 8);
    MagicIs();
    if Parsed(b).Some? {
      var v := Parsed(b).value.version;
      var nTensors := IntAt(b, 8, LenWidth(v));
      var nKv := IntAt(b, nTensors.value.1, LenWidth(v));
      var metadata := MetadataAt(b, nKv.value.1, v, nKv.value.0);
      TensorsCount(b, metadata.value.1, v, nTensors.value.0);
    }
  }

  predicate IsNumber(v: Value) {
    !v.Bool? && !v.Str? && !v.Array?
  }

  lemma {:induction false} MagicIs()
    ensures Reads(MAGIC, "GGUF") && Reads(ALIGNMENT_KEY, "general.alignment")
  {
  }

  /** Theorem: the alignment is 32 unless "general.alignment" is an integer of at most 32 bits that is not negative. */
  lemma {:induction false} AlignmentIs(metadata: map<Text, Value>, key: Text)
    requires Reads(key, "general.alignment")
    ensures key !in metadata ==> AlignmentOf(metadata) == 32
    ensures key in metadata && IsNumber(metadata[key]) && metadata[key].n >= 0 ==>
      match metadata[key]
      case U8(n) => AlignmentOf(metadata) == n
      case U16(n) => AlignmentOf(metadata) == n
      case U32(n) => AlignmentOf(metadata) == n
      case I8(n) => AlignmentOf(metadata) == n
      case I16(n) => AlignmentOf(metadata) == n
      case I32(n) => AlignmentOf(metadata) == n
      case _ => AlignmentOf(metadata) == 32
    ensures key in metadata && (!IsNumber(metadata[key]) || metadata[key].n < 0) ==> AlignmentOf(metadata) == 32
  {
    MagicIs();
    assert key == ALIGNMENT_KEY;
  }

  // ----- the two tables of tensors

  /** The types the other reader knows. */
  predicate Familiar(typeId: nat) {
    typeId in {0, 1, 2, 3, 6, 7, 8, 9, 10, 11, 12, 13, 14, 15, 30}
  }

  ghost predicate IsLast(ts: seq<Tensor>, name: Text, k: nat) {
    && k < |ts| && ts[k].name == name && Familiar(ts[k].typeId)
    && forall j | k < j < |ts| && Familiar(ts[j].typeId) :: ts[j].name != name
  }

  /** Theorem: the other reader's view has the last tensor of each name among those of types it knows. */
  lemma {:induction false} NamedByLast(ts: seq<Tensor>, name: Text)
    ensures name in NamedOf(ts) <==> exists k: nat :: IsLast(ts, name, k)
    ensures forall k: nat | IsLast(ts, name, k) :: NamedOf(ts)[name] == ts[k]
    decreases |ts|
  {
    if ts != [] {
      var n := |ts| - 1;
      var init := ts[..n];
      NamedByLast(init, name);
      if ts[n].name == name && Familiar(ts[n].typeId) {
        assert IsLast(ts, name, n);
      } else {
        forall k: nat
          ensures IsLast(ts, name, k) <==> IsLast(init, name, k)
        {
        }
      }
    }
  }

  lemma {:induction false} ReversedAt(dims: seq<nat>, j: nat)
    requires j < |dims|
    ensures |Reversed(dims)| == |dims| && Reversed(dims)[j] == dims[|dims| - 1 - j]
    decreases |dims|
  {
    var n := |dims| - 1;
    if j > 0 {
      ReversedAt(dims[..n], j - 1);
    } else if n > 0 {
      ReversedAt(dims[..n], 0);
    } else {
      assert dims[..0] == [];
    }
  }

  lemma {:induction false} TableAt(ts: seq<Shape>, k: nat)
    requires k < |ts|
    ensures |TableOf(ts)| == |ts|
    ensures TableOf(ts)[k] == Tensor(ts[k].name, ts[k].typeId, Reversed(ts[k].dims), OffsetAfter(ts[..k]))
    decreases |ts|
  {
    hide Reversed, OffsetAfter;
    var n := |ts| - 1;
    if k < n {
      TableAt(ts[..n], k);
      assert ts[..n][..k] == ts[..k];
    } else if n > 0 {
      TableAt(ts[..n], n - 1);
    } else {
      assert ts[..0] == [];
    }
  }

  lemma {:induction false} TableBack(kv: seq<(Text, Value)>, ts: seq<Shape>, data: Text)
    requires EntriesFit(kv) && ShapesFit(ts)
    ensures Parsed(GgufBytes(kv, ts, data)).Some? ==> Parsed(GgufBytes(kv, ts, data)).value.tensors == TableOf(ts)
  {
    hide *;
    RoundTrip(kv, ts, data);
  }

  /** Theorem: a written tensor is listed with its dimensions outermost first. */
  lemma {:induction false} DimensionsTurnAround(kv: seq<(Text, Value)>, ts: seq<Shape>, data: Text, k: nat, j: nat)
    requires EntriesFit(kv) && ShapesFit(ts) && k < |ts| && j < |ts[k].dims|
    ensures var h := Parsed(GgufBytes(kv, ts, data));
      h.Some? ==>
        && |h.value.tensors| == |ts|
        && h.value.tensors[k].name == ts[k].name && h.value.tensors[k].typeId == ts[k].typeId
        && |h.value.tensors[k].dims| == |ts[k].dims|
        && h.value.tensors[k].dims[j] == ts[k].dims[|ts[k].dims| - 1 - j]
  {
    hide *;
    TableBack(kv, ts, data);
    TableAt(ts, k);
    ReversedAt(ts[k].dims, j);
  }

  /** The octets of a tensor: four for each F32, blocks of 32 or 256 otherwise. */
  lemma {:induction false} SizesByType(t: Shape)
    ensures t.typeId == 0 ==> SizeOf(t) == 4 * Product(t.dims)
    ensures t.typeId == 12 ==> SizeOf(t) == Product(t.dims) / 256 * 144
    ensures t.typeId == 20 ==> SizeOf(t) == Product(t.dims) / 32 * 18
    ensures t.typeId == 21 ==> SizeOf(t) == Product(t.dims) / 256 * 110
    ensures t.typeId == 23 ==> SizeOf(t) == Product(t.dims) / 256 * 136
    ensures Sized(t.typeId) <==> t.typeId in {0, 12, 20, 21, 23}
  {
    hide Product;
  }

  /** Theorem: every tensor's data starts on a multiple of 32, past the data of the tensor before it and less than 32
      octets behind that. */
  lemma {:induction false} OffsetsFollow(kv: seq<(Text, Value)>, ts: seq<Shape>, data: Text, k: nat)
    requires EntriesFit(kv) && ShapesFit(ts) && k < |ts|
    ensures var h := Parsed(GgufBytes(kv, ts, data));
      h.Some? ==>
        var at := h.value.tensors;
        && |at| == |ts| && at[0].offset == 0 && at[k].offset % 32 == 0
        && (k + 1 < |ts| ==> at[k].offset + SizeOf(ts[k]) <= at[k + 1].offset < at[k].offset + SizeOf(ts[k]) + 32)
  {
    hide Parsed, GgufBytes, EntriesFit, ShapesFit, Reversed, AlignedUp, TableOf, SizeOf;
    TableBack(kv, ts, data);
    TableAt(ts, 0);
    TableAt(ts, k);
    assert ts[..0] == [];
    OffsetsAligned(ts[..k]);
    if k + 1 < |ts| {
      TableAt(ts, k + 1);
      assert ts[..k + 1][..k] == ts[..k];
      AlignedIsLeast(SizeOf(ts[k]), 32);
    }
  }

  lemma {:induction false} OffsetsAligned(ts: seq<Shape>)
    ensures OffsetAfter(ts) % 32 == 0
    decreases |ts|
  {
    hide SizeOf, AlignedUp;
    if ts != [] {
      OffsetsAligned(ts[..|ts| - 1]);
      AlignedIsLeast(SizeOf(ts[|ts| - 1]), 32);
    }
  }
}
