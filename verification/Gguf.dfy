/** The GGUF header: how its octets are read and written (src/common/gguf_header.rs). */
module Gguf {
  import opened Powers
  import opened Utf8
  import opened Wrappers

  const DEFAULT_ALIGNMENT: nat := 32
  const MAX_DIMS: nat := 4
  const MAX_DEPTH: nat := 64

  /** A metadata value; floats are kept as the bits they are stored in. */
  datatype Value =
    | U8(n: int) | I8(n: int) | U16(n: int) | I16(n: int) | U32(n: int) | I32(n: int) | U64(n: int) | I64(n: int)
    | F32(n: int) | F64(n: int) | Bool(b: bool) | Str(s: Text) | Array(items: seq<Value>)

  datatype Version = V1 | V2 | V3

  datatype Tensor = Tensor(name: Text, typeId: nat, dims: seq<nat>, offset: nat)

  /** What a parse gives back; `named` is the view of the other reader, `end` is where the header ends. */
  datatype Header = Header(version: Version, metadata: map<Text, Value>, tensors: seq<Tensor>, named: map<Text, Tensor>,
    dataOffset: nat, end: nat)

  // ----- little-endian integers

  function Power(w: nat): nat {
    if w == 0 then 1 else 256 * Power(w - 1)
  }

  lemma {:induction false} PowersOf256()
    ensures Power(1) == 0x100 && Power(2) == 0x1_0000 && Power(4) == 0x1_0000_0000
    ensures Power(8) == 0x1_0000_0000_0000_0000
  {
    assert Power(4) == 0x1_0000 * Power(2);
    assert Power(6) == 0x1_0000 * Power(4);
    assert Power(8) == 0x1_0000 * Power(6);
  }

  function FromLe(b: Text): (n: nat) {
    if b == [] then 0 else b[0] + 256 * FromLe(b[1..])
  }

  function ToLe(n: nat, w: nat): (b: Text)
    ensures |b| == w
  {
    if w == 0 then [] else [n % 256] + ToLe(n / 256, w - 1)
  }

  lemma {:induction false} LeRoundTrip(n: nat, w: nat)
    requires n < Power(w)
    ensures FromLe(ToLe(n, w)) == n
  {
    if w > 0 {
      LeRoundTrip(n / 256, w - 1);
      assert ToLe(n, w)[1..] == ToLe(n / 256, w - 1);
    }
  }

  /** Two's complement of `w` octets. */
  function Signed(n: nat, w: nat): int {
    if 2 * n < Power(w) then n else n - Power(w)
  }

  function Unsigned(n: int, w: nat): (u: nat) {
    if n >= 0 then n else if n + Power(w) >= 0 then n + Power(w) else 0
  }

  // ----- reading

  /** What is read and where the next read starts. */
  type Read<T> = Option<(T, nat)>

  function TakeAt(b: Text, i: nat, n: nat): (r: Read<Text>)
    ensures r.Some? ==> r.value.1 == i + n <= |b| && |r.value.0| == n
  {
    if i + n <= |b| then Some((b[i..i + n], i + n)) else None
  }

  function IntAt(b: Text, i: nat, w: nat): (r: Read<nat>)
    ensures r.Some? ==> r.value.1 == i + w <= |b|
  {
    var t := TakeAt(b, i, w);
    if t.None? then None else Some((FromLe(t.value.0), t.value.1))
  }

  /** The width of a count or length. */
  function LenWidth(v: Version): nat {
    if v.V1? then 4 else 8
  }

  function StringAt(b: Text, i: nat, v: Version): (r: Read<Text>)
    ensures r.Some? ==> i <= r.value.1 <= |b|
  {
    var n := IntAt(b, i, LenWidth(v));
    if n.None? then None else
      var t := TakeAt(b, n.value.1, n.value.0);
      if t.None? then None else Some((Lossy(t.value.0), t.value.1))
  }

  /** How wide a number of this tag is; zero for what is no number. */
  function WidthOf(tag: nat): nat {
    if tag == 0 || tag == 1 || tag == 7 then 1
    else if tag == 2 || tag == 3 then 2
    else if tag == 4 || tag == 5 || tag == 6 then 4
    else if tag == 10 || tag == 11 || tag == 12 then 8
    else 0
  }

  function Number(tag: nat, n: nat): Value {
    match tag
    case 0 => U8(n)
    case 1 => I8(Signed(n, 1))
    case 2 => U16(n)
    case 3 => I16(Signed(n, 2))
    case 4 => U32(n)
    case 5 => I32(Signed(n, 4))
    case 6 => F32(n)
    case 7 => Bool(n != 0)
    case 10 => U64(n)
    case 11 => I64(Signed(n, 8))
    case _ => F64(n)
  }

  function NumberAt(b: Text, i: nat, tag: nat): (r: Read<Value>)
    ensures r.Some? ==> i <= r.value.1 <= |b|
  {
    var n := IntAt(b, i, WidthOf(tag));
    if n.None? then None else Some((Number(tag, n.value.0), n.value.1))
  }

  function ValueAt(b: Text, i: nat, v: Version, tag: nat, depth: nat): (r: Read<Value>)
    requires depth <= MAX_DEPTH
    ensures r.Some? ==> i <= r.value.1 <= |b|
    decreases MAX_DEPTH - depth, 2, 0
  {
    if WidthOf(tag) > 0 then NumberAt(b, i, tag)
    else if tag == 8 then
      var s := StringAt(b, i, v);
      if s.None? then None else Some((Str(s.value.0), s.value.1))
    else if tag == 9 && depth < MAX_DEPTH then ArrayAt(b, i, v, depth)
    else None
  }

  function ArrayAt(b: Text, i: nat, v: Version, depth: nat): (r: Read<Value>)
    requires depth < MAX_DEPTH
    ensures r.Some? ==> i <= r.value.1 <= |b|
    decreases MAX_DEPTH - depth, 1, 0
  {
    var elem := IntAt(b, i, 4);
    if elem.None? then None else
      var n := IntAt(b, elem.value.1, LenWidth(v));
      if n.None? then None else
        var items := ItemsAt(b, n.value.1, v, elem.value.0, depth + 1, n.value.0);
        if items.None? then None else Some((Array(items.value.0), items.value.1))
  }

  /** `n` values of one tag. */
  function ItemsAt(b: Text, i: nat, v: Version, tag: nat, depth: nat, n: nat): (r: Read<seq<Value>>)
    requires depth <= MAX_DEPTH
    ensures r.Some? ==> i <= r.value.1 <= |b|
    decreases MAX_DEPTH - depth, 3, n
  {
    if n == 0 then (if i <= |b| then Some(([], i)) else None) else
      var init := ItemsAt(b, i, v, tag, depth, n - 1);
      if init.None? then None else
        var last := ValueAt(b, init.value.1, v, tag, depth);
        if last.None? then None else Some((init.value.0 + [last.value.0], last.value.1))
  }

  /** One metadata entry. */
  function EntryAt(b: Text, i: nat, v: Version): (r: Read<(Text, Value)>)
    ensures r.Some? ==> i <= r.value.1 <= |b|
  {
    var key := StringAt(b, i, v);
    if key.None? then None else
      var tag := IntAt(b, key.value.1, 4);
      if tag.None? then None else
        var value := ValueAt(b, tag.value.1, v, tag.value.0, 0);
        if value.None? then None else Some(((key.value.0, value.value.0), value.value.1))
  }

  function MetadataAt(b: Text, i: nat, v: Version, n: nat): (r: Read<map<Text, Value>>)
    ensures r.Some? ==> i <= r.value.1 <= |b|
  {
    if n == 0 then (if i <= |b| then Some((map[], i)) else None) else
      var init := MetadataAt(b, i, v, n - 1);
      if init.None? then None else
        var e := EntryAt(b, init.value.1, v);
        if e.None? then None else Some((init.value.0[e.value.0.0 := e.value.0.1], e.value.1))
  }

  function DimsAt(b: Text, i: nat, v: Version, n: nat): (r: Read<seq<nat>>)
    ensures r.Some? ==> i <= r.value.1 <= |b|
  {
    if n == 0 then (if i <= |b| then Some(([], i)) else None) else
      var init := DimsAt(b, i, v, n - 1);
      if init.None? then None else
        var d := IntAt(b, init.value.1, LenWidth(v));
        if d.None? then None else Some((init.value.0 + [d.value.0], d.value.1))
  }

  function Reversed(dims: seq<nat>): (r: seq<nat>) {
    if dims == [] then [] else [dims[|dims| - 1]] + Reversed(dims[..|dims| - 1])
  }

  function TensorAt(b: Text, i: nat, v: Version): (r: Read<Tensor>)
    ensures r.Some? ==> i <= r.value.1 <= |b|
  {
    var name := StringAt(b, i, v);
    if name.None? then None else
      var n := IntAt(b, name.value.1, 4);
      if n.None? || n.value.0 > MAX_DIMS then None else
        var dims := DimsAt(b, n.value.1, v, n.value.0);
        if dims.None? then None else
          var ty := IntAt(b, dims.value.1, 4);
          if ty.None? then None else
            var offset := IntAt(b, ty.value.1, 8);
            if offset.None? then None
            else Some((Tensor(name.value.0, ty.value.0, Reversed(dims.value.0), offset.value.0), offset.value.1))
  }

  function TensorsAt(b: Text, i: nat, v: Version, n: nat): (r: Read<seq<Tensor>>)
    ensures r.Some? ==> i <= r.value.1 <= |b|
  {
    if n == 0 then (if i <= |b| then Some(([], i)) else None) else
      var init := TensorsAt(b, i, v, n - 1);
      if init.None? then None else
        var t := TensorAt(b, init.value.1, v);
        if t.None? then None else Some((init.value.0 + [t.value.0], t.value.1))
  }

  /** The type ids the other reader has a name for. */
  predicate Named(typeId: nat) {
    typeId <= 3 || 6 <= typeId <= 15 || typeId == 30
  }

  function NamedOf(ts: seq<Tensor>): map<Text, Tensor> {
    if ts == [] then map[] else
      var t := ts[|ts| - 1];
      var init := NamedOf(ts[..|ts| - 1]);
      if Named(t.typeId) then init[t.name := t] else init
  }

  /** "general.alignment". */
  const ALIGNMENT_KEY: Text :=
    [0x67, 0x65, 0x6E, 0x65, 0x72, 0x61, 0x6C, 0x2E, 0x61, 0x6C, 0x69, 0x67, 0x6E, 0x6D, 0x65, 0x6E, 0x74]

  function AlignmentOf(metadata: map<Text, Value>): (a: nat) {
    if ALIGNMENT_KEY !in metadata then DEFAULT_ALIGNMENT else
      var v := metadata[ALIGNMENT_KEY];
      if (v.U8? || v.U16? || v.U32? || v.I8? || v.I16? || v.I32?) && v.n >= 0 then v.n else DEFAULT_ALIGNMENT
  }

  function AlignedUp(n: nat, a: nat): nat
    requires a > 0
  {
    (n + a - 1) / a * a
  }

  /** "GGUF". */
  const MAGIC: Text := [0x47, 0x47, 0x55, 0x46]

  function VersionOf(n: nat): Option<Version> {
    if n == 1 then Some(V1) else if n == 2 then Some(V2) else if n == 3 then Some(V3) else None
  }

  function Parsed(b: Text): (h: Option<Header>)
    ensures h.Some? ==> h.value.end <= |b|
  {
    var magic := TakeAt(b, 0, 4);
    if magic.None? || magic.value.0 != MAGIC then None else
      var version := IntAt(b, 4, 4);
      if version.None? || VersionOf(version.value.0).None? then None else
        var v := VersionOf(version.value.0).value;
        var nTensors := IntAt(b, 8, LenWidth(v));
        if nTensors.None? then None else
          var nKv := IntAt(b, nTensors.value.1, LenWidth(v));
          if nKv.None? then None else TablesAt(b, nKv.value.1, v, nTensors.value.0, nKv.value.0)
  }

  function TablesAt(b: Text, i: nat, v: Version, nTensors: nat, nKv: nat): (h: Option<Header>)
    ensures h.Some? ==> i <= h.value.end <= |b|
  {
    var metadata := MetadataAt(b, i, v, nKv);
    if metadata.None? then None else
      var tensors := TensorsAt(b, metadata.value.1, v, nTensors);
      if tensors.None? then None else Assembled(v, metadata.value.0, tensors.value.0, tensors.value.1)
  }

  function Assembled(v: Version, metadata: map<Text, Value>, tensors: seq<Tensor>, end: nat): (h: Option<Header>)
    ensures h.Some? ==> h.value.end == end
  {
    var a := AlignmentOf(metadata);
    if a == 0 then None else Some(Header(v, metadata, tensors, NamedOf(tensors), AlignedUp(end, a), end))
  }

  // ----- a longer or shorter file

  /** Reading from a file and from a longer one: what the shorter one holds is read alike from both, and the shorter one
      fails exactly when it ends too early. */
  ghost predicate Stable<T>(b: Text, short: Read<T>, long: Read<T>) {
    && (short.Some? ==> long == short)
    && (long.Some? && long.value.1 <= |b| ==> short == long)
  }

  lemma {:induction false} TakeStable(b: Text, c: Text, i: nat, n: nat)
    requires b <= c
    ensures Stable(b, TakeAt(b, i, n), TakeAt(c, i, n))
  {
    if i + n <= |b| {
      assert b[i..i + n] == c[i..i + n];
    }
  }

  lemma {:induction false} IntStable(b: Text, c: Text, i: nat, w: nat)
    requires b <= c
    ensures Stable(b, IntAt(b, i, w), IntAt(c, i, w))
  {
    TakeStable(b, c, i, w);
  }

  lemma {:induction false} StringStable(b: Text, c: Text, i: nat, v: Version)
    requires b <= c
    ensures Stable(b, StringAt(b, i, v), StringAt(c, i, v))
  {
    hide TakeAt, Lossy, IntAt;
    IntStable(b, c, i, LenWidth(v));
    var n := IntAt(c, i, LenWidth(v));
    if n.Some? {
      TakeStable(b, c, n.value.1, n.value.0);
    }
  }

  lemma {:induction false} ValueStable(b: Text, c: Text, i: nat, v: Version, tag: nat, depth: nat)
    requires b <= c && depth <= MAX_DEPTH
    ensures Stable(b, ValueAt(b, i, v, tag, depth), ValueAt(c, i, v, tag, depth))
    decreases MAX_DEPTH - depth, 2, 0
  {
    hide IntAt, StringAt, Number, ArrayAt;
    IntStable(b, c, i, WidthOf(tag));
    StringStable(b, c, i, v);
    if depth < MAX_DEPTH {
      ArrayStable(b, c, i, v, depth);
    }
  }

  lemma {:induction false} ArrayStable(b: Text, c: Text, i: nat, v: Version, depth: nat)
    requires b <= c && depth < MAX_DEPTH
    ensures Stable(b, ArrayAt(b, i, v, depth), ArrayAt(c, i, v, depth))
    decreases MAX_DEPTH - depth, 1, 0
  {
    hide IntAt, ItemsAt;
    IntStable(b, c, i, 4);
    var elem := IntAt(c, i, 4);
    if elem.Some? {
      IntStable(b, c, elem.value.1, LenWidth(v));
      var n := IntAt(c, elem.value.1, LenWidth(v));
      if n.Some? {
        ItemsStable(b, c, n.value.1, v, elem.value.0, depth + 1, n.value.0);
      }
    }
  }

  lemma {:induction false} ItemsStable(b: Text, c: Text, i: nat, v: Version, tag: nat, depth: nat, n: nat)
    requires b <= c && depth <= MAX_DEPTH
    ensures Stable(b, ItemsAt(b, i, v, tag, depth, n), ItemsAt(c, i, v, tag, depth, n))
    decreases MAX_DEPTH - depth, 3, n
  {
    hide ValueAt;
    if n > 0 {
      ItemsStable(b, c, i, v, tag, depth, n - 1);
      var init := ItemsAt(c, i, v, tag, depth, n - 1);
      if init.Some? {
        ValueStable(b, c, init.value.1, v, tag, depth);
      }
    }
  }

  lemma {:induction false} EntryStable(b: Text, c: Text, i: nat, v: Version)
    requires b <= c
    ensures Stable(b, EntryAt(b, i, v), EntryAt(c, i, v))
  {
    hide StringAt, IntAt, ValueAt;
    StringStable(b, c, i, v);
    var key := StringAt(c, i, v);
    if key.Some? {
      IntStable(b, c, key.value.1, 4);
      var tag := IntAt(c, key.value.1, 4);
      if tag.Some? {
        ValueStable(b, c, tag.value.1, v, tag.value.0, 0);
      }
    }
  }

  lemma {:induction false} MetadataStable(b: Text, c: Text, i: nat, v: Version, n: nat)
    requires b <= c
    ensures Stable(b, MetadataAt(b, i, v, n), MetadataAt(c, i, v, n))
  {
    hide EntryAt;
    if n > 0 {
      MetadataStable(b, c, i, v, n - 1);
      var init := MetadataAt(c, i, v, n - 1);
      if init.Some? {
        EntryStable(b, c, init.value.1, v);
      }
    }
  }

  lemma {:induction false} DimsStable(b: Text, c: Text, i: nat, v: Version, n: nat)
    requires b <= c
    ensures Stable(b, DimsAt(b, i, v, n), DimsAt(c, i, v, n))
  {
    hide IntAt;
    if n > 0 {
      DimsStable(b, c, i, v, n - 1);
      var init := DimsAt(c, i, v, n - 1);
      if init.Some? {
        IntStable(b, c, init.value.1, LenWidth(v));
      }
    }
  }

  lemma {:induction false} TensorStable(b: Text, c: Text, i: nat, v: Version)
    requires b <= c
    ensures Stable(b, TensorAt(b, i, v), TensorAt(c, i, v))
  {
    hide StringAt, IntAt, DimsAt, Reversed;
    StringStable(b, c, i, v);
    var name := StringAt(c, i, v);
    if name.Some? {
      IntStable(b, c, name.value.1, 4);
      var n := IntAt(c, name.value.1, 4);
      if n.Some? {
        DimsStable(b, c, n.value.1, v, n.value.0);
        var dims := DimsAt(c, n.value.1, v, n.value.0);
        if dims.Some? {
          IntStable(b, c, dims.value.1, 4);
          IntStable(b, c, dims.value.1 + 4, 8);
        }
      }
    }
  }

  lemma {:induction false} TensorsStable(b: Text, c: Text, i: nat, v: Version, n: nat)
    requires b <= c
    ensures Stable(b, TensorsAt(b, i, v, n), TensorsAt(c, i, v, n))
  {
    hide TensorAt;
    if n > 0 {
      TensorsStable(b, c, i, v, n - 1);
      var init := TensorsAt(c, i, v, n - 1);
      if init.Some? {
        TensorStable(b, c, init.value.1, v);
      }
    }
  }

  lemma {:induction false} TablesStable(b: Text, c: Text, i: nat, v: Version, nTensors: nat, nKv: nat)
    requires b <= c
    ensures var short, long := TablesAt(b, i, v, nTensors, nKv), TablesAt(c, i, v, nTensors, nKv);
      && (short.Some? ==> long == short)
      && (long.Some? && long.value.end <= |b| ==> short == long)
  {
    hide MetadataAt, TensorsAt, Assembled;
    MetadataStable(b, c, i, v, nKv);
    var metadata := MetadataAt(c, i, v, nKv);
    if metadata.Some? {
      TensorsStable(b, c, metadata.value.1, v, nTensors);
    }
  }

  lemma {:induction false} ParseStable(b: Text, c: Text)
    requires b <= c
    ensures Parsed(b).Some? ==> Parsed(c) == Parsed(b)
    ensures Parsed(c).Some? && Parsed(c).value.end <= |b| ==> Parsed(b) == Parsed(c)
  {
    hide TakeAt, IntAt, TablesAt;
    TakeStable(b, c, 0, 4);
    IntStable(b, c, 4, 4);
    var version := IntAt(c, 4, 4);
    if version.Some? && VersionOf(version.value.0).Some? {
      var v := VersionOf(version.value.0).value;
      IntStable(b, c, 8, LenWidth(v));
      var nTensors := IntAt(c, 8, LenWidth(v));
      if nTensors.Some? {
        IntStable(b, c, nTensors.value.1, LenWidth(v));
        var nKv := IntAt(c, nTensors.value.1, LenWidth(v));
        if nKv.Some? {
          TablesStable(b, c, nKv.value.1, v, nTensors.value.0, nKv.value.0);
        }
      }
    }
  }

  /** Theorem: appended data changes nothing a parse gives back. */
  lemma {:induction false} AppendedDataIsIgnored(b: Text, data: Text)
    requires Parsed(b).Some?
    ensures Parsed(b + data) == Parsed(b)
  {
    ParseStable(b, b + data);
  }

  /** Theorem: of the prefixes of a file, those that hold the header parse to it and all shorter ones fail. */
  lemma {:induction false} ShorterCutsFail(b: Text, n: nat)
    requires Parsed(b).Some? && n <= |b|
    ensures Parsed(b[..n]) == if n >= Parsed(b).value.end then Parsed(b) else None
  {
    ParseStable(b[..n], b);
  }

  /** Theorem: the data starts at the least aligned position that is not inside the header. */
  lemma {:induction false} DataIsAligned(b: Text)
    requires Parsed(b).Some?
    ensures var h := Parsed(b).value;
      var a := AlignmentOf(h.metadata);
      && a > 0 && h.dataOffset % a == 0 && h.end <= h.dataOffset
      && forall k: nat | k % a == 0 && h.end <= k :: h.dataOffset <= k
  {
    hide MetadataAt, TensorsAt, NamedOf, AlignmentOf, IntAt;
    var h := Parsed(b).value;
    var a := AlignmentOf(h.metadata);
    AlignedIsLeast(h.end, a);
    forall k: nat | k % a == 0 && h.end <= k
      ensures h.dataOffset <= k
    {
      NoMultipleBetween(h.dataOffset, k, a);
    }
  }

  lemma {:induction false} AlignedIsLeast(n: nat, a: nat)
    requires a > 0
    ensures AlignedUp(n, a) % a == 0 && n <= AlignedUp(n, a) < n + a
  {
    var q, r := (n + a - 1) / a, (n + a - 1) % a;
    assert n + a - 1 == q * a + r;
    DivMul(q, a);
    Remainder(q * a, a);
  }

  lemma {:induction false} Remainder(x: nat, a: nat)
    requires a > 0
    ensures x == x / a * a + x % a
  {
  }

  lemma {:induction false} NoMultipleBetween(m: nat, k: nat, a: nat)
    requires a > 0 && m % a == 0 && k % a == 0 && m < k + a
    ensures m <= k
  {
    Remainder(m, a);
    Remainder(k, a);
    assert (m / a - k / a) * a < a;
    AtMostZero(m / a - k / a, a);
    Ordered(m / a, k / a, a);
  }

  lemma {:induction false} Ordered(p: nat, q: nat, a: nat)
    requires p <= q
    ensures p * a <= q * a
  {
  }

  // ----- writing

  /** A Rust string: whole characters only. */
  predicate Encoded(s: Text) {
    s == [] || (Head(s) > 0 && Encoded(s[Head(s)..]))
  }

  lemma {:induction false} EncodedIsKept(s: Text)
    requires Encoded(s)
    ensures Lossy(s) == s
    decreases |s|
  {
    if s != [] {
      EncodedIsKept(s[Head(s)..]);
      assert s == s[..Head(s)] + s[Head(s)..];
    }
  }

  function Tag(v: Value): (t: nat)
    ensures t < 13
  {
    match v
    case U8(_) => 0
    case I8(_) => 1
    case U16(_) => 2
    case I16(_) => 3
    case U32(_) => 4
    case I32(_) => 5
    case F32(_) => 6
    case Bool(_) => 7
    case Str(_) => 8
    case Array(_) => 9
    case U64(_) => 10
    case I64(_) => 11
    case F64(_) => 12
  }

  predicate Writable(s: Text) {
    Encoded(s) && |s| < Power(8)
  }

  /** The values the writer can be given that the reader takes back: integers of their width, text, and arrays of one
      tag, nested no deeper than the reader follows. */
  predicate Fits(v: Value, depth: nat) {
    if v.Bool? then true
    else if v.Str? then Writable(v.s)
    else if v.Array? then
      && depth < MAX_DEPTH && |v.items| < Power(8)
      && forall k | 0 <= k < |v.items| :: Tag(v.items[k]) == Tag(v.items[0]) && Fits(v.items[k], depth + 1)
    else
      var w := Power(WidthOf(Tag(v)));
      if v.I8? || v.I16? || v.I32? || v.I64? then 0 <= 2 * v.n + w < 2 * w else 0 <= v.n < w
  }

  function PutStr(s: Text): Text {
    ToLe(|s|, 8) + s
  }

  function PutValue(v: Value): Text
    decreases v, 1, 0
  {
    match v
    case Bool(b) => [if b then 1 else 0]
    case Str(s) => PutStr(s)
    case Array(items) => ToLe(if items == [] then 4 else Tag(items[0]), 4) + ToLe(|items|, 8) + PutItems(v, |items|)
    case _ => ToLe(Unsigned(v.n, WidthOf(Tag(v))), WidthOf(Tag(v)))
  }

  /** The first `n` items of an array. */
  function PutItems(v: Value, n: nat): Text
    requires v.Array? && n <= |v.items|
    decreases v, 0, n
  {
    if n == 0 then [] else PutItems(v, n - 1) + PutValue(v.items[n - 1])
  }

  function PutMetadata(kv: seq<(Text, Value)>): Text {
    if kv == [] then [] else
      var e := kv[|kv| - 1];
      PutMetadata(kv[..|kv| - 1]) + (PutStr(e.0) + ToLe(Tag(e.1), 4) + PutValue(e.1))
  }

  /** A tensor as the writer is given it: dimensions in file order. */
  datatype Shape = Shape(name: Text, dims: seq<nat>, typeId: nat)

  function Product(dims: seq<nat>): nat {
    if dims == [] then 1 else Product(dims[..|dims| - 1]) * dims[|dims| - 1]
  }

  /** The types the writer knows a size for. */
  predicate Sized(typeId: nat) {
    typeId == 0 || typeId == 12 || typeId == 20 || typeId == 21 || typeId == 23
  }

  function SizeOf(t: Shape): nat {
    var elems := Product(t.dims);
    if t.typeId == 0 then elems * 4
    else if t.typeId == 12 then elems / 256 * 144
    else if t.typeId == 23 then elems / 256 * 136
    else if t.typeId == 20 then elems / 32 * 18
    else elems / 256 * 110
  }

  /** Where the tensor after `ts` starts. */
  function OffsetAfter(ts: seq<Shape>): nat {
    if ts == [] then 0 else OffsetAfter(ts[..|ts| - 1]) + AlignedUp(SizeOf(ts[|ts| - 1]), 32)
  }

  function PutDims(dims: seq<nat>): Text {
    if dims == [] then [] else PutDims(dims[..|dims| - 1]) + ToLe(dims[|dims| - 1], 8)
  }

  function PutTensor(t: Shape, offset: nat): Text {
    PutStr(t.name) + ToLe(|t.dims|, 4) + PutDims(t.dims) + ToLe(t.typeId, 4) + ToLe(offset, 8)
  }

  function PutTensors(ts: seq<Shape>): Text {
    if ts == [] then [] else
      var front := ts[..|ts| - 1];
      PutTensors(front) + PutTensor(ts[|ts| - 1], OffsetAfter(front))
  }

  function PutHeader(kv: seq<(Text, Value)>, ts: seq<Shape>): Text {
    MAGIC + ToLe(3, 4) + ToLe(|ts|, 8) + ToLe(|kv|, 8) + PutMetadata(kv) + PutTensors(ts)
  }

  function Zeros(n: nat): Text {
    seq(n, _ => 0)
  }

  /** The whole file: the header, padding to a multiple of 32, the data. */
  function GgufBytes(kv: seq<(Text, Value)>, ts: seq<Shape>, data: Text): Text {
    var header := PutHeader(kv, ts);
    AlignedIsLeast(|header|, 32);
    header + Zeros(AlignedUp(|header|, 32) - |header|) + data
  }

  // ----- what is written is read back

  /** `piece` stands in `b` from `i` on. */
  predicate At(b: Text, i: nat, piece: Text) {
    i + |piece| <= |b| && b[i..i + |piece|] == piece
  }

  lemma {:induction false} AtParts(b: Text, i: nat, x: Text, y: Text)
    requires At(b, i, x + y)
    ensures At(b, i, x) && At(b, i + |x|, y)
  {
    var z := b[i..i + |x + y|];
    assert b[i..i + |x|] == z[..|x|] && b[i + |x|..i + |x| + |y|] == z[|x|..];
  }

  lemma {:induction false} IntBack(b: Text, i: nat, n: nat, w: nat)
    requires At(b, i, ToLe(n, w)) && n < Power(w)
    ensures IntAt(b, i, w) == Some((n, i + w))
  {
    LeRoundTrip(n, w);
  }

  lemma {:induction false} StringBack(b: Text, i: nat, s: Text)
    requires At(b, i, PutStr(s)) && Writable(s)
    ensures StringAt(b, i, V3) == Some((s, i + |PutStr(s)|))
  {
    AtParts(b, i, ToLe(|s|, 8), s);
    IntBack(b, i, |s|, 8);
    EncodedIsKept(s);
  }

  /** Every number survives being written and read. */
  lemma {:induction false} NumberBack(b: Text, i: nat, v: Value, depth: nat)
    requires At(b, i, PutValue(v)) && Fits(v, depth) && WidthOf(Tag(v)) > 0
    ensures NumberAt(b, i, Tag(v)) == Some((v, i + |PutValue(v)|))
  {
    PowersOf256();
    var w := WidthOf(Tag(v));
    if v.Bool? {
      var n := if v.b then 1 else 0;
      assert ToLe(n, 1) == [n] + ToLe(n / 256, 0);
      IntBack(b, i, n, 1);
    } else {
      SignedBack(v.n, w);
      IntBack(b, i, Unsigned(v.n, w), w);
    }
  }

  lemma {:induction false} SignedBack(n: int, w: nat)
    requires 0 <= 2 * n + Power(w) < 2 * Power(w) || 0 <= n < Power(w)
    ensures Unsigned(n, w) < Power(w)
    ensures 0 <= 2 * n + Power(w) < 2 * Power(w) ==> Signed(Unsigned(n, w), w) == n
  {
  }

  lemma {:induction false} ValueBack(b: Text, i: nat, v: Value, depth: nat)
    requires At(b, i, PutValue(v)) && depth <= MAX_DEPTH && Fits(v, depth)
    ensures ValueAt(b, i, V3, Tag(v), depth) == Some((v, i + |PutValue(v)|))
    decreases v, 1, 0
  {
    hide At, IntAt, NumberAt, StringAt, ArrayAt;
    if WidthOf(Tag(v)) > 0 {
      NumberBack(b, i, v, depth);
    } else if v.Str? {
      StringBack(b, i, v.s);
    } else {
      ArrayBack(b, i, v, depth);
    }
  }

  lemma {:induction false} ArrayBack(b: Text, i: nat, v: Value, depth: nat)
    requires v.Array? && At(b, i, PutValue(v)) && depth < MAX_DEPTH && Fits(v, depth)
    ensures ArrayAt(b, i, V3, depth) == Some((v, i + |PutValue(v)|))
    decreases v, 0, |v.items| + 1
  {
    hide At, IntAt, ItemsAt, PutItems;
    var tag := if v.items == [] then 4 else Tag(v.items[0]);
    var head := ToLe(tag, 4) + ToLe(|v.items|, 8);
    AtParts(b, i, head, PutItems(v, |v.items|));
    AtParts(b, i, ToLe(tag, 4), ToLe(|v.items|, 8));
    PowersOf256();
    IntBack(b, i, tag, 4);
    IntBack(b, i + 4, |v.items|, 8);
    ItemsBack(b, i + 12, v, tag, depth, |v.items|);
    assert v.items[..|v.items|] == v.items;
  }

  lemma {:induction false} ItemsBack(b: Text, i: nat, v: Value, tag: nat, depth: nat, n: nat)
    requires v.Array? && n <= |v.items| && depth < MAX_DEPTH && Fits(v, depth)
    requires At(b, i, PutItems(v, n)) && forall k | 0 <= k < n :: Tag(v.items[k]) == tag
    ensures ItemsAt(b, i, V3, tag, depth + 1, n) == Some((v.items[..n], i + |PutItems(v, n)|))
    decreases v, 0, n
  {
    hide ValueAt, PutValue;
    if n > 0 {
      AtParts(b, i, PutItems(v, n - 1), PutValue(v.items[n - 1]));
      ItemsBack(b, i, v, tag, depth, n - 1);
      ValueBack(b, i + |PutItems(v, n - 1)|, v.items[n - 1], depth + 1);
      assert v.items[..n] == v.items[..n - 1] + [v.items[n - 1]];
    }
  }

  /** What a list of entries says: the last one of a name counts. */
  function MapOf(kv: seq<(Text, Value)>): map<Text, Value> {
    if kv == [] then map[] else MapOf(kv[..|kv| - 1])[kv[|kv| - 1].0 := kv[|kv| - 1].1]
  }

  predicate EntriesFit(kv: seq<(Text, Value)>) {
    |kv| < Power(8) && forall k | 0 <= k < |kv| :: Writable(kv[k].0) && Fits(kv[k].1, 0)
  }

  lemma {:induction false} EntryBack(b: Text, i: nat, key: Text, v: Value)
    requires At(b, i, PutStr(key) + ToLe(Tag(v), 4) + PutValue(v)) && Writable(key) && Fits(v, 0)
    ensures EntryAt(b, i, V3) == Some(((key, v), i + |PutStr(key) + ToLe(Tag(v), 4) + PutValue(v)|))
  {
    hide At, StringAt, IntAt, ValueAt, PutStr, PutValue, ToLe, Writable, Fits;
    AtParts(b, i, PutStr(key) + ToLe(Tag(v), 4), PutValue(v));
    AtParts(b, i, PutStr(key), ToLe(Tag(v), 4));
    StringBack(b, i, key);
    PowersOf256();
    IntBack(b, i + |PutStr(key)|, Tag(v), 4);
    ValueBack(b, i + |PutStr(key)| + 4, v, 0);
  }

  lemma {:induction false} MetadataBack(b: Text, i: nat, kv: seq<(Text, Value)>)
    requires At(b, i, PutMetadata(kv)) && EntriesFit(kv)
    ensures MetadataAt(b, i, V3, |kv|) == Some((MapOf(kv), i + |PutMetadata(kv)|))
  {
    hide EntryAt, PutStr, PutValue, ToLe, Writable, Fits;
    if kv != [] {
      var front, e := kv[..|kv| - 1], kv[|kv| - 1];
      AtParts(b, i, PutMetadata(front), PutStr(e.0) + ToLe(Tag(e.1), 4) + PutValue(e.1));
      MetadataBack(b, i, front);
      EntryBack(b, i + |PutMetadata(front)|, e.0, e.1);
    }
  }

  lemma {:induction false} DimsBack(b: Text, i: nat, dims: seq<nat>)
    requires At(b, i, PutDims(dims)) && forall k | 0 <= k < |dims| :: dims[k] < Power(8)
    ensures DimsAt(b, i, V3, |dims|) == Some((dims, i + |PutDims(dims)|))
  {
    hide IntAt, ToLe, Power;
    if dims != [] {
      var n := |dims| - 1;
      AtParts(b, i, PutDims(dims[..n]), ToLe(dims[n], 8));
      DimsBack(b, i, dims[..n]);
      IntBack(b, i + |PutDims(dims[..n])|, dims[n], 8);
      assert dims == dims[..n] + [dims[n]];
    }
  }

  predicate ShapeFits(t: Shape, offset: nat) {
    && Writable(t.name) && |t.dims| <= MAX_DIMS && Sized(t.typeId) && offset < Power(8)
    && forall k | 0 <= k < |t.dims| :: t.dims[k] < Power(8)
  }

  predicate ShapesFit(ts: seq<Shape>) {
    |ts| < Power(8) && forall k | 0 <= k < |ts| :: ShapeFits(ts[k], OffsetAfter(ts[..k]))
  }

  /** The table a reader should find: dimensions outermost first, offsets one after the other. */
  function TableOf(ts: seq<Shape>): seq<Tensor> {
    if ts == [] then [] else
      var front, t := ts[..|ts| - 1], ts[|ts| - 1];
      TableOf(front) + [Tensor(t.name, t.typeId, Reversed(t.dims), OffsetAfter(front))]
  }

  lemma {:induction false} TensorBack(b: Text, i: nat, t: Shape, offset: nat)
    requires At(b, i, PutTensor(t, offset)) && ShapeFits(t, offset)
    ensures TensorAt(b, i, V3) == Some((Tensor(t.name, t.typeId, Reversed(t.dims), offset), i + |PutTensor(t, offset)|))
  {
    hide At, StringAt, IntAt, DimsAt, PutStr, PutDims, ToLe, Writable, Power, Reversed;
    var x0 := PutStr(t.name);
    var x1 := x0 + ToLe(|t.dims|, 4);
    var x2 := x1 + PutDims(t.dims);
    AtParts(b, i, x2 + ToLe(t.typeId, 4), ToLe(offset, 8));
    AtParts(b, i, x2, ToLe(t.typeId, 4));
    AtParts(b, i, x1, PutDims(t.dims));
    AtParts(b, i, x0, ToLe(|t.dims|, 4));
    PowersOf256();
    StringBack(b, i, t.name);
    IntBack(b, i + |x0|, |t.dims|, 4);
    DimsBack(b, i + |x1|, t.dims);
    IntBack(b, i + |x2|, t.typeId, 4);
    IntBack(b, i + |x2| + 4, offset, 8);
  }

  lemma {:induction false} TensorsBack(b: Text, i: nat, ts: seq<Shape>)
    requires At(b, i, PutTensors(ts)) && ShapesFit(ts)
    ensures TensorsAt(b, i, V3, |ts|) == Some((TableOf(ts), i + |PutTensors(ts)|))
  {
    hide TensorAt, PutTensor, ShapeFits, Power, OffsetAfter, Reversed;
    if ts != [] {
      var n := |ts| - 1;
      AtParts(b, i, PutTensors(ts[..n]), PutTensor(ts[n], OffsetAfter(ts[..n])));
      forall k | 0 <= k < n
        ensures ts[..n][..k] == ts[..k]
      {
      }
      TensorsBack(b, i, ts[..n]);
      TensorBack(b, i + |PutTensors(ts[..n])|, ts[n], OffsetAfter(ts[..n]));
    }
  }

  lemma {:induction false} HeaderBack(b: Text, kv: seq<(Text, Value)>, ts: seq<Shape>)
    requires At(b, 0, PutHeader(kv, ts)) && EntriesFit(kv) && ShapesFit(ts)
    ensures Parsed(b) == Assembled(V3, MapOf(kv), TableOf(ts), |PutHeader(kv, ts)|)
  {
    hide At, TakeAt, IntAt, MetadataAt, TensorsAt, PutMetadata, PutTensors, ToLe, Power, Assembled, EntriesFit,
      ShapesFit;
    var x1 := MAGIC + ToLe(3, 4);
    var x2 := x1 + ToLe(|ts|, 8);
    var x3 := x2 + ToLe(|kv|, 8);
    AtParts(b, 0, x3 + PutMetadata(kv), PutTensors(ts));
    AtParts(b, 0, x3, PutMetadata(kv));
    AtParts(b, 0, x2, ToLe(|kv|, 8));
    AtParts(b, 0, x1, ToLe(|ts|, 8));
    AtParts(b, 0, MAGIC, ToLe(3, 4));
    MagicBack(b);
    PowersOf256();
    CountsFit(kv, ts);
    IntBack(b, 4, 3, 4);
    IntBack(b, 8, |ts|, 8);
    IntBack(b, 16, |kv|, 8);
    MetadataBack(b, 24, kv);
    TensorsBack(b, 24 + |PutMetadata(kv)|, ts);
  }

  lemma {:induction false} MagicBack(b: Text)
    requires At(b, 0, MAGIC)
    ensures TakeAt(b, 0, 4) == Some((MAGIC, 4))
  {
  }

  lemma {:induction false} CountsFit(kv: seq<(Text, Value)>, ts: seq<Shape>)
    requires EntriesFit(kv) && ShapesFit(ts)
    ensures |kv| < Power(8) && |ts| < Power(8)
  {
  }

  /** Theorem: reading back what was written gives every metadata value and every tensor, whatever follows the header; a
      header that states an alignment of zero is refused. */
  lemma {:induction false} RoundTrip(kv: seq<(Text, Value)>, ts: seq<Shape>, data: Text)
    requires EntriesFit(kv) && ShapesFit(ts)
    ensures var end, a := |PutHeader(kv, ts)|, AlignmentOf(MapOf(kv));
      Parsed(GgufBytes(kv, ts, data)) ==
        if a == 0 then None else Some(Header(V3, MapOf(kv), TableOf(ts), NamedOf(TableOf(ts)), AlignedUp(end, a), end))
  {
    hide Parsed, PutHeader, MapOf, TableOf, AlignedUp, EntriesFit, ShapesFit;
    var b, header := GgufBytes(kv, ts, data), PutHeader(kv, ts);
    assert b[..|header|] == header;
    HeaderBack(b, kv, ts);
  }

  /** With the alignment the writer pads to, the data is found where it was put. */
  lemma {:induction false} DataIsFound(kv: seq<(Text, Value)>, ts: seq<Shape>, data: Text)
    requires EntriesFit(kv) && ShapesFit(ts) && AlignmentOf(MapOf(kv)) == 32
    ensures var b := GgufBytes(kv, ts, data);
      Parsed(b).Some? && Parsed(b).value.dataOffset <= |b| && b[Parsed(b).value.dataOffset..] == data
  {
    hide Parsed, PutHeader, MapOf, TableOf, AlignedUp, EntriesFit, ShapesFit, NamedOf, AlignmentOf;
    RoundTrip(kv, ts, data);
    AlignedIsLeast(|PutHeader(kv, ts)|, 32);
  }

  // ----- the cursor

  /** A read did what `e` says: it gave the value and moved past it, or failed. */
  ghost predicate Did<T>(e: Read<T>, r: Option<T>, i: nat) {
    if e.Some? then r == Some(e.value.0) && i == e.value.1 else r.None?
  }

  lemma {:induction false} ItemsFail(b: Text, i: nat, v: Version, tag: nat, depth: nat, k: nat, n: nat)
    requires depth <= MAX_DEPTH && k <= n && ItemsAt(b, i, v, tag, depth, k).None?
    ensures ItemsAt(b, i, v, tag, depth, n).None?
  {
    if k < n {
      ItemsFail(b, i, v, tag, depth, k, n - 1);
    }
  }

  lemma {:induction false} DimsFail(b: Text, i: nat, v: Version, k: nat, n: nat)
    requires k <= n && DimsAt(b, i, v, k).None?
    ensures DimsAt(b, i, v, n).None?
  {
    if k < n {
      DimsFail(b, i, v, k, n - 1);
    }
  }

  lemma {:induction false} MetadataFail(b: Text, i: nat, v: Version, k: nat, n: nat)
    requires k <= n && MetadataAt(b, i, v, k).None?
    ensures MetadataAt(b, i, v, n).None?
  {
    if k < n {
      MetadataFail(b, i, v, k, n - 1);
    }
  }

  lemma {:induction false} TensorsFail(b: Text, i: nat, v: Version, k: nat, n: nat)
    requires k <= n && TensorsAt(b, i, v, k).None?
    ensures TensorsAt(b, i, v, n).None?
  {
    if k < n {
      TensorsFail(b, i, v, k, n - 1);
    }
  }

  class Cursor {
    const b: Text
    var i: nat
    var magic: Version

    constructor (bytes: Text)
      ensures b == bytes && i == 0 && magic == V3
    {
      b, i, magic := bytes, 0, V3;
    }

    method Take(n: nat) returns (r: Option<Text>)
      requires i <= |b|
      modifies this`i
      ensures i <= |b| && Did(TakeAt(b, old(i), n), r, i)
    {
      if i + n > |b| {
        return None;
      }
      r := Some(b[i..i + n]);
      i := i + n;
    }

    /** `u8`, `u16`, `u32` and `u64`, by their width. */
    method Int(w: nat) returns (r: Option<nat>)
      requires i <= |b|
      modifies this`i
      ensures i <= |b| && Did(IntAt(b, old(i), w), r, i)
    {
      var s :- Take(w);
      r := Some(FromLe(s));
    }

    method Len() returns (r: Option<nat>)
      requires i <= |b|
      modifies this`i
      ensures i <= |b| && Did(IntAt(b, old(i), LenWidth(magic)), r, i)
    {
      match magic
      case V1 => r := Int(4);
      case V2 => r := Int(8);
      case V3 => r := Int(8);
    }

    method String() returns (r: Option<Text>)
      requires i <= |b|
      modifies this`i
      ensures i <= |b| && Did(StringAt(b, old(i), magic), r, i)
    {
      hide TakeAt, IntAt;
      var n :- Len();
      var s :- Take(n);
      r := Some(Lossy(s));
    }

    method Value(tag: nat, depth: nat) returns (r: Option<Value>)
      requires i <= |b| && depth <= MAX_DEPTH
      modifies this`i
      ensures i <= |b| && Did(ValueAt(b, old(i), magic, tag, depth), r, i)
      decreases MAX_DEPTH - depth, 1
    {
      hide IntAt, StringAt, ArrayAt;
      if WidthOf(tag) > 0 {
        var n :- Int(WidthOf(tag));
        return Some(Number(tag, n));
      }
      match tag
      case 8 =>
        var s :- String();
        r := Some(Str(s));
      case 9 =>
        if depth >= MAX_DEPTH {
          return None;
        }
        r := Items(depth);
      case _ => r := None;
    }

    /** The array branch of `Value`. */
    method Items(depth: nat) returns (r: Option<Value>)
      requires i <= |b| && depth < MAX_DEPTH
      modifies this`i
      ensures i <= |b| && Did(ArrayAt(b, old(i), magic, depth), r, i)
      decreases MAX_DEPTH - depth, 0
    {
      hide IntAt, ValueAt;
      var elem :- Int(4);
      var n :- Len();
      ghost var start := i;
      var items: seq<Value> := [];
      for k := 0 to n
        invariant start <= i <= |b| && ItemsAt(b, start, magic, elem, depth + 1, k) == Some((items, i))
      {
        var item := Value(elem, depth + 1);
        if item.None? {
          ItemsFail(b, start, magic, elem, depth + 1, k + 1, n);
          return None;
        }
        items := items + [item.value];
      }
      r := Some(Array(items));
    }

    method Entry() returns (r: Option<(Text, Value)>)
      requires i <= |b|
      modifies this`i
      ensures i <= |b| && Did(EntryAt(b, old(i), magic), r, i)
    {
      hide IntAt, StringAt, ValueAt;
      var key :- String();
      var tag :- Int(4);
      var value :- Value(tag, 0);
      r := Some((key, value));
    }

    method Metadata(nKv: nat) returns (r: Option<map<Text, Value>>)
      requires i <= |b|
      modifies this`i
      ensures i <= |b| && Did(MetadataAt(b, old(i), magic, nKv), r, i)
    {
      hide EntryAt;
      ghost var start := i;
      var metadata: map<Text, Value> := map[];
      for k := 0 to nKv
        invariant start <= i <= |b| && MetadataAt(b, start, magic, k) == Some((metadata, i))
      {
        var e := Entry();
        if e.None? {
          MetadataFail(b, start, magic, k + 1, nKv);
          return None;
        }
        metadata := metadata[e.value.0 := e.value.1];
      }
      r := Some(metadata);
    }

    method Dims(n: nat) returns (r: Option<seq<nat>>)
      requires i <= |b|
      modifies this`i
      ensures i <= |b| && Did(DimsAt(b, old(i), magic, n), r, i)
    {
      hide IntAt;
      ghost var start := i;
      var dims: seq<nat> := [];
      for k := 0 to n
        invariant start <= i <= |b| && DimsAt(b, start, magic, k) == Some((dims, i))
      {
        var d := Len();
        if d.None? {
          DimsFail(b, start, magic, k + 1, n);
          return None;
        }
        dims := dims + [d.value];
      }
      r := Some(dims);
    }

    method TensorEntry() returns (r: Option<Tensor>)
      requires i <= |b|
      modifies this`i
      ensures i <= |b| && Did(TensorAt(b, old(i), magic), r, i)
    {
      hide IntAt, StringAt, DimsAt;
      var name :- String();
      var nDims :- Int(4);
      if nDims > MAX_DIMS {
        return None;
      }
      var dims :- Dims(nDims);
      var typeId :- Int(4);
      var offset :- Int(8);
      r := Some(Tensor(name, typeId, Reversed(dims), offset));
    }

    method Tensors(n: nat) returns (r: Option<seq<Tensor>>, named: map<Text, Tensor>)
      requires i <= |b|
      modifies this`i
      ensures i <= |b| && Did(TensorsAt(b, old(i), magic, n), r, i)
      ensures r.Some? ==> named == NamedOf(r.value)
    {
      hide TensorAt;
      ghost var start := i;
      var tensors: seq<Tensor> := [];
      named := map[];
      for k := 0 to n
        invariant start <= i <= |b| && TensorsAt(b, start, magic, k) == Some((tensors, i))
        invariant named == NamedOf(tensors)
      {
        var t := TensorEntry();
        if t.None? {
          TensorsFail(b, start, magic, k + 1, n);
          return None, map[];
        }
        assert (tensors + [t.value])[..|tensors|] == tensors;
        tensors := tensors + [t.value];
        if Named(t.value.typeId) {
          named := named[t.value.name := t.value];
        }
      }
      r := Some(tensors);
    }
  }

  method Parse(bytes: Text) returns (h: Option<Header>)
    ensures h == Parsed(bytes)
  {
    hide TakeAt, IntAt, MetadataAt, TensorsAt, NamedOf, AlignmentOf, AlignedUp;
    var c := new Cursor(bytes);
    var magic :- c.Take(4);
    if magic != MAGIC {
      return None;
    }
    var version :- c.Int(4);
    match version {
      case 1 => c.magic := V1;
      case 2 => c.magic := V2;
      case 3 => c.magic := V3;
      case _ => return None;
    }
    var nTensors :- c.Len();
    var nKv :- c.Len();
    var metadata :- c.Metadata(nKv);
    var tensors, named := c.Tensors(nTensors);
    if tensors.None? {
      return None;
    }
    var alignment := AlignmentOf(metadata);
    if alignment == 0 {
      return None;
    }
    h := Some(Header(c.magic, metadata, tensors.value, named, AlignedUp(c.i, alignment), c.i));
  }
}
