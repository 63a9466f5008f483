/** The whole token mixer: normalisation, padded chunks, the causal convolution, and prompts cut in pieces
    (src/common/gdn.rs). */
module DeltaLayer {
  import opened Matrices
  import opened TriangularInverse
  import opened DeltaRule
  import opened ChunkScan
  import opened Wrappers

  const L2_NORM_EPS: real := 0.000001
  const CHUNK_SIZE: nat := 64

  /** The scalar functions the layer applies: `exp`, one over the square root, and the convolution's activation. */
  datatype Maths = Maths(e: real -> real, rs: real -> real, silu: real -> real)

  // ----- queries and keys before the scan

  function L2Norm(rs: real -> real, x: Mat): (m: Mat)
    ensures m.rows == x.rows && m.cols == x.cols
  {
    Make(x.rows, x.cols, (i, j) => At(x, i, j) * rs(Sum(x.cols, l => At(x, i, l) * At(x, i, l)) + L2_NORM_EPS))
  }

  function Normalized(rs: real -> real, t: Token): Token {
    t.(q := Scale(L2Norm(rs, t.q), rs(t.q.cols as real)), k := L2Norm(rs, t.k))
  }

  function NormalizedAll(rs: real -> real, x: seq<Token>): (y: seq<Token>)
    ensures |y| == |x|
  {
    seq(|x|, i requires 0 <= i < |x| => Normalized(rs, x[i]))
  }

  lemma {:induction false} NormalizedFits(rs: real -> real, x: seq<Token>, s: Mat)
    requires Fits(x, s)
    ensures Fits(NormalizedAll(rs, x), s)
  {
    hide At, L2Norm, Scale;
  }

  // ----- the two paths

  method RecurrentDeltaStep(mt: Maths, t: Token, s: Mat) returns (out: Mat, next: Mat)
    requires TokenFits(t, s.rows, s.cols)
    ensures Fits([Normalized(mt.rs, t)], s)
    ensures out.rows == 1 && out.cols == s.cols
    ensures [out] == Outs(mt.e, [Normalized(mt.rs, t)], s)
    ensures next == State(mt.e, [Normalized(mt.rs, t)], s)
  {
    hide At, Mul, Add, Sub, Scale, L2Norm, Transpose;
    var q := Scale(L2Norm(mt.rs, t.q), mt.rs(s.rows as real));
    var k := L2Norm(mt.rs, t.k);
    var decayed := Scale(s, mt.e(t.g));
    var kvMem := Mul(k, decayed);
    var delta := Scale(Sub(t.v, kvMem), t.beta);
    next := Add(decayed, Mul(Transpose(k), delta));
    out := Mul(q, next);
    ghost var x := [Normalized(mt.rs, t)];
    assert x[..|x| - 1] == [] && State(mt.e, x, s) == next;
    assert Outs(mt.e, x, s) == Outs(mt.e, [], s) + [Mul(x[0].q, State(mt.e, x, s))];
  }

  function ZeroTokenOf(dk: nat, dv: nat): Token {
    Token(Zero(1, dk), Zero(1, dk), Zero(1, dv), 0.0, 0.0)
  }

  function Padding(n: nat, dk: nat, dv: nat): (x: seq<Token>)
    ensures |x| == n
  {
    seq(n, i => ZeroTokenOf(dk, dv))
  }

  function Concat(a: Mat, b: Mat): (m: Mat)
    requires a.cols == b.cols
    ensures m.rows == a.rows + b.rows && m.cols == a.cols
  {
    Make(a.rows + b.rows, a.cols, (i, j) => if i < a.rows then At(a, i, j) else At(b, i - a.rows, j))
  }

  lemma {:induction false} ConcatStacks(a: seq<Mat>, b: seq<Mat>, w: nat)
    ensures Concat(Stack(a, w), Stack(b, w)) == Stack(a + b, w)
  {
    hide At, Stack;
    var m := Concat(Stack(a, w), Stack(b, w));
    forall i, j | 0 <= i < |a| + |b| && 0 <= j < w
      ensures At(m, i, j) == At(Stack(a + b, w), i, j)
    {
      StackAt(a + b, w, i, j);
      if i < |a| {
        StackAt(a, w, i, j);
      } else {
        StackAt(b, w, i - |a|, j);
      }
    }
    Equal(m, Stack(a + b, w));
  }

  lemma {:induction false} NarrowedStack(a: seq<Mat>, b: seq<Mat>, w: nat)
    ensures Block(Stack(a + b, w), 0, 0, |a|, w) == Stack(a, w)
  {
    hide At, Stack;
    var m := Block(Stack(a + b, w), 0, 0, |a|, w);
    forall i, j | 0 <= i < |a| && 0 <= j < w
      ensures At(m, i, j) == At(Stack(a, w), i, j)
    {
      StackAt(a + b, w, i, j);
      StackAt(a, w, i, j);
    }
    Equal(m, Stack(a, w));
  }

  lemma {:induction false} EmptyStack(w: nat)
    ensures Stack([], w) == Zero(0, w)
  {
    Equal(Stack([], w), Zero(0, w));
  }

  /** Padding rows leave both the outputs before them and the state alone. */
  lemma {:induction false} PaddingIsInert(e: real -> real, x: seq<Token>, n: nat, s: Mat)
    requires Fits(x, s) && Exponential(e)
    ensures Fits(Padding(n, s.rows, s.cols), s)
    ensures State(e, x + Padding(n, s.rows, s.cols), s) == State(e, x, s)
    ensures Outs(e, x + Padding(n, s.rows, s.cols), s)
         == Outs(e, x, s) + Outs(e, Padding(n, s.rows, s.cols), State(e, x, s))
  {
    hide At, State, Outs, Exponential;
    var pad := Padding(n, s.rows, s.cols);
    PiecesOfARun(e, x, pad, s);
    ZeroTokens(e, pad, State(e, x, s));
  }

  /** The padded scan, chunk by chunk. */
  method ScanAll(e: real -> real, x: seq<Token>, c: nat, n: nat, s0: Mat) returns (out: Mat, s: Mat)
    requires Fits(x, s0) && Exponential(e) && c > 0 && |x| == n * c
    ensures out == Stack(Outs(e, x, s0), s0.cols)
    ensures s == State(e, x, s0)
  {
    hide At, Exponential, State, Outs, Stack, Concat;
    s := s0;
    out := Zero(0, s0.cols);
    EmptyRun(e, s0);
    var i := 0;
    assert x[..0] == [];
    while i < n
      invariant 0 <= i <= n && i * c <= |x|
      invariant s == State(e, x[..i * c], s0)
      invariant out == Stack(Outs(e, x[..i * c], s0), s0.cols)
    {
      NextChunk(i, n, c);
      var chunk := x[i * c..(i + 1) * c];
      assert x[..(i + 1) * c] == x[..i * c] + chunk;
      PiecesOfARun(e, x[..i * c], chunk, s0);
      var o, s' := ScanChunk(e, chunk, s);
      ConcatStacks(Outs(e, x[..i * c], s0), Outs(e, chunk, s), s0.cols);
      out, s := Concat(out, o), s';
      i := i + 1;
    }
    assert x[..n * c] == x;
  }

  lemma {:induction false} EmptyRun(e: real -> real, s: Mat)
    ensures State(e, [], s) == s && Outs(e, [], s) == []
    ensures Stack(Outs(e, [], s), s.cols) == Zero(0, s.cols)
  {
    hide Stack, At;
    EmptyStack(s.cols);
  }

  lemma {:induction false} NextChunk(i: nat, n: nat, c: nat)
    requires i < n && c > 0
    ensures (i + 1) * c == i * c + c && (i + 1) * c <= n * c
  {
    var d := n - (i + 1);
    assert n * c == (i + 1) * c + d * c;
  }

  method ChunkGatedDeltaRule(mt: Maths, raw: seq<Token>, dk: nat, dv: nat, initial: Option<Mat>, c: nat)
    returns (out: Mat, s: Mat)
    requires Exponential(mt.e) && c > 0
    requires initial.Some? ==> initial.value.rows == dk && initial.value.cols == dv
    requires forall i | 0 <= i < |raw| :: TokenFits(raw[i], dk, dv)
    ensures var s0 := if initial.Some? then initial.value else Zero(dk, dv);
      && Fits(NormalizedAll(mt.rs, raw), s0)
      && out == Stack(Outs(mt.e, NormalizedAll(mt.rs, raw), s0), dv)
      && s == State(mt.e, NormalizedAll(mt.rs, raw), s0)
  {
    hide At, Exponential, State, Outs, Stack, L2Norm, Zero, Block;
    var t := |raw|;
    var n := (t + c - 1) / c;
    var pad := n * c - t;
    RoundUp(t, c, n);
    var s0 := if initial.Some? then initial.value else Zero(dk, dv);
    var x := NormalizedAll(mt.rs, raw);
    NormalizedFits(mt.rs, raw, s0);
    PaddingIsInert(mt.e, x, pad, s0);
    out, s := ScanAll(mt.e, x + Padding(pad, dk, dv), c, n, s0);
    NarrowedStack(Outs(mt.e, x, s0), Outs(mt.e, Padding(pad, dk, dv), State(mt.e, x, s0)), dv);
    out := Block(out, 0, 0, t, dv);
  }

  lemma {:induction false} RoundUp(t: nat, c: nat, n: nat)
    requires c > 0 && n == (t + c - 1) / c
    ensures n * c >= t
  {
    var r := (t + c - 1) % c;
    assert t + c - 1 == n * c + r;
  }

  // ----- the causal convolution

  /** One token's packed q|k|v channels. */
  type Row = seq<real>

  function Channel(r: Row, c: int): real {
    if 0 <= c < |r| then r[c] else 0.0
  }

  function RowAt(rows: seq<Row>, i: int): Row {
    if 0 <= i < |rows| then rows[i] else []
  }

  /** The layer's shape and convolution weights; `convW[j]` is the weight row of shift `j`. */
  datatype Config = Config(convW: seq<Row>, convDim: nat, numKHeads: nat, numVHeads: nat, dk: nat, dv: nat, tiled: bool)

  predicate ConfigOk(cfg: Config) {
    |cfg.convW| >= 1 && cfg.numKHeads >= 1 && cfg.numVHeads % cfg.numKHeads == 0
  }

  /** Channel `c` of token `i` of the convolution over `padded`, from its first `shifts` shifts. */
  function ConvSum(cfg: Config, padded: seq<Row>, i: int, c: int, shifts: nat): real {
    if shifts == 0 then 0.0 else
      ConvSum(cfg, padded, i, c, shifts - 1)
      + Channel(RowAt(padded, i + shifts - 1), c) * Channel(RowAt(cfg.convW, shifts - 1), c)
  }

  function ConvRow(mt: Maths, cfg: Config, padded: seq<Row>, i: int): (r: Row)
    ensures |r| == cfg.convDim
  {
    seq(cfg.convDim, c => mt.silu(ConvSum(cfg, padded, i, c, |cfg.convW|)))
  }

  /** What the convolution of `rows` behind the window `left` is. */
  function Conv(mt: Maths, cfg: Config, left: seq<Row>, rows: seq<Row>): (out: seq<Row>)
    ensures |out| == |rows|
  {
    seq(|rows|, i => ConvRow(mt, cfg, left + rows, i))
  }

  function NewWindow(cfg: Config, left: seq<Row>, rows: seq<Row>): (w: seq<Row>)
    requires ConfigOk(cfg) && |left| == |cfg.convW| - 1
    ensures |w| == |cfg.convW| - 1
  {
    (left + rows)[|rows|..]
  }

  function Silence(cfg: Config): (w: seq<Row>)
    requires ConfigOk(cfg)
    ensures |w| == |cfg.convW| - 1
  {
    seq(|cfg.convW| - 1, i => seq(cfg.convDim, c => 0.0))
  }

  /** The running total that the shift loop adds to, as rows of `convDim` channels. */
  function Partial(cfg: Config, padded: seq<Row>, t: nat, shifts: nat): (acc: seq<Row>)
    ensures |acc| == t
  {
    seq(t, i => seq(cfg.convDim, c => ConvSum(cfg, padded, i, c, shifts)))
  }

  function AddShift(cfg: Config, padded: seq<Row>, acc: seq<Row>, j: nat): (next: seq<Row>)
    ensures |next| == |acc|
  {
    seq(|acc|, i => seq(cfg.convDim, c =>
      Channel(RowAt(acc, i), c) + Channel(RowAt(padded, i + j), c) * Channel(RowAt(cfg.convW, j), c)))
  }

  lemma {:induction false} ShiftAdds(cfg: Config, padded: seq<Row>, t: nat, j: nat)
    ensures AddShift(cfg, padded, Partial(cfg, padded, t, j), j) == Partial(cfg, padded, t, j + 1)
  {
    var acc := Partial(cfg, padded, t, j);
    var a, b := AddShift(cfg, padded, acc, j), Partial(cfg, padded, t, j + 1);
    forall i | 0 <= i < t
      ensures a[i] == b[i]
    {
      forall c | 0 <= c < cfg.convDim
        ensures a[i][c] == b[i][c]
      {
        assert acc[i][c] == ConvSum(cfg, padded, i, c, j);
      }
    }
  }

  function ActivatedRow(mt: Maths, r: Row): (out: Row)
    ensures |out| == |r|
  {
    seq(|r|, c => mt.silu(Channel(r, c)))
  }

  function Activated(mt: Maths, acc: seq<Row>): (out: seq<Row>)
    ensures |out| == |acc|
  {
    seq(|acc|, i requires 0 <= i < |acc| => ActivatedRow(mt, acc[i]))
  }

  /** `decode` is false while a prefill is in flight. */
  method ConvForward(mt: Maths, cfg: Config, rows: seq<Row>, window: Option<seq<Row>>, decode: bool)
    returns (out: seq<Row>, next: seq<Row>)
    requires ConfigOk(cfg) && (window.Some? ==> |window.value| == |cfg.convW| - 1)
    ensures var left := if window.Some? then window.value else Silence(cfg);
      out == Conv(mt, cfg, left, rows) && next == NewWindow(cfg, left, rows)
  {
    hide ConvSum;
    var k := |cfg.convW|;
    if window.Some? && |rows| == 1 && decode {
      var joined := window.value + rows;
      out := [seq(cfg.convDim, c => mt.silu(ConvSum(cfg, joined, 0, c, k)))];
      next := joined[1..];
      assert out[0] == Conv(mt, cfg, window.value, rows)[0];
      return;
    }
    var left := if window.Some? then window.value else Silence(cfg);
    var padded := left + rows;
    var acc := Partial(cfg, padded, |rows|, 0);
    var j := 0;
    while j < k
      invariant 0 <= j <= k
      invariant acc == Partial(cfg, padded, |rows|, j)
    {
      ShiftAdds(cfg, padded, |rows|, j);
      acc := AddShift(cfg, padded, acc, j);
      j := j + 1;
    }
    out := Activated(mt, acc);
    ActivatedConv(mt, cfg, left, rows);
    next := padded[|rows|..];
  }

  lemma {:induction false} ActivatedConv(mt: Maths, cfg: Config, left: seq<Row>, rows: seq<Row>)
    ensures Activated(mt, Partial(cfg, left + rows, |rows|, |cfg.convW|)) == Conv(mt, cfg, left, rows)
  {
    hide ConvSum;
    var k := |cfg.convW|;
    var acc := Partial(cfg, left + rows, |rows|, k);
    var a, b := Activated(mt, acc), Conv(mt, cfg, left, rows);
    forall i | 0 <= i < |rows|
      ensures a[i] == b[i]
    {
      assert a[i] == ActivatedRow(mt, acc[i]) && |acc[i]| == cfg.convDim;
      assert b[i] == ConvRow(mt, cfg, left + rows, i);
      forall c | 0 <= c < cfg.convDim
        ensures ActivatedRow(mt, acc[i])[c] == ConvRow(mt, cfg, left + rows, i)[c]
      {
        assert acc[i][c] == ConvSum(cfg, left + rows, i, c, k);
        assert Channel(acc[i], c) == acc[i][c];
        assert ActivatedRow(mt, acc[i])[c] == mt.silu(Channel(acc[i], c));
        assert ConvRow(mt, cfg, left + rows, i)[c] == mt.silu(ConvSum(cfg, left + rows, i, c, k));
      }
    }
  }

  /** The window carried between two pieces makes their convolutions those of the whole. */
  lemma {:induction false} ConvInPieces(mt: Maths, cfg: Config, left: seq<Row>, x: seq<Row>, y: seq<Row>)
    requires ConfigOk(cfg) && |left| == |cfg.convW| - 1
    ensures var w := NewWindow(cfg, left, x);
      && Conv(mt, cfg, left, x + y) == Conv(mt, cfg, left, x) + Conv(mt, cfg, w, y)
      && NewWindow(cfg, left, x + y) == NewWindow(cfg, w, y)
  {
    hide ConvSum;
    var w := NewWindow(cfg, left, x);
    var whole, first, second := left + (x + y), left + x, w + y;
    var k := |cfg.convW|;
    forall i: nat | i < |x + y|
      ensures ConvRow(mt, cfg, whole, i)
        == if i < |x| then ConvRow(mt, cfg, first, i) else ConvRow(mt, cfg, second, i - |x|)
    {
      if i < |x| {
        assert whole[i..i + k] == first[i..i + k];
        SameRows(mt, cfg, whole, first, i, i);
      } else {
        assert whole[i..i + k] == second[i - |x|..i - |x| + k];
        SameRows(mt, cfg, whole, second, i, i - |x|);
      }
    }
  }

  lemma {:induction false} SameRows(mt: Maths, cfg: Config, a: seq<Row>, b: seq<Row>, i: nat, i': nat)
    requires i + |cfg.convW| <= |a| && i' + |cfg.convW| <= |b|
    requires a[i..i + |cfg.convW|] == b[i'..i' + |cfg.convW|]
    ensures ConvRow(mt, cfg, a, i) == ConvRow(mt, cfg, b, i')
  {
    forall c | 0 <= c < cfg.convDim
      ensures ConvSum(cfg, a, i, c, |cfg.convW|) == ConvSum(cfg, b, i', c, |cfg.convW|)
    {
      SameSums(cfg, a, b, i, i', c, |cfg.convW|);
    }
  }

  lemma {:induction false} SameSums(cfg: Config, a: seq<Row>, b: seq<Row>, i: nat, i': nat, c: int, n: nat)
    requires n <= |cfg.convW| && i + |cfg.convW| <= |a| && i' + |cfg.convW| <= |b|
    requires a[i..i + |cfg.convW|] == b[i'..i' + |cfg.convW|]
    ensures ConvSum(cfg, a, i, c, n) == ConvSum(cfg, b, i', c, n)
  {
    if n > 0 {
      SameSums(cfg, a, b, i, i', c, n - 1);
      assert a[i..i + |cfg.convW|][n - 1] == b[i'..i' + |cfg.convW|][n - 1];
    }
  }

  // ----- heads and segments

  /** What the projections give for one token: the packed row, and a gate and a beta per value head. */
  datatype Input = Input(qkv: Row, g: Row, beta: Row)

  datatype RecurrentState = RecurrentState(conv: seq<Row>, s: seq<Mat>)

  /** The key head of value head `h`. */
  function KeyHead(cfg: Config, h: nat): (kh: nat)
    requires ConfigOk(cfg)
  {
    var rep := cfg.numVHeads / cfg.numKHeads;
    if cfg.tiled || rep == 0 then h % cfg.numKHeads else h / rep
  }

  function Slice(r: Row, at: nat, w: nat): (m: Mat)
    ensures m.rows == 1 && m.cols == w
  {
    Make(1, w, (i, j) => Channel(r, at + j))
  }

  function HeadToken(cfg: Config, h: nat, act: Row, x: Input): (t: Token)
    requires ConfigOk(cfg)
    ensures TokenFits(t, cfg.dk, cfg.dv)
  {
    var keyDim := cfg.numKHeads * cfg.dk;
    var kh := KeyHead(cfg, h);
    Token(Slice(act, kh * cfg.dk, cfg.dk),
          Slice(act, keyDim + kh * cfg.dk, cfg.dk),
          Slice(act, 2 * keyDim + h * cfg.dv, cfg.dv),
          Channel(x.g, h), Channel(x.beta, h))
  }

  function HeadTokens(cfg: Config, h: nat, act: seq<Row>, x: seq<Input>): (ts: seq<Token>)
    requires ConfigOk(cfg) && |act| == |x|
    ensures |ts| == |x|
  {
    seq(|x|, i requires 0 <= i < |x| => HeadToken(cfg, h, act[i], x[i]))
  }

  function Packed(x: seq<Input>): (rows: seq<Row>)
    ensures |rows| == |x|
  {
    seq(|x|, i requires 0 <= i < |x| => x[i].qkv)
  }

  predicate StateOk(cfg: Config, st: Option<RecurrentState>) {
    st.Some? ==>
      && |st.value.conv| == |cfg.convW| - 1
      && |st.value.s| == cfg.numVHeads
      && forall h | 0 <= h < cfg.numVHeads :: st.value.s[h].rows == cfg.dk && st.value.s[h].cols == cfg.dv
  }

  function LeftOf(cfg: Config, st: Option<RecurrentState>): (w: seq<Row>)
    requires ConfigOk(cfg) && StateOk(cfg, st)
    ensures |w| == |cfg.convW| - 1
  {
    if st.Some? then st.value.conv else Silence(cfg)
  }

  function StateOf(cfg: Config, st: Option<RecurrentState>, h: nat): (s: Mat)
    requires StateOk(cfg, st) && h < cfg.numVHeads
    ensures s.rows == cfg.dk && s.cols == cfg.dv
  {
    if st.Some? then st.value.s[h] else Zero(cfg.dk, cfg.dv)
  }

  /** The recurrence's input at head `h` when a segment arrives at state `st`. */
  function HeadRun(mt: Maths, cfg: Config, x: seq<Input>, st: Option<RecurrentState>, h: nat): (ts: seq<Token>)
    requires ConfigOk(cfg) && StateOk(cfg, st)
    ensures |ts| == |x|
    ensures forall i | 0 <= i < |x| :: TokenFits(ts[i], cfg.dk, cfg.dv)
  {
    hide L2Norm, Scale, HeadToken;
    NormalizedAll(mt.rs, HeadTokens(cfg, h, Conv(mt, cfg, LeftOf(cfg, st), Packed(x)), x))
  }

  /** Head `h` of a segment by the token-by-token recurrence. */
  function HeadOuts(mt: Maths, cfg: Config, x: seq<Input>, st: Option<RecurrentState>, h: nat): (outs: seq<Mat>)
    requires ConfigOk(cfg) && StateOk(cfg, st) && h < cfg.numVHeads
  {
    Outs(mt.e, HeadRun(mt, cfg, x, st, h), StateOf(cfg, st, h))
  }

  function After(mt: Maths, cfg: Config, x: seq<Input>, st: Option<RecurrentState>): (next: RecurrentState)
    requires ConfigOk(cfg) && StateOk(cfg, st)
    ensures StateOk(cfg, Some(next))
  {
    RecurrentState(NewWindow(cfg, LeftOf(cfg, st), Packed(x)),
      seq(cfg.numVHeads, h requires 0 <= h < cfg.numVHeads =>
        State(mt.e, HeadRun(mt, cfg, x, st, h), StateOf(cfg, st, h))))
  }

  /** One segment of one sequence; `*state` is replaced by what is returned. */
  method MixSegment(mt: Maths, cfg: Config, x: seq<Input>, state: Option<RecurrentState>, decode: bool)
    returns (core: seq<Mat>, next: RecurrentState)
    requires ConfigOk(cfg) && StateOk(cfg, state) && Exponential(mt.e)
    ensures next == After(mt, cfg, x, state)
    ensures |core| == cfg.numVHeads
    ensures forall h | 0 <= h < cfg.numVHeads :: core[h] == Stack(HeadOuts(mt, cfg, x, state, h), cfg.dv)
  {
    hide L2Norm, Scale, HeadToken, Conv, State, Outs, Stack, Exponential, Zero, Make, At;
    var prev := if state.Some? then Some(state.value.conv) else None;
    var act, window := ConvForward(mt, cfg, Packed(x), prev, decode);
    core := [];
    var s: seq<Mat> := [];
    while |s| < cfg.numVHeads
      invariant |s| == |core| <= cfg.numVHeads
      invariant forall h | 0 <= h < |s| ::
        && s[h] == State(mt.e, HeadRun(mt, cfg, x, state, h), StateOf(cfg, state, h))
        && core[h] == Stack(HeadOuts(mt, cfg, x, state, h), cfg.dv)
    {
      var h := |s|;
      var ts := HeadTokens(cfg, h, act, x);
      var o, s';
      if state.Some? && |x| == 1 && decode {
        o, s' := RecurrentDeltaStep(mt, ts[0], state.value.s[h]);
        assert NormalizedAll(mt.rs, ts) == [Normalized(mt.rs, ts[0])];
        OneRow(o, cfg.dv);
      } else {
        var carried := if state.Some? then Some(state.value.s[h]) else None;
        o, s' := ChunkGatedDeltaRule(mt, ts, cfg.dk, cfg.dv, carried, CHUNK_SIZE);
      }
      core := core + [o];
      s := s + [s'];
    }
    next := RecurrentState(window, s);
  }

  lemma {:induction false} OneRow(o: Mat, w: nat)
    requires o.rows == 1 && o.cols == w
    ensures Stack([o], w) == o
  {
    hide At;
    forall i, j | 0 <= i < 1 && 0 <= j < w
      ensures At(Stack([o], w), i, j) == At(o, i, j)
    {
      StackAt([o], w, i, j);
    }
    Equal(Stack([o], w), o);
  }

  /** A segment cut in two gives what the whole gives, and leaves the same state. */
  lemma {:induction false} SegmentInPieces(mt: Maths, cfg: Config, x: seq<Input>, y: seq<Input>,
        st: Option<RecurrentState>)
    requires ConfigOk(cfg) && StateOk(cfg, st)
    ensures var mid := Some(After(mt, cfg, x, st));
      && After(mt, cfg, x + y, st) == After(mt, cfg, y, mid)
      && forall h | 0 <= h < cfg.numVHeads ::
          HeadOuts(mt, cfg, x + y, st, h) == HeadOuts(mt, cfg, x, st, h) + HeadOuts(mt, cfg, y, mid, h)
  {
    hide L2Norm, Scale, HeadToken, Conv, State, Outs, Stack, Zero, Make, At, NewWindow;
    var mid := Some(After(mt, cfg, x, st));
    assert Packed(x + y) == Packed(x) + Packed(y);
    ConvInPieces(mt, cfg, LeftOf(cfg, st), Packed(x), Packed(y));
    forall h: nat | h < cfg.numVHeads
      ensures HeadRun(mt, cfg, x + y, st, h) == HeadRun(mt, cfg, x, st, h) + HeadRun(mt, cfg, y, mid, h)
      ensures HeadOuts(mt, cfg, x + y, st, h) == HeadOuts(mt, cfg, x, st, h) + HeadOuts(mt, cfg, y, mid, h)
      ensures After(mt, cfg, x + y, st).s[h] == After(mt, cfg, y, mid).s[h]
    {
      assert HeadRun(mt, cfg, x + y, st, h) == HeadRun(mt, cfg, x, st, h) + HeadRun(mt, cfg, y, mid, h);
      PiecesOfARun(mt.e, HeadRun(mt, cfg, x, st, h), HeadRun(mt, cfg, y, mid, h), StateOf(cfg, st, h));
    }
  }

  // ----- a prompt in any pieces

  function Flat(pieces: seq<seq<Input>>): seq<Input> {
    if pieces == [] then [] else pieces[0] + Flat(pieces[1..])
  }

  /** The state after feeding the pieces one segment at a time. */
  function AfterPieces(mt: Maths, cfg: Config, pieces: seq<seq<Input>>,
        st: Option<RecurrentState>): (next: Option<RecurrentState>)
    requires ConfigOk(cfg) && StateOk(cfg, st)
    ensures StateOk(cfg, next)
    decreases |pieces|
  {
    if pieces == [] then st
    else AfterPieces(mt, cfg, pieces[1..], Some(After(mt, cfg, pieces[0], st)))
  }

  function PieceOuts(mt: Maths, cfg: Config, pieces: seq<seq<Input>>, st: Option<RecurrentState>,
        h: nat): (outs: seq<Mat>)
    requires ConfigOk(cfg) && StateOk(cfg, st) && h < cfg.numVHeads
    decreases |pieces|
  {
    if pieces == [] then [] else
      HeadOuts(mt, cfg, pieces[0], st, h)
      + PieceOuts(mt, cfg, pieces[1..], Some(After(mt, cfg, pieces[0], st)), h)
  }

  /** Theorem: however a prompt is cut, every head gives what the whole prompt gives and the layer ends in the same
      state. */
  lemma {:induction false} PromptInPieces(mt: Maths, cfg: Config, pieces: seq<seq<Input>>, st: Option<RecurrentState>,
        h: nat)
    requires ConfigOk(cfg) && StateOk(cfg, st) && h < cfg.numVHeads && pieces != []
    ensures AfterPieces(mt, cfg, pieces, st) == Some(After(mt, cfg, Flat(pieces), st))
    ensures PieceOuts(mt, cfg, pieces, st, h) == HeadOuts(mt, cfg, Flat(pieces), st, h)
    decreases |pieces|
  {
    hide After, HeadOuts;
    var mid := Some(After(mt, cfg, pieces[0], st));
    if |pieces| == 1 {
      assert pieces[1..] == [] && Flat(pieces) == pieces[0];
      assert PieceOuts(mt, cfg, pieces[1..], mid, h) == [];
    } else {
      PromptInPieces(mt, cfg, pieces[1..], mid, h);
      SegmentInPieces(mt, cfg, pieces[0], Flat(pieces[1..]), st);
    }
  }
}
