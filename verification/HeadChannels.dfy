/**
 The heads of the DeltaNet layer in channels (src/common/gdn.rs:654-755): which of a packed row's channels each head
 reads, and what one token does to a head's state, written out entry by entry.
 */
module HeadChannels {
  import opened Matrices
  import opened DeltaRule
  import opened DeltaLayer
  import opened Wrappers

  /** The activated rows of a segment. */
  function Rows(mt: Maths, cfg: Config, x: seq<Input>, st: Option<RecurrentState>): (act: seq<Row>)
    requires ConfigOk(cfg) && StateOk(cfg, st)
    ensures |act| == |x|
  {
    Conv(mt, cfg, LeftOf(cfg, st), Packed(x))
  }

  /** The key head that value head `h` shares: the copies are tiled, or every key head is repeated in place. */
  function SharedHead(cfg: Config, h: nat): (kh: nat)
    requires ConfigOk(cfg) && h < cfg.numVHeads
    ensures kh < cfg.numKHeads
  {
    var rep := cfg.numVHeads / cfg.numKHeads;
    assert cfg.numVHeads == rep * cfg.numKHeads;
    if cfg.tiled then h % cfg.numKHeads
    else
      Repeats(cfg.numVHeads, cfg.numKHeads, rep, h);
      h / rep
  }

  lemma {:induction false} Repeats(n: nat, k: nat, rep: nat, h: nat)
    requires h < n == rep * k
    ensures rep > 0 && h / rep < k
  {
    var q := h / rep;
    assert rep * (k - q) == rep * k - rep * q;
  }

  function QueryAt(cfg: Config, h: nat, l: nat): nat
    requires ConfigOk(cfg) && h < cfg.numVHeads
  {
    SharedHead(cfg, h) * cfg.dk + l
  }

  function KeyAt(cfg: Config, h: nat, l: nat): nat
    requires ConfigOk(cfg) && h < cfg.numVHeads
  {
    cfg.numKHeads * cfg.dk + SharedHead(cfg, h) * cfg.dk + l
  }

  function ValueAt(cfg: Config, h: nat, l: nat): nat {
    2 * cfg.numKHeads * cfg.dk + h * cfg.dv + l
  }

  lemma {:induction false} WithinKeys(cfg: Config, h: nat, l: nat)
    requires ConfigOk(cfg) && h < cfg.numVHeads && l < cfg.dk
    ensures QueryAt(cfg, h, l) < cfg.numKHeads * cfg.dk
    ensures cfg.numKHeads * cfg.dk <= KeyAt(cfg, h, l) < 2 * cfg.numKHeads * cfg.dk
  {
    var kh, rest := SharedHead(cfg, h), cfg.numKHeads - SharedHead(cfg, h) - 1;
    assert cfg.numKHeads * cfg.dk == kh * cfg.dk + cfg.dk + rest * cfg.dk;
    assert 2 * cfg.numKHeads * cfg.dk == cfg.numKHeads * cfg.dk + cfg.numKHeads * cfg.dk;
  }

  /** What head `h` is given of a row. */
  lemma {:induction false} HeadReads(cfg: Config, h: nat, act: Row, x: Input)
    requires ConfigOk(cfg) && h < cfg.numVHeads
    ensures var t := HeadToken(cfg, h, act, x);
      && (forall l: nat | l < cfg.dk :: At(t.q, 0, l) == Channel(act, QueryAt(cfg, h, l)))
      && (forall l: nat | l < cfg.dk :: At(t.k, 0, l) == Channel(act, KeyAt(cfg, h, l)))
      && (forall l: nat | l < cfg.dv :: At(t.v, 0, l) == Channel(act, ValueAt(cfg, h, l)))
      && t.g == Channel(x.g, h) && t.beta == Channel(x.beta, h)
  {
    hide At, Make, Channel, Slice, SharedHead;
    var keyDim, kh := cfg.numKHeads * cfg.dk, SharedHead(cfg, h);
    SharedIs(cfg, h);
    SliceReads(act, kh * cfg.dk, cfg.dk);
    SliceReads(act, keyDim + kh * cfg.dk, cfg.dk);
    SliceReads(act, 2 * keyDim + h * cfg.dv, cfg.dv);
    assert 2 * keyDim == 2 * cfg.numKHeads * cfg.dk;
  }

  lemma {:induction false} SharedIs(cfg: Config, h: nat)
    requires ConfigOk(cfg) && h < cfg.numVHeads
    ensures KeyHead(cfg, h) == SharedHead(cfg, h)
  {
    Repeats(cfg.numVHeads, cfg.numKHeads, cfg.numVHeads / cfg.numKHeads, h);
  }

  lemma {:induction false} SliceReads(r: Row, at: nat, w: nat)
    ensures forall l: nat | l < w :: At(Slice(r, at, w), 0, l) == Channel(r, at + l)
  {
    hide At, Make, Channel;
  }

  lemma {:induction false} HeadRunAt(mt: Maths, cfg: Config, x: seq<Input>, st: Option<RecurrentState>, h: nat, i: nat)
    requires ConfigOk(cfg) && StateOk(cfg, st) && i < |x|
    ensures HeadRun(mt, cfg, x, st, h)[i] == Normalized(mt.rs, HeadToken(cfg, h, Rows(mt, cfg, x, st)[i], x[i]))
  {
    hide HeadToken, Conv, L2Norm, Scale;
  }

  // ----- channels that are silent

  /** These channels of every row are zero. */
  ghost predicate SilentIn(act: seq<Row>, from: nat, to: nat) {
    forall i: nat, c: nat | i < |act| && from <= c < to :: Channel(act[i], c) == 0.0
  }

  ghost predicate IsZero(m: Mat) {
    forall i: nat, j: nat | i < m.rows && j < m.cols :: At(m, i, j) == 0.0
  }

  lemma {:induction false} NormOfZero(rs: real -> real, m: Mat)
    requires IsZero(m)
    ensures IsZero(L2Norm(rs, m)) && forall r :: IsZero(Scale(L2Norm(rs, m), r))
  {
    hide At, Make;
    forall i: nat, j: nat | i < m.rows && j < m.cols
      ensures At(L2Norm(rs, m), i, j) == 0.0
    {
      assert At(m, i, j) == 0.0;
    }
    forall r, i: nat, j: nat | i < m.rows && j < m.cols
      ensures At(Scale(L2Norm(rs, m), r), i, j) == 0.0
    {
      ScaleAt(L2Norm(rs, m), r, i, j);
    }
  }

  lemma {:induction false} ZeroTimes(a: Mat, b: Mat)
    requires a.cols == b.rows && (IsZero(a) || IsZero(b))
    ensures IsZero(Mul(a, b))
  {
    hide At, Make, Sum;
    forall i: nat, j: nat | i < a.rows && j < b.cols
      ensures At(Mul(a, b), i, j) == 0.0
    {
      forall l: nat | l < a.cols
        ensures At(a, i, l) * At(b, l, j) == 0.0
      {
        assert At(a, i, l) == 0.0 || At(b, l, j) == 0.0;
      }
      SumZero(a.cols, l => At(a, i, l) * At(b, l, j));
    }
  }

  /** Theorem: without queries, the channels before `numKHeads * dk`, every output is zero. */
  lemma {:induction false} SilentQueries(mt: Maths, cfg: Config, x: seq<Input>, st: Option<RecurrentState>, h: nat,
        i: nat)
    requires ConfigOk(cfg) && StateOk(cfg, st) && h < cfg.numVHeads && i < |x|
    requires SilentIn(Rows(mt, cfg, x, st), 0, cfg.numKHeads * cfg.dk)
    ensures IsZero(HeadOuts(mt, cfg, x, st, h)[i])
  {
    hide At, HeadToken, Rows, HeadRun, Mul, State, L2Norm, Scale, Outs;
    var act, run, s := Rows(mt, cfg, x, st), HeadRun(mt, cfg, x, st, h), StateOf(cfg, st, h);
    var t := HeadToken(cfg, h, act[i], x[i]);
    HeadReads(cfg, h, act[i], x[i]);
    forall l: nat | l < cfg.dk
      ensures At(t.q, 0, l) == 0.0
    {
      WithinKeys(cfg, h, l);
    }
    assert IsZero(t.q);
    HeadRunAt(mt, cfg, x, st, h, i);
    NormOfZero(mt.rs, t.q);
    OutAt(mt.e, run, s, i);
    ZeroTimes(run[i].q, State(mt.e, run[..i + 1], s));
  }

  /** The product of the first `n` tokens' decays at head `h`. */
  function Decay(e: real -> real, x: seq<Input>, h: nat, n: nat): real
    requires n <= |x|
  {
    if n == 0 then 1.0 else Decay(e, x, h, n - 1) * e(Channel(x[n - 1].g, h))
  }

  /** A token without a key only lets the state decay. */
  lemma {:induction false} KeylessToken(e: real -> real, t: Token, s: Mat, i: nat, j: nat)
    requires TokenFits(t, s.rows, s.cols) && IsZero(t.k) && i < s.rows && j < s.cols
    ensures At(Next(e, t, s), i, j) == At(s, i, j) * e(t.g)
  {
    hide At, Make, Mul, Delta, Scale, Transpose;
    forall l: nat, m: nat | l < s.rows && m < 1
      ensures At(Transpose(t.k), l, m) == 0.0
    {
      TransposeAt(t.k, l, m);
    }
    ZeroTimes(Transpose(t.k), Delta(e, t, s));
    ScaleAt(s, e(t.g), i, j);
  }

  lemma {:induction false} KeylessRun(e: real -> real, x: seq<Input>, h: nat, run: seq<Token>, s: Mat, n: nat, i: nat,
        j: nat)
    requires Fits(run, s) && |run| == |x| && n <= |x| && i < s.rows && j < s.cols
    requires forall k | 0 <= k < |x| :: IsZero(run[k].k) && run[k].g == Channel(x[k].g, h)
    ensures At(State(e, run[..n], s), i, j) == At(s, i, j) * Decay(e, x, h, n)
  {
    hide At, Next, IsZero, Channel;
    if n > 0 {
      assert run[..n][..n - 1] == run[..n - 1];
      KeylessRun(e, x, h, run, s, n - 1, i, j);
      KeylessToken(e, run[n - 1], State(e, run[..n - 1], s), i, j);
    }
  }

  /** Theorem: without keys, the next `numKHeads * dk` channels, a head's state only decays. */
  lemma {:induction false} SilentKeys(mt: Maths, cfg: Config, x: seq<Input>, st: Option<RecurrentState>, h: nat,
        i: nat, j: nat)
    requires ConfigOk(cfg) && StateOk(cfg, st) && h < cfg.numVHeads && i < cfg.dk && j < cfg.dv
    requires SilentIn(Rows(mt, cfg, x, st), cfg.numKHeads * cfg.dk, 2 * cfg.numKHeads * cfg.dk)
    ensures At(After(mt, cfg, x, st).s[h], i, j) == At(StateOf(cfg, st, h), i, j) * Decay(mt.e, x, h, |x|)
  {
    hide At, HeadToken, Rows, HeadRun, State, L2Norm, Scale, SilentIn;
    var act, run, s := Rows(mt, cfg, x, st), HeadRun(mt, cfg, x, st, h), StateOf(cfg, st, h);
    forall k: nat | k < |x|
      ensures IsZero(run[k].k) && run[k].g == Channel(x[k].g, h)
    {
      SilentKey(mt, cfg, x, st, h, k);
    }
    KeylessRun(mt.e, x, h, run, s, |x|, i, j);
    assert run[..|x|] == run;
  }

  lemma {:induction false} SilentKey(mt: Maths, cfg: Config, x: seq<Input>, st: Option<RecurrentState>, h: nat, k: nat)
    requires ConfigOk(cfg) && StateOk(cfg, st) && h < cfg.numVHeads && k < |x|
    requires SilentIn(Rows(mt, cfg, x, st), cfg.numKHeads * cfg.dk, 2 * cfg.numKHeads * cfg.dk)
    ensures var t := HeadRun(mt, cfg, x, st, h)[k];
      IsZero(t.k) && t.g == Channel(x[k].g, h)
  {
    hide At, HeadToken, Rows, HeadRun, L2Norm, Scale;
    var act := Rows(mt, cfg, x, st);
    var t := HeadToken(cfg, h, act[k], x[k]);
    HeadReads(cfg, h, act[k], x[k]);
    forall l: nat | l < cfg.dk
      ensures At(t.k, 0, l) == 0.0
    {
      WithinKeys(cfg, h, l);
    }
    assert IsZero(t.k);
    HeadRunAt(mt, cfg, x, st, h, k);
    NormOfZero(mt.rs, t.k);
  }

  // ----- what a head depends on

  /** The channels of head `h`: its key head's queries and keys, and its own values. */
  predicate Owns(cfg: Config, h: nat, c: nat)
    requires ConfigOk(cfg) && h < cfg.numVHeads
  {
    || QueryAt(cfg, h, 0) <= c < QueryAt(cfg, h, cfg.dk)
    || KeyAt(cfg, h, 0) <= c < KeyAt(cfg, h, cfg.dk)
    || ValueAt(cfg, h, 0) <= c < ValueAt(cfg, h, cfg.dv)
  }

  /** Rows that agree on the channels of head `h`. */
  ghost predicate AlikeAt(cfg: Config, h: nat, a: seq<Row>, b: seq<Row>)
    requires ConfigOk(cfg) && h < cfg.numVHeads
  {
    |a| == |b| && forall i: nat, c: nat | i < |a| && Owns(cfg, h, c) :: Channel(a[i], c) == Channel(b[i], c)
  }

  lemma {:induction false} SumsAlike(cfg: Config, h: nat, a: seq<Row>, b: seq<Row>, i: nat, c: nat, n: nat)
    requires ConfigOk(cfg) && h < cfg.numVHeads && Owns(cfg, h, c) && AlikeAt(cfg, h, a, b)
    ensures ConvSum(cfg, a, i, c, n) == ConvSum(cfg, b, i, c, n)
  {
    hide Owns, Channel;
    if n > 0 {
      SumsAlike(cfg, h, a, b, i, c, n - 1);
    }
  }

  lemma {:induction false} RowsAlike(mt: Maths, cfg: Config, h: nat, left: seq<Row>, left': seq<Row>, rows: seq<Row>,
        rows': seq<Row>)
    requires ConfigOk(cfg) && h < cfg.numVHeads && AlikeAt(cfg, h, left, left') && AlikeAt(cfg, h, rows, rows')
    ensures AlikeAt(cfg, h, Conv(mt, cfg, left, rows), Conv(mt, cfg, left', rows'))
  {
    hide Owns, ConvSum;
    var a, b := left + rows, left' + rows';
    assert AlikeAt(cfg, h, a, b);
    forall i: nat, c: nat | i < |rows| && Owns(cfg, h, c)
      ensures Channel(ConvRow(mt, cfg, a, i), c) == Channel(ConvRow(mt, cfg, b, i), c)
    {
      SumsAlike(cfg, h, a, b, i, c, |cfg.convW|);
    }
  }

  lemma {:induction false} TokensAlike(cfg: Config, h: nat, act: Row, act': Row, x: Input, y: Input)
    requires ConfigOk(cfg) && h < cfg.numVHeads
    requires forall c: nat | Owns(cfg, h, c) :: Channel(act, c) == Channel(act', c)
    requires Channel(x.g, h) == Channel(y.g, h) && Channel(x.beta, h) == Channel(y.beta, h)
    ensures HeadToken(cfg, h, act, x) == HeadToken(cfg, h, act', y)
  {
    hide At, Make, HeadToken, Channel, SharedHead;
    HeadReads(cfg, h, act, x);
    HeadReads(cfg, h, act', y);
    var t, u := HeadToken(cfg, h, act, x), HeadToken(cfg, h, act', y);
    Equal(t.q, u.q);
    Equal(t.k, u.k);
    Equal(t.v, u.v);
  }

  /** Theorem: a head's outputs and state depend on its own channels, gates and betas, on the window's part of those
      channels and on its own state, and on nothing else. */
  lemma {:induction false} HeadsAreApart(mt: Maths, cfg: Config, x: seq<Input>, y: seq<Input>,
        st: Option<RecurrentState>, su: Option<RecurrentState>, h: nat)
    requires ConfigOk(cfg) && StateOk(cfg, st) && StateOk(cfg, su) && h < cfg.numVHeads && |x| == |y|
    requires AlikeAt(cfg, h, Packed(x), Packed(y)) && AlikeAt(cfg, h, LeftOf(cfg, st), LeftOf(cfg, su))
    requires forall i | 0 <= i < |x| ::
      Channel(x[i].g, h) == Channel(y[i].g, h) && Channel(x[i].beta, h) == Channel(y[i].beta, h)
    requires StateOf(cfg, st, h) == StateOf(cfg, su, h)
    ensures HeadOuts(mt, cfg, x, st, h) == HeadOuts(mt, cfg, y, su, h)
    ensures After(mt, cfg, x, st).s[h] == After(mt, cfg, y, su).s[h]
  {
    hide HeadToken, HeadRun, Conv, State, Outs, Owns, Channel, LeftOf, Packed, Normalized;
    RowsAlike(mt, cfg, h, LeftOf(cfg, st), LeftOf(cfg, su), Packed(x), Packed(y));
    var a, b := Rows(mt, cfg, x, st), Rows(mt, cfg, y, su);
    forall i: nat | i < |x|
      ensures HeadRun(mt, cfg, x, st, h)[i] == HeadRun(mt, cfg, y, su, h)[i]
    {
      TokensAlike(cfg, h, a[i], b[i], x[i], y[i]);
      HeadRunAt(mt, cfg, x, st, h, i);
      HeadRunAt(mt, cfg, y, su, h, i);
    }
    assert HeadRun(mt, cfg, x, st, h) == HeadRun(mt, cfg, y, su, h);
  }

  // ----- one token, entry by entry

  /** The squares of `n` channels from `at` on. */
  function Squares(r: Row, at: nat, n: nat): real {
    if n == 0 then 0.0 else Squares(r, at, n - 1) + Channel(r, at + n - 1) * Channel(r, at + n - 1)
  }

  /** What makes `n` channels from `at` on a unit vector. */
  function Unit(rs: real -> real, r: Row, at: nat, n: nat): real {
    rs(Squares(r, at, n) + 0.000001)
  }

  /** The same, with the attention's own scale. */
  function ScaledUnit(rs: real -> real, r: Row, at: nat, n: nat): real {
    Unit(rs, r, at, n) * rs(n as real)
  }

  /** What the key channels recall from column `j` of the decayed state, from its first `n` rows. */
  function Recalled(r: Row, at: nat, unit: real, s: Mat, decay: real, j: nat, n: nat): real {
    if n == 0 then 0.0 else
      Recalled(r, at, unit, s, decay, j, n - 1) + Channel(r, at + n - 1) * unit * (At(s, n - 1, j) * decay)
  }

  lemma {:induction false} NormAt(rs: real -> real, m: Mat, r: Row, at: nat, l: nat)
    requires m.rows == 1 && l < m.cols && forall i: nat | i < m.cols :: At(m, 0, i) == Channel(r, at + i)
    ensures At(L2Norm(rs, m), 0, l) == Channel(r, at + l) * Unit(rs, r, at, m.cols)
  {
    hide At, Make, Channel, Sum;
    SquaresAre(m, r, at, m.cols);
  }

  lemma {:induction false} SquaresAre(m: Mat, r: Row, at: nat, n: nat)
    requires m.rows == 1 && n <= m.cols && forall i: nat | i < m.cols :: At(m, 0, i) == Channel(r, at + i)
    ensures Sum(n, l => At(m, 0, l) * At(m, 0, l)) == Squares(r, at, n)
  {
    hide At, Channel;
    if n > 0 {
      SquaresAre(m, r, at, n - 1);
    }
  }

  /** A product with one row, as a sum over channels. */
  lemma {:induction false} RecalledIs(k: Mat, s: Mat, d: Mat, r: Row, at: nat, unit: real, decay: real, j: nat, n: nat)
    requires k.rows == 1 && k.cols == s.rows == d.rows && d.cols == s.cols && n <= s.rows && j < s.cols
    requires forall l: nat | l < k.cols :: At(k, 0, l) == Channel(r, at + l) * unit
    requires forall l: nat | l < s.rows :: At(d, l, j) == At(s, l, j) * decay
    ensures Sum(n, l => At(k, 0, l) * At(d, l, j)) == Recalled(r, at, unit, s, decay, j, n)
  {
    hide At, Channel;
    if n > 0 {
      RecalledIs(k, s, d, r, at, unit, decay, j, n - 1);
    }
  }

  lemma {:induction false} MulAt(a: Mat, b: Mat, i: nat, j: nat)
    requires a.cols == b.rows && i < a.rows && j < b.cols
    ensures At(Mul(a, b), i, j) == Sum(a.cols, l => At(a, i, l) * At(b, l, j))
  {
    hide At, Make, Sum;
  }

  lemma {:induction false} DeltaAt(e: real -> real, t: Token, s: Mat, r: Row, at: nat, unit: real, j: nat)
    requires TokenFits(t, s.rows, s.cols) && j < s.cols
    requires forall l: nat | l < s.rows :: At(t.k, 0, l) == Channel(r, at + l) * unit
    ensures At(Delta(e, t, s), 0, j) == (At(t.v, 0, j) - Recalled(r, at, unit, s, e(t.g), j, s.rows)) * t.beta
  {
    hide At, Make, Mul, Scale, Sum, Channel;
    var decayed := Scale(s, e(t.g));
    forall l: nat | l < s.rows
      ensures At(decayed, l, j) == At(s, l, j) * e(t.g)
    {
      ScaleAt(s, e(t.g), l, j);
    }
    MulAt(t.k, decayed, 0, j);
    RecalledIs(t.k, s, decayed, r, at, unit, e(t.g), j, s.rows);
    ScaleAt(Sub(t.v, Mul(t.k, decayed)), t.beta, 0, j);
  }

  lemma {:induction false} NextAt(e: real -> real, t: Token, s: Mat, i: nat, j: nat)
    requires TokenFits(t, s.rows, s.cols) && i < s.rows && j < s.cols
    ensures At(Next(e, t, s), i, j) == At(s, i, j) * e(t.g) + At(t.k, 0, i) * At(Delta(e, t, s), 0, j)
  {
    hide At, Make, Mul, Scale, Delta, Transpose;
    MulAt(Transpose(t.k), Delta(e, t, s), i, j);
    TransposeAt(t.k, i, 0);
    ScaleAt(s, e(t.g), i, j);
    var f := l => At(Transpose(t.k), i, l) * At(Delta(e, t, s), l, j);
    assert Sum(1, f) == Sum(0, f) + f(0);
  }

  /** What head `h` is given of a row after normalisation. */
  lemma {:induction false} NormalizedReads(rs: real -> real, cfg: Config, h: nat, act: Row, x: Input)
    requires ConfigOk(cfg) && h < cfg.numVHeads
    ensures var t := Normalized(rs, HeadToken(cfg, h, act, x));
      var qn := ScaledUnit(rs, act, QueryAt(cfg, h, 0), cfg.dk);
      var kn := Unit(rs, act, KeyAt(cfg, h, 0), cfg.dk);
      && TokenFits(t, cfg.dk, cfg.dv)
      && (forall l: nat | l < cfg.dk ::
            At(t.q, 0, l) == Channel(act, QueryAt(cfg, h, 0) + l) * qn)
      && (forall l: nat | l < cfg.dk :: At(t.k, 0, l) == Channel(act, KeyAt(cfg, h, 0) + l) * kn)
      && (forall l: nat | l < cfg.dv :: At(t.v, 0, l) == Channel(act, ValueAt(cfg, h, l)))
      && t.g == Channel(x.g, h) && t.beta == Channel(x.beta, h)
  {
    hide At, Make, HeadToken, L2Norm, Scale, Channel, Squares;
    var t := HeadToken(cfg, h, act, x);
    var scale := rs(cfg.dk as real);
    HeadReads(cfg, h, act, x);
    forall l: nat | l < cfg.dk
      ensures At(L2Norm(rs, t.k), 0, l)
        == Channel(act, KeyAt(cfg, h, 0) + l) * Unit(rs, act, KeyAt(cfg, h, 0), cfg.dk)
    {
      NormAt(rs, t.k, act, KeyAt(cfg, h, 0), l);
    }
    forall l: nat | l < cfg.dk
      ensures At(Scale(L2Norm(rs, t.q), scale), 0, l)
        == Channel(act, QueryAt(cfg, h, 0) + l) * ScaledUnit(rs, act, QueryAt(cfg, h, 0), cfg.dk)
    {
      NormAt(rs, t.q, act, QueryAt(cfg, h, 0), l);
      ScaleAt(L2Norm(rs, t.q), scale, 0, l);
    }
  }

  /** Theorem: what one token does to a head, in channels. Its state decays and takes, in the key's row, what the value
      has over what the decayed state recalls for the key; the output is what the query recalls from the new state. */
  lemma {:induction false} OneTokenInChannels(mt: Maths, cfg: Config, x: Input, st: Option<RecurrentState>, h: nat)
    requires ConfigOk(cfg) && StateOk(cfg, st) && h < cfg.numVHeads
    ensures var r, s, next := Rows(mt, cfg, [x], st)[0], StateOf(cfg, st, h), After(mt, cfg, [x], st).s[h];
      var q, k := QueryAt(cfg, h, 0), KeyAt(cfg, h, 0);
      var qn := ScaledUnit(mt.rs, r, q, cfg.dk);
      var kn := Unit(mt.rs, r, k, cfg.dk);
      var decay, beta := mt.e(Channel(x.g, h)), Channel(x.beta, h);
      && (forall i: nat, j: nat | i < cfg.dk && j < cfg.dv ::
            At(next, i, j) == At(s, i, j) * decay + Channel(r, k + i) * kn
              * ((Channel(r, ValueAt(cfg, h, j)) - Recalled(r, k, kn, s, decay, j, cfg.dk)) * beta))
      && (forall j: nat | j < cfg.dv ::
            At(HeadOuts(mt, cfg, [x], st, h)[0], 0, j) == Recalled(r, q, qn, next, 1.0, j, cfg.dk))
  {
    hide At, Mul, HeadToken, Normalized, Conv, Delta, Next, Channel, Unit, ScaledUnit, Recalled, HeadRun, Rows, LeftOf;
    var r, s, next := Rows(mt, cfg, [x], st)[0], StateOf(cfg, st, h), After(mt, cfg, [x], st).s[h];
    var run := HeadRun(mt, cfg, [x], st, h);
    var t := Normalized(mt.rs, HeadToken(cfg, h, r, x));
    HeadRunAt(mt, cfg, [x], st, h, 0);
    assert run == [t];
    NormalizedReads(mt.rs, cfg, h, r, x);
    assert [t][..0] == [];
    assert State(mt.e, [t], s) == Next(mt.e, t, State(mt.e, [], s)) == Next(mt.e, t, s);
    assert next == Next(mt.e, t, s);
    assert HeadOuts(mt, cfg, [x], st, h)[0] == Mul(t.q, next) by {
      OutAt(mt.e, run, s, 0);
      assert run[..1] == run;
    }
    var q, k := QueryAt(cfg, h, 0), KeyAt(cfg, h, 0);
    var qn := ScaledUnit(mt.rs, r, q, cfg.dk);
    var kn := Unit(mt.rs, r, k, cfg.dk);
    forall i: nat, j: nat | i < cfg.dk && j < cfg.dv
      ensures At(next, i, j) == At(s, i, j) * mt.e(t.g) + Channel(r, k + i) * kn
        * ((Channel(r, ValueAt(cfg, h, j)) - Recalled(r, k, kn, s, mt.e(t.g), j, cfg.dk)) * t.beta)
    {
      NextAt(mt.e, t, s, i, j);
      DeltaAt(mt.e, t, s, r, k, kn, j);
    }
    forall j: nat | j < cfg.dv
      ensures At(HeadOuts(mt, cfg, [x], st, h)[0], 0, j) == Recalled(r, q, qn, next, 1.0, j, cfg.dk)
    {
      MulAt(t.q, next, 0, j);
      RecalledIs(t.q, next, next, r, q, qn, 1.0, j, cfg.dk);
    }
  }

  /** Theorem: a prompt that begins without a state begins with a window of zeros and states of zeros. */
  lemma {:induction false} FreshIsZero(mt: Maths, cfg: Config, x: seq<Input>, zero: RecurrentState, h: nat)
    requires ConfigOk(cfg) && StateOk(cfg, Some(zero)) && h < cfg.numVHeads
    requires forall i: nat | i < |zero.conv| :: |zero.conv[i]| == cfg.convDim
    requires SilentIn(zero.conv, 0, cfg.convDim)
    requires forall k: nat | k < cfg.numVHeads :: IsZero(zero.s[k])
    ensures After(mt, cfg, x, None) == After(mt, cfg, x, Some(zero))
    ensures HeadOuts(mt, cfg, x, None, h) == HeadOuts(mt, cfg, x, Some(zero), h)
  {
    hide HeadRun, State, Outs, NewWindow, IsZero, At;
    SilentWindow(cfg, zero.conv);
    forall k: nat | k < cfg.numVHeads
      ensures StateOf(cfg, None, k) == StateOf(cfg, Some(zero), k)
      ensures HeadRun(mt, cfg, x, None, k) == HeadRun(mt, cfg, x, Some(zero), k)
    {
      ZeroIs(zero.s[k]);
      SameStart(mt, cfg, x, zero, k);
    }
    assert After(mt, cfg, x, None).s == After(mt, cfg, x, Some(zero)).s;
  }

  lemma {:induction false} SilentWindow(cfg: Config, w: seq<Row>)
    requires ConfigOk(cfg) && |w| == |cfg.convW| - 1 && forall i: nat | i < |w| :: |w[i]| == cfg.convDim
    requires SilentIn(w, 0, cfg.convDim)
    ensures w == Silence(cfg)
  {
    forall i: nat | i < |w|
      ensures w[i] == Silence(cfg)[i]
    {
      assert forall c: nat | c < cfg.convDim :: w[i][c] == Channel(w[i], c) == 0.0;
    }
  }

  lemma {:induction false} ZeroIs(m: Mat)
    requires IsZero(m)
    ensures m == Zero(m.rows, m.cols)
  {
    hide At;
    Equal(m, Zero(m.rows, m.cols));
  }

  lemma {:induction false} SameStart(mt: Maths, cfg: Config, x: seq<Input>, zero: RecurrentState, h: nat)
    requires ConfigOk(cfg) && StateOk(cfg, Some(zero)) && LeftOf(cfg, None) == LeftOf(cfg, Some(zero))
    ensures HeadRun(mt, cfg, x, None, h) == HeadRun(mt, cfg, x, Some(zero), h)
  {
    hide Conv, HeadToken, Normalized, LeftOf;
  }
}
