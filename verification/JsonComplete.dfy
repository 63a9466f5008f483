/**
 Every bounded RFC 8259 text is accepted, and its tree is the document it was written from: with
 `JsonTree`, the automaton's language is exactly that of the bounded texts, read in one way.
 */
module JsonComplete {
  import opened Wrappers
  import opened Sequences
  import opened JsonBytes
  import opened Automaton
  import opened JsonGrammar
  import opened JsonTree

  /** The tree after `s`, as long as the automaton accepts every byte of it. */
  function Grow(p: Partial, s: seq<Byte>, mode: Mode): Option<Partial> {
    if s == [] then Some(p)
    else
      var before :- Grow(p, s[..|s| - 1], mode);
      if Step(Abs(before), s[|s| - 1], mode).Some? then Some(Advance(before, s[|s| - 1])) else None
  }

  predicate Reaches(p: Partial, s: seq<Byte>, mode: Mode, end: Partial) {
    Grow(p, s, mode) == Some(end)
  }

  predicate Takes(p: Partial, b: Byte, mode: Mode, next: Partial) {
    Step(Abs(p), b, mode).Some? && Advance(p, b) == next
  }

  lemma {:induction false} GrowAppend(p: Partial, s: seq<Byte>, t: seq<Byte>, mode: Mode)
    ensures Grow(p, s + t, mode) ==
      if Grow(p, s, mode).None? then None else Grow(Grow(p, s, mode).value, t, mode)
    decreases |t|
  {
    if t == [] {
      assert s + t == s;
    } else {
      assert (s + t)[..|s + t| - 1] == s + t[..|t| - 1];
      GrowAppend(p, s, t[..|t| - 1], mode);
    }
  }

  lemma {:induction false} Chain(p: Partial, s: seq<Byte>, mid: Partial, t: seq<Byte>, end: Partial, mode: Mode)
    requires Reaches(p, s, mode, mid) && Reaches(mid, t, mode, end)
    ensures Reaches(p, s + t, mode, end)
  {
    GrowAppend(p, s, t, mode);
  }

  lemma {:induction false} Chain3(p: Partial, s: seq<Byte>, p1: Partial, t: seq<Byte>, p2: Partial, u: seq<Byte>,
        end: Partial, mode: Mode)
    requires Reaches(p, s, mode, p1) && Reaches(p1, t, mode, p2) && Reaches(p2, u, mode, end)
    ensures Reaches(p, s + t + u, mode, end)
  {
    Chain(p, s, p1, t, p2, mode);
    Chain(p, s + t, p2, u, end, mode);
  }

  lemma {:induction false} NoBytes(p: Partial, mode: Mode)
    ensures Reaches(p, [], mode, p)
  {
  }

  lemma {:induction false} OneByte(p: Partial, b: Byte, next: Partial, mode: Mode)
    requires Takes(p, b, mode, next)
    ensures Reaches(p, [b], mode, next)
  {
    assert [b][..0] == [];
    assert Grow(p, [], mode) == Some(p);
  }

  lemma {:induction false} ChainByte(p: Partial, s: seq<Byte>, mid: Partial, b: Byte, next: Partial, mode: Mode)
    requires Reaches(p, s, mode, mid) && Takes(mid, b, mode, next)
    ensures Reaches(p, s + [b], mode, next)
  {
    OneByte(mid, b, next, mode);
    Chain(p, s, mid, [b], next, mode);
  }

  // ----- whitespace

  /** Places where whitespace may stand, an open number aside. */
  predicate TakesWs(p: Partial) {
    p.PValue? || p.PObjFirst? || p.PObjComma? || p.PColon? || IsAfter(p)
  }

  function PlusWs(p: Partial, ws: seq<Byte>): Partial
    requires TakesWs(p)
  {
    match p
    case PValue(Top(pre)) => PValue(Top(pre + ws))
    case PValue(InArr(up, items, pre)) => PValue(InArr(up, items, pre + ws))
    case PValue(InObj(up, members, pre, key, preColon, postColon)) =>
      PValue(InObj(up, members, pre, key, preColon, postColon + ws))
    case PObjFirst(ctx, w) => PObjFirst(ctx, w + ws)
    case PObjComma(ctx, members, w) => PObjComma(ctx, members, w + ws)
    case PColon(ctx, members, pre, key, w) => PColon(ctx, members, pre, key, w + ws)
    case PArrNext(ctx, items) => PArrNext(ctx, items.(post := items.post + ws))
    case PObjNext(ctx, members) => PObjNext(ctx, members.(post := members.post + ws))
    case PDone(d) => PDone(d.(post := d.post + ws))
  }

  lemma {:induction false} PlusWsByte(p: Partial, ws: seq<Byte>, b: Byte, mode: Mode)
    requires TakesWs(p) && IsWs(b) && Abs(PlusWs(p, ws)).wsRun < MAX_RUN
    ensures Takes(PlusWs(p, ws), b, mode, PlusWs(p, ws + [b]))
  {
    assert forall w: seq<Byte> :: w + (ws + [b]) == w + ws + [b];
  }

  lemma {:induction false} GrowWs(p: Partial, ws: seq<Byte>, mode: Mode)
    requires TakesWs(p) && AllWs(ws) && Abs(PlusWs(p, ws)).wsRun <= MAX_RUN
    ensures Reaches(p, ws, mode, PlusWs(p, ws))
  {
    if ws == [] {
      assert forall w: seq<Byte> :: w + [] == w;
    } else {
      var init, b := ws[..|ws| - 1], ws[|ws| - 1];
      assert init + [b] == ws;
      GrowWs(p, init, mode);
      PlusWsByte(p, init, b, mode);
    }
  }

  // ----- strings

  lemma {:induction false} RunsWithinPrefix(s: seq<Byte>, t: seq<Byte>, bound: nat)
    requires RunsWithin(s + t, bound)
    ensures RunsWithin(s, bound)
    decreases |t|
  {
    if t == [] {
      assert s + t == s;
    } else {
      assert (s + t)[..|s + t| - 1] == s + t[..|t| - 1];
      RunsWithinPrefix(s, t[..|t| - 1], bound);
    }
  }

  /** A string or key with these chars, and the unfinished escape `tail`. */
  function WithChars(p: Partial, cs: Chars, tail: seq<Byte>): Partial
    requires p.PStr? || p.PKey?
  {
    if p.PStr? then PStr(p.ctx, cs, tail) else PKey(p.ctx, p.members, p.pre, cs, tail)
  }

  lemma {:induction false} CharByte(p: Partial, cs: Chars, tail: seq<Byte>, b: Byte, mode: Mode)
    requires (p.PStr? || p.PKey?) && GoodTail(tail) && StrAccepts(cs, tail, b)
    ensures
      var (cs', tail') := StrByte(cs, tail, b);
      Takes(WithChars(p, cs, tail), b, mode, WithChars(p, cs', tail'))
  {
    StrByteStep(if p.PStr? then StackOf(p.ctx) else StackOf(p.ctx) + [false], cs, tail, p.PKey?, b, mode);
  }

  lemma {:induction false} GrowHex(p: Partial, cs: Chars, hex: seq<Byte>, mode: Mode)
    requires (p.PStr? || p.PKey?) && |hex| <= 3 && forall i | 0 <= i < |hex| :: IsHex(hex[i])
    ensures Reaches(WithChars(p, cs, [BACKSLASH, LOWER_U]), hex, mode, WithChars(p, cs, [BACKSLASH, LOWER_U] + hex))
  {
    var u := [BACKSLASH, LOWER_U];
    if hex == [] {
      assert u + hex == u;
    } else {
      var init, b := hex[..|hex| - 1], hex[|hex| - 1];
      GrowHex(p, cs, init, mode);
      assert hex == init + [b] && u + init + [b] == u + hex;
      CharByte(p, cs, u + init, b, mode);
      ChainByte(WithChars(p, cs, u), init, WithChars(p, cs, u + init), b, WithChars(p, cs, u + hex), mode);
    }
  }

  lemma {:induction false} GrowUnicode(p: Partial, cs: Chars, hex: seq<Byte>, mode: Mode)
    requires (p.PStr? || p.PKey?) && Unicode(hex).Valid()
    ensures Reaches(WithChars(p, cs, []), Unicode(hex).Render(), mode, WithChars(p, MoreChars(cs, Unicode(hex)), []))
  {
    var start, end := WithChars(p, cs, []), WithChars(p, MoreChars(cs, Unicode(hex)), []);
    var u := [BACKSLASH, LOWER_U];
    CharByte(p, cs, [], BACKSLASH, mode);
    OneByte(start, BACKSLASH, WithChars(p, cs, [BACKSLASH]), mode);
    CharByte(p, cs, [BACKSLASH], LOWER_U, mode);
    assert [BACKSLASH] + [LOWER_U] == u;
    ChainByte(start, [BACKSLASH], WithChars(p, cs, [BACKSLASH]), LOWER_U, WithChars(p, cs, u), mode);
    GrowHex(p, cs, hex[..3], mode);
    Chain(start, u, WithChars(p, cs, u), hex[..3], WithChars(p, cs, u + hex[..3]), mode);
    LastHex(p, cs, hex, mode);
    ChainByte(start, u + hex[..3], WithChars(p, cs, u + hex[..3]), hex[3], end, mode);
    assert Unicode(hex).Render() == u + hex[..3] + [hex[3]];
  }

  lemma {:induction false} LastHex(p: Partial, cs: Chars, hex: seq<Byte>, mode: Mode)
    requires (p.PStr? || p.PKey?) && Unicode(hex).Valid()
    ensures Takes(WithChars(p, cs, [BACKSLASH, LOWER_U] + hex[..3]), hex[3], mode,
      WithChars(p, MoreChars(cs, Unicode(hex)), []))
  {
    var tail := [BACKSLASH, LOWER_U] + hex[..3];
    CharByte(p, cs, tail, hex[3], mode);
    assert tail[2..] + [hex[3]] == hex;
  }

  lemma {:induction false} GrowChar(p: Partial, cs: Chars, c: Char, mode: Mode)
    requires (p.PStr? || p.PKey?) && c.Valid() && RunsWithin(MoreChars(cs, c).Render(), MAX_RUN)
    ensures Reaches(WithChars(p, cs, []), c.Render(), mode, WithChars(p, MoreChars(cs, c), []))
  {
    match c
    case Plain(b) =>
      TrailingWsAppend(cs.Render(), b);
      CharByte(p, cs, [], b, mode);
      OneByte(WithChars(p, cs, []), b, WithChars(p, MoreChars(cs, c), []), mode);
    case Escape(b) =>
      CharByte(p, cs, [], BACKSLASH, mode);
      OneByte(WithChars(p, cs, []), BACKSLASH, WithChars(p, cs, [BACKSLASH]), mode);
      CharByte(p, cs, [BACKSLASH], b, mode);
      ChainByte(WithChars(p, cs, []), [BACKSLASH], WithChars(p, cs, [BACKSLASH]), b,
        WithChars(p, MoreChars(cs, c), []), mode);
      assert c.Render() == [BACKSLASH] + [b];
    case Unicode(hex) => GrowUnicode(p, cs, hex, mode);
  }

  lemma {:induction false} GrowChars(p: Partial, cs: Chars, mode: Mode)
    requires (p.PStr? || p.PKey?) && cs.Valid() && RunsWithin(cs.Render(), MAX_RUN)
    ensures Reaches(WithChars(p, NoChars, []), cs.Render(), mode, WithChars(p, cs, []))
    decreases cs
  {
    if cs.MoreChars? {
      RunsWithinPrefix(cs.init.Render(), cs.c.Render(), MAX_RUN);
      GrowChars(p, cs.init, mode);
      GrowChar(p, cs.init, cs.c, mode);
      Chain(WithChars(p, NoChars, []), cs.init.Render(), WithChars(p, cs.init, []), cs.c.Render(),
            WithChars(p, cs, []), mode);
    }
  }

  // ----- numbers

  lemma {:induction false} GrowWhole(ctx: Ctx, num: Number, s: seq<Byte>, mode: Mode)
    requires Class(num) == Int && num.frac == [] && num.exp == [] && AllDigits(s)
    ensures Reaches(PNum(ctx, num), s, mode, PNum(ctx, num.(whole := num.whole + s)))
  {
    if s == [] {
      assert num.whole + s == num.whole;
    } else {
      var init := s[..|s| - 1];
      GrowWhole(ctx, num, init, mode);
      assert num.whole + s == num.whole + init + [s[|s| - 1]];
      assert (num.whole + init)[0] == num.whole[0];
    }
  }

  lemma {:induction false} GrowFracDigits(ctx: Ctx, num: Number, s: seq<Byte>, mode: Mode)
    requires (Class(num) == Dot || Class(num) == Frac) && num.exp == [] && AllDigits(s)
    ensures Reaches(PNum(ctx, num), s, mode, PNum(ctx, num.(frac := num.frac + s)))
  {
    if s == [] {
      assert num.frac + s == num.frac;
    } else {
      var init := s[..|s| - 1];
      GrowFracDigits(ctx, num, init, mode);
      assert num.frac + s == num.frac + init + [s[|s| - 1]];
    }
  }

  lemma {:induction false} GrowExpDigits(ctx: Ctx, num: Number, s: seq<Byte>, mode: Mode)
    requires num.exp != [] && AllDigits(s)
    ensures Reaches(PNum(ctx, num), s, mode, PNum(ctx, num.(exp := num.exp + s)))
  {
    if s == [] {
      assert num.exp + s == num.exp;
    } else {
      var init := s[..|s| - 1];
      GrowExpDigits(ctx, num, init, mode);
      assert num.exp + s == num.exp + init + [s[|s| - 1]];
    }
  }

  /** A value that is not an object may begin here. */
  predicate MayStart(ctx: Ctx, mode: Mode) {
    mode.ValueMode? || !ctx.Top?
  }

  lemma {:induction false} GrowFirstDigit(ctx: Ctx, minus: bool, b: Byte, mode: Mode)
    requires IsDigit(b) && MayStart(ctx, mode)
    ensures Reaches(PValue(ctx), (if minus then [MINUS] else []) + [b], mode, PNum(ctx, Number(minus, [b], [], [])))
  {
    var first := PNum(ctx, Number(minus, [b], [], []));
    if minus {
      var open := PNum(ctx, Number(true, [], [], []));
      OneByte(PValue(ctx), MINUS, open, mode);
      assert [] + [b] == [b];
      ChainByte(PValue(ctx), [MINUS], open, b, first, mode);
    } else {
      OneByte(PValue(ctx), b, first, mode);
      assert [] + [b] == [b];
    }
  }

  lemma {:induction false} GrowSignAndWhole(ctx: Ctx, num: Number, mode: Mode)
    requires num.ValidInt() && MayStart(ctx, mode)
    ensures Reaches(PValue(ctx), (if num.minus then [MINUS] else []) + num.whole, mode,
      PNum(ctx, Number(num.minus, num.whole, [], [])))
  {
    var sign := if num.minus then [MINUS] else [];
    var b, rest := num.whole[0], num.whole[1..];
    var first := Number(num.minus, [b], [], []);
    GrowFirstDigit(ctx, num.minus, b, mode);
    assert num.whole == [b] + rest;
    if b == ZERO {
      assert num.whole == [b];
    } else {
      GrowWhole(ctx, first, rest, mode);
      Chain(PValue(ctx), sign + [b], PNum(ctx, first), rest, PNum(ctx, first.(whole := num.whole)), mode);
      assert sign + num.whole == sign + [b] + rest;
    }
  }

  lemma {:induction false} GrowFrac(ctx: Ctx, num: Number, mode: Mode)
    requires num.ValidInt() && num.ValidFrac() && num.exp == []
    ensures Reaches(PNum(ctx, num.(frac := [])), num.frac, mode, PNum(ctx, num))
  {
    var dot := num.(frac := [DOT]);
    OneByte(PNum(ctx, num.(frac := [])), DOT, PNum(ctx, dot), mode);
    GrowFracDigits(ctx, dot, num.frac[1..], mode);
    assert num.frac == [DOT] + num.frac[1..];
    Chain(PNum(ctx, num.(frac := [])), [DOT], PNum(ctx, dot), num.frac[1..], PNum(ctx, num), mode);
  }

  lemma {:induction false} GrowPlainExp(ctx: Ctx, num: Number, mode: Mode)
    requires num.ValidInt() && (num.frac == [] || num.ValidFrac()) && num.ValidExp() && AllDigits(num.exp[1..])
    ensures Reaches(PNum(ctx, num.(exp := [num.exp[0]])), num.exp[1..], mode, PNum(ctx, num))
  {
    hide Reaches;
    TwoThenRest(num.exp);
    GrowExpDigits(ctx, num.(exp := [num.exp[0]]), num.exp[1..], mode);
  }

  lemma {:induction false} ExpSign(ctx: Ctx, num: Number, mode: Mode)
    requires num.ValidInt() && (num.frac == [] || num.ValidFrac()) && num.ValidExp() && !AllDigits(num.exp[1..])
    ensures var (one, two) := (num.(exp := [num.exp[0]]), num.(exp := [num.exp[0], num.exp[1]]));
      Reaches(PNum(ctx, one), [num.exp[1]], mode, PNum(ctx, two))
  {
    var e, x := num.exp[0], num.exp[1];
    TwoThenRest(num.exp);
    OneByte(PNum(ctx, num.(exp := [e])), x, PNum(ctx, num.(exp := [e, x])), mode);
  }

  lemma {:induction false} GrowSignedExp(ctx: Ctx, num: Number, mode: Mode)
    requires num.ValidInt() && (num.frac == [] || num.ValidFrac()) && num.ValidExp() && !AllDigits(num.exp[1..])
    ensures Reaches(PNum(ctx, num.(exp := [num.exp[0]])), num.exp[1..], mode, PNum(ctx, num))
  {
    hide Reaches;
    var e, x := num.exp[0], num.exp[1];
    var mark, signed := PNum(ctx, num.(exp := [e])), PNum(ctx, num.(exp := [e, x]));
    ExpSign(ctx, num, mode);
    TwoThenRest(num.exp);
    GrowExpDigits(ctx, num.(exp := [e, x]), num.exp[2..], mode);
    Chain(mark, [x], signed, num.exp[2..], PNum(ctx, num), mode);
  }

  lemma {:induction false} GrowExp(ctx: Ctx, num: Number, mode: Mode)
    requires num.ValidInt() && (num.frac == [] || num.ValidFrac()) && num.ValidExp()
    ensures Reaches(PNum(ctx, num.(exp := [])), num.exp, mode, PNum(ctx, num))
  {
    var e := num.exp[0];
    var start, mark := PNum(ctx, num.(exp := [])), PNum(ctx, num.(exp := [e]));
    OneByte(start, e, mark, mode);
    hide Reaches;
    if AllDigits(num.exp[1..]) {
      GrowPlainExp(ctx, num, mode);
    } else {
      GrowSignedExp(ctx, num, mode);
    }
    TwoThenRest(num.exp);
    Chain(start, [e], mark, num.exp[1..], PNum(ctx, num), mode);
  }

  lemma {:induction false} GrowNumber(ctx: Ctx, num: Number, mode: Mode)
    requires num.Valid() && MayStart(ctx, mode)
    ensures Reaches(PValue(ctx), num.Render(), mode, PNum(ctx, num))
  {
    var sign := if num.minus then [MINUS] else [];
    var p1, p2 := PNum(ctx, Number(num.minus, num.whole, [], [])), PNum(ctx, num.(exp := []));
    GrowSignAndWhole(ctx, num, mode);
    if num.frac != [] {
      GrowFrac(ctx, num.(exp := []), mode);
    }
    Chain(PValue(ctx), sign + num.whole, p1, num.frac, p2, mode);
    if num.exp != [] {
      GrowExp(ctx, num, mode);
    }
    Chain(PValue(ctx), sign + num.whole + num.frac, p2, num.exp, PNum(ctx, num), mode);
  }

  // ----- literals

  lemma {:induction false} GrowLitPrefix(ctx: Ctx, lit: nat, k: nat, mode: Mode)
    requires lit < 3 && MayStart(ctx, mode) && 1 <= k < |Literal(lit)|
    ensures Reaches(PValue(ctx), Literal(lit)[..k], mode, PLit(ctx, lit, k))
  {
    var w := Literal(lit);
    if k == 1 {
      OneByte(PValue(ctx), w[0], PLit(ctx, lit, 1), mode);
      assert w[..1] == [w[0]];
    } else {
      GrowLitPrefix(ctx, lit, k - 1, mode);
      ChainByte(PValue(ctx), w[..k - 1], PLit(ctx, lit, k - 1), w[k - 1], PLit(ctx, lit, k), mode);
      assert w[..k] == w[..k - 1] + [w[k - 1]];
    }
  }

  lemma {:induction false} GrowLiteral(ctx: Ctx, lit: nat, mode: Mode)
    requires lit < 3 && MayStart(ctx, mode)
    ensures Reaches(PValue(ctx), Literal(lit), mode, Complete(ctx, JLit(lit)))
  {
    hide Grow;
    var w, k := Literal(lit), |Literal(lit)| - 1;
    GrowLitPrefix(ctx, lit, k, mode);
    ChainByte(PValue(ctx), w[..k], PLit(ctx, lit, k), w[k], Complete(ctx, JLit(lit)), mode);
    assert w == w[..k] + [w[k]];
  }

  // ----- values, items, members

  /** Where the text of `v` leaves the tree: a number is still open. */
  function Ended(ctx: Ctx, v: Json): Partial {
    if v.JNum? then PNum(ctx, v.num) else Complete(ctx, v)
  }

  function EndedAfter(ctx: Ctx, v: Json, post: seq<Byte>): Partial {
    if post == [] then Ended(ctx, v) else PlusWs(Complete(ctx, v), post)
  }

  lemma {:induction false} AfterWsRun(ctx: Ctx, v: Json, post: seq<Byte>)
    ensures IsAfter(PlusWs(Complete(ctx, v), post))
    ensures LastValue(PlusWs(Complete(ctx, v), post)) == v && LastPost(PlusWs(Complete(ctx, v), post)) == post
    ensures Abs(PlusWs(Complete(ctx, v), post)) == Machine(StackOf(ctx), AfterValue(StackOf(ctx)), PostWs(v, post))
  {
    Nil(post);
  }

  lemma {:induction false} GrowPost(ctx: Ctx, v: Json, post: seq<Byte>, mode: Mode)
    requires Valid(v) && AllWs(post) && RunAfter(v, post)
    ensures Reaches(Ended(ctx, v), post, mode, EndedAfter(ctx, v, post))
  {
    if post != [] {
      AfterWsRun(ctx, v, post);
      GrowWs(Complete(ctx, v), post, mode);
      if v.JNum? {
        PostAfterNumber(ctx, v, post, mode);
      }
    }
  }

  lemma {:induction false} NumberTakesWs(ctx: Ctx, v: Json, b: Byte, mode: Mode)
    requires v.JNum? && Valid(v) && IsWs(b)
    ensures Takes(PNum(ctx, v.num), b, mode, AfterByte(Complete(ctx, v), b))
    ensures Takes(Complete(ctx, v), b, mode, AfterByte(Complete(ctx, v), b))
  {
    OpenNumberTakesWs(ctx, v, b, mode);
    ClosedNumberTakesWs(ctx, v, b, mode);
  }

  lemma {:induction false} OpenNumberTakesWs(ctx: Ctx, v: Json, b: Byte, mode: Mode)
    requires v.JNum? && Valid(v) && IsWs(b)
    ensures Takes(PNum(ctx, v.num), b, mode, AfterByte(Complete(ctx, v), b))
  {
    assert Class(v.num).Complete();
  }

  lemma {:induction false} ClosedNumberTakesWs(ctx: Ctx, v: Json, b: Byte, mode: Mode)
    requires v.JNum? && IsWs(b)
    ensures Takes(Complete(ctx, v), b, mode, AfterByte(Complete(ctx, v), b))
  {
  }

  lemma {:induction false} PostAfterNumber(ctx: Ctx, v: Json, post: seq<Byte>, mode: Mode)
    requires v.JNum? && Valid(v) && post != [] && AllWs(post)
    ensures Grow(PNum(ctx, v.num), post, mode) == Grow(Complete(ctx, v), post, mode)
  {
    var b, rest := post[0], post[1..];
    var next := AfterByte(Complete(ctx, v), b);
    NumberTakesWs(ctx, v, b, mode);
    OneByte(PNum(ctx, v.num), b, next, mode);
    OneByte(Complete(ctx, v), b, next, mode);
    assert post == [b] + rest;
    GrowAppend(PNum(ctx, v.num), [b], rest, mode);
    GrowAppend(Complete(ctx, v), [b], rest, mode);
  }

  predicate IsDelimiterAt(ctx: Ctx, b: Byte) {
    !ctx.Top? && (b == COMMA || b == if ctx.InArr? then RBRACKET else RBRACE)
  }

  lemma {:induction false} NumberTakesDelimiter(ctx: Ctx, v: Json, b: Byte, mode: Mode)
    requires v.JNum? && Valid(v) && IsDelimiterAt(ctx, b)
    ensures Takes(PNum(ctx, v.num), b, mode, AfterByte(Complete(ctx, v), b))
  {
    assert Class(v.num).Complete();
  }

  lemma {:induction false} ValueTakesDelimiter(ctx: Ctx, v: Json, post: seq<Byte>, b: Byte, mode: Mode)
    requires IsDelimiterAt(ctx, b)
    ensures
      var p := PlusWs(Complete(ctx, v), post);
      IsAfter(p) && Takes(p, b, mode, AfterByte(p, b))
  {
    AfterWsRun(ctx, v, post);
  }

  /** A delimiter sees no difference between an open number and a finished value. */
  lemma {:induction false} Delimiter(ctx: Ctx, v: Json, post: seq<Byte>, b: Byte, mode: Mode)
    requires Valid(v) && IsDelimiterAt(ctx, b)
    ensures
      var p := PlusWs(Complete(ctx, v), post);
      IsAfter(p) && Takes(EndedAfter(ctx, v, post), b, mode, AfterByte(p, b))
  {
    hide Takes, AfterByte, Valid;
    ValueTakesDelimiter(ctx, v, post, b, mode);
    if post == [] {
      assert post + post == post;
      if v.JNum? {
        NumberTakesDelimiter(ctx, v, b, mode);
      }
    }
  }

  predicate RootFits(v: Json, ctx: Ctx, mode: Mode) {
    MayStart(ctx, mode) || v.JObj?
  }

  function Around(ctx: Ctx): nat {
    |StackOf(ctx)|
  }

  lemma {:induction false} GrowValue(v: Json, ctx: Ctx, mode: Mode)
    requires Valid(v) && Around(ctx) <= MAX_DEPTH && Bounded(v, MAX_DEPTH - Around(ctx)) && RootFits(v, ctx, mode)
    ensures Reaches(PValue(ctx), Render(v), mode, Ended(ctx, v))
    decreases v, 0
  {
    match v
    case JLit(lit) => GrowLiteral(ctx, lit, mode);
    case JNum(num) => GrowNumber(ctx, num, mode);
    case JStr(cs) => GrowString(ctx, cs, mode);
    case JArr(gap, items) => GrowArray(v, ctx, mode);
    case JObj(gap, members) => GrowObject(v, ctx, mode);
  }

  /** A delimited text, from its opening byte to its closing one. */
  lemma {:induction false} GrowDelimited(p: Partial, left: Byte, open: Partial, body: seq<Byte>, last: Partial,
        right: Byte, end: Partial, mode: Mode)
    requires Takes(p, left, mode, open) && Reaches(open, body, mode, last) && Takes(last, right, mode, end)
    ensures Reaches(p, [left] + body + [right], mode, end)
  {
    OneByte(p, left, open, mode);
    Chain(p, [left], open, body, last, mode);
    ChainByte(p, [left] + body, last, right, end, mode);
  }

  lemma {:induction false} StringQuotes(ctx: Ctx, cs: Chars, mode: Mode)
    requires MayStart(ctx, mode)
    ensures Takes(PValue(ctx), QUOTE, mode, PStr(ctx, NoChars, []))
    ensures Takes(PStr(ctx, cs, []), QUOTE, mode, Complete(ctx, JStr(cs)))
  {
  }

  lemma {:induction false} GrowString(ctx: Ctx, cs: Chars, mode: Mode)
    requires cs.Valid() && RunsWithin(cs.Render(), MAX_RUN) && MayStart(ctx, mode)
    ensures Reaches(PValue(ctx), Render(JStr(cs)), mode, Complete(ctx, JStr(cs)))
  {
    hide Grow, Takes;
    var open := PStr(ctx, NoChars, []);
    GrowChars(open, cs, mode);
    StringQuotes(ctx, cs, mode);
    GrowDelimited(PValue(ctx), QUOTE, open, cs.Render(), PStr(ctx, cs, []), QUOTE, Complete(ctx, JStr(cs)), mode);
  }

  /** What may start an item is taken after the bracket as where an item is awaited. */
  lemma {:induction false} ItemAfterBracket(ctx: Ctx, b: Byte, mode: Mode)
    requires b != RBRACKET
    ensures var (first, inner) := (PArrFirst(ctx), PValue(InArr(ctx, NoItems, [])));
      && (Step(Abs(first), b, mode).Some? <==> Step(Abs(inner), b, mode).Some?)
      && Advance(first, b) == Advance(inner, b)
  {
    hide Started;
    assert [] + [b] == [b];
  }

  lemma {:induction false} FromArrFirst(ctx: Ctx, s: seq<Byte>, mode: Mode)
    requires s != [] && s[0] != RBRACKET
    ensures Grow(PArrFirst(ctx), s, mode) == Grow(PValue(InArr(ctx, NoItems, [])), s, mode)
    decreases |s|
  {
    hide Step, Abs, Advance;
    var init, b := s[..|s| - 1], s[|s| - 1];
    if init == [] {
      ItemAfterBracket(ctx, b, mode);
    } else {
      FromArrFirst(ctx, init, mode);
    }
  }

  lemma {:induction false} ItemsStart(items: Items)
    requires items.MoreItems? && ValidItems(items)
    ensures |RenderItems(items)| > 0 && RenderItems(items)[0] != RBRACKET
    decreases items
  {
    hide Render;
    var MoreItems(init, pre, v, post) := items;
    var r := Render(v);
    if init.NoItems? {
      FirstByte(v);
      Nil(pre);
      Assoc(pre, r, post);
      Head(r, post);
      if pre == [] {
        Nil(r + post);
      } else {
        Head(pre, r + post);
      }
    } else {
      ItemsStart(init);
      Assoc4(RenderItems(init) + [COMMA], pre, r, post);
      Assoc(RenderItems(init), [COMMA], pre + r + post);
      Head(RenderItems(init), [COMMA] + (pre + r + post));
    }
  }

  /** The tree after all of `items`, the last of which may be an open number. */
  function ItemsEnd(ctx: Ctx, items: Items): Partial
    requires items.MoreItems?
  {
    EndedAfter(InArr(ctx, items.init, items.pre), items.v, items.post)
  }

  lemma {:induction false} ItemsDelimiter(ctx: Ctx, items: Items, b: Byte, mode: Mode)
    requires items.MoreItems? && Valid(items.v) && (b == COMMA || b == RBRACKET)
    ensures Takes(ItemsEnd(ctx, items), b, mode, AfterByte(PArrNext(ctx, items), b))
  {
    Delimiter(InArr(ctx, items.init, items.pre), items.v, items.post, b, mode);
    Nil(items.post);
  }

  lemma {:induction false} GrowArray(v: Json, ctx: Ctx, mode: Mode)
    requires v.JArr? && Valid(v) && Around(ctx) <= MAX_DEPTH && Bounded(v, MAX_DEPTH - Around(ctx))
    requires RootFits(v, ctx, mode)
    ensures Reaches(PValue(ctx), Render(v), mode, Complete(ctx, v))
    decreases v.items
  {
    var body := RenderItems(v.items);
    Nil([LBRACKET]);
    if v.items.NoItems? {
      GrowDelimited(PValue(ctx), LBRACKET, PArrFirst(ctx), body, PArrFirst(ctx), RBRACKET, Complete(ctx, v), mode);
    } else {
      GrowItems(v.items, ctx, mode);
      ItemsStart(v.items);
      FromArrFirst(ctx, body, mode);
      ItemsDelimiter(ctx, v.items, RBRACKET, mode);
      GrowDelimited(PValue(ctx), LBRACKET, PArrFirst(ctx), body, ItemsEnd(ctx, v.items), RBRACKET, Complete(ctx, v),
        mode);
    }
  }

  /** One item, read where the comma before it or the opening bracket leaves the tree. */
  lemma {:induction false} GrowItem(items: Items, ctx: Ctx, mode: Mode)
    requires items.MoreItems? && ValidItems(items)
    requires Around(ctx) < MAX_DEPTH && BoundedItems(items, MAX_DEPTH - Around(ctx) - 1)
    ensures Reaches(PValue(InArr(ctx, items.init, [])), items.pre + Render(items.v) + items.post, mode,
      ItemsEnd(ctx, items))
    decreases items, 0
  {
    hide Grow;
    var start, hole := PValue(InArr(ctx, items.init, [])), InArr(ctx, items.init, items.pre);
    Nil(items.pre);
    GrowWs(start, items.pre, mode);
    GrowValue(items.v, hole, mode);
    GrowPost(hole, items.v, items.post, mode);
    Chain3(start, items.pre, PValue(hole), Render(items.v), Ended(hole, items.v), items.post, ItemsEnd(ctx, items),
      mode);
  }

  lemma {:induction false} GrowItems(items: Items, ctx: Ctx, mode: Mode)
    requires items.MoreItems? && ValidItems(items)
    requires Around(ctx) < MAX_DEPTH && BoundedItems(items, MAX_DEPTH - Around(ctx) - 1)
    ensures Reaches(PValue(InArr(ctx, NoItems, [])), RenderItems(items), mode, ItemsEnd(ctx, items))
    decreases items, 1
  {
    var MoreItems(init, pre, v, post) := items;
    var start, next := PValue(InArr(ctx, NoItems, [])), PValue(InArr(ctx, init, []));
    if init.NoItems? {
      NoBytes(start, mode);
    } else {
      GrowItems(init, ctx, mode);
      ItemsDelimiter(ctx, init, COMMA, mode);
      ChainByte(start, RenderItems(init), ItemsEnd(ctx, init), COMMA, next, mode);
    }
    GrowItem(items, ctx, mode);
    Chain(start, RenderItemsThen(init), next, pre + Render(v) + post, ItemsEnd(ctx, items), mode);
    Assoc4(RenderItemsThen(init), pre, Render(v), post);
  }

  function MembersEnd(ctx: Ctx, members: Members): Partial
    requires members.MoreMembers?
  {
    var MoreMembers(init, pre, key, preColon, postColon, v, post) := members;
    EndedAfter(InObj(ctx, init, pre, key, preColon, postColon), v, post)
  }

  lemma {:induction false} MembersDelimiter(ctx: Ctx, members: Members, b: Byte, mode: Mode)
    requires members.MoreMembers? && Valid(members.v) && (b == COMMA || b == RBRACE)
    ensures Takes(MembersEnd(ctx, members), b, mode, AfterByte(PObjNext(ctx, members), b))
  {
    var MoreMembers(init, pre, key, preColon, postColon, v, post) := members;
    Delimiter(InObj(ctx, init, pre, key, preColon, postColon), v, post, b, mode);
    Nil(post);
  }

  lemma {:induction false} GrowObject(v: Json, ctx: Ctx, mode: Mode)
    requires v.JObj? && Valid(v) && Around(ctx) <= MAX_DEPTH && Bounded(v, MAX_DEPTH - Around(ctx))
    ensures Reaches(PValue(ctx), Render(v), mode, Complete(ctx, v))
    decreases v.members
  {
    var open := PObjFirst(ctx, []);
    if v.members.NoMembers? {
      Nil(v.gap);
      GrowWs(open, v.gap, mode);
      GrowDelimited(PValue(ctx), LBRACE, open, v.gap, PObjFirst(ctx, v.gap), RBRACE, Complete(ctx, v), mode);
      Nil([LBRACE] + v.gap);
    } else {
      GrowMembers(v.members, ctx, mode);
      MembersDelimiter(ctx, v.members, RBRACE, mode);
      GrowDelimited(PValue(ctx), LBRACE, open, RenderMembers(v.members), MembersEnd(ctx, v.members), RBRACE,
        Complete(ctx, v), mode);
      Nil([LBRACE]);
    }
  }

  /** The place where the key of a further member is awaited. */
  function KeyPlace(ctx: Ctx, members: Members, ws: seq<Byte>): Partial {
    if members.NoMembers? then PObjFirst(ctx, ws) else PObjComma(ctx, members, ws)
  }

  lemma {:induction false} GrowKey(ctx: Ctx, members: Members, pre: seq<Byte>, key: Chars, preColon: seq<Byte>,
        postColon: seq<Byte>, mode: Mode)
    requires GoodKey(pre, key, preColon) && Short(postColon)
    ensures Reaches(KeyPlace(ctx, members, []), RenderKey(pre, key, preColon, postColon), mode,
      PValue(InObj(ctx, members, pre, key, preColon, postColon)))
  {
    hide Grow;
    var k := [QUOTE] + key.Render() + [QUOTE];
    var named := PColon(ctx, members, pre, key, []);
    GrowName(ctx, members, pre, key, mode);
    GrowColon(ctx, members, pre, key, preColon, postColon, mode);
    var c := preColon + [COLON] + postColon;
    Chain(KeyPlace(ctx, members, []), pre + k, named, c, PValue(InObj(ctx, members, pre, key, preColon, postColon)),
      mode);
    KeyParts(pre, key.Render(), preColon, postColon);
  }

  lemma {:induction false} KeyParts(pre: seq<Byte>, k: seq<Byte>, preColon: seq<Byte>, postColon: seq<Byte>)
    ensures pre + [QUOTE] + k + [QUOTE] + preColon + [COLON] + postColon
            == pre + ([QUOTE] + k + [QUOTE]) + (preColon + [COLON] + postColon)
  {
    var name := pre + [QUOTE] + k + [QUOTE];
    Assoc4(pre, [QUOTE], k, [QUOTE]);
    Assoc4(name, preColon, [COLON], postColon);
  }

  lemma {:induction false} GrowName(ctx: Ctx, members: Members, pre: seq<Byte>, key: Chars, mode: Mode)
    requires Short(pre) && GoodChars(key)
    ensures Reaches(KeyPlace(ctx, members, []), pre + ([QUOTE] + key.Render() + [QUOTE]), mode,
      PColon(ctx, members, pre, key, []))
  {
    hide Grow;
    var start, place := KeyPlace(ctx, members, []), KeyPlace(ctx, members, pre);
    var open, close := PKey(ctx, members, pre, NoChars, []), PKey(ctx, members, pre, key, []);
    Nil(pre);
    GrowWs(start, pre, mode);
    GrowChars(open, key, mode);
    GrowDelimited(place, QUOTE, open, key.Render(), close, QUOTE, PColon(ctx, members, pre, key, []), mode);
    Chain(start, pre, place, [QUOTE] + key.Render() + [QUOTE], PColon(ctx, members, pre, key, []), mode);
  }

  lemma {:induction false} GrowColon(ctx: Ctx, members: Members, pre: seq<Byte>, key: Chars, preColon: seq<Byte>,
        postColon: seq<Byte>, mode: Mode)
    requires Short(preColon) && Short(postColon)
    ensures Reaches(PColon(ctx, members, pre, key, []), preColon + [COLON] + postColon, mode,
      PValue(InObj(ctx, members, pre, key, preColon, postColon)))
  {
    var start, colon := PColon(ctx, members, pre, key, []), PColon(ctx, members, pre, key, preColon);
    var hole := PValue(InObj(ctx, members, pre, key, preColon, []));
    Nil(preColon);
    Nil(postColon);
    GrowWs(start, preColon, mode);
    OneByte(colon, COLON, hole, mode);
    GrowWs(hole, postColon, mode);
    Chain3(start, preColon, colon, [COLON], hole, postColon,
      PValue(InObj(ctx, members, pre, key, preColon, postColon)), mode);
  }

  lemma {:induction false} GrowMember(members: Members, ctx: Ctx, mode: Mode)
    requires members.MoreMembers? && ValidMembers(members)
    requires Around(ctx) < MAX_DEPTH && BoundedMembers(members, MAX_DEPTH - Around(ctx) - 1)
    ensures
      var MoreMembers(init, pre, key, preColon, postColon, v, post) := members;
      Reaches(KeyPlace(ctx, init, []), RenderKey(pre, key, preColon, postColon) + Render(v) + post, mode,
        MembersEnd(ctx, members))
    decreases members, 0
  {
    hide Grow;
    var MoreMembers(init, pre, key, preColon, postColon, v, post) := members;
    var hole := InObj(ctx, init, pre, key, preColon, postColon);
    GrowKey(ctx, init, pre, key, preColon, postColon, mode);
    GrowValue(v, hole, mode);
    GrowPost(hole, v, post, mode);
    Chain3(KeyPlace(ctx, init, []), RenderKey(pre, key, preColon, postColon), PValue(hole), Render(v), Ended(hole, v),
      post, MembersEnd(ctx, members), mode);
  }

  lemma {:induction false} GrowMembers(members: Members, ctx: Ctx, mode: Mode)
    requires members.MoreMembers? && ValidMembers(members)
    requires Around(ctx) < MAX_DEPTH && BoundedMembers(members, MAX_DEPTH - Around(ctx) - 1)
    ensures Reaches(PObjFirst(ctx, []), RenderMembers(members), mode, MembersEnd(ctx, members))
    decreases members, 1
  {
    var MoreMembers(init, pre, key, preColon, postColon, v, post) := members;
    var start, next := PObjFirst(ctx, []), KeyPlace(ctx, init, []);
    if init.NoMembers? {
      NoBytes(start, mode);
    } else {
      GrowMembers(init, ctx, mode);
      MembersDelimiter(ctx, init, COMMA, mode);
      ChainByte(start, RenderMembers(init), MembersEnd(ctx, init), COMMA, next, mode);
    }
    GrowMember(members, ctx, mode);
    var r := RenderKey(pre, key, preColon, postColon) + Render(v) + post;
    Chain(start, RenderMembersThen(init), next, r, MembersEnd(ctx, members), mode);
    Assoc4(RenderMembersThen(init), RenderKey(pre, key, preColon, postColon), Render(v), post);
  }

  // ----- documents

  lemma {:induction false} GrowIsTree(s: seq<Byte>, mode: Mode)
    requires Grow(PValue(Top([])), s, mode).Some?
    ensures Tree(s) == Grow(PValue(Top([])), s, mode).value && Good(Tree(s), mode)
    ensures Run(Initial(), s, mode) == Some(Abs(Tree(s)))
  {
    if s != [] {
      GrowIsTree(s[..|s| - 1], mode);
      StepFollows(Tree(s[..|s| - 1]), s[|s| - 1], mode);
    }
  }

  lemma {:induction false} GrowDocument(d: Document, mode: Mode)
    requires ValidDocument(d) && BoundedDocument(d) && (mode.ValueMode? || d.v.JObj?)
    ensures Reaches(PValue(Top([])), RenderDocument(d), mode, EndedAfter(Top(d.pre), d.v, d.post))
  {
    hide Grow;
    var start, hole := PValue(Top([])), Top(d.pre);
    Nil(d.pre);
    GrowWs(start, d.pre, mode);
    GrowValue(d.v, hole, mode);
    GrowPost(hole, d.v, d.post, mode);
    Chain3(start, d.pre, PValue(hole), Render(d.v), Ended(hole, d.v), d.post, EndedAfter(hole, d.v, d.post), mode);
  }

  /** A bounded text is accepted and its tree gives back the very document: the grammar is read in one way only. */
  lemma {:induction false} BoundedTextsAreAccepted(d: Document, mode: Mode)
    requires ValidDocument(d) && BoundedDocument(d) && (mode.ValueMode? || d.v.JObj?)
    ensures Accepts(RenderDocument(d), mode)
    ensures var p := Tree(RenderDocument(d)); (p.PDone? || (p.PNum? && p.ctx.Top?)) && DocumentOf(p) == d
  {
    hide Grow, RenderDocument, ValidDocument, BoundedDocument, Tree, EndedAfter, Abs, Run;
    GrowDocument(d, mode);
    GrowIsTree(RenderDocument(d), mode);
    TreeOfDocument(d);
  }

  /** The tree that stands for a document is accepted and is read back as it. */
  lemma {:induction false} TreeOfDocument(d: Document)
    requires ValidDocument(d)
    ensures var p := EndedAfter(Top(d.pre), d.v, d.post);
      (p.PDone? || (p.PNum? && p.ctx.Top?)) && DocumentOf(p) == d && Abs(p).Accepting()
  {
    Nil(d.post);
    if d.v.JNum? {
      assert Class(d.v.num).Complete();
    }
  }

  /** A text the automaton must accept: RFC 8259, within the limits, an object where asked. */
  ghost predicate InLanguage(s: seq<Byte>, mode: Mode) {
    exists d: Document ::
      ValidDocument(d) && BoundedDocument(d) && (mode.ValueMode? || d.v.JObj?) && RenderDocument(d) == s
  }

  lemma {:induction false} AcceptsExactlyTheBoundedTexts(s: seq<Byte>, mode: Mode)
    ensures Accepts(s, mode) <==> InLanguage(s, mode)
  {
    if Accepts(s, mode) {
      AcceptedTextsAreBounded(s, mode);
    } else if InLanguage(s, mode) {
      var d: Document :|
        ValidDocument(d) && BoundedDocument(d) && (mode.ValueMode? || d.v.JObj?) && RenderDocument(d) == s;
      BoundedTextsAreAccepted(d, mode);
    }
  }

  /** An array that is empty but for a space is JSON, and no text of the automaton. */
  lemma {:induction false} SpacedEmptyArrayIsRefused(mode: Mode)
    ensures var d := Document([], JArr([SPACE], NoItems), []);
      ValidDocument(d) && RenderDocument(d) == [LBRACKET, SPACE, RBRACKET] && !Accepts(RenderDocument(d), mode)
  {
    hide Accepts, Render, RenderItems;
    var v := JArr([SPACE], NoItems);
    SpacedEmptyArray();
    assert RenderDocument(Document([], v, [])) == [] + Render(v) + [] == Render(v);
    NoSpaceAfterBracket(mode);
  }

  lemma {:induction false} SpacedEmptyArray()
    ensures var v := JArr([SPACE], NoItems);
      Valid(v) && Render(v) == [LBRACKET, SPACE, RBRACKET]
  {
    assert Render(JArr([SPACE], NoItems)) == [LBRACKET] + [SPACE] + RenderItems(NoItems) + [RBRACKET];
  }

  lemma {:induction false} NoSpaceAfterBracket(mode: Mode)
    ensures !Accepts([LBRACKET, SPACE, RBRACKET], mode)
  {
    hide Step;
    var s := [LBRACKET, SPACE, RBRACKET];
    assert s[..2] == [LBRACKET, SPACE] && s[..2][..1] == [LBRACKET] && s[..2][..1][..0] == [];
    assert Run(Initial(), [LBRACKET], mode) == Step(Initial(), LBRACKET, mode);
    var open := Step(Initial(), LBRACKET, mode);
    assert Run(Initial(), s[..2], mode) == if open.None? then None else Step(open.value, SPACE, mode);
    ItemAwaited(mode);
    assert Run(Initial(), s, mode).None?;
  }

  /** The space makes the automaton wait for an item. */
  lemma {:induction false} ItemAwaited(mode: Mode)
    ensures var open := Step(Initial(), LBRACKET, mode);
      open.Some? ==>
        var spaced := Step(open.value, SPACE, mode);
        spaced.Some? && spaced.value.state.Value? && Step(spaced.value, RBRACKET, mode).None?
  {
  }
}
