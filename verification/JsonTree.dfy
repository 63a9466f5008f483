/**
 Every text the automaton accepts is a bounded RFC 8259 text.

 A `Partial` is a syntax tree under construction: what has been read, as finished subtrees around
 the place that is still open. The automaton's value is a function of it (`Abs`), so the steps of
 the automaton are steps of the tree, and an accepting automaton holds a finished document.
 */
module JsonTree {
  import opened Wrappers
  import opened Sequences
  import opened JsonBytes
  import opened Automaton
  import opened JsonGrammar

  /** Everything before a value that is still to come. */
  datatype Ctx =
    | Top(pre: seq<Byte>)
    | InArr(up: Ctx, items: Items, pre: seq<Byte>)
    | InObj(up: Ctx, members: Members, pre: seq<Byte>, key: Chars, preColon: seq<Byte>, postColon: seq<Byte>)

  datatype Partial =
    | PValue(ctx: Ctx)
    | PArrFirst(ctx: Ctx)
    | PObjFirst(ctx: Ctx, ws: seq<Byte>)
    | PObjComma(ctx: Ctx, members: Members, ws: seq<Byte>)
    | PStr(ctx: Ctx, cs: Chars, tail: seq<Byte>)
    | PKey(ctx: Ctx, members: Members, pre: seq<Byte>, cs: Chars, tail: seq<Byte>)
    | PColon(ctx: Ctx, members: Members, pre: seq<Byte>, key: Chars, ws: seq<Byte>)
    | PNum(ctx: Ctx, num: Number)
    | PLit(ctx: Ctx, lit: nat, pos: nat)
    | PArrNext(ctx: Ctx, items: Items)
    | PObjNext(ctx: Ctx, members: Members)
    | PDone(d: Document)

  // ----- the text read so far

  function CtxText(ctx: Ctx): seq<Byte> {
    match ctx
    case Top(pre) => pre
    case InArr(up, items, pre) => CtxText(up) + [LBRACKET] + RenderItemsThen(items) + pre
    case InObj(up, members, pre, key, preColon, postColon) =>
      CtxText(up) + [LBRACE] + RenderMembersThen(members) + RenderKey(pre, key, preColon, postColon)
  }

  function Text(p: Partial): seq<Byte> {
    match p
    case PValue(ctx) => CtxText(ctx)
    case PArrFirst(ctx) => CtxText(ctx) + [LBRACKET]
    case PObjFirst(ctx, ws) => CtxText(ctx) + [LBRACE] + ws
    case PObjComma(ctx, members, ws) => CtxText(ctx) + [LBRACE] + RenderMembersThen(members) + ws
    case PStr(ctx, cs, tail) => CtxText(ctx) + [QUOTE] + cs.Render() + tail
    case PKey(ctx, members, pre, cs, tail) =>
      CtxText(ctx) + [LBRACE] + RenderMembersThen(members) + pre + [QUOTE] + cs.Render() + tail
    case PColon(ctx, members, pre, key, ws) =>
      CtxText(ctx) + [LBRACE] + RenderMembersThen(members) + pre + [QUOTE] + key.Render() + [QUOTE] + ws
    case PNum(ctx, num) => CtxText(ctx) + num.Render()
    case PLit(ctx, lit, pos) =>
      CtxText(ctx) + if lit < 3 && pos <= |Literal(lit)| then Literal(lit)[..pos] else []
    case PArrNext(ctx, items) => CtxText(ctx) + [LBRACKET] + RenderItems(items)
    case PObjNext(ctx, members) => CtxText(ctx) + [LBRACE] + RenderMembers(members)
    case PDone(d) => RenderDocument(d)
  }

  /** The number state after the bytes of `num`, which may lack its tail. */
  function Class(num: Number): NumState {
    if num.exp != [] then
      if |num.exp| == 1 then Exp
      else if |num.exp| == 2 && !IsDigit(num.exp[1]) then ExpSign
      else ExpDigits
    else if num.frac != [] then (if |num.frac| == 1 then Dot else Frac)
    else if num.whole == [] then Minus
    else if |num.whole| == 1 && num.whole[0] == ZERO then Zero
    else Int
  }

  // ----- the automaton's value

  function StackOf(ctx: Ctx): seq<bool> {
    match ctx
    case Top(_) => []
    case InArr(up, _, _) => StackOf(up) + [true]
    case InObj(up, _, _, _, _, _) => StackOf(up) + [false]
  }

  function StrState(tail: seq<Byte>, key: bool): State {
    if |tail| == 1 then Str(true, 0, key)
    else if 2 <= |tail| <= 5 then Str(false, 6 - |tail|, key)
    else Str(false, 0, key)
  }

  function StrWs(cs: Chars, tail: seq<Byte>): nat {
    if tail == [] then TrailingWs(cs.Render()) else 0
  }

  function PostWs(v: Json, post: seq<Byte>): nat {
    if post == [] then 0 else |post| + if v.JNum? then 1 else 0
  }

  function Abs(p: Partial): Machine {
    match p
    case PValue(ctx) => Machine(StackOf(ctx), Value, if ctx.InObj? then |ctx.postColon| else |ctx.pre|)
    case PArrFirst(ctx) => Machine(StackOf(ctx) + [true], ArrFirst, 0)
    case PObjFirst(ctx, ws) => Machine(StackOf(ctx) + [false], ObjFirst, |ws|)
    case PObjComma(ctx, _, ws) => Machine(StackOf(ctx) + [false], ObjComma, |ws|)
    case PStr(ctx, cs, tail) => Machine(StackOf(ctx), StrState(tail, false), StrWs(cs, tail))
    case PKey(ctx, _, _, cs, tail) => Machine(StackOf(ctx) + [false], StrState(tail, true), StrWs(cs, tail))
    case PColon(ctx, _, _, _, ws) => Machine(StackOf(ctx) + [false], State.Colon, |ws|)
    case PNum(ctx, num) => Machine(StackOf(ctx), Num(Class(num)), 0)
    case PLit(ctx, lit, pos) => Machine(StackOf(ctx), Lit(lit, pos), 0)
    case PArrNext(ctx, items) =>
      Machine(StackOf(ctx) + [true], ArrNext, if items.NoItems? then 0 else PostWs(items.v, items.post))
    case PObjNext(ctx, members) =>
      Machine(StackOf(ctx) + [false], ObjNext, if members.NoMembers? then 0 else PostWs(members.v, members.post))
    case PDone(d) => Machine([], Done, PostWs(d.v, d.post))
  }

  // ----- what has been read is grammatical and within bounds

  function Room(ctx: Ctx): int {
    MAX_DEPTH - |StackOf(ctx)|
  }

  predicate Short(ws: seq<Byte>) {
    AllWs(ws) && |ws| <= MAX_RUN
  }

  predicate GoodItems(items: Items, room: int) {
    room >= 0 && ValidItems(items) && BoundedItems(items, room)
  }

  predicate GoodMembers(members: Members, room: int) {
    room >= 0 && ValidMembers(members) && BoundedMembers(members, room)
  }

  predicate GoodKey(pre: seq<Byte>, key: Chars, preColon: seq<Byte>) {
    Short(pre) && GoodChars(key) && Short(preColon)
  }

  predicate GoodChars(cs: Chars) {
    cs.Valid() && RunsWithin(cs.Render(), MAX_RUN)
  }

  predicate GoodTail(tail: seq<Byte>) {
    || tail == []
    || tail == [BACKSLASH]
    || (2 <= |tail| <= 5 && tail[..2] == [BACKSLASH, LOWER_U] && forall i | 2 <= i < |tail| :: IsHex(tail[i]))
  }

  predicate GoodNumber(num: Number) {
    if num.whole == [] then num.minus && num.frac == [] && num.exp == []
    else
      && num.ValidInt()
      && (num.frac == [] || num.ValidFrac() || (num.frac == [DOT] && num.exp == []))
      && (|| num.exp == []
          || num.ValidExp()
          || (|num.exp| == 1 && IsExponentMark(num.exp[0]))
          || (|num.exp| == 2 && IsExponentMark(num.exp[0]) && (num.exp[1] == PLUS || num.exp[1] == MINUS)))
  }

  /** A container may open at `ctx`: it is not the root of a text that must be an object. */
  predicate NotRoot(ctx: Ctx, mode: Mode) {
    mode.ValueMode? || !ctx.Top?
  }

  predicate GoodCtx(ctx: Ctx, mode: Mode) {
    match ctx
    case Top(pre) => Short(pre)
    case InArr(up, items, pre) =>
      GoodCtx(up, mode) && NotRoot(up, mode) && GoodItems(items, Room(ctx)) && Short(pre)
    case InObj(up, members, pre, key, preColon, postColon) =>
      GoodCtx(up, mode) && GoodMembers(members, Room(ctx)) && GoodKey(pre, key, preColon) && Short(postColon)
  }

  /** Right after a value. A number is only there once something has ended it, so `Good` below asks for the whitespace
      that did. */
  predicate IsAfter(p: Partial) {
    || (p.PArrNext? && p.items.MoreItems?)
    || (p.PObjNext? && p.members.MoreMembers?)
    || p.PDone?
  }

  function LastValue(p: Partial): Json
    requires IsAfter(p)
  {
    if p.PArrNext? then p.items.v else if p.PObjNext? then p.members.v else p.d.v
  }

  function LastPost(p: Partial): seq<Byte>
    requires IsAfter(p)
  {
    if p.PArrNext? then p.items.post else if p.PObjNext? then p.members.post else p.d.post
  }

  predicate GoodAfter(p: Partial, mode: Mode) {
    && IsAfter(p)
    && match p
       case PArrNext(ctx, items) => GoodCtx(ctx, mode) && NotRoot(ctx, mode) && GoodItems(items, Room(ctx) - 1)
       case PObjNext(ctx, members) => GoodCtx(ctx, mode) && GoodMembers(members, Room(ctx) - 1)
       case PDone(d) => ValidDocument(d) && BoundedDocument(d) && (mode.ValueMode? || d.v.JObj?)
  }

  predicate Good(p: Partial, mode: Mode) {
    && (!p.PDone? ==> GoodCtx(p.ctx, mode))
    && match p
       case PValue(ctx) => true
       case PArrFirst(ctx) => NotRoot(ctx, mode) && Room(ctx) > 0
       case PObjFirst(ctx, ws) => Room(ctx) > 0 && Short(ws)
       case PObjComma(ctx, members, ws) =>
         members.MoreMembers? && GoodMembers(members, Room(ctx) - 1) && Short(ws)
       case PStr(ctx, cs, tail) => NotRoot(ctx, mode) && GoodChars(cs) && GoodTail(tail)
       case PKey(ctx, members, pre, cs, tail) =>
         GoodMembers(members, Room(ctx) - 1) && Short(pre) && GoodChars(cs) && GoodTail(tail)
       case PColon(ctx, members, pre, key, ws) => GoodMembers(members, Room(ctx) - 1) && GoodKey(pre, key, ws)
       case PNum(ctx, num) => NotRoot(ctx, mode) && GoodNumber(num)
       case PLit(ctx, lit, pos) => NotRoot(ctx, mode) && lit < 3 && 0 < pos < |Literal(lit)|
       case PArrNext(ctx, items) => GoodAfter(p, mode) && (LastValue(p).JNum? ==> LastPost(p) != [])
       case PObjNext(ctx, members) => GoodAfter(p, mode) && (LastValue(p).JNum? ==> LastPost(p) != [])
       case PDone(d) => GoodAfter(p, mode) && (LastValue(p).JNum? ==> LastPost(p) != [])
  }

  // ----- one byte

  lemma {:induction false} TrailingWsAppend(s: seq<Byte>, b: Byte)
    ensures TrailingWs(s + [b]) == if IsWs(b) then TrailingWs(s) + 1 else 0
  {
    assert (s + [b])[..|s|] == s;
  }

  lemma {:induction false} PopRestores(stack: seq<bool>, kind: bool)
    ensures (stack + [kind])[..|stack + [kind]| - 1] == stack
  {
  }

  lemma {:induction false} FirstByte(v: Json)
    requires Valid(v)
    ensures |Render(v)| > 0 && Render(v)[0] != RBRACKET && !IsWs(Render(v)[0])
  {
  }

  function WithWs(ctx: Ctx, b: Byte): Ctx {
    match ctx
    case Top(pre) => Top(pre + [b])
    case InArr(up, items, pre) => InArr(up, items, pre + [b])
    case InObj(up, members, pre, key, preColon, postColon) =>
      InObj(up, members, pre, key, preColon, postColon + [b])
  }

  /** The place after the finished value `v`. */
  function Complete(ctx: Ctx, v: Json): Partial {
    match ctx
    case Top(pre) => PDone(Document(pre, v, []))
    case InArr(up, items, pre) => PArrNext(up, MoreItems(items, pre, v, []))
    case InObj(up, members, pre, key, preColon, postColon) =>
      PObjNext(up, MoreMembers(members, pre, key, preColon, postColon, v, []))
  }

  function Started(ctx: Ctx, b: Byte): Partial {
    if b == LBRACE then PObjFirst(ctx, [])
    else if b == LBRACKET then PArrFirst(ctx)
    else if b == QUOTE then PStr(ctx, NoChars, [])
    else if b == MINUS then PNum(ctx, Number(true, [], [], []))
    else if IsDigit(b) then PNum(ctx, Number(false, [b], [], []))
    else PLit(ctx, if b == LOWER_T then 0 else if b == LOWER_F then 1 else 2, 1)
  }

  function Extended(num: Number, b: Byte): Number {
    match Class(num)
    case Minus => num.(whole := num.whole + [b])
    case Zero => if b == DOT then num.(frac := [b]) else num.(exp := [b])
    case Int =>
      if IsDigit(b) then num.(whole := num.whole + [b])
      else if b == DOT then num.(frac := [b])
      else num.(exp := [b])
    case Dot => num.(frac := num.frac + [b])
    case Frac => if IsDigit(b) then num.(frac := num.frac + [b]) else num.(exp := [b])
    case Exp => num.(exp := num.exp + [b])
    case ExpSign => num.(exp := num.exp + [b])
    case ExpDigits => num.(exp := num.exp + [b])
  }

  /** The unfinished escape `tail` and one more byte: a finished char, or a longer tail. */
  function StrByte(cs: Chars, tail: seq<Byte>, b: Byte): (Chars, seq<Byte>) {
    if tail == [] then
      if b == BACKSLASH then (cs, [b]) else (MoreChars(cs, Plain(b)), [])
    else if |tail| == 1 && b != LOWER_U then (MoreChars(cs, Escape(b)), [])
    else if |tail| == 5 then (MoreChars(cs, Unicode(tail[2..] + [b])), [])
    else (cs, tail + [b])
  }

  function AfterByte(p: Partial, b: Byte): Partial
    requires p.PArrNext? || p.PObjNext? || p.PDone?
  {
    match p
    case PArrNext(ctx, items) =>
      if b == COMMA then PValue(InArr(ctx, items, []))
      else if b == RBRACKET || items.NoItems? then Complete(ctx, JArr([], items))
      else PArrNext(ctx, items.(post := items.post + [b]))
    case PObjNext(ctx, members) =>
      if b == COMMA then PObjComma(ctx, members, [])
      else if b == RBRACE || members.NoMembers? then Complete(ctx, JObj([], members))
      else PObjNext(ctx, members.(post := members.post + [b]))
    case PDone(d) => PDone(d.(post := d.post + [b]))
  }

  /** The tree after one more byte, for the bytes the automaton accepts. */
  function Advance(p: Partial, b: Byte): Partial {
    match p
    case PValue(ctx) => if IsWs(b) then PValue(WithWs(ctx, b)) else Started(ctx, b)
    case PArrFirst(ctx) =>
      if b == RBRACKET then Complete(ctx, JArr([], NoItems))
      else if IsWs(b) then PValue(InArr(ctx, NoItems, [b]))
      else Started(InArr(ctx, NoItems, []), b)
    case PObjFirst(ctx, ws) =>
      if b == QUOTE then PKey(ctx, NoMembers, ws, NoChars, [])
      else if b == RBRACE then Complete(ctx, JObj(ws, NoMembers))
      else PObjFirst(ctx, ws + [b])
    case PObjComma(ctx, members, ws) =>
      if b == QUOTE then PKey(ctx, members, ws, NoChars, []) else PObjComma(ctx, members, ws + [b])
    case PStr(ctx, cs, tail) =>
      if tail == [] && b == QUOTE then Complete(ctx, JStr(cs))
      else var (cs', tail') := StrByte(cs, tail, b); PStr(ctx, cs', tail')
    case PKey(ctx, members, pre, cs, tail) =>
      if tail == [] && b == QUOTE then PColon(ctx, members, pre, cs, [])
      else var (cs', tail') := StrByte(cs, tail, b); PKey(ctx, members, pre, cs', tail')
    case PColon(ctx, members, pre, key, ws) =>
      if b == COLON then PValue(InObj(ctx, members, pre, key, ws, []))
      else PColon(ctx, members, pre, key, ws + [b])
    case PNum(ctx, num) =>
      if NextNum(Class(num), b).Some? then PNum(ctx, Extended(num, b))
      else AfterByte(Complete(ctx, JNum(num)), b)
    case PLit(ctx, lit, pos) =>
      if lit < 3 && pos + 1 == |Literal(lit)| then Complete(ctx, JLit(lit)) else PLit(ctx, lit, pos + 1)
    case PArrNext(ctx, items) => AfterByte(p, b)
    case PObjNext(ctx, members) => AfterByte(p, b)
    case PDone(d) => AfterByte(p, b)
  }

  /** What one accepted byte does to the tree. */
  predicate Follows(p: Partial, b: Byte, next: Partial, mode: Mode) {
    && Good(next, mode)
    && Step(Abs(p), b, mode) == Some(Abs(next))
    && Text(next) == Text(p) + [b]
  }

  lemma {:induction false} ItemText(up: Ctx, items: Items, pre: seq<Byte>, v: Json)
    ensures Text(Complete(InArr(up, items, pre), v)) == CtxText(InArr(up, items, pre)) + Render(v)
  {
    hide CtxText, Render, RenderItems;
    var t, a, r := CtxText(up) + [LBRACKET], RenderItemsThen(items), Render(v);
    CtxTextIs(InArr(up, items, pre));
    OneItem(items, pre, v);
    Assoc4(t, a, pre, r);
    Assoc(a, pre, r);
  }

  lemma {:induction false} OneItem(items: Items, pre: seq<Byte>, v: Json)
    ensures RenderItems(MoreItems(items, pre, v, [])) == RenderItemsThen(items) + pre + Render(v)
  {
    hide Render;
    Nil(RenderItemsThen(items) + pre + Render(v));
  }

  lemma {:induction false} OneMember(members: Members, pre: seq<Byte>, key: Chars, preColon: seq<Byte>,
        postColon: seq<Byte>, v: Json)
    ensures RenderMembers(MoreMembers(members, pre, key, preColon, postColon, v, []))
         == RenderMembersThen(members) + RenderKey(pre, key, preColon, postColon) + Render(v)
  {
    hide Render, RenderKey;
    Nil(RenderMembersThen(members) + RenderKey(pre, key, preColon, postColon) + Render(v));
  }

  lemma {:induction false} CtxTextIs(ctx: Ctx)
    ensures CtxText(ctx) == match ctx
      case Top(pre) => pre
      case InArr(up, items, pre) => CtxText(up) + [LBRACKET] + RenderItemsThen(items) + pre
      case InObj(up, members, pre, key, preColon, postColon) =>
        CtxText(up) + [LBRACE] + RenderMembersThen(members) + RenderKey(pre, key, preColon, postColon)
  {
    hide RenderItems, RenderMembers, RenderKey;
  }

  lemma {:induction false} MemberText(up: Ctx, members: Members, pre: seq<Byte>, key: Chars, preColon: seq<Byte>,
        postColon: seq<Byte>, v: Json)
    ensures var ctx := InObj(up, members, pre, key, preColon, postColon);
      Text(Complete(ctx, v)) == CtxText(ctx) + Render(v)
  {
    hide CtxText, Render, RenderMembers, RenderKey;
    var t, a, r := CtxText(up) + [LBRACE], RenderMembersThen(members), Render(v);
    var k := RenderKey(pre, key, preColon, postColon);
    CtxTextIs(InObj(up, members, pre, key, preColon, postColon));
    OneMember(members, pre, key, preColon, postColon, v);
    Assoc4(t, a, k, r);
    Assoc(a, k, r);
  }

  lemma {:induction false} CompleteText(ctx: Ctx, v: Json)
    ensures Text(Complete(ctx, v)) == CtxText(ctx) + Render(v)
  {
    match ctx
    case Top(pre) => Nil(pre + Render(v));
    case InArr(up, items, pre) => ItemText(up, items, pre, v);
    case InObj(up, members, pre, key, preColon, postColon) => MemberText(up, members, pre, key, preColon, postColon, v);
  }

  lemma {:induction false} CompleteIsGood(ctx: Ctx, v: Json, mode: Mode)
    requires GoodCtx(ctx, mode) && Valid(v) && |StackOf(ctx)| <= MAX_DEPTH && Bounded(v, Room(ctx))
    requires v.JObj? || NotRoot(ctx, mode)
    ensures GoodAfter(Complete(ctx, v), mode) && (!v.JNum? ==> Good(Complete(ctx, v), mode))
    ensures LastValue(Complete(ctx, v)) == v && LastPost(Complete(ctx, v)) == []
    ensures Abs(Complete(ctx, v)) == Machine(StackOf(ctx), AfterValue(StackOf(ctx)), 0)
  {
    match ctx
    case Top(_) =>
    case InArr(up, items, pre) =>
      assert GoodItems(MoreItems(items, pre, v, []), Room(ctx));
    case InObj(up, members, pre, key, preColon, postColon) =>
      assert GoodMembers(MoreMembers(members, pre, key, preColon, postColon, v, []), Room(ctx));
  }

  /** A started value's text, automaton and tree; `ctx` is where it goes. */
  lemma {:induction false} OpenFollows(ctx: Ctx, b: Byte, mode: Mode)
    requires Good(PValue(ctx), mode) && (b == LBRACE || b == LBRACKET || b == QUOTE)
    requires Step(Abs(PValue(ctx)), b, mode).Some?
    ensures Follows(PValue(ctx), b, Started(ctx, b), mode)
  {
    hide GoodCtx, CtxText;
  }

  lemma {:induction false} StartNumberFollows(ctx: Ctx, b: Byte, mode: Mode)
    requires Good(PValue(ctx), mode) && (b == MINUS || IsDigit(b)) && Step(Abs(PValue(ctx)), b, mode).Some?
    ensures Follows(PValue(ctx), b, Started(ctx, b), mode)
  {
    hide GoodCtx, CtxText;
    if IsDigit(b) {
      assert Number(false, [b], [], []).Render() == [b];
    }
  }

  lemma {:induction false} StartLiteralFollows(ctx: Ctx, b: Byte, mode: Mode)
    requires Good(PValue(ctx), mode) && (b == LOWER_T || b == LOWER_F || b == LOWER_N)
    requires Step(Abs(PValue(ctx)), b, mode).Some?
    ensures Follows(PValue(ctx), b, Started(ctx, b), mode)
  {
    hide GoodCtx, CtxText;
  }

  lemma {:induction false} WhatStarts(ctx: Ctx, b: Byte, mode: Mode)
    requires !IsWs(b) && Step(Abs(PValue(ctx)), b, mode).Some?
    ensures b == LBRACE || b == LBRACKET || b == QUOTE || b == MINUS || IsDigit(b)
      || b == LOWER_T || b == LOWER_F || b == LOWER_N
  {
  }

  lemma {:induction false} StartFollows(ctx: Ctx, b: Byte, mode: Mode)
    requires Good(PValue(ctx), mode) && !IsWs(b) && Step(Abs(PValue(ctx)), b, mode).Some?
    ensures Follows(PValue(ctx), b, Started(ctx, b), mode)
  {
    hide Good, Step, Abs, Started, Follows;
    WhatStarts(ctx, b, mode);
    if b == LBRACE || b == LBRACKET || b == QUOTE {
      OpenFollows(ctx, b, mode);
    } else if b == MINUS || IsDigit(b) {
      StartNumberFollows(ctx, b, mode);
    } else {
      StartLiteralFollows(ctx, b, mode);
    }
  }

  lemma {:induction false} WsFollows(ctx: Ctx, b: Byte, mode: Mode)
    requires Good(PValue(ctx), mode) && IsWs(b) && Step(Abs(PValue(ctx)), b, mode).Some?
    ensures Follows(PValue(ctx), b, PValue(WithWs(ctx, b)), mode)
  {
    match ctx
    case Top(_) =>
    case InArr(_, _, _) =>
    case InObj(up, members, pre, key, preColon, postColon) =>
      var t := CtxText(up) + [LBRACE] + RenderMembersThen(members);
      var k := pre + [QUOTE] + key.Render() + [QUOTE] + preColon + [COLON];
      assert t + (k + postColon) + [b] == t + (k + (postColon + [b]));
  }

  lemma {:induction false} ArrFirstFollows(ctx: Ctx, b: Byte, mode: Mode)
    requires Good(PArrFirst(ctx), mode) && Step(Abs(PArrFirst(ctx)), b, mode).Some?
    ensures Follows(PArrFirst(ctx), b, Advance(PArrFirst(ctx), b), mode)
  {
    var inner := InArr(ctx, NoItems, []);
    if b == RBRACKET {
      EmptyArrayFollows(ctx, mode);
    } else {
      assert CtxText(inner) == Text(PArrFirst(ctx));
      if IsWs(b) {
        WsFollows(inner, b, mode);
      } else {
        StartFollows(inner, b, mode);
      }
    }
  }

  lemma {:induction false} EmptyArrayFollows(ctx: Ctx, mode: Mode)
    requires Good(PArrFirst(ctx), mode)
    ensures Follows(PArrFirst(ctx), RBRACKET, Complete(ctx, JArr([], NoItems)), mode)
  {
    EmptyArraySteps(ctx, mode);
    hide Step, GoodCtx, CtxText;
    CompleteIsGood(ctx, JArr([], NoItems), mode);
    CompleteText(ctx, JArr([], NoItems));
    assert Render(JArr([], NoItems)) == [LBRACKET, RBRACKET];
  }

  lemma {:induction false} EmptyArraySteps(ctx: Ctx, mode: Mode)
    ensures Step(Abs(PArrFirst(ctx)), RBRACKET, mode) == Some(Abs(Complete(ctx, JArr([], NoItems))))
  {
    PopRestores(StackOf(ctx), true);
  }

  lemma {:induction false} ObjFirstKeyFollows(ctx: Ctx, ws: seq<Byte>, mode: Mode)
    requires Good(PObjFirst(ctx, ws), mode)
    ensures Follows(PObjFirst(ctx, ws), QUOTE, PKey(ctx, NoMembers, ws, NoChars, []), mode)
  {
    hide GoodCtx, CtxText;
    var t := CtxText(ctx) + [LBRACE];
    Nil(t);
    Nil(t + ws + [QUOTE]);
  }

  lemma {:induction false} ObjFirstWsFollows(ctx: Ctx, ws: seq<Byte>, b: Byte, mode: Mode)
    requires Good(PObjFirst(ctx, ws), mode) && Step(Abs(PObjFirst(ctx, ws)), b, mode).Some? && b != QUOTE && b != RBRACE
    ensures Follows(PObjFirst(ctx, ws), b, PObjFirst(ctx, ws + [b]), mode)
  {
    hide GoodCtx, CtxText;
    Assoc(CtxText(ctx) + [LBRACE], ws, [b]);
    TrailingWsAppend(ws, b);
  }

  lemma {:induction false} ObjFirstFollows(ctx: Ctx, ws: seq<Byte>, b: Byte, mode: Mode)
    requires Good(PObjFirst(ctx, ws), mode) && Step(Abs(PObjFirst(ctx, ws)), b, mode).Some?
    ensures Follows(PObjFirst(ctx, ws), b, Advance(PObjFirst(ctx, ws), b), mode)
  {
    hide Good, Step, Abs, Text, Complete;
    if b == QUOTE {
      ObjFirstKeyFollows(ctx, ws, mode);
    } else if b == RBRACE {
      EmptyObjectText(ctx, ws);
      EmptyObjectFollows(ctx, ws, mode);
    } else {
      ObjFirstWsFollows(ctx, ws, b, mode);
    }
  }

  lemma {:induction false} EmptyObjectText(ctx: Ctx, ws: seq<Byte>)
    ensures Text(Complete(ctx, JObj(ws, NoMembers))) == Text(PObjFirst(ctx, ws)) + [RBRACE]
  {
    hide CtxText;
    CompleteText(ctx, JObj(ws, NoMembers));
    Nil([LBRACE] + ws);
    Assoc4(CtxText(ctx), [LBRACE], ws, [RBRACE]);
    Assoc([LBRACE], ws, [RBRACE]);
  }

  lemma {:induction false} EmptyObjectFollows(ctx: Ctx, ws: seq<Byte>, mode: Mode)
    requires Good(PObjFirst(ctx, ws), mode)
    ensures Good(Complete(ctx, JObj(ws, NoMembers)), mode)
    ensures Step(Abs(PObjFirst(ctx, ws)), RBRACE, mode) == Some(Abs(Complete(ctx, JObj(ws, NoMembers))))
  {
    PopRestores(StackOf(ctx), false);
    CompleteIsGood(ctx, JObj(ws, NoMembers), mode);
  }

  lemma {:induction false} ObjCommaFollows(p: Partial, b: Byte, mode: Mode)
    requires p.PObjComma? && Good(p, mode) && Step(Abs(p), b, mode).Some?
    ensures Follows(p, b, Advance(p, b), mode)
  {
  }

  lemma {:induction false} ColonFollows(p: Partial, b: Byte, mode: Mode)
    requires p.PColon? && Good(p, mode) && Step(Abs(p), b, mode).Some?
    ensures Follows(p, b, Advance(p, b), mode)
  {
    if b == COLON {
      ColonText(CtxText(p.ctx) + [LBRACE] + RenderMembersThen(p.members), p.pre, p.key.Render(), p.ws);
    }
  }

  lemma {:induction false} ColonText(t: seq<Byte>, pre: seq<Byte>, k: seq<Byte>, ws: seq<Byte>)
    ensures t + pre + [QUOTE] + k + [QUOTE] + ws + [COLON] == t + (pre + [QUOTE] + k + [QUOTE] + ws + [COLON] + [])
  {
    var name := pre + [QUOTE] + k + [QUOTE] + ws + [COLON];
    Nil(name);
    assert t + pre + [QUOTE] + k + [QUOTE] + ws + [COLON] == t + name;
  }

  lemma {:induction false} LitGoesOn(p: Partial, b: Byte, mode: Mode)
    requires p.PLit? && Good(p, mode) && Step(Abs(p), b, mode).Some? && p.pos + 1 < |Literal(p.lit)|
    ensures Follows(p, b, p.(pos := p.pos + 1), mode)
  {
    hide GoodCtx, CtxText;
    var w := Literal(p.lit);
    assert w[..p.pos + 1] == w[..p.pos] + [b];
    Assoc(CtxText(p.ctx), w[..p.pos], [b]);
  }

  lemma {:induction false} LitEnds(p: Partial, b: Byte, mode: Mode)
    requires p.PLit? && Good(p, mode) && Step(Abs(p), b, mode).Some? && p.pos + 1 == |Literal(p.lit)|
    ensures Follows(p, b, Complete(p.ctx, JLit(p.lit)), mode)
  {
    hide CtxText;
    var w := Literal(p.lit);
    assert w == w[..p.pos] + [b];
    Assoc(CtxText(p.ctx), w[..p.pos], [b]);
    CompleteIsGood(p.ctx, JLit(p.lit), mode);
    CompleteText(p.ctx, JLit(p.lit));
    hide Complete;
  }

  lemma {:induction false} LitFollows(p: Partial, b: Byte, mode: Mode)
    requires p.PLit? && Good(p, mode) && Step(Abs(p), b, mode).Some?
    ensures Follows(p, b, Advance(p, b), mode)
  {
    hide Step, Abs, Follows, Complete;
    if p.pos + 1 == |Literal(p.lit)| {
      LitEnds(p, b, mode);
    } else {
      LitGoesOn(p, b, mode);
    }
  }

  // ----- strings

  /** The automaton accepts `b` inside a string, the escape `tail` being open. */
  predicate StrAccepts(cs: Chars, tail: seq<Byte>, b: Byte) {
    if tail == [] then b >= SPACE && b != QUOTE && (IsWs(b) ==> TrailingWs(cs.Render()) < MAX_RUN)
    else if |tail| == 1 then IsSimpleEscape(b) || b == LOWER_U
    else IsHex(b)
  }

  lemma {:induction false} AddChar(cs: Chars, c: Char)
    requires GoodChars(cs) && c.Valid()
    requires if c.Plain? then IsWs(c.b) ==> TrailingWs(cs.Render()) < MAX_RUN
             else forall i | 0 <= i < |c.Render()| :: !IsWs(c.Render()[i])
    ensures GoodChars(MoreChars(cs, c))
    ensures TrailingWs(MoreChars(cs, c).Render()) == if c.Plain? && IsWs(c.b) then TrailingWs(cs.Render()) + 1 else 0
  {
    var s := cs.Render();
    if c.Plain? {
      TrailingWsAppend(s, c.b);
      assert (s + [c.b])[..|s|] == s;
    } else {
      EscapeAppends(s, c.Render());
    }
  }

  /** One byte inside a string, on the tree: no byte is lost and the bounds are kept. */
  lemma {:induction false} StrByteText(cs: Chars, tail: seq<Byte>, b: Byte)
    requires GoodChars(cs) && GoodTail(tail) && StrAccepts(cs, tail, b)
    ensures
      var (cs', tail') := StrByte(cs, tail, b);
      && GoodChars(cs') && GoodTail(tail')
      && cs'.Render() + tail' == cs.Render() + tail + [b]
      && StrWs(cs', tail') == if IsWs(b) then StrWs(cs, tail) + 1 else 0
  {
    var s := cs.Render();
    Assoc(s, tail, [b]);
    Nil([b]);
    if tail == [] && b != BACKSLASH {
      AddChar(cs, Plain(b));
      Nil(s + [b]);
    } else if |tail| == 1 && b != LOWER_U {
      AddChar(cs, Escape(b));
      Nil(s + [BACKSLASH, b]);
      assert tail + [b] == [BACKSLASH, b];
    } else if |tail| == 5 {
      LastHexText(cs, tail, b);
    } else {
      OpenEscape(tail, b);
    }
  }

  lemma {:induction false} LastHexText(cs: Chars, tail: seq<Byte>, b: Byte)
    requires GoodChars(cs) && GoodTail(tail) && |tail| == 5 && IsHex(b)
    ensures
      var cs' := MoreChars(cs, Unicode(tail[2..] + [b]));
      GoodChars(cs') && cs'.Render() + [] == cs.Render() + (tail + [b]) && TrailingWs(cs'.Render()) == 0
  {
    UnicodeText(tail, b);
    AddChar(cs, Unicode(tail[2..] + [b]));
    Nil(cs.Render() + (tail + [b]));
  }

  lemma {:induction false} OpenEscape(tail: seq<Byte>, b: Byte)
    requires GoodTail(tail)
    requires if tail == [] then b == BACKSLASH else if |tail| == 1 then b == LOWER_U else |tail| < 5 && IsHex(b)
    ensures GoodTail(tail + [b])
  {
  }

  lemma {:induction false} UnicodeText(tail: seq<Byte>, b: Byte)
    requires |tail| == 5 && GoodTail(tail) && IsHex(b)
    ensures Unicode(tail[2..] + [b]).Valid() && Unicode(tail[2..] + [b]).Render() == tail + [b]
    ensures forall i | 0 <= i < 6 :: !IsWs((tail + [b])[i])
  {
    assert tail == tail[..2] + tail[2..];
  }

  /** The same byte on the automaton. */
  lemma {:induction false} StrByteStep(stack: seq<bool>, cs: Chars, tail: seq<Byte>, key: bool, b: Byte, mode: Mode)
    requires GoodTail(tail) && !(tail == [] && b == QUOTE)
    ensures
      var m := Machine(stack, StrState(tail, key), StrWs(cs, tail));
      var tail' := StrByte(cs, tail, b).1;
      var wsRun := if IsWs(b) then StrWs(cs, tail) + 1 else 0;
      Step(m, b, mode) == if StrAccepts(cs, tail, b) then Some(Machine(stack, StrState(tail', key), wsRun)) else None
  {
  }

  /** Bytes without whitespace end the run before them. */
  lemma {:induction false} EscapeAppends(s: seq<Byte>, e: seq<Byte>)
    requires e != [] && forall i | 0 <= i < |e| :: !IsWs(e[i])
    requires RunsWithin(s, MAX_RUN)
    ensures RunsWithin(s + e, MAX_RUN) && TrailingWs(s + e) == 0
    decreases |e|
  {
    var init := e[..|e| - 1];
    assert (s + e)[..|s + e| - 1] == s + init;
    if init == [] {
      assert s + init == s;
    } else {
      EscapeAppends(s, init);
    }
  }

  lemma {:induction false} StrFollows(ctx: Ctx, cs: Chars, tail: seq<Byte>, b: Byte, mode: Mode)
    requires Good(PStr(ctx, cs, tail), mode) && Step(Abs(PStr(ctx, cs, tail)), b, mode).Some?
    ensures Follows(PStr(ctx, cs, tail), b, Advance(PStr(ctx, cs, tail), b), mode)
  {
    hide CtxText, GoodCtx, GoodChars, GoodTail, Complete, StrAccepts;
    if tail == [] && b == QUOTE {
      StringEndText(ctx, cs);
      StringEndFollows(ctx, cs, mode);
    } else {
      var t := CtxText(ctx) + [QUOTE];
      StrByteStep(StackOf(ctx), cs, tail, false, b, mode);
      StrByteText(cs, tail, b);
      var (cs', tail') := StrByte(cs, tail, b);
      AppendAfter(t, cs.Render(), tail, b, cs'.Render(), tail');
    }
  }

  lemma {:induction false} StringEndText(ctx: Ctx, cs: Chars)
    ensures Text(Complete(ctx, JStr(cs))) == Text(PStr(ctx, cs, [])) + [QUOTE]
  {
    CompleteText(ctx, JStr(cs));
    var t, s := CtxText(ctx), cs.Render();
    assert t + [QUOTE] + s + [] + [QUOTE] == t + ([QUOTE] + s + [QUOTE]);
  }

  lemma {:induction false} StringEndStep(stack: seq<bool>, cs: Chars, ws: nat, mode: Mode)
    ensures Step(Machine(stack, StrState([], false), ws), QUOTE, mode)
         == Some(Machine(stack, AfterValue(stack), 0))
  {
  }

  lemma {:induction false} StringEndFollows(ctx: Ctx, cs: Chars, mode: Mode)
    requires Good(PStr(ctx, cs, []), mode)
    ensures Good(Complete(ctx, JStr(cs)), mode)
    ensures Step(Abs(PStr(ctx, cs, [])), QUOTE, mode) == Some(Abs(Complete(ctx, JStr(cs))))
  {
    StringEndStep(StackOf(ctx), cs, Abs(PStr(ctx, cs, [])).wsRun, mode);
    hide CtxText, Complete, Step, AfterValue;
    CompleteIsGood(ctx, JStr(cs), mode);
  }

  lemma {:induction false} AppendAfter(t: seq<Byte>, s: seq<Byte>, tail: seq<Byte>, b: Byte, s': seq<Byte>,
        tail': seq<Byte>)
    requires s' + tail' == s + tail + [b]
    ensures t + s' + tail' == t + s + tail + [b]
  {
    assert t + s + tail + [b] == t + (s + tail + [b]);
    assert t + s' + tail' == t + (s' + tail');
  }

  lemma {:induction false} KeyEndFollows(p: Partial, mode: Mode)
    requires p.PKey? && Good(p, mode) && p.tail == []
    ensures Follows(p, QUOTE, PColon(p.ctx, p.members, p.pre, p.cs, []), mode)
  {
    hide GoodCtx, GoodMembers, CtxText, RenderMembersThen;
    var t := CtxText(p.ctx) + [LBRACE] + RenderMembersThen(p.members) + p.pre + [QUOTE];
    Nil(t + p.cs.Render());
    Nil(t + p.cs.Render() + [QUOTE]);
  }

  lemma {:induction false} KeyByteFollows(p: Partial, b: Byte, mode: Mode)
    requires p.PKey? && Good(p, mode) && Step(Abs(p), b, mode).Some? && !(p.tail == [] && b == QUOTE)
    ensures Follows(p, b, Advance(p, b), mode)
  {
    hide GoodCtx, GoodMembers, CtxText, RenderMembersThen, StrByte;
    var PKey(ctx, members, pre, cs, tail) := p;
    var t := CtxText(ctx) + [LBRACE] + RenderMembersThen(members) + pre + [QUOTE];
    StrByteStep(StackOf(ctx) + [false], cs, tail, true, b, mode);
    StrByteText(cs, tail, b);
    var (cs', tail') := StrByte(cs, tail, b);
    AppendAfter(t, cs.Render(), tail, b, cs'.Render(), tail');
  }

  lemma {:induction false} KeyFollows(p: Partial, b: Byte, mode: Mode)
    requires p.PKey? && Good(p, mode) && Step(Abs(p), b, mode).Some?
    ensures Follows(p, b, Advance(p, b), mode)
  {
    hide Good, Follows, Step, Abs;
    if p.tail == [] && b == QUOTE {
      KeyEndFollows(p, mode);
    } else {
      KeyByteFollows(p, b, mode);
    }
  }

  // ----- numbers

  lemma {:induction false} DigitsAppend(s: seq<Byte>, from: nat, b: Byte)
    requires from <= |s| && AllDigits(s[from..]) && IsDigit(b)
    ensures AllDigits((s + [b])[from..])
  {
    assert (s + [b])[from..] == s[from..] + [b];
  }

  lemma {:induction false} ExpExtends(num: Number, b: Byte)
    requires GoodNumber(num) && num.exp != [] && NextNum(Class(num), b).Some?
    ensures GoodNumber(Extended(num, b)) && Extended(num, b) == num.(exp := num.exp + [b])
    ensures Some(Class(Extended(num, b))) == NextNum(Class(num), b)
  {
    if num.ValidExp() {
      if AllDigits(num.exp[1..]) {
        assert num.exp[1] == num.exp[1..][0];
        DigitsAppend(num.exp, 1, b);
      } else {
        DigitsAppend(num.exp, 2, b);
      }
    } else {
      assert (num.exp + [b])[|num.exp|..] == [b];
    }
  }

  lemma {:induction false} FracExtends(num: Number, b: Byte)
    requires GoodNumber(num) && num.exp == [] && num.frac != [] && NextNum(Class(num), b).Some?
    ensures GoodNumber(Extended(num, b))
    ensures Extended(num, b) == if IsDigit(b) then num.(frac := num.frac + [b]) else num.(exp := [b])
    ensures Some(Class(Extended(num, b))) == NextNum(Class(num), b)
  {
    if IsDigit(b) {
      if num.ValidFrac() {
        DigitsAppend(num.frac, 1, b);
      } else {
        assert (num.frac + [b])[1..] == [b];
      }
    }
  }

  lemma {:induction false} WholeExtends(num: Number, b: Byte)
    requires GoodNumber(num) && num.exp == [] && num.frac == [] && NextNum(Class(num), b).Some?
    ensures GoodNumber(Extended(num, b))
    ensures Extended(num, b) ==
      if IsDigit(b) then num.(whole := num.whole + [b])
      else if b == DOT then num.(frac := [b])
      else num.(exp := [b])
    ensures Some(Class(Extended(num, b))) == NextNum(Class(num), b)
  {
  }

  lemma {:induction false} NumberExtends(num: Number, b: Byte)
    requires GoodNumber(num) && NextNum(Class(num), b).Some?
    ensures GoodNumber(Extended(num, b))
    ensures Some(Class(Extended(num, b))) == NextNum(Class(num), b)
    ensures Extended(num, b).Render() == num.Render() + [b]
  {
    var sign := if num.minus then [MINUS] else [];
    if num.exp != [] {
      ExpExtends(num, b);
      Assoc(sign + num.whole + num.frac, num.exp, [b]);
    } else if num.frac != [] {
      FracExtends(num, b);
      Assoc(sign + num.whole, num.frac, [b]);
      Nil(sign + num.whole + num.frac);
      Nil(sign + num.whole + num.frac + [b]);
    } else {
      WholeExtends(num, b);
      Assoc(sign, num.whole, [b]);
      Nil(sign + num.whole);
      Nil(sign + num.whole + [b]);
    }
  }

  lemma {:induction false} CompleteNumber(num: Number)
    requires GoodNumber(num) && Class(num).Complete()
    ensures num.Valid()
  {
  }

  lemma {:induction false} NumGoesOn(ctx: Ctx, num: Number, b: Byte, mode: Mode)
    requires Good(PNum(ctx, num), mode) && NextNum(Class(num), b).Some?
    ensures Follows(PNum(ctx, num), b, PNum(ctx, Extended(num, b)), mode)
  {
    hide GoodCtx, Extended, GoodNumber, Class;
    NumberExtends(num, b);
    Assoc(CtxText(ctx), num.Render(), [b]);
  }

  lemma {:induction false} NumCloses(ctx: Ctx, num: Number, b: Byte, mode: Mode)
    requires Good(PNum(ctx, num), mode) && Step(Abs(PNum(ctx, num)), b, mode).Some? && NextNum(Class(num), b).None?
    ensures Follows(PNum(ctx, num), b, AfterByte(Complete(ctx, JNum(num)), b), mode)
  {
    CompleteNumber(num);
    CompleteIsGood(ctx, JNum(num), mode);
    CompleteText(ctx, JNum(num));
    NumberCloses(ctx, num, b, mode);
    hide GoodCtx, GoodNumber, CtxText, AfterByte;
    AfterFollows(Complete(ctx, JNum(num)), b, mode);
  }

  lemma {:induction false} NumFollows(ctx: Ctx, num: Number, b: Byte, mode: Mode)
    requires Good(PNum(ctx, num), mode) && Step(Abs(PNum(ctx, num)), b, mode).Some?
    ensures Follows(PNum(ctx, num), b, Advance(PNum(ctx, num), b), mode)
  {
    hide Good, Step, Follows, Class, Extended, AfterByte, Complete;
    if NextNum(Class(num), b).Some? {
      NumGoesOn(ctx, num, b, mode);
    } else {
      NumCloses(ctx, num, b, mode);
    }
  }

  /** A byte after a value; `wsRun` aside for the first whitespace byte after a number. */
  lemma {:induction false} AfterFollows(p: Partial, b: Byte, mode: Mode)
    requires GoodAfter(p, mode) && Step(Abs(p), b, mode).Some?
    ensures
      var next, m := AfterByte(p, b), Step(Abs(p), b, mode).value;
      && Good(next, mode)
      && Text(next) == Text(p) + [b]
      && Abs(next) == m.(wsRun := if IsWs(b) && LastValue(p).JNum? && LastPost(p) == [] then 2 else m.wsRun)
  {
    match p
    case PArrNext(ctx, items) => ArrNextFollows(ctx, items, b, mode);
    case PObjNext(ctx, members) => ObjNextFollows(ctx, members, b, mode);
    case PDone(d) =>
      assert RenderDocument(d.(post := d.post + [b])) == RenderDocument(d) + [b];
  }

  lemma {:induction false} ArrNextFollows(ctx: Ctx, items: Items, b: Byte, mode: Mode)
    requires GoodAfter(PArrNext(ctx, items), mode) && Step(Abs(PArrNext(ctx, items)), b, mode).Some?
    ensures
      var p := PArrNext(ctx, items);
      var next, m := AfterByte(p, b), Step(Abs(p), b, mode).value;
      && Good(next, mode)
      && Text(next) == Text(p) + [b]
      && Abs(next) == m.(wsRun := if IsWs(b) && items.v.JNum? && items.post == [] then 2 else m.wsRun)
  {
    hide Text;
    ArrNextText(ctx, items, b);
    if b == RBRACKET {
      ArrayEndFollows(ctx, items, mode);
    }
  }

  lemma {:induction false} ArrayEndFollows(ctx: Ctx, items: Items, mode: Mode)
    requires GoodAfter(PArrNext(ctx, items), mode)
    ensures Good(Complete(ctx, JArr([], items)), mode)
    ensures Step(Abs(PArrNext(ctx, items)), RBRACKET, mode) == Some(Abs(Complete(ctx, JArr([], items))))
  {
    hide Complete;
    PopRestores(StackOf(ctx), true);
    CompleteIsGood(ctx, JArr([], items), mode);
  }

  lemma {:induction false} ClosedArrayText(ctx: Ctx, items: Items)
    ensures Text(Complete(ctx, JArr([], items))) == Text(PArrNext(ctx, items)) + [RBRACKET]
  {
    hide CtxText, RenderItems;
    CompleteText(ctx, JArr([], items));
    Nil([LBRACKET]);
    hide Text, Complete;
    Assoc4(CtxText(ctx), [LBRACKET], RenderItems(items), [RBRACKET]);
    Assoc([LBRACKET], RenderItems(items), [RBRACKET]);
    NextTexts(ctx, NoMembers, items);
  }

  lemma {:induction false} ArrCommaText(ctx: Ctx, items: Items)
    requires items.MoreItems?
    ensures Text(PValue(InArr(ctx, items, []))) == Text(PArrNext(ctx, items)) + [COMMA]
  {
    CtxTextIs(InArr(ctx, items, []));
    hide CtxText, RenderItems;
    Assoc(CtxText(ctx) + [LBRACKET], RenderItems(items), [COMMA]);
    Nil(CtxText(ctx) + [LBRACKET] + (RenderItems(items) + [COMMA]));
  }

  lemma {:induction false} ArrWsText(ctx: Ctx, items: Items, b: Byte)
    requires items.MoreItems?
    ensures Text(PArrNext(ctx, items.(post := items.post + [b]))) == Text(PArrNext(ctx, items)) + [b]
  {
    hide CtxText, RenderItemsThen, Render;
    var s := RenderItemsThen(items.init) + items.pre + Render(items.v);
    Assoc(s, items.post, [b]);
    Assoc(CtxText(ctx) + [LBRACKET], s + items.post, [b]);
  }

  lemma {:induction false} ArrNextText(ctx: Ctx, items: Items, b: Byte)
    requires items.MoreItems? && (b == COMMA || b == RBRACKET || IsWs(b))
    ensures Text(AfterByte(PArrNext(ctx, items), b)) == Text(PArrNext(ctx, items)) + [b]
  {
    hide Text, Complete;
    if b == RBRACKET {
      ClosedArrayText(ctx, items);
    } else if b == COMMA {
      ArrCommaText(ctx, items);
    } else {
      ArrWsText(ctx, items, b);
    }
  }

  lemma {:induction false} ObjNextFollows(ctx: Ctx, members: Members, b: Byte, mode: Mode)
    requires GoodAfter(PObjNext(ctx, members), mode) && Step(Abs(PObjNext(ctx, members)), b, mode).Some?
    ensures
      var p := PObjNext(ctx, members);
      var next, m := AfterByte(p, b), Step(Abs(p), b, mode).value;
      && Good(next, mode)
      && Text(next) == Text(p) + [b]
      && Abs(next) == m.(wsRun := if IsWs(b) && members.v.JNum? && members.post == [] then 2 else m.wsRun)
  {
    hide Text, GoodCtx, StackOf;
    ObjNextText(ctx, members, b);
    if b == RBRACE {
      ObjectEndFollows(ctx, members, mode);
    }
  }

  lemma {:induction false} ObjectEndFollows(ctx: Ctx, members: Members, mode: Mode)
    requires GoodAfter(PObjNext(ctx, members), mode)
    ensures Good(Complete(ctx, JObj([], members)), mode)
    ensures Step(Abs(PObjNext(ctx, members)), RBRACE, mode) == Some(Abs(Complete(ctx, JObj([], members))))
  {
    hide Complete;
    PopRestores(StackOf(ctx), false);
    CompleteIsGood(ctx, JObj([], members), mode);
  }

  lemma {:induction false} ClosedObjectText(ctx: Ctx, members: Members)
    ensures Text(Complete(ctx, JObj([], members))) == Text(PObjNext(ctx, members)) + [RBRACE]
  {
    hide CtxText, RenderMembers;
    CompleteText(ctx, JObj([], members));
    Nil([LBRACE]);
    hide Text, Complete;
    Assoc4(CtxText(ctx), [LBRACE], RenderMembers(members), [RBRACE]);
    Assoc([LBRACE], RenderMembers(members), [RBRACE]);
    assert Text(PObjNext(ctx, members)) == CtxText(ctx) + [LBRACE] + RenderMembers(members) by {
      NextTexts(ctx, members, NoItems);
    }
  }

  lemma {:induction false} NextTexts(ctx: Ctx, members: Members, items: Items)
    ensures Text(PObjNext(ctx, members)) == CtxText(ctx) + [LBRACE] + RenderMembers(members)
    ensures Text(PArrNext(ctx, items)) == CtxText(ctx) + [LBRACKET] + RenderItems(items)
  {
  }

  lemma {:induction false} ObjCommaText(ctx: Ctx, members: Members)
    requires members.MoreMembers?
    ensures Text(PObjComma(ctx, members, [])) == Text(PObjNext(ctx, members)) + [COMMA]
  {
    hide CtxText, RenderMembers;
    Assoc(CtxText(ctx) + [LBRACE], RenderMembers(members), [COMMA]);
    Nil(CtxText(ctx) + [LBRACE] + (RenderMembers(members) + [COMMA]));
  }

  lemma {:induction false} ObjWsText(ctx: Ctx, members: Members, b: Byte)
    requires members.MoreMembers?
    ensures Text(PObjNext(ctx, members.(post := members.post + [b]))) == Text(PObjNext(ctx, members)) + [b]
  {
    hide CtxText, RenderMembersThen, RenderKey, Render;
    var MoreMembers(init, pre, key, preColon, postColon, v, post) := members;
    var s := RenderMembersThen(init) + RenderKey(pre, key, preColon, postColon) + Render(v);
    Assoc(s, post, [b]);
    Assoc(CtxText(ctx) + [LBRACE], s + post, [b]);
  }

  lemma {:induction false} ObjNextText(ctx: Ctx, members: Members, b: Byte)
    requires members.MoreMembers? && (b == COMMA || b == RBRACE || IsWs(b))
    ensures Text(AfterByte(PObjNext(ctx, members), b)) == Text(PObjNext(ctx, members)) + [b]
  {
    hide Text, Complete;
    if b == RBRACE {
      ClosedObjectText(ctx, members);
    } else if b == COMMA {
      ObjCommaText(ctx, members);
    } else {
      ObjWsText(ctx, members, b);
    }
  }

  /** A delimiter after a number is read as after a finished value, a whitespace byte counting twice. */
  lemma {:induction false} NumberCloses(ctx: Ctx, num: Number, b: Byte, mode: Mode)
    requires Step(Abs(PNum(ctx, num)), b, mode).Some? && NextNum(Class(num), b).None?
    ensures
      var closed := Step(Machine(StackOf(ctx), AfterValue(StackOf(ctx)), 0), b, mode);
      && Class(num).Complete()
      && closed.Some?
      && Step(Abs(PNum(ctx, num)), b, mode) == Some(closed.value.(wsRun := if IsWs(b) then 2 else 0))
      && closed.value.wsRun == if IsWs(b) then 1 else 0
  {
  }

  lemma {:induction false} StepFollows(p: Partial, b: Byte, mode: Mode)
    requires Good(p, mode) && Step(Abs(p), b, mode).Some?
    ensures Follows(p, b, Advance(p, b), mode)
  {
    match p
    case PValue(ctx) =>
      if IsWs(b) {
        WsFollows(ctx, b, mode);
      } else {
        StartFollows(ctx, b, mode);
      }
    case PArrFirst(ctx) => ArrFirstFollows(ctx, b, mode);
    case PObjFirst(ctx, ws) => ObjFirstFollows(ctx, ws, b, mode);
    case PObjComma(_, _, _) => ObjCommaFollows(p, b, mode);
    case PStr(ctx, cs, tail) => StrFollows(ctx, cs, tail, b, mode);
    case PKey(_, _, _, _, _) => KeyFollows(p, b, mode);
    case PColon(_, _, _, _, _) => ColonFollows(p, b, mode);
    case PNum(ctx, num) => NumFollows(ctx, num, b, mode);
    case PLit(_, _, _) => LitFollows(p, b, mode);
    case PArrNext(_, _) => AfterFollows(p, b, mode);
    case PObjNext(_, _) => AfterFollows(p, b, mode);
    case PDone(_) => AfterFollows(p, b, mode);
  }

  /** The tree of a text the automaton has read. */
  function Tree(s: seq<Byte>): Partial {
    if s == [] then PValue(Top([])) else Advance(Tree(s[..|s| - 1]), s[|s| - 1])
  }

  lemma {:induction false} RunBuildsTree(s: seq<Byte>, mode: Mode)
    requires Run(Initial(), s, mode).Some?
    ensures Good(Tree(s), mode) && Run(Initial(), s, mode) == Some(Abs(Tree(s))) && Text(Tree(s)) == s
  {
    if s != [] {
      var init, b := s[..|s| - 1], s[|s| - 1];
      RunBuildsTree(init, mode);
      StepFollows(Tree(init), b, mode);
      RunExtends(s, Tree(init), Tree(s), mode);
    }
  }

  lemma {:induction false} RunExtends(s: seq<Byte>, p: Partial, next: Partial, mode: Mode)
    requires s != [] && Run(Initial(), s[..|s| - 1], mode) == Some(Abs(p)) && Text(p) == s[..|s| - 1]
    requires Follows(p, s[|s| - 1], next, mode)
    ensures Run(Initial(), s, mode) == Some(Abs(next)) && Text(next) == s
  {
    hide Step, Text, Good, Abs;
    assert s == s[..|s| - 1] + [s[|s| - 1]];
  }

  /** The document an accepting tree holds. */
  function DocumentOf(p: Partial): Document
    requires p.PDone? || (p.PNum? && p.ctx.Top?)
  {
    if p.PDone? then p.d else Document(p.ctx.pre, JNum(p.num), [])
  }

  lemma {:induction false} AcceptedTextsAreBounded(s: seq<Byte>, mode: Mode)
    requires Accepts(s, mode)
    ensures Tree(s).PDone? || (Tree(s).PNum? && Tree(s).ctx.Top?)
    ensures
      var d := DocumentOf(Tree(s));
      RenderDocument(d) == s && ValidDocument(d) && BoundedDocument(d) && (mode.ValueMode? || d.v.JObj?)
  {
    RunBuildsTree(s, mode);
    var p := Tree(s);
    if p.PNum? {
      CompleteNumber(p.num);
      assert p.ctx.Top?;
      assert p.ctx.pre + p.num.Render() + [] == p.ctx.pre + p.num.Render();
    }
  }
}
