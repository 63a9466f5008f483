/**
 When guided decoding can go on with nothing but spaces (src/constrain.rs:1152-1174 promises that a byte
 other than whitespace is always left): only inside a string that an enum literal or a property name
 spells out, where every candidate has a space next.
 */
module OnlySpaces {
  import opened Wrappers
  import opened Sequences
  import opened JsonBytes
  import opened Automaton
  import opened JsonGrammar
  import opened JsonTree
  import JsonComplete
  import opened Guide
  import opened Conformance
  import opened Guided
  import GuidedSteps
  import opened NeverStuck

  /** Every text still in the running has a space at `pos`. */
  predicate SpaceNext(texts: seq<seq<Byte>>, alive: set<nat>, pos: nat) {
    forall i | 0 <= i < |texts| && i in alive :: pos < |texts[i]| && texts[i][pos] == SPACE
  }

  function Names(props: Props): (names: seq<seq<Byte>>)
    ensures |names| == |props| && forall i | 0 <= i < |props| :: names[i] == props[i].0
  {
    seq(|props|, i requires 0 <= i < |props| => props[i].0)
  }

  /** The value is a string of an enum, or the string is a key of a closed object, and every live literal or unused name
      has a space next. */
  predicate OnlySpaceLeft(arena: Arena, w: Walker) {
    && w.m.state.Str?
    && match w.g.val
       case EnumScan(id, alive, pos) =>
         !w.m.state.key && NodeAt(arena, id).Enum? && SpaceNext(NodeAt(arena, id).literals, alive, pos)
       case KeyScan(alive, pos, any) =>
         && w.m.state.key && !any && w.g.levels != [] && NodeAt(arena, w.g.Last().node).Object?
         && SpaceNext(Names(NodeAt(arena, w.g.Last().node).props), alive, pos)
       case _ => false
  }

  // ----- then only spaces go on

  /** The events of a byte inside a string. */
  lemma {:induction false} StringEvents(m: Machine, b: Byte, mode: Mode)
    requires m.state.Str? && Step(m, b, mode).Some?
    ensures var ev := EventsOf(m.state, b, Step(m, b, mode).value.state);
      && !ev.valueStart && !ev.objClose && !ev.arrClose && !ev.keyStart && !ev.objComma
      && ev.scalarEnd == (b == QUOTE && !m.state.esc && m.state.uni == 0 && !m.state.key)
      && ev.keyEnd == (b == QUOTE && !m.state.esc && m.state.uni == 0 && m.state.key)
    ensures IsWs(b) ==> b == SPACE
  {
  }

  lemma {:induction false} NoneOfLength(props: Props, alive: set<nat>, pos: nat, from: nat)
    requires SpaceNext(Names(props), alive, pos)
    ensures FirstOfLength(props, alive, pos, from).None?
    decreases |props| - from
  {
    if from < |props| {
      assert Names(props)[from] == props[from].0;
      NoneOfLength(props, alive, pos, from + 1);
    }
  }

  lemma {:induction false} SpacesOnly(arena: Arena, root: NodeId, mode: Mode, w: Walker, b: Byte)
    requires OnlySpaceLeft(arena, w) && WalkByte(arena, root, mode, w, b).Some?
    ensures b == SPACE
  {
    hide Step, EventsOf;
    StringEvents(w.m, b, mode);
    if w.g.val.KeyScan? {
      var props := NodeAt(arena, w.g.Last().node).props;
      NoneOfLength(props, w.g.val.alive, w.g.val.pos, 0);
      assert forall i | 0 <= i < |props| :: Names(props)[i] == props[i].0;
    }
  }

  // ----- otherwise some other byte goes on

  /** A byte that goes on in any string the schema leaves free. */
  function Filler(state: State): Byte
    requires state.Str?
  {
    if state.uni > 0 then ZERO else if state.esc then LOWER_N else LOWER_T
  }

  lemma {:induction false} FillerSteps(m: Machine, mode: Mode)
    requires m.state.Str?
    ensures Step(m, Filler(m.state), mode).Some?
    ensures !IsWs(Filler(m.state)) && Filler(m.state) != QUOTE
  {
  }

  lemma {:induction false} FreeStringGoesOn(arena: Arena, root: NodeId, mode: Mode, w: Walker)
    requires w.m.state.Str? && (w.g.val.Free? || (w.g.val.KeyScan? && w.g.val.any))
    ensures WalkByte(arena, root, mode, w, Filler(w.m.state)).Some? && !IsWs(Filler(w.m.state))
  {
    hide Step, EventsOf;
    FillerSteps(w.m, mode);
    StringEvents(w.m, Filler(w.m.state), mode);
  }

  /** A byte of a plain name steps a string that is not inside an escape. */
  lemma {:induction false} PlainSteps(m: Machine, b: Byte, mode: Mode)
    requires m.state.Str? && !m.state.esc && m.state.uni == 0 && b > SPACE && b != BACKSLASH
    ensures Step(m, b, mode).Some? && !IsWs(b)
  {
  }

  /** A live name goes on with its next byte, or with the closing quote. */
  lemma {:induction false} NameGoesOn(arena: Arena, root: NodeId, mode: Mode, w: Walker, i: nat)
    requires w.m.state == State.Str(false, 0, true) && w.g.val.KeyScan? && w.g.levels != []
    requires NodeAt(arena, w.g.Last().node).Object? && i < |NodeAt(arena, w.g.Last().node).props| && i in w.g.val.alive
    requires var name := NodeAt(arena, w.g.Last().node).props[i].0;
      PlainName(name) && |name| >= w.g.val.pos && !(|name| > w.g.val.pos && name[w.g.val.pos] == SPACE)
    ensures exists b: Byte :: WalkByte(arena, root, mode, w, b).Some? && !IsWs(b)
  {
    hide Step, EventsOf, RunsWithin;
    var name, pos := NodeAt(arena, w.g.Last().node).props[i].0, w.g.val.pos;
    var b := if |name| == pos then QUOTE else name[pos];
    PlainSteps(w.m, b, mode);
    StringEvents(w.m, b, mode);
    if |name| == pos {
      SomeOfLength(NodeAt(arena, w.g.Last().node).props, w.g.val.alive, pos, i, 0);
    }
    assert WalkByte(arena, root, mode, w, b).Some?;
  }

  lemma {:induction false} SomeOfLength(props: Props, alive: set<nat>, len: nat, i: nat, from: nat)
    requires from <= i < |props| && i in alive && |props[i].0| == len
    ensures FirstOfLength(props, alive, len, from).Some?
    decreases |props| - from
  {
    if from < i {
      SomeOfLength(props, alive, len, i, from + 1);
    }
  }

  // ----- an open string is no literal

  /** The bytes of whole characters never end in half an escape. */
  lemma {:induction false} NoHalfEscape(a: Chars, b: Chars)
    requires a.Valid() && b.Valid()
    ensures a.Render() + [BACKSLASH] != b.Render()
    decreases |a.Render()|
  {
    if b.MoreChars? {
      LastByte(b);
      if a.Render() + [BACKSLASH] == b.Render() {
        var s := b.Render();
        assert s[|s| - 1] == BACKSLASH;
        assert b.c == Escape(BACKSLASH);
        assert s == b.init.Render() + [BACKSLASH, BACKSLASH];
        WithoutLast(a.Render(), b.init.Render(), BACKSLASH, BACKSLASH);
        NoHalfEscape(b.init, a);
        assert false;
      }
    }
  }

  lemma {:induction false} WithoutLast(a: seq<Byte>, b: seq<Byte>, x: Byte, y: Byte)
    requires a + [x] == b + [y, x]
    ensures a == b + [y]
  {
    assert (a + [x])[..|a|] == a;
    assert (b + [y, x])[..|b| + 1] == b + [y];
  }

  lemma {:induction false} LastByte(cs: Chars)
    requires cs.MoreChars? && cs.c.Valid()
    ensures var s := cs.Render();
      && s != []
      && match cs.c
         case Plain(b) => s[|s| - 1] == b
         case Escape(b) => s[|s| - 1] == b
         case Unicode(hex) => s[|s| - 1] == hex[3]
  {
  }

  lemma {:induction false} OpenIsNotClosed(chars: Chars, cs: Chars, tail: seq<Byte>)
    requires chars.Valid() && cs.Valid() && GoodTail(tail)
    ensures chars.Render() + [QUOTE] != cs.Render() + tail
  {
    var s := chars.Render() + [QUOTE];
    if s == cs.Render() + tail {
      assert s[|s| - 1] == QUOTE;
      if tail == [] {
        assert cs.Render() + tail == cs.Render();
        LastByte(cs);
        assert cs.c == Escape(QUOTE);
        assert s == cs.init.Render() + [BACKSLASH, QUOTE];
        WithoutLast(chars.Render(), cs.init.Render(), QUOTE, BACKSLASH);
        NoHalfEscape(cs.init, chars);
        assert false;
      } else {
        assert false;
      }
    }
  }

  /** An open string under an enum is shorter than the literals it begins. */
  lemma {:induction false} OpenIsNoLiteral(p: Partial, lit: seq<Byte>)
    requires p.PStr? && GoodChars(p.cs) && GoodTail(p.tail) && IsScalarText(lit) && ScalarText(p) <= lit
    ensures |ScalarText(p)| < |lit|
  {
    hide Chars.Render, Chars.Valid, GoodTail, RunsWithin;
    var v := ScalarOf(lit);
    var s := ScalarText(p);
    LiteralIsString(v);
    OpenIsNotClosed(v.chars, p.cs, p.tail);
    Assoc([QUOTE], p.cs.Render(), p.tail);
    Assoc([QUOTE], v.chars.Render(), [QUOTE]);
    assert s == [QUOTE] + (p.cs.Render() + p.tail) && lit == [QUOTE] + (v.chars.Render() + [QUOTE]);
    assert s[1..] == p.cs.Render() + p.tail && lit[1..] == v.chars.Render() + [QUOTE];
  }

  lemma {:induction false} LiteralIsString(v: Json)
    requires Valid(v) && (v.JLit? || v.JNum? || v.JStr?)
    ensures Render(v) != [] && (Render(v)[0] == QUOTE ==> v.JStr? && v.chars.Valid())
  {
    GuidedSteps.ScalarTextsStart(v);
  }

  /** A live literal goes on with its next byte. */
  lemma {:induction false} LiteralGoesOnAt(arena: Arena, root: NodeId, mode: Mode, s: seq<Byte>, i: nat)
    requires Speakable(arena, root, mode) && Walk(arena, root, mode, InitialWalker(), s).Some?
    requires Tree(s).PStr? && Good(Tree(s), mode) && Viable(arena, root, Tree(s)) && Text(Tree(s)) == s
    requires var node := NodeAt(arena, NodeFor(arena, root, Tree(s).ctx));
      && node.Enum? && i < |node.literals| && ScalarText(Tree(s)) < node.literals[i]
    ensures var b := NodeAt(arena, NodeFor(arena, root, Tree(s).ctx)).literals[i][|ScalarText(Tree(s))|];
      WalkByte(arena, root, mode, Walk(arena, root, mode, InitialWalker(), s).value, b).Some?
  {
    hide Walk, WalkByte, Viable, NodeFor, CtxText, RenderDocument, Tree, Conforms, GuidedSteps.GuidedAccepts;
    var p := Tree(s);
    var ctx, id := p.ctx, NodeFor(arena, root, p.ctx);
    var lit := NodeAt(arena, id).literals[i];
    var b := lit[|ScalarText(p)|];
    var d := LiteralDocument(arena, root, mode, p, i);
    ScalarInside(p);
    var t := RenderDocument(d)[|s|..];
    NextInside(RenderDocument(d), CtxText(ctx), lit, s, ScalarText(p));
    GuidedSteps.GuidedTextsConform(arena, root, mode, s + t);
    AcceptedIsWalked(arena, root, mode, s + t);
    Assoc(s, [b], t[1..]);
    WalkPrefix(arena, root, mode, s + [b], t[1..]);
    WalkOne(arena, root, mode, s, b);
  }

  /** A text that starts as `before` and a literal go on, read to the end of part of the literal. */
  lemma {:induction false} NextInside(whole: seq<Byte>, before: seq<Byte>, lit: seq<Byte>, s: seq<Byte>,
        read: seq<Byte>)
    requires before + lit <= whole && read < lit && s == before + read
    ensures |s| < |whole| && whole == s + whole[|s|..]
    ensures whole[|s|..] == [lit[|read|]] + whole[|s|..][1..]
  {
    assert whole[..|before + lit|] == before + lit;
    assert whole[..|s|] == (before + lit)[..|s|] == s;
    assert whole[|s|] == (before + lit)[|s|] == lit[|read|];
  }

  lemma {:induction false} AcceptedIsWalked(arena: Arena, root: NodeId, mode: Mode, s: seq<Byte>)
    requires GuidedSteps.GuidedAccepts(arena, root, mode, s)
    ensures Walk(arena, root, mode, InitialWalker(), s).Some?
  {
  }

  /** The document in which the open string becomes the literal. */
  lemma {:induction false} LiteralDocument(arena: Arena, root: NodeId, mode: Mode, p: Partial, i: nat)
    returns (d: Document)
    requires Speakable(arena, root, mode) && p.PStr? && Good(p, mode) && Viable(arena, root, p)
    requires var node := NodeAt(arena, NodeFor(arena, root, p.ctx)); node.Enum? && i < |node.literals|
    ensures GuidedSteps.IsConformingText(arena, root, mode, RenderDocument(d))
    ensures CtxText(p.ctx) + NodeAt(arena, NodeFor(arena, root, p.ctx)).literals[i] <= RenderDocument(d)
  {
    var ctx, id := p.ctx, NodeFor(arena, root, p.ctx);
    GuidedSteps.DepthIsStack(ctx);
    ScalarLiteral(arena, root, mode, id, i, Depth(ctx), Room(ctx));
    var v := ScalarOf(NodeAt(arena, id).literals[i]);
    d := CloseUp(arena, root, ctx, v);
    CloseUpOk(arena, root, mode, ctx, v);
  }

  // ----- the states that are reached

  ghost predicate OtherByte(arena: Arena, root: NodeId, mode: Mode, w: Walker) {
    exists b: Byte :: WalkByte(arena, root, mode, w, b).Some? && !IsWs(b)
  }

  lemma {:induction false} StringOfTree(p: Partial)
    ensures p.PStr? || p.PKey? <==> Abs(p).state.Str?
    ensures p.PStr? ==> !Abs(p).state.key
    ensures p.PKey? ==> Abs(p).state.key && (p.tail == [] ==> Abs(p).state == State.Str(false, 0, true))
  {
  }

  /** A viable string value stands under an enum, or its guide lets every byte pass. */
  lemma {:induction false} StringVal(arena: Arena, root: NodeId, p: Partial)
    requires p.PStr? && Viable(arena, root, p)
    ensures var id := NodeFor(arena, root, p.ctx);
      ValOf(arena, root, p) ==
        if NodeAt(arena, id).Enum? then
          EnumScan(id, set i | 0 <= i < |NodeAt(arena, id).literals| && ScalarText(p) <= NodeAt(arena, id).literals[i],
            |ScalarText(p)|)
        else Free
  {
    hide NodeFor, CtxViable;
    assert ScalarText(p)[0] == QUOTE;
  }

  lemma {:induction false} ValueStringGoesOn(arena: Arena, root: NodeId, mode: Mode, s: seq<Byte>)
    requires Speakable(arena, root, mode) && Walk(arena, root, mode, InitialWalker(), s).Some?
    requires Tree(s).PStr? && Good(Tree(s), mode) && Viable(arena, root, Tree(s)) && Text(Tree(s)) == s
    requires var w := Walk(arena, root, mode, InitialWalker(), s).value;
      w.m == Abs(Tree(s)) && Tracks(arena, root, Tree(s), w.g) && !OnlySpaceLeft(arena, w)
    ensures OtherByte(arena, root, mode, Walk(arena, root, mode, InitialWalker(), s).value)
  {
    hide Walk, WalkByte, Viable, NodeFor, Tree, Text, Abs, LevelsTrack, Speakable;
    var p, w := Tree(s), Walk(arena, root, mode, InitialWalker(), s).value;
    StringOfTree(p);
    StringVal(arena, root, p);
    var node := NodeAt(arena, NodeFor(arena, root, p.ctx));
    if node.Enum? {
      var pos := |ScalarText(p)|;
      var i :| 0 <= i < |node.literals| && i in w.g.val.alive
        && !(pos < |node.literals[i]| && node.literals[i][pos] == SPACE);
      LiteralIsScalar(arena, root, mode, NodeFor(arena, root, p.ctx), i);
      GoodString(p, mode);
      OpenIsNoLiteral(p, node.literals[i]);
      LiteralGoesOnAt(arena, root, mode, s, i);
      ByteInString(arena, root, mode, w, node.literals[i][pos]);
    } else {
      FreeStringGoesOn(arena, root, mode, w);
    }
  }

  lemma {:induction false} LiteralIsScalar(arena: Arena, root: NodeId, mode: Mode, id: NodeId, i: nat)
    requires Speakable(arena, root, mode) && NodeAt(arena, id).Enum? && i < |NodeAt(arena, id).literals|
    ensures IsScalarText(NodeAt(arena, id).literals[i])
  {
  }

  lemma {:induction false} GoodString(p: Partial, mode: Mode)
    requires p.PStr? && Good(p, mode)
    ensures GoodChars(p.cs) && GoodTail(p.tail)
  {
  }

  lemma {:induction false} ByteInString(arena: Arena, root: NodeId, mode: Mode, w: Walker, b: Byte)
    requires w.m.state.Str? && WalkByte(arena, root, mode, w, b).Some?
    ensures IsWs(b) ==> b == SPACE
  {
    hide Step, EventsOf, OnByte;
    StringEvents(w.m, b, mode);
  }

  /** The guide of a key in a closed object. */
  lemma {:induction false} KeyGuide(arena: Arena, root: NodeId, p: Partial, g: Guide)
    requires p.PKey? && Tracks(arena, root, p, g)
    ensures g.val == KeyVal(Container(arena, root, p.ctx), p.members, p.cs.Render() + p.tail)
    ensures Container(arena, root, p.ctx).Object? ==>
      g.levels != [] && NodeAt(arena, g.Last().node) == Container(arena, root, p.ctx)
  {
    hide NodeFor, LevelsOf, Emitted;
  }

  lemma {:induction false} KeyStringGoesOn(arena: Arena, root: NodeId, mode: Mode, p: Partial, w: Walker)
    requires Speakable(arena, root, mode) && p.PKey? && Good(p, mode)
    requires w.m == Abs(p) && Tracks(arena, root, p, w.g) && !OnlySpaceLeft(arena, w)
    ensures OtherByte(arena, root, mode, w)
  {
    hide WalkByte, NodeFor, Abs, Tracks, Container, Emitted, Good, Speakable, PlainName;
    StringOfTree(p);
    KeyGuide(arena, root, p, w.g);
    var node, k := Container(arena, root, p.ctx), p.cs.Render() + p.tail;
    if node.Object? && !node.additional {
      var i :| 0 <= i < |node.props| && i in w.g.val.alive
        && !(|k| < |node.props[i].0| && node.props[i].0[|k|] == SPACE);
      NameIsPlain(arena, root, mode, p, i);
      NoTailInName(p, node.props[i].0, mode);
      NameGoesOn(arena, root, mode, w, i);
    } else {
      FreeStringGoesOn(arena, root, mode, w);
    }
  }

  lemma {:induction false} NameIsPlain(arena: Arena, root: NodeId, mode: Mode, p: Partial, i: nat)
    requires Speakable(arena, root, mode) && p.PKey? && Container(arena, root, p.ctx).Object?
    requires i < |Container(arena, root, p.ctx).props|
    ensures PlainName(Container(arena, root, p.ctx).props[i].0)
  {
    hide NodeFor, PlainName;
  }

  /** A plain name holds no escape, so its open key is inside none. */
  lemma {:induction false} NoTailInName(p: Partial, name: seq<Byte>, mode: Mode)
    requires p.PKey? && Good(p, mode) && PlainName(name) && p.cs.Render() + p.tail <= name
    ensures p.tail == []
  {
    hide GoodCtx, GoodMembers, GoodChars;
    NoBackslash(p.cs.Render(), p.tail, name);
  }

  lemma {:induction false} NoBackslash(k: seq<Byte>, tail: seq<Byte>, name: seq<Byte>)
    requires PlainName(name) && k + tail <= name
    ensures tail != [] ==> tail[0] != BACKSLASH
  {
    if tail != [] {
      assert name[|k|] == (k + tail)[|k|] == tail[0];
    }
  }

  lemma {:induction false} LeftInString(arena: Arena, w: Walker)
    ensures OnlySpaceLeft(arena, w) ==> w.m.state.Str? && !w.m.Accepting()
  {
  }

  /** Theorem: at every state that guided decoding can reach the text may stop or a byte other than whitespace goes on,
      with the one exception that `OnlySpaceLeft` describes; there a space goes on and nothing else does. */
  lemma {:induction false} OtherByteIff(arena: Arena, root: NodeId, mode: Mode, s: seq<Byte>)
    requires Speakable(arena, root, mode) && Walk(arena, root, mode, InitialWalker(), s).Some?
    ensures var w := Walk(arena, root, mode, InitialWalker(), s).value;
      && (w.m.Accepting() || OtherByte(arena, root, mode, w) <==> !OnlySpaceLeft(arena, w))
      && (OnlySpaceLeft(arena, w) ==> forall b: Byte :: WalkByte(arena, root, mode, w, b).Some? <==> b == SPACE)
  {
    hide Walk, WalkByte, Viable, Tracks, Tree, Text, Abs, Good, OnlySpaceLeft, SpeakableNode, NodeOk;
    var w := Walk(arena, root, mode, InitialWalker(), s).value;
    GuidedSteps.WalkIffViable(arena, root, mode, s);
    RunBuildsTree(s, mode);
    StringOfTree(Tree(s));
    SomeByteGoesOn(arena, root, mode, s);
    LeftInString(arena, w);
    if OnlySpaceLeft(arena, w) {
      forall b: Byte | WalkByte(arena, root, mode, w, b).Some?
        ensures b == SPACE
      {
        SpacesOnly(arena, root, mode, w, b);
      }
    } else if Tree(s).PStr? {
      ValueStringGoesOn(arena, root, mode, s);
    } else if Tree(s).PKey? {
      KeyStringGoesOn(arena, root, mode, Tree(s), w);
    }
  }
}
