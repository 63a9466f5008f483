/** The guide follows the tree byte by byte; see `Guided`. */
module GuidedSteps {
  import opened Wrappers
  import opened JsonBytes
  import opened Automaton
  import opened JsonGrammar
  import opened JsonTree
  import JsonComplete
  import opened Guide
  import opened Conformance
  import opened Guided

  // ----- depths and levels

  lemma {:induction false} DepthIsStack(ctx: Ctx)
    ensures |StackOf(ctx)| == Depth(ctx)
  {
    match ctx
    case Top(_) =>
    case InArr(up, _, _) => DepthIsStack(up);
    case InObj(up, _, _, _, _, _) => DepthIsStack(up);
  }

  lemma {:induction false} LevelCount(arena: Arena, root: NodeId, ctx: Ctx)
    ensures |LevelsOf(arena, root, ctx)| == if Depth(ctx) < GUIDED_DEPTH then Depth(ctx) else GUIDED_DEPTH
  {
    match ctx
    case Top(_) =>
    case InArr(up, _, _) => LevelCount(arena, root, up);
    case InObj(up, _, _, _, _, _) => LevelCount(arena, root, up);
  }

  /** The level of a guided container leads back to its node. */
  lemma {:induction false} LevelNode(arena: Arena, root: NodeId, ctx: Ctx, emitted: set<nat>, curProp: Option<nat>)
    requires WellFormed(arena, root) && Depth(ctx) < GUIDED_DEPTH
    ensures
      var at := NodeAt(arena, LevelAt(arena, root, ctx, emitted, curProp).node);
      var node := Container(arena, root, ctx);
      at == if node.Object? || node.Array? then node else Any
  {
  }

  lemma {:induction false} ExpectedIsNodeFor(arena: Arena, root: NodeId, ctx: Ctx, g: Guide)
    requires WellFormed(arena, root) && CtxViable(arena, root, ctx)
    requires g.levels == LevelsOf(arena, root, ctx) && g.overflow == |StackOf(ctx)| - |g.levels|
    ensures Expected(arena, root, g) == NodeFor(arena, root, ctx)
  {
    DepthIsStack(ctx);
    LevelCount(arena, root, ctx);
    if ctx.InArr? && Depth(ctx.up) < GUIDED_DEPTH {
      ExpectedInArray(arena, root, ctx, g);
    } else if ctx.InObj? && Depth(ctx.up) < GUIDED_DEPTH {
      ExpectedInObject(arena, root, ctx, g);
    }
  }

  lemma {:induction false} ExpectedInArray(arena: Arena, root: NodeId, ctx: Ctx, g: Guide)
    requires WellFormed(arena, root) && ctx.InArr? && Depth(ctx.up) < GUIDED_DEPTH
    requires g.levels == LevelsOf(arena, root, ctx) && g.overflow == 0
    ensures Expected(arena, root, g) == NodeFor(arena, root, ctx)
  {
    assert g.Last() == LevelAt(arena, root, ctx.up, {}, None);
    LevelNode(arena, root, ctx.up, {}, None);
  }

  lemma {:induction false} ExpectedInObject(arena: Arena, root: NodeId, ctx: Ctx, g: Guide)
    requires WellFormed(arena, root) && CtxViable(arena, root, ctx) && ctx.InObj? && Depth(ctx.up) < GUIDED_DEPTH
    requires g.levels == LevelsOf(arena, root, ctx) && g.overflow == 0
    ensures Expected(arena, root, g) == NodeFor(arena, root, ctx)
  {
    var level := KeyedLevel(arena, root, ctx.up, ctx.members, ctx.key);
    assert g.Last() == level;
    LevelNode(arena, root, ctx.up, level.emitted, level.curProp);
  }

  // ----- scalars

  lemma {:induction false} ScalarTextsStart(v: Json)
    requires Valid(v)
    ensures
      var b := Render(v)[0];
      match v
      case JLit(lit) => b == [LOWER_T, LOWER_F, LOWER_N][lit]
      case JNum(num) => b == MINUS || IsDigit(b)
      case JStr(_) => b == QUOTE
      case JArr(_, _) => b == LBRACKET
      case JObj(_, _) => b == LBRACE
  {
    if v.JNum? {
      var num := v.num;
      assert num.Render()[0] == if num.minus then MINUS else num.whole[0];
    }
  }

  /** No literal of an enum opens a container. */
  lemma {:induction false} EnumLiteralsAreScalars(arena: Arena, root: NodeId, id: NodeId, i: nat)
    requires WellFormed(arena, root) && NodeAt(arena, id).Enum? && i < |NodeAt(arena, id).literals|
    ensures
      var lit := NodeAt(arena, id).literals[i];
      lit != [] && lit[0] != LBRACE && lit[0] != LBRACKET
  {
    var lit := NodeAt(arena, id).literals[i];
    assert IsScalarText(lit);
    var v: Json :| Valid(v) && (v.JLit? || v.JNum? || v.JStr?) && Render(v) == lit;
    FirstByte(v);
    ScalarTextsStart(v);
  }

  lemma {:induction false} ScalarStarts(id: NodeId, node: Node, b: Byte)
    requires b != LBRACE && b != LBRACKET
    ensures ScalarContext(id, node, b).Some? <==> ScalarPrefix(node, [b])
    ensures ScalarContext(id, node, b).Some? ==> ScalarContext(id, node, b) == Some(ScalarVal(id, node, [b]))
  {
    if node.Enum? {
      var alive := set i | 0 <= i < |node.literals| && node.literals[i] != [] && node.literals[i][0] == b;
      assert alive == set i | 0 <= i < |node.literals| && [b] <= node.literals[i];
      if ScalarPrefix(node, [b]) {
        var i :| 0 <= i < |node.literals| && [b] <= node.literals[i];
        assert i in alive;
      } else {
        assert alive == {};
      }
    }
  }

  lemma {:induction false} PrefixGrows(s: seq<Byte>, b: Byte, t: seq<Byte>)
    ensures s + [b] <= t <==> s <= t && |s| < |t| && t[|s|] == b
  {
    if s <= t && |s| < |t| && t[|s|] == b {
      assert t[..|s| + 1] == s + [b];
    }
    if s + [b] <= t {
      assert t[..|s|] == (s + [b])[..|s|];
    }
  }

  lemma {:induction false} ScalarContinues(arena: Arena, g: Guide, id: NodeId, s: seq<Byte>, b: Byte, ev: Events)
    requires s != [] && ScalarPrefix(NodeAt(arena, id), s) && g.val == ScalarVal(id, NodeAt(arena, id), s)
    requires !ev.keyEnd && !ev.scalarEnd && !ev.objClose && !ev.arrClose
    ensures Content(arena, g, b, ev).Some? <==> ScalarPrefix(NodeAt(arena, id), s + [b])
    ensures Content(arena, g, b, ev).Some? ==>
      Content(arena, g, b, ev) == Some(g.(val := ScalarVal(id, NodeAt(arena, id), s + [b])))
  {
    var node := NodeAt(arena, id);
    assert (s + [b])[0] == s[0];
    match node
    case Enum(literals) =>
      forall i | 0 <= i < |literals|
        ensures s + [b] <= literals[i] <==> s <= literals[i] && |s| < |literals[i]| && literals[i][|s|] == b
      {
        PrefixGrows(s, b, literals[i]);
      }
      var alive := g.val.alive;
      var next := set i | 0 <= i < |literals| && i in alive && |s| < |literals[i]| && literals[i][|s|] == b;
      assert next == set i | 0 <= i < |literals| && s + [b] <= literals[i];
      if ScalarPrefix(node, s + [b]) {
        var i :| 0 <= i < |literals| && s + [b] <= literals[i];
        assert i in next;
      } else {
        assert next == {};
      }
    case Number(integer) =>
      if ScalarPrefix(node, s + [b]) && integer {
        assert (s + [b])[|s|] == b;
      }
    case _ =>
  }

  lemma {:induction false} ScalarEnds(arena: Arena, g: Guide, id: NodeId, s: seq<Byte>, included: bool, b: Byte)
    requires g.val == ScalarVal(id, NodeAt(arena, id), s)
    ensures
      var whole := if included then s + [b] else s;
      FinishScalar(arena, g, included, b) ==
        if NodeAt(arena, id).Enum? && whole !in NodeAt(arena, id).literals then None
        else Some(g.(val := Free).ValueDone())
  {
    var node := NodeAt(arena, id);
    var whole := if included then s + [b] else s;
    if node.Enum? {
      var literals, alive := node.literals, g.val.alive;
      forall i | 0 <= i < |literals|
        ensures literals[i] == whole <==>
          && i in alive
          && if included then |literals[i]| == |s| + 1 && literals[i][|s|] == b else |literals[i]| == |s|
      {
        PrefixGrows(s, b, literals[i]);
      }
    }
  }

  lemma {:induction false} IntegralText(num: JsonGrammar.Number)
    requires num.Valid()
    ensures Integral(num)
      <==> forall k | 0 <= k < |num.Render()| :: num.Render()[k] != DOT && !IsExponentMark(num.Render()[k])
  {
    var sign := if num.minus then [MINUS] else [];
    var r := num.Render();
    if num.frac != [] {
      assert r[|sign + num.whole|] == DOT;
    } else if num.exp != [] {
      assert r[|sign + num.whole|] == num.exp[0];
    } else {
      assert r == sign + num.whole;
    }
  }

  lemma {:induction false} ScalarConforms(arena: Arena, id: NodeId, depth: nat, v: Json)
    requires Valid(v) && (v.JLit? || v.JNum? || v.JStr?)
    ensures Render(v) != []
    ensures Conforms(arena, id, depth, v) <==>
      && ScalarPrefix(NodeAt(arena, id), Render(v))
      && (NodeAt(arena, id).Enum? ==> Render(v) in NodeAt(arena, id).literals)
  {
    FirstByte(v);
    ScalarTextsStart(v);
    if v.JNum? {
      IntegralText(v.num);
    }
  }

  // ----- finished values

  lemma {:induction false} CompleteViable(arena: Arena, root: NodeId, ctx: Ctx, v: Json)
    requires WellFormed(arena, root)
    ensures Viable(arena, root, Complete(ctx, v)) <==>
      CtxViable(arena, root, ctx) && Conforms(arena, NodeFor(arena, root, ctx), Depth(ctx), v)
  {
    match ctx
    case Top(_) =>
    case InArr(up, items, pre) =>
      assert ItemsConform(arena, NodeFor(arena, root, ctx), Depth(ctx), MoreItems(items, pre, v, []))
        == (ItemsConform(arena, NodeFor(arena, root, ctx), Depth(ctx), items)
            && Conforms(arena, NodeFor(arena, root, ctx), Depth(ctx), v));
    case InObj(up, members, pre, key, preColon, postColon) =>
  }

  lemma {:induction false} TopValueDone(arena: Arena, root: NodeId, ctx: Ctx, v: Json, g: Guide)
    requires ctx.Top? && g.levels == LevelsOf(arena, root, ctx) && g.overflow == |StackOf(ctx)| - |g.levels|
    requires g.val == Free
    ensures Tracks(arena, root, Complete(ctx, v), g.ValueDone()) && Tracks(arena, root, Complete(ctx, v), g)
  {
    hide Conforms, NodeFor;
  }

  lemma {:induction false} ItemLevels(arena: Arena, root: NodeId, ctx: Ctx, v: Json, g: Guide)
    requires ctx.InArr? && g.levels == LevelsOf(arena, root, ctx) && g.overflow == |StackOf(ctx)| - |g.levels|
    ensures LevelsTrack(arena, root, Complete(ctx, v), g.levels)
    ensures LevelsTrack(arena, root, Complete(ctx, v), g.ValueDone().levels)
    ensures |g.ValueDone().levels| == |g.levels| && g.ValueDone().overflow == g.overflow && g.ValueDone().val == g.val
  {
    hide Conforms, NodeFor, NodeAt;
    DepthIsStack(ctx);
    LevelCount(arena, root, ctx);
    LevelCount(arena, root, ctx.up);
    assert LevelsOf(arena, root, InArr(ctx.up, NoItems, [])) == LevelsOf(arena, root, ctx);
  }

  lemma {:induction false} ItemValueDone(arena: Arena, root: NodeId, ctx: Ctx, v: Json, g: Guide)
    requires ctx.InArr? && g.levels == LevelsOf(arena, root, ctx) && g.overflow == |StackOf(ctx)| - |g.levels|
    requires g.val == Free
    ensures Tracks(arena, root, Complete(ctx, v), g.ValueDone()) && Tracks(arena, root, Complete(ctx, v), g)
  {
    ItemLevels(arena, root, ctx, v, g);
    hide LevelsTrack, LevelsOf, NodeFor;
  }

  /** The levels inside the object whose member `v` is done, its `curProp` dropped or not. */
  lemma {:induction false} MemberLevels(arena: Arena, root: NodeId, ctx: Ctx, v: Json, g: Guide)
    requires ctx.InObj? && g.levels == LevelsOf(arena, root, ctx) && g.overflow == |StackOf(ctx)| - |g.levels|
    ensures LevelsTrack(arena, root, Complete(ctx, v), g.levels)
    ensures LevelsTrack(arena, root, Complete(ctx, v), g.ValueDone().levels)
    ensures |g.ValueDone().levels| == |g.levels| && g.ValueDone().overflow == g.overflow && g.ValueDone().val == g.val
  {
    hide Conforms, NodeFor, KeyProp, CtxViable, MembersViable, NodeAt;
    DepthIsStack(ctx);
    LevelCount(arena, root, ctx);
    LevelCount(arena, root, ctx.up);
  }

  lemma {:induction false} MemberValueDone(arena: Arena, root: NodeId, ctx: Ctx, v: Json, g: Guide)
    requires ctx.InObj? && g.levels == LevelsOf(arena, root, ctx) && g.overflow == |StackOf(ctx)| - |g.levels|
    requires g.val == Free
    ensures Tracks(arena, root, Complete(ctx, v), g.ValueDone()) && Tracks(arena, root, Complete(ctx, v), g)
  {
    MemberLevels(arena, root, ctx, v, g);
    hide LevelsTrack, LevelsOf, NodeFor;
  }

  /** Dropping `curProp` of the last level, as every finished value does. */
  lemma {:induction false} ValueDoneTracks(arena: Arena, root: NodeId, ctx: Ctx, v: Json, g: Guide)
    requires g.levels == LevelsOf(arena, root, ctx) && g.overflow == |StackOf(ctx)| - |g.levels| && g.val == Free
    ensures Tracks(arena, root, Complete(ctx, v), g.ValueDone())
    ensures Tracks(arena, root, Complete(ctx, v), g)
  {
    hide Tracks, Complete, LevelsOf;
    match ctx
    case Top(_) => TopValueDone(arena, root, ctx, v, g);
    case InArr(_, _, _) => ItemValueDone(arena, root, ctx, v, g);
    case InObj(_, _, _, _, _, _) => MemberValueDone(arena, root, ctx, v, g);
  }

  // ----- the guide agrees with the tree, case by case

  /** On a byte that takes tree `p` to `next`, the guide refuses exactly when `next` cannot conform. */
  predicate Agrees(arena: Arena, root: NodeId, p: Partial, g: Guide, b: Byte, next: Partial) {
    var ev := EventsOf(Abs(p).state, b, Abs(next).state);
    var g' := OnByte(arena, root, g, b, ev, Abs(p).state.Num?);
    && (g'.Some? <==> Viable(arena, root, next))
    && (g'.Some? ==> Tracks(arena, root, next, g'.value))
  }

  ghost predicate Ready(arena: Arena, root: NodeId, mode: Mode, p: Partial, g: Guide, b: Byte) {
    && WellFormed(arena, root)
    && Good(p, mode)
    && Step(Abs(p), b, mode) == Some(Abs(Advance(p, b)))
    && Tracks(arena, root, p, g)
    && Viable(arena, root, p)
  }

  /** The levels inside a container that has just opened. */
  lemma {:induction false} OpenedLevels(arena: Arena, root: NodeId, ctx: Ctx, g: Guide, id: NodeId, b: Byte)
    requires id == NodeFor(arena, root, ctx) && Depth(ctx) < MAX_DEPTH
    requires g.levels == LevelsOf(arena, root, ctx) && g.overflow == |StackOf(ctx)| - |g.levels| && g.val == Free
    requires EnterValue(arena, g, id, b).Some? && (b == LBRACE || b == LBRACKET)
    requires ScalarContext(id, NodeAt(arena, id), b) == Some(Free)
    ensures var g' := EnterValue(arena, g, id, b).value;
      && g'.val == Free && g'.overflow == |StackOf(ctx)| + 1 - |g'.levels|
      && g'.levels == LevelsOf(arena, root, ctx)
           + if Depth(ctx) < GUIDED_DEPTH then [LevelAt(arena, root, ctx, {}, None)] else []
  {
    hide NodeFor, NodeAt, ScalarContext, LevelsOf;
    DepthIsStack(ctx);
    LevelCount(arena, root, ctx);
  }

  lemma {:induction false} OpensContainer(arena: Arena, root: NodeId, ctx: Ctx, g: Guide, isArray: bool)
    requires WellFormed(arena, root) && CtxViable(arena, root, ctx)
    requires g.levels == LevelsOf(arena, root, ctx) && g.overflow == |StackOf(ctx)| - |g.levels| && g.val == Free
    requires Depth(ctx) < MAX_DEPTH
    ensures
      var id, b := NodeFor(arena, root, ctx), if isArray then LBRACKET else LBRACE;
      var next := if isArray then PArrFirst(ctx) else PObjFirst(ctx, []);
      var g' := EnterValue(arena, g, id, b);
      && (g'.Some? <==> Viable(arena, root, next))
      && (g'.Some? ==> Tracks(arena, root, next, g'.value))
  {
    hide WellFormed, CtxViable, NodeFor, ScalarContext, EnterValue, LevelsOf;
    var id, b := NodeFor(arena, root, ctx), if isArray then LBRACKET else LBRACE;
    BracketContext(arena, root, id, b);
    EntersWithContext(arena, g, id, b);
    var g' := EnterValue(arena, g, id, b);
    if g'.Some? {
      OpenedLevels(arena, root, ctx, g, id, b);
      OpenedTracks(arena, root, ctx, g'.value, isArray);
    }
  }

  lemma {:induction false} OpenedTracks(arena: Arena, root: NodeId, ctx: Ctx, g: Guide, isArray: bool)
    requires g.val == Free && g.overflow == |StackOf(ctx)| + 1 - |g.levels|
    requires g.levels ==
      LevelsOf(arena, root, ctx) + if Depth(ctx) < GUIDED_DEPTH then [LevelAt(arena, root, ctx, {}, None)] else []
    ensures Tracks(arena, root, if isArray then PArrFirst(ctx) else PObjFirst(ctx, []), g)
  {
    hide NodeFor;
  }

  lemma {:induction false} EntersWithContext(arena: Arena, g: Guide, id: NodeId, b: Byte)
    requires b == LBRACE || b == LBRACKET
    ensures EnterValue(arena, g, id, b).Some? <==> ScalarContext(id, NodeAt(arena, id), b).Some?
  {
    hide NodeAt, ScalarContext;
  }

  /** Only an unconstrained node or one of the right type lets a container open. */
  lemma {:induction false} BracketContext(arena: Arena, root: NodeId, id: NodeId, b: Byte)
    requires WellFormed(arena, root) && (b == LBRACE || b == LBRACKET)
    ensures
      var node := NodeAt(arena, id);
      ScalarContext(id, node, b) ==
        if node.Any? || (if b == LBRACKET then node.Array? else node.Object?) then Some(Free) else None
  {
    var node := NodeAt(arena, id);
    if node.Enum? {
      forall i | 0 <= i < |node.literals| ensures node.literals[i] != [] && node.literals[i][0] != b {
        EnumLiteralsAreScalars(arena, root, id, i);
      }
      assert ScalarContext(id, node, b).None?;
    }
  }

  lemma {:induction false} ValueAgrees(arena: Arena, root: NodeId, mode: Mode, ctx: Ctx, g: Guide, b: Byte)
    requires Ready(arena, root, mode, PValue(ctx), g, b)
    ensures Agrees(arena, root, PValue(ctx), g, b, Advance(PValue(ctx), b))
  {
    if IsWs(b) {
      WsAgrees(arena, root, ctx, g, b);
    } else {
      StartAgrees(arena, root, mode, ctx, g, b);
    }
  }

  lemma {:induction false} WsAgrees(arena: Arena, root: NodeId, ctx: Ctx, g: Guide, b: Byte)
    requires WellFormed(arena, root) && Tracks(arena, root, PValue(ctx), g) && Viable(arena, root, PValue(ctx))
    requires IsWs(b)
    ensures Agrees(arena, root, PValue(ctx), g, b, PValue(WithWs(ctx, b)))
  {
  }

  lemma {:induction false} StartAgrees(arena: Arena, root: NodeId, mode: Mode, ctx: Ctx, g: Guide, b: Byte)
    requires Ready(arena, root, mode, PValue(ctx), g, b) && !IsWs(b)
    ensures Agrees(arena, root, PValue(ctx), g, b, Started(ctx, b))
  {
    hide WellFormed, CtxViable, GoodCtx, Conforms, NodeFor, LevelsOf;
    ExpectedIsNodeFor(arena, root, ctx, g);
    DepthIsStack(ctx);
    if b == LBRACE || b == LBRACKET {
      OpensContainer(arena, root, ctx, g, b == LBRACKET);
    } else {
      var id := NodeFor(arena, root, ctx);
      ScalarStarts(id, NodeAt(arena, id), b);
      assert ScalarText(Started(ctx, b)) == [b];
    }
  }

  /** To the guide the first place of an array is a place for a value. */
  lemma {:induction false} ArrFirstTracks(arena: Arena, root: NodeId, ctx: Ctx, g: Guide)
    requires Tracks(arena, root, PArrFirst(ctx), g) && Viable(arena, root, PArrFirst(ctx))
    ensures var inner := InArr(ctx, NoItems, []);
      Tracks(arena, root, PValue(inner), g) && Viable(arena, root, PValue(inner))
  {
    hide Conforms, NodeFor, Step, StepToken, StepInner;
  }

  /** And to the automaton, but for the bracket that may close it. */
  lemma {:induction false} ArrFirstSteps(mode: Mode, ctx: Ctx, b: Byte)
    requires Good(PArrFirst(ctx), mode) && b != RBRACKET && !IsWs(b)
    ensures var inner := PValue(InArr(ctx, NoItems, []));
      && Good(inner, mode) && Advance(inner, b) == Advance(PArrFirst(ctx), b)
      && Step(Abs(inner), b, mode) == Step(Abs(PArrFirst(ctx)), b, mode)
  {
    hide Started;
  }

  lemma {:induction false} SameEvents(b: Byte, after: State)
    requires b != RBRACKET
    ensures EventsOf(ArrFirst, b, after) == EventsOf(Value, b, after)
  {
  }

  lemma {:induction false} ArrFirstAgrees(arena: Arena, root: NodeId, mode: Mode, ctx: Ctx, g: Guide, b: Byte)
    requires Ready(arena, root, mode, PArrFirst(ctx), g, b)
    ensures Agrees(arena, root, PArrFirst(ctx), g, b, Advance(PArrFirst(ctx), b))
  {
    if b == RBRACKET {
      ArrFirstCloses(arena, root, mode, ctx, g);
    } else {
      hide WellFormed, Tracks, Viable, OnByte, EventsOf, Good, Step, Advance, Abs, Agrees, Started, WithWs;
      var inner := InArr(ctx, NoItems, []);
      ArrFirstTracks(arena, root, ctx, g);
      if IsWs(b) {
        WsAgrees(arena, root, inner, g, b);
      } else {
        ArrFirstSteps(mode, ctx, b);
        StartAgrees(arena, root, mode, inner, g, b);
      }
      ArrFirstLikeValue(arena, root, ctx, g, b);
    }
  }

  lemma {:induction false} ArrFirstLikeValue(arena: Arena, root: NodeId, ctx: Ctx, g: Guide, b: Byte)
    requires b != RBRACKET
    requires var inner := InArr(ctx, NoItems, []);
      Agrees(arena, root, PValue(inner), g, b, if IsWs(b) then PValue(WithWs(inner, b)) else Started(inner, b))
    ensures Agrees(arena, root, PArrFirst(ctx), g, b, Advance(PArrFirst(ctx), b))
  {
    hide OnByte, EventsOf, Tracks, Viable, Started;
    assert WithWs(InArr(ctx, NoItems, []), b) == InArr(ctx, NoItems, [b]) by {
      assert [] + [b] == [b];
    }
    SameEvents(b, Abs(Advance(PArrFirst(ctx), b)).state);
  }

  lemma {:induction false} ArrFirstCloses(arena: Arena, root: NodeId, mode: Mode, ctx: Ctx, g: Guide)
    requires Ready(arena, root, mode, PArrFirst(ctx), g, RBRACKET)
    ensures Agrees(arena, root, PArrFirst(ctx), g, RBRACKET, Complete(ctx, JArr([], NoItems)))
  {
    hide WellFormed, Conforms, NodeFor, LevelsOf, CtxViable, Step;
    CloseAgrees(arena, root, ctx, JArr([], NoItems), g);
  }

  /** The guide inside the container `v` that is about to close at `ctx`. */
  ghost predicate AboutToClose(arena: Arena, root: NodeId, ctx: Ctx, v: Json, g: Guide) {
    && CtxViable(arena, root, ctx) && g.val == Free
    && (v.JArr? || v.JObj?)
    && (v.JArr? ==>
          ItemsViable(arena, root, ctx, v.items) && g.levels == LevelsOf(arena, root, InArr(ctx, NoItems, [])))
    && (v.JObj? ==>
          && MembersViable(arena, root, ctx, v.members)
          && LevelsInside(arena, root, ctx, ObjectEmitted(arena, root, ctx, v.members), g.levels))
    && g.overflow == |StackOf(ctx)| + 1 - |g.levels|
  }

  lemma {:induction false} CloseLevels(arena: Arena, root: NodeId, ctx: Ctx, v: Json, g: Guide)
    requires WellFormed(arena, root) && AboutToClose(arena, root, ctx, v, g)
    ensures if Depth(ctx) >= GUIDED_DEPTH then g.overflow > 0 && g.levels == LevelsOf(arena, root, ctx)
            else g.overflow == 0 && g.levels != [] && g.levels[..|g.levels| - 1] == LevelsOf(arena, root, ctx)
  {
    DepthIsStack(ctx);
    LevelCount(arena, root, ctx);
  }

  lemma {:induction false} CloseConforms(arena: Arena, root: NodeId, ctx: Ctx, v: Json, g: Guide)
    requires WellFormed(arena, root) && AboutToClose(arena, root, ctx, v, g)
    ensures Conforms(arena, NodeFor(arena, root, ctx), Depth(ctx), v) <==> CloseContainer(arena, g).Some?
  {
    CloseLevels(arena, root, ctx, v, g);
    if Depth(ctx) < GUIDED_DEPTH {
      var last := g.Last();
      LevelNode(arena, root, ctx, last.emitted, last.curProp);
    }
  }

  /** Closing the container `v` at `ctx`: the last level goes, its required properties are checked. */
  lemma {:induction false} CloseAgrees(arena: Arena, root: NodeId, ctx: Ctx, v: Json, g: Guide)
    requires WellFormed(arena, root) && AboutToClose(arena, root, ctx, v, g)
    ensures
      var g' := CloseContainer(arena, g);
      && (g'.Some? <==> Viable(arena, root, Complete(ctx, v)))
      && (g'.Some? ==> Tracks(arena, root, Complete(ctx, v), g'.value))
  {
    hide Conforms, WellFormed, NodeFor, LevelsOf, Tracks, Viable, LevelsInside, Complete;
    CloseConforms(arena, root, ctx, v, g);
    CompleteViable(arena, root, ctx, v);
    CloseLevels(arena, root, ctx, v, g);
    if Depth(ctx) >= GUIDED_DEPTH {
      ValueDoneTracks(arena, root, ctx, v, g.(overflow := g.overflow - 1));
    } else {
      LevelCount(arena, root, ctx);
      ValueDoneTracks(arena, root, ctx, v, g.(levels := LevelsOf(arena, root, ctx), val := Free));
    }
  }

  // ----- keys

  /** A guide inside the object at `ctx` sees that object's node. */
  lemma {:induction false} InsideObject(arena: Arena, root: NodeId, ctx: Ctx, emitted: set<nat>, g: Guide)
    requires WellFormed(arena, root) && LevelsInside(arena, root, ctx, emitted, g.levels)
    requires g.overflow == |StackOf(ctx)| + 1 - |g.levels|
    requires MayOpen(arena, root, ctx, false)
    ensures g.Tracking() <==> Depth(ctx) < GUIDED_DEPTH
    ensures g.Tracking() ==>
      && (NodeAt(arena, g.Last().node).Object? <==> Container(arena, root, ctx).Object?)
      && (Container(arena, root, ctx).Object? ==> NodeAt(arena, g.Last().node) == Container(arena, root, ctx))
      && g.Last().emitted == emitted
  {
    DepthIsStack(ctx);
    LevelCount(arena, root, ctx);
    if Depth(ctx) < GUIDED_DEPTH {
      var last := g.Last();
      LevelNode(arena, root, ctx, last.emitted, last.curProp);
    }
  }

  lemma {:induction false} AvailableIsEmptyPrefix(node: Node, members: Members)
    requires node.Object?
    ensures KeyPrefix(node, members, []) <==> node.additional || Unused(node.props, Emitted(node.props, members)) != {}
    ensures Unused(node.props, Emitted(node.props, members)) ==
      set i | 0 <= i < |node.props| && i !in Emitted(node.props, members) && [] <= node.props[i].0
  {
    var unused := Unused(node.props, Emitted(node.props, members));
    if i :| 0 <= i < |node.props| && i !in Emitted(node.props, members) && [] <= node.props[i].0 {
      assert i in unused;
    }
    if unused != {} {
      var i :| i in unused;
      assert [] <= node.props[i].0;
    }
  }

  lemma {:induction false} AvailableAgrees(arena: Arena, root: NodeId, ctx: Ctx, members: Members, g: Guide)
    requires WellFormed(arena, root) && MayOpen(arena, root, ctx, false)
    requires LevelsInside(arena, root, ctx, ObjectEmitted(arena, root, ctx, members), g.levels)
    requires g.overflow == |StackOf(ctx)| + 1 - |g.levels|
    ensures HasAvailableKey(arena, g) <==> KeyPrefix(Container(arena, root, ctx), members, [])
    ensures StartKey(arena, g) == g.(val := KeyVal(Container(arena, root, ctx), members, []))
  {
    InsideObject(arena, root, ctx, ObjectEmitted(arena, root, ctx, members), g);
    var node := Container(arena, root, ctx);
    if node.Object? {
      AvailableIsEmptyPrefix(node, members);
    }
  }

  lemma {:induction false} ObjFirstAgrees(arena: Arena, root: NodeId, mode: Mode, ctx: Ctx, ws: seq<Byte>, g: Guide,
        b: Byte)
    requires Ready(arena, root, mode, PObjFirst(ctx, ws), g, b)
    ensures Agrees(arena, root, PObjFirst(ctx, ws), g, b, Advance(PObjFirst(ctx, ws), b))
  {
    if b == RBRACE {
      EmptyObjectAgrees(arena, root, mode, ctx, ws, g);
    } else if b == QUOTE {
      AvailableAgrees(arena, root, ctx, NoMembers, g);
      assert NoChars.Render() + [] == [];
    }
  }

  lemma {:induction false} EmptyObjectAgrees(arena: Arena, root: NodeId, mode: Mode, ctx: Ctx, ws: seq<Byte>, g: Guide)
    requires Ready(arena, root, mode, PObjFirst(ctx, ws), g, RBRACE)
    ensures Agrees(arena, root, PObjFirst(ctx, ws), g, RBRACE, Complete(ctx, JObj(ws, NoMembers)))
  {
    hide WellFormed, NodeFor, LevelsOf, Viable, Complete, CloseContainer;
    assert AboutToClose(arena, root, ctx, JObj(ws, NoMembers), g) by {
      EmptyObjectCloses(arena, root, mode, ctx, ws, g);
    }
    CloseAgrees(arena, root, ctx, JObj(ws, NoMembers), g);
  }

  lemma {:induction false} EmptyObjectCloses(arena: Arena, root: NodeId, mode: Mode, ctx: Ctx, ws: seq<Byte>, g: Guide)
    requires Ready(arena, root, mode, PObjFirst(ctx, ws), g, RBRACE)
    ensures AboutToClose(arena, root, ctx, JObj(ws, NoMembers), g)
  {
  }

  lemma {:induction false} ObjCommaAgrees(arena: Arena, root: NodeId, mode: Mode, p: Partial, g: Guide, b: Byte)
    requires p.PObjComma? && Ready(arena, root, mode, p, g, b)
    ensures Agrees(arena, root, p, g, b, Advance(p, b))
  {
    if b == QUOTE {
      AvailableAgrees(arena, root, p.ctx, p.members, g);
      assert NoChars.Render() + [] == [];
    }
  }

  lemma {:induction false} KeyContinues(arena: Arena, node: Node, members: Members, g: Guide, s: seq<Byte>, b: Byte,
        ev: Events)
    requires g.val == KeyVal(node, members, s) && KeyPrefix(node, members, s) && !ev.keyEnd
    requires node.Object? ==> g.levels != [] && NodeAt(arena, g.Last().node) == node
    ensures Content(arena, g, b, ev).Some? <==> KeyPrefix(node, members, s + [b])
    ensures Content(arena, g, b, ev).Some? ==>
      Content(arena, g, b, ev) == Some(g.(val := KeyVal(node, members, s + [b])))
  {
    if node.Object? {
      var props, emitted, alive := node.props, Emitted(node.props, members), g.val.alive;
      forall i | 0 <= i < |props|
        ensures s + [b] <= props[i].0 <==> s <= props[i].0 && |s| < |props[i].0| && props[i].0[|s|] == b
      {
        PrefixGrows(s, b, props[i].0);
      }
      var next := set i | 0 <= i < |props| && i in alive && |s| < |props[i].0| && props[i].0[|s|] == b;
      assert next == set i | 0 <= i < |props| && i !in emitted && s + [b] <= props[i].0;
      if i :| 0 <= i < |props| && i !in emitted && s + [b] <= props[i].0 {
        assert i in next;
      } else {
        assert next == {};
      }
    }
  }

  lemma {:induction false} FirstIsKeyProp(props: Props, emitted: set<nat>, s: seq<Byte>, among: set<nat>, from: nat)
    requires among == set i | 0 <= i < |props| && i !in emitted && s <= props[i].0
    ensures FirstOfLength(props, among, |s|, from) == KeyProp(props, emitted, s, from)
    decreases |props| - from
  {
    if from < |props| {
      assert s <= props[from].0 && |props[from].0| == |s| <==> props[from].0 == s;
      FirstIsKeyProp(props, emitted, s, among, from + 1);
    }
  }

  lemma {:induction false} KeyEnds(arena: Arena, node: Node, members: Members, g: Guide, s: seq<Byte>)
    requires g.val == KeyVal(node, members, s)
    requires node.Object? ==>
      g.levels != [] && NodeAt(arena, g.Last().node) == node && g.Last().emitted == Emitted(node.props, members)
    ensures FinishKey(arena, g).Some? <==> KeyAllowed(node, members, s)
    ensures FinishKey(arena, g).Some? ==>
      var i := KeyProp(PropsOf(node), Emitted(PropsOf(node), members), s);
      FinishKey(arena, g) == Some(
        if node.Object? then
          g.(val := Free).WithLast(Level(g.Last().node, g.Last().emitted + AsSet(i), i))
        else g.(val := Free))
  {
    if node.Object? {
      FirstIsKeyProp(node.props, Emitted(node.props, members), s, g.val.alive, 0);
      assert g.Last().emitted + {} == g.Last().emitted;
    }
  }

  lemma {:induction false} KeyAgrees(arena: Arena, root: NodeId, mode: Mode, p: Partial, g: Guide, b: Byte)
    requires p.PKey? && Ready(arena, root, mode, p, g, b)
    ensures Agrees(arena, root, p, g, b, Advance(p, b))
  {
    var PKey(ctx, members, pre, cs, tail) := p;
    var node := Container(arena, root, ctx);
    var s := cs.Render() + tail;
    InsideObject(arena, root, ctx, ObjectEmitted(arena, root, ctx, members), g);
    if tail == [] && b == QUOTE {
      assert s == cs.Render();
      KeyEndAgrees(arena, root, mode, p, g);
    } else {
      var ev := EventsOf(Abs(p).state, b, Abs(Advance(p, b)).state);
      StrEvents(tail, StrByte(cs, tail, b).1, b, true);
      KeyContinues(arena, node, members, g, s, b, ev);
      KeepsBytes(cs, tail, b, StackOf(ctx) + [false], true, mode);
    }
  }

  lemma {:induction false} KeyedLevels(arena: Arena, root: NodeId, ctx: Ctx, members: Members, pre: seq<Byte>,
        key: Chars, g: Guide)
    requires WellFormed(arena, root) && MayOpen(arena, root, ctx, false)
    requires LevelsInside(arena, root, ctx, ObjectEmitted(arena, root, ctx, members), g.levels)
    ensures
      var node := Container(arena, root, ctx);
      var i := KeyProp(PropsOf(node), Emitted(PropsOf(node), members), key.Render());
      var keyed := LevelsOf(arena, root, InObj(ctx, members, pre, key, [], []));
      if node.Object? then
        && g.levels != []
        && keyed == g.WithLast(Level(g.Last().node, g.Last().emitted + AsSet(i), i)).levels
      else keyed == g.levels
  {
    var outer := LevelsOf(arena, root, ctx);
    if Depth(ctx) < GUIDED_DEPTH {
      assert g.levels == outer + [g.Last()];
      assert g.Last().emitted + {} == g.Last().emitted;
    }
  }

  lemma {:induction false} KeyEndEvents(arena: Arena, root: NodeId, p: Partial, g: Guide)
    requires p.PKey? && p.tail == []
    ensures var ev := EventsOf(Abs(p).state, QUOTE, Abs(PColon(p.ctx, p.members, p.pre, p.cs, [])).state);
      OnByte(arena, root, g, QUOTE, ev, false) == FinishKey(arena, g)
    ensures !Abs(p).state.Num?
  {
    hide FinishKey;
  }

  /** The key that ends is settled to what the tree says of its member. */
  lemma {:induction false} KeySettles(arena: Arena, root: NodeId, p: Partial, g: Guide)
    requires WellFormed(arena, root) && p.PKey? && p.tail == [] && Tracks(arena, root, p, g) && Viable(arena, root, p)
    ensures var node := Container(arena, root, p.ctx);
      var keyed := LevelsOf(arena, root, InObj(p.ctx, p.members, p.pre, p.cs, [], []));
      && (FinishKey(arena, g).Some? <==> KeyAllowed(node, p.members, p.cs.Render()))
      && (FinishKey(arena, g).Some? ==>
           FinishKey(arena, g).value.levels == keyed && FinishKey(arena, g).value.val == Free
           && FinishKey(arena, g).value.overflow == g.overflow && |keyed| == |g.levels|)
  {
    hide WellFormed, CtxViable, NodeFor, Conforms, FinishKey, LevelsOf;
    var PKey(ctx, members, pre, cs, tail) := p;
    assert cs.Render() + tail == cs.Render();
    InsideObject(arena, root, ctx, ObjectEmitted(arena, root, ctx, members), g);
    KeyEnds(arena, Container(arena, root, ctx), members, g, cs.Render());
    KeyedLevels(arena, root, ctx, members, pre, cs, g);
  }

  lemma {:induction false} KeyEndAgrees(arena: Arena, root: NodeId, mode: Mode, p: Partial, g: Guide)
    requires p.PKey? && p.tail == [] && Ready(arena, root, mode, p, g, QUOTE)
    ensures Agrees(arena, root, p, g, QUOTE, PColon(p.ctx, p.members, p.pre, p.cs, []))
  {
    KeyEndEvents(arena, root, p, g);
    KeySettles(arena, root, p, g);
    hide WellFormed, CtxViable, GoodCtx, NodeFor, Conforms, OnByte, EventsOf, FinishKey, LevelsOf, LevelsInside,
      KeyAllowed, MembersViable, Container, Step, Good;
  }

  /** No byte inside a string is an event. */
  lemma {:induction false} StrEvents(tail: seq<Byte>, tail': seq<Byte>, b: Byte, key: bool)
    requires GoodTail(tail) && !(tail == [] && b == QUOTE)
    ensures EventsOf(StrState(tail, key), b, StrState(tail', key))
      == Events(false, false, false, false, false, false, false)
  {
  }

  lemma {:induction false} KeepsBytes(cs: Chars, tail: seq<Byte>, b: Byte, stack: seq<bool>, key: bool, mode: Mode)
    requires GoodChars(cs) && GoodTail(tail) && !(tail == [] && b == QUOTE)
    requires Step(Machine(stack, StrState(tail, key), StrWs(cs, tail)), b, mode).Some?
    ensures StrByte(cs, tail, b).0.Render() + StrByte(cs, tail, b).1 == cs.Render() + tail + [b]
  {
    StrByteStep(stack, cs, tail, key, b, mode);
    StrByteText(cs, tail, b);
  }

  lemma {:induction false} ColonAgrees(arena: Arena, root: NodeId, mode: Mode, p: Partial, g: Guide, b: Byte)
    requires p.PColon? && Ready(arena, root, mode, p, g, b)
    ensures Agrees(arena, root, p, g, b, Advance(p, b))
  {
  }

  // ----- scalars in the tree

  lemma {:induction false} ScalarDone(arena: Arena, root: NodeId, ctx: Ctx, v: Json, g: Guide, s: seq<Byte>,
        included: bool, b: Byte)
    requires WellFormed(arena, root) && CtxViable(arena, root, ctx) && Valid(v) && (v.JLit? || v.JNum? || v.JStr?)
    requires Render(v) == if included then s + [b] else s
    requires s != [] && ScalarPrefix(NodeAt(arena, NodeFor(arena, root, ctx)), s)
    requires g.levels == LevelsOf(arena, root, ctx) && g.overflow == |StackOf(ctx)| - |g.levels|
    requires g.val == ScalarVal(NodeFor(arena, root, ctx), NodeAt(arena, NodeFor(arena, root, ctx)), s)
    requires ScalarPrefix(NodeAt(arena, NodeFor(arena, root, ctx)), Render(v))
             || NodeAt(arena, NodeFor(arena, root, ctx)).Enum?
    ensures
      var g' := FinishScalar(arena, g, included, b);
      && (g'.Some? <==> Viable(arena, root, Complete(ctx, v)))
      && (g'.Some? ==> Tracks(arena, root, Complete(ctx, v), g'.value))
  {
    var id := NodeFor(arena, root, ctx);
    ScalarEnds(arena, g, id, s, included, b);
    ScalarConforms(arena, id, Depth(ctx), v);
    CompleteViable(arena, root, ctx, v);
    ValueDoneTracks(arena, root, ctx, v, g.(val := Free));
  }

  lemma {:induction false} StrAgrees(arena: Arena, root: NodeId, mode: Mode, ctx: Ctx, cs: Chars, tail: seq<Byte>,
        g: Guide, b: Byte)
    requires Ready(arena, root, mode, PStr(ctx, cs, tail), g, b)
    ensures Agrees(arena, root, PStr(ctx, cs, tail), g, b, Advance(PStr(ctx, cs, tail), b))
  {
    var p := PStr(ctx, cs, tail);
    var id := NodeFor(arena, root, ctx);
    var s := ScalarText(p);
    if tail == [] && b == QUOTE {
      var v := JStr(cs);
      assert s + [b] == Render(v);
      assert (s + [b])[0] == s[0];
      ScalarDone(arena, root, ctx, v, g, s, true, b);
    } else {
      var (cs', tail') := StrByte(cs, tail, b);
      var ev := EventsOf(Abs(p).state, b, Abs(Advance(p, b)).state);
      StrEvents(tail, tail', b, false);
      KeepsBytes(cs, tail, b, StackOf(ctx), false, mode);
      AppendAfter([QUOTE], cs.Render(), tail, b, cs'.Render(), tail');
      ScalarContinues(arena, g, id, s, b, ev);
    }
  }

  lemma {:induction false} LitAgrees(arena: Arena, root: NodeId, mode: Mode, p: Partial, g: Guide, b: Byte)
    requires p.PLit? && Ready(arena, root, mode, p, g, b)
    ensures Agrees(arena, root, p, g, b, Advance(p, b))
  {
    hide WellFormed, CtxViable, GoodCtx, Conforms, NodeFor, LevelsOf;
    var PLit(ctx, lit, pos) := p;
    var w, s := Literal(lit), ScalarText(p);
    assert w[..pos + 1] == s + [b];
    assert (s + [b])[0] == s[0];
    if pos + 1 == |w| {
      assert s + [b] == w;
      ScalarDone(arena, root, ctx, JLit(lit), g, s, true, b);
    } else {
      var ev := EventsOf(Abs(p).state, b, Abs(Advance(p, b)).state);
      ScalarContinues(arena, g, NodeFor(arena, root, ctx), s, b, ev);
    }
  }

  // ----- after a value

  lemma {:induction false} ArrNextAgrees(arena: Arena, root: NodeId, mode: Mode, ctx: Ctx, items: Items, g: Guide,
        b: Byte)
    requires WellFormed(arena, root) && GoodAfter(PArrNext(ctx, items), mode)
    requires Tracks(arena, root, PArrNext(ctx, items), g) && Viable(arena, root, PArrNext(ctx, items))
    requires Step(Abs(PArrNext(ctx, items)), b, mode).Some?
    ensures Agrees(arena, root, PArrNext(ctx, items), g, b, AfterByte(PArrNext(ctx, items), b))
  {
    hide WellFormed, GoodCtx, Conforms;
    if b == RBRACKET {
      CloseAgrees(arena, root, ctx, JArr([], items), g);
      CompleteIsGood(ctx, JArr([], items), mode);
    } else if b != COMMA {
      assert ItemsViable(arena, root, ctx, items.(post := items.post + [b]));
    }
  }

  lemma {:induction false} ObjCloseAgrees(arena: Arena, root: NodeId, mode: Mode, ctx: Ctx, members: Members, g: Guide)
    requires WellFormed(arena, root) && GoodAfter(PObjNext(ctx, members), mode)
    requires Tracks(arena, root, PObjNext(ctx, members), g) && Viable(arena, root, PObjNext(ctx, members))
    ensures Agrees(arena, root, PObjNext(ctx, members), g, RBRACE, Complete(ctx, JObj([], members)))
  {
    hide WellFormed, CtxViable, GoodCtx, Conforms, NodeFor, LevelsOf;
    CloseAgrees(arena, root, ctx, JObj([], members), g);
    CompleteIsGood(ctx, JObj([], members), mode);
  }

  lemma {:induction false} ObjCommaOpens(arena: Arena, root: NodeId, mode: Mode, ctx: Ctx, members: Members, g: Guide)
    requires WellFormed(arena, root) && GoodAfter(PObjNext(ctx, members), mode)
    requires Tracks(arena, root, PObjNext(ctx, members), g) && Viable(arena, root, PObjNext(ctx, members))
    ensures Agrees(arena, root, PObjNext(ctx, members), g, COMMA, PObjComma(ctx, members, []))
  {
    hide WellFormed, CtxViable, GoodCtx, Conforms, NodeFor, LevelsOf;
    AvailableAgrees(arena, root, ctx, members, g);
  }

  lemma {:induction false} ObjWsAgrees(arena: Arena, root: NodeId, mode: Mode, ctx: Ctx, members: Members, g: Guide,
        b: Byte)
    requires members.MoreMembers? && IsWs(b)
    requires Tracks(arena, root, PObjNext(ctx, members), g) && Viable(arena, root, PObjNext(ctx, members))
    ensures Agrees(arena, root, PObjNext(ctx, members), g, b, PObjNext(ctx, members.(post := members.post + [b])))
  {
    hide CtxViable, Conforms, NodeFor, LevelsOf;
    assert MembersViable(arena, root, ctx, members.(post := members.post + [b]));
  }

  lemma {:induction false} ObjNextAgrees(arena: Arena, root: NodeId, mode: Mode, ctx: Ctx, members: Members, g: Guide,
        b: Byte)
    requires WellFormed(arena, root) && GoodAfter(PObjNext(ctx, members), mode)
    requires Tracks(arena, root, PObjNext(ctx, members), g) && Viable(arena, root, PObjNext(ctx, members))
    requires Step(Abs(PObjNext(ctx, members)), b, mode).Some?
    ensures Agrees(arena, root, PObjNext(ctx, members), g, b, AfterByte(PObjNext(ctx, members), b))
  {
    hide WellFormed, CtxViable, GoodCtx, Conforms, Tracks, Viable, Agrees, Complete, StackOf;
    if b == RBRACE {
      ObjCloseAgrees(arena, root, mode, ctx, members, g);
    } else if b == COMMA {
      ObjCommaOpens(arena, root, mode, ctx, members, g);
    } else {
      ObjWsAgrees(arena, root, mode, ctx, members, g, b);
    }
  }

  lemma {:induction false} AfterAgrees(arena: Arena, root: NodeId, mode: Mode, p: Partial, g: Guide, b: Byte)
    requires WellFormed(arena, root) && GoodAfter(p, mode) && Tracks(arena, root, p, g) && Viable(arena, root, p)
    requires Step(Abs(p), b, mode).Some?
    ensures Agrees(arena, root, p, g, b, AfterByte(p, b))
  {
    match p
    case PArrNext(ctx, items) => ArrNextAgrees(arena, root, mode, ctx, items, g, b);
    case PObjNext(ctx, members) => ObjNextAgrees(arena, root, mode, ctx, members, g, b);
    case PDone(_) =>
  }

  /** A delimiter settles the number first; the rest is as after a finished value. */
  lemma {:induction false} SettledOnByte(arena: Arena, root: NodeId, g: Guide, b: Byte, n: NumState, before: State,
        after: State)
    requires before.ArrNext? || before.ObjNext? || before.Done?
    requires !after.Num?
    requires b == RBRACE ==> before.ObjNext?
    requires b == RBRACKET ==> before.ArrNext?
    ensures OnByte(arena, root, g, b, EventsOf(Num(n), b, after), true) ==
      var settled := FinishScalar(arena, g, false, b);
      if settled.None? then None else OnByte(arena, root, settled.value, b, EventsOf(before, b, after), false)
  {
  }

  /** No byte that extends a number is an event. */
  lemma {:induction false} NumberEvents(n: NumState, b: Byte, n': NumState)
    requires NextNum(n, b) == Some(n')
    ensures EventsOf(Num(n), b, Num(n')) == Events(false, false, false, false, false, false, false)
  {
  }

  lemma {:induction false} NumExtendAgrees(arena: Arena, root: NodeId, ctx: Ctx, num: JsonGrammar.Number, g: Guide,
        b: Byte)
    requires WellFormed(arena, root) && GoodNumber(num) && NextNum(Class(num), b).Some?
    requires Tracks(arena, root, PNum(ctx, num), g) && Viable(arena, root, PNum(ctx, num))
    ensures Agrees(arena, root, PNum(ctx, num), g, b, PNum(ctx, Extended(num, b)))
  {
    hide NextNum, Class, Extended, EventsOf, GoodNumber, LevelsOf, CtxViable, WellFormed;
    NumberExtends(num, b);
    NumberEvents(Class(num), b, Class(Extended(num, b)));
    var ev := Events(false, false, false, false, false, false, false);
    ScalarContinues(arena, g, NodeFor(arena, root, ctx), num.Render(), b, ev);
    assert OnByte(arena, root, g, b, ev, true) == Content(arena, g, b, ev);
  }

  lemma {:induction false} NumAgrees(arena: Arena, root: NodeId, mode: Mode, ctx: Ctx, num: JsonGrammar.Number,
        g: Guide, b: Byte)
    requires Ready(arena, root, mode, PNum(ctx, num), g, b)
    ensures Agrees(arena, root, PNum(ctx, num), g, b, Advance(PNum(ctx, num), b))
  {
    if NextNum(Class(num), b).Some? {
      NumExtendAgrees(arena, root, ctx, num, g, b);
    } else {
      NumEndAgrees(arena, root, mode, ctx, num, g, b);
    }
  }

  /** The byte that ends a number settles its value before it is looked at itself. */
  lemma {:induction false} NumSettles(arena: Arena, root: NodeId, mode: Mode, ctx: Ctx, num: JsonGrammar.Number,
        g: Guide, b: Byte)
    requires Ready(arena, root, mode, PNum(ctx, num), g, b) && NextNum(Class(num), b).None?
    ensures var q, settled := Complete(ctx, JNum(num)), FinishScalar(arena, g, false, b);
      && IsAfter(q) && GoodAfter(q, mode) && Step(Abs(q), b, mode).Some?
      && (settled.Some? <==> Viable(arena, root, q))
      && (settled.Some? ==> Tracks(arena, root, q, settled.value))
  {
    hide Extended, EventsOf, OnByte, FinishScalar, LevelsOf, CtxViable, WellFormed, Conforms;
    CompleteNumber(num);
    CompleteIsGood(ctx, JNum(num), mode);
    NumberCloses(ctx, num, b, mode);
    ScalarDone(arena, root, ctx, JNum(num), g, num.Render(), false, b);
  }

  lemma {:induction false} NumEndAgrees(arena: Arena, root: NodeId, mode: Mode, ctx: Ctx, num: JsonGrammar.Number,
        g: Guide, b: Byte)
    requires Ready(arena, root, mode, PNum(ctx, num), g, b) && NextNum(Class(num), b).None?
    ensures Agrees(arena, root, PNum(ctx, num), g, b, AfterByte(Complete(ctx, JNum(num)), b))
  {
    NumSettles(arena, root, mode, ctx, num, g, b);
    var q := Complete(ctx, JNum(num));
    NumEndEvents(ctx, num, b, mode);
    hide Class, Extended, EventsOf, OnByte, FinishScalar, LevelsOf, CtxViable, WellFormed, Conforms, Good, Tracks,
      Viable, Complete, Step, AfterByte, Abs, GoodAfter;
    SettledOnByte(arena, root, g, b, Class(num), Abs(q).state, Abs(AfterByte(q, b)).state);
    var settled := FinishScalar(arena, g, false, b);
    if settled.Some? {
      AfterAgrees(arena, root, mode, q, settled.value, b);
    } else if Viable(arena, root, AfterByte(q, b)) {
      AfterWasViable(arena, root, q, b);
    }
  }

  /** The states around the byte that ends a number. */
  lemma {:induction false} NumEndEvents(ctx: Ctx, num: JsonGrammar.Number, b: Byte, mode: Mode)
    requires var q := Complete(ctx, JNum(num)); GoodAfter(q, mode) && Step(Abs(q), b, mode).Some?
    ensures Abs(PNum(ctx, num)).state == Num(Class(num))
    ensures var q := Complete(ctx, JNum(num));
      var before, after := Abs(q).state, Abs(AfterByte(q, b)).state;
      && (before.ArrNext? || before.ObjNext? || before.Done?) && !after.Num?
      && (b == RBRACE ==> before.ObjNext?) && (b == RBRACKET ==> before.ArrNext?)
  {
    hide GoodAfter, GoodNumber, StackOf, LevelsOf, AfterByte, AfterValue, Class;
    var q := Complete(ctx, JNum(num));
    StateAfter(q, b);
    BracketMatches(q, b, mode);
  }

  /** What follows a value is no number. */
  lemma {:induction false} StateAfter(q: Partial, b: Byte)
    requires IsAfter(q)
    ensures !Abs(AfterByte(q, b)).state.Num?
  {
  }

  lemma {:induction false} BracketMatches(q: Partial, b: Byte, mode: Mode)
    requires IsAfter(q) && Step(Abs(q), b, mode).Some?
    ensures b == RBRACE ==> Abs(q).state.ObjNext?
    ensures b == RBRACKET ==> Abs(q).state.ArrNext?
  {
  }

  lemma {:induction false} AfterWasViable(arena: Arena, root: NodeId, p: Partial, b: Byte)
    requires WellFormed(arena, root) && IsAfter(p) && Viable(arena, root, AfterByte(p, b))
    ensures Viable(arena, root, p)
  {
    match p
    case PArrNext(ctx, items) =>
      if b == RBRACKET {
        CompleteViable(arena, root, ctx, JArr([], items));
      }
    case PObjNext(ctx, members) =>
      if b == RBRACE {
        CompleteViable(arena, root, ctx, JObj([], members));
      }
    case PDone(_) =>
  }

  lemma {:induction false} ByteAgrees(arena: Arena, root: NodeId, mode: Mode, p: Partial, g: Guide, b: Byte)
    requires Ready(arena, root, mode, p, g, b)
    ensures Agrees(arena, root, p, g, b, Advance(p, b))
  {
    match p
    case PValue(ctx) => ValueAgrees(arena, root, mode, ctx, g, b);
    case PArrFirst(ctx) => ArrFirstAgrees(arena, root, mode, ctx, g, b);
    case PObjFirst(ctx, ws) => ObjFirstAgrees(arena, root, mode, ctx, ws, g, b);
    case PObjComma(_, _, _) => ObjCommaAgrees(arena, root, mode, p, g, b);
    case PStr(ctx, cs, tail) => StrAgrees(arena, root, mode, ctx, cs, tail, g, b);
    case PKey(_, _, _, _, _) => KeyAgrees(arena, root, mode, p, g, b);
    case PColon(_, _, _, _, _) => ColonAgrees(arena, root, mode, p, g, b);
    case PNum(ctx, num) => NumAgrees(arena, root, mode, ctx, num, g, b);
    case PLit(_, _, _) => LitAgrees(arena, root, mode, p, g, b);
    case PArrNext(_, _) => AfterAgrees(arena, root, mode, p, g, b);
    case PObjNext(_, _) => AfterAgrees(arena, root, mode, p, g, b);
    case PDone(_) => AfterAgrees(arena, root, mode, p, g, b);
  }

  // ----- a tree that can still conform comes from one that could

  lemma {:induction false} ShorterPrefix(node: Node, s: seq<Byte>, t: seq<Byte>)
    requires s != [] && ScalarPrefix(node, s + t)
    ensures ScalarPrefix(node, s)
  {
    var whole := s + t;
    assert whole[0] == s[0];
    match node
    case Number(integer) =>
      if integer {
        forall k | 0 <= k < |s| ensures s[k] != DOT && !IsExponentMark(s[k]) {
          assert whole[k] == s[k];
        }
      }
    case Enum(literals) =>
      var i :| 0 <= i < |literals| && whole <= literals[i];
      assert s <= literals[i];
    case _ =>
  }

  lemma {:induction false} ScalarWasViable(arena: Arena, root: NodeId, ctx: Ctx, v: Json, s: seq<Byte>, t: seq<Byte>)
    requires WellFormed(arena, root) && Valid(v) && (v.JLit? || v.JNum? || v.JStr?)
    requires s != [] && Render(v) == s + t && Viable(arena, root, Complete(ctx, v))
    ensures CtxViable(arena, root, ctx) && ScalarPrefix(NodeAt(arena, NodeFor(arena, root, ctx)), s)
  {
    CompleteViable(arena, root, ctx, v);
    ScalarConforms(arena, NodeFor(arena, root, ctx), Depth(ctx), v);
    ShorterPrefix(NodeAt(arena, NodeFor(arena, root, ctx)), s, t);
  }

  lemma {:induction false} ShorterKey(node: Node, members: Members, s: seq<Byte>, b: Byte)
    requires KeyPrefix(node, members, s + [b])
    ensures KeyPrefix(node, members, s)
  {
    if node.Object? && !node.additional {
      var i :| 0 <= i < |node.props| && i !in Emitted(node.props, members) && s + [b] <= node.props[i].0;
      PrefixGrows(s, b, node.props[i].0);
    }
  }

  lemma {:induction false} StrWasViable(arena: Arena, root: NodeId, mode: Mode, p: Partial, b: Byte)
    requires WellFormed(arena, root) && (p.PStr? || p.PKey?) && Good(p, mode) && Step(Abs(p), b, mode).Some?
    requires Viable(arena, root, Advance(p, b))
    ensures Viable(arena, root, p)
  {
    var cs, tail := p.cs, p.tail;
    if p.PStr? {
      var s := ScalarText(p);
      if tail == [] && b == QUOTE {
        assert Render(JStr(cs)) == s + [b];
        ScalarWasViable(arena, root, p.ctx, JStr(cs), s, [b]);
      } else {
        KeepsBytes(cs, tail, b, StackOf(p.ctx), false, mode);
        var (cs', tail') := StrByte(cs, tail, b);
        AppendAfter([QUOTE], cs.Render(), tail, b, cs'.Render(), tail');
        ShorterPrefix(NodeAt(arena, NodeFor(arena, root, p.ctx)), s, [b]);
      }
    } else {
      var s := cs.Render() + tail;
      if tail == [] && b == QUOTE {
        assert s == cs.Render();
      } else {
        KeepsBytes(cs, tail, b, StackOf(p.ctx) + [false], true, mode);
        ShorterKey(Container(arena, root, p.ctx), p.members, s, b);
      }
    }
  }

  lemma {:induction false} NumWasViable(arena: Arena, root: NodeId, mode: Mode, p: Partial, b: Byte)
    requires WellFormed(arena, root) && p.PNum? && Good(p, mode) && Step(Abs(p), b, mode).Some?
    requires Viable(arena, root, Advance(p, b))
    ensures Viable(arena, root, p)
  {
    var PNum(ctx, num) := p;
    if NextNum(Class(num), b).Some? {
      NumberExtends(num, b);
      ShorterPrefix(NodeAt(arena, NodeFor(arena, root, ctx)), num.Render(), [b]);
    } else {
      var q := Complete(ctx, JNum(num));
      NumberCloses(ctx, num, b, mode);
      CompleteNumber(num);
      CompleteIsGood(ctx, JNum(num), mode);
      AfterWasViable(arena, root, q, b);
      FirstByte(JNum(num));
      assert num.Render() + [] == num.Render();
      ScalarWasViable(arena, root, ctx, JNum(num), num.Render(), []);
    }
  }

  lemma {:induction false} LitWasViable(arena: Arena, root: NodeId, mode: Mode, p: Partial, b: Byte)
    requires WellFormed(arena, root) && p.PLit? && Good(p, mode) && Step(Abs(p), b, mode).Some?
    requires Viable(arena, root, Advance(p, b))
    ensures Viable(arena, root, p)
  {
    var PLit(ctx, lit, pos) := p;
    var w, s := Literal(lit), ScalarText(p);
    assert w[..pos + 1] == s + [b];
    if pos + 1 == |w| {
      assert Render(JLit(lit)) == s + [b];
      ScalarWasViable(arena, root, ctx, JLit(lit), s, [b]);
    } else {
      ShorterPrefix(NodeAt(arena, NodeFor(arena, root, ctx)), s, [b]);
    }
  }

  lemma {:induction false} WasViable(arena: Arena, root: NodeId, mode: Mode, p: Partial, b: Byte)
    requires WellFormed(arena, root) && Good(p, mode) && Step(Abs(p), b, mode).Some?
    requires Viable(arena, root, Advance(p, b))
    ensures Viable(arena, root, p)
  {
    hide WellFormed, Viable, Good, Abs, Advance, Step;
    match p
    case PArrFirst(ctx) => ArrFirstWasViable(arena, root, mode, ctx, b);
    case PObjFirst(ctx, ws) => ObjFirstWasViable(arena, root, mode, ctx, ws, b);
    case PStr(_, _, _) => StrWasViable(arena, root, mode, p, b);
    case PKey(_, _, _, _, _) => StrWasViable(arena, root, mode, p, b);
    case PNum(_, _) => NumWasViable(arena, root, mode, p, b);
    case PLit(_, _, _) => LitWasViable(arena, root, mode, p, b);
    case PArrNext(_, _) => FinishedWasViable(arena, root, mode, p, b);
    case PObjNext(_, _) => FinishedWasViable(arena, root, mode, p, b);
    case _ => OtherWasViable(arena, root, mode, p, b);
  }

  lemma {:induction false} ArrFirstWasViable(arena: Arena, root: NodeId, mode: Mode, ctx: Ctx, b: Byte)
    requires WellFormed(arena, root) && Good(PArrFirst(ctx), mode) && Step(Abs(PArrFirst(ctx)), b, mode).Some?
    requires Viable(arena, root, Advance(PArrFirst(ctx), b))
    ensures Viable(arena, root, PArrFirst(ctx))
  {
    if b == RBRACKET {
      EmptyWasViable(arena, root, ctx);
    } else if IsWs(b) {
      InnerWasViable(arena, root, ctx, [b]);
    } else {
      hide WellFormed, Viable, Good, Abs, Advance, Step;
      ArrFirstSteps(mode, ctx, b);
      OtherWasViable(arena, root, mode, PValue(InArr(ctx, NoItems, [])), b);
      InnerWasViable(arena, root, ctx, []);
    }
  }

  lemma {:induction false} EmptyWasViable(arena: Arena, root: NodeId, ctx: Ctx)
    requires WellFormed(arena, root) && Viable(arena, root, Complete(ctx, JArr([], NoItems)))
    ensures Viable(arena, root, PArrFirst(ctx))
  {
    CompleteViable(arena, root, ctx, JArr([], NoItems));
    hide WellFormed, Complete;
  }

  lemma {:induction false} InnerWasViable(arena: Arena, root: NodeId, ctx: Ctx, pre: seq<Byte>)
    requires Viable(arena, root, PValue(InArr(ctx, NoItems, pre)))
    ensures Viable(arena, root, PArrFirst(ctx))
  {
  }

  lemma {:induction false} ObjFirstWasViable(arena: Arena, root: NodeId, mode: Mode, ctx: Ctx, ws: seq<Byte>, b: Byte)
    requires WellFormed(arena, root) && Good(PObjFirst(ctx, ws), mode) && Step(Abs(PObjFirst(ctx, ws)), b, mode).Some?
    requires Viable(arena, root, Advance(PObjFirst(ctx, ws), b))
    ensures Viable(arena, root, PObjFirst(ctx, ws))
  {
    hide WellFormed, GoodCtx, NodeFor;
    CompleteViable(arena, root, ctx, JObj(ws, NoMembers));
  }

  lemma {:induction false} FinishedWasViable(arena: Arena, root: NodeId, mode: Mode, p: Partial, b: Byte)
    requires WellFormed(arena, root) && Good(p, mode) && Step(Abs(p), b, mode).Some?
    requires (p.PArrNext? || p.PObjNext?) && Viable(arena, root, Advance(p, b))
    ensures Viable(arena, root, p)
  {
    hide WellFormed, Viable, Step, AfterByte, GoodCtx;
    AfterWasViable(arena, root, p, b);
  }

  lemma {:induction false} OtherWasViable(arena: Arena, root: NodeId, mode: Mode, p: Partial, b: Byte)
    requires WellFormed(arena, root) && Good(p, mode) && Step(Abs(p), b, mode).Some?
    requires p.PValue? || p.PObjComma? || p.PColon? || p.PDone?
    requires Viable(arena, root, Advance(p, b))
    ensures Viable(arena, root, p)
  {
    hide WellFormed, GoodCtx;
  }

  // ----- whole texts

  /** One more byte of a text whose automaton goes on. */
  lemma {:induction false} WalkByteIffViable(arena: Arena, root: NodeId, mode: Mode, p: Partial, w: Option<Walker>,
        b: Byte)
    requires WellFormed(arena, root) && Good(p, mode) && Step(Abs(p), b, mode) == Some(Abs(Advance(p, b)))
    requires w.Some? <==> Viable(arena, root, p)
    requires w.Some? ==> w.value.m == Abs(p) && Tracks(arena, root, p, w.value.g)
    ensures
      var next := if w.None? then None else WalkByte(arena, root, mode, w.value, b);
      && (next.Some? <==> Viable(arena, root, Advance(p, b)))
      && (next.Some? ==> next.value.m == Abs(Advance(p, b)) && Tracks(arena, root, Advance(p, b), next.value.g))
  {
    hide Viable, Tracks, Advance, Good;
    if w.Some? {
      ByteAgrees(arena, root, mode, p, w.value.g, b);
    } else if Viable(arena, root, Advance(p, b)) {
      WasViable(arena, root, mode, p, b);
    }
  }

  /** The guide lets a text pass exactly when the automaton does and its tree can still conform. */
  lemma {:induction false} WalkIffViable(arena: Arena, root: NodeId, mode: Mode, s: seq<Byte>)
    requires WellFormed(arena, root)
    ensures
      var w := Walk(arena, root, mode, InitialWalker(), s);
      && (w.Some? <==> Run(Initial(), s, mode).Some? && Viable(arena, root, Tree(s)))
      && (w.Some? ==> w.value.m == Abs(Tree(s)) && Tracks(arena, root, Tree(s), w.value.g))
    decreases s, 1
  {
    if s == [] {
      assert Tree(s) == PValue(Top([]));
    } else {
      WalkGoesOn(arena, root, mode, s);
    }
  }

  lemma {:induction false} WalkGoesOn(arena: Arena, root: NodeId, mode: Mode, s: seq<Byte>)
    requires WellFormed(arena, root) && s != []
    ensures
      var w := Walk(arena, root, mode, InitialWalker(), s);
      && (w.Some? <==> Run(Initial(), s, mode).Some? && Viable(arena, root, Tree(s)))
      && (w.Some? ==> w.value.m == Abs(Tree(s)) && Tracks(arena, root, Tree(s), w.value.g))
    decreases s, 0
  {
    hide Viable, Tracks, Advance, Good, Abs, Step, OnByte;
    var init, b := s[..|s| - 1], s[|s| - 1];
    WalkIffViable(arena, root, mode, init);
    if Run(Initial(), init, mode).Some? {
      RunBuildsTree(init, mode);
    }
    if Run(Initial(), s, mode).Some? {
      RunBuildsTree(s, mode);
      WalkByteIffViable(arena, root, mode, Tree(init), Walk(arena, root, mode, InitialWalker(), init), b);
    }
  }

  predicate GuidedAccepts(arena: Arena, root: NodeId, mode: Mode, s: seq<Byte>) {
    var w := Walk(arena, root, mode, InitialWalker(), s);
    w.Some? && w.value.m.Accepting()
  }

  /** A bounded RFC 8259 document that conforms to the arena. */
  ghost predicate IsConformingText(arena: Arena, root: NodeId, mode: Mode, s: seq<Byte>) {
    exists d: Document ::
      && ValidDocument(d) && BoundedDocument(d) && (mode.ValueMode? || d.v.JObj?) && RenderDocument(d) == s
      && Conforms(arena, root, 0, d.v)
  }

  /** The text is a number standing alone under an enum, and not one of its literals. */
  predicate UnsettledNumber(arena: Arena, root: NodeId, s: seq<Byte>) {
    var node := NodeAt(arena, root);
    node.Enum? && Tree(s).PNum? && Tree(s).num.Render() !in node.literals
  }

  lemma {:induction false} GuidedIsViable(arena: Arena, root: NodeId, mode: Mode, s: seq<Byte>)
    requires WellFormed(arena, root)
    ensures GuidedAccepts(arena, root, mode, s) <==> Accepts(s, mode) && Viable(arena, root, Tree(s))
  {
    hide Viable, Tracks, Abs, Walk, Run, WellFormed;
    WalkIffViable(arena, root, mode, s);
    if Run(Initial(), s, mode).Some? {
      RunBuildsTree(s, mode);
    }
  }

  /** What an accepting tree's viability says of its document. */
  lemma {:induction false} ViableDocument(arena: Arena, root: NodeId, p: Partial)
    requires p.PDone? || (p.PNum? && p.ctx.Top? && p.num.Valid())
    ensures Conforms(arena, root, 0, DocumentOf(p).v) <==>
      && Viable(arena, root, p)
      && !(NodeAt(arena, root).Enum? && p.PNum? && p.num.Render() !in NodeAt(arena, root).literals)
  {
    if p.PNum? {
      ScalarConforms(arena, root, 0, JNum(p.num));
    }
  }

  /** Guided decoding accepts exactly the conforming documents, with one exception: a number at the top is accepting
      before the enum it should belong to has been settled. */
  lemma {:induction false} GuidedTextsConform(arena: Arena, root: NodeId, mode: Mode, s: seq<Byte>)
    requires WellFormed(arena, root)
    ensures IsConformingText(arena, root, mode, s) <==>
      GuidedAccepts(arena, root, mode, s) && !UnsettledNumber(arena, root, s)
  {
    hide Viable, Conforms, WellFormed, GuidedAccepts, Accepts, Bounded, Valid, Tree, RenderDocument;
    GuidedIsViable(arena, root, mode, s);
    if IsConformingText(arena, root, mode, s) {
      var d: Document :|
        && ValidDocument(d) && BoundedDocument(d) && (mode.ValueMode? || d.v.JObj?) && RenderDocument(d) == s
        && Conforms(arena, root, 0, d.v);
      JsonComplete.BoundedTextsAreAccepted(d, mode);
    }
    if Accepts(s, mode) {
      AcceptedTextsAreBounded(s, mode);
      ValidNumber(DocumentOf(Tree(s)));
      ViableDocument(arena, root, Tree(s));
    }
  }

  lemma {:induction false} ValidNumber(d: Document)
    requires ValidDocument(d)
    ensures d.v.JNum? ==> d.v.num.Valid()
  {
  }

  /** In object mode there is no exception. */
  lemma {:induction false} GuidedObjectsConform(arena: Arena, root: NodeId, s: seq<Byte>)
    requires WellFormed(arena, root)
    ensures GuidedAccepts(arena, root, ObjectMode, s) <==> IsConformingText(arena, root, ObjectMode, s)
  {
    hide Viable, Conforms, WellFormed, GuidedAccepts, Accepts, Bounded, Valid, Tree, RenderDocument;
    GuidedTextsConform(arena, root, ObjectMode, s);
    GuidedIsViable(arena, root, ObjectMode, s);
    if Accepts(s, ObjectMode) {
      AcceptedTextsAreBounded(s, ObjectMode);
    }
  }

  /** The exception is real: under the enum `[12]` the text `1` is accepted. */
  lemma {:induction false} TwelveArena(arena: Arena)
    requires arena == [Any, Enum([[0x31, 0x32]])]
    ensures WellFormed(arena, 1)
  {
    var num := JsonGrammar.Number(false, [0x31, 0x32], [], []);
    assert Render(JNum(num)) == [0x31, 0x32];
    assert IsScalarText([0x31, 0x32]);
  }

  lemma {:induction false} OneIsOpen()
    ensures Tree([0x31]) == PNum(Top([]), JsonGrammar.Number(false, [0x31], [], []))
    ensures Run(Initial(), [0x31], ValueMode).Some? && Accepts([0x31], ValueMode)
  {
    assert [0x31][..0] == [];
    assert Tree([]) == PValue(Top([]));
    assert Run(Initial(), [], ValueMode) == Some(Initial());
  }

  lemma {:induction false} OneIsViable(arena: Arena)
    requires arena == [Any, Enum([[0x31, 0x32]])]
    ensures Viable(arena, 1, PNum(Top([]), JsonGrammar.Number(false, [0x31], [], [])))
  {
    var p := PNum(Top([]), JsonGrammar.Number(false, [0x31], [], []));
    assert p.num.Render() == [0x31];
    assert [0x31] <= NodeAt(arena, 1).literals[0];
  }

  lemma {:induction false} OneDoesNotConform(arena: Arena)
    requires arena == [Any, Enum([[0x31, 0x32]])]
    ensures !IsConformingText(arena, 1, ValueMode, [0x31])
  {
    forall d: Document | Conforms(arena, 1, 0, d.v)
      ensures RenderDocument(d) != [0x31]
    {
      assert |RenderDocument(d)| == |d.pre| + 2 + |d.post|;
    }
  }

  lemma {:induction false} TopLevelNumberEscapesItsEnum()
    ensures
      var arena := [Any, Enum([[0x31, 0x32]])];
      && WellFormed(arena, 1) && GuidedAccepts(arena, 1, ValueMode, [0x31])
      && !IsConformingText(arena, 1, ValueMode, [0x31])
  {
    hide WellFormed, Viable, Tree, IsConformingText;
    var arena := [Any, Enum([[0x31, 0x32]])];
    TwelveArena(arena);
    OneIsOpen();
    OneIsViable(arena);
    WalkIffViable(arena, 1, ValueMode, [0x31]);
    OneDoesNotConform(arena);
  }
}
