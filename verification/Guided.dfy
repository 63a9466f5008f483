/**
 The guide accepts a byte exactly when the syntax tree it leads to can still conform.

 `Viable` says so of a tree; `Tracks` says the guide's state is the one the tree determines. Both
 are stated over the trees of `JsonTree`, so the guide needs no reasoning about the automaton.
 */
module Guided {
  import opened Wrappers
  import opened JsonBytes
  import opened Automaton
  import opened JsonGrammar
  import opened JsonTree
  import opened Guide
  import opened Conformance

  function Depth(ctx: Ctx): nat {
    match ctx
    case Top(_) => 0
    case InArr(up, _, _) => Depth(up) + 1
    case InObj(up, _, _, _, _, _) => Depth(up) + 1
  }

  /** The node governing the value at `ctx`. */
  function NodeFor(arena: Arena, root: NodeId, ctx: Ctx): NodeId
    decreases ctx, 0
  {
    match ctx
    case Top(_) => root
    case InArr(up, _, _) =>
      var node := Container(arena, root, up);
      if node.Array? then node.items else ANY
    case InObj(up, members, _, key, _, _) =>
      var props := PropsOf(Container(arena, root, up));
      var i := KeyProp(props, Emitted(props, members), key.Render());
      if i.Some? then props[i.value].1 else ANY
  }

  /** The guidance of the container that stands at `ctx`; none below `GUIDED_DEPTH`. */
  function Container(arena: Arena, root: NodeId, ctx: Ctx): Node
    decreases ctx, 1
  {
    if Depth(ctx) < GUIDED_DEPTH then NodeAt(arena, NodeFor(arena, root, ctx)) else Any
  }

  // ----- trees that can still conform

  /** `s` can begin a scalar of this node. */
  predicate ScalarPrefix(node: Node, s: seq<Byte>)
    requires s != []
  {
    match node
    case Any => true
    case Object(_, _, _) => false
    case Array(_) => false
    case Str => s[0] == QUOTE
    case Number(integer) =>
      && (s[0] == MINUS || IsDigit(s[0]))
      && (integer ==> forall k | 0 <= k < |s| :: s[k] != DOT && !IsExponentMark(s[k]))
    case Boolean => s[0] == LOWER_T || s[0] == LOWER_F
    case Null => s[0] == LOWER_N
    case Enum(literals) => exists i | 0 <= i < |literals| :: s <= literals[i]
  }

  predicate MayOpen(arena: Arena, root: NodeId, ctx: Ctx, isArray: bool) {
    var node := NodeAt(arena, NodeFor(arena, root, ctx));
    node.Any? || (if isArray then node.Array? else node.Object?)
  }

  predicate ItemsViable(arena: Arena, root: NodeId, ctx: Ctx, items: Items) {
    && MayOpen(arena, root, ctx, true)
    && var node := Container(arena, root, ctx);
       node.Array? ==> ItemsConform(arena, node.items, Depth(ctx) + 1, items)
  }

  predicate MembersViable(arena: Arena, root: NodeId, ctx: Ctx, members: Members) {
    && MayOpen(arena, root, ctx, false)
    && var node := Container(arena, root, ctx);
       node.Object? ==> MembersConform(arena, node.props, node.additional, Depth(ctx) + 1, members)
  }

  /** Some key that begins with `s` may follow these members. */
  predicate KeyPrefix(node: Node, members: Members, s: seq<Byte>) {
    node.Object? ==>
      || node.additional
      || exists i | 0 <= i < |node.props| :: i !in Emitted(node.props, members) && s <= node.props[i].0
  }

  predicate KeyAllowed(node: Node, members: Members, name: seq<Byte>) {
    node.Object? ==> node.additional || KeyProp(node.props, Emitted(node.props, members), name).Some?
  }

  predicate CtxViable(arena: Arena, root: NodeId, ctx: Ctx) {
    match ctx
    case Top(_) => true
    case InArr(up, items, _) => CtxViable(arena, root, up) && ItemsViable(arena, root, up, items)
    case InObj(up, members, _, key, _, _) =>
      && CtxViable(arena, root, up)
      && MembersViable(arena, root, up, members)
      && KeyAllowed(Container(arena, root, up), members, key.Render())
  }

  /** The bytes of the scalar that is open. */
  function ScalarText(p: Partial): (s: seq<Byte>) {
    match p
    case PStr(_, cs, tail) => [QUOTE] + cs.Render() + tail
    case PNum(_, num) => num.Render()
    case PLit(_, lit, pos) => if lit < 3 && pos <= |Literal(lit)| then Literal(lit)[..pos] else []
    case _ => []
  }

  predicate Viable(arena: Arena, root: NodeId, p: Partial) {
    && (!p.PDone? ==> CtxViable(arena, root, p.ctx))
    && match p
       case PValue(_) => true
       case PArrFirst(ctx) => MayOpen(arena, root, ctx, true)
       case PObjFirst(ctx, _) => MayOpen(arena, root, ctx, false)
       case PObjComma(ctx, members, _) =>
         MembersViable(arena, root, ctx, members) && KeyPrefix(Container(arena, root, ctx), members, [])
       case PStr(ctx, _, _) => ScalarViable(arena, root, p)
       case PNum(ctx, _) => ScalarViable(arena, root, p)
       case PLit(ctx, _, _) => ScalarViable(arena, root, p)
       case PKey(ctx, members, _, cs, tail) =>
         && MembersViable(arena, root, ctx, members)
         && KeyPrefix(Container(arena, root, ctx), members, cs.Render() + tail)
       case PColon(ctx, members, _, key, _) =>
         && MembersViable(arena, root, ctx, members)
         && KeyAllowed(Container(arena, root, ctx), members, key.Render())
       case PArrNext(ctx, items) => ItemsViable(arena, root, ctx, items)
       case PObjNext(ctx, members) => MembersViable(arena, root, ctx, members)
       case PDone(d) => Conforms(arena, root, 0, d.v)
  }

  predicate ScalarViable(arena: Arena, root: NodeId, p: Partial)
    requires p.PStr? || p.PNum? || p.PLit?
  {
    ScalarText(p) != [] && ScalarPrefix(NodeAt(arena, NodeFor(arena, root, p.ctx)), ScalarText(p))
  }

  // ----- the guide's state as the tree determines it

  function LevelAt(arena: Arena, root: NodeId, ctx: Ctx, emitted: set<nat>, curProp: Option<nat>): Level {
    var node := NodeAt(arena, NodeFor(arena, root, ctx));
    Level(if node.Object? || node.Array? then NodeFor(arena, root, ctx) else ANY, emitted, curProp)
  }

  /** The level of the object at `up` after the key of its pending member. */
  function KeyedLevel(arena: Arena, root: NodeId, up: Ctx, members: Members, key: Chars): Level {
    var props := PropsOf(Container(arena, root, up));
    var i := KeyProp(props, Emitted(props, members), key.Render());
    LevelAt(arena, root, up, Emitted(props, members) + AsSet(i), i)
  }

  /** The levels of the containers around `ctx`. */
  function LevelsOf(arena: Arena, root: NodeId, ctx: Ctx): seq<Level> {
    match ctx
    case Top(_) => []
    case InArr(up, _, _) =>
      LevelsOf(arena, root, up)
      + if Depth(up) < GUIDED_DEPTH then [LevelAt(arena, root, up, {}, None)] else []
    case InObj(up, members, _, key, _, _) =>
      LevelsOf(arena, root, up)
      + if Depth(up) < GUIDED_DEPTH then [KeyedLevel(arena, root, up, members, key)] else []
  }

  /** The levels inside the object at `ctx`. The last `curProp` is left open: the source keeps a stale one when a
      container below `GUIDED_DEPTH` closes, and never reads it. */
  predicate LevelsInside(arena: Arena, root: NodeId, ctx: Ctx, emitted: set<nat>, levels: seq<Level>) {
    var outer := LevelsOf(arena, root, ctx);
    if Depth(ctx) >= GUIDED_DEPTH then levels == outer
    else
      && |levels| == |outer| + 1
      && levels[..|outer|] == outer
      && levels[|outer|] == LevelAt(arena, root, ctx, emitted, levels[|outer|].curProp)
      && (!Container(arena, root, ctx).Object? ==> levels[|outer|].curProp.None?)
  }

  function ObjectEmitted(arena: Arena, root: NodeId, ctx: Ctx, members: Members): set<nat> {
    Emitted(PropsOf(Container(arena, root, ctx)), members)
  }

  function ScalarVal(id: NodeId, node: Node, s: seq<Byte>): ValCtx {
    match node
    case Enum(literals) => EnumScan(id, set i | 0 <= i < |literals| && s <= literals[i], |s|)
    case Number(integer) => if integer then IntNumber else Free
    case _ => Free
  }

  function KeyVal(node: Node, members: Members, s: seq<Byte>): ValCtx {
    if node.Object? then
      KeyScan(set i | 0 <= i < |node.props| && i !in Emitted(node.props, members) && s <= node.props[i].0, |s|,
        node.additional)
    else Free
  }

  function ValOf(arena: Arena, root: NodeId, p: Partial): ValCtx {
    if p.PStr? || p.PNum? || p.PLit? then
      ScalarVal(NodeFor(arena, root, p.ctx), NodeAt(arena, NodeFor(arena, root, p.ctx)), ScalarText(p))
    else if p.PKey? then KeyVal(Container(arena, root, p.ctx), p.members, p.cs.Render() + p.tail)
    else Free
  }

  predicate LevelsTrack(arena: Arena, root: NodeId, p: Partial, levels: seq<Level>) {
    match p
    case PDone(_) => levels == []
    case PArrFirst(ctx) => levels == LevelsOf(arena, root, InArr(ctx, NoItems, []))
    case PArrNext(ctx, _) => levels == LevelsOf(arena, root, InArr(ctx, NoItems, []))
    case PObjFirst(ctx, _) => LevelsInside(arena, root, ctx, {}, levels)
    case PObjComma(ctx, members, _) =>
      LevelsInside(arena, root, ctx, ObjectEmitted(arena, root, ctx, members), levels)
    case PObjNext(ctx, members) =>
      LevelsInside(arena, root, ctx, ObjectEmitted(arena, root, ctx, members), levels)
    case PKey(ctx, members, _, _, _) =>
      LevelsInside(arena, root, ctx, ObjectEmitted(arena, root, ctx, members), levels)
    case PColon(ctx, members, pre, key, ws) =>
      levels == LevelsOf(arena, root, InObj(ctx, members, pre, key, ws, []))
    case PValue(ctx) => levels == LevelsOf(arena, root, ctx)
    case PStr(ctx, _, _) => levels == LevelsOf(arena, root, ctx)
    case PNum(ctx, _) => levels == LevelsOf(arena, root, ctx)
    case PLit(ctx, _, _) => levels == LevelsOf(arena, root, ctx)
  }

  /** The lockstep invariant: levels and overflow together are the automaton's depth. */
  predicate Tracks(arena: Arena, root: NodeId, p: Partial, g: Guide) {
    && LevelsTrack(arena, root, p, g.levels)
    && g.overflow == |Abs(p).stack| - |g.levels|
    && g.val == ValOf(arena, root, p)
  }

  /** What guidance relies on in a compiled arena. */
  ghost predicate WellFormed(arena: Arena, root: NodeId) {
    && 0 < |arena| && arena[0] == Any && root < |arena|
    && forall id | 0 <= id < |arena| :: NodeOk(arena[id])
  }

  ghost predicate NodeOk(node: Node) {
    node.Enum? ==> forall i | 0 <= i < |node.literals| :: IsScalarText(node.literals[i])
  }

  ghost predicate IsScalarText(s: seq<Byte>) {
    exists v: Json :: Valid(v) && (v.JLit? || v.JNum? || v.JStr?) && Render(v) == s
  }
}
