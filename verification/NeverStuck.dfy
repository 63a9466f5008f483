/**
 Guided decoding never gets stuck: every text it lets through can be continued to an accepted
 document, and outside strings the next byte need not be whitespace.

 By `GuidedSteps` it is enough to finish the tree: close what is open, give the enum its literal,
 the key its name, and every missing required property its smallest value.
 */
module NeverStuck {
  import opened Wrappers
  import opened Sequences
  import opened JsonBytes
  import opened Automaton
  import opened JsonGrammar
  import opened JsonTree
  import opened Guide
  import opened Conformance
  import opened Guided
  import GuidedSteps
  import JsonComplete

  // ----- arenas whose names and literals can be written

  predicate PlainName(name: seq<Byte>) {
    && RunsWithin(name, MAX_RUN)
    && forall i | 0 <= i < |name| :: name[i] != QUOTE && name[i] != BACKSLASH && name[i] >= SPACE
  }

  predicate SpeakableNode(node: Node) {
    && (node.Object? ==>
          && DistinctNames(node.props)
          && (forall i | i in node.required :: i < |node.props|)
          && (forall i | 0 <= i < |node.props| :: PlainName(node.props[i].0)))
    && (node.Enum? ==>
          node.literals != [] && forall i | 0 <= i < |node.literals| :: RunsWithin(node.literals[i], MAX_RUN))
  }

  /** What never getting stuck asks of a schema: names without quotes, backslashes and control bytes, no run of more
      than 22 spaces in a name or literal, and an object or free root in object mode. */
  ghost predicate Speakable(arena: Arena, root: NodeId, mode: Mode) {
    && WellFormed(arena, root)
    && (forall id | 0 <= id < |arena| :: SpeakableNode(arena[id]))
    && (mode.ObjectMode? ==> arena[root].Object? || arena[root].Any?)
  }

  // ----- texts that go on with a byte that is not whitespace

  predicate GoesOn(s: seq<Byte>, t: seq<Byte>) {
    s <= t && (|s| < |t| ==> !IsWs(t[|s|]))
  }

  lemma {:induction false} GoesOnThrough(s: seq<Byte>, u: seq<Byte>, t: seq<Byte>)
    requires GoesOn(u, t) && s <= u
    ensures s <= t
    ensures GoesOn(s, u) ==> GoesOn(s, t)
  {
  }

  lemma {:induction false} GoesOnWith(s: seq<Byte>, t: seq<Byte>)
    requires t == [] || !IsWs(t[0])
    ensures GoesOn(s, s + t)
  {
  }

  lemma {:induction false} GoesOnInside(a: seq<Byte>, s: seq<Byte>, t: seq<Byte>)
    requires s <= t
    ensures a + s <= a + t
    ensures GoesOn(s, t) ==> GoesOn(a + s, a + t)
  {
  }

  // ----- the smallest conforming values

  function NameChars(name: seq<Byte>): (cs: Chars)
    ensures cs.Render() == name
    ensures (forall i | 0 <= i < |name| :: name[i] != QUOTE && name[i] != BACKSLASH && name[i] >= SPACE) ==> cs.Valid()
  {
    if name == [] then NoChars else MoreChars(NameChars(name[..|name| - 1]), Plain(name[|name| - 1]))
  }

  ghost function ScalarOf(lit: seq<Byte>): (v: Json)
    requires IsScalarText(lit)
    ensures Valid(v) && (v.JLit? || v.JNum? || v.JStr?) && Render(v) == lit
  {
    var v: Json :| Valid(v) && (v.JLit? || v.JNum? || v.JStr?) && Render(v) == lit;
    v
  }

  const NULL_VALUE := JLit(2)
  const ZERO_VALUE := JNum(JsonGrammar.Number(false, [ZERO], [], []))

  function DepthLeft(depth: nat): nat {
    if depth <= GUIDED_DEPTH then GUIDED_DEPTH + 1 - depth else 0
  }

  ghost function MinValue(arena: Arena, id: NodeId, depth: nat): Json
    decreases DepthLeft(depth), 0
  {
    var node := NodeAt(arena, id);
    match node
    case Any => NULL_VALUE
    case Object(props, _, _) =>
      JObj([], if depth < GUIDED_DEPTH then Filled(arena, node, depth + 1, NoMembers, 0) else NoMembers)
    case Array(_) => JArr([], NoItems)
    case Str => JStr(NoChars)
    case Number(_) => ZERO_VALUE
    case Boolean => JLit(0)
    case Null => NULL_VALUE
    case Enum(literals) => if literals != [] && IsScalarText(literals[0]) then ScalarOf(literals[0]) else NULL_VALUE
  }

  ghost function WithRequired(arena: Arena, node: Node, depth: nat, members: Members, k: nat): Members
    requires node.Object? && k < |node.props|
    decreases DepthLeft(depth), 1
  {
    if k in node.required && k !in Emitted(node.props, members) then
      MoreMembers(members, [], NameChars(node.props[k].0), [], [], MinValue(arena, node.props[k].1, depth), [])
    else members
  }

  /** The members and, after them, every required property from index `k` on that they lack. */
  ghost function Filled(arena: Arena, node: Node, depth: nat, members: Members, k: nat): Members
    requires node.Object?
    decreases DepthLeft(depth), 2, |node.props| - k
  {
    if k >= |node.props| then members
    else Filled(arena, node, depth, WithRequired(arena, node, depth, members, k), k + 1)
  }

  lemma {:induction false} MinValueOk(arena: Arena, root: NodeId, mode: Mode, id: NodeId, depth: nat, room: nat)
    requires Speakable(arena, root, mode) && depth <= GUIDED_DEPTH && room >= GUIDED_DEPTH + 1 - depth
    ensures
      var v := MinValue(arena, id, depth);
      Valid(v) && Bounded(v, room) && Conforms(arena, id, depth, v)
    decreases DepthLeft(depth), 0
  {
    var node := NodeAt(arena, id);
    match node
    case Object(_, _, _) =>
      if depth < GUIDED_DEPTH {
        FilledOk(arena, root, mode, node, depth + 1, NoMembers, 0, room - 1);
      }
    case Enum(literals) =>
      ScalarLiteral(arena, root, mode, id, 0, depth, room);
    case _ =>
  }

  /** A literal of an enum is a conforming scalar. */
  lemma {:induction false} ScalarLiteral(arena: Arena, root: NodeId, mode: Mode, id: NodeId, i: nat, depth: nat,
        room: nat)
    requires Speakable(arena, root, mode) && NodeAt(arena, id).Enum? && i < |NodeAt(arena, id).literals|
    ensures
      var lit := NodeAt(arena, id).literals[i];
      && IsScalarText(lit)
      && Bounded(ScalarOf(lit), room)
      && Conforms(arena, id, depth, ScalarOf(lit))
  {
    var lit := NodeAt(arena, id).literals[i];
    assert IsScalarText(lit);
    var v := ScalarOf(lit);
    if v.JStr? {
      InnerRuns([QUOTE], v.chars.Render(), [QUOTE]);
    }
  }

  lemma {:induction false} InnerRuns(a: seq<Byte>, s: seq<Byte>, b: seq<Byte>)
    requires RunsWithin(a + s + b, MAX_RUN) && (a == [] || !IsWs(a[|a| - 1]))
    ensures RunsWithin(s, MAX_RUN) && TrailingWs(s) == TrailingWs(a + s)
    decreases |s|
  {
    JsonComplete.RunsWithinPrefix(a + s, b, MAX_RUN);
    if s != [] {
      var init := s[..|s| - 1];
      assert (a + s)[..|a + s| - 1] == a + init;
      assert a + init + [] == a + init;
      InnerRuns(a, init, []);
    } else {
      assert a + s == a;
    }
  }

  lemma {:induction false} WithRequiredOk(arena: Arena, root: NodeId, mode: Mode, node: Node, depth: nat,
        members: Members, k: nat, room: nat)
    requires Speakable(arena, root, mode) && node.Object? && SpeakableNode(node) && k < |node.props|
    requires 0 < depth <= GUIDED_DEPTH && room >= GUIDED_DEPTH + 1 - depth
    requires ValidMembers(members) && BoundedMembers(members, room)
    requires MembersConform(arena, node.props, node.additional, depth, members)
    ensures
      var r := WithRequired(arena, node, depth, members, k);
      && ValidMembers(r) && BoundedMembers(r, room)
      && MembersConform(arena, node.props, node.additional, depth, r)
      && Emitted(node.props, members) <= Emitted(node.props, r)
      && (k in node.required ==> k in Emitted(node.props, r))
      && GoesOn(RenderMembers(members), RenderMembers(r))
    decreases DepthLeft(depth), 1
  {
    var props, emitted := node.props, Emitted(node.props, members);
    if k in node.required && k !in emitted {
      var name, r := props[k].0, WithRequired(arena, node, depth, members, k);
      MinValueOk(arena, root, mode, props[k].1, depth, room);
      assert KeyProp(props, emitted, name) == Some(k);
      var rest := RenderKey([], NameChars(name), [], []) + Render(r.v) + [];
      Assoc4(RenderMembersThen(members), RenderKey([], NameChars(name), [], []), Render(r.v), []);
      assert rest[0] == QUOTE;
      if members.NoMembers? {
        GoesOnWith([], rest);
      } else {
        Assoc(RenderMembers(members), [COMMA], rest);
        GoesOnWith(RenderMembers(members), [COMMA] + rest);
      }
    }
  }

  lemma {:induction false} SameGoesOn(s: seq<Byte>)
    ensures GoesOn(s, s)
  {
  }

  lemma {:induction false} RequiredInRange(node: Node, emitted: set<nat>)
    requires node.Object? && SpeakableNode(node)
    requires forall i | i in node.required && i < |node.props| :: i in emitted
    ensures node.required <= emitted
  {
  }

  lemma {:induction false} FilledOk(arena: Arena, root: NodeId, mode: Mode, node: Node, depth: nat, members: Members,
        k: nat, room: nat)
    requires Speakable(arena, root, mode) && node.Object? && SpeakableNode(node)
    requires 0 < depth <= GUIDED_DEPTH && room >= GUIDED_DEPTH + 1 - depth
    requires ValidMembers(members) && BoundedMembers(members, room)
    requires MembersConform(arena, node.props, node.additional, depth, members)
    requires forall i | i in node.required && i < k :: i in Emitted(node.props, members)
    ensures
      var r := Filled(arena, node, depth, members, k);
      && ValidMembers(r) && BoundedMembers(r, room)
      && MembersConform(arena, node.props, node.additional, depth, r)
      && node.required <= Emitted(node.props, r)
      && GoesOn(RenderMembers(members), RenderMembers(r))
    decreases DepthLeft(depth), 2, |node.props| - k
  {
    hide WithRequired, Speakable, SpeakableNode, RenderMembers, GoesOn;
    if k >= |node.props| {
      SameGoesOn(RenderMembers(members));
      RequiredInRange(node, Emitted(node.props, members));
    } else {
      var next := WithRequired(arena, node, depth, members, k);
      WithRequiredOk(arena, root, mode, node, depth, members, k, room);
      FilledOk(arena, root, mode, node, depth, next, k + 1, room);
      GoesOnThrough(RenderMembers(members), RenderMembers(next),
        RenderMembers(Filled(arena, node, depth, next, k + 1)));
    }
  }

  // ----- closing what is open

  ghost function ClosedMembers(arena: Arena, root: NodeId, ctx: Ctx, members: Members): Members {
    var node := Container(arena, root, ctx);
    if node.Object? then Filled(arena, node, Depth(ctx) + 1, members, 0) else members
  }

  /** The document that ends as soon as it can after the value `v` at `ctx`. */
  ghost function CloseUp(arena: Arena, root: NodeId, ctx: Ctx, v: Json): Document {
    match ctx
    case Top(pre) => Document(pre, v, [])
    case InArr(up, items, pre) => CloseUp(arena, root, up, JArr([], MoreItems(items, pre, v, [])))
    case InObj(up, members, pre, key, preColon, postColon) =>
      CloseUp(arena, root, up,
        JObj([], ClosedMembers(arena, root, up, MoreMembers(members, pre, key, preColon, postColon, v, []))))
  }

  ghost predicate GoodDocument(arena: Arena, root: NodeId, mode: Mode, d: Document) {
    && ValidDocument(d) && BoundedDocument(d) && (mode.ValueMode? || d.v.JObj?)
    && Conforms(arena, root, 0, d.v)
  }

  predicate FitsAt(arena: Arena, root: NodeId, mode: Mode, ctx: Ctx, v: Json) {
    && GoodCtx(ctx, mode) && CtxViable(arena, root, ctx)
    && Valid(v) && Room(ctx) >= 0 && Bounded(v, Room(ctx))
    && (v.JObj? || NotRoot(ctx, mode))
    && Conforms(arena, NodeFor(arena, root, ctx), Depth(ctx), v)
  }

  lemma {:induction false} ClosedMembersOk(arena: Arena, root: NodeId, mode: Mode, ctx: Ctx, members: Members)
    requires Speakable(arena, root, mode) && Container(arena, root, ctx).Object?
    requires GoodMembers(members, Room(ctx) - 1) && MembersViable(arena, root, ctx, members)
    ensures
      var node, r := Container(arena, root, ctx), ClosedMembers(arena, root, ctx, members);
      && GoodMembers(r, Room(ctx) - 1)
      && MembersConform(arena, node.props, node.additional, Depth(ctx) + 1, r)
      && node.required <= Emitted(node.props, r)
      && GoesOn(RenderMembers(members), RenderMembers(r))
  {
    hide Emitted, RenderMembers, Filled, MembersConform, GoesOn, NodeFor;
    GuidedSteps.DepthIsStack(ctx);
    FilledOk(arena, root, mode, Container(arena, root, ctx), Depth(ctx) + 1, members, 0, Room(ctx) - 1);
  }

  lemma {:induction false} ObjectCloses(arena: Arena, root: NodeId, mode: Mode, ctx: Ctx, members: Members)
    requires Speakable(arena, root, mode) && GoodCtx(ctx, mode) && CtxViable(arena, root, ctx)
    requires GoodMembers(members, Room(ctx) - 1) && MembersViable(arena, root, ctx, members)
    ensures
      var r := ClosedMembers(arena, root, ctx, members);
      FitsAt(arena, root, mode, ctx, JObj([], r)) && GoesOn(RenderMembers(members), RenderMembers(r))
  {
    hide GoodCtx, CtxViable, RenderMembers, Filled, NodeFor, Speakable;
    if Container(arena, root, ctx).Object? {
      ClosedMembersOk(arena, root, mode, ctx, members);
    }
  }

  lemma {:induction false} ArrayCloses(arena: Arena, root: NodeId, mode: Mode, ctx: Ctx, items: Items)
    requires Speakable(arena, root, mode) && GoodCtx(ctx, mode) && CtxViable(arena, root, ctx) && NotRoot(ctx, mode)
    requires GoodItems(items, Room(ctx) - 1) && ItemsViable(arena, root, ctx, items)
    ensures FitsAt(arena, root, mode, ctx, JArr([], items))
  {
    hide GoodCtx, CtxViable, NodeFor, Speakable;
    GuidedSteps.DepthIsStack(ctx);
    var v := JArr([], items);
    assert Valid(v) && Bounded(v, Room(ctx));
    assert Conforms(arena, NodeFor(arena, root, ctx), Depth(ctx), v);
  }

  /** A bracketed text goes on with its closing byte, or with what its contents go on with. */
  lemma {:induction false} ClosingGoesOn(c: seq<Byte>, left: Byte, body: seq<Byte>, longer: seq<Byte>, right: Byte)
    requires GoesOn(body, longer) && !IsWs(right)
    ensures GoesOn(c + [left] + body, c + ([left] + [] + longer + [right]))
  {
    Nil([left]);
    Assoc4(c, [left], longer, [right]);
    Assoc(c, [left], longer);
    GoesOnInside(c + [left], body, longer);
    GoesOnWith(c + [left] + longer, [right]);
    GoesOnThrough(c + [left] + body, c + [left] + longer, c + [left] + longer + [right]);
  }

  lemma {:induction false} CloseUpOk(arena: Arena, root: NodeId, mode: Mode, ctx: Ctx, v: Json)
    requires Speakable(arena, root, mode) && FitsAt(arena, root, mode, ctx, v)
    ensures GoodDocument(arena, root, mode, CloseUp(arena, root, ctx, v))
    ensures GoesOn(CtxText(ctx) + Render(v), RenderDocument(CloseUp(arena, root, ctx, v)))
    decreases ctx
  {
    match ctx
    case Top(pre) =>
      Nil(pre + Render(v));
    case InArr(up, items, pre) =>
      hide GoodDocument, FitsAt, RenderDocument, GoesOn, CtxText, Render, Speakable;
      OuterArray(arena, root, mode, ctx, v);
      var outer := JArr([], MoreItems(items, pre, v, []));
      CloseUpOk(arena, root, mode, up, outer);
      GoesOnThrough(CtxText(ctx) + Render(v), CtxText(up) + Render(outer),
        RenderDocument(CloseUp(arena, root, ctx, v)));
    case InObj(up, members, pre, key, preColon, postColon) =>
      hide GoodDocument, FitsAt, RenderDocument, GoesOn, CtxText, Render, Speakable;
      OuterObject(arena, root, mode, ctx, v);
      var outer := JObj([], ClosedMembers(arena, root, up, MoreMembers(members, pre, key, preColon, postColon, v, [])));
      CloseUpOk(arena, root, mode, up, outer);
      GoesOnThrough(CtxText(ctx) + Render(v), CtxText(up) + Render(outer),
        RenderDocument(CloseUp(arena, root, ctx, v)));
  }

  lemma {:induction false} OuterArray(arena: Arena, root: NodeId, mode: Mode, ctx: Ctx, v: Json)
    requires Speakable(arena, root, mode) && FitsAt(arena, root, mode, ctx, v) && ctx.InArr?
    ensures
      var outer := JArr([], MoreItems(ctx.items, ctx.pre, v, []));
      && FitsAt(arena, root, mode, ctx.up, outer)
      && CtxText(ctx) + Render(v) <= CtxText(ctx.up) + Render(outer)
      && GoesOn(CtxText(ctx) + Render(v), CtxText(ctx.up) + Render(outer))
  {
    hide Speakable, FitsAt, NodeFor;
    var all := MoreItems(ctx.items, ctx.pre, v, []);
    CompleteFits(arena, root, mode, ctx, v);
    ArrayCloses(arena, root, mode, ctx.up, all);
    ClosingGoesOn(CtxText(ctx.up), LBRACKET, RenderItems(all), RenderItems(all), RBRACKET);
    CompleteText(ctx, v);
  }

  lemma {:induction false} OuterObject(arena: Arena, root: NodeId, mode: Mode, ctx: Ctx, v: Json)
    requires Speakable(arena, root, mode) && FitsAt(arena, root, mode, ctx, v) && ctx.InObj?
    ensures
      var all := MoreMembers(ctx.members, ctx.pre, ctx.key, ctx.preColon, ctx.postColon, v, []);
      var outer := JObj([], ClosedMembers(arena, root, ctx.up, all));
      && FitsAt(arena, root, mode, ctx.up, outer)
      && CtxText(ctx) + Render(v) <= CtxText(ctx.up) + Render(outer)
      && GoesOn(CtxText(ctx) + Render(v), CtxText(ctx.up) + Render(outer))
  {
    hide Speakable, FitsAt, NodeFor, ClosedMembers;
    var all := MoreMembers(ctx.members, ctx.pre, ctx.key, ctx.preColon, ctx.postColon, v, []);
    var closed := ClosedMembers(arena, root, ctx.up, all);
    CompleteFits(arena, root, mode, ctx, v);
    ObjectCloses(arena, root, mode, ctx.up, all);
    ClosingGoesOn(CtxText(ctx.up), LBRACE, RenderMembers(all), RenderMembers(closed), RBRACE);
    CompleteText(ctx, v);
  }

  lemma {:induction false} CompleteFits(arena: Arena, root: NodeId, mode: Mode, ctx: Ctx, v: Json)
    requires Speakable(arena, root, mode) && FitsAt(arena, root, mode, ctx, v)
    ensures GoodAfter(Complete(ctx, v), mode) && Viable(arena, root, Complete(ctx, v))
  {
    CompleteIsGood(ctx, v, mode);
    GuidedSteps.CompleteViable(arena, root, ctx, v);
  }

  // ----- every place in a text

  /** A document the tree `p` can still become. */
  ghost predicate Finishes(arena: Arena, root: NodeId, mode: Mode, p: Partial, d: Document) {
    && GoodDocument(arena, root, mode, d)
    && Text(p) <= RenderDocument(d)
    && (!p.PStr? && !p.PKey? ==> GoesOn(Text(p), RenderDocument(d)))
  }

  lemma {:induction false} FinishAt(arena: Arena, root: NodeId, mode: Mode, p: Partial, ctx: Ctx, v: Json)
    returns (d: Document)
    requires Speakable(arena, root, mode) && FitsAt(arena, root, mode, ctx, v)
    requires Text(p) <= CtxText(ctx) + Render(v)
    requires !p.PStr? && !p.PKey? ==> GoesOn(Text(p), CtxText(ctx) + Render(v))
    ensures Finishes(arena, root, mode, p, d)
  {
    d := CloseUp(arena, root, ctx, v);
    CloseUpOk(arena, root, mode, ctx, v);
    GoesOnThrough(Text(p), CtxText(ctx) + Render(v), RenderDocument(d));
  }

  /** A place that leads to another one by more text. */
  lemma {:induction false} FinishThrough(arena: Arena, root: NodeId, mode: Mode, p: Partial, q: Partial, d: Document)
    requires Finishes(arena, root, mode, q, d) && Text(p) <= Text(q)
    requires p.PStr? || p.PKey? || (GoesOn(Text(p), Text(q)) && (Text(p) != Text(q) || (!q.PStr? && !q.PKey?)))
    ensures Finishes(arena, root, mode, p, d)
  {
  }

  ghost function AnyValue(arena: Arena, root: NodeId, mode: Mode, ctx: Ctx): Json {
    if ctx.Top? && mode.ObjectMode? && NodeAt(arena, root).Any? then JObj([], NoMembers)
    else MinValue(arena, NodeFor(arena, root, ctx), if Depth(ctx) <= GUIDED_DEPTH then Depth(ctx) else 0)
  }

  lemma {:induction false} FinishValue(arena: Arena, root: NodeId, mode: Mode, ctx: Ctx) returns (d: Document)
    requires Speakable(arena, root, mode) && Good(PValue(ctx), mode) && Viable(arena, root, PValue(ctx))
    ensures Finishes(arena, root, mode, PValue(ctx), d)
  {
    var v := AnyValue(arena, root, mode, ctx);
    GuidedSteps.DepthIsStack(ctx);
    if Depth(ctx) <= GUIDED_DEPTH {
      MinValueOk(arena, root, mode, NodeFor(arena, root, ctx), Depth(ctx), Room(ctx));
    } else {
      assert NodeFor(arena, root, ctx) == ANY;
    }
    FirstByte(v);
    GoesOnWith(CtxText(ctx), Render(v));
    d := FinishAt(arena, root, mode, PValue(ctx), ctx, v);
  }

  lemma {:induction false} FinishColon(arena: Arena, root: NodeId, mode: Mode, p: Partial) returns (d: Document)
    requires Speakable(arena, root, mode) && p.PColon? && Good(p, mode) && Viable(arena, root, p)
    ensures Finishes(arena, root, mode, p, d)
  {
    hide Speakable, Good, Viable, CtxText, Finishes, GoesOn;
    var q := PValue(InObj(p.ctx, p.members, p.pre, p.key, p.ws, []));
    ColonLeads(arena, root, mode, p);
    d := FinishValue(arena, root, mode, q.ctx);
    ColonGoesOn(p);
    FinishThrough(arena, root, mode, p, q, d);
  }

  lemma {:induction false} ColonLeads(arena: Arena, root: NodeId, mode: Mode, p: Partial)
    requires p.PColon? && Good(p, mode) && Viable(arena, root, p)
    ensures var q := PValue(InObj(p.ctx, p.members, p.pre, p.key, p.ws, []));
      Good(q, mode) && Viable(arena, root, q)
  {
    hide MembersViable, GoodMembers, KeyAllowed, Container;
  }

  lemma {:induction false} ColonGoesOn(p: Partial)
    requires p.PColon?
    ensures var q := PValue(InObj(p.ctx, p.members, p.pre, p.key, p.ws, []));
      Text(p) <= Text(q) && GoesOn(Text(p), Text(q)) && Text(p) != Text(q)
  {
    hide RenderMembersThen, GoesOn;
    ColonText(CtxText(p.ctx) + [LBRACE] + RenderMembersThen(p.members), p.pre, p.key.Render(), p.ws);
    GoesOnWith(Text(p), [COLON]);
  }

  /** The shortest end of a string whose escape `tail` is open. */
  function ClosedChars(cs: Chars, tail: seq<Byte>): Chars {
    if tail == [] then cs
    else if |tail| == 1 then MoreChars(cs, Escape(LOWER_N))
    else if 2 <= |tail| <= 6 then MoreChars(cs, Unicode(tail[2..] + seq(6 - |tail|, i => ZERO)))
    else cs
  }

  lemma {:induction false} ClosedCharsOk(cs: Chars, tail: seq<Byte>)
    requires GoodChars(cs) && GoodTail(tail)
    ensures GoodChars(ClosedChars(cs, tail)) && cs.Render() + tail <= ClosedChars(cs, tail).Render()
  {
    if tail == [] {
      Nil(cs.Render());
    } else if |tail| == 1 {
      AddChar(cs, Escape(LOWER_N));
      Assoc(cs.Render(), tail, [LOWER_N]);
      assert tail + [LOWER_N] == Escape(LOWER_N).Render();
    } else {
      var zeros := seq(6 - |tail|, i => ZERO);
      var c := Unicode(tail[2..] + zeros);
      assert tail == tail[..2] + tail[2..];
      assert c.Render() == tail + zeros;
      AddChar(cs, c);
      Assoc(cs.Render(), tail, zeros);
    }
  }

  /** A key the open one can become: the name it is a prefix of, or itself, closed. */
  lemma {:induction false} ChooseKey(arena: Arena, root: NodeId, mode: Mode, p: Partial) returns (key: Chars)
    requires Speakable(arena, root, mode) && p.PKey? && Good(p, mode) && Viable(arena, root, p)
    ensures GoodChars(key) && p.cs.Render() + p.tail <= key.Render()
    ensures KeyAllowed(Container(arena, root, p.ctx), p.members, key.Render())
  {
    var node := Container(arena, root, p.ctx);
    if node.Object? && !node.additional {
      var i :| 0 <= i < |node.props| && i !in Emitted(node.props, p.members)
        && p.cs.Render() + p.tail <= node.props[i].0;
      key := NameChars(node.props[i].0);
    } else {
      key := ClosedChars(p.cs, p.tail);
      ClosedCharsOk(p.cs, p.tail);
    }
  }

  lemma {:induction false} FinishKey(arena: Arena, root: NodeId, mode: Mode, p: Partial) returns (d: Document)
    requires Speakable(arena, root, mode) && p.PKey? && Good(p, mode) && Viable(arena, root, p)
    ensures Finishes(arena, root, mode, p, d)
  {
    hide Speakable, CtxText, RenderMembersThen, Finishes, GoodDocument, Good, Viable;
    var key := ChooseKey(arena, root, mode, p);
    var q := PColon(p.ctx, p.members, p.pre, key, []);
    KeyedColon(arena, root, mode, p, key);
    d := FinishColon(arena, root, mode, q);
    KeyGoesOn(CtxText(p.ctx) + [LBRACE] + RenderMembersThen(p.members) + p.pre + [QUOTE], p.cs.Render(), p.tail,
      key.Render());
    FinishThrough(arena, root, mode, p, q, d);
  }

  lemma {:induction false} KeyedColon(arena: Arena, root: NodeId, mode: Mode, p: Partial, key: Chars)
    requires p.PKey? && Good(p, mode) && Viable(arena, root, p)
    requires GoodChars(key) && KeyAllowed(Container(arena, root, p.ctx), p.members, key.Render())
    ensures
      var q := PColon(p.ctx, p.members, p.pre, key, []);
      Good(q, mode) && Viable(arena, root, q)
  {
    hide CtxViable, GoodCtx, GoodMembers, MembersViable, KeyAllowed, Container, GoodChars;
  }

  lemma {:induction false} KeyGoesOn(t: seq<Byte>, s: seq<Byte>, tail: seq<Byte>, k: seq<Byte>)
    requires s + tail <= k
    ensures t + s + tail <= t + k + [QUOTE] + []
  {
    Assoc(t, s, tail);
    GoesOnInside(t, s + tail, k);
    Nil(t + k + [QUOTE]);
  }

  lemma {:induction false} FinishComma(arena: Arena, root: NodeId, mode: Mode, p: Partial) returns (d: Document)
    requires Speakable(arena, root, mode) && p.PObjComma? && Good(p, mode) && Viable(arena, root, p)
    ensures Finishes(arena, root, mode, p, d)
  {
    hide Speakable, CtxViable, GoodCtx, GoodMembers, MembersViable, CtxText, RenderMembersThen, Finishes;
    var q := PKey(p.ctx, p.members, p.ws, NoChars, []);
    Nil(NoChars.Render());
    d := FinishKey(arena, root, mode, q);
    Nil(Text(p) + [QUOTE]);
    GoesOnWith(Text(p), [QUOTE]);
    FinishThrough(arena, root, mode, p, q, d);
  }

  /** An object that needs a key may start with one of its required names. */
  lemma {:induction false} FirstKey(arena: Arena, root: NodeId, mode: Mode, ctx: Ctx, ws: seq<Byte>)
    requires Speakable(arena, root, mode) && Good(PObjFirst(ctx, ws), mode) && Viable(arena, root, PObjFirst(ctx, ws))
    requires Container(arena, root, ctx).Object? && Container(arena, root, ctx).required != {}
    ensures var q := PKey(ctx, NoMembers, ws, NoChars, []);
      Good(q, mode) && Viable(arena, root, q)
  {
    hide CtxViable, GoodCtx;
    var node := Container(arena, root, ctx);
    var i :| i in node.required;
    assert NoChars.Render() + [] <= node.props[i].0;
  }

  lemma {:induction false} FirstKeyText(ctx: Ctx, ws: seq<Byte>)
    ensures Text(PKey(ctx, NoMembers, ws, NoChars, [])) == Text(PObjFirst(ctx, ws)) + [QUOTE]
  {
    hide CtxText;
    var t := CtxText(ctx) + [LBRACE];
    Assoc(t, [], ws);
    Nil(t);
    Nil(t + ws + [QUOTE]);
  }

  /** An object that needs no key may close at once. */
  lemma {:induction false} EmptyObjectFits(arena: Arena, root: NodeId, mode: Mode, ctx: Ctx, ws: seq<Byte>)
    requires Good(PObjFirst(ctx, ws), mode) && Viable(arena, root, PObjFirst(ctx, ws))
    requires !(Container(arena, root, ctx).Object? && Container(arena, root, ctx).required != {})
    ensures FitsAt(arena, root, mode, ctx, JObj(ws, NoMembers))
  {
    hide CtxViable, GoodCtx;
    var v := JObj(ws, NoMembers);
    assert Valid(v);
    assert Bounded(v, Room(ctx));
    assert Conforms(arena, NodeFor(arena, root, ctx), Depth(ctx), v);
    assert v.JObj? || NotRoot(ctx, mode);
  }

  lemma {:induction false} EmptyObjectGoesOn(ctx: Ctx, ws: seq<Byte>)
    ensures var t := Text(PObjFirst(ctx, ws));
      t <= CtxText(ctx) + Render(JObj(ws, NoMembers)) && GoesOn(t, CtxText(ctx) + Render(JObj(ws, NoMembers)))
  {
    hide CtxText, GoesOn;
    EmptyObjectText(ctx, ws);
    CompleteText(ctx, JObj(ws, NoMembers));
    GoesOnWith(Text(PObjFirst(ctx, ws)), [RBRACE]);
  }

  lemma {:induction false} FinishObjFirst(arena: Arena, root: NodeId, mode: Mode, ctx: Ctx, ws: seq<Byte>)
    returns (d: Document)
    requires Speakable(arena, root, mode) && Good(PObjFirst(ctx, ws), mode) && Viable(arena, root, PObjFirst(ctx, ws))
    ensures Finishes(arena, root, mode, PObjFirst(ctx, ws), d)
  {
    hide Speakable, Good, Viable, Text, CtxText, Render, Finishes, FitsAt, GoesOn;
    var p, node := PObjFirst(ctx, ws), Container(arena, root, ctx);
    if node.Object? && node.required != {} {
      var q := PKey(ctx, NoMembers, ws, NoChars, []);
      FirstKey(arena, root, mode, ctx, ws);
      d := FinishKey(arena, root, mode, q);
      FirstKeyText(ctx, ws);
      GoesOnWith(Text(p), [QUOTE]);
      FinishThrough(arena, root, mode, p, q, d);
    } else {
      EmptyObjectFits(arena, root, mode, ctx, ws);
      EmptyObjectGoesOn(ctx, ws);
      d := FinishAt(arena, root, mode, p, ctx, JObj(ws, NoMembers));
    }
  }

  // ----- inside scalars

  /** An open scalar under an enum goes on to one of its literals. */
  lemma {:induction false} FinishEnum(arena: Arena, root: NodeId, mode: Mode, p: Partial) returns (d: Document)
    requires Speakable(arena, root, mode) && (p.PStr? || p.PNum? || p.PLit?) && Good(p, mode) && Viable(arena, root, p)
    requires NodeAt(arena, NodeFor(arena, root, p.ctx)).Enum?
    ensures Finishes(arena, root, mode, p, d)
  {
    var ctx, id, s := p.ctx, NodeFor(arena, root, p.ctx), ScalarText(p);
    GuidedSteps.DepthIsStack(ctx);
    var i :| 0 <= i < |NodeAt(arena, id).literals| && s <= NodeAt(arena, id).literals[i];
    ScalarLiteral(arena, root, mode, id, i, Depth(ctx), Room(ctx));
    var v := ScalarOf(NodeAt(arena, id).literals[i]);
    ScalarInside(p);
    if !p.PStr? {
      LiteralGoesOn(p, v);
    }
    GoesOnInside(CtxText(ctx), s, Render(v));
    d := FinishAt(arena, root, mode, p, ctx, v);
  }

  lemma {:induction false} ScalarInside(p: Partial)
    requires p.PStr? || p.PNum? || p.PLit?
    ensures Text(p) == CtxText(p.ctx) + ScalarText(p)
  {
    if p.PStr? {
      Assoc4(CtxText(p.ctx), [QUOTE], p.cs.Render(), p.tail);
    }
  }

  /** Numbers and literals hold no whitespace. */
  lemma {:induction false} LiteralGoesOn(p: Partial, v: Json)
    requires (p.PNum? || p.PLit?) && ScalarText(p) != [] && ScalarText(p) <= Render(v)
    requires p.PNum? ==> GoodNumber(p.num)
    requires Valid(v) && (v.JLit? || v.JNum? || v.JStr?)
    ensures GoesOn(ScalarText(p), Render(v))
  {
    GuidedSteps.ScalarTextsStart(v);
    assert ScalarText(p)[0] == Render(v)[0];
    if p.PNum? {
      assert p.num.Render()[0] == if p.num.minus then MINUS else p.num.whole[0];
    }
    if v.JNum? {
      NoWsInNumber(v.num);
    }
  }

  lemma {:induction false} NoWsInNumber(num: JsonGrammar.Number)
    requires num.Valid()
    ensures forall i | 0 <= i < |num.Render()| :: !IsWs(num.Render()[i])
  {
    assert forall i | 0 <= i < |num.frac| :: i > 0 ==> num.frac[i] == num.frac[1..][i - 1];
    if num.exp != [] && AllDigits(num.exp[1..]) {
      assert forall i | 0 <= i < |num.exp| :: i > 0 ==> num.exp[i] == num.exp[1..][i - 1];
    } else if num.exp != [] {
      assert forall i | 0 <= i < |num.exp| :: i > 1 ==> num.exp[i] == num.exp[2..][i - 2];
    }
  }

  /** The shortest end of a number. */
  function ClosedNumber(num: JsonGrammar.Number): JsonGrammar.Number {
    match Class(num)
    case Minus => num.(whole := [ZERO])
    case Dot => num.(frac := num.frac + [ZERO])
    case Exp => num.(exp := num.exp + [ZERO])
    case ExpSign => num.(exp := num.exp + [ZERO])
    case _ => num
  }

  lemma {:induction false} ClosedIsExtended(num: JsonGrammar.Number)
    requires GoodNumber(num) && !Class(num).Complete()
    ensures NextNum(Class(num), ZERO).Some? && Extended(num, ZERO) == ClosedNumber(num)
    ensures NextNum(Class(num), ZERO).value.Complete()
  {
    assert [] + [ZERO] == [ZERO];
  }

  lemma {:induction false} ClosedKeepsParts(num: JsonGrammar.Number)
    ensures num.exp == [] && num.frac == [] ==> ClosedNumber(num).exp == [] && ClosedNumber(num).frac == []
  {
  }

  lemma {:induction false} ClosedNumberOk(num: JsonGrammar.Number)
    requires GoodNumber(num)
    ensures ClosedNumber(num).Valid()
    ensures GoesOn(num.Render(), ClosedNumber(num).Render())
    ensures num.exp == [] && num.frac == [] ==> ClosedNumber(num).exp == [] && ClosedNumber(num).frac == []
  {
    ClosedKeepsParts(num);
    if Class(num).Complete() {
      CompleteNumber(num);
    } else {
      hide ClosedNumber, Extended, Class, GoodNumber, GoesOn;
      ClosedIsExtended(num);
      NumberExtends(num, ZERO);
      CompleteNumber(ClosedNumber(num));
      GoesOnWith(num.Render(), [ZERO]);
    }
  }

  lemma {:induction false} OpenMarks(num: JsonGrammar.Number)
    requires GoodNumber(num)
    ensures num.frac != [] ==> exists k | 0 <= k < |num.Render()| :: num.Render()[k] == DOT
    ensures num.frac == [] && num.exp != [] ==> exists k | 0 <= k < |num.Render()| :: IsExponentMark(num.Render()[k])
  {
    var sign := if num.minus then [MINUS] else [];
    if num.frac != [] {
      assert num.Render()[|sign + num.whole|] == DOT;
    } else if num.exp != [] {
      assert num.Render()[|sign + num.whole|] == num.exp[0];
    }
  }

  lemma {:induction false} FinishScalar(arena: Arena, root: NodeId, mode: Mode, p: Partial) returns (d: Document)
    requires Speakable(arena, root, mode) && (p.PStr? || p.PNum? || p.PLit?) && Good(p, mode) && Viable(arena, root, p)
    ensures Finishes(arena, root, mode, p, d)
  {
    var ctx, node := p.ctx, NodeAt(arena, NodeFor(arena, root, p.ctx));
    if node.Enum? {
      d := FinishEnum(arena, root, mode, p);
    } else {
      var v := ClosedScalar(p);
      ClosedScalarOk(arena, root, mode, p);
      GuidedSteps.DepthIsStack(ctx);
      ScalarInside(p);
      GoesOnInside(CtxText(ctx), ScalarText(p), Render(v));
      d := FinishAt(arena, root, mode, p, ctx, v);
    }
  }

  function ClosedScalar(p: Partial): Json
    requires p.PStr? || p.PNum? || p.PLit?
  {
    match p
    case PStr(_, cs, tail) => JStr(ClosedChars(cs, tail))
    case PNum(_, num) => JNum(ClosedNumber(num))
    case PLit(_, lit, _) => JLit(lit)
  }

  lemma {:induction false} ClosedStringOk(p: Partial)
    requires p.PStr? && GoodChars(p.cs) && GoodTail(p.tail)
    ensures var v := ClosedScalar(p); Valid(v) && Bounded(v, 0) && ScalarText(p) <= Render(v)
  {
    var PStr(_, cs, tail) := p;
    ClosedCharsOk(cs, tail);
    var k := ClosedChars(cs, tail).Render();
    Assoc([QUOTE], cs.Render(), tail);
    GoesOnInside([QUOTE], cs.Render() + tail, k);
    assert [QUOTE] + k <= [QUOTE] + k + [QUOTE];
  }

  lemma {:induction false} ClosedNumConforms(arena: Arena, id: NodeId, depth: nat, num: JsonGrammar.Number)
    requires GoodNumber(num) && !NodeAt(arena, id).Enum?
    requires num.Render() != [] && ScalarPrefix(NodeAt(arena, id), num.Render())
    ensures Conforms(arena, id, depth, JNum(ClosedNumber(num)))
  {
    ClosedNumberOk(num);
    OpenMarks(num);
    assert num.Render()[0] == if num.minus then MINUS else num.whole[0];
  }

  lemma {:induction false} ClosedScalarConforms(arena: Arena, root: NodeId, mode: Mode, p: Partial)
    requires Speakable(arena, root, mode) && (p.PStr? || p.PNum? || p.PLit?) && Good(p, mode) && Viable(arena, root, p)
    requires !NodeAt(arena, NodeFor(arena, root, p.ctx)).Enum?
    ensures Conforms(arena, NodeFor(arena, root, p.ctx), Depth(p.ctx), ClosedScalar(p))
  {
    hide CtxViable, GoodCtx, ClosedChars, ClosedNumber, NodeFor, Speakable;
    match p
    case PStr(_, _, _) =>
    case PNum(ctx, num) => ClosedNumConforms(arena, NodeFor(arena, root, ctx), Depth(ctx), num);
    case PLit(_, lit, pos) =>
      assert Literal(lit)[..pos][0] == Literal(lit)[0];
  }

  lemma {:induction false} ClosedScalarOk(arena: Arena, root: NodeId, mode: Mode, p: Partial)
    requires Speakable(arena, root, mode) && (p.PStr? || p.PNum? || p.PLit?) && Good(p, mode) && Viable(arena, root, p)
    requires !NodeAt(arena, NodeFor(arena, root, p.ctx)).Enum?
    ensures FitsAt(arena, root, mode, p.ctx, ClosedScalar(p))
    ensures ScalarText(p) <= Render(ClosedScalar(p))
    ensures !p.PStr? ==> GoesOn(ScalarText(p), Render(ClosedScalar(p)))
  {
    hide CtxViable, ClosedChars, ClosedNumber, NodeFor, Speakable, ScalarPrefix, Conforms;
    ClosedScalarConforms(arena, root, mode, p);
    match p
    case PStr(_, cs, tail) => ClosedStringOk(p);
    case PNum(_, num) => ClosedNumberOk(num);
    case PLit(_, lit, pos) =>
  }

  lemma {:induction false} FinishArray(arena: Arena, root: NodeId, mode: Mode, p: Partial, items: Items)
    returns (d: Document)
    requires Speakable(arena, root, mode) && Good(p, mode) && Viable(arena, root, p)
    requires (p.PArrFirst? && items.NoItems?) || (p.PArrNext? && p.items == items)
    ensures Finishes(arena, root, mode, p, d)
  {
    hide Speakable, CtxText, Finishes, GoodDocument, FitsAt, GoesOn;
    ArrayCloses(arena, root, mode, p.ctx, items);
    SameGoesOn(RenderItems(items));
    ClosingGoesOn(CtxText(p.ctx), LBRACKET, RenderItems(items), RenderItems(items), RBRACKET);
    Nil(CtxText(p.ctx) + [LBRACKET]);
    GoesOnIsPrefix(Text(p), CtxText(p.ctx) + Render(JArr([], items)));
    d := FinishAt(arena, root, mode, p, p.ctx, JArr([], items));
  }

  lemma {:induction false} GoesOnIsPrefix(s: seq<Byte>, t: seq<Byte>)
    ensures GoesOn(s, t) ==> s <= t
  {
  }

  lemma {:induction false} FinishObject(arena: Arena, root: NodeId, mode: Mode, p: Partial) returns (d: Document)
    requires Speakable(arena, root, mode) && p.PObjNext? && Good(p, mode) && Viable(arena, root, p)
    ensures Finishes(arena, root, mode, p, d)
  {
    hide Speakable, CtxText, Finishes, GoodDocument, FitsAt, GoesOn, ClosedMembers;
    var closed := ClosedMembers(arena, root, p.ctx, p.members);
    ObjectCloses(arena, root, mode, p.ctx, p.members);
    ClosingGoesOn(CtxText(p.ctx), LBRACE, RenderMembers(p.members), RenderMembers(closed), RBRACE);
    GoesOnIsPrefix(Text(p), CtxText(p.ctx) + Render(JObj([], closed)));
    d := FinishAt(arena, root, mode, p, p.ctx, JObj([], closed));
  }

  lemma {:induction false} FinishDone(arena: Arena, root: NodeId, mode: Mode, p: Partial)
    requires p.PDone? && Good(p, mode) && Viable(arena, root, p)
    ensures Finishes(arena, root, mode, p, p.d)
  {
  }

  lemma {:induction false} Finish(arena: Arena, root: NodeId, mode: Mode, p: Partial) returns (d: Document)
    requires Speakable(arena, root, mode) && Good(p, mode) && Viable(arena, root, p)
    ensures Finishes(arena, root, mode, p, d)
  {
    hide Speakable, Good, Viable, Finishes;
    match p
    case PValue(ctx) => d := FinishValue(arena, root, mode, ctx);
    case PArrFirst(ctx) => d := FinishArray(arena, root, mode, p, NoItems);
    case PObjFirst(ctx, ws) => d := FinishObjFirst(arena, root, mode, ctx, ws);
    case PObjComma(_, _, _) => d := FinishComma(arena, root, mode, p);
    case PKey(_, _, _, _, _) => d := FinishKey(arena, root, mode, p);
    case PColon(_, _, _, _, _) => d := FinishColon(arena, root, mode, p);
    case PArrNext(_, items) => d := FinishArray(arena, root, mode, p, items);
    case PObjNext(_, _) => d := FinishObject(arena, root, mode, p);
    case PDone(doc) =>
      d := doc;
      FinishDone(arena, root, mode, p);
    case _ => d := FinishScalar(arena, root, mode, p);
  }

  // ----- the theorems

  /** From every state guided decoding can reach, some continuation is accepted, and conforms. */
  lemma {:induction false} NeverStuck(arena: Arena, root: NodeId, mode: Mode, s: seq<Byte>) returns (t: seq<Byte>)
    requires Speakable(arena, root, mode)
    requires Walk(arena, root, mode, InitialWalker(), s).Some?
    ensures GuidedSteps.GuidedAccepts(arena, root, mode, s + t)
    ensures GuidedSteps.IsConformingText(arena, root, mode, s + t)
    ensures t != [] && !Tree(s).PStr? && !Tree(s).PKey? ==> !IsWs(t[0])
  {
    GuidedSteps.WalkIffViable(arena, root, mode, s);
    RunBuildsTree(s, mode);
    var d := Finish(arena, root, mode, Tree(s));
    t := RenderDocument(d)[|s|..];
    assert s + t == RenderDocument(d);
    GuidedSteps.GuidedTextsConform(arena, root, mode, s + t);
  }

  lemma {:induction false} WalkPrefix(arena: Arena, root: NodeId, mode: Mode, s: seq<Byte>, t: seq<Byte>)
    requires Walk(arena, root, mode, InitialWalker(), s + t).Some?
    ensures Walk(arena, root, mode, InitialWalker(), s).Some?
    decreases |t|
  {
    if t == [] {
      assert s + t == s;
    } else {
      assert (s + t)[..|s + t| - 1] == s + t[..|t| - 1];
      WalkPrefix(arena, root, mode, s, t[..|t| - 1]);
    }
  }

  /** Whether the automaton is inside a string or a key. */
  predicate InString(w: Walker) {
    w.m.state.Str?
  }

  /** At every reachable state the text may stop here or some byte goes on, outside strings one that is not whitespace;
      `OnlySpaces.OtherByteIff` says what is left inside them. */
  lemma {:induction false} SomeByteGoesOn(arena: Arena, root: NodeId, mode: Mode, s: seq<Byte>)
    requires Speakable(arena, root, mode)
    requires Walk(arena, root, mode, InitialWalker(), s).Some?
    ensures
      var w := Walk(arena, root, mode, InitialWalker(), s).value;
      || w.m.Accepting()
      || exists b: Byte :: WalkByte(arena, root, mode, w, b).Some? && (InString(w) || !IsWs(b))
  {
    hide Walk, WalkByte, Tracks, Viable, Abs, Tree;
    var w := Walk(arena, root, mode, InitialWalker(), s).value;
    var t := NeverStuck(arena, root, mode, s);
    GuidedSteps.WalkIffViable(arena, root, mode, s);
    TreeInString(Tree(s));
    if t == [] {
      Nil(s);
    } else {
      Assoc(s, [t[0]], t[1..]);
      assert t == [t[0]] + t[1..];
      WalkPrefix(arena, root, mode, s + [t[0]], t[1..]);
      WalkOne(arena, root, mode, s, t[0]);
    }
  }

  lemma {:induction false} TreeInString(p: Partial)
    ensures p.PStr? || p.PKey? ==> Abs(p).state.Str?
  {
  }

  lemma {:induction false} WalkOne(arena: Arena, root: NodeId, mode: Mode, s: seq<Byte>, b: Byte)
    requires Walk(arena, root, mode, InitialWalker(), s + [b]).Some?
    ensures Walk(arena, root, mode, InitialWalker(), s).Some?
    ensures WalkByte(arena, root, mode, Walk(arena, root, mode, InitialWalker(), s).value, b).Some?
  {
    assert (s + [b])[..|s|] == s;
  }

  /** Inside a string whitespace can be the only way on: an enum literal may call for it. */
  lemma {:induction false} OnlyASpaceInsideALiteral(b: Byte)
    ensures
      var arena := [Any, Enum([[QUOTE, SPACE, QUOTE]])];
      var w := Walk(arena, 1, ValueMode, InitialWalker(), [QUOTE]);
      && Speakable(arena, 1, ValueMode)
      && w.Some? && !w.value.m.Accepting()
      && (WalkByte(arena, 1, ValueMode, w.value, b).Some? ==> b == SPACE)
  {
    var arena := [Any, Enum([[QUOTE, SPACE, QUOTE]])];
    SpaceLiteral(arena);
    var s := [QUOTE];
    assert s[..0] == [];
    assert Tree([]) == PValue(Top([]));
    assert Tree(s) == PStr(Top([]), NoChars, []);
    assert Run(Initial(), [], ValueMode) == Some(Initial());
    assert ScalarText(Tree(s)) == s && s <= arena[1].literals[0];
    GuidedSteps.WalkIffViable(arena, 1, ValueMode, s);
    var w := Walk(arena, 1, ValueMode, InitialWalker(), s).value;
    if WalkByte(arena, 1, ValueMode, w, b).Some? {
      assert (s + [b])[..|s|] == s;
      GuidedSteps.WalkIffViable(arena, 1, ValueMode, s + [b]);
      LiteralByte(arena, b);
    }
  }

  lemma {:induction false} SpaceString()
    ensures IsScalarText([QUOTE, SPACE, QUOTE])
  {
    var cs := MoreChars(NoChars, Plain(SPACE));
    assert cs.Render() == [SPACE];
    assert Valid(JStr(cs));
    assert [QUOTE] + cs.Render() + [QUOTE] == [QUOTE, SPACE, QUOTE];
    assert Render(JStr(cs)) == [QUOTE, SPACE, QUOTE];
  }

  lemma {:induction false} SpaceLiteral(arena: Arena)
    requires arena == [Any, Enum([[QUOTE, SPACE, QUOTE]])]
    ensures Speakable(arena, 1, ValueMode)
  {
    hide IsScalarText;
    var lit := [QUOTE, SPACE, QUOTE];
    SpaceString();
    ShortRuns(lit);
  }

  lemma {:induction false} ShortRuns(s: seq<Byte>)
    requires |s| <= MAX_RUN
    ensures RunsWithin(s, MAX_RUN) && TrailingWs(s) <= |s|
  {
    if s != [] {
      ShortRuns(s[..|s| - 1]);
    }
  }

  lemma {:induction false} LiteralByte(arena: Arena, b: Byte)
    requires arena == [Any, Enum([[QUOTE, SPACE, QUOTE]])]
    requires Tree([QUOTE]) == PStr(Top([]), NoChars, []) && Viable(arena, 1, Tree([QUOTE] + [b]))
    ensures b == SPACE
  {
    assert ([QUOTE] + [b])[..1] == [QUOTE];
    var p := Tree([QUOTE] + [b]);
    assert Render(JStr(NoChars)) == [QUOTE, QUOTE];
    assert !Conforms(arena, 1, 0, JStr(NoChars));
    if b != QUOTE {
      var (cs, tail) := StrByte(NoChars, [], b);
      assert p == PStr(Top([]), cs, tail);
      assert ScalarText(p)[1] == b;
    }
  }
}
