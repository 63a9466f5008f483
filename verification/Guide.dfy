/**
 Schema guidance (src/constrain.rs:509-555 and 780-1109): the state that runs in lockstep with the
 automaton and refuses bytes on schema grounds.

 The `u64` bit masks `emitted`, `alive` and `required` are the sets of their one bits. `Guide` keeps
 only the live levels; the class below keeps the fixed array of the source and is proved against it.
 */
module Guide {
  import opened Wrappers
  import opened JsonBytes
  import opened Automaton

  type NodeId = nat

  const ANY: NodeId := 0
  const GUIDED_DEPTH: nat := 8

  datatype Node =
    | Any
    | Object(props: seq<(seq<Byte>, NodeId)>, required: set<nat>, additional: bool)
    | Array(items: NodeId)
    | Str
    | Number(integer: bool)
    | Boolean
    | Null
    | Enum(literals: seq<seq<Byte>>)

  type Arena = seq<Node>

  /** Ids in a compiled arena are in range; others would be a panic in the source. */
  function NodeAt(arena: Arena, id: NodeId): Node {
    if id < |arena| then arena[id] else Any
  }

  datatype Level = Level(node: NodeId, emitted: set<nat>, curProp: Option<nat>)

  datatype ValCtx =
    | Free
    | EnumScan(node: NodeId, alive: set<nat>, pos: nat)
    | KeyScan(alive: set<nat>, pos: nat, any: bool)
    | IntNumber

  datatype Guide = Guide(levels: seq<Level>, overflow: nat, val: ValCtx) {
    predicate Tracking() {
      levels != [] && overflow == 0
    }

    function Last(): Level
      requires levels != []
    {
      levels[|levels| - 1]
    }

    function WithLast(level: Level): Guide
      requires levels != []
    {
      this.(levels := levels[..|levels| - 1] + [level])
    }

    /** Forgets which property the finished value belonged to. */
    function ValueDone(): Guide {
      if Tracking() then WithLast(Last().(curProp := None)) else this
    }
  }

  function InitialGuide(): Guide {
    Guide([], 0, Free)
  }

  function PropsOf(node: Node): seq<(seq<Byte>, NodeId)> {
    if node.Object? then node.props else []
  }

  /** The node governing the next value. */
  function Expected(arena: Arena, root: NodeId, g: Guide): NodeId {
    if g.overflow > 0 then ANY
    else if g.levels == [] then root
    else
      match NodeAt(arena, g.Last().node)
      case Array(items) => items
      case Object(props, _, _) =>
        if g.Last().curProp.Some? && g.Last().curProp.value < |props| then props[g.Last().curProp.value].1 else ANY
      case _ => ANY
  }

  /** Whether `b` may begin a value of this node, and the constraint on the scalar it begins. */
  function ScalarContext(id: NodeId, node: Node, b: Byte): Option<ValCtx> {
    match node
    case Any => Some(Free)
    case Object(_, _, _) => if b == LBRACE then Some(Free) else None
    case Array(_) => if b == LBRACKET then Some(Free) else None
    case Str => if b == QUOTE then Some(Free) else None
    case Number(integer) =>
      if b == MINUS || IsDigit(b) then Some(if integer then IntNumber else Free) else None
    case Boolean => if b == LOWER_T || b == LOWER_F then Some(Free) else None
    case Null => if b == LOWER_N then Some(Free) else None
    case Enum(literals) =>
      var alive := set i | 0 <= i < |literals| && literals[i] != [] && literals[i][0] == b;
      if alive == {} then None else Some(EnumScan(id, alive, 1))
  }

  function EnterValue(arena: Arena, g: Guide, id: NodeId, b: Byte): Option<Guide> {
    var node := NodeAt(arena, id);
    var val := ScalarContext(id, node, b);
    if val.None? then None
    else if b != LBRACE && b != LBRACKET then Some(g.(val := val.value))
    else if g.overflow > 0 || |g.levels| >= GUIDED_DEPTH then
      Some(g.(val := val.value, overflow := if g.overflow < 255 then g.overflow + 1 else 255))
    else
      var level := Level(if node.Object? || node.Array? then id else ANY, {}, None);
      Some(g.(val := val.value, levels := g.levels + [level]))
  }

  /** Properties the current object has not had yet. */
  function Unused(props: seq<(seq<Byte>, NodeId)>, emitted: set<nat>): set<nat> {
    set i | 0 <= i < |props| && i !in emitted
  }

  predicate HasAvailableKey(arena: Arena, g: Guide) {
    g.Tracking() && NodeAt(arena, g.Last().node).Object? ==>
      var node := NodeAt(arena, g.Last().node);
      node.additional || Unused(node.props, g.Last().emitted) != {}
  }

  function StartKey(arena: Arena, g: Guide): Guide {
    if g.Tracking() && NodeAt(arena, g.Last().node).Object? then
      var node := NodeAt(arena, g.Last().node);
      g.(val := KeyScan(Unused(node.props, g.Last().emitted), 0, node.additional))
    else g.(val := Free)
  }

  /** The first property in `among` with this name length. */
  function FirstOfLength(props: seq<(seq<Byte>, NodeId)>, among: set<nat>, len: nat, from: nat := 0): Option<nat>
    decreases |props| - from
  {
    if from >= |props| then None
    else if from in among && |props[from].0| == len then Some(from)
    else FirstOfLength(props, among, len, from + 1)
  }

  function FinishKey(arena: Arena, g: Guide): Option<Guide> {
    if !g.val.KeyScan? || g.levels == [] then Some(g.(val := Free))
    else
      var node := NodeAt(arena, g.Last().node);
      if !node.Object? then Some(g.(val := Free))
      else
        var exact := FirstOfLength(node.props, g.val.alive, g.val.pos);
        var free := g.(val := Free);
        if exact.Some? then
          Some(free.WithLast(Level(g.Last().node, g.Last().emitted + {exact.value}, exact)))
        else if g.val.any then Some(free.WithLast(g.Last().(curProp := None)))
        else None
  }

  /** `b` is the last byte of the scalar when `included`, the delimiter after it otherwise. */
  function FinishScalar(arena: Arena, g: Guide, included: bool, b: Byte): Option<Guide> {
    var ok :=
      match g.val
      case EnumScan(id, alive, pos) =>
        var node := NodeAt(arena, id);
        node.Enum? ==>
          exists i | 0 <= i < |node.literals| :: i in alive &&
            if included then |node.literals[i]| == pos + 1 && node.literals[i][pos] == b
            else |node.literals[i]| == pos
      case _ => true;
    if ok then Some(g.(val := Free).ValueDone()) else None
  }

  function CloseContainer(arena: Arena, g: Guide): Option<Guide> {
    if g.overflow > 0 then Some(g.(overflow := g.overflow - 1))
    else if g.levels == [] then Some(g)
    else
      var node := NodeAt(arena, g.Last().node);
      if node.Object? && !(node.required <= g.Last().emitted) then None
      else Some(g.(levels := g.levels[..|g.levels| - 1], val := Free).ValueDone())
  }

  /** A byte inside a scalar or key. */
  function Content(arena: Arena, g: Guide, b: Byte, ev: Events): Option<Guide> {
    match g.val
    case EnumScan(id, alive, pos) =>
      if ev.keyEnd || ev.scalarEnd || ev.objClose || ev.arrClose then Some(g)
      else
        var node := NodeAt(arena, id);
        var next :=
          if node.Enum? then
            set i | 0 <= i < |node.literals| && i in alive && pos < |node.literals[i]| && node.literals[i][pos] == b
          else alive;
        if next == {} then None else Some(g.(val := EnumScan(id, next, pos + 1)))
    case KeyScan(alive, pos, any) =>
      if ev.keyEnd then Some(g)
      else
        var node := if g.levels == [] then Any else NodeAt(arena, g.Last().node);
        var next :=
          if node.Object? then
            set i | 0 <= i < |node.props| && i in alive && pos < |node.props[i].0| && node.props[i].0[pos] == b
          else alive;
        if next == {} && !any then None else Some(g.(val := KeyScan(next, pos + 1, any)))
    case IntNumber => if b == DOT || IsExponentMark(b) then None else Some(g)
    case Free => Some(g)
  }

  function OnContent(arena: Arena, root: NodeId, g: Guide, b: Byte, ev: Events): Option<Guide> {
    if ev.objComma && !HasAvailableKey(arena, g) then None
    else if ev.valueStart then EnterValue(arena, g, Expected(arena, root, g), b)
    else if ev.keyStart then
      if HasAvailableKey(arena, g) then Some(StartKey(arena, g)) else None
    else Content(arena, g, b, ev)
  }

  function OnByte(arena: Arena, root: NodeId, g: Guide, b: Byte, ev: Events, wasNum: bool): Option<Guide> {
    var g1 :- if ev.scalarEnd && wasNum then FinishScalar(arena, g, false, b) else Some(g);
    var g2 :- OnContent(arena, root, g1, b, ev);
    var g3 :- if ev.scalarEnd && !wasNum then FinishScalar(arena, g2, true, b) else Some(g2);
    var g4 :- if ev.keyEnd then FinishKey(arena, g3) else Some(g3);
    if ev.objClose || ev.arrClose then CloseContainer(arena, g4) else Some(g4)
  }

  // ----- the automaton and the guide in lockstep

  datatype Walker = Walker(m: Machine, g: Guide)

  function InitialWalker(): Walker {
    Walker(Initial(), InitialGuide())
  }

  function WalkByte(arena: Arena, root: NodeId, mode: Mode, w: Walker, b: Byte): Option<Walker> {
    var m :- Step(w.m, b, mode);
    var g :- OnByte(arena, root, w.g, b, EventsOf(w.m.state, b, m.state), w.m.state.Num?);
    Some(Walker(m, g))
  }

  function Walk(arena: Arena, root: NodeId, mode: Mode, w: Walker, s: seq<Byte>): Option<Walker> {
    if s == [] then Some(w)
    else
      var before :- Walk(arena, root, mode, w, s[..|s| - 1]);
      WalkByte(arena, root, mode, before, s[|s| - 1])
  }

  // ----- the guide as the source keeps it

  class GuideState {
    const levels: array<Level>
    var depth: nat
    var overflow: nat
    var val: ValCtx

    ghost predicate Valid()
      reads this
    {
      levels.Length == GUIDED_DEPTH && depth <= GUIDED_DEPTH
    }

    ghost function View(): Guide
      requires Valid()
      reads this, levels
    {
      Guide(levels[..depth], overflow, val)
    }

    /** A key is only ever scanned inside a guided object. */
    ghost predicate KeyInside()
      reads this
    {
      val.KeyScan? ==> depth > 0
    }

    constructor ()
      ensures Valid() && KeyInside() && View() == InitialGuide() && fresh(levels)
    {
      levels := new Level[GUIDED_DEPTH](_ => Level(ANY, {}, None));
      depth, overflow, val := 0, 0, Free;
    }

    /** The source's type is `Copy`: a probe steps a copy. */
    constructor Copy(g: GuideState)
      requires g.Valid()
      ensures Valid() && View() == g.View() && fresh(levels)
      ensures g.KeyInside() ==> KeyInside()
    {
      levels := new Level[GUIDED_DEPTH](i requires 0 <= i < g.levels.Length reads g.levels => g.levels[i]);
      depth, overflow, val := g.depth, g.overflow, g.val;
      new;
      assert levels[..depth] == g.levels[..depth];
    }

    method ExpectedNode(arena: Arena, root: NodeId) returns (id: NodeId)
      requires Valid()
      ensures id == Expected(arena, root, View())
    {
      if overflow > 0 {
        return ANY;
      }
      if depth == 0 {
        return root;
      }
      var level := levels[depth - 1];
      match NodeAt(arena, level.node) {
        case Array(items) => id := items;
        case Object(props, _, _) =>
          if level.curProp.Some? && level.curProp.value < |props| {
            id := props[level.curProp.value].1;
          } else {
            id := ANY;
          }
        case _ => id := ANY;
      }
    }

    static method FirstAlive(literals: seq<seq<Byte>>, b: Byte) returns (alive: set<nat>)
      ensures alive == set i | 0 <= i < |literals| && literals[i] != [] && literals[i][0] == b
    {
      alive := {};
      for i := 0 to |literals|
        invariant alive == set j | 0 <= j < i && literals[j] != [] && literals[j][0] == b
      {
        if literals[i] != [] && literals[i][0] == b {
          alive := alive + {i};
        }
      }
    }

    /** The members of `alive` whose text has `b` at `pos`. */
    static method StillAlive(texts: seq<seq<Byte>>, alive: set<nat>, pos: nat, b: Byte) returns (next: set<nat>)
      ensures next == set i | 0 <= i < |texts| && i in alive && pos < |texts[i]| && texts[i][pos] == b
    {
      next := {};
      for i := 0 to |texts|
        invariant next == set j | 0 <= j < i && j in alive && pos < |texts[j]| && texts[j][pos] == b
      {
        if i in alive && pos < |texts[i]| && texts[i][pos] == b {
          next := next + {i};
        }
      }
    }

    method Enter(arena: Arena, id: NodeId, b: Byte) returns (ok: bool)
      requires Valid()
      modifies this, levels
      ensures KeyInside()
      ensures Valid()
      ensures ok == EnterValue(arena, old(View()), id, b).Some?
      ensures ok ==> Some(View()) == EnterValue(arena, old(View()), id, b)
    {
      val := Free;
      var opens := b == LBRACE || b == LBRACKET;
      var node := NodeAt(arena, id);
      match node {
        case Any => ok := true;
        case Object(_, _, _) => ok := b == LBRACE;
        case Array(_) => ok := b == LBRACKET;
        case Str => ok := b == QUOTE;
        case Number(integer) =>
          ok := b == MINUS || IsDigit(b);
          if ok && integer {
            val := IntNumber;
          }
        case Boolean => ok := b == LOWER_T || b == LOWER_F;
        case Null => ok := b == LOWER_N;
        case Enum(literals) =>
          var alive := FirstAlive(literals, b);
          ok := alive != {};
          if ok {
            val := EnumScan(id, alive, 1);
          }
      }
      if !ok {
        return;
      }
      if opens {
        if overflow > 0 || depth >= GUIDED_DEPTH {
          overflow := if overflow < 255 then overflow + 1 else 255;
        } else {
          levels[depth] := Level(if node.Object? || node.Array? then id else ANY, {}, None);
          depth := depth + 1;
          assert levels[..depth] == old(levels[..depth]) + [levels[depth - 1]];
        }
      }
    }

    method KeyAvailable(arena: Arena) returns (yes: bool)
      requires Valid()
      ensures yes == HasAvailableKey(arena, View())
    {
      if overflow > 0 || depth == 0 {
        return true;
      }
      var level := levels[depth - 1];
      var node := NodeAt(arena, level.node);
      if !node.Object? {
        return true;
      }
      ghost var unused := Unused(node.props, level.emitted);
      if node.additional {
        return true;
      }
      for i := 0 to |node.props|
        invariant forall j | 0 <= j < i :: j in level.emitted
      {
        if i !in level.emitted {
          assert i in unused;
          return true;
        }
      }
      return false;
    }

    method BeginKey(arena: Arena)
      requires Valid()
      modifies this`val
      ensures KeyInside()
      ensures Valid() && View() == StartKey(arena, old(View()))
    {
      if overflow > 0 || depth == 0 {
        val := Free;
        return;
      }
      var level := levels[depth - 1];
      var node := NodeAt(arena, level.node);
      if !node.Object? {
        val := Free;
        return;
      }
      var alive := {};
      for i := 0 to |node.props|
        invariant alive == set j | 0 <= j < i && j !in level.emitted
      {
        if i !in level.emitted {
          alive := alive + {i};
        }
      }
      val := KeyScan(alive, 0, node.additional);
    }

    method EndKey(arena: Arena) returns (ok: bool)
      requires Valid() && KeyInside()
      modifies this, levels
      ensures KeyInside()
      ensures Valid()
      ensures ok == FinishKey(arena, old(View())).Some?
      ensures ok ==> Some(View()) == FinishKey(arena, old(View()))
    {
      if !val.KeyScan? {
        val := Free;
        return true;
      }
      var KeyScan(alive, pos, any) := val;
      val := Free;
      var level := levels[depth - 1];
      var node := NodeAt(arena, level.node);
      if !node.Object? {
        return true;
      }
      ghost var was := levels[..depth];
      var i := 0;
      while i < |node.props| && !(i in alive && |node.props[i].0| == pos)
        invariant 0 <= i <= |node.props|
        invariant FirstOfLength(node.props, alive, pos, 0) == FirstOfLength(node.props, alive, pos, i)
      {
        i := i + 1;
      }
      if i < |node.props| {
        levels[depth - 1] := Level(level.node, level.emitted + {i}, Some(i));
        ok := true;
      } else {
        levels[depth - 1] := level.(curProp := None);
        ok := any;
      }
      assert levels[..depth] == was[..|was| - 1] + [levels[depth - 1]];
    }

    method ForgetProp()
      requires Valid()
      modifies levels
      ensures View() == old(View()).ValueDone()
    {
      if depth > 0 && overflow == 0 {
        ghost var was := levels[..depth];
        levels[depth - 1] := levels[depth - 1].(curProp := None);
        assert levels[..depth] == was[..|was| - 1] + [levels[depth - 1]];
      }
    }

    method EndScalar(arena: Arena, included: bool, b: Byte) returns (ok: bool)
      requires Valid()
      modifies this, levels
      ensures KeyInside()
      ensures Valid()
      ensures ok == FinishScalar(arena, old(View()), included, b).Some?
      ensures ok ==> Some(View()) == FinishScalar(arena, old(View()), included, b)
    {
      ok := true;
      if val.EnumScan? {
        var EnumScan(id, alive, pos) := val;
        var node := NodeAt(arena, id);
        if node.Enum? {
          ok := false;
          for i := 0 to |node.literals|
            invariant ok == exists j | 0 <= j < i ::
              && j in alive
              && if included then |node.literals[j]| == pos + 1 && node.literals[j][pos] == b
                 else |node.literals[j]| == pos
          {
            var lit := node.literals[i];
            if i in alive && (if included then |lit| == pos + 1 && lit[pos] == b else |lit| == pos) {
              ok := true;
            }
          }
        }
      }
      val := Free;
      ForgetProp();
    }

    method EndContainer(arena: Arena) returns (ok: bool)
      requires Valid() && KeyInside()
      modifies this, levels
      ensures KeyInside()
      ensures Valid()
      ensures ok == CloseContainer(arena, old(View())).Some?
      ensures ok ==> Some(View()) == CloseContainer(arena, old(View()))
    {
      if overflow > 0 {
        overflow := overflow - 1;
        return true;
      }
      if depth == 0 {
        return true;
      }
      var level := levels[depth - 1];
      var node := NodeAt(arena, level.node);
      ok := node.Object? ==> node.required <= level.emitted;
      assert levels[..depth - 1] == levels[..depth][..|levels[..depth]| - 1];
      depth := depth - 1;
      val := Free;
      ForgetProp();
    }

    method Scan(arena: Arena, b: Byte, ev: Events) returns (ok: bool)
      requires Valid() && KeyInside()
      modifies this`val
      ensures KeyInside()
      ensures Valid()
      ensures ok == Content(arena, old(View()), b, ev).Some?
      ensures ok ==> Some(View()) == Content(arena, old(View()), b, ev)
    {
      ok := true;
      match val {
        case EnumScan(id, alive, pos) =>
          if !(ev.keyEnd || ev.scalarEnd || ev.objClose || ev.arrClose) {
            var node, next := NodeAt(arena, id), alive;
            if node.Enum? {
              next := StillAlive(node.literals, alive, pos, b);
            }
            ok := next != {};
            val := EnumScan(id, next, pos + 1);
          }
        case KeyScan(alive, pos, any) =>
          if !ev.keyEnd {
            var node, next := NodeAt(arena, levels[depth - 1].node), alive;
            if node.Object? {
              var names := seq(|node.props|, i requires 0 <= i < |node.props| => node.props[i].0);
              next := StillAlive(names, alive, pos, b);
              assert next == set i | 0 <= i < |node.props| && i in alive && pos < |node.props[i].0|
                && node.props[i].0[pos] == b;
            }
            ok := next != {} || any;
            val := KeyScan(next, pos + 1, any);
          }
        case IntNumber =>
          ok := !(b == DOT || IsExponentMark(b));
        case Free =>
      }
    }

    method Follow(arena: Arena, root: NodeId, b: Byte, ev: Events, wasNum: bool) returns (ok: bool)
      requires Valid() && KeyInside()
      modifies this, levels
      ensures Valid() && (ok ==> KeyInside())
      ensures ok == OnByte(arena, root, old(View()), b, ev, wasNum).Some?
      ensures ok ==> Some(View()) == OnByte(arena, root, old(View()), b, ev, wasNum)
    {
      hide FinishScalar, FinishKey, CloseContainer, Content, EnterValue, StartKey, HasAvailableKey, Expected, View;
      if ev.scalarEnd && wasNum {
        ok := EndScalar(arena, false, b);
        if !ok {
          return;
        }
      }
      if ev.objComma {
        ok := KeyAvailable(arena);
        if !ok {
          return;
        }
      }
      if ev.valueStart {
        var id := ExpectedNode(arena, root);
        ok := Enter(arena, id, b);
      } else if ev.keyStart {
        ok := KeyAvailable(arena);
        if ok {
          BeginKey(arena);
        }
      } else {
        ok := Scan(arena, b, ev);
      }
      if !ok {
        return;
      }
      if ev.scalarEnd && !wasNum {
        ok := EndScalar(arena, true, b);
        if !ok {
          return;
        }
      }
      if ev.keyEnd {
        ok := EndKey(arena);
        if !ok {
          return;
        }
      }
      if ev.objClose || ev.arrClose {
        ok := EndContainer(arena);
      }
    }
  }
}
