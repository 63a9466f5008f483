/**
 The incremental JSON syntax automaton (src/constrain.rs:27-507).

 `Machine` is the automaton's value with its nesting as an explicit stack; the class below keeps
 the nesting as the source does, one bit per level of a word, and is proved against it.
 */
module Automaton {
  import opened Wrappers
  import opened JsonBytes

  datatype Mode = ObjectMode | ValueMode

  datatype NumState = Minus | Zero | Int | Dot | Frac | Exp | ExpSign | ExpDigits {
    predicate Complete() {
      Zero? || Int? || Frac? || ExpDigits?
    }
  }

  datatype State =
    | Value
    | ObjFirst
    | ArrFirst
    | ObjComma
    | Str(esc: bool, uni: nat, key: bool)
    | Colon
    | Num(n: NumState)
    | Lit(lit: nat, pos: nat)
    | ObjNext
    | ArrNext
    | Done

  /** The nesting is outermost first; `true` is an array. */
  datatype Machine = Machine(stack: seq<bool>, state: State, wsRun: nat) {
    predicate Accepting() {
      state.Done? || (stack == [] && state.Num? && state.n.Complete())
    }
  }

  /** What one byte did structurally: the bits of the source's `Events`. */
  datatype Events = Events(
    valueStart: bool, scalarEnd: bool, objClose: bool, arrClose: bool,
    keyStart: bool, keyEnd: bool, objComma: bool)

  function Initial(): Machine {
    Machine([], Value, 0)
  }

  function AfterValue(stack: seq<bool>): State {
    if stack == [] then Done
    else if stack[|stack| - 1] then ArrNext
    else ObjNext
  }

  function Popped(m: Machine): Option<Machine> {
    if m.stack == [] then None
    else
      var rest := m.stack[..|m.stack| - 1];
      Some(m.(stack := rest, state := AfterValue(rest)))
  }

  function Opened(m: Machine, isArray: bool): Option<Machine> {
    if |m.stack| >= MAX_DEPTH then None
    else Some(m.(stack := m.stack + [isArray], state := if isArray then ArrFirst else ObjFirst))
  }

  function StartValue(m: Machine, b: Byte, topObjectOnly: bool): Option<Machine> {
    if topObjectOnly && m.stack == [] && b != LBRACE && !IsWs(b) then None
    else if IsWs(b) then Some(m)
    else if b == LBRACE then Opened(m, false)
    else if b == LBRACKET then Opened(m, true)
    else if b == QUOTE then Some(m.(state := Str(false, 0, false)))
    else if b == MINUS then Some(m.(state := Num(Minus)))
    else if b == ZERO then Some(m.(state := Num(Zero)))
    else if IsDigit(b) then Some(m.(state := Num(Int)))
    else if b == LOWER_T then Some(m.(state := Lit(0, 1)))
    else if b == LOWER_F then Some(m.(state := Lit(1, 1)))
    else if b == LOWER_N then Some(m.(state := Lit(2, 1)))
    else None
  }

  function NextNum(n: NumState, b: Byte): Option<NumState> {
    match n
    case Minus => if b == ZERO then Some(Zero) else if IsDigit(b) then Some(Int) else None
    case Zero => if b == DOT then Some(Dot) else if IsExponentMark(b) then Some(Exp) else None
    case Int =>
      if IsDigit(b) then Some(Int) else if b == DOT then Some(Dot)
      else if IsExponentMark(b) then Some(Exp) else None
    case Dot => if IsDigit(b) then Some(Frac) else None
    case Frac => if IsDigit(b) then Some(Frac) else if IsExponentMark(b) then Some(Exp) else None
    case Exp =>
      if b == PLUS || b == MINUS then Some(ExpSign) else if IsDigit(b) then Some(ExpDigits) else None
    case ExpSign => if IsDigit(b) then Some(ExpDigits) else None
    case ExpDigits => if IsDigit(b) then Some(ExpDigits) else None
  }

  function StrStep(m: Machine, b: Byte): Option<Machine>
    requires m.state.Str?
  {
    var Str(esc, uni, key) := m.state;
    if uni > 0 then
      if IsHex(b) then Some(m.(state := Str(false, uni - 1, key))) else None
    else if esc then
      if IsSimpleEscape(b) then Some(m.(state := Str(false, 0, key)))
      else if b == LOWER_U then Some(m.(state := Str(false, 4, key)))
      else None
    else if b == QUOTE then
      Some(m.(state := if key then State.Colon else AfterValue(m.stack)))
    else if b == BACKSLASH then Some(m.(state := Str(true, 0, key)))
    else if b < SPACE then None
    else Some(m)
  }

  function LitStep(m: Machine, b: Byte): Option<Machine>
    requires m.state.Lit?
  {
    var Lit(lit, pos) := m.state;
    if lit < 3 && pos < |Literal(lit)| && b == Literal(lit)[pos] then
      Some(m.(state := if pos + 1 == |Literal(lit)| then AfterValue(m.stack) else Lit(lit, pos + 1)))
    else None
  }

  /** One byte in any state but a number's, whitespace accounting aside. */
  function StepToken(m: Machine, b: Byte, mode: Mode): Option<Machine>
    requires !m.state.Num?
  {
    match m.state
    case Value => StartValue(m, b, mode.ObjectMode?)
    case ObjFirst =>
      if IsWs(b) then Some(m)
      else if b == QUOTE then Some(m.(state := Str(false, 0, true)))
      else if b == RBRACE then Popped(m)
      else None
    case ArrFirst =>
      if b == RBRACKET then Popped(m)
      else StartValue(m.(state := Value), b, mode.ObjectMode?)
    case ObjComma =>
      if IsWs(b) then Some(m)
      else if b == QUOTE then Some(m.(state := Str(false, 0, true)))
      else None
    case Str(_, _, _) => StrStep(m, b)
    case Colon =>
      if IsWs(b) then Some(m)
      else if b == COLON then Some(m.(state := Value))
      else None
    case Lit(_, _) => LitStep(m, b)
    case ObjNext =>
      if IsWs(b) then Some(m)
      else if b == COMMA then Some(m.(state := ObjComma))
      else if b == RBRACE then Popped(m)
      else None
    case ArrNext =>
      if IsWs(b) then Some(m)
      else if b == COMMA then Some(m.(state := Value))
      else if b == RBRACKET then Popped(m)
      else None
    case Done => if IsWs(b) then Some(m) else None
  }

  /** Whitespace accounting around one byte that takes `m` to `next`. */
  function Counted(m: Machine, b: Byte, next: Option<Machine>): Option<Machine> {
    if next.None? || (IsWs(b) && m.wsRun >= MAX_RUN) then None
    else Some(next.value.(wsRun := if IsWs(b) then next.value.wsRun + 1 else 0))
  }

  /** A number that a delimiter ends is closed first and the delimiter is then stepped again, its accounting included:
      this is where a whitespace byte is counted twice. */
  function StepInner(m: Machine, b: Byte, mode: Mode): Option<Machine> {
    if !m.state.Num? then StepToken(m, b, mode)
    else
      var next := NextNum(m.state.n, b);
      if next.Some? then Some(m.(state := Num(next.value)))
      else if m.state.n.Complete() then
        var closed := m.(state := AfterValue(m.stack));
        Counted(closed, b, StepToken(closed, b, mode))
      else None
  }

  function Step(m: Machine, b: Byte, mode: Mode): Option<Machine> {
    Counted(m, b, StepInner(m, b, mode))
  }

  /** The events of a byte that took state `before` to state `after`. */
  function EventsOf(before: State, b: Byte, after: State): Events {
    var valueStart := (before.Value? || before.ArrFirst?) && !IsWs(b) && b != RBRACKET;
    var plainQuote := b == QUOTE && before.Str? && !before.esc && before.uni == 0;
    var closesObj := b == RBRACE && (before.ObjFirst? || before.ObjNext? || before.Num?);
    var closesArr := b == RBRACKET && (before.ArrFirst? || before.ArrNext? || before.Num?);
    Events(
      valueStart := valueStart,
      scalarEnd :=
        || (plainQuote && !before.key)
        || ((closesObj || closesArr) && before.Num?)
        || (before.Lit? && !after.Lit?)
        || (before.Num? && !after.Num? && b != RBRACE && b != RBRACKET),
      objClose := closesObj,
      arrClose := closesArr,
      keyStart := b == QUOTE && (before.ObjFirst? || before.ObjComma?),
      keyEnd := plainQuote && before.key,
      objComma := b == COMMA && after.ObjComma?)
  }

  /** The automaton over a whole text, left to right. */
  function Run(m: Machine, s: seq<Byte>, mode: Mode): Option<Machine> {
    if s == [] then Some(m)
    else
      var before := Run(m, s[..|s| - 1], mode);
      if before.None? then None else Step(before.value, s[|s| - 1], mode)
  }

  predicate Accepts(s: seq<Byte>, mode: Mode) {
    var end := Run(Initial(), s, mode);
    end.Some? && end.value.Accepting()
  }

  // ----- the bit stack of the source against the explicit stack

  /** `(word >> i) & 1 == 1`. */
  predicate Bit(word: nat, i: nat) {
    if i == 0 then word % 2 == 1 else Bit(word / 2, i - 1)
  }

  /** `word | (1 << i)` when `one`, `word & !(1 << i)` otherwise. */
  function WriteBit(word: nat, i: nat, one: bool): nat {
    if i == 0 then word / 2 * 2 + (if one then 1 else 0)
    else WriteBit(word / 2, i - 1, one) * 2 + word % 2
  }

  lemma {:induction false} WriteBitAt(word: nat, at: nat, one: bool, i: nat)
    ensures Bit(WriteBit(word, at, one), i) == if i == at then one else Bit(word, i)
  {
    if at > 0 && i > 0 {
      WriteBitAt(word / 2, at - 1, one, i - 1);
    }
  }

  /** The lowest `depth` bits of `word`, lowest first. */
  function Levels(word: nat, depth: nat): (levels: seq<bool>)
    ensures |levels| == depth
    ensures forall i | 0 <= i < depth :: levels[i] == Bit(word, i)
  {
    if depth == 0 then [] else Levels(word, depth - 1) + [Bit(word, depth - 1)]
  }

  lemma {:induction false} WriteLevel(word: nat, at: nat, one: bool)
    ensures Levels(WriteBit(word, at, one), at + 1) == Levels(word, at) + [one]
  {
    forall i | 0 <= i <= at
      ensures Levels(WriteBit(word, at, one), at + 1)[i] == (Levels(word, at) + [one])[i]
    {
      WriteBitAt(word, at, one, i);
    }
  }

  class JsonMachine {
    var stack: nat
    var depth: nat
    var state: State
    var wsRun: nat

    ghost predicate Valid()
      reads this
    {
      depth <= MAX_DEPTH
    }

    ghost function View(): Machine
      requires Valid()
      reads this
    {
      Machine(Levels(stack, depth), state, wsRun)
    }

    constructor ()
      ensures Valid() && View() == Initial()
    {
      stack, depth, state, wsRun := 0, 0, Value, 0;
    }

    /** The source's type is `Copy`: a probe steps a copy. */
    constructor Copy(m: JsonMachine)
      requires m.Valid()
      ensures Valid() && View() == m.View()
    {
      stack, depth, state, wsRun := m.stack, m.depth, m.state, m.wsRun;
    }

    method Accepting() returns (yes: bool)
      requires Valid()
      ensures yes == View().Accepting()
    {
      yes := state == Done || (depth == 0 && state.Num? && state.n.Complete());
    }

    method InNumber() returns (yes: bool)
      requires Valid()
      ensures yes == View().state.Num?
    {
      yes := state.Num?;
    }

    method Push(isArray: bool) returns (ok: bool)
      requires Valid()
      modifies this`stack, this`depth
      ensures Valid()
      ensures ok == (|old(View()).stack| < MAX_DEPTH)
      ensures ok ==> View() == old(View()).(stack := old(View()).stack + [isArray])
    {
      if depth >= MAX_DEPTH {
        return false;
      }
      WriteLevel(stack, depth, isArray);
      stack := WriteBit(stack, depth, isArray);
      depth := depth + 1;
      return true;
    }

    method ValueDone() returns (next: State)
      requires Valid()
      ensures next == AfterValue(View().stack)
    {
      if depth == 0 {
        next := Done;
      } else if Bit(stack, depth - 1) {
        next := ArrNext;
      } else {
        next := ObjNext;
      }
    }

    method Pop() returns (next: Option<State>)
      requires Valid()
      modifies this`depth
      ensures Valid()
      ensures next.None? <==> Popped(old(View())).None?
      ensures next.Some? ==> Some(View().(state := next.value)) == Popped(old(View()))
    {
      if depth == 0 {
        return None;
      }
      depth := depth - 1;
      var after := ValueDone();
      assert old(View()).stack == View().stack + [Bit(stack, depth)];
      return Some(after);
    }

    method BeginValue(b: Byte, topObjectOnly: bool) returns (ok: bool)
      requires Valid()
      modifies this
      ensures Valid()
      ensures ok == StartValue(old(View()), b, topObjectOnly).Some?
      ensures ok ==> Some(View()) == StartValue(old(View()), b, topObjectOnly)
    {
      if topObjectOnly && depth == 0 && b != LBRACE && !IsWs(b) {
        return false;
      }
      ok := true;
      if IsWs(b) {
      } else if b == LBRACE {
        ok := Push(false);
        if ok {
          state := ObjFirst;
        }
      } else if b == LBRACKET {
        ok := Push(true);
        if ok {
          state := ArrFirst;
        }
      } else if b == QUOTE {
        state := Str(false, 0, false);
      } else if b == MINUS {
        state := Num(Minus);
      } else if b == ZERO {
        state := Num(Zero);
      } else if IsDigit(b) {
        state := Num(Int);
      } else if b == LOWER_T {
        state := Lit(0, 1);
      } else if b == LOWER_F {
        state := Lit(1, 1);
      } else if b == LOWER_N {
        state := Lit(2, 1);
      } else {
        ok := false;
      }
    }

    method Close() returns (ok: bool)
      requires Valid()
      modifies this
      ensures Valid()
      ensures ok == Popped(old(View())).Some?
      ensures ok ==> Some(View()) == Popped(old(View()))
    {
      var next := Pop();
      if next.None? {
        return false;
      }
      state := next.value;
      return true;
    }

    method StepInString(b: Byte) returns (ok: bool)
      requires Valid() && state.Str?
      modifies this`state
      ensures Valid()
      ensures ok == StrStep(old(View()), b).Some?
      ensures ok ==> Some(View()) == StrStep(old(View()), b)
    {
      var Str(esc, uni, key) := state;
      ok := true;
      if uni > 0 {
        ok := IsHex(b);
        if ok {
          state := Str(false, uni - 1, key);
        }
      } else if esc {
        if IsSimpleEscape(b) {
          state := Str(false, 0, key);
        } else if b == LOWER_U {
          state := Str(false, 4, key);
        } else {
          ok := false;
        }
      } else if b == QUOTE {
        if key {
          state := State.Colon;
        } else {
          var next := ValueDone();
          state := next;
        }
      } else if b == BACKSLASH {
        state := Str(true, 0, key);
      } else {
        ok := b >= SPACE;
      }
    }

    method StepInLiteral(b: Byte) returns (ok: bool)
      requires Valid() && state.Lit?
      modifies this`state
      ensures Valid()
      ensures ok == LitStep(old(View()), b).Some?
      ensures ok ==> Some(View()) == LitStep(old(View()), b)
    {
      var Lit(lit, pos) := state;
      ok := lit < 3 && pos < |Literal(lit)| && b == Literal(lit)[pos];
      if ok {
        if pos + 1 == |Literal(lit)| {
          var next := ValueDone();
          state := next;
        } else {
          state := Lit(lit, pos + 1);
        }
      }
    }

    method Inner(b: Byte, mode: Mode) returns (ok: bool)
      requires Valid()
      modifies this
      ensures Valid()
      ensures ok == StepInner(old(View()), b, mode).Some?
      ensures ok ==> Some(View()) == StepInner(old(View()), b, mode)
      decreases if state.Num? then 1 else 0, 0
    {
      var topOnly := mode == ObjectMode;
      ok := true;
      match state {
        case Value =>
          ok := BeginValue(b, topOnly);
        case ObjFirst =>
          if IsWs(b) {
          } else if b == QUOTE {
            state := Str(false, 0, true);
          } else if b == RBRACE {
            ok := Close();
          } else {
            ok := false;
          }
        case ArrFirst =>
          if b == RBRACKET {
            ok := Close();
          } else {
            state := Value;
            ok := BeginValue(b, topOnly);
          }
        case ObjComma =>
          if IsWs(b) {
          } else if b == QUOTE {
            state := Str(false, 0, true);
          } else {
            ok := false;
          }
        case Str(_, _, _) =>
          ok := StepInString(b);
        case Colon =>
          if IsWs(b) {
          } else if b == COLON {
            state := Value;
          } else {
            ok := false;
          }
        case Num(n) =>
          var next := NextNum(n, b);
          if next.Some? {
            state := Num(next.value);
          } else if n.Complete() {
            var after := ValueDone();
            state := after;
            var ev := StepEvents(b, mode);
            ok := ev.Some?;
          } else {
            ok := false;
          }
        case Lit(_, _) =>
          ok := StepInLiteral(b);
        case ObjNext =>
          if IsWs(b) {
          } else if b == COMMA {
            state := ObjComma;
          } else if b == RBRACE {
            ok := Close();
          } else {
            ok := false;
          }
        case ArrNext =>
          if IsWs(b) {
          } else if b == COMMA {
            state := Value;
          } else if b == RBRACKET {
            ok := Close();
          } else {
            ok := false;
          }
        case Done =>
          ok := IsWs(b);
      }
    }

    /** The source's `step_ev`: `None` refuses the byte. */
    method StepEvents(b: Byte, mode: Mode) returns (ev: Option<Events>)
      requires Valid()
      modifies this
      ensures Valid()
      ensures ev.Some? == Step(old(View()), b, mode).Some?
      ensures ev.Some? ==>
        && Some(View()) == Step(old(View()), b, mode)
        && ev.value == EventsOf(old(state), b, state)
      decreases if state.Num? then 1 else 0, 1
    {
      var before := state;
      if IsWs(b) && wsRun >= MAX_RUN {
        return None;
      }
      var ok := Inner(b, mode);
      if !ok {
        return None;
      }
      wsRun := if IsWs(b) then wsRun + 1 else 0;
      return Some(EventsOf(before, b, state));
    }
  }
}
