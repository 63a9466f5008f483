/**
 JSON text as RFC 8259 writes it (sections 2 to 7), as concrete syntax trees that keep every byte.

 `Render` of a tree is the text; `Valid` trees are the grammar's derivations; `Bounded` adds the
 four limits under which the automaton of src/constrain.rs accepts a text.
 */
module JsonGrammar {
  import opened JsonBytes

  /** Section 7: one `char` of a string. */
  datatype Char = Plain(b: Byte) | Escape(b: Byte) | Unicode(hex: seq<Byte>) {
    predicate Valid() {
      match this
      case Plain(b) => b != QUOTE && b != BACKSLASH && b >= SPACE
      case Escape(b) => IsSimpleEscape(b)
      case Unicode(hex) => |hex| == 4 && forall i | 0 <= i < 4 :: IsHex(hex[i])
    }

    function Render(): seq<Byte> {
      match this
      case Plain(b) => [b]
      case Escape(b) => [BACKSLASH, b]
      case Unicode(hex) => [BACKSLASH, LOWER_U] + hex
    }
  }

  datatype Chars = NoChars | MoreChars(init: Chars, c: Char) {
    predicate Valid() {
      NoChars? || (init.Valid() && c.Valid())
    }

    function Render(): seq<Byte> {
      if NoChars? then [] else init.Render() + c.Render()
    }
  }

  /** Section 6: `number = [ minus ] int [ frac ] [ exp ]`. */
  datatype Number = Number(minus: bool, whole: seq<Byte>, frac: seq<Byte>, exp: seq<Byte>) {
    predicate ValidInt() {
      |whole| >= 1 && AllDigits(whole) && (whole[0] != ZERO || |whole| == 1)
    }

    predicate ValidFrac() {
      |frac| >= 2 && frac[0] == DOT && AllDigits(frac[1..])
    }

    predicate ValidExp() {
      && |exp| >= 2
      && IsExponentMark(exp[0])
      && (AllDigits(exp[1..]) || ((exp[1] == PLUS || exp[1] == MINUS) && |exp| >= 3 && AllDigits(exp[2..])))
    }

    predicate Valid() {
      ValidInt() && (frac == [] || ValidFrac()) && (exp == [] || ValidExp())
    }

    function Render(): seq<Byte> {
      (if minus then [MINUS] else []) + whole + frac + exp
    }
  }

  /** Sections 3 to 5. An array or object without items keeps its inner whitespace in `gap`. */
  datatype Json =
    | JLit(lit: nat)
    | JNum(num: Number)
    | JStr(chars: Chars)
    | JArr(gap: seq<Byte>, items: Items)
    | JObj(gap: seq<Byte>, members: Members)

  datatype Items = NoItems | MoreItems(init: Items, pre: seq<Byte>, v: Json, post: seq<Byte>)

  datatype Members =
    | NoMembers
    | MoreMembers(
        init: Members, pre: seq<Byte>, key: Chars, preColon: seq<Byte>, postColon: seq<Byte>, v: Json, post: seq<Byte>)

  /** Section 2: `JSON-text = ws value ws`. */
  datatype Document = Document(pre: seq<Byte>, v: Json, post: seq<Byte>)

  function Render(v: Json): seq<Byte>
    decreases v, 0
  {
    match v
    case JLit(lit) => if lit < 3 then Literal(lit) else []
    case JNum(num) => num.Render()
    case JStr(chars) => [QUOTE] + chars.Render() + [QUOTE]
    case JArr(gap, items) => [LBRACKET] + gap + RenderItems(items) + [RBRACKET]
    case JObj(gap, members) => [LBRACE] + gap + RenderMembers(members) + [RBRACE]
  }

  /** The items already written, with the comma that must precede another one. */
  function RenderItemsThen(items: Items): seq<Byte>
    decreases items, 1
  {
    if items.NoItems? then [] else RenderItems(items) + [COMMA]
  }

  function RenderItems(items: Items): seq<Byte>
    decreases items, 0
  {
    match items
    case NoItems => []
    case MoreItems(init, pre, v, post) => RenderItemsThen(init) + pre + Render(v) + post
  }

  function RenderMembersThen(members: Members): seq<Byte>
    decreases members, 1
  {
    if members.NoMembers? then [] else RenderMembers(members) + [COMMA]
  }

  function RenderKey(pre: seq<Byte>, key: Chars, preColon: seq<Byte>, postColon: seq<Byte>): seq<Byte> {
    pre + [QUOTE] + key.Render() + [QUOTE] + preColon + [COLON] + postColon
  }

  function RenderMembers(members: Members): seq<Byte>
    decreases members, 0
  {
    match members
    case NoMembers => []
    case MoreMembers(init, pre, key, preColon, postColon, v, post) =>
      RenderMembersThen(init) + RenderKey(pre, key, preColon, postColon) + Render(v) + post
  }

  function RenderDocument(d: Document): seq<Byte> {
    d.pre + Render(d.v) + d.post
  }

  /** Derivations of RFC 8259. */
  predicate Valid(v: Json) {
    match v
    case JLit(lit) => lit < 3
    case JNum(num) => num.Valid()
    case JStr(chars) => chars.Valid()
    case JArr(gap, items) => AllWs(gap) && (items.NoItems? || gap == []) && ValidItems(items)
    case JObj(gap, members) => AllWs(gap) && (members.NoMembers? || gap == []) && ValidMembers(members)
  }

  predicate ValidItems(items: Items) {
    match items
    case NoItems => true
    case MoreItems(init, pre, v, post) => ValidItems(init) && AllWs(pre) && Valid(v) && AllWs(post)
  }

  predicate ValidMembers(members: Members) {
    match members
    case NoMembers => true
    case MoreMembers(init, pre, key, preColon, postColon, v, post) =>
      && ValidMembers(init)
      && AllWs(pre) && key.Valid() && AllWs(preColon) && AllWs(postColon)
      && Valid(v) && AllWs(post)
  }

  predicate ValidDocument(d: Document) {
    AllWs(d.pre) && Valid(d.v) && AllWs(d.post)
  }

  /** Whitespace after a value: one byte less after a number. */
  predicate RunAfter(v: Json, ws: seq<Byte>) {
    |ws| <= if v.JNum? then MAX_RUN - 1 else MAX_RUN
  }

  /** The automaton's own limits on a value that has `room` levels of nesting left. */
  predicate Bounded(v: Json, room: nat) {
    match v
    case JLit(_) => true
    case JNum(_) => true
    case JStr(chars) => RunsWithin(chars.Render(), MAX_RUN)
    case JArr(gap, items) => room > 0 && gap == [] && BoundedItems(items, room - 1)
    case JObj(gap, members) => room > 0 && |gap| <= MAX_RUN && BoundedMembers(members, room - 1)
  }

  predicate BoundedItems(items: Items, room: nat) {
    match items
    case NoItems => true
    case MoreItems(init, pre, v, post) =>
      BoundedItems(init, room) && |pre| <= MAX_RUN && Bounded(v, room) && RunAfter(v, post)
  }

  predicate BoundedMembers(members: Members, room: nat) {
    match members
    case NoMembers => true
    case MoreMembers(init, pre, key, preColon, postColon, v, post) =>
      && BoundedMembers(init, room)
      && |pre| <= MAX_RUN && RunsWithin(key.Render(), MAX_RUN)
      && |preColon| <= MAX_RUN && |postColon| <= MAX_RUN
      && Bounded(v, room) && RunAfter(v, post)
  }

  predicate BoundedDocument(d: Document) {
    |d.pre| <= MAX_RUN && Bounded(d.v, MAX_DEPTH) && RunAfter(d.v, d.post)
  }
}
