/**
 What each keyword of a schema asks of a value (src/constrain.rs:604-704; JSON Schema Core 2020-12, sections 8.2.3.1,
 10.3.1.2 and 10.3.2, and JSON Schema Validation 2020-12, sections 6.1 and 6.5.3), read off the document's own
 fields in characters: nothing here depends on how the compiler looks fields up.
 */
module SchemaKeywords {
  import opened Wrappers
  import opened JsonBytes
  import opened JsonGrammar
  import opened JsonCharacters
  import opened Guide
  import opened Conformance
  import opened SchemaArena
  import opened SchemaGuidance

  // ----- what a document says

  /** The schema has a field of this name with this value. */
  predicate Says(s: Schema, key: string, x: Schema) {
    s.SObject? && exists i | 0 <= i < |s.fields| :: Spells(s.fields[i].0, key) && s.fields[i].1 == x
  }

  ghost predicate Mentions(s: Schema, key: string) {
    exists x :: Says(s, key, x)
  }

  /** The field is there and is a string. */
  ghost predicate Names(s: Schema, key: string) {
    exists x :: Says(s, key, x) && x.SString?
  }

  predicate SaysText(s: Schema, key: string, text: string) {
    s.SObject? && exists i | 0 <= i < |s.fields| ::
      && Spells(s.fields[i].0, key)
      && s.fields[i].1.SString? && Spells(s.fields[i].1.bytes, text)
  }

  ghost predicate Combines(s: Schema) {
    Mentions(s, "anyOf") || Mentions(s, "oneOf") || Mentions(s, "allOf")
  }

  /** Neither a reference nor an enumeration. */
  ghost predicate Direct(s: Schema) {
    s.SObject? && !Names(s, "$ref") && forall x | Says(s, "enum", x) :: !x.SArray?
  }

  ghost predicate Unmixed(s: Schema) {
    Direct(s) && !Combines(s)
  }

  /** Guidance asks nothing of a value. */
  ghost predicate Free(s: Schema, root: Schema, depth: nat) {
    forall d: nat, v :: Satisfies(Meaning(s, root, depth), d, v)
  }

  /** What a value inside `level` containers has to be. */
  ghost predicate Asks(s: Schema, root: Schema, depth: nat, level: nat, v: Json) {
    Satisfies(Meaning(s, root, depth), level, v)
  }

  // ----- looking fields up

  predicate Narrow(t: string) {
    forall i | 0 <= i < |t| :: t[i] as int < 128
  }

  lemma {:induction false} SpellsIsAscii(b: Name, t: string)
    requires Narrow(t)
    ensures Spells(b, t) <==> b == Ascii(t)
  {
  }

  lemma {:induction false} LookupIs(fields: seq<(Name, Schema)>, name: Name)
    ensures match Lookup(fields, name)
      case None => forall i | 0 <= i < |fields| :: fields[i].0 != name
      case Some(x) => exists i | 0 <= i < |fields| :: fields[i] == (name, x)
    decreases |fields|
  {
    if fields != [] && fields[0].0 != name {
      LookupIs(fields[1..], name);
      if Lookup(fields[1..], name).Some? {
        var i :| 0 <= i < |fields[1..]| && fields[1..][i] == (name, Lookup(fields[1..], name).value);
        assert fields[i + 1] == (name, Lookup(fields[1..], name).value);
      } else {
        assert forall i | 0 < i < |fields| :: fields[i] == fields[1..][i - 1];
      }
    } else if fields != [] {
      assert fields[0] == (name, fields[0].1);
    }
  }

  lemma {:induction false} FieldIs(s: Schema, key: string, x: Schema)
    requires SchemaOk(s) && Narrow(key)
    ensures Says(s, key, x) <==> Field(s, key) == Some(x)
  {
    hide Ascii, Lookup, Spells, SchemaOk;
    if s.SObject? {
      LookupIs(s.fields, Ascii(key));
      forall i | 0 <= i < |s.fields|
        ensures Spells(s.fields[i].0, key) <==> s.fields[i].0 == Ascii(key)
      {
        SpellsIsAscii(s.fields[i].0, key);
      }
      assert forall i, j | 0 <= i < j < |s.fields| :: s.fields[i].0 != s.fields[j].0 by {
        NamesDiffer(s);
      }
    }
  }

  lemma {:induction false} NamesDiffer(s: Schema)
    requires SchemaOk(s) && s.SObject?
    ensures forall i, j | 0 <= i < j < |s.fields| :: s.fields[i].0 != s.fields[j].0
  {
  }

  lemma {:induction false} FieldFacts(s: Schema, key: string)
    requires SchemaOk(s) && Narrow(key)
    ensures Field(s, key).Some? <==> Mentions(s, key)
    ensures forall x :: Says(s, key, x) <==> Field(s, key) == Some(x)
    ensures Names(s, key) <==> Text(s, key).Some?
  {
    hide Field, Says, SchemaOk;
    forall x
      ensures Says(s, key, x) <==> Field(s, key) == Some(x)
    {
      FieldIs(s, key, x);
    }
    assert Field(s, key).Some? ==> Says(s, key, Field(s, key).value);
  }

  lemma {:induction false} TextIs(s: Schema, key: string, text: string)
    requires SchemaOk(s) && Narrow(key) && Narrow(text)
    ensures SaysText(s, key, text) <==> Text(s, key) == Some(Ascii(text))
  {
    hide Ascii, Field, Spells, SchemaOk, Narrow;
    if SaysText(s, key, text) {
      var i :| 0 <= i < |s.fields| && Spells(s.fields[i].0, key) && s.fields[i].1.SString?
        && Spells(s.fields[i].1.bytes, text);
      FieldIs(s, key, s.fields[i].1);
      SpellsIsAscii(s.fields[i].1.bytes, text);
    }
    if Text(s, key) == Some(Ascii(text)) {
      var x := Field(s, key).value;
      FieldIs(s, key, x);
      SpellsIsAscii(x.bytes, text);
    }
  }

  /** What the compiler's questions about a schema come to. */
  lemma {:induction false} DirectFacts(s: Schema)
    requires SchemaOk(s)
    ensures Direct(s) <==> s.SObject? && Text(s, "$ref").None? && EnumOf(s).None?
  {
    hide Field, Says, SchemaOk;
    FieldFacts(s, "$ref");
    FieldFacts(s, "enum");
    assert EnumOf(s).Some? ==> Says(s, "enum", Field(s, "enum").value);
  }

  lemma {:induction false} UnmixedFacts(s: Schema)
    requires SchemaOk(s)
    ensures Direct(s) <==> s.SObject? && Text(s, "$ref").None? && EnumOf(s).None?
    ensures Combines(s) <==> HasCombinator(s)
    ensures Unmixed(s) <==> Direct(s) && !Combines(s)
  {
    hide Field, Says, SchemaOk, Direct, Text, EnumOf, Mentions;
    DirectFacts(s);
    FieldFacts(s, "anyOf");
    FieldFacts(s, "oneOf");
    FieldFacts(s, "allOf");
  }

  // ----- `type`

  predicate IsType(t: string) {
    t == "string" || t == "number" || t == "integer" || t == "boolean" || t == "null" || t == "array" || t == "object"
  }

  lemma {:induction false} TypesDiffer(t: string, u: string)
    requires IsType(t) && IsType(u) && t != u
    ensures Narrow(t) && Narrow(u) && Ascii(t) != Ascii(u)
  {
    assert "string"[0] == 's' && "number"[0] == 'n' && "integer"[0] == 'i' && "boolean"[0] == 'b';
    assert "null"[0] == 'n' && "array"[0] == 'a' && "object"[0] == 'o' && |"null"| == 4 && |"number"| == 6;
    assert Ascii(t)[0] == t[0] as int && Ascii(u)[0] == u[0] as int;
  }

  lemma {:induction false} TypeTexts(s: Schema)
    requires SchemaOk(s)
    ensures forall t | IsType(t) :: SaysText(s, "type", t) <==> Text(s, "type") == Some(Ascii(t))
    ensures forall t, u | IsType(t) && IsType(u) && t != u :: Ascii(t) != Ascii(u)
  {
    hide Ascii, Field, SchemaOk, Spells, SaysText;
    forall t | IsType(t)
      ensures SaysText(s, "type", t) <==> Text(s, "type") == Some(Ascii(t))
    {
      TextIs(s, "type", t);
    }
    forall t, u | IsType(t) && IsType(u) && t != u
      ensures Ascii(t) != Ascii(u)
    {
      TypesDiffer(t, u);
    }
  }

  function ItemShape(s: Schema, root: Schema, depth: nat): Shape {
    var items := Field(s, "items");
    if items.Some? then Meaning(items.value, root, depth + 1) else ShAny
  }

  lemma {:induction false} TypedMeaning(s: Schema, root: Schema, depth: nat, t: string)
    requires SchemaOk(s) && Unmixed(s) && depth <= 32 && IsType(t) && t != "object" && SaysText(s, "type", t)
    ensures t != "array" ==> Meaning(s, root, depth) == LeafShape(Ascii(t))
    ensures t == "array" ==> Meaning(s, root, depth) == ShArray(ItemShape(s, root, depth))
  {
    hide Ascii, Field, SchemaOk, Spells, Narrow, Unmixed, SaysText, LeafShape;
    UnmixedFacts(s);
    TypeTexts(s);
    assert IsType("array") && IsType("object");
    assert t == "array" || Ascii(t) != Ascii("array");
  }

  /** What a scalar type asks of a value, as a shape. */
  lemma {:induction false} LeafAsks(t: string, level: nat, v: Json)
    requires IsType(t) && t != "object" && t != "array"
    ensures Satisfies(LeafShape(Ascii(t)), level, v) <==>
      if t == "string" then v.JStr?
      else if t == "number" then v.JNum?
      else if t == "integer" then v.JNum? && v.num.frac == [] && v.num.exp == []
      else if t == "boolean" then v.JLit? && v.lit < 2
      else v.JLit? && v.lit == 2
  {
    hide Ascii;
    forall u | IsType(u) && t != u
      ensures Ascii(t) != Ascii(u)
    {
      TypesDiffer(t, u);
    }
    assert IsType("string") && IsType("number") && IsType("integer") && IsType("boolean") && IsType("null");
  }

  /** Theorem: what a scalar type asks of a value. Properties beside it change nothing. */
  lemma {:induction false} TypeAsks(s: Schema, root: Schema, depth: nat, level: nat, v: Json)
    requires SchemaOk(s) && Unmixed(s) && depth <= 32 && Valid(v)
    ensures SaysText(s, "type", "string") ==> (Asks(s, root, depth, level, v) <==> v.JStr?)
    ensures SaysText(s, "type", "number") ==> (Asks(s, root, depth, level, v) <==> v.JNum?)
    ensures SaysText(s, "type", "integer") ==>
      (Asks(s, root, depth, level, v) <==> v.JNum? && v.num.frac == [] && v.num.exp == [])
    ensures SaysText(s, "type", "boolean") ==>
      (Asks(s, root, depth, level, v) <==> v.JLit? && (Spells(Render(v), "true") || Spells(Render(v), "false")))
    ensures SaysText(s, "type", "null") ==> (Asks(s, root, depth, level, v) <==> v.JLit? && Spells(Render(v), "null"))
  {
    hide Ascii, SchemaOk, Spells, Unmixed, SaysText, Literal, Meaning, Satisfies, LeafShape;
    forall t | IsType(t) && t != "object" && t != "array" && SaysText(s, "type", t)
      ensures Asks(s, root, depth, level, v) <==> Satisfies(LeafShape(Ascii(t)), level, v)
    {
      TypedMeaning(s, root, depth, t);
    }
    LeafAsks("string", level, v);
    LeafAsks("number", level, v);
    LeafAsks("integer", level, v);
    LeafAsks("boolean", level, v);
    LeafAsks("null", level, v);
    if v.JLit? {
      LiteralIsAWord(v.lit);
    }
  }

  /** Theorem: guidance asks nothing under a schema that is no object, nests too deeply, combines schemas, or has
      neither a type it knows nor properties. */
  lemma {:induction false} FreeSchemas(s: Schema, root: Schema, depth: nat)
    requires SchemaOk(s)
    ensures !s.SObject? || depth > 32 ==> Free(s, root, depth)
    ensures Direct(s) && Combines(s) ==> Free(s, root, depth)
    ensures Unmixed(s) && Names(s, "type") && (forall t | IsType(t) :: !SaysText(s, "type", t)) ==>
      Free(s, root, depth)
    ensures Unmixed(s) && !Names(s, "type") && !Mentions(s, "properties") ==> Free(s, root, depth)
  {
    hide Meaning, Satisfies, Unmixed, Direct, Combines, SaysText, SchemaOk, Says;
    SatisfiedByAll();
    if !s.SObject? || depth > 32 {
      assert Meaning(s, root, depth) == ShAny by {
        OutOfReach(s, root, depth);
      }
    }
    if Direct(s) && Combines(s) {
      CombinedIsFree(s, root, depth);
    }
    if Unmixed(s) {
      UnknownIsFree(s, root, depth);
    }
  }

  lemma {:induction false} OutOfReach(s: Schema, root: Schema, depth: nat)
    requires !s.SObject? || depth > 32
    ensures Meaning(s, root, depth) == ShAny
  {
  }

  lemma {:induction false} CombinedIsFree(s: Schema, root: Schema, depth: nat)
    requires SchemaOk(s) && Direct(s) && Combines(s)
    ensures Meaning(s, root, depth) == ShAny
  {
    hide Ascii, Field, SchemaOk, Says, Direct, Combines;
    UnmixedFacts(s);
  }

  lemma {:induction false} UnknownIsFree(s: Schema, root: Schema, depth: nat)
    requires SchemaOk(s) && Unmixed(s)
    ensures Names(s, "type") && (forall t | IsType(t) :: !SaysText(s, "type", t)) ==> Meaning(s, root, depth) == ShAny
    ensures !Names(s, "type") && !Mentions(s, "properties") ==> Meaning(s, root, depth) == ShAny
  {
    hide Ascii, Field, SchemaOk, Says, SaysText, Unmixed;
    UnmixedFacts(s);
    TypeTexts(s);
    FieldFacts(s, "type");
    FieldFacts(s, "properties");
    KnownTypes();
  }

  lemma {:induction false} KnownTypes()
    ensures IsType("string") && IsType("number") && IsType("integer") && IsType("boolean") && IsType("null")
    ensures IsType("array") && IsType("object")
  {
  }

  // ----- `enum`

  /** How a scalar of the schema is written. */
  predicate Writes(x: Schema, b: seq<Byte>) {
    match x
    case SNull => Spells(b, "null")
    case SBool(yes) => Spells(b, if yes then "true" else "false")
    case SNumber(num) => b == num.Render()
    case SString(_, text) =>
      |b| >= 2 && b[0] == '"' as int && b[|b| - 1] == '"' as int && b[1..|b| - 1] == text.Render()
    case _ => false
  }

  lemma {:induction false} WritesScalar(x: Schema, b: seq<Byte>)
    requires IsScalar(x)
    ensures Writes(x, b) <==> b == ScalarText(x)
  {
    hide Literal;
    PunctuationByCharacter();
    match x
    case SNull => SpelledOnce(2, b);
    case SBool(yes) => SpelledOnce(if yes then 0 else 1, b);
    case SNumber(_) =>
    case SString(_, text) =>
      if Writes(x, b) {
        assert b == [b[0]] + b[1..|b| - 1] + [b[|b| - 1]];
      }
      if b == ScalarText(x) {
        assert b[1..|b| - 1] == text.Render();
      }
  }

  lemma {:induction false} SpelledOnce(lit: nat, b: seq<Byte>)
    requires lit < 3
    ensures Spells(b, if lit == 0 then "true" else if lit == 1 then "false" else "null") <==> b == Literal(lit)
  {
    LiteralIsAWord(lit);
  }

  predicate IsContainer(x: Schema) {
    x.SArray? || x.SObject?
  }

  /** Theorem: one to 64 scalars are what a value may be written as; any other enumeration asks nothing. */
  lemma {:induction false} EnumAsks(s: Schema, root: Schema, depth: nat, elems: seq<Schema>, level: nat, v: Json)
    requires SchemaOk(s) && depth <= 32 && !Names(s, "$ref") && Says(s, "enum", SArray(elems))
    ensures 1 <= |elems| <= 64 && (forall i | 0 <= i < |elems| :: !IsContainer(elems[i])) ==>
      (Asks(s, root, depth, level, v)
       <==> (v.JLit? || v.JNum? || v.JStr?) && exists i | 0 <= i < |elems| :: Writes(elems[i], Render(v)))
    ensures !(1 <= |elems| <= 64) || (exists i | 0 <= i < |elems| :: IsContainer(elems[i])) ==> Free(s, root, depth)
  {
    hide Ascii, Field, SchemaOk, Spells, Render, Writes, ScalarText;
    FieldFacts(s, "$ref");
    FieldIs(s, "enum", SArray(elems));
    assert Meaning(s, root, depth) == EnumShape(elems);
    if 1 <= |elems| <= 64 && (forall i | 0 <= i < |elems| :: !IsContainer(elems[i])) {
      var literals := EnumShape(elems).node.literals;
      forall i | 0 <= i < |elems|
        ensures Writes(elems[i], Render(v)) <==> Render(v) == literals[i]
      {
        WritesScalar(elems[i], Render(v));
      }
    }
  }

  // ----- `$ref`

  /** `ref` is `prefix` and the name of a definition at that place of the root. */
  ghost predicate Defines(root: Schema, place: string, prefix: string, ref: Name, t: Schema) {
    exists defs, i | Says(root, place, SObject(defs)) && 0 <= i < |defs| ::
      && |prefix| <= |ref| && Spells(ref[..|prefix|], prefix)
      && defs[i] == (ref[|prefix|..], t)
  }

  ghost predicate RefersTo(root: Schema, ref: Name, t: Schema) {
    Defines(root, "$defs", "#/$defs/", ref, t) || Defines(root, "definitions", "#/definitions/", ref, t)
  }

  lemma {:induction false} StripIs(prefix: string, ref: Name)
    requires Narrow(prefix)
    ensures |Ascii(prefix)| == |prefix|
    ensures |prefix| <= |ref| && Spells(ref[..|prefix|], prefix) <==> Ascii(prefix) <= ref
  {
    if |prefix| <= |ref| {
      SpellsIsAscii(ref[..|prefix|], prefix);
    }
  }

  lemma {:induction false} DefinedIs(root: Schema, place: string, prefix: string, ref: Name, t: Schema)
    requires SchemaOk(root) && Narrow(place) && Narrow(prefix)
    ensures Defines(root, place, prefix, ref, t) <==> Defined(root, place, prefix, ref) == Some(t)
  {
    hide Ascii, Field, Spells, Narrow, Says, Lookup, SchemaOk;
    FieldFacts(root, place);
    FieldOk(root, place);
    StripIs(prefix, ref);
    if Ascii(prefix) <= ref && Field(root, place).Some? && Field(root, place).value.SObject? {
      FoundIs(Field(root, place).value, ref[|prefix|..], t);
    }
  }

  lemma {:induction false} FoundIs(defs: Schema, name: Name, t: Schema)
    requires defs.SObject? && SchemaOk(defs)
    ensures (exists i | 0 <= i < |defs.fields| :: defs.fields[i] == (name, t)) <==> Lookup(defs.fields, name) == Some(t)
  {
    hide Lookup, SchemaOk;
    LookupIs(defs.fields, name);
    NamesDiffer(defs);
  }

  /** Theorem: a reference asks what the definition it names asks, and nothing when it names none. */
  lemma {:induction false} RefAsks(s: Schema, root: Schema, depth: nat, ref: Name, text: Chars)
    requires SchemaOk(s) && SchemaOk(root) && depth <= 32 && Says(s, "$ref", SString(ref, text))
    ensures forall t | RefersTo(root, ref, t) ::
      forall level: nat, v :: Asks(s, root, depth, level, v) <==> Asks(t, root, depth + 1, level, v)
    ensures (forall t :: !RefersTo(root, ref, t)) ==> Free(s, root, depth)
  {
    hide Ascii, Field, SchemaOk, RefersTo, RefTarget, Satisfies;
    FieldIs(s, "$ref", SString(ref, text));
    forall t
      ensures RefersTo(root, ref, t) <==> RefTarget(root, ref) == Some(t)
    {
      RefersToIs(root, ref, t);
    }
    var target := RefTarget(root, ref);
    if target.Some? {
      assert RefersTo(root, ref, target.value);
      assert Meaning(s, root, depth) == Meaning(target.value, root, depth + 1);
    } else {
      assert Meaning(s, root, depth) == ShAny;
      SatisfiedByAll();
    }
  }

  lemma {:induction false} SatisfiedByAll()
    ensures forall level: nat, v :: Satisfies(ShAny, level, v)
  {
  }

  lemma {:induction false} RefersToIs(root: Schema, ref: Name, t: Schema)
    requires SchemaOk(root)
    ensures RefersTo(root, ref, t) <==> RefTarget(root, ref) == Some(t)
  {
    hide Ascii, Field, SchemaOk, Defines, Defined, Narrow;
    Places();
    DefinedIs(root, "$defs", "#/$defs/", ref, t);
    DefinedIs(root, "definitions", "#/definitions/", ref, t);
    OnePlace(root, ref);
  }

  lemma {:induction false} Places()
    ensures Narrow("$defs") && Narrow("#/$defs/") && Narrow("definitions") && Narrow("#/definitions/")
  {
  }

  /** No reference is to both places. */
  lemma {:induction false} OnePlace(root: Schema, ref: Name)
    ensures Defined(root, "$defs", "#/$defs/", ref).None? || Defined(root, "definitions", "#/definitions/", ref).None?
  {
    var a, b := "#/$defs/", "#/definitions/";
    assert a[2] == '$' && b[2] == 'd';
    assert Ascii(a)[2] == '$' as int && Ascii(b)[2] == 'd' as int;
  }

  // ----- arrays

  predicate IsItem(items: Items, w: Json) {
    items.MoreItems? && (items.v == w || IsItem(items.init, w))
  }

  lemma {:induction false} EveryItem(shape: Shape, depth: nat, items: Items)
    ensures ItemsSatisfy(shape, depth, items) <==> forall w | IsItem(items, w) :: Satisfies(shape, depth, w)
    decreases items
  {
    hide Satisfies;
    if items.MoreItems? {
      EveryItem(shape, depth, items.init);
      assert IsItem(items, items.v);
    }
  }

  /** Theorem: an array's items satisfy the item schema, as far as eight containers deep. */
  lemma {:induction false} ArrayAsks(s: Schema, root: Schema, depth: nat, level: nat, v: Json)
    requires SchemaOk(s) && Unmixed(s) && depth <= 32 && SaysText(s, "type", "array")
    ensures Asks(s, root, depth, level, v) <==>
      v.JArr? && (level < 8 ==> forall w, x | IsItem(v.items, w) && Says(s, "items", x) ::
        Asks(x, root, depth + 1, level + 1, w))
  {
    hide Ascii, Field, SchemaOk, Unmixed, SaysText, Meaning, IsItem, ItemsSatisfy, Says;
    TypedMeaning(s, root, depth, "array");
    FieldFacts(s, "items");
    if v.JArr? {
      EveryItem(ItemShape(s, root, depth), level + 1, v.items);
    }
  }

  // ----- objects

  /** A member of the object, with the members before it. */
  predicate IsMember(members: Members, init: Members, name: seq<Byte>, w: Json) {
    && members.MoreMembers?
    && ((members.init == init && members.key.Render() == name && members.v == w)
        || IsMember(members.init, init, name, w))
  }

  /** A property's first member satisfies the property; any other member needs `open`. */
  ghost predicate MemberFits(fields: seq<(Name, Schema)>, root: Schema, depth: nat, level: nat, open: bool,
        init: Members, name: seq<Byte>, w: Json) {
    && (forall i | 0 <= i < |fields| && fields[i].0 == name && !HasKey(init, name) ::
        Asks(fields[i].1, root, depth, level, w))
    && (HasKey(init, name) || (forall i | 0 <= i < |fields| :: fields[i].0 != name) ==> open)
  }

  lemma {:induction false} ShapesAre(fields: seq<(Name, Schema)>, root: Schema, depth: nat)
    ensures forall i | 0 <= i < |fields| ::
      PropShapes(fields, root, depth)[i] == Prop(fields[i].0, Meaning(fields[i].1, root, depth))
    decreases |fields|
  {
    hide Meaning;
    if fields != [] {
      ShapesAre(fields[..|fields| - 1], root, depth);
    }
  }

  predicate Apart(fields: seq<(Name, Schema)>) {
    forall i, j | 0 <= i < j < |fields| :: fields[i].0 != fields[j].0
  }

  /** Which property a key names for the first time. */
  lemma {:induction false} KeyPropIs(fields: seq<(Name, Schema)>, props: seq<Prop>, init: Members, name: seq<Byte>)
    requires Apart(fields) && |props| == |fields| && forall i | 0 <= i < |fields| :: props[i].name == fields[i].0
    ensures var i := KeyProp(Numbered(props), Emitted(Numbered(props), init), name);
      && (i.Some? ==> i.value < |fields| && fields[i.value].0 == name && !HasKey(init, name))
      && (i.None? ==> HasKey(init, name) || forall j | 0 <= j < |fields| :: fields[j].0 != name)
  {
    hide Emitted, HasKey;
    var numbered := Numbered(props);
    assert DistinctNames(numbered);
    var i := KeyProp(numbered, Emitted(numbered, init), name);
    if i.Some? {
      EmittedAreKeys(numbered, init, i.value);
    } else {
      forall j: nat | j < |fields| && fields[j].0 == name
        ensures HasKey(init, name)
      {
        EmittedAreKeys(numbered, init, j);
      }
    }
  }

  lemma {:induction false} MemberIs(fields: seq<(Name, Schema)>, root: Schema, depth: nat, level: nat, open: bool,
        init: Members, name: seq<Byte>, w: Json)
    requires Apart(fields)
    ensures var props := PropShapes(fields, root, depth);
      var i := KeyProp(Numbered(props), Emitted(Numbered(props), init), name);
      MemberFits(fields, root, depth, level, open, init, name, w)
      <==> if i.Some? then Satisfies(props[i.value].shape, level, w) else open
  {
    hide Meaning, Satisfies, KeyProp, Emitted, HasKey, PropShapes, Numbered;
    var props := PropShapes(fields, root, depth);
    ShapesAre(fields, root, depth);
    KeyPropIs(fields, props, init, name);
    var i := KeyProp(Numbered(props), Emitted(Numbered(props), init), name);
    if i.Some? {
      assert props[i.value].shape == Meaning(fields[i.value].1, root, depth);
    }
  }

  lemma {:induction false} EveryMember(fields: seq<(Name, Schema)>, root: Schema, depth: nat, level: nat, open: bool,
        members: Members)
    requires Apart(fields)
    ensures MembersSatisfy(PropShapes(fields, root, depth), open, level, members) <==>
      forall init, name, w | IsMember(members, init, name, w) ::
        MemberFits(fields, root, depth, level, open, init, name, w)
    decreases members
  {
    hide Meaning, Satisfies, KeyProp, Emitted, PropShapes, MemberFits;
    if members.MoreMembers? {
      var name := members.key.Render();
      EveryMember(fields, root, depth, level, open, members.init);
      MemberIs(fields, root, depth, level, open, members.init, name, members.v);
      assert IsMember(members, members.init, name, members.v);
    }
  }

  // ----- `required`

  predicate Listed(fields: seq<(Name, Schema)>, name: Name) {
    exists i | 0 <= i < |fields| :: fields[i].0 == name
  }

  predicate Requirable(fields: seq<(Name, Schema)>, x: Schema) {
    x.SString? && Listed(fields, x.bytes)
  }

  lemma {:induction false} FirstIndexIs(props: seq<Prop>, name: Name)
    ensures match FirstIndex(props, name)
      case Some(i) => i < |props| && props[i].name == name
      case None => forall i | 0 <= i < |props| :: props[i].name != name
    decreases |props|
  {
    if props != [] && props[0].name != name {
      FirstIndexIs(props[1..], name);
      assert forall i | 0 < i < |props| :: props[i] == props[1..][i - 1];
    }
  }

  predicate NamedAs(props: seq<Prop>, fields: seq<(Name, Schema)>) {
    |props| == |fields| && forall i | 0 <= i < |fields| :: props[i].name == fields[i].0
  }

  predicate IsNamed(x: Schema, name: Name) {
    x.SString? && x.bytes == name
  }

  /** The indices of the properties that these names require. */
  predicate AreRequired(fields: seq<(Name, Schema)>, names: seq<Schema>, bits: set<nat>) {
    && (forall k | k in bits :: k < |fields| && exists i | 0 <= i < |names| :: IsNamed(names[i], fields[k].0))
    && (forall i | 0 <= i < |names| :: exists k | k in bits :: k < |fields| && IsNamed(names[i], fields[k].0))
  }

  lemma {:induction false} OneMoreRequired(fields: seq<(Name, Schema)>, names: seq<Schema>, bits: set<nat>, k: nat)
    requires names != [] && AreRequired(fields, names[..|names| - 1], bits)
    requires k < |fields| && IsNamed(names[|names| - 1], fields[k].0)
    ensures AreRequired(fields, names, bits + {k})
  {
    hide IsNamed;
    var n := |names| - 1;
    forall j | j in bits + {k}
      ensures j < |fields| && exists i | 0 <= i < |names| :: IsNamed(names[i], fields[j].0)
    {
      if j in bits {
        var i :| 0 <= i < n && IsNamed(names[..n][i], fields[j].0);
        assert IsNamed(names[i], fields[j].0);
      }
    }
    forall i | 0 <= i < |names|
      ensures exists j | j in bits + {k} :: j < |fields| && IsNamed(names[i], fields[j].0)
    {
      if i < n {
        assert names[i] == names[..n][i];
      }
    }
  }

  lemma {:induction false} RequiredIs(fields: seq<(Name, Schema)>, props: seq<Prop>, names: seq<Schema>)
    requires NamedAs(props, fields)
    ensures RequiredOf(props, names).Some? <==> forall i | 0 <= i < |names| :: Requirable(fields, names[i])
    ensures RequiredOf(props, names).Some? ==> AreRequired(fields, names, RequiredOf(props, names).value)
    decreases |names|
  {
    hide AreRequired, FirstIndex, Listed;
    if names == [] {
      NoneRequired(fields);
    } else {
      var n := |names| - 1;
      RequiredIs(fields, props, names[..n]);
      assert forall i | 0 <= i < n :: names[..n][i] == names[i];
      if names[n].SString? {
        var k := FirstIndex(props, names[n].bytes);
        ListedIs(fields, props, names[n].bytes);
        if k.Some? && RequiredOf(props, names[..n]).Some? {
          OneMoreRequired(fields, names, RequiredOf(props, names[..n]).value, k.value);
        }
      }
    }
  }

  lemma {:induction false} NoneRequired(fields: seq<(Name, Schema)>)
    ensures AreRequired(fields, [], {})
  {
  }

  lemma {:induction false} ListedIs(fields: seq<(Name, Schema)>, props: seq<Prop>, name: Name)
    requires NamedAs(props, fields)
    ensures FirstIndex(props, name).Some? <==> Listed(fields, name)
    ensures FirstIndex(props, name).Some? ==>
      FirstIndex(props, name).value < |fields| && fields[FirstIndex(props, name).value].0 == name
  {
    hide FirstIndex;
    FirstIndexIs(props, name);
    if FirstIndex(props, name).Some? {
      assert fields[FirstIndex(props, name).value].0 == name;
    }
  }

  /** There is a member for every required name. */
  predicate AllKeys(members: Members, names: seq<Schema>) {
    forall i | 0 <= i < |names| && names[i].SString? :: HasKey(members, names[i].bytes)
  }

  lemma {:induction false} RequiredAreKeys(fields: seq<(Name, Schema)>, props: seq<Prop>, names: seq<Schema>,
        bits: set<nat>, members: Members)
    requires NamedAs(props, fields) && Apart(fields)
    requires (forall i | 0 <= i < |names| :: Requirable(fields, names[i])) && AreRequired(fields, names, bits)
    ensures bits <= Emitted(Numbered(props), members) <==> AllKeys(members, names)
  {
    hide Emitted, HasKey, Listed;
    var numbered := Numbered(props);
    assert DistinctNames(numbered);
    forall k: nat | k < |fields|
      ensures k in Emitted(numbered, members) <==> HasKey(members, fields[k].0)
    {
      EmittedAreKeys(numbered, members, k);
    }
  }

  // ----- objects as a whole

  ghost predicate IsObjectSchema(s: Schema) {
    SaysText(s, "type", "object") || (!Names(s, "type") && Mentions(s, "properties"))
  }

  /** The object under `properties`; without one there are no properties. */
  ghost predicate HasProperties(s: Schema, fields: seq<(Name, Schema)>) {
    Says(s, "properties", SObject(fields)) || (fields == [] && forall x | Says(s, "properties", x) :: !x.SObject?)
  }

  /** The array under `required`; without one nothing is required. */
  ghost predicate Requires(s: Schema, names: seq<Schema>) {
    Says(s, "required", SArray(names)) || (names == [] && forall x | Says(s, "required", x) :: !x.SArray?)
  }

  function RequiredIn(s: Schema, props: seq<Prop>): Option<set<nat>> {
    match Field(s, "required")
    case Some(SArray(names)) => RequiredOf(props, names)
    case _ => Some({})
  }

  lemma {:induction false} ObjectFacts(s: Schema, root: Schema, depth: nat, fields: seq<(Name, Schema)>,
        names: seq<Schema>)
    requires SchemaOk(s) && Unmixed(s) && depth <= 32 && IsObjectSchema(s)
    requires HasProperties(s, fields) && Requires(s, names)
    ensures PropertiesOf(s) == fields && Apart(fields)
    ensures Meaning(s, root, depth) == ObjectMeaning(s, root, depth)
    ensures RequiredIn(s, PropShapes(fields, root, depth + 1)) == RequiredOf(PropShapes(fields, root, depth + 1), names)
    ensures Additional(s) <==> !Says(s, "additionalProperties", SBool(false))
  {
    hide Ascii, Field, SchemaOk, Unmixed, SaysText, Says, ObjectMeaning, PropShapes;
    UnmixedFacts(s);
    TypeTexts(s);
    assert IsType("object");
    FieldFacts(s, "type");
    FieldFacts(s, "properties");
    FieldFacts(s, "required");
    FieldFacts(s, "additionalProperties");
    PropertiesOk(s);
  }

  /** Every member in its place, and one for every required name. */
  ghost predicate MembersFit(s: Schema, root: Schema, depth: nat, level: nat, fields: seq<(Name, Schema)>,
        names: seq<Schema>, members: Members) {
    && AllKeys(members, names)
    && forall init, name, w | IsMember(members, init, name, w) ::
      MemberFits(fields, root, depth, level, !Says(s, "additionalProperties", SBool(false)), init, name, w)
  }

  /** Theorem: what an object schema asks of a value, as far as eight containers deep; nothing with more than 64
      properties or when a required name is not among them. */
  lemma {:induction false} ObjectAsks(s: Schema, root: Schema, depth: nat, fields: seq<(Name, Schema)>,
        names: seq<Schema>, level: nat, v: Json)
    requires SchemaOk(s) && Unmixed(s) && depth <= 32 && IsObjectSchema(s)
    requires HasProperties(s, fields) && Requires(s, names)
    ensures |fields| > 64 || (exists i | 0 <= i < |names| :: !Requirable(fields, names[i])) ==> Free(s, root, depth)
    ensures |fields| <= 64 && (forall i | 0 <= i < |names| :: Requirable(fields, names[i])) ==>
      (Asks(s, root, depth, level, v) <==>
        v.JObj? && (level < 8 ==> MembersFit(s, root, depth + 1, level + 1, fields, names, v.members)))
  {
    hide SchemaOk, Unmixed, Says, PropShapes, MembersFit, Meaning, Emitted, RequiredOf, IsObjectSchema, HasProperties,
      Requires, Additional, PropertiesOf, Requirable, MembersSatisfy, Field;
    ObjectFacts(s, root, depth, fields, names);
    var props := PropShapes(fields, root, depth + 1);
    ShapesAre(fields, root, depth + 1);
    RequiredIs(fields, props, names);
    if |fields| <= 64 && RequiredOf(props, names).Some? && v.JObj? {
      FitsIsSatisfies(s, root, depth + 1, level + 1, fields, names, RequiredOf(props, names).value, v.members);
    }
  }

  lemma {:induction false} FitsIsSatisfies(s: Schema, root: Schema, depth: nat, level: nat,
        fields: seq<(Name, Schema)>, names: seq<Schema>, bits: set<nat>, members: Members)
    requires Apart(fields) && (Additional(s) <==> !Says(s, "additionalProperties", SBool(false)))
    requires (forall i | 0 <= i < |names| :: Requirable(fields, names[i])) && AreRequired(fields, names, bits)
    ensures var props := PropShapes(fields, root, depth);
      MembersFit(s, root, depth, level, fields, names, members)
      <==> MembersSatisfy(props, Additional(s), level, members) && bits <= Emitted(Numbered(props), members)
  {
    hide Says, PropShapes, IsMember, MemberFits, Meaning, MembersSatisfy, Emitted, AllKeys, Additional, Requirable,
      AreRequired;
    var props := PropShapes(fields, root, depth);
    ShapesAre(fields, root, depth);
    EveryMember(fields, root, depth, level, Additional(s), members);
    RequiredAreKeys(fields, props, names, bits, members);
  }
}
