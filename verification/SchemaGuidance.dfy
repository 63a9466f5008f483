/**
 From a schema to what generation gives: compiling (src/constrain.rs:557-705), guiding and masking in one
 (src/constrain.rs:1111-1209).
 */
module SchemaGuidance {
  import opened Wrappers
  import opened JsonBytes
  import opened JsonGrammar
  import opened Guide
  import opened Conformance
  import opened SchemaArena
  import Automaton
  import Guided
  import GuidedSteps
  import NeverStuck
  import OnlySpaces
  import JsonConstraint

  // ----- what a schema asks of a value, without an arena

  /** The properties by name and position. */
  function Numbered(props: seq<Prop>): (r: Props)
    ensures |r| == |props| && forall i | 0 <= i < |props| :: r[i] == (props[i].name, i)
  {
    seq(|props|, i requires 0 <= i < |props| => (props[i].name, i))
  }

  /** `Conformance.Conforms` read off the schema's meaning. */
  predicate Satisfies(shape: Shape, depth: nat, v: Json)
    decreases v, 0
  {
    match shape
    case ShAny => true
    case ShObject(props, required, additional) =>
      v.JObj? && (depth < GUIDED_DEPTH ==>
        MembersSatisfy(props, additional, depth + 1, v.members) && required <= Emitted(Numbered(props), v.members))
    case ShArray(items) => v.JArr? && (depth < GUIDED_DEPTH ==> ItemsSatisfy(items, depth + 1, v.items))
    case ShLeaf(Str) => v.JStr?
    case ShLeaf(Number(integer)) => v.JNum? && (integer ==> Integral(v.num))
    case ShLeaf(Boolean) => v.JLit? && v.lit < 2
    case ShLeaf(Null) => v.JLit? && v.lit == 2
    case ShLeaf(Enum(literals)) => (v.JLit? || v.JNum? || v.JStr?) && Render(v) in literals
    case ShLeaf(_) => true
  }

  predicate ItemsSatisfy(shape: Shape, depth: nat, items: Items)
    decreases items, 1
  {
    match items
    case NoItems => true
    case MoreItems(init, _, v, _) => ItemsSatisfy(shape, depth, init) && Satisfies(shape, depth, v)
  }

  predicate MembersSatisfy(props: seq<Prop>, additional: bool, depth: nat, members: Members)
    decreases members, 1
  {
    match members
    case NoMembers => true
    case MoreMembers(init, _, key, _, _, v, _) =>
      && MembersSatisfy(props, additional, depth, init)
      && var i := KeyProp(Numbered(props), Emitted(Numbered(props), init), key.Render());
         if i.Some? then Satisfies(props[i.value].shape, depth, v) else additional
  }

  predicate SameNames(a: Props, b: Props) {
    |a| == |b| && forall i | 0 <= i < |a| :: a[i].0 == b[i].0
  }

  lemma {:induction false} SameKeyProp(a: Props, b: Props, emitted: set<nat>, name: seq<Byte>, from: nat)
    requires SameNames(a, b)
    ensures KeyProp(a, emitted, name, from) == KeyProp(b, emitted, name, from)
    decreases |a| - from
  {
    if from < |a| {
      SameKeyProp(a, b, emitted, name, from + 1);
    }
  }

  lemma {:induction false} SameEmitted(a: Props, b: Props, members: Members)
    requires SameNames(a, b)
    ensures Emitted(a, members) == Emitted(b, members)
    decreases members
  {
    if members.MoreMembers? {
      SameEmitted(a, b, members.init);
      SameKeyProp(a, b, Emitted(a, members.init), members.key.Render(), 0);
    }
  }

  lemma {:induction false} PropAt(nodes: Arena, parent: NodeId, props: Props, shapes: seq<Prop>, i: nat)
    requires RepresentsProps(nodes, parent, props, shapes) && i < |props|
    ensures |props| == |shapes| && props[i].0 == shapes[i].name && Represents(nodes, props[i].1, shapes[i].shape)
    decreases |props|
  {
    var n := |props| - 1;
    if i < n {
      PropAt(nodes, parent, props[..n], shapes[..n], i);
    }
  }

  lemma {:induction false} NamesAre(nodes: Arena, parent: NodeId, props: Props, shapes: seq<Prop>)
    requires RepresentsProps(nodes, parent, props, shapes)
    ensures SameNames(props, Numbered(shapes))
  {
    forall i | 0 <= i < |props|
      ensures props[i].0 == Numbered(shapes)[i].0
    {
      PropAt(nodes, parent, props, shapes, i);
    }
  }

  /** A leaf of a compiled schema. */
  predicate LeavesOk(shape: Shape)
    decreases shape
  {
    match shape
    case ShAny => true
    case ShLeaf(node) => node.Str? || node.Number? || node.Boolean? || node.Null? || node.Enum?
    case ShArray(items) => LeavesOk(items)
    case ShObject(props, _, _) => forall i | 0 <= i < |props| :: LeavesOk(props[i].shape)
  }

  /** Conforming to an arena is satisfying the shape its root represents. */
  lemma {:induction false} ConformsIsSatisfies(nodes: Arena, id: NodeId, shape: Shape, depth: nat, v: Json)
    requires Represents(nodes, id, shape) && LeavesOk(shape)
    ensures Conforms(nodes, id, depth, v) <==> Satisfies(shape, depth, v)
    decreases v, 0
  {
    match shape
    case ShArray(items) =>
      if v.JArr? {
        ItemsIsSatisfies(nodes, nodes[id].items, items, depth + 1, v.items);
      }
    case ShObject(props, required, additional) =>
      if v.JObj? {
        MembersIsSatisfies(nodes, id, nodes[id].props, props, additional, depth + 1, v.members);
        NamesAre(nodes, id, nodes[id].props, props);
        SameEmitted(nodes[id].props, Numbered(props), v.members);
      }
    case _ =>
  }

  lemma {:induction false} ItemsIsSatisfies(nodes: Arena, id: NodeId, shape: Shape, depth: nat, items: Items)
    requires Represents(nodes, id, shape) && LeavesOk(shape)
    ensures ItemsConform(nodes, id, depth, items) <==> ItemsSatisfy(shape, depth, items)
    decreases items, 1
  {
    if items.MoreItems? {
      ItemsIsSatisfies(nodes, id, shape, depth, items.init);
      ConformsIsSatisfies(nodes, id, shape, depth, items.v);
    }
  }

  lemma {:induction false} MembersIsSatisfies(nodes: Arena, parent: NodeId, props: Props, shapes: seq<Prop>,
        additional: bool, depth: nat, members: Members)
    requires RepresentsProps(nodes, parent, props, shapes) && forall i | 0 <= i < |shapes| :: LeavesOk(shapes[i].shape)
    ensures MembersConform(nodes, props, additional, depth, members)
      <==> MembersSatisfy(shapes, additional, depth, members)
    decreases members, 1
  {
    hide Represents, RepresentsProps, Satisfies, Conforms;
    if members.MoreMembers? {
      MembersIsSatisfies(nodes, parent, props, shapes, additional, depth, members.init);
      NamesAre(nodes, parent, props, shapes);
      SameEmitted(props, Numbered(shapes), members.init);
      var emitted := Emitted(props, members.init);
      SameKeyProp(props, Numbered(shapes), emitted, members.key.Render(), 0);
      var i := KeyProp(props, emitted, members.key.Render());
      if i.Some? {
        PropAt(nodes, parent, props, shapes, i.value);
        ConformsIsSatisfies(nodes, props[i.value].1, shapes[i.value].shape, depth, members.v);
      }
    }
  }

  /** Compiling leaves no other leaves. */
  lemma {:induction false} MeaningLeaves(s: Schema, root: Schema, depth: nat)
    ensures LeavesOk(Meaning(s, root, depth))
    decreases Left(depth), 0, 1
  {
    hide Ascii, LeafShape, HasCombinator, ReadsAsObject, ObjectMeaning;
    if depth <= MAX_SCHEMA_DEPTH && s.SObject? {
      if Text(s, "$ref").Some? {
        var target := RefTarget(root, Text(s, "$ref").value);
        if target.Some? {
          MeaningLeaves(target.value, root, depth + 1);
        }
      } else {
        if Field(s, "items").Some? {
          MeaningLeaves(Field(s, "items").value, root, depth + 1);
        }
        ObjectLeaves(s, root, depth);
        if Text(s, "type").Some? {
          LeafOk(Text(s, "type").value);
        }
      }
    }
  }

  lemma {:induction false} ObjectLeaves(s: Schema, root: Schema, depth: nat)
    requires depth <= MAX_SCHEMA_DEPTH
    ensures LeavesOk(ObjectMeaning(s, root, depth))
    decreases Left(depth), 0, 0
  {
    hide Ascii, Meaning, PropShapes, RequiredOf;
    PropLeaves(PropertiesOf(s), root, depth + 1);
  }

  lemma {:induction false} PropLeaves(fields: seq<(Name, Schema)>, root: Schema, depth: nat)
    ensures forall i | 0 <= i < |fields| :: LeavesOk(PropShapes(fields, root, depth)[i].shape)
    decreases Left(depth), 1, |fields|
  {
    hide Meaning;
    if fields != [] {
      PropLeaves(fields[..|fields| - 1], root, depth);
      MeaningLeaves(fields[|fields| - 1].1, root, depth);
    }
  }

  // ----- compile, guide, mask

  /** The spec guides by this schema. */
  ghost predicate Guides(spec: JsonConstraint.Spec, schema: Schema) {
    && Sound(spec.arena) && spec.root == |spec.arena| - 1
    && (Fits(spec.arena) ==> Represents(spec.arena, spec.root, Meaning(schema, schema, 0)))
  }

  method ForSchema(schema: Schema, table: JsonConstraint.ByteTable, mode: Automaton.Mode)
    returns (c: JsonConstraint.JsonConstraint)
    requires SchemaOk(schema)
    ensures c.Valid() && c.View() == InitialWalker()
    ensures c.spec.table == table && c.spec.mode == mode && Guides(c.spec, schema)
  {
    var compiler := new SchemaCompiler();
    compiler.CompileRoot(schema);
    c := new JsonConstraint.JsonConstraint(table, mode, compiler.nodes, |compiler.nodes| - 1);
  }

  /** A plain JSON request: an arena whose root constrains nothing. */
  method Unconstrained(table: JsonConstraint.ByteTable) returns (c: JsonConstraint.JsonConstraint)
    ensures c.Valid() && c.View() == InitialWalker()
    ensures c.spec == JsonConstraint.Spec(table, [Any], 0, Automaton.ObjectMode)
    ensures Sound(c.spec.arena) && Writable(c.spec.arena, Automaton.ObjectMode)
  {
    c := new JsonConstraint.JsonConstraint(table, Automaton.ObjectMode, [Any], 0);
  }

  /** A document that satisfies the schema's meaning. */
  ghost predicate IsSatisfyingText(schema: Schema, mode: Automaton.Mode, s: seq<Byte>) {
    exists d: Document ::
      && ValidDocument(d) && BoundedDocument(d) && (mode.ValueMode? || d.v.JObj?) && RenderDocument(d) == s
      && Satisfies(Meaning(schema, schema, 0), 0, d.v)
  }

  lemma {:induction false} ConformingIsSatisfying(spec: JsonConstraint.Spec, schema: Schema, s: seq<Byte>)
    requires Guides(spec, schema) && Fits(spec.arena)
    ensures GuidedSteps.IsConformingText(spec.arena, spec.root, spec.mode, s)
      <==> IsSatisfyingText(schema, spec.mode, s)
  {
    hide Meaning, Satisfies, Conforms, Represents, LeavesOk, ValidDocument, BoundedDocument, RenderDocument;
    MeaningLeaves(schema, schema, 0);
    forall d: Document
      ensures Conforms(spec.arena, spec.root, 0, d.v) <==> Satisfies(Meaning(schema, schema, 0), 0, d.v)
    {
      ConformsIsSatisfies(spec.arena, spec.root, Meaning(schema, schema, 0), 0, d.v);
    }
  }

  /** Theorem: whatever was generated under a compiled schema, the mask lets the generation go on or stop; and where it
      offers a stop, the text satisfies the schema as guidance reads it, or is a number standing alone under an enum. */
  lemma {:induction false} GuidedGeneration(schema: Schema, spec: JsonConstraint.Spec, tokens: seq<nat>)
    requires Guides(spec, schema) && Fits(spec.arena) && Writable(spec.arena, spec.mode)
    requires JsonConstraint.HasAllBytes(spec.table) && spec.table.stopIds != []
    requires JsonConstraint.Generated(spec, tokens)
    ensures var w := JsonConstraint.After(spec, tokens);
      && (exists id :: JsonConstraint.MaskAllows(spec, w, id))
      && ((exists id :: JsonConstraint.OffersMore(spec, w, id)) <==> !OnlySpaces.OnlySpaceLeft(spec.arena, w))
      && forall stop | stop in spec.table.stopIds && JsonConstraint.Bytes(spec, stop) == []
           && JsonConstraint.MaskAllows(spec, w, stop) ::
           || IsSatisfyingText(schema, spec.mode, JsonConstraint.TextOf(spec, tokens))
           || (spec.mode.ValueMode?
               && GuidedSteps.UnsettledNumber(spec.arena, spec.root, JsonConstraint.TextOf(spec, tokens)))
  {
    hide Meaning, Represents, Writable, Sound, IsSatisfyingText, GuidedSteps.IsConformingText,
      GuidedSteps.UnsettledNumber, JsonConstraint.MaskAllows, JsonConstraint.OffersMore, JsonConstraint.Generated,
      OnlySpaces.OnlySpaceLeft;
    CompiledIsWellFormed(spec.arena);
    CompiledIsSpeakable(spec.arena, spec.mode);
    JsonConstraint.MaskNeverEmpty(spec, tokens);
    ConformingIsSatisfying(spec, schema, JsonConstraint.TextOf(spec, tokens));
    forall stop | stop in spec.table.stopIds && JsonConstraint.Bytes(spec, stop) == []
        && JsonConstraint.MaskAllows(spec, JsonConstraint.After(spec, tokens), stop)
      ensures IsSatisfyingText(schema, spec.mode, JsonConstraint.TextOf(spec, tokens))
        || (spec.mode.ValueMode?
            && GuidedSteps.UnsettledNumber(spec.arena, spec.root, JsonConstraint.TextOf(spec, tokens)))
    {
      JsonConstraint.StoppedTextConforms(spec, tokens, stop);
    }
  }

  /** In object mode a root that is neither an object nor free leaves nothing but whitespace from the start. */
  lemma {:induction false} ObjectModeNeedsAnObject(arena: Arena, root: NodeId)
    requires Guided.WellFormed(arena, root)
    ensures (exists b: Byte :: WalkByte(arena, root, Automaton.ObjectMode, InitialWalker(), b).Some? && !IsWs(b))
      <==> arena[root].Object? || arena[root].Any?
  {
    if arena[root].Object? || arena[root].Any? {
      assert WalkByte(arena, root, Automaton.ObjectMode, InitialWalker(), LBRACE).Some?;
    } else if arena[root].Enum? {
      forall i | 0 <= i < |arena[root].literals|
        ensures arena[root].literals[i] != [] ==> arena[root].literals[i][0] != LBRACE
      {
        GuidedSteps.EnumLiteralsAreScalars(arena, root, root, i);
      }
    }
  }

  /** When a request with this schema is answered in object mode (src/server/routes/chat.rs:2194-2200). */
  predicate PicksObjectMode(schema: Schema) {
    Text(schema, "type") == Some(Ascii("object")) || Field(schema, "properties").Some?
  }

  /** Theorem: in object mode some byte other than whitespace starts a text exactly when guidance reads the schema as an
      object, or as nothing it follows. */
  lemma {:induction false} ObjectModeStartsIff(spec: JsonConstraint.Spec, schema: Schema)
    requires Guides(spec, schema) && Fits(spec.arena) && spec.mode.ObjectMode?
    ensures (exists b: Byte ::
              WalkByte(spec.arena, spec.root, spec.mode, InitialWalker(), b).Some? && !IsWs(b))
      <==> Meaning(schema, schema, 0).ShObject? || Meaning(schema, schema, 0).ShAny?
  {
    hide Meaning, WalkByte, Sound, LeavesOk;
    MeaningLeaves(schema, schema, 0);
    RootShape(spec, Meaning(schema, schema, 0));
    CompiledIsWellFormed(spec.arena);
    ObjectModeNeedsAnObject(spec.arena, spec.root);
  }

  lemma {:induction false} RootShape(spec: JsonConstraint.Spec, shape: Shape)
    requires Represents(spec.arena, spec.root, shape) && LeavesOk(shape)
    ensures spec.arena[spec.root].Object? || spec.arena[spec.root].Any? <==> shape.ShObject? || shape.ShAny?
  {
  }

  /** `{"type":"string","properties":{}}`, however its one string is spelled. */
  function StringWithProperties(text: Chars): Schema {
    SObject([(Ascii("type"), SString(Ascii("string"), text)), (Ascii("properties"), SObject([]))])
  }

  /** This schema picks object mode, and then nothing but whitespace is ever let through. */
  lemma {:induction false} StringWithPropertiesIsStuck(spec: JsonConstraint.Spec, text: Chars)
    requires Guides(spec, StringWithProperties(text)) && Fits(spec.arena) && spec.mode.ObjectMode?
    ensures PicksObjectMode(StringWithProperties(text))
    ensures !exists b: Byte :: WalkByte(spec.arena, spec.root, spec.mode, InitialWalker(), b).Some? && !IsWs(b)
  {
    hide WalkByte, Guides;
    var schema := StringWithProperties(text);
    StringIsALeaf(schema, text);
    ObjectModeStartsIff(spec, schema);
  }

  lemma {:induction false} StringIsALeaf(schema: Schema, text: Chars)
    requires schema == StringWithProperties(text)
    ensures PicksObjectMode(schema) && Meaning(schema, schema, 0) == ShLeaf(Str)
  {
    hide Lookup;
    var (type_, properties) := (Ascii("type"), Ascii("properties"));
    assert |type_| == 4 && type_[0] == 0x74 && |properties| == 10;
    assert |Ascii("$ref")| == 4 && Ascii("$ref")[0] == 0x24 && |Ascii("enum")| == 4 && Ascii("enum")[0] == 0x65;
    assert |Ascii("anyOf")| == |Ascii("oneOf")| == |Ascii("allOf")| == 5;
    assert |Ascii("object")| == |Ascii("string")| == 6 && Ascii("object")[0] == 0x6F && Ascii("string")[0] == 0x73;
    assert |Ascii("array")| == 5;
    forall name: Name
      ensures Lookup(schema.fields, name) ==
        if name == type_ then Some(SString(Ascii("string"), text))
        else if name == properties then Some(SObject([])) else None
    {
      LookupInTwo(schema.fields, name);
    }
    assert Field(schema, "$ref").None? && Field(schema, "enum").None?;
    assert Field(schema, "anyOf").None? && Field(schema, "oneOf").None? && Field(schema, "allOf").None?;
  }

  lemma {:induction false} LookupInTwo(fields: seq<(Name, Schema)>, name: Name)
    requires |fields| == 2
    ensures Lookup(fields, name) ==
      if name == fields[0].0 then Some(fields[0].1)
      else if name == fields[1].0 then Some(fields[1].1) else None
  {
    var rest := fields[1..];
    assert Lookup(rest, name) == if name == rest[0].0 then Some(rest[0].1) else Lookup(rest[1..], name);
    assert rest[1..] == [];
  }
}
