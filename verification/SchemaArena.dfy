/**
 The schema compiler (src/constrain.rs:557-705): a JSON Schema becomes guidance nodes in an arena,
 children before parents, `Any` wherever the schema says more than guidance follows.

 `Meaning` is what guidance makes of a schema, as a tree; compiling is proved to represent it.
 */
module SchemaArena {
  import opened Wrappers
  import opened JsonBytes
  import opened JsonGrammar
  import opened Guide
  import opened Conformance
  import Automaton
  import Guided
  import NeverStuck

  type Name = seq<Byte>

  /** A parsed schema document. Numbers and strings carry their text as `to_vec` writes it back. */
  datatype Schema =
    | SNull
    | SBool(b: bool)
    | SNumber(num: JsonGrammar.Number)
    | SString(bytes: Name, text: Chars)
    | SArray(elems: seq<Schema>)
    | SObject(fields: seq<(Name, Schema)>)

  const MAX_SCHEMA_DEPTH: nat := 32
  const MAX_BITS: nat := 64
  const ID_RANGE: nat := 0x1_0000

  function Ascii(s: string): Name {
    seq(|s|, i requires 0 <= i < |s| => s[i] as int % 256)
  }

  function Lookup(fields: seq<(Name, Schema)>, name: Name): Option<Schema> {
    if fields == [] then None
    else if fields[0].0 == name then Some(fields[0].1)
    else Lookup(fields[1..], name)
  }

  function Field(s: Schema, name: string): Option<Schema> {
    if s.SObject? then Lookup(s.fields, Ascii(name)) else None
  }

  /** A field's string value, if it has one. */
  function Text(s: Schema, name: string): Option<Name> {
    match Field(s, name)
    case Some(SString(bytes, _)) => Some(bytes)
    case _ => None
  }

  function Defined(root: Schema, place: string, prefix: string, ref: Name): Option<Schema> {
    var defs := Field(root, place);
    if Ascii(prefix) <= ref && defs.Some? && defs.value.SObject?
    then Lookup(defs.value.fields, ref[|prefix|..])
    else None
  }

  /** What a `$ref` names: a definition under either of the two customary places. */
  function RefTarget(root: Schema, ref: Name): Option<Schema> {
    var first := Defined(root, "$defs", "#/$defs/", ref);
    if first.Some? then first else Defined(root, "definitions", "#/definitions/", ref)
  }

  predicate IsScalar(s: Schema) {
    !s.SArray? && !s.SObject?
  }

  function ScalarText(s: Schema): seq<Byte>
    requires IsScalar(s)
  {
    match s
    case SNull => Render(JLit(2))
    case SBool(b) => Render(JLit(if b then 0 else 1))
    case SNumber(num) => Render(JNum(num))
    case SString(_, text) => Render(JStr(text))
  }

  function FirstIndex(props: seq<Prop>, name: Name): Option<nat> {
    if props == [] then None
    else if props[0].name == name then Some(0)
    else
      var i :- FirstIndex(props[1..], name);
      Some(i + 1)
  }

  /** What the JSON parser guarantees of the document: grammatical scalars, distinct field names. */
  predicate SchemaOk(s: Schema) {
    match s
    case SNull => true
    case SBool(_) => true
    case SNumber(num) => num.Valid()
    case SString(_, text) => text.Valid()
    case SArray(elems) => forall i | 0 <= i < |elems| :: SchemaOk(elems[i])
    case SObject(fields) =>
      && (forall i, j | 0 <= i < j < |fields| :: fields[i].0 != fields[j].0)
      && (forall i | 0 <= i < |fields| :: SchemaOk(fields[i].1))
  }

  lemma {:induction false} LookupOk(fields: seq<(Name, Schema)>, name: Name)
    requires forall i | 0 <= i < |fields| :: SchemaOk(fields[i].1)
    ensures Lookup(fields, name).Some? ==> SchemaOk(Lookup(fields, name).value)
    decreases |fields|
  {
    if fields != [] && fields[0].0 != name {
      LookupOk(fields[1..], name);
    }
  }

  lemma {:induction false} FieldOk(s: Schema, name: string)
    requires SchemaOk(s)
    ensures Field(s, name).Some? ==> SchemaOk(Field(s, name).value)
  {
    if s.SObject? {
      LookupOk(s.fields, Ascii(name));
    }
  }

  lemma {:induction false} DefinedOk(root: Schema, place: string, prefix: string, ref: Name)
    requires SchemaOk(root)
    ensures Defined(root, place, prefix, ref).Some? ==> SchemaOk(Defined(root, place, prefix, ref).value)
  {
    FieldOk(root, place);
    var defs := Field(root, place);
    if Ascii(prefix) <= ref && defs.Some? && defs.value.SObject? {
      LookupOk(defs.value.fields, ref[|prefix|..]);
    }
  }

  /** A node guidance can work with: see `Guided.WellFormed` and `NeverStuck.SpeakableNode`. */
  ghost predicate NodeSound(node: Node) {
    && Guided.NodeOk(node)
    && (node.Object? ==>
          && |node.props| <= MAX_BITS && DistinctNames(node.props)
          && forall i | i in node.required :: i < |node.props|)
    && (node.Enum? ==> 0 < |node.literals| <= MAX_BITS)
  }

  /** What the compiler keeps of its arena. */
  ghost predicate Sound(arena: Arena) {
    arena != [] && arena[0] == Any && forall i | 0 <= i < |arena| :: NodeSound(arena[i])
  }

  // ----- the meaning of a schema, as a tree

  datatype Shape =
    | ShAny
    | ShObject(props: seq<Prop>, required: set<nat>, additional: bool)
    | ShArray(items: Shape)
    | ShLeaf(node: Node)

  datatype Prop = Prop(name: Name, shape: Shape)

  /** The indices of the required names; `None` when one is not a property. */
  function RequiredOf(props: seq<Prop>, names: seq<Schema>): Option<set<nat>> {
    if names == [] then Some({})
    else if !names[|names| - 1].SString? then None
    else
      var rest :- RequiredOf(props, names[..|names| - 1]);
      var i :- FirstIndex(props, names[|names| - 1].bytes);
      Some(rest + {i})
  }

  predicate HasCombinator(s: Schema) {
    Field(s, "anyOf").Some? || Field(s, "oneOf").Some? || Field(s, "allOf").Some?
  }

  function Additional(s: Schema): bool {
    Field(s, "additionalProperties") != Some(SBool(false))
  }

  predicate ReadsAsObject(s: Schema) {
    if Text(s, "type").Some? then Text(s, "type").value == Ascii("object") else Field(s, "properties").Some?
  }

  function PropertiesOf(s: Schema): seq<(Name, Schema)> {
    match Field(s, "properties")
    case Some(SObject(fields)) => fields
    case _ => []
  }

  function EnumOf(s: Schema): Option<seq<Schema>> {
    match Field(s, "enum")
    case Some(SArray(elems)) => Some(elems)
    case _ => None
  }

  function EnumShape(values: seq<Schema>): Shape {
    if values == [] || |values| > MAX_BITS || exists i | 0 <= i < |values| :: !IsScalar(values[i]) then ShAny
    else ShLeaf(Enum(seq(|values|,
    i requires 0 <= i < |values| => if IsScalar(values[i]) then ScalarText(values[i]) else [])))
  }

  function LeafShape(ty: Name): Shape {
    if ty == Ascii("string") then ShLeaf(Str)
    else if ty == Ascii("number") then ShLeaf(Node.Number(false))
    else if ty == Ascii("integer") then ShLeaf(Node.Number(true))
    else if ty == Ascii("boolean") then ShLeaf(Boolean)
    else if ty == Ascii("null") then ShLeaf(Null)
    else ShAny
  }

  lemma {:induction false} LeafOk(ty: Name)
    ensures var leaf := LeafShape(ty);
      leaf.ShAny? || (leaf.ShLeaf? && (leaf.node.Str? || leaf.node.Number? || leaf.node.Boolean? || leaf.node.Null?))
  {
    hide Ascii;
  }

  function Left(depth: nat): nat {
    if depth > MAX_SCHEMA_DEPTH then 0 else MAX_SCHEMA_DEPTH + 1 - depth
  }

  function PropShapes(fields: seq<(Name, Schema)>, root: Schema, depth: nat): (r: seq<Prop>)
    ensures |r| == |fields|
    decreases Left(depth), 1, |fields|
  {
    if fields == [] then []
    else
      var last := fields[|fields| - 1];
      PropShapes(fields[..|fields| - 1], root, depth) + [Prop(last.0, Meaning(last.1, root, depth))]
  }

  function Meaning(s: Schema, root: Schema, depth: nat): Shape
    decreases Left(depth), 0
  {
    if depth > MAX_SCHEMA_DEPTH || !s.SObject? then ShAny
    else if Text(s, "$ref").Some? then
      var target := RefTarget(root, Text(s, "$ref").value);
      if target.Some? then Meaning(target.value, root, depth + 1) else ShAny
    else if EnumOf(s).Some? then EnumShape(EnumOf(s).value)
    else if HasCombinator(s) then ShAny
    else if ReadsAsObject(s) then ObjectMeaning(s, root, depth)
    else if Text(s, "type") == Some(Ascii("array")) then
      var items := Field(s, "items");
      ShArray(if items.Some? then Meaning(items.value, root, depth + 1) else ShAny)
    else if Text(s, "type").Some? then LeafShape(Text(s, "type").value)
    else ShAny
  }

  function ObjectMeaning(s: Schema, root: Schema, depth: nat): Shape
    requires depth <= MAX_SCHEMA_DEPTH
    decreases Left(depth), 0, 0
  {
    if |PropertiesOf(s)| > MAX_BITS then ShAny
    else
      var props := PropShapes(PropertiesOf(s), root, depth + 1);
      var required :=
        match Field(s, "required")
        case Some(SArray(names)) => RequiredOf(props, names)
        case _ => Some({});
      if required.None? then ShAny else ShObject(props, required.value, Additional(s))
  }

  // ----- the arena

  /** Node `id` and what it refers to stand for `shape`; children come before their parents. */
  predicate Represents(nodes: Arena, id: NodeId, shape: Shape)
    decreases shape
  {
    && id < |nodes|
    && match shape
       case ShAny => nodes[id] == Any
       case ShLeaf(node) => nodes[id] == node
       case ShArray(items) => nodes[id].Array? && nodes[id].items < id && Represents(nodes, nodes[id].items, items)
       case ShObject(props, required, additional) =>
         && nodes[id].Object?
         && nodes[id].required == required && nodes[id].additional == additional
         && RepresentsProps(nodes, id, nodes[id].props, props)
  }

  predicate RepresentsProps(nodes: Arena, parent: NodeId, props: Props, shapes: seq<Prop>)
    decreases shapes
  {
    && |props| == |shapes|
    && (props != [] ==>
          var n := |props| - 1;
          && RepresentsProps(nodes, parent, props[..n], shapes[..n])
          && props[n].0 == shapes[n].name && props[n].1 < parent && Represents(nodes, props[n].1, shapes[n].shape))
  }

  lemma {:induction false} Extends(nodes: Arena, more: Arena, id: NodeId, shape: Shape)
    requires nodes <= more && Represents(nodes, id, shape)
    ensures Represents(more, id, shape)
    decreases shape
  {
    match shape
    case ShArray(items) => Extends(nodes, more, nodes[id].items, items);
    case ShObject(props, _, _) => ExtendsProps(nodes, more, id, id, nodes[id].props, props);
    case _ =>
  }

  lemma {:induction false} ExtendsProps(nodes: Arena, more: Arena, parent: NodeId, parent': NodeId, props: Props,
        shapes: seq<Prop>)
    requires nodes <= more && parent <= parent' && RepresentsProps(nodes, parent, props, shapes)
    ensures RepresentsProps(more, parent', props, shapes)
    decreases shapes
  {
    if props != [] {
      var n := |props| - 1;
      ExtendsProps(nodes, more, parent, parent', props[..n], shapes[..n]);
      Extends(nodes, more, props[n].1, shapes[n].shape);
    }
  }

  /** An id as the source stores it, in 16 bits. */
  function LastId(nodes: Arena): NodeId
    requires nodes != []
  {
    (|nodes| - 1) % ID_RANGE
  }

  predicate Fits(nodes: Arena) {
    |nodes| < ID_RANGE
  }

  lemma {:induction false} NoProps(nodes: Arena, root: Schema, depth: nat)
    ensures RepresentsProps(nodes, |nodes|, [], PropShapes([], root, depth))
  {
  }

  lemma {:induction false} OneMoreProp(nodes: Arena, props: Props, fields: seq<(Name, Schema)>, i: nat, root: Schema,
        depth: nat, node: NodeId)
    requires i < |fields| && |props| == i && node < |nodes|
    requires RepresentsProps(nodes, |nodes|, props, PropShapes(fields[..i], root, depth))
    requires Represents(nodes, node, Meaning(fields[i].1, root, depth))
    ensures RepresentsProps(nodes, |nodes|, props + [(fields[i].0, node)], PropShapes(fields[..i + 1], root, depth))
  {
    hide Represents, Meaning;
    assert fields[..i + 1][..i] == fields[..i];
    var more, shapes := props + [(fields[i].0, node)], PropShapes(fields[..i + 1], root, depth);
    assert more[..i] == props && shapes[..i] == PropShapes(fields[..i], root, depth);
  }

  class SchemaCompiler {
    var nodes: Arena

    ghost predicate Valid()
      reads this
    {
      Sound(nodes)
    }

    constructor ()
      ensures Valid() && nodes == [Any]
    {
      nodes := [Any];
    }

    method Push(node: Node) returns (id: NodeId)
      requires Valid() && NodeSound(node)
      modifies this
      ensures Valid() && nodes == old(nodes) + [node] && id == LastId(nodes)
    {
      nodes := nodes + [node];
      id := (|nodes| - 1) % ID_RANGE;
    }

    /** The texts of an enum's members, all of them scalars. */
    method LiteralsOf(values: seq<Schema>) returns (literals: Option<seq<seq<Byte>>>)
      requires forall i | 0 <= i < |values| :: SchemaOk(values[i])
      ensures literals.None? <==> exists i | 0 <= i < |values| :: !IsScalar(values[i])
      ensures literals.Some? ==>
        && |literals.value| == |values|
        && (forall i | 0 <= i < |values| :: IsScalar(values[i]) && literals.value[i] == ScalarText(values[i]))
        && (forall i | 0 <= i < |values| :: Guided.IsScalarText(literals.value[i]))
    {
      hide Guided.IsScalarText, ScalarText, SchemaOk;
      var all: seq<seq<Byte>> := [];
      for i := 0 to |values|
        invariant |all| == i
        invariant forall j | 0 <= j < i :: IsScalar(values[j]) && all[j] == ScalarText(values[j])
        invariant forall j | 0 <= j < i :: Guided.IsScalarText(all[j])
      {
        if !IsScalar(values[i]) {
          return None;
        }
        ScalarTextOk(values[i]);
        all := all + [ScalarText(values[i])];
      }
      return Some(all);
    }

    method CompileEnum(values: seq<Schema>) returns (id: NodeId)
      requires Valid() && forall i | 0 <= i < |values| :: SchemaOk(values[i])
      modifies this
      ensures Valid() && old(nodes) <= nodes
      ensures id == ANY || id == LastId(nodes)
      ensures Fits(nodes) ==> Represents(nodes, id, EnumShape(values))
    {
      hide Guided.IsScalarText, ScalarText;
      if values == [] || |values| > MAX_BITS {
        return ANY;
      }
      var literals := LiteralsOf(values);
      if literals.None? {
        return ANY;
      }
      assert literals.value == seq(|values|,
        i requires 0 <= i < |values| => if IsScalar(values[i]) then ScalarText(values[i]) else []);
      id := Push(Enum(literals.value));
    }

    /** The bit of every required name; `None` when one is not a property. */
    method RequiredBits(props: Props, names: seq<Schema>, ghost shapes: seq<Prop>) returns (bits: Option<set<nat>>)
      requires |props| == |shapes| && forall i | 0 <= i < |props| :: props[i].0 == shapes[i].name
      ensures bits == RequiredOf(shapes, names)
      ensures bits.Some? ==> forall i | i in bits.value :: i < |props|
    {
      var required := {};
      for k := 0 to |names|
        invariant RequiredOf(shapes, names[..k]) == Some(required)
        invariant forall i | i in required :: i < |props|
      {
        assert names[..k + 1][..k] == names[..k];
        if !names[k].SString? {
          NoLonger(shapes, names, k + 1);
          return None;
        }
        var i := 0;
        while i < |props| && props[i].0 != names[k].bytes
          invariant 0 <= i <= |props|
          invariant forall j | 0 <= j < i :: props[j].0 != names[k].bytes
        {
          i := i + 1;
        }
        IndexFound(shapes, names[k].bytes, i);
        if i == |props| {
          NoLonger(shapes, names, k + 1);
          return None;
        }
        required := required + {i};
      }
      assert names[..|names|] == names;
      return Some(required);
    }

    method Compile(s: Schema, root: Schema, depth: nat) returns (id: NodeId)
      requires Valid() && SchemaOk(s) && SchemaOk(root)
      modifies this
      ensures Valid() && old(nodes) <= nodes
      ensures id == ANY || id == LastId(nodes)
      ensures Fits(nodes) ==> Represents(nodes, id, Meaning(s, root, depth))
      decreases Left(depth), 2
    {
      hide HasCombinator, ReadsAsObject, ObjectMeaning, LeafShape, Ascii;
      if depth > MAX_SCHEMA_DEPTH || !s.SObject? {
        return ANY;
      }
      var ref := Text(s, "$ref");
      if ref.Some? {
        var target := RefTarget(root, ref.value);
        DefinedOk(root, "$defs", "#/$defs/", ref.value);
        DefinedOk(root, "definitions", "#/definitions/", ref.value);
        if target.Some? {
          id := Compile(target.value, root, depth + 1);
        } else {
          id := ANY;
        }
        return;
      }
      var values := EnumOf(s);
      FieldOk(s, "enum");
      if values.Some? {
        id := CompileEnum(values.value);
      } else if HasCombinator(s) {
        id := ANY;
      } else if ReadsAsObject(s) {
        id := CompileObject(s, root, depth);
      } else if Text(s, "type") == Some(Ascii("array")) {
        id := CompileArray(s, root, depth);
      } else if Text(s, "type").Some? {
        var leaf := LeafShape(Text(s, "type").value);
        LeafOk(Text(s, "type").value);
        if leaf.ShLeaf? {
          id := Push(leaf.node);
        } else {
          id := ANY;
        }
      } else {
        id := ANY;
      }
    }

    method CompileArray(s: Schema, root: Schema, depth: nat) returns (id: NodeId)
      requires Valid() && SchemaOk(s) && SchemaOk(root) && depth <= MAX_SCHEMA_DEPTH
      modifies this
      ensures Valid() && old(nodes) <= nodes
      ensures id == ANY || id == LastId(nodes)
      ensures
        var items := Field(s, "items");
        Fits(nodes) ==>
          Represents(nodes, id, ShArray(if items.Some? then Meaning(items.value, root, depth + 1) else ShAny))
      decreases Left(depth), 1
    {
      var items := Field(s, "items");
      FieldOk(s, "items");
      var child := ANY;
      if items.Some? {
        child := Compile(items.value, root, depth + 1);
      }
      ghost var before := nodes;
      id := Push(Array(child));
      if Fits(nodes) {
        Extends(before, nodes, child, if items.Some? then Meaning(items.value, root, depth + 1) else ShAny);
      }
    }

    method CompileProps(fields: seq<(Name, Schema)>, root: Schema, depth: nat) returns (props: Props)
      requires Valid() && SchemaOk(root) && forall i | 0 <= i < |fields| :: SchemaOk(fields[i].1)
      modifies this
      ensures Valid() && old(nodes) <= nodes && |props| == |fields|
      ensures forall i | 0 <= i < |fields| :: props[i].0 == fields[i].0
      ensures Fits(nodes) ==> RepresentsProps(nodes, |nodes|, props, PropShapes(fields, root, depth))
      decreases Left(depth), 3
    {
      hide Represents, RepresentsProps, PropShapes, SchemaOk, Meaning;
      props := [];
      NoProps(nodes, root, depth);
      assert fields[..0] == [];
      for i := 0 to |fields|
        invariant Valid() && old(nodes) <= nodes && |props| == i
        invariant forall j | 0 <= j < i :: props[j].0 == fields[j].0
        invariant Fits(nodes) ==> RepresentsProps(nodes, |nodes|, props, PropShapes(fields[..i], root, depth))
      {
        ghost var before := nodes;
        var node := Compile(fields[i].1, root, depth);
        if Fits(nodes) {
          ExtendsProps(before, nodes, |before|, |nodes|, props, PropShapes(fields[..i], root, depth));
          OneMoreProp(nodes, props, fields, i, root, depth, node);
        }
        props := props + [(fields[i].0, node)];
      }
      assert fields[..|fields|] == fields;
    }

    method CompileObject(s: Schema, root: Schema, depth: nat) returns (id: NodeId)
      requires Valid() && SchemaOk(s) && SchemaOk(root) && depth <= MAX_SCHEMA_DEPTH
      modifies this
      ensures Valid() && old(nodes) <= nodes
      ensures id == ANY || id == LastId(nodes)
      ensures Fits(nodes) ==> Represents(nodes, id, ObjectMeaning(s, root, depth))
      decreases Left(depth), 1
    {
      hide Represents, RepresentsProps, PropShapes, RequiredOf, SchemaOk, Field;
      var fields := PropertiesOf(s);
      PropertiesOk(s);
      AnyRepresents(nodes);
      if |fields| > MAX_BITS {
        return ANY;
      }
      var props := CompileProps(fields, root, depth + 1);
      SameNames(props, fields);
      ghost var shapes := PropShapes(fields, root, depth + 1);
      ShapeNames(fields, root, depth + 1);
      var required := Some({});
      var names := Field(s, "required");
      if names.Some? && names.value.SArray? {
        required := RequiredBits(props, names.value.elems, shapes);
      }
      if required.None? {
        AnyRepresents(nodes);
        return ANY;
      }
      id := PushObject(props, required.value, Additional(s), shapes);
    }

    method PushObject(props: Props, required: set<nat>, additional: bool, ghost shapes: seq<Prop>) returns (id: NodeId)
      requires Valid() && NodeSound(Object(props, required, additional))
      requires Fits(nodes) ==> RepresentsProps(nodes, |nodes|, props, shapes)
      modifies this
      ensures Valid() && old(nodes) <= nodes && id == LastId(nodes)
      ensures Fits(nodes) ==> Represents(nodes, id, ShObject(shapes, required, additional))
    {
      ghost var before := nodes;
      id := Push(Object(props, required, additional));
      if Fits(nodes) {
        ExtendsProps(before, nodes, |before|, id, props, shapes);
      }
    }

    /** The whole schema: the root must be the last node, so `Any` gets a copy of its own. */
    method CompileRoot(schema: Schema)
      requires Valid() && nodes == [Any] && SchemaOk(schema)
      modifies this
      ensures Valid()
      ensures Fits(nodes) ==> Represents(nodes, |nodes| - 1, Meaning(schema, schema, 0))
    {
      var root := Compile(schema, schema, 0);
      ghost var before := nodes;
      if root != LastId(nodes) {
        ghost var id := Push(Any);
        if Fits(nodes) {
          AnyIsAny(before, nodes, Meaning(schema, schema, 0));
        }
      }
    }
  }

  lemma {:induction false} AnyRepresents(nodes: Arena)
    requires nodes != [] && nodes[0] == Any
    ensures Represents(nodes, ANY, ShAny)
  {
  }

  lemma {:induction false} PropertiesOk(s: Schema)
    requires SchemaOk(s)
    ensures forall i | 0 <= i < |PropertiesOf(s)| :: SchemaOk(PropertiesOf(s)[i].1)
    ensures forall i, j | 0 <= i < j < |PropertiesOf(s)| :: PropertiesOf(s)[i].0 != PropertiesOf(s)[j].0
  {
    FieldOk(s, "properties");
  }

  lemma {:induction false} SameNames(props: Props, fields: seq<(Name, Schema)>)
    requires |props| == |fields| && forall i | 0 <= i < |fields| :: props[i].0 == fields[i].0
    requires forall i, j | 0 <= i < j < |fields| :: fields[i].0 != fields[j].0
    ensures DistinctNames(props)
  {
  }

  /** Only `Any` is shared: what node 0 stands for, any other `Any` node stands for. */
  lemma {:induction false} AnyIsAny(before: Arena, nodes: Arena, shape: Shape)
    requires before != [] && before[0] == Any && nodes == before + [Any] && Represents(before, ANY, shape)
    ensures Represents(nodes, |nodes| - 1, shape)
  {
  }

  lemma {:induction false} ScalarTextOk(s: Schema)
    requires SchemaOk(s) && IsScalar(s)
    ensures Guided.IsScalarText(ScalarText(s))
  {
    match s
    case SNull => assert Valid(JLit(2));
    case SBool(b) => assert Valid(JLit(if b then 0 else 1));
    case SNumber(num) => assert Valid(JNum(num));
    case SString(_, text) => assert Valid(JStr(text));
  }

  /** What compiling leaves is what guidance expects. */
  lemma {:induction false} CompiledIsWellFormed(arena: Arena)
    requires Sound(arena)
    ensures Guided.WellFormed(arena, |arena| - 1)
  {
  }

  /** Names and literals that can be written: see `NeverStuck.Speakable`. */
  ghost predicate Writable(arena: Arena, mode: Automaton.Mode)
    requires arena != []
  {
    && (forall i | 0 <= i < |arena| && arena[i].Object? ::
          forall k | 0 <= k < |arena[i].props| :: NeverStuck.PlainName(arena[i].props[k].0))
    && (forall i | 0 <= i < |arena| && arena[i].Enum? ::
          forall k | 0 <= k < |arena[i].literals| :: RunsWithin(arena[i].literals[k], MAX_RUN))
    && (mode.ObjectMode? ==> arena[|arena| - 1].Object? || arena[|arena| - 1].Any?)
  }

  /** A compiled schema's guidance never gets stuck, given names and literals that can be written. */
  lemma {:induction false} CompiledIsSpeakable(arena: Arena, mode: Automaton.Mode)
    requires Sound(arena) && Writable(arena, mode)
    ensures NeverStuck.Speakable(arena, |arena| - 1, mode)
  {
  }

  lemma {:induction false} ShapeNames(fields: seq<(Name, Schema)>, root: Schema, depth: nat)
    ensures forall i | 0 <= i < |fields| :: PropShapes(fields, root, depth)[i].name == fields[i].0
    decreases |fields|
  {
    if fields != [] {
      ShapeNames(fields[..|fields| - 1], root, depth);
    }
  }

  lemma {:induction false} NoLonger(shapes: seq<Prop>, names: seq<Schema>, k: nat)
    requires k <= |names| && RequiredOf(shapes, names[..k]).None?
    ensures RequiredOf(shapes, names).None?
    decreases |names| - k
  {
    if k == |names| {
      assert names[..k] == names;
    } else {
      assert names[..k + 1][..k] == names[..k];
      NoLonger(shapes, names, k + 1);
    }
  }

  lemma {:induction false} IndexFound(props: seq<Prop>, name: Name, i: nat)
    requires i <= |props| && forall j | 0 <= j < i :: props[j].name != name
    requires i < |props| ==> props[i].name == name
    ensures FirstIndex(props, name) == if i < |props| then Some(i) else None
    decreases |props|
  {
    if props != [] && i > 0 {
      assert forall j | 0 <= j < i - 1 :: props[1..][j] == props[j + 1];
      IndexFound(props[1..], name, i - 1);
    }
  }
}
