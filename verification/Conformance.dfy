/**
 What a document must satisfy under a compiled schema, as far as guidance follows it: types, integer
 form, enum members, array items, object keys and required properties down to `GUIDED_DEPTH`
 containers (JSON Schema Validation 2020-12, sections 6.1.1, 6.1.2 and 6.5.3).
 */
module Conformance {
  import opened Wrappers
  import opened JsonBytes
  import opened JsonGrammar
  import opened Guide

  type Props = seq<(seq<Byte>, NodeId)>

  /** The first property of this name that the object has not had yet. */
  function KeyProp(props: Props, emitted: set<nat>, name: seq<Byte>, from: nat := 0): (i: Option<nat>)
    ensures i.Some? ==> from <= i.value < |props| && i.value !in emitted && props[i.value].0 == name
    ensures i.None? ==> forall j | from <= j < |props| :: j in emitted || props[j].0 != name
    decreases |props| - from
  {
    if from >= |props| then None
    else if from !in emitted && props[from].0 == name then Some(from)
    else KeyProp(props, emitted, name, from + 1)
  }

  function AsSet(i: Option<nat>): set<nat> {
    if i.Some? then {i.value} else {}
  }

  /** The properties these members name. */
  function Emitted(props: Props, members: Members): set<nat> {
    match members
    case NoMembers => {}
    case MoreMembers(init, _, key, _, _, _, _) =>
      Emitted(props, init) + AsSet(KeyProp(props, Emitted(props, init), key.Render()))
  }

  predicate Integral(num: JsonGrammar.Number) {
    num.frac == [] && num.exp == []
  }

  /** `depth` containers surround `v`. A member naming a property for the first time must have a conforming value; any
      other member needs `additional`. */
  predicate Conforms(arena: Arena, id: NodeId, depth: nat, v: Json)
    decreases v, 0
  {
    match NodeAt(arena, id)
    case Any => true
    case Object(props, required, additional) =>
      v.JObj? && (depth < GUIDED_DEPTH ==>
        MembersConform(arena, props, additional, depth + 1, v.members) && required <= Emitted(props, v.members))
    case Array(items) => v.JArr? && (depth < GUIDED_DEPTH ==> ItemsConform(arena, items, depth + 1, v.items))
    case Str => v.JStr?
    case Number(integer) => v.JNum? && (integer ==> Integral(v.num))
    case Boolean => v.JLit? && v.lit < 2
    case Null => v.JLit? && v.lit == 2
    case Enum(literals) => (v.JLit? || v.JNum? || v.JStr?) && Render(v) in literals
  }

  predicate ItemsConform(arena: Arena, id: NodeId, depth: nat, items: Items)
    decreases items, 1
  {
    match items
    case NoItems => true
    case MoreItems(init, _, v, _) => ItemsConform(arena, id, depth, init) && Conforms(arena, id, depth, v)
  }

  predicate MembersConform(arena: Arena, props: Props, additional: bool, depth: nat, members: Members)
    decreases members, 1
  {
    match members
    case NoMembers => true
    case MoreMembers(init, _, key, _, _, v, _) =>
      && MembersConform(arena, props, additional, depth, init)
      && var i := KeyProp(props, Emitted(props, init), key.Render());
         if i.Some? then Conforms(arena, props[i.value].1, depth, v) else additional
  }

  // ----- what `MembersConform` means for a closed object

  predicate HasKey(members: Members, name: seq<Byte>) {
    members.MoreMembers? && (members.key.Render() == name || HasKey(members.init, name))
  }

  predicate DistinctKeys(members: Members) {
    members.NoMembers? || (DistinctKeys(members.init) && !HasKey(members.init, members.key.Render()))
  }

  predicate DistinctNames(props: Props) {
    forall i, j | 0 <= i < j < |props| :: props[i].0 != props[j].0
  }

  lemma {:induction false} EmittedAreKeys(props: Props, members: Members, i: nat)
    requires DistinctNames(props) && i < |props|
    ensures i in Emitted(props, members) <==> HasKey(members, props[i].0)
    decreases members
  {
    if members.MoreMembers? {
      EmittedAreKeys(props, members.init, i);
      var hit := KeyProp(props, Emitted(props, members.init), members.key.Render());
      if members.key.Render() == props[i].0 && i !in Emitted(props, members.init) {
        assert hit.Some? && hit.value == i;
      }
    }
  }

  /** With `additionalProperties: false` the keys are distinct and all are properties. */
  lemma {:induction false} ClosedObjectKeys(arena: Arena, props: Props, depth: nat, members: Members)
    requires DistinctNames(props) && MembersConform(arena, props, false, depth, members)
    ensures DistinctKeys(members)
    ensures forall name | HasKey(members, name) :: exists i | 0 <= i < |props| :: props[i].0 == name
    decreases members
  {
    if members.MoreMembers? {
      ClosedObjectKeys(arena, props, depth, members.init);
      var i := KeyProp(props, Emitted(props, members.init), members.key.Render()).value;
      EmittedAreKeys(props, members.init, i);
      assert props[i].0 == members.key.Render();
    }
  }

  /** Every required property of a conforming object is among its keys. */
  lemma {:induction false} RequiredArePresent(arena: Arena, id: NodeId, depth: nat, v: Json, i: nat)
    requires NodeAt(arena, id).Object? && DistinctNames(NodeAt(arena, id).props)
    requires depth < GUIDED_DEPTH && Conforms(arena, id, depth, v)
    requires i in NodeAt(arena, id).required && i < |NodeAt(arena, id).props|
    ensures HasKey(v.members, NodeAt(arena, id).props[i].0)
  {
    EmittedAreKeys(NodeAt(arena, id).props, v.members, i);
  }
}
