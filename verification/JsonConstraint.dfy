/**
 The per-sequence constraint (src/constrain.rs:1111-1209): the token mask probes copies of the
 automaton and the guide, `Advance` commits one token.
 */
module JsonConstraint {
  import opened Wrappers
  import opened Sequences
  import opened JsonBytes
  import opened Automaton
  import opened Guide
  import Guided
  import GuidedSteps
  import NeverStuck
  import OnlySpaces

  /** Token bytes by id, `None` for tokens that must never appear, and the stop ids. */
  datatype ByteTable = ByteTable(bytes: seq<Option<seq<Byte>>>, stopIds: seq<nat>) {
    predicate Has(id: nat) {
      id < |bytes| && bytes[id].Some?
    }
  }

  datatype Spec = Spec(table: ByteTable, arena: Arena, root: NodeId, mode: Mode)

  /** The walker over a text that starts anywhere. */
  function WalkOn(spec: Spec, w: Walker, s: seq<Byte>): Option<Walker> {
    Walk(spec.arena, spec.root, spec.mode, w, s)
  }

  predicate TokenFits(spec: Spec, w: Walker, id: nat) {
    spec.table.Has(id) && spec.table.bytes[id].value != [] && WalkOn(spec, w, spec.table.bytes[id].value).Some?
  }

  /** What the mask promises of one id. */
  predicate MaskAllows(spec: Spec, w: Walker, id: nat) {
    TokenFits(spec, w, id) || (w.m.Accepting() && id in spec.table.stopIds)
  }

  function Advanced(spec: Spec, w: Walker, token: nat): Walker {
    if token in spec.table.stopIds || !spec.table.Has(token) then w
    else
      var next := WalkOn(spec, w, spec.table.bytes[token].value);
      if next.Some? then next.value else w
  }

  lemma {:induction false} WalkAppend(spec: Spec, w: Walker, s: seq<Byte>, t: seq<Byte>)
    ensures WalkOn(spec, w, s + t) ==
      if WalkOn(spec, w, s).None? then None else WalkOn(spec, WalkOn(spec, w, s).value, t)
    decreases |t|
  {
    hide WalkByte;
    if t == [] {
      Nil(s);
    } else {
      assert (s + t)[..|s + t| - 1] == s + t[..|t| - 1];
      WalkAppend(spec, w, s, t[..|t| - 1]);
    }
  }

  class JsonConstraint {
    const spec: Spec
    var machine: JsonMachine
    var guide: GuideState

    ghost predicate Valid()
      reads this, machine, guide
    {
      machine.Valid() && guide.Valid() && guide.KeyInside()
    }

    ghost function View(): Walker
      requires Valid()
      reads this, machine, guide, guide.levels
    {
      Walker(machine.View(), guide.View())
    }

    constructor (table: ByteTable, mode: Mode, arena: Arena, root: NodeId)
      ensures Valid() && spec == Spec(table, arena, root, mode) && View() == InitialWalker()
    {
      spec := Spec(table, arena, root, mode);
      machine := new JsonMachine();
      guide := new GuideState();
    }

    method WalkBytes(m: JsonMachine, g: GuideState, bytes: seq<Byte>) returns (ok: bool)
      requires m.Valid() && g.Valid() && g.KeyInside()
      modifies m, g, g.levels
      ensures m.Valid() && g.Valid() && (ok ==> g.KeyInside())
      ensures ok == WalkOn(spec, old(Walker(m.View(), g.View())), bytes).Some?
      ensures ok ==> WalkOn(spec, old(Walker(m.View(), g.View())), bytes) == Some(Walker(m.View(), g.View()))
    {
      ghost var start := Walker(m.View(), g.View());
      for i := 0 to |bytes|
        invariant m.Valid() && g.Valid() && g.KeyInside()
        invariant WalkOn(spec, start, bytes[..i]) == Some(Walker(m.View(), g.View()))
      {
        ghost var w := Walker(m.View(), g.View());
        PrefixStep(start, bytes, i);
        var wasNum := m.InNumber();
        ghost var before := m.state;
        var ev := m.StepEvents(bytes[i], spec.mode);
        if ev.None? {
          return false;
        }
        var fits := g.Follow(spec.arena, spec.root, bytes[i], ev.value, wasNum);
        if !fits {
          return false;
        }
        assert WalkByte(spec.arena, spec.root, spec.mode, w, bytes[i]) == Some(Walker(m.View(), g.View()));
      }
      assert bytes[..|bytes|] == bytes;
      return true;
    }

    /** One byte further into `bytes`; what fails in the middle fails as a whole. */
    lemma {:induction false} PrefixStep(start: Walker, bytes: seq<Byte>, i: nat)
      requires i < |bytes| && WalkOn(spec, start, bytes[..i]).Some?
      ensures
        var next := WalkByte(spec.arena, spec.root, spec.mode, WalkOn(spec, start, bytes[..i]).value, bytes[i]);
        && WalkOn(spec, start, bytes[..i + 1]) == next
        && (next.None? ==> WalkOn(spec, start, bytes).None?)
    {
      hide WalkByte;
      assert bytes[..i + 1][..i] == bytes[..i];
      assert bytes == bytes[..i + 1] + bytes[i + 1..];
      WalkAppend(spec, start, bytes[..i + 1], bytes[i + 1..]);
    }

    method Probe(id: nat) returns (fits: bool)
      requires Valid()
      ensures fits == TokenFits(spec, View(), id)
    {
      if id >= |spec.table.bytes| || spec.table.bytes[id].None? || spec.table.bytes[id].value == [] {
        return false;
      }
      var m := new JsonMachine.Copy(machine);
      var g := new GuideState.Copy(guide);
      fits := WalkBytes(m, g, spec.table.bytes[id].value);
    }

    method Allowed(vocabSize: nat) returns (allowed: seq<bool>)
      requires Valid()
      ensures |allowed| == vocabSize
      ensures forall id | 0 <= id < vocabSize :: allowed[id] == MaskAllows(spec, View(), id)
    {
      hide WalkOn, View;
      var accepting := machine.Accepting();
      assert accepting == View().m.Accepting() by {
        AcceptingView();
      }
      var mask := new bool[vocabSize](_ => false);
      var n := if |spec.table.bytes| < vocabSize then |spec.table.bytes| else vocabSize;
      for id := 0 to n
        invariant forall k | 0 <= k < vocabSize :: mask[k] == (k < id && TokenFits(spec, View(), k))
      {
        var fits := Probe(id);
        if fits {
          mask[id] := true;
        }
      }
      if accepting {
        for k := 0 to |spec.table.stopIds|
          invariant forall i | 0 <= i < vocabSize ::
            mask[i] == (TokenFits(spec, View(), i) || i in spec.table.stopIds[..k])
        {
          var stop := spec.table.stopIds[k];
          if stop < vocabSize {
            mask[stop] := true;
          }
        }
        assert spec.table.stopIds[..|spec.table.stopIds|] == spec.table.stopIds;
      }
      allowed := mask[..];
    }

    lemma {:induction false} AcceptingView()
      requires Valid()
      ensures View().m == machine.View()
    {
    }

    method Advance(token: nat)
      requires Valid()
      modifies this
      ensures Valid() && View() == Advanced(spec, old(View()), token)
    {
      if token in spec.table.stopIds || !spec.table.Has(token) {
        return;
      }
      var m := new JsonMachine.Copy(machine);
      var g := new GuideState.Copy(guide);
      var ok := WalkBytes(m, g, spec.table.bytes[token].value);
      if ok {
        machine, guide := m, g;
      }
    }
  }

  // ----- whole generations

  /** Ids above the byte table have no bytes; the vocabulary covers the table. */
  function Bytes(spec: Spec, token: nat): seq<Byte> {
    if spec.table.Has(token) then spec.table.bytes[token].value else []
  }

  function TextOf(spec: Spec, tokens: seq<nat>): seq<Byte> {
    if tokens == [] then [] else TextOf(spec, tokens[..|tokens| - 1]) + Bytes(spec, tokens[|tokens| - 1])
  }

  function After(spec: Spec, tokens: seq<nat>): Walker {
    if tokens == [] then InitialWalker() else Advanced(spec, After(spec, tokens[..|tokens| - 1]), tokens[|tokens| - 1])
  }

  /** Every token was allowed by the mask when it was drawn, and none was a stop. */
  predicate Generated(spec: Spec, tokens: seq<nat>) {
    tokens == [] || (
      var init, last := tokens[..|tokens| - 1], tokens[|tokens| - 1];
      Generated(spec, init) && MaskAllows(spec, After(spec, init), last) && last !in spec.table.stopIds)
  }

  /** The state after a generation is the state after its text. */
  lemma {:induction false} GeneratedIsWalked(spec: Spec, tokens: seq<nat>)
    requires Generated(spec, tokens)
    ensures WalkOn(spec, InitialWalker(), TextOf(spec, tokens)) == Some(After(spec, tokens))
  {
    if tokens != [] {
      var init, last := tokens[..|tokens| - 1], tokens[|tokens| - 1];
      GeneratedIsWalked(spec, init);
      WalkAppend(spec, InitialWalker(), TextOf(spec, init), Bytes(spec, last));
    }
  }

  /** When the mask offers a stop, what was generated is a conforming document; a number standing alone under an enum is
      the one exception. */
  lemma {:induction false} StoppedTextConforms(spec: Spec, tokens: seq<nat>, stop: nat)
    requires Guided.WellFormed(spec.arena, spec.root)
    requires Generated(spec, tokens)
    requires stop in spec.table.stopIds && Bytes(spec, stop) == [] && MaskAllows(spec, After(spec, tokens), stop)
    ensures
      var s := TextOf(spec, tokens);
      || GuidedSteps.IsConformingText(spec.arena, spec.root, spec.mode, s)
      || (spec.mode.ValueMode? && GuidedSteps.UnsettledNumber(spec.arena, spec.root, s))
  {
    var s := TextOf(spec, tokens);
    GeneratedIsWalked(spec, tokens);
    GuidedSteps.GuidedTextsConform(spec.arena, spec.root, spec.mode, s);
    if spec.mode.ObjectMode? {
      GuidedSteps.GuidedObjectsConform(spec.arena, spec.root, s);
    }
  }

  /** A table with every single byte. */
  predicate HasAllBytes(table: ByteTable) {
    forall b: Byte :: HasByte(table, b)
  }

  predicate HasByte(table: ByteTable, b: Byte) {
    exists id | 0 <= id < |table.bytes| :: table.bytes[id] == Some([b])
  }

  /** The mask offers this stop, or this token, which begins with no whitespace. */
  predicate OffersMore(spec: Spec, w: Walker, id: nat) {
    || (w.m.Accepting() && id in spec.table.stopIds)
    || (TokenFits(spec, w, id) && !IsWs(Bytes(spec, id)[0]))
  }

  /** Theorem: the mask is never empty; it offers a stop or a token that begins with no whitespace, except exactly where
      every live enum literal or property name has a space next. */
  lemma {:induction false} MaskNeverEmpty(spec: Spec, tokens: seq<nat>)
    requires NeverStuck.Speakable(spec.arena, spec.root, spec.mode)
    requires HasAllBytes(spec.table) && spec.table.stopIds != []
    requires Generated(spec, tokens)
    ensures
      var w := After(spec, tokens);
      && (exists id :: MaskAllows(spec, w, id))
      && ((exists id :: OffersMore(spec, w, id)) <==> !OnlySpaces.OnlySpaceLeft(spec.arena, w))
  {
    hide Walk, WalkByte, NeverStuck.Speakable, Generated, MaskAllows, OffersMore, OnlySpaces.OnlySpaceLeft;
    var w := After(spec, tokens);
    GeneratedIsWalked(spec, tokens);
    OnlySpaces.OtherByteIff(spec.arena, spec.root, spec.mode, TextOf(spec, tokens));
    if OnlySpaces.OnlySpaceLeft(spec.arena, w) {
      ByteFits(spec, w, SPACE);
      forall id
        ensures !OffersMore(spec, w, id)
      {
        OnlySpacesOffered(spec, w, id);
      }
    } else if w.m.Accepting() {
      StopFits(spec, w, spec.table.stopIds[0]);
    } else {
      var b: Byte :| WalkByte(spec.arena, spec.root, spec.mode, w, b).Some? && !IsWs(b);
      ByteFits(spec, w, b);
    }
  }

  /** A byte that goes on is a token that fits. */
  lemma {:induction false} ByteFits(spec: Spec, w: Walker, b: Byte)
    requires HasAllBytes(spec.table) && WalkByte(spec.arena, spec.root, spec.mode, w, b).Some?
    ensures exists id :: MaskAllows(spec, w, id) && (!IsWs(b) ==> OffersMore(spec, w, id))
  {
    hide WalkByte;
    assert HasByte(spec.table, b);
    var id :| 0 <= id < |spec.table.bytes| && spec.table.bytes[id] == Some([b]);
    SingleByteFits(spec, w, id, b);
  }

  /** Where only a space goes on, every token that fits begins with one. */
  lemma {:induction false} OnlySpacesOffered(spec: Spec, w: Walker, id: nat)
    requires OnlySpaces.OnlySpaceLeft(spec.arena, w)
    ensures !OffersMore(spec, w, id)
  {
    hide WalkByte, OnlySpaces.OnlySpaceLeft;
    OnlySpaces.LeftInString(spec.arena, w);
    if TokenFits(spec, w, id) {
      var s := Bytes(spec, id);
      assert s == [s[0]] + s[1..];
      WalkAppend(spec, w, [s[0]], s[1..]);
      assert WalkOn(spec, w, []) == Some(w) && [s[0]][..0] == [];
      OnlySpaces.SpacesOnly(spec.arena, spec.root, spec.mode, w, s[0]);
    }
  }

  lemma {:induction false} StopFits(spec: Spec, w: Walker, stop: nat)
    requires w.m.Accepting() && stop in spec.table.stopIds
    ensures MaskAllows(spec, w, stop) && OffersMore(spec, w, stop)
  {
  }

  lemma {:induction false} SingleByteFits(spec: Spec, w: Walker, id: nat, b: Byte)
    requires id < |spec.table.bytes| && spec.table.bytes[id] == Some([b])
    requires WalkByte(spec.arena, spec.root, spec.mode, w, b).Some?
    ensures MaskAllows(spec, w, id) && (!IsWs(b) ==> OffersMore(spec, w, id))
  {
    var s := spec.table.bytes[id].value;
    assert s == [b] && s[..0] == [] && s[0] == b;
    assert WalkOn(spec, w, []) == Some(w);
    assert WalkOn(spec, w, s) == WalkByte(spec.arena, spec.root, spec.mode, w, b);
  }
}
