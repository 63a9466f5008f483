/**
 Which schemas let a text through that does not conform: a number at the top is accepting before the
 enum it should belong to has been settled (src/constrain.rs:150, 940-962).
 */
module OpenEnums {
  import opened Wrappers
  import opened JsonBytes
  import opened Automaton
  import opened JsonGrammar
  import opened JsonTree
  import JsonComplete
  import opened Guide
  import opened Conformance
  import opened Guided
  import opened GuidedSteps

  /** Section 6 of RFC 8259. */
  ghost predicate IsNumberText(s: seq<Byte>) {
    exists num: JsonGrammar.Number :: num.Valid() && num.Render() == s
  }

  /** Some literal starts with a number that is no literal itself, as `12` starts with `1`. */
  ghost predicate OpenEnum(literals: seq<seq<Byte>>) {
    exists i, n | 0 <= i < |literals| && 0 <= n <= |literals[i]| ::
      IsNumberText(literals[i][..n]) && literals[i][..n] !in literals
  }

  ghost predicate OpenRoot(arena: Arena, root: NodeId) {
    NodeAt(arena, root).Enum? && OpenEnum(NodeAt(arena, root).literals)
  }

  /** A byte that is no whitespace, bracket, brace, quote or letter ends nothing at the top. */
  lemma {:induction false} DigitEndsNothing(m: Machine, b: Byte, mode: Mode)
    requires IsDigit(b) && Step(m, b, mode).Some?
    ensures !Step(m, b, mode).value.state.Done?
  {
  }

  lemma {:induction false} NumberEndsInDigit(num: JsonGrammar.Number)
    requires num.Valid()
    ensures num.Render() != [] && IsDigit(num.Render()[|num.Render()| - 1])
  {
    var s, n := num.Render(), |num.Render()|;
    if num.exp != [] {
      assert s[n - 1] == num.exp[|num.exp| - 1];
    } else if num.frac != [] {
      assert s[n - 1] == num.frac[|num.frac| - 1];
      assert num.frac[1..][|num.frac| - 2] == num.frac[|num.frac| - 1];
    } else {
      assert s[n - 1] == num.whole[|num.whole| - 1];
    }
  }

  /** A number alone is accepted and leaves the tree open at it. */
  lemma {:induction false} NumberStaysOpen(num: JsonGrammar.Number)
    requires num.Valid()
    ensures Accepts(num.Render(), ValueMode) && Tree(num.Render()) == PNum(Top([]), num)
  {
    hide Step, Advance, Abs, JsonGrammar.Number.Valid, JsonGrammar.Number.Render;
    var s := num.Render();
    var d := Document([], JNum(num), []);
    assert RenderDocument(d) == s by {
      assert [] + s + [] == s;
    }
    NumberDocument(num);
    JsonComplete.BoundedTextsAreAccepted(d, ValueMode);
    NumberEndsInDigit(num);
    RunBuildsTree(s, ValueMode);
    var init, b := s[..|s| - 1], s[|s| - 1];
    RunBuildsTree(init, ValueMode);
    DigitEndsNothing(Abs(Tree(init)), b, ValueMode);
    DoneIsDone(Tree(s));
  }

  lemma {:induction false} NumberDocument(num: JsonGrammar.Number)
    requires num.Valid()
    ensures ValidDocument(Document([], JNum(num), [])) && BoundedDocument(Document([], JNum(num), []))
  {
  }

  lemma {:induction false} DoneIsDone(p: Partial)
    ensures p.PDone? ==> Abs(p).state.Done?
  {
  }

  /** An open enum at the root lets the number through. */
  lemma {:induction false} OpenNumberIsAccepted(arena: Arena, root: NodeId, num: JsonGrammar.Number, i: nat)
    requires WellFormed(arena, root) && NodeAt(arena, root).Enum? && num.Valid()
    requires i < |NodeAt(arena, root).literals| && num.Render() <= NodeAt(arena, root).literals[i]
    requires num.Render() !in NodeAt(arena, root).literals
    ensures GuidedAccepts(arena, root, ValueMode, num.Render())
    ensures !IsConformingText(arena, root, ValueMode, num.Render())
  {
    hide WellFormed, IsConformingText, GuidedAccepts, Accepts, JsonGrammar.Number.Valid, JsonGrammar.Number.Render;
    NumberStaysOpen(num);
    NumberEndsInDigit(num);
    GuidedIsViable(arena, root, ValueMode, num.Render());
    GuidedTextsConform(arena, root, ValueMode, num.Render());
  }

  /** What escapes is such a number. */
  lemma {:induction false} EscapeIsOpen(arena: Arena, root: NodeId, s: seq<Byte>)
    requires WellFormed(arena, root) && GuidedAccepts(arena, root, ValueMode, s)
    requires !IsConformingText(arena, root, ValueMode, s)
    ensures OpenRoot(arena, root)
  {
    hide WellFormed, IsConformingText, GuidedAccepts, Accepts, JsonGrammar.Number.Valid, JsonGrammar.Number.Render, Run;
    GuidedIsViable(arena, root, ValueMode, s);
    GuidedTextsConform(arena, root, ValueMode, s);
    AcceptedTextsAreBounded(s, ValueMode);
    var num, literals := Tree(s).num, NodeAt(arena, root).literals;
    ValidNumber(DocumentOf(Tree(s)));
    var i :| 0 <= i < |literals| && num.Render() <= literals[i];
    assert literals[i][..|num.Render()|] == num.Render();
  }

  /** Theorem: every text let through conforms exactly when the root is no enum with a literal that starts with a number
      which is not itself a literal. */
  lemma {:induction false} EveryTextConformsIff(arena: Arena, root: NodeId)
    requires WellFormed(arena, root)
    ensures (forall s | GuidedAccepts(arena, root, ValueMode, s) :: IsConformingText(arena, root, ValueMode, s))
      <==> !OpenRoot(arena, root)
  {
    hide WellFormed, IsConformingText, GuidedAccepts, JsonGrammar.Number.Valid, JsonGrammar.Number.Render;
    if OpenRoot(arena, root) {
      var literals := NodeAt(arena, root).literals;
      var i, n :| 0 <= i < |literals| && 0 <= n <= |literals[i]|
        && IsNumberText(literals[i][..n]) && literals[i][..n] !in literals;
      var num: JsonGrammar.Number :| num.Valid() && num.Render() == literals[i][..n];
      OpenNumberIsAccepted(arena, root, num, i);
    } else {
      forall s | GuidedAccepts(arena, root, ValueMode, s)
        ensures IsConformingText(arena, root, ValueMode, s)
      {
        if !IsConformingText(arena, root, ValueMode, s) {
          EscapeIsOpen(arena, root, s);
        }
      }
    }
  }
}
