/**
 The automaton's language in characters (src/constrain.rs:108-126): nothing here depends on how `JsonBytes` names
 bytes, spells literals or sets limits.
 */
module JsonCharacters {
  import opened Wrappers
  import opened JsonBytes
  import opened Automaton
  import opened JsonGrammar
  import opened JsonTree
  import opened JsonComplete

  /** `s` is the text `t`, an octet a character. */
  predicate Spells(s: seq<Byte>, t: string) {
    |s| == |t| && forall i | 0 <= i < |s| :: s[i] == t[i] as int
  }

  predicate OneOf(b: Byte, t: string) {
    exists i | 0 <= i < |t| :: b == t[i] as int
  }

  // ----- bytes

  lemma {:induction false} ClassesByCharacter(b: Byte)
    ensures IsWs(b) <==> OneOf(b, " \t\n\r")
    ensures IsDigit(b) <==> OneOf(b, "0123456789")
    ensures IsHex(b) <==> OneOf(b, "0123456789abcdefABCDEF")
    ensures IsExponentMark(b) <==> OneOf(b, "eE")
    ensures IsSimpleEscape(b) <==> OneOf(b, "\"\\/bfnrt")
  {
    OneOfFour(b, " \t\n\r");
    DigitByCharacter(b);
    HexByCharacter(b);
    EscapeByCharacter(b);
    var marks := "eE";
    assert marks[0] == 'e' && marks[1] == 'E';
  }

  lemma {:induction false} OneOfFour(b: Byte, t: string)
    requires |t| == 4
    ensures OneOf(b, t) <==> b == t[0] as int || b == t[1] as int || b == t[2] as int || b == t[3] as int
  {
  }

  lemma {:induction false} DigitByCharacter(b: Byte)
    ensures IsDigit(b) <==> OneOf(b, "0123456789")
  {
    var t := "0123456789";
    assert forall i | 0 <= i < 10 :: t[i] as int == '0' as int + i;
    if IsDigit(b) {
      assert b == t[b - '0' as int] as int;
    }
  }

  lemma {:induction false} HexByCharacter(b: Byte)
    ensures IsHex(b) <==> OneOf(b, "0123456789abcdefABCDEF")
  {
    var t := "0123456789abcdefABCDEF";
    assert forall i | 0 <= i < 10 :: t[i] as int == '0' as int + i;
    assert forall i | 10 <= i < 16 :: t[i] as int == 'a' as int + (i - 10);
    assert forall i | 16 <= i < 22 :: t[i] as int == 'A' as int + (i - 16);
    if IsHex(b) {
      var i :=
        if b <= '9' as int then b - '0' as int
        else if b <= 'F' as int then b - 'A' as int + 16
        else b - 'a' as int + 10;
      assert b == t[i] as int;
    }
  }

  lemma {:induction false} EscapeByCharacter(b: Byte)
    ensures IsSimpleEscape(b) <==> OneOf(b, "\"\\/bfnrt")
  {
    var t := "\"\\/bfnrt";
    assert |t| == 8 && t[0] == '"' && t[1] == '\\' && t[2] == '/' && t[3] == 'b';
    assert t[4] == 'f' && t[5] == 'n' && t[6] == 'r' && t[7] == 't';
  }

  /** The bytes that structure a text. */
  lemma {:induction false} PunctuationByCharacter()
    ensures Spells([LBRACE, RBRACE, LBRACKET, RBRACKET, COLON, COMMA, QUOTE, BACKSLASH], "{}[]:,\"\\")
    ensures Spells([MINUS, PLUS, DOT, ZERO, LOWER_U, SPACE], "-+.0u ")
  {
  }

  // ----- literals

  predicate IsWord(s: seq<Byte>) {
    Spells(s, "true") || Spells(s, "false") || Spells(s, "null")
  }

  /** It begins with a lower-case letter and has no whitespace. */
  predicate Wordlike(s: seq<Byte>) {
    s != [] && 'a' as int <= s[0] <= 'z' as int && forall i | 0 <= i < |s| :: !OneOf(s[i], " \t\n\r")
  }

  lemma {:induction false} LiteralIsAWord(lit: nat)
    requires lit < 3
    ensures IsWord(Literal(lit))
    ensures Spells(Literal(lit), "true") <==> lit == 0
    ensures Spells(Literal(lit), "false") <==> lit == 1
    ensures Spells(Literal(lit), "null") <==> lit == 2
  {
    assert "true"[0] == 't' && "false"[0] == 'f' && "null"[0] == 'n';
    assert Literal(lit)[0] == if lit == 0 then 't' as int else if lit == 1 then 'f' as int else 'n' as int;
  }

  /** Theorem: in value mode the accepted texts that begin with a lower-case letter and have no whitespace are exactly
      `true`, `false` and `null`. */
  lemma {:induction false} WordsAreTheLiterals(s: seq<Byte>)
    requires Wordlike(s)
    ensures Accepts(s, ValueMode) <==> IsWord(s)
  {
    hide Accepts, Literal, ValidDocument, BoundedDocument, RenderDocument, OneOf, Valid, Render;
    AcceptsExactlyTheBoundedTexts(s, ValueMode);
    if Accepts(s, ValueMode) {
      var d: Document :| ValidDocument(d) && BoundedDocument(d) && RenderDocument(d) == s;
      WordDocument(s, d);
    }
    if IsWord(s) {
      var lit := if Spells(s, "true") then 0 else if Spells(s, "false") then 1 else 2;
      LiteralDocument(s, lit);
    }
  }

  /** The only documents that begin so are the literals. */
  lemma {:induction false} WordDocument(s: seq<Byte>, d: Document)
    requires Wordlike(s) && ValidDocument(d) && RenderDocument(d) == s
    ensures IsWord(s)
  {
    hide Literal, OneOf, IsWs, IsDigit, Valid, Render;
    forall i | 0 <= i < |s|
      ensures !IsWs(s[i])
    {
      ClassesByCharacter(s[i]);
    }
    OuterWhitespace(d);
    assert d.pre == [] && d.post == [];
    assert s == Render(d.v);
    BeginsLower(d.v);
    LiteralIsAWord(d.v.lit);
  }

  lemma {:induction false} OuterWhitespace(d: Document)
    requires AllWs(d.pre) && AllWs(d.post)
    ensures d.pre != [] ==> RenderDocument(d) != [] && IsWs(RenderDocument(d)[0])
    ensures d.post != [] ==> RenderDocument(d) != [] && IsWs(RenderDocument(d)[|RenderDocument(d)| - 1])
  {
    hide Render, IsWs;
    var s := RenderDocument(d);
    assert d.pre != [] ==> s[0] == d.pre[0];
    assert d.post != [] ==> s[|s| - 1] == d.post[|d.post| - 1];
  }

  lemma {:induction false} BeginsLower(v: Json)
    requires Valid(v) && Render(v) != [] && 'a' as int <= Render(v)[0] <= 'z' as int
    ensures v.JLit? && v.lit < 3 && Render(v) == Literal(v.lit)
  {
    hide Literal;
    PunctuationByCharacter();
    if v.JNum? {
      NumberBegins(v.num);
      assert false;
    }
  }

  lemma {:induction false} NumberBegins(num: Number)
    requires num.Valid()
    ensures num.Render() != [] && num.Render()[0] < 'a' as int
  {
    var s := num.Render();
    assert s[0] == if num.minus then MINUS else num.whole[0];
  }

  lemma {:induction false} LiteralDocument(s: seq<Byte>, lit: nat)
    requires lit < 3 && Spells(s, if lit == 0 then "true" else if lit == 1 then "false" else "null")
    ensures Accepts(s, ValueMode)
  {
    hide Accepts, Literal;
    LiteralIsAWord(lit);
    assert s == Literal(lit);
    var d := Document([], JLit(lit), []);
    assert RenderDocument(d) == s;
    AcceptsExactlyTheBoundedTexts(s, ValueMode);
    assert ValidDocument(d) && BoundedDocument(d);
  }

  // ----- limits

  function Times(b: Byte, n: nat): (s: seq<Byte>)
    ensures |s| == n && forall i | 0 <= i < n :: s[i] == b
  {
    seq(n, _ => b)
  }

  /** Theorem: a number may stand behind at most 22 spaces. */
  lemma {:induction false} TwentyTwoSpaces(n: nat)
    ensures Accepts(Times(' ' as int, n) + ['0' as int], ValueMode) <==> n <= 22
  {
    hide Step;
    var s := Times(' ' as int, n);
    SpacesRun(n);
    assert (s + ['0' as int])[..n] == s;
    if n <= 22 {
      DigitEnds(Machine([], Value, n));
    }
  }

  lemma {:induction false} SpacesRun(n: nat)
    ensures Run(Initial(), Times(' ' as int, n), ValueMode) == if n <= 22 then Some(Machine([], Value, n)) else None
  {
    hide Step;
    if n > 0 {
      SpacesRun(n - 1);
      assert Times(' ' as int, n)[..n - 1] == Times(' ' as int, n - 1);
      if n <= 23 {
        OneSpace(n - 1);
      }
    }
  }

  lemma {:induction false} OneSpace(run: nat)
    ensures Step(Machine([], Value, run), ' ' as int, ValueMode)
      == if run < 22 then Some(Machine([], Value, run + 1)) else None
  {
  }

  lemma {:induction false} DigitEnds(m: Machine)
    requires m.stack == [] && m.state.Value?
    ensures var next := Step(m, '0' as int, ValueMode);
      next.Some? && next.value.Accepting()
  {
  }

  /** Theorem: arrays nest at most 64 deep. */
  lemma {:induction false} SixtyFourArrays(n: nat)
    requires n > 0
    ensures Accepts(Times('[' as int, n) + Times(']' as int, n), ValueMode) <==> n <= 64
  {
    hide Step;
    OpensRun(n);
    var s := Times('[' as int, n) + Times(']' as int, n);
    ClosesRun(n, n);
    assert s == Times('[' as int, n) + Times(']' as int, n);
  }

  function Inside(n: nat): (m: Machine) {
    Machine(seq(n, _ => true), if n == 0 then Value else ArrFirst, 0)
  }

  lemma {:induction false} OpensRun(n: nat)
    ensures Run(Initial(), Times('[' as int, n), ValueMode) == if n <= 64 then Some(Inside(n)) else None
  {
    hide Step;
    if n > 0 {
      OpensRun(n - 1);
      assert Times('[' as int, n)[..n - 1] == Times('[' as int, n - 1);
      if n <= 65 {
        OneOpen(n - 1);
      }
    } else {
      assert Inside(0) == Initial();
    }
  }

  lemma {:induction false} OneOpen(n: nat)
    ensures Step(Inside(n), '[' as int, ValueMode) == if n < 64 then Some(Inside(n + 1)) else None
  {
    assert seq(n, _ => true) + [true] == seq(n + 1, _ => true);
  }

  /** After `n` opened and `k` closed. */
  function Outside(n: nat, k: nat): (m: Machine)
    requires k <= n
  {
    if k == 0 then Inside(n) else Machine(seq(n - k, _ => true), if k == n then Done else ArrNext, 0)
  }

  lemma {:induction false} ClosesRun(n: nat, k: nat)
    requires 0 < n && k <= n
    ensures Run(Initial(), Times('[' as int, n) + Times(']' as int, k), ValueMode)
      == if n <= 64 then Some(Outside(n, k)) else None
  {
    hide Step;
    var s := Times('[' as int, n) + Times(']' as int, k);
    if k == 0 {
      OpensRun(n);
      assert s == Times('[' as int, n);
    } else {
      ClosesRun(n, k - 1);
      assert s[..|s| - 1] == Times('[' as int, n) + Times(']' as int, k - 1);
      OneClose(n, k - 1);
    }
  }

  lemma {:induction false} OneClose(n: nat, k: nat)
    requires k < n
    ensures Step(Outside(n, k), ']' as int, ValueMode) == Some(Outside(n, k + 1))
  {
    assert seq(n - k, _ => true)[..n - k - 1] == seq(n - k - 1, _ => true);
  }
}
