/** UTF-8 as the tokenizer's decoder sees it: characters, split characters and replacement (RFC 3629, section 4). */
module Utf8 {
  type Octet = x: int | 0 <= x < 256
  type Text = seq<Octet>

  /** U+FFFD. */
  const REPLACEMENT: Text := [0xEF, 0xBF, 0xBD]

  predicate Tail(b: Octet) {
    0x80 <= b <= 0xBF
  }

  /** How many octets the character led by `b` has; zero when nothing starts with `b`. */
  function Width(b: Octet): (n: nat)
    ensures n <= 4
  {
    if b <= 0x7F then 1
    else if 0xC2 <= b <= 0xDF then 2
    else if 0xE0 <= b <= 0xEF then 3
    else if 0xF0 <= b <= 0xF4 then 4
    else 0
  }

  /** Which second octets may follow the lead `b`. */
  predicate Second(b: Octet, c: Octet) {
    && Tail(c)
    && (b == 0xE0 ==> c >= 0xA0) && (b == 0xED ==> c <= 0x9F)
    && (b == 0xF0 ==> c >= 0x90) && (b == 0xF4 ==> c <= 0x8F)
  }

  /** The first `m` octets of `s` begin a character. */
  predicate Begins(s: Text, m: nat)
    requires m <= |s|
  {
    && 0 < m <= Width(s[0])
    && (m >= 2 ==> Second(s[0], s[1]))
    && (m >= 3 ==> Tail(s[2]))
    && (m >= 4 ==> Tail(s[3]))
  }

  /** The width of the whole character at the head of `s`, or zero. */
  function Head(s: Text): (n: nat)
    ensures n <= |s| && n <= 4
    ensures n > 0 ==> n == Width(s[0]) && Begins(s, n)
  {
    if s == [] then 0
    else if 0 < Width(s[0]) <= |s| && Begins(s, Width(s[0])) then Width(s[0])
    else 0
  }

  /** The start of a character whose end is missing. */
  predicate Split(s: Text) {
    s != [] && |s| < Width(s[0]) && Begins(s, |s|)
  }

  /** Whole characters, none of them U+FFFD. */
  predicate Complete(s: Text) {
    s == [] || (Head(s) > 0 && s[..Head(s)] != REPLACEMENT && Complete(s[Head(s)..]))
  }

  /** A prefix of such a text. */
  predicate Valid(s: Text) {
    s == [] || Split(s) || (Head(s) > 0 && s[..Head(s)] != REPLACEMENT && Valid(s[Head(s)..]))
  }

  /** The whole characters of a text that starts at one. */
  function Whole(s: Text): (w: Text)
    ensures w <= s
  {
    if Head(s) == 0 then [] else
      var n := Head(s);
      assert s == s[..n] + s[n..];
      s[..n] + Whole(s[n..])
  }

  /** How many octets one U+FFFD stands for where no whole character starts: the longest beginning of one. */
  function Skipped(s: Text): (n: nat)
    requires s != []
    ensures 0 < n <= |s|
  {
    if |s| >= 3 && Begins(s, 3) then 3 else if |s| >= 2 && Begins(s, 2) then 2 else 1
  }

  /** Decoding that never fails: what is no character becomes U+FFFD. */
  function Lossy(s: Text): Text {
    if s == [] then []
    else if Head(s) > 0 then s[..Head(s)] + Lossy(s[Head(s)..])
    else REPLACEMENT + Lossy(s[Skipped(s)..])
  }

  predicate EndsWith(s: Text, tail: Text) {
    |s| >= |tail| && s[|s| - |tail|..] == tail
  }

  /** `s` without the U+FFFD at its end. */
  function Trimmed(s: Text): (t: Text)
    ensures t <= s
    decreases |s|
  {
    if EndsWith(s, REPLACEMENT) then Trimmed(s[..|s| - 3]) else s
  }

  // ----- heads

  lemma {:induction false} HeadOfPrefix(s: Text, m: nat)
    requires 0 < m <= |s| && Head(s) > 0
    ensures if m < Head(s) then Head(s[..m]) == 0 && Split(s[..m]) else Head(s[..m]) == Head(s)
    ensures m >= Head(s) ==> s[..m][..Head(s)] == s[..Head(s)] && s[..m][Head(s)..] == s[Head(s)..][..m - Head(s)]
  {
    var p := s[..m];
    assert p[0] == s[0] && (m >= 2 ==> p[1] == s[1]) && (m >= 3 ==> p[2] == s[2]) && (m >= 4 ==> p[3] == s[3]);
    if m >= Head(s) {
      assert p[..Head(s)] == s[..Head(s)] && p[Head(s)..] == s[Head(s)..][..m - Head(s)];
    }
  }

  lemma {:induction false} HeadOfConcat(a: Text, b: Text)
    requires Head(a) > 0
    ensures Head(a + b) == Head(a) && (a + b)[..Head(a)] == a[..Head(a)] && (a + b)[Head(a)..] == a[Head(a)..] + b
  {
  }

  lemma {:induction false} SplitOfPrefix(s: Text, m: nat)
    requires 0 < m <= |s| && Split(s)
    ensures Split(s[..m]) && Head(s) == 0
  {
  }

  // ----- prefixes and concatenation

  /** A prefix of a valid text is valid. */
  lemma {:induction false} ValidPrefix(s: Text, m: nat)
    requires Valid(s) && m <= |s|
    ensures Valid(s[..m])
    decreases |s|
  {
    if m == 0 {
    } else if Split(s) {
      SplitOfPrefix(s, m);
    } else {
      HeadOfPrefix(s, m);
      if m >= Head(s) {
        ValidPrefix(s[Head(s)..], m - Head(s));
      }
    }
  }

  lemma {:induction false} Unfold(s: Text)
    requires Head(s) > 0
    ensures var n := Head(s);
      && n <= |s| && s == s[..n] + s[n..]
      && (Valid(s) <==> s[..n] != REPLACEMENT && Valid(s[n..]))
      && (Complete(s) <==> s[..n] != REPLACEMENT && Complete(s[n..]))
      && Whole(s) == s[..n] + Whole(s[n..])
      && Lossy(s) == s[..n] + Lossy(s[n..])
  {
    NotSplit(s);
  }

  lemma {:induction false} CompleteHead(s: Text)
    requires Complete(s) && s != []
    ensures Head(s) > 0
  {
  }

  lemma {:induction false} AfterComplete(a: Text, b: Text)
    requires Complete(a)
    ensures Valid(a + b) <==> Valid(b)
    ensures Complete(a + b) <==> Complete(b)
    ensures Whole(a + b) == a + Whole(b)
    ensures Lossy(a + b) == a + Lossy(b)
    decreases |a|
  {
    hide Valid, Complete, Whole, Lossy, Head;
    if a == [] {
      assert a + b == b;
      assert a + Whole(b) == Whole(b) && a + Lossy(b) == Lossy(b);
    } else {
      CompleteHead(a);
      var n := Head(a);
      HeadOfConcat(a, b);
      Unfold(a);
      Unfold(a + b);
      AfterComplete(a[n..], b);
      Rejoin(a, n, Whole(b));
      Rejoin(a, n, Lossy(b));
    }
  }

  lemma {:induction false} Rejoin(a: Text, n: nat, c: Text)
    requires n <= |a|
    ensures a[..n] + (a[n..] + c) == a + c
  {
  }

  lemma {:induction false} NotSplit(s: Text)
    requires Head(s) > 0
    ensures !Split(s)
  {
  }

  lemma {:induction false} CompleteIsValid(s: Text)
    requires Complete(s)
    ensures Valid(s) && Whole(s) == s && Lossy(s) == s
  {
    AfterComplete(s, []);
    assert s + [] == s;
  }

  lemma {:induction false} SplitUnfold(s: Text)
    requires Split(s)
    ensures Head(s) == 0 && s != [] && Valid(s) && !Complete(s) && Whole(s) == [] && Lossy(s) == REPLACEMENT
  {
    SplitOfPrefix(s, |s|);
    assert Skipped(s) == |s|;
    assert s[|s|..] == [];
    assert Lossy(s) == REPLACEMENT + [];
  }

  lemma {:induction false} ValidCases(s: Text)
    requires Valid(s)
    ensures s == [] || Split(s) || Head(s) > 0
    ensures Complete([]) && Whole([]) == [] && Lossy([]) == []
  {
  }

  /** A valid text is its whole characters, then nothing or a split one; decoding replaces the split one. */
  lemma {:induction false} ValidParts(s: Text)
    requires Valid(s)
    ensures Complete(Whole(s))
    ensures var rest := s[|Whole(s)|..]; rest == [] || Split(rest)
    ensures Complete(s) <==> Whole(s) == s
    ensures Lossy(s) == if Complete(s) then s else Whole(s) + REPLACEMENT
    decreases |s|
  {
    hide Valid, Complete, Whole, Lossy, Head, Split;
    ValidCases(s);
    if s == [] {
    } else if Split(s) {
      SplitUnfold(s);
      assert s[0..] == s;
    } else {
      var n := Head(s);
      Unfold(s);
      ValidParts(s[n..]);
      var w := Whole(s[n..]);
      HeadFits(s);
      HeadOfPrefix(s, n);
      HeadOfConcat(s[..n], w);
      Unfold(s[..n] + w);
      assert s[n..][|w|..] == s[|s[..n] + w|..];
      assert s[..n] + (w + REPLACEMENT) == s[..n] + w + REPLACEMENT;
      if w == s[n..] {
        assert s[..n] + w == s;
      } else if s[..n] + w == s {
        assert (s[..n] + w)[n..] == w;
      }
    }
  }

  lemma {:induction false} HeadFits(s: Text)
    requires Head(s) > 0
    ensures |s[..Head(s)]| == Head(s) && s[..Head(s)][..Head(s)] == s[..Head(s)]
  {
  }

  // ----- the end of a text

  lemma {:induction false} HeadIsNoTail(s: Text)
    requires s != [] && (Head(s) > 0 || Split(s))
    ensures !Tail(s[0])
  {
  }

  lemma {:induction false} EndOfRest(s: Text, n: nat)
    requires n <= |s|
    ensures |s| - n >= 3 ==> (EndsWith(s, REPLACEMENT) <==> EndsWith(s[n..], REPLACEMENT))
    ensures 0 < |s| - n < 3 && EndsWith(s, REPLACEMENT) ==> Tail(s[n])
  {
    if |s| >= 3 && n <= |s| - 3 {
      assert s[n..][|s| - n - 3..] == s[|s| - 3..];
    }
    if 0 < |s| - n < 3 && EndsWith(s, REPLACEMENT) {
      assert s[n] == s[|s| - 3..][n - (|s| - 3)];
    }
  }

  lemma {:induction false} LastThree(s: Text)
    ensures EndsWith(s, REPLACEMENT) ==>
      |s| >= 3 && s[|s| - 3] == 0xEF && s[|s| - 2] == 0xBF && s[|s| - 1] == 0xBD
  {
    if |s| >= 3 {
      var last := s[|s| - 3..];
      assert last[0] == s[|s| - 3] && last[1] == s[|s| - 2] && last[2] == s[|s| - 1];
    }
  }

  lemma {:induction false} OneCharacter(s: Text)
    requires s != [] && Head(s) == |s| && s != REPLACEMENT
    ensures !EndsWith(s, REPLACEMENT)
  {
    hide EndsWith;
    LastThree(s);
    if |s| == 3 {
      assert s[0] == 0xEF && s[1] == 0xBF && s[2] == 0xBD ==> s == REPLACEMENT;
    } else if |s| == 4 {
      assert Tail(s[1]);
    }
  }

  /** Whole characters other than U+FFFD do not end in U+FFFD. */
  lemma {:induction false} CompleteEnd(s: Text)
    requires Complete(s)
    ensures !EndsWith(s, REPLACEMENT)
    decreases |s|
  {
    if s != [] {
      var n := Head(s);
      var rest := s[n..];
      CompleteEnd(rest);
      EndOfRest(s, n);
      if rest == [] {
        assert s[..n] == s;
        OneCharacter(s);
      } else {
        HeadIsNoTail(rest);
      }
    }
  }

  lemma {:induction false} TrimmedWhole(s: Text)
    requires Complete(s)
    ensures Trimmed(s) == s && Trimmed(s + REPLACEMENT) == s
  {
    CompleteEnd(s);
    var t := s + REPLACEMENT;
    assert t[|t| - 3..] == REPLACEMENT && t[..|t| - 3] == s;
  }

  /** The whole characters after a boundary, with or without a replaced split end, trimmed. */
  lemma {:induction false} SplitEnd(s: Text)
    requires Valid(s)
    ensures EndsWith(Lossy(s), REPLACEMENT) <==> !Complete(s)
    ensures Trimmed(Lossy(s)) == Whole(s)
  {
    hide Lossy, Whole, Complete, Trimmed;
    ValidParts(s);
    TrimmedWhole(Whole(s));
    CompleteEnd(Whole(s));
    var t := Whole(s) + REPLACEMENT;
    assert t[|t| - 3..] == REPLACEMENT;
  }

  /** What comes after whole characters starts at a character boundary. */
  lemma {:induction false} BoundaryAfter(a: Text, b: Text)
    requires Complete(a) && Valid(b) && b != []
    ensures !Tail(Lossy(b)[0])
  {
    HeadOrSplit(b);
    HeadIsNoTail(b);
  }

  lemma {:induction false} HeadOrSplit(b: Text)
    requires Valid(b) && b != []
    ensures Head(b) > 0 || Split(b)
    ensures Lossy(b) != [] && (Lossy(b)[0] == b[0] || Lossy(b)[0] == 0xEF)
  {
  }

  // ----- fragments

  /** Replacing never shortens, and what starts inside a character grows by at least two octets. */
  lemma {:induction false} LossyIsLonger(s: Text)
    ensures |Lossy(s)| >= |s|
    ensures s != [] && Tail(s[0]) ==> |Lossy(s)| >= |s| + 2
  {
    if s != [] {
      var n := if Head(s) > 0 then Head(s) else Skipped(s);
      LossyIsLonger(s[n..]);
    }
  }

  lemma {:induction false} InnerTails(s: Text)
    requires Head(s) > 0
    ensures forall j | 0 < j < Head(s) :: Tail(s[j])
  {
  }

  /** Whole characters cut where an octet starts a character are whole on both sides. */
  lemma {:induction false} BoundaryParts(a: Text, b: Text)
    requires Complete(a + b) && b != []
    ensures !Tail(b[0]) ==> Complete(a) && Complete(b)
    decreases |a|
  {
    hide Head, Tail;
    if a == [] {
      assert a + b == b;
    } else if !Tail(b[0]) {
      var s := a + b;
      var n := Head(s);
      CompleteHead(s);
      InnerTails(s);
      assert s[|a|] == b[0];
      assert |a| >= n;
      HeadOfPrefix(s, |a|);
      assert s[..|a|] == a && s[n..] == a[n..] + b;
      BoundaryParts(a[n..], b);
    }
  }

  /** One of the last four octets of whole characters starts a character. */
  lemma {:induction false} LeadNearEnd(s: Text)
    requires Complete(s) && |s| >= 4
    ensures exists k | |s| - 4 <= k < |s| :: !Tail(s[k])
    decreases |s|
  {
    hide Tail;
    CompleteHead(s);
    var n := Head(s);
    var rest := s[n..];
    if |rest| >= 4 {
      LeadNearEnd(rest);
      var k :| |rest| - 4 <= k < |rest| && !Tail(rest[k]);
      assert !Tail(s[n + k]);
    } else if rest != [] {
      CompleteHead(rest);
      HeadIsNoTail(rest);
      assert !Tail(s[n]);
    } else {
      HeadIsNoTail(s);
    }
  }

  /** The end of whole characters, decoded from anywhere before the last of them, ends with it. */
  lemma {:induction false} LossyEndsClean(a: Text, b: Text)
    requires Complete(a + b) && exists k | 0 <= k < |b| :: !Tail(b[k])
    ensures Lossy(b) != [] && !Tail(Lossy(b)[0]) && !EndsWith(Lossy(b), REPLACEMENT)
    decreases |b|
  {
    hide Complete, Lossy, EndsWith, Head;
    BoundaryParts(a, b);
    if !Tail(b[0]) {
      CompleteIsValid(b);
      CompleteEnd(b);
    } else {
      LoneTail(b);
      assert (a + [b[0]]) + b[1..] == a + b;
      var k :| 0 <= k < |b| && !Tail(b[k]);
      assert b[1..][k - 1] == b[k];
      LossyEndsClean(a + [b[0]], b[1..]);
      EndOfRest(REPLACEMENT + Lossy(b[1..]), 3);
      assert (REPLACEMENT + Lossy(b[1..]))[3..] == Lossy(b[1..]);
    }
  }

  lemma {:induction false} LoneTail(s: Text)
    requires s != [] && Tail(s[0])
    ensures Lossy(s) == REPLACEMENT + Lossy(s[1..])
  {
    assert Head(s) == 0 && Skipped(s) == 1;
  }
}
