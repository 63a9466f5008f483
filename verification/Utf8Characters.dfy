/**
 What the decoder takes for a character, by code points (RFC 3629, section 3): the heads it knows are the encodings of
 the Unicode scalar values, and what is no text becomes U+FFFD one longest beginning of a character at a time.
 */
module Utf8Characters {
  import opened Utf8

  /** A Unicode scalar value. */
  type Point = n: nat | n <= 0xD7FF || 0xE000 <= n <= 0x10FFFF

  /** The octets of a code point. */
  function Encode(n: Point): (s: Text)
    ensures 1 <= |s| <= 4
  {
    var n1 := n / 0x40;
    var n2 := n1 / 0x40;
    if n <= 0x7F then [n]
    else if n <= 0x7FF then [0xC0 + n1, 0x80 + n % 0x40]
    else if n <= 0xFFFF then [0xE0 + n2, 0x80 + n1 % 0x40, 0x80 + n % 0x40]
    else [0xF0 + n2 / 0x40, 0x80 + n2 % 0x40, 0x80 + n1 % 0x40, 0x80 + n % 0x40]
  }

  /** `s` begins with the encoding of `n`. */
  predicate Starts(s: Text, n: Point) {
    Encode(n) <= s
  }

  /** Six more bits behind `high`. */
  function Joined(high: nat, tail: int): (n: nat)
    requires 0x80 <= tail <= 0xBF
    ensures n / 0x40 == high && n % 0x40 == tail - 0x80
  {
    high * 0x40 + (tail - 0x80)
  }

  lemma {:induction false} TwoStart(s: Text)
    requires Head(s) == 2
    ensures exists n: Point :: Starts(s, n) && |Encode(n)| == 2
  {
    var lead: int := s[0];
    var n := Joined(lead - 0xC0, s[1]);
    assert Encode(n) == s[..2];
    assert Starts(s, n);
  }

  lemma {:induction false} ThreeStart(s: Text)
    requires Head(s) == 3
    ensures exists n: Point :: Starts(s, n) && |Encode(n)| == 3
  {
    var lead: int := s[0];
    var n1 := Joined(lead - 0xE0, s[1]);
    var n := Joined(n1, s[2]);
    assert Encode(n) == s[..3];
    assert Starts(s, n);
  }

  lemma {:induction false} FourStart(s: Text)
    requires Head(s) == 4
    ensures exists n: Point :: Starts(s, n) && |Encode(n)| == 4
  {
    var a: int, b: int := s[0], s[1];
    assert 0xF0 <= a <= 0xF4 && (a == 0xF0 ==> b >= 0x90) && (a == 0xF4 ==> b <= 0x8F);
    assert Tail(s[1]) && Tail(s[2]) && Tail(s[3]);
    FourIs(s, a - 0xF0);
  }

  lemma {:induction false} FourIs(s: Text, lead: nat)
    requires |s| >= 4 && lead <= 4 && s[0] == 0xF0 + lead && Tail(s[1]) && Tail(s[2]) && Tail(s[3])
    requires (lead == 0 ==> s[1] >= 0x90) && (lead == 4 ==> s[1] <= 0x8F)
    ensures exists n: Point :: Starts(s, n) && |Encode(n)| == 4
  {
    hide Head, Begins;
    var n2 := Joined(lead, s[1]);
    var n1 := Joined(n2, s[2]);
    var n := Joined(n1, s[3]);
    assert 0x10 <= n2 <= 0x10F;
    assert 0xFFFF < n <= 0x10FFFF;
    EncodesFour(n);
    assert Encode(n) == s[..4];
    assert Starts(s, n);
  }

  lemma {:induction false} EncodesFour(n: Point)
    requires n > 0xFFFF
    ensures var n1 := n / 0x40;
      var n2 := n1 / 0x40;
      Encode(n) == [0xF0 + n2 / 0x40, 0x80 + n2 % 0x40, 0x80 + n1 % 0x40, 0x80 + n % 0x40]
  {
  }

  lemma {:induction false} OneStart(s: Text)
    requires Head(s) == 1
    ensures exists n: Point :: Starts(s, n) && |Encode(n)| == 1
  {
    assert Starts(s, s[0]);
  }

  lemma {:induction false} StartsHead(s: Text, n: Point)
    requires Starts(s, n)
    ensures Head(s) == |Encode(n)|
  {
    var e := Encode(n);
    assert e[0] == s[0];
  }

  /** Theorem: a text has a head exactly when it begins with the encoding of a scalar value, and that is its head. */
  lemma {:induction false} HeadIsACharacter(s: Text)
    ensures Head(s) > 0 <==> exists n: Point :: Starts(s, n)
    ensures forall n: Point | Starts(s, n) :: Head(s) == |Encode(n)|
  {
    hide Head, Starts, Encode;
    forall n: Point | Starts(s, n)
      ensures Head(s) == |Encode(n)|
    {
      StartsHead(s, n);
    }
    if Head(s) == 1 {
      OneStart(s);
    } else if Head(s) == 2 {
      TwoStart(s);
    } else if Head(s) == 3 {
      ThreeStart(s);
    } else if Head(s) == 4 {
      FourStart(s);
    }
  }

  /** Characters one after the other. */
  function EncodeAll(points: seq<Point>): Text
  {
    if points == [] then [] else Encode(points[0]) + EncodeAll(points[1..])
  }

  /** Theorem: text decodes to itself. */
  lemma {:induction false} TextIsKept(points: seq<Point>)
    ensures Lossy(EncodeAll(points)) == EncodeAll(points)
    decreases |points|
  {
    hide Head, Encode;
    if points != [] {
      var s := EncodeAll(points);
      StartsHead(s, points[0]);
      TextIsKept(points[1..]);
      assert s[..Head(s)] == Encode(points[0]) && s[Head(s)..] == EncodeAll(points[1..]);
    }
  }

  /** `s` is a proper beginning of a character. */
  ghost predicate BeginsACharacter(s: Text) {
    s != [] && exists n: Point :: s < Encode(n)
  }

  /** Theorem: where no character starts, one U+FFFD stands for the longest beginning of one, and for a single octet
      when there is none. */
  lemma {:induction false} BrokenIsReplaced(s: Text)
    requires s != [] && forall n: Point :: !Starts(s, n)
    ensures exists m | 1 <= m <= |s| ::
      && Lossy(s) == [0xEF, 0xBF, 0xBD] + Lossy(s[m..])
      && (m == 1 || BeginsACharacter(s[..m]))
      && forall k | m < k <= |s| :: !BeginsACharacter(s[..k])
  {
    hide Lossy, Encode, Starts;
    var m := Skipped(s);
    NoHeadIsReplaced(s);
    if m > 1 {
      BegunIsABeginning(s, m);
    }
    forall k | m < k <= |s|
      ensures !BeginsACharacter(s[..k])
    {
      if BeginsACharacter(s[..k]) {
        BeginningIsBegun(s, k);
      }
    }
  }

  lemma {:induction false} NoHeadIsReplaced(s: Text)
    requires s != [] && forall n: Point :: !Starts(s, n)
    ensures Head(s) == 0 && Lossy(s) == [0xEF, 0xBF, 0xBD] + Lossy(s[Skipped(s)..])
  {
    hide Head, Starts, Encode, Skipped;
    HeadIsACharacter(s);
  }

  /** A character that completes a beginning of two or three octets. */
  function Completed(s: Text, m: nat): (c: Text)
    requires 1 < m <= |s|
  {
    s[..m] + if Width(s[0]) - m == 1 then [0x80] else if Width(s[0]) - m == 2 then [0x80, 0x80] else []
  }

  lemma {:induction false} BegunIsABeginning(s: Text, m: nat)
    requires 1 < m <= |s| && Begins(s, m) && Head(s) == 0
    ensures BeginsACharacter(s[..m])
  {
    var c := Completed(s, m);
    var p := s[..m];
    assert Width(s[0]) > m;
    assert |c| == Width(s[0]) && p < c && c[0] == s[0] && c[1] == s[1] && (m >= 3 ==> c[2] == s[2]);
    assert Head(c) == Width(s[0]);
    HeadIsACharacter(c);
    var n: Point :| Starts(c, n);
    assert Encode(n) == c;
  }

  lemma {:induction false} BeginningIsBegun(s: Text, k: nat)
    requires 1 < k <= |s| && BeginsACharacter(s[..k])
    ensures k <= Skipped(s)
  {
    var n: Point :| s[..k] < Encode(n);
    var e := Encode(n);
    assert e[0] == s[0] && e[1] == s[1] && (k >= 3 ==> e[2] == s[2]);
    assert Starts(e, n);
    StartsHead(e, n);
    assert Begins(s, k);
  }
}
