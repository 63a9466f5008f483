/** Facts about concatenation, stated on their own so that proofs need not search for them. */
module Sequences {
  lemma {:induction false} Nil<T>(s: seq<T>)
    ensures [] + s == s && s + [] == s
  {
  }

  lemma {:induction false} Assoc<T>(a: seq<T>, b: seq<T>, c: seq<T>)
    ensures a + b + c == a + (b + c)
  {
  }

  lemma {:induction false} Assoc4<T>(a: seq<T>, b: seq<T>, c: seq<T>, d: seq<T>)
    ensures a + b + c + d == a + (b + c + d)
    ensures a + b + c + d == a + (b + (c + d))
  {
  }

  lemma {:induction false} Head<T>(s: seq<T>, t: seq<T>)
    requires s != []
    ensures s + t != [] && (s + t)[0] == s[0]
  {
  }

  lemma {:induction false} TwoThenRest<T>(s: seq<T>)
    requires |s| >= 2
    ensures s == [s[0]] + s[1..] && s == [s[0], s[1]] + s[2..] && s[1..] == [s[1]] + s[2..]
    ensures [s[0]] + [s[1]] == [s[0], s[1]]
  {
  }
}
