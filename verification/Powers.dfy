/** Powers of two and the divisions by them that loops over halves and doubles need. */
module Powers {
  predicate IsPow2(n: nat) {
    n == 1 || (n > 1 && n % 2 == 0 && IsPow2(n / 2))
  }

  lemma {:induction false} QuotientOf(x: int, d: nat, q: int, h: int)
    requires d > 0 && h * d <= x < h * d + d && q * d <= x < q * d + d
    ensures q == h
  {
    var e := h - q;
    assert e * d == h * d - q * d;
    AtMostZero(e, d);
    AtMostZero(-e, d);
  }

  lemma {:induction false} AtMostZero(e: int, d: nat)
    requires e * d < d
    ensures e <= 0
  {
  }

  lemma {:induction false} DivMul(h: nat, d: nat)
    requires d > 0
    ensures h * d / d == h
  {
    var x := h * d;
    QuotientOf(x, d, x / d, h);
  }

  lemma {:induction false} Halved(n: nat, s: nat, k: nat)
    requires k * s == n && s > 0 && s < n && IsPow2(k)
    ensures k > 1 && k % 2 == 0 && n / (2 * s) == k / 2 && IsPow2(k / 2) && k / 2 * (2 * s) == n
  {
    assert k != 1;
    var h := k / 2;
    assert k == 2 * h;
    Regroup(h, s);
    DivMul(h, 2 * s);
  }

  lemma {:induction false} Regroup(p: nat, s: nat)
    ensures 2 * p * s == p * (2 * s)
  {
  }

  lemma {:induction false} OneBlock(k: nat, s: nat, n: nat)
    requires k * s == n && s >= n && n > 0
    ensures k == 1 && s == n
  {
    AtLeastTwice(k, s);
  }

  lemma {:induction false} AtLeastTwice(k: nat, s: nat)
    ensures k >= 2 ==> k * s >= 2 * s
  {
  }
}
