/** Numbers written in a base. */
module Numerals {
  import opened Arith

  predicate Digits(base: nat, s: seq<nat>) {
    forall i :: 0 <= i < |s| ==> s[i] < base
  }

  /** The number that the digits write, most significant first. */
  function Num(base: nat, s: seq<nat>): nat {
    if s == [] then 0 else Num(base, s[..|s| - 1]) * base + s[|s| - 1]
  }

  function Power(base: nat, n: nat): nat {
    if n == 0 then 1 else base * Power(base, n - 1)
  }

  lemma {:induction false} NumConcat(base: nat, a: seq<nat>, b: seq<nat>)
    ensures Num(base, a + b) == Num(base, a) * Power(base, |b|) + Num(base, b)
    decreases |b|
  {
    if b == [] {
      assert a + b == a;
    } else {
      var n := |b| - 1;
      assert (a + b)[..|a + b| - 1] == a + b[..n];
      NumConcat(base, a, b[..n]);
      Distribute(Num(base, a), Power(base, n), Num(base, b[..n]), base);
    }
  }

  lemma Distribute(x: int, p: int, y: int, base: int)
    ensures (x * p + y) * base == x * (base * p) + y * base
  {
    assert (x * p + y) * base == x * p * base + y * base;
  }

  lemma {:induction false} NumBelow(base: nat, s: seq<nat>)
    requires base > 0 && Digits(base, s)
    ensures Num(base, s) < Power(base, |s|)
    decreases |s|
  {
    if s != [] {
      var n := |s| - 1;
      NumBelow(base, s[..n]);
      DigitBelow(Num(base, s[..n]), s[n], base, Power(base, n));
    }
  }

  lemma DigitBelow(x: nat, d: nat, base: nat, p: nat)
    requires x < p && d < base
    ensures x * base + d < base * p
  {
    MulMonotone(base, x + 1, p);
    assert base * (x + 1) == x * base + base;
  }
}
