/** Hexadecimal and octal integer literals. */
module Literals {
  import opened Arith
  import opened Numerals

  const MAX_ABS_INTEGER: int := 0x8000_0000_0000_0000
  const TWO_TO_64: int := 0x1_0000_0000_0000_0000

  datatype Token = Integer(value: int) | OutOfRange

  lemma {:induction false} NumZeros(base: nat, s: seq<nat>)
    requires forall i :: 0 <= i < |s| ==> s[i] == 0
    ensures Num(base, s) == 0
    decreases |s|
  {
    if s != [] {
      NumZeros(base, s[..|s| - 1]);
    }
  }

  /** Leading zeros do not count. */
  lemma SkipZeros(base: nat, s: seq<nat>, i: nat)
    requires i <= |s| && forall j :: 0 <= j < i ==> s[j] == 0
    ensures Num(base, s) == Num(base, s[i..])
  {
    assert s == s[..i] + s[i..];
    NumConcat(base, s[..i], s[i..]);
    NumZeros(base, s[..i]);
  }

  /** The first digit gives the size of a number. */
  lemma FirstDigit(base: nat, s: seq<nat>)
    requires base > 0 && s != [] && Digits(base, s)
    ensures s[0] * Power(base, |s| - 1) <= Num(base, s) < (s[0] + 1) * Power(base, |s| - 1)
  {
    assert s == [s[0]] + s[1..];
    NumConcat(base, [s[0]], s[1..]);
    assert [s[0]][..0] == [] && Num(base, [s[0]]) == s[0];
    NumBelow(base, s[1..]);
    assert (s[0] + 1) * Power(base, |s| - 1) == s[0] * Power(base, |s| - 1) + Power(base, |s| - 1);
  }

  lemma {:induction false} PowerGrows(base: nat, m: nat, n: nat)
    requires base > 0 && m <= n
    ensures 1 <= Power(base, m) <= Power(base, n)
    decreases n
  {
    if m < n {
      PowerGrows(base, m, n - 1);
      MulMonotone(Power(base, n - 1), 1, base);
    } else if n > 0 {
      PowerGrows(base, n - 1, n - 1);
      MulMonotone(Power(base, n - 1), 1, base);
    }
  }

  lemma Powers()
    ensures Power(16, 16) == TWO_TO_64
    ensures Power(8, 21) == MAX_ABS_INTEGER && Power(8, 22) == 8 * MAX_ABS_INTEGER
  {
    assert Power(16, 4) == 0x1_0000;
    assert Power(16, 8) == 0x1_0000_0000;
    assert Power(16, 12) == 0x1_0000_0000_0000;
    assert Power(8, 5) == 0x8000;
    assert Power(8, 10) == 0x4000_0000;
    assert Power(8, 15) == 0x2000_0000_0000;
    assert Power(8, 20) == 0x1000_0000_0000_0000;
  }

  /** A number without leading zeros and longer than `n` digits is at least base to the n. */
  lemma LongIsLarge(base: nat, s: seq<nat>, n: nat)
    requires base > 0 && Digits(base, s) && |s| > n && s[0] != 0
    ensures Num(base, s) >= Power(base, n)
  {
    FirstDigit(base, s);
    PowerGrows(base, n, |s| - 1);
    MulMonotone(Power(base, |s| - 1), 1, s[0]);
  }

  lemma ShortIsSmall(base: nat, s: seq<nat>, n: nat)
    requires base > 0 && Digits(base, s) && |s| <= n
    ensures Num(base, s) < Power(base, n)
  {
    NumBelow(base, s);
    PowerGrows(base, |s|, n);
  }

  /** sscanf into 64 bits; it is only ever asked for numbers that fit. */
  method Scan(base: nat, s: seq<nat>) returns (val: nat)
    requires Num(base, s) < TWO_TO_64
    ensures val == Num(base, s)
  {
    val := 0;
    for i := 0 to |s|
      invariant val == Num(base, s[..i])
    {
      assert s[..i + 1][..i] == s[..i];
      val := val * base + s[i];
    }
    assert s[..|s|] == s;
  }

  /** What a literal of this value must become. */
  function Expected(value: nat, unaryMinus: bool): Token {
    if value < MAX_ABS_INTEGER then Integer(value)
    else if value == MAX_ABS_INTEGER && unaryMinus then Integer(-MAX_ABS_INTEGER)
    else OutOfRange
  }

  /** The last part of both: compare, then cast to a signed integer. */
  method Finish(base: nat, s: seq<nat>, unaryMinus: bool) returns (t: Token)
    requires Num(base, s) < TWO_TO_64
    ensures t == Expected(Num(base, s), unaryMinus)
  {
    var val := Scan(base, s);
    if val > MAX_ABS_INTEGER {
      return OutOfRange;
    }
    if val == MAX_ABS_INTEGER && !unaryMinus {
      return OutOfRange;
    }
    return Integer(if val >= MAX_ABS_INTEGER then val - TWO_TO_64 else val);
  }

  /** How many of the digits are leading zeros. */
  method LeadingZeros(s: seq<nat>) returns (i: nat)
    ensures i <= |s| && (forall j :: 0 <= j < i ==> s[j] == 0) && (i < |s| ==> s[i] != 0)
  {
    i := 0;
    while i < |s| && s[i] == 0
      invariant i <= |s| && forall j :: 0 <= j < i ==> s[j] == 0
    {
      i := i + 1;
    }
  }

  /** The digits after `0x`; a literal of more than 18 characters has more than 16 of them. */
  method ParseHex(s: seq<nat>, unaryMinus: bool) returns (t: Token)
    requires Digits(16, s)
    ensures t == Expected(Num(16, s), unaryMinus)
  {
    Powers();
    if |s| + 2 > 18 {
      var i := LeadingZeros(s);
      SkipZeros(16, s, i);
      if |s| - i > 16 {
        LongIsLarge(16, s[i..], 16);
        return OutOfRange;
      }
      ShortIsSmall(16, s[i..], 16);
    } else {
      ShortIsSmall(16, s, 16);
    }
    t := Finish(16, s, unaryMinus);
  }

  /** The digits after `0`. */
  method ParseOct(s: seq<nat>, unaryMinus: bool) returns (t: Token)
    requires Digits(8, s)
    ensures t == Expected(Num(8, s), unaryMinus)
  {
    Powers();
    if |s| + 1 > 22 {
      var i := LeadingZeros(s);
      SkipZeros(8, s, i);
      if |s| - i > 22 || (|s| - i == 22 && s[i] != 1) {
        OctTooLarge(s[i..]);
        return OutOfRange;
      }
      OctFits(s[i..]);
    } else {
      ShortIsSmall(8, s, 21);
    }
    t := Finish(8, s, unaryMinus);
  }

  lemma OctTooLarge(s: seq<nat>)
    requires Digits(8, s) && s != [] && s[0] != 0 && (|s| > 22 || (|s| == 22 && s[0] != 1))
    ensures Num(8, s) > MAX_ABS_INTEGER
  {
    Powers();
    if |s| > 22 {
      LongIsLarge(8, s, 22);
    } else {
      FirstDigit(8, s);
      MulMonotone(Power(8, 21), 2, s[0]);
    }
  }

  lemma OctFits(s: seq<nat>)
    requires Digits(8, s) && (|s| <= 21 || (|s| == 22 && s[0] == 1))
    ensures Num(8, s) < TWO_TO_64
  {
    Powers();
    if |s| <= 21 {
      ShortIsSmall(8, s, 21);
    } else {
      FirstDigit(8, s);
    }
  }
}
