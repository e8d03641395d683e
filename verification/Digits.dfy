/** Decimal digit strings and the natural numbers they denote. */
module Digits {

  predicate IsDigit(c: char) {
    '0' <= c <= '9'
  }

  predicate AllDigits(s: string) {
    forall i :: 0 <= i < |s| ==> IsDigit(s[i])
  }

  type DigitString = s: string | AllDigits(s) witness ""

  function DigitValue(c: char): nat
    requires IsDigit(c)
  {
    c as int - '0' as int
  }

  function DigitChar(d: nat): (c: char)
    requires d < 10
    ensures IsDigit(c) && DigitValue(c) == d
  {
    ('0' as int + d) as char
  }

  /** The number a digit string denotes; the empty string denotes 0. */
  function NatOf(s: DigitString): nat {
    if s == "" then 0 else 10 * NatOf(s[..|s| - 1]) + DigitValue(s[|s| - 1])
  }

  function Pow10(n: nat): (r: nat)
    ensures r >= 1
  {
    if n == 0 then 1 else 10 * Pow10(n - 1)
  }

  /** The canonical decimal form of a number: no leading zero, except for "0" itself. */
  function Decimal(n: nat): (s: DigitString)
    ensures NatOf(s) == n
    ensures s != "" && (s[0] == '0' ==> s == "0")
  {
    if n < 10 then
      [DigitChar(n)]
    else
      var s: DigitString := Decimal(n / 10) + [DigitChar(n % 10)];
      assert s[..|s| - 1] == Decimal(n / 10);
      s
  }

  /** floor(x / y), by repeated subtraction so that no division of two variables reaches the solver. */
  function Quotient(x: nat, y: nat): nat
    requires y >= 1
  {
    if x < y then 0 else 1 + Quotient(x - y, y)
  }

  function Remainder(x: nat, y: nat): (r: nat)
    requires y >= 1
    ensures r < y
  {
    if x < y then x else Remainder(x - y, y)
  }

  lemma {:induction false} QuotientBounds(x: nat, y: nat)
    requires y >= 1
    ensures x == Quotient(x, y) * y + Remainder(x, y)
    ensures Quotient(x, y) * y <= x < (Quotient(x, y) + 1) * y
  {
    if x >= y {
      QuotientBounds(x - y, y);
      Distribute(Quotient(x - y, y), 1, y);
    }
    Distribute(Quotient(x, y), 1, y);
  }

  lemma Distribute(a: nat, b: nat, c: nat)
    ensures (a + b) * c == a * c + b * c
  {
  }

  lemma {:induction false} Pow10Sum(a: nat, b: nat)
    ensures Pow10(a + b) == Pow10(a) * Pow10(b)
  {
    if a > 0 {
      Pow10Sum(a - 1, b);
      TenTimes(Pow10(b), Pow10(a - 1));
    }
  }

  lemma {:induction false} Pow10Monotone(a: nat, b: nat)
    requires a <= b
    ensures Pow10(a) <= Pow10(b)
    ensures a < b ==> 10 * Pow10(a) <= Pow10(b)
  {
    if a < b {
      Pow10Monotone(a, b - 1);
    }
  }

  lemma TenTimes(x: nat, y: nat)
    ensures 10 * (x * y) == x * (10 * y)
  {
  }

  lemma {:induction false} NatOfConcat(a: DigitString, b: DigitString)
    ensures AllDigits(a + b)
    ensures NatOf(a + b) == NatOf(a) * Pow10(|b|) + NatOf(b)
  {
    if b == "" {
      assert a + b == a;
    } else {
      var b' := b[..|b| - 1];
      assert (a + b)[..|a + b| - 1] == a + b';
      NatOfConcat(a, b');
      assert (a + b)[|a + b| - 1] == b[|b| - 1];
      assert Pow10(|b|) == 10 * Pow10(|b'|);
      hide *;
      TenTimes(NatOf(a), Pow10(|b'|));
    }
  }

  lemma {:induction false} NatOfBound(s: DigitString)
    ensures NatOf(s) < Pow10(|s|)
  {
    if s != "" { NatOfBound(s[..|s| - 1]); }
  }

  /** A number whose first digit is not zero needs every one of its digits. */
  lemma {:induction false} NatOfLower(s: DigitString)
    requires s != "" && s[0] != '0'
    ensures NatOf(s) >= Pow10(|s| - 1)
  {
    if |s| == 1 {
      assert s[..0] == "";
    } else {
      NatOfLower(s[..|s| - 1]);
    }
  }

  lemma {:induction false} NatOfFirst(s: DigitString)
    requires s != ""
    ensures NatOf(s) == DigitValue(s[0]) * Pow10(|s| - 1) + NatOf(s[1..])
  {
    assert s == s[..1] + s[1..];
    NatOfConcat(s[..1], s[1..]);
    assert s[..1][..0] == "";
    assert NatOf(s[..1]) == DigitValue(s[0]);
  }

  /** Length of a canonical number: n fits k digits iff n < 10^k. */
  lemma DecimalLength(n: nat, k: nat)
    requires k >= 1
    ensures |Decimal(n)| <= k <==> n < Pow10(k)
  {
    var s := Decimal(n);
    NatOfBound(s);
    if |s| <= k {
      Pow10Monotone(|s|, k);
    } else {
      NatOfLower(s);
      Pow10Monotone(k, |s| - 1);
    }
  }

  lemma MulStrict(a: nat, b: nat, c: nat)
    requires c > 0 && a < b
    ensures a * c < b * c
  {
    var d := b - a;
    assert b * c == a * c + d * c;
    assert d * c >= c by { assert (d - 1) * c >= 0; }
  }

  /** Multiplication by a positive number keeps and reflects the order. */
  lemma MulCancel(a: nat, b: nat, c: nat)
    requires c > 0
    ensures a * c == b * c <==> a == b
    ensures a * c < b * c <==> a < b
    ensures a * c <= b * c <==> a <= b
  {
    if a < b {
      MulStrict(a, b, c);
    } else if b < a {
      MulStrict(b, a, c);
    }
  }

  /** x/y <= z/w. */
  predicate FractionAtMost(x: nat, y: nat, z: nat, w: nat) {
    x * w <= z * y
  }

  /** Ordered fractions have ordered integer parts. */
  lemma FloorMonotone(x: nat, y: nat, z: nat, w: nat)
    requires y >= 1 && w >= 1
    requires FractionAtMost(x, y, z, w)
    ensures Quotient(x, y) <= Quotient(z, w)
  {
    var p, q := Quotient(x, y), Quotient(z, w);
    QuotientBounds(x, y);
    QuotientBounds(z, w);
    MulCancel(p * y, x, w);          // p * y * w <= x * w
    MulCancel(z, (q + 1) * w, y);    // z * y < (q + 1) * w * y
    Rotate(p, y, w);
    Rotate(q + 1, w, y);
    MulCancel(p, q + 1, y * w);
  }

  lemma Rotate(a: nat, b: nat, c: nat)
    ensures a * b * c == a * (b * c) == a * (c * b)
    ensures b >= 1 && c >= 1 ==> b * c >= 1
  {
  }

  lemma FloorUnique(x: nat, y: nat, q: nat, r: nat)
    requires y >= 1 && r < y && x == q * y + r
    ensures Quotient(x, y) == q && Remainder(x, y) == r
  {
    var p := Quotient(x, y);
    QuotientBounds(x, y);
    Distribute(q, 1, y);
    MulCancel(p, q + 1, y);
    MulCancel(q, p + 1, y);
  }

  /** The w-digit form of a number, with leading zeros. */
  function FixedDigits(n: nat, w: nat): (s: DigitString)
    ensures |s| == w
  {
    if w == 0 then "" else FixedDigits(n / 10, w - 1) + [DigitChar(n % 10)]
  }

  lemma {:induction false} FixedDigitsValue(n: nat, w: nat)
    requires n < Pow10(w)
    ensures NatOf(FixedDigits(n, w)) == n
  {
    if w > 0 {
      FixedDigitsValue(n / 10, w - 1);
      hide Pow10;
      var s := FixedDigits(n, w);
      assert s[..w - 1] == FixedDigits(n / 10, w - 1);
    }
  }

  /** Digit strings of one length are determined by their value. */
  lemma {:induction false} SameLengthUnique(a: DigitString, b: DigitString)
    requires |a| == |b| && NatOf(a) == NatOf(b)
    ensures a == b
  {
    if a != "" {
      var n := |a| - 1;
      SameLengthUnique(a[..n], b[..n]);
      assert a == a[..n] + [a[n]] && b == b[..n] + [b[n]];
    }
  }

  predicate Canonical(s: DigitString) {
    s != "" && (|s| >= 2 ==> s[0] != '0')
  }

  /** Canonical digit strings are determined by their value. */
  lemma CanonicalUnique(a: DigitString, b: DigitString)
    requires Canonical(a) && Canonical(b) && NatOf(a) == NatOf(b)
    ensures a == b
  {
    if |a| < |b| {
      LongerIsLarger(a, b);
    } else if |b| < |a| {
      LongerIsLarger(b, a);
    } else {
      SameLengthUnique(a, b);
    }
  }

  lemma LongerIsLarger(a: DigitString, b: DigitString)
    requires |a| < |b| && Canonical(a) && Canonical(b)
    ensures NatOf(a) < NatOf(b)
  {
    NatOfBound(a);
    NatOfLower(b);
    Pow10Monotone(|a|, |b| - 1);
  }
}
