/** Decimal types DECIMAL(p,s) and the text-only arithmetic on decimal values (src/lib/decimal-type.ts). */
module DecimalType {
  import opened Wrappers
  import opened Digits

  const MAX_PRECISION: nat := 38

  datatype Spec = Spec(precision: nat, scale: nat)

  const LEGACY := Spec(18, 4)

  /** The three groups of the value pattern: sign, integer digits, fraction digits. */
  datatype Parts = Parts(negative: bool, whole: DigitString, frac: DigitString)

  // ------------------------------------------------------------------ reading a value

  /** White space as the program's trim and \s understand it. */
  predicate IsSpace(c: char) {
    || c == ' ' || '\t' <= c <= '\r' || c == '\U{00A0}' || c == '\U{1680}' || '\U{2000}' <= c <= '\U{200A}'
    || c == '\U{2028}' || c == '\U{2029}' || c == '\U{202F}' || c == '\U{205F}' || c == '\U{3000}' || c == '\U{FEFF}'
  }

  function SkipSpaces(s: string): (r: string)
    ensures r != "" ==> !IsSpace(r[0])
    ensures |r| <= |s| && s[|s| - |r|..] == r
  {
    if s != "" && IsSpace(s[0]) then SkipSpaces(s[1..]) else s
  }

  function TrimEnd(s: string): (r: string)
    ensures r != "" ==> !IsSpace(r[|r| - 1])
    ensures r <= s
  {
    if s != "" && IsSpace(s[|s| - 1]) then TrimEnd(s[..|s| - 1]) else s
  }

  function Trim(s: string): (r: string)
    ensures r != "" ==> !IsSpace(r[0]) && !IsSpace(r[|r| - 1])
  {
    TrimEnd(SkipSpaces(s))
  }

  /** Number of digits at the front of s. */
  function DigitRun(s: string): (n: nat)
    ensures n <= |s| && AllDigits(s[..n])
    ensures n < |s| ==> !IsDigit(s[n])
  {
    if s == "" || !IsDigit(s[0]) then 0 else
      var n := DigitRun(s[1..]);
      assert s[..n + 1] == [s[0]] + s[1..][..n];
      n + 1
  }

  /** The value pattern: an optional sign, digits, and optionally a dot with more digits. */
  function Match(t: string): Option<Parts> {
    var signed := t != "" && (t[0] == '-' || t[0] == '+');
    var u := if signed then t[1..] else t;
    var negative := signed && t[0] == '-';
    var n := DigitRun(u);
    if n == |u| then Some(Parts(negative, u[..n], ""))
    else if u[n] == '.' && AllDigits(u[n + 1..]) then Some(Parts(negative, u[..n], u[n + 1..]))
    else None
  }

  /** The parts of a well-formed value: at least one digit on either side of the dot. */
  function Read(v: string): Option<Parts> {
    match Match(Trim(v))
    case Some(p) => if p.whole == "" && p.frac == "" then None else Some(p)
    case None => None
  }

  predicate WellFormed(v: string) {
    Read(v).Some?
  }

  // ------------------------------------------------------------------ the number a value denotes

  /** |v| * 10^(number of fraction digits). */
  function Magnitude(p: Parts): nat {
    NatOf(p.whole) * Pow10(|p.frac|) + NatOf(p.frac)
  }

  function SignedMagnitude(p: Parts): int {
    var m: int := Magnitude(p);
    if p.negative then -m else m
  }

  /** a <= b as numbers: SignedMagnitude(a) / 10^|a.frac| <= SignedMagnitude(b) / 10^|b.frac|. */
  predicate NumericallyAtMost(a: Parts, b: Parts) {
    SignedMagnitude(a) * Pow10(|b.frac|) <= SignedMagnitude(b) * Pow10(|a.frac|)
  }

  predicate NumericallyEqual(a: Parts, b: Parts) {
    SignedMagnitude(a) * Pow10(|b.frac|) == SignedMagnitude(b) * Pow10(|a.frac|)
  }

  /** |v| * 10^s == k. */
  predicate IsScaledTo(p: Parts, s: nat, k: nat) {
    Magnitude(p) * Pow10(s) == k * Pow10(|p.frac|)
  }

  /** v * 10^scale is an integer of magnitude below 10^precision. */
  ghost predicate Representable(p: Parts, spec: Spec) {
    exists k: nat :: IsScaledTo(p, spec.scale, k) && k < Pow10(spec.precision)
  }

  /** floor(|v| * 10^s + 1/2), the half-up rounding of the scaled magnitude. */
  function HalfUp(p: Parts, s: nat): nat {
    Quotient(2 * (Magnitude(p) * Pow10(s)) + Pow10(|p.frac|), 2 * Pow10(|p.frac|))
  }

  // ------------------------------------------------------------------ the program's functions

  /** replace(/^0+(?=\d)/, ""): leading zeros go, but the last digit stays. */
  function DropLeadingZeros(s: DigitString): (r: DigitString)
    ensures |r| <= |s| && (s == "" <==> r == "")
    ensures |r| >= 2 ==> r[0] != '0'
  {
    if |s| >= 2 && s[0] == '0' then DropLeadingZeros(s[1..]) else s
  }

  /** replace(/0+$/, ""). */
  function DropTrailingZeros(s: DigitString): (r: DigitString)
    ensures r <= s
    ensures r != "" ==> r[|r| - 1] != '0'
  {
    if s != "" && s[|s| - 1] == '0' then DropTrailingZeros(s[..|s| - 1]) else s
  }

  predicate DecimalFits(v: string, spec: Spec) {
    match Read(v)
    case None => false
    case Some(p) =>
      |DropTrailingZeros(p.frac)| <= spec.scale && |DropLeadingZeros(p.whole)| <= spec.precision - spec.scale
  }

  /** Smallest DECIMAL(p,s) that holds every value; None when a value is malformed or 38 digits are not enough. */
  method FitDecimal(values: seq<string>) returns (r: Option<Spec>)
    ensures r.Some? ==> Holds(r.value, values) && HasWholeDigit(r.value) && r.value.precision <= MAX_PRECISION
    ensures r.Some? ==> forall o: Spec :: HasWholeDigit(o) && Holds(o, values) ==>
      r.value.scale <= o.scale && r.value.precision - r.value.scale <= o.precision - o.scale
    ensures r.None? <==> (exists v :: v in values && !WellFormed(v))
                         || !exists o: Spec :: HasWholeDigit(o) && o.precision <= MAX_PRECISION && Holds(o, values)
  {
    var intDigits: nat, scale: nat := 1, 0;
    for n := 0 to |values|
      invariant intDigits >= 1
      invariant Holds(Spec(intDigits + scale, scale), values[..n])
      invariant forall o: Spec :: HasWholeDigit(o) && Holds(o, values[..n]) ==> scale <= o.scale && intDigits <= o.precision - o.scale
    {
      var m := Match(Trim(values[n]));
      if m.None? || (m.value.whole == "" && m.value.frac == "") {
        assert !WellFormed(values[n]) && values[n] in values;
        return None;
      }
      var i := if DropLeadingZeros(m.value.whole) == "" then 1 else |DropLeadingZeros(m.value.whole)|;
      var f := |DropTrailingZeros(m.value.frac)|;
      ghost var before := Spec(intDigits + scale, scale);
      intDigits := if i > intDigits then i else intDigits;
      scale := if f > scale then f else scale;
      HoldsWider(before, Spec(intDigits + scale, scale), values[..n]);
      HoldsOneMore(values, n, i, f, Spec(intDigits + scale, scale));
      forall o: Spec | HasWholeDigit(o) && Holds(o, values[..n + 1])
        ensures scale <= o.scale && intDigits <= o.precision - o.scale
      {
        HoldsOneMore(values, n, i, f, o);
      }
    }
    assert values[..|values|] == values;
    r := if intDigits + scale > MAX_PRECISION then None else Some(Spec(intDigits + scale, scale));
    assert r.Some? ==> HasWholeDigit(r.value) && Holds(r.value, values);
  }

  /** A type with a whole digit holds one more value iff it has the whole and fraction digits that value needs. */
  lemma HoldsOneMore(values: seq<string>, n: nat, i: nat, f: nat, o: Spec)
    requires n < |values| && WellFormed(values[n]) && HasWholeDigit(o)
    requires var p := Read(values[n]).value;
      f == |DropTrailingZeros(p.frac)| && i == if DropLeadingZeros(p.whole) == "" then 1 else |DropLeadingZeros(p.whole)|
    ensures Holds(o, values[..n + 1]) <==> Holds(o, values[..n]) && f <= o.scale && i <= o.precision - o.scale
  {
    hide Trim, Match, DropLeadingZeros, DropTrailingZeros;
    assert DecimalFits(values[n], o) <==> f <= o.scale && i <= o.precision - o.scale;
    assert values[..n + 1][n] == values[n];
    assert forall j :: 0 <= j < n ==> values[..n + 1][j] == values[..n][j];
  }

  lemma HoldsWider(o: Spec, wider: Spec, values: seq<string>)
    requires o.scale <= wider.scale && o.precision - o.scale <= wider.precision - wider.scale
    requires Holds(o, values)
    ensures Holds(wider, values)
  {
  }

  predicate HasWholeDigit(spec: Spec) {
    spec.precision > spec.scale
  }

  predicate Holds(spec: Spec, values: seq<string>) {
    forall i :: 0 <= i < |values| ==> DecimalFits(values[i], spec)
  }

  function PadStart(s: string, n: nat, c: char): (r: string)
    ensures |r| == if |s| >= n then |s| else n
    decreases n - |s|
  {
    if |s| >= n then s else PadStart([c] + s, n, c)
  }

  function PlainText(negative: bool, whole: string, frac: string): string {
    var sign := if negative then "-" else "";
    if frac != "" then sign + whole + "." + frac else sign + whole
  }

  /** The text of k / 10^s with exactly s fraction digits. */
  function ScaledText(negative: bool, k: nat, s: nat): string {
    PlainText(negative, Decimal(Quotient(k, Pow10(s))), FixedDigits(Remainder(k, Pow10(s)), s))
  }

  /**
   * What legacy rounding means: a value with few enough fraction digits is kept as written when it fits; any other is
   * replaced by the text of its half-up rounding, unless that has too many digits.
   */
  function LegacyRound(v: string, spec: Spec): Option<string> {
    var m := Match(Trim(v));
    if m.None? then None
    else if |m.value.frac| <= spec.scale then
      if DecimalFits(v, spec) then Some(Trim(v)) else None
    else
      RoundLong(m.value, spec)
  }

  function RoundLong(p: Parts, spec: Spec): Option<string> {
    var k := HalfUp(p, spec.scale);
    if HasWholeDigit(spec) && k < Pow10(spec.precision) then Some(ScaledText(p.negative, k, spec.scale)) else None
  }

  /** Rounds half up, on digit strings, a value with more fraction digits than the type keeps; None when it overflows. */
  method LegacyRoundDecimal(value: string, spec: Spec) returns (r: Option<string>)
    ensures r == LegacyRound(value, spec)
  {
    hide Trim, Match, NatOf, Pow10, HalfUp, DecimalFits, RoundLong;
    var m := Match(Trim(value));
    if m.None? { return None; }
    var p := m.value;
    var sign := if p.negative then "-" else "";
    if |p.frac| <= spec.scale {
      return if DecimalFits(value, spec) then Some(Trim(value)) else None;
    }
    var intPart: DigitString := "0";
    if p.whole != "" { intPart := p.whole; }
    var keep: DigitString := p.frac[..spec.scale];
    var roundUp := p.frac[spec.scale] >= '5';
    KeptDigits(p, intPart, spec.scale);
    var digits := NatOf(intPart + keep) + (if roundUp then 1 else 0);
    r := PlaceDot(p, sign, digits, spec);
  }

  /** The second half of the rounding: the rounded digits become text again, unless they overflow the type. */
  method PlaceDot(p: Parts, sign: string, digits: nat, spec: Spec) returns (r: Option<string>)
    requires sign == (if p.negative then "-" else "") && digits == HalfUp(p, spec.scale)
    ensures r == RoundLong(p, spec)
  {
    hide Trim, Match, NatOf, Pow10, HalfUp, Decimal, DecimalFits, PadStart, RoundLong;
    var digitsStr: DigitString := Decimal(digits);
    if |digitsStr| <= spec.scale {
      PadStartDigits(digitsStr, spec.scale + 1);
      digitsStr := PadStart(digitsStr, spec.scale + 1, '0');
    }
    var cut := |digitsStr| - spec.scale;
    RoundedText(p, digitsStr, spec);
    var newIntPart := if cut == 0 then "0" else digitsStr[..cut];
    var newFrac := if spec.scale > 0 then digitsStr[cut..] else "";
    if |newIntPart| > spec.precision - spec.scale { return None; }
    var result := if spec.scale > 0 then sign + newIntPart + "." + newFrac else sign + newIntPart;
    assert result == PlainText(p.negative, digitsStr[..cut], digitsStr[cut..]);
    r := if DecimalFits(result, spec) then Some(result) else None;
  }

  // ------------------------------------------------------------------ the type's name

  predicate Legal(spec: Spec) {
    1 <= spec.precision <= MAX_PRECISION && spec.scale <= spec.precision
  }

  function Upper(c: char): char {
    if 'a' <= c <= 'z' then c - 'a' + 'A' else c
  }

  /** The text after DECIMAL or NUMERIC in any letter case, with leading spaces skipped on both sides. */
  function AfterKeyword(t: string): Option<string> {
    var u := SkipSpaces(t);
    if |u| < 7 then None else
      var word := seq(7, i requires 0 <= i < 7 => Upper(u[i]));
      if word == "DECIMAL" || word == "NUMERIC" then Some(SkipSpaces(u[7..])) else None
  }

  /** A number of one to three digits and the text that follows it, spaces skipped on both sides. */
  function ShortNumber(t: string): Option<(nat, string)> {
    var u := SkipSpaces(t);
    var n := DigitRun(u);
    if 1 <= n <= 3 then Some((NatOf(u[..n]), SkipSpaces(u[n..]))) else None
  }

  /** The two numbers of "(p,s)" with nothing after it. */
  function Parameters(t: string): Option<(nat, nat)> {
    if t == "" || t[0] != '(' then None else
      var p := ShortNumber(t[1..]);
      if p.None? || p.value.1 == "" || p.value.1[0] != ',' then None else
        var s := ShortNumber(p.value.1[1..]);
        if s.None? || s.value.1 == "" || s.value.1[0] != ')' || SkipSpaces(s.value.1[1..]) != "" then None
        else Some((p.value.0, s.value.0))
  }

  /** DECIMAL(p,s) to its specification; a bare DECIMAL is the legacy type; anything else is None. */
  function ParseDecimalType(sqlType: string): (r: Option<Spec>)
    ensures r.Some? ==> Legal(r.value)
  {
    var rest := AfterKeyword(sqlType);
    if rest.None? then None
    else if rest.value == "" then Some(LEGACY)
    else
      var m := Parameters(rest.value);
      if m.None? || m.value.0 < 1 || m.value.0 > MAX_PRECISION || m.value.1 > m.value.0 then None
      else Some(Spec(m.value.0, m.value.1))
  }

  function FormatDecimalType(spec: Spec): string {
    "DECIMAL(" + (Decimal(spec.precision) + ("," + (Decimal(spec.scale) + ")")))
  }

  // ------------------------------------------------------------------ steps of the rounding

  /** The digits that stay when all but s fraction digits are dropped, as one number. */
  function Kept(p: Parts, s: nat): nat
    requires s <= |p.frac|
  {
    NatOf(p.whole) * Pow10(s) + NatOf(p.frac[..s])
  }

  lemma KeptDigits(p: Parts, intPart: DigitString, s: nat)
    requires s < |p.frac|
    requires intPart == if p.whole == "" then "0" else p.whole
    ensures AllDigits(intPart + p.frac[..s])
    ensures HalfUp(p, s) == NatOf(intPart + p.frac[..s]) + if p.frac[s] >= '5' then 1 else 0
  {
    RoundUpIsHalfUp(p, s);
    NatOfConcat(intPart, p.frac[..s]);
    assert "0"[..0] == "";
    assert NatOf(intPart) == NatOf(p.whole);
  }

  /** Rounding on the first dropped digit is floor(|v| * 10^s + 1/2). */
  lemma RoundUpIsHalfUp(p: Parts, s: nat)
    requires |p.frac| > s
    ensures HalfUp(p, s) == Kept(p, s) + if p.frac[s] >= '5' then 1 else 0
  {
    var rest: DigitString := p.frac[s..];
    SplitMagnitude(p, s);
    FirstDigitDecides(rest);
    NatOfBound(rest);
    Pow10Sum(|rest|, s);
    HalfUpQuotient(Magnitude(p), Kept(p, s), NatOf(rest), Pow10(|rest|), Pow10(s), Pow10(|p.frac|));
  }

  /** Dropped digits are at least half of a unit iff the first of them is at least 5. */
  lemma FirstDigitDecides(rest: DigitString)
    requires rest != ""
    ensures 2 * NatOf(rest) >= Pow10(|rest|) <==> rest[0] >= '5'
  {
    NatOfFirst(rest);
    NatOfBound(rest[1..]);
    RoundUpIffHalf(DigitValue(rest[0]), Pow10(|rest| - 1), NatOf(rest[1..]));
  }

  /** floor((K + R/A) + 1/2) with everything scaled by 2 * A * B. */
  lemma HalfUpQuotient(M: nat, K: nat, R: nat, A: nat, B: nat, F: nat)
    requires R < A && B >= 1 && F >= 1
    requires M == K * A + R && F == A * B
    ensures Quotient(2 * (M * B) + F, 2 * F) == K + if 2 * R >= A then 1 else 0
  {
    hide *;
    var up := if 2 * R >= A then 1 else 0;
    var r := 2 * R + A - up * (2 * A);
    HalfUpArithmetic(M, K, R, A, B, F, up, r);
    FloorUnique(2 * (M * B) + F, 2 * F, K + up, r * B);
  }

  /** A number R = d * U + t below 10 * U is at least half of 10 * U iff its leading digit d is at least 5. */
  lemma RoundUpIffHalf(d: nat, U: nat, t: nat)
    requires t < U
    ensures 2 * (d * U + t) >= 10 * U <==> d >= 5
  {
    if d >= 5 { MulAtLeast(d, 5, U); } else { MulAtLeast(4, d, U); }
  }

  lemma MulAtLeast(a: nat, b: nat, c: nat)
    requires a >= b
    ensures a * c >= b * c
  {
  }

  lemma HalfUpArithmetic(M: nat, K: nat, R: nat, A: nat, B: nat, F: nat, up: nat, r: nat)
    requires up <= 1 && r + up * (2 * A) == 2 * R + A
    requires M == K * A + R && F == A * B
    ensures 2 * (M * B) + F == (K + up) * (2 * F) + r * B
    ensures B >= 1 && r < 2 * A ==> r * B < 2 * F
  {
    assert M * B == K * F + R * B by {
      Distribute(K * A, R, B);
      Rotate(K, A, B);
    }
    assert (K + up) * (2 * F) == 2 * (K * F) + up * (2 * F) by {
      Distribute(K, up, 2 * F);
      Twice(K, F);
    }
    assert r * B + up * (2 * F) == 2 * (R * B) + F by {
      Twice(B, R);
      Distribute(2 * R, A, B);
      if up == 1 {
        Distribute(r, 2 * A, B);
        Twice(B, A);
      }
    }
    if B >= 1 {
      MulCancel(r, 2 * A, B);
      Twice(B, A);
    }
  }

  lemma Twice(a: nat, b: nat)
    ensures a * (2 * b) == 2 * (a * b) == (2 * b) * a
  {
  }

  lemma SplitArithmetic(w: nat, a: nat, b: nat, k: nat)
    ensures (w * a + k) * b == w * (a * b) + k * b
  {
    Distribute(w * a, k, b);
  }

  lemma SplitMagnitude(p: Parts, s: nat)
    requires s <= |p.frac|
    ensures Magnitude(p) == Kept(p, s) * Pow10(|p.frac| - s) + NatOf(p.frac[s..])
  {
    var keep: DigitString, rest: DigitString := p.frac[..s], p.frac[s..];
    assert p.frac == keep + rest;
    NatOfConcat(keep, rest);
    Pow10Sum(s, |rest|);
    SplitArithmetic(NatOf(p.whole), Pow10(s), Pow10(|rest|), NatOf(keep));
  }

  lemma {:induction false} PadStartDigits(s: DigitString, n: nat)
    requires |s| <= n
    ensures AllDigits(PadStart(s, n, '0')) && |PadStart(s, n, '0')| == n && NatOf(PadStart(s, n, '0')) == NatOf(s)
    ensures |s| < n ==> PadStart(s, n, '0')[0] == '0'
    decreases n - |s|
  {
    if |s| < n {
      var t: DigitString := ['0'] + s;
      NatOfFirst(t);
      assert t[1..] == s;
      PadStartDigits(t, n);
    }
  }

  /** Cutting s digits off the end is division by 10^s. */
  lemma SplitDigits(n: nat, ds: string, s: nat)
    requires AllDigits(ds) && NatOf(ds) == n
    requires |ds| > s && (|ds| > s + 1 ==> ds[0] != '0')
    ensures ds[..|ds| - s] == Decimal(Quotient(n, Pow10(s)))
    ensures ds[|ds| - s..] == FixedDigits(Remainder(n, Pow10(s)), s)
  {
    var a: DigitString, b: DigitString := ds[..|ds| - s], ds[|ds| - s..];
    assert ds == a + b;
    NatOfConcat(a, b);
    NatOfBound(b);
    FloorUnique(n, Pow10(s), NatOf(a), NatOf(b));
    assert Remainder(n, Pow10(s)) == NatOf(b);
    CanonicalUnique(a, Decimal(Quotient(n, Pow10(s))));
    FixedDigitsValue(NatOf(b), s);
    SameLengthUnique(b, FixedDigits(Remainder(n, Pow10(s)), s));
  }

  /** The whole part of n / 10^s fits the type iff n does. */
  lemma WholeDigits(n: nat, spec: Spec)
    ensures |Decimal(Quotient(n, Pow10(spec.scale)))| <= spec.precision - spec.scale
            <==> HasWholeDigit(spec) && n < Pow10(spec.precision)
  {
    var s := spec.scale;
    if HasWholeDigit(spec) {
      var k := spec.precision - s;
      DecimalLength(Quotient(n, Pow10(s)), k);
      Pow10Sum(k, s);
      DivBelow(n, Pow10(s), Pow10(k));
    }
  }

  /** Rounding a long value, given its rounded digits ds: the text cut from ds, or None when ds is longer than the type. */
  lemma RoundedText(p: Parts, ds: DigitString, spec: Spec)
    requires |ds| > spec.scale && (|ds| > spec.scale + 1 ==> ds[0] != '0')
    requires NatOf(ds) == HalfUp(p, spec.scale)
    ensures |ds| > spec.precision ==> RoundLong(p, spec) == None
    ensures |ds| <= spec.precision
            ==> RoundLong(p, spec) == Some(PlainText(p.negative, ds[..|ds| - spec.scale], ds[|ds| - spec.scale..]))
    ensures |ds| <= spec.precision
            ==> DecimalFits(PlainText(p.negative, ds[..|ds| - spec.scale], ds[|ds| - spec.scale..]), spec)
  {
    hide Trim, Match, NatOf, Pow10, HalfUp, Decimal, FixedDigits, Quotient, Remainder, PlainText;
    var k, whole: DigitString, frac: DigitString := NatOf(ds), ds[..|ds| - spec.scale], ds[|ds| - spec.scale..];
    SplitDigits(k, ds, spec.scale);
    WholeDigits(k, spec);
    ReadPlainText(p.negative, whole, frac);
  }

  lemma DivBelow(n: nat, d: nat, b: nat)
    requires d >= 1
    ensures Quotient(n, d) < b <==> n < b * d
  {
    var q := Quotient(n, d);
    QuotientBounds(n, d);
    if q < b { MulCancel(q + 1, b, d); } else { MulCancel(b, q, d); }
  }

  lemma {:induction false} DigitRunOf(a: DigitString, rest: string)
    requires rest == "" || !IsDigit(rest[0])
    ensures DigitRun(a + rest) == |a|
  {
    if a == "" {
      assert a + rest == rest;
    } else {
      assert (a + rest)[1..] == a[1..] + rest;
      DigitRunOf(a[1..], rest);
    }
  }

  lemma TrimUnchanged(s: string)
    requires s != "" ==> !IsSpace(s[0]) && !IsSpace(s[|s| - 1])
    ensures Trim(s) == s
  {
  }

  /** A plain text is matched group by group. */
  lemma MatchPlainText(negative: bool, whole: DigitString, frac: DigitString)
    requires whole != ""
    ensures Match(PlainText(negative, whole, frac)) == Some(Parts(negative, whole, frac))
  {
    hide AllDigits, DigitRun;
    var u: string := if frac != "" then whole + "." + frac else whole;
    var t := PlainText(negative, whole, frac);
    MatchUnsigned(whole, frac);
    assert t == (if negative then "-" else "") + u;
    if negative {
      assert t[1..] == u;
    } else {
      assert t == u && t[0] == whole[0];
      FirstIsDigit(whole);
    }
  }

  lemma FirstIsDigit(s: DigitString)
    requires s != ""
    ensures IsDigit(s[0])
  {
  }

  lemma MatchUnsigned(whole: DigitString, frac: DigitString)
    ensures var u := if frac != "" then whole + "." + frac else whole;
      && DigitRun(u) == |whole| && u[..|whole|] == whole
      && (frac != "" ==> |whole| < |u| && u[|whole|] == '.' && u[|whole| + 1..] == frac)
  {
    var tail: string := if frac != "" then "." + frac else "";
    var u: string := if frac != "" then whole + "." + frac else whole;
    assert u == whole + tail;
    DigitRunOf(whole, tail);
  }

  lemma TrimPlainText(negative: bool, whole: DigitString, frac: DigitString)
    requires whole != ""
    ensures Trim(PlainText(negative, whole, frac)) == PlainText(negative, whole, frac)
  {
    var t := PlainText(negative, whole, frac);
    assert t[0] == if negative then '-' else whole[0];
    assert t[|t| - 1] == if frac != "" then frac[|frac| - 1] else whole[|whole| - 1];
    TrimUnchanged(t);
  }

  lemma ReadPlainText(negative: bool, whole: DigitString, frac: DigitString)
    requires whole != ""
    ensures Read(PlainText(negative, whole, frac)) == Some(Parts(negative, whole, frac))
  {
    MatchPlainText(negative, whole, frac);
    TrimPlainText(negative, whole, frac);
  }
}
