/** What the text arithmetic of DecimalType means for the numbers the texts denote. */
module DecimalTheorems {
  import opened Wrappers
  import opened Digits
  import opened DecimalType

  // ------------------------------------------------------------------ stripped zeros

  lemma {:induction false} LeadingZerosNeedDigits(s: DigitString, k: nat)
    requires s != "" && k >= 1
    ensures |DropLeadingZeros(s)| <= k <==> NatOf(s) < Pow10(k)
    decreases |s|
  {
    if |s| >= 2 && s[0] == '0' {
      NatOfFirst(s);
      LeadingZerosNeedDigits(s[1..], k);
    } else {
      NatOfBound(s);
      if |s| <= k {
        Pow10Monotone(|s|, k);
      } else {
        NatOfLower(s);
        Pow10Monotone(k, |s| - 1);
      }
    }
  }

  lemma {:induction false} TrailingZerosScale(s: DigitString)
    ensures NatOf(s) == NatOf(DropTrailingZeros(s)) * Pow10(|s| - |DropTrailingZeros(s)|)
    decreases |s|
  {
    if s != "" && s[|s| - 1] == '0' {
      var t: DigitString := s[..|s| - 1];
      TrailingZerosScale(t);
      var d := DropTrailingZeros(t);
      assert DropTrailingZeros(s) == d;
      TenTimes(NatOf(d), Pow10(|t| - |d|));
    }
  }

  lemma LastDigitNotZero(s: DigitString)
    requires s != "" && s[|s| - 1] != '0'
    ensures NatOf(s) % 10 != 0
  {
  }

  // ------------------------------------------------------------------ decimalFits

  /** |v| as (whole digits and stripped fraction digits) * 10^zeros. */
  lemma StripMagnitude(p: Parts)
    ensures var g := DropTrailingZeros(p.frac);
      && Magnitude(p) == (NatOf(p.whole) * Pow10(|g|) + NatOf(g)) * Pow10(|p.frac| - |g|)
      && Pow10(|p.frac|) == Pow10(|g|) * Pow10(|p.frac| - |g|)
  {
    hide NatOf, Pow10, DropTrailingZeros;
    var g := DropTrailingZeros(p.frac);
    TrailingZerosScale(p.frac);
    Pow10Sum(|g|, |p.frac| - |g|);
    SplitArithmetic(NatOf(p.whole), Pow10(|g|), Pow10(|p.frac| - |g|), NatOf(g));
    Distribute(NatOf(p.whole) * Pow10(|g|), NatOf(g), Pow10(|p.frac| - |g|));
  }

  /** The scaled integer of a value whose stripped fraction fits the scale. */
  function ScaledInteger(p: Parts, s: nat): nat
    requires |DropTrailingZeros(p.frac)| <= s
  {
    var g := DropTrailingZeros(p.frac);
    NatOf(p.whole) * Pow10(s) + NatOf(g) * Pow10(s - |g|)
  }

  lemma FractionFits(p: Parts, s: nat)
    requires |DropTrailingZeros(p.frac)| <= s
    ensures IsScaledTo(p, s, ScaledInteger(p, s))
    ensures forall k: nat :: IsScaledTo(p, s, k) ==> k == ScaledInteger(p, s)
  {
    var g := DropTrailingZeros(p.frac);
    StripMagnitude(p);
    Pow10Sum(|g|, s - |g|);
    FractionFitsArithmetic(NatOf(p.whole), NatOf(g), Pow10(|g|), Pow10(|p.frac| - |g|), Pow10(s - |g|), Magnitude(p),
                           Pow10(s), Pow10(|p.frac|), ScaledInteger(p, s));
    forall k: nat | IsScaledTo(p, s, k) ensures k == ScaledInteger(p, s) {
      MulCancel(k, ScaledInteger(p, s), Pow10(|p.frac|));
    }
  }

  lemma FractionFitsArithmetic(w: nat, g: nat, a: nat, z: nat, t: nat, M: nat, S: nat, F: nat, k: nat)
    requires M == (w * a + g) * z && S == a * t && F == a * z && k == w * S + g * t
    ensures M * S == k * F
  {
    // both sides are (w * a + g) * t * F
    var x := w * a + g;
    assert k == x * t by {
      Distribute(w * a, g, t);
      Rotate(w, a, t);
    }
    calc {
      M * S;
    ==  { Rotate(x, z, S); }
      x * (z * S);
    ==  { Rotate(z, a, t); Rotate(a, z, t); Rotate(t, a, z); assert z * S == t * F; }
      x * (t * F);
    ==  { Rotate(x, t, F); }
      k * F;
    }
  }

  /** A stripped fraction longer than the scale cannot be scaled to an integer. */
  lemma FractionTooLong(p: Parts, s: nat, k: nat)
    requires |DropTrailingZeros(p.frac)| > s
    ensures !IsScaledTo(p, s, k)
  {
    var g := DropTrailingZeros(p.frac);
    var i := p.whole;
    if IsScaledTo(p, s, k) {
      var x := NatOf(i) * Pow10(|g|) + NatOf(g);
      var z, c := Pow10(|p.frac| - |g|), |g| - s;
      StripMagnitude(p);
      Pow10Sum(s, c);
      assert x == k * Pow10(c) by {
        CancelTwice(x, z, Pow10(s), k, Pow10(c), Magnitude(p), Pow10(|p.frac|), Pow10(|g|));
      }
      LastDigitNotZero(g);
      NotMultipleOfTen(NatOf(i), |g|, NatOf(g), k, c);
      assert false;
    }
  }

  lemma CancelTwice(x: nat, z: nat, S: nat, k: nat, C: nat, M: nat, F: nat, G: nat)
    requires z >= 1 && S >= 1
    requires M == x * z && F == G * z && G == S * C && M * S == k * F
    ensures x == k * C
  {
    // x * z * S == k * (S * C * z)
    assert M * S == x * (z * S) by { Rotate(x, z, S); }
    assert k * F == (k * C) * (z * S) by {
      Rotate(S, C, z);
      Rotate(k, C, z * S);
      Rotate(C, z, S);
    }
    MulCancel(x, k * C, z * S);
    Rotate(1, z, S);
  }

  lemma NotMultipleOfTen(w: nat, n: nat, g: nat, k: nat, c: nat)
    requires n >= 1 && c >= 1 && g % 10 != 0
    ensures w * Pow10(n) + g != k * Pow10(c)
  {
    TenTimes(w, Pow10(n - 1));
    TenTimes(k, Pow10(c - 1));
    LastDigitsDiffer(w * Pow10(n - 1), k * Pow10(c - 1), g);
  }

  lemma LastDigitsDiffer(u: nat, v: nat, g: nat)
    requires g % 10 != 0
    ensures 10 * u + g != 10 * v
  {
    assert (10 * u + g) % 10 == g % 10;
    assert (10 * v) % 10 == 0;
  }

  /** The scaled integer is below 10^p iff the whole part is below 10^(p-s). */
  lemma ScaledIntegerBound(p: Parts, spec: Spec)
    requires |DropTrailingZeros(p.frac)| <= spec.scale <= spec.precision
    ensures ScaledInteger(p, spec.scale) < Pow10(spec.precision)
            <==> NatOf(p.whole) < Pow10(spec.precision - spec.scale)
  {
    var g, s, t := DropTrailingZeros(p.frac), spec.scale, spec.precision - spec.scale;
    NatOfBound(g);
    Pow10Sum(|g|, s - |g|);
    Pow10Sum(t, s);
    BoundArithmetic(NatOf(p.whole), Pow10(t), Pow10(s), NatOf(g), Pow10(|g|), Pow10(s - |g|));
  }

  lemma BoundArithmetic(w: nat, T: nat, S: nat, g: nat, G: nat, Z: nat)
    requires g < G && Z >= 1 && S == G * Z
    ensures w * S + g * Z < T * S <==> w < T
  {
    MulCancel(g, G, Z);
    if w < T {
      Distribute(w, 1, S);
      if w + 1 < T { MulCancel(w + 1, T, S); }
    } else {
      if T < w { MulCancel(T, w, S); }
    }
  }

  /**
   * decimalFits decides exact representability, except that a type without a whole digit refuses every value that
   * writes one: with precision == scale even the "0" of "0.5" counts, and with precision < scale nothing fits.
   */
  lemma FitsIffRepresentable(v: string, spec: Spec)
    ensures DecimalFits(v, spec) <==>
      && WellFormed(v) && Representable(Read(v).value, spec)
      && (HasWholeDigit(spec) || (spec.precision == spec.scale && Read(v).value.whole == ""))
  {
    hide Read, Pow10, IsScaledTo, ScaledInteger;
    var r := Read(v);
    if r.Some? {
      var p, s := r.value, spec.scale;
      if |DropTrailingZeros(p.frac)| <= s {
        FractionFits(p, s);
        if s <= spec.precision {
          ScaledIntegerBound(p, spec);
          if p.whole != "" && HasWholeDigit(spec) {
            LeadingZerosNeedDigits(p.whole, spec.precision - s);
          }
        }
      } else {
        forall k: nat ensures !IsScaledTo(p, s, k) {
          FractionTooLong(p, s, k);
        }
      }
    }
  }

  /** The edge in numbers: 0.5 is representable in DECIMAL(1,1), yet only the spelling without the zero is accepted. */
  lemma WholeDigitEdge()
    ensures Representable(Parts(false, "0", "5"), Spec(1, 1)) && Read("0.5") == Some(Parts(false, "0", "5"))
    ensures !DecimalFits("0.5", Spec(1, 1)) && DecimalFits(".5", Spec(1, 1))
  {
    hide Trim, Match;
    ReadPlainText(false, "0", "5");
    assert PlainText(false, "0", "5") == "0.5";
    ReadHalf(".5");
    assert IsScaledTo(Parts(false, "0", "5"), 1, 5) by { HalfScaled(); }
  }

  lemma ReadHalf(t: string)
    requires t == ".5"
    ensures Read(t) == Some(Parts(false, "", "5"))
  {
    hide Trim, Match;
    TrimUnchanged(t);
    MatchHalf(t);
  }

  lemma MatchHalf(t: string)
    requires t == ".5"
    ensures Match(t) == Some(Parts(false, "", "5"))
  {
    assert t[1..] == "5" && t[..0] == "";
  }

  lemma HalfScaled()
    ensures IsScaledTo(Parts(false, "0", "5"), 1, 5)
  {
    assert "5"[..0] == "" && "0"[..0] == "";
    assert NatOf("5") == 5 && NatOf("0") == 0;
    assert Pow10(1) == 10 * Pow10(0);
  }

  // ------------------------------------------------------------------ rounding

  /** HalfUp is the nearest integer to |v| * 10^s, ties away from zero: k - 1/2 <= |v| * 10^s < k + 1/2. */
  predicate IsNearest(p: Parts, s: nat, k: nat) {
    && 2 * k * Pow10(|p.frac|) <= 2 * (Magnitude(p) * Pow10(s)) + Pow10(|p.frac|)
    && 2 * (Magnitude(p) * Pow10(s)) < 2 * k * Pow10(|p.frac|) + Pow10(|p.frac|)
  }

  lemma HalfUpIsNearest(p: Parts, s: nat, k: nat)
    ensures k == HalfUp(p, s) <==> IsNearest(p, s, k)
  {
    hide NatOf, Pow10, Quotient;
    NearestQuotient(Magnitude(p) * Pow10(s), Pow10(|p.frac|), k);
  }

  lemma NearestQuotient(x: nat, F: nat, k: nat)
    requires F >= 1
    ensures k == Quotient(2 * x + F, 2 * F) <==> 2 * k * F <= 2 * x + F && 2 * x < 2 * k * F + F
  {
    hide *;
    var q := Quotient(2 * x + F, 2 * F);
    QuotientBounds(2 * x + F, 2 * F);
    assert q * (2 * F) == 2 * q * F && (q + 1) * (2 * F) == 2 * q * F + 2 * F by {
      Distribute(q, 1, 2 * F);
      Twice(q, F);
      Rotate(2, q, F);
    }
    assert k * (2 * F) == 2 * k * F by {
      Twice(k, F);
      Rotate(2, k, F);
    }
    if 2 * k * F <= 2 * x + F && 2 * x < 2 * k * F + F {
      FloorUnique(2 * x + F, 2 * F, k, 2 * x + F - 2 * k * F);
    }
  }

  /** An exactly scalable value rounds to its scaled integer. */
  lemma HalfUpOfExact(p: Parts, s: nat, k: nat)
    requires IsScaledTo(p, s, k)
    ensures HalfUp(p, s) == k
  {
    hide HalfUp;
    Rotate(2, k, Pow10(|p.frac|));
    HalfUpIsNearest(p, s, k);
  }

  lemma ShortFraction(p: Parts, s: nat)
    requires |p.frac| <= s
    ensures IsScaledTo(p, s, Magnitude(p) * Pow10(s - |p.frac|))
  {
    Pow10Sum(s - |p.frac|, |p.frac|);
    Rotate(Magnitude(p), Pow10(s - |p.frac|), Pow10(|p.frac|));
  }

  /**
   * The answer of legacy rounding on a type with a whole digit: refused exactly when the text is malformed or the
   * rounded integer has more than `precision` digits; otherwise the number HalfUp / 10^scale with the sign of v.
   */
  lemma LegacyRoundMeaning(v: string, spec: Spec)
    requires HasWholeDigit(spec)
    ensures LegacyRound(v, spec).None? <==> !WellFormed(v) || HalfUp(Read(v).value, spec.scale) >= Pow10(spec.precision)
    ensures LegacyRound(v, spec).Some? ==>
      var r := Read(LegacyRound(v, spec).value);
      && r.Some? && r.value.negative == Read(v).value.negative && |r.value.frac| <= spec.scale
      && IsScaledTo(r.value, spec.scale, HalfUp(Read(v).value, spec.scale))
  {
    var m, s := Match(Trim(v)), spec.scale;
    if m.Some? {
      var p := m.value;
      if |p.frac| <= s {
        LegacyRoundShort(v, p, spec);
      } else {
        assert Read(v) == Some(p);
        var k := HalfUp(p, s);
        RoundedTextMeaning(p.negative, k, s);
      }
    }
  }

  lemma LegacyRoundShort(v: string, p: Parts, spec: Spec)
    requires HasWholeDigit(spec) && Match(Trim(v)) == Some(p) && |p.frac| <= spec.scale
    ensures LegacyRound(v, spec).None? <==> !WellFormed(v) || HalfUp(p, spec.scale) >= Pow10(spec.precision)
    ensures LegacyRound(v, spec).Some?
            ==> Read(LegacyRound(v, spec).value) == Some(p) == Read(v) && IsScaledTo(p, spec.scale, HalfUp(p, spec.scale))
  {
    hide Trim, Match, Pow10, IsScaledTo, HalfUp, DecimalFits, Magnitude;
    var s := spec.scale;
    ShortFraction(p, s);
    HalfUpOfExact(p, s, Magnitude(p) * Pow10(s - |p.frac|));
    FitsIffRepresentable(v, spec);
    if WellFormed(v) {
      forall k: nat | IsScaledTo(p, s, k) ensures k == HalfUp(p, s) {
        HalfUpOfExact(p, s, k);
      }
      TrimTwice(v);
    }
  }

  lemma TrimTwice(v: string)
    ensures Trim(Trim(v)) == Trim(v)
  {
    TrimUnchanged(Trim(v));
  }

  lemma RoundedTextMeaning(negative: bool, k: nat, s: nat)
    ensures var r := Read(ScaledText(negative, k, s));
      && r.Some? && r.value.negative == negative && |r.value.frac| == s
      && IsScaledTo(r.value, s, k)
  {
    hide Trim, Match, Read, Quotient, Remainder;
    var q, r := Quotient(k, Pow10(s)), Remainder(k, Pow10(s));
    ReadPlainText(negative, Decimal(q), FixedDigits(r, s));
    FixedDigitsValue(r, s);
    QuotientBounds(k, Pow10(s));
  }

  /** Rounding a rounded value changes nothing, not even its text. */
  lemma LegacyRoundIdempotent(v: string, spec: Spec)
    requires LegacyRound(v, spec).Some?
    ensures LegacyRound(LegacyRound(v, spec).value, spec) == LegacyRound(v, spec)
  {
    hide Trim, Match, HalfUp, DecimalFits, ScaledText, Pow10;
    var p, s := Match(Trim(v)).value, spec.scale;
    if |p.frac| <= s {
      TrimTwice(v);
      FitsIgnoresTrim(v, spec);
    } else {
      RoundedIsFixed(p.negative, HalfUp(p, s), spec);
    }
  }

  lemma FitsIgnoresTrim(v: string, spec: Spec)
    ensures DecimalFits(Trim(v), spec) == DecimalFits(v, spec)
  {
    TrimTwice(v);
  }

  lemma RoundedIsFixed(negative: bool, k: nat, spec: Spec)
    requires HasWholeDigit(spec) && k < Pow10(spec.precision)
    ensures LegacyRound(ScaledText(negative, k, spec.scale), spec) == Some(ScaledText(negative, k, spec.scale))
  {
    hide Trim, Match, HalfUp, Pow10, PlainText, Quotient, Remainder;
    var s := spec.scale;
    var whole, frac := Decimal(Quotient(k, Pow10(s))), FixedDigits(Remainder(k, Pow10(s)), s);
    MatchPlainText(negative, whole, frac);
    TrimPlainText(negative, whole, frac);
    WholeDigits(k, spec);
    assert DecimalFits(PlainText(negative, whole, frac), spec);
  }

  /** A value that already fits the type is accepted and keeps its number. */
  lemma LegacyRoundPreserves(v: string, spec: Spec)
    requires HasWholeDigit(spec) && DecimalFits(v, spec)
    ensures LegacyRound(v, spec).Some?
    ensures Read(v).Some? && Read(LegacyRound(v, spec).value).Some?
    ensures NumericallyEqual(Read(LegacyRound(v, spec).value).value, Read(v).value)
  {
    hide *;
    FitsIffRepresentable(v, spec);
    LegacyRoundMeaning(v, spec);
    ReadIsWellFormed(v);
    var k := RoundsToScaledInteger(Read(v).value, spec);
    ReadIsWellFormed(LegacyRound(v, spec).value);
    SameScaled(Read(LegacyRound(v, spec).value).value, Read(v).value, spec.scale, k);
  }

  lemma RoundsToScaledInteger(p: Parts, spec: Spec) returns (k: nat)
    requires Representable(p, spec)
    ensures IsScaledTo(p, spec.scale, k) && HalfUp(p, spec.scale) == k < Pow10(spec.precision)
  {
    k :| IsScaledTo(p, spec.scale, k) && k < Pow10(spec.precision);
    HalfUpOfExact(p, spec.scale, k);
  }

  lemma SameScaled(a: Parts, b: Parts, s: nat, k: nat)
    requires a.negative == b.negative && IsScaledTo(a, s, k) && IsScaledTo(b, s, k)
    ensures NumericallyEqual(a, b)
  {
    EqualScaled(Magnitude(a), Magnitude(b), Pow10(s), k, Pow10(|a.frac|), Pow10(|b.frac|));
    NegMul(Magnitude(a), Pow10(|b.frac|));
    NegMul(Magnitude(b), Pow10(|a.frac|));
  }

  lemma EqualScaled(a: nat, b: nat, S: nat, k: nat, A: nat, B: nat)
    requires S >= 1 && a * S == k * A && b * S == k * B
    ensures a * B == b * A
  {
    assert a * B * S == k * A * B by { Rotate(a, B, S); Rotate(a, S, B); }
    assert b * A * S == k * B * A by { Rotate(b, A, S); Rotate(b, S, A); }
    Rotate(k, A, B);
    Rotate(k, B, A);
    MulCancel(a * B, b * A, S);
  }

  /** Legacy rounding keeps the numeric order of the values it accepts. */
  lemma LegacyRoundMonotone(v: string, w: string, spec: Spec)
    requires HasWholeDigit(spec) && LegacyRound(v, spec).Some? && LegacyRound(w, spec).Some?
    requires WellFormed(v) && WellFormed(w) && NumericallyAtMost(Read(v).value, Read(w).value)
    ensures WellFormed(LegacyRound(v, spec).value) && WellFormed(LegacyRound(w, spec).value)
    ensures NumericallyAtMost(Read(LegacyRound(v, spec).value).value, Read(LegacyRound(w, spec).value).value)
  {
    hide *;
    LegacyRoundMeaning(v, spec);
    LegacyRoundMeaning(w, spec);
    ReadIsWellFormed(v);
    ReadIsWellFormed(w);
    ReadIsWellFormed(LegacyRound(v, spec).value);
    ReadIsWellFormed(LegacyRound(w, spec).value);
    RoundingKeepsOrder(Read(v).value, Read(w).value, Read(LegacyRound(v, spec).value).value, Read(LegacyRound(w, spec).value).value, spec.scale);
  }

  lemma ReadIsWellFormed(v: string)
    ensures WellFormed(v) <==> Read(v).Some?
  {
  }

  lemma RoundingKeepsOrder(a: Parts, b: Parts, ra: Parts, rb: Parts, s: nat)
    requires NumericallyAtMost(a, b) && ra.negative == a.negative && rb.negative == b.negative
    requires IsScaledTo(ra, s, HalfUp(a, s)) && IsScaledTo(rb, s, HalfUp(b, s))
    ensures NumericallyAtMost(ra, rb)
  {
    if !a.negative && !b.negative {
      HalfUpMonotone(a, b, s);
      ScaledOrder(ra, rb, s, HalfUp(a, s), HalfUp(b, s));
    } else if a.negative && b.negative {
      Negated(a, b);
      HalfUpMonotone(b, a, s);
      ScaledOrder(rb, ra, s, HalfUp(b, s), HalfUp(a, s));
      Negated(ra, rb);
    } else if a.negative {
      SignsDecide(ra, rb);
    } else {
      ZeroMagnitudes(a, b);
      HalfUpOfZero(a, ra, s);
      HalfUpOfZero(b, rb, s);
    }
  }

  lemma Negated(a: Parts, b: Parts)
    requires a.negative && b.negative
    ensures NumericallyAtMost(a, b) <==> Magnitude(b) * Pow10(|a.frac|) <= Magnitude(a) * Pow10(|b.frac|)
  {
    NegMul(Magnitude(a), Pow10(|b.frac|));
    NegMul(Magnitude(b), Pow10(|a.frac|));
  }

  lemma NegMul(a: nat, b: nat)
    ensures (-(a as int)) * b == -(a * b) <= 0 <= a * b
  {
  }

  lemma SignsDecide(a: Parts, b: Parts)
    requires a.negative && !b.negative
    ensures NumericallyAtMost(a, b)
  {
    hide Magnitude, Pow10;
    NegMul(Magnitude(a), Pow10(|b.frac|));
    NegMul(Magnitude(b), Pow10(|a.frac|));
  }

  lemma ZeroMagnitudes(a: Parts, b: Parts)
    requires !a.negative && b.negative && NumericallyAtMost(a, b)
    ensures Magnitude(a) == 0 == Magnitude(b)
  {
    NegMul(Magnitude(b), Pow10(|a.frac|));
    MulCancel(0, Magnitude(a), Pow10(|b.frac|));
    MulCancel(0, Magnitude(b), Pow10(|a.frac|));
  }

  lemma HalfUpOfZero(p: Parts, r: Parts, s: nat)
    requires Magnitude(p) == 0 && IsScaledTo(r, s, HalfUp(p, s))
    ensures Magnitude(r) == 0
  {
    assert IsScaledTo(p, s, 0);
    HalfUpOfExact(p, s, 0);
    MulCancel(Magnitude(r), 0, Pow10(s));
  }

  lemma HalfUpMonotone(a: Parts, b: Parts, s: nat)
    requires FractionAtMost(Magnitude(a), Pow10(|a.frac|), Magnitude(b), Pow10(|b.frac|))
    ensures HalfUp(a, s) <= HalfUp(b, s)
  {
    hide NatOf, Pow10, Quotient, FractionAtMost;
    var x: nat, y: nat := 2 * (Magnitude(a) * Pow10(s)) + Pow10(|a.frac|), 2 * (Magnitude(b) * Pow10(s)) + Pow10(|b.frac|);
    HalfUpOrderArithmetic(Magnitude(a), Pow10(|a.frac|), Magnitude(b), Pow10(|b.frac|), Pow10(s), x, y);
    FloorMonotone(x, 2 * Pow10(|a.frac|), y, 2 * Pow10(|b.frac|));
  }

  lemma HalfUpOrderArithmetic(a: nat, A: nat, b: nat, B: nat, S: nat, x: nat, y: nat)
    requires S >= 1 && FractionAtMost(a, A, b, B)
    requires x == 2 * (a * S) + A && y == 2 * (b * S) + B
    ensures FractionAtMost(x, 2 * A, y, 2 * B)
  {
    var u, v, w := a * B * S, b * A * S, A * B;
    MulCancel(a * B, b * A, S);
    assert x * (2 * B) == 4 * u + 2 * w by {
      assert (a * S) * B == u by { Rotate(a, B, S); Rotate(a, S, B); }
      TwiceSum(a * S, A, B);
    }
    assert y * (2 * A) == 4 * v + 2 * w by {
      assert (b * S) * A == v by { Rotate(b, A, S); Rotate(b, S, A); }
      TwiceSum(b * S, B, A);
      Rotate(1, A, B);
    }
  }

  lemma TwiceSum(x: nat, y: nat, z: nat)
    ensures (2 * x + y) * (2 * z) == 4 * (x * z) + 2 * (y * z)
  {
    Distribute(2 * x, y, 2 * z);
    Twice(y, z);
    Twice(2 * x, z);
    Rotate(2, x, z);
  }

  lemma ScaledOrder(a: Parts, b: Parts, s: nat, k: nat, l: nat)
    requires !a.negative == !b.negative
    requires IsScaledTo(a, s, k) && IsScaledTo(b, s, l) && k <= l
    ensures Magnitude(a) * Pow10(|b.frac|) <= Magnitude(b) * Pow10(|a.frac|)
  {
    ScaledOrderArithmetic(Magnitude(a), Pow10(|a.frac|), k, Magnitude(b), Pow10(|b.frac|), l, Pow10(s));
  }

  lemma ScaledOrderArithmetic(a: nat, A: nat, k: nat, b: nat, B: nat, l: nat, S: nat)
    requires S >= 1 && A >= 1 && B >= 1 && a * S == k * A && b * S == l * B && k <= l
    ensures a * B <= b * A
  {
    assert a * B * S == k * (A * B) by { Rotate(a, B, S); Rotate(a, S, B); Rotate(k, A, B); }
    assert b * A * S == l * (A * B) by { Rotate(b, A, S); Rotate(b, S, A); Rotate(l, B, A); }
    Rotate(1, A, B);
    MulCancel(k, l, A * B);
    MulCancel(a * B, b * A, S);
  }

  /**
   * Without a whole digit the type refuses every value that needs rounding: the rounded text always writes a whole digit.
   * So ".50" is refused by DECIMAL(1,1) although it fits exactly, while ".5" is kept.
   */
  lemma LegacyRoundNoWholeDigit(v: string, spec: Spec)
    requires !HasWholeDigit(spec)
    ensures LegacyRound(v, spec).Some? <==> DecimalFits(v, spec) && |Read(v).value.frac| <= spec.scale
    ensures LegacyRound(v, spec).Some? ==> LegacyRound(v, spec).value == Trim(v)
  {
  }

  // ------------------------------------------------------------------ the type's name

  lemma ShortNumberOf(n: nat, rest: string)
    requires n < 1000 && rest != "" && !IsDigit(rest[0]) && !IsSpace(rest[0])
    ensures ShortNumber(Decimal(n) + rest) == Some((n, rest))
  {
    hide Decimal, NatOf, DigitRun, AllDigits;
    var d := Decimal(n);
    ThreeDigits(n);
    DigitRunOf(d, rest);
    assert (d + rest)[..|d|] == d && (d + rest)[|d|..] == rest;
    FirstIsDigit(d);
    assert (d + rest)[0] == d[0];
  }

  lemma ThreeDigits(n: nat)
    requires n < 1000
    ensures 1 <= |Decimal(n)| <= 3
  {
    DecimalLength(n, 3);
    assert Pow10(3) == 10 * Pow10(2) == 100 * Pow10(1) == 1000 * Pow10(0);
  }

  lemma ParametersOf(p: nat, s: nat)
    requires p < 1000 && s < 1000
    ensures Parameters("(" + (Decimal(p) + ("," + (Decimal(s) + ")")))) == Some((p, s))
  {
    hide ShortNumber, Decimal;
    var tail: string := Decimal(s) + ")";
    var args: string := Decimal(p) + ("," + tail);
    ShortNumberOf(s, ")");
    ShortNumberOf(p, "," + tail);
    assert ("(" + args)[1..] == args;
    assert ("," + tail)[1..] == tail;
    assert ")"[1..] == "";
  }

  /** A type's name is read back as the type exactly when the type is legal. */
  lemma ParseFormatted(spec: Spec)
    ensures ParseDecimalType(FormatDecimalType(spec)) == Some(spec) <==> Legal(spec)
  {
    if Legal(spec) {
      hide AfterKeyword, Parameters, Decimal;
      var args: string := Decimal(spec.precision) + ("," + (Decimal(spec.scale) + ")"));
      assert FormatDecimalType(spec) == "DECIMAL(" + args;
      KeywordOf(args);
      ParametersOf(spec.precision, spec.scale);
    }
  }

  lemma KeywordOf(args: string)
    ensures AfterKeyword("DECIMAL(" + args) == Some("(" + args)
  {
    var t := "DECIMAL(" + args;
    assert t[0] == 'D' && SkipSpaces(t) == t;
    assert seq(7, i requires 0 <= i < 7 => Upper(t[i])) == "DECIMAL";
    assert t[7..] == "(" + args;
  }
}
