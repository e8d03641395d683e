/** Which texts name a decimal type (src/lib/decimal-type.ts:13-25), and as which type they are read. */
module DecimalNames {
  import opened Wrappers
  import opened Digits
  import opened DecimalType
  import opened DecimalTheorems

  predicate Spaces(t: string) {
    forall i :: 0 <= i < |t| ==> IsSpace(t[i])
  }

  /** DECIMAL or NUMERIC in any letter case. */
  predicate IsKeyword(w: string) {
    && |w| == 7
    && var word := seq(7, i requires 0 <= i < 7 => Upper(w[i]));
       word == "DECIMAL" || word == "NUMERIC"
  }

  predicate ShortDigits(d: string) {
    1 <= |d| <= 3 && AllDigits(d)
  }

  /** The pieces of a full name, with the white space between them. */
  datatype Name = Name(a: string, word: string, b: string, c: string, p: string, d: string, e: string, s: string, f: string, g: string)

  predicate Proper(n: Name) {
    && Spaces(n.a) && Spaces(n.b) && Spaces(n.c) && Spaces(n.d) && Spaces(n.e) && Spaces(n.f) && Spaces(n.g)
    && IsKeyword(n.word) && ShortDigits(n.p) && ShortDigits(n.s)
  }

  /** Keyword, opening parenthesis, precision, comma, scale, closing parenthesis. */
  function TextOf(n: Name): string {
    n.a + (n.word + (n.b + Arguments(n)))
  }

  function Arguments(n: Name): string {
    "(" + (n.c + (n.p + (n.d + ("," + Rest(n)))))
  }

  function Rest(n: Name): string {
    n.e + (n.s + (n.f + (")" + n.g)))
  }

  // ------------------------------------------------------------------ white space

  /** Skipping spaces leaves the text after its leading spaces. */
  lemma {:induction false} SkipOver(a: string, u: string)
    requires Spaces(a) && (u == "" || !IsSpace(u[0]))
    ensures SkipSpaces(a + u) == u
  {
    if a == "" {
      assert a + u == u;
    } else {
      assert IsSpace(a[0]) && (a + u)[1..] == a[1..] + u;
      assert forall i :: 0 <= i < |a[1..]| ==> a[1..][i] == a[i + 1];
      SkipOver(a[1..], u);
    }
  }

  lemma {:induction false} LeadingSpaces(t: string)
    ensures Spaces(t[..|t| - |SkipSpaces(t)|])
  {
    hide IsSpace;
    if t != "" && IsSpace(t[0]) {
      var a, rest := t[..|t| - |SkipSpaces(t)|], t[1..];
      LeadingSpaces(rest);
      var b := rest[..|rest| - |SkipSpaces(rest)|];
      assert |a| == |b| + 1;
      forall i | 0 <= i < |a| ensures IsSpace(a[i]) {
        if i > 0 { assert a[i] == b[i - 1]; }
      }
    }
  }

  lemma Skipped(t: string) returns (a: string)
    ensures Spaces(a) && t == a + SkipSpaces(t)
  {
    hide IsSpace;
    a := t[..|t| - |SkipSpaces(t)|];
    LeadingSpaces(t);
    hide SkipSpaces, Spaces;
  }

  lemma {:induction false} RunOver(d: string, u: string)
    requires AllDigits(d) && (u == "" || !IsDigit(u[0]))
    ensures DigitRun(d + u) == |d|
  {
    if d == "" {
      assert d + u == u;
    } else {
      assert (d + u)[1..] == d[1..] + u;
      RunOver(d[1..], u);
    }
  }

  predicate Mark(u: string) {
    u != "" && !IsSpace(u[0]) && !IsDigit(u[0])
  }

  // ------------------------------------------------------------------ a name is read

  lemma NumberRead(c: string, p: string, d: string, u: string)
    requires Spaces(c) && ShortDigits(p) && Spaces(d) && Mark(u)
    ensures ShortNumber(c + (p + (d + u))) == Some((NatOf(p), u))
  {
    hide NatOf, SkipSpaces, DigitRun, IsSpace, IsDigit;
    var v := p + (d + u);
    NumberStarts(p, d + u);
    SkipOver(c, v);
    AfterNumber(d, u);
    RunOver(p, d + u);
    assert v[..|p|] == p && v[|p|..] == d + u;
    SkipOver(d, u);
  }

  lemma NumberStarts(p: string, rest: string)
    requires ShortDigits(p)
    ensures p + rest != "" && !IsSpace((p + rest)[0])
  {
    assert (p + rest)[0] == p[0] && IsDigit(p[0]);
  }

  lemma AfterNumber(d: string, u: string)
    requires Spaces(d) && Mark(u)
    ensures d + u != "" && !IsDigit((d + u)[0])
  {
    assert (d + u)[0] == if d == "" then u[0] else d[0];
  }

  lemma KeywordRead(a: string, word: string, b: string, u: string)
    requires Spaces(a) && IsKeyword(word) && Spaces(b) && (u == "" || !IsSpace(u[0]))
    ensures AfterKeyword(a + (word + (b + u))) == Some(u)
  {
    var v := word + (b + u);
    KeywordStarts(word);
    assert v[0] == word[0];
    SkipOver(a, v);
    assert forall i :: 0 <= i < 7 ==> v[i] == word[i];
    assert seq(7, i requires 0 <= i < 7 => Upper(v[i])) == seq(7, i requires 0 <= i < 7 => Upper(word[i]));
    assert v[7..] == b + u;
    SkipOver(b, u);
  }

  lemma KeywordStarts(word: string)
    requires IsKeyword(word)
    ensures !IsSpace(word[0])
  {
    var up := seq(7, i requires 0 <= i < 7 => Upper(word[i]));
    assert up[0] == 'D' || up[0] == 'N';
    assert up[0] == Upper(word[0]);
  }

  lemma ArgumentsRead(n: Name)
    requires Proper(n)
    ensures Parameters(Arguments(n)) == Some((NatOf(n.p), NatOf(n.s)))
  {
    hide ShortNumber, NatOf;
    var first := n.c + (n.p + (n.d + ("," + Rest(n))));
    assert ("(" + first)[1..] == first;
    NumberRead(n.c, n.p, n.d, "," + Rest(n));
    assert ("," + Rest(n))[1..] == Rest(n);
    NumberRead(n.e, n.s, n.f, ")" + n.g);
    assert (")" + n.g)[1..] == n.g;
    SkipOver(n.g, "");
    assert n.g + "" == n.g;
  }

  /** A name is read as its two numbers, when these are legal. */
  lemma NameRead(n: Name)
    requires Proper(n)
    ensures ParseDecimalType(TextOf(n)) == var spec := Spec(NatOf(n.p), NatOf(n.s)); if Legal(spec) then Some(spec) else None
  {
    hide AfterKeyword, Parameters, NatOf;
    KeywordRead(n.a, n.word, n.b, Arguments(n));
    ArgumentsRead(n);
  }

  // ------------------------------------------------------------------ what is read is a name

  lemma NumberWritten(t: string) returns (c: string, p: string, d: string)
    requires ShortNumber(t).Some?
    ensures Spaces(c) && ShortDigits(p) && Spaces(d) && NatOf(p) == ShortNumber(t).value.0
    ensures t == c + (p + (d + ShortNumber(t).value.1))
  {
    hide *;
    c := Skipped(t);
    var u := SkipSpaces(t);
    NumberParts(t);
    p := u[..DigitRun(u)];
    d := Skipped(u[DigitRun(u)..]);
    assert u == p + u[DigitRun(u)..];
  }

  lemma NumberParts(t: string)
    requires ShortNumber(t).Some?
    ensures var u := SkipSpaces(t);
      && DigitRun(u) <= |u| && ShortDigits(u[..DigitRun(u)])
      && ShortNumber(t).value == (NatOf(u[..DigitRun(u)]), SkipSpaces(u[DigitRun(u)..]))
  {
    hide IsSpace, SkipSpaces, NatOf, DigitRun, AllDigits;
  }

  lemma KeywordWritten(t: string) returns (a: string, word: string, b: string)
    requires AfterKeyword(t).Some?
    ensures Spaces(a) && IsKeyword(word) && Spaces(b) && t == a + (word + (b + AfterKeyword(t).value))
  {
    hide IsSpace, SkipSpaces, Spaces, Upper;
    a := Skipped(t);
    var u := SkipSpaces(t);
    word := u[..7];
    assert seq(7, i requires 0 <= i < 7 => Upper(word[i])) == seq(7, i requires 0 <= i < 7 => Upper(u[i]));
    b := Skipped(u[7..]);
    assert u == word + u[7..];
  }

  lemma ArgumentsWritten(t: string, a: string, word: string, b: string) returns (n: Name)
    requires Parameters(t).Some? && Spaces(a) && IsKeyword(word) && Spaces(b)
    ensures Proper(n) && n.a == a && n.word == word && n.b == b && t == Arguments(n)
    ensures NatOf(n.p) == Parameters(t).value.0 && NatOf(n.s) == Parameters(t).value.1
  {
    hide ShortNumber, NatOf, IsKeyword, IsSpace, SkipSpaces, Spaces, ShortDigits;
    var c, p, d := NumberWritten(t[1..]);
    var u := ShortNumber(t[1..]).value.1;
    var e, s, f := NumberWritten(u[1..]);
    var v := ShortNumber(u[1..]).value.1;
    var g := Skipped(v[1..]);
    assert SkipSpaces(v[1..]) == "" && g + "" == g;
    n := Name(a, word, b, c, p, d, e, s, f, g);
    assert v == ")" + g && u == "," + u[1..] && t == "(" + t[1..];
  }

  /** The text is a keyword alone. */
  ghost predicate IsBare(t: string) {
    exists a, word, b :: Spaces(a) && IsKeyword(word) && Spaces(b) && t == a + (word + b)
  }

  ghost predicate Names(t: string, spec: Spec) {
    exists n: Name :: Proper(n) && t == TextOf(n) && spec == Spec(NatOf(n.p), NatOf(n.s))
  }

  /**
   * Exactly what is read: a bare DECIMAL or NUMERIC as the legacy type, and DECIMAL(p,s) or NUMERIC(p,s) with numbers of one
   * to three digits as the type they name, if it is legal; letter case and white space between the pieces do not matter.
   */
  lemma ParseIff(t: string, spec: Spec)
    ensures ParseDecimalType(t) == Some(spec) <==> (IsBare(t) && spec == LEGACY) || (Names(t, spec) && Legal(spec))
  {
    hide AfterKeyword, Parameters, NatOf, IsKeyword, Spaces, TextOf;
    if ParseDecimalType(t) == Some(spec) {
      var a, word, b := KeywordWritten(t);
      if AfterKeyword(t).value == "" {
        assert b + "" == b;
        assert IsBare(t);
      } else {
        var n := ArgumentsWritten(AfterKeyword(t).value, a, word, b);
        TextParts(n);
        assert Names(t, spec);
      }
    }
    if IsBare(t) {
      var a, word, b :| Spaces(a) && IsKeyword(word) && Spaces(b) && t == a + (word + b);
      assert b + "" == b;
      KeywordRead(a, word, b, "");
    }
    if Names(t, spec) {
      var n: Name :| Proper(n) && t == TextOf(n) && spec == Spec(NatOf(n.p), NatOf(n.s));
      NameRead(n);
    }
  }

  lemma TextParts(n: Name)
    ensures TextOf(n) == n.a + (n.word + (n.b + Arguments(n)))
  {
  }
}
