/** SQL LIKE patterns built from worker labels (src/worker/index.ts:722-751, src/supervisor/db.ts:12-15). */
module LikePattern {
  import opened Digits

  /** LIKE with the default escape character: % any text, _ any character, \ the next character literally. */
  predicate LikeMatch(p: string, t: string)
    decreases |p| + |t|
  {
    if p == "" then t == ""
    else if p[0] == '%' then LikeMatch(p[1..], t) || (t != "" && LikeMatch(p, t[1..]))
    else if p[0] == '_' then t != "" && LikeMatch(p[1..], t[1..])
    else if p[0] == '\\' then |p| >= 2 && t != "" && t[0] == p[1] && LikeMatch(p[2..], t[1..])
    else t != "" && t[0] == p[0] && LikeMatch(p[1..], t[1..])
  }

  predicate IsSpecial(c: char) {
    c == '\\' || c == '%' || c == '_'
  }

  /** replace(/[\\%_]/g, c => "\\" + c). */
  function Escape(s: string): string {
    if s == "" then "" else (if IsSpecial(s[0]) then ['\\', s[0]] else [s[0]]) + Escape(s[1..])
  }

  // ------------------------------------------------------------------ labels

  /** The lock label of slot i of a profile's worker on a host. */
  function Label(name: string, i: nat, host: string): string {
    BareLabel(name, i) + ("@" + host)
  }

  function BareLabel(name: string, i: nat): string {
    name + ("-" + Decimal(i))
  }

  function ReleasePattern(name: string, i: nat): string {
    Escape(name) + ("-" + Decimal(i) + "@%")
  }

  /** The WHERE clause of releaseSelf for a profile with the given number of slots. */
  predicate ReleaseMatches(name: string, concurrency: nat, lockedBy: string) {
    exists i :: 1 <= i <= concurrency && ReleasesSlot(name, i, lockedBy)
  }

  predicate ReleasesSlot(name: string, i: nat, lockedBy: string) {
    LikeMatch(ReleasePattern(name, i), lockedBy) || lockedBy == BareLabel(name, i)
  }

  function RunningJobsLikePattern(name: string): string {
    Escape(name) + "-%@%"
  }

  // ------------------------------------------------------------------ escaping is literal

  /** An escaped text at the front of a pattern matches exactly itself. */
  lemma {:induction false} EscapedPrefix(s: string, rest: string, t: string)
    ensures LikeMatch(Escape(s) + rest, t) <==> s <= t && LikeMatch(rest, t[|s|..])
    decreases |s|
  {
    if s == "" {
      assert Escape(s) + rest == rest && t[0..] == t;
    } else {
      var p := Escape(s) + rest;
      var tail := Escape(s[1..]) + rest;
      if IsSpecial(s[0]) {
        assert p[0] == '\\' && p[1] == s[0] && p[2..] == tail;
      } else {
        assert p[0] == s[0] && p[1..] == tail;
      }
      if t != "" {
        EscapedPrefix(s[1..], rest, t[1..]);
        assert s <= t <==> s[0] == t[0] && s[1..] <= t[1..] by {
          assert s == [s[0]] + s[1..] && t == [t[0]] + t[1..];
        }
        assert s <= t ==> t[1..][|s| - 1..] == t[|s|..];
      }
    }
  }

  lemma {:induction false} PercentMatchesAll(t: string)
    ensures LikeMatch("%", t)
  {
    if t != "" { PercentMatchesAll(t[1..]); } else { assert "%"[1..] == ""; }
  }

  /** "escaped text followed by %" is prefix search, for every text. */
  lemma EscapedPercentIsPrefix(s: string, t: string)
    ensures LikeMatch(Escape(s) + "%", t) <==> s <= t
  {
    EscapedPrefix(s, "%", t);
    if s <= t { PercentMatchesAll(t[|s|..]); }
  }

  /** "%c..." searches for the first position where the rest matches. */
  lemma {:induction false} PercentThenChar(c: char, t: string)
    requires !IsSpecial(c)
    ensures LikeMatch("%" + [c] + "%", t) <==> c in t
  {
    var p := "%" + [c] + "%";
    assert p[1..] == [c] + "%" && (p[1..])[1..] == "%";
    if t != "" {
      PercentThenChar(c, t[1..]);
      PercentMatchesAll(t[1..]);
    }
  }

  lemma {:induction false} EscapeConcat(a: string, b: string)
    ensures Escape(a + b) == Escape(a) + Escape(b)
  {
    if a == "" {
      assert a + b == b;
    } else {
      assert (a + b)[1..] == a[1..] + b;
      EscapeConcat(a[1..], b);
    }
  }

  lemma {:induction false} EscapePlain(s: string)
    requires forall i :: 0 <= i < |s| ==> !IsSpecial(s[i])
    ensures Escape(s) == s
  {
    if s != "" { EscapePlain(s[1..]); }
  }

  // ------------------------------------------------------------------ which labels a pattern matches

  /** A pattern of releaseSelf is prefix search for the label up to its '@'. */
  lemma ReleasePatternIsPrefix(name: string, i: nat, t: string)
    ensures LikeMatch(ReleasePattern(name, i), t) <==> BareLabel(name, i) + "@" <= t
  {
    var mark := "-" + Decimal(i) + "@";
    EscapePlain(mark);
    EscapeConcat(name, mark);
    assert Escape(name) + ("-" + Decimal(i) + "@%") == Escape(name + mark) + "%";
    assert name + mark == BareLabel(name, i) + "@";
    EscapedPercentIsPrefix(name + mark, t);
  }

  /** The text before a digit suffix "-n" and the number are both determined by the label. */
  lemma BareLabelInjective(a: string, i: nat, b: string, j: nat)
    requires BareLabel(a, i) == BareLabel(b, j)
    ensures a == b && i == j
  {
    var d, e := Decimal(i), Decimal(j);
    var s := BareLabel(a, i);
    assert s[|a|] == '-' && s[|b|] == '-';
    assert forall k :: |a| < k < |s| ==> s[k] == d[k - |a| - 1];
    assert forall k :: |b| < k < |s| ==> s[k] == e[k - |b| - 1];
    assert !IsDigit('-');
    assert |a| == |b|;
    assert a == s[..|a|] == b && d == s[|a| + 1..] == e;
  }

  lemma FirstAt(a: string, b: string, x: string, y: string)
    requires '@' !in a && '@' !in b
    requires a + ("@" + x) == b + ("@" + y)
    ensures a == b
  {
    var s := a + ("@" + x);
    assert s[|a|] == '@' && s[|b|] == '@';
    assert forall k :: 0 <= k < |a| ==> s[k] == a[k];
    assert forall k :: 0 <= k < |b| ==> s[k] == b[k];
    assert a == s[..|a|] == b;
  }

  lemma NoAtInBareLabel(name: string, i: nat)
    requires '@' !in name
    ensures '@' !in BareLabel(name, i)
  {
    assert !IsDigit('@');
  }

  lemma SlotPatternExact(name: string, i: nat, other: string, j: nat, host: string)
    requires '@' !in name && '@' !in other
    ensures ReleasesSlot(name, i, Label(other, j, host)) <==> name == other && i == j
  {
    var t := Label(other, j, host);
    ReleasePatternIsPrefix(name, i, t);
    NoAtInBareLabel(name, i);
    NoAtInBareLabel(other, j);
    assert t[|BareLabel(other, j)|] == '@';
    if BareLabel(name, i) + "@" <= t {
      var rest := t[|BareLabel(name, i)| + 1..];
      assert t == BareLabel(name, i) + ("@" + rest);
      FirstAt(BareLabel(name, i), BareLabel(other, j), rest, host);
      BareLabelInjective(name, i, other, j);
    }
  }

  /** releaseSelf takes back exactly the jobs locked by its own profile's slots, on any host; never another profile's. */
  lemma ReleaseSelfExact(name: string, concurrency: nat, other: string, j: nat, host: string)
    requires '@' !in name && '@' !in other
    ensures ReleaseMatches(name, concurrency, Label(other, j, host)) <==> name == other && 1 <= j <= concurrency
  {
    forall i: nat ensures ReleasesSlot(name, i, Label(other, j, host)) <==> name == other && i == j {
      SlotPatternExact(name, i, other, j, host);
    }
    if name == other && 1 <= j <= concurrency {
      assert ReleasesSlot(name, j, Label(other, j, host));
    }
  }

  /** What the crash report's pattern matches: the profile's name, a dash, and an '@' somewhere later. */
  lemma RunningPatternMeaning(name: string, t: string)
    ensures LikeMatch(RunningJobsLikePattern(name), t) <==> name + "-" <= t && '@' in t[|name| + 1..]
  {
    EscapeConcat(name, "-");
    EscapePlain("-");
    assert Escape(name) + "-%@%" == Escape(name + "-") + ("%" + ['@'] + "%");
    EscapedPrefix(name + "-", "%" + ['@'] + "%", t);
    if name + "-" <= t { PercentThenChar('@', t[|name| + 1..]); }
  }

  /**
   * The crash report finds every label of its profile, and besides those exactly the labels of profiles whose name
   * continues the crashed one after a dash.
   */
  lemma RunningPatternExact(name: string, other: string, j: nat, host: string)
    requires '@' !in name && '@' !in other
    ensures LikeMatch(RunningJobsLikePattern(name), Label(other, j, host)) <==> other == name || name + "-" <= other
  {
    var t := Label(other, j, host);
    var bare := BareLabel(other, j);
    RunningPatternMeaning(name, t);
    NoAtInBareLabel(other, j);
    var d := Decimal(j);
    assert t[|bare|] == '@';
    assert forall k :: 0 <= k < |other| ==> t[k] == other[k];
    assert t[|other|] == '-';
    assert forall k :: |other| < k < |bare| ==> t[k] == d[k - |other| - 1];
    assert !IsDigit('-');
    if name + "-" <= t {
      assert forall k :: 0 <= k < |name| ==> t[k] == name[k];
      assert t[|name|] == (name + "-")[|name|] == '-';
      assert |name| <= |other|;
      assert name == t[..|name|];
      if |name| < |other| {
        assert name + "-" == t[..|name| + 1] == other[..|name| + 1];
      } else {
        assert other == t[..|other|];
      }
    }
    if other == name || name + "-" <= other {
      assert name + "-" <= t by {
        if other == name {
          assert t[..|name| + 1] == name + "-";
        } else {
          assert other <= t;
        }
      }
      assert t[|name| + 1..][|bare| - |name| - 1] == '@';
    }
  }

  /** Two profiles like worker-sync and worker-sync-long: a crash of the first also lists jobs of the second, never the reverse. */
  lemma RunningPatternOverlap(name: string, suffix: string, j: nat, host: string)
    requires '@' !in name && '@' !in suffix
    ensures LikeMatch(RunningJobsLikePattern(name), Label(name + "-" + suffix, j, host))
    ensures !LikeMatch(RunningJobsLikePattern(name + "-" + suffix), Label(name, j, host))
  {
    hide LikeMatch;
    var longer := name + "-" + suffix;
    assert '@' !in longer;
    RunningPatternExact(name, longer, j, host);
    RunningPatternExact(longer, name, j, host);
    assert name + "-" <= longer;
  }
}
