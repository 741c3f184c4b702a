/**
 * The Python string built-ins the gateway relies on: `str.strip()`,
 * `str.upper()`, the substring test `a in b`, `" ".join(...)` after
 * `filter(None, ...)`, and `int(...)` applied to a configuration string.
 */
module PyText {
  import opened Wrappers

  /** The characters for which Python's `str.isspace()` holds, and which
      `str.strip()` with no argument removes. */
  predicate IsSpace(c: char) {
    var n := c as int;
    n == 0x20 || 0x09 <= n <= 0x0D || 0x1C <= n <= 0x1F || n == 0x85 || n == 0xA0
    || n == 0x1680 || 0x2000 <= n <= 0x200A || n == 0x2028 || n == 0x2029
    || n == 0x202F || n == 0x205F || n == 0x3000
  }

  ghost predicate AllSpace(s: string) {
    forall k :: 0 <= k < |s| ==> IsSpace(s[k])
  }

  /** A string with no surrounding white space: what `strip()` yields. */
  ghost predicate Trimmed(s: string) {
    s == [] || (!IsSpace(s[0]) && !IsSpace(s[|s| - 1]))
  }

  /** Number of white-space characters at the start of `s`. */
  function LeadingSpaces(s: string): (n: nat)
    ensures n <= |s|
    ensures AllSpace(s[..n])
    ensures n < |s| ==> !IsSpace(s[n])
  {
    if s == [] || !IsSpace(s[0]) then 0 else 1 + LeadingSpaces(s[1..])
  }

  /** Number of white-space characters at the end of `s`. */
  function TrailingSpaces(s: string): (n: nat)
    ensures n <= |s|
    ensures AllSpace(s[|s| - n..])
    ensures n < |s| ==> !IsSpace(s[|s| - 1 - n])
  {
    if s == [] || !IsSpace(s[|s| - 1]) then 0 else 1 + TrailingSpaces(s[..|s| - 1])
  }

  /** Python's `s.strip()`: `s` without its leading and trailing white space. */
  function Strip(s: string): (r: string)
    ensures |r| <= |s|
    ensures Trimmed(r)
  {
    var t := s[LeadingSpaces(s)..];
    t[..|t| - TrailingSpaces(t)]
  }

  /** What `strip()` removed is white space on either side of its result. */
  lemma StripSplits(s: string)
    ensures var i, r := LeadingSpaces(s), Strip(s);
      i + |r| <= |s| && s[i..i + |r|] == r && AllSpace(s[..i]) && AllSpace(s[i + |r|..])
  {
    var i := LeadingSpaces(s);
    var t := s[i..];
    var m := TrailingSpaces(t);
    var r := t[..|t| - m];
    assert Strip(s) == r;
    assert s[i..i + |r|] == r;
    assert s[i + |r|..] == t[|t| - m..];
  }

  /** Python's `c.upper()` on one character; only ASCII letters change. */
  function UpperChar(c: char): (u: char)
    ensures IsSpace(u) == IsSpace(c)
    ensures 'a' <= c <= 'z' ==> u as int == c as int - 32
    ensures !('a' <= c <= 'z') ==> u == c
  {
    if 'a' <= c <= 'z' then (c as int - 32) as char else c
  }

  /** Python's `s.upper()`, restricted to ASCII case mapping. */
  function Upper(s: string): (r: string)
    ensures |r| == |s|
    ensures forall k :: 0 <= k < |s| ==> r[k] == UpperChar(s[k])
  {
    if s == [] then [] else [UpperChar(s[0])] + Upper(s[1..])
  }

  /** `s.strip().upper()`, the normalisation every identity field and every
      known-craft key goes through. */
  function Normalize(s: string): string {
    Upper(Strip(s))
  }

  /** A normalised text is no longer than the original, has no surrounding
      white space and holds no lower-case ASCII letter. */
  lemma NormalizeShape(s: string)
    ensures |Normalize(s)| <= |s| && Trimmed(Normalize(s))
    ensures forall k :: 0 <= k < |Normalize(s)| ==> !('a' <= Normalize(s)[k] <= 'z')
  {
    UpperKeepsSpace(Strip(s));
  }

  lemma {:induction false} LeadingSpacesOfPadded(a: string, t: string)
    requires AllSpace(a)
    ensures LeadingSpaces(a + t) == |a| + LeadingSpaces(t)
  {
    if a != [] {
      assert (a + t)[1..] == a[1..] + t;
      LeadingSpacesOfPadded(a[1..], t);
    } else {
      assert a + t == t;
    }
  }

  lemma {:induction false} TrailingSpacesOfPadded(t: string, b: string)
    requires AllSpace(b)
    ensures TrailingSpaces(t + b) == |b| + TrailingSpaces(t)
  {
    if b != [] {
      assert (t + b)[..|t + b| - 1] == t + b[..|b| - 1];
      assert (t + b)[|t + b| - 1] == b[|b| - 1];
      TrailingSpacesOfPadded(t, b[..|b| - 1]);
    } else {
      assert t + b == t;
    }
  }

  /** `strip()` removes exactly the white-space padding around a trimmed core:
      the characterisation the other string lemmas are built from. */
  lemma {:induction false} StripPadded(a: string, m: string, b: string)
    requires AllSpace(a) && AllSpace(b) && Trimmed(m)
    ensures Strip(a + m + b) == m
  {
    if m == [] {
      StripPaddedBlank(a, b);
      assert a + m + b == a + b;
    } else {
      StripPaddedCore(a, m, b);
    }
  }

  lemma {:induction false} StripPaddedBlank(a: string, b: string)
    requires AllSpace(a) && AllSpace(b)
    ensures Strip(a + b) == ""
  {
    LeadingSpacesOfPadded(a, b);
    assert b == b + [];
    LeadingSpacesOfPadded(b, []);
    assert LeadingSpaces(a + b) == |a + b|;
    assert (a + b)[|a + b|..] == [];
  }

  lemma {:induction false} StripPaddedCore(a: string, m: string, b: string)
    requires AllSpace(a) && AllSpace(b)
    requires m != [] && !IsSpace(m[0]) && !IsSpace(m[|m| - 1])
    ensures Strip(a + m + b) == m
  {
    var s := a + m + b;
    assert s == a + (m + b);
    LeadingSpacesOfPadded(a, m + b);
    assert LeadingSpaces(m + b) == 0;
    var t := s[|a|..];
    assert t == m + b;
    TrailingSpacesOfPadded(m, b);
    assert TrailingSpaces(m) == 0;
    assert t[..|t| - |b|] == m;
  }

  lemma StripOfTrimmed(s: string)
    requires Trimmed(s)
    ensures Strip(s) == s
  {
    assert [] + s + [] == s;
    StripPadded([], s, []);
  }

  /** A string made only of white space strips to the empty string. */
  lemma StripAllSpace(s: string)
    requires AllSpace(s)
    ensures Strip(s) == ""
  {
    assert [] + [] + s == s;
    StripPadded([], [], s);
  }

  lemma {:induction false} UpperAppend(x: string, y: string)
    ensures Upper(x + y) == Upper(x) + Upper(y)
  {
    assert |Upper(x + y)| == |Upper(x) + Upper(y)|;
    forall k | 0 <= k < |x + y|
      ensures Upper(x + y)[k] == (Upper(x) + Upper(y))[k]
    {
    }
  }

  lemma UpperTwice(s: string)
    ensures Upper(Upper(s)) == Upper(s)
  {
    assert |Upper(Upper(s))| == |Upper(s)|;
  }

  lemma UpperKeepsSpace(s: string)
    ensures AllSpace(s) ==> AllSpace(Upper(s))
    ensures Trimmed(s) ==> Trimmed(Upper(s))
  {
  }

  /** Upper-casing and stripping commute, because no ASCII letter is white space. */
  lemma {:induction false} StripUpper(s: string)
    ensures Strip(Upper(s)) == Upper(Strip(s))
  {
    var r := Strip(s);
    StripSplits(s);
    var i := LeadingSpaces(s);
    var a, b := s[..i], s[i + |r|..];
    assert s == a + r + b;
    UpperAppend(a + r, b);
    UpperAppend(a, r);
    UpperKeepsSpace(a);
    UpperKeepsSpace(b);
    UpperKeepsSpace(r);
    StripPadded(Upper(a), Upper(r), Upper(b));
  }

  /** Normalising twice is normalising once. */
  lemma {:induction false} NormalizeIdempotent(s: string)
    ensures Normalize(Normalize(s)) == Normalize(s)
  {
    var r := Strip(s);
    assert Trimmed(Upper(r));
    StripOfTrimmed(Upper(r));
    UpperTwice(r);
  }

  lemma AllSpaceAppend(x: string, y: string)
    requires AllSpace(x) && AllSpace(y)
    ensures AllSpace(x + y)
  {
  }

  lemma SplitThree(u: string, i: nat, j: nat)
    requires i <= j <= |u|
    ensures u == u[..i] + u[i..j] + u[j..]
  {
    assert u[..j] == u[..i] + u[i..j];
    assert u == u[..j] + u[j..];
  }

  lemma Regroup(a: string, x: string, r: string, y: string, b: string)
    ensures a + (x + r + y) + b == (a + x) + r + (y + b)
  {
  }

  /** Extra white space around a string does not change what `strip()` yields. */
  lemma {:induction false} StripIgnoresPadding(a: string, u: string, b: string)
    requires AllSpace(a) && AllSpace(b)
    ensures Strip(a + u + b) == Strip(u)
  {
    var r := Strip(u);
    StripSplits(u);
    var i := LeadingSpaces(u);
    var ua, ub := u[..i], u[i + |r|..];
    SplitThree(u, i, i + |r|);
    Regroup(a, ua, r, ub, b);
    AllSpaceAppend(a, ua);
    AllSpaceAppend(ub, b);
    StripPadded(a + ua, r, ub + b);
  }

  /** The normalised form ignores letter case and surrounding white space:
      `" abc123 "` and `"ABC123"` normalise alike. */
  lemma {:induction false} NormalizeIgnoresCaseAndPadding(a: string, s: string, b: string)
    requires AllSpace(a) && AllSpace(b)
    ensures Normalize(a + Upper(s) + b) == Normalize(s)
  {
    var u := Upper(s);
    StripIgnoresPadding(a, u, b);
    StripUpper(s);
    UpperTwice(Strip(s));
  }

  /** `m` occurs in `s` at position `i`. */
  ghost predicate OccursAt(s: string, m: string, i: int) {
    0 <= i <= |s| - |m| && s[i..i + |m|] == m
  }

  /** Python's substring test `m in s`. */
  function Contains(s: string, m: string): (b: bool)
    ensures b <==> exists i :: OccursAt(s, m, i)
    decreases |s|
  {
    if |s| < |m| then false
    else if s[..|m|] == m then assert OccursAt(s, m, 0); true
    else
      var rest := Contains(s[1..], m);
      assert forall i :: OccursAt(s[1..], m, i) ==> OccursAt(s, m, i + 1) by {
        forall i | OccursAt(s[1..], m, i) ensures OccursAt(s, m, i + 1) {
          assert s[1..][i..i + |m|] == s[i + 1..i + 1 + |m|];
        }
      }
      assert forall i :: OccursAt(s, m, i) ==> i == 0 || OccursAt(s[1..], m, i - 1) by {
        forall i | OccursAt(s, m, i) && i != 0 ensures OccursAt(s[1..], m, i - 1) {
          assert s[1..][i - 1..i - 1 + |m|] == s[i..i + |m|];
        }
      }
      rest
  }

  /** Python's `filter(None, xs)` on strings: drops the empty ones, keeps order. */
  function NonEmpty(xs: seq<string>): (r: seq<string>)
    ensures |r| <= |xs|
    ensures forall x :: x in r <==> x in xs && x != ""
  {
    if xs == [] then []
    else if xs[0] == "" then NonEmpty(xs[1..])
    else [xs[0]] + NonEmpty(xs[1..])
  }

  /** The summed length of the strings in `xs`. */
  function TotalLength(xs: seq<string>): nat {
    if xs == [] then 0 else |xs[0]| + TotalLength(xs[1..])
  }

  /** Python's `" ".join(xs)`: the strings in order, one blank between
      neighbours. */
  function {:induction false} JoinSpace(xs: seq<string>): (r: string)
    ensures xs == [] ==> r == ""
    ensures xs != [] ==> |r| == TotalLength(xs) + |xs| - 1
    ensures xs != [] ==> |xs[0]| <= |r| && r[..|xs[0]|] == xs[0]
  {
    if xs == [] then ""
    else if |xs| == 1 then xs[0]
    else xs[0] + " " + JoinSpace(xs[1..])
  }

  /** Two adjacent spaces somewhere in `s`. */
  ghost predicate HasDoubleSpace(s: string) {
    exists i :: 0 <= i < |s| - 1 && s[i] == ' ' && s[i + 1] == ' '
  }

  /** A segment that neither starts nor ends with a blank nor holds two
      blanks in a row. */
  ghost predicate Tidy(s: string) {
    s != [] && s[0] != ' ' && s[|s| - 1] != ' ' && !HasDoubleSpace(s)
  }

  /** Joining tidy segments with single blanks never produces a double blank,
      and the result is tidy again. */
  lemma {:induction false} JoinTidy(xs: seq<string>)
    requires xs != []
    requires forall k :: 0 <= k < |xs| ==> Tidy(xs[k])
    ensures Tidy(JoinSpace(xs))
  {
    if |xs| > 1 {
      JoinTidy(xs[1..]);
      var x, rest := xs[0], JoinSpace(xs[1..]);
      var s := x + " " + rest;
      assert s == JoinSpace(xs);
      forall i | 0 <= i < |s| - 1 && s[i] == ' '
        ensures s[i + 1] != ' '
      {
        if i < |x| - 1 {
          assert s[i] == x[i] && s[i + 1] == x[i + 1];
        } else if i == |x| - 1 {
        } else if i == |x| {
          assert s[i + 1] == rest[0];
        } else {
          assert s[i] == rest[i - |x| - 1] && s[i + 1] == rest[i - |x|];
        }
      }
    }
  }

  predicate IsDigit(c: char) {
    '0' <= c <= '9'
  }

  /** The value of a decimal digit string, most significant digit first. */
  function DigitsValue(s: string): nat
    requires forall k :: 0 <= k < |s| ==> IsDigit(s[k])
  {
    if s == [] then 0
    else
      var last := s[|s| - 1];
      assert IsDigit(last);
      10 * DigitsValue(s[..|s| - 1]) + (last as int - '0' as int)
  }

  /** Python's `int(s)` on a string: white space around an optional sign and
      decimal digits. `None` stands for the `ValueError` Python raises. */
  function ParseInt(s: string): (r: Option<int>)
    ensures r.Some? ==> exists k :: 0 <= k < |s| && IsDigit(s[k])
  {
    var t := Strip(s);
    var signed := t != [] && (t[0] == '-' || t[0] == '+');
    var sign := if signed && t[0] == '-' then -1 else 1;
    var digits := if signed then t[1..] else t;
    if digits != [] && forall k :: 0 <= k < |digits| ==> IsDigit(digits[k]) then
      StripSplits(s);
      ghost var i := LeadingSpaces(s);
      assert s[i + |t| - 1] == t[|t| - 1] && IsDigit(t[|t| - 1]);
      Some(sign * DigitsValue(digits))
    else None
  }

  /** Decimal text of a natural number, as Python's `str(n)` writes it. */
  function NatText(n: nat): (r: string)
    ensures r != [] && forall k :: 0 <= k < |r| ==> IsDigit(r[k])
  {
    (if n < 10 then "" else NatText(n / 10)) + [('0' as int + n % 10) as char]
  }

  /** Decimal text of an integer, as Python's `str(n)` writes it. */
  function IntText(n: int): string {
    if n < 0 then "-" + NatText(-n) else NatText(n)
  }

  lemma {:induction false} DigitsOfNatText(n: nat)
    ensures DigitsValue(NatText(n)) == n
  {
    var s := NatText(n);
    if n >= 10 {
      assert s[..|s| - 1] == NatText(n / 10);
      DigitsOfNatText(n / 10);
    } else {
      assert s[..|s| - 1] == "";
    }
  }

  /** `int` reads back what `str` writes: the round trip for integers. */
  lemma ParseIntText(n: int)
    ensures ParseInt(IntText(n)) == Some(n)
  {
    var m: nat := if n < 0 then -n else n;
    var d := NatText(m);
    var s := IntText(n);
    assert Trimmed(s) by {
      assert !IsSpace(d[|d| - 1]);
      assert !IsSpace(s[0]);
    }
    StripOfTrimmed(s);
    DigitsOfNatText(m);
    if n < 0 {
      ParseSigned(s, d);
    } else {
      ParseUnsigned(d);
    }
  }

  /** A minus sign before trimmed digits negates them. */
  lemma ParseSigned(s: string, d: string)
    requires d != [] && forall k :: 0 <= k < |d| ==> IsDigit(d[k])
    requires s == "-" + d && Strip(s) == s
    ensures ParseInt(s) == Some(-(DigitsValue(d) as int))
  {
    assert s[1..] == d;
  }

  /** Trimmed digits without a sign read as their value. */
  lemma ParseUnsigned(d: string)
    requires d != [] && forall k :: 0 <= k < |d| ==> IsDigit(d[k])
    requires Strip(d) == d
    ensures ParseInt(d) == Some(DigitsValue(d))
  {
    assert IsDigit(d[0]);
  }
}
