/** The pieces of Python's `str` behaviour that the modelled code relies on:
    whitespace, `strip`, `split()[0]`, `int(text)`, `str(int)`, `html.escape`
    and the code-point ordering that `sorted` uses on strings. */
module Text {
  import opened Wrappers

  /** Python's `str.isspace` (the characters `strip` and `split` remove). */
  predicate IsSpace(c: char) {
    var n := c as int;
    (9 <= n <= 13) || (28 <= n <= 32) || n == 0x85 || n == 0xA0 || n == 0x1680
    || (0x2000 <= n <= 0x200A) || n == 0x2028 || n == 0x2029 || n == 0x202F
    || n == 0x205F || n == 0x3000
  }

  predicate IsDigit(c: char) {
    '0' <= c <= '9'
  }

  function DigitValue(c: char): (d: nat)
    requires IsDigit(c)
    ensures d < 10
  {
    (c as int) - ('0' as int)
  }

  function DigitChar(d: nat): (c: char)
    requires d < 10
    ensures IsDigit(c) && DigitValue(c) == d
  {
    (('0' as int) + d) as char
  }

  predicate AllSpace(s: string) {
    forall k :: 0 <= k < |s| ==> IsSpace(s[k])
  }

  /** The end of the whitespace run that starts at `i`. */
  function LeadEnd(s: string, i: nat): (j: nat)
    requires i <= |s|
    ensures i <= j <= |s|
    ensures forall k :: i <= k < j ==> IsSpace(s[k])
    ensures j < |s| ==> !IsSpace(s[j])
    decreases |s| - i
  {
    if i < |s| && IsSpace(s[i]) then LeadEnd(s, i + 1) else i
  }

  /** The start of the whitespace run that ends at `j`, not going below
      `lo`. */
  function TrailStart(s: string, lo: nat, j: nat): (i: nat)
    requires lo <= j <= |s|
    ensures lo <= i <= j
    ensures forall k :: i <= k < j ==> IsSpace(s[k])
    ensures i > lo ==> !IsSpace(s[i - 1])
    decreases j
  {
    if j > lo && IsSpace(s[j - 1]) then TrailStart(s, lo, j - 1) else j
  }

  /** `s.lstrip()`: the suffix of `s` left after its leading whitespace. */
  function StripLeft(s: string): (r: string)
    ensures |r| <= |s| && r == s[|s| - |r|..]
    ensures forall k :: 0 <= k < |s| - |r| ==> IsSpace(s[k])
    ensures r != [] ==> !IsSpace(r[0])
  {
    s[LeadEnd(s, 0)..]
  }

  /** `s.rstrip()`: the prefix of `s` left before its trailing whitespace. */
  function StripRight(s: string): (r: string)
    ensures |r| <= |s| && r == s[..|r|]
    ensures forall k :: |r| <= k < |s| ==> IsSpace(s[k])
    ensures r != [] ==> !IsSpace(r[|r| - 1])
  {
    s[..TrailStart(s, 0, |s|)]
  }

  /** `s.strip()`: the piece of `s` from the end of its leading whitespace
      that neither starts nor ends with whitespace, such that everything cut
      off on either side is whitespace. */
  function Strip(s: string): (r: string)
    ensures var lo := LeadEnd(s, 0);
            lo + |r| <= |s| && r == s[lo..lo + |r|]
            && (forall k :: 0 <= k < lo ==> IsSpace(s[k]))
            && (forall k :: lo + |r| <= k < |s| ==> IsSpace(s[k]))
    ensures r != [] ==> !IsSpace(r[0]) && !IsSpace(r[|r| - 1])
  {
    var lo := LeadEnd(s, 0);
    var hi := TrailStart(s, lo, |s|);
    assert lo < |s| ==> lo < hi;
    s[lo..hi]
  }

  lemma StripOfUnpadded(s: string)
    requires s == [] || (!IsSpace(s[0]) && !IsSpace(s[|s| - 1]))
    ensures Strip(s) == s
  {
    assert LeadEnd(s, 0) == 0;
    assert TrailStart(s, 0, |s|) == |s|;
  }

  /** No digit is whitespace. */
  lemma DigitIsNotSpace(c: char)
    requires IsDigit(c)
    ensures !IsSpace(c)
  {
  }

  /** The first element of `s.split()`, or None when `s` is all whitespace
      (where Python's `s.split()[0]` raises IndexError). */
  function FirstToken(s: string): (r: Option<string>)
    ensures r.None? <==> AllSpace(s)
    ensures r.Some? ==> r.value != [] && (forall k :: 0 <= k < |r.value| ==> !IsSpace(r.value[k]))
  {
    var t := StripLeft(s);
    if t == [] then
      assert s[..|s|] == s;
      None
    else
      assert !AllSpace(s) by { assert s[|s| - |t|] == t[0]; }
      Some(TakeWord(t))
  }

  /** The longest prefix of `s` without whitespace. */
  function TakeWord(s: string): (w: string)
    ensures |w| <= |s| && w == s[..|w|]
    ensures forall k :: 0 <= k < |w| ==> !IsSpace(w[k])
    ensures |w| < |s| ==> IsSpace(s[|w|])
  {
    if s == [] || IsSpace(s[0]) then [] else [s[0]] + TakeWord(s[1..])
  }

  // ---------------------------------------------------------------------
  // int(text) and str(n)
  // ---------------------------------------------------------------------

  /** The digit part Python's `int` accepts: ASCII digits, with single
      underscores allowed between two digits (`1_000`). */
  predicate DigitRun(d: string) {
    d != [] && IsDigit(d[0]) && DigitsOrUnderscores(d)
    && forall i :: 0 <= i < |d| && d[i] == '_' ==> i + 1 < |d| && IsDigit(d[i + 1])
  }

  predicate DigitsOrUnderscores(d: string) {
    forall i :: 0 <= i < |d| ==> IsDigit(d[i]) || d[i] == '_'
  }

  /** The number a digit run denotes (underscores carry no value). */
  function RunValue(d: string): nat
    requires DigitsOrUnderscores(d)
  {
    if d == [] then 0
    else if IsDigit(d[|d| - 1]) then 10 * RunValue(d[..|d| - 1]) + DigitValue(d[|d| - 1])
    else RunValue(d[..|d| - 1])
  }

  /** Python's `int(text)` for a `str`: surrounding whitespace is ignored, an
      optional sign, then a digit run; anything else is a ValueError (None). */
  function ParseInt(s: string): (r: Option<int>)
    ensures r.Some? ==> Strip(s) != [] && IsDigit(Strip(s)[|Strip(s)| - 1])
  {
    ParseTrimmed(Strip(s))
  }

  /** `int` once the surrounding whitespace is gone. */
  function ParseTrimmed(t: string): (r: Option<int>)
    ensures r.Some? ==> t != [] && IsDigit(t[|t| - 1])
  {
    if t == [] then None
    else if (t[0] == '-' || t[0] == '+') && DigitRun(t[1..]) then
      var magnitude: int := RunValue(t[1..]);
      Some(if t[0] == '-' then -magnitude else magnitude)
    else if DigitRun(t) then Some(RunValue(t))
    else None
  }

  /** `int(text)` strips the text itself, so stripping it first changes
      nothing. */
  lemma ParseIntOfStripped(s: string)
    ensures ParseInt(Strip(s)) == ParseInt(s)
  {
    StripOfUnpadded(Strip(s));
  }

  /** Python's `str(n)` for a non-negative int. */
  function NatToString(n: nat): (s: string)
    ensures s != [] && forall i :: 0 <= i < |s| ==> IsDigit(s[i])
    decreases n
  {
    if n < 10 then [DigitChar(n)] else NatToString(n / 10) + [DigitChar(n % 10)]
  }

  /** Python's `str(n)` for an int. */
  function IntToString(n: int): (s: string)
    ensures s != [] && IsDigit(s[|s| - 1])
  {
    if n < 0 then "-" + NatToString(-n) else NatToString(n)
  }

  lemma {:induction false} NatToStringValue(n: nat)
    ensures DigitRun(NatToString(n))
    ensures RunValue(NatToString(n)) == n
    decreases n
  {
    var s := NatToString(n);
    if n >= 10 {
      NatToStringValue(n / 10);
      assert s[..|s| - 1] == NatToString(n / 10);
    }
  }

  lemma ParseDigitRun(d: string)
    requires DigitRun(d)
    ensures ParseInt(d) == Some(RunValue(d))
  {
    assert IsDigit(d[|d| - 1]);
    DigitIsNotSpace(d[0]);
    DigitIsNotSpace(d[|d| - 1]);
    StripOfUnpadded(d);
    assert ParseTrimmed(d) == Some(RunValue(d));
  }

  lemma ParseNegativeDigitRun(d: string)
    requires DigitRun(d)
    ensures ParseInt("-" + d) == Some(-(RunValue(d) as int))
  {
    var s := "-" + d;
    assert s[1..] == d;
    assert s[|s| - 1] == d[|d| - 1];
    assert IsDigit(d[|d| - 1]);
    DigitIsNotSpace(d[|d| - 1]);
    StripOfUnpadded(s);
    assert ParseTrimmed(s) == Some(-(RunValue(d) as int));
  }

  /** `int(str(n)) == n`: the decimal text of an int parses back to it. */
  lemma IntToStringRoundTrip(n: int)
    ensures ParseInt(IntToString(n)) == Some(n)
  {
    if n < 0 {
      var m: nat := -n;
      var d := NatToString(m);
      NatToStringValue(m);
      ParseNegativeDigitRun(d);
      assert IntToString(n) == "-" + d;
    } else {
      NatToStringValue(n);
      ParseDigitRun(NatToString(n));
    }
  }

  // ---------------------------------------------------------------------
  // html.escape
  // ---------------------------------------------------------------------

  function EscapeChar(c: char): string {
    if c == '&' then "&amp;"
    else if c == '<' then "&lt;"
    else if c == '>' then "&gt;"
    else if c == '"' then "&quot;"
    else if c == '\'' then "&#x27;"
    else [c]
  }

  predicate Special(c: char) {
    c == '<' || c == '>' || c == '"' || c == '\''
  }

  /** Python's `html.escape(s)` (with `quote=True`): the result holds none of
      the markup-significant characters, and text without them (and without
      `&`) is returned unchanged. */
  function HtmlEscape(s: string): (r: string)
    ensures forall k :: 0 <= k < |r| ==> !Special(r[k])
    ensures (forall k :: 0 <= k < |s| ==> !Special(s[k]) && s[k] != '&') ==> r == s
  {
    if s == [] then [] else EscapeChar(s[0]) + HtmlEscape(s[1..])
  }

  // ---------------------------------------------------------------------
  // Ordering of strings, as `sorted` uses it
  // ---------------------------------------------------------------------

  /** Python's `a < b` on `str`: code-point lexicographic order, a proper
      prefix coming first. */
  predicate Less(a: string, b: string) {
    if a == [] then b != []
    else if b == [] then false
    else a[0] < b[0] || (a[0] == b[0] && Less(a[1..], b[1..]))
  }

  lemma {:induction false} LessIrreflexiveAsymmetric(a: string, b: string)
    ensures !Less(a, a)
    ensures Less(a, b) ==> !Less(b, a)
  {
    if a != [] {
      LessIrreflexiveAsymmetric(a[1..], a[1..]);
      if b != [] { LessIrreflexiveAsymmetric(a[1..], b[1..]); }
    }
  }

  lemma {:induction false} LessTransitive(a: string, b: string, c: string)
    requires Less(a, b) && Less(b, c)
    ensures Less(a, c)
  {
    if a != [] && a[0] == b[0] && b[0] == c[0] {
      LessTransitive(a[1..], b[1..], c[1..]);
    }
  }

  lemma {:induction false} LessTotal(a: string, b: string)
    requires a != b
    ensures Less(a, b) || Less(b, a)
  {
    if a != [] && b != [] && a[0] == b[0] {
      assert a == [a[0]] + a[1..] && b == [b[0]] + b[1..];
      LessTotal(a[1..], b[1..]);
    }
  }

  predicate IsMinimum(m: string, s: set<string>) {
    m in s && forall x :: x in s && x != m ==> Less(m, x)
  }

  lemma {:induction false} MinimumExists(s: set<string>)
    requires s != {}
    ensures exists m :: IsMinimum(m, s)
    decreases |s|
  {
    var x :| x in s;
    if s != {x} {
      MinimumExists(s - {x});
      var m :| IsMinimum(m, s - {x});
      if Less(x, m) {
        forall y | y in s && y != x ensures Less(x, y) {
          if y != m { LessTransitive(x, m, y); }
        }
        assert IsMinimum(x, s);
      } else {
        LessTotal(x, m);
        assert IsMinimum(m, s);
      }
    } else {
      assert IsMinimum(x, s);
    }
  }

  lemma MinimumUnique(m1: string, m2: string, s: set<string>)
    requires IsMinimum(m1, s) && IsMinimum(m2, s)
    ensures m1 == m2
  {
    if m1 != m2 { LessIrreflexiveAsymmetric(m1, m2); }
  }

  function Minimum(s: set<string>): (m: string)
    requires s != {}
    ensures IsMinimum(m, s)
  {
    MinimumExists(s);
    forall m1, m2 | IsMinimum(m1, s) && IsMinimum(m2, s) ensures m1 == m2 {
      MinimumUnique(m1, m2, s);
    }
    var m :| IsMinimum(m, s); m
  }

  predicate StrictlySorted(r: seq<string>) {
    forall i, j :: 0 <= i < j < |r| ==> Less(r[i], r[j])
  }

  /** Python's `sorted(s)` for a set of strings: every element exactly once,
      in increasing order. */
  function SortedNames(s: set<string>): (r: seq<string>)
    ensures |r| == |s|
    ensures forall x :: x in s <==> x in r
    ensures StrictlySorted(r)
    decreases |s|
  {
    if s == {} then []
    else
      var m := Minimum(s);
      var rest := SortedNames(s - {m});
      assert forall j :: 0 <= j < |rest| ==> Less(m, rest[j]) by {
        forall j | 0 <= j < |rest| ensures Less(m, rest[j]) { assert rest[j] in s - {m}; }
      }
      [m] + rest
  }
}
