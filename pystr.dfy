/**
 * The parts of Python's `str` and `os.path` behaviour that the core relies on:
 * `str.strip()`, `str.lower()` on the characters that matter, `sep.join(...)`,
 * slicing `s[:n]`, `s.split('.')[0]`, `os.path.splitext` (POSIX flavour),
 * and the conversions between `int` and its decimal `str`.
 */
module PyStr {
  import opened Common

  // ---------------------------------------------------------------------------
  // Whitespace and strip()
  // ---------------------------------------------------------------------------

  /** Python's `str.isspace()` on a single character. */
  predicate IsSpace(c: char) {
    || c == ' '
    || ('\t' <= c <= '\r')
    || ('\U{1C}' <= c <= '\U{1F}')
    || c == '\U{85}' || c == '\U{A0}' || c == '\U{1680}'
    || ('\U{2000}' <= c <= '\U{200A}')
    || c == '\U{2028}' || c == '\U{2029}' || c == '\U{202F}' || c == '\U{205F}' || c == '\U{3000}'
  }

  predicate AllSpace(s: string) {
    forall i :: 0 <= i < |s| ==> IsSpace(s[i])
  }

  /** Neither end of `s` is whitespace: what `strip()` always returns. */
  predicate IsStripped(s: string) {
    s == [] || (!IsSpace(s[0]) && !IsSpace(s[|s| - 1]))
  }

  /** Index of the first non-whitespace character at or after `i` (or `|s|`). */
  function SkipSpace(s: string, i: nat): (k: nat)
    requires i <= |s|
    ensures i <= k <= |s|
    ensures forall j :: i <= j < k ==> IsSpace(s[j])
    ensures k < |s| ==> !IsSpace(s[k])
    decreases |s| - i
  {
    if i < |s| && IsSpace(s[i]) then SkipSpace(s, i + 1) else i
  }

  /** Scanning back from `k` no further than `lo`: the end of the text before trailing whitespace. */
  function SkipSpaceBack(s: string, lo: nat, k: nat): (e: nat)
    requires lo <= k <= |s|
    ensures lo <= e <= k
    ensures forall j :: e <= j < k ==> IsSpace(s[j])
    ensures e > lo ==> !IsSpace(s[e - 1])
  {
    if k > lo && IsSpace(s[k - 1]) then SkipSpaceBack(s, lo, k - 1) else k
  }

  /**
   * `s.strip()`: the result is a stretch of `s` with no whitespace at either end,
   * and everything cut off on both sides is whitespace.
   */
  function Strip(s: string): (r: string)
    ensures IsStripped(r)
    ensures var i := SkipSpace(s, 0);
      i + |r| <= |s| && r == s[i..i + |r|] && AllSpace(s[..i]) && AllSpace(s[i + |r|..])
  {
    var i := SkipSpace(s, 0);
    var e := SkipSpaceBack(s, i, |s|);
    assert forall j :: 0 <= j < |s[e..]| ==> s[e..][j] == s[e + j];
    s[i..e]
  }

  lemma {:induction false} SkipSpaceOfPadded(s: string, i: nat, k: nat)
    requires i <= k <= |s|
    requires forall j :: i <= j < k ==> IsSpace(s[j])
    requires k < |s| ==> !IsSpace(s[k])
    ensures SkipSpace(s, i) == k
    decreases k - i
  {
    if i < k { SkipSpaceOfPadded(s, i + 1, k); }
  }

  lemma {:induction false} SkipSpaceBackOfPadded(s: string, lo: nat, k: nat, e: nat)
    requires lo <= e <= k <= |s|
    requires forall j :: e <= j < k ==> IsSpace(s[j])
    requires e > lo ==> !IsSpace(s[e - 1])
    ensures SkipSpaceBack(s, lo, k) == e
    decreases k
  {
    if e < k { SkipSpaceBackOfPadded(s, lo, k - 1, e); }
  }

  /**
   * The converse of Strip's contract: whatever whitespace surrounds a stripped
   * text, `strip()` gives back exactly that text.
   */
  lemma StripOfPadded(a: string, t: string, b: string)
    requires AllSpace(a) && AllSpace(b) && IsStripped(t)
    ensures Strip(a + t + b) == t
  {
    var s := a + t + b;
    if t == [] {
      SkipSpaceOfPadded(s, 0, |s|);
      SkipSpaceBackOfPadded(s, |s|, |s|, |s|);
    } else {
      SkipSpaceOfPadded(s, 0, |a|);
      SkipSpaceBackOfPadded(s, |a|, |s|, |a| + |t|);
      assert s[|a|..|a| + |t|] == t;
    }
  }

  lemma StripIdempotent(s: string)
    ensures Strip(Strip(s)) == Strip(s)
  {
    var t := Strip(s);
    assert [] + t + [] == t;
    StripOfPadded([], t, []);
  }

  /** A trailing whitespace character never survives `strip()`. */
  lemma StripIgnoresTrailingSpace(s: string, c: char)
    requires IsSpace(c)
    ensures Strip(s + [c]) == Strip(s)
  {
    var r := Strip(s);
    var i := SkipSpace(s, 0);
    var a, b := s[..i], s[i + |r|..];
    assert s == a + r + b;
    assert AllSpace(b + [c]);
    assert s + [c] == a + r + (b + [c]);
    StripOfPadded(a, r, b + [c]);
  }

  // ---------------------------------------------------------------------------
  // lower()
  // ---------------------------------------------------------------------------

  /** `c.lower()` on ASCII letters; every other character is kept. */
  function LowerChar(c: char): char {
    if 'A' <= c <= 'Z' then (c as int + 32) as char else c
  }

  function Lower(s: string): (r: string)
    ensures |r| == |s| && forall i :: 0 <= i < |s| ==> r[i] == LowerChar(s[i])
  {
    seq(|s|, i requires 0 <= i < |s| => LowerChar(s[i]))
  }

  lemma LowerIdempotent(s: string)
    ensures Lower(Lower(s)) == Lower(s)
  {
  }

  // ---------------------------------------------------------------------------
  // join, slicing, split
  // ---------------------------------------------------------------------------

  /** `sep.join(parts)`. */
  function Join(sep: string, parts: seq<string>): string
  {
    if |parts| == 0 then ""
    else if |parts| == 1 then parts[0]
    else parts[0] + sep + Join(sep, parts[1..])
  }

  /** Joining one more part adds the separator and that part at the end. */
  lemma {:induction false} JoinSnoc(sep: string, parts: seq<string>, x: string)
    requires parts != []
    ensures Join(sep, parts + [x]) == Join(sep, parts) + sep + x
    decreases |parts|
  {
    if |parts| > 1 {
      assert (parts + [x])[1..] == parts[1..] + [x];
      JoinSnoc(sep, parts[1..], x);
    }
  }

  /** `s[:n]` for a non-negative `n`. */
  function Take(s: string, n: nat): (r: string)
  {
    if n < |s| then s[..n] else s
  }

  /** Index of the first `c` in `s`, or `|s|` when there is none. */
  function FindOrEnd(s: string, c: char): (k: nat)
    ensures k <= |s| && c !in s[..k]
    ensures k < |s| ==> s[k] == c
  {
    if |s| == 0 || s[0] == c then 0
    else
      var k := FindOrEnd(s[1..], c) + 1;
      assert s[..k] == [s[0]] + s[1..][..k - 1];
      k
  }

  /** `s.split(c)[0]`: everything before the first `c`. */
  function BeforeFirst(s: string, c: char): string
  {
    s[..FindOrEnd(s, c)]
  }

  /** `s.rfind(c)`: index of the last `c`, or -1. */
  function RFind(s: string, c: char): (k: int)
    ensures -1 <= k < |s|
    ensures k >= 0 ==> s[k] == c
    ensures forall j :: k < j < |s| ==> s[j] != c
  {
    if |s| == 0 then -1
    else if s[|s| - 1] == c then |s| - 1
    else RFind(s[..|s| - 1], c)
  }

  // ---------------------------------------------------------------------------
  // os.path.splitext (posixpath): the extension starts at the last dot of the
  // last path component, unless everything before that dot in the component
  // is dots too (".bashrc" and "..pdf" have no extension).
  // ---------------------------------------------------------------------------

  /** Some character of `p` strictly between `lo` and `hi` is not a dot. */
  predicate NonDotBetween(p: string, lo: int, hi: int)
    requires -1 <= lo && hi <= |p|
  {
    exists k :: lo < k < hi && p[k] != '.'
  }

  /** `os.path.splitext(p)[1]`. */
  function Ext(p: string): (e: string)
    ensures e == [] || (|e| <= |p| && e == p[|p| - |e|..] && e[0] == '.')
    ensures forall j :: 0 < j < |e| ==> e[j] != '.' && e[j] != '/'
  {
    var sep := RFind(p, '/');
    var dot := RFind(p, '.');
    if dot > sep && NonDotBetween(p, sep, dot) then p[dot..] else ""
  }

  /** `p` has a base name (the part after its last '/') that is not all dots. */
  predicate HasNamedBase(p: string) {
    NonDotBetween(p, RFind(p, '/'), |p|)
  }

  lemma {:induction false} RFindAppend(s: string, y: string, c: char)
    requires c !in y
    ensures RFind(s + y, c) == RFind(s, c)
    decreases |y|
  {
    if y != [] {
      assert (s + y)[..|s + y| - 1] == s + y[..|y| - 1];
      RFindAppend(s, y[..|y| - 1], c);
    } else {
      assert s + y == s;
    }
  }

  /**
   * Only the last extension counts: appending "." + x (x free of dots and slashes)
   * to a path with a named base gives the extension "." + x, whatever dots the
   * path already had.
   */
  lemma ExtOfAppended(stem: string, x: string)
    requires HasNamedBase(stem)
    requires '.' !in x && '/' !in x
    ensures Ext(stem + "." + x) == "." + x
  {
    var p := stem + "." + x;
    assert p == (stem + ".") + x;
    RFindAppend(stem + ".", x, '.');
    RFindAppend(stem + ".", x, '/');
    RFindAppend(stem, ".", '/');
    assert RFind(stem + ".", '.') == |stem|;
    var sep := RFind(stem, '/');
    var k :| sep < k < |stem| && stem[k] != '.';
    assert p[k] == stem[k];
    assert p[|stem|..] == "." + x;
  }

  /** A path whose last component has no dot has no extension. */
  lemma ExtWithoutDot(p: string)
    requires forall j :: RFind(p, '/') < j < |p| ==> p[j] != '.'
    ensures Ext(p) == ""
  {
  }

  lemma {:induction false} RFindLower(p: string, c: char)
    requires c == '.' || c == '/'
    ensures RFind(Lower(p), c) == RFind(p, c)
    decreases |p|
  {
    if p != [] {
      assert Lower(p)[..|p| - 1] == Lower(p[..|p| - 1]);
      RFindLower(p[..|p| - 1], c);
    }
  }

  /** Lower-casing a path and taking its extension commute. */
  lemma ExtLower(p: string)
    ensures Ext(Lower(p)) == Lower(Ext(p))
  {
    RFindLower(p, '.');
    RFindLower(p, '/');
    var sep, dot := RFind(p, '/'), RFind(p, '.');
    var q := Lower(p);
    if dot > sep {
      if NonDotBetween(p, sep, dot) {
        var k :| sep < k < dot && p[k] != '.';
        assert q[k] != '.';
        assert q[dot..] == Lower(p[dot..]);
      }
    }
  }

  // ---------------------------------------------------------------------------
  // str(n) and int(s) for non-negative decimal numbers
  // ---------------------------------------------------------------------------

  predicate IsDigit(c: char) { '0' <= c <= '9' }

  predicate IsDigits(s: string) {
    |s| > 0 && forall i :: 0 <= i < |s| ==> IsDigit(s[i])
  }

  function DigitChar(d: nat): (c: char)
    requires d < 10
    ensures IsDigit(c) && DigitValue(c) == d
  {
    ('0' as int + d) as char
  }

  /** `str(n)`. */
  function NatToString(n: nat): (s: string)
    ensures IsDigits(s)
  {
    if n < 10 then [DigitChar(n)] else NatToString(n / 10) + [DigitChar(n % 10)]
  }

  function DigitValue(c: char): nat
    requires IsDigit(c)
  {
    c as int - '0' as int
  }

  function DigitsValue(s: string): nat
    requires forall i :: 0 <= i < |s| ==> IsDigit(s[i])
  {
    if |s| == 0 then 0 else DigitsValue(s[..|s| - 1]) * 10 + DigitValue(s[|s| - 1])
  }

  /** `int(s)` restricted to plain decimal digits; anything else is rejected. */
  function ParseNat(s: string): (r: Option<nat>)
    ensures r.Some? <==> IsDigits(s)
  {
    if IsDigits(s) then Some(DigitsValue(s)) else None
  }

  /** Reading back the decimal text of a number gives the number. */
  lemma {:induction false} ParseNatToString(n: nat)
    ensures ParseNat(NatToString(n)) == Some(n)
  {
    var s := NatToString(n);
    if n < 10 {
      assert s[..|s| - 1] == [];
      assert DigitsValue(s) == DigitValue(DigitChar(n));
    } else {
      ParseNatToString(n / 10);
      assert s[..|s| - 1] == NatToString(n / 10);
      assert DigitsValue(s) == DigitsValue(NatToString(n / 10)) * 10 + n % 10;
    }
  }
}
