/**
 * The text rules the voice collector relies on: ASCII lower-casing,
 * `String.prototype.trim`, `String.prototype.includes`, and the regular
 * expression `/\d+/` (its `test` and the first match of `match`).
 */
module Text {
  import opened Promises

  /** `\d` in a JavaScript regular expression without the `u` flag: an ASCII digit. */
  predicate IsDigit(c: char) {
    '0' <= c <= '9'
  }

  /** The WhiteSpace and LineTerminator code points that `trim` removes. */
  const Whitespace: set<char> := {'\t', '\n', '\U{000B}', '\U{000C}', '\r', ' ', '\U{00A0}', '\U{1680}',
    '\U{2000}', '\U{2001}', '\U{2002}', '\U{2003}', '\U{2004}', '\U{2005}', '\U{2006}', '\U{2007}',
    '\U{2008}', '\U{2009}', '\U{200A}', '\U{2028}', '\U{2029}', '\U{202F}', '\U{205F}', '\U{3000}', '\U{FEFF}'}

  predicate IsWhitespace(c: char) {
    c in Whitespace
  }

  /** Every character of `s` from `lo` up to (not including) `hi` is whitespace. */
  ghost predicate WhitespaceBetween(s: string, lo: int, hi: int)
    requires 0 <= lo <= hi <= |s|
  {
    forall k :: lo <= k < hi ==> IsWhitespace(s[k])
  }

  predicate AllDigits(s: string) {
    forall i :: 0 <= i < |s| ==> IsDigit(s[i])
  }

  function LowerChar(c: char): char {
    if 'A' <= c <= 'Z' then (c as int + 32) as char else c
  }

  /** `toLowerCase`, restricted to the ASCII letters. */
  function ToLower(s: string): string {
    if s == [] then [] else [LowerChar(s[0])] + ToLower(s[1..])
  }

  function TrimStart(s: string): string {
    if s != [] && IsWhitespace(s[0]) then TrimStart(s[1..]) else s
  }

  function TrimEnd(s: string): string {
    if s != [] && IsWhitespace(s[|s| - 1]) then TrimEnd(s[..|s| - 1]) else s
  }

  /** `trim`: drop leading and trailing whitespace. */
  function Trim(s: string): string {
    TrimEnd(TrimStart(s))
  }

  /** `s[i..j]` is what is left once the whitespace around it is cut off. */
  ghost predicate TrimmedAt(s: string, i: int, j: int) {
    && 0 <= i <= j <= |s|
    && WhitespaceBetween(s, 0, i) && WhitespaceBetween(s, j, |s|)
    && (i < j ==> !IsWhitespace(s[i]) && !IsWhitespace(s[j - 1]))
  }

  ghost predicate StartCut(s: string, i: int) {
    0 <= i <= |s| && WhitespaceBetween(s, 0, i) && (i < |s| ==> !IsWhitespace(s[i]))
  }

  ghost predicate EndCut(s: string, j: int) {
    0 <= j <= |s| && WhitespaceBetween(s, j, |s|) && (0 < j ==> !IsWhitespace(s[j - 1]))
  }

  lemma {:induction false} TrimStartSlice(s: string)
    ensures exists i :: StartCut(s, i) && TrimStart(s) == s[i..]
  {
    if s != [] && IsWhitespace(s[0]) {
      TrimStartSlice(s[1..]);
      var i :| StartCut(s[1..], i) && TrimStart(s[1..]) == s[1..][i..];
      assert s[1..][i..] == s[i + 1..];
      assert StartCut(s, i + 1);
    } else {
      assert StartCut(s, 0) && s == s[0..];
    }
  }

  lemma {:induction false} TrimEndSlice(s: string)
    ensures exists j :: EndCut(s, j) && TrimEnd(s) == s[..j]
  {
    if s != [] && IsWhitespace(s[|s| - 1]) {
      var t := s[..|s| - 1];
      TrimEndSlice(t);
      var j :| EndCut(t, j) && TrimEnd(t) == t[..j];
      assert t[..j] == s[..j];
      assert EndCut(s, j);
    } else {
      assert EndCut(s, |s|) && s == s[..|s|];
    }
  }

  lemma CutsCombine(s: string, i: int, j: int)
    requires StartCut(s, i) && EndCut(s[i..], j)
    ensures TrimmedAt(s, i, i + j) && s[i..][..j] == s[i..i + j]
  {
    var t := s[i..];
    forall k | i + j <= k < |s| ensures IsWhitespace(s[k]) {
      assert s[k] == t[k - i];
    }
    if 0 < j {
      assert s[i + j - 1] == t[j - 1];
    }
  }

  /** `trim` returns a slice of its input, with only whitespace cut off on either side. */
  lemma TrimSlice(s: string)
    ensures exists i, j :: TrimmedAt(s, i, j) && Trim(s) == s[i..j]
  {
    TrimStartSlice(s);
    var i :| StartCut(s, i) && TrimStart(s) == s[i..];
    TrimEndSlice(s[i..]);
    var j :| EndCut(s[i..], j) && TrimEnd(s[i..]) == s[i..][..j];
    CutsCombine(s, i, j);
  }

  /** Trimming leaves nothing exactly when the text is whitespace only. */
  lemma TrimEmptyIffWhitespace(s: string)
    ensures Trim(s) == [] <==> WhitespaceBetween(s, 0, |s|)
  {
    TrimSlice(s);
    var i, j :| TrimmedAt(s, i, j) && Trim(s) == s[i..j];
  }

  /** `k` occurs in `s` at position `i`. */
  ghost predicate OccursAt(s: string, k: string, i: int) {
    0 <= i <= |s| - |k| && s[i..i + |k|] == k
  }

  ghost predicate Occurs(s: string, k: string) {
    exists i :: OccursAt(s, k, i)
  }

  /** `s.includes(k)`. */
  function Includes(s: string, k: string): bool
    decreases |s|
  {
    if |k| > |s| then false
    else if s[..|k|] == k then true
    else Includes(s[1..], k)
  }

  /** An occurrence after the first position is an occurrence in the rest. */
  lemma OccursAtShift(s: string, k: string, i: int)
    requires s != [] && 0 <= i
    ensures OccursAt(s, k, i + 1) <==> OccursAt(s[1..], k, i)
  {
    if i <= |s| - 1 - |k| {
      assert s[1..][i..i + |k|] == s[i + 1..i + 1 + |k|];
    }
  }

  /** `includes` finds `k` exactly when it occurs at some position. */
  lemma {:induction false} IncludesIsOccurs(s: string, k: string)
    ensures Includes(s, k) <==> Occurs(s, k)
    decreases |s|
  {
    if |k| > |s| {
    } else if s[..|k|] == k {
      assert OccursAt(s, k, 0);
    } else {
      IncludesIsOccurs(s[1..], k);
      if Occurs(s, k) {
        var i :| OccursAt(s, k, i);
        assert i != 0;
        OccursAtShift(s, k, i - 1);
      }
      if Occurs(s[1..], k) {
        var i :| OccursAt(s[1..], k, i);
        OccursAtShift(s, k, i);
      }
    }
  }

  /** A word of lower-case ASCII letters is solid. */
  lemma LowerWordIsSolid(k: string)
    requires |k| > 0 && forall m :: 0 <= m < |k| ==> 'a' <= k[m] <= 'z'
    ensures Solid(k)
  {
    forall m | 0 <= m < |k| ensures !IsWhitespace(k[m]) {
      assert k[m] !in Whitespace;
    }
  }

  /** A word none of whose characters is whitespace. */
  ghost predicate Solid(k: string) {
    |k| > 0 && forall m :: 0 <= m < |k| ==> !IsWhitespace(k[m])
  }

  lemma OccursWithinTrimmed(s: string, k: string, i: int, j: int, p: int)
    requires TrimmedAt(s, i, j) && Solid(k) && OccursAt(s, k, p)
    ensures OccursAt(s[i..j], k, p - i)
  {
    assert s[p] == k[0] && s[p + |k| - 1] == k[|k| - 1];
    assert !IsWhitespace(s[p]) && !IsWhitespace(s[p + |k| - 1]);
    assert i <= p && p + |k| <= j;
    var a, b := s[i..j][p - i..p - i + |k|], s[p..p + |k|];
    forall m | 0 <= m < |a| ensures a[m] == b[m] {
      assert a[m] == s[i..j][p - i + m] == s[p + m];
    }
    assert a == b;
  }

  lemma OccursInSlice(s: string, k: string, i: int, j: int, p: int)
    requires 0 <= i <= j <= |s| && OccursAt(s[i..j], k, p)
    ensures OccursAt(s, k, i + p)
  {
    var a, b := s[i..j][p..p + |k|], s[i + p..i + p + |k|];
    forall m | 0 <= m < |a| ensures a[m] == b[m] {
      assert a[m] == s[i..j][p + m] == s[i + p + m];
    }
    assert a == b;
  }

  /**
   * Cutting whitespace off the ends never removes an occurrence of a word
   * that holds no whitespace.
   */
  lemma IncludesIgnoresTrim(s: string, k: string)
    requires Solid(k)
    ensures Includes(Trim(s), k) <==> Includes(s, k)
  {
    TrimSlice(s);
    var i, j :| TrimmedAt(s, i, j) && Trim(s) == s[i..j];
    IncludesIsOccurs(s, k);
    IncludesIsOccurs(s[i..j], k);
    if Occurs(s, k) {
      var p :| OccursAt(s, k, p);
      OccursWithinTrimmed(s, k, i, j, p);
    }
    if Occurs(s[i..j], k) {
      var p :| OccursAt(s[i..j], k, p);
      OccursInSlice(s, k, i, j, p);
    }
  }

  /** The longest prefix of `s` made of digits. */
  function LeadingDigits(s: string): (d: string)
    ensures |d| <= |s| && d == s[..|d|] && AllDigits(d)
    ensures |d| < |s| ==> !IsDigit(s[|d|])
  {
    if s != [] && IsDigit(s[0]) then [s[0]] + LeadingDigits(s[1..]) else []
  }

  /** The position of the first digit of `s`, or `|s|` when there is none. */
  function FirstDigitIndex(s: string): (p: nat)
    ensures p <= |s| && (p < |s| ==> IsDigit(s[p]))
    ensures forall j :: 0 <= j < p ==> !IsDigit(s[j])
  {
    if s == [] then 0 else if IsDigit(s[0]) then 0 else 1 + FirstDigitIndex(s[1..])
  }

  /** `d` is the leftmost maximal run of digits in `s`, starting at `p`. */
  ghost predicate IsFirstDigitRun(s: string, p: int, d: string) {
    && 0 <= p && p + |d| <= |s| && |d| > 0
    && s[p..p + |d|] == d && AllDigits(d)
    && (forall j :: 0 <= j < p ==> !IsDigit(s[j]))
    && (p + |d| == |s| || !IsDigit(s[p + |d|]))
  }

  /** The first element of `s.match(/\d+/)`, or `None` where `match` gives `null`. */
  function MatchDigits(s: string): Option<string> {
    var p := FirstDigitIndex(s);
    if p == |s| then None else Some(LeadingDigits(s[p..]))
  }

  /** The digits from the first one on form the leftmost maximal digit run. */
  lemma LeadingDigitsRun(s: string, p: nat)
    requires p < |s| && IsDigit(s[p]) && forall j :: 0 <= j < p ==> !IsDigit(s[j])
    ensures IsFirstDigitRun(s, p, LeadingDigits(s[p..]))
  {
    var t := s[p..];
    var d := LeadingDigits(t);
    assert IsDigit(t[0]) && d == [t[0]] + LeadingDigits(t[1..]);
    assert d == t[..|d|] == s[p..p + |d|];
    if |d| < |t| {
      assert t[|d|] == s[p + |d|];
    }
  }

  /**
   * `match(/\d+/)` fails exactly when there is no digit, and otherwise yields
   * the leftmost maximal digit run.
   */
  lemma MatchDigitsSpec(s: string)
    ensures MatchDigits(s).None? <==> forall i :: 0 <= i < |s| ==> !IsDigit(s[i])
    ensures MatchDigits(s).Some? ==> IsFirstDigitRun(s, FirstDigitIndex(s), MatchDigits(s).value)
  {
    var p := FirstDigitIndex(s);
    if p < |s| {
      LeadingDigitsRun(s, p);
    }
  }

  /** A string has at most one leftmost maximal digit run. */
  lemma FirstDigitRunUnique(s: string, p: int, d: string, q: int, e: string)
    requires IsFirstDigitRun(s, p, d) && IsFirstDigitRun(s, q, e)
    ensures p == q && d == e
  {
    assert s[p] == d[0] && s[q] == e[0];
    if |d| < |e| {
      assert false;
    } else if |e| < |d| {
      assert false;
    }
  }

  /** `/\d+/.test(s)`. */
  function TestDigits(s: string): bool {
    MatchDigits(s).Some?
  }
}
