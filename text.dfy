/**
 * String operations of the Java and Python standard libraries that the
 * converter relies on, with the exact character classes each one uses.
 */
module Text {

  /** `String.trim()` in Java removes every character at or below U+0020. */
  predicate IsJavaTrimmed(c: char) {
    c <= ' '
  }

  /** The class `\s` of a Java regular expression without UNICODE_CHARACTER_CLASS. */
  predicate IsJavaRegexSpace(c: char) {
    c == ' ' || c == '\t' || c == '\n' || c == '\U{B}' || c == '\U{C}' || c == '\r'
  }

  /** `str.isspace()` in Python, which is also what `str.strip()` and the `\s` of a `str` pattern use. */
  predicate IsPySpace(c: char) {
    ('\t' <= c <= '\r') || ('\U{1C}' <= c <= ' ') || c == '\U{85}' || c == '\U{A0}'
    || c == '\U{1680}' || ('\U{2000}' <= c <= '\U{200A}') || c == '\U{2028}' || c == '\U{2029}'
    || c == '\U{202F}' || c == '\U{205F}' || c == '\U{3000}'
  }

  /** The characters a Java regular expression treats as line terminators (`.` stops at them). */
  predicate IsJavaLineTerminator(c: char) {
    c == '\n' || c == '\r' || c == '\U{85}' || c == '\U{2028}' || c == '\U{2029}'
  }

  /** `\d` in both dialects, restricted to ASCII digits (see the README for Python's wider class). */
  predicate IsDigit(c: char) {
    '0' <= c <= '9'
  }

  /** Every Java-regex space is trimmed by Java's `trim`, and is a Python space. */
  lemma RegexSpaceIsTrimmedAndPySpace(c: char)
    requires IsJavaRegexSpace(c)
    ensures IsJavaTrimmed(c) && IsPySpace(c)
  {
  }

  /** The number of leading characters of `s` in the class `sp`. */
  function LeadCount(s: string, sp: char -> bool): (n: nat)
    ensures n <= |s|
    ensures forall k :: 0 <= k < n ==> sp(s[k])
    ensures n == |s| || !sp(s[n])
  {
    if s == [] || !sp(s[0]) then 0 else 1 + LeadCount(s[1..], sp)
  }

  /** The number of trailing characters of `s` in the class `sp`. */
  function TrailCount(s: string, sp: char -> bool): (n: nat)
    ensures n <= |s|
    ensures forall k :: |s| - n <= k < |s| ==> sp(s[k])
    ensures n == |s| || !sp(s[|s| - 1 - n])
  {
    if s == [] || !sp(s[|s| - 1]) then 0 else 1 + TrailCount(s[..|s| - 1], sp)
  }

  /** `s` without its leading and trailing characters of class `sp`. */
  function Strip(s: string, sp: char -> bool): (r: string)
    ensures |r| <= |s|
    ensures r == [] <==> forall k :: 0 <= k < |s| ==> sp(s[k])
    ensures r != [] ==> !sp(r[0]) && !sp(r[|r| - 1])
    ensures LeadCount(s, sp) + |r| <= |s|
    ensures r == s[LeadCount(s, sp)..LeadCount(s, sp) + |r|]
  {
    var i := LeadCount(s, sp);
    if i == |s| then "" else
      var t := s[i..];
      assert !sp(t[0]);
      var j := TrailCount(t, sp);
      assert j < |t|;
      t[..|t| - j]
  }

  /** Stripping twice strips nothing more. */
  lemma StripIdempotent(s: string, sp: char -> bool)
    ensures Strip(Strip(s, sp), sp) == Strip(s, sp)
  {
    var r := Strip(s, sp);
    if r != [] {
      assert LeadCount(r, sp) == 0;
    }
  }

  /** A text that starts and ends outside the class is left as it is. */
  lemma StripUnpadded(s: string, sp: char -> bool)
    requires s != [] && !sp(s[0]) && !sp(s[|s| - 1])
    ensures Strip(s, sp) == s
  {
    assert LeadCount(s, sp) == 0;
    assert TrailCount(s, sp) == 0;
    assert s[0..] == s;
  }

  /** Java `s.trim()`. */
  function JavaTrim(s: string): string {
    Strip(s, IsJavaTrimmed)
  }

  /** Python `s.strip()`. */
  function PyStrip(s: string): string {
    Strip(s, IsPySpace)
  }

  /** `trim()` (Java) or `strip()` (Python). */
  function Trim(s: string, java: bool): string {
    if java then JavaTrim(s) else PyStrip(s)
  }

  /** Java `s.trim().isEmpty()`. */
  predicate JavaBlank(s: string) {
    forall k :: 0 <= k < |s| ==> IsJavaTrimmed(s[k])
  }

  /** Python `not s.strip()`. */
  predicate PyBlank(s: string) {
    forall k :: 0 <= k < |s| ==> IsPySpace(s[k])
  }

  lemma JavaBlankIffTrimEmpty(s: string)
    ensures JavaBlank(s) <==> JavaTrim(s) == ""
  {
  }

  lemma PyBlankIffStripEmpty(s: string)
    ensures PyBlank(s) <==> PyStrip(s) == ""
  {
  }

  /** `s.endsWith(suffix)`. */
  predicate EndsWith(s: string, suffix: string) {
    |suffix| <= |s| && s[|s| - |suffix|..] == suffix
  }

  /** Whether `c` occurs in `s`. */
  predicate Contains(s: string, c: char) {
    exists k :: 0 <= k < |s| && s[k] == c
  }

  /**
   * Java `s.indexOf(c, from)`: the first position at or after `from` that holds `c`,
   * or -1 (also when `from` is past the end).
   */
  function IndexOf(s: string, c: char, from: nat): (r: int)
    ensures -1 <= r < |s|
    ensures r == -1 ==> forall k :: from <= k < |s| ==> s[k] != c
    ensures r >= 0 ==> from <= r && s[r] == c && forall k :: from <= k < r ==> s[k] != c
    decreases |s| - from
  {
    if from >= |s| then -1
    else if s[from] == c then from
    else IndexOf(s, c, from + 1)
  }

  /** A position holding `c` with no `c` between `from` and it is what `IndexOf` finds. */
  lemma IndexOfFinds(s: string, c: char, from: nat, i: nat)
    requires from <= i < |s| && s[i] == c
    requires forall k :: from <= k < i ==> s[k] != c
    ensures IndexOf(s, c, from) == i
  {
  }

  /** `IndexOf` gives -1 when no `c` lies at or after `from`. */
  lemma IndexOfMisses(s: string, c: char, from: nat)
    requires forall k :: from <= k < |s| ==> s[k] != c
    ensures IndexOf(s, c, from) == -1
  {
  }

  /** The pieces joined with the separator in between. */
  function Join(parts: seq<string>, sep: string): string {
    if parts == [] then ""
    else if |parts| == 1 then parts[0]
    else parts[0] + sep + Join(parts[1..], sep)
  }

  /** Python `s.split(c)`: every piece, including empty ones at either end. */
  function Split(s: string, c: char): (r: seq<string>)
    ensures |r| >= 1
    ensures forall p :: p in r ==> !Contains(p, c)
    decreases |s|
  {
    var i := IndexOf(s, c, 0);
    if i < 0 then [s] else [s[..i]] + Split(s[i + 1..], c)
  }

  /** Splitting and joining on the same character gives back the text. */
  lemma {:induction false} JoinSplit(s: string, c: char)
    ensures Join(Split(s, c), [c]) == s
    decreases |s|
  {
    var i := IndexOf(s, c, 0);
    if i >= 0 {
      JoinSplit(s[i + 1..], c);
      assert s == s[..i] + [c] + s[i + 1..];
    }
  }

  /** In a piece free of `c`, then `c`, then the rest, the first `c` ends the piece. */
  lemma JoinFirstSeparator(p0: string, rest: string, c: char)
    requires !Contains(p0, c)
    ensures IndexOf(p0 + [c] + rest, c, 0) == |p0|
    ensures (p0 + [c] + rest)[..|p0|] == p0 && (p0 + [c] + rest)[|p0| + 1..] == rest
  {
    var s := p0 + [c] + rest;
    assert forall k :: 0 <= k < |p0| ==> s[k] == p0[k];
    IndexOfFinds(s, c, 0, |p0|);
  }

  /** Joining pieces free of the separator and splitting again gives back the pieces. */
  lemma {:induction false} SplitJoin(parts: seq<string>, c: char)
    requires parts != []
    requires forall p :: p in parts ==> !Contains(p, c)
    ensures Split(Join(parts, [c]), c) == parts
    decreases |parts|
  {
    var p0 := parts[0];
    assert p0 in parts;
    if |parts| == 1 {
      IndexOfMisses(p0, c, 0);
      assert Split(Join(parts, [c]), c) == [p0];
    } else {
      var tail := parts[1..];
      var rest := Join(tail, [c]);
      var s := Join(parts, [c]);
      assert s == p0 + [c] + rest;
      JoinFirstSeparator(p0, rest, c);
      assert Split(s, c) == [p0] + Split(rest, c);
      assert forall p :: p in tail ==> p in parts;
      SplitJoin(tail, c);
      assert parts == [p0] + tail;
    }
  }

  /** `parts` without its trailing empty strings. */
  function DropTrailingEmpty(parts: seq<string>): (r: seq<string>)
    ensures r <= parts
    ensures r == [] || r[|r| - 1] != ""
    ensures forall k :: |r| <= k < |parts| ==> parts[k] == ""
  {
    if parts == [] || parts[|parts| - 1] != "" then parts
    else DropTrailingEmpty(parts[..|parts| - 1])
  }

  /**
   * Java `s.split(regex)` for a one-character literal separator and limit 0: the
   * whole string when the separator does not occur, otherwise every piece with the
   * trailing empty ones removed.
   */
  function JavaSplit(s: string, c: char): (r: seq<string>)
    ensures forall p :: p in r ==> !Contains(p, c)
    ensures !Contains(s, c) ==> r == [s]
    ensures Contains(s, c) ==> r == [] || r[|r| - 1] != ""
  {
    if IndexOf(s, c, 0) < 0 then [s] else DropTrailingEmpty(Split(s, c))
  }

  /** Java's split is Python's split with the trailing empty pieces taken off. */
  lemma JavaSplitIsSplitPrefix(s: string, c: char)
    ensures JavaSplit(s, c) <= Split(s, c)
    ensures forall k :: |JavaSplit(s, c)| <= k < |Split(s, c)| ==> Split(s, c)[k] == ""
  {
  }

  /** The decimal digit of `d`. */
  function DigitChar(d: nat): (c: char)
    requires d < 10
    ensures IsDigit(c)
  {
    ['0', '1', '2', '3', '4', '5', '6', '7', '8', '9'][d]
  }

  /** The value of an ASCII digit. */
  function DigitValue(c: char): (d: nat)
    requires IsDigit(c)
    ensures d < 10
  {
    (c as int - '0' as int) as nat
  }

  /** Decimal text of `n`, as Java's `String.valueOf(int)` and Python's `str(int)` write it. */
  function NatToString(n: nat): (r: string)
    ensures r != []
    ensures r[0] == '0' ==> n == 0 && r == "0"
  {
    if n < 10 then [DigitChar(n)] else NatToString(n / 10) + [DigitChar(n % 10)]
  }

  /** The decimal text of a number is made of digits only. */
  lemma {:induction false} NatToStringDigits(n: nat)
    ensures forall k :: 0 <= k < |NatToString(n)| ==> IsDigit(NatToString(n)[k])
  {
    if n >= 10 {
      NatToStringDigits(n / 10);
      var a, b := NatToString(n / 10), [DigitChar(n % 10)];
      assert forall k :: 0 <= k < |a + b| ==> (a + b)[k] == if k < |a| then a[k] else b[k - |a|];
    }
  }

  /** The value of a string of ASCII digits, leading zeros allowed (Python `int(s)`). */
  function ParseNat(s: string): nat
    requires forall k :: 0 <= k < |s| ==> IsDigit(s[k])
  {
    if s == [] then 0 else 10 * ParseNat(s[..|s| - 1]) + DigitValue(s[|s| - 1])
  }

  lemma DigitRoundTrip(d: nat)
    requires d < 10
    ensures DigitValue(DigitChar(d)) == d
  {
  }

  /** Printing a number and reading it back gives the number. */
  lemma {:induction false} ParseNatToString(n: nat)
    ensures forall k :: 0 <= k < |NatToString(n)| ==> IsDigit(NatToString(n)[k])
    ensures ParseNat(NatToString(n)) == n
  {
    NatToStringDigits(n);
    DigitRoundTrip(n % 10);
    if n >= 10 {
      ParseNatToString(n / 10);
      var s := NatToString(n);
      assert s[..|s| - 1] == NatToString(n / 10);
    }
  }

  /** Different numbers print differently, so keys built from counters are distinct. */
  lemma NatToStringInjective(m: nat, n: nat)
    requires m != n
    ensures NatToString(m) != NatToString(n)
  {
    ParseNatToString(m);
    ParseNatToString(n);
  }

  /**
   * Java `s.replace(target, replacement)` and Python `s.replace(old, new)`:
   * every non-overlapping occurrence of a non-empty pattern, found left to right, is replaced.
   */
  function ReplaceAll(s: string, pat: string, rep: string): string
    requires pat != []
    decreases |s|
  {
    if s == [] then ""
    else if pat <= s then rep + ReplaceAll(s[|pat|..], pat, rep)
    else [s[0]] + ReplaceAll(s[1..], pat, rep)
  }

  /** Whether `pat` occurs in `s` at position `k`. */
  predicate OccursAt(s: string, pat: string, k: int) {
    0 <= k && k + |pat| <= |s| && s[k..k + |pat|] == pat
  }

  /** Whether `pat` occurs in `s` at some position. */
  ghost predicate Occurs(s: string, pat: string) {
    exists k :: OccursAt(s, pat, k)
  }

  /** Text in which the pattern does not occur is left as it is. */
  lemma {:induction false} ReplaceAllAbsent(s: string, pat: string, rep: string)
    requires pat != []
    requires !Occurs(s, pat)
    ensures ReplaceAll(s, pat, rep) == s
    decreases |s|
  {
    if s != [] {
      if pat <= s {
        assert OccursAt(s, pat, 0);
        assert false;
      }
      assert !Occurs(s[1..], pat) by {
        forall k | OccursAt(s[1..], pat, k)
          ensures false
        {
          assert s[1..][k..k + |pat|] == s[k + 1..k + 1 + |pat|];
          assert OccursAt(s, pat, k + 1);
        }
      }
      ReplaceAllAbsent(s[1..], pat, rep);
    }
  }

  /** Occurrence of the pattern at the front of the text. */
  lemma OccursAtFront(s: string, pat: string)
    requires pat <= s
    ensures Occurs(s, pat)
  {
    assert OccursAt(s, pat, 0);
  }

  /** Occurrence after a prefix. */
  lemma OccursAfter(s: string, t: string, pat: string)
    requires Occurs(t, pat)
    ensures Occurs(s + t, pat)
  {
    var k :| OccursAt(t, pat, k);
    assert (s + t)[|s| + k..|s| + k + |pat|] == t[k..k + |pat|];
    assert OccursAt(s + t, pat, |s| + k);
  }
}
