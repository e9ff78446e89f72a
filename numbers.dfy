/**
 * Number rewriting in table cells and template text. Both dialects visit the
 * matches of the pattern `\d+(\.\d+)?` from left to right and replace each match,
 * copying everything between matches unchanged:
 *  - Java `formatTableNumber` hands every match to `DecimalFormat("#,##0.0")`
 *    (an oracle here: the formatter of the parsed `double`);
 *  - Python `format_number_with_thousands_separator` groups the integer part with
 *    commas and keeps the decimal part verbatim.
 */
module Numbers {
  import opened Wrappers
  import opened Text

  /** The number of leading ASCII digits of `s` (the `\d+` part of a match). */
  function DigitRun(s: string): (n: nat)
    ensures n <= |s|
    ensures forall k :: 0 <= k < n ==> IsDigit(s[k])
    ensures n == |s| || !IsDigit(s[n])
  {
    LeadCount(s, IsDigit)
  }

  /** The strings the pattern `\d+(\.\d+)?` matches in full. */
  predicate IsNumeral(m: string) {
    var d := DigitRun(m);
    0 < d && (d == |m| || (m[d] == '.' && d + 1 < |m| && DigitRun(m[d + 1..]) == |m| - d - 1))
  }

  /** The leading digits of a prefix that reaches past them are the same digits. */
  lemma DigitRunOfPrefix(s: string, k: nat)
    requires DigitRun(s) <= k <= |s|
    ensures DigitRun(s[..k]) == DigitRun(s)
  {
    var d, e := DigitRun(s), DigitRun(s[..k]);
  }

  /**
   * The length of the match that starts at a digit: the greedy `\d+`, then the
   * fraction when a '.' and a digit follow.
   */
  function MatchLen(s: string): (n: nat)
    requires s != [] && IsDigit(s[0])
    ensures 0 < n <= |s|
  {
    var d := DigitRun(s);
    if d + 1 < |s| && s[d] == '.' && IsDigit(s[d + 1]) then d + 1 + DigitRun(s[d + 1..]) else d
  }

  /** The match is a whole numeral, and no longer prefix of the text is one. */
  lemma MatchIsLongest(s: string)
    requires s != [] && IsDigit(s[0])
    ensures IsNumeral(s[..MatchLen(s)])
    ensures forall k :: MatchLen(s) < k <= |s| ==> !IsNumeral(s[..k])
  {
    MatchIsNumeral(s, DigitRun(s), MatchLen(s));
    MatchIsMaximal(s, DigitRun(s), MatchLen(s));
  }

  lemma MatchIsNumeral(s: string, d: nat, n: nat)
    requires s != [] && IsDigit(s[0]) && d == DigitRun(s)
    requires n == if d + 1 < |s| && s[d] == '.' && IsDigit(s[d + 1]) then d + 1 + DigitRun(s[d + 1..]) else d
    ensures IsNumeral(s[..n])
  {
    DigitRunOfPrefix(s, n);
    if n > d {
      var f := DigitRun(s[d + 1..]);
      assert s[..n][d + 1..] == s[d + 1..][..f];
      DigitRunOfPrefix(s[d + 1..], f);
    }
  }

  lemma MatchIsMaximal(s: string, d: nat, n: nat)
    requires s != [] && IsDigit(s[0]) && d == DigitRun(s)
    requires n == if d + 1 < |s| && s[d] == '.' && IsDigit(s[d + 1]) then d + 1 + DigitRun(s[d + 1..]) else d
    ensures forall k :: n < k <= |s| ==> !IsNumeral(s[..k])
  {
    forall k | n < k <= |s|
      ensures !IsNumeral(s[..k])
    {
      var p := s[..k];
      DigitRunOfPrefix(s, k);
      if n > d {
        var f := DigitRun(s[d + 1..]);
        assert p[d + 1..] == s[d + 1..][..k - d - 1];
        DigitRunOfPrefix(s[d + 1..], k - d - 1);
        assert p[d + 1..][f] == s[d + 1 + f];
      } else if k > d + 1 {
        assert p[d + 1..][0] == s[d + 1];
      }
    }
  }

  /** A piece of text as the matcher sees it: a character between matches, or a match. */
  datatype Token = Lit(c: char) | Num(m: string)

  /**
   * The text cut into the successive matches of `\d+(\.\d+)?` and the single
   * characters between them; a digit never stays outside a match.
   */
  function Tokens(s: string): (ts: seq<Token>)
    decreases |s|
  {
    if s == [] then []
    else if IsDigit(s[0]) then
      var n := MatchLen(s);
      [Num(s[..n])] + Tokens(s[n..])
    else [Lit(s[0])] + Tokens(s[1..])
  }

  /** Every match token matches the pattern in full, and no digit is left outside a match. */
  lemma {:induction false} TokensWellFormed(s: string)
    ensures forall i :: 0 <= i < |Tokens(s)| && Tokens(s)[i].Num? ==> IsNumeral(Tokens(s)[i].m)
    ensures forall i :: 0 <= i < |Tokens(s)| && Tokens(s)[i].Lit? ==> !IsDigit(Tokens(s)[i].c)
    decreases |s|
  {
    if s != [] {
      var ts := Tokens(s);
      var n := if IsDigit(s[0]) then MatchLen(s) else 1;
      if IsDigit(s[0]) {
        MatchIsLongest(s);
      }
      assert ts[1..] == Tokens(s[n..]);
      TokensWellFormed(s[n..]);
      forall i | 0 < i < |ts|
        ensures ts[i] == Tokens(s[n..])[i - 1]
      {
      }
    }
  }

  /** The text the tokens were cut from. */
  function Flatten(ts: seq<Token>): string {
    if ts == [] then ""
    else (match ts[0] case Lit(c) => [c] case Num(m) => m) + Flatten(ts[1..])
  }

  /** The tokens with every match replaced by `f` of it. */
  function Render(ts: seq<Token>, f: string -> string): string {
    if ts == [] then ""
    else (match ts[0] case Lit(c) => [c] case Num(m) => f(m)) + Render(ts[1..], f)
  }

  /** The length of the first token of a non-empty text. */
  function FrontLen(s: string): (n: nat)
    requires s != []
    ensures 0 < n <= |s|
  {
    if IsDigit(s[0]) then MatchLen(s) else 1
  }

  /** The first token of a non-empty text. */
  function Front(s: string): Token
    requires s != []
  {
    if IsDigit(s[0]) then Num(s[..FrontLen(s)]) else Lit(s[0])
  }

  /** A non-empty text cuts into its first token and the tokens of the rest. */
  lemma TokensFront(s: string)
    requires s != []
    ensures Tokens(s) == [Front(s)] + Tokens(s[FrontLen(s)..])
  {
  }

  /** The text of a token. */
  function Piece(t: Token): string {
    match t
    case Lit(c) => [c]
    case Num(m) => m
  }

  lemma FlattenCons(t: Token, ts: seq<Token>)
    ensures Flatten([t] + ts) == Piece(t) + Flatten(ts)
  {
    assert ([t] + ts)[1..] == ts;
  }

  lemma RenderCons(t: Token, ts: seq<Token>, f: string -> string)
    ensures Render([t] + ts, f) == (if t.Lit? then [t.c] else f(t.m)) + Render(ts, f)
  {
    assert ([t] + ts)[1..] == ts;
  }

  /** Cutting loses nothing: the tokens put back together give the text. */
  lemma {:induction false} TokensCover(s: string)
    ensures Flatten(Tokens(s)) == s
    decreases |s|
  {
    if s != [] {
      var n := FrontLen(s);
      FlattenFront(s);
      TokensCover(s[n..]);
      JoinAt(s, n, Flatten(Tokens(s)), Flatten(Tokens(s[n..])));
    }
  }

  /** The first token's text is the front of the text. */
  lemma FlattenFront(s: string)
    requires s != []
    ensures Flatten(Tokens(s)) == s[..FrontLen(s)] + Flatten(Tokens(s[FrontLen(s)..]))
  {
    TokensFront(s);
    FlattenCons(Front(s), Tokens(s[FrontLen(s)..]));
  }

  lemma JoinAt(s: string, n: nat, whole: string, rest: string)
    requires n <= |s| && whole == s[..n] + rest && rest == s[n..]
    ensures whole == s
  {
    assert s == s[..n] + s[n..];
  }

  /** Replacing every match by itself rebuilds the tokens' text. */
  lemma {:induction false} RenderIdentity(ts: seq<Token>)
    ensures Render(ts, m => m) == Flatten(ts)
  {
    if ts != [] {
      RenderIdentity(ts[1..]);
    }
  }

  /** Characters before the first digit are copied unchanged. */
  lemma {:induction false} SkipLiterals(s: string, j: nat, f: string -> string)
    requires j <= |s|
    requires forall k :: 0 <= k < j ==> !IsDigit(s[k])
    ensures Render(Tokens(s), f) == s[..j] + Render(Tokens(s[j..]), f)
  {
    if j > 0 {
      var t := s[1..];
      NoDigitsInTail(s, j);
      SkipOne(s, f);
      SkipLiterals(t, j - 1, f);
      DropDrop(s, 1, j - 1);
      SkipCombine(s, j, Render(Tokens(s), f), Render(Tokens(t), f), Render(Tokens(s[j..]), f));
    } else {
      assert s[..0] == [] && s[0..] == s;
    }
  }

  /** A character that is not a digit is copied and the rest is rewritten after it. */
  lemma SkipOne(s: string, f: string -> string)
    requires s != [] && !IsDigit(s[0])
    ensures Render(Tokens(s), f) == [s[0]] + Render(Tokens(s[1..]), f)
  {
    TokensFront(s);
    RenderCons(Lit(s[0]), Tokens(s[1..]), f);
  }

  lemma NoDigitsInTail(s: string, j: nat)
    requires 0 < j <= |s|
    requires forall k :: 0 <= k < j ==> !IsDigit(s[k])
    ensures !IsDigit(s[0]) && forall k :: 0 <= k < j - 1 ==> !IsDigit(s[1..][k])
  {
    forall k | 0 <= k < j - 1
      ensures !IsDigit(s[1..][k])
    {
      assert s[1..][k] == s[k + 1];
    }
  }

  lemma SkipCombine(s: string, j: nat, rs: string, rt: string, rj: string)
    requires 0 < j <= |s|
    requires rs == [s[0]] + rt
    requires rt == s[1..][..j - 1] + rj
    ensures rs == s[..j] + rj
  {
    assert s[..j] == [s[0]] + s[1..][..j - 1];
  }

  /** A text without digits comes back unchanged, whatever the replacement. */
  lemma NoDigitsUnchanged(s: string, f: string -> string)
    requires forall k :: 0 <= k < |s| ==> !IsDigit(s[k])
    ensures Render(Tokens(s), f) == s
  {
    SkipLiterals(s, |s|, f);
    assert s[|s|..] == [];
  }

  /** A match at the front of the text is replaced, and the rest is rewritten after it. */
  lemma ReplaceFront(s: string, f: string -> string)
    requires s != [] && IsDigit(s[0])
    ensures Render(Tokens(s), f) == f(s[..MatchLen(s)]) + Render(Tokens(s[MatchLen(s)..]), f)
  {
    var ts := Tokens(s);
    assert ts[1..] == Tokens(s[MatchLen(s)..]);
  }

  /** The first digit at or after `from`, or `|s|` when there is none (`Matcher.find`). */
  function NextDigit(s: string, from: nat): (j: nat)
    requires from <= |s|
    ensures from <= j <= |s|
    ensures forall k :: from <= k < j ==> !IsDigit(s[k])
    ensures j < |s| ==> IsDigit(s[j])
    decreases |s| - from
  {
    if from == |s| || IsDigit(s[from]) then from else NextDigit(s, from + 1)
  }

  /**
   * `formatTableNumber(text)` in md2doc-core: `null` and "" come back as they are;
   * otherwise each match is replaced by `df` of it (`appendReplacement`) and the
   * text after the last match is copied (`appendTail`). `df` stands for
   * `DecimalFormat("#,##0.0").format(Double.parseDouble(match))`; a match of this
   * pattern always parses, so the `NumberFormatException` branch cannot be taken.
   */
  method FormatTableNumber(text: Option<string>, df: string -> string) returns (r: Option<string>)
    ensures text.None? ==> r == None
    ensures text.Some? ==> r == Some(Render(Tokens(text.value), df))
  {
    if text.None? || text.value == [] {
      return text;
    }
    ghost var goal := Render(Tokens(text.value), df);
    var result := "";
    var tail := text.value;  // the text from the matcher's append position on
    var j: nat := NextDigit(tail, 0);
    while j < |tail|
      invariant j <= |tail|
      invariant forall k :: 0 <= k < j ==> !IsDigit(tail[k])
      invariant j < |tail| ==> IsDigit(tail[j])
      invariant result + Render(Tokens(tail), df) == goal
      decreases |tail|
    {
      var n := MatchLen(tail[j..]);
      ghost var gap, value, rest := NextMatch(tail, j, n, df);
      ghost var before := result;
      result := result + tail[..j] + df(tail[j..j + n]);
      Regroup(before, gap, value, rest);
      tail := tail[j + n..];
      j := NextDigit(tail, 0);
    }
    NoDigitsUnchanged(tail, df);
    result := result + tail;
    r := Some(result);
  }

  lemma Regroup(a: string, b: string, c: string, d: string)
    ensures a + b + c + d == a + (b + c + d)
  {
  }

  /** One round of the matcher loop: the gap before the match, the replacement, the rest. */
  lemma NextMatch(u: string, j: nat, n: nat, f: string -> string)
      returns (gap: string, value: string, rest: string)
    requires j < |u| && IsDigit(u[j])
    requires forall k :: 0 <= k < j ==> !IsDigit(u[k])
    requires n == MatchLen(u[j..])
    ensures j + n <= |u|
    ensures gap == u[..j] && value == f(u[j..j + n]) && rest == Render(Tokens(u[j + n..]), f)
    ensures Render(Tokens(u), f) == gap + value + rest
  {
    var v := u[j..];
    SkipLiterals(u, j, f);
    ReplaceFront(v, f);
    assert v[..n] == u[j..j + n] && v[n..] == u[j + n..];
    gap, value, rest := u[..j], f(v[..n]), Render(Tokens(v[n..]), f);
  }

  /** With the identity as formatter, `formatTableNumber` gives the text back. */
  method FormatIdentity(text: string) returns (r: Option<string>)
    ensures r == Some(text)
  {
    r := FormatTableNumber(Some(text), m => m);
    RenderIdentity(Tokens(text));
    TokensCover(text);
  }

  /** Three digits of `k`, zero-padded, as a group after a comma. */
  function Pad3(k: nat): (r: string)
    requires k < 1000
    ensures |r| == 3 && forall i :: 0 <= i < 3 ==> IsDigit(r[i])
  {
    [DigitChar(k / 100), DigitChar(k / 10 % 10), DigitChar(k % 10)]
  }

  /** Python `format(n, ',')` (and Java's `#,##0` integer part): digits grouped by three with commas. */
  function Group(n: nat): (r: string)
    ensures r != []
    decreases n
  {
    if n < 1000 then NatToString(n) else Group(n / 1000) + "," + Pad3(n % 1000)
  }

  /** The digits of a grouped number, commas removed. */
  function DropCommas(s: string): (r: string)
    ensures |r| <= |s|
  {
    if s == [] then "" else (if s[0] == ',' then "" else [s[0]]) + DropCommas(s[1..])
  }

  lemma {:induction false} DropCommasAppend(a: string, b: string)
    ensures DropCommas(a + b) == DropCommas(a) + DropCommas(b)
  {
    if a != [] {
      assert (a + b)[1..] == a[1..] + b;
      DropCommasAppend(a[1..], b);
    } else {
      assert a + b == b;
    }
  }

  lemma {:induction false} DropCommasOfDigits(s: string)
    requires forall i :: 0 <= i < |s| ==> IsDigit(s[i])
    ensures DropCommas(s) == s
  {
    if s != [] {
      DropCommasOfDigits(s[1..]);
    }
  }

  lemma {:induction false} DropCommasIsDigits(s: string)
    requires forall i :: 0 <= i < |s| ==> IsDigit(s[i]) || s[i] == ','
    ensures forall i :: 0 <= i < |DropCommas(s)| ==> IsDigit(DropCommas(s)[i])
  {
    if s != [] {
      DropCommasIsDigits(s[1..]);
    }
  }

  /** Reading digits written after other digits: the value shifts by a power of ten. */
  lemma {:induction false} ParseNatAppend(a: string, b: string)
    requires forall i :: 0 <= i < |a| ==> IsDigit(a[i])
    requires forall i :: 0 <= i < |b| ==> IsDigit(b[i])
    ensures ParseNat(a + b) == ParseNat(a) * Pow10(|b|) + ParseNat(b)
    decreases |b|
  {
    if b == [] {
      assert a + b == a;
    } else {
      var c, b' := a + b, b[..|b| - 1];
      assert c[..|c| - 1] == a + b';
      ParseNatAppend(a, b');
      var x, y, d := ParseNat(a), ParseNat(b'), DigitValue(b[|b| - 1]);
      assert ParseNat(c) == 10 * (x * Pow10(|b'|) + y) + d;
      assert ParseNat(b) == 10 * y + d;
      var p := Pow10(|b'|);
      assert Pow10(|b|) == 10 * p;
      ShiftDigit(x, y, d, p);
    }
  }

  lemma ShiftDigit(x: int, y: int, d: int, p: int)
    ensures 10 * (x * p + y) + d == x * (10 * p) + (10 * y + d)
  {
  }

  function Pow10(k: nat): (r: nat)
    ensures r > 0
  {
    if k == 0 then 1 else 10 * Pow10(k - 1)
  }

  lemma Pad3Value(k: nat)
    requires k < 1000
    ensures ParseNat(Pad3(k)) == k
  {
    var a, b, c := k / 100, k / 10 % 10, k % 10;
    DigitRoundTrip(a);
    DigitRoundTrip(b);
    DigitRoundTrip(c);
    ParseThree(Pad3(k));
    Pad3Arith(k);
  }

  /** The value of three digits. */
  lemma ParseThree(p: string)
    requires |p| == 3 && forall i :: 0 <= i < 3 ==> IsDigit(p[i])
    ensures ParseNat(p) == 100 * DigitValue(p[0]) + 10 * DigitValue(p[1]) + DigitValue(p[2])
  {
    var a, b, c := DigitValue(p[0]), DigitValue(p[1]), DigitValue(p[2]);
    assert [p[0]][..0] == [];
    assert ParseNat([p[0]]) == a;
    assert p[..2][..1] == [p[0]];
    assert ParseNat(p[..2]) == 10 * a + b;
    assert p[..3] == p;
    assert ParseNat(p) == 10 * (10 * a + b) + c;
  }

  lemma Pad3Arith(k: nat)
    ensures k == 100 * (k / 100) + 10 * (k / 10 % 10) + k % 10
  {
  }

  lemma GroupDigits(n: nat)
    requires n >= 1000
    ensures DropCommas(Group(n)) == DropCommas(Group(n / 1000)) + Pad3(n % 1000)
  {
    var head := Group(n / 1000);
    var tail := Pad3(n % 1000);
    DropCommasAppend(head + ",", tail);
    DropCommasAppend(head, ",");
    DropCommasOfDigits(tail);
    assert DropCommas(",") == "";
  }

  /** A grouped number is made of digits and commas. */
  lemma {:induction false} GroupChars(n: nat)
    ensures forall i :: 0 <= i < |Group(n)| ==> IsDigit(Group(n)[i]) || Group(n)[i] == ','
    decreases n
  {
    if n < 1000 {
      NatToStringDigits(n);
    } else {
      GroupChars(n / 1000);
      var a, b := Group(n / 1000) + ",", Pad3(n % 1000);
      assert forall i :: 0 <= i < |a| ==> IsDigit(a[i]) || a[i] == ',';
      assert forall i :: 0 <= i < |a + b| ==> (a + b)[i] == if i < |a| then a[i] else b[i - |a|];
    }
  }

  /** Removing the commas of a grouped number and reading the digits gives the number back. */
  lemma {:induction false} GroupRoundTrip(n: nat)
    ensures forall i :: 0 <= i < |DropCommas(Group(n))| ==> IsDigit(DropCommas(Group(n))[i])
    ensures ParseNat(DropCommas(Group(n))) == n
    decreases n
  {
    GroupChars(n);
    DropCommasIsDigits(Group(n));
    if n < 1000 {
      NatToStringDigits(n);
      DropCommasOfDigits(NatToString(n));
      ParseNatToString(n);
    } else {
      GroupRoundTrip(n / 1000);
      GroupStep(n);
    }
  }

  /** The step of the round trip: a group of three digits is appended after a comma. */
  lemma GroupStep(n: nat)
    requires n >= 1000
    requires forall i :: 0 <= i < |DropCommas(Group(n / 1000))| ==> IsDigit(DropCommas(Group(n / 1000))[i])
    requires ParseNat(DropCommas(Group(n / 1000))) == n / 1000
    ensures forall i :: 0 <= i < |DropCommas(Group(n))| ==> IsDigit(DropCommas(Group(n))[i])
    ensures ParseNat(DropCommas(Group(n))) == n
  {
    GroupChars(n);
    DropCommasIsDigits(Group(n));
    GroupDigits(n);
    Pad3Value(n % 1000);
    AppendGroupValue(n, DropCommas(Group(n)), DropCommas(Group(n / 1000)), Pad3(n % 1000));
  }

  /** Digits for `n / 1000` followed by three digits for `n % 1000` read as `n`. */
  lemma AppendGroupValue(n: nat, g: string, h: string, t: string)
    requires g == h + t && |t| == 3
    requires forall i :: 0 <= i < |h| ==> IsDigit(h[i])
    requires forall i :: 0 <= i < |t| ==> IsDigit(t[i])
    requires forall i :: 0 <= i < |g| ==> IsDigit(g[i])
    requires ParseNat(h) == n / 1000 && ParseNat(t) == n % 1000
    ensures ParseNat(g) == n
  {
    ParseNatAppend(h, t);
    var q := ParseNat(h);
    assert Pow10(3) == 1000;
    assert q * Pow10(3) == q * 1000;
    assert n == q * 1000 + n % 1000;
  }

  /**
   * The replacement Python computes for one match: `format(int(integer_part), ',')`,
   * then "." and the decimal part as written when the match has one.
   */
  function PyGroupMatch(m: string): string {
    var d := DigitRun(m);
    Group(ParseNat(m[..d])) + (if d < |m| then "." + m[d + 1..] else "")
  }

  /** `format_number_with_thousands_separator(text)`: every match grouped, the rest copied. */
  function FormatWithThousands(text: string): (r: string)
    ensures (forall k :: 0 <= k < |text| ==> !IsDigit(text[k])) ==> r == text
  {
    var r := Render(Tokens(text), PyGroupMatch);
    assert (forall k :: 0 <= k < |text| ==> !IsDigit(text[k])) ==> r == text by {
      if forall k :: 0 <= k < |text| ==> !IsDigit(text[k]) {
        NoDigitsUnchanged(text, PyGroupMatch);
      }
    }
    r
  }

  /** The leading digits end exactly where the first non-digit is. */
  lemma DigitRunIs(s: string, d: nat)
    requires d <= |s| && forall k :: 0 <= k < d ==> IsDigit(s[k])
    requires d == |s| || !IsDigit(s[d])
    ensures DigitRun(s) == d
  {
  }

  /** An integer match is grouped with its leading zeros gone (via `int`). */
  lemma PyGroupInteger(i: string)
    requires forall k :: 0 <= k < |i| ==> IsDigit(i[k])
    ensures PyGroupMatch(i) == Group(ParseNat(i))
  {
    DigitRunIs(i, |i|);
    assert i[..|i|] == i;
  }

  /** A decimal match has its integer part grouped and its decimal part kept exactly as written. */
  lemma PyGroupDecimal(i: string, dec: string)
    requires forall k :: 0 <= k < |i| ==> IsDigit(i[k])
    ensures PyGroupMatch(i + "." + dec) == Group(ParseNat(i)) + "." + dec
  {
    var m := i + "." + dec;
    assert m[..|i|] == i && m[|i| + 1..] == dec;
    assert DigitRun(m) == |i| by {
      assert m[|i|] == '.';
      assert forall k :: 0 <= k < |i| ==> m[k] == i[k];
      DigitRunIs(m, |i|);
    }
    PyGroupMatchSplit(m, i, dec);
  }

  /** Unfolding `PyGroupMatch` once the digit run and the two parts are known. */
  lemma PyGroupMatchSplit(m: string, i: string, dec: string)
    requires DigitRun(m) == |i| < |m| && m[..|i|] == i && m[|i| + 1..] == dec
    ensures PyGroupMatch(m) == Group(ParseNat(i)) + "." + dec
  {
  }

  /** The examples of the Python doc comment: 1000 -> "1,000", 1234567 -> "1,234,567". */
  lemma GroupExamples()
    ensures Group(1000) == "1,000"
    ensures Group(1234567) == "1,234,567"
  {
    assert NatToString(1) == "1";
    assert Pad3(0) == "000";
    assert Pad3(234) == "234";
    assert Pad3(567) == "567";
  }

  /** The whole text "1000" becomes "1,000". */
  lemma ThousandsExample()
    ensures FormatWithThousands("1000") == "1,000"
  {
    var s := "1000";
    DigitRunIs(s, 4);
    assert MatchLen(s) == 4;
    assert s[..4] == s && s[4..] == [];
    assert Tokens(s) == [Num(s)];
    assert ParseNat(s) == 1000 by {
      assert s[..3] == "100" && "100"[..2] == "10" && "10"[..1] == "1" && "1"[..0] == "";
    }
    PyGroupInteger(s);
    GroupExamples();
  }

  /** The value of the digit at `k`, 0 past the end. */
  function DigitAt(s: string, k: nat): (d: nat)
    ensures d < 10
  {
    if k < |s| && IsDigit(s[k]) then DigitValue(s[k]) else 0
  }

  /** Whether any digit of `s` is non-zero. */
  predicate AnyNonZero(s: string) {
    exists k :: 0 <= k < |s| && DigitAt(s, k) != 0
  }

  /**
   * The value in tenths of `ip.frac`, rounded half-even: the next digit above 5, or
   * exactly 5 followed by a non-zero digit, rounds up; exactly half rounds to even.
   */
  function RoundTenths(ip: nat, frac: string): (v: nat)
    ensures ip * 10 <= v <= ip * 10 + 10
  {
    var tenths := ip * 10 + DigitAt(frac, 0);
    var next := DigitAt(frac, 1);
    var up := next > 5 || (next == 5 && (AnyNonZero(if |frac| > 2 then frac[2..] else "") || tenths % 2 == 1));
    tenths + (if up then 1 else 0)
  }

  /** A value in tenths printed with grouping and one fraction digit. */
  function PrintTenths(v: nat): string {
    Group(v / 10) + "." + [DigitChar(v % 10)]
  }

  /**
   * A reference for `DecimalFormat("#,##0.0")` applied to the exact decimal value of a
   * match: the integer part grouped by three, one fraction digit, rounded half-even
   * (the formatter's default rounding mode).
   */
  function OneDecimal(m: string): string {
    var d := DigitRun(m);
    PrintTenths(RoundTenths(ParseNat(m[..d]), if d < |m| then m[d + 1..] else ""))
  }

  /** A match with a fraction is read as its integer digits and its fraction digits. */
  lemma OneDecimalSplit(m: string, i: string, fp: string)
    requires DigitRun(m) == |i| < |m|
    requires m[..|i|] == i && m[|i| + 1..] == fp
    ensures OneDecimal(m) == PrintTenths(RoundTenths(ParseNat(i), fp))
  {
  }

  /** An integer is printed grouped with the fraction ".0". */
  lemma OneDecimalInteger(i: string)
    requires forall k :: 0 <= k < |i| ==> IsDigit(i[k])
    ensures OneDecimal(i) == Group(ParseNat(i)) + ".0"
  {
    DigitRunIs(i, |i|);
    assert i[..|i|] == i;
    WholeTenths(ParseNat(i));
  }

  lemma WholeTenths(n: nat)
    ensures RoundTenths(n, "") == n * 10
    ensures PrintTenths(n * 10) == Group(n) + ".0"
  {
    assert (n * 10) / 10 == n && (n * 10) % 10 == 0;
  }

  /** The first example of the Java doc comment: 1000.56 -> 1,000.6. */
  lemma OneDecimalRoundsUp()
    ensures OneDecimal("1000.56") == "1,000.6"
  {
    SplitExample("1000.56", 4);
    assert "1000.56"[..4] == "1000" && "1000.56"[5..] == "56";
    ParseFour("1000");
    RoundUpExample();
    assert RoundTenths(ParseNat("1000.56"[..4]), "1000.56"[5..]) == 10006;
    PrintRoundUpExample();
  }

  /** A match with `d` integer digits and a fraction is read at its '.'. */
  lemma SplitExample(m: string, d: nat)
    requires d + 1 < |m| && m[d] == '.'
    requires forall k :: 0 <= k < d ==> IsDigit(m[k])
    ensures OneDecimal(m) == PrintTenths(RoundTenths(ParseNat(m[..d]), m[d + 1..]))
  {
    DigitRunIs(m, d);
    OneDecimalSplit(m, m[..d], m[d + 1..]);
  }

  lemma RoundUpExample()
    ensures RoundTenths(1000, "56") == 10006
  {
    assert DigitAt("56", 0) == 5 && DigitAt("56", 1) == 6;
  }

  lemma PrintRoundUpExample()
    ensures PrintTenths(10006) == "1,000.6"
  {
    GroupExamples();
  }

  /** The value of four digits. */
  lemma ParseFour(p: string)
    requires |p| == 4 && forall i :: 0 <= i < 4 ==> IsDigit(p[i])
    ensures ParseNat(p) == 1000 * DigitValue(p[0]) + 100 * DigitValue(p[1]) + 10 * DigitValue(p[2]) + DigitValue(p[3])
  {
    var q := p[..3];
    ParseThree(q);
    assert q[0] == p[0] && q[1] == p[1] && q[2] == p[2];
  }

  /** The second example of the Java doc comment: 1234.789 -> 1,234.8. */
  lemma OneDecimalRoundsUpAgain()
    ensures OneDecimal("1234.789") == "1,234.8"
  {
    SplitExample("1234.789", 4);
    assert "1234.789"[..4] == "1234" && "1234.789"[5..] == "789";
    ParseFour("1234");
    RoundUpAgainExample();
    PrintTenthsExample();
  }

  lemma RoundUpAgainExample()
    ensures RoundTenths(1234, "789") == 12348
  {
    assert DigitAt("789", 0) == 7 && DigitAt("789", 1) == 8;
  }

  lemma PrintTenthsExample()
    ensures PrintTenths(12348) == "1,234.8"
  {
    assert Group(1234) == "1,234" by {
      assert NatToString(1) == "1";
      assert Pad3(234) == "234";
    }
  }

  /** A text that is one match in full is replaced as a whole. */
  lemma WholeMatch(s: string, f: string -> string)
    requires s != [] && IsDigit(s[0]) && MatchLen(s) == |s|
    ensures Render(Tokens(s), f) == f(s)
  {
    ReplaceFront(s, f);
    assert s[..|s|] == s && s[|s|..] == [];
  }

  /** A table cell "1000.56" comes out of `formatTableNumber` as "1,000.6" under the reference format. */
  lemma TableCellExample()
    ensures Render(Tokens("1000.56"), OneDecimal) == "1,000.6"
  {
    var s := "1000.56";
    DigitRunIs(s, 4);
    DigitRunIs(s[5..], 2);
    assert MatchLen(s) == 7;
    WholeMatch(s, OneDecimal);
    OneDecimalRoundsUp();
  }
}
