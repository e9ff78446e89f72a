/**
 * The lenient-JSON normaliser of the ECharts converters: `convertEChartsToJson`
 * (md2doc-core) and `convert_echarts_to_json` (Python). Three rewriting passes over
 * the configuration text, each a left-to-right `replaceAll` / `re.sub`:
 *   1. `([{,]\s*)([a-zA-Z_$][a-zA-Z0-9_$]*)\s*:` becomes `$1"$2":` in Java, where the
 *      spaces after '{' or ',' are inside group 1 and kept; the Python pattern
 *      `([{,])\s*(…)\s*:` becomes `\1"\2":`, which drops them;
 *   2. every `'` becomes `"`;
 *   3. `,\s*([}\]])` becomes the bracket alone.
 * Each pattern can match in one way only (the comment of each matcher says why),
 * so each pass is a deterministic scan.
 */
module EChartsJson {
  import opened Wrappers
  import opened Text
  import opened Lines

  predicate IdentStart(c: char) {
    ('a' <= c <= 'z') || ('A' <= c <= 'Z') || c == '_' || c == '$'
  }

  predicate IdentChar(c: char) {
    IdentStart(c) || ('0' <= c <= '9')
  }

  // ---------------------------------------------------------------------------
  // Pass 1: quoting keys

  /** A key match at the start of the text: its length, the text before the key, the key. */
  datatype KeyMatch = KeyMatch(len: nat, lead: string, key: string, gap: string)

  /** The end of the run of dialect spaces starting at `i`. */
  function SpacesFrom(s: string, i: nat, java: bool): (j: nat)
    requires i <= |s|
    ensures i <= j <= |s|
    ensures forall k :: i <= k < j ==> RegexSpace(s[k], java)
    ensures j == |s| || !RegexSpace(s[j], java)
  {
    var n := LeadCount(s[i..], c => RegexSpace(c, java));
    assert forall k :: i <= k < i + n ==> s[k] == s[i..][k - i];
    i + n
  }

  /** The end of the run of key characters starting at `i`. */
  function IdentFrom(s: string, i: nat): (j: nat)
    requires i <= |s|
    ensures i <= j <= |s|
    ensures forall k :: i <= k < j ==> IdentChar(s[k])
    ensures j == |s| || !IdentChar(s[j])
  {
    var n := LeadCount(s[i..], IdentChar);
    assert forall k :: i <= k < i + n ==> s[k] == s[i..][k - i];
    i + n
  }

  /**
   * `m` is a match of the key pattern at the start of `s`: '{' or ',', spaces, a
   * key, spaces and ':'.
   */
  predicate IsKeyMatch(s: string, m: KeyMatch, java: bool) {
    && 0 < m.len <= |s|
    && s[..m.len] == m.lead + m.key + m.gap + ":"
    && |m.lead| >= 1 && (m.lead[0] == '{' || m.lead[0] == ',')
    && (forall k :: 1 <= k < |m.lead| ==> RegexSpace(m.lead[k], java))
    && m.key != [] && (forall k :: 0 <= k < |m.key| ==> IdentChar(m.key[k]))
    && (forall k :: 0 <= k < |m.gap| ==> RegexSpace(m.gap[k], java))
  }

  /**
   * The key pattern tried at the start of `s`. The spaces are taken greedily (a
   * shorter run leaves a space where the key must start), the key is taken
   * greedily (a shorter key leaves a key character where only spaces or ':' may
   * follow), and so are the spaces before ':'.
   */
  function KeyAt(s: string, java: bool): (r: Option<KeyMatch>)
    ensures r.Some? ==> IsKeyMatch(s, r.value, java)
  {
    if s == [] || !(s[0] == '{' || s[0] == ',') then None
    else
      var p := SpacesFrom(s, 1, java);
      if p < |s| && IdentStart(s[p]) then
        var q := IdentFrom(s, p);
        var e := SpacesFrom(s, q, java);
        if e < |s| && s[e] == ':' then
          KeyMatchAt(s, p, q, e, java);
          Some(KeyMatch(e + 1, s[..p], s[p..q], s[q..e]))
        else None
      else None
  }

  /** The positions `KeyAt` finds make a match. */
  lemma KeyMatchAt(s: string, p: nat, q: nat, e: nat, java: bool)
    requires 1 <= p < q <= e < |s| && s[e] == ':' && (s[0] == '{' || s[0] == ',')
    requires forall k :: 1 <= k < p ==> RegexSpace(s[k], java)
    requires forall k :: p <= k < q ==> IdentChar(s[k])
    requires forall k :: q <= k < e ==> RegexSpace(s[k], java)
    ensures IsKeyMatch(s, KeyMatch(e + 1, s[..p], s[p..q], s[q..e]), java)
  {
    assert s[..e + 1] == s[..p] + s[p..q] + s[q..e] + [s[e]];
  }

  /** The replacement: Java keeps the spaces of group 1, Python's group 1 is the '{' or ',' alone. */
  function KeyReplacement(m: KeyMatch, java: bool): string
    requires |m.lead| >= 1
  {
    (if java then m.lead else m.lead[..1]) + "\"" + m.key + "\":"
  }

  /** Pass 1 over the whole text. */
  function QuoteKeys(s: string, java: bool): string
    decreases |s|
  {
    if s == [] then []
    else
      match KeyAt(s, java)
      case Some(m) => KeyReplacement(m, java) + QuoteKeys(s[m.len..], java)
      case None => [s[0]] + QuoteKeys(s[1..], java)
  }

  // ---------------------------------------------------------------------------
  // Pass 2: quotes

  /** Pass 2: every `'` becomes `"`. */
  function DoubleQuotes(s: string): (r: string)
    ensures |r| == |s|
    ensures forall k :: 0 <= k < |s| ==> r[k] == (if s[k] == '\'' then '"' else s[k])
  {
    seq(|s|, k requires 0 <= k < |s| => if s[k] == '\'' then '"' else s[k])
  }

  // ---------------------------------------------------------------------------
  // Pass 3: trailing commas

  /**
   * `,\s*([}\]])` tried at the start of `s`: its length. The spaces are taken greedily;
   * a shorter run leaves a space where the bracket must be.
   */
  function TrailingCommaAt(s: string, java: bool): (r: Option<nat>)
    ensures r.Some? ==> 2 <= r.value <= |s| && s[0] == ',' && (s[r.value - 1] == '}' || s[r.value - 1] == ']')
    ensures r.Some? ==> forall k :: 1 <= k < r.value - 1 ==> RegexSpace(s[k], java)
  {
    if s == [] || s[0] != ',' then None
    else
      var p := SpacesFrom(s, 1, java);
      if p < |s| && (s[p] == '}' || s[p] == ']') then Some(p + 1)
      else None
  }

  /** Pass 3 over the whole text: each match becomes its bracket. */
  function DropTrailingCommas(s: string, java: bool): string
    decreases |s|
  {
    if s == [] then []
    else
      match TrailingCommaAt(s, java)
      case Some(n) => [s[n - 1]] + DropTrailingCommas(s[n..], java)
      case None => [s[0]] + DropTrailingCommas(s[1..], java)
  }

  /** `convertEChartsToJson` (`java`) / `convert_echarts_to_json`. */
  function Normalise(config: string, java: bool): string {
    DropTrailingCommas(DoubleQuotes(QuoteKeys(config, java)), java)
  }

  // ---------------------------------------------------------------------------
  // Properties

  /** Pass 3 copies characters of its input only. */
  lemma {:induction false} DropKeepsOut(s: string, java: bool, c: char)
    requires !Contains(s, c)
    ensures !Contains(DropTrailingCommas(s, java), c)
    decreases |s|
  {
    if s != [] {
      match TrailingCommaAt(s, java)
      case Some(n) =>
        assert !Contains(s[n..], c) by {
          assert forall k :: 0 <= k < |s[n..]| ==> s[n..][k] == s[n + k];
        }
        DropKeepsOut(s[n..], java, c);
        assert s[n - 1] != c;
      case None =>
        assert !Contains(s[1..], c) by {
          assert forall k :: 0 <= k < |s[1..]| ==> s[1..][k] == s[k + 1];
        }
        DropKeepsOut(s[1..], java, c);
    }
  }

  /** The normalised text holds no single quote. */
  lemma NoSingleQuote(config: string, java: bool)
    ensures !Contains(Normalise(config, java), '\'')
  {
    DropKeepsOut(DoubleQuotes(QuoteKeys(config, java)), java, '\'');
  }

  /** The characters a pass may add or remove without changing the content: spaces of the dialect, double quotes, and for pass 3 commas. */
  predicate Layout(c: char, java: bool, commas: bool) {
    RegexSpace(c, java) || c == '"' || (commas && c == ',')
  }

  /** `Layout` as a character class. */
  function LayoutOf(java: bool, commas: bool): char -> bool {
    c => Layout(c, java, commas)
  }

  /** The text with the characters of class `drop` taken out. */
  function Filter(s: string, drop: char -> bool): (r: string)
    ensures |r| <= |s|
    decreases |s|
  {
    if s == [] then []
    else (if drop(s[0]) then [] else [s[0]]) + Filter(s[1..], drop)
  }

  /** The content of a text: what is left once its layout is taken out. */
  function Content(s: string, java: bool, commas: bool): string {
    Filter(s, LayoutOf(java, commas))
  }

  lemma {:induction false} FilterAppend(a: string, b: string, drop: char -> bool)
    ensures Filter(a + b, drop) == Filter(a, drop) + Filter(b, drop)
    decreases |a|
  {
    if a == [] {
      assert a + b == b;
    } else {
      assert (a + b)[0] == a[0];
      assert (a + b)[1..] == a[1..] + b;
      FilterAppend(a[1..], b, drop);
      var h := if drop(a[0]) then [] else [a[0]];
      Assoc(h, Filter(a[1..], drop), Filter(b, drop));
    }
  }

  /** Text made only of dropped characters filters to nothing. */
  lemma {:induction false} FilterAllDropped(s: string, drop: char -> bool)
    requires forall k :: 0 <= k < |s| ==> drop(s[k])
    ensures Filter(s, drop) == []
    decreases |s|
  {
    if s != [] {
      FilterAllDropped(s[1..], drop);
    }
  }

  /** Text with no dropped character filters to itself. */
  lemma {:induction false} FilterNoneDropped(s: string, drop: char -> bool)
    requires forall k :: 0 <= k < |s| ==> !drop(s[k])
    ensures Filter(s, drop) == s
    decreases |s|
  {
    if s != [] {
      FilterNoneDropped(s[1..], drop);
    }
  }

  /** No key character is a space. */
  lemma RegexSpaceIsIdentFree(c: char, java: bool)
    requires IdentChar(c)
    ensures !RegexSpace(c, java)
  {
  }

  /** The key and the '{' or ',' of a match are content; its spaces are not. */
  lemma KeyPartsContent(s: string, m: KeyMatch, java: bool)
    requires IsKeyMatch(s, m, java)
    ensures Filter(m.key, LayoutOf(java, false)) == m.key
    ensures Filter(m.lead, LayoutOf(java, false)) == m.lead[..1]
    ensures Filter(m.lead[..1], LayoutOf(java, false)) == m.lead[..1]
    ensures Filter(m.gap, LayoutOf(java, false)) == []
  {
    var drop := LayoutOf(java, false);
    var head := m.lead[..1];
    forall k | 0 <= k < |m.key| ensures !drop(m.key[k]) {
      RegexSpaceIsIdentFree(m.key[k], java);
    }
    FilterNoneDropped(m.key, drop);
    FilterNoneDropped(head, drop);
    assert m.lead == head + m.lead[1..];
    FilterAllDropped(m.lead[1..], drop);
    FilterAppend(head, m.lead[1..], drop);
    FilterAllDropped(m.gap, drop);
  }

  /** The content of the matched text: the '{' or ',', the key and ':'. */
  lemma MatchedContent(s: string, m: KeyMatch, java: bool)
    requires IsKeyMatch(s, m, java)
    ensures Content(m.lead + m.key + m.gap + ":", java, false) == m.lead[..1] + m.key + ":"
  {
    var drop := LayoutOf(java, false);
    KeyPartsContent(s, m, java);
    FilterNoneDropped(":", drop);
    FilterAppend(m.lead, m.key, drop);
    FilterAppend(m.lead + m.key, m.gap, drop);
    FilterAppend(m.lead + m.key + m.gap, ":", drop);
  }

  /** The content of the replacement: the same. */
  lemma ReplacementContent(s: string, m: KeyMatch, java: bool)
    requires IsKeyMatch(s, m, java)
    ensures Content(KeyReplacement(m, java), java, false) == m.lead[..1] + m.key + ":"
  {
    var drop := LayoutOf(java, false);
    var head := m.lead[..1];
    KeyPartsContent(s, m, java);
    var front := if java then m.lead else head;
    assert Filter(front + "\"" + m.key, drop) == head + m.key by {
      FilterAllDropped("\"", drop);
      FilterAppend(front, "\"", drop);
      FilterAppend(front + "\"", m.key, drop);
    }
    assert Filter("\":", drop) == ":" by {
      FilterAllDropped("\"", drop);
      FilterNoneDropped(":", drop);
      assert "\":" == "\"" + ":";
      FilterAppend("\"", ":", drop);
    }
    assert KeyReplacement(m, java) == (front + "\"" + m.key) + "\":";
    FilterAppend(front + "\"" + m.key, "\":", drop);
  }

  /** Quoting keys only adds double quotes and drops spaces: the content of the text is unchanged. */
  lemma {:induction false} QuoteKeysKeepsContent(s: string, java: bool)
    ensures Content(QuoteKeys(s, java), java, false) == Content(s, java, false)
    decreases |s|
  {
    if s != [] {
      var drop := LayoutOf(java, false);
      var m := KeyAt(s, java);
      if m.Some? {
        QuoteKeysKeepsContent(s[m.value.len..], java);
        QuoteStepContent(s, m.value, java);
      } else {
        var rest := QuoteKeys(s[1..], java);
        assert QuoteKeys(s, java) == [s[0]] + rest;
        QuoteKeysKeepsContent(s[1..], java);
        assert s == [s[0]] + s[1..];
        FilterAppend([s[0]], s[1..], drop);
        FilterAppend([s[0]], rest, drop);
      }
    }
  }

  /** Dropping trailing commas only removes commas and spaces: the content without commas is unchanged. */
  lemma {:induction false} DropCommasKeepsContent(s: string, java: bool)
    ensures Content(DropTrailingCommas(s, java), java, true) == Content(s, java, true)
    decreases |s|
  {
    if s != [] {
      var drop := LayoutOf(java, true);
      var m := TrailingCommaAt(s, java);
      if m.Some? {
        DropCommasKeepsContent(s[m.value..], java);
        DropStepContent(s, m.value, java);
      } else {
        var rest := DropTrailingCommas(s[1..], java);
        assert DropTrailingCommas(s, java) == [s[0]] + rest;
        DropCommasKeepsContent(s[1..], java);
        assert s == [s[0]] + s[1..];
        FilterAppend([s[0]], s[1..], drop);
        FilterAppend([s[0]], rest, drop);
      }
    }
  }

  /** One trailing-comma match: the comma and spaces it drops have no content. */
  lemma DropStepContent(s: string, n: nat, java: bool)
    requires TrailingCommaAt(s, java) == Some(n)
    requires Content(DropTrailingCommas(s[n..], java), java, true) == Content(s[n..], java, true)
    ensures Content(DropTrailingCommas(s, java), java, true) == Content(s, java, true)
  {
    var drop := LayoutOf(java, true);
    var rest := DropTrailingCommas(s[n..], java);
    var b := [s[n - 1]];
    assert DropTrailingCommas(s, java) == b + rest;
    DropStepFilter(s, n, java);
    FilterAppend(b, rest, drop);
  }

  /** The comma and spaces before the bracket of a trailing-comma match have no content. */
  lemma DropStepFilter(s: string, n: nat, java: bool)
    requires TrailingCommaAt(s, java) == Some(n)
    ensures Filter(s, LayoutOf(java, true)) == Filter([s[n - 1]], LayoutOf(java, true)) + Filter(s[n..], LayoutOf(java, true))
  {
    var drop := LayoutOf(java, true);
    var b := [s[n - 1]];
    var gap := s[..n - 1];
    assert Filter(gap, drop) == [] by {
      assert forall k :: 0 <= k < |gap| ==> drop(gap[k]);
      FilterAllDropped(gap, drop);
    }
    assert s == gap + b + s[n..];
    FilterAppend(gap, b, drop);
    FilterAppend(gap + b, s[n..], drop);
  }

  /** One key match: its replacement has the content of the text it replaces. */
  lemma QuoteStepContent(s: string, m: KeyMatch, java: bool)
    requires KeyAt(s, java) == Some(m)
    requires Content(QuoteKeys(s[m.len..], java), java, false) == Content(s[m.len..], java, false)
    ensures Content(QuoteKeys(s, java), java, false) == Content(s, java, false)
  {
    var drop := LayoutOf(java, false);
    var n := m.len;
    var rest := QuoteKeys(s[n..], java);
    assert QuoteKeys(s, java) == KeyReplacement(m, java) + rest;
    MatchedContent(s, m, java);
    ReplacementContent(s, m, java);
    assert s == s[..n] + s[n..];
    FilterAppend(s[..n], s[n..], drop);
    FilterAppend(KeyReplacement(m, java), rest, drop);
  }

  /** Text that holds no '{' and no ',' has no key to quote. */
  lemma {:induction false} NoKeyWithoutOpener(s: string, java: bool)
    requires !Contains(s, '{') && !Contains(s, ',')
    ensures QuoteKeys(s, java) == s
    decreases |s|
  {
    if s != [] {
      assert KeyAt(s, java) == None;
      assert !Contains(s[1..], '{') && !Contains(s[1..], ',') by {
        assert forall k :: 0 <= k < |s[1..]| ==> s[1..][k] == s[k + 1];
      }
      NoKeyWithoutOpener(s[1..], java);
      assert s == [s[0]] + s[1..];
    }
  }

  /** A match of the key pattern, assembled from its parts. */
  predicate KeyParts(opener: char, sp: string, key: string, gap: string, java: bool) {
    && (opener == '{' || opener == ',')
    && (forall k :: 0 <= k < |sp| ==> RegexSpace(sp[k], java))
    && key != [] && IdentStart(key[0])
    && (forall k :: 0 <= k < |key| ==> IdentChar(key[k]))
    && (forall k :: 0 <= k < |gap| ==> RegexSpace(gap[k], java))
  }

  /** The scans of `KeyAt` stop at the ends of the parts. */
  lemma KeyPartsRuns(s: string, opener: char, sp: string, key: string, gap: string, rest: string, java: bool)
    requires KeyParts(opener, sp, key, gap, java)
    requires s == [opener] + sp + key + gap + ":" + rest
    ensures SpacesFrom(s, 1, java) == 1 + |sp|
    ensures IdentFrom(s, 1 + |sp|) == 1 + |sp| + |key|
    ensures SpacesFrom(s, 1 + |sp| + |key|, java) == 1 + |sp| + |key| + |gap|
  {
    var p, q, e := 1 + |sp|, 1 + |sp| + |key|, 1 + |sp| + |key| + |gap|;
    KeyPartsAt(s, opener, sp, key, gap, rest);
    RegexSpaceIsIdentFree(key[0], java);
    RunEnds(s, 1, p, c => RegexSpace(c, java));
    if q < e {
      SpaceIsNoIdent(gap[0], java);
    }
    RunEnds(s, p, q, IdentChar);
    RunEnds(s, q, e, c => RegexSpace(c, java));
  }

  /** The characters of a text assembled from the parts of a key match. */
  lemma KeyPartsAt(s: string, opener: char, sp: string, key: string, gap: string, rest: string)
    requires s == [opener] + sp + key + gap + ":" + rest
    ensures var p, q, e := 1 + |sp|, 1 + |sp| + |key|, 1 + |sp| + |key| + |gap|;
      && e < |s| && s[e] == ':'
      && (forall k :: 1 <= k < p ==> s[k] == sp[k - 1])
      && (forall k :: p <= k < q ==> s[k] == key[k - p])
      && (forall k :: q <= k < e ==> s[k] == gap[k - q])
  {
  }

  /** A run of class `cls` from `i` that stops before a character outside it. */
  lemma RunEnds(s: string, i: nat, j: nat, cls: char -> bool)
    requires i <= j < |s| && (forall k :: i <= k < j ==> cls(s[k])) && !cls(s[j])
    ensures LeadCount(s[i..], cls) == j - i
  {
    assert forall k :: 0 <= k < j - i ==> s[i..][k] == s[i + k];
    assert s[i..][j - i] == s[j];
  }

  /** The parts of a text assembled from them. */
  lemma KeyPartsSlices(s: string, opener: char, sp: string, key: string, gap: string, rest: string)
    requires s == [opener] + sp + key + gap + ":" + rest
    ensures var p, q, e := 1 + |sp|, 1 + |sp| + |key|, 1 + |sp| + |key| + |gap|;
      && e < |s| && s[0] == opener && s[e] == ':'
      && (|key| > 0 ==> s[p] == key[0])
      && s[..p] == [opener] + sp && s[p..q] == key && s[q..e] == gap && s[e + 1..] == rest
  {
  }

  /** Where a key matches, pass 1 writes its replacement and goes on after it. */
  lemma QuoteKeysAt(s: string, m: KeyMatch, java: bool)
    requires KeyAt(s, java) == Some(m)
    ensures QuoteKeys(s, java) == KeyReplacement(m, java) + QuoteKeys(s[m.len..], java)
  {
  }

  /** `KeyAt` at positions its scans reach. */
  lemma KeyAtFound(s: string, p: nat, q: nat, e: nat, m: KeyMatch, java: bool)
    requires s != [] && (s[0] == '{' || s[0] == ',')
    requires 1 <= p < |s| && SpacesFrom(s, 1, java) == p && IdentStart(s[p])
    requires IdentFrom(s, p) == q && SpacesFrom(s, q, java) == e && e < |s| && s[e] == ':'
    requires m.len == e + 1 && m.lead == s[..p] && m.key == s[p..q] && m.gap == s[q..e]
    ensures KeyAt(s, java) == Some(m)
  {
  }

  /** No space is a key character. */
  lemma SpaceIsNoIdent(c: char, java: bool)
    requires RegexSpace(c, java)
    ensures !IdentChar(c)
  {
  }

  /**
   * An unquoted key after '{' or ',' is put in double quotes and the spaces before
   * its ':' are dropped; Java keeps the spaces after the '{' or ',', Python drops them.
   */
  lemma {:induction false} KeyQuoted(opener: char, sp: string, key: string, gap: string, rest: string, java: bool)
    requires KeyParts(opener, sp, key, gap, java)
    ensures QuoteKeys([opener] + sp + key + gap + ":" + rest, java)
         == (if java then [opener] + sp else [opener]) + "\"" + key + "\":" + QuoteKeys(rest, java)
  {
    var s := [opener] + sp + key + gap + ":" + rest;
    var m := KeyMatch(2 + |sp| + |key| + |gap|, [opener] + sp, key, gap);
    KeyPartsMatch(s, m, opener, sp, key, gap, rest, java);
    QuoteKeysAtParts(s, m, rest, opener, sp, java);
  }

  /** The key pattern matches text assembled from its parts, and the rest follows the match. */
  lemma KeyPartsMatch(s: string, m: KeyMatch, opener: char, sp: string, key: string, gap: string, rest: string, java: bool)
    requires KeyParts(opener, sp, key, gap, java)
    requires s == [opener] + sp + key + gap + ":" + rest
    requires m == KeyMatch(2 + |sp| + |key| + |gap|, [opener] + sp, key, gap)
    ensures KeyAt(s, java) == Some(m) && s[m.len..] == rest
  {
    var p, q, e := 1 + |sp|, 1 + |sp| + |key|, 1 + |sp| + |key| + |gap|;
    KeyPartsRuns(s, opener, sp, key, gap, rest, java);
    KeyPartsSlices(s, opener, sp, key, gap, rest);
    assert IdentStart(s[p]) && s[e] == ':' && m.len == e + 1;
    assert m.lead == s[..p] && m.key == s[p..q] && m.gap == s[q..e];
    KeyAtFound(s, p, q, e, m, java);
  }

  /** Pass 1 at a match whose lead is the opener and its spaces. */
  lemma QuoteKeysAtParts(s: string, m: KeyMatch, rest: string, opener: char, sp: string, java: bool)
    requires KeyAt(s, java) == Some(m) && s[m.len..] == rest && m.lead == [opener] + sp
    ensures QuoteKeys(s, java) == (if java then [opener] + sp else [opener]) + "\"" + m.key + "\":" + QuoteKeys(rest, java)
  {
    QuoteKeysAt(s, m, java);
    ReplacementOfParts(m, opener, sp, java);
  }

  /** The replacement of a match whose lead is the opener and its spaces. */
  lemma ReplacementOfParts(m: KeyMatch, opener: char, sp: string, java: bool)
    requires m.lead == [opener] + sp
    ensures KeyReplacement(m, java) == (if java then [opener] + sp else [opener]) + "\"" + m.key + "\":"
  {
    assert m.lead[..1] == [opener];
  }

  /** A ',' followed by spaces and a closing bracket becomes the bracket alone. */
  lemma TrailingCommaDropped(sp: string, bracket: char, rest: string, java: bool)
    requires bracket == '}' || bracket == ']'
    requires forall k :: 0 <= k < |sp| ==> RegexSpace(sp[k], java)
    ensures DropTrailingCommas([','] + sp + [bracket] + rest, java) == [bracket] + DropTrailingCommas(rest, java)
  {
    var s := [','] + sp + [bracket] + rest;
    var p := 1 + |sp|;
    assert forall k :: 1 <= k < p ==> s[k] == sp[k - 1];
    assert s[p] == bracket;
    assert SpacesFrom(s, 1, java) == p;
    assert TrailingCommaAt(s, java) == Some(p + 1);
    assert s[p + 1..] == rest;
  }
}
