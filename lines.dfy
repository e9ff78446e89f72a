/**
 * The line-level Markdown recognisers: the heading pattern `^(#{1,6})\s+(.*)$`,
 * the two image patterns, the fence and table-start tests and the
 * separator-row pattern, in the Java dialect (`java` true) and the Python one.
 * Each pattern is written as the deterministic scan its regular expression
 * performs; where the expression could backtrack, the comment says why no
 * other split can succeed.
 */
module Lines {
  import opened Wrappers
  import opened Text

  /** `\s` of the dialect. */
  predicate RegexSpace(c: char, java: bool) {
    if java then IsJavaRegexSpace(c) else IsPySpace(c)
  }

  /** The characters `.` does not match: Java's line terminators, Python's '\n'. */
  predicate LineEnd(c: char, java: bool) {
    if java then IsJavaLineTerminator(c) else c == '\n'
  }

  // ---------------------------------------------------------------------------
  // Fences, table starts and separator rows

  /** `line.trim().equals("```echarts")` / `is_echarts_start_line`. */
  predicate IsEchartsStart(line: string, java: bool) {
    Trim(line, java) == "```echarts"
  }

  /** `line.trim().equals("```mermaid")` (md2doc-core only). */
  predicate IsMermaidStart(line: string) {
    JavaTrim(line) == "```mermaid"
  }

  /** `line.trim().equals("```")` / `is_echarts_end_line`. */
  predicate IsFenceEnd(line: string, java: bool) {
    Trim(line, java) == "```"
  }

  /** `is_table_start_line`: the stripped line starts with '|'. */
  predicate IsPyTableStart(line: string) {
    var t := PyStrip(line);
    |t| > 0 && t[0] == '|'
  }

  /** `line.startsWith("|")`, as the Java template builders test it, on the raw line. */
  predicate StartsWithBar(line: string) {
    |line| > 0 && line[0] == '|'
  }

  /** The class `[-|:\s]` of the separator pattern. */
  predicate SepChar(c: char, java: bool) {
    c == '-' || c == '|' || c == ':' || RegexSpace(c, java)
  }

  /**
   * A whole-text match of `^\|?\s*[-|:\s]+\|?\s*$`. The optional bars and the
   * spaces around the repeated class are themselves in the class, so the pattern
   * accepts exactly the non-empty texts made only of class characters.
   */
  predicate SeparatorPattern(line: string, java: bool) {
    |line| > 0 && forall k :: 0 <= k < |line| ==> SepChar(line[k], java)
  }

  /**
   * Whether a line continues a table in the template builders: it starts with '|',
   * or it (trimmed, in Java; raw, in Python) matches the separator pattern.
   */
  predicate TableContinues(line: string, java: bool) {
    StartsWithBar(line) || SeparatorPattern(if java then JavaTrim(line) else line, java)
  }

  /** An indented table row is a table start for Python but not for the Java builders. */
  lemma IndentedTableRow()
    ensures IsPyTableStart(" | a |") && !StartsWithBar(" | a |")
  {
    var s := " | a |";
    assert LeadCount(s, IsPySpace) == 1;
    assert PyStrip(s)[0] == s[1];
  }

  // ---------------------------------------------------------------------------
  // Headings

  predicate IsHash(c: char) {
    c == '#'
  }

  /** The number of leading '#'. */
  function Hashes(s: string): (n: nat)
    ensures n <= |s|
    ensures forall k :: 0 <= k < n ==> s[k] == '#'
    ensures n == |s| || s[n] != '#'
  {
    LeadCount(s, IsHash)
  }

  /** The text up to the first character `.` does not match. */
  function UpToLineEnd(s: string, java: bool): (r: string)
    ensures r <= s
    ensures forall k :: 0 <= k < |r| ==> !LineEnd(r[k], java)
    ensures |r| == |s| || LineEnd(s[|r|], java)
  {
    if s == [] || LineEnd(s[0], java) then "" else [s[0]] + UpToLineEnd(s[1..], java)
  }

  datatype Heading = Heading(level: nat, title: string)

  /**
   * `^(#{1,6})\s+(.*)$` matched at the start of `s`. `#{1,6}` must take every
   * leading '#' (a shorter run leaves a '#' where `\s` is needed), `\s+` takes
   * every following space (a shorter run leaves a space, which `.*` may take, but
   * the greedy attempt already succeeds), and `.*` runs to the first character it
   * cannot match, where `$` holds in multi-line mode.
   */
  function HeadingAt(s: string, java: bool): (r: Option<Heading>)
    ensures r.Some? ==> 1 <= r.value.level <= 6 && r.value.level == Hashes(s)
    ensures r.Some? ==> forall k :: 0 <= k < |r.value.title| ==> !LineEnd(r.value.title[k], java)
    ensures r.Some? ==> r.value.title == [] || !RegexSpace(r.value.title[0], java)
    ensures Hashes(s) == 0 || Hashes(s) > 6 ==> r.None?
  {
    var h := Hashes(s);
    if 1 <= h <= 6 && h < |s| && RegexSpace(s[h], java) then
      var sp := LeadCount(s[h..], c => RegexSpace(c, java));
      Some(Heading(h, UpToLineEnd(s[h + sp..], java)))
    else None
  }

  /** `n` copies of '#'. */
  function HashRun(n: nat): (r: string)
    ensures |r| == n && forall k :: 0 <= k < n ==> r[k] == '#'
  {
    seq(n, k => '#')
  }

  /** A heading written as `#`×level, one space and its title reads back as that heading. */
  lemma HeadingRoundTrip(level: nat, title: string, java: bool)
    requires 1 <= level <= 6
    requires forall k :: 0 <= k < |title| ==> !LineEnd(title[k], java)
    requires title == [] || !RegexSpace(title[0], java)
    ensures HeadingAt(HashRun(level) + " " + title, java) == Some(Heading(level, title))
  {
    var s := HashRun(level) + " " + title;
    assert s[level] == ' ';
    assert Hashes(s) == level by {
      assert forall k :: 0 <= k < level ==> s[k] == '#';
    }
    assert s[level..] == " " + title;
    var sp := LeadCount(s[level..], c => RegexSpace(c, java));
    assert sp == 1 by {
      assert RegexSpace(s[level], java);
      assert title == [] || !RegexSpace(s[level..][1], java);
    }
    assert s[level + 1..] == title;
    UpToLineEndWhole(title, java);
  }

  /** Text free of line ends is taken whole by `.*`. */
  lemma {:induction false} UpToLineEndWhole(s: string, java: bool)
    requires forall k :: 0 <= k < |s| ==> !LineEnd(s[k], java)
    ensures UpToLineEnd(s, java) == s
  {
    if s != [] {
      UpToLineEndWhole(s[1..], java);
    }
  }

  /** `.*` stops at the line end that follows a text free of line ends. */
  lemma {:induction false} UpToLineEndBefore(s: string, tail: string, java: bool)
    requires forall k :: 0 <= k < |s| ==> !LineEnd(s[k], java)
    requires tail != [] && LineEnd(tail[0], java)
    ensures UpToLineEnd(s + tail, java) == s
  {
    if s != [] {
      assert (s + tail)[1..] == s[1..] + tail;
      UpToLineEndBefore(s[1..], tail, java);
    } else {
      assert s + tail == tail;
    }
  }

  /** A heading line followed by a line end and more text still reads as that heading. */
  lemma HeadingBeforeLineEnd(level: nat, title: string, tail: string, java: bool)
    requires 1 <= level <= 6
    requires title != [] && !RegexSpace(title[0], java)
    requires forall k :: 0 <= k < |title| ==> !LineEnd(title[k], java)
    requires tail != [] && LineEnd(tail[0], java)
    ensures HeadingAt(HashRun(level) + " " + title + tail, java) == Some(Heading(level, title))
  {
    var s := HashRun(level) + " " + title + tail;
    assert Hashes(s) == level by {
      assert forall k :: 0 <= k < level ==> s[k] == '#';
      assert s[level] == ' ';
    }
    assert LeadCount(s[level..], c => RegexSpace(c, java)) == 1 by {
      assert s[level..][0] == ' ' && s[level..][1] == title[0];
    }
    assert s[level + 1..] == title + tail;
    UpToLineEndBefore(title, tail, java);
  }

  /** Seven '#' or a '#' glued to its text make no heading. */
  lemma NotHeadings(java: bool)
    ensures HeadingAt("####### x", java).None?
    ensures HeadingAt("#x", java).None?
  {
    var s := "####### x";
    assert Hashes(s) == 7 by {
      assert forall k :: 0 <= k < 7 ==> s[k] == '#';
      assert s[7] != '#';
    }
    assert Hashes("#x") == 1 by { assert "#x"[1] != '#'; }
  }

  /**
   * `is_header_line(line)`: the pattern matched on the stripped line, with the level
   * and the stripped title.
   */
  function PyHeaderLine(line: string): (r: Option<Heading>)
    ensures r.Some? ==> 1 <= r.value.level <= 6
    ensures r.Some? ==> PyStrip(r.value.title) == r.value.title
  {
    match HeadingAt(PyStrip(line), false)
    case Some(h) =>
      StripIdempotent(h.title, IsPySpace);
      Some(Heading(h.level, PyStrip(h.title)))
    case None => None
  }

  /** The length of the match `HeadingAt` finds: its '#'s, its spaces and its title. */
  function HeadingSpan(s: string, java: bool): (n: nat)
    requires HeadingAt(s, java).Some?
    ensures 0 < n <= |s|
  {
    var h := Hashes(s);
    var sp := LeadCount(s[h..], c => RegexSpace(c, java));
    h + sp + |HeadingAt(s, java).value.title|
  }

  /**
   * Whether the multi-line heading pattern matches at `p` of the whole text: `^`
   * holds there (the text's start or just after a line end) and a heading begins
   * there. The pattern's `\s+` may run across line ends, so the heading's title
   * can lie on a later line than its '#'s.
   */
  predicate HeadingMatchAt(s: string, p: nat, java: bool)
    requires p <= |s|
  {
    (p == 0 || LineEnd(s[p - 1], java)) && HeadingAt(s[p..], java).Some?
  }

  /** No heading starts at the very end of the text. */
  lemma NoHeadingAtEnd(s: string, java: bool)
    ensures !HeadingMatchAt(s, |s|, java)
  {
    assert Hashes(s[|s|..]) == 0;
  }

  /** No match at `from` and none from `from + 1` up to `p` is none from `from` up to `p`. */
  lemma NoHeadingBefore(s: string, from: nat, p: nat, java: bool)
    requires from < p <= |s| && !HeadingMatchAt(s, from, java)
    requires forall q :: from + 1 <= q < p ==> !HeadingMatchAt(s, q, java)
    ensures forall q :: from <= q < p ==> !HeadingMatchAt(s, q, java)
  {
  }

  /**
   * The search `find()` and `findall` perform from `from`: the first position at or
   * after `from` where the heading pattern matches, or `|s|` when there is none.
   */
  function NextHeading(s: string, from: nat, java: bool): (p: nat)
    requires from <= |s|
    ensures from <= p <= |s|
    ensures p < |s| <==> exists q :: from <= q <= |s| && HeadingMatchAt(s, q, java)
    ensures p < |s| ==> HeadingMatchAt(s, p, java)
    ensures forall q :: from <= q < p ==> !HeadingMatchAt(s, q, java)
    decreases |s| - from
  {
    if from == |s| then
      NoHeadingAtEnd(s, java);
      |s|
    else if HeadingMatchAt(s, from, java) then from
    else
      var p := NextHeading(s, from + 1, java);
      NoHeadingBefore(s, from, p, java);
      p
  }

  /** A position where the pattern matches with no match between `from` and it is the one the search finds. */
  lemma NextHeadingIs(s: string, from: nat, p: nat, java: bool)
    requires from <= p <= |s| && HeadingMatchAt(s, p, java)
    requires forall q :: from <= q < p ==> !HeadingMatchAt(s, q, java)
    ensures NextHeading(s, from, java) == p
  {
  }

  /**
   * `find()` of the multi-line heading pattern: the heading of the first match in
   * `s`, or `None` when the pattern matches nowhere. A match at the start comes
   * first; a later one begins just after a line end inside `s`.
   */
  function FindHeading(s: string, java: bool): (r: Option<Heading>)
    ensures HeadingAt(s, java).Some? ==> r == HeadingAt(s, java)
    ensures r.Some? ==> 1 <= r.value.level <= 6
  {
    var p := NextHeading(s, 0, java);
    if p == |s| then None
    else
      assert s[0..] == s;
      HeadingAt(s[p..], java)
  }

  /** `find()` fails exactly when the pattern matches at no position of the text. */
  lemma FindHeadingNone(s: string, java: bool)
    ensures FindHeading(s, java).None? <==> forall p :: 0 <= p <= |s| ==> !HeadingMatchAt(s, p, java)
  {
  }

  /** A position where the pattern matches with no earlier match gives the heading `find()` returns. */
  lemma FindHeadingAt(s: string, p: nat, java: bool)
    requires p <= |s| && HeadingMatchAt(s, p, java)
    requires forall q :: 0 <= q < p ==> !HeadingMatchAt(s, q, java)
    ensures FindHeading(s, java) == HeadingAt(s[p..], java)
  {
    NextHeadingIs(s, 0, p, java);
  }

  /** A text without '#' holds no heading anywhere. */
  lemma NoHashNoHeading(s: string, java: bool)
    requires forall k :: 0 <= k < |s| ==> s[k] != '#'
    ensures FindHeading(s, java).None?
  {
    forall p | 0 <= p <= |s|
      ensures !HeadingMatchAt(s, p, java)
    {
      assert Hashes(s[p..]) == 0 by {
        assert p == |s| || s[p..][0] == s[p];
      }
    }
    FindHeadingNone(s, java);
  }

  /**
   * `HEADER_PATTERN.findall` from `from`, as `extract_headers` lists it: each match
   * found by the search, the next search starting where the match ends.
   */
  function PyHeadingsFrom(s: string, from: nat): (r: seq<Heading>)
    requires from <= |s|
    ensures forall i :: 0 <= i < |r| ==> 1 <= r[i].level <= 6 && PyStrip(r[i].title) == r[i].title
    ensures r == [] <==> NextHeading(s, from, false) == |s|
    decreases |s| - from
  {
    var p := NextHeading(s, from, false);
    if p == |s| then []
    else
      var h := HeadingAt(s[p..], false).value;
      var first := Heading(h.level, PyStrip(h.title));
      StripIdempotent(h.title, IsPySpace);
      var rest := PyHeadingsFrom(s, p + HeadingSpan(s[p..], false));
      StrippedCons(first, rest);
      [first] + rest
  }

  /** Prepending a stripped heading of a valid level keeps every heading so. */
  lemma StrippedCons(first: Heading, rest: seq<Heading>)
    requires 1 <= first.level <= 6 && PyStrip(first.title) == first.title
    requires forall i :: 0 <= i < |rest| ==> 1 <= rest[i].level <= 6 && PyStrip(rest[i].title) == rest[i].title
    ensures forall i :: 0 <= i < |[first] + rest| ==> 1 <= ([first] + rest)[i].level <= 6 && PyStrip(([first] + rest)[i].title) == ([first] + rest)[i].title
  {
    assert forall i :: 1 <= i < |[first] + rest| ==> ([first] + rest)[i] == rest[i - 1];
  }

  /** `extract_headers`: the headings of the whole text in document order, titles stripped. */
  function PyHeadings(markdown: string): (r: seq<Heading>)
    ensures forall i :: 0 <= i < |r| ==> 1 <= r[i].level <= 6 && PyStrip(r[i].title) == r[i].title
  {
    PyHeadingsFrom(markdown, 0)
  }

  /** `extract_headers` finds nothing exactly when the pattern matches nowhere in the text. */
  lemma NoHeadings(markdown: string)
    ensures PyHeadings(markdown) == [] <==> forall p :: 0 <= p <= |markdown| ==> !HeadingMatchAt(markdown, p, false)
  {
  }

  /**
   * `extract_first_header`: the stripped title of the first match in the text, or
   * `None` when the pattern matches nowhere.
   */
  function PyFirstHeader(markdown: string): (r: Option<string>)
    ensures r.None? <==> forall p :: 0 <= p <= |markdown| ==> !HeadingMatchAt(markdown, p, false)
    ensures r.Some? ==> r.value == PyHeadings(markdown)[0].title
  {
    var hs := PyHeadings(markdown);
    if hs == [] then None else Some(hs[0].title)
  }

  /** The first Python header is the stripped title of the earliest match. */
  lemma PyFirstHeaderAt(markdown: string, p: nat)
    requires p <= |markdown| && HeadingMatchAt(markdown, p, false)
    requires forall q :: 0 <= q < p ==> !HeadingMatchAt(markdown, q, false)
    ensures PyFirstHeader(markdown) == Some(PyStrip(HeadingAt(markdown[p..], false).value.title))
  {
    NextHeadingIs(markdown, 0, p, false);
  }

  /** The first heading of the whole text found by `find()` (Java): its unstripped title, or `None`. */
  function JavaFirstHeading(markdown: string): (r: Option<string>)
    ensures r.None? <==> forall p :: 0 <= p <= |markdown| ==> !HeadingMatchAt(markdown, p, true)
  {
    FindHeadingNone(markdown, true);
    match FindHeading(markdown, true)
    case Some(h) => Some(h.title)
    case None => None
  }

  /** `find()` returns the earliest match: its title is the first heading's. */
  lemma JavaFirstHeadingAt(markdown: string, p: nat)
    requires p <= |markdown| && HeadingMatchAt(markdown, p, true)
    requires forall q :: 0 <= q < p ==> !HeadingMatchAt(markdown, q, true)
    ensures JavaFirstHeading(markdown) == Some(HeadingAt(markdown[p..], true).value.title)
  {
    FindHeadingAt(markdown, p, true);
  }

  // ---------------------------------------------------------------------------
  // Images

  /** One match of an image pattern: where it lies and its groups. */
  datatype ImageMatch = ImageMatch(start: nat, end: nat, alt: string, url: string, title: Option<string>)

  /** A character of the Python URL group `[^\s\)]`. */
  predicate UrlChar(c: char) {
    !IsPySpace(c) && c != ')'
  }

  /**
   * md2doc-core's `!\[([^\]]*)\]\(([^)]+)\)` tried at `k`. The alt text cannot hold
   * ']' and the URL cannot hold ')', so each group ends at the first such character.
   */
  function JavaImageAt(s: string, k: nat): (r: Option<ImageMatch>)
    ensures r.Some? ==> r.value.start == k && k + 5 <= r.value.end <= |s|
    ensures r.Some? ==> s[k] == '!' && !Contains(r.value.alt, ']') && !Contains(r.value.url, ')') && r.value.url != []
  {
    if k + 1 < |s| && s[k] == '!' && s[k + 1] == '[' then
      var j := IndexOf(s, ']', k + 2);
      if j >= 0 && j + 1 < |s| && s[j + 1] == '(' then
        var e := IndexOf(s, ')', j + 2);
        if e > j + 2 then
          var alt := s[k + 2..j];
          var url := s[j + 2..e];
          assert forall m :: 0 <= m < |alt| ==> alt[m] == s[k + 2 + m];
          assert forall m :: 0 <= m < |url| ==> url[m] == s[j + 2 + m];
          Some(ImageMatch(k, e + 1, alt, url, None))
        else None
      else None
    else None
  }

  /**
   * The Python `!\[([^\]]*)\]\(([^\s\)]+)(?:\s+"([^"]*)")?\)` tried at `k`. The URL
   * stops at the first space or ')'; after it either ')' closes the match, or
   * spaces, a quoted title and ')' do. Shortening the URL or the spaces leaves a
   * character that neither branch accepts, so no other split succeeds.
   */
  function PyImageAt(s: string, k: nat): (r: Option<ImageMatch>)
    ensures r.Some? ==> r.value.start == k && k + 5 <= r.value.end <= |s|
    ensures r.Some? ==> s[k] == '!' && r.value.url != []
  {
    if k + 1 < |s| && s[k] == '!' && s[k + 1] == '[' then
      var j := IndexOf(s, ']', k + 2);
      if j >= 0 && j + 1 < |s| && s[j + 1] == '(' then
        var u := LeadCount(s[j + 2..], UrlChar);
        var p := j + 2 + u;
        if u == 0 || p >= |s| then None
        else if s[p] == ')' then Some(ImageMatch(k, p + 1, s[k + 2..j], s[j + 2..p], None))
        else
          var w := LeadCount(s[p..], IsPySpace);
          var q := p + w;
          if q < |s| && s[q] == '"' then
            var e := IndexOf(s, '"', q + 1);
            if e >= 0 && e + 1 < |s| && s[e + 1] == ')' then
              Some(ImageMatch(k, e + 2, s[k + 2..j], s[j + 2..p], Some(s[q + 1..e])))
            else None
          else None
      else None
    else None
  }

  function ImageAt(s: string, k: nat, java: bool): Option<ImageMatch> {
    if java then JavaImageAt(s, k) else PyImageAt(s, k)
  }

  /** `find()` / `search()` from `from`: the leftmost match, and no match starts before it. */
  function FindImage(s: string, from: nat, java: bool): (r: Option<ImageMatch>)
    ensures r.Some? ==> from <= r.value.start && r.value.start + 5 <= r.value.end <= |s|
    ensures r.Some? ==> ImageAt(s, r.value.start, java) == r
    ensures forall k :: from <= k < |s| && (r.None? || k < r.value.start) ==> ImageAt(s, k, java).None?
    decreases |s| - from
  {
    if from >= |s| then None
    else
      match ImageAt(s, from, java)
      case Some(m) => Some(m)
      case None => FindImage(s, from + 1, java)
  }

  /** Matches within `from..n`, each of at least five characters, each starting where the last ended or later. */
  predicate Ordered(r: seq<ImageMatch>, from: nat, n: nat) {
    && (forall i :: 0 <= i < |r| ==> from <= r[i].start && r[i].start + 5 <= r[i].end <= n)
    && (forall i :: 0 < i < |r| ==> r[i - 1].end <= r[i].start)
  }

  /** Putting a match in front of later, ordered matches keeps them ordered. */
  lemma MatchesCons(m: ImageMatch, rest: seq<ImageMatch>, from: nat, n: nat)
    requires from <= m.start && m.start + 5 <= m.end <= n
    requires Ordered(rest, m.end, n)
    ensures Ordered([m] + rest, from, n)
  {
    var r := [m] + rest;
    assert forall i :: 0 < i < |r| ==> r[i] == rest[i - 1];
  }

  /** `findall` / the `while (matcher.find())` loop: successive matches, each starting where the last ended. */
  function Images(s: string, from: nat, java: bool): (r: seq<ImageMatch>)
    ensures Ordered(r, from, |s|)
    decreases |s| - from
  {
    match FindImage(s, from, java)
    case None => []
    case Some(m) =>
      var rest := Images(s, m.end, java);
      MatchesCons(m, rest, from, |s|);
      [m] + rest
  }

  /** The first of the matches is the one `find` gives. */
  lemma ImagesHead(s: string, from: nat, java: bool)
    ensures Images(s, from, java) != [] <==> FindImage(s, from, java).Some?
    ensures Images(s, from, java) != [] ==> Images(s, from, java)[0] == FindImage(s, from, java).value
  {
    var f := FindImage(s, from, java);
    if f.Some? {
      assert Images(s, from, java) == [f.value] + Images(s, f.value.end, java);
    }
  }

  /** Text without '!' holds no image. */
  lemma NoBangNoImage(s: string, from: nat, java: bool)
    requires !Contains(s, '!')
    ensures Images(s, from, java) == []
  {
  }

  /**
   * `is_image_line(line)`: the first match in the stripped line, as (alt, url,
   * title); the title falls back to the alt text when the title group is absent or empty.
   */
  function PyImageLine(line: string): (r: Option<(string, string, string)>)
    ensures r.Some? <==> FindImage(PyStrip(line), 0, false).Some?
  {
    match FindImage(PyStrip(line), 0, false)
    case None => None
    case Some(m) =>
      var alt := PyStrip(m.alt);
      var title := if m.title.Some? && m.title.value != "" then PyStrip(m.title.value) else alt;
      Some((alt, PyStrip(m.url), title))
  }

  /**
   * `extract_images(content)`: every match as (alt, url, title), each stripped; an
   * absent title group reads as "" here, with no fallback to the alt text.
   */
  function PyExtractImages(content: string): (r: seq<(string, string, string)>)
    ensures |r| == |Images(content, 0, false)|
    ensures forall i :: 0 <= i < |r| ==> Images(content, 0, false)[i].title.None? ==> r[i].2 == ""
  {
    var ms := Images(content, 0, false);
    seq(|ms|, i requires 0 <= i < |ms| =>
      (PyStrip(ms[i].alt), PyStrip(ms[i].url), PyStrip(ms[i].title.GetOr(""))))
  }

  /** The one Python match in "![cat](u)": no title group. */
  lemma CatImage()
    ensures PyStrip("![cat](u)") == "![cat](u)"
    ensures Images("![cat](u)", 0, false) == [ImageMatch(0, 9, "cat", "u", None)]
  {
    var s := "![cat](u)";
    assert LeadCount(s, IsPySpace) == 0 && TrailCount(s, IsPySpace) == 0;
    assert IndexOf(s, ']', 2) == 5;
    assert s[7..] == "u)";
    assert LeadCount(s[7..], UrlChar) == 1 by {
      assert UrlChar(s[7]) && !UrlChar(s[8]);
      assert s[7..][1..] == ")";
    }
    assert s[2..5] == "cat" && s[7..8] == "u";
    var m := ImageMatch(0, 9, "cat", "u", None);
    assert PyImageAt(s, 0) == Some(m);
    assert FindImage(s, 0, false) == Some(m);
    assert FindImage(s, 9, false) == None;
  }

  /** Short words are their own strip. */
  lemma StripWords()
    ensures PyStrip("cat") == "cat" && PyStrip("u") == "u" && PyStrip("") == ""
  {
    assert LeadCount("cat", IsPySpace) == 0 && TrailCount("cat", IsPySpace) == 0;
    assert LeadCount("u", IsPySpace) == 0 && TrailCount("u", IsPySpace) == 0;
  }

  /**
   * A line that is one image without a title: `is_image_line` titles it with the
   * alt text, `extract_images` leaves the title empty.
   */
  lemma TitleFallback(line: string, m: ImageMatch)
    requires PyStrip(line) == line && Images(line, 0, false) == [m] && m.title.None?
    ensures PyImageLine(line) == Some((PyStrip(m.alt), PyStrip(m.url), PyStrip(m.alt)))
    ensures PyExtractImages(line) == [(PyStrip(m.alt), PyStrip(m.url), "")]
  {
    ImagesHead(line, 0, false);
    assert LeadCount("", IsPySpace) == 0;
  }

  /** "![cat](u)": `is_image_line` titles it "cat", `extract_images` leaves the title empty. */
  lemma TitleFallbackDiffers()
    ensures PyImageLine("![cat](u)") == Some(("cat", "u", "cat"))
    ensures PyExtractImages("![cat](u)") == [("cat", "u", "")]
  {
    CatImage();
    StripWords();
    TitleFallback("![cat](u)", ImageMatch(0, 9, "cat", "u", None));
  }
}
