/**
 * The document title each converter binds under "title", and the Python check
 * that a text is worth converting.
 */
module Titles {
  import opened Wrappers
  import opened Text
  import opened Lines

  const DefaultTitle := "默认标题"

  // ---------------------------------------------------------------------------
  // md2doc-core: the report title of the month before the current date

  /** A calendar month, as much of `LocalDate` as the title shows. */
  datatype Month = Month(year: int, month: int)

  predicate ValidMonth(d: Month) {
    1 <= d.month <= 12
  }

  /** The months counted from year 0: consecutive months differ by one. */
  function MonthIndex(d: Month): int {
    d.year * 12 + d.month
  }

  /** `minusMonths(1)`: the month before, which is December of the year before for January. */
  function PreviousMonth(d: Month): (p: Month)
    requires ValidMonth(d)
    ensures ValidMonth(p)
    ensures MonthIndex(p) == MonthIndex(d) - 1
  {
    if d.month == 1 then Month(d.year - 1, 12) else Month(d.year, d.month - 1)
  }

  /** The month after, for stating that `PreviousMonth` loses nothing. */
  function NextMonth(d: Month): (n: Month)
    requires ValidMonth(d)
    ensures ValidMonth(n)
    ensures MonthIndex(n) == MonthIndex(d) + 1
  {
    if d.month == 12 then Month(d.year + 1, 1) else Month(d.year, d.month + 1)
  }

  /** A valid month is fixed by its index. */
  lemma MonthIndexInjective(a: Month, b: Month)
    requires ValidMonth(a) && ValidMonth(b) && MonthIndex(a) == MonthIndex(b)
    ensures a == b
  {
    assert a.year * 12 < MonthIndex(a) <= a.year * 12 + 12;
    assert b.year * 12 < MonthIndex(b) <= b.year * 12 + 12;
  }

  /** Going back a month and forward again, or forward and back, returns to the same month. */
  lemma PreviousNextInverse(d: Month)
    requires ValidMonth(d)
    ensures NextMonth(PreviousMonth(d)) == d
    ensures PreviousMonth(NextMonth(d)) == d
  {
    MonthIndexInjective(NextMonth(PreviousMonth(d)), d);
    MonthIndexInjective(PreviousMonth(NextMonth(d)), d);
  }

  /** Java's decimal text of an `int`: a minus sign before the digits of a negative year. */
  function YearText(y: int): (r: string)
    ensures r != []
    ensures forall k :: 0 <= k < |r| ==> IsDigit(r[k]) || r[k] == '-'
    ensures r[0] == '-' <==> y < 0
  {
    if y < 0 then NatToStringDigits(-y); "-" + NatToString(-y) else NatToStringDigits(y); NatToString(y)
  }

  /** Different years are written differently. */
  lemma YearTextInjective(x: int, y: int)
    requires YearText(x) == YearText(y)
    ensures x == y
  {
    if x < 0 && y < 0 {
      assert NatToString(-x) == YearText(x)[1..] == YearText(y)[1..] == NatToString(-y);
      if -x != -y {
        NatToStringInjective(-x, -y);
      }
    } else if 0 <= x && 0 <= y {
      if x != y {
        NatToStringInjective(x, y);
      }
    }
  }

  const YearMark := "年"
  const ReportTail := "月分析报告"

  /** The title written for a month: year, "年", month number, "月分析报告". */
  function MonthTitle(p: Month): string
    requires ValidMonth(p)
  {
    YearText(p.year) + YearMark + NatToString(p.month) + ReportTail
  }

  /** `processTextContent` (md2doc-core): the title names the month before `today`. */
  function CoreTitle(today: Month): (r: string)
    requires ValidMonth(today)
    ensures r == MonthTitle(PreviousMonth(today))
    ensures r != []
  {
    MonthTitle(PreviousMonth(today))
  }

  /**
   * Two texts that begin with a string without `mark`, followed by `mark`, split
   * at the same place: the leading parts and the rests agree.
   */
  lemma SplitAtMark(a: string, ra: string, b: string, rb: string, mark: char)
    requires forall k :: 0 <= k < |a| ==> a[k] != mark
    requires forall k :: 0 <= k < |b| ==> b[k] != mark
    requires a + [mark] + ra == b + [mark] + rb
    ensures a == b && ra == rb
  {
    var s := a + [mark] + ra;
    var n := if |a| <= |b| then |a| else |b|;
    assert s[n] == mark;
    assert a == s[..|a|] == b;
    assert ra == s[|a| + 1..] == rb;
  }

  /** Different months get different titles: the title tells which month it reports on. */
  lemma MonthTitleInjective(p: Month, q: Month)
    requires ValidMonth(p) && ValidMonth(q) && MonthTitle(p) == MonthTitle(q)
    ensures p == q
  {
    var ya, yb := YearText(p.year), YearText(q.year);
    var ma, mb := NatToString(p.month), NatToString(q.month);
    assert MonthTitle(p) == ya + ['年'] + (ma + ReportTail);
    assert MonthTitle(q) == yb + ['年'] + (mb + ReportTail);
    SplitAtMark(ya, ma + ReportTail, yb, mb + ReportTail, '年');
    YearTextInjective(p.year, q.year);
    assert ma + ReportTail == ma + ['月'] + ReportTail[1..];
    assert mb + ReportTail == mb + ['月'] + ReportTail[1..];
    NatToStringDigits(p.month);
    NatToStringDigits(q.month);
    SplitAtMark(ma, ReportTail[1..], mb, ReportTail[1..], '月');
    if p.month != q.month {
      NatToStringInjective(p.month, q.month);
    }
  }

  /** The core title changes with every month: two dates in different months give different titles. */
  lemma CoreTitleDistinguishesMonths(a: Month, b: Month)
    requires ValidMonth(a) && ValidMonth(b) && a != b
    ensures CoreTitle(a) != CoreTitle(b)
  {
    if CoreTitle(a) == CoreTitle(b) {
      MonthTitleInjective(PreviousMonth(a), PreviousMonth(b));
      MonthIndexInjective(a, b);
    }
  }

  /** January 2025 reports on December 2024. */
  lemma CoreTitleExample()
    ensures CoreTitle(Month(2025, 1)) == "2024年12月分析报告"
  {
    assert NatToString(2024) == "2024" by {
      assert NatToString(20) == "20";
      assert NatToString(202) == "202";
    }
    assert NatToString(12) == "12";
  }

  // ---------------------------------------------------------------------------
  // src/main: the first heading of the text

  /** `processTextContent` (older Java): the first heading's text as matched, or the default title. */
  function LegacyTitle(markdown: string): (r: string)
    ensures JavaFirstHeading(markdown).None? ==> r == DefaultTitle
    ensures JavaFirstHeading(markdown).Some? ==> r == JavaFirstHeading(markdown).value
  {
    JavaFirstHeading(markdown).GetOr(DefaultTitle)
  }

  /** The older Java title is the title of the earliest heading match in the text, whatever follows it. */
  lemma LegacyTitleIsFirstHeading(markdown: string, p: nat)
    requires p <= |markdown| && HeadingMatchAt(markdown, p, true)
    requires forall q :: 0 <= q < p ==> !HeadingMatchAt(markdown, q, true)
    ensures LegacyTitle(markdown) == HeadingAt(markdown[p..], true).value.title
  {
    JavaFirstHeadingAt(markdown, p);
  }

  /** A heading on the first line, with a title on that line, is the older Java title whatever the later lines hold. */
  lemma LegacyTitleOfFirstLine(level: nat, title: string, rest: string)
    requires 1 <= level <= 6
    requires title != [] && !RegexSpace(title[0], true)
    requires forall k :: 0 <= k < |title| ==> !LineEnd(title[k], true)
    ensures LegacyTitle(HashRun(level) + " " + title + "\n" + rest) == title
  {
    var s := HashRun(level) + " " + title + ("\n" + rest);
    assert s == HashRun(level) + " " + title + "\n" + rest;
    HeadingBeforeLineEnd(level, title, "\n" + rest, true);
    assert s[0..] == s;
    LegacyTitleIsFirstHeading(s, 0);
  }

  /** A heading whose '#'s end their line takes its title from the next line: `\s+` runs across the line end. */
  lemma LegacyTitleAcrossLines()
    ensures LegacyTitle("#\nfoo") == "foo"
  {
    var s := "#\nfoo";
    assert Hashes(s) == 1 by { assert s[1] != '#'; }
    assert LeadCount(s[1..], c => RegexSpace(c, true)) == 1 by {
      assert s[1..][0] == '\n' && s[1..][1] == 'f';
    }
    assert s[2..] == "foo";
    UpToLineEndWhole("foo", true);
    assert s[0..] == s;
    LegacyTitleIsFirstHeading(s, 0);
  }

  /** A heading with nothing after its spaces sets an empty title in the older Java; see `PyTitle` for the contrast. */
  lemma LegacyEmptyTitle()
    ensures LegacyTitle("# ") == ""
  {
    var s := "# ";
    HeadingRoundTrip(1, "", true);
    assert HashRun(1) + " " + "" == s;
    assert s[0..] == s;
    LegacyTitleIsFirstHeading(s, 0);
  }

  // ---------------------------------------------------------------------------
  // md2doc-service-python: the first header, never empty

  /** `_process_text_content`: the first header when it is not empty, the default title otherwise. */
  function PyTitle(markdown: string): (r: string)
    ensures r != []
    ensures PyFirstHeader(markdown).None? ==> r == DefaultTitle
    ensures PyFirstHeader(markdown) == Some(r) || r == DefaultTitle
  {
    var header := PyFirstHeader(markdown);
    if header.Some? && header.value != "" then header.value else DefaultTitle
  }

  /** A non-empty first header is the Python title. */
  lemma PyTitleIsFirstHeader(markdown: string)
    requires PyFirstHeader(markdown).Some? && PyFirstHeader(markdown).value != ""
    ensures PyTitle(markdown) == PyFirstHeader(markdown).value
  {
  }

  /** The Python title of the earliest heading match is its stripped title, unless that is empty. */
  lemma PyTitleOfFirstMatch(markdown: string, p: nat)
    requires p <= |markdown| && HeadingMatchAt(markdown, p, false)
    requires forall q :: 0 <= q < p ==> !HeadingMatchAt(markdown, q, false)
    ensures var t := PyStrip(HeadingAt(markdown[p..], false).value.title);
      PyTitle(markdown) == if t == [] then DefaultTitle else t
  {
    PyFirstHeaderAt(markdown, p);
    var header := PyFirstHeader(markdown);
    assert header == Some(PyStrip(HeadingAt(markdown[p..], false).value.title));
  }

  /** The Python heading pattern at the start of "# \nfoo" takes "foo" as the title. */
  lemma PyHeadingAcrossLines()
    ensures HeadingAt("# \nfoo", false) == Some(Heading(1, "foo"))
  {
    var s := "# \nfoo";
    assert Hashes(s) == 1 by { assert s[1] != '#'; }
    assert LeadCount(s[1..], c => RegexSpace(c, false)) == 2 by {
      assert s[1..][0] == ' ' && s[1..][1] == '\n' && s[1..][2] == 'f';
    }
    assert s[3..] == "foo";
    UpToLineEndWhole("foo", false);
  }

  /** As in Java, `\s+` runs across the line end: the next line's text becomes the title. */
  lemma PyTitleAcrossLines()
    ensures PyTitle("# \nfoo") == "foo"
  {
    var s := "# \nfoo";
    PyHeadingAcrossLines();
    StripUnpadded("foo", IsPySpace);
    assert s[0..] == s;
    PyTitleOfFirstMatch(s, 0);
  }

  /** A heading with nothing after its spaces gives the default title in Python, where the older Java sets "". */
  lemma PyEmptyTitle()
    ensures PyTitle("# ") == DefaultTitle
  {
    var s := "# ";
    HeadingRoundTrip(1, "", false);
    assert HashRun(1) + " " + "" == s;
    assert s[0..] == s;
    PyTitleOfFirstMatch(s, 0);
  }

  /**
   * `validate_markdown_content`: false for the empty text and for text made only
   * of whitespace, true otherwise.
   */
  function ValidateMarkdown(content: string): (valid: bool)
    ensures valid <==> exists k :: 0 <= k < |content| && !IsPySpace(content[k])
  {
    PyBlankIffStripEmpty(content);
    !(content == [] || PyStrip(content) == [])
  }
}
