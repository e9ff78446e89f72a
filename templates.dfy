/**
 * The template builders: `parseAndCreateDocumentStructure` of md2doc-core and of
 * the older `src/main` copy, `_parse_and_create_document_structure` of the Python
 * port, and the older `createCompleteTemplate`. Each walks the Markdown line by line
 * with per-kind counters and writes the skeleton document: numbered (or bare)
 * headings, captions, `${kindN}` placeholder paragraphs, chart parts titled
 * `chartN` and body text. The document is modelled as its sequence of paragraphs;
 * styling (fonts, sizes, spacing, alignment) is not part of the model.
 */
module Templates {
  import opened Wrappers
  import opened Text
  import opened Lines
  import Numbering
  import Numbers

  /** The kinds of numbered placeholder the builders write. */
  datatype Kind = ChartKind | MermaidKind | TableKind | ImageKind

  function KindName(kind: Kind): string {
    match kind
    case ChartKind => "chart"
    case MermaidKind => "mermaid"
    case TableKind => "table"
    case ImageKind => "image"
  }

  /** The parameter key of the n-th placeholder of a kind: "table" + n and so on. */
  function Key(kind: Kind, n: nat): string {
    KindName(kind) + NatToString(n)
  }

  /** One paragraph of the skeleton document. */
  datatype Para =
    | TitleRun                          // the "${title}" run of the document head
    | Blank                             // an empty paragraph
    | HeadingPara(level: nat, text: string) // a heading paragraph and its text
    | Caption(text: string)             // "图表 n：", "表格 n：", "图片 n：title"
    | Placeholder(kind: Kind, n: nat)   // a paragraph whose text is "${" + Key(kind, n) + "}"
    | ChartPart(n: nat)                 // a chart part whose title text is "chart" + n
    | Body(text: string)                // body text

  /** "图表 " + n + "：" and its kin. */
  function CaptionText(word: string, n: nat): string {
    word + " " + NatToString(n) + "："
  }

  /** The counters of the line loop, each starting at 1. */
  datatype Counts = Counts(chart: nat, mermaid: nat, table: nat, image: nat)

  const Start := Counts(1, 1, 1, 1)

  function Counter(c: Counts, kind: Kind): nat {
    match kind
    case ChartKind => c.chart
    case MermaidKind => c.mermaid
    case TableKind => c.table
    case ImageKind => c.image
  }

  /** The counters with one kind advanced by one. */
  function Bump(c: Counts, kind: Kind): (r: Counts)
    ensures Counter(r, kind) == Counter(c, kind) + 1
    ensures forall k :: k != kind ==> Counter(r, k) == Counter(c, k)
  {
    match kind
    case ChartKind => c.(chart := c.chart + 1)
    case MermaidKind => c.(mermaid := c.mermaid + 1)
    case TableKind => c.(table := c.table + 1)
    case ImageKind => c.(image := c.image + 1)
  }

  /** The number of the paragraph as a member of `kind`: chart parts count as charts. */
  function IndexIn(p: Para, kind: Kind): (r: seq<nat>)
    ensures |r| <= 1
  {
    match p
    case Placeholder(k, n) => if k == kind then [n] else []
    case ChartPart(n) => if kind == ChartKind then [n] else []
    case _ => []
  }

  /** The numbers of the paragraphs of a kind, in document order. */
  function Indices(ps: seq<Para>, kind: Kind): seq<nat> {
    if ps == [] then [] else IndexIn(ps[0], kind) + Indices(ps[1..], kind)
  }

  lemma {:induction false} IndicesAppend(a: seq<Para>, b: seq<Para>, kind: Kind)
    ensures Indices(a + b, kind) == Indices(a, kind) + Indices(b, kind)
  {
    if a == [] {
      assert a + b == b;
    } else {
      assert (a + b)[0] == a[0];
      assert (a + b)[1..] == a[1..] + b;
      IndicesAppend(a[1..], b, kind);
      Assoc(IndexIn(a[0], kind), Indices(a[1..], kind), Indices(b, kind));
    }
  }

  // ---------------------------------------------------------------------------
  // Block ends

  /** The first index at or after `i` whose element stops the scan, or the end of the sequence. */
  function FirstFrom<T>(xs: seq<T>, i: nat, stop: T -> bool): (r: nat)
    requires i <= |xs|
    ensures i <= r <= |xs|
    ensures r < |xs| ==> stop(xs[r])
    ensures forall k :: i <= k < r ==> !stop(xs[k])
    decreases |xs| - i
  {
    if i == |xs| || stop(xs[i]) then i else FirstFrom(xs, i + 1, stop)
  }

  /** The first line at or after `i` that closes a fence, or the end of the lines. */
  function FenceEnd(lines: seq<string>, i: nat, java: bool): (r: nat)
    requires i <= |lines|
    ensures i <= r <= |lines|
    ensures r < |lines| ==> IsFenceEnd(lines[r], java)
    ensures forall k :: i <= k < r ==> !IsFenceEnd(lines[k], java)
  {
    FirstFrom(lines, i, line => IsFenceEnd(line, java))
  }

  /** The first line at or after `i` that does not continue a table, or the end of the lines. */
  function TableEnd(lines: seq<string>, i: nat, java: bool): (r: nat)
    requires i <= |lines|
    ensures i <= r <= |lines|
    ensures r < |lines| ==> !TableContinues(lines[r], java)
    ensures forall k :: i <= k < r ==> TableContinues(lines[k], java)
  {
    FirstFrom(lines, i, line => !TableContinues(line, java))
  }

  /** The loop `while (i < lines.length && !lines[i].trim().equals("```")) i++`. */
  method SkipToFence(lines: seq<string>, from: nat, java: bool) returns (i: nat)
    requires from <= |lines|
    ensures i == FenceEnd(lines, from, java)
  {
    i := from;
    while i < |lines| && !IsFenceEnd(lines[i], java)
      invariant from <= i <= |lines|
      invariant FenceEnd(lines, i, java) == FenceEnd(lines, from, java)
      decreases |lines| - i
    {
      i := i + 1;
    }
  }

  /** The loop that collects the lines of a table. */
  method SkipTable(lines: seq<string>, from: nat, java: bool) returns (i: nat)
    requires from <= |lines|
    ensures i == TableEnd(lines, from, java)
  {
    i := from;
    while i < |lines| && TableContinues(lines[i], java)
      invariant from <= i <= |lines|
      invariant TableEnd(lines, i, java) == TableEnd(lines, from, java)
      decreases |lines| - i
    {
      i := i + 1;
    }
  }

  // ---------------------------------------------------------------------------
  // One line of each builder

  /** The three builders. */
  datatype Dialect = Core | Legacy | Python

  /** How a builder classifies a line: the tests run in this order and the first that holds wins. */
  datatype LineClass =
    | HeadingLine(level: nat, title: string)  // the heading pattern matches
    | ChartStart                              // "```echarts", trimmed
    | MermaidStart                            // "```mermaid", trimmed (md2doc-core)
    | TableStart                              // a table's first line
    | ImageLine(before: string, after: string) // md2doc-core: the text around the first image
    | PictureLine(title: string)              // Python: a line holding an image, with its title
    | BlankLine                               // nothing but spaces
    | TextLine                                // anything else

  /**
   * md2doc-core's tests, in the order of its `if`s. The heading test is `find()` on
   * the line, so a heading may also begin just after a line end inside it.
   */
  function CoreClass(line: string): (r: LineClass)
    ensures r.HeadingLine? ==> r.level >= 1
    ensures !r.PictureLine?
  {
    match FindHeading(line, true)
    case Some(h) => HeadingLine(h.level, h.title)
    case None =>
      if IsEchartsStart(line, true) then ChartStart
      else if IsMermaidStart(line) then MermaidStart
      else if StartsWithBar(line) then TableStart
      else CoreTextClass(line)
  }

  /** The last tests of md2doc-core: a blank line, a line with an image, or plain text. */
  function CoreTextClass(line: string): (r: LineClass)
    ensures r == BlankLine || r == TextLine || r.ImageLine?
  {
    if JavaBlank(line) then BlankLine
    else
      match FindImage(line, 0, true)
      case Some(m) => ImageLine(line[..m.start], line[m.end..])
      case None => TextLine
  }

  /** The older Java builder's tests: headings (found as md2doc-core finds them), charts, tables, then text. */
  function LegacyClass(line: string): (r: LineClass)
    ensures r.HeadingLine? ==> r.level >= 1
    ensures r in {ChartStart, TableStart, BlankLine, TextLine} || r.HeadingLine?
  {
    match FindHeading(line, true)
    case Some(h) => HeadingLine(h.level, h.title)
    case None =>
      if IsEchartsStart(line, true) then ChartStart
      else if StartsWithBar(line) then TableStart
      else if JavaBlank(line) then BlankLine
      else TextLine
  }

  /** The Python builder's tests: headings, charts, images (before tables), tables, then text. */
  function PyClass(line: string): (r: LineClass)
    ensures r.HeadingLine? ==> r.level >= 1
    ensures r != MermaidStart && !r.ImageLine?
  {
    match PyHeaderLine(line)
    case Some(h) => HeadingLine(h.level, h.title)
    case None =>
      if IsEchartsStart(line, false) then ChartStart
      else
        match PyImageLine(line)
        case Some(img) => PictureLine(img.2)
        case None =>
          if IsPyTableStart(line) then TableStart
          else if PyBlank(line) then BlankLine
          else TextLine
  }

  function Classify(d: Dialect, line: string): (r: LineClass)
    ensures r.HeadingLine? ==> r.level >= 1
  {
    match d
    case Core => CoreClass(line)
    case Legacy => LegacyClass(line)
    case Python => PyClass(line)
  }

  /** The loop state: the counters and the heading numbering. */
  datatype Scan = Scan(counts: Counts, numbering: Numbering.State)

  /** What one turn of the loop emits, where the loop resumes, and the new state. */
  datatype Step = Step(out: seq<Para>, next: nat, scan: Scan)

  /** A chart block of the Java builders: caption, then the chart part, or the placeholder when creating the chart throws. */
  function JavaChart(n: nat, failing: set<nat>, legacy: bool): seq<Para> {
    var part := if n in failing then Placeholder(ChartKind, n) else ChartPart(n);
    [Caption(CaptionText("图表", n))] + (if legacy then [Blank] else []) + [part]
  }

  /** A table block: caption and placeholder. */
  function TableBlock(n: nat): seq<Para> {
    [Caption(CaptionText("表格", n)), Placeholder(TableKind, n)]
  }

  /** Text that is not blank becomes a body paragraph; blank text none. */
  function BodyIfText(s: string): (r: seq<Para>)
    ensures |r| <= 1
  {
    if JavaBlank(s) then [] else [Body(s)]
  }

  /**
   * One turn of the loop at line `i`, classified as `cls`: what it writes, where the
   * loop resumes (past the closing fence of a block, at the first line after a
   * table), and the new counters and numbering.
   */
  function Emit(d: Dialect, cls: LineClass, lines: seq<string>, i: nat, st: Scan, failing: set<nat>): (r: Step)
    requires i < |lines|
    requires cls.HeadingLine? ==> cls.level >= 1
    ensures r.next > i
  {
    var c := st.counts;
    var java := d != Python;
    match cls
    case HeadingLine(level, title) =>
      if d == Legacy then Step([HeadingPara(level, title)], i + 1, st)
      else
        var n := Numbering.Enter(st.numbering, level);
        Step([HeadingPara(level, Numbering.NumberText(n.stack) + " " + title)], i + 1, Scan(c, n))
    case ChartStart =>
      var out := if java then JavaChart(c.chart, failing, d == Legacy)
                 else [Caption(CaptionText("图表", c.chart)), Placeholder(ChartKind, c.chart)];
      Step(out, FenceEnd(lines, i + 1, java) + 1, st.(counts := Bump(c, ChartKind)))
    case MermaidStart =>
      Step([Placeholder(MermaidKind, c.mermaid)], FenceEnd(lines, i + 1, java) + 1, st.(counts := Bump(c, MermaidKind)))
    case TableStart =>
      Step(TableBlock(c.table), TableEnd(lines, i + 1, java), st.(counts := Bump(c, TableKind)))
    case ImageLine(before, after) =>
      var out := BodyIfText(before) + [Placeholder(ImageKind, c.image)] + BodyIfText(after);
      Step(out, i + 1, st.(counts := Bump(c, ImageKind)))
    case PictureLine(title) =>
      var out := [Caption(CaptionText("图片", c.image) + title), Placeholder(ImageKind, c.image)];
      Step(out, i + 1, st.(counts := Bump(c, ImageKind)))
    case BlankLine => Step([], i + 1, st)
    case TextLine =>
      var text := if java then lines[i] else Numbers.FormatWithThousands(lines[i]);
      Step([Body(text)], i + 1, st)
  }

  function StepAt(d: Dialect, lines: seq<string>, i: nat, st: Scan, failing: set<nat>): (r: Step)
    requires i < |lines|
    ensures r.next > i
  {
    Emit(d, Classify(d, lines[i]), lines, i, st, failing)
  }

  /** The paragraphs the loop writes from line `i` on. */
  function From(d: Dialect, lines: seq<string>, i: nat, st: Scan, failing: set<nat>): seq<Para>
    decreases |lines| - i
  {
    if i >= |lines| then []
    else
      var s := StepAt(d, lines, i, st, failing);
      s.out + From(d, lines, s.next, s.scan, failing)
  }

  /** The lines of the Markdown: Java's `split("\n")` drops trailing empty lines, Python's keeps them. */
  function SourceLines(d: Dialect, markdown: string): seq<string> {
    if d == Python then Split(markdown, '\n') else JavaSplit(markdown, '\n')
  }

  /** The paragraphs `parseAndCreateDocumentStructure` writes for the Markdown. */
  function Structure(d: Dialect, markdown: string, failing: set<nat>): seq<Para> {
    From(d, SourceLines(d, markdown), 0, Scan(Start, Numbering.Fresh), failing)
  }

  /** The whole skeleton: the "${title}" run, an empty paragraph, then the structure. */
  function Skeleton(d: Dialect, markdown: string, failing: set<nat>): (r: seq<Para>)
    ensures |r| >= 2 && r[0] == TitleRun && r[1] == Blank
    ensures r[2..] == Structure(d, markdown, failing)
  {
    [TitleRun, Blank] + Structure(d, markdown, failing)
  }

  // ---------------------------------------------------------------------------
  // The loops

  /** A heading paragraph: the numbering enters the level, and the number goes before the title. */
  method NumberHeading(numbering: Numbering.HeaderNumbering, level: nat, title: string) returns (p: Para)
    requires level >= 1
    modifies numbering
    ensures numbering.Value() == Numbering.Enter(old(numbering.Value()), level)
    ensures p == HeadingPara(level, Numbering.NumberText(numbering.stack) + " " + title)
  {
    numbering.EnterLevel(level);
    var number := numbering.GetNumber();
    p := HeadingPara(level, number + " " + title);
  }

  /** One turn of the md2doc-core loop, with the numbering object updated in place. */
  method CoreLine(lines: seq<string>, i: nat, counts: Counts, numbering: Numbering.HeaderNumbering, failing: set<nat>)
    returns (out: seq<Para>, next: nat, c: Counts)
    requires i < |lines|
    modifies numbering
    ensures StepAt(Core, lines, i, Scan(counts, old(numbering.Value())), failing) == Step(out, next, Scan(c, numbering.Value()))
  {
    var line := lines[i];
    c := counts;
    var heading := FindHeading(line, true);
    if heading.Some? {
      assert Classify(Core, line) == HeadingLine(heading.value.level, heading.value.title);
      var p := NumberHeading(numbering, heading.value.level, heading.value.title);
      return [p], i + 1, c;
    }
    out, next, c := CoreBlockLine(lines, i, counts, numbering.Value(), failing);
  }

  /** The fence, table and text branches of the md2doc-core turn, for a line that is not a heading. */
  method CoreBlockLine(lines: seq<string>, i: nat, counts: Counts, ghost n: Numbering.State, failing: set<nat>)
    returns (out: seq<Para>, next: nat, c: Counts)
    requires i < |lines| && FindHeading(lines[i], true).None?
    ensures StepAt(Core, lines, i, Scan(counts, n), failing) == Step(out, next, Scan(c, n))
  {
    var line := lines[i];
    c := counts;
    if IsEchartsStart(line, true) {
      assert Classify(Core, line) == ChartStart;
      out, next, c := ChartLine(Core, lines, i, counts, n, failing);
      return;
    }
    if IsMermaidStart(line) {
      assert Classify(Core, line) == MermaidStart;
      out, next, c := MermaidLine(lines, i, counts, n, failing);
      return;
    }
    if StartsWithBar(line) {
      assert Classify(Core, line) == TableStart;
      out, next, c := TableLine(Core, lines, i, counts, n, failing);
      return;
    }
    assert Classify(Core, line) == CoreTextClass(line);
    out, next, c := CoreTextLine(lines, i, counts, n, failing);
  }

  /** A chart block of the Java builders: skip to the closing fence, write caption and chart part. */
  method ChartLine(d: Dialect, lines: seq<string>, i: nat, counts: Counts, ghost n: Numbering.State, failing: set<nat>)
    returns (out: seq<Para>, next: nat, c: Counts)
    requires i < |lines| && d != Python
    ensures Emit(d, ChartStart, lines, i, Scan(counts, n), failing) == Step(out, next, Scan(c, n))
  {
    var j := SkipToFence(lines, i + 1, true);
    var part := if counts.chart in failing then Placeholder(ChartKind, counts.chart) else ChartPart(counts.chart);
    out := [Caption(CaptionText("图表", counts.chart))] + (if d == Legacy then [Blank] else []) + [part];
    next, c := j + 1, Bump(counts, ChartKind);
  }

  /** A mermaid block of md2doc-core: skip to the closing fence, write its placeholder. */
  method MermaidLine(lines: seq<string>, i: nat, counts: Counts, ghost n: Numbering.State, ghost failing: set<nat>)
    returns (out: seq<Para>, next: nat, c: Counts)
    requires i < |lines|
    ensures Emit(Core, MermaidStart, lines, i, Scan(counts, n), failing) == Step(out, next, Scan(c, n))
  {
    var j := SkipToFence(lines, i + 1, true);
    out, next, c := [Placeholder(MermaidKind, counts.mermaid)], j + 1, Bump(counts, MermaidKind);
  }

  /** A table: skip its lines, write caption and placeholder. */
  method TableLine(d: Dialect, lines: seq<string>, i: nat, counts: Counts, ghost n: Numbering.State, ghost failing: set<nat>)
    returns (out: seq<Para>, next: nat, c: Counts)
    requires i < |lines|
    ensures Emit(d, TableStart, lines, i, Scan(counts, n), failing) == Step(out, next, Scan(c, n))
  {
    var j := SkipTable(lines, i + 1, d != Python);
    out, next, c := TableBlock(counts.table), j, Bump(counts, TableKind);
  }

  /** The blank, image and plain-text branches of the md2doc-core turn. */
  method CoreTextLine(lines: seq<string>, i: nat, counts: Counts, ghost n: Numbering.State, ghost failing: set<nat>)
    returns (out: seq<Para>, next: nat, c: Counts)
    requires i < |lines|
    ensures Emit(Core, CoreTextClass(lines[i]), lines, i, Scan(counts, n), failing) == Step(out, next, Scan(c, n))
  {
    var line := lines[i];
    c := counts;
    next := i + 1;
    if JavaBlank(line) {
      return [], next, c;
    }
    var image := FindImage(line, 0, true);
    if image.Some? {
      out := SplitAtImage(line, image.value, c.image);
      c := Bump(c, ImageKind);
    } else {
      out := [Body(line)];
    }
  }

  /** The paragraphs of a line holding an image: text before it, the placeholder, text after it. */
  method SplitAtImage(line: string, m: ImageMatch, n: nat) returns (out: seq<Para>)
    requires m.start <= m.end <= |line|
    ensures out == BodyIfText(line[..m.start]) + [Placeholder(ImageKind, n)] + BodyIfText(line[m.end..])
  {
    var before := line[..m.start];
    var after := line[m.end..];
    out := [];
    if !JavaBlank(before) {
      out := out + [Body(before)];
    }
    out := out + [Placeholder(ImageKind, n)];
    if !JavaBlank(after) {
      out := out + [Body(after)];
    }
  }

  /** md2doc-core `parseAndCreateDocumentStructure`. */
  method CoreStructure(markdown: string, failing: set<nat>) returns (doc: seq<Para>)
    ensures doc == Structure(Core, markdown, failing)
  {
    var lines := JavaSplit(markdown, '\n');
    var counts := Start;
    var numbering := new Numbering.HeaderNumbering();
    doc := [];
    var i := 0;
    while i < |lines|
      invariant doc + From(Core, lines, i, Scan(counts, numbering.Value()), failing) == Structure(Core, markdown, failing)
      decreases |lines| - i
    {
      ghost var before := doc;
      ghost var st := Scan(counts, numbering.Value());
      var out, next, c := CoreLine(lines, i, counts, numbering, failing);
      doc := doc + out;
      Assoc(before, out, From(Core, lines, next, Scan(c, numbering.Value()), failing));
      i, counts := next, c;
    }
  }

  /** One turn of the older Java loop. */
  method LegacyLine(lines: seq<string>, i: nat, counts: Counts, failing: set<nat>, n: Numbering.State)
    returns (out: seq<Para>, next: nat, c: Counts)
    requires i < |lines|
    ensures StepAt(Legacy, lines, i, Scan(counts, n), failing) == Step(out, next, Scan(c, n))
  {
    var line := lines[i];
    var heading := FindHeading(line, true);
    if heading.Some? {
      assert Classify(Legacy, line) == HeadingLine(heading.value.level, heading.value.title);
      return [HeadingPara(heading.value.level, heading.value.title)], i + 1, counts;
    }
    if IsEchartsStart(line, true) {
      assert Classify(Legacy, line) == ChartStart;
      out, next, c := ChartLine(Legacy, lines, i, counts, n, failing);
    } else if StartsWithBar(line) {
      assert Classify(Legacy, line) == TableStart;
      out, next, c := TableLine(Legacy, lines, i, counts, n, failing);
    } else {
      assert Classify(Legacy, line) == (if JavaBlank(line) then BlankLine else TextLine);
      out, next, c := PlainLine(Legacy, lines, i, counts, n, failing);
    }
  }

  /** A Java line that opens no block: nothing when it is blank, else one body paragraph. */
  method PlainLine(d: Dialect, lines: seq<string>, i: nat, counts: Counts, ghost n: Numbering.State, ghost failing: set<nat>)
    returns (out: seq<Para>, next: nat, c: Counts)
    requires i < |lines| && d != Python
    ensures Emit(d, if JavaBlank(lines[i]) then BlankLine else TextLine, lines, i, Scan(counts, n), failing)
      == Step(out, next, Scan(c, n))
  {
    out := if JavaBlank(lines[i]) then [] else [Body(lines[i])];
    next, c := i + 1, counts;
  }

  /** The older Java `parseAndCreateDocumentStructure`. */
  method LegacyStructure(markdown: string, failing: set<nat>) returns (doc: seq<Para>)
    ensures doc == Structure(Legacy, markdown, failing)
  {
    var lines := JavaSplit(markdown, '\n');
    var counts := Start;
    doc := [];
    var i := 0;
    while i < |lines|
      invariant doc + From(Legacy, lines, i, Scan(counts, Numbering.Fresh), failing) == Structure(Legacy, markdown, failing)
      decreases |lines| - i
    {
      ghost var before := doc;
      var out, next, c := LegacyLine(lines, i, counts, failing, Numbering.Fresh);
      doc := doc + out;
      Assoc(before, out, From(Legacy, lines, next, Scan(c, Numbering.Fresh), failing));
      i, counts := next, c;
    }
  }

  /** One turn of the Python loop. */
  method PyLine(lines: seq<string>, i: nat, counts: Counts, numbering: Numbering.HeaderNumbering)
    returns (out: seq<Para>, next: nat, c: Counts)
    requires i < |lines|
    modifies numbering
    ensures StepAt(Python, lines, i, Scan(counts, old(numbering.Value())), {}) == Step(out, next, Scan(c, numbering.Value()))
  {
    var line := lines[i];
    c := counts;
    var heading := PyHeaderLine(line);
    if heading.Some? {
      assert Classify(Python, line) == HeadingLine(heading.value.level, heading.value.title);
      var p := NumberHeading(numbering, heading.value.level, heading.value.title);
      return [p], i + 1, c;
    }
    out, next, c := PyBlockLine(lines, i, counts, numbering.Value());
  }

  /** The fence branch of the Python turn, for a line that is not a heading. */
  method PyBlockLine(lines: seq<string>, i: nat, counts: Counts, ghost n: Numbering.State)
    returns (out: seq<Para>, next: nat, c: Counts)
    requires i < |lines| && PyHeaderLine(lines[i]).None?
    ensures StepAt(Python, lines, i, Scan(counts, n), {}) == Step(out, next, Scan(c, n))
  {
    var line := lines[i];
    if IsEchartsStart(line, false) {
      assert Classify(Python, line) == ChartStart;
      var j := SkipToFence(lines, i + 1, false);
      out := [Caption(CaptionText("图表", counts.chart)), Placeholder(ChartKind, counts.chart)];
      return out, j + 1, Bump(counts, ChartKind);
    }
    assert Classify(Python, line) == PyRestClass(line);
    out, next, c := PyRestLine(lines, i, counts, n);
  }

  /** The tests of the Python builder after headings and charts. */
  function PyRestClass(line: string): (r: LineClass)
    ensures r.PictureLine? || r in {TableStart, BlankLine, TextLine}
  {
    match PyImageLine(line)
    case Some(img) => PictureLine(img.2)
    case None =>
      if IsPyTableStart(line) then TableStart
      else if PyBlank(line) then BlankLine
      else TextLine
  }

  /** The image, table and text branches of the Python turn. */
  method PyRestLine(lines: seq<string>, i: nat, counts: Counts, ghost n: Numbering.State)
    returns (out: seq<Para>, next: nat, c: Counts)
    requires i < |lines|
    ensures Emit(Python, PyRestClass(lines[i]), lines, i, Scan(counts, n), {}) == Step(out, next, Scan(c, n))
  {
    var image := PyImageLine(lines[i]);
    if image.Some? {
      assert PyRestClass(lines[i]) == PictureLine(image.value.2);
      out, next, c := PyPictureLine(lines, i, counts, n, image.value.2);
    } else {
      out, next, c := PyPlainLine(lines, i, counts, n);
    }
  }

  /** The image branch of the Python turn: the caption carries the title, then the placeholder. */
  method PyPictureLine(lines: seq<string>, i: nat, counts: Counts, ghost n: Numbering.State, title: string)
    returns (out: seq<Para>, next: nat, c: Counts)
    requires i < |lines|
    ensures Emit(Python, PictureLine(title), lines, i, Scan(counts, n), {}) == Step(out, next, Scan(c, n))
  {
    out := [Caption(CaptionText("图片", counts.image) + title), Placeholder(ImageKind, counts.image)];
    next, c := i + 1, Bump(counts, ImageKind);
  }

  /** The table and text branches of the Python turn, for a line without an image. */
  method PyPlainLine(lines: seq<string>, i: nat, counts: Counts, ghost n: Numbering.State)
    returns (out: seq<Para>, next: nat, c: Counts)
    requires i < |lines| && PyImageLine(lines[i]).None?
    ensures Emit(Python, PyRestClass(lines[i]), lines, i, Scan(counts, n), {}) == Step(out, next, Scan(c, n))
  {
    var line := lines[i];
    c := counts;
    ghost var st := Scan(counts, n);
    if IsPyTableStart(line) {
      assert PyRestClass(line) == TableStart;
      out, next, c := TableLine(Python, lines, i, counts, n, {});
      return;
    }
    next := i + 1;
    if PyBlank(line) {
      assert PyRestClass(line) == BlankLine;
      out := [];
    } else {
      assert PyRestClass(line) == TextLine;
      out := [Body(Numbers.FormatWithThousands(line))];
      assert Emit(Python, TextLine, lines, i, st, {}) == Step(out, next, st);
    }
  }

  /** `_parse_and_create_document_structure`. */
  method PyStructure(markdown: string) returns (doc: seq<Para>)
    ensures doc == Structure(Python, markdown, {})
  {
    var lines := Split(markdown, '\n');
    var counts := Start;
    var numbering := new Numbering.HeaderNumbering();
    doc := [];
    var i := 0;
    while i < |lines|
      invariant doc + From(Python, lines, i, Scan(counts, numbering.Value()), {}) == Structure(Python, markdown, {})
      decreases |lines| - i
    {
      ghost var before := doc;
      var out, next, c := PyLine(lines, i, counts, numbering);
      doc := doc + out;
      Assoc(before, out, From(Python, lines, next, Scan(c, numbering.Value()), {}));
      i, counts := next, c;
    }
  }

  // ---------------------------------------------------------------------------
  // Properties

  lemma IndicesOne(p: Para, kind: Kind)
    ensures Indices([p], kind) == IndexIn(p, kind)
  {
    assert [p][1..] == [];
  }

  lemma BodyHasNoIndex(s: string, kind: Kind)
    ensures Indices(BodyIfText(s), kind) == []
  {
    if !JavaBlank(s) {
      IndicesOne(Body(s), kind);
    }
  }

  lemma IndicesPair(p: Para, q: Para, kind: Kind)
    ensures Indices([p, q], kind) == IndexIn(p, kind) + IndexIn(q, kind)
  {
    assert [p, q] == [p] + [q];
    IndicesAppend([p], [q], kind);
    IndicesOne(p, kind);
    IndicesOne(q, kind);
  }

  lemma JavaChartIndices(n: nat, failing: set<nat>, legacy: bool, kind: Kind)
    ensures Indices(JavaChart(n, failing, legacy), kind) == (if kind == ChartKind then [n] else [])
  {
    var part := if n in failing then Placeholder(ChartKind, n) else ChartPart(n);
    var cap := [Caption(CaptionText("图表", n))];
    IndicesOne(part, kind);
    IndicesOne(Caption(CaptionText("图表", n)), kind);
    if legacy {
      IndicesOne(Blank, kind);
      IndicesAppend(cap, [Blank], kind);
      IndicesAppend(cap + [Blank], [part], kind);
    } else {
      assert JavaChart(n, failing, legacy) == cap + [part];
      IndicesAppend(cap, [part], kind);
    }
  }

  /** The kind of placeholder a class of line produces, if any. */
  function Makes(cls: LineClass): Option<Kind> {
    match cls
    case ChartStart => Some(ChartKind)
    case MermaidStart => Some(MermaidKind)
    case TableStart => Some(TableKind)
    case ImageLine(_, _) => Some(ImageKind)
    case PictureLine(_) => Some(ImageKind)
    case _ => None
  }

  /** What a turn must do to the numbers of one kind: use the counter for its one placeholder of that kind and advance it, or touch neither. */
  predicate NumbersNext(cls: LineClass, s: Step, c: Counts, kind: Kind) {
    if Makes(cls) == Some(kind) then
      Indices(s.out, kind) == [Counter(c, kind)] && Counter(s.scan.counts, kind) == Counter(c, kind) + 1
    else
      Indices(s.out, kind) == [] && Counter(s.scan.counts, kind) == Counter(c, kind)
  }

  lemma HeadingIndices(d: Dialect, cls: LineClass, lines: seq<string>, i: nat, st: Scan, failing: set<nat>, kind: Kind)
    requires i < |lines| && cls.HeadingLine? && cls.level >= 1
    ensures NumbersNext(cls, Emit(d, cls, lines, i, st, failing), st.counts, kind)
  {
    IndicesOne(Emit(d, cls, lines, i, st, failing).out[0], kind);
  }

  lemma ChartIndices(d: Dialect, lines: seq<string>, i: nat, st: Scan, failing: set<nat>, kind: Kind)
    requires i < |lines|
    ensures NumbersNext(ChartStart, Emit(d, ChartStart, lines, i, st, failing), st.counts, kind)
  {
    var c := st.counts;
    if d == Python {
      IndicesPair(Caption(CaptionText("图表", c.chart)), Placeholder(ChartKind, c.chart), kind);
    } else {
      JavaChartIndices(c.chart, failing, d == Legacy, kind);
    }
  }

  lemma BlockIndices(d: Dialect, cls: LineClass, lines: seq<string>, i: nat, st: Scan, failing: set<nat>, kind: Kind)
    requires i < |lines| && (cls == MermaidStart || cls == TableStart)
    ensures NumbersNext(cls, Emit(d, cls, lines, i, st, failing), st.counts, kind)
  {
    var c := st.counts;
    if cls == MermaidStart {
      IndicesOne(Placeholder(MermaidKind, c.mermaid), kind);
    } else {
      IndicesPair(Caption(CaptionText("表格", c.table)), Placeholder(TableKind, c.table), kind);
    }
  }

  lemma ImageIndices(d: Dialect, cls: LineClass, lines: seq<string>, i: nat, st: Scan, failing: set<nat>, kind: Kind)
    requires i < |lines| && cls.ImageLine?
    ensures NumbersNext(cls, Emit(d, cls, lines, i, st, failing), st.counts, kind)
  {
    var a, b := BodyIfText(cls.before), BodyIfText(cls.after);
    var ph := Placeholder(ImageKind, st.counts.image);
    BodyHasNoIndex(cls.before, kind);
    BodyHasNoIndex(cls.after, kind);
    IndicesOne(ph, kind);
    IndicesAppend(a, [ph], kind);
    IndicesAppend(a + [ph], b, kind);
  }

  lemma PictureIndices(d: Dialect, cls: LineClass, lines: seq<string>, i: nat, st: Scan, failing: set<nat>, kind: Kind)
    requires i < |lines| && cls.PictureLine?
    ensures NumbersNext(cls, Emit(d, cls, lines, i, st, failing), st.counts, kind)
  {
    var s := Emit(d, cls, lines, i, st, failing);
    IndicesPair(s.out[0], Placeholder(ImageKind, st.counts.image), kind);
  }

  lemma TextIndices(d: Dialect, cls: LineClass, lines: seq<string>, i: nat, st: Scan, failing: set<nat>, kind: Kind)
    requires i < |lines| && (cls == BlankLine || cls == TextLine)
    ensures NumbersNext(cls, Emit(d, cls, lines, i, st, failing), st.counts, kind)
  {
    if cls == TextLine {
      IndicesOne(Emit(d, cls, lines, i, st, failing).out[0], kind);
    }
  }

  /**
   * Whatever the class of the line, its turn writes exactly one placeholder of the
   * class's kind, numbered by that kind's counter, advances that counter by one, and
   * leaves the other counters and kinds alone.
   */
  lemma EmitIndices(d: Dialect, cls: LineClass, lines: seq<string>, i: nat, st: Scan, failing: set<nat>, kind: Kind)
    requires i < |lines|
    requires cls.HeadingLine? ==> cls.level >= 1
    ensures NumbersNext(cls, Emit(d, cls, lines, i, st, failing), st.counts, kind)
  {
    match cls
    case HeadingLine(_, _) => HeadingIndices(d, cls, lines, i, st, failing, kind);
    case ChartStart => ChartIndices(d, lines, i, st, failing, kind);
    case MermaidStart => BlockIndices(d, cls, lines, i, st, failing, kind);
    case TableStart => BlockIndices(d, cls, lines, i, st, failing, kind);
    case ImageLine(_, _) => ImageIndices(d, cls, lines, i, st, failing, kind);
    case PictureLine(_) => PictureIndices(d, cls, lines, i, st, failing, kind);
    case BlankLine => TextIndices(d, cls, lines, i, st, failing, kind);
    case TextLine => TextIndices(d, cls, lines, i, st, failing, kind);
  }

  lemma StepIndices(d: Dialect, lines: seq<string>, i: nat, st: Scan, failing: set<nat>, kind: Kind)
    requires i < |lines|
    ensures NumbersNext(Classify(d, lines[i]), StepAt(d, lines, i, st, failing), st.counts, kind)
  {
    EmitIndices(d, Classify(d, lines[i]), lines, i, st, failing, kind);
  }

  /** `From` unrolled once. */
  lemma FromStep(d: Dialect, lines: seq<string>, i: nat, st: Scan, failing: set<nat>)
    requires i < |lines|
    ensures var s := StepAt(d, lines, i, st, failing);
      From(d, lines, i, st, failing) == s.out + From(d, lines, s.next, s.scan, failing)
  {
  }

  /**
   * The placeholders (and chart parts) of each kind are numbered consecutively from
   * the counter the loop starts with: every block takes the next number, none is
   * skipped or repeated.
   */
  lemma {:induction false} KeysConsecutive(d: Dialect, lines: seq<string>, i: nat, st: Scan, failing: set<nat>, kind: Kind)
    ensures var ks := Indices(From(d, lines, i, st, failing), kind);
      forall k :: 0 <= k < |ks| ==> ks[k] == Counter(st.counts, kind) + k
    decreases |lines| - i
  {
    if i < |lines| {
      var s := StepAt(d, lines, i, st, failing);
      KeysConsecutive(d, lines, s.next, s.scan, failing, kind);
      StepIndices(d, lines, i, st, failing, kind);
      FromStep(d, lines, i, st, failing);
      IndicesAppend(s.out, From(d, lines, s.next, s.scan, failing), kind);
    }
  }

  /** In the whole document the k-th placeholder of a kind is number k: `${table1}`, `${table2}`, … */
  lemma StructureKeys(d: Dialect, markdown: string, failing: set<nat>, kind: Kind)
    ensures var ks := Indices(Structure(d, markdown, failing), kind);
      forall k :: 0 <= k < |ks| ==> ks[k] == k + 1
  {
    var st := Scan(Start, Numbering.Fresh);
    KeysConsecutive(d, SourceLines(d, markdown), 0, st, failing, kind);
    assert Counter(st.counts, kind) == 1;
    assert Structure(d, markdown, failing) == From(d, SourceLines(d, markdown), 0, st, failing);
  }

  /** A line yields at most one placeholder of each kind: in a line with several images only the first is numbered. */
  lemma OnePerLine(d: Dialect, lines: seq<string>, i: nat, st: Scan, failing: set<nat>, kind: Kind)
    requires i < |lines|
    ensures |Indices(StepAt(d, lines, i, st, failing).out, kind)| <= 1
  {
    StepIndices(d, lines, i, st, failing, kind);
  }

  /** One line of the older Java builder writes no image and no Mermaid placeholder. */
  lemma LegacyStepNoImages(lines: seq<string>, i: nat, st: Scan, failing: set<nat>)
    requires i < |lines|
    ensures Indices(StepAt(Legacy, lines, i, st, failing).out, ImageKind) == []
    ensures Indices(StepAt(Legacy, lines, i, st, failing).out, MermaidKind) == []
  {
    StepIndices(Legacy, lines, i, st, failing, ImageKind);
    StepIndices(Legacy, lines, i, st, failing, MermaidKind);
    var cls := Classify(Legacy, lines[i]);
    assert Makes(cls) != Some(ImageKind) && Makes(cls) != Some(MermaidKind);
  }

  /** The older Java builder writes no image and no Mermaid placeholders. */
  lemma {:induction false} LegacyNoImages(lines: seq<string>, i: nat, st: Scan, failing: set<nat>)
    ensures Indices(From(Legacy, lines, i, st, failing), ImageKind) == []
    ensures Indices(From(Legacy, lines, i, st, failing), MermaidKind) == []
    decreases |lines| - i
  {
    if i < |lines| {
      var s := StepAt(Legacy, lines, i, st, failing);
      LegacyNoImages(lines, s.next, s.scan, failing);
      FromStep(Legacy, lines, i, st, failing);
      LegacyStepNoImages(lines, i, st, failing);
      IndicesAppend(s.out, From(Legacy, lines, s.next, s.scan, failing), ImageKind);
      IndicesAppend(s.out, From(Legacy, lines, s.next, s.scan, failing), MermaidKind);
    }
  }

  /** One line of the Python builder writes no chart part and no Mermaid placeholder. */
  lemma PyStepPlaceholdersOnly(lines: seq<string>, i: nat, st: Scan)
    requires i < |lines|
    ensures forall p :: p in StepAt(Python, lines, i, st, {}).out ==> !p.ChartPart?
    ensures Indices(StepAt(Python, lines, i, st, {}).out, MermaidKind) == []
  {
    StepIndices(Python, lines, i, st, {}, MermaidKind);
    PyNoChartPart(Classify(Python, lines[i]), lines, i, st);
  }

  /** The Python builder always writes the `${chartN}` paragraph, never a chart part, and knows no Mermaid blocks. */
  lemma {:induction false} PythonPlaceholdersOnly(lines: seq<string>, i: nat, st: Scan)
    ensures forall p :: p in From(Python, lines, i, st, {}) ==> !p.ChartPart?
    ensures Indices(From(Python, lines, i, st, {}), MermaidKind) == []
    decreases |lines| - i
  {
    if i < |lines| {
      var s := StepAt(Python, lines, i, st, {});
      PythonPlaceholdersOnly(lines, s.next, s.scan);
      FromStep(Python, lines, i, st, {});
      PyStepPlaceholdersOnly(lines, i, st);
      IndicesAppend(s.out, From(Python, lines, s.next, s.scan, {}), MermaidKind);
    }
  }

  lemma PyNoChartPart(cls: LineClass, lines: seq<string>, i: nat, st: Scan)
    requires i < |lines| && (cls.HeadingLine? ==> cls.level >= 1)
    ensures forall p :: p in Emit(Python, cls, lines, i, st, {}).out ==> !p.ChartPart?
  {
  }

  /** A blank line is classified blank by every builder, so it emits nothing and changes no state. */
  lemma BlankLineSilent(d: Dialect, line: string)
    requires if d == Python then PyBlank(line) else JavaBlank(line)
    ensures Classify(d, line) == BlankLine
  {
    if d == Python {
      PyBlankIffStripEmpty(line);
      assert PyHeaderLine(line).None?;
      assert PyImageLine(line).None?;
    } else {
      JavaBlankIffTrimEmpty(line);
      NoHashNoHeading(line, true);
      assert !StartsWithBar(line) by {
        assert line == [] || line[0] != '|';
      }
    }
  }

  // ---------------------------------------------------------------------------
  // createCompleteTemplate

  /** For charts `from`..`count`: caption, the chart's paragraph, the chart part and an empty paragraph. */
  function ChartsFrom(from: nat, count: int): seq<Para>
    decreases count - from
  {
    if from > count then []
    else [Caption(CaptionText("图表", from)), Blank, ChartPart(from), Blank] + ChartsFrom(from + 1, count)
  }

  /** For tables `from`..`count`: caption, placeholder and an empty paragraph. */
  function TablesFrom(from: nat, count: int): seq<Para>
    decreases count - from
  {
    if from > count then []
    else [Caption(CaptionText("表格", from)), Placeholder(TableKind, from), Blank] + TablesFrom(from + 1, count)
  }

  /**
   * The older `createCompleteTemplate(chartCount, tableCount)`: the document head, the
   * charts, then the tables. Creating chart i throws when i is in `failing`, and the
   * exception leaves the method.
   */
  function CompleteTemplate(chartCount: int, tableCount: int, failing: set<nat>): Outcome<seq<Para>> {
    if exists i: nat :: 1 <= i <= chartCount && i in failing then Raised("IOException")
    else Ok([TitleRun, Blank] + ChartsFrom(1, chartCount) + TablesFrom(1, tableCount))
  }

  method CreateCompleteTemplate(chartCount: int, tableCount: int, failing: set<nat>) returns (r: Outcome<seq<Para>>)
    ensures r == CompleteTemplate(chartCount, tableCount, failing)
  {
    var doc := [TitleRun, Blank];
    var i: nat := 1;
    while i <= chartCount
      invariant 1 <= i && (i <= chartCount + 1 || chartCount < 1)
      invariant forall j: nat :: 1 <= j < i ==> j !in failing
      invariant doc + ChartsFrom(i, chartCount) == [TitleRun, Blank] + ChartsFrom(1, chartCount)
      decreases chartCount - i
    {
      if i in failing {
        assert 1 <= i <= chartCount && i in failing;
        return Raised("IOException");
      }
      var block := [Caption(CaptionText("图表", i)), Blank, ChartPart(i), Blank];
      Assoc(doc, block, ChartsFrom(i + 1, chartCount));
      doc := doc + block;
      i := i + 1;
    }
    assert ChartsFrom(i, chartCount) == [];
    assert doc == [TitleRun, Blank] + ChartsFrom(1, chartCount) by {
      assert doc + ChartsFrom(i, chartCount) == doc;
    }
    ghost var head := doc;
    var t: nat := 1;
    while t <= tableCount
      invariant 1 <= t
      invariant doc + TablesFrom(t, tableCount) == head + TablesFrom(1, tableCount)
      decreases tableCount - t
    {
      var block := [Caption(CaptionText("表格", t)), Placeholder(TableKind, t), Blank];
      Assoc(doc, block, TablesFrom(t + 1, tableCount));
      doc := doc + block;
      t := t + 1;
    }
    assert TablesFrom(t, tableCount) == [];
    assert doc == head + TablesFrom(1, tableCount) by {
      assert doc + TablesFrom(t, tableCount) == doc;
    }
    assert !exists j: nat :: 1 <= j <= chartCount && j in failing;
    r := Ok(doc);
  }

  /** The charts of the complete template are chart1..chartN, in order, and hold no table placeholder. */
  lemma {:induction false} ChartsNumbered(from: nat, count: int)
    ensures var ks := Indices(ChartsFrom(from, count), ChartKind);
      |ks| == (if count < from then 0 else count - from + 1) && forall k :: 0 <= k < |ks| ==> ks[k] == from + k
    ensures Indices(ChartsFrom(from, count), TableKind) == []
    decreases count - from
  {
    if from <= count {
      var block := [Caption(CaptionText("图表", from)), Blank, ChartPart(from), Blank];
      ChartsNumbered(from + 1, count);
      ChartBlockIndices(from, ChartKind);
      ChartBlockIndices(from, TableKind);
      IndicesAppend(block, ChartsFrom(from + 1, count), ChartKind);
      IndicesAppend(block, ChartsFrom(from + 1, count), TableKind);
    }
  }

  /** One chart block of the complete template holds the chart's number and nothing else. */
  lemma ChartBlockIndices(n: nat, kind: Kind)
    ensures Indices([Caption(CaptionText("图表", n)), Blank, ChartPart(n), Blank], kind) == (if kind == ChartKind then [n] else [])
  {
    var cap := Caption(CaptionText("图表", n));
    assert [cap, Blank, ChartPart(n), Blank] == [cap, Blank] + [ChartPart(n), Blank];
    IndicesPair(cap, Blank, kind);
    IndicesPair(ChartPart(n), Blank, kind);
    IndicesAppend([cap, Blank], [ChartPart(n), Blank], kind);
  }

  /** The tables of the complete template are table1..tableM, in order, and hold no chart. */
  lemma {:induction false} TablesNumbered(from: nat, count: int)
    ensures var ks := Indices(TablesFrom(from, count), TableKind);
      |ks| == (if count < from then 0 else count - from + 1) && forall k :: 0 <= k < |ks| ==> ks[k] == from + k
    ensures Indices(TablesFrom(from, count), ChartKind) == []
    decreases count - from
  {
    if from <= count {
      var block := [Caption(CaptionText("表格", from)), Placeholder(TableKind, from), Blank];
      TablesNumbered(from + 1, count);
      assert block == [Caption(CaptionText("表格", from)), Placeholder(TableKind, from)] + [Blank];
      IndicesPair(Caption(CaptionText("表格", from)), Placeholder(TableKind, from), TableKind);
      IndicesPair(Caption(CaptionText("表格", from)), Placeholder(TableKind, from), ChartKind);
      IndicesOne(Blank, TableKind);
      IndicesOne(Blank, ChartKind);
      IndicesAppend([Caption(CaptionText("表格", from)), Placeholder(TableKind, from)], [Blank], TableKind);
      IndicesAppend([Caption(CaptionText("表格", from)), Placeholder(TableKind, from)], [Blank], ChartKind);
      IndicesAppend(block, TablesFrom(from + 1, count), TableKind);
      IndicesAppend(block, TablesFrom(from + 1, count), ChartKind);
    }
  }

  /**
   * When no chart fails, the complete template holds chart1..chartN and then
   * table1..tableM: every chart part comes before every table placeholder.
   */
  lemma CompleteTemplateLayout(chartCount: nat, tableCount: nat, failing: set<nat>)
    requires forall i: nat :: 1 <= i <= chartCount ==> i !in failing
    ensures CompleteTemplate(chartCount, tableCount, failing).Ok?
    ensures var doc := CompleteTemplate(chartCount, tableCount, failing).value;
      doc == [TitleRun, Blank] + ChartsFrom(1, chartCount) + TablesFrom(1, tableCount) &&
      |Indices(doc, ChartKind)| == chartCount && |Indices(doc, TableKind)| == tableCount &&
      (forall k :: 0 <= k < chartCount ==> Indices(doc, ChartKind)[k] == k + 1) &&
      (forall k :: 0 <= k < tableCount ==> Indices(doc, TableKind)[k] == k + 1)
  {
    LayoutIndices(chartCount, tableCount);
  }

  /** The title, a blank, chart1..chartN and table1..tableM: where each kind's placeholders are, in order. */
  lemma LayoutIndices(chartCount: nat, tableCount: nat)
    ensures var doc := [TitleRun, Blank] + ChartsFrom(1, chartCount) + TablesFrom(1, tableCount);
      |Indices(doc, ChartKind)| == chartCount && |Indices(doc, TableKind)| == tableCount &&
      (forall k :: 0 <= k < chartCount ==> Indices(doc, ChartKind)[k] == k + 1) &&
      (forall k :: 0 <= k < tableCount ==> Indices(doc, TableKind)[k] == k + 1)
  {
    var head, charts, tables := [TitleRun, Blank], ChartsFrom(1, chartCount), TablesFrom(1, tableCount);
    ChartsNumbered(1, chartCount);
    TablesNumbered(1, tableCount);
    IndicesPair(TitleRun, Blank, ChartKind);
    IndicesPair(TitleRun, Blank, TableKind);
    IndicesAppend(head, charts, ChartKind);
    IndicesAppend(head, charts, TableKind);
    IndicesAppend(head + charts, tables, ChartKind);
    IndicesAppend(head + charts, tables, TableKind);
  }

  /**
   * A first heading at level 2: md2doc-core and the Python port number it "1" (the
   * number counts enclosing headings, not levels), the older builder writes the bare title.
   */
  lemma FirstHeadingText(lines: seq<string>, i: nat, failing: set<nat>)
    requires i < |lines|
    ensures Emit(Core, HeadingLine(2, "A"), lines, i, Scan(Start, Numbering.Fresh), failing).out == [HeadingPara(2, "1 A")]
    ensures Emit(Python, HeadingLine(2, "A"), lines, i, Scan(Start, Numbering.Fresh), failing).out == [HeadingPara(2, "1 A")]
    ensures Emit(Legacy, HeadingLine(2, "A"), lines, i, Scan(Start, Numbering.Fresh), failing).out == [HeadingPara(2, "A")]
  {
    var n := Numbering.Enter(Numbering.Fresh, 2);
    assert n.stack == [1];
    var parts := seq(1, k requires 0 <= k < 1 => NatToString([1][k]));
    assert parts == ["1"];
    assert Numbering.NumberText(n.stack) == "1";
    assert "1" + " " + "A" == "1 A";
  }

  /**
   * `find()` on a split line: a heading after a carriage return inside the line is
   * found by both Java builders, though the line does not start with '#'.
   */
  lemma HeadingAfterCarriageReturn()
    ensures CoreClass("x\r# B") == HeadingLine(1, "B")
    ensures LegacyClass("x\r# B") == HeadingLine(1, "B")
  {
    CarriageReturnFind();
  }

  /** The first match in "x\r# B" begins after the carriage return. */
  lemma CarriageReturnFind()
    ensures FindHeading("x\r# B", true) == Some(Heading(1, "B"))
  {
    var s := "x\r# B";
    assert s[2..] == HashRun(1) + " " + "B";
    HeadingRoundTrip(1, "B", true);
    assert HeadingMatchAt(s, 2, true);
    assert !HeadingMatchAt(s, 0, true) by { assert s[0..][0] == 'x'; }
    assert !HeadingMatchAt(s, 1, true) by { assert s[1..][0] == '\r'; }
    FindHeadingAt(s, 2, true);
  }
}
