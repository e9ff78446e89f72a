# md2doc in Dafny

md2doc turns a Markdown report into a Word document. The same pipeline exists in
three copies: the md2doc-core Java library, the older Java copy under `src/main`,
and the Python service `md2doc-service-python`. This project models the part they
share and proves properties of it:

- **Template builders** walk the Markdown line by line with one counter per kind of
  block. They write a skeleton document of numbered headings, captions, `${tableN}`,
  `${imageN}`, `${chartN}` and `${mermaidN}` placeholder paragraphs, chart parts
  titled `chartN`, and body text (`templates.dfy`, `numbering.dfy`).
- **Collectors** go over the same Markdown and bind "table1", "image1", ... in match
  order. Values go to a parameter store, charts to its separate chart map
  (`collectors.dfy`, `py_collectors.dfy`, `params.dfy`, `charts.dfy`, `titles.dfy`).
  `agreement.dfy` compares the keys the builder writes with the keys the collectors
  bind.
- **Line recognisers and the table parser** (`lines.dfy`, `table_parse.dfy`).
- **Number formatting in table cells and template text** (`numbers.dfy`).
- **The ECharts extractor** normalises lenient JavaScript-style chart options into
  JSON. It then fills a chart table from the parsed tree (`echarts_json.dfy`,
  `echarts.dfy`).
- **The Java generator**:
  - a run-level placeholder scanner: a placeholder may be split over several runs of
    a paragraph, and the scanner rewrites and deletes runs in place (`scanner.dfy`,
    `scanner_props.dfy`, `scanner_runs.dfy`);
  - the tables it builds (`tables_out.dfy`);
  - the rebinding of chart parts to chart tables by title (`rebind.dfy`).
- **The Python generator's** paragraph-level replacement and chart tables
  (`py_generator.dfy`).
- **The conversion driver** ties these together and manages the temporary template
  file (`conversion.dfy`).
- **The image rules of `ImageDownloader`**: how a source is classified, which file
  names are accepted, and how a picture is scaled (`images.dfy`).

The code is imperative where the source is. The scanner, the builders' line loops,
the collectors' match loops, the table parsers, the chart-table filling and
`HeaderNumbering` are methods, classes and loops. Each one is proved to compute a
recursive specification function, and the properties are lemmas about those
functions. Regular expressions become the deterministic scans they perform. The
comment above each scan explains why the pattern cannot match in another way.

Heading numbers follow the code. `enterLevel(L)` zeroes the deeper counters,
increments counter L, and cuts the number stack to at most L - 1 entries before
pushing. So re-entering a shallower level continues its count rather than
restarting at 1. Every level is printed as the dotted stack ("1.2.3"), not in a
per-level style.

## Model

| member | source | states |
|---|---|---|
| `Text.RegexSpaceIsTrimmedAndPySpace` | md2doc-core/src/main/java/cn/daydayup/dev/md2doc/core/parse/MarkdownTableParser.java:25-28 | every character of Java's regex `\s` is also removed by Java's `trim()` and is a Python space, so a line the separator pattern accepts after trimming has no blank ends |
| `Text.Strip` | md2doc-core/src/main/java/cn/daydayup/dev/md2doc/core/parse/MarkdownTableParser.java:25 | `trim()`/`strip()` remove exactly the leading and trailing runs of the dialect's blank class: the result is the slice after the leading run, empty exactly when every character is blank, and otherwise starts and ends with a non-blank |
| `Text.StripIdempotent` | md2doc-service-python/src/md2doc_mcp/parser/table_parser.py:30 | stripping twice strips nothing more |
| `Text.StripUnpadded` | md2doc-service-python/src/md2doc_mcp/parser/markdown_parser.py:56 | a text that starts and ends with a character outside the class is left as it is |
| `Text.JavaBlankIffTrimEmpty` | md2doc-core/src/main/java/cn/daydayup/dev/md2doc/core/util/ImageDownloader.java:50 | `s.trim().isEmpty()` holds exactly when every character is at or below U+0020 |
| `Text.PyBlankIffStripEmpty` | md2doc-service-python/src/md2doc_mcp/core/converter.py:253 | `not s.strip()` holds exactly when every character is a Python space |
| `Text.IndexOf` | md2doc-core/src/main/java/cn/daydayup/dev/md2doc/core/generate/PoiWordGenerator.java:104 | `indexOf(c, from)` gives the first position at or after `from` holding `c` with no earlier one, or -1 |
| `Text.IndexOfFinds` | md2doc-core/src/main/java/cn/daydayup/dev/md2doc/core/generate/PoiWordGenerator.java:74 | the first `c` at or after `from` is what `indexOf` finds |
| `Text.IndexOfMisses` | md2doc-core/src/main/java/cn/daydayup/dev/md2doc/core/generate/PoiWordGenerator.java:104 | `indexOf` gives -1 when no `c` lies at or after `from` |
| `Text.Split` | md2doc-service-python/src/md2doc_mcp/parser/markdown_parser.py:122 | Python `split('\n')`: one more piece than separators, none containing the separator |
| `Text.JoinSplit` | md2doc-service-python/src/md2doc_mcp/parser/markdown_parser.py:122 | splitting on a character and joining with it gives back the text |
| `Text.SplitJoin` | md2doc-service-python/src/md2doc_mcp/parser/markdown_parser.py:122 | joining separator-free pieces and splitting again gives back the pieces |
| `Text.JavaSplit` | md2doc-core/src/main/java/cn/daydayup/dev/md2doc/core/template/DynamicWordDocumentCreator.java:257 | Java `split("\n")` with limit 0: the whole text when the separator is absent, otherwise the pieces with trailing empty ones removed |
| `Text.JavaSplitIsSplitPrefix` | md2doc-core/src/main/java/cn/daydayup/dev/md2doc/core/template/DynamicWordDocumentCreator.java:257 | Java's split is a prefix of Python's split, differing only by trailing empty pieces |
| `Text.NatToString` | md2doc-core/src/main/java/cn/daydayup/dev/md2doc/core/MarkdownToWordConverter.java:115 | decimal text of a counter: non-empty, no leading zero except for 0 |
| `Text.NatToStringDigits` | md2doc-core/src/main/java/cn/daydayup/dev/md2doc/core/MarkdownToWordConverter.java:115 | every character of a counter's decimal text is a digit |
| `Text.ParseNatToString` | md2doc-core/src/main/java/cn/daydayup/dev/md2doc/core/MarkdownToWordConverter.java:115 | printing a counter and reading its digits back gives the counter |
| `Text.NatToStringInjective` | md2doc-core/src/main/java/cn/daydayup/dev/md2doc/core/MarkdownToWordConverter.java:144 | different counters print differently, so the numbered keys of one pass never collide |
| `Text.ReplaceAllAbsent` | md2doc-core/src/main/java/cn/daydayup/dev/md2doc/core/MarkdownToWordConverter.java:67 | `replace` leaves text without the pattern unchanged |
| `Charts.ChartColumn.constructor` | md2doc-core/src/main/java/cn/daydayup/dev/md2doc/core/model/ChartColumn.java:22-24 | a new column has the given title (or none) and no items |
| `Charts.ChartColumn.SetTitle` | md2doc-core/src/main/java/cn/daydayup/dev/md2doc/core/model/ChartColumn.java:26-29 | only the title changes, the items stay, and the column itself is returned |
| `Charts.ChartColumn.Size` | md2doc-core/src/main/java/cn/daydayup/dev/md2doc/core/model/ChartColumn.java:31-33 | the number of items appended so far |
| `Charts.ChartColumn.AddAllData` | md2doc-core/src/main/java/cn/daydayup/dev/md2doc/core/model/ChartColumn.java:35-42 | the items become the old items followed by the new ones, in order; the title stays |
| `Charts.ChartColumn.ToArray` | md2doc-core/src/main/java/cn/daydayup/dev/md2doc/core/model/ChartColumn.java:49-51 | a fresh array holding the items in insertion order |
| `Charts.ColumnValues` | md2doc-core/src/main/java/cn/daydayup/dev/md2doc/core/model/ChartTable.java:23 | the y-axis map viewed as values: same names, each column's title and items |
| `Charts.ColumnValuesUpdate` | md2doc-core/src/main/java/cn/daydayup/dev/md2doc/core/model/ChartTable.java:34-38 | putting a column under a name changes the value view under that name only |
| `Charts.ChartTable.constructor` | md2doc-core/src/main/java/cn/daydayup/dev/md2doc/core/model/ChartTable.java:21-27 | a new table has the title, an empty x axis titled "x轴" and no y axes |
| `Charts.ChartTable.SetTitle` | md2doc-core/src/main/java/cn/daydayup/dev/md2doc/core/model/ChartTable.java:29-32 | only the title changes and the same table is returned |
| `Charts.ChartTable.NewYAxis` | md2doc-core/src/main/java/cn/daydayup/dev/md2doc/core/model/ChartTable.java:34-38 | a fresh empty column replaces any column of that name; Java leaves its title null, Python titles it; other columns are untouched and the name order records first insertion |
| `Charts.ChartTable.GetYAxis` | md2doc-core/src/main/java/cn/daydayup/dev/md2doc/core/model/ChartTable.java:40-42 | the column of that name, or none |
| `Charts.FillColumn` | md2doc-service-python/src/md2doc_mcp/models/chart_column.py:43-65 | appending items to a new column and reading them back gives those items in order and their count |
| `Charts.ArrayIsCopy` | md2doc-service-python/src/md2doc_mcp/models/chart_column.py:71-80 | writing into the array `to_array` returned leaves the column unchanged |
| `Params.Stringify` | md2doc-core/src/main/java/cn/daydayup/dev/md2doc/core/model/WordParam.java:22-24 | `String.valueOf` / `str` of a string is the string, of a missing value "null" (Java) or "None" (Python) |
| `Params.TextParam` | md2doc-core/src/main/java/cn/daydayup/dev/md2doc/core/model/WordParam.java:22-24 | a text value holding the printed argument |
| `Params.TableParam` | md2doc-core/src/main/java/cn/daydayup/dev/md2doc/core/model/WordParam.java:72-74 | a table value holding the rows unchanged |
| `Params.ImagePlaceholder` | md2doc-core/src/main/java/cn/daydayup/dev/md2doc/core/model/WordParam.java:66-69 | the text "[图片加载失败: source]" followed by the reason line |
| `Params.ImageFromSource` | md2doc-core/src/main/java/cn/daydayup/dev/md2doc/core/model/WordParam.java:45-101 | a decoded image becomes a picture scaled by the adaptive size; a failed load or an exception becomes the placeholder naming the source and the reason; it never raises |
| `Params.ImageParam` | md2doc-core/src/main/java/cn/daydayup/dev/md2doc/core/model/WordParam.java:45-57 | `WordParam.image(String)`: a blank source becomes the placeholder "图片加载失败" without loading; any other is trimmed, classified by `downloadOrReadImage` (md2doc-core/src/main/java/cn/daydayup/dev/md2doc/core/util/ImageDownloader.java:49-63) and what loading it gives is turned into a picture or placeholder |
| `Params.BlankSourceGivesPlaceholder` | md2doc-core/src/main/java/cn/daydayup/dev/md2doc/core/util/ImageDownloader.java:50-53 | a blank source yields the placeholder, and the same value whatever the loader would have done: it never reaches the loader |
| `Params.WordParams.constructor` | src/main/java/cn/daydayup/dev/md2doc/model/WordParams.java:44-46 | both the value map and the chart map start empty |
| `Params.WordParams.SetParam` | src/main/java/cn/daydayup/dev/md2doc/model/WordParams.java:18-20 | binds the key, replacing an earlier value; the chart map is unchanged |
| `Params.WordParams.SetText` | src/main/java/cn/daydayup/dev/md2doc/model/WordParams.java:22-24 | binds the key to the printed value; the chart map is unchanged |
| `Params.WordParams.SetChart` | src/main/java/cn/daydayup/dev/md2doc/model/WordParams.java:26-28 | binds a chart table; the values are unchanged |
| `Params.WordParams.AddChart` | src/main/java/cn/daydayup/dev/md2doc/model/WordParams.java:30-34 | registers and returns a fresh table titled with the key, with an empty x axis titled "x轴" |
| `Params.WordParams.GetParam` | src/main/java/cn/daydayup/dev/md2doc/model/WordParams.java:36-38 | the bound value, or none for an unbound key |
| `Params.WordParams.GetChart` | src/main/java/cn/daydayup/dev/md2doc/model/WordParams.java:40-42 | the registered table, or none |
| `Params.SeparateMaps` | md2doc-service-python/src/md2doc_mcp/models/word_params.py:42-107 | values and charts live in separate maps: the last `set_param` for a key wins and a chart key is not a value key |
| `Lines.IndentedTableRow` | md2doc-service-python/src/md2doc_mcp/parser/markdown_parser.py:166-175 | a row indented by a space starts a table for the Python line test (which strips first) but not for the Java builders' raw `startsWith("\|")` |
| `Lines.Hashes` | md2doc-core/src/main/java/cn/daydayup/dev/md2doc/core/MarkdownToWordConverter.java:43 | the run of leading '#': all of them are '#' and the next character is not |
| `Lines.UpToLineEnd` | md2doc-core/src/main/java/cn/daydayup/dev/md2doc/core/MarkdownToWordConverter.java:43 | what `.*` takes: the longest prefix free of the dialect's line terminators |
| `Lines.HeadingAt` | md2doc-core/src/main/java/cn/daydayup/dev/md2doc/core/MarkdownToWordConverter.java:43 | `^(#{1,6})\s+(.*)$` at a line start: a match has level 1 to 6 equal to the full '#' run, a title free of line terminators and not starting with a space; more than six '#' or none is no heading |
| `Lines.HashRun` | md2doc-service-python/src/md2doc_mcp/parser/markdown_parser.py:20 | `level` copies of '#' |
| `Lines.HeadingRoundTrip` | md2doc-service-python/src/md2doc_mcp/parser/markdown_parser.py:20 | a heading written as '#'×level, a space and a title (no line break, no leading space) reads back as exactly that level and title, in both dialects |
| `Lines.UpToLineEndWhole` | md2doc-service-python/src/md2doc_mcp/parser/markdown_parser.py:20 | `.*` takes a text without line ends whole |
| `Lines.NotHeadings` | src/main/java/cn/daydayup/dev/md2doc/MarkdownToWordConverter.java:34 | seven '#', or '#' glued to its text, is not a heading |
| `Lines.PyHeaderLine` | md2doc-service-python/src/md2doc_mcp/parser/markdown_parser.py:125-139 | `is_header_line`: a level from 1 to 6 and a stripped title |
| `Lines.UpToLineEndBefore` | src/main/java/cn/daydayup/dev/md2doc/MarkdownToWordConverter.java:34 | `.*` stops at the line terminator that follows a title free of terminators |
| `Lines.HeadingBeforeLineEnd` | md2doc-service-python/src/md2doc_mcp/parser/markdown_parser.py:20 | a heading line followed by a line end and more text still matches as that level and title, in both dialects |
| `Lines.HeadingSpan` | src/main/java/cn/daydayup/dev/md2doc/MarkdownToWordConverter.java:34 | a heading match consumes at least one character and no more than the text |
| `Lines.NextHeading` | src/main/java/cn/daydayup/dev/md2doc/MarkdownToWordConverter.java:128-132 | `find()` over the whole text with `^` in multi-line mode: the first position at or after the start where `^` holds (text start or after a line end) and a heading begins; it is the text's end exactly when the pattern matches nowhere, and no earlier position matches |
| `Lines.NextHeadingIs` | src/main/java/cn/daydayup/dev/md2doc/MarkdownToWordConverter.java:130 | any matching position with no match before it is the one the search returns |
| `Lines.FindHeading` | md2doc-core/src/main/java/cn/daydayup/dev/md2doc/core/template/DynamicWordDocumentCreator.java:270-273 | `find()` on a text: when the pattern matches at the start that match is the one found, and a found heading has a level from 1 to 6 |
| `Lines.FindHeadingNone` | md2doc-core/src/main/java/cn/daydayup/dev/md2doc/core/template/DynamicWordDocumentCreator.java:270-271 | `find()` fails exactly when the multi-line pattern matches at no position of the text |
| `Lines.FindHeadingAt` | md2doc-core/src/main/java/cn/daydayup/dev/md2doc/core/template/DynamicWordDocumentCreator.java:270-273 | the earliest position where the pattern matches, possibly just after a line end inside the text, gives the heading `find()` returns |
| `Lines.NoHashNoHeading` | md2doc-core/src/main/java/cn/daydayup/dev/md2doc/core/template/DynamicWordDocumentCreator.java:270-271 | a text with no '#' has no heading match anywhere |
| `Lines.StrippedCons` | md2doc-service-python/src/md2doc_mcp/parser/markdown_parser.py:54-57 | prepending a stripped heading of level 1 to 6 keeps the whole list so |
| `Lines.PyHeadingsFrom` | md2doc-service-python/src/md2doc_mcp/parser/markdown_parser.py:53-57 | `findall` from a position: every listed heading has a level from 1 to 6 and a stripped title, and the list is empty exactly when the search finds no match |
| `Lines.PyHeadings` | md2doc-service-python/src/md2doc_mcp/parser/markdown_parser.py:42-59 | `extract_headers` over the whole text (matches may run across line ends): each heading has a level from 1 to 6 and a stripped title |
| `Lines.NoHeadings` | md2doc-service-python/src/md2doc_mcp/parser/markdown_parser.py:42-59 | there are no headings exactly when the multi-line pattern matches at no position of the text |
| `Lines.PyFirstHeader` | md2doc-service-python/src/md2doc_mcp/parser/markdown_parser.py:98-110 | `extract_first_header`: None exactly when the pattern matches nowhere in the text, otherwise the first listed heading's title |
| `Lines.PyFirstHeaderAt` | md2doc-service-python/src/md2doc_mcp/parser/markdown_parser.py:98-110 | the first header is the stripped title of the earliest match in the text |
| `Lines.JavaFirstHeading` | src/main/java/cn/daydayup/dev/md2doc/MarkdownToWordConverter.java:128-136 | the first `find()` of the multi-line heading pattern over the whole text: none exactly when the pattern matches nowhere |
| `Lines.JavaFirstHeadingAt` | src/main/java/cn/daydayup/dev/md2doc/MarkdownToWordConverter.java:130-132 | `find()` gives the title of the earliest match in the text |
| `Lines.JavaImageAt` | md2doc-core/src/main/java/cn/daydayup/dev/md2doc/core/MarkdownToWordConverter.java:45 | `!\[([^\]]*)\]\(([^)]+)\)` at a position: it starts with '!', spans at least five characters, the alt text holds no ']', and the URL is non-empty and holds no ')' |
| `Lines.PyImageAt` | md2doc-service-python/src/md2doc_mcp/parser/markdown_parser.py:36-39 | the Python image pattern with its optional quoted title at a position: it starts with '!', spans at least five characters and has a non-empty URL |
| `Lines.FindImage` | md2doc-core/src/main/java/cn/daydayup/dev/md2doc/core/MarkdownToWordConverter.java:138-141 | `find()` / `search()`: the leftmost match at or after the start, and no position before it matches |
| `Lines.MatchesCons` | md2doc-core/src/main/java/cn/daydayup/dev/md2doc/core/MarkdownToWordConverter.java:141 | a match placed before later ordered matches keeps the list ordered |
| `Lines.Images` | md2doc-core/src/main/java/cn/daydayup/dev/md2doc/core/MarkdownToWordConverter.java:138-153 | the `while (matcher.find())` / `findall` matches: in order, non-overlapping, each at least five characters long, all inside the text |
| `Lines.ImagesHead` | md2doc-core/src/main/java/cn/daydayup/dev/md2doc/core/MarkdownToWordConverter.java:141 | there is a first match exactly when `find` succeeds, and it is the one `find` returns |
| `Lines.NoBangNoImage` | md2doc-service-python/src/md2doc_mcp/parser/markdown_parser.py:178-196 | text without '!' has no images |
| `Lines.PyImageLine` | md2doc-service-python/src/md2doc_mcp/parser/markdown_parser.py:199-214 | `is_image_line` reports an image exactly when the stripped line contains a match |
| `Lines.PyExtractImages` | md2doc-service-python/src/md2doc_mcp/parser/markdown_parser.py:178-196 | `extract_images`: one triple per match, and an absent title group gives an empty title |
| `Lines.CatImage` | md2doc-service-python/src/md2doc_mcp/parser/markdown_parser.py:36-39 | "![cat](u)" is one match, from 0 to 9, alt "cat", URL "u", no title |
| `Lines.TitleFallback` | md2doc-service-python/src/md2doc_mcp/parser/markdown_parser.py:193 | for a line that is one untitled image, `is_image_line` falls back to the alt text as title while `extract_images` gives "" |
| `Lines.TitleFallbackDiffers` | md2doc-service-python/src/md2doc_mcp/parser/markdown_parser.py:212 | "![cat](u)" is titled "cat" by `is_image_line` and "" by `extract_images` |
| `Images.Classify` | md2doc-core/src/main/java/cn/daydayup/dev/md2doc/core/util/ImageDownloader.java:49-62 | a null or blank source is rejected before any I/O; otherwise the trimmed, non-empty source is downloaded when it starts with "http://" or "https://" and read from disk otherwise |
| `Images.ClassifyTrims` | md2doc-core/src/main/java/cn/daydayup/dev/md2doc/core/util/ImageDownloader.java:55-61 | a source that is not blank is classified with no surrounding blanks left |
| `Images.IsAccessible` | md2doc-core/src/main/java/cn/daydayup/dev/md2doc/core/util/ImageDownloader.java:198-207 | false for a null or blank source, otherwise the probe's answer |
| `Images.LowerAscii` | md2doc-core/src/main/java/cn/daydayup/dev/md2doc/core/util/ImageDownloader.java:139 | lower-casing as `toLowerCase()` does under a locale such as ROOT or English: the length is kept, each ASCII capital becomes its small letter and every other character stays |
| `Images.IsSupportedFormat` | md2doc-core/src/main/java/cn/daydayup/dev/md2doc/core/util/ImageDownloader.java:139-146 | the loop over the six formats accepts exactly the names whose ASCII-lower-cased form ends in "." and a supported format |
| `Images.UpperCaseExtensionAccepted` | md2doc-core/src/main/java/cn/daydayup/dev/md2doc/core/util/ImageDownloader.java:139 | "PHOTO.JPG" passes the format check |
| `Images.AdaptiveSize` | md2doc-core/src/main/java/cn/daydayup/dev/md2doc/core/util/ImageDownloader.java:175-190 | a picture at most 600 pixels wide keeps its size; a wider one becomes 600 wide, with its height the largest value not above height×600/width |
| `Images.Int32` | md2doc-core/src/main/java/cn/daydayup/dev/md2doc/core/model/WordParam.java:99-100 | a value in the 32-bit range, and the value itself when it already fits |
| `Images.PixelToEmuExact` | md2doc-core/src/main/java/cn/daydayup/dev/md2doc/core/model/WordParam.java:99-100 | `pixelToEMU` is exactly pixels × 9525 up to 225457 pixels |
| `Images.PixelToEmuOverflows` | md2doc-core/src/main/java/cn/daydayup/dev/md2doc/core/model/WordParam.java:100 | a picture 225458 pixels tall gets a negative height |
| `Numbers.DigitRun` | md2doc-core/src/main/java/cn/daydayup/dev/md2doc/core/generate/PoiWordGenerator.java:296 | the `\d+` part of a match: the leading digits, up to the first non-digit |
| `Numbers.MatchLen` | md2doc-core/src/main/java/cn/daydayup/dev/md2doc/core/generate/PoiWordGenerator.java:296 | a match starting at a digit is non-empty and inside the text |
| `Numbers.MatchIsLongest` | md2doc-core/src/main/java/cn/daydayup/dev/md2doc/core/generate/PoiWordGenerator.java:296 | `\d+(\.\d+)?` takes a whole numeral and no longer prefix is one, so the greedy match is the longest |
| `Numbers.TokensWellFormed` | md2doc-core/src/main/java/cn/daydayup/dev/md2doc/core/generate/PoiWordGenerator.java:296-308 | every replaced piece matches the number pattern in full and no digit is left outside a match |
| `Numbers.TokensCover` | md2doc-core/src/main/java/cn/daydayup/dev/md2doc/core/generate/PoiWordGenerator.java:302-310 | the matches and the text between them, put back together, give the whole text |
| `Numbers.RenderIdentity` | md2doc-core/src/main/java/cn/daydayup/dev/md2doc/core/generate/PoiWordGenerator.java:306-310 | replacing every match by itself rebuilds the text |
| `Numbers.SkipLiterals` | md2doc-core/src/main/java/cn/daydayup/dev/md2doc/core/generate/PoiWordGenerator.java:309 | characters before the first digit are copied unchanged |
| `Numbers.NoDigitsUnchanged` | md2doc-core/src/main/java/cn/daydayup/dev/md2doc/core/generate/PoiWordGenerator.java:309 | a text without digits comes back unchanged whatever the replacement |
| `Numbers.ReplaceFront` | md2doc-core/src/main/java/cn/daydayup/dev/md2doc/core/generate/PoiWordGenerator.java:302-306 | a match at the front is replaced and the rest is processed after it |
| `Numbers.NextDigit` | md2doc-core/src/main/java/cn/daydayup/dev/md2doc/core/generate/PoiWordGenerator.java:302 | `find()` moves to the first digit at or after the position, skipping only non-digits |
| `Numbers.FormatTableNumber` | md2doc-core/src/main/java/cn/daydayup/dev/md2doc/core/generate/PoiWordGenerator.java:289-312 | `formatTableNumber`: `null` stays `null`; otherwise every match replaced by the formatter's text and everything between copied, equal to the token rewriting `Render(Tokens(text), df)` |
| `Numbers.NextMatch` | md2doc-core/src/main/java/cn/daydayup/dev/md2doc/core/generate/PoiWordGenerator.java:302-307 | one round of the matcher loop: the gap before the match, the replacement, and the rewritten rest |
| `Numbers.FormatIdentity` | md2doc-core/src/main/java/cn/daydayup/dev/md2doc/core/generate/PoiWordGenerator.java:289-312 | with the identity as formatter `formatTableNumber` returns its text |
| `Numbers.Pad3` | md2doc-service-python/src/md2doc_mcp/core/template_creator.py:36 | a group after a comma is exactly three digits |
| `Numbers.Group` | md2doc-service-python/src/md2doc_mcp/core/template_creator.py:36 | `format(n, ',')` is never empty |
| `Numbers.GroupChars` | md2doc-service-python/src/md2doc_mcp/core/template_creator.py:36 | a grouped number holds only digits and commas |
| `Numbers.GroupRoundTrip` | md2doc-service-python/src/md2doc_mcp/core/template_creator.py:36 | removing the commas of `format(n, ',')` and reading the digits gives n back |
| `Numbers.ParseNatAppend` | md2doc-service-python/src/md2doc_mcp/core/template_creator.py:36 | digits written after other digits shift the value by a power of ten |
| `Numbers.FormatWithThousands` | md2doc-service-python/src/md2doc_mcp/core/template_creator.py:18-44 | `format_number_with_thousands_separator`: a text without digits is returned unchanged |
| `Numbers.PyGroupInteger` | md2doc-service-python/src/md2doc_mcp/core/template_creator.py:39-40 | an integer match is grouped and loses its leading zeros through `int` |
| `Numbers.PyGroupDecimal` | md2doc-service-python/src/md2doc_mcp/core/template_creator.py:33-37 | a decimal match has its integer part grouped and its decimal part kept exactly as written |
| `Numbers.GroupExamples` | md2doc-service-python/src/md2doc_mcp/core/template_creator.py:21 | 1000 becomes "1,000" and 1234567 becomes "1,234,567", as the doc comment says |
| `Numbers.ThousandsExample` | md2doc-service-python/src/md2doc_mcp/core/template_creator.py:18-44 | the text "1000" becomes "1,000" |
| `Numbers.RoundTenths` | md2doc-core/src/main/java/cn/daydayup/dev/md2doc/core/generate/PoiWordGenerator.java:300 | the tenths value after half-even rounding lies between ip×10 and ip×10+10 |
| `Numbers.OneDecimalSplit` | md2doc-core/src/main/java/cn/daydayup/dev/md2doc/core/generate/PoiWordGenerator.java:300-305 | a match with a fraction is formatted from its integer digits and its fraction digits |
| `Numbers.OneDecimalInteger` | md2doc-core/src/main/java/cn/daydayup/dev/md2doc/core/generate/PoiWordGenerator.java:300-305 | an integer is printed grouped, followed by ".0" |
| `Numbers.OneDecimalRoundsUp` | md2doc-core/src/main/java/cn/daydayup/dev/md2doc/core/generate/PoiWordGenerator.java:284 | 1000.56 is printed "1,000.6", the doc comment's first example |
| `Numbers.OneDecimalRoundsUpAgain` | md2doc-core/src/main/java/cn/daydayup/dev/md2doc/core/generate/PoiWordGenerator.java:284 | 1234.789 is printed "1,234.8", the doc comment's second example |
| `Numbers.WholeMatch` | md2doc-core/src/main/java/cn/daydayup/dev/md2doc/core/generate/PoiWordGenerator.java:302-310 | a text that is one match in full is replaced as a whole |
| `Numbers.TableCellExample` | md2doc-core/src/main/java/cn/daydayup/dev/md2doc/core/generate/PoiWordGenerator.java:209 | a table cell "1000.56" is written as "1,000.6" |
| `Numbering.ResetFrom` | md2doc-core/src/main/java/cn/daydayup/dev/md2doc/core/template/DynamicWordDocumentCreator.java:37-39 | the reset loop sets every level from i to 6 to 0 and leaves the other levels alone |
| `Numbering.Enter` | md2doc-core/src/main/java/cn/daydayup/dev/md2doc/core/template/DynamicWordDocumentCreator.java:35-49 | `enterLevel`: deeper levels up to 6 restart at 0, this level's counter goes up by one, other counters stay, and the stack is cut to at most level-1 entries and then gets the new count pushed |
| `Numbering.TopLevelCounts` | md2doc-service-python/src/md2doc_mcp/core/template_creator.py:54-70 | the level-1 counter is never reset: it equals the number of level-1 headings entered so far |
| `Numbering.SkippedLevelExample` | md2doc-core/src/main/java/cn/daydayup/dev/md2doc/core/template/DynamicWordDocumentCreator.java:45-48 | a level-3 heading right after a level-1 heading is numbered "1.1", by its enclosing headings and not its level |
| `Numbering.HeaderNumbering.constructor` | md2doc-core/src/main/java/cn/daydayup/dev/md2doc/core/template/DynamicWordDocumentCreator.java:31-33 | a new numbering has no counters and an empty stack |
| `Numbering.HeaderNumbering.EnterLevel` | md2doc-core/src/main/java/cn/daydayup/dev/md2doc/core/template/DynamicWordDocumentCreator.java:35-49 | the loop-based `enterLevel` leaves exactly the state `Enter` describes |
| `Numbering.HeaderNumbering.ResetDeeper` | md2doc-core/src/main/java/cn/daydayup/dev/md2doc/core/template/DynamicWordDocumentCreator.java:37-39 | the reset loop sets the counters of the deeper levels up to 6 to 0, as `ResetFrom` does, and leaves the stack alone |
| `Numbering.HeaderNumbering.CutStack` | md2doc-core/src/main/java/cn/daydayup/dev/md2doc/core/template/DynamicWordDocumentCreator.java:45-47 | the pop loop keeps the first min(size, level - 1) entries of the stack and leaves the counters alone |
| `Numbering.HeaderNumbering.GetNumber` | md2doc-core/src/main/java/cn/daydayup/dev/md2doc/core/template/DynamicWordDocumentCreator.java:52-58 | the StringBuilder loop returns the stack entries joined with "." |
| `Numbers.MatchIsNumeral` | md2doc-core/src/main/java/cn/daydayup/dev/md2doc/core/generate/PoiWordGenerator.java:296 | what the matcher takes from a digit is a numeral of the form `\d+(\.\d+)?` |
| `Numbers.MatchIsMaximal` | md2doc-core/src/main/java/cn/daydayup/dev/md2doc/core/generate/PoiWordGenerator.java:296 | no longer prefix of the text is such a numeral |
| `Numbers.WholeTenths` | md2doc-core/src/main/java/cn/daydayup/dev/md2doc/core/generate/PoiWordGenerator.java:300 | an integer n is n tenths ×10 and prints as n grouped followed by ".0" |
| `TableParse.Unbar` | md2doc-core/src/main/java/cn/daydayup/dev/md2doc/core/parse/MarkdownTableParser.java:31-36 | removing one leading and one trailing '\|' never lengthens the line |
| `TableParse.Pieces` | md2doc-core/src/main/java/cn/daydayup/dev/md2doc/core/parse/MarkdownTableParser.java:38 | no piece of the '\|' split holds a '\|' |
| `TableParse.TrimAll` | md2doc-core/src/main/java/cn/daydayup/dev/md2doc/core/parse/MarkdownTableParser.java:40-42 | one trimmed cell per piece |
| `TableParse.RowOf` | md2doc-core/src/main/java/cn/daydayup/dev/md2doc/core/parse/MarkdownTableParser.java:24-46 | a line gives at most one row |
| `TableParse.FlattenMember` | md2doc-core/src/main/java/cn/daydayup/dev/md2doc/core/parse/MarkdownTableParser.java:24-46 | every row of the table comes from one of its lines |
| `TableParse.FlattenAtMostOne` | md2doc-core/src/main/java/cn/daydayup/dev/md2doc/core/parse/MarkdownTableParser.java:24-46 | lines that give at most one row each give no more rows than lines |
| `TableParse.ParseTable` | md2doc-core/src/main/java/cn/daydayup/dev/md2doc/core/parse/MarkdownTableParser.java:20-49 | `parseTable` / `parse_table`: the rows of the lines of the table text, in order |
| `TableParse.RowsSnoc` | md2doc-core/src/main/java/cn/daydayup/dev/md2doc/core/parse/MarkdownTableParser.java:44-46 | a line's row is appended after the rows of the lines before it |
| `TableParse.ParseLines` | md2doc-service-python/src/md2doc_mcp/parser/table_parser.py:28-49 | the loop over the lines builds exactly the rows of those lines |
| `TableParse.ParseRow` | md2doc-service-python/src/md2doc_mcp/parser/table_parser.py:30-49 | one line trimmed, skipped when a separator, unbarred, split and trimmed cell by cell, and dropped when it is a single empty cell |
| `TableParse.TrimCells` | md2doc-service-python/src/md2doc_mcp/parser/table_parser.py:43-45 | the loop over the cells trims each one |
| `TableParse.TrimKeepsOut` | md2doc-core/src/main/java/cn/daydayup/dev/md2doc/core/parse/MarkdownTableParser.java:41 | trimming never introduces a character |
| `TableParse.LineCellsHaveNoBar` | md2doc-core/src/main/java/cn/daydayup/dev/md2doc/core/parse/MarkdownTableParser.java:38-42 | no cell of a line's row holds a '\|' |
| `TableParse.NoCellHoldsBar` | md2doc-service-python/src/md2doc_mcp/parser/table_parser.py:17-52 | no cell of any parsed row holds a '\|' |
| `TableParse.AtMostOneRowPerLine` | md2doc-service-python/src/md2doc_mcp/parser/table_parser.py:17-52 | a table has no more rows than lines |
| `TableParse.RowsAppend` | md2doc-service-python/src/md2doc_mcp/parser/table_parser.py:28-49 | rows keep the order of their lines |
| `TableParse.SeparatorSkipped` | md2doc-core/src/main/java/cn/daydayup/dev/md2doc/core/parse/MarkdownTableParser.java:27-29 | a separator line (pattern and a '-') gives no row |
| `TableParse.RowsNonEmpty` | md2doc-service-python/src/md2doc_mcp/parser/table_parser.py:47-49 | every row produced is non-empty and not a single empty cell |
| `TableParse.TrailingEmptyCellLine` | md2doc-core/src/main/java/cn/daydayup/dev/md2doc/core/parse/MarkdownTableParser.java:31-36 | "\| a \|\|" is no separator and loses one bar on each side |
| `TableParse.TrailingEmptyPieces` | md2doc-core/src/main/java/cn/daydayup/dev/md2doc/core/parse/MarkdownTableParser.java:38 | Java's split of " a \|" drops the trailing empty piece that Python's keeps |
| `TableParse.JavaDropsTrailingEmptyCell` | md2doc-core/src/main/java/cn/daydayup/dev/md2doc/core/parse/MarkdownTableParser.java:38 | Java parses "\| a \|\|" as the row ["a"] |
| `TableParse.PyKeepsTrailingEmptyCell` | md2doc-service-python/src/md2doc_mcp/parser/table_parser.py:43 | Python parses "\| a \|\|" as the row ["a", ""] |
| `TableParse.LoneBarDropped` | md2doc-core/src/main/java/cn/daydayup/dev/md2doc/core/parse/MarkdownTableParser.java:44 | a lone "\|" gives no row |
| `Tables.CreateTable` | md2doc-core/src/main/java/cn/daydayup/dev/md2doc/core/generate/PoiWordGenerator.java:157-221 | `createTable` on a freshly inserted table: no data leaves only the existing first row; otherwise one row per data row, each as wide as its data (row 0 at least the existing width), item j of row i written as that dialect's cell (number formatting in md2doc-core, header shading and bold, alignment) and any extra cells blank |
| `Tables.PyTableRows` | md2doc-service-python/src/md2doc_mcp/core/word_generator.py:124-233 | `_replace_with_table`: one row per data row and one centred cell per item, text unchanged, header row shaded, grid as wide as the first row |
| `Tables.PyTable` | md2doc-service-python/src/md2doc_mcp/core/word_generator.py:168-233 | one row of cells per data row |
| `Tables.ChartGrid` | md2doc-service-python/src/md2doc_mcp/core/word_generator.py:354-371 | a chart's grid has one header row plus one row per category |
| `Tables.ChartRows` | md2doc-service-python/src/md2doc_mcp/core/word_generator.py:354-371 | header "类别" followed by the series names in insertion order, then per category the category and each series' value at that position printed by `str`, or "" past its end |
| `Rebind.Chart.constructor` | md2doc-core/src/main/java/cn/daydayup/dev/md2doc/core/generate/PoiWordGenerator.java:236-242 | a chart holds its title and its series |
| `Rebind.Chart.BarTitle` | md2doc-core/src/main/java/cn/daydayup/dev/md2doc/core/generate/PoiWordGenerator.java:236-242 | `getBarTitle`: the title text, or null when the chart has no title |
| `Rebind.AllRebound` | md2doc-core/src/main/java/cn/daydayup/dev/md2doc/core/generate/PoiWordGenerator.java:253-271 | every series rebound in order, none added or removed |
| `Rebind.ReplaceCharts` | md2doc-core/src/main/java/cn/daydayup/dev/md2doc/core/generate/PoiWordGenerator.java:247-272 | `replaceCharts`: the chart's title becomes the table's title and every series is rebound to the column of its name |
| `Rebind.ReplaceChart` | src/main/java/cn/daydayup/dev/md2doc/generate/PoiWordGenerator.java:199-210 | `replaceChart`: a chart whose title names a chart table is rebound to it; a chart without a title or with an unknown title is left unchanged |
| `Rebind.ReboundIdempotent` | md2doc-core/src/main/java/cn/daydayup/dev/md2doc/core/generate/PoiWordGenerator.java:264-266 | when every column is titled with its own name (as Python's `new_y_axis` leaves it) rebinding twice is rebinding once |
| `Rebind.UntitledColumnDropsName` | md2doc-core/src/main/java/cn/daydayup/dev/md2doc/core/generate/PoiWordGenerator.java:264-266 | a Java column left untitled by `newYAxis` strips the series' name, so the series is not found again |
| `Scanner.Remove` | md2doc-core/src/main/java/cn/daydayup/dev/md2doc/core/generate/PoiWordGenerator.java:98 | `removeRun(index)` drops exactly that run and keeps the others in order |
| `Scanner.Close` | md2doc-core/src/main/java/cn/daydayup/dev/md2doc/core/generate/PoiWordGenerator.java:113-150 | closing a placeholder writes its value into the anchor run and leaves the scanner with nothing open, an empty prefix and an empty key, its invariant kept |
| `Scanner.AtStart` | md2doc-core/src/main/java/cn/daydayup/dev/md2doc/core/generate/PoiWordGenerator.java:95-150 | the `Start` case keeps the scanner invariant whenever it does not throw |
| `Scanner.AtDollar` | md2doc-core/src/main/java/cn/daydayup/dev/md2doc/core/generate/PoiWordGenerator.java:82-94 | the `$` case keeps the scanner invariant |
| `Scanner.Step` | md2doc-core/src/main/java/cn/daydayup/dev/md2doc/core/generate/PoiWordGenerator.java:65-152 | one iteration of the loop over the runs keeps the invariant, or throws |
| `Scanner.StepDecreases` | md2doc-core/src/main/java/cn/daydayup/dev/md2doc/core/generate/PoiWordGenerator.java:65-152 | every iteration leaves fewer runs and characters to scan, so the loop that re-visits runs (`index--`) still ends |
| `Scanner.Advance` | md2doc-core/src/main/java/cn/daydayup/dev/md2doc/core/generate/PoiWordGenerator.java:65-152 | one step does not change where the loop ends, and leaves less to scan |
| `Scanner.Paragraph.constructor` | md2doc-core/src/main/java/cn/daydayup/dev/md2doc/core/generate/PoiWordGenerator.java:57 | a paragraph holds its runs and no inserted tables |
| `Scanner.Paragraph.WriteValue` | md2doc-core/src/main/java/cn/daydayup/dev/md2doc/core/generate/PoiWordGenerator.java:114-138 | an unknown key is written back as `${key}` after the prefix, a text value follows the prefix, a picture is attached after the prefix, a table keeps the prefix and is inserted after the paragraph |
| `Scanner.Paragraph.CloseAt` | md2doc-core/src/main/java/cn/daydayup/dev/md2doc/core/generate/PoiWordGenerator.java:139-150 | after the value is written, the text after `}` stays in the current run to be scanned again, or the run is removed when nothing follows and it is not the anchor |
| `Scanner.Paragraph.InStart` | md2doc-core/src/main/java/cn/daydayup/dev/md2doc/core/generate/PoiWordGenerator.java:95-112 | the `Start` block behaves as `AtStart`, and fails exactly when `key.append` would get a start past the end of the text |
| `Scanner.Paragraph.InDollar` | md2doc-core/src/main/java/cn/daydayup/dev/md2doc/core/generate/PoiWordGenerator.java:82-94 | the `$` block behaves as `AtDollar`: a '{' opens a placeholder, anything else abandons it, and at the end of a run the decision waits |
| `Scanner.Paragraph.Turn` | md2doc-core/src/main/java/cn/daydayup/dev/md2doc/core/generate/PoiWordGenerator.java:65-150 | one pass of the run loop is one `Step` of the scan: it throws exactly when the step fails, and otherwise leaves the runs, tables and loop variables of the state the step gives |
| `Scanner.Paragraph.ReplacePlaceholders` | md2doc-core/src/main/java/cn/daydayup/dev/md2doc/core/generate/PoiWordGenerator.java:54-154 | `replaceParagraph` for one paragraph: it throws exactly when `Scan` does, and otherwise leaves the runs and tables `Scan` computes |
| `ScannerProps.NoDollarNoChange` | md2doc-core/src/main/java/cn/daydayup/dev/md2doc/core/generate/PoiWordGenerator.java:74-77 | a paragraph without '$' is left exactly as it was and gets no table |
| `ScannerProps.Opens` | md2doc-core/src/main/java/cn/daydayup/dev/md2doc/core/generate/PoiWordGenerator.java:74-94 | a run "p${…" opens a placeholder in one iteration, with the prefix gathered |
| `ScannerProps.OpensAndCloses` | md2doc-core/src/main/java/cn/daydayup/dev/md2doc/core/generate/PoiWordGenerator.java:74-113 | a run "p${k}q" is read up to its '}' in one iteration |
| `ScannerProps.WholePlaceholder` | md2doc-core/src/main/java/cn/daydayup/dev/md2doc/core/generate/PoiWordGenerator.java:113-138 | for a run "p${k}": an unbound key is written back unchanged, a text value follows the prefix, a picture is attached and a table is inserted, in every copy |
| `ScannerProps.TailOverwritesValue` | md2doc-core/src/main/java/cn/daydayup/dev/md2doc/core/generate/PoiWordGenerator.java:142-144 | text after the placeholder in the same run overwrites the replacement: "p${k}q" becomes "q" in both copies |
| `ScannerProps.TailKeepsValueRepaired` | md2doc-core/src/main/java/cn/daydayup/dev/md2doc/core/generate/PoiWordGenerator.java:119-122 | the repaired scanner keeps "p" + value and moves "q" into a run of its own |
| `ScannerProps.SplitPlaceholder` | md2doc-core/src/main/java/cn/daydayup/dev/md2doc/core/generate/PoiWordGenerator.java:95-150 | "p${" \| "k" \| "}q": the value follows the prefix in the first run, the key run is removed and the last run keeps what follows '}' |
| `ScannerProps.UnclosedDropsFollowingRun` | md2doc-core/src/main/java/cn/daydayup/dev/md2doc/core/generate/PoiWordGenerator.java:105-111 | after a run "p${", any number of later runs that each hold text and no '}' are all read into the key and removed: only the opening run is left, no table is inserted and the placeholder is still open when the loop ends |
| `ScannerProps.OpenSwallowsRest` | md2doc-core/src/main/java/cn/daydayup/dev/md2doc/core/generate/PoiWordGenerator.java:105-111 | while a placeholder is open and no later run holds '}', the whole rest of the loop removes every later run and appends its text to the key, keeping the runs up to the current one and inserting no table |
| `ScannerProps.LoneDollarHidesRestOfRun` | md2doc-core/src/main/java/cn/daydayup/dev/md2doc/core/generate/PoiWordGenerator.java:87-92 | only the first '$' of a run is looked at, so a placeholder after a lone '$' in the same run is not replaced |
| `ScannerProps.StaleOffsetDropsClosingRun` | md2doc-core/src/main/java/cn/daydayup/dev/md2doc/core/generate/PoiWordGenerator.java:105-111 | "a${ke" \| "y}b" keeps offset 3 into the second run, which is then taken as exhausted and removed, leaving "a${ke" unreplaced |
| `ScannerProps.StaleSecondRun` | md2doc-core/src/main/java/cn/daydayup/dev/md2doc/core/generate/PoiWordGenerator.java:105-111 | the second turn of that scan: the stale offset equals the length of "y}b", so the run is removed and the scan ends |
| `ScannerProps.ExhaustedRunRemoved` | md2doc-core/src/main/java/cn/daydayup/dev/md2doc/core/generate/PoiWordGenerator.java:96-102 | an open placeholder whose offset reaches the end of a later run removes that run |
| `ScannerProps.PastEndThrows` | md2doc-core/src/main/java/cn/daydayup/dev/md2doc/core/generate/PoiWordGenerator.java:104-106 | an offset past the end of the next run makes `key.append` throw |
| `ScannerProps.StaleOffsetThrows` | md2doc-core/src/main/java/cn/daydayup/dev/md2doc/core/generate/PoiWordGenerator.java:105-111 | "x${ab" \| "}" makes the loop throw, so no document is produced |
| `ScannerProps.ResetOffsetJoinsKey` | md2doc-core/src/main/java/cn/daydayup/dev/md2doc/core/generate/PoiWordGenerator.java:105-111 | the repaired scanner replaces "a${ke" \| "y}b" as `${key}` |
| `ScannerProps.ResetOffsetCloses` | md2doc-core/src/main/java/cn/daydayup/dev/md2doc/core/generate/PoiWordGenerator.java:105-111 | the repaired scanner replaces "x${ab" \| "}" as `${ab}` |
| `ScannerProps.SplitKeyRepaired` | md2doc-core/src/main/java/cn/daydayup/dev/md2doc/core/generate/PoiWordGenerator.java:105-113 | in the repaired scanner a key split anywhere over two runs is read whole and the text after '}' stays |
| `ScannerProps.StepKeepsCount` | src/main/java/cn/daydayup/dev/md2doc/generate/PoiWordGenerator.java:60-145 | one iteration never adds a run, except where the repaired scanner splits the anchor |
| `ScannerProps.ScanKeepsCount` | src/main/java/cn/daydayup/dev/md2doc/generate/PoiWordGenerator.java:49-149 | the current and older scanners never add a run: runs are only rewritten or removed |
| `ScannerProps.ScanWithoutDollar` | md2doc-core/src/main/java/cn/daydayup/dev/md2doc/core/generate/PoiWordGenerator.java:74-81 | with no placeholder open and no '$' in the remaining runs, the scan completes and changes no run and adds no table |
| `ScannerProps.StartCloses` | md2doc-core/src/main/java/cn/daydayup/dev/md2doc/core/generate/PoiWordGenerator.java:95-113 | an open placeholder whose run holds '}' at or after the offset is closed there |
| `ScannerProps.SplitKeyOpens` | md2doc-core/src/main/java/cn/daydayup/dev/md2doc/core/generate/PoiWordGenerator.java:105-111 | "p${k1" opens the placeholder and keeps k1; the offset stays where the key started, and only the repaired scanner resets it |
| `ScannerProps.SplitKeyCloses` | md2doc-core/src/main/java/cn/daydayup/dev/md2doc/core/generate/PoiWordGenerator.java:113-138 | in the repaired scanner the '}' of "k2}q" closes the key k1 + k2: the value follows p in the first run and q stays in the second |
| `ScannerProps.SplitGathersKey` | md2doc-core/src/main/java/cn/daydayup/dev/md2doc/core/generate/PoiWordGenerator.java:96-102 | of "p${" \| "k" \| "}q" the key run is read into the key and removed |
| `ScannerRuns.BlankAppend` | md2doc-core/src/main/java/cn/daydayup/dev/md2doc/core/generate/PoiWordGenerator.java:68-71 | the runs without text of two run lists joined are those of each |
| `ScannerRuns.BlankAround` | md2doc-core/src/main/java/cn/daydayup/dev/md2doc/core/generate/PoiWordGenerator.java:68-71 | the runs without text of a list are those before a position, at it and after it |
| `ScannerRuns.BlankUpdate` | md2doc-core/src/main/java/cn/daydayup/dev/md2doc/core/generate/PoiWordGenerator.java:117-145 | rewriting a run that has text keeps every run without text |
| `ScannerRuns.BlankRemove` | md2doc-core/src/main/java/cn/daydayup/dev/md2doc/core/generate/PoiWordGenerator.java:97-100 | removing a run that has text keeps exactly the runs without text |
| `ScannerRuns.BlankInsert` | md2doc-core/src/main/java/cn/daydayup/dev/md2doc/core/generate/PoiWordGenerator.java:142-144 | inserting a run keeps every run without text |
| `ScannerRuns.CloseKeepsBlank` | md2doc-core/src/main/java/cn/daydayup/dev/md2doc/core/generate/PoiWordGenerator.java:113-149 | closing a placeholder rewrites only the anchor and the current run, both holding text, so every run without text stays |
| `ScannerRuns.TailKeepsBlank` | md2doc-core/src/main/java/cn/daydayup/dev/md2doc/core/generate/PoiWordGenerator.java:141-144 | writing back or splitting off the tail after `}` keeps every run without text |
| `ScannerRuns.TailWrittenKeepsBlank` | md2doc-core/src/main/java/cn/daydayup/dev/md2doc/core/generate/PoiWordGenerator.java:142-143 | writing the tail into the current run, even when it is the rewritten anchor, keeps every run without text |
| `ScannerRuns.AtStartKeepsBlank` | md2doc-core/src/main/java/cn/daydayup/dev/md2doc/core/generate/PoiWordGenerator.java:95-111 | the `Start` case removes only the current run, which holds text, and keeps the anchor's text |
| `ScannerRuns.AtDollarKeepsBlank` | md2doc-core/src/main/java/cn/daydayup/dev/md2doc/core/generate/PoiWordGenerator.java:82-94 | the `$` case keeps every run without text and the anchor's text |
| `ScannerRuns.StepKeepsBlank` | md2doc-core/src/main/java/cn/daydayup/dev/md2doc/core/generate/PoiWordGenerator.java:65-71 | one iteration keeps every run without text, and an open placeholder's anchor keeps its text |
| `ScannerRuns.ScanKeepsBlank` | md2doc-core/src/main/java/cn/daydayup/dev/md2doc/core/generate/PoiWordGenerator.java:68-71 | over the whole loop, a run whose text is null or empty is never changed or removed: all such runs are among those the scan leaves |
| `ScannerRuns.ParagraphKeepsBlank` | md2doc-core/src/main/java/cn/daydayup/dev/md2doc/core/generate/PoiWordGenerator.java:56-71 | for a whole paragraph, every run without text survives the scanner |
| `ScannerRuns.CloseSettles` | md2doc-core/src/main/java/cn/daydayup/dev/md2doc/core/generate/PoiWordGenerator.java:113-149 | closing a placeholder leaves the runs before the anchor alone and keeps the anchor run |
| `ScannerRuns.AtStartSettles` | md2doc-core/src/main/java/cn/daydayup/dev/md2doc/core/generate/PoiWordGenerator.java:95-111 | the `Start` case removes only runs after the anchor |
| `ScannerRuns.AtDollarSettles` | md2doc-core/src/main/java/cn/daydayup/dev/md2doc/core/generate/PoiWordGenerator.java:82-94 | the `$` case leaves the runs before the anchor alone |
| `ScannerRuns.StepSettles` | md2doc-core/src/main/java/cn/daydayup/dev/md2doc/core/generate/PoiWordGenerator.java:65-149 | one iteration leaves the scanned runs alone and never drops the current run or an open placeholder's anchor |
| `ScannerRuns.ScanSettles` | md2doc-core/src/main/java/cn/daydayup/dev/md2doc/core/generate/PoiWordGenerator.java:65-149 | over the whole loop, the runs before the current run (before the anchor while a placeholder is open) come out unchanged, and the paragraph keeps at least that many runs plus the current run or anchor |
| `ScannerRuns.ScanKeepsAnchor` | md2doc-core/src/main/java/cn/daydayup/dev/md2doc/core/generate/PoiWordGenerator.java:97-100 | the anchor run is never deleted: once a placeholder is open, the paragraph the scan leaves still has a run at the anchor's index and the runs before it unchanged |
| `Templates.Bump` | md2doc-core/src/main/java/cn/daydayup/dev/md2doc/core/template/DynamicWordDocumentCreator.java:332 | advancing one kind's counter by one leaves the other counters alone |
| `Templates.FenceEnd` | md2doc-core/src/main/java/cn/daydayup/dev/md2doc/core/template/DynamicWordDocumentCreator.java:306-308 | the first line at or after i that closes a fence, with no closing line before it, or the end of the lines |
| `Templates.TableEnd` | md2doc-core/src/main/java/cn/daydayup/dev/md2doc/core/template/DynamicWordDocumentCreator.java:361-364 | the first line at or after i that does not continue a table, every line before it continuing, or the end of the lines |
| `Templates.SkipToFence` | md2doc-core/src/main/java/cn/daydayup/dev/md2doc/core/template/DynamicWordDocumentCreator.java:306-308 | the `while (… !lines[i].trim().equals("```"))` loop stops at `FenceEnd` |
| `Templates.SkipTable` | md2doc-core/src/main/java/cn/daydayup/dev/md2doc/core/template/DynamicWordDocumentCreator.java:359-364 | the table-collecting loop stops at `TableEnd` |
| `Templates.CoreClass` | md2doc-core/src/main/java/cn/daydayup/dev/md2doc/core/template/DynamicWordDocumentCreator.java:266-430 | md2doc-core tests a line as heading (the first `find()` of the multi-line pattern in the line, which may begin after a line end inside it), chart fence, Mermaid fence, table, then blank, image or text, and never as a titled picture |
| `Templates.LegacyClass` | src/main/java/cn/daydayup/dev/md2doc/template/DynamicWordDocumentCreator.java:200-310 | the older builder knows only headings (found by `find()` in the line as in md2doc-core), chart fences, tables, blank lines and text |
| `Templates.PyClass` | md2doc-service-python/src/md2doc_mcp/core/template_creator.py:230-357 | the Python builder knows no Mermaid fence and no inline image split |
| `Templates.Emit` | md2doc-core/src/main/java/cn/daydayup/dev/md2doc/core/template/DynamicWordDocumentCreator.java:266-430 | every turn of the loop resumes at a later line, so the loop ends |
| `Templates.Skeleton` | md2doc-core/src/main/java/cn/daydayup/dev/md2doc/core/template/DynamicWordDocumentCreator.java:68-100 | the template starts with the "${title}" paragraph and an empty paragraph, then the structure of the Markdown |
| `Templates.NumberHeading` | md2doc-core/src/main/java/cn/daydayup/dev/md2doc/core/template/DynamicWordDocumentCreator.java:271-300 | a heading enters its level in the numbering and is written as the number, a space and the title |
| `Templates.CoreLine` | md2doc-core/src/main/java/cn/daydayup/dev/md2doc/core/template/DynamicWordDocumentCreator.java:266-430 | one turn of the md2doc-core loop, with the `find()` heading test and the numbering updated in place, writes and resumes as `StepAt` says |
| `Templates.CoreBlockLine` | md2doc-core/src/main/java/cn/daydayup/dev/md2doc/core/template/DynamicWordDocumentCreator.java:302-386 | the fence and table branches of the md2doc-core turn write and resume as `StepAt` says |
| `Templates.ChartLine` | md2doc-core/src/main/java/cn/daydayup/dev/md2doc/core/template/DynamicWordDocumentCreator.java:302-334 | a chart block: skip to the closing fence, write the caption "图表 n：" and the chart part (the placeholder when creating the chart throws), and advance the chart counter |
| `Templates.MermaidLine` | md2doc-core/src/main/java/cn/daydayup/dev/md2doc/core/template/DynamicWordDocumentCreator.java:337-354 | a Mermaid block: skip to the closing fence and write `${mermaidN}` |
| `Templates.TableLine` | md2doc-core/src/main/java/cn/daydayup/dev/md2doc/core/template/DynamicWordDocumentCreator.java:357-384 | a table: skip its lines, write the caption "表格 n：" and `${tableN}`, and resume at the first line after the table |
| `Templates.CoreTextLine` | md2doc-core/src/main/java/cn/daydayup/dev/md2doc/core/template/DynamicWordDocumentCreator.java:387-428 | a blank line writes nothing; a line with an image becomes the text before it, `${imageN}` and the text after it; other text becomes one paragraph |
| `Templates.SplitAtImage` | md2doc-core/src/main/java/cn/daydayup/dev/md2doc/core/template/DynamicWordDocumentCreator.java:390-420 | the paragraphs of an image line: the non-blank text before, the placeholder, the non-blank text after |
| `Templates.CoreStructure` | md2doc-core/src/main/java/cn/daydayup/dev/md2doc/core/template/DynamicWordDocumentCreator.java:251-431 | md2doc-core `parseAndCreateDocumentStructure` writes exactly `Structure(Core, markdown)`, headings found by `find()` on each split line |
| `Templates.LegacyLine` | src/main/java/cn/daydayup/dev/md2doc/template/DynamicWordDocumentCreator.java:200-310 | one turn of the older Java loop, with the `find()` heading test, writes and resumes as `StepAt` says |
| `Templates.PlainLine` | src/main/java/cn/daydayup/dev/md2doc/template/DynamicWordDocumentCreator.java:298-305 | a line that opens no block: nothing when blank, otherwise one body paragraph |
| `Templates.LegacyStructure` | src/main/java/cn/daydayup/dev/md2doc/template/DynamicWordDocumentCreator.java:188-311 | the older `parseAndCreateDocumentStructure` writes exactly `Structure(Legacy, markdown)`, headings found by `find()` on each split line |
| `Templates.PyLine` | md2doc-service-python/src/md2doc_mcp/core/template_creator.py:230-357 | one turn of the Python loop, with the numbering updated in place, writes and resumes as `StepAt` says |
| `Templates.PyBlockLine` | md2doc-service-python/src/md2doc_mcp/core/template_creator.py:258-287 | the chart fence branch of the Python turn |
| `Templates.PyRestClass` | md2doc-service-python/src/md2doc_mcp/core/template_creator.py:289-357 | after headings and charts a Python line is a titled picture, a table, blank or text |
| `Templates.PyRestLine` | md2doc-service-python/src/md2doc_mcp/core/template_creator.py:289-357 | the image, table and text branches of the Python turn |
| `Templates.PyPictureLine` | md2doc-service-python/src/md2doc_mcp/core/template_creator.py:289-313 | an image line writes the caption "图片 n：" with its title, then `${imageN}` |
| `Templates.PyPlainLine` | md2doc-service-python/src/md2doc_mcp/core/template_creator.py:315-357 | a table block, or a non-blank line with its numbers grouped by thousands |
| `Templates.PyStructure` | md2doc-service-python/src/md2doc_mcp/core/template_creator.py:214-358 | `_parse_and_create_document_structure` writes exactly `Structure(Python, markdown)` |
| `Templates.JavaChartIndices` | md2doc-core/src/main/java/cn/daydayup/dev/md2doc/core/template/DynamicWordDocumentCreator.java:312-332 | one Java chart block carries the chart's number and no other placeholder |
| `Templates.EmitIndices` | md2doc-core/src/main/java/cn/daydayup/dev/md2doc/core/template/DynamicWordDocumentCreator.java:266-430 | whatever the line's class, its turn writes at most one placeholder of each kind, numbered by that kind's counter, and advances only that counter |
| `Templates.KeysConsecutive` | md2doc-core/src/main/java/cn/daydayup/dev/md2doc/core/template/DynamicWordDocumentCreator.java:332-412 | the placeholders of each kind are numbered consecutively from the starting counter: none skipped or repeated |
| `Templates.StructureKeys` | md2doc-service-python/src/md2doc_mcp/core/template_creator.py:283-340 | in the whole document the k-th placeholder of a kind is number k: `${table1}`, `${table2}`, … |
| `Templates.OnePerLine` | md2doc-core/src/main/java/cn/daydayup/dev/md2doc/core/template/DynamicWordDocumentCreator.java:389-412 | a line yields at most one placeholder of each kind, so in a line with several images only the first is numbered |
| `Templates.LegacyNoImages` | src/main/java/cn/daydayup/dev/md2doc/template/DynamicWordDocumentCreator.java:200-310 | the older builder writes no image and no Mermaid placeholders |
| `Templates.PythonPlaceholdersOnly` | md2doc-service-python/src/md2doc_mcp/core/template_creator.py:283 | the Python builder writes the `${chartN}` paragraph, never a chart part, and no Mermaid placeholder |
| `Templates.BlankLineSilent` | md2doc-core/src/main/java/cn/daydayup/dev/md2doc/core/template/DynamicWordDocumentCreator.java:387 | a blank line is classified blank by every builder |
| `Templates.CreateCompleteTemplate` | src/main/java/cn/daydayup/dev/md2doc/template/DynamicWordDocumentCreator.java:31-84 | `createCompleteTemplate(chartCount, tableCount)`: the document head, the charts, then the tables; an exception creating chart i leaves the method |
| `Templates.ChartsNumbered` | src/main/java/cn/daydayup/dev/md2doc/template/DynamicWordDocumentCreator.java:46-58 | the charts of the complete template are chart1..chartN in order, with no table placeholder |
| `Templates.TablesNumbered` | src/main/java/cn/daydayup/dev/md2doc/template/DynamicWordDocumentCreator.java:61-73 | the tables of the complete template are table1..tableM in order, with no chart |
| `Templates.CompleteTemplateLayout` | src/main/java/cn/daydayup/dev/md2doc/template/DynamicWordDocumentCreator.java:31-84 | when no chart fails the complete template is the head, chart1..chartN, then table1..tableM |
| `Templates.LayoutIndices` | src/main/java/cn/daydayup/dev/md2doc/template/DynamicWordDocumentCreator.java:31-84 | the head followed by chart1..chartN and table1..tableM holds N chart and M table placeholders, numbered 1, 2, … in document order |
| `Templates.FirstHeadingText` | md2doc-core/src/main/java/cn/daydayup/dev/md2doc/core/template/DynamicWordDocumentCreator.java:271-300 | a first heading at level 2 is numbered "1" by md2doc-core and Python and written bare by the older builder |
| `Templates.CoreTextClass` | md2doc-core/src/main/java/cn/daydayup/dev/md2doc/core/template/DynamicWordDocumentCreator.java:387-420 | a md2doc-core line that opens no block is blank, text, or a line with an image |
| `Templates.Classify` | md2doc-core/src/main/java/cn/daydayup/dev/md2doc/core/template/DynamicWordDocumentCreator.java:266-387 | the class of a line under each of the three builders (the Java ones find a heading anywhere `^` holds in the line, Python only at the start of the stripped line); a heading has level at least 1 |
| `Templates.HeadingAfterCarriageReturn` | md2doc-core/src/main/java/cn/daydayup/dev/md2doc/core/template/DynamicWordDocumentCreator.java:270-273 | "x\r# B" is a level-1 heading titled "B" for both Java builders, since `^` holds after the carriage return |
| `Templates.CarriageReturnFind` | src/main/java/cn/daydayup/dev/md2doc/template/DynamicWordDocumentCreator.java:204-207 | `find()` on "x\r# B" returns the heading that starts after the carriage return |
| `Templates.StepAt` | md2doc-core/src/main/java/cn/daydayup/dev/md2doc/core/template/DynamicWordDocumentCreator.java:266-430 | one turn of the loop on line i resumes at a later line |
| `Templates.StepIndices` | md2doc-core/src/main/java/cn/daydayup/dev/md2doc/core/template/DynamicWordDocumentCreator.java:266-430 | one turn writes the placeholders its line's class calls for, numbered by the counters it started with, and advances exactly those counters |
| `Templates.PyNoChartPart` | md2doc-service-python/src/md2doc_mcp/core/template_creator.py:258-287 | no turn of the Python loop writes a chart part |
| `EChartsJson.KeyAt` | md2doc-core/src/main/java/cn/daydayup/dev/md2doc/core/template/EChartsToWordConverter.java:114 | a found key match is '{' or ',', spaces, an identifier of `[a-zA-Z_$][a-zA-Z0-9_$]*`, spaces and ':' at the start of the text |
| `EChartsJson.KeyMatchAt` | md2doc-core/src/main/java/cn/daydayup/dev/md2doc/core/template/EChartsToWordConverter.java:114 | the greedy runs of spaces, identifier characters and spaces, ended by ':', form a key match |
| `EChartsJson.KeyQuoted` | md2doc-service-python/src/md2doc_mcp/core/echarts_converter.py:111 | a key after '{' or ',' becomes `"key":`; md2doc-core keeps the spaces after the opener, Python drops them, and the rest of the text is rewritten on |
| `EChartsJson.NoKeyWithoutOpener` | md2doc-core/src/main/java/cn/daydayup/dev/md2doc/core/template/EChartsToWordConverter.java:114 | a text with no '{' and no ',' is left unchanged by the key pass |
| `EChartsJson.QuoteKeysKeepsContent` | md2doc-core/src/main/java/cn/daydayup/dev/md2doc/core/template/EChartsToWordConverter.java:114 | the key pass adds or removes only spaces and double quotes: the rest of the text is unchanged, in order |
| `EChartsJson.DoubleQuotes` | md2doc-core/src/main/java/cn/daydayup/dev/md2doc/core/template/EChartsToWordConverter.java:117 | every single quote becomes a double quote and every other character is kept in place |
| `EChartsJson.TrailingCommaAt` | md2doc-core/src/main/java/cn/daydayup/dev/md2doc/core/template/EChartsToWordConverter.java:120 | a found trailing comma is ',', spaces only, then '}' or ']' |
| `EChartsJson.TrailingCommaDropped` | md2doc-service-python/src/md2doc_mcp/core/echarts_converter.py:117 | a comma followed by spaces and a closing bracket is replaced by the bracket alone |
| `EChartsJson.DropCommasKeepsContent` | md2doc-core/src/main/java/cn/daydayup/dev/md2doc/core/template/EChartsToWordConverter.java:120 | the comma pass removes only commas and spaces: the rest of the text is unchanged, in order |
| `EChartsJson.DropKeepsOut` | md2doc-core/src/main/java/cn/daydayup/dev/md2doc/core/template/EChartsToWordConverter.java:120 | the comma pass adds no character that its input did not hold |
| `EChartsJson.NoSingleQuote` | md2doc-core/src/main/java/cn/daydayup/dev/md2doc/core/template/EChartsToWordConverter.java:109-123 | the normalised configuration holds no single quote, in both languages |
| `ECharts.Lookup` | md2doc-core/src/main/java/cn/daydayup/dev/md2doc/core/template/EChartsToWordConverter.java:38 | a field is found exactly when the object has a field of that name, and the value found is one of its fields |
| `ECharts.Path` | md2doc-core/src/main/java/cn/daydayup/dev/md2doc/core/template/EChartsToWordConverter.java:38 | `path(name)` finds a value only in an object, and there it is the field's value; anywhere else it is missing |
| `ECharts.AsTextOr` | md2doc-core/src/main/java/cn/daydayup/dev/md2doc/core/template/EChartsToWordConverter.java:38 | `asText(default)` gives the default for a missing or null node and the string of a text node |
| `ECharts.Elements` | md2doc-core/src/main/java/cn/daydayup/dev/md2doc/core/template/EChartsToWordConverter.java:53 | iterating a node yields an array's items, and nothing for a missing node or a scalar |
| `ECharts.JavaFirst` | md2doc-core/src/main/java/cn/daydayup/dev/md2doc/core/template/EChartsToWordConverter.java:44-47 | taking the first of several axes fails exactly for an empty array; a non-empty array gives its first item, any other node itself |
| `ECharts.JavaNumber` | md2doc-core/src/main/java/cn/daydayup/dev/md2doc/core/template/EChartsToWordConverter.java:70-74 | a numeric datum keeps its value, any other datum becomes 0 |
| `ECharts.JavaNumbers` | md2doc-core/src/main/java/cn/daydayup/dev/md2doc/core/template/EChartsToWordConverter.java:68-75 | the series values, one per datum, in order |
| `ECharts.Texts` | md2doc-core/src/main/java/cn/daydayup/dev/md2doc/core/template/EChartsToWordConverter.java:52-55 | the x-axis labels, one per datum, in order |
| `ECharts.Retitled` | md2doc-core/src/main/java/cn/daydayup/dev/md2doc/core/template/EChartsToWordConverter.java:81-94 | retitling keeps the chart's title, x axis, series names and every column but the chosen first one, whose title becomes the y-axis name when there is one |
| `ECharts.DefaultChart` | md2doc-core/src/main/java/cn/daydayup/dev/md2doc/core/template/EChartsToWordConverter.java:95-99 | the fallback chart is titled "默认图表标题", has labels 数据1..数据3 and one series "默认系列" with 10, 20, 30 |
| `ECharts.JavaSerie` | md2doc-core/src/main/java/cn/daydayup/dev/md2doc/core/template/EChartsToWordConverter.java:63-77 | a series becomes a column exactly when its data is an array; it is named by its "name" or "数据系列" and holds its numbers |
| `ECharts.JavaDraft` | md2doc-core/src/main/java/cn/daydayup/dev/md2doc/core/template/EChartsToWordConverter.java:30-94 | extraction throws exactly when an axis is an empty array; otherwise the title is title.text or "默认标题" and the columns are those of the array series |
| `ECharts.JavaYTitle` | md2doc-core/src/main/java/cn/daydayup/dev/md2doc/core/template/EChartsToWordConverter.java:87-93 | a y-axis title is used only when it is not empty |
| `ECharts.PyStrs` | md2doc-service-python/src/md2doc_mcp/core/echarts_converter.py:53 | the x-axis labels, one per datum, in order |
| `ECharts.PyIterate` | md2doc-service-python/src/md2doc_mcp/core/echarts_converter.py:58 | iterating raises exactly for null, a boolean or a number; an array yields its items and a string its characters |
| `ECharts.PyGet` | md2doc-service-python/src/md2doc_mcp/core/echarts_converter.py:40 | `.get(name, default)` raises exactly when the value is not a dict, and otherwise gives the field or the default |
| `ECharts.PyFirst` | md2doc-service-python/src/md2doc_mcp/core/echarts_converter.py:47-48 | `[0]` raises exactly for an empty list and is not applied to anything but a list |
| `ECharts.ExpIndex` | md2doc-service-python/src/md2doc_mcp/core/echarts_converter.py:70 | the position of the first 'e' or 'E' of a numeric string, or its end |
| `ECharts.PyNumber` | md2doc-service-python/src/md2doc_mcp/core/echarts_converter.py:65-74 | a number keeps its value, a string that `float` accepts becomes that float, and null, a list or a dict becomes 0 |
| `ECharts.PyNumbers` | md2doc-service-python/src/md2doc_mcp/core/echarts_converter.py:64-74 | the series values, one per datum, in order |
| `ECharts.PySerie` | md2doc-service-python/src/md2doc_mcp/core/echarts_converter.py:58-76 | a series that is not a dict raises; the other outcomes are stated by `ECharts.PySerieOutcome` |
| `ECharts.PySerieOutcome` | md2doc-service-python/src/md2doc_mcp/core/echarts_converter.py:58-76 | one series node: falsy `data` gives no series; iterable data under a list or dict name raises TypeError at `new_y_axis`; any series produced has a hashable name and is named by its text |
| `ECharts.ListNameRaises` | md2doc-service-python/src/md2doc_mcp/models/chart_table.py:49 | `{"series": [{"name": [1], "data": [1]}]}`: md2doc-core names the column by the list's text "", while Python raises TypeError and the whole extraction raises |
| `ECharts.PyDraft` | md2doc-service-python/src/md2doc_mcp/core/echarts_converter.py:37-88 | a configuration that is not a JSON object raises |
| `ECharts.PyDraftFrom` | md2doc-service-python/src/md2doc_mcp/core/echarts_converter.py:40-88 | an extracted chart keeps the title it was given |
| `ECharts.PyWithYTitle` | md2doc-service-python/src/md2doc_mcp/core/echarts_converter.py:79-88 | reading the y axis changes nothing in the chart but its y-axis title |
| `ECharts.AxesOfWellFormed` | md2doc-core/src/main/java/cn/daydayup/dev/md2doc/core/template/EChartsToWordConverter.java:76 | `newYAxis` per series: the columns are exactly the series' names, each listed once |
| `ECharts.LastSeriesWins` | md2doc-service-python/src/md2doc_mcp/core/echarts_converter.py:76 | two series of the same name leave the last one's column |
| `ECharts.PySeriesRaisedExtends` | md2doc-service-python/src/md2doc_mcp/core/echarts_converter.py:58-76 | once a series raises, the later series are not read |
| `ECharts.PyFloatOfNat` | md2doc-service-python/src/md2doc_mcp/core/echarts_converter.py:70 | `float` of the decimal text of a natural number is that number |
| `ECharts.StringDatumDiffers` | md2doc-service-python/src/md2doc_mcp/core/echarts_converter.py:68-70 | the datum "12" is 0 in md2doc-core and 12.0 in Python |
| `ECharts.BoolDatumDiffers` | md2doc-service-python/src/md2doc_mcp/core/echarts_converter.py:66 | the datum true is 0 in md2doc-core and 1 in Python, where a bool is an int |
| `ECharts.EmptyDataDiffers` | md2doc-service-python/src/md2doc_mcp/core/echarts_converter.py:62 | a series with empty data is an empty column in md2doc-core and is skipped in Python |
| `ECharts.NullTitleDiffers` | md2doc-service-python/src/md2doc_mcp/core/echarts_converter.py:40 | a null title gives "默认标题" in md2doc-core and raises in Python |
| `ECharts.EmptyObjectAgrees` | md2doc-core/src/main/java/cn/daydayup/dev/md2doc/core/template/EChartsToWordConverter.java:30-94 | the empty configuration gives the same empty chart titled "默认标题" in both |
| `ECharts.NewColumn` | md2doc-core/src/main/java/cn/daydayup/dev/md2doc/core/template/EChartsToWordConverter.java:76 | a new series column is added under its name and the table keeps its invariant |
| `ECharts.AppendToColumn` | md2doc-core/src/main/java/cn/daydayup/dev/md2doc/core/template/EChartsToWordConverter.java:76 | `addAllData` appends the values to the named column and changes nothing else |
| `ECharts.AddColumn` | md2doc-core/src/main/java/cn/daydayup/dev/md2doc/core/template/EChartsToWordConverter.java:76 | a series becomes a new column holding its data |
| `ECharts.RetitleColumn` | md2doc-core/src/main/java/cn/daydayup/dev/md2doc/core/template/EChartsToWordConverter.java:92 | `setTitle` changes the column's title only |
| `ECharts.Fail` | md2doc-core/src/main/java/cn/daydayup/dev/md2doc/core/template/EChartsToWordConverter.java:95-100 | on an exception the key gets the fallback chart, no other parameter changes, and the error "解析ECharts配置时出错: …" is raised |
| `ECharts.JavaLabelLoop` | md2doc-core/src/main/java/cn/daydayup/dev/md2doc/core/template/EChartsToWordConverter.java:52-55 | the label loop collects `Texts` |
| `ECharts.JavaDataLoop` | md2doc-core/src/main/java/cn/daydayup/dev/md2doc/core/template/EChartsToWordConverter.java:68-75 | the data loop collects `JavaNumbers` |
| `ECharts.JavaSeriesLoop` | md2doc-core/src/main/java/cn/daydayup/dev/md2doc/core/template/EChartsToWordConverter.java:61-79 | the series loop leaves the columns `JavaSeriesOf` gives |
| `ECharts.JavaSeriesStep` | md2doc-core/src/main/java/cn/daydayup/dev/md2doc/core/template/EChartsToWordConverter.java:63-78 | one turn of the series loop adds the column of one series |
| `ECharts.JavaXAxis` | md2doc-core/src/main/java/cn/daydayup/dev/md2doc/core/template/EChartsToWordConverter.java:49-58 | the labels of the first x axis are appended to the x axis |
| `ECharts.JavaSeries` | md2doc-core/src/main/java/cn/daydayup/dev/md2doc/core/template/EChartsToWordConverter.java:60-79 | the columns of the "series" array |
| `ECharts.JavaFill` | md2doc-core/src/main/java/cn/daydayup/dev/md2doc/core/template/EChartsToWordConverter.java:37-94 | the table is filled exactly as `JavaDraft` says, or the failure is reported with `JavaDraft`'s message |
| `ECharts.JavaFillFrom` | md2doc-core/src/main/java/cn/daydayup/dev/md2doc/core/template/EChartsToWordConverter.java:49-94 | the same once the first x axis is taken |
| `ECharts.JavaDraftOk` | md2doc-core/src/main/java/cn/daydayup/dev/md2doc/core/template/EChartsToWordConverter.java:37-94 | when no axis is an empty array the draft is the title, the labels, the columns and the y title |
| `ECharts.JavaRetitle` | md2doc-core/src/main/java/cn/daydayup/dev/md2doc/core/template/EChartsToWordConverter.java:81-94 | the y-axis title goes to one of the columns, any one since the key set of a HashMap has no order |
| `ECharts.ConvertJava` | md2doc-core/src/main/java/cn/daydayup/dev/md2doc/core/template/EChartsToWordConverter.java:30-102 | `convertEChartsToWordChart`: the chart under the key is the configuration's, or the fallback chart and the raised error; other parameters are unchanged |
| `ECharts.ConvertJavaRoot` | md2doc-core/src/main/java/cn/daydayup/dev/md2doc/core/template/EChartsToWordConverter.java:35-102 | the same from the parsed root |
| `ECharts.JavaChart` | md2doc-core/src/main/java/cn/daydayup/dev/md2doc/core/template/EChartsToWordConverter.java:37-94 | `addChart` then the fill: a fresh table under the key |
| `ECharts.PyDataLoop` | md2doc-service-python/src/md2doc_mcp/core/echarts_converter.py:64-74 | the data loop collects `PyNumbers` |
| `ECharts.PyXAxis` | md2doc-service-python/src/md2doc_mcp/core/echarts_converter.py:46-53 | the x-axis labels are appended, or the error of reading them is reported |
| `ECharts.PySeriesLoop` | md2doc-service-python/src/md2doc_mcp/core/echarts_converter.py:56-76 | the series loop leaves the columns of `PySeriesOf`, or stops with the first series' error, including the TypeError of a list or dict name |
| `ECharts.PySeriesStep` | md2doc-service-python/src/md2doc_mcp/core/echarts_converter.py:58-76 | one turn of the Python series loop: the columns of one more series, or the error that stops the loop (a non-dict node, data that cannot be iterated, a list or dict name) |
| `ECharts.PySerieColumn` | md2doc-service-python/src/md2doc_mcp/core/echarts_converter.py:59-76 | one series: its column added, nothing for empty data, or its error, TypeError when a list or dict name would key the y-axis dict |
| `ECharts.PyRetitle` | md2doc-service-python/src/md2doc_mcp/core/echarts_converter.py:83-88 | the y-axis title goes to the first column in insertion order |
| `ECharts.PyYAxis` | md2doc-service-python/src/md2doc_mcp/core/echarts_converter.py:79-88 | the y axis is read as `PyWithYTitle` says |
| `ECharts.PyFill` | md2doc-service-python/src/md2doc_mcp/core/echarts_converter.py:43-88 | the table is filled as `PyDraftFrom` says, or the failure is reported with its message, including the TypeError of a list or dict series name |
| `ECharts.PyChartFill` | md2doc-service-python/src/md2doc_mcp/core/echarts_converter.py:43-88 | `add_chart` then the fill: a fresh table under the key |
| `ECharts.ConvertPy` | md2doc-service-python/src/md2doc_mcp/core/echarts_converter.py:21-95 | `convert_echarts_to_word_chart`: the chart under the key is the configuration's, or the fallback chart and the raised error (a parse error, a wrong type, or a list or dict series name that cannot key the y-axis dict); other parameters are unchanged |
| `ECharts.ConvertPyRoot` | md2doc-service-python/src/md2doc_mcp/core/echarts_converter.py:37-95 | the same from the parsed root |
| `ECharts.CreateBarChart` | md2doc-core/src/main/java/cn/daydayup/dev/md2doc/core/template/EChartsToWordConverter.java:135-140 | `createBarChart`: a fresh chart with the title, the labels and one series of the data |
| `ECharts.BarColumn` | md2doc-service-python/src/md2doc_mcp/core/echarts_converter.py:136 | the one series column of a bar chart |
| `ECharts.BarChartShape` | md2doc-service-python/src/md2doc_mcp/core/echarts_converter.py:122-136 | the bar chart has the given title, labels on an x axis titled "x轴" and a single column of the given data |
| `ECharts.ExtractChartType` | md2doc-service-python/src/md2doc_mcp/core/echarts_converter.py:139-159 | `extract_chart_type`: the first series' "type" when the configuration parses, otherwise "bar" |
| `PyGenerator.CloseBrace` | md2doc-service-python/src/md2doc_mcp/core/word_generator.py:79 | the first '}' of the text, or none when it has no '}' |
| `PyGenerator.PlaceholderKeysWellFormed` | md2doc-service-python/src/md2doc_mcp/core/word_generator.py:79-80 | every key `\$\{([^}]+)\}` finds is non-empty and holds no '}' |
| `PyGenerator.NoDollarNoPlaceholder` | md2doc-service-python/src/md2doc_mcp/core/word_generator.py:79-83 | a paragraph without '$' has no placeholder and is left alone |
| `PyGenerator.EmptyKeySkipped` | md2doc-service-python/src/md2doc_mcp/core/word_generator.py:79 | "${}" is no placeholder: in "${}c${y}" only "y" is found |
| `PyGenerator.NestedOpening` | md2doc-service-python/src/md2doc_mcp/core/word_generator.py:79 | the first '}' closes the key: "${a${b}}" yields the key "a${b" |
| `PyGenerator.ChartKeysWellFormed` | md2doc-service-python/src/md2doc_mcp/core/word_generator.py:312-316 | every chart key found is "chart" followed by one or more digits |
| `PyGenerator.ChartKeysExample` | md2doc-service-python/src/md2doc_mcp/core/word_generator.py:312-316 | "${chart12}" yields the key "chart12" |
| `PyGenerator.LeftmostRunsIsLeftmost` | md2doc-service-python/src/md2doc_mcp/core/word_generator.py:86-104 | matches are visited right to left and each resolution clears the paragraph, so the leftmost resolved placeholder decides its content |
| `PyGenerator.ParamBlocksAppend` | md2doc-service-python/src/md2doc_mcp/core/word_generator.py:99-101 | the tables inserted for two stretches of keys come in the order of the stretches |
| `PyGenerator.ParamBlocksCons` | md2doc-service-python/src/md2doc_mcp/core/word_generator.py:99-101 | a table key in front of the others contributes its table first |
| `PyGenerator.UnknownKeysSkipped` | md2doc-service-python/src/md2doc_mcp/core/word_generator.py:91-94 | a paragraph none of whose keys has a parameter is unchanged |
| `PyGenerator.NoResolvedKeys` | md2doc-service-python/src/md2doc_mcp/core/word_generator.py:91-94 | with no resolved key the runs stay, nothing is centred and no table is inserted |
| `PyGenerator.LeftmostTextWins` | md2doc-service-python/src/md2doc_mcp/core/word_generator.py:86-98 | "${a} and ${b}" with a = "A" and b = "B" becomes the single run "A" |
| `PyGenerator.PyParagraph.constructor` | md2doc-service-python/src/md2doc_mcp/core/word_generator.py:64 | a paragraph of the template holds its runs, uncentred, with nothing after it |
| `PyGenerator.PyParagraph.Resolve` | md2doc-service-python/src/md2doc_mcp/core/word_generator.py:107-122 | one resolved parameter clears the paragraph and leaves its runs; an image centres it, a table goes right after it |
| `PyGenerator.PyParagraph.ReplaceContent` | md2doc-service-python/src/md2doc_mcp/core/word_generator.py:68-104 | `_replace_paragraph_content` leaves the paragraph as `TextPass` says |
| `PyGenerator.NoChartKeys` | md2doc-service-python/src/md2doc_mcp/core/word_generator.py:317-319 | chart keys without a chart table leave the runs alone |
| `PyGenerator.RightmostRunsIsRightmost` | md2doc-service-python/src/md2doc_mcp/core/word_generator.py:315-328 | chart matches are visited left to right and each one clears the paragraph, so the rightmost chart decides its runs |
| `PyGenerator.ChartBlocksAppend` | md2doc-service-python/src/md2doc_mcp/core/word_generator.py:315-325 | each grid is inserted right after the paragraph, so the grids of a later stretch of keys come first |
| `PyGenerator.EmptyChartMessage` | md2doc-service-python/src/md2doc_mcp/core/word_generator.py:342-344 | a chart without categories or without series leaves only "图表数据为空" |
| `PyGenerator.Draw` | md2doc-service-python/src/md2doc_mcp/core/word_generator.py:331-371 | clearing and drawing a chart leaves its runs, centres the paragraph when there is data and inserts its grid |
| `PyGenerator.ReplaceChartsIn` | md2doc-service-python/src/md2doc_mcp/core/word_generator.py:310-328 | the chart pass on one paragraph leaves it as `ChartPass` says |
| `PyGenerator.ReplaceParagraphs` | md2doc-service-python/src/md2doc_mcp/core/word_generator.py:57-65 | `_replace_paragraphs`: every paragraph goes through the placeholder pass |
| `PyGenerator.ReplaceCharts` | md2doc-service-python/src/md2doc_mcp/core/word_generator.py:302-328 | `_replace_charts`: every paragraph goes through the chart pass |
| `PyGenerator.BuildDoc` | md2doc-service-python/src/md2doc_mcp/core/word_generator.py:27-54 | `build_doc` returns true exactly when the template opens and the output is saved; an unreadable template changes nothing; otherwise every paragraph goes through the placeholder pass, then the chart pass |
| `Collectors.KeyInjective` | md2doc-core/src/main/java/cn/daydayup/dev/md2doc/core/MarkdownToWordConverter.java:144 | keys "image" + n, "chart" + n, "table" + n, "mermaid" + n of different kinds or numbers never collide |
| `Collectors.KeyIsNotTitle` | md2doc-core/src/main/java/cn/daydayup/dev/md2doc/core/MarkdownToWordConverter.java:205-209 | no numbered key overwrites the "title" parameter |
| `Collectors.BindAt` | md2doc-core/src/main/java/cn/daydayup/dev/md2doc/core/MarkdownToWordConverter.java:144-152 | after a collector the k-th key holds the k-th value |
| `Collectors.BindElsewhere` | md2doc-core/src/main/java/cn/daydayup/dev/md2doc/core/MarkdownToWordConverter.java:150 | a collector leaves every key outside its numbered keys as it was |
| `Collectors.BindOtherKind` | md2doc-core/src/main/java/cn/daydayup/dev/md2doc/core/MarkdownToWordConverter.java:193 | a collector of one kind leaves the keys of every other kind and the title alone |
| `Collectors.CoreImageValues` | md2doc-core/src/main/java/cn/daydayup/dev/md2doc/core/MarkdownToWordConverter.java:141-153 | one value per image match, in match order, each `WordParam.image` of the match's URL |
| `Collectors.BlankImagePlaceholder` | md2doc-core/src/main/java/cn/daydayup/dev/md2doc/core/MarkdownToWordConverter.java:148-149 | an image whose URL is only spaces binds the placeholder "图片加载失败", whatever the loader would give |
| `Collectors.ProcessImages` | md2doc-core/src/main/java/cn/daydayup/dev/md2doc/core/MarkdownToWordConverter.java:137-158 | `processImages`: the n-th image of the Markdown binds "image" + n to `WordParam.image(url)`, a blank URL to the placeholder without loading; the charts are untouched |
| `Collectors.MermaidText` | md2doc-core/src/main/java/cn/daydayup/dev/md2doc/core/MarkdownToWordConverter.java:120-121 | the Mermaid text is the header, the code and the note |
| `Collectors.MermaidRoundTrip` | md2doc-core/src/main/java/cn/daydayup/dev/md2doc/core/MarkdownToWordConverter.java:120-121 | the code can be read back out of its Mermaid text, which starts with "【Mermaid 图表】" |
| `Collectors.MermaidValues` | md2doc-core/src/main/java/cn/daydayup/dev/md2doc/core/MarkdownToWordConverter.java:113-125 | one text per Mermaid block, in order |
| `Collectors.ProcessMermaid` | md2doc-core/src/main/java/cn/daydayup/dev/md2doc/core/MarkdownToWordConverter.java:109-130 | `processMermaid`: the n-th block binds "mermaid" + n to its text; the charts are untouched |
| `Collectors.MermaidKeyHoldsCode` | md2doc-core/src/main/java/cn/daydayup/dev/md2doc/core/MarkdownToWordConverter.java:114-123 | the n-th Mermaid key holds a text from which the n-th block's trimmed code is recovered |
| `Collectors.TableValues` | md2doc-core/src/main/java/cn/daydayup/dev/md2doc/core/MarkdownToWordConverter.java:189-193 | one parsed table per block, in order |
| `Collectors.ProcessTables` | md2doc-core/src/main/java/cn/daydayup/dev/md2doc/core/MarkdownToWordConverter.java:184-196 | `processTables` and `_process_tables`: the n-th table block binds "table" + n to its parsed rows; the charts are untouched |
| `Collectors.StripAll` | md2doc-service-python/src/md2doc_mcp/parser/markdown_parser.py:72-77 | `extract_echarts_blocks` / `extract_tables` keep one block per match, each already stripped |
| `Collectors.ChartKeysNext` | md2doc-core/src/main/java/cn/daydayup/dev/md2doc/core/MarkdownToWordConverter.java:171 | each turn uses a chart key not used before |
| `Collectors.JavaOutcomes` | md2doc-core/src/main/java/cn/daydayup/dev/md2doc/core/MarkdownToWordConverter.java:169-176 | one conversion outcome per configuration, in order |
| `Collectors.FirstRaised` | md2doc-core/src/main/java/cn/daydayup/dev/md2doc/core/MarkdownToWordConverter.java:169-176 | the first configuration whose conversion throws, every earlier one succeeding |
| `Collectors.Visited` | md2doc-core/src/main/java/cn/daydayup/dev/md2doc/core/MarkdownToWordConverter.java:169-176 | the loop visits the configurations up to and including the first that throws |
| `Collectors.ProcessECharts` | md2doc-core/src/main/java/cn/daydayup/dev/md2doc/core/MarkdownToWordConverter.java:165-177 | `processECharts`: the k-th configuration before the first failure fills a fresh table under "chart" + k; the failing one leaves the default chart under its key and its error is raised; later configurations are not visited; other charts and all parameters are unchanged |
| `Collectors.EChartsLoop` | md2doc-core/src/main/java/cn/daydayup/dev/md2doc/core/MarkdownToWordConverter.java:169-176 | the loop of `processECharts` stops after the first configuration that throws; the tables it created sit under chart1, chart2, … in order; each before the throwing one holds its draft, the throwing one the default chart; the parameters are untouched |
| `Collectors.JavaPassDone` | md2doc-core/src/main/java/cn/daydayup/dev/md2doc/core/MarkdownToWordConverter.java:165-177 | where the loop ends, the error, the tables under the visited chart keys and the other keys are those `processECharts` promises |
| `Collectors.PlacedKeys` | md2doc-core/src/main/java/cn/daydayup/dev/md2doc/core/MarkdownToWordConverter.java:170-175 | putting the tables in order under the chart keys leaves the k-th under "chart" + k, adds exactly the first chart keys, and keeps every other key's table |
| `Collectors.ChartKeysHold` | md2doc-core/src/main/java/cn/daydayup/dev/md2doc/core/MarkdownToWordConverter.java:171 | "chart" + m is among the first n chart keys exactly when 1 <= m <= n |
| `Collectors.ChartStep` | md2doc-core/src/main/java/cn/daydayup/dev/md2doc/core/MarkdownToWordConverter.java:170-175 | one turn: a fresh table under the next key, the earlier tables the same objects holding the same values, and whether this configuration is the first to throw |
| `Collectors.ConvertAt` | md2doc-core/src/main/java/cn/daydayup/dev/md2doc/core/MarkdownToWordConverter.java:174 | one conversion under the next chart key, and whether it is the first to throw |
| `PyCollectors.PictureParam` | md2doc-service-python/src/md2doc_mcp/core/converter.py:130-132 | `WordParams.image(data, width, height)` holds the picture as given |
| `PyCollectors.FailedText` | md2doc-service-python/src/md2doc_mcp/core/converter.py:173 | the failure text is "[图片加载失败: " + alt + "]" |
| `PyCollectors.FailedRoundTrip` | md2doc-service-python/src/md2doc_mcp/core/converter.py:173 | the alt text can be read back out of the failure text |
| `PyCollectors.PyImageValues` | md2doc-service-python/src/md2doc_mcp/core/converter.py:157-175 | one value per image, in order |
| `PyCollectors.PyProcessImages` | md2doc-service-python/src/md2doc_mcp/core/converter.py:146-180 | `_process_images`: the n-th image binds "image" + n to its picture, or to the failure text; the charts are untouched |
| `PyCollectors.PyBindImages` | md2doc-service-python/src/md2doc_mcp/core/converter.py:157-175 | the loop over the extracted images |
| `PyCollectors.PyImageStep` | md2doc-service-python/src/md2doc_mcp/core/converter.py:158-173 | one image: its key bound to its picture or its failure text |
| `PyCollectors.PyImageKeyHolds` | md2doc-service-python/src/md2doc_mcp/core/converter.py:163-173 | the n-th image key holds the picture when processing succeeds, otherwise a failure text naming the alt text |
| `PyCollectors.BindSomeAt` | md2doc-service-python/src/md2doc_mcp/core/converter.py:129-137 | the k-th chart key holds the k-th rendered picture, and a configuration that is not rendered binds no parameter |
| `PyCollectors.Renders` | md2doc-service-python/src/md2doc_mcp/core/converter.py:127 | one render outcome per configuration, in order |
| `PyCollectors.RenderedValues` | md2doc-service-python/src/md2doc_mcp/core/converter.py:129-132 | a picture parameter exactly for the configurations that rendered |
| `PyCollectors.PyOutcomes` | md2doc-service-python/src/md2doc_mcp/core/converter.py:137 | one conversion outcome per configuration, in order |
| `PyCollectors.PyStop` | md2doc-service-python/src/md2doc_mcp/core/converter.py:117-144 | the first configuration that neither renders nor converts, every earlier one rendering or converting |
| `PyCollectors.StopFlags` | md2doc-service-python/src/md2doc_mcp/core/converter.py:129-137 | for each configuration whether the loop stops there |
| `PyCollectors.PyVisited` | md2doc-service-python/src/md2doc_mcp/core/converter.py:117-144 | the loop visits the configurations up to and including the one it stops at |
| `PyCollectors.PyTable` | md2doc-service-python/src/md2doc_mcp/core/converter.py:137 | a configuration that is converted leaves its chart, or the default chart when the conversion raises |
| `PyCollectors.PyProcessECharts` | md2doc-service-python/src/md2doc_mcp/core/converter.py:110-144 | `_process_echarts`: each visited rendered configuration binds "chart" + k to its picture, each visited unrendered one fills a fresh table under "chart" + k; the exception of a failing conversion is swallowed and ends the loop; nothing else changes |
| `PyCollectors.PyEChartsLoop` | md2doc-service-python/src/md2doc_mcp/core/converter.py:121-139 | the loop of `_process_echarts` establishes the same |
| `PyCollectors.PyChartStep` | md2doc-service-python/src/md2doc_mcp/core/converter.py:122-139 | one turn: a picture or a fresh table under the next key, and whether the loop stops there |
| `PyCollectors.PyRenderStep` | md2doc-service-python/src/md2doc_mcp/core/converter.py:129-133 | a rendered turn binds the picture and leaves the charts |
| `PyCollectors.PyTableStep` | md2doc-service-python/src/md2doc_mcp/core/converter.py:134-137 | an unrendered turn fills a table and stops when its conversion raises |
| `PyCollectors.PyConvertAt` | md2doc-service-python/src/md2doc_mcp/core/converter.py:137 | the conversion of one configuration under its chart key; the tables of the earlier configurations keep their values |
| `Titles.PreviousMonth` | md2doc-core/src/main/java/cn/daydayup/dev/md2doc/core/MarkdownToWordConverter.java:207 | `minusMonths(1)` gives a valid month one month earlier, across the year boundary |
| `Titles.NextMonth` | md2doc-core/src/main/java/cn/daydayup/dev/md2doc/core/MarkdownToWordConverter.java:207 | the month after is valid and one month later |
| `Titles.MonthIndexInjective` | md2doc-core/src/main/java/cn/daydayup/dev/md2doc/core/MarkdownToWordConverter.java:207 | two valid months with the same index are the same month |
| `Titles.PreviousNextInverse` | md2doc-core/src/main/java/cn/daydayup/dev/md2doc/core/MarkdownToWordConverter.java:207 | going back a month and forward again, or forward and back, returns the month |
| `Titles.YearText` | md2doc-core/src/main/java/cn/daydayup/dev/md2doc/core/MarkdownToWordConverter.java:208 | the decimal text of a year is digits, with a leading '-' exactly for a negative year |
| `Titles.YearTextInjective` | md2doc-core/src/main/java/cn/daydayup/dev/md2doc/core/MarkdownToWordConverter.java:208 | different years have different texts |
| `Titles.CoreTitle` | md2doc-core/src/main/java/cn/daydayup/dev/md2doc/core/MarkdownToWordConverter.java:203-209 | the md2doc-core title is "<year>年<month>月分析报告" of the month before today |
| `Titles.MonthTitleInjective` | md2doc-core/src/main/java/cn/daydayup/dev/md2doc/core/MarkdownToWordConverter.java:208 | different months give different report titles |
| `Titles.CoreTitleDistinguishesMonths` | md2doc-core/src/main/java/cn/daydayup/dev/md2doc/core/MarkdownToWordConverter.java:205-209 | conversions in different months give different titles |
| `Titles.CoreTitleExample` | md2doc-core/src/main/java/cn/daydayup/dev/md2doc/core/MarkdownToWordConverter.java:205-208 | in January 2025 the title is "2024年12月分析报告" |
| `Titles.LegacyTitle` | src/main/java/cn/daydayup/dev/md2doc/MarkdownToWordConverter.java:128-136 | the older title is the title of the first heading match in the whole text, or "默认标题" when the pattern matches nowhere |
| `Titles.LegacyTitleIsFirstHeading` | src/main/java/cn/daydayup/dev/md2doc/MarkdownToWordConverter.java:130-132 | the older title is the title of the earliest match, whatever follows |
| `Titles.LegacyTitleOfFirstLine` | src/main/java/cn/daydayup/dev/md2doc/MarkdownToWordConverter.java:130-132 | a heading with a title on the first line is the older title whatever the later lines hold |
| `Titles.LegacyTitleAcrossLines` | src/main/java/cn/daydayup/dev/md2doc/MarkdownToWordConverter.java:34 | "#\nfoo" is titled "foo": `\s+` runs across the line end and the next line becomes the title |
| `Titles.LegacyEmptyTitle` | src/main/java/cn/daydayup/dev/md2doc/MarkdownToWordConverter.java:131-132 | a first heading with no text gives the empty title, not "默认标题" |
| `Titles.PyTitle` | md2doc-service-python/src/md2doc_mcp/core/converter.py:204-225 | the Python title is never empty: the first header when it is non-empty, otherwise "默认标题" |
| `Titles.PyTitleIsFirstHeader` | md2doc-service-python/src/md2doc_mcp/core/converter.py:213-215 | a non-empty first header is the title |
| `Titles.PyTitleOfFirstMatch` | md2doc-service-python/src/md2doc_mcp/core/converter.py:213-217 | the Python title is the stripped title of the earliest match, or "默认标题" when that is empty |
| `Titles.PyHeadingAcrossLines` | md2doc-service-python/src/md2doc_mcp/parser/markdown_parser.py:20 | the Python pattern at the start of "# \nfoo" takes level 1 and the title "foo" |
| `Titles.PyTitleAcrossLines` | md2doc-service-python/src/md2doc_mcp/core/converter.py:213-215 | "# \nfoo" is titled "foo" in Python as well |
| `Titles.PyEmptyTitle` | md2doc-service-python/src/md2doc_mcp/core/converter.py:213-217 | "# " gives "默认标题" in Python, where the older Java sets the empty title |
| `Titles.ValidateMarkdown` | md2doc-service-python/src/md2doc_mcp/core/converter.py:242-262 | `validate_markdown_content` is true exactly when the content holds a character that is not whitespace |
| `Conversion.HasDocxOccurs` | md2doc-core/src/main/java/cn/daydayup/dev/md2doc/core/MarkdownToWordConverter.java:67 | a path contains ".docx" exactly when `replace` has an occurrence to rewrite |
| `Conversion.ReplaceAllGrows` | md2doc-core/src/main/java/cn/daydayup/dev/md2doc/core/MarkdownToWordConverter.java:67 | replacing ".docx" by the longer "_template.docx" never shortens the path, and lengthens it when ".docx" occurs |
| `Conversion.TemplatePathWithoutDocx` | md2doc-core/src/main/java/cn/daydayup/dev/md2doc/core/MarkdownToWordConverter.java:67 | an output path without ".docx" is its own template path |
| `Conversion.OutputLostAsWritten` | md2doc-core/src/main/java/cn/daydayup/dev/md2doc/core/MarkdownToWordConverter.java:97 | for the output "report" the template is "report" itself, so deleting the template deletes the document just built |
| `Conversion.SafeTemplatePath` | md2doc-service-python/src/md2doc_mcp/core/converter.py:66 | the template path always differs from the output path, and is the source's path whenever the output contains ".docx" |
| `Conversion.FinishedKeepsOutput` | src/main/java/cn/daydayup/dev/md2doc/MarkdownToWordConverter.java:81 | with a template path distinct from the output, a finished conversion leaves the built output, removes the template and touches no other file |
| `Conversion.ConvertCore` | md2doc-core/src/main/java/cn/daydayup/dev/md2doc/core/MarkdownToWordConverter.java:64-100 | `convertMarkdownToWord` with the template path as written: it throws exactly when a chart configuration fails or the generator throws, leaving the template behind (and, for a failing chart, only the images and Mermaid texts bound); otherwise the parameters are the images, Mermaid texts, tables and the month title, the charts are chart1..chartN, and the template path is deleted after the generator, which removes the output too when the path lacks ".docx" |
| `Conversion.DocxOutputKept` | md2doc-core/src/main/java/cn/daydayup/dev/md2doc/core/MarkdownToWordConverter.java:67 | with ".docx" in the output path, the path as written keeps a built output and removes the template |
| `Conversion.ConvertLegacy` | src/main/java/cn/daydayup/dev/md2doc/MarkdownToWordConverter.java:55-82 | the older `convertMarkdownToWord`: the same outcomes with only charts, tables and the first-heading title, and the template path as written |
| `Conversion.PyCollect` | md2doc-service-python/src/md2doc_mcp/core/converter.py:72-84 | the Python passes in order: the parameters are the rendered charts, images, tables and the first-header title; the chart tables are keyed by the visited charts that were not rendered, and the k-th holds the chart its conversion produced (the default chart when that conversion raised) |
| `Conversion.PyLaterPasses` | md2doc-service-python/src/md2doc_mcp/core/converter.py:77-84 | the image, table and title passes bind their parameters in that order and leave every chart table with its value |
| `Conversion.ConvertPython` | md2doc-service-python/src/md2doc_mcp/core/converter.py:52-108 | `convert_markdown_to_word` with the template path as written: it fails exactly when the document is not built, with the message "转换Markdown内容时出错: 生成Word文档失败", and in every case the template path is removed (the output with it when the path lacks ".docx"); the parameters, the chart keys and every chart table's value are those of `PyCollect` |
| `Conversion.PyGenerate` | md2doc-service-python/src/md2doc_mcp/core/converter.py:87-107 | the generator result decides the outcome: a built document is kept, a failed one raises "转换Markdown内容时出错: 生成Word文档失败", and the template file is removed on both paths |
| `Agreement.TemplateKeysFirst` | md2doc-core/src/main/java/cn/daydayup/dev/md2doc/core/template/DynamicWordDocumentCreator.java:266-422 | the builder's placeholder keys of each kind are exactly "kind1" up to "kindN", in document order |
| `Agreement.ImagesAgreeIffSameCount` | md2doc-core/src/main/java/cn/daydayup/dev/md2doc/core/MarkdownToWordConverter.java:137-153 | the template's image keys equal the collector's keys exactly when the placeholder count equals the number of image-pattern matches |
| `Agreement.CollectedKeysBound` | md2doc-core/src/main/java/cn/daydayup/dev/md2doc/core/MarkdownToWordConverter.java:137-153 | every key "image1".."imageN" the collector numbers is bound in the parameters it produces |
| `Agreement.LineKeys` | md2doc-core/src/main/java/cn/daydayup/dev/md2doc/core/template/DynamicWordDocumentCreator.java:266-422 | on a one-line text the template names "kind1" exactly when the builder's first matching test is that kind's, and no key otherwise |
| `Agreement.SingleImageAgrees` | md2doc-core/src/main/java/cn/daydayup/dev/md2doc/core/template/DynamicWordDocumentCreator.java:389-422 | a plain line with exactly one image gives "image1" on both sides |
| `Agreement.SecondImageUnplaced` | md2doc-core/src/main/java/cn/daydayup/dev/md2doc/core/template/DynamicWordDocumentCreator.java:389-422 | with two images on a line the template names only "image1", while the collector also binds "image2", which no placeholder names |
| `Agreement.ImageOnOtherLine` | md2doc-core/src/main/java/cn/daydayup/dev/md2doc/core/template/DynamicWordDocumentCreator.java:270-299 | an image on a heading or table line gets no placeholder, yet the collector binds "image1" for it |
| `Agreement.TwoImagesDisagree` | md2doc-core/src/main/java/cn/daydayup/dev/md2doc/core/MarkdownToWordConverter.java:137-153 | for "![a](u)![b](v)" the template names one image key and the collector binds two |
| `Agreement.HeadingImageDisagrees` | md2doc-core/src/main/java/cn/daydayup/dev/md2doc/core/template/DynamicWordDocumentCreator.java:270-299 | for "# ![a](u)" the template names no image key and the collector binds "image1" |
| `Agreement.LoneBarDisagrees` | md2doc-core/src/main/java/cn/daydayup/dev/md2doc/core/template/DynamicWordDocumentCreator.java:357 | a lone "|" line gets "${table1}", while the text cannot hold a match of the collector's table pattern (core MarkdownToWordConverter.java:41), so "table1" is never bound |
| `Agreement.Bars` | md2doc-core/src/main/java/cn/daydayup/dev/md2doc/core/MarkdownToWordConverter.java:41 | the number of bar characters in a text, which a table match needs four of: never more than the text's length, and zero exactly when the text holds no bar |

## Left out

- Word object model: styles, fonts, sizes, spacing, borders, XML element construction, the XDDF chart part and its data labels. Runs, paragraphs, tables and chart parts are abstract values, and where a table is inserted is a library call.
- `setHeaderParagraphStyle` (older Java builder): the font size it computes and never uses is styling, so it is not modelled.
- File and stream I/O: reading the Markdown and saving the document. The file system is the set of paths that exist. The generator's own work is the outcome it reports: built, not built, or (in Java) an exception escaping it, given as a parameter.
- Network access and image decoding: download, local read, the accessibility probe and JPEG encoding. Image loading is the parameter `load` (a picture, or the failure message). It receives the trimmed and classified source, so a blank source never reaches it. The Python `image_downloader.py` (retries, cache, resizing) is not part of this model.
- Picture type and file extension: md2doc-core's `PoiWordGenerator` calls `getFileExtension`/`getPictureType`, which its `WordParam.Image` does not declare. The core picture is attached under its key with no type.
- The Python chart renderer (`echarts_renderer.py`: pyecharts, a headless browser and a cache) is the parameter `render`. Its own normaliser duplicates `convert_echarts_to_json`.
- JSON parsing: Jackson and `json.loads` are the parameter `parse`, which gives an abstract JSON tree or nothing when parsing throws.
- Regular expressions over the whole text: the table, ECharts and Mermaid block patterns of the collectors are given to the model as the sequence of their matches. The image and heading patterns are modelled as scans: over the whole text in the collectors and the title functions, and over each split line in the Java template builders, whose `find()` also finds a heading after a carriage return, U+0085, U+2028 or U+2029 inside the line. `^` holds at the start or after a line terminator, and `\s+` may cross line ends.
- Python `\d` and `str.isdigit` accept every Unicode decimal digit; the model accepts only ASCII digits.
- Floating point: `DecimalFormat("#,##0.0")` is the parameter `df` in `formatTableNumber`. The model keeps the digit-run structure and states the one-decimal rounding on exact rationals.
- `Images.LowerAscii`: lowers ASCII letters only, as `toLowerCase()` does under the ROOT or an English locale. Java uses the default locale (ImageDownloader.java:139): under a Turkish one "x.GIF" lowers to "x.gıf" and 'İ' lowers to two characters.
- `Images.IsSupportedFormat`: decides on the ASCII lower case of `Images.LowerAscii`, so under a Turkish default locale the model accepts "x.GIF" where Java rejects it.
- `Images.AdaptiveSize`: the height is scaled with exact integer arithmetic (floor), not with double division and truncation. Its bounds are what is proved.
- The inch scaling of pictures in the Python generator is not modelled.
- Python `float()`: `ECharts.PyFloat` covers decimal text with sign, fraction and exponent. "inf", "nan", underscores in digits and non-ASCII digits are not modelled.
- The clock: `LocalDate.now()` is the parameter `today`.
- `ECharts.JavaRetitle`: a HashMap's key order is unspecified, so the model says only that the y-axis name titles one of the columns, not which one.
- `ECharts.PySerie`: its own contract states only that a node that is not a dict raises; `ECharts.PySerieOutcome` states the rest. A series name keys the y-axis columns by its text (`PyStr`), not by Python's equality of dict keys. Python merges the names 1, 1.0 and true into one column and keeps 1 and "1" (or true and "True", null and "None") apart; the model does the reverse. A list or dict name raises TypeError as in Python.
- `ECharts.PySerieColumn`: keys the new column as `ECharts.PySerie` does, so the merging of names that Python holds equal is not modelled.
- `ECharts.PySeriesStep`: the same key merging, through `ECharts.PySerieColumn`.
- `ECharts.PySeriesLoop`: the same key merging: series whose names Python holds equal (1, 1.0, true) give separate columns, and names with the same text (1 and "1") share one.
- `ECharts.PyFill`: the same key merging, through `ECharts.PySeriesLoop`.
- `ECharts.ConvertPy`: the same key merging, through `ECharts.PyFill`.
- `ECharts.ConvertPyRoot`: the same key merging, through `ECharts.PyFill`.
- `ECharts.PyStrs`: `str()` of a list or dict is its repr, and of a number Python's own float or int text; the model prints a list or dict as "" and a number as its JSON source text.
- `PyGenerator.Draw`: a series name that is not a string makes writing the header cell raise (word_generator.py:483), after the title run `【图表】title` is added; `PyGenerator.ReplaceChartsIn` then catches it and appends `图表 chartN 创建失败` with no table (word_generator.py:326-328). The model always writes the table after the title run.
- `PyGenerator.ReplaceChartsIn`: does not model the caught exception of `PyGenerator.Draw` above; the failure text `图表 chartN 创建失败` is never produced.
- `ECharts.PyDraft`: its own contract states only that a configuration that is not an object raises. The extracted chart is stated by `ECharts.PyDraftFrom` and `ECharts.PyFill`.
- `PoiUtil` is not part of this model. The name the Java rebinding reads from a chart series is given as an optional string.
- Logging, and the Python `print`/traceback of swallowed exceptions, are not modelled. Only the value each function returns after catching is.
- Positional key agreement is proved for one-line texts (`Agreement.LineKeys`, `Agreement.SingleImageAgrees`) and shown to fail on the counterexamples in `agreement.dfy`. A multi-line statement is not proved: a match of the collector's image pattern may span a line feed, and the builder never sees one.
- `Agreement.LoneBarDisagrees`: the table pattern is not modelled, so the lemma shows only a necessary condition for a match (four bars and a line feed). It does not show that the collector's match list is empty.
- Transport and service glue are not part of this model: the REST controller, the MCP tools and server, the result converter, the Spring application, the temp-file cleanup task and the test scripts.
- Concurrency: one conversion is modelled at a time.

## Findings

| source | as written | input that shows it | evidently intended | confidence | as-written member | corrected member |
|---|---|---|---|---|---|---|
| md2doc-core/src/main/java/cn/daydayup/dev/md2doc/core/generate/PoiWordGenerator.java:105-111 | after a run that opens `${` without closing it, `replaceIndex` keeps the offset of `${` in the anchor run and applies it to the next run (the older copy has the same lines at 100-106) | runs "a${ke", "y}b": the second run is removed as already read and "a${ke" stays unreplaced; runs "x${ab", "}": the offset lies past the end of "}" and `key.append` throws | the offset restarts at 0 in every run after the anchor, so a key split over runs is gathered whole | not executed | `ScannerProps.StaleOffsetDropsClosingRun`, `ScannerProps.StaleOffsetThrows` | `ScannerProps.ResetOffsetJoinsKey`, `ScannerProps.ResetOffsetCloses`, `ScannerProps.SplitKeyRepaired` |
| md2doc-core/src/main/java/cn/daydayup/dev/md2doc/core/generate/PoiWordGenerator.java:142-144 | when text follows `}` in the anchor run itself, the anchor's text is set to that tail, overwriting the substituted value (the older copy at line 137 as well) | run "p${k}q" with k bound to Text "v" ends as "q" | the anchor keeps prefix + value, and the tail is kept after it and scanned again | not executed | `ScannerProps.TailOverwritesValue` | `ScannerProps.TailKeepsValueRepaired` |
| md2doc-core/src/main/java/cn/daydayup/dev/md2doc/core/MarkdownToWordConverter.java:67 | the template path is the output path with every ".docx" replaced by "_template.docx"; without ".docx" it is the output path itself, and deleting the template (:97) deletes the output | output path "report": the built document is deleted | a template path that never equals the output path | not executed | `Conversion.TemplatePathWithoutDocx`, `Conversion.OutputLostAsWritten` | `Conversion.SafeTemplatePath`, `Conversion.FinishedKeepsOutput` |
