/**
 * The Markdown table parsers: `MarkdownTableParser.parseTable` (Java) and
 * `MarkdownTableParser.parse_table` (Python). A table's text becomes rows of
 * trimmed cell texts; separator rows and empty rows are skipped.
 */
module TableParse {
  import opened Wrappers
  import opened Text
  import opened Lines

  /** A separator row: it matches the pattern and holds a '-' (`_is_separator_line`). */
  predicate IsSeparator(line: string, java: bool) {
    SeparatorPattern(line, java) && Contains(line, '-')
  }

  /** The line without one leading and one trailing '|'. */
  function Unbar(t: string): (r: string)
    ensures |r| <= |t|
  {
    var t1 := if |t| > 0 && t[0] == '|' then t[1..] else t;
    if EndsWith(t1, "|") then t1[..|t1| - 1] else t1
  }

  /** The '|'-separated pieces: Java `split("\\|")` drops trailing empty pieces, Python's `split('|')` keeps them. */
  function Pieces(t: string, java: bool): (r: seq<string>)
    ensures forall p :: p in r ==> !Contains(p, '|')
  {
    if java then JavaSplit(t, '|') else Split(t, '|')
  }

  /** Each piece trimmed. */
  function TrimAll(ps: seq<string>, java: bool): (r: seq<string>)
    ensures |r| == |ps|
  {
    seq(|ps|, i requires 0 <= i < |ps| => Trim(ps[i], java))
  }

  /** One line of the table: its row, or `None` when the line is a separator or gives a single empty cell. */
  function ParseLine(line: string, java: bool): Option<seq<string>> {
    var t := Trim(line, java);
    if IsSeparator(t, java) then None
    else
      var row := TrimAll(Pieces(Unbar(t), java), java);
      if row == [] || (|row| == 1 && row[0] == "") then None else Some(row)
  }

  /** The rows one line contributes: none or one. */
  function RowOf(line: string, java: bool): (r: seq<seq<string>>)
    ensures |r| <= 1
  {
    match ParseLine(line, java)
    case Some(row) => [row]
    case None => []
  }

  /** `f` of each element, concatenated in order. */
  function Flatten<T, U>(xs: seq<T>, f: T -> seq<U>): seq<U> {
    if xs == [] then [] else f(xs[0]) + Flatten(xs[1..], f)
  }

  /** `RowOf` as a function value. */
  function RowFn(java: bool): string -> seq<seq<string>> {
    line => RowOf(line, java)
  }

  /** The rows of the lines, in order. */
  function Rows(lines: seq<string>, java: bool): seq<seq<string>> {
    Flatten(lines, RowFn(java))
  }

  lemma {:induction false} FlattenAppend<T, U>(a: seq<T>, b: seq<T>, f: T -> seq<U>)
    ensures Flatten(a + b, f) == Flatten(a, f) + Flatten(b, f)
  {
    if a == [] {
      assert a + b == b;
    } else {
      assert (a + b)[0] == a[0];
      assert (a + b)[1..] == a[1..] + b;
      FlattenAppend(a[1..], b, f);
      Assoc(f(a[0]), Flatten(a[1..], f), Flatten(b, f));
    }
  }

  /** Everything in the concatenation comes from some element. */
  lemma {:induction false} FlattenMember<T, U>(xs: seq<T>, f: T -> seq<U>, u: U)
    requires u in Flatten(xs, f)
    ensures exists x :: x in xs && u in f(x)
  {
    if u !in f(xs[0]) {
      FlattenMember(xs[1..], f, u);
      var x :| x in xs[1..] && u in f(x);
      assert x in xs;
    }
  }

  /** No element gives more than one, so there are no more than elements. */
  lemma {:induction false} FlattenAtMostOne<T, U>(xs: seq<T>, f: T -> seq<U>)
    requires forall x :: x in xs ==> |f(x)| <= 1
    ensures |Flatten(xs, f)| <= |xs|
  {
    if xs != [] {
      assert xs[0] in xs;
      assert forall x :: x in xs[1..] ==> x in xs;
      FlattenAtMostOne(xs[1..], f);
    }
  }

  /** The lines of the table text: Java's `split("\n")` drops trailing empty lines. */
  function TableLines(table: string, java: bool): seq<string> {
    if java then JavaSplit(table, '\n') else Split(table, '\n')
  }

  /** `parseTable(markdownTable)` / `parse_table(markdown_table)`. */
  method ParseTable(table: string, java: bool) returns (data: seq<seq<string>>)
    ensures data == Rows(TableLines(table, java), java)
  {
    var lines := if java then JavaSplit(table, '\n') else Split(table, '\n');
    data := ParseLines(lines, java);
  }

  /** A line's rows follow the rows of the lines before it. */
  lemma RowsSnoc(lines: seq<string>, line: string, java: bool)
    ensures Rows(lines + [line], java) == Rows(lines, java) + RowOf(line, java)
  {
    FlattenAppend(lines, [line], RowFn(java));
    assert Flatten([line], RowFn(java)) == RowOf(line, java) + Flatten([line][1..], RowFn(java));
  }

  /** The loop over the lines of the table. */
  method ParseLines(lines: seq<string>, java: bool) returns (data: seq<seq<string>>)
    ensures data == Rows(lines, java)
  {
    data := [];
    var i := 0;
    while i < |lines|
      invariant 0 <= i <= |lines|
      invariant data == Rows(lines[..i], java)
    {
      var row := ParseRow(lines[i], java);
      if row.Some? {
        data := data + [row.value];
      }
      RowsSnoc(lines[..i], lines[i], java);
      TakeSnoc(lines, i);
      i := i + 1;
    }
    assert lines[..i] == lines;
  }

  /** The body of the loop: one line, trimmed, unbarred, split and trimmed cell by cell. */
  method ParseRow(line: string, java: bool) returns (row: Option<seq<string>>)
    ensures row == ParseLine(line, java)
  {
    var t := Trim(line, java);
    if IsSeparator(t, java) {
      return None;
    }
    ghost var trimmed := t;
    if |t| > 0 && t[0] == '|' {
      t := t[1..];
    }
    if EndsWith(t, "|") {
      t := t[..|t| - 1];
    }
    assert t == Unbar(trimmed);
    var cells := if java then JavaSplit(t, '|') else Split(t, '|');
    var r := TrimCells(cells, java);
    assert r == TrimAll(Pieces(Unbar(trimmed), java), java);
    if r != [] && !(|r| == 1 && r[0] == "") {
      row := Some(r);
    } else {
      row := None;
    }
  }

  /** The loop over the cells of one row. */
  method TrimCells(cells: seq<string>, java: bool) returns (row: seq<string>)
    ensures row == TrimAll(cells, java)
  {
    row := [];
    var k := 0;
    while k < |cells|
      invariant 0 <= k <= |cells|
      invariant row == TrimAll(cells[..k], java)
    {
      row := row + [Trim(cells[k], java)];
      k := k + 1;
      assert cells[..k] == cells[..k - 1] + [cells[k - 1]];
    }
    assert cells[..k] == cells;
  }

  /** A trimmed text is a slice of the text, so it holds no character the text lacks. */
  lemma TrimKeepsOut(s: string, c: char, java: bool)
    requires !Contains(s, c)
    ensures !Contains(Trim(s, java), c)
  {
    var r := Trim(s, java);
    var a := if java then LeadCount(s, IsJavaTrimmed) else LeadCount(s, IsPySpace);
    assert forall k :: 0 <= k < |r| ==> r[k] == s[a + k];
  }

  /** The row of one line, when there is one, holds no '|' in any cell. */
  lemma LineCellsHaveNoBar(line: string, java: bool)
    ensures forall r, j :: r in RowOf(line, java) && 0 <= j < |r| ==> !Contains(r[j], '|')
  {
    var ps := Pieces(Unbar(Trim(line, java)), java);
    forall j | 0 <= j < |ps|
      ensures !Contains(TrimAll(ps, java)[j], '|')
    {
      assert ps[j] in ps;
      TrimKeepsOut(ps[j], '|', java);
    }
  }

  /** No cell of any row holds a '|'. */
  lemma NoCellHoldsBar(lines: seq<string>, java: bool)
    ensures forall r, j :: r in Rows(lines, java) && 0 <= j < |r| ==> !Contains(r[j], '|')
  {
    forall r, j | r in Rows(lines, java) && 0 <= j < |r|
      ensures !Contains(r[j], '|')
    {
      FlattenMember(lines, RowFn(java), r);
      var line :| line in lines && r in RowOf(line, java);
      LineCellsHaveNoBar(line, java);
    }
  }

  /** Every line gives at most one row. */
  lemma AtMostOneRowPerLine(lines: seq<string>, java: bool)
    ensures |Rows(lines, java)| <= |lines|
  {
    FlattenAtMostOne(lines, RowFn(java));
  }

  /** Rows keep the order of their lines: the rows of two blocks of lines are the rows of each, in turn. */
  lemma RowsAppend(a: seq<string>, b: seq<string>, java: bool)
    ensures Rows(a + b, java) == Rows(a, java) + Rows(b, java)
  {
    FlattenAppend(a, b, RowFn(java));
  }

  /** A separator row gives no row. */
  lemma SeparatorSkipped(line: string, java: bool)
    requires IsSeparator(Trim(line, java), java)
    ensures ParseLine(line, java) == None
    ensures Rows([line], java) == []
  {
    assert Rows([line], java) == RowOf(line, java) + Rows([], java) by {
      assert [line][1..] == [];
    }
  }

  /** Every row that is produced is non-empty and not a single empty cell. */
  lemma RowsNonEmpty(lines: seq<string>, java: bool)
    ensures forall r :: r in Rows(lines, java) ==> r != [] && r != [""]
  {
    forall r | r in Rows(lines, java)
      ensures r != [] && r != [""]
    {
      FlattenMember(lines, RowFn(java), r);
    }
  }

  /** The text "| a ||" is its own trim in both dialects. */
  lemma TrailingEmptyCellTrimmed(java: bool)
    ensures Trim("| a ||", java) == "| a ||"
  {
    var t := "| a ||";
    if java {
      assert LeadCount(t, IsJavaTrimmed) == 0 && TrailCount(t, IsJavaTrimmed) == 0;
    } else {
      assert LeadCount(t, IsPySpace) == 0 && TrailCount(t, IsPySpace) == 0;
    }
  }

  /** The text "| a ||" is not a separator, and its bars come off as " a |". */
  lemma TrailingEmptyCellLine(java: bool)
    ensures Trim("| a ||", java) == "| a ||"
    ensures !IsSeparator("| a ||", java)
    ensures Unbar("| a ||") == " a |"
  {
    TrailingEmptyCellTrimmed(java);
    var t := "| a ||";
    assert !SepChar(t[2], java);
  }

  /** " a " trims to "a" and "" to "" in both dialects. */
  lemma TrimSmall(java: bool)
    ensures Trim(" a ", java) == "a" && Trim("", java) == ""
  {
    assert LeadCount(" a ", IsJavaTrimmed) == 1 && TrailCount(" a "[1..], IsJavaTrimmed) == 1;
    assert LeadCount(" a ", IsPySpace) == 1 && TrailCount(" a "[1..], IsPySpace) == 1;
  }

  /** The pieces of " a |": Python keeps the empty piece after the bar, Java drops it. */
  lemma TrailingEmptyPieces()
    ensures Split(" a |", '|') == [" a ", ""]
    ensures JavaSplit(" a |", '|') == [" a "]
  {
    var u := " a |";
    assert IndexOf(u, '|', 0) == 3;
    assert u[..3] == " a " && u[4..] == "";
    assert IndexOf("", '|', 0) == -1;
  }

  /** "| a ||": Java's split loses the trailing empty cell. */
  lemma JavaDropsTrailingEmptyCell()
    ensures ParseLine("| a ||", true) == Some(["a"])
  {
    TrailingEmptyCellLine(true);
    TrailingEmptyPieces();
    assert TrimAll([" a "], true) == ["a"] by {
      TrimSmall(true);
    }
  }

  /** "| a ||": Python's split keeps the trailing empty cell. */
  lemma PyKeepsTrailingEmptyCell()
    ensures ParseLine("| a ||", false) == Some(["a", ""])
  {
    TrailingEmptyCellLine(false);
    TrailingEmptyPieces();
    assert TrimAll([" a ", ""], false) == ["a", ""] by {
      TrimSmall(false);
    }
  }

  /** A lone "|" gives a single empty cell, which is dropped. */
  lemma LoneBarDropped(java: bool)
    ensures ParseLine("|", java) == None
  {
    var t := "|";
    assert Trim(t, java) == t by {
      assert LeadCount(t, IsJavaTrimmed) == 0 && TrailCount(t, IsJavaTrimmed) == 0;
      assert LeadCount(t, IsPySpace) == 0 && TrailCount(t, IsPySpace) == 0;
    }
    assert !Contains(t, '-');
    assert Unbar(t) == "";
    assert IndexOf("", '|', 0) == -1;
    assert Pieces("", java) == [""];
    assert Trim("", java) == "";
  }
}
