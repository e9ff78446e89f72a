/**
 * The Word tables the generators build from a table parameter (rows of cell
 * texts) and, in the Python service, from a chart table. A table is modelled
 * as its rows of cells; each cell is either left as the library created it, or
 * filled with one paragraph of text with its shading, alignment and weight.
 * Fonts, sizes, borders and widths are left out.
 */
module Tables {
  import opened Wrappers
  import opened Numbers
  import opened Charts

  datatype Align = Centered | LeftAligned

  datatype Cell =
    | Blank
    | Filled(text: string, fill: Option<string>, align: Align, bold: bool)

  /** The header shading of both Java copies and of the Python table parameter. */
  const HeaderFill := "B4C6E7"

  function Max(a: nat, b: nat): nat {
    if a < b then b else a
  }

  /**
   * The cell `createTable` writes for item `text` of row `i`: in md2doc-core the
   * text passes through `formatTableNumber` (`df` formats one number), the header
   * row is shaded, bold and centred and other rows are left-aligned; the older
   * copy writes the text as it is, centred, with no shading and no bold.
   */
  function JavaCell(core: bool, i: nat, text: string, df: string -> string): Cell {
    if core then
      Filled(Render(Tokens(text), df), if i == 0 then Some(HeaderFill) else None,
             if i == 0 then Centered else LeftAligned, i == 0)
    else Filled(text, None, Centered, false)
  }

  /** The width row `i` ends with: the first row's width, grown to the row's own data. */
  function RowWidth(first: Option<nat>, data: seq<seq<string>>, i: nat): nat
    requires i < |data|
  {
    var w0 := Max(first.GetOr(0), |data[0]|);
    if i == 0 then w0 else Max(w0, |data[i]|)
  }

  /**
   * `createTable(paragraph, tableData)` of both Java copies, on a table the library
   * has just inserted: `first` is the cell count of its existing first row, or
   * `None` when it has no row. Row 0 reuses the existing row (or creates one); every
   * later row is created with as many cells as row 0 has, and each row is grown with
   * `addNewTableCell` until it has a cell per item. Item `j` of row `i` then fills
   * cell `j`; any extra cell stays blank.
   */
  method CreateTable(core: bool, first: Option<nat>, data: seq<seq<string>>, df: string -> string)
      returns (rows: seq<seq<Cell>>)
    ensures data == [] ==> rows == (if first.Some? then [seq(first.value, _ => Blank)] else [])
    ensures data != [] ==> |rows| == |data|
    ensures forall i :: 0 <= i < |data| && data != [] ==> |rows[i]| == RowWidth(first, data, i) >= |data[i]|
    ensures forall i, j :: 0 <= i < |data| && 0 <= j < |data[i]| && data != [] ==>
      rows[i][j] == JavaCell(core, i, data[i][j], df)
    ensures forall i, j :: 0 <= i < |data| && |data[i]| <= j < |rows[i]| && data != [] ==> rows[i][j] == Blank
  {
    rows := if first.Some? then [seq(first.value, _ => Blank)] else [];
    var i := 0;
    while i < |data|
      invariant 0 <= i <= |data|
      invariant i == 0 ==> rows == (if first.Some? then [seq(first.value, _ => Blank)] else [])
      invariant i > 0 ==> |rows| == i
      invariant forall r :: 0 <= r < i ==> |rows[r]| == RowWidth(first, data, r)
      invariant forall r, j :: 0 <= r < i && 0 <= j < |data[r]| ==> rows[r][j] == JavaCell(core, r, data[r][j], df)
      invariant forall r, j :: 0 <= r < i && |data[r]| <= j < |rows[r]| ==> rows[r][j] == Blank
    {
      var row: seq<Cell>;
      if i == 0 {
        row := if rows == [] then [] else rows[0];
      } else {
        row := seq(|rows[0]|, _ => Blank);
      }
      while |row| < |data[i]|
        invariant forall j :: 0 <= j < |row| ==> row[j] == Blank
        invariant |row| == (if i == 0 then first.GetOr(0) else RowWidth(first, data, 0)) || |row| <= |data[i]|
        decreases |data[i]| - |row|
      {
        row := row + [Blank];
      }
      assert |row| == RowWidth(first, data, i);
      var j := 0;
      while j < |data[i]|
        invariant 0 <= j <= |data[i]| <= |row|
        invariant |row| == RowWidth(first, data, i)
        invariant forall k :: 0 <= k < j ==> row[k] == JavaCell(core, i, data[i][k], df)
        invariant forall k :: j <= k < |row| ==> row[k] == Blank
      {
        var text := data[i][j];
        if core {
          var formatted := FormatTableNumber(Some(text), df);
          text := formatted.value;
        }
        row := row[j := JavaCell(core, i, data[i][j], df)];
        assert row[j].text == text;
        j := j + 1;
      }
      rows := if i == 0 then [row] else rows + [row];
      i := i + 1;
    }
  }

  /**
   * `_replace_with_table` (Python): one row per data row, one cell per item, every
   * cell centred with its text as given, and the header row shaded.
   */
  method PyTableRows(data: seq<seq<string>>) returns (rows: seq<seq<Cell>>, gridColumns: nat)
    ensures rows == PyTable(data)
    ensures |rows| == |data|
    ensures forall i :: 0 <= i < |data| ==> |rows[i]| == |data[i]|
    ensures forall i, j :: 0 <= i < |data| && 0 <= j < |data[i]| ==>
      rows[i][j] == Filled(data[i][j], if i == 0 then Some(HeaderFill) else None, Centered, false)
    ensures gridColumns == if data == [] then 0 else |data[0]|
  {
    gridColumns := if data == [] then 0 else |data[0]|;
    rows := [];
    var i := 0;
    while i < |data|
      invariant 0 <= i <= |data| && |rows| == i
      invariant forall r :: 0 <= r < i ==> |rows[r]| == |data[r]|
      invariant forall r, j :: 0 <= r < i && 0 <= j < |data[r]| ==>
        rows[r][j] == Filled(data[r][j], if r == 0 then Some(HeaderFill) else None, Centered, false)
    {
      var tr: seq<Cell> := [];
      var j := 0;
      while j < |data[i]|
        invariant 0 <= j <= |data[i]| && |tr| == j
        invariant forall k :: 0 <= k < j ==>
          tr[k] == Filled(data[i][k], if i == 0 then Some(HeaderFill) else None, Centered, false)
      {
        tr := tr + [Filled(data[i][j], if i == 0 then Some(HeaderFill) else None, Centered, false)];
        j := j + 1;
      }
      rows := rows + [tr];
      i := i + 1;
    }
    var spec := PyTable(data);
    forall r | 0 <= r < |data|
      ensures rows[r] == spec[r]
    {
      assert |rows[r]| == |spec[r]|;
    }
  }

  /** The cells of a Python table parameter, row by row. */
  function PyTable(data: seq<seq<string>>): (rows: seq<seq<Cell>>)
    ensures |rows| == |data|
  {
    seq(|data|, i requires 0 <= i < |data| =>
      seq(|data[i]|, j requires 0 <= j < |data[i]| =>
        Filled(data[i][j], if i == 0 then Some(HeaderFill) else None, Centered, false)))
  }

  /** Item `i` of a series printed by `str`, or "" past its end. */
  function Shown(items: seq<Num>, i: nat, show: Num -> string): string {
    if i < |items| then show(items[i]) else ""
  }

  /** The grid of a chart table, header row first. */
  function ChartGrid(x: seq<string>, names: seq<string>, y: map<string, ColumnValue<Num>>, show: Num -> string)
      : (rows: seq<seq<string>>)
    requires forall n :: n in names ==> n in y
    ensures |rows| == |x| + 1
  {
    [["类别"] + names] +
    seq(|x|, i requires 0 <= i < |x| =>
      [x[i]] + seq(|names|, k requires 0 <= k < |names| => Shown(y[names[k]].items, i, show)))
  }

  /**
   * The rows `_create_chart_in_paragraph` (Python) turns a chart table into: a header
   * "类别" followed by the series names in insertion order, then one row per
   * category holding the category and, per series, its value at that position
   * printed by `str` (`show`), or "" when the series is shorter.
   */
  method ChartRows(x: seq<string>, names: seq<string>, y: map<string, ColumnValue<Num>>, show: Num -> string)
      returns (rows: seq<seq<string>>)
    requires forall n :: n in names ==> n in y
    ensures rows == ChartGrid(x, names, y, show)
    ensures |rows| == |x| + 1
    ensures rows[0] == ["类别"] + names
    ensures forall i :: 1 <= i <= |x| ==> |rows[i]| == |names| + 1 && rows[i][0] == x[i - 1]
    ensures forall i, k :: 1 <= i <= |x| && 1 <= k <= |names| ==>
      k < |rows[i]| && rows[i][k] == Shown(y[names[k - 1]].items, i - 1, show)
  {
    var header := ["类别"];
    var k := 0;
    while k < |names|
      invariant 0 <= k <= |names| && header == ["类别"] + names[..k]
    {
      assert names[..k + 1] == names[..k] + [names[k]];
      header := header + [names[k]];
      k := k + 1;
    }
    assert names[..k] == names;
    rows := [header];
    var i := 0;
    while i < |x|
      invariant 0 <= i <= |x| && |rows| == i + 1 && rows[0] == ["类别"] + names
      invariant forall r :: 1 <= r <= i ==> |rows[r]| == |names| + 1 && rows[r][0] == x[r - 1]
      invariant forall r, c :: 1 <= r <= i && 1 <= c <= |names| ==>
        c < |rows[r]| && rows[r][c] == Shown(y[names[c - 1]].items, r - 1, show)
    {
      var row := [x[i]];
      var c := 0;
      while c < |names|
        invariant 0 <= c <= |names| && |row| == c + 1 && row[0] == x[i]
        invariant forall d :: 1 <= d <= c ==> row[d] == Shown(y[names[d - 1]].items, i, show)
      {
        var column := y[names[c]].items;
        row := row + [if i < |column| then show(column[i]) else ""];
        c := c + 1;
      }
      rows := rows + [row];
      i := i + 1;
    }
    var spec := ChartGrid(x, names, y, show);
    forall r | 1 <= r <= |x|
      ensures rows[r] == spec[r]
    {
      assert |rows[r]| == |spec[r]|;
    }
  }
}
