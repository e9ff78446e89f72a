/**
 * The chart data model shared by the extractor and the generator: a titled,
 * append-only column of values, and a chart table made of a title, one
 * category column (the x axis) and named value columns (the y axes).
 *
 * The Java and Python copies differ in one point: Java's `newYAxis` leaves the
 * new column untitled (`null`), Python's `new_y_axis` titles it with its name.
 */
module Charts {
  import opened Wrappers

  /** A `java.lang.Number` / Python `int | float` value of a series. */
  datatype Num = Int(i: int) | Real(r: real)

  /** A column as a value: its title (`null` in Java when never set) and its items. */
  datatype ColumnValue<T> = ColumnValue(title: Option<string>, items: seq<T>)

  /** A chart table as a value, with the y axes in insertion order. */
  datatype ChartValue = ChartValue(
    title: string,
    x: ColumnValue<string>,
    yNames: seq<string>,
    y: map<string, ColumnValue<Num>>)

  /** `ChartColumn` / `chart_column.ChartColumn`: a titled list that only grows. */
  class ChartColumn<T> {
    var title: Option<string>
    var items: seq<T>

    /** `new ChartColumn<>(title)` / `ChartColumn(title)`; `None` is Java's no-argument constructor. */
    constructor (title: Option<string>)
      ensures this.title == title && items == []
    {
      this.title := title;
      items := [];
    }

    function Value(): ColumnValue<T>
      reads this
    {
      ColumnValue(title, items)
    }

    /** `setTitle` / `set_title`: changes the title only and returns the column itself. */
    method SetTitle(t: string) returns (self: ChartColumn<T>)
      modifies this
      ensures self == this
      ensures title == Some(t) && items == old(items)
    {
      title := Some(t);
      self := this;
    }

    /** `size()`: the number of items appended so far. */
    method Size() returns (n: nat)
      ensures n == |items|
    {
      n := |items|;
    }

    /** Both `addAllData` overloads and both Python add methods: append in order. */
    method AddAllData(more: seq<T>)
      modifies this
      ensures items == old(items) + more && title == old(title)
    {
      items := items + more;
    }

    /**
     * `toArray` / `to_array`: a new array with the items in insertion order; writing to
     * it cannot change the column.
     */
    method ToArray() returns (a: array<T>)
      ensures fresh(a)
      ensures a[..] == items
    {
      a := new T[|items|](i requires 0 <= i < |items| reads this => items[i]);
    }
  }

  /** Whether the names are pairwise distinct. */
  predicate Distinct(names: seq<string>) {
    forall i, j :: 0 <= i < j < |names| ==> names[i] != names[j]
  }

  /** The values of the columns of a map, under the same names. */
  function ColumnValues<T>(cols: map<string, ChartColumn<T>>): (r: map<string, ColumnValue<T>>)
    reads cols.Values
    ensures r.Keys == cols.Keys
  {
    map n | n in cols :: cols[n].Value()
  }

  /** Putting a column under a name puts its value under that name. */
  lemma ColumnValuesUpdate<T>(cols: map<string, ChartColumn<T>>, name: string, col: ChartColumn<T>)
    ensures ColumnValues(cols[name := col]) == ColumnValues(cols)[name := col.Value()]
  {
  }

  /** `ChartTable` / `chart_table.ChartTable`. */
  class ChartTable {
    var title: string
    var xAxis: ChartColumn<string>
    var yAxis: map<string, ChartColumn<Num>>
    /** The y-axis names in insertion order (Python's dict order; Java's HashMap has none). */
    var yNames: seq<string>

    ghost predicate Valid()
      reads this
    {
      && Distinct(yNames) && (forall n :: n in yNames <==> n in yAxis)
      && (forall a, b :: a in yAxis && b in yAxis && a != b ==> yAxis[a] != yAxis[b])
    }

    /** `new ChartTable(title)` / `ChartTable(title)`: the title, an empty x axis titled "x轴", no y axes. */
    constructor (title: string)
      ensures Valid()
      ensures this.title == title && fresh(xAxis)
      ensures xAxis.title == Some("x轴") && xAxis.items == []
      ensures yAxis == map[] && yNames == []
    {
      this.title := title;
      xAxis := new ChartColumn(Some("x轴"));
      yAxis := map[];
      yNames := [];
    }

    /** The table as a value, for specifications that compare tables. */
    function Value(): ChartValue
      reads this, xAxis, yAxis.Values
    {
      ChartValue(title, xAxis.Value(), yNames, ColumnValues(yAxis))
    }

    /** `setTitle` / `set_title`: changes the title only and returns the table itself. */
    method SetTitle(t: string) returns (self: ChartTable)
      modifies this
      ensures self == this
      ensures title == t && xAxis == old(xAxis) && yAxis == old(yAxis) && yNames == old(yNames)
    {
      title := t;
      self := this;
    }

    /**
     * `newYAxis(name)` (Java, `titled` false: the column's title stays `null`) and
     * `new_y_axis(name)` (Python, `titled` true: the column is titled `name`). A fresh
     * empty column replaces any column of the same name; a replaced name keeps its
     * place in the order.
     */
    method NewYAxis(name: string, titled: bool) returns (col: ChartColumn<Num>)
      requires Valid()
      modifies this
      ensures Valid()
      ensures fresh(col) && col.items == []
      ensures col.title == (if titled then Some(name) else None)
      ensures yAxis == old(yAxis)[name := col]
      ensures yNames == if name in old(yAxis) then old(yNames) else old(yNames) + [name]
      ensures title == old(title) && xAxis == old(xAxis)
    {
      col := new ChartColumn(if titled then Some(name) else None);
      if name !in yAxis {
        yNames := yNames + [name];
      }
      yAxis := yAxis[name := col];
    }

    /** `getYAxis` / `get_y_axis`: the column of that name, or `null`/`None`. */
    method GetYAxis(name: string) returns (col: Option<ChartColumn<Num>>)
      ensures name in yAxis ==> col == Some(yAxis[name])
      ensures name !in yAxis ==> col == None
    {
      col := if name in yAxis then Some(yAxis[name]) else None;
    }
  }

  /** Filling a column and reading it back gives the items in order and their number. */
  method FillColumn<T>(first: seq<T>, second: seq<T>) returns (items: seq<T>, n: nat)
    ensures items == first + second
    ensures n == |first| + |second|
  {
    var c := new ChartColumn<T>(None);
    c.AddAllData(first);
    c.AddAllData(second);
    n := c.Size();
    var a := c.ToArray();
    items := a[..];
  }

  /** Writing into the array `toArray` returned leaves the column as it was. */
  method ArrayIsCopy<T>(items: seq<T>, v: T) returns (copy: seq<T>, kept: seq<T>)
    requires items != []
    ensures copy == [v] + items[1..]
    ensures kept == items
  {
    var c := new ChartColumn<T>(None);
    c.AddAllData(items);
    var a := c.ToArray();
    a[0] := v;
    copy := a[..];
    kept := c.items;
  }
}
