/**
 * Rebinding the charts of a generated document to the chart tables of the
 * parameters (`replaceChart`, `getBarTitle` and `replaceCharts` in both Java
 * copies). A chart part is modelled as its title text and its series; a series
 * as the name the chart gives it, its category labels and its values.
 */
module Rebind {
  import opened Wrappers
  import opened Charts

  datatype Series = Series(name: Option<string>, categories: seq<string>, values: seq<Num>)

  /** A chart part of the document; its title is absent when the chart has none. */
  class Chart {
    var title: Option<string>
    var series: seq<Series>

    constructor (title: Option<string>, series: seq<Series>)
      ensures this.title == title && this.series == series
    {
      this.title := title;
      this.series := series;
    }

    /** `getBarTitle`: the text of the title's first paragraph, or `null` without a title. */
    function BarTitle(): (key: Option<string>)
      reads this
      ensures key.Some? <==> title.Some?
      ensures title.Some? ==> key.value == title.value
    {
      title
    }
  }

  /**
   * What `replaceCharts` does to one series: a series without a name, or whose name
   * has no y axis in the table, is left alone; otherwise it is renamed to the
   * column's title when that differs from its name (a column never titled gives
   * `null`), and its data become the table's x-axis items and the column's items.
   */
  function Rebound(s: Series, t: ChartValue): Series {
    if s.name.None? || s.name.value !in t.y then s
    else
      var col := t.y[s.name.value];
      Series(if col.title == s.name then s.name else col.title, t.x.items, col.items)
  }

  /** Every series, in order. */
  function AllRebound(ss: seq<Series>, t: ChartValue): (r: seq<Series>)
    ensures |r| == |ss|
    ensures forall i :: 0 <= i < |ss| ==> r[i] == Rebound(ss[i], t)
  {
    seq(|ss|, i requires 0 <= i < |ss| => Rebound(ss[i], t))
  }

  /**
   * `replaceCharts(chart, chartTable)`: the chart's title becomes the table's title,
   * then every series is rebound in turn.
   */
  method ReplaceCharts(chart: Chart, t: ChartValue)
    modifies chart
    ensures chart.title == Some(t.title)
    ensures chart.series == AllRebound(old(chart.series), t)
  {
    chart.title := Some(t.title);
    var i := 0;
    while i < |chart.series|
      invariant 0 <= i <= |chart.series| == |old(chart.series)|
      invariant chart.title == Some(t.title)
      invariant forall k :: 0 <= k < i ==> chart.series[k] == Rebound(old(chart.series)[k], t)
      invariant forall k :: i <= k < |chart.series| ==> chart.series[k] == old(chart.series)[k]
    {
      var s := chart.series[i];
      if s.name.Some? && s.name.value in t.y {
        var col := t.y[s.name.value];
        var name := s.name;
        if col.title != s.name {
          name := col.title;
        }
        chart.series := chart.series[i := Series(name, t.x.items, col.items)];
      }
      i := i + 1;
    }
  }

  /**
   * `replaceChart(doc, params)`: every chart whose title text names a chart table is
   * rebound to it; a chart without a title or with an unknown title is left as it is.
   */
  method ReplaceChart(charts: seq<Chart>, tables: map<string, ChartValue>)
    requires forall i, j :: 0 <= i < j < |charts| ==> charts[i] != charts[j]
    modifies set c | c in charts
    ensures forall c :: c in charts && (old(c.title).None? || old(c.title).value !in tables) ==>
      c.title == old(c.title) && c.series == old(c.series)
    ensures forall c :: c in charts && old(c.title).Some? && old(c.title).value in tables ==>
      c.title == Some(tables[old(c.title).value].title) &&
      c.series == AllRebound(old(c.series), tables[old(c.title).value])
  {
    var i := 0;
    while i < |charts|
      invariant 0 <= i <= |charts|
      invariant forall k :: 0 <= k < i && (old(charts[k].title).None? || old(charts[k].title).value !in tables) ==>
        charts[k].title == old(charts[k].title) && charts[k].series == old(charts[k].series)
      invariant forall k :: 0 <= k < i && old(charts[k].title).Some? && old(charts[k].title).value in tables ==>
        charts[k].title == Some(tables[old(charts[k].title).value].title) &&
        charts[k].series == AllRebound(old(charts[k].series), tables[old(charts[k].title).value])
      invariant forall k :: i <= k < |charts| ==>
        charts[k].title == old(charts[k].title) && charts[k].series == old(charts[k].series)
    {
      var chart := charts[i];
      var key := chart.BarTitle();
      if key.Some? && key.value in tables {
        ReplaceCharts(chart, tables[key.value]);
      }
      i := i + 1;
    }
  }

  /**
   * Rebinding twice is rebinding once when every column is titled with its own name,
   * as Python's `new_y_axis` leaves it: the second pass finds the same columns.
   */
  lemma {:induction false} ReboundIdempotent(ss: seq<Series>, t: ChartValue)
    requires forall n :: n in t.y ==> t.y[n].title == Some(n)
    ensures AllRebound(AllRebound(ss, t), t) == AllRebound(ss, t)
  {
    forall i | 0 <= i < |ss|
      ensures Rebound(Rebound(ss[i], t), t) == Rebound(ss[i], t)
    {
    }
  }

  /**
   * A Java column left untitled by `newYAxis` strips the name of every series bound to
   * it, so a second rebinding no longer finds that series.
   */
  lemma UntitledColumnDropsName(n: string, t: ChartValue, s: Series)
    requires n in t.y && t.y[n].title.None?
    requires s.name == Some(n)
    ensures Rebound(s, t).name.None?
    ensures Rebound(Rebound(s, t), t) == Rebound(s, t)
  {
  }
}
