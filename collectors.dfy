/**
 * The collectors of the converters: the passes over the Markdown text that
 * fill the parameter store before the document is generated. Each numbers
 * its matches from 1 and binds "image1", "image2", ... (and so on for each
 * kind) in match order; the charts go to the store's separate chart map.
 */
module Collectors {
  import opened Wrappers
  import opened Text
  import opened Charts
  import opened Params
  import opened Lines
  import opened TableParse
  import opened Templates
  import Images
  import E = ECharts

  // ---------------------------------------------------------------------------
  // Keys

  /** Keys of different kinds, or of different numbers, are different strings. */
  lemma KeyInjective(kind: Kind, j: nat, other: Kind, k: nat)
    requires kind != other || j != k
    ensures Key(kind, j) != Key(other, k)
  {
    var a, b := Key(kind, j), Key(other, k);
    if kind != other {
      assert a[0] == KindName(kind)[0] && b[0] == KindName(other)[0];
    } else {
      var n := |KindName(kind)|;
      assert a[n..] == NatToString(j) && b[n..] == NatToString(k);
      NatToStringInjective(j, k);
    }
  }

  /** No numbered key is the document title's key. */
  lemma KeyIsNotTitle(kind: Kind, n: nat)
    ensures Key(kind, n) != "title"
  {
    var a := Key(kind, n);
    assert a[0] == KindName(kind)[0] && a[1] == KindName(kind)[1];
  }

  // ---------------------------------------------------------------------------
  // Binding numbered values

  /** `m` with the values bound, in order, to the keys of `kind` numbered from 1. */
  function Bind(m: map<string, WordParam>, kind: Kind, values: seq<WordParam>): map<string, WordParam>
    decreases |values|
  {
    if values == [] then m
    else Bind(m, kind, values[..|values| - 1])[Key(kind, |values|) := values[|values| - 1]]
  }

  /** Binding one more value binds it under the next number. */
  lemma BindSnoc(m: map<string, WordParam>, kind: Kind, values: seq<WordParam>, v: WordParam)
    ensures Bind(m, kind, values + [v]) == Bind(m, kind, values)[Key(kind, |values| + 1) := v]
  {
    assert (values + [v])[..|values|] == values;
  }

  /** The k-th value is what the k-th key holds. */
  lemma {:induction false} BindAt(m: map<string, WordParam>, kind: Kind, values: seq<WordParam>, k: nat)
    requires 1 <= k <= |values|
    ensures Key(kind, k) in Bind(m, kind, values)
    ensures Bind(m, kind, values)[Key(kind, k)] == values[k - 1]
    decreases |values|
  {
    if k < |values| {
      var prefix := values[..|values| - 1];
      BindAt(m, kind, prefix, k);
      KeyInjective(kind, k, kind, |values|);
    }
  }

  /** A key that is none of the numbered keys keeps its binding, or its absence. */
  lemma {:induction false} BindElsewhere(m: map<string, WordParam>, kind: Kind, values: seq<WordParam>, key: string)
    requires forall k :: 1 <= k <= |values| ==> key != Key(kind, k)
    ensures key in Bind(m, kind, values) <==> key in m
    ensures key in m ==> Bind(m, kind, values)[key] == m[key]
    decreases |values|
  {
    if values != [] {
      BindElsewhere(m, kind, values[..|values| - 1], key);
    }
  }

  /** Numbered keys of one kind leave the keys of every other kind, and the title, as they were. */
  lemma BindOtherKind(m: map<string, WordParam>, kind: Kind, values: seq<WordParam>, other: Kind, n: nat)
    requires other != kind
    ensures Key(other, n) in Bind(m, kind, values) <==> Key(other, n) in m
    ensures Key(other, n) in m ==> Bind(m, kind, values)[Key(other, n)] == m[Key(other, n)]
    ensures "title" in Bind(m, kind, values) <==> "title" in m
    ensures "title" in m ==> Bind(m, kind, values)["title"] == m["title"]
  {
    forall k | 1 <= k <= |values|
      ensures Key(other, n) != Key(kind, k) && "title" != Key(kind, k)
    {
      KeyInjective(other, n, kind, k);
      KeyIsNotTitle(kind, k);
    }
    BindElsewhere(m, kind, values, Key(other, n));
    BindElsewhere(m, kind, values, "title");
  }

  // ---------------------------------------------------------------------------
  // Images (md2doc-core)

  /** `WordParam.image(url)` for each match, in match order; `load` is what loading each classified source gives. */
  function CoreImageValues(matches: seq<ImageMatch>, load: Images.Source -> Loaded): (r: seq<WordParam>)
    ensures |r| == |matches|
    ensures forall i :: 0 <= i < |matches| ==> r[i] == ImageParam(Some(matches[i].url), load)
  {
    seq(|matches|, i requires 0 <= i < |matches| => ImageParam(Some(matches[i].url), load))
  }

  /** A match whose URL is only spaces binds the placeholder, whatever the loader would give. */
  lemma BlankImagePlaceholder(matches: seq<ImageMatch>, load: Images.Source -> Loaded, i: nat)
    requires i < |matches| && JavaBlank(matches[i].url)
    ensures CoreImageValues(matches, load)[i] == ImagePlaceholder(Some(matches[i].url), "图片加载失败")
  {
    BlankSourceGivesPlaceholder(Some(matches[i].url), load, load);
  }

  /** One image more binds its value under the next number. */
  lemma CoreImageValuesSnoc(matches: seq<ImageMatch>, m: ImageMatch, load: Images.Source -> Loaded)
    ensures CoreImageValues(matches + [m], load) == CoreImageValues(matches, load) + [ImageParam(Some(m.url), load)]
  {
  }

  /**
   * `processImages`: every match of the image pattern, found left to right from
   * where the last one ended, binds "image" + n to the picture (or the placeholder
   * text) for its source. The chart tables are not touched.
   */
  method ProcessImages(params: WordParams, markdown: string, load: Images.Source -> Loaded)
    modifies params
    ensures params.params == Bind(old(params.params), ImageKind, CoreImageValues(Lines.Images(markdown, 0, true), load))
    ensures params.charts == old(params.charts)
  {
    var from := 0;
    var index := 1;
    ghost var done: seq<ImageMatch> := [];
    while true
      invariant from <= |markdown| && index == |done| + 1
      invariant done + Lines.Images(markdown, from, true) == Lines.Images(markdown, 0, true)
      invariant params.params == Bind(old(params.params), ImageKind, CoreImageValues(done, load))
      invariant params.charts == old(params.charts)
      decreases |markdown| - from
    {
      var found := FindImage(markdown, from, true);
      if found.None? {
        assert done == done + Lines.Images(markdown, from, true);
        break;
      }
      var m := found.value;
      var source := m.url;
      params.SetParam(Key(ImageKind, index), ImageParam(Some(source), load));
      BindSnoc(old(params.params), ImageKind, CoreImageValues(done, load), ImageParam(Some(source), load));
      CoreImageValuesSnoc(done, m, load);
      assert Lines.Images(markdown, from, true) == [m] + Lines.Images(markdown, m.end, true);
      Assoc(done, [m], Lines.Images(markdown, m.end, true));
      done := done + [m];
      from := m.end;
      index := index + 1;
    }
  }

  // ---------------------------------------------------------------------------
  // Mermaid (md2doc-core)

  const MermaidHeader := "【Mermaid 图表】\n\n"
  const MermaidNote := "\n\n注意: Mermaid 图表已保留原始代码。如需可视化效果,请访问 https://mermaid.live/ 查看。"

  /** The text a Mermaid block is replaced by: a header, the code, and a note on where to view it. */
  function MermaidText(code: string): (r: string)
    ensures |r| == |MermaidHeader| + |code| + |MermaidNote|
  {
    MermaidHeader + code + MermaidNote
  }

  /** The code inside a Mermaid text: what lies between the header and the note. */
  function MermaidCode(text: string): string
    requires |MermaidHeader| + |MermaidNote| <= |text|
  {
    text[|MermaidHeader|..|text| - |MermaidNote|]
  }

  /** The code can be read back out of its text, so different blocks give different texts. */
  lemma MermaidRoundTrip(code: string)
    ensures MermaidCode(MermaidText(code)) == code
    ensures MermaidText(code)[..|MermaidHeader|] == MermaidHeader
  {
    var t := MermaidText(code);
    assert t[|MermaidHeader|..|t| - |MermaidNote|] == code;
  }

  /** The values `processMermaid` binds: the text of each trimmed block. */
  function MermaidValues(blocks: seq<string>): (r: seq<WordParam>)
    ensures |r| == |blocks|
  {
    seq(|blocks|, i requires 0 <= i < |blocks| => Text(MermaidText(JavaTrim(blocks[i]))))
  }

  /**
   * `processMermaid`: the i-th Mermaid block (the group of the i-th match, as
   * given) binds "mermaid" + i to its text.
   */
  method ProcessMermaid(params: WordParams, blocks: seq<string>)
    modifies params
    ensures params.params == Bind(old(params.params), MermaidKind, MermaidValues(blocks))
    ensures params.charts == old(params.charts)
  {
    var values := MermaidValues(blocks);
    for i := 0 to |blocks|
      invariant params.params == Bind(old(params.params), MermaidKind, values[..i])
      invariant params.charts == old(params.charts)
    {
      var content := JavaTrim(blocks[i]);
      params.SetText(Key(MermaidKind, i + 1), Some(MermaidText(content)), false);
      BindSnoc(old(params.params), MermaidKind, values[..i], values[i]);
      TakeSnoc(values, i);
    }
    assert values[..|blocks|] == values;
  }

  /** The i-th Mermaid key holds the i-th block's code, recoverable from its text. */
  lemma MermaidKeyHoldsCode(m: map<string, WordParam>, blocks: seq<string>, i: nat)
    requires 1 <= i <= |blocks|
    ensures Key(MermaidKind, i) in Bind(m, MermaidKind, MermaidValues(blocks))
    ensures var v := Bind(m, MermaidKind, MermaidValues(blocks))[Key(MermaidKind, i)];
      v.Text? && |MermaidHeader| + |MermaidNote| <= |v.msg| && MermaidCode(v.msg) == JavaTrim(blocks[i - 1])
  {
    BindAt(m, MermaidKind, MermaidValues(blocks), i);
    MermaidRoundTrip(JavaTrim(blocks[i - 1]));
  }

  // ---------------------------------------------------------------------------
  // Tables

  /** The values the table passes bind: the rows each table block parses to. */
  function TableValues(blocks: seq<string>, java: bool): (r: seq<WordParam>)
    ensures |r| == |blocks|
  {
    seq(|blocks|, i requires 0 <= i < |blocks| => Table(Rows(TableLines(blocks[i], java), java)))
  }

  /**
   * `processTables` / `_process_tables`: the i-th table block (as given) binds
   * "table" + i to its parsed rows.
   */
  method ProcessTables(params: WordParams, blocks: seq<string>, java: bool)
    modifies params
    ensures params.params == Bind(old(params.params), TableKind, TableValues(blocks, java))
    ensures params.charts == old(params.charts)
  {
    var values := TableValues(blocks, java);
    for i := 0 to |blocks|
      invariant params.params == Bind(old(params.params), TableKind, values[..i])
      invariant params.charts == old(params.charts)
    {
      var data := ParseTable(blocks[i], java);
      params.SetParam(Key(TableKind, i + 1), TableParam(data));
      BindSnoc(old(params.params), TableKind, values[..i], values[i]);
      TakeSnoc(values, i);
    }
    assert values[..|blocks|] == values;
  }

  /** `extract_tables` and `extract_echarts_blocks`: each match stripped. */
  function StripAll(matches: seq<string>): (r: seq<string>)
    ensures |r| == |matches|
    ensures forall i :: 0 <= i < |r| ==> PyStrip(r[i]) == r[i]
  {
    seq(|matches|, i requires 0 <= i < |matches| =>
      StripIdempotent(matches[i], IsPySpace);
      PyStrip(matches[i]))
  }

  // ---------------------------------------------------------------------------
  // ECharts (both Java copies)

  /** The numbered chart keys up to n: "chart1" to "chart" + n. */
  ghost function ChartKeys(n: nat): set<string> {
    if n == 0 then {} else ChartKeys(n - 1) + {Key(ChartKind, n)}
  }

  /** A chart key is among the keys up to n exactly when its number is 1 to n. */
  lemma {:induction false} ChartKeysHold(n: nat, m: nat)
    ensures Key(ChartKind, m) in ChartKeys(n) <==> 1 <= m <= n
    decreases n
  {
    if n > 0 {
      ChartKeysHold(n - 1, m);
      if m != n {
        KeyInjective(ChartKind, m, ChartKind, n);
      }
    }
  }

  /** The next chart key is new, and adding it gives the keys up to the next number. */
  lemma ChartKeysNext(n: nat)
    ensures Key(ChartKind, n + 1) !in ChartKeys(n)
    ensures ChartKeys(n + 1) == ChartKeys(n) + {Key(ChartKind, n + 1)}
    ensures forall k :: 1 <= k <= n ==> Key(ChartKind, k) in ChartKeys(n)
  {
    ChartKeysHold(n, n + 1);
    forall k | 1 <= k <= n
      ensures Key(ChartKind, k) in ChartKeys(n)
    {
      ChartKeysHold(n, k);
    }
  }

  /**
   * The outcomes are those of the configurations. The fact about one index is
   * drawn only where that configuration's conversion is already in view.
   */
  ghost predicate Linked(outs: seq<Outcome<E.Draft>>, configs: seq<string>, parse: E.Parser) {
    |outs| == |configs| &&
    forall i {:trigger E.JavaOutcome(configs[i], parse)} :: 0 <= i < |configs| ==> outs[i] == E.JavaOutcome(configs[i], parse)
  }

  /** What the Java conversion of each configuration gives, in order. */
  ghost function JavaOutcomes(configs: seq<string>, parse: E.Parser): (outs: seq<Outcome<E.Draft>>)
    ensures Linked(outs, configs, parse)
  {
    seq(|configs|, i requires 0 <= i < |configs| => E.JavaOutcome(configs[i], parse))
  }

  /** The index of the first outcome that raised, or the number of outcomes. */
  function FirstRaised(outs: seq<Outcome<E.Draft>>): (n: nat)
    ensures n <= |outs|
    ensures n < |outs| ==> outs[n].Raised?
    ensures forall i :: 0 <= i < n ==> outs[i].Ok?
  {
    FirstFrom(outs, 0, (o: Outcome<E.Draft>) => o.Raised?)
  }

  /** The number of configurations a pass visits: up to and including the first that raises. */
  function Visited(outs: seq<Outcome<E.Draft>>): (n: nat)
    ensures n <= |outs|
    ensures n == if FirstRaised(outs) < |outs| then FirstRaised(outs) + 1 else |outs|
  {
    var stop := FirstRaised(outs);
    if stop < |outs| then stop + 1 else stop
  }

  /** A value holds the draft of an outcome that did not raise. */
  ghost predicate JavaHeld(v: ChartValue, out: Outcome<E.Draft>) {
    out.Ok? && E.JavaHolds(v, out.value)
  }

  /** Each value holds the draft of its outcome, as the Java table does. */
  ghost predicate JavaHoldAll(values: seq<ChartValue>, outs: seq<Outcome<E.Draft>>) {
    |values| <= |outs| &&
    forall j :: 0 <= j < |values| ==> JavaHeld(values[j], outs[j])
  }

  /**
   * `processECharts`: the k-th configuration fills a new table under "chart" + k,
   * until one raises. That one's key holds the default chart, later blocks are
   * not visited, and the exception leaves the pass. The values are not touched.
   */
  method ProcessECharts(params: WordParams, configs: seq<string>, parse: E.Parser) returns (r: Outcome<()>)
    modifies params
    ensures var outs := JavaOutcomes(configs, parse); var n := FirstRaised(outs);
      && (r.Raised? <==> n < |configs|)
      && (r.Raised? ==> r.message == E.ErrorPrefix + outs[n].message)
      && (n < |configs| ==> Key(ChartKind, n + 1) in params.charts && params.charts[Key(ChartKind, n + 1)].Value() == E.DefaultChart(false))
    ensures var outs := JavaOutcomes(configs, parse);
      forall k :: 1 <= k <= FirstRaised(outs) ==>
        && Key(ChartKind, k) in params.charts
        && params.charts[Key(ChartKind, k)].Valid()
        && E.JavaHolds(params.charts[Key(ChartKind, k)].Value(), outs[k - 1].value)
    ensures params.charts.Keys == old(params.charts).Keys + ChartKeys(Visited(JavaOutcomes(configs, parse)))
    ensures forall key :: key in old(params.charts) && key !in ChartKeys(Visited(JavaOutcomes(configs, parse))) ==>
      params.charts[key] == old(params.charts)[key]
    ensures params.params == old(params.params)
  {
    ghost var outs := JavaOutcomes(configs, parse);
    ghost var values, tables;
    r, values, tables := EChartsLoop(params, configs, parse, outs);
    JavaPassDone(params.charts, old(params.charts), tables, values, outs, r);
  }

  /**
   * The loop of `processECharts`, over the outcomes it is to meet. It stops after
   * the first configuration that raises; the tables it leaves under the first keys
   * are `tables`, and those before the one that raised hold `values`.
   */
  method EChartsLoop(params: WordParams, configs: seq<string>, parse: E.Parser, ghost outs: seq<Outcome<E.Draft>>)
    returns (r: Outcome<()>, ghost values: seq<ChartValue>, ghost tables: seq<ChartTable>)
    requires Linked(outs, configs, parse)
    modifies params
    ensures |values| == FirstRaised(outs) && JavaHoldAll(values, outs) && |tables| == Visited(outs)
    ensures params.charts == Placed(old(params.charts), tables)
    ensures forall k :: 0 <= k < |values| ==> tables[k].Valid() && tables[k].Value() == values[k]
    ensures r.Raised? <==> FirstRaised(outs) < |outs|
    ensures r.Raised? ==> r.message == E.ErrorPrefix + outs[FirstRaised(outs)].message
    ensures r.Raised? ==> tables[FirstRaised(outs)].Value() == E.DefaultChart(false)
    ensures params.params == old(params.params)
  {
    values, tables := [], [];
    var i := 0;
    r := Ok(());
    while i < |configs|
      invariant i <= FirstRaised(outs) && |values| == i && |tables| == i && r.Ok?
      invariant JavaHoldAll(values, outs)
      invariant params.charts == Placed(old(params.charts), tables)
      invariant forall k :: 0 <= k < i ==> tables[k].Valid() && tables[k].Value() == values[k]
      invariant params.params == old(params.params)
    {
      ghost var next, more;
      r, next, more := ChartStep(params, configs, parse, outs, old(params.charts), values, tables, i);
      if r.Raised? {
        tables := next;
        return;
      }
      HoldAllSnoc(values, outs, next[i].Value());
      values, tables := more, next;
      i := i + 1;
    }
  }

  /**
   * Where the Java pass ends, its tables and keys are as `processECharts` promises:
   * the tables of the configurations before the first that raises hold their
   * values, the one that raised holds the default chart.
   */
  lemma JavaPassDone(charts: map<string, ChartTable>, start: map<string, ChartTable>, tables: seq<ChartTable>,
                     values: seq<ChartValue>, outs: seq<Outcome<E.Draft>>, r: Outcome<()>)
    requires |values| == FirstRaised(outs) && |tables| == Visited(outs)
    requires charts == Placed(start, tables)
    requires forall k :: 0 <= k < |values| ==> tables[k].Valid() && tables[k].Value() == values[k]
    requires r.Raised? <==> FirstRaised(outs) < |outs|
    requires r.Raised? ==> r.message == E.ErrorPrefix + outs[FirstRaised(outs)].message
    requires r.Raised? ==> tables[FirstRaised(outs)].Value() == E.DefaultChart(false)
    ensures var n := FirstRaised(outs);
      && (r.Raised? <==> n < |outs|)
      && (r.Raised? ==> r.message == E.ErrorPrefix + outs[n].message)
      && (n < |outs| ==> Key(ChartKind, n + 1) in charts && charts[Key(ChartKind, n + 1)].Value() == E.DefaultChart(false))
    ensures forall k :: 1 <= k <= |values| ==>
        && Key(ChartKind, k) in charts
        && charts[Key(ChartKind, k)].Valid()
        && charts[Key(ChartKind, k)].Value() == values[k - 1]
    ensures charts.Keys == start.Keys + ChartKeys(Visited(outs))
    ensures forall key :: key in start && key !in ChartKeys(Visited(outs)) ==> charts[key] == start[key]
  {
    PlacedKeys(start, tables);
  }

  /** One more value that holds its draft. */
  lemma HoldAllSnoc(values: seq<ChartValue>, outs: seq<Outcome<E.Draft>>, v: ChartValue)
    requires JavaHoldAll(values, outs) && |values| < |outs|
    requires JavaHeld(v, outs[|values|])
    ensures JavaHoldAll(values + [v], outs)
  {
    var w := values + [v];
    forall j | 0 <= j < |w|
      ensures JavaHeld(w[j], outs[j])
    {
      if j < |values| {
        assert w[j] == values[j] && JavaHeld(values[j], outs[j]);
      }
    }
  }

  /** The keys of the first charts all differ from the next one. */
  lemma KeysBelow(n: nat)
    ensures forall k :: 1 <= k <= n ==> Key(ChartKind, k) != Key(ChartKind, n + 1)
  {
    forall k | 1 <= k <= n
      ensures Key(ChartKind, k) != Key(ChartKind, n + 1)
    {
      KeyInjective(ChartKind, k, ChartKind, n + 1);
    }
  }

  /**
   * One turn of the Java chart loop: the configuration at `i` is converted into a
   * new table under the next key, and the tables under the earlier keys are the
   * same objects, holding the same values.
   */
  method ChartStep(params: WordParams, configs: seq<string>, parse: E.Parser, ghost outs: seq<Outcome<E.Draft>>,
                   ghost start: map<string, ChartTable>, ghost values: seq<ChartValue>, ghost tables: seq<ChartTable>, i: nat)
    returns (r: Outcome<()>, ghost next: seq<ChartTable>, ghost more: seq<ChartValue>)
    requires i < |configs| == |outs| && outs[i] == E.JavaOutcome(configs[i], parse) && |values| == i && |tables| == i
    requires i <= FirstRaised(outs)
    requires params.charts == Placed(start, tables)
    requires forall k :: 0 <= k < i ==> tables[k].Valid() && tables[k].Value() == values[k]
    modifies params
    ensures |next| == i + 1 && more == values + [next[i].Value()]
    ensures params.charts == Placed(start, next)
    ensures forall k :: 0 <= k <= i ==> next[k].Valid() && next[k].Value() == more[k]
    ensures r.Raised? <==> FirstRaised(outs) == i
    ensures r.Ok? ==> i + 1 <= FirstRaised(outs) && JavaHeld(next[i].Value(), outs[i])
    ensures r.Raised? ==> r.message == E.ErrorPrefix + outs[i].message && next[i].Value() == E.DefaultChart(false)
    ensures params.params == old(params.params)
  {
    r := ConvertAt(params, configs, parse, outs, i);
    var t := params.charts[Key(ChartKind, i + 1)];
    next := tables + [t];
    more := values + [t.Value()];
    assert next[..i] == tables;
    forall k | 0 <= k < i
      ensures next[k].Valid() && next[k].Value() == more[k]
    {
      var u := tables[k];
      assert next[k] == u && more[k] == values[k];
      assert unchanged(u, u.xAxis) && unchanged(u.yAxis.Values);
      assert old(u.Valid()) && old(u.Value()) == values[k];
    }
  }

  /** The chart map after the tables were put, in order, under "chart1", "chart2", … */
  ghost function Placed(start: map<string, ChartTable>, tables: seq<ChartTable>): map<string, ChartTable>
    decreases |tables|
  {
    if tables == [] then start
    else Placed(start, tables[..|tables| - 1])[Key(ChartKind, |tables|) := tables[|tables| - 1]]
  }

  /**
   * After the tables are put, the k-th is under "chart" + k, the keys are those of
   * the start and the first chart keys, and every other key keeps its table.
   */
  lemma {:induction false} PlacedKeys(start: map<string, ChartTable>, tables: seq<ChartTable>)
    ensures forall k :: 1 <= k <= |tables| ==>
      Key(ChartKind, k) in Placed(start, tables) && Placed(start, tables)[Key(ChartKind, k)] == tables[k - 1]
    ensures Placed(start, tables).Keys == start.Keys + ChartKeys(|tables|)
    ensures forall key :: key in start && key !in ChartKeys(|tables|) ==> Placed(start, tables)[key] == start[key]
    decreases |tables|
  {
    if tables != [] {
      var n := |tables| - 1;
      var front := tables[..n];
      PlacedKeys(start, front);
      StepKeys(Placed(start, front), Placed(start, tables), start, front, tables[n], n);
      assert front + [tables[n]] == tables;
    }
  }

  /** The keys after one turn: the tables so far and the new one, under the first keys. */
  lemma StepKeys(before: map<string, ChartTable>, charts: map<string, ChartTable>, start: map<string, ChartTable>,
                 tables: seq<ChartTable>, t: ChartTable, i: nat)
    requires |tables| == i && charts == before[Key(ChartKind, i + 1) := t]
    requires forall k :: 1 <= k <= i ==> Key(ChartKind, k) in before && before[Key(ChartKind, k)] == tables[k - 1]
    requires before.Keys == start.Keys + ChartKeys(i)
    requires forall key :: key in start && key !in ChartKeys(i) ==> before[key] == start[key]
    ensures forall k :: 1 <= k <= i + 1 ==> Key(ChartKind, k) in charts && charts[Key(ChartKind, k)] == (tables + [t])[k - 1]
    ensures charts.Keys == start.Keys + ChartKeys(i + 1)
    ensures forall key :: key in start && key !in ChartKeys(i + 1) ==> charts[key] == start[key]
  {
    ChartKeysNext(i);
    KeysBelow(i);
  }

  /** What one conversion tells of the first outcome that raised. */
  lemma StepOutcome(outs: seq<Outcome<E.Draft>>, i: nat, v: ChartValue, r: Outcome<()>)
    requires i < |outs| && i <= FirstRaised(outs)
    requires E.JavaConverted(v, r, outs[i])
    ensures r.Raised? <==> FirstRaised(outs) == i
    ensures r.Ok? ==> i + 1 <= FirstRaised(outs) && JavaHeld(v, outs[i])
    ensures r.Raised? ==> r.message == E.ErrorPrefix + outs[i].message && v == E.DefaultChart(false)
  {
  }

  /**
   * The Java conversion of the configuration after those the values came from,
   * into the next chart key, and what it tells of the first that raises.
   */
  method ConvertAt(params: WordParams, configs: seq<string>, parse: E.Parser, ghost outs: seq<Outcome<E.Draft>>, i: nat)
    returns (r: Outcome<()>)
    requires i < |configs| == |outs| && outs[i] == E.JavaOutcome(configs[i], parse)
    requires i <= FirstRaised(outs)
    modifies params
    ensures var key := Key(ChartKind, i + 1);
      && key in params.charts && fresh(params.charts[key]) && params.charts[key].Valid()
      && params.charts == old(params.charts)[key := params.charts[key]]
    ensures params.params == old(params.params)
    ensures var v := params.charts[Key(ChartKind, i + 1)].Value();
      && (r.Raised? <==> FirstRaised(outs) == i)
      && (r.Ok? ==> i + 1 <= FirstRaised(outs) && JavaHeld(v, outs[i]))
      && (r.Raised? ==> r.message == E.ErrorPrefix + outs[i].message && v == E.DefaultChart(false))
  {
    r := E.ConvertJava(params, Key(ChartKind, i + 1), configs[i], parse);
    StepOutcome(outs, i, params.charts[Key(ChartKind, i + 1)].Value(), r);
  }
}
