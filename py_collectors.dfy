/**
 * The collectors of the Python service's converter. The ECharts pass first asks
 * a renderer for a picture of each chart and falls back to a chart table only
 * when rendering fails; the image pass binds a picture or a failure text for
 * each image; any exception ends a pass without leaving it.
 */
module PyCollectors {
  import opened Wrappers
  import opened Text
  import opened Charts
  import opened Params
  import opened Lines
  import opened Templates
  import opened Collectors
  import E = ECharts

  /** A rendered or processed picture: its bytes, width and height. */
  type Picture = (Bytes, int, int)

  /** `WordParams.image(data, width, height)`: the picture as it is. */
  function PictureParam(p: Picture): (r: WordParam)
    ensures r.Image? && r.content == p.0 && r.width == p.1 && r.height == p.2
  {
    Image(p.0, p.1, p.2)
  }

  // ---------------------------------------------------------------------------
  // Images

  const FailedPrefix := "[图片加载失败: "

  /** The text bound when an image cannot be processed: it names the image's alt text. */
  function FailedText(alt: string): (r: string)
    ensures |r| == |FailedPrefix| + |alt| + 1
  {
    FailedPrefix + alt + "]"
  }

  /** The alt text inside a failure text. */
  function FailedAlt(text: string): string
    requires |FailedPrefix| + 1 <= |text|
  {
    text[|FailedPrefix|..|text| - 1]
  }

  /** The alt text can be read back out of the failure text. */
  lemma FailedRoundTrip(alt: string)
    ensures FailedAlt(FailedText(alt)) == alt
    ensures FailedText(alt)[..|FailedPrefix|] == FailedPrefix
  {
    var t := FailedText(alt);
    assert t[|FailedPrefix|..|t| - 1] == alt;
  }

  /**
   * The value `_process_images` binds for an image: the processed picture, or
   * the failure text naming its alt text.
   */
  function PyImageValue(image: (string, string, string), process: string -> Option<Picture>): WordParam {
    var result := process(image.1);
    if result.Some? then PictureParam(result.value) else Text(FailedText(image.0))
  }

  /** The values `_process_images` binds, in the order `extract_images` gives the images. */
  function PyImageValues(images: seq<(string, string, string)>, process: string -> Option<Picture>): (r: seq<WordParam>)
    ensures |r| == |images|
  {
    seq(|images|, i requires 0 <= i < |images| => PyImageValue(images[i], process))
  }

  /**
   * `_process_images`: the i-th image binds "image" + i to its picture when its
   * source could be processed, and to the failure text otherwise. `process` is
   * what `ImageDownloader.process_image` gives for a source.
   */
  method PyProcessImages(params: WordParams, markdown: string, process: string -> Option<Picture>)
    modifies params
    ensures params.params == Bind(old(params.params), ImageKind, PyImageValues(PyExtractImages(markdown), process))
    ensures params.charts == old(params.charts)
  {
    var images := PyExtractImages(markdown);
    PyBindImages(params, images, process);
  }

  /** The loop of `_process_images`, over the images `extract_images` found. */
  method PyBindImages(params: WordParams, images: seq<(string, string, string)>, process: string -> Option<Picture>)
    modifies params
    ensures params.params == Bind(old(params.params), ImageKind, PyImageValues(images, process))
    ensures params.charts == old(params.charts)
  {
    ghost var values := PyImageValues(images, process);
    for i := 0 to |images|
      invariant params.params == Bind(old(params.params), ImageKind, values[..i])
      invariant params.charts == old(params.charts)
    {
      PyImageStep(params, Key(ImageKind, i + 1), images[i], process);
      BindSnoc(old(params.params), ImageKind, values[..i], values[i]);
      TakeSnoc(values, i);
    }
    assert values[..|images|] == values;
  }

  /** One image of `_process_images`: its key is bound to its picture or to its failure text. */
  method PyImageStep(params: WordParams, key: string, image: (string, string, string), process: string -> Option<Picture>)
    modifies params
    ensures params.params == old(params.params)[key := PyImageValue(image, process)]
    ensures params.charts == old(params.charts)
  {
    var result := process(image.1);
    if result.Some? {
      params.SetParam(key, PictureParam(result.value));
    } else {
      params.SetText(key, Some(FailedText(image.0)), true);
    }
  }

  /** The i-th image key holds the picture, or a failure text from which the alt text can be read. */
  lemma PyImageKeyHolds(m: map<string, WordParam>, images: seq<(string, string, string)>, process: string -> Option<Picture>, i: nat)
    requires 1 <= i <= |images|
    ensures var b := Bind(m, ImageKind, PyImageValues(images, process));
      && Key(ImageKind, i) in b
      && (process(images[i - 1].1).Some? ==> b[Key(ImageKind, i)] == PictureParam(process(images[i - 1].1).value))
      && (process(images[i - 1].1).None? ==>
            b[Key(ImageKind, i)].Text? && |FailedPrefix| + 1 <= |b[Key(ImageKind, i)].msg| &&
            FailedAlt(b[Key(ImageKind, i)].msg) == images[i - 1].0)
  {
    BindAt(m, ImageKind, PyImageValues(images, process), i);
    FailedRoundTrip(images[i - 1].0);
  }

  // ---------------------------------------------------------------------------
  // Binding only some of the numbers

  /** `m` with the present values bound to the keys of `kind` numbered from 1; absent ones bind nothing. */
  function BindSome(m: map<string, WordParam>, kind: Kind, values: seq<Option<WordParam>>): map<string, WordParam>
    decreases |values|
  {
    if values == [] then m
    else
      var rest := BindSome(m, kind, values[..|values| - 1]);
      var last := values[|values| - 1];
      if last.Some? then rest[Key(kind, |values|) := last.value] else rest
  }

  /** One more value: bound under the next number when present, nothing otherwise. */
  lemma BindSomeSnoc(m: map<string, WordParam>, kind: Kind, values: seq<Option<WordParam>>, v: Option<WordParam>)
    ensures BindSome(m, kind, values + [v]) ==
      if v.Some? then BindSome(m, kind, values)[Key(kind, |values| + 1) := v.value] else BindSome(m, kind, values)
  {
    assert (values + [v])[..|values|] == values;
  }

  /**
   * The k-th key holds the k-th value when it is present, and keeps its binding
   * (or its absence) when it is not.
   */
  lemma {:induction false} BindSomeAt(m: map<string, WordParam>, kind: Kind, values: seq<Option<WordParam>>, k: nat)
    requires 1 <= k <= |values|
    ensures values[k - 1].Some? ==> Key(kind, k) in BindSome(m, kind, values) && BindSome(m, kind, values)[Key(kind, k)] == values[k - 1].value
    ensures values[k - 1].None? ==> (Key(kind, k) in BindSome(m, kind, values) <==> Key(kind, k) in m)
    ensures values[k - 1].None? && Key(kind, k) in m ==> BindSome(m, kind, values)[Key(kind, k)] == m[Key(kind, k)]
    decreases |values|
  {
    var prefix := values[..|values| - 1];
    if k < |values| {
      BindSomeAt(m, kind, prefix, k);
      KeyInjective(kind, k, kind, |values|);
    } else {
      forall j | 1 <= j <= |prefix|
        ensures Key(kind, k) != Key(kind, j)
      {
        KeyInjective(kind, k, kind, j);
      }
      BindSomeElsewhere(m, kind, prefix, Key(kind, k));
    }
  }

  /** A key that is none of the numbered keys keeps its binding, or its absence. */
  lemma {:induction false} BindSomeElsewhere(m: map<string, WordParam>, kind: Kind, values: seq<Option<WordParam>>, key: string)
    requires forall k :: 1 <= k <= |values| ==> key != Key(kind, k)
    ensures key in BindSome(m, kind, values) <==> key in m
    ensures key in m ==> BindSome(m, kind, values)[key] == m[key]
    decreases |values|
  {
    if values != [] {
      BindSomeElsewhere(m, kind, values[..|values| - 1], key);
    }
  }

  // ---------------------------------------------------------------------------
  // ECharts

  /** What the renderer gives for each configuration, in order. */
  function Renders(configs: seq<string>, render: string -> Option<Picture>): (r: seq<Option<Picture>>)
    ensures |r| == |configs|
  {
    seq(|configs|, i requires 0 <= i < |configs| => render(configs[i]))
  }

  /** The values a render pass binds: a picture for each rendered configuration, nothing for the others. */
  function RenderedValues(renders: seq<Option<Picture>>): (r: seq<Option<WordParam>>)
    ensures |r| == |renders|
    ensures forall i :: 0 <= i < |r| ==> (r[i].Some? <==> renders[i].Some?)
  {
    seq(|renders|, i requires 0 <= i < |renders| => if renders[i].Some? then Some(PictureParam(renders[i].value)) else None)
  }

  /**
   * The outcomes are those of the Python conversion of the configurations; the
   * fact about one index is drawn only where its conversion is in view.
   */
  ghost predicate PyLinked(outs: seq<Outcome<E.Draft>>, configs: seq<string>, parse: E.Parser) {
    |outs| == |configs| &&
    forall i {:trigger E.PyOutcome(configs[i], parse)} :: 0 <= i < |configs| ==> outs[i] == E.PyOutcome(configs[i], parse)
  }

  /** What the Python conversion of each configuration gives, in order. */
  ghost function PyOutcomes(configs: seq<string>, parse: E.Parser): (outs: seq<Outcome<E.Draft>>)
    ensures PyLinked(outs, configs, parse)
  {
    seq(|configs|, i requires 0 <= i < |configs| => E.PyOutcome(configs[i], parse))
  }

  /** Whether the pass stops at a configuration: it could not be rendered and its conversion raised. */
  predicate Stops(render: Option<Picture>, out: Outcome<E.Draft>) {
    render.None? && out.Raised?
  }

  /** The index of the first configuration the pass stops at, or the number of configurations. */
  function PyStop(renders: seq<Option<Picture>>, outs: seq<Outcome<E.Draft>>): (n: nat)
    requires |renders| == |outs|
    ensures n <= |outs|
    ensures n < |outs| ==> Stops(renders[n], outs[n])
    ensures forall i :: 0 <= i < n ==> !Stops(renders[i], outs[i])
  {
    FirstFrom(StopFlags(renders, outs), 0, (b: bool) => b)
  }

  /** For each configuration, whether the pass stops there. */
  function StopFlags(renders: seq<Option<Picture>>, outs: seq<Outcome<E.Draft>>): (r: seq<bool>)
    requires |renders| == |outs|
    ensures |r| == |outs|
    ensures forall i :: 0 <= i < |r| ==> r[i] == Stops(renders[i], outs[i])
  {
    seq(|outs|, i requires 0 <= i < |outs| => Stops(renders[i], outs[i]))
  }

  /** The number of configurations the pass visits: up to and including the one it stops at. */
  function PyVisited(renders: seq<Option<Picture>>, outs: seq<Outcome<E.Draft>>): (n: nat)
    requires |renders| == |outs|
    ensures n <= |outs|
    ensures n == if PyStop(renders, outs) < |outs| then PyStop(renders, outs) + 1 else |outs|
  {
    var stop := PyStop(renders, outs);
    if stop < |outs| then stop + 1 else stop
  }

  /** The keys of the tables among the first n configurations: those that were not rendered. */
  ghost function TableKeys(renders: seq<Option<Picture>>, n: nat): set<string>
    requires n <= |renders|
  {
    set k | 1 <= k <= n && renders[k - 1].None? :: Key(ChartKind, k)
  }

  /** One configuration more adds its key when it was not rendered. */
  lemma TableKeysNext(renders: seq<Option<Picture>>, n: nat)
    requires n < |renders|
    ensures TableKeys(renders, n + 1) == TableKeys(renders, n) + (if renders[n].None? then {Key(ChartKind, n + 1)} else {})
  {
  }

  /** A key outside the first n table keys is not the key of a later-numbered chart. */
  lemma TableKeysBelow(renders: seq<Option<Picture>>, n: nat)
    requires n < |renders|
    ensures Key(ChartKind, n + 1) !in TableKeys(renders, n)
  {
    if Key(ChartKind, n + 1) in TableKeys(renders, n) {
      var k :| 1 <= k <= n && renders[k - 1].None? && Key(ChartKind, k) == Key(ChartKind, n + 1);
      KeyInjective(ChartKind, k, ChartKind, n + 1);
    }
  }

  /** The table Python leaves for an outcome: its chart, or the default chart when it raised. */
  function PyTable(out: Outcome<E.Draft>): (v: ChartValue)
    ensures out.Ok? ==> v == E.PyChart(out.value)
    ensures out.Raised? ==> v == E.DefaultChart(true)
  {
    if out.Ok? then E.PyChart(out.value) else E.DefaultChart(true)
  }

  /**
   * `_process_echarts`: the k-th configuration (stripped, in order) binds
   * "chart" + k to its rendered picture; one that cannot be rendered becomes a
   * chart table under the same key in the chart map. The first of those whose
   * conversion raises ends the pass, its table holding the default chart, and
   * the exception is swallowed. `render` is what `EChartsRenderer.render_chart`
   * gives for a configuration.
   */
  method PyProcessECharts(params: WordParams, configs: seq<string>, parse: E.Parser, render: string -> Option<Picture>)
    modifies params
    ensures var renders := Renders(configs, render); var v := PyVisited(renders, PyOutcomes(configs, parse));
      params.params == BindSome(old(params.params), ChartKind, RenderedValues(renders)[..v])
    ensures var renders := Renders(configs, render); var outs := PyOutcomes(configs, parse);
      forall k :: 1 <= k <= PyVisited(renders, outs) && renders[k - 1].None? ==>
        && Key(ChartKind, k) in params.charts
        && params.charts[Key(ChartKind, k)].Valid()
        && params.charts[Key(ChartKind, k)].Value() == PyTable(outs[k - 1])
    ensures var renders := Renders(configs, render);
      params.charts.Keys == old(params.charts).Keys + TableKeys(renders, PyVisited(renders, PyOutcomes(configs, parse)))
    ensures var renders := Renders(configs, render);
      forall key :: key in old(params.charts) && key !in TableKeys(renders, PyVisited(renders, PyOutcomes(configs, parse))) ==>
        params.charts[key] == old(params.charts)[key]
  {
    ghost var outs := PyOutcomes(configs, parse);
    PyEChartsLoop(params, configs, parse, render, outs, Renders(configs, render));
  }

  /** The loop of `_process_echarts`, over the outcomes and renders it is to meet. */
  method PyEChartsLoop(params: WordParams, configs: seq<string>, parse: E.Parser, render: string -> Option<Picture>,
                       ghost outs: seq<Outcome<E.Draft>>, ghost renders: seq<Option<Picture>>)
    requires PyLinked(outs, configs, parse) && renders == Renders(configs, render)
    modifies params
    ensures params.params == BindSome(old(params.params), ChartKind, RenderedValues(renders)[..PyVisited(renders, outs)])
    ensures forall k :: 1 <= k <= PyVisited(renders, outs) && renders[k - 1].None? ==>
        && Key(ChartKind, k) in params.charts
        && params.charts[Key(ChartKind, k)].Valid()
        && params.charts[Key(ChartKind, k)].Value() == PyTable(outs[k - 1])
    ensures params.charts.Keys == old(params.charts).Keys + TableKeys(renders, PyVisited(renders, outs))
    ensures forall key :: key in old(params.charts) && key !in TableKeys(renders, PyVisited(renders, outs)) ==>
        params.charts[key] == old(params.charts)[key]
  {
    ghost var tables: seq<Option<ChartTable>> := [];
    var i := 0;
    var going := true;
    while going && i < |configs|
      invariant i <= |configs|
      invariant going ==> i <= PyStop(renders, outs)
      invariant !going ==> i == PyStop(renders, outs) + 1
      invariant TablesAt(params.charts, renders, tables, i)
      invariant forall k :: 0 <= k < i && tables[k].Some? ==> tables[k].value.Valid() && tables[k].value.Value() == PyTable(outs[k])
      invariant params.params == BindSome(old(params.params), ChartKind, RenderedValues(renders)[..i])
      invariant KeysAt(params.charts, old(params.charts), renders, i)
      decreases |configs| - i
    {
      var stop;
      ghost var next;
      stop, next := PyChartStep(params, configs, parse, render, outs, renders, old(params.params), old(params.charts), tables, i);
      tables := next;
      i := i + 1;
      going := !stop;
    }
    assert i == PyVisited(renders, outs);
  }

  /** The tables made among the first n configurations, each under its key in the chart map. */
  ghost predicate TablesAt(charts: map<string, ChartTable>, renders: seq<Option<Picture>>, tables: seq<Option<ChartTable>>, n: nat) {
    && |tables| == n <= |renders|
    && forall j :: 0 <= j < n && renders[j].None? ==>
        tables[j].Some? && Key(ChartKind, j + 1) in charts && charts[Key(ChartKind, j + 1)] == tables[j].value
  }

  /** The chart map holds the starting keys and the table keys of the first n configurations, and leaves the rest as they were. */
  ghost predicate KeysAt(charts: map<string, ChartTable>, start: map<string, ChartTable>, renders: seq<Option<Picture>>, n: nat) {
    && n <= |renders|
    && charts.Keys == start.Keys + TableKeys(renders, n)
    && forall key :: key in start && key !in TableKeys(renders, n) ==> charts[key] == start[key]
  }

  /**
   * One turn of the Python chart loop: the configuration at `i` is rendered into
   * a picture, or converted into a new table; the earlier tables are the same
   * objects, holding the same values.
   */
  method PyChartStep(params: WordParams, configs: seq<string>, parse: E.Parser, render: string -> Option<Picture>,
                     ghost outs: seq<Outcome<E.Draft>>, ghost renders: seq<Option<Picture>>,
                     ghost values: map<string, WordParam>, ghost start: map<string, ChartTable>,
                     ghost tables: seq<Option<ChartTable>>, i: nat)
    returns (stop: bool, ghost next: seq<Option<ChartTable>>)
    requires PyLinked(outs, configs, parse) && renders == Renders(configs, render)
    requires i < |configs| && i <= PyStop(renders, outs)
    requires TablesAt(params.charts, renders, tables, i)
    requires forall k :: 0 <= k < i && tables[k].Some? ==> tables[k].value.Valid() && tables[k].value.Value() == PyTable(outs[k])
    requires params.params == BindSome(values, ChartKind, RenderedValues(renders)[..i])
    requires KeysAt(params.charts, start, renders, i)
    modifies params
    ensures stop <==> PyStop(renders, outs) == i
    ensures TablesAt(params.charts, renders, next, i + 1)
    ensures forall k :: 0 <= k <= i && next[k].Some? ==> next[k].value.Valid() && next[k].value.Value() == PyTable(outs[k])
    ensures params.params == BindSome(values, ChartKind, RenderedValues(renders)[..i + 1])
    ensures KeysAt(params.charts, start, renders, i + 1)
  {
    PyStopAt(renders, outs, i);
    var result := render(configs[i]);
    assert result == renders[i];
    if result.Some? {
      next := PyRenderStep(params, result.value, outs, renders, values, start, tables, i);
      stop := false;
    } else {
      stop, next := PyTableStep(params, configs, parse, outs, renders, values, start, tables, i);
    }
  }

  /** A turn that rendered a picture: it is bound under the chart's key, and the chart map is left as it was. */
  method PyRenderStep(params: WordParams, picture: Picture,
                      ghost outs: seq<Outcome<E.Draft>>, ghost renders: seq<Option<Picture>>,
                      ghost values: map<string, WordParam>, ghost start: map<string, ChartTable>,
                      ghost tables: seq<Option<ChartTable>>, i: nat)
    returns (ghost next: seq<Option<ChartTable>>)
    requires i < |renders| == |outs| && renders[i] == Some(picture)
    requires TablesAt(params.charts, renders, tables, i)
    requires forall k :: 0 <= k < i && tables[k].Some? ==> tables[k].value.Valid() && tables[k].value.Value() == PyTable(outs[k])
    requires params.params == BindSome(values, ChartKind, RenderedValues(renders)[..i])
    requires KeysAt(params.charts, start, renders, i)
    modifies params
    ensures TablesAt(params.charts, renders, next, i + 1)
    ensures forall k :: 0 <= k <= i && next[k].Some? ==> next[k].value.Valid() && next[k].value.Value() == PyTable(outs[k])
    ensures params.params == BindSome(values, ChartKind, RenderedValues(renders)[..i + 1])
    ensures KeysAt(params.charts, start, renders, i + 1)
  {
    PyStepParams(values, renders, i);
    params.SetParam(Key(ChartKind, i + 1), PictureParam(picture));
    next := tables + [None];
    PyRenderKeys(params.charts, start, renders, tables, next, i);
    assert next[..i] == tables;
  }

  /** A turn that made a table: the conversion's chart under the chart's key; `stop` when the conversion raised. */
  method PyTableStep(params: WordParams, configs: seq<string>, parse: E.Parser,
                     ghost outs: seq<Outcome<E.Draft>>, ghost renders: seq<Option<Picture>>,
                     ghost values: map<string, WordParam>, ghost start: map<string, ChartTable>,
                     ghost tables: seq<Option<ChartTable>>, i: nat)
    returns (stop: bool, ghost next: seq<Option<ChartTable>>)
    requires PyLinked(outs, configs, parse) && i < |configs| == |renders| && renders[i].None?
    requires TablesAt(params.charts, renders, tables, i)
    requires forall k :: 0 <= k < i && tables[k].Some? ==> tables[k].value.Valid() && tables[k].value.Value() == PyTable(outs[k])
    requires params.params == BindSome(values, ChartKind, RenderedValues(renders)[..i])
    requires KeysAt(params.charts, start, renders, i)
    modifies params
    ensures stop <==> outs[i].Raised?
    ensures TablesAt(params.charts, renders, next, i + 1)
    ensures forall k :: 0 <= k <= i && next[k].Some? ==> next[k].value.Valid() && next[k].value.Value() == PyTable(outs[k])
    ensures params.params == BindSome(values, ChartKind, RenderedValues(renders)[..i + 1])
    ensures KeysAt(params.charts, start, renders, i + 1)
  {
    ghost var before := params.charts;
    var r := PyConvertAt(params, configs, parse, outs, tables, i);
    stop := r.Raised?;
    var t := params.charts[Key(ChartKind, i + 1)];
    next := tables + [Some(t)];
    PyStepKeys(before, params.charts, start, renders, tables, next, t, i);
    PyStepParams(values, renders, i);
    forall k | 0 <= k < i && next[k].Some?
      ensures next[k].value.Valid() && next[k].value.Value() == PyTable(outs[k])
    {
      assert next[k] == tables[k];
    }
  }

  /** The parameters after a turn: the picture of a rendered configuration is bound under its key, nothing else changes. */
  lemma PyStepParams(values: map<string, WordParam>, renders: seq<Option<Picture>>, i: nat)
    requires i < |renders|
    ensures BindSome(values, ChartKind, RenderedValues(renders)[..i + 1]) ==
      if renders[i].Some? then BindSome(values, ChartKind, RenderedValues(renders)[..i])[Key(ChartKind, i + 1) := PictureParam(renders[i].value)]
      else BindSome(values, ChartKind, RenderedValues(renders)[..i])
  {
    TakeSnoc(RenderedValues(renders), i);
    BindSomeSnoc(values, ChartKind, RenderedValues(renders)[..i], RenderedValues(renders)[i]);
  }

  /** Below the first stop, the pass stops at `i` exactly when the configuration there stops it. */
  lemma PyStopAt(renders: seq<Option<Picture>>, outs: seq<Outcome<E.Draft>>, i: nat)
    requires |renders| == |outs| && i < |outs| && i <= PyStop(renders, outs)
    ensures PyStop(renders, outs) == i <==> Stops(renders[i], outs[i])
  {
  }

  /** The keys after a turn that rendered a picture: the chart map is unchanged and gains no table key. */
  lemma PyRenderKeys(charts: map<string, ChartTable>, start: map<string, ChartTable>,
                     renders: seq<Option<Picture>>, tables: seq<Option<ChartTable>>, next: seq<Option<ChartTable>>, i: nat)
    requires i < |renders| && renders[i].Some? && next == tables + [None]
    requires TablesAt(charts, renders, tables, i) && KeysAt(charts, start, renders, i)
    ensures TablesAt(charts, renders, next, i + 1) && KeysAt(charts, start, renders, i + 1)
  {
    TableKeysNext(renders, i);
    assert TableKeys(renders, i + 1) == TableKeys(renders, i);
    forall j | 0 <= j <= i && renders[j].None?
      ensures next[j].Some? && Key(ChartKind, j + 1) in charts && charts[Key(ChartKind, j + 1)] == next[j].value
    {
      assert next[j] == tables[j];
    }
  }

  /** The keys after a turn that made a table: the tables so far and the new one, under their keys. */
  lemma PyStepKeys(before: map<string, ChartTable>, charts: map<string, ChartTable>, start: map<string, ChartTable>,
                   renders: seq<Option<Picture>>, tables: seq<Option<ChartTable>>, next: seq<Option<ChartTable>>, t: ChartTable, i: nat)
    requires i < |renders| && renders[i].None? && charts == before[Key(ChartKind, i + 1) := t]
    requires next == tables + [Some(t)]
    requires TablesAt(before, renders, tables, i) && KeysAt(before, start, renders, i)
    ensures TablesAt(charts, renders, next, i + 1) && KeysAt(charts, start, renders, i + 1)
  {
    TableKeysNext(renders, i);
    KeysBelow(i);
    TableKeysBelow(renders, i);
    forall j | 0 <= j <= i && renders[j].None?
      ensures next[j].Some? && Key(ChartKind, j + 1) in charts && charts[Key(ChartKind, j + 1)] == next[j].value
    {
      if j < i {
        assert next[j] == tables[j];
        assert Key(ChartKind, j + 1) != Key(ChartKind, i + 1);
        assert Key(ChartKind, j + 1) in before;
      } else {
        assert next[j] == Some(t);
      }
    }
  }

  /**
   * The Python conversion of the configuration at an index, into the next chart key;
   * the tables of the earlier configurations keep their values.
   */
  method PyConvertAt(params: WordParams, configs: seq<string>, parse: E.Parser, ghost outs: seq<Outcome<E.Draft>>,
                     ghost tables: seq<Option<ChartTable>>, i: nat)
    returns (r: Outcome<()>)
    requires PyLinked(outs, configs, parse) && i < |configs| && i <= |tables|
    requires forall k :: 0 <= k < i && tables[k].Some? ==> tables[k].value.Valid() && tables[k].value.Value() == PyTable(outs[k])
    modifies params
    ensures var key := Key(ChartKind, i + 1);
      && key in params.charts && fresh(params.charts[key]) && params.charts[key].Valid()
      && params.charts == old(params.charts)[key := params.charts[key]]
    ensures params.params == old(params.params)
    ensures params.charts[Key(ChartKind, i + 1)].Value() == PyTable(outs[i])
    ensures r.Raised? <==> outs[i].Raised?
    ensures forall k :: 0 <= k < i && tables[k].Some? ==> tables[k].value.Valid() && tables[k].value.Value() == PyTable(outs[k])
  {
    assert outs[i] == E.PyOutcome(configs[i], parse);
    r := E.ConvertPy(params, Key(ChartKind, i + 1), configs[i], parse);
    forall k | 0 <= k < i && tables[k].Some?
      ensures tables[k].value.Valid() && tables[k].value.Value() == PyTable(outs[k])
    {
      var u := tables[k].value;
      assert unchanged(u, u.xAxis) && unchanged(u.yAxis.Values);
      assert old(u.Valid()) && old(u.Value()) == PyTable(outs[k]);
    }
  }
}
