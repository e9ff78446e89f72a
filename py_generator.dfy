/**
 * The Python generator (`word_generator.py`): a regular-expression pass that
 * replaces whole paragraphs holding `${key}` placeholders, then a pass that turns
 * `${chartN}` paragraphs into a title and a data table. A paragraph is modelled
 * as its runs, whether it is centred, and the tables inserted directly after it.
 */
module PyGenerator {
  import opened Wrappers
  import opened Text
  import opened Charts
  import opened Params
  import opened Numbers
  import opened Tables

  datatype PyRun =
    | TextRun(text: string)
    | PictureRun(content: Bytes, width: int, height: int)

  /** A table placed in the body right after a paragraph. */
  datatype Block =
    | ParamTable(cells: seq<seq<Cell>>)
    | ChartTableBlock(grid: seq<seq<string>>)

  datatype ParaState = ParaState(runs: seq<PyRun>, centered: bool, following: seq<Block>)

  /** `paragraph.text`: the texts of the runs, pictures contributing nothing. */
  function TextOf(runs: seq<PyRun>): string {
    if runs == [] then ""
    else (if runs[0].TextRun? then runs[0].text else "") + TextOf(runs[1..])
  }

  // ---------------------------------------------------------------------------
  // The two patterns

  /** The first `}` of `s`, if any. */
  function CloseBrace(s: string): (k: Option<nat>)
    ensures k.Some? ==> k.value < |s| && s[k.value] == '}' && forall j :: 0 <= j < k.value ==> s[j] != '}'
    ensures k.None? ==> forall j :: 0 <= j < |s| ==> s[j] != '}'
  {
    var i := IndexOf(s, '}', 0);
    if i < 0 then None else Some(i)
  }

  /** A `}` with none before it is the first. */
  lemma CloseBraceAt(s: string, k: nat)
    requires k < |s| && s[k] == '}' && forall j :: 0 <= j < k ==> s[j] != '}'
    ensures CloseBrace(s) == Some(k)
  {
    IndexOfFinds(s, '}', 0, k);
  }

  /**
   * The keys `re.finditer(r'\$\{([^}]+)\}', s)` yields, left to right: from each
   * `${`, the text up to the first `}`, when there is such a `}` and the text is
   * not empty; otherwise the search resumes one character further on.
   */
  function Placeholders(s: string): seq<string>
    decreases |s|
  {
    if |s| < 2 then []
    else if s[0] == '$' && s[1] == '{' && CloseBrace(s[2..]).Some? && CloseBrace(s[2..]).value > 0 then
      var k := CloseBrace(s[2..]).value;
      [s[2..2 + k]] + Placeholders(s[2 + k + 1..])
    else Placeholders(s[1..])
  }

  /** What `[^}]+` captures: a non-empty key with no `}` in it. */
  lemma {:induction false} PlaceholderKeysWellFormed(s: string)
    ensures forall i :: 0 <= i < |Placeholders(s)| ==>
      Placeholders(s)[i] != [] && !Contains(Placeholders(s)[i], '}')
    decreases |s|
  {
    if |s| < 2 {
    } else if s[0] == '$' && s[1] == '{' && CloseBrace(s[2..]).Some? && CloseBrace(s[2..]).value > 0 {
      var k := CloseBrace(s[2..]).value;
      PlaceholderKeysWellFormed(s[2 + k + 1..]);
      assert !Contains(s[2..2 + k], '}');
    } else {
      PlaceholderKeysWellFormed(s[1..]);
    }
  }

  /** Text without a `$` holds no placeholder. */
  lemma {:induction false} NoDollarNoPlaceholder(s: string)
    requires !Contains(s, '$')
    ensures Placeholders(s) == []
    decreases |s|
  {
    if |s| >= 2 {
      assert s[0] != '$';
      NoDollarNoPlaceholder(s[1..]);
    }
  }

  /** "${}" is not a placeholder: the search moves on to the next one. */
  lemma EmptyKeySkipped()
    ensures Placeholders("${}c${y}") == ["y"]
  {
    var s4 := "${y}";
    CloseBraceAt(s4[2..], 1);
    assert s4[2..3] == "y" && s4[4..] == "";
    assert Placeholders(s4) == ["y"];
    var s3 := "c${y}";
    assert s3[1..] == s4;
    var s2 := "}c${y}";
    assert s2[1..] == s3;
    var s1 := "{}c${y}";
    assert s1[1..] == s2;
    var s := "${}c${y}";
    CloseBraceAt(s[2..], 0);
    assert s[1..] == s1;
  }

  /** A key may itself hold "${": the first `}` closes whatever was opened first. */
  lemma NestedOpening()
    ensures Placeholders("${a${b}}") == ["a${b"]
  {
    var t := "${a${b}}";
    CloseBraceAt(t[2..], 4);
    assert t[2..6] == "a${b";
    assert t[7..] == "}";
  }

  /**
   * The keys `re.finditer(r'\$\{chart(\d+)\}', s)` yields, each as `"chart" + digits`.
   */
  function ChartKeys(s: string): seq<string>
    decreases |s|
  {
    if |s| < 7 then []
    else if s[..7] == "${chart" && DigitRun(s[7..]) > 0 && 7 + DigitRun(s[7..]) < |s|
            && s[7 + DigitRun(s[7..])] == '}' then
      var d := DigitRun(s[7..]);
      ["chart" + s[7..7 + d]] + ChartKeys(s[7 + d + 1..])
    else ChartKeys(s[1..])
  }

  /** Every key of the chart pattern is "chart" followed by one or more digits. */
  lemma {:induction false} ChartKeysWellFormed(s: string)
    ensures forall i :: 0 <= i < |ChartKeys(s)| ==>
      |ChartKeys(s)[i]| > 5 && ChartKeys(s)[i][..5] == "chart" &&
      forall j :: 5 <= j < |ChartKeys(s)[i]| ==> IsDigit(ChartKeys(s)[i][j])
    decreases |s|
  {
    if |s| < 7 {
    } else if s[..7] == "${chart" && DigitRun(s[7..]) > 0 && 7 + DigitRun(s[7..]) < |s|
              && s[7 + DigitRun(s[7..])] == '}' {
      var d := DigitRun(s[7..]);
      ChartKeysWellFormed(s[7 + d + 1..]);
      var key := "chart" + s[7..7 + d];
      forall j | 5 <= j < |key|
        ensures IsDigit(key[j])
      {
        assert key[j] == s[7..][j - 5];
      }
    } else {
      ChartKeysWellFormed(s[1..]);
    }
  }

  lemma ChartKeysExample()
    ensures ChartKeys("${chart12}") == ["chart12"]
  {
    var s := "${chart12}";
    assert s[..7] == "${chart";
    assert s[7..] == "12}";
    DigitRunIs(s[7..], 2);
    assert s[9] == '}';
    assert "chart" + s[7..9] == "chart12";
    assert s[10..] == [];
  }

  // ---------------------------------------------------------------------------
  // The placeholder pass

  /**
   * The runs one resolved parameter leaves in a just-cleared paragraph: its text;
   * nothing for a table, which goes after the paragraph; a picture, or the text
   * "[图像加载失败]" when python-docx refuses it (`pictureOk`).
   */
  function RunsFor(param: WordParam, pictureOk: WordParam -> bool): seq<PyRun> {
    match param
    case Text(msg) => [TextRun(msg)]
    case Table(_) => []
    case Image(content, w, h) =>
      if pictureOk(param) then [PictureRun(content, w, h)] else [TextRun("[图像加载失败]")]
  }

  /**
   * What is left of the paragraph after visiting `keys` right to left, each resolved
   * key clearing it: the leftmost resolved key's runs, or `base` when none resolves.
   */
  function LeftmostRuns(keys: seq<string>, params: map<string, WordParam>, base: seq<PyRun>,
                        pictureOk: WordParam -> bool): seq<PyRun>
  {
    if keys == [] then base
    else if keys[0] in params then RunsFor(params[keys[0]], pictureOk)
    else LeftmostRuns(keys[1..], params, base, pictureOk)
  }

  /** The leftmost resolved key decides: every key before it is unknown. */
  lemma {:induction false} LeftmostRunsIsLeftmost(keys: seq<string>, params: map<string, WordParam>, base: seq<PyRun>,
                                                  pictureOk: WordParam -> bool, i: nat)
    requires i < |keys| && keys[i] in params
    requires forall j :: 0 <= j < i ==> keys[j] !in params
    ensures LeftmostRuns(keys, params, base, pictureOk) == RunsFor(params[keys[i]], pictureOk)
  {
    if i > 0 {
      assert keys[1..][i - 1] == keys[i];
      LeftmostRunsIsLeftmost(keys[1..], params, base, pictureOk, i - 1);
    }
  }

  /** Whether some key resolves to an image (which centres the paragraph). */
  predicate AnyImage(keys: seq<string>, params: map<string, WordParam>) {
    keys != [] && ((keys[0] in params && params[keys[0]].Image?) || AnyImage(keys[1..], params))
  }

  /** The tables the keys insert after the paragraph, as they end up: left to right. */
  function ParamBlocks(keys: seq<string>, params: map<string, WordParam>): seq<Block> {
    if keys == [] then []
    else
      (if keys[0] in params && params[keys[0]].Table? then [ParamTable(PyTable(params[keys[0]].data))] else [])
      + ParamBlocks(keys[1..], params)
  }

  /** The tables of two stretches of keys come in the order of the stretches. */
  lemma {:induction false} ParamBlocksAppend(a: seq<string>, b: seq<string>, params: map<string, WordParam>)
    ensures ParamBlocks(a + b, params) == ParamBlocks(a, params) + ParamBlocks(b, params)
  {
    if a == [] {
      assert a + b == b;
    } else {
      assert (a + b)[1..] == a[1..] + b;
      ParamBlocksAppend(a[1..], b, params);
    }
  }

  /**
   * `_replace_paragraph_content` on one paragraph: the paragraph ends holding what the
   * leftmost resolved placeholder put there (each resolution clears the whole
   * paragraph, and matches are visited right to left); it is centred once any image
   * resolved; the tables of table parameters follow it in the order of their
   * placeholders.
   */
  function TextPass(st: ParaState, params: map<string, WordParam>, pictureOk: WordParam -> bool): ParaState {
    var keys := Placeholders(TextOf(st.runs));
    ParaState(
      LeftmostRuns(keys, params, st.runs, pictureOk),
      st.centered || AnyImage(keys, params),
      ParamBlocks(keys, params) + st.following)
  }

  /** Unknown keys are skipped: a paragraph none of whose keys resolves is unchanged. */
  lemma UnknownKeysSkipped(st: ParaState, params: map<string, WordParam>, pictureOk: WordParam -> bool)
    requires forall k :: k in Placeholders(TextOf(st.runs)) ==> k !in params
    ensures TextPass(st, params, pictureOk) == st
  {
    NoResolvedKeys(Placeholders(TextOf(st.runs)), params, st.runs, pictureOk);
  }

  lemma {:induction false} NoResolvedKeys(keys: seq<string>, params: map<string, WordParam>, base: seq<PyRun>,
                                          pictureOk: WordParam -> bool)
    requires forall k :: k in keys ==> k !in params
    ensures LeftmostRuns(keys, params, base, pictureOk) == base
    ensures !AnyImage(keys, params) && ParamBlocks(keys, params) == []
  {
    if keys != [] {
      assert keys[0] in keys;
      assert forall k :: k in keys[1..] ==> k in keys;
      NoResolvedKeys(keys[1..], params, base, pictureOk);
    }
  }

  /** Two text placeholders in one paragraph: only the left one's value remains. */
  lemma LeftmostTextWins(st: ParaState, params: map<string, WordParam>, pictureOk: WordParam -> bool)
    requires st.runs == [TextRun("${a} and ${b}")]
    requires params == map["a" := Text("A"), "b" := Text("B")]
    ensures TextPass(st, params, pictureOk).runs == [TextRun("A")]
  {
    var s := "${a} and ${b}";
    assert TextOf(st.runs) == s by {
      assert st.runs[1..] == [];
    }
    CloseBraceAt(s[2..], 1);
    assert s[2..3] == "a";
    assert Placeholders(s)[0] == "a";
  }

  /** One key in front of others. */
  lemma ParamBlocksCons(k: string, keys: seq<string>, params: map<string, WordParam>)
    ensures ParamBlocks([k] + keys, params) ==
      (if k in params && params[k].Table? then [ParamTable(PyTable(params[k].data))] else []) + ParamBlocks(keys, params)
  {
    assert ([k] + keys)[1..] == keys;
  }

  /** A paragraph of the document, as python-docx updates it. */
  class PyParagraph {
    var runs: seq<PyRun>
    var centered: bool
    var following: seq<Block>

    constructor (runs: seq<PyRun>)
      ensures this.runs == runs && !centered && following == []
    {
      this.runs := runs;
      centered := false;
      following := [];
    }

    function State(): ParaState
      reads this
    {
      ParaState(runs, centered, following)
    }

    /**
     * One resolved placeholder: `_replace_text_in_paragraph`, `_replace_with_table` or
     * `_replace_with_image`, each of which starts by clearing the paragraph.
     */
    method Resolve(param: WordParam, pictureOk: WordParam -> bool)
      modifies this
      ensures runs == RunsFor(param, pictureOk)
      ensures centered == (old(centered) || param.Image?)
      ensures following == (if param.Table? then [ParamTable(PyTable(param.data))] else []) + old(following)
    {
      match param
      case Text(msg) =>
        runs := [TextRun(msg)];
      case Table(data) =>
        runs := [];
        var cells, _ := PyTableRows(data);
        following := [ParamTable(cells)] + following;
      case Image(content, w, h) =>
        runs := [];
        centered := true;
        if pictureOk(param) {
          runs := [PictureRun(content, w, h)];
        } else {
          runs := [TextRun("[图像加载失败]")];
        }
    }

    /** `_replace_paragraph_content(paragraph, params)`. */
    method ReplaceContent(params: map<string, WordParam>, pictureOk: WordParam -> bool)
      modifies this
      ensures State() == TextPass(old(State()), params, pictureOk)
    {
      ghost var st := State();
      var keys := Placeholders(TextOf(runs));
      if keys == [] {
        return;
      }
      var todo, done := keys, [];
      while todo != []
        invariant todo + done == keys
        invariant runs == LeftmostRuns(done, params, st.runs, pictureOk)
        invariant centered == (st.centered || AnyImage(done, params))
        invariant following == ParamBlocks(done, params) + st.following
        decreases |todo|
      {
        var key := todo[|todo| - 1];
        ghost var rest := ParamBlocks(done, params) + st.following;
        assert ([key] + done)[1..] == done;
        todo, done := todo[..|todo| - 1], [key] + done;
        if key in params {
          Resolve(params[key], pictureOk);
        }
        assert following == ParamBlocks(done, params) + st.following by {
          ParamBlocksCons(key, done[1..], params);
          var front := if key in params && params[key].Table? then [ParamTable(PyTable(params[key].data))] else [];
          assert following == front + rest;
          Assoc(front, ParamBlocks(done[1..], params), st.following);
        }
      }
      assert done == keys;
    }
  }

  // ---------------------------------------------------------------------------
  // The chart pass

  /** Every series name of a chart table has its column. */
  predicate ChartShape(t: ChartValue) {
    forall n :: n in t.yNames ==> n in t.y
  }

  /** Whether `_create_chart_in_paragraph` finds data to draw: categories and series. */
  predicate HasChartData(t: ChartValue) {
    t.x.items != [] && t.y != map[]
  }

  /**
   * What `_create_chart_in_paragraph` leaves in a cleared paragraph: "图表数据为空"
   * without data, otherwise the title run "【图表】" + title.
   */
  function ChartRunsFor(t: ChartValue): seq<PyRun> {
    if HasChartData(t) then [TextRun("【图表】" + t.title)] else [TextRun("图表数据为空")]
  }

  /**
   * The runs left after visiting `keys` left to right from runs `base`: each key with a
   * chart table clears the paragraph and draws its chart.
   */
  function RightmostRuns(keys: seq<string>, charts: map<string, ChartValue>, base: seq<PyRun>): seq<PyRun> {
    if keys == [] then base
    else RightmostRuns(keys[1..], charts, if keys[0] in charts then ChartRunsFor(charts[keys[0]]) else base)
  }

  /** Keys without chart tables leave the runs alone. */
  lemma {:induction false} NoChartKeys(keys: seq<string>, charts: map<string, ChartValue>, base: seq<PyRun>)
    requires forall j :: 0 <= j < |keys| ==> keys[j] !in charts
    ensures RightmostRuns(keys, charts, base) == base
  {
    if keys != [] {
      assert keys[0] !in charts;
      NoChartKeys(keys[1..], charts, base);
    }
  }

  /** The rightmost key with a chart table decides. */
  lemma {:induction false} RightmostRunsIsRightmost(keys: seq<string>, charts: map<string, ChartValue>,
                                                    base: seq<PyRun>, i: nat)
    requires i < |keys| && keys[i] in charts
    requires forall j :: i < j < |keys| ==> keys[j] !in charts
    ensures RightmostRuns(keys, charts, base) == ChartRunsFor(charts[keys[i]])
  {
    var next := if keys[0] in charts then ChartRunsFor(charts[keys[0]]) else base;
    if i == 0 {
      NoChartKeys(keys[1..], charts, next);
    } else {
      RightmostRunsIsRightmost(keys[1..], charts, next, i - 1);
    }
  }

  /** Whether some key's chart has data (which centres the paragraph). */
  predicate AnyDrawn(keys: seq<string>, charts: map<string, ChartValue>) {
    keys != [] && ((keys[0] in charts && HasChartData(charts[keys[0]])) || AnyDrawn(keys[1..], charts))
  }

  /** The grid `_create_chart_in_paragraph` inserts after the paragraph, if any. */
  function DrawnBlocks(t: ChartValue, show: Num -> string): seq<Block>
    requires ChartShape(t)
  {
    if HasChartData(t) then [ChartTableBlock(ChartGrid(t.x.items, t.yNames, t.y, show))] else []
  }

  /**
   * The chart tables the keys insert after the paragraph, as they end up: each is
   * inserted right after the paragraph, so a later key's grid comes first.
   */
  function ChartBlocks(keys: seq<string>, charts: map<string, ChartValue>, show: Num -> string): seq<Block>
    requires forall k :: k in charts ==> ChartShape(charts[k])
  {
    if keys == [] then []
    else ChartBlocks(keys[1..], charts, show) + (if keys[0] in charts then DrawnBlocks(charts[keys[0]], show) else [])
  }

  /** The grids of two stretches of keys come in the reverse order of the stretches. */
  lemma {:induction false} ChartBlocksAppend(a: seq<string>, b: seq<string>, charts: map<string, ChartValue>, show: Num -> string)
    requires forall k :: k in charts ==> ChartShape(charts[k])
    ensures ChartBlocks(a + b, charts, show) == ChartBlocks(b, charts, show) + ChartBlocks(a, charts, show)
  {
    if a == [] {
      assert a + b == b;
    } else {
      assert (a + b)[1..] == a[1..] + b;
      ChartBlocksAppend(a[1..], b, charts, show);
      Assoc(ChartBlocks(b, charts, show), ChartBlocks(a[1..], charts, show),
            if a[0] in charts then DrawnBlocks(charts[a[0]], show) else []);
    }
  }

  /**
   * `_replace_charts` on one paragraph: every `${chartN}` with a chart table clears
   * the paragraph and draws that table, visiting matches left to right, so the
   * rightmost resolved one's runs remain, the paragraph is centred once any chart
   * with data was drawn, and the grids follow it rightmost first.
   */
  function ChartPass(st: ParaState, charts: map<string, ChartValue>, show: Num -> string): ParaState
    requires forall k :: k in charts ==> ChartShape(charts[k])
  {
    var keys := ChartKeys(TextOf(st.runs));
    ParaState(
      RightmostRuns(keys, charts, st.runs),
      st.centered || AnyDrawn(keys, charts),
      ChartBlocks(keys, charts, show) + st.following)
  }

  /** A chart without categories or without series leaves only "图表数据为空". */
  lemma EmptyChartMessage(st: ParaState, charts: map<string, ChartValue>, show: Num -> string)
    requires forall k :: k in charts ==> ChartShape(charts[k])
    requires ChartKeys(TextOf(st.runs)) == ["chart1"]
    requires "chart1" in charts && !HasChartData(charts["chart1"])
    ensures ChartPass(st, charts, show) == ParaState([TextRun("图表数据为空")], st.centered, st.following)
  {
    assert ["chart1"][1..] == [];
    assert RightmostRuns(["chart1"], charts, st.runs) == RightmostRuns([], charts, ChartRunsFor(charts["chart1"]));
    assert !AnyDrawn(["chart1"], charts);
    assert ChartBlocks(["chart1"], charts, show) == [];
    assert [] + st.following == st.following;
  }

  /**
   * `paragraph.clear()` followed by `_create_chart_in_paragraph(paragraph, chart_table)`.
   */
  method Draw(p: PyParagraph, t: ChartValue, show: Num -> string)
    requires ChartShape(t)
    modifies p
    ensures p.runs == ChartRunsFor(t)
    ensures p.centered == (old(p.centered) || HasChartData(t))
    ensures p.following == DrawnBlocks(t, show) + old(p.following)
  {
    if !HasChartData(t) {
      p.runs := [TextRun("图表数据为空")];
    } else {
      p.centered := true;
      p.runs := [TextRun("【图表】" + t.title)];
      var grid := ChartRows(t.x.items, t.yNames, t.y, show);
      p.following := [ChartTableBlock(grid)] + p.following;
    }
  }

  /** `_replace_charts` on one paragraph. */
  method ReplaceChartsIn(p: PyParagraph, charts: map<string, ChartValue>, show: Num -> string)
    requires forall k :: k in charts ==> ChartShape(charts[k])
    modifies p
    ensures p.State() == ChartPass(old(p.State()), charts, show)
  {
    ghost var st := p.State();
    var keys := ChartKeys(TextOf(p.runs));
    var todo := keys;
    while todo != []
      invariant RightmostRuns(todo, charts, p.runs) == RightmostRuns(keys, charts, st.runs)
      invariant (p.centered || AnyDrawn(todo, charts)) == (st.centered || AnyDrawn(keys, charts))
      invariant ChartBlocks(todo, charts, show) + p.following == ChartBlocks(keys, charts, show) + st.following
      decreases |todo|
    {
      var key := todo[0];
      ghost var front := if key in charts then DrawnBlocks(charts[key], show) else [];
      Assoc(ChartBlocks(todo[1..], charts, show), front, p.following);
      if key in charts {
        Draw(p, charts[key], show);
      }
      todo := todo[1..];
    }
    assert [] + p.following == p.following;
  }

  // ---------------------------------------------------------------------------
  // The document

  /** `_replace_paragraphs`: the placeholder pass over every paragraph. */
  method ReplaceParagraphs(paragraphs: seq<PyParagraph>, params: map<string, WordParam>, pictureOk: WordParam -> bool)
    requires forall i, j :: 0 <= i < j < |paragraphs| ==> paragraphs[i] != paragraphs[j]
    modifies set p | p in paragraphs
    ensures forall k :: 0 <= k < |paragraphs| ==>
      paragraphs[k].State() == TextPass(old(paragraphs[k].State()), params, pictureOk)
  {
    var i := 0;
    while i < |paragraphs|
      invariant 0 <= i <= |paragraphs|
      invariant forall k :: 0 <= k < i ==> paragraphs[k].State() == TextPass(old(paragraphs[k].State()), params, pictureOk)
      invariant forall k :: i <= k < |paragraphs| ==> paragraphs[k].State() == old(paragraphs[k].State())
    {
      paragraphs[i].ReplaceContent(params, pictureOk);
      i := i + 1;
    }
  }

  /** `_replace_charts`: the chart pass over every paragraph. */
  method ReplaceCharts(paragraphs: seq<PyParagraph>, charts: map<string, ChartValue>, show: Num -> string)
    requires forall i, j :: 0 <= i < j < |paragraphs| ==> paragraphs[i] != paragraphs[j]
    requires forall k :: k in charts ==> ChartShape(charts[k])
    modifies set p | p in paragraphs
    ensures forall k :: 0 <= k < |paragraphs| ==>
      paragraphs[k].State() == ChartPass(old(paragraphs[k].State()), charts, show)
  {
    var i := 0;
    while i < |paragraphs|
      invariant 0 <= i <= |paragraphs|
      invariant forall k :: 0 <= k < i ==> paragraphs[k].State() == ChartPass(old(paragraphs[k].State()), charts, show)
      invariant forall k :: i <= k < |paragraphs| ==> paragraphs[k].State() == old(paragraphs[k].State())
    {
      ReplaceChartsIn(paragraphs[i], charts, show);
      i := i + 1;
    }
  }

  /**
   * `build_doc(params, template_file, output_file)`: the placeholder pass over every
   * paragraph, then the chart pass over every paragraph, then saving. Opening and
   * saving are the only steps that can fail here (`readable`, `saved`); any failure
   * gives `False` rather than an exception, and a template that does not open is
   * left untouched.
   */
  method BuildDoc(paragraphs: seq<PyParagraph>, params: map<string, WordParam>, charts: map<string, ChartValue>,
                  pictureOk: WordParam -> bool, show: Num -> string, readable: bool, saved: bool)
      returns (ok: bool)
    requires forall i, j :: 0 <= i < j < |paragraphs| ==> paragraphs[i] != paragraphs[j]
    requires forall k :: k in charts ==> ChartShape(charts[k])
    modifies set p | p in paragraphs
    ensures ok == (readable && saved)
    ensures !readable ==> forall k :: 0 <= k < |paragraphs| ==> paragraphs[k].State() == old(paragraphs[k].State())
    ensures readable ==> forall k :: 0 <= k < |paragraphs| ==>
      paragraphs[k].State() == ChartPass(TextPass(old(paragraphs[k].State()), params, pictureOk), charts, show)
  {
    if !readable {
      return false;
    }
    ReplaceParagraphs(paragraphs, params, pictureOk);
    ReplaceCharts(paragraphs, charts, show);
    return saved;
  }
}
