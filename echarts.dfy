/**
 * The ECharts extractors: `EChartsToWordConverter.convertEChartsToWordChart`
 * (md2doc-core, over Jackson's tree model) and
 * `EChartsToWordConverter.convert_echarts_to_word_chart` (Python, over the
 * values `json.loads` returns). Each normalises the configuration, parses it,
 * registers a chart table under the key and fills it from `title.text`, the first
 * x axis's `data`, every series' `name` and `data` and the first y axis's `name`.
 * When anything throws, the table under the key is replaced by a fixed default
 * chart and the exception is raised again.
 *
 * The parser is a parameter: a function from text to a JSON tree, `None` when it
 * throws.
 */
module ECharts {
  import opened Wrappers
  import opened Text
  import opened Charts
  import opened Params
  import EChartsJson

  /**
   * A JSON value. A number carries its value and the text Jackson's `asText` gives
   * for it; an object its members in order, with the duplicate keys the parser
   * has already merged.
   */
  datatype Json =
    | JNull
    | JBool(b: bool)
    | JNum(n: Num, text: string)
    | JStr(s: string)
    | JArr(items: seq<Json>)
    | JObj(fields: seq<(string, Json)>)

  /** `ObjectMapper.readTree` / `json.loads`: the tree, or `None` when parsing throws. */
  type Parser = string -> Option<Json>

  /** The member of that name. */
  function Lookup(fields: seq<(string, Json)>, name: string): (r: Option<Json>)
    ensures r.Some? <==> exists k :: 0 <= k < |fields| && fields[k].0 == name
    ensures r.Some? ==> (name, r.value) in fields
  {
    if fields == [] then None
    else if fields[0].0 == name then Some(fields[0].1)
    else Lookup(fields[1..], name)
  }

  // ---------------------------------------------------------------------------
  // Jackson's tree model; `None` is the MissingNode

  /** `JsonNode.path(name)`: the member of an object, MissingNode for anything else. */
  function Path(n: Option<Json>, name: string): (r: Option<Json>)
    ensures r.Some? ==> n.Some? && n.value.JObj?
    ensures n.Some? && n.value.JObj? ==> r == Lookup(n.value.fields, name)
  {
    if n.Some? && n.value.JObj? then Lookup(n.value.fields, name) else None
  }

  /** `asText()`: a scalar's text, "null" for null, "" for arrays and objects. */
  function NodeText(j: Json): string {
    match j
    case JNull => "null"
    case JBool(b) => if b then "true" else "false"
    case JNum(_, t) => t
    case JStr(s) => s
    case JArr(_) => ""
    case JObj(_) => ""
  }

  /** `asText(default)`: the default for a missing node and for null, `asText()` otherwise. */
  function AsTextOr(n: Option<Json>, default: string): (r: string)
    ensures n.None? || n == Some(JNull) ==> r == default
    ensures n.Some? && n.value.JStr? ==> r == n.value.s
  {
    if n.None? || n.value.JNull? then default else NodeText(n.value)
  }

  /** Iterating a node: an array's elements, an object's member values, nothing for a scalar. */
  function Elements(n: Option<Json>): (r: seq<Json>)
    ensures n.Some? && n.value.JArr? ==> r == n.value.items
    ensures n.None? || !(n.value.JArr? || n.value.JObj?) ==> r == []
  {
    if n.None? then []
    else match n.value
      case JArr(items) => items
      case JObj(fs) => seq(|fs|, k requires 0 <= k < |fs| => fs[k].1)
      case _ => []
  }

  /**
   * "Take the first axis when there are several": `get(0)` on an array. An empty
   * array gives `null`, and the next call on it throws a NullPointerException.
   */
  function JavaFirst(n: Option<Json>): (r: Outcome<Option<Json>>)
    ensures r.Raised? <==> n == Some(JArr([]))
    ensures n.Some? && n.value.JArr? && n.value.items != [] ==> r == Ok(Some(n.value.items[0]))
    ensures n.None? || !n.value.JArr? ==> r == Ok(n)
  {
    if n.Some? && n.value.JArr? then
      if n.value.items == [] then Raised("NullPointerException") else Ok(Some(n.value.items[0]))
    else Ok(n)
  }

  /** A series datum: `isNumber()` ? `numberValue()` : 0. */
  function JavaNumber(j: Json): (r: Num)
    ensures j.JNum? ==> r == j.n
    ensures !j.JNum? ==> r == Int(0)
  {
    if j.JNum? then j.n else Int(0)
  }

  function JavaNumbers(items: seq<Json>): (r: seq<Num>)
    ensures |r| == |items| && forall k :: 0 <= k < |items| ==> r[k] == JavaNumber(items[k])
  {
    seq(|items|, k requires 0 <= k < |items| => JavaNumber(items[k]))
  }

  function Texts(items: seq<Json>): (r: seq<string>)
    ensures |r| == |items| && forall k :: 0 <= k < |items| ==> r[k] == NodeText(items[k])
  {
    seq(|items|, k requires 0 <= k < |items| => NodeText(items[k]))
  }

  // ---------------------------------------------------------------------------
  // Series and y axes

  /** One series: its name and its values. */
  datatype Series = Series(name: string, data: seq<Num>)

  /** The y axes of a table as values: names in insertion order and the columns. */
  datatype Axes = Axes(names: seq<string>, cols: map<string, ColumnValue<Num>>)

  ghost predicate AxesWellFormed(a: Axes) {
    Distinct(a.names) && (forall n :: n in a.names <==> n in a.cols)
  }

  /**
   * `newYAxis(name).addAllData(data)`: a column of that name holding the data
   * replaces any earlier one; a new name goes to the end of the order.
   */
  function AddSeries(a: Axes, s: Series, titled: bool): Axes {
    Axes(
      if s.name in a.cols then a.names else a.names + [s.name],
      a.cols[s.name := ColumnValue(if titled then Some(s.name) else None, s.data)])
  }

  /** The y axes the series make, added in order. */
  function AxesOf(series: seq<Series>, titled: bool): Axes
    decreases |series|
  {
    if series == [] then Axes([], map[])
    else AddSeries(AxesOf(series[..|series| - 1], titled), series[|series| - 1], titled)
  }

  /** The y axes of a table as a value. */
  function AxesValue(t: ChartTable): Axes
    reads t, t.yAxis.Values
  {
    Axes(t.yNames, ColumnValues(t.yAxis))
  }

  /** The extracted parts of a chart before it is written into a table. */
  datatype Draft = Draft(title: string, x: seq<string>, axes: Axes, yTitle: Option<string>)

  /**
   * The table a draft gives when the y-axis title goes to the column `first`: the
   * title is set only when there is one to set and `first` names a column.
   */
  function Retitled(d: Draft, first: Option<string>): (r: ChartValue)
    ensures r.title == d.title && r.x == ColumnValue(Some("x轴"), d.x) && r.yNames == d.axes.names
    ensures r.y.Keys == d.axes.cols.Keys
    ensures forall n :: n in d.axes.cols && Some(n) != first ==> r.y[n] == d.axes.cols[n]
    ensures first.Some? && first.value in d.axes.cols ==>
      r.y[first.value].items == d.axes.cols[first.value].items &&
      r.y[first.value].title == (if d.yTitle.Some? then d.yTitle else d.axes.cols[first.value].title)
  {
    var cols := d.axes.cols;
    var y := if d.yTitle.Some? && first.Some? && first.value in cols
      then cols[first.value := cols[first.value].(title := d.yTitle)]
      else cols;
    ChartValue(d.title, ColumnValue(Some("x轴"), d.x), d.axes.names, y)
  }

  /** The chart written when extraction throws. */
  function DefaultChart(titled: bool): (r: ChartValue)
    ensures r.title == "默认图表标题" && r.x == ColumnValue(Some("x轴"), ["数据1", "数据2", "数据3"])
    ensures r.yNames == ["默认系列"] && r.y.Keys == {"默认系列"}
    ensures r.y["默认系列"] == ColumnValue(if titled then Some("默认系列") else None, [Int(10), Int(20), Int(30)])
  {
    ChartValue(
      "默认图表标题",
      ColumnValue(Some("x轴"), ["数据1", "数据2", "数据3"]),
      ["默认系列"],
      map["默认系列" := ColumnValue(if titled then Some("默认系列") else None, [Int(10), Int(20), Int(30)])])
  }

  // ---------------------------------------------------------------------------
  // The Java extraction

  /** One series node: a series when its `data` is an array. */
  function JavaSerie(node: Json): (r: Option<Series>)
    ensures r.Some? <==> Path(Some(node), "data").Some? && Path(Some(node), "data").value.JArr?
    ensures r.Some? ==> r.value.name == AsTextOr(Path(Some(node), "name"), "数据系列")
    ensures r.Some? ==> r.value.data == JavaNumbers(Path(Some(node), "data").value.items)
  {
    var data := Path(Some(node), "data");
    if data.Some? && data.value.JArr? then
      Some(Series(AsTextOr(Path(Some(node), "name"), "数据系列"), JavaNumbers(data.value.items)))
    else None
  }

  /** The series of the series nodes, in order. */
  function JavaSeriesOf(nodes: seq<Json>): (r: seq<Series>)
    ensures |r| <= |nodes|
    decreases |nodes|
  {
    if nodes == [] then []
    else
      var last := JavaSerie(nodes[|nodes| - 1]);
      JavaSeriesOf(nodes[..|nodes| - 1]) + (if last.Some? then [last.value] else [])
  }

  /** The x-axis labels of the first x axis. */
  function JavaLabels(x: Option<Json>): seq<string> {
    if x.None? then []
    else
      var data := Path(x, "data");
      if data.None? then [] else Texts(Elements(data))
  }

  /** The series nodes: the elements of `series` when it is an array. */
  function JavaSeriesNodes(root: Json): seq<Json> {
    var s := Path(Some(root), "series");
    if s.Some? && s.value.JArr? then s.value.items else []
  }

  /** What the Java extraction reads from the tree, or the exception it throws. */
  function JavaDraft(root: Json): (r: Outcome<Draft>)
    ensures r.Raised? <==> Path(Some(root), "xAxis") == Some(JArr([])) || Path(Some(root), "yAxis") == Some(JArr([]))
    ensures r.Ok? ==> r.value.title == AsTextOr(Path(Path(Some(root), "title"), "text"), "默认标题")
    ensures r.Ok? ==> r.value.axes == AxesOf(JavaSeriesOf(JavaSeriesNodes(root)), false)
  {
    var title := AsTextOr(Path(Path(Some(root), "title"), "text"), "默认标题");
    match JavaFirst(Path(Some(root), "xAxis"))
    case Raised(m) => Raised(m)
    case Ok(x) =>
      match JavaFirst(Path(Some(root), "yAxis"))
      case Raised(m) => Raised(m)
      case Ok(y) => Ok(Draft(title, JavaLabels(x), AxesOf(JavaSeriesOf(JavaSeriesNodes(root)), false), JavaYTitle(y)))
  }

  /** The title to give a y axis: the first y axis's `name`, when it is not empty. */
  function JavaYTitle(y: Option<Json>): (r: Option<string>)
    ensures r.Some? ==> r.value != ""
  {
    var name := if y.Some? then AsTextOr(Path(y, "name"), "") else "";
    if name != "" then Some(name) else None
  }

  /** The whole Java conversion: normalise, parse, extract. */
  function JavaOutcome(config: string, parse: Parser): Outcome<Draft> {
    match parse(EChartsJson.Normalise(config, true))
    case None => Raised("IOException")
    case Some(root) => JavaDraft(root)
  }

  /**
   * A Java table holds the draft: when there is a y-axis title and a y axis, it is
   * on one of the columns, the one the HashMap's iteration order puts first.
   */
  predicate JavaHolds(v: ChartValue, d: Draft) {
    if d.yTitle.Some? && d.axes.names != [] then
      exists first :: first in d.axes.names && v == Retitled(d, Some(first))
    else v == Retitled(d, None)
  }

  // ---------------------------------------------------------------------------
  // Python's values

  /** Python truthiness of a JSON value. */
  predicate Truthy(j: Json) {
    match j
    case JNull => false
    case JBool(b) => b
    case JNum(n, _) => if n.Int? then n.i != 0 else n.r != 0.0
    case JStr(s) => s != ""
    case JArr(items) => items != []
    case JObj(fs) => fs != []
  }

  /** `str(value)` of a scalar; arrays and objects print as "". */
  function PyStr(j: Json): string {
    match j
    case JNull => "None"
    case JBool(b) => if b then "True" else "False"
    case JNum(_, t) => t
    case JStr(s) => s
    case JArr(_) => ""
    case JObj(_) => ""
  }

  function PyStrs(items: seq<Json>): (r: seq<string>)
    ensures |r| == |items| && forall k :: 0 <= k < |items| ==> r[k] == PyStr(items[k])
  {
    seq(|items|, k requires 0 <= k < |items| => PyStr(items[k]))
  }

  /**
   * Iterating a value (`for item in v`, `f(*v)`): a list's items, a dict's keys, a
   * string's characters; anything else raises TypeError.
   */
  function PyIterate(j: Json): (r: Outcome<seq<Json>>)
    ensures r.Raised? <==> j.JNull? || j.JBool? || j.JNum?
    ensures j.JArr? ==> r == Ok(j.items)
    ensures j.JStr? ==> r.Ok? && |r.value| == |j.s|
  {
    match j
    case JArr(items) => Ok(items)
    case JObj(fs) => Ok(seq(|fs|, k requires 0 <= k < |fs| => JStr(fs[k].0)))
    case JStr(s) => Ok(seq(|s|, k requires 0 <= k < |s| => JStr([s[k]])))
    case _ => Raised("TypeError")
  }

  /** `v.get(name, default)`: only a dict has `get`; anything else raises AttributeError. */
  function PyGet(j: Json, name: string, default: Json): (r: Outcome<Json>)
    ensures r.Raised? <==> !j.JObj?
    ensures j.JObj? ==> r == Ok(Lookup(j.fields, name).GetOr(default))
  {
    if j.JObj? then Ok(Lookup(j.fields, name).GetOr(default)) else Raised("AttributeError")
  }

  /** "Take the first axis when there are several": `v[0]`, IndexError on an empty list. */
  function PyFirst(j: Json): (r: Outcome<Json>)
    ensures r.Raised? <==> j == JArr([])
    ensures !j.JArr? ==> r == Ok(j)
  {
    if j.JArr? then (if j.items == [] then Raised("IndexError") else Ok(j.items[0])) else Ok(j)
  }

  // ---------------------------------------------------------------------------
  // Python's float()

  predicate AllDigits(s: string) {
    forall k :: 0 <= k < |s| ==> IsDigit(s[k])
  }

  /** `x` times ten, `e` times over. */
  function TimesTen(x: real, e: nat): real {
    if e == 0 then x else TimesTen(x, e - 1) * 10.0
  }

  /** `x` divided by ten, `e` times over. */
  function OverTen(x: real, e: nat): real {
    if e == 0 then x else OverTen(x, e - 1) / 10.0
  }

  /** A mantissa: digits, or digits '.' digits with at least one digit in all. */
  function Mantissa(m: string): (r: Option<real>)
    ensures r.Some? ==> m != []
    ensures AllDigits(m) && m != [] ==> r == Some(ParseNat(m) as real)
  {
    var d := IndexOf(m, '.', 0);
    if d < 0 then
      if m != [] && AllDigits(m) then Some(ParseNat(m) as real) else None
    else
      var ip, fp := m[..d], m[d + 1..];
      if AllDigits(ip) && AllDigits(fp) && (ip != [] || fp != []) then
        Some(ParseNat(ip) as real + OverTen(ParseNat(fp) as real, |fp|))
      else None
  }

  /** The exponent after 'e' or 'E': an optional sign and digits. */
  function Exponent(x: string): (r: Option<int>)
    ensures x == [] ==> r == None
  {
    var neg := x != [] && x[0] == '-';
    var ds := if x != [] && (x[0] == '+' || x[0] == '-') then x[1..] else x;
    if ds != [] && AllDigits(ds) then Some(if neg then -(ParseNat(ds) as int) else ParseNat(ds) as int) else None
  }

  /** The position of the first 'e' or 'E', or the length. */
  function ExpIndex(s: string): (i: nat)
    ensures i <= |s| && forall k :: 0 <= k < i ==> s[k] != 'e' && s[k] != 'E'
    ensures i < |s| ==> s[i] == 'e' || s[i] == 'E'
  {
    if s == [] || s[0] == 'e' || s[0] == 'E' then 0 else 1 + ExpIndex(s[1..])
  }

  /**
   * `float(s)` for decimal text: surrounding whitespace, an optional sign, a
   * mantissa and an optional exponent; `None` where `float` raises ValueError.
   */
  function PyFloat(s: string): Option<real> {
    var t := PyStrip(s);
    var neg := t != [] && t[0] == '-';
    var body := if t != [] && (t[0] == '+' || t[0] == '-') then t[1..] else t;
    match Unsigned(body)
    case None => None
    case Some(v) => Some(if neg then -v else v)
  }

  /** The value of unsigned text: a mantissa scaled by the optional exponent. */
  function Unsigned(body: string): Option<real> {
    var e := ExpIndex(body);
    var mant := Mantissa(body[..e]);
    var exp := if e < |body| then Exponent(body[e + 1..]) else Some(0);
    if mant.None? || exp.None? then None else Some(Scale(mant.value, exp.value))
  }

  /** `m` times ten to the power `exp`. */
  function Scale(m: real, exp: int): real {
    if exp >= 0 then TimesTen(m, exp) else OverTen(m, -exp)
  }

  /**
   * A series datum: numbers kept (a bool is an int: 1 or 0), strings through
   * `float`, 0 when `float` raises, 0 for anything else.
   */
  function PyNumber(j: Json): (r: Num)
    ensures j.JNum? ==> r == j.n
    ensures j.JStr? && PyFloat(j.s).Some? ==> r == Real(PyFloat(j.s).value)
    ensures j.JNull? || j.JArr? || j.JObj? ==> r == Int(0)
  {
    match j
    case JNum(n, _) => n
    case JBool(b) => Int(if b then 1 else 0)
    case JStr(s) => (match PyFloat(s) case Some(v) => Real(v) case None => Int(0))
    case _ => Int(0)
  }

  function PyNumbers(items: seq<Json>): (r: seq<Num>)
    ensures |r| == |items| && forall k :: 0 <= k < |items| ==> r[k] == PyNumber(items[k])
  {
    seq(|items|, k requires 0 <= k < |items| => PyNumber(items[k]))
  }

  // ---------------------------------------------------------------------------
  // The Python extraction

  /** A value Python can use as a dict key: a list or a dict cannot. */
  predicate Hashable(j: Json) {
    !j.JArr? && !j.JObj?
  }

  /** `serie.get('name', '数据系列')` of a dict node. */
  function SerieName(fields: seq<(string, Json)>): Json {
    Lookup(fields, "name").GetOr(JStr("数据系列"))
  }

  /** `serie.get('data', [])` of a dict node. */
  function SerieData(fields: seq<(string, Json)>): Json {
    Lookup(fields, "data").GetOr(JArr([]))
  }

  /**
   * One series node: a series when its `data` is truthy, nothing when it is not.
   * The name becomes a key of the y-axis dict, so a list or dict name raises
   * TypeError once the data has been read.
   */
  function PySerie(node: Json): (r: Outcome<Option<Series>>)
    ensures !node.JObj? ==> r.Raised?
  {
    if !node.JObj? then Raised("AttributeError")
    else
      var name := SerieName(node.fields);
      var data := SerieData(node.fields);
      if !Truthy(data) then Ok(None)
      else match PyIterate(data)
        case Raised(m) => Raised(m)
        case Ok(items) =>
          if !Hashable(name) then Raised("TypeError")
          else Ok(Some(Series(PyStr(name), PyNumbers(items))))
  }

  /**
   * What one series node gives: nothing for falsy data, TypeError for a list or
   * dict name once the data has been iterated, and otherwise a series named by
   * the text of a hashable name.
   */
  lemma PySerieOutcome(node: Json)
    ensures node.JObj? && !Truthy(SerieData(node.fields)) ==> PySerie(node) == Ok(None)
    ensures (node.JObj? && Truthy(SerieData(node.fields)) && PyIterate(SerieData(node.fields)).Ok?
             && !Hashable(SerieName(node.fields))) ==> PySerie(node) == Raised("TypeError")
    ensures PySerie(node).Ok? && PySerie(node).value.Some? ==>
      node.JObj? && Hashable(SerieName(node.fields)) && PySerie(node).value.value.name == PyStr(SerieName(node.fields))
  {
  }

  /** The series of the series nodes, or the first exception. */
  function PySeriesOf(nodes: seq<Json>): Outcome<seq<Series>>
    decreases |nodes|
  {
    if nodes == [] then Ok([])
    else match PySeriesOf(nodes[..|nodes| - 1])
      case Raised(m) => Raised(m)
      case Ok(ss) =>
        match PySerie(nodes[|nodes| - 1])
        case Raised(m) => Raised(m)
        case Ok(o) => Ok(ss + (if o.Some? then [o.value] else []))
  }

  /** The labels of the first x axis. */
  function PyLabels(x: Json): Outcome<seq<string>> {
    if !Truthy(x) then Ok([])
    else match PyGet(x, "data", JArr([]))
      case Raised(m) => Raised(m)
      case Ok(data) =>
        if !Truthy(data) then Ok([])
        else match PyIterate(data)
          case Raised(m) => Raised(m)
          case Ok(items) => Ok(PyStrs(items))
  }

  /** The title to give the first y axis, if any. */
  function PyYTitle(y: Json): Outcome<Option<string>> {
    if !Truthy(y) then Ok(None)
    else match PyGet(y, "name", JStr(""))
      case Raised(m) => Raised(m)
      case Ok(name) => Ok(if Truthy(name) then Some(PyStr(name)) else None)
  }

  /** The chart title: `root.get('title', {}).get('text', '默认标题')`. */
  function PyTitle(fields: seq<(string, Json)>): Outcome<string> {
    match PyGet(Lookup(fields, "title").GetOr(JObj([])), "text", JStr("默认标题"))
    case Raised(m) => Raised(m)
    case Ok(t) => Ok(PyStr(t))
  }

  /** The series list: `root.get('series', [])` when it is a list, else none. */
  function PySeriesNodes(fields: seq<(string, Json)>): seq<Json> {
    var s := Lookup(fields, "series").GetOr(JArr([]));
    if s.JArr? then s.items else []
  }

  /** What the Python extraction reads from the value, or the exception it raises. */
  function PyDraft(root: Json): (r: Outcome<Draft>)
    ensures !root.JObj? ==> r.Raised?
  {
    if !root.JObj? then Raised("AttributeError")
    else
      match PyTitle(root.fields)
      case Raised(m) => Raised(m)
      case Ok(title) => PyDraftFrom(root.fields, title)
  }

  /** The extraction after the title: the x axis, the series, then the y axis. */
  function PyDraftFrom(fs: seq<(string, Json)>, title: string): (r: Outcome<Draft>)
    ensures r.Ok? ==> r.value.title == title
  {
    match PyFirst(Lookup(fs, "xAxis").GetOr(JNull))
    case Raised(m) => Raised(m)
    case Ok(x) =>
      match PyLabels(x)
      case Raised(m) => Raised(m)
      case Ok(labels) =>
        match PySeriesOf(PySeriesNodes(fs))
        case Raised(m) => Raised(m)
        case Ok(series) => PyWithYTitle(fs, Draft(title, labels, AxesOf(series, true), None))
  }

  /** The last step of the extraction: the first y axis's name, if any, goes into the draft. */
  function PyWithYTitle(fs: seq<(string, Json)>, d: Draft): (r: Outcome<Draft>)
    ensures r.Ok? ==> r.value == d.(yTitle := r.value.yTitle)
  {
    match PyFirst(Lookup(fs, "yAxis").GetOr(JNull))
    case Raised(m) => Raised(m)
    case Ok(y) =>
      match PyYTitle(y)
      case Raised(m) => Raised(m)
      case Ok(yTitle) => Ok(d.(yTitle := yTitle))
  }

  /** The whole Python conversion: normalise, parse, extract. */
  function PyOutcome(config: string, parse: Parser): Outcome<Draft> {
    match parse(EChartsJson.Normalise(config, false))
    case None => Raised("JSONDecodeError")
    case Some(root) => PyDraft(root)
  }

  /** The Python table of a draft: the y-axis title goes to the first y axis in insertion order. */
  function PyChart(d: Draft): ChartValue {
    Retitled(d, if d.axes.names != [] then Some(d.axes.names[0]) else None)
  }

  // ---------------------------------------------------------------------------
  // Properties of the extraction

  lemma AxesOfSnoc(series: seq<Series>, s: Series, titled: bool)
    ensures AxesOf(series + [s], titled) == AddSeries(AxesOf(series, titled), s, titled)
  {
    assert (series + [s])[..|series|] == series;
  }

  /**
   * The y axes the series make are well formed, and there is a column for a name
   * exactly when some series has that name.
   */
  lemma {:induction false} AxesOfWellFormed(series: seq<Series>, titled: bool)
    ensures AxesWellFormed(AxesOf(series, titled))
    ensures forall n :: n in AxesOf(series, titled).cols <==> exists i :: 0 <= i < |series| && series[i].name == n
  {
    if series != [] {
      var init, s := series[..|series| - 1], series[|series| - 1];
      AxesOfWellFormed(init, titled);
      forall n ensures n in AxesOf(series, titled).cols <==> exists i :: 0 <= i < |series| && series[i].name == n {
        if n in AxesOf(series, titled).cols && n != s.name {
          var i :| 0 <= i < |init| && init[i].name == n;
          assert series[i] == init[i];
        }
        if n == s.name {
          assert series[|series| - 1].name == n;
        }
        if exists i :: 0 <= i < |series| && series[i].name == n {
          var i :| 0 <= i < |series| && series[i].name == n;
          if i < |init| {
            assert init[i] == series[i];
          }
        }
      }
    }
  }

  /** The column of a name holds the data of the last series with that name. */
  lemma {:induction false} LastSeriesWins(series: seq<Series>, titled: bool, i: nat)
    requires i < |series|
    requires forall j :: i < j < |series| ==> series[j].name != series[i].name
    ensures series[i].name in AxesOf(series, titled).cols
    ensures AxesOf(series, titled).cols[series[i].name]
      == ColumnValue(if titled then Some(series[i].name) else None, series[i].data)
  {
    if i < |series| - 1 {
      var init := series[..|series| - 1];
      assert init[i] == series[i];
      LastSeriesWins(init, titled, i);
    }
  }

  /** Once a prefix of the series nodes raises, all of them raise the same exception. */
  lemma {:induction false} PySeriesRaisedExtends(nodes: seq<Json>, i: nat)
    requires i <= |nodes| && PySeriesOf(nodes[..i]).Raised?
    ensures PySeriesOf(nodes) == PySeriesOf(nodes[..i])
    decreases |nodes| - i
  {
    if i < |nodes| {
      PySeriesOfSnoc(nodes, i);
      PySeriesRaisedExtends(nodes, i + 1);
    } else {
      assert nodes[..i] == nodes;
    }
  }

  /** The series of one more node: the exception of the ones before or of the node, or the series extended. */
  lemma PySeriesOfSnoc(nodes: seq<Json>, i: nat)
    requires i < |nodes|
    ensures PySeriesOf(nodes[..i]).Raised? ==> PySeriesOf(nodes[..i + 1]) == PySeriesOf(nodes[..i])
    ensures PySeriesOf(nodes[..i]).Ok? && PySerie(nodes[i]).Raised? ==>
      PySeriesOf(nodes[..i + 1]) == Raised(PySerie(nodes[i]).message)
    ensures PySeriesOf(nodes[..i]).Ok? && PySerie(nodes[i]).Ok? ==>
      PySeriesOf(nodes[..i + 1]) == Ok(PySeriesOf(nodes[..i]).value
        + (if PySerie(nodes[i]).value.Some? then [PySerie(nodes[i]).value.value] else []))
  {
    assert nodes[..i + 1][..i] == nodes[..i];
  }

  /** Digits have no surrounding whitespace to strip. */
  lemma StripDigits(s: string)
    requires s != [] && AllDigits(s)
    ensures PyStrip(s) == s
  {
    assert !IsPySpace(s[0]) && !IsPySpace(s[|s| - 1]);
    assert LeadCount(s, IsPySpace) == 0;
    assert s[0..] == s;
    assert TrailCount(s, IsPySpace) == 0;
  }

  /** Python's `float` reads a run of digits as its decimal value. */
  lemma PyFloatOfDigits(s: string)
    requires s != [] && AllDigits(s)
    ensures PyFloat(s) == Some(ParseNat(s) as real)
  {
    StripDigits(s);
    assert s[0] != '-' && s[0] != '+';
    assert ExpIndex(s) == |s|;
    PyFloatPlain(s, ParseNat(s) as real);
  }

  /** Unsigned text with no exponent and nothing to strip reads as its mantissa. */
  lemma PyFloatPlain(s: string, v: real)
    requires s != [] && PyStrip(s) == s && s[0] != '-' && s[0] != '+'
    requires ExpIndex(s) == |s| && Mantissa(s) == Some(v)
    ensures PyFloat(s) == Some(v)
  {
    UnsignedPlain(s, v);
  }

  /** Text with no exponent is worth its mantissa. */
  lemma UnsignedPlain(s: string, v: real)
    requires ExpIndex(s) == |s| && Mantissa(s) == Some(v)
    ensures Unsigned(s) == Some(v)
  {
    TakeAll(s);
  }



  /** Python's `float` reads back the decimal text of a number. */
  lemma PyFloatOfNat(n: nat)
    ensures PyFloat(NatToString(n)) == Some(n as real)
  {
    NatToStringDigits(n);
    PyFloatOfDigits(NatToString(n));
    ParseNatToString(n);
  }

  /** A string datum: Java's `isNumber` is false for it, Python's `float` reads it. */
  lemma StringDatumDiffers(n: nat)
    ensures JavaNumber(JStr(NatToString(n))) == Int(0)
    ensures PyNumber(JStr(NatToString(n))) == Real(n as real)
  {
    PyFloatOfNat(n);
  }

  /** A boolean datum: 0 in Java, 1 or 0 in Python, where `bool` is an `int`. */
  lemma BoolDatumDiffers()
    ensures JavaNumber(JBool(true)) == Int(0) && PyNumber(JBool(true)) == Int(1)
  {
  }

  /** A series with an empty data list: Java still makes its column, Python skips it. */
  lemma EmptyDataDiffers()
    ensures JavaSerie(JObj([("data", JArr([]))])) == Some(Series("数据系列", []))
    ensures PySerie(JObj([("data", JArr([]))])) == Ok(None)
  {
  }

  /**
   * `{"series": [{"name": [1], "data": [1]}]}`: Java names the column by the
   * list's text, while Python cannot hash the list and raises TypeError.
   */
  lemma ListNameRaises()
    ensures JavaSerie(ListNamed()) == Some(Series("", [Int(1)]))
    ensures PySerie(ListNamed()) == Raised("TypeError")
    ensures PyDraft(JObj([("series", JArr([ListNamed()]))])) == Raised("TypeError")
  {
    assert JavaNumbers([JNum(Int(1), "1")]) == [Int(1)];
    assert PySeriesOf([ListNamed()][..0]) == Ok([]);
  }

  /** A series named by a list. */
  function ListNamed(): Json {
    JObj([("name", JArr([JNum(Int(1), "1")])), ("data", JArr([JNum(Int(1), "1")]))])
  }

  /** A null title: Java falls back to the default title, Python raises. */
  lemma NullTitleDiffers()
    ensures JavaDraft(JObj([("title", JNull)])).Ok?
    ensures JavaDraft(JObj([("title", JNull)])).value.title == "默认标题"
    ensures PyDraft(JObj([("title", JNull)])).Raised?
  {
  }

  /** An empty configuration object gives the same empty chart titled "默认标题" in both. */
  lemma EmptyObjectAgrees()
    ensures JavaDraft(JObj([])) == Ok(Draft("默认标题", [], Axes([], map[]), None))
    ensures PyDraft(JObj([])) == Ok(Draft("默认标题", [], Axes([], map[]), None))
  {
  }

  // ---------------------------------------------------------------------------
  // The converters, step by step on the chart table

  /** The text both converters put before the message of the exception they raise again. */
  const ErrorPrefix := "解析ECharts配置时出错: "

  /** `newYAxis(name)` / `new_y_axis(name)`: an empty column under the name. */
  method NewColumn(table: ChartTable, name: string, titled: bool) returns (col: ChartColumn<Num>)
    requires table.Valid()
    modifies table
    ensures table.Valid() && table.title == old(table.title) && table.xAxis == old(table.xAxis)
    ensures AxesValue(table) == AddSeries(old(AxesValue(table)), Series(name, []), titled)
    ensures fresh(col) && table.yAxis == old(table.yAxis)[name := col]
  {
    col := table.NewYAxis(name, titled);
    ColumnValuesUpdate(old(table.yAxis), name, col);
  }

  /** `addAllData(data)` on the column under the name. */
  method AppendToColumn(table: ChartTable, name: string, data: seq<Num>)
    requires table.Valid() && name in table.yAxis
    modifies table.yAxis[name]
    ensures table.yAxis[name].items == old(table.yAxis[name].items) + data
    ensures table.yAxis[name].title == old(table.yAxis[name].title)
    ensures AxesValue(table) == Axes(old(AxesValue(table)).names, old(AxesValue(table)).cols[name := table.yAxis[name].Value()])
  {
    var col := table.yAxis[name];
    col.AddAllData(data);
    forall n | n in table.yAxis && n != name
      ensures table.yAxis[n].Value() == old(table.yAxis[n].Value())
    {
      assert table.yAxis[n] != col;
    }
  }

  /** `newYAxis(name).addAllData(data)` / `new_y_axis(name).add_all_data(*data)`. */
  method AddColumn(table: ChartTable, s: Series, titled: bool)
    requires table.Valid()
    modifies table
    ensures table.Valid() && table.title == old(table.title) && table.xAxis == old(table.xAxis)
    ensures AxesValue(table) == AddSeries(old(AxesValue(table)), s, titled)
    ensures s.name in table.yAxis && fresh(table.yAxis[s.name])
    ensures table.yAxis == old(table.yAxis)[s.name := table.yAxis[s.name]]
  {
    ghost var before := AxesValue(table);
    var col := NewColumn(table, s.name, titled);
    ghost var mid := AxesValue(table);
    AppendToColumn(table, s.name, s.data);
    assert col.Value() == ColumnValue(if titled then Some(s.name) else None, s.data) by {
      assert [] + s.data == s.data;
    }
    UpdateTwice(before.cols, s.name, ColumnValue(if titled then Some(s.name) else None, []), col.Value());
  }

  /** `getYAxis(first).setTitle(name)`: the one column changes its title. */
  method RetitleColumn(table: ChartTable, first: string, name: string)
    requires table.Valid() && first in table.yAxis
    modifies table.yAxis[first]
    ensures table.yAxis[first].title == Some(name) && table.yAxis[first].items == old(table.yAxis[first].items)
    ensures AxesValue(table) == Axes(old(AxesValue(table)).names, old(AxesValue(table)).cols[first := table.yAxis[first].Value()])
  {
    var col := table.yAxis[first];
    var _ := col.SetTitle(name);
    forall n | n in table.yAxis && n != first
      ensures table.yAxis[n].Value() == old(table.yAxis[n].Value())
    {
      assert table.yAxis[n] != col;
    }
  }

  /** The chart written when extraction throws, then the exception raised again. */
  method Fail(params: WordParams, key: string, titled: bool, message: string) returns (r: Outcome<()>)
    modifies params
    ensures key in params.charts && fresh(params.charts[key]) && params.charts[key].Valid()
    ensures params.charts == old(params.charts)[key := params.charts[key]] && params.params == old(params.params)
    ensures params.charts[key].Value() == DefaultChart(titled)
    ensures r == Raised(ErrorPrefix + message)
  {
    var table := params.AddChart(key);
    table := table.SetTitle("默认图表标题");
    table.xAxis.AddAllData(["数据1", "数据2", "数据3"]);
    var col := table.NewYAxis("默认系列", titled);
    col.AddAllData([Int(10), Int(20), Int(30)]);
    assert ColumnValues(table.yAxis) == map["默认系列" := col.Value()];
    assert table.xAxis.Value() == DefaultChart(titled).x;
    assert col.Value() == DefaultChart(titled).y["默认系列"];
    assert table.Value() == DefaultChart(titled);
    r := Raised(ErrorPrefix + message);
  }

  /** The loop over the x-axis data nodes (Java). */
  method JavaLabelLoop(nodes: seq<Json>) returns (labels: seq<string>)
    ensures labels == Texts(nodes)
  {
    labels := [];
    var i := 0;
    while i < |nodes|
      invariant 0 <= i <= |nodes|
      invariant labels == Texts(nodes[..i])
    {
      labels := labels + [NodeText(nodes[i])];
      i := i + 1;
    }
    assert nodes[..i] == nodes;
  }

  /** The loop over one series' data nodes (Java). */
  method JavaDataLoop(nodes: seq<Json>) returns (values: seq<Num>)
    ensures values == JavaNumbers(nodes)
  {
    values := [];
    var i := 0;
    while i < |nodes|
      invariant 0 <= i <= |nodes|
      invariant values == JavaNumbers(nodes[..i])
    {
      if nodes[i].JNum? {
        values := values + [nodes[i].n];
      } else {
        values := values + [Int(0)];
      }
      i := i + 1;
    }
    assert nodes[..i] == nodes;
  }

  /** The loop over the series nodes (Java). */
  method JavaSeriesLoop(table: ChartTable, nodes: seq<Json>)
    requires table.Valid() && table.yAxis == map[] && table.yNames == []
    modifies table
    ensures table.Valid() && table.title == old(table.title) && table.xAxis == old(table.xAxis)
    ensures forall n :: n in table.yAxis ==> fresh(table.yAxis[n])
    ensures AxesValue(table) == AxesOf(JavaSeriesOf(nodes), false)
  {
    var i := 0;
    while i < |nodes|
      invariant 0 <= i <= |nodes|
      invariant table.Valid() && table.title == old(table.title) && table.xAxis == old(table.xAxis)
      invariant forall n :: n in table.yAxis ==> fresh(table.yAxis[n])
      invariant AxesValue(table) == AxesOf(JavaSeriesOf(nodes[..i]), false)
    {
      JavaSeriesStep(table, nodes, i);
      i := i + 1;
    }
    TakeAll(nodes);
  }

  /** One turn of the Java series loop: the node's series, when its data is an array, becomes a column. */
  method JavaSeriesStep(table: ChartTable, nodes: seq<Json>, i: nat)
    requires i < |nodes| && table.Valid()
    requires AxesValue(table) == AxesOf(JavaSeriesOf(nodes[..i]), false)
    modifies table
    ensures table.Valid() && table.title == old(table.title) && table.xAxis == old(table.xAxis)
    ensures forall n :: n in table.yAxis ==> fresh(table.yAxis[n]) || (n in old(table.yAxis) && table.yAxis[n] == old(table.yAxis)[n])
    ensures AxesValue(table) == AxesOf(JavaSeriesOf(nodes[..i + 1]), false)
  {
    JavaSeriesOfSnoc(nodes, i);
    var name := AsTextOr(Path(Some(nodes[i]), "name"), "数据系列");
    var data := Path(Some(nodes[i]), "data");
    if data.Some? && data.value.JArr? {
      var values := JavaDataLoop(data.value.items);
      assert JavaSerie(nodes[i]) == Some(Series(name, values));
      AddColumn(table, Series(name, values), false);
      AxesOfSnoc(JavaSeriesOf(nodes[..i]), Series(name, values), false);
    } else {
      assert JavaSerie(nodes[i]).None?;
      assert JavaSeriesOf(nodes[..i + 1]) == JavaSeriesOf(nodes[..i]) + [];
      assert JavaSeriesOf(nodes[..i]) + [] == JavaSeriesOf(nodes[..i]);
    }
  }

  /** The series of one more node: the ones before, then its own if it has one. */
  lemma JavaSeriesOfSnoc(nodes: seq<Json>, i: nat)
    requires i < |nodes|
    ensures JavaSeriesOf(nodes[..i + 1])
      == JavaSeriesOf(nodes[..i]) + (if JavaSerie(nodes[i]).Some? then [JavaSerie(nodes[i]).value] else [])
  {
    assert nodes[..i + 1][..i] == nodes[..i];
  }

  /** A table holds its chart value: the title, the x axis and the y axes it was built from. */
  lemma TableValue(t: ChartTable, d: Draft, y: map<string, ColumnValue<Num>>)
    requires t.title == d.title && t.xAxis.Value() == ColumnValue(Some("x轴"), d.x)
    requires t.yNames == d.axes.names && ColumnValues(t.yAxis) == y
    ensures t.Value() == ChartValue(d.title, ColumnValue(Some("x轴"), d.x), d.axes.names, y)
  {
  }

  /** The x-axis step: the first x axis's data nodes as text (Java). */
  method JavaXAxis(table: ChartTable, x: Option<Json>)
    requires table.xAxis.items == []
    modifies table.xAxis
    ensures table.xAxis.items == JavaLabels(x) && table.xAxis.title == old(table.xAxis.title)
  {
    if x.Some? {
      var data := Path(x, "data");
      if data.Some? {
        var labels := JavaLabelLoop(Elements(data));
        table.xAxis.AddAllData(labels);
      }
    }
  }

  /** The series step: a column per series node whose data is an array (Java). */
  method JavaSeries(table: ChartTable, root: Json)
    requires table.Valid() && table.yAxis == map[] && table.yNames == []
    modifies table
    ensures table.Valid() && table.title == old(table.title) && table.xAxis == old(table.xAxis)
    ensures forall n :: n in table.yAxis ==> fresh(table.yAxis[n])
    ensures AxesValue(table) == AxesOf(JavaSeriesOf(JavaSeriesNodes(root)), false)
  {
    var seriesNode := Path(Some(root), "series");
    if seriesNode.Some? && seriesNode.value.JArr? {
      JavaSeriesLoop(table, seriesNode.value.items);
    }
  }

  /** Everything after the table is registered: the axes and the series, or the exception (Java). */
  method JavaFill(table: ChartTable, root: Json) returns (failure: Option<string>)
    requires table.Valid() && table.yAxis == map[] && table.yNames == []
    requires table.title == AsTextOr(Path(Path(Some(root), "title"), "text"), "默认标题")
    requires table.xAxis.title == Some("x轴") && table.xAxis.items == []
    modifies table, table.xAxis
    ensures table.Valid()
    ensures failure.Some? <==> JavaDraft(root).Raised?
    ensures failure.Some? ==> failure.value == JavaDraft(root).message
    ensures failure.None? ==> JavaHolds(table.Value(), JavaDraft(root).value)
  {
    var x := JavaFirst(Path(Some(root), "xAxis"));
    if x.Raised? {
      return Some(x.message);
    }
    failure := JavaFillFrom(table, root, x.value);
  }

  /** The steps after the x axis was found (Java). */
  method JavaFillFrom(table: ChartTable, root: Json, x: Option<Json>) returns (failure: Option<string>)
    requires table.Valid() && table.yAxis == map[] && table.yNames == []
    requires table.title == AsTextOr(Path(Path(Some(root), "title"), "text"), "默认标题")
    requires table.xAxis.title == Some("x轴") && table.xAxis.items == []
    requires JavaFirst(Path(Some(root), "xAxis")) == Ok(x)
    modifies table, table.xAxis
    ensures table.Valid()
    ensures failure.Some? <==> JavaDraft(root).Raised?
    ensures failure.Some? ==> failure.value == JavaDraft(root).message
    ensures failure.None? ==> JavaHolds(table.Value(), JavaDraft(root).value)
  {
    JavaXAxis(table, x);
    JavaSeries(table, root);
    var y := JavaFirst(Path(Some(root), "yAxis"));
    if y.Raised? {
      return Some(y.message);
    }
    ghost var d := Draft(table.title, JavaLabels(x), AxesOf(JavaSeriesOf(JavaSeriesNodes(root)), false), JavaYTitle(y.value));
    JavaDraftOk(root, x, y.value);
    var name := "";
    if y.value.Some? {
      name := AsTextOr(Path(y.value, "name"), "");
    }
    JavaRetitle(table, d, name);
    failure := None;
  }

  /** When both first axes are found, the draft is made of the title, the labels, the series and the y title. */
  lemma JavaDraftOk(root: Json, x: Option<Json>, y: Option<Json>)
    requires JavaFirst(Path(Some(root), "xAxis")) == Ok(x) && JavaFirst(Path(Some(root), "yAxis")) == Ok(y)
    ensures JavaDraft(root) == Ok(Draft(AsTextOr(Path(Path(Some(root), "title"), "text"), "默认标题"),
      JavaLabels(x), AxesOf(JavaSeriesOf(JavaSeriesNodes(root)), false), JavaYTitle(y)))
  {
  }

  /** The y-axis step: a non-empty name titles the column the HashMap iterates first (Java). */
  method JavaRetitle(table: ChartTable, ghost d: Draft, name: string)
    requires table.Valid() && AxesValue(table) == d.axes
    requires table.title == d.title && table.xAxis.Value() == ColumnValue(Some("x轴"), d.x)
    requires d.yTitle == if name != "" then Some(name) else None
    modifies table.yAxis.Values
    ensures JavaHolds(table.Value(), d)
  {
    if name != "" && table.yAxis != map[] {
      assert table.yNames != [] && table.yNames[0] in table.yAxis;
      var first :| first in table.yAxis;
      RetitleColumn(table, first, name);
      TableValue(table, d, Retitled(d, Some(first)).y);
    } else {
      assert table.yNames == [] || d.yTitle.None? by {
        if table.yNames != [] {
          assert table.yNames[0] in table.yAxis;
        }
      }
      TableValue(table, d, Retitled(d, None).y);
    }
  }

  /**
   * What the Java conversion leaves: success exactly when extraction succeeds, and
   * then the table holds the draft; otherwise the default chart, and the message
   * of the exception after the error prefix.
   */
  predicate JavaConverted(v: ChartValue, r: Outcome<()>, extracted: Outcome<Draft>) {
    && (r.Ok? <==> extracted.Ok?)
    && (r.Ok? ==> JavaHolds(v, extracted.value))
    && (r.Raised? ==> v == DefaultChart(false) && r.message == ErrorPrefix + extracted.message)
  }

  /**
   * `convertEChartsToWordChart(params, chartKey, echartsConfig)`: the table under
   * the key holds what the configuration gives, or the default chart when
   * extraction throws, and then the exception is raised again.
   */
  method ConvertJava(params: WordParams, key: string, config: string, parse: Parser) returns (r: Outcome<()>)
    modifies params
    ensures key in params.charts && fresh(params.charts[key]) && params.charts[key].Valid()
    ensures params.charts == old(params.charts)[key := params.charts[key]] && params.params == old(params.params)
    ensures JavaConverted(params.charts[key].Value(), r, JavaOutcome(config, parse))
  {
    var root := parse(EChartsJson.Normalise(config, true));
    if root.None? {
      r := Fail(params, key, false, "IOException");
    } else {
      r := ConvertJavaRoot(params, key, root.value);
    }
  }

  /** The Java conversion once the configuration has parsed. */
  method ConvertJavaRoot(params: WordParams, key: string, root: Json) returns (r: Outcome<()>)
    modifies params
    ensures key in params.charts && fresh(params.charts[key]) && params.charts[key].Valid()
    ensures params.charts == old(params.charts)[key := params.charts[key]] && params.params == old(params.params)
    ensures JavaConverted(params.charts[key].Value(), r, JavaDraft(root))
  {
    var failure := JavaChart(params, key, root);
    if failure.Some? {
      ghost var filled := params.charts[key];
      r := Fail(params, key, false, failure.value);
      UpdateTwice(old(params.charts), key, filled, params.charts[key]);
    } else {
      r := Ok(());
    }
  }

  /** The chart the Java extraction fills: a new table under the key, titled, then filled from the root. */
  method JavaChart(params: WordParams, key: string, root: Json) returns (failure: Option<string>)
    modifies params
    ensures key in params.charts && fresh(params.charts[key]) && params.charts[key].Valid()
    ensures params.charts == old(params.charts)[key := params.charts[key]] && params.params == old(params.params)
    ensures failure.Some? <==> JavaDraft(root).Raised?
    ensures failure.Some? ==> failure.value == JavaDraft(root).message
    ensures failure.None? ==> JavaHolds(params.charts[key].Value(), JavaDraft(root).value)
  {
    var title := AsTextOr(Path(Path(Some(root), "title"), "text"), "默认标题");
    var table := params.AddChart(key);
    table := table.SetTitle(title);
    failure := JavaFill(table, root);
  }

  // ---------------------------------------------------------------------------
  // The Python converter, step by step on the chart table

  /** The loop over one series' data items (Python): numbers kept, strings through `float`, 0 otherwise. */
  method PyDataLoop(items: seq<Json>) returns (values: seq<Num>)
    ensures values == PyNumbers(items)
  {
    values := [];
    var i := 0;
    while i < |items|
      invariant 0 <= i <= |items|
      invariant values == PyNumbers(items[..i])
    {
      var v: Num;
      match items[i] {
        case JNum(n, _) => v := n;
        case JBool(b) => v := Int(if b then 1 else 0);
        case JStr(t) =>
          var f := PyFloat(t);
          v := if f.Some? then Real(f.value) else Int(0);
        case _ => v := Int(0);
      }
      values := values + [v];
      i := i + 1;
    }
    assert items[..i] == items;
  }

  /** The x-axis step (Python): a truthy first x axis's truthy `data`, iterated, as text. */
  method PyXAxis(table: ChartTable, x: Json) returns (failure: Option<string>)
    requires table.xAxis.items == []
    modifies table.xAxis
    ensures table.xAxis.title == old(table.xAxis.title)
    ensures failure.Some? <==> PyLabels(x).Raised?
    ensures failure.Some? ==> failure.value == PyLabels(x).message
    ensures failure.None? ==> table.xAxis.items == PyLabels(x).value
  {
    if Truthy(x) {
      var data := PyGet(x, "data", JArr([]));
      if data.Raised? {
        return Some(data.message);
      }
      if Truthy(data.value) {
        var items := PyIterate(data.value);
        if items.Raised? {
          return Some(items.message);
        }
        table.xAxis.AddAllData(PyStrs(items.value));
      }
    }
    failure := None;
  }

  /** The loop over the series nodes (Python), stopped by the first exception. */
  method PySeriesLoop(table: ChartTable, nodes: seq<Json>) returns (failure: Option<string>)
    requires table.Valid() && table.yAxis == map[] && table.yNames == []
    modifies table
    ensures table.Valid() && table.title == old(table.title) && table.xAxis == old(table.xAxis)
    ensures forall n :: n in table.yAxis ==> fresh(table.yAxis[n])
    ensures failure.Some? <==> PySeriesOf(nodes).Raised?
    ensures failure.Some? ==> failure.value == PySeriesOf(nodes).message
    ensures failure.None? ==> AxesValue(table) == AxesOf(PySeriesOf(nodes).value, true)
  {
    assert nodes[..0] == [];
    var i := 0;
    while i < |nodes|
      invariant 0 <= i <= |nodes|
      invariant table.Valid() && table.title == old(table.title) && table.xAxis == old(table.xAxis)
      invariant forall n :: n in table.yAxis ==> fresh(table.yAxis[n])
      invariant PySeriesOf(nodes[..i]).Ok?
      invariant AxesValue(table) == AxesOf(PySeriesOf(nodes[..i]).value, true)
    {
      failure := PySeriesStep(table, nodes, i);
      if failure.Some? {
        PySeriesRaisedExtends(nodes, i + 1);
        return;
      }
      i := i + 1;
    }
    TakeAll(nodes);
    failure := None;
  }

  /**
   * One turn of the Python series loop: a node that is not a dict raises; a node
   * with truthy `data` becomes a titled column, or raises when the data cannot be
   * iterated.
   */
  method PySeriesStep(table: ChartTable, nodes: seq<Json>, i: nat) returns (failure: Option<string>)
    requires i < |nodes| && table.Valid()
    requires PySeriesOf(nodes[..i]).Ok? && AxesValue(table) == AxesOf(PySeriesOf(nodes[..i]).value, true)
    modifies table
    ensures table.Valid() && table.title == old(table.title) && table.xAxis == old(table.xAxis)
    ensures forall n :: n in table.yAxis ==> fresh(table.yAxis[n]) || (n in old(table.yAxis) && table.yAxis[n] == old(table.yAxis)[n])
    ensures failure.Some? <==> PySeriesOf(nodes[..i + 1]).Raised?
    ensures failure.Some? ==> failure.value == PySeriesOf(nodes[..i + 1]).message
    ensures failure.None? ==> AxesValue(table) == AxesOf(PySeriesOf(nodes[..i + 1]).value, true)
  {
    PySeriesOfSnoc(nodes, i);
    failure := PySerieColumn(table, nodes[i], PySeriesOf(nodes[..i]).value);
  }

  /** The body of the Python series loop for one node, after the series before it. */
  method PySerieColumn(table: ChartTable, node: Json, ghost before: seq<Series>) returns (failure: Option<string>)
    requires table.Valid() && AxesValue(table) == AxesOf(before, true)
    modifies table
    ensures table.Valid() && table.title == old(table.title) && table.xAxis == old(table.xAxis)
    ensures forall n :: n in table.yAxis ==> fresh(table.yAxis[n]) || (n in old(table.yAxis) && table.yAxis[n] == old(table.yAxis)[n])
    ensures failure.Some? <==> PySerie(node).Raised?
    ensures failure.Some? ==> failure.value == PySerie(node).message
    ensures failure.None? ==>
      AxesValue(table) == AxesOf(before + (if PySerie(node).value.Some? then [PySerie(node).value.value] else []), true)
  {
    if !node.JObj? {
      return Some("AttributeError");
    }
    var name := SerieName(node.fields);
    var data := SerieData(node.fields);
    if !Truthy(data) {
      assert before + [] == before;
      return None;
    }
    var items := PyIterate(data);
    if items.Raised? {
      return Some(items.message);
    }
    var values := PyDataLoop(items.value);
    if !Hashable(name) {
      return Some("TypeError");
    }
    assert PySerie(node) == Ok(Some(Series(PyStr(name), values)));
    AddColumn(table, Series(PyStr(name), values), true);
    AxesOfSnoc(before, Series(PyStr(name), values), true);
    failure := None;
  }

  /**
   * The y-axis step (Python): a name on the first y axis titles the first column in
   * insertion order, when there is one.
   */
  method PyRetitle(table: ChartTable, ghost d: Draft, yTitle: Option<string>)
    requires table.Valid() && AxesValue(table) == d.axes
    requires table.title == d.title && table.xAxis.Value() == ColumnValue(Some("x轴"), d.x)
    requires d.yTitle == yTitle
    modifies table.yAxis.Values
    ensures table.Value() == PyChart(d)
  {
    if yTitle.Some? && table.yAxis != map[] {
      assert table.yNames != [] by {
        var n :| n in table.yAxis;
      }
      assert table.yNames[0] in table.yAxis;
      var first := table.yNames[0];
      RetitleColumn(table, first, yTitle.value);
      TableValue(table, d, Retitled(d, Some(first)).y);
    } else {
      assert table.yNames == [] || d.yTitle.None? by {
        if table.yNames != [] {
          assert table.yNames[0] in table.yAxis;
        }
      }
      TableValue(table, d, PyChart(d).y);
    }
  }

  /** The y-axis step (Python): the first y axis, its name, then the retitling. */
  method PyYAxis(table: ChartTable, fs: seq<(string, Json)>, ghost d: Draft) returns (failure: Option<string>)
    requires table.Valid() && AxesValue(table) == d.axes
    requires table.title == d.title && table.xAxis.Value() == ColumnValue(Some("x轴"), d.x)
    modifies table.yAxis.Values
    ensures failure.Some? <==> PyWithYTitle(fs, d).Raised?
    ensures failure.Some? ==> failure.value == PyWithYTitle(fs, d).message
    ensures failure.None? ==> table.Value() == PyChart(PyWithYTitle(fs, d).value)
  {
    var y := PyFirst(Lookup(fs, "yAxis").GetOr(JNull));
    if y.Raised? {
      return Some(y.message);
    }
    var yTitle: Option<string> := None;
    if Truthy(y.value) {
      var name := PyGet(y.value, "name", JStr(""));
      if name.Raised? {
        return Some(name.message);
      }
      if Truthy(name.value) {
        yTitle := Some(PyStr(name.value));
      }
    }
    assert PyYTitle(y.value) == Ok(yTitle);
    PyRetitle(table, d.(yTitle := yTitle), yTitle);
    failure := None;
  }

  /** Everything after the table is registered and titled (Python): the x axis, the series, the y axis. */
  method PyFill(table: ChartTable, fs: seq<(string, Json)>, title: string) returns (failure: Option<string>)
    requires table.Valid() && table.yAxis == map[] && table.yNames == [] && table.title == title
    requires table.xAxis.title == Some("x轴") && table.xAxis.items == []
    modifies table, table.xAxis
    ensures table.Valid()
    ensures failure.Some? <==> PyDraftFrom(fs, title).Raised?
    ensures failure.Some? ==> failure.value == PyDraftFrom(fs, title).message
    ensures failure.None? ==> table.Value() == PyChart(PyDraftFrom(fs, title).value)
  {
    var x := PyFirst(Lookup(fs, "xAxis").GetOr(JNull));
    if x.Raised? {
      return Some(x.message);
    }
    failure := PyXAxis(table, x.value);
    if failure.Some? {
      return;
    }
    var seriesNode := Lookup(fs, "series").GetOr(JArr([]));
    var nodes := if seriesNode.JArr? then seriesNode.items else [];
    failure := PySeriesLoop(table, nodes);
    if failure.Some? {
      return;
    }
    ghost var d := Draft(title, PyLabels(x.value).value, AxesOf(PySeriesOf(nodes).value, true), None);
    failure := PyYAxis(table, fs, d);
  }

  /** The chart the Python extraction fills: a new table under the key, titled, then filled. */
  method PyChartFill(params: WordParams, key: string, fs: seq<(string, Json)>, title: string) returns (failure: Option<string>)
    modifies params
    ensures key in params.charts && fresh(params.charts[key]) && params.charts[key].Valid()
    ensures params.charts == old(params.charts)[key := params.charts[key]] && params.params == old(params.params)
    ensures failure.Some? <==> PyDraftFrom(fs, title).Raised?
    ensures failure.Some? ==> failure.value == PyDraftFrom(fs, title).message
    ensures failure.None? ==> params.charts[key].Value() == PyChart(PyDraftFrom(fs, title).value)
  {
    var table := params.AddChart(key);
    table := table.SetTitle(title);
    failure := PyFill(table, fs, title);
  }

  /**
   * What the Python conversion leaves: success exactly when extraction succeeds, and
   * then the table holds the draft with the y-axis title on the first column;
   * otherwise the default chart with titled columns, and the message of the
   * exception after the error prefix.
   */
  predicate PyConverted(v: ChartValue, r: Outcome<()>, extracted: Outcome<Draft>) {
    && (r.Ok? <==> extracted.Ok?)
    && (r.Ok? ==> v == PyChart(extracted.value))
    && (r.Raised? ==> v == DefaultChart(true) && r.message == ErrorPrefix + extracted.message)
  }

  /**
   * `convert_echarts_to_word_chart(params, chart_key, echarts_config)`: the table
   * under the key holds what the configuration gives, or the default chart when
   * anything raises, and then the exception is raised again.
   */
  method ConvertPy(params: WordParams, key: string, config: string, parse: Parser) returns (r: Outcome<()>)
    modifies params
    ensures key in params.charts && fresh(params.charts[key]) && params.charts[key].Valid()
    ensures params.charts == old(params.charts)[key := params.charts[key]] && params.params == old(params.params)
    ensures PyConverted(params.charts[key].Value(), r, PyOutcome(config, parse))
  {
    var root := parse(EChartsJson.Normalise(config, false));
    if root.None? {
      r := Fail(params, key, true, "JSONDecodeError");
    } else {
      r := ConvertPyRoot(params, key, root.value);
    }
  }

  /** The Python conversion once the configuration has parsed; the title is read before the table is registered. */
  method ConvertPyRoot(params: WordParams, key: string, root: Json) returns (r: Outcome<()>)
    modifies params
    ensures key in params.charts && fresh(params.charts[key]) && params.charts[key].Valid()
    ensures params.charts == old(params.charts)[key := params.charts[key]] && params.params == old(params.params)
    ensures PyConverted(params.charts[key].Value(), r, PyDraft(root))
  {
    if !root.JObj? {
      r := Fail(params, key, true, "AttributeError");
      return;
    }
    var title := PyTitle(root.fields);
    if title.Raised? {
      r := Fail(params, key, true, title.message);
      return;
    }
    var failure := PyChartFill(params, key, root.fields, title.value);
    if failure.Some? {
      ghost var filled := params.charts[key];
      r := Fail(params, key, true, failure.value);
      UpdateTwice(old(params.charts), key, filled, params.charts[key]);
    } else {
      r := Ok(());
    }
  }

  // ---------------------------------------------------------------------------
  // The bar-chart shortcut and the chart type

  /**
   * `createBarChart` / `create_bar_chart`: a table under the key with the title, the
   * labels on the x axis and one series; `titled` is Python's column title.
   */
  method CreateBarChart(params: WordParams, key: string, title: string, labels: seq<string>,
                        seriesName: string, data: seq<Num>, titled: bool)
    modifies params
    ensures key in params.charts && fresh(params.charts[key]) && params.charts[key].Valid()
    ensures params.charts == old(params.charts)[key := params.charts[key]] && params.params == old(params.params)
    ensures params.charts[key].Value() == Retitled(Draft(title, labels, AxesOf([Series(seriesName, data)], titled), None), None)
  {
    var table := params.AddChart(key);
    table := table.SetTitle(title);
    table.xAxis.AddAllData(labels);
    BarColumn(table, Series(seriesName, data), titled);
    TableValue(table, Draft(title, labels, AxesOf([Series(seriesName, data)], titled), None), AxesValue(table).cols);
  }

  /** The one series of a bar chart, as a column of an empty table. */
  method BarColumn(table: ChartTable, s: Series, titled: bool)
    requires table.Valid() && table.yAxis == map[] && table.yNames == []
    modifies table
    ensures table.Valid() && table.title == old(table.title) && table.xAxis == old(table.xAxis)
    ensures AxesValue(table) == AxesOf([s], titled)
  {
    assert AxesValue(table) == AxesOf([], titled);
    AddColumn(table, s, titled);
    AxesOfSnoc([], s, titled);
    assert [] + [s] == [s];
  }

  /** A bar chart has exactly one column, under the series name, holding the data. */
  lemma BarChartShape(title: string, labels: seq<string>, seriesName: string, data: seq<Num>, titled: bool)
    ensures var v := Retitled(Draft(title, labels, AxesOf([Series(seriesName, data)], titled), None), None);
      && v.title == title && v.x == ColumnValue(Some("x轴"), labels)
      && v.yNames == [seriesName]
      && v.y == map[seriesName := ColumnValue(if titled then Some(seriesName) else None, data)]
  {
    AxesOfSnoc([], Series(seriesName, data), titled);
    assert [] + [Series(seriesName, data)] == [Series(seriesName, data)];
  }

  /**
   * The type the first series declares: the `type` member of the first element of a
   * non-empty `series` list of an object.
   */
  function DeclaredType(root: Json): Option<Json> {
    if root.JObj? && Lookup(root.fields, "series").Some? then
      var s := Lookup(root.fields, "series").value;
      if s.JArr? && |s.items| > 0 && s.items[0].JObj? then Lookup(s.items[0].fields, "type") else None
    else None
  }

  /**
   * `extract_chart_type(echarts_config)` (Python): the first series' `type`, 'bar'
   * when it has none, and 'bar' whenever parsing or reading raises.
   */
  function ExtractChartType(config: string, parse: Parser): (r: Json)
    ensures var root := parse(EChartsJson.Normalise(config, false));
      if root.Some? && DeclaredType(root.value).Some? then r == DeclaredType(root.value).value else r == JStr("bar")
  {
    match parse(EChartsJson.Normalise(config, false))
    case None => JStr("bar")
    case Some(root) =>
      if !root.JObj? then JStr("bar")
      else
        var s := Lookup(root.fields, "series").GetOr(JArr([]));
        if s.JArr? && s.items != [] then
          match PyGet(s.items[0], "type", JStr("bar"))
          case Raised(_) => JStr("bar")
          case Ok(t) => t
        else JStr("bar")
  }
}
