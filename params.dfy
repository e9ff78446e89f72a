/**
 * The values a placeholder can be bound to (`WordParam` and its Python
 * counterparts) and the parameter store (`WordParams`) that holds them
 * beside a separate map of chart tables.
 */
module Params {
  import opened Wrappers
  import opened Text
  import opened Charts
  import opened Images

  /** Encoded picture bytes, as produced by the image codec. */
  type Bytes = seq<bv8>

  /**
   * The three kinds of value, and no others: a text, a picture with its
   * size in EMU, and a table given as rows of cell texts.
   */
  datatype WordParam =
    | Text(msg: string)
    | Image(content: Bytes, width: int, height: int)
    | Table(data: seq<seq<string>>)

  /**
   * `String.valueOf(x)` (Java) and `str(x)` (Python) for a string or a
   * missing value: the string itself, or "null" / "None".
   */
  function Stringify(x: Option<string>, python: bool): (r: string)
    ensures x.Some? ==> r == x.value
    ensures x.None? ==> r == (if python then "None" else "null")
  {
    match x
    case Some(s) => s
    case None => if python then "None" else "null"
  }

  /** `WordParam.text(x)` / `WordParams.text(x)`: a text value holding the printed argument. */
  function TextParam(x: Option<string>, python: bool): (r: WordParam)
    ensures r.Text? && r.msg == Stringify(x, python)
  {
    Text(Stringify(x, python))
  }

  /** `WordParam.table(data)` / `WordParams.table(data)`: the rows, unchanged. */
  function TableParam(data: seq<seq<string>>): (r: WordParam)
    ensures r.Table? && r.data == data
  {
    Table(data)
  }

  /** What loading and encoding an image gave, as seen by `WordParam.image(String)`. */
  datatype Loaded =
    | Decoded(widthPx: int, heightPx: int, jpeg: Bytes)
    | NotLoaded
    | Threw(message: Option<string>)

  /** `imagePlaceholder`: "[图片加载失败: <source>]\n原因: <reason>". */
  function ImagePlaceholder(src: Option<string>, reason: string): (r: WordParam)
    ensures r.Text?
    ensures r.msg == "[图片加载失败: " + Stringify(src, false) + "]\n原因: " + reason
  {
    Text("[图片加载失败: " + Stringify(src, false) + "]\n原因: " + reason)
  }

  /**
   * `WordParam.image(String)`: a picture scaled by `calculateAdaptiveSize` and
   * converted to EMU when the image could be loaded and encoded; otherwise a text
   * placeholder that names the source and the reason. It never raises.
   */
  function ImageFromSource(src: Option<string>, loaded: Loaded): (r: WordParam)
    ensures loaded.Decoded? ==> r.Image? && r.content == loaded.jpeg
    ensures loaded.Decoded? && 0 <= loaded.widthPx && 0 <= loaded.heightPx <= 225457 ==>
      r.width == 9525 * AdaptiveSize(loaded.widthPx, loaded.heightPx).0 &&
      r.height == 9525 * AdaptiveSize(loaded.widthPx, loaded.heightPx).1 &&
      r.width <= 9525 * MaxWidthPixels
    ensures loaded.NotLoaded? ==> r == ImagePlaceholder(src, "图片加载失败")
    ensures loaded.Threw? ==> r == ImagePlaceholder(src, "图片处理异常: " + Stringify(loaded.message, false))
  {
    match loaded
    case Decoded(w, h, bytes) =>
      var size := AdaptiveSize(w, h);
      PixelToEmuExact(size.0);
      PixelToEmuExact(size.1);
      Image(bytes, PixelToEmu(size.0), PixelToEmu(size.1))
    case NotLoaded => ImagePlaceholder(src, "图片加载失败")
    case Threw(m) => ImagePlaceholder(src, "图片处理异常: " + Stringify(m, false))
  }

  /**
   * `WordParam.image(String)` over `downloadOrReadImage`: a blank source is refused
   * before any loading; any other is trimmed, classified as a URL or a local path
   * and handed to `load`, which stands for the download or read and the encoding.
   */
  function ImageParam(src: Option<string>, load: Source -> Loaded): (r: WordParam)
    ensures Classify(src) == NoSource ==> r == ImagePlaceholder(src, "图片加载失败")
    ensures Classify(src) != NoSource ==> r == ImageFromSource(src, load(Classify(src)))
  {
    var source := Classify(src);
    if source == NoSource then ImageFromSource(src, NotLoaded) else ImageFromSource(src, load(source))
  }

  /** A blank source never reaches the loader: whatever the loader would do, it becomes the placeholder. */
  lemma BlankSourceGivesPlaceholder(src: Option<string>, load: Source -> Loaded, other: Source -> Loaded)
    requires src.None? || JavaBlank(src.value)
    ensures ImageParam(src, load) == ImagePlaceholder(src, "图片加载失败")
    ensures ImageParam(src, load) == ImageParam(src, other)
  {
  }

  /**
   * `WordParams` (Java) / `WordParams` (Python): placeholder values by key, and
   * chart tables by key in a second, separate map.
   */
  class WordParams {
    var params: map<string, WordParam>
    var charts: map<string, ChartTable>

    /** `WordParams.create()` / `WordParams()`: both maps empty. */
    constructor ()
      ensures params == map[] && charts == map[]
    {
      params := map[];
      charts := map[];
    }

    /** `setParam` / `set_param`: binds the key, replacing any earlier value. */
    method SetParam(key: string, value: WordParam)
      modifies this
      ensures params == old(params)[key := value] && charts == old(charts)
    {
      params := params[key := value];
    }

    /** `setText` / `set_text`: binds the key to the printed value. */
    method SetText(key: string, value: Option<string>, python: bool)
      modifies this
      ensures params == old(params)[key := Text(Stringify(value, python))] && charts == old(charts)
    {
      SetParam(key, TextParam(value, python));
    }

    /** `setChart` / `set_chart`: binds a chart table, leaving the values alone. */
    method SetChart(key: string, table: ChartTable)
      modifies this
      ensures charts == old(charts)[key := table] && params == old(params)
    {
      charts := charts[key := table];
    }

    /** `addChart` / `add_chart`: registers a new table titled with the key and returns it. */
    method AddChart(key: string) returns (table: ChartTable)
      modifies this
      ensures fresh(table) && fresh(table.xAxis) && table.Valid()
      ensures table.title == key && table.xAxis.title == Some("x轴") && table.xAxis.items == []
      ensures table.yAxis == map[] && table.yNames == []
      ensures charts == old(charts)[key := table] && params == old(params)
    {
      table := new ChartTable(key);
      SetChart(key, table);
    }

    /** `getParam` / `get_param`: the value, or `null`/`None` for an unbound key. */
    method GetParam(key: string) returns (value: Option<WordParam>)
      ensures key in params ==> value == Some(params[key])
      ensures key !in params ==> value == None
    {
      value := if key in params then Some(params[key]) else None;
    }

    /** `getChart` / `get_chart`: the table, or `null`/`None`. */
    method GetChart(key: string) returns (table: Option<ChartTable>)
      ensures key in charts ==> table == Some(charts[key])
      ensures key !in charts ==> table == None
    {
      table := if key in charts then Some(charts[key]) else None;
    }
  }

  /**
   * The two maps never see each other: a key bound only as a chart is unbound as
   * a value, and the last `setParam` for a key wins.
   */
  method SeparateMaps(key: string, first: WordParam, second: WordParam) returns (asValue: Option<WordParam>, asChart: bool, other: Option<WordParam>)
    ensures asValue == Some(second)
    ensures asChart
    ensures other == None
  {
    var store := new WordParams();
    var t := store.AddChart(key + "#");
    store.SetParam(key, first);
    store.SetParam(key, second);
    asValue := store.GetParam(key);
    var c := store.GetChart(key + "#");
    asChart := c.Some?;
    assert key + "#" != key by {
      assert |key + "#"| != |key|;
    }
    other := store.GetParam(key + "#");
  }
}
