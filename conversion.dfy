/**
 * `convertMarkdownToWord` / `convert_markdown_to_word`: write the skeleton to a
 * temporary template next to the output, run the collectors over the same text
 * in each converter's order, bind the title, let the generator turn the template
 * into the output, and delete the template. The file system is modelled as the
 * set of paths that exist; the generator's own work is the outcome it
 * reports.
 */
module Conversion {
  import opened Wrappers
  import opened Text
  import opened Charts
  import opened Params
  import opened Lines
  import opened Templates
  import Images
  import opened Titles
  import opened Collectors
  import opened PyCollectors
  import E = ECharts

  const Docx := ".docx"
  const TemplateSuffix := "_template.docx"

  /** `outputFile.replace(".docx", "_template.docx")`, as all three converters write it. */
  function TemplatePath(output: string): string {
    ReplaceAll(output, Docx, TemplateSuffix)
  }

  /** Whether ".docx" occurs anywhere in the path. */
  predicate HasDocx(s: string) {
    exists k | 0 <= k <= |s| :: OccursAt(s, Docx, k)
  }

  lemma HasDocxOccurs(s: string)
    ensures HasDocx(s) <==> Occurs(s, Docx)
  {
    if Occurs(s, Docx) {
      var k :| OccursAt(s, Docx, k);
      assert 0 <= k <= |s|;
    }
  }

  /** Replacing by a longer text never shortens, and lengthens whenever the pattern occurs. */
  lemma {:induction false} ReplaceAllGrows(s: string, pat: string, rep: string)
    requires pat != [] && |rep| > |pat|
    ensures |ReplaceAll(s, pat, rep)| >= |s|
    ensures Occurs(s, pat) ==> |ReplaceAll(s, pat, rep)| > |s|
    decreases |s|
  {
    if s != [] {
      if pat <= s {
        ReplaceAllGrows(s[|pat|..], pat, rep);
      } else {
        ReplaceAllGrows(s[1..], pat, rep);
        if Occurs(s, pat) {
          var k :| OccursAt(s, pat, k);
          assert k != 0;
          assert s[1..][k - 1..k - 1 + |pat|] == s[k..k + |pat|];
          assert OccursAt(s[1..], pat, k - 1);
        }
      }
    }
  }

  /**
   * As written: without ".docx" in the output path the template path is the
   * output path itself, so the template overwrites the output's place and the
   * final deletion of the template deletes the output.
   */
  lemma TemplatePathWithoutDocx(output: string)
    requires !HasDocx(output)
    ensures TemplatePath(output) == output
  {
    HasDocxOccurs(output);
    ReplaceAllAbsent(output, Docx, TemplateSuffix);
  }

  /**
   * The template path the converters evidently intend: the same as written
   * whenever the output path names a ".docx" file, and the suffix appended
   * otherwise, so that it never coincides with the output.
   */
  function SafeTemplatePath(output: string): (t: string)
    ensures t != output
    ensures HasDocx(output) ==> t == TemplatePath(output)
    ensures |t| > |output|
  {
    if HasDocx(output) then
      HasDocxOccurs(output);
      ReplaceAllGrows(output, Docx, TemplateSuffix);
      TemplatePath(output)
    else output + TemplateSuffix
  }

  /**
   * The files after a converter finishes normally: the template was written and
   * deleted again, and the output exists when the generator built it.
   */
  function Finished(files: set<string>, template: string, output: string, built: bool): set<string> {
    (files + {template} + (if built then {output} else {})) - {template}
  }

  /** With the intended template path a built output survives, the template does not, and no other file changes. */
  lemma FinishedKeepsOutput(files: set<string>, output: string, built: bool)
    ensures var after := Finished(files, SafeTemplatePath(output), output, built);
      && SafeTemplatePath(output) !in after
      && (built ==> output in after)
      && (forall f :: f != SafeTemplatePath(output) && f != output ==> (f in after <==> f in files))
  {
  }

  /** As written, an output path naming a ".docx" file keeps a built output and loses the template. */
  lemma DocxOutputKept(files: set<string>, output: string, built: bool)
    requires HasDocx(output)
    ensures var after := Finished(files, TemplatePath(output), output, built);
      && TemplatePath(output) !in after
      && (built ==> output in after)
  {
    FinishedKeepsOutput(files, output, built);
  }

  /**
   * What `PoiWordGenerator.buildDoc` (both Java versions) does: it writes the output, or
   * returns false after an I/O or format error (which it catches), or lets any
   * other exception, such as the index error of the run scan, escape to the
   * converter before the output is opened.
   */
  datatype Generated = Built | NotBuilt | Threw(message: string)

  /** The finding: a built document whose path lacks ".docx" is deleted along with the template. */
  lemma OutputLostAsWritten(files: set<string>)
    ensures "report" !in Finished(files, TemplatePath("report"), "report", true)
  {
    assert !HasDocx("report") by {
      forall k | 0 <= k <= |"report"|
        ensures !OccursAt("report", Docx, k)
      {
        if k + |Docx| <= |"report"| {
          assert "report"[k..k + |Docx|][0] != '.';
        }
      }
    }
    TemplatePathWithoutDocx("report");
  }

  // ---------------------------------------------------------------------------
  // md2doc-core

  /** What the core collectors bind before the chart pass: images, then Mermaid blocks. */
  function CoreFront(markdown: string, load: Images.Source -> Loaded, mermaid: seq<string>): map<string, WordParam> {
    Bind(Bind(map[], ImageKind, CoreImageValues(Lines.Images(markdown, 0, true), load)), MermaidKind, MermaidValues(mermaid))
  }

  /**
   * `convertMarkdownToWord` (md2doc-core): images, Mermaid blocks, charts,
   * tables and the title of the month before `today`, then the generator. A
   * chart whose conversion raises ends the conversion with that exception: the
   * later passes do not run, no document is built, and the template stays on
   * disk. An exception escaping the generator ends it the same way. Otherwise the
   * template is deleted whatever the generator reports. The template path is
   * the one written in the source, so an output path without ".docx" is deleted
   * with the template (`OutputLostAsWritten`).
   */
  method ConvertCore(markdown: string, output: string, files: set<string>, today: Month,
                     load: Images.Source -> Loaded, mermaid: seq<string>, configs: seq<string>, parse: E.Parser,
                     tables: seq<string>, gen: Generated)
    returns (r: Outcome<()>, params: WordParams, after: set<string>)
    requires ValidMonth(today)
    ensures fresh(params)
    ensures r.Raised? <==> FirstRaised(JavaOutcomes(configs, parse)) < |configs| || gen.Threw?
    ensures FirstRaised(JavaOutcomes(configs, parse)) < |configs| ==>
      after == files + {TemplatePath(output)} && params.params == CoreFront(markdown, load, mermaid)
    ensures FirstRaised(JavaOutcomes(configs, parse)) == |configs| ==>
      && params.params == Bind(CoreFront(markdown, load, mermaid), TableKind, TableValues(tables, true))["title" := Text(CoreTitle(today))]
      && params.charts.Keys == ChartKeys(|configs|)
    ensures FirstRaised(JavaOutcomes(configs, parse)) == |configs| && gen.Threw? ==>
      r == Raised(gen.message) && after == files + {TemplatePath(output)}
    ensures r.Ok? ==> after == Finished(files, TemplatePath(output), output, gen.Built?)
  {
    var template := TemplatePath(output);
    after := files + {template};
    params := new WordParams();
    ProcessImages(params, markdown, load);
    ProcessMermaid(params, mermaid);
    r := ProcessECharts(params, configs, parse);
    if r.Raised? {
      return;
    }
    ProcessTables(params, tables, true);
    params.SetText("title", Some(CoreTitle(today)), false);
    if gen.Threw? {
      r := Raised(gen.message);
      return;
    }
    if gen.Built? {
      after := after + {output};
    }
    after := after - {template};
  }

  // ---------------------------------------------------------------------------
  // src/main

  /**
   * `convertMarkdownToWord` (older Java): charts, tables and the first heading
   * as title, then the generator; a raising chart or generator ends the
   * conversion as in md2doc-core.
   */
  method ConvertLegacy(markdown: string, output: string, files: set<string>,
                       configs: seq<string>, parse: E.Parser, tables: seq<string>, gen: Generated)
    returns (r: Outcome<()>, params: WordParams, after: set<string>)
    ensures fresh(params)
    ensures r.Raised? <==> FirstRaised(JavaOutcomes(configs, parse)) < |configs| || gen.Threw?
    ensures FirstRaised(JavaOutcomes(configs, parse)) < |configs| ==>
      after == files + {TemplatePath(output)} && params.params == map[]
    ensures FirstRaised(JavaOutcomes(configs, parse)) == |configs| ==>
      && params.params == Bind(map[], TableKind, TableValues(tables, true))["title" := Text(LegacyTitle(markdown))]
      && params.charts.Keys == ChartKeys(|configs|)
    ensures FirstRaised(JavaOutcomes(configs, parse)) == |configs| && gen.Threw? ==>
      r == Raised(gen.message) && after == files + {TemplatePath(output)}
    ensures r.Ok? ==> after == Finished(files, TemplatePath(output), output, gen.Built?)
  {
    var template := TemplatePath(output);
    after := files + {template};
    params := new WordParams();
    r := ProcessECharts(params, configs, parse);
    if r.Raised? {
      return;
    }
    ProcessTables(params, tables, true);
    params.SetText("title", Some(LegacyTitle(markdown)), false);
    if gen.Threw? {
      r := Raised(gen.message);
      return;
    }
    if gen.Built? {
      after := after + {output};
    }
    after := after - {template};
  }

  // ---------------------------------------------------------------------------
  // md2doc-service-python

  const BuildFailed := "转换Markdown内容时出错: 生成Word文档失败"

  /** What the Python chart pass binds: the pictures of the rendered charts it visited. */
  ghost function PyChartValues(configs: seq<string>, parse: E.Parser, render: string -> Option<Picture>): map<string, WordParam> {
    var renders := Renders(configs, render);
    BindSome(map[], ChartKind, RenderedValues(renders)[..PyVisited(renders, PyOutcomes(configs, parse))])
  }

  /** What the Python passes bind: the rendered charts, the images, the tables, and the title last. */
  ghost function PyParams(markdown: string, blocks: seq<string>, parse: E.Parser, render: string -> Option<Picture>,
                          process: string -> Option<Picture>, tables: seq<string>): map<string, WordParam> {
    Bind(Bind(PyChartValues(StripAll(blocks), parse, render), ImageKind, PyImageValues(PyExtractImages(markdown), process)),
         TableKind, TableValues(StripAll(tables), false))["title" := Text(PyTitle(markdown))]
  }

  /** The chart keys the Python chart pass fills with tables: those of the visited charts that were not rendered. */
  ghost function PyChartKeys(blocks: seq<string>, parse: E.Parser, render: string -> Option<Picture>): set<string> {
    var renders := Renders(StripAll(blocks), render);
    TableKeys(renders, PyVisited(renders, PyOutcomes(StripAll(blocks), parse)))
  }

  /**
   * The passes of `convert_markdown_to_word` (Python), in its order: charts
   * (stripped blocks), images, tables (stripped blocks) and the first header as
   * title; every pass swallows its own exceptions.
   */
  method PyCollect(markdown: string, blocks: seq<string>, parse: E.Parser, render: string -> Option<Picture>,
                   process: string -> Option<Picture>, tables: seq<string>)
    returns (params: WordParams)
    ensures fresh(params)
    ensures params.params == PyParams(markdown, blocks, parse, render, process, tables)
    ensures params.charts.Keys == PyChartKeys(blocks, parse, render)
    ensures var configs := StripAll(blocks); var renders := Renders(configs, render); var outs := PyOutcomes(configs, parse);
      forall k :: 1 <= k <= PyVisited(renders, outs) && renders[k - 1].None? ==>
        && Key(ChartKind, k) in params.charts
        && params.charts[Key(ChartKind, k)].Valid()
        && params.charts[Key(ChartKind, k)].Value() == PyTable(outs[k - 1])
  {
    params := new WordParams();
    PyProcessECharts(params, StripAll(blocks), parse, render);
    assert params.params == PyChartValues(StripAll(blocks), parse, render);
    assert params.charts.Keys == PyChartKeys(blocks, parse, render);
    PyLaterPasses(params, markdown, process, tables);
  }

  /**
   * The passes after the charts: images, tables and the title. They bind
   * parameters only, so every chart table keeps its value.
   */
  method PyLaterPasses(params: WordParams, markdown: string, process: string -> Option<Picture>, tables: seq<string>)
    modifies params
    ensures params.params ==
      Bind(Bind(old(params.params), ImageKind, PyImageValues(PyExtractImages(markdown), process)),
           TableKind, TableValues(StripAll(tables), false))["title" := Text(PyTitle(markdown))]
    ensures params.charts == old(params.charts)
    ensures forall key :: key in params.charts ==>
      (params.charts[key].Valid() <==> old(params.charts[key].Valid())) && params.charts[key].Value() == old(params.charts[key].Value())
  {
    PyProcessImages(params, markdown, process);
    ProcessTables(params, StripAll(tables), false);
    params.SetText("title", Some(PyTitle(markdown)), true);
    forall key | key in params.charts
      ensures (params.charts[key].Valid() <==> old(params.charts[key].Valid())) && params.charts[key].Value() == old(params.charts[key].Value())
    {
      var u := params.charts[key];
      assert unchanged(u, u.xAxis) && unchanged(u.yAxis.Values);
    }
  }

  /**
   * `convert_markdown_to_word` (Python): the passes of `PyCollect`, then the
   * generator. A generator failure raises "生成Word文档失败" wrapped in the
   * conversion message; the template is removed on both paths, and with it the
   * output when the output path lacks ".docx".
   */
  method ConvertPython(markdown: string, output: string, files: set<string>,
                       blocks: seq<string>, parse: E.Parser, render: string -> Option<Picture>,
                       process: string -> Option<Picture>, tables: seq<string>, built: bool)
    returns (r: Outcome<()>, params: WordParams, after: set<string>)
    ensures fresh(params)
    ensures r.Ok? <==> built
    ensures r.Raised? ==> r.message == BuildFailed
    ensures after == Finished(files, TemplatePath(output), output, built)
    ensures TemplatePath(output) !in after
    ensures params.params == PyParams(markdown, blocks, parse, render, process, tables)
    ensures params.charts.Keys == PyChartKeys(blocks, parse, render)
    ensures var configs := StripAll(blocks); var renders := Renders(configs, render); var outs := PyOutcomes(configs, parse);
      forall k :: 1 <= k <= PyVisited(renders, outs) && renders[k - 1].None? ==>
        && Key(ChartKind, k) in params.charts
        && params.charts[Key(ChartKind, k)].Valid()
        && params.charts[Key(ChartKind, k)].Value() == PyTable(outs[k - 1])
  {
    var template := TemplatePath(output);
    after := files + {template};
    // The generator's result `built` is given, so the file-set effects do not
    // depend on the collected parameters and are stated before them.
    r, after := PyGenerate(after, template, output, built);
    params := PyCollect(markdown, blocks, parse, render, process, tables);
  }

  /**
   * The generator call of `convert_markdown_to_word` (Python) and its `finally`:
   * a built document adds the output, a failed one raises, and the template is
   * removed on both paths.
   */
  method PyGenerate(files: set<string>, template: string, output: string, built: bool)
    returns (r: Outcome<()>, after: set<string>)
    ensures r.Ok? <==> built
    ensures r.Raised? ==> r.message == BuildFailed
    ensures after == (files + (if built then {output} else {})) - {template}
  {
    after := files;
    if built {
      after := after + {output};
      after := after - {template};
      r := Ok(());
    } else {
      after := after - {template};
      r := Raised(BuildFailed);
    }
  }
}
