/**
 * Positional key agreement between the two halves of md2doc-core: the template
 * builder writes `${image1}`, `${table1}`, ... in the order it meets the blocks,
 * and the collectors bind "image1", "table1", ... in the order their patterns
 * match. The generated document is right only when the k-th placeholder of a kind
 * is the k-th key the collector binds. The builder works line by line and the
 * collectors over the whole text, so the two counts agree on simple lines and
 * part ways on lines the builder classifies differently from the patterns.
 */
module Agreement {
  import opened Wrappers
  import opened Text
  import opened Lines
  import opened Templates
  import Images
  import opened Params
  import opened Collectors

  /** The keys "kind" + n for the numbers `ns`, in order. */
  function KeysOf(kind: Kind, ns: seq<nat>): (r: seq<string>)
    ensures |r| == |ns|
    ensures forall i :: 0 <= i < |ns| ==> r[i] == Key(kind, ns[i])
  {
    seq(|ns|, i requires 0 <= i < |ns| => Key(kind, ns[i]))
  }

  /** The keys "kind" + 1 up to "kind" + n. */
  function FirstKeys(kind: Kind, n: nat): (r: seq<string>)
    ensures |r| == n
    ensures forall i :: 0 <= i < n ==> r[i] == Key(kind, i + 1)
  {
    seq(n, i requires 0 <= i < n => Key(kind, i + 1))
  }

  /** The keys the template names for one kind, in document order. */
  function TemplateKeys(markdown: string, failing: set<nat>, kind: Kind): seq<string> {
    KeysOf(kind, Indices(Structure(Core, markdown, failing), kind))
  }

  /** The keys `processImages` binds: "image1" up to one per match of the image pattern. */
  function CollectedImageKeys(markdown: string): seq<string> {
    FirstKeys(ImageKind, |Lines.Images(markdown, 0, true)|)
  }

  /** Numbered from 1, the template's keys of a kind are the first keys of that kind. */
  lemma TemplateKeysFirst(markdown: string, failing: set<nat>, kind: Kind)
    ensures TemplateKeys(markdown, failing, kind) == FirstKeys(kind, |Indices(Structure(Core, markdown, failing), kind)|)
  {
    StructureKeys(Core, markdown, failing, kind);
  }

  /**
   * Since both sides number from 1 in order, the template and the collector agree
   * on every image key exactly when the template has as many image placeholders as
   * the image pattern has matches.
   */
  lemma ImagesAgreeIffSameCount(markdown: string, failing: set<nat>)
    ensures TemplateKeys(markdown, failing, ImageKind) == CollectedImageKeys(markdown)
        <==> |Indices(Structure(Core, markdown, failing), ImageKind)| == |Lines.Images(markdown, 0, true)|
  {
    TemplateKeysFirst(markdown, failing, ImageKind);
  }

  /** Every image key the collector binds is present in the parameters it produces. */
  lemma CollectedKeysBound(m: map<string, WordParam>, markdown: string, load: Images.Source -> Loaded)
    ensures forall key :: key in CollectedImageKeys(markdown) ==>
      key in Bind(m, ImageKind, CoreImageValues(Lines.Images(markdown, 0, true), load))
  {
    var values := CoreImageValues(Lines.Images(markdown, 0, true), load);
    forall key | key in CollectedImageKeys(markdown)
      ensures key in Bind(m, ImageKind, values)
    {
      var i :| 0 <= i < |CollectedImageKeys(markdown)| && CollectedImageKeys(markdown)[i] == key;
      BindAt(m, ImageKind, values, i + 1);
    }
  }

  // ---------------------------------------------------------------------------
  // One line

  /** A Markdown text without a line feed is one line for the Java builder. */
  lemma OneLine(line: string, failing: set<nat>)
    requires !Contains(line, '\n')
    ensures Structure(Core, line, failing) == StepAt(Core, [line], 0, Scan(Start, Numbering.Fresh), failing).out
  {
    var st := Scan(Start, Numbering.Fresh);
    var s := StepAt(Core, [line], 0, st, failing);
    FromStep(Core, [line], 0, st, failing);
    assert From(Core, [line], s.next, s.scan, failing) == [];
    assert s.out + [] == s.out;
  }

  /**
   * On a one-line text the template names the first key of a kind exactly when
   * the builder's first matching test for the line is that kind's, and no key otherwise.
   */
  lemma {:induction false} LineKeys(line: string, failing: set<nat>, kind: Kind)
    requires !Contains(line, '\n')
    ensures Makes(CoreClass(line)) == Some(kind) ==> TemplateKeys(line, failing, kind) == [Key(kind, 1)]
    ensures Makes(CoreClass(line)) != Some(kind) ==> TemplateKeys(line, failing, kind) == []
  {
    var st := Scan(Start, Numbering.Fresh);
    OneLine(line, failing);
    StepIndices(Core, [line], 0, st, failing, kind);
  }

  /** An image line makes an image placeholder and nothing else. */
  lemma ImageLineMakesImage(cls: LineClass)
    requires cls.ImageLine?
    ensures Makes(cls) == Some(ImageKind)
  {
  }

  /** A heading or a table start makes no image placeholder. */
  lemma OtherLineMakesNoImage(cls: LineClass)
    requires cls.HeadingLine? || cls == TableStart
    ensures Makes(cls) != Some(ImageKind)
  {
  }

  /** A line that holds exactly one image and is none of heading, fence or table start: both sides use "image1" alone. */
  lemma SingleImageAgrees(line: string, failing: set<nat>)
    requires !Contains(line, '\n')
    requires CoreClass(line).ImageLine? && |Lines.Images(line, 0, true)| == 1
    ensures TemplateKeys(line, failing, ImageKind) == [Key(ImageKind, 1)]
    ensures CollectedImageKeys(line) == [Key(ImageKind, 1)]
  {
    ImageLineMakesImage(CoreClass(line));
    LineKeys(line, failing, ImageKind);
    assert |CollectedImageKeys(line)| == 1;
  }

  /**
   * Two images on one line: the builder numbers only the first, so the collector's
   * "image2" (and any later key) names no placeholder.
   */
  lemma SecondImageUnplaced(line: string, failing: set<nat>)
    requires !Contains(line, '\n')
    requires CoreClass(line).ImageLine? && |Lines.Images(line, 0, true)| >= 2
    ensures TemplateKeys(line, failing, ImageKind) == [Key(ImageKind, 1)]
    ensures Key(ImageKind, 2) in CollectedImageKeys(line) && Key(ImageKind, 2) !in TemplateKeys(line, failing, ImageKind)
  {
    ImageLineMakesImage(CoreClass(line));
    LineKeys(line, failing, ImageKind);
    assert CollectedImageKeys(line)[1] == Key(ImageKind, 2);
    KeyInjective(ImageKind, 1, ImageKind, 2);
  }

  /**
   * An image on a heading line or a table line: the heading (or table) test comes
   * first, so the builder writes no image placeholder while the collector still binds "image1".
   */
  lemma ImageOnOtherLine(line: string, failing: set<nat>)
    requires !Contains(line, '\n')
    requires CoreClass(line).HeadingLine? || CoreClass(line) == TableStart
    requires Lines.Images(line, 0, true) != []
    ensures TemplateKeys(line, failing, ImageKind) == []
    ensures Key(ImageKind, 1) in CollectedImageKeys(line)
  {
    OtherLineMakesNoImage(CoreClass(line));
    LineKeys(line, failing, ImageKind);
    assert CollectedImageKeys(line)[0] == Key(ImageKind, 1);
  }

  // ---------------------------------------------------------------------------
  // Witnesses

  const TwoImages := "![a](u)![b](v)"
  const HeadingImage := "# ![a](u)"

  /** Neither witness holds a line feed. */
  lemma WitnessesOneLine()
    ensures !Contains(TwoImages, '\n') && !Contains(HeadingImage, '\n')
  {
    assert IndexOf(TwoImages, '\n', 0) == -1;
    assert IndexOf(HeadingImage, '\n', 0) == -1;
  }

  /** "![a](u)![b](v)" is no heading, no fence and no table start. */
  lemma TwoImagesNoBlock()
    ensures CoreClass(TwoImages) == CoreTextClass(TwoImages)
  {
    var s := TwoImages;
    TwoImagesNoHeading();
    TwoImagesUntrimmed();
  }

  /** "![a](u)![b](v)" has nothing for `trim()` to remove. */
  lemma TwoImagesUntrimmed()
    ensures JavaTrim(TwoImages) == TwoImages
  {
    var s := TwoImages;
    assert LeadCount(s, IsJavaTrimmed) == 0 && TrailCount(s, IsJavaTrimmed) == 0;
  }

  /** "![a](u)![b](v)" holds no '#', so no heading. */
  lemma TwoImagesNoHeading()
    ensures FindHeading(TwoImages, true).None?
  {
    NoHashNoHeading(TwoImages, true);
  }

  /** "![a](u)![b](v)" is classified as an image line. */
  lemma TwoImagesClass()
    ensures CoreClass(TwoImages).ImageLine?
  {
    var s := TwoImages;
    TwoImagesNoBlock();
    assert !JavaBlank(s) by { assert !IsJavaTrimmed(s[0]); }
    TwoImagesFirst();
  }

  /** The first match in "![a](u)![b](v)" is "![a](u)". */
  lemma TwoImagesFirst()
    ensures JavaImageAt(TwoImages, 0).Some? && JavaImageAt(TwoImages, 0).value.end == 7
  {
    var s := TwoImages;
    assert IndexOf(s, ']', 2) == 3 && IndexOf(s, ')', 5) == 6;
  }

  /** "![a](u)![b](v)" holds two matches of the image pattern. */
  lemma TwoImagesCount()
    ensures |Lines.Images(TwoImages, 0, true)| == 2
  {
    var s := TwoImages;
    TwoImagesFirst();
    assert JavaImageAt(s, 7).Some? && JavaImageAt(s, 7).value.end == 14 by {
      assert IndexOf(s, ']', 9) == 10 && IndexOf(s, ')', 12) == 13;
    }
    assert Lines.Images(s, 14, true) == [];
  }

  /** "# ![a](u)" is classified as a heading line. */
  lemma HeadingImageClass()
    ensures CoreClass(HeadingImage).HeadingLine?
  {
    var s := HeadingImage;
    assert Hashes(s) == 1 by { assert Hashes(s[1..]) == 0; }
    assert RegexSpace(s[1], true);
  }

  /** "# ![a](u)" holds one match of the image pattern. */
  lemma HeadingImageCount()
    ensures |Lines.Images(HeadingImage, 0, true)| == 1
  {
    var s := HeadingImage;
    assert JavaImageAt(s, 0).None? && JavaImageAt(s, 1).None?;
    assert JavaImageAt(s, 2).Some? && JavaImageAt(s, 2).value.end == 9 by {
      assert IndexOf(s, ']', 4) == 5 && IndexOf(s, ')', 7) == 8;
    }
    assert FindImage(s, 0, true) == JavaImageAt(s, 2);
    assert Lines.Images(s, 9, true) == [];
  }

  /** For "![a](u)![b](v)" the template names "image1" only and the collector also binds "image2". */
  lemma TwoImagesDisagree(failing: set<nat>)
    ensures TemplateKeys(TwoImages, failing, ImageKind) == [Key(ImageKind, 1)]
    ensures |CollectedImageKeys(TwoImages)| == 2
  {
    WitnessesOneLine();
    TwoImagesClass();
    TwoImagesCount();
    SecondImageUnplaced(TwoImages, failing);
  }

  /** For "# ![a](u)" the template names no image and the collector binds "image1". */
  lemma HeadingImageDisagrees(failing: set<nat>)
    ensures TemplateKeys(HeadingImage, failing, ImageKind) == []
    ensures CollectedImageKeys(HeadingImage) == [Key(ImageKind, 1)]
  {
    WitnessesOneLine();
    HeadingImageClass();
    HeadingImageCount();
    ImageOnOtherLine(HeadingImage, failing);
    HeadingImageKeys();
  }

  /** The collector binds exactly "image1" for "# ![a](u)". */
  lemma HeadingImageKeys()
    ensures CollectedImageKeys(HeadingImage) == [Key(ImageKind, 1)]
  {
    HeadingImageCount();
    assert CollectedImageKeys(HeadingImage) == FirstKeys(ImageKind, 1);
  }

  // ---------------------------------------------------------------------------
  // Tables

  /** The number of '|' characters in `s`. */
  function Bars(s: string): (n: nat)
    ensures n <= |s|
    ensures n == 0 <==> forall k :: 0 <= k < |s| ==> s[k] != '|'
  {
    if s == [] then 0 else (if s[0] == '|' then 1 else 0) + Bars(s[1..])
  }

  /**
   * What any match of md2doc-core's `TABLE_PATTERN` holds: a header row and a
   * separator row, each opening and closing with '|', and the line feed after the
   * header row. A text without four bars and a line feed has no table match, so the
   * collector binds no table key for it.
   */
  predicate MayHoldTable(s: string) {
    Bars(s) >= 4 && Contains(s, '\n')
  }

  /** "|" is classified as a table start. */
  lemma LoneBarClass()
    ensures CoreClass("|") == TableStart
  {
    NoHashNoHeading("|", true);
    assert JavaTrim("|") == "|" by {
      assert LeadCount("|", IsJavaTrimmed) == 0 && TrailCount("|", IsJavaTrimmed) == 0;
    }
  }

  /**
   * A lone "|": the builder's table test (a line starting with '|') holds, so the
   * template names "table1"; the collector's pattern cannot match, so that key is
   * never bound and the placeholder stays in the document.
   */
  lemma LoneBarDisagrees(failing: set<nat>)
    ensures TemplateKeys("|", failing, TableKind) == [Key(TableKind, 1)]
    ensures !MayHoldTable("|")
  {
    assert !Contains("|", '\n') by { assert IndexOf("|", '\n', 0) == -1; }
    LoneBarClass();
    LineKeys("|", failing, TableKind);
  }
}
