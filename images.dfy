/**
 * The pure rules of `ImageDownloader`: how a source string is classified, which
 * local file names are accepted, and how a picture is scaled to the page width.
 * Downloading, reading and decoding are I/O and are left to the caller.
 */
module Images {
  import opened Wrappers
  import opened Text

  /** `MAX_WIDTH_PIXELS`: about 15 cm, the usable width of an A4 page. */
  const MaxWidthPixels: int := 600

  /** `Units.EMU_PER_PIXEL` of Apache POI. */
  const EmuPerPixel: int := 9525

  /** `SUPPORTED_FORMATS`, in the order the loop tries them. */
  const SupportedFormats: seq<string> := ["jpg", "jpeg", "png", "gif", "bmp", "webp"]

  /** Where an image is read from, once the source has been checked and trimmed. */
  datatype Source = NoSource | Remote(url: string) | LocalFile(path: string)

  /** `isUrl`: the source names an HTTP or HTTPS resource. */
  predicate IsUrl(s: string) {
    "http://" <= s || "https://" <= s
  }

  /**
   * The decision `downloadOrReadImage` makes before any I/O: a `null` or blank
   * source yields `null` at once; otherwise the trimmed source is fetched over the
   * network when it is a URL and read from disk when it is not.
   */
  function Classify(src: Option<string>): (r: Source)
    ensures src.None? ==> r == NoSource
    ensures src.Some? && JavaBlank(src.value) ==> r == NoSource
    ensures src.Some? && !JavaBlank(src.value) ==>
      var t := JavaTrim(src.value);
      t != [] && (r == if IsUrl(t) then Remote(t) else LocalFile(t))
  {
    match src
    case None => NoSource
    case Some(s) =>
      JavaBlankIffTrimEmpty(s);
      var t := JavaTrim(s);
      if t == "" then NoSource
      else if IsUrl(t) then Remote(t)
      else LocalFile(t)
  }

  /** A classified source never keeps surrounding blanks, so " http://a/b.png " is a URL. */
  lemma ClassifyTrims(s: string)
    requires !JavaBlank(s)
    ensures Classify(Some(s)).Remote? || Classify(Some(s)).LocalFile?
    ensures var t := if Classify(Some(s)).Remote? then Classify(Some(s)).url else Classify(Some(s)).path;
      t != [] && !IsJavaTrimmed(t[0]) && !IsJavaTrimmed(t[|t| - 1])
  {
  }

  /**
   * `isAccessible`: `false` for a `null` or blank source without any I/O, otherwise
   * the answer of the HEAD request or file check, given here as `probe`.
   */
  function IsAccessible(src: Option<string>, probe: bool): (r: bool)
    ensures src.None? || JavaBlank(src.value) ==> !r
    ensures src.Some? && !JavaBlank(src.value) ==> r == probe
  {
    JavaBlankIffTrimEmpty(src.GetOr(""));
    src.Some? && JavaTrim(src.value) != "" && probe
  }

  /**
   * ASCII lower case: `toLowerCase()` under a ROOT or English locale, as far as the
   * extension test can tell. Other default locales are not modelled.
   */
  function LowerChar(c: char): char {
    if 'A' <= c <= 'Z' then (c as int + 32) as char else c
  }

  /** ASCII lower case of a whole name, character by character. */
  function LowerAscii(s: string): (r: string)
    ensures |r| == |s|
    ensures forall k :: 0 <= k < |s| ==> r[k] == LowerChar(s[k])
  {
    seq(|s|, k requires 0 <= k < |s| => LowerChar(s[k]))
  }

  /** Whether the lower-cased file name ends with "." and one of the supported formats. */
  predicate HasSupportedExtension(fileName: string) {
    exists k :: 0 <= k < |SupportedFormats| && EndsWith(LowerAscii(fileName), "." + SupportedFormats[k])
  }

  /** The format-check loop of `readLocalImage`, stopping at the first format that matches. */
  method IsSupportedFormat(fileName: string) returns (supported: bool)
    ensures supported <==> HasSupportedExtension(fileName)
  {
    var lower := LowerAscii(fileName);
    supported := false;
    var k := 0;
    while k < |SupportedFormats|
      invariant 0 <= k <= |SupportedFormats|
      invariant !supported ==> forall m :: 0 <= m < k ==> !EndsWith(lower, "." + SupportedFormats[m])
      invariant supported ==> HasSupportedExtension(fileName)
    {
      if EndsWith(lower, "." + SupportedFormats[k]) {
        supported := true;
        break;
      }
      k := k + 1;
    }
  }

  /** Upper-case extensions are accepted: "PHOTO.JPG" passes the check. */
  lemma UpperCaseExtensionAccepted()
    ensures HasSupportedExtension("PHOTO.JPG")
  {
    var lower := LowerAscii("PHOTO.JPG");
    assert lower[5..] == ".jpg" by {
      assert lower[5] == '.' && lower[6] == 'j' && lower[7] == 'p' && lower[8] == 'g';
    }
    assert EndsWith(LowerAscii("PHOTO.JPG"), "." + SupportedFormats[0]);
  }

  /**
   * `calculateAdaptiveSize`: a picture at most 600 pixels wide keeps its size; a wider
   * one is scaled to 600 pixels, its height scaled by the same ratio and truncated.
   * The height is computed on exact rationals here rather than on `double`.
   */
  function AdaptiveSize(width: int, height: int): (r: (int, int))
    ensures width <= MaxWidthPixels ==> r == (width, height)
    ensures width > MaxWidthPixels ==> r.0 == MaxWidthPixels
    ensures width > MaxWidthPixels && height >= 0 ==>
      0 <= r.1 <= height && r.1 * width <= height * MaxWidthPixels < (r.1 + 1) * width
  {
    if width <= MaxWidthPixels then (width, height)
    else
      var h := height * MaxWidthPixels / width;
      assert height >= 0 ==> h <= height by {
        if height >= 0 {
          assert height * MaxWidthPixels <= height * width;
        }
      }
      (MaxWidthPixels, h)
  }

  /** Java's `int` arithmetic: the value wrapped into the 32-bit two's-complement range. */
  function Int32(x: int): (r: int)
    ensures -0x8000_0000 <= r < 0x8000_0000
    ensures -0x8000_0000 <= x < 0x8000_0000 ==> r == x
  {
    (x + 0x8000_0000) % 0x1_0000_0000 - 0x8000_0000
  }

  /** `Units.pixelToEMU`: pixels times 9525 in `int` arithmetic. */
  function PixelToEmu(px: int): int {
    Int32(px * EmuPerPixel)
  }

  /** The conversion is exact for any height up to 225457 pixels, and for every scaled width. */
  lemma PixelToEmuExact(px: int)
    ensures 0 <= px <= 225457 ==> PixelToEmu(px) == px * 9525
  {
    if px < 0 || px > 225457 {
      return;
    }
    var x := px * EmuPerPixel;
    assert 0 <= x <= 225457 * EmuPerPixel;
    assert 225457 * EmuPerPixel < 0x8000_0000;
    assert Int32(x) == x;
  }

  /** A picture 225458 pixels tall overflows the conversion and gets a negative height. */
  lemma PixelToEmuOverflows()
    ensures PixelToEmu(225458) < 0
  {
    assert 225458 * EmuPerPixel == 2147487450;
    assert (2147487450 + 0x8000_0000) % 0x1_0000_0000 == 3802;
  }
}
