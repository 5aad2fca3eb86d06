/**
 * The read-only properties of a `photos` row: its extension and stem, the
 * orientation and the two other values that share its guard, the image
 * format test and the title shown for it.
 */
module PhotoModel {
  import opened Wrappers
  import opened PyText
  import opened PyPath
  import opened SyncUtils
  import opened Catalog
  import DbSync

  /** The extensions `is_image_format` accepts. */
  const ImageFormats: set<string> := {
    ".jpg", ".jpeg", ".png", ".gif", ".bmp", ".tiff", ".webp", ".raw", ".cr2", ".nef", ".arw"
  }

  /** `file_extension`: the suffix of the filename, lowercased. */
  function FileExtension(p: Photo): (r: string)
    ensures r == [] || (|r| >= 2 && r[0] == '.' && '.' !in r[1..])
    ensures forall i :: 0 <= i < |r| ==> !IsUpper(r[i])
  {
    var s := Suffix(Name(Parse(p.filename)));
    var r := Lower(s);
    assert forall i :: 1 <= i < |r| ==> r[i] == ToLower(s[i]) && s[i] != '.';
    r
  }

  /** `name_without_extension`: the stem of the filename. */
  function NameWithoutExtension(p: Photo): string
  {
    Stem(Name(Parse(p.filename)))
  }

  /**
   * The stem followed by the suffix is the file's name, and the extension
   * is that suffix lowercased; a name with an extension has a non-empty stem.
   */
  lemma NameSplits(p: Photo)
    ensures var name := Name(Parse(p.filename));
      && NameWithoutExtension(p) + Suffix(name) == name
      && FileExtension(p) == Lower(Suffix(name))
      && (FileExtension(p) != [] ==> NameWithoutExtension(p) != [])
  {
    StemSuffixSplit(Name(Parse(p.filename)));
  }

  /** For a filename made of a stem and an extension, the two properties give them back, the extension lowercased. */
  lemma ExtensionOfFilename(p: Photo, stem: string, ext: string)
    requires ValidPart(stem)
    requires |ext| >= 2 && ext[0] == '.' && '.' !in ext[1..] && '/' !in ext
    requires p.filename == stem + ext
    ensures FileExtension(p) == Lower(ext)
    ensures NameWithoutExtension(p) == stem
  {
    var n := stem + ext;
    assert n[|n| - 1] == ext[|ext| - 1];
    assert '/' !in n by {
      forall k | 0 <= k < |n| ensures n[k] != '/' {
        if k < |stem| { assert n[k] == stem[k]; } else { assert n[k] == ext[k - |stem|]; }
      }
    }
    ParsePlainName(n);
    StemAndSuffixOf(stem, ext);
  }

  /** The guard `aspect_ratio`, `orientation` and `megapixels` share: both dimensions present and non-zero. */
  predicate HasDimensions(p: Photo)
  {
    p.width.Some? && p.width.value != 0 && p.height.Some? && p.height.value != 0
  }

  /** `orientation` */
  function Orientation(p: Photo): (r: Option<string>)
    ensures r.Some? <==> HasDimensions(p)
    ensures r == Some("landscape") <==> HasDimensions(p) && p.width.value > p.height.value
    ensures r == Some("portrait") <==> HasDimensions(p) && p.height.value > p.width.value
    ensures r == Some("square") <==> HasDimensions(p) && p.width.value == p.height.value
  {
    if HasDimensions(p) then
      if p.width.value > p.height.value then Some("landscape")
      else if p.height.value > p.width.value then Some("portrait")
      else Some("square")
    else None
  }

  /** A quotient `width / height`, kept as its two operands. */
  datatype Ratio = Ratio(numerator: int, denominator: int)

  /** `aspect_ratio`, before the division. */
  function AspectRatio(p: Photo): (r: Option<Ratio>)
    ensures r.Some? ==> r.value.denominator != 0
  {
    if HasDimensions(p) then Some(Ratio(p.width.value, p.height.value)) else None
  }

  /** `megapixels`, before the division by one million: the pixel count. */
  function PixelCount(p: Photo): (r: Option<int>)
    ensures r.Some? ==> r.value != 0
  {
    if HasDimensions(p) then Some(p.width.value * p.height.value) else None
  }

  /** The three derived values exist for exactly the same rows. */
  lemma SharedGuard(p: Photo)
    ensures AspectRatio(p).Some? <==> Orientation(p).Some?
    ensures PixelCount(p).Some? <==> Orientation(p).Some?
    ensures Orientation(p).None? <==> p.width.None? || p.height.None? || p.width == Some(0) || p.height == Some(0)
  {
  }

  /** For positive dimensions the orientation is the aspect ratio compared with one. */
  lemma OrientationFollowsRatio(p: Photo)
    requires p.width.Some? && p.width.value > 0 && p.height.Some? && p.height.value > 0
    ensures var q := AspectRatio(p).value;
      && (Orientation(p) == Some("landscape") <==> q.numerator > q.denominator)
      && (Orientation(p) == Some("portrait") <==> q.numerator < q.denominator)
      && (Orientation(p) == Some("square") <==> q.numerator == q.denominator)
      && PixelCount(p).value > 0
  {
  }

  /** `is_image_format` */
  predicate IsImageFormat(p: Photo)
  {
    FileExtension(p) in ImageFormats
  }

  /** The format test ignores the letter case of the extension. */
  lemma ImageFormatRule(p: Photo, stem: string, ext: string)
    requires ValidPart(stem)
    requires |ext| >= 2 && ext[0] == '.' && '.' !in ext[1..] && '/' !in ext
    requires p.filename == stem + ext
    ensures IsImageFormat(p) <==> Lower(ext) in ImageFormats
  {
    ExtensionOfFilename(p, stem, ext);
  }

  /**
   * Every image format is one the sync accepts, but not the other way
   * round: a `.tif` or `.dng` file is synced and is not an image format.
   */
  lemma ImageFormatsAreSynced(p: Photo)
    ensures IsImageFormat(p) ==> DbSync.IsCatalogImageFile(Parse(p.filename))
    ensures ImageFormats < DbSync.SupportedExtensions
    ensures ".tif" in DbSync.SupportedExtensions - ImageFormats && ".dng" in DbSync.SupportedExtensions - ImageFormats
  {
    ImageFormatsSubset();
    assert ".tif" !in ImageFormats;
  }

  lemma ImageFormatsSubset()
    ensures ImageFormats <= DbSync.SupportedExtensions
  {
    forall x | x in ImageFormats
      ensures x in DbSync.SupportedExtensions
    {
    }
  }

  /** `get_display_title`: a non-empty title, else the stem. */
  function DisplayTitle(p: Photo): (r: string)
    ensures p.title.Some? && p.title.value != [] ==> r == p.title.value
    ensures p.title.None? || p.title.value == [] ==> r == NameWithoutExtension(p)
  {
    if p.title.Some? && p.title.value != [] then p.title.value else NameWithoutExtension(p)
  }

  /** A row with a non-empty file name always has something to display. */
  lemma DisplayTitleNonEmpty(p: Photo)
    requires Name(Parse(p.filename)) != []
    ensures DisplayTitle(p) != []
  {
    StemSuffixSplit(Name(Parse(p.filename)));
  }
}
