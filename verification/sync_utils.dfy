/**
 * The helpers of the sync worker: the supported-extension test, the title
 * generator and the contract of the metadata extractor.
 */
module SyncUtils {
  import opened Wrappers
  import opened PyText
  import opened PyPath
  import opened Regex
  import opened SyncTypes

  /**
   * `extract_image_metadata`: a failing `stat()` raises; a file Pillow
   * cannot decode still yields its size and mtime, without dimensions.
   */
  function ExtractImageMetadata(probe: FileProbe): (r: Result<ImageMetadata, SyncError>)
    ensures r.Err? <==> probe.stat.None?
    ensures r.Err? ==> r.error == MetadataFailed
    ensures r.Ok? ==> r.value.fileSize == probe.stat.value.size && r.value.fileModifiedAt == probe.stat.value.mtime
    ensures r.Ok? ==> (r.value.width.None? <==> probe.dims.None?) && (r.value.height.None? <==> probe.dims.None?)
    ensures r.Ok? && probe.dims.Some? ==> r.value.width == Some(probe.dims.value.width) && r.value.height == Some(probe.dims.value.height)
  {
    match probe.stat
    case None => Err(MetadataFailed)
    case Some(st) =>
      match probe.dims
      case None => Ok(ImageMetadata(st.size, None, None, st.mtime))
      case Some(d) => Ok(ImageMetadata(st.size, Some(d.width), Some(d.height), st.mtime))
  }

  /** `is_supported_image_file`: the lowercased suffix of the last component is in the set. */
  function IsSupportedImageFile(path: PurePath, exts: set<string>): bool
  {
    Lower(Suffix(Name(path))) in exts
  }

  /** A file whose name is a stem and an extension is supported exactly when the lowercased extension is in the set. */
  lemma SupportedIffExtension(dir: PurePath, stem: string, ext: string, exts: set<string>)
    requires stem != []
    requires |ext| >= 2 && ext[0] == '.' && '.' !in ext[1..]
    ensures IsSupportedImageFile(Child(dir, stem + ext), exts) <==> Lower(ext) in exts
  {
    StemAndSuffixOf(stem, ext);
  }

  /** Letter case in the extension does not matter. */
  lemma SupportCaseInsensitive(dir: PurePath, stem: string, ext1: string, ext2: string, exts: set<string>)
    requires stem != []
    requires |ext1| >= 2 && ext1[0] == '.' && '.' !in ext1[1..]
    requires |ext2| == |ext1| && ext2[0] == '.' && '.' !in ext2[1..]
    requires Lower(ext1) == Lower(ext2)
    ensures IsSupportedImageFile(Child(dir, stem + ext1), exts) == IsSupportedImageFile(Child(dir, stem + ext2), exts)
  {
    SupportedIffExtension(dir, stem, ext1, exts);
    SupportedIffExtension(dir, stem, ext2, exts);
  }

  /** A name without a suffix is never supported by a set of real extensions, and nothing is supported by the empty set. */
  lemma UnsupportedWithoutSuffix(path: PurePath, exts: set<string>)
    requires Suffix(Name(path)) == "" || exts == {}
    requires "" !in exts
    ensures !IsSupportedImageFile(path, exts)
  {
  }

  /** The camera-prefix rule, worker flavour: the first prefix that is followed by `-` or `_`. */
  lemma {:induction false} CameraPrefixRule(s: string, a: nat)
    requires a <= |CameraPrefixes|
    ensures PrefixMatch(s, a, false, true) > 0 <==>
      exists b :: a <= b < |CameraPrefixes| && StartsWithAt(s, 0, CameraPrefixes[b], false)
        && |CameraPrefixes[b]| < |s| && IsSep(s[|CameraPrefixes[b]|])
    decreases |CameraPrefixes| - a
  {
    if a < |CameraPrefixes| {
      CameraPrefixRule(s, a + 1);
    }
  }

  /** Camera prefixes are all upper case, so a name starting with anything else keeps its start. */
  lemma CameraPrefixNeedsUpperCase(s: string)
    requires s != [] && !IsUpper(s[0])
    ensures MatchLen(CameraPrefix, s, 0) == 0
  {
    forall b | 0 <= b < |CameraPrefixes|
      ensures !StartsWithAt(s, 0, CameraPrefixes[b], false)
    {
      assert IsUpper(CameraPrefixes[b][0]);
    }
    CameraPrefixRule(s, 0);
  }

  /** A pattern anchored with `^` only changes the start of the text. */
  lemma {:induction false} AnchoredTailKept(p: Pattern, s: string, i: nat)
    requires p == CameraPrefix || p == AnyCasePrefix || p == LeadingCounter || p == LeadingNumber
    requires 0 < i <= |s|
    ensures SubFrom(p, s, i) == s[i..]
    decreases |s| - i
  {
    if i < |s| {
      AnchoredTailKept(p, s, i + 1);
    }
  }

  /** `re.sub` with a `^` pattern: drop the match at the start, if any, and keep the rest. */
  lemma AnchoredSub(p: Pattern, s: string)
    requires p == CameraPrefix || p == AnyCasePrefix || p == LeadingCounter || p == LeadingNumber
    ensures Sub(p, s) == s[MatchLen(p, s, 0)..]
  {
    if s != [] {
      var k := MatchLen(p, s, 0);
      if k > 0 {
        assert Replacement(p) == "";
        if k < |s| {
          AnchoredTailKept(p, s, k);
        }
      } else {
        AnchoredTailKept(p, s, 1);
        assert [s[0]] + s[1..] == s;
      }
    }
  }

  /** The worker's pattern steps, before the common tidy-up. */
  function StripNoise(stem: string): string
  {
    var a := Sub(CameraPrefix, stem);
    var b := Sub(CompactDate, a);
    var c := Sub(SeparatedDate, b);
    var d := Sub(ClockTime, c);
    var e := Sub(LeadingCounter, d);
    Sub(TrailingCounter, e)
  }

  /** `generate_title_from_filename` of the sync worker. */
  function GenerateTitle(filename: string): string
  {
    var stem := Stem(Name(Parse(filename)));
    var cleaned := Tidy(StripNoise(stem));
    if cleaned != [] then cleaned else FallbackTitle(stem)
  }

  /**
   * What every generated title looks like: it has no `-` or `_` and is in
   * title case; it is empty only for an empty stem; and either it is a
   * readable title from the pattern steps or it is the fallback.
   */
  lemma GenerateTitleShape(filename: string)
    ensures var r := GenerateTitle(filename);
      && NoSeparators(r)
      && TitleCased(r)
      && (r == [] <==> Stem(Name(Parse(filename))) == [])
      && (Readable(r) || r == FallbackTitle(Stem(Name(Parse(filename)))))
  {
    var stem := Stem(Name(Parse(filename)));
    TidyIsReadable(StripNoise(stem));
    if stem == [] {
      assert StripNoise(stem) == [];
    }
  }

  /** Every word that starts with a letter starts with a capital. */
  lemma GenerateTitleWords(filename: string, k: nat)
    requires k < |GenerateTitle(filename)|
    requires IsLetter(GenerateTitle(filename)[k])
    requires k == 0 || !IsLetter(GenerateTitle(filename)[k - 1])
    ensures IsUpper(GenerateTitle(filename)[k])
  {
    GenerateTitleShape(filename);
  }

  /** A plain component parses to itself. */
  lemma ParsePlainName(n: string)
    requires ValidPart(n)
    ensures Parse(n) == PurePath("", [n])
  {
    ParseStr(PurePath("", [n]));
  }

  /** The extension never reaches the title: "name.ext" gets the title "name" gets. */
  lemma TitleIgnoresExtension(stem: string, ext: string)
    requires ValidPart(stem) && '.' !in stem
    requires |ext| >= 2 && ext[0] == '.' && '.' !in ext[1..] && '/' !in ext
    ensures GenerateTitle(stem + ext) == GenerateTitle(stem)
  {
    var n := stem + ext;
    assert n[|n| - 1] == ext[|ext| - 1];
    assert '/' !in n by {
      forall k | 0 <= k < |n| ensures n[k] != '/' {
        if k < |stem| { assert n[k] == stem[k]; } else { assert n[k] == ext[k - |stem|]; }
      }
    }
    ParsePlainName(n);
    ParsePlainName(stem);
    StemAndSuffixOf(stem, ext);
    NoSuffixWithoutInnerDot(stem);
  }

  /** A stem without digits that does not start with a capital passes the pattern steps unchanged. */
  lemma PlainStemKept(stem: string)
    requires NoDigits(stem)
    requires stem == [] || !IsUpper(stem[0])
    ensures StripNoise(stem) == stem
  {
    if stem != [] {
      CameraPrefixNeedsUpperCase(stem);
    }
    AnchoredSub(CameraPrefix, stem);
    DigitPatternKeepsDigitFree(CompactDate, stem, 0);
    DigitPatternKeepsDigitFree(SeparatedDate, stem, 0);
    DigitPatternKeepsDigitFree(ClockTime, stem, 0);
    DigitPatternKeepsDigitFree(LeadingCounter, stem, 0);
    DigitPatternKeepsDigitFree(TrailingCounter, stem, 0);
  }

  /**
   * Words joined by single separators, with no whitespace and no separator
   * at either end, tidy up to the title case of the words joined by spaces.
   */
  lemma TidyJoinedWords(s: string)
    requires IsolatedSeparators(s)
    requires forall k :: 0 <= k < |s| ==> !IsSpace(s[k])
    requires s != [] ==> !IsSep(s[0]) && !IsSep(s[|s| - 1])
    ensures Tidy(s) == Title(ReplaceChar(ReplaceChar(s, '_', ' '), '-', ' '))
  {
    var t := ReplaceChar(ReplaceChar(s, '_', ' '), '-', ' ');
    IsolatedSeparatorsBecomeSpaces(s, 0);
    assert SingleSpaced(t);
    assert OnlyPlainSpaces(t);
    SpacedTextKept(t, 0);
    if t != [] {
      StripUnpadded(t);
    }
  }

  /** Two lower-case words joined by `_` tidy up to the two words capitalised. */
  lemma TidyTwoWords(a: string, b: string)
    requires a != [] && b != []
    requires forall k :: 0 <= k < |a| ==> IsLower(a[k])
    requires forall k :: 0 <= k < |b| ==> IsLower(b[k])
    ensures Tidy(a + "_" + b) == Capitalized(a) + " " + Capitalized(b)
  {
    var s := a + "_" + b;
    JoinedWordsShape(a, b, s);
    TidyJoinedWords(s);
    JoinedWordsSpaced(a, b, s);
    TitleTwoLowerWords(a, b);
  }

  /** Two lower-case words joined by `_`: one isolated separator, no whitespace, no digit, no dot, no capital. */
  lemma JoinedWordsShape(a: string, b: string, s: string)
    requires a != [] && b != []
    requires forall k :: 0 <= k < |a| ==> IsLower(a[k])
    requires forall k :: 0 <= k < |b| ==> IsLower(b[k])
    requires s == a + "_" + b
    ensures forall k :: 0 <= k < |s| ==> IsLower(s[k]) || (k == |a| && s[k] == '_')
    ensures IsolatedSeparators(s)
    ensures forall k :: 0 <= k < |s| ==> !IsSpace(s[k])
    ensures !IsSep(s[0]) && !IsSep(s[|s| - 1])
    ensures ValidPart(s) && '.' !in s && NoDigits(s) && !IsUpper(s[0])
  {
    assert forall k :: 0 <= k < |s| ==> (k < |a| ==> s[k] == a[k]) && (k == |a| ==> s[k] == '_') && (k > |a| ==> s[k] == b[k - |a| - 1]);
  }

  /** Replacing the separator of two joined words by a space gives the words with a space between. */
  lemma JoinedWordsSpaced(a: string, b: string, s: string)
    requires forall k :: 0 <= k < |a| ==> IsLower(a[k])
    requires forall k :: 0 <= k < |b| ==> IsLower(b[k])
    requires s == a + "_" + b
    ensures ReplaceChar(ReplaceChar(s, '_', ' '), '-', ' ') == a + " " + b
  {
    var t := ReplaceChar(s, '_', ' ');
    var w := a + " " + b;
    assert forall k :: 0 <= k < |s| ==> (k < |a| ==> s[k] == a[k] && w[k] == a[k]) && (k == |a| ==> s[k] == '_' && w[k] == ' ') && (k > |a| ==> s[k] == b[k - |a| - 1] && w[k] == b[k - |a| - 1]);
    assert t == w;
    assert ReplaceChar(t, '-', ' ') == t;
  }


  /**
   * Two lower-case words joined by `_`, with or without an extension, get
   * the two words capitalised as their title.
   */
  lemma TwoWordTitle(a: string, b: string, ext: string)
    requires a != [] && b != []
    requires forall k :: 0 <= k < |a| ==> IsLower(a[k])
    requires forall k :: 0 <= k < |b| ==> IsLower(b[k])
    requires ext == [] || (|ext| >= 2 && ext[0] == '.' && '.' !in ext[1..] && '/' !in ext)
    ensures GenerateTitle(a + "_" + b + ext) == Capitalized(a) + " " + Capitalized(b)
  {
    var s := a + "_" + b;
    JoinedWordsShape(a, b, s);
    if ext != [] {
      TitleIgnoresExtension(s, ext);
    } else {
      assert s + ext == s;
    }
    TidyTwoWords(a, b);
    TitleOfPlainStem(s, Capitalized(a) + " " + Capitalized(b));
  }

  /** A name without dot, digit or leading capital gets its tidied self as title. */
  lemma TitleOfPlainStem(s: string, tidied: string)
    requires ValidPart(s) && '.' !in s && NoDigits(s) && !IsUpper(s[0])
    requires Tidy(s) == tidied && tidied != []
    ensures GenerateTitle(s) == tidied
  {
    ParsePlainName(s);
    NoSuffixWithoutInnerDot(s);
    assert Stem(Name(Parse(s))) == s;
    PlainStemKept(s);
  }


  lemma CapitalizedWords(a: string, b: string, expected: string)
    requires (a, b, expected) == ("beautiful", "sunset", "Beautiful Sunset") || (a, b, expected) == ("city", "lights", "City Lights")
    ensures Capitalized(a) + " " + Capitalized(b) == expected
  {
  }

  /** "beautiful_sunset.jpg" gets the title "Beautiful Sunset". */
  lemma BeautifulSunsetExample(a: string, b: string)
    requires a == "beautiful" && b == "sunset"
    ensures GenerateTitle(a + "_" + b + ".jpg") == "Beautiful Sunset"
  {
    TwoWordTitle(a, b, ".jpg");
    CapitalizedWords(a, b, "Beautiful Sunset");
  }

  /** "city_lights", without extension, gets the title "City Lights". */
  lemma CityLightsExample(a: string, b: string)
    requires a == "city" && b == "lights"
    ensures GenerateTitle(a + "_" + b) == "City Lights"
  {
    TwoWordTitle(a, b, "");
    assert a + "_" + b + "" == a + "_" + b;
    CapitalizedWords(a, b, "City Lights");
  }
}
