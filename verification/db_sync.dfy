/**
 * The database package's own sync: the older copy of the full sync, with
 * a fixed extension set and a title generator that strips camera prefixes
 * in any letter case, and the clean-up that drops rows whose file is gone.
 */
module DbSync {
  import opened Wrappers
  import opened PyText
  import opened PyPath
  import opened Regex
  import opened SyncTypes
  import opened SyncUtils
  import opened Catalog
  import Reconcile

  /** `SUPPORTED_EXTENSIONS` */
  const SupportedExtensions: set<string> := {
    ".jpg", ".jpeg", ".png", ".gif", ".webp", ".bmp", ".tiff", ".tif", ".raw",
    ".cr2", ".nef", ".arw", ".dng", ".orf", ".rw2", ".pef", ".srw"
  }

  /** `__is_supported_image_file`: the lowercased suffix is one of the fixed extensions. */
  predicate IsCatalogImageFile(path: PurePath)
  {
    IsSupportedImageFile(path, SupportedExtensions)
  }

  /** The supported test as the full sync takes it. */
  function CatalogSupported(): PurePath -> bool
  {
    p => IsCatalogImageFile(p)
  }

  /** The extension test of this module, in terms of the name: the letter case of the extension does not matter. */
  lemma CatalogImageFileRule(dir: PurePath, stem: string, ext: string)
    requires stem != []
    requires |ext| >= 2 && ext[0] == '.' && '.' !in ext[1..]
    ensures IsCatalogImageFile(Child(dir, stem + ext)) <==> Lower(ext) in SupportedExtensions
    ensures Lower(ext) == ".jpg" ==> IsCatalogImageFile(Child(dir, stem + ext))
  {
    SupportedIffExtension(dir, stem, ext, SupportedExtensions);
  }

  /** The pattern steps of this title generator, before the common tidy-up. */
  function CatalogStripNoise(stem: string): string
  {
    var a := Sub(AnyCasePrefix, stem);
    var b := Sub(BoundedDate, a);
    var c := Sub(BoundedEightDigits, b);
    var d := Sub(BoundedTime, c);
    var e := Sub(LeadingNumber, d);
    Sub(TrailingNumber, e)
  }

  /** `generate_title_from_filename` of the database package. */
  function CatalogTitle(filename: string): string
  {
    var stem := Stem(Name(Parse(filename)));
    var cleaned := Tidy(CatalogStripNoise(stem));
    if cleaned != [] then cleaned else FallbackTitle(stem)
  }

  /**
   * What every title of this variant looks like: no `-` or `_`, title
   * case, empty only for an empty stem, and either a readable title from
   * the pattern steps or the fallback.
   */
  lemma CatalogTitleShape(filename: string)
    ensures var r := CatalogTitle(filename);
      && NoSeparators(r)
      && TitleCased(r)
      && (r == [] <==> Stem(Name(Parse(filename))) == [])
      && (Readable(r) || r == FallbackTitle(Stem(Name(Parse(filename)))))
  {
    var stem := Stem(Name(Parse(filename)));
    TidyIsReadable(CatalogStripNoise(stem));
    if stem == [] {
      assert CatalogStripNoise(stem) == [];
    }
  }

  /** Case-insensitive matching finds the one-letter prefix `P` first, and `[-_]?` lets it stand alone. */
  lemma LeadingPMatches(w: string)
    requires w != [] && forall k :: 0 <= k < |w| ==> IsLower(w[k])
    ensures MatchLen(AnyCasePrefix, "p" + w, 0) == 1
  {
    var s := "p" + w;
    assert s[0] == 'p' && IsLower(s[1]);
    assert ToLower(s[0]) != ToLower("IMG"[0]);
    assert ToLower(s[0]) != ToLower("DSC"[0]);
    assert ToLower(s[0]) != ToLower("DSCN"[0]);
    assert StartsWithAt(s, 0, "P", true);
  }

  /** The stem of "p" + w + ext, for a lower-case word w and an extension ext. */
  lemma StemOfLeadingP(w: string, ext: string)
    requires w != [] && forall k :: 0 <= k < |w| ==> IsLower(w[k])
    requires |ext| >= 2 && ext[0] == '.' && '.' !in ext[1..] && '/' !in ext
    ensures Stem(Name(Parse("p" + w + ext))) == "p" + w
  {
    var stem := "p" + w;
    var n := stem + ext;
    assert n[|n| - 1] == ext[|ext| - 1];
    assert ValidPart(n) by {
      forall k | 0 <= k < |n| ensures n[k] != '/' {
        if k < |stem| { assert IsLower(stem[k]) || stem[k] == 'p'; } else { assert n[k] == ext[k - |stem|]; }
      }
    }
    ParsePlainName(n);
    StemAndSuffixOf(stem, ext);
  }

  /** The pattern steps drop the leading `p` of "p" + w and leave the digit-free word w. */
  lemma NoiseOfLeadingP(w: string)
    requires w != [] && forall k :: 0 <= k < |w| ==> IsLower(w[k])
    ensures CatalogStripNoise("p" + w) == w
  {
    var stem := "p" + w;
    LeadingPMatches(w);
    AnchoredSub(AnyCasePrefix, stem);
    assert stem[1..] == w;
    assert NoDigits(w);
    DigitPatternKeepsDigitFree(BoundedDate, w, 0);
    DigitPatternKeepsDigitFree(BoundedEightDigits, w, 0);
    DigitPatternKeepsDigitFree(BoundedTime, w, 0);
    DigitPatternKeepsDigitFree(LeadingNumber, w, 0);
    DigitPatternKeepsDigitFree(TrailingNumber, w, 0);
  }

  /** A lower-case word tidies up to itself, capitalised. */
  lemma TidyLowerWord(w: string)
    requires w != [] && forall k :: 0 <= k < |w| ==> IsLower(w[k])
    ensures Tidy(w) == Capitalized(w)
  {
    LowerWordIsPlain(w);
    TidyJoinedWords(w);
    TitleFromLowerWord(w, false);
  }

  /** A lower-case word has no spaces or separators for the tidy-up to touch. */
  lemma LowerWordIsPlain(w: string)
    requires w != [] && forall k :: 0 <= k < |w| ==> IsLower(w[k])
    ensures IsolatedSeparators(w)
    ensures forall k :: 0 <= k < |w| ==> !IsSpace(w[k])
    ensures !IsSep(w[0]) && !IsSep(w[|w| - 1])
    ensures ReplaceChar(ReplaceChar(w, '_', ' '), '-', ' ') == w
  {
    var t := ReplaceChar(w, '_', ' ');
    assert t == w;
    assert ReplaceChar(t, '-', ' ') == t;
  }

  /**
   * A name that starts with a lower-case `p` followed by a lower-case word
   * loses the `p`: "portrait.jpg" gets the title "Ortrait".
   */
  lemma LeadingPDropped(w: string, ext: string)
    requires w != [] && forall k :: 0 <= k < |w| ==> IsLower(w[k])
    requires |ext| >= 2 && ext[0] == '.' && '.' !in ext[1..] && '/' !in ext
    ensures CatalogTitle("p" + w + ext) == Capitalized(w)
  {
    StemOfLeadingP(w, ext);
    NoiseOfLeadingP(w);
    TidyLowerWord(w);
  }

  /** The word and the extension of the example. */
  lemma PortraitParts(w: string, ext: string)
    requires w == "ortrait" && ext == ".jpg"
    ensures w != [] && forall k :: 0 <= k < |w| ==> IsLower(w[k])
    ensures |ext| >= 2 && ext[0] == '.' && '.' !in ext[1..] && '/' !in ext
    ensures Capitalized(w) == "Ortrait"
  {
  }

  /** "portrait.jpg" gets the title "Ortrait". */
  lemma PortraitExample(w: string, ext: string)
    requires w == "ortrait" && ext == ".jpg"
    ensures CatalogTitle("p" + w + ext) == "Ortrait"
  {
    PortraitParts(w, ext);
    LeadingPDropped(w, ext);
  }

  /**
   * `sync_filesystem_to_db`: without a path argument the configured
   * photos path is scanned; the rest is the full sync over this module's
   * extension set and title generator.
   */
  method SyncFilesystemToDb(db: Database, storagePath: Option<PurePath>, configuredPath: PurePath,
                            storage: Reconcile.Storage)
    returns (r: Result<SyncStats, SyncError>)
    modifies db
    ensures var base := if storagePath.Some? then storagePath.value else configuredPath;
      var spec := Reconcile.FullSyncSpec(old(db.photos), base, storage, CatalogSupported(), CatalogTitle);
      && (r.Ok? <==> spec.Ok?)
      && (r.Ok? ==> r.value == spec.value.stats && db.photos == spec.value.photos)
      && (r.Err? ==> r.error == spec.error && db.photos == old(db.photos))
  {
    var base := if storagePath.None? then configuredPath else storagePath.value;
    r := Reconcile.FullSync(db, base, storage, CatalogSupported(), CatalogTitle);
  }

  /** The rows whose `file_path` does not exist on disk. */
  function Orphans(photos: Photos, disk: Disk): (r: set<string>)
    ensures r <= photos.Keys
    ensures forall k :: k in r <==> k in photos && Parse(k) !in disk
  {
    OrphanKeys(photos.Keys, disk)
  }

  /** After the clean-up every remaining row's file exists, and every row whose file exists is still there, unchanged. */
  lemma RemovalLeavesNoOrphans(photos: Photos, disk: Disk)
    ensures var kept := Without(photos, Orphans(photos, disk));
      && Orphans(kept, disk) == {}
      && (forall k :: k in photos && Parse(k) in disk ==> k in kept && kept[k] == photos[k])
  {
    var kept := Without(photos, Orphans(photos, disk));
    assert forall k :: k in kept ==> Parse(k) in disk;
  }

  /** The loop of `remove_orphaned_photos`: the rows, among `keys`, whose file is gone. */
  method CollectOrphans(keys: set<string>, disk: Disk) returns (orphaned: set<string>)
    ensures orphaned == OrphanKeys(keys, disk)
  {
    orphaned := {};
    var remaining := keys;
    ghost var seen: set<string> := {};
    while remaining != {}
      invariant seen + remaining == keys
      invariant orphaned == OrphanKeys(seen, disk)
      decreases |remaining|
    {
      var k :| k in remaining;
      OrphansStep(seen, k, disk);
      if Parse(k) !in disk {
        orphaned := orphaned + {k};
      }
      remaining := remaining - {k};
      seen := seen + {k};
    }
  }

  /** The keys among `keys` whose file is gone. */
  function OrphanKeys(keys: set<string>, disk: Disk): (r: set<string>)
    ensures forall k :: k in r <==> k in keys && Parse(k) !in disk
  {
    set k | k in keys && Parse(k) !in disk
  }

  /** The orphans among one more key. */
  lemma OrphansStep(seen: set<string>, k: string, disk: Disk)
    ensures OrphanKeys(seen + {k}, disk) == OrphanKeys(seen, disk) + (if Parse(k) !in disk then {k} else {})
  {
  }

  /** `remove_orphaned_photos`: drops every row whose file is gone, commits only when there was one, and returns their number. */
  method RemoveOrphanedPhotos(db: Database, disk: Disk) returns (removed: nat)
    modifies db
    ensures removed == |Orphans(old(db.photos), disk)|
    ensures db.photos == Without(old(db.photos), Orphans(old(db.photos), disk))
    ensures removed == 0 ==> db.photos == old(db.photos)
  {
    var session := new Session.Open(db);
    var orphaned := CollectOrphans(session.photos.Keys, disk);
    assert orphaned == Orphans(db.photos, disk);
    if orphaned != {} {
      session.Delete(orphaned);
      var ok := session.Commit();
    } else {
      assert Without(db.photos, orphaned) == db.photos;
    }
    removed := |orphaned|;
  }
}
