/**
 * The full filesystem-to-catalog reconciliation. The sync worker's
 * `_perform_full_sync` and the older `sync_filesystem_to_db` run the same
 * algorithm line for line; they differ only in the title generator and in
 * where the set of supported extensions comes from, so both are
 * parameters here.
 *
 * The storage directory is given as a snapshot: its top-level entries,
 * each category directory with its own listing, and for every regular
 * file the filesystem's answers about it (see `FileProbe`). A listing that
 * `iterdir()` cannot produce is `None`.
 */
module Reconcile {
  import opened Wrappers
  import opened PyText
  import opened PyPath
  import opened SyncTypes
  import opened SyncUtils
  import opened Catalog

  /** An entry of a category directory: a regular file, or anything else. */
  datatype DirEntry = RegularFile(name: string, probe: FileProbe) | NotAFile(name: string)

  /** An entry of the storage directory: a category directory with its listing, or anything else. */
  datatype TopEntry = Subdir(name: string, listing: Option<seq<DirEntry>>) | NotADirEntry(name: string)

  /** What the storage path is. */
  datatype Storage = Missing | NotADir | Directory(listing: Option<seq<TopEntry>>)

  /** The loop's state: the session's view, a pending clash, `found_file_paths` and `stats`. */
  datatype ScanState = ScanState(photos: Photos, conflict: bool, found: set<string>, stats: SyncStats)

  datatype SyncOutcome = SyncOutcome(stats: SyncStats, photos: Photos)

  function StartState(existing: Photos): ScanState
  {
    ScanState(existing, false, {}, ZeroStats)
  }

  /** Whether the scan counts a directory entry: a regular file with a supported extension. */
  predicate IsScanned(base: PurePath, category: string, e: DirEntry, supported: PurePath -> bool)
  {
    e.RegularFile? && supported(Child(Child(base, category), e.name))
  }

  /** The row a new file gets. */
  function NewPhoto(name: string, category: string, m: ImageMetadata, title: string -> string): Photo
  {
    Photo(name, category, Some(title(name)), m.fileSize, m.width, m.height, m.fileModifiedAt)
  }

  /**
   * The update of a row whose file has a new mtime. The filename is
   * overwritten before the "title was generated" test, so that test
   * compares against the title of the new name.
   */
  function Refresh(cur: Photo, name: string, category: string, m: ImageMetadata, title: string -> string): (r: Photo)
    ensures r.filename == name && r.category == category && r.fileSize == m.fileSize
    ensures r.width == m.width && r.height == m.height && r.fileModifiedAt == m.fileModifiedAt
    ensures cur.title.None? || cur.title == Some("") ==> r.title == Some(title(name))
    ensures cur.title.Some? && cur.title != Some("") ==> r.title == cur.title
  {
    var p := cur.(filename := name, category := category, fileSize := m.fileSize,
                  width := m.width, height := m.height, fileModifiedAt := m.fileModifiedAt);
    if p.title.None? || p.title == Some("") || p.title == Some(title(p.filename)) then p.(title := Some(title(name)))
    else p
  }

  /** A directory entry together with the category directory it was listed in. */
  datatype Located = Located(category: string, entry: DirEntry)

  /** The entries of one category directory, each tagged with the directory's name. */
  function Tagged(category: string, es: seq<DirEntry>): (r: seq<Located>)
    ensures |r| == |es|
    ensures forall i :: 0 <= i < |es| ==> r[i] == Located(category, es[i])
  {
    seq(|es|, i requires 0 <= i < |es| => Located(category, es[i]))
  }

  /** The entries the outer loop hands to the inner loop for one top-level entry. */
  function TopEntries(top: TopEntry): seq<Located>
  {
    if top.Subdir? && top.listing.Some? then Tagged(top.name, top.listing.value) else []
  }

  /** Every entry the two loops visit, in visiting order: only entries one level inside a directory. */
  function Visited(tops: seq<TopEntry>): seq<Located>
  {
    if tops == [] then [] else Visited(tops[..|tops| - 1]) + TopEntries(tops[|tops| - 1])
  }

  predicate ScannedAt(base: PurePath, ls: seq<Located>, i: int, supported: PurePath -> bool)
  {
    0 <= i < |ls| && IsScanned(base, ls[i].category, ls[i].entry, supported)
  }

  /** One iteration of the inner loop. */
  function ScanFile(st: ScanState, existing: Photos, base: PurePath, category: string, e: DirEntry,
                    supported: PurePath -> bool, title: string -> string): (r: ScanState)
    requires existing.Keys <= st.photos.Keys
    ensures st.photos.Keys <= r.photos.Keys
    ensures st.conflict ==> r.conflict
    ensures r.stats.filesRemoved == st.stats.filesRemoved
  {
    if !IsScanned(base, category, e, supported) then st
    else
      var key := e.probe.resolved;
      var s1 := st.(found := st.found + {key}, stats := st.stats.(filesScanned := st.stats.filesScanned + 1));
      match ExtractImageMetadata(e.probe)
      case Err(_) => s1.(stats := s1.stats.(errors := s1.stats.errors + 1))
      case Ok(m) =>
        if key !in existing then
          s1.(photos := if key in s1.photos then s1.photos else s1.photos[key := NewPhoto(e.name, category, m, title)],
              conflict := s1.conflict || key in s1.photos,
              stats := s1.stats.(filesAdded := s1.stats.filesAdded + 1))
        else if s1.photos[key].fileModifiedAt != m.fileModifiedAt then
          s1.(photos := s1.photos[key := Refresh(s1.photos[key], e.name, category, m, title)],
              stats := s1.stats.(filesUpdated := s1.stats.filesUpdated + 1))
        else s1
  }

  /** Both loops, as one pass over the visited entries, written from the last entry. */
  function ScanSeq(st: ScanState, existing: Photos, base: PurePath, ls: seq<Located>,
                   supported: PurePath -> bool, title: string -> string): (r: ScanState)
    requires existing.Keys <= st.photos.Keys
    ensures st.photos.Keys <= r.photos.Keys
    ensures st.conflict ==> r.conflict
    ensures r.stats.filesRemoved == st.stats.filesRemoved
  {
    if ls == [] then st
    else
      var l := ls[|ls| - 1];
      ScanFile(ScanSeq(st, existing, base, ls[..|ls| - 1], supported, title), existing, base, l.category, l.entry, supported, title)
  }

  /** A top-level entry that is not a directory, or a directory that could be listed. */
  predicate Listable(top: TopEntry)
  {
    top.Subdir? ==> top.listing.Some?
  }

  /** Every category directory could be listed. */
  predicate AllListable(tops: seq<TopEntry>)
  {
    forall i :: 0 <= i < |tops| ==> Listable(tops[i])
  }

  /** The outer loop's guard over one more entry. */
  lemma AllListableStep(tops: seq<TopEntry>, t: int)
    requires 0 <= t < |tops| && AllListable(tops[..t])
    ensures AllListable(tops[..t + 1]) <==> Listable(tops[t])
    ensures !Listable(tops[t]) ==> !AllListable(tops)
  {
    var next := tops[..t + 1];
    assert next[t] == tops[t];
    if Listable(tops[t]) {
      forall i | 0 <= i < t + 1 ensures Listable(next[i]) {
        if i < t { assert next[i] == tops[..t][i]; }
      }
    }
  }

  /**
   * What one full sync does to the table `existing`: an error for a missing
   * or non-directory storage path, for a listing that fails, or for two new
   * rows with the same path; otherwise the statistics and the new table.
   */
  function FullSyncSpec(existing: Photos, base: PurePath, storage: Storage, supported: PurePath -> bool,
                        title: string -> string): (r: Result<SyncOutcome, SyncError>)
    ensures storage.Missing? ==> r == Err(NotFound)
    ensures storage.NotADir? ==> r == Err(NotADirectory)
  {
    match storage
    case Missing => Err(NotFound)
    case NotADir => Err(NotADirectory)
    case Directory(None) => Err(ListingFailed)
    case Directory(Some(tops)) =>
      if !AllListable(tops) then Err(ListingFailed)
      else
        var st := ScanSeq(StartState(existing), existing, base, Visited(tops), supported, title);
        var orphans := existing.Keys - st.found;
        if st.conflict then Err(IntegrityConflict)
        else Ok(SyncOutcome(st.stats.(filesRemoved := |orphans|), Without(st.photos, orphans)))
  }

  /** The body of the inner loop: one directory entry, against the open session. */
  method ScanEntry(session: Session, existing: Photos, found: set<string>, stats: SyncStats, base: PurePath,
                   category: string, e: DirEntry, supported: PurePath -> bool, title: string -> string)
    returns (found': set<string>, stats': SyncStats)
    requires existing.Keys <= session.photos.Keys
    modifies session
    ensures ScanState(session.photos, session.conflict, found', stats')
            == ScanFile(ScanState(old(session.photos), old(session.conflict), found, stats),
                        existing, base, category, e, supported, title)
  {
    found', stats' := found, stats;
    if IsScanned(base, category, e, supported) {
      var key := e.probe.resolved;
      found' := found' + {key};
      stats' := stats'.(filesScanned := stats'.filesScanned + 1);
      var meta := ExtractImageMetadata(e.probe);
      if meta.Err? {
        stats' := stats'.(errors := stats'.errors + 1);
      } else if key !in existing {
        session.Add(key, NewPhoto(e.name, category, meta.value, title));
        stats' := stats'.(filesAdded := stats'.filesAdded + 1);
      } else {
        var cur := session.photos[key];
        if cur.fileModifiedAt != meta.value.fileModifiedAt {
          session.Put(key, Refresh(cur, e.name, category, meta.value, title));
          stats' := stats'.(filesUpdated := stats'.filesUpdated + 1);
        }
      }
    }
  }

  /** The inner loop: every entry of one category directory, in listing order. */
  method ScanDirectory(session: Session, existing: Photos, found: set<string>, stats: SyncStats, base: PurePath,
                       category: string, entries: seq<DirEntry>, supported: PurePath -> bool, title: string -> string)
    returns (found': set<string>, stats': SyncStats)
    requires existing.Keys <= session.photos.Keys
    modifies session
    ensures ScanState(session.photos, session.conflict, found', stats')
            == ScanSeq(ScanState(old(session.photos), old(session.conflict), found, stats),
                       existing, base, Tagged(category, entries), supported, title)
  {
    ghost var start := ScanState(session.photos, session.conflict, found, stats);
    found', stats' := found, stats;
    var c := 0;
    while c < |entries|
      invariant 0 <= c <= |entries|
      invariant existing.Keys <= session.photos.Keys
      invariant ScanState(session.photos, session.conflict, found', stats')
                == ScanSeq(start, existing, base, Tagged(category, entries[..c]), supported, title)
    {
      assert Tagged(category, entries[..c + 1])[..c] == Tagged(category, entries[..c]);
      found', stats' := ScanEntry(session, existing, found', stats', base, category, entries[c], supported, title);
      c := c + 1;
    }
    assert entries[..c] == entries;
  }

  /** The outer loop: every top-level entry, in listing order; stops at the first listing that fails. */
  method ScanStorage(session: Session, base: PurePath, tops: seq<TopEntry>, supported: PurePath -> bool, title: string -> string)
    returns (listed: bool, found: set<string>, stats: SyncStats)
    requires !session.conflict
    modifies session
    ensures listed == AllListable(tops)
    ensures listed ==> ScanState(session.photos, session.conflict, found, stats)
                       == ScanSeq(StartState(old(session.photos)), old(session.photos), base, Visited(tops), supported, title)
  {
    var existing := session.photos;
    ghost var start := StartState(existing);
    ghost var done: seq<Located> := [];
    found, stats := {}, ZeroStats;
    var t := 0;
    while t < |tops|
      invariant 0 <= t <= |tops|
      invariant AllListable(tops[..t])
      invariant existing.Keys <= session.photos.Keys
      invariant done == Visited(tops[..t])
      invariant ScanState(session.photos, session.conflict, found, stats)
                == ScanSeq(start, existing, base, done, supported, title)
    {
      var top := tops[t];
      VisitedSnoc(tops, t);
      AllListableStep(tops, t);
      ScanSeqAppend(start, existing, base, done, TopEntries(top), supported, title);
      var ok;
      ok, found, stats := ScanTop(session, existing, found, stats, base, top, supported, title);
      if !ok {
        return false, found, stats;
      }
      done := done + TopEntries(top);
      t := t + 1;
    }
    assert tops[..t] == tops;
    listed := true;
  }

  /** One top-level entry: a category directory is scanned; a listing that fails stops the scan. */
  method ScanTop(session: Session, existing: Photos, found: set<string>, stats: SyncStats, base: PurePath,
                 top: TopEntry, supported: PurePath -> bool, title: string -> string)
    returns (ok: bool, found': set<string>, stats': SyncStats)
    requires existing.Keys <= session.photos.Keys
    modifies session
    ensures ok <==> Listable(top)
    ensures existing.Keys <= session.photos.Keys
    ensures ok ==> ScanState(session.photos, session.conflict, found', stats')
                   == ScanSeq(ScanState(old(session.photos), old(session.conflict), found, stats),
                              existing, base, TopEntries(top), supported, title)
  {
    found', stats' := found, stats;
    ok := true;
    if top.Subdir? {
      if top.listing.None? {
        return false, found, stats;
      }
      found', stats' := ScanDirectory(session, existing, found, stats, base, top.name, top.listing.value, supported, title);
    }
  }

  /**
   * The full sync: scans every category directory, adds, refreshes and
   * counts, deletes the rows whose file was not found, and commits once;
   * any exception rolls the whole session back.
   */
  method FullSync(db: Database, base: PurePath, storage: Storage, supported: PurePath -> bool, title: string -> string)
    returns (r: Result<SyncStats, SyncError>)
    modifies db
    ensures var spec := FullSyncSpec(old(db.photos), base, storage, supported, title);
      && (r.Ok? <==> spec.Ok?)
      && (r.Ok? ==> r.value == spec.value.stats && db.photos == spec.value.photos)
      && (r.Err? ==> r.error == spec.error && db.photos == old(db.photos))
  {
    if storage.Missing? {
      return Err(NotFound);
    }
    if storage.NotADir? {
      return Err(NotADirectory);
    }
    if storage.listing.None? {
      return Err(ListingFailed);
    }
    var session := new Session.Open(db);
    var existing := session.photos;
    var listed, found, stats := ScanStorage(session, base, storage.listing.value, supported, title);
    if !listed {
      return Err(ListingFailed);
    }
    var orphans := existing.Keys - found;
    if orphans != {} {
      session.Delete(orphans);
      stats := stats.(filesRemoved := stats.filesRemoved + |orphans|);
    } else {
      assert Without(session.photos, orphans) == session.photos;
      assert |orphans| == 0;
    }
    var ok := session.Commit();
    if ok {
      r := Ok(stats);
    } else {
      r := Err(IntegrityConflict);
    }
  }

  /** The outer loop's step: entry `t` adds its own entries after those of the first `t`. */
  lemma VisitedSnoc(tops: seq<TopEntry>, t: int)
    requires 0 <= t < |tops|
    ensures Visited(tops[..t + 1]) == Visited(tops[..t]) + TopEntries(tops[t])
  {
    assert tops[..t + 1][..t] == tops[..t];
  }

  lemma {:induction false} ScanSeqAppend(st: ScanState, existing: Photos, base: PurePath, a: seq<Located>, b: seq<Located>,
                                         supported: PurePath -> bool, title: string -> string)
    requires existing.Keys <= st.photos.Keys
    ensures ScanSeq(st, existing, base, a + b, supported, title)
            == ScanSeq(ScanSeq(st, existing, base, a, supported, title), existing, base, b, supported, title)
    decreases |b|
  {
    if b == [] {
      assert a + b == a;
    } else {
      assert (a + b)[..|a + b| - 1] == a + b[..|b| - 1];
      ScanSeqAppend(st, existing, base, a, b[..|b| - 1], supported, title);
    }
  }

  /** How many visited entries the scan counts. */
  function ScannedCount(base: PurePath, ls: seq<Located>, supported: PurePath -> bool): nat
  {
    if ls == [] then 0
    else ScannedCount(base, ls[..|ls| - 1], supported) + (if ScannedAt(base, ls, |ls| - 1, supported) then 1 else 0)
  }

  /** The resolved paths of the counted entries: what `found_file_paths` collects. */
  function FoundKeys(base: PurePath, ls: seq<Located>, supported: PurePath -> bool): set<string>
  {
    if ls == [] then {}
    else FoundKeys(base, ls[..|ls| - 1], supported)
         + (if ScannedAt(base, ls, |ls| - 1, supported) then {ls[|ls| - 1].entry.probe.resolved} else {})
  }

  lemma {:induction false} FoundKeysMeaning(base: PurePath, ls: seq<Located>, supported: PurePath -> bool, k: string)
    ensures k in FoundKeys(base, ls, supported)
            <==> exists i :: ScannedAt(base, ls, i, supported) && ls[i].entry.probe.resolved == k
  {
    if ls != [] {
      var n := |ls| - 1;
      FoundKeysMeaning(base, ls[..n], supported, k);
      if k in FoundKeys(base, ls, supported) {
        if k in FoundKeys(base, ls[..n], supported) {
          var i :| ScannedAt(base, ls[..n], i, supported) && ls[..n][i].entry.probe.resolved == k;
          assert ScannedAt(base, ls, i, supported);
        } else {
          assert ScannedAt(base, ls, n, supported);
        }
      }
      if exists i :: ScannedAt(base, ls, i, supported) && ls[i].entry.probe.resolved == k {
        var i :| ScannedAt(base, ls, i, supported) && ls[i].entry.probe.resolved == k;
        if i < n {
          assert ScannedAt(base, ls[..n], i, supported);
        }
      }
    }
  }

  /** Whether the entry at `i` is counted and its metadata reads. */
  predicate ReadableAt(base: PurePath, ls: seq<Located>, i: int, supported: PurePath -> bool)
  {
    ScannedAt(base, ls, i, supported) && ExtractImageMetadata(ls[i].entry.probe).Ok?
  }

  /** How many counted entries fail to read: what `errors` counts. */
  function ErrorCount(base: PurePath, ls: seq<Located>, supported: PurePath -> bool): nat
  {
    if ls == [] then 0
    else
      var n := |ls| - 1;
      ErrorCount(base, ls[..n], supported)
      + (if ScannedAt(base, ls, n, supported) && ExtractImageMetadata(ls[n].entry.probe).Err? then 1 else 0)
  }

  /** How many counted, readable entries resolve to a path the table did not have: what `files_added` counts. */
  function AddedCount(existing: Photos, base: PurePath, ls: seq<Located>, supported: PurePath -> bool): nat
  {
    if ls == [] then 0
    else
      var n := |ls| - 1;
      AddedCount(existing, base, ls[..n], supported)
      + (if ReadableAt(base, ls, n, supported) && ls[n].entry.probe.resolved !in existing then 1 else 0)
  }

  /**
   * The mtime the row at `k` carries after the entries `ls`, starting from
   * the table `start`: that of the last readable entry resolving to `k`,
   * or the row's own when there is none.
   */
  function CurrentMtime(start: Photos, base: PurePath, ls: seq<Located>, supported: PurePath -> bool, k: string): int
    requires k in start
  {
    if ls == [] then start[k].fileModifiedAt
    else
      var n := |ls| - 1;
      if ReadableAt(base, ls, n, supported) && ls[n].entry.probe.resolved == k
      then ExtractImageMetadata(ls[n].entry.probe).value.fileModifiedAt
      else CurrentMtime(start, base, ls[..n], supported, k)
  }

  /**
   * Whether the entry at `i` refreshes a row: it is counted and readable,
   * its path had a row, and its mtime differs from the one that row
   * carries after the entries before it.
   */
  predicate UpdatesAt(start: Photos, existing: Photos, base: PurePath, ls: seq<Located>, i: int, supported: PurePath -> bool)
  {
    && ReadableAt(base, ls, i, supported)
    && ls[i].entry.probe.resolved in existing && ls[i].entry.probe.resolved in start
    && CurrentMtime(start, base, ls[..i], supported, ls[i].entry.probe.resolved)
       != ExtractImageMetadata(ls[i].entry.probe).value.fileModifiedAt
  }

  /** How many entries refresh a row: what `files_updated` counts. */
  function UpdatedCount(start: Photos, existing: Photos, base: PurePath, ls: seq<Located>, supported: PurePath -> bool): nat
  {
    if ls == [] then 0
    else
      var n := |ls| - 1;
      UpdatedCount(start, existing, base, ls[..n], supported) + (if UpdatesAt(start, existing, base, ls, n, supported) then 1 else 0)
  }

  /**
   * The counters and the found set after a pass: one `files_scanned` per
   * counted entry, one `errors` per counted entry that fails to read, one
   * `files_added` per readable entry of a path the table did not have, at
   * most one of added, updated or error per counted entry, and no row for
   * a path that was neither there nor found.
   */
  lemma {:induction false} ScanSeqCounts(st: ScanState, existing: Photos, base: PurePath, ls: seq<Located>,
                                         supported: PurePath -> bool, title: string -> string)
    requires existing.Keys <= st.photos.Keys
    ensures var r := ScanSeq(st, existing, base, ls, supported, title);
      && r.stats.filesScanned == st.stats.filesScanned + ScannedCount(base, ls, supported)
      && r.stats.errors == st.stats.errors + ErrorCount(base, ls, supported)
      && r.stats.filesAdded == st.stats.filesAdded + AddedCount(existing, base, ls, supported)
      && r.stats.filesAdded + r.stats.filesUpdated + r.stats.errors
         <= st.stats.filesAdded + st.stats.filesUpdated + st.stats.errors + ScannedCount(base, ls, supported)
      && r.found == st.found + FoundKeys(base, ls, supported)
      && r.photos.Keys <= st.photos.Keys + FoundKeys(base, ls, supported)
  {
    if ls != [] {
      var n := |ls| - 1;
      var prev := ScanSeq(st, existing, base, ls[..n], supported, title);
      ScanSeqCounts(st, existing, base, ls[..n], supported, title);
      ScanFileCounts(prev, existing, base, ls[n].category, ls[n].entry, supported, title);
      assert ScannedAt(base, ls, n, supported) == IsScanned(base, ls[n].category, ls[n].entry, supported);
    }
  }

  /**
   * `files_updated` after a pass: one per entry that refreshes a row; and
   * every row the table had carries the mtime of the last readable entry
   * of its path.
   */
  lemma {:induction false} ScanSeqUpdates(st: ScanState, existing: Photos, base: PurePath, ls: seq<Located>,
                                          supported: PurePath -> bool, title: string -> string)
    requires existing.Keys <= st.photos.Keys
    ensures var r := ScanSeq(st, existing, base, ls, supported, title);
      && r.stats.filesUpdated == st.stats.filesUpdated + UpdatedCount(st.photos, existing, base, ls, supported)
      && (forall k :: k in existing ==>
            k in r.photos && r.photos[k].fileModifiedAt == CurrentMtime(st.photos, base, ls, supported, k))
  {
    if ls != [] {
      var n := |ls| - 1;
      var prev := ScanSeq(st, existing, base, ls[..n], supported, title);
      ScanSeqUpdates(st, existing, base, ls[..n], supported, title);
      ScanFileCounts(prev, existing, base, ls[n].category, ls[n].entry, supported, title);
      ScanFileMtimes(prev, existing, base, ls, supported, title, st.photos);
    }
  }

  /** The step of `ScanSeqUpdates`: the last entry moves the counter and the mtimes as `UpdatesAt` and `CurrentMtime` say. */
  lemma ScanFileMtimes(prev: ScanState, existing: Photos, base: PurePath, ls: seq<Located>,
                       supported: PurePath -> bool, title: string -> string, start: Photos)
    requires ls != [] && existing.Keys <= prev.photos.Keys && existing.Keys <= start.Keys
    requires forall k :: k in existing ==>
      k in prev.photos && prev.photos[k].fileModifiedAt == CurrentMtime(start, base, ls[..|ls| - 1], supported, k)
    ensures var n := |ls| - 1;
      var r := ScanFile(prev, existing, base, ls[n].category, ls[n].entry, supported, title);
      && r.stats.filesUpdated == prev.stats.filesUpdated + (if UpdatesAt(start, existing, base, ls, n, supported) then 1 else 0)
      && (forall k :: k in existing ==>
            k in r.photos && r.photos[k].fileModifiedAt == CurrentMtime(start, base, ls, supported, k))
  {
    var n := |ls| - 1;
    ScanFileCounts(prev, existing, base, ls[n].category, ls[n].entry, supported, title);
    assert ScannedAt(base, ls, n, supported) == IsScanned(base, ls[n].category, ls[n].entry, supported);
    if ScannedAt(base, ls, n, supported) {
      ScanFileRows(prev, existing, base, ls[n].category, ls[n].entry, supported, title);
    }
  }

  /**
   * The counters after one entry: a counted entry adds one
   * `files_scanned` and its path to the found set, and then one `errors`
   * when it fails to read, one `files_added` when it is readable and its
   * path had no row, one `files_updated` when it is readable and its
   * path's row has another mtime; an entry that is not counted changes
   * nothing.
   */
  lemma ScanFileCounts(st: ScanState, existing: Photos, base: PurePath, category: string, e: DirEntry,
                       supported: PurePath -> bool, title: string -> string)
    requires existing.Keys <= st.photos.Keys
    ensures var r := ScanFile(st, existing, base, category, e, supported, title);
      var counted := IsScanned(base, category, e, supported);
      var failed := counted && ExtractImageMetadata(e.probe).Err?;
      var readable := counted && ExtractImageMetadata(e.probe).Ok?;
      && r.stats.filesScanned == st.stats.filesScanned + (if counted then 1 else 0)
      && r.stats.errors == st.stats.errors + (if failed then 1 else 0)
      && r.stats.filesAdded == st.stats.filesAdded + (if readable && e.probe.resolved !in existing then 1 else 0)
      && r.stats.filesUpdated == st.stats.filesUpdated
         + (if readable && e.probe.resolved in existing
                && st.photos[e.probe.resolved].fileModifiedAt != ExtractImageMetadata(e.probe).value.fileModifiedAt
            then 1 else 0)
      && r.found == st.found + (if counted then {e.probe.resolved} else {})
      && r.photos.Keys <= st.photos.Keys + (if counted then {e.probe.resolved} else {})
      && (!counted ==> r == st)
  {
  }

  /**
   * The rows after one counted entry: a failing read changes none; a
   * readable file of a new path adds its row, or the clash if the key is
   * taken; one of a known path with another mtime refreshes that row; one
   * with the row's own mtime changes none.
   */
  lemma ScanFileRows(st: ScanState, existing: Photos, base: PurePath, category: string, e: DirEntry,
                     supported: PurePath -> bool, title: string -> string)
    requires existing.Keys <= st.photos.Keys
    requires IsScanned(base, category, e, supported)
    ensures var r := ScanFile(st, existing, base, category, e, supported, title);
      ExtractImageMetadata(e.probe).Err? ==> r.photos == st.photos && r.conflict == st.conflict
    ensures var r := ScanFile(st, existing, base, category, e, supported, title);
      var key := e.probe.resolved;
      ExtractImageMetadata(e.probe).Ok? && key !in existing ==>
        && r.conflict == (st.conflict || key in st.photos)
        && r.photos == (if key in st.photos then st.photos
                        else st.photos[key := NewPhoto(e.name, category, ExtractImageMetadata(e.probe).value, title)])
    ensures var r := ScanFile(st, existing, base, category, e, supported, title);
      var key := e.probe.resolved;
      ExtractImageMetadata(e.probe).Ok? && key in existing ==>
        var m := ExtractImageMetadata(e.probe).value;
        && r.conflict == st.conflict
        && (st.photos[key].fileModifiedAt != m.fileModifiedAt ==>
              r.photos == st.photos[key := Refresh(st.photos[key], e.name, category, m, title)])
        && (st.photos[key].fileModifiedAt == m.fileModifiedAt ==> r.photos == st.photos)
  {
  }

  /**
   * A row is only rewritten by a counted entry of its own path whose
   * metadata reads and whose mtime differs from the row's.
   */
  lemma {:induction false} RowKept(st: ScanState, existing: Photos, base: PurePath, ls: seq<Located>,
                                   supported: PurePath -> bool, title: string -> string, k: string)
    requires existing.Keys <= st.photos.Keys
    requires k in st.photos
    requires forall i :: ScannedAt(base, ls, i, supported) && ls[i].entry.probe.resolved == k && k in existing
               ==> ExtractImageMetadata(ls[i].entry.probe).Err?
                   || ExtractImageMetadata(ls[i].entry.probe).value.fileModifiedAt == st.photos[k].fileModifiedAt
    ensures var r := ScanSeq(st, existing, base, ls, supported, title);
      k in r.photos && r.photos[k] == st.photos[k]
  {
    if ls != [] {
      var n := |ls| - 1;
      forall i | ScannedAt(base, ls[..n], i, supported) && ls[..n][i].entry.probe.resolved == k && k in existing
        ensures ExtractImageMetadata(ls[..n][i].entry.probe).Err?
                || ExtractImageMetadata(ls[..n][i].entry.probe).value.fileModifiedAt == st.photos[k].fileModifiedAt
      {
        assert ScannedAt(base, ls, i, supported);
      }
      RowKept(st, existing, base, ls[..n], supported, title, k);
      assert IsScanned(base, ls[n].category, ls[n].entry, supported) ==> ScannedAt(base, ls, n, supported);
      var prev := ScanSeq(st, existing, base, ls[..n], supported, title);
      ScanFileKeepsRow(prev, existing, base, ls[n].category, ls[n].entry, supported, title, k);
    }
  }

  /** One entry leaves a row alone unless it is a readable file of the row's path with another mtime. */
  lemma ScanFileKeepsRow(st: ScanState, existing: Photos, base: PurePath, category: string, e: DirEntry,
                         supported: PurePath -> bool, title: string -> string, k: string)
    requires existing.Keys <= st.photos.Keys
    requires k in st.photos
    requires IsScanned(base, category, e, supported) && e.probe.resolved == k && k in existing ==>
      ExtractImageMetadata(e.probe).Err? || ExtractImageMetadata(e.probe).value.fileModifiedAt == st.photos[k].fileModifiedAt
    ensures var r := ScanFile(st, existing, base, category, e, supported, title);
      k in r.photos && r.photos[k] == st.photos[k]
  {
  }

  /** Non-empty titles of rows that were there before the pass survive it. */
  predicate KeepsTitles(existing: Photos, photos: Photos)
  {
    forall k :: k in existing && k in photos && existing[k].title.Some? && existing[k].title != Some("")
      ==> photos[k].title == existing[k].title
  }

  lemma {:induction false} ScanSeqKeepsTitles(st: ScanState, existing: Photos, base: PurePath, ls: seq<Located>,
                                              supported: PurePath -> bool, title: string -> string)
    requires existing.Keys <= st.photos.Keys
    requires KeepsTitles(existing, st.photos)
    ensures KeepsTitles(existing, ScanSeq(st, existing, base, ls, supported, title).photos)
  {
    if ls != [] {
      ScanSeqKeepsTitles(st, existing, base, ls[..|ls| - 1], supported, title);
    }
  }

  /** A row added for a new path keeps its contents to the end of the pass, unless a clash is pending. */
  lemma {:induction false} NewRowStays(st: ScanState, existing: Photos, base: PurePath, ls: seq<Located>,
                                       supported: PurePath -> bool, title: string -> string, k: string)
    requires existing.Keys <= st.photos.Keys
    requires k in st.photos && k !in existing
    ensures var r := ScanSeq(st, existing, base, ls, supported, title);
      r.conflict || (k in r.photos && r.photos[k] == st.photos[k])
  {
    if ls != [] {
      NewRowStays(st, existing, base, ls[..|ls| - 1], supported, title, k);
    }
  }

  /** A counted, readable entry whose path has no row gets the row `NewPhoto` builds, unless a clash is pending. */
  lemma NewPathRow(st: ScanState, existing: Photos, base: PurePath, ls: seq<Located>,
                   supported: PurePath -> bool, title: string -> string, i: int)
    requires existing.Keys <= st.photos.Keys
    requires ScannedAt(base, ls, i, supported) && ExtractImageMetadata(ls[i].entry.probe).Ok?
    requires ls[i].entry.probe.resolved !in st.photos
    ensures var r := ScanSeq(st, existing, base, ls, supported, title);
      var k := ls[i].entry.probe.resolved;
      r.conflict
      || (k in r.photos
          && r.photos[k] == NewPhoto(ls[i].entry.name, ls[i].category, ExtractImageMetadata(ls[i].entry.probe).value, title))
  {
    var k := ls[i].entry.probe.resolved;
    assert ls[..i + 1][..i] == ls[..i];
    var s1 := ScanSeq(st, existing, base, ls[..i + 1], supported, title);
    assert ls == ls[..i + 1] + ls[i + 1..];
    ScanSeqAppend(st, existing, base, ls[..i + 1], ls[i + 1..], supported, title);
    if !s1.conflict {
      NewRowStays(s1, existing, base, ls[i + 1..], supported, title, k);
    }
  }

  /** Two counted, readable entries that resolve to the same new path make the pass clash. */
  lemma DuplicateNewPathClashes(st: ScanState, existing: Photos, base: PurePath, ls: seq<Located>,
                                supported: PurePath -> bool, title: string -> string, i: int, j: int)
    requires existing.Keys <= st.photos.Keys
    requires i < j
    requires ScannedAt(base, ls, i, supported) && ExtractImageMetadata(ls[i].entry.probe).Ok?
    requires ScannedAt(base, ls, j, supported) && ExtractImageMetadata(ls[j].entry.probe).Ok?
    requires ls[i].entry.probe.resolved == ls[j].entry.probe.resolved
    requires ls[i].entry.probe.resolved !in st.photos
    ensures ScanSeq(st, existing, base, ls, supported, title).conflict
  {
    assert ls[..j][i] == ls[i];
    NewPathRow(st, existing, base, ls[..j], supported, title, i);
    assert ls[..j + 1][..j] == ls[..j];
    assert ls == ls[..j + 1] + ls[j + 1..];
    ScanSeqAppend(st, existing, base, ls[..j + 1], ls[j + 1..], supported, title);
  }

  /** Every counted entry that resolves to a path gets the answers `probes` holds for that path. */
  predicate ProbesFrom(probes: map<string, FileProbe>, base: PurePath, ls: seq<Located>, supported: PurePath -> bool)
  {
    forall i :: 0 <= i < |ls| && ScannedAt(base, ls, i, supported)
      ==> ls[i].entry.probe.resolved in probes && probes[ls[i].entry.probe.resolved] == ls[i].entry.probe
  }

  /** Every path in `keys` whose metadata reads has a row carrying that file's mtime. */
  predicate Settled(photos: Photos, probes: map<string, FileProbe>, keys: set<string>)
  {
    forall k :: k in keys && k in probes && ExtractImageMetadata(probes[k]).Ok?
      ==> k in photos && photos[k].fileModifiedAt == ExtractImageMetadata(probes[k]).value.fileModifiedAt
  }

  /** Every row that was not there before came from a readable file and carries its mtime. */
  predicate AddedSettled(photos: Photos, existing: Photos, probes: map<string, FileProbe>)
  {
    forall k :: k in photos && k !in existing
      ==> k in probes && ExtractImageMetadata(probes[k]).Ok?
          && photos[k].fileModifiedAt == ExtractImageMetadata(probes[k]).value.fileModifiedAt
  }

  lemma {:induction false} FirstScanSettles(st: ScanState, existing: Photos, base: PurePath, ls: seq<Located>,
                                            supported: PurePath -> bool, title: string -> string, probes: map<string, FileProbe>)
    requires existing.Keys <= st.photos.Keys
    requires ProbesFrom(probes, base, ls, supported)
    requires AddedSettled(st.photos, existing, probes) && Settled(st.photos, probes, st.found)
    ensures var r := ScanSeq(st, existing, base, ls, supported, title);
      AddedSettled(r.photos, existing, probes) && Settled(r.photos, probes, r.found)
  {
    if ls != [] {
      var n := |ls| - 1;
      ProbesFromPrefix(probes, base, ls, supported);
      FirstScanSettles(st, existing, base, ls[..n], supported, title, probes);
      var prev := ScanSeq(st, existing, base, ls[..n], supported, title);
      ScanFileSettles(prev, existing, base, ls[n].category, ls[n].entry, supported, title, probes);
    }
  }

  /** The probes of a pass hold for the pass without its last entry, and for that entry when it is counted. */
  lemma ProbesFromPrefix(probes: map<string, FileProbe>, base: PurePath, ls: seq<Located>, supported: PurePath -> bool)
    requires ls != [] && ProbesFrom(probes, base, ls, supported)
    ensures ProbesFrom(probes, base, ls[..|ls| - 1], supported)
    ensures var l := ls[|ls| - 1];
      IsScanned(base, l.category, l.entry, supported) ==>
        l.entry.probe.resolved in probes && probes[l.entry.probe.resolved] == l.entry.probe
  {
    var n := |ls| - 1;
    var init := ls[..n];
    forall i | 0 <= i < |init| && ScannedAt(base, init, i, supported)
      ensures init[i].entry.probe.resolved in probes && probes[init[i].entry.probe.resolved] == init[i].entry.probe
    {
      assert init[i] == ls[i];
      assert ScannedAt(base, ls, i, supported);
    }
    assert IsScanned(base, ls[n].category, ls[n].entry, supported) ==> ScannedAt(base, ls, n, supported);
  }

  /** One entry keeps the table settled for what has been found, and new rows settled. */
  lemma ScanFileSettles(st: ScanState, existing: Photos, base: PurePath, category: string, e: DirEntry,
                        supported: PurePath -> bool, title: string -> string, probes: map<string, FileProbe>)
    requires existing.Keys <= st.photos.Keys
    requires IsScanned(base, category, e, supported) ==> e.probe.resolved in probes && probes[e.probe.resolved] == e.probe
    requires AddedSettled(st.photos, existing, probes) && Settled(st.photos, probes, st.found)
    ensures var r := ScanFile(st, existing, base, category, e, supported, title);
      AddedSettled(r.photos, existing, probes) && Settled(r.photos, probes, r.found)
  {
  }

  /** Over a table that is settled for every counted path, a pass adds, updates and clashes with nothing. */
  lemma {:induction false} RescanIsQuiet(st: ScanState, existing: Photos, base: PurePath, ls: seq<Located>,
                                         supported: PurePath -> bool, title: string -> string, probes: map<string, FileProbe>)
    requires st.photos == existing
    requires ProbesFrom(probes, base, ls, supported)
    requires Settled(existing, probes, FoundKeys(base, ls, supported))
    ensures var r := ScanSeq(st, existing, base, ls, supported, title);
      && r.photos == existing && r.conflict == st.conflict
      && r.stats.filesAdded == st.stats.filesAdded && r.stats.filesUpdated == st.stats.filesUpdated
  {
    if ls != [] {
      var n := |ls| - 1;
      ProbesFromPrefix(probes, base, ls, supported);
      FoundKeysPrefix(base, ls, supported);
      RescanIsQuiet(st, existing, base, ls[..n], supported, title, probes);
      var prev := ScanSeq(st, existing, base, ls[..n], supported, title);
      ScanFileQuiet(prev, existing, base, ls[n].category, ls[n].entry, supported, title, probes);
    }
  }

  /** The found paths of a pass: those of the pass without its last entry, and that entry's when it is counted. */
  lemma FoundKeysPrefix(base: PurePath, ls: seq<Located>, supported: PurePath -> bool)
    requires ls != []
    ensures var l := ls[|ls| - 1];
      FoundKeys(base, ls, supported)
      == FoundKeys(base, ls[..|ls| - 1], supported)
         + (if IsScanned(base, l.category, l.entry, supported) then {l.entry.probe.resolved} else {})
  {
    var n := |ls| - 1;
    assert ScannedAt(base, ls, n, supported) == IsScanned(base, ls[n].category, ls[n].entry, supported);
  }

  /** One entry over a settled table changes no row and counts no addition or update. */
  lemma ScanFileQuiet(st: ScanState, existing: Photos, base: PurePath, category: string, e: DirEntry,
                      supported: PurePath -> bool, title: string -> string, probes: map<string, FileProbe>)
    requires st.photos == existing
    requires IsScanned(base, category, e, supported) ==> e.probe.resolved in probes && probes[e.probe.resolved] == e.probe
    requires IsScanned(base, category, e, supported) ==> Settled(existing, probes, {e.probe.resolved})
    ensures var r := ScanFile(st, existing, base, category, e, supported, title);
      && r.photos == existing && r.conflict == st.conflict
      && r.stats.filesAdded == st.stats.filesAdded && r.stats.filesUpdated == st.stats.filesUpdated
  {
    if IsScanned(base, category, e, supported) {
      assert e.probe.resolved in {e.probe.resolved};
    }
  }

  /**
   * The statistics of a successful full sync: `files_scanned` counts exactly
   * the supported regular files one level inside a directory, `errors`
   * those that fail to read, `files_added` the readable ones of a path the
   * table did not have, `files_updated` those that refresh a row, every
   * counted file is at most one of these three, and `files_removed` is the
   * number of rows whose path was not found.
   */
  lemma FullSyncCounts(existing: Photos, base: PurePath, tops: seq<TopEntry>,
                       supported: PurePath -> bool, title: string -> string)
    requires FullSyncSpec(existing, base, Directory(Some(tops)), supported, title).Ok?
    ensures var s := FullSyncSpec(existing, base, Directory(Some(tops)), supported, title).value.stats;
      var ls := Visited(tops);
      && s.filesScanned == ScannedCount(base, ls, supported)
      && s.errors == ErrorCount(base, ls, supported)
      && s.filesAdded == AddedCount(existing, base, ls, supported)
      && s.filesUpdated == UpdatedCount(existing, existing, base, ls, supported)
      && s.filesAdded + s.filesUpdated + s.errors <= s.filesScanned
      && s.filesRemoved == |existing.Keys - FoundKeys(base, ls, supported)|
  {
    var ls := Visited(tops);
    var st := ScanSeq(StartState(existing), existing, base, ls, supported, title);
    SpecOfScan(existing, base, tops, supported, title, ls, st);
    ScanSeqCounts(StartState(existing), existing, base, ls, supported, title);
    ScanSeqUpdates(StartState(existing), existing, base, ls, supported, title);
  }

  /**
   * A row of the table whose path has exactly one counted entry, readable
   * and with another mtime, comes out of a successful full sync as that
   * row refreshed from the entry: its file name, its directory as
   * category, and the file's size, dimensions and mtime.
   */
  lemma FullSyncUpdatesRow(existing: Photos, base: PurePath, tops: seq<TopEntry>,
                           supported: PurePath -> bool, title: string -> string, i: int)
    requires FullSyncSpec(existing, base, Directory(Some(tops)), supported, title).Ok?
    requires ReadableAt(base, Visited(tops), i, supported)
    requires var l := Visited(tops)[i];
      && l.entry.probe.resolved in existing
      && ExtractImageMetadata(l.entry.probe).value.fileModifiedAt != existing[l.entry.probe.resolved].fileModifiedAt
    requires var ls := Visited(tops);
      forall j :: ScannedAt(base, ls, j, supported) && ls[j].entry.probe.resolved == ls[i].entry.probe.resolved ==> j == i
    ensures var photos := FullSyncSpec(existing, base, Directory(Some(tops)), supported, title).value.photos;
      var l := Visited(tops)[i];
      var k := l.entry.probe.resolved;
      k in photos && photos[k] == Refresh(existing[k], l.entry.name, l.category, ExtractImageMetadata(l.entry.probe).value, title)
  {
    var ls := Visited(tops);
    var k := ls[i].entry.probe.resolved;
    var st := ScanSeq(StartState(existing), existing, base, ls, supported, title);
    SpecOfScan(existing, base, tops, supported, title, ls, st);
    ScanSeqCounts(StartState(existing), existing, base, ls, supported, title);
    FoundKeysMeaning(base, ls, supported, k);
    RefreshedRow(StartState(existing), existing, base, ls, supported, title, i);
  }

  /** The pass-level form of `FullSyncUpdatesRow`. */
  lemma RefreshedRow(st: ScanState, existing: Photos, base: PurePath, ls: seq<Located>,
                     supported: PurePath -> bool, title: string -> string, i: int)
    requires existing.Keys <= st.photos.Keys
    requires ReadableAt(base, ls, i, supported)
    requires var k := ls[i].entry.probe.resolved;
      k in existing && ExtractImageMetadata(ls[i].entry.probe).value.fileModifiedAt != st.photos[k].fileModifiedAt
    requires forall j :: ScannedAt(base, ls, j, supported) && ls[j].entry.probe.resolved == ls[i].entry.probe.resolved ==> j == i
    ensures var r := ScanSeq(st, existing, base, ls, supported, title);
      var k := ls[i].entry.probe.resolved;
      k in r.photos
      && r.photos[k] == Refresh(st.photos[k], ls[i].entry.name, ls[i].category, ExtractImageMetadata(ls[i].entry.probe).value, title)
  {
    var l := ls[i];
    var k := l.entry.probe.resolved;
    var row := Refresh(st.photos[k], l.entry.name, l.category, ExtractImageMetadata(l.entry.probe).value, title);
    OnlyEntryAt(base, ls, supported, i);
    RowUntouched(st, existing, base, ls[..i], supported, title, k);
    var s0 := ScanSeq(st, existing, base, ls[..i], supported, title);
    var s1 := ScanFile(s0, existing, base, l.category, l.entry, supported, title);
    ScanFileRows(s0, existing, base, l.category, l.entry, supported, title);
    assert k in s1.photos && s1.photos[k] == row;
    ScanSeqAround(st, existing, base, ls, supported, title, i);
    RowUntouched(s1, existing, base, ls[i + 1..], supported, title, k);
  }

  /** A pass is the pass up to entry `i`, then that entry, then the rest. */
  lemma ScanSeqAround(st: ScanState, existing: Photos, base: PurePath, ls: seq<Located>,
                      supported: PurePath -> bool, title: string -> string, i: int)
    requires existing.Keys <= st.photos.Keys
    requires 0 <= i < |ls|
    ensures var s0 := ScanSeq(st, existing, base, ls[..i], supported, title);
      var s1 := ScanFile(s0, existing, base, ls[i].category, ls[i].entry, supported, title);
      ScanSeq(st, existing, base, ls, supported, title) == ScanSeq(s1, existing, base, ls[i + 1..], supported, title)
  {
    assert ls[..i + 1][..i] == ls[..i];
    assert ls == ls[..i + 1] + ls[i + 1..];
    ScanSeqAppend(st, existing, base, ls[..i + 1], ls[i + 1..], supported, title);
  }

  /** No counted entry of `ls` resolves to `k`. */
  predicate NoEntryOf(base: PurePath, ls: seq<Located>, supported: PurePath -> bool, k: string)
  {
    forall j :: 0 <= j < |ls| && ScannedAt(base, ls, j, supported) ==> ls[j].entry.probe.resolved != k
  }

  /** The only counted entry of its path has none before it and none after it. */
  lemma OnlyEntryAt(base: PurePath, ls: seq<Located>, supported: PurePath -> bool, i: int)
    requires ScannedAt(base, ls, i, supported)
    requires forall j :: ScannedAt(base, ls, j, supported) && ls[j].entry.probe.resolved == ls[i].entry.probe.resolved ==> j == i
    ensures NoEntryOf(base, ls[..i], supported, ls[i].entry.probe.resolved)
    ensures NoEntryOf(base, ls[i + 1..], supported, ls[i].entry.probe.resolved)
  {
    var k := ls[i].entry.probe.resolved;
    var before, after := ls[..i], ls[i + 1..];
    forall j | 0 <= j < |before| && ScannedAt(base, before, j, supported)
      ensures before[j].entry.probe.resolved != k
    {
      assert before[j] == ls[j];
      assert ScannedAt(base, ls, j, supported);
    }
    forall j | 0 <= j < |after| && ScannedAt(base, after, j, supported)
      ensures after[j].entry.probe.resolved != k
    {
      assert after[j] == ls[i + 1 + j];
      assert ScannedAt(base, ls, i + 1 + j, supported);
    }
  }

  /** A pass with no counted entry of a row's path leaves that row as it is. */
  lemma RowUntouched(st: ScanState, existing: Photos, base: PurePath, ls: seq<Located>,
                     supported: PurePath -> bool, title: string -> string, k: string)
    requires existing.Keys <= st.photos.Keys && k in st.photos
    requires NoEntryOf(base, ls, supported, k)
    ensures var r := ScanSeq(st, existing, base, ls, supported, title);
      k in r.photos && r.photos[k] == st.photos[k]
  {
    RowKept(st, existing, base, ls, supported, title, k);
  }

  /**
   * A successful full sync deletes exactly the rows whose path was not
   * found, and every row it leaves was either there before or found.
   */
  lemma FullSyncRemovesExactlyOrphans(existing: Photos, base: PurePath, tops: seq<TopEntry>,
                                      supported: PurePath -> bool, title: string -> string)
    requires FullSyncSpec(existing, base, Directory(Some(tops)), supported, title).Ok?
    ensures var photos := FullSyncSpec(existing, base, Directory(Some(tops)), supported, title).value.photos;
      var found := FoundKeys(base, Visited(tops), supported);
      && (forall k :: k in existing ==> (k in photos <==> k in found))
      && (forall k :: k in photos ==> k in existing || k in found)
  {
    ScanSeqCounts(StartState(existing), existing, base, Visited(tops), supported, title);
  }

  /**
   * A row whose path was found, and whose every entry either failed to
   * read or showed the row's own mtime, comes out of a successful full
   * sync exactly as it went in: a per-file error neither changes nor
   * deletes it.
   */
  lemma FullSyncKeepsRow(existing: Photos, base: PurePath, tops: seq<TopEntry>,
                         supported: PurePath -> bool, title: string -> string, k: string)
    requires FullSyncSpec(existing, base, Directory(Some(tops)), supported, title).Ok?
    requires k in existing && k in FoundKeys(base, Visited(tops), supported)
    requires var ls := Visited(tops);
      forall i :: 0 <= i < |ls| && ScannedAt(base, ls, i, supported) && ls[i].entry.probe.resolved == k
        ==> ExtractImageMetadata(ls[i].entry.probe).Err?
            || ExtractImageMetadata(ls[i].entry.probe).value.fileModifiedAt == existing[k].fileModifiedAt
    ensures var photos := FullSyncSpec(existing, base, Directory(Some(tops)), supported, title).value.photos;
      k in photos && photos[k] == existing[k]
  {
    ScanSeqCounts(StartState(existing), existing, base, Visited(tops), supported, title);
    RowKept(StartState(existing), existing, base, Visited(tops), supported, title, k);
  }

  /** A successful full sync never changes a non-empty title. */
  lemma FullSyncKeepsTitles(existing: Photos, base: PurePath, tops: seq<TopEntry>,
                            supported: PurePath -> bool, title: string -> string)
    requires FullSyncSpec(existing, base, Directory(Some(tops)), supported, title).Ok?
    ensures KeepsTitles(existing, FullSyncSpec(existing, base, Directory(Some(tops)), supported, title).value.photos)
  {
    ScanSeqKeepsTitles(StartState(existing), existing, base, Visited(tops), supported, title);
  }

  /**
   * After a successful full sync, a readable file at a path the table did
   * not have has the row built from it: its file name, its directory as
   * category, the generated title and its metadata.
   */
  lemma FullSyncAddsNewPath(existing: Photos, base: PurePath, tops: seq<TopEntry>,
                            supported: PurePath -> bool, title: string -> string, i: int)
    requires FullSyncSpec(existing, base, Directory(Some(tops)), supported, title).Ok?
    requires ScannedAt(base, Visited(tops), i, supported)
    requires ExtractImageMetadata(Visited(tops)[i].entry.probe).Ok?
    requires Visited(tops)[i].entry.probe.resolved !in existing
    ensures var photos := FullSyncSpec(existing, base, Directory(Some(tops)), supported, title).value.photos;
      var l := Visited(tops)[i];
      && l.entry.probe.resolved in photos
      && photos[l.entry.probe.resolved]
         == NewPhoto(l.entry.name, l.category, ExtractImageMetadata(l.entry.probe).value, title)
  {
    ScanSeqCounts(StartState(existing), existing, base, Visited(tops), supported, title);
    NewPathRow(StartState(existing), existing, base, Visited(tops), supported, title, i);
    FoundKeysMeaning(base, Visited(tops), supported, Visited(tops)[i].entry.probe.resolved);
  }

  /**
   * Two readable files that resolve to the same path the table does not
   * have (a symbolic link next to its target) make the full sync fail on
   * the unique `file_path`, and nothing is committed.
   */
  lemma FullSyncDuplicateNewPathFails(existing: Photos, base: PurePath, tops: seq<TopEntry>,
                                      supported: PurePath -> bool, title: string -> string, i: int, j: int)
    requires AllListable(tops)
    requires i < j
    requires ScannedAt(base, Visited(tops), i, supported) && ExtractImageMetadata(Visited(tops)[i].entry.probe).Ok?
    requires ScannedAt(base, Visited(tops), j, supported) && ExtractImageMetadata(Visited(tops)[j].entry.probe).Ok?
    requires Visited(tops)[i].entry.probe.resolved == Visited(tops)[j].entry.probe.resolved
    requires Visited(tops)[i].entry.probe.resolved !in existing
    ensures FullSyncSpec(existing, base, Directory(Some(tops)), supported, title) == Err(IntegrityConflict)
  {
    DuplicateNewPathClashes(StartState(existing), existing, base, Visited(tops), supported, title, i, j);
  }

  /**
   * After a successful full sync with a filesystem that answers the same
   * for the same resolved path, every found readable file has a row with
   * its mtime and every row is for a found path.
   */
  lemma FirstSyncSettles(existing: Photos, base: PurePath, tops: seq<TopEntry>,
                         supported: PurePath -> bool, title: string -> string, probes: map<string, FileProbe>)
    requires ProbesFrom(probes, base, Visited(tops), supported)
    requires FullSyncSpec(existing, base, Directory(Some(tops)), supported, title).Ok?
    ensures AllListable(tops)
    ensures var once := FullSyncSpec(existing, base, Directory(Some(tops)), supported, title).value.photos;
      var found := FoundKeys(base, Visited(tops), supported);
      Settled(once, probes, found) && once.Keys <= found
  {
    var ls := Visited(tops);
    var st := ScanSeq(StartState(existing), existing, base, ls, supported, title);
    SpecOfScan(existing, base, tops, supported, title, ls, st);
    ScanSeqCounts(StartState(existing), existing, base, ls, supported, title);
    FirstScanSettles(StartState(existing), existing, base, ls, supported, title, probes);
  }

  /** A listable tree: the outcome of the full sync in terms of its one pass. */
  lemma SpecOfScan(existing: Photos, base: PurePath, tops: seq<TopEntry>, supported: PurePath -> bool,
                   title: string -> string, ls: seq<Located>, st: ScanState)
    requires ls == Visited(tops) && st == ScanSeq(StartState(existing), existing, base, ls, supported, title)
    ensures var r := FullSyncSpec(existing, base, Directory(Some(tops)), supported, title);
      var orphans := existing.Keys - st.found;
      && (r.Ok? ==> AllListable(tops))
      && (AllListable(tops) && st.conflict ==> r == Err(IntegrityConflict))
      && (AllListable(tops) && !st.conflict ==>
            r == Ok(SyncOutcome(st.stats.(filesRemoved := |orphans|), Without(st.photos, orphans))))
  {
  }

  /** A full sync over a table settled for every found path, and with no other rows, changes nothing. */
  lemma SettledSyncIsQuiet(once: Photos, base: PurePath, tops: seq<TopEntry>,
                           supported: PurePath -> bool, title: string -> string, probes: map<string, FileProbe>)
    requires AllListable(tops)
    requires ProbesFrom(probes, base, Visited(tops), supported)
    requires Settled(once, probes, FoundKeys(base, Visited(tops), supported))
    requires once.Keys <= FoundKeys(base, Visited(tops), supported)
    ensures var twice := FullSyncSpec(once, base, Directory(Some(tops)), supported, title);
      && twice.Ok? && twice.value.photos == once
      && twice.value.stats.filesAdded == 0 && twice.value.stats.filesUpdated == 0
      && twice.value.stats.filesRemoved == 0
  {
    var ls := Visited(tops);
    var found := FoundKeys(base, ls, supported);
    RescanIsQuiet(StartState(once), once, base, ls, supported, title, probes);
    ScanSeqCounts(StartState(once), once, base, ls, supported, title);
    var st := ScanSeq(StartState(once), once, base, ls, supported, title);
    SpecOfScan(once, base, tops, supported, title, ls, st);
    assert st.photos == once && !st.conflict && st.found == found;
    assert once.Keys - st.found == {};
    assert Without(once, {}) == once;
  }

  /**
   * A second full sync over the same tree, with a filesystem that answers
   * the same for the same resolved path, adds, updates and removes nothing
   * and leaves the table as the first one left it.
   */
  lemma FullSyncIdempotent(existing: Photos, base: PurePath, tops: seq<TopEntry>,
                           supported: PurePath -> bool, title: string -> string, probes: map<string, FileProbe>)
    requires ProbesFrom(probes, base, Visited(tops), supported)
    requires FullSyncSpec(existing, base, Directory(Some(tops)), supported, title).Ok?
    ensures var once := FullSyncSpec(existing, base, Directory(Some(tops)), supported, title).value.photos;
      var twice := FullSyncSpec(once, base, Directory(Some(tops)), supported, title);
      && twice.Ok? && twice.value.photos == once
      && twice.value.stats.filesAdded == 0 && twice.value.stats.filesUpdated == 0
      && twice.value.stats.filesRemoved == 0
  {
    FirstSyncSettles(existing, base, tops, supported, title, probes);
    var once := FullSyncSpec(existing, base, Directory(Some(tops)), supported, title).value.photos;
    SettledSyncIsQuiet(once, base, tops, supported, title, probes);
  }
}
