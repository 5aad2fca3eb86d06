/**
 * The sync worker's engine: it applies file events to the catalog, one
 * event per transaction or a batch per transaction, runs the full sync,
 * and derives a category from a path.
 *
 * A handler that raises does so before it has changed the session, so an
 * error carries no new view. The filesystem is the `Disk` snapshot: a
 * path absent from it does not exist.
 */
module SyncEngine {
  import opened Wrappers
  import opened PyPath
  import opened SyncTypes
  import opened SyncUtils
  import opened Catalog
  import Reconcile

  /** The default `supported_extensions` of the worker's configuration. */
  const DefaultSupportedExtensions: set<string> := {
    ".jpg", ".jpeg", ".png", ".gif", ".webp", ".bmp", ".tiff", ".tif", ".raw",
    ".cr2", ".nef", ".arw", ".dng", ".orf", ".rw2", ".pef", ".srw"
  }

  /** What a session holds: its view of the table and whether a clash on `file_path` is pending. */
  datatype View = View(photos: Photos, conflict: bool)

  /** `session.add(row)` on a view. */
  function AddRow(v: View, key: string, row: Photo): (r: View)
    ensures r.conflict <==> v.conflict || key in v.photos
    ensures key in v.photos ==> r.photos == v.photos
    ensures key !in v.photos ==> r.photos == v.photos[key := row]
  {
    if key in v.photos then v.(conflict := true) else v.(photos := v.photos[key := row])
  }

  /** The row `_handle_file_created` builds. */
  function CreatedRow(path: PurePath, category: string, m: ImageMetadata, title: string -> string): (r: Photo)
    ensures r.filename == Name(path) && r.category == category
    ensures r.title == Some(title(Name(path)))
    ensures r.fileModifiedAt == m.fileModifiedAt
  {
    Reconcile.NewPhoto(Name(path), category, m, title)
  }

  /**
   * `_handle_file_created`: nothing happens when the file is gone or a row
   * already sits at `str(path)`; otherwise a metadata failure raises, and
   * a readable file adds exactly one row, under the resolved path, unless
   * that key is taken.
   */
  function FileCreated(v: View, disk: Disk, event: FileEvent, title: string -> string): (r: Result<View, SyncError>)
    ensures event.filePath !in disk || Str(event.filePath) in v.photos ==> r == Ok(v)
    ensures r.Err? ==> r.error == MetadataFailed
    ensures event.filePath in disk && Str(event.filePath) !in v.photos ==>
              (r.Err? <==> ExtractImageMetadata(disk[event.filePath]).Err?)
    ensures event.filePath in disk && Str(event.filePath) !in v.photos && ExtractImageMetadata(disk[event.filePath]).Ok? ==>
              r == Ok(AddRow(v, disk[event.filePath].resolved, CreatedRow(event.filePath, event.category,
                                                                        ExtractImageMetadata(disk[event.filePath]).value, title)))
    ensures r.Ok? && r.value != v ==>
              var key := disk[event.filePath].resolved;
              && ExtractImageMetadata(disk[event.filePath]).Ok?
              && r.value == AddRow(v, key, CreatedRow(event.filePath, event.category,
                                                      ExtractImageMetadata(disk[event.filePath]).value, title))
  {
    var path := event.filePath;
    if path !in disk || Str(path) in v.photos then Ok(v)
    else
      match ExtractImageMetadata(disk[path])
      case Err(e) => Err(e)
      case Ok(m) => Ok(AddRow(v, disk[path].resolved, CreatedRow(path, event.category, m, title)))
  }

  /**
   * `_handle_file_modified`: nothing for a vanished file, the created
   * handler when there is no row, nothing when the mtime is unchanged, and
   * otherwise the row is refreshed in place.
   */
  function FileModified(v: View, disk: Disk, event: FileEvent, title: string -> string): (r: Result<View, SyncError>)
    ensures event.filePath !in disk ==> r == Ok(v)
    ensures event.filePath in disk && Str(event.filePath) !in v.photos ==> r == FileCreated(v, disk, event, title)
    ensures event.filePath in disk && Str(event.filePath) in v.photos && ExtractImageMetadata(disk[event.filePath]).Err? ==>
              r == Err(MetadataFailed)
  {
    var path := event.filePath;
    if path !in disk then Ok(v)
    else if Str(path) !in v.photos then FileCreated(v, disk, event, title)
    else
      match ExtractImageMetadata(disk[path])
      case Err(e) => Err(e)
      case Ok(m) =>
        var cur := v.photos[Str(path)];
        if cur.fileModifiedAt == m.fileModifiedAt then Ok(v)
        else Ok(v.(photos := v.photos[Str(path) := Reconcile.Refresh(cur, Name(path), event.category, m, title)]))
  }

  /** `_handle_file_deleted`: the row at `str(path)` goes, if there is one. */
  function FileDeleted(v: View, event: FileEvent): (r: View)
    ensures r.photos.Keys == v.photos.Keys - {Str(event.filePath)}
    ensures forall k :: k in r.photos ==> r.photos[k] == v.photos[k]
    ensures r.conflict == v.conflict
  {
    v.(photos := Without(v.photos, {Str(event.filePath)}))
  }

  /** The `if`/`elif` chain over the event type; a move is a delete of the source path. */
  function Dispatch(v: View, disk: Disk, event: FileEvent, title: string -> string): (r: Result<View, SyncError>)
    ensures event.eventType.Moved? ==> r == Ok(FileDeleted(v, event))
    ensures r.Ok? && v.conflict ==> r.value.conflict
  {
    match event.eventType
    case Created => FileCreated(v, disk, event, title)
    case Modified => FileModified(v, disk, event, title)
    case Deleted => Ok(FileDeleted(v, event))
    case Moved => Ok(FileDeleted(v, event))
  }

  /** One event inside a batch: a handler that raises is logged and skipped. */
  function Apply(v: View, disk: Disk, event: FileEvent, title: string -> string): (r: View)
    ensures v.conflict ==> r.conflict
  {
    match Dispatch(v, disk, event, title)
    case Ok(w) => w
    case Err(_) => v
  }

  /** The batch loop, written from its last event. */
  function ApplyAll(v: View, disk: Disk, events: seq<FileEvent>, title: string -> string): (r: View)
    ensures v.conflict ==> r.conflict
  {
    if events == [] then v
    else Apply(ApplyAll(v, disk, events[..|events| - 1], title), disk, events[|events| - 1], title)
  }

  /** The events whose path has a supported extension, in order. */
  function SupportedEvents(events: seq<FileEvent>, supported: PurePath -> bool): (r: seq<FileEvent>)
    ensures forall e :: e in r ==> e in events && supported(e.filePath)
    ensures forall e :: e in events && supported(e.filePath) ==> e in r
    ensures |r| <= |events|
  {
    if events == [] then []
    else
      var last := events[|events| - 1];
      SupportedEvents(events[..|events| - 1], supported) + (if supported(last.filePath) then [last] else [])
  }

  /** The filter keeps order: filtering a concatenation filters each part. */
  lemma {:induction false} SupportedEventsAppend(a: seq<FileEvent>, b: seq<FileEvent>, supported: PurePath -> bool)
    ensures SupportedEvents(a + b, supported) == SupportedEvents(a, supported) + SupportedEvents(b, supported)
    decreases |b|
  {
    if b != [] {
      var init := b[..|b| - 1];
      assert (a + b)[..|a + b| - 1] == a + init;
      assert (a + b)[|a + b| - 1] == b[|b| - 1];
      SupportedEventsAppend(a, init, supported);
    } else {
      assert a + b == a;
    }
  }

  /** A batch of supported events passes the filter whole, in order and with repeats. */
  lemma {:induction false} SupportedEventsAllKept(events: seq<FileEvent>, supported: PurePath -> bool)
    requires forall i :: 0 <= i < |events| ==> supported(events[i].filePath)
    ensures SupportedEvents(events, supported) == events
  {
    if events != [] {
      var init, last := events[..|events| - 1], events[|events| - 1];
      forall i | 0 <= i < |init| ensures supported(init[i].filePath) {
        assert init[i] == events[i];
      }
      SupportedEventsAllKept(init, supported);
      assert supported(last.filePath);
      assert SupportedEvents(events, supported) == init + [last];
      assert events == init + [last];
    }
  }

  /** A batch with no supported event filters to nothing. */
  lemma {:induction false} SupportedEventsNoneKept(events: seq<FileEvent>, supported: PurePath -> bool)
    requires forall i :: 0 <= i < |events| ==> !supported(events[i].filePath)
    ensures SupportedEvents(events, supported) == []
  {
    if events != [] {
      var init, last := events[..|events| - 1], events[|events| - 1];
      forall i | 0 <= i < |init| ensures !supported(init[i].filePath) {
        assert init[i] == events[i];
      }
      SupportedEventsNoneKept(init, supported);
      assert !supported(last.filePath);
    }
  }

  /**
   * `process_file_event`, as the table after it: unchanged for an
   * unsupported path, for a handler that raised (rolled back and re-raised)
   * and for a clash at commit; otherwise the handler's view.
   */
  function EventOutcome(photos: Photos, disk: Disk, event: FileEvent, supported: PurePath -> bool, title: string -> string): (r: Result<Photos, SyncError>)
    ensures !supported(event.filePath) ==> r == Ok(photos)
  {
    if !supported(event.filePath) then Ok(photos)
    else
      match Dispatch(View(photos, false), disk, event, title)
      case Err(e) => Err(e)
      case Ok(w) => if w.conflict then Err(IntegrityConflict) else Ok(w.photos)
  }

  /**
   * `process_event_batch`, as the table after it: every supported event in
   * one session, failing events skipped, one commit at the end.
   */
  function BatchOutcome(photos: Photos, disk: Disk, events: seq<FileEvent>, supported: PurePath -> bool, title: string -> string): (r: Result<Photos, SyncError>)
    ensures SupportedEvents(events, supported) == [] ==> r == Ok(photos)
    ensures r.Err? ==> r.error == IntegrityConflict
  {
    var es := SupportedEvents(events, supported);
    if es == [] then Ok(photos)
    else
      var w := ApplyAll(View(photos, false), disk, es, title);
      if w.conflict then Err(IntegrityConflict) else Ok(w.photos)
  }

  /** The events processed one transaction each, in order; a failed one leaves the table as it was. */
  function Sequential(photos: Photos, disk: Disk, events: seq<FileEvent>, supported: PurePath -> bool, title: string -> string): Photos
  {
    if events == [] then photos
    else
      var p := Sequential(photos, disk, events[..|events| - 1], supported, title);
      match EventOutcome(p, disk, events[|events| - 1], supported, title)
      case Ok(q) => q
      case Err(_) => p
  }

  /** The lookup the created and modified handlers make. */
  lemma CreatedIsNoOpForKnownPath(v: View, disk: Disk, event: FileEvent, title: string -> string)
    requires Str(event.filePath) in v.photos
    ensures FileCreated(v, disk, event, title) == Ok(v)
    ensures event.eventType.Created? ==> Dispatch(v, disk, event, title) == Ok(v)
  {
  }

  /**
   * A modification that leaves the mtime as the row has it changes
   * nothing; one that changes it refreshes that row (name, category, size,
   * dimensions and mtime from the file) and keeps every other row, the set
   * of keys, and a non-empty title.
   */
  lemma ModifiedRule(v: View, disk: Disk, event: FileEvent, title: string -> string)
    requires event.filePath in disk && Str(event.filePath) in v.photos
    requires ExtractImageMetadata(disk[event.filePath]).Ok?
    ensures var m := ExtractImageMetadata(disk[event.filePath]).value;
      var key := Str(event.filePath);
      var r := FileModified(v, disk, event, title);
      && r.Ok?
      && (m.fileModifiedAt == v.photos[key].fileModifiedAt ==> r.value == v)
      && r.value.photos.Keys == v.photos.Keys && r.value.conflict == v.conflict
      && (forall k :: k in v.photos && k != key ==> r.value.photos[k] == v.photos[k])
      && r.value.photos[key].fileModifiedAt == m.fileModifiedAt
      && (m.fileModifiedAt != v.photos[key].fileModifiedAt ==>
            r.value.photos == v.photos[key := Reconcile.Refresh(v.photos[key], Name(event.filePath), event.category, m, title)])
      && (v.photos[key].title.Some? && v.photos[key].title != Some("") ==> r.value.photos[key].title == v.photos[key].title)
  {
  }

  /**
   * One commit covers the whole batch: when the batch commits, the table
   * is the one that processing its events one transaction at a time would
   * have left.
   */
  lemma {:induction false} BatchMatchesSequential(photos: Photos, disk: Disk, events: seq<FileEvent>, supported: PurePath -> bool, title: string -> string)
    requires !ApplyAll(View(photos, false), disk, SupportedEvents(events, supported), title).conflict
    ensures ApplyAll(View(photos, false), disk, SupportedEvents(events, supported), title).photos == Sequential(photos, disk, events, supported, title)
  {
    if events != [] {
      var init := events[..|events| - 1];
      var e := events[|events| - 1];
      var before := ApplyAll(View(photos, false), disk, SupportedEvents(init, supported), title);
      if supported(e.filePath) {
        var es := SupportedEvents(init, supported) + [e];
        assert es[..|es| - 1] == SupportedEvents(init, supported);
        assert ApplyAll(View(photos, false), disk, es, title) == Apply(before, disk, e, title);
        assert !before.conflict;
        BatchMatchesSequential(photos, disk, init, supported, title);
        assert before == View(Sequential(photos, disk, init, supported, title), false);
        StepAgrees(Sequential(photos, disk, init, supported, title), disk, e, supported, title);
      } else {
        assert SupportedEvents(events, supported) == SupportedEvents(init, supported) + [];
        assert SupportedEvents(events, supported) == SupportedEvents(init, supported);
        BatchMatchesSequential(photos, disk, init, supported, title);
      }
    }
  }

  /** One supported event: in a batch without a clash it leaves what its own transaction would commit. */
  lemma StepAgrees(p: Photos, disk: Disk, e: FileEvent, supported: PurePath -> bool, title: string -> string)
    requires supported(e.filePath)
    ensures var a := Apply(View(p, false), disk, e, title);
      var o := EventOutcome(p, disk, e, supported, title);
      !a.conflict ==> (if o.Ok? then o.value == a.photos else a.photos == p)
  {
  }

  /** The batch outcome in terms of single events: it commits what they would have, or nothing. */
  lemma BatchOutcomeSequential(photos: Photos, disk: Disk, events: seq<FileEvent>, supported: PurePath -> bool, title: string -> string)
    ensures var r := BatchOutcome(photos, disk, events, supported, title);
      r.Ok? ==> r.value == Sequential(photos, disk, events, supported, title)
  {
    if BatchOutcome(photos, disk, events, supported, title).Ok? {
      BatchMatchesSequential(photos, disk, events, supported, title);
    }
  }

  /**
   * The worker's `_extract_category_from_path`: the first component
   * below the base path, or "uncategorized".
   */
  function CategoryUnder(base: PurePath, path: PurePath): (r: string)
    ensures r != "uncategorized" ==> RelativeTo(path, base).Some? && RelativeTo(path, base).value != []
    ensures RelativeTo(path, base).Some? && RelativeTo(path, base).value != [] ==> r == RelativeTo(path, base).value[0]
  {
    match RelativeTo(path, base)
    case Some(rel) => if rel != [] then rel[0] else "uncategorized"
    case None => "uncategorized"
  }

  /** A file in a category directory gets that directory as its category, as the full sync gives it. */
  lemma CategoryOfStoredFile(base: PurePath, category: string, name: string)
    ensures CategoryUnder(base, Child(Child(base, category), name)) == category
  {
    RelativeToChild(base, [category, name]);
    assert Child(Child(base, category), name) == PurePath(base.anchor, base.parts + [category, name]);
  }

  /** A file directly in the base directory gets its own name as category. */
  lemma CategoryOfTopLevelFile(base: PurePath, name: string)
    ensures CategoryUnder(base, Child(base, name)) == name
  {
    RelativeToChild(base, [name]);
  }

  /** A path outside the base directory, or the base itself, is "uncategorized". */
  lemma CategoryOutsideBase(base: PurePath, path: PurePath)
    requires path.anchor != base.anchor || !(base.parts <= path.parts) || path.parts == base.parts
    ensures CategoryUnder(base, path) == "uncategorized"
  {
    if path.anchor == base.anchor && base.parts <= path.parts {
      assert path.parts[|base.parts|..] == [];
    }
  }

  /** The `supported` test of the full sync, for an extension set. */
  function SupportedBy(exts: set<string>): PurePath -> bool
  {
    p => IsSupportedImageFile(p, exts)
  }

  class SyncEngine {
    const db: Database
    const photosBasePath: PurePath
    const supportedExtensions: set<string>

    constructor (db: Database, photosBasePath: PurePath, supportedExtensions: set<string>)
      ensures this.db == db && this.photosBasePath == photosBasePath
      ensures this.supportedExtensions == supportedExtensions
    {
      this.db := db;
      this.photosBasePath := photosBasePath;
      this.supportedExtensions := supportedExtensions;
    }

    /** `_is_supported_file`. */
    predicate IsSupportedFile(path: PurePath)
    {
      IsSupportedImageFile(path, supportedExtensions)
    }

    /** `_extract_category_from_path`, below the engine's base path. */
    function ExtractCategoryFromPath(path: PurePath): string
    {
      CategoryUnder(photosBasePath, path)
    }

    method HandleFileCreated(session: Session, event: FileEvent, disk: Disk) returns (failure: Option<SyncError>)
      modifies session
      ensures var r := FileCreated(View(old(session.photos), old(session.conflict)), disk, event, GenerateTitle);
        && (failure.None? <==> r.Ok?)
        && (r.Ok? ==> View(session.photos, session.conflict) == r.value)
        && (r.Err? ==> failure == Some(r.error) && session.photos == old(session.photos) && session.conflict == old(session.conflict))
    {
      var path := event.filePath;
      if path !in disk {
        return None;
      }
      var existing := session.Lookup(Str(path));
      if existing.Some? {
        return None;
      }
      var probe := disk[path];
      var metadata := ExtractImageMetadata(probe);
      if metadata.Err? {
        return Some(metadata.error);
      }
      var m := metadata.value;
      var title := GenerateTitle(Name(path));
      session.Add(probe.resolved, Photo(Name(path), event.category, Some(title), m.fileSize, m.width, m.height, m.fileModifiedAt));
      return None;
    }

    method HandleFileModified(session: Session, event: FileEvent, disk: Disk) returns (failure: Option<SyncError>)
      modifies session
      ensures var r := FileModified(View(old(session.photos), old(session.conflict)), disk, event, GenerateTitle);
        && (failure.None? <==> r.Ok?)
        && (r.Ok? ==> View(session.photos, session.conflict) == r.value)
        && (r.Err? ==> failure == Some(r.error) && session.photos == old(session.photos) && session.conflict == old(session.conflict))
    {
      var path := event.filePath;
      if path !in disk {
        return None;
      }
      var existing := session.Lookup(Str(path));
      if existing.None? {
        failure := HandleFileCreated(session, event, disk);
        return;
      }
      var metadata := ExtractImageMetadata(disk[path]);
      if metadata.Err? {
        return Some(metadata.error);
      }
      var m := metadata.value;
      var row := existing.value;
      if row.fileModifiedAt == m.fileModifiedAt {
        return None;
      }
      row := row.(filename := Name(path), category := event.category, fileSize := m.fileSize,
                  width := m.width, height := m.height, fileModifiedAt := m.fileModifiedAt);
      if row.title.None? || row.title == Some("") || row.title == Some(GenerateTitle(row.filename)) {
        row := row.(title := Some(GenerateTitle(Name(path))));
      }
      session.Put(Str(path), row);
      return None;
    }

    method HandleFileDeleted(session: Session, event: FileEvent)
      modifies session
      ensures View(session.photos, session.conflict) == FileDeleted(View(old(session.photos), old(session.conflict)), event)
    {
      var existing := session.Lookup(Str(event.filePath));
      if existing.None? {
        assert Without(session.photos, {Str(event.filePath)}) == session.photos;
        return;
      }
      session.Delete({Str(event.filePath)});
    }

    method HandleFileMoved(session: Session, event: FileEvent)
      modifies session
      ensures View(session.photos, session.conflict) == FileDeleted(View(old(session.photos), old(session.conflict)), event)
    {
      HandleFileDeleted(session, event);
    }

    /** The `if`/`elif` chain both entry points run. */
    method Handle(session: Session, event: FileEvent, disk: Disk) returns (failure: Option<SyncError>)
      modifies session
      ensures var r := Dispatch(View(old(session.photos), old(session.conflict)), disk, event, GenerateTitle);
        && (failure.None? <==> r.Ok?)
        && (r.Ok? ==> View(session.photos, session.conflict) == r.value)
        && (r.Err? ==> failure == Some(r.error) && session.photos == old(session.photos) && session.conflict == old(session.conflict))
    {
      failure := None;
      match event.eventType {
        case Created => failure := HandleFileCreated(session, event, disk);
        case Modified => failure := HandleFileModified(session, event, disk);
        case Deleted => HandleFileDeleted(session, event);
        case Moved => HandleFileMoved(session, event);
      }
    }

    /** `process_file_event`: one event, one transaction; a failure is rolled back and re-raised. */
    method ProcessFileEvent(event: FileEvent, disk: Disk) returns (failure: Option<SyncError>)
      modifies db
      ensures var r := EventOutcome(old(db.photos), disk, event, SupportedBy(supportedExtensions), GenerateTitle);
        && (failure.None? <==> r.Ok?)
        && (r.Ok? ==> db.photos == r.value)
        && (r.Err? ==> failure == Some(r.error) && db.photos == old(db.photos))
    {
      if !IsSupportedFile(event.filePath) {
        return None;
      }
      var session := new Session.Open(db);
      failure := Handle(session, event, disk);
      if failure.Some? {
        return;
      }
      var ok := session.Commit();
      if !ok {
        failure := Some(IntegrityConflict);
      }
    }

    /** One turn of the batch loop: a failing event is logged and skipped, the session stays open. */
    method HandleInBatch(session: Session, events: seq<FileEvent>, i: nat, disk: Disk, ghost start: View)
      requires i < |events|
      requires View(session.photos, session.conflict) == ApplyAll(start, disk, events[..i], GenerateTitle)
      modifies session
      ensures View(session.photos, session.conflict) == ApplyAll(start, disk, events[..i + 1], GenerateTitle)
    {
      assert events[..i + 1][..i] == events[..i];
      ghost var before := View(session.photos, session.conflict);
      var skipped := Handle(session, events[i], disk);
      assert View(session.photos, session.conflict) == Apply(before, disk, events[i], GenerateTitle);
    }

    /** `process_event_batch`: the supported events in one session, failures skipped, one commit. */
    method ProcessEventBatch(events: seq<FileEvent>, disk: Disk) returns (failure: Option<SyncError>)
      modifies db
      ensures var r := BatchOutcome(old(db.photos), disk, events, SupportedBy(supportedExtensions), GenerateTitle);
        && (failure.None? <==> r.Ok?)
        && (r.Ok? ==> db.photos == r.value)
        && (r.Err? ==> failure == Some(r.error) && db.photos == old(db.photos))
    {
      var supported := SupportedEvents(events, SupportedBy(supportedExtensions));
      if supported == [] {
        return None;
      }
      var session := new Session.Open(db);
      var start := View(session.photos, session.conflict);
      var i := 0;
      while i < |supported|
        invariant 0 <= i <= |supported|
        invariant db.photos == old(db.photos)
        invariant View(session.photos, session.conflict) == ApplyAll(start, disk, supported[..i], GenerateTitle)
      {
        HandleInBatch(session, supported, i, disk, start);
        i := i + 1;
      }
      assert supported[..i] == supported;
      var ok := session.Commit();
      failure := if ok then None else Some(IntegrityConflict);
    }

    /** `_perform_full_sync`, over the worker's extension set and title generator. */
    method PerformFullSync(storage: Reconcile.Storage) returns (r: Result<SyncStats, SyncError>)
      modifies db
      ensures var spec := Reconcile.FullSyncSpec(old(db.photos), photosBasePath, storage,
                                                 SupportedBy(supportedExtensions), GenerateTitle);
        && (r.Ok? <==> spec.Ok?)
        && (r.Ok? ==> r.value == spec.value.stats && db.photos == spec.value.photos)
        && (r.Err? ==> r.error == spec.error && db.photos == old(db.photos))
    {
      r := Reconcile.FullSync(db, photosBasePath, storage, SupportedBy(supportedExtensions), GenerateTitle);
    }

    /** `perform_initial_sync`: the full sync, run once at startup. */
    method PerformInitialSync(storage: Reconcile.Storage) returns (r: Result<SyncStats, SyncError>)
      modifies db
      ensures var spec := Reconcile.FullSyncSpec(old(db.photos), photosBasePath, storage,
                                                 SupportedBy(supportedExtensions), GenerateTitle);
        && (r.Ok? <==> spec.Ok?)
        && (r.Ok? ==> r.value == spec.value.stats && db.photos == spec.value.photos)
        && (r.Err? ==> r.error == spec.error && db.photos == old(db.photos))
    {
      r := PerformFullSync(storage);
    }

    /** `perform_periodic_sync`: the same full sync, as the fallback the worker runs on a timer. */
    method PerformPeriodicSync(storage: Reconcile.Storage) returns (r: Result<SyncStats, SyncError>)
      modifies db
      ensures var spec := Reconcile.FullSyncSpec(old(db.photos), photosBasePath, storage,
                                                 SupportedBy(supportedExtensions), GenerateTitle);
        && (r.Ok? <==> spec.Ok?)
        && (r.Ok? ==> r.value == spec.value.stats && db.photos == spec.value.photos)
        && (r.Err? ==> r.error == spec.error && db.photos == old(db.photos))
    {
      r := PerformFullSync(storage);
    }
  }
}
