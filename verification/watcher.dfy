/**
 * The watchdog event handler: it turns the created, modified and deleted
 * callbacks for supported image files into `FileEvent`s on the queue it
 * shares with the worker. The event queue is the object both hold.
 */
module Watcher {
  import opened Wrappers
  import opened PyPath
  import opened SyncTypes
  import opened SyncUtils
  import SyncEngine

  /** The thread-safe FIFO queue of file events. */
  class FileEventQueue {
    var items: seq<FileEvent>

    constructor ()
      ensures items == []
    {
      items := [];
    }

    /** `put`: the event goes to the back. */
    method Put(e: FileEvent)
      modifies this
      ensures items == old(items) + [e]
    {
      items := items + [e];
    }

    /** `get` that finds nothing (`Empty`) or takes the front event. */
    method Get() returns (r: Option<FileEvent>)
      modifies this
      ensures old(items) == [] ==> r.None? && items == []
      ensures old(items) != [] ==> r == Some(old(items)[0]) && items == old(items)[1..]
    {
      if items == [] {
        r := None;
      } else {
        r := Some(items[0]);
        items := items[1..];
      }
    }
  }

  /**
   * The handler's `_extract_category_from_path`: the first component below
   * the base, "uncategorized" for the base itself, and for a path outside
   * the base the name of its parent directory, or "uncategorized" when that
   * is empty.
   */
  function WatcherCategory(base: PurePath, path: PurePath): (r: string)
    ensures RelativeTo(path, base).None? && ParentName(path) != "" ==> r == ParentName(path)
    ensures RelativeTo(path, base).Some? && RelativeTo(path, base).value != [] ==> r == RelativeTo(path, base).value[0]
    ensures r == "uncategorized" || r in path.parts
  {
    match RelativeTo(path, base)
    case Some(rel) =>
      if rel != [] then
        assert rel[0] == path.parts[|base.parts|];
        rel[0]
      else "uncategorized"
    case None => if ParentName(path) != "" then ParentName(path) else "uncategorized"
  }

  /** A file in a category directory below the base gets that directory's name. */
  lemma WatcherCategoryOfStoredFile(base: PurePath, category: string, name: string)
    ensures WatcherCategory(base, Child(Child(base, category), name)) == category
  {
    RelativeToChild(base, [category, name]);
    assert Child(Child(base, category), name) == PurePath(base.anchor, base.parts + [category, name]);
  }

  /** A path outside the base gets its parent directory's name, or "uncategorized" directly under an anchor. */
  lemma WatcherCategoryOutsideBase(base: PurePath, path: PurePath)
    requires path.anchor != base.anchor || !(base.parts <= path.parts)
    ensures |path.parts| >= 2 && path.parts[|path.parts| - 2] != "" ==>
      WatcherCategory(base, path) == path.parts[|path.parts| - 2]
    ensures |path.parts| < 2 ==> WatcherCategory(base, path) == "uncategorized"
  {
  }

  /**
   * The watcher and the engine agree on the category of any path below the
   * base; outside it the engine says "uncategorized" where the watcher uses
   * the parent directory.
   */
  lemma CategoriesAgreeBelowBase(base: PurePath, path: PurePath)
    ensures RelativeTo(path, base).Some? ==> WatcherCategory(base, path) == SyncEngine.CategoryUnder(base, path)
    ensures RelativeTo(path, base).None? ==> SyncEngine.CategoryUnder(base, path) == "uncategorized"
  {
  }

  /** The three callbacks the handler overrides. */
  datatype Callback = OnCreated | OnModified | OnDeleted

  function EventTypeOf(c: Callback): (t: FileEventType)
    ensures !t.Moved?
  {
    match c
    case OnCreated => Created
    case OnModified => Modified
    case OnDeleted => Deleted
  }

  /**
   * One filesystem notification as the handler sees it: which callback,
   * `src_path`, `is_directory`, the clock reading `datetime.now` gives and
   * whether building or queueing the event raises.
   */
  datatype Notification = Notification(callback: Callback, srcPath: string, isDirectory: bool, now: int, fails: bool)

  /** What one notification puts on the queue: one event for a supported file, nothing otherwise. */
  function Queued(base: PurePath, exts: set<string>, n: Notification): (r: seq<FileEvent>)
    ensures |r| <= 1
  {
    if n.isDirectory || !IsSupportedImageFile(Parse(n.srcPath), exts) || n.fails then []
    else
      var path := Parse(n.srcPath);
      [FileEvent(EventTypeOf(n.callback), path, WatcherCategory(base, path), n.now)]
  }

  /** The concatenation of `f(x)` over `xs`, from the last element. */
  function FlatMap<T, U>(f: T -> seq<U>, xs: seq<T>): seq<U>
  {
    if xs == [] then [] else FlatMap(f, xs[..|xs| - 1]) + f(xs[|xs| - 1])
  }

  lemma FlatMapSnoc<T, U>(f: T -> seq<U>, xs: seq<T>, x: T)
    ensures FlatMap(f, xs + [x]) == FlatMap(f, xs) + f(x)
  {
    assert (xs + [x])[..|xs + [x]| - 1] == xs;
  }

  lemma {:induction false} FlatMapAppend<T, U>(f: T -> seq<U>, a: seq<T>, b: seq<T>)
    ensures FlatMap(f, a + b) == FlatMap(f, a) + FlatMap(f, b)
    decreases |b|
  {
    if b == [] {
      assert a + b == a;
    } else {
      var init := b[..|b| - 1];
      var x := b[|b| - 1];
      assert b == init + [x];
      assert a + b == (a + init) + [x];
      FlatMapSnoc(f, a + init, x);
      FlatMapSnoc(f, init, x);
      FlatMapAppend(f, a, init);
    }
  }

  /** The handler as a function from a notification to what it queues. */
  function QueueOf(base: PurePath, exts: set<string>): Notification -> seq<FileEvent>
  {
    n => Queued(base, exts, n)
  }

  /** What a run of notifications puts on the queue, in order. */
  function QueuedAll(base: PurePath, exts: set<string>, ns: seq<Notification>): (r: seq<FileEvent>)
  {
    FlatMap(QueueOf(base, exts), ns)
  }

  /**
   * One notification queues exactly one event, with the callback's type and
   * the notified path, precisely when it is about a supported file, not a
   * directory, and nothing raises.
   */
  lemma QueuedRule(base: PurePath, exts: set<string>, n: Notification)
    ensures |Queued(base, exts, n)| == 1 <==>
      !n.isDirectory && IsSupportedImageFile(Parse(n.srcPath), exts) && !n.fails
    ensures |Queued(base, exts, n)| == 1 ==>
      var e := Queued(base, exts, n)[0];
      e.eventType == EventTypeOf(n.callback) && e.filePath == Parse(n.srcPath)
      && e.category == WatcherCategory(base, Parse(n.srcPath)) && e.timestamp == n.now
  {
  }

  /** One more notification adds its own events at the back. */
  lemma QueuedAllSnoc(base: PurePath, exts: set<string>, ns: seq<Notification>, n: Notification)
    ensures QueuedAll(base, exts, ns + [n]) == QueuedAll(base, exts, ns) + Queued(base, exts, n)
  {
    FlatMapSnoc(QueueOf(base, exts), ns, n);
  }

  /** Notifications queue their events in the order they come. */
  lemma QueuedAllAppend(base: PurePath, exts: set<string>, a: seq<Notification>, b: seq<Notification>)
    ensures QueuedAll(base, exts, a + b) == QueuedAll(base, exts, a) + QueuedAll(base, exts, b)
  {
    FlatMapAppend(QueueOf(base, exts), a, b);
  }

  /** What the handler can queue: an event for a supported file that is never a move. */
  predicate Watchable(e: FileEvent, exts: set<string>)
  {
    !e.eventType.Moved? && IsSupportedImageFile(e.filePath, exts)
  }

  /**
   * Every queued event is for a supported file and is never a move, and
   * there are never more events than notifications.
   */
  lemma QueuedAllShape(base: PurePath, exts: set<string>, ns: seq<Notification>)
    ensures |QueuedAll(base, exts, ns)| <= |ns|
    ensures forall e :: e in QueuedAll(base, exts, ns) ==> Watchable(e, exts)
  {
    var f := QueueOf(base, exts);
    forall n
      ensures |f(n)| <= 1 && forall e :: e in f(n) ==> Watchable(e, exts)
    {
      QueuedShape(base, exts, n);
    }
    FlatMapShape(f, ns, e => Watchable(e, exts));
  }

  /** A map to at most one element each, all satisfying `p`, gives no more elements than it had, all satisfying `p`. */
  lemma {:induction false} FlatMapShape<T, U>(f: T -> seq<U>, xs: seq<T>, p: U -> bool)
    requires forall x :: |f(x)| <= 1 && forall u :: u in f(x) ==> p(u)
    ensures |FlatMap(f, xs)| <= |xs|
    ensures forall u :: u in FlatMap(f, xs) ==> p(u)
  {
    if xs != [] {
      var init := xs[..|xs| - 1];
      FlatMapShape(f, init, p);
      var a, b := FlatMap(f, init), f(xs[|xs| - 1]);
      assert FlatMap(f, xs) == a + b;
      forall u | u in a + b ensures p(u) {
        if u !in a { assert u in b; }
      }
    }
  }

  lemma QueuedShape(base: PurePath, exts: set<string>, n: Notification)
    ensures forall e :: e in Queued(base, exts, n) ==> Watchable(e, exts)
  {
  }

  /** Directory notifications queue nothing. */
  lemma {:induction false} DirectoriesIgnored(base: PurePath, exts: set<string>, ns: seq<Notification>)
    requires forall i :: 0 <= i < |ns| ==> ns[i].isDirectory
    ensures QueuedAll(base, exts, ns) == []
  {
    if ns != [] {
      var init := ns[..|ns| - 1];
      DirectoriesIgnored(base, exts, init);
      assert ns == init + [ns[|ns| - 1]];
      QueuedAllSnoc(base, exts, init, ns[|ns| - 1]);
    }
  }

  /** `PhotoDirectoryEventHandler` */
  class PhotoDirectoryEventHandler {
    const eventQueue: FileEventQueue
    const photosBasePath: PurePath
    const supportedExtensions: set<string>

    constructor (eventQueue: FileEventQueue, photosBasePath: PurePath, supportedExtensions: set<string>)
      ensures this.eventQueue == eventQueue && this.photosBasePath == photosBasePath
      ensures this.supportedExtensions == supportedExtensions
    {
      this.eventQueue := eventQueue;
      this.photosBasePath := photosBasePath;
      this.supportedExtensions := supportedExtensions;
    }

    /** `_is_supported_file`, on the path string. */
    predicate IsSupportedFile(filePath: string)
    {
      IsSupportedImageFile(Parse(filePath), supportedExtensions)
    }

    /** `_extract_category_from_path`, below the handler's base path. */
    function ExtractCategoryFromPath(path: PurePath): string
    {
      WatcherCategory(photosBasePath, path)
    }

    /** `_queue_event`: builds the event and puts it; an exception is logged and nothing is queued. */
    method QueueEvent(eventType: FileEventType, filePath: string, now: int, fails: bool)
      modifies eventQueue
      ensures fails ==> eventQueue.items == old(eventQueue.items)
      ensures !fails ==>
        eventQueue.items == old(eventQueue.items) + [FileEvent(eventType, Parse(filePath), WatcherCategory(photosBasePath, Parse(filePath)), now)]
    {
      if fails {
        return;
      }
      var path := Parse(filePath);
      var category := ExtractCategoryFromPath(path);
      eventQueue.Put(FileEvent(eventType, path, category, now));
    }

    /** The shared body of the three callbacks. */
    method Notify(n: Notification)
      modifies eventQueue
      ensures eventQueue.items == old(eventQueue.items) + Queued(photosBasePath, supportedExtensions, n)
    {
      if !n.isDirectory && IsSupportedFile(n.srcPath) {
        QueueEvent(EventTypeOf(n.callback), n.srcPath, n.now, n.fails);
      }
    }

    /** `on_created` */
    method OnCreatedEvent(srcPath: string, isDirectory: bool, now: int, fails: bool)
      modifies eventQueue
      ensures eventQueue.items == old(eventQueue.items) +
        Queued(photosBasePath, supportedExtensions, Notification(OnCreated, srcPath, isDirectory, now, fails))
    {
      Notify(Notification(OnCreated, srcPath, isDirectory, now, fails));
    }

    /** `on_modified` */
    method OnModifiedEvent(srcPath: string, isDirectory: bool, now: int, fails: bool)
      modifies eventQueue
      ensures eventQueue.items == old(eventQueue.items) +
        Queued(photosBasePath, supportedExtensions, Notification(OnModified, srcPath, isDirectory, now, fails))
    {
      Notify(Notification(OnModified, srcPath, isDirectory, now, fails));
    }

    /** `on_deleted` */
    method OnDeletedEvent(srcPath: string, isDirectory: bool, now: int, fails: bool)
      modifies eventQueue
      ensures eventQueue.items == old(eventQueue.items) +
        Queued(photosBasePath, supportedExtensions, Notification(OnDeleted, srcPath, isDirectory, now, fails))
    {
      Notify(Notification(OnDeleted, srcPath, isDirectory, now, fails));
    }
  }
}
