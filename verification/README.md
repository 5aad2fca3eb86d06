# Photography server: filesystem-to-catalog synchronisation in Dafny

The photography server keeps a catalog of photos in a `photos` table. Each
row is keyed by the photo's resolved file path. It holds the file name, the
category (the directory the file sits in), a title, the size, the optional
dimensions and the modification time.

This project models how the sync worker keeps that table in step with the
photos directory:

- **Full sync.** Every supported image one level inside a category
  directory is scanned. New paths get a row, and a row whose file has a new
  mtime is refreshed. Per-file errors are counted. Rows whose path was not
  found are deleted, and everything is committed once.
- **Event handlers.** They apply created, modified, deleted and moved
  events, either one event per transaction or a whole batch under one
  commit.
- **Watchdog handler.** It turns filesystem notifications into queued
  events.
- **Worker.** It drains the queue into bounded batches and retries a
  failing batch.
- **Health monitor.** It keeps daily counters, a bounded buffer of
  processing times, and the rule for the health status.

The project also models the small pure parts around these. They are the
supported-extension test, the two title generators (the worker's and the
database package's variant), the category of a path, the read-only
properties of a `photos` row, the media type the API serves a photo with,
and the database package's configuration.

The model follows the code as written in three places where the result
is evidently not what was meant. The code's tests expect otherwise in the
first two; no test covers the third.

- **Titles of refreshed rows.** Both update paths assign the new file name
  before they test whether the title was generated. A non-empty title is
  therefore never replaced. `Reconcile.Refresh` and `SyncEngine.ModifiedRule`
  state this.
- **Health without dependencies.** A monitor built without a database
  manager reports the database as disconnected, and so reports
  "unhealthy" (`Health.MissingDependencyIsUnhealthy`).
- **The one-letter prefix `P`.** The database package's title generator
  matches the prefix case-insensitively, with an optional separator. It
  therefore turns "portrait.jpg" into "Ortrait" (`DbSync.PortraitExample`).
  No test exercises this generator; the tests of titles cover only the
  worker's.

## Model of the environment

The source reaches its environment in the following ways. In the model,
each becomes an explicit parameter.

- **Filesystem.** A tree snapshot (`Reconcile.Storage`). Each file is a
  `FileProbe`: its resolved path, the result of `stat()`, and the size
  Pillow decodes.
- **Table.** A map from `file_path` to row. A session is a class with its
  own view and a pending unique-key clash. Commit publishes the view;
  rollback keeps the committed table.
- **Clocks.** A tick budget for the batching window, plus the events that
  arrive before each poll. The health monitor gets the current date and
  time as integers.
- **Exceptions.** Raising calls are predicates: `succeeds(i)` for the
  `i`-th batch attempt, and a flag for a failing `_queue_event`.
- **Configuration.** The worker's extension set and photos path, and the
  environment variables and project root of the database configuration.

## Model

| member | source | states |
|---|---|---|
| SyncUtils.ExtractImageMetadata | src/pgs_sync/src/pgs_sync/utils.py:15-41 | a failing `stat()` raises; otherwise size and mtime come from `stat`, and width and height are both present exactly when the image decodes |
| SyncUtils.SupportedIffExtension | src/pgs_sync/src/pgs_sync/utils.py:87-97 | a file named stem + extension is supported exactly when the lowercased extension is in the set |
| SyncUtils.SupportCaseInsensitive | src/pgs_sync/src/pgs_sync/utils.py:97 | two extensions that agree after lowercasing are either both supported or both not |
| SyncUtils.UnsupportedWithoutSuffix | src/pgs_sync/src/pgs_sync/utils.py:97 | a name without a suffix, or an empty extension set, is never supported |
| SyncUtils.CameraPrefixRule | src/pgs_sync/src/pgs_sync/utils.py:56 | the camera prefix is removed exactly when the stem starts with one of IMG, DSC, DSCN, P, PIC, PHOTO, IMAGE followed by `-` or `_` |
| SyncUtils.CameraPrefixNeedsUpperCase | src/pgs_sync/src/pgs_sync/utils.py:55-56 | a stem that does not start with a capital keeps its start |
| SyncUtils.AnchoredSub | src/pgs_sync/src/pgs_sync/utils.py:56-69 | a substitution anchored with `^` drops only the match at the start and keeps the rest |
| SyncUtils.GenerateTitleShape | src/pgs_sync/src/pgs_sync/utils.py:44-84 | every title has no `-` or `_` and is title-cased; it is empty only for an empty stem; it is either readable (single spaces, no outer spaces) or the fallback |
| SyncUtils.GenerateTitleWords | src/pgs_sync/src/pgs_sync/utils.py:78-82 | every letter that starts a word is upper case |
| SyncUtils.TitleIgnoresExtension | src/pgs_sync/src/pgs_sync/utils.py:53 | "name.ext" gets the same title as "name": the extension never reaches the title |
| SyncUtils.PlainStemKept | src/pgs_sync/src/pgs_sync/utils.py:56-69 | a digit-free stem without a leading capital passes the prefix, date, time and counter steps unchanged |
| SyncUtils.TidyJoinedWords | src/pgs_sync/src/pgs_sync/utils.py:72-78 | words joined by single separators tidy up to the title case of the words joined by spaces |
| SyncUtils.TwoWordTitle | src/pgs_sync/src/pgs_sync/utils.py:44-84 | two lower-case words joined by `_`, with or without an extension, get the two words capitalised |
| SyncUtils.BeautifulSunsetExample | src/pgs_sync/src/pgs_sync/utils.py:44-84 | "beautiful_sunset.jpg" gets "Beautiful Sunset" |
| SyncUtils.CityLightsExample | src/pgs_sync/src/pgs_sync/utils.py:44-84 | "city_lights" gets "City Lights" |
| Regex.SeparatorRunRemovesSeparators | src/pgs_sync/src/pgs_sync/utils.py:72 | after `[-_]+` is replaced by a space no `-` or `_` is left |
| Regex.SpaceRunCollapses | src/pgs_sync/src/pgs_sync/utils.py:75 | after `\s+` is replaced by a space, whitespace occurs only as single plain spaces, and the result starts with whitespace exactly when the input does |
| Regex.TidyIsReadable | src/pgs_sync/src/pgs_sync/utils.py:72-78 | the common tail always gives a readable title no longer than its input |
| Regex.StrippedShape | src/pgs_sync/src/pgs_sync/utils.py:78 | stripping and title-casing well-spaced text without separators gives a readable title |
| Regex.FallbackTitle | src/pgs_sync/src/pgs_sync/utils.py:81-82 | the fallback has the stem's length, no separators, and is title-cased |
| Regex.DigitPatternNeedsDigit | src/pgs_sync/src/pgs_sync/utils.py:60-69 | the date, time and counter patterns match nothing in text without digits |
| Regex.IsolatedSeparatorsBecomeSpaces | src/pgs_sync/src/pgs_sync/utils.py:72 | where separators stand alone, `[-_]+` to space is the same as the fallback's two `replace` calls |
| Regex.SpacedTextKept | src/pgs_sync/src/pgs_sync/utils.py:75 | text already single-spaced passes `\s+` unchanged |
| Regex.DigitRun | src/pgs_db/src/pgs_db/sync.py:115-116 | the digits a number or counter pattern sees: the whole run of digits, ending before a non-digit or at the end |
| Regex.OptSep | src/pgs_sync/src/pgs_sync/utils.py:60-69 | an optional `[-_]` consumes one character exactly when a separator is there |
| PyPath.Parse | src/pgs_sync/src/pgs_sync/watcher.py:47 | `Path(s)` always yields a valid path: every component non-empty, not ".", without `/` |
| PyPath.NormalFormStable | src/pgs_sync/src/pgs_sync/sync_engine.py:244 | `str(path)` is normal: parsing it again gives the same path |
| PyPath.Suffix | src/pgs_sync/src/pgs_sync/utils.py:97 | the suffix is empty or a dot followed by at least one non-dot character, and it ends the name |
| PyPath.StemSuffixSplit | src/pgs_db/src/pgs_db/models.py:36-43 | stem followed by suffix is the name; a name with a suffix has a non-empty stem |
| PyPath.StemAndSuffixOf | src/pgs_sync/src/pgs_sync/utils.py:53 | a non-empty stem + "." + a dot-free word splits back into the two |
| PyPath.NoSuffixWithoutInnerDot | src/pgs_sync/src/pgs_sync/utils.py:53 | a name without a dot, or whose only dot leads it, is its own stem and has no suffix |
| PyPath.RelativeTo | src/pgs_sync/src/pgs_sync/watcher.py:77 | `relative_to` succeeds exactly when the base has the same anchor and leads the path, and the base followed by the result is the path |
| PyPath.Child | src/pgs_sync/src/pgs_sync/sync_engine.py:141-149 | a child's name is the given name and its parent's name is the directory's name |
| PyText.TitleShape | src/pgs_sync/src/pgs_sync/utils.py:78 | `str.title()` keeps the length, upper-cases a letter exactly when no letter precedes it and lower-cases the others |
| PyText.Strip | src/pgs_sync/src/pgs_sync/utils.py:78 | `strip()` gives a piece of the input whose first and last characters are not whitespace |
| PyText.ParseInt | src/pgs_db/src/pgs_db/config.py:12 | `int(s)` accepts surrounding whitespace, an optional sign and `_` between digits, and fails on anything else |
| PyText.ParseIntOfIntToString | src/pgs_db/src/pgs_db/config.py:12 | `int(str(n))` is `n` |
| Catalog.Without | src/pgs_sync/src/pgs_sync/sync_engine.py:211-218 | deleting a set of rows leaves the other keys, each with its row unchanged |
| Catalog.Session.Lookup | src/pgs_sync/src/pgs_sync/sync_engine.py:330-341 | the lookup by `file_path` finds exactly the row the session sees under that key |
| Catalog.Session.Add | src/pgs_sync/src/pgs_sync/sync_engine.py:180 | adding under a taken key leaves the view and makes a clash pending; otherwise the row is added |
| Catalog.Session.Delete | src/pgs_sync/src/pgs_sync/sync_engine.py:217 | the rows at the given keys leave the view |
| Catalog.Session.Commit | src/pgs_sync/src/pgs_sync/sync_engine.py:222 | commit publishes the view when no clash is pending, and otherwise fails and leaves the table |
| Reconcile.Refresh | src/pgs_sync/src/pgs_sync/sync_engine.py:184-203 | a refresh overwrites name, category, size, dimensions and mtime; the title is regenerated only when it was empty |
| Reconcile.Tagged | src/pgs_sync/src/pgs_sync/sync_engine.py:141-149 | each entry of a category directory is tagged with that directory's name |
| Reconcile.ScanFile | src/pgs_sync/src/pgs_sync/sync_engine.py:149-208 | one inner iteration never loses a key, keeps a pending clash and leaves `files_removed` alone |
| Reconcile.FullSyncSpec | src/pgs_sync/src/pgs_sync/sync_engine.py:124-128 | a missing storage path fails with not-found and a non-directory with not-a-directory |
| Reconcile.ScanEntry | src/pgs_sync/src/pgs_sync/sync_engine.py:150-208 | the inner loop body does to the session, found set and counters what `ScanFile` says |
| Reconcile.ScanDirectory | src/pgs_sync/src/pgs_sync/sync_engine.py:149-208 | the inner loop over a category directory is the pass over its tagged entries |
| Reconcile.ScanTop | src/pgs_sync/src/pgs_sync/sync_engine.py:141-149 | a top-level entry succeeds exactly when it is not a directory or can be listed, and then adds the pass over its entries |
| Reconcile.ScanStorage | src/pgs_sync/src/pgs_sync/sync_engine.py:141-208 | the two loops succeed exactly when every category directory can be listed, and leave the state of one pass over every visited entry |
| Reconcile.FullSync | src/pgs_sync/src/pgs_sync/sync_engine.py:114-235 | the method returns the statistics and commits the table `FullSyncSpec` gives, or fails with its error and leaves the table as it was |
| Reconcile.AllListableStep | src/pgs_sync/src/pgs_sync/sync_engine.py:141-149 | one more top-level entry keeps the scan going exactly when it can be listed |
| Reconcile.FoundKeysMeaning | src/pgs_sync/src/pgs_sync/sync_engine.py:150-154 | a path is found exactly when some counted entry resolves to it |
| Reconcile.ScanSeqCounts | src/pgs_sync/src/pgs_sync/sync_engine.py:150-208 | a pass adds one `files_scanned` per counted entry, one `errors` per counted entry that fails to read (`ErrorCount`), one `files_added` per readable entry of a path the table did not have (`AddedCount`), and at most one added, updated or error per counted entry; it collects exactly the found paths and adds no row for any other path |
| Reconcile.ScanFileCounts | src/pgs_sync/src/pgs_sync/sync_engine.py:150-208 | one entry: not counted changes nothing; counted adds one `files_scanned` and its path to the found set, then exactly one `errors` for a failed read, one `files_added` for a readable file of a new path, one `files_updated` for a readable file whose row has another mtime, and nothing more when the mtime is the row's |
| Reconcile.ScanFileRows | src/pgs_sync/src/pgs_sync/sync_engine.py:158-208 | one counted entry: a failed read changes no row; a readable new path gets `NewPhoto` (or the clash when its key is taken); a known path with another mtime gets `Refresh` of its row; the same mtime changes no row |
| Reconcile.ScanSeqUpdates | src/pgs_sync/src/pgs_sync/sync_engine.py:184-203 | a pass adds one `files_updated` per entry that refreshes a row (`UpdatedCount`), and every row the table had ends with the mtime of the last readable entry of its path (`CurrentMtime`) |
| Reconcile.RefreshedRow | src/pgs_sync/src/pgs_sync/sync_engine.py:184-203 | a row whose path has exactly one counted entry, readable with another mtime, ends the pass as `Refresh` of the row from that entry |
| Reconcile.RowKept | src/pgs_sync/src/pgs_sync/sync_engine.py:184-208 | a row changes only through a counted, readable entry of its own path with another mtime |
| Reconcile.ScanFileKeepsRow | src/pgs_sync/src/pgs_sync/sync_engine.py:184-208 | the same for one entry |
| Reconcile.ScanSeqKeepsTitles | src/pgs_sync/src/pgs_sync/sync_engine.py:195-200 | a pass never changes a non-empty title of a row that was there before |
| Reconcile.NewRowStays | src/pgs_sync/src/pgs_sync/sync_engine.py:165-181 | a row added for a new path keeps its contents to the end of the pass unless a clash is pending |
| Reconcile.NewPathRow | src/pgs_sync/src/pgs_sync/sync_engine.py:165-181 | a counted, readable entry with no row gets the row built from its name, directory, generated title and metadata, unless a clash is pending |
| Reconcile.DuplicateNewPathClashes | src/pgs_sync/src/pgs_sync/sync_engine.py:153-180 | two counted, readable entries resolving to the same new path make the pass clash |
| Reconcile.FirstScanSettles | src/pgs_sync/src/pgs_sync/sync_engine.py:160-208 | after a pass every found, readable path has a row with its mtime |
| Reconcile.RescanIsQuiet | src/pgs_sync/src/pgs_sync/sync_engine.py:184-186 | a pass over a table settled for every found path adds, updates and changes nothing |
| Reconcile.FullSyncCounts | src/pgs_sync/src/pgs_sync/sync_engine.py:141-219 | `files_scanned` counts exactly the supported regular files one level inside a directory, `errors` those that fail to read, `files_added` the readable ones of a path the table did not have, `files_updated` those that refresh a row; added + updated + errors never exceeds `files_scanned`; `files_removed` counts the rows whose path was not found |
| Reconcile.FullSyncUpdatesRow | src/pgs_sync/src/pgs_sync/sync_engine.py:184-203 | after a successful full sync, a row whose path has exactly one counted, readable entry with another mtime is that row refreshed: the entry's file name, its directory as category, and the file's size, dimensions and mtime, with the title rule of `Refresh` |
| Reconcile.FullSyncRemovesExactlyOrphans | src/pgs_sync/src/pgs_sync/sync_engine.py:210-219 | an existing row survives exactly when its path was found, and every row left was there before or found |
| Reconcile.FullSyncKeepsRow | src/pgs_sync/src/pgs_sync/sync_engine.py:153-154 | a found row whose entries all failed to read or showed its own mtime comes out unchanged: a per-file error neither changes nor deletes it |
| Reconcile.FullSyncKeepsTitles | src/pgs_sync/src/pgs_sync/sync_engine.py:195-200 | a full sync never changes a non-empty title |
| Reconcile.FullSyncAddsNewPath | src/pgs_sync/src/pgs_sync/sync_engine.py:165-181 | a readable file at a new path ends up with the row built from its name, directory, generated title and metadata |
| Reconcile.FullSyncDuplicateNewPathFails | src/pgs_sync/src/pgs_sync/sync_engine.py:232-235 | two readable files resolving to the same new path make the sync fail on the unique `file_path`, with nothing committed |
| Reconcile.FirstSyncSettles | src/pgs_sync/src/pgs_sync/sync_engine.py:160-219 | after a successful sync every found, readable path has a row with its mtime, and every row is for a found path |
| Reconcile.SettledSyncIsQuiet | src/pgs_sync/src/pgs_sync/sync_engine.py:184-219 | a sync over a table settled for the tree adds, updates and removes nothing |
| Reconcile.FullSyncIdempotent | src/pgs_sync/src/pgs_sync/sync_engine.py:114-235 | a second full sync over the same tree adds, updates and removes nothing and leaves the table as the first left it |
| SyncEngine.AddRow | src/pgs_sync/src/pgs_sync/sync_engine.py:264 | `session.add` into a view: a taken key makes a clash pending and keeps the view; otherwise the row is added |
| SyncEngine.CreatedRow | src/pgs_sync/src/pgs_sync/sync_engine.py:253-262 | the new row carries the file's name, the event's category, the generated title and the mtime |
| SyncEngine.FileCreated | src/pgs_sync/src/pgs_sync/sync_engine.py:237-265 | nothing happens when the file is gone or a row exists at its path; a metadata failure raises; otherwise exactly the new row is added under the resolved path |
| SyncEngine.FileModified | src/pgs_sync/src/pgs_sync/sync_engine.py:267-280 | a vanished file changes nothing, a file without a row goes to the created handler, and a row whose file cannot be read raises the metadata error |
| SyncEngine.FileDeleted | src/pgs_sync/src/pgs_sync/sync_engine.py:301-309 | the row at the event's path goes and no other key changes |
| SyncEngine.Dispatch | src/pgs_sync/src/pgs_sync/sync_engine.py:311-315 | a move is a delete of the source path |
| SyncEngine.SupportedEvents | src/pgs_sync/src/pgs_sync/sync_engine.py:66 | the filtered batch holds exactly the supported events of the batch: every one it holds is supported and in the batch, and every supported event of the batch is in it |
| SyncEngine.SupportedEventsAppend | src/pgs_sync/src/pgs_sync/sync_engine.py:66 | the filter keeps order: the filter of a concatenation is the concatenation of the filters |
| SyncEngine.SupportedEventsAllKept | src/pgs_sync/src/pgs_sync/sync_engine.py:66 | a batch of supported events passes whole, in order and with its repeats |
| SyncEngine.SupportedEventsNoneKept | src/pgs_sync/src/pgs_sync/sync_engine.py:66 | a batch with no supported event filters to nothing |
| SyncEngine.EventOutcome | src/pgs_sync/src/pgs_sync/sync_engine.py:34-36 | an unsupported path leaves the table as it was |
| SyncEngine.BatchOutcome | src/pgs_sync/src/pgs_sync/sync_engine.py:65-94 | a batch with no supported event changes nothing; the batch fails only on a clash at commit |
| SyncEngine.CreatedIsNoOpForKnownPath | src/pgs_sync/src/pgs_sync/sync_engine.py:243-247 | a created event for a path that has a row is a no-op |
| SyncEngine.ModifiedRule | src/pgs_sync/src/pgs_sync/sync_engine.py:279-297 | an unchanged mtime changes nothing; a changed one replaces the row by `Reconcile.Refresh` of it (file name, category, size, dimensions and mtime from the file) and keeps every other row, the set of keys and a non-empty title |
| SyncEngine.BatchMatchesSequential | src/pgs_sync/src/pgs_sync/sync_engine.py:72-88 | when the batch commits, the table is the one processing its events one transaction each would leave, with failing events skipped |
| SyncEngine.StepAgrees | src/pgs_sync/src/pgs_sync/sync_engine.py:74-86 | one event in a clash-free batch leaves what its own transaction would commit |
| SyncEngine.BatchOutcomeSequential | src/pgs_sync/src/pgs_sync/sync_engine.py:57-94 | the committed batch is the sequential outcome of its events |
| SyncEngine.CategoryUnder | src/pgs_sync/src/pgs_sync/sync_engine.py:347-355 | the first component of the path relative to the base when there is one; a category other than "uncategorized" only comes from such a component |
| SyncEngine.CategoryOfStoredFile | src/pgs_sync/src/pgs_sync/sync_engine.py:350-352 | a file in a category directory gets that directory as its category |
| SyncEngine.CategoryOfTopLevelFile | src/pgs_sync/src/pgs_sync/sync_engine.py:350-352 | a file directly in the base gets its own name |
| SyncEngine.CategoryOutsideBase | src/pgs_sync/src/pgs_sync/sync_engine.py:353-355 | a path outside the base, or the base itself, is "uncategorized" |
| SyncEngine.SyncEngine.HandleFileCreated | src/pgs_sync/src/pgs_sync/sync_engine.py:237-265 | the session ends as `FileCreated` says, or is left alone when it raises |
| SyncEngine.SyncEngine.HandleFileModified | src/pgs_sync/src/pgs_sync/sync_engine.py:267-299 | the session ends as `FileModified` says, or is left alone when it raises |
| SyncEngine.SyncEngine.HandleFileDeleted | src/pgs_sync/src/pgs_sync/sync_engine.py:301-309 | the session ends as `FileDeleted` says |
| SyncEngine.SyncEngine.HandleFileMoved | src/pgs_sync/src/pgs_sync/sync_engine.py:311-315 | a move does to the session what a delete does |
| SyncEngine.SyncEngine.Handle | src/pgs_sync/src/pgs_sync/sync_engine.py:40-47 | the type dispatch does to the session what `Dispatch` says |
| SyncEngine.SyncEngine.ProcessFileEvent | src/pgs_sync/src/pgs_sync/sync_engine.py:26-55 | the table ends as `EventOutcome` says; a failure is reported and the table is unchanged |
| SyncEngine.SyncEngine.HandleInBatch | src/pgs_sync/src/pgs_sync/sync_engine.py:75-86 | one turn of the batch loop applies the next event, a failing one skipped |
| SyncEngine.SyncEngine.ProcessEventBatch | src/pgs_sync/src/pgs_sync/sync_engine.py:57-94 | the table ends as `BatchOutcome` says; a failure is reported and the table is unchanged |
| SyncEngine.SyncEngine.PerformFullSync | src/pgs_sync/src/pgs_sync/sync_engine.py:114-235 | the full sync over the engine's extension set and title generator |
| SyncEngine.SyncEngine.PerformInitialSync | src/pgs_sync/src/pgs_sync/sync_engine.py:96-103 | the initial sync is the full sync |
| SyncEngine.SyncEngine.PerformPeriodicSync | src/pgs_sync/src/pgs_sync/sync_engine.py:105-112 | the periodic sync is the full sync |
| Watcher.FileEventQueue.Put | src/pgs_sync/src/pgs_sync/watcher.py:58 | `put` appends the event at the back |
| Watcher.FileEventQueue.Get | src/pgs_sync/src/pgs_sync/worker.py:134 | `get` takes the front event, or reports empty and changes nothing |
| Watcher.WatcherCategory | src/pgs_sync/src/pgs_sync/watcher.py:64-82 | below the base the category is the first relative component; outside it, the parent directory's name when there is one; always "uncategorized" or a component of the path |
| Watcher.WatcherCategoryOfStoredFile | src/pgs_sync/src/pgs_sync/watcher.py:77-79 | a file in a category directory gets that directory's name |
| Watcher.WatcherCategoryOutsideBase | src/pgs_sync/src/pgs_sync/watcher.py:80-82 | outside the base the category is the parent's name, or "uncategorized" when there is no parent |
| Watcher.CategoriesAgreeBelowBase | src/pgs_sync/src/pgs_sync/watcher.py:75-82 | the watcher and the engine agree below the base; outside it the engine says "uncategorized" |
| Watcher.EventTypeOf | src/pgs_sync/src/pgs_sync/watcher.py:24-37 | no callback produces a move |
| Watcher.Queued | src/pgs_sync/src/pgs_sync/watcher.py:24-62 | one notification queues at most one event |
| Watcher.QueuedRule | src/pgs_sync/src/pgs_sync/watcher.py:24-62 | exactly one event is queued precisely for a supported file that is not a directory and whose event builds; it has the callback's type, the path, its category and the clock reading |
| Watcher.QueuedAllSnoc | src/pgs_sync/src/pgs_sync/watcher.py:58 | one more notification adds its events at the back |
| Watcher.QueuedAllAppend | src/pgs_sync/src/pgs_sync/watcher.py:58 | notifications queue their events in the order they come |
| Watcher.QueuedAllShape | src/pgs_sync/src/pgs_sync/watcher.py:24-41 | every queued event is for a supported file and never a move, and there are no more events than notifications |
| Watcher.DirectoriesIgnored | src/pgs_sync/src/pgs_sync/watcher.py:26-36 | directory notifications queue nothing |
| Watcher.PhotoDirectoryEventHandler.QueueEvent | src/pgs_sync/src/pgs_sync/watcher.py:43-62 | a raising build queues nothing; otherwise the built event is appended |
| Watcher.PhotoDirectoryEventHandler.Notify | src/pgs_sync/src/pgs_sync/watcher.py:24-37 | the queue grows by what `Queued` says |
| Watcher.PhotoDirectoryEventHandler.OnCreatedEvent | src/pgs_sync/src/pgs_sync/watcher.py:24-27 | `on_created` appends what `Queued` gives for a created notification |
| Watcher.PhotoDirectoryEventHandler.OnModifiedEvent | src/pgs_sync/src/pgs_sync/watcher.py:29-32 | `on_modified` appends what `Queued` gives for a modified notification |
| Watcher.PhotoDirectoryEventHandler.OnDeletedEvent | src/pgs_sync/src/pgs_sync/watcher.py:34-37 | `on_deleted` appends what `Queued` gives for a deleted notification |
| Worker.CollectKeepsOrder | src/pgs_sync/src/pgs_sync/worker.py:126-147 | nothing is lost or reordered: batch + queue is what was there plus what arrived; the batch only grows; polls stay within the window |
| Worker.CollectTakesFront | src/pgs_sync/src/pgs_sync/worker.py:134-135 | a poll that finds an event moves the queue's front event to the back of the batch |
| Worker.CollectBounded | src/pgs_sync/src/pgs_sync/worker.py:126-127 | a batch never holds more than `max_batch_size` events |
| Worker.CollectStopsOnEmptyPoll | src/pgs_sync/src/pgs_sync/worker.py:142-147 | collection ends early only on an empty poll with a non-empty batch |
| Worker.CollectIdle | src/pgs_sync/src/pgs_sync/worker.py:126-152 | with nothing queued or arriving, the batch is empty and the whole window is spent |
| Worker.CollectFillsFromFront | src/pgs_sync/src/pgs_sync/worker.py:126-135 | with enough queued events and time, the batch is the queue's front up to the limit |
| Worker.FirstSuccess | src/pgs_sync/src/pgs_sync/worker.py:163-172 | the attempt found succeeds and lies in the range |
| Worker.RetrySucceedsAfterFailures | src/pgs_sync/src/pgs_sync/worker.py:163-172 | success after k failures means k + 1 calls and nothing raised |
| Worker.RetryExhausted | src/pgs_sync/src/pgs_sync/worker.py:174-189 | when every attempt fails, all `retry_attempts` calls are made and the last exception escapes |
| Worker.RetryBounded | src/pgs_sync/src/pgs_sync/worker.py:163-189 | never more calls than attempts; no attempts means no call and no exception; a raise means every attempt was made |
| Worker.SyncWorker.constructor | src/pgs_sync/src/pgs_sync/worker.py:25-36 | a new worker is not running |
| Worker.SyncWorker.SignalHandler | src/pgs_sync/src/pgs_sync/worker.py:45-47 | the signal handler clears `running` |
| Worker.SyncWorker.Shutdown | src/pgs_sync/src/pgs_sync/worker.py:75-78 | `shutdown` clears `running` |
| Worker.SyncWorker.Start | src/pgs_sync/src/pgs_sync/worker.py:52-73 | the initial sync runs exactly when configured, with the full sync's outcome; `running` is false afterwards |
| Worker.SyncWorker.CollectEventBatch | src/pgs_sync/src/pgs_sync/worker.py:116-152 | the loop returns the batch and leaves the queue `CollectFrom` gives |
| Worker.SyncWorker.ProcessEventBatchWithRetry | src/pgs_sync/src/pgs_sync/worker.py:154-189 | the loop makes the calls and raises as `RetryOutcome` gives |
| Health.RecordSample | src/pgs_sync/src/pgs_sync/health.py:39 | the bounded deque never grows beyond 1000 |
| Health.CountOf | src/pgs_sync/src/pgs_sync/health.py:176-182 | a count of one event type never exceeds the list's length |
| Health.HealthyIff | src/pgs_sync/src/pgs_sync/health.py:81 | "healthy" exactly when the database reports healthy and the observer is alive; otherwise "unhealthy" |
| Health.MissingDependencyIsUnhealthy | src/pgs_sync/src/pgs_sync/health.py:190-192 | a monitor without a database manager or observer is unhealthy |
| Health.RecordSampleKeepsRecent | src/pgs_sync/src/pgs_sync/health.py:39 | the deque keeps the most recent samples, at most 1000, oldest first |
| Health.TallyCounts | src/pgs_sync/src/pgs_sync/health.py:173-182 | the event-type loop adds the number of created, modified and deleted events to added, updated and removed |
| Health.CountsCoverAll | src/pgs_sync/src/pgs_sync/health.py:176-182 | the four event types account for every event |
| Health.TallyIgnoresMoves | src/pgs_sync/src/pgs_sync/health.py:176-182 | every event but a move adds exactly one to one daily counter |
| Health.UpdateStatsEffect | src/pgs_sync/src/pgs_sync/health.py:121-182 | one `update_stats` call in closed form: the daily reset, each argument's effect on totals, daily counters, timestamps and samples |
| Health.DailyResetRule | src/pgs_sync/src/pgs_sync/health.py:49-62 | a new date zeroes the four daily counters and keeps totals and timestamps; the same date changes nothing |
| Health.StatisticsExample | src/pgs_sync/src/pgs_sync/health.py:137-182 | the combined example leaves 104, 17, 9 and 4 on a fresh day |
| Health.HealthMonitor.constructor | src/pgs_sync/src/pgs_sync/health.py:22-47 | a new monitor has zero counters, no samples and no timestamps |
| Health.HealthMonitor.DailyStatsReset | src/pgs_sync/src/pgs_sync/health.py:49-54 | the four daily counters become zero and nothing else changes |
| Health.HealthMonitor.CheckDailyReset | src/pgs_sync/src/pgs_sync/health.py:56-62 | the state becomes `DailyReset` of the old state |
| Health.HealthMonitor.CountEventTypes | src/pgs_sync/src/pgs_sync/health.py:173-182 | the loop adds `Tally` of the event types to the day |
| Health.HealthMonitor.RecordCounts | src/pgs_sync/src/pgs_sync/health.py:137-144 | processed events count towards the total and the day, failed events towards their total |
| Health.HealthMonitor.RecordTimes | src/pgs_sync/src/pgs_sync/health.py:147-161 | the timestamps are replaced and the sample goes into the bounded deque |
| Health.HealthMonitor.RecordSyncStats | src/pgs_sync/src/pgs_sync/health.py:164-170 | a sync result adds its four counters to the day and stamps the full sync |
| Health.HealthMonitor.UpdateStats | src/pgs_sync/src/pgs_sync/health.py:121-182 | the state becomes `Updated` of the old state, and the deque stays bounded |
| Health.HealthMonitor.HealthCheck | src/pgs_sync/src/pgs_sync/health.py:67-91 | the status follows the two checks and the day is reset when needed |
| DbSync.CatalogImageFileRule | src/pgs_db/src/pgs_db/sync.py:134-143 | a file named stem + extension is supported exactly when the lowercased extension is one of the 17 |
| DbSync.CatalogTitleShape | src/pgs_db/src/pgs_db/sync.py:92-131 | every title of this variant has no separators and is title-cased; it is empty only for an empty stem; it is readable or the fallback |
| DbSync.LeadingPMatches | src/pgs_db/src/pgs_db/sync.py:105 | case-insensitive matching takes a leading "p" alone as the prefix `P` |
| DbSync.NoiseOfLeadingP | src/pgs_db/src/pgs_db/sync.py:105-116 | the pattern steps drop the leading "p" of "p" + a lower-case word |
| DbSync.LeadingPDropped | src/pgs_db/src/pgs_db/sync.py:92-131 | "p" + a lower-case word + an extension gets the word capitalised as title |
| DbSync.PortraitExample | src/pgs_db/src/pgs_db/sync.py:92-131 | "portrait.jpg" gets the title "Ortrait" |
| DbSync.SyncFilesystemToDb | src/pgs_db/src/pgs_db/sync.py:160-285 | without a path argument the configured path is scanned; the outcome is the full sync over this module's extension set and title generator |
| DbSync.Orphans | src/pgs_db/src/pgs_db/sync.py:298-301 | the orphans are exactly the rows whose file does not exist |
| DbSync.RemovalLeavesNoOrphans | src/pgs_db/src/pgs_db/sync.py:303-305 | after the clean-up no orphan is left, and every row whose file exists is still there, unchanged |
| DbSync.OrphanKeys | src/pgs_db/src/pgs_db/sync.py:299-301 | the keys among a set whose file is gone |
| DbSync.CollectOrphans | src/pgs_db/src/pgs_db/sync.py:298-301 | the loop collects exactly the orphans |
| DbSync.RemoveOrphanedPhotos | src/pgs_db/src/pgs_db/sync.py:288-310 | every orphan is deleted and their number returned; with none the table is untouched |
| PhotoModel.FileExtension | src/pgs_db/src/pgs_db/models.py:36-38 | the extension is empty or a dot followed by dot-free text, with no capital |
| PhotoModel.NameSplits | src/pgs_db/src/pgs_db/models.py:36-43 | stem followed by suffix is the name, and the extension is that suffix lowercased |
| PhotoModel.ExtensionOfFilename | src/pgs_db/src/pgs_db/models.py:36-43 | for stem + extension the two properties give back the stem and the lowercased extension |
| PhotoModel.Orientation | src/pgs_db/src/pgs_db/models.py:53-62 | landscape, portrait or square by comparing width and height; none when either is missing or zero |
| PhotoModel.AspectRatio | src/pgs_db/src/pgs_db/models.py:46-50 | the ratio, when present, never divides by zero |
| PhotoModel.PixelCount | src/pgs_db/src/pgs_db/models.py:64-69 | the pixel count, when present, is non-zero |
| PhotoModel.SharedGuard | src/pgs_db/src/pgs_db/models.py:46-69 | aspect ratio, orientation and megapixels exist for exactly the same rows |
| PhotoModel.OrientationFollowsRatio | src/pgs_db/src/pgs_db/models.py:46-62 | for positive dimensions the orientation is the aspect ratio compared with one |
| PhotoModel.ImageFormatRule | src/pgs_db/src/pgs_db/models.py:76-79 | the format test is the lowercased extension against the 11 formats |
| PhotoModel.ImageFormatsAreSynced | src/pgs_db/src/pgs_db/models.py:78 | every image format is synced, but `.tif` and `.dng` are synced without being image formats |
| PhotoModel.DisplayTitle | src/pgs_db/src/pgs_db/models.py:81-83 | a non-empty title, otherwise the stem |
| PhotoModel.DisplayTitleNonEmpty | src/pgs_db/src/pgs_db/models.py:81-83 | a row with a non-empty file name always has something to display |
| PhotosService.MediaFor | src/pgs_api/src/pgs_api/services/photos.py:21-30 | the media type is one of the map's or the octet-stream default |
| PhotosService.GetPhotoById | src/pgs_api/src/pgs_api/services/photos.py:35-39 | none exactly for an unknown id; otherwise the row's id, its contents and its `file_path` parsed as a path |
| PhotosService.GetPhotoFileInfo | src/pgs_api/src/pgs_api/services/photos.py:41-55 | none for an unknown id; otherwise the row's path and filename and the media type of the filename |
| PhotosService.FileInfoGuard | src/pgs_api/src/pgs_api/services/photos.py:46-47 | a known row gets file information exactly when its path is not the empty path |
| PhotosService.EmptyPathsHaveNoFileInfo | src/pgs_api/src/pgs_api/services/photos.py:46-47 | "" and "." give no file information |
| PhotosService.FileInfoNeedsPhoto | src/pgs_api/src/pgs_api/services/photos.py:37-43 | file information exists only for a photo the id lookup finds |
| PhotosService.MediaTypeRule | src/pgs_api/src/pgs_api/services/photos.py:49-52 | the media type of stem + extension depends only on the lowercased extension |
| PhotosService.MediaTypeSpellings | src/pgs_api/src/pgs_api/services/photos.py:22-29 | .jpg and .jpeg are JPEG, .tif and .tiff are TIFF, anything outside the map is an octet stream |
| PhotosService.NoExtensionIsOctetStream | src/pgs_api/src/pgs_api/services/photos.py:49-52 | a name without an extension is an octet stream |
| DbConfig.GetEnv | src/pgs_db/src/pgs_db/config.py:11 | the variable's value when set, the default otherwise |
| DbConfig.IntSetting | src/pgs_db/src/pgs_db/config.py:12-21 | the parsed value of the setting or its default, or the error `int()` raises on text that is not an integer |
| DbConfig.NormalizeEnvironment | src/pgs_db/src/pgs_db/config.py:25-28 | always one of the three environments; a known name stays, anything else becomes development |
| DbConfig.LoadedSettings | src/pgs_db/src/pgs_db/config.py:9-31 | a loaded configuration has the parsed port and pool size, the host, a known environment, the echo rule and the photos path rule |
| DbConfig.LoadFailsOnFirstBadInteger | src/pgs_db/src/pgs_db/config.py:12-21 | loading fails exactly when one of the five integer settings does not parse, and a bad port is the error reported first |
| DbConfig.PhotosPathRule | src/pgs_db/src/pgs_db/config.py:33-43 | a non-empty `PHOTOS_BASE_PATH` wins; otherwise production uses /photoserver/photos and the rest the project root's photos directory |
| DbConfig.IntDefaults | src/pgs_db/src/pgs_db/config.py:12-21 | the default spellings parse to 5432, 10, 20, 30 and 3600 |
| DbConfig.EmptyEnvironmentDefaults | src/pgs_db/src/pgs_db/config.py:9-43 | with nothing set every setting takes its default |
| DbConfig.UrlsDifferOnlyInScheme | src/pgs_db/src/pgs_db/config.py:45-53 | the two URLs differ only in their scheme |

## Left out

- Image decoding and `stat` are not modelled. They are answers the filesystem gives, recorded in each `FileProbe`, so `ExtractImageMetadata` only states their contract.
- SQLAlchemy, `DatabaseManager` and the queries are not modelled. The table is a map keyed by `file_path`. The order of rows and the `id` column are not modelled, and the bulk delete by id is a delete by key.
- The watchdog observer, `start_watching`/`stop_watching`, asyncio tasks, `gather`, sleeps, OS signals and uvicorn are concurrency and infrastructure. `Start` stops after the initial sync and `Shutdown` does not stop the observer.
- Worker.CollectFrom: `running` is one value for the whole batching window, so a signal that clears it between two polls of `_collect_event_batch` is not modelled; the signal handler itself is `SignalHandler`.
- DbConfig.IntSetting: `InvalidInteger` records which setting's `int()` call raised and its text; Python's `ValueError` carries only the text, and nothing in the configuration catches it.
- `_process_events` and `_periodic_sync` are not modelled. They are endless scheduling loops; the periodic loop swallows every exception.
- Wall-clock time is not modelled. The batching window is a budget of polls. The debounce sleep and the 0.1 s poll timeout are not modelled. Timestamps and dates are integers.
- Floating point is not modelled. `aspect_ratio` and `megapixels` are kept as their operands, and processing times as integer milliseconds. `file_size_mb`, the running average and uptime are left out.
- The `/stats` route, `set_database_manager`, `set_watcher_observer`, `set_queue_size_callback` and `get_app` are left out as HTTP plumbing and setters.
- `isinstance` checks in `update_stats` become the presence of an argument. Python's `bool` counting as an `int` is not modelled.
- Logging is left out.
- Character classes are ASCII only. `str.lower`, `str.title`, `\s`, `\d` and `\b` agree with Python on ASCII text, not on other Unicode letters, digits or spaces.
- Paths are POSIX paths. `resolve()` is not computed: the resolved path is the filesystem's answer in `FileProbe.resolved`, symbolic links included.
- The project root, which the configuration derives from its own file location, is a parameter.
- Reconcile.FullSyncSpec: specified over a `supported` test and a `title` function passed in. The engine passes the worker's extension set and title generator; the database package passes its own.
- Reconcile.FullSyncIdempotent: assumes a filesystem that answers the same for the same resolved path (`ProbesFrom`). A tree that changes between the two syncs is outside its statement.
- Reconcile.FullSyncUpdatesRow: states the refreshed row only for a path with one counted entry. When several entries resolve to one known path (a symbolic link beside its target), each readable one refreshes the row in turn; `ScanSeqUpdates` states the count and final mtime for that case, not the final row.
- Worker.SyncWorker.ProcessEventBatchWithRetry: does not call the engine's batch processing; whether each attempt raises is the `succeeds` parameter.
