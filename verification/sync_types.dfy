/**
 * The value types of the sync worker (file events, statistics, image
 * metadata) and the stand-in for the filesystem that the model consults
 * wherever the program calls `exists()`, `stat()`, `resolve()` or opens an
 * image.
 */
module SyncTypes {
  import opened Wrappers
  import opened PyPath

  datatype FileEventType = Created | Modified | Deleted | Moved

  /** A change the watcher saw; `timestamp` is an opaque clock reading. */
  datatype FileEvent = FileEvent(eventType: FileEventType, filePath: PurePath, category: string, timestamp: int)

  /** Counters one full sync reports. */
  datatype SyncStats = SyncStats(filesScanned: nat, filesAdded: nat, filesUpdated: nat, filesRemoved: nat, errors: nat)

  const ZeroStats := SyncStats(0, 0, 0, 0, 0)

  /** What `extract_image_metadata` returns; the mtime is an opaque timestamp, only ever compared for equality. */
  datatype ImageMetadata = ImageMetadata(fileSize: int, width: Option<int>, height: Option<int>, fileModifiedAt: int)

  /** The part of `os.stat` the program reads. */
  datatype FileStat = FileStat(size: int, mtime: int)

  datatype Dimensions = Dimensions(width: int, height: int)

  /**
   * What the filesystem answers about one existing path: the string
   * `str(path.resolve())`, the result of `stat()` (`None` when it fails,
   * for instance because the file vanished after `exists()` was asked), and
   * the size Pillow decodes (`None` when it cannot decode the file).
   */
  datatype FileProbe = FileProbe(resolved: string, stat: Option<FileStat>, dims: Option<Dimensions>)

  /** The paths that exist, each with its probe. */
  type Disk = map<PurePath, FileProbe>

  /** Why an operation raised. */
  datatype SyncError =
    | NotFound            // FileNotFoundError: the storage directory is missing
    | NotADirectory       // ValueError: the storage path is not a directory
    | ListingFailed       // OSError from iterdir()
    | MetadataFailed      // OSError from stat()
    | IntegrityConflict   // IntegrityError: a second row with the same unique file_path
}
