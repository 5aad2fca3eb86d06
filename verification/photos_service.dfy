/**
 * The API's photo service: the lookup of one photo by id and the file
 * information needed to serve it, with its media type taken from the
 * filename's extension. The repository is the table of rows by id.
 */
module PhotosService {
  import opened Wrappers
  import opened PyText
  import opened PyPath
  import opened SyncUtils
  import opened Catalog

  /** A row as the repository returns it: its id, its `file_path` and the other columns. */
  datatype PhotoRecord = PhotoRecord(id: string, filePath: string, photo: Photo)

  /** The API model of a photo: as the row, with `file_path` made a `Path`. */
  datatype ApiPhoto = ApiPhoto(id: string, filePath: PurePath, photo: Photo)

  /** `PhotoFileInfo` */
  datatype PhotoFileInfo = PhotoFileInfo(filePath: PurePath, mediaType: string, filename: string)

  /** `__MEDIA_TYPE_MAP` */
  const MediaTypes: map<string, string> := map[
    ".jpg" := "image/jpeg",
    ".jpeg" := "image/jpeg",
    ".png" := "image/png",
    ".webp" := "image/webp",
    ".gif" := "image/gif",
    ".bmp" := "image/bmp",
    ".tiff" := "image/tiff",
    ".tif" := "image/tiff"
  ]

  const DefaultMediaType := "application/octet-stream"

  /** `__MEDIA_TYPE_MAP.get(ext, "application/octet-stream")` */
  function MediaFor(ext: string): (r: string)
    ensures r == DefaultMediaType || r in MediaTypes.Values
  {
    if ext in MediaTypes then MediaTypes[ext] else DefaultMediaType
  }

  /** The media type of a filename: the map entry for its lowercased suffix. */
  function MediaType(filename: string): string
  {
    MediaFor(Lower(Suffix(Name(Parse(filename)))))
  }

  /** `Photo.model_validate` */
  function Validate(row: PhotoRecord): ApiPhoto
  {
    ApiPhoto(row.id, Parse(row.filePath), row.photo)
  }

  /** `get_photo_by_id` */
  function GetPhotoById(repository: map<string, PhotoRecord>, photoId: string): (r: Option<ApiPhoto>)
    ensures r.None? <==> photoId !in repository
    ensures r.Some? ==> r.value.id == repository[photoId].id && r.value.photo == repository[photoId].photo
    ensures r.Some? ==> r.value.filePath == Parse(repository[photoId].filePath)
  {
    if photoId in repository then Some(Validate(repository[photoId])) else None
  }

  /**
   * `get_photo_file_info`: nothing for an unknown id or for a `file_path`
   * that is the empty path; otherwise the path and the filename of the row
   * with the media type of the filename.
   */
  function GetPhotoFileInfo(repository: map<string, PhotoRecord>, photoId: string): (r: Option<PhotoFileInfo>)
    ensures photoId !in repository ==> r.None?
    ensures r.Some? ==>
      && photoId in repository
      && r.value.filePath == Parse(repository[photoId].filePath)
      && r.value.filename == repository[photoId].photo.filename
      && r.value.mediaType == MediaType(repository[photoId].photo.filename)
  {
    if photoId in repository then
      var photo := Validate(repository[photoId]);
      if Str(photo.filePath) == "." then None
      else Some(PhotoFileInfo(photo.filePath, MediaType(photo.photo.filename), photo.photo.filename))
    else None
  }

  /** The file path guard: a known row gets file information exactly when its `file_path` is not the empty path. */
  lemma FileInfoGuard(repository: map<string, PhotoRecord>, photoId: string)
    requires photoId in repository
    ensures GetPhotoFileInfo(repository, photoId).None? <==> Parse(repository[photoId].filePath) == PurePath("", [])
  {
    StrIsDotOnlyForEmpty(Parse(repository[photoId].filePath));
  }

  /** Only the empty relative path renders as ".". */
  lemma StrIsDotOnlyForEmpty(p: PurePath)
    requires Valid(p)
    ensures Str(p) == "." <==> p == PurePath("", [])
  {
    if p.anchor != "" {
      assert Str(p)[0] == '/';
    } else if p.parts != [] {
      JoinStart(p.parts);
      if |p.parts| == 1 {
        assert Join(p.parts) == p.parts[0];
      } else {
        assert Join(p.parts) == p.parts[0] + "/" + Join(p.parts[1..]);
      }
    }
  }

  /** "" and "." both stand for the empty path, so neither gets file information. */
  lemma EmptyPathsHaveNoFileInfo(repository: map<string, PhotoRecord>, photoId: string)
    requires photoId in repository
    requires repository[photoId].filePath == "" || repository[photoId].filePath == "."
    ensures GetPhotoFileInfo(repository, photoId).None?
  {
    var s := repository[photoId].filePath;
    assert Split("") == [""];
    SplitPlain(".");
    assert KeepParts(["."]) == [] && KeepParts([""]) == [];
  }

  /** Both lookups see the same rows: file information exists only for a photo the id lookup finds. */
  lemma FileInfoNeedsPhoto(repository: map<string, PhotoRecord>, photoId: string)
    ensures GetPhotoFileInfo(repository, photoId).Some? ==> GetPhotoById(repository, photoId).Some?
    ensures GetPhotoById(repository, photoId).None? ==> GetPhotoFileInfo(repository, photoId).None?
  {
  }

  /** The media type of a name made of a stem and an extension depends only on the extension lowercased. */
  lemma MediaTypeRule(stem: string, ext: string)
    requires ValidPart(stem)
    requires |ext| >= 2 && ext[0] == '.' && '.' !in ext[1..] && '/' !in ext
    ensures MediaType(stem + ext) == MediaFor(Lower(ext))
  {
    var n := stem + ext;
    assert n[|n| - 1] == ext[|ext| - 1];
    assert '/' !in n by {
      forall k | 0 <= k < |n| ensures n[k] != '/' {
        if k < |stem| { assert n[k] == stem[k]; } else { assert n[k] == ext[k - |stem|]; }
      }
    }
    ParsePlainName(n);
    StemAndSuffixOf(stem, ext);
  }

  /**
   * JPEG and TIFF each have two spellings, the other six extensions one
   * media type each, and anything else is served as an octet stream.
   */
  lemma MediaTypeSpellings(ext: string)
    ensures ext == ".jpg" || ext == ".jpeg" <==> MediaFor(ext) == "image/jpeg"
    ensures ext == ".tif" || ext == ".tiff" <==> MediaFor(ext) == "image/tiff"
    ensures ext !in MediaTypes <==> MediaFor(ext) == DefaultMediaType
  {
  }

  /** A name without an extension is served as an octet stream. */
  lemma NoExtensionIsOctetStream(filename: string)
    requires Suffix(Name(Parse(filename))) == ""
    ensures MediaType(filename) == DefaultMediaType
  {
    assert "" !in MediaTypes;
  }
}
