/**
 * The photo catalog: the `photos` table, keyed by its unique `file_path`
 * column, and the database session the sync code works through. A session
 * starts from a snapshot of the table; `commit` publishes its view and
 * `rollback` leaves the table as it was. A second row with the same
 * `file_path` is only rejected when the session flushes, so the session
 * remembers the clash and its commit fails.
 */
module Catalog {
  import opened Wrappers

  /** One row of the `photos` table, without its key; the mtime is an opaque timestamp, only ever compared for equality. */
  datatype Photo = Photo(
    filename: string,
    category: string,
    title: Option<string>,
    fileSize: int,
    width: Option<int>,
    height: Option<int>,
    fileModifiedAt: int)

  /** The table, keyed by `file_path`. */
  type Photos = map<string, Photo>

  /** `photos` without the rows at `keys`. */
  function Without(photos: Photos, keys: set<string>): (r: Photos)
    ensures r.Keys == photos.Keys - keys
    ensures forall k :: k in r ==> r[k] == photos[k]
  {
    map k | k in photos && k !in keys :: photos[k]
  }

  /** The committed state of the table. */
  class Database {
    var photos: Photos

    constructor (initial: Photos)
      ensures photos == initial
    {
      photos := initial;
    }
  }

  /** An open session: its view of the table and whether a unique-key clash is pending. */
  class Session {
    const db: Database
    var photos: Photos
    var conflict: bool

    constructor Open(db: Database)
      ensures this.db == db && photos == db.photos && !conflict
    {
      this.db := db;
      photos := db.photos;
      conflict := false;
    }

    /** `select(...).where(file_path == key)`: autoflush makes pending rows visible. */
    function Lookup(key: string): (r: Option<Photo>)
      reads this
      ensures r.Some? <==> key in photos
      ensures r.Some? ==> r.value == photos[key]
    {
      if key in photos then Some(photos[key]) else None
    }

    /** `session.add(new_photo)`: a row whose key is taken makes the next flush fail. */
    method Add(key: string, photo: Photo)
      modifies this
      ensures conflict == (old(conflict) || key in old(photos))
      ensures photos == if key in old(photos) then old(photos) else old(photos)[key := photo]
    {
      if key in photos {
        conflict := true;
      } else {
        photos := photos[key := photo];
      }
    }

    /** Overwriting the fields of a row the session has loaded. */
    method Put(key: string, photo: Photo)
      requires key in photos
      modifies this
      ensures photos == old(photos)[key := photo] && conflict == old(conflict)
    {
      photos := photos[key := photo];
    }

    /** `session.delete(row)`, or `delete(...).where(id in ...)` for several rows. */
    method Delete(keys: set<string>)
      modifies this
      ensures photos == Without(old(photos), keys) && conflict == old(conflict)
    {
      photos := Without(photos, keys);
    }

    /** `session.commit()`: publishes the view, or fails on a pending clash and changes nothing. */
    method Commit() returns (ok: bool)
      modifies db
      ensures ok == !conflict
      ensures db.photos == if ok then photos else old(db.photos)
    {
      ok := !conflict;
      if ok {
        db.photos := photos;
      }
    }
  }
}
