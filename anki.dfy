/**
 * The state of the anki library objects the sync handlers work on: the
 * collection (its update sequence number, its graves table and the entity
 * lists the change exchange reads) and its media manager (the media table,
 * the media USN and the media directory). The constants come from
 * `anki.consts`.
 */
module Anki {
  import opened Wrappers

  type Bytes = seq<bv8>

  /** `anki.consts.SYNC_VER`: the newest collection-sync protocol the server speaks. */
  const SyncVer: int := 10
  /** `anki.consts.SYNC_ZIP_SIZE`, `int(2.5 * 1024 * 1024)`: the byte budget of one media download. */
  const SyncZipSize: nat := 2621440
  /** `anki.consts.SYNC_ZIP_COUNT`: the file budget of one media download. */
  const SyncZipCount: nat := 25
  /** `anki.consts.REM_CARD`, `REM_NOTE`, `REM_DECK`: the kinds of grave. */
  const RemCard: int := 0
  const RemNote: int := 1
  const RemDeck: int := 2

  /** A row `(oid, type, usn)` of the graves table: a deleted card, note or deck. */
  datatype Grave = Grave(oid: int, kind: int, usn: int)

  /** The `{"cards": [...], "notes": [...], "decks": [...]}` tombstone sets of the protocol. */
  datatype GraveSet = GraveSet(cards: seq<int>, notes: seq<int>, decks: seq<int>)

  /** A model, deck or deck configuration; only its id and `usn` matter to the server. */
  datatype Entity = Entity(id: int, usn: int)

  /** A row `(name, usn)` of the tag registry. */
  datatype Tag = Tag(name: string, usn: int)

  /** A row of the media table `(fname, csum, mtime, dirty)`; a `None` checksum marks a deleted file. */
  datatype MediaRow = MediaRow(csum: Option<string>, mtime: int, dirty: int)

  /** The anki `MediaManager` of a collection. */
  class MediaManager {
    /** The media table, keyed by normalised file name. */
    var table: map<string, MediaRow>
    /** `lastUsn()` / `setLastUsn()`: the server's media USN. */
    var lastUsn: int
    /** Whether `db` is open (not `None`). */
    var dbOpen: bool
    /** The media directory `dir()`: file name to content. */
    var files: map<string, Bytes>

    constructor(table: map<string, MediaRow>, lastUsn: int, dbOpen: bool, files: map<string, Bytes>)
      ensures this.table == table && this.lastUsn == lastUsn
      ensures this.dbOpen == dbOpen && this.files == files
    {
      this.table := table;
      this.lastUsn := lastUsn;
      this.dbOpen := dbOpen;
      this.files := files;
    }

    /** `connect()`: opens the media database. */
    method Connect()
      modifies this`dbOpen
      ensures dbOpen
    {
      dbOpen := true;
    }
  }

  /** The anki `Collection` object a worker holds open. */
  class Collection {
    /** `col._usn`: the server's current update sequence number. */
    var usn: int
    /** `col.scm`, `col.mod`: schema and modification times. */
    var scm: int
    var mod: int
    /** `col.schedVer()`. */
    var schedVer: int
    /** The graves table, in the order the database returns its rows. */
    var graves: seq<Grave>
    /** `col.models.all()`, `col.decks.all()`, `col.decks.allConf()`, `col.tags.allItems()`. */
    var models: seq<Entity>
    var decks: seq<Entity>
    var deckConfs: seq<Entity>
    var tags: seq<Tag>
    /** `col.media`. */
    const media: MediaManager

    constructor(usn: int, schedVer: int, media: MediaManager)
      ensures this.usn == usn && this.schedVer == schedVer && this.media == media
      ensures graves == [] && models == [] && decks == [] && deckConfs == [] && tags == []
    {
      this.usn := usn;
      this.scm := 0;
      this.mod := 0;
      this.schedVer := schedVer;
      this.graves := [];
      this.models := [];
      this.decks := [];
      this.deckConfs := [];
      this.tags := [];
      this.media := media;
    }
  }
}
