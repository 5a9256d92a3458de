/**
 * `SyncUserSession`: one client's sync session, with its lazily created
 * handler per operation family.
 */
module Sessions {
  import opened Wrappers
  import opened Anki
  import opened CollectionSync
  import opened MediaSync

  /** A value of a decoded request body; lists and objects are kept opaque. */
  datatype Value = Str(s: string) | Num(n: int) | Raw(bytes: Bytes) | Null | Opaque

  /** `SyncCollectionHandler.operations`. */
  const CollectionOps: seq<string> :=
    ["meta", "applyChanges", "start", "applyGraves", "chunk", "applyChunk", "sanityCheck2", "finish"]

  /** `SyncMediaHandler.operations`. */
  const MediaOps: seq<string> := ["begin", "mediaChanges", "mediaSanity", "uploadChanges", "downloadFiles"]

  datatype Family = CollectionFamily | MediaFamily

  /** The family whose handler serves an operation; the collection family is asked first. */
  function FamilyOf(op: string): (r: Option<Family>)
    ensures r == Some(CollectionFamily) <==> op in CollectionOps
    ensures r == Some(MediaFamily) <==> op in MediaOps
    ensures r == None <==> op !in CollectionOps && op !in MediaOps
  {
    if op in CollectionOps then Some(CollectionFamily)
    else if op in MediaOps then Some(MediaFamily)
    else None
  }

  /** The handler `get_handler_for_operation` hands out. */
  datatype Handler = CollectionSide(ch: CollectionHandler) | MediaSide(mh: MediaHandler)

  /** The message of the exception raised for an operation no family serves. */
  function NoHandlerMessage(op: string): string {
    "no handler for " + op
  }

  class UserSession {
    /** The media session key; the server generates one, a stored session may lack it. */
    var skey: Option<string>
    /** The user name given to `hostKey`. */
    const name: Value
    /** The user's directory. */
    const path: string
    /** The `v` and `cv` last sent with `meta`; `Null` until then. */
    var version: Value
    var clientVersion: Value
    /** The handler of each family, created on first use. */
    var collectionHandler: CollectionHandler?
    var mediaHandler: MediaHandler?

    /** `SyncUserSession(name, path, ...)`, with the random session key passed in. */
    constructor(skey: string, name: Value, path: string)
      ensures this.skey == Some(skey) && this.name == name && this.path == path
      ensures version == Null && clientVersion == Null
      ensures collectionHandler == null && mediaHandler == null
    {
      this.skey := Some(skey);
      this.name := name;
      this.path := path;
      this.version := Null;
      this.clientVersion := Null;
      this.collectionHandler := null;
      this.mediaHandler := null;
    }

    /** The collection handler with the collection and the sync window it holds; `None` before it is created. */
    function CollectionState(): Option<(CollectionHandler, Collection, int, int, bool)>
      reads this, collectionHandler
    {
      if collectionHandler == null then None
      else
        var h: CollectionHandler := collectionHandler;
        Some((h, h.col, h.minUsn, h.maxUsn, h.lnewer))
    }

    /** The media handler with the collection it holds; `None` before it is created. */
    function MediaState(): Option<(MediaHandler, Collection)>
      reads this, mediaHandler
    {
      if mediaHandler == null then None
      else
        var h: MediaHandler := mediaHandler;
        Some((h, h.col))
    }

    /** Each handler this session holds was created by it. */
    ghost predicate OwnsHandlers()
      reads this
    {
      (collectionHandler != null ==> collectionHandler.owner == this)
      && (mediaHandler != null ==> mediaHandler.owner == this)
    }

    /** A handler, once created, stays; a handler that appears is a new object. */
    twostate predicate HandlersKept()
      reads this
    {
      (collectionHandler == old(collectionHandler) || (collectionHandler != null && fresh(collectionHandler)))
      && (mediaHandler == old(mediaHandler) || (mediaHandler != null && fresh(mediaHandler)))
    }

    /**
     * `get_handler_for_operation(operation, col)`: the handler of the
     * operation's family, created on first use and bound to `col` every time;
     * the other family's handler is not touched. An operation of no family raises.
     */
    method GetHandlerForOperation(op: string, col: Collection) returns (r: Result<Handler, string>)
      modifies this`collectionHandler, this`mediaHandler, collectionHandler, mediaHandler
      ensures HandlersKept()
      ensures old(OwnsHandlers()) ==> OwnsHandlers()
      ensures FamilyOf(op) == None ==>
        r == Failure(NoHandlerMessage(op))
        && CollectionState() == old(CollectionState()) && MediaState() == old(MediaState())
      ensures FamilyOf(op) == Some(CollectionFamily) ==>
        collectionHandler != null && r == Success(CollectionSide(collectionHandler))
        && collectionHandler.col == col
        && (old(collectionHandler) != null ==>
              collectionHandler == old(collectionHandler)
              && collectionHandler.minUsn == old(collectionHandler.minUsn)
              && collectionHandler.maxUsn == old(collectionHandler.maxUsn)
              && collectionHandler.lnewer == old(collectionHandler.lnewer))
        && (old(collectionHandler) == null ==> fresh(collectionHandler))
        && MediaState() == old(MediaState())
      ensures FamilyOf(op) == Some(MediaFamily) ==>
        mediaHandler != null && r == Success(MediaSide(mediaHandler))
        && mediaHandler.col == col
        && (old(mediaHandler) != null ==> mediaHandler == old(mediaHandler))
        && (old(mediaHandler) == null ==> fresh(mediaHandler))
        && CollectionState() == old(CollectionState())
    {
      match FamilyOf(op)
      case None =>
        return Failure(NoHandlerMessage(op));
      case Some(CollectionFamily) =>
        if collectionHandler == null {
          collectionHandler := new CollectionHandler(col, this);
        }
        collectionHandler.col := col;
        return Success(CollectionSide(collectionHandler));
      case Some(MediaFamily) =>
        if mediaHandler == null {
          mediaHandler := new MediaHandler(col, this);
        }
        mediaHandler.col := col;
        return Success(MediaSide(mediaHandler));
    }
  }

  /** The two families serve disjoint operations, thirteen in all. */
  lemma FamiliesDisjoint(op: string)
    ensures !(op in CollectionOps && op in MediaOps)
    ensures |CollectionOps| + |MediaOps| == 13
  {
  }
}
