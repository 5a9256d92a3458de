/**
 * `SyncApp`: the WSGI entry point. It resolves the session of a request,
 * decodes its body, routes it by URL to the host-key login, a collection or
 * media operation, or a full upload or download, and runs the hooks
 * registered for the operation around it.
 */
module App {
  import opened Wrappers
  import opened Text
  import opened Anki
  import opened Sessions

  /** `SyncApp.valid_urls`. */
  const ValidUrls: seq<string> := CollectionOps + MediaOps + ["hostKey", "upload", "download"]

  /** A decoded request body: a JSON object. */
  type Data = map<string, Value>

  /** `data.get(key)`: JSON `null` and a missing key both read as `None`. */
  function Get(data: Data, key: string): Value {
    if key in data then data[key] else Null
  }

  /** A pre- or post-hook callable, known by its identity. */
  datatype Hook = Hook(id: nat)

  /** The configuration keys the app reads. */
  datatype Config = Config(dataRoot: string, baseUrl: string, baseMediaUrl: string)

  /** The POST fields of a request: `k`, `sk`, `c`, `s` and the `data` file. */
  datatype Request = Request(
    path: string,
    k: Option<string>,
    sk: Option<string>,
    c: Option<string>,
    s: Option<string>,
    data: Option<Bytes>)

  /**
   * The collaborators of one request: the user manager, gzip and JSON, the
   * fresh host key and session key this request would generate, and whether
   * an operation raises on its arguments: the handler method of a sync or
   * media operation, or the full-sync manager for `upload` and `download`.
   */
  datatype Env = Env(
    authenticate: (Value, Value) -> bool,
    userdir: Value -> Option<string>,
    gunzip: Bytes -> Option<Bytes>,
    parseJson: Bytes -> Option<Data>,
    hostKey: string,
    sessionKey: string,
    raises: (string, Data) -> bool)

  /** An exception that escapes `__call__`. */
  datatype CallError =
    | BadCompression(text: string)   // `int(req.POST['c'])` raised
    | BadGzip                        // the gzip stream could not be read
    | NoHandler(msg: string)         // `get_handler_for_operation` raised
    | HandlerRaised(op: string)      // the handler method or the full sync itself raised
    | MissingUploadData              // `data['data']` raised for `upload`

  /** What `__call__` answers. */
  datatype Response =
    | Banner                         // "Anki Sync Server"
    | HostKeyReply(key: string)      // `json.dumps({'key': hkey})`
    | Handled(op: string)            // the handler's result, serialised
    | FullSync(op: string)           // the full-sync manager's result
    | NotFound                       // `HTTPNotFound`
    | Forbidden(body: Option<string>) // `HTTPForbidden()` or `HTTPForbidden('null')`
    | InternalError                  // `HTTPInternalServerError`
    | Raised(error: CallError)

  /** What runs on the session's collection worker, in order. */
  datatype Event =
    | RanHook(hook: Hook, op: string)
    | RanHandler(op: string, args: Data)
    | Saved
    | FullUpload(payload: Value)
    | FullDownload

  /** The normalisation `__init__` applies to both base URLs. */
  function WithTrailingSlash(url: string): (r: string)
    ensures EndsWith(r, "/")
    ensures StartsWith(r, url) && |r| <= |url| + 1
    ensures EndsWith(url, "/") ==> r == url
  {
    if EndsWith(url, "/") then url else url + "/"
  }

  /** The hook registered under `op` in `hooks`, as the event it runs. */
  function HookEvents(hooks: map<string, Hook>, op: string): (r: seq<Event>)
    ensures |r| <= 1
    ensures r != [] <==> op in hooks
    ensures r != [] ==> r[0] == RanHook(hooks[op], op)
  {
    if op in hooks then [RanHook(hooks[op], op)] else []
  }

  /** `int(req.POST['c'])`, `0` when absent. */
  function Compression(c: Option<string>): (r: Result<int, CallError>)
    ensures c == None ==> r == Success(0)
    ensures c.Some? ==> (r.Success? <==> ParseInt(c.value).Some?)
    ensures c.Some? && r.Success? ==> r.value == ParseInt(c.value).value
    ensures r.Failure? ==> r.error == BadCompression(c.value)
  {
    match c
    case None => Success(0)
    case Some(text) =>
      match ParseInt(text)
      case None => Failure(BadCompression(text))
      case Some(n) => Success(n)
  }

  /** The body `_decode_data` hands to the JSON decoder: gunzipped when `compression` is non-zero. */
  function Inflate(raw: Bytes, compression: int, env: Env): Option<Bytes> {
    if compression != 0 then env.gunzip(raw) else Some(raw)
  }

  /**
   * `_decode_data(data, compression)`: a non-zero `compression` gunzips
   * first; a body that is not JSON is wrapped as `{'data': body}`.
   */
  function DecodeData(raw: Bytes, compression: int, env: Env): (r: Result<Data, CallError>)
    ensures r.Failure? <==> compression != 0 && env.gunzip(raw).None?
    ensures r.Failure? ==> r.error == BadGzip
  {
    match Inflate(raw, compression, env)
    case None => Failure(BadGzip)
    case Some(b) =>
      match env.parseJson(b)
      case Some(d) => Success(d)
      case None => Success(map["data" := Raw(b)])
  }

  /** A body that decodes as JSON, after gunzip when compressed, reaches the handler as decoded. */
  lemma ParsedBodyKept(raw: Bytes, compression: int, env: Env)
    requires compression == 0 || env.gunzip(raw).Some?
    requires env.parseJson(Inflate(raw, compression, env).value).Some?
    ensures compression == 0 ==> DecodeData(raw, compression, env) == Success(env.parseJson(raw).value)
    ensures compression != 0 ==> DecodeData(raw, compression, env) == Success(env.parseJson(env.gunzip(raw).value).value)
  {
  }

  /**
   * A body that is not JSON, after gunzip when compressed, reaches the
   * handler as its `data` argument, byte for byte as decompressed.
   */
  lemma UndecodableBodyKept(raw: Bytes, compression: int, env: Env)
    requires compression == 0 || env.gunzip(raw).Some?
    requires env.parseJson(Inflate(raw, compression, env).value).None?
    ensures compression == 0 ==> DecodeData(raw, compression, env) == Success(map["data" := Raw(raw)])
    ensures compression != 0 ==> DecodeData(raw, compression, env) == Success(map["data" := Raw(env.gunzip(raw).value)])
    ensures Get(DecodeData(raw, compression, env).value, "data") == Raw(Inflate(raw, compression, env).value)
  {
  }

  /** The decoded body of a request: `{}` without a `data` field; `c` is read first. */
  function DecodeRequest(req: Request, env: Env): (r: Result<Data, CallError>)
    ensures Compression(req.c).Failure? ==> r == Failure(Compression(req.c).error)
    ensures Compression(req.c).Success? && req.data.None? ==> r == Success(map[])
    ensures Compression(req.c).Success? && req.data.Some? ==>
      r == DecodeData(req.data.value, Compression(req.c).value, env)
  {
    match Compression(req.c)
    case Failure(e) => Failure(e)
    case Success(compression) =>
      match req.data
      case None => Success(map[])
      case Some(raw) => DecodeData(raw, compression, env)
  }

  /** Where `__call__` sends a request, once its session has been looked up. */
  datatype Route =
    | NotFoundRoute
    | HostKeyRoute
    | ForbiddenRoute
    | SyncRoute(op: string)
    | FullSyncRoute(op: string)
    | InternalErrorRoute
    | MediaRoute(op: string)
    | BannerRoute

  /** The routing decision of `__call__` for a path, given whether a session was found. */
  function RouteOf(path: string, baseUrl: string, baseMediaUrl: string, hasSession: bool): (r: Route)
    ensures r != InternalErrorRoute
    ensures r == BannerRoute <==> !StartsWith(path, baseUrl) && !StartsWith(path, baseMediaUrl)
    ensures r == HostKeyRoute <==> StartsWith(path, baseUrl) && path[|baseUrl|..] == "hostKey"
    ensures r == ForbiddenRoute ==> !hasSession
    ensures r.SyncRoute? ==>
      hasSession && StartsWith(path, baseUrl) && r.op == path[|baseUrl|..] && FamilyOf(r.op).Some?
    ensures r.FullSyncRoute? ==>
      hasSession && StartsWith(path, baseUrl) && r.op == path[|baseUrl|..]
      && (r.op == "upload" || r.op == "download")
    ensures r.MediaRoute? ==>
      hasSession && !StartsWith(path, baseUrl) && StartsWith(path, baseMediaUrl)
      && r.op == path[|baseMediaUrl|..] && r.op in ValidUrls
  {
    if StartsWith(path, baseUrl) then
      var url := path[|baseUrl|..];
      if url !in ValidUrls then NotFoundRoute
      else if url == "hostKey" then HostKeyRoute
      else if !hasSession then ForbiddenRoute
      else if url in CollectionOps + MediaOps then SyncRoute(url)
      else if url == "upload" || url == "download" then FullSyncRoute(url)
      else InternalErrorRoute
    else if StartsWith(path, baseMediaUrl) then
      if !hasSession then ForbiddenRoute
      else
        var url := path[|baseMediaUrl|..];
        if url !in ValidUrls then NotFoundRoute else MediaRoute(url)
    else BannerRoute
  }

  /** Under `base_url` an unknown name is 404 whether or not a session was found. */
  lemma UnknownNameNotFound(path: string, baseUrl: string, baseMediaUrl: string, hasSession: bool)
    requires StartsWith(path, baseUrl) && path[|baseUrl|..] !in ValidUrls
    ensures RouteOf(path, baseUrl, baseMediaUrl, hasSession) == NotFoundRoute
  {
  }

  /** Every known name other than `hostKey` under `base_url` needs a session. */
  lemma SessionRequired(path: string, baseUrl: string, baseMediaUrl: string)
    requires StartsWith(path, baseUrl)
    requires path[|baseUrl|..] in ValidUrls && path[|baseUrl|..] != "hostKey"
    ensures RouteOf(path, baseUrl, baseMediaUrl, false) == ForbiddenRoute
  {
  }

  /** Under `base_media_url` a request without a session is 403 even for an unknown name. */
  lemma MediaSessionCheckedFirst(path: string, baseUrl: string, baseMediaUrl: string)
    requires !StartsWith(path, baseUrl) && StartsWith(path, baseMediaUrl)
    ensures RouteOf(path, baseUrl, baseMediaUrl, false) == ForbiddenRoute
  {
  }

  /**
   * Under `base_media_url` the name check admits every valid URL: `hostKey`,
   * `upload` and `download` reach `get_handler_for_operation`, which raises,
   * and a collection operation is served by the collection handler.
   */
  lemma MediaPathAdmitsAnyValidName(path: string, baseUrl: string, baseMediaUrl: string)
    requires !StartsWith(path, baseUrl) && StartsWith(path, baseMediaUrl)
    requires path[|baseMediaUrl|..] in ValidUrls
    ensures RouteOf(path, baseUrl, baseMediaUrl, true) == MediaRoute(path[|baseMediaUrl|..])
    ensures path[|baseMediaUrl|..] in ["hostKey", "upload", "download"] ==>
      FamilyOf(path[|baseMediaUrl|..]) == None
    ensures path[|baseMediaUrl|..] in CollectionOps ==>
      FamilyOf(path[|baseMediaUrl|..]) == Some(CollectionFamily)
  {
  }

  /** `StartsWith` is transitive. */
  lemma StartsWithTrans(s: string, t: string, u: string)
    requires StartsWith(s, t) && StartsWith(t, u)
    ensures StartsWith(s, u)
  {
    assert s[..|u|] == s[..|t|][..|u|];
  }

  /**
   * A `base_media_url` that extends `base_url` is unreachable: the base URL
   * is tried first, so no request is ever routed to the media branch.
   */
  lemma ShadowedMediaUrl(path: string, baseUrl: string, baseMediaUrl: string, hasSession: bool)
    requires StartsWith(baseMediaUrl, baseUrl)
    ensures !RouteOf(path, baseUrl, baseMediaUrl, hasSession).MediaRoute?
    ensures !RouteOf(path, baseUrl, baseMediaUrl, hasSession).BannerRoute? ==> StartsWith(path, baseUrl)
  {
    if StartsWith(path, baseMediaUrl) {
      StartsWithTrans(path, baseMediaUrl, baseUrl);
    }
  }

  /** The value `begin` receives as `skey`. */
  function SkeyValue(skey: Option<string>): Value {
    match skey
    case Some(k) => Str(k)
    case None => Null
  }

  /** The keyword arguments of a media-path operation: `begin` gets the session's key. */
  function MediaArgs(op: string, data: Data, skey: Option<string>): (r: Data)
    ensures op == "begin" ==> "skey" in r && r["skey"] == SkeyValue(skey)
    ensures forall key :: key in data && (op != "begin" || key != "skey") ==> key in r && r[key] == data[key]
    ensures r.Keys <= data.Keys + {"skey"}
  {
    if op == "begin" then data["skey" := SkeyValue(skey)] else data
  }

  /** The session key `meta` leaves on a session: a client's `s` is adopted only by a session without one. */
  function MetaSkey(current: Option<string>, s: Option<string>): (r: Option<string>)
    ensures current.Some? ==> r == current
    ensures current.None? ==> r == s
  {
    if current == None && s.Some? then s else current
  }

  /** Whether some stored session carries the session key `sk`. */
  predicate HasSkey(store: map<Option<string>, UserSession>, sk: string)
    reads store.Values
  {
    exists t :: t in store.Values && t.skey == Some(sk)
  }

  /** Whether `__call__` finds a session: by `k`, or failing that by `sk`. */
  predicate Found(store: map<Option<string>, UserSession>, k: Option<string>, sk: Option<string>)
    reads store.Values
  {
    k in store || (sk.Some? && HasSkey(store, sk.value))
  }

  /** The sessions of a store and the handlers they cache: what a request may change. */
  function SessionObjects(store: map<Option<string>, UserSession>): (r: set<object>)
    reads store.Values
    ensures forall s :: s in store.Values ==> s in r
    ensures forall s :: s in store.Values && s.collectionHandler != null ==> s.collectionHandler in r
    ensures forall s :: s in store.Values && s.mediaHandler != null ==> s.mediaHandler in r
  {
    (set s | s in store.Values :: s as object)
    + (set s | s in store.Values && s.collectionHandler != null :: s.collectionHandler as object)
    + (set s | s in store.Values && s.mediaHandler != null :: s.mediaHandler as object)
  }

  /**
   * Every stored session holds only handlers it created itself, so no two
   * sessions share a handler and serving one leaves the others as they were.
   */
  ghost predicate HandlersUnshared(store: map<Option<string>, UserSession>)
    reads store.Values
  {
    forall t :: t in store.Values ==> t.OwnsHandlers()
  }

  /** The objects serving a request may change: its session and that session's handlers. */
  function Held(session: UserSession?): (r: set<object>)
    reads session
    ensures session != null ==> session in r
    ensures session != null && session.collectionHandler != null ==> session.collectionHandler in r
    ensures session != null && session.mediaHandler != null ==> session.mediaHandler in r
  {
    if session == null then {}
    else
      {session as object}
      + (if session.collectionHandler != null then {session.collectionHandler as object} else {})
      + (if session.mediaHandler != null then {session.mediaHandler as object} else {})
  }

  /** A session and the handlers it holds are exactly as they were. */
  twostate predicate SessionUntouched(t: UserSession)
    reads t, t.collectionHandler, t.mediaHandler
  {
    unchanged(t)
    && (t.collectionHandler != null ==> unchanged(t.collectionHandler))
    && (t.mediaHandler != null ==> unchanged(t.mediaHandler))
  }

  class SyncApp {
    const dataRoot: string
    /** The base URLs, fixed once `__init__` has normalised them. */
    const baseUrl: string
    const baseMediaUrl: string
    var prehooks: map<string, Hook>
    var posthooks: map<string, Hook>
    /** The session manager's store, keyed by host key. */
    var sessions: map<Option<string>, UserSession>
    /** What has run on the collection workers, in order. */
    var trace: seq<Event>

    /** `SyncApp(config)`: both base URLs end in a slash. */
    constructor(config: Config)
      ensures dataRoot == config.dataRoot
      ensures baseUrl == WithTrailingSlash(config.baseUrl)
      ensures baseMediaUrl == WithTrailingSlash(config.baseMediaUrl)
      ensures prehooks == map[] && posthooks == map[]
      ensures sessions == map[] && trace == []
      ensures HandlersUnshared(sessions)
    {
      dataRoot := config.dataRoot;
      var url := config.baseUrl;
      if !EndsWith(url, "/") {
        url := url + "/";
      }
      baseUrl := url;
      var mediaUrl := config.baseMediaUrl;
      if !EndsWith(mediaUrl, "/") {
        mediaUrl := mediaUrl + "/";
      }
      baseMediaUrl := mediaUrl;
      prehooks := map[];
      posthooks := map[];
      sessions := map[];
      trace := [];
    }

    /** `hook_pre_sync`: the pre-hook of `start`. */
    function HookPreSync(): (r: Option<Hook>)
      reads this
      ensures r.Some? <==> "start" in prehooks
      ensures r.Some? ==> HookEvents(prehooks, "start") == [RanHook(r.value, "start")]
    {
      if "start" in prehooks then Some(prehooks["start"]) else None
    }

    method SetHookPreSync(value: Hook)
      modifies this`prehooks
      ensures prehooks == old(prehooks)["start" := value]
      ensures HookPreSync() == Some(value)
    {
      prehooks := prehooks["start" := value];
    }

    /** `hook_post_sync`: the post-hook of `finish`. */
    function HookPostSync(): (r: Option<Hook>)
      reads this
      ensures r.Some? <==> "finish" in posthooks
      ensures r.Some? ==> HookEvents(posthooks, "finish") == [RanHook(r.value, "finish")]
    {
      if "finish" in posthooks then Some(posthooks["finish"]) else None
    }

    method SetHookPostSync(value: Hook)
      modifies this`posthooks
      ensures posthooks == old(posthooks)["finish" := value]
      ensures HookPostSync() == Some(value)
    {
      posthooks := posthooks["finish" := value];
    }

    /** `hook_upload`: the pre-hook of `upload`. */
    function HookUpload(): (r: Option<Hook>)
      reads this
      ensures r.Some? <==> "upload" in prehooks
      ensures r.Some? ==> HookEvents(prehooks, "upload") == [RanHook(r.value, "upload")]
    {
      if "upload" in prehooks then Some(prehooks["upload"]) else None
    }

    method SetHookUpload(value: Hook)
      modifies this`prehooks
      ensures prehooks == old(prehooks)["upload" := value]
      ensures HookUpload() == Some(value)
    {
      prehooks := prehooks["upload" := value];
    }

    /** `hook_download`: the post-hook of `download`. */
    function HookDownload(): (r: Option<Hook>)
      reads this
      ensures r.Some? <==> "download" in posthooks
      ensures r.Some? ==> HookEvents(posthooks, "download") == [RanHook(r.value, "download")]
    {
      if "download" in posthooks then Some(posthooks["download"]) else None
    }

    method SetHookDownload(value: Hook)
      modifies this`posthooks
      ensures posthooks == old(posthooks)["download" := value]
      ensures HookDownload() == Some(value)
    {
      posthooks := posthooks["download" := value];
    }

    /**
     * `session_manager.load(k)`, then `load_from_skey(sk)` when that found
     * nothing and `sk` was sent.
     */
    method LoadSession(k: Option<string>, sk: Option<string>) returns (s: UserSession?)
      ensures (s != null) == Found(sessions, k, sk)
      ensures s != null ==> s in sessions.Values
      ensures k in sessions ==> s == sessions[k]
      ensures k !in sessions && s != null ==> s.skey == sk
    {
      if k in sessions {
        return sessions[k];
      }
      if sk.Some? && HasSkey(sessions, sk.value) {
        var t :| t in sessions.Values && t.skey == Some(sk.value);
        return t;
      }
      return null;
    }

    /**
     * `operation_hostKey(u, p)`: an authenticated user with a directory gets
     * a fresh session stored under a fresh host key; otherwise nothing changes.
     */
    method OperationHostKey(u: Value, p: Value, env: Env) returns (r: Option<string>)
      modifies this`sessions
      ensures !env.authenticate(u, p) || env.userdir(u).None? ==>
        r == None && sessions == old(sessions)
      ensures env.authenticate(u, p) && env.userdir(u).Some? ==>
        r == Some(env.hostKey) && r in sessions
        && sessions == old(sessions)[r := sessions[r]]
        && fresh(sessions[r])
        && sessions[r].name == u
        && sessions[r].path == JoinPath(dataRoot, env.userdir(u).value)
        && sessions[r].skey == Some(env.sessionKey)
        && sessions[r].collectionHandler == null && sessions[r].mediaHandler == null
    {
      if !env.authenticate(u, p) {
        return None;
      }
      var dirname := env.userdir(u);
      if dirname.None? {
        return None;
      }
      var hkey := env.hostKey;
      var userPath := JoinPath(dataRoot, dirname.value);
      var session := new UserSession(env.sessionKey, u, userPath);
      sessions := sessions[Some(hkey) := session];
      return Some(hkey);
    }

    /**
     * `_execute_handler_method_in_thread(op, args, session)`: look up the
     * handler, run the operation, save the collection. A handler that raises
     * skips the save.
     */
    method ExecuteHandler(op: string, args: Data, session: UserSession, col: Collection, env: Env)
      returns (r: Result<Response, CallError>)
      modifies this`trace, session`collectionHandler, session`mediaHandler
      modifies session.collectionHandler, session.mediaHandler
      ensures FamilyOf(op).None? ==> r == Failure(NoHandler(NoHandlerMessage(op))) && trace == old(trace)
      ensures FamilyOf(op).Some? && env.raises(op, args) ==>
        r == Failure(HandlerRaised(op)) && trace == old(trace) + [RanHandler(op, args)]
      ensures FamilyOf(op).Some? && !env.raises(op, args) ==>
        r == Success(Handled(op)) && trace == old(trace) + [RanHandler(op, args), Saved]
      ensures FamilyOf(op) == Some(CollectionFamily) ==>
        session.collectionHandler != null && session.collectionHandler.col == col
      ensures FamilyOf(op) == Some(MediaFamily) ==>
        session.mediaHandler != null && session.mediaHandler.col == col
      ensures FamilyOf(op) != Some(CollectionFamily) ==> session.CollectionState() == old(session.CollectionState())
      ensures FamilyOf(op) != Some(MediaFamily) ==> session.MediaState() == old(session.MediaState())
      ensures session.HandlersKept()
      ensures old(session.OwnsHandlers()) ==> session.OwnsHandlers()
      ensures old(session.OwnsHandlers()) ==>
        forall t: UserSession :: old(allocated(t)) && t != session && old(t.OwnsHandlers()) ==> SessionUntouched(t)
    {
      var handler := session.GetHandlerForOperation(op, col);
      if handler.Failure? {
        return Failure(NoHandler(handler.error));
      }
      trace := trace + [RanHandler(op, args)];
      if env.raises(op, args) {
        return Failure(HandlerRaised(op));
      }
      trace := trace + [Saved];
      return Success(Handled(op));
    }

    /**
     * The session bootstrapping of `meta`: adopt the client's `s` only when
     * the session has no key, record `v` and `cv` only when sent, then save
     * the session under `k` and load it back.
     */
    method MetaBootstrap(data: Data, session: UserSession, k: Option<string>, s: Option<string>)
      returns (reloaded: UserSession)
      modifies this`sessions, session`skey, session`version, session`clientVersion
      ensures sessions == old(sessions)[k := session] && reloaded == session
      ensures forall t :: t in sessions.Values ==> t in old(sessions).Values || t == session
      ensures session.skey == MetaSkey(old(session.skey), s)
      ensures session.version == (if "v" in data then data["v"] else old(session.version))
      ensures session.clientVersion == (if "cv" in data then data["cv"] else old(session.clientVersion))
    {
      if session.skey == None && s.Some? {
        session.skey := s;
      }
      if "v" in data {
        session.version := data["v"];
      }
      if "cv" in data {
        session.clientVersion := data["cv"];
      }
      sessions := sessions[k := session];
      reloaded := sessions[k];
    }

    /**
     * The worker part of a collection or media operation under `base_url`:
     * pre-hook, operation, save, post-hook. An operation that raises stops
     * the sequence after itself.
     */
    method RunBetweenHooks(op: string, data: Data, session: UserSession, col: Collection, env: Env) returns (resp: Response)
      requires FamilyOf(op).Some?
      modifies this`trace, session`collectionHandler, session`mediaHandler, session.collectionHandler, session.mediaHandler
      ensures !env.raises(op, data) ==>
        resp == Handled(op)
        && trace == old(trace) + HookEvents(prehooks, op) + [RanHandler(op, data), Saved] + HookEvents(posthooks, op)
      ensures env.raises(op, data) ==>
        resp == Raised(HandlerRaised(op)) && trace == old(trace) + HookEvents(prehooks, op) + [RanHandler(op, data)]
      ensures FamilyOf(op) != Some(CollectionFamily) ==> session.CollectionState() == old(session.CollectionState())
      ensures FamilyOf(op) != Some(MediaFamily) ==> session.MediaState() == old(session.MediaState())
      ensures session.HandlersKept()
      ensures old(session.OwnsHandlers()) ==> session.OwnsHandlers()
      ensures old(session.OwnsHandlers()) ==>
        forall t: UserSession :: old(allocated(t)) && t != session && old(t.OwnsHandlers()) ==> SessionUntouched(t)
    {
      trace := trace + HookEvents(prehooks, op);
      var result := ExecuteHandler(op, data, session, col, env);
      if result.Failure? {
        return Raised(result.error);
      }
      trace := trace + HookEvents(posthooks, op);
      return Handled(op);
    }

    /**
     * The outcome of a collection or media operation under `base_url`: the
     * pre-hook, the operation, the save and the post-hook run in that order,
     * and an operation that raises ends the sequence and becomes the response.
     * `meta` first adopts `s`, records `v` and `cv` when sent and stores the
     * session under `k`; any other operation leaves those alone. The handler
     * of the family the operation does not belong to is untouched.
     */
    twostate predicate SyncServed(op: string, data: Data, session: UserSession, k: Option<string>, s: Option<string>, env: Env, resp: Response)
      reads this, session, session.collectionHandler, session.mediaHandler
    {
      (!env.raises(op, data) ==>
         resp == Handled(op)
         && trace == old(trace) + HookEvents(prehooks, op) + [RanHandler(op, data), Saved] + HookEvents(posthooks, op))
      && (env.raises(op, data) ==>
         resp == Raised(HandlerRaised(op)) && trace == old(trace) + HookEvents(prehooks, op) + [RanHandler(op, data)])
      && (op == "meta" ==>
         sessions == old(sessions)[k := session]
         && session.skey == MetaSkey(old(session.skey), s)
         && session.version == (if "v" in data then data["v"] else old(session.version))
         && session.clientVersion == (if "cv" in data then data["cv"] else old(session.clientVersion)))
      && (op != "meta" ==>
         sessions == old(sessions) && session.skey == old(session.skey)
         && session.version == old(session.version) && session.clientVersion == old(session.clientVersion))
      && (FamilyOf(op) != Some(CollectionFamily) ==> session.CollectionState() == old(session.CollectionState()))
      && (FamilyOf(op) != Some(MediaFamily) ==> session.MediaState() == old(session.MediaState()))
    }

    /**
     * A collection or media operation under `base_url`: `meta` first
     * bootstraps the session; then the operation runs between its hooks.
     */
    method ServeSync(op: string, data: Data, session: UserSession, k: Option<string>, s: Option<string>, col: Collection, env: Env)
      returns (resp: Response)
      requires FamilyOf(op).Some?
      requires session in sessions.Values && HandlersUnshared(sessions)
      modifies this`sessions, this`trace, session`skey, session`version, session`clientVersion
      modifies session`collectionHandler, session`mediaHandler, session.collectionHandler, session.mediaHandler
      ensures SyncServed(op, data, session, k, s, env, resp)
      ensures HandlersUnshared(sessions)
      ensures forall t :: t in old(sessions).Values && t != session ==> SessionUntouched(t)
    {
      if op == "meta" {
        var _ := MetaBootstrap(data, session, k, s);
      }
      resp := RunBetweenHooks(op, data, session, col, env);
    }

    /**
     * The outcome of `upload` or `download` under `base_url`: the pre-hook,
     * the full sync and the post-hook, where a full sync that raises ends the
     * sequence and an upload without `data` raises after the pre-hook.
     */
    twostate predicate FullSyncServed(op: string, data: Data, env: Env, resp: Response)
      reads this
    {
      sessions == old(sessions)
      && (op == "upload" && "data" !in data ==>
            resp == Raised(MissingUploadData) && trace == old(trace) + HookEvents(prehooks, op))
      && (op == "upload" && "data" in data && !env.raises(op, data) ==>
            resp == FullSync(op)
            && trace == old(trace) + HookEvents(prehooks, op) + [FullUpload(data["data"])] + HookEvents(posthooks, op))
      && (op == "upload" && "data" in data && env.raises(op, data) ==>
            resp == Raised(HandlerRaised(op)) && trace == old(trace) + HookEvents(prehooks, op) + [FullUpload(data["data"])])
      && (op == "download" && !env.raises(op, data) ==>
            resp == FullSync(op)
            && trace == old(trace) + HookEvents(prehooks, op) + [FullDownload] + HookEvents(posthooks, op))
      && (op == "download" && env.raises(op, data) ==>
            resp == Raised(HandlerRaised(op)) && trace == old(trace) + HookEvents(prehooks, op) + [FullDownload])
    }

    /** `upload` or `download` under `base_url`. */
    method ServeFullSync(op: string, data: Data, env: Env) returns (resp: Response)
      requires op == "upload" || op == "download"
      modifies this`trace
      ensures FullSyncServed(op, data, env, resp)
    {
      trace := trace + HookEvents(prehooks, op);
      if op == "upload" {
        if "data" !in data {
          return Raised(MissingUploadData);
        }
        trace := trace + [FullUpload(data["data"])];
      } else {
        trace := trace + [FullDownload];
      }
      if env.raises(op, data) {
        return Raised(HandlerRaised(op));
      }
      trace := trace + HookEvents(posthooks, op);
      return FullSync(op);
    }

    /**
     * The outcome of an operation under `base_media_url`: no hooks; the
     * operation runs on its arguments, `begin` given the session's key, and
     * is saved unless it raises; an operation of no family raises. The
     * session's own fields and the other family's handler are untouched.
     */
    twostate predicate MediaServed(op: string, data: Data, session: UserSession, env: Env, resp: Response)
      reads this, session, session.collectionHandler, session.mediaHandler
    {
      var args := MediaArgs(op, data, old(session.skey));
      sessions == old(sessions) && session.skey == old(session.skey)
      && session.version == old(session.version) && session.clientVersion == old(session.clientVersion)
      && (FamilyOf(op).None? ==> resp == Raised(NoHandler(NoHandlerMessage(op))) && trace == old(trace))
      && (FamilyOf(op).Some? && !env.raises(op, args) ==>
            resp == Handled(op) && trace == old(trace) + [RanHandler(op, args), Saved])
      && (FamilyOf(op).Some? && env.raises(op, args) ==>
            resp == Raised(HandlerRaised(op)) && trace == old(trace) + [RanHandler(op, args)])
      && (FamilyOf(op) != Some(CollectionFamily) ==> session.CollectionState() == old(session.CollectionState()))
      && (FamilyOf(op) != Some(MediaFamily) ==> session.MediaState() == old(session.MediaState()))
    }

    /** An operation under `base_media_url`. */
    method ServeMedia(op: string, data: Data, session: UserSession, col: Collection, env: Env) returns (resp: Response)
      requires session in sessions.Values && HandlersUnshared(sessions)
      modifies this`trace, session`collectionHandler, session`mediaHandler
      modifies session.collectionHandler, session.mediaHandler
      ensures MediaServed(op, data, session, env, resp)
      ensures HandlersUnshared(sessions)
      ensures forall t :: t in old(sessions).Values && t != session ==> SessionUntouched(t)
    {
      var args := MediaArgs(op, data, session.skey);
      var result := ExecuteHandler(op, args, session, col, env);
      match result
      case Failure(e) => return Raised(e);
      case Success(reply) => return reply;
    }

    /** The route of a request, given whether its session was found. */
    function RouteFor(req: Request, hasSession: bool): Route
      reads this
    {
      RouteOf(req.path, baseUrl, baseMediaUrl, hasSession)
    }

    /**
     * The outcome of `hostKey` under `base_url`: an authenticated user with a
     * directory gets the key of a new session stored under it; otherwise 403
     * with the JSON body `null` and nothing stored. Nothing runs on a worker.
     */
    twostate predicate HostKeyServed(data: Data, env: Env, resp: Response)
      reads this
    {
      var u := Get(data, "u");
      trace == old(trace)
      && (env.authenticate(u, Get(data, "p")) && env.userdir(u).Some? ==>
            resp == HostKeyReply(env.hostKey) && Some(env.hostKey) in sessions
            && sessions == old(sessions)[Some(env.hostKey) := sessions[Some(env.hostKey)]]
            && fresh(sessions[Some(env.hostKey)]))
      && (!env.authenticate(u, Get(data, "p")) || env.userdir(u).None? ==>
            resp == Forbidden(Some("null")) && sessions == old(sessions))
    }

    /** `hostKey` under `base_url`. */
    method ServeHostKey(data: Data, env: Env) returns (resp: Response)
      requires HandlersUnshared(sessions)
      modifies this`sessions
      ensures HostKeyServed(data, env, resp)
      ensures HandlersUnshared(sessions)
      ensures forall t :: t in old(sessions).Values ==> SessionUntouched(t)
    {
      var hkey := OperationHostKey(Get(data, "u"), Get(data, "p"), env);
      resp := if hkey.Some? then HostKeyReply(hkey.value) else Forbidden(Some("null"));
    }

    /** The routes that need a session: a sync operation under `base_url`, or any operation under `base_media_url`. */
    method ServeSession(route: Route, req: Request, data: Data, session: UserSession, col: Collection, env: Env) returns (resp: Response)
      requires route.SyncRoute? || route.MediaRoute?
      requires route.SyncRoute? ==> FamilyOf(route.op).Some?
      requires session in sessions.Values && HandlersUnshared(sessions)
      modifies this`sessions, this`trace, session`skey, session`version, session`clientVersion
      modifies session`collectionHandler, session`mediaHandler, session.collectionHandler, session.mediaHandler
      ensures prehooks == old(prehooks) && posthooks == old(posthooks)
      ensures route.SyncRoute? ==> SyncServed(route.op, data, session, req.k, req.s, env, resp)
      ensures route.MediaRoute? ==> MediaServed(route.op, data, session, env, resp)
      ensures HandlersUnshared(sessions)
      ensures forall t :: t in old(sessions).Values && t != session ==> SessionUntouched(t)
    {
      if route.SyncRoute? {
        resp := ServeSync(route.op, data, session, req.k, req.s, col, env);
      } else {
        resp := ServeMedia(route.op, data, session, col, env);
      }
    }

    /**
     * The routing part of `__call__`, once the session and the body are
     * known: the outcome of each route, with only the served session and its
     * handlers changed.
     */
    method Dispatch(route: Route, req: Request, env: Env, data: Data, session: UserSession?, col: Collection) returns (resp: Response)
      requires route == RouteFor(req, session != null)
      requires session != null ==> session in sessions.Values
      requires HandlersUnshared(sessions)
      modifies this`sessions, this`trace, Held(session)
      ensures prehooks == old(prehooks) && posthooks == old(posthooks)
      ensures route == NotFoundRoute ==> resp == NotFound && sessions == old(sessions) && trace == old(trace)
      ensures route == ForbiddenRoute ==> resp == Forbidden(None) && sessions == old(sessions) && trace == old(trace)
      ensures route == BannerRoute ==> resp == Banner && sessions == old(sessions) && trace == old(trace)
      ensures route == HostKeyRoute ==> HostKeyServed(data, env, resp)
      ensures route.SyncRoute? ==> session != null && SyncServed(route.op, data, session, req.k, req.s, env, resp)
      ensures route.FullSyncRoute? ==> FullSyncServed(route.op, data, env, resp)
      ensures route.MediaRoute? ==> session != null && MediaServed(route.op, data, session, env, resp)
      ensures HandlersUnshared(sessions)
      ensures forall t :: t in old(sessions).Values && t != session ==> SessionUntouched(t)
      ensures !route.SyncRoute? && !route.MediaRoute? && session != null ==> SessionUntouched(session)
    {
      match route
      case NotFoundRoute =>
        resp := NotFound;
      case ForbiddenRoute =>
        resp := Forbidden(None);
      case BannerRoute =>
        resp := Banner;
      case InternalErrorRoute =>
        assert false;
      case HostKeyRoute =>
        resp := ServeHostKey(data, env);
      case SyncRoute(_) =>
        resp := ServeSession(route, req, data, session, col, env);
      case FullSyncRoute(op) =>
        resp := ServeFullSync(op, data, env);
      case MediaRoute(_) =>
        resp := ServeSession(route, req, data, session, col, env);
    }

    /**
     * `__call__(req)`: resolve the session, decode the body, route. Also
     * returns the session the request was served with.
     */
    method Call(req: Request, env: Env, col: Collection) returns (resp: Response, session: UserSession?)
      requires HandlersUnshared(sessions)
      modifies this`sessions, this`trace, SessionObjects(sessions)
      ensures prehooks == old(prehooks) && posthooks == old(posthooks)
      ensures session != null <==> old(Found(sessions, req.k, req.sk))
      ensures session != null ==> old(allocated(session)) && session in old(sessions).Values
      ensures DecodeRequest(req, env).Failure? ==>
        resp == Raised(DecodeRequest(req, env).error) && sessions == old(sessions) && trace == old(trace)
      ensures DecodeRequest(req, env).Success? ==>
        var route := RouteFor(req, session != null);
        var data := DecodeRequest(req, env).value;
        (route == NotFoundRoute ==> resp == NotFound && sessions == old(sessions) && trace == old(trace))
        && (route == ForbiddenRoute ==> resp == Forbidden(None) && sessions == old(sessions) && trace == old(trace))
        && (route == BannerRoute ==> resp == Banner && sessions == old(sessions) && trace == old(trace))
        && (route == HostKeyRoute ==> HostKeyServed(data, env, resp))
        && (route.SyncRoute? ==> session != null && SyncServed(route.op, data, session, req.k, req.s, env, resp))
        && (route.FullSyncRoute? ==> FullSyncServed(route.op, data, env, resp))
        && (route.MediaRoute? ==> session != null && MediaServed(route.op, data, session, env, resp))
      ensures HandlersUnshared(sessions)
      ensures forall t :: t in old(sessions).Values && t != session ==> SessionUntouched(t)
      ensures session != null && (DecodeRequest(req, env).Failure? || !(RouteFor(req, true).SyncRoute? || RouteFor(req, true).MediaRoute?)) ==>
        SessionUntouched(session)
    {
      session := LoadSession(req.k, req.sk);
      var decoded := DecodeRequest(req, env);
      if decoded.Failure? {
        return Raised(decoded.error), session;
      }
      resp := Dispatch(RouteFor(req, session != null), req, env, decoded.value, session, col);
    }
  }
}
