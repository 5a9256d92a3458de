# anki-sync-server sync engine, in Dafny

This project models the protocol and session engine of `ankisyncd/sync_app.py`, a server for Anki's sync protocol, and proves properties of the model. It covers five parts:

- **Collection sync (`SyncCollectionHandler`).**
  - The client-version gate `_old_client` and the `meta` handshake.
  - Tombstone exchange: `removed`, `start`, `applyGraves`.
  - The change filters `getModels`, `getDecks`, `getTags` and `sanityCheck2`.
- **Media sync (`SyncMediaHandler`).**
  - `begin`, the archive check and the adoption of an uploaded archive, and `uploadChanges` with its media-USN bump.
  - `downloadFiles` with its size and count limits, `mediaChanges` and `mediaSanity`.
- **Sessions (`SyncUserSession`).** The per-family handler cache: one handler per family, created on first use and rebound to the current collection on every request.
- **The dispatcher (`SyncApp`).**
  - Base-URL normalisation and the hook aliases.
  - `_decode_data`, `operation_hostKey` and the routing of `__call__`.
  - The order in which `__call__` runs hooks, handler and save.
- **The anki objects the handlers touch (`Anki`).** These are a `Collection` and its `MediaManager`, reduced to the state the handlers read and write:
  - the USN, the graves table and the entity lists;
  - the media table, the media USN and the media directory.

Files:

| file | module | contents |
|---|---|---|
| `wrappers.dfy` | `Wrappers` | `Option`, `Result` |
| `text.dfy` | `Text` | Python's `str.split`, `int()`, `str()`, `startswith`/`endswith`, `os.path.join` on strings |
| `client_version.dfy` | `ClientVersion` | `_old_client` and its scenarios |
| `anki.dfy` | `Anki` | anki constants; the `Collection` and `MediaManager` classes |
| `collection_sync.dfy` | `CollectionSync` | `meta`'s decision, tombstones, filters, the `CollectionHandler` class |
| `media_sync.dfy` | `MediaSync` | archive check, adoption, download packing, the `MediaHandler` class |
| `sessions.dfy` | `Sessions` | the `UserSession` class and its handler cache |
| `app.dfy` | `App` | routing, decoding, login, hooks, the `SyncApp` class and `Call` (`__call__`) |

Some constants live in the anki library, which is not part of this model. They take the values of anki 2.1:

| constant | value |
|---|---|
| `SYNC_VER` | 10 |
| `SYNC_ZIP_SIZE` | `int(2.5 * 1024 * 1024)` = 2621440 |
| `SYNC_ZIP_COUNT` | 25 |
| `REM_CARD` | 0 |
| `REM_NOTE` | 1 |
| `REM_DECK` | 2 |

State-changing code is modelled imperatively:

- the handlers, the session and the app are classes;
- loops (`removed`, the adoption loops, `_remove_media_files`, `downloadFiles`) are `while` loops proved against specification functions (`Tombstones`, `Removals`, `AddPass`, `MarkDeleted`, `DeleteFiles`, `Upsert`, `PackFrom`, `Members`, `FileList`);
- the `mediaChanges` loop has no specification function: it is proved directly against the media table, one row per table entry carrying its checksum and the server's media USN;
- the base URLs are `const` fields, fixed once the constructor has normalised them;
- each handler records the session that created it. The store invariant `HandlersUnshared` says every stored session holds only handlers it created. The constructor establishes it and every request keeps it, so serving one session never changes another session's handlers.

## Model

| member | source | states |
|---|---|---|
| Text.Split | ankisyncd/sync_app.py:63 | `str.split(sep)` always returns at least one piece |
| Text.SplitJoin | ankisyncd/sync_app.py:63 | joining the pieces of a split with the separator gives the string back |
| Text.SplitPiecesLackSeparator | ankisyncd/sync_app.py:67-68 | no piece of a split contains the separator |
| Text.SplitAtFirst | ankisyncd/sync_app.py:67-68 | splitting `a + sep + b` where `a` lacks `sep` gives `a` as the first piece |
| Text.ParseIntToString | ankisyncd/sync_app.py:109 | `int(str(i)) == i` for every integer |
| Text.NatToStringInjective | ankisyncd/sync_app.py:316 | distinct counters give distinct `str(cnt)` member names |
| Text.JoinPath | ankisyncd/sync_app.py:479 | `os.path.join(a, b)` ends with `b` |
| ClientVersion.LexLessIff | ankisyncd/sync_app.py:76 | Python's list `<` holds iff at the first difference the left is smaller, or the left is a proper prefix |
| ClientVersion.NumericPrefix | ankisyncd/sync_app.py:72 | `re.sub(r'[^0-9.].*$', '', v)` keeps the longest prefix of `[0-9.]` characters |
| ClientVersion.NumericPrefixDropsTail | ankisyncd/sync_app.py:72 | a tail starting outside `[0-9.]` is removed whole |
| ClientVersion.ParseAll | ankisyncd/sync_app.py:73 | `[int(x) for x in parts]` has one number per part |
| ClientVersion.VersionInts | ankisyncd/sync_app.py:72-73 | one number per dotted part; only `int()` raises, so an empty version raises |
| ClientVersion.VersionIntsOfDotted | ankisyncd/sync_app.py:73 | reading the numbers of a dotted version gives them back |
| ClientVersion.SplitFields | ankisyncd/sync_app.py:63 | a comma-free client, version and platform split back into exactly three fields |
| ClientVersion.StripNote | ankisyncd/sync_app.py:66-69 | a version without `name` and its counter are kept; with `name`, what remains holds no `name`; it raises only on a bad counter after `name` |
| ClientVersion.StripNotes | ankisyncd/sync_app.py:65-69 | a version with no `alpha`, `beta` or `rc` is kept with every counter 0; the `alpha` counter is set only if `alpha` occurs; what remains holds no `rc`; only `int()` raises |
| ClientVersion.StripNotesPlain | ankisyncd/sync_app.py:65-69 | a version of digits and dots keeps its text and sets no counter |
| ClientVersion.StripOneNote | ankisyncd/sync_app.py:66-69 | `d + name + str(n)` splits at `name` into `d` and the counter `n` |
| ClientVersion.StripNotesSuffix | ankisyncd/sync_app.py:62-69 | an `alpha`/`beta`/`rc` suffix is removed and sets its own counter only |
| ClientVersion.VersionFieldParses | ankisyncd/sync_app.py:65-73 | a well-formed version field yields its numbers and its suffix counters |
| ClientVersion.ParseClientVersion | ankisyncd/sync_app.py:62-73 | anything but three comma-separated fields raises on the unpacking; otherwise the client is the first field and only `int()` raises |
| ClientVersion.ParseWellFormed | ankisyncd/sync_app.py:63-73 | a `client,version,platform` string parses into its client, numbers and counters |
| ClientVersion.IsOld | ankisyncd/sync_app.py:75-84 | only `ankidesktop` and `ankidroid` can be old; `ankidroid` 2.3 without an alpha counter is not old |
| ClientVersion.OldClient | ankisyncd/sync_app.py:58-84 | a missing or empty `cv` is not old; it raises only with the parse's error; an old client parses and is `ankidesktop` or `ankidroid` |
| ClientVersion.OldClientOfParsed | ankisyncd/sync_app.py:58-84 | once a non-empty `cv` parses, the answer is the per-client floor test |
| ClientVersion.MissingClientVersionNotOld | ankisyncd/sync_app.py:59-60 | a missing or empty `cv` is never old |
| ClientVersion.UnknownClientNeverOld | ankisyncd/sync_app.py:83-84 | a client other than `ankidesktop`/`ankidroid` is never old |
| ClientVersion.DesktopFloor | ankisyncd/sync_app.py:75-76 | `ankidesktop` is old iff its version is below `[2, 0, 27]` |
| ClientVersion.DesktopScenario | ankisyncd/sync_app.py:75-76 | `ankidesktop,2.0.26,mac` is old and `ankidesktop,2.0.27,mac` is not |
| ClientVersion.AndroidAlpha | ankisyncd/sync_app.py:77-80 | `ankidroid` 2.3 with `alphaN` is old iff `0 < N < 4` |
| ClientVersion.AndroidTwoThree | ankisyncd/sync_app.py:78-80 | `ankidroid` 2.3 without an alpha counter is not old |
| ClientVersion.AndroidFloor | ankisyncd/sync_app.py:77-82 | any other `ankidroid` version is old iff it is below `[2, 2, 3]` |
| ClientVersion.SuffixIgnored | ankisyncd/sync_app.py:65-82 | a pre-release suffix does not change the answer, except ankidroid 2.3 alpha |
| CollectionSync.MetaGate | ankisyncd/sync_app.py:86-92 | status 501 iff the client is old; it raises iff `cv` is malformed or `v` is missing; it goes on iff `v <= SYNC_VER` and (`v >= 9` or scheduler < 2); a current client with `v > SYNC_VER` gets the protocol refusal, one with `v < 9` and scheduler >= 2 the scheduler refusal |
| CollectionSync.OldClientIgnoresProtocol | ankisyncd/sync_app.py:87-89 | an old client is sent away before `v` is looked at |
| CollectionSync.CommaFreeClientVersionRaises | ankisyncd/sync_app.py:58-87 | a non-empty client version without a comma makes `meta` raise on the three-way split |
| CollectionSync.OldDesktopUpgrade | ankisyncd/sync_app.py:87-88 | `ankidesktop` 2.0.26 gets status 501 whatever `v` is |
| CollectionSync.CollectionHandler.Meta | ankisyncd/sync_app.py:86-106 | the answer follows `MetaGate`; on accept, the media db is opened and the reply carries `scm`, `ts` (the current time, passed in as `now`), `mod`, `usn`, `musn` |
| CollectionSync.CollectionHandler.UsnLimit | ankisyncd/sync_app.py:108-109 | `"usn >= "` followed by `minUsn` in decimal, which reads back as `minUsn` |
| CollectionSync.Recent | ankisyncd/sync_app.py:147-148 | the rows selected are exactly those with `usn >= minUsn` |
| CollectionSync.CollectMembership | ankisyncd/sync_app.py:150-156 | an id is in a list iff a grave with that id, a type routed to that list and `usn >= minUsn` exists |
| CollectionSync.TombstonesPartition | ankisyncd/sync_app.py:142-158 | the three lists together hold every id in the window exactly once (as multisets) |
| CollectionSync.TombstonesCount | ankisyncd/sync_app.py:142-158 | the three lists are together as long as the window |
| CollectionSync.CollectAppend | ankisyncd/sync_app.py:150-156 | reading a longer table appends the ids of the new rows |
| CollectionSync.CollectionHandler.Removed | ankisyncd/sync_app.py:142-158 | the loop returns `Tombstones(graves, minUsn)` |
| CollectionSync.CollectionHandler.Remove | ankisyncd/sync_app.py:118 | `remove(graves)` appends one grave per id at the current USN |
| CollectionSync.LoggedGravesReadBack | ankisyncd/sync_app.py:118-122 | the graves `remove` logs read back as exactly the sets it was given |
| CollectionSync.ReadAfterRemoveEchoes | ankisyncd/sync_app.py:117-118 | reading after a remove returns the old window followed by the removed ids |
| CollectionSync.CollectionHandler.Start | ankisyncd/sync_app.py:113-119 | it sets `maxUsn`, `minUsn` and `lnewer = not lnewer`, and returns the tombstones read before applying the client's |
| CollectionSync.CollectionHandler.ApplyGraves | ankisyncd/sync_app.py:121-122 | the chunk is logged as graves at the current USN |
| CollectionSync.Fresh | ankisyncd/sync_app.py:160-167 | keeps exactly the items with `usn >= minUsn` |
| CollectionSync.FreshAppend | ankisyncd/sync_app.py:160-167 | the filter keeps the original order |
| CollectionSync.FreshNarrow | ankisyncd/sync_app.py:160-167 | filtering twice is filtering with the later bound |
| CollectionSync.TagNames | ankisyncd/sync_app.py:169-171 | the names of exactly the tags with `usn >= minUsn` |
| CollectionSync.TagNamesAppend | ankisyncd/sync_app.py:169-171 | the tag filter keeps the original order |
| CollectionSync.CollectionHandler.GetModels | ankisyncd/sync_app.py:160-161 | exactly the models changed since `minUsn` |
| CollectionSync.CollectionHandler.GetDecks | ankisyncd/sync_app.py:163-167 | exactly the decks and deck configurations changed since `minUsn` |
| CollectionSync.CollectionHandler.GetTags | ankisyncd/sync_app.py:169-171 | exactly the names of the tags changed since `minUsn` |
| CollectionSync.SanityCheck2 | ankisyncd/sync_app.py:131-135 | `ok` iff client equals server; otherwise `bad` carrying both |
| MediaSync.MediaHandler.Begin | ankisyncd/sync_app.py:179-186 | echoes the session key, `None` for a session without one, and reports the media USN |
| MediaSync.LastNamed | ankisyncd/sync_app.py:213 | `getinfo("_meta")` is the last member named `_meta`; it is absent iff no member has the name |
| MediaSync.EntryWithinTotal | ankisyncd/sync_app.py:214 | every member is within the summed size |
| MediaSync.CheckZip | ankisyncd/sync_app.py:208-221 | it passes iff `_meta` exists, is at most 100000 bytes and the total is at most 100 MiB; a missing `_meta` is reported first, then an oversized `_meta`, and only then an oversized archive |
| MediaSync.CheckedZipBounds | ankisyncd/sync_app.py:208-221 | after the check every member is at most 100 MiB and `_meta` is at most 100000 bytes |
| MediaSync.Removals | ankisyncd/sync_app.py:233-236 | at most one deletion per `_meta` pair |
| MediaSync.RemovalsCount | ankisyncd/sync_app.py:233-236 | there is one deletion per pair with an empty ordinal |
| MediaSync.PyIndex | ankisyncd/sync_app.py:246 | `meta[k]` is defined iff `-len <= k < len`, negative `k` counting from the end |
| MediaSync.MetaFor | ankisyncd/sync_app.py:246 | a member's pair is one of the `_meta` pairs |
| MediaSync.AddPassSticky | ankisyncd/sync_app.py:240-254 | once the loop raises, the rest of the archive changes nothing |
| MediaSync.AddPassCount | ankisyncd/sync_app.py:240-254 | a loop that does not raise adds one tuple per member other than `_meta` |
| MediaSync.MarkDeletedRow | ankisyncd/sync_app.py:293-296 | `UPDATE ... SET csum = NULL` touches only existing rows and keeps their other columns |
| MediaSync.DeleteFilesPath | ankisyncd/sync_app.py:300-305 | a file survives iff it is not among the names; a missing file is skipped |
| MediaSync.UpsertRow | ankisyncd/sync_app.py:265-267 | `INSERT OR REPLACE`: the last tuple naming a file decides its row, other rows are untouched |
| MediaSync.AdoptedRow | ankisyncd/sync_app.py:262-267 | the final row of each file: added wins over deleted, deleted over untouched |
| MediaSync.AdoptCount | ankisyncd/sync_app.py:256-260 | a successful adoption processes `len(meta)` items: the deletions plus the added members |
| MediaSync.AdoptFailureKeepsTable | ankisyncd/sync_app.py:240-263 | an adoption that raises leaves the media table as it was |
| MediaSync.DeletedAndAddedLeavesNoFile | ankisyncd/sync_app.py:250-263 | a name both deleted and added in one upload ends with a row but no file |
| MediaSync.MediaHandler.CollectRemovals | ankisyncd/sync_app.py:233-236 | the first loop computes `Removals` |
| MediaSync.MediaHandler.RemoveMediaFiles | ankisyncd/sync_app.py:286-305 | the table becomes `MarkDeleted` and the directory `DeleteFiles` of the names |
| MediaSync.MediaHandler.WriteAdded | ankisyncd/sync_app.py:239-254 | the addition loop computes `AddPass`: its tuples, its writes, the error it raises |
| MediaSync.MediaHandler.InsertRows | ankisyncd/sync_app.py:265-267 | the table becomes `Upsert` of the tuples |
| MediaSync.MediaHandler.AdoptMediaChanges | ankisyncd/sync_app.py:223-269 | the new table, files and count are those of `Adopt` |
| MediaSync.MediaHandler.UploadChanges | ankisyncd/sync_app.py:188-206 | a failed check changes nothing; otherwise the adoption's state, and the media USN grows by the processed count, which is returned with it |
| MediaSync.PackFromBounds | ankisyncd/sync_app.py:314-320 | packing stops after at most `SYNC_ZIP_COUNT + 2` files; the running size is within `SYNC_ZIP_SIZE` before the last file; unless all were packed, the last one broke a limit |
| MediaSync.DownloadBounds | ankisyncd/sync_app.py:307-324 | the same bounds for a whole download, which packs at least one file when any is asked for |
| MediaSync.SizesIn | ankisyncd/sync_app.py:317 | one size per requested name, the size of that file |
| MediaSync.FileListLookup | ankisyncd/sync_app.py:316 | `_meta` maps `str(j)` to the `j`th name exactly for the packed `j` |
| MediaSync.FileListKeys | ankisyncd/sync_app.py:316 | every `_meta` key is `str(j)` for a packed `j` |
| MediaSync.MembersLookup | ankisyncd/sync_app.py:314-316 | a download of `n` files has `n` members, member `j` named `str(j)` and holding the `j`th requested file |
| MediaSync.MediaHandler.DownloadFiles | ankisyncd/sync_app.py:307-324 | it packs `PackFrom` files, each the requested one in order, with `_meta` = `FileList`; it raises only for the first absent file the loop reaches, so never for a file after the break |
| MediaSync.MediaHandler.MediaChanges | ankisyncd/sync_app.py:326-335 | when the client is behind or at 0, one row per table entry with the server USN and its checksum; otherwise nothing |
| MediaSync.MediaHandler.MediaSanity | ankisyncd/sync_app.py:337-343 | `OK` iff the client's count equals the number of files with a checksum; otherwise `FAILED` |
| Sessions.FamilyOf | ankisyncd/sync_app.py:371-377 | an operation is served by the collection family iff it is in its list, by the media family iff it is in the media list, and by none otherwise |
| Sessions.UserSession.constructor | ankisyncd/sync_app.py:346-356 | a new session has its key, name and path, no version and no handlers |
| Sessions.UserSession.GetHandlerForOperation | ankisyncd/sync_app.py:371-385 | unknown operation raises `no handler for <op>`; otherwise the family's handler, created only if absent, keeping its state, bound to `col`; the other family's handler, its collection and (for the collection handler) its usn window and `lnewer` unchanged; each handler is either the one held before or a new one, created by this session |
| App.WithTrailingSlash | ankisyncd/sync_app.py:408-411 | the URL ends in `/`, extends the input by at most that slash, and is unchanged if it already ended in `/` |
| App.SyncApp.constructor | ankisyncd/sync_app.py:391-411 | both base URLs normalised to end in `/`; no hooks; an empty session store, which shares no handler |
| App.SyncApp.HookPreSync | ankisyncd/sync_app.py:414-416 | the pre-hook of `start`, if any, as the dispatcher runs it |
| App.SyncApp.SetHookPreSync | ankisyncd/sync_app.py:418-420 | sets `prehooks['start']` and nothing else |
| App.SyncApp.HookPostSync | ankisyncd/sync_app.py:422-424 | the post-hook of `finish` |
| App.SyncApp.SetHookPostSync | ankisyncd/sync_app.py:426-428 | sets `posthooks['finish']` |
| App.SyncApp.HookUpload | ankisyncd/sync_app.py:430-432 | the pre-hook of `upload` |
| App.SyncApp.SetHookUpload | ankisyncd/sync_app.py:434-436 | sets `prehooks['upload']` |
| App.SyncApp.HookDownload | ankisyncd/sync_app.py:438-440 | the post-hook of `download` |
| App.SyncApp.SetHookDownload | ankisyncd/sync_app.py:442-444 | sets `posthooks['download']` |
| App.DecodeData | ankisyncd/sync_app.py:458-468 | it raises iff compressed data does not gunzip, and then with the gzip error |
| App.ParsedBodyKept | ankisyncd/sync_app.py:458-464 | a body that decodes as JSON, gunzipped first when `c` is non-zero, is passed on as decoded |
| App.UndecodableBodyKept | ankisyncd/sync_app.py:458-466 | a body that is not JSON, gunzipped first when `c` is non-zero, reaches the handler byte for byte as `{'data': body}` |
| App.Compression | ankisyncd/sync_app.py:512-515 | `c` absent is 0; otherwise `int(c)`, which raises iff `c` is not an integer |
| App.DecodeRequest | ankisyncd/sync_app.py:512-520 | `c` is read before the body; no `data` field gives `{}` |
| App.SyncApp.OperationHostKey | ankisyncd/sync_app.py:470-483 | failure leaves the store unchanged; success stores a fresh session for the user at `data_root/userdir` under the new host key and returns it |
| App.SyncApp.LoadSession | ankisyncd/sync_app.py:499-510 | the session under `k`; only if there is none, one carrying `sk`; none iff neither exists |
| App.RouteOf | ankisyncd/sync_app.py:522-611 | never the internal-error branch; the banner iff neither prefix matches; `hostKey` iff its name follows `base_url`; 403 only without a session; each operation route only with a session and a name of its kind |
| App.UnknownNameNotFound | ankisyncd/sync_app.py:525-527 | an unknown name under `base_url` is 404 with or without a session |
| App.SessionRequired | ankisyncd/sync_app.py:524-538 | every known name but `hostKey` under `base_url` needs a session |
| App.MediaSessionCheckedFirst | ankisyncd/sync_app.py:591-598 | under `base_media_url` a missing session is 403 even for an unknown name |
| App.MediaPathAdmitsAnyValidName | ankisyncd/sync_app.py:597-603 | `hostKey`, `upload`, `download` pass the media name check and find no handler; collection operations reach the collection handler |
| App.ShadowedMediaUrl | ankisyncd/sync_app.py:522-593 | a `base_media_url` extending `base_url` is never routed to |
| App.MediaArgs | ankisyncd/sync_app.py:600-601 | `begin` gets the session's `skey`, overriding the body; other arguments are kept |
| App.MetaSkey | ankisyncd/sync_app.py:543-544 | the client's `s` is adopted only by a session without a key |
| App.SyncApp.MetaBootstrap | ankisyncd/sync_app.py:541-551 | `s` adopted only if there is no key, `v`/`cv` recorded only if sent, then the session is saved under `k` and reloaded; the store gains no session but this one |
| App.SyncApp.ExecuteHandler | ankisyncd/sync_app.py:613-637 | no handler raises and runs nothing; otherwise the operation runs, and the collection is saved iff the operation does not raise, in which case `HandlerRaised(op)` is returned; the other family's handler is untouched; every other session holding only its own handlers is untouched |
| App.SyncApp.RunBetweenHooks | ankisyncd/sync_app.py:553-566 | events in the order pre-hook, operation, save, post-hook; an operation that raises ends the trace after itself and becomes the response; only the operation's family handler changes, and no other session |
| App.SyncApp.ServeSync | ankisyncd/sync_app.py:540-566 | events in the order pre-hook, operation, save, post-hook; an operation that raises stops the trace after the operation (no save, no post-hook) and the response is `Raised(HandlerRaised(op))`; `meta` adopts `s` only without a key, records `v`/`cv` only when sent and stores the session under `k`; any other operation leaves the store, `skey`, `v` and `cv` alone; the other family's handler and every other stored session are untouched; the store still shares no handler |
| App.SyncApp.ServeFullSync | ankisyncd/sync_app.py:568-585 | pre-hook, full upload or download, post-hook; an upload without `data` raises after the pre-hook; a full sync that raises skips the post-hook; the session store is unchanged |
| App.SyncApp.ServeMedia | ankisyncd/sync_app.py:591-609 | no hooks; the arguments are built from the session's key as it was, `begin` getting it; an operation of no family raises and runs nothing; an operation that raises is not saved; the store, `skey`, `v`, `cv`, the other family's handler and every other stored session are untouched |
| App.SyncApp.ServeHostKey | ankisyncd/sync_app.py:529-535 | an authenticated user with a directory gets the host key of a freshly stored session; otherwise 403 with the body `null` and the store unchanged; nothing runs on a worker and no stored session changes |
| App.SyncApp.ServeSession | ankisyncd/sync_app.py:540-609 | a sync route has the whole outcome of `ServeSync` (trace, response, `meta` recording, frames); a media route that of `ServeMedia`; hooks unchanged; other stored sessions untouched |
| App.SyncApp.Dispatch | ankisyncd/sync_app.py:522-611 | for each route, the response, the session store and the event trace, split on whether the operation raises, with the full outcome of `ServeSync`, `ServeMedia`, `ServeFullSync` and `ServeHostKey`; routes without an operation leave the session untouched; other stored sessions are always untouched |
| App.SyncApp.Call | ankisyncd/sync_app.py:496-611 | the session is found iff `k` or `sk` names one, and is a stored one; a bad `c` or gzip raises before routing and changes nothing; then the outcome of `Dispatch` for the route, including the `meta` recording and the frames; other stored sessions untouched; the store still shares no handler |

## Left out

- `applyChanges`, `chunk`, `applyChunk`, `finish` and the `changes`/`mergeChanges`/`sanityCheck` primitives belong to anki's `Syncer`, which is not part of this model. The dispatcher records their execution as a `RanHandler` event. `sanityCheck2` takes the server's summary as a parameter.
- Handler execution inside `__call__`: the keyword arguments are not bound to the modelled handler methods. A request runs its operation as an abstract event whose outcome is the parameter `env.raises(op, args)`; the handler models' failure cases (a `meta` with a bad client version, a failed `uploadChanges` check, a missing media file) are the inputs for which it holds, and the handler methods are modelled and proved on their own.
- The collection worker thread (`get_thread`, `thread.execute`): it is a direct sequential call. The per-collection serialisation it guarantees belongs to that runtime.
- gzip, JSON, zip reading and writing, `anki.utils.checksum`, Unicode normalisation, `_mtime`, `intTime`, `random` and `hashlib`: each is an opaque function parameter (`MediaEnv`, `Env`) or a value passed in.
- Result serialisation with `json.dumps` and the webob response classes: replaced by the `Response` datatype.
- File paths: the media directory is a map from file name to content. `os.path.join(dir, name)`, `realpath`, `abspath` and `mkdir` are not modelled, so a name that escapes the directory is not captured.
- `os.remove`: only the missing-file error is modelled (logged and skipped). Other `OSError`s are not.
- Python `int()`: an optional sign followed by ASCII digits. Whitespace, underscores and non-ASCII digits are not accepted as Python would accept them.
- `re.sub(r'[^0-9.].*$', '', v)`: it cuts at the first character outside `[0-9.]`. The regex's behaviour around newlines is not modelled.
- `meta` with a missing `v`: Python 3 raises `TypeError` on `None > SYNC_VER`; the model answers `MissingProtocolVersion`.
- anki `remove(graves)`: only its effect on the graves table is modelled (one row per id at the current USN). Deleting the cards, notes and decks themselves is not.
- The session manager (`ankisyncd/sessions.py`) is not part of this model. The store is a map from host key to session, as an in-memory manager keeps it. `load_from_skey` picks any stored session carrying the key. A persistent store is not modelled.
- The user manager and the full-sync manager (`authenticate`, `userdir`, full `upload`/`download`) are opaque; a full sync is recorded as an event.
- `created` (the session's creation time) and `collection_manager`/`setup_new_collection` are not modelled. `get_collection_path` is covered only through the collection passed to each request.
- A request body whose JSON is not an object (a list, say) is not modelled: the decoder yields an object or falls back to `{'data': body}`.
- `ankisyncd/__main__.py`, `ankisyncd/__init__.py` and `ankisyncd/utils.py` (bootstrap, configuration, logging) are not part of this model.
- App.SyncApp.Call: it returns `Handled(op)` for an operation that does not raise, without the handler's result, because that result comes from the unmodelled keyword dispatch.
- App.SyncApp.ServeSync, App.SyncApp.ServeFullSync: hooks are assumed to return. In the source they run on the worker (`thread.execute`, ankisyncd/sync_app.py:555-556, 564-565, 571-572, 574-575, 580-581, 583-584) and may raise: a raising pre-hook would skip the operation and its save, and a raising post-hook would lose the response after the save. A hook is a `RanHook` event that always completes.
