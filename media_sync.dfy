/**
 * `SyncMediaHandler`: the server side of a media sync. It covers `begin`,
 * `uploadChanges` (the size checks of `_check_zip_data`, the adoption of a
 * client's additions and deletions, the media USN bump), `downloadFiles`
 * (packing a prefix of the requested files under the zip budget),
 * `mediaChanges` and `mediaSanity`.
 *
 * Zip archives are modelled by their entry list (name and uncompressed
 * content, in `infolist()` order) and the media directory by a map from
 * file name to content; JSON decoding, checksums, Unicode normalisation
 * and file modification times are functions the caller supplies in a
 * `MediaEnv`.
 */
module MediaSync {
  import opened Wrappers
  import opened Text
  import opened Anki

  /** One member of a zip archive. */
  datatype ZipEntry = ZipEntry(name: string, data: Bytes)

  /** One `[normname, ordinal]` pair of the uploaded `_meta` list; an empty ordinal marks a deletion. */
  datatype MetaEntry = MetaEntry(name: string, ordinal: string)

  /** The foreign computations adoption relies on. */
  datatype MediaEnv = MediaEnv(
    decodeMeta: Bytes -> Option<seq<MetaEntry>>, // json.loads(data.decode()), None when it raises
    normalize: string -> string,                 // _normalize_filename (NFC or NFD)
    checksum: Bytes -> string,                   // anki.utils.checksum
    mtime: string -> int)                        // col.media._mtime of the file right after the write

  /** Why `uploadChanges` raises. */
  datatype UploadError =
    | MissingMeta                                  // getinfo("_meta") raises KeyError
    | MetaTooLarge                                 // "Zip file's metadata file is larger than 100000 Bytes."
    | ZipTooLarge                                  // "Zip file contents are larger than 104857600 Bytes."
    | BadMeta                                      // `_meta` is not a JSON list of pairs
    | BadOrdinal(entry: string)                    // int(i.filename) raises ValueError
    | OrdinalOutOfRange(index: int)                // meta[index] raises IndexError
    | CountMismatch(metaCount: nat, processed: nat) // the sanity assertion fails

  const MaxZipSize: nat := 100 * 1024 * 1024
  const MaxMetaFileSize: nat := 100000

  // ---------------------------------------------------------------------
  // _check_zip_data

  /** `zip_file.getinfo(name)`: the last member with that name, as zipfile's name index keeps it. */
  function LastNamed(zip: seq<ZipEntry>, name: string): (r: Option<ZipEntry>)
    ensures r.Some? ==> r.value in zip && r.value.name == name
    ensures r.Some? ==> exists i :: 0 <= i < |zip| && zip[i] == r.value &&
                                   forall j :: i < j < |zip| ==> zip[j].name != name
    ensures r.None? <==> forall i :: 0 <= i < |zip| ==> zip[i].name != name
    decreases |zip|
  {
    if zip == [] then None
    else if zip[|zip| - 1].name == name then Some(zip[|zip| - 1])
    else
      var r := LastNamed(zip[..|zip| - 1], name);
      assert forall i :: 0 <= i < |zip| - 1 ==> zip[..|zip| - 1][i] == zip[i];
      r
  }

  /** `sum(info.file_size for info in zip_file.infolist())`. */
  function TotalSize(zip: seq<ZipEntry>): nat {
    if zip == [] then 0 else TotalSize(zip[..|zip| - 1]) + |zip[|zip| - 1].data|
  }

  lemma {:induction false} EntryWithinTotal(zip: seq<ZipEntry>, i: nat)
    requires i < |zip|
    ensures |zip[i].data| <= TotalSize(zip)
    decreases |zip|
  {
    if i < |zip| - 1 {
      EntryWithinTotal(zip[..|zip| - 1], i);
    }
  }

  /**
   * `_check_zip_data`: a missing `_meta` raises first; then an oversized
   * `_meta`, then an oversized archive, `_meta` included in the sum.
   */
  function CheckZip(zip: seq<ZipEntry>): (r: Result<ZipEntry, UploadError>)
    ensures r.Success? <==>
      LastNamed(zip, "_meta").Some? && |LastNamed(zip, "_meta").value.data| <= MaxMetaFileSize
      && TotalSize(zip) <= MaxZipSize
    ensures r.Success? ==> r.value == LastNamed(zip, "_meta").value
    ensures r == Failure(MissingMeta) <==> forall i :: 0 <= i < |zip| ==> zip[i].name != "_meta"
    ensures r == Failure(MetaTooLarge) <==>
      LastNamed(zip, "_meta").Some? && |LastNamed(zip, "_meta").value.data| > MaxMetaFileSize
    ensures r == Failure(ZipTooLarge) <==>
      LastNamed(zip, "_meta").Some? && |LastNamed(zip, "_meta").value.data| <= MaxMetaFileSize
      && TotalSize(zip) > MaxZipSize
    ensures r.Failure? ==> r.error in {MissingMeta, MetaTooLarge, ZipTooLarge}
  {
    match LastNamed(zip, "_meta")
    case None => Failure(MissingMeta)
    case Some(meta) =>
      if |meta.data| > MaxMetaFileSize then Failure(MetaTooLarge)
      else if TotalSize(zip) > MaxZipSize then Failure(ZipTooLarge)
      else Success(meta)
  }

  /** Every archive that passes the check holds at most 100 MiB in each member, `_meta` at most 100000 bytes. */
  lemma CheckedZipBounds(zip: seq<ZipEntry>, i: nat)
    requires CheckZip(zip).Success? && i < |zip|
    ensures |zip[i].data| <= MaxZipSize
    ensures |CheckZip(zip).value.data| <= MaxMetaFileSize
  {
    EntryWithinTotal(zip, i);
  }

  // ---------------------------------------------------------------------
  // _adopt_media_changes_from_zip, as a specification

  /** `json.loads(zip_file.read("_meta").decode())`. */
  function ReadMeta(zip: seq<ZipEntry>, env: MediaEnv): Result<seq<MetaEntry>, UploadError> {
    match LastNamed(zip, "_meta")
    case None => Failure(MissingMeta)
    case Some(e) =>
      match env.decodeMeta(e.data)
      case None => Failure(BadMeta)
      case Some(meta) => Success(meta)
  }

  /** The normalised names the client deleted, in `_meta` order. */
  function Removals(meta: seq<MetaEntry>, normalize: string -> string): (r: seq<string>)
    ensures |r| <= |meta|
    decreases |meta|
  {
    if meta == [] then []
    else
      var e := meta[|meta| - 1];
      Removals(meta[..|meta| - 1], normalize) + (if e.ordinal == "" then [normalize(e.name)] else [])
  }

  /** How many `_meta` pairs have an empty ordinal. */
  function DeletionCount(meta: seq<MetaEntry>): nat {
    if meta == [] then 0
    else DeletionCount(meta[..|meta| - 1]) + (if meta[|meta| - 1].ordinal == "" then 1 else 0)
  }

  lemma {:induction false} RemovalsCount(meta: seq<MetaEntry>, normalize: string -> string)
    ensures |Removals(meta, normalize)| == DeletionCount(meta)
    decreases |meta|
  {
    if meta != [] {
      RemovalsCount(meta[..|meta| - 1], normalize);
    }
  }

  /** Python's `meta[k]` index rule: `-len <= k < len`, negative indices counting from the end. */
  function PyIndex(len: nat, k: int): (r: Option<nat>)
    ensures r.Some? <==> -(len as int) <= k < len
    ensures r.Some? ==> r.value < len && (r.value == k || r.value == k + len)
  {
    if 0 <= k < len then Some(k)
    else if -(len as int) <= k < 0 then Some((k + len) as nat)
    else None
  }

  /** `meta[int(filename)]`: the pair a zip member stands for. */
  function MetaFor(meta: seq<MetaEntry>, filename: string): (r: Result<MetaEntry, UploadError>)
    ensures r.Success? ==> r.value in meta
  {
    match ParseInt(filename)
    case None => Failure(BadOrdinal(filename))
    case Some(k) =>
      match PyIndex(|meta|, k)
      case None => Failure(OrdinalOutOfRange(k))
      case Some(j) => Success(meta[j])
  }

  /** One `(filename, csum, mtime, 0)` tuple of `media_to_add`. */
  datatype Added = Added(name: string, csum: string, mtime: int)

  /** The state of the addition loop: the tuples so far, the file system, and the exception, if one was raised. */
  datatype Pass = Pass(added: seq<Added>, files: map<string, Bytes>, err: Option<UploadError>)

  /** One turn of the addition loop on a healthy pass. */
  function AddEntry(p: Pass, e: ZipEntry, meta: seq<MetaEntry>, env: MediaEnv): Pass {
    if e.name == "_meta" then p
    else
      match MetaFor(meta, e.name)
      case Failure(err) => Pass(p.added, p.files, Some(err))
      case Success(m) =>
        var name := env.normalize(m.name);
        Pass(p.added + [Added(name, env.checksum(e.data), env.mtime(name))], p.files[name := e.data], None)
  }

  /**
   * The addition loop over the members in order. Each file is written as
   * soon as its member is read; the first exception stops the loop and
   * leaves the earlier writes in place.
   */
  function AddPass(zip: seq<ZipEntry>, meta: seq<MetaEntry>, env: MediaEnv, files: map<string, Bytes>): Pass
    decreases |zip|
  {
    if zip == [] then Pass([], files, None)
    else
      var p := AddPass(zip[..|zip| - 1], meta, env, files);
      if p.err.Some? then p else AddEntry(p, zip[|zip| - 1], meta, env)
  }

  /** Once the loop has raised, the rest of the archive changes nothing. */
  lemma {:induction false} AddPassSticky(zip: seq<ZipEntry>, k: nat, meta: seq<MetaEntry>, env: MediaEnv, files: map<string, Bytes>)
    requires k <= |zip|
    requires AddPass(zip[..k], meta, env, files).err.Some?
    ensures AddPass(zip, meta, env, files) == AddPass(zip[..k], meta, env, files)
    decreases |zip| - k
  {
    if k < |zip| {
      var init := zip[..|zip| - 1];
      assert init[..k] == zip[..k];
      AddPassSticky(init, k, meta, env, files);
    } else {
      assert zip[..k] == zip;
    }
  }

  /** How many members are not named `_meta`. */
  function NonMetaCount(zip: seq<ZipEntry>): nat {
    if zip == [] then 0
    else NonMetaCount(zip[..|zip| - 1]) + (if zip[|zip| - 1].name == "_meta" then 0 else 1)
  }

  /** A loop that does not raise adds one tuple per member other than `_meta`. */
  lemma {:induction false} AddPassCount(zip: seq<ZipEntry>, meta: seq<MetaEntry>, env: MediaEnv, files: map<string, Bytes>)
    requires AddPass(zip, meta, env, files).err.None?
    ensures |AddPass(zip, meta, env, files).added| == NonMetaCount(zip)
    decreases |zip|
  {
    if zip != [] {
      AddPassCount(zip[..|zip| - 1], meta, env, files);
    }
  }

  /** `_remove_media_files`, on the table: `UPDATE media SET csum = NULL WHERE fname = ?` for each name. */
  function MarkDeleted(table: map<string, MediaRow>, names: seq<string>): map<string, MediaRow>
    decreases |names|
  {
    if names == [] then table
    else
      var t := MarkDeleted(table, names[..|names| - 1]);
      var n := names[|names| - 1];
      if n in t then t[n := t[n].(csum := None)] else t
  }

  /** `_remove_media_files`, on the disk: `os.remove` of each name, a missing file logged and skipped. */
  function DeleteFiles(files: map<string, Bytes>, names: seq<string>): map<string, Bytes>
    decreases |names|
  {
    if names == [] then files
    else DeleteFiles(files, names[..|names| - 1]) - {names[|names| - 1]}
  }

  function RowOf(a: Added): MediaRow {
    MediaRow(Some(a.csum), a.mtime, 0)
  }

  /** `INSERT OR REPLACE INTO media VALUES (?,?,?,?)` for each tuple in turn. */
  function Upsert(table: map<string, MediaRow>, added: seq<Added>): map<string, MediaRow>
    decreases |added|
  {
    if added == [] then table
    else
      var a := added[|added| - 1];
      Upsert(table, added[..|added| - 1])[a.name := RowOf(a)]
  }

  /** The effect of adoption: the table, the file system and the processed count or the exception. */
  datatype Adoption = Adoption(table: map<string, MediaRow>, files: map<string, Bytes>, result: Result<nat, UploadError>)

  /** `_adopt_media_changes_from_zip` over the media table and the file system. */
  function Adopt(zip: seq<ZipEntry>, env: MediaEnv, table: map<string, MediaRow>, files: map<string, Bytes>): Adoption {
    match ReadMeta(zip, env)
    case Failure(e) => Adoption(table, files, Failure(e))
    case Success(meta) =>
      var removals := Removals(meta, env.normalize);
      var pass := AddPass(zip, meta, env, files);
      if pass.err.Some? then Adoption(table, pass.files, Failure(pass.err.value))
      else
        var processed := |removals| + |pass.added|;
        if |meta| != processed then Adoption(table, pass.files, Failure(CountMismatch(|meta|, processed)))
        else Adoption(Upsert(MarkDeleted(table, removals), pass.added), DeleteFiles(pass.files, removals), Success(processed))
  }

  // ---------------------------------------------------------------------
  // What adoption promises

  /** A deletion touches only rows that exist, clears their checksum and keeps the rest of the row. */
  lemma {:induction false} MarkDeletedRow(table: map<string, MediaRow>, names: seq<string>, k: string)
    ensures k in MarkDeleted(table, names) <==> k in table
    ensures k in table ==>
      MarkDeleted(table, names)[k] == if k in names then table[k].(csum := None) else table[k]
    decreases |names|
  {
    if names != [] {
      var init := names[..|names| - 1];
      MarkDeletedRow(table, init, k);
      assert names == init + [names[|names| - 1]];
    }
  }

  /** A file survives the deletions exactly when it is not among the deleted names; its content is untouched. */
  lemma {:induction false} DeleteFilesPath(files: map<string, Bytes>, names: seq<string>, p: string)
    ensures p in DeleteFiles(files, names) <==> p in files && p !in names
    ensures p in DeleteFiles(files, names) ==> DeleteFiles(files, names)[p] == files[p]
    decreases |names|
  {
    if names != [] {
      var init := names[..|names| - 1];
      DeleteFilesPath(files, init, p);
      assert names == init + [names[|names| - 1]];
    }
  }

  /** Insert-or-replace: the last tuple naming a file decides its row; files no tuple names are untouched. */
  lemma {:induction false} UpsertRow(table: map<string, MediaRow>, added: seq<Added>, k: string)
    ensures (forall j :: 0 <= j < |added| ==> added[j].name != k) ==>
      (k in Upsert(table, added) <==> k in table) && (k in table ==> Upsert(table, added)[k] == table[k])
    ensures (exists j :: 0 <= j < |added| && added[j].name == k) ==>
      k in Upsert(table, added) &&
      exists j :: 0 <= j < |added| && added[j].name == k && Upsert(table, added)[k] == RowOf(added[j]) &&
        forall j' :: j < j' < |added| ==> added[j'].name != k
    decreases |added|
  {
    if added != [] {
      var init := added[..|added| - 1];
      UpsertRow(table, init, k);
      var last := |added| - 1;
      if added[last].name != k {
        assert forall j :: 0 <= j < last ==> init[j] == added[j];
      }
    }
  }

  /**
   * The media table after a successful upload, name by name: a file the
   * client added has the row of its last addition (even when the same
   * upload also deleted it); a file it only deleted keeps its row, if any,
   * with the checksum cleared; any other row is unchanged, and no other
   * row appears.
   */
  lemma AdoptedRow(table: map<string, MediaRow>, removals: seq<string>, added: seq<Added>, k: string)
    ensures var t := Upsert(MarkDeleted(table, removals), added);
      ((exists j :: 0 <= j < |added| && added[j].name == k) ==>
        k in t && exists j :: 0 <= j < |added| && added[j].name == k && t[k] == MediaRow(Some(added[j].csum), added[j].mtime, 0))
      && ((forall j :: 0 <= j < |added| ==> added[j].name != k) ==>
        (k in t <==> k in table) &&
        (k in table ==> t[k] == if k in removals then table[k].(csum := None) else table[k]))
  {
    MarkDeletedRow(table, removals, k);
    UpsertRow(MarkDeleted(table, removals), added, k);
  }

  /** A successful upload has processed exactly one item per `_meta` pair: the deletions plus the added members. */
  lemma AdoptCount(zip: seq<ZipEntry>, env: MediaEnv, table: map<string, MediaRow>, files: map<string, Bytes>)
    requires Adopt(zip, env, table, files).result.Success?
    ensures var n := Adopt(zip, env, table, files).result.value;
      n == |ReadMeta(zip, env).value| && n == DeletionCount(ReadMeta(zip, env).value) + NonMetaCount(zip)
  {
    var meta := ReadMeta(zip, env).value;
    RemovalsCount(meta, env.normalize);
    AddPassCount(zip, meta, env, files);
  }

  /** Adoption that raises leaves the media table as it was, whatever it already wrote to disk. */
  lemma AdoptFailureKeepsTable(zip: seq<ZipEntry>, env: MediaEnv, table: map<string, MediaRow>, files: map<string, Bytes>)
    requires Adopt(zip, env, table, files).result.Failure?
    ensures Adopt(zip, env, table, files).table == table
  {
  }

  /**
   * A name the upload both deletes and adds ends with a table row that has
   * a checksum, while its file is removed from disk: deletions touch the
   * disk after the additions were written.
   */
  lemma DeletedAndAddedLeavesNoFile(zip: seq<ZipEntry>, env: MediaEnv, table: map<string, MediaRow>, files: map<string, Bytes>, name: string)
    requires Adopt(zip, env, table, files).result.Success?
    requires name in Removals(ReadMeta(zip, env).value, env.normalize)
    requires exists a :: a in AddPass(zip, ReadMeta(zip, env).value, env, files).added && a.name == name
    ensures var ad := Adopt(zip, env, table, files);
      name in ad.table && ad.table[name].csum.Some? && name !in ad.files
  {
    var meta := ReadMeta(zip, env).value;
    var removals := Removals(meta, env.normalize);
    var pass := AddPass(zip, meta, env, files);
    var j :| 0 <= j < |pass.added| && pass.added[j].name == name;
    AdoptedRow(table, removals, pass.added, name);
    DeleteFilesPath(pass.files, removals, name);
  }

  // ---------------------------------------------------------------------
  // downloadFiles, as a specification

  /** The total size of the first `k` files. */
  function SumTo(sizes: seq<nat>, k: nat): nat
    requires k <= |sizes|
  {
    if k == 0 then 0 else SumTo(sizes, k - 1) + sizes[k - 1]
  }

  /** The running size once the file at index `j` is packed. */
  function Running(sizes: seq<nat>, j: nat): nat
    requires j < |sizes|
  {
    SumTo(sizes, j + 1)
  }

  /** The break rule of `downloadFiles`, checked right after the file at index `j` is packed. */
  predicate Breaks(sizes: seq<nat>, j: nat)
    requires j < |sizes|
  {
    Running(sizes, j) > SyncZipSize || j > SyncZipCount
  }

  /** How many files the loop packs when it reaches index `k` without having broken. */
  function PackFrom(sizes: seq<nat>, k: nat): nat
    requires k <= |sizes|
    decreases |sizes| - k
  {
    if k == |sizes| then k
    else if Breaks(sizes, k) then k + 1
    else PackFrom(sizes, k + 1)
  }

  /**
   * The download packs a prefix of at most `SYNC_ZIP_COUNT + 2` files; the
   * running size is within `SYNC_ZIP_SIZE` after every packed file but the
   * last; and unless every file was packed, the last one broke a limit.
   */
  lemma {:induction false} PackFromBounds(sizes: seq<nat>, k: nat)
    requires k <= |sizes|
    requires forall j :: 0 <= j < k ==> !Breaks(sizes, j)
    ensures var n := PackFrom(sizes, k);
      k <= n <= |sizes| && n <= SyncZipCount + 2
      && (forall j :: 0 <= j < n - 1 ==> Running(sizes, j) <= SyncZipSize)
      && (n < |sizes| ==> 0 < n && Breaks(sizes, n - 1))
    decreases |sizes| - k
  {
    if k < |sizes| && !Breaks(sizes, k) {
      PackFromBounds(sizes, k + 1);
    } else {
      forall j | 0 <= j < k ensures Running(sizes, j) <= SyncZipSize {
        assert !Breaks(sizes, j);
      }
      if k > 0 {
        assert !Breaks(sizes, k - 1);
      }
    }
  }

  /** What one download packs, from the start: the prefix of the `PackFrom` rule. */
  lemma DownloadBounds(sizes: seq<nat>)
    ensures var n := PackFrom(sizes, 0);
      n <= |sizes| && n <= SyncZipCount + 2
      && (forall j :: 0 <= j < n - 1 ==> Running(sizes, j) <= SyncZipSize)
      && (n < |sizes| ==> 0 < n && Breaks(sizes, n - 1))
      && (sizes != [] ==> n > 0)
  {
    PackFromBounds(sizes, 0);
  }

  /**
   * `os.path.getsize` of each requested file in the media directory; a
   * missing file (which makes the download raise before its size matters)
   * counts 0.
   */
  function SizesIn(files: map<string, Bytes>, fnames: seq<string>): (r: seq<nat>)
    ensures |r| == |fnames|
    ensures forall j :: 0 <= j < |fnames| && fnames[j] in files ==> r[j] == |files[fnames[j]]|
  {
    if fnames == [] then []
    else [if fnames[0] in files then |files[fnames[0]]| else 0] + SizesIn(files, fnames[1..])
  }

  /** The `_meta` map of a download of `n` files: `str(j)` to the `j`th requested name. */
  function FileList(fnames: seq<string>, n: nat): map<string, string>
    requires n <= |fnames|
  {
    if n == 0 then map[] else FileList(fnames, n - 1)[NatToString(n - 1) := fnames[n - 1]]
  }

  /** The `_meta` map names exactly the members `"0"` to `str(n - 1)`, each with its own file. */
  lemma {:induction false} FileListLookup(fnames: seq<string>, n: nat, j: nat)
    requires n <= |fnames|
    ensures NatToString(j) in FileList(fnames, n) <==> j < n
    ensures j < n ==> FileList(fnames, n)[NatToString(j)] == fnames[j]
  {
    if n > 0 {
      FileListLookup(fnames, n - 1, j);
      if NatToString(j) == NatToString(n - 1) {
        NatToStringInjective(j, n - 1);
      }
    }
  }

  lemma {:induction false} FileListKeys(fnames: seq<string>, n: nat, key: string)
    requires n <= |fnames|
    ensures key in FileList(fnames, n) ==> exists j :: 0 <= j < n && key == NatToString(j)
  {
    if n > 0 {
      FileListKeys(fnames, n - 1, key);
    }
  }

  /**
   * The file at index `j` is the one a download finds missing: it is absent,
   * and every earlier file was present and packed without reaching a limit.
   */
  predicate MissingAt(files: map<string, Bytes>, fnames: seq<string>, j: nat)
    requires j < |fnames|
  {
    fnames[j] !in files && forall i :: 0 <= i < j ==> fnames[i] in files && !Breaks(SizesIn(files, fnames), i)
  }

  /** The zip members of a download of the first `n` requested files: `str(j)` holding the `j`th file. */
  function Members(files: map<string, Bytes>, fnames: seq<string>, n: nat): seq<ZipEntry>
    requires n <= |fnames| && forall j :: 0 <= j < n ==> fnames[j] in files
  {
    if n == 0 then [] else Members(files, fnames, n - 1) + [ZipEntry(NatToString(n - 1), files[fnames[n - 1]])]
  }

  /** Member `j` of a download is named `str(j)` and holds the `j`th requested file. */
  lemma {:induction false} MembersLookup(files: map<string, Bytes>, fnames: seq<string>, n: nat, j: nat)
    requires n <= |fnames| && forall j :: 0 <= j < n ==> fnames[j] in files
    requires j < n
    ensures |Members(files, fnames, n)| == n
    ensures Members(files, fnames, n)[j] == ZipEntry(NatToString(j), files[fnames[j]])
  {
    if j < n - 1 {
      MembersLookup(files, fnames, n - 1, j);
    } else {
      MembersLength(files, fnames, n - 1);
    }
  }

  lemma {:induction false} MembersLength(files: map<string, Bytes>, fnames: seq<string>, n: nat)
    requires n <= |fnames| && forall j :: 0 <= j < n ==> fnames[j] in files
    ensures |Members(files, fnames, n)| == n
  {
    if n > 0 {
      MembersLength(files, fnames, n - 1);
    }
  }

  // ---------------------------------------------------------------------
  // The handler

  /** One `[fname, usn, csum]` row of a `mediaChanges` answer. */
  datatype ChangeRow = ChangeRow(fname: string, usn: int, csum: Option<string>)

  /** A `downloadFiles` answer: the members `str(i)` in order, and the `_meta` map from member name to file name. */
  datatype Download = Download(entries: seq<ZipEntry>, flist: map<string, string>)

  /** Why `downloadFiles` raises: a requested file is not in the media directory. */
  datatype DownloadError = MissingFile(fname: string)

  /** `mediaCount()`: the rows of files that are present, that is whose checksum is set. */
  function MediaCount(table: map<string, MediaRow>): nat {
    |set k | k in table && table[k].csum.Some?|
  }

  /** A `SyncMediaHandler` bound to a collection. */
  class MediaHandler {
    /** `self.col`; the session rebinds it on every request. */
    var col: Collection
    /** The session that created this handler; no other session holds it. */
    ghost const owner: object

    constructor(col: Collection, ghost owner: object)
      ensures this.col == col && this.owner == owner
    {
      this.owner := owner;
      this.col := col;
    }

    /** `begin(skey)`: echoes the session key, `None` included, and reports the server's media USN. */
    function Begin(skey: Option<string>): (r: (Option<string>, int))
      reads this, col, col.media
      ensures r.0 == skey && r.1 == col.media.lastUsn
    {
      (skey, col.media.lastUsn)
    }

    /** `mediaSanity(local)`: `"OK"` exactly when the client counts as many present files as the server. */
    function MediaSanity(local: Option<int>): (r: string)
      reads this, col, col.media
      ensures r == "OK" <==> local == Some(MediaCount(col.media.table))
      ensures r == "OK" || r == "FAILED"
    {
      if local == Some(MediaCount(col.media.table)) then "OK" else "FAILED"
    }

    /** The first loop of adoption: the normalised names of the pairs with an empty ordinal. */
    method CollectRemovals(meta: seq<MetaEntry>, normalize: string -> string) returns (names: seq<string>)
      ensures names == Removals(meta, normalize)
    {
      names := [];
      var i := 0;
      while i < |meta|
        invariant 0 <= i <= |meta|
        invariant names == Removals(meta[..i], normalize)
      {
        assert meta[..i + 1][..i] == meta[..i];
        if meta[i].ordinal == "" {
          names := names + [normalize(meta[i].name)];
        }
        i := i + 1;
      }
      assert meta[..i] == meta;
    }

    /** `_remove_media_files(filenames)`: clear the checksums, then delete the files. */
    method RemoveMediaFiles(filenames: seq<string>)
      modifies col.media`table, col.media`files
      ensures col.media.table == MarkDeleted(old(col.media.table), filenames)
      ensures col.media.files == DeleteFiles(old(col.media.files), filenames)
    {
      var m := col.media;
      var i := 0;
      while i < |filenames|
        invariant 0 <= i <= |filenames|
        invariant m.table == MarkDeleted(old(m.table), filenames[..i])
        invariant m.files == old(m.files)
      {
        assert filenames[..i + 1][..i] == filenames[..i];
        var n := filenames[i];
        if n in m.table {
          m.table := m.table[n := m.table[n].(csum := None)];
        }
        i := i + 1;
      }
      assert filenames[..i] == filenames;
      i := 0;
      while i < |filenames|
        invariant 0 <= i <= |filenames|
        invariant m.table == MarkDeleted(old(m.table), filenames)
        invariant m.files == DeleteFiles(old(m.files), filenames[..i])
      {
        assert filenames[..i + 1][..i] == filenames[..i];
        m.files := m.files - {filenames[i]};
        i := i + 1;
      }
      assert filenames[..i] == filenames;
    }

    /**
     * The second loop of adoption: each member other than `_meta` is looked
     * up in `meta`, written to the media directory and queued for the table;
     * the first lookup that raises ends the loop.
     */
    method WriteAdded(zip: seq<ZipEntry>, meta: seq<MetaEntry>, env: MediaEnv) returns (added: seq<Added>, err: Option<UploadError>)
      modifies col.media`files
      ensures Pass(added, col.media.files, err) == AddPass(zip, meta, env, old(col.media.files))
    {
      var m := col.media;
      added := [];
      err := None;
      var i := 0;
      while i < |zip| && err.None?
        invariant 0 <= i <= |zip|
        invariant AddPass(zip[..i], meta, env, old(m.files)) == Pass(added, m.files, err)
      {
        assert zip[..i + 1][..i] == zip[..i];
        var e := zip[i];
        if e.name != "_meta" {
          var csum := env.checksum(e.data);
          var target := MetaFor(meta, e.name);
          if target.Failure? {
            err := Some(target.error);
          } else {
            var filename := env.normalize(target.value.name);
            m.files := m.files[filename := e.data];
            added := added + [Added(filename, csum, env.mtime(filename))];
          }
        }
        i := i + 1;
      }
      if err.Some? {
        AddPassSticky(zip, i, meta, env, old(m.files));
      } else {
        assert zip[..i] == zip;
      }
    }

    /** `INSERT OR REPLACE INTO media VALUES (?,?,?,?)`, tuple by tuple. */
    method InsertRows(added: seq<Added>)
      modifies col.media`table
      ensures col.media.table == Upsert(old(col.media.table), added)
    {
      var m := col.media;
      var j := 0;
      while j < |added|
        invariant 0 <= j <= |added|
        invariant m.table == Upsert(old(m.table), added[..j])
      {
        assert added[..j + 1][..j] == added[..j];
        m.table := m.table[added[j].name := MediaRow(Some(added[j].csum), added[j].mtime, 0)];
        j := j + 1;
      }
      assert added[..j] == added;
    }

    /** `_adopt_media_changes_from_zip(zip)`. */
    method AdoptMediaChanges(zip: seq<ZipEntry>, env: MediaEnv) returns (r: Result<nat, UploadError>)
      modifies col.media`table, col.media`files
      ensures Adoption(col.media.table, col.media.files, r)
        == Adopt(zip, env, old(col.media.table), old(col.media.files))
    {
      var metaEntry := LastNamed(zip, "_meta");
      if metaEntry.None? {
        return Failure(MissingMeta);
      }
      var decoded := env.decodeMeta(metaEntry.value.data);
      if decoded.None? {
        return Failure(BadMeta);
      }
      var meta := decoded.value;
      var removals := CollectRemovals(meta, env.normalize);
      var added, err := WriteAdded(zip, meta, env);
      if err.Some? {
        return Failure(err.value);
      }
      var processed := |removals| + |added|;
      if |meta| != processed {
        return Failure(CountMismatch(|meta|, processed));
      }
      if removals != [] {
        RemoveMediaFiles(removals);
      }
      if added != [] {
        InsertRows(added);
      }
      return Success(processed);
    }

    /**
     * `uploadChanges(data)`: check the archive, adopt it, and advance the
     * media USN by the processed count, answering `[processed, lastUsn]`.
     */
    method UploadChanges(zip: seq<ZipEntry>, env: MediaEnv) returns (r: Result<(nat, int), UploadError>)
      modifies col.media`table, col.media`files, col.media`lastUsn
      ensures CheckZip(zip).Failure? ==>
        r == Failure(CheckZip(zip).error) && unchanged(col.media)
      ensures CheckZip(zip).Success? ==>
        var ad := Adopt(zip, env, old(col.media.table), old(col.media.files));
        col.media.table == ad.table && col.media.files == ad.files
        && (ad.result.Failure? ==> r == Failure(ad.result.error) && col.media.lastUsn == old(col.media.lastUsn))
        && (ad.result.Success? ==>
              r == Success((ad.result.value, col.media.lastUsn))
              && col.media.lastUsn == old(col.media.lastUsn) + ad.result.value)
    {
      var check := CheckZip(zip);
      if check.Failure? {
        return Failure(check.error);
      }
      var processed := AdoptMediaChanges(zip, env);
      if processed.Failure? {
        return Failure(processed.error);
      }
      var ourLastUsn := col.media.lastUsn;
      col.media.lastUsn := ourLastUsn + processed.value;
      return Success((processed.value, col.media.lastUsn));
    }

    /**
     * `downloadFiles(files)`: packs the requested files in order as members
     * `"0"`, `"1"`, ... until the break rule fires, recording each member's
     * file name in `_meta`. A missing file raises.
     */
    method DownloadFiles(fnames: seq<string>) returns (r: Result<Download, DownloadError>)
      ensures r.Success? ==> |r.value.entries| <= |fnames| && |r.value.entries| == PackFrom(SizesIn(col.media.files, fnames), 0)
      ensures r.Success? ==> forall j :: 0 <= j < |r.value.entries| ==> fnames[j] in col.media.files
      ensures r.Success? ==> forall j :: 0 <= j < |r.value.entries| ==>
        r.value.entries[j] == ZipEntry(NatToString(j), col.media.files[fnames[j]])
      ensures r.Success? ==> r.value.flist == FileList(fnames, |r.value.entries|)
      ensures r.Failure? ==> exists j :: 0 <= j < |fnames| && fnames[j] == r.error.fname && MissingAt(col.media.files, fnames, j)
    {
      var files := col.media.files;
      var entries: seq<ZipEntry> := [];
      var flist: map<string, string> := map[];
      var cnt: nat := 0;
      var sz: nat := 0;
      var full := false;
      ghost var sizes := SizesIn(files, fnames);
      while cnt < |fnames| && !full
        invariant cnt <= |fnames|
        invariant forall j :: 0 <= j < cnt ==> fnames[j] in files
        invariant entries == Members(files, fnames, cnt)
        invariant flist == FileList(fnames, cnt)
        invariant sz == SumTo(sizes, cnt)
        invariant full ==> PackFrom(sizes, 0) == cnt
        invariant !full ==> PackFrom(sizes, 0) == PackFrom(sizes, cnt)
        invariant !full ==> forall i :: 0 <= i < cnt ==> !Breaks(sizes, i)
        decreases |fnames| - cnt
      {
        if fnames[cnt] !in files {
          assert MissingAt(files, fnames, cnt);
          return Failure(MissingFile(fnames[cnt]));
        }
        var data := files[fnames[cnt]];
        entries := entries + [ZipEntry(NatToString(cnt), data)];
        flist := flist[NatToString(cnt) := fnames[cnt]];
        sz := sz + |data|;
        full := sz > SyncZipSize || cnt > SyncZipCount;
        cnt := cnt + 1;
      }
      assert PackFrom(sizes, 0) == cnt by {
        if !full {
          assert PackFrom(sizes, cnt) == cnt;
        }
      }
      MembersLength(files, fnames, cnt);
      forall j | 0 <= j < cnt
        ensures entries[j] == ZipEntry(NatToString(j), files[fnames[j]])
      {
        MembersLookup(files, fnames, cnt, j);
      }
      return Success(Download(entries, flist));
    }

    /**
     * `mediaChanges(lastUsn)`: every row of the media table, stamped with the
     * server's media USN, when the client is behind or starting from 0;
     * nothing otherwise.
     */
    method MediaChanges(lastUsn: int) returns (r: seq<ChangeRow>)
      ensures !(lastUsn < col.media.lastUsn || lastUsn == 0) ==> r == []
      ensures (lastUsn < col.media.lastUsn || lastUsn == 0) ==>
        |r| == |col.media.table|
        && (forall row :: row in r ==>
              row.fname in col.media.table && row.usn == col.media.lastUsn && row.csum == col.media.table[row.fname].csum)
        && (forall k :: k in col.media.table ==> exists row :: row in r && row.fname == k)
    {
      var usn := col.media.lastUsn;
      r := [];
      if lastUsn < usn || lastUsn == 0 {
        var table := col.media.table;
        var rest := table.Keys;
        while rest != {}
          invariant rest <= table.Keys
          invariant |r| + |rest| == |table|
          invariant forall row :: row in r ==>
            row.fname in table && row.fname !in rest && row.usn == usn && row.csum == table[row.fname].csum
          invariant forall k :: k in table && k !in rest ==> exists row :: row in r && row.fname == k
          decreases |rest|
        {
          var fname :| fname in rest;
          r := r + [ChangeRow(fname, usn, table[fname].csum)];
          rest := rest - {fname};
        }
      }
    }
  }
}
