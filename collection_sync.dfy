/**
 * `SyncCollectionHandler`: the server side of a collection sync. It covers the
 * `meta` gate, `start` with its choice of when to read the graves table, the
 * USN-window filters (`removed`, `getModels`, `getDecks`, `getTags`) and
 * `sanityCheck2`.
 */
module CollectionSync {
  import opened Wrappers
  import opened Text
  import opened ClientVersion
  import opened Anki

  // ---------------------------------------------------------------------
  // meta

  /** What `meta` answers when it does not raise. */
  datatype MetaReply =
    | UpgradeRequired                                            // Response(status=501)
    | Refused(msg: string)                                       // {"cont": False, "msg": msg}
    | Accepted(scm: int, ts: int, mod: int, usn: int, musn: int)  // {..., "msg": "", "cont": True}

  /** Why `meta` raises: `_old_client` could not parse `cv`, or `v` is missing (`None > SYNC_VER`). */
  datatype MetaError = BadClientVersion(e: VersionError) | MissingProtocolVersion

  function ProtocolMessage(v: int): string {
    "Your client is using unsupported sync protocol (" + IntToString(v)
      + ", supported version: " + IntToString(SyncVer) + ")"
  }

  function SchedulerMessage(schedVer: int): string {
    "Your client doesn't support the v" + IntToString(schedVer) + " scheduler."
  }

  /**
   * The checks `meta` makes before it touches the media database, in their
   * order: upgrade required, protocol too new, scheduler mismatch. `None`
   * means all three passed.
   */
  function MetaGate(v: Option<int>, cv: Option<string>, schedVer: int): (r: Result<Option<MetaReply>, MetaError>)
    ensures r == Success(Some(UpgradeRequired)) <==> OldClient(cv) == Success(true)
    ensures OldClient(cv) == Success(false) && v.Some? && v.value > SyncVer ==>
      r == Success(Some(Refused(ProtocolMessage(v.value))))
    ensures OldClient(cv) == Success(false) && v.Some? && v.value <= SyncVer && v.value < 9 && schedVer >= 2 ==>
      r == Success(Some(Refused(SchedulerMessage(schedVer))))
    ensures r.Failure? <==> OldClient(cv).Failure? || (OldClient(cv) == Success(false) && v.None?)
    ensures r == Success(None) <==>
      OldClient(cv) == Success(false) && v.Some? && v.value <= SyncVer && (v.value >= 9 || schedVer < 2)
    ensures r.Success? && r.value.Some? && r.value.value.Refused? ==>
      OldClient(cv) == Success(false) && v.Some? &&
      (if v.value > SyncVer then r.value.value.msg == ProtocolMessage(v.value)
       else v.value < 9 && schedVer >= 2 && r.value.value.msg == SchedulerMessage(schedVer))
    ensures r.Success? && r.value.Some? ==> !r.value.value.Accepted?
  {
    match OldClient(cv)
    case Failure(e) => Failure(BadClientVersion(e))
    case Success(isOld) =>
      if isOld then Success(Some(UpgradeRequired))
      else
        match v
        case None => Failure(MissingProtocolVersion)
        case Some(x) =>
          if x > SyncVer then Success(Some(Refused(ProtocolMessage(x))))
          else if x < 9 && schedVer >= 2 then Success(Some(Refused(SchedulerMessage(schedVer))))
          else Success(None)
  }

  /** An old client is sent away before the protocol version is looked at, even a missing one. */
  lemma OldClientIgnoresProtocol(v: Option<int>, cv: Option<string>, schedVer: int)
    requires OldClient(cv) == Success(true)
    ensures MetaGate(v, cv, schedVer) == MetaGate(None, cv, schedVer) == Success(Some(UpgradeRequired))
  {
  }

  /** A desktop client at 2.0.26 is told to upgrade whatever it says about its protocol. */
  lemma OldDesktopUpgrade(v: Option<int>, schedVer: int)
    ensures MetaGate(v, Some("ankidesktop,2.0.26,mac"), schedVer) == Success(Some(UpgradeRequired))
  {
    DesktopScenario();
  }

  /** A `cv` with no comma, `"foo"` say, makes `meta` raise before anything else is looked at. */
  lemma CommaFreeClientVersionRaises(v: Option<int>, cv: string, schedVer: int)
    requires cv != "" && NoComma(cv)
    ensures MetaGate(v, Some(cv), schedVer) == Failure(BadClientVersion(WrongFieldCount(1)))
  {
    AbsentCharNoOccurrence(cv, ",", 0);
    assert Split(cv, ",") == [cv];
  }

  // ---------------------------------------------------------------------
  // removed and start

  /** The three lists of the tombstone dictionary. */
  datatype GraveList = CardList | NoteList | DeckList

  /** The list a grave of this type goes to: `REM_CARD`, `REM_NOTE`, anything else. */
  function ListOf(kind: int): GraveList {
    if kind == RemCard then CardList else if kind == RemNote then NoteList else DeckList
  }

  /** The ids, in table order, of the graves with `usn >= minUsn` that go to `list`. */
  function Collect(gs: seq<Grave>, minUsn: int, list: GraveList): seq<int>
    decreases |gs|
  {
    if gs == [] then []
    else
      var g := gs[|gs| - 1];
      Collect(gs[..|gs| - 1], minUsn, list) + (if g.usn >= minUsn && ListOf(g.kind) == list then [g.oid] else [])
  }

  /** What `removed` returns for a graves table: its rows since `minUsn`, split by type. */
  function Tombstones(gs: seq<Grave>, minUsn: int): GraveSet {
    GraveSet(Collect(gs, minUsn, CardList), Collect(gs, minUsn, NoteList), Collect(gs, minUsn, DeckList))
  }

  /** The rows of the graves table within the window, in table order. */
  function Recent(gs: seq<Grave>, minUsn: int): (r: seq<Grave>)
    ensures forall g :: g in r <==> g in gs && g.usn >= minUsn
    decreases |gs|
  {
    if gs == [] then []
    else
      var g := gs[|gs| - 1];
      assert gs == gs[..|gs| - 1] + [g];
      Recent(gs[..|gs| - 1], minUsn) + (if g.usn >= minUsn then [g] else [])
  }

  function Oids(gs: seq<Grave>): (r: seq<int>) {
    seq(|gs|, i requires 0 <= i < |gs| => gs[i].oid)
  }

  /** An id is in a list exactly when a grave of that id, type and window is in the table. */
  lemma {:induction false} CollectMembership(gs: seq<Grave>, minUsn: int, list: GraveList, oid: int)
    ensures oid in Collect(gs, minUsn, list) <==>
      exists g :: g in gs && g.oid == oid && g.usn >= minUsn && ListOf(g.kind) == list
    decreases |gs|
  {
    if gs != [] {
      var init := gs[..|gs| - 1];
      CollectMembership(init, minUsn, list, oid);
      assert gs == init + [gs[|gs| - 1]];
    }
  }

  /** Reading one more row adds its id to the list of its type, when it is in the window. */
  lemma TombstonesStep(gs: seq<Grave>, minUsn: int)
    requires gs != []
    ensures var g, t, t' := gs[|gs| - 1], Tombstones(gs, minUsn), Tombstones(gs[..|gs| - 1], minUsn);
      var add := if g.usn >= minUsn then [g.oid] else [];
      multiset(t.cards) + multiset(t.notes) + multiset(t.decks)
        == multiset(t'.cards) + multiset(t'.notes) + multiset(t'.decks) + multiset(add)
  {
    var g := gs[|gs| - 1];
    var t, t' := Tombstones(gs, minUsn), Tombstones(gs[..|gs| - 1], minUsn);
    var add := if g.usn >= minUsn then [g.oid] else [];
    var none: seq<int> := [];
    var inCards := if ListOf(g.kind) == CardList then add else none;
    var inNotes := if ListOf(g.kind) == NoteList then add else none;
    var inDecks := if ListOf(g.kind) == DeckList then add else none;
    assert t.cards == t'.cards + inCards;
    assert t.notes == t'.notes + inNotes;
    assert t.decks == t'.decks + inDecks;
    assert multiset(inCards) + multiset(inNotes) + multiset(inDecks) == multiset(add);
  }

  lemma RecentStep(gs: seq<Grave>, minUsn: int)
    requires gs != []
    ensures var g := gs[|gs| - 1];
      Oids(Recent(gs, minUsn)) == Oids(Recent(gs[..|gs| - 1], minUsn)) + (if g.usn >= minUsn then [g.oid] else [])
  {
    var g := gs[|gs| - 1];
    var rec := Recent(gs[..|gs| - 1], minUsn);
    if g.usn >= minUsn {
      assert Recent(gs, minUsn) == rec + [g];
      assert Oids(rec + [g]) == Oids(rec) + [g.oid];
    } else {
      assert Recent(gs, minUsn) == rec;
    }
  }

  /** Every grave in the window lands in exactly one of the three lists: together they hold its id once. */
  lemma {:induction false} TombstonesPartition(gs: seq<Grave>, minUsn: int)
    ensures var t := Tombstones(gs, minUsn);
      multiset(t.cards) + multiset(t.notes) + multiset(t.decks) == multiset(Oids(Recent(gs, minUsn)))
    decreases |gs|
  {
    if gs != [] {
      TombstonesPartition(gs[..|gs| - 1], minUsn);
      TombstonesStep(gs, minUsn);
      RecentStep(gs, minUsn);
    }
  }

  /** The three lists together are exactly as long as the window. */
  lemma TombstonesCount(gs: seq<Grave>, minUsn: int)
    ensures var t := Tombstones(gs, minUsn);
      |t.cards| + |t.notes| + |t.decks| == |Recent(gs, minUsn)|
  {
    TombstonesPartition(gs, minUsn);
    var t := Tombstones(gs, minUsn);
    assert |multiset(t.cards) + multiset(t.notes) + multiset(t.decks)| == |multiset(Oids(Recent(gs, minUsn)))|;
  }

  function ConcatGraves(a: GraveSet, b: GraveSet): GraveSet {
    GraveSet(a.cards + b.cards, a.notes + b.notes, a.decks + b.decks)
  }

  /** Reading a longer table reads its prefix first. */
  lemma {:induction false} CollectAppend(a: seq<Grave>, b: seq<Grave>, minUsn: int, list: GraveList)
    ensures Collect(a + b, minUsn, list) == Collect(a, minUsn, list) + Collect(b, minUsn, list)
    decreases |b|
  {
    if b == [] {
      assert a + b == a;
    } else {
      var init, g := b[..|b| - 1], b[|b| - 1];
      var tail := if g.usn >= minUsn && ListOf(g.kind) == list then [g.oid] else [];
      CollectAppend(a, init, minUsn, list);
      assert (a + b)[..|a + b| - 1] == a + init;
      assert (a + b)[|a + b| - 1] == g;
      assert Collect(a + b, minUsn, list) == Collect(a + init, minUsn, list) + tail;
      assert Collect(b, minUsn, list) == Collect(init, minUsn, list) + tail;
    }
  }

  /** The graves `remove` writes for one list of ids, at one USN. */
  function Mark(ids: seq<int>, kind: int, usn: int): (r: seq<Grave>)
    ensures |r| == |ids|
  {
    if ids == [] then [] else Mark(ids[..|ids| - 1], kind, usn) + [Grave(ids[|ids| - 1], kind, usn)]
  }

  /**
   * The rows anki's `Syncer.remove` adds to the graves table, as the server
   * (at `col._usn`): notes first, then cards, then decks.
   */
  function LoggedGraves(g: GraveSet, usn: int): (r: seq<Grave>)
    ensures |r| == |g.notes| + |g.cards| + |g.decks|
  {
    Mark(g.notes, RemNote, usn) + Mark(g.cards, RemCard, usn) + Mark(g.decks, RemDeck, usn)
  }

  lemma {:induction false} CollectMark(ids: seq<int>, kind: int, usn: int, minUsn: int, list: GraveList)
    ensures Collect(Mark(ids, kind, usn), minUsn, list) ==
      if usn >= minUsn && ListOf(kind) == list then ids else []
    decreases |ids|
  {
    if ids != [] {
      var init := ids[..|ids| - 1];
      CollectMark(init, kind, usn, minUsn, list);
      var m := Mark(ids, kind, usn);
      assert m[..|m| - 1] == Mark(init, kind, usn);
      assert init + [ids[|ids| - 1]] == ids;
    }
  }

  /** Within the window, the graves `remove` logs read back as exactly the sets it was given. */
  lemma LoggedGravesReadBack(g: GraveSet, usn: int, minUsn: int)
    requires usn >= minUsn
    ensures Tombstones(LoggedGraves(g, usn), minUsn) == g
  {
    var n, c, d := Mark(g.notes, RemNote, usn), Mark(g.cards, RemCard, usn), Mark(g.decks, RemDeck, usn);
    forall list: GraveList
      ensures Collect(n + c + d, minUsn, list) ==
        (if list == NoteList then g.notes else []) + (if list == CardList then g.cards else [])
        + (if list == DeckList then g.decks else [])
    {
      CollectAppend(n + c, d, minUsn, list);
      CollectAppend(n, c, minUsn, list);
      CollectMark(g.notes, RemNote, usn, minUsn, list);
      CollectMark(g.cards, RemCard, usn, minUsn, list);
      CollectMark(g.decks, RemDeck, usn, minUsn, list);
    }
  }

  /**
   * Why `start` reads the table before applying the client's graves: read
   * afterwards, the answer would also echo every deletion the client has
   * just sent (they are logged at `col._usn`, inside any window that reaches
   * it).
   */
  lemma ReadAfterRemoveEchoes(gs: seq<Grave>, g: GraveSet, usn: int, minUsn: int)
    requires usn >= minUsn
    ensures Tombstones(gs + LoggedGraves(g, usn), minUsn) == ConcatGraves(Tombstones(gs, minUsn), g)
  {
    var logged := LoggedGraves(g, usn);
    LoggedGravesReadBack(g, usn, minUsn);
    CollectAppend(gs, logged, minUsn, CardList);
    CollectAppend(gs, logged, minUsn, NoteList);
    CollectAppend(gs, logged, minUsn, DeckList);
  }

  /** The default `graves` argument of `start`. */
  const NoGraves: GraveSet := GraveSet([], [], [])

  // ---------------------------------------------------------------------
  // Filters on the change lists

  /** `[m for m in items if m['usn'] >= minUsn]`. */
  function Fresh(items: seq<Entity>, minUsn: int): (r: seq<Entity>)
    ensures forall e :: e in r <==> e in items && e.usn >= minUsn
    ensures |r| <= |items|
  {
    if items == [] then []
    else
      assert items == [items[0]] + items[1..];
      (if items[0].usn >= minUsn then [items[0]] else []) + Fresh(items[1..], minUsn)
  }

  /** The filter keeps the original order: filtering a concatenation filters each part. */
  lemma {:induction false} FreshAppend(a: seq<Entity>, b: seq<Entity>, minUsn: int)
    ensures Fresh(a + b, minUsn) == Fresh(a, minUsn) + Fresh(b, minUsn)
    decreases |a|
  {
    if a != [] {
      FreshAppend(a[1..], b, minUsn);
      assert (a + b)[1..] == a[1..] + b;
    } else {
      assert a + b == b;
    }
  }

  /** Narrowing the window again with a later bound is the same as filtering once with it. */
  lemma {:induction false} FreshNarrow(items: seq<Entity>, lo: int, hi: int)
    requires lo <= hi
    ensures Fresh(Fresh(items, lo), hi) == Fresh(items, hi)
    decreases |items|
  {
    if items != [] {
      FreshNarrow(items[1..], lo, hi);
      var head := if items[0].usn >= lo then [items[0]] else [];
      FreshAppend(head, Fresh(items[1..], lo), hi);
    }
  }

  /** `[t for t, usn in tags if usn >= minUsn]`: the names, not the pairs. */
  function TagNames(tags: seq<Tag>, minUsn: int): (r: seq<string>)
    ensures forall n :: n in r <==> exists t :: t in tags && t.name == n && t.usn >= minUsn
    ensures |r| <= |tags|
  {
    if tags == [] then []
    else
      assert tags == [tags[0]] + tags[1..];
      (if tags[0].usn >= minUsn then [tags[0].name] else []) + TagNames(tags[1..], minUsn)
  }

  /** The tag names keep their order: naming a concatenation names each part. */
  lemma {:induction false} TagNamesAppend(a: seq<Tag>, b: seq<Tag>, minUsn: int)
    ensures TagNames(a + b, minUsn) == TagNames(a, minUsn) + TagNames(b, minUsn)
    decreases |a|
  {
    if a != [] {
      TagNamesAppend(a[1..], b, minUsn);
      assert (a + b)[1..] == a[1..] + b;
    } else {
      assert a + b == b;
    }
  }

  // ---------------------------------------------------------------------
  // sanityCheck2

  /** `{"status": "ok"}` or `{"status": "bad", "c": client, "s": server}`. */
  datatype SanityReply = SanityOk | SanityBad(c: seq<int>, s: seq<int>)

  /** `sanityCheck2`, with the server's own summary (anki's `sanityCheck()`) as a parameter. */
  function SanityCheck2(client: seq<int>, server: seq<int>): (r: SanityReply)
    ensures r == SanityOk <==> client == server
    ensures r.SanityBad? ==> r.c == client && r.s == server
  {
    if client != server then SanityBad(client, server) else SanityOk
  }

  // ---------------------------------------------------------------------
  // The handler

  /** A `SyncCollectionHandler` bound to a collection. */
  class CollectionHandler {
    /** `self.col`; the session rebinds it on every request. */
    var col: Collection
    var minUsn: int
    var maxUsn: int
    var lnewer: bool
    /** The session that created this handler; no other session holds it. */
    ghost const owner: object

    constructor(col: Collection, ghost owner: object)
      ensures this.col == col && minUsn == 0 && maxUsn == 0 && !lnewer
      ensures this.owner == owner
    {
      this.owner := owner;
      this.col := col;
      this.minUsn := 0;
      this.maxUsn := 0;
      this.lnewer := false;
    }

    /** `usnLim()`: the SQL condition for the window; it encodes `minUsn` in decimal. */
    function UsnLimit(): (r: string)
      reads this
      ensures StartsWith(r, "usn >= ")
      ensures ParseInt(r[7..]) == Some(minUsn)
    {
      var r := "usn >= " + IntToString(minUsn);
      assert r[7..] == IntToString(minUsn);
      ParseIntToString(minUsn);
      r
    }

    /**
     * `meta(v, cv)`: the gate, then (only when every check passes) the media
     * database is opened and the collection's metadata returned; `now` is
     * `intTime()`.
     */
    method Meta(v: Option<int>, cv: Option<string>, now: int) returns (r: Result<MetaReply, MetaError>)
      modifies col.media`dbOpen
      ensures match MetaGate(v, cv, old(col.schedVer))
        case Failure(e) => r == Failure(e) && col.media.dbOpen == old(col.media.dbOpen)
        case Success(Some(reply)) => r == Success(reply) && col.media.dbOpen == old(col.media.dbOpen)
        case Success(None) =>
          col.media.dbOpen &&
          r == Success(Accepted(col.scm, now, col.mod, col.usn, col.media.lastUsn))
    {
      var gate := MetaGate(v, cv, col.schedVer);
      match gate
      case Failure(e) =>
        return Failure(e);
      case Success(Some(reply)) =>
        return Success(reply);
      case Success(None) =>
        if !col.media.dbOpen {
          col.media.Connect();
        }
        return Success(Accepted(col.scm, now, col.mod, col.usn, col.media.lastUsn));
    }

    /** `removed()`: the graves since `minUsn`, read row by row and split by type. */
    method Removed() returns (r: GraveSet)
      ensures r == Tombstones(col.graves, minUsn)
    {
      var cards, notes, decks := [], [], [];
      var gs := col.graves;
      var i := 0;
      while i < |gs|
        invariant 0 <= i <= |gs|
        invariant cards == Collect(gs[..i], minUsn, CardList)
        invariant notes == Collect(gs[..i], minUsn, NoteList)
        invariant decks == Collect(gs[..i], minUsn, DeckList)
      {
        var g := gs[i];
        assert gs[..i + 1][..i] == gs[..i];
        if g.usn >= minUsn {
          if g.kind == RemCard {
            cards := cards + [g.oid];
          } else if g.kind == RemNote {
            notes := notes + [g.oid];
          } else {
            decks := decks + [g.oid];
          }
        }
        i := i + 1;
      }
      assert gs[..i] == gs;
      r := GraveSet(cards, notes, decks);
    }

    /** anki's `Syncer.remove(graves)`, by its effect on the graves table. */
    method Remove(graves: GraveSet)
      modifies col`graves
      ensures col.graves == old(col.graves) + LoggedGraves(graves, col.usn)
    {
      col.graves := col.graves + LoggedGraves(graves, col.usn);
    }

    /**
     * `start(minUsn, lnewer, graves)`: fixes the window, flips `lnewer`, and
     * answers with the server's graves read before the client's are applied.
     */
    method Start(minUsn: int, lnewer: bool, graves: GraveSet) returns (lgraves: GraveSet)
      modifies this, col`graves
      ensures col == old(col)
      ensures maxUsn == col.usn && this.minUsn == minUsn && this.lnewer == !lnewer
      ensures lgraves == Tombstones(old(col.graves), minUsn)
      ensures col.graves == old(col.graves) + LoggedGraves(graves, col.usn)
    {
      maxUsn := col.usn;
      this.minUsn := minUsn;
      this.lnewer := !lnewer;
      lgraves := Removed();
      Remove(graves);
    }

    /** `applyGraves(chunk)`. */
    method ApplyGraves(chunk: GraveSet)
      modifies col`graves
      ensures col.graves == old(col.graves) + LoggedGraves(chunk, col.usn)
    {
      Remove(chunk);
    }

    /** `getModels()`: the models changed since `minUsn`. */
    function GetModels(): (r: seq<Entity>)
      reads this, col
      ensures forall m :: m in r <==> m in col.models && m.usn >= minUsn
    {
      Fresh(col.models, minUsn)
    }

    /** `getDecks()`: the decks and the deck configurations changed since `minUsn`. */
    function GetDecks(): (r: (seq<Entity>, seq<Entity>))
      reads this, col
      ensures forall d :: d in r.0 <==> d in col.decks && d.usn >= minUsn
      ensures forall c :: c in r.1 <==> c in col.deckConfs && c.usn >= minUsn
    {
      (Fresh(col.decks, minUsn), Fresh(col.deckConfs, minUsn))
    }

    /** `getTags()`: the names of the tags changed since `minUsn`. */
    function GetTags(): (r: seq<string>)
      reads this, col
      ensures forall n :: n in r <==> exists t :: t in col.tags && t.name == n && t.usn >= minUsn
    {
      TagNames(col.tags, minUsn)
    }
  }
}
