/**
 * The client-version gate of `SyncCollectionHandler._old_client`: a
 * `client,version,platform` string is parsed, the `alpha`/`beta`/`rc`
 * suffixes become counters, any other non-numeric tail is cut off, and the
 * remaining dotted numbers are compared, like Python lists, with the oldest
 * version each known client family may still use.
 */
module ClientVersion {
  import opened Wrappers
  import opened Text

  /** The pre-release counters `note["alpha"]`, `note["beta"]`, `note["rc"]`. */
  datatype Notes = Notes(alpha: int, beta: int, rc: int)

  /** Why parsing a client-version string raised `ValueError`. */
  datatype VersionError =
    | WrongFieldCount(fields: nat)   // `client, version, platform = cv.split(',')` did not unpack
    | BadNumber(text: string)        // `int(...)` refused a piece of the version

  /** Python's list `<`: lexicographic, and a proper prefix is smaller. */
  predicate LexLess(a: seq<int>, b: seq<int>) {
    if a == [] then b != []
    else if b == [] then false
    else if a[0] != b[0] then a[0] < b[0]
    else LexLess(a[1..], b[1..])
  }

  /**
   * `LexLess` is the usual lexicographic order: the two lists agree up to some
   * position `k`, and there either `a` has ended while `b` goes on, or `a`'s
   * element is the smaller one.
   */
  lemma {:induction false} LexLessIff(a: seq<int>, b: seq<int>)
    ensures LexLess(a, b) <==>
      exists k: nat :: k <= |a| && k <= |b| && a[..k] == b[..k] &&
        ((k == |a| && k < |b|) || (k < |a| && k < |b| && a[k] < b[k]))
  {
    if a == [] || b == [] {
      assert a[..0] == b[..0];
    } else if a[0] != b[0] {
      assert a[..0] == b[..0];
      forall k: nat | 0 < k <= |a| && k <= |b| ensures a[..k] != b[..k] {
        assert a[..k][0] == a[0] && b[..k][0] == b[0];
      }
    } else {
      LexLessIff(a[1..], b[1..]);
      if LexLess(a, b) {
        var k: nat :| k <= |a| - 1 && k <= |b| - 1 && a[1..][..k] == b[1..][..k] &&
          ((k == |a| - 1 && k < |b| - 1) || (k < |a| - 1 && k < |b| - 1 && a[1..][k] < b[1..][k]));
        assert a[..k + 1] == [a[0]] + a[1..][..k];
        assert b[..k + 1] == [b[0]] + b[1..][..k];
      }
      if exists k: nat :: k <= |a| && k <= |b| && a[..k] == b[..k] &&
          ((k == |a| && k < |b|) || (k < |a| && k < |b| && a[k] < b[k])) {
        var k: nat :| k <= |a| && k <= |b| && a[..k] == b[..k] &&
          ((k == |a| && k < |b|) || (k < |a| && k < |b| && a[k] < b[k]));
        assert k > 0;
        assert a[1..][..k - 1] == a[1..k] == b[1..k] == b[1..][..k - 1];
      }
    }
  }

  /** A character `[0-9.]` keeps. */
  predicate IsVersionChar(c: char) {
    IsDigit(c) || c == '.'
  }

  predicate AllVersionChars(s: string) {
    forall i :: 0 <= i < |s| ==> IsVersionChar(s[i])
  }

  /**
   * What `re.sub(r'[^0-9.].*$', '', s)` leaves of `s`: everything before the
   * first character that is neither a digit nor a dot.
   */
  function NumericPrefix(s: string): (r: string)
    ensures |r| <= |s| && r == s[..|r|]
    ensures AllVersionChars(r)
    ensures |r| < |s| ==> !IsVersionChar(s[|r|])
  {
    if s == [] || !IsVersionChar(s[0]) then [] else [s[0]] + NumericPrefix(s[1..])
  }

  /** A tail that starts with a character outside `[0-9.]` is dropped whole. */
  lemma {:induction false} NumericPrefixDropsTail(d: string, t: string)
    requires AllVersionChars(d)
    requires t == [] || !IsVersionChar(t[0])
    ensures NumericPrefix(d + t) == d
  {
    if d != [] {
      assert (d + t)[1..] == d[1..] + t;
      NumericPrefixDropsTail(d[1..], t);
      assert d == [d[0]] + d[1..];
    } else {
      assert d + t == t;
    }
  }

  /** `[int(x) for x in parts]`. */
  function ParseAll(parts: seq<string>): (r: Result<seq<int>, VersionError>)
    ensures r.Success? ==> |r.value| == |parts|
    ensures r.Failure? ==> r.error.BadNumber?
  {
    if parts == [] then Success([])
    else match ParseInt(parts[0])
      case None => Failure(BadNumber(parts[0]))
      case Some(n) =>
        match ParseAll(parts[1..])
        case Failure(e) => Failure(e)
        case Success(ns) => Success([n] + ns)
  }

  /**
   * `[int(x) for x in version_nosuffix.split('.')]`: one number per dotted
   * part, and only `int()` can raise, so an empty version raises.
   */
  function VersionInts(s: string): (r: Result<seq<int>, VersionError>)
    ensures r.Success? ==> |r.value| == |Split(s, ".")| && s != []
    ensures r.Failure? ==> r.error.BadNumber?
  {
    ParseAll(Split(s, "."))
  }

  /**
   * One turn of the `for name in note` loop: when `name` occurs, the version
   * keeps the text before its first occurrence and the counter becomes the
   * integer after its last one.
   */
  function StripNote(version: string, name: string, counter: int): (r: Result<(string, int), VersionError>)
    requires name != []
    ensures !Contains(version, name) ==> r == Success((version, counter))
    ensures r.Success? && Contains(version, name) ==> !Contains(r.value.0, name)
    ensures r.Failure? ==> Contains(version, name) && r.error.BadNumber?
  {
    if !Contains(version, name) then Success((version, counter))
    else
      var vs := Split(version, name);
      SplitPiecesLackSeparator(version, name, 0);
      match ParseInt(vs[|vs| - 1])
      case None => Failure(BadNumber(vs[|vs| - 1]))
      case Some(n) => Success((vs[0], n))
  }

  /**
   * The loop over `alpha`, `beta`, `rc`, in the dictionary's order: a
   * version without any of them is kept with every counter at 0, the `alpha`
   * counter is set only when `alpha` occurs, and what remains holds no `rc`.
   */
  function StripNotes(version: string): (r: Result<(string, Notes), VersionError>)
    ensures !Contains(version, "alpha") && !Contains(version, "beta") && !Contains(version, "rc") ==>
      r == Success((version, Notes(0, 0, 0)))
    ensures r.Success? && r.value.1.alpha != 0 ==> Contains(version, "alpha")
    ensures r.Success? ==> !Contains(r.value.0, "rc")
    ensures r.Failure? ==> r.error.BadNumber?
  {
    match StripNote(version, "alpha", 0)
    case Failure(e) => Failure(e)
    case Success((v1, alpha)) =>
      match StripNote(v1, "beta", 0)
      case Failure(e) => Failure(e)
      case Success((v2, beta)) =>
        match StripNote(v2, "rc", 0)
        case Failure(e) => Failure(e)
        case Success((v3, rc)) => Success((v3, Notes(alpha, beta, rc)))
  }

  /** A parsed client-version string: the client's name, its version numbers and its counters. */
  datatype ClientInfo = ClientInfo(client: string, version: seq<int>, notes: Notes)

  /**
   * The parsing half of `_old_client`, for a non-empty `cv`: anything but
   * three comma-separated fields raises on the unpacking; otherwise the
   * client is the first field and only `int()` can raise.
   */
  function ParseClientVersion(cv: string): (r: Result<ClientInfo, VersionError>)
    ensures |Split(cv, ",")| != 3 ==> r == Failure(WrongFieldCount(|Split(cv, ",")|))
    ensures |Split(cv, ",")| == 3 && r.Failure? ==> r.error.BadNumber?
    ensures r.Success? ==> |Split(cv, ",")| == 3 && r.value.client == Split(cv, ",")[0]
  {
    var fields := Split(cv, ",");
    if |fields| != 3 then Failure(WrongFieldCount(|fields|))
    else
      match StripNotes(fields[1])
      case Failure(e) => Failure(e)
      case Success((version, notes)) =>
        match VersionInts(NumericPrefix(version))
        case Failure(e) => Failure(e)
        case Success(ints) => Success(ClientInfo(fields[0], ints, notes))
  }

  /**
   * The deciding half of `_old_client`. For `ankidroid` 2.3 without an alpha
   * counter the source falls off the end of its branch and returns `None`,
   * which its caller reads as "not old".
   */
  predicate IsOld(info: ClientInfo)
    ensures IsOld(info) ==> info.client == "ankidesktop" || info.client == "ankidroid"
    ensures info.client == "ankidroid" && info.version == [2, 3] && info.notes.alpha == 0 ==> !IsOld(info)
  {
    if info.client == "ankidesktop" then LexLess(info.version, [2, 0, 27])
    else if info.client == "ankidroid" then
      if info.version == [2, 3] then info.notes.alpha != 0 && info.notes.alpha < 4
      else LexLess(info.version, [2, 2, 3])
    else false
  }

  /** `SyncCollectionHandler._old_client(cv)`: a missing or empty `cv` is never old. */
  function OldClient(cv: Option<string>): (r: Result<bool, VersionError>)
    ensures cv.None? || cv == Some("") ==> r == Success(false)
    ensures r.Failure? ==> cv.Some? && cv.value != "" && ParseClientVersion(cv.value) == Failure(r.error)
    ensures r == Success(true) ==>
      cv.Some? && ParseClientVersion(cv.value).Success?
      && (ParseClientVersion(cv.value).value.client == "ankidesktop" || ParseClientVersion(cv.value).value.client == "ankidroid")
  {
    if cv.None? || cv.value == "" then Success(false)
    else
      match ParseClientVersion(cv.value)
      case Failure(e) => Failure(e)
      case Success(info) => Success(IsOld(info))
  }

  // ---------------------------------------------------------------------
  // Well-formed client-version strings and what the gate says about them.

  /** The decimal dotted form of a version, `"2.0.27"` for `[2, 0, 27]`. */
  function Dotted(ns: seq<nat>): (s: string)
    requires ns != []
    ensures s != [] && AllVersionChars(s)
  {
    if |ns| == 1 then NatToString(ns[0]) else NatToString(ns[0]) + "." + Dotted(ns[1..])
  }

  predicate NoComma(s: string) {
    forall i :: 0 <= i < |s| ==> s[i] != ','
  }

  /** `sep` cannot occur where one of its characters never appears. */
  lemma AbsentCharNoOccurrence(s: string, sep: string, i: nat)
    requires sep != [] && i < |sep|
    requires forall j :: 0 <= j < |s| ==> s[j] != sep[i]
    ensures !Contains(s, sep)
  {
    forall k: nat ensures !OccursAt(s, sep, k) {
      if k + |sep| <= |s| {
        assert s[k..k + |sep|][i] == s[k + i];
      }
    }
  }

  /** The decimal names of the numbers, `["2", "0", "27"]` for `[2, 0, 27]`. */
  function Decimals(ns: seq<nat>): (r: seq<string>)
    ensures |r| == |ns|
  {
    if ns == [] then [] else [NatToString(ns[0])] + Decimals(ns[1..])
  }

  lemma {:induction false} SplitDotted(ns: seq<nat>)
    requires ns != []
    ensures Split(Dotted(ns), ".") == Decimals(ns)
  {
    var head := NatToString(ns[0]);
    AbsentCharNoOccurrence(head, ".", 0);
    if |ns| == 1 {
      SplitWithoutSeparator(head, ".");
      assert ns[1..] == [];
    } else {
      SplitDotted(ns[1..]);
      var tail := Dotted(ns[1..]);
      forall j: nat | j < |head| ensures !OccursAt(head + "." + tail, ".", j) {
        assert (head + "." + tail)[j] == head[j];
      }
      SplitAtFirst(head, ".", tail);
    }
  }

  lemma {:induction false} ParseDecimals(ns: seq<nat>)
    ensures ParseAll(Decimals(ns)) == Success(ns)
  {
    if ns != [] {
      ParseNatToString(ns[0]);
      ParseDecimals(ns[1..]);
      assert Decimals(ns)[1..] == Decimals(ns[1..]);
      assert ns == [ns[0]] + ns[1..];
    }
  }

  /** Reading the numbers of a dotted version gives them back. */
  lemma VersionIntsOfDotted(ns: seq<nat>)
    requires ns != []
    ensures VersionInts(Dotted(ns)) == Success(ns)
  {
    SplitDotted(ns);
    ParseDecimals(ns);
  }

  /** A separator whose first character is absent from `a` cannot start inside `a`, even across the join. */
  lemma PrefixLacksSeparator(a: string, sep: string, b: string)
    requires sep != []
    requires forall i :: 0 <= i < |a| ==> a[i] != sep[0]
    ensures forall j: nat :: j < |a| ==> !OccursAt(a + sep + b, sep, j)
  {
    var v := a + sep + b;
    forall j: nat | j < |a| ensures !OccursAt(v, sep, j) {
      assert v[j] == a[j];
      if j + |sep| <= |v| {
        assert v[j..j + |sep|][0] == v[j];
      }
    }
  }

  /** The three fields of a `cv` whose parts hold no comma. */
  lemma SplitFields(client: string, version: string, platform: string)
    requires NoComma(client) && NoComma(version) && NoComma(platform)
    ensures Split(client + "," + version + "," + platform, ",") == [client, version, platform]
  {
    var rest := version + "," + platform;
    assert client + "," + version + "," + platform == client + "," + rest;
    PrefixLacksSeparator(client, ",", rest);
    SplitAtFirst(client, ",", rest);
    PrefixLacksSeparator(version, ",", platform);
    SplitAtFirst(version, ",", platform);
    AbsentCharNoOccurrence(platform, ",", 0);
    SplitWithoutSeparator(platform, ",");
    assert Split(rest, ",") == [version, platform];
  }

  /** A version made of digits and dots carries no counter and keeps its text. */
  lemma StripNotesPlain(d: string)
    requires AllVersionChars(d)
    ensures StripNotes(d) == Success((d, Notes(0, 0, 0)))
  {
    AbsentCharNoOccurrence(d, "alpha", 0);
    AbsentCharNoOccurrence(d, "beta", 0);
    AbsentCharNoOccurrence(d, "rc", 0);
  }

  /** `d + name + str(n)` splits at `name` into the dotted part and the counter. */
  lemma StripOneNote(d: string, name: string, n: nat)
    requires AllVersionChars(d)
    requires name != [] && !IsVersionChar(name[0])
    requires forall i :: 0 <= i < |name| ==> !IsDigit(name[i])
    ensures Contains(d + name + NatToString(n), name)
    ensures StripNote(d + name + NatToString(n), name, 0) == Success((d, n))
  {
    var digits := NatToString(n);
    PrefixLacksSeparator(d, name, digits);
    SplitAtFirst(d, name, digits);
    AbsentCharNoOccurrence(digits, name, 0);
    SplitWithoutSeparator(digits, name);
    ParseNatToString(n);
  }

  /** The counters a suffix `name + str(n)` sets. */
  function NotesFor(name: string, n: nat): Notes {
    if name == "alpha" then Notes(n, 0, 0)
    else if name == "beta" then Notes(0, n, 0)
    else Notes(0, 0, n)
  }

  /** A `name` one of whose characters never appears in `version` leaves it and the counter alone. */
  lemma StripNoteAbsent(version: string, name: string, i: nat, counter: int)
    requires name != [] && i < |name|
    requires forall j :: 0 <= j < |version| ==> version[j] != name[i]
    ensures StripNote(version, name, counter) == Success((version, counter))
  {
    AbsentCharNoOccurrence(version, name, i);
  }

  /** The characters of `d + name + str(n)`: version characters and those of `name`. */
  lemma SuffixedChars(d: string, name: string, n: nat, c: char)
    requires AllVersionChars(d) && !IsVersionChar(c) && c !in name
    ensures forall j :: 0 <= j < |d + name + NatToString(n)| ==> (d + name + NatToString(n))[j] != c
  {
    var digits := NatToString(n);
    var v := d + name + digits;
    forall j | 0 <= j < |v| ensures v[j] != c {
      if j < |d| {
        assert v[j] == d[j];
      } else if j < |d| + |name| {
        assert v[j] == name[j - |d|];
      } else {
        assert v[j] == digits[j - |d| - |name|];
      }
    }
  }

  /** The pre-release suffixes are taken off before the numbers are read. */
  lemma StripNotesSuffix(d: string, name: string, n: nat)
    requires AllVersionChars(d)
    requires name == "alpha" || name == "beta" || name == "rc"
    ensures StripNotes(d + name + NatToString(n)) == Success((d, NotesFor(name, n)))
  {
    var v := d + name + NatToString(n);
    StripOneNote(d, name, n);
    assert StripNote(v, name, 0) == Success((d, n));
    if name == "alpha" {
      StripNoteAbsent(d, "beta", 0, 0);
      StripNoteAbsent(d, "rc", 0, 0);
    } else if name == "beta" {
      SuffixedChars(d, name, n, 'l');
      StripNoteAbsent(v, "alpha", 1, 0);
      StripNoteAbsent(d, "rc", 0, 0);
    } else {
      SuffixedChars(d, name, n, 'l');
      SuffixedChars(d, name, n, 'b');
      StripNoteAbsent(v, "alpha", 1, 0);
      StripNoteAbsent(v, "beta", 0, 0);
    }
  }

  /** The text `name + str(n)` of a pre-release suffix, or nothing. */
  function Suffix(name: string, n: nat): string {
    if name == "" then "" else name + NatToString(n)
  }

  /** The string `client,version,platform` a client sends as `cv`. */
  function Cv(client: string, version: string, platform: string): (cv: string)
    ensures |cv| == |client| + |version| + |platform| + 2
  {
    client + "," + version + "," + platform
  }

  /** The notes a version with suffix `Suffix(name, n)` carries. */
  function SuffixNotes(name: string, n: nat): Notes {
    if name == "" then Notes(0, 0, 0) else NotesFor(name, n)
  }

  /** A dotted version with a suffix holds no comma. */
  lemma SuffixedVersionNoComma(ns: seq<nat>, name: string, n: nat)
    requires ns != []
    requires name in ["", "alpha", "beta", "rc"]
    ensures NoComma(Dotted(ns) + Suffix(name, n))
  {
    var d := Dotted(ns);
    var sfx := Suffix(name, n);
    var version := d + sfx;
    forall i | 0 <= i < |version| ensures version[i] != ',' {
      if i < |d| {
        assert version[i] == d[i];
      } else {
        assert version[i] == sfx[i - |d|];
        if name != "" {
          assert sfx == name + NatToString(n);
          assert i - |d| < |name| || IsVersionChar(NatToString(n)[i - |d| - |name|]);
        }
      }
    }
  }

  /** The version field of a well-formed `cv`: the suffix stripped, the numbers read back. */
  lemma VersionFieldParses(ns: seq<nat>, name: string, n: nat)
    requires ns != []
    requires name in ["", "alpha", "beta", "rc"]
    ensures StripNotes(Dotted(ns) + Suffix(name, n)) == Success((Dotted(ns), SuffixNotes(name, n)))
    ensures VersionInts(NumericPrefix(Dotted(ns))) == Success(ns)
  {
    var d := Dotted(ns);
    if name == "" {
      assert d + Suffix(name, n) == d;
      StripNotesPlain(d);
    } else {
      assert d + Suffix(name, n) == d + name + NatToString(n);
      StripNotesSuffix(d, name, n);
    }
    NumericPrefixDropsTail(d, []);
    assert d + [] == d;
    VersionIntsOfDotted(ns);
  }

  /**
   * Parsing round trip: a well-formed `client,version,platform` string, whose
   * version is dotted decimals with at most one `alpha`/`beta`/`rc` suffix,
   * parses back into the client, the numbers and the suffix's counter.
   */
  lemma ParseWellFormed(client: string, ns: seq<nat>, name: string, n: nat, platform: string, version: string)
    requires ns != [] && NoComma(client) && NoComma(platform)
    requires name in ["", "alpha", "beta", "rc"]
    requires version == Dotted(ns) + Suffix(name, n)
    ensures ParseClientVersion(Cv(client, version, platform))
         == Success(ClientInfo(client, ns, SuffixNotes(name, n)))
  {
    SuffixedVersionNoComma(ns, name, n);
    VersionFieldParses(ns, name, n);
    SplitFields(client, version, platform);
  }

  /** What the gate says of a string once it is parsed. */
  lemma OldClientOfParsed(cv: string, info: ClientInfo)
    requires cv != [] && ParseClientVersion(cv) == Success(info)
    ensures OldClient(Some(cv)) == Success(IsOld(info))
  {
  }

  // ---------------------------------------------------------------------
  // The gate's decisions.

  /** A missing or empty client version is never old. */
  lemma MissingClientVersionNotOld()
    ensures OldClient(None) == Success(false)
    ensures OldClient(Some("")) == Success(false)
  {
  }

  /** A client the server does not know is never old (though a malformed version still raises). */
  lemma UnknownClientNeverOld(cv: string)
    requires Split(cv, ",")[0] != "ankidesktop" && Split(cv, ",")[0] != "ankidroid"
    ensures OldClient(Some(cv)) != Success(true)
  {
  }

  /** `ankidesktop` is old exactly when its version is below 2.0.27. */
  lemma DesktopFloor(ns: seq<nat>, platform: string)
    requires ns != [] && NoComma(platform)
    ensures OldClient(Some(Cv("ankidesktop", Dotted(ns), platform))) == Success(LexLess(ns, [2, 0, 27]))
  {
    ParseWellFormed("ankidesktop", ns, "", 0, platform, Dotted(ns));
    OldClientOfParsed(Cv("ankidesktop", Dotted(ns), platform), ClientInfo("ankidesktop", ns, Notes(0, 0, 0)));
  }

  /** `ankidesktop,2.0.26,mac` needs an upgrade and `ankidesktop,2.0.27,mac` does not. */
  lemma DesktopScenario()
    ensures OldClient(Some("ankidesktop,2.0.26,mac")) == Success(true)
    ensures OldClient(Some("ankidesktop,2.0.27,mac")) == Success(false)
  {
    DesktopBelowFloor();
    DesktopAtFloor();
  }

  lemma DesktopBelowFloor()
    ensures OldClient(Some("ankidesktop,2.0.26,mac")) == Success(true)
  {
    DesktopString([2, 0, 26], "ankidesktop,2.0.26,mac");
    DesktopOrder(26);
    DesktopFloor([2, 0, 26], "mac");
  }

  lemma DesktopAtFloor()
    ensures OldClient(Some("ankidesktop,2.0.27,mac")) == Success(false)
  {
    DesktopString([2, 0, 27], "ankidesktop,2.0.27,mac");
    DesktopOrder(27);
    DesktopFloor([2, 0, 27], "mac");
  }

  /** Against the floor `2.0.27`, a `2.0.n` version compares on `n` alone. */
  lemma DesktopOrder(n: nat)
    ensures LexLess([2, 0, n], [2, 0, 27]) <==> n < 27
  {
    var a, b := [2, 0, n], [2, 0, 27];
    assert a[1..] == [0, n] && b[1..] == [0, 27];
    assert LexLess(a, b) == LexLess([0, n], [0, 27]);
    assert [0, n][1..] == [n] && [0, 27][1..] == [27];
    assert LexLess([0, n], [0, 27]) == LexLess([n], [27]);
    if n == 27 {
      assert [n][1..] == [] && [27][1..] == [];
      assert !LexLess([n], [27]);
    }
  }

  /** The `cv` string of the two desktop versions either side of the floor. */
  lemma DesktopString(ns: seq<nat>, cv: string)
    requires (ns == [2, 0, 26] && cv == "ankidesktop,2.0.26,mac") || (ns == [2, 0, 27] && cv == "ankidesktop,2.0.27,mac")
    ensures Cv("ankidesktop", Dotted(ns), "mac") == cv
  {
    assert ns[1..] == [0, ns[2]] && ns[1..][1..] == [ns[2]];
    var last := NatToString(ns[2]);
    assert last == [DigitChar(ns[2] / 10), DigitChar(ns[2] % 10)];
    assert NatToString(2) == "2" && NatToString(0) == "0";
    assert Dotted(ns[1..][1..]) == last;
    assert Dotted(ns[1..]) == "0." + last;
    assert Dotted(ns) == "2.0." + last;
  }

  lemma DottedTwoThree()
    ensures Dotted([2, 3]) == "2.3"
  {
    assert [2, 3][1..] == [3];
  }

  lemma AlphaVersion(n: nat)
    ensures "2.3alpha" + NatToString(n) == Dotted([2, 3]) + Suffix("alpha", n)
  {
    DottedTwoThree();
    assert "2.3" + ("alpha" + NatToString(n)) == "2.3alpha" + NatToString(n);
  }

  lemma AndroidNoComma()
    ensures NoComma("ankidroid")
  {
  }

  /** `ankidroid` 2.3 with `alphaN` is old exactly when `0 < N < 4`. */
  lemma AndroidAlpha(n: nat, platform: string)
    requires NoComma(platform)
    ensures OldClient(Some(Cv("ankidroid", "2.3alpha" + NatToString(n), platform))) == Success(0 < n < 4)
  {
    var version := "2.3alpha" + NatToString(n);
    AlphaVersion(n);
    AndroidNoComma();
    ParseWellFormed("ankidroid", [2, 3], "alpha", n, platform, version);
    OldClientOfParsed(Cv("ankidroid", version, platform), ClientInfo("ankidroid", [2, 3], Notes(n, 0, 0)));
  }

  /** `ankidroid` 2.3 without an alpha counter is not old. */
  lemma AndroidTwoThree(platform: string)
    requires NoComma(platform)
    ensures OldClient(Some(Cv("ankidroid", "2.3", platform))) == Success(false)
  {
    DottedTwoThree();
    ParseWellFormed("ankidroid", [2, 3], "", 0, platform, "2.3");
    OldClientOfParsed(Cv("ankidroid", "2.3", platform), ClientInfo("ankidroid", [2, 3], Notes(0, 0, 0)));
  }

  /** Every other `ankidroid` version is old exactly when it is below 2.2.3. */
  lemma AndroidFloor(ns: seq<nat>, platform: string)
    requires ns != [] && ns != [2, 3] && NoComma(platform)
    ensures OldClient(Some(Cv("ankidroid", Dotted(ns), platform))) == Success(LexLess(ns, [2, 2, 3]))
  {
    ParseWellFormed("ankidroid", ns, "", 0, platform, Dotted(ns));
    OldClientOfParsed(Cv("ankidroid", Dotted(ns), platform), ClientInfo("ankidroid", ns, Notes(0, 0, 0)));
  }

  /**
   * A `beta` or `rc` suffix never changes the verdict, and an `alpha` suffix
   * changes it only for `ankidroid` 2.3.
   */
  lemma SuffixIgnored(client: string, ns: seq<nat>, name: string, n: nat, platform: string)
    requires ns != [] && NoComma(client) && NoComma(platform)
    requires name in ["alpha", "beta", "rc"]
    requires name == "alpha" ==> !(client == "ankidroid" && ns == [2, 3])
    ensures OldClient(Some(Cv(client, Dotted(ns) + name + NatToString(n), platform)))
         == OldClient(Some(Cv(client, Dotted(ns), platform)))
  {
    var suffixed := Dotted(ns) + name + NatToString(n);
    ParseWellFormed(client, ns, name, n, platform, suffixed);
    OldClientOfParsed(Cv(client, suffixed, platform), ClientInfo(client, ns, SuffixNotes(name, n)));
    ParseWellFormed(client, ns, "", 0, platform, Dotted(ns));
    OldClientOfParsed(Cv(client, Dotted(ns), platform), ClientInfo(client, ns, Notes(0, 0, 0)));
  }
}
