// The file-backed artifact service: one directory per sanitised key, one JSON file per
// version in it. Directories are paths below the service's root.

module Artifacts {
  import opened Prelude
  import opened Transcript
  import opened Sorting

  const I64_MAX := 0x7FFF_FFFF_FFFF_FFFF
  const I64_MIN := -0x8000_0000_0000_0000

  type Path = seq<string>

  /** Every existing directory with the version files in it. */
  type Disk = map<Path, map<int, Part>>

  datatype Key = Key(app: string, user: string, session: string, file: string)

  // ---------------------------------------------------------------- names

  predicate Separator(c: char) {
    c == '/' || c == '\\' || c == ':'
  }

  function NoSeparators(s: string): (r: string)
    ensures |r| == |s|
    ensures forall i :: 0 <= i < |r| ==> !Separator(r[i]) && (!Separator(s[i]) ==> r[i] == s[i])
  {
    if s == "" then "" else [if Separator(s[0]) then '_' else s[0]] + NoSeparators(s[1..])
  }

  /** Each ".." from the left becomes "_". */
  function NoDotDot(s: string): string {
    if |s| < 2 then s
    else if s[0] == '.' && s[1] == '.' then "_" + NoDotDot(s[2..])
    else [s[0]] + NoDotDot(s[1..])
  }

  function Sanitize(input: string): string {
    Trim(NoDotDot(NoSeparators(input)))
  }

  predicate DotDotAt(s: string, i: nat) {
    i + 1 < |s| && s[i] == '.' && s[i + 1] == '.'
  }

  /** A name that cannot leave its directory. */
  ghost predicate Safe(s: string) {
    && (forall i :: 0 <= i < |s| ==> !Separator(s[i]))
    && (forall i: nat :: !DotDotAt(s, i))
    && Trimmed(s)
  }

  lemma {:induction false} NoDotDotClean(s: string)
    ensures forall i: nat :: !DotDotAt(NoDotDot(s), i)
    ensures s != "" ==> NoDotDot(s) != "" && (NoDotDot(s)[0] == s[0] || NoDotDot(s)[0] == '_')
    ensures (forall i :: 0 <= i < |s| ==> !Separator(s[i])) ==> forall i :: 0 <= i < |NoDotDot(s)| ==>
      !Separator(NoDotDot(s)[i])
    decreases |s|
  {
    if |s| >= 2 {
      var n := if s[0] == '.' && s[1] == '.' then 2 else 1;
      NoDotDotClean(s[n..]);
      var r := NoDotDot(s);
      forall i: nat ensures !DotDotAt(r, i) {
        assert i > 0 ==> (DotDotAt(r, i) <==> DotDotAt(NoDotDot(s[n..]), i - 1));
      }
    }
  }

  lemma {:induction false} NoDotDotFixes(s: string)
    requires forall i: nat :: !DotDotAt(s, i)
    ensures NoDotDot(s) == s
  {
    if |s| >= 2 {
      assert !DotDotAt(s, 0);
      forall i: nat ensures !DotDotAt(s[1..], i) {
        assert !DotDotAt(s, i + 1);
      }
      NoDotDotFixes(s[1..]);
    }
  }

  /** Main result: a sanitised name has no separator and no "..", whatever the input, and names that are
      already safe are left alone; so sanitising twice changes nothing. */
  lemma SanitizeIsSafe(input: string)
    ensures Safe(Sanitize(input))
    ensures Safe(input) ==> Sanitize(input) == input
    ensures Sanitize(Sanitize(input)) == Sanitize(input)
  {
    var clean := NoDotDot(NoSeparators(input));
    NoDotDotClean(NoSeparators(input));
    var i, j := TrimCuts(clean);
    var r := Sanitize(input);
    forall k: nat ensures !DotDotAt(r, k) {
      assert DotDotAt(r, k) ==> DotDotAt(clean, i + k);
    }
    SafeIsKept(r);
    if Safe(input) {
      SafeIsKept(input);
    }
  }

  lemma SafeIsKept(s: string)
    requires Safe(s)
    ensures Sanitize(s) == s
  {
    assert NoSeparators(s) == s;
    NoDotDotFixes(s);
  }

  /** The text with every separator made a "_" and nothing else changed. */
  predicate Underscored(input: string, clean: string) {
    && |clean| == |input|
    && forall i :: 0 <= i < |input| ==>
      clean[i] == if input[i] == '/' || input[i] == '\\' || input[i] == ':' then '_' else input[i]
  }

  lemma {:induction false} NoSeparatorsIs(input: string)
    ensures Underscored(input, NoSeparators(input))
  {
    if input != "" {
      NoSeparatorsIs(input[1..]);
      forall i | 0 < i < |input|
        ensures NoSeparators(input)[i] ==
          if input[i] == '/' || input[i] == '\\' || input[i] == ':' then '_' else input[i]
      {
        assert NoSeparators(input)[i] == NoSeparators(input[1..])[i - 1] && input[1..][i - 1] == input[i];
      }
    }
  }

  /** The first ".." becomes a "_", and so on behind it. */
  lemma {:induction false} FirstDotDot(s: string, k: nat)
    requires DotDotAt(s, k) && forall i :: 0 <= i < k ==> !DotDotAt(s, i)
    ensures NoDotDot(s) == s[..k] + "_" + NoDotDot(s[k + 2..])
  {
    if k > 0 {
      assert !DotDotAt(s, 0);
      assert DotDotAt(s[1..], k - 1);
      forall i | 0 <= i < k - 1 ensures !DotDotAt(s[1..], i) {
        assert !DotDotAt(s, i + 1);
      }
      FirstDotDot(s[1..], k - 1);
      assert s[1..][k + 1..] == s[k + 2..];
      assert s[..k] == [s[0]] + s[1..][..k - 1];
      Regroup([s[0]], s[1..][..k - 1], "_" + NoDotDot(s[k + 2..]));
    } else {
      assert s[..0] == "";
    }
  }

  /** Main result: what a name becomes: every separator a "_", then every ".." from the left a "_", then the
      white space around it goes; so a name without ".." keeps every other character in its place. */
  lemma SanitizeIs(input: string) returns (clean: string)
    ensures Underscored(input, clean)
    ensures Trimmed(Sanitize(input)) && Padded(NoDotDot(clean), Sanitize(input))
    ensures (forall i: nat :: !DotDotAt(input, i)) ==> NoDotDot(clean) == clean
  {
    clean := NoSeparators(input);
    NoSeparatorsIs(input);
    TrimIff(NoDotDot(clean), Sanitize(input));
    if forall i: nat :: !DotDotAt(input, i) {
      forall i: nat ensures !DotDotAt(clean, i) {
        assert !DotDotAt(input, i);
      }
      NoDotDotFixes(clean);
    }
  }

  /** Two names that differ in a character that no rule touches stay apart. */
  lemma StayApart(a: string, b: string, i: nat)
    requires Trimmed(a) && Trimmed(b) && (forall k: nat :: !DotDotAt(a, k) && !DotDotAt(b, k))
    requires i < |a| && i < |b| && a[i] != b[i] && !Separator(a[i]) && !Separator(b[i])
    requires a[i] != '_' && b[i] != '_'
    ensures Sanitize(a) != Sanitize(b)
  {
    KeepsInPlace(a);
    KeepsInPlace(b);
  }

  lemma UnderscoredTrimmed(a: string, clean: string)
    requires Trimmed(a) && Underscored(a, clean)
    ensures Trimmed(clean)
  {
  }

  lemma {:induction false} KeepsInPlace(a: string)
    requires Trimmed(a) && forall k: nat :: !DotDotAt(a, k)
    ensures |Sanitize(a)| == |a| && forall i :: 0 <= i < |a| && !Separator(a[i]) ==> Sanitize(a)[i] == a[i]
  {
    var clean := SanitizeIs(a);
    UnderscoredTrimmed(a, clean);
    TrimIff(clean, Sanitize(a));
    assert Sanitize(a) == clean;
  }

  // ---------------------------------------------------------------- paths

  /** Joining an empty or "." component stays in the same directory. */
  function Component(s: string): Path {
    if s == "" || s == "." then [] else [s]
  }

  function SessionDir(app: string, user: string, session: string): Path {
    Component(Sanitize(app)) + Component(Sanitize(user)) + Component(Sanitize(session))
  }

  function FileDir(k: Key): Path {
    SessionDir(k.app, k.user, k.session) + Component(Sanitize(k.file))
  }

  /** The directory: one step for each of the four names, sanitised, but none for a name that is then
      empty or ".". */
  lemma FileDirIs(k: Key)
    ensures Proper(k) <==> forall name :: name in {k.app, k.user, k.session, k.file} ==> Sanitize(name) !in {"", "."}
    ensures Proper(k) ==> FileDir(k) == [Sanitize(k.app), Sanitize(k.user), Sanitize(k.session), Sanitize(k.file)]
  {
    StepOrNone(Sanitize(k.app));
    StepOrNone(Sanitize(k.user));
    StepOrNone(Sanitize(k.session));
    StepOrNone(Sanitize(k.file));
    assert Proper(k) ==> forall name :: name in {k.app, k.user, k.session, k.file} ==> |Component(Sanitize(name))| == 1;
  }

  lemma StepOrNone(name: string)
    ensures |Component(name)| == 1 <==> name !in {"", "."}
    ensures |Component(name)| <= 1 && (|Component(name)| == 1 ==> Component(name) == [name])
  {
  }

  /** No component vanishes. */
  predicate Proper(k: Key) {
    |FileDir(k)| == 4
  }

  function Joined(a: string, b: string, c: string, d: string): Path {
    Component(a) + Component(b) + Component(c) + Component(d)
  }

  lemma JoinedSteps(a: string, b: string, c: string, d: string)
    ensures forall step :: step in Joined(a, b, c, d) ==> step in [a, b, c, d] && step != "" && step != "."
    ensures |Joined(a, b, c, d)| == 4 ==> Joined(a, b, c, d) == [a, b, c, d]
  {
  }

  lemma SafeStep(input: string)
    ensures Sanitize(input) != ".." && forall c :: c in Sanitize(input) ==> !Separator(c)
  {
    SanitizeIsSafe(input);
    assert !DotDotAt(Sanitize(input), 0);
  }

  /** Main result: whatever the key, its directory lies below the root: no step of the path is empty,
      ".", ".." or contains a separator. */
  lemma StaysBelowRoot(k: Key)
    ensures forall step :: step in FileDir(k) ==>
      step != "" && step != "." && step != ".." && forall c :: c in step ==> !Separator(c)
  {
    SafeStep(k.app);
    SafeStep(k.user);
    SafeStep(k.session);
    SafeStep(k.file);
    JoinedSteps(Sanitize(k.app), Sanitize(k.user), Sanitize(k.session), Sanitize(k.file));
  }

  /** Proper keys share a directory, or one lies within the other, exactly if they sanitise alike. */
  lemma ProperKeysApart(a: Key, b: Key)
    requires Proper(a) && Proper(b)
    ensures FileDir(a) <= FileDir(b) <==>
            Sanitize(a.app) == Sanitize(b.app) && Sanitize(a.user) == Sanitize(b.user) &&
            Sanitize(a.session) == Sanitize(b.session) && Sanitize(a.file) == Sanitize(b.file)
  {
    JoinedSteps(Sanitize(a.app), Sanitize(a.user), Sanitize(a.session), Sanitize(a.file));
    JoinedSteps(Sanitize(b.app), Sanitize(b.user), Sanitize(b.session), Sanitize(b.file));
    PrefixOfSameLength(FileDir(a), FileDir(b));
  }

  lemma PrefixOfSameLength(a: Path, b: Path)
    requires |a| == |b|
    ensures a <= b <==> a == b
  {
  }

  // ---------------------------------------------------------------- versions

  ghost predicate Enumerates(listing: seq<int>, versions: set<int>) {
    && (forall v :: v in listing <==> v in versions)
    && forall i, j :: 0 <= i < j < |listing| ==> listing[i] != listing[j]
  }

  predicate Less(a: int, b: int) {
    a < b
  }

  /** The directory's versions: ascending, each once. */
  ghost predicate Versions(sorted: seq<int>, versions: set<int>) {
    Ascending(sorted, Less) && forall v :: v in sorted <==> v in versions
  }

  /** That is, each version is below the next. */
  lemma {:induction false} VersionsSpelled(sorted: seq<int>, versions: set<int>)
    ensures Versions(sorted, versions) <==>
      && (forall i, j :: 0 <= i < j < |sorted| ==> sorted[i] < sorted[j])
      && forall v :: v in sorted <==> v in versions
  {
  }

  /** Whatever order the directory lists its files in, the sorted versions are the same. */
  lemma VersionsAreUnique(a: seq<int>, b: seq<int>, versions: set<int>)
    requires Versions(a, versions) && Versions(b, versions)
    ensures a == b
  {
    forall v ensures v in a <==> v in b {
      assert v in a <==> v in versions;
    }
    AscendingIsUnique(a, b, Less);
  }

  /** The successor in 64 bits, wrapping as the source's release build does. */
  function Successor(v: int): int {
    if v == I64_MAX then I64_MIN else v + 1
  }

  /** The version a default save takes. */
  function NextVersion(sorted: seq<int>): int {
    Successor(if sorted == [] then 0 else sorted[|sorted| - 1])
  }

  /** A default save's version exceeds every version in the directory, exactly unless the greatest possible is taken. */
  lemma NextIsGreatest(sorted: seq<int>, versions: set<int>)
    requires Versions(sorted, versions) && forall v :: v in versions ==> v <= I64_MAX
    ensures (forall v :: v in versions ==> v < NextVersion(sorted)) <==> I64_MAX !in versions
    ensures I64_MAX !in versions && versions != {} ==> NextVersion(sorted) - 1 in versions
    ensures versions == {} ==> NextVersion(sorted) == 1
  {
    GreatestIsLast(sorted, versions);
  }

  // ---------------------------------------------------------------- the disk

  /** The directory and its ancestors exist. */
  function WithDirs(d: Disk, path: Path): Disk {
    map p | p in d.Keys + Ancestors(path) :: if p in d then d[p] else map[]
  }

  function Ancestors(path: Path): set<Path> {
    set n | 0 <= n <= |path| :: path[..n]
  }

  function WithFile(d: Disk, path: Path, version: int, part: Part): Disk {
    var made := WithDirs(d, path);
    if path in made then made[path := made[path][version := part]] else made
  }

  function WithoutFile(d: Disk, path: Path, version: int): Disk {
    if path in d then d[path := d[path] - {version}] else d
  }

  /** The directory goes with everything below it. */
  function WithoutTree(d: Disk, path: Path): Disk {
    map p | p in d && !(path <= p) :: d[p]
  }

  function Stored(d: Disk, path: Path, version: int): Option<Part> {
    if path in d && version in d[path] then Some(d[path][version]) else None
  }

  function VersionSet(d: Disk, path: Path): set<int> {
    if path in d then d[path].Keys else {}
  }

  /** A directory's ancestors exist. */
  ghost predicate Closed(d: Disk) {
    forall p, n :: p in d && 0 <= n <= |p| ==> p[..n] in d
  }

  lemma ChangesStayClosed(d: Disk, path: Path, version: int, part: Part)
    requires Closed(d)
    ensures Closed(WithDirs(d, path)) && Closed(WithFile(d, path, version, part))
    ensures Closed(WithoutFile(d, path, version)) && Closed(WithoutTree(d, path))
  {
    assert path[..|path|] == path;
    forall p, n | p in WithDirs(d, path) && 0 <= n <= |p| ensures p[..n] in WithDirs(d, path) {
      if p !in d {
        var m :| 0 <= m <= |path| && p == path[..m];
        assert p[..n] == path[..n];
      }
    }
    forall p, n | p in WithoutTree(d, path) && 0 <= n <= |p| ensures p[..n] in WithoutTree(d, path) {
      assert path <= p[..n] ==> path <= p;
    }
  }

  lemma NothingBelow(d: Disk, path: Path)
    requires Closed(d) && path !in d
    ensures WithoutTree(d, path) == d
  {
    forall p | p in d ensures !(path <= p) {
      PrefixIsSlice(path, p);
    }
  }

  lemma PrefixIsSlice(a: Path, b: Path)
    ensures a <= b ==> b[..|a|] == a
  {
  }

  class FileArtifactService {
    var disk: Disk

    ghost predicate Valid()
      reads this
    {
      Closed(disk)
    }

    constructor ()
      ensures Valid() && disk == map[[] := map[]]
    {
      disk := map[[] := map[]];
    }

    /** `listing` is the directory's version files in the order the system lists them. */
    method VersionsOf(path: Path, listing: seq<int>) returns (sorted: seq<int>)
      requires Enumerates(listing, VersionSet(disk, path))
      ensures Versions(sorted, VersionSet(disk, path))
    {
      sorted := [];
      if path !in disk {
        return;
      }
      for i := 0 to |listing|
        invariant Ascending(sorted, Less) && forall v :: v in sorted <==> v in listing[..i]
      {
        assert listing[..i + 1] == listing[..i] + [listing[i]];
        InsertAscends(sorted, listing[i], Less);
        InsertHolds(sorted, listing[i], Less);
        sorted := Insert(sorted, listing[i], Less);
      }
      assert listing[..|listing|] == listing;
    }

    /** `written` says whether writing the version file worked; the directory is there either way. */
    method Save(
      k: Key, version: Option<int>, part: Part, listing: seq<int>, written: bool) returns (r: Result<int, string>)
      requires Valid() && Enumerates(listing, VersionSet(disk, FileDir(k)))
      modifies this
      ensures Valid()
      ensures r.Success? <==> written
      ensures !written ==> disk == WithDirs(old(disk), FileDir(k))
      ensures written ==> disk == WithFile(old(disk), FileDir(k), r.value, part)
      ensures written && version.Some? ==> r.value == version.value
      ensures written && version.None? ==>
        exists sorted :: Versions(sorted, old(VersionSet(disk, FileDir(k)))) && r.value == NextVersion(sorted)
    {
      var path := FileDir(k);
      ghost var before := VersionSet(disk, path);
      ChangesStayClosed(disk, path, 0, part);
      disk := WithDirs(disk, path);
      assert VersionSet(disk, path) == before;
      var sorted := VersionsOf(path, listing);
      assert path[..|path|] == path && path in disk;
      var v := if version.Some? then version.value else NextVersion(sorted);
      if !written {
        return Failure("write failed");
      }
      ChangesStayClosed(old(disk), path, v, part);
      disk := disk[path := disk[path][v := part]];
      r := Success(v);
    }

    /** A version that is not there is an error, and so is a default load without any version. */
    method Load(k: Key, version: Option<int>, listing: seq<int>) returns (r: Option<Part>)
      requires Enumerates(listing, VersionSet(disk, FileDir(k)))
      ensures version.Some? ==> r == Stored(disk, FileDir(k), version.value)
      ensures version.None? ==> (r.None? <==> VersionSet(disk, FileDir(k)) == {})
      ensures version.None? && r.Some? ==>
        exists v :: v in VersionSet(disk, FileDir(k)) && r == Stored(disk, FileDir(k), v)
          && forall w :: w in VersionSet(disk, FileDir(k)) ==> w <= v
    {
      var path := FileDir(k);
      var sorted := VersionsOf(path, listing);
      if version.Some? {
        return Stored(disk, path, version.value);
      }
      GreatestIsLast(sorted, VersionSet(disk, path));
      if sorted == [] {
        return None;
      }
      r := Stored(disk, path, sorted[|sorted| - 1]);
    }

    method Delete(k: Key, version: Option<int>)
      requires Valid()
      modifies this
      ensures Valid()
      ensures disk == if version.Some? then WithoutFile(old(disk), FileDir(k), version.value)
        else WithoutTree(old(disk), FileDir(k))
    {
      var path := FileDir(k);
      ChangesStayClosed(disk, path, if version.Some? then version.value else 0, Text(""));
      if version.Some? {
        if path in disk && version.value in disk[path] {
          disk := disk[path := disk[path] - {version.value}];
        }
        assert path in disk && version.value !in disk[path] ==> disk[path] - {version.value} == disk[path];
        return;
      }
      if path in disk {
        disk := map p | p in disk && !(path <= p) :: disk[p];
      } else {
        NothingBelow(disk, path);
      }
    }
  }

  lemma GreatestIsLast(sorted: seq<int>, versions: set<int>)
    requires Versions(sorted, versions)
    ensures sorted == [] <==> versions == {}
    ensures sorted != [] ==> sorted[|sorted| - 1] in versions && forall v :: v in versions ==> v <= sorted[|sorted| - 1]
  {
    if sorted == [] {
      assert forall v :: v !in versions;
    } else {
      var last := sorted[|sorted| - 1];
      assert last in sorted;
      forall v | v in versions ensures v <= last {
        var i :| 0 <= i < |sorted| && sorted[i] == v;
      }
    }
  }

  // ---------------------------------------------------------------- histories

  /** What happened to the disk: a version written, an unwritten save, a version deleted, a directory deleted. */
  datatype Change =
    | DidSave(path: Path, version: int, part: Part)
    | DidMakeDir(path: Path)
    | DidDelete(path: Path, version: int)
    | DidDeleteAll(path: Path)

  function Changed(d: Disk, c: Change): Disk {
    match c
    case DidSave(path, version, part) => WithFile(d, path, version, part)
    case DidMakeDir(path) => WithDirs(d, path)
    case DidDelete(path, version) => WithoutFile(d, path, version)
    case DidDeleteAll(path) => WithoutTree(d, path)
  }

  function After(d: Disk, history: seq<Change>): Disk {
    if history == [] then d else Changed(After(d, history[..|history| - 1]), history[|history| - 1])
  }

  /** The part last saved as this version and not deleted since, on its own or with a directory around it. */
  function LastSaved(history: seq<Change>, path: Path, version: int): Option<Part> {
    if history == [] then None
    else
      var n := |history| - 1;
      match history[n]
      case DidSave(p, v, part) =>
        if p == path && v == version then Some(part) else LastSaved(history[..n], path, version)
      case DidMakeDir(_) => LastSaved(history[..n], path, version)
      case DidDelete(p, v) => if p == path && v == version then None else LastSaved(history[..n], path, version)
      case DidDeleteAll(p) => if p <= path then None else LastSaved(history[..n], path, version)
  }

  lemma ChangeStored(d: Disk, c: Change, path: Path, version: int)
    ensures Stored(Changed(d, c), path, version) ==
            match c
            case DidSave(p, v, part) => if p == path && v == version then Some(part) else Stored(d, path, version)
            case DidMakeDir(_) => Stored(d, path, version)
            case DidDelete(p, v) => if p == path && v == version then None else Stored(d, path, version)
            case DidDeleteAll(p) => if p <= path then None else Stored(d, path, version)
  {
    if c.DidSave? || c.DidMakeDir? {
      assert c.path[..|c.path|] == c.path;
    }
  }

  /** Main result: after any history of saves and deletes on any keys, a version is stored exactly if it was
      saved and not deleted since, and it holds the part saved last. */
  lemma {:induction false} DiskIsHistory(history: seq<Change>, path: Path, version: int)
    ensures Stored(After(map[[] := map[]], history), path, version) == LastSaved(history, path, version)
  {
    if history != [] {
      var n := |history| - 1;
      DiskIsHistory(history[..n], path, version);
      ChangeStored(After(map[[] := map[]], history[..n]), history[n], path, version);
    }
  }

  /** Some change made the directory, or one below it, and none has deleted it since, or one above it. */
  function Made(history: seq<Change>, path: Path): bool {
    if history == [] then path == []
    else
      var n := |history| - 1;
      match history[n]
      case DidSave(p, _, _) => path <= p || Made(history[..n], path)
      case DidMakeDir(p) => path <= p || Made(history[..n], path)
      case DidDelete(_, _) => Made(history[..n], path)
      case DidDeleteAll(p) => !(p <= path) && Made(history[..n], path)
  }

  lemma {:induction false} ChangeMakes(d: Disk, c: Change, path: Path)
    ensures path in Changed(d, c) <==>
            match c
            case DidSave(p, _, _) => path <= p || path in d
            case DidMakeDir(p) => path <= p || path in d
            case DidDelete(_, _) => path in d
            case DidDeleteAll(p) => !(p <= path) && path in d
  {
    if (c.DidSave? || c.DidMakeDir?) && path <= c.path {
      PrefixIsSlice(path, c.path);
      assert path in Ancestors(c.path);
    }
  }

  /** Main result: and a directory is there exactly if a save made it, written or not, and it has not been
      deleted since. */
  lemma {:induction false} DirsAreHistory(history: seq<Change>, path: Path)
    ensures path in After(map[[] := map[]], history) <==> Made(history, path)
  {
    if history != [] {
      var n := |history| - 1;
      DirsAreHistory(history[..n], path);
      ChangeMakes(After(map[[] := map[]], history[..n]), history[n], path);
    }
  }

  /** The change is a default save in the directory, given the disk it met. */
  ghost predicate DefaultSave(d: Disk, c: Change, path: Path) {
    && c.DidSave? && c.path == path
    && exists sorted :: Versions(sorted, VersionSet(d, path)) && c.version == NextVersion(sorted)
  }

  predicate Deletes(c: Change, path: Path) {
    (c.DidDelete? && c.path == path) || (c.DidDeleteAll? && c.path <= path)
  }

  lemma {:induction false} SavedStays(history: seq<Change>, path: Path, i: nat, n: nat)
    requires i < n <= |history| && history[i].DidSave? && history[i].path == path
    requires forall k :: i < k < n ==> !Deletes(history[k], path)
    ensures history[i].version in VersionSet(After(map[[] := map[]], history[..n]), path)
  {
    var d := After(map[[] := map[]], history[..n - 1]);
    assert history[..n][..n - 1] == history[..n - 1];
    ChangeStored(d, history[n - 1], path, history[i].version);
    if i < n - 1 {
      SavedStays(history, path, i, n - 1);
    }
  }

  /** The change takes the version away, on its own or with a directory around it. */
  predicate Strikes(c: Change, path: Path, version: int) {
    (c.DidDelete? && c.path == path && c.version == version) || (c.DidDeleteAll? && c.path <= path)
  }

  /** Nothing takes the version away from the change at `from` up to the one before `to`. */
  ghost predicate Survives(history: seq<Change>, path: Path, version: int, from: nat, to: nat) {
    forall i :: from <= i < to && i < |history| ==> !Strikes(history[i], path, version)
  }

  /** The change at `k` writes the version and it is still there before the change at `n`. */
  ghost predicate Written(history: seq<Change>, path: Path, version: int, k: nat, n: nat) {
    && k < n && k < |history| && history[k].DidSave? && history[k].path == path && history[k].version == version
    && Survives(history, path, version, k + 1, n)
  }

  function Disks(history: seq<Change>, n: nat): Disk
    requires n <= |history|
  {
    After(map[[] := map[]], history[..n])
  }

  ghost predicate WrittenSince(history: seq<Change>, path: Path, version: int, r: nat, n: nat) {
    exists k :: r <= k < n && Written(history, path, version, k, n)
  }

  /** A change that neither writes nor strikes the version. */
  lemma WrittenNext(history: seq<Change>, path: Path, version: int, r: nat, n: nat)
    requires r < n <= |history| && !Strikes(history[n - 1], path, version)
    requires !(history[n - 1].DidSave? && history[n - 1].path == path && history[n - 1].version == version)
    ensures WrittenSince(history, path, version, r, n) <==> WrittenSince(history, path, version, r, n - 1)
  {
    var last := n - 1;
    if k :| r <= k < n && Written(history, path, version, k, n) {
      assert k < last && Written(history, path, version, k, last);
    }
    if k :| r <= k < last && Written(history, path, version, k, last) {
      assert Written(history, path, version, k, n);
    }
  }

  lemma StruckIsNotWritten(history: seq<Change>, path: Path, version: int, r: nat, n: nat)
    requires r < n <= |history| && Strikes(history[n - 1], path, version)
    ensures !WrittenSince(history, path, version, r, n) && !Survives(history, path, version, r, n)
  {
    forall k | r <= k < n ensures !Written(history, path, version, k, n) {
      assert k < n - 1 ==> k + 1 <= n - 1 < n;
    }
  }

  /** What is there at `n` was written since `r`, or was there at `r`, and has not been deleted since. */
  lemma {:induction false} PresentIff(history: seq<Change>, path: Path, version: int, r: nat, n: nat)
    requires r <= n <= |history|
    ensures version in VersionSet(Disks(history, n), path) <==>
      || WrittenSince(history, path, version, r, n)
      || (version in VersionSet(Disks(history, r), path) && Survives(history, path, version, r, n))
  {
    if r < n {
      var c := history[n - 1];
      PresentIff(history, path, version, r, n - 1);
      assert history[..n][..n - 1] == history[..n - 1];
      ChangeStored(Disks(history, n - 1), c, path, version);
      if c.DidSave? && c.path == path && c.version == version {
        assert Written(history, path, version, n - 1, n);
      } else if Strikes(c, path, version) {
        StruckIsNotWritten(history, path, version, r, n);
      } else {
        WrittenNext(history, path, version, r, n);
      }
    }
  }

  /** What a default save takes, from what it read. */
  lemma DefaultVersion(d: Disk, c: Change, path: Path)
    requires DefaultSave(d, c, path) && forall v :: v in VersionSet(d, path) ==> v <= I64_MAX
    ensures I64_MAX in VersionSet(d, path) ==> c.version == I64_MIN
    ensures I64_MAX !in VersionSet(d, path) ==> forall v :: v in VersionSet(d, path) ==> v < c.version
  {
    var sorted :| Versions(sorted, VersionSet(d, path)) && c.version == NextVersion(sorted);
    NextIsGreatest(sorted, VersionSet(d, path));
    GreatestIsLast(sorted, VersionSet(d, path));
  }

  /** Main result: a default save, which reads the directory at `r` and writes at `j`, replaces a stored part
      exactly if its version was written in between and not deleted since - or if the greatest 64-bit version
      was there when it read, so that it wraps, and the smallest was too and has not been deleted since. */
  lemma DefaultSaveReplacesIff(history: seq<Change>, path: Path, r: nat, j: nat)
    requires r <= j < |history| && DefaultSave(Disks(history, r), history[j], path)
    requires forall v :: v in VersionSet(Disks(history, r), path) ==> v <= I64_MAX
    ensures var (read, v) := (VersionSet(Disks(history, r), path), history[j].version);
      v in VersionSet(Disks(history, j), path) <==>
        || WrittenSince(history, path, v, r, j)
        || (I64_MAX in read && I64_MIN in read && Survives(history, path, I64_MIN, r, j))
  {
    DefaultVersion(Disks(history, r), history[j], path);
    PresentIff(history, path, history[j].version, r, j);
  }

  /** Main result: it exceeds every version present when it writes exactly if it exceeds those written
      since it read and not deleted - and, should it wrap, those that it read and that are still there. */
  lemma DefaultSaveExceedsIff(history: seq<Change>, path: Path, r: nat, j: nat)
    requires r <= j < |history| && DefaultSave(Disks(history, r), history[j], path)
    requires forall v :: v in VersionSet(Disks(history, r), path) ==> v <= I64_MAX
    ensures var (read, mine) := (VersionSet(Disks(history, r), path), history[j].version);
      (forall v :: v in VersionSet(Disks(history, j), path) ==> v < mine) <==>
        && (forall v :: WrittenSince(history, path, v, r, j) ==> v < mine)
        && (I64_MAX in read ==> forall v :: v in read && Survives(history, path, v, r, j) ==> v < mine)
  {
    var (read, mine, there) :=
      (VersionSet(Disks(history, r), path), history[j].version, VersionSet(Disks(history, j), path));
    DefaultVersion(Disks(history, r), history[j], path);
    if forall v :: v in there ==> v < mine {
      forall v | WrittenSince(history, path, v, r, j) || (v in read && Survives(history, path, v, r, j))
        ensures v < mine
      {
        PresentIff(history, path, v, r, j);
        assert v in there;
      }
    }
    forall v | v in there
      ensures WrittenSince(history, path, v, r, j) || (v in read && Survives(history, path, v, r, j))
    {
      PresentIff(history, path, v, r, j);
    }
  }

  /** So without other saves and deletes in between, and below the greatest version, it does both right. */
  lemma LoneDefaultSaveIncreases(history: seq<Change>, path: Path, r: nat, j: nat)
    requires r <= j < |history| && DefaultSave(Disks(history, r), history[j], path)
    requires forall v :: v in VersionSet(Disks(history, r), path) ==> v < I64_MAX
    requires forall k :: r <= k < j ==> !(history[k].DidSave? && history[k].path == path)
    ensures forall v :: v in VersionSet(Disks(history, j), path) ==> v < history[j].version
  {
    DefaultSaveExceedsIff(history, path, r, j);
    forall v ensures !WrittenSince(history, path, v, r, j) {
    }
  }

  /** Whatever happens to it later, a version written and not deleted before a default save reads is exceeded. */
  lemma DefaultSavesIncrease(history: seq<Change>, path: Path, i: nat, r: nat, j: nat)
    requires i < r <= j < |history| && history[i].DidSave? && history[i].path == path
    requires forall k :: i < k < r ==> !Deletes(history[k], path)
    requires DefaultSave(Disks(history, r), history[j], path)
    requires forall v :: v in VersionSet(Disks(history, r), path) ==> v < I64_MAX
    ensures history[i].version < history[j].version
  {
    SavedStays(history, path, i, r);
    DefaultVersion(Disks(history, r), history[j], path);
  }

  /** Two default saves that both read before either writes take one version, and the part that is
      written first is gone. */
  lemma OverlappingSavesCollide(history: seq<Change>, first: Change, second: Change, path: Path)
    requires var d := After(map[[] := map[]], history); DefaultSave(d, first, path) && DefaultSave(d, second, path)
    ensures first.version == second.version
    ensures Stored(After(map[[] := map[]], history + [first, second]), path, first.version) == Some(second.part)
  {
    var d := After(map[[] := map[]], history);
    var a :| Versions(a, VersionSet(d, path)) && first.version == NextVersion(a);
    var b :| Versions(b, VersionSet(d, path)) && second.version == NextVersion(b);
    VersionsAreUnique(a, b, VersionSet(d, path));
    var all := history + [first, second];
    DiskIsHistory(all, path, first.version);
    assert all[|all| - 1] == second;
  }

  /** The greatest version can be saved when asked for, and the next default save then takes the smallest. */
  lemma GreatestWraps(path: Path, part: Part)
    ensures var saved := After(map[[] := map[]], [DidSave(path, I64_MAX, part)]);
      I64_MAX in VersionSet(saved, path) && DefaultSave(saved, DidSave(path, I64_MIN, part), path)
  {
    var start: Disk := map[[] := map[]];
    var save := DidSave(path, I64_MAX, part);
    var saved := After(start, [save]);
    assert [save][..|[save]| - 1] == [] && After(start, []) == start;
    assert saved == Changed(start, save);
    forall v ensures v in VersionSet(saved, path) <==> v == I64_MAX {
      ChangeStored(start, save, path, v);
      assert v in VersionSet(saved, path) <==> Stored(saved, path, v).Some?;
    }
    var sorted := [I64_MAX];
    assert Versions(sorted, VersionSet(saved, path)) && NextVersion(sorted) == I64_MIN;
  }
}
