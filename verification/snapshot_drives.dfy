/** Naming the disks of a snapshot, and finding the drive order again. */
module SnapshotDrives {
  import opened Wrappers
  import opened Text
  import opened Model
  import opened Worlds

  // ------------------------------------------------------------ file names

  /** The index of the last dot, or -1. */
  function LastDot(s: string): (i: int)
    ensures -1 <= i < |s|
    ensures i >= 0 ==> s[i] == '.'
    ensures forall k :: i < k < |s| ==> s[k] != '.'
  {
    if s == [] then -1
    else if s[|s| - 1] == '.' then |s| - 1
    else LastDot(s[..|s| - 1])
  }

  /** filepath.Ext and the name without it. */
  function Ext(s: string): string {
    if LastDot(s) < 0 then "" else s[LastDot(s)..]
  }

  function Stem(s: string): string {
    if LastDot(s) < 0 then s else s[..LastDot(s)]
  }

  lemma NameWithExt(stem: string)
    ensures Ext(stem + ".img") == ".img" && Stem(stem + ".img") == stem
  {
    var s := stem + ".img";
    assert s[|stem|] == '.';
    assert s[|stem| + 1] == 'i' && s[|stem| + 2] == 'm' && s[|stem| + 3] == 'g';
    assert LastDot(s) == |stem|;
  }

  const USER_PREFIX := "user-"

  /** The filter of orderedRestoredUserDiskArtifacts. */
  predicate IsUserDrive(name: string) {
    USER_PREFIX <= name && Ext(name) == ".img"
  }

  /** restoredUserDiskIndex. */
  function DriveIndex(name: string): Option<int> {
    if IsUserDrive(name) && |Stem(name)| >= |USER_PREFIX| then Atoi(Stem(name)[|USER_PREFIX|..]) else None
  }

  lemma UserDriveIndex(i: nat)
    requires i <= MAX_INT64
    ensures IsUserDrive(UserDriveName(i)) && DriveIndex(UserDriveName(i)) == Some(i)
    ensures Stem(UserDriveName(i)) == USER_PREFIX + Decimal(i)
  {
    var stem := USER_PREFIX + Decimal(i);
    NameWithExt(stem);
    assert UserDriveName(i) == stem + ".img";
    assert stem[|USER_PREFIX|..] == Decimal(i);
    AtoiOfDecimal(i);
  }

  lemma UserDriveInjective(i: nat, j: nat)
    requires UserDriveName(i) == UserDriveName(j)
    ensures i == j
  {
    NameWithExt(USER_PREFIX + Decimal(i));
    NameWithExt(USER_PREFIX + Decimal(j));
    assert UserDriveName(i) == USER_PREFIX + Decimal(i) + ".img" && UserDriveName(j) == USER_PREFIX + Decimal(j) + ".img";
    assert (USER_PREFIX + Decimal(i))[5..] == Decimal(i) && (USER_PREFIX + Decimal(j))[5..] == Decimal(j);
    DecimalInjective(i, j);
  }

  lemma SystemIsNoUserDrive()
    ensures !IsUserDrive("system.img")
  {
    assert "system.img"[0] != USER_PREFIX[0];
  }

  // ------------------------------------------------------------- the order

  /** The comparator of orderedRestoredUserDiskArtifacts, on names. */
  predicate DriveLess(a: string, b: string) {
    var i, j := DriveIndex(a), DriveIndex(b);
    if i.Some? && j.Some? && i.value != j.value then i.value < j.value
    else if i.Some? != j.Some? then i.Some?
    else Less(a, b)
  }

  /** It is a strict total order: distinct names are ordered one way only. */
  lemma DriveLessIsTotal(a: string, b: string)
    ensures !(DriveLess(a, b) && DriveLess(b, a))
    ensures a != b ==> DriveLess(a, b) || DriveLess(b, a)
    ensures !DriveLess(a, a)
  {
    LessTotal(a, b);
    if Less(a, b) {
      LessAsymmetric(a, b);
    }
    if Less(a, a) {
      LessAsymmetric(a, a);
    }
  }

  lemma DriveLessIsTransitive(a: string, b: string, c: string)
    requires DriveLess(a, b) && DriveLess(b, c)
    ensures DriveLess(a, c)
  {
    if Less(a, b) && Less(b, c) {
      LessTransitive(a, b, c);
    }
  }

  ghost predicate DrivesOrdered(artifacts: seq<SnapshotArtifact>) {
    forall i, j :: 0 <= i < j < |artifacts| ==> DriveLess(artifacts[i].name, artifacts[j].name)
  }

  ghost predicate IDsOrdered(artifacts: seq<SnapshotArtifact>) {
    forall i, j :: 0 <= i < j < |artifacts| ==> !Less(artifacts[j].id, artifacts[i].id)
  }

  // ---------------------------------------------------- building artifacts

  function ArtifactFor(path: DiskPath): SnapshotArtifact {
    SnapshotArtifact("disk-" + Stem(path.name), path.name, path)
  }

  ghost function ArtifactsOf(paths: seq<DiskPath>): multiset<SnapshotArtifact> {
    if paths == [] then multiset{} else ArtifactsOf(paths[..|paths| - 1]) + multiset{ArtifactFor(paths[|paths| - 1])}
  }

  /** buildSnapshotArtifacts: one artifact a disk, in the order of their ids. */
  method BuildSnapshotArtifacts(paths: seq<DiskPath>) returns (artifacts: seq<SnapshotArtifact>)
    ensures multiset(artifacts) == ArtifactsOf(paths) && IDsOrdered(artifacts)
  {
    artifacts := [];
    var i := 0;
    while i < |paths|
      invariant 0 <= i <= |paths|
      invariant multiset(artifacts) == ArtifactsOf(paths[..i]) && IDsOrdered(artifacts)
    {
      artifacts := InsertByID(artifacts, ArtifactFor(paths[i]));
      assert paths[..i + 1][..i] == paths[..i];
      i := i + 1;
    }
    assert paths[..i] == paths;
  }

  lemma LessOrEqualTransitive(a: string, b: string, c: string)
    requires !Less(b, a) && !Less(c, b)
    ensures !Less(c, a)
  {
    LessTotal(a, b);
    LessTotal(b, c);
    if Less(a, b) && Less(b, c) {
      LessTransitive(a, b, c);
      LessAsymmetric(a, c);
    }
  }

  method InsertByID(artifacts: seq<SnapshotArtifact>, r: SnapshotArtifact) returns (inserted: seq<SnapshotArtifact>)
    requires IDsOrdered(artifacts)
    ensures multiset(inserted) == multiset(artifacts) + multiset{r} && IDsOrdered(inserted)
  {
    hide Less;
    var i := |artifacts|;
    while i > 0 && Less(r.id, artifacts[i - 1].id)
      invariant 0 <= i <= |artifacts|
      invariant forall k :: i <= k < |artifacts| ==> Less(r.id, artifacts[k].id)
    {
      i := i - 1;
    }
    InsertedByID(artifacts, r, i);
    inserted := artifacts[..i] + [r] + artifacts[i..];
    assert artifacts == artifacts[..i] + artifacts[i..];
  }

  lemma InsertedByID(artifacts: seq<SnapshotArtifact>, r: SnapshotArtifact, i: nat)
    requires IDsOrdered(artifacts) && i <= |artifacts|
    requires i > 0 ==> !Less(r.id, artifacts[i - 1].id)
    requires forall k :: i <= k < |artifacts| ==> Less(r.id, artifacts[k].id)
    ensures IDsOrdered(artifacts[..i] + [r] + artifacts[i..])
  {
    hide Less;
    var inserted := artifacts[..i] + [r] + artifacts[i..];
    forall a | 0 <= a < i ensures !Less(r.id, artifacts[a].id) {
      if a < i - 1 {
        LessOrEqualTransitive(artifacts[a].id, artifacts[i - 1].id, r.id);
      }
    }
    forall b | i <= b < |artifacts| ensures !Less(artifacts[b].id, r.id) {
      LessAsymmetric(r.id, artifacts[b].id);
    }
    forall a, b | 0 <= a < b < |inserted|
      ensures !Less(inserted[b].id, inserted[a].id)
    {
      assert inserted[a] == if a < i then artifacts[a] else if a == i then r else artifacts[a - 1];
      assert inserted[b] == if b < i then artifacts[b] else if b == i then r else artifacts[b - 1];
    }
  }

  // ------------------------------------------------------------- restoring

  /** A snapshot's artifacts by name: iteration over it has no order. */
  ghost predicate ByName(artifacts: map<string, SnapshotArtifact>) {
    forall name :: name in artifacts ==> artifacts[name].name == name
  }

  /** The artifacts of the user drives, each once. */
  ghost predicate HoldsUserDrives(artifacts: map<string, SnapshotArtifact>, names: set<string>, ordered: seq<SnapshotArtifact>) {
    && names <= artifacts.Keys
    && (forall k :: 0 <= k < |ordered| ==>
          ordered[k].name in names && IsUserDrive(ordered[k].name) && artifacts[ordered[k].name] == ordered[k])
    && (forall name :: name in names && IsUserDrive(name) ==> artifacts[name] in ordered)
  }

  /** orderedRestoredUserDiskArtifacts. */
  method OrderedRestoredDrives(artifacts: map<string, SnapshotArtifact>) returns (ordered: seq<SnapshotArtifact>)
    requires ByName(artifacts)
    ensures HoldsUserDrives(artifacts, artifacts.Keys, ordered) && DrivesOrdered(ordered)
  {
    hide IsUserDrive, DriveLess, DrivesOrdered;
    ordered := [];
    var left := artifacts.Keys;
    NoDrives(artifacts);
    while left != {}
      invariant left <= artifacts.Keys
      invariant HoldsUserDrives(artifacts, artifacts.Keys - left, ordered) && DrivesOrdered(ordered)
    {
      var name :| name in left;
      ghost var before := ordered;
      if IsUserDrive(name) {
        ordered := InsertDrive(ordered, artifacts[name]);
      }
      OneMoreDrive(artifacts, artifacts.Keys - left, before, name, ordered);
      left := left - {name};
      assert artifacts.Keys - left == artifacts.Keys - (left + {name}) + {name};
    }
    assert artifacts.Keys - left == artifacts.Keys;
  }

  lemma NoDrives(artifacts: map<string, SnapshotArtifact>)
    ensures HoldsUserDrives(artifacts, artifacts.Keys - artifacts.Keys, []) && DrivesOrdered([])
  {
  }

  lemma OneMoreDrive(artifacts: map<string, SnapshotArtifact>, names: set<string>, before: seq<SnapshotArtifact>,
                     name: string, after: seq<SnapshotArtifact>)
    requires ByName(artifacts) && name in artifacts && names <= artifacts.Keys && HoldsUserDrives(artifacts, names, before)
    requires if IsUserDrive(name) then multiset(after) == multiset(before) + multiset{artifacts[name]} else after == before
    ensures HoldsUserDrives(artifacts, names + {name}, after)
  {
    hide IsUserDrive;
    forall r ensures r in after <==> r in before || (IsUserDrive(name) && r == artifacts[name]) {
      assert r in multiset(after) <==> r in after;
      assert r in multiset(before) <==> r in before;
    }
    forall k | 0 <= k < |after|
      ensures after[k].name in names + {name} && IsUserDrive(after[k].name) && artifacts[after[k].name] == after[k]
    {
      assert after[k] in after;
    }
  }

  method InsertDrive(ordered: seq<SnapshotArtifact>, r: SnapshotArtifact) returns (inserted: seq<SnapshotArtifact>)
    requires DrivesOrdered(ordered) && forall k :: 0 <= k < |ordered| ==> ordered[k].name != r.name
    ensures multiset(inserted) == multiset(ordered) + multiset{r} && DrivesOrdered(inserted)
  {
    hide DriveLess;
    var i := |ordered|;
    while i > 0 && DriveLess(r.name, ordered[i - 1].name)
      invariant 0 <= i <= |ordered|
      invariant forall k :: i <= k < |ordered| ==> DriveLess(r.name, ordered[k].name)
    {
      i := i - 1;
    }
    if i > 0 {
      DriveLessIsTotal(r.name, ordered[i - 1].name);
    }
    inserted := ordered[..i] + [r] + ordered[i..];
    InsertedInOrder(ordered, r, i);
    assert ordered == ordered[..i] + ordered[i..];
  }

  lemma InsertedInOrder(ordered: seq<SnapshotArtifact>, r: SnapshotArtifact, i: nat)
    requires DrivesOrdered(ordered) && i <= |ordered|
    requires i > 0 ==> DriveLess(ordered[i - 1].name, r.name)
    requires forall k :: i <= k < |ordered| ==> DriveLess(r.name, ordered[k].name)
    ensures DrivesOrdered(ordered[..i] + [r] + ordered[i..])
  {
    hide DriveLess;
    var inserted := ordered[..i] + [r] + ordered[i..];
    forall a | 0 <= a < i ensures DriveLess(ordered[a].name, r.name) {
      if a < i - 1 {
        DriveLessIsTransitive(ordered[a].name, ordered[i - 1].name, r.name);
      }
    }
    forall a, b | 0 <= a < b < |inserted|
      ensures DriveLess(inserted[a].name, inserted[b].name)
    {
      assert inserted[a] == if a < i then ordered[a] else if a == i then r else ordered[a - 1];
      assert inserted[b] == if b < i then ordered[b] else if b == i then r else ordered[b - 1];
    }
  }

  /** The artifacts a snapshot of `n` user volumes has, by name. */
  ghost predicate SnapshotOf(artifacts: map<string, SnapshotArtifact>, n: nat) {
    && ByName(artifacts)
    && (forall name :: name in artifacts <==> name == "system.img" || AmongDrives(name, n))
  }

  ghost predicate AmongDrives(name: string, n: nat) {
    exists i: nat :: i < n && name == UserDriveName(i)
  }

  /** Whatever order the map gave them in, drive i of the restored machine is
      the clone of volume i of the original one. */
  lemma {:induction false} RestoredDrivesKeepTheirPlaces(artifacts: map<string, SnapshotArtifact>, n: nat,
                                                         ordered: seq<SnapshotArtifact>)
    requires n <= MAX_INT64 && SnapshotOf(artifacts, n)
    requires HoldsUserDrives(artifacts, artifacts.Keys, ordered) && DrivesOrdered(ordered)
    ensures |ordered| == n
    ensures forall i :: 0 <= i < n ==> ordered[i] == artifacts[UserDriveName(i)]
  {
    forall k | 0 <= k < |ordered|
      ensures AmongDrives(ordered[k].name, n)
    {
      SystemIsNoUserDrive();
      assert ordered[k].name in artifacts;
    }
    PrefixIsInPlace(artifacts, n, ordered, n);
    if |ordered| > n {
      assert AmongDrives(ordered[n].name, n);
      var i: nat :| i < n && ordered[n].name == UserDriveName(i);
      DriveLessIsTotal(ordered[i].name, ordered[n].name);
    }
  }

  lemma {:induction false} PrefixIsInPlace(artifacts: map<string, SnapshotArtifact>, n: nat, ordered: seq<SnapshotArtifact>,
                                           m: nat)
    requires m <= n <= MAX_INT64 && SnapshotOf(artifacts, n)
    requires HoldsUserDrives(artifacts, artifacts.Keys, ordered) && DrivesOrdered(ordered)
    requires forall k :: 0 <= k < |ordered| ==> AmongDrives(ordered[k].name, n)
    ensures m <= |ordered|
    ensures forall i :: 0 <= i < m ==> ordered[i] == artifacts[UserDriveName(i)]
  {
    hide DriveLess, DriveIndex, IsUserDrive, UserDriveName, DrivesOrdered, HoldsUserDrives;
    if m > 0 {
      var last := m - 1;
      PrefixIsInPlace(artifacts, n, ordered, last);
      var k := PlaceOf(artifacts, n, ordered, last);
      if k < last {
        UserDriveInjective(k, last);
      } else if k > last {
        assert AmongDrives(ordered[last].name, n);
        var i: nat :| i < n && ordered[last].name == UserDriveName(i);
        OrderedPair(ordered, last, k);
        IndexDecides(i, last);
        OrderedPair(ordered, i, last);
        DriveLessIsTotal(UserDriveName(i), UserDriveName(i));
      }
    }
  }

  lemma PlaceOf(artifacts: map<string, SnapshotArtifact>, n: nat, ordered: seq<SnapshotArtifact>, i: nat) returns (k: nat)
    requires i < n <= MAX_INT64 && SnapshotOf(artifacts, n) && HoldsUserDrives(artifacts, artifacts.Keys, ordered)
    ensures k < |ordered| && ordered[k] == artifacts[UserDriveName(i)] && ordered[k].name == UserDriveName(i)
    ensures forall j: nat :: j < n ==> UserDriveName(j) in artifacts && artifacts[UserDriveName(j)].name == UserDriveName(j)
  {
    hide DriveIndex, IsUserDrive, UserDriveName;
    UserDriveIndex(i);
    var name := UserDriveName(i);
    assert name in artifacts && artifacts[name] in ordered;
    k :| 0 <= k < |ordered| && ordered[k] == artifacts[name];
  }

  lemma OrderedPair(ordered: seq<SnapshotArtifact>, i: nat, j: nat)
    requires DrivesOrdered(ordered) && i < j < |ordered|
    ensures DriveLess(ordered[i].name, ordered[j].name)
  {
  }

  lemma IndexDecides(i: nat, j: nat)
    requires i <= MAX_INT64 && j <= MAX_INT64 && DriveLess(UserDriveName(i), UserDriveName(j))
    ensures i < j
  {
    UserDriveIndex(i);
    UserDriveIndex(j);
    if i == j {
      DriveLessIsTotal(UserDriveName(i), UserDriveName(j));
    }
  }
}
