/** Restoring a local snapshot into a new machine, and what the recovery of an
    interrupted restore does and does not undo. */
module Restore {
  import opened Wrappers
  import opened Text
  import opened Model
  import opened Store
  import opened Network
  import opened Worlds
  import opened Daemons
  import opened Frames
  import opened Startup
  import opened Networking
  import opened Lifecycle
  import opened Resize
  import opened Deletion
  import opened CreationTrace
  import opened Creation
  import opened SnapshotDrives
  import Snapshots

  datatype RestoreRequest = RestoreRequest(id: MachineID, artifact: string, memoryMiB: int, storageBytes: int)

  // ------------------------------------------------------------ artifacts

  /** The artifacts of one snapshot, by name. */
  ghost predicate ArtifactMap(artifacts: map<string, SnapshotArtifact>, rows: seq<SnapshotArtifact>) {
    && ByName(artifacts)
    && (forall name :: name in artifacts ==> artifacts[name] in rows)
    && (forall k :: 0 <= k < |rows| ==> rows[k].name in artifacts)
  }

  /** localSnapshotArtifacts: every file must be there. */
  method LocalSnapshotArtifacts(d: Daemon, snapshot: SnapshotRecord)
    returns (status: Status, artifacts: map<string, SnapshotArtifact>)
    requires d.Inv()
    modifies d`halted, d`faulted
    ensures d.Inv() && d.W() == old(d.W())
    ensures status.Done? ==> ArtifactMap(artifacts, snapshot.artifacts)
    ensures status.Done? ==> forall k :: 0 <= k < |snapshot.artifacts| ==> snapshot.artifacts[k].localPath in d.W().files
  {
    hide FileStore.Valid, Good, Daemon.W;
    ghost var w := d.W();
    var rows := snapshot.artifacts;
    artifacts := map[];
    status := Done;
    var i := 0;
    while i < |rows| && status.Done?
      invariant 0 <= i <= |rows| && d.Inv() && d.W() == w
      invariant ByName(artifacts) && forall name :: name in artifacts ==> artifacts[name] in rows
      invariant status.Done? ==> forall k :: 0 <= k < i ==> rows[k].name in artifacts && rows[k].localPath in w.files
    {
      var size;
      status, size := d.FileSize(rows[i].localPath);
      artifacts := artifacts[rows[i].name := rows[i]];
      i := i + 1;
    }
  }

  /** The disks a restore reads lie in snapshot directories. */
  ghost predicate SnapshotDisks(artifacts: map<string, SnapshotArtifact>) {
    ByName(artifacts) && forall name :: name in artifacts ==> SnapshotDisk(artifacts[name])
  }

  lemma StoredArtifactsAreDisks(w: World, sid: SnapshotID, artifacts: map<string, SnapshotArtifact>)
    requires Good(w) && sid in w.snapshots && ArtifactMap(artifacts, w.snapshots[sid].artifacts)
    ensures SnapshotDisks(artifacts)
  {
    hide SnapshotDisk, HostPort, LegalLog, Replay, Coherent;
    var rows := w.snapshots[sid].artifacts;
    forall name | name in artifacts ensures SnapshotDisk(artifacts[name]) {
      var k :| 0 <= k < |rows| && rows[k] == artifacts[name];
    }
  }

  /** A snapshot taken by CreateSnapshot, found again by name: its drives. */
  lemma SnapshotArtifactsByName(artifacts: map<string, SnapshotArtifact>, rows: seq<SnapshotArtifact>, sid: SnapshotID, n: nat)
    requires multiset(rows) == ArtifactsOf(Snapshots.SnapshotPaths(sid, n)) && ArtifactMap(artifacts, rows)
    ensures SnapshotOf(artifacts, n)
    ensures forall i: nat :: i < n ==> artifacts[UserDriveName(i)].localPath == Snapshots.UserTarget(sid, i)
  {
    hide UserDriveName, ArtifactsOf, Snapshots.SnapshotPaths;
    forall name | name in artifacts
      ensures name == "system.img" || AmongDrives(name, n)
      ensures forall i: nat :: i < n && name == UserDriveName(i) ==> artifacts[name].localPath == Snapshots.UserTarget(sid, i)
    {
      assert artifacts[name] in multiset(rows);
      Snapshots.ArtifactOfSomePath(sid, n, artifacts[name]);
      NamesDecide(sid, n, artifacts[name]);
    }
    forall name | name == "system.img" || AmongDrives(name, n)
      ensures name in artifacts
    {
      EveryPathHasArtifact(sid, n, name);
      var r :| r in ArtifactsOf(Snapshots.SnapshotPaths(sid, n)) && r.name == name;
      assert r in multiset(rows) && r in rows;
    }
  }

  lemma NamesDecide(sid: SnapshotID, n: nat, r: SnapshotArtifact)
    requires r == ArtifactFor(Snapshots.SystemTarget(sid))
             || exists i: nat :: i < n && r == ArtifactFor(Snapshots.UserTarget(sid, i))
    ensures r.name == "system.img" || AmongDrives(r.name, n)
    ensures forall i: nat :: i < n && r.name == UserDriveName(i) ==> r.localPath == Snapshots.UserTarget(sid, i)
  {
    hide Stem, UserDriveName;
    forall i: nat | i < n && r.name == UserDriveName(i)
      ensures r.localPath == Snapshots.UserTarget(sid, i)
    {
      Snapshots.TargetsDiffer(sid, i);
      if j: nat :| j < n && r == ArtifactFor(Snapshots.UserTarget(sid, j)) {
        UserDriveInjective(i, j);
      }
    }
  }

  lemma {:induction false} EveryPathHasArtifact(sid: SnapshotID, n: nat, name: string)
    requires name == "system.img" || AmongDrives(name, n)
    ensures exists r :: r in ArtifactsOf(Snapshots.SnapshotPaths(sid, n)) && r.name == name
  {
    hide UserDriveName, Stem;
    var paths := Snapshots.SnapshotPaths(sid, n);
    if n == 0 {
      assert paths == [Snapshots.SystemTarget(sid)] && paths[..0] == [];
      assert ArtifactFor(Snapshots.SystemTarget(sid)) in ArtifactsOf(paths);
    } else {
      assert paths[..|paths| - 1] == Snapshots.SnapshotPaths(sid, n - 1);
      if name == UserDriveName(n - 1) {
        assert ArtifactFor(Snapshots.UserTarget(sid, n - 1)) in ArtifactsOf(paths);
      } else {
        EveryPathHasArtifact(sid, n - 1, name);
      }
    }
  }

  /** Snapshot, map, reorder: drive i of the restored machine is the clone of
      disk i of the original one, for any number of volumes. */
  lemma RestoredDriveIsTheOriginalVolume(artifacts: map<string, SnapshotArtifact>, rows: seq<SnapshotArtifact>,
                                         ordered: seq<SnapshotArtifact>, sid: SnapshotID, n: nat)
    requires n <= MAX_INT64
    requires multiset(rows) == ArtifactsOf(Snapshots.SnapshotPaths(sid, n)) && ArtifactMap(artifacts, rows)
    requires HoldsUserDrives(artifacts, artifacts.Keys, ordered) && DrivesOrdered(ordered)
    ensures |ordered| == n
    ensures forall i: nat :: i < n ==> ordered[i].localPath == Snapshots.UserTarget(sid, i)
  {
    hide UserDriveName, ArtifactsOf, HoldsUserDrives, DrivesOrdered, ArtifactMap;
    SnapshotArtifactsByName(artifacts, rows, sid, n);
    RestoredDrivesKeepTheirPlaces(artifacts, n, ordered);
  }

  // --------------------------------------------------------------- trace

  /** What an uncommitted restore may have done: files of its own directory, and
      new volume records attached to the machine. */
  ghost predicate Restoring(w: World, v: World, id: MachineID) {
    v.machines == w.machines && id !in v.machines && v.log == w.log && RestoringApart(w, v, id)
  }

  /** All but the machine records, before the commit and after it. */
  ghost predicate RestoringApart(w: World, v: World, id: MachineID) {
    && v.base == w.base
    && v.snapshots == w.snapshots
    && v.ports == w.ports
    && w.log <= v.log
    && v.journal - {id} == w.journal - {id}
    && VolumesRestoring(w.volumes, v.volumes, id)
    && InsideDir(w.files, v.files, id)
  }

  lemma ApartOfRestoring(w: World, v: World, id: MachineID)
    requires Restoring(w, v, id)
    ensures RestoringApart(w, v, id)
  {
    hide RestoringApart;
  }

  lemma RestoredApart(w: World, v: World, u: World, id: MachineID)
    requires RestoringApart(w, v, id) && SameApart(v, u, id)
    ensures RestoringApart(w, u, id)
  {
    hide VolumesRestoring;
  }

  lemma RestoredDirRemoved(w: World, v: World, u: World, id: MachineID)
    requires RestoringApart(w, v, id) && u == WithDisks(v, u.files, u.dirs) && InsideDir(v.files, u.files, id)
    ensures RestoringApart(w, u, id)
  {
    hide VolumesRestoring;
  }

  ghost predicate VolumesRestoring(before: map<VolumeID, VolumeRecord>, after: map<VolumeID, VolumeRecord>, id: MachineID) {
    && (forall x :: x in before ==> x in after && after[x] == before[x])
    && (forall x :: x in after && x !in before ==> AttachedTo(after[x], id))
  }

  lemma RestoringFromDisk(w: World, v: World, id: MachineID)
    requires Creating(w, v, id) && v.volumes == w.volumes && InsideDir(w.files, v.files, id)
    ensures Restoring(w, v, id)
  {
    hide VolumesCreating, FilesCreating;
  }

  lemma RestoringStep(w: World, v: World, u: World, id: MachineID)
    requires Restoring(w, v, id)
    requires u == v || u == WithVms(v, u.vms) || OnlyJournalOf(v, u, id) || u == WithDisks(v, u.files, u.dirs)
    requires InsideDir(v.files, u.files, id) || u.files == v.files
    ensures Restoring(w, u, id)
  {
  }

  lemma RestoringVolume(w: World, v: World, volume: VolumeRecord, id: MachineID)
    requires Restoring(w, v, id) && volume.id !in w.volumes && AttachedTo(volume, id)
    ensures Restoring(w, WithVolumes(v, v.volumes[volume.id := volume]), id)
    ensures Restoring(w, WithVolumes(v, v.volumes - {volume.id}), id)
  {
  }

  lemma RestoringParts(w: World, v: World, id: MachineID)
    requires Restoring(w, v, id)
    ensures v.machines == w.machines && id !in v.machines && v.base == w.base && w.log <= v.log
    ensures forall x :: x !in v.volumes ==> x !in w.volumes
    ensures v.log == w.log
  {
  }

  // --------------------------------------------------------- the volumes

  /** One restored drive: what its volume record will say. */
  datatype RestoredVolume = RestoredVolume(id: VolumeID, path: DiskPath, workspace: bool)

  function RestoredRecord(v: RestoredVolume, id: MachineID): VolumeRecord {
    VolumeRecord(v.id, UserVolume, Some(id), v.path, v.workspace, v.workspace)
  }

  /** The name a drive gets back: by its position, or as the workspace. */
  function RestoredVolumeFor(id: MachineID, name: string, workspace: bool): RestoredVolume {
    if workspace then RestoredVolume(WorkspaceVolumeID(id), WorkspaceVolumePath(id), true)
    else RestoredVolume(id + "-" + Stem(name), DiskPath(MachineDir(id), name), false)
  }

  ghost predicate MayRestore(v: RestoredVolume, id: MachineID) {
    && v.path.dir == MachineDir(id)
    && v.path != SystemVolumePath(id)
    && TempPath(v.path) != SystemVolumePath(id)
    && v.path.name != ""
    && v.path.name[|v.path.name| - 1] == 'g'
    && forall o :: v.id != SystemVolumeID(o)
  }

  lemma RestoredVolumeIsAllowed(id: MachineID, name: string, workspace: bool)
    requires SnapshotDriveName(name) && IsUserDrive(name)
    ensures MayRestore(RestoredVolumeFor(id, name, workspace), id)
  {
    hide WorkspaceVolumeID;
    SystemIsNoUserDrive();
    var v := RestoredVolumeFor(id, name, workspace);
    var temp := TempPath(v.path).name;
    assert temp[|temp| - 1] == 'p' && "system.img"[|"system.img"| - 1] == 'g';
    assert "workspace.img"[|"workspace.img"| - 1] == 'g';
    assert "workspace.img"[0] == 'w' && "system.img"[0] == 's';
    forall o ensures v.id != SystemVolumeID(o) {
      if workspace {
        SystemIsNotWorkspace(o, id);
      } else {
        DriveIDIsNoSystemID(id, name, o);
      }
    }
  }

  lemma DriveIDIsNoSystemID(id: MachineID, name: string, o: MachineID)
    requires SnapshotDriveName(name) && IsUserDrive(name)
    ensures id + "-" + Stem(name) != SystemVolumeID(o)
  {
    SystemIsNoUserDrive();
    var i: nat :| name == UserDriveName(i);
    NameWithExt(USER_PREFIX + Decimal(i));
    assert UserDriveName(i) == USER_PREFIX + Decimal(i) + ".img";
    assert Stem(name) == USER_PREFIX + Decimal(i);
    var x, y := id + "-" + Stem(name), SystemVolumeID(o);
    assert x[|x| - 1] == Decimal(i)[|Decimal(i)| - 1] && y[|y| - 1] == 'm';
  }

  ghost predicate AllMayRestore(volumes: seq<RestoredVolume>, id: MachineID) {
    forall k :: 0 <= k < |volumes| ==> MayRestore(volumes[k], id)
  }

  lemma OneMoreRestored(volumes: seq<RestoredVolume>, v: RestoredVolume, id: MachineID)
    requires AllMayRestore(volumes, id) && MayRestore(v, id)
    ensures AllMayRestore(volumes + [v], id)
  {
    hide MayRestore;
  }

  /** One clone of the loop; detectVolumePurpose reads a label, or fails. */
  method RestoreDrive(d: Daemon, ghost w: World, id: MachineID, artifact: SnapshotArtifact, ghost size: int)
    returns (status: Status, volume: RestoredVolume)
    requires d.Inv() && Creating(w, d.W(), id) && DiskReady(d.W(), id, size)
    requires SnapshotDisk(artifact) && IsUserDrive(artifact.name)
    modifies d`halted, d`faulted, d`files, d`dirs
    ensures d.Inv() && Creating(w, d.W(), id) && DiskReady(d.W(), id, size) && d.W().volumes == old(d.W()).volumes
    ensures MayRestore(volume, id) && InsideDir(old(d.W()).files, d.W().files, id)
    ensures SystemDiskMade(old(d.W()).files, id, size) ==> SystemDiskMade(d.W().files, id, size)
    ensures volume == RestoredVolumeFor(id, artifact.name, volume.workspace)
    ensures SameFilesApart(old(d.W()).files, d.W().files, {volume.path, TempPath(volume.path)})
    ensures status.Done? ==>
              && artifact.localPath in old(d.W()).files
              && volume.path in d.W().files
              && d.W().files[volume.path] == old(d.W()).files[artifact.localPath]
  {
    hide FileStore.Valid, Good, Daemon.W, Creating, DiskReady, SameFilesApart, InsideDir, WithDisks, NotASystemDisk,
      MayRestore, SnapshotDriveName, WorkspaceVolumeID, SystemDiskMade;
    var workspace: bool := *;
    volume := RestoredVolumeFor(id, artifact.name, workspace);
    RestoredVolumeIsAllowed(id, artifact.name, workspace);
    PathOfRestored(volume, id);
    SameInside(d.W().files, id);
    NoFilesApart(d.W().files, {volume.path, TempPath(volume.path)});
    var detected := d.Tick();
    status := Fault;
    if detected {
      ghost var v := d.W();
      SameMachines(w, v, id);
      NoSystemDiskYet(v, volume.path, id);
      status := d.CloneDisk(artifact.localPath, volume.path);
      ApartInside(v.files, d.W().files, {volume.path, TempPath(volume.path)}, id);
      CreatingDisks(w, v, d.W(), id);
      SystemDiskApart(v, d.W(), id, volume, size);
    }
  }

  lemma NoFilesApart(files: map<DiskPath, Image>, apart: set<DiskPath>)
    ensures SameFilesApart(files, files, apart)
  {
  }

  lemma PathOfRestored(volume: RestoredVolume, id: MachineID)
    requires MayRestore(volume, id)
    ensures volume.path.dir == MachineDir(id) && TempPath(volume.path).dir == MachineDir(id)
  {
  }

  lemma SystemDiskApart(v: World, u: World, id: MachineID, volume: RestoredVolume, size: int)
    requires DiskReady(v, id, size) && MayRestore(volume, id)
    requires SameFilesApart(v.files, u.files, {volume.path, TempPath(volume.path)})
    ensures DiskReady(u, id, size)
    ensures SystemDiskMade(v.files, id, size) ==> SystemDiskMade(u.files, id, size)
  {
    hide SystemVolumePath, SystemVolumeID;
  }

  /** Restored drive `k` holds its artifact's bytes, unless a later drive took
      the same path (which only a second workspace does). */
  ghost predicate DriveCloned(files: map<DiskPath, Image>, now: map<DiskPath, Image>, volumes: seq<RestoredVolume>,
                              ordered: seq<SnapshotArtifact>, k: nat)
    requires k < |volumes| <= |ordered|
  {
    (forall j :: k < j < |volumes| ==> volumes[j].path != volumes[k].path) ==>
      && ordered[k].localPath in files
      && volumes[k].path in now
      && now[volumes[k].path] == files[ordered[k].localPath]
  }

  ghost predicate DrivesCloned(files: map<DiskPath, Image>, now: map<DiskPath, Image>, id: MachineID,
                               volumes: seq<RestoredVolume>, ordered: seq<SnapshotArtifact>) {
    && |volumes| <= |ordered|
    && (forall k :: 0 <= k < |volumes| ==> volumes[k] == RestoredVolumeFor(id, ordered[k].name, volumes[k].workspace))
    && (forall k :: 0 <= k < |volumes| ==> DriveCloned(files, now, volumes, ordered, k))
  }

  lemma OneMoreCloned(files: map<DiskPath, Image>, now: map<DiskPath, Image>, after: map<DiskPath, Image>, id: MachineID,
                      volumes: seq<RestoredVolume>, volume: RestoredVolume, ordered: seq<SnapshotArtifact>)
    requires DrivesCloned(files, now, id, volumes, ordered) && |volumes| < |ordered| && AllMayRestore(volumes, id)
    requires volume == RestoredVolumeFor(id, ordered[|volumes|].name, volume.workspace) && MayRestore(volume, id)
    requires SameFilesApart(now, after, {volume.path, TempPath(volume.path)}) && InsideDir(files, now, id)
    requires ordered[|volumes|].localPath.dir.SnapshotDir?
    requires ordered[|volumes|].localPath in now && volume.path in after
    requires after[volume.path] == now[ordered[|volumes|].localPath]
    ensures DrivesCloned(files, after, id, volumes + [volume], ordered)
  {
    hide RestoredVolumeFor, SystemVolumeID, SystemVolumePath;
    var all := volumes + [volume];
    forall k | 0 <= k < |all| ensures DriveCloned(files, after, all, ordered, k) {
      if k < |volumes| {
        assert DriveCloned(files, now, volumes, ordered, k) && MayRestore(volumes[k], id);
        NeverATemp(volumes[k], volume, id);
        assert all[k] == volumes[k] && all[|volumes|] == volume;
        assert (forall j :: k < j < |all| ==> all[j].path != all[k].path) ==>
            (forall j :: k < j < |volumes| ==> volumes[j].path != volumes[k].path) && volume.path != volumes[k].path by {
          assert forall j :: k < j < |volumes| ==> all[j] == volumes[j];
        }
      }
    }
  }

  lemma NeverATemp(v: RestoredVolume, other: RestoredVolume, id: MachineID)
    requires MayRestore(v, id)
    ensures v.path != TempPath(other.path)
  {
    var temp := TempPath(other.path).name;
    assert temp[|temp| - 1] == 'p';
  }

  /** The loop over the drives in their recovered order. */
  method RestoreDrives(d: Daemon, ghost w: World, id: MachineID, artifacts: map<string, SnapshotArtifact>, ghost size: int)
    returns (status: Status, volumes: seq<RestoredVolume>, ghost ordered: seq<SnapshotArtifact>)
    requires d.Inv() && Creating(w, d.W(), id) && DiskReady(d.W(), id, size) && SnapshotDisks(artifacts)
    modifies d`halted, d`faulted, d`files, d`dirs
    ensures d.Inv() && Creating(w, d.W(), id) && DiskReady(d.W(), id, size) && d.W().volumes == old(d.W()).volumes
    ensures AllMayRestore(volumes, id) && InsideDir(old(d.W()).files, d.W().files, id)
    ensures SystemDiskMade(old(d.W()).files, id, size) ==> SystemDiskMade(d.W().files, id, size)
    ensures HoldsUserDrives(artifacts, artifacts.Keys, ordered) && DrivesOrdered(ordered)
    ensures DrivesCloned(old(d.W()).files, d.W().files, id, volumes, ordered)
    ensures status.Done? ==> |volumes| == |ordered|
  {
    hide FileStore.Valid, Good, Daemon.W, Creating, DiskReady, MayRestore, IsUserDrive, SnapshotDisk, DrivesOrdered,
      RestoredVolumeFor, HoldsUserDrives, AllMayRestore, InsideDir, SameFilesApart, DrivesCloned,
      SystemDiskMade;
    ghost var before, files := d.W().volumes, d.W().files;
    var drives := OrderedRestoredDrives(artifacts);
    ordered := drives;
    volumes := [];
    NoneRestored(id, files, ordered);
    SameInside(files, id);
    status := Done;
    var i := 0;
    while i < |drives| && status.Done?
      invariant 0 <= i <= |drives| && d.Inv() && Creating(w, d.W(), id) && DiskReady(d.W(), id, size)
      invariant d.W().volumes == before && AllMayRestore(volumes, id) && InsideDir(files, d.W().files, id)
      invariant status.Done? ==> |volumes| == i
      invariant |volumes| <= |drives|
      invariant SystemDiskMade(files, id, size) ==> SystemDiskMade(d.W().files, id, size)
      invariant status.Done? ==> DrivesCloned(files, d.W().files, id, volumes, drives)
    {
      ghost var now := d.W().files;
      OrderedIsDisk(artifacts, drives, i);
      var volume;
      status, volume := RestoreDrive(d, w, id, drives[i], size);
      InsideStill(files, now, d.W().files, id);
      if status.Done? {
        OneMoreCloned(files, now, d.W().files, id, volumes, volume, drives);
        OneMoreRestored(volumes, volume, id);
        volumes := volumes + [volume];
      }
      i := i + 1;
    }
    if !status.Done? {
      volumes := [];
      NoneRestored(id, d.W().files, ordered);
      NoneRestored(id, files, ordered);
      NothingCloned(files, d.W().files, id, ordered);
    }
  }

  lemma NothingCloned(files: map<DiskPath, Image>, now: map<DiskPath, Image>, id: MachineID, ordered: seq<SnapshotArtifact>)
    ensures DrivesCloned(files, now, id, [], ordered)
  {
  }

  lemma NoneRestored(id: MachineID, files: map<DiskPath, Image>, ordered: seq<SnapshotArtifact>)
    ensures AllMayRestore([], id) && DrivesCloned(files, files, id, [], ordered)
  {
  }

  lemma OrderedIsDisk(artifacts: map<string, SnapshotArtifact>, ordered: seq<SnapshotArtifact>, i: nat)
    requires SnapshotDisks(artifacts) && HoldsUserDrives(artifacts, artifacts.Keys, ordered) && i < |ordered|
    ensures SnapshotDisk(ordered[i]) && IsUserDrive(ordered[i].name) && ordered[i].localPath.dir.SnapshotDir?
  {
    hide SnapshotDriveName, IsUserDrive;
    assert ordered[i].name in artifacts;
  }
  // -------------------------------------------------------- volume records

  /** Between the boot and the commit. */
  ghost predicate RestoreReady(w: World, v: World, id: MachineID, size: int, networks: seq<Allocation>) {
    Restoring(w, v, id) && DiskReady(v, id, size) && CoversNetworks(v, id, networks)
  }

  lemma ReadyAfterVolume(w: World, v: World, volume: VolumeRecord, id: MachineID, size: int, networks: seq<Allocation>)
    requires RestoreReady(w, v, id, size, networks) && volume.id !in v.volumes && AttachedTo(volume, id)
    ensures var u := WithVolumes(v, v.volumes[volume.id := volume]);
            RestoreReady(w, u, id, size, networks) && Restoring(w, u, id) && volume.id !in w.volumes
  {
    hide Restoring, NetworkListed, SystemVolumePath, AttachedTo;
    RestoringParts(w, v, id);
    RestoringVolume(w, v, volume, id);
  }

  lemma SystemStillRecorded(v: World, volume: VolumeRecord, id: MachineID)
    requires SystemRecorded(v, id) && volume.id !in v.volumes
    ensures SystemRecorded(WithVolumes(v, v.volumes[volume.id := volume]), id)
  {
  }

  lemma ReadyParts(w: World, v: World, id: MachineID, size: int, networks: seq<Allocation>)
    requires RestoreReady(w, v, id, size, networks)
    ensures Restoring(w, v, id) && DiskReady(v, id, size) && CoversNetworks(v, id, networks)
    ensures v.machines == w.machines && id !in v.machines && v.base == w.base
  {
  }

  lemma RestoredRecordPlaced(v: World, volume: RestoredVolume, id: MachineID)
    requires MayRestore(volume, id)
    ensures MayPlaceVolume(v, RestoredRecord(volume, id)) && AttachedTo(RestoredRecord(volume, id), id)
    ensures RestoredRecord(volume, id).id == volume.id
  {
    hide SystemVolumeID;
  }

  lemma SystemRecordRestored(v: World, id: MachineID)
    requires id !in v.machines
    ensures MayPlaceVolume(v, SystemVolumeRecord(id)) && AttachedTo(SystemVolumeRecord(id), id)
    ensures SystemRecorded(WithVolumes(v, v.volumes[SystemVolumeRecord(id).id := SystemVolumeRecord(id)]), id)
  {
    hide SystemVolumeID;
    OwnVolumeMayBePlaced(v, SystemVolumeRecord(id), id);
  }

  ghost predicate NewIDs(w: World, ids: seq<VolumeID>) {
    forall k :: 0 <= k < |ids| ==> ids[k] !in w.volumes
  }

  /** The system record, then one record a drive; a failed write takes back the
      records of this call and the VM. */
  method RecordRestored(d: Daemon, ghost w: World, id: MachineID, volumes: seq<RestoredVolume>, state: MachineState,
                        ghost size: int, ghost networks: seq<Allocation>)
    returns (status: Status, ids: seq<VolumeID>)
    requires d.Inv() && RestoreReady(w, d.W(), id, size, networks) && AllMayRestore(volumes, id)
    modifies d`halted, d`faulted, d`vms, d.store
    ensures d.Inv() && Restoring(w, d.W(), id) && d.W().journal == old(d.W()).journal
    ensures status.Done? ==>
              && RestoreReady(w, d.W(), id, size, networks)
              && SystemRecorded(d.W(), id)
              && NewIDs(w, ids)
              && SystemVolumeID(id) !in w.volumes
              && RestoredRecorded(d.W(), id, volumes, ids, |volumes|)
              && d.W().files == old(d.W()).files
  {
    hide FileStore.Valid, Good, Daemon.W, Restoring, RestoreReady, WithVolumes, MayPlaceVolume, SystemRecorded, NewIDs,
      AllMayRestore, SystemVolumeID, RestoredRecord, AttachedTo, RestoredRecorded;
    ids := [];
    ghost var v := d.W();
    NoNewIDs(w);
    ReadyParts(w, v, id, size, networks);
    SystemRecordRestored(v, id);
    var system := SystemVolumeRecord(id);
    status := d.CreateVolume(system);
    if status.Done? {
      ReadyAfterVolume(w, v, system, id, size, networks);
      status, ids := RecordDrives(d, w, id, volumes, size, networks);
      ReadyOrNot(w, d.W(), id, size, networks);
      if !status.Done? {
        DropRestored(d, w, id, ids);
        DropNew(d, w, id, SystemVolumeID(id));
        TakeDownRestored(d, w, id, state);
      }
    } else {
      TakeDownRestored(d, w, id, state);
    }
  }

  lemma NoNewIDs(w: World)
    ensures NewIDs(w, [])
  {
  }

  lemma OneMoreNewID(w: World, ids: seq<VolumeID>, x: VolumeID)
    requires NewIDs(w, ids) && x !in w.volumes
    ensures NewIDs(w, ids + [x])
  {
  }

  lemma ReadyOrNot(w: World, v: World, id: MachineID, size: int, networks: seq<Allocation>)
    ensures RestoreReady(w, v, id, size, networks) ==> Restoring(w, v, id)
  {
  }

  method RecordDrives(d: Daemon, ghost w: World, id: MachineID, volumes: seq<RestoredVolume>, ghost size: int,
                      ghost networks: seq<Allocation>)
    returns (status: Status, ids: seq<VolumeID>)
    requires d.Inv() && RestoreReady(w, d.W(), id, size, networks) && AllMayRestore(volumes, id) && SystemRecorded(d.W(), id)
    modifies d`halted, d`faulted, d.store
    ensures d.Inv() && RestoreReady(w, d.W(), id, size, networks) && SystemRecorded(d.W(), id) && NewIDs(w, ids)
    ensures d.W().files == old(d.W()).files && d.W().journal == old(d.W()).journal
    ensures status.Done? ==> RestoredRecorded(d.W(), id, volumes, ids, |volumes|)
  {
    hide FileStore.Valid, Good, Daemon.W, Restoring, RestoreReady, WithVolumes, MayPlaceVolume, SystemRecorded, NewIDs,
      AllMayRestore, SystemVolumeID, RestoredRecord, AttachedTo, MayRestore, RestoredRecorded;
    ids := [];
    ghost var files, journal := d.W().files, d.W().journal;
    NoNewIDs(w);
    NoneRecorded(d.W(), id, volumes);
    status := Done;
    var i := 0;
    while i < |volumes| && status.Done?
      invariant 0 <= i <= |volumes| && d.Inv() && RestoreReady(w, d.W(), id, size, networks)
      invariant SystemRecorded(d.W(), id) && NewIDs(w, ids) && d.W().files == files && d.W().journal == journal
      invariant status.Done? ==> RestoredRecorded(d.W(), id, volumes, ids, i)
    {
      ghost var v := d.W();
      var record := RestoredRecord(volumes[i], id);
      RestoredMember(volumes, i, id);
      RestoredRecordPlaced(v, volumes[i], id);
      status := d.CreateVolume(record);
      if status.Done? {
        ReadyAfterVolume(w, v, record, id, size, networks);
        SystemStillRecorded(v, record, id);
        OneMoreNewID(w, ids, record.id);
        OneMoreRecorded(v, id, volumes, ids, i);
        ids := ids + [record.id];
      }
      i := i + 1;
    }
  }

  /** The first `n` drives have their records, and `ids` lists them in order. */
  ghost predicate RestoredRecorded(v: World, id: MachineID, volumes: seq<RestoredVolume>, ids: seq<VolumeID>, n: nat) {
    && |ids| == n <= |volumes|
    && (forall k :: 0 <= k < n ==>
          ids[k] == volumes[k].id && ids[k] in v.volumes && v.volumes[ids[k]] == RestoredRecord(volumes[k], id))
    && forall j, k :: 0 <= j < k < n ==> ids[j] != ids[k]
  }

  lemma NoneRecorded(v: World, id: MachineID, volumes: seq<RestoredVolume>)
    ensures RestoredRecorded(v, id, volumes, [], 0)
  {
  }

  lemma OneMoreRecorded(v: World, id: MachineID, volumes: seq<RestoredVolume>, ids: seq<VolumeID>, n: nat)
    requires RestoredRecorded(v, id, volumes, ids, n) && n < |volumes| && volumes[n].id !in v.volumes
    ensures var r := RestoredRecord(volumes[n], id);
            r.id == volumes[n].id
            && RestoredRecorded(WithVolumes(v, v.volumes[r.id := r]), id, volumes, ids + [r.id], n + 1)
  {
  }

  lemma SameRecorded(v: World, u: World, id: MachineID, volumes: seq<RestoredVolume>, ids: seq<VolumeID>)
    requires u.volumes == v.volumes
    ensures RestoredRecorded(v, id, volumes, ids, |volumes|) ==> RestoredRecorded(u, id, volumes, ids, |volumes|)
  {
  }

  lemma RestoredMember(volumes: seq<RestoredVolume>, i: nat, id: MachineID)
    requires AllMayRestore(volumes, id) && i < |volumes|
    ensures MayRestore(volumes[i], id)
  {
  }

  method DropNew(d: Daemon, ghost w: World, id: MachineID, x: VolumeID)
    requires d.Inv() && Restoring(w, d.W(), id) && x !in w.volumes
    modifies d`halted, d`faulted, d.store
    ensures d.Inv() && Restoring(w, d.W(), id) && d.W().journal == old(d.W()).journal
  {
    hide FileStore.Valid, Good, Daemon.W, Restoring, WithVolumes;
    NewDropped(w, d.W(), x, id);
    var _ := d.DeleteVolume(x);
  }

  lemma NewDropped(w: World, v: World, x: VolumeID, id: MachineID)
    requires Restoring(w, v, id) && x !in w.volumes
    ensures Restoring(w, WithVolumes(v, v.volumes - {x}), id)
  {
  }

  method DropRestored(d: Daemon, ghost w: World, id: MachineID, ids: seq<VolumeID>)
    requires d.Inv() && Restoring(w, d.W(), id) && NewIDs(w, ids)
    modifies d`halted, d`faulted, d.store
    ensures d.Inv() && Restoring(w, d.W(), id) && d.W().journal == old(d.W()).journal
  {
    hide FileStore.Valid, Good, Daemon.W, Restoring;
    ghost var journal := d.W().journal;
    var i := 0;
    while i < |ids|
      invariant 0 <= i <= |ids| && d.Inv() && Restoring(w, d.W(), id) && d.W().journal == journal
    {
      DropNew(d, w, id, ids[i]);
      i := i + 1;
    }
  }

  method TakeDownRestored(d: Daemon, ghost w: World, id: MachineID, state: MachineState)
    requires d.Inv() && Restoring(w, d.W(), id)
    modifies d`halted, d`faulted, d`vms
    ensures d.Inv() && Restoring(w, d.W(), id) && d.W().journal == old(d.W()).journal
  {
    hide FileStore.Valid, Good, Daemon.W, Restoring, WithVms;
    ghost var v := d.W();
    var _ := d.DeleteVm(state);
    RestoringStep(w, v, d.W(), id);
  }

  // ------------------------------------------------------------- the call

  /** From the journal write of `j` on. */
  ghost predicate RestoreProgress(status: Status, j: World, v: World, sid: SnapshotID, req: RestoreRequest, cleanup: Cleanup) {
    var id := req.id;
    if id !in v.machines then !status.Done? && Restoring(j, v, id)
    else
      && OtherRecordsKept(j, v, id)
      && RestoringApart(j, v, id)
      && SystemVolumeID(id) !in j.volumes
      && LeftAs(status, v, id, cleanup)
      && (status.Done? ==> RestoredAs(req, v.machines[id]) && SystemRecorded(v, id) && RestoredFrom(j, v, sid, id))
  }

  function RestoreOpFor(id: MachineID, sid: SnapshotID): OperationRecord {
    OperationRecord(id, RestoreOp, Some(sid), 0, 0)
  }

  /** Either nothing happened, or the call got past its journal write. */
  ghost predicate RestoreOutcome(status: Status, w: World, v: World, sid: SnapshotID, req: RestoreRequest, cleanup: Cleanup) {
    || (v == w && !status.Done?)
    || (&& req.id !in w.machines
        && var j := AfterUpsert(w, RestoreOpFor(req.id, sid));
        && RestoreProgress(status, j, v, sid, req, cleanup)
        && (v.journal == j.journal || v.journal == j.journal - {req.id}))
  }

  /** The snapshot and the files it was restored from are those before the call. */
  lemma RestoredFromBefore(w: World, op: OperationRecord, v: World, sid: SnapshotID, id: MachineID)
    requires RestoredFrom(AfterUpsert(w, op), v, sid, id)
    ensures RestoredFrom(w, v, sid, id)
  {
    hide DrivesOfSnapshot, DrivesCloned, RestoredRecorded, Torn;
    var ordered, volumes :| DrivesInPlace(AfterUpsert(w, op), v, sid, id, ordered, volumes);
    assert DrivesInPlace(w, v, sid, id, ordered, volumes);
  }

  /** A system volume record that is already there, like the one an interrupted
      restore leaves, lets no restore of that id get to its commit, and stays. */
  lemma LeftoverRefusesRestore(status: Status, w: World, v: World, sid: SnapshotID, req: RestoreRequest, cleanup: Cleanup)
    requires RestoreOutcome(status, w, v, sid, req, cleanup)
    requires req.id !in w.machines && SystemVolumeID(req.id) in w.volumes
    ensures !status.Done? && req.id !in v.machines && SystemVolumeID(req.id) in v.volumes
  {
    hide SystemVolumeID, LeftAs, RestoredFrom, Torn;
  }

  predicate RestoredAs(req: RestoreRequest, r: MachineRecord) {
    && r.artifact == req.artifact
    && r.memoryMiB == (if req.memoryMiB <= 0 then DEFAULT_GUEST_MEMORY_MIB else req.memoryMiB)
    && r.storageBytes == (if req.storageBytes <= 0 then DEFAULT_GUEST_DISK_SIZE_BYTES else req.storageBytes)
    && r.systemVolumeID == SystemVolumeID(req.id)
  }

  /** The machine has the drives of the snapshot, in their order: their records
      under its user volumes, their bytes under the records' paths. */
  ghost predicate RestoredFrom(w: World, v: World, sid: SnapshotID, id: MachineID) {
    exists ordered: seq<SnapshotArtifact>, volumes: seq<RestoredVolume> :: DrivesInPlace(w, v, sid, id, ordered, volumes)
  }

  ghost predicate DrivesInPlace(w: World, v: World, sid: SnapshotID, id: MachineID, ordered: seq<SnapshotArtifact>,
                                volumes: seq<RestoredVolume>) {
    && sid in w.snapshots
    && id in v.machines
    && DrivesOfSnapshot(w.snapshots[sid].artifacts, ordered)
    && |volumes| == |ordered|
    && DrivesCloned(w.files, v.files, id, volumes, ordered)
    && RestoredRecorded(v, id, volumes, v.machines[id].userVolumeIDs, |volumes|)
  }

  ghost predicate DrivesOfSnapshot(rows: seq<SnapshotArtifact>, ordered: seq<SnapshotArtifact>) {
    exists artifacts: map<string, SnapshotArtifact> ::
      ArtifactMap(artifacts, rows) && HoldsUserDrives(artifacts, artifacts.Keys, ordered) && DrivesOrdered(ordered)
  }

  /** Two drives share a path only as two workspaces, under one volume id. */
  lemma SamePathSameID(id: MachineID, i: nat, j: nat, first: bool, second: bool)
    requires i != j
    requires RestoredVolumeFor(id, UserDriveName(i), first).path == RestoredVolumeFor(id, UserDriveName(j), second).path
    ensures RestoredVolumeFor(id, UserDriveName(i), first).id == RestoredVolumeFor(id, UserDriveName(j), second).id
  {
    hide Stem;
    assert "workspace.img"[0] == 'w' && UserDriveName(i)[0] == 'u' && UserDriveName(j)[0] == 'u';
    if !first && !second {
      UserDriveInjective(i, j);
    }
  }

  /** Snapshot, then restore: drive i of the restored machine holds, byte for
      byte, what volume i of the original machine held when the snapshot was
      taken in `w0`. */
  lemma RestoredDiskIsTheOriginal(w0: World, w: World, v: World, r: MachineRecord, sid: SnapshotID, id: MachineID, i: nat)
    requires Snapshots.SnapshotComplete(w0, w, r, sid) && RestoredFrom(w, v, sid, id)
    requires |r.userVolumeIDs| <= MAX_INT64 && i < |r.userVolumeIDs|
    ensures id in v.machines && |v.machines[id].userVolumeIDs| == |r.userVolumeIDs|
    ensures r.userVolumeIDs[i] in w0.volumes && w0.volumes[r.userVolumeIDs[i]].path in w0.files
    ensures v.machines[id].userVolumeIDs[i] in v.volumes
    ensures v.volumes[v.machines[id].userVolumeIDs[i]].path in v.files
    ensures v.files[v.volumes[v.machines[id].userVolumeIDs[i]].path] == w0.files[w0.volumes[r.userVolumeIDs[i]].path]
  {
    hide ArtifactMap, HoldsUserDrives, DrivesOrdered, ArtifactsOf, Snapshots.SnapshotPaths, UserDriveName, RestoredVolumeFor,
      DrivesCloned, RestoredRecorded;
    var ordered, volumes :| DrivesInPlace(w, v, sid, id, ordered, volumes);
    var rows, n := w.snapshots[sid].artifacts, |r.userVolumeIDs|;
    var artifacts :| ArtifactMap(artifacts, rows) && HoldsUserDrives(artifacts, artifacts.Keys, ordered)
                     && DrivesOrdered(ordered);
    SnapshotArtifactsByName(artifacts, rows, sid, n);
    RestoredDrivesKeepTheirPlaces(artifacts, n, ordered);
    NamedByPlace(artifacts, n, ordered);
    DriveHoldsItsArtifact(w, v, id, ordered, volumes, i);
    assert Snapshots.UserCopied(w0, w.files, r, sid, i);
  }

  lemma NamedByPlace(artifacts: map<string, SnapshotArtifact>, n: nat, ordered: seq<SnapshotArtifact>)
    requires SnapshotOf(artifacts, n) && |ordered| == n
    requires forall i :: 0 <= i < n ==> ordered[i] == artifacts[UserDriveName(i)]
    ensures forall i :: 0 <= i < n ==> ordered[i].name == UserDriveName(i)
  {
    hide UserDriveName;
  }

  lemma DriveHoldsItsArtifact(w: World, v: World, id: MachineID, ordered: seq<SnapshotArtifact>, volumes: seq<RestoredVolume>,
                              i: nat)
    requires id in v.machines && |volumes| == |ordered| && i < |ordered|
    requires DrivesCloned(w.files, v.files, id, volumes, ordered)
    requires RestoredRecorded(v, id, volumes, v.machines[id].userVolumeIDs, |volumes|)
    requires forall k :: 0 <= k < |ordered| ==> ordered[k].name == UserDriveName(k)
    ensures var ids := v.machines[id].userVolumeIDs;
            && |ids| == |ordered|
            && ids[i] in v.volumes
            && ordered[i].localPath in w.files
            && v.volumes[ids[i]].path in v.files
            && v.files[v.volumes[ids[i]].path] == w.files[ordered[i].localPath]
  {
    hide RestoredVolumeFor, UserDriveName;
    var ids := v.machines[id].userVolumeIDs;
    forall j | i < j < |volumes| ensures volumes[j].path != volumes[i].path {
      assert ids[i] != ids[j];
      if volumes[j].path == volumes[i].path {
        SamePathSameID(id, i, j, volumes[i].workspace, volumes[j].workspace);
      }
    }
    assert DriveCloned(w.files, v.files, volumes, ordered, i);
  }

  function RestoredStorage(req: RestoreRequest): (size: int)
    ensures size > 0
  {
    if req.storageBytes <= 0 then DEFAULT_GUEST_DISK_SIZE_BYTES else req.storageBytes
  }

  /** The system disk of the new machine, from the snapshot's. */
  method RestoreSystemDisk(d: Daemon, ghost w: World, req: RestoreRequest, source: DiskPath)
    returns (status: Status, size: nat)
    requires d.Inv() && Creating(w, d.W(), req.id) && source.dir.SnapshotDir?
    modifies d`halted, d`faulted, d`files, d`dirs, d`log, d`abandoned
    ensures d.Inv() && Creating(w, d.W(), req.id) && d.W().volumes == old(d.W()).volumes
    ensures InsideDir(old(d.W()).files, d.W().files, req.id)
    ensures status.Done? ==> DiskReady(d.W(), req.id, size) && size == RestoredStorage(req) > 0
    ensures status.Done? ==> SystemDiskMade(d.W().files, req.id, size)
  {
    hide FileStore.Valid, Good, Daemon.W, Creating, DiskReady, SystemVolumePath, InsideDir, SystemDiskMade;
    size := 0;
    ghost var files := d.W().files;
    status := CloneRoot(d, w, req.id, source);
    ghost var now := d.W().files;
    SameInside(now, req.id);
    if status.Done? {
      status, size := ResolveStorage(d, req.storageBytes, source);
    }
    if status.Done? {
      status := GrowAndInject(d, w, req.id, size, false);
    }
    InsideStill(files, now, d.W().files, req.id);
  }

  /** The drives of the snapshot are on disk and in the store. */
  ghost predicate Rebuilt(files: map<DiskPath, Image>, v: World, id: MachineID, artifacts: map<string, SnapshotArtifact>,
                          ids: seq<VolumeID>, ordered: seq<SnapshotArtifact>, volumes: seq<RestoredVolume>) {
    && HoldsUserDrives(artifacts, artifacts.Keys, ordered)
    && DrivesOrdered(ordered)
    && |volumes| == |ordered|
    && DrivesCloned(files, v.files, id, volumes, ordered)
    && RestoredRecorded(v, id, volumes, ids, |volumes|)
  }

  /** The clone of the system disk has not touched the snapshot. */
  lemma ClonedFromBefore(files: map<DiskPath, Image>, early: map<DiskPath, Image>, now: map<DiskPath, Image>, id: MachineID,
                         volumes: seq<RestoredVolume>, artifacts: map<string, SnapshotArtifact>, ordered: seq<SnapshotArtifact>)
    requires InsideDir(files, early, id) && SnapshotDisks(artifacts) && HoldsUserDrives(artifacts, artifacts.Keys, ordered)
    requires DrivesCloned(early, now, id, volumes, ordered)
    ensures DrivesCloned(files, now, id, volumes, ordered)
  {
    hide SnapshotDisks, HoldsUserDrives, RestoredVolumeFor, SnapshotDriveName, IsUserDrive;
    forall k | 0 <= k < |volumes| ensures DriveCloned(files, now, volumes, ordered, k) {
      OrderedIsDisk(artifacts, ordered, k);
      assert DriveCloned(early, now, volumes, ordered, k);
    }
  }

  /** The disks: the system disk, then the drives. */
  method RestoreDisks(d: Daemon, ghost w: World, req: RestoreRequest, artifacts: map<string, SnapshotArtifact>)
    returns (status: Status, size: nat, volumes: seq<RestoredVolume>, ghost ordered: seq<SnapshotArtifact>)
    requires d.Inv() && Creating(w, d.W(), req.id) && SnapshotDisks(artifacts)
    modifies d`halted, d`faulted, d`files, d`dirs, d`log, d`abandoned
    ensures d.Inv() && Creating(w, d.W(), req.id) && d.W().volumes == old(d.W()).volumes
    ensures InsideDir(old(d.W()).files, d.W().files, req.id)
    ensures status.Done? ==>
              && DiskReady(d.W(), req.id, size)
              && SystemDiskMade(d.W().files, req.id, size)
              && size == RestoredStorage(req)
              && AllMayRestore(volumes, req.id)
              && |volumes| == |ordered|
              && HoldsUserDrives(artifacts, artifacts.Keys, ordered)
              && DrivesOrdered(ordered)
              && DrivesCloned(old(d.W()).files, d.W().files, req.id, volumes, ordered)
  {
    hide FileStore.Valid, Good, Daemon.W, Creating, DiskReady, SnapshotDisks, SnapshotDriveName, AllMayRestore,
      HoldsUserDrives, DrivesOrdered, DrivesCloned, InsideDir, SystemDiskMade;
    size, volumes, ordered := 0, [], [];
    status := Conflict;
    SystemDiskOf(artifacts);
    ghost var files := d.W().files;
    SameInside(files, req.id);
    if "system.img" in artifacts {
      status, size := RestoreSystemDisk(d, w, req, artifacts["system.img"].localPath);
      if status.Done? {
        ghost var now := d.W().files;
        status, volumes, ordered := RestoreDrives(d, w, req.id, artifacts, size);
        InsideStill(files, now, d.W().files, req.id);
        ClonedFromBefore(files, now, d.W().files, req.id, volumes, artifacts, ordered);
      }
    }
  }

  /** Disks, boot and volume records. */
  method RestoreParts(d: Daemon, ghost w: World, req: RestoreRequest, artifacts: map<string, SnapshotArtifact>, nonce: string)
    returns (status: Status, size: nat, state: MachineState, ids: seq<VolumeID>, ghost networks: seq<Allocation>,
             ghost ordered: seq<SnapshotArtifact>, ghost drives: seq<RestoredVolume>)
    requires d.Inv() && Creating(w, d.W(), req.id) && d.W().volumes == w.volumes && SnapshotDisks(artifacts)
    requires d.W().files == w.files
    modifies d`halted, d`faulted, d`vms, d`files, d`dirs, d`log, d`abandoned, d.store
    ensures d.Inv() && Restoring(w, d.W(), req.id) && d.W().journal == w.journal
    ensures status.Done? ==>
              && size == RestoredStorage(req)
              && SystemDiskMade(d.W().files, req.id, size)
              && RestoreReady(w, d.W(), req.id, size, networks)
              && SystemRecorded(d.W(), req.id)
              && NewIDs(w, ids)
              && SystemVolumeID(req.id) !in w.volumes
              && BootedOn(d.W().base, networks, state)
              && Rebuilt(old(d.W()).files, d.W(), req.id, artifacts, ids, ordered, drives)
  {
    hide FileStore.Valid, Good, Daemon.W, Creating, DiskReady, CoversNetworks, BootedOn, SystemRecorded, SystemVolumeID,
      Restoring, SnapshotDisks, AllMayRestore, NewIDs, HoldsUserDrives, DrivesOrdered, RestoredVolumeFor, DrivesCloned,
      RestoredRecorded, SystemDiskMade, InsideDir;
    var volumes;
    state, ids, networks := MachineState(VmStopped, 0, "", "", "", None, ""), [], [];
    status, size, volumes, ordered := RestoreDisks(d, w, req, artifacts);
    drives := volumes;
    if status.Done? {
      status, state, networks := BootNew(d, w, req.id, nonce, size);
    }
    RestoringFromDisk(w, d.W(), req.id);
    RestoringParts(w, d.W(), req.id);
    SameMachines(w, d.W(), req.id);
    if status.Done? {
      status, ids := RecordRestored(d, w, req.id, volumes, state, size, networks);
      RestoringParts(w, d.W(), req.id);
    }
  }

  lemma SystemDiskOf(artifacts: map<string, SnapshotArtifact>)
    requires SnapshotDisks(artifacts)
    ensures "system.img" in artifacts ==> artifacts["system.img"].localPath.dir.SnapshotDir?
  {
    hide SnapshotDriveName;
    assert "system.img" in artifacts ==> SnapshotDisk(artifacts["system.img"]);
  }

  /** The record write that commits the restore, with its rollback. */
  method CommitRestored(d: Daemon, ghost w: World, r: MachineRecord, state: MachineState) returns (status: Status)
    requires d.Inv() && Restoring(w, d.W(), r.id) && NewIDs(w, r.userVolumeIDs) && SystemVolumeID(r.id) !in w.volumes
    requires MayCreate(d.W(), r)
    modifies d`halted, d`faulted, d`vms, d`log, d`abandoned, d.store
    ensures d.Inv()
    ensures if status.Done? then r.id in d.W().machines && d.W().machines == w.machines[r.id := r] && w.log <= d.W().log
            else Restoring(w, d.W(), r.id)
    ensures status.Done? ==> RestoringApart(w, d.W(), r.id)
    ensures status.Done? ==> d.W().volumes == old(d.W()).volumes && d.W().files == old(d.W()).files
    ensures d.W().journal == old(d.W()).journal
  {
    hide FileStore.Valid, Good, Daemon.W, Restoring, RestoringApart, SameApart, AfterCreate, MayCreate, SystemVolumeID,
      NewIDs;
    RestoringParts(w, d.W(), r.id);
    ApartOfRestoring(w, d.W(), r.id);
    CommitApart(d.W(), r);
    RestoredApart(w, d.W(), AfterCreate(d.W(), r), r.id);
    CreatedIsLogged(w, d.W(), r);
    status := d.CreateMachine(r);
    if !status.Done? {
      DropRestored(d, w, r.id, r.userVolumeIDs);
      DropNew(d, w, r.id, SystemVolumeID(r.id));
      TakeDownRestored(d, w, r.id, state);
    }
  }

  /** What the artifacts are and where they lie when the building begins. */
  ghost predicate FromSnapshot(w: World, v: World, sid: SnapshotID, artifacts: map<string, SnapshotArtifact>) {
    && sid in w.snapshots
    && ArtifactMap(artifacts, w.snapshots[sid].artifacts)
    && v.files == w.files
  }

  lemma RestoredInPlace(w: World, b: World, u: World, sid: SnapshotID, req: RestoreRequest,
                        artifacts: map<string, SnapshotArtifact>, r: MachineRecord, ordered: seq<SnapshotArtifact>,
                        volumes: seq<RestoredVolume>)
    requires FromSnapshot(w, w, sid, artifacts)
    requires Rebuilt(w.files, b, req.id, artifacts, r.userVolumeIDs, ordered, volumes) && SystemRecorded(b, req.id)
    requires u.files == b.files && u.volumes == b.volumes && req.id in u.machines && SameBody(r, u.machines[req.id])
    requires r.artifact == req.artifact && r.memoryMiB == ResolveMemory(req.memoryMiB)
    requires r.storageBytes == RestoredStorage(req) && r.systemVolumeID == SystemVolumeID(req.id)
    requires SystemDiskMade(b.files, req.id, r.storageBytes)
    ensures RestoredAs(req, u.machines[req.id]) && SystemRecorded(u, req.id) && RestoredFrom(w, u, sid, req.id)
    ensures SystemDiskMade(u.files, req.id, u.machines[req.id].storageBytes)
  {
    hide ArtifactMap, HoldsUserDrives, DrivesOrdered, DrivesCloned, RestoredRecorded, SystemVolumeID, SystemDiskMade;
    SameRecorded(b, u, req.id, volumes, r.userVolumeIDs);
    assert DrivesOfSnapshot(w.snapshots[sid].artifacts, ordered);
    assert DrivesInPlace(w, u, sid, req.id, ordered, volumes);
  }

  /** The calls whose failure clears the journal entry at once are told apart
      from the two that leave it for the next reconcile. */
  method RestoreAndStart(d: Daemon, ghost w: World, ghost sid: SnapshotID, req: RestoreRequest,
                         artifacts: map<string, SnapshotArtifact>, nonce: string, key: string)
    returns (status: Status, clear: bool, ghost cleanup: Cleanup)
    requires d.Inv() && d.W() == w && req.id !in w.machines && SnapshotDisks(artifacts)
    requires FromSnapshot(w, w, sid, artifacts)
    requires nonce != "" && Trimmed(nonce) && FreshNonce(w.log, nonce)
    modifies d, d.store
    ensures d.Inv() && RestoreProgress(status, w, d.W(), sid, req, cleanup) && (status.Done? ==> clear)
    ensures d.W().journal == w.journal
  {
    hide FileStore.Valid, Good, Daemon.W, Creating, Restoring, OtherRecordsKept, Trimmed, SnapshotDisks, ArtifactMap,
      RestoredAs, SystemRecorded, RestoredFrom, SystemDiskMade, InsideDir, RestoringApart, FreshNonce, HasDisk;
    clear, cleanup := false, NotNeeded;
    CreatingNothing(w, req.id);
    status := MakeMachineDir(d, w, req.id);
    SameMachines(w, d.W(), req.id);
    SameInside(w.files, req.id);
    RestoringFromDisk(w, d.W(), req.id);
    if status.Done? {
      status, clear := BuildAndStartRestored(d, w, sid, req, artifacts, nonce, key);
      if !status.Done? {
        ghost var v := d.W();
        cleanup := RemoveRestoredDir(d, w, req.id);
        CommittedStill(w, v, d.W(), req.id);
        RestoredIsAbsent(w, d.W(), req.id);
        DiskAfterCleanup(v, d.W(), req.id, cleanup);
      }
    }
  }

  /** What the building leaves, before the deferred cleanup of a failed call. */
  ghost predicate RestoreBuilt(status: Status, j: World, v: World, sid: SnapshotID, req: RestoreRequest) {
    var id := req.id;
    if id !in v.machines then !status.Done? && Restoring(j, v, id)
    else
      && OtherRecordsKept(j, v, id)
      && RestoringApart(j, v, id)
      && SystemVolumeID(id) !in j.volumes
      && SystemDiskMade(v.files, id, v.machines[id].storageBytes)
      && (if status.Done? then v.machines[id].phase.Running? || v.machines[id].phase.Failed?
          else IsLive(v.machines[id].phase))
      && RestoredAs(req, v.machines[id])
      && SystemRecorded(v, id)
      && RestoredFrom(j, v, sid, id)
  }

  method BuildAndStartRestored(d: Daemon, ghost w: World, ghost sid: SnapshotID, req: RestoreRequest,
                               artifacts: map<string, SnapshotArtifact>, nonce: string, key: string)
    returns (status: Status, clear: bool)
    requires d.Inv() && Creating(w, d.W(), req.id) && d.W().volumes == w.volumes && SnapshotDisks(artifacts)
    requires FromSnapshot(w, d.W(), sid, artifacts)
    requires nonce != "" && Trimmed(nonce) && FreshNonce(w.log, nonce)
    modifies d, d.store
    ensures d.Inv() && RestoreBuilt(status, w, d.W(), sid, req) && (status.Done? ==> clear)
    ensures d.W().journal == w.journal
  {
    hide FileStore.Valid, Good, Daemon.W, Creating, DiskReady, CoversNetworks, BootedOn, SystemRecorded, Restoring,
      SystemVolumeID, SystemVolumePath, NewRecord, MayCreate, OtherRecordsKept, TouchesOnly, Converged, Trimmed,
      NewIDs, SnapshotDisks, Rebuilt, ArtifactMap, SameBody, RestoredAs, RestoredFrom, SystemDiskMade, RestoringApart,
      SameApart, FreshNonce;
    SameMachines(w, d.W(), req.id);
    var size, state, ids;
    ghost var networks, ordered, volumes;
    status, size, state, ids, networks, ordered, volumes := RestoreParts(d, w, req, artifacts, nonce);
    clear := true;
    RestoringParts(w, d.W(), req.id);
    if status.Done? {
      var r := NewRecord(req.id, req.artifact, ResolveMemory(req.memoryMiB), size, ids, state, nonce, key);
      NewRecordFields(req.id, req.artifact, ResolveMemory(req.memoryMiB), size, ids, state, nonce, key);
      CreatingIsAllowed(d.W(), r, networks, state);
      ghost var b := d.W();
      status := CommitRestored(d, w, r, state);
      SameMachinesUnless(w, d.W(), r);
      RestoredIsAbsent(w, d.W(), req.id);
      if status.Done? {
        ghost var v := d.W();
        var updated;
        status, updated := CompleteMachineStartup(d, r, state);
        clear := status.Done?;
        OthersStillKept(w, v, d.W(), req.id);
        StepsApart(v, d.W(), req.id);
        RestoredApart(w, v, d.W(), req.id);
        RestoredInPlace(w, b, d.W(), sid, req, artifacts, r, ordered, volumes);
      }
    }
  }

  lemma RestoredIsAbsent(w: World, v: World, id: MachineID)
    ensures Restoring(w, v, id) ==> id !in v.machines
  {
  }

  /** The deferred cleanup, errors ignored. */
  method RemoveRestoredDir(d: Daemon, ghost w: World, id: MachineID) returns (ghost cleanup: Cleanup)
    requires d.Inv()
    modifies d`halted, d`faulted, d`files, d`dirs
    ensures d.Inv() && d.W().machines == old(d.W()).machines && d.W().log == old(d.W()).log
    ensures d.W().journal == old(d.W()).journal && d.W().volumes == old(d.W()).volumes
    ensures old(Restoring(w, d.W(), id)) ==> Restoring(w, d.W(), id)
    ensures old(RestoringApart(w, d.W(), id)) ==> RestoringApart(w, d.W(), id)
    ensures !cleanup.NotNeeded?
    ensures cleanup.Worked? ==> SystemVolumePath(id) !in d.W().files
    ensures cleanup.NoEffect? ==> d.W().files == old(d.W()).files
  {
    hide FileStore.Valid, Good, Daemon.W, Restoring, RestoringApart, WithDisks, SomeRemoved, WithoutDir, InsideDir;
    ghost var v := d.W();
    var dir := d.RemoveAll(MachineDir(id));
    RemovedInside(v.files, d.W().files, id);
    if Restoring(w, v, id) {
      RestoringStep(w, v, d.W(), id);
    }
    if RestoringApart(w, v, id) {
      RestoredDirRemoved(w, v, d.W(), id);
    }
    RemovedStays(v.files, d.W().files, MachineDir(id), SystemVolumePath(id));
    cleanup := if dir.Done? then Worked else if d.W().files == v.files then NoEffect else HalfDone;
  }

  method RestoreJournalled(d: Daemon, ghost w: World, sid: SnapshotID, req: RestoreRequest)
    returns (status: Status, clear: bool, ghost cleanup: Cleanup)
    requires d.Inv() && d.W() == w && req.id !in w.machines
    modifies d, d.store
    ensures d.Inv() && RestoreProgress(status, w, d.W(), sid, req, cleanup) && (status.Done? ==> clear)
    ensures d.W().journal == w.journal
  {
    hide FileStore.Valid, Good, Daemon.W, Creating, Restoring, OtherRecordsKept, Trimmed, ArtifactMap, SnapshotDisks,
      RestoredAs, SystemRecorded, RestoredFrom, SystemDiskMade, RestoringApart, FreshNonce;
    cleanup := NotNeeded;
    CreatingNothing(w, req.id);
    SameInside(w.files, req.id);
    RestoringFromDisk(w, w, req.id);
    var found, artifacts := None, map[];
    status, found := d.GetSnapshot(sid);
    if status.Done? {
      status, artifacts := LocalSnapshotArtifacts(d, found.value);
    }
    var key: string := *;
    var keyMade := d.Tick();
    var nonce := NewReadyNonce(d);
    clear := true;
    if status.Done? && keyMade && nonce.Some? {
      StoredArtifactsAreDisks(d.W(), sid, artifacts);
      status, clear, cleanup := RestoreAndStart(d, w, sid, req, artifacts, nonce.value, key);
    } else {
      status := Fault;
    }
  }

  /** RestoreSnapshot, from a snapshot on this host. */
  method RestoreSnapshot(d: Daemon, sid: SnapshotID, req: RestoreRequest) returns (status: Status, ghost cleanup: Cleanup)
    requires d.Inv()
    modifies d, d.store
    ensures d.Inv() && RestoreOutcome(status, old(d.W()), d.W(), sid, req, cleanup)
    ensures status.Done? ==> RestoredFrom(old(d.W()), d.W(), sid, req.id)
    ensures req.id !in old(d.W()).machines && SystemVolumeID(req.id) in old(d.W()).volumes ==>
              !status.Done? && req.id !in d.W().machines && SystemVolumeID(req.id) in d.W().volumes
    ensures SystemVolumeID(req.id) in old(d.W()).volumes ==> !status.Done?
    ensures req.id !in old(d.W()).machines && req.id in d.W().machines && !cleanup.HalfDone? ==>
              (HasDisk(d.W(), req.id) <==> status.Done? || cleanup.NoEffect?)
  {
    hide FileStore.Valid, Good, Daemon.W, RestoreProgress, AfterUpsert, AfterClear, RestoredFrom, SystemVolumeID, HasDisk;
    ghost var w := d.W();
    status, cleanup := Conflict, NotNeeded;
    var got, found := d.GetMachine(req.id);
    if got.NotFound? {
      var op := RestoreOpFor(req.id, sid);
      status := d.UpsertOperation(op);
      if status.Done? {
        ghost var j := d.W();
        var clear;
        status, clear, cleanup := RestoreJournalled(d, j, sid, req);
        ghost var v := d.W();
        if clear {
          RestoreCleared(status, j, v, sid, req, cleanup);
          var _ := d.DeleteOperation(req.id);
        }
        RestoredOnlyIfFree(status, w, op, d.W(), sid, req, cleanup);
      }
    } else if got.Fault? {
      status := Fault;
    }
  }

  lemma RestoredOnlyIfFree(status: Status, w: World, op: OperationRecord, v: World, sid: SnapshotID, req: RestoreRequest,
                           cleanup: Cleanup)
    requires RestoreProgress(status, AfterUpsert(w, op), v, sid, req, cleanup)
    ensures status.Done? ==> RestoredFrom(w, v, sid, req.id) && SystemVolumeID(req.id) !in w.volumes
    ensures SystemVolumeID(req.id) in w.volumes ==> req.id !in v.machines && SystemVolumeID(req.id) in v.volumes
    ensures req.id in v.machines && !cleanup.HalfDone? ==> (HasDisk(v, req.id) <==> status.Done? || cleanup.NoEffect?)
  {
    hide RestoredFrom, SystemVolumeID, LeftAs, Torn, HasDisk;
    if req.id in v.machines && !cleanup.HalfDone? {
      DiskOfCommitted(status, v, req.id, cleanup);
    }
    if status.Done? {
      RestoredFromBefore(w, op, v, sid, req.id);
    }
  }

  lemma RestoreCleared(status: Status, j: World, v: World, sid: SnapshotID, req: RestoreRequest, cleanup: Cleanup)
    requires RestoreProgress(status, j, v, sid, req, cleanup)
    ensures RestoreProgress(status, j, AfterClear(v, req.id), sid, req, cleanup)
  {
    hide RestoredFrom, SystemVolumeID, IsSystemDisk, RestoredAs, RestoringApart, LeftAs, SameApart, OtherRecordsKept, Torn;
    var u := AfterClear(v, req.id);
    ClearIsJournal(v, req.id);
    if req.id !in v.machines {
      RestoringStep(j, v, u, req.id);
    } else {
      StepsApart(v, u, req.id);
      RestoredApart(j, v, u, req.id);
      OthersAside(j, v, u, req.id);
      LeftAside(status, v, u, req.id, cleanup);
      if status.Done? {
        RestoredFromAside(j, v, u, sid, req.id);
      }
    }
  }

  lemma RestoredFromAside(w: World, v: World, u: World, sid: SnapshotID, id: MachineID)
    requires RestoredFrom(w, v, sid, id) && u.files == v.files && u.volumes == v.volumes && u.machines == v.machines
    ensures RestoredFrom(w, u, sid, id)
  {
    hide DrivesOfSnapshot, DrivesCloned, RestoredRecorded;
    var ordered, volumes :| DrivesInPlace(w, v, sid, id, ordered, volumes);
    SameRecorded(v, u, id, volumes, v.machines[id].userVolumeIDs);
    assert DrivesInPlace(w, u, sid, id, ordered, volumes);
  }

  // -------------------------------------------------------------- recovery

  /** Recovery clears the journal and, as far as it can, the disk. It leaves the
      store otherwise as the interrupted restore did: the volume records the
      restore made are still there. */
  ghost predicate RestoreRecovered(w: World, v: World, u: World, id: MachineID) {
    && u.machines == v.machines
    && u.volumes == v.volumes
    && id !in u.journal
    && (if id in v.machines then SameApart(v, u, id) else Restoring(w, u, id))
  }

  /** A volume record under a machine's system volume id, or attached to the
      machine, while the machine itself has no record. */
  ghost predicate Leftover(w: World, id: MachineID) {
    id !in w.machines && (SystemVolumeID(id) in w.volumes || !NoneAttached(w, id))
  }

  /** reconcileRestore, from any state an interrupted restore leaves. */
  method ReconcileRestore(d: Daemon, ghost w: World, id: MachineID) returns (status: Status)
    requires d.Inv() && (id !in d.W().machines ==> Restoring(w, d.W(), id))
    modifies d, d.store
    ensures d.Inv() && HandlesOnly(old(d.W()), d.W(), id)
    ensures status.Done? ==> RestoreRecovered(w, old(d.W()), d.W(), id) && id !in d.W().journal
    ensures status.Done? ==> (Leftover(d.W(), id) <==> Leftover(old(d.W()), id))
  {
    hide FileStore.Valid, Good, Daemon.W, Restoring, OnlyJournalOf, AfterClear, WithDisks, SomeRemoved, WithoutDir,
      HandlesOnly, SameApart, SystemVolumeID;
    ghost var v := d.W();
    ghost var u := v;
    ApartNothing(v, id);
    var found;
    status, found := d.GetMachine(id);
    if status.NotFound? {
      var _ := d.RemoveAll(MachineDir(id));
      RemovedInside(v.files, d.W().files, id);
      RestoringStep(w, v, d.W(), id);
      u := d.W();
      VolumesAside(v, u);
      status := Done;
    }
    if status.Done? {
      ClearIsJournal(u, id);
      ApartThenClear(v, u, id);
      JournalOnly(u, AfterClear(u, id), id);
      StepsApart(u, AfterClear(u, id), id);
      if id !in v.machines {
        RestoringStep(w, u, AfterClear(u, id), id);
      }
      status := d.DeleteOperation(id);
    }
  }

  lemma VolumesAside(v: World, u: World)
    requires u == WithDisks(v, u.files, u.dirs)
    ensures u.volumes == v.volumes && u.machines == v.machines
    ensures forall id :: HandlesOnly(v, u, id)
  {
  }

  lemma JournalOnly(v: World, u: World, id: MachineID)
    requires OnlyJournalOf(v, u, id)
    ensures u.volumes == v.volumes && u.machines == v.machines && u.files == v.files
  {
  }
}
