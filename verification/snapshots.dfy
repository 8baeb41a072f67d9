/** Taking a snapshot of a running machine, and recovering an interrupted one. */
module Snapshots {
  import opened Wrappers
  import opened Text
  import opened Model
  import KeyedRows
  import opened Store
  import opened Network
  import opened Worlds
  import opened Daemons
  import opened Frames
  import opened SnapshotDrives

  function SystemTarget(sid: SnapshotID): DiskPath {
    DiskPath(SnapshotDir(sid), "system.img")
  }

  function UserTarget(sid: SnapshotID, i: nat): DiskPath {
    DiskPath(SnapshotDir(sid), UserDriveName(i))
  }

  /** The paths a snapshot of `n` user volumes lists. */
  function SnapshotPaths(sid: SnapshotID, n: nat): (paths: seq<DiskPath>)
    ensures |paths| == n + 1
  {
    if n == 0 then [SystemTarget(sid)] else SnapshotPaths(sid, n - 1) + [UserTarget(sid, n - 1)]
  }

  /** The first `n` disks of the machine are in the snapshot, byte for byte as
      they were in `w`. */
  ghost predicate DisksCopied(w: World, files: map<DiskPath, Image>, r: MachineRecord, sid: SnapshotID, n: nat) {
    && n <= |r.userVolumeIDs|
    && SystemTarget(sid) in files
    && HasDisk(w, r.id)
    && files[SystemTarget(sid)] == w.files[SystemVolumePath(r.id)]
    && forall i: nat :: i < n ==> UserCopied(w, files, r, sid, i)
  }

  ghost predicate UserCopied(w: World, files: map<DiskPath, Image>, r: MachineRecord, sid: SnapshotID, i: nat)
    requires i < |r.userVolumeIDs|
  {
    && r.userVolumeIDs[i] in w.volumes
    && w.volumes[r.userVolumeIDs[i]].path in w.files
    && UserTarget(sid, i) in files
    && files[UserTarget(sid, i)] == w.files[w.volumes[r.userVolumeIDs[i]].path]
  }

  /** A snapshot record with all its disk files. */
  ghost predicate SnapshotComplete(w: World, v: World, r: MachineRecord, sid: SnapshotID) {
    && sid in v.snapshots
    && v.snapshots == w.snapshots[sid := v.snapshots[sid]]
    && v.snapshots[sid].id == sid
    && v.snapshots[sid].machineID == r.id
    && v.snapshots[sid].diskPaths == SnapshotPaths(sid, |r.userVolumeIDs|)
    && multiset(v.snapshots[sid].artifacts) == ArtifactsOf(v.snapshots[sid].diskPaths)
    && DisksCopied(w, v.files, r, sid, |r.userVolumeIDs|)
  }

  predicate Paused(w: World, pid: int) {
    pid in w.vms && w.vms[pid].paused
  }

  ghost predicate FilesSnapshotting(files: map<DiskPath, Image>, now: map<DiskPath, Image>, sid: SnapshotID) {
    forall path: DiskPath :: path.dir != SnapshotDir(sid) ==>
      (path in files <==> path in now) && (path in files && path in now ==> files[path] == now[path])
  }

  ghost predicate VmsSnapshotting(vms: map<int, Vm>, now: map<int, Vm>, pid: int) {
    && now.Keys == vms.Keys
    && (forall p :: p in vms && p != pid ==> now[p] == vms[p])
    && (pid in vms ==> now[pid] == vms[pid].(paused := now[pid].paused))
  }

  /** What an unfinished snapshot may have changed: its own directory, and whether
      the source VM is paused. */
  ghost predicate Snapshotting(w: World, v: World, r: MachineRecord, sid: SnapshotID) {
    && v == w.(snapshots := v.snapshots, files := v.files, dirs := v.dirs, vms := v.vms)
    && FilesSnapshotting(w.files, v.files, sid)
    && v.dirs - {SnapshotDir(sid)} == w.dirs - {SnapshotDir(sid)}
    && VmsSnapshotting(w.vms, v.vms, r.pid)
    && (v.snapshots == w.snapshots || (SnapshotComplete(w, v, r, sid) && !Paused(v, r.pid)))
  }

  /** Before the record is stored. */
  ghost predicate Copying(w: World, v: World, r: MachineRecord, sid: SnapshotID) {
    Snapshotting(w, v, r, sid) && v.snapshots == w.snapshots
  }

  lemma SameFilesCopying(files: map<DiskPath, Image>, now: map<DiskPath, Image>, later: map<DiskPath, Image>, sid: SnapshotID)
    requires FilesSnapshotting(files, now, sid) && now == later
    ensures FilesSnapshotting(files, later, sid)
  {
  }

  lemma SameVmsCopying(vms: map<int, Vm>, now: map<int, Vm>, later: map<int, Vm>, pid: int)
    requires VmsSnapshotting(vms, now, pid) && now == later
    ensures VmsSnapshotting(vms, later, pid)
  {
  }

  lemma CopyingDisks(w: World, v: World, u: World, r: MachineRecord, sid: SnapshotID)
    requires Copying(w, v, r, sid) && (u == v || u == WithDisks(v, u.files, u.dirs))
    requires FilesSnapshotting(v.files, u.files, sid)
    requires u.dirs - {SnapshotDir(sid)} == v.dirs - {SnapshotDir(sid)}
    ensures Copying(w, u, r, sid)
    ensures u.volumes == v.volumes && u.snapshots == v.snapshots && u.vms == v.vms && u.machines == v.machines
  {
    hide SnapshotComplete, VmsSnapshotting;
    SameVmsCopying(w.vms, v.vms, u.vms, r.pid);
  }

  lemma CopyingVms(w: World, v: World, u: World, r: MachineRecord, sid: SnapshotID)
    requires Copying(w, v, r, sid) && u == WithVms(v, u.vms) && VmsSnapshotting(v.vms, u.vms, r.pid)
    ensures Copying(w, u, r, sid)
    ensures u.volumes == v.volumes && u.files == v.files && u.machines == v.machines
  {
    hide SnapshotComplete, FilesSnapshotting;
    SameFilesCopying(w.files, v.files, u.files, sid);
  }

  lemma CopyingParts(w: World, v: World, r: MachineRecord, sid: SnapshotID)
    requires Copying(w, v, r, sid)
    ensures Snapshotting(w, v, r, sid)
    ensures v.volumes == w.volumes && v.machines == w.machines && v.snapshots == w.snapshots
    ensures FilesSnapshotting(w.files, v.files, sid)
  {
  }

  /** The clone of one disk into the snapshot directory. */
  method CopyDisk(d: Daemon, ghost w: World, ghost r: MachineRecord, ghost sid: SnapshotID, source: DiskPath,
                  target: DiskPath)
    returns (status: Status)
    requires d.Inv() && Copying(w, d.W(), r, sid)
    requires target.dir == SnapshotDir(sid) && source.dir != SnapshotDir(sid)
    modifies d`halted, d`faulted, d`files, d`dirs
    ensures d.Inv() && Copying(w, d.W(), r, sid) && d.W().vms == old(d.W()).vms
    ensures SameFilesApart(old(d.W()).files, d.W().files, {target, TempPath(target)})
    ensures status.Done? ==> source in w.files && target in d.W().files && d.W().files[target] == w.files[source]
  {
    hide FileStore.Valid, Good, Daemon.W, Copying, WithDisks, SameFilesApart, FilesSnapshotting, NotASystemDisk;
    ghost var v := d.W();
    NotInMachineDir(v, target);
    SourceUntouched(w, v, r, sid, source);
    status := d.CloneDisk(source, target);
    ApartSnapshotting(v.files, d.W().files, target, sid);
    OnlyThisDir(v.dirs, d.W().dirs, sid);
    CopyingDisks(w, v, d.W(), r, sid);
  }

  lemma NotInMachineDir(v: World, target: DiskPath)
    requires target.dir.SnapshotDir?
    ensures NotASystemDisk(v, target)
  {
  }

  lemma SourceUntouched(w: World, v: World, r: MachineRecord, sid: SnapshotID, source: DiskPath)
    requires Copying(w, v, r, sid) && source.dir != SnapshotDir(sid)
    ensures source in v.files <==> source in w.files
    ensures source in v.files ==> v.files[source] == w.files[source]
  {
  }

  lemma ApartSnapshotting(files: map<DiskPath, Image>, now: map<DiskPath, Image>, target: DiskPath, sid: SnapshotID)
    requires SameFilesApart(files, now, {target, TempPath(target)}) && target.dir == SnapshotDir(sid)
    ensures FilesSnapshotting(files, now, sid)
  {
  }

  lemma OnlyThisDir(dirs: set<Dir>, now: set<Dir>, sid: SnapshotID)
    requires dirs <= now <= dirs + {SnapshotDir(sid)}
    ensures now - {SnapshotDir(sid)} == dirs - {SnapshotDir(sid)}
  {
  }

  // ------------------------------------------------------------- the disks

  lemma CopiedAgain(w: World, files: map<DiskPath, Image>, now: map<DiskPath, Image>, r: MachineRecord, sid: SnapshotID, n: nat)
    requires DisksCopied(w, files, r, sid, n) && n < |r.userVolumeIDs|
    requires SameFilesApart(files, now, {UserTarget(sid, n), TempPath(UserTarget(sid, n))})
    requires UserCopied(w, now, r, sid, n)
    ensures DisksCopied(w, now, r, sid, n + 1)
  {
    hide UserDriveName, SystemVolumePath;
    TargetsDiffer(sid, n);
    forall i: nat | i < n + 1
      ensures UserCopied(w, now, r, sid, i)
    {
      if i < n {
        assert UserCopied(w, files, r, sid, i);
        UserTargetsDiffer(sid, i, n);
      }
    }
  }

  lemma TargetsDiffer(sid: SnapshotID, n: nat)
    ensures SystemTarget(sid) != UserTarget(sid, n) && SystemTarget(sid) != TempPath(UserTarget(sid, n))
  {
    assert "system.img"[0] == 's' && UserDriveName(n)[0] == 'u';
  }

  lemma UserTargetsDiffer(sid: SnapshotID, i: nat, n: nat)
    requires i != n
    ensures UserTarget(sid, i) != UserTarget(sid, n) && UserTarget(sid, i) != TempPath(UserTarget(sid, n))
  {
    if UserTarget(sid, i) == UserTarget(sid, n) {
      UserDriveInjective(i, n);
    }
    var a, b := UserDriveName(i), UserDriveName(n) + ".tmp";
    assert a[|a| - 1] == 'g' && b[|b| - 1] == 'p';
  }

  lemma VolumeOffSnapshots(w: World, x: VolumeID)
    requires Good(w) && x in w.volumes
    ensures w.volumes[x].path.dir.MachineDir?
  {
  }

  /** Every disk of the paused machine is cloned into the snapshot directory. */
  method CopyDisks(d: Daemon, ghost w: World, r: MachineRecord, sid: SnapshotID)
    returns (status: Status, paths: seq<DiskPath>)
    requires d.Inv() && Copying(w, d.W(), r, sid) && r.id in w.machines && w.machines[r.id] == r
    modifies d`halted, d`faulted, d`files, d`dirs
    ensures d.Inv() && Copying(w, d.W(), r, sid) && d.W().vms == old(d.W()).vms
    ensures status.Done? ==>
              && paths == SnapshotPaths(sid, |r.userVolumeIDs|)
              && DisksCopied(w, d.W().files, r, sid, |r.userVolumeIDs|)
  {
    hide FileStore.Valid, Good, Daemon.W, Copying, SameFilesApart, DisksCopied, SystemVolumePath, UserDriveName;
    paths := [];
    ghost var vms := d.W().vms;
    CopyingParts(w, d.W(), r, sid);
    SystemVolumeIsItsDisk(d.W(), r);
    var found;
    status, found := d.GetVolume(r.systemVolumeID);
    if status.Done? {
      SystemDiskDir(r.id);
      status := CopyDisk(d, w, r, sid, found.value.path, SystemTarget(sid));
      if status.Done? {
        SystemCopied(w, d.W().files, r, sid);
        paths := [SystemTarget(sid)];
      }
    }
    var i := 0;
    while i < |r.userVolumeIDs| && status.Done?
      invariant 0 <= i <= |r.userVolumeIDs| && d.Inv() && Copying(w, d.W(), r, sid) && d.W().vms == vms
      invariant status.Done? ==> paths == SnapshotPaths(sid, i) && DisksCopied(w, d.W().files, r, sid, i)
    {
      status := CopyUserDisk(d, w, r, sid, i);
      paths := paths + [UserTarget(sid, i)];
      i := i + 1;
    }
  }

  lemma SystemDiskDir(id: MachineID)
    ensures SystemVolumePath(id).dir == MachineDir(id)
  {
  }

  lemma SystemCopied(w: World, files: map<DiskPath, Image>, r: MachineRecord, sid: SnapshotID)
    requires SystemVolumePath(r.id) in w.files && SystemTarget(sid) in files
    requires files[SystemTarget(sid)] == w.files[SystemVolumePath(r.id)]
    ensures DisksCopied(w, files, r, sid, 0)
  {
  }

  method CopyUserDisk(d: Daemon, ghost w: World, r: MachineRecord, sid: SnapshotID, i: nat) returns (status: Status)
    requires d.Inv() && Copying(w, d.W(), r, sid) && i < |r.userVolumeIDs| && DisksCopied(w, d.W().files, r, sid, i)
    modifies d`halted, d`faulted, d`files, d`dirs
    ensures d.Inv() && Copying(w, d.W(), r, sid) && d.W().vms == old(d.W()).vms
    ensures status.Done? ==> DisksCopied(w, d.W().files, r, sid, i + 1)
  {
    hide FileStore.Valid, Good, Daemon.W, Copying, SameFilesApart, DisksCopied, SystemVolumePath, UserDriveName;
    ghost var files := d.W().files;
    CopyingParts(w, d.W(), r, sid);
    var found;
    status, found := d.GetVolume(r.userVolumeIDs[i]);
    if status.Done? {
      VolumeOffSnapshots(d.W(), r.userVolumeIDs[i]);
      status := CopyDisk(d, w, r, sid, found.value.path, UserTarget(sid, i));
      if status.Done? {
        CopiedAgain(w, files, d.W().files, r, sid, i);
      }
    }
  }

  // -------------------------------------------------------- pause, resume

  method PauseFor(d: Daemon, ghost w: World, r: MachineRecord, ghost sid: SnapshotID, paused: bool) returns (status: Status)
    requires d.Inv() && Copying(w, d.W(), r, sid)
    modifies d`halted, d`faulted, d`vms
    ensures d.Inv() && Copying(w, d.W(), r, sid)
    ensures d.W() == WithVms(old(d.W()), d.W().vms) && d.W().files == old(d.W()).files
    ensures status.Done? ==> Paused(d.W(), r.pid) == paused
  {
    hide FileStore.Valid, Good, Daemon.W, Copying, WithVms, VmsSnapshotting;
    ghost var v := d.W();
    status := d.SetPaused(ToRuntimeState(r), paused);
    OnlyPaused(v.vms, d.W().vms, r.pid);
    CopyingVms(w, v, d.W(), r, sid);
  }

  lemma OnlyPaused(vms: map<int, Vm>, now: map<int, Vm>, pid: int)
    requires now.Keys == vms.Keys
    requires forall p :: p in now && p != pid ==> now[p] == vms[p]
    requires pid in now ==> now[pid] == vms[pid].(paused := now[pid].paused)
    ensures VmsSnapshotting(vms, now, pid)
  {
  }

  /** The cleanup of a failed snapshot, errors ignored. */
  method DropSnapshotDir(d: Daemon, ghost w: World, ghost r: MachineRecord, sid: SnapshotID) returns (status: Status)
    requires d.Inv() && Copying(w, d.W(), r, sid)
    modifies d`halted, d`faulted, d`files, d`dirs
    ensures d.Inv() && Copying(w, d.W(), r, sid) && d.W().vms == old(d.W()).vms
    ensures status.Done? ==> NoSnapshotDir(d.W(), sid)
  {
    hide FileStore.Valid, Good, Daemon.W, Copying, WithDisks, FilesSnapshotting, SomeRemoved, WithoutDir;
    ghost var v := d.W();
    status := d.RemoveAll(SnapshotDir(sid));
    RemovedSnapshotting(v.files, d.W().files, sid);
    CopyingDisks(w, v, d.W(), r, sid);
    if status.Done? {
      DirIsGone(v.files, d.W(), sid);
    }
  }

  ghost predicate NoSnapshotDir(v: World, sid: SnapshotID) {
    SnapshotDir(sid) !in v.dirs && forall path :: path in v.files ==> path.dir != SnapshotDir(sid)
  }

  lemma RemovedSnapshotting(files: map<DiskPath, Image>, now: map<DiskPath, Image>, sid: SnapshotID)
    requires SomeRemoved(files, now, SnapshotDir(sid))
    ensures FilesSnapshotting(files, now, sid)
  {
  }

  lemma DirIsGone(files: map<DiskPath, Image>, v: World, sid: SnapshotID)
    requires v.files == WithoutDir(files, SnapshotDir(sid)) && SnapshotDir(sid) !in v.dirs
    ensures NoSnapshotDir(v, sid)
  {
  }

  // --------------------------------------------------------------- commit

  lemma PathsAreDrives(sid: SnapshotID, n: nat, artifacts: seq<SnapshotArtifact>)
    requires multiset(artifacts) == ArtifactsOf(SnapshotPaths(sid, n))
    ensures forall k :: 0 <= k < |artifacts| ==> SnapshotDisk(artifacts[k])
  {
    forall k | 0 <= k < |artifacts|
      ensures SnapshotDisk(artifacts[k])
    {
      assert artifacts[k] in multiset(artifacts);
      ArtifactOfSomePath(sid, n, artifacts[k]);
      ArtifactIsDisk(sid, n, artifacts[k]);
    }
  }

  lemma {:induction false} ArtifactOfSomePath(sid: SnapshotID, n: nat, r: SnapshotArtifact)
    requires r in ArtifactsOf(SnapshotPaths(sid, n))
    ensures r == ArtifactFor(SystemTarget(sid)) || exists i: nat :: i < n && r == ArtifactFor(UserTarget(sid, i))
  {
    hide UserDriveName, ArtifactFor, SystemTarget, UserTarget;
    var paths := SnapshotPaths(sid, n);
    if n > 0 {
      assert paths[..|paths| - 1] == SnapshotPaths(sid, n - 1);
      if r != ArtifactFor(UserTarget(sid, n - 1)) {
        ArtifactOfSomePath(sid, n - 1, r);
      }
    } else {
      assert paths[..0] == [];
      assert ArtifactsOf([]) == multiset{};
    }
  }

  lemma ArtifactIsDisk(sid: SnapshotID, n: nat, r: SnapshotArtifact)
    requires r == ArtifactFor(SystemTarget(sid)) || exists i: nat :: i < n && r == ArtifactFor(UserTarget(sid, i))
    ensures SnapshotDisk(r)
  {
    hide UserDriveName, Stem;
  }

  lemma CommitIsSnapshotting(w: World, v: World, r: MachineRecord, s: SnapshotRecord)
    requires Copying(w, v, r, s.id) && !Paused(v, r.pid)
    requires s.machineID == r.id && s.diskPaths == SnapshotPaths(s.id, |r.userVolumeIDs|)
    requires multiset(s.artifacts) == ArtifactsOf(s.diskPaths) && DisksCopied(w, v.files, r, s.id, |r.userVolumeIDs|)
    ensures var u := WithSnapshots(v, v.snapshots[s.id := s]);
            Snapshotting(w, u, r, s.id) && SnapshotComplete(w, u, r, s.id)
  {
    hide ArtifactsOf, SnapshotPaths, FilesSnapshotting, VmsSnapshotting, DisksCopied;
    var u := WithSnapshots(v, v.snapshots[s.id := s]);
    SameFilesCopying(w.files, v.files, u.files, s.id);
    SameVmsCopying(w.vms, v.vms, u.vms, r.pid);
    SameCopies(w, v.files, u.files, r, s.id, |r.userVolumeIDs|);
  }

  lemma SameCopies(w: World, files: map<DiskPath, Image>, now: map<DiskPath, Image>, r: MachineRecord, sid: SnapshotID, n: nat)
    requires DisksCopied(w, files, r, sid, n) && files == now
    ensures DisksCopied(w, now, r, sid, n)
  {
  }

  /** The artifacts and the record; a failure takes the directory along. */
  method StoreSnapshot(d: Daemon, ghost w: World, r: MachineRecord, sid: SnapshotID, paths: seq<DiskPath>)
    returns (status: Status)
    requires d.Inv() && Copying(w, d.W(), r, sid) && !Paused(d.W(), r.pid)
    requires paths == SnapshotPaths(sid, |r.userVolumeIDs|) && DisksCopied(w, d.W().files, r, sid, |r.userVolumeIDs|)
    modifies d, d.store
    ensures d.Inv() && Snapshotting(w, d.W(), r, sid)
    ensures status.Done? ==> SnapshotComplete(w, d.W(), r, sid) && !Paused(d.W(), r.pid)
  {
    hide FileStore.Valid, Good, Daemon.W, Snapshotting, SnapshotComplete, DisksCopied, SnapshotPaths, NoSnapshotDir, Copying,
      ArtifactsOf, SnapshotDisk, WithSnapshots, IDsOrdered;
    status := Fault;
    var hashed := d.Tick();
    if hashed {
      var artifacts := BuildSnapshotArtifacts(paths);
      PathsAreDrives(sid, |r.userVolumeIDs|, artifacts);
      var record := SnapshotRecord(sid, r.id, paths, artifacts);
      CommitIsSnapshotting(w, d.W(), r, record);
      SameVmsWithSnapshots(d.W(), d.W().snapshots[sid := record]);
      status := d.CreateSnapshot(record);
    }
    if !status.Done? {
      var _ := DropSnapshotDir(d, w, r, sid);
      CopyingParts(w, d.W(), r, sid);
    }
  }

  lemma SameVmsWithSnapshots(v: World, snapshots: map<SnapshotID, SnapshotRecord>)
    ensures WithSnapshots(v, snapshots).vms == v.vms
  {
  }

  /** From the pause to the stored record; every failure resumes the VM and
      takes the directory along, as far as that works. */
  method TakeSnapshot(d: Daemon, ghost w: World, r: MachineRecord, sid: SnapshotID) returns (status: Status)
    requires d.Inv() && Copying(w, d.W(), r, sid) && r.id in w.machines && w.machines[r.id] == r
    modifies d, d.store
    ensures d.Inv() && Snapshotting(w, d.W(), r, sid)
    ensures status.Done? ==> SnapshotComplete(w, d.W(), r, sid) && !Paused(d.W(), r.pid)
  {
    hide FileStore.Valid, Good, Daemon.W, Snapshotting, SnapshotComplete, DisksCopied, SnapshotPaths, NoSnapshotDir, Copying;
    status := PauseFor(d, w, r, sid, true);
    CopyingParts(w, d.W(), r, sid);
    if status.Done? {
      var paths, resumed;
      status, paths := CopyDisks(d, w, r, sid);
      resumed := PauseFor(d, w, r, sid, false);
      if status.Done? && resumed.Done? {
        status := StoreSnapshot(d, w, r, sid, paths);
      } else {
        var _ := DropSnapshotDir(d, w, r, sid);
        CopyingParts(w, d.W(), r, sid);
        status := Fault;
      }
    }
  }

  // ------------------------------------------------------------- the call

  function SnapshotOpFor(id: MachineID, sid: SnapshotID): OperationRecord {
    OperationRecord(id, SnapshotOp, Some(sid), 0, 0)
  }

  /** Either nothing happened, or the call got past its journal write; then a
      failure leaves the entry there, and success may have cleared it. */
  ghost predicate SnapshotOutcome(status: Status, w: World, v: World, id: MachineID, sid: SnapshotID) {
    || (v == w && !status.Done?)
    || (&& id in w.machines
        && w.machines[id].phase.Running?
        && sid !in w.snapshots
        && var r, j := w.machines[id], AfterUpsert(w, SnapshotOpFor(id, sid));
        && (if status.Done? then SnapshotTaken(j, v, r, sid) && SnapshotComplete(w, v, r, sid)
            else Snapshotting(j, v, r, sid)))
  }

  ghost predicate SnapshotTaken(j: World, v: World, r: MachineRecord, sid: SnapshotID) {
    exists u :: Snapshotting(j, u, r, sid) && SnapshotComplete(j, u, r, sid) && !Paused(u, r.pid)
                && (v == u || v == AfterClear(u, r.id))
  }

  /** The disks copied are those before the call. */
  lemma CompleteSinceBefore(w: World, op: OperationRecord, u: World, r: MachineRecord, sid: SnapshotID)
    requires SnapshotComplete(AfterUpsert(w, op), u, r, sid)
    ensures SnapshotComplete(w, u, r, sid) && SnapshotComplete(w, AfterClear(u, r.id), r, sid)
  {
    hide SnapshotPaths, ArtifactsOf, Torn, UserDriveName, SystemVolumePath;
    var j, v, n := AfterUpsert(w, op), AfterClear(u, r.id), |r.userVolumeIDs|;
    forall i: nat | i < n ensures UserCopied(w, u.files, r, sid, i) && UserCopied(w, v.files, r, sid, i) {
      assert UserCopied(j, u.files, r, sid, i);
    }
  }

  /** The pending-operation check; a failed listing lets the call go on. */
  method HasPendingOperation(d: Daemon, id: MachineID) returns (pending: bool)
    requires d.Inv()
    modifies d`halted, d`faulted
    ensures d.Inv() && d.W() == old(d.W())
    ensures pending ==> id in d.W().journal
  {
    hide FileStore.Valid, Good, Daemon.W, KeyedRows.Index;
    pending := false;
    var status, records := d.ListOperations();
    if status.Done? {
      KeyedRows.IndexHolds(records, OperationKey);
      var i := 0;
      while i < |records| && !pending
        invariant 0 <= i <= |records|
        invariant pending ==> id in d.W().journal
      {
        assert OperationKey(records[i]) in d.W().journal;
        pending := records[i].machineID == id;
        i := i + 1;
      }
    }
  }

  /** CreateSnapshot. */
  method CreateSnapshot(d: Daemon, id: MachineID, sid: SnapshotID) returns (status: Status)
    requires d.Inv()
    modifies d, d.store
    ensures d.Inv() && SnapshotOutcome(status, old(d.W()), d.W(), id, sid)
  {
    hide FileStore.Valid, Good, Daemon.W, Snapshotting, SnapshotComplete, Copying, TrimSpace;
    status := Conflict;
    if TrimSpace(sid) != "" {
      var found;
      status, found := d.GetMachine(id);
      if status.Done? {
        var pending := HasPendingOperation(d, id);
        var got, existing := d.GetSnapshot(sid);
        if !found.value.phase.Running? || pending || got.Done? {
          status := Conflict;
        } else if got.NotFound? {
          status := SnapshotJournalled(d, found.value, sid);
        } else {
          status := Fault;
        }
      }
    }
  }

  method SnapshotJournalled(d: Daemon, r: MachineRecord, sid: SnapshotID) returns (status: Status)
    requires d.Inv() && r.id in d.W().machines && d.W().machines[r.id] == r && r.phase.Running? && sid !in d.W().snapshots
    modifies d, d.store
    ensures d.Inv() && SnapshotOutcome(status, old(d.W()), d.W(), r.id, sid)
  {
    hide FileStore.Valid, Good, Daemon.W, Snapshotting, SnapshotComplete, Copying, AfterUpsert, AfterClear, WithDisks;
    ghost var w := d.W();
    var op := SnapshotOpFor(r.id, sid);
    status := d.UpsertOperation(op);
    if status.Done? {
      ghost var j := d.W();
      StartCopying(j, r, sid);
      MakingDir(j, j, r, sid);
      status := d.MakeNewDir(SnapshotDir(sid));
      CopyingParts(j, d.W(), r, sid);
      if status.Done? {
        status := TakeSnapshot(d, j, r, sid);
        if status.Done? {
          CompleteSinceBefore(w, op, d.W(), r, sid);
          var _ := d.DeleteOperation(r.id);
        }
      }
    }
  }

  lemma StartCopying(w: World, r: MachineRecord, sid: SnapshotID)
    ensures Copying(w, w, r, sid) && Snapshotting(w, w, r, sid)
  {
    hide SnapshotComplete;
  }

  lemma MakingDir(w: World, v: World, r: MachineRecord, sid: SnapshotID)
    requires Copying(w, v, r, sid)
    ensures Copying(w, WithDisks(v, v.files, v.dirs + {SnapshotDir(sid)}), r, sid)
  {
    hide Copying;
    CopyingDisks(w, v, WithDisks(v, v.files, v.dirs + {SnapshotDir(sid)}), r, sid);
  }

  // -------------------------------------------------------------- recovery

  /** All or nothing: the record with all its files, or neither record nor
      directory; the source VM runs and the journal is clear. `removed` and
      `resumed` tell whether the two steps whose errors are ignored worked. */
  ghost predicate SnapshotRecovered(w: World, u: World, r: MachineRecord, sid: SnapshotID, removed: bool, resumed: bool) {
    r.id !in u.journal && NearlyRecovered(w, u, r, sid, removed, resumed)
  }

  /** reconcileSnapshot, from any state an interrupted snapshot leaves. */
  method ReconcileSnapshot(d: Daemon, ghost w: World, ghost r: MachineRecord, op: OperationRecord)
    returns (status: Status, ghost removed: bool, ghost resumed: bool)
    requires d.Inv() && op.kind.SnapshotOp? && op.machineID == r.id
    requires op.snapshotID.Some? ==> SnapshotInterrupted(w, d.W(), r, op.snapshotID.value)
    modifies d, d.store
    ensures d.Inv() && HandlesOnly(old(d.W()), d.W(), op.machineID)
    ensures status.Done? ==> op.machineID !in d.W().journal
    ensures status.Done? && op.snapshotID.Some? && op.snapshotID.value !in w.snapshots ==>
              SnapshotRecovered(w, d.W(), r, op.snapshotID.value, removed, resumed)
  {
    hide FileStore.Valid, Good, Daemon.W, Snapshotting, SnapshotComplete, Copying, AfterClear, NoSnapshotDir, HandlesOnly;
    removed, resumed := true, true;
    status := Done;
    ghost var v := d.W();
    ApartNothing(v, r.id);
    ApartThenClear(v, v, r.id);
    if op.snapshotID.Some? {
      var sid := op.snapshotID.value;
      var found;
      status, found := d.GetSnapshot(sid);
      if status.NotFound? {
        NotStoredIsCopying(w, v, r, sid);
        removed, resumed := UndoSnapshot(d, w, r, op.machineID, sid);
        CopyingKeepsJournal(w, v, d.W(), r, sid);
        status := Done;
      } else if status.Done? && sid !in w.snapshots {
        StoredIsComplete(w, v, r, sid);
      }
      if status.Done? {
        ghost var u := d.W();
        status := d.DeleteOperation(op.machineID);
        ClearIsJournal(u, r.id);
        ApartThenClear(v, u, r.id);
        if sid !in w.snapshots {
          RecoveredAside(w, u, AfterClear(u, r.id), r, sid, removed, resumed);
        }
      }
    } else {
      status := d.DeleteOperation(op.machineID);
    }
  }

  /** A snapshot of `r` under way since `w`, or one that was stored already. */
  ghost predicate SnapshotInterrupted(w: World, v: World, r: MachineRecord, sid: SnapshotID) {
    && (r.id in w.machines ==> w.machines[r.id] == r)
    && (sid in w.snapshots ==> sid in v.snapshots)
    && (sid !in w.snapshots ==> Snapshotting(w, v, r, sid))
  }

  lemma CopyingKeepsJournal(w: World, v: World, u: World, r: MachineRecord, sid: SnapshotID)
    requires Copying(w, v, r, sid) && Copying(w, u, r, sid)
    ensures HandlesOnly(v, u, r.id)
  {
    hide SnapshotComplete, FilesSnapshotting, VmsSnapshotting;
  }

  /** What the last step, clearing the journal, starts from. */
  ghost predicate NearlyRecovered(w: World, u: World, r: MachineRecord, sid: SnapshotID, removed: bool, resumed: bool) {
    && u.machines == w.machines
    && if sid in u.snapshots then SnapshotComplete(w, u, r, sid) && !Paused(u, r.pid)
       else u.snapshots == w.snapshots && (removed ==> NoSnapshotDir(u, sid)) && (resumed ==> !Paused(u, r.pid))
  }

  lemma NotStoredIsCopying(w: World, v: World, r: MachineRecord, sid: SnapshotID)
    requires Snapshotting(w, v, r, sid) && sid !in v.snapshots
    ensures Copying(w, v, r, sid)
  {
  }

  lemma StoredIsComplete(w: World, v: World, r: MachineRecord, sid: SnapshotID)
    requires Snapshotting(w, v, r, sid) && sid in v.snapshots && sid !in w.snapshots
    ensures NearlyRecovered(w, v, r, sid, true, true)
  {
    hide SnapshotComplete;
  }

  lemma RecoveredAside(w: World, v: World, u: World, r: MachineRecord, sid: SnapshotID, removed: bool, resumed: bool)
    requires NearlyRecovered(w, v, r, sid, removed, resumed) && OnlyJournalOf(v, u, r.id)
    ensures r.id !in u.journal ==> SnapshotRecovered(w, u, r, sid, removed, resumed)
  {
    hide DisksCopied, SnapshotPaths, ArtifactsOf;
    if sid in v.snapshots {
      SameCopies(w, v.files, u.files, r, sid, |r.userVolumeIDs|);
    }
  }

  /** The directory goes and the VM runs again, errors ignored. */
  method UndoSnapshot(d: Daemon, ghost w: World, ghost r: MachineRecord, id: MachineID, sid: SnapshotID)
    returns (ghost removed: bool, ghost resumed: bool)
    requires d.Inv() && Copying(w, d.W(), r, sid) && id == r.id && sid !in w.snapshots
    requires r.id in w.machines ==> w.machines[r.id] == r
    modifies d, d.store
    ensures d.Inv() && Copying(w, d.W(), r, sid) && NearlyRecovered(w, d.W(), r, sid, removed, resumed)
  {
    hide FileStore.Valid, Good, Daemon.W, Copying, SnapshotComplete, NoSnapshotDir;
    resumed := false;
    var gone := DropSnapshotDir(d, w, r, sid);
    removed := gone.Done?;
    CopyingParts(w, d.W(), r, sid);
    var status, found := d.GetMachine(id);
    if status.Done? && found.value.phase.Running? && found.value.pid > 0 {
      ghost var v := d.W();
      status := PauseFor(d, w, found.value, sid, false);
      resumed := status.Done?;
      CopyingParts(w, d.W(), r, sid);
      DirStillGone(v, d.W(), sid);
    }
  }

  lemma DirStillGone(v: World, u: World, sid: SnapshotID)
    requires u == WithVms(v, u.vms)
    ensures NoSnapshotDir(v, sid) ==> NoSnapshotDir(u, sid)
  {
  }

  // ------------------------------------------------------------- deleting

  /** snapshotDirectory: where the snapshot's first artifact or disk lies. */
  function SnapshotHome(s: SnapshotRecord): Option<Dir> {
    if s.artifacts != [] then Some(s.artifacts[0].localPath.dir)
    else if s.diskPaths != [] then Some(s.diskPaths[0].dir)
    else None
  }

  /** That is the directory CreateSnapshot made. */
  lemma HomeOfComplete(w: World, v: World, r: MachineRecord, sid: SnapshotID)
    requires SnapshotComplete(w, v, r, sid)
    ensures SnapshotHome(v.snapshots[sid]) == Some(SnapshotDir(sid))
  {
    hide DisksCopied, ArtifactsOf;
    var s, n := v.snapshots[sid], |r.userVolumeIDs|;
    FirstPath(sid, n);
    if s.artifacts != [] {
      assert s.artifacts[0] in multiset(s.artifacts);
      ArtifactOfSomePath(sid, n, s.artifacts[0]);
    }
  }

  lemma {:induction false} FirstPath(sid: SnapshotID, n: nat)
    ensures SnapshotPaths(sid, n)[0] == SystemTarget(sid)
  {
    if n > 0 {
      FirstPath(sid, n - 1);
    }
  }

  /** The directory goes first, then the record; a failure in between leaves a
      record whose files are gone. */
  ghost predicate SnapshotDeleted(status: Status, w: World, v: World, sid: SnapshotID) {
    || (v == w && !status.Done?)
    || (&& sid in w.snapshots
        && SnapshotHome(w.snapshots[sid]).Some?
        && var dir := SnapshotHome(w.snapshots[sid]).value;
        && v == WithSnapshots(WithDisks(w, v.files, v.dirs), if status.Done? then w.snapshots - {sid} else w.snapshots)
        && SomeRemoved(w.files, v.files, dir)
        && (status.Done? ==> v.files == WithoutDir(w.files, dir) && v.dirs == w.dirs - {dir}))
  }

  /** DeleteSnapshotByID. */
  method DeleteSnapshot(d: Daemon, sid: SnapshotID) returns (status: Status)
    requires d.Inv()
    modifies d`halted, d`faulted, d`files, d`dirs, d.store
    ensures d.Inv() && SnapshotDeleted(status, old(d.W()), d.W(), sid)
  {
    hide FileStore.Valid, Good, Daemon.W, SomeRemoved, WithoutDir;
    var found;
    status, found := d.GetSnapshot(sid);
    if status.Done? {
      var home := SnapshotHome(found.value);
      if home.None? {
        status := Conflict;
      } else {
        status := d.RemoveAll(home.value);
        if status.Done? {
          status := d.DeleteSnapshot(sid);
        }
      }
    }
  }
}
