/** Creating a machine: the steps, their rollbacks, and the recovery of an
    interrupted creation. */
module Creation {
  import opened Wrappers
  import opened Text
  import opened Model
  import opened Store
  import opened Network
  import opened Worlds
  import opened Daemons
  import opened Relays
  import opened Frames
  import opened Startup
  import opened Networking
  import opened Lifecycle
  import opened Resize
  import opened Deletion
  import opened CreationTrace

  const DEFAULT_GUEST_DISK_SIZE_BYTES := 10 * 1024 * 1024 * 1024

  datatype CreateRequest = CreateRequest(
    id: MachineID,
    artifact: string,
    artifactDir: string,
    memoryMiB: int,
    storageBytes: int,
    userVolumeIDs: seq<VolumeID>)

  /** The root file system that ensureArtifact provides. */
  function RootFS(req: CreateRequest): DiskPath {
    DiskPath(Elsewhere(req.artifactDir), "rootfs")
  }

  // ------------------------------------------------------------- the disk

  /** The system disk, if it is there, has the size the record will promise. */
  ghost predicate DiskReady(v: World, id: MachineID, size: int) {
    HasDisk(v, id) ==> DiskSize(v, id) == size
  }

  /** The system disk is there, with the promised size. */
  ghost predicate SystemDiskMade(files: map<DiskPath, Image>, id: MachineID, size: int) {
    SystemVolumePath(id) in files && |files[SystemVolumePath(id)]| == size
  }

  /** Disks that were made are still there. */
  ghost predicate DisksStand(files: map<DiskPath, Image>, now: map<DiskPath, Image>, id: MachineID, size: int) {
    && (SystemDiskMade(files, id, size) ==> SystemDiskMade(now, id, size))
    && (WorkspaceVolumePath(id) in files ==> WorkspaceVolumePath(id) in now)
  }

  /** resolveRequestedStorageBytes. */
  method ResolveStorage(d: Daemon, storageBytes: int, source: DiskPath) returns (status: Status, size: nat)
    requires d.Inv()
    modifies d`halted, d`faulted
    ensures d.Inv() && d.W() == old(d.W())
    ensures status.Done? ==> source in d.W().files && |d.W().files[source]| <= size && size > 0
    ensures size == (if storageBytes <= 0 then DEFAULT_GUEST_DISK_SIZE_BYTES else storageBytes)
  {
    hide FileStore.Valid, Good, Daemon.W;
    var wanted := if storageBytes <= 0 then DEFAULT_GUEST_DISK_SIZE_BYTES else storageBytes;
    status, size := d.FileSize(source);
    if status.Done? && wanted < size {
      status := Conflict;
    }
    size := wanted;
  }

  lemma NoSystemDiskYet(v: World, path: DiskPath, id: MachineID)
    requires id !in v.machines && path.dir == MachineDir(id)
    ensures NotASystemDisk(v, path)
  {
  }

  lemma TruncateKeepsCreating(w: World, v: World, id: MachineID, size: nat)
    requires Creating(w, v, id) && HasDisk(v, id)
    ensures var u := AfterTruncate(v, SystemVolumePath(id), size);
            && Creating(w, u, id) && u.volumes == v.volumes && DiskReady(u, id, size)
            && InsideDir(v.files, u.files, id) && SystemDiskMade(u.files, id, size)
  {
    hide VolumesCreating, ReleasablePath, ResizeImage;
    var u := AfterTruncate(v, SystemVolumePath(id), size);
    assert !MayGrow(v, SystemVolumePath(id), size);
    assert u == WithDisks(v, u.files, u.dirs);
    CreatingDisks(w, v, u, id);
  }

  method MakeMachineDir(d: Daemon, ghost w: World, id: MachineID) returns (status: Status)
    requires d.Inv() && Creating(w, d.W(), id)
    modifies d`halted, d`faulted, d`dirs
    ensures d.Inv() && Creating(w, d.W(), id) && d.W().volumes == old(d.W()).volumes && d.W().files == old(d.W()).files
  {
    hide FileStore.Valid, Good, Daemon.W, Creating, WithDisks, InsideDir;
    ghost var v := d.W();
    SameInside(v.files, id);
    status := d.MakeDirAll(MachineDir(id));
    CreatingDisks(w, v, d.W(), id);
  }

  /** The clone of a root file system into the machine's directory. */
  method CloneRoot(d: Daemon, ghost w: World, id: MachineID, source: DiskPath) returns (status: Status)
    requires d.Inv() && Creating(w, d.W(), id) && source.dir != MachineDir(id)
    modifies d`halted, d`faulted, d`files, d`dirs
    ensures d.Inv() && Creating(w, d.W(), id) && d.W().volumes == old(d.W()).volumes
    ensures status.Done? ==> SystemVolumePath(id) in d.W().files
    ensures InsideDir(old(d.W()).files, d.W().files, id)
  {
    hide FileStore.Valid, Good, Daemon.W, Creating, WithDisks, SameFilesApart, InsideDir, NotASystemDisk;
    var path := SystemVolumePath(id);
    ghost var v := d.W();
    SameMachines(w, v, id);
    NoSystemDiskYet(v, path, id);
    status := d.CloneDisk(source, path);
    ApartInside(v.files, d.W().files, {path, TempPath(path)}, id);
    CreatingDisks(w, v, d.W(), id);
  }

  lemma SameInside(files: map<DiskPath, Image>, id: MachineID)
    ensures InsideDir(files, files, id)
  {
  }

  method GrowAndInject(d: Daemon, ghost w: World, id: MachineID, size: nat, workspaceRoot: bool) returns (status: Status)
    requires d.Inv() && Creating(w, d.W(), id) && SystemVolumePath(id) in d.W().files
    modifies d`halted, d`faulted, d`files, d`log, d`abandoned
    ensures d.Inv() && Creating(w, d.W(), id) && d.W().volumes == old(d.W()).volumes
    ensures status.Done? ==> DiskReady(d.W(), id, size) && SystemDiskMade(d.W().files, id, size)
    ensures InsideDir(old(d.W()).files, d.W().files, id)
  {
    hide FileStore.Valid, Good, Daemon.W, Creating, DiskReady, NotASystemDisk, AfterTruncate, MayGrow, InsideDir,
      SystemDiskMade;
    var path := SystemVolumePath(id);
    ghost var v := d.W();
    SameInside(v.files, id);
    SameMachines(w, v, id);
    NoSystemDiskYet(v, path, id);
    TruncateKeepsCreating(w, v, id, size);
    status := d.Truncate(path, size);
    ghost var files := d.W().files;
    if status.Done? {
      status := Inject(d, w, id, path, size);
      if status.Done? {
        InsideStill(v.files, files, d.W().files, id);
        files := d.W().files;
        status := InjectRest(d, w, id, path, size, workspaceRoot);
      }
      InsideStill(v.files, files, d.W().files, id);
    }
  }

  /** After the identity: the guest configuration, for a new machine the workspace
      root, and the host key. */
  method InjectRest(d: Daemon, ghost w: World, id: MachineID, path: DiskPath, ghost size: int, workspaceRoot: bool)
    returns (status: Status)
    requires d.Inv() && Creating(w, d.W(), id) && path.dir == MachineDir(id) && DiskReady(d.W(), id, size)
    modifies d`halted, d`faulted, d`files
    ensures d.Inv() && Creating(w, d.W(), id) && DiskReady(d.W(), id, size) && d.W().volumes == old(d.W()).volumes
    ensures InsideDir(old(d.W()).files, d.W().files, id) && DisksStand(old(d.W()).files, d.W().files, id, size)
  {
    hide FileStore.Valid, Good, Daemon.W, Creating, DiskReady, InsideDir, SystemDiskMade;
    ghost var before := d.W().files;
    status := Inject(d, w, id, path, size);
    ghost var files := d.W().files;
    if status.Done? && workspaceRoot {
      status := Inject(d, w, id, path, size);
      InsideStill(before, files, d.W().files, id);
      files := d.W().files;
    }
    if status.Done? {
      status := Inject(d, w, id, path, size);
      InsideStill(before, files, d.W().files, id);
    }
  }

  /** One of injectMachineIdentity, injectGuestConfig, ensureOfflineWorkspaceRoot
      and injectGuestSSHHostKey: the size of the image does not change. */
  method Inject(d: Daemon, ghost w: World, id: MachineID, path: DiskPath, ghost size: int) returns (status: Status)
    requires d.Inv() && Creating(w, d.W(), id) && path.dir == MachineDir(id) && DiskReady(d.W(), id, size)
    modifies d`halted, d`faulted, d`files
    ensures d.Inv() && Creating(w, d.W(), id) && DiskReady(d.W(), id, size) && d.W().volumes == old(d.W()).volumes
    ensures InsideDir(old(d.W()).files, d.W().files, id) && DisksStand(old(d.W()).files, d.W().files, id, size)
  {
    hide FileStore.Valid, Good, Daemon.W, Creating, DiskReady, SameFilesApart, InsideDir, WithDisks, DisksStand;
    ghost var v := d.W();
    status := d.InjectInto(path);
    ApartInside(v.files, d.W().files, {path}, id);
    CreatingDisks(w, v, d.W(), id);
    SizeKept(v, d.W(), id, path, size);
  }

  lemma SizeKept(v: World, u: World, id: MachineID, path: DiskPath, size: int)
    requires DiskReady(v, id, size) && SameFilesApart(v.files, u.files, {path})
    requires path in u.files <==> path in v.files
    requires path in u.files ==> |u.files[path]| == |v.files[path]|
    ensures DiskReady(u, id, size) && DisksStand(v.files, u.files, id, size)
  {
  }

  /** createWorkspaceVolume. */
  method CreateWorkspace(d: Daemon, ghost w: World, id: MachineID, size: int) returns (status: Status)
    requires d.Inv() && Creating(w, d.W(), id) && DiskReady(d.W(), id, size)
    modifies d`halted, d`faulted, d`files, d`dirs
    ensures d.Inv() && Creating(w, d.W(), id) && DiskReady(d.W(), id, size) && d.W().volumes == old(d.W()).volumes
    ensures status.Done? ==> DisksStand(old(d.W()).files, d.W().files, id, size) && WorkspaceVolumePath(id) in d.W().files
  {
    hide FileStore.Valid, Good, Daemon.W, Creating, DiskReady, SameFilesApart, InsideDir, WithDisks, NotASystemDisk,
      SystemDiskMade, WorkspaceVolumePath;
    var path := WorkspaceVolumePath(id);
    WorkspaceDir(id);
    ghost var v := d.W();
    SameMachines(w, v, id);
    NoSystemDiskYet(v, path, id);
    status := d.CreateVolumeImage(path, size);
    ApartInside(v.files, d.W().files, {path}, id);
    CreatingDisks(w, v, d.W(), id);
    OtherSizeKept(v, d.W(), id, size);
    if status.Done? {
      status := Inject(d, w, id, path, size);
      if !status.Done? {
        RemoveOwnFile(d, w, id, path, size);
      }
    }
  }

  lemma WorkspaceDir(id: MachineID)
    ensures WorkspaceVolumePath(id).dir == MachineDir(id)
  {
  }

  lemma OtherSizeKept(v: World, u: World, id: MachineID, size: int)
    requires DiskReady(v, id, size) && SameFilesApart(v.files, u.files, {WorkspaceVolumePath(id)})
    ensures DiskReady(u, id, size)
    ensures WorkspaceVolumePath(id) in u.files ==> DisksStand(v.files, u.files, id, size)
  {
    assert "system.img"[0] != "workspace.img"[0];
    assert SystemVolumePath(id) != WorkspaceVolumePath(id);
  }

  /** A best-effort removal of a file of the machine. */
  method RemoveOwnFile(d: Daemon, ghost w: World, id: MachineID, path: DiskPath, ghost size: int)
    requires d.Inv() && Creating(w, d.W(), id) && path.dir == MachineDir(id) && DiskReady(d.W(), id, size)
    modifies d`halted, d`faulted, d`files
    ensures d.Inv() && Creating(w, d.W(), id) && DiskReady(d.W(), id, size) && d.W().volumes == old(d.W()).volumes
  {
    hide FileStore.Valid, Good, Daemon.W, Creating, WithDisks, InsideDir;
    ghost var v := d.W();
    SameInside(v.files, id);
    RemovedFileInside(v.files, path, id);
    var _ := d.RemoveFile(path);
    CreatingDisks(w, v, d.W(), id);
  }

  lemma RemovedFileInside(files: map<DiskPath, Image>, path: DiskPath, id: MachineID)
    requires path.dir == MachineDir(id)
    ensures InsideDir(files, files - {path}, id)
  {
  }

  // -------------------------------------------------------------- booting

  /** The network list and the boot of a machine that has no record yet. */
  method BootNew(d: Daemon, ghost w: World, id: MachineID, nonce: string, ghost size: int)
    returns (status: Status, state: MachineState, ghost networks: seq<Allocation>)
    requires d.Inv() && Creating(w, d.W(), id) && DiskReady(d.W(), id, size)
    modifies d`halted, d`faulted, d`vms
    ensures d.Inv() && Creating(w, d.W(), id) && DiskReady(d.W(), id, size) && d.W().volumes == old(d.W()).volumes
    ensures d.W().files == old(d.W()).files
    ensures status.Done? ==> CoversNetworks(d.W(), id, networks) && BootedOn(d.W().base, networks, state)
  {
    hide FileStore.Valid, Good, Daemon.W, Creating, DiskReady, WithVms, CoversNetworks, BootedOn;
    ghost var v := d.W();
    state := MachineState(VmStopped, 0, "", "", "", None, "");
    var used;
    status, used := ListRunningNetworks(d, id);
    networks := used;
    if status.Done? {
      status, state := d.Boot(id, nonce, used);
      CreatingStep(w, v, d.W(), id);
      BootAside(v, d.W(), id, size, used);
    }
  }

  lemma BootAside(v: World, u: World, id: MachineID, size: int, networks: seq<Allocation>)
    requires u == WithVms(v, u.vms) && DiskReady(v, id, size)
    ensures DiskReady(u, id, size) && u.base == v.base
    ensures CoversNetworks(v, id, networks) ==> CoversNetworks(u, id, networks)
  {
    hide NetworkListed;
  }

  // -------------------------------------------------------- volume records

  function SystemVolumeRecord(id: MachineID): VolumeRecord {
    VolumeRecord(SystemVolumeID(id), SystemVolume, Some(id), SystemVolumePath(id), false, false)
  }

  function WorkspaceVolumeRecord(id: MachineID): VolumeRecord {
    VolumeRecord(WorkspaceVolumeID(id), UserVolume, Some(id), WorkspaceVolumePath(id), true, true)
  }

  /** The external volumes of the request, as they were read from the store. */
  ghost predicate ExternalVolumes(w: World, volumes: seq<VolumeRecord>, id: MachineID) {
    forall k :: 0 <= k < |volumes| ==>
      volumes[k].id in w.volumes && w.volumes[volumes[k].id] == volumes[k] && Attachable(volumes[k], id)
  }

  /** The new volume ids were free when the creation began. */
  predicate FreshIDs(w: World, id: MachineID) {
    SystemVolumeID(id) !in w.volumes && WorkspaceVolumeID(id) !in w.volumes
  }

  /** What the steps between the boot and the record commit keep. */
  ghost predicate Recording(w: World, v: World, id: MachineID, size: int, networks: seq<Allocation>) {
    Creating(w, v, id) && DiskReady(v, id, size) && CoversNetworks(v, id, networks)
  }

  lemma RecordingVolumes(w: World, v: World, u: World, id: MachineID, size: int, networks: seq<Allocation>)
    requires Recording(w, v, id, size, networks) && Creating(w, u, id) && u == WithVolumes(v, u.volumes)
    ensures Recording(w, u, id, size, networks)
  {
    hide Creating, NetworkListed, SystemVolumePath;
  }

  /** The system and workspace volume records, or neither of them. */
  method RecordOwnVolumes(d: Daemon, ghost w: World, id: MachineID, state: MachineState, ghost size: int,
                          ghost networks: seq<Allocation>)
    returns (status: Status)
    requires d.Inv() && Recording(w, d.W(), id, size, networks) && d.W().volumes == w.volumes
    modifies d`halted, d`faulted, d`vms, d`files, d.store
    ensures d.Inv() && Creating(w, d.W(), id)
    ensures status.Done? ==>
              && Recording(w, d.W(), id, size, networks)
              && FreshIDs(w, id)
              && SystemRecorded(d.W(), id)
              && AllAttached(d.W(), [WorkspaceVolumeID(id)], id)
              && d.W().files == old(d.W()).files
  {
    hide FileStore.Valid, Good, Daemon.W, Creating, Recording, DiskReady, CoversNetworks, WithVolumes, SystemVolumeID,
      WorkspaceVolumeID, MayPlaceVolume, SystemRecorded, AllAttached;
    ghost var v := d.W();
    RecordingParts(w, v, id, size, networks);
    SystemRecordPlaced(w, v, id);
    status := d.CreateVolume(SystemVolumeRecord(id));
    if status.Done? {
      RecordingVolumes(w, v, d.W(), id, size, networks);
      v := d.W();
      RecordingParts(w, v, id, size, networks);
      WorkspaceRecordPlaced(w, v, id);
      status := d.CreateVolume(WorkspaceVolumeRecord(id));
      if status.Done? {
        WorkspaceWasFree(w, v, id);
        WorkspaceRecordCreating(w, v, id);
        RecordingVolumes(w, v, d.W(), id, size, networks);
      } else {
        RemoveOwnFile(d, w, id, WorkspaceVolumePath(id), size);
        DropSystemRecord(d, w, id);
        TakeDown(d, w, id, state);
      }
    } else {
      TakeDown(d, w, id, state);
    }
  }

  lemma RecordingParts(w: World, v: World, id: MachineID, size: int, networks: seq<Allocation>)
    requires Recording(w, v, id, size, networks)
    ensures Creating(w, v, id) && DiskReady(v, id, size) && CoversNetworks(v, id, networks)
    ensures id !in v.machines && v.machines == w.machines && v.base == w.base
  {
  }

  ghost predicate SystemRecorded(v: World, id: MachineID) {
    SystemVolumeID(id) in v.volumes && IsSystemDisk(v.volumes[SystemVolumeID(id)], id)
  }

  lemma SystemRecordPlaced(w: World, v: World, id: MachineID)
    requires Creating(w, v, id)
    ensures MayPlaceVolume(v, SystemVolumeRecord(id))
    ensures var u := WithVolumes(v, v.volumes[SystemVolumeRecord(id).id := SystemVolumeRecord(id)]);
            Creating(w, u, id) && SystemRecorded(u, id) && u.volumes == v.volumes[SystemVolumeRecord(id).id := SystemVolumeRecord(id)]
  {
    hide VolumesCreating, FilesCreating, SystemVolumeID;
    OwnVolumeMayBePlaced(v, SystemVolumeRecord(id), id);
    CreatingSystemVolume(w, v, SystemVolumeRecord(id), id);
  }

  lemma WorkspaceRecordPlaced(w: World, v: World, id: MachineID)
    requires Creating(w, v, id)
    ensures MayPlaceVolume(v, WorkspaceVolumeRecord(id))
  {
    OwnVolumeMayBePlaced(v, WorkspaceVolumeRecord(id), id);
  }

  /** The store takes the workspace record only under a free id, and so far
      only the system record was added. */
  lemma WorkspaceWasFree(w: World, v: World, id: MachineID)
    requires v.volumes == w.volumes[SystemVolumeID(id) := SystemVolumeRecord(id)]
    ensures WorkspaceVolumeID(id) !in v.volumes ==> WorkspaceVolumeID(id) !in w.volumes
  {
    SystemIsNotWorkspace(id, id);
  }

  lemma WorkspaceRecordCreating(w: World, v: World, id: MachineID)
    requires Creating(w, v, id) && WorkspaceVolumeID(id) !in w.volumes
    ensures var u := WithVolumes(v, v.volumes[WorkspaceVolumeRecord(id).id := WorkspaceVolumeRecord(id)]);
            Creating(w, u, id) && (SystemRecorded(v, id) ==> SystemRecorded(u, id))
            && AllAttached(u, [WorkspaceVolumeID(id)], id)
  {
    hide Creating;
    SystemIsNotWorkspace(id, id);
    CreatingWorkspace(w, v, WorkspaceVolumeRecord(id), id);
  }

  /** Best-effort steps of the rollbacks. */
  method DropSystemRecord(d: Daemon, ghost w: World, id: MachineID)
    requires d.Inv() && Creating(w, d.W(), id)
    modifies d`halted, d`faulted, d.store
    ensures d.Inv() && Creating(w, d.W(), id)
  {
    hide FileStore.Valid, Good, Daemon.W, Creating, WithVolumes, SystemVolumeID;
    ghost var v := d.W();
    SystemRecordDropped(w, v, id);
    var _ := d.DeleteVolume(SystemVolumeID(id));
  }

  lemma SystemRecordDropped(w: World, v: World, id: MachineID)
    requires Creating(w, v, id)
    ensures Creating(w, WithVolumes(v, v.volumes - {SystemVolumeID(id)}), id)
  {
    hide Creating, SystemVolumeID;
    CreatingSystemVolume(w, v, SystemVolumeRecord(id), id);
  }

  method TakeDown(d: Daemon, ghost w: World, id: MachineID, state: MachineState)
    requires d.Inv() && Creating(w, d.W(), id)
    modifies d`halted, d`faulted, d`vms
    ensures d.Inv() && Creating(w, d.W(), id)
  {
    hide FileStore.Valid, Good, Daemon.W, Creating, WithVms;
    ghost var v := d.W();
    var _ := d.DeleteVm(state);
    CreatingStep(w, v, d.W(), id);
  }

  // ----------------------------------------------------- external volumes

  /** Every listed volume is recorded and belongs to the machine. */
  ghost predicate AllAttached(v: World, ids: seq<VolumeID>, id: MachineID) {
    forall k :: 0 <= k < |ids| ==> ids[k] in v.volumes && AttachedTo(v.volumes[ids[k]], id)
  }

  lemma OneMoreAttached(v: World, ids: seq<VolumeID>, volume: VolumeRecord, id: MachineID)
    requires AllAttached(v, ids, id) && AttachedTo(volume, id)
    ensures AllAttached(WithVolumes(v, v.volumes[volume.id := volume]), ids + [volume.id], id)
  {
    hide AttachedTo;
    var u := WithVolumes(v, v.volumes[volume.id := volume]);
    forall k | 0 <= k < |ids| + 1
      ensures (ids + [volume.id])[k] in u.volumes && AttachedTo(u.volumes[(ids + [volume.id])[k]], id)
    {
      if k < |ids| {
        assert ids[k] in v.volumes && AttachedTo(v.volumes[ids[k]], id);
      }
    }
  }

  lemma SameVolumesAttached(v: World, u: World, ids: seq<VolumeID>, id: MachineID)
    requires u.volumes == v.volumes
    ensures AllAttached(v, ids, id) ==> AllAttached(u, ids, id)
    ensures SystemRecorded(v, id) ==> SystemRecorded(u, id)
  {
  }

  /** The ids a machine record lists: its workspace, then the request's. */
  ghost predicate IDsOf(ids: seq<VolumeID>, id: MachineID, volumes: seq<VolumeRecord>, n: nat) {
    && |ids| == n + 1
    && n <= |volumes|
    && ids[0] == WorkspaceVolumeID(id)
    && forall k :: 0 <= k < n ==> ids[k + 1] == volumes[k].id
  }

  ghost predicate Attached(w: World, ids: seq<VolumeID>, id: MachineID) {
    forall k :: 0 <= k < |ids| ==>
      ids[k] == WorkspaceVolumeID(id) || (ids[k] in w.volumes && Attachable(w.volumes[ids[k]], id))
  }

  /** The loop over the external volumes; a failed write detaches what was
      attached so far and removes what was made for this machine. */
  method AttachVolumes(d: Daemon, ghost w: World, id: MachineID, volumes: seq<VolumeRecord>, state: MachineState,
                       ghost size: int, ghost networks: seq<Allocation>)
    returns (status: Status, ids: seq<VolumeID>)
    requires d.Inv() && Good(w) && Recording(w, d.W(), id, size, networks) && FreshIDs(w, id)
    requires ExternalVolumes(w, volumes, id) && SystemRecorded(d.W(), id)
    requires AllAttached(d.W(), [WorkspaceVolumeID(id)], id)
    modifies d`halted, d`faulted, d`vms, d`files, d.store
    ensures d.Inv() && Creating(w, d.W(), id)
    ensures status.Done? ==>
              && Recording(w, d.W(), id, size, networks)
              && SystemRecorded(d.W(), id)
              && AllAttached(d.W(), ids, id)
              && IDsOf(ids, id, volumes, |volumes|)
              && d.W().files == old(d.W()).files
  {
    hide FileStore.Valid, Good, Daemon.W, Creating, Recording, DiskReady, CoversNetworks, WithVolumes, MayPlaceVolume,
      SystemRecorded, ExternalVolumes, Attached, SystemVolumeID, WorkspaceVolumeID, AllAttached, IDsOf;
    ghost var files := d.W().files;
    ids := [WorkspaceVolumeID(id)];
    FirstID(id, volumes);
    status := Done;
    RecordingParts(w, d.W(), id, size, networks);
    OnlyWorkspaceAttached(w, id);
    var i := 0;
    while i < |volumes| && status.Done?
      invariant 0 <= i <= |volumes| && d.Inv() && Attached(w, ids, id) && Creating(w, d.W(), id)
      invariant status.Done? ==> Recording(w, d.W(), id, size, networks) && SystemRecorded(d.W(), id)
      invariant status.Done? ==> AllAttached(d.W(), ids, id) && IDsOf(ids, id, volumes, i) && d.W().files == files
    {
      ghost var v := d.W();
      var volume := volumes[i].(attachedTo := Some(id));
      RecordingParts(w, v, id, size, networks);
      AttachingOne(w, v, volumes, i, id);
      status := d.UpdateVolume(volume);
      if status.Done? {
        RecordingVolumes(w, v, d.W(), id, size, networks);
        AttachedOneMore(w, ids, volumes, i, id);
        OneMoreAttached(v, ids, volume, id);
        NextID(ids, id, volumes, i);
        ids := ids + [volume.id];
      }
      i := i + 1;
    }
    if !status.Done? {
      ReleaseVolumes(d, w, id, ids);
      DropSystemRecord(d, w, id);
      TakeDown(d, w, id, state);
    }
  }

  lemma FirstID(id: MachineID, volumes: seq<VolumeRecord>)
    ensures IDsOf([WorkspaceVolumeID(id)], id, volumes, 0)
  {
  }

  lemma NextID(ids: seq<VolumeID>, id: MachineID, volumes: seq<VolumeRecord>, i: nat)
    requires IDsOf(ids, id, volumes, i) && i < |volumes|
    ensures IDsOf(ids + [volumes[i].id], id, volumes, i + 1)
  {
  }

  lemma OnlyWorkspaceAttached(w: World, id: MachineID)
    ensures Attached(w, [WorkspaceVolumeID(id)], id)
  {
  }

  lemma AttachedOneMore(w: World, ids: seq<VolumeID>, volumes: seq<VolumeRecord>, i: nat, id: MachineID)
    requires Attached(w, ids, id) && i < |volumes| && ExternalVolumes(w, volumes, id)
    ensures Attached(w, ids + [volumes[i].id], id)
  {
    hide Attachable, WorkspaceVolumeID;
  }

  lemma AttachingOne(w: World, v: World, volumes: seq<VolumeRecord>, i: nat, id: MachineID)
    requires Good(w) && Creating(w, v, id) && FreshIDs(w, id) && i < |volumes| && ExternalVolumes(w, volumes, id)
    ensures var volume := volumes[i].(attachedTo := Some(id));
            && MayPlaceVolume(v, volume)
            && Creating(w, WithVolumes(v, v.volumes[volume.id := volume]), id)
            && (SystemRecorded(v, id) ==> SystemRecorded(WithVolumes(v, v.volumes[volume.id := volume]), id))
  {
    hide Good, Creating, SystemVolumeID, WorkspaceVolumeID;
    var volume := volumes[i].(attachedTo := Some(id));
    AttachmentMayBePlaced(w, v, volumes[i], volume, id);
    CreatingAttachment(w, v, volume, id);
  }

  /** The rollback loop of the attachments, errors ignored. */
  method ReleaseVolumes(d: Daemon, ghost w: World, id: MachineID, ids: seq<VolumeID>)
    requires d.Inv() && Good(w) && Creating(w, d.W(), id) && FreshIDs(w, id) && Attached(w, ids, id)
    modifies d`halted, d`faulted, d`files, d.store
    ensures d.Inv() && Creating(w, d.W(), id)
  {
    hide FileStore.Valid, Good, Daemon.W, Creating, Attached, SystemVolumeID, WorkspaceVolumeID;
    var i := 0;
    while i < |ids|
      invariant 0 <= i <= |ids| && d.Inv() && Creating(w, d.W(), id)
    {
      AttachedMember(w, ids, i, id);
      ReleaseVolume(d, w, id, ids[i]);
      i := i + 1;
    }
  }

  lemma AttachedMember(w: World, ids: seq<VolumeID>, i: nat, id: MachineID)
    requires Attached(w, ids, id) && i < |ids|
    ensures ids[i] == WorkspaceVolumeID(id) || (ids[i] in w.volumes && Attachable(w.volumes[ids[i]], id))
  {
  }

  method ReleaseVolume(d: Daemon, ghost w: World, id: MachineID, x: VolumeID)
    requires d.Inv() && Good(w) && Creating(w, d.W(), id) && FreshIDs(w, id)
    requires x == WorkspaceVolumeID(id) || (x in w.volumes && Attachable(w.volumes[x], id))
    modifies d`halted, d`faulted, d`files, d.store
    ensures d.Inv() && Creating(w, d.W(), id)
  {
    hide FileStore.Valid, Good, Daemon.W, Creating, WithVolumes, WithDisks, MayPlaceVolume, SystemVolumeID, WorkspaceVolumeID,
      WorkspaceVolumePath;
    ghost var v := d.W();
    var status, found := d.GetVolume(x);
    if status.Done? {
      var volume := found.value;
      ReleasedRecord(w, v, volume, id);
      if volume.deleteOnMachineDelete {
        ReleasedFile(w, v, volume, id);
        status := d.RemoveFile(volume.path);
        v := d.W();
        ReleasedDrop(w, v, volume, id);
        status := d.DeleteVolume(x);
      } else {
        ReleasedDetach(w, v, volume, id);
        status := d.UpdateVolume(volume.(attachedTo := None));
      }
    }
  }

  /** A volume of the rollback is the new workspace or one the machine could take. */
  lemma ReleasedRecord(w: World, v: World, volume: VolumeRecord, id: MachineID)
    requires Creating(w, v, id) && FreshIDs(w, id) && volume.id in v.volumes && v.volumes[volume.id] == volume
    requires volume.id == WorkspaceVolumeID(id) || (volume.id in w.volumes && Attachable(w.volumes[volume.id], id))
    ensures volume.id != SystemVolumeID(id)
    ensures if volume.id in w.volumes then Evolved(w.volumes[volume.id], volume, id) && Attachable(w.volumes[volume.id], id)
            else NewWorkspace(volume.id, volume, id)
  {
    hide SystemVolumeID, WorkspaceVolumeID, FilesCreating;
    SystemIsNotWorkspace(id, id);
  }

  lemma ReleasedFile(w: World, v: World, volume: VolumeRecord, id: MachineID)
    requires Creating(w, v, id) && volume.deleteOnMachineDelete
    requires if volume.id in w.volumes then Evolved(w.volumes[volume.id], volume, id) && Attachable(w.volumes[volume.id], id)
             else NewWorkspace(volume.id, volume, id)
    ensures Creating(w, WithDisks(v, v.files - {volume.path}, v.dirs), id)
  {
    hide Creating, SystemVolumeID, WorkspaceVolumeID;
    if volume.id in w.volumes {
      assert Releasable(w.volumes, volume.id, id) && w.volumes[volume.id].path == volume.path;
      CreatingReleasedFile(w, v, volume.path, id);
    } else {
      RemovedFileInside(v.files, volume.path, id);
      CreatingDisks(w, v, WithDisks(v, v.files - {volume.path}, v.dirs), id);
    }
  }

  lemma ReleasedDrop(w: World, v: World, volume: VolumeRecord, id: MachineID)
    requires Creating(w, v, id) && volume.deleteOnMachineDelete
    requires if volume.id in w.volumes then Evolved(w.volumes[volume.id], volume, id) && Attachable(w.volumes[volume.id], id)
             else NewWorkspace(volume.id, volume, id)
    ensures Creating(w, WithVolumes(v, v.volumes - {volume.id}), id)
  {
    hide Creating, SystemVolumeID, WorkspaceVolumeID;
    CreatingRelease(w, v, volume.id, id);
  }

  lemma ReleasedDetach(w: World, v: World, volume: VolumeRecord, id: MachineID)
    requires Good(w) && Creating(w, v, id) && !volume.deleteOnMachineDelete && volume.id != SystemVolumeID(id)
    requires if volume.id in w.volumes then Evolved(w.volumes[volume.id], volume, id) && Attachable(w.volumes[volume.id], id)
             else NewWorkspace(volume.id, volume, id)
    ensures MayPlaceVolume(v, volume.(attachedTo := None))
    ensures Creating(w, WithVolumes(v, v.volumes[volume.id := volume.(attachedTo := None)]), id)
  {
    hide Good, Creating, SystemVolumeID, WorkspaceVolumeID;
    AttachmentMayBePlaced(w, v, w.volumes[volume.id], volume.(attachedTo := None), id);
    CreatingAttachment(w, v, volume.(attachedTo := None), id);
  }
  // ---------------------------------------------------------------- commit

  function NewRecord(id: MachineID, artifact: string, memoryMiB: int, size: int, ids: seq<VolumeID>, state: MachineState,
                     nonce: string, key: string): MachineRecord {
    MachineRecord(id, artifact, memoryMiB, size, SystemVolumeID(id), ids, state.runtimeHost, state.tapName,
                  DefaultMachinePorts(), TrimSpace(key), nonce, Starting, "", state.pid, state.socketPath, state.startedAt)
  }

  lemma CreatingIsAllowed(v: World, r: MachineRecord, networks: seq<Allocation>, state: MachineState)
    requires Good(v) && r.id !in v.machines && DiskReady(v, r.id, r.storageBytes) && SystemRecorded(v, r.id)
    requires CoversNetworks(v, r.id, networks) && BootedOn(v.base, networks, state)
    requires r.memoryMiB > 0 && r.storageBytes > 0 && r.readyNonce != "" && Trimmed(r.readyNonce)
    requires FreshNonce(v.log, r.readyNonce)
    requires r == NewRecord(r.id, r.artifact, r.memoryMiB, r.storageBytes, r.userVolumeIDs, state, r.readyNonce, r.guestKey)
    ensures MayCreate(v, r) && StateMatches(r, state) && r.phase.Starting?
  {
    hide Good, HostPort, FitsNetworks, Networked, SystemVolumeID, RelayPortInRange, TrimSpace, BuildMachinePorts,
      CoversNetworks, NetworkForIndex, RelayPortsInRange, DefaultMachinePorts, SystemVolumePath, FreshNonce;
    DefaultPortsInRange();
    BootedBesideOthers(v, networks, state, r);
    TrimSpaceTrims(r.guestKey);
  }

  lemma TrimmedKey(id: MachineID, artifact: string, memoryMiB: int, size: int, ids: seq<VolumeID>, state: MachineState,
                   nonce: string, key: string)
    ensures var r := NewRecord(id, artifact, memoryMiB, size, ids, state, nonce, key);
            r == NewRecord(id, artifact, memoryMiB, size, ids, state, nonce, r.guestKey)
  {
    TrimSpaceTrims(key);
  }

  /** The record write that commits the creation, with its rollback. */
  method CommitRecord(d: Daemon, ghost w: World, r: MachineRecord, volumes: seq<VolumeRecord>, state: MachineState)
    returns (status: Status)
    requires d.Inv() && Good(w) && Creating(w, d.W(), r.id) && FreshIDs(w, r.id) && ExternalVolumes(w, volumes, r.id)
    requires MayCreate(d.W(), r)
    modifies d`halted, d`faulted, d`vms, d`files, d`log, d`abandoned, d.store
    ensures d.Inv()
    ensures if status.Done? then r.id in d.W().machines && d.W().machines == w.machines[r.id := r] && w.log <= d.W().log
            else Creating(w, d.W(), r.id)
    ensures status.Done? ==> CreatingApart(w, d.W(), r.id)
    ensures status.Done? ==> d.W().volumes == old(d.W()).volumes && d.W().files == old(d.W()).files
    ensures d.W().journal == w.journal
  {
    hide FileStore.Valid, Good, Daemon.W, Creating, CreatingApart, SameApart, AfterCreate, ExternalVolumes, MayCreate, SystemVolumeID, WorkspaceVolumeID,
      WorkspaceVolumePath, DiskReady;
    SameMachines(w, d.W(), r.id);
    CreatedIsLogged(w, d.W(), r);
    ApartOfCreating(w, d.W(), r.id);
    CommitApart(d.W(), r);
    ApartAfter(w, d.W(), AfterCreate(d.W(), r), r.id);
    status := d.CreateMachine(r);
    if !status.Done? {
      DetachExternals(d, w, r.id, volumes);
      AnySize(d.W(), r.id);
      RemoveOwnFile(d, w, r.id, WorkspaceVolumePath(r.id), if HasDisk(d.W(), r.id) then DiskSize(d.W(), r.id) else 0);
      DropWorkspaceRecord(d, w, r.id);
      DropSystemRecord(d, w, r.id);
      TakeDown(d, w, r.id, state);
      SameMachines(w, d.W(), r.id);
    }
  }

  lemma CreatedIsLogged(w: World, v: World, r: MachineRecord)
    ensures w.log <= v.log ==> w.log <= AfterCreate(v, r).log
    ensures AfterCreate(v, r).volumes == v.volumes && AfterCreate(v, r).files == v.files
    ensures Creating(w, v, r.id) ==> w.log <= v.log
  {
  }

  lemma AnySize(v: World, id: MachineID)
    ensures DiskReady(v, id, if HasDisk(v, id) then DiskSize(v, id) else 0) && WorkspaceVolumePath(id).dir == MachineDir(id)
  {
  }

  method DetachExternals(d: Daemon, ghost w: World, id: MachineID, volumes: seq<VolumeRecord>)
    requires d.Inv() && Good(w) && Creating(w, d.W(), id) && FreshIDs(w, id) && ExternalVolumes(w, volumes, id)
    modifies d`halted, d`faulted, d.store
    ensures d.Inv() && Creating(w, d.W(), id)
  {
    hide FileStore.Valid, Good, Daemon.W, Creating, ExternalVolumes, WithVolumes, MayPlaceVolume, SystemVolumeID,
      WorkspaceVolumeID;
    var i := 0;
    while i < |volumes|
      invariant 0 <= i <= |volumes| && d.Inv() && Creating(w, d.W(), id)
    {
      DetachingExternal(w, d.W(), volumes, i, id);
      var _ := d.UpdateVolume(volumes[i].(attachedTo := None));
      i := i + 1;
    }
  }

  lemma DetachingExternal(w: World, v: World, volumes: seq<VolumeRecord>, i: nat, id: MachineID)
    requires Good(w) && Creating(w, v, id) && FreshIDs(w, id) && i < |volumes| && ExternalVolumes(w, volumes, id)
    ensures var volume := volumes[i].(attachedTo := None);
            MayPlaceVolume(v, volume) && Creating(w, WithVolumes(v, v.volumes[volume.id := volume]), id)
  {
    hide Good, Creating, SystemVolumeID, WorkspaceVolumeID;
    AttachmentMayBePlaced(w, v, volumes[i], volumes[i].(attachedTo := None), id);
    CreatingAttachment(w, v, volumes[i].(attachedTo := None), id);
  }

  method DropWorkspaceRecord(d: Daemon, ghost w: World, id: MachineID)
    requires d.Inv() && Creating(w, d.W(), id) && FreshIDs(w, id)
    modifies d`halted, d`faulted, d.store
    ensures d.Inv() && Creating(w, d.W(), id)
  {
    hide FileStore.Valid, Good, Daemon.W, Creating, WithVolumes, SystemVolumeID, WorkspaceVolumeID;
    WorkspaceRecordDropped(w, d.W(), id);
    var _ := d.DeleteVolume(WorkspaceVolumeID(id));
  }

  lemma WorkspaceRecordDropped(w: World, v: World, id: MachineID)
    requires Creating(w, v, id) && FreshIDs(w, id)
    ensures Creating(w, WithVolumes(v, v.volumes - {WorkspaceVolumeID(id)}), id)
  {
    hide Creating, SystemVolumeID, WorkspaceVolumeID;
    CreatingRelease(w, v, WorkspaceVolumeID(id), id);
  }

  // ------------------------------------------------------------- the call

  /** What the deferred removal of the machine's directory did. */
  datatype Cleanup = NotNeeded | Worked | NoEffect | HalfDone

  /** From the journal write of `j` on. Before the commit the store is as it was
      but for what recovery undoes; after it, no other machine's record has
      changed, and the machine is Running or Failed once the call succeeds. An
      error after the commit leaves a live machine, whose disk is gone if the
      deferred cleanup worked and there if the cleanup failed. */
  ghost predicate CreateProgress(status: Status, j: World, v: World, req: CreateRequest, cleanup: Cleanup) {
    var id := req.id;
    if id !in v.machines then !status.Done? && Creating(j, v, id)
    else
      && OtherRecordsKept(j, v, id)
      && CreatingApart(j, v, id)
      && CreatedAs(req, v.machines[id])
      && SystemRecorded(v, id)
      && AllAttached(v, v.machines[id].userVolumeIDs, id)
      && LeftAs(status, v, id, cleanup)
      && (status.Done? ==> WorkspaceVolumePath(id) in v.files)
  }

  /** How a committed machine and its disk are left. */
  ghost predicate LeftAs(status: Status, v: World, id: MachineID, cleanup: Cleanup)
    requires id in v.machines
  {
    && (if status.Done? then v.machines[id].phase.Running? || v.machines[id].phase.Failed? else IsLive(v.machines[id].phase))
    && (status.Done? <==> cleanup.NotNeeded?)
    && (status.Done? || cleanup.NoEffect? ==> SystemDiskMade(v.files, id, v.machines[id].storageBytes))
    && (cleanup.Worked? ==> !HasDisk(v, id))
  }

  /** So the disk of a committed machine is there exactly if its startup returned
      no error or the cleanup failed, unless the cleanup itself was cut short. */
  lemma DiskOfCommitted(status: Status, v: World, id: MachineID, cleanup: Cleanup)
    requires id in v.machines && LeftAs(status, v, id, cleanup) && !cleanup.HalfDone?
    ensures HasDisk(v, id) <==> status.Done? || cleanup.NoEffect?
    ensures !status.Done? && cleanup.Worked? ==> IsLive(v.machines[id].phase) && !HasDisk(v, id)
  {
    hide SystemVolumePath;
  }

  function CreateOpFor(id: MachineID): OperationRecord {
    OperationRecord(id, CreateOp, None, 0, 0)
  }

  /** Either nothing happened, or the call got past its journal write. */
  ghost predicate CreateOutcome(status: Status, w: World, v: World, req: CreateRequest, cleanup: Cleanup) {
    || (v == w && !status.Done?)
    || (&& req.id !in w.machines
        && var j := AfterUpsert(w, CreateOpFor(req.id));
        && CreateProgress(status, j, v, req, cleanup)
        && (v.journal == j.journal || (status.Done? && v.journal == j.journal - {req.id})))
  }

  /** The record a request asks for. */
  predicate CreatedAs(req: CreateRequest, r: MachineRecord) {
    && r.artifact == req.artifact
    && r.memoryMiB == (if req.memoryMiB <= 0 then DEFAULT_GUEST_MEMORY_MIB else req.memoryMiB)
    && r.storageBytes == (if req.storageBytes <= 0 then DEFAULT_GUEST_DISK_SIZE_BYTES else req.storageBytes)
    && r.systemVolumeID == SystemVolumeID(req.id)
    && r.userVolumeIDs == [WorkspaceVolumeID(req.id)] + req.userVolumeIDs
  }

  /** Everything before the record write. */
  method BuildMachine(d: Daemon, ghost w: World, id: MachineID, volumes: seq<VolumeRecord>, nonce: string, size: nat)
    returns (status: Status, state: MachineState, ids: seq<VolumeID>, ghost networks: seq<Allocation>)
    requires d.Inv() && Good(w) && Creating(w, d.W(), id) && d.W().volumes == w.volumes
    requires SystemVolumePath(id) in d.W().files && ExternalVolumes(w, volumes, id)
    modifies d`halted, d`faulted, d`vms, d`files, d`dirs, d`log, d`abandoned, d.store
    ensures d.Inv() && Creating(w, d.W(), id)
    ensures status.Done? ==>
              && Recording(w, d.W(), id, size, networks)
              && SystemRecorded(d.W(), id)
              && FreshIDs(w, id)
              && BootedOn(d.W().base, networks, state)
              && AllAttached(d.W(), ids, id)
              && IDsOf(ids, id, volumes, |volumes|)
              && SystemDiskMade(d.W().files, id, size)
              && WorkspaceVolumePath(id) in d.W().files
  {
    hide FileStore.Valid, Good, Daemon.W, Creating, DiskReady, CoversNetworks, BootedOn, SystemRecorded, ExternalVolumes,
      SystemVolumeID, WorkspaceVolumeID, SystemVolumePath, WorkspaceVolumePath, AllAttached, IDsOf, SystemDiskMade;
    state, ids, networks := MachineState(VmStopped, 0, "", "", "", None, ""), [], [];
    status := GrowAndInject(d, w, id, size, true);
    if status.Done? {
      status := CreateWorkspace(d, w, id, size);
    }
    if status.Done? {
      status, state, networks := BootNew(d, w, id, nonce, size);
    }
    if status.Done? {
      SameMachines(w, d.W(), id);
      status := RecordOwnVolumes(d, w, id, state, size, networks);
    }
    if status.Done? {
      status, ids := AttachVolumes(d, w, id, volumes, state, size, networks);
      SameMachines(w, d.W(), id);
    }
  }

  /** From the clone on: failures from here on take the machine's directory with
      them, even when the record was already committed. */
  method BuildAndStart(d: Daemon, ghost w: World, req: CreateRequest, volumes: seq<VolumeRecord>, nonce: string,
                       key: string, size: nat)
    returns (status: Status, ghost cleanup: Cleanup)
    requires d.Inv() && Good(w) && Creating(w, d.W(), req.id) && d.W().volumes == w.volumes && size > 0
    requires SystemVolumePath(req.id) in d.W().files && ExternalVolumes(w, volumes, req.id)
    requires nonce != "" && Trimmed(nonce) && FreshNonce(w.log, nonce) && RequestedAs(req, volumes, size)
    modifies d, d.store
    ensures d.Inv() && CreateProgress(status, w, d.W(), req, cleanup) && d.W().journal == w.journal
  {
    hide FileStore.Valid, Good, Daemon.W, Creating, DiskReady, CoversNetworks, BootedOn, SystemRecorded, ExternalVolumes,
      SystemVolumeID, WorkspaceVolumeID, SystemVolumePath, NewRecord, MayCreate, OtherRecordsKept, TouchesOnly, Converged,
      Trimmed, FreshIDs, AllAttached, IDsOf, RequestedAs, CreatedAs, SameBody, SystemDiskMade, WorkspaceVolumePath,
      CreatingApart, SameApart, FreshNonce;
    cleanup := NotNeeded;
    SameMachines(w, d.W(), req.id);
    var state, ids;
    ghost var networks;
    status, state, ids, networks := BuildMachine(d, w, req.id, volumes, nonce, size);
    SameMachines(w, d.W(), req.id);
    if status.Done? {
      var r := NewRecord(req.id, req.artifact, ResolveMemory(req.memoryMiB), size, ids, state, nonce, key);
      NewRecordFields(req.id, req.artifact, ResolveMemory(req.memoryMiB), size, ids, state, nonce, key);
      CreatingIsAllowed(d.W(), r, networks, state);
      RecordAsRequested(req, volumes, size, r, ids);
      status := CommitAndStart(d, w, r, volumes, state);
      SameMachinesUnless(w, d.W(), r);
      if r.id in d.W().machines {
        BodyAsRequested(req, r, d.W().machines[req.id]);
      }
    }
    if !status.Done? {
      ghost var v := d.W();
      cleanup := RemoveDisk(d, w, req.id);
      CommittedStill(w, v, d.W(), req.id);
      SameVolumesAttached(v, d.W(), if req.id in v.machines then v.machines[req.id].userVolumeIDs else [], req.id);
      DiskAfterCleanup(v, d.W(), req.id, cleanup);
    }
  }

  /** The record write and what follows it; up to here the disk is untouched. */
  method CommitAndStart(d: Daemon, ghost w: World, r: MachineRecord, volumes: seq<VolumeRecord>, state: MachineState)
    returns (status: Status)
    requires d.Inv() && Good(w) && Creating(w, d.W(), r.id) && FreshIDs(w, r.id) && ExternalVolumes(w, volumes, r.id)
    requires MayCreate(d.W(), r) && StateMatches(r, state) && r.phase.Starting?
    requires SystemRecorded(d.W(), r.id) && AllAttached(d.W(), r.userVolumeIDs, r.id)
    requires SystemDiskMade(d.W().files, r.id, r.storageBytes) && WorkspaceVolumePath(r.id) in d.W().files
    modifies d, d.store
    ensures d.Inv() && d.W().journal == w.journal
    ensures r.id !in d.W().machines ==> !status.Done? && Creating(w, d.W(), r.id)
    ensures r.id in d.W().machines ==>
              && OtherRecordsKept(w, d.W(), r.id)
              && CreatingApart(w, d.W(), r.id)
              && SameBody(r, d.W().machines[r.id])
              && SystemRecorded(d.W(), r.id)
              && AllAttached(d.W(), r.userVolumeIDs, r.id)
              && SystemDiskMade(d.W().files, r.id, r.storageBytes)
              && WorkspaceVolumePath(r.id) in d.W().files
              && (if status.Done? then d.W().machines[r.id].phase.Running? || d.W().machines[r.id].phase.Failed?
                  else IsLive(d.W().machines[r.id].phase))
  {
    hide FileStore.Valid, Good, Daemon.W, Creating, DiskReady, SystemRecorded, ExternalVolumes, SystemVolumeID,
      WorkspaceVolumeID, SystemVolumePath, MayCreate, OtherRecordsKept, TouchesOnly, Converged, FreshIDs, AllAttached,
      SameBody, SystemDiskMade, WorkspaceVolumePath, CreatingApart, SameApart;
    ghost var b := d.W();
    SameMachines(w, b, r.id);
    status := CommitRecord(d, w, r, volumes, state);
    SameMachinesUnless(w, d.W(), r);
    if status.Done? {
      ghost var v := d.W();
      SameVolumesAttached(b, v, r.userVolumeIDs, r.id);
      var updated;
      status, updated := CompleteMachineStartup(d, r, state);
      OthersStillKept(w, v, d.W(), r.id);
      StepsApart(v, d.W(), r.id);
      ApartAfter(w, v, d.W(), r.id);
      SameVolumesAttached(v, d.W(), r.userVolumeIDs, r.id);
    }
  }

  lemma DiskAfterCleanup(v: World, u: World, id: MachineID, cleanup: Cleanup)
    requires cleanup.Worked? ==> SystemVolumePath(id) !in u.files
    requires cleanup.NoEffect? ==> u.files == v.files
    ensures cleanup.Worked? ==> !HasDisk(u, id)
    ensures cleanup.NoEffect? ==> forall size :: SystemDiskMade(v.files, id, size) ==> SystemDiskMade(u.files, id, size)
  {
  }

  /** The parts of a request that were looked up or filled in. */
  ghost predicate RequestedAs(req: CreateRequest, volumes: seq<VolumeRecord>, size: int) {
    && size == (if req.storageBytes <= 0 then DEFAULT_GUEST_DISK_SIZE_BYTES else req.storageBytes)
    && |volumes| == |req.userVolumeIDs|
    && forall k :: 0 <= k < |volumes| ==> volumes[k].id == req.userVolumeIDs[k]
  }

  lemma RecordAsRequested(req: CreateRequest, volumes: seq<VolumeRecord>, size: int, r: MachineRecord, ids: seq<VolumeID>)
    requires RequestedAs(req, volumes, size) && IDsOf(ids, req.id, volumes, |volumes|)
    requires r.artifact == req.artifact && r.memoryMiB == ResolveMemory(req.memoryMiB) && r.storageBytes == size
    requires r.systemVolumeID == SystemVolumeID(req.id) && r.userVolumeIDs == ids
    ensures CreatedAs(req, r)
  {
    hide SystemVolumeID, WorkspaceVolumeID;
    assert ids == [WorkspaceVolumeID(req.id)] + req.userVolumeIDs;
  }

  lemma BodyAsRequested(req: CreateRequest, r: MachineRecord, s: MachineRecord)
    requires CreatedAs(req, r) && SameBody(r, s)
    ensures CreatedAs(req, s) && s.userVolumeIDs == r.userVolumeIDs && s.storageBytes == r.storageBytes
  {
  }

  lemma NewRecordFields(id: MachineID, artifact: string, memoryMiB: int, size: int, ids: seq<VolumeID>, state: MachineState,
                        nonce: string, key: string)
    ensures var r := NewRecord(id, artifact, memoryMiB, size, ids, state, nonce, key);
            && r.id == id && r.artifact == artifact && r.memoryMiB == memoryMiB && r.storageBytes == size
            && r.readyNonce == nonce && r.userVolumeIDs == ids && r.systemVolumeID == SystemVolumeID(id)
            && r == NewRecord(id, artifact, memoryMiB, size, ids, state, nonce, r.guestKey)
  {
    TrimmedKey(id, artifact, memoryMiB, size, ids, state, nonce, key);
  }

  lemma SameMachinesUnless(w: World, v: World, r: MachineRecord)
    ensures r.id !in w.machines && v.machines == w.machines[r.id := r] ==> OtherRecordsKept(w, v, r.id)
    ensures Creating(w, v, r.id) ==> r.id !in v.machines
  {
  }

  lemma CommittedStill(w: World, v: World, u: World, id: MachineID)
    requires u.machines == v.machines && u.log == v.log
    ensures OtherRecordsKept(w, v, id) ==> OtherRecordsKept(w, u, id)
    ensures Creating(w, u, id) ==> id !in u.machines
  {
  }

  lemma OthersStillKept(w: World, v: World, u: World, id: MachineID)
    requires OtherRecordsKept(w, v, id) && w.log <= v.log && TouchesOnly(v, u, id)
    ensures OtherRecordsKept(w, u, id) && w.log <= u.log
    ensures u.volumes == v.volumes && u.files == v.files && u.journal == v.journal
  {
  }

  /** The deferred cleanup, errors ignored. */
  method RemoveDisk(d: Daemon, ghost w: World, id: MachineID) returns (ghost cleanup: Cleanup)
    requires d.Inv()
    modifies d`halted, d`faulted, d`files, d`dirs
    ensures d.Inv() && d.W().machines == old(d.W()).machines && d.W().log == old(d.W()).log
    ensures d.W().volumes == old(d.W()).volumes && d.W().journal == old(d.W()).journal
    ensures old(Creating(w, d.W(), id)) ==> Creating(w, d.W(), id)
    ensures old(CreatingApart(w, d.W(), id)) ==> CreatingApart(w, d.W(), id)
    ensures !cleanup.NotNeeded?
    ensures cleanup.Worked? ==> SystemVolumePath(id) !in d.W().files
    ensures cleanup.NoEffect? ==> d.W().files == old(d.W()).files
  {
    hide FileStore.Valid, Good, Daemon.W, Creating, CreatingApart, WithDisks, SomeRemoved, WithoutDir, InsideDir;
    ghost var w0 := d.W();
    var file := d.RemoveFile(SystemVolumePath(id));
    ghost var v := d.W();
    SameInside(w0.files, id);
    RemovedFileInside(w0.files, SystemVolumePath(id), id);
    if Creating(w, w0, id) {
      CreatingDisks(w, w0, v, id);
    }
    if CreatingApart(w, w0, id) {
      ApartDisks(w, w0, v, id);
    }
    var dir := d.RemoveAll(MachineDir(id));
    RemovedInside(v.files, d.W().files, id);
    if Creating(w, v, id) {
      CreatingDisks(w, v, d.W(), id);
    }
    if CreatingApart(w, v, id) {
      ApartDisks(w, v, d.W(), id);
    }
    RemovedStays(v.files, d.W().files, MachineDir(id), SystemVolumePath(id));
    cleanup := if file.Done? || dir.Done? then Worked else if d.W().files == w0.files then NoEffect else HalfDone;
  }

  lemma RemovedStays(files: map<DiskPath, Image>, now: map<DiskPath, Image>, dir: Dir, path: DiskPath)
    requires SomeRemoved(files, now, dir) && path.dir == dir
    ensures path !in files ==> path !in now
    ensures now == WithoutDir(files, dir) ==> path !in now
  {
  }

  /** The journalled part, up to the clone. */
  method CreateJournalled(d: Daemon, ghost w: World, req: CreateRequest) returns (status: Status, ghost cleanup: Cleanup)
    requires d.Inv() && Good(w) && Creating(w, d.W(), req.id) && d.W().volumes == w.volumes
    modifies d, d.store
    ensures d.Inv() && CreateProgress(status, w, d.W(), req, cleanup) && d.W().journal == w.journal
  {
    hide FileStore.Valid, Good, Daemon.W, Creating, SystemVolumePath, OtherRecordsKept, TrimSpace, Trimmed, ExternalVolumes,
      Attachable, RequestedAs, CreatedAs, SystemRecorded, AllAttached, LeftAs, WorkspaceVolumePath, CreatingApart,
      FreshNonce;
    cleanup := NotNeeded;
    SameMachines(w, d.W(), req.id);
    var volumes, size := [], 0;
    status, volumes := LoadAttachableUserVolumes(d, req.id, req.userVolumeIDs);
    ghost var v := d.W();
    var key: string := *;
    var keyMade := d.Tick();
    var nonce := NewReadyNonce(d);
    if status.Done? && (!keyMade || nonce.None?) {
      status := Fault;
    }
    if status.Done? {
      LoadedVolumes(w, v, volumes, req.id);
      status, size := ResolveStorage(d, req.storageBytes, RootFS(req));
    }
    if status.Done? {
      status := MakeMachineDir(d, w, req.id);
      SameMachines(w, d.W(), req.id);
    }
    if status.Done? {
      status := CloneRoot(d, w, req.id, RootFS(req));
      SameMachines(w, d.W(), req.id);
      if status.Done? {
        LoadedAsRequested(req, volumes, size);
        status, cleanup := BuildAndStart(d, w, req, volumes, nonce.value, key, size);
      }
    }
  }

  lemma LoadedAsRequested(req: CreateRequest, volumes: seq<VolumeRecord>, size: int)
    requires size == (if req.storageBytes <= 0 then DEFAULT_GUEST_DISK_SIZE_BYTES else req.storageBytes)
    requires |volumes| == |req.userVolumeIDs| && forall k :: 0 <= k < |volumes| ==> volumes[k].id == req.userVolumeIDs[k]
    ensures RequestedAs(req, volumes, size)
  {
  }

  lemma LoadedVolumes(w: World, v: World, volumes: seq<VolumeRecord>, id: MachineID)
    requires v.volumes == w.volumes
    requires forall k :: 0 <= k < |volumes| ==>
               volumes[k].id in v.volumes && v.volumes[volumes[k].id] == volumes[k] && Attachable(volumes[k], id)
    ensures ExternalVolumes(w, volumes, id)
  {
  }

  /** CreateMachine. */
  method CreateMachine(d: Daemon, req: CreateRequest) returns (status: Status, ghost cleanup: Cleanup)
    requires d.Inv()
    modifies d, d.store
    ensures d.Inv() && CreateOutcome(status, old(d.W()), d.W(), req, cleanup)
    ensures req.id !in old(d.W()).machines && req.id in d.W().machines && !cleanup.HalfDone? ==>
              (HasDisk(d.W(), req.id) <==> status.Done? || cleanup.NoEffect?)
  {
    hide FileStore.Valid, Good, Daemon.W, CreateProgress, AfterUpsert, AfterClear, Creating, HasDisk;
    status, cleanup := Conflict, NotNeeded;
    var got, found := d.GetMachine(req.id);
    if got.NotFound? {
      status := d.UpsertOperation(CreateOpFor(req.id));
      if status.Done? {
        ghost var j := d.W();
        CreatingNothing(j, req.id);
        status, cleanup := CreateJournalled(d, j, req);
        ghost var v := d.W();
        if status.Done? {
          ProgressCleared(j, v, req, cleanup);
          var _ := d.DeleteOperation(req.id);
        }
        if req.id in d.W().machines && !cleanup.HalfDone? {
          DiskAfterProgress(status, j, d.W(), req, cleanup);
        }
      }
    } else if got.Fault? {
      status := Fault;
    }
  }

  lemma DiskAfterProgress(status: Status, j: World, v: World, req: CreateRequest, cleanup: Cleanup)
    requires CreateProgress(status, j, v, req, cleanup) && req.id in v.machines && !cleanup.HalfDone?
    ensures HasDisk(v, req.id) <==> status.Done? || cleanup.NoEffect?
  {
    hide OtherRecordsKept, CreatingApart, CreatedAs, SystemRecorded, AllAttached, HasDisk, LeftAs;
    DiskOfCommitted(status, v, req.id, cleanup);
  }

  lemma ProgressCleared(j: World, v: World, req: CreateRequest, cleanup: Cleanup)
    requires CreateProgress(Done, j, v, req, cleanup)
    ensures CreateProgress(Done, j, AfterClear(v, req.id), req, cleanup)
  {
    hide OtherRecordsKept, CreatingApart, SameApart, CreatedAs, SystemRecorded, AllAttached, LeftAs, WorkspaceVolumePath,
      Torn;
    var u := AfterClear(v, req.id);
    ClearIsJournal(v, req.id);
    StepsApart(v, u, req.id);
    ApartAfter(j, v, u, req.id);
    OthersAside(j, v, u, req.id);
    SameVolumesAttached(v, u, v.machines[req.id].userVolumeIDs, req.id);
    LeftAside(Done, v, u, req.id, cleanup);
  }

  lemma LeftAside(status: Status, v: World, u: World, id: MachineID, cleanup: Cleanup)
    requires id in v.machines && LeftAs(status, v, id, cleanup) && u.machines == v.machines && u.files == v.files
    ensures LeftAs(status, u, id, cleanup)
  {
  }

  lemma OthersAside(w: World, v: World, u: World, id: MachineID)
    requires OtherRecordsKept(w, v, id) && OnlyJournalOf(v, u, id)
    ensures OtherRecordsKept(w, u, id) && u.log == v.log && u.volumes == v.volumes && u.files == v.files
  {
  }

  lemma OthersOfTouches(v: World, u: World, id: MachineID)
    ensures TouchesOnly(v, u, id) ==> OtherRecordsKept(v, u, id) && OtherRecordsKept(v, AfterClear(u, id), id)
    ensures SameApart(v, u, id) ==> SameApart(v, AfterClear(u, id), id)
  {
  }

  // -------------------------------------------------------------- recovery

  ghost predicate CreateRecovered(w: World, v: World, u: World, id: MachineID) {
    if id in v.machines then
      && id in u.machines
      && (IsLive(v.machines[id].phase) ==> u.machines[id].phase.Running? || u.machines[id].phase.Failed?)
      && id !in u.journal
      && OtherRecordsKept(v, u, id)
      && SameApart(v, u, id)
    else CreateUndone(w, u, id)
  }

  /** reconcileCreate, from any state an interrupted creation leaves. */
  method ReconcileCreate(d: Daemon, ghost w: World, id: MachineID) returns (status: Status)
    requires d.Inv() && (id !in d.W().machines ==> Creating(w, d.W(), id))
    modifies d, d.store
    ensures d.Inv() && HandlesOnly(old(d.W()), d.W(), id)
    ensures status.Done? ==> CreateRecovered(w, old(d.W()), d.W(), id) && id !in d.W().journal
  {
    hide FileStore.Valid, Good, Daemon.W, Creating, OnlyJournalOf, AfterClear, Deleting, FilesSwept, Swept, TouchesOnly,
      CreateUndone, HandlesOnly, OtherRecordsKept, SameApart;
    ghost var v := d.W();
    ApartNothing(v, id);
    var found;
    status, found := d.GetMachine(id);
    if status.Done? {
      var settled;
      status, settled := ReconcileMachine(d, id);
      JournalOfTouches(v, d.W(), id);
      ApartThenClear(v, d.W(), id);
      StepsApart(v, d.W(), id);
      OthersOfTouches(v, d.W(), id);
      if status.Done? {
        status := d.DeleteOperation(id);
      }
    } else if status.NotFound? {
      status := SweepLeftovers(d, id);
      ghost var s := d.W();
      JournalOfDeleting(v, s, id);
      ApartThenClear(v, s, id);
      if status.Done? {
        DeletingNothing(s, id);
        status := FinishDelete(d, s, id);
        if status.Done? {
          SweepUndoes(w, v, s, d.W(), id);
        }
      }
    }
  }
}
