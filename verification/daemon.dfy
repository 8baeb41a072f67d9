/** The daemon object: the store, the disks, the VM table and the listener
    maps, with every primitive step that the API calls are made of.

    A step may always fail without effect, and `halted` is the crash: once it is
    set every later step fails, so the durable fields stay as the crash left
    them until Restart drops the volatile ones. */
module Daemons {
  import opened Wrappers
  import opened Text
  import opened Model
  import opened Network
  import opened KeyedRows
  import opened Store
  import opened Worlds

  datatype VmPhase = VmRunning | VmStopped | VmFailed

  /** firecracker.MachineState. */
  datatype MachineState = MachineState(
    phase: VmPhase,
    pid: int,
    runtimeHost: string,
    socketPath: string,
    tapName: string,
    startedAt: Option<int>,
    error: string)

  datatype GuestReady = GuestReady(readyNonce: string, guestKey: string)

  function ToRuntimeState(r: MachineRecord): MachineState {
    var phase := match r.phase
      case Starting => VmRunning
      case Running => VmRunning
      case Failed => VmFailed
      case Stopped => VmStopped;
    MachineState(phase, r.pid, r.runtimeHost, r.socketPath, r.tapDevice, r.startedAt, r.error)
  }

  class Daemon {
    const base: Prefix
    const store: FileStore
    var halted: bool
    var files: map<DiskPath, Image>
    var dirs: set<Dir>
    var vms: map<int, Vm>
    var relays: map<RelayKey, Port16>
    var published: map<PortID, Port16>
    /** What has happened; the code keeps no such list. */
    var log: seq<Change>
    /** Some step has failed since the daemon was made. */
    ghost var faulted: bool
    /** Ports whose relay could not be bound because the address was in use. */
    ghost var refusals: seq<Port16>
    ghost var abandoned: set<MachineID>
    ghost var missed: bool

    ghost function W(): World
      reads *
    {
      World(base, store.Machines(), store.Volumes(), store.Snapshots(), store.Ports(), store.Journal(),
            files, dirs, vms, relays, published, log, abandoned, missed)
    }

    ghost predicate Inv()
      reads *
    {
      store.Valid() && Good(W())
    }

    constructor (base: Prefix)
      requires base.Valid()
      ensures Inv() && fresh(store) && !halted
      ensures W() == World(base, map[], map[], map[], map[], map[], map[], {}, map[], map[], map[], [], {}, false)
    {
      this.base := base;
      store := new FileStore();
      halted := false;
      files, dirs, vms, relays, published := map[], {}, map[], map[], map[];
      log, abandoned, missed, faulted, refusals := [], {}, false, false, [];
    }

    /** One step of the outside world: it works, fails, or is cut off by a crash. */
    method Tick() returns (ok: bool)
      modifies this`halted, this`faulted
      ensures old(halted) ==> halted && !ok
      ensures ok ==> !halted
      ensures faulted == (old(faulted) || !ok)
      ensures store.Valid() == old(store.Valid()) && W() == old(W())
    {
      ok := false;
      if !halted {
        ok := *;
        if !ok {
          halted := *;
        }
      }
      faulted := faulted || !ok;
    }

    /** The daemon process starts again: listeners and locks are gone. */
    method Restart()
      requires Inv()
      modifies this`halted, this`relays, this`published, this`missed
      ensures Inv() && !halted
      ensures W() == old(W()).(relays := map[], published := map[], missed := false)
    {
      hide Core, FileStore.Valid, Index;
      ClosingKeepsGood(W(), map[], map[], false);
      halted, relays, published, missed := false, map[], map[], false;
    }

    /** A VM process may die at any moment. */
    method LoseVm(pid: int)
      requires Inv()
      modifies this`vms
      ensures Inv()
      ensures W() == WithVms(old(W()), old(W()).vms - {pid})
    {
      hide Good, Index;
      VmsKeepGood(W(), vms - {pid});
      vms := vms - {pid};
    }

    // ------------------------------------------------------------ journal

    method UpsertOperation(op: OperationRecord) returns (status: Status)
      requires Inv()
      modifies this`halted, this`faulted, this`abandoned, store
      ensures old(faulted) ==> faulted
      ensures !faulted ==> !status.Fault?
      ensures Inv()
      ensures status.Done? || status.Fault?
      ensures W() == if status.Done? then AfterUpsert(old(W()), op) else old(W())
    {
      var ok := Tick();
      if !ok {
        return Fault;
      }
      UpsertKeepsGood(W(), op);
      ghost var after := AfterUpsert(W(), op);
      store.UpsertOperation(op);
      abandoned := after.abandoned;
      status := Done;
    }

    method DeleteOperation(id: MachineID) returns (status: Status)
      requires Inv()
      modifies this`halted, this`faulted, this`abandoned, store
      ensures old(faulted) ==> faulted
      ensures !faulted ==> !status.Fault?
      ensures Inv()
      ensures status.Done? || status.Fault?
      ensures W() == if status.Done? then AfterClear(old(W()), id) else old(W())
    {
      var ok := Tick();
      if !ok {
        return Fault;
      }
      ClearKeepsGood(W(), id);
      ghost var after := AfterClear(W(), id);
      store.DeleteOperation(id);
      abandoned := after.abandoned;
      status := Done;
    }

    method ListOperations() returns (status: Status, records: seq<OperationRecord>)
      requires store.Valid()
      modifies this`halted, this`faulted
      ensures status.Done? || status.Fault?
      ensures old(faulted) ==> faulted
      ensures !faulted ==> !status.Fault?
      ensures store.Valid() == old(store.Valid()) && W() == old(W())
      ensures status.Done? ==> Unique(records, OperationKey) && Index(records, OperationKey) == W().journal
    {
      var ok := Tick();
      if !ok {
        return Fault, [];
      }
      records := store.ListOperations();
      status := Done;
    }

    // ----------------------------------------------------------- machines

    method GetMachine(id: MachineID) returns (status: Status, found: Option<MachineRecord>)
      requires store.Valid()
      modifies this`halted, this`faulted
      ensures old(faulted) ==> faulted
      ensures !faulted ==> !status.Fault?
      ensures store.Valid() == old(store.Valid()) && W() == old(W())
      ensures status.Done? ==> id in W().machines && found == Some(W().machines[id]) && found.value.id == id
      ensures status.NotFound? ==> id !in W().machines
      ensures !status.Conflict?
    {
      var ok := Tick();
      if !ok {
        return Fault, None;
      }
      found := store.GetMachine(id);
      status := if found.Some? then Done else NotFound;
    }

    method ListMachines() returns (status: Status, records: seq<MachineRecord>)
      requires store.Valid()
      modifies this`halted, this`faulted
      ensures status.Done? || status.Fault?
      ensures old(faulted) ==> faulted
      ensures !faulted ==> !status.Fault?
      ensures store.Valid() == old(store.Valid()) && W() == old(W())
      ensures status.Done? ==> Unique(records, MachineKey) && Index(records, MachineKey) == W().machines
    {
      var ok := Tick();
      if !ok {
        return Fault, [];
      }
      records := store.ListMachines();
      status := Done;
    }

    method CreateMachine(r: MachineRecord) returns (status: Status)
      requires Inv() && MayCreate(W(), r)
      modifies this`halted, this`faulted, this`log, this`abandoned, store
      ensures old(faulted) ==> faulted
      ensures !faulted ==> !status.Fault?
      ensures Inv()
      ensures status.Done? ==> r.id !in old(W()).machines && W() == AfterCreate(old(W()), r)
      ensures !status.Done? ==> W() == old(W())
    {
      hide Good, MayCreate, Index;
      var ok := Tick();
      if !ok {
        return Fault;
      }
      ghost var before := W();
      if r.id !in before.machines {
        CreateKeepsGood(before, r);
      }
      status := store.CreateMachine(r);
      if status.Done? {
        log, abandoned := log + [Created(r)], abandoned - {r.id};
      }
    }

    method UpdateMachine(r: MachineRecord) returns (status: Status)
      requires store.Valid() && Core(W()) && RelaysStoredApart(W(), r.id) && PublishedStored(W())
      requires MayUpdate(W(), r)
      modifies this`halted, this`faulted, this`log, this`abandoned, store
      ensures status.Done? || status.Fault?
      ensures old(faulted) ==> faulted
      ensures !faulted ==> !status.Fault?
      ensures store.Valid()
      ensures status.Done? ==> Inv() && W() == AfterUpdate(old(W()), r)
      ensures !status.Done? ==> W() == old(W())
    {
      hide Good, Core, RelaysStored, RelaysStoredApart, PublishedStored, Index, LegalUpdate, Coherent, FitsNetworks,
        FitsRelays, FitsDisk, Silent;
      var ok := Tick();
      if !ok {
        return Fault;
      }
      UpdateKeepsGood(W(), r);
      ghost var after := AfterUpdate(W(), r);
      var before := store.GetMachine(r.id);
      status := store.UpdateMachine(r);
      log, abandoned := log + [Updated(before.value, r)], after.abandoned;
    }

    method DeleteMachine(id: MachineID) returns (status: Status)
      requires Inv() && Silent(W(), id)
      modifies this`halted, this`faulted, this`log, this`abandoned, store
      ensures old(faulted) ==> faulted
      ensures !faulted ==> !status.Fault?
      ensures Inv()
      ensures status.Done? ==> id in old(W()).machines && W() == AfterDelete(old(W()), id)
      ensures !status.Conflict?
      ensures status.NotFound? ==> id !in old(W()).machines
      ensures !status.Done? ==> W() == old(W())
    {
      hide Good, Silent, Index;
      var ok := Tick();
      if !ok {
        return Fault;
      }
      ghost var before := W();
      if id in before.machines {
        DeleteKeepsGood(before, id);
      }
      var found := store.GetMachine(id);
      status := store.DeleteMachine(id);
      if status.Done? {
        log, abandoned := log + [Removed(found.value)], abandoned - {id};
      } else {
        assert before.machines - {id} == before.machines;
      }
    }

    // ------------------------------------------------------------ volumes

    method GetVolume(id: VolumeID) returns (status: Status, found: Option<VolumeRecord>)
      requires store.Valid()
      modifies this`halted, this`faulted
      ensures old(faulted) ==> faulted
      ensures !faulted ==> !status.Fault?
      ensures store.Valid() == old(store.Valid()) && W() == old(W())
      ensures status.Done? ==> id in W().volumes && found == Some(W().volumes[id]) && found.value.id == id
      ensures status.NotFound? ==> id !in W().volumes
      ensures !status.Conflict?
    {
      var ok := Tick();
      if !ok {
        return Fault, None;
      }
      found := store.GetVolume(id);
      status := if found.Some? then Done else NotFound;
    }

    method ListVolumes() returns (status: Status, records: seq<VolumeRecord>)
      requires store.Valid()
      modifies this`halted, this`faulted
      ensures status.Done? || status.Fault?
      ensures old(faulted) ==> faulted
      ensures !faulted ==> !status.Fault?
      ensures store.Valid() == old(store.Valid()) && W() == old(W())
      ensures status.Done? ==> Unique(records, VolumeKey) && Index(records, VolumeKey) == W().volumes
    {
      var ok := Tick();
      if !ok {
        return Fault, [];
      }
      records := store.ListVolumes();
      status := Done;
    }

    method CreateVolume(v: VolumeRecord) returns (status: Status)
      requires Inv() && MayPlaceVolume(W(), v)
      modifies this`halted, this`faulted, store
      ensures old(faulted) ==> faulted
      ensures !faulted ==> !status.Fault?
      ensures Inv()
      ensures status.Done? ==> v.id !in old(W()).volumes
      ensures status.Conflict? ==> v.id in old(W()).volumes
      ensures W() == if status.Done? then WithVolumes(old(W()), old(W()).volumes[v.id := v]) else old(W())
    {
      var ok := Tick();
      if !ok {
        return Fault;
      }
      VolumeKeepsGood(W(), v);
      status := store.CreateVolume(v);
    }

    method UpdateVolume(v: VolumeRecord) returns (status: Status)
      requires Inv() && MayPlaceVolume(W(), v)
      modifies this`halted, this`faulted, store
      ensures old(faulted) ==> faulted
      ensures !faulted ==> !status.Fault?
      ensures Inv()
      ensures status.NotFound? ==> v.id !in old(W()).volumes
      ensures !status.Conflict?
      ensures status.Done? ==> v.id in old(W()).volumes
      ensures W() == if status.Done? then WithVolumes(old(W()), old(W()).volumes[v.id := v]) else old(W())
    {
      var ok := Tick();
      if !ok {
        return Fault;
      }
      VolumeKeepsGood(W(), v);
      status := store.UpdateVolume(v);
    }

    method DeleteVolume(id: VolumeID) returns (status: Status)
      requires Inv()
      modifies this`halted, this`faulted, store
      ensures old(faulted) ==> faulted
      ensures !faulted ==> !status.Fault?
      ensures Inv()
      ensures status.Done? ==> id in old(W()).volumes
      ensures status.NotFound? ==> id !in old(W()).volumes
      ensures !status.Conflict?
      ensures W() == if status.Done? then WithVolumes(old(W()), old(W()).volumes - {id}) else old(W())
    {
      var ok := Tick();
      if !ok {
        return Fault;
      }
      ghost var before := W();
      status := store.DeleteVolume(id);
      if status.Done? {
        DropVolumeKeepsGood(before, id);
      } else {
        assert before.volumes - {id} == before.volumes;
      }
    }

    // ---------------------------------------------------------- snapshots

    method GetSnapshot(id: SnapshotID) returns (status: Status, found: Option<SnapshotRecord>)
      requires store.Valid()
      modifies this`halted, this`faulted
      ensures old(faulted) ==> faulted
      ensures !faulted ==> !status.Fault?
      ensures store.Valid() == old(store.Valid()) && W() == old(W())
      ensures status.Done? ==> id in W().snapshots && found == Some(W().snapshots[id]) && found.value.id == id
      ensures status.NotFound? ==> id !in W().snapshots
      ensures !status.Conflict?
    {
      var ok := Tick();
      if !ok {
        return Fault, None;
      }
      found := store.GetSnapshot(id);
      status := if found.Some? then Done else NotFound;
    }

    method CreateSnapshot(s: SnapshotRecord) returns (status: Status)
      requires Inv() && forall k :: 0 <= k < |s.artifacts| ==> SnapshotDisk(s.artifacts[k])
      modifies this`halted, this`faulted, store
      ensures old(faulted) ==> faulted
      ensures !faulted ==> !status.Fault?
      ensures Inv()
      ensures status.Done? ==> s.id !in old(W()).snapshots
      ensures W() == if status.Done? then WithSnapshots(old(W()), old(W()).snapshots[s.id := s]) else old(W())
    {
      var ok := Tick();
      if !ok {
        return Fault;
      }
      SnapshotsKeepGood(W(), W().snapshots[s.id := s]);
      status := store.CreateSnapshot(s);
    }

    method DeleteSnapshot(id: SnapshotID) returns (status: Status)
      requires Inv()
      modifies this`halted, this`faulted, store
      ensures old(faulted) ==> faulted
      ensures !faulted ==> !status.Fault?
      ensures Inv()
      ensures W() == if status.Done? then WithSnapshots(old(W()), old(W()).snapshots - {id}) else old(W())
    {
      var ok := Tick();
      if !ok {
        return Fault;
      }
      ghost var before := W();
      SnapshotsKeepGood(W(), W().snapshots - {id});
      status := store.DeleteSnapshot(id);
      assert id !in before.snapshots ==> before.snapshots - {id} == before.snapshots;
    }

    // ---------------------------------------------------- published ports

    method GetPublishedPort(id: PortID) returns (status: Status, found: Option<PublishedPortRecord>)
      requires store.Valid()
      modifies this`halted, this`faulted
      ensures old(faulted) ==> faulted
      ensures !faulted ==> !status.Fault?
      ensures store.Valid() == old(store.Valid()) && W() == old(W())
      ensures status.Done? ==> id in W().ports && found == Some(W().ports[id]) && found.value.id == id
      ensures status.NotFound? ==> id !in W().ports
      ensures !status.Conflict?
    {
      var ok := Tick();
      if !ok {
        return Fault, None;
      }
      found := store.GetPublishedPort(id);
      status := if found.Some? then Done else NotFound;
    }

    method ListPublishedPorts(machine: Option<MachineID>) returns (status: Status, records: seq<PublishedPortRecord>)
      requires store.Valid()
      modifies this`halted, this`faulted
      ensures status.Done? || status.Fault?
      ensures old(faulted) ==> faulted
      ensures !faulted ==> !status.Fault?
      ensures store.Valid() == old(store.Valid()) && W() == old(W())
      ensures status.Done? ==>
                forall r :: r in records <==>
                  r.id in W().ports && W().ports[r.id] == r && (machine.None? || r.machineID == machine.value)
    {
      var ok := Tick();
      if !ok {
        return Fault, [];
      }
      records := store.ListPublishedPorts(machine);
      status := Done;
    }

    method CreatePublishedPort(r: PublishedPortRecord) returns (status: Status)
      requires store.Valid() && Core(W()) && RelaysStored(W()) && PublishedStoredApart(W(), r.id)
      requires MayStorePort(W(), r)
      modifies this`halted, this`faulted, store
      ensures old(faulted) ==> faulted
      ensures !faulted ==> !status.Fault?
      ensures store.Valid()
      ensures status.Done? ==> Inv() && W() == WithPorts(old(W()), old(W()).ports[r.id := r])
      ensures status.Conflict? ==>
                r.id in old(W()).ports || exists p :: p in old(W()).ports && old(W()).ports[p].hostPort == r.hostPort
      ensures !status.Done? ==> W() == old(W())
    {
      var ok := Tick();
      if !ok {
        return Fault;
      }
      ghost var before := W();
      status := store.CreatePublishedPort(r);
      if status.Done? {
        StorePortKeepsGood(before, r);
      }
    }

    method DeletePublishedPort(id: PortID) returns (status: Status)
      requires Inv() && (W().missed || id !in W().published)
      modifies this`halted, this`faulted, store
      ensures old(faulted) ==> faulted
      ensures !faulted ==> !status.Fault?
      ensures Inv()
      ensures W() == if status.Done? then WithPorts(old(W()), old(W()).ports - {id}) else old(W())
    {
      var ok := Tick();
      if !ok {
        return Fault;
      }
      ghost var before := W();
      DropPortKeepsGood(before, id);
      status := store.DeletePublishedPort(id);
      assert id !in before.ports ==> before.ports - {id} == before.ports;
    }

    // -------------------------------------------------------------- disks

    method FileSize(path: DiskPath) returns (status: Status, size: nat)
      modifies this`halted, this`faulted
      ensures status.Done? || status.Fault?
      ensures old(faulted) ==> faulted
      ensures !faulted ==> (status.Done? <==> path in W().files)
      ensures store.Valid() == old(store.Valid()) && W() == old(W())
      ensures status.Done? ==> path in W().files && size == |W().files[path]|
    {
      var ok := Tick();
      if !ok || path !in files {
        return Fault, 0;
      }
      return Done, |files[path]|;
    }

    /** os.MkdirAll. */
    method MakeDirAll(dir: Dir) returns (status: Status)
      requires Inv()
      modifies this`halted, this`faulted, this`dirs
      ensures status.Done? || status.Fault?
      ensures old(faulted) ==> faulted
      ensures !faulted ==> !status.Fault?
      ensures Inv()
      ensures W() == if status.Done? then WithDisks(old(W()), old(W()).files, old(W()).dirs + {dir}) else old(W())
    {
      var ok := Tick();
      if !ok {
        return Fault;
      }
      FilesKeepGood(W(), files, dirs + {dir});
      dirs := dirs + {dir};
      status := Done;
    }

    /** os.Mkdir, which refuses an existing directory. */
    method MakeNewDir(dir: Dir) returns (status: Status)
      requires Inv()
      modifies this`halted, this`faulted, this`dirs
      ensures old(faulted) ==> faulted
      ensures !faulted ==> !status.Fault?
      ensures Inv()
      ensures status.Done? ==> dir !in old(W()).dirs
      ensures W() == if status.Done? then WithDisks(old(W()), old(W()).files, old(W()).dirs + {dir}) else old(W())
    {
      var ok := Tick();
      if !ok {
        return Fault;
      }
      if dir in dirs {
        return Conflict;
      }
      FilesKeepGood(W(), files, dirs + {dir});
      dirs := dirs + {dir};
      status := Done;
    }

    /** cloneDiskFile: a temporary sibling is written and renamed into place. */
    method CloneDisk(source: DiskPath, target: DiskPath) returns (status: Status)
      requires Inv() && NotASystemDisk(W(), target) && source != TempPath(target)
      modifies this`halted, this`faulted, this`files, this`dirs
      ensures status.Done? || status.Fault?
      ensures old(faulted) ==> faulted
      ensures !faulted ==> (status.Done? <==> source in old(W()).files)
      ensures Inv()
      ensures W() == WithDisks(old(W()), W().files, W().dirs)
      ensures SameFilesApart(old(W()).files, W().files, {target, TempPath(target)})
      ensures old(W()).dirs <= W().dirs <= old(W()).dirs + {target.dir}
      ensures status.Done? ==>
                && source in old(W()).files
                && target in W().files
                && W().files[target] == old(W()).files[source]
                && target.dir in W().dirs
    {
      hide Good, Index, SystemDisksKept, NotASystemDisk;
      var ok := Tick();
      if !ok || source !in files {
        return Fault;
      }
      var image := files[source];
      ghost var before := W();
      CloneKept(before, target, image);
      var now := files[TempPath(target) := image];
      FilesKeepGood(before, now, dirs + {target.dir});
      files, dirs := now, dirs + {target.dir};
      ok := Tick();
      if !ok {
        return Fault;
      }
      now := (files - {TempPath(target)})[target := image];
      FilesKeepGood(before, now, dirs);
      files := now;
      status := Done;
    }

    /** os.Truncate on a disk image. The disk of an existing machine is only
        ever grown, and only to the size its journalled resize asks for. */
    method Truncate(path: DiskPath, size: nat) returns (status: Status)
      requires Inv()
      requires path !in W().files || NotASystemDisk(W(), path) || MayGrow(W(), path, size)
      modifies this`halted, this`faulted, this`files, this`log, this`abandoned
      ensures status.Done? || status.Fault?
      ensures old(faulted) ==> faulted
      ensures !faulted ==> (status.Done? <==> path in old(W()).files)
      ensures Inv()
      ensures status.Done? ==> path in old(W()).files
      ensures W() == if status.Done? then AfterTruncate(old(W()), path, size) else old(W())
    {
      hide Good, Index, NotASystemDisk, ResizePending;
      var ok := Tick();
      if !ok || path !in files {
        return Fault;
      }
      ghost var before := W();
      TruncateKeepsGood(before, path, size);
      var image := ResizeImage(files[path], size);
      var owner := None;
      if path.dir.MachineDir? && path == SystemVolumePath(path.dir.machine) {
        owner := store.GetMachine(path.dir.machine);
      }
      assert owner.Some? <==> MayGrow(before, path, size) by {
        OnlyToGrow(before, path, size);
      }
      if owner.Some? {
        log, abandoned := log + [Grown(path.dir.machine, |files[path]|, |image|)], abandoned - {path.dir.machine};
      }
      files := files[path := image];
      status := Done;
    }

    /** Identity, guest configuration and host key are written into an image in
        place; neither that nor a failed attempt changes its size. */
    method InjectInto(path: DiskPath) returns (status: Status)
      requires Inv()
      modifies this`halted, this`faulted, this`files
      ensures old(faulted) ==> faulted
      ensures Inv()
      ensures W() == WithDisks(old(W()), W().files, old(W()).dirs)
      ensures SameFilesApart(old(W()).files, W().files, {path})
      ensures path in W().files <==> path in old(W()).files
      ensures path in W().files ==> |W().files[path]| == |old(W()).files[path]|
    {
      var ok := Tick();
      if path !in files {
        return Fault;
      }
      var image: Image := *;
      if |image| != |files[path]| {
        return Fault;
      }
      FilesKeepGood(W(), files[path := image], dirs);
      files := files[path := image];
      status := if ok then Done else Fault;
    }

    /** createExt4VolumeImage. */
    method CreateVolumeImage(path: DiskPath, size: int) returns (status: Status)
      requires Inv() && NotASystemDisk(W(), path)
      modifies this`halted, this`faulted, this`files, this`dirs
      ensures old(faulted) ==> faulted
      ensures Inv()
      ensures W() == WithDisks(old(W()), W().files, W().dirs)
      ensures SameFilesApart(old(W()).files, W().files, {path})
      ensures old(W()).dirs <= W().dirs <= old(W()).dirs + {path.dir}
      ensures status.Done? ==> path in W().files && |W().files[path]| == size > 0 && path.dir in W().dirs
    {
      var ok := Tick();
      if !ok || size <= 0 {
        return Fault;
      }
      var image: Image := *;
      ghost var before := W();
      FilesKeepGood(before, files[path := image], dirs + {path.dir});
      files, dirs := files[path := image], dirs + {path.dir};
      ok := Tick();
      if !ok || |image| != size {
        return Fault;
      }
      status := Done;
    }

    /** os.Remove; a missing file counts as removed. */
    method RemoveFile(path: DiskPath) returns (status: Status)
      requires Inv()
      modifies this`halted, this`faulted, this`files
      ensures old(faulted) ==> faulted
      ensures !faulted ==> !status.Fault?
      ensures Inv()
      ensures status.Done? || status.Fault?
      ensures W() == if status.Done? then WithDisks(old(W()), old(W()).files - {path}, old(W()).dirs) else old(W())
    {
      var ok := Tick();
      if !ok {
        return Fault;
      }
      FilesKeepGood(W(), files - {path}, dirs);
      files := files - {path};
      status := Done;
    }

    /** os.RemoveAll; when it fails, part of the directory may be gone. */
    method RemoveAll(dir: Dir) returns (status: Status)
      requires Inv()
      modifies this`halted, this`faulted, this`files, this`dirs
      ensures old(faulted) ==> faulted
      ensures !faulted ==> !status.Fault?
      ensures Inv()
      ensures status.Done? || status.Fault?
      ensures W() == WithDisks(old(W()), W().files, W().dirs)
      ensures SomeRemoved(old(W()).files, W().files, dir)
      ensures W().dirs == if status.Done? then old(W()).dirs - {dir} else old(W()).dirs
      ensures status.Done? ==> W().files == WithoutDir(old(W()).files, dir)
    {
      hide Good, Index, SystemDisksKept, WithoutDir, WithoutMost, SomeRemoved;
      var name: string := *;
      var some, none := WithoutMost(files, dir, name), WithoutDir(files, dir);
      RemovalsKept(W(), dir, name);
      FilesKeepGood(W(), some, dirs);
      FilesKeepGood(W(), none, dirs - {dir});
      var ok := Tick();
      if !ok {
        var begun: bool := *;
        if begun {
          files := some;
        }
        return Fault;
      }
      files, dirs := none, dirs - {dir};
      status := Done;
    }

    // ---------------------------------------------------------------- VMs

    /** runtime.Boot: allocates a network that none of `used` holds and starts a
        process. A failed boot may leave a process behind that no record names. */
    method Boot(id: MachineID, nonce: string, used: seq<Allocation>) returns (status: Status, state: MachineState)
      requires Inv()
      modifies this`halted, this`faulted, this`vms
      ensures old(faulted) ==> faulted
      ensures Inv()
      ensures W() == WithVms(old(W()), W().vms)
      ensures forall pid :: pid in old(W()).vms ==> pid in W().vms && W().vms[pid] == old(W()).vms[pid]
      ensures status.Done? ==> BootedOn(W().base, used, state)
      ensures status.Done? ==> state.pid !in old(W()).vms && W().vms == old(W()).vms[state.pid := Vm(id, nonce, false)]
    {
      state := MachineState(VmStopped, 0, "", "", "", None, "");
      var ok := Tick();
      if !ok {
        return Fault, state;
      }
      var network, index := Allocate(base, used);
      if network.Err? {
        return Fault, state;
      }
      var pid: int := *;
      if pid <= 0 || pid in vms {
        return Fault, state;
      }
      VmsKeepGood(W(), vms[pid := Vm(id, nonce, false)]);
      vms := vms[pid := Vm(id, nonce, false)];
      ok := Tick();
      if !ok {
        return Fault, state;
      }
      var now: int := *;
      var socket: string := *;
      state := MachineState(VmRunning, pid, DottedQuad(network.value.guestIP), socket, network.value.tapName, Some(now), "");
      assert OnNetworkState(state, NetworkForIndex(base, index));
      status := Done;
    }

    /** runtime.Inspect. */
    function Inspect(state: MachineState): MachineState
      reads this`vms
    {
      if state.pid > 0 && state.pid !in vms
      then state.(phase := VmFailed, pid := 0, error := "firecracker process not found")
      else state
    }

    /** The tap, if there is one, can be found again from the address. */
    static predicate Deletable(state: MachineState) {
      TrimSpace(state.runtimeHost) != "" && TrimSpace(state.tapName) != "" ==>
        AllocationFromGuestIP(state.runtimeHost, state.tapName).Some?
    }

    /** runtime.Delete: stops the process and removes the tap device. */
    method DeleteVm(state: MachineState) returns (status: Status)
      requires Inv()
      modifies this`halted, this`faulted, this`vms
      ensures old(faulted) ==> faulted
      ensures !faulted && Deletable(state) ==> status.Done?
      ensures Inv()
      ensures status.Done? || status.Fault?
      ensures W() == WithVms(old(W()), W().vms)
      ensures W().vms == old(W()).vms - {state.pid} || (!status.Done? && W().vms == old(W()).vms)
    {
      var ok := Tick();
      if !ok {
        return Fault;
      }
      VmsKeepGood(W(), vms - {state.pid});
      vms := vms - {state.pid};
      if TrimSpace(state.runtimeHost) != "" && TrimSpace(state.tapName) != "" {
        if AllocationFromGuestIP(state.runtimeHost, state.tapName).None? {
          return Fault;
        }
        ok := Tick();
        if !ok {
          return Fault;
        }
      }
      status := Done;
    }

    /** runtime.Pause and runtime.Resume: a failed call may still have taken effect. */
    method SetPaused(state: MachineState, paused: bool) returns (status: Status)
      requires Inv()
      modifies this`halted, this`faulted, this`vms
      ensures old(faulted) ==> faulted
      ensures Inv()
      ensures status.Done? || status.Fault?
      ensures W() == WithVms(old(W()), W().vms)
      ensures W().vms.Keys == old(W()).vms.Keys
      ensures forall pid :: pid in W().vms && pid != state.pid ==> W().vms[pid] == old(W()).vms[pid]
      ensures state.pid in W().vms ==> W().vms[state.pid] == old(W()).vms[state.pid].(paused := W().vms[state.pid].paused)
      ensures status.Done? ==> state.pid in W().vms && W().vms[state.pid].paused == paused
    {
      var ok := Tick();
      if state.pid !in vms {
        return Fault;
      }
      var taken: bool := *;
      if ok || taken {
        VmsKeepGood(W(), vms[state.pid := vms[state.pid].(paused := paused)]);
        vms := vms[state.pid := vms[state.pid].(paused := paused)];
      }
      status := if ok then Done else Fault;
    }

    /** The guest answers the readiness request with some nonce and key, or not. */
    method PersonalizeGuest(r: MachineRecord, state: MachineState) returns (ready: Option<GuestReady>)
      requires Inv()
      modifies this`halted, this`faulted, this`log
      ensures old(faulted) ==> faulted
      ensures Inv()
      ensures W() == WithLog(old(W()), W().log)
      ensures W().log == if ready.Some? then old(W()).log + [Echoed(r.id, TrimSpace(ready.value.readyNonce))] else old(W()).log
    {
      var ok := Tick();
      if !ok || state.pid !in vms {
        return None;
      }
      var nonce: string, key: string := *, *;
      EchoKeepsGood(W(), r.id, TrimSpace(nonce));
      log := log + [Echoed(r.id, TrimSpace(nonce))];
      ready := Some(GuestReady(nonce, key));
    }

    // ---------------------------------------------------------- listeners

    /** net.Listen for a relay: Conflict stands for "address already in use". */
    method ListenRelay(key: RelayKey, port: Port16) returns (status: Status)
      modifies this`halted, this`faulted, this`refusals, this`relays
      ensures old(faulted) ==> faulted
      ensures !faulted ==> !status.Fault?
      ensures !status.NotFound?
      ensures refusals == if status.Conflict? then old(refusals) + [port] else old(refusals)
      ensures store.Valid() == old(store.Valid())
      ensures W() == if status.Done? then WithRelays(old(W()), old(W()).relays[key := port]) else old(W())
    {
      var ok := Tick();
      if !ok {
        return Fault;
      }
      var foreign: bool := *;
      if foreign || port in relays.Values || port in published.Values {
        refusals := refusals + [port];
        return Conflict;
      }
      relays := relays[key := port];
      status := Done;
    }

    method CloseRelay(key: RelayKey)
      modifies this`relays
      ensures store.Valid() == old(store.Valid())
      ensures W() == WithRelays(old(W()), old(W()).relays - {key})
    {
      relays := relays - {key};
    }

    method ListenPublished(id: PortID, hostPort: Port16) returns (status: Status)
      modifies this`halted, this`faulted, this`published
      ensures old(faulted) ==> faulted
      ensures store.Valid() == old(store.Valid())
      ensures W() == if status.Done? then WithPublished(old(W()), old(W()).published[id := hostPort], old(W()).missed) else old(W())
    {
      var ok := Tick();
      if !ok {
        return Fault;
      }
      var foreign: bool := *;
      if foreign || hostPort in relays.Values || hostPort in published.Values {
        return Conflict;
      }
      published := published[id := hostPort];
      status := Done;
    }

    method ClosePublished(id: PortID)
      modifies this`published
      ensures store.Valid() == old(store.Valid())
      ensures W() == WithPublished(old(W()), old(W()).published - {id}, old(W()).missed)
    {
      published := published - {id};
    }
  }

  ghost predicate MayGrow(w: World, path: DiskPath, size: nat) {
    && path.dir.MachineDir?
    && path == SystemVolumePath(path.dir.machine)
    && path.dir.machine in w.machines
    && path in w.files
    && |w.files[path]| <= size
    && ResizePending(w, path.dir.machine, size)
  }

  ghost function AfterTruncate(w: World, path: DiskPath, size: nat): World
    requires path in w.files
  {
    var image := ResizeImage(w.files[path], size);
    if MayGrow(w, path, size) then AfterGrow(w, path.dir.machine, image)
    else w.(files := w.files[path := image])
  }

  /** A disk that may be truncated is of no machine, or may grow. */
  lemma OnlyToGrow(w: World, path: DiskPath, size: nat)
    requires path in w.files && (NotASystemDisk(w, path) || MayGrow(w, path, size))
    ensures MayGrow(w, path, size) <==>
              path.dir.MachineDir? && path == SystemVolumePath(path.dir.machine) && path.dir.machine in w.machines
  {
    hide SystemVolumePath;
  }

  lemma TruncateKeepsGood(w: World, path: DiskPath, size: nat)
    requires Good(w) && path in w.files && (NotASystemDisk(w, path) || MayGrow(w, path, size))
    ensures Good(AfterTruncate(w, path, size))
    ensures MayGrow(w, path, size) ==>
              AfterTruncate(w, path, size) == w.(files := w.files[path := ResizeImage(w.files[path], size)],
                                                 log := w.log + [Grown(path.dir.machine, |w.files[path]|, size)],
                                                 abandoned := w.abandoned - {path.dir.machine})
  {
    hide Good, SystemVolumePath;
    var image := ResizeImage(w.files[path], size);
    if MayGrow(w, path, size) {
      GrowKeepsGood(w, path.dir.machine, image);
    } else {
      assert w.(files := w.files[path := image], dirs := w.dirs) == w.(files := w.files[path := image]);
      FilesKeepGood(w, w.files[path := image], w.dirs);
    }
  }

  predicate OnNetworkState(state: MachineState, network: Allocation) {
    state.runtimeHost == DottedQuad(network.guestIP) && state.tapName == network.tapName
  }

  /** A running process on an index of `base` whose guest address none of `used` has. */
  ghost predicate BootedOn(base: Prefix, used: seq<Allocation>, state: MachineState) {
    && base.Valid()
    && state.phase.VmRunning?
    && state.pid > 0
    && exists i: nat :: i < base.Subnets() && OnNetworkState(state, NetworkForIndex(base, i)) && !Taken(base, used, i)
  }

  lemma DropVolumeKeepsGood(w: World, id: VolumeID)
    requires Good(w)
    ensures Good(w.(volumes := w.volumes - {id}))
  {
    GoodWithVolumes(w, w.volumes - {id});
  }
}
