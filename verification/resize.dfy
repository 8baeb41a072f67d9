/** Resizing a machine, and replaying an interrupted resize from its journal. */
module Resize {
  import opened Wrappers
  import opened Model
  import opened Store
  import opened Network
  import opened Worlds
  import opened Daemons
  import opened Relays
  import opened Frames
  import opened Startup
  import opened Lifecycle

  const DEFAULT_GUEST_MEMORY_MIB := 3072

  function ResolveMemory(memoryMiB: int): (m: int)
    ensures m > 0 && (memoryMiB > 0 ==> m == memoryMiB)
  {
    if memoryMiB <= 0 then DEFAULT_GUEST_MEMORY_MIB else memoryMiB
  }

  function ResizedRecord(r: MachineRecord, memoryMiB: int, size: int): MachineRecord {
    StoppedRecord(r).(memoryMiB := ResolveMemory(memoryMiB), storageBytes := size)
  }

  ghost function GrownFiles(w: World, id: MachineID, size: nat): map<DiskPath, Image>
    requires HasDisk(w, id)
  {
    w.files[SystemVolumePath(id) := ResizeImage(w.files[SystemVolumePath(id)], size)]
  }

  /** Every state an interrupted resize of `r` can leave, however often it was
      replayed: `w` is the world in which it was journalled. */
  ghost predicate ResizeTrace(w: World, v: World, r: MachineRecord, memoryMiB: int, size: int) {
    && KeepsRest(WithDisks(w, v.files, w.dirs), v, r.id)
    && r.id in v.machines
    && (v.files == w.files || (size >= 0 && HasDisk(w, r.id) && v.files == GrownFiles(w, r.id, size)))
    && (|| v.machines[r.id] == r
        || v.machines[r.id] == StoppedRecord(r)
        || ResizeFinal(w, v, r, memoryMiB, size))
  }

  /** The state a completed resize of `r` ends in: it does not depend on where
      the resize was interrupted. */
  ghost predicate ResizeFinal(w: World, v: World, r: MachineRecord, memoryMiB: int, size: int) {
    && r.id in v.machines
    && v.machines[r.id] == ResizedRecord(r, memoryMiB, size)
    && size >= 0
    && HasDisk(w, r.id)
    && v.files == GrownFiles(w, r.id, size)
  }

  /** resizeMachineRecord, from any state of the trace. */
  method ResizeMachineRecord(d: Daemon, ghost w: World, ghost r0: MachineRecord, r: MachineRecord, memoryMiB: int, size: int)
    returns (status: Status)
    requires d.Inv() && r.id in d.W().machines && d.W().machines[r.id] == r && r.id == r0.id
    requires ResizePending(d.W(), r.id, size) && ResizeTrace(w, d.W(), r0, memoryMiB, size)
    modifies d, d.store
    ensures d.Inv() && ResizeTrace(w, d.W(), r0, memoryMiB, size) && old(d.W()).log <= d.W().log
    ensures status.Done? ==> ResizeFinal(w, d.W(), r0, memoryMiB, size)
    ensures status.Done? ==> IsResizable(r, size)
    ensures !IsResizable(r, size) ==> d.W() == old(d.W())
    ensures old(d.faulted) ==> d.faulted
    ensures !d.faulted ==> (status.Done? <==> IsResizable(r, size) && DiskAllows(old(d.W()), r.id, size))
  {
    hide FileStore.Valid, Good, Daemon.W, ResizeTrace, TouchesOnly, ResizePending, StoppedRecord, Silent, ResizeFinal;
    status := Conflict;
    if IsResizable(r, size) {
      var found;
      SystemVolumeIsItsDisk(d.W(), r);
      status, found := d.GetVolume(r.systemVolumeID);
      if status.Done? {
        var record := r;
        if r.phase.Running? {
          ghost var v := d.W();
          status := StopMachineRecord(d, r);
          StoppingKeepsTrace(status, w, v, d.W(), r0, r, memoryMiB, size);
          StoppedRecordFields(r);
          record := if status.Done? then StoppedRecord(r) else r;
        }
        if status.Done? {
          status := GrowAndStore(d, w, r0, record, found.value.path, memoryMiB, size);
        }
      }
    }
  }

  /** The system volume and its disk are there, and the disk is no larger. */
  ghost predicate DiskAllows(w: World, id: MachineID, size: int) {
    SystemVolumeID(id) in w.volumes && HasDisk(w, id) && DiskSize(w, id) <= size
  }

  predicate IsResizable(r: MachineRecord, size: int) {
    (r.phase.Running? || r.phase.Stopped?) && r.storageBytes <= size
  }

  lemma StoppingKeepsTrace(status: Status, w: World, v: World, u: World, r0: MachineRecord, r: MachineRecord,
                           memoryMiB: int, size: int)
    requires ResizeTrace(w, v, r0, memoryMiB, size) && r.id == r0.id && r.id in v.machines && v.machines[r.id] == r
    requires r.phase.Running? && StopOutcome(status, v, u, r) && ResizePending(v, r.id, size)
    ensures ResizeTrace(w, u, r0, memoryMiB, size) && ResizePending(u, r.id, size) && v.log <= u.log
    ensures r == r0 && u.volumes == v.volumes && u.files == v.files
    ensures status.Done? ==> u.machines[r.id] == StoppedRecord(r0)
  {
    hide OtherRelaysKept, SystemVolumePath, ResizeImage;
  }

  /** The disk, if it is still too small, and then the record. */
  method GrowAndStore(d: Daemon, ghost w: World, ghost r0: MachineRecord, r: MachineRecord, path: DiskPath,
                      memoryMiB: int, size: int)
    returns (status: Status)
    requires d.Inv() && r.id in d.W().machines && d.W().machines[r.id] == r && r.id == r0.id && r.phase.Stopped?
    requires path == SystemVolumePath(r.id) && r.storageBytes <= size
    requires ResizePending(d.W(), r.id, size) && ResizeTrace(w, d.W(), r0, memoryMiB, size)
    modifies d, d.store
    ensures d.Inv() && ResizeTrace(w, d.W(), r0, memoryMiB, size) && old(d.W()).log <= d.W().log
    ensures status.Done? ==> ResizeFinal(w, d.W(), r0, memoryMiB, size)
    ensures old(d.faulted) ==> d.faulted
    ensures !d.faulted ==> (status.Done? <==> path in old(d.W()).files && |old(d.W()).files[path]| <= size)
  {
    hide FileStore.Valid, Good, Daemon.W, ResizeTrace, ResizePending, ResizeFinal, AfterTruncate, AfterUpdate, Core,
      MayUpdate, RelaysStored, RelaysStoredApart, PublishedStored, MayGrow, NotASystemDisk, SystemVolumePath,
      ResizedRecord;
    var actual;
    status, actual := d.FileSize(path);
    if status.Done? {
      if size < actual {
        status := Conflict;
      } else if size > actual {
        ghost var v := d.W();
        PendingGrowth(v, r, size);
        status := d.Truncate(path, size);
        if status.Done? {
          TruncateShape(v, r.id, size);
          GrowingKeepsTrace(w, v, d.W(), r0, r, memoryMiB, size);
        }
      }
      if status.Done? {
        status := StoreResized(d, w, r0, r, memoryMiB, size);
      }
    }
  }

  lemma PendingGrowth(v: World, r: MachineRecord, size: nat)
    requires Good(v) && r.id in v.machines && v.machines[r.id] == r && ResizePending(v, r.id, size)
    requires SystemVolumePath(r.id) in v.files && |v.files[SystemVolumePath(r.id)]| <= size
    ensures MayGrow(v, SystemVolumePath(r.id), size)
  {
    hide Good;
  }

  lemma TruncateShape(v: World, id: MachineID, size: nat)
    requires MayGrow(v, SystemVolumePath(id), size)
    ensures HasDisk(v, id)
    ensures var u := AfterTruncate(v, SystemVolumePath(id), size);
            u == v.(files := GrownFiles(v, id, size), log := u.log, abandoned := v.abandoned - {id}) && v.log <= u.log
  {
    hide ResizeImage, ResizePending;
  }

  lemma GrowingKeepsTrace(w: World, v: World, u: World, r0: MachineRecord, r: MachineRecord, memoryMiB: int, size: nat)
    requires ResizeTrace(w, v, r0, memoryMiB, size) && r.id == r0.id && v.machines[r.id] == r
    requires HasDisk(v, r.id) && DiskSize(v, r.id) < size && ResizePending(v, r.id, size)
    requires u == v.(files := GrownFiles(v, r.id, size), log := u.log, abandoned := v.abandoned - {r.id}) && v.log <= u.log
    ensures ResizeTrace(w, u, r0, memoryMiB, size) && ResizePending(u, r.id, size)
    ensures u.machines == v.machines && HasDisk(u, r.id) && DiskSize(u, r.id) == size
  {
    hide SystemVolumePath, ResizeImage;
    assert v.files == w.files;
  }

  method StoreResized(d: Daemon, ghost w: World, ghost r0: MachineRecord, r: MachineRecord, memoryMiB: int, size: int)
    returns (status: Status)
    requires d.Inv() && r.id in d.W().machines && d.W().machines[r.id] == r && r.id == r0.id && r.phase.Stopped?
    requires HasDisk(d.W(), r.id) && DiskSize(d.W(), r.id) == size && r.storageBytes <= size
    requires ResizeTrace(w, d.W(), r0, memoryMiB, size)
    modifies d, d.store
    ensures d.Inv() && ResizeTrace(w, d.W(), r0, memoryMiB, size) && old(d.W()).log <= d.W().log
    ensures status.Done? ==> ResizeFinal(w, d.W(), r0, memoryMiB, size)
    ensures old(d.faulted) ==> d.faulted
    ensures !d.faulted ==> status.Done?
  {
    hide FileStore.Valid, Good, Daemon.W, ResizeTrace, ResizeFinal, AfterUpdate, Core, MayUpdate, RelaysStored,
      RelaysStoredApart, PublishedStored, SystemVolumePath, ResizedRecord;
    ghost var v := d.W();
    GoodRelaysApart(v, r.id);
    ResizingIsAllowed(v, r, memoryMiB, size);
    StoringEndsTrace(w, v, r0, r, memoryMiB, size);
    status := d.UpdateMachine(ResizedRecord(r, memoryMiB, size));
  }

  lemma ResizingIsAllowed(w: World, r: MachineRecord, memoryMiB: int, size: int)
    requires Good(w) && r.id in w.machines && w.machines[r.id] == r && r.phase.Stopped?
    requires HasDisk(w, r.id) && DiskSize(w, r.id) == size && r.storageBytes <= size
    ensures MayUpdate(w, ResizedRecord(r, memoryMiB, size)) && ResizedRecord(r, memoryMiB, size).id == r.id
  {
    hide Good, Silent, MayUpdate, RelayPortsInRange, SystemVolumePath;
    StoredIsCoherent(w, r);
    NotRunningIsSilent(w, r);
    RestingIsAllowed(w, r, ResizedRecord(r, memoryMiB, size));
  }

  lemma StoringEndsTrace(w: World, v: World, r0: MachineRecord, r: MachineRecord, memoryMiB: int, size: int)
    requires ResizeTrace(w, v, r0, memoryMiB, size) && r.id == r0.id && r.id in v.machines && v.machines[r.id] == r
    requires HasDisk(v, r.id) && DiskSize(v, r.id) == size
    requires ResizedRecord(r, memoryMiB, size).id == r.id
    ensures var u := AfterUpdate(v, ResizedRecord(r, memoryMiB, size));
            ResizeTrace(w, u, r0, memoryMiB, size) && ResizeFinal(w, u, r0, memoryMiB, size) && v.log <= u.log
  {
    hide SystemVolumePath, ResolveMemory, ResizeImage;
    if v.files == w.files {
      SameSizeImage(w.files[SystemVolumePath(r.id)]);
      assert GrownFiles(w, r.id, size) == w.files;
    }
  }

  lemma SameSizeImage(image: Image)
    ensures ResizeImage(image, |image|) == image
  {
    assert image[..|image|] == image;
  }

  // -------------------------------------------------------------- the call

  function RequestedMemory(r: MachineRecord, memoryMiB: int): int {
    if memoryMiB <= 0 then r.memoryMiB else memoryMiB
  }

  function RequestedStorage(r: MachineRecord, storageBytes: int): int {
    if storageBytes <= 0 then r.storageBytes else storageBytes
  }

  function ResizeOpFor(id: MachineID, memoryMiB: int, size: int): OperationRecord {
    OperationRecord(id, ResizeOp, None, memoryMiB, size)
  }

  /** What one resize call leaves. A rejected or interrupted one keeps its
      journal entry, and the host is in a state of its trace. */
  ghost predicate ResizeOutcome(status: Status, w: World, v: World, id: MachineID, memoryMiB: int, storageBytes: int) {
    || (v == w && !status.Done?)
    || (&& id in w.machines
        && (var r := w.machines[id];
            var memory, size := RequestedMemory(r, memoryMiB), RequestedStorage(r, storageBytes);
            var j := AfterUpsert(w, ResizeOpFor(id, memory, size));
            if !status.Done? then ResizeTrace(j, v, r, memory, size)
            else if r.memoryMiB == memory && r.storageBytes == size then v == j || v == AfterClear(j, id)
            else exists u :: ResizeFinal(j, u, r, memory, size) && ResizeTrace(j, u, r, memory, size)
                             && (v == u || v == AfterClear(u, id))))
  }

  /** ResizeMachine. */
  method ResizeMachine(d: Daemon, id: MachineID, memoryMiB: int, storageBytes: int) returns (status: Status)
    requires d.Inv()
    modifies d, d.store
    ensures d.Inv() && ResizeOutcome(status, old(d.W()), d.W(), id, memoryMiB, storageBytes)
  {
    hide FileStore.Valid, Good, Daemon.W, ResizeTrace, AfterUpsert, AfterClear, ResizeFinal;
    ghost var w := d.W();
    var found;
    status, found := d.GetMachine(id);
    if status.Done? {
      var r := found.value;
      var memory, size := RequestedMemory(r, memoryMiB), RequestedStorage(r, storageBytes);
      var op := ResizeOpFor(id, memory, size);
      status := d.UpsertOperation(op);
      if status.Done? {
        JournalledResize(w, r, memory, size);
        ghost var u := d.W();
        if r.memoryMiB != memory || r.storageBytes != size {
          status := ResizeMachineRecord(d, u, r, r, memory, size);
          u := d.W();
          if status.Done? {
            status, found := d.GetMachine(id);
          }
        }
        if status.Done? {
          var _ := d.DeleteOperation(id);
        }
      }
    }
  }

  lemma JournalledResize(w: World, r: MachineRecord, memoryMiB: int, size: int)
    requires r.id in w.machines && w.machines[r.id] == r
    ensures var j := AfterUpsert(w, ResizeOpFor(r.id, memoryMiB, size));
            && ResizePending(j, r.id, size)
            && ResizeTrace(j, j, r, memoryMiB, size)
            && j.machines == w.machines
  {
    hide Torn, ResizeFinal, AfterUpsert;
  }

  /** The entry asks for something the machine's record refuses: its storage is
      larger, or its phase is neither Running nor Stopped. */
  ghost predicate ResizeRejected(w: World, op: OperationRecord) {
    && op.kind.ResizeOp?
    && op.memoryMiB > 0
    && op.storageBytes > 0
    && op.machineID in w.machines
    && !IsResizable(w.machines[op.machineID], op.storageBytes)
  }

  /** The entry cannot be replayed: it is rejected, or the system volume is not
      recorded, not there, or larger than asked for. */
  ghost predicate ResizeStuck(w: World, op: OperationRecord) {
    && op.kind.ResizeOp?
    && op.memoryMiB > 0
    && op.storageBytes > 0
    && op.machineID in w.machines
    && !(IsResizable(w.machines[op.machineID], op.storageBytes) && DiskAllows(w, op.machineID, op.storageBytes))
  }

  /** Of all volume records and disks, only the machine's own disk may differ. */
  ghost predicate ResizesOnly(w: World, v: World, id: MachineID) {
    v.volumes == w.volumes && SameFilesApart(w.files, v.files, {SystemVolumePath(id)})
  }

  /** reconcileResize. A rejected entry stays; without a failing step a stuck
      entry is the only reason for an error. */
  method ReconcileResize(d: Daemon, ghost w: World, ghost r0: MachineRecord, op: OperationRecord) returns (status: Status)
    requires d.Inv() && op.machineID == r0.id && op.kind.ResizeOp?
    requires op.machineID in d.W().journal && d.W().journal[op.machineID] == op
    requires op.machineID in d.W().machines ==> ResizeTrace(w, d.W(), r0, op.memoryMiB, op.storageBytes)
    modifies d, d.store
    ensures d.Inv() && HandlesOnly(old(d.W()), d.W(), op.machineID) && ResizesOnly(old(d.W()), d.W(), op.machineID)
    ensures status.Done? ==> op.machineID !in d.W().journal
    ensures ResizeRejected(old(d.W()), op) ==> !status.Done? && d.W() == old(d.W())
    ensures old(d.faulted) ==> d.faulted
    ensures !d.faulted ==> (status.Done? <==> !ResizeStuck(old(d.W()), op))
    ensures status.Done? && op.memoryMiB > 0 && op.storageBytes > 0 && op.machineID in old(d.W()).machines ==>
              exists u :: ResizeFinal(w, u, r0, op.memoryMiB, op.storageBytes)
                          && ResizeTrace(w, u, r0, op.memoryMiB, op.storageBytes) && d.W() == AfterClear(u, op.machineID)
  {
    hide FileStore.Valid, Good, Daemon.W, ResizeTrace, AfterClear, ResizeFinal, HandlesOnly, ResizesOnly, DiskAllows;
    ghost var v := d.W();
    ApartNothing(v, op.machineID);
    var found;
    status, found := d.GetMachine(op.machineID);
    if status.Done? && op.memoryMiB > 0 && op.storageBytes > 0 {
      status := ResizeMachineRecord(d, w, r0, found.value, op.memoryMiB, op.storageBytes);
      TraceKeepsJournal(w, v, d.W(), r0, op.memoryMiB, op.storageBytes);
    } else if status.NotFound? {
      status := Done;
    }
    ResizesNothing(v, d.W(), op.machineID);
    if status.Done? {
      ghost var u := d.W();
      ApartThenClear(v, u, op.machineID);
      status := d.DeleteOperation(op.machineID);
      ResizesThenClear(v, u, op.machineID);
    }
  }

  lemma ResizesNothing(v: World, u: World, id: MachineID)
    ensures u == v ==> ResizesOnly(v, u, id)
  {
  }

  lemma ResizesThenClear(v: World, u: World, id: MachineID)
    requires ResizesOnly(v, u, id)
    ensures ResizesOnly(v, AfterClear(u, id), id)
  {
    hide AfterClear, SystemVolumePath;
  }

  /** One machine's resize leaves the entries of the others as stuck as they were. */
  lemma OthersStuckStill(w: World, v: World, id: MachineID, op: OperationRecord)
    requires HandlesOnly(w, v, id) && ResizesOnly(w, v, id) && op.machineID != id
    ensures ResizeStuck(v, op) <==> ResizeStuck(w, op)
  {
    assert SystemVolumePath(op.machineID) !in {SystemVolumePath(id)};
  }

  lemma TraceKeepsJournal(w: World, v: World, u: World, r: MachineRecord, memoryMiB: int, size: int)
    requires ResizeTrace(w, v, r, memoryMiB, size) && ResizeTrace(w, u, r, memoryMiB, size) && v.log <= u.log
    ensures HandlesOnly(v, u, r.id) && ResizesOnly(v, u, r.id)
  {
    hide ResizeFinal, SystemVolumePath, ResizeImage;
  }
}
