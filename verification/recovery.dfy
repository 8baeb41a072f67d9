/** A call that is cut off anywhere, a restart, and the replay of whatever entry
    the machine then has in the journal: what the pair leaves. */
module Recovery {
  import opened Wrappers
  import opened Model
  import opened KeyedRows
  import opened Store
  import opened Network
  import opened Worlds
  import opened Daemons
  import opened Frames
  import opened Lifecycle
  import opened Resize
  import opened Deletion
  import opened CreationTrace
  import opened Creation
  import opened SnapshotDrives
  import opened Snapshots
  import opened Restore
  import opened Reconciliation

  ghost function AfterRestart(w: World): (v: World)
    ensures v.machines == w.machines && v.journal == w.journal && v.volumes == w.volumes && v.log == w.log
    ensures v.snapshots == w.snapshots && v.files == w.files && v.vms == w.vms
  {
    w.(relays := map[], published := map[], missed := false)
  }

  lemma RestartedWorld(v: World)
    ensures AfterRestart(v) == v.(relays := map[], published := map[], missed := false)
  {
  }

  lemma RecordHasID(w: World, id: MachineID)
    requires Good(w) && id in w.machines
    ensures w.machines[id].id == id
  {
  }

  /** The call itself did nothing; after the restart only an entry that was
      already there has been replayed. */
  ghost predicate Unbegun(w: World, u: World, id: MachineID) {
    var s := AfterRestart(w);
    if id !in s.journal then u == s
    else HandlesOnly(s, u, id) && exists removed, resumed ::
           HandledAs(s, s, u, CurrentRecord(s, id), s.journal[id], removed, resumed)
  }

  /** The entry of one machine, as the reconcile pass lists it. */
  method PendingOperation(d: Daemon, id: MachineID) returns (status: Status, op: Option<OperationRecord>)
    requires d.Inv()
    modifies d`halted, d`faulted
    ensures d.Inv() && d.W() == old(d.W())
    ensures status.Done? ==> op == if id in d.W().journal then Some(d.W().journal[id]) else None
    ensures status.Done? && op.Some? ==> op.value.machineID == id
  {
    hide FileStore.Valid, Good, Daemon.W, Index;
    op := None;
    var rows;
    status, rows := d.ListOperations();
    if status.Done? {
      IndexHolds(rows, OperationKey);
      var i := Find(rows, OperationKey, id);
      if i < |rows| {
        op := Some(rows[i]);
      }
    }
  }

  /** The restart and the replay. The entry of one's own call, if `own`, was
      journalled in `j` for the record `r`; any other entry is an older one. */
  method RestartAndReplay(d: Daemon, ghost j: World, ghost r: MachineRecord, id: MachineID, ghost own: bool)
    returns (status: Status, ghost removed: bool, ghost resumed: bool)
    requires d.Inv() && r.id == id
    requires own && id in d.W().journal ==> Interrupted(j, AfterRestart(d.W()), r, d.W().journal[id])
    modifies d, d.store
    ensures d.Inv() && HandlesOnly(AfterRestart(old(d.W())), d.W(), id)
    ensures status.Done? && !own ==> Unbegun(old(d.W()), d.W(), id)
    ensures status.Done? && own && id in old(d.W()).journal ==>
              && old(d.W()).journal[id].machineID == id
              && HandledAs(j, AfterRestart(old(d.W())), d.W(), r, old(d.W()).journal[id], removed, resumed)
    ensures id !in old(d.W()).journal ==> d.W() == AfterRestart(old(d.W()))
    ensures own && (id in old(d.W()).journal ==> old(d.W()).journal[id].kind.DeleteOp?) ==>
              && Deleting(AfterRestart(old(d.W())), d.W(), id)
              && (DeleteBlocked(AfterRestart(old(d.W())), id) ==> DeleteBlocked(d.W(), id))
  {
    hide FileStore.Valid, Good, Daemon.W, HandledAs, Interrupted, HandlesOnly, CurrentRecord, Deleting, DeleteBlocked,
      ResizesOnly, ResizeStuck, ResizeRejected;
    removed, resumed := true, true;
    ghost var v := d.W();
    d.Restart();
    RestartedWorld(v);
    ghost var s := d.W();
    ApartNothing(s, id);
    DeletingNothing(s, id);
    var op;
    status, op := PendingOperation(d, id);
    if status.Done? && op.Some? {
      CurrentHasID(s, id);
      NothingInterrupted(s, CurrentRecord(s, id), op.value);
      ghost var base, record := if own then j else s, if own then r else CurrentRecord(s, id);
      status, removed, resumed := ReconcileOperation(d, base, record, op.value);
    }
  }

  lemma JournalledOnly(w: World, op: OperationRecord)
    ensures var j := AfterUpsert(w, op);
            j == w.(journal := j.journal, abandoned := j.abandoned) && j.journal - {op.machineID} == w.journal - {op.machineID}
  {
    hide Torn;
  }

  // ------------------------------------------------------------- creation

  /** All or nothing: the machine is there, Running or Failed, or the store is
      back to where it was but for volumes that go with a machine. */
  ghost predicate CreatedOrUndone(w: World, u: World, id: MachineID) {
    || (&& id in u.machines
        && (u.machines[id].phase.Running? || u.machines[id].phase.Failed?)
        && OtherRecordsKept(w, u, id)
        && CreatingApart(w, u, id))
    || CreateUndone(w, u, id)
  }

  lemma CreatedSince(w: World, j: World, u: World, id: MachineID)
    requires j == w.(journal := j.journal, abandoned := j.abandoned) && j.journal - {id} == w.journal - {id}
    ensures CreatingApart(j, u, id) ==> CreatingApart(w, u, id)
    ensures OtherRecordsKept(j, u, id) ==> OtherRecordsKept(w, u, id)
    ensures CreateUndone(j, u, id) ==> CreateUndone(w, u, id)
  {
    hide VolumesCreating, SystemVolumeID, Releasable, Evolved, Swept;
  }

  lemma CreatingSurvivesRestart(w: World, v: World, id: MachineID)
    ensures Creating(w, v, id) ==> Creating(w, AfterRestart(v), id)
    ensures CreatingApart(w, v, id) ==> CreatingApart(w, AfterRestart(v), id)
    ensures OtherRecordsKept(w, v, id) ==> OtherRecordsKept(w, AfterRestart(v), id)
  {
    hide CreatingApart, SameApart;
    RestartApart(v, id);
    if CreatingApart(w, v, id) {
      ApartAfter(w, v, AfterRestart(v), id);
    }
  }

  lemma RestartApart(v: World, id: MachineID)
    ensures SameApart(v, AfterRestart(v), id)
  {
  }

  lemma CreationDone(w: World, v: World, req: CreateRequest, cleanup: Cleanup)
    requires CreateOutcome(Done, w, v, req, cleanup)
    ensures CreatedOrUndone(w, v, req.id)
  {
    hide CreatingApart, OtherRecordsKept, AllAttached, SystemRecorded, CreatedAs, CreateUndone, AfterUpsert;
    var op := CreateOpFor(req.id);
    JournalledOnly(w, op);
    CreatedSince(w, AfterUpsert(w, op), v, req.id);
  }

  lemma CreationCutOff(status: Status, w: World, v: World, req: CreateRequest, cleanup: Cleanup, r: MachineRecord)
    requires CreateOutcome(status, w, v, req, cleanup) && !status.Done? && v != w
    ensures var j := AfterUpsert(w, CreateOpFor(req.id));
            && req.id in v.journal
            && v.journal[req.id] == CreateOpFor(req.id)
            && CreateProgress(status, j, v, req, cleanup)
            && Interrupted(j, AfterRestart(v), r, CreateOpFor(req.id))
  {
    hide CreatingApart, OtherRecordsKept, AllAttached, SystemRecorded, CreatedAs, LeftAs;
    CreatingSurvivesRestart(AfterUpsert(w, CreateOpFor(req.id)), v, req.id);
  }

  lemma CreationReplayed(status: Status, w: World, v: World, u: World, req: CreateRequest, cleanup: Cleanup)
    requires CreateProgress(status, AfterUpsert(w, CreateOpFor(req.id)), v, req, cleanup) && !status.Done?
    requires CreateRecovered(AfterUpsert(w, CreateOpFor(req.id)), AfterRestart(v), u, req.id)
    ensures CreatedOrUndone(w, u, req.id)
  {
    hide CreatingApart, OtherRecordsKept, AllAttached, SystemRecorded, CreatedAs, CreateUndone, AfterUpsert, AfterRestart,
      SameApart, Creating;
    var op, id := CreateOpFor(req.id), req.id;
    var j, s := AfterUpsert(w, op), AfterRestart(v);
    JournalledOnly(w, op);
    CreatedSince(w, j, u, id);
    if id in v.machines {
      CreatingSurvivesRestart(j, v, id);
      ApartAfter(j, s, u, id);
      OthersKeptOver(j, s, u, id);
    }
  }

  lemma OthersKeptOver(w: World, v: World, u: World, id: MachineID)
    requires OtherRecordsKept(w, v, id) && OtherRecordsKept(v, u, id)
    ensures OtherRecordsKept(w, u, id)
  {
  }

  method CreateDespiteCrash(d: Daemon, req: CreateRequest) returns (status: Status)
    requires d.Inv() && req.id !in d.W().machines
    modifies d, d.store
    ensures d.Inv()
    ensures status.Done? ==> CreatedOrUndone(old(d.W()), d.W(), req.id) || Unbegun(old(d.W()), d.W(), req.id)
  {
    hide FileStore.Valid, Good, Daemon.W, CreateOutcome, CreateProgress, CreatedOrUndone, AfterRestart, Unbegun, Interrupted,
      CreateRecovered, HandlesOnly, AfterUpsert;
    ghost var w := d.W();
    ghost var cleanup;
    status, cleanup := CreateMachine(d, req);
    ghost var v := d.W();
    if status.Done? {
      CreationDone(w, v, req, cleanup);
    } else {
      ghost var r, first := NoMachine().(id := req.id), status;
      if v != w {
        CreationCutOff(first, w, v, req, cleanup, r);
      }
      ghost var removed, resumed;
      status, removed, resumed := RestartAndReplay(d, AfterUpsert(w, CreateOpFor(req.id)), r, req.id, v != w);
      if status.Done? && v != w {
        CreationReplayed(first, w, v, d.W(), req, cleanup);
      }
    }
  }

  // ------------------------------------------------------------- snapshot

  lemma SameSource(w: World, x: World, files: map<DiskPath, Image>, r: MachineRecord, sid: SnapshotID, n: nat)
    requires DisksCopied(w, files, r, sid, n) && x.files == w.files && x.volumes == w.volumes
    ensures DisksCopied(x, files, r, sid, n)
  {
    hide UserDriveName, SystemVolumePath;
    forall i: nat | i < n ensures UserCopied(x, files, r, sid, i) {
      assert UserCopied(w, files, r, sid, i);
    }
  }

  lemma SnapshottingSurvivesRestart(w: World, v: World, r: MachineRecord, sid: SnapshotID)
    requires Snapshotting(w, v, r, sid)
    ensures Snapshotting(AfterRestart(w), AfterRestart(v), r, sid)
  {
    hide FilesSnapshotting, VmsSnapshotting, SnapshotPaths, ArtifactsOf, DisksCopied;
    var x, y := AfterRestart(w), AfterRestart(v);
    SameFilesCopying(w.files, v.files, y.files, sid);
    SameVmsCopying(w.vms, v.vms, y.vms, r.pid);
    if SnapshotComplete(w, v, r, sid) {
      SameSource(w, x, v.files, r, sid, |r.userVolumeIDs|);
      SameCopies(x, v.files, y.files, r, sid, |r.userVolumeIDs|);
    }
  }

  /** The record with all its files, or neither record nor directory; the source
      VM is not paused and, after the latter, the journal is clear. */
  ghost predicate SnapshotAllOrNothing(w: World, u: World, r: MachineRecord, sid: SnapshotID) {
    && !Paused(u, r.pid)
    && if sid in u.snapshots then SnapshotComplete(w, u, r, sid)
       else u.snapshots == w.snapshots && NoSnapshotDir(u, sid) && r.id !in u.journal
  }

  lemma SnapshotDone(w: World, v: World, r: MachineRecord, sid: SnapshotID)
    requires r.id in w.machines && w.machines[r.id] == r && SnapshotOutcome(Done, w, v, r.id, sid)
    ensures SnapshotAllOrNothing(w, v, r, sid)
  {
    hide Snapshotting, SnapshotPaths, ArtifactsOf, DisksCopied, NoSnapshotDir, AfterUpsert, Torn;
  }

  lemma SnapshotCutOff(status: Status, w: World, v: World, r: MachineRecord, sid: SnapshotID)
    requires r.id in w.machines && w.machines[r.id] == r && !status.Done? && v != w
    requires SnapshotOutcome(status, w, v, r.id, sid)
    ensures var j, op := AfterUpsert(w, SnapshotOpFor(r.id, sid)), SnapshotOpFor(r.id, sid);
            && sid !in w.snapshots
            && r.id in v.journal
            && v.journal[r.id] == op
            && Interrupted(AfterRestart(j), AfterRestart(v), r, op)
  {
    hide FilesSnapshotting, VmsSnapshotting, SnapshotComplete, Torn;
    SnapshottingSurvivesRestart(AfterUpsert(w, SnapshotOpFor(r.id, sid)), v, r, sid);
  }

  lemma SnapshotReplayed(w: World, u: World, r: MachineRecord, sid: SnapshotID)
    requires SnapshotRecovered(AfterRestart(AfterUpsert(w, SnapshotOpFor(r.id, sid))), u, r, sid, true, true)
    ensures SnapshotAllOrNothing(w, u, r, sid)
  {
    hide SnapshotPaths, ArtifactsOf, NoSnapshotDir, DisksCopied, Torn;
    var x := AfterRestart(AfterUpsert(w, SnapshotOpFor(r.id, sid)));
    if sid in u.snapshots {
      SameSource(x, w, u.files, r, sid, |r.userVolumeIDs|);
    }
  }

  /** The two steps whose errors the handler ignores are reported as `removed`
      and `resumed`. */
  method SnapshotDespiteCrash(d: Daemon, id: MachineID, sid: SnapshotID)
    returns (status: Status, ghost removed: bool, ghost resumed: bool)
    requires d.Inv() && id in d.W().machines
    modifies d, d.store
    ensures d.Inv()
    ensures status.Done? && removed && resumed ==>
              || SnapshotAllOrNothing(old(d.W()), d.W(), old(d.W()).machines[id], sid)
              || Unbegun(old(d.W()), d.W(), id)
  {
    hide FileStore.Valid, Good, Daemon.W, SnapshotOutcome, SnapshotAllOrNothing, AfterRestart, Unbegun, Interrupted,
      SnapshotRecovered, HandlesOnly, AfterUpsert;
    ghost var w := d.W();
    ghost var r := w.machines[id];
    RecordHasID(w, id);
    removed, resumed := true, true;
    status := CreateSnapshot(d, id, sid);
    ghost var v := d.W();
    if status.Done? {
      SnapshotDone(w, v, r, sid);
    } else {
      if v != w {
        SnapshotCutOff(status, w, v, r, sid);
      }
      ghost var j := AfterRestart(AfterUpsert(w, SnapshotOpFor(id, sid)));
      status, removed, resumed := RestartAndReplay(d, j, r, id, v != w);
      if status.Done? && v != w && removed && resumed {
        UpsertKeepsSnapshots(w, SnapshotOpFor(id, sid));
        SnapshotReplayed(w, d.W(), r, sid);
      }
    }
  }

  lemma UpsertKeepsSnapshots(w: World, op: OperationRecord)
    ensures AfterRestart(AfterUpsert(w, op)).snapshots == w.snapshots
  {
  }

  // --------------------------------------------------------------- resize

  lemma ResizingSurvivesRestart(w: World, v: World, r: MachineRecord, memoryMiB: int, size: int)
    requires ResizeTrace(w, v, r, memoryMiB, size)
    ensures ResizeTrace(w, AfterRestart(v), r, memoryMiB, size)
    ensures v.journal == w.journal && r.id in v.machines
  {
    hide ResizeImage, SystemVolumePath;
  }

  /** Where an uninterrupted resize would have ended: the record and the disk
      are determined by the state the call started from. */
  ghost predicate ResizedAs(w: World, u: World, id: MachineID, memoryMiB: int, size: int) {
    && id in w.machines
    && id in u.machines
    && u.machines[id] == ResizedRecord(w.machines[id], memoryMiB, size)
    && size >= 0
    && HasDisk(w, id)
    && u.files == GrownFiles(w, id, size)
  }

  /** A request for what the machine already has: only its journal entry came,
      and perhaps went. */
  ghost predicate NothingToResize(w: World, u: World, r: MachineRecord, memoryMiB: int, size: int) {
    var j := AfterUpsert(w, ResizeOpFor(r.id, memoryMiB, size));
    r.memoryMiB == memoryMiB && r.storageBytes == size && (u == j || u == AfterClear(j, r.id))
  }

  /** The host a resize ends in, however often it was cut off. */
  ghost predicate ResizeSettled(w: World, u: World, r: MachineRecord, memoryMiB: int, storageBytes: int) {
    var memory, size := RequestedMemory(r, memoryMiB), RequestedStorage(r, storageBytes);
    ResizedAs(w, u, r.id, memory, size) || NothingToResize(w, u, r, memory, size)
  }

  lemma FinalIsResized(w: World, r: MachineRecord, u: World, memoryMiB: int, size: int)
    requires r.id in w.machines && w.machines[r.id] == r
    ensures var j := AfterUpsert(w, ResizeOpFor(r.id, memoryMiB, size));
            ResizeFinal(j, u, r, memoryMiB, size) ==>
              ResizedAs(w, u, r.id, memoryMiB, size) && ResizedAs(w, AfterClear(u, r.id), r.id, memoryMiB, size)
  {
    hide Torn, SystemVolumePath, ResizeImage, StoppedRecord;
    var j := AfterUpsert(w, ResizeOpFor(r.id, memoryMiB, size));
    assert j.files == w.files && AfterClear(u, r.id).files == u.files;
  }

  lemma ResizeIsDone(w: World, v: World, r: MachineRecord, memoryMiB: int, storageBytes: int)
    requires r.id in w.machines && w.machines[r.id] == r
    requires ResizeOutcome(Done, w, v, r.id, memoryMiB, storageBytes)
    ensures ResizeSettled(w, v, r, memoryMiB, storageBytes)
  {
    hide ResizeTrace, ResizeFinal, ResizedAs, AfterUpsert, AfterClear;
    var memory, size := RequestedMemory(r, memoryMiB), RequestedStorage(r, storageBytes);
    var j := AfterUpsert(w, ResizeOpFor(r.id, memory, size));
    if memory != r.memoryMiB || size != r.storageBytes {
      var u :| ResizeFinal(j, u, r, memory, size) && ResizeTrace(j, u, r, memory, size)
               && (v == u || v == AfterClear(u, r.id));
      FinalIsResized(w, r, u, memory, size);
    }
  }

  lemma ResizeCutOff(status: Status, w: World, v: World, r: MachineRecord, memoryMiB: int, storageBytes: int)
    requires r.id in w.machines && w.machines[r.id] == r && !status.Done? && v != w
    requires ResizeOutcome(status, w, v, r.id, memoryMiB, storageBytes)
    ensures var op := ResizeOpFor(r.id, RequestedMemory(r, memoryMiB), RequestedStorage(r, storageBytes));
            && r.id in v.journal
            && v.journal[r.id] == op
            && Interrupted(AfterUpsert(w, op), AfterRestart(v), r, op)
            && r.id in AfterRestart(v).machines
  {
    hide ResizeTrace, ResizeFinal, AfterUpsert, AfterClear;
    var memory, size := RequestedMemory(r, memoryMiB), RequestedStorage(r, storageBytes);
    var op := ResizeOpFor(r.id, memory, size);
    ResizingSurvivesRestart(AfterUpsert(w, op), v, r, memory, size);
  }

  lemma ResizeReplayed(w: World, u: World, r: MachineRecord, memoryMiB: int, storageBytes: int)
    requires r.id in w.machines && w.machines[r.id] == r
    requires var op := ResizeOpFor(r.id, RequestedMemory(r, memoryMiB), RequestedStorage(r, storageBytes));
             ResizeEnded(AfterUpsert(w, op), u, r, op)
    ensures ResizeSettled(w, u, r, memoryMiB, storageBytes)
  {
    hide ResizeTrace, ResizeFinal, ResizedAs, AfterUpsert, AfterClear;
    var memory, size := RequestedMemory(r, memoryMiB), RequestedStorage(r, storageBytes);
    var j := AfterUpsert(w, ResizeOpFor(r.id, memory, size));
    var t :| ResizeFinal(j, t, r, memory, size) && ResizeTrace(j, t, r, memory, size) && u == AfterClear(t, r.id);
    FinalIsResized(w, r, t, memory, size);
  }

  lemma RequestIsPositive(w: World, r: MachineRecord, memoryMiB: int, storageBytes: int)
    requires Good(w) && r.id in w.machines && w.machines[r.id] == r
    ensures RequestedMemory(r, memoryMiB) > 0 && RequestedStorage(r, storageBytes) > 0
  {
    assert Coherent(w.base, r);
  }

  /** A resize cut off anywhere and replayed ends as the uninterrupted call does. */
  method ResizeDespiteCrash(d: Daemon, id: MachineID, memoryMiB: int, storageBytes: int) returns (status: Status)
    requires d.Inv() && id in d.W().machines
    modifies d, d.store
    ensures d.Inv()
    ensures status.Done? ==>
              || ResizeSettled(old(d.W()), d.W(), old(d.W()).machines[id], memoryMiB, storageBytes)
              || Unbegun(old(d.W()), d.W(), id)
  {
    hide FileStore.Valid, Good, Daemon.W, ResizeOutcome, AfterRestart, Unbegun, Interrupted, ResizeEnded, ResizeSettled,
      HandlesOnly, AfterUpsert, RequestedMemory, RequestedStorage;
    ghost var w := d.W();
    ghost var r := w.machines[id];
    RecordHasID(w, id);
    RequestIsPositive(w, r, memoryMiB, storageBytes);
    status := ResizeMachine(d, id, memoryMiB, storageBytes);
    ghost var v := d.W();
    if status.Done? {
      ResizeIsDone(w, v, r, memoryMiB, storageBytes);
    } else {
      ghost var op := ResizeOpFor(id, RequestedMemory(r, memoryMiB), RequestedStorage(r, storageBytes));
      if v != w {
        ResizeCutOff(status, w, v, r, memoryMiB, storageBytes);
      }
      ghost var removed, resumed;
      status, removed, resumed := RestartAndReplay(d, AfterUpsert(w, op), r, id, v != w);
      if status.Done? && v != w {
        ResizeReplayed(w, d.W(), r, memoryMiB, storageBytes);
      }
    }
  }

  // --------------------------------------------------------------- delete

  lemma DeletingSurvivesRestart(w: World, v: World, id: MachineID)
    requires Deleting(w, v, id)
    ensures Deleting(w, AfterRestart(v), id)
    ensures DeleteBlocked(AfterRestart(v), id) <==> DeleteBlocked(v, id)
  {
    hide SystemVolumeID;
    DeletingStep(w, v, AfterRestart(v), id);
  }

  /** Nothing of the machine is left, and nothing else is gone. */
  ghost predicate DeletedAway(w: World, u: World, id: MachineID) {
    Deleting(w, u, id) && id !in u.machines && Swept(u, id)
  }

  lemma DeleteDone(w: World, v: World, id: MachineID)
    requires DeleteOutcome(Done, w, v, id)
    ensures DeletedAway(w, v, id)
  {
    hide Deleting, Gone, Swept;
    GoneIsCleared(v, id);
  }

  lemma DeleteReplayed(w: World, v: World, u: World, id: MachineID)
    requires Deleting(w, v, id) && Deleting(AfterRestart(v), u, id)
    ensures Deleting(w, u, id)
    ensures Cleared(u, id) ==> DeletedAway(w, u, id)
  {
    hide Deleting, Swept, AfterRestart;
    DeletingSurvivesRestart(w, v, id);
    DeletingThen(w, AfterRestart(v), u, id);
  }

  /** A delete cut off anywhere and replayed either reports an error or leaves
      nothing of the machine. One that was cut off between the last two writes
      stays stuck, whatever is tried. */
  method DeleteDespiteCrash(d: Daemon, id: MachineID) returns (status: Status)
    requires d.Inv() && id in d.W().machines
    modifies d, d.store
    ensures d.Inv()
    ensures status.Done? ==> DeletedAway(old(d.W()), d.W(), id) || Unbegun(old(d.W()), d.W(), id)
    ensures DeleteBlocked(old(d.W()), id) && status.Done? ==> Unbegun(old(d.W()), d.W(), id)
    ensures DeleteBlocked(old(d.W()), id) && id !in old(d.W()).journal ==> DeleteBlocked(d.W(), id)
  {
    hide FileStore.Valid, Good, Daemon.W, Deleting, Swept, AfterRestart, SystemVolumeID, Unbegun, HandlesOnly, DeletedAway,
      BeforeLastWrite, CutOff, Gone;
    ghost var w := d.W();
    ghost var cut;
    status, cut := DeleteMachine(d, id);
    ghost var v := d.W();
    if status.Done? {
      DeleteDone(w, v, id);
    } else {
      RecordHasID(w, id);
      DeletingSurvivesRestart(w, v, id);
      ghost var removed, resumed;
      status, removed, resumed := RestartAndReplay(d, w, w.machines[id], id, v != w);
      if v != w {
        DeleteReplayed(w, v, d.W(), id);
      }
    }
  }

  // -------------------------------------------------------------- restore

  lemma RestoringSurvivesRestart(w: World, v: World, id: MachineID)
    ensures Restoring(w, v, id) ==> Restoring(w, AfterRestart(v), id)
    ensures RestoringApart(w, v, id) ==> RestoringApart(w, AfterRestart(v), id)
    ensures Leftover(AfterRestart(v), id) <==> Leftover(v, id)
  {
    hide SystemVolumeID, RestoringApart, SameApart;
    RestartApart(v, id);
    if RestoringApart(w, v, id) {
      RestoredApart(w, v, AfterRestart(v), id);
    }
  }

  lemma RestoringSince(w: World, j: World, u: World, id: MachineID)
    requires j == w.(journal := j.journal, abandoned := j.abandoned) && j.journal - {id} == w.journal - {id}
    ensures Restoring(j, u, id) ==> Restoring(w, u, id)
    ensures RestoringApart(j, u, id) ==> RestoringApart(w, u, id)
  {
    hide VolumesRestoring, InsideDir;
  }

  /** The machine with the rest of the host as it was, or no machine, but the
      volume records that were made for it. */
  ghost predicate RestoredOrLeft(w: World, u: World, id: MachineID) {
    if id in u.machines then RestoringApart(w, u, id) else Restoring(w, u, id) && id !in u.journal
  }

  lemma RestoreDone(w: World, v: World, sid: SnapshotID, req: RestoreRequest, cleanup: Cleanup)
    requires RestoreOutcome(Done, w, v, sid, req, cleanup)
    ensures RestoredOrLeft(w, v, req.id)
  {
    hide RestoringApart, Restoring, RestoredFrom, OtherRecordsKept, LeftAs, AfterUpsert, SystemRecorded, RestoredAs;
    JournalledOnly(w, RestoreOpFor(req.id, sid));
    RestoringSince(w, AfterUpsert(w, RestoreOpFor(req.id, sid)), v, req.id);
  }

  lemma RestoreCutOff(status: Status, w: World, v: World, sid: SnapshotID, req: RestoreRequest, cleanup: Cleanup,
                      r: MachineRecord)
    requires RestoreOutcome(status, w, v, sid, req, cleanup) && !status.Done? && v != w
    ensures var j, op := AfterUpsert(w, RestoreOpFor(req.id, sid)), RestoreOpFor(req.id, sid);
            && RestoreProgress(status, j, v, sid, req, cleanup)
            && (req.id in v.journal ==> v.journal[req.id] == op && Interrupted(j, AfterRestart(v), r, op))
  {
    hide RestoringApart, RestoredFrom, OtherRecordsKept, LeftAs, SystemRecorded, RestoredAs;
    RestoringSurvivesRestart(AfterUpsert(w, RestoreOpFor(req.id, sid)), v, req.id);
  }

  lemma RestoreReplayed(status: Status, w: World, v: World, u: World, sid: SnapshotID, req: RestoreRequest,
                        cleanup: Cleanup)
    requires RestoreProgress(status, AfterUpsert(w, RestoreOpFor(req.id, sid)), v, sid, req, cleanup) && !status.Done?
    requires if req.id in v.journal then RestoreRecovered(AfterUpsert(w, RestoreOpFor(req.id, sid)), AfterRestart(v), u, req.id)
             else u == AfterRestart(v)
    ensures RestoredOrLeft(w, u, req.id)
  {
    hide RestoringApart, Restoring, RestoredFrom, OtherRecordsKept, LeftAs, AfterUpsert, SystemRecorded, RestoredAs,
      AfterRestart, SameApart, Leftover;
    var op, id := RestoreOpFor(req.id, sid), req.id;
    var j, s := AfterUpsert(w, op), AfterRestart(v);
    JournalledOnly(w, op);
    RestoringSurvivesRestart(j, v, id);
    RestoringSince(w, j, u, id);
    if id in v.machines && id in v.journal {
      RestoredApart(j, s, u, id);
    }
  }

  /** A restore cut off before its commit and replayed leaves the volume records
      it had made, and nothing else in the store; one cut off later leaves the
      machine, and the rest of the host as an uninterrupted one does. */
  method RestoreDespiteCrash(d: Daemon, sid: SnapshotID, req: RestoreRequest) returns (status: Status)
    requires d.Inv() && req.id !in d.W().machines
    modifies d, d.store
    ensures d.Inv()
    ensures status.Done? ==> RestoredOrLeft(old(d.W()), d.W(), req.id) || Unbegun(old(d.W()), d.W(), req.id)
  {
    hide FileStore.Valid, Good, Daemon.W, RestoreOutcome, RestoreProgress, RestoredOrLeft, AfterRestart, Unbegun,
      Interrupted, RestoreRecovered, HandlesOnly, AfterUpsert, Leftover, RestoredFrom;
    ghost var w := d.W();
    ghost var cleanup;
    status, cleanup := RestoreSnapshot(d, sid, req);
    ghost var v := d.W();
    if status.Done? {
      RestoreDone(w, v, sid, req, cleanup);
    } else {
      ghost var r, first, op := NoMachine().(id := req.id), status, RestoreOpFor(req.id, sid);
      if v != w {
        RestoreCutOff(first, w, v, sid, req, cleanup, r);
      }
      ghost var removed, resumed;
      status, removed, resumed := RestartAndReplay(d, AfterUpsert(w, op), r, req.id, v != w);
      if status.Done? && v != w {
        RestoreReplayed(first, w, v, d.W(), sid, req, cleanup);
      }
    }
  }
}
