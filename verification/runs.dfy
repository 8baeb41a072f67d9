/** Whole runs of the daemon: any sequence of requests, crashes, restarts and
    VM deaths, one operation at a time. */
module Runs {
  import opened Wrappers
  import opened Text
  import opened Model
  import opened Store
  import opened Network
  import opened Worlds
  import opened Daemons
  import opened Relays
  import opened PublishedPorts
  import opened Frames
  import opened Lifecycle
  import opened Resize
  import opened Deletion
  import opened CreationTrace
  import opened Creation
  import opened Snapshots
  import opened Restore
  import opened Reconciliation
  import opened History
  import Recovery
  import Startup
  import Networking

  datatype Request =
    | Create(create: CreateRequest)
    | Get(id: MachineID)
    | Start(id: MachineID)
    | Stop(id: MachineID)
    | ResizeTo(id: MachineID, memoryMiB: int, storageBytes: int)
    | Delete(id: MachineID)
    | Snapshot(id: MachineID, sid: SnapshotID)
    | ForgetSnapshot(sid: SnapshotID)
    | RestoreFrom(sid: SnapshotID, restore: RestoreRequest)
    | OpenExec(id: MachineID)
    | Publish(id: MachineID, portID: PortID, port: Port16)
    | Unpublish(id: MachineID, portID: PortID)
    | ReconcilePass
    | ProcessRestart
    | VmExit(pid: int)

  /** Requests about one machine's life. */
  method HandleMachine(d: Daemon, req: Request)
    requires d.Inv() && (req.Create? || req.Get? || req.Start? || req.Stop? || req.ResizeTo? || req.Delete?)
    modifies d, d.store
    ensures d.Inv() && old(d.W()).log <= d.W().log
  {
    hide FileStore.Valid, Good, Daemon.W, CreateOutcome, ReconcileOutcome, StartedOutcome, StoppedOutcome, ResizeOutcome,
      DeleteOutcome, BeforeLastWrite, DeleteBlocked;
    ghost var w := d.W();
    match req {
      case Create(create) =>
        ghost var cleanup;
        var status;
        status, cleanup := CreateMachine(d, create);
        LogOfCreate(status, w, d.W(), create, cleanup);
      case Get(id) =>
        var status, updated := ReconcileMachine(d, id);
        LogOfReconcile(status, w, d.W(), id, updated);
      case Start(id) =>
        var status := StartMachine(d, id);
        LogOfStart(status, w, d.W(), id);
      case Stop(id) =>
        var status := StopMachine(d, id);
        LogOfStop(status, w, d.W(), id);
      case ResizeTo(id, memoryMiB, storageBytes) =>
        var status := ResizeMachine(d, id, memoryMiB, storageBytes);
        LogOfResize(status, w, d.W(), id, memoryMiB, storageBytes);
      case Delete(id) =>
        ghost var cut;
        var status;
        status, cut := DeleteMachine(d, id);
        LogOfDelete(status, w, d.W(), id);
    }
  }

  lemma LogOfCreate(status: Status, w: World, v: World, req: CreateRequest, cleanup: Cleanup)
    requires CreateOutcome(status, w, v, req, cleanup)
    ensures w.log <= v.log
  {
    hide LeftAs, CreatedAs, SystemRecorded, AllAttached, OtherRecordsKept, VolumesCreating, FilesCreating;
  }

  lemma LogOfReconcile(status: Status, w: World, v: World, id: MachineID, updated: MachineRecord)
    requires ReconcileOutcome(status, w, v, id, updated)
    ensures w.log <= v.log
  {
  }

  lemma LogOfStart(status: Status, w: World, v: World, id: MachineID)
    requires StartedOutcome(status, w, v, id)
    ensures w.log <= v.log
  {
    hide TouchesJournalled;
    JournalOfTouches(w, v, id);
  }

  lemma LogOfStop(status: Status, w: World, v: World, id: MachineID)
    requires StoppedOutcome(status, w, v, id)
    ensures w.log <= v.log
  {
    hide TouchesJournalled;
    JournalOfTouches(w, v, id);
  }

  lemma LogOfTrace(j: World, v: World, r: MachineRecord, memoryMiB: int, size: int)
    requires ResizeTrace(j, v, r, memoryMiB, size)
    ensures j.log <= v.log && AfterClear(v, r.id).log == v.log
  {
    hide ResizeFinal;
  }

  lemma LogOfJournal(w: World, op: OperationRecord)
    ensures AfterUpsert(w, op).log == w.log && AfterClear(w, op.machineID).log == w.log
  {
  }

  lemma LogOfResize(status: Status, w: World, v: World, id: MachineID, memoryMiB: int, storageBytes: int)
    requires Good(w) && ResizeOutcome(status, w, v, id, memoryMiB, storageBytes)
    ensures w.log <= v.log
  {
    hide Good, ResizeTrace, ResizeFinal, AfterUpsert, AfterClear;
    if v != w || status.Done? {
      Recovery.RecordHasID(w, id);
      var r := w.machines[id];
      var memory, size := RequestedMemory(r, memoryMiB), RequestedStorage(r, storageBytes);
      var op := ResizeOpFor(id, memory, size);
      var j := AfterUpsert(w, op);
      LogOfJournal(w, op);
      LogOfJournal(j, op);
      if !status.Done? {
        LogOfTrace(j, v, r, memory, size);
      } else if r.memoryMiB != memory || r.storageBytes != size {
        var u :| ResizeFinal(j, u, r, memory, size) && ResizeTrace(j, u, r, memory, size)
                 && (v == u || v == AfterClear(u, id));
        LogOfTrace(j, u, r, memory, size);
      }
    }
  }

  lemma LogOfDelete(status: Status, w: World, v: World, id: MachineID)
    requires if id in w.machines then DeleteOutcome(status, w, v, id) else v == w
    ensures w.log <= v.log
  {
  }

  method HandleOther(d: Daemon, req: Request)
    requires d.Inv() && !(req.Create? || req.Get? || req.Start? || req.Stop? || req.ResizeTo? || req.Delete?)
    modifies d, d.store
    ensures d.Inv() && old(d.W()).log <= d.W().log
  {
    hide FileStore.Valid, Good, Daemon.W, SnapshotOutcome, RestoreOutcome, PortOutcome, AllInLine, WithRelays, WithPublished,
      WithPorts, RejectedStay, Rejected, RestoredFrom, BeforeLastWrite;
    ghost var w := d.W();
    match req {
      case Snapshot(id, sid) =>
        var status := CreateSnapshot(d, id, sid);
        LogOfSnapshot(status, w, d.W(), id, sid);
      case ForgetSnapshot(sid) =>
        var status := DeleteSnapshot(d, sid);
      case RestoreFrom(sid, restore) =>
        ghost var cleanup;
        var status;
        status, cleanup := RestoreSnapshot(d, sid, restore);
        LogOfRestore(status, w, d.W(), sid, restore, cleanup);
      case OpenExec(id) =>
        var status := EnsureExecRelay(d, id);
      case Publish(id, portID, port) =>
        var status := CreatePublishedPort(d, id, portID, port);
        LogOfPublish(status, w, d.W(), id, portID, port);
      case Unpublish(id, portID) =>
        var status := DeletePublishedPort(d, id, portID);
      case ReconcilePass =>
        var status := Reconcile(d);
      case ProcessRestart =>
        d.Restart();
      case VmExit(pid) =>
        d.LoseVm(pid);
    }
  }

  lemma LogOfSnapshot(status: Status, w: World, v: World, id: MachineID, sid: SnapshotID)
    requires SnapshotOutcome(status, w, v, id, sid)
    ensures w.log <= v.log
  {
    hide SnapshotComplete;
  }

  lemma LogOfRestore(status: Status, w: World, v: World, sid: SnapshotID, req: RestoreRequest, cleanup: Cleanup)
    requires RestoreOutcome(status, w, v, sid, req, cleanup)
    ensures w.log <= v.log
  {
    hide LeftAs, RestoredAs, SystemRecorded, RestoredFrom, OtherRecordsKept, VolumesRestoring, InsideDir;
  }

  lemma LogOfPublish(status: Status, w: World, v: World, machine: MachineID, id: PortID, port: Port16)
    requires PortOutcome(status, w, v, machine, id, port)
    ensures w.log <= v.log
  {
  }

  /** The disk of every machine that was there all along is as large as before,
      or larger. */
  ghost predicate DisksOnlyGrew(w: World, v: World)
    requires w.log <= v.log
  {
    forall id :: LivesThrough(v.log, id, |w.log|, |v.log|) && HasDisk(w, id) && HasDisk(v, id) ==>
      DiskSize(w, id) <= DiskSize(v, id)
  }

  lemma DisksDidOnlyGrow(w: World, v: World)
    requires Good(w) && Good(v) && w.log <= v.log
    ensures DisksOnlyGrew(w, v)
  {
    hide Good, LivesThrough, HasDisk, DiskSize;
    forall id | LivesThrough(v.log, id, |w.log|, |v.log|) && HasDisk(w, id) && HasDisk(v, id)
      ensures DiskSize(w, id) <= DiskSize(v, id)
    {
      DiskNeverShrinks(w, v, id);
    }
  }

  /** The safety of every run: whatever is asked, whatever fails and wherever
      the daemon is cut off, the invariant holds afterwards, no entry of the
      machines' history is lost, and no disk has shrunk. */
  method Serve(d: Daemon, requests: seq<Request>)
    requires d.Inv()
    modifies d, d.store
    ensures d.Inv() && old(d.W()).log <= d.W().log && DisksOnlyGrew(old(d.W()), d.W())
  {
    hide FileStore.Valid, Good, Daemon.W, DisksOnlyGrew;
    ghost var w := d.W();
    var i := 0;
    while i < |requests|
      invariant 0 <= i <= |requests| && d.Inv() && w.log <= d.W().log
    {
      var req := requests[i];
      if req.Create? || req.Get? || req.Start? || req.Stop? || req.ResizeTo? || req.Delete? {
        HandleMachine(d, req);
      } else {
        HandleOther(d, req);
      }
      i := i + 1;
    }
    DisksDidOnlyGrow(w, d.W());
  }

  /** A run from an empty host. */
  method ServeFresh(base: Prefix, requests: seq<Request>) returns (d: Daemon)
    requires base.Valid()
    ensures fresh(d) && d.Inv()
  {
    d := new Daemon(base);
    Serve(d, requests);
  }

  // ------------------------------------- what the invariant means for users

  /** Resources are never shared, in any reachable state. */
  lemma ResourcesAreUnique(w: World, a: MachineID, b: MachineID)
    requires Good(w) && a in w.machines && b in w.machines && a != b
    ensures IsLive(w.machines[a].phase) && IsLive(w.machines[b].phase) ==>
              && w.machines[a].runtimeHost != w.machines[b].runtimeHost
              && w.machines[a].tapDevice != w.machines[b].tapDevice
    ensures w.machines[a].phase.Running? && w.machines[b].phase.Running? ==>
              forall name: PortName :: HostPort(w.machines[a].ports, name) != 0 ==>
                HostPort(w.machines[a].ports, name) != HostPort(w.machines[b].ports, name)
  {
    hide HostPort, Coherent, LegalLog, Replay, SystemVolumeID, SystemVolumePath;
    assert NoNetworkClash(w.machines[a], w.machines[b]) || !IsLive(w.machines[a].phase) || !IsLive(w.machines[b].phase);
    if w.machines[a].phase.Running? && w.machines[b].phase.Running? {
      assert NoRelayClash(w.machines[a], w.machines[b]);
    }
  }

  /** Phase and fields agree, and the tap is the one its guest address names. */
  lemma RecordsAreCoherent(w: World, id: MachineID)
    requires Good(w) && id in w.machines
    ensures var r := w.machines[id];
            && (!IsLive(r.phase) ==>
                  r.pid == 0 && r.socketPath == "" && r.runtimeHost == "" && r.tapDevice == "" && r.startedAt.None?
                  && r.readyNonce == "")
            && (r.phase.Running? ==> r.readyNonce == "")
            && (IsLive(r.phase) ==>
                  exists i: nat :: i < w.base.Subnets()
                    && r.runtimeHost == DottedQuad(NetworkForIndex(w.base, i).guestIP)
                    && r.tapDevice == NetworkForIndex(w.base, i).tapName
                    && AllocationFromGuestIP(r.runtimeHost, r.tapDevice) == Some(NetworkForIndex(w.base, i)))
  {
    hide Good, HostPort, NetworkForIndex, DottedQuad, AllocationFromGuestIP, Trimmed, SystemVolumeID, TrimSpace;
    Recovery.RecordHasID(w, id);
    Startup.StoredIsCoherent(w, w.machines[id]);
    if IsLive(w.machines[id].phase) {
      var i := Networking.LiveMachineHasNetwork(w, w.machines[id]);
    }
  }
}
