/** When a disk has another size than its machine's record says. */
module DiskSizes {
  import opened Model
  import opened Worlds
  import opened Frames
  import opened Lifecycle
  import opened Resize
  import opened Snapshots

  /** In every state of a run: a disk is never smaller than its record says, and
      larger without the resize that grew it being pending exactly for the
      machines in `abandoned`. */
  lemma AbandonedExactly(w: World, id: MachineID)
    requires Good(w) && id in w.machines && HasDisk(w, id)
    ensures w.machines[id].storageBytes <= DiskSize(w, id)
    ensures id in w.abandoned <==> DiskSize(w, id) != w.machines[id].storageBytes && !ResizePending(w, id, DiskSize(w, id))
  {
    hide RecordsCoherent, NetworksDistinct, RelayPortsDistinct, PortsDistinct, SystemVolumesPlaced, VolumesInMachineDirs,
      SnapshotsNamed, LegalLog, Replay, RelaysStored, PublishedStored, SystemVolumePath, ResizePending;
    assert DiskCovers(w, id);
  }

  /** As a start or a stop, a snapshot loses a pending resize: its check for pending
      operations lets it go on when the journal could not be listed. */
  lemma SnapshotForgetsTheResize(status: Status, w: World, v: World, id: MachineID, sid: SnapshotID)
    requires SnapshotOutcome(status, w, v, id, sid) && Good(w) && id in w.machines
    ensures AccountedAfter(w, v, id)
  {
    hide Good, SnapshotOutcome, AfterUpsert, SystemVolumePath;
    if v != w || status.Done? {
      SnapshotReplacesEntry(status, w, v, id, sid);
    }
  }

  lemma SnapshotReplacesEntry(status: Status, w: World, v: World, id: MachineID, sid: SnapshotID)
    requires SnapshotOutcome(status, w, v, id, sid) && Good(w) && (v != w || status.Done?)
    ensures v.machines == w.machines && OwnEntryAtMost(v, SnapshotOpFor(id, sid))
    ensures HasDisk(v, id) <==> HasDisk(w, id)
    ensures HasDisk(w, id) ==> DiskSize(v, id) == DiskSize(w, id)
  {
    hide Good, Snapshotting, SnapshotComplete, AfterUpsert, AfterClear, SystemVolumePath;
    KeyIsID(w, id);
    var r, j := w.machines[id], AfterUpsert(w, SnapshotOpFor(id, sid));
    if status.Done? {
      var u :| Snapshotting(j, u, r, sid) && (v == u || v == AfterClear(u, r.id));
      SnapshottingKeepsDisk(j, u, r, sid, id);
      assert AfterClear(u, r.id).machines == u.machines;
    } else {
      SnapshottingKeepsDisk(j, v, r, sid, id);
    }
  }

  lemma SnapshottingKeepsDisk(w: World, v: World, r: MachineRecord, sid: SnapshotID, id: MachineID)
    requires Snapshotting(w, v, r, sid)
    ensures v.machines == w.machines && v.journal == w.journal
    ensures HasDisk(v, id) <==> HasDisk(w, id)
    ensures HasDisk(w, id) ==> DiskSize(v, id) == DiskSize(w, id)
  {
    hide SnapshotComplete, VmsSnapshotting;
  }

  lemma KeyIsID(w: World, id: MachineID)
    requires Good(w) && id in w.machines
    ensures w.machines[id].id == id
  {
  }

  /** A completed resize settles the sizes, whatever was lost before; one that
      asks for what the record already says does nothing about it. */
  lemma ResizeSettlesTheSizes(w: World, v: World, id: MachineID, memoryMiB: int, storageBytes: int)
    requires Good(w) && ResizeOutcome(Done, w, v, id, memoryMiB, storageBytes) && id in w.machines
    ensures var r := w.machines[id];
            SizeAccounted(v, id) <==>
              !Torn(w, id) || RequestedMemory(r, memoryMiB) != r.memoryMiB || RequestedStorage(r, storageBytes) != r.storageBytes
  {
    hide Good, ResizeTrace, AfterUpsert, AfterClear, StoppedRecord, SystemVolumePath, ResizeImage;
    KeyIsID(w, id);
    var r := w.machines[id];
    var memory, size := RequestedMemory(r, memoryMiB), RequestedStorage(r, storageBytes);
    var j := AfterUpsert(w, ResizeOpFor(id, memory, size));
    if r.memoryMiB != memory || r.storageBytes != size {
      var u :| ResizeFinal(j, u, r, memory, size) && ResizeTrace(j, u, r, memory, size)
               && (v == u || v == AfterClear(u, id));
      assert v.machines == u.machines && v.files == u.files;
      assert u.machines[id].storageBytes == size;
    } else {
      assert v.machines == w.machines && v.files == w.files;
    }
  }
}
