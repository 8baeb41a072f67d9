/** Detaching a machine's volumes and deleting the machine. */
module Deletion {
  import opened Wrappers
  import opened Model
  import opened KeyedRows
  import opened Store
  import opened Network
  import opened Worlds
  import opened Daemons
  import opened PublishedPorts
  import opened Frames
  import opened Startup
  import opened Lifecycle

  predicate AttachedTo(v: VolumeRecord, id: MachineID) {
    v.attachedTo == Some(id)
  }

  ghost predicate NoneAttached(w: World, id: MachineID) {
    forall x :: x in w.volumes ==> !AttachedTo(w.volumes[x], id)
  }

  // --------------------------------------------------------- the volumes

  /** The volumes of one machine may have been detached, or removed if they are
      to go with it; no other volume has changed. */
  ghost predicate VolumesDetached(before: map<VolumeID, VolumeRecord>, after: map<VolumeID, VolumeRecord>, id: MachineID) {
    && (forall x :: x in after ==> x in before && VolumeDetached(before[x], after[x], id))
    && (forall x :: x in before && x !in after ==> AttachedTo(before[x], id) && before[x].deleteOnMachineDelete)
  }

  predicate VolumeDetached(before: VolumeRecord, after: VolumeRecord, id: MachineID) {
    || after == before
    || (AttachedTo(before, id) && !before.deleteOnMachineDelete && after == before.(attachedTo := None))
  }

  /** A path that belongs to a volume which goes with the machine. */
  ghost predicate ManagedPath(volumes: map<VolumeID, VolumeRecord>, path: DiskPath, id: MachineID) {
    exists x :: x in volumes && AttachedTo(volumes[x], id) && volumes[x].deleteOnMachineDelete && volumes[x].path == path
  }

  ghost predicate FilesDetached(w: World, files: map<DiskPath, Image>, id: MachineID) {
    && (forall path :: path in files ==> path in w.files && files[path] == w.files[path])
    && (forall path :: path in w.files && path !in files ==> ManagedPath(w.volumes, path, id))
  }

  ghost predicate Detaching(w: World, v: World, id: MachineID) {
    && v == WithDisks(WithVolumes(w, v.volumes), v.files, w.dirs)
    && VolumesDetached(w.volumes, v.volumes, id)
    && FilesDetached(w, v.files, id)
  }

  lemma DetachingNothing(w: World, id: MachineID)
    ensures Detaching(w, w, id)
  {
  }

  lemma DetachingThen(w: World, v: World, u: World, id: MachineID)
    requires Detaching(w, v, id) && Detaching(v, u, id)
    ensures Detaching(w, u, id)
  {
    forall path | path in w.files && path !in u.files
      ensures ManagedPath(w.volumes, path, id)
    {
      if path in v.files {
        var x :| x in v.volumes && AttachedTo(v.volumes[x], id) && v.volumes[x].deleteOnMachineDelete
                 && v.volumes[x].path == path;
        assert w.volumes[x] == v.volumes[x];
      }
    }
  }

  ghost predicate SameVolumesApart(before: map<VolumeID, VolumeRecord>, after: map<VolumeID, VolumeRecord>, x: VolumeID) {
    before - {x} == after - {x}
  }

  ghost predicate Unattached(volumes: map<VolumeID, VolumeRecord>, x: VolumeID, id: MachineID) {
    x in volumes ==> !AttachedTo(volumes[x], id)
  }

  /** One round of the loop. */
  method DetachVolume(d: Daemon, id: MachineID, volume: VolumeRecord) returns (status: Status)
    requires d.Inv() && volume.id in d.W().volumes && d.W().volumes[volume.id] == volume && AttachedTo(volume, id)
    modifies d`halted, d`faulted, d`files, d.store
    ensures old(d.faulted) ==> d.faulted
    ensures !d.faulted ==> status.Done?
    ensures d.Inv() && Detaching(old(d.W()), d.W(), id)
    ensures SameVolumesApart(old(d.W()).volumes, d.W().volumes, volume.id)
    ensures status.Done? ==> Unattached(d.W().volumes, volume.id, id)
  {
    hide FileStore.Valid, Good, Daemon.W, Detaching, SameVolumesApart, WithVolumes, WithDisks, MayPlaceVolume;
    ghost var w := d.W();
    DetachingNothing(w, id);
    ApartFromNothing(w, volume.id);
    if volume.deleteOnMachineDelete {
      status := d.RemoveFile(volume.path);
      ghost var v := d.W();
      RemovingManaged(w, v, id, volume);
      if status.Done? {
        status := d.DeleteVolume(volume.id);
        DroppingManaged(w, v, d.W(), id, volume);
        if status.NotFound? {
          status := Done;
        }
      }
    } else {
      StoredVolumeStays(w, volume, volume.(attachedTo := None));
      DetachingOne(w, id, volume);
      status := d.UpdateVolume(volume.(attachedTo := None));
    }
  }

  lemma ApartFromNothing(w: World, x: VolumeID)
    ensures SameVolumesApart(w.volumes, w.volumes, x)
  {
  }

  lemma RemovingManaged(w: World, v: World, id: MachineID, volume: VolumeRecord)
    requires volume.id in w.volumes && w.volumes[volume.id] == volume && AttachedTo(volume, id)
    requires volume.deleteOnMachineDelete
    requires v == w || v == WithDisks(w, w.files - {volume.path}, w.dirs)
    ensures Detaching(w, v, id) && v.volumes == w.volumes
  {
    assert ManagedPath(w.volumes, volume.path, id);
  }

  lemma DroppingManaged(w: World, v: World, u: World, id: MachineID, volume: VolumeRecord)
    requires Detaching(w, v, id) && v.volumes == w.volumes
    requires volume.id in w.volumes && w.volumes[volume.id] == volume && AttachedTo(volume, id)
    requires volume.deleteOnMachineDelete
    requires u == v || u == WithVolumes(v, v.volumes - {volume.id})
    ensures Detaching(w, u, id) && SameVolumesApart(w.volumes, u.volumes, volume.id)
  {
    DetachingThen(w, v, u, id);
  }

  lemma StoredVolumeStays(w: World, volume: VolumeRecord, updated: VolumeRecord)
    requires Good(w) && volume.id in w.volumes && w.volumes[volume.id] == volume
    requires updated == volume.(attachedTo := updated.attachedTo)
    ensures MayPlaceVolume(w, updated)
  {
    hide SystemVolumeID, SystemVolumePath, HostPort, RecordsCoherent, LegalLog, Replay;
  }

  lemma DetachingOne(w: World, id: MachineID, volume: VolumeRecord)
    requires volume.id in w.volumes && w.volumes[volume.id] == volume && AttachedTo(volume, id)
    requires !volume.deleteOnMachineDelete
    ensures var u := WithVolumes(w, w.volumes[volume.id := volume.(attachedTo := None)]);
            Detaching(w, u, id) && SameVolumesApart(w.volumes, u.volumes, volume.id)
            && Unattached(u.volumes, volume.id, id)
  {
  }

  /** Rows before `i` are no longer attached, rows from `i` on are as listed. */
  ghost predicate DetachProgress(volumes: map<VolumeID, VolumeRecord>, rows: seq<VolumeRecord>, i: nat, id: MachineID) {
    && (forall k :: i <= k < |rows| ==> rows[k].id in volumes && volumes[rows[k].id] == rows[k])
    && (forall k :: 0 <= k < i && k < |rows| ==> Unattached(volumes, rows[k].id, id))
  }

  lemma DetachStep(before: map<VolumeID, VolumeRecord>, after: map<VolumeID, VolumeRecord>, rows: seq<VolumeRecord>,
                   i: nat, id: MachineID)
    requires Unique(rows, VolumeKey) && i < |rows| && DetachProgress(before, rows, i, id)
    requires SameVolumesApart(before, after, rows[i].id) && Unattached(after, rows[i].id, id)
    ensures DetachProgress(after, rows, i + 1, id)
  {
    forall k | 0 <= k < |rows| && k != i
      ensures rows[k].id in before <==> rows[k].id in after
      ensures rows[k].id in before ==> before[rows[k].id] == after[rows[k].id]
    {
      assert VolumeKey(rows[k]) != VolumeKey(rows[i]);
      assert rows[k].id in before - {rows[i].id} <==> rows[k].id in after - {rows[i].id};
      assert rows[k].id in before ==> (before - {rows[i].id})[rows[k].id] == (after - {rows[i].id})[rows[k].id];
    }
  }

  lemma DetachStart(volumes: map<VolumeID, VolumeRecord>, rows: seq<VolumeRecord>, id: MachineID)
    requires Unique(rows, VolumeKey) && Index(rows, VolumeKey) == volumes
    ensures DetachProgress(volumes, rows, 0, id)
  {
    IndexHolds(rows, VolumeKey);
    forall k | 0 <= k < |rows|
      ensures rows[k].id in volumes && volumes[rows[k].id] == rows[k]
    {
      assert VolumeKey(rows[k]) in volumes;
    }
  }

  lemma DetachEnd(w: World, v: World, rows: seq<VolumeRecord>, id: MachineID)
    requires Unique(rows, VolumeKey) && Index(rows, VolumeKey) == w.volumes
    requires Detaching(w, v, id) && DetachProgress(v.volumes, rows, |rows|, id)
    ensures NoneAttached(v, id)
  {
    hide Index, FilesDetached, AttachedTo;
    IndexHolds(rows, VolumeKey);
    forall x | x in v.volumes
      ensures !AttachedTo(v.volumes[x], id)
    {
      var k :| 0 <= k < |rows| && VolumeKey(rows[k]) == x;
      assert Unattached(v.volumes, rows[k].id, id);
    }
  }

  /** detachVolumesForMachine. */
  method DetachVolumesFor(d: Daemon, id: MachineID) returns (status: Status)
    requires d.Inv()
    modifies d`halted, d`faulted, d`files, d.store
    ensures old(d.faulted) ==> d.faulted
    ensures !d.faulted ==> status.Done?
    ensures d.Inv() && Detaching(old(d.W()), d.W(), id)
    ensures status.Done? ==> NoneAttached(d.W(), id)
  {
    hide FileStore.Valid, Good, Daemon.W, Detaching, DetachProgress, SameVolumesApart, Index, Unique, NoneAttached;
    ghost var w := d.W();
    DetachingNothing(w, id);
    var rows;
    status, rows := d.ListVolumes();
    if status.Done? {
      DetachStart(w.volumes, rows, id);
      var i := 0;
      while i < |rows| && status.Done?
        invariant 0 <= i <= |rows| && d.Inv() && Detaching(w, d.W(), id)
        invariant (old(d.faulted) ==> d.faulted) && (!d.faulted ==> status.Done?)
        invariant status.Done? ==> DetachProgress(d.W().volumes, rows, i, id)
      {
        ghost var v := d.W();
        RowIsStored(v.volumes, rows, i, id);
        ApartFromNothing(v, rows[i].id);
        if AttachedTo(rows[i], id) {
          status := DetachVolume(d, id, rows[i]);
          DetachingThen(w, v, d.W(), id);
        }
        if status.Done? {
          DetachStep(v.volumes, d.W().volumes, rows, i, id);
        }
        i := i + 1;
      }
      if status.Done? {
        DetachEnd(w, d.W(), rows, id);
      }
    }
  }

  lemma RowIsStored(volumes: map<VolumeID, VolumeRecord>, rows: seq<VolumeRecord>, i: nat, id: MachineID)
    requires i < |rows| && DetachProgress(volumes, rows, i, id)
    ensures rows[i].id in volumes && volumes[rows[i].id] == rows[i]
  {
  }

  // ------------------------------------------------------------- deleting

  /** What deleting one machine may have done so far, at any point and over any
      number of attempts. */
  ghost predicate Deleting(w: World, v: World, id: MachineID) {
    && v.base == w.base
    && v.snapshots == w.snapshots
    && w.log <= v.log
    && v.journal - {id} == w.journal - {id}
    && OtherRecordsKept(w, v, id)
    && (id in v.machines ==> id in w.machines && v.machines[id] == w.machines[id])
    && VolumesDeleting(w.volumes, v.volumes, id)
    && PortsDeleting(w.ports, v.ports, id)
    && FilesSwept(w, v, id)
  }

  /** Files outside the machine's directory survive, except those of volumes
      that go with the machine. */
  ghost predicate FilesSwept(w: World, v: World, id: MachineID) {
    && (forall path :: path in v.files ==> path in w.files && v.files[path] == w.files[path])
    && (forall path :: path in w.files && path !in v.files ==>
          path.dir == MachineDir(id) || ManagedPath(w.volumes, path, id))
  }

  ghost predicate VolumesDeleting(before: map<VolumeID, VolumeRecord>, after: map<VolumeID, VolumeRecord>, id: MachineID) {
    && (forall x :: x in after ==> x in before && VolumeDetached(before[x], after[x], id))
    && (forall x :: x in before && x !in after ==>
          x == SystemVolumeID(id) || (AttachedTo(before[x], id) && before[x].deleteOnMachineDelete))
  }

  ghost predicate PortsDeleting(before: map<PortID, PublishedPortRecord>, after: map<PortID, PublishedPortRecord>, id: MachineID) {
    && (forall p :: p in after ==> p in before && after[p] == before[p])
    && (forall p :: p in before && p !in after ==> before[p].machineID == id)
  }

  lemma JournalOfDeleting(w: World, v: World, id: MachineID)
    requires Deleting(w, v, id)
    ensures HandlesOnly(w, v, id)
  {
  }

  lemma DeletingNothing(w: World, id: MachineID)
    ensures Deleting(w, w, id)
  {
  }

  lemma DeletingThen(w: World, v: World, u: World, id: MachineID)
    requires Deleting(w, v, id) && Deleting(v, u, id)
    ensures Deleting(w, u, id)
  {
    hide SystemVolumeID, FilesSwept;
    SweptThen(w, v, u, id);
  }

  lemma SweptThen(w: World, v: World, u: World, id: MachineID)
    requires FilesSwept(w, v, id) && FilesSwept(v, u, id) && VolumesDeleting(w.volumes, v.volumes, id)
    ensures FilesSwept(w, u, id)
  {
    hide SystemVolumeID;
    forall path | path in w.files && path !in u.files && path.dir != MachineDir(id)
      ensures ManagedPath(w.volumes, path, id)
    {
      if path in v.files {
        var x :| x in v.volumes && AttachedTo(v.volumes[x], id) && v.volumes[x].deleteOnMachineDelete
                 && v.volumes[x].path == path;
        assert VolumeDetached(w.volumes[x], v.volumes[x], id);
      }
    }
  }

  lemma SystemFileSwept(v: World, id: MachineID)
    ensures FilesSwept(v, v, id)
    ensures FilesSwept(v, WithDisks(v, v.files - {SystemVolumePath(id)}, v.dirs), id)
  {
  }

  lemma RemovedSwept(v: World, u: World, id: MachineID)
    requires SomeRemoved(v.files, u.files, MachineDir(id))
    ensures FilesSwept(v, u, id)
  {
  }

  lemma DetachedSwept(v: World, u: World, id: MachineID)
    requires FilesDetached(v, u.files, id)
    ensures FilesSwept(v, u, id)
  {
    hide ManagedPath;
  }

  lemma SameFilesSwept(w: World, v: World, u: World, id: MachineID)
    requires FilesSwept(w, v, id) && u.files == v.files
    ensures FilesSwept(w, u, id)
  {
  }

  /** Steps that leave the stored records alone. */
  lemma DeletingStep(w: World, v: World, u: World, id: MachineID)
    requires Deleting(w, v, id)
    requires u.base == v.base && u.snapshots == v.snapshots && u.journal == v.journal && u.machines == v.machines
    requires u.volumes == v.volumes && u.ports == v.ports && v.log <= u.log && u.files == v.files
    ensures Deleting(w, u, id)
  {
    hide SystemVolumeID, FilesSwept;
    SameFilesSwept(w, v, u, id);
  }

  lemma DeletingDisks(w: World, v: World, u: World, id: MachineID)
    requires Deleting(w, v, id) && (u == v || u == WithDisks(v, u.files, u.dirs)) && FilesSwept(v, u, id)
    ensures Deleting(w, u, id) && u.volumes == v.volumes
    ensures Silent(v, id) ==> Silent(u, id)
    ensures NoneAttached(v, id) ==> NoneAttached(u, id)
  {
    hide SystemVolumeID, FilesSwept;
    SweptThen(w, v, u, id);
  }

  lemma DeletingVms(w: World, v: World, u: World, id: MachineID)
    requires Deleting(w, v, id) && u == WithVms(v, u.vms)
    ensures Deleting(w, u, id) && u.volumes == v.volumes
    ensures Silent(v, id) ==> Silent(u, id)
  {
    DeletingStep(w, v, u, id);
  }

  lemma DeletingListeners(w: World, v: World, u: World, id: MachineID)
    requires Deleting(w, v, id) && u == WithPublished(WithRelays(v, u.relays), u.published, u.missed)
    ensures Deleting(w, u, id) && u.volumes == v.volumes
  {
    DeletingStep(w, v, u, id);
  }

  lemma DeletingDetached(w: World, v: World, u: World, id: MachineID)
    requires Deleting(w, v, id) && Detaching(v, u, id)
    ensures Deleting(w, u, id)
    ensures Silent(v, id) ==> Silent(u, id)
  {
    hide SystemVolumeID, FilesDetached, FilesSwept, ManagedPath;
    DetachedSwept(v, u, id);
    assert Deleting(v, u, id);
    DeletingThen(w, v, u, id);
  }

  lemma DeletingSystemVolume(w: World, v: World, id: MachineID)
    requires Deleting(w, v, id)
    ensures var u := WithVolumes(v, v.volumes - {SystemVolumeID(id)});
            Deleting(w, u, id) && (Silent(v, id) ==> Silent(u, id)) && (NoneAttached(v, id) ==> NoneAttached(u, id))
            && u.files == v.files && u.dirs == v.dirs
  {
    hide SystemVolumeID;
    var u := WithVolumes(v, v.volumes - {SystemVolumeID(id)});
    assert Deleting(v, u, id);
    DeletingThen(w, v, u, id);
  }

  lemma DeletingRecord(w: World, v: World, id: MachineID)
    requires Deleting(w, v, id) && id in v.machines
    ensures var u := AfterDelete(v, id);
            Deleting(w, u, id) && u.volumes == v.volumes && u.files == v.files && u.dirs == v.dirs
  {
    hide SystemVolumeID;
    var u := AfterDelete(v, id);
    assert Deleting(v, u, id);
    DeletingThen(w, v, u, id);
  }

  lemma DeletingJournal(w: World, v: World, u: World, id: MachineID)
    requires Deleting(w, v, id) && OnlyJournalOf(v, u, id)
    ensures Deleting(w, u, id)
  {
    hide SystemVolumeID;
    assert Deleting(v, u, id);
    DeletingThen(w, v, u, id);
  }

  /** The published ports of the machine leave the store, errors ignored. */
  method ForgetPorts(d: Daemon, id: MachineID)
    requires d.Inv() && Silent(d.W(), id)
    modifies d`halted, d`faulted, d.store
    ensures old(d.faulted) ==> d.faulted
    ensures d.Inv() && Silent(d.W(), id) && Deleting(old(d.W()), d.W(), id)
    ensures d.W() == WithPorts(old(d.W()), d.W().ports) && d.W().volumes == old(d.W()).volumes
  {
    hide FileStore.Valid, Good, Daemon.W, Deleting, Silent, WithPorts, PortsDeleting;
    ghost var w := d.W();
    DeletingNothing(w, id);
    SamePorts(w, id);
    var status, records := d.ListPublishedPorts(Some(id));
    if status.Done? {
      var i := 0;
      while i < |records|
        invariant 0 <= i <= |records| && d.Inv() && Silent(d.W(), id) && (old(d.faulted) ==> d.faulted)
        invariant d.W() == WithPorts(w, d.W().ports) && PortsDeleting(w.ports, d.W().ports, id)
      {
        assert records[i] in records;
        ForgettingPort(w, d.W(), records[i], id);
        var _ := d.DeletePublishedPort(records[i].id);
        i := i + 1;
      }
      ForgottenPorts(w, d.W(), id);
    }
  }

  lemma SamePorts(w: World, id: MachineID)
    ensures WithPorts(w, w.ports) == w && PortsDeleting(w.ports, w.ports, id)
  {
  }

  lemma ForgettingPort(w: World, v: World, r: PublishedPortRecord, id: MachineID)
    requires Good(v) && v == WithPorts(w, v.ports) && PortsDeleting(w.ports, v.ports, id) && Silent(v, id)
    requires r.id in w.ports && w.ports[r.id] == r && r.machineID == id
    ensures v.missed || r.id !in v.published
    ensures var u := WithPorts(v, v.ports - {r.id});
            Silent(u, id) && u == WithPorts(w, u.ports) && PortsDeleting(w.ports, u.ports, id)
  {
    hide Good;
    if r.id !in v.ports && !v.missed {
      UnstoredPortIsClosed(v, r.id);
    }
  }

  lemma ForgottenPorts(w: World, v: World, id: MachineID)
    requires v == WithPorts(w, v.ports) && PortsDeleting(w.ports, v.ports, id)
    ensures Deleting(w, v, id) && v.volumes == w.volumes
  {
  }

  /** Nothing of the machine is left in the store or on the disk. */
  ghost predicate Gone(v: World, id: MachineID) {
    && id !in v.machines
    && SystemVolumeID(id) !in v.volumes
    && NoneAttached(v, id)
    && MachineDir(id) !in v.dirs
    && forall path :: path in v.files ==> path.dir != MachineDir(id)
  }

  /** A delete that was cut off between its last two writes: every later attempt
      stops at the missing system volume. */
  ghost predicate DeleteBlocked(w: World, id: MachineID) {
    id in w.machines && SystemVolumeID(id) !in w.volumes
  }

  /** What the cut leaves: the record, and nothing else of the machine. */
  ghost predicate CutOff(v: World, r: MachineRecord) {
    && DeleteBlocked(v, r.id)
    && NoneAttached(v, r.id)
    && MachineDir(r.id) !in v.dirs
    && (forall path :: path in v.files ==> path.dir != MachineDir(r.id))
    && r.pid !in v.vms
    && Silent(v, r.id)
  }

  /** A state between the last two writes of a delete that began in `w`. */
  ghost predicate BeforeLastWrite(w: World, cut: World, id: MachineID) {
    Good(cut) && Deleting(w, cut, id) && id in w.machines && CutOff(cut, w.machines[id])
  }

  lemma BeforeLastWriteSince(w: World, v: World, cut: World, id: MachineID)
    requires Deleting(w, v, id) && BeforeLastWrite(v, cut, id)
    ensures BeforeLastWrite(w, cut, id)
  {
    hide Good, Deleting, CutOff;
    DeletingThen(w, v, cut, id);
    StillBlocked(w, v, id);
  }

  ghost predicate DeleteOutcome(status: Status, w: World, v: World, id: MachineID) {
    && Deleting(w, v, id)
    && (status.Done? ==> Gone(v, id) && id in w.machines && w.machines[id].pid !in v.vms)
    && (DeleteBlocked(w, id) ==> !status.Done? && DeleteBlocked(v, id))
    && (DeleteBlocked(v, id) && !DeleteBlocked(w, id) ==> CutOff(v, w.machines[id]))
    && (status.NotFound? ==> DeleteBlocked(w, id))
  }

  /** deleteMachineRecord. */
  method DeleteMachineRecord(d: Daemon, r: MachineRecord) returns (status: Status, ghost cut: World)
    requires d.Inv() && r.id in d.W().machines && d.W().machines[r.id] == r
    modifies d, d.store
    ensures d.Inv() && DeleteOutcome(status, old(d.W()), d.W(), r.id) && d.W().journal == old(d.W()).journal
    ensures status.Done? ==> BeforeLastWrite(old(d.W()), cut, r.id) && d.W() == AfterDelete(cut, r.id)
    ensures old(d.faulted) ==> d.faulted
    ensures !d.faulted ==> (status.Done? <==> !DeleteBlocked(old(d.W()), r.id))
  {
    hide FileStore.Valid, Good, Daemon.W, Deleting, Silent, WithVms, WithPublished, WithRelays, TouchesOnly, Gone,
      NoneAttached, SystemVolumeID, SystemVolumePath, BeforeLastWrite, AfterDelete, CutOff;
    ghost var w := d.W();
    cut := w;
    DeletingNothing(w, r.id);
    CloseListeners(d, r.id);
    ghost var v := d.W();
    DeletingListeners(w, w, v, r.id);
    RecordIsDeletable(v, r);
    status := d.DeleteVm(ToRuntimeState(r));
    DeletingVms(w, v, d.W(), r.id);
    v := d.W();
    StillBlocked(w, v, r.id);
    if status.Done? {
      status, cut := DeleteStored(d, r);
      DeletingThen(w, v, d.W(), r.id);
      StillBlocked(w, v, r.id);
      if status.Done? {
        BeforeLastWriteSince(w, v, cut, r.id);
      }
    }
  }

  lemma StillBlocked(w: World, v: World, id: MachineID)
    requires Deleting(w, v, id) && id in v.machines
    ensures DeleteBlocked(w, id) ==> DeleteBlocked(v, id)
    ensures v.volumes == w.volumes && DeleteBlocked(v, id) ==> DeleteBlocked(w, id)
    ensures id in w.machines && w.machines[id] == v.machines[id]
  {
  }

  /** The rest, once nothing of the machine is running. */
  method DeleteStored(d: Daemon, r: MachineRecord) returns (status: Status, ghost cut: World)
    requires d.Inv() && r.id in d.W().machines && d.W().machines[r.id] == r && Silent(d.W(), r.id)
    requires r.pid !in d.W().vms
    modifies d, d.store
    ensures d.Inv() && DeleteOutcome(status, old(d.W()), d.W(), r.id) && d.W().journal == old(d.W()).journal
    ensures status.Done? ==> BeforeLastWrite(old(d.W()), cut, r.id) && d.W() == AfterDelete(cut, r.id)
    ensures old(d.faulted) ==> d.faulted
    ensures !d.faulted ==> (status.Done? <==> !DeleteBlocked(old(d.W()), r.id))
  {
    hide FileStore.Valid, Good, Daemon.W, Deleting, Silent, WithPorts, Gone, NoneAttached, SystemVolumeID,
      SystemVolumePath, Detaching, BeforeLastWrite, AfterDelete, CutOff;
    ghost var w := d.W();
    cut := w;
    ForgetPorts(d, r.id);
    ghost var v := d.W();
    status := DetachVolumesFor(d, r.id);
    DeletingDetached(w, v, d.W(), r.id);
    DetachedRecordKept(v, d.W(), r);
    StillBlocked(w, v, r.id);
    v := d.W();
    if status.NotFound? {
      status := Fault;
    }
    if status.Done? {
      var found;
      status, found := d.GetVolume(r.systemVolumeID);
      SystemVolumeIsItsDisk(v, r);
      if status.Done? {
        status, cut := DeleteDisk(d, w, r, found.value.path);
      }
    }
  }

  lemma DetachedRecordKept(w: World, v: World, r: MachineRecord)
    requires Good(w) && Detaching(w, v, r.id) && r.id in w.machines && w.machines[r.id] == r
    ensures v.machines == w.machines && v.vms == w.vms && v.journal == w.journal
    ensures DeleteBlocked(w, r.id) <==> DeleteBlocked(v, r.id)
  {
    hide Good, SystemVolumeID, FilesDetached;
    SystemVolumeIsItsDisk(w, r);
  }

  lemma AllGone(w: World, id: MachineID)
    requires id in w.machines && NoneAttached(w, id) && SystemVolumeID(id) !in w.volumes && MachineDir(id) !in w.dirs
    requires exists files :: w.files == WithoutDir(files, MachineDir(id))
    ensures Gone(AfterDelete(w, id), id)
  {
    hide SystemVolumeID;
  }

  lemma AllButTheRecord(v: World, r: MachineRecord)
    requires r.id in v.machines && NoneAttached(v, r.id) && SystemVolumeID(r.id) !in v.volumes
    requires MachineDir(r.id) !in v.dirs && r.pid !in v.vms && Silent(v, r.id)
    requires exists files :: v.files == WithoutDir(files, MachineDir(r.id))
    ensures CutOff(v, r)
  {
    hide SystemVolumeID, Silent;
  }

  method DeleteDisk(d: Daemon, ghost w: World, r: MachineRecord, path: DiskPath)
    returns (status: Status, ghost cut: World)
    requires d.Inv() && r.id in d.W().machines && d.W().machines[r.id] == r && Silent(d.W(), r.id)
    requires Deleting(w, d.W(), r.id) && NoneAttached(d.W(), r.id) && path == SystemVolumePath(r.id)
    requires r.systemVolumeID == SystemVolumeID(r.id) && SystemVolumeID(r.id) in d.W().volumes
    requires !DeleteBlocked(w, r.id) && r.pid !in d.W().vms
    modifies d, d.store
    ensures d.Inv() && DeleteOutcome(status, w, d.W(), r.id) && d.W().journal == old(d.W()).journal
    ensures status.Done? ==> BeforeLastWrite(w, cut, r.id) && d.W() == AfterDelete(cut, r.id)
    ensures old(d.faulted) ==> d.faulted
    ensures !d.faulted ==> status.Done?
  {
    hide FileStore.Valid, Good, Daemon.W, Deleting, Silent, WithDisks, WithVolumes, AfterDelete, Gone, NoneAttached,
      SystemVolumeID, WithoutDir, SomeRemoved, FilesSwept, CutOff;
    ghost var v := d.W();
    cut := v;
    StillBlocked(w, v, r.id);
    status := d.RemoveFile(path);
    SystemFileSwept(v, r.id);
    DeletingDisks(w, v, d.W(), r.id);
    v := d.W();
    if status.Done? {
      status := d.RemoveAll(path.dir);
      RemovedSwept(v, d.W(), r.id);
      DeletingDisks(w, v, d.W(), r.id);
      v := d.W();
      if status.Done? {
        status := d.DeleteVolume(r.systemVolumeID);
        DeletingSystemVolume(w, v, r.id);
        v := d.W();
        if status.Done? {
          DeletingRecord(w, v, r.id);
          AllGone(v, r.id);
          AllButTheRecord(v, r);
          cut := v;
          status := d.DeleteMachine(r.id);
        }
      }
    }
  }

  function DeleteOpFor(id: MachineID): OperationRecord {
    OperationRecord(id, DeleteOp, None, 0, 0)
  }

  /** DeleteMachine: an absent machine is already deleted. Every delete that
      removes one passes through `cut`, and any step after it may fail. */
  method DeleteMachine(d: Daemon, id: MachineID) returns (status: Status, ghost cut: World)
    requires d.Inv()
    modifies d, d.store
    ensures d.Inv()
    ensures id !in old(d.W()).machines ==> d.W() == old(d.W())
    ensures id in old(d.W()).machines ==> DeleteOutcome(status, old(d.W()), d.W(), id)
    ensures !status.Done? && d.W() != old(d.W()) ==> id in d.W().journal && d.W().journal[id] == DeleteOpFor(id)
    ensures status.Done? && id in old(d.W()).machines ==>
              && BeforeLastWrite(old(d.W()), cut, id)
              && (d.W() == AfterDelete(cut, id) || d.W() == AfterClear(AfterDelete(cut, id), id))
    ensures old(d.faulted) ==> d.faulted
    ensures !d.faulted ==> (status.Done? <==> !DeleteBlocked(old(d.W()), id))
  {
    hide FileStore.Valid, Good, Daemon.W, Deleting, Gone, OnlyJournalOf, AfterUpsert, AfterClear, AfterDelete,
      BeforeLastWrite, CutOff;
    ghost var w := d.W();
    cut := w;
    DeletingNothing(w, id);
    var found;
    status, found := d.GetMachine(id);
    if status.Done? {
      var op := DeleteOpFor(id);
      status := d.UpsertOperation(op);
      if status.Done? {
        UpsertIsJournal(w, op);
        ghost var v := d.W();
        DeletingJournal(w, w, v, id);
        status, cut := DeleteMachineRecord(d, found.value);
        OutcomeAfterJournal(status, w, v, d.W(), id);
        if status.Done? {
          BeforeLastWriteSince(w, v, cut, id);
        }
        v := d.W();
        if status.Done? {
          var _ := d.DeleteOperation(id);
          ClearIsJournal(v, id);
          OutcomeCleared(w, v, AfterClear(v, id), id);
        }
      }
    } else if status.NotFound? {
      status := Done;
    }
  }

  lemma OutcomeAfterJournal(status: Status, w: World, v: World, u: World, id: MachineID)
    requires OnlyJournalOf(w, v, id) && Deleting(w, v, id) && DeleteOutcome(status, v, u, id)
    ensures DeleteOutcome(status, w, u, id)
  {
    hide Gone, Deleting;
    DeletingThen(w, v, u, id);
  }

  lemma OutcomeCleared(w: World, v: World, u: World, id: MachineID)
    requires DeleteOutcome(Done, w, v, id) && OnlyJournalOf(v, u, id)
    ensures DeleteOutcome(Done, w, u, id)
  {
    hide Deleting;
    DeletingJournal(w, v, u, id);
  }

  // --------------------------------------------- leftovers of no machine

  ghost predicate Swept(v: World, id: MachineID) {
    !HasDisk(v, id) && SystemVolumeID(id) !in v.volumes && NoneAttached(v, id)
  }

  /** The volumes and the disk of a machine that has no record. */
  method SweepLeftovers(d: Daemon, id: MachineID) returns (status: Status)
    requires d.Inv() && id !in d.W().machines
    modifies d`halted, d`faulted, d`files, d`dirs, d.store
    ensures old(d.faulted) ==> d.faulted
    ensures !d.faulted ==> status.Done?
    ensures d.Inv() && Deleting(old(d.W()), d.W(), id)
    ensures d.W().machines == old(d.W()).machines && d.W().journal == old(d.W()).journal
    ensures status.Done? ==> Swept(d.W(), id)
  {
    hide FileStore.Valid, Good, Daemon.W, Deleting, Sweeping, Swept, FilesSwept, WithDisks, WithVolumes, Detaching,
      NoneAttached, SystemVolumeID, SystemVolumePath, SomeRemoved, WithoutDir, HasDisk;
    ghost var w := d.W();
    SweepNothing(w, id);
    status := d.RemoveFile(SystemVolumePath(id));
    if status.Done? {
      ghost var v := d.W();
      SweepDisk(w, id);
      SweepVolume(w, v, id);
      status := d.DeleteVolume(SystemVolumeID(id));
      if !status.Fault? {
        v := d.W();
        status := DetachVolumesFor(d, id);
        SweepDetach(w, v, d.W(), id);
        if status.Done? {
          v := d.W();
          var _ := d.RemoveAll(MachineDir(id));
          SweepDir(w, v, d.W(), id);
        }
      }
    }
  }

  /** The sweep once the system disk is gone. */
  ghost predicate Sweeping(w: World, v: World, id: MachineID) {
    && Deleting(w, v, id)
    && v.machines == w.machines
    && v.journal == w.journal
    && !HasDisk(v, id)
  }

  lemma SweepNothing(w: World, id: MachineID)
    ensures Deleting(w, w, id)
  {
  }

  lemma SweepDisk(w: World, id: MachineID)
    ensures Sweeping(w, WithDisks(w, w.files - {SystemVolumePath(id)}, w.dirs), id)
  {
  }

  lemma SweepVolume(w: World, v: World, id: MachineID)
    requires Sweeping(w, v, id)
    ensures Deleting(w, v, id) && v.machines == w.machines && v.journal == w.journal
    ensures Sweeping(w, WithVolumes(v, v.volumes - {SystemVolumeID(id)}), id)
  {
    hide Deleting, SystemVolumeID, SystemVolumePath;
    DeletingSystemVolume(w, v, id);
  }

  lemma SweepDetach(w: World, v: World, u: World, id: MachineID)
    requires Sweeping(w, v, id) && Detaching(v, u, id)
    ensures Sweeping(w, u, id) && Deleting(w, u, id)
    ensures u.machines == w.machines && u.journal == w.journal
    ensures SystemVolumeID(id) !in v.volumes ==> SystemVolumeID(id) !in u.volumes
  {
    hide SystemVolumeID, SystemVolumePath, ManagedPath, FilesSwept;
    DeletingDetached(w, v, u, id);
  }

  lemma SweepDir(w: World, v: World, u: World, id: MachineID)
    requires Sweeping(w, v, id) && u == WithDisks(v, u.files, u.dirs) && SomeRemoved(v.files, u.files, MachineDir(id))
    ensures Deleting(w, u, id) && u.machines == w.machines && u.journal == w.journal
    ensures SystemVolumeID(id) !in v.volumes && NoneAttached(v, id) ==> Swept(u, id)
  {
    hide SystemVolumeID, SystemVolumePath, Deleting, ManagedPath, NoneAttached, FilesSwept;
    RemovedSwept(v, u, id);
    DeletingDisks(w, v, u, id);
  }

  /** reconcileDelete. */
  method ReconcileDelete(d: Daemon, id: MachineID) returns (status: Status)
    requires d.Inv()
    modifies d, d.store
    ensures d.Inv() && Deleting(old(d.W()), d.W(), id)
    ensures status.Done? ==> Cleared(d.W(), id) && id !in d.W().journal
    ensures DeleteBlocked(old(d.W()), id) ==> !status.Done? && DeleteBlocked(d.W(), id)
    ensures old(d.faulted) ==> d.faulted
    ensures !d.faulted ==> (status.Done? <==> !DeleteBlocked(old(d.W()), id))
  {
    hide FileStore.Valid, Good, Daemon.W, Deleting, Gone, OnlyJournalOf, AfterClear, NoneAttached, FilesSwept,
      SystemVolumeID, SystemVolumePath;
    ghost var w := d.W();
    DeletingNothing(w, id);
    var found;
    status, found := d.GetMachine(id);
    if status.Done? {
      ghost var cut;
      status, cut := DeleteMachineRecord(d, found.value);
      if status.Done? {
        GoneIsCleared(d.W(), id);
      }
    } else if status.NotFound? {
      status := SweepLeftovers(d, id);
    }
    if status.Done? {
      status := FinishDelete(d, w, id);
    }
  }

  ghost predicate Cleared(v: World, id: MachineID) {
    id !in v.machines && Swept(v, id) && id !in v.journal
  }

  lemma GoneIsCleared(v: World, id: MachineID)
    requires Gone(v, id)
    ensures id !in v.machines && Swept(v, id)
  {
  }

  method FinishDelete(d: Daemon, ghost w: World, id: MachineID) returns (status: Status)
    requires d.Inv() && Deleting(w, d.W(), id) && id !in d.W().machines && Swept(d.W(), id)
    modifies d`halted, d`faulted, d`abandoned, d.store
    ensures d.Inv() && Deleting(w, d.W(), id) && id !in d.W().machines && status != NotFound
    ensures status.Done? ==> Cleared(d.W(), id) && d.W() == AfterClear(old(d.W()), id)
    ensures !status.Done? ==> d.W() == old(d.W())
    ensures old(d.faulted) ==> d.faulted
    ensures !d.faulted ==> status.Done?
  {
    hide FileStore.Valid, Good, Daemon.W, Deleting, OnlyJournalOf, AfterClear, NoneAttached, SystemVolumeID, SystemVolumePath;
    ghost var v := d.W();
    ClearIsJournal(v, id);
    DeletingJournal(w, v, AfterClear(v, id), id);
    SweptAside(v, AfterClear(v, id), id);
    status := d.DeleteOperation(id);
  }

  lemma SweptAside(v: World, u: World, id: MachineID)
    requires OnlyJournalOf(v, u, id) && Swept(v, id)
    ensures Swept(u, id) && u.machines == v.machines
  {
  }
}
