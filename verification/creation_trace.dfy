/** What a creation that has not committed its machine record may have done,
    and what its recovery undoes. Pure lemmas; the steps are in Creation. */
module CreationTrace {
  import opened Wrappers
  import opened Model
  import opened Network
  import opened Worlds
  import opened Relays
  import opened PublishedPorts
  import opened Frames
  import opened Lifecycle
  import opened Deletion

  /** A volume the machine may take or already has. */
  predicate Available(v: VolumeRecord, id: MachineID) {
    Attachable(v, id) || AttachedTo(v, id)
  }

  ghost predicate Releasable(volumes: map<VolumeID, VolumeRecord>, x: VolumeID, id: MachineID) {
    x in volumes && volumes[x].deleteOnMachineDelete && Available(volumes[x], id)
  }

  /** A volume that was free for the machine, possibly attached or detached since. */
  predicate Evolved(before: VolumeRecord, after: VolumeRecord, id: MachineID) {
    || after == before
    || (Available(before, id) && (after == before.(attachedTo := None) || after == before.(attachedTo := Some(id))))
  }

  /** The workspace volume a creation brings along. */
  predicate NewWorkspace(x: VolumeID, v: VolumeRecord, id: MachineID) {
    && x == WorkspaceVolumeID(id)
    && AttachedTo(v, id)
    && v.deleteOnMachineDelete
    && v.path == WorkspaceVolumePath(id)
  }

  ghost predicate VolumesCreating(before: map<VolumeID, VolumeRecord>, after: map<VolumeID, VolumeRecord>, id: MachineID) {
    && (forall x :: x in after && x != SystemVolumeID(id) ==>
          if x in before then Evolved(before[x], after[x], id) else NewWorkspace(x, after[x], id))
    && (SystemVolumeID(id) in after ==>
          || (SystemVolumeID(id) in before && after[SystemVolumeID(id)] == before[SystemVolumeID(id)])
          || IsSystemDisk(after[SystemVolumeID(id)], id))
    && (forall x :: x in before && x !in after && x != SystemVolumeID(id) ==> Releasable(before, x, id))
  }

  ghost predicate ReleasablePath(volumes: map<VolumeID, VolumeRecord>, path: DiskPath, id: MachineID) {
    exists x :: Releasable(volumes, x, id) && volumes[x].path == path
  }

  /** Files outside the machine's own directory. */
  ghost predicate FilesCreating(w: World, files: map<DiskPath, Image>, id: MachineID) {
    && (forall path: DiskPath :: path in files && path.dir != MachineDir(id) ==> path in w.files && files[path] == w.files[path])
    && (forall path: DiskPath :: path in w.files && path !in files ==>
          path.dir == MachineDir(id) || ReleasablePath(w.volumes, path, id))
  }

  /** Up to the commit: no record, no history and no journal entry is touched. */
  ghost predicate Creating(w: World, v: World, id: MachineID) {
    && v.machines == w.machines
    && id !in v.machines
    && v.log == w.log
    && v.journal == w.journal
    && CreatingApart(w, v, id)
  }

  /** All but the machine records: what a creation may do to the rest, before
      its commit and after it. */
  ghost predicate CreatingApart(w: World, v: World, id: MachineID) {
    && v.base == w.base
    && v.snapshots == w.snapshots
    && v.ports == w.ports
    && w.log <= v.log
    && v.journal - {id} == w.journal - {id}
    && VolumesCreating(w.volumes, v.volumes, id)
    && FilesCreating(w, v.files, id)
  }

  lemma ApartOfCreating(w: World, v: World, id: MachineID)
    requires Creating(w, v, id)
    ensures CreatingApart(w, v, id)
  {
    hide CreatingApart;
  }

  /** The parts that CreatingApart looks at are the same. */
  ghost predicate SameApart(v: World, u: World, id: MachineID) {
    && u.base == v.base
    && u.snapshots == v.snapshots
    && u.ports == v.ports
    && v.log <= u.log
    && u.journal - {id} == v.journal - {id}
    && u.volumes == v.volumes
    && u.files == v.files
  }

  lemma ApartAfter(w: World, v: World, u: World, id: MachineID)
    requires CreatingApart(w, v, id) && SameApart(v, u, id)
    ensures CreatingApart(w, u, id)
  {
    hide VolumesCreating, FilesCreating;
    SameFilesCreating(w, v.files, u.files, id);
  }

  /** Steps after the commit: the record, its VM and listeners, or its journal entry. */
  lemma StepsApart(v: World, u: World, id: MachineID)
    ensures TouchesOnly(v, u, id) ==> SameApart(v, u, id)
    ensures OnlyJournalOf(v, u, id) ==> SameApart(v, u, id)
  {
    hide OtherRecordsKept, OtherRelaysKept, OthersPublished;
  }

  lemma CommitApart(v: World, r: MachineRecord)
    ensures SameApart(v, AfterCreate(v, r), r.id)
  {
  }

  lemma ApartDisks(w: World, v: World, u: World, id: MachineID)
    requires CreatingApart(w, v, id) && (u == v || u == WithDisks(v, u.files, u.dirs)) && InsideDir(v.files, u.files, id)
    ensures CreatingApart(w, u, id)
  {
    hide VolumesCreating, SystemVolumePath, ReleasablePath;
  }

  lemma CreatingNothing(w: World, id: MachineID)
    requires id !in w.machines
    ensures Creating(w, w, id)
  {
    hide SystemVolumeID, WorkspaceVolumeID;
  }

  /** Steps off the stored records and the disk. */
  lemma CreatingStep(w: World, v: World, u: World, id: MachineID)
    requires Creating(w, v, id)
    requires u == WithVms(v, u.vms)
    ensures Creating(w, u, id) && u.volumes == v.volumes && u.files == v.files && u.base == v.base
  {
    hide VolumesCreating, FilesCreating;
    SameFilesCreating(w, v.files, u.files, id);
  }

  lemma SameFilesCreating(w: World, files: map<DiskPath, Image>, now: map<DiskPath, Image>, id: MachineID)
    requires FilesCreating(w, files, id) && files == now
    ensures FilesCreating(w, now, id)
  {
  }

  // ----------------------------------------------------------------- disks

  /** Nothing outside the machine's directory has changed. */
  ghost predicate InsideDir(files: map<DiskPath, Image>, now: map<DiskPath, Image>, id: MachineID) {
    forall path: DiskPath :: path.dir != MachineDir(id) ==>
      (path in files <==> path in now) && (path in files && path in now ==> files[path] == now[path])
  }

  lemma ApartInside(files: map<DiskPath, Image>, now: map<DiskPath, Image>, apart: set<DiskPath>, id: MachineID)
    requires SameFilesApart(files, now, apart) && forall p :: p in apart ==> p.dir == MachineDir(id)
    ensures InsideDir(files, now, id)
  {
  }

  lemma RemovedInside(files: map<DiskPath, Image>, now: map<DiskPath, Image>, id: MachineID)
    requires SomeRemoved(files, now, MachineDir(id))
    ensures InsideDir(files, now, id)
  {
  }

  lemma InsideStill(files: map<DiskPath, Image>, now: map<DiskPath, Image>, after: map<DiskPath, Image>, id: MachineID)
    requires InsideDir(files, now, id) && InsideDir(now, after, id)
    ensures InsideDir(files, after, id)
  {
  }

  lemma CreatingDisks(w: World, v: World, u: World, id: MachineID)
    requires Creating(w, v, id) && (u == v || u == WithDisks(v, u.files, u.dirs)) && InsideDir(v.files, u.files, id)
    ensures Creating(w, u, id) && u.volumes == v.volumes && u.base == v.base
  {
    hide VolumesCreating, SystemVolumePath, ReleasablePath;
  }

  /** The file of a volume that goes with the machine. */
  lemma CreatingReleasedFile(w: World, v: World, path: DiskPath, id: MachineID)
    requires Creating(w, v, id) && ReleasablePath(w.volumes, path, id)
    ensures Creating(w, WithDisks(v, v.files - {path}, v.dirs), id)
    ensures WithDisks(v, v.files - {path}, v.dirs).volumes == v.volumes
  {
    hide VolumesCreating, SystemVolumePath, ReleasablePath;
  }

  // --------------------------------------------------------------- volumes

  lemma CreatingVolumes(w: World, v: World, volumes: map<VolumeID, VolumeRecord>, id: MachineID)
    requires Creating(w, v, id) && VolumesCreating(w.volumes, volumes, id)
    ensures Creating(w, WithVolumes(v, volumes), id)
  {
    hide VolumesCreating, FilesCreating;
    SameFilesCreating(w, v.files, WithVolumes(v, volumes).files, id);
  }

  lemma CreatingSystemVolume(w: World, v: World, volume: VolumeRecord, id: MachineID)
    requires Creating(w, v, id) && volume.id == SystemVolumeID(id) && IsSystemDisk(volume, id)
    ensures Creating(w, WithVolumes(v, v.volumes[volume.id := volume]), id)
    ensures Creating(w, WithVolumes(v, v.volumes - {volume.id}), id)
  {
    hide SystemVolumeID, WorkspaceVolumeID, FilesCreating;
    CreatingVolumes(w, v, v.volumes[volume.id := volume], id);
    CreatingVolumes(w, v, v.volumes - {volume.id}, id);
  }

  lemma CreatingWorkspace(w: World, v: World, volume: VolumeRecord, id: MachineID)
    requires Creating(w, v, id) && volume.id !in w.volumes && NewWorkspace(volume.id, volume, id)
    ensures Creating(w, WithVolumes(v, v.volumes[volume.id := volume]), id)
    ensures Creating(w, WithVolumes(v, v.volumes - {volume.id}), id)
  {
    hide SystemVolumeID, WorkspaceVolumeID, FilesCreating;
    SystemIsNotWorkspace(id, id);
    CreatingVolumes(w, v, v.volumes[volume.id := volume], id);
    CreatingVolumes(w, v, v.volumes - {volume.id}, id);
  }

  lemma CreatingAttachment(w: World, v: World, volume: VolumeRecord, id: MachineID)
    requires Creating(w, v, id) && volume.id in w.volumes && volume.id != SystemVolumeID(id)
    requires Evolved(w.volumes[volume.id], volume, id)
    ensures Creating(w, WithVolumes(v, v.volumes[volume.id := volume]), id)
  {
    hide SystemVolumeID, WorkspaceVolumeID, FilesCreating;
    CreatingVolumes(w, v, v.volumes[volume.id := volume], id);
  }

  lemma CreatingRelease(w: World, v: World, x: VolumeID, id: MachineID)
    requires Creating(w, v, id) && (x in w.volumes ==> Releasable(w.volumes, x, id))
    ensures Creating(w, WithVolumes(v, v.volumes - {x}), id)
  {
    hide SystemVolumeID, WorkspaceVolumeID, FilesCreating;
    CreatingVolumes(w, v, v.volumes - {x}, id);
  }

  /** Writing back a stored volume with another attachment is always in order. */
  lemma AttachmentMayBePlaced(w: World, v: World, volume: VolumeRecord, updated: VolumeRecord, id: MachineID)
    requires Good(w) && Creating(w, v, id) && volume.id in w.volumes && w.volumes[volume.id] == volume
    requires updated == volume.(attachedTo := updated.attachedTo)
    ensures MayPlaceVolume(v, updated)
  {
    hide Good, Creating;
    StoredVolumeStays(w, volume, updated);
    SameMachines(w, v, id);
  }

  lemma SameMachines(w: World, v: World, id: MachineID)
    requires Creating(w, v, id)
    ensures v.machines == w.machines && id !in v.machines && v.base == w.base
    ensures v.log == w.log && v.journal == w.journal
  {
  }

  /** A record under the new machine's own volume ids disturbs no other machine. */
  lemma OwnVolumeMayBePlaced(v: World, volume: VolumeRecord, id: MachineID)
    requires id !in v.machines && (volume.id == SystemVolumeID(id) || volume.id == WorkspaceVolumeID(id))
    requires volume.path.dir.MachineDir?
    ensures MayPlaceVolume(v, volume)
  {
    forall o | o in v.machines ensures volume.id != SystemVolumeID(o) {
      if volume.id == SystemVolumeID(o) {
        if volume.id == SystemVolumeID(id) {
          SystemVolumeIDInjective(id, o);
        } else {
          SystemIsNotWorkspace(o, id);
        }
      }
    }
  }

  // -------------------------------------------------------------- recovery

  /** All or nothing: the store holds no trace of the machine, and every volume
      that does not go with it is there and unattached. */
  ghost predicate CreateUndone(w: World, u: World, id: MachineID) {
    && Cleared(u, id)
    && u.journal == w.journal - {id}
    && u.machines == w.machines
    && u.snapshots == w.snapshots
    && (forall x :: x in u.volumes ==> x in w.volumes && Evolved(w.volumes[x], u.volumes[x], id))
    && (forall x :: x in w.volumes && x != SystemVolumeID(id) && !Releasable(w.volumes, x, id) ==> x in u.volumes)
    && (forall path :: path in u.files && path.dir != MachineDir(id) ==> path in w.files && u.files[path] == w.files[path])
    && (forall path :: path in w.files && path.dir != MachineDir(id) && path !in u.files ==>
          ReleasablePath(w.volumes, path, id))
  }

  /** Sweeping the leftovers of an uncommitted creation undoes it. */
  lemma SweepUndoes(w: World, v: World, s: World, u: World, id: MachineID)
    requires Creating(w, v, id)
    requires Deleting(v, s, id) && s.machines == v.machines && s.journal == v.journal
    requires u == AfterClear(s, id) && Cleared(u, id)
    ensures CreateUndone(w, u, id)
  {
    hide Good, HasDisk, SystemVolumeID, Torn, FilesSwept, VolumesDeleting, PortsDeleting, OtherRecordsKept;
    assert u.files == s.files && u.volumes == s.volumes && u.snapshots == s.snapshots;
    VolumesUndone(w, v, s, id);
    FilesUndone(w, v, s, id);
    assert u.journal == w.journal - {id} by {
      assert u.journal == v.journal - {id};
    }
  }

  lemma VolumesUndone(w: World, v: World, s: World, id: MachineID)
    requires Creating(w, v, id) && Deleting(v, s, id)
    ensures forall x :: x in s.volumes && x != SystemVolumeID(id) && !AttachedTo(s.volumes[x], id) ==>
              x in w.volumes && Evolved(w.volumes[x], s.volumes[x], id)
    ensures forall x :: x in w.volumes && x != SystemVolumeID(id) && !Releasable(w.volumes, x, id) ==> x in s.volumes
  {
    hide SystemVolumeID, WorkspaceVolumeID, FilesCreating;
  }

  lemma FilesUndone(w: World, v: World, s: World, id: MachineID)
    requires Creating(w, v, id) && FilesSwept(v, s, id)
    ensures forall path :: path in s.files && path.dir != MachineDir(id) ==> path in w.files && s.files[path] == w.files[path]
    ensures forall path :: path in w.files && path.dir != MachineDir(id) && path !in s.files ==>
              ReleasablePath(w.volumes, path, id)
  {
    hide SystemVolumeID, WorkspaceVolumeID, ReleasablePath;
    forall path | path in w.files && path.dir != MachineDir(id) && path !in s.files
      ensures ReleasablePath(w.volumes, path, id)
    {
      if path in v.files {
        ManagedIsReleasable(w, v, path, id);
      }
    }
  }

  lemma ManagedIsReleasable(w: World, v: World, path: DiskPath, id: MachineID)
    requires Creating(w, v, id) && ManagedPath(v.volumes, path, id) && path.dir != MachineDir(id)
    ensures ReleasablePath(w.volumes, path, id)
  {
    hide SystemVolumeID, WorkspaceVolumeID, FilesCreating;
    var x :| x in v.volumes && AttachedTo(v.volumes[x], id) && v.volumes[x].deleteOnMachineDelete && v.volumes[x].path == path;
    assert x in w.volumes;
    assert Releasable(w.volumes, x, id);
  }
}
