/** States in which the daemon falls short of what one would expect, built by
    the steps that lead there. */
module Witnesses {
  import opened Wrappers
  import opened Text
  import opened Model
  import opened Network
  import opened Worlds
  import opened Daemons
  import opened Relays
  import opened Frames
  import opened Startup
  import opened Networking
  import opened Lifecycle
  import opened Resize
  import opened CreationTrace
  import opened Creation
  import opened Restore

  // ------------------------------- a committed machine without its disk

  const BASE := Prefix(0, 30)

  ghost function EmptyHost(): World {
    World(BASE, map[], map[], map[], map[], map[], map[], {}, map[], map[], map[], [], {}, false)
  }

  lemma EmptyIsGood()
    ensures BASE.Valid() && Good(EmptyHost())
  {
  }

  const REQUEST := CreateRequest("m", "a", "a", 1, 1, [])

  /** The host with the root file system of the artifact on it. */
  ghost function Host(): World {
    WithDisks(EmptyHost(), map[RootFS(REQUEST) := [0]], {Elsewhere("a")})
  }

  function BootState(): MachineState
    requires BASE.Valid()
  {
    var network := NetworkForIndex(BASE, 0);
    MachineState(VmRunning, 1, DottedQuad(network.guestIP), "s", network.tapName, Some(0), "")
  }

  ghost function BuiltDisks(): map<DiskPath, Image> {
    Host().files[SystemVolumePath("m") := [0]][WorkspaceVolumePath("m") := [0]]
  }

  ghost function BuiltVolumes(): map<VolumeID, VolumeRecord> {
    map[SystemVolumeID("m") := SystemVolumeRecord("m"), WorkspaceVolumeID("m") := WorkspaceVolumeRecord("m")]
  }

  /** Everything before the record write. */
  ghost function Built(): World {
    var j := AfterUpsert(Host(), CreateOpFor("m"));
    var disks := WithDisks(j, BuiltDisks(), {Elsewhere("a"), MachineDir("m")});
    WithVolumes(WithVms(disks, map[1 := Vm("m", "n", false)]), BuiltVolumes())
  }

  lemma BuiltIsGood()
    ensures Good(Host()) && Good(AfterUpsert(Host(), CreateOpFor("m"))) && Good(Built())
  {
    hide Good, AfterUpsert, SystemVolumeID, WorkspaceVolumeID, MayPlaceVolume;
    EmptyIsGood();
    var w, op := Host(), CreateOpFor("m");
    FilesKeepGood(EmptyHost(), w.files, w.dirs);
    UpsertKeepsGood(w, op);
    var j := AfterUpsert(w, op);
    FilesKeepGood(j, BuiltDisks(), {Elsewhere("a"), MachineDir("m")});
    var disks := WithDisks(j, BuiltDisks(), {Elsewhere("a"), MachineDir("m")});
    VmsKeepGood(disks, map[1 := Vm("m", "n", false)]);
    var vms := WithVms(disks, map[1 := Vm("m", "n", false)]);
    OwnVolumeMayBePlaced(vms, SystemVolumeRecord("m"), "m");
    VolumeKeepsGood(vms, SystemVolumeRecord("m"));
    var one := vms.(volumes := vms.volumes[SystemVolumeID("m") := SystemVolumeRecord("m")]);
    OwnVolumeMayBePlaced(one, WorkspaceVolumeRecord("m"), "m");
    VolumeKeepsGood(one, WorkspaceVolumeRecord("m"));
    assert one.(volumes := one.volumes[WorkspaceVolumeID("m") := WorkspaceVolumeRecord("m")]) == Built();
  }

  function NewMachine(): MachineRecord
    requires BASE.Valid()
  {
    NewRecord("m", "a", 1, 1, [WorkspaceVolumeID("m")], BootState(), "n", "")
  }

  lemma NewMachineIsAllowed()
    ensures BASE.Valid() && MayCreate(Built(), NewMachine()) && NewMachine().phase.Starting?
  {
    hide Good, MayCreate, NetworkForIndex, DottedQuad, SystemVolumeID, WorkspaceVolumeID;
    EmptyIsGood();
    BuiltIsGood();
    BootsOnTheFirst();
    BuiltStore();
    TrimmedKey("m", "a", 1, 1, [WorkspaceVolumeID("m")], BootState(), "n", "");
    CreatingIsAllowed(Built(), NewMachine(), [], BootState());
  }

  lemma BootsOnTheFirst()
    ensures BASE.Valid() && BootedOn(BASE, [], BootState())
  {
    hide NetworkForIndex, DottedQuad, Mask;
    EmptyIsGood();
    assert Pow2(0) == 1;
    assert OnNetworkState(BootState(), NetworkForIndex(BASE, 0)) && !Taken(BASE, [], 0);
  }

  lemma BuiltStore()
    ensures Built().machines == map[] && Built().log == [] && Built().base == BASE
    ensures SystemRecorded(Built(), "m") && DiskReady(Built(), "m", 1)
    ensures CoversNetworks(Built(), "m", []) && AllAttached(Built(), [WorkspaceVolumeID("m")], "m")
  {
    hide Torn;
    SystemIsNotWorkspace("m", "m");
  }

  /** The record is committed; then the write that ends the startup fails. */
  ghost function Committed(): World {
    AfterCreate(Built(), if BASE.Valid() then NewMachine() else NoMachine())
  }

  /** The deferred cleanup has worked. */
  ghost function WithoutItsDisk(): World {
    WithDisks(Committed(), WithoutDir(Committed().files, MachineDir("m")), Committed().dirs - {MachineDir("m")})
  }

  lemma CommittedIsGood()
    ensures BASE.Valid() && Good(Committed()) && Good(WithoutItsDisk())
  {
    hide Good, MayCreate, AfterCreate, SystemVolumeID, WorkspaceVolumeID;
    EmptyIsGood();
    BuiltIsGood();
    BuiltStore();
    NewMachineIsAllowed();
    CreateKeepsGood(Built(), NewMachine());
    RemovalsKept(Committed(), MachineDir("m"), "");
    FilesKeepGood(Committed(), WithoutDir(Committed().files, MachineDir("m")), Committed().dirs - {MachineDir("m")});
  }

  lemma BuiltApart()
    ensures var j, v := AfterUpsert(Host(), CreateOpFor("m")), WithoutItsDisk();
            && VolumesCreating(j.volumes, v.volumes, "m")
            && FilesCreating(j, v.files, "m")
            && SystemRecorded(v, "m")
            && AllAttached(v, [WorkspaceVolumeID("m")], "m")
            && !HasDisk(v, "m")
  {
    hide SystemVolumeID, WorkspaceVolumeID, Torn, BuiltDisks, VolumesCreating, FilesCreating;
    SystemIsNotWorkspace("m", "m");
    OwnVolumesCreating();
    OwnDisksCreating(AfterUpsert(Host(), CreateOpFor("m")));
  }

  lemma OwnVolumesCreating()
    ensures VolumesCreating(map[], BuiltVolumes(), "m")
  {
    hide SystemVolumeID, WorkspaceVolumeID;
    SystemIsNotWorkspace("m", "m");
  }

  lemma OwnDisksCreating(j: World)
    requires j.files == Host().files
    ensures FilesCreating(j, WithoutDir(BuiltDisks(), MachineDir("m")), "m")
  {
  }

  /** CreateMachine can end with an error and leave a live machine in the store
      whose system disk is gone. */
  lemma LiveWithoutItsDisk()
    ensures Good(Host()) && Good(WithoutItsDisk())
    ensures CreateOutcome(Fault, Host(), WithoutItsDisk(), REQUEST, Worked)
    ensures "m" in WithoutItsDisk().machines && IsLive(WithoutItsDisk().machines["m"].phase)
    ensures !HasDisk(WithoutItsDisk(), "m")
  {
    hide Good, Torn, Mask, DottedQuad, NetworkForIndex, TrimSpace, DefaultMachinePorts, SystemVolumeID, WorkspaceVolumeID,
      VolumesCreating, FilesCreating, SystemRecorded, AllAttached, HasDisk;
    BuiltIsGood();
    CommittedIsGood();
    BuiltApart();
    assert CreatedAs(REQUEST, NewMachine());
  }

  // ------------------------------------------- a resize lost to a start

  /** A resize of a stopped machine that grew the disk and could not write the
      record; then a start that got to its journal write: the disk is larger than
      the record says, and no entry is left that would mend it. */
  lemma ResizeCanBeLost(w: World, id: MachineID, size: nat)
    requires Good(w) && id in w.machines && w.machines[id].phase.Stopped? && w.machines[id].id == id
    requires SystemVolumeID(id) in w.volumes && HasDisk(w, id)
    requires DiskSize(w, id) == w.machines[id].storageBytes < size
    ensures exists grown: World, started: World ::
              && ResizeOutcome(Fault, w, grown, id, 0, size)
              && StartedOutcome(Fault, grown, started, id)
              && Good(grown) && Good(started)
              && HasDisk(started, id)
              && DiskSize(started, id) == size
              && started.machines[id].storageBytes == w.machines[id].storageBytes
              && !SizeAccounted(started, id)
  {
    hide Good, SystemVolumePath, SystemVolumeID, ResizeOutcome, StartedOutcome, SizeAccounted, TouchesJournalled;
    var grown := GrowingCutOff(w, id, size);
    var started := AfterUpsert(grown, StartOpFor(id));
    UpsertKeepsGood(grown, StartOpFor(id));
    StartCutOff(grown, id);
    StartTrace(grown, started, id);
    ForgottenWithItsEntry(grown, started, StartOpFor(id));
    assert Torn(grown, id);
  }

  ghost function StoppedHost(): World {
    var off := WithVms(Committed(), map[]);
    if "m" in off.machines then AfterUpdate(off, StoppedRecord(off.machines["m"])) else off
  }

  /** There is such a host: the machine created above, stopped while it started. */
  lemma SomeResizeIsLost()
    ensures Good(StoppedHost()) && "m" in StoppedHost().machines
    ensures exists grown: World, started: World ::
              && ResizeOutcome(Fault, StoppedHost(), grown, "m", 0, 2)
              && StartedOutcome(Fault, grown, started, "m")
              && Good(started)
              && HasDisk(started, "m")
              && DiskSize(started, "m") == 2 > started.machines["m"].storageBytes
              && !SizeAccounted(started, "m")
  {
    hide Good, Mask, DottedQuad, NetworkForIndex, TrimSpace, DefaultMachinePorts, SystemVolumeID, WorkspaceVolumeID,
      MayUpdate, RelaysStored, RelaysStoredApart, PublishedStored, Core, ResizeOutcome, StartedOutcome, SizeAccounted;
    CommittedIsGood();
    VmsKeepGood(Committed(), map[]);
    var off, r := WithVms(Committed(), map[]), NewMachine();
    StoppingIsAllowed(off, r);
    GoodRelaysApart(off, "m");
    UpdateKeepsGood(off, StoppedRecord(r));
    SystemIsNotWorkspace("m", "m");
    ResizeCanBeLost(StoppedHost(), "m", 2);
  }

  lemma GrowingCutOff(w: World, id: MachineID, size: nat) returns (grown: World)
    requires Good(w) && id in w.machines && w.machines[id].id == id && HasDisk(w, id)
    requires DiskSize(w, id) == w.machines[id].storageBytes < size
    ensures Good(grown) && ResizeOutcome(Fault, w, grown, id, 0, size)
    ensures grown.machines == w.machines && HasDisk(grown, id) && DiskSize(grown, id) == size
    ensures id in grown.journal && grown.journal[id] == ResizeOpFor(id, w.machines[id].memoryMiB, size)
  {
    hide Good, SystemVolumePath, ResizeImage, Torn;
    var op := ResizeOpFor(id, w.machines[id].memoryMiB, size);
    var j := AfterUpsert(w, op);
    UpsertKeepsGood(w, op);
    var image := ResizeImage(w.files[SystemVolumePath(id)], size);
    GrowKeepsGood(j, id, image);
    grown := AfterGrow(j, id, image);
    assert ResizeTrace(j, grown, w.machines[id], op.memoryMiB, size);
  }

  lemma StartTrace(w: World, v: World, id: MachineID)
    requires StartedOutcome(Fault, w, v, id)
    ensures TouchesJournalled(w, v, id) && SameBodyStored(w, v, id) && EntryFate(w, v, StartOpFor(id))
  {
    hide TouchesJournalled, EntryFate, SameBodyStored;
  }

  lemma StartCutOff(grown: World, id: MachineID)
    requires id in grown.machines && grown.machines[id].phase.Stopped? && id in grown.journal && grown.journal[id].kind.ResizeOp?
    ensures var started := AfterUpsert(grown, StartOpFor(id));
            StartedOutcome(Fault, grown, started, id) && started.journal != grown.journal
  {
    hide Torn;
    var op := StartOpFor(id);
    JournalledNothing(grown, id);
    UpsertIsJournal(grown, op);
    ThenJournal(grown, grown, AfterUpsert(grown, op), id);
    assert AfterUpsert(grown, op).journal[id] == op;
  }

  // ----------------------------------------- what a cut-off restore leaves

  /** A restore of a fresh machine cut off right after the record of its system
      volume was written, and its recovery: the record is still there, and every
      later restore of that machine id is refused. */
  lemma RestoreLeavesAVolume(w: World, sid: SnapshotID, req: RestoreRequest, image: Image)
    requires Good(w) && req.id !in w.machines && SystemVolumeID(req.id) !in w.volumes
    ensures exists cut: World, u: World ::
              && RestoreOutcome(Fault, w, cut, sid, req, NotNeeded)
              && HasDisk(cut, req.id)
              && Leftover(cut, req.id)
              && Good(cut) && Good(u)
              && RestoreRecovered(AfterUpsert(w, RestoreOpFor(req.id, sid)), cut, u, req.id)
              && Leftover(u, req.id)
              && RefusesRestores(u, req.id)
  {
    hide Good, SystemVolumeID, SystemVolumePath, RestoreOutcome, AfterUpsert, RestoreRecovered, RefusesRestores;
    var cut := RestoreCutAfterVolume(w, sid, req, image);
    var j := AfterUpsert(w, RestoreOpFor(req.id, sid));
    var u := RecoveredRestore(j, cut, req.id);
    LeftoverRefuses(u, req.id);
  }

  ghost predicate RefusesRestores(u: World, id: MachineID) {
    forall status: Status, v: World, sid: SnapshotID, req: RestoreRequest, cleanup: Cleanup ::
      req.id == id && RestoreOutcome(status, u, v, sid, req, cleanup) ==> !status.Done?
  }

  lemma LeftoverRefuses(u: World, id: MachineID)
    requires id !in u.machines && SystemVolumeID(id) in u.volumes
    ensures RefusesRestores(u, id)
  {
    hide RestoreOutcome, SystemVolumeID;
    forall status: Status, v: World, sid: SnapshotID, req: RestoreRequest, cleanup: Cleanup
      | req.id == id && RestoreOutcome(status, u, v, sid, req, cleanup)
      ensures !status.Done?
    {
      LeftoverRefusesRestore(status, u, v, sid, req, cleanup);
    }
  }

  lemma RestoreCutAfterVolume(w: World, sid: SnapshotID, req: RestoreRequest, image: Image) returns (cut: World)
    requires Good(w) && req.id !in w.machines && SystemVolumeID(req.id) !in w.volumes
    ensures Good(cut) && RestoreOutcome(Fault, w, cut, sid, req, NotNeeded)
    ensures Restoring(AfterUpsert(w, RestoreOpFor(req.id, sid)), cut, req.id)
    ensures HasDisk(cut, req.id) && SystemVolumeID(req.id) in cut.volumes && Leftover(cut, req.id)
  {
    hide Good, SystemVolumeID, MayPlaceVolume, Torn, Restoring;
    var id, op := req.id, RestoreOpFor(req.id, sid);
    var j := AfterUpsert(w, op);
    UpsertKeepsGood(w, op);
    CreatingNothing(j, id);
    FilesKeepGood(j, j.files[SystemVolumePath(id) := image], j.dirs + {MachineDir(id)});
    var cloned := WithDisks(j, j.files[SystemVolumePath(id) := image], j.dirs + {MachineDir(id)});
    OwnVolumeMayBePlaced(cloned, SystemVolumeRecord(id), id);
    VolumeKeepsGood(cloned, SystemVolumeRecord(id));
    cut := WithVolumes(cloned, cloned.volumes[SystemVolumeID(id) := SystemVolumeRecord(id)]);
    InsideOneFile(j.files, SystemVolumePath(id), image, id);
    RestoringFromDisk(j, j, id);
    RestoringStep(j, j, cloned, id);
    RestoringVolume(j, cloned, SystemVolumeRecord(id), id);
  }

  lemma InsideOneFile(files: map<DiskPath, Image>, path: DiskPath, image: Image, id: MachineID)
    requires path.dir == MachineDir(id)
    ensures InsideDir(files, files, id) && InsideDir(files, files[path := image], id)
  {
  }

  lemma RecoveredRestore(j: World, cut: World, id: MachineID) returns (u: World)
    requires Good(cut) && Restoring(j, cut, id) && SystemVolumeID(id) in cut.volumes
    ensures Good(u) && RestoreRecovered(j, cut, u, id) && Leftover(u, id)
    ensures id !in u.machines && SystemVolumeID(id) in u.volumes
  {
    hide Good, SystemVolumeID, Restoring, Torn;
    var files, dirs := WithoutDir(cut.files, MachineDir(id)), cut.dirs - {MachineDir(id)};
    RemovalsKept(cut, MachineDir(id), "");
    RemovedInside(cut.files, files, id);
    FilesKeepGood(cut, files, dirs);
    var gone := WithDisks(cut, files, dirs);
    RestoringStep(j, cut, gone, id);
    ClearKeepsGood(gone, id);
    u := AfterClear(gone, id);
    ClearIsJournal(gone, id);
    RestoringStep(j, gone, u, id);
    RestoringParts(j, u, id);
  }

  // ---------------------------------------- a listener that was missed

  /** A stop whose listing of published ports failed: it succeeds, and the
      listener of the machine that no longer runs is still open. */
  lemma MissedListenerStays(w: World, r: MachineRecord, p: PortID)
    requires Good(w) && r.id in w.machines && w.machines[r.id] == r && r.phase.Running?
    requires p in w.published && p in w.ports && w.ports[p].machineID == r.id
    ensures exists v ::
              && StopOutcome(Done, w, v, r)
              && Good(v)
              && v.missed
              && p in v.published
              && p in v.ports && v.ports[p].machineID == r.id
              && !v.machines[r.id].phase.Running?
  {
    hide Good, Core, HostPort, StoppedRecord, MayUpdate, RelaysStored, RelaysStoredApart, PublishedStored;
    var relays := map key: RelayKey | key in w.relays && key.0 != r.id :: w.relays[key];
    var closed := WithPublished(WithRelays(w, relays), w.published, true);
    ClosedButOne(w, r.id);
    var dead := WithVms(closed, closed.vms - {r.pid});
    VmsKeepGood(closed, closed.vms - {r.pid});
    StoppingIsAllowed(dead, r);
    GoodRelaysApart(dead, r.id);
    StoppedRecordFields(r);
    UpdateKeepsGood(dead, StoppedRecord(r));
    var v := AfterUpdate(dead, StoppedRecord(r));
    assert StopOutcome(Done, w, v, r);
  }

  lemma ClosedButOne(w: World, id: MachineID)
    requires Good(w)
    ensures var relays := map key: RelayKey | key in w.relays && key.0 != id :: w.relays[key];
            Good(WithPublished(WithRelays(w, relays), w.published, true))
  {
    hide Core, HostPort;
    forall key | key in w.relays ensures RelayStored(w, key, w.relays[key]) {
    }
    var relays := map key: RelayKey | key in w.relays && key.0 != id :: w.relays[key];
    ClosingKeepsGood(w, relays, w.published, true);
  }
}
