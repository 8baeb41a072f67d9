/** What one machine's operations leave alone, and the record writes that end a
    machine's run. */
module Frames {
  import opened Wrappers
  import opened Model
  import opened Network
  import opened Worlds
  import opened Relays
  import opened PublishedPorts

  ghost predicate OtherRecordsKept(w: World, v: World, id: MachineID) {
    forall o :: o != id ==>
      (o in w.machines <==> o in v.machines) && (o in w.machines && o in v.machines ==> w.machines[o] == v.machines[o])
  }

  /** Only the record, VM and listeners of one machine may have changed. */
  ghost predicate TouchesOnly(w: World, v: World, id: MachineID) {
    && v == w.(machines := v.machines, vms := v.vms, relays := v.relays, published := v.published, log := v.log,
               missed := v.missed)
    && OtherRecordsKept(w, v, id)
    && OtherRelaysKept(w.relays, v.relays, id)
    && OthersPublished(w, v.published, id)
    && (w.missed ==> v.missed)
    && w.log <= v.log
  }

  lemma TouchesNothing(w: World, id: MachineID)
    ensures TouchesOnly(w, w, id)
  {
  }

  lemma TouchedJournal(w: World, v: World, id: MachineID)
    requires TouchesOnly(w, v, id)
    ensures v.journal == w.journal
  {
    hide OtherRecordsKept, OtherRelaysKept, OthersPublished;
  }

  lemma TouchesThen(w: World, v: World, u: World, id: MachineID)
    requires TouchesOnly(w, v, id) && TouchesOnly(v, u, id)
    ensures TouchesOnly(w, u, id)
  {
  }

  lemma ThenVms(w: World, v: World, u: World, id: MachineID)
    requires TouchesOnly(w, v, id) && (u == WithVms(v, u.vms) || (u == WithLog(v, u.log) && v.log <= u.log))
    ensures TouchesOnly(w, u, id)
  {
  }

  lemma ThenUpdate(w: World, v: World, r: MachineRecord)
    requires TouchesOnly(w, v, r.id) && r.id in v.machines && r.storageBytes == v.machines[r.id].storageBytes
    ensures TouchesOnly(w, AfterUpdate(v, r), r.id)
  {
  }

  lemma ThenRelays(w: World, v: World, relays: map<RelayKey, Port16>, id: MachineID)
    requires TouchesOnly(w, v, id) && OtherRelaysKept(v.relays, relays, id)
    ensures TouchesOnly(w, WithRelays(v, relays), id)
  {
  }

  lemma ThenPublished(w: World, v: World, u: World, id: MachineID)
    requires TouchesOnly(w, v, id) && u == WithPublished(v, u.published, u.missed)
    requires OthersPublished(v, u.published, id) && (v.missed ==> u.missed)
    ensures TouchesOnly(w, u, id)
  {
  }

  /** A world with one machine's journal entry left out of account. */
  ghost function Unjournalled(w: World, id: MachineID): World {
    w.(journal := w.journal - {id}, abandoned := w.abandoned - {id})
  }

  /** As TouchesOnly, and the machine's journal entry may have changed too. */
  ghost predicate TouchesJournalled(w: World, v: World, id: MachineID) {
    TouchesOnly(Unjournalled(w, id), Unjournalled(v, id), id)
  }

  lemma JournalledNothing(w: World, id: MachineID)
    ensures TouchesJournalled(w, w, id)
  {
  }

  lemma JournalledThen(w: World, v: World, u: World, id: MachineID)
    requires TouchesJournalled(w, v, id) && TouchesOnly(v, u, id)
    ensures TouchesJournalled(w, u, id)
  {
    hide OtherRelaysKept, OthersPublished, OtherRecordsKept;
    JournalAside(v, u, id);
    TouchesThen(Unjournalled(w, id), Unjournalled(v, id), Unjournalled(u, id), id);
  }

  lemma JournalAside(v: World, u: World, id: MachineID)
    requires TouchesOnly(v, u, id)
    ensures TouchesOnly(Unjournalled(v, id), Unjournalled(u, id), id)
  {
  }

  ghost predicate OnlyJournalOf(v: World, u: World, id: MachineID) {
    && u == v.(journal := u.journal, abandoned := u.abandoned)
    && u.journal - {id} == v.journal - {id}
    && u.abandoned - {id} == v.abandoned - {id}
  }

  lemma ThenJournal(w: World, v: World, u: World, id: MachineID)
    requires TouchesJournalled(w, v, id) && OnlyJournalOf(v, u, id)
    ensures TouchesJournalled(w, u, id) && u.machines == v.machines
  {
    hide TouchesOnly;
    assert Unjournalled(u, id) == Unjournalled(v, id);
  }

  lemma UpsertIsJournal(v: World, op: OperationRecord)
    ensures OnlyJournalOf(v, AfterUpsert(v, op), op.machineID)
  {
    hide Torn;
  }

  lemma ClearIsJournal(v: World, id: MachineID)
    ensures OnlyJournalOf(v, AfterClear(v, id), id)
  {
    hide Torn;
  }

  /** One machine's record and the volatile state may differ; everything else
      that survives a restart is the same. */
  ghost predicate KeepsRest(w: World, v: World, id: MachineID) {
    && v == w.(machines := v.machines, vms := v.vms, relays := v.relays, published := v.published, log := v.log,
               missed := v.missed, abandoned := v.abandoned)
    && v.abandoned - {id} == w.abandoned - {id}
    && OtherRecordsKept(w, v, id)
    && w.log <= v.log
  }

  /** No other machine's journal entry or record has changed, and the log only grew. */
  ghost predicate HandlesOnly(w: World, v: World, id: MachineID) {
    v.journal - {id} == w.journal - {id} && w.log <= v.log && OtherRecordsKept(w, v, id)
  }

  lemma JournalOfTouches(w: World, v: World, id: MachineID)
    ensures TouchesOnly(w, v, id) ==> HandlesOnly(w, v, id)
    ensures TouchesJournalled(w, v, id) ==> HandlesOnly(w, v, id)
  {
    hide OtherRelaysKept, OthersPublished;
    assert TouchesJournalled(w, v, id) ==> Unjournalled(w, id).journal == Unjournalled(v, id).journal;
  }

  lemma ApartThenClear(w: World, v: World, id: MachineID)
    requires HandlesOnly(w, v, id)
    ensures HandlesOnly(w, AfterClear(v, id), id)
  {
    hide Torn;
    assert AfterClear(v, id).journal - {id} == v.journal - {id};
  }

  lemma ApartNothing(w: World, id: MachineID)
    ensures HandlesOnly(w, w, id)
  {
  }

  // ------------------------------------------------------ ending a run

  function FailedRecord(r: MachineRecord, reason: string): MachineRecord {
    r.(phase := Failed, error := reason, readyNonce := "", pid := 0, socketPath := "", runtimeHost := "",
       tapDevice := "", startedAt := None)
  }

  function StoppedRecord(r: MachineRecord): MachineRecord {
    r.(phase := Stopped, error := "", readyNonce := "", pid := 0, socketPath := "", runtimeHost := "",
       tapDevice := "", startedAt := None)
  }

  /** The same machine at rest, under a phase its record may move to. */
  ghost predicate AtRest(r: MachineRecord, s: MachineRecord) {
    && (s.phase.Stopped? || (s.phase.Failed? && IsLive(r.phase)))
    && NoRuntimeFields(s)
    && s.readyNonce == ""
    && s.id == r.id
    && s.systemVolumeID == r.systemVolumeID
    && s.guestKey == r.guestKey
    && s.storageBytes >= r.storageBytes
    && s.memoryMiB > 0
    && RelayPortsInRange(s.ports)
  }

  lemma SystemVolumeIsItsDisk(w: World, r: MachineRecord)
    requires Good(w) && r.id in w.machines && w.machines[r.id] == r
    ensures r.systemVolumeID == SystemVolumeID(r.id) && r.storageBytes > 0
    ensures r.systemVolumeID in w.volumes ==> IsSystemDisk(w.volumes[r.systemVolumeID], r.id)
  {
    hide SystemVolumeID, SystemVolumePath, HostPort, Networked, LegalLog, Replay;
    assert Coherent(w.base, r);
  }

  /** Nothing listens for a machine that is not running. */
  lemma NotRunningIsSilent(w: World, r: MachineRecord)
    requires Good(w) && r.id in w.machines && w.machines[r.id] == r && !r.phase.Running?
    ensures Silent(w, r.id)
  {
    hide Core, HostPort;
    forall name: PortName ensures (r.id, name) !in w.relays {
      assert (r.id, name) in w.relays ==> RelayStored(w, (r.id, name), w.relays[(r.id, name)]);
    }
    if !w.missed {
      forall p | p in w.published && p in w.ports ensures w.ports[p].machineID != r.id {
        assert PortStored(w, p, w.published[p]);
      }
    }
  }

  lemma RestingIsAllowed(w: World, r: MachineRecord, s: MachineRecord)
    requires Good(w) && r.id in w.machines && w.machines[r.id] == r
    requires AtRest(r, s) && Silent(w, s.id) && FitsDisk(w, s)
    ensures MayUpdate(w, s)
  {
    hide LegalLog, Replay, Networked, RelayPortsInRange, PortsDistinct, SystemVolumesPlaced, SnapshotsNamed,
      SystemVolumePath, NoNetworkClash, NoRelayClash, Mask, DisksCover, PublishedStored, RelaysStored, NetworksDistinct,
      RelayPortsDistinct, Silent, FitsDisk;
    assert Coherent(w.base, r);
  }

  lemma SameStorageFits(w: World, r: MachineRecord, s: MachineRecord)
    requires r.id in w.machines && w.machines[r.id] == r
    requires s.id == r.id && s.storageBytes == r.storageBytes
    ensures FitsDisk(w, s)
  {
  }

  lemma DefaultPortsInRange()
    ensures RelayPortsInRange(DefaultMachinePorts())
  {
    hide HostPort;
    forall name: PortName ensures RelayPortInRange(HostPort(DefaultMachinePorts(), name), name) {
      match name {
        case SSH =>
        case VNC =>
        case Exec =>
      }
    }
  }

  lemma FailingIsAllowed(w: World, r: MachineRecord, reason: string)
    requires Good(w) && r.id in w.machines && w.machines[r.id] == r && IsLive(r.phase) && Silent(w, r.id)
    ensures MayUpdate(w, FailedRecord(r, reason))
    ensures MayUpdate(w, FailedRecord(r, reason).(ports := DefaultMachinePorts()))
  {
    DefaultPortsInRange();
    assert Coherent(w.base, r);
    hide Good, Silent, FitsDisk, MayUpdate, RelayPortsInRange, DefaultMachinePorts;
    SameStorageFits(w, r, FailedRecord(r, reason));
    SameStorageFits(w, r, FailedRecord(r, reason).(ports := DefaultMachinePorts()));
    RestingIsAllowed(w, r, FailedRecord(r, reason));
    RestingIsAllowed(w, r, FailedRecord(r, reason).(ports := DefaultMachinePorts()));
  }

  lemma StoppingIsAllowed(w: World, r: MachineRecord)
    requires Good(w) && r.id in w.machines && w.machines[r.id] == r && Silent(w, r.id)
    ensures MayUpdate(w, StoppedRecord(r))
  {
    assert Coherent(w.base, r);
    hide Good, Silent, FitsDisk, MayUpdate, RelayPortsInRange;
    SameStorageFits(w, r, StoppedRecord(r));
    RestingIsAllowed(w, r, StoppedRecord(r));
  }
}
