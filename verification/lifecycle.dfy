/** Reconciling one machine, starting it and stopping it. */
module Lifecycle {
  import opened Wrappers
  import opened Text
  import opened Model
  import opened Store
  import opened Network
  import opened Worlds
  import opened Daemons
  import opened Relays
  import opened Frames
  import opened Startup
  import opened Networking

  // -------------------------------------------------- reconcileMachine

  /** After success the machine is settled: no longer Starting, and if Running,
      its process is alive and its ssh and vnc relays are open. */
  ghost predicate Settled(w: World, v: World, id: MachineID, updated: MachineRecord) {
    && id in w.machines
    && id in v.machines
    && updated == v.machines[id]
    && !updated.phase.Starting?
    && (IsLive(w.machines[id].phase) ==> updated.phase.Running? || updated.phase.Failed?)
    && (updated.phase.Running? ==> (id, SSH) in v.relays && (id, VNC) in v.relays)
    && (!IsLive(w.machines[id].phase) ==> v == w)
    && (w.machines[id].phase.Running? ==>
          if w.machines[id].pid in w.vms then updated == w.machines[id].(ports := updated.ports) else updated.phase.Failed?)
    && SameBody(w.machines[id], updated)
  }

  /** The machine, if it has a record, keeps it, and what it was created with. */
  ghost predicate SameBodyStored(w: World, v: World, id: MachineID) {
    id in w.machines ==> id in v.machines && SameBody(w.machines[id], v.machines[id])
  }

  ghost predicate ReconcileOutcome(status: Status, w: World, v: World, id: MachineID, updated: MachineRecord) {
    && TouchesOnly(w, v, id)
    && SameBodyStored(w, v, id)
    && (status.Done? ==> Settled(w, v, id, updated))
    && (status.NotFound? ==> id !in w.machines)
  }

  method ReconcileMachine(d: Daemon, id: MachineID) returns (status: Status, updated: MachineRecord)
    requires d.Inv()
    modifies d, d.store
    ensures d.Inv() && ReconcileOutcome(status, old(d.W()), d.W(), id, updated)
  {
    hide FileStore.Valid, Good, Daemon.W, TouchesOnly, Converged, RelaysOutcome, DefaultMachinePorts;
    ghost var w := d.W();
    TouchesNothing(w, id);
    updated := NoMachine();
    var found;
    status, found := d.GetMachine(id);
    if status.Done? {
      updated := found.value;
      if IsLive(updated.phase) {
        var ok := d.Tick();
        if ok {
          status, updated := ReconcileLive(d, updated);
        } else {
          status := Fault;
        }
      }
    } else if status.Conflict? {
      status := Fault;
    }
  }

  /** The zero record a failed call hands back. */
  function NoMachine(): MachineRecord {
    MachineRecord("", "", 0, 0, "", [], "", "", [], "", "", Failed, "", 0, "", None)
  }

  /** A live record against the VM table. */
  method ReconcileLive(d: Daemon, r: MachineRecord) returns (status: Status, updated: MachineRecord)
    requires d.Inv() && r.id in d.W().machines && d.W().machines[r.id] == r && IsLive(r.phase)
    modifies d, d.store
    ensures d.Inv() && !status.NotFound? && ReconcileOutcome(status, old(d.W()), d.W(), r.id, updated)
  {
    hide FileStore.Valid, Good, TouchesOnly, Converged, RelaysOutcome, WithRelays, AfterUpdate, DefaultMachinePorts;
    ghost var w := d.W();
    var state := d.Inspect(ToRuntimeState(r));
    LiveHasProcess(w, r);
    if r.phase.Starting? {
      status, updated := CompleteMachineStartup(d, r, state);
      StartedIsSettled(status, w, d.W(), r.id, updated);
    } else if state.phase.VmRunning? {
      status, updated := EnsureMachineRelays(d, r);
      EnsuringTouches(w, d.W(), r, status, updated);
    } else {
      status, updated := RetireDeadMachine(d, r, state);
    }
    if status.NotFound? {
      status := Fault;
    }
  }

  lemma LiveHasProcess(w: World, r: MachineRecord)
    requires Good(w) && r.id in w.machines && w.machines[r.id] == r && IsLive(r.phase)
    ensures r.pid > 0
  {
    StoredIsCoherent(w, r);
  }

  lemma StartedIsSettled(status: Status, w: World, v: World, id: MachineID, updated: MachineRecord)
    requires StartOutcome(status, w, v, id, updated) && id in w.machines && w.machines[id].phase.Starting?
    ensures !status.NotFound? ==> ReconcileOutcome(status, w, v, id, updated)
    ensures TouchesOnly(w, v, id) && (status.Done? ==> Settled(w, v, id, updated))
  {
    hide TouchesOnly;
  }

  /** The dead branch of reconcileMachine: the ports stay in the record. */
  method RetireDeadMachine(d: Daemon, r: MachineRecord, state: MachineState) returns (status: Status, updated: MachineRecord)
    requires d.Inv() && r.id in d.W().machines && d.W().machines[r.id] == r && IsLive(r.phase)
    modifies d, d.store
    ensures d.Inv() && FailOutcome(status, old(d.W()), d.W(), r, updated)
    ensures status.Done? ==> updated == FailedRecord(r, state.error) && state.pid !in d.W().vms
  {
    hide FileStore.Valid, Good, Core, Daemon.W, TouchesOnly, Silent, MayUpdate, DefaultMachinePorts, RelaysStored,
      RelaysStoredApart, PublishedStored, FailedRecord, WithVms, AfterUpdate, WithRelays, WithPublished;
    ghost var w := d.W();
    TouchesNothing(w, r.id);
    updated := r;
    status := d.DeleteVm(state);
    ThenVms(w, w, d.W(), r.id);
    if status.Done? {
      ghost var v := d.W();
      CloseListeners(d, r.id);
      TouchesThen(w, v, d.W(), r.id);
      v := d.W();
      FailingIsAllowed(v, r, state.error);
      GoodRelaysApart(v, r.id);
      updated := FailedRecord(r, state.error);
      FailedRecordFields(r, state.error);
      status := d.UpdateMachine(updated);
      ThenUpdate(w, v, updated);
    }
  }

  // ------------------------------------------------------------- stopping

  ghost predicate StopOutcome(status: Status, w: World, v: World, r: MachineRecord) {
    && TouchesOnly(w, v, r.id)
    && r.id in v.machines
    && v.machines[r.id] == (if status.Done? then StoppedRecord(r) else r)
    && (status.Done? ==> Silent(v, r.id) && r.pid !in v.vms)
  }

  /** The tap of a stored machine can always be found again. */
  lemma RecordIsDeletable(w: World, r: MachineRecord)
    requires Good(w) && r.id in w.machines && w.machines[r.id] == r
    ensures Daemon.Deletable(ToRuntimeState(r))
  {
    hide Good, AllocationFromGuestIP, NetworkForIndex, DottedQuad, Mask, Pow2, HostPort, Networked;
    StoredIsCoherent(w, r);
    if IsLive(r.phase) {
      var i := LiveMachineHasNetwork(w, r);
    }
  }

  /** stopMachineRecord: the listeners close first, then the VM and its network
      go, and only then does the record say Stopped. */
  method StopMachineRecord(d: Daemon, r: MachineRecord) returns (status: Status)
    requires d.Inv() && r.id in d.W().machines && d.W().machines[r.id] == r
    modifies d, d.store
    ensures d.Inv() && StopOutcome(status, old(d.W()), d.W(), r)
    ensures old(d.faulted) ==> d.faulted
    ensures !d.faulted ==> status.Done?
  {
    hide FileStore.Valid, Good, Core, Daemon.W, TouchesOnly, Silent, MayUpdate, RelaysStored, RelaysStoredApart,
      PublishedStored, StoppedRecord, WithVms, AfterUpdate, WithRelays, WithPublished, TrimSpace;
    ghost var w := d.W();
    TouchesNothing(w, r.id);
    CloseListeners(d, r.id);
    ghost var v := d.W();
    if r.phase.Running? && TrimSpace(r.runtimeHost) != "" {
      ShutDownGuest(d, r);
      ThenVms(w, v, d.W(), r.id);
      SilentStill(v, d.W(), r.id);
      v := d.W();
    }
    RecordIsDeletable(v, r);
    status := d.DeleteVm(ToRuntimeState(r));
    ThenVms(w, v, d.W(), r.id);
    SilentStill(v, d.W(), r.id);
    v := d.W();
    if status.Done? {
      StoppingIsAllowed(v, r);
      GoodRelaysApart(v, r.id);
      StoppedRecordFields(r);
      status := d.UpdateMachine(StoppedRecord(r));
      ThenUpdate(w, v, StoppedRecord(r));
      SilentAfterUpdate(v, StoppedRecord(r));
    }
  }

  /** The poweroff inside the guest: the process may exit on its own, or not. */
  method ShutDownGuest(d: Daemon, r: MachineRecord)
    requires d.Inv()
    modifies d`halted, d`faulted, d`vms
    ensures old(d.faulted) ==> d.faulted
    ensures d.Inv() && d.W() == WithVms(old(d.W()), d.W().vms)
    ensures d.W().vms == old(d.W()).vms || d.W().vms == old(d.W()).vms - {r.pid}
  {
    hide FileStore.Valid, Good, Daemon.W;
    var ok := d.Tick();
    if ok {
      d.LoseVm(r.pid);
    }
  }

  lemma StoppedRecordFields(r: MachineRecord)
    ensures StoppedRecord(r).id == r.id && StoppedRecord(r).phase.Stopped?
    ensures SameBody(r, StoppedRecord(r))
  {
  }

  lemma SilentStill(v: World, u: World, id: MachineID)
    ensures Silent(v, id) && u == WithVms(v, u.vms) ==> Silent(u, id)
  {
  }

  lemma SilentAfterUpdate(v: World, r: MachineRecord)
    requires r.id in v.machines
    ensures Silent(v, r.id) ==> Silent(AfterUpdate(v, r), r.id)
    ensures AfterUpdate(v, r).vms == v.vms
  {
  }

  /** An operation's own entry is there, or gone, or was never written. */
  ghost predicate EntryFate(w: World, v: World, op: OperationRecord) {
    v.journal == w.journal || v.journal == w.journal[op.machineID := op] || v.journal == w.journal - {op.machineID}
  }

  lemma EntryCleared(w: World, v: World, op: OperationRecord)
    requires v.journal == w.journal[op.machineID := op]
    ensures EntryFate(w, AfterClear(v, op.machineID), op) && OwnEntryAtMost(AfterClear(v, op.machineID), op)
    ensures EntryFate(w, v, op) && OwnEntryAtMost(v, op)
  {
    hide AfterClear;
    assert v.journal - {op.machineID} == w.journal - {op.machineID};
  }

  ghost predicate OwnEntryAtMost(v: World, op: OperationRecord) {
    op.machineID in v.journal ==> v.journal[op.machineID] == op
  }

  function StopOpFor(id: MachineID): OperationRecord {
    OperationRecord(id, StopOp, None, 0, 0)
  }

  function StartOpFor(id: MachineID): OperationRecord {
    OperationRecord(id, StartOp, None, 0, 0)
  }

  lemma SameDiskAndStorage(w: World, v: World, id: MachineID)
    requires TouchesJournalled(w, v, id) && SameBodyStored(w, v, id) && id in w.machines
    ensures Torn(v, id) <==> Torn(w, id)
    ensures Torn(w, id) ==> DiskSize(v, id) == DiskSize(w, id)
  {
    assert Unjournalled(v, id).files == Unjournalled(w, id).files;
  }

  /** Afterwards the size of the disk is accounted for exactly if it agreed with
      the record, or its pending resize was there and the journal is unchanged. */
  ghost predicate AccountedAfter(w: World, v: World, id: MachineID) {
    SizeAccounted(v, id) <==> !Torn(w, id) || (v.journal == w.journal && SizeAccounted(w, id))
  }

  /** That is so of every call that journals its own kind of entry. */
  lemma ForgottenWithItsEntry(w: World, v: World, op: OperationRecord)
    requires TouchesJournalled(w, v, op.machineID) && SameBodyStored(w, v, op.machineID) && EntryFate(w, v, op)
    requires op.machineID in w.machines && !op.kind.ResizeOp?
    ensures AccountedAfter(w, v, op.machineID)
    ensures OwnEntryAtMost(v, op) ==> (SizeAccounted(v, op.machineID) <==> !Torn(w, op.machineID))
  {
    hide Torn, DiskSize, TouchesJournalled, SameBodyStored;
    SameDiskAndStorage(w, v, op.machineID);
  }

  ghost predicate StoppedOutcome(status: Status, w: World, v: World, id: MachineID) {
    && TouchesJournalled(w, v, id)
    && SameBodyStored(w, v, id)
    && EntryFate(w, v, StopOpFor(id))
    && (status.NotFound? ==> id !in w.machines && v == w)
    && (status.Done? ==> id in w.machines && id in v.machines)
    && (status.Done? && w.machines[id].phase.Stopped? ==> v == w)
    && (status.Done? && !w.machines[id].phase.Stopped? ==>
          IsStopped(w.machines[id], v) && OwnEntryAtMost(v, StopOpFor(id)))
  }

  /** The record says so, the process is gone and nothing listens for it. */
  ghost predicate IsStopped(r: MachineRecord, v: World) {
    && r.id in v.machines
    && v.machines[r.id] == StoppedRecord(r)
    && r.pid !in v.vms
    && Silent(v, r.id)
  }

  lemma StoppedAside(r: MachineRecord, v: World, u: World)
    requires IsStopped(r, v) && OnlyJournalOf(v, u, r.id)
    ensures IsStopped(r, u)
  {
    hide StoppedRecord;
  }

  /** StopMachine. */
  method StopMachine(d: Daemon, id: MachineID) returns (status: Status)
    requires d.Inv()
    modifies d, d.store
    ensures d.Inv() && StoppedOutcome(status, old(d.W()), d.W(), id)
    ensures id in old(d.W()).machines ==> AccountedAfter(old(d.W()), d.W(), id)
    ensures id in old(d.W()).machines && status.Done? && !old(d.W()).machines[id].phase.Stopped? ==>
              (SizeAccounted(d.W(), id) <==> !Torn(old(d.W()), id))
  {
    hide FileStore.Valid, Good, Daemon.W, TouchesOnly, TouchesJournalled, Silent, AfterUpsert, AfterClear, OnlyJournalOf,
      StoppedRecord, SizeAccounted, Torn, AccountedAfter;
    ghost var w := d.W();
    JournalledNothing(w, id);
    var found;
    status, found := d.GetMachine(id);
    if status.Done? && !found.value.phase.Stopped? {
      var op := StopOpFor(id);
      status := d.UpsertOperation(op);
      if status.Done? {
        UpsertIsJournal(w, op);
        ghost var v := d.W();
        ThenJournal(w, w, v, id);
        status := StopMachineRecord(d, found.value);
        JournalledThen(w, v, d.W(), id);
        TouchedJournal(v, d.W(), id);
        StoppedRecordFields(found.value);
        v := d.W();
        EntryCleared(w, v, op);
        if status.Done? {
          var _ := d.DeleteOperation(id);
          ClearIsJournal(v, id);
          ThenJournal(w, v, AfterClear(v, id), id);
          StoppedAside(found.value, v, AfterClear(v, id));
        } else {
          status := Fault;
        }
      }
    } else if status.Conflict? {
      status := Fault;
    }
    if id in w.machines {
      ForgottenWithItsEntry(w, d.W(), StopOpFor(id));
    }
  }

  // ------------------------------------------------------------- starting

  function StartingRecord(r: MachineRecord, state: MachineState, nonce: string): MachineRecord {
    r.(runtimeHost := state.runtimeHost, tapDevice := state.tapName, ports := DefaultMachinePorts(), readyNonce := nonce,
       phase := Starting, error := "", pid := state.pid, socketPath := state.socketPath, startedAt := state.startedAt)
  }

  lemma StartingIsAllowed(w: World, r: MachineRecord, networks: seq<Allocation>, state: MachineState, nonce: string)
    requires Good(w) && r.id in w.machines && w.machines[r.id] == r && r.phase.Stopped?
    requires CoversNetworks(w, r.id, networks) && BootedOn(w.base, networks, state)
    requires nonce != "" && Trimmed(nonce) && FreshNonce(w.log, nonce)
    ensures MayUpdate(w, StartingRecord(r, state, nonce)) && MayUpdate(w, r)
  {
    hide Good, HostPort, FitsDisk, FitsNetworks, Networked, SystemVolumeID, RelayPortInRange, Silent, TrimSpace,
      BuildMachinePorts, CoversNetworks, NetworkForIndex, RelayPortsInRange, DefaultMachinePorts, FreshNonce;
    var s := StartingRecord(r, state, nonce);
    StoredIsCoherent(w, r);
    DefaultPortsInRange();
    NotRunningIsSilent(w, r);
    SameStorageFits(w, r, s);
    SameStorageFits(w, r, r);
    BootedBesideOthers(w, networks, state, s);
    RestingIsAllowed(w, r, r);
  }

  /** hex.EncodeToString of sixteen random bytes. */
  method NewReadyNonce(d: Daemon) returns (nonce: Option<string>)
    requires d.Inv()
    modifies d`halted, d`faulted
    ensures d.Inv() && d.W() == old(d.W())
    ensures nonce.Some? ==> nonce.value != "" && Trimmed(nonce.value) && FreshNonce(d.W().log, nonce.value)
  {
    hide FileStore.Valid, Good, FreshNonce, Trimmed;
    var ok := d.Tick();
    var text: string := *;
    nonce := if ok && text != "" && Trimmed(text) && FreshNonce(d.log, text) then Some(text) else None;
  }

  /** loadAttachableUserVolumes. */
  method LoadAttachableUserVolumes(d: Daemon, id: MachineID, volumeIDs: seq<VolumeID>)
    returns (status: Status, volumes: seq<VolumeRecord>)
    requires d.Inv()
    modifies d`halted, d`faulted
    ensures d.Inv() && d.W() == old(d.W())
    ensures status.Done? ==> |volumes| == |volumeIDs|
    ensures status.Done? ==> forall k :: 0 <= k < |volumes| ==>
              && volumes[k].id == volumeIDs[k]
              && volumes[k].id in d.W().volumes
              && d.W().volumes[volumes[k].id] == volumes[k]
              && Attachable(volumes[k], id)
  {
    hide FileStore.Valid, Good, Daemon.W;
    ghost var w := d.W();
    volumes := [];
    status := Done;
    var i := 0;
    while i < |volumeIDs| && status.Done?
      invariant 0 <= i <= |volumeIDs| && d.Inv() && d.W() == w
      invariant status.Done? ==> |volumes| == i
      invariant forall k :: 0 <= k < |volumes| ==>
                  k < i && volumes[k].id == volumeIDs[k] && volumes[k].id in w.volumes
                  && w.volumes[volumes[k].id] == volumes[k] && Attachable(volumes[k], id)
    {
      var found;
      status, found := d.GetVolume(volumeIDs[i]);
      if status.Done? {
        if Attachable(found.value, id) {
          volumes := volumes + [found.value];
        } else {
          status := Conflict;
        }
      }
      i := i + 1;
    }
  }

  /** A user volume that is free or already belongs to this machine. */
  predicate Attachable(v: VolumeRecord, id: MachineID) {
    v.kind.UserVolume? && (v.attachedTo.None? || v.attachedTo.value == id)
  }

  /** Boot and the record write; a failed write takes the VM down again. */
  method BootMachine(d: Daemon, r: MachineRecord) returns (status: Status, updated: MachineRecord, state: MachineState)
    requires d.Inv() && r.id in d.W().machines && d.W().machines[r.id] == r && r.phase.Stopped?
    modifies d, d.store
    ensures d.Inv() && TouchesOnly(old(d.W()), d.W(), r.id)
    ensures r.id in d.W().machines && d.W().machines[r.id] == updated && updated.id == r.id
    ensures if status.Done? then
              && updated.phase.Starting?
              && FreshNonce(old(d.W()).log, updated.readyNonce)
              && StateMatches(updated, state)
              && SameBody(r, updated)
              && updated.pid in d.W().vms
              && d.W().vms[updated.pid] == Vm(r.id, updated.readyNonce, false)
            else updated == r
  {
    hide FileStore.Valid, Good, Core, Daemon.W, TouchesOnly, MayUpdate, RelaysStored, RelaysStoredApart, PublishedStored,
      StartingRecord, WithVms, AfterUpdate, CoversNetworks, BootedOn, Trimmed, FreshNonce;
    ghost var w := d.W();
    TouchesNothing(w, r.id);
    updated, state := r, MachineState(VmStopped, 0, "", "", "", None, "");
    var nonce := NewReadyNonce(d);
    var networks;
    status, networks := ListRunningNetworks(d, r.id);
    if status.Done? && nonce.Some? {
      status, state := d.Boot(r.id, nonce.value, networks);
      ghost var v := d.W();
      ThenVms(w, w, v, r.id);
      if status.Done? {
        StartingIsAllowed(w, r, networks, state, nonce.value);
        VmsDoNotMatter(w, v, r);
        VmsDoNotMatter(w, v, StartingRecord(r, state, nonce.value));
        StartingRecordFields(r, state, nonce.value);
        status := RecordBoot(d, r, StartingRecord(r, state, nonce.value), state);
        TouchesThen(w, v, d.W(), r.id);
        if status.Done? {
          updated := StartingRecord(r, state, nonce.value);
        }
      }
    } else {
      status := Fault;
    }
  }

  lemma StartingRecordFields(r: MachineRecord, state: MachineState, nonce: string)
    ensures var s := StartingRecord(r, state, nonce);
            SameBody(r, s) && s.phase.Starting? && StateMatches(s, state) && s.readyNonce == nonce
  {
  }

  lemma VmsDoNotMatter(w: World, v: World, r: MachineRecord)
    requires MayUpdate(w, r) && v == WithVms(w, v.vms)
    ensures MayUpdate(v, r)
  {
    hide Coherent, NoNetworkClash, NoRelayClash, HostPort, LegalUpdate, SystemVolumePath;
  }

  method RecordBoot(d: Daemon, r: MachineRecord, s: MachineRecord, state: MachineState) returns (status: Status)
    requires d.Inv() && r.id in d.W().machines && d.W().machines[r.id] == r && SameBody(r, s)
    requires MayUpdate(d.W(), s) && MayUpdate(d.W(), r)
    modifies d, d.store
    ensures d.Inv() && TouchesOnly(old(d.W()), d.W(), r.id)
    ensures r.id in d.W().machines && d.W().machines[r.id] == if status.Done? then s else r
    ensures status.Done? ==> d.W().vms == old(d.W()).vms
  {
    hide FileStore.Valid, Good, Core, Daemon.W, TouchesOnly, MayUpdate, RelaysStored, RelaysStoredApart, PublishedStored,
      WithVms, AfterUpdate;
    ghost var w := d.W();
    TouchesNothing(w, r.id);
    GoodRelaysApart(w, r.id);
    ThenUpdate(w, w, s);
    SilentAfterUpdate(w, s);
    status := d.UpdateMachine(s);
    if !status.Done? {
      var _ := d.DeleteVm(state);
      ghost var v := d.W();
      ThenVms(w, w, v, r.id);
      VmsDoNotMatter(w, v, r);
      GoodRelaysApart(v, r.id);
      ThenUpdate(w, v, r);
      var _ := d.UpdateMachine(r);
    }
  }

  ghost predicate StartedOutcome(status: Status, w: World, v: World, id: MachineID) {
    && TouchesJournalled(w, v, id)
    && SameBodyStored(w, v, id)
    && EntryFate(w, v, StartOpFor(id))
    && (status.NotFound? ==> id !in w.machines)
    && (status.Done? ==> id in w.machines && id in v.machines)
    && (status.Done? ==> v.machines[id].phase.Running? || v.machines[id].phase.Failed?)
    && (status.Done? && w.machines[id].phase.Stopped? ==> OwnEntryAtMost(v, StartOpFor(id)))
    && (status.Done? && w.machines[id].phase.Stopped? && v.machines[id].phase.Running? ==> Converged(v, id))
    && (id in w.machines && w.machines[id].phase.Failed? ==> v == w && !status.Done?)
    && (id in w.machines && w.machines[id].phase.Running? ==> v == w)
  }

  /** StartMachine. */
  method StartMachine(d: Daemon, id: MachineID) returns (status: Status)
    requires d.Inv()
    modifies d, d.store
    ensures d.Inv() && StartedOutcome(status, old(d.W()), d.W(), id)
    ensures id in old(d.W()).machines ==> AccountedAfter(old(d.W()), d.W(), id)
    ensures id in old(d.W()).machines && status.Done? && old(d.W()).machines[id].phase.Stopped? ==>
              (SizeAccounted(d.W(), id) <==> !Torn(old(d.W()), id))
  {
    hide FileStore.Valid, Good, Daemon.W, TouchesOnly, TouchesJournalled, SizeAccounted, Torn, AccountedAfter;
    ghost var w := d.W();
    JournalledNothing(w, id);
    var found;
    status, found := d.GetMachine(id);
    if status.Done? {
      match found.value.phase {
        case Running =>
        case Starting =>
          var settled;
          status, settled := ReconcileMachine(d, id);
          JournalledThen(w, w, d.W(), id);
          TouchedJournal(w, d.W(), id);
        case Failed =>
          status := Conflict;
        case Stopped =>
          status := StartStopped(d, found.value);
      }
    }
    if id in w.machines {
      ForgottenWithItsEntry(w, d.W(), StartOpFor(id));
    }
  }

  /** The journalled part of StartMachine. A boot that fails leaves its journal
      entry behind, and the next reconcile tries again. */
  method StartStopped(d: Daemon, r: MachineRecord) returns (status: Status)
    requires d.Inv() && r.id in d.W().machines && d.W().machines[r.id] == r && r.phase.Stopped?
    modifies d, d.store
    ensures d.Inv() && !status.NotFound? && StartedOutcome(status, old(d.W()), d.W(), r.id)
  {
    hide FileStore.Valid, Good, Daemon.W, TouchesOnly, TouchesJournalled, AfterUpsert, OnlyJournalOf;
    ghost var w := d.W();
    JournalledNothing(w, r.id);
    var op := StartOpFor(r.id);
    status := d.UpsertOperation(op);
    if status.Done? {
      UpsertIsJournal(w, op);
      ghost var v := d.W();
      ThenJournal(w, w, v, r.id);
      status := StartJournalled(d, w, r);
    }
  }

  lemma ConvergedAside(v: World, u: World, id: MachineID)
    requires OnlyJournalOf(v, u, id)
    ensures Converged(v, id) ==> Converged(u, id)
  {
  }

  method StartJournalled(d: Daemon, ghost w: World, r: MachineRecord) returns (status: Status)
    requires d.Inv() && r.id in d.W().machines && d.W().machines[r.id] == r && r.phase.Stopped?
    requires r.id in w.machines && w.machines[r.id] == r && TouchesJournalled(w, d.W(), r.id)
    requires d.W().journal == w.journal[r.id := StartOpFor(r.id)]
    modifies d, d.store
    ensures d.Inv() && !status.NotFound? && StartedOutcome(status, w, d.W(), r.id)
  {
    hide FileStore.Valid, Good, Daemon.W, TouchesOnly, TouchesJournalled, AfterClear, OnlyJournalOf, Converged;
    ghost var v := d.W();
    EntryCleared(w, v, StartOpFor(r.id));
    var systemVolume, userVolumes, updated, state;
    status, systemVolume := d.GetVolume(r.systemVolumeID);
    if status.Done? {
      status, userVolumes := LoadAttachableUserVolumes(d, r.id, r.userVolumeIDs);
    }
    if status.Done? {
      status, updated, state := BootMachine(d, r);
      JournalledThen(w, v, d.W(), r.id);
      TouchedJournal(v, d.W(), r.id);
      v := d.W();
      EntryCleared(w, v, StartOpFor(r.id));
      if status.Done? {
        status, updated := CompleteMachineStartup(d, updated, state);
        JournalledThen(w, v, d.W(), r.id);
        TouchedJournal(v, d.W(), r.id);
        v := d.W();
        EntryCleared(w, v, StartOpFor(r.id));
        if status.Done? {
          var _ := d.DeleteOperation(r.id);
          ClearIsJournal(v, r.id);
          ThenJournal(w, v, AfterClear(v, r.id), r.id);
          ConvergedAside(v, AfterClear(v, r.id), r.id);
        }
      }
    }
    if status.NotFound? {
      status := Fault;
    }
  }
}
