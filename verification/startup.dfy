/** completeMachineStartup: from Starting to Running, or to Failed. */
module Startup {
  import opened Wrappers
  import opened Text
  import opened Model
  import opened Network
  import opened Store
  import opened Worlds
  import opened Daemons
  import opened Relays
  import opened PublishedPorts
  import opened Frames

  /** Closes every listener of one machine, as far as the daemon can list them. */
  method CloseListeners(d: Daemon, id: MachineID)
    requires d.Inv()
    modifies d`halted, d`faulted, d`relays, d`published, d`missed
    ensures old(d.faulted) ==> d.faulted
    ensures d.Inv() && TouchesOnly(old(d.W()), d.W(), id) && Silent(d.W(), id)
    ensures d.W() == WithPublished(WithRelays(old(d.W()), d.W().relays), d.W().published, d.W().missed)
  {
    hide FileStore.Valid, Good, Daemon.W, TouchesOnly, NoRelays, NoPublished, WithoutRelaysOf, OthersPublished, Fewer,
      OtherRelaysKept, WithRelays, WithPublished;
    ghost var w := d.W();
    TouchesNothing(w, id);
    GoodRelaysApart(w, id);
    StoppedRelaysAreGood(w, id);
    OwnRelaysOnly(w.relays, id, 0, 0);
    ClosingOwnRelays(w.relays, w.relays, id);
    StopMachineRelays(d, id);
    ThenRelays(w, w, d.W().relays, id);
    ghost var v := d.W();
    StopPublishedPortsFor(d, id);
    ThenPublished(w, v, d.W(), id);
    NoRelaysStill(v, d.W().published, d.W().missed, id);
  }

  lemma GoodRelaysApart(w: World, id: MachineID)
    requires Good(w)
    ensures Core(w) && RelaysStoredApart(w, id) && PublishedStored(w) && RelaysStored(w)
  {
    hide Core;
  }

  lemma NoRelaysStill(v: World, published: map<PortID, Port16>, missed: bool, id: MachineID)
    requires NoRelays(v, id)
    ensures NoRelays(WithPublished(v, published, missed), id)
    ensures WithPublished(v, published, missed).relays == v.relays
  {
  }

  /** What a machine was created with: starting and failing leave it alone. */
  predicate SameBody(r: MachineRecord, s: MachineRecord) {
    && s.id == r.id
    && s.artifact == r.artifact
    && s.memoryMiB == r.memoryMiB
    && s.storageBytes == r.storageBytes
    && s.systemVolumeID == r.systemVolumeID
    && s.userVolumeIDs == r.userVolumeIDs
  }

  ghost predicate FailOutcome(status: Status, w: World, v: World, r: MachineRecord, updated: MachineRecord) {
    && TouchesOnly(w, v, r.id)
    && r.id in v.machines
    && SameBody(r, v.machines[r.id])
    && if status.Done? then updated == v.machines[r.id] && updated.phase.Failed? else v.machines[r.id] == r
  }

  /** failMachineStartup. */
  method FailMachineStartup(d: Daemon, r: MachineRecord, reason: string)
    returns (status: Status, updated: MachineRecord)
    requires d.Inv() && r.id in d.W().machines && d.W().machines[r.id] == r && IsLive(r.phase)
    modifies d, d.store
    ensures d.Inv() && FailOutcome(status, old(d.W()), d.W(), r, updated)
    ensures status.Done? ==> updated == FailedRecord(r, TrimSpace(reason)).(ports := DefaultMachinePorts())
  {
    hide FileStore.Valid, Good, Core, Daemon.W, TouchesOnly, Silent, MayUpdate, DefaultMachinePorts, RelaysStored,
      RelaysStoredApart, PublishedStored, TrimSpace, FailedRecord, WithVms, AfterUpdate, WithRelays, WithPublished;
    ghost var w := d.W();
    TouchesNothing(w, r.id);
    var deleted := d.DeleteVm(ToRuntimeState(r));
    ThenVms(w, w, d.W(), r.id);
    ghost var v := d.W();
    CloseListeners(d, r.id);
    TouchesThen(w, v, d.W(), r.id);
    v := d.W();
    FailingIsAllowed(v, r, TrimSpace(reason));
    GoodRelaysApart(v, r.id);
    updated := FailedRecord(r, TrimSpace(reason)).(ports := DefaultMachinePorts());
    FailedRecordFields(r, TrimSpace(reason));
    status := d.UpdateMachine(updated);
    ThenUpdate(w, v, updated);
  }

  lemma FailedRecordFields(r: MachineRecord, reason: string)
    ensures SameBody(r, FailedRecord(r, reason)) && FailedRecord(r, reason).phase.Failed?
  {
  }

  /** The state came from this record's boot or its inspection. */
  predicate StateMatches(r: MachineRecord, state: MachineState) {
    && state.pid == r.pid
    && state.runtimeHost == r.runtimeHost
    && state.tapName == r.tapDevice
    && state.socketPath == r.socketPath
    && state.startedAt == r.startedAt
  }

  /** The guest echoed the nonce of this very boot. */
  predicate NonceMatches(r: MachineRecord, ready: GuestReady) {
    TrimSpace(r.readyNonce) == "" || TrimSpace(ready.readyNonce) == TrimSpace(r.readyNonce)
  }

  /** There is a host key, recorded or reported, and the two do not differ. */
  predicate KeyMatches(r: MachineRecord, ready: GuestReady) {
    var recorded, reported := TrimSpace(r.guestKey), TrimSpace(ready.guestKey);
    if recorded == "" then reported != "" else reported == "" || reported == recorded
  }

  /** The answer of the guest is accepted exactly if nonce and key match; the key
      to store is the recorded one, or the first one seen. */
  method JudgeGuest(r: MachineRecord, ready: GuestReady) returns (key: Option<string>)
    ensures key.Some? <==> NonceMatches(r, ready) && KeyMatches(r, ready)
    ensures key.Some? ==> key.value == TrimSpace(if TrimSpace(r.guestKey) != "" then r.guestKey else ready.guestKey) != ""
    ensures key.Some? ==> Trimmed(key.value)
  {
    hide TrimSpace, Trimmed;
    TrimSpaceTrims(ready.guestKey);
    TrimSpaceTrims(r.guestKey);
    var expectedNonce, receivedNonce := TrimSpace(r.readyNonce), TrimSpace(ready.readyNonce);
    if expectedNonce != "" && receivedNonce != expectedNonce {
      return None;
    }
    var expectedKey, guestKey := TrimSpace(r.guestKey), TrimSpace(ready.guestKey);
    if guestKey == "" {
      if expectedKey == "" {
        return None;
      }
      guestKey := expectedKey;
    }
    if expectedKey != "" && guestKey != expectedKey {
      return None;
    }
    key := Some(guestKey);
  }

  /** The handshake of one boot. */
  method CheckGuest(d: Daemon, r: MachineRecord, state: MachineState) returns (key: Option<string>)
    requires d.Inv()
    modifies d`halted, d`faulted, d`log
    ensures d.Inv() && d.W() == WithLog(old(d.W()), d.W().log) && old(d.W()).log <= d.W().log
    ensures key.Some? ==> TrimSpace(r.readyNonce) == "" || EchoedSinceBoot(d.W().log, r.id, TrimSpace(r.readyNonce))
    ensures key.Some? ==> key.value != "" && Trimmed(key.value)
    ensures key.Some? && TrimSpace(r.guestKey) != "" ==> key.value == TrimSpace(r.guestKey)
  {
    hide FileStore.Valid, Good, Daemon.W, TrimSpace, Trimmed, WithLog;
    key := None;
    var ready := d.PersonalizeGuest(r, state);
    if ready.Some? {
      key := JudgeGuest(r, ready.value);
    }
  }

  function RunningRecord(r: MachineRecord, state: MachineState, key: string): MachineRecord {
    r.(runtimeHost := state.runtimeHost, tapDevice := state.tapName, ports := DefaultMachinePorts(), guestKey := key,
       readyNonce := "", phase := Running, error := "", pid := state.pid, socketPath := state.socketPath,
       startedAt := state.startedAt)
  }

  lemma RunningIsAllowed(w: World, r: MachineRecord, state: MachineState, key: string)
    requires Good(w) && r.id in w.machines && w.machines[r.id] == r && r.phase.Starting?
    requires StateMatches(r, state) && Trimmed(key)
    requires TrimSpace(r.readyNonce) == "" || EchoedSinceBoot(w.log, r.id, TrimSpace(r.readyNonce))
    requires TrimSpace(r.guestKey) != "" ==> key == TrimSpace(r.guestKey)
    ensures MayUpdate(w, RunningRecord(r, state, key))
  {
    hide Good, HostPort, FitsDisk, FitsNetworks, Networked, SystemVolumeID, RelayPortInRange, FitsRelays, NoRelays,
      TrimSpace, BuildMachinePorts;
    var s := RunningRecord(r, state, key);
    StoredIsCoherent(w, r);
    TrimSpaceTrims(r.readyNonce);
    TrimSpaceTrims(r.guestKey);
    DefaultPortsInRange();
    NotRunningIsSilent(w, r);
    SameStorageFits(w, r, s);
    SameHostFits(w, r, s);
    SamePlaceSameNetwork(w.base, r, s);
    NoPortsNoClash(w, s);
  }

  lemma StoredIsCoherent(w: World, r: MachineRecord)
    requires Good(w) && r.id in w.machines && w.machines[r.id] == r
    ensures Coherent(w.base, r) && NetworksDistinct(w)
  {
  }

  lemma NoPortsNoClash(w: World, s: MachineRecord)
    requires s.ports == DefaultMachinePorts() && NoRelays(w, s.id)
    ensures FitsRelays(w, s)
  {
    hide HostPort;
    forall name: PortName ensures HostPort(s.ports, name) == 0 {
      match name {
        case SSH =>
        case VNC =>
        case Exec =>
      }
    }
  }

  /** A running machine with its ssh and vnc relays and all its ports open. */
  ghost predicate Converged(w: World, id: MachineID) {
    && (id, SSH) in w.relays
    && (id, VNC) in w.relays
    && forall p :: p in w.ports && w.ports[p].machineID == id ==> p in w.published
  }

  ghost predicate StartOutcome(status: Status, w: World, v: World, id: MachineID, updated: MachineRecord) {
    && TouchesOnly(w, v, id)
    && id in w.machines
    && id in v.machines
    && SameBody(w.machines[id], v.machines[id])
    && if status.Done?
       then updated == v.machines[id] && (updated.phase.Failed? || (updated.phase.Running? && Converged(v, id)))
       else IsLive(v.machines[id].phase)
  }

  /** completeMachineStartup. */
  method CompleteMachineStartup(d: Daemon, r: MachineRecord, state: MachineState)
    returns (status: Status, updated: MachineRecord)
    requires d.Inv() && r.id in d.W().machines && d.W().machines[r.id] == r && r.phase.Starting?
    requires state.phase.VmRunning? ==> StateMatches(r, state)
    modifies d, d.store
    ensures d.Inv() && StartOutcome(status, old(d.W()), d.W(), r.id, updated)
  {
    hide FileStore.Valid, Good, Core, Daemon.W, TouchesOnly, MayUpdate, RelaysStored, RelaysStoredApart, PublishedStored,
      TrimSpace, Converged, RunningRecord, WithLog, AfterUpdate, EchoedSinceBoot;
    ghost var w := d.W();
    TouchesNothing(w, r.id);
    var key: Option<string> := None;
    if state.phase.VmRunning? {
      key := CheckGuest(d, r, state);
      ThenVms(w, w, d.W(), r.id);
    }
    ghost var v := d.W();
    if key.None? {
      status, updated := FailMachineStartup(d, r, "guest did not become ready");
      TouchesThen(w, v, d.W(), r.id);
    } else {
      updated := RunningRecord(r, state, key.value);
      RunningIsAllowed(v, r, state, key.value);
      GoodRelaysApart(v, r.id);
      IdOfRunning(r, state, key.value);
      status := d.UpdateMachine(updated);
      if status.Done? {
        ThenUpdate(w, v, updated);
        v := d.W();
        status, updated := OpenListeners(d, updated);
        TouchesThen(w, v, d.W(), r.id);
      }
    }
  }

  lemma IdOfRunning(r: MachineRecord, state: MachineState, key: string)
    ensures SameBody(r, RunningRecord(r, state, key)) && RunningRecord(r, state, key).phase.Running?
  {
  }

  /** The listeners of a machine that just became Running; without them it fails. */
  method OpenListeners(d: Daemon, r: MachineRecord) returns (status: Status, updated: MachineRecord)
    requires d.Inv() && r.id in d.W().machines && d.W().machines[r.id] == r && r.phase.Running?
    modifies d, d.store
    ensures d.Inv() && StartOutcome(status, old(d.W()), d.W(), r.id, updated)
  {
    hide FileStore.Valid, Good, Core, Daemon.W, TouchesOnly, RelaysStored, RelaysStoredApart, PublishedStored,
      TrimSpace, OtherRelaysKept, NoRelays, WithoutRelaysOf, HostPort, Fewer, OthersPublished, Converged, AfterUpdate,
      WithRelays, WithPublished, RelaysOutcome;
    ghost var w := d.W();
    TouchesNothing(w, r.id);
    status, updated := EnsureMachineRelays(d, r);
    EnsuringTouches(w, d.W(), r, status, updated);
    ghost var v := d.W();
    if !status.Done? {
      status, updated := FailMachineStartup(d, r, "relays are unavailable");
      TouchesThen(w, v, d.W(), r.id);
    } else {
      LiveHostIsNotBlank(v, updated);
      status := EnsurePublishedPortsFor(d, updated);
      PublishingTouches(w, v, d.W(), r.id);
      v := d.W();
      if status.Done? {
        AllListening(v, r.id);
      } else {
        GoodRelaysApart(v, r.id);
        StoppedRelaysAreGood(v, r.id);
        StopMachineRelays(d, r.id);
        OwnRelaysOnly(v.relays, r.id, 0, 0);
        ClosingOwnRelays(v.relays, v.relays, r.id);
        ThenRelays(w, v, d.W().relays, r.id);
        v := d.W();
        status, updated := FailMachineStartup(d, updated, "published ports are unavailable");
        TouchesThen(w, v, d.W(), r.id);
      }
    }
  }

  lemma AllListening(w: World, id: MachineID)
    requires (id, SSH) in w.relays && (id, VNC) in w.relays
    requires forall p :: p in w.ports && w.ports[p].machineID == id ==> p in w.published
    ensures Converged(w, id)
  {
  }

  lemma EnsuringTouches(w: World, v: World, r: MachineRecord, status: Status, updated: MachineRecord)
    requires RelaysOutcome(status, w, v, r, updated) && r.id in w.machines && w.machines[r.id] == r && r.phase.Running?
    ensures TouchesOnly(w, v, r.id)
    ensures r.id in v.machines && v.machines[r.id] == updated && updated == r.(ports := updated.ports)
    ensures status.Done? ==> (r.id, SSH) in v.relays && (r.id, VNC) in v.relays
    ensures !status.Done? ==> updated == r
  {
  }

  lemma PublishingTouches(w: World, v: World, u: World, id: MachineID)
    requires TouchesOnly(w, v, id) && Fewer(u.published, v.published)
    requires u == WithPublished(v, u.published, v.missed)
    ensures TouchesOnly(w, u, id) && u.relays == v.relays && u.ports == v.ports
  {
  }
}
