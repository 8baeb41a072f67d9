/** Choosing a network for a new VM that no live machine uses. */
module Networking {
  import opened Wrappers
  import opened Text
  import opened Model
  import opened KeyedRows
  import opened Store
  import opened Network
  import opened Worlds
  import opened Daemons

  predicate WantsNetwork(r: MachineRecord, ignore: MachineID) {
    r.id != ignore && IsLive(r.phase) && TrimSpace(r.runtimeHost) != "" && TrimSpace(r.tapDevice) != ""
  }

  predicate NetworkListed(r: MachineRecord, networks: seq<Allocation>) {
    var network := AllocationFromGuestIP(r.runtimeHost, r.tapDevice);
    network.Some? && network.value in networks
  }

  /** Every live machine but one has its network in the list. */
  ghost predicate CoversNetworks(w: World, ignore: MachineID, networks: seq<Allocation>) {
    forall o :: o in w.machines && o != ignore && IsLive(w.machines[o].phase) ==> NetworkListed(w.machines[o], networks)
  }

  /** listRunningNetworks. */
  method ListRunningNetworks(d: Daemon, ignore: MachineID) returns (status: Status, networks: seq<Allocation>)
    requires d.Inv()
    modifies d`halted, d`faulted
    ensures d.Inv() && d.W() == old(d.W())
    ensures status.Done? ==> CoversNetworks(d.W(), ignore, networks)
  {
    hide FileStore.Valid, Good, Daemon.W, TrimSpace, AllocationFromGuestIP, Index, CoversNetworks;
    networks := [];
    var records;
    status, records := d.ListMachines();
    if !status.Done? {
      return;
    }
    var i := 0;
    while i < |records|
      invariant 0 <= i <= |records|
      invariant forall k :: 0 <= k < i && WantsNetwork(records[k], ignore) ==> NetworkListed(records[k], networks)
    {
      var record := records[i];
      if WantsNetwork(record, ignore) {
        var network := AllocationFromGuestIP(record.runtimeHost, record.tapDevice);
        if network.None? {
          return Fault, networks;
        }
        networks := networks + [network.value];
      }
      i := i + 1;
    }
    EveryLiveMachineIsListed(d.W(), ignore, records, networks);
  }

  lemma EveryLiveMachineIsListed(w: World, ignore: MachineID, records: seq<MachineRecord>, networks: seq<Allocation>)
    requires Good(w) && Unique(records, MachineKey) && Index(records, MachineKey) == w.machines
    requires forall k :: 0 <= k < |records| && WantsNetwork(records[k], ignore) ==> NetworkListed(records[k], networks)
    ensures CoversNetworks(w, ignore, networks)
  {
    hide Good, Index, AllocationFromGuestIP, TrimSpace;
    IndexHolds(records, MachineKey);
    forall o | o in w.machines && o != ignore && IsLive(w.machines[o].phase)
      ensures NetworkListed(w.machines[o], networks)
    {
      var k :| 0 <= k < |records| && MachineKey(records[k]) == o;
      assert w.machines[MachineKey(records[k])] == records[k];
      var j := LiveMachineHasNetwork(w, records[k]);
    }
  }

  lemma LiveMachineHasNetwork(w: World, r: MachineRecord) returns (i: nat)
    requires Good(w) && r.id in w.machines && w.machines[r.id] == r && IsLive(r.phase)
    ensures w.base.Valid() && i < w.base.Subnets() && OnNetwork(r, NetworkForIndex(w.base, i))
    ensures TrimSpace(r.runtimeHost) != "" && TrimSpace(r.tapDevice) != ""
    ensures AllocationFromGuestIP(r.runtimeHost, r.tapDevice) == Some(NetworkForIndex(w.base, i))
  {
    hide LegalLog, Replay, NetworkForIndex, Mask, Pow2, HostPort, RelayPortInRange, DottedQuad, AllocationFromGuestIP,
      TrimSpace;
    assert Coherent(w.base, r);
    i :| i < w.base.Subnets() && OnNetwork(r, NetworkForIndex(w.base, i));
    RecordRebuildsAllocation(w.base, i);
    QuadIsTrimmed(NetworkForIndex(w.base, i).guestIP);
    TapNameIsTrimmed(i);
    TapNameOf(w.base, i);
    TrimSpaceTrims(r.runtimeHost);
    TrimSpaceTrims(r.tapDevice);
  }

  lemma TapNameOf(p: Prefix, i: nat)
    ensures NetworkForIndex(p, i).tapName == TAP_PREFIX + Decimal(i) != ""
  {
  }

  /** A VM booted beside the listed networks clashes with no live machine. */
  lemma BootedBesideOthers(w: World, networks: seq<Allocation>, state: MachineState, s: MachineRecord)
    requires Good(w) && CoversNetworks(w, s.id, networks) && BootedOn(w.base, networks, state)
    requires s.runtimeHost == state.runtimeHost && s.tapDevice == state.tapName
    ensures Networked(w.base, s) && FitsNetworks(w, s)
  {
    hide Good, AllocationFromGuestIP, NetworkForIndex, DottedQuad, Mask, Pow2, TrimSpace;
    var i: nat :| i < w.base.Subnets() && OnNetworkState(state, NetworkForIndex(w.base, i)) && !Taken(w.base, networks, i);
    assert OnNetwork(s, NetworkForIndex(w.base, i));
    forall o | o in w.machines && o != s.id && IsLive(w.machines[o].phase)
      ensures NoNetworkClash(s, w.machines[o])
    {
      StoredUnderItsID(w, o);
      var j := LiveMachineHasNetwork(w, w.machines[o]);
      assert NetworkListed(w.machines[o], networks);
      var k :| 0 <= k < |networks| && networks[k] == NetworkForIndex(w.base, j);
      assert i != j;
      DistinctIndicesDoNotClash(w.base, i, j);
      QuadRoundTrip(NetworkForIndex(w.base, i).guestIP);
      QuadRoundTrip(NetworkForIndex(w.base, j).guestIP);
    }
  }

  lemma StoredUnderItsID(w: World, id: MachineID)
    requires Good(w) && id in w.machines
    ensures w.machines[id].id == id
  {
  }
}
