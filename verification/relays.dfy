/** The ssh, vnc and exec relays of running machines. */
module Relays {
  import opened Wrappers
  import opened Text
  import opened Model
  import opened KeyedRows
  import opened Store
  import opened Network
  import opened Worlds
  import opened Daemons

  const SSH_PORT: Port16 := 2222
  const VNC_PORT: Port16 := 6080
  const GUESTD_PORT: Port16 := 49983

  function BuildMachinePorts(ssh: Port16, vnc: Port16, exec: Port16): (ports: seq<MachinePort>)
    ensures HostPort(ports, SSH) == ssh && HostPort(ports, VNC) == vnc && HostPort(ports, Exec) == exec
  {
    var ports := [MachinePort(SSH, SSH_PORT, ssh), MachinePort(VNC, VNC_PORT, vnc), MachinePort(Exec, GUESTD_PORT, exec)];
    assert ports[1..][1..] == [ports[2]];
    assert HostPort(ports[1..], Exec) == HostPort(ports[1..][1..], Exec) == exec;
    ports
  }

  function DefaultMachinePorts(): seq<MachinePort> {
    BuildMachinePorts(0, 0, 0)
  }

  lemma {:induction false} HostPortAppend(ports: seq<MachinePort>, last: MachinePort, name: PortName)
    ensures HostPort(ports + [last], name) ==
            if exists p <- ports :: p.name == name then HostPort(ports, name)
            else if last.name == name then last.hostPort else 0
  {
    if ports != [] {
      HostPortAppend(ports[1..], last, name);
      assert (ports + [last])[1..] == ports[1..] + [last];
      assert forall p :: p in ports <==> p == ports[0] || p in ports[1..];
    } else {
      assert ports + [last] == [last];
    }
  }

  /** setMachineExecRelayPort: rewrites the exec entries, adding one if there is none. */
  method SetExecRelayPort(ports: seq<MachinePort>, relayPort: Port16) returns (updated: seq<MachinePort>)
    ensures HostPort(updated, Exec) == relayPort
    ensures HostPort(updated, SSH) == HostPort(ports, SSH) && HostPort(updated, VNC) == HostPort(ports, VNC)
  {
    updated := [];
    var replaced := false;
    var i := 0;
    while i < |ports|
      invariant 0 <= i <= |ports| && |updated| == i
      invariant forall k :: 0 <= k < i ==> updated[k].name == ports[k].name
      invariant forall k :: 0 <= k < i ==>
                  updated[k].hostPort == if ports[k].name.Exec? then relayPort else ports[k].hostPort
      invariant replaced <==> exists k :: 0 <= k < i && ports[k].name.Exec?
    {
      var port := ports[i];
      if port.name.Exec? {
        port := port.(hostPort := relayPort, port := if port.port == 0 then GUESTD_PORT else port.port);
        replaced := true;
      }
      updated := updated + [port];
      i := i + 1;
    }
    RewrittenPorts(ports, updated, relayPort);
    if !replaced {
      ghost var before := updated;
      var added := MachinePort(Exec, GUESTD_PORT, relayPort);
      updated := updated + [added];
      HostPortAppend(before, added, Exec);
      HostPortAppend(before, added, SSH);
      HostPortAppend(before, added, VNC);
      AbsentPortIsZero(before, SSH);
      AbsentPortIsZero(before, VNC);
    }
  }

  lemma {:induction false} AbsentPortIsZero(ports: seq<MachinePort>, name: PortName)
    ensures (forall p <- ports :: p.name != name) ==> HostPort(ports, name) == 0
  {
    if ports != [] {
      AbsentPortIsZero(ports[1..], name);
    }
  }

  lemma {:induction false} RewrittenPorts(ports: seq<MachinePort>, updated: seq<MachinePort>, relayPort: Port16)
    requires |ports| == |updated|
    requires forall k :: 0 <= k < |ports| ==> updated[k].name == ports[k].name
    requires forall k :: 0 <= k < |ports| ==>
               updated[k].hostPort == if ports[k].name.Exec? then relayPort else ports[k].hostPort
    ensures HostPort(updated, SSH) == HostPort(ports, SSH) && HostPort(updated, VNC) == HostPort(ports, VNC)
    ensures (exists k :: 0 <= k < |ports| && ports[k].name.Exec?) ==> HostPort(updated, Exec) == relayPort
  {
    if ports != [] {
      RewrittenPorts(ports[1..], updated[1..], relayPort);
      if exists k :: 0 <= k < |ports| && ports[k].name.Exec? {
        var k :| 0 <= k < |ports| && ports[k].name.Exec?;
        assert k > 0 ==> ports[1..][k - 1].name.Exec?;
      }
    }
  }

  /** Some other running machine has this host port stored under this name. */
  ghost predicate HeldByAnother(w: World, id: MachineID, name: PortName, port: Port16) {
    exists o :: o in w.machines && o != id && w.machines[o].phase.Running? && HostPort(w.machines[o].ports, name) == port
  }

  /** usedMachineRelayPorts: exactly the ports the other running machines hold. */
  method UsedRelayPorts(d: Daemon, id: MachineID, name: PortName) returns (status: Status, used: set<Port16>)
    requires d.store.Valid() && RecordsCoherent(d.W())
    modifies d`halted, d`faulted
    ensures d.store.Valid() && d.W() == old(d.W())
    ensures (old(d.faulted) ==> d.faulted) && (!status.Done? ==> d.faulted) && d.refusals == old(d.refusals)
    ensures status.Done? ==> forall port: Port16 :: port in used <==> port != 0 && HeldByAnother(d.W(), id, name, port)
  {
    hide HostPort, Coherent;
    used := {};
    var records;
    status, records := d.ListMachines();
    if !status.Done? {
      return;
    }
    IndexHolds(records, MachineKey);
    var i := 0;
    while i < |records|
      invariant 0 <= i <= |records|
      invariant forall port: Port16 :: port in used <==>
                  port != 0 && exists k :: 0 <= k < i && RelayHolder(records[k], id, name, port)
    {
      var record := records[i];
      if record.id != id && record.phase.Running? && HostPort(record.ports, name) != 0 {
        used := used + {HostPort(record.ports, name)};
      }
      i := i + 1;
    }
    ghost var w := d.W();
    forall port: Port16 | port != 0
      ensures port in used <==> HeldByAnother(w, id, name, port)
    {
      if port in used {
        var k :| 0 <= k < i && RelayHolder(records[k], id, name, port);
        assert MachineKey(records[k]) in w.machines;
      }
      if HeldByAnother(w, id, name, port) {
        var o :| o in w.machines && o != id && w.machines[o].phase.Running? && HostPort(w.machines[o].ports, name) == port;
        var k :| 0 <= k < |records| && MachineKey(records[k]) == o;
        assert RelayHolder(records[k], id, name, port);
      }
    }
  }

  predicate RelayHolder(r: MachineRecord, id: MachineID, name: PortName, port: Port16) {
    r.id != id && r.phase.Running? && HostPort(r.ports, name) == port
  }

  /** startMachineRelayProxy: a listener that is already there is kept, whatever
      port it is bound to. */
  method StartRelay(d: Daemon, key: RelayKey, port: Port16, runtimeHost: string) returns (status: Status)
    modifies d`halted, d`faulted, d`refusals, d`relays
    ensures status.Done? ==> key in d.W().relays
    ensures status.Conflict? ==> key !in d.W().relays
    ensures old(d.faulted) ==> d.faulted
    ensures !status.NotFound? && (status.Fault? ==> d.faulted || TrimSpace(runtimeHost) == "")
    ensures d.refusals == if status.Conflict? then old(d.refusals) + [port] else old(d.refusals)
    ensures d.store.Valid() == old(d.store.Valid())
    ensures d.W() == if status.Done? && key !in old(d.W().relays) then WithRelays(old(d.W()), old(d.W().relays)[key := port])
                     else old(d.W())
  {
    if TrimSpace(runtimeHost) == "" {
      return Fault;
    }
    if key in d.relays {
      return Done;
    }
    status := d.ListenRelay(key, port);
  }

  /** The in-memory record and the open listener of one relay agree. */
  ghost predicate RelayAgrees(w: World, r: MachineRecord, name: PortName) {
    (r.id, name) in w.relays ==> HostPort(r.ports, name) == w.relays[(r.id, name)] != 0
  }

  /** Another running machine has it stored, or the host would not bind it. */
  ghost predicate Unusable(w: World, id: MachineID, name: PortName, port: Port16, refused: seq<Port16>) {
    HeldByAnother(w, id, name, port) || port in refused
  }

  /** The stored port unless it was refused; then the lowest usable one. */
  ghost predicate LowestBindable(w: World, r: MachineRecord, name: PortName, port: Port16, refused: seq<Port16>) {
    && port !in refused
    && (var stored := HostPort(r.ports, name);
        if stored != 0 && stored !in refused then port == stored
        else UnusableBelow(w, r.id, name, port, refused))
  }

  ghost predicate UnusableBelow(w: World, id: MachineID, name: PortName, port: int, refused: seq<Port16>) {
    forall lower: Port16 :: MinRelayPort(name) <= lower < port ==> Unusable(w, id, name, lower, refused)
  }

  ghost predicate NoneBindable(w: World, id: MachineID, name: PortName, refused: seq<Port16>) {
    UnusableBelow(w, id, name, MaxRelayPort(name) + 1, refused)
  }

  /** allocateMachineRelayProxy: the stored port if it can still be bound, else
      the lowest port of the range that no other running machine has stored and
      the host lets us bind. */
  method AllocateRelay(d: Daemon, current: MachineRecord, name: PortName) returns (status: Status, port: Port16)
    requires d.store.Valid() && RecordsCoherent(d.W())
    requires RelayPortInRange(HostPort(current.ports, name), name) && RelayAgrees(d.W(), current, name)
    requires HostPort(current.ports, name) != 0 ==>
               !HeldByAnother(d.W(), current.id, name, HostPort(current.ports, name))
    modifies d`halted, d`faulted, d`refusals, d`relays
    ensures d.store.Valid() && d.W() == WithRelays(old(d.W()), d.W().relays)
    ensures (old(d.faulted) ==> d.faulted) && old(d.refusals) <= d.refusals
    ensures status.Done? ==>
              && port != 0
              && RelayPortInRange(port, name)
              && !HeldByAnother(d.W(), current.id, name, port)
              && d.W().relays == old(d.W().relays)[(current.id, name) := port]
    ensures !status.Done? ==> d.W().relays == old(d.W().relays)
    ensures status.Done? ==> LowestBindable(old(d.W()), current, name, port, d.refusals[|old(d.refusals)|..])
    ensures !status.Done? && !d.faulted && TrimSpace(current.runtimeHost) != "" ==>
              NoneBindable(old(d.W()), current.id, name, d.refusals[|old(d.refusals)|..])
  {
    hide HostPort, RecordsCoherent, TrimSpace, LowestBindable, NoneBindable, HeldByAnother;
    var key := (current.id, name);
    var existing := HostPort(current.ports, name);
    ghost var w0, from := d.W(), |d.refusals|;
    if existing != 0 {
      status := StartRelay(d, key, existing, current.runtimeHost);
      if status.Done? {
        port := existing;
        assert d.refusals[from..] == [];
        StoredIsBindable(w0, current, name, d.refusals[from..]);
        SameHolders(w0, d.W(), current.id, name, port);
        return;
      }
      if !status.Conflict? {
        return Fault, 0;
      }
    }
    var used;
    status, used := UsedRelayPorts(d, current.id, name);
    if !status.Done? {
      return Fault, 0;
    }
    if existing != 0 {
      used := used + {existing};
    }
    ghost var first, tried := d.refusals[from..], [];
    AllExcluded(d.W(), current, name, used, first);
    status, port, tried := FirstBindable(d, current, name, used, first);
    assert d.refusals[from..] == first + tried;
    SameHolders(w0, d.W(), current.id, name, port);
  }

  lemma AllExcluded(w: World, r: MachineRecord, name: PortName, used: set<Port16>, first: seq<Port16>)
    requires first == if HostPort(r.ports, name) != 0 then [HostPort(r.ports, name)] else []
    requires forall p: Port16 :: p in used <==>
               (p != 0 && HeldByAnother(w, r.id, name, p)) || (HostPort(r.ports, name) != 0 && p == HostPort(r.ports, name))
    ensures Excludes(w, r, name, used, first)
  {
    hide HostPort, HeldByAnother;
  }

  lemma StoredIsBindable(w: World, r: MachineRecord, name: PortName, refused: seq<Port16>)
    requires HostPort(r.ports, name) != 0 && refused == []
    ensures LowestBindable(w, r, name, HostPort(r.ports, name), refused)
  {
  }

  /** The ports taken out of account: those of others, and the stored one if it was refused. */
  ghost predicate Excludes(w: World, r: MachineRecord, name: PortName, used: set<Port16>, first: seq<Port16>) {
    var stored := HostPort(r.ports, name);
    && first == (if stored != 0 then [stored] else [])
    && forall p: Port16 :: p in used <==> p != 0 && (HeldByAnother(w, r.id, name, p) || p == stored)
  }

  ghost predicate OnlyBelow(refused: seq<Port16>, stored: Port16, port: int) {
    forall p :: p in refused ==> p == stored || p < port
  }

  /** The scan over the range. */
  method FirstBindable(d: Daemon, current: MachineRecord, name: PortName, used: set<Port16>, ghost first: seq<Port16>)
    returns (status: Status, port: Port16, ghost tried: seq<Port16>)
    requires d.store.Valid() && (current.id, name) !in d.W().relays && Excludes(d.W(), current, name, used, first)
    modifies d`halted, d`faulted, d`refusals, d`relays
    ensures d.store.Valid() && (old(d.faulted) ==> d.faulted) && d.refusals == old(d.refusals) + tried
    ensures d.W() == if status.Done? then WithRelays(old(d.W()), old(d.W().relays)[(current.id, name) := port]) else old(d.W())
    ensures status.Done? ==>
              && port != 0
              && RelayPortInRange(port, name)
              && !HeldByAnother(old(d.W()), current.id, name, port)
              && LowestBindable(old(d.W()), current, name, port, first + tried)
    ensures !status.Done? && !d.faulted && TrimSpace(current.runtimeHost) != "" ==>
              NoneBindable(old(d.W()), current.id, name, first + tried)
  {
    hide HostPort, TrimSpace, HeldByAnother, Unusable, UnusableBelow, Excludes, OnlyBelow, LowestBindable, WithRelays,
      Daemon.W, FileStore.Valid;
    ghost var w, stored := d.W(), HostPort(current.ports, name);
    tried := [];
    assert first + tried == first;
    NothingBelow(w, current, name, used, first);
    var hostPort: int := MinRelayPort(name);
    while hostPort <= MaxRelayPort(name)
      invariant MinRelayPort(name) <= hostPort <= MaxRelayPort(name) + 1
      invariant d.store.Valid() && d.W() == w && (old(d.faulted) ==> d.faulted)
      invariant d.refusals == old(d.refusals) + tried
      invariant OnlyBelow(first + tried, stored, hostPort)
      invariant UnusableBelow(w, current.id, name, hostPort, first + tried)
    {
      if hostPort !in used {
        status := StartRelay(d, (current.id, name), hostPort, current.runtimeHost);
        FreeIsLowest(w, current, name, used, first, first + tried, hostPort);
        if status.Done? {
          port := hostPort;
          return;
        }
        if !status.Conflict? {
          return Fault, 0, tried;
        }
        assert first + tried + [hostPort] == first + (tried + [hostPort]);
        tried := tried + [hostPort];
      } else {
        UsedIsUnusable(w, current, name, used, first, first + tried, hostPort);
      }
      hostPort := hostPort + 1;
    }
    status, port := Fault, 0;
  }

  lemma NothingBelow(w: World, r: MachineRecord, name: PortName, used: set<Port16>, first: seq<Port16>)
    requires Excludes(w, r, name, used, first)
    ensures UnusableBelow(w, r.id, name, MinRelayPort(name), first)
    ensures OnlyBelow(first, HostPort(r.ports, name), MinRelayPort(name))
  {
    hide HostPort, HeldByAnother;
  }

  lemma FreeIsLowest(w: World, r: MachineRecord, name: PortName, used: set<Port16>, first: seq<Port16>, refused: seq<Port16>,
                     port: Port16)
    requires Excludes(w, r, name, used, first) && first <= refused && port !in used
    requires MinRelayPort(name) <= port <= MaxRelayPort(name)
    requires UnusableBelow(w, r.id, name, port, refused) && OnlyBelow(refused, HostPort(r.ports, name), port)
    ensures !HeldByAnother(w, r.id, name, port) && LowestBindable(w, r, name, port, refused)
    ensures UnusableBelow(w, r.id, name, port + 1, refused + [port])
    ensures OnlyBelow(refused + [port], HostPort(r.ports, name), port + 1)
  {
    hide HostPort, HeldByAnother, UnusableBelow;
    if first != [] {
      assert first[0] == refused[0];
    }
    NextUnusable(w, r.id, name, port, refused, refused + [port]);
  }

  lemma UsedIsUnusable(w: World, r: MachineRecord, name: PortName, used: set<Port16>, first: seq<Port16>,
                       refused: seq<Port16>, port: Port16)
    requires Excludes(w, r, name, used, first) && first <= refused && port in used
    requires UnusableBelow(w, r.id, name, port, refused) && OnlyBelow(refused, HostPort(r.ports, name), port)
    ensures UnusableBelow(w, r.id, name, port + 1, refused) && OnlyBelow(refused, HostPort(r.ports, name), port + 1)
  {
    hide HostPort, HeldByAnother, UnusableBelow;
    if first != [] {
      assert first[0] == refused[0];
    }
    NextUnusable(w, r.id, name, port, refused, refused);
  }

  lemma NextUnusable(w: World, id: MachineID, name: PortName, port: Port16, refused: seq<Port16>, more: seq<Port16>)
    requires UnusableBelow(w, id, name, port, refused) && Unusable(w, id, name, port, more)
    requires forall p :: p in refused ==> p in more
    ensures UnusableBelow(w, id, name, port + 1, more)
  {
    hide HeldByAnother;
    forall lower: Port16 | MinRelayPort(name) <= lower < port + 1 ensures Unusable(w, id, name, lower, more) {
      assert lower < port ==> Unusable(w, id, name, lower, refused);
    }
  }

  lemma SameHolders(w: World, v: World, id: MachineID, name: PortName, port: Port16)
    requires v.machines == w.machines
    ensures HeldByAnother(v, id, name, port) <==> HeldByAnother(w, id, name, port)
  {
    hide HostPort;
  }

  /** stopMachineRelays. */
  method StopMachineRelays(d: Daemon, id: MachineID)
    modifies d`relays
    ensures d.store.Valid() == old(d.store.Valid())
    ensures d.W() == WithRelays(old(d.W()), d.W().relays)
    ensures d.W().relays == WithoutRelaysOf(old(d.W().relays), id)
  {
    RemovingThreeRelays(d.W().relays, id);
    d.CloseRelay((id, SSH));
    d.CloseRelay((id, VNC));
    d.CloseRelay((id, Exec));
  }

  lemma RemovingThreeRelays(relays: map<RelayKey, Port16>, id: MachineID)
    ensures relays - {(id, SSH)} - {(id, VNC)} - {(id, Exec)} == WithoutRelaysOf(relays, id)
  {
    var rest := relays - {(id, SSH)} - {(id, VNC)} - {(id, Exec)};
    forall key: RelayKey
      ensures key in rest <==> key in WithoutRelaysOf(relays, id)
    {
      assert key == (key.0, key.1);
      assert key.1.SSH? || key.1.VNC? || key.1.Exec?;
    }
  }

  ghost function WithoutRelaysOf(relays: map<RelayKey, Port16>, id: MachineID): map<RelayKey, Port16> {
    map key | key in relays && key.0 != id :: relays[key]
  }

  /** Closing every relay of one machine restores the invariant from any point
      of opening them. */
  lemma StoppedRelaysAreGood(w: World, id: MachineID)
    requires Core(w) && RelaysStoredApart(w, id) && PublishedStored(w)
    ensures Good(WithRelays(w, WithoutRelaysOf(w.relays, id)))
    ensures NoRelays(WithRelays(w, WithoutRelaysOf(w.relays, id)), id)
  {
    hide Core, HostPort;
    ClosingKeepsGood(w, WithoutRelaysOf(w.relays, id), w.published, w.missed);
  }

  ghost predicate OtherRelaysKept(before: map<RelayKey, Port16>, after: map<RelayKey, Port16>, id: MachineID) {
    forall key: RelayKey :: key.0 != id ==>
      (key in before <==> key in after) && (key in before && key in after ==> before[key] == after[key])
  }

  /** A running machine's record with other relay ports. */
  lemma NewPortsAreAllowed(w: World, r: MachineRecord, ports: seq<MachinePort>)
    requires Core(w) && r.id in w.machines && w.machines[r.id] == r && r.phase.Running?
    requires RelayPortsInRange(ports)
    requires forall name: PortName :: HostPort(ports, name) != 0 ==> !HeldByAnother(w, r.id, name, HostPort(ports, name))
    requires forall name: PortName :: (r.id, name) in w.relays ==> HostPort(ports, name) == w.relays[(r.id, name)] != 0
    ensures MayUpdate(w, r.(ports := ports))
  {
    hide HostPort, LegalLog, Replay, Networked, RelayPortInRange, PortsDistinct, SystemVolumesPlaced, SnapshotsNamed,
      SystemVolumePath, SystemVolumeID, Trimmed, NoNetworkClash, Mask;
    var s := r.(ports := ports);
    assert Coherent(w.base, s) by {
      assert Coherent(w.base, r);
      SamePlaceSameNetwork(w.base, r, s);
    }
    forall o | o in w.machines && o != r.id && w.machines[o].phase.Running?
      ensures NoRelayClash(s, w.machines[o]) && NoRelayClash(w.machines[o], s)
    {
      forall name: PortName
        ensures HostPort(ports, name) != 0 ==> HostPort(ports, name) != HostPort(w.machines[o].ports, name)
      {
      }
    }
    assert FitsNetworks(w, s) by { SameHostFits(w, r, s); }
    assert FitsDisk(w, s);
  }

  lemma SamePlaceSameNetwork(p: Prefix, r: MachineRecord, s: MachineRecord)
    requires r.runtimeHost == s.runtimeHost && r.tapDevice == s.tapDevice
    ensures Networked(p, r) ==> Networked(p, s)
  {
    hide NetworkForIndex, DottedQuad, Mask, Pow2;
    if Networked(p, r) {
      var i: nat :| i < p.Subnets() && OnNetwork(r, NetworkForIndex(p, i));
      assert OnNetwork(s, NetworkForIndex(p, i));
    }
  }

  lemma SameHostFits(w: World, r: MachineRecord, s: MachineRecord)
    requires NetworksDistinct(w) && r.id in w.machines && w.machines[r.id] == r && s.id == r.id
    requires IsLive(r.phase) && r.runtimeHost == s.runtimeHost && r.tapDevice == s.tapDevice
    ensures FitsNetworks(w, s)
  {
  }

  lemma ReadyForRelays(w: World, r: MachineRecord, name: PortName)
    requires Good(w) && r.id in w.machines && w.machines[r.id] == r && r.phase.Running?
    ensures RecordsCoherent(w)
    ensures RelayPortInRange(HostPort(r.ports, name), name)
    ensures RelayAgrees(w, r, name)
    ensures HostPort(r.ports, name) != 0 ==> !HeldByAnother(w, r.id, name, HostPort(r.ports, name))
  {
    hide HostPort, LegalLog, Replay, Networked, RelayPortInRange, PortsDistinct, SystemVolumesPlaced, SnapshotsNamed,
      SystemVolumePath, SystemVolumeID, Trimmed, NoNetworkClash, Mask, DisksCover, PublishedStored, NetworksDistinct;
    assert Coherent(w.base, r);
    if (r.id, name) in w.relays {
      assert RelayStored(w, (r.id, name), w.relays[(r.id, name)]);
    }
    forall o | o in w.machines && o != r.id && w.machines[o].phase.Running?
      ensures NoRelayClash(r, w.machines[o])
    {
    }
  }

  lemma LiveHostIsNotBlank(w: World, r: MachineRecord)
    requires Good(w) && r.id in w.machines && w.machines[r.id] == r && IsLive(r.phase)
    ensures TrimSpace(r.runtimeHost) != ""
  {
    hide LegalLog, Replay, NetworkForIndex, Mask, Pow2, HostPort, RelayPortInRange, DottedQuad;
    assert Coherent(w.base, r);
    var i: nat :| i < w.base.Subnets() && OnNetwork(r, NetworkForIndex(w.base, i));
    QuadIsTrimmed(NetworkForIndex(w.base, i).guestIP);
    TrimSpaceTrims(r.runtimeHost);
  }

  lemma OpeningKeepsOthers(w: World, relays: map<RelayKey, Port16>, id: MachineID)
    requires Good(w) && OtherRelaysKept(w.relays, relays, id)
    ensures var v := WithRelays(w, relays);
            Core(v) && RelaysStoredApart(v, id) && PublishedStored(v)
  {
    hide Core, HostPort;
    var v := w.(relays := relays);
    CoreIgnoresListeners(w, v);
    forall key | key in v.relays && key.0 != id ensures RelayStored(v, key, v.relays[key]) {
      assert RelayStored(w, key, w.relays[key]);
    }
    if !v.missed {
      forall p | p in v.published ensures PortStored(v, p, v.published[p]) {
        assert PortStored(w, p, w.published[p]);
      }
    }
  }

  /** A relay port that the daemon may store for the machine. */
  ghost predicate FreshRelayPort(w: World, id: MachineID, name: PortName, port: Port16) {
    port != 0 && RelayPortInRange(port, name) && !HeldByAnother(w, id, name, port)
  }

  lemma EnsuredPort(w: World, r: MachineRecord, relays: map<RelayKey, Port16>, ssh: Port16, vnc: Port16, name: PortName)
    requires Good(w) && r.id in w.machines && w.machines[r.id] == r && r.phase.Running?
    requires FreshRelayPort(w, r.id, SSH, ssh) && FreshRelayPort(w, r.id, VNC, vnc)
    requires relays == w.relays[(r.id, SSH) := ssh][(r.id, VNC) := vnc]
    ensures var ports := BuildMachinePorts(ssh, vnc, HostPort(r.ports, Exec));
            && RelayPortInRange(HostPort(ports, name), name)
            && (HostPort(ports, name) != 0 ==> !HeldByAnother(w, r.id, name, HostPort(ports, name)))
            && ((r.id, name) in relays ==> HostPort(ports, name) == relays[(r.id, name)] != 0)
  {
    hide HostPort, Good, HeldByAnother, BuildMachinePorts, RelayPortInRange;
    ReadyForRelays(w, r, Exec);
    match name {
      case SSH =>
      case VNC =>
      case Exec =>
    }
  }

  /** The two relays just started and the exec port kept are the ports to store. */
  lemma EnsuredPortsAreAllowed(w: World, r: MachineRecord, relays: map<RelayKey, Port16>, ssh: Port16, vnc: Port16)
    requires Good(w) && r.id in w.machines && w.machines[r.id] == r && r.phase.Running?
    requires FreshRelayPort(w, r.id, SSH, ssh) && FreshRelayPort(w, r.id, VNC, vnc)
    requires relays == w.relays[(r.id, SSH) := ssh][(r.id, VNC) := vnc]
    ensures MayUpdate(WithRelays(w, relays), r.(ports := BuildMachinePorts(ssh, vnc, HostPort(r.ports, Exec))))
  {
    hide HostPort, Good, Core, BuildMachinePorts, HeldByAnother, RelayPortInRange, FreshRelayPort, MayUpdate;
    var v := w.(relays := relays);
    var ports := BuildMachinePorts(ssh, vnc, HostPort(r.ports, Exec));
    forall name: PortName
      ensures RelayPortInRange(HostPort(ports, name), name)
      ensures HostPort(ports, name) != 0 ==> !HeldByAnother(w, r.id, name, HostPort(ports, name))
      ensures (r.id, name) in v.relays ==> HostPort(ports, name) == v.relays[(r.id, name)] != 0
    {
      EnsuredPort(w, r, relays, ssh, vnc, name);
    }
    OpeningKeepsOthers(w, relays, r.id);
    StillHeld(w, v, r.id);
    NewPortsAreAllowed(v, r, ports);
  }

  /** The two allocations of ensureMachineRelays, made under one mutex. */
  method OpenSshAndVnc(d: Daemon, record: MachineRecord) returns (status: Status, ssh: Port16, vnc: Port16)
    requires d.Inv() && record.id in d.W().machines && d.W().machines[record.id] == record && record.phase.Running?
    modifies d`halted, d`faulted, d`refusals, d`relays
    ensures d.store.Valid() && d.W() == WithRelays(old(d.W()), d.W().relays)
    ensures OtherRelaysKept(old(d.W().relays), d.W().relays, record.id)
    ensures status.Done? ==>
              && FreshRelayPort(old(d.W()), record.id, SSH, ssh)
              && FreshRelayPort(old(d.W()), record.id, VNC, vnc)
              && d.W().relays == old(d.W().relays)[(record.id, SSH) := ssh][(record.id, VNC) := vnc]
  {
    hide HostPort, Good, RecordsCoherent, HeldByAnother, RelayPortInRange, Daemon.W, RelayAgrees, OtherRelaysKept,
      FileStore.Valid;
    ghost var w := d.W();
    ReadyForRelays(w, record, SSH);
    ReadyForRelays(w, record, VNC);
    vnc := 0;
    status, ssh := AllocateRelay(d, record, SSH);
    OwnRelaysOnly(w.relays, record.id, ssh, 0);
    if status.Done? {
      StillReady(w, d.W(), record, VNC);
      StillHeld(w, d.W(), record.id);
      status, vnc := AllocateRelay(d, record, VNC);
      StillHeld(w, d.W(), record.id);
      OwnRelaysOnly(w.relays, record.id, ssh, vnc);
    }
  }

  lemma OwnRelaysOnly(relays: map<RelayKey, Port16>, id: MachineID, ssh: Port16, vnc: Port16)
    ensures OtherRelaysKept(relays, relays, id)
    ensures OtherRelaysKept(relays, relays[(id, SSH) := ssh], id)
    ensures OtherRelaysKept(relays, relays[(id, SSH) := ssh][(id, VNC) := vnc], id)
  {
  }

  ghost predicate RelaysOutcome(status: Status, w: World, v: World, record: MachineRecord, updated: MachineRecord) {
    && OtherRelaysKept(w.relays, v.relays, record.id)
    && if status.Done? && record.phase.Running? then
         && record.id in w.machines
         && updated == record.(ports := updated.ports)
         && v == AfterUpdate(WithRelays(w, v.relays), updated)
         && (record.id, SSH) in v.relays
         && (record.id, VNC) in v.relays
         && HostPort(updated.ports, Exec) == HostPort(record.ports, Exec)
       else
         && v == WithRelays(w, v.relays)
         && updated == record
         && (!status.Done? ==> NoRelays(v, record.id))
  }

  /** ensureMachineRelays: opens the ssh and vnc relays of a running machine and
      stores their ports; on any failure the machine keeps no relay at all. */
  method EnsureMachineRelays(d: Daemon, record: MachineRecord) returns (status: Status, updated: MachineRecord)
    requires d.Inv() && record.id in d.W().machines && d.W().machines[record.id] == record
    modifies d`halted, d`faulted, d`refusals, d`relays, d`log, d`abandoned, d.store
    ensures d.Inv() && RelaysOutcome(status, old(d.W()), d.W(), record, updated)
  {
    hide HostPort, Good, Core, RelaysStored, RelaysStoredApart, PublishedStored, RecordsCoherent, MayUpdate,
      FreshRelayPort, TrimSpace, Daemon.W, OtherRelaysKept, NoRelays, WithoutRelaysOf, WithRelays, AfterUpdate,
      FileStore.Valid;
    ghost var w := d.W();
    if record.phase.Running? {
      LiveHostIsNotBlank(w, record);
    }
    OwnRelaysOnly(w.relays, record.id, 0, 0);
    RelaysTwice(w, w.relays, w.relays);
    updated := record;
    status := Done;
    if record.phase.Running? && TrimSpace(record.runtimeHost) != "" {
      var ssh, vnc;
      status, ssh, vnc := OpenSshAndVnc(d, record);
      ghost var v := d.W();
      OpeningKeepsOthers(w, v.relays, record.id);
      if status.Done? {
        EnsuredPortsAreAllowed(w, record, v.relays, ssh, vnc);
        updated := record.(ports := BuildMachinePorts(ssh, vnc, HostPort(record.ports, Exec)));
        status := d.UpdateMachine(updated);
      }
      if status.Done? {
        UpdateKeepsRelays(v, updated);
      } else {
        StoppedRelaysAreGood(v, record.id);
        ClosingOwnRelays(w.relays, v.relays, record.id);
        StopMachineRelays(d, record.id);
        RelaysTwice(w, v.relays, d.W().relays);
        status, updated := Fault, record;
      }
    }
  }

  lemma RelaysTwice(w: World, once: map<RelayKey, Port16>, twice: map<RelayKey, Port16>)
    ensures WithRelays(WithRelays(w, once), twice) == WithRelays(w, twice)
    ensures WithRelays(w, w.relays) == w
  {
  }

  lemma UpdateKeepsRelays(w: World, r: MachineRecord)
    requires r.id in w.machines
    ensures AfterUpdate(w, r).relays == w.relays
  {
  }

  lemma ClosingOwnRelays(before: map<RelayKey, Port16>, relays: map<RelayKey, Port16>, id: MachineID)
    requires OtherRelaysKept(before, relays, id)
    ensures OtherRelaysKept(before, WithoutRelaysOf(relays, id), id)
  {
  }

  lemma StillReady(w: World, v: World, r: MachineRecord, name: PortName)
    requires SameButListeners(w, v) && RecordsCoherent(w) && RelayAgrees(w, r, name)
    requires (r.id, name) in v.relays ==> (r.id, name) in w.relays && v.relays[(r.id, name)] == w.relays[(r.id, name)]
    ensures RecordsCoherent(v) && RelayAgrees(v, r, name)
  {
    hide HostPort, Coherent;
  }

  lemma StillHeld(w: World, v: World, id: MachineID)
    requires SameButListeners(w, v)
    ensures forall name: PortName, port: Port16 :: HeldByAnother(w, id, name, port) <==> HeldByAnother(v, id, name, port)
  {
    hide HostPort;
  }

  lemma ExecPortIsAllowed(w: World, r: MachineRecord, relays: map<RelayKey, Port16>, exec: Port16, ports: seq<MachinePort>)
    requires Good(w) && r.id in w.machines && w.machines[r.id] == r && r.phase.Running?
    requires FreshRelayPort(w, r.id, Exec, exec) && relays == w.relays[(r.id, Exec) := exec]
    requires HostPort(ports, Exec) == exec
    requires HostPort(ports, SSH) == HostPort(r.ports, SSH) && HostPort(ports, VNC) == HostPort(r.ports, VNC)
    ensures MayUpdate(WithRelays(w, relays), r.(ports := ports))
  {
    var v := w.(relays := relays);
    ReadyForRelays(w, r, SSH);
    ReadyForRelays(w, r, VNC);
    OwnExecOnly(w.relays, r.id, exec);
    OpeningKeepsOthers(w, relays, r.id);
    StillHeld(w, v, r.id);
    hide HostPort, Good, Core, HeldByAnother, RelayPortInRange, MayUpdate, OtherRelaysKept, RelaysStoredApart,
      PublishedStored, RecordsCoherent;
    forall name: PortName
      ensures RelayPortInRange(HostPort(ports, name), name)
      ensures HostPort(ports, name) != 0 ==> !HeldByAnother(w, r.id, name, HostPort(ports, name))
      ensures (r.id, name) in v.relays ==> HostPort(ports, name) == v.relays[(r.id, name)] != 0
    {
      match name {
        case SSH =>
        case VNC =>
        case Exec =>
      }
    }
    NewPortsAreAllowed(v, r, ports);
  }

  lemma OwnExecOnly(relays: map<RelayKey, Port16>, id: MachineID, exec: Port16)
    ensures OtherRelaysKept(relays, relays[(id, Exec) := exec], id)
    ensures relays[(id, Exec) := exec] - {(id, Exec)} == relays - {(id, Exec)}
  {
  }

  lemma ClosedExecIsGood(w: World, id: MachineID)
    requires Good(w)
    ensures Good(WithRelays(w, w.relays - {(id, Exec)}))
  {
    hide Core, HostPort;
    ClosingKeepsGood(w, w.relays - {(id, Exec)}, w.published, w.missed);
  }

  /** EnsureExecRelay: on success the exec relay of a running machine is open on
      the port its record stores; on failure that relay is closed and the store
      is as before. */
  method EnsureExecRelay(d: Daemon, id: MachineID) returns (status: Status)
    requires d.Inv()
    modifies d`halted, d`faulted, d`refusals, d`relays, d`log, d`abandoned, d.store
    ensures d.Inv()
    ensures status.Done? ==>
              && id in old(d.W()).machines
              && d.W() == old(d.W()).(machines := d.W().machines, relays := d.W().relays, log := d.W().log)
              && old(d.W()).log <= d.W().log
              && id in d.W().machines
              && d.W().machines == old(d.W()).machines[id := d.W().machines[id]]
              && d.W().machines[id] == old(d.W()).machines[id].(ports := d.W().machines[id].ports)
              && (id, Exec) in d.W().relays
              && d.W().relays == old(d.W()).relays[(id, Exec) := d.W().relays[(id, Exec)]]
    ensures !status.Done? ==>
              || d.W() == old(d.W())
              || d.W() == WithRelays(old(d.W()), old(d.W()).relays - {(id, Exec)})
  {
    hide HostPort, Good, Core, RelaysStored, RelaysStoredApart, PublishedStored, RecordsCoherent, MayUpdate,
      FreshRelayPort, TrimSpace, Daemon.W, OtherRelaysKept, HeldByAnother, RelayAgrees, FileStore.Valid;
    ghost var w := d.W();
    var found;
    status, found := d.GetMachine(id);
    if !status.Done? {
      return;
    }
    var record := found.value;
    if !record.phase.Running? || TrimSpace(record.runtimeHost) == "" {
      return Fault;
    }
    ReadyForRelays(w, record, Exec);
    ClosedExecIsGood(w, id);
    var port;
    status, port := AllocateRelay(d, record, Exec);
    OwnExecOnly(w.relays, id, port);
    if !status.Done? {
      d.CloseRelay((id, Exec));
      return Fault;
    }
    assert FreshRelayPort(w, id, Exec, port) by { FreshFromParts(w, d.W(), id, port); }
    var ports := SetExecRelayPort(record.ports, port);
    ExecPortIsAllowed(w, record, d.W().relays, port, ports);
    OpeningKeepsOthers(w, d.W().relays, id);
    status := d.UpdateMachine(record.(ports := ports));
    if !status.Done? {
      d.CloseRelay((id, Exec));
      return Fault;
    }
  }

  lemma FreshFromParts(w: World, v: World, id: MachineID, port: Port16)
    requires SameButListeners(w, v)
    requires port != 0 && RelayPortInRange(port, Exec) && !HeldByAnother(v, id, Exec, port)
    ensures FreshRelayPort(w, id, Exec, port)
  {
    StillHeld(w, v, id);
  }
}
