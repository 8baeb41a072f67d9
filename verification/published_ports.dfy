/** Host ports published for a machine, and their listeners. */
module PublishedPorts {
  import opened Wrappers
  import opened Text
  import opened Model
  import opened Store
  import opened Worlds
  import opened Daemons

  /** startPublishedPortProxy: keeps a listener that is already there. */
  method StartPublished(d: Daemon, r: PublishedPortRecord, runtimeHost: string) returns (status: Status)
    modifies d`halted, d`faulted, d`published
    ensures status.Done? ==> r.id in d.W().published
    ensures d.store.Valid() == old(d.store.Valid())
    ensures d.W() == if status.Done? && r.id !in old(d.W()).published
                     then WithPublished(old(d.W()), old(d.W()).published[r.id := r.hostPort], old(d.W()).missed)
                     else old(d.W())
  {
    if TrimSpace(runtimeHost) == "" {
      return Fault;
    }
    if r.id in d.published {
      return Done;
    }
    status := d.ListenPublished(r.id, r.hostPort);
  }

  ghost predicate Fewer(before: map<PortID, Port16>, after: map<PortID, Port16>) {
    forall p :: p in after ==> p in before && before[p] == after[p]
  }

  /** The listeners of ports that other machines own are all still there. */
  ghost predicate OthersPublished(w: World, after: map<PortID, Port16>, id: MachineID) {
    forall p :: p in w.published && (p !in w.ports || w.ports[p].machineID != id) ==> p in after
  }

  /** stopPublishedPortsForMachine. A failed listing is swallowed: then nothing
      is closed, and `missed` remembers it. */
  method StopPublishedPortsFor(d: Daemon, id: MachineID)
    requires d.Inv()
    modifies d`halted, d`faulted, d`published, d`missed
    ensures d.Inv() && (old(d.faulted) ==> d.faulted)
    ensures d.W() == WithPublished(old(d.W()), d.W().published, d.W().missed)
    ensures NoPublished(d.W(), id)
    ensures Fewer(old(d.W()).published, d.W().published) && OthersPublished(old(d.W()), d.W().published, id)
    ensures old(d.W()).missed ==> d.W().missed
  {
    hide Good, Daemon.W, FileStore.Valid;
    ghost var w := d.W();
    var status, records := d.ListPublishedPorts(Some(id));
    if !status.Done? {
      MissingIsGood(w);
      SetMissed(d);
      return;
    }
    var i := 0;
    while i < |records|
      invariant 0 <= i <= |records| && (old(d.faulted) ==> d.faulted)
      invariant d.store.Valid() && d.W() == WithPublished(w, d.W().published, w.missed)
      invariant Fewer(w.published, d.W().published)
      invariant forall p :: p in d.W().published <==> p in w.published && !Listed(records[..i], p)
    {
      ListedGrows(records, i);
      d.ClosePublished(records[i].id);
      i := i + 1;
    }
    assert records[..i] == records;
    FewerIsGood(w, d.W().published);
    forall p | p in w.ports && w.ports[p].machineID == id
      ensures Listed(records, p)
    {
      PortsHaveTheirIDs(w, p);
    }
  }

  ghost predicate Listed(records: seq<PublishedPortRecord>, p: PortID) {
    exists k :: 0 <= k < |records| && records[k].id == p
  }

  lemma ListedGrows(records: seq<PublishedPortRecord>, i: nat)
    requires i < |records|
    ensures forall p :: Listed(records[..i + 1], p) <==> Listed(records[..i], p) || p == records[i].id
  {
    forall p
      ensures Listed(records[..i + 1], p) <==> Listed(records[..i], p) || p == records[i].id
    {
      if Listed(records[..i], p) {
        var k :| 0 <= k < i && records[..i][k].id == p;
        assert records[..i + 1][k].id == p;
      }
      assert records[..i + 1][i] == records[i];
    }
  }

  method SetMissed(d: Daemon)
    modifies d`missed
    ensures d.store.Valid() == old(d.store.Valid())
    ensures d.W() == WithPublished(old(d.W()), old(d.W()).published, true)
  {
    d.missed := true;
  }

  lemma PortsHaveTheirIDs(w: World, p: PortID)
    requires Good(w) && p in w.ports
    ensures w.ports[p].id == p
  {
  }

  lemma MissingIsGood(w: World)
    requires Good(w)
    ensures Good(w.(missed := true))
  {
    hide Core;
    ClosingKeepsGood(w, w.relays, w.published, true);
    assert w.(relays := w.relays, published := w.published, missed := true) == w.(missed := true);
  }

  lemma FewerIsGood(w: World, published: map<PortID, Port16>)
    requires Good(w) && Fewer(w.published, published)
    ensures Good(w.(published := published))
  {
    hide Core;
    ClosingKeepsGood(w, w.relays, published, w.missed);
    assert w.(relays := w.relays, published := published, missed := w.missed) == w.(published := published);
  }

  /** ensurePublishedPortsForMachine: after success every stored port of a
      running machine has its listener; listeners are only added. */
  method EnsurePublishedPortsFor(d: Daemon, r: MachineRecord) returns (status: Status)
    requires d.Inv() && r.id in d.W().machines && d.W().machines[r.id] == r
    modifies d`halted, d`faulted, d`published
    ensures d.Inv()
    ensures d.W() == WithPublished(old(d.W()), d.W().published, old(d.W()).missed)
    ensures Fewer(d.W().published, old(d.W()).published)
    ensures status.Done? && r.phase.Running? && TrimSpace(r.runtimeHost) != "" ==>
              forall p :: p in d.W().ports && d.W().ports[p].machineID == r.id ==> p in d.W().published
  {
    hide Good, Daemon.W, TrimSpace, FileStore.Valid;
    if !r.phase.Running? || TrimSpace(r.runtimeHost) == "" {
      return Done;
    }
    ghost var w := d.W();
    var records;
    status, records := d.ListPublishedPorts(Some(r.id));
    if !status.Done? {
      return;
    }
    var i := 0;
    while i < |records|
      invariant 0 <= i <= |records|
      invariant d.Inv() && d.W() == WithPublished(w, d.W().published, w.missed)
      invariant Fewer(d.W().published, w.published)
      invariant forall k :: 0 <= k < i ==> records[k].id in d.W().published
    {
      ghost var v := d.W();
      assert records[i] in records;
      status := StartPublished(d, records[i], r.runtimeHost);
      OpenPublishedKeepsGood(v, records[i].id, records[i].hostPort);
      if !status.Done? {
        return;
      }
      i := i + 1;
    }
    status := Done;
    forall p | p in w.ports && w.ports[p].machineID == r.id
      ensures p in d.W().published
    {
      PortsHaveTheirIDs(w, p);
      assert w.ports[p] in records;
    }
  }

  /** allocatePublishedHostPort: the lowest host port of the range that no stored
      record holds. */
  method AllocatePublishedHostPort(d: Daemon) returns (status: Status, hostPort: Port16)
    requires d.Inv()
    modifies d`halted, d`faulted
    ensures d.Inv() && d.W() == old(d.W())
    ensures status.Done? ==>
              && MIN_PUBLISHED_PORT <= hostPort <= MAX_PUBLISHED_PORT
              && !HostPortStored(d.W().ports, hostPort)
              && forall lower :: MIN_PUBLISHED_PORT <= lower < hostPort ==> HostPortStored(d.W().ports, lower)
    ensures old(d.faulted) ==> d.faulted
    ensures !status.Done? && !d.faulted ==>
              forall port :: MIN_PUBLISHED_PORT <= port <= MAX_PUBLISHED_PORT ==> HostPortStored(d.W().ports, port)
  {
    hide Daemon.W, Good, FileStore.Valid;
    hostPort := 0;
    var records;
    status, records := d.ListPublishedPorts(None);
    if !status.Done? {
      return;
    }
    var used: set<int> := {};
    var i := 0;
    while i < |records|
      invariant 0 <= i <= |records|
      invariant forall port :: port in used <==> exists k :: 0 <= k < i && records[k].hostPort == port
    {
      used := used + {records[i].hostPort};
      i := i + 1;
    }
    ghost var w := d.W();
    forall port: int
      ensures port in used <==> HostPortStored(w.ports, port)
    {
      if HostPortStored(w.ports, port) {
        var p :| p in w.ports && w.ports[p].hostPort == port;
        PortsHaveTheirIDs(w, p);
        assert w.ports[p] in records;
        var k :| 0 <= k < |records| && records[k] == w.ports[p];
      }
      if port in used {
        var k :| 0 <= k < |records| && records[k].hostPort == port;
        assert records[k] in records;
      }
    }
    var candidate: int := MIN_PUBLISHED_PORT;
    while candidate <= MAX_PUBLISHED_PORT
      invariant MIN_PUBLISHED_PORT <= candidate <= MAX_PUBLISHED_PORT + 1
      invariant forall lower :: MIN_PUBLISHED_PORT <= lower < candidate ==> HostPortStored(w.ports, lower)
    {
      if candidate !in used {
        return Done, candidate;
      }
      candidate := candidate + 1;
    }
    status := Fault;
  }

  lemma OpeningKeepsOtherPorts(w: World, p: PortID, hostPort: Port16)
    requires Good(w)
    ensures var v := w.(published := w.published[p := hostPort]);
            Core(v) && RelaysStored(v) && PublishedStoredApart(v, p)
  {
    hide Core;
    var v := w.(published := w.published[p := hostPort]);
    CoreIgnoresListeners(w, v);
    forall key | key in v.relays ensures RelayStored(v, key, v.relays[key]) {
      assert RelayStored(w, key, w.relays[key]);
    }
    if !v.missed {
      forall q | q in v.published && q != p ensures PortStored(v, q, v.published[q]) {
        assert PortStored(w, q, w.published[q]);
      }
    }
  }

  lemma UnstoredPortIsClosed(w: World, p: PortID)
    requires Good(w) && p !in w.ports && !w.missed
    ensures p !in w.published
  {
  }

  /** Closing the port just opened restores the invariant. */
  lemma ReclosedIsGood(w: World, p: PortID)
    requires Core(w) && RelaysStored(w) && PublishedStoredApart(w, p)
    ensures Good(w.(published := w.published - {p}))
  {
    hide Core, RelayStored;
    var v := w.(published := w.published - {p});
    CoreIgnoresListeners(w, v);
    forall key | key in v.relays ensures RelayStored(v, key, v.relays[key]) {
      assert RelayStored(w, key, w.relays[key]);
      SameRelayStored(w, v, key, w.relays[key]);
    }
    if !v.missed {
      forall q | q in v.published ensures PortStored(v, q, v.published[q]) {
        assert PortStored(w, q, w.published[q]);
      }
    }
  }

  lemma SameRelayStored(w: World, v: World, key: RelayKey, port: Port16)
    requires RelayStored(w, key, port) && w.machines == v.machines
    ensures RelayStored(v, key, port)
  {
  }

  ghost predicate SamePublishedApart(before: map<PortID, Port16>, after: map<PortID, Port16>, id: PortID) {
    before - {id} == after - {id}
  }

  lemma PublishedApart(published: map<PortID, Port16>, id: PortID, hostPort: Port16)
    ensures SamePublishedApart(published, published, id)
    ensures SamePublishedApart(published, published[id := hostPort], id)
    ensures SamePublishedApart(published, published - {id}, id)
    ensures SamePublishedApart(published, published[id := hostPort] - {id}, id)
  {
  }

  /** One more stored port, on a host port that was free, with its listener. */
  ghost predicate PortCreated(w: World, v: World, machine: MachineID, id: PortID, port: Port16) {
    && machine in w.machines
    && w.machines[machine].phase.Running?
    && id !in w.ports
    && id in v.ports
    && v == w.(ports := w.ports[id := v.ports[id]], published := v.published)
    && v.ports[id].machineID == machine
    && v.ports[id].port == port
    && !HostPortStored(w.ports, v.ports[id].hostPort)
    && id in v.published
    && SamePublishedApart(w.published, v.published, id)
  }

  ghost predicate PortOutcome(status: Status, w: World, v: World, machine: MachineID, id: PortID, port: Port16) {
    if status.Done? then PortCreated(w, v, machine, id, port)
    else v == w.(published := v.published) && SamePublishedApart(w.published, v.published, id)
  }

  /** Allocation, listen and store write, all under publishedPortAllocMu. */
  method PublishUnderMutex(d: Daemon, r: MachineRecord, id: PortID, port: Port16) returns (status: Status)
    requires d.Inv() && r.id in d.W().machines && d.W().machines[r.id] == r && r.phase.Running?
    requires id !in d.W().ports
    modifies d`halted, d`faulted, d`published, d.store
    ensures d.Inv() && PortOutcome(status, old(d.W()), d.W(), r.id, id, port)
  {
    hide FileStore.Valid, Good, Daemon.W, TrimSpace, HostPortStored, SamePublishedApart, PortCreated;
    ghost var w := d.W();
    PublishedApart(w.published, id, 0);
    var hostPort;
    status, hostPort := AllocatePublishedHostPort(d);
    if status.Done? {
      var record := PublishedPortRecord(id, r.id, port, hostPort);
      status := StartPublished(d, record, r.runtimeHost);
      if status.Done? {
        BoundPort(w, d.W(), record);
        status := StoreListening(d, w, record);
      } else {
        status := Fault;
      }
    } else {
      status := Fault;
    }
  }

  /** The store write, undone at the listener when it fails. The store's own
      host-port conflict cannot be the reason. */
  method StoreListening(d: Daemon, ghost w: World, record: PublishedPortRecord) returns (status: Status)
    requires d.store.Valid() && Good(w) && record.id !in w.ports && !HostPortStored(w.ports, record.hostPort)
    requires record.machineID in w.machines && w.machines[record.machineID].phase.Running?
    requires MIN_PUBLISHED_PORT <= record.hostPort <= MAX_PUBLISHED_PORT
    requires record.id in d.W().published && (w.missed || d.W().published[record.id] == record.hostPort)
    requires d.W() == w.(published := w.published[record.id := d.W().published[record.id]])
    modifies d`halted, d`faulted, d`published, d.store
    ensures d.Inv() && PortOutcome(status, w, d.W(), record.machineID, record.id, record.port)
    ensures !status.Conflict?
  {
    hide FileStore.Valid, Good, Core, RelaysStored, PublishedStored, PublishedStoredApart, Daemon.W, SamePublishedApart,
      PortCreated, MayStorePort;
    ghost var listening := d.W();
    ghost var bound := listening.published[record.id];
    ListenedForStore(w, record, bound);
    PublishedApart(w.published, record.id, bound);
    ReclosedIsGood(listening, record.id);
    status := d.CreatePublishedPort(record);
    if status.Done? {
      PublishedIsCreated(w, listening, d.W(), record);
    } else {
      d.ClosePublished(record.id);
    }
  }

  /** The listener of a port that was not stored is the one just opened, unless
      an earlier read error left a stale one behind. */
  lemma BoundPort(w: World, v: World, record: PublishedPortRecord)
    requires Good(w) && record.id !in w.ports
    requires v == w.(published := if record.id !in w.published then w.published[record.id := record.hostPort] else w.published)
    ensures record.id in v.published
    ensures v.published == w.published[record.id := v.published[record.id]]
    ensures w.missed || v.published[record.id] == record.hostPort
  {
    hide Core, RelaysStored;
    assert record.id in w.published ==> w.missed || PortStored(w, record.id, w.published[record.id]);
  }

  /** What the store write finds once the listener is up. */
  lemma ListenedForStore(w: World, record: PublishedPortRecord, bound: Port16)
    requires Good(w) && (w.missed || bound == record.hostPort)
    requires record.machineID in w.machines && w.machines[record.machineID].phase.Running?
    requires MIN_PUBLISHED_PORT <= record.hostPort <= MAX_PUBLISHED_PORT
    ensures var v := w.(published := w.published[record.id := bound]);
            Core(v) && RelaysStored(v) && PublishedStoredApart(v, record.id) && MayStorePort(v, record)
  {
    hide Good, Core, RelaysStored, PublishedStoredApart;
    OpeningKeepsOtherPorts(w, record.id, bound);
  }

  lemma PublishedIsCreated(w: World, listening: World, v: World, record: PublishedPortRecord)
    requires record.id !in w.ports && !HostPortStored(w.ports, record.hostPort)
    requires record.machineID in w.machines && w.machines[record.machineID].phase.Running?
    requires listening == w.(published := listening.published) && record.id in listening.published
    requires SamePublishedApart(w.published, listening.published, record.id)
    requires v == listening.(ports := listening.ports[record.id := record])
    ensures PortCreated(w, v, record.machineID, record.id, record.port)
  {
    hide HostPortStored;
  }

  /** CreatePublishedPort: a running machine gets the lowest free host port,
      listened on and stored; otherwise nothing is stored. */
  method CreatePublishedPort(d: Daemon, machine: MachineID, id: PortID, port: Port16) returns (status: Status)
    requires d.Inv()
    modifies d`halted, d`faulted, d`published, d.store
    ensures d.Inv() && PortOutcome(status, old(d.W()), d.W(), machine, id, port)
    ensures status.Done? ==> port != 0
  {
    hide FileStore.Valid, Good, Daemon.W, TrimSpace, PortCreated, SamePublishedApart;
    PublishedApart(d.W().published, id, 0);
    status := Fault;
    if TrimSpace(id) != "" && port != 0 {
      var found, existing;
      status, found := d.GetMachine(machine);
      if status.Done? && found.value.phase.Running? {
        status, existing := d.GetPublishedPort(id);
        if status.NotFound? {
          status := PublishUnderMutex(d, found.value, id, port);
        } else {
          status := Fault;
        }
      } else {
        status := Fault;
      }
    }
  }

  lemma ClosedPortIsGood(w: World, p: PortID)
    requires Good(w)
    ensures Good(w.(published := w.published - {p}))
  {
    FewerIsGood(w, w.published - {p});
  }

  /** DeletePublishedPort: closes the listener and forgets the record of a port
      of this machine; an absent port is a success. */
  method DeletePublishedPort(d: Daemon, machine: MachineID, id: PortID) returns (status: Status)
    requires d.Inv()
    modifies d`halted, d`faulted, d`published, d.store
    ensures d.Inv()
    ensures status.Done? ==>
              || (id !in old(d.W()).ports && d.W() == old(d.W()))
              || d.W() == WithPorts(WithPublished(old(d.W()), old(d.W()).published - {id}, old(d.W()).missed),
                                    old(d.W()).ports - {id})
    ensures !status.Done? ==>
              || d.W() == old(d.W())
              || d.W() == WithPublished(old(d.W()), old(d.W()).published - {id}, old(d.W()).missed)
    ensures id in old(d.W()).ports && old(d.W()).ports[id].machineID != machine ==> d.W() == old(d.W()) && !status.Done?
  {
    hide Good, Daemon.W, FileStore.Valid;
    ghost var w := d.W();
    var found;
    status, found := d.GetPublishedPort(id);
    if status.NotFound? {
      return Done;
    }
    if !status.Done? {
      return Fault;
    }
    if found.value.machineID != machine {
      return Conflict;
    }
    ClosedPortIsGood(w, id);
    d.ClosePublished(id);
    status := d.DeletePublishedPort(id);
  }
}
