/** The whole state of the host as one value, and the invariant `Good` that
    every step of the daemon keeps. Ghost code only: the daemon itself holds
    these fields in objects. */
module Worlds {
  import opened Wrappers
  import opened Text
  import opened Model
  import opened Network

  /** A Firecracker process: the machine and nonce it was booted with. */
  datatype Vm = Vm(machine: MachineID, nonce: string, paused: bool)

  /** What happened to a machine record, to the disk behind it, or in its guest. */
  datatype Change =
    | Created(record: MachineRecord)
    | Updated(before: MachineRecord, after: MachineRecord)
    | Removed(before: MachineRecord)
    | Grown(id: MachineID, from: nat, to: nat)
    | Echoed(id: MachineID, nonce: string)

  type RelayKey = (MachineID, PortName)

  datatype World = World(
    base: Prefix,
    machines: map<MachineID, MachineRecord>,
    volumes: map<VolumeID, VolumeRecord>,
    snapshots: map<SnapshotID, SnapshotRecord>,
    ports: map<PortID, PublishedPortRecord>,
    journal: map<MachineID, OperationRecord>,
    files: map<DiskPath, Image>,
    dirs: set<Dir>,
    vms: map<int, Vm>,
    relays: map<RelayKey, Port16>,
    published: map<PortID, Port16>,
    log: seq<Change>,
    // machines whose interrupted resize lost its journal entry
    abandoned: set<MachineID>,
    // a read error made the daemon skip closing some published-port listeners
    missed: bool)

  // ---------------------------------------------------------- port ranges

  function MinRelayPort(name: PortName): Port16 {
    match name
    case SSH => 40000
    case VNC => 45000
    case Exec => 50000
  }

  function MaxRelayPort(name: PortName): Port16 {
    match name
    case SSH => 44999
    case VNC => 49999
    case Exec => 54999
  }

  const MIN_PUBLISHED_PORT: Port16 := 20000
  const MAX_PUBLISHED_PORT: Port16 := 39999

  /** machineRelayHostPort: the first port of that name, or 0. */
  function HostPort(ports: seq<MachinePort>, name: PortName): Port16 {
    if ports == [] then 0
    else if ports[0].name == name then ports[0].hostPort
    else HostPort(ports[1..], name)
  }

  predicate RelayPortInRange(port: Port16, name: PortName) {
    port == 0 || MinRelayPort(name) <= port <= MaxRelayPort(name)
  }

  predicate RelayPortsInRange(ports: seq<MachinePort>) {
    forall name: PortName :: RelayPortInRange(HostPort(ports, name), name)
  }

  // ------------------------------------------------------------- records

  predicate IsLive(phase: Phase) {
    phase.Starting? || phase.Running?
  }

  predicate OnNetwork(r: MachineRecord, network: Allocation) {
    r.runtimeHost == DottedQuad(network.guestIP) && r.tapDevice == network.tapName
  }

  /** The record carries the guest address and the tap name of one index. */
  ghost predicate Networked(p: Prefix, r: MachineRecord) {
    p.Valid() && exists i: nat :: i < p.Subnets() && OnNetwork(r, NetworkForIndex(p, i))
  }

  predicate NoRuntimeFields(r: MachineRecord) {
    r.pid == 0 && r.socketPath == "" && r.runtimeHost == "" && r.tapDevice == "" && r.startedAt.None?
  }

  /** Phase and fields agree. */
  ghost predicate Coherent(p: Prefix, r: MachineRecord) {
    && r.systemVolumeID == SystemVolumeID(r.id)
    && r.storageBytes > 0
    && r.memoryMiB > 0
    && Trimmed(r.guestKey)
    && RelayPortsInRange(r.ports)
    && (r.readyNonce != "" <==> r.phase.Starting?)
    && Trimmed(r.readyNonce)
    && if IsLive(r.phase) then r.pid > 0 && Networked(p, r) else NoRuntimeFields(r)
  }

  /** The phase edges the daemon takes. */
  predicate LegalEdge(from: Phase, to: Phase) {
    match from
    case Starting => !to.Starting?
    case Running => !to.Starting?
    case Stopped => to.Stopped? || to.Starting?
    case Failed => to.Stopped?
  }

  ghost predicate LegalUpdate(b: MachineRecord, a: MachineRecord, log: seq<Change>) {
    && a.id == b.id
    && LegalEdge(b.phase, a.phase)
    && (b.guestKey != "" ==> a.guestKey == b.guestKey)
    && b.storageBytes <= a.storageBytes
    && (b.phase.Starting? && a.phase.Running? ==> EchoedSinceBoot(log, b.id, b.readyNonce))
    && (a.phase.Starting? ==> FreshNonce(log, a.readyNonce))
  }

  // ----------------------------------------------------------------- log

  /** The machine boots: its record enters Starting. */
  predicate Boots(c: Change, id: MachineID) {
    || (c.Created? && c.record.id == id)
    || (c.Updated? && c.after.id == id && c.after.phase.Starting?)
  }

  /** The guest has answered with this nonce after the machine's last boot. */
  ghost predicate EchoedSinceBoot(log: seq<Change>, id: MachineID, nonce: string) {
    log != [] && (
      var last := log[|log| - 1];
      last == Echoed(id, nonce) || (!Boots(last, id) && EchoedSinceBoot(log[..|log| - 1], id, nonce)))
  }

  predicate BootsWith(c: Change, nonce: string) {
    || (c.Created? && c.record.readyNonce == nonce)
    || (c.Updated? && c.after.phase.Starting? && c.after.readyNonce == nonce)
  }

  /** No boot so far, of any machine, used this nonce. */
  predicate FreshNonce(log: seq<Change>, nonce: string) {
    forall k :: 0 <= k < |log| ==> !BootsWith(log[k], nonce)
  }

  ghost function Replayed(m: map<MachineID, MachineRecord>, c: Change): map<MachineID, MachineRecord> {
    match c
    case Created(r) => m[r.id := r]
    case Updated(_, a) => m[a.id := a]
    case Removed(b) => m - {b.id}
    case Grown(_, _, _) => m
    case Echoed(_, _) => m
  }

  ghost function Replay(log: seq<Change>): map<MachineID, MachineRecord> {
    if log == [] then map[] else Replayed(Replay(log[..|log| - 1]), log[|log| - 1])
  }

  ghost function Resized(m: map<MachineID, int>, c: Change): map<MachineID, int> {
    match c
    case Created(r) => m[r.id := r.storageBytes]
    case Updated(_, _) => m
    case Removed(b) => m - {b.id}
    case Grown(id, _, to) => m[id := to]
    case Echoed(_, _) => m
  }

  /** The size of every machine's disk, as its creation and growth left it. */
  ghost function Sizes(log: seq<Change>): map<MachineID, int> {
    if log == [] then map[] else Resized(Sizes(log[..|log| - 1]), log[|log| - 1])
  }

  ghost predicate LegalChange(log: seq<Change>, c: Change) {
    match c
    case Created(r) => r.id !in Replay(log) && r.phase.Starting? && FreshNonce(log, r.readyNonce)
    case Updated(b, a) => b.id in Replay(log) && Replay(log)[b.id] == b && LegalUpdate(b, a, log)
    case Removed(b) => b.id in Replay(log) && Replay(log)[b.id] == b
    case Grown(id, from, to) => from <= to && id in Sizes(log) && Sizes(log)[id] == from
    case Echoed(_, _) => true
  }

  ghost predicate LegalLog(log: seq<Change>) {
    log == [] || (LegalLog(log[..|log| - 1]) && LegalChange(log[..|log| - 1], log[|log| - 1]))
  }

  // ----------------------------------------------------------- invariant

  ghost predicate RecordsCoherent(w: World) {
    forall id :: id in w.machines ==> w.machines[id].id == id && Coherent(w.base, w.machines[id])
  }

  /** Two live machines share neither a guest address nor a tap device. */
  ghost predicate NetworksDistinct(w: World) {
    forall a, b :: a in w.machines && b in w.machines && a != b
      && IsLive(w.machines[a].phase) && IsLive(w.machines[b].phase)
      ==> NoNetworkClash(w.machines[a], w.machines[b])
  }

  predicate NoNetworkClash(r: MachineRecord, s: MachineRecord) {
    r.runtimeHost != s.runtimeHost && r.tapDevice != s.tapDevice
  }

  predicate NoRelayClash(r: MachineRecord, s: MachineRecord) {
    forall name: PortName ::
      HostPort(r.ports, name) != 0 ==> HostPort(r.ports, name) != HostPort(s.ports, name)
  }

  ghost predicate RelayPortsDistinct(w: World) {
    forall a, b :: a in w.machines && b in w.machines && a != b
      && w.machines[a].phase.Running? && w.machines[b].phase.Running?
      ==> NoRelayClash(w.machines[a], w.machines[b])
  }

  ghost predicate RelayStored(w: World, key: RelayKey, port: Port16) {
    && key.0 in w.machines
    && w.machines[key.0].phase.Running?
    && HostPort(w.machines[key.0].ports, key.1) == port
    && port != 0
  }

  /** Every open relay listener is the one its machine's record announces. */
  ghost predicate RelaysStored(w: World) {
    forall key :: key in w.relays ==> RelayStored(w, key, w.relays[key])
  }

  /** The same while the listeners of one machine are being opened. */
  ghost predicate RelaysStoredApart(w: World, id: MachineID) {
    forall key :: key in w.relays && key.0 != id ==> RelayStored(w, key, w.relays[key])
  }

  /** Every stored port has a host port of its own, within the range. */
  ghost predicate PortsInOrder(ports: map<PortID, PublishedPortRecord>) {
    && (forall p :: p in ports ==> ports[p].id == p && MIN_PUBLISHED_PORT <= ports[p].hostPort <= MAX_PUBLISHED_PORT)
    && (forall p, q :: p in ports && q in ports && p != q ==> ports[p].hostPort != ports[q].hostPort)
  }

  ghost predicate PortsDistinct(w: World) {
    PortsInOrder(w.ports)
  }

  ghost predicate HostPortStored(ports: map<PortID, PublishedPortRecord>, hostPort: int) {
    exists p :: p in ports && ports[p].hostPort == hostPort
  }

  ghost predicate PortStored(w: World, p: PortID, hostPort: Port16) {
    && p in w.ports
    && w.ports[p].hostPort == hostPort
    && w.ports[p].machineID in w.machines
    && w.machines[w.ports[p].machineID].phase.Running?
  }

  /** Every open published-port listener serves a stored port of a running
      machine, unless a read error hid some ports from the daemon. */
  ghost predicate PublishedStored(w: World) {
    !w.missed ==> forall p :: p in w.published ==> PortStored(w, p, w.published[p])
  }

  /** The same while the listener of one port is being opened. */
  ghost predicate PublishedStoredApart(w: World, port: PortID) {
    !w.missed ==> forall p :: p in w.published && p != port ==> PortStored(w, p, w.published[p])
  }

  predicate IsSystemDisk(v: VolumeRecord, id: MachineID) {
    v.path == SystemVolumePath(id) && !v.deleteOnMachineDelete
  }

  /** The system volume of a machine, where recorded, is its own system disk. */
  ghost predicate SystemVolumesPlaced(w: World) {
    forall id :: id in w.machines && SystemVolumeID(id) in w.volumes
      ==> IsSystemDisk(w.volumes[SystemVolumeID(id)], id)
  }

  /** Every volume lies in the directory of some machine. */
  ghost predicate VolumesInMachineDirs(w: World) {
    forall x :: x in w.volumes ==> w.volumes[x].path.dir.MachineDir?
  }

  ghost predicate HasDisk(w: World, id: MachineID) {
    SystemVolumePath(id) in w.files
  }

  ghost function DiskSize(w: World, id: MachineID): nat
    requires HasDisk(w, id)
  {
    |w.files[SystemVolumePath(id)]|
  }

  /** The disk was grown and the record does not say so yet. */
  ghost predicate Torn(w: World, id: MachineID) {
    id in w.machines && HasDisk(w, id) && DiskSize(w, id) != w.machines[id].storageBytes
  }

  ghost predicate ResizePending(w: World, id: MachineID, size: int) {
    id in w.journal && w.journal[id].kind.ResizeOp? && w.journal[id].storageBytes == size
  }

  /** The disk has the recorded size unless the resize that grew it is still in
      the journal. */
  ghost predicate SizeAccounted(w: World, id: MachineID) {
    Torn(w, id) ==> ResizePending(w, id, DiskSize(w, id))
  }

  /** A disk holds at least what its record promises, and more than that without
      a pending resize exactly if the entry of that resize was abandoned. */
  ghost predicate DiskCovers(w: World, id: MachineID)
    requires id in w.machines && HasDisk(w, id)
  {
    w.machines[id].storageBytes <= DiskSize(w, id) && (id in w.abandoned <==> !SizeAccounted(w, id))
  }

  ghost predicate DisksCover(w: World) {
    forall id :: id in w.machines && HasDisk(w, id) ==> DiskCovers(w, id)
  }

  /** A disk that is there has the size its history gives it. */
  ghost predicate DisksReplayed(w: World) {
    forall id :: id in w.machines && HasDisk(w, id) ==> DiskReplayed(w, id)
  }

  ghost predicate DiskReplayed(w: World, id: MachineID)
    requires HasDisk(w, id)
  {
    id in Sizes(w.log) && Sizes(w.log)[id] == DiskSize(w, id)
  }

  ghost predicate SnapshotsNamed(w: World) {
    forall s, k :: s in w.snapshots && 0 <= k < |w.snapshots[s].artifacts| ==>
      SnapshotDisk(w.snapshots[s].artifacts[k])
  }

  ghost predicate SnapshotDisk(artifact: SnapshotArtifact) {
    SnapshotDriveName(artifact.name) && artifact.localPath.dir.SnapshotDir?
  }

  /** The names CreateSnapshot gives: system.img and user-i.img. */
  ghost predicate SnapshotDriveName(name: string) {
    name == "system.img" || exists i: nat :: name == UserDriveName(i)
  }

  function UserDriveName(i: nat): string {
    "user-" + Decimal(i) + ".img"
  }

  /** The part of the invariant that does not look at listeners. */
  ghost predicate Core(w: World) {
    && w.base.Valid()
    && RecordsCoherent(w)
    && NetworksDistinct(w)
    && RelayPortsDistinct(w)
    && PortsDistinct(w)
    && SystemVolumesPlaced(w)
    && VolumesInMachineDirs(w)
    && DisksCover(w)
    && DisksReplayed(w)
    && SnapshotsNamed(w)
    && LegalLog(w.log)
    && Replay(w.log) == w.machines
  }

  ghost predicate Good(w: World) {
    Core(w) && RelaysStored(w) && PublishedStored(w)
  }

  /** Nothing but the listeners differs. */
  ghost predicate SameButListeners(w: World, v: World) {
    v == w.(relays := v.relays, published := v.published, missed := v.missed)
  }

  lemma CoreIgnoresListeners(w: World, v: World)
    requires Core(w) && SameButListeners(w, v)
    ensures Core(v)
  {
    hide Coherent, LegalLog, Replay, NoRelayClash, HostPort, NoNetworkClash, SnapshotDriveName, SystemVolumeID,
      SystemVolumePath, Mask;
    DisksCoverOnlyDependsOn(w, v);
  }

  // ------------------------------------------------- one part replaced

  ghost function WithVolumes(w: World, volumes: map<VolumeID, VolumeRecord>): (v: World)
    ensures v.journal == w.journal
    ensures v.machines == w.machines && v.log == w.log && v.files == w.files && v.vms == w.vms && v.volumes == volumes
  {
    w.(volumes := volumes)
  }

  ghost function WithSnapshots(w: World, snapshots: map<SnapshotID, SnapshotRecord>): (v: World)
    ensures v.journal == w.journal
    ensures v.machines == w.machines && v.log == w.log && v.snapshots == snapshots
  {
    w.(snapshots := snapshots)
  }

  ghost function WithPorts(w: World, ports: map<PortID, PublishedPortRecord>): (v: World)
    ensures v.journal == w.journal
    ensures v.machines == w.machines && v.log == w.log && v.vms == w.vms && v.ports == ports
  {
    w.(ports := ports)
  }

  ghost function WithDisks(w: World, files: map<DiskPath, Image>, dirs: set<Dir>): (v: World)
    ensures v.journal == w.journal
    ensures v.machines == w.machines && v.log == w.log && v.volumes == w.volumes && v.vms == w.vms
    ensures v.files == files && v.dirs == dirs
  {
    w.(files := files, dirs := dirs)
  }

  ghost function WithVms(w: World, vms: map<int, Vm>): (v: World)
    ensures v.journal == w.journal
    ensures v.machines == w.machines && v.log == w.log && v.files == w.files && v.volumes == w.volumes && v.vms == vms
  {
    w.(vms := vms)
  }

  ghost function WithLog(w: World, log: seq<Change>): (v: World)
    ensures v.journal == w.journal
    ensures v.machines == w.machines && v.vms == w.vms && v.log == log
  {
    w.(log := log)
  }

  ghost function WithRelays(w: World, relays: map<RelayKey, Port16>): (v: World)
    ensures v.journal == w.journal
    ensures v.machines == w.machines && v.log == w.log && v.vms == w.vms && v.relays == relays
  {
    w.(relays := relays)
  }

  ghost function WithPublished(w: World, published: map<PortID, Port16>, missed: bool): (v: World)
    ensures v.journal == w.journal
    ensures v.machines == w.machines && v.log == w.log && v.vms == w.vms && v.published == published && v.missed == missed
  {
    w.(published := published, missed := missed)
  }

  // ------------------------------------------------------- writing records

  ghost predicate NoRelays(w: World, id: MachineID) {
    forall name: PortName :: (id, name) !in w.relays
  }

  ghost predicate NoPublished(w: World, id: MachineID) {
    !w.missed ==> forall p :: p in w.published && p in w.ports ==> w.ports[p].machineID != id
  }

  /** No listener is open for the machine, as far as the daemon could see. */
  ghost predicate Silent(w: World, id: MachineID) {
    NoRelays(w, id) && NoPublished(w, id)
  }

  ghost predicate FitsNetworks(w: World, r: MachineRecord) {
    IsLive(r.phase) ==>
      (forall o :: o in w.machines && o != r.id && IsLive(w.machines[o].phase) ==> NoNetworkClash(r, w.machines[o]))
  }

  ghost predicate FitsRelays(w: World, r: MachineRecord) {
    r.phase.Running? ==>
      && (forall o :: o in w.machines && o != r.id && w.machines[o].phase.Running?
            ==> NoRelayClash(r, w.machines[o]) && NoRelayClash(w.machines[o], r))
      && (forall name: PortName :: (r.id, name) in w.relays ==>
            HostPort(r.ports, name) == w.relays[(r.id, name)] != 0)
  }

  /** The recorded size stays, or becomes that of the disk. */
  ghost predicate FitsDisk(w: World, r: MachineRecord)
    requires r.id in w.machines
  {
    r.storageBytes == w.machines[r.id].storageBytes || (HasDisk(w, r.id) ==> DiskSize(w, r.id) == r.storageBytes)
  }

  ghost predicate FitsNewDisk(w: World, r: MachineRecord) {
    HasDisk(w, r.id) ==> DiskSize(w, r.id) == r.storageBytes
  }

  /** Writing this record over the stored one keeps the host in order. */
  ghost predicate MayUpdate(w: World, r: MachineRecord) {
    && r.id in w.machines
    && LegalUpdate(w.machines[r.id], r, w.log)
    && Coherent(w.base, r)
    && FitsNetworks(w, r)
    && FitsRelays(w, r)
    && (!r.phase.Running? ==> Silent(w, r.id))
    && FitsDisk(w, r)
  }

  /** A write that changes the recorded size settles the size of the disk. */
  ghost function AfterUpdate(w: World, r: MachineRecord): (after: World)
    requires r.id in w.machines
    ensures after.journal == w.journal && after.files == w.files && after.volumes == w.volumes
    ensures after.machines == w.machines[r.id := r] && after.vms == w.vms
  {
    w.(machines := w.machines[r.id := r], log := w.log + [Updated(w.machines[r.id], r)], abandoned := Settling(w, r))
  }

  ghost function Settling(w: World, r: MachineRecord): set<MachineID>
    requires r.id in w.machines
  {
    if r.storageBytes == w.machines[r.id].storageBytes then w.abandoned else w.abandoned - {r.id}
  }

  ghost predicate MayCreate(w: World, r: MachineRecord) {
    && r.phase.Starting?
    && Coherent(w.base, r)
    && FitsNetworks(w, r)
    && FitsNewDisk(w, r)
    && FreshNonce(w.log, r.readyNonce)
    && (SystemVolumeID(r.id) in w.volumes ==> IsSystemDisk(w.volumes[SystemVolumeID(r.id)], r.id))
  }

  ghost function AfterCreate(w: World, r: MachineRecord): (after: World)
    ensures after.journal == w.journal && after.files == w.files && after.volumes == w.volumes
    ensures after.machines == w.machines[r.id := r]
  {
    w.(machines := w.machines[r.id := r], log := w.log + [Created(r)], abandoned := w.abandoned - {r.id})
  }

  ghost function AfterDelete(w: World, id: MachineID): (after: World)
    requires id in w.machines
    ensures after.journal == w.journal && after.files == w.files && after.volumes == w.volumes
    ensures after.machines == w.machines - {id} && after.vms == w.vms
  {
    w.(machines := w.machines - {id}, log := w.log + [Removed(w.machines[id])], abandoned := w.abandoned - {id})
  }

  lemma AppendKeepsLog(w: World, c: Change)
    requires LegalLog(w.log) && LegalChange(w.log, c)
    ensures LegalLog(w.log + [c])
    ensures Replay(w.log + [c]) == Replayed(Replay(w.log), c)
    ensures Sizes(w.log + [c]) == Resized(Sizes(w.log), c)
  {
    hide LegalChange;
    assert (w.log + [c])[..|w.log|] == w.log;
  }

  lemma PutKeepsNetworks(w: World, r: MachineRecord)
    requires NetworksDistinct(w) && FitsNetworks(w, r)
    ensures NetworksDistinct(w.(machines := w.machines[r.id := r]))
  {
  }

  lemma PutKeepsRelayPorts(w: World, r: MachineRecord)
    requires RelayPortsDistinct(w) && FitsRelays(w, r)
    ensures RelayPortsDistinct(w.(machines := w.machines[r.id := r]))
  {
    hide NoRelayClash, HostPort;
  }

  lemma PutKeepsRelays(w: World, r: MachineRecord)
    requires RelaysStoredApart(w, r.id) && FitsRelays(w, r) && (!r.phase.Running? ==> NoRelays(w, r.id))
    ensures RelaysStored(w.(machines := w.machines[r.id := r]))
  {
    hide NoRelayClash, HostPort;
    var v := w.(machines := w.machines[r.id := r]);
    forall key | key in v.relays ensures RelayStored(v, key, v.relays[key]) {
      assert key.0 != r.id ==> RelayStored(w, key, w.relays[key]);
      assert key == (key.0, key.1);
    }
  }

  lemma PutKeepsPublished(w: World, r: MachineRecord)
    requires PublishedStored(w) && (!r.phase.Running? ==> NoPublished(w, r.id))
    ensures PublishedStored(w.(machines := w.machines[r.id := r]))
  {
    var v := w.(machines := w.machines[r.id := r]);
    if !v.missed {
      forall p | p in v.published ensures PortStored(v, p, v.published[p]) {
        assert PortStored(w, p, w.published[p]);
      }
    }
  }

  lemma UpdateKeepsDisks(w: World, r: MachineRecord)
    requires DisksCover(w) && DisksReplayed(w) && r.id in w.machines && FitsDisk(w, r)
    requires Sizes(AfterUpdate(w, r).log) == Sizes(w.log)
    ensures DisksCover(AfterUpdate(w, r)) && DisksReplayed(AfterUpdate(w, r))
  {
    hide SystemVolumePath, Sizes;
    var v := AfterUpdate(w, r);
    forall id | id in v.machines && HasDisk(v, id)
      ensures DiskCovers(v, id) && DiskReplayed(v, id)
    {
      assert DiskCovers(w, id) && DiskReplayed(w, id);
      assert id != r.id ==> (Torn(v, id) <==> Torn(w, id));
    }
  }

  lemma CreateKeepsDisks(w: World, r: MachineRecord)
    requires DisksCover(w) && DisksReplayed(w) && FitsNewDisk(w, r) && r.id !in w.machines
    requires Sizes(AfterCreate(w, r).log) == Sizes(w.log)[r.id := r.storageBytes]
    ensures DisksCover(AfterCreate(w, r)) && DisksReplayed(AfterCreate(w, r))
  {
    hide SystemVolumePath, Sizes;
    var v := AfterCreate(w, r);
    forall id | id in v.machines && HasDisk(v, id)
      ensures DiskCovers(v, id) && DiskReplayed(v, id)
    {
      if id != r.id {
        assert DiskCovers(w, id) && DiskReplayed(w, id);
        assert Torn(v, id) <==> Torn(w, id);
      }
    }
  }

  lemma UpdateKeepsGood(w: World, r: MachineRecord)
    requires Core(w) && RelaysStoredApart(w, r.id) && PublishedStored(w) && MayUpdate(w, r)
    ensures Good(AfterUpdate(w, r))
  {
    hide Coherent, LegalUpdate, LegalLog, Replay, Sizes, NetworksDistinct, RelayPortsDistinct, RelaysStored,
      RelaysStoredApart, PublishedStored, DisksCover, DisksReplayed, FitsNetworks, FitsRelays, FitsDisk, PortsDistinct,
      SnapshotsNamed, SystemVolumeID, SystemVolumePath;
    PutKeepsNetworks(w, r);
    PutKeepsRelayPorts(w, r);
    PutKeepsRelays(w, r);
    PutKeepsPublished(w, r);
    AppendKeepsLog(w, Updated(w.machines[r.id], r));
    UpdateKeepsDisks(w, r);
    GoodAfterPut(w, r, AfterUpdate(w, r));
  }

  lemma CreateKeepsGood(w: World, r: MachineRecord)
    requires Good(w) && r.id !in w.machines && MayCreate(w, r)
    ensures Good(AfterCreate(w, r))
  {
    hide Coherent, LegalUpdate, LegalLog, Replay, Sizes, NetworksDistinct, RelayPortsDistinct, RelaysStored,
      RelaysStoredApart, PublishedStored, DisksCover, DisksReplayed, FitsNetworks, FitsNewDisk, PortsDistinct,
      SnapshotsNamed, SystemVolumeID, SystemVolumePath, FreshNonce;
    NewcomerIsSilent(w, r);
    PutKeepsNetworks(w, r);
    PutKeepsRelayPorts(w, r);
    PutKeepsRelays(w, r);
    PutKeepsPublished(w, r);
    AppendKeepsLog(w, Created(r));
    CreateKeepsDisks(w, r);
    GoodAfterPut(w, r, AfterCreate(w, r));
  }

  /** Nothing listens for a machine that is not recorded yet. */
  lemma NewcomerIsSilent(w: World, r: MachineRecord)
    requires RelaysStored(w) && PublishedStored(w) && r.id !in w.machines && r.phase.Starting?
    ensures RelaysStoredApart(w, r.id) && NoRelays(w, r.id) && NoPublished(w, r.id) && FitsRelays(w, r)
  {
    hide HostPort;
    forall name: PortName ensures (r.id, name) !in w.relays {
      assert (r.id, name) in w.relays ==> RelayStored(w, (r.id, name), w.relays[(r.id, name)]);
    }
    if !w.missed {
      forall p | p in w.published && p in w.ports ensures w.ports[p].machineID != r.id {
        assert PortStored(w, p, w.published[p]);
      }
    }
  }

  /** Collects the parts of Good after one record was written. */
  lemma GoodAfterPut(w: World, r: MachineRecord, v: World)
    requires Core(w) && v == w.(machines := w.machines[r.id := r], log := v.log, abandoned := v.abandoned)
    requires var m := w.(machines := v.machines);
             NetworksDistinct(m) && RelayPortsDistinct(m) && RelaysStored(m) && PublishedStored(m)
    requires DisksCover(v) && DisksReplayed(v)
    requires Coherent(w.base, r)
    requires SystemVolumeID(r.id) in w.volumes ==> IsSystemDisk(w.volumes[SystemVolumeID(r.id)], r.id)
    requires LegalLog(v.log) && Replay(v.log) == v.machines
    ensures Good(v)
  {
    hide Coherent, LegalLog, Replay, NoRelayClash, HostPort, NoNetworkClash, SnapshotDriveName, SystemVolumeID,
      SystemVolumePath, DisksCover, DisksReplayed, RelaysStored, PublishedStored, SnapshotDisk;
    var m := w.(machines := v.machines);
    SameRecordsDistinct(m, v);
    ListenersOnlyDependOn(m, v);
  }

  lemma SameRecordsDistinct(m: World, v: World)
    requires m.machines == v.machines && NetworksDistinct(m) && RelayPortsDistinct(m)
    ensures NetworksDistinct(v) && RelayPortsDistinct(v)
  {
    hide NoRelayClash, NoNetworkClash;
  }

  lemma ListenersOnlyDependOn(m: World, v: World)
    requires RelaysStored(m) && PublishedStored(m)
    requires m.machines == v.machines && m.ports == v.ports && m.relays == v.relays
    requires m.published == v.published && m.missed == v.missed
    ensures RelaysStored(v) && PublishedStored(v)
  {
    hide HostPort;
    forall key | key in v.relays ensures RelayStored(v, key, v.relays[key]) {
      assert RelayStored(m, key, m.relays[key]);
    }
    if !v.missed {
      forall p | p in v.published ensures PortStored(v, p, v.published[p]) {
        assert PortStored(m, p, m.published[p]);
      }
    }
  }

  lemma DisksCoverOnlyDependsOn(m: World, v: World)
    requires DisksCover(m) && DisksReplayed(m)
    requires m.machines == v.machines && m.files == v.files && m.journal == v.journal && m.abandoned == v.abandoned
    requires Sizes(m.log) == Sizes(v.log)
    ensures DisksCover(v) && DisksReplayed(v)
  {
    hide SystemVolumePath, Sizes;
    forall id | id in v.machines && HasDisk(v, id)
      ensures DiskCovers(v, id) && DiskReplayed(v, id)
    {
      assert DiskCovers(m, id) && DiskReplayed(m, id);
      assert Torn(v, id) <==> Torn(m, id);
    }
  }

  lemma DropKeepsListeners(w: World, id: MachineID)
    requires RelaysStored(w) && PublishedStored(w) && Silent(w, id)
    ensures var v := w.(machines := w.machines - {id}); RelaysStored(v) && PublishedStored(v)
  {
    hide HostPort;
    var v := w.(machines := w.machines - {id});
    forall key | key in v.relays ensures RelayStored(v, key, v.relays[key]) {
      assert RelayStored(w, key, w.relays[key]) && key == (key.0, key.1);
    }
    if !v.missed {
      forall p | p in v.published ensures PortStored(v, p, v.published[p]) {
        assert PortStored(w, p, w.published[p]);
      }
    }
  }

  lemma DropKeepsDisks(w: World, id: MachineID)
    requires DisksCover(w) && DisksReplayed(w) && id in w.machines
    requires Sizes(AfterDelete(w, id).log) == Sizes(w.log) - {w.machines[id].id} && w.machines[id].id == id
    ensures DisksCover(AfterDelete(w, id)) && DisksReplayed(AfterDelete(w, id))
  {
    hide SystemVolumePath, Sizes;
    var v := AfterDelete(w, id);
    forall o | o in v.machines && HasDisk(v, o)
      ensures DiskCovers(v, o) && DiskReplayed(v, o)
    {
      assert DiskCovers(w, o) && DiskReplayed(w, o);
      assert Torn(v, o) <==> Torn(w, o);
    }
  }

  lemma DeleteKeepsGood(w: World, id: MachineID)
    requires Good(w) && id in w.machines && Silent(w, id)
    ensures Good(AfterDelete(w, id))
  {
    hide Coherent, LegalLog, Replay, Sizes, NoRelayClash, HostPort, NoNetworkClash, SnapshotDriveName, SystemVolumeID,
      SystemVolumePath, DisksCover, DisksReplayed, RelaysStored, PublishedStored, Silent;
    var m, v := w.(machines := w.machines - {id}), AfterDelete(w, id);
    DropKeepsListeners(w, id);
    ListenersOnlyDependOn(m, v);
    AppendKeepsLog(w, Removed(w.machines[id]));
    DropKeepsDisks(w, id);
  }

  // ------------------------------------------------------------- the rest

  /** Overwriting the entry of an interrupted resize abandons it; writing it
      anew, for the size the disk has, takes it up again. */
  ghost function AfterUpsert(w: World, op: OperationRecord): (after: World)
    ensures after.journal == w.journal[op.machineID := op] && after.machines == w.machines
    ensures after.log == w.log && after.files == w.files && after.volumes == w.volumes && after.snapshots == w.snapshots
  {
    var id := op.machineID;
    var resumes := HasDisk(w, id) && op.kind.ResizeOp? && op.storageBytes == DiskSize(w, id);
    w.(journal := w.journal[id := op], abandoned := Abandoning(w, id, resumes))
  }

  ghost function Abandoning(w: World, id: MachineID, resumes: bool): set<MachineID> {
    if !Torn(w, id) then w.abandoned else if resumes then w.abandoned - {id} else w.abandoned + {id}
  }

  ghost function AfterClear(w: World, id: MachineID): (after: World)
    ensures after.journal == w.journal - {id} && after.machines == w.machines
    ensures after.log == w.log && after.files == w.files && after.volumes == w.volumes
  {
    w.(journal := w.journal - {id}, abandoned := Abandoning(w, id, false))
  }

  lemma JournalKeepsDisks(w: World, id: MachineID, v: World, resumes: bool)
    requires DisksCover(w) && DisksReplayed(w)
    requires v == w.(journal := v.journal, abandoned := Abandoning(w, id, resumes))
    requires v.journal - {id} == w.journal - {id}
    requires HasDisk(w, id) ==> (ResizePending(v, id, DiskSize(w, id)) <==> resumes)
    ensures DisksCover(v) && DisksReplayed(v)
  {
    hide SystemVolumePath, Sizes;
    forall o | o in v.machines && HasDisk(v, o)
      ensures DiskCovers(v, o) && DiskReplayed(v, o)
    {
      assert DiskCovers(w, o) && DiskReplayed(w, o);
      assert Torn(v, o) <==> Torn(w, o);
      if o != id {
        assert o in w.journal - {id} <==> o in v.journal - {id};
        assert o in w.journal ==> (w.journal - {id})[o] == (v.journal - {id})[o];
      }
    }
  }

  lemma UpsertKeepsGood(w: World, op: OperationRecord)
    requires Good(w)
    ensures Good(AfterUpsert(w, op))
  {
    hide Coherent, LegalLog, Replay, NetworksDistinct, RelayPortsDistinct, RelaysStored, PublishedStored, Torn,
      PortsDistinct, SnapshotsNamed, RecordsCoherent, SystemVolumesPlaced, DisksCover, DisksReplayed, SystemVolumePath;
    var id := op.machineID;
    assert w.journal[id := op] - {id} == w.journal - {id};
    JournalKeepsDisks(w, id, AfterUpsert(w, op),
                      HasDisk(w, id) && op.kind.ResizeOp? && op.storageBytes == DiskSize(w, id));
    GoodWithJournal(w, AfterUpsert(w, op));
  }

  lemma ClearKeepsGood(w: World, id: MachineID)
    requires Good(w)
    ensures Good(AfterClear(w, id))
  {
    hide Coherent, LegalLog, Replay, NetworksDistinct, RelayPortsDistinct, RelaysStored, PublishedStored, Torn,
      PortsDistinct, SnapshotsNamed, RecordsCoherent, SystemVolumesPlaced, DisksCover, DisksReplayed, SystemVolumePath;
    assert (w.journal - {id}) - {id} == w.journal - {id};
    JournalKeepsDisks(w, id, AfterClear(w, id), false);
    GoodWithJournal(w, AfterClear(w, id));
  }

  lemma GoodWithJournal(w: World, v: World)
    requires Good(w) && v == w.(journal := v.journal, abandoned := v.abandoned) && DisksCover(v) && DisksReplayed(v)
    ensures Good(v)
  {
    hide Coherent, LegalLog, Replay, NoRelayClash, HostPort, NoNetworkClash, SnapshotDriveName, SystemVolumeID,
      SystemVolumePath, DisksCover, DisksReplayed;
    ListenersOnlyDependOn(w, v);
  }

  ghost predicate MayPlaceVolume(w: World, v: VolumeRecord) {
    && v.path.dir.MachineDir?
    && forall id :: id in w.machines && v.id == SystemVolumeID(id) ==> IsSystemDisk(v, id)
  }

  lemma PlacedVolumes(w: World, v: VolumeRecord)
    requires SystemVolumesPlaced(w) && VolumesInMachineDirs(w) && MayPlaceVolume(w, v)
    ensures var u := w.(volumes := w.volumes[v.id := v]); SystemVolumesPlaced(u) && VolumesInMachineDirs(u)
    ensures var u := w.(volumes := w.volumes - {v.id}); SystemVolumesPlaced(u) && VolumesInMachineDirs(u)
  {
    hide SystemVolumeID, SystemVolumePath;
  }

  lemma VolumeKeepsGood(w: World, v: VolumeRecord)
    requires Good(w) && MayPlaceVolume(w, v)
    ensures Good(w.(volumes := w.volumes[v.id := v]))
    ensures Good(w.(volumes := w.volumes - {v.id}))
  {
    hide RecordsCoherent, NetworksDistinct, RelayPortsDistinct, PortsDistinct, SystemVolumesPlaced, VolumesInMachineDirs,
      DisksCover, SnapshotsNamed, LegalLog, Replay, RelaysStored, PublishedStored, MayPlaceVolume;
    PlacedVolumes(w, v);
    GoodWithVolumes(w, w.volumes[v.id := v]);
    GoodWithVolumes(w, w.volumes - {v.id});
  }

  lemma GoodWithVolumes(w: World, volumes: map<VolumeID, VolumeRecord>)
    requires Good(w)
    requires SystemVolumesPlaced(w.(volumes := volumes)) && VolumesInMachineDirs(w.(volumes := volumes))
    ensures Good(w.(volumes := volumes))
  {
    hide Coherent, LegalLog, Replay, NoRelayClash, HostPort, NoNetworkClash, SnapshotDriveName, SystemVolumeID,
      SystemVolumePath;
    var v := w.(volumes := volumes);
    ListenersOnlyDependOn(w, v);
    DisksCoverOnlyDependsOn(w, v);
  }

  /** The files differ only off the system disks of existing machines, or by
      removal. */
  ghost predicate SystemDisksKept(w: World, files: map<DiskPath, Image>) {
    forall id :: id in w.machines && SystemVolumePath(id) in files ==>
      HasDisk(w, id) && |files[SystemVolumePath(id)]| == DiskSize(w, id)
  }

  lemma FilesKeepDisks(w: World, files: map<DiskPath, Image>, dirs: set<Dir>)
    requires DisksCover(w) && DisksReplayed(w) && SystemDisksKept(w, files)
    ensures var v := w.(files := files, dirs := dirs); DisksCover(v) && DisksReplayed(v)
  {
    hide SystemVolumePath, Sizes;
    var v := w.(files := files, dirs := dirs);
    forall id | id in v.machines && HasDisk(v, id)
      ensures DiskCovers(v, id) && DiskReplayed(v, id)
    {
      assert HasDisk(w, id) && DiskSize(v, id) == DiskSize(w, id);
      assert DiskCovers(w, id) && DiskReplayed(w, id);
      assert Torn(v, id) <==> Torn(w, id);
    }
  }

  lemma FilesKeepGood(w: World, files: map<DiskPath, Image>, dirs: set<Dir>)
    requires Good(w) && SystemDisksKept(w, files)
    ensures Good(w.(files := files, dirs := dirs))
  {
    hide Coherent, LegalLog, Replay, NoRelayClash, HostPort, NoNetworkClash, SnapshotDriveName, DisksCover, DisksReplayed;
    FilesKeepDisks(w, files, dirs);
    ListenersOnlyDependOn(w, w.(files := files, dirs := dirs));
  }

  /** Growing a disk to the size of its pending resize makes up for a lost one. */
  ghost function AfterGrow(w: World, id: MachineID, image: Image): World
    requires HasDisk(w, id)
  {
    w.(files := w.files[SystemVolumePath(id) := image], log := w.log + [Grown(id, DiskSize(w, id), |image|)],
       abandoned := w.abandoned - {id})
  }

  lemma GrowKeepsDisks(w: World, id: MachineID, image: Image)
    requires DisksCover(w) && DisksReplayed(w) && id in w.machines && HasDisk(w, id)
    requires DiskSize(w, id) <= |image| && ResizePending(w, id, |image|)
    requires Sizes(AfterGrow(w, id, image).log) == Sizes(w.log)[id := |image|]
    ensures DisksCover(AfterGrow(w, id, image)) && DisksReplayed(AfterGrow(w, id, image))
  {
    hide Sizes;
    var v := AfterGrow(w, id, image);
    assert DiskCovers(w, id);
    forall o | o in v.machines && HasDisk(v, o)
      ensures DiskCovers(v, o) && DiskReplayed(v, o)
    {
      if o != id {
        assert SystemVolumePath(o) != SystemVolumePath(id);
        assert DiskSize(v, o) == DiskSize(w, o);
        assert DiskCovers(w, o) && DiskReplayed(w, o);
        assert Torn(v, o) <==> Torn(w, o);
      }
    }
  }

  lemma GrowKeepsGood(w: World, id: MachineID, image: Image)
    requires Good(w) && id in w.machines && HasDisk(w, id)
    requires DiskSize(w, id) <= |image| && ResizePending(w, id, |image|)
    ensures Good(AfterGrow(w, id, image))
  {
    hide Coherent, LegalLog, Replay, Sizes, NoRelayClash, HostPort, NoNetworkClash, SnapshotDriveName, DisksCover,
      ResizePending, SystemVolumePath;
    var v := AfterGrow(w, id, image);
    assert DiskReplayed(w, id);
    AppendKeepsLog(w, Grown(id, DiskSize(w, id), |image|));
    GrowKeepsDisks(w, id, image);
    ListenersOnlyDependOn(w, v);
  }

  lemma VmsKeepGood(w: World, vms: map<int, Vm>)
    requires Good(w)
    ensures Good(w.(vms := vms))
  {
    hide Coherent, LegalLog, Replay, Sizes, NoRelayClash, HostPort, NoNetworkClash, SnapshotDriveName, DisksCover,
      DisksReplayed;
    var v := w.(vms := vms);
    ListenersOnlyDependOn(w, v);
    DisksCoverOnlyDependsOn(w, v);
  }

  /** The guest's answer is history, and nothing else. */
  lemma EchoKeepsGood(w: World, id: MachineID, nonce: string)
    requires Good(w)
    ensures Good(w.(log := w.log + [Echoed(id, nonce)]))
  {
    hide Coherent, LegalLog, Replay, Sizes, NoRelayClash, HostPort, NoNetworkClash, SnapshotDriveName, DisksCover,
      DisksReplayed;
    var v := w.(log := w.log + [Echoed(id, nonce)]);
    AppendKeepsLog(w, Echoed(id, nonce));
    ListenersOnlyDependOn(w, v);
    DisksCoverOnlyDependsOn(w, v);
  }

  // ----------------------------------------------------- ports, snapshots

  ghost predicate MayStorePort(w: World, r: PublishedPortRecord) {
    && MIN_PUBLISHED_PORT <= r.hostPort <= MAX_PUBLISHED_PORT
    && (r.id in w.published && !w.missed ==>
          && w.published[r.id] == r.hostPort
          && r.machineID in w.machines
          && w.machines[r.machineID].phase.Running?)
  }

  lemma StoredPortListens(w: World, r: PublishedPortRecord)
    requires RelaysStored(w) && PublishedStoredApart(w, r.id) && MayStorePort(w, r)
    ensures var v := w.(ports := w.ports[r.id := r]); RelaysStored(v) && PublishedStored(v)
    ensures MIN_PUBLISHED_PORT <= r.hostPort <= MAX_PUBLISHED_PORT
  {
    hide HostPort;
    var v := w.(ports := w.ports[r.id := r]);
    forall key | key in v.relays ensures RelayStored(v, key, v.relays[key]) {
      assert RelayStored(w, key, w.relays[key]);
    }
    if !v.missed {
      forall p | p in v.published ensures PortStored(v, p, v.published[p]) {
        assert p != r.id ==> PortStored(w, p, w.published[p]);
      }
    }
  }

  lemma StorePortKeepsGood(w: World, r: PublishedPortRecord)
    requires Core(w) && RelaysStored(w) && PublishedStoredApart(w, r.id) && MayStorePort(w, r)
    requires r.id !in w.ports && forall p :: p in w.ports ==> w.ports[p].hostPort != r.hostPort
    ensures Good(w.(ports := w.ports[r.id := r]))
  {
    hide Coherent, LegalLog, Replay, NoRelayClash, HostPort, NoNetworkClash, SnapshotDriveName, SystemVolumeID,
      SystemVolumePath, Mask, DisksCover, RelaysStored, PublishedStored, PublishedStoredApart, MayStorePort;
    StoredPortListens(w, r);
    DisksCoverOnlyDependsOn(w, w.(ports := w.ports[r.id := r]));
  }

  lemma DropPortKeepsGood(w: World, id: PortID)
    requires Good(w) && (w.missed || id !in w.published)
    ensures Good(w.(ports := w.ports - {id}))
  {
    hide Coherent, LegalLog, Replay, NoRelayClash, HostPort, NoNetworkClash, SnapshotDriveName, SystemVolumeID,
      SystemVolumePath, Mask, RelaysStored, PublishedStored, DisksCover, DisksReplayed;
    DroppedPortIsStored(w, id);
    DisksCoverOnlyDependsOn(w, w.(ports := w.ports - {id}));
  }

  lemma DroppedPortIsStored(w: World, id: PortID)
    requires RelaysStored(w) && PublishedStored(w) && (w.missed || id !in w.published)
    ensures var v := w.(ports := w.ports - {id}); RelaysStored(v) && PublishedStored(v)
  {
    hide HostPort;
    var v := w.(ports := w.ports - {id});
    forall key | key in v.relays ensures RelayStored(v, key, v.relays[key]) {
      assert RelayStored(w, key, w.relays[key]);
    }
    if !v.missed {
      forall p | p in v.published ensures PortStored(v, p, v.published[p]) {
        assert PortStored(w, p, w.published[p]);
      }
    }
  }

  lemma SnapshotsKeepGood(w: World, snapshots: map<SnapshotID, SnapshotRecord>)
    requires Good(w) && SnapshotsNamed(w.(snapshots := snapshots))
    ensures Good(w.(snapshots := snapshots))
  {
    hide Coherent, LegalLog, Replay, NoRelayClash, HostPort, NoNetworkClash, SnapshotDriveName, SystemVolumeID,
      SystemVolumePath, Mask;
    var v := w.(snapshots := snapshots);
    ListenersOnlyDependOn(w, v);
    DisksCoverOnlyDependsOn(w, v);
  }

  /** Closing listeners never disturbs the host; neither does forgetting to. */
  lemma ClosingKeepsGood(w: World, relays: map<RelayKey, Port16>, published: map<PortID, Port16>, missed: bool)
    requires Core(w) && (w.missed || PublishedStored(w))
    requires forall key :: key in relays ==> key in w.relays && w.relays[key] == relays[key]
    requires forall key :: key in relays ==> RelayStored(w, key, relays[key])
    requires forall p :: p in published ==> p in w.published && w.published[p] == published[p]
    requires !missed ==> !w.missed || published == map[]
    ensures Good(w.(relays := relays, published := published, missed := missed))
  {
    hide Core, RelayStored, RelaysStored, PublishedStored;
    CoreIgnoresListeners(w, w.(relays := relays, published := published, missed := missed));
    ClosingKeepsStored(w, relays, published, missed);
  }

  lemma ClosingKeepsStored(w: World, relays: map<RelayKey, Port16>, published: map<PortID, Port16>, missed: bool)
    requires w.missed || PublishedStored(w)
    requires forall key :: key in relays ==> RelayStored(w, key, relays[key])
    requires forall p :: p in published ==> p in w.published && w.published[p] == published[p]
    requires !missed ==> !w.missed || published == map[]
    ensures var v := w.(relays := relays, published := published, missed := missed); RelaysStored(v) && PublishedStored(v)
  {
    hide HostPort;
    var v := w.(relays := relays, published := published, missed := missed);
    forall key | key in v.relays ensures RelayStored(v, key, v.relays[key]) {
      assert RelayStored(w, key, relays[key]);
    }
    if !v.missed {
      forall p | p in v.published ensures PortStored(v, p, v.published[p]) {
        assert PortStored(w, p, w.published[p]);
      }
    }
  }

  lemma OpenPublishedKeepsGood(w: World, p: PortID, hostPort: Port16)
    requires Good(w) && (w.missed || PortStored(w, p, hostPort))
    ensures Good(w.(published := w.published[p := hostPort]))
  {
    hide Core, RelaysStored, PublishedStored;
    CoreIgnoresListeners(w, w.(published := w.published[p := hostPort]));
    OpenPublishedIsStored(w, p, hostPort);
  }

  lemma OpenPublishedIsStored(w: World, p: PortID, hostPort: Port16)
    requires RelaysStored(w) && PublishedStored(w) && (w.missed || PortStored(w, p, hostPort))
    ensures var v := w.(published := w.published[p := hostPort]); RelaysStored(v) && PublishedStored(v)
  {
    hide HostPort;
    var v := w.(published := w.published[p := hostPort]);
    forall key | key in v.relays ensures RelayStored(v, key, v.relays[key]) {
      assert RelayStored(w, key, w.relays[key]);
    }
    if !v.missed {
      forall q | q in v.published ensures PortStored(v, q, v.published[q]) {
        assert q != p ==> PortStored(w, q, w.published[q]);
      }
    }
  }

  // ----------------------------------------------------------------- disks

  /** No existing machine boots from this path. */
  ghost predicate NotASystemDisk(w: World, path: DiskPath) {
    forall id :: id in w.machines ==> SystemVolumePath(id) != path
  }

  /** os.Truncate: cuts, or extends with zero bytes. */
  function ResizeImage(image: Image, size: nat): (r: Image)
    ensures |r| == size
  {
    if size <= |image| then image[..size] else image + seq(size - |image|, _ => 0)
  }

  function TempPath(path: DiskPath): DiskPath {
    path.(name := path.name + ".tmp")
  }

  lemma TempIsNotASystemDisk(w: World, path: DiskPath)
    ensures NotASystemDisk(w, TempPath(path))
  {
    var n := TempPath(path).name;
    assert n[|n| - 1] == 'p';
    assert "system.img"[|"system.img"| - 1] == 'g';
  }

  /** Only these paths may differ between the two disks. */
  ghost predicate SameFilesApart(files: map<DiskPath, Image>, now: map<DiskPath, Image>, apart: set<DiskPath>) {
    forall path :: path !in apart ==>
      (path in files <==> path in now) && (path in files && path in now ==> files[path] == now[path])
  }

  function WithoutDir(files: map<DiskPath, Image>, dir: Dir): map<DiskPath, Image> {
    map path | path in files && path.dir != dir :: files[path]
  }

  lemma CloneKept(w: World, target: DiskPath, image: Image)
    requires NotASystemDisk(w, target)
    ensures SystemDisksKept(w, w.files[TempPath(target) := image])
    ensures SystemDisksKept(w, (w.files[TempPath(target) := image] - {TempPath(target)})[target := image])
  {
    hide SystemVolumePath, TempPath;
    TempIsNotASystemDisk(w, target);
  }

  /** The same, with one file of the directory still there. */
  function WithoutMost(files: map<DiskPath, Image>, dir: Dir, name: string): map<DiskPath, Image> {
    map path | path in files && (path.dir != dir || path.name == name) :: files[path]
  }

  lemma RemovalsKept(w: World, dir: Dir, name: string)
    ensures SystemDisksKept(w, WithoutDir(w.files, dir)) && SystemDisksKept(w, WithoutMost(w.files, dir, name))
    ensures SomeRemoved(w.files, WithoutDir(w.files, dir), dir)
    ensures SomeRemoved(w.files, WithoutMost(w.files, dir, name), dir)
    ensures SomeRemoved(w.files, w.files, dir)
  {
  }

  /** What an interrupted RemoveAll may leave. */
  ghost predicate SomeRemoved(files: map<DiskPath, Image>, now: map<DiskPath, Image>, dir: Dir) {
    && (forall path :: path in now ==> path in files && files[path] == now[path])
    && (forall path :: path in files && path.dir != dir ==> path in now)
  }
}
