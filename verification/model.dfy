/** The durable records of the daemon. Timestamps that nothing reads, the guest
    configuration and the storage pool are not modelled. */
module Model {
  import opened Wrappers

  type MachineID = string
  type VolumeID = string
  type SnapshotID = string
  type PortID = string

  newtype byte = x: int | 0 <= x < 256

  type Image = seq<byte>

  type Port16 = x: int | 0 <= x < 0x1_0000

  /** One directory per machine, one per snapshot, and the rest of the disk. */
  datatype Dir = MachineDir(machine: MachineID) | SnapshotDir(snapshot: SnapshotID) | Elsewhere(path: string)

  datatype DiskPath = DiskPath(dir: Dir, name: string)

  datatype Phase = Starting | Running | Stopped | Failed

  datatype PortName = SSH | VNC | Exec

  datatype MachinePort = MachinePort(name: PortName, port: Port16, hostPort: Port16)

  datatype MachineRecord = MachineRecord(
    id: MachineID,
    artifact: string,
    memoryMiB: int,
    storageBytes: int,
    systemVolumeID: VolumeID,
    userVolumeIDs: seq<VolumeID>,
    runtimeHost: string,
    tapDevice: string,
    ports: seq<MachinePort>,
    guestKey: string,
    readyNonce: string,
    phase: Phase,
    error: string,
    pid: int,
    socketPath: string,
    startedAt: Option<int>)

  datatype VolumeKind = SystemVolume | UserVolume

  datatype VolumeRecord = VolumeRecord(
    id: VolumeID,
    kind: VolumeKind,
    attachedTo: Option<MachineID>,
    path: DiskPath,
    workspace: bool,
    deleteOnMachineDelete: bool)

  datatype SnapshotArtifact = SnapshotArtifact(id: string, name: string, localPath: DiskPath)

  datatype SnapshotRecord = SnapshotRecord(
    id: SnapshotID,
    machineID: MachineID,
    diskPaths: seq<DiskPath>,
    artifacts: seq<SnapshotArtifact>)

  datatype PublishedPortRecord = PublishedPortRecord(id: PortID, machineID: MachineID, port: Port16, hostPort: Port16)

  datatype OperationKind = CreateOp | StartOp | StopOp | ResizeOp | DeleteOp | SnapshotOp | RestoreOp

  datatype OperationRecord = OperationRecord(
    machineID: MachineID,
    kind: OperationKind,
    snapshotID: Option<SnapshotID>,
    memoryMiB: int,
    storageBytes: int)

  /** The outcome of one call on the store, the disk or the VMM. */
  datatype Status = Done | NotFound | Conflict | Fault

  function SystemVolumeID(id: MachineID): VolumeID {
    id + "-system"
  }

  function WorkspaceVolumeID(id: MachineID): VolumeID {
    id + "-workspace"
  }

  function SystemVolumePath(id: MachineID): DiskPath {
    DiskPath(MachineDir(id), "system.img")
  }

  function WorkspaceVolumePath(id: MachineID): DiskPath {
    DiskPath(MachineDir(id), "workspace.img")
  }

  lemma SystemIsNotWorkspace(id: MachineID, other: MachineID)
    ensures SystemVolumeID(id) != WorkspaceVolumeID(other)
  {
    var s, w := SystemVolumeID(id), WorkspaceVolumeID(other);
    assert s[|s| - 1] == 'm' && w[|w| - 1] == 'e';
  }

  lemma SystemVolumeIDInjective(id: MachineID, other: MachineID)
    requires SystemVolumeID(id) == SystemVolumeID(other)
    ensures id == other
  {
    assert SystemVolumeID(id)[..|id|] == id && SystemVolumeID(other)[..|other|] == other;
  }
}
