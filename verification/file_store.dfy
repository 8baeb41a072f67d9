/** Rows with a string key, as the persisted JSON lists hold them. */
module KeyedRows {
  /** The map a list of rows stands for. */
  ghost function Index<R>(rows: seq<R>, key: R -> string): map<string, R> {
    if rows == [] then map[]
    else
      var last := rows[|rows| - 1];
      Index(rows[..|rows| - 1], key)[key(last) := last]
  }

  ghost predicate Unique<R>(rows: seq<R>, key: R -> string) {
    forall i, j :: 0 <= i < j < |rows| ==> key(rows[i]) != key(rows[j])
  }

  lemma {:induction false} IndexHolds<R>(rows: seq<R>, key: R -> string)
    requires Unique(rows, key)
    ensures forall i :: 0 <= i < |rows| ==> key(rows[i]) in Index(rows, key) && Index(rows, key)[key(rows[i])] == rows[i]
    ensures forall k :: k in Index(rows, key) ==> exists i :: 0 <= i < |rows| && key(rows[i]) == k
  {
    if rows != [] {
      var front := rows[..|rows| - 1];
      IndexHolds(front, key);
      forall k | k in Index(rows, key)
        ensures exists i :: 0 <= i < |rows| && key(rows[i]) == k
      {
        if k in Index(front, key) {
          var i :| 0 <= i < |front| && key(front[i]) == k;
          assert key(rows[i]) == k;
        } else {
          assert key(rows[|rows| - 1]) == k;
        }
      }
    }
  }

  lemma IndexAppend<R>(rows: seq<R>, key: R -> string, r: R)
    requires Unique(rows, key) && key(r) !in Index(rows, key)
    ensures Unique(rows + [r], key)
    ensures Index(rows + [r], key) == Index(rows, key)[key(r) := r]
  {
    IndexHolds(rows, key);
    assert (rows + [r])[..|rows|] == rows;
  }

  lemma {:induction false} IndexReplace<R>(rows: seq<R>, key: R -> string, i: nat, r: R)
    requires Unique(rows, key) && i < |rows| && key(rows[i]) == key(r)
    ensures Unique(rows[i := r], key)
    ensures Index(rows[i := r], key) == Index(rows, key)[key(r) := r]
  {
    var n := |rows| - 1;
    var front := rows[..n];
    if i < n {
      IndexReplace(front, key, i, r);
      assert rows[i := r][..n] == front[i := r];
    } else {
      assert rows[i := r][..n] == front;
    }
  }

  lemma UniqueRemove<R>(rows: seq<R>, key: R -> string, i: nat)
    requires Unique(rows, key) && i < |rows|
    ensures Unique(rows[..i] + rows[i + 1..], key)
  {
    var rest := rows[..i] + rows[i + 1..];
    forall a, b | 0 <= a < b < |rest|
      ensures key(rest[a]) != key(rest[b])
    {
      var a' := if a < i then a else a + 1;
      var b' := if b < i then b else b + 1;
      assert rest[a] == rows[a'] && rest[b] == rows[b'];
    }
  }

  lemma IndexExtend<R>(rows: seq<R>, key: R -> string, r: R)
    ensures Index(rows + [r], key) == Index(rows, key)[key(r) := r]
  {
    assert (rows + [r])[..|rows|] == rows;
  }

  lemma RemoveFromFront<R>(front: seq<R>, last: R, i: nat)
    requires i < |front|
    ensures (front + [last])[..i] + (front + [last])[i + 1..] == (front[..i] + front[i + 1..]) + [last]
  {
  }

  lemma UniqueFront<R>(front: seq<R>, last: R, key: R -> string)
    requires Unique(front + [last], key)
    ensures Unique(front, key) && forall i :: 0 <= i < |front| ==> key(front[i]) != key(last)
  {
    forall i, j | 0 <= i < j < |front| ensures key(front[i]) != key(front[j]) {
      assert (front + [last])[i] == front[i] && (front + [last])[j] == front[j];
    }
    forall i | 0 <= i < |front| ensures key(front[i]) != key(last) {
      assert (front + [last])[i] == front[i] && (front + [last])[|front|] == last;
    }
  }

  lemma {:induction false} IndexRemove<R>(rows: seq<R>, key: R -> string, i: nat)
    requires Unique(rows, key) && i < |rows|
    ensures Index(rows[..i] + rows[i + 1..], key) == Index(rows, key) - {key(rows[i])}
  {
    hide Unique, Index;
    var front, last := rows[..|rows| - 1], rows[|rows| - 1];
    assert rows == front + [last];
    UniqueFront(front, last, key);
    IndexExtend(front, key, last);
    if i < |front| {
      IndexRemove(front, key, i);
      RemoveFromFront(front, last, i);
      IndexExtend(front[..i] + front[i + 1..], key, last);
    } else {
      assert rows[..i] + rows[i + 1..] == front;
      IndexHolds(front, key);
    }
  }

  /** The scan every store method starts with. */
  method Find<R>(rows: seq<R>, key: R -> string, id: string) returns (i: nat)
    requires Unique(rows, key)
    ensures i <= |rows|
    ensures i < |rows| ==> key(rows[i]) == id && id in Index(rows, key) && Index(rows, key)[id] == rows[i]
    ensures i == |rows| <==> id !in Index(rows, key)
  {
    IndexHolds(rows, key);
    i := 0;
    while i < |rows|
      invariant 0 <= i <= |rows|
      invariant forall j :: 0 <= j < i ==> key(rows[j]) != id
    {
      if key(rows[i]) == id {
        return;
      }
      i := i + 1;
    }
  }
}

/** The JSON file store: five keyed lists and the operation journal. Each call
    is atomic, with the rename of the temporary file as its commit point. */
module Store {
  import opened Wrappers
  import opened Model
  import opened KeyedRows

  const MachineKey: MachineRecord -> string := (r: MachineRecord) => r.id
  const VolumeKey: VolumeRecord -> string := (r: VolumeRecord) => r.id
  const SnapshotKey: SnapshotRecord -> string := (r: SnapshotRecord) => r.id
  const PortKey: PublishedPortRecord -> string := (r: PublishedPortRecord) => r.id
  const OperationKey: OperationRecord -> string := (r: OperationRecord) => r.machineID

  class FileStore {
    var machines: seq<MachineRecord>
    var volumes: seq<VolumeRecord>
    var snapshots: seq<SnapshotRecord>
    var publishedPorts: seq<PublishedPortRecord>
    var operations: seq<OperationRecord>

    ghost predicate Valid()
      reads this
    {
      && Unique(machines, MachineKey)
      && Unique(volumes, VolumeKey)
      && Unique(snapshots, SnapshotKey)
      && Unique(publishedPorts, PortKey)
      && Unique(operations, OperationKey)
    }

    ghost function Machines(): map<MachineID, MachineRecord>
      reads this`machines
    {
      Index(machines, MachineKey)
    }

    ghost function Volumes(): map<VolumeID, VolumeRecord>
      reads this`volumes
    {
      Index(volumes, VolumeKey)
    }

    ghost function Snapshots(): map<SnapshotID, SnapshotRecord>
      reads this`snapshots
    {
      Index(snapshots, SnapshotKey)
    }

    ghost function Ports(): map<PortID, PublishedPortRecord>
      reads this`publishedPorts
    {
      Index(publishedPorts, PortKey)
    }

    ghost function Journal(): map<MachineID, OperationRecord>
      reads this`operations
    {
      Index(operations, OperationKey)
    }

    constructor ()
      ensures Valid()
      ensures Machines() == map[] && Volumes() == map[] && Snapshots() == map[]
      ensures Ports() == map[] && Journal() == map[]
    {
      machines, volumes, snapshots, publishedPorts, operations := [], [], [], [], [];
    }

    method CreateMachine(record: MachineRecord) returns (status: Status)
      requires Valid()
      modifies this`machines
      ensures Valid()
      ensures status == if record.id in old(Machines()) then Conflict else Done
      ensures Machines() == if status.Done? then old(Machines())[record.id := record] else old(Machines())
    {
      var i := Find(machines, MachineKey, record.id);
      if i < |machines| {
        return Conflict;
      }
      IndexAppend(machines, MachineKey, record);
      machines := machines + [record];
      status := Done;
    }

    method GetMachine(id: MachineID) returns (found: Option<MachineRecord>)
      requires Valid()
      ensures found == if id in Machines() then Some(Machines()[id]) else None
      ensures found.Some? ==> found.value.id == id
    {
      var i := Find(machines, MachineKey, id);
      found := if i < |machines| then Some(machines[i]) else None;
    }

    method ListMachines() returns (records: seq<MachineRecord>)
      requires Valid()
      ensures Unique(records, MachineKey) && Index(records, MachineKey) == Machines()
    {
      records := machines;
    }

    method UpdateMachine(record: MachineRecord) returns (status: Status)
      requires Valid()
      modifies this`machines
      ensures Valid()
      ensures status == if record.id in old(Machines()) then Done else NotFound
      ensures Machines() == if status.Done? then old(Machines())[record.id := record] else old(Machines())
    {
      var i := Find(machines, MachineKey, record.id);
      if i == |machines| {
        return NotFound;
      }
      IndexReplace(machines, MachineKey, i, record);
      machines := machines[i := record];
      status := Done;
    }

    method DeleteMachine(id: MachineID) returns (status: Status)
      requires Valid()
      modifies this`machines
      ensures Valid()
      ensures status == if id in old(Machines()) then Done else NotFound
      ensures Machines() == old(Machines()) - {id}
    {
      var i := Find(machines, MachineKey, id);
      if i == |machines| {
        return NotFound;
      }
      IndexRemove(machines, MachineKey, i);
      UniqueRemove(machines, MachineKey, i);
      machines := machines[..i] + machines[i + 1..];
      status := Done;
    }

    method CreateVolume(record: VolumeRecord) returns (status: Status)
      requires Valid()
      modifies this`volumes
      ensures Valid()
      ensures status == if record.id in old(Volumes()) then Conflict else Done
      ensures Volumes() == if status.Done? then old(Volumes())[record.id := record] else old(Volumes())
    {
      var i := Find(volumes, VolumeKey, record.id);
      if i < |volumes| {
        return Conflict;
      }
      IndexAppend(volumes, VolumeKey, record);
      volumes := volumes + [record];
      status := Done;
    }

    method GetVolume(id: VolumeID) returns (found: Option<VolumeRecord>)
      requires Valid()
      ensures found == if id in Volumes() then Some(Volumes()[id]) else None
      ensures found.Some? ==> found.value.id == id
    {
      var i := Find(volumes, VolumeKey, id);
      found := if i < |volumes| then Some(volumes[i]) else None;
    }

    method ListVolumes() returns (records: seq<VolumeRecord>)
      requires Valid()
      ensures Unique(records, VolumeKey) && Index(records, VolumeKey) == Volumes()
    {
      records := volumes;
    }

    method UpdateVolume(record: VolumeRecord) returns (status: Status)
      requires Valid()
      modifies this`volumes
      ensures Valid()
      ensures status == if record.id in old(Volumes()) then Done else NotFound
      ensures Volumes() == if status.Done? then old(Volumes())[record.id := record] else old(Volumes())
    {
      var i := Find(volumes, VolumeKey, record.id);
      if i == |volumes| {
        return NotFound;
      }
      IndexReplace(volumes, VolumeKey, i, record);
      volumes := volumes[i := record];
      status := Done;
    }

    method DeleteVolume(id: VolumeID) returns (status: Status)
      requires Valid()
      modifies this`volumes
      ensures Valid()
      ensures status == if id in old(Volumes()) then Done else NotFound
      ensures Volumes() == old(Volumes()) - {id}
    {
      var i := Find(volumes, VolumeKey, id);
      if i == |volumes| {
        return NotFound;
      }
      IndexRemove(volumes, VolumeKey, i);
      UniqueRemove(volumes, VolumeKey, i);
      volumes := volumes[..i] + volumes[i + 1..];
      status := Done;
    }

    method UpsertOperation(record: OperationRecord)
      requires Valid()
      modifies this`operations
      ensures Valid()
      ensures Journal() == old(Journal())[record.machineID := record]
    {
      var i := Find(operations, OperationKey, record.machineID);
      if i < |operations| {
        IndexReplace(operations, OperationKey, i, record);
        operations := operations[i := record];
      } else {
        IndexAppend(operations, OperationKey, record);
        operations := operations + [record];
      }
    }

    method ListOperations() returns (records: seq<OperationRecord>)
      requires Valid()
      ensures Unique(records, OperationKey) && Index(records, OperationKey) == Journal()
    {
      records := operations;
    }

    /** Deleting an absent entry succeeds, unlike in the other tables. */
    method DeleteOperation(machineID: MachineID)
      requires Valid()
      modifies this`operations
      ensures Valid()
      ensures Journal() == old(Journal()) - {machineID}
    {
      var i := Find(operations, OperationKey, machineID);
      if i < |operations| {
        IndexRemove(operations, OperationKey, i);
        UniqueRemove(operations, OperationKey, i);
        operations := operations[..i] + operations[i + 1..];
      }
    }

    method CreateSnapshot(record: SnapshotRecord) returns (status: Status)
      requires Valid()
      modifies this`snapshots
      ensures Valid()
      ensures status == if record.id in old(Snapshots()) then Conflict else Done
      ensures Snapshots() == if status.Done? then old(Snapshots())[record.id := record] else old(Snapshots())
    {
      var i := Find(snapshots, SnapshotKey, record.id);
      if i < |snapshots| {
        return Conflict;
      }
      IndexAppend(snapshots, SnapshotKey, record);
      snapshots := snapshots + [record];
      status := Done;
    }

    method GetSnapshot(id: SnapshotID) returns (found: Option<SnapshotRecord>)
      requires Valid()
      ensures found == if id in Snapshots() then Some(Snapshots()[id]) else None
      ensures found.Some? ==> found.value.id == id
    {
      var i := Find(snapshots, SnapshotKey, id);
      found := if i < |snapshots| then Some(snapshots[i]) else None;
    }

    method DeleteSnapshot(id: SnapshotID) returns (status: Status)
      requires Valid()
      modifies this`snapshots
      ensures Valid()
      ensures status == if id in old(Snapshots()) then Done else NotFound
      ensures Snapshots() == old(Snapshots()) - {id}
    {
      var i := Find(snapshots, SnapshotKey, id);
      if i == |snapshots| {
        return NotFound;
      }
      IndexRemove(snapshots, SnapshotKey, i);
      UniqueRemove(snapshots, SnapshotKey, i);
      snapshots := snapshots[..i] + snapshots[i + 1..];
      status := Done;
    }

    /** Refuses a duplicate id and a host port that any stored record holds. */
    method CreatePublishedPort(record: PublishedPortRecord) returns (status: Status)
      requires Valid()
      modifies this`publishedPorts
      ensures Valid()
      ensures status.Done? <==>
              record.id !in old(Ports()) && forall p :: p in old(Ports()) ==> old(Ports())[p].hostPort != record.hostPort
      ensures status.Done? || status.Conflict?
      ensures Ports() == if status.Done? then old(Ports())[record.id := record] else old(Ports())
    {
      IndexHolds(publishedPorts, PortKey);
      var i := 0;
      while i < |publishedPorts|
        invariant 0 <= i <= |publishedPorts|
        invariant forall j :: 0 <= j < i ==>
                    publishedPorts[j].id != record.id && publishedPorts[j].hostPort != record.hostPort
      {
        assert PortKey(publishedPorts[i]) in Ports();
        if publishedPorts[i].id == record.id || publishedPorts[i].hostPort == record.hostPort {
          return Conflict;
        }
        i := i + 1;
      }
      IndexAppend(publishedPorts, PortKey, record);
      publishedPorts := publishedPorts + [record];
      status := Done;
    }

    method GetPublishedPort(id: PortID) returns (found: Option<PublishedPortRecord>)
      requires Valid()
      ensures found == if id in Ports() then Some(Ports()[id]) else None
      ensures found.Some? ==> found.value.id == id
    {
      var i := Find(publishedPorts, PortKey, id);
      found := if i < |publishedPorts| then Some(publishedPorts[i]) else None;
    }

    /** The records of one machine, or all of them when no machine is named. */
    method ListPublishedPorts(machineID: Option<MachineID>) returns (records: seq<PublishedPortRecord>)
      requires Valid()
      ensures forall r :: r in records <==>
                r.id in Ports() && Ports()[r.id] == r && (machineID.None? || r.machineID == machineID.value)
    {
      IndexHolds(publishedPorts, PortKey);
      records := [];
      var i := 0;
      while i < |publishedPorts|
        invariant 0 <= i <= |publishedPorts|
        invariant forall r :: r in records <==>
                    r in publishedPorts[..i] && (machineID.None? || r.machineID == machineID.value)
      {
        if machineID.None? || publishedPorts[i].machineID == machineID.value {
          records := records + [publishedPorts[i]];
        }
        i := i + 1;
      }
      assert publishedPorts[..i] == publishedPorts;
      forall r: PublishedPortRecord | r.id in Ports() && Ports()[r.id] == r
        ensures r in publishedPorts
      {
        var j :| 0 <= j < |publishedPorts| && PortKey(publishedPorts[j]) == r.id;
      }
      forall r | r in publishedPorts
        ensures r.id in Ports() && Ports()[r.id] == r
      {
        var j :| 0 <= j < |publishedPorts| && publishedPorts[j] == r;
        assert PortKey(publishedPorts[j]) in Ports();
      }
    }

    method DeletePublishedPort(id: PortID) returns (status: Status)
      requires Valid()
      modifies this`publishedPorts
      ensures Valid()
      ensures status == if id in old(Ports()) then Done else NotFound
      ensures Ports() == old(Ports()) - {id}
    {
      var i := Find(publishedPorts, PortKey, id);
      if i == |publishedPorts| {
        return NotFound;
      }
      IndexRemove(publishedPorts, PortKey, i);
      UniqueRemove(publishedPorts, PortKey, i);
      publishedPorts := publishedPorts[..i] + publishedPorts[i + 1..];
      status := Done;
    }
  }
}
