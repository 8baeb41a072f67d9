/** One reconcile pass: the journal is replayed, then every machine is brought
    in line with its record. */
module Reconciliation {
  import opened Wrappers
  import opened Text
  import opened Model
  import opened KeyedRows
  import opened Store
  import opened Network
  import opened Worlds
  import opened Daemons
  import opened Relays
  import opened PublishedPorts
  import opened Frames
  import opened Startup
  import opened Lifecycle
  import opened Resize
  import opened Deletion
  import opened CreationTrace
  import opened Creation
  import opened Snapshots
  import opened Restore

  // ------------------------------------------------------ the journal part

  /** reconcileStart. */
  method ReconcileStart(d: Daemon, id: MachineID) returns (status: Status)
    requires d.Inv()
    modifies d, d.store
    ensures d.Inv() && HandlesOnly(old(d.W()), d.W(), id)
    ensures status.Done? ==> id !in d.W().journal && (id in d.W().machines ==> !d.W().machines[id].phase.Starting?)
  {
    hide FileStore.Valid, Good, Daemon.W, TouchesOnly, TouchesJournalled, AfterClear, HandlesOnly;
    ghost var w := d.W();
    ApartNothing(w, id);
    var found;
    status, found := d.GetMachine(id);
    if status.Done? {
      if IsLive(found.value.phase) {
        var settled;
        status, settled := ReconcileMachine(d, id);
      } else {
        status := StartMachine(d, id);
      }
      JournalOfTouches(w, d.W(), id);
    } else if status.NotFound? {
      status := Done;
    }
    if status.Done? {
      ApartThenClear(w, d.W(), id);
      status := d.DeleteOperation(id);
    }
  }

  /** reconcileStop. */
  method ReconcileStop(d: Daemon, id: MachineID) returns (status: Status)
    requires d.Inv()
    modifies d, d.store
    ensures d.Inv() && HandlesOnly(old(d.W()), d.W(), id)
    ensures status.Done? ==> id !in d.W().journal && (id in d.W().machines ==> d.W().machines[id].phase.Stopped?)
  {
    hide FileStore.Valid, Good, Daemon.W, TouchesOnly, AfterClear, HandlesOnly, Silent;
    ghost var w := d.W();
    ApartNothing(w, id);
    var found;
    status, found := d.GetMachine(id);
    if status.Done? {
      status := StopMachineRecord(d, found.value);
      JournalOfTouches(w, d.W(), id);
    } else if status.NotFound? {
      status := Done;
    }
    if status.Done? {
      ApartThenClear(w, d.W(), id);
      status := d.DeleteOperation(id);
    }
  }

  /** The ghost record a handler's contract speaks of, for any machine id. */
  ghost function CurrentRecord(w: World, id: MachineID): (r: MachineRecord)
  {
    if id in w.machines then w.machines[id] else NoMachine().(id := id)
  }

  lemma CurrentHasID(w: World, id: MachineID)
    requires Good(w)
    ensures CurrentRecord(w, id).id == id
    ensures id in w.machines ==> w.machines[id] == CurrentRecord(w, id)
  {
  }

  /** The operation, journalled in `w` for the record `r`, may have got as far as `v`. */
  ghost predicate Interrupted(w: World, v: World, r: MachineRecord, op: OperationRecord) {
    match op.kind
    case CreateOp => op.machineID !in v.machines ==> Creating(w, v, op.machineID)
    case StartOp => true
    case StopOp => true
    case ResizeOp => op.machineID in v.machines ==> ResizeTrace(w, v, r, op.memoryMiB, op.storageBytes)
    case DeleteOp => true
    case SnapshotOp => op.snapshotID.Some? ==> SnapshotInterrupted(w, v, r, op.snapshotID.value)
    case RestoreOp => op.machineID !in v.machines ==> Restoring(w, v, op.machineID)
  }

  lemma NothingInterrupted(w: World, r: MachineRecord, op: OperationRecord)
    requires op.machineID == r.id && (r.id in w.machines ==> w.machines[r.id] == r)
    ensures Interrupted(w, w, r, op)
  {
    hide ResizeFinal, SnapshotComplete, SystemVolumeID;
    if op.snapshotID.Some? {
      StartCopying(w, r, op.snapshotID.value);
    }
    if r.id !in w.machines {
      CreatingNothing(w, r.id);
    }
  }

  /** What replaying an entry in `v` leaves. `removed` and `resumed` tell whether
      the two steps of a snapshot's recovery whose errors are ignored worked. */
  ghost predicate HandledAs(w: World, v: World, u: World, r: MachineRecord, op: OperationRecord, removed: bool,
                            resumed: bool) {
    var id := op.machineID;
    && id !in u.journal
    && match op.kind
       case CreateOp => CreateRecovered(w, v, u, id)
       case StartOp => id in u.machines ==> !u.machines[id].phase.Starting?
       case StopOp => id in u.machines ==> u.machines[id].phase.Stopped?
       case ResizeOp => op.memoryMiB > 0 && op.storageBytes > 0 && id in v.machines ==> ResizeEnded(w, u, r, op)
       case DeleteOp => Deleting(v, u, id) && Cleared(u, id)
       case SnapshotOp => op.snapshotID.Some? && op.snapshotID.value !in w.snapshots ==>
         SnapshotRecovered(w, u, r, op.snapshotID.value, removed, resumed)
       case RestoreOp => RestoreRecovered(w, v, u, id) && (Leftover(u, id) <==> Leftover(v, id))
  }

  /** As an uninterrupted resize would have left it, and the entry is gone. */
  ghost predicate ResizeEnded(w: World, u: World, r: MachineRecord, op: OperationRecord) {
    exists t :: ResizeFinal(w, t, r, op.memoryMiB, op.storageBytes)
                && ResizeTrace(w, t, r, op.memoryMiB, op.storageBytes) && u == AfterClear(t, op.machineID)
  }

  /** The handler of one journal entry. */
  method ReconcileOperation(d: Daemon, ghost w: World, ghost r: MachineRecord, op: OperationRecord)
    returns (status: Status, ghost removed: bool, ghost resumed: bool)
    requires d.Inv() && op.machineID in d.W().journal && d.W().journal[op.machineID] == op
    requires op.machineID == r.id && Interrupted(w, d.W(), r, op)
    modifies d, d.store
    ensures d.Inv() && HandlesOnly(old(d.W()), d.W(), op.machineID)
    ensures status.Done? ==> op.machineID !in d.W().journal
    ensures status.Done? ==> HandledAs(w, old(d.W()), d.W(), r, op, removed, resumed)
    ensures ResizeRejected(old(d.W()), op) ==> !status.Done? && d.W() == old(d.W())
    ensures op.kind.DeleteOp? ==>
              && Deleting(old(d.W()), d.W(), op.machineID)
              && (DeleteBlocked(old(d.W()), op.machineID) ==> !status.Done? && DeleteBlocked(d.W(), op.machineID))
    ensures op.kind.ResizeOp? ==>
              && ResizesOnly(old(d.W()), d.W(), op.machineID)
              && (old(d.faulted) ==> d.faulted)
              && (!d.faulted ==> (status.Done? <==> !ResizeStuck(old(d.W()), op)))
  {
    hide FileStore.Valid, Good, Daemon.W, ResizeTrace, ResizeFinal, Creating, Restoring, SnapshotInterrupted, HandlesOnly,
      ResizesOnly, IsResizable, DiskAllows, Deleting, CreateUndone, Cleared, AfterClear, RestoreRecovered,
      CreateRecovered, SnapshotRecovered, Leftover;
    ghost var v := d.W();
    removed, resumed := true, true;
    match op.kind {
      case CreateOp => status := ReconcileCreate(d, w, op.machineID);
      case StartOp => status := ReconcileStart(d, op.machineID);
      case StopOp => status := ReconcileStop(d, op.machineID);
      case ResizeOp => status := ReconcileResize(d, w, r, op);
      case DeleteOp =>
        status := ReconcileDelete(d, op.machineID);
        JournalOfDeleting(v, d.W(), op.machineID);
      case SnapshotOp => status, removed, resumed := ReconcileSnapshot(d, w, r, op);
      case RestoreOp => status := ReconcileRestore(d, w, op.machineID);
    }
  }

  /** The entries from `i` on are in the journal as they were listed. */
  ghost predicate StillListed(journal: map<MachineID, OperationRecord>, rows: seq<OperationRecord>, i: nat) {
    forall k :: i <= k < |rows| ==> rows[k].machineID in journal && journal[rows[k].machineID] == rows[k]
  }

  lemma ListedOperations(journal: map<MachineID, OperationRecord>, rows: seq<OperationRecord>)
    requires Unique(rows, OperationKey) && Index(rows, OperationKey) == journal
    ensures StillListed(journal, rows, 0)
  {
    IndexHolds(rows, OperationKey);
    forall k | 0 <= k < |rows|
      ensures rows[k].machineID in journal && journal[rows[k].machineID] == rows[k]
    {
      assert OperationKey(rows[k]) in journal;
    }
  }

  lemma NextOperation(w: World, v: World, rows: seq<OperationRecord>, i: nat)
    requires Unique(rows, OperationKey) && i < |rows| && StillListed(w.journal, rows, i)
    requires HandlesOnly(w, v, rows[i].machineID)
    ensures StillListed(v.journal, rows, i + 1)
  {
    forall k | i + 1 <= k < |rows|
      ensures rows[k].machineID in v.journal && v.journal[rows[k].machineID] == rows[k]
    {
      assert OperationKey(rows[k]) != OperationKey(rows[i]);
      assert rows[k].machineID in w.journal - {rows[i].machineID};
      assert (w.journal - {rows[i].machineID})[rows[k].machineID] == (v.journal - {rows[i].machineID})[rows[k].machineID];
    }
  }

  lemma ListedAt(journal: map<MachineID, OperationRecord>, rows: seq<OperationRecord>, i: nat)
    requires StillListed(journal, rows, i) && i < |rows|
    ensures rows[i].machineID in journal && journal[rows[i].machineID] == rows[i]
  {
  }

  /** Every entry of the journal is listed from `i` on. */
  ghost predicate OnlyListed(journal: map<MachineID, OperationRecord>, rows: seq<OperationRecord>, i: nat) {
    forall id :: id in journal ==> exists k :: i <= k < |rows| && rows[k].machineID == id
  }

  lemma AllListed(journal: map<MachineID, OperationRecord>, rows: seq<OperationRecord>)
    requires Unique(rows, OperationKey) && Index(rows, OperationKey) == journal
    ensures OnlyListed(journal, rows, 0)
  {
    IndexHolds(rows, OperationKey);
    forall id | id in journal
      ensures exists k :: 0 <= k < |rows| && rows[k].machineID == id
    {
      var k :| 0 <= k < |rows| && OperationKey(rows[k]) == id;
      assert rows[k].machineID == id;
    }
  }

  lemma OneLess(w: World, v: World, rows: seq<OperationRecord>, i: nat)
    requires i < |rows| && OnlyListed(w.journal, rows, i) && HandlesOnly(w, v, rows[i].machineID)
    requires rows[i].machineID !in v.journal
    ensures OnlyListed(v.journal, rows, i + 1)
  {
    forall id | id in v.journal
      ensures exists k :: i + 1 <= k < |rows| && rows[k].machineID == id
    {
      assert id in v.journal - {rows[i].machineID};
      var k :| i <= k < |rows| && rows[k].machineID == id;
    }
  }

  lemma NoneLeft(journal: map<MachineID, OperationRecord>, rows: seq<OperationRecord>)
    requires OnlyListed(journal, rows, |rows|)
    ensures journal == map[]
  {
  }

  /** The machine's pending entry is a resize that its record refuses. */
  ghost predicate Rejected(w: World, id: MachineID) {
    id in w.journal && w.journal[id].machineID == id && ResizeRejected(w, w.journal[id])
  }

  /** Rejected entries stay, and stay rejected. */
  ghost predicate RejectedStay(w: World, v: World) {
    forall id :: Rejected(w, id) ==> Rejected(v, id)
  }

  lemma RejectedOutlast(w: World, v: World, u: World, op: OperationRecord)
    requires RejectedStay(w, v) && HandlesOnly(v, u, op.machineID)
    requires op.machineID in v.journal && v.journal[op.machineID] == op && (ResizeRejected(v, op) ==> u == v)
    ensures RejectedStay(w, u)
  {
    forall id | Rejected(w, id)
      ensures Rejected(u, id)
    {
      assert Rejected(v, id);
      if id != op.machineID {
        assert id in v.journal - {op.machineID};
        assert (v.journal - {op.machineID})[id] == (u.journal - {op.machineID})[id];
      }
    }
  }

  ghost predicate OnlyResizes(journal: map<MachineID, OperationRecord>) {
    forall id :: id in journal ==> journal[id].kind.ResizeOp?
  }

  ghost predicate NothingStuck(w: World) {
    forall id :: id in w.journal ==> !ResizeStuck(w, w.journal[id])
  }

  /** What the first `i` resizes have found, of those stuck from the start. */
  ghost predicate ResizedUpTo(status: Status, w: World, v: World, rows: seq<OperationRecord>, i: nat) {
    && (forall k :: i <= k < |rows| ==> (ResizeStuck(v, rows[k]) <==> ResizeStuck(w, rows[k])))
    && (status.Done? <==> forall k :: 0 <= k < i && k < |rows| ==> !ResizeStuck(w, rows[k]))
  }

  lemma NextResized(status: Status, w: World, v: World, u: World, rows: seq<OperationRecord>, i: nat)
    requires Unique(rows, OperationKey) && i < |rows| && ResizedUpTo(Done, w, v, rows, i)
    requires HandlesOnly(v, u, rows[i].machineID) && ResizesOnly(v, u, rows[i].machineID)
    requires status.Done? <==> !ResizeStuck(v, rows[i])
    ensures ResizedUpTo(status, w, u, rows, i + 1)
  {
    hide ResizeStuck, HandlesOnly, ResizesOnly;
    forall k | i + 1 <= k < |rows|
      ensures ResizeStuck(u, rows[k]) <==> ResizeStuck(w, rows[k])
    {
      assert OperationKey(rows[k]) != OperationKey(rows[i]);
      OthersStuckStill(v, u, rows[i].machineID, rows[k]);
    }
  }

  lemma ResizedNone(w: World, rows: seq<OperationRecord>)
    ensures ResizedUpTo(Done, w, w, rows, 0)
  {
  }

  /** Finished, or stopped at the first error. */
  lemma ResizedAll(status: Status, w: World, v: World, rows: seq<OperationRecord>, i: nat)
    requires ResizedUpTo(status, w, v, rows, i) && i <= |rows| && (status.Done? ==> i == |rows|)
    requires StillListed(w.journal, rows, 0) && OnlyListed(w.journal, rows, 0)
    ensures status.Done? <==> NothingStuck(w)
  {
    hide ResizeStuck;
    if status.Done? {
      forall id | id in w.journal
        ensures !ResizeStuck(w, w.journal[id])
      {
        var k :| 0 <= k < |rows| && rows[k].machineID == id;
      }
    } else {
      var k :| 0 <= k < i && k < |rows| && ResizeStuck(w, rows[k]);
      assert rows[k].machineID in w.journal;
    }
  }

  lemma ResizesListed(w: World, rows: seq<OperationRecord>, i: nat)
    requires OnlyResizes(w.journal) && StillListed(w.journal, rows, 0) && i < |rows|
    ensures rows[i].kind.ResizeOp?
  {
  }

  lemma RejectedBlock(w: World, v: World)
    requires RejectedStay(w, v) && v.journal == map[]
    ensures forall id :: !Rejected(w, id)
  {
  }

  /** The journal is replayed entry by entry; after success it is empty. A
      rejected resize blocks this pass and every later one, and where only
      resizes are pending, without a failing step, stuck ones are what blocks. */
  method ReplayJournal(d: Daemon) returns (status: Status)
    requires d.Inv()
    modifies d, d.store
    ensures d.Inv() && old(d.W()).log <= d.W().log
    ensures status.Done? ==> d.W().journal == map[]
    ensures RejectedStay(old(d.W()), d.W())
    ensures (exists id :: Rejected(old(d.W()), id)) ==> !status.Done?
    ensures !d.faulted && OnlyResizes(old(d.W()).journal) ==> (status.Done? <==> NothingStuck(old(d.W())))
  {
    hide FileStore.Valid, Good, Daemon.W, HandlesOnly, StillListed, Index, Unique, OnlyListed, RejectedStay, ResizeRejected,
      OnlyResizes, NothingStuck, ResizedUpTo, ResizesOnly, Rejected, ResizeStuck, Interrupted, CurrentRecord, HandledAs,
      Deleting, DeleteBlocked;
    ghost var w := d.W();
    AllStay(w);
    var rows;
    status, rows := d.ListOperations();
    if status.Done? {
      ListedOperations(w.journal, rows);
      AllListed(w.journal, rows);
      ResizedNone(w, rows);
      var i := 0;
      while i < |rows| && status.Done?
        invariant 0 <= i <= |rows| && d.Inv() && w.log <= d.W().log
        invariant StillListed(d.W().journal, rows, i)
        invariant status.Done? ==> OnlyListed(d.W().journal, rows, i)
        invariant RejectedStay(w, d.W())
        invariant !d.faulted && OnlyResizes(w.journal) ==> ResizedUpTo(status, w, d.W(), rows, i)
      {
        ghost var v := d.W();
        ListedAt(v.journal, rows, i);
        if OnlyResizes(w.journal) {
          ResizesListed(w, rows, i);
        }
        ghost var r := CurrentRecord(v, rows[i].machineID);
        CurrentHasID(v, rows[i].machineID);
        NothingInterrupted(v, r, rows[i]);
        ghost var removed, resumed;
        status, removed, resumed := ReconcileOperation(d, v, r, rows[i]);
        NextOperation(v, d.W(), rows, i);
        ApartLogs(v, d.W(), rows[i].machineID);
        RejectedOutlast(w, v, d.W(), rows[i]);
        if !d.faulted && OnlyResizes(w.journal) {
          NextResized(status, w, v, d.W(), rows, i);
        }
        if status.Done? {
          OneLess(v, d.W(), rows, i);
        }
        i := i + 1;
      }
      if !d.faulted && OnlyResizes(w.journal) {
        ResizedAll(status, w, d.W(), rows, i);
      }
      if status.Done? {
        NoneLeft(d.W().journal, rows);
        RejectedBlock(w, d.W());
      }
    }
  }

  lemma AllStay(w: World)
    ensures RejectedStay(w, w)
  {
  }

  lemma ApartLogs(w: World, v: World, id: MachineID)
    requires HandlesOnly(w, v, id)
    ensures w.log <= v.log
  {
  }

  // ----------------------------------------------------- the machines part

  /** A running machine with all its listeners, or one at rest. */
  ghost predicate InLine(w: World, id: MachineID) {
    id in w.machines && !w.machines[id].phase.Starting? && (w.machines[id].phase.Running? ==> Converged(w, id))
  }

  lemma OthersStayInLine(w: World, v: World, id: MachineID, o: MachineID)
    requires InLine(w, o) && TouchesOnly(w, v, id) && o != id
    ensures InLine(v, o)
  {
  }

  /** reconcileMachine, and then the listeners of what it found. */
  method BringInLine(d: Daemon, id: MachineID) returns (status: Status)
    requires d.Inv()
    modifies d, d.store
    ensures d.Inv() && TouchesOnly(old(d.W()), d.W(), id)
    ensures status.Done? ==> InLine(d.W(), id)
  {
    hide FileStore.Valid, Good, Daemon.W, TouchesOnly, InLine;
    ghost var w := d.W();
    var record;
    status, record := ReconcileMachine(d, id);
    if status.Done? {
      ghost var v := d.W();
      RecordIsStored(v, id);
      if record.phase.Running? {
        status := OpenAll(d, record);
      } else {
        CloseListeners(d, id);
        RestingInLine(d.W(), record);
      }
      TouchesThen(w, v, d.W(), id);
    }
  }

  lemma RecordIsStored(w: World, id: MachineID)
    requires Good(w)
    ensures id in w.machines ==> w.machines[id].id == id
  {
  }

  lemma RestingInLine(w: World, r: MachineRecord)
    requires r.id in w.machines && w.machines[r.id] == r && !IsLive(r.phase)
    ensures InLine(w, r.id)
  {
  }

  method OpenAll(d: Daemon, r: MachineRecord) returns (status: Status)
    requires d.Inv() && r.id in d.W().machines && d.W().machines[r.id] == r && r.phase.Running?
    modifies d, d.store
    ensures d.Inv() && TouchesOnly(old(d.W()), d.W(), r.id)
    ensures status.Done? ==> InLine(d.W(), r.id)
  {
    hide FileStore.Valid, Good, Daemon.W, TouchesOnly, RelaysOutcome, AfterUpdate, WithRelays, WithPublished, Fewer,
      TrimSpace, Converged;
    ghost var w := d.W();
    var updated;
    status, updated := EnsureMachineRelays(d, r);
    EnsuringTouches(w, d.W(), r, status, updated);
    if status.Done? {
      ghost var v := d.W();
      LiveHostIsNotBlank(v, updated);
      status := EnsurePublishedPortsFor(d, updated);
      PublishingTouches(w, v, d.W(), r.id);
      if status.Done? {
        AllListening(d.W(), r.id);
        var mounted := d.Tick();
        status := if mounted then Done else Fault;
      }
    }
  }

  /** The rows before `i` are in line. */
  ghost predicate InLineUpTo(w: World, rows: seq<MachineRecord>, i: nat) {
    forall k :: 0 <= k < i && k < |rows| ==> InLine(w, rows[k].id)
  }

  lemma NextInLine(w: World, v: World, rows: seq<MachineRecord>, i: nat)
    requires Unique(rows, MachineKey) && i < |rows| && InLineUpTo(w, rows, i)
    requires TouchesOnly(w, v, rows[i].id) && InLine(v, rows[i].id)
    ensures InLineUpTo(v, rows, i + 1)
  {
    hide InLine, TouchesOnly;
    forall k | 0 <= k < i
      ensures InLine(v, rows[k].id)
    {
      assert MachineKey(rows[k]) != MachineKey(rows[i]);
      OthersStayInLine(w, v, rows[i].id, rows[k].id);
    }
  }

  ghost predicate SameKeys(w: World, rows: seq<MachineRecord>) {
    forall id :: id in w.machines ==> exists k :: 0 <= k < |rows| && rows[k].id == id
  }

  lemma KeysKept(w: World, v: World, rows: seq<MachineRecord>, i: nat)
    requires SameKeys(w, rows) && i < |rows| && TouchesOnly(w, v, rows[i].id)
    ensures SameKeys(v, rows)
  {
  }

  /** Every machine is settled and every running one has all its listeners. */
  ghost predicate AllInLine(w: World) {
    forall id :: id in w.machines ==> InLine(w, id)
  }

  method AlignMachines(d: Daemon) returns (status: Status)
    requires d.Inv()
    modifies d, d.store
    ensures d.Inv() && old(d.W()).log <= d.W().log && d.W().journal == old(d.W()).journal
    ensures status.Done? ==> AllInLine(d.W())
  {
    hide FileStore.Valid, Good, Daemon.W, TouchesOnly, InLineUpTo, SameKeys, Index, Unique, AllInLine, InLine;
    ghost var log, journal := d.W().log, d.W().journal;
    var rows;
    status, rows := d.ListMachines();
    if status.Done? {
      ListedKeys(d.W(), rows);
      var i := 0;
      while i < |rows| && status.Done?
        invariant 0 <= i <= |rows| && d.Inv() && log <= d.W().log && d.W().journal == journal
        invariant SameKeys(d.W(), rows)
        invariant status.Done? ==> InLineUpTo(d.W(), rows, i)
      {
        ghost var v := d.W();
        status := BringInLine(d, rows[i].id);
        TouchedLogs(v, d.W(), rows[i].id);
        KeysKept(v, d.W(), rows, i);
        if status.Done? {
          NextInLine(v, d.W(), rows, i);
        }
        i := i + 1;
      }
      if status.Done? {
        EveryoneInLine(d.W(), rows);
      }
    }
  }

  lemma ListedKeys(w: World, rows: seq<MachineRecord>)
    requires Unique(rows, MachineKey) && Index(rows, MachineKey) == w.machines
    ensures SameKeys(w, rows) && InLineUpTo(w, rows, 0)
  {
    IndexHolds(rows, MachineKey);
    forall id | id in w.machines
      ensures exists k :: 0 <= k < |rows| && rows[k].id == id
    {
      var k :| 0 <= k < |rows| && MachineKey(rows[k]) == id;
      assert rows[k].id == id;
    }
  }

  lemma TouchedLogs(w: World, v: World, id: MachineID)
    requires TouchesOnly(w, v, id)
    ensures w.log <= v.log && v.journal == w.journal
  {
  }

  lemma EveryoneInLine(w: World, rows: seq<MachineRecord>)
    requires SameKeys(w, rows) && InLineUpTo(w, rows, |rows|)
    ensures AllInLine(w)
  {
    hide InLine;
  }

  /** Reconcile: a pass that returns no error leaves no pending operation and
      every machine in line. */
  method Reconcile(d: Daemon) returns (status: Status)
    requires d.Inv()
    modifies d, d.store
    ensures d.Inv() && old(d.W()).log <= d.W().log
    ensures status.Done? ==> AllInLine(d.W()) && d.W().journal == map[]
    ensures RejectedStay(old(d.W()), d.W())
    ensures (exists id :: Rejected(old(d.W()), id)) ==> !status.Done?
  {
    hide FileStore.Valid, Good, Daemon.W, AllInLine, RejectedStay, Rejected;
    ghost var w := d.W();
    status := ReplayJournal(d);
    if status.Done? {
      RejectedBlock(w, d.W());
      status := AlignMachines(d);
      NoneToStay(w, d.W());
    }
  }

  lemma NoneToStay(w: World, v: World)
    requires forall id :: !Rejected(w, id)
    ensures RejectedStay(w, v)
  {
  }

  /** What that means for the listeners, in both directions: those of running
      machines are there, and no other is. */
  lemma ListenersHaveConverged(w: World)
    requires Good(w) && AllInLine(w) && !w.missed
    ensures forall id, name :: (id, name) in w.relays ==>
              id in w.machines && w.machines[id].phase.Running?
              && w.relays[(id, name)] == HostPort(w.machines[id].ports, name) != 0
    ensures forall id :: id in w.machines && w.machines[id].phase.Running? ==>
              (id, SSH) in w.relays && (id, VNC) in w.relays
    ensures forall p :: p in w.published <==>
              p in w.ports && w.ports[p].machineID in w.machines && w.machines[w.ports[p].machineID].phase.Running?
    ensures forall p :: p in w.published ==> w.published[p] == w.ports[p].hostPort
  {
    hide Core, HostPort;
    forall id, name | (id, name) in w.relays
      ensures id in w.machines && w.machines[id].phase.Running?
      ensures w.relays[(id, name)] == HostPort(w.machines[id].ports, name) != 0
    {
      assert RelayStored(w, (id, name), w.relays[(id, name)]);
    }
    forall id | id in w.machines && w.machines[id].phase.Running?
      ensures (id, SSH) in w.relays && (id, VNC) in w.relays
    {
      assert InLine(w, id);
    }
    forall p
      ensures p in w.published ==> PortStored(w, p, w.published[p])
      ensures p in w.ports && w.ports[p].machineID in w.machines && w.machines[w.ports[p].machineID].phase.Running?
              ==> p in w.published
    {
      if p in w.ports && w.ports[p].machineID in w.machines {
        assert InLine(w, w.ports[p].machineID);
      }
    }
  }
}
