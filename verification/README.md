# Host daemon model

A Dafny model of the computer-host daemon and proofs about it. The daemon keeps
machine, volume, snapshot and published-port records in a JSON file store, an
operation journal beside it, disk images in per-machine and per-snapshot
directories, Firecracker processes on /30 tap networks, and TCP listeners that
relay to the guests. The project follows four parts of it:

1. the journalled machine lifecycle and its crash recovery: create, start, stop,
   resize, delete, snapshot, restore, exec relay, published ports and the
   reconcile pass;
2. the allocators: networks, relay ports, published host ports;
3. the offline workspace: path resolution, recursive listing, removal, move and
   `mkdir -p` over the ext4 tool's primitives;
4. exact transformations: sparse copy, snapshot drive numbering, range reads and
   writes, shell quoting.

`dafny verify dfyconfig.toml` checks everything.

## How to read it

**State.** `Store.FileStore` is the store: five lists with unique keys, proved to
act as finite maps. `Daemons.Daemon` holds the store, the disks, the VM table and
the listener maps as fields; its methods are the single steps the API calls are
made of. The ghost function `W()` reads the whole host as one value of type
`Worlds.World`, and contracts speak of `W()` before and after.

**Failures and crashes.** Every step may fail. A failed store call has written
nothing, since the rename is its commit point; a failed disk or VM call has the
partial effects its contract lists (a temporary file, a partly removed directory,
a process nobody recorded, a pause that took effect). A step may also set
`halted`, after which every later step of the same call fails: the state left
behind is that of a crash between any two steps. `Restart` drops the listeners
and goes on. Contracts say what holds if a call succeeds, what holds if it does
not, and what recovery makes of the remains. The ghost field `faulted` is set by
every step that fails on its own; where it is still false, deletes, stops of a
record, resizes, sweeps, the removal loop and the allocators have exact conditions
for their success. Operations run one at a time; `PublishedRace` alone interleaves
calls.

**The invariant.** `Worlds.Good` says: phases and fields agree; live machines
share no guest IP or tap, and each pair of those is one index of the base prefix;
running machines share no relay port and stay in the port ranges; stored host
ports are distinct and in range; every open listener is one its record announces;
system volumes lie at their own paths; disks cover their records; and the records
and the sizes of the disks are exactly what a legal history adds up to. Every
method of the daemon requires and keeps it (`Inv`). Three fields record what no
code stores: `log` is the history of record changes, disk growth and guest
answers, `abandoned` the machines whose disk is larger than their record while no
resize to that size is pending, and `missed` is set when a swallowed read error
made the daemon skip closing published-port listeners.

**Traces.** Each multi-step call has a predicate for everything an unfinished run
may have done (`Creating`, `Restoring`, `Snapshotting`, `ResizeTrace`, `Deleting`).
Every step of the call keeps it, so it holds at every crash point, and the handler
of the journal entry is proved from an arbitrary state of it. `Recovery` puts
call, crash, restart and the replay of the entry then pending together.

**Files.** `text` (strings), `model` (records), `network`, `file_store`, `world`
(the invariant and what each write does to it), `daemon` (the steps), `relays`,
`published_ports`, `frames` (what a call leaves alone), `startup`, `networking`,
`lifecycle`, `resize`, `deletion`, `creation_trace`, `creation`,
`snapshot_drives`, `snapshots`, `restore`, `reconcile`, `recovery`, `history`,
`runs`, `disk_sizes`, `witnesses`, `published_race`, `workspace_path`,
`workspace_tree`, `workspace_edits`, `workspace_witnesses`, `sparse_copy`,
`range_io`, `shell_quote`.

## Where the code falls short of what one would claim

Each of these has its exact condition proved, and a witness where one is named.

- A disk may stay larger than its record: a resize that grew the disk and then
  failed keeps its journal entry, and the next start, stop or, with an unreadable
  journal, snapshot overwrites it (`Lifecycle.StartMachine`,
  `StopMachine`, `DiskSizes.SnapshotForgetsTheResize`; `Witnesses.SomeResizeIsLost`).
  A later resize mends it (`DiskSizes.ResizeSettlesTheSizes`).
- A delete cut off between its last two writes can never be completed: every later
  attempt stops at the missing system volume record, and without a failing step
  that is the only reason to stop (`Deletion.DeleteMachine`, `ReconcileDelete`).
- Recovery of an interrupted restore leaves the volume records the restore had made
  (`Restore.ReconcileRestore`), and every retry under that id is then refused
  (`Restore.RestoreSnapshot`, `Witnesses.RestoreLeavesAVolume`).
- A startup error after the machine record is committed removes the machine's disk
  while the record stays live (`Creation.CreateMachine`,
  `Witnesses.LiveWithoutItsDisk`).
- A pending resize that its record refuses, for its size or its phase, makes every
  reconcile pass fail for all machines (`Reconciliation.ReplayJournal`).
- A published-port listing that fails while a machine stops leaves its listeners
  open (`PublishedPorts.StopPublishedPortsFor`, `Witnesses.MissedListenerStays`); all
  claims about them carry `missed`.
- A stored published port can be left without its listener when two creations name
  the same id (`PublishedRace.ServedUnlessLost`, `DistinctCreationsStayServed`,
  `RefusedCreationClosesTheOther`).
- Recursive removal and move resolve the displayed form of each entry, which is
  another path, or none, for names with surrounding white space or line breaks
  (`WorkspaceTrees.RereadsExactly`, `WorkspaceEdits.RemovePath`;
  `WorkspaceWitnesses.EmptiedWithAFileLeft`, `RemovedOutsideTheTarget`).
- A move checks only that the target is not inside the source; onto an existing
  target it merges, and onto a directory that contains the source it can lose files
  (`WorkspaceEdits.MovePath`, `WorkspaceWitnesses.MovedOntoItsParent`).
- A range read whose end exceeds the largest int64 slices out of bounds
  (`RangeIO.ReadRangeLaw`).

## Model

| member | source | states |
|---|---|---|
| `Runs.Serve` | internal/daemon/lifecycle.go:42-350 | Over any sequence of requests, failed steps, crashes, process restarts and VM deaths, one operation at a time, the host invariant `Good` holds after every operation, the history is only ever extended, and the disk of every machine that was there all along is as large as before or larger. |
| `Runs.ServeFresh` | internal/store/file_store.go:34-46 | The same for every run that begins on an empty host: every reachable state satisfies `Good`. |
| `Runs.ResourcesAreUnique` | internal/daemon/lifecycle.go:352-376 | In every state satisfying `Good`, two Starting or Running machines differ in guest IP and in tap name, and two Running machines share no relay host port of one name. |
| `Runs.RecordsAreCoherent` | internal/daemon/startup.go:28-84 | In every such state a machine at rest has no PID, socket, runtime host, tap, start time or nonce; a Running one has no pending nonce; and a live one carries the guest IP and tap of one and the same subnet index, which its record alone recovers. |
| `History.FailedRunsOnlyThroughStopped` | internal/daemon/lifecycle.go:64-66 | In any history a machine that was Failed and is Running later was Stopped, and after that Starting, in between. |
| `History.KeyAndStorageOnlyGrow` | internal/daemon/startup.go:51-61 | Over any stretch of a machine's life a non-empty guest host key never changes and the recorded storage never shrinks. |
| `History.RunningWasEchoed` | internal/daemon/startup.go:20-49 | Every record change into Running starts from Starting; the machine's last boot before it used a nonce that no other boot of any machine ever used, and between that boot and the change the guest answered with exactly that nonce. |
| `History.BootNoncesDiffer` | internal/daemon/startup.go:20-26 | No two boots, of one machine or of two, share a nonce. |
| `History.SizesOnlyGrow` | internal/daemon/lifecycle.go:628-635 | Over any stretch of a machine's life the size its disk has by the history never shrinks. |
| `History.DiskNeverShrinks` | internal/daemon/lifecycle.go:628-635 | So between any two states of a run: a present disk has the size its history gives it, and the disk of a machine that was there all along has not shrunk. |
| `Recovery.CreateDespiteCrash` | internal/daemon/lifecycle.go:378-404 | A creation cut off at any step, a restart and the replay of whatever entry the machine then has: either the machine is there, Running or Failed, with all other records, foreign volumes and foreign files untouched, or the store is as before - no machine, no volume owned by or attached to that id, every volume that does not go with a machine still there - or the call had changed nothing and only an older entry, if there was one, was replayed. |
| `Recovery.SnapshotDespiteCrash` | internal/daemon/lifecycle.go:750-772 | A snapshot cut off at any step and replayed: the record exists with all its disk files byte for byte, or neither record nor directory exists; the source VM is not paused; without a record the journal entry is gone too. Or the call had changed nothing - as when another operation was pending - and that entry was replayed by its own handler. The two steps whose errors the handler ignores are assumed to work. |
| `Recovery.ResizeDespiteCrash` | internal/daemon/lifecycle.go:440-455 | A resize cut off at any step and replayed ends with the record and the disk of the uninterrupted call, or - asked for what is there already - with at most its journal entry, or the call had changed nothing and an older entry was replayed. |
| `Recovery.DeleteDespiteCrash` | internal/daemon/lifecycle.go:457-480 | A delete cut off at any step and replayed either reports an error or leaves no machine, no system disk, no system volume and no attached volume, and nothing else gone, unless the call had changed nothing; a machine that already lost its system volume record is not deleted by this call, and with no older entry it stays stuck. |
| `Recovery.RestartAndReplay` | internal/daemon/lifecycle.go:279-323 | After a restart the machine's own pending entry, of whatever kind, goes to its handler, and without an entry nothing happens; what the handler leaves is stated for each kind, from any state its operation can have left. |
| `Recovery.RestoreDespiteCrash` | internal/daemon/lifecycle.go:774-787 | A restore cut off before its commit and replayed has its journal entry cleared and has changed nothing but its own directory and volume records of its own making; one cut off after its commit leaves the machine and everything outside it as an uninterrupted one does; or the call had changed nothing and an older entry was replayed. |
| `Lifecycle.ReconcileMachine` | internal/daemon/lifecycle.go:482-524 | One machine against the VM table: after success a live record is Running or Failed; a Running one keeps its record but for the relay ports if its process lives and is Failed if not; ssh and vnc relays are open; a resting machine is left alone; nothing of any other machine changes. |
| `Lifecycle.RetireDeadMachine` | internal/daemon/lifecycle.go:508-523 | A machine whose process is gone becomes Failed with the inspection error, all runtime fields cleared and its listeners closed; ports, size, key and volumes stay. |
| `Lifecycle.StartMachine` | internal/daemon/lifecycle.go:42-151 | Success means Running or Failed; from Stopped to Running all its relays and published ports are listening; a Running machine is left alone and a Failed one refused without effect. In any case identity, size, memory and volumes are unchanged, and the machine's journal entry is the old one, this start's, or gone. A disk larger than its record is accounted for by a pending resize afterwards exactly if it was before and the journal is unchanged; a successful start of a stopped machine always loses that resize. |
| `Lifecycle.BootMachine` | internal/daemon/lifecycle.go:117-142 | A VM is booted on a network no live machine uses, with a nonce no earlier boot had, and the record becomes Starting with that VM's address, tap, PID and nonce; a failed record write puts the old record back. |
| `Lifecycle.LoadAttachableUserVolumes` | internal/daemon/create.go:335-351 | The volumes are those of the ids, in their order, each a user volume that is free or already attached to this machine. |
| `Lifecycle.StopMachine` | internal/daemon/lifecycle.go:153-186 | Success leaves a stopped machine alone, and otherwise a record that differs only in the stopped phase and cleared runtime fields, no process and no listener; other machines and journal entries are untouched, and the machine's own entry is the old one, this stop's, or gone. A pending resize of a grown disk is lost as by a start. |
| `Lifecycle.StopMachineRecord` | internal/daemon/lifecycle.go:579-604 | On success the record is the old one at rest, its process is gone and nothing listens for it; on failure the record is unchanged; and it fails only when a step fails. |
| `Networking.ListRunningNetworks` | internal/daemon/lifecycle.go:352-376 | The list contains the network of every live machine but the given one. |
| `Networking.BootedBesideOthers` | internal/daemon/lifecycle.go:352-376 | A VM booted on the first index not in that list shares neither guest IP nor tap with any live machine. |
| `Startup.JudgeGuest` | internal/daemon/startup.go:45-61 | The guest's answer is accepted exactly if it echoes the pending nonce and there is a host key, recorded or reported, with no disagreement between the two; the key kept is the recorded one if there is one. |
| `Startup.CompleteMachineStartup` | internal/daemon/startup.go:28-84 | Success means Failed, or Running with ssh, vnc and every published port listening; an error leaves the machine live; identity, size, memory and volumes never change. |
| `Startup.FailMachineStartup` | internal/daemon/lifecycle.go:526-546 | On success the record is Failed with the reason, default ports and no runtime fields, and no listener of the machine is open; on error the record is unchanged. |
| `Startup.OpenListeners` | internal/daemon/startup.go:75-83 | A machine that just became Running gets all its listeners or becomes Failed without any. |
| `Resize.ResizeMachine` | internal/daemon/lifecycle.go:188-242 | Success means no change was asked for, or the record and disk are exactly those of the completed resize; otherwise the host is in one of the states of the resize trace, with the journal entry in place. |
| `Resize.ResizeMachineRecord` | internal/daemon/lifecycle.go:606-648 | From any state of the trace it stays in the trace and, on success, ends in the one final state. Unless a step fails, it succeeds exactly if the machine is Running or Stopped, the size does not shrink, and system volume record and disk are there with the disk no larger than the size. |
| `Resize.ReconcileResize` | internal/daemon/lifecycle.go:440-455 | Replaying the entry from any state of the trace reaches the final state of the uninterrupted call and clears the entry. An entry its record refuses changes nothing and never succeeds; unless a step fails, an error means exactly that or a disk that is missing or larger. |
| `DiskSizes.AbandonedExactly` | internal/daemon/lifecycle.go:606-648 | In every state of a run a disk holds at least what its record says; it holds more without the matching resize being pending exactly for the machines in `abandoned`. |
| `DiskSizes.SnapshotForgetsTheResize` | internal/daemon/snapshot.go:40-48 | A snapshot loses the pending resize of a grown disk as a start does, because its check for pending operations passes when the journal cannot be listed. |
| `DiskSizes.ResizeSettlesTheSizes` | internal/daemon/lifecycle.go:188-242 | After a successful resize the sizes are accounted for exactly if they agreed before or the call asked for a change: a later resize mends what was lost. |
| `Witnesses.ResizeCanBeLost` | internal/daemon/lifecycle.go:66-74 | On every legal host with a stopped machine, its system volume and its disk: a resize cut off after growing the disk, then a start cut off after its journal write, both outcomes their calls allow, leave a disk larger than its record with no pending resize. |
| `Witnesses.SomeResizeIsLost` | internal/daemon/lifecycle.go:188-233 | There is such a host, reached from the empty one by a creation and a stop. |
| `Deletion.DeleteMachine` | internal/daemon/lifecycle.go:244-277 | Success means the record, the system volume, every attached volume that goes with it, its directory and its process are gone and no volume is attached to it; other machines, their volumes, files and journal entries are untouched; an absent machine is a success without effect. Every removal passes through a legal state with the record there and all else of the machine gone. Unless a step fails, it succeeds exactly if the machine is not stuck without its system volume record. |
| `Deletion.DeleteMachineRecord` | internal/daemon/lifecycle.go:548-577 | The same for the record itself. A machine without a system volume record is never deleted, and one that gets there in this call is left as its last state but one: record there, processes, listeners, volumes and directory gone. |
| `Deletion.DetachVolumesFor` | internal/daemon/lifecycle.go:724-748 | On success, and unless a step fails there is success, no volume is attached to the machine; volumes that go with it are removed with their file, the others only lose their attachment; volumes of others are untouched. |
| `Deletion.ReconcileDelete` | internal/daemon/lifecycle.go:457-480 | On success nothing of the machine is left and its entry is cleared, whether or not its record was still there; unless a step fails, it succeeds exactly if the delete is not stuck. |
| `Deletion.SweepLeftovers` | internal/daemon/lifecycle.go:461-474 | Without a machine record: the system disk, the system volume record and every attachment go; files elsewhere survive, except those of volumes that go with the machine. |
| `Creation.CreateMachine` | internal/daemon/create.go:19-230 | Success means the record holds the requested image, memory, storage and volumes (the workspace first), all volume records exist and belong to it, the system disk has the recorded size, the workspace image exists, and the machine is Running or Failed. Before and after the commit no other machine's record, no snapshot and no port changes, only free or own volumes are touched, and files outside the machine's directory stay unless they belong to a volume that goes with it. An error after the commit leaves a live machine. A committed machine has its system disk exactly if the call returned no error or the deferred cleanup had no effect, unless that cleanup was itself cut short. |
| `Witnesses.LiveWithoutItsDisk` | internal/daemon/create.go:101-230 | On a concrete legal host, an outcome of the call: an error, a Starting machine in the store, and no system disk. |
| `Creation.ReconcileCreate` | internal/daemon/lifecycle.go:378-404 | From every state an uncommitted creation can leave, the handler restores the store and clears the entry; after the commit the machine ends Running or Failed. |
| `CreationTrace.SweepUndoes` | internal/daemon/lifecycle.go:390-403 | Sweeping the leftovers of any uncommitted creation undoes it: no trace of the machine, and every volume and file that does not go with a machine is as it was but for its attachment. |
| `Creation.AttachVolumes` | internal/daemon/create.go:167-189 | All volumes of the request end up attached to the machine, listed in the order of the request after the workspace, or the loop is undone as far as its steps work. |
| `Creation.RecordOwnVolumes` | internal/daemon/create.go:146-165 | The system and the workspace volume records are both stored, under ids that were free, or taken back. |
| `Creation.CommitRecord` | internal/daemon/create.go:191-220 | The record write adds exactly this machine and touches neither volumes nor disks; a failed write detaches and removes what the creation added. |
| `Creation.ResolveStorage` | internal/daemon/create.go:278-290 | The size is the requested one or the default, and success means it is positive and not below the source image. |
| `Resize.ResolveMemory` | internal/daemon/create.go:271-276 | The requested memory if it is positive, otherwise a positive default. |
| `Creation.CloneRoot` | internal/daemon/files.go:110-122 | The clone makes the system disk and changes nothing outside the machine's directory. |
| `Creation.GrowAndInject` | internal/daemon/create.go:109-123 | The system disk ends with exactly the resolved size, and nothing outside the machine's directory changes, through four injections for a new machine and three for a restored one. |
| `Creation.CreateWorkspace` | internal/daemon/files.go:185-205 | The workspace image exists, the system disk keeps its size, and nothing outside the machine's directory changes. |
| `Snapshots.CreateSnapshot` | internal/daemon/snapshot.go:23-149 | Success means the record lists system.img and user-0.img to user-(n-1).img with one artifact each, every file is byte for byte the disk of the running source machine, and the source is not paused; a failure has changed at most its journal entry, its own directory and the pause of that VM. |
| `Snapshots.ReconcileSnapshot` | internal/daemon/lifecycle.go:750-772 | From any state an interrupted snapshot leaves: complete record or neither record nor directory, the VM running again, the entry cleared. |
| `Snapshots.DeleteSnapshot` | internal/daemon/snapshot.go:517-530 | Success removes the snapshot's directory with all its files and exactly this record; a failure leaves the record, and other files are never touched. |
| `Snapshots.HomeOfComplete` | internal/daemon/snapshot.go:556-573 | The directory a delete removes is the one the snapshot was written to. |
| `SnapshotDrives.BuildSnapshotArtifacts` | internal/daemon/snapshot_transfer.go:24-39 | One artifact a disk, as a multiset, ordered by id. |
| `SnapshotDrives.OrderedRestoredDrives` | internal/daemon/snapshot.go:575-596 | Exactly the artifacts of user drives, each once, in the order of the comparator, whatever order the map is read in. |
| `SnapshotDrives.DriveLessIsTotal` | internal/daemon/snapshot.go:583-594 | The comparator is irreflexive, asymmetric and orders any two distinct names. |
| `SnapshotDrives.DriveLessIsTransitive` | internal/daemon/snapshot.go:583-594 | The comparator is transitive. |
| `SnapshotDrives.UserDriveIndex` | internal/daemon/snapshot.go:598-608 | The parsed index of user-i.img is i, for every i up to the largest int64. |
| `SnapshotDrives.RestoredDrivesKeepTheirPlaces` | internal/daemon/snapshot.go:575-608 | For any number of volumes the reordered list is user-0, user-1, ... in place: text order of ids and map iteration are undone. |
| `Restore.RestoreSnapshot` | internal/daemon/snapshot.go:193-464 | Success means a Running or Failed machine with the requested image, memory and storage, a system disk of that size, and user volumes that are the snapshot's drives in order, recorded under distinct ids, each file byte for byte its artifact. Whether it succeeds, fails or is cut off, only its own directory, new volume records of its own and its own record have changed. Where the machine's system volume id is taken, as by the leftover of an earlier restore, it fails before its commit and the record stays. A committed machine has its disk exactly as after a creation. |
| `Restore.RestoredDiskIsTheOriginal` | internal/daemon/snapshot.go:328-368 | Snapshot and restore end to end: user volume i of the restored machine holds the bytes that user volume i of the source held when the snapshot was taken, for every i. |
| `Restore.RestoredDriveIsTheOriginalVolume` | internal/daemon/snapshot.go:328-339 | Drive i of the reordered artifacts is the snapshot file of the i-th attached volume. |
| `Restore.RestoreDrives` | internal/daemon/snapshot.go:328-356 | Each restored drive is its artifact's clone at its own path, in the order recovered from the names, and the system disk stays. |
| `Restore.RecordRestored` | internal/daemon/snapshot.go:388-423 | All volume records are stored in order, attached to the new machine, or this call's records are taken back as far as that works. |
| `Restore.LocalSnapshotArtifacts` | internal/daemon/snapshot.go:643-667 | Success gives exactly the snapshot's artifacts by name, all of whose files exist. |
| `Restore.SamePathSameID` | internal/daemon/snapshot.go:338-343 | Two restored drives share a path only as two workspaces, and then also a volume id, which the store refuses. |
| `Restore.ReconcileRestore` | internal/daemon/lifecycle.go:774-787 | The entry is cleared and machines and volume records stay as the interrupted restore left them: a machine without record has leftover volume records afterwards exactly if some record carries its system volume id or is attached to it before. |
| `Witnesses.RestoreLeavesAVolume` | internal/daemon/snapshot.go:388-423 | On every legal host where the id is unused: a restore cut off right after the system volume's record was written, then its recovery, leave that record, and every later restore of the id is refused. |
| `Reconciliation.Reconcile` | internal/daemon/lifecycle.go:279-350 | A pass that returns no error leaves the journal empty, no machine Starting, and every Running machine with ssh, vnc and all published listeners open. A pending resize that its record refuses makes every pass fail and stays. |
| `Reconciliation.ListenersHaveConverged` | internal/daemon/lifecycle.go:325-350 | After such a pass, unless a read error hid some ports, the open listeners are exactly those the records call for: relays only of Running machines and on their recorded port, published ports exactly the stored ones of Running machines. |
| `Reconciliation.ReplayJournal` | internal/daemon/lifecycle.go:280-323 | Every entry is handled once, a handler leaves the other entries alone, and success empties the journal. A pending resize that its record refuses blocks this pass and stays to block the next; where only resizes are pending and no step fails, the replay is blocked exactly if some entry is refused or its disk is missing or larger. |
| `Reconciliation.ReconcileOperation` | internal/daemon/lifecycle.go:291-322 | The handler of one entry, from any state its operation can have left: it keeps the invariant, every other machine's entry and record, and on success clears its own entry and reaches the recovered state of its kind. |
| `Reconciliation.ReconcileStart` | internal/daemon/lifecycle.go:420-438 | On success the entry is gone and the machine, if there is one, is not Starting. |
| `Reconciliation.ReconcileStop` | internal/daemon/lifecycle.go:406-418 | On success the entry is gone and the machine, if there is one, is Stopped. |
| `Reconciliation.BringInLine` | internal/daemon/lifecycle.go:329-347 | One machine is settled and a running one has all its listeners; other machines are untouched. |
| `Relays.AllocateRelay` | internal/daemon/machine_relays.go:73-111 | On success the relay listens on a non-zero port of its range that no other Running machine has stored: the stored port unless the host refused to bind it, and otherwise the lowest port that is neither stored by another nor refused. On failure no listener changes, and unless a step failed every port of the range is stored by another or refused. |
| `Relays.UsedRelayPorts` | internal/daemon/machine_relays.go:52-71 | Exactly the non-zero ports of that name that other Running machines have stored. |
| `Relays.EnsureMachineRelays` | internal/daemon/machine_relays.go:113-139 | A running machine gets both relays open and recorded, keeping its exec port; on failure it has no relay open and its record is unchanged; relays of others are untouched. |
| `Relays.EnsureExecRelay` | internal/daemon/exec_relay.go:11-48 | On success the exec relay is open and only this record's ports changed; on failure at most this relay was closed and the store is as before. |
| `Relays.SetExecRelayPort` | internal/daemon/files.go:444-467 | The exec port becomes the given one, added if missing; ssh and vnc ports stay. |
| `Relays.BuildMachinePorts` | internal/daemon/files.go:436-442 | The three named host ports read back as given. |
| `Relays.StopMachineRelays` | internal/daemon/machine_relays.go:181-185 | All three relays of the machine are closed and no other. |
| `Relays.StartRelay` | internal/daemon/machine_relays.go:141-165 | A listener that is already there is kept; otherwise success binds the given port. |
| `Relays.NewPortsAreAllowed` | internal/daemon/machine_relays.go:113-139 | Storing ports that no other Running machine holds and that match the open listeners keeps the whole host invariant. |
| `PublishedPorts.CreatePublishedPort` | internal/daemon/published_ports.go:22-84 | Success stores one record for a running machine, on a host port no record held, with its listener open; failure stores nothing and touches no other port's listener. |
| `PublishedPorts.StoreListening` | internal/daemon/published_ports.go:72-82 | Under the mutex the store's host-port conflict is never the reason of a failed write, and a failed write closes the listener. |
| `PublishedPorts.AllocatePublishedHostPort` | internal/daemon/published_ports.go:142-158 | The lowest port of 20000-39999 that no stored record holds; it fails only if the listing failed or all of them are held. |
| `PublishedPorts.DeletePublishedPort` | internal/daemon/published_ports.go:98-114 | Success removes exactly this record and its listener, or the record was absent; a port of another machine is refused without effect. |
| `PublishedPorts.EnsurePublishedPortsFor` | internal/daemon/published_ports.go:116-130 | After success every stored port of a running machine is listening; listeners are only added. |
| `PublishedPorts.StopPublishedPortsFor` | internal/daemon/published_ports.go:132-140 | All listeners of the machine's stored ports are closed and no other, unless the listing failed, which is remembered. |
| `Witnesses.MissedListenerStays` | internal/daemon/published_ports.go:132-140 | On every legal host with a listener of a running machine: a stop whose listing failed succeeds and leaves the listener open for a machine that no longer runs. |
| `PublishedPorts.StartPublished` | internal/daemon/published_ports.go:160-182 | A listener that is already there is kept; otherwise success binds the given host port. |
| `PublishedRace.PublishedPortsAreSafe` | internal/daemon/published_ports.go:22-114 | In every interleaving of creations and deletions, at every step, stored host ports are distinct and in range, two calls never run on one machine at once, and the host-port conflict of the store is never reached. |
| `PublishedRace.StepKeepsOrder` | internal/daemon/published_ports.go:52-83 | Each single step of any call preserves the invariant of all calls. |
| `PublishedRace.StepKeepsListeners` | internal/daemon/published_ports.go:22-114 | Each single step keeps every listener accounted for: it serves a stored port on its own host port, or the call under the mutex is creating that port. |
| `PublishedRace.ServedAfterStep` | internal/daemon/published_ports.go:60-114 | One step, exactly: a port stored afterwards is listened on, on its own host port, if it was or is new, unless the step is one of three - a deletion closing it, a refused creation closing the listener it found, a creation storing after the listener it found was closed. |
| `PublishedRace.ServedUnlessLost` | internal/daemon/published_ports.go:22-114 | In every reachable state of every interleaving a stored port is listened on, on its own host port, exactly if no such step has come since it was stored. |
| `PublishedRace.DistinctCreationsStayServed` | internal/daemon/published_ports.go:22-114 | If no two creations name the same port id, every port that no call deletes is listened on from the moment it is stored, in every interleaving. |
| `PublishedRace.RefusedCreationClosesTheOther` | internal/daemon/published_ports.go:69-83 | A concrete interleaving where it fails: two creations of one port id on two machines end with the port stored and nobody listening. |
| `Network.Allocate` | internal/firecracker/network.go:108-133 | The lowest index whose guest IP is free; it fails exactly if all 2^(30-bits) guest IPs are used, hence never while fewer networks than that are in use. |
| `Network.BlockInsidePrefix` | internal/firecracker/network.go:135-153 | For every prefix from /0 to /30 and every scanned index the four-address block lies inside the masked prefix and no uint32 addition wraps. |
| `Network.DistinctIndicesDoNotClash` | internal/firecracker/network.go:135-153 | Distinct indices give disjoint blocks and different guest IPs, tap names and MAC addresses. |
| `Network.RecordRebuildsAllocation` | internal/firecracker/network.go:62-83 | Rebuilding an allocation from the dotted quad and the tap name of a record gives back the allocation, for every index: AllocationFromGuestIP inverts networkForIndex. |
| `Network.SomeIndexIsFree` | internal/firecracker/network.go:116-132 | Pigeonhole: fewer networks in use than subnets leaves an index free. |
| `Network.NewAllocator` | internal/firecracker/network.go:86-105 | Accepted exactly up to /30; the base is masked and contains the given address. |
| `Network.FromWordRoundTrip` | internal/firecracker/network.go:320-329 | Word to address and back is the identity. |
| `Network.ToWordRoundTrip` | internal/firecracker/network.go:320-329 | Address to word and back is the identity. |
| `Network.QuadRoundTrip` | internal/firecracker/network.go:62-71 | The printed dotted quad parses to the same address. |
| `Network.MacInjective` | internal/firecracker/network.go:331-334 | Different addresses give different MAC addresses. |
| `Store.FileStore.constructor` | internal/store/file_store.go:34-46 | A new store is empty in all five tables. |
| `Store.FileStore.CreateMachine` | internal/store/file_store.go:92-105 | As a finite map with unique keys: refused exactly if the id exists, otherwise one entry more. |
| `Store.FileStore.CreateVolume` | internal/store/file_store.go:165-178 | As a finite map with unique keys: refused exactly if the id exists, otherwise one entry more. |
| `Store.FileStore.CreateSnapshot` | internal/store/file_store.go:280-293 | As a finite map with unique keys: refused exactly if the id exists, otherwise one entry more. |
| `Store.FileStore.GetMachine` | internal/store/file_store.go:107-122 | The entry of that id, or none exactly if there is none. |
| `Store.FileStore.GetVolume` | internal/store/file_store.go:180-195 | The entry of that id, or none exactly if there is none. |
| `Store.FileStore.GetSnapshot` | internal/store/file_store.go:295-310 | The entry of that id, or none exactly if there is none. |
| `Store.FileStore.GetPublishedPort` | internal/store/file_store.go:376-391 | The entry of that id, or none exactly if there is none. |
| `Store.FileStore.ListMachines` | internal/store/file_store.go:124-133 | A list without duplicate keys whose map is the table. |
| `Store.FileStore.ListVolumes` | internal/store/file_store.go:197-206 | A list without duplicate keys whose map is the table. |
| `Store.FileStore.ListOperations` | internal/store/file_store.go:254-263 | A list without duplicate keys whose map is the table. |
| `Store.FileStore.UpdateMachine` | internal/store/file_store.go:135-148 | Refused exactly if the id is absent, otherwise this entry alone is replaced. |
| `Store.FileStore.UpdateVolume` | internal/store/file_store.go:208-221 | Refused exactly if the id is absent, otherwise this entry alone is replaced. |
| `Store.FileStore.DeleteMachine` | internal/store/file_store.go:150-163 | Reports absence exactly, and the entry is gone and no other. |
| `Store.FileStore.DeleteVolume` | internal/store/file_store.go:223-236 | Reports absence exactly, and the entry is gone and no other. |
| `Store.FileStore.DeleteSnapshot` | internal/store/file_store.go:343-356 | Reports absence exactly, and the entry is gone and no other. |
| `Store.FileStore.DeletePublishedPort` | internal/store/file_store.go:411-424 | Reports absence exactly, and the entry is gone and no other. |
| `Store.FileStore.UpsertOperation` | internal/store/file_store.go:238-252 | At most one entry a machine: the map with this machine's entry replaced or added. |
| `Store.FileStore.DeleteOperation` | internal/store/file_store.go:265-278 | The entry is gone and no other; an absent one is no error. |
| `Store.FileStore.CreatePublishedPort` | internal/store/file_store.go:358-374 | Accepted exactly if neither the id nor the host port is stored. |
| `Store.FileStore.ListPublishedPorts` | internal/store/file_store.go:393-409 | Exactly the stored records, or those of one machine. |
| `Daemons.Daemon.UpdateMachine` | internal/store/file_store.go:135-148 | A record write that respects phases, networks, relays, listeners and disk size keeps the host invariant and extends the history; a failed one changes nothing. |
| `Daemons.Daemon.CreateMachine` | internal/store/file_store.go:92-105 | The same for a new record. |
| `Daemons.Daemon.DeleteMachine` | internal/store/file_store.go:150-163 | The same for a removal, which needs the machine's listeners closed. |
| `Daemons.Daemon.Boot` | internal/firecracker/runtime.go:80-163 | A successful boot adds one process on a network index no listed allocation uses; a failed one may leave a process but disturbs none. |
| `Daemons.Daemon.DeleteVm` | internal/firecracker/runtime.go:210-232 | Success removes the process; other processes stay in any case. |
| `Daemons.Daemon.SetPaused` | internal/firecracker/runtime.go:234-242 | Success sets the pause of that process; nothing else of any process changes, even on failure. |
| `Daemons.Daemon.CloneDisk` | internal/daemon/files.go:62-108 | Success copies the source as it was before the call; only the target and its temporary sibling can differ, whether or not it succeeds. |
| `Daemons.Daemon.Truncate` | internal/daemon/lifecycle.go:631-635 | Success cuts or zero-extends the image to the size; an existing machine's disk is only ever grown, to the size its journalled resize asks for. |
| `Daemons.Daemon.Restart` | internal/daemon/lifecycle.go:279-289 | A new process starts without listeners and with everything else kept. |
| `WorkspaceEdits.MovePath` | internal/daemon/filesystem_service.go:1423-1477 | On every tree. A move that succeeds had a source all of whose paths reread, and leaves nothing under the old name; it is a tree rename - the subtree byte for byte under the target, every other path unchanged, only missing parents new - exactly if no copy lands inside the source and whatever is at the target already is what is moved there. With such a source and target, a move cut off anywhere has every node at its old or its new place and never calls rmdir on a directory that is not empty. A target inside the source is refused without effect. |
| `WorkspaceEdits.RenamedFits` | internal/daemon/filesystem_service.go:1423-1477 | No tree where those two conditions fail can have the rename as its result. |
| `WorkspaceEdits.FreeTargetFits` | internal/daemon/filesystem_service.go:1423-1435 | A free target outside the source meets them. |
| `WorkspaceEdits.RemovePath` | internal/daemon/filesystem_service.go:1326-1386 | On every tree. Emptying the root, when it succeeds, leaves exactly the empty root if and only if every listed path rereads as itself; removing a file or directory succeeds only if they all do, and then leaves the old tree minus exactly the target. Whatever happens, all that is gone is the target or what some path below it rereads as. A directory needs the recursive flag. |
| `WorkspaceEdits.RemoveListed` | internal/daemon/filesystem_service.go:1370-1381 | The loop in reverse order of the listing computes the run of its rounds; unless an rm or rmdir fails on its own, it succeeds exactly if that run does; where every path rereads, no rmdir is refused. |
| `WorkspaceEdits.RemovedExactly` | internal/daemon/filesystem_service.go:1370-1381 | A completed run leaves exactly the tree without the content if and only if every path rereads; otherwise something below stays. |
| `WorkspaceEdits.RereadIsShorter` | internal/daemon/filesystem_service.go:497-545 | A path that is taken for another one below the directory has the longer text, which is why the longest one stays. |
| `WorkspaceEdits.DirectoryIsEmpty` | internal/daemon/filesystem_service.go:1370-1381 | In reverse order of the shown texts, when a directory's turn comes nothing is left in it. |
| `WorkspaceEdits.EnsureDirectory` | internal/daemon/filesystem_service.go:1121-1146 | mkdir -p: success makes exactly the missing directories on the way; at any point only a prefix of them was made and nothing else changed. |
| `WorkspaceEdits.StatRaw` | internal/daemon/filesystem_service.go:1181-1198 | The kind of the node, and not-found only if the path is absent. |
| `WorkspaceEdits.MoveDirectory` | internal/daemon/filesystem_service.go:1447-1476 | Copying shallow paths first and then removing the source: success had rereading paths and leaves no source, and is the rename where the target fits. |
| `WorkspaceEdits.MoveFile` | internal/daemon/filesystem_service.go:1437-1446 | The same for a file. |
| `WorkspaceEdits.WriteFile` | internal/daemon/filesystem_service.go:1073-1101 | Writing a file makes at most the directories above it and then the file, which may replace a file but no directory; the workspace root itself is refused. |
| `WorkspaceEdits.EnsureRoot` | internal/daemon/filesystem_service.go:1034-1046 | On success the workspace root is there, as a directory; nothing else is new but the way to it. |
| `WorkspaceEdits.MovedText` | internal/daemon/filesystem_service.go:1456-1461 | Trimming the source prefix and joining the target, on texts, names the renamed path. |
| `WorkspaceEdits.ElsewhereText` | internal/daemon/filesystem_service.go:1456-1461 | Where the path read is not below the source, the joined text names the target followed by that whole path. |
| `WorkspaceEdits.GuardsArePrefix` | internal/daemon/filesystem_service.go:1424-1432 | The three textual guards of a move hold exactly if the target is the source or inside it. |
| `WorkspaceEdits.DepthIsLength` | internal/daemon/filesystem_service.go:1479-1485 | The depth of a shown path is its number of components. |
| `WorkspaceEdits.SortByDepth` | internal/daemon/filesystem_service.go:1454 | The entries are reordered by depth and none is lost or doubled. |
| `WorkspaceTrees.ListRecursive` | internal/daemon/filesystem_service.go:1288-1324 | Everything below the directory, each path once, in the order of the shown texts; a missing workspace root lists as empty. |
| `WorkspaceTrees.Walk` | internal/daemon/filesystem_service.go:1296-1321 | The recursive walk ends on every finite tree and yields each descendant once. |
| `WorkspaceTrees.Ext4Image.ReadDir` | internal/daemon/filesystem_service.go:1200-1222 | The children of a directory, each once, with their kinds. |
| `WorkspaceTrees.RereadsExactly` | internal/daemon/filesystem_service.go:1370-1371 | A listed path resolves back to itself exactly if its text has no surrounding white space, line break or NUL. |
| `WorkspaceTrees.TrailingBlankIsLost` | internal/daemon/filesystem_service.go:1370-1378 | A concrete name for which it does not: the removal of a directory that holds "a " asks for "a". |
| `WorkspaceWitnesses.EmptiedWithAFileLeft` | internal/daemon/filesystem_service.go:1331-1351 | A tree holding "a ": emptying the root runs to the end without an error and the file is still there. |
| `WorkspaceWitnesses.RemovedOutsideTheTarget` | internal/daemon/filesystem_service.go:1364-1382 | A directory " d" beside "d": its removal takes the file of the other directory and leaves its own, so that its rmdir is refused. |
| `WorkspaceWitnesses.MovedOntoItsParent` | internal/daemon/filesystem_service.go:1423-1477 | Once a/b was moved onto a, a file a/b/b/f is neither there nor at a/b/f. |
| `WorkspacePaths.AcceptedIsConfined` | internal/daemon/filesystem_service.go:497-533 | Every accepted string is the workspace root or a path strictly below it, without empty, dot or dot-dot components. |
| `WorkspacePaths.DisplayRoundTrip` | internal/daemon/filesystem_service.go:535-545 | Resolving the display form gives the path back exactly if the text has no surrounding white space, line break or NUL. |
| `WorkspacePaths.ContainsIsStrictPrefix` | internal/daemon/filesystem_service.go:1487-1491 | Holds exactly for strict component prefixes. |
| `WorkspacePaths.CleanRooted` | internal/daemon/filesystem_service.go:497-533 | A rooted normalised path is its own normal form. |
| `SparseCopy.CopySparse` | internal/daemon/files.go:369-377 | However the source is split into reads, seeking over zero chunks, writing the others and truncating to the total gives a file equal to the source. |
| `SparseCopy.WriteSparse` | internal/daemon/files.go:394-421 | At every point the file, zero-extended to the position, is what was read so far; the size is the total. |
| `SparseCopy.IsZeroChunk` | internal/daemon/files.go:423-430 | True exactly for chunks of zeros. |
| `RangeIO.ApplyWriteRange` | internal/daemon/filesystem_service.go:582-599 | Errors exactly if the offset is negative or offset plus length exceeds 2^63-1; otherwise the length is the larger of the old one and the end of the range, the chunk is in place, other bytes are kept and the gap is zero. |
| `RangeIO.ReadRangeLaw` | internal/daemon/filesystem_service.go:562-580 | Refused exactly for a negative offset or length; otherwise the part of the range that exists, with the exact condition under which the wrapped sum runs out of bounds. |
| `RangeIO.ReadAfterWrite` | internal/daemon/filesystem_service.go:562-599 | Reading the written range returns the chunk; bytes before and after are unchanged. |
| `RangeIO.DisjointWritesCommute` | internal/daemon/filesystem_service.go:582-599 | Writes to ranges that do not meet commute. |
| `ShellQuote.QuotingRoundTrip` | internal/daemon/guest_identity.go:117-119 | Quote processing and quote removal (sections 2.2.2, 2.2.3 and 2.6.7 of the POSIX.1-2017 Shell Command Language) turn the quoted value into one word equal to the value. |

## Left out

- Concurrency between operations: they run one after the other, as whole calls; only publishing and unpublishing ports is interleaved. Locks, and StartMachine's second unlock, are not part of this model.
- Liveness: a call is promised to succeed only where its contract says so for runs without a failing step; starts, creations, snapshots and restores also depend on the guest and the VM, of which nothing is promised.
- Artifacts: downloads, image preparation and the artifact table; a creation finds its root file system at a given path or fails.
- Durable snapshot downloads and uploads: a restore reads a snapshot of this host.
- buildMachineSpec: the boot specification itself; that its drive user-i is the i-th volume of the list is its loop, and the order of that list is what is proved.
- Mounts, runtime directories, guest configuration, timestamps, source artifact and pool of a volume, and the names and protocols of published ports: records carry no such fields.
- Validation of machine ids, artifact references and guest configuration: ids are arbitrary texts, and a directory is determined by its id. A snapshot id with path separators, which validateSnapshotID accepts, makes another directory than its own; that is not modelled.
- Equal nonces: the 128 random bits of two boots are taken to differ.
- The bytes of a disk that a VM is writing to, and what is injected into an image: injection may change the content but not the size; repairing a dirty file system is not a step.
- VM processes that no record names after a crash between boot and record write: nothing is claimed of them.
- Error texts: a call reports success, not found, conflict or another failure; the failure reason in a record is kept as text.
- Legacy snapshot memory and state files, which locate a snapshot directory when there is no disk path.
- IPv6 and the parsing of the base prefix's text; the dotted quad of a guest address is parsed as in the standard library.
- A source read again while it is being moved onto: what a copy holds is stated where no copy lands inside the source.
- Modes, ownership, symbolic links and sizes of workspace entries, and the text scraping of the ext4 tool: a tree of files and directories with exact primitives.
- Workspace files of a running guest, grep, patches and write preconditions.
- Signals, timeouts, firewall rules, the jailer and the API client: a step works or fails.
- Recovery.SnapshotDespiteCrash: assumes that removing the directory and resuming the VM work, because the handler ignores their errors.
- Deletion.DeleteMachine: published-port records of the machine may stay when their removal fails, because the code ignores those errors.
- Lifecycle.StopMachine: which other processes stay is stated for each VM step alone, not for whole calls, because a recorded PID can outlive its process and be given to another one.
- ShellQuote.QuotingRoundTrip: the reading function refuses what the shell would expand, so it is a sufficient reading, not a full shell grammar.
- SnapshotDrives.DriveLessIsTotal: text order is by code point, which is Go's byte order on well-formed UTF-8.
