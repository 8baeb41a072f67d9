/** What a legal log says about whole histories of a machine. */
module History {
  import opened Model
  import opened Worlds

  /** The stored records after the first `i` changes. */
  ghost function At(log: seq<Change>, i: nat): map<MachineID, MachineRecord>
    requires i <= |log|
  {
    Replay(log[..i])
  }

  /** The disk sizes after the first `i` changes. */
  ghost function SizesAt(log: seq<Change>, i: nat): map<MachineID, int>
    requires i <= |log|
  {
    Sizes(log[..i])
  }

  lemma {:induction false} LegalPrefix(log: seq<Change>, i: nat)
    requires LegalLog(log) && i <= |log|
    ensures LegalLog(log[..i])
  {
    hide LegalChange;
    if i == |log| {
      assert log[..i] == log;
    } else {
      LegalPrefix(log[..|log| - 1], i);
      assert log[..|log| - 1][..i] == log[..i];
    }
  }

  lemma LegalAt(log: seq<Change>, i: nat)
    requires LegalLog(log) && i < |log|
    ensures LegalLog(log[..i]) && LegalChange(log[..i], log[i])
    ensures At(log, i + 1) == Replayed(At(log, i), log[i])
    ensures SizesAt(log, i + 1) == Resized(SizesAt(log, i), log[i])
  {
    hide LegalChange, Replayed, Resized;
    LegalPrefix(log, i + 1);
    assert log[..i + 1][..i] == log[..i];
  }

  /** The machine exists throughout this stretch of history. */
  ghost predicate LivesThrough(log: seq<Change>, id: MachineID, i: nat, j: nat)
    requires i <= j <= |log|
  {
    forall k: nat {:trigger At(log, k)} :: i <= k <= j ==> id in At(log, k)
  }

  /** One change moves a living machine along a legal edge, or not at all. */
  lemma OneStep(log: seq<Change>, id: MachineID, i: nat)
    requires LegalLog(log) && i < |log| && id in At(log, i) && id in At(log, i + 1)
    ensures At(log, i + 1)[id] == At(log, i)[id] || LegalUpdate(At(log, i)[id], At(log, i + 1)[id], log[..i])
  {
    hide LegalEdge, Replay, LegalLog, FreshNonce, EchoedSinceBoot;
    LegalAt(log, i);
  }

  /** No machine gets from Failed to Running without being stopped and then
      started in between. */
  lemma FailedRunsOnlyThroughStopped(log: seq<Change>, id: MachineID, i: nat, j: nat)
    requires LegalLog(log) && i <= j <= |log| && LivesThrough(log, id, i, j)
    requires At(log, i)[id].phase.Failed? && At(log, j)[id].phase.Running?
    ensures exists s: nat, t: nat {:trigger At(log, s), At(log, t)} ::
              && i < s < t < j
              && id in At(log, s) && At(log, s)[id].phase.Stopped?
              && id in At(log, t) && At(log, t)[id].phase.Starting?
  {
    hide Replay, LegalLog;
    var t := LastStarting(log, id, i, j);
    var s := LastStopped(log, id, i, t);
  }

  /** Running comes from Starting. */
  lemma {:induction false} LastStarting(log: seq<Change>, id: MachineID, i: nat, j: nat) returns (t: nat)
    requires LegalLog(log) && i <= j <= |log| && LivesThrough(log, id, i, j)
    requires At(log, i)[id].phase.Failed? && At(log, j)[id].phase.Running?
    ensures i < t < j && id in At(log, t) && At(log, t)[id].phase.Starting?
    decreases j
  {
    hide Replay, LegalLog, FreshNonce, EchoedSinceBoot;
    assert id in At(log, j) && id in At(log, i);
    var k := j - 1;
    assert id in At(log, k);
    OneStep(log, id, k);
    if At(log, k)[id].phase.Starting? {
      t := k;
    } else {
      t := LastStarting(log, id, i, k);
    }
  }

  /** Starting comes from Stopped. */
  lemma {:induction false} LastStopped(log: seq<Change>, id: MachineID, i: nat, t: nat) returns (s: nat)
    requires LegalLog(log) && i <= t <= |log| && LivesThrough(log, id, i, t)
    requires At(log, i)[id].phase.Failed? && At(log, t)[id].phase.Starting?
    ensures i < s < t && id in At(log, s) && At(log, s)[id].phase.Stopped?
    decreases t
  {
    hide Replay, LegalLog, FreshNonce, EchoedSinceBoot;
    assert id in At(log, t) && id in At(log, i);
    var k := t - 1;
    assert id in At(log, k);
    OneStep(log, id, k);
    if At(log, k)[id].phase.Stopped? {
      s := k;
    } else {
      s := LastStopped(log, id, i, k);
    }
  }

  /** Over any stretch of its life a machine keeps a host key it once had, and
      its storage never shrinks. */
  lemma {:induction false} KeyAndStorageOnlyGrow(log: seq<Change>, id: MachineID, i: nat, j: nat)
    requires LegalLog(log) && i <= j <= |log| && LivesThrough(log, id, i, j)
    ensures At(log, i)[id].guestKey != "" ==> At(log, j)[id].guestKey == At(log, i)[id].guestKey
    ensures At(log, i)[id].storageBytes <= At(log, j)[id].storageBytes
    decreases j
  {
    hide Replay, LegalLog, FreshNonce, EchoedSinceBoot;
    assert id in At(log, i) && id in At(log, j);
    if i < j {
      assert id in At(log, j - 1);
      KeyAndStorageOnlyGrow(log, id, i, j - 1);
      OneStep(log, id, j - 1);
    }
  }

  // ------------------------------------------------------------- the disks

  /** Exactly the recorded machines have a disk size. */
  lemma {:induction false} SizedAreRecorded(log: seq<Change>)
    requires LegalLog(log)
    ensures forall id :: id in Sizes(log) <==> id in Replay(log)
  {
    hide FreshNonce, EchoedSinceBoot;
    if log != [] {
      SizedAreRecorded(log[..|log| - 1]);
      assert LegalChange(log[..|log| - 1], log[|log| - 1]);
    }
  }

  /** Over any stretch of a machine's life its disk never shrinks. */
  lemma {:induction false} SizesOnlyGrow(log: seq<Change>, id: MachineID, i: nat, j: nat)
    requires LegalLog(log) && i <= j <= |log| && LivesThrough(log, id, i, j)
    ensures id in SizesAt(log, i) && id in SizesAt(log, j) && SizesAt(log, i)[id] <= SizesAt(log, j)[id]
    decreases j
  {
    hide Replay, Sizes, LegalLog, FreshNonce, EchoedSinceBoot, LegalUpdate;
    assert id in At(log, i) && id in At(log, j);
    if i == j {
      LegalPrefix(log, i);
      SizedAreRecorded(log[..i]);
    } else {
      assert id in At(log, j - 1);
      SizesOnlyGrow(log, id, i, j - 1);
      LegalAt(log, j - 1);
    }
  }

  /** Between any two states of a run: the disk of a machine that was there all
      along is as large as before, or larger. */
  lemma DiskNeverShrinks(w: World, v: World, id: MachineID)
    requires Good(w) && Good(v) && w.log <= v.log && LivesThrough(v.log, id, |w.log|, |v.log|)
    requires HasDisk(w, id) && HasDisk(v, id)
    ensures DiskSize(w, id) <= DiskSize(v, id)
  {
    hide SystemVolumePath, LegalLog, Replay, Sizes, RecordsCoherent, NetworksDistinct, RelayPortsDistinct, PortsDistinct,
      SystemVolumesPlaced, VolumesInMachineDirs, SnapshotsNamed, RelaysStored, PublishedStored, DisksCover, FreshNonce;
    assert v.log[..|w.log|] == w.log && v.log[..|v.log|] == v.log;
    assert id in At(v.log, |w.log|) && id in At(v.log, |v.log|);
    SizesOnlyGrow(v.log, id, |w.log|, |v.log|);
    assert DiskReplayed(w, id) && DiskReplayed(v, id);
  }

  // ------------------------------------------------------------- the nonce

  /** No two boots, of the same or of different machines, share a nonce. */
  lemma BootNoncesDiffer(log: seq<Change>, a: nat, b: nat, nonce: string)
    requires LegalLog(log) && a < b < |log| && BootsWith(log[a], nonce)
    ensures !BootsWith(log[b], nonce)
  {
    hide LegalLog, Replay, EchoedSinceBoot;
    LegalAt(log, b);
    assert log[..b][a] == log[a];
  }

  lemma {:induction false} LastEcho(log: seq<Change>, id: MachineID, nonce: string) returns (e: nat)
    requires EchoedSinceBoot(log, id, nonce)
    ensures e < |log| && log[e] == Echoed(id, nonce)
    ensures forall k :: e < k < |log| ==> !Boots(log[k], id)
  {
    if log[|log| - 1] == Echoed(id, nonce) {
      e := |log| - 1;
    } else {
      e := LastEcho(log[..|log| - 1], id, nonce);
      assert forall k :: e < k < |log| - 1 ==> log[k] == log[..|log| - 1][k];
    }
  }

  /** A record in Starting was put there by the machine's last boot. */
  lemma {:induction false} LastBoot(log: seq<Change>, id: MachineID) returns (b: nat)
    requires LegalLog(log) && id in Replay(log) && Replay(log)[id].phase.Starting? && Replay(log)[id].id == id
    ensures b < |log| && Boots(log[b], id) && BootsWith(log[b], Replay(log)[id].readyNonce)
    ensures forall k :: b < k < |log| ==> !Boots(log[k], id)
  {
    hide LegalUpdate, FreshNonce;
    var front, last := log[..|log| - 1], log[|log| - 1];
    assert LegalChange(front, last);
    if Boots(last, id) {
      b := |log| - 1;
    } else {
      b := LastBoot(front, id);
      assert forall k :: b < k < |log| - 1 ==> log[k] == front[k];
    }
  }

  /** Every step into Running: the machine was booted with a nonce no other boot
      ever had, and its guest has answered with that nonce since. */
  lemma RunningWasEchoed(log: seq<Change>, i: nat)
    requires LegalLog(log) && i < |log|
    requires log[i].Updated? && log[i].after.phase.Running? && !log[i].before.phase.Running?
    ensures log[i].before.phase.Starting?
    ensures exists b: nat, e: nat ::
              && b < e < i
              && Boots(log[b], log[i].after.id)
              && BootsWith(log[b], log[i].before.readyNonce)
              && log[e] == Echoed(log[i].after.id, log[i].before.readyNonce)
              && (forall k :: b < k < i ==> !Boots(log[k], log[i].after.id))
              && (forall k :: 0 <= k < |log| && k != b ==> !BootsWith(log[k], log[i].before.readyNonce))
  {
    hide LegalLog, Replay, FreshNonce, EchoedSinceBoot, Boots, BootsWith;
    var id, nonce, front := log[i].after.id, log[i].before.readyNonce, log[..i];
    LegalAt(log, i);
    var b := LastBoot(front, id);
    var e := LastEcho(front, id, nonce);
    assert log[b] == front[b] && log[e] == front[e];
    EchoesDoNotBoot(log[e], id);
    assert !(e < b);
    forall k | 0 <= k < |log| && k != b
      ensures !BootsWith(log[k], nonce)
    {
      if BootsWith(log[k], nonce) {
        BootNoncesDiffer(log, if k < b then k else b, if k < b then b else k, nonce);
      }
    }
  }

  lemma EchoesDoNotBoot(c: Change, id: MachineID)
    requires c.Echoed?
    ensures !Boots(c, id)
  {
  }
}
