/** Recursive removal, mkdir -p and recursive move in an offline workspace. */
module WorkspaceEdits {
  import opened Wrappers
  import opened Text
  import opened Model
  import opened WorkspacePaths
  import opened WorkspaceTrees

  // --------------------------------------------------------------- removal

  ghost function WithoutBelow(t: Tree, dir: Names): Tree {
    map p | p in t && !(dir < p) :: t[p]
  }

  ghost function WithoutTree(t: Tree, dir: Names): Tree {
    map p | p in t && !(dir <= p) :: t[p]
  }

  /** The tree once the entries from `i` on are gone. */
  ghost function WithoutFrom(t: Tree, entries: seq<Entry>, i: nat): Tree
    requires i <= |entries|
  {
    map p | p in t && !Listed(entries[i..], p) :: t[p]
  }

  lemma WithoutNone(t: Tree, entries: seq<Entry>)
    ensures WithoutFrom(t, entries, |entries|) == t
  {
    assert entries[|entries|..] == [];
  }

  lemma WithoutOneMore(t: Tree, dir: Names, entries: seq<Entry>, i: nat)
    requires Subtree(t, dir, entries) && i < |entries|
    ensures WithoutFrom(t, entries, i) == WithoutFrom(t, entries, i + 1) - {entries[i].names}
    ensures entries[i].names in WithoutFrom(t, entries, i + 1)
    ensures WithoutFrom(t, entries, i + 1)[entries[i].names].Directory? == entries[i].directory
  {
    assert IsNode(t, entries[i]);
    forall p ensures Listed(entries[i..], p) <==> p == entries[i].names || Listed(entries[i + 1..], p) {
      ListedFromHere(entries, i, p);
    }
    var later := entries[i + 1..];
    forall k | 0 <= k < |later| ensures later[k].names != entries[i].names {
      assert later[k] == entries[i + 1 + k];
    }
  }

  lemma ListedFromHere(entries: seq<Entry>, i: nat, p: Names)
    requires i < |entries|
    ensures Listed(entries[i..], p) <==> p == entries[i].names || Listed(entries[i + 1..], p)
  {
    assert entries[i..] == [entries[i]] + entries[i + 1..];
    if Listed(entries[i + 1..], p) {
      ListedInConcat([entries[i]], entries[i + 1..], p);
    }
    if p == entries[i].names {
      assert entries[i..][0].names == p;
    }
    if Listed(entries[i..], p) {
      var k :| 0 <= k < |entries[i..]| && entries[i..][k].names == p;
      if k > 0 {
        assert entries[i + 1..][k - 1].names == p;
      }
    }
  }

  lemma WithoutAll(t: Tree, dir: Names, entries: seq<Entry>)
    requires Subtree(t, dir, entries)
    ensures WithoutFrom(t, entries, 0) == WithoutBelow(t, dir)
  {
    assert entries[0..] == entries;
    forall p | p in t ensures Listed(entries, p) <==> dir < p {
      if Listed(entries, p) {
        var k :| 0 <= k < |entries| && entries[k].names == p;
      }
    }
  }

  /** In reverse order of the shown texts a directory comes after everything
      below it, so it is empty when its turn comes. */
  lemma DirectoryIsEmpty(t: Tree, dir: Names, entries: seq<Entry>, i: nat)
    requires ValidTree(t) && ROOT_NAMES <= dir && Subtree(t, dir, entries) && ByShown(entries) && i < |entries|
    ensures !HasChild(WithoutFrom(t, entries, i + 1), entries[i].names)
  {
    hide ValidTree, Less, Shown;
    var n := entries[i].names;
    assert IsNode(t, entries[i]);
    forall p | p in t && p != [] && Parent(p) == n ensures Listed(entries[i + 1..], p) {
      ChildIsBelow(n, p, p);
      assert dir < p;
      var j :| 0 <= j < |entries| && entries[j].names == p;
      LaterIfBelow(t, n, p);
      assert j > i;
      assert entries[i + 1..][j - i - 1].names == p;
    }
  }

  lemma LaterIfBelow(t: Tree, n: Names, p: Names)
    requires ValidTree(t) && n in t && p in t && ROOT_NAMES < n < p
    ensures Less(Shown(n), Shown(p))
  {
    hide Less, Join, Plain, Root, DisplayFromGuest;
    var a, b := n[|ROOT_NAMES|..], p[|ROOT_NAMES|..];
    assert n == ROOT_NAMES + a && p == ROOT_NAMES + b && a < b;
    assert AllPlain(n) && AllPlain(p);
    PlainTail(n, |ROOT_NAMES|);
    PlainTail(p, |ROOT_NAMES|);
    BelowText(a);
    BelowText(b);
    DescendantSortsLater(a, b);
  }

  lemma PlainTail(names: Names, k: nat)
    requires AllPlain(names) && k <= |names|
    ensures AllPlain(names[k..])
  {
  }

  /** Only paths below the directory are gone, at any point of the loop. */
  ghost predicate OnlyBelowGone(t: Tree, now: Tree, dir: Names) {
    && (forall p :: p in now ==> p in t && now[p] == t[p])
    && (forall p :: p in t && !(dir <= p) ==> p in now)
  }

  /** Every listed path reads back as itself. */
  ghost predicate AllReread(t: Tree, dir: Names) {
    forall p :: p in t && dir < p ==> Rereads(p)
  }

  /** One round of the removal loop when nothing fails on its own: what the shown
      text resolves to is removed, and passed over if it is not there. */
  ghost function RemoveStep(t: Tree, e: Entry): Option<Tree> {
    match Reread(e.names)
    case None => None
    case Some(q) =>
      if q !in t then Some(t)
      else if e.directory then (if q == [] || t[q].File? || HasChild(t, q) then None else Some(t - {q}))
      else if t[q].Directory? then None else Some(t - {q})
  }

  /** The rounds from the last entry down to entry `i`. */
  ghost function RemoveRun(t: Tree, entries: seq<Entry>, i: nat): Option<Tree>
    requires i <= |entries|
    decreases |entries| - i
  {
    if i == |entries| then Some(t)
    else match RemoveRun(t, entries, i + 1)
         case None => None
         case Some(u) => RemoveStep(u, entries[i])
  }

  /** Some rounds, from the end, have been run. */
  ghost predicate RunInPart(t: Tree, entries: seq<Entry>, now: Tree) {
    exists i: nat :: i <= |entries| && RemoveRun(t, entries, i) == Some(now)
  }

  /** The loop of ext4RemovePath. Where every listed path rereads, it never calls
      rmdir on a directory that still has something in it. */
  method RemoveListed(image: Ext4Image, ghost dir: Names, entries: seq<Entry>) returns (status: Status)
    requires image.Valid() && ROOT_NAMES <= dir && Subtree(image.tree, dir, entries) && ByShown(entries)
    modifies image
    ensures image.Valid() && (old(image.faulted) ==> image.faulted)
    ensures RunInPart(old(image.tree), entries, image.tree)
    ensures status.Done? ==> RemoveRun(old(image.tree), entries, 0) == Some(image.tree)
    ensures !image.faulted ==> (status.Done? <==> RemoveRun(old(image.tree), entries, 0).Some?)
    ensures AllReread(old(image.tree), dir) ==> image.refused == old(image.refused)
  {
    hide ValidTree, Subtree, ByShown, HasChild, Reread, AllReread, RemoveStep, RemoveRun, RunInPart;
    ghost var t := image.tree;
    RunFromEnd(t, entries);
    status := Done;
    var i := |entries|;
    while i > 0 && status.Done?
      invariant 0 <= i <= |entries| && image.Valid() && (old(image.faulted) ==> image.faulted)
      invariant RunInPart(t, entries, image.tree)
      invariant status.Done? ==> RemoveRun(t, entries, i) == Some(image.tree)
      invariant !image.faulted && !status.Done? ==> RemoveRun(t, entries, i).None?
      invariant AllReread(t, dir) ==> image.refused == old(image.refused)
    {
      i := i - 1;
      ghost var u := image.tree;
      NextRound(t, u, entries, i);
      RootIsDir(u);
      var child := Reread(entries[i].names);
      if AllReread(t, dir) {
        RunIfReread(t, dir, entries, i + 1);
        DirectoryIsEmpty(t, dir, entries, i);
        EntryRereads(t, dir, entries, i);
      }
      if entries[i].directory {
        status := image.RemoveDir(child);
        RoundOfDirectory(u, entries[i]);
      } else {
        status := image.RemoveFile(child);
        RoundOfFile(u, entries[i]);
      }
      if status.NotFound? {
        status := Done;
      }
    }
    if !status.Done? && !image.faulted {
      NoneStaysNone(t, entries, i);
    }
  }

  lemma RunFromEnd(t: Tree, entries: seq<Entry>)
    ensures RemoveRun(t, entries, |entries|) == Some(t) && RunInPart(t, entries, t)
  {
  }

  lemma NextRound(t: Tree, u: Tree, entries: seq<Entry>, i: nat)
    requires i < |entries| && RemoveRun(t, entries, i + 1) == Some(u)
    ensures RemoveRun(t, entries, i) == RemoveStep(u, entries[i])
    ensures RunInPart(t, entries, u)
    ensures RemoveStep(u, entries[i]).Some? ==> RunInPart(t, entries, RemoveStep(u, entries[i]).value)
  {
    hide RemoveStep;
  }

  lemma RoundOfDirectory(u: Tree, e: Entry)
    requires e.directory
    ensures RemoveStep(u, e) == match Reread(e.names)
                                case None => None
                                case Some(q) =>
                                  if q !in u then Some(u)
                                  else if q == [] || u[q].File? || HasChild(u, q) then None else Some(u - {q})
  {
    hide Reread, HasChild;
  }

  lemma RoundOfFile(u: Tree, e: Entry)
    requires !e.directory
    ensures RemoveStep(u, e) == match Reread(e.names)
                                case None => None
                                case Some(q) => if q !in u then Some(u) else if u[q].Directory? then None else Some(u - {q})
  {
    hide Reread;
  }

  lemma {:induction false} NoneStaysNone(t: Tree, entries: seq<Entry>, i: nat)
    requires i <= |entries| && RemoveRun(t, entries, i).None?
    ensures RemoveRun(t, entries, 0).None?
    decreases i
  {
    hide RemoveStep;
    if i > 0 {
      NoneStaysNone(t, entries, i - 1);
    }
  }

  /** Where every path rereads, the loop removes the entries one by one and
      succeeds. */
  lemma {:induction false} RunIfReread(t: Tree, dir: Names, entries: seq<Entry>, i: nat)
    requires ValidTree(t) && ROOT_NAMES <= dir && Subtree(t, dir, entries) && ByShown(entries) && AllReread(t, dir)
    requires i <= |entries|
    ensures RemoveRun(t, entries, i) == Some(WithoutFrom(t, entries, i))
    decreases |entries| - i
  {
    hide ValidTree, Subtree, ByShown, HasChild, Reread, AllReread, WithoutFrom;
    if i == |entries| {
      WithoutNone(t, entries);
    } else {
      RunIfReread(t, dir, entries, i + 1);
      WithoutOneMore(t, dir, entries, i);
      DirectoryIsEmpty(t, dir, entries, i);
      EntryRereads(t, dir, entries, i);
      EntryIsProper(t, dir, entries, i);
    }
  }

  lemma EntryIsProper(t: Tree, dir: Names, entries: seq<Entry>, i: nat)
    requires Subtree(t, dir, entries) && i < |entries|
    ensures dir < entries[i].names && IsNode(t, entries[i]) && entries[i].names != []
  {
  }

  /** What is gone was reread from some entry, and what is left is a tree. */
  lemma {:induction false} RunOnlyRemoves(t: Tree, entries: seq<Entry>, i: nat, u: Tree)
    requires ValidTree(t) && i <= |entries| && RemoveRun(t, entries, i) == Some(u)
    ensures ValidTree(u) && forall p :: p in u ==> p in t && u[p] == t[p]
    ensures forall p :: p in t && p !in u ==> exists k :: i <= k < |entries| && Reread(entries[k].names) == Some(p)
    decreases |entries| - i
  {
    hide Reread, ValidTree;
    if i < |entries| {
      var v := RemoveRun(t, entries, i + 1).value;
      RunOnlyRemoves(t, entries, i + 1, v);
      RoundKeepsTree(v, entries[i]);
    }
  }

  lemma RoundKeepsTree(t: Tree, e: Entry)
    requires ValidTree(t) && RemoveStep(t, e).Some?
    ensures var u := RemoveStep(t, e).value;
            && ValidTree(u)
            && (forall p :: p in u ==> p in t && u[p] == t[p])
            && (forall p :: p in t && p !in u ==> Reread(e.names) == Some(p))
  {
    hide Reread;
    var u := RemoveStep(t, e).value;
    if u != t && !e.directory {
      var q := Reread(e.names).value;
      assert forall p :: p in t && p != [] && Parent(p) == q ==> IsDir(t, q);
    }
  }

  lemma EntryRereads(t: Tree, dir: Names, entries: seq<Entry>, i: nat)
    requires Subtree(t, dir, entries) && i < |entries| && AllReread(t, dir)
    ensures Reread(entries[i].names) == Some(entries[i].names)
  {
    hide Reread;
    assert dir < entries[i].names && IsNode(t, entries[i]);
    assert Rereads(entries[i].names);
  }

  /** ext4StatRaw: the parent's listing is searched for the last name. */
  method StatRaw(image: Ext4Image, names: Names) returns (status: Status, directory: bool)
    requires image.Valid()
    ensures status.Done? ==> names in image.tree && directory == image.tree[names].Directory?
    ensures status.NotFound? ==> names !in image.tree
  {
    hide ValidTree, ChildrenOf;
    directory := true;
    if names == [] {
      RootIsDir(image.tree);
      return Done, true;
    }
    var entries;
    status, entries := image.ReadDir(names[..|names| - 1]);
    if status.NotFound? {
      OrphansCannotBe(image.tree, names);
    }
    if status.Done? {
      var i := 0;
      while i < |entries|
        invariant 0 <= i <= |entries|
        invariant forall k :: 0 <= k < i ==> entries[k].names != names
      {
        if entries[i].names == names {
          EntryIsNode(image.tree, names[..|names| - 1], entries, i);
          return Done, entries[i].directory;
        }
        i := i + 1;
      }
      UnlistedIsAbsent(image.tree, names, entries);
      status := NotFound;
    }
  }

  lemma RootIsDir(t: Tree)
    requires ValidTree(t)
    ensures IsDir(t, [])
  {
  }

  lemma OrphansCannotBe(t: Tree, names: Names)
    requires ValidTree(t) && names != [] && Parent(names) !in t
    ensures names !in t
  {
  }

  lemma EntryIsNode(t: Tree, dir: Names, entries: seq<Entry>, i: nat)
    requires ChildrenOf(t, dir, entries) && i < |entries|
    ensures entries[i].names in t && entries[i].directory == t[entries[i].names].Directory?
  {
    assert IsChild(t, dir, entries[i]);
  }

  lemma UnlistedIsAbsent(t: Tree, names: Names, entries: seq<Entry>)
    requires names != [] && ChildrenOf(t, Parent(names), entries)
    requires forall k :: 0 <= k < |entries| ==> entries[k].names != names
    ensures names !in t
  {
    assert names in t ==> Listed(entries, names);
  }

  /** Everything that is gone was the target, or was reread from something below it. */
  ghost predicate OnlyRereadGone(t: Tree, now: Tree, target: Names) {
    && (forall p :: p in now ==> p in t && now[p] == t[p])
    && (forall p :: p in t && p !in now ==> p == target || RereadFromBelow(t, target, p))
  }

  ghost predicate RereadFromBelow(t: Tree, dir: Names, p: Names) {
    exists q :: q in t && dir < q && Reread(q) == Some(p)
  }

  lemma RereadIsBelow(t: Tree, now: Tree, dir: Names)
    requires OnlyRereadGone(t, now, dir) && AllReread(t, dir)
    ensures OnlyBelowGone(t, now, dir)
  {
    hide Reread;
  }

  /** ext4RemovePath. The workspace root itself stays. Emptying it can succeed with
      something left; removing a directory only succeeds as it should. Any attempt
      may remove what the entries reread as. */
  method RemovePath(image: Ext4Image, rel: Names, recursive: bool) returns (status: Status)
    requires image.Valid()
    modifies image
    ensures image.Valid() && OnlyRereadGone(old(image.tree), image.tree, Inside(rel))
    ensures AllReread(old(image.tree), Inside(rel)) ==> image.refused == old(image.refused)
    ensures status.Done? && rel == [] ==>
              && recursive
              && (image.tree == WithoutBelow(old(image.tree), ROOT_NAMES) <==> AllReread(old(image.tree), ROOT_NAMES))
    ensures status.Done? && rel != [] ==>
              && Inside(rel) in old(image.tree)
              && (old(image.tree)[Inside(rel)].Directory? ==> recursive)
              && AllReread(old(image.tree), Inside(rel))
              && image.tree == WithoutTree(old(image.tree), Inside(rel))
  {
    hide ValidTree, HasChild, WithoutBelow, WithoutTree, OnlyRereadGone, AllReread, ROOT_NAMES;
    var target := Inside(rel);
    ghost var t := image.tree;
    NothingGone(t, target);
    if rel == [] {
      InsideNothing();
      status := Conflict;
      if recursive {
        status := RemoveBelow(image, target);
      }
      return;
    }
    TargetIsProper(rel);
    var directory;
    status, directory := StatRaw(image, target);
    if status.Done? && !directory {
      FileGone(t, target);
      status := image.RemoveFile(Some(target));
    } else if status.Done? && !recursive {
      status := Conflict;
    } else if status.Done? {
      status := RemoveDirectory(image, target);
    }
  }

  /** The content, and then the directory itself. */
  method RemoveDirectory(image: Ext4Image, target: Names) returns (status: Status)
    requires image.Valid() && ROOT_NAMES <= target && target != [] && IsDir(image.tree, target)
    modifies image
    ensures image.Valid() && OnlyRereadGone(old(image.tree), image.tree, target)
    ensures AllReread(old(image.tree), target) ==> image.refused == old(image.refused)
    ensures status.Done? ==>
              AllReread(old(image.tree), target) && image.tree == WithoutTree(old(image.tree), target)
  {
    hide ValidTree, HasChild, WithoutBelow, WithoutTree, OnlyRereadGone, AllReread, ROOT_NAMES;
    ghost var t := image.tree;
    status := RemoveBelow(image, target);
    if status.Done? {
      ghost var u := image.tree;
      DirectoryGone(t, target);
      TargetGone(t, u, target);
      if !AllReread(t, target) {
        SomethingLeft(t, u, target);
      }
      status := image.RemoveDir(Some(target));
      if status.NotFound? {
        status := Done;
      }
    }
  }

  lemma TargetGone(t: Tree, u: Tree, target: Names)
    requires OnlyRereadGone(t, u, target)
    ensures OnlyRereadGone(t, u - {target}, target)
  {
    hide Reread;
  }

  lemma SomethingLeft(t: Tree, u: Tree, dir: Names)
    requires ValidTree(u) && exists p :: p in u && dir < p
    ensures IsDir(u, dir) && HasChild(u, dir)
  {
    var p :| p in u && dir < p;
    AncestorIsDir(u, dir, p);
    ChildAbove(u, dir, p);
  }

  lemma InsideNothing()
    ensures Inside([]) == ROOT_NAMES
  {
    assert ROOT_NAMES + [] == ROOT_NAMES;
  }

  lemma TargetIsProper(rel: Names)
    ensures ROOT_NAMES <= Inside(rel) && Inside(rel) != []
  {
  }

  lemma NothingGone(t: Tree, dir: Names)
    ensures OnlyRereadGone(t, t, dir)
  {
  }

  lemma FileGone(t: Tree, target: Names)
    requires ValidTree(t) && target in t && t[target].File?
    ensures t - {target} == WithoutTree(t, target) && OnlyRereadGone(t, t - {target}, target) && AllReread(t, target)
  {
    hide Reread;
    forall p | p in t && target <= p ensures p == target {
      if target < p {
        AncestorIsDir(t, target, p);
      }
    }
  }

  lemma DirectoryGone(t: Tree, target: Names)
    requires IsDir(t, target) && target != []
    ensures var rest := WithoutBelow(t, target);
            && !HasChild(rest, target)
            && target in rest
            && rest - {target} == WithoutTree(t, target)
            && OnlyBelowGone(t, rest - {target}, target)
  {
    var rest := WithoutBelow(t, target);
    forall p | p != [] && Parent(p) == target ensures target < p {
      ChildIsBelow(target, p, p);
    }
    forall p | p in t ensures target <= p <==> target == p || target < p {
      PrefixOrSame(target, p);
    }
    assert rest - {target} == WithoutTree(t, target);
  }

  lemma PrefixOrSame(a: Names, b: Names)
    ensures a <= b <==> a == b || a < b
  {
  }

  /** The listing and the loop. Of paths that do not reread, one stays. */
  method RemoveBelow(image: Ext4Image, dir: Names) returns (status: Status)
    requires image.Valid() && ROOT_NAMES <= dir
    modifies image
    ensures image.Valid() && OnlyRereadGone(old(image.tree), image.tree, dir)
    ensures AllReread(old(image.tree), dir) ==> image.refused == old(image.refused)
    ensures status.Done? ==> (image.tree == WithoutBelow(old(image.tree), dir) <==> AllReread(old(image.tree), dir))
    ensures status.Done? && !AllReread(old(image.tree), dir) ==> exists p :: p in image.tree && dir < p
  {
    hide ValidTree, Subtree, ByShown, WithoutBelow, OnlyRereadGone, AllReread, RemoveRun, RunInPart;
    ghost var t := image.tree;
    NothingGone(t, dir);
    var entries;
    status, entries := ListRecursive(image, dir);
    if status.Done? {
      status := RemoveListed(image, dir, entries);
      PartOnlyRereadGone(t, dir, entries, image.tree);
      if status.Done? {
        RemovedExactly(t, dir, entries, image.tree);
      }
    }
  }

  lemma PartOnlyRereadGone(t: Tree, dir: Names, entries: seq<Entry>, now: Tree)
    requires ValidTree(t) && Subtree(t, dir, entries) && RunInPart(t, entries, now)
    ensures OnlyRereadGone(t, now, dir)
  {
    hide Reread, ValidTree, Subtree, RemoveRun, RereadFromBelow;
    var i: nat :| i <= |entries| && RemoveRun(t, entries, i) == Some(now);
    RunOnlyRemoves(t, entries, i, now);
    forall p | p in t && p !in now ensures RereadFromBelow(t, dir, p) {
      RereadFromEntry(t, dir, entries, p);
    }
  }

  lemma RereadFromEntry(t: Tree, dir: Names, entries: seq<Entry>, p: Names)
    requires Subtree(t, dir, entries) && exists k :: 0 <= k < |entries| && Reread(entries[k].names) == Some(p)
    ensures RereadFromBelow(t, dir, p)
  {
    hide Reread, Subtree;
    var k :| 0 <= k < |entries| && Reread(entries[k].names) == Some(p);
    EntryIsProper(t, dir, entries, k);
  }

  /** The loop leaves exactly what it should if and only if every path rereads. */
  lemma RemovedExactly(t: Tree, dir: Names, entries: seq<Entry>, u: Tree)
    requires ValidTree(t) && ROOT_NAMES <= dir && Subtree(t, dir, entries) && ByShown(entries)
    requires RemoveRun(t, entries, 0) == Some(u)
    ensures u == WithoutBelow(t, dir) <==> AllReread(t, dir)
    ensures !AllReread(t, dir) ==> exists p :: p in u && dir < p
  {
    hide ValidTree, Subtree, ByShown, RemoveRun, Reread, WithoutFrom, Rereads;
    if AllReread(t, dir) {
      RunIfReread(t, dir, entries, 0);
      WithoutAll(t, dir, entries);
    } else {
      var p := UnreadStays(t, dir, entries, u);
    }
  }

  /** The one with the longest text stays: only a longer text can be taken for it. */
  lemma UnreadStays(t: Tree, dir: Names, entries: seq<Entry>, u: Tree) returns (p: Names)
    requires ValidTree(t) && ROOT_NAMES <= dir && Subtree(t, dir, entries) && !AllReread(t, dir)
    requires RemoveRun(t, entries, 0) == Some(u)
    ensures p in u && dir < p
  {
    hide ValidTree, RemoveRun, Reread, Shown, IsNode;
    var q :| q in t && dir < q && !Rereads(q);
    assert Listed(entries, q);
    var j :| 0 <= j < |entries| && entries[j].names == q;
    var k := LongestUnread(entries, |entries|);
    p := entries[k].names;
    EntryIsProper(t, dir, entries, k);
    RunOnlyRemoves(t, entries, 0, u);
    NothingIsTakenForIt(t, dir, entries, k);
  }

  lemma NothingIsTakenForIt(t: Tree, dir: Names, entries: seq<Entry>, k: nat)
    requires ValidTree(t) && ROOT_NAMES <= dir && Subtree(t, dir, entries) && k < |entries| && !Rereads(entries[k].names)
    requires forall j :: 0 <= j < |entries| && !Rereads(entries[j].names) ==>
               |Shown(entries[j].names)| <= |Shown(entries[k].names)|
    ensures forall j :: 0 <= j < |entries| ==> Reread(entries[j].names) != Some(entries[k].names)
  {
    hide ValidTree, Reread, Shown, IsNode;
    EntryIsProper(t, dir, entries, k);
    forall j | 0 <= j < |entries| ensures Reread(entries[j].names) != Some(entries[k].names) {
      EntryIsProper(t, dir, entries, j);
      if Reread(entries[j].names) == Some(entries[k].names) && entries[j].names != entries[k].names {
        RereadIsShorter(t, dir, entries[j].names, entries[k].names);
      }
    }
  }

  lemma {:induction false} LongestUnread(entries: seq<Entry>, n: nat) returns (k: nat)
    requires n <= |entries| && exists j :: 0 <= j < n && !Rereads(entries[j].names)
    ensures k < n && !Rereads(entries[k].names)
    ensures forall j :: 0 <= j < n && !Rereads(entries[j].names) ==> |Shown(entries[j].names)| <= |Shown(entries[k].names)|
  {
    hide Rereads, Shown;
    if exists j :: 0 <= j < n - 1 && !Rereads(entries[j].names) {
      k := LongestUnread(entries, n - 1);
      if !Rereads(entries[n - 1].names) && |Shown(entries[k].names)| < |Shown(entries[n - 1].names)| {
        k := n - 1;
      }
    } else {
      k := n - 1;
    }
  }

  /** A path taken for another one below the directory has the longer text. */
  lemma RereadIsShorter(t: Tree, dir: Names, n: Names, p: Names)
    requires ValidTree(t) && ROOT_NAMES <= dir && n in t && dir < n && dir < p && Reread(n) == Some(p) && n != p
    ensures |Shown(p)| < |Shown(n)|
  {
    hide Resolve, Join, Clean, DisplayFromGuest, Plain, Split, Normal, Root, Shown;
    var rel := n[|ROOT_NAMES|..];
    assert n == Inside(rel) && AllPlain(n);
    PlainTail(n, |ROOT_NAMES|);
    ResolvedIsShorter(rel, p);
  }

  lemma ResolvedIsShorter(rel: Names, p: Names)
    requires AllPlain(rel) && rel != [] && Reread(Inside(rel)) == Some(p) && p != Inside(rel) && ROOT_NAMES < p
    ensures |Shown(p)| < |Shown(Inside(rel))|
  {
    hide Join, Clean, DisplayFromGuest, Plain, Split, Normal, Root, TrimSpace, Resolve, HasLineBreakOrNul;
    BelowText(rel);
    RereadsExactly(rel);
    var names := AcceptedIsConfined(Shown(Inside(rel)));
    BelowText(names);
    NamesOfRooted(Inside(names));
    assert p == Inside(names);
    ProperNames(names);
    ResolvedText(Join(rel), names);
  }

  lemma ProperNames(names: Names)
    requires ROOT_NAMES < Inside(names)
    ensures names != []
  {
    InsideNothing();
  }

  lemma ResolvedText(text: string, names: Names)
    requires AllPlain(names) && names != [] && Resolve(text) == Some(Below(names))
    requires TrimSpace(text) != text || HasLineBreakOrNul(text)
    ensures |Join(names)| < |text|
  {
    hide Join, Clean, DisplayFromGuest, Plain, TrimSpace, HasLineBreakOrNul, Root;
    BelowText(names);
    var trimmed := TrimSpace(text);
    TrimSpaceShortens(text);
    assert trimmed != "" && GuestOf(trimmed) == Some(Below(names).guest);
    GuestIsNoLonger(trimmed, names);
  }

  lemma GuestIsNoLonger(value: string, names: Names)
    requires AllPlain(names) && names != [] && value != "" && GuestOf(value) == Some(Below(names).guest)
    ensures |Join(names)| <= |value|
  {
    hide Join, Clean, DisplayFromGuest, Plain, Root;
    BelowText(names);
    CleanIsNoLonger(value);
    CleanIsNoLonger(Root() + "/" + Clean(value));
  }

  // --------------------------------------------------------------- mkdir -p

  /** The tree with every missing directory on the way to `names`, up to length `k`. */
  ghost predicate DirsMade(t: Tree, now: Tree, names: Names, k: nat) {
    && (forall p :: p in t ==> p in now && now[p] == t[p])
    && (forall p :: p in now && p !in t ==> p <= names && |p| <= k && now[p].Directory?)
    && (forall j :: 0 <= j <= k && j <= |names| ==> names[..j] in now)
  }

  lemma NoDirsYet(t: Tree, names: Names)
    requires ValidTree(t)
    ensures DirsMade(t, t, names, 0)
  {
    assert names[..0] == [];
  }

  lemma OneMoreDir(t: Tree, now: Tree, names: Names, k: nat)
    requires DirsMade(t, now, names, k) && k < |names|
    ensures names[..k + 1] in now ==> DirsMade(t, now, names, k + 1)
    ensures names[..k + 1] !in now ==> DirsMade(t, now[names[..k + 1] := Directory], names, k + 1)
  {
    var p := names[..k + 1];
    assert p <= names && |p| == k + 1;
  }

  lemma PlainPrefix(names: Names, k: nat)
    requires AllPlain(names) && k <= |names|
    ensures AllPlain(names[..k])
  {
  }

  /** ext4EnsureDirectory: each missing directory is made, from the top down. */
  method EnsureDirectory(image: Ext4Image, names: Names) returns (status: Status)
    requires image.Valid() && AllPlain(names)
    modifies image`tree
    ensures image.Valid()
    ensures exists k: nat :: k <= |names| && DirsMade(old(image.tree), image.tree, names, k)
    ensures status.Done? ==> DirsMade(old(image.tree), image.tree, names, |names|)
  {
    hide ValidTree, DirsMade, Plain;
    ghost var t := image.tree;
    NoDirsYet(t, names);
    status := Done;
    var i := 0;
    while i < |names| && status.Done?
      invariant 0 <= i <= |names| && image.Valid()
      invariant exists k: nat :: k <= |names| && DirsMade(t, image.tree, names, k)
      invariant status.Done? ==> DirsMade(t, image.tree, names, i)
    {
      var current := names[..i + 1];
      var directory;
      OneMoreDir(t, image.tree, names, i);
      PlainPrefix(names, i + 1);
      status, directory := StatRaw(image, current);
      if status.NotFound? {
        status := image.MakeDir(current);
      }
      i := i + 1;
    }
  }

  // ------------------------------------------------------------- the write

  /** Nothing but directories on the way to `target` has come. */
  ghost predicate OnlyDirsAdded(t: Tree, now: Tree, target: Names) {
    && (forall p :: p in t ==> p in now && now[p] == t[p])
    && (forall p :: p in now && p !in t ==> p < target && now[p].Directory?)
  }

  lemma DirsMadeAreAdded(t: Tree, now: Tree, after: Tree, names: Names, k: nat, target: Names)
    requires OnlyDirsAdded(t, now, target) && DirsMade(now, after, names, k) && names < target
    ensures OnlyDirsAdded(t, after, target)
  {
    forall p | p in after && p !in t ensures p < target && after[p].Directory? {
      if p !in now {
        assert p <= names;
      }
    }
  }

  /** ensureOfflineWorkspaceRoot. */
  method EnsureRoot(image: Ext4Image, ghost target: Names) returns (status: Status)
    requires image.Valid() && ROOT_NAMES < target
    modifies image`tree
    ensures image.Valid() && OnlyDirsAdded(old(image.tree), image.tree, target)
    ensures status.Done? ==> IsDir(image.tree, ROOT_NAMES)
  {
    hide ValidTree, DirsMade, Plain, Root, OnlyDirsAdded;
    RootIsPlain();
    ghost var t := image.tree;
    NoDirsAdded(t, target);
    var directory;
    status, directory := StatRaw(image, ROOT_NAMES);
    if status.Done? && !directory {
      status := Conflict;
    } else if status.NotFound? {
      status := EnsureDirectory(image, ROOT_NAMES);
      ghost var k: nat :| k <= |ROOT_NAMES| && DirsMade(t, image.tree, ROOT_NAMES, k);
      DirsMadeAreAdded(t, t, image.tree, ROOT_NAMES, k, target);
      if status.Done? {
        LastDirMade(t, image.tree, ROOT_NAMES);
      }
    }
  }

  lemma NoDirsAdded(t: Tree, target: Names)
    ensures OnlyDirsAdded(t, t, target)
  {
  }

  lemma LastDirMade(t: Tree, now: Tree, names: Names)
    requires DirsMade(t, now, names, |names|)
    ensures names in now && (names !in t ==> now[names].Directory?)
  {
    assert names[..|names|] == names;
  }

  /** ext4WriteFile: the workspace root, the directories above the file, and then
      the file, which may replace another one. */
  method WriteFile(image: Ext4Image, target: Names, data: seq<byte>) returns (status: Status, ghost made: Tree)
    requires image.Valid() && AllPlain(target) && ROOT_NAMES <= target
    modifies image`tree
    ensures image.Valid() && OnlyDirsAdded(old(image.tree), made, target)
    ensures image.tree == if status.Done? then made[target := File(data)] else made
    ensures status.Done? ==> target != ROOT_NAMES && !IsDir(made, target)
  {
    hide ValidTree, DirsMade, Plain, OnlyDirsAdded, ROOT_NAMES;
    made := image.tree;
    NoDirsAdded(made, target);
    status := Conflict;
    if target != ROOT_NAMES {
      TargetIsBelow(target);
      status := EnsureRoot(image, target);
      ghost var now := image.tree;
      made := now;
      if status.Done? {
        var parent := target[..|target| - 1];
        PlainPrefix(target, |target| - 1);
        status := EnsureDirectory(image, parent);
        ghost var k: nat :| k <= |parent| && DirsMade(now, image.tree, parent, k);
        DirsMadeAreAdded(old(image.tree), now, image.tree, parent, k, target);
        made := image.tree;
        if status.Done? {
          status := image.PutFile(target, data);
        }
      }
    }
  }

  lemma TargetIsBelow(target: Names)
    requires ROOT_NAMES <= target && target != ROOT_NAMES
    ensures ROOT_NAMES < target && target != [] && target[..|target| - 1] < target
  {
    PrefixOrSame(ROOT_NAMES, target);
  }

  // -------------------------------------------------------------- the move

  /** The tree with `from` renamed to `to`, and the directories this needs. */
  ghost predicate Renamed(t: Tree, now: Tree, from: Names, to: Names) {
    && (forall p :: p in t && !(from <= p) ==> p in now && now[p] == t[p])
    && (forall p :: p in t && from <= p ==> to + p[|from|..] in now && now[to + p[|from|..]] == t[p])
    && (forall p :: p in now ==> !(from <= p))
    && (forall p :: p in now && to <= p ==> from + p[|to|..] in t && now[p] == t[from + p[|to|..]])
    && (forall p :: p in now && p !in t && !(to <= p) ==> p < to && now[p].Directory?)
  }

  /** No copy lands inside the source. */
  ghost predicate LandsOutside(t: Tree, from: Names, to: Names) {
    forall p :: p in t && from <= p ==> !(from <= to + p[|from|..])
  }

  /** What is at the target already, and stays, is what is moved there. */
  ghost predicate Agrees(t: Tree, from: Names, to: Names) {
    forall p :: p in t && to <= p && !(from <= p) ==> from + p[|to|..] in t && t[p] == t[from + p[|to|..]]
  }

  /** What a move needs to be a rename; both can be seen before it. */
  ghost predicate Fits(t: Tree, from: Names, to: Names) {
    LandsOutside(t, from, to) && Agrees(t, from, to)
  }

  /** It needs no less. */
  lemma RenamedFits(t: Tree, now: Tree, from: Names, to: Names)
    requires Renamed(t, now, from, to)
    ensures Fits(t, from, to)
  {
  }

  /** A free target outside the source always fits. */
  lemma FreeTargetFits(t: Tree, from: Names, to: Names)
    requires ValidTree(t) && !(from <= to) && !(to <= from) && to !in t
    ensures Fits(t, from, to)
  {
    hide ValidTree;
    forall p | p in t && from <= p ensures !(from <= to + p[|from|..]) {
      if from <= to + p[|from|..] {
        ComparablePrefixes(from, to, to + p[|from|..]);
      }
    }
    forall p | p in t && to <= p ensures false {
      PrefixOrSame(to, p);
      AncestorIsDir(t, to, p);
    }
  }

  lemma ComparablePrefixes(a: Names, b: Names, p: Names)
    requires a <= p && b <= p
    ensures a <= b || b <= a
  {
  }

  /** While copying: nothing old is touched, and everything new is a copy or a
      directory on the way to one. */
  ghost predicate Copying(t: Tree, now: Tree, from: Names, to: Names) {
    && (forall p :: p in t ==> p in now && now[p] == t[p])
    && (forall p :: p in now && p !in t ==> IsCopy(t, now, from, to, p) || (p < to && now[p].Directory?))
  }

  ghost predicate IsCopy(t: Tree, now: Tree, from: Names, to: Names, p: Names)
    requires p in now
  {
    to <= p && from + p[|to|..] in t && now[p] == t[from + p[|to|..]]
  }

  /** The first `i` listed paths have their copies. */
  ghost predicate CopiedUpTo(now: Tree, from: Names, to: Names, entries: seq<Entry>, i: nat) {
    forall k :: 0 <= k < i && k < |entries| && from <= entries[k].names ==> to + entries[k].names[|from|..] in now
  }

  ghost predicate Movable(t: Tree, from: Names, to: Names) {
    ValidTree(t) && from in t && !(from <= to) && Fits(t, from, to)
  }

  lemma NothingCopied(t: Tree, from: Names, to: Names)
    ensures Copying(t, t, from, to)
  {
  }

  /** mkdir -p of a copied directory. */
  lemma DirsAreCopies(t: Tree, now: Tree, after: Tree, from: Names, to: Names, dir: Names, k: nat)
    requires ValidTree(t) && Copying(t, now, from, to) && DirsMade(now, after, dir, k)
    requires to <= dir && IsDir(t, from + dir[|to|..])
    ensures Copying(t, after, from, to)
  {
    forall p | p in after && p !in t
      ensures IsCopy(t, after, from, to, p) || (p < to && after[p].Directory?)
    {
      if p in now {
        assert IsCopy(t, now, from, to, p) || (p < to && now[p].Directory?);
      } else if to <= p {
        DirOnTheWay(t, from, to, p, dir);
      } else {
        ComparablePrefixes(p, to, dir);
      }
    }
  }

  /** A directory between `to` and a copied directory mirrors one of the source. */
  lemma DirOnTheWay(t: Tree, from: Names, to: Names, p: Names, dir: Names)
    requires ValidTree(t) && to <= p <= dir && IsDir(t, from + dir[|to|..])
    ensures IsDir(t, from + p[|to|..])
  {
    var a, b := from + p[|to|..], from + dir[|to|..];
    assert a <= b;
    if a != b {
      AncestorIsDir(t, a, b);
    }
  }

  /** The directories above a copied file. */
  lemma DirsAboveCopy(t: Tree, now: Tree, after: Tree, from: Names, to: Names, rest: Names)
    requires ValidTree(t) && Copying(t, now, from, to) && OnlyDirsAdded(now, after, to + rest)
    requires from + rest in t
    ensures Copying(t, after, from, to)
  {
    forall p | p in after && p !in t
      ensures IsCopy(t, after, from, to, p) || (p < to && after[p].Directory?)
    {
      if p in now {
        assert IsCopy(t, now, from, to, p) || (p < to && now[p].Directory?);
      } else if to <= p {
        assert p < to + rest;
        assert from + p[|to|..] < from + rest;
        AncestorIsDir(t, from + p[|to|..], from + rest);
      } else {
        ComparablePrefixes(p, to, to + rest);
      }
    }
  }

  lemma PutIsCopy(t: Tree, now: Tree, from: Names, to: Names, rest: Names)
    requires Movable(t, from, to) && Copying(t, now, from, to) && from + rest in t
    ensures Copying(t, now[to + rest := t[from + rest]], from, to)
  {
    hide ValidTree;
    var p := to + rest;
    assert p[|to|..] == rest && (from + rest)[|from|..] == rest;
    assert from <= from + rest && !(from <= p);
    var after := now[p := t[from + rest]];
    forall q | q in after && q !in t
      ensures IsCopy(t, after, from, to, q) || (q < to && after[q].Directory?)
    {
      if q != p {
        assert IsCopy(t, now, from, to, q) || (q < to && now[q].Directory?);
      }
    }
  }

  /** The path of a copy under the target: the source's name is trimmed off the
      path read, if it stands in front, and an unreadable one leaves nothing. */
  function MovedRest(from: Names, child: Option<Names>): Names {
    match child
    case None => []
    case Some(q) => if from < q then q[|from|..] else q
  }

  lemma RestIsPlain(from: Names, names: Names)
    ensures AllPlain(MovedRest(from, Reread(names)))
    ensures Reread(names).Some? ==> ROOT_NAMES <= Reread(names).value
  {
    hide Resolve, Join, Clean, DisplayFromGuest, Plain, Split, Normal, Root, Shown;
    if Resolve(Shown(names)).Some? {
      var rel := AcceptedIsConfined(Shown(names));
      BelowText(rel);
      NamesOfRooted(Inside(rel));
      PlainTail(Inside(rel), if from < Inside(rel) then |from| else 0);
    }
  }

  lemma PlainConcat(a: Names, b: Names)
    requires AllPlain(a) && AllPlain(b)
    ensures AllPlain(a + b)
  {
    hide Plain;
  }

  /** One round of the copying loop. What it does to a source that rereads and
      fits is said for `good` ones; of others, that nothing goes away. */
  method CopyEntry(image: Ext4Image, ghost t: Tree, from: Names, to: Names, e: Entry, ghost good: bool)
    returns (status: Status)
    requires image.Valid() && AllPlain(to) && ROOT_NAMES <= to
    requires good ==> Movable(t, from, to) && Copying(t, image.tree, from, to)
    requires good ==> from < e.names && IsNode(t, e) && Rereads(e.names)
    modifies image`tree
    ensures image.Valid() && old(image.tree).Keys <= image.tree.Keys
    ensures good ==> Copying(t, image.tree, from, to)
    ensures good && status.Done? ==> to + e.names[|from|..] in image.tree
  {
    hide ValidTree, Copying, Movable, DirsMade, AllPlain, Reread, MovedRest, OnlyDirsAdded, ROOT_NAMES;
    var child := Reread(e.names);
    var target := to + MovedRest(from, child);
    ghost var now := image.tree;
    RestIsPlain(from, e.names);
    PlainConcat(to, MovedRest(from, child));
    if good {
      CopiedNames(t, from, to, e);
    }
    if e.directory {
      status := EnsureDirectory(image, target);
      ghost var k: nat :| k <= |target| && DirsMade(now, image.tree, target, k);
      DirsOnlyAdd(now, image.tree, target, k);
      if good {
        DirsAreCopies(t, now, image.tree, from, to, target, k);
      }
      if status.Done? {
        LastDirMade(now, image.tree, target);
      }
    } else if child.None? || child.value == ROOT_NAMES {
      status := Fault;
    } else {
      status := CopyFile(image, t, from, to, child.value, target, good);
    }
  }

  /** ext4ReadFile and ext4WriteFile. */
  method CopyFile(image: Ext4Image, ghost t: Tree, ghost from: Names, ghost to: Names, source: Names, target: Names,
                  ghost good: bool)
    returns (status: Status)
    requires image.Valid() && AllPlain(target) && ROOT_NAMES <= target
    requires good ==> Movable(t, from, to) && Copying(t, image.tree, from, to)
    requires good ==> from <= source && source in t && target == to + source[|from|..]
    modifies image`tree
    ensures image.Valid() && old(image.tree).Keys <= image.tree.Keys
    ensures good ==> Copying(t, image.tree, from, to)
    ensures status.Done? ==> target in image.tree
  {
    hide ValidTree, Copying, Movable, Plain, OnlyDirsAdded, ROOT_NAMES;
    ghost var now := image.tree;
    var data;
    status, data := image.Cat(source);
    if status.Done? {
      ghost var made;
      status, made := WriteFile(image, target, data);
      FilesOnlyAdd(now, made, target);
      if good {
        ghost var rest := source[|from|..];
        assert from + rest == source;
        StillTheSource(t, now, from, to, source);
        MovableIsTree(t, from, to);
        DirsAboveCopy(t, now, made, from, to, rest);
        PutIsCopy(t, made, from, to, rest);
      }
    }
  }

  lemma MovableIsTree(t: Tree, from: Names, to: Names)
    requires Movable(t, from, to)
    ensures ValidTree(t) && from in t && !(from <= to)
  {
  }

  lemma FilesOnlyAdd(t: Tree, now: Tree, target: Names)
    requires OnlyDirsAdded(t, now, target)
    ensures t.Keys <= now.Keys
  {
  }

  lemma DirsOnlyAdd(t: Tree, now: Tree, names: Names, k: nat)
    requires DirsMade(t, now, names, k)
    ensures t.Keys <= now.Keys
  {
  }

  lemma CopiedNames(t: Tree, from: Names, to: Names, e: Entry)
    requires Movable(t, from, to) && from < e.names && IsNode(t, e) && Rereads(e.names)
    ensures var rest := e.names[|from|..];
            && ValidTree(t)
            && from + rest == e.names
            && MovedRest(from, Reread(e.names)) == rest
            && to <= to + rest
            && (to + rest)[|to|..] == rest
            && (e.directory ==> IsDir(t, from + rest))
  {
    hide Reread, ValidTree, Fits;
  }

  lemma StillTheSource(t: Tree, now: Tree, from: Names, to: Names, p: Names)
    requires Copying(t, now, from, to) && p in t
    ensures p in now && now[p] == t[p]
  {
  }

  /** The texts the move computes are those of the renamed paths: the prefix it
      trims off and the path it joins. */
  lemma MovedText(from: Names, to: Names, rest: Names)
    requires AllPlain(from + rest) && AllPlain(to + rest) && from != [] && to != [] && rest != []
    ensures Rooted(from) + "/" <= Rooted(from + rest)
    ensures Clean(Rooted(to) + "/" + Rooted(from + rest)[|Rooted(from) + "/"|..]) == Rooted(to + rest)
  {
    hide Join, Plain, Clean;
    RootedConcat(from, rest);
    RootedConcat(to, rest);
    assert Rooted(from + rest)[|Rooted(from) + "/"|..] == Join(rest);
    CleanRooted(to + rest);
  }

  /** And where the path read is not below the source, its whole text is joined on. */
  lemma ElsewhereText(to: Names, q: Names)
    requires AllPlain(to) && AllPlain(q) && to != [] && q != []
    ensures Clean(Rooted(to) + "/" + Rooted(q)) == Rooted(to + q)
  {
    hide Join, Plain, Split;
    var parts := to + [""] + q;
    var s := Rooted(to) + "/" + Rooted(q);
    JoinConcat(to, [""] + q);
    JoinConcat([""], q);
    EmptyPart();
    assert to + ([""] + q) == parts;
    assert s[1..] == Join(parts);
    PlainHasNoSlashes(to);
    PlainHasNoSlashes(q);
    SplitJoin(parts);
    DroppedPart(to, q);
  }

  lemma EmptyPart()
    ensures Join([""]) == ""
  {
  }

  lemma DroppedPart(to: Names, q: Names)
    requires AllPlain(to) && AllPlain(q)
    ensures Normal(true, [], to + [""] + q) == to + q
  {
    hide Plain;
    NormalConcat([], to, [""] + q);
    assert to + ([""] + q) == to + [""] + q;
    PlainStays(true, [], to);
    assert [] + to == to;
    assert ([""] + q)[1..] == q;
    PlainStays(true, to, q);
  }

  lemma {:induction false} NormalConcat(kept: Names, a: Names, b: Names)
    ensures Normal(true, kept, a + b) == Normal(true, Normal(true, kept, a), b)
    decreases |a|
  {
    if a == [] {
      assert a + b == b;
    } else {
      assert (a + b)[1..] == a[1..] + b;
      NormalConcat(Push(true, kept, a[0]), a[1..], b);
    }
  }

  // ------------------------------------------------------------- pathDepth

  function TrimSlashes(s: string): string {
    if s != "" && s[0] == '/' then TrimSlashes(s[1..])
    else if s != "" && s[|s| - 1] == '/' then TrimSlashes(s[..|s| - 1])
    else s
  }

  function CountSlashes(s: string): nat {
    if s == "" then 0 else (if s[0] == '/' then 1 else 0) + CountSlashes(s[1..])
  }

  function PathDepth(value: string): nat {
    var trimmed := TrimSlashes(value);
    if trimmed == "" then 0 else CountSlashes(trimmed) + 1
  }

  lemma {:induction false} SlashesOfConcat(a: string, b: string)
    ensures CountSlashes(a + b) == CountSlashes(a) + CountSlashes(b)
  {
    if a == "" {
      assert a + b == b;
    } else {
      assert (a + b)[1..] == a[1..] + b;
      SlashesOfConcat(a[1..], b);
    }
  }

  lemma {:induction false} NoSlashesCounted(s: string)
    requires NoSlash(s)
    ensures CountSlashes(s) == 0
  {
    if s != "" {
      assert NoSlash(s[1..]);
      NoSlashesCounted(s[1..]);
    }
  }

  lemma {:induction false} SlashesOfJoin(names: Names)
    requires AllPlain(names) && names != []
    ensures CountSlashes(Join(names)) == |names| - 1
    ensures Join(names) != "" && Join(names)[|Join(names)| - 1] != '/'
  {
    assert Plain(names[0]);
    NoSlashesCounted(names[0]);
    if |names| > 1 {
      var rest := names[1..];
      assert AllPlain(rest);
      SlashesOfJoin(rest);
      SlashesOfConcat(names[0] + "/", Join(rest));
      SlashesOfConcat(names[0], "/");
      assert CountSlashes("/") == 1;
    }
  }

  /** The depth of a shown path is its number of names. */
  lemma DepthIsLength(names: Names)
    requires AllPlain(names)
    ensures PathDepth(Join(names)) == |names|
  {
    PlainJoinIsNotEmpty(names);
    if names != [] {
      SlashesOfJoin(names);
      assert TrimSlashes(Join(names)) == Join(names);
    }
  }

  method SortByDepth(entries: seq<Entry>) returns (sorted: seq<Entry>)
    ensures multiset(sorted) == multiset(entries) && ByDepth(sorted)
  {
    hide PathDepth, Shown;
    sorted := [];
    var n := 0;
    while n < |entries|
      invariant 0 <= n <= |entries| && multiset(sorted) == multiset(entries[..n]) && ByDepth(sorted)
    {
      sorted := InsertByDepth(sorted, entries[n]);
      assert entries[..n + 1] == entries[..n] + [entries[n]];
      n := n + 1;
    }
    assert entries[..n] == entries;
  }

  ghost predicate ByDepth(entries: seq<Entry>) {
    forall i, j :: 0 <= i < j < |entries| ==> PathDepth(Shown(entries[i].names)) <= PathDepth(Shown(entries[j].names))
  }

  method InsertByDepth(entries: seq<Entry>, e: Entry) returns (inserted: seq<Entry>)
    requires ByDepth(entries)
    ensures multiset(inserted) == multiset(entries) + multiset{e} && ByDepth(inserted)
  {
    hide PathDepth, Shown;
    var at := |entries|;
    while at > 0 && PathDepth(Shown(e.names)) < PathDepth(Shown(entries[at - 1].names))
      invariant 0 <= at <= |entries|
      invariant forall k :: at <= k < |entries| ==> PathDepth(Shown(e.names)) < PathDepth(Shown(entries[k].names))
    {
      at := at - 1;
    }
    InsertedByDepth(entries, e, at);
    inserted := entries[..at] + [e] + entries[at..];
    assert entries == entries[..at] + entries[at..];
  }

  lemma InsertedByDepth(entries: seq<Entry>, e: Entry, at: nat)
    requires ByDepth(entries) && at <= |entries|
    requires at > 0 ==> PathDepth(Shown(entries[at - 1].names)) <= PathDepth(Shown(e.names))
    requires forall k :: at <= k < |entries| ==> PathDepth(Shown(e.names)) < PathDepth(Shown(entries[k].names))
    ensures ByDepth(entries[..at] + [e] + entries[at..])
  {
    hide PathDepth, Shown;
    var inserted := entries[..at] + [e] + entries[at..];
    forall a | 0 <= a < at ensures PathDepth(Shown(entries[a].names)) <= PathDepth(Shown(e.names)) {
      assert a < at - 1 ==> PathDepth(Shown(entries[a].names)) <= PathDepth(Shown(entries[at - 1].names));
    }
    forall a, b | 0 <= a < b < |inserted|
      ensures PathDepth(Shown(inserted[a].names)) <= PathDepth(Shown(inserted[b].names))
    {
      assert inserted[a] == if a < at then entries[a] else if a == at then e else entries[a - 1];
      assert inserted[b] == if b < at then entries[b] else if b == at then e else entries[b - 1];
    }
  }

  // ------------------------------------------------------------- MovePath

  lemma SourceApart(t: Tree, now: Tree, from: Names, to: Names)
    requires Copying(t, now, from, to) && Movable(t, from, to)
    ensures forall p :: p in now && from <= p ==> p in t && now[p] == t[p]
    ensures AllReread(t, from) ==> AllReread(now, from)
  {
    hide Rereads, ValidTree, Agrees;
    forall p | p in now && from <= p ensures p in t {
      if to <= p && from + p[|to|..] in t {
        CopiesLandOutside(t, from, to, p);
      }
    }
  }

  lemma CopiesLandOutside(t: Tree, from: Names, to: Names, p: Names)
    requires LandsOutside(t, from, to) && to <= p && from + p[|to|..] in t
    ensures !(from <= p)
  {
    var q := from + p[|to|..];
    assert q[|from|..] == p[|to|..] && to + q[|from|..] == p;
  }

  /** Once everything is copied, removing the source leaves the rename. */
  lemma RemovingTheSource(t: Tree, now: Tree, from: Names, to: Names)
    requires Movable(t, from, to) && Copying(t, now, from, to)
    requires forall p :: p in t && from <= p ==> to + p[|from|..] in now
    ensures Renamed(t, WithoutTree(now, from), from, to)
  {
    hide ValidTree;
    var after := WithoutTree(now, from);
    forall p | p in t && from <= p
      ensures to + p[|from|..] in after && after[to + p[|from|..]] == t[p]
    {
      CopyOf(t, now, from, to, p);
    }
    forall p | p in after && to <= p
      ensures from + p[|to|..] in t && now[p] == t[from + p[|to|..]]
    {
      assert p !in t ==> IsCopy(t, now, from, to, p);
    }
  }

  lemma CopyOf(t: Tree, now: Tree, from: Names, to: Names, p: Names)
    requires Movable(t, from, to) && Copying(t, now, from, to) && from <= p && p in t
    requires to + p[|from|..] in now
    ensures now[to + p[|from|..]] == t[p] && !(from <= to + p[|from|..])
  {
    hide ValidTree;
    var q := to + p[|from|..];
    assert to <= q && q[|to|..] == p[|from|..];
    assert from + q[|to|..] == p;
    assert q !in t ==> IsCopy(t, now, from, to, q);
  }

  /** No file is lost: it is where it was, or where it was to go. */
  ghost predicate NothingLost(t: Tree, now: Tree, from: Names, to: Names) {
    forall p :: p in t ==>
      || (p in now && now[p] == t[p])
      || (from <= p && to + p[|from|..] in now && now[to + p[|from|..]] == t[p])
  }

  lemma CopyingLosesNothing(t: Tree, now: Tree, from: Names, to: Names)
    requires Copying(t, now, from, to)
    ensures NothingLost(t, now, from, to)
  {
  }

  lemma RemovingLosesNothing(t: Tree, now: Tree, after: Tree, from: Names, to: Names)
    requires Movable(t, from, to) && Copying(t, now, from, to) && OnlyBelowGone(now, after, from)
    requires forall p :: p in t && from <= p ==> to + p[|from|..] in now
    ensures NothingLost(t, after, from, to)
  {
    hide ValidTree;
    forall p | p in t && from <= p
      ensures to + p[|from|..] in after && after[to + p[|from|..]] == t[p]
    {
      CopyOf(t, now, from, to, p);
    }
  }

  /** The checks of the call, on the texts it compares. */
  lemma GuardsArePrefix(relFrom: Names, relTo: Names)
    requires AllPlain(relFrom) && AllPlain(relTo)
    ensures relFrom == [] || relFrom == relTo || Contains(Below(relFrom).guest, Below(relTo).guest) <==>
              Inside(relFrom) <= Inside(relTo)
  {
    hide Plain, Contains, Join;
    ContainsIsStrictPrefix(relFrom, relTo);
    var a, b := Inside(relFrom), Inside(relTo);
    assert a[|ROOT_NAMES|..] == relFrom && b[|ROOT_NAMES|..] == relTo;
    if relFrom <= relTo {
      assert b == a + relTo[|relFrom|..];
    }
    if a <= b {
      assert relTo == relFrom + b[|a|..];
    }
    PrefixOrSame(relFrom, relTo);
  }

  /** Nothing is left under the old name. */
  ghost predicate MovedAway(now: Tree, from: Names) {
    forall p :: p in now ==> !(from <= p)
  }

  /** ext4MovePath. A move that succeeds had a source whose paths reread, leaves
      nothing of it behind, and is a rename of the tree exactly if the target fits.
      With such a source and target, one that is cut off anywhere loses nothing. */
  method MovePath(image: Ext4Image, relFrom: Names, relTo: Names) returns (status: Status)
    requires image.Valid() && AllPlain(relFrom) && AllPlain(relTo)
    modifies image
    ensures image.Valid()
    ensures Inside(relFrom) <= Inside(relTo) ==> !status.Done? && image.tree == old(image.tree)
    ensures status.Done? ==>
              && Inside(relFrom) in old(image.tree)
              && AllReread(old(image.tree), Inside(relFrom))
              && MovedAway(image.tree, Inside(relFrom))
    ensures status.Done? ==>
              (Renamed(old(image.tree), image.tree, Inside(relFrom), Inside(relTo)) <==>
               Fits(old(image.tree), Inside(relFrom), Inside(relTo)))
    ensures AllReread(old(image.tree), Inside(relFrom)) && Fits(old(image.tree), Inside(relFrom), Inside(relTo)) ==>
              && image.refused == old(image.refused)
              && NothingLost(old(image.tree), image.tree, Inside(relFrom), Inside(relTo))
  {
    hide ValidTree, Copying, Contains, NothingLost, Renamed, AllReread, Rereads, AllPlain, Fits, MovedAway;
    ghost var t := image.tree;
    NothingCopied(t, Inside(relFrom), Inside(relTo));
    CopyingLosesNothing(t, t, Inside(relFrom), Inside(relTo));
    GuardsArePrefix(relFrom, relTo);
    status := Conflict;
    if relFrom != [] && relFrom != relTo && !Contains(Below(relFrom).guest, Below(relTo).guest) {
      var directory;
      status, directory := StatRaw(image, Inside(relFrom));
      if status.Done? {
        TargetIsPlain(relTo);
        if directory {
          status := MoveDirectory(image, relFrom, relTo);
        } else {
          status := MoveFile(image, relFrom, relTo);
        }
        if status.Done? && Renamed(t, image.tree, Inside(relFrom), Inside(relTo)) {
          RenamedFits(t, image.tree, Inside(relFrom), Inside(relTo));
        }
      }
    }
  }

  lemma TargetIsPlain(relTo: Names)
    requires AllPlain(relTo)
    ensures AllPlain(Inside(relTo)) && ROOT_NAMES <= Inside(relTo)
  {
    hide Join, Clean, Root;
    BelowText(relTo);
  }

  /** What MoveFile and MoveDirectory achieve. */
  ghost predicate Moved(status: Status, t: Tree, now: Tree, from: Names, to: Names) {
    && (status.Done? ==> AllReread(t, from) && MovedAway(now, from))
    && (AllReread(t, from) && Fits(t, from, to) ==> NothingLost(t, now, from, to))
    && (status.Done? && Fits(t, from, to) ==> Renamed(t, now, from, to))
  }

  lemma NotYetMoved(status: Status, t: Tree, now: Tree, from: Names, to: Names)
    requires !status.Done? && (AllReread(t, from) && Fits(t, from, to) ==> Copying(t, now, from, to))
    ensures Moved(status, t, now, from, to)
  {
    hide AllReread, Fits;
  }

  method MoveFile(image: Ext4Image, relFrom: Names, relTo: Names) returns (status: Status)
    requires image.Valid() && relFrom != [] && Inside(relFrom) in image.tree && image.tree[Inside(relFrom)].File?
    requires !(Inside(relFrom) <= Inside(relTo)) && ROOT_NAMES <= Inside(relTo) && AllPlain(Inside(relTo))
    modifies image
    ensures image.Valid() && Moved(status, old(image.tree), image.tree, Inside(relFrom), Inside(relTo))
    ensures AllReread(old(image.tree), Inside(relFrom)) && Fits(old(image.tree), Inside(relFrom), Inside(relTo)) ==>
              image.refused == old(image.refused)
  {
    hide ValidTree, Copying, AllReread, Rereads, AllPlain, Fits, Moved;
    var from, to := Inside(relFrom), Inside(relTo);
    ghost var t := image.tree;
    ghost var good := AllReread(t, from) && Fits(t, from, to);
    NothingCopied(t, from, to);
    assert to + from[|from|..] == to;
    status := CopyFile(image, t, from, to, from, to, good);
    if status.Done? {
      OnlyTheFile(t, image.tree, from, to);
      status := RemoveSource(image, t, relFrom, to, false, good);
    } else {
      NotYetMoved(status, t, image.tree, from, to);
    }
  }

  lemma OnlyTheFile(t: Tree, now: Tree, from: Names, to: Names)
    requires ValidTree(t) && from in t && t[from].File? && to in now
    ensures forall p :: p in t && from <= p ==> to + p[|from|..] in now
  {
    forall p | p in t && from <= p ensures p == from {
      PrefixOrSame(from, p);
      if from < p {
        AncestorIsDir(t, from, p);
      }
    }
    assert from[|from|..] == [] && to + [] == to;
  }

  /** The removal that ends a move. */
  method RemoveSource(image: Ext4Image, ghost t: Tree, relFrom: Names, ghost to: Names, recursive: bool, ghost good: bool)
    returns (status: Status)
    requires image.Valid() && relFrom != [] && t.Keys <= image.tree.Keys
    requires good <==> AllReread(t, Inside(relFrom)) && Fits(t, Inside(relFrom), to)
    requires good ==> Movable(t, Inside(relFrom), to) && Copying(t, image.tree, Inside(relFrom), to)
    requires good ==> forall p :: p in t && Inside(relFrom) <= p ==> to + p[|Inside(relFrom)|..] in image.tree
    modifies image
    ensures image.Valid() && Moved(status, t, image.tree, Inside(relFrom), to)
    ensures good ==> image.refused == old(image.refused)
  {
    hide ValidTree, Copying, AllReread, Rereads, OnlyRereadGone, WithoutTree, Fits, Movable, Moved, ROOT_NAMES;
    ghost var now := image.tree;
    if good {
      SourceApart(t, now, Inside(relFrom), to);
    }
    status := RemovePath(image, relFrom, recursive);
    SourceRemoved(status, t, now, image.tree, Inside(relFrom), to, good);
  }

  lemma SourceRemoved(status: Status, t: Tree, now: Tree, after: Tree, from: Names, to: Names, good: bool)
    requires t.Keys <= now.Keys && (good <==> AllReread(t, from) && Fits(t, from, to))
    requires good ==> Movable(t, from, to) && Copying(t, now, from, to) && AllReread(now, from)
    requires good ==> forall p :: p in t && from <= p ==> to + p[|from|..] in now
    requires OnlyRereadGone(now, after, from)
    requires status.Done? ==> AllReread(now, from) && after == WithoutTree(now, from)
    ensures Moved(status, t, after, from, to)
  {
    hide Copying, Rereads, OnlyRereadGone, Fits, Movable, NothingLost, Renamed;
    if status.Done? {
      assert AllReread(t, from);
    }
    if good {
      RereadIsBelow(now, after, from);
      RemovingLosesNothing(t, now, after, from, to);
      RemovingTheSource(t, now, from, to);
    }
  }

  method MoveDirectory(image: Ext4Image, relFrom: Names, relTo: Names) returns (status: Status)
    requires image.Valid() && relFrom != [] && IsDir(image.tree, Inside(relFrom))
    requires !(Inside(relFrom) <= Inside(relTo)) && ROOT_NAMES <= Inside(relTo) && AllPlain(Inside(relTo))
    modifies image
    ensures image.Valid() && Moved(status, old(image.tree), image.tree, Inside(relFrom), Inside(relTo))
    ensures AllReread(old(image.tree), Inside(relFrom)) && Fits(old(image.tree), Inside(relFrom), Inside(relTo)) ==>
              image.refused == old(image.refused)
  {
    hide ValidTree, Copying, AllReread, Rereads, AllPlain, Fits, Moved, DirsMade, Subtree, ByShown, CopiedUpTo, ByDepth,
      IsNode;
    var from, to := Inside(relFrom), Inside(relTo);
    ghost var t := image.tree;
    ghost var good := AllReread(t, from) && Fits(t, from, to);
    NothingCopied(t, from, to);
    var entries;
    status, entries := ListRecursive(image, from);
    if status.Done? {
      status := MakeTarget(image, t, from, to);
      var sorted := SortByDepth(entries);
      PermutedSubtree(t, from, entries, sorted);
      if status.Done? {
        status := CopyEntries(image, t, from, to, sorted, good);
      }
      if status.Done? {
        if good {
          AllCopied(t, image.tree, from, to, sorted);
        }
        status := RemoveSource(image, t, relFrom, to, true, good);
        return;
      }
    }
    NotYetMoved(status, t, image.tree, from, to);
  }

  method MakeTarget(image: Ext4Image, ghost t: Tree, ghost from: Names, to: Names) returns (status: Status)
    requires image.Valid() && image.tree == t && IsDir(t, from) && AllPlain(to)
    modifies image`tree
    ensures image.Valid() && t.Keys <= image.tree.Keys && Copying(t, image.tree, from, to)
    ensures status.Done? ==> to in image.tree
  {
    hide ValidTree, Copying, DirsMade, AllPlain;
    NothingCopied(t, from, to);
    status := EnsureDirectory(image, to);
    ghost var k: nat :| k <= |to| && DirsMade(t, image.tree, to, k);
    assert to[|to|..] == [] && from + [] == from;
    DirsOnlyAdd(t, image.tree, to, k);
    DirsAreCopies(t, t, image.tree, from, to, to, k);
    if status.Done? {
      LastDirMade(t, image.tree, to);
    }
  }

  lemma EntryBelow(t: Tree, from: Names, entries: seq<Entry>, i: nat)
    requires Subtree(t, from, entries) && AllReread(t, from) && i < |entries|
    ensures from < entries[i].names && IsNode(t, entries[i]) && Rereads(entries[i].names)
  {
    hide Rereads;
    assert IsNode(t, entries[i]);
  }

  method CopyEntries(image: Ext4Image, ghost t: Tree, from: Names, to: Names, entries: seq<Entry>, ghost good: bool)
    returns (status: Status)
    requires image.Valid() && ROOT_NAMES <= to && AllPlain(to) && t.Keys <= image.tree.Keys && to in image.tree
    requires good ==> Movable(t, from, to) && Copying(t, image.tree, from, to)
    requires good ==> Subtree(t, from, entries) && AllReread(t, from)
    modifies image`tree
    ensures image.Valid() && t.Keys <= image.tree.Keys && to in image.tree
    ensures good ==> Copying(t, image.tree, from, to)
    ensures good && status.Done? ==> CopiedUpTo(image.tree, from, to, entries, |entries|)
  {
    hide ValidTree, Copying, Movable, Subtree, AllReread, Rereads, IsNode, CopiedUpTo, AllPlain;
    NoneCopied(image.tree, from, to, entries);
    status := Done;
    var i := 0;
    while i < |entries| && status.Done?
      invariant 0 <= i <= |entries| && image.Valid() && t.Keys <= image.tree.Keys && to in image.tree
      invariant good ==> Copying(t, image.tree, from, to)
      invariant good && status.Done? ==> CopiedUpTo(image.tree, from, to, entries, i)
    {
      ghost var now := image.tree;
      if good {
        EntryBelow(t, from, entries, i);
      }
      status := CopyEntry(image, t, from, to, entries[i], good);
      if good && status.Done? {
        OneMoreCopied(now, image.tree, from, to, entries, i);
      }
      i := i + 1;
    }
  }

  lemma NoneCopied(now: Tree, from: Names, to: Names, entries: seq<Entry>)
    ensures CopiedUpTo(now, from, to, entries, 0)
  {
  }

  lemma OneMoreCopied(now: Tree, after: Tree, from: Names, to: Names, entries: seq<Entry>, i: nat)
    requires CopiedUpTo(now, from, to, entries, i) && i < |entries| && from <= entries[i].names
    requires now.Keys <= after.Keys && to + entries[i].names[|from|..] in after
    ensures CopiedUpTo(after, from, to, entries, i + 1)
  {
  }

  lemma AllCopied(t: Tree, now: Tree, from: Names, to: Names, entries: seq<Entry>)
    requires Subtree(t, from, entries) && CopiedUpTo(now, from, to, entries, |entries|) && to in now
    ensures forall p :: p in t && from <= p ==> to + p[|from|..] in now
  {
    hide IsNode;
    forall p | p in t && from <= p ensures to + p[|from|..] in now {
      PrefixOrSame(from, p);
      if from < p {
        assert Listed(entries, p);
        var k :| 0 <= k < |entries| && entries[k].names == p;
      } else {
        assert p[|from|..] == [] && to + [] == to;
      }
    }
  }
}
