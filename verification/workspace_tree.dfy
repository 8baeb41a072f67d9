/** The offline workspace: the file tree of a disk image, the primitives of the
    ext4 tool, and the recursive operations built on them. */
module WorkspaceTrees {
  import opened Wrappers
  import opened Text
  import opened Model
  import opened WorkspacePaths

  type Names = seq<string>

  datatype Node = File(data: seq<byte>) | Directory

  type Tree = map<Names, Node>

  datatype Entry = Entry(names: Names, directory: bool)

  function Parent(names: Names): Names
    requires names != []
  {
    names[..|names| - 1]
  }

  ghost predicate IsDir(t: Tree, names: Names) {
    names in t && t[names].Directory?
  }

  /** Plain names, and every node in a directory. */
  ghost predicate ValidTree(t: Tree) {
    && IsDir(t, [])
    && forall p :: p in t && p != [] ==> AllPlain(p) && IsDir(t, Parent(p))
  }

  ghost function BelowDir(t: Tree, dir: Names): set<Names> {
    set p | p in t && dir < p
  }

  ghost predicate HasChild(t: Tree, dir: Names) {
    exists p :: p in t && p != [] && Parent(p) == dir
  }

  lemma {:induction false} AncestorIsDir(t: Tree, ancestor: Names, p: Names)
    requires ValidTree(t) && p in t && ancestor < p
    ensures IsDir(t, ancestor)
    decreases |p|
  {
    if Parent(p) != ancestor {
      AncestorIsDir(t, ancestor, Parent(p));
    }
  }

  /** A directory without children has nothing below it. */
  lemma {:induction false} ChildAbove(t: Tree, dir: Names, p: Names)
    requires ValidTree(t) && p in t && dir < p
    ensures HasChild(t, dir)
    decreases |p|
  {
    if Parent(p) != dir {
      AncestorIsDir(t, Parent(p), p);
      ChildAbove(t, dir, Parent(p));
    }
  }

  /** The text of a path inside the workspace, as a listing shows it. */
  function Shown(names: Names): string {
    DisplayFromGuest(Rooted(names))
  }

  function Inside(rel: Names): Names {
    ROOT_NAMES + rel
  }

  /** What the code makes of a listed path: it resolves the shown text again. */
  function Reread(names: Names): Option<Names> {
    match Resolve(Shown(names))
    case None => None
    case Some(path) => Some(Normal(true, [], Split(path.guest[1..])))
  }

  /** Showing and resolving gives the same path: true for names without
      surrounding white space, line breaks and NUL. */
  ghost predicate Rereads(names: Names) {
    Reread(names) == Some(names)
  }

  lemma NamesOfRooted(names: Names)
    requires AllPlain(names)
    ensures Normal(true, [], Split(Rooted(names)[1..])) == names
  {
    hide Plain;
    assert Rooted(names)[1..] == Join(names);
    if names == [] {
      assert Split("") == [""] && [""][1..] == [];
      assert Normal(true, [], [""]) == Normal(true, [], []);
    } else {
      PlainHasNoSlashes(names);
      SplitJoin(names);
      PlainStays(true, [], names);
      assert [] + names == names;
    }
  }

  /** Exactly the paths without surrounding white space, line breaks and NUL
      survive the round trip. */
  lemma RereadsExactly(rel: Names)
    requires AllPlain(rel) && rel != []
    ensures Rereads(Inside(rel)) <==> TrimSpace(Join(rel)) == Join(rel) && !HasLineBreakOrNul(Join(rel))
  {
    hide Resolve, Join, Clean, DisplayFromGuest, Plain, Split, Normal, TrimSpace, HasLineBreakOrNul, Root;
    BelowText(rel);
    DisplayRoundTrip(rel);
    NamesOfRooted(Inside(rel));
    if Resolve(Shown(Inside(rel))).Some? {
      var names := AcceptedIsConfined(Shown(Inside(rel)));
      BelowText(names);
      NamesOfRooted(Inside(names));
    }
  }

  /** A name ending in a blank is taken for another one: the removal of a
      directory that holds `a ` asks for `a` instead. */
  lemma TrailingBlankIsLost()
    ensures AllPlain(["a "]) && AllPlain(["a"])
    ensures Reread(Inside(["a "])) == Some(Inside(["a"]))
  {
    OneLetterNames();
    hide Resolve, Join, Clean, DisplayFromGuest, Plain, Split, Normal, TrimSpace, HasLineBreakOrNul, Root;
    BelowText(["a "]);
    BelowText(["a"]);
    DisplayRoundTrip(["a"]);
    SameTrimmedSamePath("a ", "a");
    NamesOfRooted(Inside(["a"]));
  }

  lemma OneLetterNames()
    ensures AllPlain(["a "]) && AllPlain(["a"]) && Join(["a "]) == "a " && Join(["a"]) == "a"
    ensures TrimSpace("a ") == "a" && TrimSpace("a") == "a" && !HasLineBreakOrNul("a")
  {
    assert "a "[..1] == "a";
    assert TrimLeft("a ") == "a " && TrimRight("a ") == TrimRight("a") == "a";
  }

  lemma SameTrimmedSamePath(s: string, t: string)
    requires TrimSpace(s) == TrimSpace(t)
    ensures Resolve(s) == Resolve(t)
  {
    hide TrimSpace, GuestOf, DisplayFromGuest, HasLineBreakOrNul;
  }

  /** A longer path shows a longer text, so it sorts after its directory. */
  lemma DescendantSortsLater(dir: Names, p: Names)
    requires AllPlain(dir) && AllPlain(p) && dir < p
    ensures Less(Join(dir), Join(p)) || dir == []
  {
    hide Less, Join;
    if dir != [] {
      var rest := p[|dir|..];
      assert p == dir + rest;
      JoinConcat(dir, rest);
      assert Join(p) == Join(dir) + ("/" + Join(rest));
      ProperPrefixIsLess(Join(dir), "/" + Join(rest));
    }
  }

  // ------------------------------------------------------------ primitives

  class Ext4Image {
    var tree: Tree
    /** How often rmdir was asked to remove a directory that was not empty. */
    ghost var refused: nat
    /** Some rm or rmdir has failed for a reason of its own. */
    ghost var faulted: bool

    ghost predicate Valid()
      reads this
    {
      ValidTree(tree)
    }

    /** ls: the children of a directory, each once, in some order. */
    method ReadDir(dir: Names) returns (status: Status, entries: seq<Entry>)
      requires Valid()
      ensures status.Done? ==> IsDir(tree, dir) && ChildrenOf(tree, dir, entries)
      ensures status.NotFound? ==> dir !in tree
    {
      entries := [];
      var works: bool := *;
      if !works {
        return Fault, entries;
      }
      if dir !in tree {
        return NotFound, entries;
      }
      if tree[dir].File? {
        return Fault, entries;
      }
      var left := tree.Keys;
      while left != {}
        invariant left <= tree.Keys
        invariant ChildrenAmong(tree, tree.Keys - left, dir, entries)
      {
        var p :| p in left;
        ghost var seen := tree.Keys - left;
        if p != [] && p[..|p| - 1] == dir {
          OneMoreChild(tree, seen, dir, entries, p);
          entries := entries + [Entry(p, tree[p].Directory?)];
        } else {
          NotAChild(tree, seen, dir, entries, p);
        }
        left := left - {p};
        assert tree.Keys - left == seen + {p};
      }
      assert tree.Keys - left == tree.Keys;
      status := Done;
    }

    /** rm, on files only. */
    method RemoveFile(names: Option<Names>) returns (status: Status)
      requires Valid()
      modifies this`tree, this`faulted
      ensures Valid()
      ensures status.Done? ==>
                names.Some? && names.value in old(tree) && old(tree)[names.value].File? && tree == old(tree) - {names.value}
      ensures !status.Done? ==> tree == old(tree)
      ensures status.NotFound? ==> names.Some? && names.value !in tree
      ensures old(faulted) ==> faulted
      ensures !faulted ==> (status.Fault? <==> names.None? || IsDir(old(tree), names.value)) && !status.Conflict?
    {
      var works: bool := *;
      faulted := faulted || !works;
      if !works || names.None? {
        return Fault;
      }
      if names.value !in tree {
        return NotFound;
      }
      if tree[names.value].Directory? {
        return Fault;
      }
      tree := tree - {names.value};
      status := Done;
    }

    /** rmdir, on empty directories only. */
    method RemoveDir(names: Option<Names>) returns (status: Status)
      requires Valid()
      modifies this
      ensures Valid()
      ensures refused == if names.Some? && HasChild(old(tree), names.value) then old(refused) + 1 else old(refused)
      ensures status.Done? ==>
                && names.Some?
                && names.value != []
                && IsDir(old(tree), names.value)
                && !HasChild(old(tree), names.value)
                && tree == old(tree) - {names.value}
      ensures !status.Done? ==> tree == old(tree)
      ensures status.NotFound? ==> names.Some? && names.value !in tree
      ensures old(faulted) ==> faulted
      ensures !faulted ==> !status.Conflict? && (status.Fault? <==>
                names.None? || names.value == []
                || (names.value in old(tree) && (old(tree)[names.value].File? || HasChild(old(tree), names.value))))
    {
      var works: bool := *;
      faulted := faulted || !works;
      if names.Some? && HasChild(tree, names.value) {
        refused := refused + 1;
      }
      if !works || names.None? || names.value == [] {
        return Fault;
      }
      if names.value !in tree {
        return NotFound;
      }
      if tree[names.value].File? || exists p <- tree.Keys :: p != [] && p[..|p| - 1] == names.value {
        return Fault;
      }
      tree := tree - {names.value};
      status := Done;
    }

    /** mkdir, where the parent is a directory and the name is free. */
    method MakeDir(names: Names) returns (status: Status)
      requires Valid() && AllPlain(names)
      modifies this`tree
      ensures Valid()
      ensures status.Done? ==> names !in old(tree) && tree == old(tree)[names := Directory]
      ensures !status.Done? ==> tree == old(tree)
    {
      var works: bool := *;
      if !works || names == [] || names in tree || names[..|names| - 1] !in tree || tree[names[..|names| - 1]].File? {
        return Fault;
      }
      tree := tree[names := Directory];
      status := Done;
    }

    /** The staged write: a file in an existing directory, replacing a file. */
    method PutFile(names: Names, data: seq<byte>) returns (status: Status)
      requires Valid() && AllPlain(names)
      modifies this`tree
      ensures Valid()
      ensures status.Done? ==> !IsDir(old(tree), names) && tree == old(tree)[names := File(data)]
      ensures !status.Done? ==> tree == old(tree)
    {
      var works: bool := *;
      if !works || names == [] || names[..|names| - 1] !in tree || tree[names[..|names| - 1]].File? {
        return Fault;
      }
      if names in tree && tree[names].Directory? {
        return Fault;
      }
      tree := tree[names := File(data)];
      status := Done;
    }

    /** cat. */
    method Cat(names: Names) returns (status: Status, data: seq<byte>)
      requires Valid()
      ensures status.Done? ==> names in tree && tree[names] == File(data)
    {
      var works: bool := *;
      if !works || names !in tree || tree[names].Directory? {
        return Fault, [];
      }
      return Done, tree[names].data;
    }
  }

  /** The children of `dir` among `seen`, each listed once. */
  ghost predicate ChildrenAmong(t: Tree, seen: set<Names>, dir: Names, entries: seq<Entry>) {
    && (forall k :: 0 <= k < |entries| ==> entries[k].names in seen && IsChild(t, dir, entries[k]))
    && (forall p :: p in seen && p in t && p != [] && Parent(p) == dir ==> Listed(entries, p))
    && (forall i, j :: 0 <= i < j < |entries| ==> entries[i].names != entries[j].names)
  }

  ghost predicate IsChild(t: Tree, dir: Names, e: Entry) {
    e.names in t && e.names != [] && Parent(e.names) == dir && e.directory == t[e.names].Directory?
  }

  ghost predicate Listed(entries: seq<Entry>, p: Names) {
    exists k :: 0 <= k < |entries| && entries[k].names == p
  }

  ghost predicate ChildrenOf(t: Tree, dir: Names, entries: seq<Entry>) {
    ChildrenAmong(t, t.Keys, dir, entries)
  }

  lemma OneMoreChild(t: Tree, seen: set<Names>, dir: Names, entries: seq<Entry>, p: Names)
    requires ChildrenAmong(t, seen, dir, entries) && p in t && p !in seen && p != [] && Parent(p) == dir
    ensures ChildrenAmong(t, seen + {p}, dir, entries + [Entry(p, t[p].Directory?)])
  {
    var after := entries + [Entry(p, t[p].Directory?)];
    forall q | q in seen + {p} && q in t && q != [] && Parent(q) == dir
      ensures Listed(after, q)
    {
      if q == p {
        assert after[|entries|].names == p;
      } else {
        assert Listed(entries, q);
        var k :| 0 <= k < |entries| && entries[k].names == q;
        assert after[k].names == q;
      }
    }
  }

  lemma NotAChild(t: Tree, seen: set<Names>, dir: Names, entries: seq<Entry>, p: Names)
    requires ChildrenAmong(t, seen, dir, entries) && p in t && !(p != [] && Parent(p) == dir)
    ensures ChildrenAmong(t, seen + {p}, dir, entries)
  {
  }
  // ------------------------------------------------------ recursive listing

  predicate IsNode(t: Tree, e: Entry) {
    e.names in t && e.directory == t[e.names].Directory?
  }

  ghost predicate Distinct(entries: seq<Entry>) {
    forall i, j :: 0 <= i < j < |entries| ==> entries[i].names != entries[j].names
  }

  /** Everything below a directory, each path once. */
  ghost predicate Subtree(t: Tree, dir: Names, entries: seq<Entry>) {
    && (forall k :: 0 <= k < |entries| ==> dir < entries[k].names && IsNode(t, entries[k]))
    && (forall p :: p in t && dir < p ==> Listed(entries, p))
    && Distinct(entries)
  }

  /** The subtrees of the first `i` children. */
  ghost predicate Walked(t: Tree, children: seq<Entry>, i: nat, results: seq<Entry>) {
    && i <= |children|
    && (forall k :: 0 <= k < |results| ==> IsNode(t, results[k]) && UnderSome(children, i, results[k].names))
    && (forall p :: p in t && UnderSome(children, i, p) ==> Listed(results, p))
    && Distinct(results)
  }

  ghost predicate UnderSome(children: seq<Entry>, i: nat, p: Names)
    requires i <= |children|
  {
    exists j :: 0 <= j < i && children[j].names <= p
  }

  lemma WalkStep(t: Tree, dir: Names, children: seq<Entry>, i: nat, results: seq<Entry>, sub: seq<Entry>)
    requires ValidTree(t) && i < |children| && ChildrenOf(t, dir, children) && Walked(t, children, i, results)
    requires if children[i].directory then Subtree(t, children[i].names, sub) else sub == []
    ensures Walked(t, children, i + 1, results + ([children[i]] + sub))
  {
    hide ValidTree, ChildrenOf, Walked, Subtree, Distinct, IsNode, UnderSome, Listed, IsDir;
    NodeOfChild(t, dir, children, i);
    WalkCovers(t, dir, children, i, results, sub);
    WalkNodes(t, children, i, results, [children[i]] + sub);
    WalkDistinct(t, dir, children, i, results, [children[i]] + sub);
    WalkedFrom(t, children, i + 1, results + ([children[i]] + sub));
  }

  lemma WalkedFrom(t: Tree, children: seq<Entry>, i: nat, results: seq<Entry>)
    requires i <= |children|
    requires forall k :: 0 <= k < |results| ==> IsNode(t, results[k]) && UnderSome(children, i, results[k].names)
    requires forall p :: p in t && UnderSome(children, i, p) ==> Listed(results, p)
    requires Distinct(results)
    ensures Walked(t, children, i, results)
  {
  }

  lemma WalkCovers(t: Tree, dir: Names, children: seq<Entry>, i: nat, results: seq<Entry>, sub: seq<Entry>)
    requires ValidTree(t) && i < |children| && ChildrenOf(t, dir, children) && Walked(t, children, i, results)
    requires if children[i].directory then Subtree(t, children[i].names, sub) else sub == []
    ensures forall p :: p in t && UnderSome(children, i + 1, p) ==> Listed(results + ([children[i]] + sub), p)
    ensures forall k :: 0 <= k < |[children[i]] + sub| ==>
              IsNode(t, ([children[i]] + sub)[k]) && children[i].names <= ([children[i]] + sub)[k].names
    ensures Distinct([children[i]] + sub)
  {
    hide ValidTree, IsDir, ChildrenOf;
    var e := children[i];
    var block := [e] + sub;
    NodeOfChild(t, dir, children, i);
    forall p | p in t && UnderSome(children, i + 1, p) ensures Listed(results + block, p) {
      var j :| 0 <= j < i + 1 && children[j].names <= p;
      if j < i {
        assert UnderSome(children, i, p);
      } else if p == e.names {
        assert block[0].names == p;
      } else {
        FileHasNothingBelow(t, e, p);
        ListedInConcat([e], sub, p);
      }
      ListedInConcat(results, block, p);
    }
  }

  lemma WalkNodes(t: Tree, children: seq<Entry>, i: nat, results: seq<Entry>, block: seq<Entry>)
    requires i < |children| && Walked(t, children, i, results)
    requires forall k :: 0 <= k < |block| ==> IsNode(t, block[k]) && children[i].names <= block[k].names
    ensures forall k :: 0 <= k < |results + block| ==>
              IsNode(t, (results + block)[k]) && UnderSome(children, i + 1, (results + block)[k].names)
  {
    hide IsNode;
    forall k | 0 <= k < |results + block|
      ensures IsNode(t, (results + block)[k]) && UnderSome(children, i + 1, (results + block)[k].names)
    {
      if k < |results| {
        assert UnderSome(children, i, results[k].names);
        var j :| 0 <= j < i && children[j].names <= results[k].names;
      } else {
        assert children[i].names <= block[k - |results|].names;
      }
    }
  }

  lemma WalkDistinct(t: Tree, dir: Names, children: seq<Entry>, i: nat, results: seq<Entry>, block: seq<Entry>)
    requires i < |children| && ChildrenOf(t, dir, children) && Walked(t, children, i, results) && Distinct(block)
    requires forall k :: 0 <= k < |block| ==> children[i].names <= block[k].names
    ensures Distinct(results + block)
  {
    hide ChildrenOf, IsNode, UnderSome;
    forall a, b | 0 <= a < |results| && 0 <= b < |block| ensures results[a].names != block[b].names {
      BranchesDiffer(t, dir, children, i, results[a].names, block[b].names);
    }
  }

  lemma NodeOfChild(t: Tree, dir: Names, children: seq<Entry>, i: nat)
    requires i < |children| && ChildrenOf(t, dir, children)
    ensures IsNode(t, children[i])
  {
    assert IsChild(t, dir, children[i]);
  }

  lemma ListedInConcat(a: seq<Entry>, b: seq<Entry>, p: Names)
    requires Listed(a, p) || Listed(b, p)
    ensures Listed(a + b, p)
  {
    if Listed(a, p) {
      var k :| 0 <= k < |a| && a[k].names == p;
      assert (a + b)[k].names == p;
    } else {
      var k :| 0 <= k < |b| && b[k].names == p;
      assert (a + b)[|a| + k].names == p;
    }
  }

  lemma FileHasNothingBelow(t: Tree, e: Entry, p: Names)
    requires ValidTree(t) && IsNode(t, e) && p in t && e.names < p
    ensures e.directory
  {
    AncestorIsDir(t, e.names, p);
  }

  /** Paths under different children of one directory differ. */
  lemma BranchesDiffer(t: Tree, dir: Names, children: seq<Entry>, i: nat, p: Names, q: Names)
    requires i < |children| && ChildrenOf(t, dir, children) && UnderSome(children, i, p) && children[i].names <= q
    ensures p != q
  {
    var j :| 0 <= j < i && children[j].names <= p;
    assert IsChild(t, dir, children[i]) && IsChild(t, dir, children[j]);
    assert |children[i].names| == |dir| + 1 == |children[j].names|;
    assert children[j].names != children[i].names;
    assert p[..|dir| + 1] == children[j].names && q[..|dir| + 1] == children[i].names;
  }

  lemma WalkStart(t: Tree, children: seq<Entry>)
    ensures Walked(t, children, 0, [])
  {
  }

  lemma WalkEnd(t: Tree, dir: Names, children: seq<Entry>, results: seq<Entry>)
    requires ValidTree(t) && ChildrenOf(t, dir, children) && Walked(t, children, |children|, results)
    ensures Subtree(t, dir, results)
  {
    hide ValidTree, IsNode, IsDir;
    forall k | 0 <= k < |results| ensures dir < results[k].names {
      assert UnderSome(children, |children|, results[k].names);
      var j :| 0 <= j < |children| && children[j].names <= results[k].names;
      assert IsChild(t, dir, children[j]);
      ChildIsBelow(dir, children[j].names, results[k].names);
    }
    forall p | p in t && dir < p ensures Listed(results, p) {
      var c := p[..|dir| + 1];
      FirstStepDown(t, dir, p);
      assert Listed(children, c);
      var j :| 0 <= j < |children| && children[j].names == c;
      assert children[j].names <= p;
      assert UnderSome(children, |children|, p);
    }
  }

  lemma ChildIsBelow(dir: Names, child: Names, p: Names)
    requires child != [] && Parent(child) == dir && child <= p
    ensures dir < p
  {
    assert dir == child[..|dir|] == p[..|dir|];
  }

  lemma FirstStepDown(t: Tree, dir: Names, p: Names)
    requires ValidTree(t) && p in t && dir < p
    ensures var c := p[..|dir| + 1]; c in t && c != [] && Parent(c) == dir && c <= p
  {
    var c := p[..|dir| + 1];
    if c != p {
      AncestorIsDir(t, c, p);
    }
    assert Parent(c) == p[..|dir|] == dir;
  }

  lemma FewerBelow(t: Tree, dir: Names, child: Names)
    requires child in t && child != [] && Parent(child) == dir
    ensures |BelowDir(t, child)| < |BelowDir(t, dir)|
  {
    forall p | p in BelowDir(t, child) ensures p in BelowDir(t, dir) {
      ChildIsBelow(dir, child, p);
    }
    ChildIsBelow(dir, child, child);
    assert child in BelowDir(t, dir) && child !in BelowDir(t, child);
    SmallerSet(BelowDir(t, child), BelowDir(t, dir), child);
  }

  lemma SmallerSet(a: set<Names>, b: set<Names>, x: Names)
    requires a <= b && x in b && x !in a
    ensures |a| < |b|
  {
    LargerSet(a, b - {x});
  }

  lemma {:induction false} LargerSet(a: set<Names>, b: set<Names>)
    requires a <= b
    ensures |a| <= |b|
  {
    if a != {} {
      var x :| x in a;
      LargerSet(a - {x}, b - {x});
    }
  }

  /** The walk of ext4ListRecursive; it ends because a child has fewer paths
      below it than its directory. */
  method Walk(image: Ext4Image, dir: Names) returns (status: Status, results: seq<Entry>)
    requires image.Valid()
    ensures status.Done? ==> Subtree(image.tree, dir, results)
    ensures status.NotFound? ==> results == [] && dir !in image.tree
    decreases |BelowDir(image.tree, dir)|
  {
    hide ValidTree, ChildrenOf, Walked, Subtree, BelowDir, IsNode;
    results := [];
    var children;
    status, children := image.ReadDir(dir);
    if status.Done? {
      WalkStart(image.tree, children);
      var i := 0;
      while i < |children| && status.Done?
        invariant 0 <= i <= |children| && !status.NotFound?
        invariant status.Done? ==> Walked(image.tree, children, i, results)
      {
        var sub := [];
        if children[i].directory {
          ChildOfListing(image.tree, dir, children, i);
          FewerBelow(image.tree, dir, children[i].names);
          status, sub := Walk(image, children[i].names);
        }
        if status.Done? {
          WalkStep(image.tree, dir, children, i, results, sub);
          results := results + ([children[i]] + sub);
        } else {
          status := Fault;
        }
        i := i + 1;
      }
      if status.Done? {
        WalkEnd(image.tree, dir, children, results);
      }
    }
  }

  lemma ChildOfListing(t: Tree, dir: Names, children: seq<Entry>, i: nat)
    requires i < |children| && ChildrenOf(t, dir, children)
    ensures children[i].names in t && children[i].names != [] && Parent(children[i].names) == dir
  {
    assert IsChild(t, dir, children[i]);
  }

  // ------------------------------------------------------------- the order

  ghost predicate ByShown(entries: seq<Entry>) {
    forall i, j :: 0 <= i < j < |entries| ==> !Less(Shown(entries[j].names), Shown(entries[i].names))
  }

  method InsertByShown(entries: seq<Entry>, e: Entry) returns (inserted: seq<Entry>)
    requires ByShown(entries)
    ensures multiset(inserted) == multiset(entries) + multiset{e} && ByShown(inserted)
  {
    hide Less, Shown;
    var i := |entries|;
    while i > 0 && Less(Shown(e.names), Shown(entries[i - 1].names))
      invariant 0 <= i <= |entries|
      invariant forall k :: i <= k < |entries| ==> Less(Shown(e.names), Shown(entries[k].names))
    {
      i := i - 1;
    }
    InsertedByShown(entries, e, i);
    inserted := entries[..i] + [e] + entries[i..];
    assert entries == entries[..i] + entries[i..];
  }

  lemma InsertedByShown(entries: seq<Entry>, e: Entry, i: nat)
    requires ByShown(entries) && i <= |entries|
    requires i > 0 ==> !Less(Shown(e.names), Shown(entries[i - 1].names))
    requires forall k :: i <= k < |entries| ==> Less(Shown(e.names), Shown(entries[k].names))
    ensures ByShown(entries[..i] + [e] + entries[i..])
  {
    hide Less, Shown;
    var inserted := entries[..i] + [e] + entries[i..];
    forall a | 0 <= a < i ensures !Less(Shown(e.names), Shown(entries[a].names)) {
      if a < i - 1 {
        NotLessTransitive(Shown(entries[a].names), Shown(entries[i - 1].names), Shown(e.names));
      }
    }
    forall b | i <= b < |entries| ensures !Less(Shown(entries[b].names), Shown(e.names)) {
      LessAsymmetric(Shown(e.names), Shown(entries[b].names));
    }
    forall a, b | 0 <= a < b < |inserted| ensures !Less(Shown(inserted[b].names), Shown(inserted[a].names)) {
      assert inserted[a] == if a < i then entries[a] else if a == i then e else entries[a - 1];
      assert inserted[b] == if b < i then entries[b] else if b == i then e else entries[b - 1];
    }
  }

  lemma NotLessTransitive(a: string, b: string, c: string)
    requires !Less(b, a) && !Less(c, b)
    ensures !Less(c, a)
  {
    LessTotal(a, b);
    LessTotal(b, c);
    if Less(a, b) && Less(b, c) {
      LessTransitive(a, b, c);
      LessAsymmetric(a, c);
    }
  }

  method SortByShown(entries: seq<Entry>) returns (sorted: seq<Entry>)
    ensures multiset(sorted) == multiset(entries) && ByShown(sorted)
  {
    hide Less, Shown;
    sorted := [];
    var i := 0;
    while i < |entries|
      invariant 0 <= i <= |entries| && multiset(sorted) == multiset(entries[..i]) && ByShown(sorted)
    {
      sorted := InsertByShown(sorted, entries[i]);
      assert entries[..i + 1] == entries[..i] + [entries[i]];
      i := i + 1;
    }
    assert entries[..i] == entries;
  }

  /** Reordering a listing changes nothing but the order. */
  lemma {:induction false} PermutedSubtree(t: Tree, dir: Names, entries: seq<Entry>, sorted: seq<Entry>)
    requires Subtree(t, dir, entries) && multiset(sorted) == multiset(entries)
    ensures Subtree(t, dir, sorted)
  {
    hide IsNode;
    forall k | 0 <= k < |sorted| ensures dir < sorted[k].names && IsNode(t, sorted[k]) {
      assert sorted[k] in multiset(sorted);
      assert sorted[k] in entries;
    }
    forall p | p in t && dir < p ensures Listed(sorted, p) {
      var k :| 0 <= k < |entries| && entries[k].names == p;
      assert entries[k] in multiset(sorted);
      var j :| 0 <= j < |sorted| && sorted[j] == entries[k];
    }
    forall i, j | 0 <= i < j < |sorted| ensures sorted[i].names != sorted[j].names {
      if sorted[i].names == sorted[j].names {
        assert sorted[i] in multiset(entries) && sorted[j] in multiset(entries);
        assert sorted[i] == sorted[j];
        TwiceInSeq(sorted, i, j);
        OnceInSeq(entries, sorted[i]);
      }
    }
  }

  lemma TwiceInSeq(entries: seq<Entry>, i: nat, j: nat)
    requires i < j < |entries| && entries[i] == entries[j]
    ensures multiset(entries)[entries[i]] >= 2
  {
    assert entries == entries[..i] + [entries[i]] + entries[i + 1..j] + [entries[j]] + entries[j + 1..];
  }

  lemma {:induction false} OnceInSeq(entries: seq<Entry>, e: Entry)
    requires Distinct(entries)
    ensures multiset(entries)[e] <= 1
  {
    if entries != [] {
      var front, last := entries[..|entries| - 1], entries[|entries| - 1];
      assert entries == front + [last];
      OnceInSeq(front, e);
      forall k | 0 <= k < |front| ensures front[k] != last {
        assert entries[k].names != entries[|entries| - 1].names;
      }
      assert last !in front && last !in multiset(front);
    }
  }

  /** ext4ListRecursive. A missing workspace root lists as empty. */
  method ListRecursive(image: Ext4Image, dir: Names) returns (status: Status, entries: seq<Entry>)
    requires image.Valid()
    ensures status.Done? ==> Subtree(image.tree, dir, entries) && ByShown(entries)
    ensures dir == ROOT_NAMES ==> !status.NotFound?
  {
    hide ValidTree, Subtree, ByShown;
    status, entries := Walk(image, dir);
    if status.NotFound? && dir == ROOT_NAMES {
      NothingBelowMissing(image.tree, dir);
      return Done, [];
    }
    var sorted := SortByShown(entries);
    if status.Done? {
      PermutedSubtree(image.tree, dir, entries, sorted);
    }
    entries := sorted;
  }

  lemma NothingBelowMissing(t: Tree, dir: Names)
    ensures ValidTree(t) && dir !in t ==> Subtree(t, dir, [])
    ensures ByShown([])
  {
    if ValidTree(t) && dir !in t {
      forall p | p in t && dir < p ensures false {
        AncestorIsDir(t, dir, p);
      }
    }
  }
}
