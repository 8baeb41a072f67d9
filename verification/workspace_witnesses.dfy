/** Trees on which removals and moves do not do what was asked. */
module WorkspaceWitnesses {
  import opened Wrappers
  import opened Text
  import opened Model
  import opened WorkspacePaths
  import opened WorkspaceTrees
  import opened WorkspaceEdits

  function EmptyWorkspace(): Tree {
    map[[] := Directory, ["home"] := Directory, ["home", "node"] := Directory, ROOT_NAMES := Directory]
  }

  lemma EmptyWorkspaceIsValid()
    ensures ValidTree(EmptyWorkspace())
  {
    RootIsPlain();
    assert forall k :: 0 <= k < 3 ==> Plain(ROOT_NAMES[k]);
    assert AllPlain(["home"]) && AllPlain(["home", "node"]);
    assert Parent(["home"]) == [] && Parent(["home", "node"]) == ["home"] && Parent(ROOT_NAMES) == ["home", "node"];
  }

  lemma OneMoreNode(t: Tree, names: Names, node: Node)
    requires ValidTree(t) && AllPlain(names) && names != [] && names !in t && IsDir(t, Parent(names))
    ensures ValidTree(t[names := node])
  {
  }

  // ------------------------------------------------------ trailing blanks

  function BlankWorkspace(): Tree {
    EmptyWorkspace()[Inside(["a "]) := File([])]
  }

  /** Removing everything below the root succeeds, and the file `a ` is still
      there: its shown text is taken for the missing `a`, which counts as gone. */
  lemma EmptiedWithAFileLeft()
    ensures var t, entries := BlankWorkspace(), [Entry(Inside(["a "]), false)];
            && ValidTree(t)
            && Subtree(t, ROOT_NAMES, entries)
            && RemoveRun(t, entries, 0) == Some(t)
            && Inside(["a "]) in t
            && !AllReread(t, ROOT_NAMES)
  {
    var t, e := BlankWorkspace(), Entry(Inside(["a "]), false);
    EmptyWorkspaceIsValid();
    TrailingBlankIsLost();
    hide Reread, ValidTree, Plain;
    TargetIsPlain(["a "]);
    assert Parent(Inside(["a "])) == ROOT_NAMES;
    OneMoreNode(EmptyWorkspace(), Inside(["a "]), File([]));
    OthersDiffer("a ", "a");
    assert Inside(["a"]) !in t;
    assert RemoveRun(t, [e], 1) == Some(t);
    assert RemoveStep(t, e) == Some(t);
    assert [e][0].names == Inside(["a "]);
    assert Listed([e], Inside(["a "]));
    assert !Rereads(Inside(["a "]));
  }

  lemma OthersDiffer(a: string, b: string)
    requires a != b
    ensures Inside([a]) != Inside([b]) && Inside([b]) !in EmptyWorkspace()
  {
    assert Inside([a])[3] == a && Inside([b])[3] == b && |Inside([b])| == 4;
  }

  // ------------------------------------------------------- leading blanks

  /** A directory ` d` beside a directory `d`, with a file `x` in each. */
  function TwoDirs(): Tree {
    EmptyWorkspace()[Inside([" d"]) := Directory][Inside(["d"]) := Directory]
    [Inside([" d", "x"]) := File([1])][Inside(["d", "x"]) := File([2])]
  }

  lemma LeadingBlankIsLost()
    ensures AllPlain([" d", "x"]) && AllPlain(["d", "x"])
    ensures Reread(Inside([" d", "x"])) == Some(Inside(["d", "x"]))
  {
    TwoLetterNames();
    hide Resolve, Join, Clean, DisplayFromGuest, Plain, Split, Normal, TrimSpace, HasLineBreakOrNul, Root;
    BelowText([" d", "x"]);
    BelowText(["d", "x"]);
    DisplayRoundTrip(["d", "x"]);
    SameTrimmedSamePath(" d/x", "d/x");
    NamesOfRooted(Inside(["d", "x"]));
  }

  lemma TwoLetterNames()
    ensures AllPlain([" d", "x"]) && AllPlain(["d", "x"])
    ensures Join([" d", "x"]) == " d/x" && Join(["d", "x"]) == "d/x"
    ensures TrimSpace(" d/x") == "d/x" && TrimSpace("d/x") == "d/x" && !HasLineBreakOrNul("d/x")
  {
    hide TrimSpace, Plain;
    OneLetterName(" d");
    OneLetterName("d");
    OneLetterName("x");
    BlankTrimmed();
    assert [" d", "x"][1..] == ["x"] && ["d", "x"][1..] == ["x"];
  }

  lemma OneLetterName(name: string)
    requires name == " d" || name == "d" || name == "x"
    ensures Plain(name)
  {
  }

  lemma BlankTrimmed()
    ensures TrimSpace(" d/x") == "d/x" && TrimSpace("d/x") == "d/x"
  {
    assert " d/x"[1..] == "d/x";
    assert TrimLeft(" d/x") == TrimLeft("d/x") == "d/x" && TrimRight("d/x") == "d/x";
  }

  lemma TwoDirsIsValid()
    ensures ValidTree(TwoDirs())
  {
    hide ValidTree, Plain, Join, TrimSpace, HasLineBreakOrNul;
    EmptyWorkspaceIsValid();
    TwoLetterNames();
    OthersDiffer(" d", "d");
    OthersDiffer("d", " d");
    WithDirectory(EmptyWorkspace(), " d", "x");
    var one := EmptyWorkspace()[Inside([" d"]) := Directory];
    WithDirectory(one, "d", "x");
    var two := one[Inside(["d"]) := Directory];
    WithFile(two, " d", "x", [1]);
    assert Inside([" d", "x"])[3] == " d" && Inside(["d", "x"])[3] == "d";
    WithFile(two[Inside([" d", "x"]) := File([1])], "d", "x", [2]);
  }

  lemma WithDirectory(t: Tree, dir: string, name: string)
    requires ValidTree(t) && AllPlain([dir, name]) && Inside([dir]) !in t && IsDir(t, ROOT_NAMES)
    ensures ValidTree(t[Inside([dir]) := Directory])
  {
    hide ValidTree, Plain;
    PlainPrefix([dir, name], 1);
    assert [dir, name][..1] == [dir];
    TargetIsPlain([dir]);
    assert Parent(Inside([dir])) == ROOT_NAMES;
    OneMoreNode(t, Inside([dir]), Directory);
  }

  lemma WithFile(t: Tree, dir: string, name: string, data: seq<byte>)
    requires ValidTree(t) && AllPlain([dir, name]) && Inside([dir, name]) !in t && IsDir(t, Inside([dir]))
    ensures ValidTree(t[Inside([dir, name]) := File(data)])
  {
    hide ValidTree, Plain;
    TargetIsPlain([dir, name]);
    assert Parent(Inside([dir, name])) == Inside([dir]);
    OneMoreNode(t, Inside([dir, name]), File(data));
  }

  /** Removing ` d` takes the file of the other directory, and then fails on its
      own directory, which still has its file. */
  lemma RemovedOutsideTheTarget()
    ensures var t, entries := TwoDirs(), [Entry(Inside([" d", "x"]), false)];
            && ValidTree(t)
            && Subtree(t, Inside([" d"]), entries)
            && RemoveRun(t, entries, 0) == Some(t - {Inside(["d", "x"])})
            && Inside(["d", "x"]) in t
            && !(Inside([" d"]) <= Inside(["d", "x"]))
            && HasChild(t - {Inside(["d", "x"])}, Inside([" d"]))
  {
    var t, e := TwoDirs(), Entry(Inside([" d", "x"]), false);
    TwoDirsIsValid();
    LeadingBlankIsLost();
    hide Reread, ValidTree, Plain;
    TwoDirsNodes();
    assert RemoveRun(t, [e], 1) == Some(t);
    assert RemoveStep(t, e) == Some(t - {Inside(["d", "x"])});
    assert Parent(Inside([" d", "x"])) == Inside([" d"]);
  }

  lemma TwoDirsNodes()
    ensures var t, entries := TwoDirs(), [Entry(Inside([" d", "x"]), false)];
            && Subtree(t, Inside([" d"]), entries)
            && Inside(["d", "x"]) in t && t[Inside(["d", "x"])].File?
            && Inside([" d", "x"]) in t - {Inside(["d", "x"])}
            && !(Inside([" d"]) <= Inside(["d", "x"]))
  {
    var t, e := TwoDirs(), Entry(Inside([" d", "x"]), false);
    assert Inside([" d"])[3] == " d" && Inside(["d"])[3] == "d" && Inside([" d", "x"])[3] == " d" && Inside(["d", "x"])[3] == "d";
    assert [e][0].names == Inside([" d", "x"]);
    assert Listed([e], Inside([" d", "x"]));
  }

  // ------------------------------------------------------ landing inside

  /** A path whose copy lands inside the source does not survive the move: it is
      gone from where it was and from where it was to go. */
  lemma LandingInsideIsLost(now: Tree, from: Names, to: Names, p: Names)
    requires MovedAway(now, from) && from <= p && from <= to + p[|from|..]
    ensures p !in now && to + p[|from|..] !in now
  {
  }

  /** So `a/b` moved onto `a` loses what `a/b` has under a `b` of its own. */
  lemma MovedOntoItsParent(t: Tree, now: Tree)
    requires ValidTree(t) && Inside(["a", "b", "b", "f"]) in t && MovedAway(now, Inside(["a", "b"]))
    ensures !(Inside(["a", "b"]) <= Inside(["a"])) && !Fits(t, Inside(["a", "b"]), Inside(["a"]))
    ensures Inside(["a", "b", "b", "f"]) !in now && Inside(["a", "b", "f"]) !in now
  {
    hide ValidTree;
    var from, to, p := Inside(["a", "b"]), Inside(["a"]), Inside(["a", "b", "b", "f"]);
    assert from <= p && to + p[|from|..] == Inside(["a", "b", "f"]) && from <= Inside(["a", "b", "f"]);
    LandingInsideIsLost(now, from, to, p);
  }
}
