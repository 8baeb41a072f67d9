/** Workspace paths: normalising a request path, confining it to the workspace,
    and showing it again. */
module WorkspacePaths {
  import opened Wrappers
  import opened Text

  // ------------------------------------------------------------ components

  predicate NoSlash(s: string) {
    forall i :: 0 <= i < |s| ==> s[i] != '/'
  }

  /** A component of a normalised path. */
  predicate Plain(name: string) {
    name != "" && name != "." && name != ".." && NoSlash(name)
  }

  predicate AllPlain(names: seq<string>) {
    forall k :: 0 <= k < |names| ==> Plain(names[k])
  }

  predicate NoSlashes(parts: seq<string>) {
    forall k :: 0 <= k < |parts| ==> NoSlash(parts[k])
  }

  function Split(s: string): (parts: seq<string>)
    ensures parts != []
    ensures NoSlashes(parts)
  {
    if s == "" then [""]
    else if s[0] == '/' then [""] + Split(s[1..])
    else
      var rest := Split(s[1..]);
      [[s[0]] + rest[0]] + rest[1..]
  }

  function Join(parts: seq<string>): string {
    if parts == [] then ""
    else if |parts| == 1 then parts[0]
    else parts[0] + "/" + Join(parts[1..])
  }

  lemma {:induction false} SplitPlainPart(s: string)
    requires NoSlash(s)
    ensures Split(s) == [s]
  {
    if s != "" {
      assert NoSlash(s[1..]);
      SplitPlainPart(s[1..]);
      assert [s[0]] + s[1..] == s;
    }
  }

  lemma {:induction false} SplitConcat(a: string, b: string)
    ensures Split(a + "/" + b) == Split(a) + Split(b)
  {
    var s := a + "/" + b;
    if a == "" {
      assert s[1..] == b;
    } else {
      assert s[1..] == a[1..] + "/" + b;
      SplitConcat(a[1..], b);
    }
  }

  lemma {:induction false} SplitJoin(parts: seq<string>)
    requires parts != [] && NoSlashes(parts)
    ensures Split(Join(parts)) == parts
  {
    SplitPlainPart(parts[0]);
    if |parts| > 1 {
      SplitJoin(parts[1..]);
      SplitConcat(parts[0], Join(parts[1..]));
    }
  }

  lemma {:induction false} JoinConcat(a: seq<string>, b: seq<string>)
    requires a != [] && b != []
    ensures Join(a + b) == Join(a) + "/" + Join(b)
  {
    if |a| == 1 {
      assert (a + b)[1..] == b;
    } else {
      assert (a + b)[1..] == a[1..] + b;
      JoinConcat(a[1..], b);
    }
  }

  lemma {:induction false} JoinSplit(s: string)
    ensures Join(Split(s)) == s
  {
    if s != "" {
      JoinSplit(s[1..]);
      var rest := Split(s[1..]);
      if s[0] == '/' {
        assert ([""] + rest)[1..] == rest;
        assert "" + "/" + s[1..] == s;
      } else {
        var head := [s[0]] + rest[0];
        assert ([head] + rest[1..])[1..] == rest[1..];
        assert Join([head] + rest[1..]) == [s[0]] + Join(rest);
        assert [s[0]] + s[1..] == s;
      }
    }
  }

  lemma PlainJoinIsNotEmpty(names: seq<string>)
    requires AllPlain(names)
    ensures Join(names) == "" <==> names == []
    ensures names != [] ==> Join(names) != "" && names[0] != "" && Join(names)[0] == names[0][0] != '/'
  {
    if names != [] {
      assert Plain(names[0]);
    }
  }

  // ----------------------------------------------------------- path.Clean

  /** One component after the names kept so far. */
  function Push(rooted: bool, kept: seq<string>, name: string): seq<string> {
    if name == "" || name == "." then kept
    else if name != ".." then kept + [name]
    else if kept != [] && kept[|kept| - 1] != ".." then kept[..|kept| - 1]
    else if rooted then kept
    else kept + [name]
  }

  function Normal(rooted: bool, kept: seq<string>, parts: seq<string>): seq<string>
    decreases |parts|
  {
    if parts == [] then kept else Normal(rooted, Push(rooted, kept, parts[0]), parts[1..])
  }

  function Clean(s: string): string {
    if s != "" && s[0] == '/' then "/" + Join(Normal(true, [], Split(s[1..])))
    else
      var names := Normal(false, [], Split(s));
      if names == [] then "." else Join(names)
  }

  /** A rooted path normalises to plain names only. */
  lemma {:induction false} RootedIsPlain(kept: seq<string>, parts: seq<string>)
    requires AllPlain(kept) && NoSlashes(parts)
    ensures AllPlain(Normal(true, kept, parts))
    decreases |parts|
  {
    if parts != [] {
      assert NoSlash(parts[0]);
      assert kept != [] ==> Plain(kept[|kept| - 1]);
      RootedIsPlain(Push(true, kept, parts[0]), parts[1..]);
    }
  }

  /** Plain names stay as they are. */
  lemma {:induction false} PlainStays(rooted: bool, kept: seq<string>, names: seq<string>)
    requires AllPlain(names)
    ensures Normal(rooted, kept, names) == kept + names
    decreases |names|
  {
    if names != [] {
      assert Plain(names[0]);
      PlainStays(rooted, kept + [names[0]], names[1..]);
      assert kept + [names[0]] + names[1..] == kept + names;
    }
  }

  /** The text of a rooted normalised path. */
  function Rooted(names: seq<string>): string {
    "/" + Join(names)
  }

  lemma CleanRooted(names: seq<string>)
    requires AllPlain(names)
    ensures Clean(Rooted(names)) == Rooted(names)
  {
    var s := Rooted(names);
    assert s[1..] == Join(names);
    if names == [] {
      assert Split("") == [""] && [""][1..] == [];
      assert Normal(true, [], [""]) == Normal(true, [], []);
    } else {
      PlainHasNoSlashes(names);
      SplitJoin(names);
      PlainStays(true, [], names);
      assert [] + names == names;
    }
  }

  lemma CleanRelative(names: seq<string>)
    requires AllPlain(names) && names != []
    ensures Clean(Join(names)) == Join(names)
  {
    PlainJoinIsNotEmpty(names);
    PlainHasNoSlashes(names);
    SplitJoin(names);
    PlainStays(false, [], names);
    assert [] + names == names;
  }

  /** Prefix with a slash, on texts, is strict prefix on names. */
  lemma PrefixIsComponentPrefix(parent: seq<string>, child: seq<string>)
    requires AllPlain(parent) && AllPlain(child) && parent != []
    ensures Rooted(parent) + "/" <= Rooted(child) <==> parent < child
  {
    hide Join, Plain, Split;
    if Rooted(parent) + "/" <= Rooted(child) {
      TextPrefix(parent, child);
    }
    if parent < child {
      JoinConcat(parent, child[|parent|..]);
      assert child == parent + child[|parent|..];
    }
  }

  lemma TextPrefix(parent: seq<string>, child: seq<string>)
    requires AllPlain(parent) && AllPlain(child) && parent != [] && Rooted(parent) + "/" <= Rooted(child)
    ensures parent < child
  {
    hide Join, Split, Plain;
    var p := Rooted(parent) + "/";
    var rest := Rooted(child)[|p|..];
    assert Rooted(child) == p + rest;
    assert Join(child) == Rooted(child)[1..] == Join(parent) + "/" + rest;
    PlainHasNoSlashes(parent);
    PlainHasNoSlashes(child);
    EmptyJoin();
    SplitJoin(child);
    SplitJoin(parent);
    SplitConcat(Join(parent), rest);
  }

  lemma EmptyJoin()
    ensures Join([]) == ""
  {
  }

  lemma PlainHasNoSlashes(names: seq<string>)
    requires AllPlain(names)
    ensures NoSlashes(names)
  {
  }

  // -------------------------------------------------------------- lengths

  /** Each component and the slash after it. */
  function Weight(parts: seq<string>): nat {
    if parts == [] then 0 else |parts[0]| + 1 + Weight(parts[1..])
  }

  lemma {:induction false} WeightConcat(a: seq<string>, b: seq<string>)
    ensures Weight(a + b) == Weight(a) + Weight(b)
  {
    if a == [] {
      assert a + b == b;
    } else {
      assert (a + b)[1..] == a[1..] + b;
      WeightConcat(a[1..], b);
    }
  }

  lemma {:induction false} JoinWeight(parts: seq<string>)
    ensures |Join(parts)| == if parts == [] then 0 else Weight(parts) - 1
  {
    if |parts| > 1 {
      JoinWeight(parts[1..]);
    } else if parts != [] {
      assert parts[1..] == [];
    }
  }

  lemma PushWeight(rooted: bool, kept: seq<string>, name: string)
    ensures Weight(Push(rooted, kept, name)) <= Weight(kept) + |name| + 1
  {
    WeightConcat(kept, [name]);
    assert [name][1..] == [];
    if kept != [] {
      var last := kept[|kept| - 1];
      assert kept == kept[..|kept| - 1] + [last];
      WeightConcat(kept[..|kept| - 1], [last]);
    }
  }

  lemma {:induction false} NormalWeight(rooted: bool, kept: seq<string>, parts: seq<string>)
    ensures Weight(Normal(rooted, kept, parts)) <= Weight(kept) + Weight(parts)
    decreases |parts|
  {
    hide Push;
    if parts != [] {
      PushWeight(rooted, kept, parts[0]);
      NormalWeight(rooted, Push(rooted, kept, parts[0]), parts[1..]);
    }
  }

  lemma CleanIsNoLonger(s: string)
    requires s != ""
    ensures |Clean(s)| <= |s|
  {
    hide Split, Normal, Join, Weight;
    var rooted := s[0] == '/';
    var text := if rooted then s[1..] else s;
    var names := Normal(rooted, [], Split(text));
    JoinSplit(text);
    JoinWeight(Split(text));
    JoinWeight(names);
    NormalWeight(rooted, [], Split(text));
    NoWeight();
  }

  lemma NoWeight()
    ensures Weight([]) == 0
  {
  }

  // ------------------------------------------------------------- resolving

  const ROOT_NAMES: seq<string> := ["home", "node", "workspace"]

  function Root(): (root: string)
    ensures root != "" && root[0] == '/'
  {
    "/home/node/workspace"
  }

  lemma RootIsPlain()
    ensures AllPlain(ROOT_NAMES) && Rooted(ROOT_NAMES) == Root()
  {
    hide Join, Root;
    RootText();
  }

  lemma RootText()
    ensures Rooted(ROOT_NAMES) == Root()
  {
    assert ROOT_NAMES[1..] == ["node", "workspace"] && ROOT_NAMES[1..][1..] == ["workspace"];
    assert Join(ROOT_NAMES[1..]) == "node" + "/" + "workspace";
    assert Join(ROOT_NAMES) == "home" + "/" + ("node" + "/" + "workspace");
  }

  datatype WorkspacePath = WorkspacePath(guest: string, display: string)

  predicate HasLineBreakOrNul(s: string) {
    exists c <- s :: c == '\0' || c == '\n' || c == '\r'
  }

  function DisplayFromGuest(guest: string): string {
    var cleaned := Clean(guest);
    if cleaned == Root() then "."
    else if Root() + "/" <= cleaned && cleaned != Root() + "/" then cleaned[|Root()| + 1..]
    else "."
  }

  function GuestOf(value: string): Option<string> {
    if value == "." then Some(Root())
    else if Root() <= value then Some(Clean(value))
    else if "/" <= value then None
    else
      var cleaned := Clean(value);
      if cleaned == ".." || "../" <= cleaned then None
      else if cleaned == "." then Some(Root())
      else Some(Clean(Root() + "/" + cleaned))
  }

  /** resolveWorkspacePath. */
  function Resolve(raw: string): Option<WorkspacePath> {
    var trimmed := TrimSpace(raw);
    var value := if trimmed == "" then "." else trimmed;
    if HasLineBreakOrNul(value) then None
    else
      var guest := GuestOf(value);
      if guest.None? || (guest.value != Root() && !(Root() + "/" <= guest.value)) then None
      else Some(WorkspacePath(guest.value, DisplayFromGuest(guest.value)))
  }

  /** The path of a list of names below the workspace root. */
  function Below(names: seq<string>): WorkspacePath {
    WorkspacePath(Rooted(ROOT_NAMES + names), if names == [] then "." else Join(names))
  }

  lemma BelowText(names: seq<string>)
    requires AllPlain(names)
    ensures AllPlain(ROOT_NAMES + names)
    ensures Below(names).guest == if names == [] then Root() else Root() + "/" + Join(names)
    ensures Below(names).guest == Root() <==> names == []
    ensures names != [] ==> Root() + "/" <= Below(names).guest
    ensures DisplayFromGuest(Below(names).guest) == Below(names).display
  {
    hide Join, Clean, Plain, Root, DisplayFromGuest;
    RootIsPlain();
    BelowGuest(names);
    CleanRooted(ROOT_NAMES + names);
    BelowDisplay(names);
  }

  lemma BelowGuest(names: seq<string>)
    requires AllPlain(names)
    ensures Below(names).guest == if names == [] then Root() else Root() + "/" + Join(names)
  {
    hide Join, Clean, Plain, Root;
    RootIsPlain();
    if names == [] {
      assert ROOT_NAMES + names == ROOT_NAMES;
    } else {
      RootedConcat(ROOT_NAMES, names);
    }
  }

  lemma RootedConcat(a: seq<string>, b: seq<string>)
    requires a != [] && b != []
    ensures Rooted(a + b) == Rooted(a) + "/" + Join(b)
  {
    hide Join;
    JoinConcat(a, b);
    TextConcat(Join(a), Join(b));
  }

  lemma TextConcat(a: string, b: string)
    ensures "/" + (a + "/" + b) == ("/" + a) + "/" + b
  {
  }

  lemma BelowDisplay(names: seq<string>)
    requires AllPlain(names) && Clean(Below(names).guest) == Below(names).guest
    ensures DisplayFromGuest(Below(names).guest) == Below(names).display
  {
    hide Join, Clean, Plain, Root;
    BelowGuest(names);
    if names != [] {
      PlainJoinIsNotEmpty(names);
      assert (Root() + "/" + Join(names))[|Root()| + 1..] == Join(names);
    }
  }

  /** Every rooted normalised text comes from plain names. */
  lemma CleanOfRooted(s: string) returns (names: seq<string>)
    requires s != "" && s[0] == '/'
    ensures AllPlain(names) && Clean(s) == Rooted(names)
  {
    names := Normal(true, [], Split(s[1..]));
    RootedIsPlain([], Split(s[1..]));
  }

  /** Confinement: every accepted string is the workspace root or a path strictly
      below it, with no empty, `.` or `..` component. */
  lemma AcceptedIsConfined(raw: string) returns (names: seq<string>)
    requires Resolve(raw).Some?
    ensures AllPlain(names) && Resolve(raw) == Some(Below(names))
  {
    RootIsPlain();
    var trimmed := TrimSpace(raw);
    var value := if trimmed == "" then "." else trimmed;
    var guest := GuestOf(value).value;
    if guest == Root() {
      names := [];
    } else {
      var text := if Root() <= value then value else Root() + "/" + Clean(value);
      assert text[0] == '/';
      var all := CleanOfRooted(text);
      PrefixIsComponentPrefix(ROOT_NAMES, all);
      names := all[|ROOT_NAMES|..];
      assert ROOT_NAMES + names == all;
    }
    BelowText(names);
  }

  /** Showing a path and resolving what was shown gives the path back exactly
      when the shown text has no surrounding whitespace, and no line break or NUL. */
  lemma DisplayRoundTrip(names: seq<string>)
    requires AllPlain(names)
    ensures Resolve(Below(names).display) == Some(Below(names)) <==>
              names == [] || (TrimSpace(Join(names)) == Join(names) && !HasLineBreakOrNul(Join(names)))
  {
    hide Join, Clean, Plain, TrimSpace, GuestOf, DisplayFromGuest, HasLineBreakOrNul, Root;
    if names == [] {
      RootRoundTrip();
    } else if TrimSpace(Join(names)) == Join(names) {
      PlainJoinIsNotEmpty(names);
      BelowText(names);
      RelativeGuest(names);
    } else {
      ShorterIsAnother(names);
    }
  }

  lemma RootRoundTrip()
    ensures Resolve(".") == Some(Below([]))
  {
    hide Join, Clean, Plain;
    BelowText([]);
    assert Trimmed(".");
    TrimSpaceTrims(".");
    assert !HasLineBreakOrNul(".");
  }

  /** A relative list of plain names resolves to itself. */
  lemma RelativeGuest(names: seq<string>)
    requires AllPlain(names) && names != []
    ensures Join(names) != "." && !(Root() <= Join(names)) && !("/" <= Join(names))
    ensures GuestOf(Join(names)) == Some(Below(names).guest)
  {
    PlainJoinIsNotEmpty(names);
    CleanRelative(names);
    BelowText(names);
    CleanRooted(ROOT_NAMES + names);
    NoDotsText(names);
  }

  lemma NoDotsText(names: seq<string>)
    requires AllPlain(names) && names != []
    ensures Join(names) != "." && Join(names) != ".." && !("../" <= Join(names))
  {
    SplitJoin(names);
    assert Plain(names[0]);
    if Join(names) == "." || Join(names) == ".." {
      SplitPlainPart(Join(names));
    }
    if "../" <= Join(names) {
      var rest := Join(names)[3..];
      assert Join(names) == ".." + "/" + rest;
      SplitConcat("..", rest);
      SplitPlainPart("..");
    }
  }

  /** A trimmed text is shorter, so it cannot resolve to the longer path. */
  lemma ShorterIsAnother(names: seq<string>)
    requires AllPlain(names) && names != [] && TrimSpace(Join(names)) != Join(names)
    ensures Resolve(Join(names)) != Some(Below(names))
  {
    hide Join, Clean, Plain, TrimSpace, DisplayFromGuest, HasLineBreakOrNul, Root;
    BelowText(names);
    PlainJoinIsNotEmpty(names);
    TrimSpaceShortens(Join(names));
    var trimmed := TrimSpace(Join(names));
    var value := if trimmed == "" then "." else trimmed;
    CleanIsNoLonger(value);
    CleanIsNoLonger(Root() + "/" + Clean(value));
  }

  /** workspacePathContains. */
  predicate Contains(parent: string, child: string) {
    Clean(parent) + "/" <= Clean(child)
  }

  /** It holds exactly for strict component prefixes. */
  lemma ContainsIsStrictPrefix(parent: seq<string>, child: seq<string>)
    requires AllPlain(parent) && AllPlain(child)
    ensures Contains(Below(parent).guest, Below(child).guest) <==> parent < child
  {
    BelowText(parent);
    BelowText(child);
    var p, c := ROOT_NAMES + parent, ROOT_NAMES + child;
    CleanRooted(p);
    CleanRooted(c);
    PrefixIsComponentPrefix(p, c);
    if p < c {
      assert parent == p[|ROOT_NAMES|..] && child == c[|ROOT_NAMES|..];
    }
  }
}
