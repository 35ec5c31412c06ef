/** The loop of scripts/bundle_runtime.py that turns Python extension modules into frameworks. */
module Extensions {
  import opened Text
  import opened Paths

  /** Files hold the bytes of a binary or text that the loop writes. */
  datatype Content = Binary(bytes: seq<int>) | Written(text: string)

  type Tree = map<Path, Content>

  /** An extension module: the search root, the folders below it, and the file name. */
  datatype Extension = Extension(base: Path, folders: seq<string>, name: string) {
    function Place(): Path {
      base + folders + [name]
    }

    /** `relative.name.split(".")[0]` */
    function Stem(): string {
      SplitOn(name, '.')[0]
    }

    function Dotted(): string {
      JoinOn(folders + [Stem()], '.')
    }

    /** `extension.with_suffix(".fwork")` */
    function Marker(): Path {
      base + folders + [name[..|name| - |Suffix(name)|] + ".fwork"]
    }
  }

  function Frameworks(bundle: Path): Path {
    bundle + ["Frameworks"]
  }

  function Framework(bundle: Path, dotted: string): Path {
    Frameworks(bundle) + [dotted + ".framework"]
  }

  function Executable(bundle: Path, dotted: string): Path {
    Framework(bundle, dotted) + [dotted]
  }

  function Origin(bundle: Path, dotted: string): Path {
    Framework(bundle, dotted) + [dotted + ".origin"]
  }

  function Plist(bundle: Path, dotted: string): Path {
    Framework(bundle, dotted) + ["Info.plist"]
  }

  /** `str(path.relative_to(bundle)) + "\n"` */
  function Line(bundle: Path, path: Path): Content
    requires bundle <= path
  {
    Written(JoinOn(path[|bundle|..], '/') + "\n")
  }

  function Bases(bundle: Path): seq<Path> {
    [bundle + ["python", "lib", "python3.13", "lib-dynload"], bundle + ["python-packages"]]
  }

  predicate Found(bundle: Path, x: Extension) {
    x.base in Bases(bundle) && |x.name| >= 3 && x.name[|x.name| - 3..] == ".so"
  }

  lemma FoundBelow(bundle: Path, x: Extension)
    requires Found(bundle, x)
    ensures bundle <= x.base <= x.Place() && bundle <= x.Marker()
  {
  }

  /** The files after one turn of the loop; info is the property list of a framework. */
  function Relocate(tree: Tree, bundle: Path, x: Extension, info: string -> Content): Tree
    requires Found(bundle, x) && x.Place() in tree
  {
    FoundBelow(bundle, x);
    var name := x.Dotted();
    (tree - {x.Place()})
    [Executable(bundle, name) := tree[x.Place()]]
    [x.Marker() := Line(bundle, Executable(bundle, name))]
    [Origin(bundle, name) := Line(bundle, x.Marker())]
    [Plist(bundle, name) := info(name)]
  }

  // ---------- which paths can be equal ----------

  lemma BaseIs(bundle: Path, x: Extension)
    requires Found(bundle, x)
    ensures |x.base| > |bundle| && x.base[..|bundle|] == bundle
    ensures x.base[|bundle|] == if x.base == Bases(bundle)[0] then "python" else "python-packages"
    ensures x.base[|bundle|] != "Frameworks"
  {
    assert |"python"| != |"Frameworks"| && |"python-packages"| != |"Frameworks"|;
  }

  lemma InBases(bundle: Path, x: Extension, rest: Path)
    requires Found(bundle, x)
    ensures !(Frameworks(bundle) <= x.base + rest)
  {
    BaseIs(bundle, x);
    assert (x.base + rest)[|bundle|] == x.base[|bundle|] && Frameworks(bundle)[|bundle|] == "Frameworks";
  }

  lemma InFrameworks(bundle: Path, dotted: string, rest: Path)
    ensures Frameworks(bundle) <= Framework(bundle, dotted) + rest
    ensures (Framework(bundle, dotted) + rest)[|bundle| + 1] == dotted + ".framework"
  {
  }

  lemma DifferentFrameworks(bundle: Path, a: string, b: string, rest: Path, more: Path)
    requires a != b
    ensures Framework(bundle, a) + rest != Framework(bundle, b) + more
  {
    InFrameworks(bundle, a, rest);
    InFrameworks(bundle, b, more);
    SuffixCancels(a, b, ".framework");
  }

  lemma SuffixCancels(a: string, b: string, suffix: string)
    ensures a + suffix == b + suffix ==> a == b
  {
    if a + suffix == b + suffix {
      assert |a + suffix| == |b + suffix|;
      assert a == (a + suffix)[..|a|] == (b + suffix)[..|b|] == b;
    }
  }

  lemma SameBase(bundle: Path, x: Extension, y: Extension, a: string, b: string)
    requires Found(bundle, x) && Found(bundle, y) && x.base + x.folders + [a] == y.base + y.folders + [b]
    ensures x.base == y.base && x.folders == y.folders && a == b
  {
    BaseIs(bundle, x);
    BaseIs(bundle, y);
    var p, q := x.base + x.folders + [a], y.base + y.folders + [b];
    assert p[|bundle|] == x.base[|bundle|] && q[|bundle|] == y.base[|bundle|];
    assert |"python"| != |"python-packages"|;
    assert x.base == y.base;
    assert p[|x.base|..|p| - 1] == x.folders && q[|y.base|..|q| - 1] == y.folders;
    assert p[|p| - 1] == a && q[|q| - 1] == b;
  }

  lemma {:induction false} FirstPartOf(s: string, c: char, t: string)
    ensures SplitOn(s + [c] + t, c)[0] == SplitOn(s, c)[0]
  {
    if s == "" {
      assert "" + [c] + t == [c] + t && ([c] + t)[1..] == t;
    } else {
      assert (s + [c] + t)[1..] == s[1..] + [c] + t;
      FirstPartOf(s[1..], c, t);
    }
  }

  /** The stem can be read off the marker. */
  lemma MarkerStem(bundle: Path, x: Extension)
    requires Found(bundle, x)
    ensures x.Stem() == SplitOn(x.name[..|x.name| - |Suffix(x.name)|] + ".fwork", '.')[0]
  {
    var n := |x.name| - 3;
    var s := x.name[..n];
    assert x.name == s + "." + "so";
    LastDotIs(s, "so");
    var kept := x.name[..|x.name| - |Suffix(x.name)|];
    assert kept + ".fwork" == kept + ['.'] + "fwork";
    FirstPartOf(kept, '.', "fwork");
    if n > 0 {
      assert kept == s && x.name == s + ['.'] + "so";
      FirstPartOf(s, '.', "so");
    } else {
      assert kept == x.name;
    }
  }

  lemma SameMarker(bundle: Path, x: Extension, y: Extension)
    requires Found(bundle, x) && Found(bundle, y) && x.Marker() == y.Marker()
    ensures x.Dotted() == y.Dotted() && x.base == y.base
  {
    MarkerStem(bundle, x);
    MarkerStem(bundle, y);
    SameBase(bundle, x, y, x.name[..|x.name| - |Suffix(x.name)|] + ".fwork", y.name[..|y.name| - |Suffix(y.name)|] + ".fwork");
  }

  lemma MarkerIsNoExtension(bundle: Path, x: Extension, y: Extension)
    requires Found(bundle, x) && Found(bundle, y)
    ensures x.Marker() != y.Place()
  {
    var m := x.name[..|x.name| - |Suffix(x.name)|] + ".fwork";
    if x.Marker() == y.Place() {
      SameBase(bundle, x, y, m, y.name);
    }
    assert m[|m| - 1] == 'k';
    assert y.name[|y.name| - 1] == ".so"[2];
  }

  // ---------- one turn ----------

  function Get(tree: Tree, path: Path): Option<Content> {
    if path in tree then Some(tree[path]) else None
  }

  lemma NotInFrameworks(bundle: Path, x: Extension)
    requires Found(bundle, x)
    ensures !(Frameworks(bundle) <= x.Place()) && !(Frameworks(bundle) <= x.Marker())
  {
    InBases(bundle, x, x.folders + [x.name]);
    InBases(bundle, x, x.folders + [x.name[..|x.name| - |Suffix(x.name)|] + ".fwork"]);
    assert x.base + (x.folders + [x.name]) == x.Place();
    assert x.base + (x.folders + [x.name[..|x.name| - |Suffix(x.name)|] + ".fwork"]) == x.Marker();
  }

  /** A path that a turn does not write. */
  lemma Untouched(tree: Tree, bundle: Path, x: Extension, info: string -> Content, p: Path)
    requires Found(bundle, x) && x.Place() in tree
    requires p != x.Place() && p != x.Marker()
    requires forall file :: p != Framework(bundle, x.Dotted()) + [file]
    ensures Get(Relocate(tree, bundle, x, info), p) == Get(tree, p)
  {
    var name := x.Dotted();
    assert Executable(bundle, name) == Framework(bundle, name) + [name];
    assert Origin(bundle, name) == Framework(bundle, name) + [name + ".origin"];
    assert Plist(bundle, name) == Framework(bundle, name) + ["Info.plist"];
  }

  lemma BasesUntouched(tree: Tree, bundle: Path, x: Extension, info: string -> Content, p: Path)
    requires Found(bundle, x) && x.Place() in tree && p != x.Place() && p != x.Marker() && !(Frameworks(bundle) <= p)
    ensures Get(Relocate(tree, bundle, x, info), p) == Get(tree, p)
  {
    forall file
      ensures p != Framework(bundle, x.Dotted()) + [file]
    {
      InFrameworks(bundle, x.Dotted(), [file]);
    }
    Untouched(tree, bundle, x, info, p);
  }

  lemma FrameworkUntouched(tree: Tree, bundle: Path, x: Extension, info: string -> Content, dotted: string, file: string)
    requires Found(bundle, x) && x.Place() in tree && dotted != x.Dotted()
    ensures Get(Relocate(tree, bundle, x, info), Framework(bundle, dotted) + [file]) == Get(tree, Framework(bundle, dotted) + [file])
  {
    var p := Framework(bundle, dotted) + [file];
    InFrameworks(bundle, dotted, [file]);
    NotInFrameworks(bundle, x);
    forall other
      ensures p != Framework(bundle, x.Dotted()) + [other]
    {
      DifferentFrameworks(bundle, dotted, x.Dotted(), [file], [other]);
    }
    Untouched(tree, bundle, x, info, p);
  }

  /** x has become a framework that holds content: the marker names the executable, and the framework
      names the marker and has its property list. */
  predicate Placed(tree: Tree, bundle: Path, x: Extension, content: Content, info: string -> Content)
    requires Found(bundle, x)
  {
    FoundBelow(bundle, x);
    var name := x.Dotted();
    && Get(tree, Executable(bundle, name)) == Some(content)
    && Get(tree, x.Marker()) == Some(Line(bundle, Executable(bundle, name)))
    && Get(tree, Origin(bundle, name)) == Some(Line(bundle, x.Marker()))
    && Get(tree, Plist(bundle, name)) == Some(info(name))
    && x.Place() !in tree
  }

  /** The name of the property list is taken. */
  const TAKEN := "Info.plist"

  /** What the executable of a framework holds at the end of a turn that moves content there. */
  function Held(dotted: string, content: Content, info: string -> Content): Content {
    if dotted == TAKEN then info(dotted) else content
  }

  /** The three files that a turn writes into a framework. */
  lemma FrameworkWritten(tree: Tree, bundle: Path, x: Extension, info: string -> Content)
    requires Found(bundle, x) && x.Place() in tree
    ensures var after, name := Relocate(tree, bundle, x, info), x.Dotted();
            && Get(after, Executable(bundle, name)) == Some(Held(name, tree[x.Place()], info))
            && Get(after, Origin(bundle, name)) == (FoundBelow(bundle, x); Some(Line(bundle, x.Marker())))
            && Get(after, Plist(bundle, name)) == Some(info(name))
  {
    var name := x.Dotted();
    NotInFrameworks(bundle, x);
    InFrameworks(bundle, name, [name]);
    InFrameworks(bundle, name, [name + ".origin"]);
    FilesApart(bundle, name);
  }

  lemma FilesApart(bundle: Path, name: string)
    ensures Executable(bundle, name) != Origin(bundle, name) && Origin(bundle, name) != Plist(bundle, name)
    ensures Executable(bundle, name) == Plist(bundle, name) <==> name == TAKEN
  {
    var n := |Framework(bundle, name)|;
    assert Executable(bundle, name)[n] == name && Origin(bundle, name)[n] == name + ".origin" && Plist(bundle, name)[n] == TAKEN;
    var o := name + ".origin";
    assert o[|o| - 1] == 'n' && TAKEN[|TAKEN| - 1] == 't';
  }

  /** What a turn does below the two roots: x is gone and its marker is there. */
  lemma BasesWritten(tree: Tree, bundle: Path, x: Extension, info: string -> Content)
    requires Found(bundle, x) && x.Place() in tree
    ensures var after := Relocate(tree, bundle, x, info);
            && x.Place() !in after
            && Get(after, x.Marker()) == (FoundBelow(bundle, x); Some(Line(bundle, Executable(bundle, x.Dotted()))))
  {
    var name := x.Dotted();
    NotInFrameworks(bundle, x);
    MarkerIsNoExtension(bundle, x, x);
    InFrameworks(bundle, name, [name]);
    InFrameworks(bundle, name, [name + ".origin"]);
    InFrameworks(bundle, name, [TAKEN]);
  }

  /** A turn places its extension, and any other that is gone and would have the same framework and marker. */
  lemma TurnPlaces(tree: Tree, bundle: Path, x: Extension, y: Extension, info: string -> Content)
    requires Found(bundle, x) && Found(bundle, y) && x.Place() in tree
    requires x == y || (x.Dotted() == y.Dotted() && x.Marker() == y.Marker() && y.Place() !in tree)
    ensures Placed(Relocate(tree, bundle, x, info), bundle, y, Held(y.Dotted(), tree[x.Place()], info), info)
  {
    FrameworkWritten(tree, bundle, x, info);
    BasesWritten(tree, bundle, x, info);
    if x != y {
      MarkerIsNoExtension(bundle, x, y);
      NotInFrameworks(bundle, y);
      BasesUntouched(tree, bundle, x, info, y.Place());
    }
  }

  /** A turn for x leaves another extension, or what became of it, alone. */
  lemma TurnKeeps(tree: Tree, bundle: Path, x: Extension, y: Extension, info: string -> Content, content: Content)
    requires Found(bundle, x) && Found(bundle, y) && x.Place() in tree && x.Dotted() != y.Dotted()
    ensures Placed(tree, bundle, y, content, info) ==> Placed(Relocate(tree, bundle, x, info), bundle, y, content, info)
  {
    NotInFrameworks(bundle, y);
    MarkerIsNoExtension(bundle, x, y);
    MarkerIsNoExtension(bundle, y, x);
    if x.Place() == y.Place() {
      SameBase(bundle, x, y, x.name, y.name);
    }
    if x.Marker() == y.Marker() {
      SameMarker(bundle, x, y);
    }
    BasesUntouched(tree, bundle, x, info, y.Place());
    BasesUntouched(tree, bundle, x, info, y.Marker());
    FrameworkUntouched(tree, bundle, x, info, y.Dotted(), y.Dotted());
    FrameworkUntouched(tree, bundle, x, info, y.Dotted(), y.Dotted() + ".origin");
    FrameworkUntouched(tree, bundle, x, info, y.Dotted(), "Info.plist");
  }

  // ---------- the loop ----------

  predicate SlashFree(path: Path) {
    forall i | 0 <= i < |path| :: '/' !in path[i]
  }

  /** `base.rglob("*.so")` finds p under one of the roots. */
  predicate IsExtension(bundle: Path, p: Path) {
    && (Bases(bundle)[0] < p || Bases(bundle)[1] < p)
    && var name := p[|p| - 1]; |name| >= 3 && name[|name| - 3..] == ".so"
  }

  /** The extensions that the search finds are distinct files. */
  ghost predicate Search(tree: Tree, bundle: Path, found: seq<Extension>) {
    && (forall i | 0 <= i < |found| :: Found(bundle, found[i]) && found[i].Place() in tree)
    && (forall i, j | 0 <= i < j < |found| :: found[i].Place() != found[j].Place())
  }

  /** The search misses no `.so` file below the two roots. */
  ghost predicate Complete(tree: Tree, bundle: Path, found: seq<Extension>) {
    forall p | p in tree && IsExtension(bundle, p) :: exists i :: 0 <= i < |found| && found[i].Place() == p
  }

  /** The components of a path hold no slash. */
  predicate Plain(found: seq<Extension>) {
    forall i | 0 <= i < |found| :: SlashFree(found[i].Marker())
  }

  /** The files after the first n turns. */
  function RelocateAll(tree: Tree, bundle: Path, found: seq<Extension>, info: string -> Content, n: nat): Tree
    requires n <= |found| && forall i | 0 <= i < |found| :: Found(bundle, found[i])
  {
    if n == 0 then tree
    else
      var before := RelocateAll(tree, bundle, found, info, n - 1);
      if found[n - 1].Place() in before then Relocate(before, bundle, found[n - 1], info) else before
  }

  /** Extensions whose turn has not come are where they were. */
  lemma {:induction false} StillThere(tree: Tree, bundle: Path, found: seq<Extension>, info: string -> Content, n: nat, i: nat)
    requires Search(tree, bundle, found) && n <= i < |found|
    ensures Get(RelocateAll(tree, bundle, found, info, n), found[i].Place()) == Get(tree, found[i].Place())
  {
    if n > 0 {
      StillThere(tree, bundle, found, info, n - 1, i);
      var before, x, y := RelocateAll(tree, bundle, found, info, n - 1), found[n - 1], found[i];
      if x.Place() in before {
        MarkerIsNoExtension(bundle, x, y);
        NotInFrameworks(bundle, y);
        BasesUntouched(before, bundle, x, info, y.Place());
      }
    }
  }

  lemma OneTurn(tree: Tree, bundle: Path, found: seq<Extension>, info: string -> Content, n: nat)
    requires Search(tree, bundle, found) && n < |found|
    ensures var before := RelocateAll(tree, bundle, found, info, n);
            && found[n].Place() in before && before[found[n].Place()] == tree[found[n].Place()]
            && RelocateAll(tree, bundle, found, info, n + 1) == Relocate(before, bundle, found[n], info)
  {
    StillThere(tree, bundle, found, info, n, n);
  }

  lemma PlacedNow(tree: Tree, bundle: Path, found: seq<Extension>, info: string -> Content, n: nat)
    requires Search(tree, bundle, found) && n < |found|
    ensures var x := found[n];
            Placed(RelocateAll(tree, bundle, found, info, n + 1), bundle, x, Held(x.Dotted(), tree[x.Place()], info), info)
  {
    OneTurn(tree, bundle, found, info, n);
    TurnPlaces(RelocateAll(tree, bundle, found, info, n), bundle, found[n], found[n], info);
  }

  lemma PlacedNext(tree: Tree, bundle: Path, found: seq<Extension>, info: string -> Content, n: nat, y: Extension, content: Content)
    requires Search(tree, bundle, found) && n < |found| && Found(bundle, y) && found[n].Dotted() != y.Dotted()
    requires Placed(RelocateAll(tree, bundle, found, info, n), bundle, y, content, info)
    ensures Placed(RelocateAll(tree, bundle, found, info, n + 1), bundle, y, content, info)
  {
    OneTurn(tree, bundle, found, info, n);
    TurnKeeps(RelocateAll(tree, bundle, found, info, n), bundle, found[n], y, info, content);
  }

  lemma PlacedAgain(tree: Tree, bundle: Path, found: seq<Extension>, info: string -> Content, n: nat, y: Extension)
    requires Search(tree, bundle, found) && n < |found| && Found(bundle, y)
    requires found[n].Dotted() == y.Dotted() && found[n].Marker() == y.Marker()
    requires y.Place() !in RelocateAll(tree, bundle, found, info, n)
    ensures Placed(RelocateAll(tree, bundle, found, info, n + 1), bundle, y, Held(y.Dotted(), tree[found[n].Place()], info), info)
  {
    OneTurn(tree, bundle, found, info, n);
    TurnPlaces(RelocateAll(tree, bundle, found, info, n), bundle, found[n], y, info);
  }

  /** Two extensions that cannot share a framework: their markers or their bytes differ. */
  predicate Collide(tree: Tree, x: Extension, y: Extension)
    requires x.Place() in tree && y.Place() in tree
  {
    x.Dotted() == y.Dotted() && (x.Marker() != y.Marker() || tree[x.Place()] != tree[y.Place()])
  }

  ghost predicate NoCollision(tree: Tree, bundle: Path, found: seq<Extension>)
    requires Search(tree, bundle, found)
  {
    forall i, j | 0 <= i < j < |found| :: !Collide(tree, found[i], found[j])
  }

  lemma PlacedLater(tree: Tree, bundle: Path, found: seq<Extension>, info: string -> Content, n: nat, y: Extension)
    requires Search(tree, bundle, found) && n < |found| && Found(bundle, y) && y.Place() in tree && !Collide(tree, y, found[n])
    requires Placed(RelocateAll(tree, bundle, found, info, n), bundle, y, Held(y.Dotted(), tree[y.Place()], info), info)
    ensures Placed(RelocateAll(tree, bundle, found, info, n + 1), bundle, y, Held(y.Dotted(), tree[y.Place()], info), info)
  {
    if found[n].Dotted() == y.Dotted() {
      PlacedAgain(tree, bundle, found, info, n, y);
    } else {
      PlacedNext(tree, bundle, found, info, n, y, Held(y.Dotted(), tree[y.Place()], info));
    }
  }

  lemma {:induction false} PlacedSoFar(tree: Tree, bundle: Path, found: seq<Extension>, info: string -> Content, n: nat, i: nat)
    requires Search(tree, bundle, found) && NoCollision(tree, bundle, found) && i <= n < |found|
    ensures Placed(RelocateAll(tree, bundle, found, info, n + 1), bundle, found[i],
                   Held(found[i].Dotted(), tree[found[i].Place()], info), info)
  {
    if i == n {
      PlacedNow(tree, bundle, found, info, n);
    } else {
      PlacedSoFar(tree, bundle, found, info, n - 1, i);
      assert !Collide(tree, found[i], found[n]);
      PlacedLater(tree, bundle, found, info, n, found[i]);
    }
  }

  lemma LineDetermines(bundle: Path, a: Path, b: Path)
    requires bundle < a && bundle < b && SlashFree(a) && SlashFree(b) && Line(bundle, a) == Line(bundle, b)
    ensures a == b
  {
    var p, q := a[|bundle|..], b[|bundle|..];
    SuffixCancels(JoinOn(p, '/'), JoinOn(q, '/'), "\n");
    SplitOfJoin(p, '/');
    SplitOfJoin(q, '/');
    assert a == bundle + p && b == bundle + q;
  }

  /** A framework names back one marker and holds one executable. */
  lemma OneOrigin(tree: Tree, bundle: Path, x: Extension, y: Extension, c: Content, d: Content, info: string -> Content)
    requires Found(bundle, x) && Found(bundle, y) && Placed(tree, bundle, x, c, info) && Placed(tree, bundle, y, d, info)
    requires SlashFree(x.Marker()) && SlashFree(y.Marker()) && x.Dotted() == y.Dotted()
    ensures x.Marker() == y.Marker() && c == d
  {
    FoundBelow(bundle, x);
    FoundBelow(bundle, y);
    BaseIs(bundle, x);
    BaseIs(bundle, y);
    LineDetermines(bundle, x.Marker(), y.Marker());
  }

  ghost predicate AllPlaced(before: Tree, after: Tree, bundle: Path, found: seq<Extension>, info: string -> Content)
    requires Search(before, bundle, found)
  {
    forall i | 0 <= i < |found| :: Placed(after, bundle, found[i], before[found[i].Place()], info)
  }

  /** An extension with the property list's name holds what the property list will. */
  predicate TakenFits(tree: Tree, found: seq<Extension>, info: string -> Content)
    requires forall i | 0 <= i < |found| :: found[i].Place() in tree
  {
    forall i | 0 <= i < |found| :: found[i].Dotted() == TAKEN ==> info(TAKEN) == tree[found[i].Place()]
  }

  lemma AllHeld(tree: Tree, bundle: Path, found: seq<Extension>, info: string -> Content, i: nat)
    requires Search(tree, bundle, found) && NoCollision(tree, bundle, found) && i < |found|
    ensures var y := found[i];
            Placed(RelocateAll(tree, bundle, found, info, |found|), bundle, y, Held(y.Dotted(), tree[y.Place()], info), info)
  {
    PlacedSoFar(tree, bundle, found, info, |found| - 1, i);
  }

  lemma CollisionsFail(tree: Tree, after: Tree, bundle: Path, found: seq<Extension>, info: string -> Content)
    requires Search(tree, bundle, found) && Plain(found) && AllPlaced(tree, after, bundle, found, info)
    ensures NoCollision(tree, bundle, found)
  {
    forall i, j | 0 <= i < j < |found|
      ensures !Collide(tree, found[i], found[j])
    {
      if found[i].Dotted() == found[j].Dotted() {
        OneOrigin(after, bundle, found[i], found[j], tree[found[i].Place()], tree[found[j].Place()], info);
      }
    }
  }

  /** Every extension ends up in a framework that holds its bytes, with marker and origin naming each
      other's places, exactly if no two collide and none has the property list's name without being
      the same bytes. */
  lemma RelocationExact(tree: Tree, bundle: Path, found: seq<Extension>, info: string -> Content)
    requires Search(tree, bundle, found) && Plain(found)
    ensures AllPlaced(tree, RelocateAll(tree, bundle, found, info, |found|), bundle, found, info)
            <==> NoCollision(tree, bundle, found) && TakenFits(tree, found, info)
  {
    var after := RelocateAll(tree, bundle, found, info, |found|);
    if AllPlaced(tree, after, bundle, found, info) {
      CollisionsFail(tree, after, bundle, found, info);
    }
    if NoCollision(tree, bundle, found) {
      forall i | 0 <= i < |found|
        ensures Placed(after, bundle, found[i], tree[found[i].Place()], info)
                <==> (found[i].Dotted() == TAKEN ==> info(TAKEN) == tree[found[i].Place()])
      {
        AllHeld(tree, bundle, found, info, i);
      }
    }
  }

  // ---------- no extension is left ----------

  lemma FoundIsExtension(bundle: Path, x: Extension)
    requires Found(bundle, x)
    ensures IsExtension(bundle, x.Place()) && !IsExtension(bundle, x.Marker())
  {
    var m := x.name[..|x.name| - |Suffix(x.name)|] + ".fwork";
    assert x.Place()[|x.Place()| - 1] == x.name && x.Marker()[|x.Marker()| - 1] == m;
    assert m[|m| - 1] == 'k' && ".so"[2] == 'o';
    assert m[|m| - 3..][2] == m[|m| - 1];
  }

  lemma FrameworkIsNoExtension(bundle: Path, dotted: string, file: string)
    ensures !IsExtension(bundle, Framework(bundle, dotted) + [file])
  {
    var p := Framework(bundle, dotted) + [file];
    assert p[|bundle|] == "Frameworks";
    assert Bases(bundle)[0][|bundle|] == "python" && Bases(bundle)[1][|bundle|] == "python-packages";
    assert |"python"| != |"Frameworks"| && |"python-packages"| != |"Frameworks"|;
  }

  /** A turn makes no `.so` file below the roots. */
  lemma TurnMakesNone(tree: Tree, bundle: Path, x: Extension, info: string -> Content, p: Path)
    requires Found(bundle, x) && x.Place() in tree && IsExtension(bundle, p)
    ensures p in Relocate(tree, bundle, x, info) <==> p in tree && p != x.Place()
  {
    FoundIsExtension(bundle, x);
    FrameworkIsNoExtension(bundle, x.Dotted(), x.Dotted());
    FrameworkIsNoExtension(bundle, x.Dotted(), x.Dotted() + ".origin");
    FrameworkIsNoExtension(bundle, x.Dotted(), TAKEN);
  }

  predicate Pending(found: seq<Extension>, n: nat, p: Path)
    requires n <= |found|
  {
    forall i | 0 <= i < n :: found[i].Place() != p
  }

  lemma ExtensionsLater(tree: Tree, bundle: Path, found: seq<Extension>, info: string -> Content, n: nat, p: Path)
    requires Search(tree, bundle, found) && n < |found| && IsExtension(bundle, p)
    ensures p in RelocateAll(tree, bundle, found, info, n + 1)
            <==> p in RelocateAll(tree, bundle, found, info, n) && p != found[n].Place()
  {
    OneTurn(tree, bundle, found, info, n);
    TurnMakesNone(RelocateAll(tree, bundle, found, info, n), bundle, found[n], info, p);
  }

  lemma {:induction false} ExtensionsLeft(tree: Tree, bundle: Path, found: seq<Extension>, info: string -> Content, n: nat, p: Path)
    requires Search(tree, bundle, found) && n <= |found| && IsExtension(bundle, p)
    ensures p in RelocateAll(tree, bundle, found, info, n) <==> p in tree && Pending(found, n, p)
  {
    if n > 0 {
      ExtensionsLeft(tree, bundle, found, info, n - 1, p);
      ExtensionsLater(tree, bundle, found, info, n - 1, p);
      assert Pending(found, n, p) <==> Pending(found, n - 1, p) && found[n - 1].Place() != p;
    }
  }

  /** After the loop no `.so` file is left below the two roots, whatever the names. */
  lemma NoExtensionLeft(tree: Tree, bundle: Path, found: seq<Extension>, info: string -> Content, p: Path)
    requires Search(tree, bundle, found) && Complete(tree, bundle, found)
    requires bundle + ["python", "lib", "python3.13", "lib-dynload"] < p || bundle + ["python-packages"] < p
    requires |p[|p| - 1]| >= 3 && p[|p| - 1][|p[|p| - 1]| - 3..] == ".so"
    ensures p !in RelocateAll(tree, bundle, found, info, |found|)
  {
    ExtensionsLeft(tree, bundle, found, info, |found|, p);
  }

  /** Below the two roots nothing else changes: a file that is no extension and no marker stays as it was. */
  lemma {:induction false} OthersStay(tree: Tree, bundle: Path, found: seq<Extension>, info: string -> Content, n: nat, p: Path)
    requires n <= |found| && Search(tree, bundle, found) && !(bundle + ["Frameworks"] <= p)
    requires forall i | 0 <= i < |found| :: p != found[i].Place() && p != found[i].Marker()
    ensures Get(RelocateAll(tree, bundle, found, info, n), p) == Get(tree, p)
  {
    if n > 0 {
      OthersStay(tree, bundle, found, info, n - 1, p);
      OneStays(tree, bundle, found, info, n - 1, p);
    }
  }

  lemma OneStays(tree: Tree, bundle: Path, found: seq<Extension>, info: string -> Content, n: nat, p: Path)
    requires n < |found| && (forall i | 0 <= i < |found| :: Found(bundle, found[i])) && !(bundle + ["Frameworks"] <= p)
    requires p != found[n].Place() && p != found[n].Marker()
    ensures Get(RelocateAll(tree, bundle, found, info, n + 1), p) == Get(RelocateAll(tree, bundle, found, info, n), p)
  {
    var before := RelocateAll(tree, bundle, found, info, n);
    if found[n].Place() in before {
      BasesUntouched(before, bundle, found[n], info, p);
    }
  }

  // ---------- the places, spelled out ----------

  lemma Spelled(bundle: Path, x: Extension, stem: string, more: string)
    requires Found(bundle, x) && x.name == stem + ['.'] + more && '.' !in stem
    ensures x.Dotted() == JoinOn(x.folders + [stem], '.')
  {
    SplitFirst(stem, '.', more);
  }

  lemma MarkerSpelled(bundle: Path, x: Extension)
    requires Found(bundle, x) && x.name != ".so"
    ensures x.Marker() == x.base + x.folders + [x.name[..|x.name| - 3] + ".fwork"]
  {
    KeptName(bundle, x);
  }

  lemma LineSpelled(bundle: Path, name: string)
    ensures Line(bundle, Executable(bundle, name)) == Written("Frameworks/" + name + ".framework/" + name + "\n")
  {
    var rel := ["Frameworks", name + ".framework", name];
    assert Executable(bundle, name) == bundle + rel && Executable(bundle, name)[|bundle|..] == rel;
    assert rel[1..] == [name + ".framework", name] && rel[1..][1..] == [name];
    assert JoinOn([name], '/') == name;
    assert JoinOn([name + ".framework", name], '/') == name + ".framework" + ['/'] + name;
    assert JoinOn(rel, '/') == "Frameworks" + ['/'] + (name + ".framework" + ['/'] + name);
  }

  /** A placed extension: folders and the first part of the file name, joined by dots, name the framework. It
      holds the content, its property list, and where the marker is; the marker says where it is. */
  lemma PlacedSpelled(tree: Tree, bundle: Path, x: Extension, stem: string, more: string, content: Content, info: string -> Content)
    requires Found(bundle, x) && x.name == stem + ['.'] + more && '.' !in stem && x.name != ".so"
    requires Placed(tree, bundle, x, content, info)
    ensures var name := JoinOn(x.folders + [stem], '.');
            var folder := bundle + ["Frameworks"] + [name + ".framework"];
            var marker := x.base + x.folders + [x.name[..|x.name| - 3] + ".fwork"];
            && Get(tree, folder + [name]) == Some(content) && Get(tree, folder + ["Info.plist"]) == Some(info(name))
            && Get(tree, marker) == Some(Written("Frameworks/" + name + ".framework/" + name + "\n"))
            && bundle <= marker && Get(tree, folder + [name + ".origin"]) == Some(Written(JoinOn(marker[|bundle|..], '/') + "\n"))
            && x.base + x.folders + [x.name] !in tree
  {
    Spelled(bundle, x, stem, more);
    MarkerSpelled(bundle, x);
    LineSpelled(bundle, x.Dotted());
    FoundBelow(bundle, x);
  }

  // ---------- when dotted names are distinct ----------

  /** With folder names free of dots, the dotted name determines the folders and the stem. */
  lemma DottedInjective(x: Extension, y: Extension)
    requires forall i | 0 <= i < |x.folders| :: '.' !in x.folders[i]
    requires forall i | 0 <= i < |y.folders| :: '.' !in y.folders[i]
    ensures x.Dotted() == y.Dotted() <==> x.folders == y.folders && x.Stem() == y.Stem()
  {
    SplitHasNone(x.name, '.');
    SplitHasNone(y.name, '.');
    var p, q := x.folders + [x.Stem()], y.folders + [y.Stem()];
    if x.Dotted() == y.Dotted() {
      SplitOfJoin(p, '.');
      SplitOfJoin(q, '.');
      assert p[..|p| - 1] == x.folders && q[..|q| - 1] == y.folders;
      assert p[|p| - 1] == x.Stem() && q[|q| - 1] == y.Stem();
    }
  }

  ghost predicate DistinctNames(found: seq<Extension>) {
    forall i, j | 0 <= i < j < |found| :: found[i].Dotted() != found[j].Dotted()
  }

  /** Only a file named `.so`, without a stem, can have another's marker. */
  lemma DistinctMarkers(bundle: Path, x: Extension, y: Extension)
    requires Found(bundle, x) && Found(bundle, y) && x.name != ".so" && y.name != ".so"
    ensures x.Marker() == y.Marker() ==> x.Place() == y.Place()
  {
    KeptName(bundle, x);
    KeptName(bundle, y);
    if x.Marker() == y.Marker() {
      SameBase(bundle, x, y, x.name[..|x.name| - 3] + ".fwork", y.name[..|y.name| - 3] + ".fwork");
      SuffixCancels(x.name[..|x.name| - 3], y.name[..|y.name| - 3], ".fwork");
      assert x.name == x.name[..|x.name| - 3] + ".so" && y.name == y.name[..|y.name| - 3] + ".so";
    }
  }

  lemma KeptName(bundle: Path, x: Extension)
    requires Found(bundle, x) && x.name != ".so"
    ensures Suffix(x.name) == ".so"
  {
    var s := x.name[..|x.name| - 3];
    assert x.name == s + "." + "so";
    LastDotIs(s, "so");
  }

  /** With a stem in every name, the condition is that dotted names are distinct, and the one of the
      property list. */
  lemma StemsRelocate(tree: Tree, bundle: Path, found: seq<Extension>, info: string -> Content)
    requires Search(tree, bundle, found) && Plain(found) && forall i | 0 <= i < |found| :: found[i].name != ".so"
    ensures AllPlaced(tree, RelocateAll(tree, bundle, found, info, |found|), bundle, found, info)
            <==> DistinctNames(found) && TakenFits(tree, found, info)
  {
    RelocationExact(tree, bundle, found, info);
    forall i, j | 0 <= i < j < |found|
      ensures Collide(tree, found[i], found[j]) <==> found[i].Dotted() == found[j].Dotted()
    {
      DistinctMarkers(bundle, found[i], found[j]);
    }
  }

  /** Below folders whose names hold no dot, extensions that differ in folder or stem are all placed
      exactly if Info/plist, should it be among them, is the property list already. */
  lemma PlainFoldersRelocate(tree: Tree, bundle: Path, found: seq<Extension>, info: string -> Content)
    requires Search(tree, bundle, found) && Plain(found)
    requires forall i, k | 0 <= i < |found| && 0 <= k < |found[i].folders| :: '.' !in found[i].folders[k]
    requires forall i, j | 0 <= i < j < |found| :: found[i].folders != found[j].folders || found[i].Stem() != found[j].Stem()
    ensures AllPlaced(tree, RelocateAll(tree, bundle, found, info, |found|), bundle, found, info)
            <==> forall i | 0 <= i < |found| ::
                   found[i].folders == ["Info"] && found[i].Stem() == "plist" ==> info(TAKEN) == tree[found[i].Place()]
  {
    RelocationExact(tree, bundle, found, info);
    forall i, j | 0 <= i < j < |found|
      ensures !Collide(tree, found[i], found[j])
    {
      DottedInjective(found[i], found[j]);
    }
    forall i | 0 <= i < |found|
      ensures found[i].Dotted() == TAKEN <==> found[i].folders == ["Info"] && found[i].Stem() == "plist"
    {
      NotTaken(found[i]);
    }
  }

  /** The file plist.so in a folder Info is an extension that ends up as a copy of the property list. */
  lemma TakenIsLost(bundle: Path, content: Content, info: string -> Content) returns (x: Extension, tree: Tree)
    requires SlashFree(bundle) && info(TAKEN) != content
    ensures tree == map[x.Place() := content] && Search(tree, bundle, [x]) && Plain([x])
    ensures Get(RelocateAll(tree, bundle, [x], info, 1), Executable(bundle, TAKEN)) == Some(info(TAKEN))
    ensures !AllPlaced(tree, RelocateAll(tree, bundle, [x], info, 1), bundle, [x], info)
  {
    x := TakenExtension(bundle);
    tree := map[x.Place() := content];
    LoneTaken(tree, bundle, x, content, info);
  }

  lemma TakenExtension(bundle: Path) returns (x: Extension)
    requires SlashFree(bundle)
    ensures x == Extension(bundle + ["python-packages"], ["Info"], "plist.so")
    ensures Found(bundle, x) && SlashFree(x.Marker()) && x.Dotted() == TAKEN
  {
    x := Extension(bundle + ["python-packages"], ["Info"], "plist.so");
    TakenName(x.name);
    TakenMarker(bundle, x);
    NotTaken(x);
    assert Bases(bundle)[1] == x.base;
  }

  lemma LoneTaken(tree: Tree, bundle: Path, x: Extension, content: Content, info: string -> Content)
    requires Found(bundle, x) && SlashFree(x.Marker()) && x.Dotted() == TAKEN && info(TAKEN) != content
    requires tree == map[x.Place() := content]
    ensures Search(tree, bundle, [x]) && Plain([x])
    ensures Get(RelocateAll(tree, bundle, [x], info, 1), Executable(bundle, TAKEN)) == Some(info(TAKEN))
    ensures !AllPlaced(tree, RelocateAll(tree, bundle, [x], info, 1), bundle, [x], info)
  {
    var found := [x];
    assert found[0] == x;
    PlacedNow(tree, bundle, found, info, 0);
    RelocationExact(tree, bundle, found, info);
  }

  lemma TakenName(name: string)
    requires name == "plist.so"
    ensures SplitOn(name, '.')[0] == "plist" && |Suffix(name)| == 3 && name[..|name| - 3] == "plist" && name[|name| - 3..] == ".so"
  {
    var kept := "plist";
    assert name == kept + ['.'] + "so" && name == kept + "." + "so";
    SplitFirst(kept, '.', "so");
    LastDotIs(kept, "so");
  }

  lemma TakenMarker(bundle: Path, x: Extension)
    requires SlashFree(bundle) && x.base == bundle + ["python-packages"] && x.folders == ["Info"]
    requires |Suffix(x.name)| == 3 && |x.name| >= 3 && x.name[..|x.name| - 3] == "plist"
    ensures SlashFree(x.Marker())
  {
    assert x.Marker() == bundle + (["python-packages"] + ["Info"] + ["plist" + ".fwork"]);
  }

  lemma NotTaken(x: Extension)
    requires forall k | 0 <= k < |x.folders| :: '.' !in x.folders[k]
    ensures x.Dotted() == TAKEN <==> x.folders == ["Info"] && x.Stem() == "plist"
  {
    SplitHasNone(x.name, '.');
    var p := x.folders + [x.Stem()];
    SplitOfJoin(p, '.');
    SplitOfJoin(["Info", "plist"], '.');
    assert ["Info", "plist"][1..] == ["plist"];
    assert JoinOn(["Info", "plist"], '.') == TAKEN;
    assert p[..|p| - 1] == x.folders && ["Info", "plist"][..1] == ["Info"];
    assert x.folders == ["Info"] && x.Stem() == "plist" ==> p == ["Info", "plist"];
  }

  /** With a dot in a folder name, two folders can share a name. */
  lemma DottedFolderClashes(base: Path)
    ensures Extension(base, ["a.b"], "c.so").Dotted() == Extension(base, ["a", "b"], "c.so").Dotted()
  {
    var s := Extension(base, [], "c.so").Stem();
    assert ["a.b"] + [s] == ["a.b", s] && ["a", "b"] + [s] == ["a", "b", s];
    assert ["a.b", s][1..] == [s] && ["a", "b", s][1..] == ["b", s] && ["b", s][1..] == [s];
    assert JoinOn([s], '.') == s;
    assert JoinOn(["b", s], '.') == "b" + ['.'] + s;
    assert JoinOn(["a.b", s], '.') == "a.b" + ['.'] + s;
    assert JoinOn(["a", "b", s], '.') == "a" + ['.'] + ("b" + ['.'] + s);
  }

  class Bundler {
    var tree: Tree

    constructor (tree: Tree)
      ensures this.tree == tree
    {
      this.tree := tree;
    }

    /** The body of the loop. */
    method Turn(bundle: Path, x: Extension, info: string -> Content)
      requires Found(bundle, x) && x.Place() in tree
      modifies this
      ensures tree == Relocate(old(tree), bundle, x, info)
    {
      FoundBelow(bundle, x);
      var name := x.Dotted();
      var executable := Executable(bundle, name);
      var content := tree[x.Place()];
      tree := (tree - {x.Place()})[executable := content];
      tree := tree[x.Marker() := Line(bundle, executable)];
      tree := tree[Origin(bundle, name) := Line(bundle, x.Marker())];
      tree := tree[Plist(bundle, name) := info(name)];
    }

    /** The loop over the extensions that the search finds under both roots. */
    method TurnAll(bundle: Path, found: seq<Extension>, info: string -> Content)
      requires Search(tree, bundle, found)
      modifies this
      ensures tree == RelocateAll(old(tree), bundle, found, info, |found|)
    {
      ghost var before := tree;
      for n := 0 to |found|
        invariant tree == RelocateAll(before, bundle, found, info, n)
      {
        StillThere(before, bundle, found, info, n, n);
        Turn(bundle, found[n], info);
      }
    }
  }
}
