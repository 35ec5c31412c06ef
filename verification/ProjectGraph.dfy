/** Soundness of the object graph that scripts/generate_project.py builds. */
module ProjectGraph {
  import opened Text
  import opened Printer
  import opened ProjectModel

  predicate Unique(s: seq<string>) {
    forall i, j | 0 <= i < j < |s| :: s[i] != s[j]
  }

  function Keys(calls: seq<Call>): set<string> {
    set i | 0 <= i < |calls| :: calls[i].key
  }

  function ArgKeys(a: Arg): set<string> {
    match a
    case Plain(_) => {}
    case Ref(key) => {key}
    case Refs(keys) => set k | k in keys
  }

  /** The keys of the objects that a call refers to. */
  function Targets(c: Call): set<string> {
    set i, k | 0 <= i < |c.fields| && k in ArgKeys(c.fields[i].arg) :: k
  }

  /** Every object gets a new key and refers only to objects created before it. */
  ghost predicate Good(calls: seq<Call>) {
    forall i | 0 <= i < |calls| :: calls[i].key !in Keys(calls[..i]) && Targets(calls[i]) <= Keys(calls[..i])
  }

  lemma KeysAppend(a: seq<Call>, b: seq<Call>)
    ensures Keys(a + b) == Keys(a) + Keys(b)
  {
    var s := a + b;
    forall k | k in Keys(a) + Keys(b)
      ensures k in Keys(s)
    {
      if k in Keys(a) {
        var i :| 0 <= i < |a| && a[i].key == k;
        assert s[i].key == k;
      } else {
        var i :| 0 <= i < |b| && b[i].key == k;
        assert s[|a| + i].key == k;
      }
    }
    forall i | 0 <= i < |s|
      ensures s[i].key in Keys(a) + Keys(b)
    {
      assert if i < |a| then s[i] == a[i] else s[i] == b[i - |a|];
    }
  }

  lemma Snoc(s: seq<Call>, c: Call)
    requires Good(s) && c.key !in Keys(s) && Targets(c) <= Keys(s)
    ensures Good(s + [c])
    ensures Keys(s + [c]) == Keys(s) + {c.key}
  {
    KeysAppend(s, [c]);
    assert [c][0].key in Keys([c]);
    var t := s + [c];
    forall i | 0 <= i < |t|
      ensures t[i].key !in Keys(t[..i]) && Targets(t[i]) <= Keys(t[..i])
    {
      if i < |s| {
        assert t[..i] == s[..i];
      } else {
        assert t[..i] == s;
      }
    }
  }

  // ---------- source files ----------

  lemma SourceName(name: string)
    requires IsSource(name)
    ensures name != "" && name[|name| - 1] != 'd' && '.' in name
  {
    var i := LastDot(name);
    assert name[i..][|name[i..]| - 1] == name[|name| - 1];
  }

  lemma BuildKeyFacts(name: string)
    ensures BuildKey(name)[|BuildKey(name)| - 1] == 'd'
    ensures '.' in name ==> '.' in BuildKey(name)
  {
    assert "-build"[5] == 'd';
    if '.' in name {
      var i :| 0 <= i < |name| && name[i] == '.';
      assert BuildKey(name)[i] == '.';
    }
  }

  lemma BuildKeyInjective(a: string, b: string)
    requires BuildKey(a) == BuildKey(b)
    ensures a == b
  {
    assert |BuildKey(a)| == |a| + 6 && |BuildKey(b)| == |b| + 6;
    assert a == BuildKey(a)[..|a|];
    assert b == BuildKey(b)[..|b|];
  }

  ghost predicate FromListing(k: string, listing: seq<string>) {
    exists name | name in listing :: IsSource(name) && (k == name || (k == BuildKey(name) && !IsHeader(name)))
  }

  lemma {:induction false} FileCallsGood(listing: seq<string>)
    requires Unique(listing)
    ensures Good(FileCalls(listing))
    ensures forall k :: k in Keys(FileCalls(listing)) <==> FromListing(k, listing)
  {
    if listing != [] {
      var front, name := listing[..|listing| - 1], listing[|listing| - 1];
      FileCallsGood(front);
      assert listing == front + [name];
      if IsSource(name) {
        NewName(front, name);
        OneFileGood(FileCalls(front), name);
      } else {
        assert FileCalls(front) + [] == FileCalls(front);
      }
      forall k
        ensures k in Keys(FileCalls(listing)) <==> FromListing(k, listing)
      {
        SourceKeys(front, name, k);
      }
    }
  }

  lemma OneFileGood(s: seq<Call>, name: string)
    requires Good(s) && IsSource(name)
    requires name !in Keys(s) && BuildKey(name) !in Keys(s) && name != BuildKey(name)
    ensures Good(s + CallsFor(name))
    ensures Keys(s + CallsFor(name)) == Keys(s) + if IsHeader(name) then {name} else {name, BuildKey(name)}
  {
    var c := FileReference(name);
    assert Targets(c) == {};
    Snoc(s, c);
    if !IsHeader(name) {
      BuildFileTargets(BuildKey(name), name);
      Snoc(s + [c], BuildFile(BuildKey(name), name));
      assert s + [c] + [BuildFile(BuildKey(name), name)] == s + CallsFor(name);
    }
  }

  lemma SourceKeys(front: seq<string>, name: string, k: string)
    ensures FromListing(k, front + [name]) <==>
            (FromListing(k, front) || (IsSource(name) && (k == name || (k == BuildKey(name) && !IsHeader(name)))))
  {
    assert name in front + [name];
    assert forall n | n in front :: n in front + [name];
  }

  lemma BuildFileTargets(key: string, ref: string)
    ensures Targets(BuildFile(key, ref)) == {ref}
  {
    var c := BuildFile(key, ref);
    assert ref in ArgKeys(c.fields[1].arg);
  }

  /** A listed name and its build key collide with nothing listed before. */
  lemma NewName(front: seq<string>, name: string)
    requires Unique(front + [name]) && IsSource(name)
    ensures !FromListing(name, front) && !FromListing(BuildKey(name), front) && name != BuildKey(name)
  {
    SourceName(name);
    BuildKeyFacts(name);
    forall other | other in front && IsSource(other)
      ensures other != name && BuildKey(other) != name && other != BuildKey(name) && BuildKey(other) != BuildKey(name)
    {
      var i :| 0 <= i < |front| && front[i] == other;
      assert (front + [name])[i] == other && (front + [name])[|front|] == name;
      SourceName(other);
      BuildKeyFacts(other);
      if BuildKey(other) == BuildKey(name) {
        BuildKeyInjective(other, name);
      }
    }
  }

  // ---------- the fixed objects ----------

  lemma FileKeysDotted(listing: seq<string>, key: string)
    requires Unique(listing) && '.' !in key
    ensures key !in Keys(FileCalls(listing))
  {
    FileCallsGood(listing);
    forall name | IsSource(name)
      ensures key != name && key != BuildKey(name)
    {
      SourceName(name);
      BuildKeyFacts(name);
    }
  }

  /** The keys of the fixed objects, in the order of their creation. */
  const FIXED: seq<string> := [
    "sources", "python", "python-link", "python-embed", "build-config",
    "fluid-audio-package", "fluid-audio-product", "fluid-audio-link", "product", "products",
    "root-group", "sources-phase", "framework-phase", "resources-phase", "bundle-phase",
    "embed-phase", "targetDebug", "targetRelease", "targetconfigs", "target",
    "projectDebug", "projectRelease", "projectconfigs", "project"
  ]

  function Position(k: string): nat {
    if k == "sources" then 0
    else if k == "python" then 1
    else if k == "python-link" then 2
    else if k == "python-embed" then 3
    else if k == "build-config" then 4
    else if k == "fluid-audio-package" then 5
    else if k == "fluid-audio-product" then 6
    else if k == "fluid-audio-link" then 7
    else if k == "product" then 8
    else if k == "products" then 9
    else if k == "root-group" then 10
    else if k == "sources-phase" then 11
    else if k == "framework-phase" then 12
    else if k == "resources-phase" then 13
    else if k == "bundle-phase" then 14
    else if k == "embed-phase" then 15
    else if k == "targetDebug" then 16
    else if k == "targetRelease" then 17
    else if k == "targetconfigs" then 18
    else if k == "target" then 19
    else if k == "projectDebug" then 20
    else if k == "projectRelease" then 21
    else if k == "projectconfigs" then 22
    else if k == "project" then 23
    else 24
  }

  lemma PositionOf(i: nat)
    requires i < 24
    ensures Position(FIXED[i]) == i
  {
  }

  /** No two fixed objects share a key. */
  lemma FixedDistinct()
    ensures Unique(FIXED)
  {
    forall i | 0 <= i < |FIXED|
      ensures Position(FIXED[i]) == i
    {
      PositionOf(i);
    }
  }

  /** The reference is to a file object or to one of the first n fixed objects. */
  predicate Earlier(k: string, n: nat, files: set<string>)
    requires n <= |FIXED|
  {
    k in files || k in FIXED[..n]
  }

  predicate Placed(c: Call, n: nat, files: set<string>)
    requires n < |FIXED|
  {
    c.key == FIXED[n] && forall k | k in Targets(c) :: Earlier(k, n, files)
  }

  lemma AppendFixed(s: seq<Call>, c: seq<Call>)
    requires Good(s) && |c| == |FIXED| && Unique(FIXED)
    requires forall i | 0 <= i < |FIXED| :: FIXED[i] !in Keys(s) && Placed(c[i], i, Keys(s))
    ensures Good(s + c)
  {
    var t := s + c;
    forall i | 0 <= i < |t|
      ensures t[i].key !in Keys(t[..i]) && Targets(t[i]) <= Keys(t[..i])
    {
      if i < |s| {
        assert t[..i] == s[..i];
      } else {
        var n := i - |s|;
        assert t[i] == c[n] && t[..i] == s + c[..n];
        KeysAppend(s, c[..n]);
        FixedPrefix(c, n);
        assert Placed(c[n], n, Keys(s));
      }
    }
  }

  lemma FixedPrefix(c: seq<Call>, n: nat)
    requires n <= |c| == |FIXED|
    requires forall i | 0 <= i < |FIXED| :: c[i].key == FIXED[i]
    ensures forall k :: k in Keys(c[..n]) <==> k in FIXED[..n]
  {
    forall k | k in FIXED[..n]
      ensures k in Keys(c[..n])
    {
      var i :| 0 <= i < n && FIXED[i] == k;
      assert c[..n][i].key == k;
    }
    forall i | 0 <= i < n
      ensures c[..n][i].key in FIXED[..n]
    {
      assert FIXED[..n][i] == c[i].key;
    }
  }

  lemma Fixed(k: string, i: nat, n: nat, files: set<string>)
    requires i < n <= |FIXED| && FIXED[i] == k
    ensures Earlier(k, n, files)
  {
    assert FIXED[..n][i] == k;
  }

  lemma DependenciesPlaced(p: Inputs, files: set<string>)
    requires forall k | k in Files(p.listing) :: k in files
    ensures forall i | 0 <= i < 5 :: Placed(DependencyCalls(p)[i], i, files)
  {
    Fixed("python", 1, 2, files);
    Fixed("python", 1, 3, files);
  }

  lemma PackagesPlaced(p: Inputs, files: set<string>)
    ensures forall i | 0 <= i < 6 :: Placed(PackageCalls(p)[i], 5 + i, files)
  {
    Fixed("fluid-audio-package", 5, 6, files);
    Fixed("fluid-audio-product", 6, 7, files);
    Fixed("product", 8, 9, files);
    Fixed("sources", 0, 10, files);
    Fixed("python", 1, 10, files);
    Fixed("build-config", 4, 10, files);
    Fixed("products", 9, 10, files);
  }

  lemma PhasesPlaced(p: Inputs, files: set<string>)
    requires forall k | k in Compiled(p.listing) :: k in files
    requires forall k | k in Bundled(p.listing) :: k in files
    ensures forall i | 0 <= i < 5 :: Placed(PhaseCalls(p)[i], 11 + i, files)
  {
    Fixed("python-link", 2, 12, files);
    Fixed("fluid-audio-link", 7, 12, files);
    Fixed("python-embed", 3, 15, files);
  }

  lemma ConfigurationPlaced(prefix: string, name: string, base: seq<Entry>, o: nat, files: set<string>)
    requires 5 <= o < |FIXED| && prefix + name == FIXED[o]
    ensures Placed(Configuration(prefix, name, base), o, files)
  {
    Fixed("build-config", 4, o, files);
  }

  lemma ConfigurationListPlaced(prefix: string, base: seq<Entry>, o: nat, files: set<string>)
    requires 5 <= o < 22
    requires prefix + "Debug" == FIXED[o] && prefix + "Release" == FIXED[o + 1] && prefix + "configs" == FIXED[o + 2]
    ensures Placed(ConfigurationCalls(prefix, base)[2], o + 2, files)
  {
    Fixed(prefix + "Debug", o, o + 2, files);
    Fixed(prefix + "Release", o + 1, o + 2, files);
  }

  lemma PrefixedKeys(prefix: string, o: nat)
    requires (prefix == "target" && o == 16) || (prefix == "project" && o == 20)
    ensures prefix + "Debug" == FIXED[o] && prefix + "Release" == FIXED[o + 1] && prefix + "configs" == FIXED[o + 2]
  {
  }

  lemma ConfigurationsPlaced(prefix: string, base: seq<Entry>, o: nat, i: nat, files: set<string>)
    requires i < 3 && o + 2 < |FIXED|
    requires (prefix == "target" && o == 16) || (prefix == "project" && o == 20)
    ensures Placed(ConfigurationCalls(prefix, base)[i], o + i, files)
  {
    PrefixedKeys(prefix, o);
    if i == 0 {
      ConfigurationPlaced(prefix, "Debug", base, o, files);
    } else if i == 1 {
      ConfigurationPlaced(prefix, "Release", base, o + 1, files);
    } else {
      ConfigurationListPlaced(prefix, base, o, files);
    }
  }

  lemma TargetPlaced(files: set<string>)
    ensures Placed(TargetCall(), 19, files)
  {
    Fixed("product", 8, 19, files);
    Fixed("targetconfigs", 18, 19, files);
    Fixed("sources-phase", 11, 19, files);
    Fixed("framework-phase", 12, 19, files);
    Fixed("resources-phase", 13, 19, files);
    Fixed("bundle-phase", 14, 19, files);
    Fixed("embed-phase", 15, 19, files);
    Fixed("fluid-audio-product", 6, 19, files);
  }

  lemma ProjectPlaced(files: set<string>)
    ensures Placed(ProjectCall(), 23, files)
  {
    Fixed("projectconfigs", 22, 23, files);
    Fixed("root-group", 10, 23, files);
    Fixed("products", 9, 23, files);
    Fixed("target", 19, 23, files);
    Fixed("fluid-audio-package", 5, 23, files);
  }

  function Pick(a: seq<Call>, b: seq<Call>, c: seq<Call>, d: seq<Call>, e: seq<Call>, i: nat): Call
    requires |a| == 5 && |b| == 6 && |c| == 5 && |d| == 4 && |e| == 4 && i < 24
  {
    if i < 5 then a[i] else if i < 11 then b[i - 5] else if i < 16 then c[i - 11] else if i < 20 then d[i - 16] else e[i - 20]
  }

  lemma PickAt(a: seq<Call>, b: seq<Call>, c: seq<Call>, d: seq<Call>, e: seq<Call>, i: nat)
    requires |a| == 5 && |b| == 6 && |c| == 5 && |d| == 4 && |e| == 4 && i < 24
    ensures (a + b + c + d + e)[i] == Pick(a, b, c, d, e, i)
  {
  }

  lemma TargetsPlaced(p: Inputs, i: nat, files: set<string>)
    requires i < 4
    ensures Placed(TargetCalls(p)[i], 16 + i, files)
    ensures Placed(ProjectCalls(p)[i], 20 + i, files)
  {
    var target, project := ConfigurationCalls("target", p.target), ConfigurationCalls("project", p.common);
    if i < 3 {
      ConfigurationsPlaced("target", p.target, 16, i, files);
      ConfigurationsPlaced("project", p.common, 20, i, files);
      assert (target + [TargetCall()])[i] == target[i] && (project + [ProjectCall()])[i] == project[i];
    } else {
      TargetPlaced(files);
      ProjectPlaced(files);
      assert (target + [TargetCall()])[3] == TargetCall() && (project + [ProjectCall()])[3] == ProjectCall();
    }
  }

  lemma FixedPlaced(p: Inputs, i: nat, files: set<string>)
    requires forall k | k in Files(p.listing) :: k in files
    requires forall k | k in Compiled(p.listing) :: k in files
    requires forall k | k in Bundled(p.listing) :: k in files
    requires i < 24
    ensures Placed(FixedCalls(p)[i], i, files)
  {
    PickAt(DependencyCalls(p), PackageCalls(p), PhaseCalls(p), TargetCalls(p), ProjectCalls(p), i);
    if i < 5 {
      DependenciesPlaced(p, files);
    } else if i < 11 {
      PackagesPlaced(p, files);
    } else if i < 16 {
      PhasesPlaced(p, files);
    } else if i < 20 {
      TargetsPlaced(p, i - 16, files);
    } else {
      TargetsPlaced(p, i - 20, files);
    }
  }

  // ---------- the phases ----------

  lemma {:induction false} CollectCounts(listing: seq<string>, p: string -> bool, key: string -> string, name: string)
    requires Unique(listing)
    requires forall a, b {:trigger key(a), key(b)} :: key(a) == key(b) ==> a == b
    ensures multiset(Collect(listing, p, key))[key(name)] == if name in listing && p(name) then 1 else 0
  {
    if listing != [] {
      var front, last := listing[..|listing| - 1], listing[|listing| - 1];
      CollectCounts(front, p, key, name);
      assert listing == front + [last];
      NotTwice(front, last);
      assert last == name <==> key(last) == key(name);
    }
  }

  lemma NotTwice(front: seq<string>, last: string)
    requires Unique(front + [last])
    ensures Unique(front) && last !in front
  {
    var s := front + [last];
    assert forall i | 0 <= i < |front| :: s[i] == front[i];
    assert s[|front|] == last;
  }

  lemma KindsApart(name: string)
    ensures IsSource(name) <==> EndsAs(name, ".swift") || EndsAs(name, ".metal") || EndsAs(name, ".m") || EndsAs(name, ".h") || EndsAs(name, ".xcassets")
    ensures IsResource(name) <==> EndsAs(name, ".xcassets")
    ensures IsCompiled(name) <==> EndsAs(name, ".swift") || EndsAs(name, ".metal") || EndsAs(name, ".m")
  {
    KindsAre(name);
    SuffixesAre(name);
    assert ".swift"[1] == 's' && ".metal"[1] == 'm' && |".h"| == 2 && |".m"| == 2 && |".xcassets"| == 9 && ".h"[1] == 'h' && ".m"[1] == 'm';
  }

  /** Each accepted source is in the group exactly once; a Swift, Metal or Objective-C file has its build file
      in the sources phase exactly once, an asset catalogue in the resources phase, and nothing else has one. */
  lemma PhasesPartition(listing: seq<string>, name: string)
    requires Unique(listing)
    ensures var compiled := EndsAs(name, ".swift") || EndsAs(name, ".metal") || EndsAs(name, ".m");
            var bundled := EndsAs(name, ".xcassets");
            && multiset(Files(listing))[name] == (if name in listing && (compiled || bundled || EndsAs(name, ".h")) then 1 else 0)
            && multiset(Compiled(listing))[name + "-build"] == (if name in listing && compiled then 1 else 0)
            && multiset(Bundled(listing))[name + "-build"] == (if name in listing && bundled then 1 else 0)
  {
    KindsApart(name);
    forall a, b | BuildKey(a) == BuildKey(b)
      ensures a == b
    {
      BuildKeyInjective(a, b);
    }
    CollectCounts(listing, IsSource, FileKey, name);
    CollectCounts(listing, IsCompiled, BuildKey, name);
    CollectCounts(listing, IsResource, BuildKey, name);
  }

  /** What the loop appends stays in the order of the listing. */
  lemma {:induction false} CollectInOrder(listing: seq<string>, p: string -> bool, key: string -> string) returns (at: seq<nat>)
    ensures |at| == |Collect(listing, p, key)|
    ensures forall i | 0 <= i < |at| :: at[i] < |listing| && Collect(listing, p, key)[i] == key(listing[at[i]])
    ensures forall i, j | 0 <= i < j < |at| :: at[i] < at[j]
  {
    at := [];
    if listing != [] {
      var front, last := listing[..|listing| - 1], listing[|listing| - 1];
      at := CollectInOrder(front, p, key);
      if p(last) {
        at := at + [|front|];
      }
    }
  }

  lemma {:induction false} Collected(listing: seq<string>, p: string -> bool, key: string -> string, k: string)
    ensures k in Collect(listing, p, key) <==> exists name | name in listing :: p(name) && key(name) == k
  {
    if listing != [] {
      var front, last := listing[..|listing| - 1], listing[|listing| - 1];
      Collected(front, p, key, k);
      assert listing == front + [last];
    }
  }

  // ---------- the whole graph ----------

  lemma FilesKnown(listing: seq<string>)
    requires Unique(listing)
    ensures forall k | k in Files(listing) :: k in Keys(FileCalls(listing))
    ensures forall k | k in Compiled(listing) :: k in Keys(FileCalls(listing))
    ensures forall k | k in Bundled(listing) :: k in Keys(FileCalls(listing))
  {
    FileCallsGood(listing);
    forall k | k in Files(listing) || k in Compiled(listing) || k in Bundled(listing)
      ensures FromListing(k, listing)
    {
      Collected(listing, IsSource, FileKey, k);
      Collected(listing, IsCompiled, BuildKey, k);
      Collected(listing, IsResource, BuildKey, k);
    }
  }

  lemma FixedUndotted(i: nat)
    requires i < |FIXED|
    ensures '.' !in FIXED[i]
  {
    if i < 8 { FrontUndotted(i); } else if i < 16 { MiddleUndotted(i); } else { BackUndotted(i); }
  }

  lemma FrontUndotted(i: nat)
    requires i < 8
    ensures '.' !in FIXED[i]
  {
  }

  lemma MiddleUndotted(i: nat)
    requires 8 <= i < 16
    ensures '.' !in FIXED[i]
  {
  }

  lemma BackUndotted(i: nat)
    requires 16 <= i < 24
    ensures '.' !in FIXED[i]
  {
  }

  /** In every run, for every directory listing, no two `obj` calls share a key, and every
      identifier used as a reference was returned by an earlier call: the graph is closed and acyclic. */
  lemma CallsGood(p: Inputs)
    requires Unique(p.listing)
    ensures Good(Calls(p))
  {
    var s := FileCalls(p.listing);
    FileCallsGood(p.listing);
    FilesKnown(p.listing);
    FixedDistinct();
    forall i | 0 <= i < |FIXED|
      ensures FIXED[i] !in Keys(s) && Placed(FixedCalls(p)[i], i, Keys(s))
    {
      FixedUndotted(i);
      FileKeysDotted(p.listing, FIXED[i]);
      FixedPlaced(p, i, Keys(s));
    }
    AppendFixed(s, FixedCalls(p));
  }

  /** The keys that a run can use: those of the listed sources, and the fixed ones. */
  ghost predicate IsKey(k: string, listing: seq<string>) {
    FromListing(k, listing) || k in FIXED
  }

  /** The shortened hash tells the keys of a run apart. */
  ghost predicate CollisionFree(hash: string -> string, listing: seq<string>) {
    forall a, b {:trigger hash(a), hash(b)} :: IsKey(a, listing) && IsKey(b, listing) && hash(a) == hash(b) ==> a == b
  }

  ghost predicate InjectiveOn(hash: string -> string, calls: seq<Call>) {
    forall i, j | 0 <= i < |calls| && 0 <= j < |calls| :: hash(calls[i].key) == hash(calls[j].key) ==> calls[i].key == calls[j].key
  }

  lemma FixedKeys(p: Inputs, i: nat)
    requires Unique(p.listing) && i < 24
    ensures FixedCalls(p)[i].key in FIXED
  {
    FilesKnown(p.listing);
    FixedPlaced(p, i, Keys(FileCalls(p.listing)));
  }

  lemma RunKey(p: Inputs, i: nat)
    requires Unique(p.listing) && i < |Calls(p)|
    ensures IsKey(Calls(p)[i].key, p.listing)
  {
    var s, c := FileCalls(p.listing), FixedCalls(p);
    FileCallsGood(p.listing);
    if i < |s| {
      assert s[i].key in Keys(s);
      assert FromListing(s[i].key, p.listing);
    } else {
      FixedKeys(p, i - |s|);
    }
  }

  lemma RunKeysInjective(hash: string -> string, p: Inputs)
    requires Unique(p.listing) && CollisionFree(hash, p.listing)
    ensures InjectiveOn(hash, Calls(p))
  {
    var calls := Calls(p);
    forall i, j | 0 <= i < |calls| && 0 <= j < |calls|
      ensures hash(calls[i].key) == hash(calls[j].key) ==> calls[i].key == calls[j].key
    {
      RunKey(p, i);
      RunKey(p, j);
    }
  }

  predicate Referenced(calls: seq<Call>, k: string) {
    exists c | c in calls :: k in Targets(c)
  }

  lemma ReferencedBy(all: seq<Call>, c: Call, f: nat, k: string)
    requires c in all && f < |c.fields| && k in ArgKeys(c.fields[f].arg)
    ensures Referenced(all, k)
  {
    assert k in Targets(c);
  }

  lemma AllReferencedBy(all: seq<Call>, c: Call, f: nat)
    requires c in all && f < |c.fields| && c.fields[f].arg.Refs?
    ensures forall k | k in c.fields[f].arg.keys :: Referenced(all, k)
  {
    forall k | k in c.fields[f].arg.keys
      ensures Referenced(all, k)
    {
      ReferencedBy(all, c, f, k);
    }
  }

  lemma DependencyUses(p: Inputs, all: seq<Call>)
    requires forall i | 0 <= i < 5 :: DependencyCalls(p)[i] in all
    ensures Referenced(all, "python")
    ensures forall k | k in Files(p.listing) :: Referenced(all, k)
  {
    var c := DependencyCalls(p);
    ReferencedBy(all, c[2], 1, "python");
    AllReferencedBy(all, c[0], 1);
  }

  lemma PackageUses(p: Inputs, all: seq<Call>)
    requires forall i | 0 <= i < 6 :: PackageCalls(p)[i] in all
    ensures Referenced(all, "fluid-audio-package") && Referenced(all, "fluid-audio-product") && Referenced(all, "product")
    ensures Referenced(all, "sources") && Referenced(all, "build-config") && Referenced(all, "products")
  {
    var c := PackageCalls(p);
    ReferencedBy(all, c[1], 1, "fluid-audio-package");
    ReferencedBy(all, c[2], 1, "fluid-audio-product");
    ReferencedBy(all, c[4], 1, "product");
    ReferencedBy(all, c[5], 1, "sources");
    ReferencedBy(all, c[5], 1, "build-config");
    ReferencedBy(all, c[5], 1, "products");
  }

  lemma PhaseUses(p: Inputs, all: seq<Call>)
    requires forall i | 0 <= i < 5 :: PhaseCalls(p)[i] in all
    ensures Referenced(all, "python-link") && Referenced(all, "fluid-audio-link") && Referenced(all, "python-embed")
  {
    var c := PhaseCalls(p);
    ReferencedBy(all, c[1], 2, "python-link");
    ReferencedBy(all, c[1], 2, "fluid-audio-link");
    ReferencedBy(all, c[4], 4, "python-embed");
  }

  lemma BuildUses(p: Inputs, all: seq<Call>, k: string)
    requires forall i | 0 <= i < 5 :: PhaseCalls(p)[i] in all
    requires k in Compiled(p.listing) || k in Bundled(p.listing)
    ensures Referenced(all, k)
  {
    ReferencedBy(all, PhaseCalls(p)[if k in Compiled(p.listing) then 0 else 2], 2, k);
  }

  lemma ConfigurationUses(prefix: string, base: seq<Entry>, all: seq<Call>)
    requires ConfigurationCalls(prefix, base)[2] in all
    ensures Referenced(all, prefix + "Debug") && Referenced(all, prefix + "Release")
  {
    var c := ConfigurationCalls(prefix, base)[2];
    ReferencedBy(all, c, 1, prefix + "Debug");
    ReferencedBy(all, c, 1, prefix + "Release");
  }

  lemma TargetUses(all: seq<Call>, c: Call)
    requires c in all && |c.fields| == 10 && c.fields[5].arg == Ref("targetconfigs")
    requires c.fields[6].arg == Refs(["sources-phase", "framework-phase", "resources-phase", "bundle-phase", "embed-phase"])
    ensures Referenced(all, "targetconfigs") && Referenced(all, "sources-phase") && Referenced(all, "framework-phase")
    ensures Referenced(all, "resources-phase") && Referenced(all, "bundle-phase") && Referenced(all, "embed-phase")
  {
    var keys := c.fields[6].arg.keys;
    ReferencedBy(all, c, 5, "targetconfigs");
    AllReferencedBy(all, c, 6);
    assert keys[0] in keys && keys[1] in keys && keys[2] in keys && keys[3] in keys && keys[4] in keys;
  }

  lemma ProjectUses(all: seq<Call>)
    requires ProjectCall() in all
    ensures Referenced(all, "root-group") && Referenced(all, "target") && Referenced(all, "projectconfigs")
  {
    var c := ProjectCall();
    ReferencedBy(all, c, 6, "root-group");
    ReferencedBy(all, c, 10, "target");
    ReferencedBy(all, c, 1, "projectconfigs");
  }

  lemma Members(s: seq<Call>, a: seq<Call>, b: seq<Call>, c: seq<Call>, d: seq<Call>, e: seq<Call>)
    ensures var all := s + (a + b + c + d + e);
            && (forall i | 0 <= i < |a| :: a[i] in all) && (forall i | 0 <= i < |b| :: b[i] in all)
            && (forall i | 0 <= i < |c| :: c[i] in all) && (forall i | 0 <= i < |d| :: d[i] in all)
            && (forall i | 0 <= i < |e| :: e[i] in all)
  {
  }

  lemma FixedUses(p: Inputs, all: seq<Call>, n: nat)
    requires all == Calls(p) && n < 23
    ensures Referenced(all, FIXED[n])
  {
    Members(FileCalls(p.listing), DependencyCalls(p), PackageCalls(p), PhaseCalls(p), TargetCalls(p), ProjectCalls(p));
    if n < 8 {
      FrontUses(p, all);
      AllOf8(all, n);
    } else if n < 16 {
      assert TargetCalls(p)[3] == TargetCall() && ProjectCalls(p)[3] == ProjectCall();
      MiddleUses(p, all);
      AllOf16(all, n);
    } else {
      BackUses(p, all);
      AllOf23(all, n);
    }
  }

  lemma FrontUses(p: Inputs, all: seq<Call>)
    requires forall i | 0 <= i < 5 :: DependencyCalls(p)[i] in all
    requires forall i | 0 <= i < 6 :: PackageCalls(p)[i] in all
    requires forall i | 0 <= i < 5 :: PhaseCalls(p)[i] in all
    ensures Referenced(all, "sources") && Referenced(all, "python") && Referenced(all, "python-link") && Referenced(all, "python-embed")
    ensures Referenced(all, "build-config") && Referenced(all, "fluid-audio-package")
    ensures Referenced(all, "fluid-audio-product") && Referenced(all, "fluid-audio-link")
  {
    DependencyUses(p, all);
    PackageUses(p, all);
    PhaseUses(p, all);
  }

  lemma MiddleUses(p: Inputs, all: seq<Call>)
    requires forall i | 0 <= i < 6 :: PackageCalls(p)[i] in all
    requires TargetCall() in all && ProjectCall() in all
    ensures Referenced(all, "product") && Referenced(all, "products") && Referenced(all, "root-group") && Referenced(all, "sources-phase")
    ensures Referenced(all, "framework-phase") && Referenced(all, "resources-phase")
    ensures Referenced(all, "bundle-phase") && Referenced(all, "embed-phase")
  {
    PackageUses(p, all);
    TargetUses(all, TargetCall());
    ProjectUses(all);
  }

  lemma BackUses(p: Inputs, all: seq<Call>)
    requires forall i | 0 <= i < 4 :: TargetCalls(p)[i] in all && ProjectCalls(p)[i] in all
    ensures Referenced(all, "targetDebug") && Referenced(all, "targetRelease") && Referenced(all, "targetconfigs") && Referenced(all, "target")
    ensures Referenced(all, "projectDebug") && Referenced(all, "projectRelease") && Referenced(all, "projectconfigs")
  {
    assert TargetCalls(p)[3] == TargetCall() && ProjectCalls(p)[3] == ProjectCall();
    TargetUses(all, TargetCall());
    ProjectUses(all);
    TargetListUses(p, all);
    ProjectListUses(p, all);
  }

  lemma TargetListUses(p: Inputs, all: seq<Call>)
    requires TargetCalls(p)[2] in all
    ensures Referenced(all, "targetDebug") && Referenced(all, "targetRelease")
  {
    assert TargetCalls(p)[2] == ConfigurationCalls("target", p.target)[2];
    ConfigurationUses("target", p.target, all);
    assert "target" + "Debug" == "targetDebug" && "target" + "Release" == "targetRelease";
  }

  lemma ProjectListUses(p: Inputs, all: seq<Call>)
    requires ProjectCalls(p)[2] in all
    ensures Referenced(all, "projectDebug") && Referenced(all, "projectRelease")
  {
    assert ProjectCalls(p)[2] == ConfigurationCalls("project", p.common)[2];
    ConfigurationUses("project", p.common, all);
    assert "project" + "Debug" == "projectDebug" && "project" + "Release" == "projectRelease";
  }

  lemma AllOf8(all: seq<Call>, n: nat)
    requires Referenced(all, "sources") && Referenced(all, "python") && Referenced(all, "python-link") && Referenced(all, "python-embed")
    requires Referenced(all, "build-config") && Referenced(all, "fluid-audio-package")
    requires Referenced(all, "fluid-audio-product") && Referenced(all, "fluid-audio-link")
    requires n < 8
    ensures Referenced(all, FIXED[n])
  {
  }

  lemma AllOf16(all: seq<Call>, n: nat)
    requires Referenced(all, "product") && Referenced(all, "products") && Referenced(all, "root-group") && Referenced(all, "sources-phase")
    requires Referenced(all, "framework-phase") && Referenced(all, "resources-phase")
    requires Referenced(all, "bundle-phase") && Referenced(all, "embed-phase")
    requires 8 <= n < 16
    ensures Referenced(all, FIXED[n])
  {
  }

  lemma AllOf23(all: seq<Call>, n: nat)
    requires Referenced(all, "targetDebug") && Referenced(all, "targetRelease") && Referenced(all, "targetconfigs") && Referenced(all, "target")
    requires Referenced(all, "projectDebug") && Referenced(all, "projectRelease") && Referenced(all, "projectconfigs")
    requires 16 <= n < 23
    ensures Referenced(all, FIXED[n])
  {
  }

  lemma FileUses(p: Inputs, k: string)
    requires FromListing(k, p.listing)
    ensures Referenced(Calls(p), k)
  {
    Members(FileCalls(p.listing), DependencyCalls(p), PackageCalls(p), PhaseCalls(p), TargetCalls(p), ProjectCalls(p));
    Collected(p.listing, IsSource, FileKey, k);
    Collected(p.listing, IsCompiled, BuildKey, k);
    Collected(p.listing, IsResource, BuildKey, k);
    if k in Files(p.listing) {
      DependencyUses(p, Calls(p));
    } else {
      BuildUses(p, Calls(p), k);
    }
  }

  lemma LaterUse(calls: seq<Call>, i: nat)
    requires Good(calls) && i < |calls| && Referenced(calls, calls[i].key)
    ensures exists j | i < j < |calls| :: calls[i].key in Targets(calls[j])
  {
    var c :| c in calls && calls[i].key in Targets(c);
    var j :| 0 <= j < |calls| && calls[j] == c;
    var m :| 0 <= m < j && calls[..j][m].key == calls[i].key;
    SameKey(calls, i, m);
  }

  lemma SameKey(calls: seq<Call>, i: nat, m: nat)
    requires Good(calls) && i < |calls| && m < |calls| && calls[i].key == calls[m].key
    ensures i == m
  {
    if i < m {
      KeyBefore(calls, i, m);
    } else if m < i {
      KeyBefore(calls, m, i);
    }
  }

  lemma KeyBefore(calls: seq<Call>, low: nat, high: nat)
    requires low < high <= |calls|
    ensures calls[low].key in Keys(calls[..high])
  {
    assert calls[..high][low] == calls[low];
  }

  /** Nothing is orphaned: every object but the last, the project itself, is referred to by a later one. */
  lemma AllReferenced(p: Inputs, i: nat)
    requires Unique(p.listing) && i < |Calls(p)| - 1
    ensures exists j | i < j < |Calls(p)| :: Calls(p)[i].key in Targets(Calls(p)[j])
  {
    var s := FileCalls(p.listing);
    CallsGood(p);
    if i < |s| {
      FileCallsGood(p.listing);
      assert s[i].key in Keys(s);
      FileUses(p, s[i].key);
    } else {
      FilesKnown(p.listing);
      FixedPlaced(p, i - |s|, Keys(s));
      FixedUses(p, Calls(p), i - |s|);
    }
    LaterUse(Calls(p), i);
  }

  /** If the identifier hash tells the keys of the calls apart, nothing in the dictionary is overwritten:
      it holds one object for each call, in the order of the calls. */
  lemma {:induction false} NothingOverwritten(hash: string -> string, calls: seq<Call>)
    requires Good(calls) && InjectiveOn(hash, calls)
    ensures Store(hash, calls) == Objects(hash, calls)
  {
    if calls != [] {
      var front, last := calls[..|calls| - 1], calls[|calls| - 1];
      GoodPrefix(calls);
      NothingOverwritten(hash, front);
      var s := Store(hash, front);
      forall i | 0 <= i < |s|
        ensures s[i].key != hash(last.key)
      {
        assert s[i].key == hash(front[i].key);
        assert front[i].key in Keys(front);
        assert calls[i] == front[i] && calls[|calls| - 1] == last;
      }
      PutNew(s, hash(last.key), Dict(Lower(hash, last.fields)));
    }
  }

  lemma GoodPrefix(calls: seq<Call>)
    requires Good(calls) && calls != []
    ensures Good(calls[..|calls| - 1]) && calls[|calls| - 1].key !in Keys(calls[..|calls| - 1])
  {
    var front := calls[..|calls| - 1];
    assert forall i | 0 <= i < |front| :: front[..i] == calls[..i];
  }

  lemma {:induction false} PutNew(entries: seq<Entry>, key: string, value: Value)
    requires forall i | 0 <= i < |entries| :: entries[i].key != key
    ensures Put(entries, key, value) == entries + [Entry(key, value)]
  {
    if entries != [] {
      PutNew(entries[1..], key, value);
      assert entries == [entries[0]] + entries[1..];
    }
  }
}
