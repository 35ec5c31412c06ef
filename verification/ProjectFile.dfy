/** What the written project says about single objects: read off the parsed text, under their identifiers. */
module ProjectFile {
  import opened Text
  import opened Printer
  import opened ProjectModel
  import opened ProjectGraph
  import opened Readback

  /** The dictionary under a key. */
  function Part(entries: seq<Entry>, key: string): Option<seq<Entry>> {
    match Lookup(entries, key)
    case Some(Dict(part)) => Some(part)
    case _ => None
  }

  /** The document behind the header. */
  function DocumentIn(text: string): Option<seq<Entry>> {
    if !(HEADER <= text) then None
    else
      match Parse(text[|HEADER|..])
      case Some(Parsed(Dict(entries), _)) => Some(entries)
      case _ => None
  }

  /** The object under an identifier. */
  function ObjectIn(text: string, ident: string): Option<seq<Entry>> {
    var document :- DocumentIn(text);
    var objects :- Part(document, "objects");
    Part(objects, ident)
  }

  lemma {:induction false} LookupAt(entries: seq<Entry>, i: nat)
    requires i < |entries| && forall j | 0 <= j < i :: entries[j].key != entries[i].key
    ensures Lookup(entries, entries[i].key) == Some(entries[i].value)
  {
    if i > 0 {
      assert entries[0].key != entries[i].key;
      LookupAt(entries[1..], i - 1);
    }
  }

  lemma DocumentHolds(hash: string -> string, objects: seq<Entry>)
    ensures Part(DocumentEntries(hash, objects), "objects") == Some(objects)
  {
    LookupAt(DocumentEntries(hash, objects), 3);
  }

  lemma ObjectAt(hash: string -> string, calls: seq<Call>, i: nat)
    requires i < |calls| && Describes(Objects(hash, calls), hash, calls)
    ensures Part(Objects(hash, calls), hash(calls[i].key)) == Some(Lower(hash, calls[i].fields))
  {
    var objects := Objects(hash, calls);
    forall j | 0 <= j < i
      ensures objects[j].key != objects[i].key
    {
    }
    LookupAt(objects, i);
  }

  /** The text is the document of these calls, each object under an identifier of its own. */
  ghost predicate Holds(text: string, hash: string -> string, calls: seq<Call>) {
    && HEADER <= text && Describes(Objects(hash, calls), hash, calls)
    && Parse(text[|HEADER|..]) == Some(Parsed(Dict(DocumentEntries(hash, Objects(hash, calls))), "\n"))
  }

  lemma ProjectHolds(hash: string -> string, p: Inputs, text: string)
    requires Unique(p.listing) && CollisionFree(hash, p.listing) && text == ProjectText(hash, p)
    ensures Holds(text, hash, Calls(p))
  {
    ProjectReads(hash, p, text);
  }

  /** Every object of a run is found in the text under the hash of its key, with its fields. */
  lemma ObjectReads(hash: string -> string, calls: seq<Call>, text: string, c: Call)
    requires Holds(text, hash, calls) && c in calls
    ensures ObjectIn(text, hash(c.key)) == Some(Lower(hash, c.fields))
  {
    var i :| 0 <= i < |calls| && calls[i] == c;
    DocumentHolds(hash, Objects(hash, calls));
    ObjectAt(hash, calls, i);
  }

  // ---------- build settings ----------

  lemma {:induction false} LookupPut(entries: seq<Entry>, key: string, value: Value, k: string)
    ensures Lookup(Put(entries, key, value), k) == if k == key then Some(value) else Lookup(entries, k)
  {
    if entries != [] && entries[0].key != key {
      LookupPut(entries[1..], key, value, k);
    }
  }

  predicate Distinct(entries: seq<Entry>) {
    forall i, j | 0 <= i < j < |entries| :: entries[i].key != entries[j].key
  }

  lemma {:induction false} PutKeys(entries: seq<Entry>, key: string, value: Value)
    requires Distinct(entries)
    ensures Distinct(Put(entries, key, value))
  {
    if entries != [] && entries[0].key != key {
      PutKeys(entries[1..], key, value);
      PutMember(entries[1..], key, value);
    }
  }

  lemma {:induction false} PutMember(entries: seq<Entry>, key: string, value: Value)
    ensures forall e | e in Put(entries, key, value) :: e.key == key || e in entries
  {
    if entries != [] && entries[0].key != key {
      PutMember(entries[1..], key, value);
    }
  }

  /** The values that both configurations set. */
  predicate Levels(settings: seq<Entry>, swift: string, c: string, format: string) {
    && Lookup(settings, "SWIFT_OPTIMIZATION_LEVEL") == Some(Str(swift))
    && Lookup(settings, "GCC_OPTIMIZATION_LEVEL") == Some(Str(c))
    && Lookup(settings, "DEBUG_INFORMATION_FORMAT") == Some(Str(format))
  }

  predicate IsLevel(k: string) {
    k == "SWIFT_OPTIMIZATION_LEVEL" || k == "GCC_OPTIMIZATION_LEVEL" || k == "DEBUG_INFORMATION_FORMAT"
  }

  /** The settings of a debug build: unoptimised, with the base's compilation conditions and DEBUG; all
      others are the base's, and no key is added. */
  ghost predicate DebugBuild(settings: seq<Entry>, base: seq<Entry>) {
    && Levels(settings, "-Onone", "0", "dwarf")
    && (match Lookup(base, "SWIFT_ACTIVE_COMPILATION_CONDITIONS")
        case Some(List(items)) => Lookup(settings, "SWIFT_ACTIVE_COMPILATION_CONDITIONS") == Some(List(items + [Str("DEBUG")]))
        case None => Lookup(settings, "SWIFT_ACTIVE_COMPILATION_CONDITIONS") == Some(List([Str("$(inherited)"), Str("DEBUG")]))
        case _ => true)
    && (forall k | !IsLevel(k) && k != "SWIFT_ACTIVE_COMPILATION_CONDITIONS" :: Lookup(settings, k) == Lookup(base, k))
    && (Distinct(base) ==> Distinct(settings))
  }

  /** The settings of a release build: optimised; all others are the base's, and no key is added. */
  ghost predicate ReleaseBuild(settings: seq<Entry>, base: seq<Entry>) {
    && Levels(settings, "-O", "s", "dwarf-with-dsym")
    && (forall k | !IsLevel(k) :: Lookup(settings, k) == Lookup(base, k))
    && (Distinct(base) ==> Distinct(settings))
  }

  lemma LevelKeys()
    ensures "SWIFT_OPTIMIZATION_LEVEL" != "GCC_OPTIMIZATION_LEVEL" && "GCC_OPTIMIZATION_LEVEL" != "DEBUG_INFORMATION_FORMAT"
    ensures "SWIFT_OPTIMIZATION_LEVEL" != "DEBUG_INFORMATION_FORMAT" && !IsLevel("SWIFT_ACTIVE_COMPILATION_CONDITIONS")
  {
    assert "SWIFT_OPTIMIZATION_LEVEL"[0] != "DEBUG_INFORMATION_FORMAT"[0];
    assert |"SWIFT_OPTIMIZATION_LEVEL"| == 24 && |"GCC_OPTIMIZATION_LEVEL"| == 22 && |"DEBUG_INFORMATION_FORMAT"| == 24;
    assert |"SWIFT_ACTIVE_COMPILATION_CONDITIONS"| == 35;
  }

  lemma ThreePuts(s: seq<Entry>, a: string, b: string, c: string, x: Value, y: Value, z: Value, k: string)
    requires a != b && b != c && a != c
    ensures var r := Put(Put(Put(s, a, x), b, y), c, z);
            Lookup(r, k) == if k == a then Some(x) else if k == b then Some(y) else if k == c then Some(z) else Lookup(s, k)
  {
    LookupPut(s, a, x, k);
    LookupPut(Put(s, a, x), b, y, k);
    LookupPut(Put(Put(s, a, x), b, y), c, z, k);
  }

  lemma ThreeKeys(s: seq<Entry>, a: string, b: string, c: string, x: Value, y: Value, z: Value)
    requires Distinct(s)
    ensures Distinct(Put(Put(Put(s, a, x), b, y), c, z))
  {
    PutKeys(s, a, x);
    PutKeys(Put(s, a, x), b, y);
    PutKeys(Put(Put(s, a, x), b, y), c, z);
  }

  lemma ThreeSet(s: seq<Entry>, a: string, b: string, c: string, x: Value, y: Value, z: Value, r: seq<Entry>)
    requires a != b && b != c && a != c && r == Put(Put(Put(s, a, x), b, y), c, z)
    ensures Lookup(r, a) == Some(x) && Lookup(r, b) == Some(y) && Lookup(r, c) == Some(z) && (Distinct(s) ==> Distinct(r))
    ensures forall k | k != a && k != b && k != c :: Lookup(r, k) == Lookup(s, k)
  {
    forall k
      ensures Lookup(r, k) == if k == a then Some(x) else if k == b then Some(y) else if k == c then Some(z) else Lookup(s, k)
    {
      ThreePuts(s, a, b, c, x, y, z, k);
    }
    if Distinct(s) {
      ThreeKeys(s, a, b, c, x, y, z);
    }
  }

  /** What setting the three levels means for a dictionary. */
  lemma LevelsSet(s: seq<Entry>, swift: string, c: string, format: string, r: seq<Entry>)
    requires r == Put(Put(Put(s, "SWIFT_OPTIMIZATION_LEVEL", Str(swift)), "GCC_OPTIMIZATION_LEVEL", Str(c)), "DEBUG_INFORMATION_FORMAT", Str(format))
    ensures Levels(r, swift, c, format) && (Distinct(s) ==> Distinct(r))
    ensures forall k | !IsLevel(k) :: Lookup(r, k) == Lookup(s, k)
  {
    LevelKeys();
    ThreeSet(s, "SWIFT_OPTIMIZATION_LEVEL", "GCC_OPTIMIZATION_LEVEL", "DEBUG_INFORMATION_FORMAT", Str(swift), Str(c), Str(format), r);
  }

  lemma ReleaseSet(base: seq<Entry>)
    ensures ReleaseBuild(Settings(base, false), base)
  {
    LevelsSet(base, "-O", "s", "dwarf-with-dsym", Settings(base, false));
  }

  lemma DebugSet(base: seq<Entry>)
    ensures DebugBuild(Settings(base, true), base)
  {
    var s := Put(base, CONDITIONS, DebugConditions(base));
    LevelsSet(s, "-Onone", "0", "dwarf", Settings(base, true));
    forall k
      ensures Lookup(s, k) == if k == CONDITIONS then Some(DebugConditions(base)) else Lookup(base, k)
    {
      LookupPut(base, CONDITIONS, DebugConditions(base), k);
    }
    if Distinct(base) {
      PutKeys(base, CONDITIONS, DebugConditions(base));
    }
    LevelKeys();
    DebugJoins(base);
  }

  lemma DebugJoins(base: seq<Entry>)
    ensures match Lookup(base, CONDITIONS)
            case Some(List(items)) => DebugConditions(base) == List(items + [Str("DEBUG")])
            case None => DebugConditions(base) == List([Str("$(inherited)"), Str("DEBUG")])
            case _ => true
  {
    assert [Str("$(inherited)")] + [Str("DEBUG")] == [Str("$(inherited)"), Str("DEBUG")];
  }

  /** The object of a configuration, whatever its settings are. */
  lemma ConfigurationFields(hash: string -> string, prefix: string, name: string, base: seq<Entry>)
    ensures var o := Lower(hash, Configuration(prefix, name, base).fields);
            && Lookup(o, "isa") == Some(Str("XCBuildConfiguration")) && Lookup(o, "name") == Some(Str(name))
            && Part(o, "buildSettings") == Some(Settings(base, name == "Debug"))
            && Lookup(o, "baseConfigurationReference") == if prefix == "target" then Some(Str(hash("build-config"))) else None
  {
    var o := Lower(hash, Configuration(prefix, name, base).fields);
    FieldKeys();
    assert o[0].key == "isa" && o[1].key == "name" && o[2].key == "buildSettings";
    LookupAt(o, 0);
    LookupAt(o, 1);
    LookupAt(o, 2);
    if prefix == "target" {
      assert o[3].key == "baseConfigurationReference";
      LookupAt(o, 3);
    } else {
      NotThere(o, "baseConfigurationReference");
    }
  }

  lemma FieldKeys()
    ensures |"isa"| == 3 && |"name"| == 4 && |"buildSettings"| == 13 && |"baseConfigurationReference"| == 26
  {
  }

  lemma {:induction false} NotThere(entries: seq<Entry>, key: string)
    requires forall i | 0 <= i < |entries| :: entries[i].key != key
    ensures Lookup(entries, key) == None
  {
    if entries != [] {
      NotThere(entries[1..], key);
    }
  }

  lemma ConfigurationMade(p: Inputs, prefix: string, debug: bool)
    requires prefix == "target" || prefix == "project"
    ensures Configuration(prefix, if debug then "Debug" else "Release", if prefix == "target" then p.target else p.common) in Calls(p)
  {
    var i := if debug then 0 else 1;
    Members(FileCalls(p.listing), DependencyCalls(p), PackageCalls(p), PhaseCalls(p), TargetCalls(p), ProjectCalls(p));
    if prefix == "target" {
      InGroup(ConfigurationCalls("target", p.target), TargetCall(), TargetCalls(p), i);
    } else {
      InGroup(ConfigurationCalls("project", p.common), ProjectCall(), ProjectCalls(p), i);
    }
  }

  lemma InGroup(front: seq<Call>, last: Call, group: seq<Call>, i: nat)
    requires group == front + [last] && i < |front|
    ensures i < |group| && group[i] == front[i]
  {
  }

  /** These are the two configurations. */
  ghost predicate BothBuilds(debug: Option<seq<Entry>>, release: Option<seq<Entry>>, hash: string -> string, prefix: string, base: seq<Entry>) {
    && IsConfiguration(debug, hash, prefix, "Debug") && DebugBuild(Part(debug.value, "buildSettings").value, base)
    && IsConfiguration(release, hash, prefix, "Release") && ReleaseBuild(Part(release.value, "buildSettings").value, base)
  }

  lemma BuildsMade(hash: string -> string, prefix: string, base: seq<Entry>)
    ensures BothBuilds(Some(Lower(hash, Configuration(prefix, "Debug", base).fields)),
                       Some(Lower(hash, Configuration(prefix, "Release", base).fields)), hash, prefix, base)
  {
    ConfigurationFields(hash, prefix, "Debug", base);
    ConfigurationFields(hash, prefix, "Release", base);
    DebugSet(base);
    ReleaseSet(base);
  }

  /** What the text says about the configurations of the target or of the project. */
  ghost predicate Configured(text: string, hash: string -> string, prefix: string, base: seq<Entry>) {
    BothBuilds(ObjectIn(text, hash(prefix + "Debug")), ObjectIn(text, hash(prefix + "Release")), hash, prefix, base)
  }

  /** The dictionary of objects has both configurations and their list, if their identifiers differ. */
  ghost predicate Stored(objects: seq<Entry>, hash: string -> string, prefix: string, base: seq<Entry>) {
    var debug, release, list := hash(prefix + "Debug"), hash(prefix + "Release"), hash(prefix + "configs");
    debug != release && debug != list && release != list ==>
      && BothBuilds(Part(objects, debug), Part(objects, release), hash, prefix, base)
      && IsConfigurationList(Part(objects, list), hash, prefix)
  }

  lemma PutThree(s: seq<Entry>, a: string, b: string, c: string, x: seq<Entry>, y: seq<Entry>, z: seq<Entry>, r: seq<Entry>)
    requires a != b && b != c && a != c && r == Put(Put(Put(s, a, Dict(x)), b, Dict(y)), c, Dict(z))
    ensures Part(r, a) == Some(x) && Part(r, b) == Some(y) && Part(r, c) == Some(z)
  {
    ThreeSet(s, a, b, c, Dict(x), Dict(y), Dict(z), r);
  }

  lemma StoreSnoc(hash: string -> string, calls: seq<Call>, c: Call)
    ensures Store(hash, calls + [c]) == Put(Store(hash, calls), hash(c.key), Dict(Lower(hash, c.fields)))
  {
    assert (calls + [c])[..|calls|] == calls;
  }

  lemma StoreOfThree(hash: string -> string, calls: seq<Call>, a: Call, b: Call, c: Call)
    ensures Store(hash, calls + [a, b, c])
            == Put(Put(Put(Store(hash, calls), hash(a.key), Dict(Lower(hash, a.fields))), hash(b.key), Dict(Lower(hash, b.fields))),
                   hash(c.key), Dict(Lower(hash, c.fields)))
  {
    StoreSnoc(hash, calls, a);
    StoreSnoc(hash, calls + [a], b);
    StoreSnoc(hash, calls + [a] + [b], c);
    assert calls + [a] + [b] + [c] == calls + [a, b, c];
  }

  lemma ListMade(hash: string -> string, prefix: string)
    ensures IsConfigurationList(Some(Lower(hash, ConfigurationList(prefix).fields)), hash, prefix)
  {
    var c := ConfigurationList(prefix);
    ListFields(c, prefix);
    FieldOf(hash, c, 0, "isa");
    FieldOf(hash, c, 1, "buildConfigurations");
    FieldOf(hash, c, 3, "defaultConfigurationName");
  }

  lemma ConfigurationsStored(hash: string -> string, calls: seq<Call>, prefix: string, base: seq<Entry>)
    ensures Stored(Store(hash, calls + ConfigurationCalls(prefix, base)), hash, prefix, base)
  {
    StoredFor(hash, calls, Configuration(prefix, "Debug", base), Configuration(prefix, "Release", base), ConfigurationList(prefix), prefix, base);
  }

  lemma StoredFor(hash: string -> string, calls: seq<Call>, a: Call, b: Call, c: Call, prefix: string, base: seq<Entry>)
    requires a == Configuration(prefix, "Debug", base) && b == Configuration(prefix, "Release", base) && c == ConfigurationList(prefix)
    ensures Stored(Store(hash, calls + [a, b, c]), hash, prefix, base)
  {
    var objects := Store(hash, calls + [a, b, c]);
    BuildsMade(hash, prefix, base);
    ListMade(hash, prefix);
    StoreOfThree(hash, calls, a, b, c);
    if hash(a.key) != hash(b.key) && hash(b.key) != hash(c.key) && hash(a.key) != hash(c.key) {
      PutThree(Store(hash, calls), hash(a.key), hash(b.key), hash(c.key),
               Lower(hash, a.fields), Lower(hash, b.fields), Lower(hash, c.fields), objects);
    }
  }

  lemma ConfigurationsHeld(hash: string -> string, calls: seq<Call>, text: string, prefix: string, base: seq<Entry>)
    requires Holds(text, hash, calls) && Configuration(prefix, "Debug", base) in calls && Configuration(prefix, "Release", base) in calls
    ensures Configured(text, hash, prefix, base)
  {
    ObjectReads(hash, calls, text, Configuration(prefix, "Debug", base));
    ObjectReads(hash, calls, text, Configuration(prefix, "Release", base));
    BuildsMade(hash, prefix, base);
  }

  /** The text of a run holds, under the identifier of its key, each of the four configurations: what it
      is, and what its settings are in terms of the target's and the project's. */
  lemma ConfigurationsRead(hash: string -> string, p: Inputs, text: string)
    requires Unique(p.listing) && CollisionFree(hash, p.listing) && text == ProjectText(hash, p)
    ensures Configured(text, hash, "target", p.target) && Configured(text, hash, "project", p.common)
  {
    ProjectHolds(hash, p, text);
    TargetHeld(hash, p, text);
    ProjectHeld(hash, p, text);
  }

  /** With distinct names and a hash that tells the keys of the run apart, the text configures the target
      and the project as they should be. */
  ghost predicate Configures(hash: string -> string, p: Inputs, text: string) {
    Unique(p.listing) && CollisionFree(hash, p.listing) ==>
      Configured(text, hash, "target", p.target) && Configured(text, hash, "project", p.common)
  }

  lemma TextConfigures(hash: string -> string, p: Inputs, text: string)
    requires text == ProjectText(hash, p)
    ensures Configures(hash, p, text)
  {
    if Unique(p.listing) && CollisionFree(hash, p.listing) {
      ConfigurationsRead(hash, p, text);
    }
  }

  lemma TargetHeld(hash: string -> string, p: Inputs, text: string)
    requires Holds(text, hash, Calls(p))
    ensures Configured(text, hash, "target", p.target)
  {
    ConfigurationMade(p, "target", true);
    ConfigurationMade(p, "target", false);
    ConfigurationsHeld(hash, Calls(p), text, "target", p.target);
  }

  lemma ProjectHeld(hash: string -> string, p: Inputs, text: string)
    requires Holds(text, hash, Calls(p))
    ensures Configured(text, hash, "project", p.common)
  {
    ConfigurationMade(p, "project", true);
    ConfigurationMade(p, "project", false);
    ConfigurationsHeld(hash, Calls(p), text, "project", p.common);
  }

  predicate IsConfiguration(found: Option<seq<Entry>>, hash: string -> string, prefix: string, name: string) {
    && found.Some?
    && Lookup(found.value, "isa") == Some(Str("XCBuildConfiguration")) && Lookup(found.value, "name") == Some(Str(name))
    && Part(found.value, "buildSettings").Some?
    && Lookup(found.value, "baseConfigurationReference") == if prefix == "target" then Some(Str(hash("build-config"))) else None
  }

  lemma TeamKey()
    ensures !IsLevel("DEVELOPMENT_TEAM") && "DEVELOPMENT_TEAM" != "SWIFT_ACTIVE_COMPILATION_CONDITIONS"
  {
    assert |"DEVELOPMENT_TEAM"| == 16;
    assert |"SWIFT_OPTIMIZATION_LEVEL"| == 24 && |"GCC_OPTIMIZATION_LEVEL"| == 22 && |"DEBUG_INFORMATION_FORMAT"| == 24;
    assert |"SWIFT_ACTIVE_COMPILATION_CONDITIONS"| == 35;
  }

  /** The value of a build setting. */
  function Setting(found: Option<seq<Entry>>, key: string): Option<Value> {
    var o :- found;
    var settings :- Part(o, "buildSettings");
    Lookup(settings, key)
  }

  lemma TeamConfigured(text: string, hash: string -> string, base: seq<Entry>, team: string)
    requires Configured(text, hash, "target", base) && Lookup(base, "DEVELOPMENT_TEAM") == Some(Str(team))
    ensures Setting(ObjectIn(text, hash("target" + "Debug")), "DEVELOPMENT_TEAM") == Some(Str(team))
    ensures Setting(ObjectIn(text, hash("target" + "Release")), "DEVELOPMENT_TEAM") == Some(Str(team))
  {
    TeamKey();
  }

  /** Both configurations of the target are signed by the team of the run. */
  lemma TeamRead(hash: string -> string, listing: seq<string>, url: string, revision: string, team: string, text: string)
    requires Unique(listing) && CollisionFree(hash, listing) && text == ProjectText(hash, RunInputs(listing, url, revision, Some(team)))
    ensures Setting(ObjectIn(text, hash("target" + "Debug")), "DEVELOPMENT_TEAM") == Some(Str(team))
    ensures Setting(ObjectIn(text, hash("target" + "Release")), "DEVELOPMENT_TEAM") == Some(Str(team))
  {
    ConfigurationsRead(hash, RunInputs(listing, url, revision, Some(team)), text);
    LookupPut(TargetDefaults(), "DEVELOPMENT_TEAM", Str(team), "DEVELOPMENT_TEAM");
    TeamConfigured(text, hash, TargetSettings(Some(team)), team);
  }

  // ---------- files and phases ----------

  lemma {:induction false} FileMade(listing: seq<string>, name: string)
    requires name in listing && IsSource(name)
    ensures FileReference(name) in FileCalls(listing)
  {
    var front, last := listing[..|listing| - 1], listing[|listing| - 1];
    if last == name {
      assert CallsFor(name)[0] == FileReference(name);
    } else {
      FileMade(front, name);
    }
  }

  lemma FileHeld(hash: string -> string, calls: seq<Call>, text: string, name: string)
    requires Holds(text, hash, calls) && IsSource(name) && FileReference(name) in calls
    ensures IsFile(ObjectIn(text, hash(name)), name, Kinds()[Suffix(name)])
  {
    ObjectReads(hash, calls, text, FileReference(name));
    FileFields(hash, name);
  }

  /** Each source file is in the text under the identifier of its name, with its path and its kind. */
  lemma FileReads(hash: string -> string, p: Inputs, text: string, name: string)
    requires Unique(p.listing) && CollisionFree(hash, p.listing) && text == ProjectText(hash, p) && name in p.listing
    ensures EndsAs(name, ".swift") ==> IsFile(ObjectIn(text, hash(name)), name, "sourcecode.swift")
    ensures EndsAs(name, ".metal") ==> IsFile(ObjectIn(text, hash(name)), name, "sourcecode.metal")
    ensures EndsAs(name, ".m") ==> IsFile(ObjectIn(text, hash(name)), name, "sourcecode.c.objc")
    ensures EndsAs(name, ".h") ==> IsFile(ObjectIn(text, hash(name)), name, "sourcecode.c.h")
    ensures EndsAs(name, ".xcassets") ==> IsFile(ObjectIn(text, hash(name)), name, "folder.assetcatalog")
  {
    KindsAre(name);
    if IsSource(name) {
      FileMade(p.listing, name);
      ProjectHolds(hash, p, text);
      FileHeld(hash, Calls(p), text, name);
    }
  }

  lemma {:induction false} BuildMade(listing: seq<string>, name: string)
    requires name in listing && IsSource(name) && !IsHeader(name)
    ensures BuildFile(BuildKey(name), name) in FileCalls(listing)
  {
    var front, last := listing[..|listing| - 1], listing[|listing| - 1];
    if last == name {
      assert CallsFor(name)[1] == BuildFile(BuildKey(name), name);
    } else {
      BuildMade(front, name);
    }
  }

  lemma BuildHeld(hash: string -> string, calls: seq<Call>, text: string, name: string)
    requires Holds(text, hash, calls) && BuildFile(BuildKey(name), name) in calls
    ensures Has(ObjectIn(text, hash(name + "-build")), "isa", Str("PBXBuildFile"))
    ensures Has(ObjectIn(text, hash(name + "-build")), "fileRef", Str(hash(name)))
  {
    var c := BuildFile(BuildKey(name), name);
    assert |"isa"| == 3 && |"fileRef"| == 7;
    FieldHeld(hash, calls, text, c, 0, "isa");
    FieldHeld(hash, calls, text, c, 1, "fileRef");
  }

  /** Each source file but a header has a build file that refers to it. */
  lemma BuildReads(hash: string -> string, p: Inputs, text: string, name: string)
    requires Unique(p.listing) && CollisionFree(hash, p.listing) && text == ProjectText(hash, p) && name in p.listing
    requires EndsAs(name, ".swift") || EndsAs(name, ".metal") || EndsAs(name, ".m") || EndsAs(name, ".xcassets")
    ensures Has(ObjectIn(text, hash(name + "-build")), "isa", Str("PBXBuildFile"))
    ensures Has(ObjectIn(text, hash(name + "-build")), "fileRef", Str(hash(name)))
  {
    KindsApart(name);
    KindsAre(name);
    BuildMade(p.listing, name);
    ProjectHolds(hash, p, text);
    BuildHeld(hash, Calls(p), text, name);
  }

  predicate IsFile(found: Option<seq<Entry>>, name: string, kind: string) {
    && found.Some? && Lookup(found.value, "isa") == Some(Str("PBXFileReference"))
    && Lookup(found.value, "path") == Some(Str(name)) && Lookup(found.value, "lastKnownFileType") == Some(Str(kind))
  }

  lemma FileFields(hash: string -> string, name: string)
    requires IsSource(name)
    ensures IsFile(Some(Lower(hash, FileReference(name).fields)), name, Kinds()[Suffix(name)])
  {
    var o := Lower(hash, FileReference(name).fields);
    assert |"isa"| == 3 && |"lastKnownFileType"| == 17 && |"path"| == 4;
    assert o[0].key == "isa" && o[1].key == "lastKnownFileType" && o[2].key == "path";
    LookupAt(o, 0);
    LookupAt(o, 1);
    LookupAt(o, 2);
  }

  function Listed(hash: string -> string, keys: seq<string>): Value {
    List(seq(|keys|, i requires 0 <= i < |keys| => Str(hash(keys[i]))))
  }

  /** A field of an object. */
  predicate Has(found: Option<seq<Entry>>, key: string, value: Value) {
    found.Some? && Lookup(found.value, key) == Some(value)
  }

  /** The n-th field is the first one of its name. */
  predicate FirstNamed(c: Call, n: nat, name: string) {
    n < |c.fields| && c.fields[n].name == name && forall i | 0 <= i < n :: c.fields[i].name != name
  }

  lemma FieldOf(hash: string -> string, c: Call, n: nat, name: string)
    requires FirstNamed(c, n, name)
    ensures Has(Some(Lower(hash, c.fields)), name, LowerArg(hash, c.fields[n].arg))
  {
    LookupAt(Lower(hash, c.fields), n);
  }

  lemma FieldHeld(hash: string -> string, calls: seq<Call>, text: string, c: Call, n: nat, name: string)
    requires Holds(text, hash, calls) && c in calls && FirstNamed(c, n, name)
    ensures Has(ObjectIn(text, hash(c.key)), name, LowerArg(hash, c.fields[n].arg))
  {
    ObjectReads(hash, calls, text, c);
    FieldOf(hash, c, n, name);
  }

  /** A build phase: every action of the mask, on these files, in every build. */
  predicate IsPhase(found: Option<seq<Entry>>, isa: string, hash: string -> string, keys: seq<string>) {
    && Has(found, "isa", Str(isa)) && Has(found, "buildActionMask", Int(0x7fff_ffff)) && Has(found, "files", Listed(hash, keys))
    && Has(found, "runOnlyForDeployment" + "Postprocessing", Int(0))
  }

  predicate MakesPhase(c: Call, own: string, isa: string, keys: seq<string>) {
    c == Call(own, [StrField("isa", isa), MASK, Field("files", Refs(keys)), NOT_ONLY])
  }

  lemma PhaseFields(c: Call, own: string, isa: string, keys: seq<string>)
    requires MakesPhase(c, own, isa, keys)
    ensures FirstNamed(c, 0, "isa") && FirstNamed(c, 1, "buildActionMask") && FirstNamed(c, 2, "files")
    ensures FirstNamed(c, 3, "runOnlyForDeployment" + "Postprocessing")
  {
    assert |"isa"| == 3 && |"buildActionMask"| == 15 && |"files"| == 5 && |"runOnlyForDeployment" + "Postprocessing"| == 34;
  }

  lemma PhaseHeld(hash: string -> string, calls: seq<Call>, text: string, c: Call, own: string, isa: string, keys: seq<string>)
    requires Holds(text, hash, calls) && c in calls && MakesPhase(c, own, isa, keys)
    ensures IsPhase(ObjectIn(text, hash(own)), isa, hash, keys)
  {
    PhaseFields(c, own, isa, keys);
    FieldHeld(hash, calls, text, c, 0, "isa");
    FieldHeld(hash, calls, text, c, 1, "buildActionMask");
    FieldHeld(hash, calls, text, c, 2, "files");
    FieldHeld(hash, calls, text, c, 3, "runOnlyForDeployment" + "Postprocessing");
  }

  lemma GroupMade(p: Inputs)
    ensures SourceGroup(p) in Calls(p)
  {
    Members(FileCalls(p.listing), DependencyCalls(p), PackageCalls(p), PhaseCalls(p), TargetCalls(p), ProjectCalls(p));
    assert DependencyCalls(p)[0] == SourceGroup(p);
  }

  lemma PhasesMade(p: Inputs)
    ensures SourcesPhase(p) in Calls(p) && FrameworkPhase() in Calls(p) && ResourcesPhase(p) in Calls(p)
  {
    Members(FileCalls(p.listing), DependencyCalls(p), PackageCalls(p), PhaseCalls(p), TargetCalls(p), ProjectCalls(p));
    var c := PhaseCalls(p);
    assert c[0] == SourcesPhase(p) && c[1] == FrameworkPhase() && c[2] == ResourcesPhase(p);
  }

  lemma GroupHeld(hash: string -> string, calls: seq<Call>, p: Inputs, text: string)
    requires Holds(text, hash, calls) && SourceGroup(p) in calls
    ensures Has(ObjectIn(text, hash("sources")), "children", Listed(hash, Files(p.listing)))
  {
    assert |"isa"| == 3 && |"children"| == 8;
    FieldHeld(hash, calls, text, SourceGroup(p), 1, "children");
  }

  lemma ThreePhasesHeld(hash: string -> string, calls: seq<Call>, p: Inputs, text: string)
    requires Holds(text, hash, calls) && SourcesPhase(p) in calls && FrameworkPhase() in calls && ResourcesPhase(p) in calls
    ensures IsPhase(ObjectIn(text, hash("sources-phase")), "PBXSourcesBuildPhase", hash, Compiled(p.listing))
    ensures IsPhase(ObjectIn(text, hash("framework-phase")), "PBXFrameworksBuildPhase", hash, ["python-link", "fluid-audio-link"])
    ensures IsPhase(ObjectIn(text, hash("resources-phase")), "PBXResourcesBuildPhase", hash, Bundled(p.listing))
  {
    PhaseHeld(hash, calls, text, SourcesPhase(p), "sources-phase", "PBXSourcesBuildPhase", Compiled(p.listing));
    PhaseHeld(hash, calls, text, FrameworkPhase(), "framework-phase", "PBXFrameworksBuildPhase", ["python-link", "fluid-audio-link"]);
    PhaseHeld(hash, calls, text, ResourcesPhase(p), "resources-phase", "PBXResourcesBuildPhase", Bundled(p.listing));
  }

  /** The source group lists the identifiers of the sources, and the phases those of their build files. */
  lemma PhasesRead(hash: string -> string, p: Inputs, text: string)
    requires Unique(p.listing) && CollisionFree(hash, p.listing) && text == ProjectText(hash, p)
    ensures Has(ObjectIn(text, hash("sources")), "children", Listed(hash, Files(p.listing)))
    ensures IsPhase(ObjectIn(text, hash("sources-phase")), "PBXSourcesBuildPhase", hash, Compiled(p.listing))
    ensures IsPhase(ObjectIn(text, hash("framework-phase")), "PBXFrameworksBuildPhase", hash, ["python-link", "fluid-audio-link"])
    ensures IsPhase(ObjectIn(text, hash("resources-phase")), "PBXResourcesBuildPhase", hash, Bundled(p.listing))
  {
    ProjectHolds(hash, p, text);
    GroupMade(p);
    PhasesMade(p);
    GroupHeld(hash, Calls(p), p, text);
    ThreePhasesHeld(hash, Calls(p), p, text);
  }

  // ---------- the target, the project and the document ----------

  /** The build phases in the order in which they run. */
  const PHASE_ORDER := ["sources-phase", "framework-phase", "resources-phase", "bundle-phase", "embed-phase"]

  lemma TargetFields(c: Call)
    requires c == TargetCall()
    ensures c.key == "target" && FirstNamed(c, 5, "buildConfigurationList") && FirstNamed(c, 6, "buildPhases") && FirstNamed(c, 9, "packageProductDependencies")
    ensures c.fields[5].arg == Ref("targetconfigs") && c.fields[6].arg == Refs(PHASE_ORDER) && c.fields[9].arg == Refs(["fluid-audio-product"])
  {
    assert |"isa"| == 3 && |"name"| == 4 && |"productName"| == 11 && |"productType"| == 11 && |"productReference"| == 16;
    assert |"buildConfigurationList"| == 22 && |"buildPhases"| == 11 && |"buildRules"| == 10 && |"dependencies"| == 12 && |"packageProductDependencies"| == 26;
    assert "productName"[0] == 'p' && "productType"[0] == 'p' && "buildPhases"[0] == 'b';
  }

  lemma TargetIn(p: Inputs)
    ensures TargetCall() in Calls(p)
  {
    Members(FileCalls(p.listing), DependencyCalls(p), PackageCalls(p), PhaseCalls(p), TargetCalls(p), ProjectCalls(p));
    assert TargetCalls(p)[3] == TargetCall();
  }

  lemma TargetIsHeld(hash: string -> string, calls: seq<Call>, text: string, c: Call)
    requires Holds(text, hash, calls) && c in calls && c == TargetCall()
    ensures Has(ObjectIn(text, hash("target")), "buildConfigurationList", Str(hash("targetconfigs")))
    ensures Has(ObjectIn(text, hash("target")), "buildPhases", Listed(hash, PHASE_ORDER))
    ensures Has(ObjectIn(text, hash("target")), "packageProductDependencies", Listed(hash, ["fluid-audio-product"]))
  {
    TargetFields(c);
    FieldHeld(hash, calls, text, c, 5, "buildConfigurationList");
    FieldHeld(hash, calls, text, c, 6, "buildPhases");
    FieldHeld(hash, calls, text, c, 9, "packageProductDependencies");
  }

  /** The target runs the five phases in their order and uses its configurations and the package's product. */
  lemma TargetReads(hash: string -> string, p: Inputs, text: string)
    requires Unique(p.listing) && CollisionFree(hash, p.listing) && text == ProjectText(hash, p)
    ensures Has(ObjectIn(text, hash("target")), "buildConfigurationList", Str(hash("targetconfigs")))
    ensures Has(ObjectIn(text, hash("target")), "buildPhases", Listed(hash, PHASE_ORDER))
    ensures Has(ObjectIn(text, hash("target")), "packageProductDependencies", Listed(hash, ["fluid-audio-product"]))
  {
    ProjectHolds(hash, p, text);
    TargetIn(p);
    TargetIsHeld(hash, Calls(p), text, TargetCall());
  }

  lemma ListFields(c: Call, prefix: string)
    requires c == ConfigurationList(prefix)
    ensures c.key == prefix + "configs" && FirstNamed(c, 0, "isa") && FirstNamed(c, 1, "buildConfigurations") && FirstNamed(c, 3, "defaultConfigurationName")
    ensures c.fields[0].arg == Plain(Str("XCConfigurationList")) && c.fields[3].arg == Plain(Str("Release"))
    ensures c.fields[1].arg == Refs([prefix + "Debug", prefix + "Release"])
  {
    assert |"isa"| == 3 && |"buildConfigurations"| == 19 && |"defaultConfigurationIsVisible"| == 29 && |"defaultConfigurationName"| == 24;
  }

  lemma ListIn(p: Inputs)
    ensures ConfigurationList("target") in Calls(p) && ConfigurationList("project") in Calls(p)
  {
    Members(FileCalls(p.listing), DependencyCalls(p), PackageCalls(p), PhaseCalls(p), TargetCalls(p), ProjectCalls(p));
    InGroup(ConfigurationCalls("target", p.target), TargetCall(), TargetCalls(p), 2);
    InGroup(ConfigurationCalls("project", p.common), ProjectCall(), ProjectCalls(p), 2);
  }

  lemma ListHeld(hash: string -> string, calls: seq<Call>, text: string, prefix: string)
    requires Holds(text, hash, calls) && ConfigurationList(prefix) in calls
    ensures IsConfigurationList(ObjectIn(text, hash(prefix + "configs")), hash, prefix)
  {
    var c := ConfigurationList(prefix);
    ListFields(c, prefix);
    FieldHeld(hash, calls, text, c, 0, "isa");
    FieldHeld(hash, calls, text, c, 1, "buildConfigurations");
    FieldHeld(hash, calls, text, c, 3, "defaultConfigurationName");
  }

  /** A list of the two configurations, of which Release is the default. */
  predicate IsConfigurationList(found: Option<seq<Entry>>, hash: string -> string, prefix: string) {
    && Has(found, "isa", Str("XCConfigurationList")) && Has(found, "buildConfigurations", Listed(hash, [prefix + "Debug", prefix + "Release"]))
    && Has(found, "defaultConfigurationName", Str("Release"))
  }

  /** The target and the project each have their two configurations in a list. */
  lemma ListsRead(hash: string -> string, p: Inputs, text: string)
    requires Unique(p.listing) && CollisionFree(hash, p.listing) && text == ProjectText(hash, p)
    ensures IsConfigurationList(ObjectIn(text, hash("target" + "configs")), hash, "target")
    ensures IsConfigurationList(ObjectIn(text, hash("project" + "configs")), hash, "project")
  {
    ProjectHolds(hash, p, text);
    ListIn(p);
    ListHeld(hash, Calls(p), text, "target");
    ListHeld(hash, Calls(p), text, "project");
  }

  lemma PackageFields(c: Call, url: string, revision: string)
    requires c == Call("fluid-audio-package", [StrField("isa", "XCRemoteSwiftPackageReference"), StrField("repositoryURL", url),
                                               Field("requirement", Plain(Dict([Entry("kind", Str("revision")), Entry("revision", Str(revision))])))])
    ensures FirstNamed(c, 1, "repositoryURL") && FirstNamed(c, 2, "requirement")
  {
    assert |"isa"| == 3 && |"repositoryURL"| == 13 && |"requirement"| == 11;
  }

  lemma PackageIn(p: Inputs)
    ensures FluidPackage(p) in Calls(p) && FluidProduct() in Calls(p) && FluidLink() in Calls(p) && RootGroup() in Calls(p)
  {
    Members(FileCalls(p.listing), DependencyCalls(p), PackageCalls(p), PhaseCalls(p), TargetCalls(p), ProjectCalls(p));
    var c := PackageCalls(p);
    assert c[0] == FluidPackage(p) && c[1] == FluidProduct() && c[2] == FluidLink() && c[5] == RootGroup();
  }

  lemma PackageHeld(hash: string -> string, calls: seq<Call>, p: Inputs, text: string)
    requires Holds(text, hash, calls) && FluidPackage(p) in calls
    ensures Has(ObjectIn(text, hash("fluid-audio-package")), "repositoryURL", Str(p.url))
    ensures Has(ObjectIn(text, hash("fluid-audio-package")), "requirement", Dict([Entry("kind", Str("revision")), Entry("revision", Str(p.revision))]))
  {
    var c := FluidPackage(p);
    PackageFields(c, p.url, p.revision);
    FieldHeld(hash, calls, text, c, 1, "repositoryURL");
    FieldHeld(hash, calls, text, c, 2, "requirement");
  }

  lemma ProductHeld(hash: string -> string, calls: seq<Call>, text: string)
    requires Holds(text, hash, calls) && FluidProduct() in calls && FluidLink() in calls
    ensures Has(ObjectIn(text, hash("fluid-audio-product")), "package", Str(hash("fluid-audio-package")))
    ensures Has(ObjectIn(text, hash("fluid-audio-product")), "productName", Str("FluidAudio"))
    ensures Has(ObjectIn(text, hash("fluid-audio-link")), "productRef", Str(hash("fluid-audio-product")))
  {
    assert |"isa"| == 3 && |"package"| == 7 && |"productName"| == 11 && |"productRef"| == 10;
    FieldHeld(hash, calls, text, FluidProduct(), 1, "package");
    FieldHeld(hash, calls, text, FluidProduct(), 2, "productName");
    FieldHeld(hash, calls, text, FluidLink(), 1, "productRef");
  }

  /** The package is required from its address at its revision, and what is linked is its product. */
  lemma PackageRead(hash: string -> string, p: Inputs, text: string)
    requires Unique(p.listing) && CollisionFree(hash, p.listing) && text == ProjectText(hash, p)
    ensures Has(ObjectIn(text, hash("fluid-audio-package")), "repositoryURL", Str(p.url))
    ensures Has(ObjectIn(text, hash("fluid-audio-package")), "requirement", Dict([Entry("kind", Str("revision")), Entry("revision", Str(p.revision))]))
    ensures Has(ObjectIn(text, hash("fluid-audio-product")), "package", Str(hash("fluid-audio-package")))
    ensures Has(ObjectIn(text, hash("fluid-audio-product")), "productName", Str("FluidAudio"))
    ensures Has(ObjectIn(text, hash("fluid-audio-link")), "productRef", Str(hash("fluid-audio-product")))
  {
    ProjectHolds(hash, p, text);
    PackageIn(p);
    PackageHeld(hash, Calls(p), p, text);
    ProductHeld(hash, Calls(p), text);
  }

  lemma RootFields(c: Call)
    requires c == ProjectCall()
    ensures c.key == "project" && FirstNamed(c, 1, "buildConfigurationList") && FirstNamed(c, 6, "mainGroup") && FirstNamed(c, 10, "targets")
    ensures c.fields[1].arg == Ref("projectconfigs") && c.fields[6].arg == Ref("root-group") && c.fields[10].arg == Refs(["target"])
  {
    assert |"isa"| == 3 && |"buildConfigurationList"| == 22 && |"compatibilityVersion"| == 20 && |"developmentRegion"| == 17;
    assert |"hasScannedForEncodings"| == 22 && |"knownRegions"| == 12 && |"mainGroup"| == 9 && |"productRefGroup"| == 15;
    assert |"projectDirPath"| == 14 && |"projectRoot"| == 11 && |"targets"| == 7;
  }

  lemma PackageListed(c: Call)
    requires c == ProjectCall()
    ensures FirstNamed(c, 11, "packageReferences") && c.fields[11].arg == Refs(["fluid-audio-package"])
  {
    assert |"isa"| == 3 && |"buildConfigurationList"| == 22 && |"compatibilityVersion"| == 20 && |"developmentRegion"| == 17;
    assert |"hasScannedForEncodings"| == 22 && |"knownRegions"| == 12 && |"mainGroup"| == 9 && |"productRefGroup"| == 15;
    assert |"projectDirPath"| == 14 && |"projectRoot"| == 11 && |"targets"| == 7 && |"packageReferences"| == 17;
    assert "developmentRegion"[0] != "packageReferences"[0];
  }

  lemma RootIn(p: Inputs)
    ensures ProjectCall() in Calls(p)
  {
    Members(FileCalls(p.listing), DependencyCalls(p), PackageCalls(p), PhaseCalls(p), TargetCalls(p), ProjectCalls(p));
    assert ProjectCalls(p)[3] == ProjectCall();
  }

  lemma RootIsHeld(hash: string -> string, calls: seq<Call>, text: string, c: Call)
    requires Holds(text, hash, calls) && c in calls && c == ProjectCall()
    ensures Has(ObjectIn(text, hash("project")), "buildConfigurationList", Str(hash("projectconfigs")))
    ensures Has(ObjectIn(text, hash("project")), "mainGroup", Str(hash("root-group")))
    ensures Has(ObjectIn(text, hash("project")), "targets", Listed(hash, ["target"]))
    ensures Has(ObjectIn(text, hash("project")), "packageReferences", Listed(hash, ["fluid-audio-package"]))
  {
    RootFields(c);
    PackageListed(c);
    FieldHeld(hash, calls, text, c, 1, "buildConfigurationList");
    FieldHeld(hash, calls, text, c, 6, "mainGroup");
    FieldHeld(hash, calls, text, c, 10, "targets");
    FieldHeld(hash, calls, text, c, 11, "packageReferences");
  }

  lemma RootGroupHeld(hash: string -> string, calls: seq<Call>, text: string)
    requires Holds(text, hash, calls) && RootGroup() in calls
    ensures Has(ObjectIn(text, hash("root-group")), "children", Listed(hash, ["sources", "python", "build-config", "products"]))
  {
    assert |"isa"| == 3 && |"children"| == 8;
    FieldHeld(hash, calls, text, RootGroup(), 1, "children");
  }

  /** The project has its configurations, the group with the sources, the one target, and the package. */
  lemma RootRead(hash: string -> string, p: Inputs, text: string)
    requires Unique(p.listing) && CollisionFree(hash, p.listing) && text == ProjectText(hash, p)
    ensures Has(ObjectIn(text, hash("project")), "buildConfigurationList", Str(hash("projectconfigs")))
    ensures Has(ObjectIn(text, hash("project")), "mainGroup", Str(hash("root-group")))
    ensures Has(ObjectIn(text, hash("project")), "targets", Listed(hash, ["target"]))
    ensures Has(ObjectIn(text, hash("project")), "packageReferences", Listed(hash, ["fluid-audio-package"]))
    ensures Has(ObjectIn(text, hash("root-group")), "children", Listed(hash, ["sources", "python", "build-config", "products"]))
  {
    ProjectHolds(hash, p, text);
    RootIn(p);
    PackageIn(p);
    RootIsHeld(hash, Calls(p), text, ProjectCall());
    RootGroupHeld(hash, Calls(p), text);
  }

  lemma DocumentFields(hash: string -> string, objects: seq<Entry>)
    ensures var d := DocumentEntries(hash, objects);
            && Lookup(d, "archiveVersion") == Some(Int(1)) && Lookup(d, "classes") == Some(Dict([]))
            && Lookup(d, "objectVersion") == Some(Int(56)) && Lookup(d, "rootObject") == Some(Str(hash("project")))
  {
    var d := DocumentEntries(hash, objects);
    assert |"archiveVersion"| == 14 && |"classes"| == 7 && |"objectVersion"| == 13 && |"objects"| == 7 && |"rootObject"| == 10;
    LookupAt(d, 0);
    LookupAt(d, 1);
    LookupAt(d, 2);
    LookupAt(d, 4);
  }

  lemma DocumentHeld(hash: string -> string, calls: seq<Call>, text: string)
    requires Holds(text, hash, calls)
    ensures IsDocument(DocumentIn(text), hash)
  {
    DocumentFields(hash, Objects(hash, calls));
  }

  predicate IsDocument(document: Option<seq<Entry>>, hash: string -> string) {
    && Has(document, "archiveVersion", Int(1)) && Has(document, "classes", Dict([]))
    && Has(document, "objectVersion", Int(56)) && Has(document, "rootObject", Str(hash("project")))
  }

  /** The document around the objects: its versions, and the project as its root. */
  lemma DocumentRead(hash: string -> string, p: Inputs, text: string)
    requires Unique(p.listing) && CollisionFree(hash, p.listing) && text == ProjectText(hash, p)
    ensures IsDocument(DocumentIn(text), hash)
  {
    ProjectHolds(hash, p, text);
    DocumentHeld(hash, Calls(p), text);
  }
}
