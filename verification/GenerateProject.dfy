/** `main` of scripts/generate_project.py: the objects dictionary is filled by calls of `obj`,
    and the project text is rendered from it. */
module GenerateProject {
  import opened Text
  import opened Printer
  import opened TeamPattern
  import opened ProjectModel
  import opened SigningTeam
  import opened Readback
  import opened ProjectFile

  function Idents(hash: string -> string, keys: seq<string>): (ids: seq<string>)
    ensures |ids| == |keys|
  {
    seq(|keys|, i requires 0 <= i < |keys| => hash(keys[i]))
  }

  lemma IdentsLowered(hash: string -> string, keys: seq<string>, ids: seq<string>)
    requires |ids| == |keys| && forall i | 0 <= i < |ids| :: ids[i] == hash(keys[i])
    ensures Strings(ids) == List(Identifiers(hash, keys))
  {
  }

  lemma PhaseIdents(hash: string -> string, sources: string, frameworks: string, resources: string, bundle: string, embed: string)
    requires sources == hash("sources-phase") && frameworks == hash("framework-phase") && resources == hash("resources-phase")
    requires bundle == hash("bundle-phase") && embed == hash("embed-phase")
    ensures [sources, frameworks, resources, bundle, embed] == Idents(hash, PHASE_ORDER)
  {
  }

  /** The calls of a run, in groups. */
  function Group(p: Inputs, k: nat): seq<Call> {
    if k == 0 then FileCalls(p.listing)
    else if k == 1 then DependencyCalls(p)
    else if k == 2 then PackageCalls(p)
    else if k == 3 then PhaseCalls(p)
    else if k == 4 then TargetCalls(p)
    else ProjectCalls(p)
  }

  ghost predicate AreGroups(groups: seq<seq<Call>>, p: Inputs) {
    |groups| == 6 && forall k: nat {:trigger Group(p, k)} | k < 6 :: groups[k] == Group(p, k)
  }

  lemma AllGroups(p: Inputs) returns (groups: seq<seq<Call>>)
    ensures AreGroups(groups, p) && groups[0] == FileCalls(p.listing)
  {
    groups := seq(6, k requires 0 <= k < 6 => Group(p, k));
  }

  lemma GroupAt(groups: seq<seq<Call>>, p: Inputs, k: nat)
    requires AreGroups(groups, p) && k < 6
    ensures groups[k] == Group(p, k)
  {
  }

  lemma Chain(calls: seq<Call>, a: Call, b: Call, c: Call, d: Call, e: Call)
    ensures calls + [a] + [b] + [c] + [d] + [e] == calls + [a, b, c, d, e]
  {
  }

  lemma DependencyGroup(groups: seq<seq<Call>>, p: Inputs, calls: seq<Call>)
    requires AreGroups(groups, p)
    ensures calls + [SourceGroup(p)] + [Python()] + [BuildFile("python-link", "python")] + [PythonEmbed()] + [BuildConfig()] == calls + groups[1]
  {
    GroupAt(groups, p, 1);
    Chain(calls, SourceGroup(p), Python(), BuildFile("python-link", "python"), PythonEmbed(), BuildConfig());
  }

  lemma PhaseGroup(groups: seq<seq<Call>>, p: Inputs, calls: seq<Call>)
    requires AreGroups(groups, p)
    ensures calls + [SourcesPhase(p)] + [FrameworkPhase()] + [ResourcesPhase(p)] + [BundlePhase()] + [EmbedPhase()] == calls + groups[3]
  {
    GroupAt(groups, p, 3);
    Chain(calls, SourcesPhase(p), FrameworkPhase(), ResourcesPhase(p), BundlePhase(), EmbedPhase());
  }

  lemma PackageGroup(groups: seq<seq<Call>>, p: Inputs, calls: seq<Call>)
    requires AreGroups(groups, p)
    ensures calls + [FluidPackage(p)] + [FluidProduct()] + [FluidLink()] + [Product(), Products(), RootGroup()] == calls + groups[2]
  {
    GroupAt(groups, p, 2);
    ChainThree(calls, FluidPackage(p), FluidProduct(), FluidLink(), [Product(), Products(), RootGroup()]);
  }

  lemma ChainThree(calls: seq<Call>, a: Call, b: Call, c: Call, more: seq<Call>)
    ensures calls + [a] + [b] + [c] + more == calls + ([a, b, c] + more)
  {
  }

  lemma TargetGroup(groups: seq<seq<Call>>, p: Inputs, calls: seq<Call>, settings: seq<Entry>)
    requires AreGroups(groups, p) && settings == p.target
    ensures calls + ConfigurationCalls("target", settings) + [TargetCall()] == calls + groups[4]
  {
    GroupAt(groups, p, 4);
    Associate(calls, ConfigurationCalls("target", settings), [TargetCall()]);
  }

  lemma ProjectGroup(groups: seq<seq<Call>>, p: Inputs, calls: seq<Call>, common: seq<Entry>)
    requires AreGroups(groups, p) && common == p.common
    ensures calls + ConfigurationCalls("project", common) + [ProjectCall()] == calls + groups[5]
  {
    GroupAt(groups, p, 5);
    Associate(calls, ConfigurationCalls("project", common), [ProjectCall()]);
  }

  lemma FilesFirst<T>(a: seq<T>, b: seq<T>, c: seq<T>, d: seq<T>, e: seq<T>, f: seq<T>)
    ensures a + b + c + d + e + f == a + (b + c + d + e + f)
  {
  }

  lemma AllCalls(p: Inputs, groups: seq<seq<Call>>)
    requires AreGroups(groups, p)
    ensures groups[0] + groups[1] + groups[2] + groups[3] + groups[4] + groups[5] == Calls(p)
  {
    GroupAt(groups, p, 0);
    GroupAt(groups, p, 1);
    GroupAt(groups, p, 2);
    GroupAt(groups, p, 3);
    GroupAt(groups, p, 4);
    GroupAt(groups, p, 5);
    FilesFirst(FileCalls(p.listing), DependencyCalls(p), PackageCalls(p), PhaseCalls(p), TargetCalls(p), ProjectCalls(p));
  }

  lemma ListKeys()
    ensures "target" + "configs" == "targetconfigs" && "project" + "configs" == "projectconfigs"
  {
  }

  lemma NextConfigurations(calls: seq<Call>, prefix: string, base: seq<Entry>) returns (next: seq<Call>)
    ensures AreConfigurations(next, [prefix + "Debug", prefix + "Release"], prefix, ["Debug", "Release"], base)
    ensures calls + next + [ConfigurationList(prefix)] == calls + ConfigurationCalls(prefix, base)
  {
    next := [Configuration(prefix, "Debug", base), Configuration(prefix, "Release", base)];
  }

  /** next holds the calls of the loop in `configurations`. */
  ghost predicate AreConfigurations(next: seq<Call>, keys: seq<string>, prefix: string, names: seq<string>, base: seq<Entry>) {
    && |next| == |keys| == |names|
    && forall i {:trigger Configuration(prefix, names[i], base)} | 0 <= i < |names| :: next[i] == Configuration(prefix, names[i], base) && keys[i] == prefix + names[i]
  }

  lemma CallsSlice(calls: seq<Call>, next: seq<Call>, i: nat)
    requires i < |next|
    ensures calls + next[..i] + [next[i]] == calls + next[..i + 1]
  {
  }

  lemma Bounds(calls: seq<Call>, next: seq<Call>, keys: seq<string>)
    ensures calls + next[..0] == calls && next[..|next|] == next && keys[..|keys|] == keys && keys[..0] == []
  {
  }

  lemma IdentsSnoc(hash: string -> string, keys: seq<string>, key: string)
    ensures Idents(hash, keys + [key]) == Idents(hash, keys) + [hash(key)]
    ensures keys + [] == keys
  {
  }

  /** What one directory entry adds. */
  lemma NextFile(hash: string -> string, listing: seq<string>, i: nat)
    requires i < |listing|
    ensures var name, done, next := listing[i], listing[..i], listing[..i + 1];
            var calls := FileCalls(done);
            && FileCalls(next) == (if !IsSource(name) then calls
                                   else if IsHeader(name) then calls + [FileReference(name)]
                                   else calls + [FileReference(name)] + [BuildFile(BuildKey(name), name)])
            && Idents(hash, Files(next)) == Idents(hash, Files(done)) + (if IsSource(name) then [hash(name)] else [])
            && Idents(hash, Compiled(next)) == Idents(hash, Compiled(done)) + (if IsCompiled(name) then [hash(BuildKey(name))] else [])
            && Idents(hash, Bundled(next)) == Idents(hash, Bundled(done)) + (if IsResource(name) then [hash(BuildKey(name))] else [])
  {
    var name, done, next := listing[i], listing[..i], listing[..i + 1];
    assert next[..|next| - 1] == done && next[|next| - 1] == name;
    CallsSnoc(FileCalls(done), name);
    CollectSnoc(hash, next, IsSource, FileKey);
    CollectSnoc(hash, next, IsCompiled, BuildKey);
    CollectSnoc(hash, next, IsResource, BuildKey);
  }

  lemma CallsSnoc(calls: seq<Call>, name: string)
    ensures calls + CallsFor(name) == (if !IsSource(name) then calls
                                       else if IsHeader(name) then calls + [FileReference(name)]
                                       else calls + [FileReference(name)] + [BuildFile(BuildKey(name), name)])
  {
  }

  lemma CollectSnoc(hash: string -> string, next: seq<string>, p: string -> bool, key: string -> string)
    requires next != []
    ensures var name, done := next[|next| - 1], next[..|next| - 1];
            Idents(hash, Collect(next, p, key)) == Idents(hash, Collect(done, p, key)) + (if p(name) then [hash(key(name))] else [])
  {
    var name, done := next[|next| - 1], next[..|next| - 1];
    IdentsSnoc(hash, Collect(done, p, key), key(name));
  }

  class Generator {
    const hash: string -> string
    var objects: seq<Entry>

    constructor (hash: string -> string)
      ensures this.hash == hash && objects == []
    {
      this.hash := hash;
      objects := [];
    }

    /** `obj`: stores an object under the hash of its key and returns that identifier. */
    method Obj(key: string, fields: seq<Entry>) returns (ident: string)
      modifies this
      ensures ident == hash(key) && objects == Put(old(objects), hash(key), Dict(fields))
    {
      ident := hash(key);
      objects := Put(objects, ident, Dict(fields));
    }

    /** A call of `obj` whose place in the run is known. */
    method Create(key: string, fields: seq<Entry>, ghost calls: seq<Call>, ghost c: Call) returns (ident: string)
      requires objects == Store(hash, calls) && key == c.key && fields == Lower(hash, c.fields)
      modifies this
      ensures ident == hash(c.key) && objects == Store(hash, calls + [c])
    {
      ident := Obj(key, fields);
      StoreSnoc(hash, calls, c);
    }

    method AddReference(name: string, ghost calls: seq<Call>) returns (ref: string)
      requires objects == Store(hash, calls) && IsSource(name)
      modifies this
      ensures ref == hash(name) && objects == Store(hash, calls + [FileReference(name)])
    {
      ref := Create(name, [Entry("isa", Str("PBXFileReference")), Entry("lastKnownFileType", Str(Kinds()[Suffix(name)])),
                           Entry("path", Str(name)), Entry("sourceTree", Str("<group>"))], calls, FileReference(name));
    }

    method AddBuildFile(key: string, ref: string, ghost name: string, ghost calls: seq<Call>) returns (build: string)
      requires objects == Store(hash, calls) && ref == hash(name)
      modifies this
      ensures build == hash(key) && objects == Store(hash, calls + [BuildFile(key, name)])
    {
      build := Create(key, [Entry("isa", Str("PBXBuildFile")), Entry("fileRef", Str(ref))], calls, BuildFile(key, name));
    }

    /** The loop over the source directory. */
    method AddFiles(listing: seq<string>) returns (files: seq<string>, compiled: seq<string>, bundled: seq<string>)
      requires objects == []
      modifies this
      ensures objects == Store(hash, FileCalls(listing))
      ensures files == Idents(hash, Files(listing))
      ensures compiled == Idents(hash, Compiled(listing))
      ensures bundled == Idents(hash, Bundled(listing))
    {
      files, compiled, bundled := [], [], [];
      for i := 0 to |listing|
        invariant objects == Store(hash, FileCalls(listing[..i]))
        invariant files == Idents(hash, Files(listing[..i]))
        invariant compiled == Idents(hash, Compiled(listing[..i]))
        invariant bundled == Idents(hash, Bundled(listing[..i]))
      {
        var name := listing[i];
        ghost var calls := FileCalls(listing[..i]);
        NextFile(hash, listing, i);
        if Suffix(name) !in Kinds() {
          continue;
        }
        var ref := AddReference(name, calls);
        files := files + [ref];
        if Suffix(name) == ".xcassets" {
          var build := AddBuildFile(name + "-build", ref, name, calls + [FileReference(name)]);
          bundled := bundled + [build];
        } else if Suffix(name) != ".h" {
          var build := AddBuildFile(name + "-build", ref, name, calls + [FileReference(name)]);
          compiled := compiled + [build];
        }
      }
      assert listing[..|listing|] == listing;
    }

    method AddPython(ghost calls: seq<Call>) returns (python: string, pythonLink: string, pythonEmbed: string)
      requires objects == Store(hash, calls)
      modifies this
      ensures python == hash("python") && pythonLink == hash("python-link") && pythonEmbed == hash("python-embed")
      ensures objects == Store(hash, calls + [Python()] + [BuildFile("python-link", "python")] + [PythonEmbed()])
    {
      python := Create("python", [Entry("isa", Str("PBXFileReference")), Entry("lastKnownFileType", Str("wrapper.xcframework")),
                                  Entry("path", Str("Vendor/Python.xcframework")), Entry("sourceTree", Str("<group>"))],
                       calls, Python());
      ghost var added := calls + [Python()];
      pythonLink := AddBuildFile("python-link", python, "python", added);
      added := added + [BuildFile("python-link", "python")];
      pythonEmbed := Create("python-embed", [Entry("isa", Str("PBXBuildFile")), Entry("fileRef", Str(python)),
                                             Entry("settings", Dict([Entry("ATTRIBUTES", Strings(["CodeSignOnCopy", "RemoveHeadersOnCopy"]))]))],
                            added, PythonEmbed());
    }

    method AddDependencies(files: seq<string>, ghost p: Inputs, ghost groups: seq<seq<Call>>, ghost calls: seq<Call>)
      returns (sourceGroup: string, python: string, pythonLink: string, pythonEmbed: string, buildConfig: string)
      requires AreGroups(groups, p) && objects == Store(hash, calls) && files == Idents(hash, Files(p.listing))
      modifies this
      ensures sourceGroup == hash("sources") && python == hash("python") && pythonLink == hash("python-link")
      ensures pythonEmbed == hash("python-embed") && buildConfig == hash("build-config")
      ensures objects == Store(hash, calls + groups[1])
    {
      IdentsLowered(hash, Files(p.listing), files);
      sourceGroup := Create("sources", [Entry("isa", Str("PBXGroup")), Entry("children", Strings(files)),
                                        Entry("path", Str("src/ios/PipecatVoice")), Entry("sourceTree", Str("<group>"))], calls, SourceGroup(p));
      ghost var added := calls + [SourceGroup(p)];
      python, pythonLink, pythonEmbed := AddPython(added);
      added := added + [Python()] + [BuildFile("python-link", "python")] + [PythonEmbed()];
      buildConfig := Create("build-config", [Entry("isa", Str("PBXFileReference")), Entry("lastKnownFileType", Str("text.xcconfig")),
                                             Entry("path", Str("config/Build.xcconfig")), Entry("sourceTree", Str("<group>"))],
                            added, BuildConfig());
      DependencyGroup(groups, p, calls);
    }

    method AddPackages(url: string, revision: string, sourceGroup: string, python: string, buildConfig: string,
                       ghost p: Inputs, ghost groups: seq<seq<Call>>, ghost calls: seq<Call>)
      returns (fluidPackage: string, fluidProduct: string, fluidLink: string, product: string, products: string, group: string)
      requires AreGroups(groups, p) && objects == Store(hash, calls) && p.url == url && p.revision == revision
      requires sourceGroup == hash("sources") && python == hash("python") && buildConfig == hash("build-config")
      modifies this
      ensures fluidPackage == hash("fluid-audio-package") && fluidProduct == hash("fluid-audio-product") && fluidLink == hash("fluid-audio-link")
      ensures product == hash("product") && products == hash("products") && group == hash("root-group")
      ensures objects == Store(hash, calls + groups[2])
    {
      fluidPackage := Create("fluid-audio-package", [Entry("isa", Str("XCRemoteSwiftPackageReference")), Entry("repositoryURL", Str(url)),
                                                     Entry("requirement", Dict([Entry("kind", Str("revision")), Entry("revision", Str(revision))]))],
                             calls, FluidPackage(p));
      ghost var added := calls + [FluidPackage(p)];
      fluidProduct := Create("fluid-audio-product", [Entry("isa", Str("XCSwiftPackageProductDependency")),
                                                     Entry("package", Str(fluidPackage)), Entry("productName", Str("FluidAudio"))],
                             added, FluidProduct());
      added := added + [FluidProduct()];
      fluidLink := Create("fluid-audio-link", [Entry("isa", Str("PBXBuildFile")), Entry("productRef", Str(fluidProduct))], added, FluidLink());
      added := added + [FluidLink()];
      product, products, group := AddGroups(sourceGroup, python, buildConfig, added);
      PackageGroup(groups, p, calls);
    }

    method AddRootGroup(children: seq<string>, ghost calls: seq<Call>) returns (group: string)
      requires objects == Store(hash, calls)
      requires children == [hash("sources"), hash("python"), hash("build-config"), hash("products")]
      modifies this
      ensures group == hash("root-group") && objects == Store(hash, calls + [RootGroup()])
    {
      IdentsLowered(hash, ["sources", "python", "build-config", "products"], children);
      group := Create("root-group", [Entry("isa", Str("PBXGroup")), Entry("children", Strings(children)),
                                     Entry("sourceTree", Str("<group>"))], calls, RootGroup());
    }

    method AddGroups(sourceGroup: string, python: string, buildConfig: string, ghost calls: seq<Call>)
      returns (product: string, products: string, group: string)
      requires objects == Store(hash, calls)
      requires sourceGroup == hash("sources") && python == hash("python") && buildConfig == hash("build-config")
      modifies this
      ensures product == hash("product") && products == hash("products") && group == hash("root-group")
      ensures objects == Store(hash, calls + [Product(), Products(), RootGroup()])
    {
      product := Create("product", [Entry("isa", Str("PBXFileReference")), Entry("explicitFileType", Str("wrapper.application")),
                                    Entry("path", Str("PipecatVoice.app")), Entry("sourceTree", Str("BUILT_PRODUCTS_DIR"))], calls, Product());
      ghost var added := calls + [Product()];
      IdentsLowered(hash, ["product"], [product]);
      products := Create("products", [Entry("isa", Str("PBXGroup")), Entry("children", Strings([product])),
                                      Entry("name", Str("Products")), Entry("sourceTree", Str("<group>"))], added, Products());
      added := added + [Products()];
      group := AddRootGroup([sourceGroup, python, buildConfig, products], added);
      assert added + [RootGroup()] == calls + [Product(), Products(), RootGroup()];
    }

    method AddPhases(compiled: seq<string>, bundled: seq<string>, pythonLink: string, fluidLink: string, pythonEmbed: string,
                     ghost p: Inputs, ghost groups: seq<seq<Call>>, ghost calls: seq<Call>)
      returns (sources: string, frameworks: string, resources: string, bundle: string, embed: string)
      requires AreGroups(groups, p) && objects == Store(hash, calls)
      requires compiled == Idents(hash, Compiled(p.listing)) && bundled == Idents(hash, Bundled(p.listing))
      requires pythonLink == hash("python-link") && fluidLink == hash("fluid-audio-link") && pythonEmbed == hash("python-embed")
      modifies this
      ensures sources == hash("sources-phase") && frameworks == hash("framework-phase") && resources == hash("resources-phase")
      ensures bundle == hash("bundle-phase") && embed == hash("embed-phase")
      ensures objects == Store(hash, calls + groups[3])
    {
      ghost var added := calls;
      sources := AddPhase("sources-phase", "PBXSourcesBuildPhase", compiled, Compiled(p.listing), added, SourcesPhase(p));
      added := added + [SourcesPhase(p)];
      frameworks := AddPhase("framework-phase", "PBXFrameworksBuildPhase", [pythonLink, fluidLink],
                             ["python-link", "fluid-audio-link"], added, FrameworkPhase());
      added := added + [FrameworkPhase()];
      resources := AddPhase("resources-phase", "PBXResourcesBuildPhase", bundled, Bundled(p.listing), added, ResourcesPhase(p));
      added := added + [ResourcesPhase(p)];
      bundle := AddBundlePhase(added);
      added := added + [BundlePhase()];
      embed := AddEmbedPhase(pythonEmbed, added);
      PhaseGroup(groups, p, calls);
    }

    method AddPhase(key: string, isa: string, files: seq<string>, ghost keys: seq<string>, ghost calls: seq<Call>, ghost c: Call)
      returns (phase: string)
      requires objects == Store(hash, calls)
      requires |files| == |keys| && forall i | 0 <= i < |files| :: files[i] == hash(keys[i])
      requires c == Call(key, [StrField("isa", isa), MASK, Field("files", Refs(keys)), NOT_ONLY])
      modifies this
      ensures phase == hash(key) && objects == Store(hash, calls + [c])
    {
      IdentsLowered(hash, keys, files);
      phase := Create(key, [Entry("isa", Str(isa)), Entry("buildActionMask", Int(2147483647)), Entry("files", Strings(files)),
                            Entry("runOnlyForDeployment" + "Postprocessing", Int(0))], calls, c);
    }

    method AddBundlePhase(ghost calls: seq<Call>) returns (phase: string)
      requires objects == Store(hash, calls)
      modifies this
      ensures phase == hash("bundle-phase") && objects == Store(hash, calls + [BundlePhase()])
    {
      IdentsLowered(hash, [], []);
      phase := Create("bundle-phase",
                      [Entry("isa", Str("PBXShellScriptBuildPhase")), Entry("buildActionMask", Int(2147483647)),
                       Entry("files", Strings([])), Entry("inputPaths", List([])), Entry("outputPaths", List([])),
                       Entry("name", Str("Bundle Python and voice assets")), Entry("shellPath", Str("/bin/sh")),
                       Entry("shellScript", Str("set -eu\n\"$SRCROOT/.venv/bin/python\"" + " \"$SRCROOT/scripts/" + "bundle_runtime.py\"\n")),
                       Entry("alwaysOutOfDate", Int(1)), Entry("runOnlyForDeployment" + "Postprocessing", Int(0))],
                      calls, BundlePhase());
    }

    method AddEmbedPhase(pythonEmbed: string, ghost calls: seq<Call>) returns (phase: string)
      requires objects == Store(hash, calls) && pythonEmbed == hash("python-embed")
      modifies this
      ensures phase == hash("embed-phase") && objects == Store(hash, calls + [EmbedPhase()])
    {
      IdentsLowered(hash, ["python-embed"], [pythonEmbed]);
      phase := Create("embed-phase",
                      [Entry("isa", Str("PBXCopyFilesBuildPhase")), Entry("buildActionMask", Int(2147483647)),
                       Entry("dstPath", Str("")), Entry("dstSubfolderSpec", Int(10)), Entry("files", Strings([pythonEmbed])),
                       Entry("name", Str("Embed Frameworks")), Entry("runOnlyForDeployment" + "Postprocessing", Int(0))],
                      calls, EmbedPhase());
    }

    method AddConfiguration(prefix: string, name: string, base: seq<Entry>, buildConfig: string, ghost calls: seq<Call>)
      returns (value: string)
      requires objects == Store(hash, calls) && buildConfig == hash("build-config")
      modifies this
      ensures value == hash(prefix + name) && objects == Store(hash, calls + [Configuration(prefix, name, base)])
    {
      var settings := base;
      if name == "Debug" {
        var conditions := match Lookup(settings, CONDITIONS) { case Some(List(items)) => items case _ => [Str(INHERITED)] };
        settings := Put(settings, CONDITIONS, List(conditions + [Str("DEBUG")]));
      }
      settings := Put(settings, "SWIFT_OPTIMIZATION_LEVEL", Str(if name == "Debug" then "-Onone" else "-O"));
      settings := Put(settings, "GCC_OPTIMIZATION_LEVEL", Str(if name == "Debug" then "0" else "s"));
      settings := Put(settings, "DEBUG_INFORMATION_FORMAT", Str(if name == "Debug" then "dwarf" else "dwarf-with-dsym"));
      value := Create(prefix + name,
                      [Entry("isa", Str("XCBuildConfiguration")), Entry("name", Str(name)), Entry("buildSettings", Dict(settings))]
                      + if prefix == "target" then [Entry("baseConfigurationReference", Str(buildConfig))] else [],
                      calls, Configuration(prefix, name, base));
    }

    /** One turn of the loop in `configurations`. */
    method AddNext(prefix: string, names: seq<string>, i: nat, base: seq<Entry>, buildConfig: string,
                   ghost calls: seq<Call>, ghost next: seq<Call>, ghost keys: seq<string>)
      returns (value: string)
      requires AreConfigurations(next, keys, prefix, names, base) && i < |names|
      requires objects == Store(hash, calls + next[..i]) && buildConfig == hash("build-config")
      modifies this
      ensures value == hash(keys[i]) && objects == Store(hash, calls + next[..i + 1])
    {
      assert next[i] == Configuration(prefix, names[i], base);
      value := AddConfiguration(prefix, names[i], base, buildConfig, calls + next[..i]);
      CallsSlice(calls, next, i);
    }

    method AddConfigurations(prefix: string, names: seq<string>, base: seq<Entry>, buildConfig: string,
                             ghost calls: seq<Call>, ghost next: seq<Call>, ghost keys: seq<string>)
      returns (values: seq<string>)
      requires AreConfigurations(next, keys, prefix, names, base)
      requires objects == Store(hash, calls) && buildConfig == hash("build-config")
      modifies this
      ensures values == Idents(hash, keys)
      ensures objects == Store(hash, calls + next)
    {
      values := [];
      Bounds(calls, next, keys);
      for i := 0 to |names|
        invariant values == Idents(hash, keys[..i])
        invariant objects == Store(hash, calls + next[..i])
      {
        var value := AddNext(prefix, names, i, base, buildConfig, calls, next, keys);
        values := values + [value];
        assert keys[..i + 1] == keys[..i] + [keys[i]];
      }
    }

    method AddConfigurationList(prefix: string, values: seq<string>, ghost calls: seq<Call>) returns (list: string)
      requires objects == Store(hash, calls) && values == [hash(prefix + "Debug"), hash(prefix + "Release")]
      modifies this
      ensures list == hash(prefix + "configs") && objects == Store(hash, calls + [ConfigurationList(prefix)])
    {
      IdentsLowered(hash, [prefix + "Debug", prefix + "Release"], values);
      list := Create(prefix + "configs",
                     [Entry("isa", Str("XCConfigurationList")), Entry("buildConfigurations", Strings(values)),
                      Entry("defaultConfigurationIsVisible", Int(0)), Entry("defaultConfigurationName", Str("Release"))],
                     calls, ConfigurationList(prefix));
    }

    /** The inner function `configurations`. */
    method Configurations(prefix: string, base: seq<Entry>, buildConfig: string, ghost calls: seq<Call>) returns (list: string)
      requires objects == Store(hash, calls) && buildConfig == hash("build-config")
      modifies this
      ensures list == hash(prefix + "configs") && objects == Store(hash, calls + ConfigurationCalls(prefix, base))
      ensures Stored(objects, hash, prefix, base)
    {
      ghost var next := NextConfigurations(calls, prefix, base);
      ghost var keys := [prefix + "Debug", prefix + "Release"];
      var values := AddConfigurations(prefix, ["Debug", "Release"], base, buildConfig, calls, next, keys);
      list := AddConfigurationList(prefix, values, calls + next);
      ConfigurationsStored(hash, calls, prefix, base);
    }

    method AddTarget(buildPhases: seq<string>, product: string, configurations: string, fluidProduct: string, ghost calls: seq<Call>)
      returns (target: string)
      requires objects == Store(hash, calls) && buildPhases == Idents(hash, PHASE_ORDER)
      requires product == hash("product") && configurations == hash("target" + "configs") && fluidProduct == hash("fluid-audio-product")
      modifies this
      ensures target == hash("target") && objects == Store(hash, calls + [TargetCall()])
    {
      ListKeys();
      IdentsLowered(hash, PHASE_ORDER, buildPhases);
      IdentsLowered(hash, ["fluid-audio-product"], [fluidProduct]);
      target := Create("target",
                       [Entry("isa", Str("PBXNativeTarget")), Entry("name", Str("PipecatVoice")), Entry("productName", Str("PipecatVoice")),
                        Entry("productType", Str("com.apple.product-type" + ".application")), Entry("productReference", Str(product)),
                        Entry("buildConfigurationList", Str(configurations)), Entry("buildPhases", Strings(buildPhases)),
                        Entry("buildRules", List([])), Entry("dependencies", List([])),
                        Entry("packageProductDependencies", Strings([fluidProduct]))],
                       calls, TargetCall());
    }

    method AddProject(configurations: string, group: string, products: string, target: string, fluidPackage: string, ghost calls: seq<Call>)
      returns (project: string)
      requires objects == Store(hash, calls) && configurations == hash("project" + "configs") && group == hash("root-group")
      requires products == hash("products") && target == hash("target") && fluidPackage == hash("fluid-audio-package")
      modifies this
      ensures project == hash("project") && objects == Store(hash, calls + [ProjectCall()])
    {
      ListKeys();
      IdentsLowered(hash, ["target"], [target]);
      IdentsLowered(hash, ["fluid-audio-package"], [fluidPackage]);
      project := Create("project",
                        [Entry("isa", Str("PBXProject")), Entry("buildConfigurationList", Str(configurations)),
                         Entry("compatibilityVersion", Str("Xcode 14.0")), Entry("developmentRegion", Str("en")),
                         Entry("hasScannedForEncodings", Int(0)), Entry("knownRegions", Strings(["en", "Base"])),
                         Entry("mainGroup", Str(group)), Entry("productRefGroup", Str(products)),
                         Entry("projectDirPath", Str("")), Entry("projectRoot", Str("")), Entry("targets", Strings([target])),
                         Entry("packageReferences", Strings([fluidPackage])),
                         Entry("attributes", Dict([Entry("LastUpgradeCheck", Str("2600")),
                                                   Entry("BuildIndependentTargets" + "InParallel", Str("YES"))]))],
                        calls, ProjectCall());
    }

    method AddTargets(settings: seq<Entry>, buildConfig: string, buildPhases: seq<string>, product: string, fluidProduct: string,
                      ghost p: Inputs, ghost groups: seq<seq<Call>>, ghost calls: seq<Call>)
      returns (target: string)
      requires AreGroups(groups, p) && objects == Store(hash, calls) && settings == p.target && buildConfig == hash("build-config")
      requires buildPhases == Idents(hash, PHASE_ORDER) && product == hash("product") && fluidProduct == hash("fluid-audio-product")
      modifies this
      ensures target == hash("target") && objects == Store(hash, calls + groups[4])
    {
      var configurations := Configurations("target", settings, buildConfig, calls);
      target := AddTarget(buildPhases, product, configurations, fluidProduct, calls + ConfigurationCalls("target", settings));
      TargetGroup(groups, p, calls, settings);
    }

    method AddProjects(common: seq<Entry>, buildConfig: string, group: string, products: string, target: string, fluidPackage: string,
                       ghost p: Inputs, ghost groups: seq<seq<Call>>, ghost calls: seq<Call>)
      returns (project: string)
      requires AreGroups(groups, p) && objects == Store(hash, calls) && common == p.common && buildConfig == hash("build-config") && group == hash("root-group")
      requires products == hash("products") && target == hash("target") && fluidPackage == hash("fluid-audio-package")
      modifies this
      ensures project == hash("project") && objects == Store(hash, calls + groups[5])
    {
      var configurations := Configurations("project", common, buildConfig, calls);
      project := AddProject(configurations, group, products, target, fluidPackage, calls + ConfigurationCalls("project", common));
      ProjectGroup(groups, p, calls, common);
    }

    /** The text of project.pbxproj. */
    method Write(project: string, ghost p: Inputs) returns (text: string)
      requires objects == Store(hash, Calls(p)) && project == hash("project")
      ensures text == ProjectText(hash, p)
    {
      var document := Dict([Entry("archiveVersion", Int(1)), Entry("classes", Dict([])), Entry("objectVersion", Int(56)),
                            Entry("objects", Dict(objects)), Entry("rootObject", Str(project))]);
      text := HEADER + Render(document, 0) + "\n";
    }

    /** From the file loop to the written text. */
    method Build(listing: seq<string>, url: string, revision: string, targetSettings: seq<Entry>, common: seq<Entry>)
      returns (text: string)
      requires objects == []
      modifies this
      ensures text == ProjectText(hash, Inputs(listing, url, revision, targetSettings, common))
    {
      ghost var p := Inputs(listing, url, revision, targetSettings, common);
      ghost var groups := AllGroups(p);
      var files, compiled, bundled := AddFiles(listing);
      ghost var calls := groups[0];
      var sourceGroup, python, pythonLink, pythonEmbed, buildConfig := AddDependencies(files, p, groups, calls);
      calls := calls + groups[1];
      var fluidPackage, fluidProduct, fluidLink, product, products, group :=
        AddPackages(url, revision, sourceGroup, python, buildConfig, p, groups, calls);
      calls := calls + groups[2];
      var sources, frameworks, resources, bundle, embed :=
        AddPhases(compiled, bundled, pythonLink, fluidLink, pythonEmbed, p, groups, calls);
      calls := calls + groups[3];
      PhaseIdents(hash, sources, frameworks, resources, bundle, embed);
      var target := AddTargets(targetSettings, buildConfig, [sources, frameworks, resources, bundle, embed], product, fluidProduct,
                               p, groups, calls);
      calls := calls + groups[4];
      var project := AddProjects(common, buildConfig, group, products, target, fluidPackage, p, groups, calls);
      AllCalls(p, groups);
      text := Write(project, p);
    }

    /** `main` with the team it carries over from an existing project. */
    method Carry(existing: Option<string>, listing: seq<string>, url: string, revision: string) returns (text: string)
      modifies this
      ensures text == ProjectText(hash, RunInputs(listing, url, revision, CarriedTeam(existing)))
    {
      objects := [];
      var signingTeam := if existing.Some? then Search(existing.value) else None;
      var targetSettings := TargetDefaults();
      if signingTeam.Some? {
        targetSettings := Put(targetSettings, "DEVELOPMENT_TEAM", Str(signingTeam.value));
      }
      text := Build(listing, url, revision, targetSettings, CommonSettings());
    }

    /** `main`, up to the text it writes to project.pbxproj. */
    method Generate(existing: Option<string>, listing: seq<string>, url: string, revision: string) returns (text: string)
      modifies this
      ensures text == ProjectText(hash, RunInputs(listing, url, revision, CarriedTeam(existing)))
      ensures ReadsBack(hash, RunInputs(listing, url, revision, CarriedTeam(existing)), text)
      ensures Configures(hash, RunInputs(listing, url, revision, CarriedTeam(existing)), text)
    {
      text := Carry(existing, listing, url, revision);
      TextReads(hash, RunInputs(listing, url, revision, CarriedTeam(existing)), text);
      TextConfigures(hash, RunInputs(listing, url, revision, CarriedTeam(existing)), text);
    }
  }
}
