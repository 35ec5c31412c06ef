/** The `obj` calls that scripts/generate_project.py makes, in order, as data. */
module ProjectModel {
  import opened Text
  import opened Printer

  // ---------- dictionaries in insertion order ----------

  /** `d[key] = value`: an existing key keeps its place. */
  function Put(entries: seq<Entry>, key: string, value: Value): seq<Entry> {
    if entries == [] then [Entry(key, value)]
    else if entries[0].key == key then [Entry(key, value)] + entries[1..]
    else [entries[0]] + Put(entries[1..], key, value)
  }

  function Lookup(entries: seq<Entry>, key: string): Option<Value> {
    if entries == [] then None
    else if entries[0].key == key then Some(entries[0].value)
    else Lookup(entries[1..], key)
  }

  // ---------- calls of obj ----------

  /** A keyword argument of `obj`: a plain value, or identifiers returned by earlier calls,
      named here by the keys those calls were given. */
  datatype Arg = Plain(value: Value) | Ref(key: string) | Refs(keys: seq<string>)

  datatype Field = Field(name: string, arg: Arg)

  datatype Call = Call(key: string, fields: seq<Field>)

  function Identifiers(hash: string -> string, keys: seq<string>): seq<Value> {
    seq(|keys|, i requires 0 <= i < |keys| => Str(hash(keys[i])))
  }

  function LowerArg(hash: string -> string, a: Arg): Value {
    match a
    case Plain(v) => v
    case Ref(key) => Str(hash(key))
    case Refs(keys) => List(Identifiers(hash, keys))
  }

  function Lower(hash: string -> string, fields: seq<Field>): (r: seq<Entry>)
    ensures |r| == |fields|
  {
    seq(|fields|, i requires 0 <= i < |fields| => Entry(fields[i].name, LowerArg(hash, fields[i].arg)))
  }

  /** The global dictionary after a sequence of calls. */
  function Store(hash: string -> string, calls: seq<Call>): seq<Entry> {
    if calls == [] then []
    else
      var last := calls[|calls| - 1];
      Put(Store(hash, calls[..|calls| - 1]), hash(last.key), Dict(Lower(hash, last.fields)))
  }

  /** One object for each call, in the order of the calls. */
  function Objects(hash: string -> string, calls: seq<Call>): seq<Entry> {
    seq(|calls|, i requires 0 <= i < |calls| => Entry(hash(calls[i].key), Dict(Lower(hash, calls[i].fields))))
  }

  // ---------- source files ----------

  function Kinds(): map<string, string> {
    map[
    ".swift" := "sourcecode.swift",
    ".metal" := "sourcecode.metal",
    ".m" := "sourcecode.c.objc",
    ".h" := "sourcecode.c.h",
    ".xcassets" := "folder.assetcatalog"
  ]
  }

  predicate IsSource(name: string) {
    Suffix(name) in Kinds()
  }

  predicate IsHeader(name: string) {
    Suffix(name) == ".h"
  }

  predicate IsResource(name: string) {
    Suffix(name) == ".xcassets"
  }

  /** The kinds of files, by the end of their names. */
  lemma KindsAre(name: string)
    ensures IsSource(name) <==> EndsAs(name, ".swift") || EndsAs(name, ".metal") || EndsAs(name, ".m") || EndsAs(name, ".h") || EndsAs(name, ".xcassets")
    ensures IsHeader(name) <==> EndsAs(name, ".h")
    ensures IsResource(name) <==> EndsAs(name, ".xcassets")
    ensures EndsAs(name, ".swift") ==> Kinds()[Suffix(name)] == "sourcecode.swift"
    ensures EndsAs(name, ".metal") ==> Kinds()[Suffix(name)] == "sourcecode.metal"
    ensures EndsAs(name, ".m") ==> Kinds()[Suffix(name)] == "sourcecode.c.objc"
    ensures EndsAs(name, ".h") ==> Kinds()[Suffix(name)] == "sourcecode.c.h"
    ensures EndsAs(name, ".xcassets") ==> Kinds()[Suffix(name)] == "folder.assetcatalog"
  {
    SuffixesAre(name);
    KindOf(Suffix(name));
  }

  lemma SuffixesAre(name: string)
    ensures Suffix(name) == ".swift" <==> EndsAs(name, ".swift")
    ensures Suffix(name) == ".metal" <==> EndsAs(name, ".metal")
    ensures Suffix(name) == ".m" <==> EndsAs(name, ".m")
    ensures Suffix(name) == ".h" <==> EndsAs(name, ".h")
    ensures Suffix(name) == ".xcassets" <==> EndsAs(name, ".xcassets")
  {
    SuffixExact(name, ".swift", "swift");
    SuffixExact(name, ".metal", "metal");
    SuffixExact(name, ".m", "m");
    SuffixExact(name, ".h", "h");
    SuffixExact(name, ".xcassets", "xcassets");
  }

  lemma KindOf(suffix: string)
    ensures suffix in Kinds() <==> suffix == ".swift" || suffix == ".metal" || suffix == ".m" || suffix == ".h" || suffix == ".xcassets"
    ensures suffix == ".swift" ==> Kinds()[suffix] == "sourcecode.swift"
    ensures suffix == ".metal" ==> Kinds()[suffix] == "sourcecode.metal"
    ensures suffix == ".m" ==> Kinds()[suffix] == "sourcecode.c.objc"
    ensures suffix == ".h" ==> Kinds()[suffix] == "sourcecode.c.h"
    ensures suffix == ".xcassets" ==> Kinds()[suffix] == "folder.assetcatalog"
  {
    assert ".swift"[1] == 's' && ".metal"[1] == 'm';
  }

  function BuildKey(name: string): string {
    name + "-build"
  }

  function FileReference(name: string): Call
    requires IsSource(name)
  {
    Call(name, [
      Field("isa", Plain(Str("PBXFileReference"))),
      Field("lastKnownFileType", Plain(Str(Kinds()[Suffix(name)]))),
      Field("path", Plain(Str(name))),
      Field("sourceTree", Plain(Str("<group>")))])
  }

  function BuildFile(key: string, ref: string): Call {
    Call(key, [Field("isa", Plain(Str("PBXBuildFile"))), Field("fileRef", Ref(ref))])
  }

  /** The calls made for one directory entry. */
  function CallsFor(name: string): seq<Call> {
    if !IsSource(name) then []
    else if IsHeader(name) then [FileReference(name)]
    else [FileReference(name), BuildFile(BuildKey(name), name)]
  }

  function FileCalls(listing: seq<string>): seq<Call> {
    if listing == [] then [] else FileCalls(listing[..|listing| - 1]) + CallsFor(listing[|listing| - 1])
  }

  /** What the file loop appends to one of its lists: the keys of the entries that p selects. */
  function Collect(listing: seq<string>, p: string -> bool, key: string -> string): seq<string> {
    if listing == [] then []
    else
      var name := listing[|listing| - 1];
      Collect(listing[..|listing| - 1], p, key) + if p(name) then [key(name)] else []
  }

  function FileKey(name: string): string {
    name
  }

  predicate IsCompiled(name: string) {
    IsSource(name) && !IsResource(name) && !IsHeader(name)
  }

  /** Keys of the file references in the source group. */
  function Files(listing: seq<string>): seq<string> {
    Collect(listing, IsSource, FileKey)
  }

  /** Keys of the build files of the sources phase. */
  function Compiled(listing: seq<string>): seq<string> {
    Collect(listing, IsCompiled, BuildKey)
  }

  /** Keys of the build files of the resources phase. */
  function Bundled(listing: seq<string>): seq<string> {
    Collect(listing, IsResource, BuildKey)
  }

  // ---------- the fixed objects ----------

  /** What a run depends on: the directory listing, the pinned package, and the build settings
      of the target and of the project. */
  datatype Inputs = Inputs(listing: seq<string>, url: string, revision: string, target: seq<Entry>, common: seq<Entry>)

  function StrField(name: string, text: string): Field {
    Field(name, Plain(Str(text)))
  }

  function IntField(name: string, n: int): Field {
    Field(name, Plain(Int(n)))
  }

  function Strings(texts: seq<string>): Value {
    List(seq(|texts|, i requires 0 <= i < |texts| => Str(texts[i])))
  }

  const GROUP: Field := StrField("sourceTree", "<group>")
  const MASK: Field := IntField("buildActionMask", 2147483647)
  const NOT_ONLY: Field := IntField("runOnlyForDeployment" + "Postprocessing", 0)

  function SourceGroup(p: Inputs): Call {
    Call("sources", [StrField("isa", "PBXGroup"), Field("children", Refs(Files(p.listing))),
                     StrField("path", "src/ios/PipecatVoice"), GROUP])
  }

  function Python(): Call {
    Call("python", [StrField("isa", "PBXFileReference"), StrField("lastKnownFileType", "wrapper.xcframework"),
                    StrField("path", "Vendor/Python.xcframework"), GROUP])
  }

  function PythonEmbed(): Call {
    Call("python-embed", [StrField("isa", "PBXBuildFile"), Field("fileRef", Ref("python")),
                          Field("settings", Plain(Dict([Entry("ATTRIBUTES", Strings(["CodeSignOnCopy", "RemoveHeadersOnCopy"]))])))])
  }

  function BuildConfig(): Call {
    Call("build-config", [StrField("isa", "PBXFileReference"), StrField("lastKnownFileType", "text.xcconfig"),
                          StrField("path", "config/Build.xcconfig"), GROUP])
  }

  function DependencyCalls(p: Inputs): (r: seq<Call>)
    ensures |r| == 5
  {
    [SourceGroup(p), Python(), BuildFile("python-link", "python"), PythonEmbed(), BuildConfig()]
  }

  function FluidPackage(p: Inputs): Call {
    Call("fluid-audio-package", [StrField("isa", "XCRemoteSwiftPackageReference"), StrField("repositoryURL", p.url),
                                 Field("requirement", Plain(Dict([Entry("kind", Str("revision")), Entry("revision", Str(p.revision))])))])
  }

  function FluidProduct(): Call {
    Call("fluid-audio-product", [StrField("isa", "XCSwiftPackageProductDependency"),
                                 Field("package", Ref("fluid-audio-package")), StrField("productName", "FluidAudio")])
  }

  function FluidLink(): Call {
    Call("fluid-audio-link", [StrField("isa", "PBXBuildFile"), Field("productRef", Ref("fluid-audio-product"))])
  }

  function Product(): Call {
    Call("product", [StrField("isa", "PBXFileReference"), StrField("explicitFileType", "wrapper.application"),
                     StrField("path", "PipecatVoice.app"), StrField("sourceTree", "BUILT_PRODUCTS_DIR")])
  }

  function Products(): Call {
    Call("products", [StrField("isa", "PBXGroup"), Field("children", Refs(["product"])), StrField("name", "Products"), GROUP])
  }

  function RootGroup(): Call {
    Call("root-group", [StrField("isa", "PBXGroup"),
                        Field("children", Refs(["sources", "python", "build-config", "products"])), GROUP])
  }

  function PackageCalls(p: Inputs): (r: seq<Call>)
    ensures |r| == 6
  {
    [FluidPackage(p), FluidProduct(), FluidLink(), Product(), Products(), RootGroup()]
  }

  function SourcesPhase(p: Inputs): Call {
    Call("sources-phase", [StrField("isa", "PBXSourcesBuildPhase"), MASK, Field("files", Refs(Compiled(p.listing))), NOT_ONLY])
  }

  function FrameworkPhase(): Call {
    Call("framework-phase", [StrField("isa", "PBXFrameworksBuildPhase"), MASK,
                             Field("files", Refs(["python-link", "fluid-audio-link"])), NOT_ONLY])
  }

  function ResourcesPhase(p: Inputs): Call {
    Call("resources-phase", [StrField("isa", "PBXResourcesBuildPhase"), MASK, Field("files", Refs(Bundled(p.listing))), NOT_ONLY])
  }

  function BundlePhase(): Call {
    Call("bundle-phase", [StrField("isa", "PBXShellScriptBuildPhase"), MASK, Field("files", Refs([])),
                          Field("inputPaths", Plain(List([]))), Field("outputPaths", Plain(List([]))),
                          StrField("name", "Bundle Python and voice assets"), StrField("shellPath", "/bin/sh"),
                          StrField("shellScript", "set -eu\n\"$SRCROOT/.venv/bin/python\"" + " \"$SRCROOT/scripts/" + "bundle_runtime.py\"\n"),
                          IntField("alwaysOutOfDate", 1), NOT_ONLY])
  }

  function EmbedPhase(): Call {
    Call("embed-phase", [StrField("isa", "PBXCopyFilesBuildPhase"), MASK, StrField("dstPath", ""), IntField("dstSubfolderSpec", 10),
                         Field("files", Refs(["python-embed"])), StrField("name", "Embed Frameworks"), NOT_ONLY])
  }

  function PhaseCalls(p: Inputs): (r: seq<Call>)
    ensures |r| == 5
  {
    [SourcesPhase(p), FrameworkPhase(), ResourcesPhase(p), BundlePhase(), EmbedPhase()]
  }

  const INHERITED := "$(inherited)"
  const CONDITIONS := "SWIFT_ACTIVE_COMPILATION_CONDITIONS"

  function CommonPlatform(): seq<Entry> {
    [ Entry("ARCHS", Str("arm64")),
      Entry("SDKROOT", Str("iphoneos")),
      Entry("IPHONEOS_DEPLOYMENT_TARGET", Str("26.0")),
      Entry("SWIFT_VERSION", Str("5.0")) ]
  }

  function CommonCompiler(): seq<Entry> {
    [ Entry("CLANG_ENABLE_MODULES", Str("YES")),
      Entry("CLANG_ENABLE_OBJC_ARC", Str("YES")),
      Entry("ENABLE_USER_SCRIPT_SANDBOXING", Str("NO")),
      Entry("SWIFT_STRICT_CONCURRENCY", Str("targeted")) ]
  }

  /** The settings common to all targets. */
  function CommonSettings(): seq<Entry> {
    CommonPlatform() + CommonCompiler()
  }

  function ProductNames(): seq<Entry> {
    [ Entry("PRODUCT_BUNDLE_IDENTIFIER", Str("ai.pipecat.voice")),
      Entry("PRODUCT_NAME", Str("$(TARGET_NAME)")),
      Entry("ASSETCATALOG_COMPILER_APPICON_NAME", Str("AppIcon")) ]
  }

  function Platforms(): seq<Entry> {
    [ Entry("TARGETED_DEVICE_FAMILY", Str("1,2")),
      Entry("SUPPORTED_PLATFORMS", Str("iphoneos iphonesimulator")),
      Entry("SUPPORTS_MACCATALYST", Str("NO")),
      Entry("CODE_SIGN_STYLE", Str("Automatic")) ]
  }

  function SourcePaths(): seq<Entry> {
    [ Entry("INFOPLIST_FILE", Str("src/ios/PipecatVoice/Info.plist")),
      Entry("GENERATE_INFOPLIST_FILE", Str("NO")),
      Entry("SWIFT_OBJC_BRIDGING_HEADER", Str("src/ios/PipecatVoice/" + "PipecatVoice-Bridging-Header.h")) ]
  }

  function CompilerPaths(): seq<Entry> {
    [ Entry("HEADER_SEARCH_PATHS", Strings([INHERITED, "$(PIPECAT_PHONON_HEADER_PATH)"])),
      Entry("GCC_PREPROCESSOR_DEFINITIONS", Strings([INHERITED, "$(PIPECAT_PHONON_C_DEFINITION)"])) ]
  }

  function SwiftConditions(): Entry {
    Entry(CONDITIONS, Strings([INHERITED, "$(PIPECAT_PHONON_SWIFT_CONDITION)"]))
  }

  function DeviceLibraries(): Entry {
    Entry("LIBRARY_SEARCH_PATHS" + "[sdk=iphoneos*]",
          Strings([INHERITED, "$(SRCROOT)/.build/rust/" + "aarch64-apple-ios/release"]))
  }

  function SimulatorLibraries(): Entry {
    Entry("LIBRARY_SEARCH_PATHS" + "[sdk=iphonesimulator*]",
          Strings([INHERITED, "$(SRCROOT)/.build/rust/" + "aarch64-apple-ios-sim/release"]))
  }

  function LinkerPaths(): seq<Entry> {
    [ Entry("LD_RUNPATH_SEARCH_PATHS", Strings([INHERITED, "@executable_path/Frameworks"])),
      Entry("OTHER_LDFLAGS", Strings([INHERITED, "$(PIPECAT_PHONON_LDFLAGS)", "-lc++", "-liconv", "-lresolv", "-framework",
                                      "Security", "-framework", "NaturalLanguage", "-framework", "SoundAnalysis"])) ]
  }

  function Versions(): seq<Entry> {
    [ Entry("CLANG_WARN_QUOTED_INCLUDE_" + "IN_FRAMEWORK_HEADER", Str("NO")),
      Entry("MARKETING_VERSION", Str("0.1.0")),
      Entry("CURRENT_PROJECT_VERSION", Str("1")) ]
  }

  /** The target's own settings, before the signing team. */
  function TargetDefaults(): seq<Entry> {
    ProductNames() + Platforms() + SourcePaths() + CompilerPaths() + [SwiftConditions(), DeviceLibraries(), SimulatorLibraries()]
    + LinkerPaths() + Versions()
  }

  function TargetSettings(team: Option<string>): seq<Entry> {
    if team.Some? then Put(TargetDefaults(), "DEVELOPMENT_TEAM", Str(team.value)) else TargetDefaults()
  }

  /** `[*settings.get(CONDITIONS, ["$(inherited)"]), "DEBUG"]`. */
  function DebugConditions(base: seq<Entry>): Value {
    var items := match Lookup(base, CONDITIONS) { case Some(List(items)) => items case _ => [Str(INHERITED)] };
    List(items + [Str("DEBUG")])
  }

  /** The settings of one configuration. */
  function Settings(base: seq<Entry>, debug: bool): seq<Entry> {
    var s0 := if debug then Put(base, CONDITIONS, DebugConditions(base)) else base;
    var s1 := Put(s0, "SWIFT_OPTIMIZATION_LEVEL", Str(if debug then "-Onone" else "-O"));
    var s2 := Put(s1, "GCC_OPTIMIZATION_LEVEL", Str(if debug then "0" else "s"));
    Put(s2, "DEBUG_INFORMATION_FORMAT", Str(if debug then "dwarf" else "dwarf-with-dsym"))
  }

  function Configuration(prefix: string, name: string, base: seq<Entry>): Call {
    Call(prefix + name,
         [StrField("isa", "XCBuildConfiguration"), StrField("name", name),
          Field("buildSettings", Plain(Dict(Settings(base, name == "Debug"))))]
         + if prefix == "target" then [Field("baseConfigurationReference", Ref("build-config"))] else [])
  }

  function ConfigurationList(prefix: string): Call {
    Call(prefix + "configs", [StrField("isa", "XCConfigurationList"),
                              Field("buildConfigurations", Refs([prefix + "Debug", prefix + "Release"])),
                              IntField("defaultConfigurationIsVisible", 0),
                              StrField("defaultConfigurationName", "Release")])
  }

  function ConfigurationCalls(prefix: string, base: seq<Entry>): (r: seq<Call>)
    ensures |r| == 3
  {
    [Configuration(prefix, "Debug", base), Configuration(prefix, "Release", base), ConfigurationList(prefix)]
  }

  function TargetCall(): Call {
    Call("target", [StrField("isa", "PBXNativeTarget"), StrField("name", "PipecatVoice"), StrField("productName", "PipecatVoice"),
                    StrField("productType", "com.apple.product-type" + ".application"), Field("productReference", Ref("product")),
                    Field("buildConfigurationList", Ref("targetconfigs")),
                    Field("buildPhases", Refs(["sources-phase", "framework-phase", "resources-phase", "bundle-phase", "embed-phase"])),
                    Field("buildRules", Plain(List([]))), Field("dependencies", Plain(List([]))),
                    Field("packageProductDependencies", Refs(["fluid-audio-product"]))])
  }

  function ProjectCall(): Call {
    Call("project", [StrField("isa", "PBXProject"), Field("buildConfigurationList", Ref("projectconfigs")),
                     StrField("compatibilityVersion", "Xcode 14.0"), StrField("developmentRegion", "en"),
                     IntField("hasScannedForEncodings", 0), Field("knownRegions", Plain(Strings(["en", "Base"]))),
                     Field("mainGroup", Ref("root-group")), Field("productRefGroup", Ref("products")),
                     StrField("projectDirPath", ""), StrField("projectRoot", ""), Field("targets", Refs(["target"])),
                     Field("packageReferences", Refs(["fluid-audio-package"])),
                     Field("attributes", Plain(Dict([Entry("LastUpgradeCheck", Str("2600")),
                                                     Entry("BuildIndependentTargets" + "InParallel", Str("YES"))])))])
  }

  function TargetCalls(p: Inputs): (r: seq<Call>)
    ensures |r| == 4
  {
    ConfigurationCalls("target", p.target) + [TargetCall()]
  }

  function ProjectCalls(p: Inputs): (r: seq<Call>)
    ensures |r| == 4
  {
    ConfigurationCalls("project", p.common) + [ProjectCall()]
  }

  /** The calls that follow the file loop. */
  function FixedCalls(p: Inputs): (r: seq<Call>)
    ensures |r| == 24
  {
    DependencyCalls(p) + PackageCalls(p) + PhaseCalls(p) + TargetCalls(p) + ProjectCalls(p)
  }

  /** Every `obj` call of one run, in order. */
  function Calls(p: Inputs): seq<Call> {
    FileCalls(p.listing) + FixedCalls(p)
  }

  /** The inputs of a run for a signing team, if there is one. */
  function RunInputs(listing: seq<string>, url: string, revision: string, team: Option<string>): Inputs {
    Inputs(listing, url, revision, TargetSettings(team), CommonSettings())
  }

  /** The entries of the document around a dictionary of objects. */
  function DocumentEntries(hash: string -> string, objects: seq<Entry>): seq<Entry> {
    [Entry("archiveVersion", Int(1)), Entry("classes", Dict([])), Entry("objectVersion", Int(56)),
     Entry("objects", Dict(objects)), Entry("rootObject", Str(hash("project")))]
  }

  function Document(hash: string -> string, p: Inputs): Value {
    Dict(DocumentEntries(hash, Store(hash, Calls(p))))
  }

  const HEADER := "// !$*UTF8*$!\n"

  function ProjectText(hash: string -> string, p: Inputs): string {
    HEADER + Render(Document(hash, p), 0) + "\n"
  }
}
