/** Regeneration keeps the signing team: what the search finds in a generated project. */
module SigningTeam {
  import opened Text
  import opened Printer
  import opened TeamPattern
  import opened TeamSearch
  import L = TeamLetters
  import opened ProjectModel
  import opened ProjectGraph
  import Json

  /** An identifier is made of 24 upper-case hexadecimal digits. */
  ghost predicate IsHash(hash: string -> string) {
    forall k :: |hash(k)| == 24 && forall c | c in hash(k) :: IsDigit(c) || 'A' <= c <= 'F'
  }

  // ---------- texts that are plainly free of the keyword ----------

  ghost predicate Evident(s: string) {
    |s| < 16 || Lacks(s)
  }

  lemma KeywordInside(s: string, i: nat)
    requires i <= |s| && KEYWORD <= s[i..]
    ensures i + 16 <= |s| && s[i] == 'D' && 'D' in s && 'V' in s && 'O' in s
  {
    assert KEYWORD[0] == 'D' && KEYWORD[2] == 'V' && KEYWORD[5] == 'O';
    assert s[i..][0] == s[i] && s[i..][2] == s[i + 2] && s[i..][5] == s[i + 5];
  }

  /** A text without one of the keyword's letters. */
  lemma Without(s: string, c: char)
    requires (c == 'V' || c == 'D' || c == 'O') && c !in s
    ensures Lacks(s)
  {
    forall i | 0 <= i <= |s|
      ensures !(KEYWORD <= s[i..])
    {
      if KEYWORD <= s[i..] {
        KeywordInside(s, i);
      }
    }
  }

  lemma WithoutBoth(a: string, b: string, c: char)
    requires (c == 'V' || c == 'D' || c == 'O') && c !in a && c !in b
    ensures Lacks(a + b)
  {
    Without(a + b, c);
  }

  lemma EvidentLacks(s: string)
    requires Evident(s)
    ensures Lacks(s)
  {
    assert |KEYWORD| == 16;
  }

  lemma LacksHidden(s: string)
    requires Lacks(s)
    ensures Hidden(s) == None
  {
    EscapeLacks(s);
    SearchSkips(Json.Escape(s), "\"" + ";");
    assert Json.Escape(s) + "\"" + ";" == Json.Escape(s) + ("\"" + ";");
    QuoteIgnored(";");
    SkipToken(";", "");
    assert ";" + "" == ";";
  }

  lemma FoundIsTeam(s: string)
    ensures Search(s).Some? ==> IsTeam(Search(s).value)
  {
    if s != "" {
      if MatchAt(s).Some? {
        var m, rest := FoundMatches(s);
      } else {
        FoundIsTeam(s[1..]);
      }
    }
  }

  // ---------- silent entries ----------

  /** An entry that the search skips. */
  predicate Silent(e: Entry) {
    TameEntry(e) && TeamEntry(e) == None
  }

  lemma {:induction false} TeamAppend(a: seq<Entry>, b: seq<Entry>)
    ensures TeamEntries(a + b) == Or(TeamEntries(a), TeamEntries(b))
    ensures TameEntries(a + b) <==> TameEntries(a) && TameEntries(b)
  {
    if a == [] {
      assert a + b == b;
    } else {
      assert (a + b)[1..] == a[1..] + b;
      TeamAppend(a[1..], b);
    }
  }

  lemma {:induction false} AllSilent(entries: seq<Entry>)
    requires forall i | 0 <= i < |entries| :: Silent(entries[i])
    ensures TameEntries(entries) && TeamEntries(entries) == None
  {
    if entries != [] {
      assert Silent(entries[0]);
      AllSilent(entries[1..]);
    }
  }

  /** One entry may speak. */
  lemma OneSpeaks(entries: seq<Entry>, n: nat)
    requires n < |entries| && TameEntry(entries[n])
    requires forall i | 0 <= i < |entries| && i != n :: Silent(entries[i])
    ensures TameEntries(entries) && TeamEntries(entries) == TeamEntry(entries[n])
  {
    if n == 0 {
      AllSilent(entries[1..]);
    } else {
      OneSpeaks(entries[1..], n - 1);
    }
  }

  ghost predicate EvidentAtom(v: Value) {
    v.Int? || (v.Str? && Evident(v.text))
  }

  ghost predicate EvidentEntry(e: Entry) {
    && Evident(e.key)
    && match e.value
       case List(items) => forall i | 0 <= i < |items| :: EvidentAtom(items[i])
       case Dict(_) => false
       case v => EvidentAtom(v)
  }

  lemma KeywordNotEvident()
    ensures !Evident(KEYWORD)
  {
    assert KEYWORD[0..] == KEYWORD;
  }

  lemma EvidentSilent(e: Entry)
    requires EvidentEntry(e)
    ensures Silent(e)
  {
    KeywordNotEvident();
    EvidentLacks(e.key);
    match e.value {
      case Str(text) =>
        EvidentLacks(text);
        LacksHidden(text);
      case List(items) =>
        forall i | 0 <= i < |items|
          ensures Quiet(items[i])
        {
          assert EvidentAtom(items[i]);
          if items[i].Str? {
            EvidentLacks(items[i].text);
          }
        }
      case _ =>
    }
  }

  ghost predicate EvidentEntries(entries: seq<Entry>) {
    forall i | 0 <= i < |entries| :: EvidentEntry(entries[i])
  }

  lemma EvidentAllSilent(entries: seq<Entry>)
    requires EvidentEntries(entries)
    ensures forall i | 0 <= i < |entries| :: Silent(entries[i])
    ensures TameEntries(entries) && TeamEntries(entries) == None
  {
    forall i | 0 <= i < |entries|
      ensures Silent(entries[i])
    {
      EvidentSilent(entries[i]);
    }
    AllSilent(entries);
  }

  // ---------- build settings ----------

  /** Settings in which only the team speaks. */
  predicate TeamOnly(entries: seq<Entry>) {
    TameEntries(entries) && forall i | 0 <= i < |entries| :: entries[i].key != KEYWORD ==> TeamEntry(entries[i]) == None
  }

  lemma TeamOnlyCons(e: Entry, tail: seq<Entry>)
    ensures TeamOnly([e] + tail) <==> TameEntry(e) && (e.key != KEYWORD ==> TeamEntry(e) == None) && TeamOnly(tail)
    ensures TeamEntries([e] + tail) == Or(TeamEntry(e), TeamEntries(tail))
  {
    var s := [e] + tail;
    assert s[1..] == tail;
    assert forall i | 0 <= i < |tail| :: tail[i] == s[i + 1];
  }

  lemma {:induction false} PutSilent(entries: seq<Entry>, key: string, value: Value)
    requires TeamOnly(entries) && key != KEYWORD && Silent(Entry(key, value))
    ensures TeamOnly(Put(entries, key, value))
    ensures TeamEntries(Put(entries, key, value)) == TeamEntries(entries)
  {
    if entries == [] {
      TeamOnlyCons(Entry(key, value), []);
    } else {
      var e, tail := entries[0], entries[1..];
      assert entries == [e] + tail;
      TeamOnlyCons(e, tail);
      if e.key == key {
        TeamOnlyCons(Entry(key, value), tail);
      } else {
        PutSilent(tail, key, value);
        TeamOnlyCons(e, Put(tail, key, value));
      }
    }
  }

  lemma {:induction false} PutTeam(entries: seq<Entry>, team: string)
    requires TeamOnly(entries) && TeamEntries(entries) == None && IsTeam(team)
    ensures TeamOnly(Put(entries, KEYWORD, Str(team)))
    ensures TeamEntries(Put(entries, KEYWORD, Str(team))) == Some(team)
  {
    if entries != [] {
      var tail := entries[1..];
      assert forall i | 0 <= i < |tail| :: tail[i] == entries[i + 1];
      PutTeam(tail, team);
      var q := Put(tail, KEYWORD, Str(team));
      assert forall i | 0 < i <= |q| :: ([entries[0]] + q)[i] == q[i - 1];
    }
  }

  ghost predicate EvidentList(v: Value) {
    v.List? && forall i | 0 <= i < |v.items| :: EvidentAtom(v.items[i])
  }

  lemma ConditionsEvident(base: seq<Entry>)
    requires forall i | 0 <= i < |base| && base[i].key == CONDITIONS && base[i].value.List? :: EvidentList(base[i].value)
    ensures EvidentList(DebugConditions(base))
  {
    if base != [] {
      var tail := base[1..];
      assert forall i | 0 <= i < |tail| :: tail[i] == base[i + 1];
      ConditionsEvident(tail);
      if base[0].key != CONDITIONS {
        assert DebugConditions(base) == DebugConditions(tail);
      }
    }
  }

  lemma ListSilent(key: string, v: Value)
    requires Lacks(key) && EvidentList(v)
    ensures key != KEYWORD && Silent(Entry(key, v))
  {
    assert key[0..] == key;
    forall i | 0 <= i < |v.items|
      ensures Quiet(v.items[i])
    {
      assert EvidentAtom(v.items[i]);
      if v.items[i].Str? {
        EvidentLacks(v.items[i].text);
      }
    }
  }

  lemma AtomSilent(key: string, text: string)
    requires Evident(key) && Evident(text)
    ensures key != KEYWORD && Silent(Entry(key, Str(text)))
  {
    KeywordNotEvident();
    EvidentSilent(Entry(key, Str(text)));
  }

  lemma HeadLacks(head: string, tail: string)
    requires 'D' !in head && |tail| < 16
    ensures Lacks(head + tail)
  {
    var s := head + tail;
    assert forall i | 0 <= i < |head| :: s[i] == head[i];
    forall i | 0 <= i <= |s|
      ensures !(KEYWORD <= s[i..])
    {
      if KEYWORD <= s[i..] {
        KeywordInside(s, i);
      }
    }
  }

  lemma ConditionsLacks()
    ensures Lacks(CONDITIONS)
  {
    assert CONDITIONS == "SWIFT_ACTIVE_COMPILATION_" + "CONDITIONS";
    HeadLacks("SWIFT_ACTIVE_COMPILATION_", "CONDITIONS");
  }

  lemma PutAtom(entries: seq<Entry>, key: string, text: string)
    requires TeamOnly(entries) && Evident(key) && Evident(text)
    ensures TeamOnly(Put(entries, key, Str(text)))
    ensures TeamEntries(Put(entries, key, Str(text))) == TeamEntries(entries)
  {
    AtomSilent(key, text);
    PutSilent(entries, key, Str(text));
  }

  lemma PutConditions(base: seq<Entry>)
    requires TeamOnly(base)
    requires forall i | 0 <= i < |base| && base[i].key == CONDITIONS && base[i].value.List? :: EvidentList(base[i].value)
    ensures TeamOnly(Put(base, CONDITIONS, DebugConditions(base)))
    ensures TeamEntries(Put(base, CONDITIONS, DebugConditions(base))) == TeamEntries(base)
  {
    ConditionsEvident(base);
    ConditionsLacks();
    ListSilent(CONDITIONS, DebugConditions(base));
    PutSilent(base, CONDITIONS, DebugConditions(base));
  }

  lemma EvidentKeys()
    ensures Evident("SWIFT_OPTIMIZATION_LEVEL") && Evident("GCC_OPTIMIZATION_LEVEL") && Evident("DEBUG_INFORMATION_FORMAT")
  {
    Without("SWIFT_OPTIMIZATION_LEVEL", 'D');
    Without("GCC_OPTIMIZATION_LEVEL", 'D');
    Without("DEBUG_INFORMATION_FORMAT", 'V');
  }

  /** The three settings that depend on the configuration's name. */
  lemma PutLevels(s: seq<Entry>, swift: string, gcc: string, format: string)
    requires TeamOnly(s) && |swift| < 16 && |gcc| < 16 && |format| < 16
    ensures var r := Put(Put(Put(s, "SWIFT_OPTIMIZATION_LEVEL", Str(swift)), "GCC_OPTIMIZATION_LEVEL", Str(gcc)),
                         "DEBUG_INFORMATION_FORMAT", Str(format));
            TeamOnly(r) && TeamEntries(r) == TeamEntries(s)
  {
    EvidentKeys();
    PutAtom(s, "SWIFT_OPTIMIZATION_LEVEL", swift);
    var s1 := Put(s, "SWIFT_OPTIMIZATION_LEVEL", Str(swift));
    PutAtom(s1, "GCC_OPTIMIZATION_LEVEL", gcc);
    PutAtom(Put(s1, "GCC_OPTIMIZATION_LEVEL", Str(gcc)), "DEBUG_INFORMATION_FORMAT", format);
  }

  /** One configuration's settings keep the team of their base. */
  lemma SettingsTeam(base: seq<Entry>, debug: bool)
    requires TeamOnly(base)
    requires forall i | 0 <= i < |base| && base[i].key == CONDITIONS && base[i].value.List? :: EvidentList(base[i].value)
    ensures TeamOnly(Settings(base, debug)) && TeamEntries(Settings(base, debug)) == TeamEntries(base)
  {
    PutConditions(base);
    if debug {
      PutLevels(Put(base, CONDITIONS, DebugConditions(base)), "-Onone", "0", "dwarf");
    } else {
      PutLevels(base, "-O", "s", "dwarf-with-dsym");
    }
  }

  lemma {:induction false} PutMembers(entries: seq<Entry>, key: string, value: Value)
    ensures forall e | e in Put(entries, key, value) :: e in entries || e == Entry(key, value)
  {
    if entries != [] {
      PutMembers(entries[1..], key, value);
    }
  }

  /** A base from which both configurations can be derived. */
  ghost predicate Base(entries: seq<Entry>) {
    TeamOnly(entries) && forall i | 0 <= i < |entries| && entries[i].key == CONDITIONS && entries[i].value.List? :: EvidentList(entries[i].value)
  }

  lemma EvidentAppend(a: seq<Entry>, b: seq<Entry>)
    requires EvidentEntries(a) && EvidentEntries(b)
    ensures EvidentEntries(a + b)
  {
  }

  lemma DefaultsBase(entries: seq<Entry>)
    requires EvidentEntries(entries)
    ensures Base(entries) && TeamEntries(entries) == None
  {
    EvidentAllSilent(entries);
  }

  // The long constants of the script, none of which contains the keyword. That a letter is not in a long
  // literal is costly to decide, so this is done for a few literals at a time, apart from the lemmas about
  // the objects that hold them; the longest literals are written as sums of two, here and in the model.

  lemma Constants1(s: string)
    requires s in ["IPHONEOS_DEPLOYMENT_TARGET", "CLANG_ENABLE_MODULES", "CLANG_ENABLE_OBJC_ARC", "ENABLE_USER_SCRIPT_SANDBOXING", "SWIFT_STRICT_CONCURRENCY"]
    ensures Lacks(s)
  {
    Without(s, 'V');
  }

  lemma Constants2(s: string)
    requires s in ["PRODUCT_BUNDLE_IDENTIFIER", "ai.pipecat.voice", "ASSETCATALOG_COMPILER_APPICON_NAME", "SUPPORTED_PLATFORMS", "iphoneos iphonesimulator"]
    ensures Lacks(s)
  {
    Without(s, 'V');
  }

  lemma Constants3(s: string)
    requires s in ["SUPPORTS_MACCATALYST", "GENERATE_INFOPLIST_FILE", "SWIFT_OBJC_BRIDGING_HEADER", "HEADER_SEARCH_PATHS", "$(PIPECAT_PHONON_HEADER_PATH)"]
    ensures Lacks(s)
  {
    Without(s, 'V');
  }

  lemma Constants4(s: string)
    requires s in ["GCC_PREPROCESSOR_DEFINITIONS", "$(PIPECAT_PHONON_C_DEFINITION)", "$(PIPECAT_PHONON_SWIFT_CONDITION)", "LD_RUNPATH_SEARCH_PATHS", "@executable_path/Frameworks"]
    ensures Lacks(s)
  {
    Without(s, 'V');
  }

  lemma Constants5(s: string)
    requires s in ["$(PIPECAT_PHONON_LDFLAGS)", "PBXFileReference", "lastKnownFileType", "wrapper.xcframework", "RemoveHeadersOnCopy"]
    ensures Lacks(s)
  {
    Without(s, 'V');
  }

  lemma Constants6(s: string)
    requires s in ["config/Build.xcconfig", "XCSwiftPackageProductDependency", "explicitFileType", "wrapper.application", "BUILT_PRODUCTS_DIR"]
    ensures Lacks(s)
  {
    Without(s, 'V');
  }

  lemma Constants7(s: string)
    requires s in ["PBXSourcesBuildPhase", "PBXFrameworksBuildPhase", "PBXResourcesBuildPhase", "PBXShellScriptBuildPhase", "Bundle Python and voice assets"]
    ensures Lacks(s)
  {
    Without(s, 'V');
  }

  lemma Constants8(s: string)
    requires s in ["PBXCopyFilesBuildPhase", "dstSubfolderSpec", "Embed Frameworks", "defaultConfigurationName", "XCConfigurationList"]
    ensures Lacks(s)
  {
    Without(s, 'V');
  }

  lemma Constants9(s: string)
    requires s in ["buildConfigurations", "productReference", "buildConfigurationList", "packageProductDependencies", "developmentRegion"]
    ensures Lacks(s)
  {
    Without(s, 'V');
  }

  lemma Constants10(s: string)
    requires s in ["LastUpgradeCheck", "hasScannedForEncodings", "packageReferences", "sourcecode.swift", "sourcecode.metal"]
    ensures Lacks(s)
  {
    Without(s, 'V');
  }

  lemma Constants11(s: string)
    requires s in ["sourcecode.c.objc", "folder.assetcatalog", "XCRemoteSwiftPackageReference", "XCBuildConfiguration", "baseConfigurationReference"]
    ensures Lacks(s)
  {
    Without(s, 'V');
  }

  lemma Constants12(s: string)
    requires s in ["TARGETED_DEVICE_FAMILY"]
    ensures Lacks(s)
  {
    Without(s, 'O');
  }

  lemma Constants13(s: string)
    requires s in ["src/ios/PipecatVoice/Info.plist", "MARKETING_VERSION", "CURRENT_PROJECT_VERSION", "src/ios/PipecatVoice", "Vendor/Python.xcframework"]
    ensures Lacks(s)
  {
    Without(s, 'D');
  }

  lemma Constants14(s: string)
    requires s in ["PipecatVoice.app", "defaultConfigurationIsVisible", "compatibilityVersion"]
    ensures Lacks(s)
  {
    Without(s, 'D');
  }

  lemma HeaderWarningLacks()
    ensures Lacks("CLANG_WARN_QUOTED_INCLUDE_" + "IN_FRAMEWORK_HEADER")
  {
    WithoutBoth("CLANG_WARN_QUOTED_INCLUDE_", "IN_FRAMEWORK_HEADER", 'V');
  }

  lemma ProductTypeLacks()
    ensures Lacks("com.apple.product-type" + ".application")
  {
    WithoutBoth("com.apple.product-type", ".application", 'V');
  }

  lemma IndependentTargetsLacks()
    ensures Lacks("BuildIndependentTargets" + "InParallel")
  {
    WithoutBoth("BuildIndependentTargets", "InParallel", 'V');
  }

  lemma CommonPlatformEvident()
    ensures EvidentEntries(CommonPlatform())
  {
    Constants1("IPHONEOS_DEPLOYMENT_TARGET");
  }

  lemma CommonCompilerEvident()
    ensures EvidentEntries(CommonCompiler())
  {
    Constants1("CLANG_ENABLE_MODULES");
    Constants1("CLANG_ENABLE_OBJC_ARC");
    Constants1("ENABLE_USER_SCRIPT_SANDBOXING");
    Constants1("SWIFT_STRICT_CONCURRENCY");
  }

  lemma ProductNamesEvident()
    ensures EvidentEntries(ProductNames())
  {
    Constants2("PRODUCT_BUNDLE_IDENTIFIER");
    Constants2("ai.pipecat.voice");
    Constants2("ASSETCATALOG_COMPILER_APPICON_NAME");
  }

  lemma PlatformsEvident()
    ensures EvidentEntries(Platforms())
  {
    Constants12("TARGETED_DEVICE_FAMILY");
    Constants2("SUPPORTED_PLATFORMS");
    Constants2("iphoneos iphonesimulator");
    Constants3("SUPPORTS_MACCATALYST");
  }

  lemma BridgingHeaderLacks()
    ensures Lacks("src/ios/PipecatVoice/" + "PipecatVoice-Bridging-Header.h")
  {
    WithoutBoth("src/ios/PipecatVoice/", "PipecatVoice-Bridging-Header.h", 'D');
  }

  lemma SourcePathsEvident()
    ensures EvidentEntries(SourcePaths())
  {
    Constants13("src/ios/PipecatVoice/Info.plist");
    Constants3("GENERATE_INFOPLIST_FILE");
    Constants3("SWIFT_OBJC_BRIDGING_HEADER");
    BridgingHeaderLacks();
  }

  lemma CompilerPathsEvident()
    ensures EvidentEntries(CompilerPaths())
  {
    Constants3("HEADER_SEARCH_PATHS");
    Constants3("$(PIPECAT_PHONON_HEADER_PATH)");
    Constants4("GCC_PREPROCESSOR_DEFINITIONS");
    Constants4("$(PIPECAT_PHONON_C_DEFINITION)");
  }

  lemma SwiftConditionsEvident()
    ensures EvidentEntry(SwiftConditions())
  {
    ConditionsLacks();
    Constants4("$(PIPECAT_PHONON_SWIFT_CONDITION)");
  }

  lemma DeviceEvident()
    ensures EvidentEntry(DeviceLibraries())
  {
    WithoutBoth("LIBRARY_SEARCH_PATHS", "[sdk=iphoneos*]", 'V');
    WithoutBoth("$(SRCROOT)/.build/rust/", "aarch64-apple-ios/release", 'V');
  }

  lemma SimulatorEvident()
    ensures EvidentEntry(SimulatorLibraries())
  {
    WithoutBoth("LIBRARY_SEARCH_PATHS", "[sdk=iphonesimulator*]", 'V');
    WithoutBoth("$(SRCROOT)/.build/rust/", "aarch64-apple-ios-sim/release", 'V');
  }

  lemma LinkerEvident()
    ensures EvidentEntries(LinkerPaths())
  {
    Constants4("LD_RUNPATH_SEARCH_PATHS");
    Constants4("@executable_path/Frameworks");
    Constants5("$(PIPECAT_PHONON_LDFLAGS)");
  }

  lemma VersionsEvident()
    ensures EvidentEntries(Versions())
  {
    HeaderWarningLacks();
    Constants13("MARKETING_VERSION");
    Constants13("CURRENT_PROJECT_VERSION");
  }

  lemma JoinedEvident(a: seq<Entry>, b: seq<Entry>, c: seq<Entry>, d: seq<Entry>, e: seq<Entry>, f: seq<Entry>, g: seq<Entry>)
    requires EvidentEntries(a) && EvidentEntries(b) && EvidentEntries(c) && EvidentEntries(d)
    requires EvidentEntries(e) && EvidentEntries(f) && EvidentEntries(g)
    ensures EvidentEntries(a + b + c + d + e + f + g)
  {
    EvidentAppend(a, b);
    EvidentAppend(a + b, c);
    EvidentAppend(a + b + c, d);
    EvidentAppend(a + b + c + d, e);
    EvidentAppend(a + b + c + d + e, f);
    EvidentAppend(a + b + c + d + e + f, g);
  }

  lemma DefaultsEvident()
    ensures EvidentEntries(TargetDefaults())
  {
    ProductNamesEvident();
    PlatformsEvident();
    SourcePathsEvident();
    CompilerPathsEvident();
    SwiftConditionsEvident();
    DeviceEvident();
    SimulatorEvident();
    LinkerEvident();
    VersionsEvident();
    JoinedEvident(ProductNames(), Platforms(), SourcePaths(), CompilerPaths(),
                  [SwiftConditions(), DeviceLibraries(), SimulatorLibraries()], LinkerPaths(), Versions());
  }

  // ---------- the fixed objects ----------

  ghost predicate EvidentField(f: Field) {
    && Evident(f.name)
    && match f.arg
       case Plain(Dict(entries)) => EvidentEntries(entries)
       case Plain(List(items)) => EvidentList(List(items))
       case Plain(v) => EvidentAtom(v)
       case _ => true
  }

  ghost predicate EvidentCall(c: Call) {
    forall i | 0 <= i < |c.fields| :: EvidentField(c.fields[i])
  }

  lemma BuildFileEvident(key: string, ref: string)
    ensures EvidentCall(BuildFile(key, ref))
  {
  }

  lemma SourceGroupEvident(p: Inputs)
    ensures EvidentCall(SourceGroup(p))
  {
    Constants13("src/ios/PipecatVoice");
  }

  lemma PythonEvident()
    ensures EvidentCall(Python())
  {
    Constants5("PBXFileReference");
    Constants5("lastKnownFileType");
    Constants5("wrapper.xcframework");
    Constants13("Vendor/Python.xcframework");
  }

  lemma PythonEmbedEvident()
    ensures EvidentCall(PythonEmbed())
  {
    Constants5("RemoveHeadersOnCopy");
  }

  lemma BuildConfigEvident()
    ensures EvidentCall(BuildConfig())
  {
    Constants5("PBXFileReference");
    Constants5("lastKnownFileType");
    Constants6("config/Build.xcconfig");
  }

  lemma FluidEvident()
    ensures EvidentCall(FluidProduct()) && EvidentCall(FluidLink())
  {
    Constants6("XCSwiftPackageProductDependency");
  }

  lemma ProductEvident()
    ensures EvidentCall(Product())
  {
    Constants5("PBXFileReference");
    Constants6("explicitFileType");
    Constants6("wrapper.application");
    Constants14("PipecatVoice.app");
    Constants6("BUILT_PRODUCTS_DIR");
  }

  lemma GroupsEvident()
    ensures EvidentCall(Products()) && EvidentCall(RootGroup())
  {
  }

  lemma NotOnlyEvident()
    ensures EvidentField(NOT_ONLY) && EvidentField(MASK)
  {
    WithoutBoth("runOnlyForDeployment", "Postprocessing", 'V');
  }

  lemma SourcesPhaseEvident(p: Inputs)
    ensures EvidentCall(SourcesPhase(p))
  {
    NotOnlyEvident();
    Constants7("PBXSourcesBuildPhase");
  }

  lemma FrameworkPhaseEvident()
    ensures EvidentCall(FrameworkPhase())
  {
    NotOnlyEvident();
    Constants7("PBXFrameworksBuildPhase");
  }

  lemma ResourcesPhaseEvident(p: Inputs)
    ensures EvidentCall(ResourcesPhase(p))
  {
    NotOnlyEvident();
    Constants7("PBXResourcesBuildPhase");
  }

  lemma ScriptEvident()
    ensures Evident("set -eu\n\"$SRCROOT/.venv/bin/python\"" + " \"$SRCROOT/scripts/" + "bundle_runtime.py\"\n")
  {
    WithoutBoth("set -eu\n\"$SRCROOT/.venv/bin/python\"", " \"$SRCROOT/scripts/", 'V');
    WithoutBoth("set -eu\n\"$SRCROOT/.venv/bin/python\"" + " \"$SRCROOT/scripts/", "bundle_runtime.py\"\n", 'V');
  }

  lemma BundleFields()
    ensures |BundlePhase().fields| == 10 && forall i | 0 <= i < 6 :: EvidentField(BundlePhase().fields[i])
  {
    NotOnlyEvident();
    Constants7("PBXShellScriptBuildPhase");
    Constants7("Bundle Python and voice assets");
  }

  lemma BundlePhaseEvident()
    ensures EvidentCall(BundlePhase())
  {
    BundleFields();
    NotOnlyEvident();
    ScriptEvident();
  }

  lemma EmbedPhaseEvident()
    ensures EvidentCall(EmbedPhase())
  {
    NotOnlyEvident();
    Constants8("PBXCopyFilesBuildPhase");
    Constants8("dstSubfolderSpec");
    Constants8("Embed Frameworks");
  }

  lemma DefaultEvident()
    ensures Evident("defaultConfigurationIsVisible") && Evident("defaultConfigurationName")
  {
    Constants14("defaultConfigurationIsVisible");
    Constants8("defaultConfigurationName");
  }

  lemma ConfigurationListEvident(prefix: string)
    ensures EvidentCall(ConfigurationList(prefix))
  {
    DefaultEvident();
    Constants8("XCConfigurationList");
    Constants9("buildConfigurations");
  }

  lemma TargetEvident()
    ensures EvidentCall(TargetCall())
  {
    ProductTypeLacks();
    Constants9("productReference");
    Constants9("buildConfigurationList");
    Constants9("packageProductDependencies");
  }

  lemma VersionEvident()
    ensures Evident("buildConfigurationList") && Evident("compatibilityVersion") && Evident("developmentRegion")
  {
    Constants9("buildConfigurationList");
    Constants14("compatibilityVersion");
    Constants9("developmentRegion");
  }

  lemma AttributesEvident()
    ensures Evident("LastUpgradeCheck") && Evident("BuildIndependentTargets" + "InParallel")
    ensures Evident("hasScannedForEncodings") && Evident("packageReferences")
  {
    Constants10("LastUpgradeCheck");
    IndependentTargetsLacks();
    Constants10("hasScannedForEncodings");
    Constants10("packageReferences");
  }

  lemma ProjectFields()
    ensures |ProjectCall().fields| == 13 && forall i | 0 <= i < 6 :: EvidentField(ProjectCall().fields[i])
  {
    VersionEvident();
    AttributesEvident();
  }

  lemma ProjectEvident()
    ensures EvidentCall(ProjectCall())
  {
    ProjectFields();
    AttributesEvident();
  }

  // ---------- the whole document ----------

  function Lowered(hash: string -> string, f: Field): Entry {
    Entry(f.name, LowerArg(hash, f.arg))
  }

  lemma HashEvident(hash: string -> string, key: string)
    requires IsHash(hash)
    ensures Evident(hash(key))
  {
    assert 'V' !in hash(key);
    Without(hash(key), 'V');
  }

  lemma FieldSilent(hash: string -> string, f: Field)
    requires IsHash(hash) && EvidentField(f)
    ensures Silent(Lowered(hash, f))
  {
    KeywordNotEvident();
    EvidentLacks(f.name);
    match f.arg {
      case Plain(Dict(entries)) =>
        EvidentAllSilent(entries);
      case Plain(List(items)) =>
        ListSilent(f.name, List(items));
      case Plain(v) =>
        EvidentSilent(Entry(f.name, v));
      case Ref(key) =>
        HashEvident(hash, key);
        AtomSilent(f.name, hash(key));
      case Refs(keys) =>
        var v := List(Identifiers(hash, keys));
        forall i | 0 <= i < |v.items|
          ensures EvidentAtom(v.items[i])
        {
          HashEvident(hash, keys[i]);
        }
        ListSilent(f.name, v);
    }
  }

  /** The object made by a call is tame, and t is what the search finds in it. */
  predicate Speaks(hash: string -> string, c: Call, t: Option<string>) {
    TameEntries(Lower(hash, c.fields)) && TeamEntries(Lower(hash, c.fields)) == t
  }

  lemma EvidentSpeaks(hash: string -> string, c: Call)
    requires IsHash(hash) && EvidentCall(c)
    ensures Speaks(hash, c, None)
  {
    forall i | 0 <= i < |c.fields|
      ensures Silent(Lower(hash, c.fields)[i])
    {
      FieldSilent(hash, c.fields[i]);
    }
    AllSilent(Lower(hash, c.fields));
  }

  lemma FieldSpeaks(hash: string -> string, c: Call, n: nat)
    requires IsHash(hash) && n < |c.fields| && TameEntry(Lowered(hash, c.fields[n]))
    requires forall i | 0 <= i < |c.fields| && i != n :: EvidentField(c.fields[i])
    ensures Speaks(hash, c, TeamEntry(Lowered(hash, c.fields[n])))
  {
    forall i | 0 <= i < |c.fields| && i != n
      ensures Silent(Lower(hash, c.fields)[i])
    {
      FieldSilent(hash, c.fields[i]);
    }
    OneSpeaks(Lower(hash, c.fields), n);
  }

  predicate AllSpeak(hash: string -> string, calls: seq<Call>, t: Option<string>) {
    TameEntries(Objects(hash, calls)) && TeamEntries(Objects(hash, calls)) == t
  }

  lemma SpeakAppend(hash: string -> string, a: seq<Call>, s: Option<string>, b: seq<Call>, t: Option<string>)
    requires AllSpeak(hash, a, s) && AllSpeak(hash, b, t)
    ensures AllSpeak(hash, a + b, Or(s, t))
  {
    assert Objects(hash, a + b) == Objects(hash, a) + Objects(hash, b);
    TeamAppend(Objects(hash, a), Objects(hash, b));
  }

  lemma SpeakOne(hash: string -> string, c: Call, t: Option<string>)
    requires IsHash(hash) && Speaks(hash, c, t)
    ensures AllSpeak(hash, [c], t)
  {
    KeywordNotEvident();
    HashEvident(hash, c.key);
    EvidentLacks(hash(c.key));
    var o := Objects(hash, [c]);
    assert o[1..] == [];
  }

  lemma {:induction false} SilentCalls(hash: string -> string, calls: seq<Call>)
    requires IsHash(hash)
    requires forall i | 0 <= i < |calls| :: Speaks(hash, calls[i], None)
    ensures AllSpeak(hash, calls, None)
  {
    if calls != [] {
      SilentCalls(hash, calls[1..]);
      SpeakOne(hash, calls[0], None);
      SpeakAppend(hash, [calls[0]], None, calls[1..], None);
      assert [calls[0]] + calls[1..] == calls;
    }
  }

  /** The first team hidden in an accepted file name. */
  function ListingTeam(listing: seq<string>): Option<string> {
    if listing == [] then None
    else
      var name := listing[|listing| - 1];
      Or(ListingTeam(listing[..|listing| - 1]), if IsSource(name) then Hidden(name) else None)
  }

  lemma FileReferenceSpeaks(hash: string -> string, name: string)
    requires IsHash(hash) && IsSource(name)
    ensures Speaks(hash, FileReference(name), Hidden(name))
  {
    var c := FileReference(name);
    Constants5("PBXFileReference");
    Constants5("lastKnownFileType");
    KindEvident(name);
    EvidentLacks("path");
    assert "path" != KEYWORD;
    assert Lowered(hash, c.fields[2]) == Entry("path", Str(name));
    FieldSpeaks(hash, c, 2);
  }

  lemma KindEvident(name: string)
    requires IsSource(name)
    ensures Evident(Kinds()[Suffix(name)])
  {
    Constants10("sourcecode.swift");
    Constants10("sourcecode.metal");
    Constants11("sourcecode.c.objc");
    Constants11("folder.assetcatalog");
  }

  lemma {:induction false} FilesSpeak(hash: string -> string, listing: seq<string>)
    requires IsHash(hash)
    ensures AllSpeak(hash, FileCalls(listing), ListingTeam(listing))
  {
    if listing != [] {
      var front, name := listing[..|listing| - 1], listing[|listing| - 1];
      FilesSpeak(hash, front);
      FileSpeaks(hash, name);
      SpeakAppend(hash, FileCalls(front), ListingTeam(front), CallsFor(name), if IsSource(name) then Hidden(name) else None);
    }
  }

  lemma FileSpeaks(hash: string -> string, name: string)
    requires IsHash(hash)
    ensures AllSpeak(hash, CallsFor(name), if IsSource(name) then Hidden(name) else None)
  {
    if IsSource(name) {
      var c, b := FileReference(name), BuildFile(BuildKey(name), name);
      FileReferenceSpeaks(hash, name);
      SpeakOne(hash, c, Hidden(name));
      if !IsHeader(name) {
        BuildFileEvident(BuildKey(name), name);
        EvidentSpeaks(hash, b);
        SpeakOne(hash, b, None);
        SpeakAppend(hash, [c], Hidden(name), [b], None);
        assert [c] + [b] == CallsFor(name);
      }
    } else {
      SilentCalls(hash, []);
    }
  }

  lemma RequirementSpeaks(p: Inputs)
    ensures var r := [Entry("kind", Str("revision")), Entry("revision", Str(p.revision))];
            TameEntries(r) && TeamEntries(r) == Hidden(p.revision)
  {
    var kind, revision := Entry("kind", Str("revision")), Entry("revision", Str(p.revision));
    KeywordNotEvident();
    EvidentLacks("revision");
    EvidentSilent(kind);
    assert "revision" != KEYWORD;
    OneSpeaks([kind, revision], 1);
  }

  lemma ThreeSpeak(a: Entry, b: Entry, c: Entry)
    requires Silent(a) && TameEntry(b) && TameEntry(c)
    ensures TameEntries([a, b, c]) && TeamEntries([a, b, c]) == Or(TeamEntry(b), TeamEntry(c))
  {
    OneSpeaks([a, b], 1);
    OneSpeaks([c], 0);
    TeamAppend([a, b], [c]);
    assert [a, b] + [c] == [a, b, c];
  }

  lemma PackageFields(p: Inputs)
    ensures Silent(Entry("isa", Str("XCRemoteSwiftPackageReference")))
    ensures Lacks("repositoryURL") && Lacks("requirement") && "repositoryURL" != KEYWORD && "requirement" != KEYWORD
  {
    Constants11("XCRemoteSwiftPackageReference");
    EvidentSilent(Entry("isa", Str("XCRemoteSwiftPackageReference")));
    EvidentLacks("repositoryURL");
    EvidentLacks("requirement");
  }

  function PackageEntries(p: Inputs): seq<Entry> {
    [ Entry("isa", Str("XCRemoteSwiftPackageReference")),
      Entry("repositoryURL", Str(p.url)),
      Entry("requirement", Dict([Entry("kind", Str("revision")), Entry("revision", Str(p.revision))])) ]
  }

  lemma UrlSpeaks(p: Inputs)
    ensures var e := Entry("repositoryURL", Str(p.url)); TameEntry(e) && TeamEntry(e) == Hidden(p.url)
  {
    EvidentLacks("repositoryURL");
    assert "repositoryURL" != KEYWORD;
  }

  lemma PackageEntriesSpeak(p: Inputs)
    ensures TameEntries(PackageEntries(p)) && TeamEntries(PackageEntries(p)) == Or(Hidden(p.url), Hidden(p.revision))
  {
    var e := PackageEntries(p);
    PackageFields(p);
    RequirementSpeaks(p);
    UrlSpeaks(p);
    ThreeSpeak(e[0], e[1], e[2]);
  }

  lemma PackageLowered(hash: string -> string, p: Inputs)
    ensures Lower(hash, FluidPackage(p).fields) == PackageEntries(p)
  {
  }

  /** The package reference prints the two strings that the manifest pins. */
  lemma PackageSpeaks(hash: string -> string, p: Inputs)
    requires IsHash(hash)
    ensures Speaks(hash, FluidPackage(p), Or(Hidden(p.url), Hidden(p.revision)))
  {
    PackageEntriesSpeak(p);
    PackageLowered(hash, p);
  }

  lemma ConfigurationFields(prefix: string, name: string, base: seq<Entry>)
    requires name in {"Debug", "Release"}
    ensures var f := Configuration(prefix, name, base).fields;
            && |f| >= 3 && f[2] == Field("buildSettings", Plain(Dict(Settings(base, name == "Debug"))))
            && forall i | 0 <= i < |f| && i != 2 :: EvidentField(f[i])
  {
    Constants11("XCBuildConfiguration");
    Constants11("baseConfigurationReference");
  }

  lemma SettingsSpeak(base: seq<Entry>, debug: bool)
    requires Base(base)
    ensures var e := Entry("buildSettings", Dict(Settings(base, debug))); TameEntry(e) && TeamEntry(e) == TeamEntries(base)
  {
    SettingsTeam(base, debug);
    EvidentLacks("buildSettings");
    assert "buildSettings" != KEYWORD;
  }

  lemma ConfigurationSpeaks(hash: string -> string, prefix: string, name: string, base: seq<Entry>)
    requires IsHash(hash) && Base(base) && name in {"Debug", "Release"}
    ensures AllSpeak(hash, [Configuration(prefix, name, base)], TeamEntries(base))
  {
    var c := Configuration(prefix, name, base);
    ConfigurationFields(prefix, name, base);
    SettingsSpeak(base, name == "Debug");
    FieldSpeaks(hash, c, 2);
    SpeakOne(hash, c, TeamEntries(base));
  }

  lemma ConfigurationsSpeak(hash: string -> string, prefix: string, base: seq<Entry>, last: Call)
    requires IsHash(hash) && Base(base) && EvidentCall(last)
    ensures AllSpeak(hash, ConfigurationCalls(prefix, base) + [last], TeamEntries(base))
  {
    ConfigurationSpeaks(hash, prefix, "Debug", base);
    ConfigurationSpeaks(hash, prefix, "Release", base);
    ConfigurationListEvident(prefix);
    FourSpeak(hash, Configuration(prefix, "Debug", base), Configuration(prefix, "Release", base),
              ConfigurationList(prefix), last, TeamEntries(base));
  }

  lemma FourSpeak(hash: string -> string, a: Call, b: Call, c: Call, d: Call, t: Option<string>)
    requires IsHash(hash) && AllSpeak(hash, [a], t) && AllSpeak(hash, [b], t) && EvidentCall(c) && EvidentCall(d)
    ensures AllSpeak(hash, [a, b, c] + [d], t)
  {
    EvidentCallsSpeak(hash, [c, d]);
    SpeakAppend(hash, [a], t, [b], t);
    SpeakAppend(hash, [a] + [b], t, [c, d], None);
    assert [a] + [b] + [c, d] == [a, b, c] + [d];
  }

  lemma DependenciesSpeak(hash: string -> string, p: Inputs)
    requires IsHash(hash)
    ensures AllSpeak(hash, DependencyCalls(p), None)
  {
    SourceGroupEvident(p);
    PythonEvident();
    BuildFileEvident("python-link", "python");
    PythonEmbedEvident();
    BuildConfigEvident();
    EvidentCallsSpeak(hash, DependencyCalls(p));
  }

  lemma EvidentCallsSpeak(hash: string -> string, calls: seq<Call>)
    requires IsHash(hash) && forall i | 0 <= i < |calls| :: EvidentCall(calls[i])
    ensures AllSpeak(hash, calls, None)
  {
    forall i | 0 <= i < |calls|
      ensures Speaks(hash, calls[i], None)
    {
      EvidentSpeaks(hash, calls[i]);
    }
    SilentCalls(hash, calls);
  }

  lemma PackagesSpeak(hash: string -> string, p: Inputs)
    requires IsHash(hash)
    ensures AllSpeak(hash, PackageCalls(p), Or(Hidden(p.url), Hidden(p.revision)))
  {
    var c := FluidPackage(p);
    var rest := [FluidProduct(), FluidLink(), Product(), Products(), RootGroup()];
    PackageSpeaks(hash, p);
    SpeakOne(hash, c, Or(Hidden(p.url), Hidden(p.revision)));
    FluidEvident();
    ProductEvident();
    GroupsEvident();
    EvidentCallsSpeak(hash, rest);
    SpeakAppend(hash, [c], Or(Hidden(p.url), Hidden(p.revision)), rest, None);
    assert [c] + rest == PackageCalls(p);
  }

  lemma PhasesSpeak(hash: string -> string, p: Inputs)
    requires IsHash(hash)
    ensures AllSpeak(hash, PhaseCalls(p), None)
  {
    SourcesPhaseEvident(p);
    FrameworkPhaseEvident();
    ResourcesPhaseEvident(p);
    BundlePhaseEvident();
    EmbedPhaseEvident();
    EvidentCallsSpeak(hash, PhaseCalls(p));
  }

  /** A team hidden in the strings that a caller chooses: file names, then the package's address and revision. */
  function CallerTeam(listing: seq<string>, url: string, revision: string): Option<string> {
    Or(ListingTeam(listing), Or(Hidden(url), Hidden(revision)))
  }

  lemma CallsSpeak(hash: string -> string, p: Inputs)
    requires IsHash(hash) && Base(p.target) && Base(p.common) && TeamEntries(p.common) == None
    ensures AllSpeak(hash, Calls(p), Or(CallerTeam(p.listing, p.url, p.revision), TeamEntries(p.target)))
  {
    var t := TeamEntries(p.target);
    var named := Or(Hidden(p.url), Hidden(p.revision));
    FilesSpeak(hash, p.listing);
    DependenciesSpeak(hash, p);
    PackagesSpeak(hash, p);
    PhasesSpeak(hash, p);
    TargetEvident();
    ProjectEvident();
    ConfigurationsSpeak(hash, "target", p.target, TargetCall());
    ConfigurationsSpeak(hash, "project", p.common, ProjectCall());
    SpeakAppend(hash, DependencyCalls(p), None, PackageCalls(p), named);
    SpeakAppend(hash, DependencyCalls(p) + PackageCalls(p), named, PhaseCalls(p), None);
    SpeakAppend(hash, DependencyCalls(p) + PackageCalls(p) + PhaseCalls(p), named, TargetCalls(p), t);
    SpeakAppend(hash, DependencyCalls(p) + PackageCalls(p) + PhaseCalls(p) + TargetCalls(p), Or(named, t), ProjectCalls(p), None);
    SpeakAppend(hash, FileCalls(p.listing), ListingTeam(p.listing), FixedCalls(p), Or(named, t));
  }

  /** The target's settings carry exactly the team they were given. */
  lemma TargetSettingsTeam(team: Option<string>)
    requires team.Some? ==> IsTeam(team.value)
    ensures Base(TargetSettings(team)) && TeamEntries(TargetSettings(team)) == team
  {
    DefaultsEvident();
    DefaultsBase(TargetDefaults());
    if team.Some? {
      PutTeamBase(TargetDefaults(), team.value);
    }
  }

  lemma PutTeamBase(base: seq<Entry>, team: string)
    requires Base(base) && TeamEntries(base) == None && IsTeam(team)
    ensures Base(Put(base, KEYWORD, Str(team))) && TeamEntries(Put(base, KEYWORD, Str(team))) == Some(team)
  {
    PutTeam(base, team);
    PutMembers(base, KEYWORD, Str(team));
    var q := Put(base, KEYWORD, Str(team));
    forall i | 0 <= i < |q| && q[i].key == CONDITIONS && q[i].value.List?
      ensures EvidentList(q[i].value)
    {
      assert q[i] in q;
    }
  }

  lemma CommonSilent()
    ensures Base(CommonSettings()) && TeamEntries(CommonSettings()) == None
  {
    CommonPlatformEvident();
    CommonCompilerEvident();
    EvidentAppend(CommonPlatform(), CommonCompiler());
    DefaultsBase(CommonSettings());
  }

  lemma DocumentTeam(hash: string -> string, objects: seq<Entry>)
    requires IsHash(hash) && TameEntries(objects)
    ensures TameEntries(DocumentEntries(hash, objects))
    ensures TeamEntries(DocumentEntries(hash, objects)) == TeamEntries(objects)
  {
    var d := DocumentEntries(hash, objects);
    KeywordNotEvident();
    HashEvident(hash, "project");
    EvidentLacks("classes");
    EvidentLacks("objects");
    EvidentSilent(d[0]);
    EvidentSilent(d[2]);
    EvidentSilent(d[4]);
    OneSpeaks(d, 3);
  }

  lemma SearchDocument(entries: seq<Entry>)
    requires TameEntries(entries)
    ensures Search(HEADER + Render(Dict(entries), 0) + "\n") == TeamEntries(entries)
  {
    var text := Render(Dict(entries), 0) + "\n";
    SkipToken(HEADER, text);
    SearchDict(entries, 0, "\n");
    SkipToken("\n", "");
    assert "\n" + "" == "\n";
    assert HEADER + Render(Dict(entries), 0) + "\n" == HEADER + text;
  }

  lemma ProjectTeam(hash: string -> string, p: Inputs)
    requires IsHash(hash) && Unique(p.listing) && CollisionFree(hash, p.listing)
    requires Base(p.target) && Base(p.common) && TeamEntries(p.common) == None
    ensures Search(ProjectText(hash, p)) == Or(CallerTeam(p.listing, p.url, p.revision), TeamEntries(p.target))
  {
    var calls := Calls(p);
    CallsSpeak(hash, p);
    CallsGood(p);
    RunKeysInjective(hash, p);
    NothingOverwritten(hash, calls);
    DocumentTeam(hash, Store(hash, calls));
    SearchDocument(DocumentEntries(hash, Store(hash, calls)));
  }

  /** The team that a run reads from the project it is about to replace. */
  function CarriedTeam(existing: Option<string>): Option<string> {
    if existing.Some? then Search(existing.value) else None
  }

  lemma CarriedFrom(hash: string -> string, p: Inputs)
    requires IsHash(hash) && Unique(p.listing) && CollisionFree(hash, p.listing)
    requires Base(p.target) && Base(p.common) && TeamEntries(p.common) == None
    ensures CarriedTeam(Some(ProjectText(hash, p))) == Or(CallerTeam(p.listing, p.url, p.revision), TeamEntries(p.target))
  {
    ProjectTeam(hash, p);
  }

  /** What the search finds in a generated project: a team hidden in the caller's strings, if
      there is one, and otherwise the team the project was generated with, or none. */
  lemma GeneratedTeam(hash: string -> string, listing: seq<string>, url: string, revision: string, team: Option<string>)
    requires IsHash(hash) && Unique(listing) && CollisionFree(hash, listing)
    requires team.Some? ==> IsTeam(team.value)
    ensures CarriedTeam(Some(ProjectText(hash, RunInputs(listing, url, revision, team)))) == Or(CallerTeam(listing, url, revision), team)
  {
    TargetSettingsTeam(team);
    CommonSilent();
    CarriedFrom(hash, RunInputs(listing, url, revision, team));
  }

  lemma CarriedIsTeam(existing: Option<string>)
    ensures CarriedTeam(existing).Some? ==> IsTeam(CarriedTeam(existing).value)
  {
    if existing.Some? {
      FoundIsTeam(existing.value);
    }
  }

  /** What is carried over is the team of the first assignment in an existing project, and nothing else. */
  lemma CarriedExact(existing: Option<string>, team: string)
    ensures CarriedTeam(existing) == Some(team) <==> existing.Some? && L.FirstTeam(existing.value, team)
  {
    if existing.Some? {
      L.FoundIsFirst(existing.value, team);
    }
  }

  lemma TeamKept(hash: string -> string, listing: seq<string>, url: string, revision: string, team: Option<string>)
    requires IsHash(hash) && Unique(listing) && CollisionFree(hash, listing) && (team.Some? ==> IsTeam(team.value))
    requires CallerTeam(listing, url, revision) == None || CallerTeam(listing, url, revision) == team
    ensures CarriedTeam(Some(ProjectText(hash, RunInputs(listing, url, revision, team)))) == team
  {
    GeneratedTeam(hash, listing, url, revision, team);
  }

  lemma TeamReplaced(hash: string -> string, listing: seq<string>, url: string, revision: string, team: Option<string>)
    requires IsHash(hash) && Unique(listing) && CollisionFree(hash, listing) && (team.Some? ==> IsTeam(team.value))
    requires CallerTeam(listing, url, revision).Some?
    ensures CarriedTeam(Some(ProjectText(hash, RunInputs(listing, url, revision, team)))) == CallerTeam(listing, url, revision)
  {
    GeneratedTeam(hash, listing, url, revision, team);
  }

  lemma TeamChanged(hash: string -> string, listing: seq<string>, url: string, revision: string, team: Option<string>)
    requires IsHash(hash) && Unique(listing) && CollisionFree(hash, listing) && (team.Some? ==> IsTeam(team.value))
    requires CallerTeam(listing, url, revision).Some? && CallerTeam(listing, url, revision) != team
    ensures CarriedTeam(Some(ProjectText(hash, RunInputs(listing, url, revision, team)))) != team
  {
    TeamReplaced(hash, listing, url, revision, team);
  }

  /** Regeneration is a fixed point of the signing team exactly when the caller's strings hide
      no team, or hide the same one. */
  lemma TeamFixedPoint(hash: string -> string, listing: seq<string>, url: string, revision: string, existing: Option<string>)
    requires IsHash(hash) && Unique(listing) && CollisionFree(hash, listing)
    ensures var team := CarriedTeam(existing);
            var hidden := CallerTeam(listing, url, revision);
            CarriedTeam(Some(ProjectText(hash, RunInputs(listing, url, revision, team)))) == team
            <==> hidden == None || hidden == team
  {
    CarriedIsTeam(existing);
    if CallerTeam(listing, url, revision) == None || CallerTeam(listing, url, revision) == CarriedTeam(existing) {
      TeamKept(hash, listing, url, revision, CarriedTeam(existing));
    } else {
      TeamChanged(hash, listing, url, revision, CarriedTeam(existing));
    }
  }

  /** The team of the first assignment in a project file is that of the project that replaces it. */
  lemma TeamSurvives(hash: string -> string, listing: seq<string>, url: string, revision: string, existing: string, i: nat, team: string)
    requires IsHash(hash) && Unique(listing) && CollisionFree(hash, listing)
    requires CallerTeam(listing, url, revision).None?
    requires i <= |existing| && L.AssignsFirst(existing, i, team)
    ensures CarriedTeam(Some(existing)) == Some(team)
    ensures CarriedTeam(Some(ProjectText(hash, RunInputs(listing, url, revision, Some(team))))) == Some(team)
  {
    L.FirstIsFound(existing, i, team);
    CarriedIsTeam(Some(existing));
    TeamKept(hash, listing, url, revision, Some(team));
  }

  /** In particular, it is when none of the caller's strings contains the keyword. */
  lemma NothingHidden(listing: seq<string>, url: string, revision: string)
    requires forall name | name in listing :: Lacks(name)
    requires Lacks(url) && Lacks(revision)
    ensures CallerTeam(listing, url, revision) == None
  {
    LacksListing(listing);
    LacksHidden(url);
    LacksHidden(revision);
  }

  lemma {:induction false} LacksListing(listing: seq<string>)
    requires forall name | name in listing :: Lacks(name)
    ensures ListingTeam(listing) == None
  {
    if listing != [] {
      LacksListing(listing[..|listing| - 1]);
      LacksHidden(listing[|listing| - 1]);
    }
  }

  const HOSTILE := KEYWORD + "=X;.m"

  /** The condition is needed: with this source file, a project generated without a team seems to have one. */
  lemma HostileName(hash: string -> string)
    requires IsHash(hash) && CollisionFree(hash, [HOSTILE])
    ensures CarriedTeam(Some(ProjectText(hash, RunInputs([HOSTILE], "", "", None)))) == Some("X")
  {
    HostileListing([HOSTILE]);
    GeneratedTeam(hash, [HOSTILE], "", "", None);
  }

  lemma HostileListing(listing: seq<string>)
    requires listing == [HOSTILE]
    ensures CallerTeam(listing, "", "") == Some("X")
  {
    HostileSource();
    HostileHidden();
    assert listing[..0] == [];
    assert ListingTeam(listing) == Some("X");
  }

  lemma HostileSource()
    ensures IsSource(HOSTILE)
  {
    SuffixOf(KEYWORD + "=X;", "m");
    assert HOSTILE == KEYWORD + "=X;" + "." + "m";
    assert ".m" == "." + "m";
    assert ".m" in Kinds();
  }

  lemma HostilePlain(name: string)
    requires name == HOSTILE
    ensures Json.Escape(name) == name
  {
    KeywordPlain();
    assert forall i | 0 <= i < 5 :: IsPlain("=X;.m"[i]);
    EscapePlain(name);
  }

  lemma HostileHidden()
    ensures Hidden(HOSTILE) == Some("X")
  {
    var m := Match("", "", "", "", "", "X", "", "");
    var s := m.Text(".m\";");
    HostileText(m, s);
    HostilePlain(HOSTILE);
    MatchFound(m, ".m\";");
    SearchFound(s);
  }

  lemma HostileText(m: Match, s: string)
    requires m == Match("", "", "", "", "", "X", "", "") && s == m.Text(".m\";")
    ensures m.Valid() && s == HOSTILE + "\"" + ";"
  {
    assert m.AfterEquals(".m\";") == "X;.m\";";
    assert m.AfterKeyword(".m\";") == "=X;.m\";";
  }
}
