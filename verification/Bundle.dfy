/** `bundle_models` of scripts/bundle_runtime.py: the voice assets of an application bundle. */
module Bundle {
  import opened Text
  import opened Paths
  import opened Fetch
  import opened Download
  import opened Assets
  import opened Install
  import M = Manifest

  predicate EndsWith(s: string, suffix: string) {
    |suffix| <= |s| && s[|s| - |suffix|..] == suffix
  }

  /** The names that `copy_tree` leaves out. */
  predicate Ignored(name: string) {
    || name == "__pycache__" || EndsWith(name, ".pyc") || name == ".DS_Store"
    || (StartsWith(name, "libpython") && EndsWith(name[9..], ".dylib"))
  }

  /** `__pycache__`, `*.pyc`, `.DS_Store` and `libpython*.dylib`. */
  lemma IgnoredExact(name: string)
    ensures Ignored(name) <==>
              || name == "__pycache__" || name == ".DS_Store"
              || (exists stem: string :: name == stem + ".pyc") || exists middle: string :: name == "libpython" + middle + ".dylib"
  {
    if EndsWith(name, ".pyc") {
      assert name == name[..|name| - 4] + ".pyc";
    }
    if stem: string :| name == stem + ".pyc" {
      assert name[|name| - 4..] == ".pyc";
    }
    if StartsWith(name, "libpython") && EndsWith(name[9..], ".dylib") {
      LibraryName(name);
    }
    if middle: string :| name == "libpython" + middle + ".dylib" {
      NameOfLibrary(name, middle);
    }
  }

  lemma LibraryName(name: string)
    requires StartsWith(name, "libpython") && EndsWith(name[9..], ".dylib")
    ensures exists middle: string :: name == "libpython" + middle + ".dylib"
  {
    var rest := name[9..];
    var middle := rest[..|rest| - 6];
    assert name == name[..9] + rest && rest == middle + ".dylib";
    assert name == "libpython" + middle + ".dylib";
  }

  lemma NameOfLibrary(name: string, middle: string)
    requires name == "libpython" + middle + ".dylib"
    ensures StartsWith(name, "libpython") && EndsWith(name[9..], ".dylib")
  {
    assert name[..9] == "libpython" && name[9..] == middle + ".dylib";
  }

  predicate Kept(names: seq<string>) {
    forall i | 0 <= i < |names| :: !Ignored(names[i])
  }

  /** q is where `copy_tree` puts a file below source that is under no ignored name. */
  predicate IsCopy(files: Files, source: Path, target: Path, q: Path) {
    target < q && Kept(q[|target|..]) && source + q[|target|..] in files
  }

  function Copies(files: Files, source: Path, target: Path): set<Path> {
    set p | p in files && source < p && Kept(p[|source|..]) :: target + p[|source|..]
  }

  lemma CopiesAre(files: Files, source: Path, target: Path, q: Path)
    ensures q in Copies(files, source, target) <==> IsCopy(files, source, target, q)
  {
    if IsCopy(files, source, target, q) {
      var rel := q[|target|..];
      var p := source + rel;
      assert p[|source|..] == rel && q == target + rel;
      assert p in files && source < p;
    }
    forall p | p in files && source < p && Kept(p[|source|..]) && q == target + p[|source|..]
      ensures IsCopy(files, source, target, q)
    {
      assert q[|target|..] == p[|source|..] && source + p[|source|..] == p;
    }
  }

  /** `copy_tree` */
  function CopyTree(files: Files, source: Path, target: Path): (r: Files)
    ensures forall q :: Look(r, q) == if IsCopy(files, source, target, q) then Look(files, source + q[|target|..]) else Look(files, q)
  {
    assert forall q :: q in Copies(files, source, target) <==> IsCopy(files, source, target, q) by {
      forall q
        ensures q in Copies(files, source, target) <==> IsCopy(files, source, target, q)
      {
        CopiesAre(files, source, target, q);
      }
    }
    map q | q in files.Keys + Copies(files, source, target) ::
      if IsCopy(files, source, target, q) then files[source + q[|target|..]] else files[q]
  }

  /** `shutil.rmtree` */
  function Without(files: Files, target: Path): Files {
    map q | q in files && !(target <= q) :: files[q]
  }

  predicate Disjoint(a: Path, b: Path) {
    !(a <= b) && !(b <= a)
  }

  function ManifestSource(root: Path): Path {
    root + ["scripts", "pocket_tts_manifest.json"]
  }

  function Models(root: Path): Path {
    root + ["models", "pocket-tts"]
  }

  function Phonon(root: Path): Path {
    root + ["models", "phonon"]
  }

  predicate Apart(root: Path, target: Path) {
    Disjoint(ManifestSource(root), target) && Disjoint(Models(root), target) && Disjoint(Phonon(root), target)
  }

  /** The bundle's voice folders and what is copied into them do not overlap. */
  predicate Separate(root: Path, bundle: Path) {
    Apart(root, bundle + ["phonon"]) && Apart(root, bundle + ["pocket-tts"])
  }

  function Cleared(files: Files, bundle: Path): Files {
    Without(Without(files, bundle + ["phonon"]), bundle + ["pocket-tts"])
  }

  /** base with the first n assets of original copied from source to target. */
  function Copied(base: Files, original: Files, source: Path, target: Path, m: M.Manifest, n: nat): Files
    requires n <= |m.files| && forall i | 0 <= i < |m.files| :: M.AssetPath(source, m, m.files[i]) in original
  {
    if n == 0 then base
    else
      var e := m.files[n - 1];
      Copied(base, original, source, target, m, n - 1)[M.AssetPath(target, m, e) := original[M.AssetPath(source, m, e)]]
  }

  /** The assets of m are files below the source folder. */
  predicate HasSources(files: Files, m: M.Manifest, root: Path) {
    ManifestSource(root) in files && forall i | 0 <= i < |m.files| :: M.AssetPath(Models(root), m, m.files[i]) in files
  }

  /** The files once the assets and the manifest are in the bundle. */
  function WithAssets(files: Files, m: M.Manifest, bundle: Path, root: Path): Files
    requires HasSources(files, m, root)
  {
    var target := bundle + ["pocket-tts"];
    Copied(Cleared(files, bundle), files, Models(root), target, m, |m.files|)[ManifestFile(target) := files[ManifestSource(root)]]
  }

  function WithPhonon(files: Files, bundle: Path, root: Path): Files {
    CopyTree(CopyTree(files, Phonon(root) + ["model"], bundle + ["phonon", "model"]),
             Phonon(root) + ["voices"], bundle + ["phonon", "voices"])
  }

  /** The files after a successful `bundle_models`. */
  function Bundled(files: Files, m: M.Manifest, bundle: Path, root: Path, phonon: bool): Files
    requires HasSources(files, m, root)
  {
    if phonon then WithPhonon(WithAssets(files, m, bundle, root), bundle, root) else WithAssets(files, m, bundle, root)
  }

  // ---------- validate_phonon ----------

  function Voices(): seq<string> {
    ["Marlowe", "Freya", "Archie", "Freddie", "Elodie-Rose", "Garrett", "Damon", "Zoey"]
  }

  /** The files that a Phonon build requires, relative to its package. */
  function RequiredFiles(): seq<Path> {
    [["Cargo.toml"], ["Cargo.lock"], ["src", "lib.rs"], ["model", "model.q8.gguf"], ["model", "config.json"], ["model", "tokenizer.model"]]
    + seq(|Voices()|, i requires 0 <= i < |Voices()| => ["voices", Voices()[i] + ".safetensors"])
  }

  predicate PhononComplete(files: Files, root: Path) {
    forall i | 0 <= i < |RequiredFiles()| :: Phonon(root) + RequiredFiles()[i] in files
  }

  /** The files of a complete package. */
  predicate IsPackage(files: Files, package: Path) {
    && package + ["Cargo.toml"] in files && package + ["Cargo.lock"] in files && package + ["src", "lib.rs"] in files
    && package + ["model", "model.q8.gguf"] in files && package + ["model", "config.json"] in files
    && package + ["model", "tokenizer.model"] in files
    && package + ["voices", "Marlowe" + ".safetensors"] in files && package + ["voices", "Freya" + ".safetensors"] in files
    && package + ["voices", "Archie" + ".safetensors"] in files && package + ["voices", "Freddie" + ".safetensors"] in files
    && package + ["voices", "Elodie-Rose" + ".safetensors"] in files && package + ["voices", "Garrett" + ".safetensors"] in files
    && package + ["voices", "Damon" + ".safetensors"] in files && package + ["voices", "Zoey" + ".safetensors"] in files
  }

  /** The package is complete exactly if the manifest, the library, the model and all eight voices are there. */
  lemma PackageExact(files: Files, root: Path)
    ensures PhononComplete(files, root) <==> IsPackage(files, root + ["models", "phonon"])
  {
    var r := RequiredFiles();
    assert |r| == 14;
    assert forall i | 0 <= i < 8 :: r[6 + i] == ["voices", Voices()[i] + ".safetensors"];
    if PhononComplete(files, root) {
      RequiredThere(files, root);
    }
  }

  lemma RequiredThere(files: Files, root: Path)
    requires PhononComplete(files, root)
    ensures IsPackage(files, root + ["models", "phonon"])
  {
    var r, p := RequiredFiles(), Phonon(root);
    assert p + r[0] in files && p + r[1] in files && p + r[2] in files && p + r[3] in files && p + r[4] in files && p + r[5] in files;
    assert p + r[6] in files && p + r[7] in files && p + r[8] in files && p + r[9] in files;
    assert p + r[10] in files && p + r[11] in files && p + r[12] in files && p + r[13] in files;
  }

  // ---------- what the steps leave ----------

  lemma ClearedLook(files: Files, bundle: Path, q: Path)
    ensures Look(Cleared(files, bundle), q)
            == if bundle + ["phonon"] <= q || bundle + ["pocket-tts"] <= q then None else Look(files, q)
  {
  }

  /** Where copied assets come from. */
  lemma {:induction false} CopiedLook(base: Files, original: Files, source: Path, target: Path, m: M.Manifest, n: nat, q: Path)
    requires n <= |m.files| && forall i | 0 <= i < |m.files| :: M.AssetPath(source, m, m.files[i]) in original
    ensures var copied := Look(Copied(base, original, source, target, m, n), q);
            || (copied == Look(base, q) && forall i | 0 <= i < n :: M.AssetPath(target, m, m.files[i]) != q)
            || exists i :: 0 <= i < n && M.AssetPath(target, m, m.files[i]) == q && copied == Look(original, M.AssetPath(source, m, m.files[i]))
  {
    if n > 0 && M.AssetPath(target, m, m.files[n - 1]) != q {
      CopiedLook(base, original, source, target, m, n - 1, q);
    }
  }

  lemma Component(bundle: Path, name: string, q: Path)
    ensures bundle + [name] <= q ==> |q| > |bundle| && q[|bundle|] == name
  {
    if bundle + [name] <= q {
      assert q[|bundle|] == (bundle + [name])[|bundle|];
    }
  }

  lemma PlacesApart(bundle: Path, q: Path)
    ensures !(bundle + ["phonon"] <= q && bundle + ["pocket-tts"] <= q)
  {
    Component(bundle, "phonon", q);
    Component(bundle, "pocket-tts", q);
    assert |"phonon"| != |"pocket-tts"|;
  }

  /** What the bundle holds before the private voices: outside the two folders nothing has changed, and
      in them are the assets and manifest.json only. */
  lemma AssetsLook(files: Files, m: M.Manifest, word: char -> bool, bundle: Path, root: Path, q: Path)
    requires HasSources(files, m, root) && M.Valid(m, word)
    ensures var target := bundle + ["pocket-tts"];
            var after := Look(WithAssets(files, m, bundle, root), q);
            if q == ManifestFile(target) then after == Look(files, ManifestSource(root))
            else if bundle + ["phonon"] <= q then after == None
            else if !(target <= q) then after == Look(files, q)
            else || (after == None && forall i | 0 <= i < |m.files| :: M.AssetPath(target, m, m.files[i]) != q)
                 || exists i :: 0 <= i < |m.files| && M.AssetPath(target, m, m.files[i]) == q
                                && after == Look(files, M.AssetPath(Models(root), m, m.files[i]))
  {
    var target := bundle + ["pocket-tts"];
    CopiedLook(Cleared(files, bundle), files, Models(root), target, m, |m.files|, q);
    ClearedLook(files, bundle, q);
    PlacesApart(bundle, q);
    forall i | 0 <= i < |m.files|
      ensures target <= M.AssetPath(target, m, m.files[i])
    {
    }
  }

  /** Each asset arrives. */
  lemma AssetArrives(files: Files, m: M.Manifest, word: char -> bool, bundle: Path, root: Path, i: nat)
    requires HasSources(files, m, root) && M.Valid(m, word) && i < |m.files|
    ensures var target := bundle + ["pocket-tts"];
            Look(WithAssets(files, m, bundle, root), M.AssetPath(target, m, m.files[i])) == Look(files, M.AssetPath(Models(root), m, m.files[i]))
  {
    var target := bundle + ["pocket-tts"];
    var q := M.AssetPath(target, m, m.files[i]);
    AssetsLook(files, m, word, bundle, root, q);
    PlacesApart(bundle, q);
    M.AssetsDistinct(target, m, word, i, i);
    forall k: nat | k < |m.files|
      ensures M.AssetPath(target, m, m.files[k]) == q ==> k == i
    {
      M.AssetsDistinct(target, m, word, k, i);
    }
    assert target <= q;
  }

  // ---------- the private voices ----------

  lemma PrefixesCompare(a: Path, b: Path, rel: Path)
    ensures b <= a + rel ==> a <= b || b <= a
  {
    if b <= a + rel {
      if |b| <= |a| {
        assert b == (a + rel)[..|b|] == a[..|b|];
      } else {
        assert a == (a + rel)[..|a|] == b[..|a|];
      }
    }
  }

  lemma PhononPart(bundle: Path, kind: string, q: Path)
    ensures bundle + ["phonon", kind] <= q ==> bundle + ["phonon"] <= q
  {
    assert bundle + ["phonon", kind] == bundle + ["phonon"] + [kind];
  }

  lemma PhononElsewhere(files: Files, bundle: Path, root: Path, q: Path)
    requires !(bundle + ["phonon"] <= q)
    ensures Look(WithPhonon(files, bundle, root), q) == Look(files, q)
  {
    PhononPart(bundle, "model", q);
    PhononPart(bundle, "voices", q);
  }

  predicate IsKind(kind: string) {
    kind == "model" || kind == "voices"
  }

  lemma KindsApart(bundle: Path, kind: string, other: string, rel: Path)
    requires kind != other
    ensures !(bundle + ["phonon", other] <= bundle + ["phonon", kind] + rel)
  {
    var q := bundle + ["phonon", kind] + rel;
    assert q[|bundle| + 1] == kind && (bundle + ["phonon", other])[|bundle| + 1] == other;
  }

  lemma CopyLook(files: Files, source: Path, target: Path, rel: Path)
    requires rel != []
    ensures Look(CopyTree(files, source, target), target + rel)
            == if Kept(rel) && source + rel in files then Look(files, source + rel) else Look(files, target + rel)
  {
    assert (target + rel)[|target|..] == rel;
  }

  lemma ElsewhereLook(files: Files, source: Path, target: Path, q: Path)
    requires !(target <= q)
    ensures Look(CopyTree(files, source, target), q) == Look(files, q)
  {
  }

  /** A file of the private tree arrives, unless one of its names is ignored, and nothing else does. */
  lemma PhononLook(files: Files, bundle: Path, root: Path, kind: string, rel: Path)
    requires Disjoint(Phonon(root), bundle + ["phonon"]) && IsKind(kind) && rel != []
    requires Look(files, bundle + ["phonon", kind] + rel) == None
    ensures Look(WithPhonon(files, bundle, root), bundle + ["phonon", kind] + rel)
            == if Kept(rel) then Look(files, Phonon(root) + [kind] + rel) else None
  {
    var p := Phonon(root) + [kind] + rel;
    var first := CopyTree(files, Phonon(root) + ["model"], bundle + ["phonon", "model"]);
    if kind == "model" {
      CopyLook(files, Phonon(root) + ["model"], bundle + ["phonon", "model"], rel);
      KindsApart(bundle, "model", "voices", rel);
      ElsewhereLook(first, Phonon(root) + ["voices"], bundle + ["phonon", "voices"], bundle + ["phonon", "model"] + rel);
    } else {
      assert p == Phonon(root) + ([kind] + rel);
      PrefixesCompare(Phonon(root), bundle + ["phonon"], [kind] + rel);
      PhononPart(bundle, "model", p);
      ElsewhereLook(files, Phonon(root) + ["model"], bundle + ["phonon", "model"], p);
      KindsApart(bundle, "voices", "model", rel);
      ElsewhereLook(files, Phonon(root) + ["model"], bundle + ["phonon", "model"], bundle + ["phonon", "voices"] + rel);
      CopyLook(first, Phonon(root) + ["voices"], bundle + ["phonon", "voices"], rel);
    }
  }

  // ---------- the bundle ----------

  /** q lies below one of the two private folders of the bundle. */
  predicate IsPrivate(bundle: Path, q: Path) {
    bundle + ["phonon", "model"] < q || bundle + ["phonon", "voices"] < q
  }

  lemma NotPrivate(files: Files, bundle: Path, root: Path, q: Path)
    requires !IsPrivate(bundle, q)
    ensures Look(WithPhonon(files, bundle, root), q) == Look(files, q)
  {
  }

  /** Outside its two folders the bundle and everything else are unchanged; pocket-tts holds exactly the
      manifest's assets and manifest.json, whatever stale files were there, and phonon holds nothing but,
      if enabled, files below its folders model and voices (which ones, says BundlePhonon). */
  lemma BundleExact(files: Files, m: M.Manifest, word: char -> bool, bundle: Path, root: Path, phonon: bool, q: Path)
    requires HasSources(files, m, root) && M.Valid(m, word)
    ensures var target := bundle + ["pocket-tts"];
            var after := Look(Bundled(files, m, bundle, root, phonon), q);
            if q == ManifestFile(target) then after == Look(files, ManifestSource(root))
            else if target <= q then
              || (after == None && forall i | 0 <= i < |m.files| :: M.AssetPath(target, m, m.files[i]) != q)
              || exists i :: 0 <= i < |m.files| && M.AssetPath(target, m, m.files[i]) == q
                             && after == Look(files, M.AssetPath(Models(root), m, m.files[i]))
            else if bundle + ["phonon"] <= q then after == None || (phonon && IsPrivate(bundle, q))
            else after == Look(files, q)
  {
    AssetsLook(files, m, word, bundle, root, q);
    PlacesApart(bundle, q);
    ManifestUnder(bundle);
    if phonon && !(bundle + ["phonon"] <= q) {
      PhononElsewhere(WithAssets(files, m, bundle, root), bundle, root, q);
    }
    if phonon && !IsPrivate(bundle, q) {
      NotPrivate(WithAssets(files, m, bundle, root), bundle, root, q);
    }
  }

  lemma ManifestUnder(bundle: Path)
    ensures bundle + ["pocket-tts"] <= ManifestFile(bundle + ["pocket-tts"])
    ensures !(bundle + ["phonon"] <= ManifestFile(bundle + ["pocket-tts"]))
  {
    PlacesApart(bundle, ManifestFile(bundle + ["pocket-tts"]));
  }

  lemma BaseOutside(files: Files, m: M.Manifest, word: char -> bool, bundle: Path, root: Path, q: Path)
    requires HasSources(files, m, root) && M.Valid(m, word) && !(bundle + ["pocket-tts"] <= q)
    ensures Look(WithAssets(files, m, bundle, root), q) == if bundle + ["phonon"] <= q then None else Look(files, q)
  {
    AssetsLook(files, m, word, bundle, root, q);
    ManifestUnder(bundle);
  }

  lemma PhononOutside(bundle: Path, root: Path, kind: string, rel: Path)
    requires Separate(root, bundle)
    ensures var p := Phonon(root) + [kind] + rel; !(bundle + ["phonon"] <= p) && !(bundle + ["pocket-tts"] <= p)
    ensures var q := bundle + ["phonon", kind] + rel; bundle + ["phonon"] <= q && !(bundle + ["pocket-tts"] <= q)
  {
    assert Phonon(root) + [kind] + rel == Phonon(root) + ([kind] + rel);
    PrefixesCompare(Phonon(root), bundle + ["phonon"], [kind] + rel);
    PrefixesCompare(Phonon(root), bundle + ["pocket-tts"], [kind] + rel);
    PhononPart(bundle, kind, bundle + ["phonon", kind] + rel);
    PlacesApart(bundle, bundle + ["phonon", kind] + rel);
  }

  /** The private voices, when enabled: the files of the two private folders except ignored ones. */
  lemma BundlePhonon(files: Files, m: M.Manifest, word: char -> bool, bundle: Path, root: Path, kind: string, rel: Path)
    requires HasSources(files, m, root) && M.Valid(m, word) && Separate(root, bundle) && IsKind(kind) && rel != []
    ensures Look(Bundled(files, m, bundle, root, true), bundle + ["phonon", kind] + rel)
            == if Kept(rel) then Look(files, root + ["models", "phonon"] + [kind] + rel) else None
  {
    PhononOutside(bundle, root, kind, rel);
    BaseOutside(files, m, word, bundle, root, bundle + ["phonon", kind] + rel);
    BaseOutside(files, m, word, bundle, root, Phonon(root) + [kind] + rel);
    PhononLook(WithAssets(files, m, bundle, root), bundle, root, kind, rel);
  }

  /** The bundled assets verify. */
  lemma BundleVerifies(files: Files, m: M.Manifest, word: char -> bool, bundle: Path, root: Path, phonon: bool, source: World, target: World)
    requires HasSources(files, m, root) && M.Valid(m, word) && source.sha == target.sha
    requires source.assets == AssetsOf(Models(root), m) && target.assets == AssetsOf(bundle + ["pocket-tts"], m)
    requires source.HasAll(files)
    ensures target.HasAll(Bundled(files, m, bundle, root, phonon))
  {
    forall i | 0 <= i < |target.assets|
      ensures target.Has(Bundled(files, m, bundle, root, phonon), i)
    {
      var q := target.assets[i].path;
      AssetArrives(files, m, word, bundle, root, i);
      PlacesApart(bundle, q);
      PhononElsewhere(WithAssets(files, m, bundle, root), bundle, root, q);
      assert source.Has(files, i);
    }
  }

  /** Each asset is found in the bundle where it is found among the models, under the manifest's own path,
      and the manifest next to them. */
  lemma AssetBundled(files: Files, m: M.Manifest, word: char -> bool, bundle: Path, root: Path, phonon: bool, i: nat) returns (rel: Path)
    requires HasSources(files, m, root) && M.Valid(m, word) && i < |m.files|
    ensures JoinOn(rel, '/') == (if m.cache == "." then m.files[i].path else m.cache + "/" + m.files[i].path)
    ensures forall p | p in rel :: '/' !in p
    ensures var after := Bundled(files, m, bundle, root, phonon);
            && root + ["models", "pocket-tts"] + rel in files
            && Look(after, bundle + ["pocket-tts"] + rel) == Look(files, root + ["models", "pocket-tts"] + rel)
            && Look(after, bundle + ["pocket-tts"] + ["manifest.json"]) == Look(files, root + ["scripts", "pocket_tts_manifest.json"])
  {
    rel := Parts(m.cache) + Parts(m.files[i].path);
    var q := bundle + ["pocket-tts"] + rel;
    M.AssetIsDeep(m, m.files[i]);
    Relative(m.cache, m.files[i].path);
    AssetArrives(files, m, word, bundle, root, i);
    assert M.AssetPath(bundle + ["pocket-tts"], m, m.files[i]) == q;
    assert M.AssetPath(Models(root), m, m.files[i]) == root + ["models", "pocket-tts"] + rel;
    PlacesApart(bundle, q);
    PhononElsewhere(WithAssets(files, m, bundle, root), bundle, root, q);
    BundleExact(files, m, word, bundle, root, phonon, ManifestFile(bundle + ["pocket-tts"]));
  }

  // ---------- the program ----------

  /** Lost: a file to be copied is no longer there. */
  datatype BundleError = NoManifest | BadManifest(problem: M.Problem) | Unverified(asset: nat) | NoPhonon | Lost(path: Path)

  /** `verify_assets` needs no network. */
  function Offline(assets: seq<Asset>, sha: Bytes -> string): World {
    World(assets, i => Supply(false, j => Unreachable(Uncaught)), sha, {})
  }

  method ValidatePhonon(disk: Disk, root: Path) returns (ok: bool)
    ensures ok <==> PhononComplete(disk.files, root)
  {
    var required := RequiredFiles();
    ok := true;
    for i := 0 to |required|
      invariant ok <==> forall k | 0 <= k < i :: Phonon(root) + required[k] in disk.files
    {
      ok := ok && Phonon(root) + required[i] in disk.files;
    }
  }

  lemma SourcesExist(files: Files, m: M.Manifest, root: Path, w: World)
    requires w.assets == AssetsOf(Models(root), m) && w.HasAll(files) && ManifestSource(root) in files
    ensures HasSources(files, m, root)
  {
    forall i | 0 <= i < |m.files|
      ensures M.AssetPath(Models(root), m, m.files[i]) in files
    {
      assert w.Has(files, i);
    }
  }

  /** A source is not in the cleared folders, so copying does not touch it. */
  lemma SourceStays(files: Files, m: M.Manifest, bundle: Path, root: Path, n: nat, p: Path)
    requires HasSources(files, m, root) && n <= |m.files|
    requires !(bundle + ["phonon"] <= p) && !(bundle + ["pocket-tts"] <= p)
    ensures Look(Copied(Cleared(files, bundle), files, Models(root), bundle + ["pocket-tts"], m, n), p) == Look(files, p)
  {
    CopiedLook(Cleared(files, bundle), files, Models(root), bundle + ["pocket-tts"], m, n, p);
    ClearedLook(files, bundle, p);
  }

  lemma SourceOutside(bundle: Path, root: Path, p: Path)
    requires Separate(root, bundle) && (Models(root) <= p || p == ManifestSource(root))
    ensures !(bundle + ["phonon"] <= p) && !(bundle + ["pocket-tts"] <= p)
  {
    if Models(root) <= p {
      assert Models(root) + p[|Models(root)|..] == p;
      PrefixesCompare(Models(root), bundle + ["phonon"], p[|Models(root)|..]);
      PrefixesCompare(Models(root), bundle + ["pocket-tts"], p[|Models(root)|..]);
    }
  }

  lemma AssetBelow(source: Path, m: M.Manifest, e: M.Entry)
    ensures source <= M.AssetPath(source, m, e)
  {
  }

  lemma NextCopy(files: Files, m: M.Manifest, bundle: Path, root: Path, i: nat)
    requires HasSources(files, m, root) && Separate(root, bundle) && i < |m.files|
    ensures var from := M.AssetPath(Models(root), m, m.files[i]);
            var now := Copied(Cleared(files, bundle), files, Models(root), bundle + ["pocket-tts"], m, i);
            from in now && now[from] == files[from]
  {
    AssetBelow(Models(root), m, m.files[i]);
    SourceOutside(bundle, root, M.AssetPath(Models(root), m, m.files[i]));
    SourceStays(files, m, bundle, root, i, M.AssetPath(Models(root), m, m.files[i]));
  }

  lemma ManifestCopy(files: Files, m: M.Manifest, bundle: Path, root: Path)
    requires HasSources(files, m, root) && Separate(root, bundle)
    ensures var now := Copied(Cleared(files, bundle), files, Models(root), bundle + ["pocket-tts"], m, |m.files|);
            ManifestSource(root) in now && now[ManifestSource(root)] == files[ManifestSource(root)]
  {
    SourceOutside(bundle, root, ManifestSource(root));
    SourceStays(files, m, bundle, root, |m.files|, ManifestSource(root));
  }

  /** What is bundled is what was there before the two folders were cleared. */
  ghost predicate Ready(files: Files, m: M.Manifest, bundle: Path, root: Path) {
    HasSources(files, m, root) && Separate(root, bundle)
  }

  /** The loop that copies the assets, and the copy of the manifest. */
  method CopyAssets(disk: Disk, m: M.Manifest, bundle: Path, root: Path, ghost before: Files) returns (lost: Option<Path>)
    requires disk.files == Cleared(before, bundle)
    modifies disk
    ensures Ready(before, m, bundle, root) ==> lost.None? && disk.files == WithAssets(before, m, bundle, root)
  {
    var source, target := Models(root), bundle + ["pocket-tts"];
    for i := 0 to |m.files|
      invariant Ready(before, m, bundle, root) ==> disk.files == Copied(Cleared(before, bundle), before, source, target, m, i)
    {
      var from := M.AssetPath(source, m, m.files[i]);
      if Ready(before, m, bundle, root) {
        NextCopy(before, m, bundle, root, i);
      }
      if from !in disk.files {
        return Some(from);
      }
      disk.Write(M.AssetPath(target, m, m.files[i]), disk.files[from]);
    }
    if Ready(before, m, bundle, root) {
      ManifestCopy(before, m, bundle, root);
    }
    if ManifestSource(root) !in disk.files {
      return Some(ManifestSource(root));
    }
    disk.Write(ManifestFile(target), disk.files[ManifestSource(root)]);
    return None;
  }

  /** The checks before anything is removed or copied. */
  predicate Admitted(files: Files, m: M.Manifest, word: char -> bool, root: Path, phonon: bool, sha: Bytes -> string) {
    && ManifestSource(root) in files && M.Valid(m, word) && Offline(AssetsOf(Models(root), m), sha).HasAll(files)
    && (phonon ==> PhononComplete(files, root))
  }

  lemma AdmittedExact(files: Files, m: M.Manifest, word: char -> bool, root: Path, phonon: bool, sha: Bytes -> string)
    ensures Admitted(files, m, word, root, phonon, sha) <==>
            && root + ["scripts", "pocket_tts_manifest.json"] in files && M.Valid(m, word)
            && (forall a | a in AssetsOf(root + ["models", "pocket-tts"], m) :: Verified(files, a.path, a.pin, sha))
            && (phonon ==> IsPackage(files, root + ["models", "phonon"]))
  {
    PackageExact(files, root);
    var w := Offline(AssetsOf(Models(root), m), sha);
    assert w.HasAll(files) <==> forall a | a in w.assets :: Verified(files, a.path, a.pin, sha) by {
      forall i | 0 <= i < |w.assets|
        ensures w.Has(files, i) <==> Verified(files, w.assets[i].path, w.assets[i].pin, sha)
      {
      }
    }
  }

  method Admit(disk: Disk, m: M.Manifest, word: char -> bool, root: Path, phonon: bool) returns (error: Option<BundleError>)
    ensures error.None? <==> Admitted(disk.files, m, word, root, phonon, disk.sha)
    ensures error.Some? ==> !error.value.Lost?
  {
    if ManifestSource(root) !in disk.files {
      return Some(NoManifest);
    }
    var problem := M.LoadManifest(m, word);
    if problem.Some? {
      return Some(BadManifest(problem.value));
    }
    var bad := VerifyAssets(disk, Offline(AssetsOf(Models(root), m), disk.sha));
    if bad.Some? {
      return Some(Unverified(bad.value));
    }
    if phonon {
      var ok := ValidatePhonon(disk, root);
      if !ok {
        return Some(NoPhonon);
      }
    }
    return None;
  }

  /** `bundle_models`. It passes its checks exactly if the manifest is there and valid, every asset verifies
      and, for a private build, the private package is complete; otherwise nothing changes. Unless the
      bundle's voice folders overlap what is copied into them, it then succeeds. */
  method BundleModels(disk: Disk, m: M.Manifest, word: char -> bool, bundle: Path, root: Path, phonon: bool)
    returns (error: Option<BundleError>)
    modifies disk
    ensures error.None? || error.value.Lost? <==>
            && root + ["scripts", "pocket_tts_manifest.json"] in old(disk.files) && M.Valid(m, word)
            && (forall a | a in AssetsOf(root + ["models", "pocket-tts"], m) :: Verified(old(disk.files), a.path, a.pin, disk.sha))
            && (phonon ==> IsPackage(old(disk.files), root + ["models", "phonon"]))
    ensures error.Some? && !error.value.Lost? ==> disk.files == old(disk.files)
    ensures (error.None? || error.value.Lost?) && Separate(root, bundle) ==>
              error.None? && HasSources(old(disk.files), m, root) && disk.files == Bundled(old(disk.files), m, bundle, root, phonon)
  {
    error := Admit(disk, m, word, root, phonon);
    AdmittedExact(disk.files, m, word, root, phonon, disk.sha);
    if error.Some? {
      return;
    }
    ghost var before := disk.files;
    SourcesExist(before, m, root, Offline(AssetsOf(Models(root), m), disk.sha));
    disk.files := Without(disk.files, bundle + ["phonon"]);
    disk.files := Without(disk.files, bundle + ["pocket-tts"]);
    var lost := CopyAssets(disk, m, bundle, root, before);
    if lost.Some? {
      return Some(Lost(lost.value));
    }
    if phonon {
      disk.files := CopyTree(disk.files, Phonon(root) + ["model"], bundle + ["phonon", "model"]);
      disk.files := CopyTree(disk.files, Phonon(root) + ["voices"], bundle + ["phonon", "voices"]);
    }
    return None;
  }
}
