/** The manifest's assets as `fetch_assets` sees them. */
module Install {
  import opened Text
  import opened Paths
  import opened Fetch
  import opened Assets
  import M = Manifest

  /** `path.with_name(path.name + ".partial")` on the text of a path. */
  const SUFFIX := ".partial"

  function PinOf(e: M.Entry): Pin {
    Pin(if e.size.Some? && e.size.value >= 0 then e.size.value else 0, e.sha256)
  }

  function AssetsOf(destination: Path, m: M.Manifest): (assets: seq<Asset>)
    ensures |assets| == |m.files|
  {
    seq(|m.files|, i requires 0 <= i < |m.files| => Asset(M.AssetPath(destination, m, m.files[i]), PinOf(m.files[i])))
  }

  function ManifestFile(destination: Path): Path {
    destination + ["manifest.json"]
  }

  /** `installed_manifest.with_suffix(".partial")` */
  function ManifestTemporary(destination: Path): Path {
    destination + ["manifest.partial"]
  }

  function AppendLast(parts: seq<string>, t: string): seq<string>
    requires parts != []
  {
    parts[..|parts| - 1] + [parts[|parts| - 1] + t]
  }

  lemma AppendAfter(first: string, parts: seq<string>, t: string)
    requires parts != []
    ensures AppendLast([first] + parts, t) == [first] + AppendLast(parts, t)
  {
  }

  lemma AppendHead(x: char, parts: seq<string>, t: string)
    requires parts != []
    ensures AppendLast([[x] + parts[0]] + parts[1..], t) == [[x] + AppendLast(parts, t)[0]] + AppendLast(parts, t)[1..]
  {
    if |parts| == 1 {
      assert [x] + (parts[0] + t) == [x] + parts[0] + t;
    }
  }

  lemma {:induction false} SplitAppend(s: string, t: string, c: char)
    requires c !in t
    ensures SplitOn(s + t, c) == AppendLast(SplitOn(s, c), t)
  {
    if s == "" {
      assert s + t == t;
      SplitPlain(t, c);
    } else {
      assert (s + t)[1..] == s[1..] + t;
      SplitAppend(s[1..], t, c);
      AppendAfter("", SplitOn(s[1..], c), t);
      AppendHead(s[0], SplitOn(s[1..], c), t);
    }
  }

  lemma WithSuffix(path: string)
    requires RelativePath(path).Some? && path != "."
    ensures RelativePath(path + SUFFIX).Some? && path + SUFFIX != "."
    ensures Parts(path) != [] && Parts(path + SUFFIX) == AppendLast(Parts(path), SUFFIX)
  {
    var parts := SplitOn(path, '/');
    AcceptedAreNames(path);
    SplitAppend(path, SUFFIX, '/');
    var last := parts[|parts| - 1];
    assert last in parts && |last + SUFFIX| > 2;
    assert forall p | p in parts[..|parts| - 1] :: p in parts;
    NamesAreAccepted(path + SUFFIX);
    AcceptedAreNames(path + SUFFIX);
  }

  lemma AssetsNamed(destination: Path, m: M.Manifest, word: char -> bool, w: World)
    requires M.Valid(m, word) && w.assets == AssetsOf(destination, m)
    ensures forall i: nat | i < |w.assets| :: |w.assets[i].path| >= |destination| + 2
    ensures w.Distinct()
  {
    forall i: nat | i < |w.assets|
      ensures |w.assets[i].path| >= |destination| + 2
    {
      M.AssetsDistinct(destination, m, word, i, i);
    }
    forall i, j | 0 <= i < j < |w.assets|
      ensures w.assets[i].path != w.assets[j].path
    {
      M.AssetsDistinct(destination, m, word, i, j);
    }
  }

  /** The files of a valid manifest are distinct, and none of them is manifest.json or its temporary
      file; asset i is the temporary file of asset j exactly if its path is the other's plus ".partial". */
  lemma ManifestSound(destination: Path, m: M.Manifest, word: char -> bool, w: World)
    requires M.Valid(m, word) && w.assets == AssetsOf(destination, m)
    ensures w.Named() && w.Distinct() && Apart(w, destination + ["manifest.json"], destination + ["manifest.partial"])
    ensures forall i: nat, j: nat | i < |m.files| && j < |m.files| :: w.Clash(j, i) <==> m.files[i].path == m.files[j].path + ".partial"
  {
    AssetsNamed(destination, m, word, w);
    LastOf(destination);
    forall i: nat, j: nat | i < |m.files| && j < |m.files|
      ensures w.Clash(j, i) <==> m.files[i].path == m.files[j].path + SUFFIX
    {
      ClashIsSuffix(destination, m, word, i, j);
    }
  }

  lemma LastOf(destination: Path)
    ensures ManifestFile(destination) != ManifestTemporary(destination)
    ensures |ManifestFile(destination)| == |ManifestTemporary(destination)| == |destination| + 1
  {
    var a, b := "manifest.json", "manifest.partial";
    assert |a| != |b|;
    assert ManifestFile(destination)[|destination|] == a && ManifestTemporary(destination)[|destination|] == b;
  }

  lemma ClashIsSuffix(destination: Path, m: M.Manifest, word: char -> bool, i: nat, j: nat)
    requires M.Valid(m, word) && i < |m.files| && j < |m.files|
    requires M.AssetPath(destination, m, m.files[j]) != []
    ensures Partial(M.AssetPath(destination, m, m.files[j])) == M.AssetPath(destination, m, m.files[i])
            <==> m.files[i].path == m.files[j].path + SUFFIX
  {
    var a, b := m.files[i].path, m.files[j].path;
    var prefix := destination + Parts(m.cache);
    M.AssetIsDeep(m, m.files[i]);
    M.AssetIsDeep(m, m.files[j]);
    DotHasNoParts();
    WithSuffix(b);
    PartialIs(prefix, Parts(b));
    assert Partial(prefix + Parts(b)) == prefix + Parts(b + SUFFIX);
    if prefix + Parts(b + SUFFIX) == prefix + Parts(a) {
      assert (prefix + Parts(b + SUFFIX))[|prefix|..] == Parts(b + SUFFIX);
      assert (prefix + Parts(a))[|prefix|..] == Parts(a);
      PartsDetermine(a, b + SUFFIX);
    }
  }

  lemma DotHasNoParts()
    ensures Parts(".") == []
  {
    SplitPlain(".", '/');
    assert Keep(["."]) == [];
  }

  lemma PartialIs(prefix: Path, parts: seq<string>)
    requires parts != []
    ensures Partial(prefix + parts) == prefix + AppendLast(parts, SUFFIX)
  {
    var path := prefix + parts;
    assert path[..|path| - 1] == prefix + parts[..|parts| - 1];
  }

  // ---------- where the assets are ----------

  /** Below the destination an asset has the path that the manifest gives it, behind the cache folder, and it
      is pinned to the manifest's size and checksum. */
  lemma AssetPlace(destination: Path, m: M.Manifest, word: char -> bool, i: nat)
    requires M.Valid(m, word) && i < |m.files|
    ensures var a, e := AssetsOf(destination, m)[i], m.files[i];
            && destination <= a.path
            && JoinOn(a.path[|destination|..], '/') == (if m.cache == "." then e.path else m.cache + "/" + e.path)
            && (forall p | p in a.path[|destination|..] :: '/' !in p)
            && e.size == Some(a.pin.size) && a.pin.sha256 == e.sha256
  {
    var a, e := AssetsOf(destination, m)[i], m.files[i];
    M.AssetIsDeep(m, e);
    Relative(m.cache, e.path);
    Below(destination, Parts(m.cache), Parts(e.path), a.path);
  }

  lemma Below(destination: Path, a: Path, b: Path, path: Path)
    requires path == destination + a + b
    ensures destination <= path && path[|destination|..] == a + b
  {
  }

  /** One accepted path below another. */
  lemma Relative(folder: string, path: string)
    requires RelativePath(folder).Some? && RelativePath(path).Some? && Parts(path) != []
    ensures JoinOn(Parts(folder) + Parts(path), '/') == if folder == "." then path else folder + "/" + path
    ensures forall p | p in Parts(folder) + Parts(path) :: '/' !in p
  {
    AcceptedIsJoin(folder);
    AcceptedIsJoin(path);
    if folder == "." {
      assert Parts(folder) + Parts(path) == Parts(path);
    } else {
      JoinAppend(Parts(folder), Parts(path), '/');
    }
  }

  /** An asset verifies exactly if the file at this place has this size and this checksum. */
  lemma AssetVerifies(destination: Path, m: M.Manifest, word: char -> bool, w: World, files: Files, i: nat)
    requires M.Valid(m, word) && i < |m.files| && w.assets == AssetsOf(destination, m)
    ensures var path := w.assets[i].path;
            w.Has(files, i) <==> path in files && m.files[i].size == Some(|files[path]|) && w.sha(files[path]) == m.files[i].sha256
  {
    AssetPlace(destination, m, word, i);
  }

  // ---------- a valid manifest that loses an asset ----------

  lemma TwoParts(a: string, b: string)
    requires '/' !in a && '/' !in b
    ensures SplitOn(a + ['/'] + b, '/') == [a, b]
  {
    SplitFirst(a, '/', b);
    SplitPlain(b, '/');
  }

  lemma TwoNames(a: string, b: string)
    requires '/' !in a && '/' !in b && IsName(a) && IsName(b)
    ensures RelativePath(a + ['/'] + b).Some?
  {
    TwoParts(a, b);
    NamesAreAccepted(a + ['/'] + b);
  }

  lemma OneName(a: string)
    requires '/' !in a && IsName(a)
    ensures RelativePath(a).Some?
  {
    SplitPlain(a, '/');
    NamesAreAccepted(a);
  }

  /** Two empty files, `l/a.partial` and then `l/a`. */
  function LosingEntries(digest: string): seq<M.Entry> {
    [M.Entry("l/a" + SUFFIX, Some(0), digest), M.Entry("l/a", Some(0), digest)]
  }

  function LosingManifest(digest: string): M.Manifest {
    M.Manifest(Some(1), "o" + ['/'] + "r", seq(40, _ => '0'), "c", "l", LosingEntries(digest))
  }

  lemma LosingEntriesOk(digest: string)
    requires M.IsHex(digest, 64)
    ensures var m := LosingManifest(digest); M.EntryOk(m, m.files[0]) && M.EntryOk(m, m.files[1])
  {
    TwoNames("l", "a" + SUFFIX);
    TwoNames("l", "a");
    assert "l" + ['/'] + ("a" + SUFFIX) == "l/a" + SUFFIX;
    assert "l" + ['/'] + "a" == "l/a" && "l" + "/" == "l/";
  }

  lemma LosingIsValid(digest: string, word: char -> bool)
    requires M.IsHex(digest, 64) && word('o') && word('r')
    ensures M.Valid(LosingManifest(digest), word)
  {
    LosingEntriesOk(digest);
    TwoParts("o", "r");
    OneName("c");
    OneName("l");
    assert |"l/a" + SUFFIX| != |"l/a"|;
  }

  /** Every empty asset is supplied by empty responses. */
  lemma EmptySupplied(w: World)
    requires w.Named() && w.links == {}
    requires forall i: nat :: w.supplies(i).folder && w.supplies(i).responses(0) == Stream([], None, None)
    requires forall i: nat | i < |w.assets| :: Matches([], w.assets[i].pin, w.sha)
    ensures forall i: nat | i < |w.assets| :: w.Fetch(i).outcome.Fetched?
  {
    forall i: nat | i < |w.assets|
      ensures w.Fetch(i).outcome.Fetched?
    {
      assert Try(w.supplies(i).responses(0), w.assets[i].pin, w.sha) == Installed([]);
    }
  }

  /** The check of the manifest does not exclude the clash: whatever the digest and the class of word
      characters, there is a valid manifest and a network that supplies each of its assets at the first
      request, so that the run on an empty disk returns normally and leaves an asset missing. */
  lemma ValidManifestLoses(destination: Path, sha: Bytes -> string, word: char -> bool) returns (m: M.Manifest, w: World)
    requires M.IsHex(sha([]), 64) && word('o') && word('r')
    ensures M.Valid(m, word) && w.assets == AssetsOf(destination, m) && w.sha == sha && w.links == {}
    ensures |m.files| == 2 && m.files[0].path == "l/a" + SUFFIX && m.files[1].path == "l/a"
    ensures w.Named() && FetchAll(w, map[], 0).failure.None? && !w.HasAll(FetchAll(w, map[], 0).files)
  {
    m := LosingManifest(sha([]));
    w := World(AssetsOf(destination, m), _ => Supply(true, _ => Stream([], None, None)), sha, {});
    LosingIsValid(sha([]), word);
    ManifestSound(destination, m, word, w);
    EmptySupplied(w);
    assert w.Clash(1, 0);
    ClashLoses(w, 0, 1);
  }
}
