/** `load_manifest` and `asset_path` of scripts/fetch_pocket_tts.py. */
module Manifest {
  import opened Text
  import opened Paths

  /** One entry as parsed from JSON; size is None if it is not an `int`. */
  datatype Entry = Entry(path: string, size: Option<int>, sha256: string)

  datatype Manifest = Manifest(
    version: Option<int>, repository: string, revision: string,
    cache: string, language: string, files: seq<Entry>)

  datatype Problem =
    | Unsupported | BadRepository | NoCommit | BadPath(path: string)
    | Unexpected(path: string) | BadSize(path: string) | BadChecksum(path: string) | NoAssets

  predicate IsHexDigit(c: char) {
    '0' <= c <= '9' || 'a' <= c <= 'f'
  }

  /** `[0-9a-f]{n}` matches all of s. */
  predicate IsHex(s: string, n: nat) {
    |s| == n && forall i | 0 <= i < |s| :: IsHexDigit(s[i])
  }

  /** `[\w-]+/[\w.-]+` matches all of s, where word is the class \w. */
  predicate IsRepository(s: string, word: char -> bool) {
    var parts := SplitOn(s, '/');
    && |parts| == 2 && parts[0] != "" && parts[1] != ""
    && (forall i | 0 <= i < |parts[0]| :: word(parts[0][i]) || parts[0][i] == '-')
    && (forall i | 0 <= i < |parts[1]| :: word(parts[1][i]) || parts[1][i] == '.' || parts[1][i] == '-')
  }

  predicate HeaderOk(m: Manifest, word: char -> bool) {
    && m.version == Some(1) && IsRepository(m.repository, word) && IsHex(m.revision, 40)
    && RelativePath(m.cache).Some? && RelativePath(m.language).Some?
  }

  predicate EntryOk(m: Manifest, e: Entry) {
    && RelativePath(e.path).Some? && m.language + "/" <= e.path
    && e.size.Some? && e.size.value >= 0 && IsHex(e.sha256, 64)
  }

  /** What an accepted manifest promises. */
  predicate Valid(m: Manifest, word: char -> bool) {
    && HeaderOk(m, word) && m.files != []
    && (forall i | 0 <= i < |m.files| :: EntryOk(m, m.files[i]))
    && (forall i, j | 0 <= i < j < |m.files| :: m.files[i].path != m.files[j].path)
  }

  /** The checks before the loop, in order. */
  function HeaderProblem(m: Manifest, word: char -> bool): Option<Problem> {
    if m.version != Some(1) then Some(Unsupported)
    else if !IsRepository(m.repository, word) then Some(BadRepository)
    else if !IsHex(m.revision, 40) then Some(NoCommit)
    else if RelativePath(m.cache).None? then Some(BadPath(m.cache))
    else if RelativePath(m.language).None? then Some(BadPath(m.language))
    else None
  }

  /** The first check that fails is reported. */
  lemma HeaderProblemExact(m: Manifest, word: char -> bool)
    ensures HeaderProblem(m, word).None? <==> HeaderOk(m, word)
    ensures HeaderProblem(m, word) == Some(Unsupported) <==> m.version != Some(1)
    ensures HeaderProblem(m, word) == Some(BadRepository) <==> m.version == Some(1) && !IsRepository(m.repository, word)
    ensures HeaderProblem(m, word) == Some(NoCommit) <==>
            m.version == Some(1) && IsRepository(m.repository, word) && !IsHex(m.revision, 40)
    ensures HeaderProblem(m, word).Some? && HeaderProblem(m, word).value.BadPath? ==>
              RelativePath(HeaderProblem(m, word).value.path).None? && HeaderProblem(m, word).value.path in [m.cache, m.language]
  {
  }

  /** A problem of one entry. */
  predicate EntryProblem(problem: Problem) {
    problem.BadPath? || problem.Unexpected? || problem.BadSize? || problem.BadChecksum?
  }

  /** The body of the loop: entry is accepted exactly if it is in order and new. */
  method CheckEntry(m: Manifest, entry: Entry, seen: set<string>) returns (problem: Option<Problem>)
    ensures problem.None? <==> EntryOk(m, entry) && entry.path !in seen
    ensures problem == Some(BadPath(entry.path)) <==> RelativePath(entry.path).None?
    ensures problem == Some(Unexpected(entry.path)) <==>
            RelativePath(entry.path).Some? && (entry.path in seen || !(m.language + "/" <= entry.path))
    ensures problem == Some(BadChecksum(entry.path)) <==>
            !IsHex(entry.sha256, 64) && EntryOk(m, entry.(sha256 := seq(64, _ => '0'))) && entry.path !in seen
    ensures problem.Some? ==> EntryProblem(problem.value)
  {
    if RelativePath(entry.path).None? {
      return Some(BadPath(entry.path));
    }
    if entry.path in seen || !(m.language + "/" <= entry.path) {
      return Some(Unexpected(entry.path));
    }
    if entry.size.None? || entry.size.value < 0 {
      return Some(BadSize(entry.path));
    }
    if !IsHex(entry.sha256, 64) {
      return Some(BadChecksum(entry.path));
    }
    return None;
  }

  function PathsOf(files: seq<Entry>): set<string> {
    set e | e in files :: e.path
  }

  /** The entries of a list are in order and new, one after the other. */
  ghost predicate InOrder(m: Manifest, files: seq<Entry>) {
    files == [] || (InOrder(m, files[..|files| - 1]) && EntryOk(m, files[|files| - 1])
                    && files[|files| - 1].path !in PathsOf(files[..|files| - 1]))
  }

  lemma {:induction false} InOrderMeans(m: Manifest, files: seq<Entry>)
    ensures InOrder(m, files) <==> (forall i | 0 <= i < |files| :: EntryOk(m, files[i]))
                                   && forall i, j | 0 <= i < j < |files| :: files[i].path != files[j].path
  {
    if files != [] {
      var last, before := files[|files| - 1], files[..|files| - 1];
      InOrderMeans(m, before);
      assert files == before + [last];
      AllInOrder(m, before, last);
      AllNew(before, last);
    }
  }

  lemma AllInOrder(m: Manifest, before: seq<Entry>, last: Entry)
    ensures var s := before + [last];
            (forall i | 0 <= i < |s| :: EntryOk(m, s[i])) <==> (forall i | 0 <= i < |before| :: EntryOk(m, before[i])) && EntryOk(m, last)
  {
    var s := before + [last];
    assert s[|before|] == last && forall i | 0 <= i < |before| :: s[i] == before[i];
  }

  lemma AllNew(before: seq<Entry>, last: Entry)
    ensures var s := before + [last];
            (forall i, j | 0 <= i < j < |s| :: s[i].path != s[j].path)
            <==> (forall i, j | 0 <= i < j < |before| :: before[i].path != before[j].path) && last.path !in PathsOf(before)
  {
    var s := before + [last];
    assert s[|before|] == last && forall i | 0 <= i < |before| :: s[i] == before[i];
    assert last.path in PathsOf(before) <==> exists i :: 0 <= i < |before| && before[i].path == last.path;
  }

  lemma {:induction false} InOrderPrefix(m: Manifest, files: seq<Entry>, i: nat)
    requires i <= |files| && InOrder(m, files)
    ensures InOrder(m, files[..i])
    decreases |files|
  {
    if i < |files| {
      InOrderPrefix(m, files[..|files| - 1], i);
      assert files[..|files| - 1][..i] == files[..i];
    } else {
      assert files[..i] == files;
    }
  }

  /** `load_manifest`; None means the manifest is returned. It is accepted exactly if it is valid. */
  method LoadManifest(m: Manifest, word: char -> bool) returns (problem: Option<Problem>)
    ensures problem.None? <==> Valid(m, word)
    ensures m.files == [] && HeaderOk(m, word) ==> problem == Some(NoAssets)
    ensures HeaderProblem(m, word).Some? ==> problem == HeaderProblem(m, word)
    ensures HeaderProblem(m, word).None? && problem.Some? ==> EntryProblem(problem.value) || problem.value.NoAssets?
  {
    InOrderMeans(m, m.files);
    problem := HeaderProblem(m, word);
    if problem.Some? {
      return;
    }
    var seen: set<string> := {};
    for i := 0 to |m.files|
      invariant seen == PathsOf(m.files[..i]) && InOrder(m, m.files[..i])
      invariant i > 0 ==> seen != {}
    {
      var entry := m.files[i];
      problem := CheckEntry(m, entry, seen);
      NextEntry(m, i);
      if problem.Some? {
        return;
      }
      seen := seen + {entry.path};
    }
    assert m.files[..|m.files|] == m.files;
    problem := if seen == {} then Some(NoAssets) else None;
  }

  lemma NextEntry(m: Manifest, i: nat)
    requires i < |m.files|
    ensures PathsOf(m.files[..i + 1]) == PathsOf(m.files[..i]) + {m.files[i].path}
    ensures InOrder(m, m.files[..i + 1]) <==>
            InOrder(m, m.files[..i]) && EntryOk(m, m.files[i]) && m.files[i].path !in PathsOf(m.files[..i])
    ensures InOrder(m, m.files) ==> InOrder(m, m.files[..i + 1])
  {
    var now, next := m.files[..i], m.files[..i + 1];
    assert next[..|next| - 1] == now && next == now + [m.files[i]];
    assert m.files[i] in next && forall e | e in now :: e in next;
    if InOrder(m, m.files) {
      InOrderPrefix(m, m.files, i + 1);
    }
  }

  // ---------- where the assets go ----------

  /** `asset_path`, with paths kept lexical. */
  function AssetPath(destination: Path, m: Manifest, e: Entry): Path {
    destination + Parts(m.cache) + Parts(e.path)
  }

  lemma {:induction false} SplitOfPrefix(a: string, b: string, c: char)
    ensures |SplitOn(a + [c] + b, c)| >= 2
  {
    if a == "" {
      assert "" + [c] + b == [c] + b && ([c] + b)[1..] == b;
    } else {
      assert (a + [c] + b)[1..] == a[1..] + [c] + b;
      SplitOfPrefix(a[1..], b, c);
    }
  }

  /** An asset lies in a folder below the cache folder, so it is never a file at its top. */
  lemma AssetIsDeep(m: Manifest, e: Entry)
    requires EntryOk(m, e)
    ensures |Parts(e.path)| >= 2
  {
    var rest := e.path[|m.language| + 1..];
    assert e.path == m.language + "/" + rest;
    SplitOfPrefix(m.language, rest, '/');
    assert e.path[|m.language|] == '/';
    AcceptedAreNames(e.path);
  }

  /** Different entries of a valid manifest have different places, none of them that of manifest.json. */
  lemma AssetsDistinct(destination: Path, m: Manifest, word: char -> bool, i: nat, j: nat)
    requires Valid(m, word) && i < |m.files| && j < |m.files|
    ensures AssetPath(destination, m, m.files[i]) == AssetPath(destination, m, m.files[j]) <==> i == j
    ensures |AssetPath(destination, m, m.files[i])| >= |destination| + 2
  {
    var a, b := m.files[i], m.files[j];
    AssetIsDeep(m, a);
    var prefix := destination + Parts(m.cache);
    if AssetPath(destination, m, a) == AssetPath(destination, m, b) {
      assert (prefix + Parts(a.path))[|prefix|..] == Parts(a.path);
      assert (prefix + Parts(b.path))[|prefix|..] == Parts(b.path);
      PartsDetermine(a.path, b.path);
    }
  }

  // ---------- what is accepted, in characters ----------

  const HEX := "0123456789abcdef"

  lemma HexDigitsAre(c: char)
    ensures c in HEX <==> IsHexDigit(c)
  {
    if '0' <= c <= '9' {
      assert HEX[c as int - '0' as int] == c;
    } else if 'a' <= c <= 'f' {
      assert HEX[10 + c as int - 'a' as int] == c;
    }
  }

  lemma HexExact(s: string, n: nat)
    ensures IsHex(s, n) <==> |s| == n && forall i | 0 <= i < |s| :: s[i] in HEX
  {
    forall i | 0 <= i < |s|
      ensures s[i] in HEX <==> IsHexDigit(s[i])
    {
      HexDigitsAre(s[i]);
    }
  }

  /** An owner and a name around one slash. */
  predicate RepositoryText(s: string, owner: string, name: string, word: char -> bool) {
    && s == owner + "/" + name && owner != "" && name != ""
    && (forall i | 0 <= i < |owner| :: word(owner[i]) || owner[i] == '-')
    && (forall i | 0 <= i < |name| :: word(name[i]) || name[i] == '.' || name[i] == '-')
  }

  lemma RepositoryExact(s: string, word: char -> bool)
    requires !word('/')
    ensures IsRepository(s, word) <==> exists owner: string, name: string :: RepositoryText(s, owner, name, word)
  {
    if IsRepository(s, word) {
      var parts := SplitOn(s, '/');
      JoinOfSplit(s, '/');
      assert parts[1..] == [parts[1]];
      assert RepositoryText(s, parts[0], parts[1], word);
    }
    if owner: string, name: string :| RepositoryText(s, owner, name, word) {
      SplitFirst(owner, '/', name);
      SplitPlain(name, '/');
      assert SplitOn(s, '/') == [owner, name];
    }
  }

  predicate PathText(value: string) {
    value == "." || forall i | 0 <= i < |SplitOn(value, '/')| :: SplitOn(value, '/')[i] !in ["", ".", ".."]
  }

  lemma PathExact(value: string)
    ensures RelativePath(value).Some? <==> PathText(value)
  {
    RelativePathExact(value);
    var parts := SplitOn(value, '/');
    forall i | 0 <= i < |parts|
      ensures parts[i] in parts
    {
    }
  }

  /** An entry lies in the language folder, has a size, and a checksum of 64 digits. */
  predicate EntryText(m: Manifest, e: Entry) {
    && PathText(e.path) && m.language + "/" <= e.path && e.size.Some? && e.size.value >= 0
    && |e.sha256| == 64 && forall i | 0 <= i < |e.sha256| :: e.sha256[i] in HEX
  }

  /** Version 1, a repository, a commit of 40 digits, and two folders. */
  ghost predicate HeaderText(m: Manifest, word: char -> bool) {
    && m.version == Some(1) && (exists owner: string, name: string :: RepositoryText(m.repository, owner, name, word))
    && |m.revision| == 40 && (forall i | 0 <= i < |m.revision| :: m.revision[i] in HEX)
    && PathText(m.cache) && PathText(m.language)
  }

  lemma HeaderExact(m: Manifest, word: char -> bool)
    requires !word('/')
    ensures HeaderOk(m, word) <==> HeaderText(m, word)
  {
    RepositoryExact(m.repository, word);
    HexExact(m.revision, 40);
    PathExact(m.cache);
    PathExact(m.language);
  }

  lemma EntryExact(m: Manifest, e: Entry)
    ensures EntryOk(m, e) <==> EntryText(m, e)
  {
    PathExact(e.path);
    HexExact(e.sha256, 64);
  }

  /** The accepted manifests, character by character. */
  lemma ValidExact(m: Manifest, word: char -> bool)
    requires !word('/')
    ensures Valid(m, word) <==>
              && HeaderText(m, word) && m.files != [] && (forall i | 0 <= i < |m.files| :: EntryText(m, m.files[i]))
              && forall i, j | 0 <= i < j < |m.files| :: m.files[i].path != m.files[j].path
  {
    HeaderExact(m, word);
    forall i | 0 <= i < |m.files|
      ensures EntryOk(m, m.files[i]) <==> EntryText(m, m.files[i])
    {
      EntryExact(m, m.files[i]);
    }
  }
}
