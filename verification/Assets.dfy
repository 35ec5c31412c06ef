/** `fetch_assets` and `verify_assets` of scripts/fetch_pocket_tts.py. */
module Assets {
  import opened Text
  import opened Paths
  import opened Fetch
  import opened Download

  datatype Asset = Asset(path: Path, pin: Pin)

  /** What the network and the folder give one call of `fetch_file`. */
  datatype Supply = Supply(folder: bool, responses: nat -> Response)

  /** What the loop depends on besides the files. */
  datatype World = World(assets: seq<Asset>, supplies: nat -> Supply, sha: Bytes -> string, links: set<Path>) {
    predicate Named() {
      forall i | 0 <= i < |assets| :: assets[i].path != []
    }

    predicate Distinct() {
      forall i, j | 0 <= i < j < |assets| :: assets[i].path != assets[j].path
    }

    /** The temporary file of asset j is asset i. */
    predicate Clash(j: nat, i: nat)
      requires Named() && j < |assets| && i < |assets|
    {
      Partial(assets[j].path) == assets[i].path
    }

    predicate Has(files: Files, i: nat)
      requires i < |assets|
    {
      Verified(files, assets[i].path, assets[i].pin, sha)
    }

    /** `verify_assets` succeeds. */
    predicate HasAll(files: Files) {
      forall i | 0 <= i < |assets| :: Has(files, i)
    }

    /** `fetch_file` for asset i, with its default of three attempts. */
    function Fetch(i: nat): Plan
      requires Named() && i < |assets|
    {
      FetchFilePlan(supplies(i).responses, 3, assets[i].path, assets[i].pin, sha, supplies(i).folder, links)
    }

    function AfterFetch(files: Files, i: nat): Files
      requires Named() && i < |assets|
    {
      After(files, assets[i].path, Fetch(i).outcome)
    }
  }

  /** The files, the number of downloads, and the failure that ended the loop, if any. */
  datatype Run = Run(files: Files, downloaded: nat, failure: Option<Outcome>)

  /** The loop over the manifest from the k-th entry on. */
  function FetchAll(w: World, files: Files, k: nat): Run
    requires w.Named() && k <= |w.assets|
    decreases |w.assets| - k
  {
    if k == |w.assets| then Run(files, 0, None)
    else if w.Has(files, k) then FetchAll(w, files, k + 1)
    else if !w.Fetch(k).outcome.Fetched? then Run(w.AfterFetch(files, k), 0, Some(w.Fetch(k).outcome))
    else
      var rest := FetchAll(w, w.AfterFetch(files, k), k + 1);
      Run(rest.files, 1 + rest.downloaded, rest.failure)
  }

  // ---------- one entry ----------

  lemma FetchTouches(w: World, files: Files, k: nat)
    requires w.Named() && k < |w.assets|
    ensures var after := w.AfterFetch(files, k);
            && (forall q | q != w.assets[k].path && q != Partial(w.assets[k].path) :: Look(after, q) == Look(files, q))
            && (w.Fetch(k).outcome.Fetched? ==> w.Has(after, k) && Partial(w.assets[k].path) !in after)
            && !w.Fetch(k).outcome.Nothing?
  {
    var a, s := w.assets[k], w.supplies(k);
    InstallSafety(files, s.responses, 3, a.path, a.pin, w.sha, s.folder, w.links);
  }

  /** The last request for asset k was denied. */
  predicate DeniedLast(w: World, k: nat)
    requires w.Named() && k < |w.assets|
  {
    && w.Fetch(k).requests > 0
    && var last := Try(w.supplies(k).responses(w.Fetch(k).requests - 1), w.assets[k].pin, w.sha);
       last.Faulted? && last.fault in {Http(401), Http(403), Http(404)}
  }

  /** Each asset is requested at most three times, with waits of one and two seconds. */
  lemma FetchIsBounded(w: World, k: nat)
    requires w.Named() && k < |w.assets|
    ensures w.Fetch(k).requests <= 3 && w.Fetch(k).slept <= 3
    ensures w.Fetch(k).outcome.Failed? ==> w.Fetch(k).requests == 3 || DeniedLast(w, k)
  {
    RetryArithmetic(w.supplies(k).responses, 3, w.assets[k].pin, w.sha);
    assert Pow2(1) == 2 && Pow2(2) == 4;
  }

  lemma SameLook(w: World, before: Files, after: Files, i: nat)
    requires i < |w.assets| && Look(before, w.assets[i].path) == Look(after, w.assets[i].path)
    ensures w.Has(before, i) <==> w.Has(after, i)
  {
  }

  // ---------- what a run leaves ----------

  /** A verified asset stays verified unless it is the temporary file of one still to be fetched. */
  lemma {:induction false} StaysVerified(w: World, files: Files, k: nat, i: nat)
    requires w.Named() && w.Distinct() && k <= |w.assets| && i < |w.assets| && w.Has(files, i)
    requires forall j: nat | k <= j < |w.assets| && j != i :: !w.Clash(j, i)
    ensures w.Has(FetchAll(w, files, k).files, i)
    decreases |w.assets| - k
  {
    if k < |w.assets| {
      if w.Has(files, k) {
        StaysVerified(w, files, k + 1, i);
      } else {
        var after := w.AfterFetch(files, k);
        FetchTouches(w, files, k);
        assert !w.Clash(k, i);
        SameLook(w, files, after, i);
        if w.Fetch(k).outcome.Fetched? {
          StaysVerified(w, after, k + 1, i);
        }
      }
    }
  }

  /** Asset j is fetched by the loop from the k-th entry on: it does not verify before, or it is the
      temporary file of one fetched earlier. */
  predicate Due(w: World, files: Files, k: nat, j: nat)
    requires w.Named() && k <= j < |w.assets|
  {
    !w.Has(files, j) || exists c: nat :: k <= c < j && w.Clash(c, j) && Due(w, files, k, c)
  }

  function Next(w: World, files: Files, k: nat): Files
    requires w.Named() && k < |w.assets|
  {
    if w.Has(files, k) then files else w.AfterFetch(files, k)
  }

  /** What the turn of asset k does to another asset. */
  lemma TurnHas(w: World, files: Files, k: nat, i: nat)
    requires w.Named() && w.Distinct() && k < |w.assets| && i < |w.assets| && i != k
    requires FetchAll(w, files, k).failure.None?
    ensures w.Has(Next(w, files, k), i) <==> w.Has(files, i) && !(w.Clash(k, i) && !w.Has(files, k))
  {
    if !w.Has(files, k) {
      FetchTouches(w, files, k);
      assert w.assets[i].path != w.assets[k].path;
      if !w.Clash(k, i) {
        SameLook(w, files, w.AfterFetch(files, k), i);
      }
    }
  }

  lemma {:induction false} DueNext(w: World, files: Files, k: nat, j: nat)
    requires w.Named() && w.Distinct() && k < j < |w.assets| && FetchAll(w, files, k).failure.None?
    ensures Due(w, files, k, j) <==> Due(w, Next(w, files, k), k + 1, j)
    decreases j
  {
    TurnHas(w, files, k, j);
    assert Due(w, files, k, k) <==> !w.Has(files, k);
    forall c: nat | k < c < j
      ensures Due(w, files, k, c) <==> Due(w, Next(w, files, k), k + 1, c)
    {
      DueNext(w, files, k, c);
    }
  }

  /** Asset i survives the loop from the k-th entry on. */
  ghost predicate Survives(w: World, files: Files, k: nat, i: nat)
    requires w.Named() && i < |w.assets|
  {
    forall j: nat | k <= j < |w.assets| && i < j && w.Clash(j, i) :: !Due(w, files, k, j)
  }

  lemma SurvivesNext(w: World, files: Files, k: nat, i: nat)
    requires w.Named() && w.Distinct() && k < |w.assets| && i < |w.assets| && FetchAll(w, files, k).failure.None?
    ensures Survives(w, files, k, i) <==>
            Survives(w, Next(w, files, k), k + 1, i) && (i < k && w.Clash(k, i) ==> w.Has(files, k))
  {
    assert Due(w, files, k, k) <==> !w.Has(files, k);
    forall j: nat | k < j < |w.assets|
      ensures Due(w, files, k, j) <==> Due(w, Next(w, files, k), k + 1, j)
    {
      DueNext(w, files, k, j);
    }
  }

  lemma {:induction false} EndsVerified(w: World, files: Files, k: nat, i: nat)
    requires w.Named() && w.Distinct() && k <= |w.assets| && i < |w.assets| && FetchAll(w, files, k).failure.None?
    ensures w.Has(FetchAll(w, files, k).files, i) <==> (k <= i || w.Has(files, i)) && Survives(w, files, k, i)
    decreases |w.assets| - k
  {
    if k < |w.assets| {
      FetchTouches(w, files, k);
      EndsVerified(w, Next(w, files, k), k + 1, i);
      SurvivesNext(w, files, k, i);
      if i != k {
        TurnHas(w, files, k, i);
      }
    }
  }

  /** From any disk, a run that returns normally leaves every asset verified exactly if no asset is the
      temporary file of a later one that had to be fetched. */
  lemma RunExact(w: World, files: Files)
    requires w.Named() && w.Distinct() && FetchAll(w, files, 0).failure.None?
    ensures w.HasAll(FetchAll(w, files, 0).files)
            <==> forall i: nat, j: nat | i < j < |w.assets| && w.Clash(j, i) :: !Due(w, files, 0, j)
  {
    var after := FetchAll(w, files, 0).files;
    forall i: nat | i < |w.assets|
      ensures w.Has(after, i) <==> Survives(w, files, 0, i)
    {
      EndsVerified(w, files, 0, i);
    }
    if w.HasAll(after) {
      forall i: nat, j: nat | i < j < |w.assets| && w.Clash(j, i)
        ensures !Due(w, files, 0, j)
      {
        assert w.Has(after, i) && Survives(w, files, 0, i);
      }
    } else {
      var i :| 0 <= i < |w.assets| && !w.Has(after, i);
      assert !Survives(w, files, 0, i);
    }
  }

  /** A normal return leaves every asset verified, provided none is the temporary file of a later one. */
  lemma FetchedAll(w: World, files: Files)
    requires w.Named() && w.Distinct() && FetchAll(w, files, 0).failure.None?
    requires forall i: nat, j: nat | i < j < |w.assets| :: !w.Clash(j, i)
    ensures w.HasAll(FetchAll(w, files, 0).files)
  {
    RunExact(w, files);
  }

  /** A missing asset stays missing until its own turn. */
  lemma {:induction false} StaysAbsent(w: World, files: Files, k: nat, i: nat)
    requires w.Named() && w.Distinct() && i < k <= |w.assets| && w.assets[i].path !in files
    ensures w.assets[i].path !in FetchAll(w, files, k).files
    decreases |w.assets| - k
  {
    if k < |w.assets| {
      if w.Has(files, k) {
        StaysAbsent(w, files, k + 1, i);
      } else {
        AbsentAfter(w, files, k, i);
        if w.Fetch(k).outcome.Fetched? {
          StaysAbsent(w, w.AfterFetch(files, k), k + 1, i);
        }
      }
    }
  }

  lemma AbsentAfter(w: World, files: Files, k: nat, q: nat)
    requires w.Named() && w.Distinct() && k < |w.assets| && q < |w.assets| && q != k && w.assets[q].path !in files
    ensures w.assets[q].path !in w.AfterFetch(files, k)
  {
    assert w.assets[q].path != w.assets[k].path;
  }

  /** Fetching an asset destroys an earlier one that is its temporary file. */
  lemma {:induction false} ClashDestroys(w: World, files: Files, k: nat, i: nat, j: nat)
    requires w.Named() && w.Distinct() && k <= j < |w.assets| && i < j && w.Clash(j, i)
    requires w.assets[j].path !in files && FetchAll(w, files, k).failure.None?
    ensures w.assets[i].path !in FetchAll(w, files, k).files
    decreases |w.assets| - k
  {
    if k < j {
      if w.Has(files, k) {
        ClashDestroys(w, files, k + 1, i, j);
      } else {
        AbsentAfter(w, files, k, j);
        ClashDestroys(w, w.AfterFetch(files, k), k + 1, i, j);
      }
    } else {
      FetchTouches(w, files, k);
      StaysAbsent(w, w.AfterFetch(files, k), k + 1, i);
    }
  }

  /** On an empty disk, a run that returns normally leaves every asset verified exactly if no asset is
      the temporary file of a later one. */
  lemma FirstRunExact(w: World)
    requires w.Named() && w.Distinct() && FetchAll(w, map[], 0).failure.None?
    ensures w.HasAll(FetchAll(w, map[], 0).files) <==> forall i: nat, j: nat | i < j < |w.assets| :: !w.Clash(j, i)
  {
    RunExact(w, map[]);
    forall j: nat | j < |w.assets|
      ensures Due(w, map[], 0, j)
    {
    }
  }

  /** A run on a network that supplies every asset returns normally. */
  lemma {:induction false} SuppliedRun(w: World, files: Files, k: nat)
    requires w.Named() && k <= |w.assets|
    requires forall i: nat | i < |w.assets| :: w.Fetch(i).outcome.Fetched?
    ensures FetchAll(w, files, k).failure.None?
    decreases |w.assets| - k
  {
    if k < |w.assets| {
      SuppliedRun(w, if w.Has(files, k) then files else w.AfterFetch(files, k), k + 1);
    }
  }

  /** A clash and such a network together lose an asset on an empty disk. */
  lemma ClashLoses(w: World, i: nat, j: nat)
    requires w.Named() && w.Distinct() && i < j < |w.assets| && w.Clash(j, i)
    requires forall k: nat | k < |w.assets| :: w.Fetch(k).outcome.Fetched?
    ensures FetchAll(w, map[], 0).failure.None? && !w.HasAll(FetchAll(w, map[], 0).files)
  {
    SuppliedRun(w, map[], 0);
    FirstRunExact(w);
  }

  // ---------- how much is downloaded ----------

  /** No asset is the temporary file of another. */
  ghost predicate NoClash(w: World)
    requires w.Named()
  {
    w.Distinct() && forall i: nat, j: nat | i < |w.assets| && j < |w.assets| && i != j :: !w.Clash(j, i)
  }

  /** The entries from the k-th on that do not verify. */
  function Missing(w: World, files: Files, k: nat): nat
    requires k <= |w.assets|
    decreases |w.assets| - k
  {
    if k == |w.assets| then 0 else (if w.Has(files, k) then 0 else 1) + Missing(w, files, k + 1)
  }

  lemma {:induction false} MissingSame(w: World, before: Files, after: Files, k: nat)
    requires k <= |w.assets| && forall i | k <= i < |w.assets| :: Look(before, w.assets[i].path) == Look(after, w.assets[i].path)
    ensures Missing(w, before, k) == Missing(w, after, k)
    decreases |w.assets| - k
  {
    if k < |w.assets| {
      SameLook(w, before, after, k);
      MissingSame(w, before, after, k + 1);
    }
  }

  lemma OthersUntouched(w: World, files: Files, k: nat)
    requires w.Named() && NoClash(w) && k < |w.assets|
    ensures forall i: nat | i < |w.assets| && i != k :: Look(files, w.assets[i].path) == Look(w.AfterFetch(files, k), w.assets[i].path)
  {
    FetchTouches(w, files, k);
    forall i: nat | i < |w.assets| && i != k
      ensures Look(files, w.assets[i].path) == Look(w.AfterFetch(files, k), w.assets[i].path)
    {
      assert !w.Clash(k, i);
    }
  }

  /** A normal run downloads exactly the entries that did not verify. */
  lemma {:induction false} DownloadsMissing(w: World, files: Files, k: nat)
    requires w.Named() && NoClash(w) && k <= |w.assets| && FetchAll(w, files, k).failure.None?
    ensures FetchAll(w, files, k).downloaded == Missing(w, files, k)
    decreases |w.assets| - k
  {
    if k < |w.assets| {
      if w.Has(files, k) {
        DownloadsMissing(w, files, k + 1);
      } else {
        OthersUntouched(w, files, k);
        MissingSame(w, files, w.AfterFetch(files, k), k + 1);
        DownloadsMissing(w, w.AfterFetch(files, k), k + 1);
      }
    }
  }

  lemma {:induction false} NothingMissing(w: World, files: Files, k: nat)
    requires w.Named() && k <= |w.assets| && w.HasAll(files)
    ensures FetchAll(w, files, k) == Run(files, 0, None)
    decreases |w.assets| - k
  {
    if k < |w.assets| {
      NothingMissing(w, files, k + 1);
    }
  }

  /** Whatever its network does, a second run downloads nothing and changes no file. */
  lemma SecondRunIdle(w: World, files: Files, later: nat -> Supply)
    requires w.Named() && NoClash(w) && FetchAll(w, files, 0).failure.None?
    ensures var after := FetchAll(w, files, 0).files;
            FetchAll(w.(supplies := later), after, 0) == Run(after, 0, None)
  {
    FetchedAll(w, files);
    var after := FetchAll(w, files, 0).files;
    var v := w.(supplies := later);
    assert v.HasAll(after) by {
      forall i | 0 <= i < |v.assets|
        ensures v.Has(after, i)
      {
        assert w.Has(after, i);
      }
    }
    NothingMissing(v, after, 0);
  }

  // ---------- the program, stopped at any moment ----------

  /** manifest.json and its temporary file are none of the assets' files. */
  ghost predicate Apart(w: World, installed: Path, temporary: Path)
    requires w.Named()
  {
    && installed != temporary
    && forall i: nat | i < |w.assets| ::
         w.assets[i].path != installed && w.assets[i].path != temporary && Partial(w.assets[i].path) != installed
  }

  /** No asset has become unverified, and manifest.json is as it was. */
  ghost predicate Keeps(w: World, before: Files, now: Files, installed: Path) {
    (forall i: nat | i < |w.assets| && w.Has(before, i) :: w.Has(now, i)) && Look(now, installed) == Look(before, installed)
  }

  /** No asset has become unverified, and manifest.json has changed only if all assets verify. */
  ghost predicate Steady(w: World, before: Files, now: Files, installed: Path) {
    && (forall i: nat | i < |w.assets| && w.Has(before, i) :: w.Has(now, i))
    && (Look(now, installed) == Look(before, installed) || w.HasAll(now))
  }

  ghost predicate Sound(w: World, installed: Path, temporary: Path)
    requires w.Named()
  {
    NoClash(w) && Apart(w, installed, temporary)
  }

  /** While asset k is fetched, no other asset and not manifest.json is touched. */
  lemma FetchKeeps(w: World, before: Files, now: Files, h: Files, k: nat, installed: Path, temporary: Path)
    requires w.Named() && Sound(w, installed, temporary) && k < |w.assets| && !w.Has(now, k)
    requires Keeps(w, before, now, installed) && Safe(now, h, w.assets[k].path, w.assets[k].pin, w.sha)
    ensures Keeps(w, before, h, installed)
  {
    forall i: nat | i < |w.assets| && w.Has(before, i)
      ensures w.Has(h, i)
    {
      assert w.Has(now, i) && i != k && !w.Clash(k, i);
      SameLook(w, now, h, i);
    }
  }

  datatype Result = Ready(downloaded: nat) | Aborted(outcome: Outcome) | NotInstalled

  ghost predicate KeptSince(w: World, mark: nat, before: Files, disk: Disk, installed: Path)
    reads disk
  {
    mark <= |disk.history| && forall i | mark <= i < |disk.history| :: Keeps(w, before, disk.history[i], installed)
  }

  /** `verify_assets`; the index is that of the first asset that fails. */
  method VerifyAssets(disk: Disk, w: World) returns (bad: Option<nat>)
    requires w.sha == disk.sha
    ensures bad.None? <==> w.HasAll(disk.files)
    ensures bad.Some? ==> bad.value < |w.assets| && !w.Has(disk.files, bad.value) && forall i | 0 <= i < bad.value :: w.Has(disk.files, i)
  {
    for i := 0 to |w.assets|
      invariant forall k | 0 <= k < i :: w.Has(disk.files, k)
    {
      if !Verified(disk.files, w.assets[i].path, w.assets[i].pin, disk.sha) {
        assert !w.Has(disk.files, i);
        return Some(i);
      }
    }
    return None;
  }

  /** One turn of the loop of `fetch_assets`: asset k does not verify and is fetched. */
  method FetchNext(disk: Disk, w: World, k: nat, ghost before: Files, ghost mark: nat, ghost installed: Path, ghost temporary: Path)
    returns (outcome: Outcome)
    requires w.Named() && w.sha == disk.sha && w.links == disk.links && k < |w.assets| && !w.Has(disk.files, k)
    requires Sound(w, installed, temporary) ==>
               Keeps(w, before, disk.files, installed) && KeptSince(w, mark, before, disk, installed)
    modifies disk
    ensures outcome == w.Fetch(k).outcome && disk.files == w.AfterFetch(old(disk.files), k)
    ensures old(disk.history) <= disk.history
    ensures Sound(w, installed, temporary) ==>
              Keeps(w, before, disk.files, installed) && KeptSince(w, mark, before, disk, installed)
  {
    var asset, supply := w.assets[k], w.supplies(k);
    ghost var now, last := disk.files, |disk.history|;
    var plan := disk.FetchFile(asset.path, asset.pin, 3, supply.responses, supply.folder);
    outcome := plan.outcome;
    InstallSafety(now, supply.responses, 3, asset.path, asset.pin, disk.sha, supply.folder, disk.links);
    if Sound(w, installed, temporary) {
      FetchKeeps(w, before, now, disk.files, k, installed, temporary);
      forall i | last <= i < |disk.history|
        ensures Keeps(w, before, disk.history[i], installed)
      {
        FetchKeeps(w, before, now, disk.history[i], k, installed, temporary);
      }
    }
  }

  /** The loop of `fetch_assets`. */
  method FetchEach(disk: Disk, w: World, ghost installed: Path, ghost temporary: Path) returns (downloaded: nat, failure: Option<Outcome>)
    requires w.Named() && w.sha == disk.sha && w.links == disk.links
    modifies disk
    ensures Run(disk.files, downloaded, failure) == FetchAll(w, old(disk.files), 0)
    ensures old(disk.history) <= disk.history
    ensures Sound(w, installed, temporary) ==>
              Keeps(w, old(disk.files), disk.files, installed) && KeptSince(w, |old(disk.history)|, old(disk.files), disk, installed)
  {
    ghost var before, mark := disk.files, |disk.history|;
    downloaded := 0;
    for k := 0 to |w.assets|
      invariant var rest := FetchAll(w, disk.files, k);
                FetchAll(w, before, 0) == Run(rest.files, downloaded + rest.downloaded, rest.failure)
      invariant old(disk.history) <= disk.history
      invariant Sound(w, installed, temporary) ==>
                  Keeps(w, before, disk.files, installed) && KeptSince(w, mark, before, disk, installed)
    {
      if !Verified(disk.files, w.assets[k].path, w.assets[k].pin, disk.sha) {
        var outcome := FetchNext(disk, w, k, before, mark, installed, temporary);
        if !outcome.Fetched? {
          return downloaded, Some(outcome);
        }
        downloaded := downloaded + 1;
      }
    }
    return downloaded, None;
  }

  /** `write_text` writes the whole text, or an error ends it after a first part. */
  function Written(text: Bytes, write: Option<nat>): Bytes {
    if write.Some? && write.value < |text| then text[..write.value] else text
  }

  /** `fetch_assets`. The write of the manifest and its replacement may fail; write and replaced say so. */
  method FetchAssets(disk: Disk, w: World, installed: Path, temporary: Path, text: Bytes, write: Option<nat>, replaced: bool)
    returns (result: Result)
    requires w.Named() && w.sha == disk.sha && w.links == disk.links && installed != temporary
    modifies disk
    ensures var run := FetchAll(w, old(disk.files), 0);
            if run.failure.Some? then result == Aborted(run.failure.value) && disk.files == run.files
            else if write.Some? || !replaced then result == NotInstalled && disk.files == run.files[temporary := Written(text, write)]
            else result == Ready(run.downloaded) && disk.files == (run.files - {temporary})[installed := text]
    ensures Sound(w, installed, temporary) ==>
              forall i | |old(disk.history)| <= i < |disk.history| :: Steady(w, old(disk.files), disk.history[i], installed)
    ensures Sound(w, installed, temporary) && result.Ready? ==> w.HasAll(disk.files)
  {
    ghost var before, mark := disk.files, |disk.history|;
    var downloaded, failure := FetchEach(disk, w, installed, temporary);
    if failure.Some? {
      return Aborted(failure.value);
    }
    ghost var fetched := disk.files;
    if Sound(w, installed, temporary) {
      FetchedAll(w, before);
      ManifestTouches(w, fetched, installed, temporary, [], text);
      ManifestTouches(w, fetched, installed, temporary, Written(text, write), text);
    }
    disk.Write(temporary, []);
    disk.Write(temporary, Written(text, write));
    if write.Some? || !replaced {
      return NotInstalled;
    }
    disk.Replace(temporary, installed);
    assert disk.files == (fetched - {temporary})[installed := text];
    return Ready(downloaded);
  }

  lemma HasAllStays(w: World, before: Files, after: Files)
    requires w.HasAll(before)
    requires forall i: nat | i < |w.assets| :: Look(after, w.assets[i].path) == Look(before, w.assets[i].path)
    ensures w.HasAll(after)
  {
    forall i | 0 <= i < |w.assets|
      ensures w.Has(after, i)
    {
      SameLook(w, before, after, i);
    }
  }

  /** Writing and replacing manifest.json touches no asset. */
  lemma ManifestTouches(w: World, files: Files, installed: Path, temporary: Path, part: Bytes, text: Bytes)
    requires w.Named() && Apart(w, installed, temporary) && w.HasAll(files)
    ensures w.HasAll(files[temporary := part]) && w.HasAll(files[temporary := []][temporary := part])
    ensures w.HasAll((files - {temporary})[installed := text])
  {
    HasAllStays(w, files, files[temporary := part]);
    HasAllStays(w, files, files[temporary := []][temporary := part]);
    HasAllStays(w, files, (files - {temporary})[installed := text]);
  }
}
