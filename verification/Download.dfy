/** `fetch_file` of scripts/fetch_pocket_tts.py on a disk that may be read after every write. */
module Download {
  import opened Text
  import opened Paths
  import opened Fetch

  function Look(files: Files, path: Path): Option<Bytes> {
    if path in files then Some(files[path]) else None
  }

  /** The files after `fetch_file`. */
  function After(files: Files, path: Path, outcome: Outcome): Files
    requires path != []
  {
    match outcome
    case Fetched(bytes) => (files - {Partial(path)})[path := bytes]
    case LinkError | FolderError => files
    case _ => files - {Partial(path)}
  }

  function FetchFilePlan(responses: nat -> Response, attempts: int, path: Path, pin: Pin, sha: Bytes -> string,
                         folder: bool, links: set<Path>): Plan
    requires path != []
  {
    if !folder then Plan(FolderError, 0, 0)
    else if Partial(path) in links then Plan(LinkError, 0, 0)
    else Attempts(responses, attempts, 0, pin, sha)
  }

  /** Nothing but the temporary file has changed, and it never outgrows the pinned size. */
  ghost predicate Pending(before: Files, now: Files, path: Path, pin: Pin)
    requires path != []
  {
    && (forall q | q != Partial(path) :: Look(now, q) == Look(before, q))
    && (Look(now, Partial(path)) == Look(before, Partial(path)) || Small(now, Partial(path), pin))
  }

  predicate Small(files: Files, path: Path, pin: Pin) {
    path in files ==> |files[path]| <= pin.size
  }

  /** What a reader may find at any moment: the destination holds its prior bytes or bytes that match
      the pin, other files are untouched, and the temporary file never outgrows the pinned size. */
  ghost predicate Safe(before: Files, now: Files, path: Path, pin: Pin, sha: Bytes -> string)
    requires path != []
  {
    && (forall q | q != Partial(path) && q != path :: Look(now, q) == Look(before, q))
    && (Look(now, path) == Look(before, path) || Verified(now, path, pin, sha))
    && (Look(now, Partial(path)) == Look(before, Partial(path)) || Small(now, Partial(path), pin))
  }

  class Disk {
    const sha: Bytes -> string
    const links: set<Path>
    var files: Files
    ghost var history: seq<Files>

    constructor (sha: Bytes -> string, links: set<Path>, files: Files)
      ensures this.sha == sha && this.links == links && this.files == files && history == []
    {
      this.sha := sha;
      this.links := links;
      this.files := files;
      history := [];
    }

    method Write(path: Path, bytes: Bytes)
      modifies this
      ensures files == old(files)[path := bytes] && history == old(history) + [files]
    {
      files := files[path := bytes];
      history := history + [files];
    }

    /** `from.replace(to)` */
    method Replace(from: Path, to: Path)
      requires from in files && from != to
      modifies this
      ensures files == (old(files) - {from})[to := old(files)[from]] && history == old(history) + [files]
    {
      files := (files - {from})[to := files[from]];
      history := history + [files];
    }

    /** `path.unlink(missing_ok=True)` */
    method Unlink(path: Path)
      modifies this
      ensures files == old(files) - {path} && history == old(history) + [files]
    {
      files := files - {path};
      history := history + [files];
    }

    /** Since mark, every state was safe. */
    ghost predicate SafeSince(mark: nat, before: Files, path: Path, pin: Pin)
      requires path != []
      reads this
    {
      mark <= |history| && forall i | mark <= i < |history| :: Safe(before, history[i], path, pin, sha)
    }

    /** The `with` block: the response is written to the temporary file. */
    method ReadBody(blocks: seq<Bytes>, broken: Option<Fault>, path: Path, pin: Pin, ghost before: Files, ghost mark: nat)
      returns (received: Received)
      requires path != [] && Pending(before, files, path, pin) && SafeSince(mark, before, path, pin)
      modifies this
      ensures received == Receive(blocks, broken, pin.size, [])
      ensures received.Complete? ==> |received.bytes| <= pin.size && Look(files, Partial(path)) == Some(received.bytes)
      ensures Pending(before, files, path, pin)
      ensures old(history) <= history && SafeSince(mark, before, path, pin)
    {
      var partial := Partial(path);
      Write(partial, []);
      var size, digest: Bytes, i := 0, [], 0;
      while i < |blocks| && blocks[i] != []
        invariant i <= |blocks| && size == |digest| <= pin.size
        invariant Look(files, partial) == Some(digest)
        invariant Pending(before, files, path, pin)
        invariant old(history) <= history && SafeSince(mark, before, path, pin)
        invariant Receive(blocks, broken, pin.size, []) == Receive(blocks[i..], broken, pin.size, digest)
      {
        var block := blocks[i];
        NextBlock(blocks, i, broken, pin.size, digest);
        size := size + |block|;
        if size > pin.size {
          return Broken(Caught);
        }
        digest := digest + block;
        Write(partial, files[partial] + block);
        i := i + 1;
      }
      LastBlock(blocks, i, broken, pin.size, digest);
      if i == |blocks| && broken.Some? {
        return Broken(broken.value);
      }
      return Complete(digest);
    }

    /** The body of the `try` in the loop. */
    method Attempt(response: Response, path: Path, pin: Pin, ghost before: Files, ghost mark: nat) returns (trial: Trial)
      requires path != [] && Pending(before, files, path, pin) && SafeSince(mark, before, path, pin)
      modifies this
      ensures trial == Try(response, pin, sha)
      ensures trial.Installed? ==> files == After(before, path, Fetched(trial.bytes))
      ensures trial.Faulted? ==> Pending(before, files, path, pin)
      ensures old(history) <= history && SafeSince(mark, before, path, pin)
    {
      if response.Unreachable? {
        return Faulted(response.fault);
      }
      var received := ReadBody(response.blocks, response.broken, path, pin, before, mark);
      if received.Broken? {
        return Faulted(received.fault);
      }
      var digest := received.bytes;
      if |digest| != pin.size || sha(digest) != pin.sha256 {
        return Faulted(Caught);
      }
      if response.replace.Some? {
        return Faulted(response.replace.value);
      }
      InstallIs(before, files, path, pin, digest, sha);
      Replace(Partial(path), path);
      return Installed(digest);
    }

    /** The retry loop. */
    method Retry(path: Path, pin: Pin, attempts: int, responses: nat -> Response, ghost mark: nat) returns (plan: Plan)
      requires path != [] && mark == |history|
      modifies this
      ensures plan == Attempts(responses, attempts, 0, pin, sha)
      ensures if plan.outcome.Fetched? then files == After(old(files), path, plan.outcome) else Pending(old(files), files, path, pin)
      ensures old(history) <= history && SafeSince(mark, old(files), path, pin)
    {
      ghost var before := files;
      var requests: nat, slept: nat, attempt: nat := 0, 0, 0;
      while attempt < attempts
        invariant attempt <= attempts || attempt == 0
        invariant Pending(before, files, path, pin)
        invariant old(history) <= history && SafeSince(mark, before, path, pin)
        invariant var rest := Attempts(responses, attempts, attempt, pin, sha);
                  Attempts(responses, attempts, 0, pin, sha) == Plan(rest.outcome, requests + rest.requests, slept + rest.slept)
      {
        requests := requests + 1;
        var trial := Attempt(responses(attempt), path, pin, before, mark);
        if trial.Installed? {
          return Plan(Fetched(trial.bytes), requests, slept);
        }
        if trial.fault.Uncaught? {
          return Plan(Interrupted, requests, slept);
        }
        if Denied(trial.fault) || attempt == attempts - 1 {
          return Plan(Failed, requests, slept);
        }
        slept := slept + Pow2(attempt);
        attempt := attempt + 1;
      }
      return Plan(Nothing, requests, slept);
    }

    /** `fetch_file`. Whether the parent folder can be made is given by folder. */
    method FetchFile(path: Path, pin: Pin, attempts: int, responses: nat -> Response, folder: bool) returns (plan: Plan)
      requires path != []
      modifies this
      ensures plan == FetchFilePlan(responses, attempts, path, pin, sha, folder, links)
      ensures files == After(old(files), path, plan.outcome)
      ensures old(history) <= history && SafeSince(|old(history)|, old(files), path, pin)
    {
      if !folder {
        return Plan(FolderError, 0, 0);
      }
      var partial := Partial(path);
      if partial in links {
        return Plan(LinkError, 0, 0);
      }
      ghost var before := files;
      plan := Retry(path, pin, attempts, responses, |history|);
      FetchedMatches(responses, attempts, pin, sha);
      RetryArithmetic(responses, attempts, pin, sha);
      CleanUp(before, files, path, pin, plan.outcome, sha);
      Unlink(partial);
    }
  }

  /** Removing the temporary file at the end. */
  lemma CleanUp(before: Files, now: Files, path: Path, pin: Pin, outcome: Outcome, sha: Bytes -> string)
    requires path != [] && !outcome.LinkError? && !outcome.FolderError?
    requires outcome.Fetched? ==> Matches(outcome.bytes, pin, sha)
    requires if outcome.Fetched? then now == After(before, path, outcome) else Pending(before, now, path, pin)
    ensures now - {Partial(path)} == After(before, path, outcome)
    ensures Safe(before, now - {Partial(path)}, path, pin, sha)
  {
    var after := now - {Partial(path)};
    var expected := After(before, path, outcome);
    forall q
      ensures Look(after, q) == Look(expected, q)
    {
      if !outcome.Fetched? && q != Partial(path) {
        assert Look(now, q) == Look(before, q);
      }
    }
    SameFiles(after, expected);
  }

  lemma NextBlock(blocks: seq<Bytes>, i: nat, broken: Option<Fault>, size: nat, got: Bytes)
    requires i < |blocks| && blocks[i] != []
    ensures Receive(blocks[i..], broken, size, got)
            == if |got| + |blocks[i]| > size then Broken(Caught) else Receive(blocks[i + 1..], broken, size, got + blocks[i])
  {
    assert blocks[i..][1..] == blocks[i + 1..];
  }

  lemma LastBlock(blocks: seq<Bytes>, i: nat, broken: Option<Fault>, size: nat, got: Bytes)
    requires i <= |blocks| && (i < |blocks| ==> blocks[i] == [])
    ensures Receive(blocks[i..], broken, size, got)
            == if i == |blocks| && broken.Some? then Broken(broken.value) else Complete(got)
  {
  }

  /** Replacing the destination by the finished temporary file. */
  lemma InstallIs(before: Files, now: Files, path: Path, pin: Pin, bytes: Bytes, sha: Bytes -> string)
    requires path != [] && Pending(before, now, path, pin) && Look(now, Partial(path)) == Some(bytes) && Matches(bytes, pin, sha)
    ensures (now - {Partial(path)})[path := bytes] == After(before, path, Fetched(bytes))
    ensures Safe(before, (now - {Partial(path)})[path := bytes], path, pin, sha)
  {
    var after := (now - {Partial(path)})[path := bytes];
    var expected := After(before, path, Fetched(bytes));
    forall q
      ensures Look(after, q) == Look(expected, q)
    {
      assert q != Partial(path) ==> Look(now, q) == Look(before, q);
    }
    SameFiles(after, expected);
    forall q | q != Partial(path) && q != path
      ensures Look(after, q) == Look(before, q)
    {
      assert Look(now, q) == Look(before, q);
    }
  }

  lemma SameFiles(a: Files, b: Files)
    requires forall q :: Look(a, q) == Look(b, q)
    ensures a == b
  {
    forall q
      ensures q in a <==> q in b
      ensures q in a ==> a[q] == b[q]
    {
      assert Look(a, q) == Look(b, q);
    }
    assert a.Keys == b.Keys;
  }

  /** How `fetch_file` may leave the disk: a normal return with an attempt to make leaves verified bytes
      at the destination, any other end leaves it as it was, and the temporary file is gone unless it
      was never touched. */
  lemma InstallSafety(files: Files, responses: nat -> Response, attempts: int, path: Path, pin: Pin, sha: Bytes -> string,
                      folder: bool, links: set<Path>)
    requires path != []
    ensures var plan := FetchFilePlan(responses, attempts, path, pin, sha, folder, links);
            var after := After(files, path, plan.outcome);
            && (plan.outcome.Fetched? ==> Verified(after, path, pin, sha))
            && (!plan.outcome.Fetched? ==> Look(after, path) == Look(files, path))
            && (attempts >= 1 ==> !plan.outcome.Nothing?)
            && (!folder || Partial(path) in links ==> after == files && plan.requests == 0 && !plan.outcome.Fetched?)
            && (Partial(path) in after ==> plan.outcome.FolderError? || plan.outcome.LinkError?)
            && (forall q | q != path && q != Partial(path) :: Look(after, q) == Look(files, q))
  {
    FetchedMatches(responses, attempts, pin, sha);
    RetryArithmetic(responses, attempts, pin, sha);
  }
}
