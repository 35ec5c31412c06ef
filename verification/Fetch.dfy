/** `verified` and `fetch_file` of scripts/fetch_pocket_tts.py: downloading one pinned file through a
    temporary file, with retries. */
module Fetch {
  import opened Text
  import opened Paths

  newtype Byte = n: int | 0 <= n < 256

  type Bytes = seq<Byte>

  /** The regular files of a disk. */
  type Files = map<Path, Bytes>

  /** What the manifest pins. */
  datatype Pin = Pin(size: nat, sha256: string)

  predicate Matches(bytes: Bytes, pin: Pin, sha: Bytes -> string) {
    |bytes| == pin.size && sha(bytes) == pin.sha256
  }

  /** `verified` */
  predicate Verified(files: Files, path: Path, pin: Pin, sha: Bytes -> string) {
    path in files && Matches(files[path], pin, sha)
  }

  /** `path.with_name(path.name + ".partial")` */
  function Partial(path: Path): (partial: Path)
    requires path != []
    ensures |partial| == |path| && partial != path
  {
    var last := path[|path| - 1];
    assert |last + ".partial"| == |last| + 8;
    path[..|path| - 1] + [last + ".partial"]
  }

  // ---------- one attempt ----------

  /** An exception: an HTTP status, another error that the loop catches, or one that it lets pass. */
  datatype Fault = Http(code: int) | Caught | Uncaught

  /** What an attempt meets: an exception before the temporary file is opened, or blocks that end with
      the end of the data or an exception, and then perhaps an exception from `replace`. */
  datatype Response =
    | Unreachable(fault: Fault)
    | Stream(blocks: seq<Bytes>, broken: Option<Fault>, replace: Option<Fault>)

  datatype Received = Complete(bytes: Bytes) | Broken(fault: Fault)

  /** The inner loop: `read` returns the blocks in turn, and an empty one ends the data. */
  function Receive(blocks: seq<Bytes>, fault: Option<Fault>, size: nat, got: Bytes): Received {
    if blocks == [] then (if fault.Some? then Broken(fault.value) else Complete(got))
    else if blocks[0] == [] then Complete(got)
    else if |got| + |blocks[0]| > size then Broken(Caught)
    else Receive(blocks[1..], fault, size, got + blocks[0])
  }

  datatype Trial = Installed(bytes: Bytes) | Faulted(fault: Fault)

  function Try(response: Response, pin: Pin, sha: Bytes -> string): Trial {
    match response
    case Unreachable(fault) => Faulted(fault)
    case Stream(blocks, broken, replace) =>
      match Receive(blocks, broken, pin.size, [])
      case Broken(f) => Faulted(f)
      case Complete(bytes) =>
        if !Matches(bytes, pin, sha) then Faulted(Caught)
        else if replace.Some? then Faulted(replace.value)
        else Installed(bytes)
  }

  // ---------- all attempts ----------

  /** How `fetch_file` ends; Nothing is a normal return without any attempt. */
  datatype Outcome = Fetched(bytes: Bytes) | Nothing | Failed | Interrupted | LinkError | FolderError

  datatype Plan = Plan(outcome: Outcome, requests: nat, slept: nat)

  function Pow2(k: nat): nat {
    if k == 0 then 1 else 2 * Pow2(k - 1)
  }

  /** `isinstance(exc, HTTPError) and exc.code in {401, 403, 404}` */
  predicate Denied(fault: Fault) {
    fault.Http? && (fault.code == 401 || fault.code == 403 || fault.code == 404)
  }

  /** The attempts from the k-th of n on. */
  function Attempts(responses: nat -> Response, n: int, k: nat, pin: Pin, sha: Bytes -> string): Plan
    decreases n - k
  {
    if k >= n then Plan(Nothing, 0, 0)
    else
      match Try(responses(k), pin, sha)
      case Installed(bytes) => Plan(Fetched(bytes), 1, 0)
      case Faulted(fault) =>
        if fault.Uncaught? then Plan(Interrupted, 1, 0)
        else if Denied(fault) || k == n - 1 then Plan(Failed, 1, 0)
        else
          var rest := Attempts(responses, n, k + 1, pin, sha);
          Plan(rest.outcome, 1 + rest.requests, Pow2(k) + rest.slept)
  }

  lemma {:induction false} AttemptsAre(responses: nat -> Response, n: int, k: nat, pin: Pin, sha: Bytes -> string)
    requires k < n
    ensures var plan := Attempts(responses, n, k, pin, sha);
            && 1 <= plan.requests <= n - k
            && plan.slept == Pow2(k + plan.requests - 1) - Pow2(k)
            && (forall i | k <= i < k + plan.requests - 1 ::
                  Try(responses(i), pin, sha).Faulted? && !Denied(Try(responses(i), pin, sha).fault) && !Try(responses(i), pin, sha).fault.Uncaught?)
            && var last := Try(responses(k + plan.requests - 1), pin, sha);
               match plan.outcome
               case Fetched(bytes) => last == Installed(bytes)
               case Failed => last.Faulted? && (Denied(last.fault) || (plan.requests == n - k && !last.fault.Uncaught?))
               case Interrupted => last == Faulted(Uncaught)
               case _ => false
    decreases n - k
  {
    var t := Try(responses(k), pin, sha);
    if t.Faulted? && !t.fault.Uncaught? && !Denied(t.fault) && k < n - 1 {
      AttemptsAre(responses, n, k + 1, pin, sha);
    }
  }

  /** At most `attempts` requests are made, the last one decides, and the waits double: all of them
      together take 2^(requests - 1) - 1 seconds. A denied request ends the loop at once. */
  lemma RetryArithmetic(responses: nat -> Response, n: int, pin: Pin, sha: Bytes -> string)
    ensures var plan := Attempts(responses, n, 0, pin, sha);
            && (n <= 0 <==> plan.outcome.Nothing?) && !plan.outcome.LinkError? && !plan.outcome.FolderError?
            && (n >= 1 ==> 1 <= plan.requests <= n && plan.slept == Pow2(plan.requests - 1) - 1)
            && (plan.outcome.Failed? ==> var last := Try(responses(plan.requests - 1), pin, sha);
                                         last.Faulted? && (last.fault in {Http(401), Http(403), Http(404)} || plan.requests == n))
            && (forall i: nat | i < plan.requests - 1 ::
                  Try(responses(i), pin, sha).Faulted? && Try(responses(i), pin, sha).fault !in {Http(401), Http(403), Http(404), Uncaught})
  {
    if n >= 1 {
      AttemptsAre(responses, n, 0, pin, sha);
    }
  }

  function Joined(blocks: seq<Bytes>): Bytes {
    if blocks == [] then [] else blocks[0] + Joined(blocks[1..])
  }

  /** The response delivers its first n blocks: none is empty, and then the data ends, without an exception. */
  predicate Delivers(response: Response, n: nat, bytes: Bytes) {
    && response.Stream? && response.replace.None? && n <= |response.blocks|
    && Ends(response.blocks, response.broken, n) && bytes == Joined(response.blocks[..n])
  }

  ghost predicate Delivered(response: Response, bytes: Bytes) {
    exists n: nat :: Delivers(response, n, bytes)
  }

  predicate Ends(blocks: seq<Bytes>, fault: Option<Fault>, n: nat)
    requires n <= |blocks|
  {
    && (forall i | 0 <= i < n :: blocks[i] != [])
    && if n < |blocks| then blocks[n] == [] else fault.None?
  }

  lemma {:induction false} ReceivedAre(blocks: seq<Bytes>, fault: Option<Fault>, size: nat, got: Bytes) returns (n: nat)
    requires Receive(blocks, fault, size, got).Complete?
    ensures n <= |blocks| && Ends(blocks, fault, n) && Receive(blocks, fault, size, got).bytes == got + Joined(blocks[..n])
  {
    if blocks == [] || blocks[0] == [] {
      n := 0;
      assert got + Joined([]) == got;
    } else {
      n := ReceivedAre(blocks[1..], fault, size, got + blocks[0]);
      FirstBlock(blocks, n, got);
      assert forall i | 0 < i <= n :: blocks[i] == blocks[1..][i - 1];
      n := n + 1;
    }
  }

  lemma FirstBlock(blocks: seq<Bytes>, n: nat, got: Bytes)
    requires n < |blocks|
    ensures got + Joined(blocks[..n + 1]) == got + blocks[0] + Joined(blocks[1..][..n])
  {
    assert blocks[..n + 1][1..] == blocks[1..][..n];
    Associate(got, blocks[0], Joined(blocks[1..][..n]));
  }

  lemma {:induction false} AllReceived(blocks: seq<Bytes>, fault: Option<Fault>, size: nat, got: Bytes, n: nat)
    requires n <= |blocks| && Ends(blocks, fault, n) && |got + Joined(blocks[..n])| <= size
    ensures Receive(blocks, fault, size, got) == Complete(got + Joined(blocks[..n]))
  {
    if n == 0 {
      assert got + Joined([]) == got;
    } else {
      FirstBlock(blocks, n - 1, got);
      assert forall i | 0 <= i < |blocks| - 1 :: blocks[1..][i] == blocks[i + 1];
      AllReceived(blocks[1..], fault, size, got + blocks[0], n - 1);
    }
  }

  /** A response is installed exactly if it delivers bytes of the pinned size and checksum. */
  lemma TryExact(response: Response, pin: Pin, sha: Bytes -> string, bytes: Bytes)
    ensures Try(response, pin, sha) == Installed(bytes)
            <==> |bytes| == pin.size && sha(bytes) == pin.sha256 && Delivered(response, bytes)
  {
    if Try(response, pin, sha) == Installed(bytes) {
      var n := ReceivedAre(response.blocks, response.broken, pin.size, []);
      assert [] + Joined(response.blocks[..n]) == Joined(response.blocks[..n]);
      assert Delivers(response, n, bytes);
    }
    if n: nat :| Delivers(response, n, bytes) && |bytes| == pin.size && sha(bytes) == pin.sha256 {
      assert [] + Joined(response.blocks[..n]) == Joined(response.blocks[..n]);
      AllReceived(response.blocks, response.broken, pin.size, [], n);
    }
  }

  /** What is installed is what the last response sent, matches the pin, and owes nothing to earlier attempts. */
  lemma FetchedMatches(responses: nat -> Response, n: int, pin: Pin, sha: Bytes -> string)
    ensures var plan := Attempts(responses, n, 0, pin, sha);
            plan.outcome.Fetched? ==> |plan.outcome.bytes| == pin.size && sha(plan.outcome.bytes) == pin.sha256
                                      && Delivered(responses(plan.requests - 1), plan.outcome.bytes)
  {
    if n >= 1 {
      AttemptsAre(responses, n, 0, pin, sha);
      var plan := Attempts(responses, n, 0, pin, sha);
      if plan.outcome.Fetched? {
        TryExact(responses(plan.requests - 1), pin, sha, plan.outcome.bytes);
      }
    }
  }
}
