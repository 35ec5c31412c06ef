/** `phonon_speak` of native/phonon-ffi/src/lib.rs: the calling thread runs the decoder, a collector
    thread drains an unbounded channel into a host callback, and any thread may set the
    cancellation token. Every interleaving of their steps is a run. */
module Speech {
  import opened Text

  /** One piece of PCM audio. */
  type Chunk = seq<real>

  datatype Status = Completed | Cancelled | Failed {
    function Code(): int {
      match this
      case Completed => 0
      case Cancelled => 1
      case Failed => -1
    }
  }

  /** The arguments: whether the pointers are present, and the text if it is valid UTF-8. */
  datatype Args = Args(model: bool, token: bool, text: Option<string>) {
    predicate Accepted() {
      model && token && text.Some? && |text.value| <= 600
    }
  }

  /** How `run` ends; it drops the sender in each case. */
  datatype Outcome = Sound | Error | Panic

  datatype Caller = Entering | Polling | Spawning | InScope | Returned(status: Status)

  datatype Decoder = Idle | Decoding | Ended(outcome: Outcome)

  /** The collector has a chunk in hand from `recv` until the callback takes it. */
  datatype Collector =
    | Unborn | Waiting | Holding(chunk: Chunk) | Cleared(chunk: Chunk) | Calling | Stopping | Exited | Crashed

  /** todo holds what the decoder would still send; sent, delivered, dropped and answers record the
      sends that succeeded, the chunks given to the callback, the chunk in hand when the collector
      saw the token, and what the callbacks returned. */
  datatype State = State(
    args: Args, caller: Caller, decoder: Decoder, collector: Collector, token: bool,
    todo: seq<Chunk>, queue: seq<Chunk>,
    sent: seq<Chunk>, delivered: seq<Chunk>, dropped: seq<Chunk>, answers: seq<bool>, sendFailed: bool)

  /** A call is made with a token that may already be set. */
  function Called(args: Args, token: bool, todo: seq<Chunk>): State {
    State(args, Entering, Idle, Unborn, token, todo, [], [], [], [], [], false)
  }

  /** Crash is a panic of the collector thread, which `join` reports. The callback is a function of the C
      ABI, which unwinding does not cross, so it is not a way to get there. */
  datatype Step =
    | Check | Poll | Spawn(ok: bool) | Join
    | Send | End(outcome: Outcome)
    | Receive | Hangup | Load | Begin | Answer(more: bool) | Crash | Stop
    | Cancel

  predicate Enabled(s: State, step: Step) {
    match step
    case Check => s.caller.Entering?
    case Poll => s.caller.Polling?
    case Spawn(_) => s.caller.Spawning?
    case Join => s.caller.InScope? && s.decoder.Ended? && (s.collector.Exited? || s.collector.Crashed?)
    case Send => s.decoder.Decoding? && s.todo != []
    case End(_) => s.decoder.Decoding?
    case Receive => s.collector.Waiting? && s.queue != []
    case Hangup => s.collector.Waiting? && s.queue == [] && s.decoder.Ended?
    case Load => s.collector.Holding?
    case Begin => s.collector.Cleared?
    case Answer(_) => s.collector.Calling?
    case Crash => s.collector.Calling?
    case Stop => s.collector.Stopping?
    case Cancel => true
  }

  /** The receiver lives as long as the collector. */
  predicate ReceiverGone(s: State) {
    s.collector.Exited? || s.collector.Crashed?
  }

  /** What the scope returns once the decoder has ended and the collector is joined. */
  function Verdict(outcome: Outcome, crashed: bool, token: bool): Status {
    if outcome.Panic? || crashed then Failed
    else if token then Cancelled
    else if outcome.Error? then Failed
    else Completed
  }

  function Apply(s: State, step: Step): State
    requires Enabled(s, step)
  {
    match step
    case Check => s.(caller := if s.args.Accepted() then Polling else Returned(Failed))
    case Poll => s.(caller := if s.token then Returned(Cancelled) else Spawning)
    case Spawn(ok) =>
      if ok then s.(caller := InScope, decoder := Decoding, collector := Waiting) else s.(caller := Returned(Failed))
    case Join => s.(caller := Returned(Verdict(s.decoder.outcome, s.collector.Crashed?, s.token)))
    case Send =>
      if ReceiverGone(s) then s.(todo := s.todo[1..], sendFailed := true)
      else s.(todo := s.todo[1..], queue := s.queue + [s.todo[0]], sent := s.sent + [s.todo[0]])
    case End(outcome) => s.(decoder := Ended(outcome))
    case Receive => s.(collector := Holding(s.queue[0]), queue := s.queue[1..])
    case Hangup => s.(collector := Exited)
    case Load =>
      if s.token then s.(collector := Stopping, dropped := [s.collector.chunk])
      else s.(collector := Cleared(s.collector.chunk))
    case Begin => s.(collector := Calling, delivered := s.delivered + [s.collector.chunk])
    case Answer(more) => s.(collector := if more then Waiting else Stopping, answers := s.answers + [more])
    case Crash => s.(collector := Crashed)
    case Stop => s.(collector := Exited, token := true)
    case Cancel => s.(token := true)
  }

  /** s leads to t by these steps. */
  predicate Leads(s: State, steps: seq<Step>, t: State)
    decreases |steps|
  {
    if steps == [] then s == t
    else Enabled(s, steps[0]) && Leads(Apply(s, steps[0]), steps[1..], t)
  }

  // ---------- what every step keeps ----------

  /** The chunk that left the queue but has not reached the callback. */
  function InHand(s: State): seq<Chunk> {
    if s.collector.Holding? || s.collector.Cleared? then [s.collector.chunk] else []
  }

  predicate Consistent(s: State) {
    && ThreadsInStep(s)
    && ChunksInPlace(s)
    && Judged(s)
  }

  /** The calling thread, the decoder and the collector start and end together. */
  predicate ThreadsInStep(s: State) {
    && (s.decoder.Idle? <==> s.collector.Unborn?)
    && (s.caller.InScope? ==> !s.decoder.Idle?)
    && (s.caller.Entering? || s.caller.Polling? || s.caller.Spawning? ==> s.decoder.Idle?)
    && (s.caller.Polling? || s.caller.Spawning? || !s.decoder.Idle? ==> s.args.Accepted())
    && (s.caller.Returned? ==> s.decoder.Idle? || (s.decoder.Ended? && ReceiverGone(s)))
  }

  /** Every chunk sent is in one place, in order, and a collector that leaves with the token unset
      has drained a closed channel. */
  predicate ChunksInPlace(s: State) {
    && s.sent == s.delivered + InHand(s) + s.dropped + s.queue
    && (s.decoder.Idle? ==> s.sent == [] && s.dropped == [] && !s.sendFailed)
    && (s.dropped != [] || false in s.answers ==> s.collector.Stopping? || (s.collector.Exited? && s.token))
    && |s.delivered| == |s.answers| + (if s.collector.Calling? || s.collector.Crashed? then 1 else 0)
    && (s.collector.Exited? && !s.token ==> s.decoder.Ended? && s.queue == [])
    && (s.sendFailed ==> s.collector.Crashed? || (s.collector.Exited? && s.token))
  }

  /** What a returned status says. */
  predicate Judged(s: State) {
    s.caller.Returned? ==>
      match s.caller.status
      case Completed =>
        && s.decoder == Ended(Sound) && s.collector.Exited? && !s.sendFailed
        && s.queue == [] && s.dropped == [] && false !in s.answers
      case Cancelled =>
        && s.token && s.args.Accepted() && !s.collector.Crashed? && s.decoder != Ended(Panic)
      case Failed =>
        || !s.args.Accepted() || s.decoder.Idle? || s.decoder == Ended(Panic) || s.collector.Crashed?
        || (s.decoder == Ended(Error) && !s.sendFailed && s.queue == [] && s.dropped == [] && false !in s.answers)
  }

  lemma StepKeepsThreads(s: State, step: Step)
    requires Consistent(s) && Enabled(s, step)
    ensures ThreadsInStep(Apply(s, step))
  {
  }

  lemma StepKeepsChunks(s: State, step: Step)
    requires Consistent(s) && Enabled(s, step)
    ensures ChunksInPlace(Apply(s, step))
  {
    match step
    case Send =>
      if !ReceiverGone(s) {
        Append(s.delivered + InHand(s) + s.dropped, s.queue, [s.todo[0]]);
      }
    case Receive =>
      MoveHead(s.delivered, s.queue);
    case Begin =>
      assert s.delivered + [s.collector.chunk] + [] == s.delivered + [s.collector.chunk];
    case _ =>
  }

  lemma Append(a: seq<Chunk>, b: seq<Chunk>, c: seq<Chunk>)
    ensures a + b + c == a + (b + c)
  {
  }

  lemma MoveHead(a: seq<Chunk>, b: seq<Chunk>)
    requires b != []
    ensures a + [] + [] + b == a + [b[0]] + [] + b[1..]
  {
  }

  lemma StepKeepsVerdict(s: State, step: Step)
    requires Consistent(s) && Enabled(s, step)
    ensures Judged(Apply(s, step))
  {
  }

  /** Every step of every thread keeps the state consistent. */
  lemma {:induction false} RunsAreConsistent(s: State, steps: seq<Step>, t: State)
    requires Consistent(s) && Leads(s, steps, t)
    ensures Consistent(t)
    decreases |steps|
  {
    if steps != [] {
      StepKeepsThreads(s, steps[0]);
      StepKeepsChunks(s, steps[0]);
      StepKeepsVerdict(s, steps[0]);
      RunsAreConsistent(Apply(s, steps[0]), steps[1..], t);
    }
  }

  // ---------- delivery ----------

  /** The sends that succeeded are a beginning of what the decoder had to send, and all of it so far
      unless a send failed. */
  predicate InOrder(s: State, script: seq<Chunk>) {
    && |s.sent| + |s.todo| <= |script| && s.todo == script[|script| - |s.todo|..] && s.sent == script[..|s.sent|]
    && (s.sendFailed ==> ReceiverGone(s))
    && (!s.sendFailed ==> |s.sent| + |s.todo| == |script|)
  }

  lemma StepKeepsOrder(s: State, step: Step, script: seq<Chunk>)
    requires InOrder(s, script) && Enabled(s, step) && (s.caller.Spawning? ==> !s.sendFailed)
    ensures InOrder(Apply(s, step), script)
  {
    if step.Send? {
      NextChunk(script, |script| - |s.todo|);
    }
  }

  lemma NextChunk(script: seq<Chunk>, k: nat)
    requires k < |script|
    ensures script[k..][1..] == script[k + 1..] && script[..k] + [script[k..][0]] == script[..k + 1]
  {
  }

  lemma {:induction false} RunsKeepOrder(s: State, steps: seq<Step>, t: State, script: seq<Chunk>)
    requires Consistent(s) && InOrder(s, script) && Leads(s, steps, t)
    ensures InOrder(t, script)
    decreases |steps|
  {
    if steps != [] {
      RunsAreConsistent(s, [steps[0]], Apply(s, steps[0]));
      StepKeepsOrder(s, steps[0], script);
      RunsKeepOrder(Apply(s, steps[0]), steps[1..], t, script);
    }
  }

  /** In every interleaving the chunks given to the callback are a beginning of the chunks sent,
      and those of the decoder's output. */
  lemma DeliveredInOrder(args: Args, token: bool, script: seq<Chunk>, steps: seq<Step>, t: State)
    requires Leads(Called(args, token, script), steps, t)
    ensures t.delivered <= t.sent <= script
  {
    RunsAreConsistent(Called(args, token, script), steps, t);
    RunsKeepOrder(Called(args, token, script), steps, t, script);
  }

  /** Status 0: the decoder succeeded and every chunk it sent reached the callback, in order and
      once, and every callback returned true. */
  lemma CompletedMeansDelivered(args: Args, token: bool, script: seq<Chunk>, steps: seq<Step>, t: State)
    requires Leads(Called(args, token, script), steps, t) && t.caller == Returned(Completed)
    ensures t.decoder == Ended(Sound) && !t.sendFailed
    ensures t.delivered == t.sent && t.sent + t.todo == script
    ensures |t.answers| == |t.delivered| && forall more | more in t.answers :: more
  {
    RunsAreConsistent(Called(args, token, script), steps, t);
    RunsKeepOrder(Called(args, token, script), steps, t, script);
    assert t.delivered + InHand(t) + t.dropped + t.queue == t.delivered;
    assert script[..|t.sent|] + script[|t.sent|..] == script;
  }

  // ---------- cancellation ----------

  /** Once the token is set, at most one more callback begins: the one whose check came before. */
  lemma {:induction false} CallsAfterCancel(s: State, steps: seq<Step>, t: State)
    requires s.token && Leads(s, steps, t)
    ensures s.delivered <= t.delivered && |t.delivered| <= |s.delivered| + (if s.collector.Cleared? then 1 else 0)
    decreases |steps|
  {
    if steps != [] {
      CallsAfterCancel(Apply(s, steps[0]), steps[1..], t);
    }
  }

  /** Once a callback has returned false, none begins. */
  lemma {:induction false} NoCallAfterRefusal(s: State, steps: seq<Step>, t: State)
    requires Consistent(s) && false in s.answers && Leads(s, steps, t)
    ensures t.delivered == s.delivered
    decreases |steps|
  {
    if steps != [] {
      var u := Apply(s, steps[0]);
      RunsAreConsistent(s, [steps[0]], u);
      assert false in u.answers;
      NoCallAfterRefusal(u, steps[1..], t);
    }
  }

  /** A decoder that stops because the receiver is gone, whether it reports an error or not, never
      makes the call fail or succeed: the call was cancelled, unless a panic is reported. */
  lemma DroppedReceiverIsCancellation(args: Args, token: bool, script: seq<Chunk>, steps: seq<Step>, t: State)
    requires Leads(Called(args, token, script), steps, t) && t.caller.Returned?
    requires t.sendFailed && t.decoder != Ended(Panic) && !t.collector.Crashed?
    ensures t.caller == Returned(Cancelled)
  {
    RunsAreConsistent(Called(args, token, script), steps, t);
  }

  /** A call with a token that is already set. */
  predicate Refused(s: State) {
    && s.token && s.args.Accepted() && s.decoder.Idle? && s.collector.Unborn? && s.sent == [] && s.delivered == []
    && (s.caller.Entering? || s.caller.Polling? || s.caller == Returned(Cancelled))
  }

  lemma {:induction false} RefusedStays(s: State, steps: seq<Step>, t: State)
    requires Refused(s) && Leads(s, steps, t)
    ensures Refused(t)
    decreases |steps|
  {
    if steps != [] {
      RefusedStays(Apply(s, steps[0]), steps[1..], t);
    }
  }

  /** A token once set makes every later call return 1 without starting the decoder or a callback. */
  lemma SetTokenRefuses(args: Args, script: seq<Chunk>, steps: seq<Step>, t: State)
    requires args.Accepted() && Leads(Called(args, true, script), steps, t)
    ensures t.decoder.Idle? && t.delivered == [] && (t.caller.Returned? ==> t.caller.status.Code() == 1)
  {
    RefusedStays(Called(args, true, script), steps, t);
  }

  lemma {:induction false} ArgsStay(s: State, steps: seq<Step>, t: State)
    requires Leads(s, steps, t)
    ensures t.args == s.args
    decreases |steps|
  {
    if steps != [] {
      ArgsStay(Apply(s, steps[0]), steps[1..], t);
    }
  }

  /** A missing pointer, bad text or too long a text gives -1 without a callback, even when cancelled. */
  lemma BadArgsFail(args: Args, token: bool, script: seq<Chunk>, steps: seq<Step>, t: State)
    requires !args.model || !args.token || args.text.None? || |args.text.value| > 600
    requires Leads(Called(args, token, script), steps, t)
    ensures t.delivered == [] && (t.caller.Returned? ==> t.caller.status.Code() == -1)
  {
    RunsAreConsistent(Called(args, token, script), steps, t);
    ArgsStay(Called(args, token, script), steps, t);
    RejectedStays(Called(args, token, script), steps, t);
  }

  predicate Rejected(s: State) {
    !s.args.Accepted() && s.decoder.Idle? && s.collector.Unborn? && s.delivered == []
    && (s.caller.Entering? || s.caller == Returned(Failed))
  }

  lemma {:induction false} RejectedStays(s: State, steps: seq<Step>, t: State)
    requires Rejected(s) && Leads(s, steps, t)
    ensures Rejected(t)
    decreases |steps|
  {
    if steps != [] {
      RejectedStays(Apply(s, steps[0]), steps[1..], t);
    }
  }

  // ---------- who cancels ----------

  /** The token is set, a chunk is dropped and the collector stops only with cause, or after a callback
      returned false. */
  predicate Sourced(s: State, cause: bool) {
    s.token || s.dropped != [] || s.collector.Stopping? ==> cause || false in s.answers
  }

  lemma {:induction false} RunsAreSourced(s: State, steps: seq<Step>, t: State, cause: bool)
    requires Sourced(s, cause) && (Cancel in steps ==> cause) && Leads(s, steps, t)
    ensures Sourced(t, cause)
    decreases |steps|
  {
    if steps != [] {
      assert steps[0] == Cancel ==> Cancel in steps;
      RunsAreSourced(Apply(s, steps[0]), steps[1..], t, cause);
    }
  }

  /** Nothing but the host cancels: the token is set, or a chunk dropped, only if the token was set at first,
      a thread set it during the call, or a callback returned false. */
  lemma TokenHasCause(args: Args, token: bool, script: seq<Chunk>, steps: seq<Step>, t: State)
    requires Leads(Called(args, token, script), steps, t)
    ensures t.token ==> token || Cancel in steps || false in t.answers
    ensures t.dropped != [] ==> token || Cancel in steps || false in t.answers
  {
    RunsAreSourced(Called(args, token, script), steps, t, token || Cancel in steps);
  }

  /** Until the decoder starts, a call with good arguments goes on unless it is cancelled. */
  predicate GoesOn(s: State) {
    && s.args.Accepted()
    && (s.decoder.Idle? ==> !s.token && (s.caller.Entering? || s.caller.Polling? || s.caller.Spawning?) && s.collector.Unborn?)
  }

  lemma {:induction false} RunsGoOn(s: State, steps: seq<Step>, t: State)
    requires GoesOn(s) && Cancel !in steps && Spawn(false) !in steps && Leads(s, steps, t)
    ensures GoesOn(t)
    decreases |steps|
  {
    if steps != [] {
      assert steps[0] in steps;
      RunsGoOn(Apply(s, steps[0]), steps[1..], t);
    }
  }

  /** A call with good arguments that no one cancels, whose collector thread starts, whose callbacks all return
      true and whose threads do not panic, ends as its decoder does, and every chunk sent has reached the callback, in order and once. */
  lemma UndisturbedCall(args: Args, script: seq<Chunk>, steps: seq<Step>, t: State)
    requires args.model && args.token && args.text.Some? && |args.text.value| <= 600
    requires Leads(Called(args, false, script), steps, t) && t.caller.Returned? && Spawn(false) !in steps
    requires Cancel !in steps && false !in t.answers && !t.collector.Crashed? && t.decoder != Ended(Panic)
    ensures t.caller.status.Code() == if t.decoder == Ended(Sound) then 0 else -1
    ensures t.delivered == t.sent && t.sent + t.todo == script && !t.token
  {
    RunsGoOn(Called(args, false, script), steps, t);
    TokenHasCause(args, false, script, steps, t);
    StatusMeaning(args, false, script, steps, t);
    RunsAreConsistent(Called(args, false, script), steps, t);
    RunsKeepOrder(Called(args, false, script), steps, t, script);
    AllDelivered(t, script);
  }

  /** A collector that has left with the token unset has given every chunk to the callback. */
  lemma AllDelivered(t: State, script: seq<Chunk>)
    requires ThreadsInStep(t) && ChunksInPlace(t) && InOrder(t, script)
    requires t.caller.Returned? && !t.decoder.Idle? && !t.collector.Crashed? && !t.token && false !in t.answers
    ensures t.delivered == t.sent && t.sent + t.todo == script
  {
    assert t.delivered + [] + [] + [] == t.delivered;
    assert script[..|t.sent|] + script[|t.sent|..] == script;
  }

  /** What each status means. A panic of either thread is reported as -1; any other -1 after the decoder
      started is a decoder error, and then no chunk was lost. */
  lemma StatusMeaning(args: Args, token: bool, script: seq<Chunk>, steps: seq<Step>, t: State)
    requires args.Accepted() && Leads(Called(args, token, script), steps, t) && t.caller.Returned?
    ensures t.caller.status.Code() == 1 ==> t.token && (token || Cancel in steps || false in t.answers)
    ensures t.caller.status.Code() == -1 ==>
              t.decoder.Idle? || t.decoder == Ended(Panic) || t.collector.Crashed?
              || (t.decoder == Ended(Error) && !t.sendFailed && t.delivered == t.sent && false !in t.answers)
    ensures t.decoder == Ended(Panic) || t.collector.Crashed? ==> t.caller.status.Code() == -1
    ensures !t.token && t.decoder == Ended(Sound) && !t.collector.Crashed? ==> t.caller.status.Code() == 0
  {
    RunsAreConsistent(Called(args, token, script), steps, t);
    ArgsStay(Called(args, token, script), steps, t);
    TokenHasCause(args, token, script, steps, t);
    if t.queue == [] && t.dropped == [] && InHand(t) == [] {
      assert t.delivered + [] + [] + [] == t.delivered;
    }
  }

  lemma {:induction false} DecoderStays(s: State, steps: seq<Step>, t: State)
    requires Consistent(s) && !s.decoder.Idle? && Leads(s, steps, t)
    ensures !t.decoder.Idle?
    decreases |steps|
  {
    if steps != [] {
      RunsAreConsistent(s, [steps[0]], Apply(s, steps[0]));
      DecoderStays(Apply(s, steps[0]), steps[1..], t);
    }
  }

  /** The status of a call from a state in which the token is set and the call has not returned: 1, unless
      the arguments are bad, the collector thread could not be started, or a thread panicked. */
  lemma {:induction false} CancelledStatus(s: State, steps: seq<Step>, t: State)
    requires Consistent(s) && s.token && !s.caller.Returned? && Leads(s, steps, t) && t.caller.Returned?
    ensures t.caller.status.Code() == 1
            <==> s.args.Accepted() && !(s.caller.Spawning? && t.decoder.Idle?) && t.decoder != Ended(Panic) && !t.collector.Crashed?
    decreases |steps|
  {
    var u := Apply(s, steps[0]);
    RunsAreConsistent(s, [steps[0]], u);
    if u.caller.Returned? {
      QuietAfterReturn(u, steps[1..], t);
    } else {
      CancelledStatus(u, steps[1..], t);
      if !u.decoder.Idle? {
        DecoderStays(u, steps[1..], t);
      }
    }
  }

  /** A call that is cancelled before it returns gives 1 exactly if its arguments are good, the collector
      thread was started (or the token was seen before), and neither thread panicked. */
  lemma CancelledBeforeReturn(args: Args, token: bool, script: seq<Chunk>, before: seq<Step>, s: State, steps: seq<Step>, t: State)
    requires Leads(Called(args, token, script), before, s) && s.token && !s.caller.Returned?
    requires Leads(s, steps, t) && t.caller.Returned?
    ensures t.caller.status.Code() == 1
            <==> args.Accepted() && !(s.caller.Spawning? && t.decoder.Idle?) && t.decoder != Ended(Panic) && !t.collector.Crashed?
  {
    RunsAreConsistent(Called(args, token, script), before, s);
    ArgsStay(Called(args, token, script), before, s);
    CancelledStatus(s, steps, t);
  }

  /** A run that is cancelled, then loses its decoder to a panic, and returns -1. */
  lemma CancelledPanicFails(args: Args) returns (before: seq<Step>, s: State, steps: seq<Step>, t: State)
    requires args.Accepted()
    ensures Leads(Called(args, false, []), before, s) && s.token && !s.caller.Returned?
    ensures Leads(s, steps, t) && t.token && t.caller == Returned(Failed)
  {
    before, steps := [Check, Poll, Spawn(true), Cancel], [End(Panic), Hangup, Join];
    var start := Called(args, false, []);
    s := start.(caller := InScope, decoder := Decoding, collector := Waiting, token := true);
    t := s.(caller := Returned(Failed), decoder := Ended(Panic), collector := Exited);
    assert before[1..][1..] == [Spawn(true), Cancel] && [Spawn(true), Cancel][1..] == [Cancel] && [Cancel][1..] == [];
    assert before[1..] == [Poll, Spawn(true), Cancel];
    var spawning := start.(caller := Spawning);
    assert Leads(spawning, [Spawn(true), Cancel], s);
    assert Leads(start, before, s);
    assert steps[1..] == [Hangup, Join] && [Hangup, Join][1..] == [Join] && [Join][1..] == [];
    assert Leads(s.(decoder := Ended(Panic)), [Hangup, Join], t);
  }

  // ---------- termination ----------

  function CallerRank(c: Caller): nat {
    match c
    case Entering => 4
    case Polling => 3
    case Spawning => 2
    case InScope => 1
    case Returned(_) => 0
  }

  function CollectorRank(c: Collector): nat {
    match c
    case Unborn | Waiting => 2
    case Holding(_) => 6
    case Cleared(_) => 5
    case Calling => 4
    case Stopping => 1
    case Exited | Crashed => 0
  }

  /** How many steps the three threads can still take. */
  function Measure(s: State): nat {
    CallerRank(s.caller) + (if s.decoder.Ended? then 0 else 1) + CollectorRank(s.collector) + 6 * |s.todo| + 5 * |s.queue|
  }

  function Internal(steps: seq<Step>): nat {
    if steps == [] then 0 else (if steps[0].Cancel? then 0 else 1) + Internal(steps[1..])
  }

  lemma StepsDecrease(s: State, step: Step)
    requires Consistent(s) && Enabled(s, step)
    ensures if step.Cancel? then Measure(Apply(s, step)) == Measure(s) else Measure(Apply(s, step)) < Measure(s)
  {
  }

  lemma {:induction false} RunsAreBounded(s: State, steps: seq<Step>, t: State)
    requires Consistent(s) && Leads(s, steps, t)
    ensures Internal(steps) + Measure(t) <= Measure(s)
    decreases |steps|
  {
    if steps != [] {
      RunsAreConsistent(s, [steps[0]], Apply(s, steps[0]));
      StepsDecrease(s, steps[0]);
      RunsAreBounded(Apply(s, steps[0]), steps[1..], t);
    }
  }

  /** Until the call returns some thread can step; afterwards none can. */
  lemma Progress(s: State) returns (step: Step)
    requires Consistent(s)
    ensures !s.caller.Returned? ==> !step.Cancel? && Enabled(s, step)
    ensures s.caller.Returned? ==> forall other: Step | !other.Cancel? :: !Enabled(s, other)
  {
    step :=
      match s.caller
      case Entering => Check
      case Polling => Poll
      case Spawning => Spawn(true)
      case Returned(_) => Cancel
      case InScope =>
        match s.collector
        case Unborn => Cancel
        case Waiting => if s.queue != [] then Receive else if s.decoder.Ended? then Hangup else End(Sound)
        case Holding(_) => Load
        case Cleared(_) => Begin
        case Calling => Answer(true)
        case Stopping => Stop
        case Exited | Crashed => if s.decoder.Ended? then Join else End(Sound);
  }

  /** Every run of a call takes a bounded number of steps, and a run that cannot go on has returned:
      then no callback is in progress and none can start, whether the decoder ended or panicked. */
  lemma CallTerminates(args: Args, token: bool, script: seq<Chunk>, steps: seq<Step>, t: State)
    requires Leads(Called(args, token, script), steps, t)
    ensures Internal(steps) <= 6 * |script| + 7
    ensures t.caller.Returned? <==> forall step: Step | !step.Cancel? :: !Enabled(t, step)
    ensures t.caller.Returned? ==> !t.collector.Calling? && !t.collector.Cleared?
  {
    RunsAreConsistent(Called(args, token, script), steps, t);
    RunsAreBounded(Called(args, token, script), steps, t);
    var step := Progress(t);
  }

  /** After the return nothing but the token can change. */
  lemma {:induction false} QuietAfterReturn(s: State, steps: seq<Step>, t: State)
    requires Consistent(s) && s.caller.Returned? && Leads(s, steps, t)
    ensures t == s.(token := t.token)
    decreases |steps|
  {
    if steps != [] {
      var step := Progress(s);
      RunsAreConsistent(s, [steps[0]], Apply(s, steps[0]));
      QuietAfterReturn(Apply(s, steps[0]), steps[1..], t);
    }
  }
}
