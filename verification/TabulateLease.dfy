/** The lease on a prepared tabulate session, and the two commands that hold it. */
module TabulateLease {
  import opened Common
  import opened Warnings
  import opened PostCreate

  const TIMEOUT_MS := 120_000
  const POLL_MS := 25
  const MAX_POLLS := TIMEOUT_MS / POLL_MS

  const SOURCE_CHANGED: Warning := "tabulate_run_source_changed"
  const RELEASE_FAILED: Warning := "tabulate_release_failed"
  const DESCRIBE_FAILED: Warning := "table_create_describe_failed"

  datatype SessionState = Preparing | Ready | Cancelled | Failed

  datatype Session = Session(id: string, fingerprint: string, generation: int, state: SessionState)

  datatype Input = Input(tabulateId: string, datasetId: string, validName: bool, session: Option<Session>)

  /** Why a command threw; `Thrown` is a failure of something it called. */
  datatype Failure = NotFound | InvalidInput | ReadOnly | ExecutionFailed | CommandCancelled | Thrown

  /** What the commands ask of the backend and of the runtime, in order. */
  datatype Call =
    | ReadGeneration
    | Prepare
    | Poll(id: string)
    | BeginCommit
    | Materialize(id: string, fingerprint: string, generation: int)
    | Release(id: string)

  /** What has been asked so far; every call is added where it is made. */
  class CallLog {
    var calls: seq<Call>

    constructor ()
      ensures calls == []
    {
      calls := [];
    }

    method Add(call: Call)
      modifies this
      ensures calls == old(calls) + [call]
    {
      calls := calls + [call];
    }
  }

  /**
   What the commands find outside. `clock(0)` is the reading the deadline is set from and `clock(i + 1)` the one at the
   i-th iteration, `aborted(k)` the signal at the k-th cancellation check, `status(i)` the reply to the i-th poll; an
   absent value is a rejected call. `source` is the source table of the tabulate, absent when there is no such tabulate.
   */
  datatype Outside = Outside(
    source: Option<string>,
    readOnly: bool,
    before: Option<int>,
    prepared: Option<Session>,
    status: nat -> Option<Session>,
    after: Option<int>,
    clock: nat -> int,
    aborted: nat -> bool,
    commits: bool,
    materializes: bool,
    stageFails: Stage -> bool,
    describes: bool,
    releases: bool)

  /** The clock never runs backwards, and a sleep takes at least as long as it was asked to. */
  ghost predicate Timely(o: Outside) {
    o.clock(0) <= o.clock(1) && forall i: nat | i >= 1 :: o.clock(i) + POLL_MS <= o.clock(i + 1)
  }

  /** A signal, once aborted, stays aborted. */
  ghost predicate Sticky(o: Outside) {
    forall i: nat, j: nat | i <= j && o.aborted(i) :: o.aborted(j)
  }

  /** The session an iteration looks at: the prepared one at first, the latest reply afterwards. */
  function SessionAt(o: Outside, i: nat): Option<Session> {
    if i == 0 then o.prepared else o.status(i - 1)
  }

  predicate InTime(o: Outside, i: nat) {
    o.clock(i + 1) < o.clock(0) + TIMEOUT_MS
  }

  /** The session seen in iteration i is the prepared one, over the source as it was read. */
  predicate SameSession(o: Outside, i: nat) {
    && o.prepared.Some? && SessionAt(o, i).Some?
    && SessionAt(o, i).value.id == o.prepared.value.id
    && SessionAt(o, i).value.fingerprint == o.prepared.value.fingerprint
    && Some(SessionAt(o, i).value.generation) == o.before
  }

  predicate InState(o: Outside, i: nat, state: SessionState) {
    SessionAt(o, i).Some? && SessionAt(o, i).value.state == state
  }

  lemma {:induction false} ClockAdvances(o: Outside, i: nat)
    requires Timely(o)
    ensures o.clock(i + 1) >= o.clock(0) + POLL_MS * i
  {
    if i == 0 {
    } else {
      ClockAdvances(o, i - 1);
    }
  }

  /** No iteration after the first 4800 is in time, so no poll follows them. */
  lemma PollsAreFew(o: Outside, i: nat)
    requires Timely(o) && InTime(o, i)
    ensures i < MAX_POLLS
  {
    ClockAdvances(o, i);
  }

  // ---- tabulate.run

  /** Iteration i of a run gets as far as asking for the next status. */
  predicate RunAsks(o: Outside, i: nat) {
    !o.aborted(2 * i + 1) && SameSession(o, i) && InState(o, i, Preparing) && InTime(o, i) && !o.aborted(2 * i + 2)
  }

  predicate RunPolls(o: Outside, i: nat) {
    RunAsks(o, i) && o.status(i).Some?
  }

  ghost predicate RunStopsAt(o: Outside, n: nat) {
    (forall i: nat | i < n :: RunPolls(o, i)) && !RunPolls(o, n)
  }

  /** How a run ends that stops polling in iteration n. */
  function RunVerdict(o: Outside, n: nat): Result<int, Failure> {
    if o.aborted(2 * n + 1) then Err(CommandCancelled)
    else if !SameSession(o, n) then Err(ExecutionFailed)
    else if InState(o, n, Preparing) then
      if !InTime(o, n) then Err(ExecutionFailed)
      else if o.aborted(2 * n + 2) then Err(CommandCancelled)
      else Err(Thrown)
    else if !InState(o, n, Ready) then Err(if InState(o, n, Cancelled) then CommandCancelled else ExecutionFailed)
    else if o.after.None? then Err(Thrown)
    else if o.aborted(2 * n + 2) then Err(CommandCancelled)
    else Ok(o.after.value)
  }

  /** The result object; its last field is still written after it has been returned from. */
  class RunData {
    var session: Session
    var generation: int
    var cacheValid: bool
    var leaseReleased: bool

    constructor (session: Session, generation: int, cacheValid: bool)
      ensures this.session == session && this.generation == generation && this.cacheValid == cacheValid
              && !leaseReleased
    {
      this.session, this.generation, this.cacheValid, leaseReleased := session, generation, cacheValid, false;
    }
  }

  function Polls(id: string, n: nat): (calls: seq<Call>)
    ensures |calls| == n && forall i | 0 <= i < n :: calls[i] == Poll(id)
  {
    seq(n, _ => Poll(id))
  }

  /** All a command asks once it has prepared a session: `asked` polls, then `tail`, and the release at the very end. */
  function Lease(id: string, asked: nat, tail: seq<Call>): seq<Call> {
    [ReadGeneration, Prepare] + Polls(id, asked) + tail + [Release(id)]
  }

  lemma PollsGrow(id: string, n: nat)
    ensures Polls(id, n + 1) == Polls(id, n) + [Poll(id)]
  {
  }

  /** The session is released once, and nothing is asked after that. */
  ghost predicate ReleasedLast(calls: seq<Call>, id: string) {
    && calls != [] && calls[|calls| - 1] == Release(id)
    && forall i | 0 <= i < |calls| :: calls[i].Release? <==> i == |calls| - 1
  }

  /** No session but this one is polled, and this one as often as that. */
  ghost predicate Polled(calls: seq<Call>, id: string, times: nat) {
    multiset(calls)[Poll(id)] == times && forall i | 0 <= i < |calls| && calls[i].Poll? :: calls[i] == Poll(id)
  }

  /** Exactly these calls were made: at most 4800 polls among them, and one release, at the very end. */
  ghost predicate GivenBack(calls: seq<Call>, id: string, asked: nat, tail: seq<Call>) {
    calls == Lease(id, asked, tail) && ReleasedLast(calls, id) && Polled(calls, id, asked) && asked <= MAX_POLLS
  }

  lemma LeaseIsGivenBack(id: string, asked: nat, tail: seq<Call>)
    requires asked <= MAX_POLLS && forall c | c in tail :: !c.Poll? && !c.Release?
    ensures GivenBack(Lease(id, asked, tail), id, asked, tail)
  {
    var calls := Lease(id, asked, tail);
    assert multiset(calls) ==
           multiset([ReadGeneration, Prepare]) + multiset(Polls(id, asked)) + multiset(tail) + multiset([Release(id)]);
    OnlyPolls(id, asked);
    assert Poll(id) !in tail;
    forall i | 0 <= i < |calls|
      ensures (calls[i].Release? <==> i == |calls| - 1) && (calls[i].Poll? ==> calls[i] == Poll(id))
    {
      if 2 + asked <= i < |calls| - 1 { assert calls[i] == tail[i - 2 - asked]; }
    }
  }

  lemma {:induction false} OnlyPolls(id: string, n: nat)
    ensures multiset(Polls(id, n))[Poll(id)] == n
  {
    if n == 0 {
    } else {
      OnlyPolls(id, n - 1);
      PollsGrow(id, n - 1);
    }
  }

  /** The source is read a second time once the session is ready. */
  function RunTail(o: Outside, n: nat): seq<Call> {
    if !o.aborted(2 * n + 1) && SameSession(o, n) && InState(o, n, Ready) then [ReadGeneration] else []
  }

  /** The part of a run inside the try block. */
  method RunPrepared(o: Outside, log: CallLog, warnings: WarningList)
    returns (result: Result<RunData, Failure>, n: nat, ghost asked: nat)
    requires Timely(o) && o.before.Some? && o.prepared.Some? && warnings.items == []
    modifies log, warnings
    ensures RunStopsAt(o, n) && asked == (if RunAsks(o, n) then n + 1 else n) && asked <= MAX_POLLS
    ensures log.calls == old(log.calls) + Polls(o.prepared.value.id, asked) + RunTail(o, n)
    ensures result.Err? ==> RunVerdict(o, n) == Err(result.error)
    ensures result.Ok? ==> fresh(result.value) && o.after.Some? && RunVerdict(o, n) == Ok(o.after.value)
    ensures result.Ok? ==>
            result.value.session == o.prepared.value.(state := Ready) && result.value.generation == o.before.value
    ensures result.Ok? ==> result.value.session.generation == result.value.generation && !result.value.leaseReleased
    ensures result.Ok? ==> (result.value.cacheValid <==> o.after == o.before)
    ensures warnings.items == if result.Ok? && o.after != o.before then [SOURCE_CHANGED] else []
  {
    n, asked := 0, 0;
    ghost var id, was := o.prepared.value.id, log.calls;
    var session := o.prepared.value;
    while true
      invariant SessionAt(o, n) == Some(session) && asked == n
      invariant forall i: nat | i < n :: RunPolls(o, i)
      invariant n <= MAX_POLLS && warnings.items == [] && log.calls == was + Polls(id, n)
      invariant n > 0 ==> o.prepared.value.generation == o.before.value
      decreases MAX_POLLS - n
    {
      if o.aborted(2 * n + 1) { return Err(CommandCancelled), n, asked; }
      if session.id != o.prepared.value.id || session.fingerprint != o.prepared.value.fingerprint
        || session.generation != o.before.value {
        return Err(ExecutionFailed), n, asked;
      }
      if session.state != Preparing { break; }
      if !InTime(o, n) { return Err(ExecutionFailed), n, asked; }
      PollsAreFew(o, n);
      if o.aborted(2 * n + 2) { return Err(CommandCancelled), n, asked; }
      log.Add(Poll(o.prepared.value.id));
      PollsGrow(id, n);
      asked := asked + 1;
      if o.status(n).None? { return Err(Thrown), n, asked; }
      session := o.status(n).value;
      n := n + 1;
    }
    if session.state != Ready {
      return Err(if session.state == Cancelled then CommandCancelled else ExecutionFailed), n, asked;
    }
    log.Add(ReadGeneration);
    if o.after.None? { return Err(Thrown), n, asked; }
    if o.aborted(2 * n + 2) { return Err(CommandCancelled), n, asked; }
    if o.after != o.before { warnings.Push(SOURCE_CHANGED); }
    var data := new RunData(session, o.before.value, o.after == o.before);
    result := Ok(data);
  }

  lemma WarningsDiffer()
    ensures SOURCE_CHANGED != RELEASE_FAILED
  {
    assert SOURCE_CHANGED[10] != RELEASE_FAILED[10];
  }

  lemma RunGivesBack(o: Outside, n: nat, asked: nat, calls: seq<Call>)
    requires o.prepared.Some? && asked <= MAX_POLLS
    requires calls ==
             [ReadGeneration, Prepare] + Polls(o.prepared.value.id, asked) + RunTail(o, n)
             + [Release(o.prepared.value.id)]
    ensures GivenBack(calls, o.prepared.value.id, asked, RunTail(o, n))
  {
    LeaseIsGivenBack(o.prepared.value.id, asked, RunTail(o, n));
    assert calls == Lease(o.prepared.value.id, asked, RunTail(o, n));
  }

  /** The try block of a run and its finally block, which releases the session whatever happened. */
  method RunHolding(o: Outside, log: CallLog, warnings: WarningList) returns (result: Result<RunData, Failure>, n: nat)
    requires Timely(o) && o.before.Some? && o.prepared.Some? && warnings.items == []
    requires log.calls == [ReadGeneration, Prepare]
    modifies log, warnings
    ensures RunStopsAt(o, n)
    ensures GivenBack(log.calls, o.prepared.value.id, if RunAsks(o, n) then n + 1 else n, RunTail(o, n))
    ensures result.Ok? <==> RunVerdict(o, n).Ok?
    ensures result.Err? ==> RunVerdict(o, n) == Err(result.error)
    ensures result.Ok? ==>
              && result.value.session == o.prepared.value.(state := Ready)
              && Some(result.value.generation) == o.before == Some(result.value.session.generation)
              && (result.value.cacheValid <==> o.after == o.before)
              && (result.value.leaseReleased <==> o.releases)
    ensures result.Ok? ==>
              && (result.value.leaseReleased <==> RELEASE_FAILED !in warnings.items)
              && (result.value.cacheValid <==> SOURCE_CHANGED !in warnings.items)
  {
    ghost var asked;
    result, n, asked := RunPrepared(o, log, warnings);
    log.Add(Release(o.prepared.value.id));
    if o.releases {
      if result.Ok? { result.value.leaseReleased := true; }
    } else {
      warnings.Push(RELEASE_FAILED);
    }
    RunGivesBack(o, n, asked, log.calls);
    WarningsDiffer();
  }

  /** Everything was in order up to the point where the session is prepared. */
  predicate RunReachesPrepare(o: Outside, input: Input) {
    input.tabulateId != "" && o.source == Some(input.datasetId) && o.before.Some? && !o.aborted(0)
  }

  /** Why a run throws that never holds a session. */
  function RunRefusal(o: Outside, input: Input): Failure {
    if input.tabulateId == "" then InvalidInput
    else if o.source != Some(input.datasetId) then (if o.source.None? then NotFound else InvalidInput)
    else if o.before.Some? && o.aborted(0) then CommandCancelled
    else Thrown
  }

  /** What a run does before it holds a session. */
  method RunPrepares(o: Outside, input: Input, log: CallLog) returns (refusal: Option<Failure>)
    requires log.calls == []
    modifies log
    ensures refusal.None? <==> RunReachesPrepare(o, input) && o.prepared.Some?
    ensures refusal.Some? ==> refusal.value == RunRefusal(o, input) && log.calls <= [ReadGeneration, Prepare]
    ensures refusal.None? ==> log.calls == [ReadGeneration, Prepare]
  {
    if input.tabulateId == "" { return Some(InvalidInput); }
    if o.source.None? { return Some(NotFound); }
    if o.source.value != input.datasetId { return Some(InvalidInput); }
    log.Add(ReadGeneration);
    if o.before.None? { return Some(Thrown); }
    if o.aborted(0) { return Some(CommandCancelled); }
    log.Add(Prepare);
    if o.prepared.None? { return Some(Thrown); }
    return None;
  }

  /**
   `executeTabulateRun`. Once a session is prepared, its lease is given back exactly once and last, whatever happened in
   between; a returned run is of that very session, and its `leaseReleased` says whether the release succeeded.
   */
  method Run(o: Outside, input: Input)
    returns (result: Result<RunData, Failure>, warnings: WarningList, n: nat, log: CallLog)
    requires Timely(o)
    ensures fresh(warnings) && fresh(log)
    ensures !(RunReachesPrepare(o, input) && o.prepared.Some?) ==>
              result.Err? && result.error == RunRefusal(o, input) && log.calls <= [ReadGeneration, Prepare]
    ensures RunReachesPrepare(o, input) && o.prepared.Some? ==>
              && RunStopsAt(o, n)
              && GivenBack(log.calls, o.prepared.value.id, if RunAsks(o, n) then n + 1 else n, RunTail(o, n))
              && (result.Ok? <==> RunVerdict(o, n).Ok?)
              && (result.Err? ==> RunVerdict(o, n) == Err(result.error))
    ensures result.Ok? ==>
              && result.value.session == o.prepared.value.(state := Ready)
              && Some(result.value.generation) == o.before == Some(result.value.session.generation)
              && (result.value.cacheValid <==> o.after == o.before)
              && (result.value.leaseReleased <==> o.releases)
    ensures result.Ok? ==>
              && (result.value.leaseReleased <==> RELEASE_FAILED !in warnings.items)
              && (result.value.cacheValid <==> SOURCE_CHANGED !in warnings.items)
  {
    n := 0;
    log := new CallLog();
    warnings := new WarningList();
    var refusal := RunPrepares(o, input, log);
    if refusal.Some? { return Err(refusal.value), warnings, n, log; }
    result, n := RunHolding(o, log, warnings);
  }

  /** A run polls no more than 4800 times. */
  lemma RunPollsAreFew(o: Outside, n: nat)
    requires Timely(o) && RunStopsAt(o, n)
    ensures (if RunAsks(o, n) then n + 1 else n) <= MAX_POLLS == 4800
  {
    if RunAsks(o, n) {
      PollsAreFew(o, n);
    } else if n > 0 {
      assert RunPolls(o, n - 1);
      PollsAreFew(o, n - 1);
    }
  }

  /** The bound is sharp: with sleeps of exactly 25 ms, a session that never gets ready is polled 4800 times. */
  lemma AllPollsAreMade(o: Outside)
    requires forall i: nat :: o.clock(i + 1) == o.clock(0) + POLL_MS * i
    requires forall i: nat :: SameSession(o, i) && InState(o, i, Preparing) && !o.aborted(i)
    ensures RunStopsAt(o, MAX_POLLS) && !RunAsks(o, MAX_POLLS) && RunVerdict(o, MAX_POLLS) == Err(ExecutionFailed)
  {
    forall i: nat | i < MAX_POLLS ensures RunPolls(o, i) {
      assert SameSession(o, i + 1) && o.clock(i + 1) == o.clock(0) + POLL_MS * i;
    }
    assert o.clock(MAX_POLLS + 1) == o.clock(0) + POLL_MS * MAX_POLLS;
  }

  /** A session that keeps being the prepared one, in time, until it is ready after n polls. */
  ghost predicate GetsReady(o: Outside, n: nat) {
    && (forall i: nat | i < n :: InState(o, i, Preparing) && InTime(o, i) && SameSession(o, i))
    && InState(o, n, Ready) && SameSession(o, n)
  }

  /**
   What a run returns for, in the caller's terms: the prepared session gets ready in time and is never exchanged, the
   source can be read again, and nobody has cancelled by the last check.
   */
  lemma RunReturnsExactly(o: Outside, n: nat)
    requires Sticky(o)
    ensures RunStopsAt(o, n) && RunVerdict(o, n).Ok? <==> GetsReady(o, n) && o.after.Some? && !o.aborted(2 * n + 2)
  {
    if GetsReady(o, n) && !o.aborted(2 * n + 2) {
      forall i: nat | i < n ensures RunPolls(o, i) {
        assert SameSession(o, i + 1) by { if i + 1 < n { assert InTime(o, i + 1); } }
        assert !o.aborted(2 * i + 1) && !o.aborted(2 * i + 2);
      }
      assert !o.aborted(2 * n + 1);
    } else if RunStopsAt(o, n) && RunVerdict(o, n).Ok? {
      forall i: nat | i < n ensures InState(o, i, Preparing) && InTime(o, i) && SameSession(o, i) {
        assert RunPolls(o, i);
      }
    }
  }

  /** A run that stops polling in iteration n gets as far as its k-th look at the signal. */
  predicate RunLooks(o: Outside, n: nat, k: nat) {
    || k <= 2 * n + 1
    || (&& k == 2 * n + 2 && SameSession(o, n)
        && ((InState(o, n, Preparing) && InTime(o, n)) || (InState(o, n, Ready) && o.after.Some?)))
  }

  /**
   How a run fails, in the caller's terms: as cancelled when the signal was aborted at a look it got to, or the prepared
   session is itself cancelled; as a failed execution when the session was exchanged, ran out of time or failed; and
   with what a poll or the second reading of the source threw.
   */
  lemma RunFailsExactly(o: Outside, n: nat)
    requires Sticky(o) && RunStopsAt(o, n)
    ensures RunVerdict(o, n) == Err(CommandCancelled) <==>
              || (exists k: nat :: RunLooks(o, n, k) && o.aborted(k))
              || (SameSession(o, n) && InState(o, n, Cancelled))
    ensures RunVerdict(o, n) == Err(ExecutionFailed) <==>
              && (forall k: nat | k <= 2 * n + 1 :: !o.aborted(k))
              && (|| !SameSession(o, n) || (InState(o, n, Preparing) && !InTime(o, n)) || InState(o, n, Failed))
    ensures RunVerdict(o, n) == Err(Thrown) <==>
              && (forall k: nat | RunLooks(o, n, k) :: !o.aborted(k)) && SameSession(o, n)
              && (|| (InState(o, n, Preparing) && InTime(o, n) && o.status(n).None?)
                  || (InState(o, n, Ready) && o.after.None?))
    ensures RunVerdict(o, n).Err? ==> RunVerdict(o, n).error in {CommandCancelled, ExecutionFailed, Thrown}
  {
    if k: nat :| RunLooks(o, n, k) && o.aborted(k) { LooksStick(o, n, k); }
    assert o.aborted(2 * n + 1) ==> RunLooks(o, n, 2 * n + 1);
    assert RunLooks(o, n, 2 * n + 2) || !RunLooks(o, n, 2 * n + 2);
  }

  lemma LooksStick(o: Outside, n: nat, k: nat)
    requires Sticky(o) && RunLooks(o, n, k) && o.aborted(k)
    ensures o.aborted(2 * n + 2) && (k <= 2 * n + 1 ==> o.aborted(2 * n + 1))
  {
  }

  /** Why a run throws that never holds a session, in the order its checks are made. */
  lemma RunRefusedExactly(o: Outside, input: Input)
    requires !(RunReachesPrepare(o, input) && o.prepared.Some?)
    ensures RunRefusal(o, input) == InvalidInput <==>
              input.tabulateId == "" || (o.source.Some? && o.source.value != input.datasetId)
    ensures RunRefusal(o, input) == NotFound <==> input.tabulateId != "" && o.source.None?
    ensures RunRefusal(o, input) == CommandCancelled <==>
              input.tabulateId != "" && o.source == Some(input.datasetId) && o.before.Some? && o.aborted(0)
    ensures RunRefusal(o, input) == Thrown <==>
              && input.tabulateId != "" && o.source == Some(input.datasetId)
              && (o.before.None? || (!o.aborted(0) && o.prepared.None?))
  {
  }

  // ---- tabulate.exportTable

  /** Iteration i of an export gets as far as asking for the next status. The session's identity is not looked at. */
  predicate ExportAsks(o: Outside, i: nat) {
    !o.aborted(2) && InState(o, i, Preparing) && InTime(o, i) && !o.aborted(2 * i + 3)
  }

  predicate ExportPolls(o: Outside, i: nat) {
    ExportAsks(o, i) && o.status(i).Some? && !o.aborted(2 * i + 4)
  }

  ghost predicate ExportStopsAt(o: Outside, n: nat) {
    (forall i: nat | i < n :: ExportPolls(o, i)) && !ExportPolls(o, n)
  }

  /** How an export ends that stops polling in iteration n. */
  function ExportVerdict(o: Outside, n: nat): Result<(), Failure> {
    if o.aborted(2) then Err(CommandCancelled)
    else if InState(o, n, Preparing) then
      if !InTime(o, n) then Err(ExecutionFailed)
      else if o.aborted(2 * n + 3) then Err(CommandCancelled)
      else if o.status(n).None? then Err(Thrown)
      else Err(CommandCancelled)
    else if !InState(o, n, Ready) || !SameSession(o, n) then Err(ExecutionFailed)
    else if o.after.None? then Err(Thrown)
    else if o.after != o.before then Err(ExecutionFailed)
    else if o.aborted(2 * n + 3) then Err(CommandCancelled)
    else if !o.commits || !o.materializes then Err(Thrown)
    else Ok(())
  }

  /** How far an export gets between the last poll and the release. */
  function ExportTail(o: Outside, n: nat): seq<Call> {
    if o.aborted(2) || !InState(o, n, Ready) || !SameSession(o, n) then []
    else if o.after.None? || o.after != o.before || o.aborted(2 * n + 3) then [ReadGeneration]
    else if !o.commits then [ReadGeneration, BeginCommit]
    else [ReadGeneration, BeginCommit, Materialize(o.prepared.value.id, o.prepared.value.fingerprint, o.before.value)]
  }

  datatype ExportData = ExportData(reran: bool, fingerprint: string, generation: int)

  /** `completeMaterializedTable`: it never throws, and every stage runs. */
  method CompleteMaterializedTable(o: Outside) returns (warnings: WarningList)
    ensures fresh(warnings)
    ensures warnings.items ==
            Failures(STAGES, o.stageFails, TABLE_CREATE_WARNINGS) + if o.describes then [] else [DESCRIBE_FAILED]
  {
    warnings := new WarningList();
    var ran, thrown := RunPostCreate(_ => true, o.stageFails, warnings, TABLE_CREATE_WARNINGS);
    assert ran == STAGES;
    if !o.describes {
      warnings.Push(DESCRIBE_FAILED);
    }
  }

  /** The cached session the caller sent along is not the one that was exported, or had to be prepared anew. */
  predicate Reran(o: Outside, input: Input) {
    || o.prepared.None? || o.prepared.value.state != Ready || input.session.None?
    || input.session.value.id != o.prepared.value.id
    || input.session.value.fingerprint != o.prepared.value.fingerprint
    || Some(input.session.value.generation) != o.before
  }

  /** What an export does once its session is no longer being prepared. */
  method ExportReady(o: Outside, input: Input, session: Session, n: nat, log: CallLog, warnings: WarningList)
    returns (result: Result<ExportData, Failure>)
    requires o.before.Some? && o.prepared.Some? && warnings.items == []
    requires SessionAt(o, n) == Some(session) && session.state != Preparing && !o.aborted(2)
    modifies log, warnings
    ensures log.calls == old(log.calls) + ExportTail(o, n)
    ensures result.Ok? <==> ExportVerdict(o, n).Ok?
    ensures result.Err? ==> ExportVerdict(o, n) == Err(result.error)
    ensures result.Ok? ==> result.value == ExportData(Reran(o, input), o.prepared.value.fingerprint, o.before.value)
    ensures warnings.items == if result.Err? then [] else
              Failures(STAGES, o.stageFails, TABLE_CREATE_WARNINGS) + if o.describes then [] else [DESCRIBE_FAILED]
  {
    if session.state != Ready { return Err(ExecutionFailed); }
    if session.id != o.prepared.value.id || session.fingerprint != o.prepared.value.fingerprint
      || session.generation != o.before.value {
      return Err(ExecutionFailed);
    }
    log.Add(ReadGeneration);
    if o.after.None? { return Err(Thrown); }
    if o.after != o.before { return Err(ExecutionFailed); }
    if o.aborted(2 * n + 3) { return Err(CommandCancelled); }
    log.Add(BeginCommit);
    if !o.commits { return Err(Thrown); }
    log.Add(Materialize(session.id, session.fingerprint, o.before.value));
    if !o.materializes { return Err(Thrown); }
    var completed := CompleteMaterializedTable(o);
    warnings.items := warnings.items + completed.items;
    var reran := o.prepared.value.state != Ready || input.session.None? || input.session.value.id != session.id
      || input.session.value.fingerprint != session.fingerprint || input.session.value.generation != o.before.value;
    result := Ok(ExportData(reran, session.fingerprint, o.before.value));
  }

  /** The part of an export inside the try block. */
  method ExportPrepared(o: Outside, input: Input, log: CallLog, warnings: WarningList)
    returns (result: Result<ExportData, Failure>, n: nat, ghost asked: nat)
    requires Timely(o) && o.before.Some? && o.prepared.Some? && warnings.items == []
    modifies log, warnings
    ensures ExportStopsAt(o, n) && asked == (if ExportAsks(o, n) then n + 1 else n) && asked <= MAX_POLLS
    ensures log.calls == old(log.calls) + Polls(o.prepared.value.id, asked) + ExportTail(o, n)
    ensures result.Ok? <==> ExportVerdict(o, n).Ok?
    ensures result.Err? ==> ExportVerdict(o, n) == Err(result.error)
    ensures result.Ok? ==> result.value == ExportData(Reran(o, input), o.prepared.value.fingerprint, o.before.value)
    ensures warnings.items == if result.Err? then [] else
              Failures(STAGES, o.stageFails, TABLE_CREATE_WARNINGS) + if o.describes then [] else [DESCRIBE_FAILED]
  {
    n, asked := 0, 0;
    ghost var id, was := o.prepared.value.id, log.calls;
    if o.aborted(2) { return Err(CommandCancelled), n, asked; }
    var session := o.prepared.value;
    while session.state == Preparing
      invariant SessionAt(o, n) == Some(session) && asked == n
      invariant forall i: nat | i < n :: ExportPolls(o, i)
      invariant n <= MAX_POLLS && warnings.items == [] && log.calls == was + Polls(id, n)
      decreases MAX_POLLS - n
    {
      if !InTime(o, n) { return Err(ExecutionFailed), n, asked; }
      PollsAreFew(o, n);
      if o.aborted(2 * n + 3) { return Err(CommandCancelled), n, asked; }
      log.Add(Poll(o.prepared.value.id));
      PollsGrow(id, n);
      asked := asked + 1;
      if o.status(n).None? { return Err(Thrown), n, asked; }
      session := o.status(n).value;
      if o.aborted(2 * n + 4) { return Err(CommandCancelled), n, asked; }
      n := n + 1;
    }
    result := ExportReady(o, input, session, n, log, warnings);
  }

  /** Everything was in order up to the point where the session is prepared. */
  predicate ExportReachesPrepare(o: Outside, input: Input) {
    && input.tabulateId != "" && input.validName && !o.readOnly && o.source == Some(input.datasetId)
    && !o.aborted(0) && o.before.Some? && !o.aborted(1)
  }

  /**
   A table was materialized once, for the prepared session and the source as it was read, right after the commit
   began.
   */
  ghost predicate MaterializedAt(o: Outside, calls: seq<Call>, k: nat)
    requires o.prepared.Some? && o.before.Some? && k < |calls|
  {
    && k > 0 && calls[k - 1] == BeginCommit && o.commits
    && calls[k] == Materialize(o.prepared.value.id, o.prepared.value.fingerprint, o.before.value)
    && forall j | 0 <= j < |calls| && j != k :: !calls[j].Materialize?
  }

  ghost predicate MaterializedAtMostOnce(o: Outside, calls: seq<Call>)
    requires o.prepared.Some? && o.before.Some?
  {
    forall k | 0 <= k < |calls| && calls[k].Materialize? :: MaterializedAt(o, calls, k)
  }

  lemma MaterializesOnce(o: Outside, n: nat, asked: nat)
    requires o.prepared.Some? && o.before.Some?
    ensures MaterializedAtMostOnce(o, Lease(o.prepared.value.id, asked, ExportTail(o, n)))
  {
    var calls, tail := Lease(o.prepared.value.id, asked, ExportTail(o, n)), ExportTail(o, n);
    assert forall j | 2 + asked <= j < 2 + asked + |tail| :: calls[j] == tail[j - 2 - asked];
    forall k | 0 <= k < |calls| && calls[k].Materialize? ensures MaterializedAt(o, calls, k) {
      assert k == 2 + asked + 2;
    }
  }

  /** Why an export throws that never holds a session. */
  function ExportRefusal(o: Outside, input: Input): Failure {
    if input.tabulateId == "" || !input.validName then InvalidInput
    else if o.readOnly then ReadOnly
    else if o.source != Some(input.datasetId) then (if o.source.None? then NotFound else InvalidInput)
    else if o.aborted(0) || (o.before.Some? && o.aborted(1)) then CommandCancelled
    else Thrown
  }

  /** The warnings of an export that returned. */
  function ExportWarnings(o: Outside): seq<Warning> {
    Failures(STAGES, o.stageFails, TABLE_CREATE_WARNINGS)
    + (if o.describes then [] else [DESCRIBE_FAILED]) + (if o.releases then [] else [RELEASE_FAILED])
  }

  lemma ExportGivesBack(o: Outside, n: nat, asked: nat, calls: seq<Call>)
    requires o.prepared.Some? && o.before.Some? && asked <= MAX_POLLS
    requires calls ==
             [ReadGeneration, Prepare] + Polls(o.prepared.value.id, asked) + ExportTail(o, n)
             + [Release(o.prepared.value.id)]
    ensures GivenBack(calls, o.prepared.value.id, asked, ExportTail(o, n)) && MaterializedAtMostOnce(o, calls)
  {
    LeaseIsGivenBack(o.prepared.value.id, asked, ExportTail(o, n));
    MaterializesOnce(o, n, asked);
    assert calls == Lease(o.prepared.value.id, asked, ExportTail(o, n));
  }

  /** The try block of an export and its finally block, which releases the session whatever happened. */
  method ExportHolding(o: Outside, input: Input, log: CallLog, warnings: WarningList)
    returns (result: Result<ExportData, Failure>, n: nat)
    requires Timely(o) && o.before.Some? && o.prepared.Some? && warnings.items == []
    requires log.calls == [ReadGeneration, Prepare]
    modifies log, warnings
    ensures ExportStopsAt(o, n)
    ensures GivenBack(log.calls, o.prepared.value.id, if ExportAsks(o, n) then n + 1 else n, ExportTail(o, n))
    ensures MaterializedAtMostOnce(o, log.calls)
    ensures result.Ok? <==> ExportVerdict(o, n).Ok?
    ensures result.Err? ==> ExportVerdict(o, n) == Err(result.error)
    ensures result.Ok? ==> result.value == ExportData(Reran(o, input), o.prepared.value.fingerprint, o.before.value)
    ensures result.Ok? ==> warnings.items == ExportWarnings(o)
  {
    ghost var asked;
    result, n, asked := ExportPrepared(o, input, log, warnings);
    log.Add(Release(o.prepared.value.id));
    if !o.releases {
      warnings.Push(RELEASE_FAILED);
    }
    ExportGivesBack(o, n, asked, log.calls);
  }

  /** What an export does before it holds a session. */
  method ExportPrepares(o: Outside, input: Input, log: CallLog) returns (refusal: Option<Failure>)
    requires log.calls == []
    modifies log
    ensures refusal.None? <==> ExportReachesPrepare(o, input) && o.prepared.Some?
    ensures refusal.Some? ==> refusal.value == ExportRefusal(o, input) && log.calls <= [ReadGeneration, Prepare]
    ensures refusal.None? ==> log.calls == [ReadGeneration, Prepare]
  {
    if input.tabulateId == "" || !input.validName { return Some(InvalidInput); }
    if o.readOnly { return Some(ReadOnly); }
    if o.source.None? { return Some(NotFound); }
    if o.source.value != input.datasetId { return Some(InvalidInput); }
    if o.aborted(0) { return Some(CommandCancelled); }
    log.Add(ReadGeneration);
    if o.before.None? { return Some(Thrown); }
    if o.aborted(1) { return Some(CommandCancelled); }
    log.Add(Prepare);
    if o.prepared.None? { return Some(Thrown); }
    return None;
  }

  /** `exportTable`. */
  method ExportTable(o: Outside, input: Input)
    returns (result: Result<ExportData, Failure>, warnings: WarningList, n: nat, log: CallLog)
    requires Timely(o)
    ensures fresh(warnings) && fresh(log)
    ensures !(ExportReachesPrepare(o, input) && o.prepared.Some?) ==>
              result.Err? && result.error == ExportRefusal(o, input) && log.calls <= [ReadGeneration, Prepare]
    ensures ExportReachesPrepare(o, input) && o.prepared.Some? ==>
              && ExportStopsAt(o, n)
              && GivenBack(log.calls, o.prepared.value.id, if ExportAsks(o, n) then n + 1 else n, ExportTail(o, n))
              && MaterializedAtMostOnce(o, log.calls)
              && (result.Ok? <==> ExportVerdict(o, n).Ok?)
              && (result.Err? ==> ExportVerdict(o, n) == Err(result.error))
    ensures result.Ok? ==> result.value == ExportData(Reran(o, input), o.prepared.value.fingerprint, o.before.value)
    ensures result.Ok? ==> warnings.items == ExportWarnings(o)
  {
    n := 0;
    log := new CallLog();
    warnings := new WarningList();
    var refusal := ExportPrepares(o, input, log);
    if refusal.Some? { return Err(refusal.value), warnings, n, log; }
    result, n := ExportHolding(o, input, log, warnings);
  }

  /** An export polls no more than 4800 times. */
  lemma ExportPollsAreFew(o: Outside, n: nat)
    requires Timely(o) && ExportStopsAt(o, n)
    ensures (if ExportAsks(o, n) then n + 1 else n) <= MAX_POLLS == 4800
  {
    if ExportAsks(o, n) {
      PollsAreFew(o, n);
    } else if n > 0 {
      assert ExportPolls(o, n - 1);
      PollsAreFew(o, n - 1);
    }
  }

  /** An export that stops polling in iteration n gets as far as its k-th look at the signal. */
  predicate ExportLooks(o: Outside, n: nat, k: nat) {
    || k <= 2 * n + 2
    || (k == 2 * n + 3 && InState(o, n, Preparing) && InTime(o, n))
    || (k == 2 * n + 3 && InState(o, n, Ready) && SameSession(o, n) && o.after == o.before)
    || (k == 2 * n + 4 && InState(o, n, Preparing) && InTime(o, n) && o.status(n).Some?)
  }

  /**
   How an export fails: as cancelled exactly when the signal was aborted at a look it got to; as a failed execution when
   the session ran out of time, failed, was itself cancelled or was exchanged, or the source has changed; and with what
   a poll, the second reading, the commit or the materialization threw.
   */
  lemma ExportFailsExactly(o: Outside, n: nat)
    requires Sticky(o) && ExportStopsAt(o, n) && o.prepared.Some? && o.before.Some?
    ensures ExportVerdict(o, n) == Err(CommandCancelled) <==>
              exists k: nat :: ExportLooks(o, n, k) && o.aborted(k)
    ensures ExportVerdict(o, n) == Err(ExecutionFailed) <==>
              && (forall k: nat | k <= 2 * n + 2 :: !o.aborted(k))
              && (|| (InState(o, n, Preparing) && !InTime(o, n))
                  || InState(o, n, Failed) || InState(o, n, Cancelled)
                  || (InState(o, n, Ready) && !SameSession(o, n))
                  || (InState(o, n, Ready) && o.after.Some? && o.after != o.before))
    ensures ExportVerdict(o, n) == Err(Thrown) <==>
              && (forall k: nat | ExportLooks(o, n, k) :: !o.aborted(k))
              && (|| (InState(o, n, Preparing) && InTime(o, n) && o.status(n).None?)
                  || (&& InState(o, n, Ready) && SameSession(o, n)
                      && (o.after.None? || (o.after == o.before && (!o.commits || !o.materializes)))))
    ensures ExportVerdict(o, n).Err? ==> ExportVerdict(o, n).error in {CommandCancelled, ExecutionFailed, Thrown}
  {
    ExportHasSession(o, n);
    if k: nat :| ExportLooks(o, n, k) && o.aborted(k) { ExportLooksStick(o, n, k); }
    assert ExportLooks(o, n, 2) && ExportLooks(o, n, 2 * n + 2);
    assert ExportLooks(o, n, 2 * n + 3) || !ExportLooks(o, n, 2 * n + 3);
    assert ExportLooks(o, n, 2 * n + 4) || !ExportLooks(o, n, 2 * n + 4);
  }

  lemma ExportHasSession(o: Outside, n: nat)
    requires ExportStopsAt(o, n) && o.prepared.Some?
    ensures SessionAt(o, n).Some? && (n > 0 ==> !o.aborted(2 * n + 2))
  {
    if n > 0 { assert ExportPolls(o, n - 1); }
  }

  lemma ExportLooksStick(o: Outside, n: nat, k: nat)
    requires Sticky(o) && ExportLooks(o, n, k) && o.aborted(k)
    ensures k <= 2 * n + 2 ==> o.aborted(2 * n + 2)
    ensures k <= 2 * n + 3 ==> o.aborted(2 * n + 3)
    ensures o.aborted(2 * n + 4)
  {
  }

  /** Why an export throws that never holds a session, in the order its checks are made. */
  lemma ExportRefusedExactly(o: Outside, input: Input)
    requires !(ExportReachesPrepare(o, input) && o.prepared.Some?)
    ensures ExportRefusal(o, input) == InvalidInput <==>
              || input.tabulateId == "" || !input.validName
              || (!o.readOnly && o.source.Some? && o.source.value != input.datasetId)
    ensures ExportRefusal(o, input) == ReadOnly <==> input.tabulateId != "" && input.validName && o.readOnly
    ensures ExportRefusal(o, input) == NotFound <==>
              input.tabulateId != "" && input.validName && !o.readOnly && o.source.None?
    ensures ExportRefusal(o, input) == CommandCancelled <==>
              && input.tabulateId != "" && input.validName && !o.readOnly && o.source == Some(input.datasetId)
              && (o.aborted(0) || (o.before.Some? && o.aborted(1)))
    ensures ExportRefusal(o, input) == Thrown <==>
              && input.tabulateId != "" && input.validName && !o.readOnly && o.source == Some(input.datasetId)
              && !o.aborted(0) && (o.before.None? || (!o.aborted(1) && o.prepared.None?))
  {
  }

  /**
   An export that returns says that it did not run again if and only if it polled nothing and its table is made of the
   very session the caller had.
   */
  lemma RerunExactly(o: Outside, input: Input, n: nat)
    requires ExportStopsAt(o, n) && ExportVerdict(o, n).Ok? && o.before.Some?
    ensures SessionAt(o, n).Some?
    ensures !Reran(o, input) <==>
            n == 0 && input.session.Some? && input.session.value.(state := Ready) == SessionAt(o, n).value
  {
    if n > 0 { assert ExportPolls(o, 0); }
  }

  /**
   What an export commits for: as for a run, but the source must not have changed, and only the last status is
   compared.
   */
  ghost predicate MayCommit(o: Outside, n: nat) {
    && (forall i: nat | i < n :: InState(o, i, Preparing) && InTime(o, i))
    && InState(o, n, Ready) && SameSession(o, n) && o.after == o.before && !o.aborted(2 * n + 3)
  }

  /**
   A table is materialized exactly when that holds and the commit begins, and then an export fails only if that call
   did.
   */
  lemma ExportReturnsExactly(o: Outside, n: nat)
    requires Sticky(o) && o.before.Some?
    ensures ExportStopsAt(o, n) && BeginCommit in ExportTail(o, n) <==> MayCommit(o, n)
    ensures ExportStopsAt(o, n) && |ExportTail(o, n)| == 3 <==> MayCommit(o, n) && o.commits
    ensures ExportStopsAt(o, n) && ExportVerdict(o, n).Ok? <==> MayCommit(o, n) && o.commits && o.materializes
  {
    if MayCommit(o, n) {
      forall i: nat | i < n ensures ExportPolls(o, i) {
        assert SessionAt(o, i + 1).Some? by { if i + 1 < n { assert InTime(o, i + 1); } }
        assert !o.aborted(2) && !o.aborted(2 * i + 3) && !o.aborted(2 * i + 4);
      }
      assert !o.aborted(2);
    } else if ExportStopsAt(o, n) && BeginCommit in ExportTail(o, n) {
      forall i: nat | i < n ensures InState(o, i, Preparing) && InTime(o, i) {
        assert ExportPolls(o, i);
      }
    }
  }
}
