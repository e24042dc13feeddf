/** A painted UI measurement driving the native probe. */
module UiMeasure {
  import opened Common
  import opened Intervals
  import opened UiProbe

  /** What native operations do to the probe while the measurement waits. */
  datatype NativeAction =
    | Open(scenario: Scenario, epoch: Option<nat>, started: Instant)
    | Close(index: nat, duration: nat, payload: Option<nat>)

  /**
   What the measurement finds outside. `clock(0)` is its starting time and `clock(i + 1)` the time at its i-th check
   (none for a reading that is not finite); check i asks `current(i)` and `ready(i)` and may wait for frame i, during
   which the native side does `work(i + 1)`; `work(0)` happens during the operation itself.
   */
  datatype Outside = Outside(
    clock: nat -> Option<real>,
    current: nat -> bool,
    ready: nat -> bool,
    frame: nat -> bool,
    operation: bool,
    retention: bool,
    work: nat -> seq<NativeAction>,
    timeoutMs: real)

  datatype Outcome =
    | BeginRejected(error: ProbeError)
    | Measured(report: Report)
    | FinishRejected(error: ProbeError)       // the verified `finish` threw
    | Failed                                  // the measurement failed and its failure was recorded
    | FailedTwice                             // recording the failure threw as well

  /** The elapsed time at check i; none where `elapsed` throws. */
  function Elapsed(o: Outside, i: nat): Option<real> {
    if o.clock(0).None? || o.clock(i + 1).None? || o.clock(i + 1).value < o.clock(0).value then None
    else Some(o.clock(i + 1).value - o.clock(0).value)
  }

  /** The clock can be read at the start and at check i, and has not run backwards in between. */
  predicate ClockRuns(o: Outside, i: nat) {
    o.clock(0).Some? && o.clock(i + 1).Some? && o.clock(0).value <= o.clock(i + 1).value
  }

  predicate InTime(o: Outside, i: nat) {
    ClockRuns(o, i) && o.clock(i + 1).value - o.clock(0).value <= o.timeoutMs
  }

  /** Check i of the waiting loop sees its owner current, in time, and the view not ready. */
  predicate StillWaiting(o: Outside, i: nat) {
    o.current(i) && InTime(o, i) && !o.ready(i) && o.frame(i)
  }

  /** The view is ready in time at check n, and ready again two frames later, with the owner current both times. */
  predicate PaintedAt(o: Outside, n: nat) {
    && o.operation && o.current(n) && InTime(o, n) && o.ready(n) && o.frame(n) && o.frame(n + 1)
    && o.current(n + 1) && o.ready(n + 1) && ClockRuns(o, n + 1) && o.retention
  }

  /** Check n is the one at which the waiting ends and the view counts as painted. */
  predicate FirstPaintedAt(o: Outside, n: nat) {
    PaintedAt(o, n) && forall i | 0 <= i < n :: StillWaiting(o, i)
  }

  /** The checks before n all go on waiting. */
  predicate WaitingUntil(o: Outside, n: nat) {
    n == 0 || (WaitingUntil(o, n - 1) && StillWaiting(o, n - 1))
  }

  lemma {:induction false} WaitingAtEach(o: Outside, n: nat)
    requires WaitingUntil(o, n)
    ensures forall i | 0 <= i < n :: StillWaiting(o, i)
  {
    if n == 0 {
    } else {
      WaitingAtEach(o, n - 1);
    }
  }

  /** What one check of the loop finds: the view is ready, or the loop throws, or it waits for another frame. */
  datatype Check = Ready | Throws | Waiting

  function CheckAt(o: Outside, n: nat): Check {
    if !o.current(n) || !InTime(o, n) then Throws
    else if o.ready(n) then Ready
    else if o.frame(n) then Waiting
    else Throws
  }

  lemma GoesOnWaiting(o: Outside, n: nat, bound: nat)
    requires CheckAt(o, n) == Waiting && CheckAt(o, bound) != Waiting && n <= bound && WaitingUntil(o, n)
    ensures n < bound && WaitingUntil(o, n + 1)
  {
  }

  lemma CheckMeans(o: Outside, n: nat)
    ensures CheckAt(o, n).Waiting? <==> StillWaiting(o, n)
    ensures CheckAt(o, n).Throws? ==> !PaintedAt(o, n)
  {
  }

  /** A wait that fails at check n is painted at no check. */
  lemma FailsAt(o: Outside, n: nat)
    requires (forall i | 0 <= i < n :: StillWaiting(o, i)) && !StillWaiting(o, n) && !PaintedAt(o, n)
    ensures !exists m: nat :: FirstPaintedAt(o, m)
  {
    forall m: nat ensures !FirstPaintedAt(o, m) {
      if m < n { assert StillWaiting(o, m); } else if n < m { assert !StillWaiting(o, n); }
    }
  }

  /** Some check does not go on waiting; a clock that passes the timeout sees to that. */
  predicate StopsAt(o: Outside, bound: nat) {
    !StillWaiting(o, bound)
  }

  // ---- What the native operations leave open

  /** A span as its report will need it: the sample it is bound to, and when it started. */
  datatype SpanView = SpanView(sampleId: Option<nat>, started: Instant)

  function Views(held: seq<UiBackendSpan>): seq<SpanView> {
    seq(|held|, i requires 0 <= i < |held| => SpanView(held[i].sampleId, held[i].started))
  }

  /** What an operation must ask for to be bound to a sample. */
  datatype Target = Target(id: nat, scenario: Scenario, epoch: Option<nat>, origin: Instant)

  function TargetOf(active: Option<ActiveSample>): Option<Target> {
    if active.None? then None
    else Some(Target(active.value.id, active.value.scenario, active.value.epoch, active.value.origin))
  }

  function Bound(target: Option<Target>, scenario: Scenario, epoch: Option<nat>, started: Instant): Option<nat> {
    if target.Some? && target.value.scenario == scenario && target.value.epoch == epoch
        && target.value.origin <= started
    then Some(target.value.id) else None
  }

  /** The open spans after one action: opening appends one, closing takes one out, if there is such a one to close. */
  function Did(views: seq<SpanView>, target: Option<Target>, action: NativeAction): seq<SpanView> {
    match action
    case Open(scenario, epoch, started) => views + [SpanView(Bound(target, scenario, epoch, started), started)]
    case Close(index, duration, _) =>
      if index < |views| && views[index].started + duration < U128_LIMIT then views[..index] + views[index + 1..]
      else views
  }

  function Worked(views: seq<SpanView>, target: Option<Target>, actions: seq<NativeAction>): seq<SpanView> {
    if actions == [] then views
    else Did(Worked(views, target, actions[..|actions| - 1]), target, actions[|actions| - 1])
  }

  /** The open spans after the operation and k frames. */
  function WorkedUpTo(views: seq<SpanView>, target: Option<Target>, work: nat -> seq<NativeAction>,
      k: nat): seq<SpanView> {
    Worked(if k == 0 then views else WorkedUpTo(views, target, work, k - 1), target, work(k))
  }

  predicate LeavesOpen(views: seq<SpanView>, id: nat) {
    exists i :: 0 <= i < |views| && views[i].sampleId == Some(id)
  }

  /** Every open span of that sample is among these. */
  ghost predicate HoldsAllOf(held: seq<UiBackendSpan>, open: set<UiBackendSpan>, id: nat) {
    forall span | span in open && span.sampleId == Some(id) :: span in held
  }

  lemma OneMoreHeld(open: set<UiBackendSpan>, held: seq<UiBackendSpan>, id: nat, span: UiBackendSpan)
    requires Holds(held, open) && HoldsAllOf(held, open, id) && span !in open
    ensures Holds(held + [span], open + {span}) && HoldsAllOf(held + [span], open + {span}, id)
    ensures Views(held + [span]) == Views(held) + [SpanView(span.sampleId, span.started)]
  {
  }

  lemma OneLessHeld(open: set<UiBackendSpan>, held: seq<UiBackendSpan>, id: nat, index: nat)
    requires Holds(held, open) && HoldsAllOf(held, open, id) && index < |held|
    ensures var left := held[..index] + held[index + 1..];
            && Holds(left, open - {held[index]}) && HoldsAllOf(left, open - {held[index]}, id)
            && Views(left) == Views(held)[..index] + Views(held)[index + 1..]
  {
    assert held == held[..index] + [held[index]] + held[index + 1..];
  }

  /** The probe between two native operations: the open spans of its sample are all held here. */
  ghost predicate Waits(probe: UiProbeState, held: seq<UiBackendSpan>, nextId: nat, target: Option<Target>)
    reads probe
  {
    && probe.Valid() && Holds(held, probe.open) && HoldsAllOf(held, probe.open, nextId)
    && probe.nextId == nextId && TargetOf(probe.active) == target
  }

  /** One native operation opens or closes its span; it never begins or finishes a sample. */
  method PerformOne(probe: UiProbeState, action: NativeAction, held: seq<UiBackendSpan>,
                    ghost nextId: nat, ghost target: Option<Target>)
    returns (left: seq<UiBackendSpan>)
    requires Waits(probe, held, nextId, target)
    modifies probe
    ensures Waits(probe, left, nextId, target) && Views(left) == Did(Views(held), target, action)
  {
    match action
    case Open(scenario, epoch, started) =>
      var span := probe.BackendSpan(scenario, epoch, started);
      OneMoreHeld(old(probe.open), held, nextId, span);
      left := held + [span];
    case Close(index, duration, payload) =>
      left := held;
      if index < |held| && held[index].started + duration < U128_LIMIT {
        OneLessHeld(probe.open, held, nextId, index);
        probe.Drop(held[index], held[index].started + duration, payload);
        left := held[..index] + held[index + 1..];
      }
  }

  method Perform(probe: UiProbeState, actions: seq<NativeAction>, held: seq<UiBackendSpan>,
                 ghost nextId: nat, ghost target: Option<Target>)
    returns (left: seq<UiBackendSpan>)
    requires Waits(probe, held, nextId, target)
    modifies probe
    ensures Waits(probe, left, nextId, target) && Views(left) == Worked(Views(held), target, actions)
  {
    left := held;
    for k := 0 to |actions|
      invariant Waits(probe, left, nextId, target) && Views(left) == Worked(Views(held), target, actions[..k])
    {
      left := PerformOne(probe, actions[k], left, nextId, target);
      assert actions[..k + 1][..k] == actions[..k];
    }
    assert actions[..|actions|] == actions;
  }

  /** Distinct spans that are all still open. */
  ghost predicate Holds(held: seq<UiBackendSpan>, open: set<UiBackendSpan>) {
    && (forall i | 0 <= i < |held| :: held[i] in open)
    && (forall i, j | 0 <= i < j < |held| :: held[i] != held[j])
  }

  /** One turn of the waiting loop: the owner, the clock, the view, and then a frame. */
  method LookOnce(o: Outside, n: nat) returns (check: Check)
    ensures check == CheckAt(o, n)
  {
    if !o.current(n) { return Throws; }
    if Elapsed(o, n).None? || Elapsed(o, n).value > o.timeoutMs { return Throws; }
    if o.ready(n) { return Ready; }
    check := if o.frame(n) then Waiting else Throws;
  }

  /** The frame after check n, with the native work that happens in it. */
  method NextFrame(probe: UiProbeState, o: Outside, n: nat, held: seq<UiBackendSpan>, ghost views: seq<SpanView>,
                   ghost nextId: nat, ghost target: Option<Target>)
    returns (left: seq<UiBackendSpan>)
    requires Waits(probe, held, nextId, target) && Views(held) == WorkedUpTo(views, target, o.work, n)
    modifies probe
    ensures Waits(probe, left, nextId, target) && Views(left) == WorkedUpTo(views, target, o.work, n + 1)
  {
    left := Perform(probe, o.work(n + 1), held, nextId, target);
  }

  /** The waiting loop, up to the check at which the view is first ready or the loop throws. */
  method WaitUntilReady(probe: UiProbeState, o: Outside, held: seq<UiBackendSpan>, ghost bound: nat,
                        ghost nextId: nat, ghost target: Option<Target>)
    returns (ready: bool, n: nat, left: seq<UiBackendSpan>)
    requires Waits(probe, held, nextId, target) && CheckAt(o, bound) != Waiting
    modifies probe
    ensures Waits(probe, left, nextId, target)
    ensures WaitingUntil(o, n) && CheckAt(o, n) == (if ready then Ready else Throws)
    ensures ready ==> Views(left) == WorkedUpTo(Views(held), target, o.work, n)
  {
    left := Perform(probe, o.work(0), held, nextId, target);
    n := 0;
    while true
      invariant Waits(probe, left, nextId, target) && WaitingUntil(o, n) && n <= bound
      invariant Views(left) == WorkedUpTo(Views(held), target, o.work, n)
      decreases bound - n
    {
      var check := LookOnce(o, n);
      if check != Waiting { return check == Ready, n, left; }
      GoesOnWaiting(o, n, bound);
      left := NextFrame(probe, o, n, left, Views(held), nextId, target);
      n := n + 1;
    }
  }

  /** The two frames after the view was ready, and the checks that follow them. */
  method AwaitTwoFrames(probe: UiProbeState, o: Outside, n: nat, held: seq<UiBackendSpan>,
                        ghost nextId: nat, ghost target: Option<Target>)
    returns (painted: bool, left: seq<UiBackendSpan>)
    requires Waits(probe, held, nextId, target) && o.operation && o.clock(0).Some?
    requires o.current(n) && InTime(o, n) && o.ready(n)
    modifies probe
    ensures Waits(probe, left, nextId, target)
    ensures painted <==> PaintedAt(o, n)
    ensures painted ==> Views(left) == Worked(Worked(Views(held), target, o.work(n + 1)), target, o.work(n + 2))
  {
    if !o.frame(n) || !o.frame(n + 1) { return false, held; }
    left := Perform(probe, o.work(n + 1), held, nextId, target);
    left := Perform(probe, o.work(n + 2), left, nextId, target);
    painted := o.current(n + 1) && o.ready(n + 1) && Elapsed(o, n + 1).Some? && o.retention;
  }

  /** The body of the try block: the check at which the view was painted, or nothing if the block threw. */
  method WaitForPaint(probe: UiProbeState, o: Outside, held: seq<UiBackendSpan>, ghost bound: nat,
                      ghost nextId: nat, ghost target: Option<Target>)
    returns (painted: Option<nat>, left: seq<UiBackendSpan>)
    requires Waits(probe, held, nextId, target) && StopsAt(o, bound)
    modifies probe
    ensures Waits(probe, left, nextId, target)
    ensures painted.Some? ==> FirstPaintedAt(o, painted.value)
    ensures painted.None? ==> !exists m: nat :: FirstPaintedAt(o, m)
    ensures painted.Some? ==> Views(left) == WorkedUpTo(Views(held), target, o.work, painted.value + 2)
  {
    if o.clock(0).None? || !o.operation { return None, held; }
    var ok, n;
    CheckMeans(o, bound);
    ok, n, left := WaitUntilReady(probe, o, held, bound, nextId, target);
    WaitingAtEach(o, n);
    CheckMeans(o, n);
    if ok {
      ok, left := AwaitTwoFrames(probe, o, n, left, nextId, target);
      if ok { return Some(n), left; }
    }
    FailsAt(o, n);
    painted := None;
  }

  lemma OpenInViews(open: set<UiBackendSpan>, left: seq<UiBackendSpan>, id: nat)
    requires Holds(left, open) && HoldsAllOf(left, open, id)
    ensures OpenFor(open, id) != {} <==> LeavesOpen(Views(left), id)
  {
    if LeavesOpen(Views(left), id) {
      var i :| 0 <= i < |left| && Views(left)[i].sampleId == Some(id);
      assert left[i] in OpenFor(open, id);
    } else if span :| span in OpenFor(open, id) {
      assert span in left;
      var i :| 0 <= i < |left| && left[i] == span;
      assert Views(left)[i].sampleId == Some(id);
    }
  }

  /** The verified `finish`, with the time at which the view was seen to be painted. */
  method FinishPainted(probe: UiProbeState, id: nat, o: Outside, n: nat) returns (outcome: Outcome)
    requires probe.Valid() && probe.active.Some? && probe.active.value.id == id && ClockRuns(o, n + 1)
    modifies probe
    ensures probe.Valid() && probe.open == old(probe.open) && probe.nextId == old(probe.nextId)
    ensures outcome == FinishRejected(NativeWorkPending) || outcome.Measured?
    ensures outcome.FinishRejected? <==> OpenFor(probe.open, id) != {}
    ensures outcome.FinishRejected? <==> probe.active.Some?
    ensures outcome.Measured? ==> outcome.report.sampleId == id && outcome.report.nativeCallsPending == 0
    ensures outcome.Measured? ==>
              (outcome.report.passed <==>
                 && outcome.report.backendNs.Some? && outcome.report.transferredBytes.Some?
                 && o.clock(n + 2).value - o.clock(0).value >= outcome.report.backendNs.value as real / 1000000.0)
  {
    var finished := probe.Finish(id, Elapsed(o, n + 1), true);
    outcome := if finished.Ok? then Measured(finished.value) else FinishRejected(finished.error);
  }

  /** The `finish` that records a failure. */
  method FinishFailed(probe: UiProbeState, id: nat) returns (outcome: Outcome)
    requires probe.Valid() && probe.active.Some? && probe.active.value.id == id
    modifies probe
    ensures probe.Valid() && probe.active.None? && probe.nextId == old(probe.nextId) && outcome == Failed
  {
    var finished := probe.Finish(id, None, false);
    outcome := if finished.Ok? then Failed else FailedTwice;
  }

  /** What the native side does up to the second frame after check n leaves a span of this sample open. */
  ghost predicate StaysOpen(held: seq<UiBackendSpan>, target: Target, o: Outside, n: nat) {
    LeavesOpen(WorkedUpTo(Views(held), Some(target), o.work, n + 2), target.id)
  }

  /**
   `measurePaintedProjectOperation`. When `begin` succeeds, `finish` is called exactly once, verified exactly when the
   view was painted. Afterwards the sample slot is occupied exactly when the view was painted while a span of the sample
   was still open: then the verified `finish` was refused, and nothing will ever finish that sample.
   */
  method Measure(probe: UiProbeState, scenario: Scenario, epoch: Option<nat>, origin: Instant, o: Outside,
                 held: seq<UiBackendSpan>, ghost bound: nat)
    returns (outcome: Outcome, finishes: nat, painted: Option<nat>)
    requires probe.Valid() && Holds(held, probe.open) && StopsAt(o, bound)
    modifies probe
    ensures probe.Valid()
    ensures outcome.BeginRejected? <==> old(probe.active).Some? || old(probe.nextId) == U64_MAX
    ensures finishes == if outcome.BeginRejected? then 0 else 1
    ensures outcome.BeginRejected? ==> probe.active == old(probe.active)
    ensures painted.Some? ==> FirstPaintedAt(o, painted.value)
    ensures painted.None? && !outcome.BeginRejected? ==> !exists m: nat :: FirstPaintedAt(o, m)
    ensures outcome.Measured? ==> painted.Some? && outcome.report.sampleId == old(probe.nextId) + 1
    ensures outcome.Measured? ==> outcome.report.nativeCallsPending == 0
    ensures outcome.Measured? ==>
              && ClockRuns(o, painted.value + 1)
              && (outcome.report.passed <==>
                    && outcome.report.backendNs.Some? && outcome.report.transferredBytes.Some?
                    && o.clock(painted.value + 2).value - o.clock(0).value
                         >= outcome.report.backendNs.value as real / 1000000.0)
    ensures outcome.Failed? ==> painted.None?
    ensures !outcome.FailedTwice?
    ensures outcome.FinishRejected? <==> painted.Some? && OpenFor(probe.open, probe.nextId) != {}
    ensures outcome.FinishRejected? <==>
              painted.Some? && StaysOpen(held, Target(old(probe.nextId) + 1, scenario, epoch, origin), o, painted.value)
    ensures outcome.Measured? <==> painted.Some? && OpenFor(probe.open, probe.nextId) == {}
    ensures outcome.FinishRejected? ==> outcome.error == NativeWorkPending
    ensures !outcome.BeginRejected? ==> (probe.active.Some? <==> outcome.FinishRejected?)
  {
    finishes, painted := 0, None;
    var begun := probe.Begin(scenario, epoch, origin);
    if begun.Err? { return BeginRejected(begun.error), 0, None; }
    ghost var target := TargetOf(probe.active).value;
    var left;
    painted, left := WaitForPaint(probe, o, held, bound, begun.value, Some(target));
    if painted.Some? {
      OpenInViews(probe.open, left, begun.value);
      outcome := FinishPainted(probe, begun.value, o, painted.value);
      finishes := finishes + 1;
    } else {
      outcome := FinishFailed(probe, begun.value);
      finishes := finishes + 1;
    }
  }

  /** A native operation that starts during the first frame and goes on. */
  function SlowWork(k: nat): seq<NativeAction> {
    if k == 1 then [Open(Window, None, 5)] else []
  }

  /**
   A measurement that leaves the sample slot occupied: the view is painted at once, and native work is still pending.
   */
  method SlotStaysOccupied() returns (probe: UiProbeState, outcome: Outcome)
    ensures fresh(probe) && probe.Valid() && outcome == FinishRejected(NativeWorkPending) && probe.active.Some?
  {
    probe := new UiProbeState();
    var o := Outside(i => Some(i as real), _ => true, _ => true, _ => true, true, true, SlowWork, 100.0);
    assert FirstPaintedAt(o, 0);
    var finishes, painted;
    outcome, finishes, painted := Measure(probe, Window, None, 0, o, [], 200);
    assert !StillWaiting(o, 0);
    assert painted == Some(0);
    SlowWorkStaysOpen(o, Target(1, Window, None, 0));
  }

  lemma SlowWorkStaysOpen(o: Outside, target: Target)
    requires o.work == SlowWork && target == Target(1, Window, None, 0)
    ensures StaysOpen([], target, o, 0)
  {
    var none: seq<SpanView> := Views([]);
    var work: seq<NativeAction> := [Open(Window, None, 5)];
    assert WorkedUpTo(none, Some(target), SlowWork, 0) == none;
    assert Worked(none, Some(target), work[..0]) == none;
    assert WorkedUpTo(none, Some(target), SlowWork, 1) == none + [SpanView(Some(1), 5)];
    assert WorkedUpTo(none, Some(target), SlowWork, 2)[0] == SpanView(Some(1), 5);
  }
}
