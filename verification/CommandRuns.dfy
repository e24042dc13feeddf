/** Every run of the command runtime keeps its invariants, and undoes nothing it did to a request. */
module CommandRuns {
  import opened Common
  import opened CommandProtocol
  import opened CommandInvariant
  import opened CommandQueue
  import opened CommandArchive
  import opened CommandKeys
  import opened CommandRevision
  import opened CommandLog

  ghost predicate RequestsInv(s: State) {
    forall i | 0 <= i < |s.requests| :: RequestInv(s.requests[i])
  }

  ghost predicate RevisionInv(s: State) {
    && s.world.revision == s.cfg.initialRevision + s.drift + BumpCount(s.requests)
    && (s.quiet ==> s.drift == 0 && !s.world.authoritative && AllSeen(s.requests, s.cfg.initialRevision))
    && (!s.cfg.hasAdapter ==> s.quiet)
  }

  /** The queue and where its requests are kept. */
  ghost predicate QueueInv(s: State) {
    && RequestsInv(s)
    && Chained(s.requests, s.tail) && Serial(s.requests)
    && LiveInv(s.requests, s.live)
    && HistoryInv(s.requests, s.archive.history)
    && ArchiveInv(s.archive)
  }

  /** The books kept about the requests. */
  ghost predicate BooksInv(s: State) {
    && KeyInv(s.requests, s.cache, s.inFlight)
    && RevisionInv(s)
    && LogInv(s.requests, s.cfg.hasGuard, s.log)
  }

  ghost predicate Inv(s: State) {
    QueueInv(s) && BooksInv(s)
  }

  lemma InitQueueInv(cfg: Config, owner: Owner)
    ensures QueueInv(Init(cfg, owner))
  {}

  lemma InitBooksInv(cfg: Config, owner: Owner)
    ensures BooksInv(Init(cfg, owner))
  {}

  lemma InitInv(cfg: Config, owner: Owner)
    ensures Inv(Init(cfg, owner))
  {
    InitQueueInv(cfg, owner);
    InitBooksInv(cfg, owner);
  }

  // ---------------------------------------------------------------- one request moves

  /** The parts of the state after a request has been installed. */
  lemma InstalledParts(s: State, i: nat, m: Move, next: Request, events: seq<Event>)
    requires i < |s.requests|
    ensures var t, put := Installed(s, i, m, next, events), Put(s, i, next);
            && t.requests == s.requests[i := next] == put.requests
            && t.cfg == s.cfg && t.handlers == s.handlers && t.tail == s.tail
            && t.drift == s.drift && t.quiet == s.quiet
            && t.live == put.live && t.archive == put.archive
            && t.log == s.log + events
            && t.world == (if next.bumped && !s.requests[i].bumped
                           then s.world.(revision := s.world.revision + 1) else s.world)
  {
    PutParts(s, i, next);
    if next.bumped && !s.requests[i].bumped {
    } else if m.StoreContinues? {
    } else if m.CleanupContinues? {
    } else {}
  }

  lemma PutParts(s: State, i: nat, next: Request)
    requires i < |s.requests|
    ensures var put := Put(s, i, next);
            && put.requests == s.requests[i := next]
            && put.cfg == s.cfg && put.handlers == s.handlers && put.tail == s.tail && put.world == s.world
            && put.drift == s.drift && put.quiet == s.quiet && put.log == s.log
            && put.cache == s.cache && put.inFlight == s.inFlight
  {
    if !s.requests[i].Settled() && next.Settled() {} else {}
  }

  /** The tables of the state after a request has been installed. */
  lemma InstalledTables(s: State, i: nat, m: Move, next: Request, events: seq<Event>)
    requires i < |s.requests| && CanMove(s.requests[i], m)
            && (next.bumped && !s.requests[i].bumped ==> m.HandlerReturns?)
    requires m.CleanupContinues? ==> s.requests[i].key.value in s.inFlight && s.inFlight[s.requests[i].key.value] == i
    ensures var t := Installed(s, i, m, next, events);
            && t.handlers == s.handlers
            && t.cache ==
                (if m.StoreContinues? then s.cache[s.requests[i].key.value := s.requests[i].outcome.value.result]
                 else s.cache)
            && t.inFlight == (if m.CleanupContinues? then s.inFlight - {s.requests[i].key.value} else s.inFlight)
  {
    PutParts(s, i, next);
    if next.bumped && !s.requests[i].bumped {
    } else if m.StoreContinues? {
    } else if m.CleanupContinues? {
    } else {}
  }

  /** The keyed tables: only a request's two continuations touch them. */
  lemma InstalledKeepsKeys(s: State, i: nat, m: Move, next: Request, events: seq<Event>)
    requires i < |s.requests| && RequestInv(s.requests[i]) && CanMove(s.requests[i], m)
    requires KeyInv(s.requests, s.cache, s.inFlight) && Keeps(s.requests[i], next)
    requires next.bumped && !s.requests[i].bumped ==> m.HandlerReturns?
    requires if m.StoreContinues? then next == s.requests[i].(follow := Stored)
             else if m.CleanupContinues? then next == s.requests[i].(follow := Cleaned)
             else next.follow == s.requests[i].follow
    ensures var t := Installed(s, i, m, next, events); KeyInv(t.requests, t.cache, t.inFlight)
  {
    if m.CleanupContinues? { CleanupKeepsKeys(s.requests, s.cache, s.inFlight, i); }
    InstalledParts(s, i, m, next, events);
    InstalledTables(s, i, m, next, events);
    if m.StoreContinues? {
      StoreKeepsKeys(s.requests, s.cache, s.inFlight, i);
    } else if m.CleanupContinues? {
    } else {
      PutKeepsKeys(s.requests, s.cache, s.inFlight, i, next);
    }
  }

  lemma InstalledKeepsRevision(s: State, i: nat, m: Move, next: Request, events: seq<Event>)
    requires RequestsInv(s) && Serial(s.requests) && RevisionInv(s) && i < |s.requests|
    requires RequestInv(next) && Keeps(s.requests[i], next)
    requires RevisionMove(s.requests[i], next, s.world.revision, s.world.authoritative)
    ensures RevisionInv(Installed(s, i, m, next, events))
  {
    InstalledParts(s, i, m, next, events);
    BumpCountUpdate(s.requests, i, next);
    if s.quiet {
      PutKeepsSeen(s.requests, s.cfg.initialRevision, i, next);
    }
  }

  /** Request i may move to `next` in step m. */
  ghost predicate MoveOk(s: State, i: nat, m: Move, next: Request, events: seq<Event>) {
    && i < |s.requests| && CanMove(s.requests[i], m)
    && RequestInv(next) && Evolves(s.requests[i], next)
    && RevisionMove(s.requests[i], next, s.world.revision, s.world.authoritative)
    && EventsOf(s.requests[i], next, i, events)
    && (s.requests[i].point == Waiting && next.point != Waiting ==> LinkResolved(s, i))
    && (next.bumped && !s.requests[i].bumped ==> m.HandlerReturns?)
    && (if m.StoreContinues? then next == s.requests[i].(follow := Stored)
        else if m.CleanupContinues? then next == s.requests[i].(follow := Cleaned)
        else next.follow == s.requests[i].follow)
  }

  lemma InstalledKeepsQueue(s: State, i: nat, m: Move, next: Request, events: seq<Event>)
    requires QueueInv(s) && MoveOk(s, i, m, next, events)
    ensures QueueInv(Installed(s, i, m, next, events))
  {
    InstalledParts(s, i, m, next, events);
    PutKeepsQueue(s.requests, s.tail, i, next);
    PutKeepsArchive(s, i, next);
  }

  lemma InstalledKeepsBooks(s: State, i: nat, m: Move, next: Request, events: seq<Event>)
    requires Inv(s) && MoveOk(s, i, m, next, events)
    ensures BooksInv(Installed(s, i, m, next, events))
  {
    InstalledParts(s, i, m, next, events);
    PutKeepsLog(s.requests, s.cfg.hasGuard, s.log, i, next, events);
    InstalledKeepsKeys(s, i, m, next, events);
    InstalledKeepsRevision(s, i, m, next, events);
  }

  lemma ActKeepsInv(s: State, i: nat, m: Move)
    requires Inv(s) && Enabled(s, Act(i, m))
    ensures Inv(Acted(s, i, m))
  {
    var r, next := s.requests[i], Moved(s.requests[i], i, m, s.world);
    MoveKeepsRequestInv(r, i, m, s.world);
    MoveLogs(r, i, m, s.world);
    MoveSeesRevision(r, i, m, s.world);
    OnlyReturnBumps(r, i, m, s.world);
    if r.point == Waiting && !m.Begin? {
      OnlyBeginLeavesTheQueue(r, i, m, s.world);
    }
    InstalledKeepsQueue(s, i, m, next, Events(r, i, m, s.world));
    InstalledKeepsBooks(s, i, m, next, Events(r, i, m, s.world));
  }

  // ---------------------------------------------------------------- a request is submitted

  lemma AdmitKeepsQueueInv(s: State, c: Command, actor: Actor)
    requires QueueInv(s) && c.kind in s.handlers
    ensures QueueInv(Admitted(s, c, actor))
  {
    var r := NewRequest(s, c, actor);
    AdmitKeepsQueue(s.requests, s.tail, r);
    AdmitKeepsArchive(s.requests, s.live, s.archive.history, r);
  }

  lemma AdmitKeepsBooks(s: State, c: Command, actor: Actor)
    requires Inv(s) && TicketFor(s, c, actor).Fresh?
    ensures BooksInv(Admitted(s, c, actor))
  {
    var r := NewRequest(s, c, actor);
    AdmitKeepsKeys(s.requests, s.cache, s.inFlight, r);
    AdmitKeepsLog(s.requests, s.cfg.hasGuard, s.log, r, s.world.owner);
    AdmitKeepsRevision(s, c, actor);
  }

  lemma AdmitKeepsRevision(s: State, c: Command, actor: Actor)
    requires RevisionInv(s) && c.kind in s.handlers
    ensures RevisionInv(Admitted(s, c, actor))
  {
    var r := NewRequest(s, c, actor);
    assert (s.requests + [r])[..|s.requests|] == s.requests;
    if s.quiet {
      AdmitKeepsSeen(s.requests, s.cfg.initialRevision, r);
    }
  }

  lemma AdmitKeepsInv(s: State, c: Command, actor: Actor)
    requires Inv(s) && TicketFor(s, c, actor).Fresh?
    ensures Inv(Admitted(s, c, actor))
  {
    AdmitKeepsQueueInv(s, c, actor);
    AdmitKeepsBooks(s, c, actor);
  }

  /** Every step keeps every invariant. */
  lemma StepKeepsInv(s: State, step: Step)
    requires Inv(s) && Enabled(s, step)
    ensures Inv(Apply(s, step))
  {
    match step
    case Submit(c, actor, signalAborted) =>
      if TicketFor(s, c, actor).Fresh? {
        AdmitKeepsInv(s, c, actor);
        if signalAborted {
          ActKeepsInv(Admitted(s, c, actor), |s.requests|, CancelCall);
        }
      }
    case Act(i, m) => ActKeepsInv(s, i, m);
    case _ =>
  }

  lemma {:induction false} RunKeepsInv(s: State, run: seq<Step>)
    requires Inv(s) && Legal(s, run)
    ensures Inv(After(s, run))
    decreases |run|
  {
    if run == [] {
    } else {
      StepKeepsInv(s, run[0]);
      RunKeepsInv(Apply(s, run[0]), run[1..]);
    }
  }

  /** A set of states that holds every initial state and, with a state, whatever a step makes of it. */
  ghost predicate Closed(states: iset<State>) {
    && (forall cfg, owner :: Init(cfg, owner) in states)
    && (forall s, step | s in states && Enabled(s, step) :: Apply(s, step) in states)
  }

  /** The states that the steps can reach from an initial state: those in every closed set. */
  ghost predicate Reachable(s: State) {
    forall states: iset<State> | Closed(states) :: s in states
  }

  lemma ReachableInit(cfg: Config, owner: Owner)
    ensures Reachable(Init(cfg, owner))
  {}

  lemma ReachableStep(s: State, step: Step)
    requires Reachable(s) && Enabled(s, step)
    ensures Reachable(Apply(s, step))
  {
    forall states: iset<State> | Closed(states) ensures Apply(s, step) in states {
      assert s in states;
    }
  }

  lemma {:induction false} ReachableRun(s: State, run: seq<Step>)
    requires Reachable(s) && Legal(s, run)
    ensures Reachable(After(s, run))
    decreases |run|
  {
    if run == [] {
    } else {
      ReachableStep(s, run[0]);
      ReachableRun(Apply(s, run[0]), run[1..]);
    }
  }

  lemma {:induction false} RunExtends(s: State, run: seq<Step>, step: Step)
    requires Legal(s, run) && Enabled(After(s, run), step)
    ensures Legal(s, run + [step]) && After(s, run + [step]) == Apply(After(s, run), step)
    decreases |run|
  {
    if run == [] {
      assert run + [step] == [step] && [step][1..] == [];
    } else {
      RunExtends(Apply(s, run[0]), run[1..], step);
      assert (run + [step])[0] == run[0] && (run + [step])[1..] == run[1..] + [step];
    }
  }

  ghost predicate EndOfRun(s: State) {
    exists cfg, owner, run :: Legal(Init(cfg, owner), run) && After(Init(cfg, owner), run) == s
  }

  lemma EndsAtOnce(cfg: Config, owner: Owner)
    ensures EndOfRun(Init(cfg, owner))
  {
    assert Legal(Init(cfg, owner), []) && After(Init(cfg, owner), []) == Init(cfg, owner);
  }

  lemma EndsLater(t: State, step: Step)
    requires EndOfRun(t) && Enabled(t, step)
    ensures EndOfRun(Apply(t, step))
  {
    var cfg, owner, run :| Legal(Init(cfg, owner), run) && After(Init(cfg, owner), run) == t;
    RunExtends(Init(cfg, owner), run, step);
    assert After(Init(cfg, owner), run + [step]) == Apply(t, step);
  }

  /** The reachable states are exactly the states in which runs end. */
  lemma ReachableByRuns(s: State)
    ensures Reachable(s) <==> EndOfRun(s)
  {
    if Reachable(s) { ReachedAtAnEnd(s); }
    if EndOfRun(s) {
      var cfg, owner, run :| Legal(Init(cfg, owner), run) && After(Init(cfg, owner), run) == s;
      ReachableInit(cfg, owner);
      ReachableRun(Init(cfg, owner), run);
    }
  }

  lemma ReachedAtAnEnd(s: State)
    requires Reachable(s)
    ensures EndOfRun(s)
  {
    var ends := iset t | EndOfRun(t);
    forall cfg, owner ensures Init(cfg, owner) in ends { EndsAtOnce(cfg, owner); }
    forall t, step | t in ends && Enabled(t, step) ensures Apply(t, step) in ends { EndsLater(t, step); }
    assert Closed(ends);
  }

  lemma ReachableInv(s: State)
    requires Reachable(s)
    ensures Inv(s)
  {
    var good := iset t | Inv(t);
    forall cfg, owner ensures Init(cfg, owner) in good { InitInv(cfg, owner); }
    forall t, step | t in good && Enabled(t, step) ensures Apply(t, step) in good { StepKeepsInv(t, step); }
    assert Closed(good);
  }

  // ---------------------------------------------------------------- before and after a step

  lemma ActedRequests(s: State, i: nat, m: Move)
    requires i < |s.requests|
    ensures Acted(s, i, m).requests == s.requests[i := Moved(s.requests[i], i, m, s.world)]
  {
    InstalledParts(s, i, m, Moved(s.requests[i], i, m, s.world), Events(s.requests[i], i, m, s.world));
  }

  lemma SubmitAddsARequest(s: State, c: Command, actor: Actor, signalAborted: bool)
    requires TicketFor(s, c, actor).Fresh?
    ensures var r, n := NewRequest(s, c, actor), |s.requests|;
            Apply(s, Submit(c, actor, signalAborted)).requests ==
              s.requests + [if signalAborted then Moved(r, n, CancelCall, s.world) else r]
  {
    var t, n := Admitted(s, c, actor), |s.requests|;
    ActedRequests(t, n, CancelCall);
    assert (s.requests + [NewRequest(s, c, actor)])[n := Moved(t.requests[n], n, CancelCall, t.world)]
        == s.requests + [Moved(t.requests[n], n, CancelCall, t.world)];
  }

  /** What a step makes of a request that was there before. */
  function Next(s: State, step: Step, i: nat): Request
    requires i < |s.requests|
  {
    if step.Act? && step.id == i then Moved(s.requests[i], i, step.move, s.world) else s.requests[i]
  }

  lemma StepMoves(s: State, step: Step, i: nat)
    requires Enabled(s, step) && i < |s.requests|
    ensures |Apply(s, step).requests| >= |s.requests| && Apply(s, step).requests[i] == Next(s, step, i)
  {
    match step
    case Act(j, m) => ActedRequests(s, j, m);
    case Submit(c, actor, signalAborted) =>
      if TicketFor(s, c, actor).Fresh? { SubmitAddsARequest(s, c, actor, signalAborted); }
    case _ =>
  }

  /** A request that no step has gone on with, and that may have been cancelled. */
  predicate JustSubmitted(r: Request) {
    && r.point == Waiting && r.policy == Evaluating && r.confirmation.None? && !r.committed && !r.entered
    && (r.Settled() ==> AbortHeeded(r) && r.outcome == Some(Rejected(CancelledError)))
  }

  lemma StepAdds(s: State, step: Step, i: nat)
    requires Enabled(s, step) && |s.requests| <= i < |Apply(s, step).requests|
    ensures step.Submit? && i == |s.requests| && JustSubmitted(Apply(s, step).requests[i])
  {
    match step
    case Act(j, m) => ActedRequests(s, j, m);
    case Submit(c, actor, signalAborted) =>
      if TicketFor(s, c, actor).Fresh? {
        SubmitAddsARequest(s, c, actor, signalAborted);
        NewIsJustSubmitted(s, c, actor);
      }
    case _ =>
  }

  lemma NewIsJustSubmitted(s: State, c: Command, actor: Actor)
    requires c.kind in s.handlers
    ensures var r, n := NewRequest(s, c, actor), |s.requests|;
            JustSubmitted(r) && JustSubmitted(Moved(r, n, CancelCall, s.world))
  {}

  lemma StepKeepsRequests(s: State, step: Step, i: nat)
    requires Inv(s) && Enabled(s, step) && i < |s.requests|
    ensures |Apply(s, step).requests| >= |s.requests| && Keeps(s.requests[i], Apply(s, step).requests[i])
  {
    StepMoves(s, step, i);
    if step.Act? && step.id == i { MoveKeepsRequestInv(s.requests[i], i, step.move, s.world); }
  }

  /** No run undoes what `Keeps` protects. */
  lemma {:induction false} RunKeepsRequests(s: State, run: seq<Step>, i: nat)
    requires Inv(s) && Legal(s, run) && i < |s.requests|
    ensures |After(s, run).requests| >= |s.requests| && Keeps(s.requests[i], After(s, run).requests[i])
    decreases |run|
  {
    if run == [] {
    } else {
      StepKeepsRequests(s, run[0], i);
      StepKeepsInv(s, run[0]);
      RunKeepsRequests(Apply(s, run[0]), run[1..], i);
    }
  }
}
