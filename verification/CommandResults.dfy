/** What a caller gets: the result of a command, also for its duplicates, and the report of a cancelled one. */
module CommandResults {
  import opened Common
  import opened CommandProtocol
  import opened CommandInvariant
  import opened CommandKeys
  import opened CommandRuns
  import opened CommandHistory
  import opened CommandReports
  import opened CommandSignals

  // ---------------------------------------------------------------- the result of a success

  /** Step k of the run is the handler of request i returning. */
  predicate ReturnsIn(run: seq<Step>, k: nat, i: nat) {
    k < |run| && run[k].Act? && run[k].id == i && run[k].move.HandlerReturns?
  }

  lemma ReturnEndsRun(r: Request, i: nat, m: Move, w: World)
    requires CanMove(r, m) && m.HandlerReturns?
    ensures r.point == InHandler && Moved(r, i, m, w).point == Ended
  {
    CaughtEnds(r, CommandError(CancelledError));
  }

  lemma ReturnEnds(states: seq<State>, run: seq<Step>, k: nat, i: nat)
    requires Trace(states, run) && ReturnsIn(run, k, i)
    ensures i < |states[k].requests| && states[k].requests[i].point == InHandler
    ensures i < |states[k + 1].requests| && states[k + 1].requests[i].point == Ended
  {
    TraceStep(states, run, k);
    ReturnEndsRun(states[k].requests[i], i, run[k].move, states[k].world);
    ActedRequests(states[k], i, run[k].move);
  }

  /** A handler that has returned never does so again. */
  lemma ReturnsNoMore(states: seq<State>, run: seq<Step>, k: nat, l: nat, i: nat)
    requires Trace(states, run) && ReturnsIn(run, k, i) && k < l
    ensures !ReturnsIn(run, l, i)
  {
    ReturnEnds(states, run, k, i);
    if ReturnsIn(run, l, i) {
      ReturnEnds(states, run, l, i);
      BetweenKeeps(states, run, k + 1, l, i);
    }
  }

  lemma ReturnBumps(r: Request, i: nat, m: Move, w: World)
    requires RequestInv(r) && !r.Settled() && !GaveUp(r) && m.HandlerReturns?
    ensures !r.bumped && (Moved(r, i, m, w).bumped <==> r.mode == Mutation && m.changed && !w.authoritative)
  {
  }

  lemma ReturnSetsRevision(s: State, i: nat, m: Move)
    requires Inv(s) && Enabled(s, Act(i, m)) && m.HandlerReturns? && !GaveUp(s.requests[i]) && !s.requests[i].Settled()
    ensures Apply(s, Act(i, m)).world.revision ==
              s.world.revision
              + (if s.requests[i].mode == Mutation && m.changed && !s.world.authoritative then 1 else 0)
  {
    assert RequestInv(s.requests[i]);
    var next := Moved(s.requests[i], i, m, s.world);
    ReturnBumps(s.requests[i], i, m, s.world);
    InstalledParts(s, i, m, next, Events(s.requests[i], i, m, s.world));
  }

  lemma SuccessStepEnds(s: State, step: Step, i: nat, result: CommandResult)
    requires Inv(s) && Enabled(s, step) && Ends(s, step, i, Resolved(result))
    ensures i < |s.requests| && step == Act(i, HandlerReturns(result.changed, result.data, result.warnings))
    ensures result.request == i && result.kind == s.requests[i].command.kind
    ensures result.projectRevision == Apply(s, step).world.revision
  {
    ReturnSetsRevision(s, i, step.move);
  }

  /**
   What a successful command resolves with. Over every run its handler returned in exactly one step; the result is what
   the handler returned there, for this request, with the project revision right after that step.
   */
  lemma SuccessIsWhatReturned(states: seq<State>, run: seq<Step>, i: nat, result: CommandResult) returns (k: nat)
    requires Trace(states, run) && i < |states[|run|].requests|
    requires states[|run|].requests[i].outcome == Some(Resolved(result))
    ensures k < |run| && run[k] == Act(i, HandlerReturns(result.changed, result.data, result.warnings))
    ensures forall l: nat | ReturnsIn(run, l, i) :: l == k
    ensures result.request == i && result.kind == states[|run|].requests[i].command.kind
    ensures result.projectRevision == states[k + 1].world.revision
  {
    k := EndedSomewhere(states, run, i, Resolved(result));
    TraceStep(states, run, k);
    SuccessStepEnds(states[k], run[k], i, result);
    BetweenKeeps(states, run, k, |run|, i);
    forall l: nat | ReturnsIn(run, l, i) ensures l == k {
      if k < l { ReturnsNoMore(states, run, k, l, i); } else if l < k { ReturnsNoMore(states, run, l, k, i); }
    }
  }

  // ---------------------------------------------------------------- tickets

  /** A request with that key succeeded, and its result has been stored. */
  predicate HasStored(r: Request, key: string) {
    r.key == Some(key) && r.follow != Pending && HasSucceeded(r)
  }

  /** The first continuation of the promise of a request with that key has not run yet. */
  predicate InFlight(r: Request, key: string) {
    r.key == Some(key) && r.follow == Pending
  }

  lemma StoredBehind(rs: seq<Request>, cache: map<string, CommandResult>, key: string) returns (i: nat)
    requires CacheInv(rs, cache) && key in cache
    ensures i < |rs| && HasStored(rs[i], key) && rs[i].outcome == Some(Resolved(cache[key]))
  {
    assert Backed(rs, key, cache[key]);
    i :| i < |rs| && rs[i].key == Some(key) && rs[i].outcome == Some(Resolved(cache[key])) && rs[i].follow != Pending;
  }

  lemma FlyingIsFound(rs: seq<Request>, cache: map<string, CommandResult>, inFlight: map<string, nat>, key: string,
                      i: nat)
    requires KeyInv(rs, cache, inFlight) && i < |rs| && InFlight(rs[i], key)
    ensures key in inFlight && inFlight[key] == i && key !in cache
  {
    assert Flies(key, i, inFlight);
    if key in cache { var j := StoredBehind(rs, cache, key); }
  }

  lemma FoundIsFlying(rs: seq<Request>, cache: map<string, CommandResult>, inFlight: map<string, nat>, key: string)
    requires KeyInv(rs, cache, inFlight) && key in inFlight && key !in cache
    requires forall i | 0 <= i < |rs| && rs[i].follow == Stored :: HasSucceeded(rs[i])
    ensures inFlight[key] < |rs| && InFlight(rs[inFlight[key]], key)
  {
    var i := inFlight[key];
    assert rs[i].key == Some(key) && rs[i].follow != Cleaned;
  }

  lemma StoredTicket(s: State, c: Command, actor: Actor, key: string, i: nat)
    requires Inv(s) && c.kind in s.handlers && BuildKey(actor, c.kind, c.idempotencyKey) == Some(key)
    requires i < |s.requests|
    ensures HasStored(s.requests[i], key) ==> TicketFor(s, c, actor) == Cached(s.requests[i].outcome.value.result)
    ensures InFlight(s.requests[i], key) ==> TicketFor(s, c, actor) == Joined(i)
  {
    if InFlight(s.requests[i], key) { FlyingIsFound(s.requests, s.cache, s.inFlight, key, i); }
  }

  lemma TicketBehind(s: State, c: Command, actor: Actor, key: string)
    requires Inv(s) && c.kind in s.handlers && BuildKey(actor, c.kind, c.idempotencyKey) == Some(key)
    ensures match TicketFor(s, c, actor)
            case Unknown => false
            case Cached(result) =>
              exists i :: 0 <= i < |s.requests| && s.requests[i].outcome == Some(Resolved(result))
                          && HasStored(s.requests[i], key)
            case Joined(i) => i < |s.requests| && InFlight(s.requests[i], key)
            case Fresh(i) => i == |s.requests|
  {
    if key in s.cache {
      var i := StoredBehind(s.requests, s.cache, key);
    } else if key in s.inFlight {
      StoredSucceeded(s);
      FoundIsFlying(s.requests, s.cache, s.inFlight, key);
    }
  }

  lemma StoredSucceeded(s: State)
    requires Inv(s)
    ensures forall i | 0 <= i < |s.requests| && s.requests[i].follow == Stored :: HasSucceeded(s.requests[i])
  {
    forall i | 0 <= i < |s.requests| && s.requests[i].follow == Stored ensures HasSucceeded(s.requests[i]) {
      assert RequestInv(s.requests[i]);
    }
  }

  lemma EachTicket(s: State, c: Command, actor: Actor, key: string)
    requires Inv(s) && c.kind in s.handlers && BuildKey(actor, c.kind, c.idempotencyKey) == Some(key)
    ensures forall i: nat | i < |s.requests| && HasStored(s.requests[i], key) ::
              TicketFor(s, c, actor) == Cached(s.requests[i].outcome.value.result)
    ensures forall i: nat | i < |s.requests| && InFlight(s.requests[i], key) :: TicketFor(s, c, actor) == Joined(i)
  {
    forall i: nat | i < |s.requests|
      ensures HasStored(s.requests[i], key) ==> TicketFor(s, c, actor) == Cached(s.requests[i].outcome.value.result)
      ensures InFlight(s.requests[i], key) ==> TicketFor(s, c, actor) == Joined(i)
    {
      StoredTicket(s, c, actor, key, i);
    }
  }

  /**
   What `execute` hands out for a command that is registered. With a key: the result that an earlier request with the
   key has stored, the promise of the one whose first continuation has not run yet, and a new request otherwise.
   */
  lemma TicketExactly(s: State, c: Command, actor: Actor, key: Option<string>, ticket: Ticket)
    requires Reachable(s) && c.kind in s.handlers
    requires key == if actor.Mcp? && c.idempotencyKey.Some? && c.idempotencyKey.value != ""
                    then Some(KeyPrefix(actor, c.kind) + c.idempotencyKey.value) else None
    ensures TicketFor(s, c, actor) == ticket <==>
            match ticket
            case Unknown => false
            case Cached(result) =>
              key.Some? && exists i :: 0 <= i < |s.requests| && s.requests[i].outcome == Some(Resolved(result))
                                       && HasStored(s.requests[i], key.value)
            case Joined(i) => key.Some? && i < |s.requests| && InFlight(s.requests[i], key.value)
            case Fresh(i) =>
              && i == |s.requests|
              && (key.Some? ==> forall j | 0 <= j < |s.requests| ::
                    !HasStored(s.requests[j], key.value) && !InFlight(s.requests[j], key.value))
  {
    ReachableInv(s);
    if key.Some? {
      KeyIsPrefixed(actor, c.kind, c.idempotencyKey.value);
      TicketBehind(s, c, actor, key.value);
      EachTicket(s, c, actor, key.value);
    }
  }

  /** A duplicate that is answered from the cache gets what the handler of an earlier request with its key returned. */
  lemma CachedIsWhatReturned(states: seq<State>, run: seq<Step>, c: Command, actor: Actor, result: CommandResult)
    returns (i: nat, k: nat)
    requires Trace(states, run) && TicketFor(states[|run|], c, actor) == Cached(result)
    ensures i < |states[|run|].requests| && actor.Mcp? && c.idempotencyKey.Some?
    ensures states[|run|].requests[i].key == Some(KeyPrefix(actor, c.kind) + c.idempotencyKey.value)
    ensures k < |run| && run[k] == Act(i, HandlerReturns(result.changed, result.data, result.warnings))
    ensures result.request == i && result.kind == states[|run|].requests[i].command.kind
    ensures result.projectRevision == states[k + 1].world.revision
  {
    var s := states[|run|];
    TraceInv(states, run, |run|);
    KeyIsPrefixed(actor, c.kind, c.idempotencyKey.value);
    i := StoredBehind(s.requests, s.cache, KeyPrefix(actor, c.kind) + c.idempotencyKey.value);
    k := SuccessIsWhatReturned(states, run, i, result);
  }

  // ---------------------------------------------------------------- what is reported of a cancelled command

  lemma ThrownEnds(s: State, i: nat, code: ErrorCode)
    requires Inv(s) && Enabled(s, Act(i, HandlerThrows(CommandError(code))))
    ensures Ends(s, Act(i, HandlerThrows(CommandError(code))), i, Rejected(code))
  {
    assert RequestInv(s.requests[i]);
  }

  lemma RefusedEnds(s: State, i: nat)
    requires Inv(s) && Enabled(s, Act(i, CsvInspected(true))) && !s.requests[i].granted
    ensures Ends(s, Act(i, CsvInspected(true)), i, Rejected(ConfirmationRequired))
  {
    assert RequestInv(s.requests[i]);
  }

  /** A code that a handler throws is what its request is reported with. */
  lemma ThrownIsReported(states: seq<State>, run: seq<Step>, i: nat, code: ErrorCode)
    requires Trace(states, run) && Act(i, HandlerThrows(CommandError(code))) in run
    ensures i < |states[|run|].requests| && states[|run|].requests[i].outcome == Some(Rejected(code))
  {
    var k :| 0 <= k < |run| && run[k] == Act(i, HandlerThrows(CommandError(code)));
    TraceStep(states, run, k);
    ThrownEnds(states[k], i, code);
    EndsStay(states, run, k, i, Rejected(code));
  }

  /** An export that is refused after its own inspection is reported so. */
  lemma RefusalIsReported(states: seq<State>, run: seq<Step>, i: nat)
    requires Trace(states, run) && Act(i, CsvInspected(true)) in run
    requires i < |states[|run|].requests| && !states[|run|].requests[i].granted
    ensures states[|run|].requests[i].outcome == Some(Rejected(ConfirmationRequired))
  {
    var k :| 0 <= k < |run| && run[k] == Act(i, CsvInspected(true));
    TraceStep(states, run, k);
    BetweenKeeps(states, run, k, |run|, i);
    assert RequestInv(states[k].requests[i]);
    RefusedEnds(states[k], i);
    EndsStay(states, run, k, i, Rejected(ConfirmationRequired));
  }

  /** A request that was cancelled in its handler before it could commit, whatever else was tried later. */
  predicate GaveUpInside(r: Request) {
    r.entered && r.aborted && !r.committed
  }

  predicate IsHandlerMove(m: Move) {
    m.HandlerThrows? || m.HandlerReturns? || m.CsvInspected?
  }

  /** What is reported of a cancelled, uncommitted request when its handler does that. */
  function InsideOutcome(m: Move, r: Request): Outcome
    requires IsHandlerMove(m)
  {
    Rejected(if m.CsvInspected? then ConfirmationRequired
             else if m.HandlerThrows? && m.thrown.CommandError? then m.thrown.code
             else CancelledError)
  }

  lemma InsideBefore(r: Request, i: nat, m: Move, w: World, outcome: Outcome, last: Request)
    requires RequestInv(r) && CanMove(r, m) && !r.Settled() && SettlesAs(r, i, m, w, outcome)
    requires Moved(r, i, m, w).Settled() && Keeps(Moved(r, i, m, w), last) && GaveUpInside(last)
    ensures r.point == InHandler && r.aborted && !r.committed
  {
    MoveSetsFlags(r, i, m, w);
    assert r.entered && !Enters(r, m, w);
  }

  /** The move that settled such a request is one of its handler's, made after the cancellation. */
  lemma SettledInside(r: Request, i: nat, m: Move, w: World, outcome: Outcome, last: Request)
    requires RequestInv(r) && CanMove(r, m) && !r.Settled() && SettlesAs(r, i, m, w, outcome)
    requires Moved(r, i, m, w).Settled() && Keeps(Moved(r, i, m, w), last) && GaveUpInside(last)
    ensures IsHandlerMove(m) && outcome == InsideOutcome(m, last)
    ensures m.CsvInspected? ==> m.targetExists && !last.granted
  {
    InsideBefore(r, i, m, w, outcome, last);
    MoveKeepsRequestInv(r, i, m, w);
  }

  lemma NeverInside(s: State, step: Step, i: nat, outcome: Outcome, last: Request)
    requires Enabled(s, step) && Ends(s, step, i, outcome) && |s.requests| <= i < |Apply(s, step).requests|
    requires Apply(s, step).requests[i].Settled() && Keeps(Apply(s, step).requests[i], last)
    ensures !GaveUpInside(last)
  {
    SubmitGets(s, step.command, step.actor, step.signalAborted);
  }

  lemma InsideEnds(s: State, step: Step, i: nat, outcome: Outcome, last: Request)
    requires Inv(s) && Enabled(s, step) && Ends(s, step, i, outcome)
    requires i < |Apply(s, step).requests| && Apply(s, step).requests[i].Settled()
    requires Keeps(Apply(s, step).requests[i], last) && GaveUpInside(last)
    ensures step.Act? && step.id == i && IsHandlerMove(step.move)
    ensures outcome == InsideOutcome(step.move, last)
    ensures step.move.CsvInspected? ==> step.move.targetExists && !last.granted
  {
    if i < |s.requests| {
      StepMoves(s, step, i);
      SettledInside(s.requests[i], i, step.move, s.world, outcome, last);
    } else {
      NeverInside(s, step, i, outcome, last);
    }
  }

  lemma InsideSettledBy(states: seq<State>, run: seq<Step>, i: nat) returns (m: Move)
    requires Trace(states, run) && IsSettled(states[|run|], i) && GaveUpInside(states[|run|].requests[i])
    ensures Act(i, m) in run && IsHandlerMove(m)
    ensures states[|run|].requests[i].outcome == Some(InsideOutcome(m, states[|run|].requests[i]))
    ensures m.CsvInspected? ==> m.targetExists && !states[|run|].requests[i].granted
  {
    var last := states[|run|].requests[i];
    var k := EndedSomewhere(states, run, i, last.outcome.value);
    BetweenKeeps(states, run, k + 1, |run|, i);
    TraceStep(states, run, k);
    InsideEnds(states[k], run[k], i, last.outcome.value, last);
    m := run[k].move;
  }

  /**
   A request that was cancelled in its handler before it could commit ends as cancelled, unless its handler throws a
   CommandExecutionError with another code, or is an export refused for want of a confirmation: then, and only then, it
   is reported with that code.
   */
  lemma GaveUpExactly(states: seq<State>, run: seq<Step>, i: nat)
    requires Trace(states, run) && i < |states[|run|].requests|
    requires var r := states[|run|].requests[i]; r.entered && r.aborted && !r.committed && r.point == Ended
    ensures var r := states[|run|].requests[i];
            && (r.outcome == Some(Rejected(CancelledError)) <==>
                  && (forall code | Act(i, HandlerThrows(CommandError(code))) in run :: code == CancelledError)
                  && !(Act(i, CsvInspected(true)) in run && !r.granted))
            && (r.outcome != Some(Rejected(CancelledError)) ==>
                  || (exists code ::
                        Act(i, HandlerThrows(CommandError(code))) in run && r.outcome == Some(Rejected(code)))
                  || (&& Act(i, CsvInspected(true)) in run && !r.granted
                      && r.outcome == Some(Rejected(ConfirmationRequired))))
  {
    TraceInv(states, run, |run|);
    var r := states[|run|].requests[i];
    assert RequestInv(r);
    forall code | Act(i, HandlerThrows(CommandError(code))) in run ensures r.outcome == Some(Rejected(code)) {
      ThrownIsReported(states, run, i, code);
    }
    if Act(i, CsvInspected(true)) in run && !r.granted { RefusalIsReported(states, run, i); }
    var m := InsideSettledBy(states, run, i);
    if m.HandlerThrows? && m.thrown.CommandError? { assert Act(i, HandlerThrows(CommandError(m.thrown.code))) in run; }
  }
}
