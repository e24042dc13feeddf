/**
 What every step of the command runtime keeps.

 `RequestInv` speaks about one request and `Evolves` about one request before and after a step; both are
 proved step by step without looking at the rest of the runtime. The invariants over all requests then
 need only these two facts about the request that moved.
 */
module CommandInvariant {
  import opened Common
  import opened CommandProtocol

  // ---------------------------------------------------------------- one request

  predicate StatusMatches(status: Status, outcome: Outcome) {
    match outcome
    case Resolved(_) => status == Succeeded
    case Rejected(code) => status == if code == CancelledError then Cancelled else Failed
  }

  predicate BeforeHandler(r: Request, status: Status) {
    && !r.entered
    && if r.Settled() then r.aborted && r.outcome == Some(Rejected(CancelledError)) && r.status == Cancelled
       else !r.aborted && r.status == status
  }

  predicate PointInv(r: Request) {
    match r.point
    case Waiting => BeforeHandler(r, Queued)
    case AtPolicy => BeforeHandler(r, Queued)
    case AtConfirmation => BeforeHandler(r, AwaitingConfirmation) && Permits(r.policy, true)
    case InHandler => r.entered && !r.Settled() && (r.status == Running || (r.status == Committing && r.committed))
    case Ended => r.Settled()
  }

  predicate RequestInv(r: Request) {
    && PointInv(r)
    && r.aborted == r.cancelSignalled
    && (r.committed || r.granted || r.inspected ==> r.entered)
    && (r.entered ==> r.point == InHandler || r.point == Ended)
    && (r.entered ==> Permits(r.policy, r.granted))
    && (r.granted ==> r.confirmation == Some(true))
    && (r.inspected ==> r.command.kind == CSV_EXPORT)
    && (r.confirmation.Some? ==> Permits(r.policy, true))
    && (HasSucceeded(r) ==>
          r.entered && !AbortHeeded(r) && (r.command.kind == CSV_EXPORT ==> r.inspected))
    && (r.bumped ==> r.mode == Mutation && HasSucceeded(r) && r.outcome.value.result.changed)
    && (r.follow != Pending ==> r.Settled() && r.key.Some?)
    && (r.follow == Stored ==> HasSucceeded(r))
  }

  function Rank(p: Point): nat {
    match p case Waiting => 0 case AtPolicy => 1 case AtConfirmation => 2 case InHandler => 3 case Ended => 4
  }

  /** What no step, and so no run, undoes. */
  predicate Keeps(r: Request, t: Request) {
    && t.command == r.command && t.actor == r.actor && t.mode == r.mode
    && t.key == r.key && t.guard == r.guard && t.waitsOn == r.waitsOn
    && Rank(r.point) <= Rank(t.point)
    && (r.Settled() ==> t.outcome == r.outcome && t.bumped == r.bumped && t.aborted == r.aborted)
    && (r.policy != Evaluating ==> t.policy == r.policy)
    && (r.confirmation.Some? ==> t.confirmation == r.confirmation)
    && (r.aborted ==> t.aborted)
    && (r.entered ==> t.entered && t.granted == r.granted)
    && (r.inspected ==> t.inspected)
    && (r.committed ==> t.committed && t.aborted == r.aborted)
    && (AbortHeeded(r) ==> !t.committed && t.entered == r.entered)
  }

  /** Only the request's continuations and `confirm` touch these two. */
  predicate KeepsSignals(r: Request, t: Request) {
    t.follow == r.follow && t.confirmation == r.confirmation
  }

  /** One step of one request: a request that settles has the status its outcome calls for. */
  predicate Evolves(r: Request, t: Request) {
    && Keeps(r, t)
    && (!r.Settled() && t.Settled() ==> StatusMatches(t.status, t.outcome.value))
  }

  lemma CaughtKeeps(r: Request, t: Thrown)
    requires RequestInv(r) && (r.point == AtPolicy || r.point == AtConfirmation || r.point == InHandler)
    ensures RequestInv(Caught(r, t)) && Evolves(r, Caught(r, t)) && KeepsSignals(r, Caught(r, t))
  {
    if r.Settled() {} else {}
  }

  lemma EnterKeeps(r: Request, granted: bool, w: World)
    requires RequestInv(r) && ((r.point == AtPolicy && !r.Settled()) || r.point == AtConfirmation)
    requires Permits(r.policy, granted) && (granted ==> r.confirmation == Some(true))
    ensures RequestInv(Enter(r, granted, w)) && Evolves(r, Enter(r, granted, w))
            && KeepsSignals(r, Enter(r, granted, w))
  {
    if !RevisionExpected(r, w) {
    } else if AbortHeeded(r) || !OwnerCurrent(r, w) {
    } else {}
  }

  lemma AfterPolicyKeeps(r: Request, w: World)
    requires RequestInv(r) && r.point == AtPolicy && r.policy != Evaluating
    ensures RequestInv(AfterPolicy(r, w)) && Evolves(r, AfterPolicy(r, w)) && KeepsSignals(r, AfterPolicy(r, w))
  {
    CaughtKeeps(r, CommandError(ExecutionFailed));
    CaughtKeeps(r, CommandError(UserDenied));
    if !r.Settled() && Permits(r.policy, false) {
      EnterKeeps(r, false, w);
    }
  }

  lemma CallKeeps(r: Request, i: nat, m: Move, w: World)
    requires RequestInv(r) && CanMove(r, m) && (m.ConfirmCall? || m.CancelCall?)
    ensures RequestInv(Moved(r, i, m, w)) && Evolves(r, Moved(r, i, m, w)) && Moved(r, i, m, w).follow == r.follow
    ensures m.ConfirmCall? || Moved(r, i, m, w).confirmation == r.confirmation
  {
    if m.ConfirmCall? {
    } else if !CancelAnswer(r) {
    } else if r.status == Queued || r.status == AwaitingConfirmation {
    } else {}
  }

  lemma CallbackKeeps(r: Request, i: nat, m: Move, w: World)
    requires RequestInv(r) && CanMove(r, m) && (m.ProgressCall? || m.CommitCall?)
    ensures RequestInv(Moved(r, i, m, w)) && Evolves(r, Moved(r, i, m, w)) && KeepsSignals(r, Moved(r, i, m, w))
  {
    if AbortHeeded(r) {
    } else if m.ProgressCall? {
    } else if OwnerCurrent(r, w) {
    } else {}
  }

  lemma HandlerKeeps(r: Request, i: nat, m: Move, w: World)
    requires RequestInv(r) && CanMove(r, m)
    requires m.CsvInspected? || m.HandlerReturns? || m.HandlerThrows?
    ensures RequestInv(Moved(r, i, m, w)) && Evolves(r, Moved(r, i, m, w)) && KeepsSignals(r, Moved(r, i, m, w))
  {
    match m
    case CsvInspected(_) => CaughtKeeps(r, CommandError(ConfirmationRequired));
    case HandlerReturns(_, _, _) => CaughtKeeps(r, CommandError(CancelledError));
    case HandlerThrows(thrown) => CaughtKeeps(r, thrown);
  }

  lemma ConfirmationKeeps(r: Request, i: nat, branch: Branch, w: World)
    requires RequestInv(r) && CanMove(r, ConfirmationContinues(branch))
    ensures RequestInv(Moved(r, i, ConfirmationContinues(branch), w))
    ensures Evolves(r, Moved(r, i, ConfirmationContinues(branch), w))
    ensures KeepsSignals(r, Moved(r, i, ConfirmationContinues(branch), w))
  {
    CaughtKeeps(r, CommandError(CancelledError));
    CaughtKeeps(r, CommandError(UserDenied));
    if branch == Answer && r.confirmation != Some(false) {
      assert r.confirmation.value;
      EnterKeeps(r, true, w);
    }
  }

  /** A step that can happen keeps the invariant of the request it moves, and undoes nothing. */
  lemma MoveKeepsRequestInv(r: Request, i: nat, m: Move, w: World)
    requires RequestInv(r) && CanMove(r, m)
    ensures RequestInv(Moved(r, i, m, w)) && Evolves(r, Moved(r, i, m, w))
    ensures m.StoreContinues? || m.CleanupContinues? || Moved(r, i, m, w).follow == r.follow
    ensures m.ConfirmCall? || Moved(r, i, m, w).confirmation == r.confirmation
  {
    match m
    case PolicyContinues(b) =>
      CaughtKeeps(r, CommandError(CancelledError));
      if b == Answer { AfterPolicyKeeps(r, w); }
    case ConfirmationContinues(b) => ConfirmationKeeps(r, i, b, w);
    case CsvInspected(_) => HandlerKeeps(r, i, m, w);
    case HandlerReturns(_, _, _) => HandlerKeeps(r, i, m, w);
    case HandlerThrows(_) => HandlerKeeps(r, i, m, w);
    case ConfirmCall(_) => CallKeeps(r, i, m, w);
    case CancelCall => CallKeeps(r, i, m, w);
    case ProgressCall(_, _, _) => CallbackKeeps(r, i, m, w);
    case CommitCall => CallbackKeeps(r, i, m, w);
    case _ => MarkKeeps(r, i, m, w);
  }

  /** The steps that write a single field. */
  lemma MarkKeeps(r: Request, i: nat, m: Move, w: World)
    requires RequestInv(r) && CanMove(r, m)
    requires m.Begin? || m.PolicySettles? || m.StoreContinues? || m.CleanupContinues?
    ensures RequestInv(Moved(r, i, m, w)) && Evolves(r, Moved(r, i, m, w))
    ensures m.StoreContinues? || m.CleanupContinues? || Moved(r, i, m, w).follow == r.follow
    ensures Moved(r, i, m, w).confirmation == r.confirmation
  {
    match m
    case Begin => if r.Settled() || r.status == Cancelled {} else {}
    case _ =>
  }

  lemma OnlyBeginLeavesTheQueue(r: Request, i: nat, m: Move, w: World)
    requires CanMove(r, m) && r.point == Waiting && !m.Begin?
    ensures Moved(r, i, m, w).point == Waiting
  {
    match m
    case CancelCall =>
    case ConfirmCall(_) =>
    case ProgressCall(_, _, _) =>
    case CommitCall =>
    case _ =>
  }

  lemma OnlyReturnBumps(r: Request, i: nat, m: Move, w: World)
    requires RequestInv(r) && CanMove(r, m)
    ensures Moved(r, i, m, w).bumped && !r.bumped ==>
              r.point == InHandler && m.HandlerReturns? && m.changed && r.mode == Mutation && !w.authoritative
  {}

  predicate IsContinuation(m: Move) {
    m.Begin? || m.PolicyContinues? || m.ConfirmationContinues? || m.HandlerReturns? || m.HandlerThrows?
  }

  lemma EnterAdvances(r: Request, granted: bool, w: World)
    ensures Rank(Enter(r, granted, w).point) >= 3
  {
    if !RevisionExpected(r, w) {
      CaughtEnds(Runs(r), CommandError(RevisionConflict));
    } else if AbortHeeded(r) || !OwnerCurrent(r, w) {
      CaughtEnds(Runs(r), CommandError(CancelledError));
    }
  }

  lemma CaughtEnds(r: Request, t: Thrown)
    ensures Caught(r, t).point == Ended
  {
    if r.Settled() {} else {}
  }

  lemma AfterPolicyAdvances(r: Request, w: World)
    requires r.policy != Evaluating
    ensures Rank(AfterPolicy(r, w).point) >= 2
  {
    if r.policy.PolicyFailed? {
      CaughtEnds(r, CommandError(ExecutionFailed));
    } else if r.Settled() {
    } else if !r.policy.decision.allowed {
      CaughtEnds(r, CommandError(UserDenied));
    } else if !r.policy.decision.requireConfirmation {
      EnterAdvances(r, false, w);
    }
  }

  /** Every continuation moves its run forward. */
  lemma MoveAdvances(r: Request, i: nat, m: Move, w: World)
    requires CanMove(r, m) && IsContinuation(m)
    ensures Rank(r.point) < Rank(Moved(r, i, m, w).point)
  {
    match m
    case PolicyContinues(b) =>
      if b == Cancellation { CaughtEnds(r, CommandError(CancelledError)); } else { AfterPolicyAdvances(r, w); }
    case ConfirmationContinues(b) =>
      if b == Cancellation { CaughtEnds(r, CommandError(CancelledError)); }
      else if r.confirmation == Some(false) { CaughtEnds(r, CommandError(UserDenied)); }
      else { EnterAdvances(r, true, w); }
    case HandlerReturns(_, _, _) =>
      if AbortHeeded(r) { CaughtEnds(r, CommandError(CancelledError)); } else {}
    case HandlerThrows(thrown) => CaughtEnds(r, thrown);
    case Begin =>
      if r.Settled() || r.status == Cancelled {} else {}
  }

  /** How the run of a committed request ends. */
  lemma CommittedEnds(r: Request, i: nat, m: Move, w: World)
    requires CanMove(r, m) && r.committed && !r.Settled() && (m.HandlerReturns? || m.HandlerThrows?)
    ensures Moved(r, i, m, w).status ==
              if m.HandlerReturns? then Succeeded
              else if m.thrown == CommandError(CancelledError) then Cancelled else Failed
  {}

  lemma CancelAborts(r: Request, i: nat, w: World)
    requires RequestInv(r) && CancelAnswer(r)
    ensures var next := Moved(r, i, CancelCall, w);
            AbortHeeded(next) && next.entered == r.entered && RequestInv(next)
  {
    CallKeeps(r, i, CancelCall, w);
  }
}
