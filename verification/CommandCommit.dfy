/** When a committed command is reported as cancelled, over every run. */
module CommandCommit {
  import opened Common
  import opened CommandProtocol
  import opened CommandInvariant
  import opened CommandRuns
  import opened CommandTheorems

  /** The step in which the handler of request i throws the code "cancelled". */
  function ThrowsCancelled(i: nat): Step {
    Act(i, HandlerThrows(CommandError(CancelledError)))
  }

  predicate IsCancelled(r: Request) {
    r.outcome == Some(Rejected(CancelledError))
  }

  /**
   The request can never commit any more: its abort is heeded, or its run has ended before its handler was entered.
   */
  predicate Dead(r: Request) {
    !r.committed && (AbortHeeded(r) || (r.point == Ended && !r.entered))
  }

  lemma CatchLeaves(r: Request, t: Thrown)
    ensures var next := Caught(r, t);
            next.point == Ended && next.committed == r.committed && next.entered == r.entered
                && next.aborted == r.aborted
    ensures !r.Settled() && IsCancelled(Caught(r, t)) ==> t == CommandError(CancelledError) || AbortHeeded(r)
  {
    if r.Settled() {} else {}
  }

  /** A run that ends before its handler leaves its request dead. */
  lemma EnterLeaves(r: Request, granted: bool, w: World)
    requires !r.committed && !r.entered && !r.Settled() && IsCancelled(Enter(r, granted, w))
    ensures Dead(Enter(r, granted, w))
  {
    if !RevisionExpected(r, w) {
      CatchLeaves(Runs(r), CommandError(RevisionConflict));
    } else if AbortHeeded(r) || !OwnerCurrent(r, w) {
      CatchLeaves(Runs(r), CommandError(CancelledError));
    }
  }

  lemma PolicyLeaves(r: Request, w: World)
    requires !r.committed && !r.entered && !r.Settled() && r.policy != Evaluating && IsCancelled(AfterPolicy(r, w))
    ensures Dead(AfterPolicy(r, w))
  {
    if r.policy.PolicyFailed? {
      CatchLeaves(r, CommandError(ExecutionFailed));
    } else if !r.policy.decision.allowed {
      CatchLeaves(r, CommandError(UserDenied));
    } else if !r.policy.decision.requireConfirmation {
      EnterLeaves(r, false, w);
    }
  }

  /** A step of the handler that settles its request as cancelled, other than by throwing that, heeds an abort. */
  lemma HandlerLeaves(r: Request, i: nat, m: Move, w: World)
    requires RequestInv(r) && CanMove(r, m) && !r.Settled() && IsCancelled(Moved(r, i, m, w))
    requires m.CsvInspected? || m.HandlerReturns? || (m.HandlerThrows? && m.thrown != CommandError(CancelledError))
    ensures Dead(Moved(r, i, m, w))
  {
    match m
    case CsvInspected(_) => CatchLeaves(r, CommandError(ConfirmationRequired));
    case HandlerReturns(_, _, _) => CatchLeaves(r, CommandError(CancelledError));
    case HandlerThrows(thrown) => CatchLeaves(r, thrown);
  }

  /** A step that settles a request as cancelled is that throw, or leaves the request dead. */
  lemma OtherCancellations(r: Request, i: nat, m: Move, w: World)
    requires RequestInv(r) && CanMove(r, m) && !r.Settled() && IsCancelled(Moved(r, i, m, w))
    requires m != HandlerThrows(CommandError(CancelledError))
    ensures Dead(Moved(r, i, m, w))
  {
    match m
    case PolicyContinues(b) =>
      if b == Cancellation { CatchLeaves(r, CommandError(CancelledError)); } else { PolicyLeaves(r, w); }
    case ConfirmationContinues(b) =>
      if b == Cancellation { CatchLeaves(r, CommandError(CancelledError)); }
      else if r.confirmation == Some(false) { CatchLeaves(r, CommandError(UserDenied)); }
      else { EnterLeaves(r, true, w); }
    case CsvInspected(_) => HandlerLeaves(r, i, m, w);
    case HandlerReturns(_, _, _) => HandlerLeaves(r, i, m, w);
    case HandlerThrows(_) => HandlerLeaves(r, i, m, w);
    case CancelCall => CancelAborts(r, i, w);
    case _ =>
  }

  lemma MoveKeepsDead(r: Request, i: nat, m: Move, w: World)
    requires RequestInv(r) && CanMove(r, m) && Dead(r)
    ensures Dead(Moved(r, i, m, w))
  {
    MoveKeepsRequestInv(r, i, m, w);
    if !AbortHeeded(r) {
      match m
      case CancelCall =>
      case ConfirmCall(_) =>
      case _ =>
    }
  }

  lemma {:induction false} RunKeepsDead(s: State, run: seq<Step>, i: nat)
    requires Inv(s) && Legal(s, run) && i < |s.requests| && Dead(s.requests[i])
    ensures i < |After(s, run).requests| && !After(s, run).requests[i].committed
    decreases |run|
  {
    if run == [] {
    } else {
      StepMoves(s, run[0], i);
      if run[0].Act? && run[0].id == i { MoveKeepsDead(s.requests[i], i, run[0].move, s.world); }
      StepKeepsInv(s, run[0]);
      RunKeepsDead(Apply(s, run[0]), run[1..], i);
    }
  }

  /** The step that settles request i as cancelled is that throw, if the request ever commits. */
  lemma SettledByThrow(s: State, step: Step, later: seq<Step>, i: nat)
    requires Inv(s) && Enabled(s, step) && i < |Apply(s, step).requests| && Legal(Apply(s, step), later)
    requires (i < |s.requests| ==> !s.requests[i].Settled()) && IsCancelled(Apply(s, step).requests[i])
    requires i < |After(Apply(s, step), later).requests| && After(Apply(s, step), later).requests[i].committed
    ensures step == ThrowsCancelled(i)
  {
    var t := Apply(s, step);
    if step != ThrowsCancelled(i) {
      if i < |s.requests| {
        StepMoves(s, step, i);
        OtherCancellations(s.requests[i], i, step.move, s.world);
      } else {
        StepAdds(s, step, i);
      }
      StepKeepsInv(s, step);
      RunKeepsDead(t, later, i);
    }
  }

  lemma {:induction false} CancelledWasThrown(s: State, run: seq<Step>, i: nat)
    requires Inv(s) && Legal(s, run) && i < |After(s, run).requests|
    requires i < |s.requests| ==> !s.requests[i].Settled()
    requires IsCancelled(After(s, run).requests[i]) && After(s, run).requests[i].committed
    ensures ThrowsCancelled(i) in run
    decreases |run|
  {
    var t := Apply(s, run[0]);
    StepKeepsInv(s, run[0]);
    if i < |t.requests| && t.requests[i].Settled() {
      RunKeepsRequests(t, run[1..], i);
      SettledByThrow(s, run[0], run[1..], i);
    } else {
      CancelledWasThrown(t, run[1..], i);
    }
  }

  lemma ThrowSettles(s: State, i: nat)
    requires Inv(s) && Enabled(s, ThrowsCancelled(i))
    ensures i < |Apply(s, ThrowsCancelled(i)).requests| && IsCancelled(Apply(s, ThrowsCancelled(i)).requests[i])
  {
    StepMoves(s, ThrowsCancelled(i), i);
    assert RequestInv(s.requests[i]);
  }

  lemma {:induction false} ThrownIsCancelled(s: State, run: seq<Step>, i: nat)
    requires Inv(s) && Legal(s, run) && ThrowsCancelled(i) in run
    ensures i < |After(s, run).requests| && IsCancelled(After(s, run).requests[i])
    decreases |run|
  {
    var t := Apply(s, run[0]);
    StepKeepsInv(s, run[0]);
    if run[0] == ThrowsCancelled(i) {
      ThrowSettles(s, i);
      RunKeepsRequests(t, run[1..], i);
    } else {
      ThrownIsCancelled(t, run[1..], i);
    }
  }

  /**
   The plan wants a committed command never to be reported as cancelled. Over every run, a request that has committed is
   so reported if and only if its handler threw a CommandExecutionError with the code "cancelled".
   */
  lemma CommittedIsCancelledExactly(cfg: Config, owner: Owner, run: seq<Step>, i: nat)
    requires Legal(Init(cfg, owner), run) && i < |After(Init(cfg, owner), run).requests|
    requires After(Init(cfg, owner), run).requests[i].committed
    ensures After(Init(cfg, owner), run).requests[i].outcome == Some(Rejected(CancelledError)) <==>
            ThrowsCancelled(i) in run
  {
    var s := Init(cfg, owner);
    InitInv(cfg, owner);
    if IsCancelled(After(s, run).requests[i]) { CancelledWasThrown(s, run, i); }
    if ThrowsCancelled(i) in run { ThrownIsCancelled(s, run, i); }
  }

  lemma OneInHandler(owner: Owner) returns (s: State)
    ensures Reachable(s) && s.world.owner == owner && !s.cfg.hasAdapter
    ensures |s.requests| == 1 && s.requests[0].point == InHandler && s.requests[0].guard == Some(owner)
    ensures s.requests[0].entered && !s.requests[0].aborted
  {
    s := OneSubmitted(true, owner);
    s := ReachableAct(s, 0, PolicySettles(Decided(Decision(true, false, None))));
    s := ReachableAct(s, 0, Begin);
    s := ReachableAct(s, 0, PolicyContinues(Answer));
  }

  /** Another project is opened. */
  lemma OwnerChanges(s: State, owner: Owner) returns (t: State)
    requires Reachable(s) && !s.cfg.hasAdapter
    ensures Reachable(t) && t.requests == s.requests && t.world.owner == owner
  {
    ReachableInv(s);
    var w := s.world.(owner := owner);
    ReachableStep(s, Outside(w));
    t := Apply(s, Outside(w));
  }

  lemma OneCommitted(owner: Owner) returns (s: State)
    ensures Reachable(s) && s.world.owner == owner && !s.cfg.hasAdapter
    ensures |s.requests| == 1 && s.requests[0].point == InHandler && s.requests[0].guard == Some(owner)
    ensures s.requests[0].committed && !s.requests[0].Settled()
  {
    s := OneInHandler(owner);
    ReachableInv(s);
    assert RequestInv(s.requests[0]);
    s := ReachableAct(s, 0, CommitCall);
  }

  /**
   A run in which a committed command is reported as cancelled: its handler begins the commit, another project is
   opened, and the handler's next `assertCurrent` finds that and throws "cancelled".
   */
  lemma CommittedReportedCancelled() returns (s: State)
    ensures Reachable(s) && |s.requests| == 1 && s.requests[0].guard.Some? && !OwnerCurrent(s.requests[0], s.world)
    ensures s.requests[0].committed && s.requests[0].outcome == Some(Rejected(CancelledError))
            && s.requests[0].status == Cancelled
  {
    var owner := Owner(Some(1), None);
    s := OneCommitted(owner);
    s := OwnerChanges(s, Owner(Some(2), None));
    s := ReachableAct(s, 0, HandlerThrows(CommandError(CancelledError)));
  }
}
