/** How each command is reported: over every run, the exact step and condition that each outcome comes from. */
module CommandReports {
  import opened Common
  import opened CommandProtocol
  import opened CommandInvariant
  import opened CommandRuns
  import opened CommandHistory

  // ---------------------------------------------------------------- one request

  /** It was cancelled before it could commit. */
  predicate GaveUp(r: Request) {
    r.aborted && !r.committed
  }

  /** The answer that lets a run go on to its handler: an unconditional permission, or `confirm(id, true)`. */
  predicate Proceeds(r: Request, m: Move) {
    || (&& m == PolicyContinues(Answer)
        && r.policy.Decided? && r.policy.decision.allowed && !r.policy.decision.requireConfirmation)
    || (m == ConfirmationContinues(Answer) && r.confirmation == Some(true))
  }

  predicate RevisionMoved(r: Request, revision: int) {
    r.mode == Mutation && r.command.expected.Some? && r.command.expected.value != revision
  }

  /** Another persistence owner than at submission, or, if there was none then, another project. */
  predicate OwnerChanged(r: Request, current: Owner) {
    && r.guard.Some?
    && (|| current.persistence != r.guard.value.persistence
        || (r.guard.value.persistence.None? && current.project != r.guard.value.project))
  }

  /** A move of an unsettled request rejects its promise with that code. */
  predicate Rejects(r: Request, m: Move, w: World, code: ErrorCode) {
    || m == HandlerThrows(CommandError(code))
    || match code
       case CancelledError =>
         || (m == CancelCall && r.point != InHandler)
         || ((m == HandlerThrows(ForeignError) || m.HandlerReturns?) && GaveUp(r))
         || (Proceeds(r, m) && !RevisionMoved(r, w.revision) && OwnerChanged(r, w.owner))
       case RevisionConflict => Proceeds(r, m) && RevisionMoved(r, w.revision)
       case UserDenied =>
         || (m == PolicyContinues(Answer) && r.policy.Decided? && !r.policy.decision.allowed)
         || (m == ConfirmationContinues(Answer) && r.confirmation == Some(false))
       case ExecutionFailed =>
         || (m == PolicyContinues(Answer) && r.policy == PolicyFailed)
         || (m == HandlerThrows(ForeignError) && !GaveUp(r))
       case ConfirmationRequired => m == CsvInspected(true) && !r.granted
       case OtherCode(_) => false
  }

  /** A move of an unsettled request resolves its promise with that result. */
  predicate Resolves(r: Request, i: nat, m: Move, w: World, result: CommandResult) {
    && m == HandlerReturns(result.changed, result.data, result.warnings) && !GaveUp(r)
    && result.request == i && result.kind == r.command.kind
    && result.projectRevision ==
         w.revision + (if r.mode == Mutation && result.changed && !w.authoritative then 1 else 0)
  }

  predicate SettlesAs(r: Request, i: nat, m: Move, w: World, outcome: Outcome) {
    match outcome
    case Rejected(code) => Rejects(r, m, w, code)
    case Resolved(result) => Resolves(r, i, m, w, result)
  }

  lemma CaughtReports(r: Request, t: Thrown)
    requires !r.Settled()
    ensures Caught(r, t).outcome ==
              Some(Rejected(match t case CommandError(code) => code
                            case ForeignError => if GaveUp(r) then CancelledError else ExecutionFailed))
  {}

  lemma EnterReports(r: Request, granted: bool, w: World)
    requires !r.Settled() && !r.aborted
    ensures Enter(r, granted, w).outcome ==
              if RevisionMoved(r, w.revision) then Some(Rejected(RevisionConflict))
              else if OwnerChanged(r, w.owner) then Some(Rejected(CancelledError)) else None
  {
    if !RevisionExpected(r, w) {
      CaughtReports(Runs(r), CommandError(RevisionConflict));
    } else if !OwnerCurrent(r, w) {
      CaughtReports(Runs(r), CommandError(CancelledError));
    } else {}
  }

  lemma PolicyReports(r: Request, i: nat, branch: Branch, w: World, outcome: Outcome)
    requires RequestInv(r) && !r.Settled() && CanMove(r, PolicyContinues(branch))
    ensures Moved(r, i, PolicyContinues(branch), w).outcome == Some(outcome) <==>
            SettlesAs(r, i, PolicyContinues(branch), w, outcome)
  {
    if r.policy.PolicyFailed? {
      CaughtReports(r, CommandError(ExecutionFailed));
    } else if !r.policy.decision.allowed {
      CaughtReports(r, CommandError(UserDenied));
    } else if !r.policy.decision.requireConfirmation {
      EnterReports(r, false, w);
    }
  }

  lemma ConfirmationReports(r: Request, i: nat, branch: Branch, w: World, outcome: Outcome)
    requires RequestInv(r) && !r.Settled() && CanMove(r, ConfirmationContinues(branch))
    ensures Moved(r, i, ConfirmationContinues(branch), w).outcome == Some(outcome) <==>
            SettlesAs(r, i, ConfirmationContinues(branch), w, outcome)
  {
    assert !r.aborted && !r.cancelSignalled && branch == Answer;
    if r.confirmation.value { EnterReports(r, true, w); } else { CaughtReports(r, CommandError(UserDenied)); }
  }

  lemma HandlerReports(r: Request, i: nat, m: Move, w: World, outcome: Outcome)
    requires RequestInv(r) && !r.Settled() && CanMove(r, m)
    requires m.CsvInspected? || m.HandlerReturns? || m.HandlerThrows?
    ensures Moved(r, i, m, w).outcome == Some(outcome) <==> SettlesAs(r, i, m, w, outcome)
  {
    match m
    case CsvInspected(_) => CaughtReports(r, CommandError(ConfirmationRequired));
    case HandlerReturns(_, _, _) => CaughtReports(r, CommandError(CancelledError));
    case HandlerThrows(thrown) => CaughtReports(r, thrown);
  }

  lemma OtherMovesReport(r: Request, i: nat, m: Move, w: World, outcome: Outcome)
    requires RequestInv(r) && !r.Settled() && CanMove(r, m) && !m.PolicyContinues? && !m.ConfirmationContinues?
    requires !m.CsvInspected? && !m.HandlerReturns? && !m.HandlerThrows?
    ensures Moved(r, i, m, w).outcome == Some(outcome) <==> SettlesAs(r, i, m, w, outcome)
  {
    match m
    case CancelCall => CancelReports(r, i, w);
    case CommitCall => if CommitAccepted(r, w) {} else {}
    case _ =>
  }

  lemma CancelReports(r: Request, i: nat, w: World)
    requires RequestInv(r) && !r.Settled()
    ensures Moved(r, i, CancelCall, w).outcome == if r.point == InHandler then None else Some(Rejected(CancelledError))
  {
    if !CancelAnswer(r) {
    } else if r.status == Queued || r.status == AwaitingConfirmation {
    } else {}
  }

  lemma MoveReports(r: Request, i: nat, m: Move, w: World, outcome: Outcome)
    requires RequestInv(r) && !r.Settled() && CanMove(r, m)
    ensures Moved(r, i, m, w).outcome == Some(outcome) <==> SettlesAs(r, i, m, w, outcome)
  {
    match m
    case PolicyContinues(branch) => PolicyReports(r, i, branch, w, outcome);
    case ConfirmationContinues(branch) => ConfirmationReports(r, i, branch, w, outcome);
    case CsvInspected(_) => HandlerReports(r, i, m, w, outcome);
    case HandlerReturns(_, _, _) => HandlerReports(r, i, m, w, outcome);
    case HandlerThrows(_) => HandlerReports(r, i, m, w, outcome);
    case _ => OtherMovesReport(r, i, m, w, outcome);
  }

  // ---------------------------------------------------------------- over every run

  /** The step settles request i with that outcome; a new request is settled only by a signal that is raised already. */
  ghost predicate Ends(s: State, step: Step, i: nat, outcome: Outcome) {
    if i < |s.requests| then
      && step.Act? && step.id == i && !s.requests[i].Settled()
      && SettlesAs(s.requests[i], i, step.move, s.world, outcome)
    else
      && step.Submit? && step.signalAborted && TicketFor(s, step.command, step.actor) == Fresh(i)
      && outcome == Rejected(CancelledError)
  }

  lemma SubmitEnds(s: State, c: Command, actor: Actor, signalAborted: bool)
    requires TicketFor(s, c, actor).Fresh?
    ensures |Apply(s, Submit(c, actor, signalAborted)).requests| == |s.requests| + 1
    ensures Apply(s, Submit(c, actor, signalAborted)).requests[|s.requests|].outcome ==
              if signalAborted then Some(Rejected(CancelledError)) else None
  {
    SubmitAddsARequest(s, c, actor, signalAborted);
  }

  lemma MoveEnds(s: State, step: Step, i: nat, outcome: Outcome)
    requires Inv(s) && Enabled(s, step) && i < |s.requests| && !s.requests[i].Settled()
    ensures Next(s, step, i).outcome == Some(outcome) <==> Ends(s, step, i, outcome)
  {
    if step.Act? && step.id == i { MoveReports(s.requests[i], i, step.move, s.world, outcome); }
  }

  lemma AddingEnds(s: State, step: Step, i: nat, outcome: Outcome)
    requires Enabled(s, step) && |s.requests| <= i
    ensures i < |Apply(s, step).requests| && Apply(s, step).requests[i].outcome == Some(outcome) <==>
            Ends(s, step, i, outcome)
  {
    match step
    case Submit(c, actor, signalAborted) =>
      if TicketFor(s, c, actor).Fresh? { SubmitEnds(s, c, actor, signalAborted); }
    case Act(j, m) => ActedRequests(s, j, m);
    case _ =>
  }

  lemma StepEnds(s: State, step: Step, i: nat, outcome: Outcome)
    requires Inv(s) && Enabled(s, step) && !IsSettled(s, i)
    ensures i < |Apply(s, step).requests| && Apply(s, step).requests[i].outcome == Some(outcome) <==>
            Ends(s, step, i, outcome)
  {
    if i < |s.requests| {
      StepMoves(s, step, i);
      MoveEnds(s, step, i, outcome);
    } else {
      AddingEnds(s, step, i, outcome);
    }
  }

  /** Step k of the run settles request i with that outcome. */
  ghost predicate EndsIn(states: seq<State>, run: seq<Step>, k: nat, i: nat, outcome: Outcome) {
    k < |run| < |states| && Ends(states[k], run[k], i, outcome)
  }

  lemma EndsStay(states: seq<State>, run: seq<Step>, k: nat, i: nat, outcome: Outcome)
    requires Trace(states, run) && EndsIn(states, run, k, i, outcome)
    ensures SettledIn(states, k, i) && IsSettled(states[|run|], i)
    ensures states[k + 1].requests[i].outcome == states[|run|].requests[i].outcome == Some(outcome)
  {
    TraceStep(states, run, k);
    StepEnds(states[k], run[k], i, outcome);
    StaysSettled(states, run, k + 1, |run|, i);
  }

  lemma EndedSomewhere(states: seq<State>, run: seq<Step>, i: nat, outcome: Outcome) returns (k: nat)
    requires Trace(states, run)
    requires IsSettled(states[|run|], i) && states[|run|].requests[i].outcome == Some(outcome)
    ensures EndsIn(states, run, k, i, outcome) && SettledIn(states, k, i)
  {
    k := SettlingStep(states, run, |run|, i);
    TraceStep(states, run, k);
    StepEnds(states[k], run[k], i, outcome);
  }

  /**
   How commands are reported. Over every run, a request ends with an outcome if and only if some step settled it so, for
   the reason `SettlesAs` gives; there is only one such step.
   */
  lemma OutcomeExactly(states: seq<State>, run: seq<Step>, i: nat, outcome: Outcome)
    requires Trace(states, run)
    ensures i < |states[|run|].requests| && states[|run|].requests[i].outcome == Some(outcome) <==>
            exists k: nat :: EndsIn(states, run, k, i, outcome)
    ensures forall k: nat, l: nat | EndsIn(states, run, k, i, outcome) && EndsIn(states, run, l, i, outcome) :: k == l
  {
    if i < |states[|run|].requests| && states[|run|].requests[i].outcome == Some(outcome) {
      var k := EndedSomewhere(states, run, i, outcome);
    }
    if k: nat :| EndsIn(states, run, k, i, outcome) { EndsStay(states, run, k, i, outcome); }
    forall k: nat, l: nat | EndsIn(states, run, k, i, outcome) && EndsIn(states, run, l, i, outcome) ensures k == l {
      EndsStay(states, run, k, i, outcome);
      EndsStay(states, run, l, i, outcome);
      SettledOnce(states, run, k, l, i);
    }
  }
}
