/** When a request is aborted, enters its handler and commits: over every run, exactly the steps that bring it about. */
module CommandSignals {
  import opened Common
  import opened CommandProtocol
  import opened CommandInvariant
  import opened CommandRuns
  import opened CommandHistory
  import opened CommandReports

  /** In state s the caller's `cancel` of request i answers true: it is neither settled nor committed. */
  lemma CancelAnswersExactly(s: State, i: nat)
    requires Reachable(s) && i < |s.requests|
    ensures CancelAnswer(s.requests[i]) <==> !s.requests[i].Settled() && !s.requests[i].committed
  {
    ReachableInv(s);
    assert RequestInv(s.requests[i]);
  }

  /** In state s `confirm` answers true: the request waits for it. */
  lemma ConfirmAnswersExactly(s: State, i: nat)
    requires Reachable(s) && i < |s.requests|
    ensures ConfirmAnswer(s.requests[i]) <==> s.requests[i].point == AtConfirmation && !s.requests[i].Settled()
  {
    ReachableInv(s);
    assert RequestInv(s.requests[i]);
  }

  // ---------------------------------------------------------------- one request

  /** The move takes the request into its handler. */
  predicate Enters(r: Request, m: Move, w: World) {
    Proceeds(r, m) && !r.Settled() && !RevisionMoved(r, w.revision) && !OwnerChanged(r, w.owner)
  }

  predicate Commits(r: Request, m: Move, w: World) {
    m == CommitCall && !GaveUp(r) && !OwnerChanged(r, w.owner)
  }

  predicate Aborts(r: Request, m: Move) {
    m == CancelCall && !r.Settled() && !r.committed
  }

  lemma CaughtKeepsFlags(r: Request, t: Thrown)
    ensures var next := Caught(r, t);
            next.aborted == r.aborted && next.committed == r.committed && next.entered == r.entered
            && next.granted == r.granted
  {
    if r.Settled() {} else {}
  }

  lemma EnterSetsFlags(r: Request, granted: bool, w: World)
    ensures Enter(r, granted, w).aborted == r.aborted && Enter(r, granted, w).committed == r.committed
    ensures if RevisionMoved(r, w.revision) || GaveUp(r) || OwnerChanged(r, w.owner)
            then Enter(r, granted, w).entered == r.entered
            else Enter(r, granted, w).entered && Enter(r, granted, w).granted == granted
  {
    RunsKeepsFlags(r);
    if !RevisionExpected(r, w) {
      CaughtKeepsFlags(Runs(r), CommandError(RevisionConflict));
    } else if AbortHeeded(r) || !OwnerCurrent(r, w) {
      CaughtKeepsFlags(Runs(r), CommandError(CancelledError));
    } else {}
  }

  lemma RunsKeepsFlags(r: Request)
    ensures Runs(r).aborted == r.aborted && Runs(r).committed == r.committed && Runs(r).entered == r.entered
  {}

  lemma PolicySetsFlags(r: Request, i: nat, branch: Branch, w: World)
    requires RequestInv(r) && CanMove(r, PolicyContinues(branch))
    ensures var m, next := PolicyContinues(branch), Moved(r, i, PolicyContinues(branch), w);
            && next.aborted == r.aborted && next.committed == r.committed
            && (next.entered <==> r.entered || Enters(r, m, w)) && (Enters(r, m, w) ==> !next.granted)
  {
    CaughtKeepsFlags(r, CommandError(CancelledError));
    CaughtKeepsFlags(r, CommandError(ExecutionFailed));
    CaughtKeepsFlags(r, CommandError(UserDenied));
    EnterSetsFlags(r, false, w);
  }

  lemma ConfirmationSetsFlags(r: Request, i: nat, branch: Branch, w: World)
    requires RequestInv(r) && CanMove(r, ConfirmationContinues(branch))
    ensures var m, next := ConfirmationContinues(branch), Moved(r, i, ConfirmationContinues(branch), w);
            && next.aborted == r.aborted && next.committed == r.committed
            && (next.entered <==> r.entered || Enters(r, m, w)) && (Enters(r, m, w) ==> next.granted)
  {
    CaughtKeepsFlags(r, CommandError(CancelledError));
    CaughtKeepsFlags(r, CommandError(UserDenied));
    assert !r.committed && !r.entered && (GaveUp(r) <==> r.Settled());
    if branch == Answer && r.confirmation.value { EnterSetsFlags(r, true, w); } else {}
  }

  lemma HandlerSetsFlags(r: Request, i: nat, m: Move, w: World)
    requires RequestInv(r) && CanMove(r, m) && (m.CsvInspected? || m.HandlerReturns? || m.HandlerThrows?)
    ensures var next := Moved(r, i, m, w);
            next.aborted == r.aborted && next.committed == r.committed && next.entered == r.entered
  {
    match m
    case CsvInspected(_) => CaughtKeepsFlags(r, CommandError(ConfirmationRequired));
    case HandlerReturns(_, _, _) => CaughtKeepsFlags(r, CommandError(CancelledError));
    case HandlerThrows(thrown) => CaughtKeepsFlags(r, thrown);
  }

  lemma OtherMovesSetFlags(r: Request, i: nat, m: Move, w: World)
    requires RequestInv(r) && CanMove(r, m) && !m.PolicyContinues? && !m.ConfirmationContinues?
    requires !m.CsvInspected? && !m.HandlerReturns? && !m.HandlerThrows?
    ensures var next := Moved(r, i, m, w);
            && (next.aborted <==> r.aborted || Aborts(r, m))
            && (next.committed <==> r.committed || Commits(r, m, w))
            && next.entered == r.entered
  {
    match m
    case CommitCall => if CommitAccepted(r, w) {} else {}
    case CancelCall => if CancelAnswer(r) {} else {}
    case _ =>
  }

  lemma MoveSetsFlags(r: Request, i: nat, m: Move, w: World)
    requires RequestInv(r) && CanMove(r, m)
    ensures var next := Moved(r, i, m, w);
            && (next.aborted <==> r.aborted || Aborts(r, m))
            && (next.committed <==> r.committed || Commits(r, m, w))
            && (next.entered <==> r.entered || Enters(r, m, w))
  {
    match m
    case PolicyContinues(branch) => PolicySetsFlags(r, i, branch, w);
    case ConfirmationContinues(branch) => ConfirmationSetsFlags(r, i, branch, w);
    case CsvInspected(_) => HandlerSetsFlags(r, i, m, w);
    case HandlerReturns(_, _, _) => HandlerSetsFlags(r, i, m, w);
    case HandlerThrows(_) => HandlerSetsFlags(r, i, m, w);
    case _ => OtherMovesSetFlags(r, i, m, w);
  }

  // ---------------------------------------------------------------- over every run

  /** What a request can reach, once and for all. */
  datatype Mark = Aborted | Entered | Committed

  predicate Has(r: Request, mark: Mark) {
    match mark case Aborted => r.aborted case Entered => r.entered case Committed => r.committed
  }

  /** The step gives request i that mark; a new request is aborted by a signal that is raised already. */
  ghost predicate Gets(s: State, step: Step, i: nat, mark: Mark) {
    if i < |s.requests| then
      && step.Act? && step.id == i
      && match mark
         case Aborted => Aborts(s.requests[i], step.move)
         case Entered => Enters(s.requests[i], step.move, s.world)
         case Committed => Commits(s.requests[i], step.move, s.world)
    else
      mark == Aborted && step.Submit? && step.signalAborted && TicketFor(s, step.command, step.actor) == Fresh(i)
  }

  ghost predicate HasIn(s: State, i: nat, mark: Mark) {
    i < |s.requests| && Has(s.requests[i], mark)
  }

  lemma AddingGets(s: State, step: Step, i: nat, mark: Mark)
    requires Enabled(s, step) && |s.requests| <= i
    ensures HasIn(Apply(s, step), i, mark) <==> Gets(s, step, i, mark)
  {
    match step
    case Submit(c, actor, signalAborted) =>
      if TicketFor(s, c, actor).Fresh? { SubmitGets(s, c, actor, signalAborted); }
    case Act(j, m) => ActedRequests(s, j, m);
    case _ =>
  }

  lemma SubmitGets(s: State, c: Command, actor: Actor, signalAborted: bool)
    requires TicketFor(s, c, actor).Fresh?
    ensures var rs := Apply(s, Submit(c, actor, signalAborted)).requests;
            && |rs| == |s.requests| + 1 && rs[|s.requests|].aborted == signalAborted
            && !rs[|s.requests|].entered && !rs[|s.requests|].committed
  {
    SubmitAddsARequest(s, c, actor, signalAborted);
  }

  lemma StepGets(s: State, step: Step, i: nat, mark: Mark)
    requires Inv(s) && Enabled(s, step)
    ensures HasIn(Apply(s, step), i, mark) <==> HasIn(s, i, mark) || Gets(s, step, i, mark)
  {
    if i < |s.requests| {
      StepMoves(s, step, i);
      if step.Act? && step.id == i { MoveSetsFlags(s.requests[i], i, step.move, s.world); }
    } else {
      AddingGets(s, step, i, mark);
    }
  }

  ghost predicate GetsIn(states: seq<State>, run: seq<Step>, k: nat, i: nat, mark: Mark) {
    k < |run| < |states| && Gets(states[k], run[k], i, mark)
  }

  lemma StepMarks(states: seq<State>, run: seq<Step>, k: nat, i: nat, mark: Mark)
    requires Trace(states, run) && k < |run|
    ensures HasIn(states[k + 1], i, mark) <==> HasIn(states[k], i, mark) || GetsIn(states, run, k, i, mark)
  {
    TraceStep(states, run, k);
    StepGets(states[k], run[k], i, mark);
  }

  /**
   Over every run, a request is aborted if and only if some call of `cancel` found it unsettled and uncommitted, or its
   signal was raised when it was submitted; it has entered its handler if and only if the policy or `confirm` let it,
   with its expected revision and its owner as they should be; and it has committed if and only if some call of
   `beginCommit` found it not cancelled and its owner unchanged.
   */
  lemma {:induction false} MarkedExactly(states: seq<State>, run: seq<Step>, l: nat, i: nat, mark: Mark)
    requires Trace(states, run) && l <= |run|
    ensures i < |states[l].requests| && Has(states[l].requests[i], mark) <==>
            exists k: nat :: k < l && GetsIn(states, run, k, i, mark)
    decreases l
  {
    if l == 0 {
    } else {
      MarkedExactly(states, run, l - 1, i, mark);
      StepMarks(states, run, l - 1, i, mark);
    }
  }
}
