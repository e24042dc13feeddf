/** What `snapshot()` shows of each request, told from the run: what was last reported, and how it was settled. */
module CommandShown {
  import opened Common
  import opened CommandProtocol
  import opened CommandInvariant
  import opened CommandArchive
  import opened CommandRuns
  import opened CommandHistory
  import opened CommandReports
  import opened CommandSignals
  import opened CommandSafety

  // ---------------------------------------------------------------- one request

  /** A request that is not past its handler's door shows where it waits. */
  predicate ShowsItsPlace(r: Request) {
    && (r.point == Waiting || r.point == AtPolicy ==> r.stage == "queue")
    && (r.point == AtConfirmation ==> r.stage == "confirmation")
  }

  datatype Sign = Sign(status: Status, stage: string)

  /** The status and the stage that a move puts up, if it puts up any. */
  function SignOf(r: Request, m: Move, w: World): Option<Sign> {
    match m
    case ProgressCall(stage, _, _) => if GaveUp(r) then None else Some(Sign(Running, stage))
    case CommitCall => if Commits(r, m, w) then Some(Sign(Committing, "commit")) else None
    case PolicyContinues(Answer) =>
      if r.Settled() || !r.policy.Decided? || !r.policy.decision.allowed then None
      else Some(if r.policy.decision.requireConfirmation then Sign(AwaitingConfirmation, "confirmation")
                else Sign(Running, "running"))
    case ConfirmationContinues(Answer) =>
      if r.confirmation == Some(true) then Some(Sign(Running, "running")) else None
    case _ => None
  }

  function NextSign(r: Request, m: Move, w: World, sign: Sign): Sign {
    if SignOf(r, m, w).Some? then SignOf(r, m, w).value else sign
  }

  predicate Heeded(r: Request, m: Move) {
    m.ProgressCall? && !GaveUp(r)
  }

  lemma CaughtShows(r: Request, t: Thrown)
    ensures var next := Caught(r, t);
            next.stage == r.stage && next.message == r.message && next.percent == r.percent && next.point == Ended
            && (next.Settled())
  {
    if r.Settled() {} else {}
  }

  lemma EnterShows(r: Request, granted: bool, w: World)
    requires ShowsItsPlace(r) && (r.point == AtPolicy || r.point == AtConfirmation)
    ensures var next := Enter(r, granted, w);
            && next.stage == "running" && next.message == r.message && next.percent == r.percent
            && ShowsItsPlace(next) && (!next.Settled() ==> next.status == Running)
  {
    assert Runs(r).stage == "running" && Runs(r).message == r.message && Runs(r).percent == r.percent;
    if !RevisionExpected(r, w) {
      CaughtShows(Runs(r), CommandError(RevisionConflict));
    } else if AbortHeeded(r) || !OwnerCurrent(r, w) {
      CaughtShows(Runs(r), CommandError(CancelledError));
    } else {}
  }

  /** The move shows what `SignOf` and `Heeded` say, and leaves the rest as it is. */
  predicate Shows(r: Request, m: Move, w: World, next: Request) {
    && next.stage == NextSign(r, m, w, Sign(r.status, r.stage)).stage
    && (!next.Settled() ==> next.status == NextSign(r, m, w, Sign(r.status, r.stage)).status)
    && next.message == (if Heeded(r, m) then m.message else r.message)
    && next.percent == (if Heeded(r, m) then m.percent else r.percent)
    && ShowsItsPlace(next)
  }

  lemma PolicyShows(r: Request, i: nat, branch: Branch, w: World)
    requires RequestInv(r) && ShowsItsPlace(r) && CanMove(r, PolicyContinues(branch))
    ensures Shows(r, PolicyContinues(branch), w, Moved(r, i, PolicyContinues(branch), w))
  {
    CaughtShows(r, CommandError(CancelledError));
    CaughtShows(r, CommandError(ExecutionFailed));
    CaughtShows(r, CommandError(UserDenied));
    EnterShows(r, false, w);
  }

  lemma ConfirmationShows(r: Request, i: nat, branch: Branch, w: World)
    requires RequestInv(r) && ShowsItsPlace(r) && CanMove(r, ConfirmationContinues(branch))
    ensures Shows(r, ConfirmationContinues(branch), w, Moved(r, i, ConfirmationContinues(branch), w))
  {
    CaughtShows(r, CommandError(CancelledError));
    CaughtShows(r, CommandError(UserDenied));
    if branch == Answer && r.confirmation.value { EnterShows(r, true, w); } else {}
  }

  lemma HandlerShows(r: Request, i: nat, m: Move, w: World)
    requires RequestInv(r) && ShowsItsPlace(r) && CanMove(r, m)
    requires m.CsvInspected? || m.HandlerReturns? || m.HandlerThrows?
    ensures Shows(r, m, w, Moved(r, i, m, w))
  {
    match m
    case CsvInspected(_) => CaughtShows(r, CommandError(ConfirmationRequired));
    case HandlerReturns(_, _, _) => CaughtShows(r, CommandError(CancelledError));
    case HandlerThrows(thrown) => CaughtShows(r, thrown);
  }

  lemma CallShows(r: Request, i: nat, m: Move, w: World)
    requires RequestInv(r) && ShowsItsPlace(r) && CanMove(r, m)
    requires m.CancelCall? || m.ConfirmCall? || m.ProgressCall? || m.CommitCall?
    ensures Shows(r, m, w, Moved(r, i, m, w))
  {
    match m
    case CancelCall => if !CancelAnswer(r) {} else if r.status == Queued || r.status == AwaitingConfirmation {} else {}
    case CommitCall => if CommitAccepted(r, w) {} else {}
    case _ =>
  }

  lemma MoveShows(r: Request, i: nat, m: Move, w: World)
    requires RequestInv(r) && ShowsItsPlace(r) && CanMove(r, m)
    ensures Shows(r, m, w, Moved(r, i, m, w))
  {
    match m
    case PolicyContinues(branch) => PolicyShows(r, i, branch, w);
    case ConfirmationContinues(branch) => ConfirmationShows(r, i, branch, w);
    case CsvInspected(_) => HandlerShows(r, i, m, w);
    case HandlerReturns(_, _, _) => HandlerShows(r, i, m, w);
    case HandlerThrows(_) => HandlerShows(r, i, m, w);
    case CancelCall => CallShows(r, i, m, w);
    case ConfirmCall(_) => CallShows(r, i, m, w);
    case ProgressCall(_, _, _) => CallShows(r, i, m, w);
    case CommitCall => CallShows(r, i, m, w);
    case _ =>
  }

  // ---------------------------------------------------------------- over every run

  /** The last status and stage that the first l steps put up for request i: "queued" when there is none. */
  ghost function LastSign(states: seq<State>, run: seq<Step>, l: nat, i: nat): Sign
    requires l <= |run| < |states|
    decreases l
  {
    if l == 0 then Sign(Queued, "queue")
    else if MovesIn(states, run, l - 1, i)
    then NextSign(states[l - 1].requests[i], run[l - 1].move, states[l - 1].world, LastSign(states, run, l - 1, i))
    else LastSign(states, run, l - 1, i)
  }

  /** Step k is a move of request i. */
  ghost predicate MovesIn(states: seq<State>, run: seq<Step>, k: nat, i: nat) {
    k < |run| < |states| && run[k].Act? && run[k].id == i && i < |states[k].requests|
  }

  /** The last progress call for request i among the first l steps that was heeded. */
  ghost function LastProgress(states: seq<State>, run: seq<Step>, l: nat, i: nat): (m: Option<Move>)
    requires l <= |run| < |states|
    ensures m.Some? ==> m.value.ProgressCall?
    decreases l
  {
    if l == 0 then None
    else if MovesIn(states, run, l - 1, i) && Heeded(states[l - 1].requests[i], run[l - 1].move)
    then Some(run[l - 1].move)
    else LastProgress(states, run, l - 1, i)
  }

  /** The request shows the last sign, and the message and the percentage of the last progress. */
  predicate IsShown(r: Request, sign: Sign, progress: Option<Move>)
    requires progress.Some? ==> progress.value.ProgressCall?
  {
    && ShowsItsPlace(r) && r.stage == sign.stage && (!r.Settled() ==> r.status == sign.status)
    && r.message == (if progress.Some? then progress.value.message else None)
    && r.percent == (if progress.Some? then progress.value.percent else None)
  }

  lemma MoveIsShown(r: Request, i: nat, m: Move, w: World, sign: Sign, progress: Option<Move>)
    requires RequestInv(r) && CanMove(r, m) && (progress.Some? ==> progress.value.ProgressCall?)
    requires IsShown(r, sign, progress)
    ensures IsShown(Moved(r, i, m, w), NextSign(r, m, w, sign), if Heeded(r, m) then Some(m) else progress)
  {
    MoveShows(r, i, m, w);
    MoveKeepsRequestInv(r, i, m, w);
  }

  lemma StepIsShown(s: State, step: Step, i: nat, sign: Sign, progress: Option<Move>)
    requires Inv(s) && Enabled(s, step) && i < |s.requests| && (progress.Some? ==> progress.value.ProgressCall?)
    requires IsShown(s.requests[i], sign, progress)
    ensures i < |Apply(s, step).requests|
    ensures var moves, r := step.Act? && step.id == i, s.requests[i];
            IsShown(Apply(s, step).requests[i], if moves then NextSign(r, step.move, s.world, sign) else sign,
                    if moves && Heeded(r, step.move) then Some(step.move) else progress)
  {
    StepMoves(s, step, i);
    if step.Act? && step.id == i { MoveIsShown(s.requests[i], i, step.move, s.world, sign, progress); }
  }

  lemma NewIsShown(s: State, step: Step, i: nat)
    requires Enabled(s, step) && |s.requests| <= i < |Apply(s, step).requests|
    ensures IsShown(Apply(s, step).requests[i], Sign(Queued, "queue"), None)
  {
    StepAdds(s, step, i);
    SubmitAddsARequest(s, step.command, step.actor, step.signalAborted);
  }

  lemma {:induction false} NothingShown(states: seq<State>, run: seq<Step>, l: nat, i: nat)
    requires Trace(states, run) && l <= |run| && |states[l].requests| <= i
    ensures LastSign(states, run, l, i) == Sign(Queued, "queue") && LastProgress(states, run, l, i) == None
    decreases l
  {
    if l == 0 {
    } else {
      if i < |states[l - 1].requests| { BetweenKeeps(states, run, l - 1, l, i); }
      NothingShown(states, run, l - 1, i);
    }
  }

  lemma ShownNext(states: seq<State>, run: seq<Step>, k: nat, i: nat, sign: Sign, progress: Option<Move>)
    requires Trace(states, run) && k < |run| && i < |states[k].requests|
    requires (progress.Some? ==> progress.value.ProgressCall?) && IsShown(states[k].requests[i], sign, progress)
    ensures i < |states[k + 1].requests|
    ensures var moves, r := MovesIn(states, run, k, i), states[k].requests[i];
            IsShown(states[k + 1].requests[i], if moves then NextSign(r, run[k].move, states[k].world, sign) else sign,
                    if moves && Heeded(r, run[k].move) then Some(run[k].move) else progress)
  {
    TraceStep(states, run, k);
    StepIsShown(states[k], run[k], i, sign, progress);
  }

  lemma FirstShown(states: seq<State>, run: seq<Step>, k: nat, i: nat)
    requires Trace(states, run) && k < |run| && |states[k].requests| <= i < |states[k + 1].requests|
    ensures IsShown(states[k + 1].requests[i], Sign(Queued, "queue"), None)
  {
    TraceStep(states, run, k);
    NewIsShown(states[k], run[k], i);
  }

  lemma {:induction false} ShownBefore(states: seq<State>, run: seq<Step>, l: nat, i: nat)
    requires Trace(states, run) && l <= |run| && i < |states[l].requests|
    ensures IsShown(states[l].requests[i], LastSign(states, run, l, i), LastProgress(states, run, l, i))
    decreases l
  {
    if l == 0 {
    } else {
      if i < |states[l - 1].requests| {
        ShownBefore(states, run, l - 1, i);
        ShownNext(states, run, l - 1, i, LastSign(states, run, l - 1, i), LastProgress(states, run, l - 1, i));
      } else {
        NothingShown(states, run, l - 1, i);
        FirstShown(states, run, l - 1, i);
      }
    }
  }

  // ---------------------------------------------------------------- the archive and the snapshot

  lemma PutArchives(s: State, i: nat, next: Request)
    requires QueueInv(s) && i < |s.requests| && Evolves(s.requests[i], next)
    requires !s.requests[i].Settled() && next.Settled()
    ensures Put(s, i, next).archive.history == s.archive.history + [EntryOf(i, next)]
  {
    HistoryGrown(s.requests, s.archive.history, i, next);
    ArchivedKeeps(s.archive, EntryOf(i, next));
  }

  lemma ActArchives(s: State, i: nat, m: Move)
    requires QueueInv(s) && i < |s.requests| && CanMove(s.requests[i], m)
    requires !s.requests[i].Settled() && Moved(s.requests[i], i, m, s.world).Settled()
    ensures Acted(s, i, m).archive.history == s.archive.history + [EntryOf(i, Moved(s.requests[i], i, m, s.world))]
  {
    var next := Moved(s.requests[i], i, m, s.world);
    MoveKeepsRequestInv(s.requests[i], i, m, s.world);
    InstalledParts(s, i, m, next, Events(s.requests[i], i, m, s.world));
    PutArchives(s, i, next);
  }

  lemma SubmitArchives(s: State, c: Command, actor: Actor)
    requires QueueInv(s) && TicketFor(s, c, actor).Fresh?
    ensures var t := Apply(s, Submit(c, actor, true));
            && |t.requests| == |s.requests| + 1
            && t.archive.history == s.archive.history + [EntryOf(|s.requests|, t.requests[|s.requests|])]
  {
    var t, n := Admitted(s, c, actor), |s.requests|;
    AdmitKeepsQueueInv(s, c, actor);
    ActedRequests(t, n, CancelCall);
    ActArchives(t, n, CancelCall);
  }

  /** The step that settles a request archives it as it then is. */
  lemma StepArchives(s: State, step: Step, i: nat)
    requires Inv(s) && Enabled(s, step) && !IsSettled(s, i) && IsSettled(Apply(s, step), i)
    ensures Apply(s, step).archive.history == s.archive.history + [EntryOf(i, Apply(s, step).requests[i])]
  {
    if i < |s.requests| {
      StepMoves(s, step, i);
      ActArchives(s, i, step.move);
    } else {
      StepAdds(s, step, i);
      if !step.signalAborted { SubmitEnds(s, step.command, step.actor, false); }
      SubmitArchives(s, step.command, step.actor);
    }
  }

  lemma OneStepGrowsHistory(states: seq<State>, run: seq<Step>, k: nat)
    requires Trace(states, run) && k < |run|
    ensures states[k].archive.history <= states[k + 1].archive.history
  {
    TraceStep(states, run, k);
    StepGrowsHistory(states[k], run[k]);
  }

  lemma {:induction false} HistoryBetween(states: seq<State>, run: seq<Step>, k: nat, l: nat)
    requires Trace(states, run) && k <= l <= |run|
    ensures states[k].archive.history <= states[l].archive.history
    decreases l
  {
    if l == k {
    } else {
      HistoryBetween(states, run, k, l - 1);
      OneStepGrowsHistory(states, run, l - 1);
    }
  }

  lemma ArchivedIn(states: seq<State>, run: seq<Step>, k: nat, i: nat)
    requires Trace(states, run) && SettledIn(states, k, i)
    ensures states[k + 1].archive.history == states[k].archive.history + [EntryOf(i, states[k + 1].requests[i])]
  {
    TraceStep(states, run, k);
    StepArchives(states[k], run[k], i);
  }

  /** The order of the archive is that of the settlements: each one comes after all that were settled before it. */
  lemma SettlementIsLast(states: seq<State>, run: seq<Step>, k: nat, i: nat)
    requires Trace(states, run) && SettledIn(states, k, i)
    ensures states[k + 1].archive.history == states[k].archive.history + [EntryOf(i, states[k + 1].requests[i])]
    ensures states[k + 1].archive.history <= states[|run|].archive.history
  {
    ArchivedIn(states, run, k, i);
    HistoryBetween(states, run, k + 1, |run|);
  }

  lemma RetainedEntry(s: State, h: seq<Entry>, i: nat, e: Entry)
    requires Inv(s) && h <= s.archive.history && e in h && e.id == i && i in s.archive.entries
    ensures s.archive.entries[i] == e && EntryOk(s.requests, e)
  {
    EntryFromHistory(s.archive, i);
    HistoryNames(h, s.archive.history, e, s.archive.entries[i]);
  }

  lemma ArchivedThen(states: seq<State>, run: seq<Step>, k: nat, i: nat)
    requires Trace(states, run) && SettledIn(states, k, i) && i in states[|run|].archive.entries
    ensures states[|run|].archive.entries[i] == EntryOf(i, states[k + 1].requests[i])
    ensures EntryOk(states[|run|].requests, states[|run|].archive.entries[i])
  {
    var h, e := states[k + 1].archive.history, EntryOf(i, states[k + 1].requests[i]);
    SettlementIsLast(states, run, k, i);
    assert h[|h| - 1] == e;
    TraceInv(states, run, |run|);
    RetainedEntry(states[|run|], h, i, e);
  }

  /** The entry shows that request, with that sign and that progress. */
  predicate Tells(e: Entry, i: nat, r: Request, status: Status, stage: string, progress: Option<Move>)
    requires progress.Some? ==> progress.value.ProgressCall?
  {
    && e.id == i && e.kind == r.command.kind && e.status == status && e.stage == stage
    && e.actor == (match r.actor case Ui => UiView case Mcp(_, clientId) => McpView(clientId))
    && e.message == (if progress.Some? then progress.value.message else None)
    && e.percent == (if progress.Some? then progress.value.percent else None)
  }

  function StatusOf(outcome: Outcome): Status {
    match outcome
    case Resolved(_) => Succeeded
    case Rejected(code) => if code == CancelledError then Cancelled else Failed
  }

  lemma RetainedIsSettled(s: State, i: nat)
    requires Inv(s) && i in s.archive.entries
    ensures IsSettled(s, i)
  {
    EntryFromHistory(s.archive, i);
  }

  lemma EntryTells(e: Entry, i: nat, t: Request, r: Request, sign: Sign, progress: Option<Move>)
    requires e == EntryOf(i, t) && Keeps(t, r) && r.Settled() && StatusMatches(e.status, r.outcome.value)
    requires (progress.Some? ==> progress.value.ProgressCall?) && IsShown(t, sign, progress)
    ensures Tells(e, i, r, StatusOf(r.outcome.value), sign.stage, progress)
  {
  }

  lemma SettledTells(states: seq<State>, run: seq<Step>, k: nat, i: nat)
    requires Trace(states, run) && SettledIn(states, k, i) && i in states[|run|].archive.entries
    ensures IsSettled(states[|run|], i)
    ensures var r := states[|run|].requests[i];
            Tells(states[|run|].archive.entries[i], i, r, StatusOf(r.outcome.value),
                  LastSign(states, run, k + 1, i).stage, LastProgress(states, run, k + 1, i))
  {
    ArchivedThen(states, run, k, i);
    ShownBefore(states, run, k + 1, i);
    BetweenKeeps(states, run, k + 1, |run|, i);
    EntryTells(states[|run|].archive.entries[i], i, states[k + 1].requests[i], states[|run|].requests[i],
               LastSign(states, run, k + 1, i), LastProgress(states, run, k + 1, i));
  }

  /**
   What the archive shows of a request, for ever: the status of its outcome, and stage, message and percentage as the
   steps up to the one that settled it had last put them up.
   */
  lemma ArchiveTells(states: seq<State>, run: seq<Step>, i: nat) returns (k: nat)
    requires Trace(states, run) && i in states[|run|].archive.entries
    ensures k < |run| && SettledIn(states, k, i) && IsSettled(states[|run|], i)
    ensures var r := states[|run|].requests[i];
            Tells(states[|run|].archive.entries[i], i, r, StatusOf(r.outcome.value),
                  LastSign(states, run, k + 1, i).stage, LastProgress(states, run, k + 1, i))
  {
    TraceInv(states, run, |run|);
    RetainedIsSettled(states[|run|], i);
    k := SettlingStep(states, run, |run|, i);
    SettledTells(states, run, k, i);
  }

  /**
   `snapshot()` lists the retained settlements in the order they happened, and after them the live requests in the order
   of their submission, each with the status, stage, message and percentage that its steps have last put up.
   */
  lemma SnapshotTells(states: seq<State>, run: seq<Step>) returns (live: seq<Entry>)
    requires Trace(states, run)
    ensures SnapshotOf(states[|run|]) == Window(states[|run|].archive.history) + live
    ensures forall a, b | 0 <= a < b < |live| :: live[a].id < live[b].id
    ensures forall i: nat :: InHistory(live, i) <==> i in states[|run|].live
    ensures forall a | 0 <= a < |live| ::
              var i := live[a].id;
              && i < |states[|run|].requests|
              && Tells(live[a], i, states[|run|].requests[i], LastSign(states, run, |run|, i).status,
                       LastSign(states, run, |run|, i).stage, LastProgress(states, run, |run|, i))
  {
    var u := states[|run|];
    TraceInv(states, run, |run|);
    live := LiveEntries(u.requests, u.live, 0);
    LiveEntriesListed(u.requests, u.live, 0);
    RetainedIsWindow(u.archive.entries, u.archive.order, Window(u.archive.history));
    forall a | 0 <= a < |live|
      ensures Tells(live[a], live[a].id, u.requests[live[a].id], LastSign(states, run, |run|, live[a].id).status,
                    LastSign(states, run, |run|, live[a].id).stage, LastProgress(states, run, |run|, live[a].id))
    {
      ShownBefore(states, run, |run|, live[a].id);
    }
  }
}
