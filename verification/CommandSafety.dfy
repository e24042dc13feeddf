/** The archive and the snapshot, and confirmed overwriting, over every run. */
module CommandSafety {
  import opened Common
  import opened CommandProtocol
  import opened CommandInvariant
  import opened CommandQueue
  import opened CommandArchive
  import opened CommandKeys
  import opened CommandLog
  import opened CommandRuns
  import CommandTheorems

  // ---------------------------------------------------------------- archive and snapshot

  /** The archive is exactly the last min(32, n) settlements in order, disjoint from the live map. */
  lemma ArchiveIsTheRecentPast(s: State)
    requires Reachable(s)
    ensures Distinct(s.archive.history)
    ensures forall i: nat :: InHistory(s.archive.history, i) <==> i < |s.requests| && s.requests[i].Settled()
    ensures forall i: nat :: i in s.live <==> i < |s.requests| && !s.requests[i].Settled()
    ensures |s.archive.order| == Min(32, |s.archive.history|)
    ensures Holds(s.archive.order, s.archive.entries, Window(s.archive.history))
    ensures s.archive.entries.Keys !! s.live
    ensures forall i | i in s.archive.entries ::
              s.archive.entries[i].id == i && i < |s.requests| && s.requests[i].Settled()
              && StatusMatches(s.archive.entries[i].status, s.requests[i].outcome.value)
  {
    ReachableInv(s);
    var h := s.archive.history;
    forall i | i in s.archive.entries
      ensures s.archive.entries[i].id == i && EntryOk(s.requests, s.archive.entries[i])
    {
      EntryFromHistory(s.archive, i);
    }
    forall i: nat | InHistory(h, i) ensures i < |s.requests| && s.requests[i].Settled() {
      var k :| 0 <= k < |h| && h[k].id == i;
      assert EntryOk(s.requests, h[k]);
    }
  }

  lemma OtherId(h: seq<Entry>)
    requires Distinct(h) && |h| > 1
    ensures exists l :: 0 <= l < |h| && h[l].id != 0
  {
    assert h[0].id != h[1].id;
  }

  /** The only settled request of a runtime is retained, with the status it settled in. */
  lemma OnlyRequestIsRetained(s: State)
    requires Reachable(s) && |s.requests| == 1 && s.requests[0].Settled()
    ensures 0 in s.archive.entries && StatusMatches(s.archive.entries[0].status, s.requests[0].outcome.value)
  {
    ArchiveIsTheRecentPast(s);
    var h := s.archive.history;
    assert InHistory(h, 0);
    var k :| 0 <= k < |h| && h[k].id == 0;
    forall l | 0 <= l < |h| ensures h[l].id == 0 { assert InHistory(h, h[l].id); }
    if |h| > 1 { OtherId(h); }
    assert Window(h) == h;
  }

  lemma OneConfirmed() returns (s: State)
    ensures Reachable(s) && |s.requests| == 1 && s.requests[0].point == AtConfirmation
            && s.requests[0].confirmation == Some(true)
    ensures !s.requests[0].Settled() && s.requests[0].status == AwaitingConfirmation && !s.requests[0].committed
    ensures s.requests[0].command.expected.None?
  {
    s := CommandTheorems.OneSubmitted(false, Owner(None, None));
    s := CommandTheorems.ReachableAct(s, 0, PolicySettles(Decided(Decision(true, true, None))));
    s := CommandTheorems.ReachableAct(s, 0, Begin);
    s := CommandTheorems.ReachableAct(s, 0, PolicyContinues(Answer));
    s := CommandTheorems.ReachableAct(s, 0, ConfirmCall(true));
  }

  /**
   How a request goes on that was cancelled while it waited for its confirmation. Its run ends before the handler, with
   the promise as it is. Its status is overwritten with "running" if and only if it had been confirmed and the race
   answers with that; otherwise it stays "cancelled".
   */
  lemma CancelledWhileWaiting(s: State, i: nat, branch: Branch)
    requires Reachable(s) && i < |s.requests| && s.requests[i].Settled() && s.requests[i].point == AtConfirmation
    requires Enabled(s, Act(i, ConfirmationContinues(branch)))
    ensures i < |Apply(s, Act(i, ConfirmationContinues(branch))).requests|
    ensures var r, next := s.requests[i], Apply(s, Act(i, ConfirmationContinues(branch))).requests[i];
            && next.point == Ended && !next.entered && next.outcome == r.outcome == Some(Rejected(CancelledError))
            && (next.status == Running <==> branch == Answer && r.confirmation == Some(true))
            && (next.status != Running ==> next.status == Cancelled)
  {
    ReachableInv(s);
    StepMoves(s, Act(i, ConfirmationContinues(branch)), i);
    CancelledGoesOn(s.requests[i], i, branch, s.world);
  }

  lemma EnterCancelled(r: Request, granted: bool, w: World)
    requires r.Settled() && AbortHeeded(r)
    ensures Enter(r, granted, w) == Runs(r).(point := Ended)
  {}

  lemma CancelledGoesOn(r: Request, i: nat, branch: Branch, w: World)
    requires RequestInv(r) && r.Settled() && r.point == AtConfirmation && CanMove(r, ConfirmationContinues(branch))
    ensures var next := Moved(r, i, ConfirmationContinues(branch), w);
            && next.point == Ended && !next.entered && next.outcome == r.outcome == Some(Rejected(CancelledError))
            && next.status == if branch == Answer && r.confirmation == Some(true) then Running else Cancelled
  {
    if branch == Cancellation {
    } else if r.confirmation.value {
      EnterCancelled(r, true, w);
    } else {}
  }

  /**
   A run in which `confirm(true)` and then `cancel` both answer true before the request goes on. The request object ends
   with the status "running", but its handler was never entered, and what is archived says that it was cancelled.
   */
  lemma CancelAfterConfirm() returns (s: State)
    ensures Reachable(s) && |s.requests| == 1
    ensures s.requests[0].outcome == Some(Rejected(CancelledError)) && s.requests[0].status == Running
            && !s.requests[0].entered
    ensures 0 in s.archive.entries && s.archive.entries[0].status == Cancelled
  {
    s := OneConfirmed();
    ReachableInv(s);
    assert RequestInv(s.requests[0]);
    s := CommandTheorems.ReachableAct(s, 0, CancelCall);
    s := CommandTheorems.ReachableAct(s, 0, ConfirmationContinues(Answer));
    OnlyRequestIsRetained(s);
  }

  lemma PutGrowsHistory(s: State, i: nat, next: Request)
    requires QueueInv(s) && i < |s.requests| && Evolves(s.requests[i], next)
    ensures s.archive.history <= Put(s, i, next).archive.history
  {
    if !s.requests[i].Settled() && next.Settled() {
      HistoryGrown(s.requests, s.archive.history, i, next);
      ArchivedKeeps(s.archive, EntryOf(i, next));
    }
  }

  lemma ActGrowsHistory(s: State, i: nat, m: Move)
    requires QueueInv(s) && i < |s.requests| && CanMove(s.requests[i], m)
    ensures s.archive.history <= Acted(s, i, m).archive.history
  {
    var next := Moved(s.requests[i], i, m, s.world);
    MoveKeepsRequestInv(s.requests[i], i, m, s.world);
    InstalledParts(s, i, m, next, Events(s.requests[i], i, m, s.world));
    PutGrowsHistory(s, i, next);
  }

  lemma AdmittedGrowsHistory(s: State, c: Command, actor: Actor)
    requires QueueInv(s) && c.kind in s.handlers
    ensures s.archive.history <= Acted(Admitted(s, c, actor), |s.requests|, CancelCall).archive.history
  {
    var t := Admitted(s, c, actor);
    AdmitKeepsQueueInv(s, c, actor);
    ActGrowsHistory(t, |s.requests|, CancelCall);
  }

  lemma StepGrowsHistory(s: State, step: Step)
    requires Inv(s) && Enabled(s, step)
    ensures s.archive.history <= Apply(s, step).archive.history
  {
    match step
    case Act(i, m) => ActGrowsHistory(s, i, m);
    case Submit(c, actor, signalAborted) =>
      if TicketFor(s, c, actor).Fresh? { AdmittedGrowsHistory(s, c, actor); }
    case _ =>
  }

  lemma {:induction false} RunGrowsHistory(s: State, run: seq<Step>)
    requires Inv(s) && Legal(s, run)
    ensures s.archive.history <= After(s, run).archive.history
    decreases |run|
  {
    if run == [] {
    } else {
      StepGrowsHistory(s, run[0]);
      StepKeepsInv(s, run[0]);
      RunGrowsHistory(Apply(s, run[0]), run[1..]);
    }
  }

  lemma HistoryNames(h: seq<Entry>, g: seq<Entry>, e: Entry, f: Entry)
    requires h <= g && Distinct(g) && e in h && f in g && f.id == e.id
    ensures f == e
  {
    var k :| 0 <= k < |h| && h[k] == e;
    var l :| 0 <= l < |g| && g[l] == f;
    assert g[k] == e;
  }

  /** No late progress, commit or confirmation alters an archived entry: while it is retained, it stays as it was. */
  lemma ArchivedEntriesAreFrozen(s: State, later: seq<Step>, i: nat)
    requires Reachable(s) && Legal(s, later) && i in s.archive.entries && i in After(s, later).archive.entries
    ensures After(s, later).archive.entries[i] == s.archive.entries[i]
  {
    ReachableInv(s);
    RunKeepsInv(s, later);
    RunGrowsHistory(s, later);
    var u := After(s, later);
    EntryFromHistory(s.archive, i);
    EntryFromHistory(u.archive, i);
    HistoryNames(s.archive.history, u.archive.history, s.archive.entries[i], u.archive.entries[i]);
  }

  lemma InWindow(h: seq<Entry>, k: nat)
    requires k < |Window(h)|
    ensures Window(h)[k] in h
  {
    assert Window(h)[k] == h[|h| - |Window(h)| + k];
  }

  lemma EntryFromHistory(a: Archive, i: nat)
    requires ArchiveInv(a) && i in a.entries
    ensures a.entries[i] in a.history && a.entries[i].id == i
  {
    var w := Window(a.history);
    assert InHistory(w, i);
    var k :| 0 <= k < |w| && w[k].id == i;
    assert a.entries[w[k].id] == w[k];
    InWindow(a.history, k);
  }

  lemma {:induction false} RetainedIsWindow(entries: map<nat, Entry>, order: seq<nat>, w: seq<Entry>)
    requires |order| == |w|
    requires forall k | 0 <= k < |w| :: order[k] == w[k].id && w[k].id in entries && entries[w[k].id] == w[k]
    ensures RetainedEntries(entries, order) == w
  {
    if w == [] {
    } else {
      RetainedIsWindow(entries, order[1..], w[1..]);
      assert w == [w[0]] + w[1..];
    }
  }

  /** The listed entries are those of the given requests, in ascending order. */
  ghost predicate Listing(rs: seq<Request>, live: set<nat>, k: nat, v: seq<Entry>) {
    && (forall a | 0 <= a < |v| :: k <= v[a].id < |rs| && v[a].id in live && v[a] == EntryOf(v[a].id, rs[v[a].id]))
    && (forall a, b | 0 <= a < b < |v| :: v[a].id < v[b].id)
    && (forall i: nat | k <= i < |rs| && i in live :: InHistory(v, i))
  }

  lemma ListingGrows(rs: seq<Request>, live: set<nat>, k: nat, u: seq<Entry>)
    requires k < |rs| && k in live && Listing(rs, live, k + 1, u)
    ensures Listing(rs, live, k, [EntryOf(k, rs[k])] + u)
  {
    var v := [EntryOf(k, rs[k])] + u;
    assert v[0].id == k;
    forall i: nat | k < i < |rs| && i in live ensures InHistory(v, i) {
      var a :| 0 <= a < |u| && u[a].id == i;
      assert v[a + 1].id == i;
    }
  }

  lemma {:induction false} LiveEntriesListed(rs: seq<Request>, live: set<nat>, k: nat)
    requires k <= |rs|
    ensures Listing(rs, live, k, LiveEntries(rs, live, k))
    decreases |rs| - k
  {
    if k == |rs| {
    } else {
      LiveEntriesListed(rs, live, k + 1);
      if k in live { ListingGrows(rs, live, k, LiveEntries(rs, live, k + 1)); }
    }
  }

  lemma InBoth(w: seq<Entry>, v: seq<Entry>, i: nat)
    ensures InHistory(w + v, i) <==> InHistory(w, i) || InHistory(v, i)
  {
    var u := w + v;
    if InHistory(w, i) {
      var k :| 0 <= k < |w| && w[k].id == i;
      assert u[k].id == i;
    } else if InHistory(v, i) {
      var k :| 0 <= k < |v| && v[k].id == i;
      assert u[|w| + k].id == i;
    }
  }

  lemma JoinedAreDistinct(w: seq<Entry>, v: seq<Entry>)
    requires Distinct(w) && Distinct(v) && forall k, l | 0 <= k < |w| && 0 <= l < |v| :: w[k].id != v[l].id
    ensures Distinct(w + v)
  {}

  lemma WindowIds(a: Archive)
    requires ArchiveInv(a) && Distinct(a.history)
    ensures Distinct(Window(a.history))
    ensures forall i: nat :: InHistory(Window(a.history), i) <==> i in a.entries
  {
    var h, w := a.history, Window(a.history);
    assert forall k | 0 <= k < |w| :: w[k] == h[|h| - |w| + k];
    forall i: nat | InHistory(w, i) ensures i in a.entries {
      var k :| 0 <= k < |w| && w[k].id == i;
    }
  }

  /** `snapshot()` lists every live or retained request, each exactly once. */
  lemma SnapshotListsEachOnce(s: State)
    requires Reachable(s)
    ensures Distinct(SnapshotOf(s))
    ensures forall i: nat :: InHistory(SnapshotOf(s), i) <==> i in s.live || i in s.archive.entries
  {
    ReachableInv(s);
    ArchiveIsTheRecentPast(s);
    WindowIds(s.archive);
    var w, v := Window(s.archive.history), LiveEntries(s.requests, s.live, 0);
    RetainedIsWindow(s.archive.entries, s.archive.order, w);
    LiveEntriesListed(s.requests, s.live, 0);
    assert forall k | 0 <= k < |w| :: InHistory(w, w[k].id);
    JoinedAreDistinct(w, v);
    forall i: nat ensures InHistory(w + v, i) <==> i in s.live || i in s.archive.entries {
      InBoth(w, v, i);
    }
  }

  // ---------------------------------------------------------------- the history

  /** Every commit is in the log, so the fence misses none. */
  lemma CommitsAreLogged(s: State, i: nat)
    requires Reachable(s) && i < |s.requests|
    ensures s.requests[i].committed ==> WasCommitted(s.log, i)
    ensures WasSubmitted(s.log, i)
  {
    ReachableInv(s);
    assert Logged(s.log, s.requests[i], i);
  }

  // ---------------------------------------------------------------- confirmed overwriting

  /** Some step of the run was a call `confirm(i, allow)` that answered true. */
  ghost predicate WasConfirmed(s: State, run: seq<Step>, i: nat, allow: bool)
    requires Legal(s, run)
    decreases |run|
  {
    && run != []
    && ((run[0] == Act(i, ConfirmCall(allow)) && ConfirmAnswer(s.requests[i]))
        || WasConfirmed(Apply(s, run[0]), run[1..], i, allow))
  }

  lemma MoveConfirms(r: Request, i: nat, m: Move, w: World)
    requires RequestInv(r) && CanMove(r, m)
    ensures Moved(r, i, m, w).confirmation ==
              if m.ConfirmCall? && ConfirmAnswer(r) && r.confirmation.None? then Some(m.allow) else r.confirmation
  {
    MoveKeepsRequestInv(r, i, m, w);
  }

  /** A step after which request i is newly confirmed is an accepted call of `confirm`. */
  lemma StepConfirms(s: State, step: Step, i: nat)
    requires Inv(s) && Enabled(s, step) && i < |Apply(s, step).requests|
    requires i < |s.requests| ==> s.requests[i].confirmation.None?
    requires Apply(s, step).requests[i].confirmation.Some?
    ensures step == Act(i, ConfirmCall(Apply(s, step).requests[i].confirmation.value)) && ConfirmAnswer(s.requests[i])
  {
    if i < |s.requests| {
      StepMoves(s, step, i);
      if step.Act? && step.id == i { MoveConfirms(s.requests[i], i, step.move, s.world); }
    } else {
      StepAdds(s, step, i);
    }
  }

  /** A call of `confirm` on a request that has its answer changes nothing at all. */
  lemma AnsweredIsUnchanged(s: State, i: nat, allow: bool)
    requires i < |s.requests| && s.requests[i].confirmation.Some?
    ensures Acted(s, i, ConfirmCall(allow)) == s
  {
    var r := s.requests[i];
    assert Moved(r, i, ConfirmCall(allow), s.world) == r && Events(r, i, ConfirmCall(allow), s.world) == [];
    assert s.requests[i := r] == s.requests && s.log + [] == s.log;
  }

  /**
   The first call of `confirm` that is accepted decides for the rest of every run. Later ones are accepted as well while
   the request still waits, and leave the whole state as it is.
   */
  lemma ConfirmDecidesOnce(s: State, i: nat, allow: bool, later: seq<Step>, again: bool)
    requires Reachable(s) && i < |s.requests| && ConfirmAnswer(s.requests[i]) && s.requests[i].confirmation.None?
    requires Legal(Apply(s, Act(i, ConfirmCall(allow))), later)
    ensures var u := After(Apply(s, Act(i, ConfirmCall(allow))), later);
            && i < |u.requests| && u.requests[i].confirmation == Some(allow)
            && Apply(u, Act(i, ConfirmCall(again))) == u
    ensures ConfirmAnswer(Next(s, Act(i, ConfirmCall(allow)), i))
  {
    ReachableInv(s);
    var step := Act(i, ConfirmCall(allow));
    StepMoves(s, step, i);
    StepKeepsInv(s, step);
    MoveConfirms(s.requests[i], i, ConfirmCall(allow), s.world);
    RunKeepsRequests(Apply(s, step), later, i);
    AnsweredIsUnchanged(After(Apply(s, step), later), i, again);
  }

  /** A confirmation that a run received was given by an accepted call of `confirm` in that run. */
  lemma {:induction false} ConfirmationHasACall(s: State, run: seq<Step>, i: nat)
    requires Inv(s) && Legal(s, run) && i < |After(s, run).requests| && After(s, run).requests[i].confirmation.Some?
    requires i < |s.requests| ==> s.requests[i].confirmation.None?
    ensures WasConfirmed(s, run, i, After(s, run).requests[i].confirmation.value)
    decreases |run|
  {
    var t := Apply(s, run[0]);
    StepKeepsInv(s, run[0]);
    if i < |t.requests| && t.requests[i].confirmation.Some? {
      StepConfirms(s, run[0], i);
      RunKeepsRequests(t, run[1..], i);
    } else {
      ConfirmationHasACall(t, run[1..], i);
    }
  }

  /** An accepted call of `confirm` leaves a confirmation behind. */
  lemma {:induction false} CallLeavesAConfirmation(s: State, run: seq<Step>, i: nat, allow: bool)
    requires Inv(s) && Legal(s, run) && WasConfirmed(s, run, i, allow)
    ensures i < |After(s, run).requests| && After(s, run).requests[i].confirmation.Some?
    decreases |run|
  {
    var t := Apply(s, run[0]);
    StepKeepsInv(s, run[0]);
    if run[0] == Act(i, ConfirmCall(allow)) && ConfirmAnswer(s.requests[i]) {
      StepMoves(s, run[0], i);
      MoveConfirms(s.requests[i], i, run[0].move, s.world);
      RunKeepsRequests(t, run[1..], i);
    } else {
      CallLeavesAConfirmation(t, run[1..], i, allow);
    }
  }

  lemma ExportedGrant(s: State, i: nat, found: bool, confirmed: bool)
    requires Inv(s) && Exported(i, found, confirmed) in s.log
    ensures i < |s.requests| && s.requests[i].command.kind == CSV_EXPORT
    ensures confirmed <==> s.requests[i].confirmation == Some(true)
    ensures s.requests[i].confirmation.Some? ==> confirmed
    ensures found ==> confirmed
  {
    var k :| 0 <= k < |s.log| && s.log[k] == Exported(i, found, confirmed);
    assert EventOk(s.requests[i], s.cfg.hasGuard, s.log[k]);
    assert RequestInv(s.requests[i]);
  }

  /**
   A CSV export overwrites an existing target only after `confirm(id, true)` was accepted for it, even when the
   file appeared after the policy looked; the export is told "confirmed" exactly when that call was accepted.
   */
  lemma OverwriteWasConfirmed(cfg: Config, owner: Owner, run: seq<Step>, i: nat, found: bool, confirmed: bool)
    requires Legal(Init(cfg, owner), run) && Exported(i, found, confirmed) in After(Init(cfg, owner), run).log
    ensures i < |After(Init(cfg, owner), run).requests|
            && After(Init(cfg, owner), run).requests[i].command.kind == CSV_EXPORT
    ensures found ==> confirmed
    ensures confirmed <==> WasConfirmed(Init(cfg, owner), run, i, true)
  {
    var s := Init(cfg, owner);
    InitInv(cfg, owner);
    RunKeepsInv(s, run);
    ExportedGrant(After(s, run), i, found, confirmed);
    if confirmed { ConfirmationHasACall(s, run, i); }
    if WasConfirmed(s, run, i, true) { CallLeavesAConfirmation(s, run, i, true); }
  }

  /** A CSV export command that succeeded has been exported, so the theorem above speaks about all of them. */
  lemma SuccessfulExportsAreLogged(s: State, i: nat)
    requires Reachable(s) && i < |s.requests| && s.requests[i].command.kind == CSV_EXPORT && HasSucceeded(s.requests[i])
    ensures WasExported(s.log, i)
  {
    ReachableInv(s);
    assert RequestInv(s.requests[i]) && Logged(s.log, s.requests[i], i);
  }
}
