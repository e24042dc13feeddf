/** The owner fence: a guarded mutation works only in the project it was submitted in. */
module CommandFence {
  import opened Common
  import opened CommandProtocol
  import opened CommandInvariant
  import opened CommandLog
  import opened CommandRuns
  import opened CommandReports
  import opened CommandSignals
  import CommandCommit
  import CommandTheorems

  /** The guard of a mutation is the owner at its submission. */
  lemma GuardIsSubmitter(s: State, i: nat, submitted: Owner)
    requires Inv(s) && s.cfg.hasGuard && i < |s.requests| && s.requests[i].mode == Mutation
    requires Submitted(i, submitted) in s.log
    ensures s.requests[i].guard == Some(submitted)
  {
    var k :| 0 <= k < |s.log| && s.log[k] == Submitted(i, submitted);
    assert EventOk(s.requests[i], s.cfg.hasGuard, s.log[k]);
  }

  /**
   A guarded mutation enters its handler, and begins a commit, only under the persistence owner it was submitted under,
   and, if there was none, only in the project it was submitted in.
   */
  lemma OwnerFence(s: State, i: nat, submitted: Owner, current: Owner)
    requires Reachable(s) && s.cfg.hasGuard && i < |s.requests| && s.requests[i].mode == Mutation
    requires Submitted(i, submitted) in s.log
    requires HandlerEntered(i, current) in s.log || CommitBegan(i, current) in s.log
    ensures current.persistence == submitted.persistence
    ensures submitted.persistence.None? ==> current.project == submitted.project
  {
    ReachableInv(s);
    GuardIsSubmitter(s, i, submitted);
    var l :| 0 <= l < |s.log| && (s.log[l] == HandlerEntered(i, current) || s.log[l] == CommitBegan(i, current));
    assert EventOk(s.requests[i], s.cfg.hasGuard, s.log[l]);
  }

  /** The fence lets everything else pass: by itself it refuses an entry or a commit only when one of these differs. */
  lemma FenceLetsPass(s: State, i: nat, submitted: Owner, m: Move)
    requires Reachable(s) && s.cfg.hasGuard && i < |s.requests| && s.requests[i].mode == Mutation
    requires Submitted(i, submitted) in s.log && Enabled(s, Act(i, m))
    ensures i < |Apply(s, Act(i, m)).requests|
    ensures var r, next := s.requests[i], Apply(s, Act(i, m)).requests[i];
            var same := s.world.owner.persistence == submitted.persistence
                        && (submitted.persistence.None? ==> s.world.owner.project == submitted.project);
            && (Proceeds(r, m) && !r.Settled() && !RevisionMoved(r, s.world.revision) ==> (next.entered <==> same))
            && (m == CommitCall && !r.committed && !GaveUp(r) ==> (next.committed <==> same))
  {
    ReachableInv(s);
    GuardIsSubmitter(s, i, submitted);
    StepMoves(s, Act(i, m), i);
    MoveSetsFlags(s.requests[i], i, m, s.world);
    assert RequestInv(s.requests[i]);
  }

  lemma IsUnguarded(s: State, i: nat)
    requires Inv(s) && i < |s.requests| && (!s.cfg.hasGuard || s.requests[i].mode == Read)
    ensures s.requests[i].guard.None?
  {
    assert Logged(s.log, s.requests[i], i);
    var owner :| Submitted(i, owner) in s.log;
    var k :| 0 <= k < |s.log| && s.log[k] == Submitted(i, owner);
    assert EventOk(s.requests[i], s.cfg.hasGuard, s.log[k]);
  }

  /** A request whose owner is not guarded is never refused for it. */
  lemma UnguardedPasses(s: State, i: nat, m: Move)
    requires Reachable(s) && i < |s.requests| && (!s.cfg.hasGuard || s.requests[i].mode == Read)
    requires Enabled(s, Act(i, m))
    ensures i < |Apply(s, Act(i, m)).requests|
    ensures var r, next := s.requests[i], Apply(s, Act(i, m)).requests[i];
            && (Proceeds(r, m) && !r.Settled() && !RevisionMoved(r, s.world.revision) ==> next.entered)
            && (m == CommitCall && !GaveUp(r) ==> next.committed)
  {
    ReachableInv(s);
    IsUnguarded(s, i);
    StepMoves(s, Act(i, m), i);
    MoveSetsFlags(s.requests[i], i, m, s.world);
  }

  /** A mutation that is ready to enter its handler under the second owner. */
  lemma ReadyUnder(before: Owner, now: Owner) returns (s: State)
    ensures Reachable(s) && s.world.owner == now && |s.requests| == 1 && s.requests[0].guard == Some(before)
    ensures CanMove(s.requests[0], PolicyContinues(Answer)) && Proceeds(s.requests[0], PolicyContinues(Answer))
    ensures !s.requests[0].Settled() && !s.requests[0].aborted && s.requests[0].command.expected.None?
  {
    s := CommandTheorems.OneSubmitted(true, before);
    s := CommandTheorems.ReachableAct(s, 0, PolicySettles(Decided(Decision(true, false, None))));
    s := CommandTheorems.ReachableAct(s, 0, Begin);
    s := CommandCommit.OwnerChanges(s, now);
  }

  lemma ActionKeeps(s: State, i: nat, m: Move)
    requires Inv(s) && Enabled(s, Act(i, m))
    ensures Keeps(s.requests[i], Moved(s.requests[i], i, m, s.world))
  {
    MoveKeepsRequestInv(s.requests[i], i, m, s.world);
  }

  /** A mutation of an unsaved project is refused once another unsaved project is open. */
  lemma OtherProjectRefused() returns (s: State)
    ensures Reachable(s) && |s.requests| == 1 && s.requests[0].guard == Some(Owner(None, Some(1)))
    ensures s.world.owner == Owner(None, Some(2))
    ensures !s.requests[0].entered && s.requests[0].outcome == Some(Rejected(CancelledError))
  {
    s := ReadyUnder(Owner(None, Some(1)), Owner(None, Some(2)));
    ReachableInv(s);
    var r := s.requests[0];
    MoveReports(r, 0, PolicyContinues(Answer), s.world, Rejected(CancelledError));
    MoveSetsFlags(r, 0, PolicyContinues(Answer), s.world);
    assert RequestInv(r);
    s := CommandTheorems.ReachableAct(s, 0, PolicyContinues(Answer));
  }

  /** In a saved project only its persistence counts: the mutation enters its handler, and commits. */
  lemma SavedProjectPasses() returns (s: State)
    ensures Reachable(s) && |s.requests| == 1 && s.requests[0].guard == Some(Owner(Some(1), Some(1)))
    ensures s.world.owner == Owner(Some(1), Some(2)) && s.requests[0].entered && s.requests[0].committed
  {
    s := ReadyUnder(Owner(Some(1), Some(1)), Owner(Some(1), Some(2)));
    ReachableInv(s);
    MoveSetsFlags(s.requests[0], 0, PolicyContinues(Answer), s.world);
    ActionKeeps(s, 0, PolicyContinues(Answer));
    s := CommandTheorems.ReachableAct(s, 0, PolicyContinues(Answer));
    ReachableInv(s);
    MoveSetsFlags(s.requests[0], 0, CommitCall, s.world);
    ActionKeeps(s, 0, CommitCall);
    s := CommandTheorems.ReachableAct(s, 0, CommitCall);
  }
}
