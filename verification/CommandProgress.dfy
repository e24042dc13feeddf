/** From every reachable state the runtime can bring every request to its end. */
module CommandProgress {
  import opened Common
  import opened CommandProtocol
  import opened CommandInvariant
  import opened CommandRuns
  import opened CommandTheorems

  ghost predicate LeadsTo(s: State, t: State) {
    exists run :: Legal(s, run) && After(s, run) == t
  }

  /** The first k requests have come to their end. */
  ghost predicate HaveEnded(s: State, k: nat) {
    k <= |s.requests| && forall i | 0 <= i < k :: s.requests[i].point == Ended
  }

  /** One more step, taken by request k. */
  lemma GoOn(start: State, s: State, k: nat, m: Move) returns (t: State)
    requires Reachable(s) && LeadsTo(start, s) && Enabled(s, Act(k, m))
    ensures Reachable(t) && LeadsTo(start, t) && t.requests == s.requests[k := Moved(s.requests[k], k, m, s.world)]
  {
    ActedRequests(s, k, m);
    t := Apply(s, Act(k, m));
    ReachableStep(s, Act(k, m));
    var run :| Legal(start, run) && After(start, run) == s;
    RunExtends(start, run, Act(k, m));
    assert After(start, run + [Act(k, m)]) == t;
  }

  /** A continuation of the first run that has not ended brings it forward. */
  lemma Continue(start: State, s: State, k: nat, m: Move) returns (t: State)
    requires Reachable(s) && LeadsTo(start, s) && Enabled(s, Act(k, m)) && IsContinuation(m)
    requires HaveEnded(s, k)
    ensures Reachable(t) && LeadsTo(start, t) && HaveEnded(t, k) && |t.requests| == |s.requests|
    ensures Rank(t.requests[k].point) > Rank(s.requests[k].point)
  {
    MoveAdvances(s.requests[k], k, m, s.world);
    t := GoOn(start, s, k, m);
  }

  /** The first run that has not ended can be brought forward, with a policy and a user that refuse if need be. */
  lemma Forward(start: State, s: State, k: nat) returns (t: State)
    requires Reachable(s) && LeadsTo(start, s) && k < |s.requests| && HaveEnded(s, k) && s.requests[k].point != Ended
    ensures Reachable(t) && LeadsTo(start, t) && HaveEnded(t, k) && |t.requests| == |s.requests|
    ensures Rank(t.requests[k].point) > Rank(s.requests[k].point)
  {
    NeverStuck(s, k);
    t := s;
    match s.requests[k].point
    case Waiting => t := Continue(start, t, k, Begin);
    case AtPolicy =>
      if s.requests[k].Settled() {
        t := Continue(start, t, k, PolicyContinues(Cancellation));
      } else {
        if s.requests[k].policy == Evaluating { t := GoOn(start, t, k, PolicySettles(PolicyFailed)); }
        t := Continue(start, t, k, PolicyContinues(Answer));
      }
    case AtConfirmation =>
      if s.requests[k].Settled() {
        t := Continue(start, t, k, ConfirmationContinues(Cancellation));
      } else {
        if s.requests[k].confirmation.None? { t := GoOn(start, t, k, ConfirmCall(false)); }
        t := Continue(start, t, k, ConfirmationContinues(Answer));
      }
    case InHandler => t := Continue(start, t, k, HandlerThrows(ForeignError));
  }

  lemma {:induction false} AllEnd(start: State, s: State, k: nat) returns (t: State)
    requires Reachable(s) && LeadsTo(start, s) && HaveEnded(s, k)
    ensures Reachable(t) && LeadsTo(start, t) && |t.requests| == |s.requests| && HaveEnded(t, |t.requests|)
    decreases |s.requests| - k, if k < |s.requests| then 4 - Rank(s.requests[k].point) else 0
  {
    if k == |s.requests| {
      t := s;
    } else if s.requests[k].point == Ended {
      t := AllEnd(start, s, k + 1);
    } else {
      t := Forward(start, s, k);
      t := AllEnd(start, t, k);
    }
  }

  /**
   No deadlock: whatever has happened, the run can be continued, without new submissions, to a state in which every
   request's own run has ended and its promise is settled.
   */
  lemma EverythingCanEnd(s: State)
    requires Reachable(s)
    ensures exists run :: Legal(s, run) && |After(s, run).requests| == |s.requests|
              && forall i | 0 <= i < |s.requests| :: After(s, run).requests[i].point == Ended
                  && After(s, run).requests[i].Settled()
  {
    assert Legal(s, []) && After(s, []) == s;
    var t := AllEnd(s, s, 0);
    var run :| Legal(s, run) && After(s, run) == t;
    ReachableInv(t);
    forall i | 0 <= i < |t.requests| ensures t.requests[i].point == Ended && t.requests[i].Settled() {
      assert RequestInv(t.requests[i]);
    }
    assert Legal(s, run) && |After(s, run).requests| == |s.requests|;
  }
}
