/** What holds in every state, and over every run, of the command runtime. */
module CommandTheorems {
  import opened Common
  import opened CommandProtocol
  import opened CommandInvariant
  import opened CommandQueue
  import opened CommandArchive
  import opened CommandKeys
  import opened CommandLog
  import opened CommandRuns

  // ---------------------------------------------------------------- the serial queue

  /** At most one live request is past the queue, and handlers never overlap. */
  lemma OneActiveRequest(s: State, i: nat, j: nat)
    requires Reachable(s) && i < |s.requests| && j < |s.requests|
    requires (i in s.live && j in s.live && s.requests[i].status != Queued && s.requests[j].status != Queued)
             || (s.requests[i].point == InHandler && s.requests[j].point == InHandler)
    ensures i == j
  {
    ReachableInv(s);
    assert RequestInv(s.requests[i]) && RequestInv(s.requests[j]);
  }

  /** Handlers are entered in strictly increasing request order, each at most once, and exactly when logged. */
  lemma HandlersEnterInOrder(s: State, k: nat, l: nat)
    requires Reachable(s) && k < l < |s.log| && s.log[k].HandlerEntered? && s.log[l].HandlerEntered?
    ensures s.log[k].id < s.log[l].id
    ensures forall i | 0 <= i < |s.requests| :: s.requests[i].entered <==> WasEntered(s.log, i)
  {
    ReachableInv(s);
    forall i | 0 <= i < |s.requests| ensures s.requests[i].entered <==> WasEntered(s.log, i) {
      assert Logged(s.log, s.requests[i], i);
      if owner :| HandlerEntered(i, owner) in s.log {
        var m :| 0 <= m < |s.log| && s.log[m] == HandlerEntered(i, owner);
        assert EventOk(s.requests[i], s.cfg.hasGuard, s.log[m]);
      }
    }
  }

  /** A request settles at most once, keeps its outcome for ever, and is settled when its run has ended. */
  lemma SettlesOnce(s: State, later: seq<Step>, i: nat)
    requires Reachable(s) && Legal(s, later) && i < |s.requests|
    ensures i < |After(s, later).requests|
    ensures s.requests[i].Settled() ==> After(s, later).requests[i].outcome == s.requests[i].outcome
    ensures After(s, later).requests[i].point == Ended ==> After(s, later).requests[i].Settled()
  {
    ReachableInv(s);
    RunKeepsRequests(s, later, i);
    RunKeepsInv(s, later);
    assert RequestInv(After(s, later).requests[i]);
  }

  /**
   No request is ever stuck: while some run has not ended, the first such run can continue by itself, or it
   waits for the policy, for `confirm`, or for its handler, and then `confirm` and `cancel` take effect.
   Every continuation moves its run forward, so each run has at most four of them.
   */
  lemma NeverStuck(s: State, i: nat)
    requires Reachable(s) && i < |s.requests| && s.requests[i].point != Ended
    requires forall j | 0 <= j < i :: s.requests[j].point == Ended
    ensures match s.requests[i].point
            case Waiting => Enabled(s, Act(i, Begin))
            case AtPolicy =>
              if s.requests[i].Settled() then Enabled(s, Act(i, PolicyContinues(Cancellation)))
              else
                && CancelAnswer(s.requests[i])
                && (s.requests[i].policy != Evaluating ==> Enabled(s, Act(i, PolicyContinues(Answer))))
            case AtConfirmation =>
              if s.requests[i].Settled() then Enabled(s, Act(i, ConfirmationContinues(Cancellation)))
              else
                && CancelAnswer(s.requests[i]) && ConfirmAnswer(s.requests[i])
                && (s.requests[i].confirmation.Some? ==> Enabled(s, Act(i, ConfirmationContinues(Answer))))
            case InHandler =>
              && Enabled(s, Act(i, HandlerThrows(ForeignError)))
              && (CancelAnswer(s.requests[i]) <==> !s.requests[i].committed)
            case Ended => false
  {
    ReachableInv(s);
    assert RequestInv(s.requests[i]);
    assert s.requests[i].waitsOn == if i == 0 then None else Some(i - 1);
  }

  lemma ContinuationsAdvance(s: State, i: nat, m: Move)
    requires Reachable(s) && Enabled(s, Act(i, m))
    requires IsContinuation(m)
    ensures i < |Apply(s, Act(i, m)).requests|
    ensures Rank(s.requests[i].point) < Rank(Apply(s, Act(i, m)).requests[i].point) <= 4
  {
    MoveAdvances(s.requests[i], i, m, s.world);
    ActedRequests(s, i, m);
  }

  // ---------------------------------------------------------------- cancel and commit

  /**
   Once `cancel` has answered true, the request never commits, never succeeds and never moves the revision,
   whatever happens next; a handler that had not been entered is never entered, even after `confirm(true)`.
   */
  lemma CancelIsFinal(s: State, i: nat, later: seq<Step>)
    requires Reachable(s) && i < |s.requests| && CancelAnswer(s.requests[i])
    requires Legal(Apply(s, Act(i, CancelCall)), later)
    ensures i < |After(Apply(s, Act(i, CancelCall)), later).requests|
    ensures var r := After(Apply(s, Act(i, CancelCall)), later).requests[i];
            && !r.committed && !HasSucceeded(r) && !r.bumped
            && (!s.requests[i].entered ==> !r.entered)
            && (r.point == Ended ==> r.outcome.Some? && r.outcome.value.Rejected?)
  {
    ReachableInv(s);
    var t := Apply(s, Act(i, CancelCall));
    ActKeepsInv(s, i, CancelCall);
    ActedRequests(s, i, CancelCall);
    CancelAborts(s.requests[i], i, s.world);
    RunKeepsRequests(t, later, i);
    RunKeepsInv(t, later);
    assert RequestInv(After(t, later).requests[i]);
  }

  /** Once `beginCommit` has succeeded, `cancel` answers false for ever and aborts nothing. */
  lemma CommitIsFinal(s: State, i: nat, later: seq<Step>)
    requires Reachable(s) && i < |s.requests| && s.requests[i].committed && Legal(s, later)
    ensures i < |After(s, later).requests|
    ensures var r := After(s, later).requests[i];
            r.committed && !CancelAnswer(r) && r.aborted == s.requests[i].aborted
  {
    ReachableInv(s);
    RunKeepsRequests(s, later, i);
  }

  /** What the handler of a committed request does decides its status. */
  lemma CommittedSettlesAs(s: State, i: nat, m: Move)
    requires Reachable(s) && Enabled(s, Act(i, m)) && s.requests[i].committed
    requires m.HandlerReturns? || m.HandlerThrows?
    ensures i < |Apply(s, Act(i, m)).requests|
    ensures Apply(s, Act(i, m)).requests[i].status ==
              if m.HandlerReturns? then Succeeded
              else if m.thrown == CommandError(CancelledError) then Cancelled else Failed
  {
    ReachableInv(s);
    assert PointInv(s.requests[i]);
    CommittedEnds(s.requests[i], i, m, s.world);
    ActedRequests(s, i, m);
  }

  lemma ReachableAct(s: State, i: nat, m: Move) returns (t: State)
    requires Reachable(s) && Enabled(s, Act(i, m)) && !m.HandlerReturns?
    ensures Reachable(t) && t.requests == s.requests[i := Moved(s.requests[i], i, m, s.world)]
    ensures t.world == s.world && t.cfg == s.cfg
  {
    t := Apply(s, Act(i, m));
    ReachableStep(s, Act(i, m));
    ReachableInv(s);
    OnlyReturnBumps(s.requests[i], i, m, s.world);
    InstalledParts(s, i, m, Moved(s.requests[i], i, m, s.world), Events(s.requests[i], i, m, s.world));
  }

  /** A runtime with one mutation, submitted while that owner was current. */
  lemma OneSubmitted(hasGuard: bool, owner: Owner) returns (s: State)
    ensures Reachable(s) && s.world.owner == owner && s.cfg == Config(0, false, hasGuard)
    ensures |s.requests| == 1 && JustSubmitted(s.requests[0]) && s.requests[0].status == Queued
            && !s.requests[0].Settled()
    ensures !s.requests[0].aborted && s.requests[0].waitsOn.None? && s.requests[0].command.expected.None?
    ensures s.requests[0].guard == if hasGuard then Some(owner) else None
  {
    var c := Command("table.create", map[], None, None);
    s := Init(Config(0, false, hasGuard), owner);
    ReachableInit(s.cfg, owner);
    ReachableStep(s, Register(c.kind, Mutation));
    s := Apply(s, Register(c.kind, Mutation));
    ReachableStep(s, Submit(c, Ui, false));
    s := Apply(s, Submit(c, Ui, false));
  }

  // ---------------------------------------------------------------- idempotency

  /** Of the requests with one key at most one succeeds, and at most one is unsettled at any time. */
  lemma OneRequestPerKey(s: State, i: nat, j: nat)
    requires Reachable(s) && i < j < |s.requests| && s.requests[i].key.Some? && s.requests[j].key == s.requests[i].key
    ensures s.requests[i].Settled() && !HasSucceeded(s.requests[i])
  {
    ReachableInv(s);
    assert RequestInv(s.requests[i]);
  }

  /** A duplicate of a request that is unsettled or succeeded gets that request's promise or its cached result. */
  lemma DuplicateGetsTheFirst(s: State, i: nat, c: Command, actor: Actor)
    requires Reachable(s) && i < |s.requests| && s.requests[i].key.Some?
    requires c.kind in s.handlers && BuildKey(actor, c.kind, c.idempotencyKey) == s.requests[i].key
    requires !s.requests[i].Settled() || HasSucceeded(s.requests[i])
    ensures TicketFor(s, c, actor) == Joined(i)
            || (HasSucceeded(s.requests[i]) && TicketFor(s, c, actor) == Cached(s.requests[i].outcome.value.result))
    ensures Apply(s, Submit(c, actor, false)) == s
  {
    ReachableInv(s);
    var r, k := s.requests[i], s.requests[i].key.value;
    assert RequestInv(r);
    if r.follow != Cleaned { assert Flies(k, i, s.inFlight); }
    if k in s.cache { CachedIsTheLatest(s.requests, s.cache, i); } else { KeyIsSomewhere(s, i); }
    NotFreshIsUnchanged(s, c, actor);
  }

  lemma KeyIsSomewhere(s: State, i: nat)
    requires KeyInv(s.requests, s.cache, s.inFlight) && i < |s.requests| && s.requests[i].key.Some?
            && RequestInv(s.requests[i])
    requires !s.requests[i].Settled() || HasSucceeded(s.requests[i])
    ensures s.requests[i].key.value in s.cache || Flies(s.requests[i].key.value, i, s.inFlight)
  {
    if s.requests[i].follow != Cleaned { assert Flies(s.requests[i].key.value, i, s.inFlight); }
  }

  lemma NotFreshIsUnchanged(s: State, c: Command, actor: Actor)
    requires !TicketFor(s, c, actor).Fresh?
    ensures Apply(s, Submit(c, actor, false)) == s
  {}

  /** A new request with a key is admitted exactly when every earlier one has failed and been cleaned up. */
  lemma FreshExactly(s: State, c: Command, actor: Actor)
    requires Reachable(s) && c.kind in s.handlers
    ensures var key := BuildKey(actor, c.kind, c.idempotencyKey);
            TicketFor(s, c, actor).Fresh? <==>
              key.None? || forall i | 0 <= i < |s.requests| && s.requests[i].key == key ::
                s.requests[i].follow == Cleaned && s.requests[i].Settled() && !HasSucceeded(s.requests[i])
  {
    ReachableInv(s);
    var key := BuildKey(actor, c.kind, c.idempotencyKey);
    if key.Some? {
      var k := key.value;
      if k in s.cache {
        assert Backed(s.requests, k, s.cache[k]);
        var j :| 0 <= j < |s.requests| && s.requests[j].key == Some(k)
            && s.requests[j].outcome == Some(Resolved(s.cache[k]));
        assert HasSucceeded(s.requests[j]);
      } else if k !in s.inFlight {
        forall i | 0 <= i < |s.requests| && s.requests[i].key == key
          ensures s.requests[i].follow == Cleaned && s.requests[i].Settled() && !HasSucceeded(s.requests[i])
        {
          assert RequestInv(s.requests[i]);
          assert s.requests[i].follow != Cleaned ==> Flies(k, i, s.inFlight);
        }
      }
    }
  }

  /**
   A run in which a command of one session is answered with another command of another session: both commands are
   registered, and the second one joins the promise of the first.
   */
  lemma JoinsAnotherSession() returns (s: State, first: Command, second: Command, a: Actor, b: Actor)
    ensures Reachable(s) && first.kind in s.handlers && second.kind in s.handlers && first.kind != second.kind
    ensures |s.requests| == 1 && s.requests[0].command == first && s.requests[0].actor == a && a.Mcp? && b.Mcp?
    ensures a.sessionId != b.sessionId && TicketFor(s, second, b) == Joined(0)
  {
    first, a := Command("table.create", map[], None, Some("k")), Mcp("s:table.list", None);
    second, b := Command("table.list", map[], None, Some("table.create:k")), Mcp("s", None);
    assert |first.kind| != |second.kind| && |a.sessionId| != |b.sessionId|;
    ColonsCollide("s", "table.list", "table.create", "k");
    assert "s" + ":" + "table.list" == "s:table.list" && "table.create" + ":" + "k" == "table.create:k";
    s := Init(Config(0, false, false), Owner(None, None));
    ReachableInit(s.cfg, s.world.owner);
    ReachableStep(s, Register(first.kind, Mutation));
    s := Apply(s, Register(first.kind, Mutation));
    ReachableStep(s, Register(second.kind, Read));
    s := Apply(s, Register(second.kind, Read));
    ReachableStep(s, Submit(first, a, false));
    s := Apply(s, Submit(first, a, false));
  }
}
