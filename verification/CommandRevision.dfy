/** The optimistic project revision. */
module CommandRevision {
  import opened Common
  import opened CommandProtocol
  import opened CommandInvariant
  import opened CommandQueue

  /** How many of the requests advanced the revision. */
  ghost function BumpCount(rs: seq<Request>): nat {
    if rs == [] then 0 else BumpCount(rs[..|rs| - 1]) + (if rs[|rs| - 1].bumped then 1 else 0)
  }

  /** Without outside writers, what request i saw of the revision follows from the requests before it. */
  ghost predicate RevisionSeen(rs: seq<Request>, base: int, i: nat)
    requires i < |rs|
  {
    var r := rs[i];
    var before := base + BumpCount(rs[..i]);
    && (HasSucceeded(r) ==>
          && r.bumped == (r.mode == Mutation && r.outcome.value.result.changed)
          && r.outcome.value.result.projectRevision == before + (if r.bumped then 1 else 0))
    && (r.entered && r.mode == Mutation && r.command.expected.Some? ==> r.command.expected.value == before)
  }

  ghost predicate AllSeen(rs: seq<Request>, base: int) {
    forall i | 0 <= i < |rs| :: RevisionSeen(rs, base, i)
  }

  /** What the moves of one request have to do with the revision it finds. */
  ghost predicate RevisionMove(r: Request, next: Request, revision: int, authoritative: bool) {
    && (next.bumped && !r.bumped ==> r.point == InHandler)
    && (HasSucceeded(next) && !HasSucceeded(r) ==>
          && r.point == InHandler
          && next.bumped == (r.mode == Mutation && next.outcome.value.result.changed && !authoritative)
          && next.outcome.value.result.projectRevision == revision + (if next.bumped then 1 else 0))
    && (next.entered && !r.entered ==>
          && (r.point == AtPolicy || r.point == AtConfirmation)
          && (r.mode == Mutation && r.command.expected.Some? ==> r.command.expected.value == revision))
  }

  lemma CaughtSees(r: Request, t: Thrown)
    ensures Caught(r, t).bumped == r.bumped && Caught(r, t).entered == r.entered
            && HasSucceeded(Caught(r, t)) == HasSucceeded(r)
  {
    if r.Settled() {} else {}
  }

  lemma RunsSees(r: Request)
    ensures Runs(r).bumped == r.bumped && Runs(r).entered == r.entered && HasSucceeded(Runs(r)) == HasSucceeded(r)
  {}

  lemma EnterLeavesResults(r: Request, granted: bool, w: World)
    ensures var next := Enter(r, granted, w);
            && next.bumped == r.bumped && HasSucceeded(next) == HasSucceeded(r)
            && (next.entered && !r.entered ==> RevisionExpected(r, w))
  {
    RunsSees(r);
    if !RevisionExpected(r, w) {
      CaughtSees(Runs(r), CommandError(RevisionConflict));
    } else if AbortHeeded(r) || !OwnerCurrent(r, w) {
      CaughtSees(Runs(r), CommandError(CancelledError));
    } else {}
  }

  lemma EnterSees(r: Request, granted: bool, w: World)
    requires r.point == AtPolicy || r.point == AtConfirmation
    ensures RevisionMove(r, Enter(r, granted, w), w.revision, w.authoritative)
  {
    EnterLeavesResults(r, granted, w);
    EnteringSees(r, Enter(r, granted, w), w);
  }

  lemma EnteringSees(r: Request, next: Request, w: World)
    requires r.point == AtPolicy || r.point == AtConfirmation
    requires next.bumped == r.bumped && HasSucceeded(next) == HasSucceeded(r)
    requires next.entered && !r.entered ==> RevisionExpected(r, w)
    ensures RevisionMove(r, next, w.revision, w.authoritative)
  {}

  lemma PolicySees(r: Request, w: World)
    requires r.point == AtPolicy
    ensures RevisionMove(r, AfterPolicy(r, w), w.revision, w.authoritative)
  {
    CaughtSees(r, CommandError(ExecutionFailed));
    CaughtSees(r, CommandError(UserDenied));
    EnterSees(r, false, w);
  }

  lemma ReturnSees(r: Request, i: nat, m: Move, w: World)
    requires RequestInv(r) && CanMove(r, m) && m.HandlerReturns?
    ensures RevisionMove(r, Moved(r, i, m, w), w.revision, w.authoritative)
  {
    if AbortHeeded(r) { CaughtSees(r, CommandError(CancelledError)); } else {}
  }

  lemma MoveSeesRevision(r: Request, i: nat, m: Move, w: World)
    requires RequestInv(r) && CanMove(r, m)
    ensures RevisionMove(r, Moved(r, i, m, w), w.revision, w.authoritative)
  {
    match m
    case PolicyContinues(b) =>
      CaughtSees(r, CommandError(CancelledError));
      PolicySees(r, w);
    case ConfirmationContinues(b) =>
      CaughtSees(r, CommandError(CancelledError));
      CaughtSees(r, CommandError(UserDenied));
      EnterSees(r, true, w);
    case CsvInspected(_) => CaughtSees(r, CommandError(ConfirmationRequired));
    case HandlerReturns(_, _, _) => ReturnSees(r, i, m, w);
    case HandlerThrows(thrown) => CaughtSees(r, thrown);
    case CancelCall => if CancelAnswer(r) {} else {}
    case _ =>
  }

  /** Replacing one request changes the count by what changed in it. */
  lemma {:induction false} BumpCountUpdate(rs: seq<Request>, i: nat, next: Request)
    requires i < |rs|
    ensures BumpCount(rs[i := next]) == BumpCount(rs) + (if next.bumped then 1 else 0) - (if rs[i].bumped then 1 else 0)
  {
    var n := |rs| - 1;
    if i == n {
      assert rs[i := next][..n] == rs[..n];
    } else {
      assert rs[i := next][..n] == rs[..n][i := next];
      BumpCountUpdate(rs[..n], i, next);
    }
  }

  /** Requests that did not advance the revision do not count. */
  lemma {:induction false} BumpCountTail(rs: seq<Request>, i: nat)
    requires i <= |rs| && forall j | i <= j < |rs| :: !rs[j].bumped
    ensures BumpCount(rs) == BumpCount(rs[..i])
  {
    if i == |rs| {
      assert rs[..i] == rs;
    } else {
      BumpCountTail(rs[..|rs| - 1], i);
      assert rs[..|rs| - 1][..i] == rs[..i];
    }
  }

  lemma {:induction false} BumpCountMonotone(rs: seq<Request>, i: nat)
    requires i <= |rs|
    ensures BumpCount(rs[..i]) <= BumpCount(rs)
  {
    if i == |rs| {
      assert rs[..i] == rs;
    } else {
      BumpCountMonotone(rs[..|rs| - 1], i);
      assert rs[..|rs| - 1][..i] == rs[..i];
    }
  }

  lemma PutKeepsSeen(rs: seq<Request>, base: int, i: nat, next: Request)
    requires (forall j | 0 <= j < |rs| :: RequestInv(rs[j])) && Serial(rs) && AllSeen(rs, base)
    requires i < |rs| && Keeps(rs[i], next) && RevisionMove(rs[i], next, base + BumpCount(rs), false)
    requires next.bumped ==> HasSucceeded(next)
    ensures AllSeen(rs[i := next], base)
  {
    var ts := rs[i := next];
    if rs[i].point != Ended {
      BumpCountTail(rs, i);
    }
    forall j | 0 <= j < |ts| ensures RevisionSeen(ts, base, j) {
      assert RevisionSeen(rs, base, j);
      if j <= i {
        assert ts[..j] == rs[..j];
      } else if next.bumped == rs[i].bumped {
        assert ts[..j] == rs[..j][i := next];
        BumpCountUpdate(rs[..j], i, next);
      } else {
        assert rs[j].point == Waiting;
      }
    }
  }

  lemma AdmitKeepsSeen(rs: seq<Request>, base: int, r: Request)
    requires AllSeen(rs, base) && !r.Settled() && !r.entered && !r.bumped
    ensures AllSeen(rs + [r], base) && BumpCount(rs + [r]) == BumpCount(rs)
  {
    var ts := rs + [r];
    assert ts[..|rs|] == rs;
    forall j | 0 <= j < |rs| ensures RevisionSeen(ts, base, j) {
      assert RevisionSeen(rs, base, j) && ts[..j] == rs[..j];
    }
  }
}
