/** The project revision over every run, with and without a revision adapter. */
module CommandChanges {
  import opened Common
  import opened CommandProtocol
  import opened CommandInvariant
  import opened CommandRevision
  import opened CommandRuns

  /** The successful mutations that changed something. */
  ghost function Changes(rs: seq<Request>): set<nat> {
    set i: nat | i < |rs| && rs[i].mode == Mutation && HasSucceeded(rs[i]) && rs[i].outcome.value.result.changed
  }

  ghost function Bumped(rs: seq<Request>): set<nat> {
    set i: nat | i < |rs| && rs[i].bumped
  }

  lemma BumpedGrown(rs: seq<Request>)
    requires rs != []
    ensures var n := |rs| - 1; |Bumped(rs)| == |Bumped(rs[..n])| + if rs[n].bumped then 1 else 0
  {
    var n := |rs| - 1;
    assert Bumped(rs) == if rs[n].bumped then Bumped(rs[..n]) + {n} else Bumped(rs[..n]);
  }

  lemma {:induction false} BumpCountIsCardinality(rs: seq<Request>)
    ensures BumpCount(rs) == |Bumped(rs)|
  {
    if rs == [] {
    } else {
      BumpCountIsCardinality(rs[..|rs| - 1]);
      BumpedGrown(rs);
    }
  }

  // ---------------------------------------------------------------- what comes from outside

  /** The step does not come from an outside writer of the revision. */
  predicate QuietStep(s: State, step: Step) {
    step.Outside? ==> LeavesRevision(step.world, s.world)
  }

  /** In this run nobody outside writes the revision, or makes its adapter authoritative. */
  ghost predicate Quiet(s: State, run: seq<Step>)
    requires Legal(s, run)
    decreases |run|
  {
    run == [] || (QuietStep(s, run[0]) && Quiet(Apply(s, run[0]), run[1..]))
  }

  /** What outside writers add to the revision in this run. */
  ghost function WrittenOutside(s: State, run: seq<Step>): int
    requires Legal(s, run)
    decreases |run|
  {
    if run == [] then 0
    else
      (if run[0].Outside? then run[0].world.revision - s.world.revision else 0)
      + WrittenOutside(Apply(s, run[0]), run[1..])
  }

  lemma StepRemembers(s: State, step: Step)
    requires Enabled(s, step)
    ensures Apply(s, step).cfg == s.cfg
    ensures Apply(s, step).quiet == (s.quiet && QuietStep(s, step))
    ensures Apply(s, step).drift == s.drift + if step.Outside? then step.world.revision - s.world.revision else 0
  {
    match step
    case Act(i, m) =>
      InstalledParts(s, i, m, Moved(s.requests[i], i, m, s.world), Events(s.requests[i], i, m, s.world));
    case Submit(c, actor, signalAborted) =>
      if TicketFor(s, c, actor).Fresh? { AdmittedRemembers(s, c, actor); }
    case _ =>
  }

  lemma AdmittedRemembers(s: State, c: Command, actor: Actor)
    requires c.kind in s.handlers
    ensures var t := Acted(Admitted(s, c, actor), |s.requests|, CancelCall);
            t.cfg == s.cfg && t.quiet == s.quiet && t.drift == s.drift
  {
    var t, n := Admitted(s, c, actor), |s.requests|;
    var r := t.requests[n];
    InstalledParts(t, n, CancelCall, Moved(r, n, CancelCall, t.world), Events(r, n, CancelCall, t.world));
  }

  lemma {:induction false} RunRemembers(s: State, run: seq<Step>)
    requires Legal(s, run)
    ensures After(s, run).cfg == s.cfg
    ensures After(s, run).quiet == (s.quiet && Quiet(s, run))
    ensures After(s, run).drift == s.drift + WrittenOutside(s, run)
    decreases |run|
  {
    if run == [] {
    } else {
      StepRemembers(s, run[0]);
      RunRemembers(Apply(s, run[0]), run[1..]);
    }
  }

  /** Without a revision adapter every run is quiet. */
  lemma WithoutAdapterQuiet(cfg: Config, owner: Owner, run: seq<Step>)
    requires Legal(Init(cfg, owner), run) && !cfg.hasAdapter
    ensures Quiet(Init(cfg, owner), run)
  {
    InitInv(cfg, owner);
    RunKeepsInv(Init(cfg, owner), run);
    RunRemembers(Init(cfg, owner), run);
  }

  // ---------------------------------------------------------------- counting changes

  /**
   In every run, of whatever configuration, the revision is the initial one, and what was written outside, and one for
   each request that advanced it; these are successful mutations that changed something.
   */
  lemma RevisionIsAccountedFor(cfg: Config, owner: Owner, run: seq<Step>)
    requires Legal(Init(cfg, owner), run)
    ensures var s := After(Init(cfg, owner), run);
            && s.world.revision == cfg.initialRevision + WrittenOutside(Init(cfg, owner), run) + |Bumped(s.requests)|
            && Bumped(s.requests) <= Changes(s.requests)
  {
    var s := After(Init(cfg, owner), run);
    InitInv(cfg, owner);
    RunKeepsInv(Init(cfg, owner), run);
    RunRemembers(Init(cfg, owner), run);
    BumpCountIsCardinality(s.requests);
    BumpsAreChanges(s);
  }

  lemma BumpsAreChanges(s: State)
    requires Inv(s)
    ensures Bumped(s.requests) <= Changes(s.requests)
  {
    forall i: nat | i < |s.requests| && s.requests[i].bumped ensures i in Changes(s.requests) {
      assert RequestInv(s.requests[i]);
    }
  }

  lemma QuietBumpsAreChanges(s: State)
    requires Inv(s) && s.quiet
    ensures Changes(s.requests) == Bumped(s.requests)
  {
    forall i: nat | i < |s.requests| ensures i in Changes(s.requests) <==> i in Bumped(s.requests) {
      assert RequestInv(s.requests[i]) && RevisionSeen(s.requests, s.cfg.initialRevision, i);
    }
  }

  /** With no outside writer, the revision is the initial one plus the number of successful changes. */
  lemma RevisionCountsChanges(cfg: Config, owner: Owner, run: seq<Step>)
    requires Legal(Init(cfg, owner), run) && Quiet(Init(cfg, owner), run)
    ensures var s := After(Init(cfg, owner), run);
            s.world.revision == cfg.initialRevision + |Changes(s.requests)|
  {
    var s := QuietEnd(cfg, owner, run);
    BumpCountIsCardinality(s.requests);
    QuietBumpsAreChanges(s);
  }

  lemma QuietEnd(cfg: Config, owner: Owner, run: seq<Step>) returns (s: State)
    requires Legal(Init(cfg, owner), run) && Quiet(Init(cfg, owner), run)
    ensures s == After(Init(cfg, owner), run) && Inv(s) && s.quiet && s.cfg == cfg
  {
    s := After(Init(cfg, owner), run);
    InitInv(cfg, owner);
    RunKeepsInv(Init(cfg, owner), run);
    RunRemembers(Init(cfg, owner), run);
  }

  /** Inside, nothing but a successful change moves the revision, and that by one. */
  lemma OnlyChangesMoveTheRevision(s: State, step: Step)
    requires Reachable(s) && Enabled(s, step) && !step.Outside?
    ensures Apply(s, step).world.revision == s.world.revision
            || (&& Apply(s, step).world.revision == s.world.revision + 1
                && step.Act? && step.move.HandlerReturns? && step.move.changed
                && s.requests[step.id].mode == Mutation && !s.world.authoritative
                && HasSucceeded(Next(s, step, step.id)))
  {
    ReachableInv(s);
    match step
    case Act(i, m) =>
      var next := Moved(s.requests[i], i, m, s.world);
      InstalledParts(s, i, m, next, Events(s.requests[i], i, m, s.world));
      OnlyReturnBumps(s.requests[i], i, m, s.world);
      MoveKeepsRequestInv(s.requests[i], i, m, s.world);
    case Submit(c, actor, signalAborted) => SubmitKeepsRevision(s, c, actor, signalAborted);
    case _ =>
  }

  lemma SubmitKeepsRevision(s: State, c: Command, actor: Actor, signalAborted: bool)
    ensures Apply(s, Submit(c, actor, signalAborted)).world == s.world
  {
    if TicketFor(s, c, actor).Fresh? {
      var t, n := Admitted(s, c, actor), |s.requests|;
      InstalledParts(t, n, CancelCall, Moved(t.requests[n], n, CancelCall, t.world),
          Events(t.requests[n], n, CancelCall, t.world));
    }
  }

  /** With no outside writer, two mutations that expect the same revision cannot both succeed with a change. */
  lemma ExpectedRevisionIsUsedOnce(cfg: Config, owner: Owner, run: seq<Step>, i: nat, j: nat)
    requires Legal(Init(cfg, owner), run) && Quiet(Init(cfg, owner), run)
    requires i < j && j in Changes(After(Init(cfg, owner), run).requests)
    requires var rs := After(Init(cfg, owner), run).requests;
             rs[i].command.expected.Some? && rs[j].command.expected == rs[i].command.expected
    ensures i !in Changes(After(Init(cfg, owner), run).requests)
  {
    var s := QuietEnd(cfg, owner, run);
    var rs, base := s.requests, cfg.initialRevision;
    assert RequestInv(rs[i]) && RequestInv(rs[j]);
    assert RevisionSeen(rs, base, i) && RevisionSeen(rs, base, j);
    RevisionOfPrefix(rs, i, j);
  }

  /** The count before request j includes request i and everything before it. */
  lemma RevisionOfPrefix(rs: seq<Request>, i: nat, j: nat)
    requires i < j < |rs|
    ensures BumpCount(rs[..i]) + (if rs[i].bumped then 1 else 0) <= BumpCount(rs[..j])
  {
    BumpCountMonotone(rs[..j], i + 1);
    assert rs[..j][..i + 1] == rs[..i + 1];
    assert rs[..i + 1][..i] == rs[..i];
  }

  /** With no outside writer, the revisions in results never fall with the request number and rise with a change. */
  lemma ResultRevisionsAscend(cfg: Config, owner: Owner, run: seq<Step>, i: nat, j: nat)
    requires Legal(Init(cfg, owner), run) && Quiet(Init(cfg, owner), run)
    requires i < j < |After(Init(cfg, owner), run).requests|
    requires var rs := After(Init(cfg, owner), run).requests; HasSucceeded(rs[i]) && HasSucceeded(rs[j])
    ensures var rs := After(Init(cfg, owner), run).requests;
            rs[i].outcome.value.result.projectRevision + (if j in Changes(rs) then 1 else 0)
              <= rs[j].outcome.value.result.projectRevision
  {
    var s := QuietEnd(cfg, owner, run);
    var rs := s.requests;
    assert RevisionSeen(rs, cfg.initialRevision, i) && RevisionSeen(rs, cfg.initialRevision, j);
    RevisionOfPrefix(rs, i, j);
  }
}
