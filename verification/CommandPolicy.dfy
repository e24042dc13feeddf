/** The default command policy, and what it means for the runs that use it. */
module CommandPolicy {
  import opened Common
  import opened CommandProtocol
  import opened CommandInvariant
  import opened CommandRuns

  /** The export's input names a data set, a root and a path, all as strings. */
  predicate NamesATarget(c: Command) {
    c.kind == CSV_EXPORT && "datasetId" in c.input && "rootId" in c.input && "relativePath" in c.input
  }

  /** `canExecute` of the default policy; `inspection` is what the export target's inspector found, if there is one. */
  function DefaultDecision(c: Command, inspection: Option<TargetStatus>): Decision {
    if c.kind != CSV_EXPORT then Decision(true, false, None)
    else if "datasetId" !in c.input || "rootId" !in c.input || "relativePath" !in c.input then
      Decision(true, false, None)
    else Decision(true, inspection == Some(OverwriteExisting), inspection)
  }

  /** The decision is one the default policy can have come to, with or without an inspector. */
  ghost predicate ByDefault(c: Command, p: Policy, inspector: bool) {
    p.Decided? ==> exists inspection: Option<TargetStatus> ::
      inspection.Some? == inspector && p.decision == DefaultDecision(c, inspection)
  }

  /** Every decision in the run comes from the default policy. */
  ghost predicate DefaultRun(s: State, run: seq<Step>, inspector: bool)
    requires Legal(s, run)
    decreases |run|
  {
    run != [] ==>
      && (run[0].Act? && run[0].move.PolicySettles? ==>
          ByDefault(s.requests[run[0].id].command, run[0].move.policy, inspector))
      && DefaultRun(Apply(s, run[0]), run[1..], inspector)
  }

  ghost predicate DecidedByDefault(s: State, inspector: bool) {
    forall i | 0 <= i < |s.requests| :: ByDefault(s.requests[i].command, s.requests[i].policy, inspector)
  }

  lemma MoveKeepsPolicy(r: Request, i: nat, m: Move, w: World)
    requires RequestInv(r) && CanMove(r, m)
    ensures Moved(r, i, m, w).policy == if m.PolicySettles? then m.policy else r.policy
  {
    MoveKeepsRequestInv(r, i, m, w);
  }

  lemma StepKeepsPolicies(s: State, step: Step, inspector: bool)
    requires Inv(s) && Enabled(s, step) && DecidedByDefault(s, inspector)
    requires step.Act? && step.move.PolicySettles? ==>
            ByDefault(s.requests[step.id].command, step.move.policy, inspector)
    ensures DecidedByDefault(Apply(s, step), inspector)
  {
    var t := Apply(s, step);
    forall i | 0 <= i < |t.requests| ensures ByDefault(t.requests[i].command, t.requests[i].policy, inspector) {
      if i < |s.requests| {
        StepMoves(s, step, i);
        MoveStaysByDefault(s, step, i, inspector);
      } else {
        StepAdds(s, step, i);
      }
    }
  }

  lemma MoveStaysByDefault(s: State, step: Step, i: nat, inspector: bool)
    requires Inv(s) && Enabled(s, step) && i < |s.requests|
            && ByDefault(s.requests[i].command, s.requests[i].policy, inspector)
    requires step.Act? && step.move.PolicySettles? ==>
            ByDefault(s.requests[step.id].command, step.move.policy, inspector)
    ensures ByDefault(Next(s, step, i).command, Next(s, step, i).policy, inspector)
  {
    if step.Act? && step.id == i {
      MoveKeepsPolicy(s.requests[i], i, step.move, s.world);
      MoveKeepsRequestInv(s.requests[i], i, step.move, s.world);
    }
  }

  lemma {:induction false} RunKeepsPolicies(s: State, run: seq<Step>, inspector: bool)
    requires Inv(s) && DecidedByDefault(s, inspector) && Legal(s, run) && DefaultRun(s, run, inspector)
    ensures DecidedByDefault(After(s, run), inspector)
    decreases |run|
  {
    if run == [] {
    } else {
      StepKeepsPolicies(s, run[0], inspector);
      StepKeepsInv(s, run[0]);
      RunKeepsPolicies(Apply(s, run[0]), run[1..], inspector);
    }
  }

  /** The policy decided, on this finding about the target. */
  predicate InspectedAs(r: Request, target: Option<TargetStatus>) {
    r.policy.Decided? && r.policy.decision.target == target
  }

  /**
   A request is never denied; it waits or has been confirmed only as an export onto an existing target, and runs
   unconfirmed only otherwise.
   */
  predicate WaitsAsExport(r: Request, inspector: bool) {
    && (r.policy.Decided? ==> r.policy.decision.allowed)
    && (ConfirmAnswer(r) || r.granted ==> NamesATarget(r.command) && InspectedAs(r, Some(OverwriteExisting)))
    && (r.entered && NamesATarget(r.command) ==>
          && (r.granted <==> InspectedAs(r, Some(OverwriteExisting)))
          && (!r.granted <==> InspectedAs(r, if inspector then Some(CreateNew) else None)))
    && (r.entered && !NamesATarget(r.command) ==> !r.granted && InspectedAs(r, None))
  }

  lemma DecisionTells(r: Request, inspector: bool)
    requires RequestInv(r) && ByDefault(r.command, r.policy, inspector)
    ensures WaitsAsExport(r, inspector)
  {
    if r.policy.Decided? {
      var inspection: Option<TargetStatus> :|
        inspection.Some? == inspector && r.policy.decision == DefaultDecision(r.command, inspection);
      if inspection.Some? { assert inspection.value == CreateNew || inspection.value == OverwriteExisting; }
    }
  }

  /**
   Under the default policy nothing but an export that names its target ever waits for `confirm`, and that only after
   its inspector found the target to exist: for every other request `confirm` answers false in every state of every
   run. No command is denied. Such an export enters its handler confirmed exactly when the target was found to exist;
   with an inspector, it enters unconfirmed exactly when the target was found to be new.
   */
  lemma OnlyExportsWait(cfg: Config, owner: Owner, run: seq<Step>, inspector: bool, i: nat)
    requires Legal(Init(cfg, owner), run) && DefaultRun(Init(cfg, owner), run, inspector)
    requires i < |After(Init(cfg, owner), run).requests|
    ensures WaitsAsExport(After(Init(cfg, owner), run).requests[i], inspector)
  {
    var s := Init(cfg, owner);
    InitInv(cfg, owner);
    RunKeepsInv(s, run);
    RunKeepsPolicies(s, run, inspector);
    assert RequestInv(After(s, run).requests[i]);
    DecisionTells(After(s, run).requests[i], inspector);
  }
}
