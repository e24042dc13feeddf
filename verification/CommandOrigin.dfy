/** Where requests come from: each one is made by one submission, as the runtime stands then. */
module CommandOrigin {
  import opened Common
  import opened CommandProtocol
  import opened CommandInvariant
  import opened CommandKeys
  import opened CommandRuns
  import opened CommandHistory

  lemma {:induction false} AddingStep(states: seq<State>, run: seq<Step>, l: nat, i: nat) returns (k: nat)
    requires Trace(states, run) && l <= |run| && i < |states[l].requests|
    ensures k < l && |states[k].requests| <= i < |states[k + 1].requests|
    decreases l
  {
    if l > 0 && i < |states[l - 1].requests| { k := AddingStep(states, run, l - 1, i); } else { k := l - 1; }
  }

  /** The request is what its submission, in state s, makes of the command. */
  ghost predicate MadeBy(r: Request, i: nat, s: State, c: Command, actor: Actor, signalAborted: bool) {
    && i == |s.requests| && c.kind in s.handlers
    && r.command == c && r.actor == actor && r.mode == s.handlers[c.kind]
    && r.guard == (if r.mode == Mutation && s.cfg.hasGuard then Some(s.world.owner) else None)
    && r.waitsOn == s.tail
    && r.key == (if actor.Mcp? && c.idempotencyKey.Some? && c.idempotencyKey.value != ""
                 then Some(KeyPrefix(actor, c.kind) + c.idempotencyKey.value) else None)
    && (signalAborted ==> r.outcome == Some(Rejected(CancelledError)) && !r.entered && !r.committed)
  }

  lemma NewIsMade(s: State, c: Command, actor: Actor, signalAborted: bool)
    requires c.kind in s.handlers
    ensures var r := NewRequest(s, c, actor);
            && MadeBy(r, |s.requests|, s, c, actor, false)
            && MadeBy(Moved(r, |s.requests|, CancelCall, s.world), |s.requests|, s, c, actor, true)
            && AbortHeeded(Moved(r, |s.requests|, CancelCall, s.world))
  {
    if c.idempotencyKey.Some? && actor.Mcp? && c.idempotencyKey.value != "" {
      KeyIsPrefixed(actor, c.kind, c.idempotencyKey.value);
    }
  }

  lemma StepMakes(s: State, step: Step, i: nat)
    requires Inv(s) && Enabled(s, step) && |s.requests| <= i < |Apply(s, step).requests|
    ensures step.Submit?
    ensures MadeBy(Apply(s, step).requests[i], i, s, step.command, step.actor, step.signalAborted)
    ensures step.signalAborted ==> AbortHeeded(Apply(s, step).requests[i])
  {
    StepAdds(s, step, i);
    SubmitAddsARequest(s, step.command, step.actor, step.signalAborted);
    NewIsMade(s, step.command, step.actor, step.signalAborted);
  }

  lemma StaysMade(r: Request, t: Request, i: nat, s: State, c: Command, actor: Actor, signalAborted: bool)
    requires MadeBy(r, i, s, c, actor, signalAborted) && Keeps(r, t) && (signalAborted ==> AbortHeeded(r))
    ensures MadeBy(t, i, s, c, actor, signalAborted)
  {
  }

  lemma StepMakesIn(states: seq<State>, run: seq<Step>, k: nat, i: nat)
    requires Trace(states, run) && k < |run| && |states[k].requests| <= i < |states[k + 1].requests|
    ensures run[k].Submit?
    ensures MadeBy(states[k + 1].requests[i], i, states[k], run[k].command, run[k].actor, run[k].signalAborted)
    ensures run[k].signalAborted ==> AbortHeeded(states[k + 1].requests[i])
  {
    TraceStep(states, run, k);
    StepMakes(states[k], run[k], i);
  }

  /**
   Over every run, request i was made by one submission, from the command and the actor passed then, with the mode its
   command was registered with, the owner of that time and the key of its session. A request whose signal was raised
   already was cancelled there and then, and never enters its handler.
   */
  lemma MadeBySubmission(states: seq<State>, run: seq<Step>, i: nat) returns (k: nat)
    requires Trace(states, run) && i < |states[|run|].requests|
    ensures k < |run| && run[k].Submit?
    ensures MadeBy(states[|run|].requests[i], i, states[k], run[k].command, run[k].actor, run[k].signalAborted)
  {
    k := AddingStep(states, run, |run|, i);
    StepMakesIn(states, run, k, i);
    BetweenKeeps(states, run, k + 1, |run|, i);
    StaysMade(states[k + 1].requests[i], states[|run|].requests[i], i, states[k],
              run[k].command, run[k].actor, run[k].signalAborted);
  }

  // ---------------------------------------------------------------- registrations

  lemma ActKeepsHandlers(s: State, i: nat, m: Move)
    requires i < |s.requests|
    ensures Acted(s, i, m).handlers == s.handlers
  {
    InstalledParts(s, i, m, Moved(s.requests[i], i, m, s.world), Events(s.requests[i], i, m, s.world));
  }

  lemma StepRegisters(s: State, step: Step)
    requires Enabled(s, step)
    ensures Apply(s, step).handlers == if step.Register? then s.handlers[step.kind := step.mode] else s.handlers
  {
    match step
    case Act(i, m) => ActKeepsHandlers(s, i, m);
    case Submit(c, actor, signalAborted) =>
      if TicketFor(s, c, actor).Fresh? { ActKeepsHandlers(Admitted(s, c, actor), |s.requests|, CancelCall); }
    case _ =>
  }

  /** The mode that a command was last registered with in these steps. */
  function LastMode(steps: seq<Step>, kind: string): Option<Mode> {
    if steps == [] then None
    else
      var last := steps[|steps| - 1];
      if last.Register? && last.kind == kind then Some(last.mode) else LastMode(steps[..|steps| - 1], kind)
  }

  /** A command has the mode it was last registered with, and no other commands are known. */
  lemma {:induction false} RegisteredLast(states: seq<State>, run: seq<Step>, k: nat, kind: string)
    requires Trace(states, run) && k <= |run|
    ensures LastMode(run[..k], kind) == if kind in states[k].handlers then Some(states[k].handlers[kind]) else None
    decreases k
  {
    if k == 0 {
    } else {
      RegisteredLast(states, run, k - 1, kind);
      TraceStep(states, run, k - 1);
      StepRegisters(states[k - 1], run[k - 1]);
      assert run[..k][..k - 1] == run[..k - 1];
    }
  }
}
