/** Runs with all the states they go through, and the step in which a request was settled. */
module CommandHistory {
  import opened Common
  import opened CommandProtocol
  import opened CommandInvariant
  import opened CommandRuns

  /** Step k of the run is possible in state k, and leads to state k + 1. */
  ghost predicate Goes(states: seq<State>, run: seq<Step>, k: nat)
    requires k < |run| < |states|
  {
    Enabled(states[k], run[k]) && states[k + 1] == Apply(states[k], run[k])
  }

  /** The states of a run from a new runtime: number k is the one before step k, the last one that after all steps. */
  ghost predicate Trace(states: seq<State>, run: seq<Step>) {
    && |states| == |run| + 1
    && (exists cfg, owner :: states[0] == Init(cfg, owner))
    && forall k: nat | k < |run| :: Goes(states, run, k)
  }

  ghost function StatesOf(s: State, run: seq<Step>): (states: seq<State>)
    requires Legal(s, run)
    ensures |states| == |run| + 1 && states[0] == s && states[|run|] == After(s, run)
    decreases |run|
  {
    if run == [] then [s] else [s] + StatesOf(Apply(s, run[0]), run[1..])
  }

  lemma GoesLater(s: State, later: seq<State>, run: seq<Step>, k: nat)
    requires |later| == |run| && k + 1 < |run| && Goes(later, run[1..], k)
    ensures Goes([s] + later, run, k + 1)
  {
  }

  lemma {:induction false} RunGoes(s: State, run: seq<Step>, k: nat)
    requires Legal(s, run) && k < |run|
    ensures Goes(StatesOf(s, run), run, k)
    decreases |run|
  {
    var later := StatesOf(Apply(s, run[0]), run[1..]);
    assert StatesOf(s, run) == [s] + later && later[0] == Apply(s, run[0]);
    if k == 0 {
    } else {
      RunGoes(Apply(s, run[0]), run[1..], k - 1);
      GoesLater(s, later, run, k - 1);
    }
  }

  /** Every run from a new runtime has its states. */
  lemma RunsHaveTraces(cfg: Config, owner: Owner, run: seq<Step>) returns (states: seq<State>)
    requires Legal(Init(cfg, owner), run)
    ensures Trace(states, run) && states[0] == Init(cfg, owner) && states[|run|] == After(Init(cfg, owner), run)
  {
    states := StatesOf(Init(cfg, owner), run);
    forall k: nat | k < |run| ensures Goes(states, run, k) { RunGoes(Init(cfg, owner), run, k); }
  }

  lemma {:induction false} TraceInv(states: seq<State>, run: seq<Step>, k: nat)
    requires Trace(states, run) && k <= |run|
    ensures Inv(states[k])
    decreases k
  {
    if k == 0 {
      var cfg, owner :| states[0] == Init(cfg, owner);
      InitInv(cfg, owner);
    } else {
      TraceInv(states, run, k - 1);
      assert Goes(states, run, k - 1);
      StepKeepsInv(states[k - 1], run[k - 1]);
    }
  }

  /** What a step of the run finds. */
  lemma TraceStep(states: seq<State>, run: seq<Step>, k: nat)
    requires Trace(states, run) && k < |run|
    ensures Inv(states[k]) && Enabled(states[k], run[k]) && states[k + 1] == Apply(states[k], run[k])
  {
    TraceInv(states, run, k);
    assert Goes(states, run, k);
  }

  lemma OneStepKeeps(states: seq<State>, run: seq<Step>, k: nat, i: nat)
    requires Trace(states, run) && k < |run| && i < |states[k].requests|
    ensures i < |states[k + 1].requests| && Keeps(states[k].requests[i], states[k + 1].requests[i])
  {
    TraceStep(states, run, k);
    StepKeepsRequests(states[k], run[k], i);
  }

  lemma KeepsOn(r: Request, t: Request, u: Request)
    requires Keeps(r, t) && Keeps(t, u)
    ensures Keeps(r, u)
  {
  }

  /** What a run does to a request between two of its steps. */
  lemma {:induction false} BetweenKeeps(states: seq<State>, run: seq<Step>, k: nat, l: nat, i: nat)
    requires Trace(states, run) && k <= l <= |run| && i < |states[k].requests|
    ensures i < |states[l].requests| && Keeps(states[k].requests[i], states[l].requests[i])
    decreases l
  {
    if l == k {
    } else {
      BetweenKeeps(states, run, k, l - 1, i);
      OneStepKeeps(states, run, l - 1, i);
      KeepsOn(states[k].requests[i], states[l - 1].requests[i], states[l].requests[i]);
    }
  }

  /** Request i is there, and its promise is settled. */
  predicate IsSettled(s: State, i: nat) {
    i < |s.requests| && s.requests[i].Settled()
  }

  /** Step k settles request i. */
  ghost predicate SettledIn(states: seq<State>, k: nat, i: nat) {
    k + 1 < |states| && !IsSettled(states[k], i) && IsSettled(states[k + 1], i)
  }

  /** The step in which a settled request was settled; it has kept its outcome since. */
  lemma {:induction false} SettlingStep(states: seq<State>, run: seq<Step>, l: nat, i: nat) returns (k: nat)
    requires Trace(states, run) && l <= |run| && IsSettled(states[l], i)
    ensures k < l && SettledIn(states, k, i)
    ensures states[l].requests[i].outcome == states[k + 1].requests[i].outcome
    decreases l
  {
    if l > 0 && IsSettled(states[l - 1], i) {
      k := SettlingStep(states, run, l - 1, i);
      BetweenKeeps(states, run, k + 1, l, i);
    } else {
      k := l - 1;
    }
  }

  /** Once settled, always settled. */
  lemma StaysSettled(states: seq<State>, run: seq<Step>, k: nat, l: nat, i: nat)
    requires Trace(states, run) && k <= l <= |run| && IsSettled(states[k], i)
    ensures IsSettled(states[l], i) && states[l].requests[i].outcome == states[k].requests[i].outcome
  {
    BetweenKeeps(states, run, k, l, i);
  }

  /** No request is settled in two steps. */
  lemma SettledOnce(states: seq<State>, run: seq<Step>, k: nat, l: nat, i: nat)
    requires Trace(states, run) && SettledIn(states, k, i) && SettledIn(states, l, i)
    ensures k == l
  {
    if k < l { StaysSettled(states, run, k + 1, l, i); } else if l < k { StaysSettled(states, run, l + 1, k, i); }
  }
}
