/**
 The command runtime as it runs: request objects and a runtime object updated in place.

 The methods of Runtime are the atomic blocks of the source. Each contract says that the block takes the modelled
 state one step of CommandProtocol further. `Valid` ties the fields to a reachable state of that step system, so
 everything proved about reachable states and runs holds of these objects.
 */
module CommandRuntime {
  import opened Common
  import opened CommandProtocol
  import opened CommandInvariant
  import opened CommandArchive
  import CommandKeys
  import opened CommandRuns
  import opened CommandTheorems

  class RuntimeRequest {
    const id: nat
    const command: Command
    const actor: Actor
    const mode: Mode
    const key: Option<string>
    const guard: Option<Owner>
    const waitsOn: Option<nat>
    var status: Status
    var stage: string
    var message: Option<string>
    var percent: Option<real>
    var aborted: bool
    var cancelSignalled: bool
    var confirmation: Option<bool>
    var policy: Policy
    var committed: bool
    var confirmationGranted: bool
    var inspected: bool
    var point: Point
    var outcome: Option<Outcome>
    var follow: FollowUp
    ghost var entered: bool
    ghost var bumped: bool

    ghost function View(): Request
      reads this
    {
      Request(command, actor, mode, key, guard, waitsOn, status, stage, message, percent, aborted, cancelSignalled,
              confirmation, policy, committed, confirmationGranted, entered, inspected, point, outcome, bumped, follow)
    }

    constructor (id: nat, command: Command, actor: Actor, mode: Mode, key: Option<string>, guard: Option<Owner>,
        waitsOn: Option<nat>)
      ensures this.id == id
      ensures View() == Request(command, actor, mode, key, guard, waitsOn, Queued, "queue", None, None, false, false,
                                None, Evaluating, false, false, false, false, Waiting, None, false, Pending)
    {
      this.id, this.command, this.actor, this.mode, this.key, this.guard, this.waitsOn := id, command, actor, mode,
          key, guard, waitsOn;
      status, stage, message, percent := Queued, "queue", None, None;
      aborted, cancelSignalled, confirmation, policy := false, false, None, Evaluating;
      committed, confirmationGranted, inspected, entered, bumped := false, false, false, false, false;
      point, outcome, follow := Waiting, None, Pending;
    }

    /** The status that an error calls for, and `request.reject`. */
    method RejectWith(code: ErrorCode)
      modifies this
      ensures View() == SettledBy(old(View()), code)
    {
      status := if code == CancelledError then Cancelled else Failed;
      outcome := Some(Rejected(code));
    }

    method EndRun()
      modifies this
      ensures View() == old(View()).(point := Ended)
    {
      point := Ended;
    }

    /** The catch block. */
    method Catch(thrown: Thrown)
      modifies this
      ensures View() == Caught(old(View()), thrown)
    {
      EndRun();
      if outcome.Some? { return; }
      match thrown {
        case CommandError(code) => RejectWith(code);
        case ForeignError =>
          if aborted && !committed { RejectWith(CancelledError); } else { RejectWith(ExecutionFailed); }
      }
    }

    /** The end of a continuation of the promise. */
    method Follow(follow: FollowUp)
      modifies this
      ensures View() == old(View()).(follow := follow)
    {
      this.follow := follow;
    }

    /** The status of the request as its run leaves the queue. */
    method MarkRunning()
      modifies this
      ensures View() == Runs(old(View()))
    {
      if status == AwaitingConfirmation {
        status, stage := Queued, "queue";
      }
      status := Running;
      stage := if stage == "queue" || stage == "confirmation" then "running" else stage;
    }

    /** Why the run must not enter its handler: the revision, an abort, or the owner, asked in this order. */
    method Refused(revision: int, owner: Owner, ghost w: World) returns (thrown: Option<Thrown>)
      requires w.revision == revision && w.owner == owner
      ensures thrown == if !RevisionExpected(View(), w) then Some(CommandError(RevisionConflict))
                        else if AbortHeeded(View()) || !OwnerCurrent(View(), w) then Some(CommandError(CancelledError))
                        else None
    {
      if mode == Mutation && command.expected.Some? && command.expected.value != revision {
        return Some(CommandError(RevisionConflict));
      }
      if aborted && !committed { return Some(CommandError(CancelledError)); }
      if guard.Some? && !GuardHolds(guard.value, owner) { return Some(CommandError(CancelledError)); }
      return None;
    }

    method CallHandler(granted: bool)
      modifies this
      ensures View() == old(View()).(point := InHandler, entered := true, granted := granted)
    {
      point, confirmationGranted, entered := InHandler, granted, true;
    }

    method EnterHandler(granted: bool, revision: int, owner: Owner, ghost w: World)
      requires w.revision == revision && w.owner == owner
      modifies this
      ensures View() == Enter(old(View()), granted, w)
    {
      var refused := Refused(revision, owner, w);
      MarkRunning();
      if refused.Some? { Catch(refused.value); } else { CallHandler(granted); }
    }

    /** The continuation of the race between the policy and cancellation. */
    method PolicyAnswered(branch: Branch, revision: int, owner: Owner, ghost w: World)
      requires w.revision == revision && w.owner == owner && CanMove(View(), PolicyContinues(branch))
      modifies this
      ensures View() == Moved(old(View()), id, PolicyContinues(branch), w)
    {
      if branch == Cancellation {
        Catch(CommandError(CancelledError));
      } else if policy.PolicyFailed? {
        Catch(CommandError(ExecutionFailed));
      } else if outcome.Some? {
        point := Ended;
      } else if !policy.decision.allowed {
        Catch(CommandError(UserDenied));
      } else if policy.decision.requireConfirmation {
        status, stage, point := AwaitingConfirmation, "confirmation", AtConfirmation;
      } else {
        EnterHandler(false, revision, owner, w);
      }
    }

    /** The continuation of the race between `confirm` and cancellation. */
    method ConfirmationAnswered(branch: Branch, revision: int, owner: Owner, ghost w: World)
      requires w.revision == revision && w.owner == owner && CanMove(View(), ConfirmationContinues(branch))
      modifies this
      ensures View() == Moved(old(View()), id, ConfirmationContinues(branch), w)
    {
      if branch == Cancellation {
        Catch(CommandError(CancelledError));
      } else if !confirmation.value {
        Catch(CommandError(UserDenied));
      } else {
        EnterHandler(true, revision, owner, w);
      }
    }

    /** `resolveConfirmation`: a promise resolves once. */
    method ConfirmFound(allow: bool, ghost w: World)
      requires outcome.None? && status == AwaitingConfirmation
      modifies this
      ensures View() == Moved(old(View()), id, ConfirmCall(allow), w)
    {
      if confirmation.None? { confirmation := Some(allow); }
    }

    method Abort()
      modifies this
      ensures View() == old(View()).(aborted := true, cancelSignalled := true)
    {
      aborted, cancelSignalled := true, true;
    }

    /** `cancel` on a request found in the live map. */
    method CancelFound(ghost w: World) returns (cancelled: bool)
      requires outcome.None?
      modifies this
      ensures View() == Moved(old(View()), id, CancelCall, w)
      ensures cancelled == CancelAnswer(old(View()))
    {
      if status == Succeeded || status == Failed || status == Cancelled { return false; }
      if committed || status == Committing { return false; }
      Abort();
      if status == Queued || status == AwaitingConfirmation { RejectWith(CancelledError); }
      return true;
    }

    method SetProgress(stage: string, message: Option<string>, percent: Option<real>)
      modifies this
      ensures View() == old(View()).(status := Running, stage := stage, message := message, percent := percent)
    {
      status := Running;
      this.stage, this.message, this.percent := stage, message, percent;
    }

    method ReportProgress(stage: string, message: Option<string>, percent: Option<real>, ghost w: World)
      modifies this
      ensures View() == Moved(old(View()), id, ProgressCall(stage, message, percent), w)
    {
      if aborted && !committed { return; }
      SetProgress(stage, message, percent);
    }

    /** `beginCommit`; `thrown` is what the handler catches when the commit is refused. */
    method BeginCommit(owner: Owner, ghost w: World) returns (thrown: Option<Thrown>)
      requires w.owner == owner
      modifies this
      ensures View() == Moved(old(View()), id, CommitCall, w)
      ensures thrown == if CommitAccepted(old(View()), w) then None else Some(CommandError(CancelledError))
    {
      if guard.Some? && !GuardHolds(guard.value, owner) { return Some(CommandError(CancelledError)); }
      if aborted && !committed { return Some(CommandError(CancelledError)); }
      committed, status, stage := true, Committing, "commit";
      return None;
    }

    /** The handler of table.exportCsv after its own inspection: it refuses, or goes on to export. */
    method InspectedTarget(targetExists: bool, ghost w: World) returns (exported: bool)
      modifies this
      ensures View() == Moved(old(View()), id, CsvInspected(targetExists), w)
      ensures exported <==> !targetExists || old(confirmationGranted)
    {
      if targetExists && !confirmationGranted {
        Catch(CommandError(ConfirmationRequired));
        return false;
      }
      inspected := true;
      return true;
    }

    method Succeed(result: CommandResult, bumps: bool)
      modifies this
      ensures View() == Settle(old(View()).(point := Ended, bumped := bumps), Succeeded, Resolved(result))
    {
      point, bumped, status := Ended, bumps, Succeeded;
      outcome := Some(Resolved(result));
    }

    /** The block after the handler's promise has resolved. */
    method Returned(changed: bool, data: string, warnings: seq<string>, revision: int, authoritative: bool,
        ghost w: World)
      returns (newRevision: int)
      requires w.revision == revision && w.authoritative == authoritative && !bumped
      modifies this
      ensures View() == Moved(old(View()), id, HandlerReturns(changed, data, warnings), w)
      ensures newRevision == revision + (if bumped then 1 else 0)
      ensures !old(aborted && !committed) ==>
                outcome == Some(Resolved(CommandResult(id, command.kind, changed, newRevision, data, warnings)))
    {
      newRevision := revision;
      if aborted && !committed {
        Catch(CommandError(CancelledError));
      } else {
        var bumps := mode == Mutation && changed && !authoritative;
        if bumps { newRevision := revision + 1; }
        Succeed(CommandResult(id, command.kind, changed, newRevision, data, warnings), bumps);
      }
    }
  }

  /** The model's step (i, m), taken apart. */
  lemma ModelStep(s: State, i: nat, m: Move, next: Request) returns (t: State)
    requires Reachable(s) && Enabled(s, Act(i, m)) && next == Moved(s.requests[i], i, m, s.world)
    ensures t == Apply(s, Act(i, m)) && Reachable(t)
    ensures && t.requests == s.requests[i := next]
            && t.live == (if !s.requests[i].Settled() && next.Settled() then s.live - {i} else s.live)
            && t.archive ==
                (if !s.requests[i].Settled() && next.Settled() then Archived(s.archive, EntryOf(i, next))
                 else s.archive)
            && t.cfg == s.cfg && t.tail == s.tail && t.handlers == s.handlers
            && t.world == (if m.HandlerReturns? && next.bumped && !s.requests[i].bumped
                           then s.world.(revision := s.world.revision + 1) else s.world)
            && t.cache ==
                (if m.StoreContinues? then s.cache[s.requests[i].key.value := s.requests[i].outcome.value.result]
                 else s.cache)
            && t.inFlight == (if m.CleanupContinues? then s.inFlight - {s.requests[i].key.value} else s.inFlight)
  {
    t := Apply(s, Act(i, m));
    ReachableStep(s, Act(i, m));
    ReachableInv(s);
    OnlyReturnBumps(s.requests[i], i, m, s.world);
    if m.CleanupContinues? { CleanupIsOwn(s, i); }
    var events := Events(s.requests[i], i, m, s.world);
    InstalledParts(s, i, m, next, events);
    InstalledTables(s, i, m, next, events);
  }

  /** The in-flight entry that a cleanup continuation finds is always its own. */
  lemma CleanupIsOwn(s: State, i: nat)
    requires Inv(s) && i < |s.requests| && CanMove(s.requests[i], CleanupContinues)
    ensures s.requests[i].key.value in s.inFlight && s.inFlight[s.requests[i].key.value] == i
  {
    CommandKeys.CleanupKeepsKeys(s.requests, s.cache, s.inFlight, i);
  }

  lemma CleanupFindsItself(s: State, i: nat)
    requires Reachable(s) && Enabled(s, Act(i, CleanupContinues))
    ensures s.requests[i].key.value in s.inFlight && s.inFlight[s.requests[i].key.value] == i
  {
    ReachableInv(s);
    CleanupIsOwn(s, i);
  }

  /** The state after a request has been admitted, taken apart. */
  lemma AdmittedParts(s: State, c: Command, actor: Actor) returns (t: State)
    requires Reachable(s) && TicketFor(s, c, actor).Fresh?
    ensures t == Apply(s, Submit(c, actor, false)) && Reachable(t)
    ensures var r, n := NewRequest(s, c, actor), |s.requests|;
            && t.requests == s.requests + [r] && t.live == s.live + {n}
            && t.inFlight == (if r.key.Some? then s.inFlight[r.key.value := n] else s.inFlight)
            && t.archive == s.archive && t.cfg == s.cfg && t.handlers == s.handlers && t.world == s.world
            && t.cache == s.cache && t.tail == Some(n)
  {
    t := Apply(s, Submit(c, actor, false));
    ReachableStep(s, Submit(c, actor, false));
  }

  /** The state after the store has changed, taken apart. */
  lemma OutsideParts(s: State, w: World) returns (t: State)
    requires Reachable(s) && Enabled(s, Outside(w))
    ensures t == Apply(s, Outside(w)) && Reachable(t) && t.world == w
    ensures && t.requests == s.requests && t.live == s.live && t.archive == s.archive && t.cfg == s.cfg
            && t.handlers == s.handlers && t.cache == s.cache && t.inFlight == s.inFlight && t.tail == s.tail
  {
    t := Apply(s, Outside(w));
    ReachableStep(s, Outside(w));
  }

  lemma LiveIsUnsettled(s: State)
    requires Reachable(s)
    ensures LiveInv(s.requests, s.live)
  {
    ReachableInv(s);
  }

  /** A refused call of `cancel` or `confirm` leaves the state as it was. */
  lemma RefusedIsUnchanged(s: State, i: nat, m: Move)
    requires i < |s.requests|
    requires if m.CancelCall? then !CancelAnswer(s.requests[i]) else m.ConfirmCall? && !ConfirmAnswer(s.requests[i])
    ensures Acted(s, i, m) == s
  {
    var r := s.requests[i];
    assert Moved(r, i, m, s.world) == r && Events(r, i, m, s.world) == [];
    assert s.requests[i := r] == s.requests && s.log + [] == s.log;
  }

  /** Every request object except possibly number `but` is as `rs` says. */
  ghost predicate Mirrors(objects: seq<RuntimeRequest>, rs: seq<Request>, but: int)
    reads objects
  {
    && |objects| == |rs|
    && (forall i | 0 <= i < |objects| :: objects[i].id == i)
    && (forall i | 0 <= i < |objects| && i != but :: objects[i].View() == rs[i])
  }

  lemma MirrorsOneMore(objects: seq<RuntimeRequest>, rs: seq<Request>, request: RuntimeRequest)
    requires Mirrors(objects, rs, -1) && request.id == |objects|
    ensures Mirrors(objects + [request], rs + [request.View()], -1)
  {}

  class Runtime {
    const hasAdapter: bool
    const hasGuard: bool
    var handlers: map<string, Mode>
    var requests: map<nat, RuntimeRequest>
    var terminalRequests: map<nat, Entry>
    var terminalRequestOrder: seq<nat>
    var idempotencyCache: map<string, CommandResult>
    var idempotencyInFlight: map<string, RuntimeRequest>
    var mutationTail: Option<RuntimeRequest>
    var projectRevision: int
    var requestCounter: nat
    // what the runtime reads of the project store
    var owner: Owner
    var authoritative: bool

    ghost var created: seq<RuntimeRequest>
    ghost var model: State

    ghost predicate Knows(r: RuntimeRequest)
      reads this`created
    {
      r.id < |created| && created[r.id] == r
    }

    ghost predicate MirrorsRequests(rs: seq<Request>, but: int)
      reads this`created, this`requestCounter, created
    {
      requestCounter == |created| && Mirrors(created, rs, but)
    }

    ghost predicate MirrorsMaps(live: set<nat>, archive: Archive)
      reads this`created, this`requests, this`terminalRequests, this`terminalRequestOrder
    {
      && requests.Keys == live
      && (forall i | i in requests :: requests[i].id == i && Knows(requests[i]))
      && terminalRequests == archive.entries && terminalRequestOrder == archive.order
    }

    ghost predicate MirrorsFlight(inFlight: map<string, nat>)
      reads this`created, this`idempotencyInFlight
    {
      && idempotencyInFlight.Keys == inFlight.Keys
      && forall k | k in idempotencyInFlight :: idempotencyInFlight[k].id == inFlight[k]
          && Knows(idempotencyInFlight[k])
    }

    ghost predicate MirrorsTail(tail: Option<nat>)
      reads this`created, this`mutationTail
    {
      match mutationTail
      case None => tail.None?
      case Some(last) => tail == Some(last.id) && Knows(last)
    }

    ghost predicate MirrorsWorld(t: State)
      reads this`handlers, this`projectRevision, this`owner, this`authoritative
    {
      && t.handlers == handlers
      && t.cfg.hasAdapter == hasAdapter && t.cfg.hasGuard == hasGuard
      && t.world == World(projectRevision, owner, authoritative)
    }

    /** Everything but the request objects and where they are kept. */
    ghost predicate MirrorsRest(t: State)
      reads this`created, this`idempotencyCache, this`idempotencyInFlight, this`mutationTail,
            this`handlers, this`projectRevision, this`owner, this`authoritative
    {
      MirrorsWorld(t) && MirrorsTail(t.tail) && MirrorsFlight(t.inFlight) && idempotencyCache == t.cache
    }

    ghost predicate Valid()
      reads this, created
    {
      MirrorsRequests(model.requests, -1) && MirrorsMaps(model.live, model.archive) && MirrorsRest(model)
          && Reachable(model)
    }

    constructor (initialRevision: int, hasAdapter: bool, hasGuard: bool, owner: Owner)
      ensures Valid() && model == Init(Config(initialRevision, hasAdapter, hasGuard), owner)
    {
      this.hasAdapter, this.hasGuard := hasAdapter, hasGuard;
      handlers, requests, terminalRequests, terminalRequestOrder := map[], map[], map[], [];
      idempotencyCache, idempotencyInFlight, mutationTail := map[], map[], None;
      projectRevision, requestCounter, this.owner, authoritative := initialRevision, 0, owner, false;
      created := [];
      model := Init(Config(initialRevision, hasAdapter, hasGuard), owner);
      new;
      ReachableInit(Config(initialRevision, hasAdapter, hasGuard), owner);
    }

    /** archiveSettledRequest */
    method ArchiveSettledRequest(r: RuntimeRequest, ghost history: seq<Entry>)
      modifies this`requests, this`terminalRequests, this`terminalRequestOrder
      ensures requests == old(requests) - {r.id}
      ensures Archive(terminalRequests, terminalRequestOrder, history + [EntryOf(r.id, r.View())])
              == Archived(Archive(old(terminalRequests), old(terminalRequestOrder), history), EntryOf(r.id, r.View()))
    {
      requests := requests - {r.id};
      if r.id !in terminalRequests {
        terminalRequestOrder := terminalRequestOrder + [r.id];
      }
      var entry := Entry(r.id, r.command.kind, r.status, ViewActor(r.actor), r.stage, r.message, r.percent);
      terminalRequests := terminalRequests[r.id := entry];
      ghost var h := history + [entry];
      ghost var grown := Archive(terminalRequests, terminalRequestOrder, h);
      while |terminalRequestOrder| > RECENT_TERMINAL_REQUEST_LIMIT
        invariant requests == old(requests) - {r.id}
        invariant Evicted(Archive(terminalRequests, terminalRequestOrder, h)) == Evicted(grown)
      {
        var evicted := terminalRequestOrder[0];
        terminalRequestOrder := terminalRequestOrder[1..];
        terminalRequests := terminalRequests - {evicted};
      }
    }

    /** A request that the step settled goes from the live map to the archive. */
    method ArchiveIfSettled(r: RuntimeRequest, wasSettled: bool, ghost live: set<nat>, ghost archive: Archive)
      requires MirrorsMaps(live, archive)
      modifies this`requests, this`terminalRequests, this`terminalRequestOrder
      ensures var settles := !wasSettled && r.outcome.Some?;
              MirrorsMaps(if settles then live - {r.id} else live,
                          if settles then Archived(archive, EntryOf(r.id, r.View())) else archive)
    {
      if !wasSettled && r.outcome.Some? {
        assert Archive(archive.entries, archive.order, archive.history) == archive;
        ArchiveSettledRequest(r, archive.history);
      }
    }

    /** With the moved request installed, no request object is left behind. */
    lemma CaughtUp(r: RuntimeRequest, rs: seq<Request>)
      requires Knows(r) && MirrorsRequests(rs, r.id)
      ensures MirrorsRequests(rs[r.id := r.View()], -1)
    {}

    /** The end of every step: the maps catch up with the request. */
    method Finish(r: RuntimeRequest, wasSettled: bool, ghost s: State, ghost t: State)
      requires MirrorsRequests(t.requests, -1) && MirrorsMaps(s.live, s.archive) && MirrorsRest(t)
      requires var settles := !wasSettled && r.outcome.Some?;
               && t.live == (if settles then s.live - {r.id} else s.live)
               && t.archive == (if settles then Archived(s.archive, EntryOf(r.id, r.View())) else s.archive)
      modifies this`requests, this`terminalRequests, this`terminalRequestOrder
      ensures MirrorsRequests(t.requests, -1) && MirrorsMaps(t.live, t.archive) && MirrorsRest(t)
    {
      ArchiveIfSettled(r, wasSettled, s.live, s.archive);
    }

    /** The fields are as `t` says; the model follows. */
    ghost method CatchUp(t: State)
      requires MirrorsRequests(t.requests, -1) && MirrorsMaps(t.live, t.archive) && MirrorsRest(t) && Reachable(t)
      modifies this`model
      ensures Valid() && model == t
    {
      model := t;
    }

    /** A step that touches neither the tables nor the revision, after its request object has moved. */
    method Advance(r: RuntimeRequest, wasSettled: bool, ghost m: Move)
      requires Knows(r) && Reachable(model) && Enabled(model, Act(r.id, m))
      requires !m.HandlerReturns? && !m.StoreContinues? && !m.CleanupContinues?
      requires r.View() == Moved(model.requests[r.id], r.id, m, model.world)
      requires wasSettled == model.requests[r.id].Settled()
      requires MirrorsRequests(model.requests, r.id) && MirrorsMaps(model.live, model.archive) && MirrorsRest(model)
      modifies this`requests, this`terminalRequests, this`terminalRequestOrder, this`model
      ensures Valid() && model == Apply(old(model), Act(r.id, m))
    {
      ghost var t := ModelStep(model, r.id, m, r.View());
      CaughtUp(r, model.requests);
      Finish(r, wasSettled, model, t);
      CatchUp(t);
    }

    /** `runRequest` starts: it returns at once for a request that was cancelled in the queue. */
    method BeginRun(r: RuntimeRequest)
      requires Valid() && Knows(r) && Enabled(model, Act(r.id, Begin))
      modifies this, r
      ensures Valid() && created == old(created) && model == Apply(old(model), Act(r.id, Begin))
    {
      var wasSettled := r.outcome.Some?;
      r.point := if r.outcome.Some? || r.status == Cancelled then Ended else AtPolicy;
      Advance(r, wasSettled, Begin);
    }

    method ContinueAfterPolicy(r: RuntimeRequest, branch: Branch)
      requires Valid() && Knows(r) && Enabled(model, Act(r.id, PolicyContinues(branch)))
      modifies this, r
      ensures Valid() && created == old(created) && model == Apply(old(model), Act(r.id, PolicyContinues(branch)))
    {
      var wasSettled := r.outcome.Some?;
      r.PolicyAnswered(branch, projectRevision, owner, model.world);
      Advance(r, wasSettled, PolicyContinues(branch));
    }

    method ContinueAfterConfirmation(r: RuntimeRequest, branch: Branch)
      requires Valid() && Knows(r) && Enabled(model, Act(r.id, ConfirmationContinues(branch)))
      modifies this, r
      ensures Valid() && created == old(created) && model == Apply(old(model), Act(r.id, ConfirmationContinues(branch)))
    {
      var wasSettled := r.outcome.Some?;
      r.ConfirmationAnswered(branch, projectRevision, owner, model.world);
      Advance(r, wasSettled, ConfirmationContinues(branch));
    }

    /** The policy's promise settles. */
    method PolicySettled(r: RuntimeRequest, policy: Policy)
      requires Valid() && Knows(r) && Enabled(model, Act(r.id, PolicySettles(policy)))
      modifies this, r
      ensures Valid() && created == old(created) && model == Apply(old(model), Act(r.id, PolicySettles(policy)))
    {
      var wasSettled := r.outcome.Some?;
      r.policy := policy;
      Advance(r, wasSettled, PolicySettles(policy));
    }

    method CancelLive(request: RuntimeRequest) returns (cancelled: bool)
      requires Valid() && Knows(request) && request.outcome.None?
      modifies this, request
      ensures Valid() && created == old(created) && model == Apply(old(model), Act(request.id, CancelCall))
      ensures cancelled == CancelAnswer(old(request.View()))
    {
      cancelled := request.CancelFound(model.world);
      Advance(request, false, CancelCall);
    }

    /** `cancel`; an id that is not in the live map is refused. */
    method Cancel(id: nat) returns (cancelled: bool)
      requires Valid()
      modifies this, if id in requests then {requests[id]} else {}
      ensures Valid() && created == old(created)
      ensures if id < |created|
              then model == Apply(old(model), Act(id, CancelCall)) && cancelled == CancelAnswer(old(model).requests[id])
              else model == old(model) && !cancelled
    {
      LiveIsUnsettled(model);
      if id in requests {
        cancelled := CancelLive(requests[id]);
      } else {
        if id < |created| { RefusedIsUnchanged(model, id, CancelCall); }
        cancelled := false;
      }
    }

    method ConfirmLive(request: RuntimeRequest, allow: bool)
      requires Valid() && Knows(request) && ConfirmAnswer(request.View())
      modifies this, request
      ensures Valid() && created == old(created) && model == Apply(old(model), Act(request.id, ConfirmCall(allow)))
    {
      request.ConfirmFound(allow, model.world);
      Advance(request, false, ConfirmCall(allow));
    }

    /** `confirm` */
    method Confirm(id: nat, allow: bool) returns (accepted: bool)
      requires Valid()
      modifies this, if id in requests then {requests[id]} else {}
      ensures Valid() && created == old(created)
      ensures if id < |created|
              then model == Apply(old(model), Act(id, ConfirmCall(allow)))
                  && accepted == ConfirmAnswer(old(model).requests[id])
              else model == old(model) && !accepted
    {
      LiveIsUnsettled(model);
      if id !in requests || requests[id].outcome.Some? || requests[id].status != AwaitingConfirmation {
        if id < |created| { RefusedIsUnchanged(model, id, ConfirmCall(allow)); }
        return false;
      }
      ConfirmLive(requests[id], allow);
      return true;
    }

    method ReportProgress(r: RuntimeRequest, stage: string, message: Option<string>, percent: Option<real>)
      requires Valid() && Knows(r) && r.entered
      modifies this, r
      ensures Valid() && created == old(created)
              && model == Apply(old(model), Act(r.id, ProgressCall(stage, message, percent)))
    {
      var wasSettled := r.outcome.Some?;
      r.ReportProgress(stage, message, percent, model.world);
      Advance(r, wasSettled, ProgressCall(stage, message, percent));
    }

    method BeginCommit(r: RuntimeRequest) returns (thrown: Option<Thrown>)
      requires Valid() && Knows(r) && r.entered
      modifies this, r
      ensures Valid() && created == old(created) && model == Apply(old(model), Act(r.id, CommitCall))
      ensures thrown == if CommitAccepted(old(r.View()), old(model).world) then None
                        else Some(CommandError(CancelledError))
    {
      var wasSettled := r.outcome.Some?;
      thrown := r.BeginCommit(owner, model.world);
      Advance(r, wasSettled, CommitCall);
    }

    /** The handler of table.exportCsv has inspected its target; `exported` says that it goes on to export. */
    method ExportTargetInspected(r: RuntimeRequest, targetExists: bool) returns (exported: bool)
      requires Valid() && Knows(r) && Enabled(model, Act(r.id, CsvInspected(targetExists)))
      modifies this, r
      ensures Valid() && created == old(created) && model == Apply(old(model), Act(r.id, CsvInspected(targetExists)))
      ensures exported <==> !targetExists || old(r.confirmationGranted)
    {
      var wasSettled := r.outcome.Some?;
      exported := r.InspectedTarget(targetExists, model.world);
      Advance(r, wasSettled, CsvInspected(targetExists));
    }

    method HandlerThrew(r: RuntimeRequest, thrown: Thrown)
      requires Valid() && Knows(r) && Enabled(model, Act(r.id, HandlerThrows(thrown)))
      modifies this, r
      ensures Valid() && created == old(created) && model == Apply(old(model), Act(r.id, HandlerThrows(thrown)))
    {
      var wasSettled := r.outcome.Some?;
      r.Catch(thrown);
      Advance(r, wasSettled, HandlerThrows(thrown));
    }

    /** The revision has been written back; the model follows. */
    method AdvanceReturned(r: RuntimeRequest, ghost m: Move)
      requires Knows(r) && Reachable(model) && Enabled(model, Act(r.id, m)) && m.HandlerReturns?
      requires r.View() == Moved(model.requests[r.id], r.id, m, model.world)
      requires !model.requests[r.id].Settled() && !model.requests[r.id].bumped
      requires projectRevision == model.world.revision + (if r.bumped then 1 else 0)
      requires MirrorsRequests(model.requests, r.id) && MirrorsMaps(model.live, model.archive)
      requires MirrorsRest(model.(world := model.world.(revision := projectRevision)))
      modifies this`requests, this`terminalRequests, this`terminalRequestOrder, this`model
      ensures Valid() && model == Apply(old(model), Act(r.id, m))
    {
      ghost var t := ModelStep(model, r.id, m, r.View());
      CaughtUp(r, model.requests);
      Finish(r, false, model, t);
      CatchUp(t);
    }

    lemma RunningIsUnsettled(i: nat)
      requires Reachable(model) && i < |model.requests| && model.requests[i].point == InHandler
      ensures !model.requests[i].Settled() && !model.requests[i].bumped
    {
      ReachableInv(model);
      assert RequestInv(model.requests[i]);
    }

    /** The handler's promise has resolved; the maps are still to follow. */
    method ReturnedOn(r: RuntimeRequest, changed: bool, data: string, warnings: seq<string>, ghost s: State)
      requires MirrorsRequests(s.requests, -1) && MirrorsMaps(s.live, s.archive) && MirrorsWorld(s)
      requires Knows(r) && r.id < |s.requests| && !s.requests[r.id].bumped
      modifies this`projectRevision, r
      ensures r.View() == Moved(s.requests[r.id], r.id, HandlerReturns(changed, data, warnings), s.world)
      ensures projectRevision == s.world.revision + (if r.bumped then 1 else 0)
      ensures !old(r.aborted && !r.committed) ==>
                r.outcome ==
                  Some(Resolved(CommandResult(r.id, r.command.kind, changed, projectRevision, data, warnings)))
      ensures MirrorsRequests(s.requests, r.id) && MirrorsMaps(s.live, s.archive)
      ensures MirrorsWorld(s.(world := s.world.(revision := projectRevision)))
    {
      assert r.View() == s.requests[r.id];
      projectRevision := r.Returned(changed, data, warnings, projectRevision, authoritative, s.world);
    }

    method HandlerReturned(r: RuntimeRequest, changed: bool, data: string, warnings: seq<string>)
      requires Valid() && Knows(r) && Enabled(model, Act(r.id, HandlerReturns(changed, data, warnings)))
      modifies this, r
      ensures Valid() && created == old(created)
              && model == Apply(old(model), Act(r.id, HandlerReturns(changed, data, warnings)))
    {
      RunningIsUnsettled(r.id);
      ReturnedOn(r, changed, data, warnings, model);
      AdvanceReturned(r, HandlerReturns(changed, data, warnings));
    }

    /** The result of a keyed promise has entered the cache; the model follows. */
    method AdvanceStored(r: RuntimeRequest)
      requires Knows(r) && Reachable(model) && Enabled(model, Act(r.id, StoreContinues))
      requires r.View() == model.requests[r.id].(follow := Stored)
      requires MirrorsRequests(model.requests, r.id) && MirrorsMaps(model.live, model.archive)
      requires MirrorsWorld(model) && MirrorsTail(model.tail) && MirrorsFlight(model.inFlight)
      requires idempotencyCache ==
              model.cache[model.requests[r.id].key.value := model.requests[r.id].outcome.value.result]
      modifies this`requests, this`terminalRequests, this`terminalRequestOrder, this`model
      ensures Valid() && model == Apply(old(model), Act(r.id, StoreContinues))
    {
      ghost var t := ModelStep(model, r.id, StoreContinues, r.View());
      CaughtUp(r, model.requests);
      Finish(r, true, model, t);
      CatchUp(t);
    }

    /** A keyed promise is no longer in flight; the model follows. */
    method AdvanceCleaned(r: RuntimeRequest)
      requires Knows(r) && Reachable(model) && Enabled(model, Act(r.id, CleanupContinues))
      requires r.View() == model.requests[r.id].(follow := Cleaned)
      requires MirrorsRequests(model.requests, r.id) && MirrorsMaps(model.live, model.archive)
      requires MirrorsWorld(model) && MirrorsTail(model.tail) && idempotencyCache == model.cache
      requires MirrorsFlight(model.inFlight - {model.requests[r.id].key.value})
      modifies this`requests, this`terminalRequests, this`terminalRequestOrder, this`model
      ensures Valid() && model == Apply(old(model), Act(r.id, CleanupContinues))
    {
      ghost var t := ModelStep(model, r.id, CleanupContinues, r.View());
      CaughtUp(r, model.requests);
      Finish(r, true, model, t);
      CatchUp(t);
    }

    /** A continuation of a keyed promise has run; the tables are still to follow. */
    method FollowOn(r: RuntimeRequest, follow: FollowUp, ghost s: State)
      requires MirrorsRequests(s.requests, -1) && MirrorsMaps(s.live, s.archive) && Knows(r)
      modifies r
      ensures r.id < |s.requests| && r.View() == s.requests[r.id].(follow := follow)
      ensures MirrorsRequests(s.requests, r.id) && MirrorsMaps(s.live, s.archive)
    {
      r.Follow(follow);
    }

    /** The first continuation of a keyed promise that resolved: its result enters the cache. */
    method StoreResult(r: RuntimeRequest)
      requires Valid() && Knows(r) && Enabled(model, Act(r.id, StoreContinues))
      modifies this, r
      ensures Valid() && created == old(created) && model == Apply(old(model), Act(r.id, StoreContinues))
    {
      StoreOwn(r, model, model.requests[r.id]);
      AdvanceStored(r);
    }

    /** `idempotencyInFlight.delete`, if the entry is still this promise. */
    method DropInFlight(r: RuntimeRequest, ghost own: Request, ghost inFlight: map<string, nat>)
      requires MirrorsFlight(inFlight) && Knows(r) && r.key == own.key && own.key.Some?
      requires own.key.value in inFlight && inFlight[own.key.value] == r.id
      modifies this`idempotencyInFlight
      ensures MirrorsFlight(inFlight - {own.key.value})
    {
      var key := r.key.value;
      if key in idempotencyInFlight && idempotencyInFlight[key] == r {
        idempotencyInFlight := idempotencyInFlight - {key};
      }
    }

    method EnterInFlight(key: Option<string>, r: RuntimeRequest, ghost inFlight: map<string, nat>)
      requires MirrorsFlight(inFlight) && Knows(r)
      modifies this`idempotencyInFlight
      ensures MirrorsFlight(if key.Some? then inFlight[key.value := r.id] else inFlight)
    {
      if key.Some? { idempotencyInFlight := idempotencyInFlight[key.value := r]; }
    }

    /** The cleanup finds its own promise in flight. */
    method DropOwn(r: RuntimeRequest, ghost s: State, ghost own: Request)
      requires MirrorsRequests(s.requests, -1) && MirrorsMaps(s.live, s.archive) && MirrorsFlight(s.inFlight)
      requires Knows(r) && r.id < |s.requests| && own == s.requests[r.id] && r.key == own.key && own.key.Some?
      requires own.key.value in s.inFlight && s.inFlight[own.key.value] == r.id
      modifies this`idempotencyInFlight, r
      ensures r.View() == own.(follow := Cleaned)
      ensures MirrorsRequests(s.requests, r.id) && MirrorsMaps(s.live, s.archive)
      ensures MirrorsFlight(s.inFlight - {own.key.value})
    {
      DropInFlight(r, own, s.inFlight);
      FollowOn(r, Cleaned, s);
    }

    method StoreOwn(r: RuntimeRequest, ghost s: State, ghost own: Request)
      requires MirrorsRequests(s.requests, -1) && MirrorsMaps(s.live, s.archive) && idempotencyCache == s.cache
      requires Knows(r) && r.id < |s.requests| && own == s.requests[r.id] && own.key.Some? && HasSucceeded(own)
      modifies this`idempotencyCache, r
      ensures r.View() == own.(follow := Stored)
      ensures MirrorsRequests(s.requests, r.id) && MirrorsMaps(s.live, s.archive)
      ensures idempotencyCache == s.cache[own.key.value := own.outcome.value.result]
    {
      assert r.key == r.View().key == own.key && r.outcome == r.View().outcome == own.outcome;
      idempotencyCache := idempotencyCache[r.key.value := r.outcome.value.result];
      FollowOn(r, Stored, s);
    }

    /** The last continuation of a keyed promise: the in-flight entry goes, if it is still this promise. */
    method CleanUp(r: RuntimeRequest)
      requires Valid() && Knows(r) && Enabled(model, Act(r.id, CleanupContinues))
      modifies this, r
      ensures Valid() && created == old(created) && model == Apply(old(model), Act(r.id, CleanupContinues))
    {
      CleanupFindsItself(model, r.id);
      assert r.key == r.View().key;
      DropOwn(r, model, model.requests[r.id]);
      AdvanceCleaned(r);
    }

    method Register(kind: string, mode: Mode)
      requires Valid()
      modifies this
      ensures Valid() && created == old(created) && model == Apply(old(model), CommandProtocol.Register(kind, mode))
    {
      ghost var s := model;
      handlers := handlers[kind := mode];
      model := Apply(s, CommandProtocol.Register(kind, mode));
      ReachableStep(s, CommandProtocol.Register(kind, mode));
    }

    method SetStore(revision: int, owner: Owner, authoritative: bool, ghost s: State, ghost t: State)
      requires MirrorsRest(s) && t.world == World(revision, owner, authoritative)
      requires t.cfg == s.cfg && t.handlers == s.handlers && t.cache == s.cache && t.inFlight == s.inFlight
              && t.tail == s.tail
      modifies this`projectRevision, this`owner, this`authoritative
      ensures MirrorsRest(t)
    {
      projectRevision, this.owner, this.authoritative := revision, owner, authoritative;
    }

    /** The project store changes: another project, another persistence owner, a revision written from outside. */
    method StoreChanged(revision: int, owner: Owner, authoritative: bool)
      requires Valid() && Enabled(model, Outside(World(revision, owner, authoritative)))
      modifies this
      ensures Valid() && created == old(created)
              && model == Apply(old(model), Outside(World(revision, owner, authoritative)))
    {
      ghost var t := OutsideParts(model, World(revision, owner, authoritative));
      SetStore(revision, owner, authoritative, model, t);
      CatchUp(t);
    }

    /** A new request gets its number; what is known of the others outlives that. */
    method AddCreated(request: RuntimeRequest, ghost s: State, ghost rs: seq<Request>)
      requires MirrorsMaps(s.live, s.archive) && MirrorsRest(s)
      requires requestCounter == |created| && Mirrors(created + [request], rs, -1)
      modifies this`created, this`requestCounter
      ensures created == old(created) + [request] && MirrorsRequests(rs, -1)
      ensures MirrorsMaps(s.live, s.archive) && MirrorsRest(s)
    {
      requestCounter := requestCounter + 1;
      created := created + [request];
    }

    /** A new request enters the live map. */
    method AddLive(request: RuntimeRequest, ghost live: set<nat>, ghost archive: Archive)
      requires MirrorsMaps(live, archive) && Knows(request)
      modifies this`requests
      ensures MirrorsMaps(live + {request.id}, archive)
    {
      requests := requests[request.id := request];
    }

    /** A new request ends the queue, and is in flight under its key. */
    method AddPromise(request: RuntimeRequest, ghost s: State, ghost t: State)
      requires MirrorsRest(s) && Knows(request)
      requires t.inFlight == if request.key.Some? then s.inFlight[request.key.value := request.id] else s.inFlight
      requires t.cfg == s.cfg && t.handlers == s.handlers && t.world == s.world && t.cache == s.cache
              && t.tail == Some(request.id)
      modifies this`mutationTail, this`idempotencyInFlight
      ensures MirrorsRest(t)
    {
      mutationTail := Some(request);
      EnterInFlight(request.key, request, s.inFlight);
    }

    method AddEntries(request: RuntimeRequest, ghost s: State, ghost t: State)
      requires MirrorsMaps(s.live, s.archive) && MirrorsRest(s) && Knows(request)
      requires t.live == s.live + {request.id} && t.archive == s.archive
      requires t.inFlight == if request.key.Some? then s.inFlight[request.key.value := request.id] else s.inFlight
      requires t.cfg == s.cfg && t.handlers == s.handlers && t.world == s.world && t.cache == s.cache
              && t.tail == Some(request.id)
      modifies this`requests, this`mutationTail, this`idempotencyInFlight
      ensures MirrorsMaps(t.live, t.archive) && MirrorsRest(t)
    {
      AddLive(request, s.live, s.archive);
      AddPromise(request, s, t);
    }

    /** All the entries that `execute` makes for a new request. */
    method Place(request: RuntimeRequest, ghost s: State, ghost t: State)
      requires requestCounter == |created| && Mirrors(created + [request], t.requests, -1)
      requires MirrorsMaps(s.live, s.archive) && MirrorsRest(s) && request.id == |created|
      requires t.live == s.live + {request.id} && t.archive == s.archive
      requires t.inFlight == if request.key.Some? then s.inFlight[request.key.value := request.id] else s.inFlight
      requires t.cfg == s.cfg && t.handlers == s.handlers && t.world == s.world && t.cache == s.cache
              && t.tail == Some(request.id)
      modifies this`created, this`requestCounter, this`requests, this`mutationTail, this`idempotencyInFlight
      ensures MirrorsRequests(t.requests, -1) && MirrorsMaps(t.live, t.archive) && MirrorsRest(t)
      ensures created == old(created) + [request]
    {
      AddCreated(request, s, t.requests);
      AddEntries(request, s, t);
    }

    /** The request object, with the owner and the end of the queue as they are now. */
    method NewObject(c: Command, actor: Actor, key: Option<string>) returns (request: RuntimeRequest)
      requires MirrorsRest(model) && requestCounter == |model.requests| && c.kind in model.handlers
      requires key == BuildKey(actor, c.kind, c.idempotencyKey)
      ensures fresh(request) && request.id == requestCounter && request.key == key
              && request.View() == NewRequest(model, c, actor)
    {
      var mode := handlers[c.kind];
      var guard := if mode == Mutation && hasGuard then Some(owner) else None;
      var link := match mutationTail case None => None case Some(last) => Some(last.id);
      request := new RuntimeRequest(requestCounter, c, actor, mode, key, guard, link);
    }

    /** `createRequest` for a command that is neither cached nor in flight. */
    method Admit(c: Command, actor: Actor, key: Option<string>) returns (request: RuntimeRequest)
      requires Valid() && TicketFor(model, c, actor).Fresh? && key == BuildKey(actor, c.kind, c.idempotencyKey)
      modifies this
      ensures Valid() && fresh(request) && created == old(created) + [request] && request.id == |old(created)|
      ensures model == Apply(old(model), Submit(c, actor, false))
    {
      request := NewObject(c, actor, key);
      ghost var t := AdmittedParts(model, c, actor);
      MirrorsOneMore(created, model.requests, request);
      Place(request, model, t);
      CatchUp(t);
    }

    method ExecuteFresh(c: Command, actor: Actor, key: Option<string>, signalAborted: bool)
      returns (request: RuntimeRequest)
      requires Valid() && TicketFor(model, c, actor).Fresh? && key == BuildKey(actor, c.kind, c.idempotencyKey)
      modifies this
      ensures Valid() && Knows(request) && request.id == |old(created)|
      ensures model == Apply(old(model), Submit(c, actor, signalAborted))
    {
      request := Admit(c, actor, key);
      if signalAborted {
        var _ := CancelLive(request);
      }
    }

    /**
     `execute`. A command that was run before, or is running, under the same key gets that promise or result. A
     request whose abort signal is already raised is cancelled before its run can start.
     */
    method Execute(c: Command, actor: Actor, signalAborted: bool) returns (ticket: Ticket, promise: RuntimeRequest?)
      requires Valid()
      modifies this
      ensures Valid() && ticket == TicketFor(old(model), c, actor)
      ensures model == Apply(old(model), Submit(c, actor, signalAborted))
      ensures ticket.Joined? || ticket.Fresh? ==> promise != null && promise.id == ticket.id && Knows(promise)
    {
      promise := null;
      if c.kind !in handlers { return Unknown, null; }
      var key := BuildKey(actor, c.kind, c.idempotencyKey);
      if key.Some? {
        if key.value in idempotencyCache { return Cached(idempotencyCache[key.value]), null; }
        if key.value in idempotencyInFlight {
          promise := idempotencyInFlight[key.value];
          return Joined(promise.id), promise;
        }
      }
      promise := ExecuteFresh(c, actor, key, signalAborted);
      ticket := Fresh(promise.id);
    }

    /** `snapshot()` */
    method Snapshot() returns (list: seq<Entry>)
      requires Valid()
      ensures list == SnapshotOf(model)
    {
      list := [];
      for k := 0 to |terminalRequestOrder|
        invariant list + RetainedEntries(terminalRequests, terminalRequestOrder[k..]) ==
                  RetainedEntries(terminalRequests, terminalRequestOrder)
      {
        var id := terminalRequestOrder[k];
        assert terminalRequestOrder[k..][1..] == terminalRequestOrder[k + 1..];
        if id in terminalRequests { list := list + [terminalRequests[id]]; }
      }
      ghost var retained := list;
      assert terminalRequestOrder[|terminalRequestOrder|..] == [];
      assert retained == RetainedEntries(model.archive.entries, model.archive.order);
      for i := 0 to requestCounter
        invariant list + LiveEntries(model.requests, model.live, i) ==
                  retained + LiveEntries(model.requests, model.live, 0)
      {
        if i in requests {
          var r := requests[i];
          list := list + [Entry(i, r.command.kind, r.status, ViewActor(r.actor), r.stage, r.message, r.percent)];
        }
      }
    }
  }
}
