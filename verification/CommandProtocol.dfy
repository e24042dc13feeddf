/**
 The command runtime as a step system over values.

 The code blocks that the runtime runs between two `await`s are the atomic steps. What a step does to
 the one request it concerns is `Moved`; `Put` installs the moved request and archives it when the
 step settled its promise. The classes of module CommandRuntime run the same steps in place.
 */
module CommandProtocol {
  import opened Common

  datatype Actor = Ui | Mcp(sessionId: string, clientId: Option<string>)

  datatype Mode = Mutation | Read

  datatype Status = Queued | AwaitingConfirmation | Running | Committing | Succeeded | Failed | Cancelled
  {
    predicate Terminal() { Succeeded? || Failed? || Cancelled? }
  }

  datatype ErrorCode = CancelledError | UserDenied | RevisionConflict | ExecutionFailed
                     | ConfirmationRequired | OtherCode(name: string)

  /** What a handler, the policy or a guard throws: a CommandExecutionError or anything else. */
  datatype Thrown = CommandError(code: ErrorCode) | ForeignError

  datatype TargetStatus = CreateNew | OverwriteExisting

  /** `target` is what the policy found out about an export's target, the `targetStatus` of its `trustedData`. */
  datatype Decision = Decision(allowed: bool, requireConfirmation: bool, target: Option<TargetStatus>)

  /** The promise of the policy's decision. */
  datatype Policy = Evaluating | Decided(decision: Decision) | PolicyFailed

  /** The policy allows the command, with or without a confirmation. */
  predicate Permits(p: Policy, confirmed: bool) {
    p.Decided? && p.decision.allowed && p.decision.requireConfirmation == confirmed
  }

  /** The part of the project store that the mutation guard compares. */
  datatype Owner = Owner(persistence: Option<nat>, project: Option<nat>)

  /** A submitted command; `input` holds the string-valued properties of its input object. */
  datatype Command = Command(kind: string, input: map<string, string>, expected: Option<int>,
      idempotencyKey: Option<string>)

  datatype CommandResult = CommandResult(request: nat, kind: string, changed: bool, projectRevision: int,
                                         data: string, warnings: seq<string>)

  /** How a request's promise settled. */
  datatype Outcome = Resolved(result: CommandResult) | Rejected(code: ErrorCode)

  /** Where the `runRequest` of a request stands. */
  datatype Point = Waiting | AtPolicy | AtConfirmation | InHandler | Ended

  /** How far the continuations that `execute` hangs on the promise have come. */
  datatype FollowUp = Pending | Stored | Cleaned

  /** One RuntimeRequest object together with the locals of its `runRequest` and its promises. */
  datatype Request = Request(
    command: Command,
    actor: Actor,
    mode: Mode,
    key: Option<string>,           // the key built from actor, command and idempotency key
    guard: Option<Owner>,          // assertOwner: the owner captured at submission
    waitsOn: Option<nat>,          // the link of mutationTail its run is chained to
    status: Status,
    stage: string,
    message: Option<string>,
    percent: Option<real>,
    aborted: bool,                 // controller.signal.aborted
    cancelSignalled: bool,         // cancellationSignal has resolved
    confirmation: Option<bool>,    // confirmationSignal has resolved, and to what
    policy: Policy,
    committed: bool,
    granted: bool,                 // confirmationGranted, as passed to the handler
    entered: bool,                 // the handler has been called
    inspected: bool,               // the CSV export handler has passed its own inspection
    point: Point,
    outcome: Option<Outcome>,      // settled, and how
    bumped: bool,                  // settling it advanced the project revision
    follow: FollowUp)
  {
    predicate Settled() { outcome.Some? }
  }

  predicate HasSucceeded(r: Request) {
    r.outcome.Some? && r.outcome.value.Resolved?
  }

  /** What `snapshot()` tells about a request; the session id of an MCP actor is dropped. */
  datatype ActorView = UiView | McpView(clientId: Option<string>)
  datatype Entry = Entry(id: nat, kind: string, status: Status, actor: ActorView, stage: string,
                         message: Option<string>, percent: Option<real>)

  const RECENT_TERMINAL_REQUEST_LIMIT := 32
  const CSV_EXPORT := "table.exportCsv"

  /** The terminal archive; `history` is the list of all settlements so far. */
  datatype Archive = Archive(entries: map<nat, Entry>, order: seq<nat>, history: seq<Entry>)

  /** What a run did that later properties speak about. */
  datatype Event =
    | Submitted(id: nat, owner: Owner)
    | HandlerEntered(id: nat, owner: Owner)
    | CommitBegan(id: nat, owner: Owner)
    | Exported(id: nat, targetExists: bool, overwriteConfirmed: bool)

  datatype Config = Config(initialRevision: int, hasAdapter: bool, hasGuard: bool)

  /** The state outside the runtime that its steps read. */
  datatype World = World(revision: int, owner: Owner, authoritative: bool)

  /** Request number n of `requests` has the id "cmd-(n+1)"; `live` are the keys of the Map `requests`. */
  datatype State = State(
    cfg: Config,
    handlers: map<string, Mode>,
    requests: seq<Request>,
    live: set<nat>,
    archive: Archive,
    cache: map<string, CommandResult>,
    inFlight: map<string, nat>,
    tail: Option<nat>,             // mutationTail: its last link, none for the initial promise
    world: World,
    drift: int,                    // what outside writers added to the revision
    quiet: bool,                   // none has ever written it, or made it authoritative
    log: seq<Event>)

  function Init(cfg: Config, owner: Owner): State {
    State(cfg, map[], [], {}, Archive(map[], [], []), map[], map[], None,
          World(cfg.initialRevision, owner, false), 0, true, [])
  }

  // ---------------------------------------------------------------- one request

  /** `Promise.race` may answer with either branch that has settled. */
  datatype Branch = Answer | Cancellation

  /** What happens to one request in one step. */
  datatype Move =
    | Begin
    | PolicySettles(policy: Policy)
    | PolicyContinues(branch: Branch)
    | ConfirmationContinues(branch: Branch)
    | ConfirmCall(allow: bool)
    | CancelCall
    | ProgressCall(stage: string, message: Option<string>, percent: Option<real>)
    | CommitCall
    | CsvInspected(targetExists: bool)
    | HandlerReturns(changed: bool, data: string, warnings: seq<string>)
    | HandlerThrows(thrown: Thrown)
    | StoreContinues
    | CleanupContinues

  predicate BranchReady(r: Request, branch: Branch, answered: bool) {
    if branch == Cancellation then r.cancelSignalled else answered
  }

  /** The steps a request can take. Calls from outside and late handler callbacks are always possible. */
  predicate CanMove(r: Request, m: Move) {
    match m
    case Begin => r.point == Waiting
    case PolicySettles(p) => r.policy == Evaluating && p != Evaluating
    case PolicyContinues(b) => r.point == AtPolicy && BranchReady(r, b, r.policy != Evaluating)
    case ConfirmationContinues(b) => r.point == AtConfirmation && BranchReady(r, b, r.confirmation.Some?)
    case ConfirmCall(_) => true
    case CancelCall => true
    case ProgressCall(_, _, _) => r.entered
    case CommitCall => r.entered
    case CsvInspected(_) => r.point == InHandler && r.command.kind == CSV_EXPORT && !r.inspected
    case HandlerReturns(_, _, _) => r.point == InHandler && (r.command.kind == CSV_EXPORT ==> r.inspected)
    case HandlerThrows(_) => r.point == InHandler
    case StoreContinues => r.key.Some? && HasSucceeded(r) && r.follow == Pending
    case CleanupContinues => r.key.Some? && r.outcome.Some? && r.follow == (if HasSucceeded(r) then Stored else Pending)
  }

  /** The guard's comparison: the persistence owner, and without one the project itself. */
  predicate GuardHolds(guard: Owner, current: Owner) {
    && current.persistence == guard.persistence
    && (guard.persistence.None? ==> current.project == guard.project)
  }

  predicate OwnerCurrent(r: Request, w: World) {
    r.guard.Some? ==> GuardHolds(r.guard.value, w.owner)
  }

  predicate AbortHeeded(r: Request) {
    r.aborted && !r.committed
  }

  /** `request.reject` or `request.resolve`, after the status has been set. */
  function Settle(r: Request, status: Status, outcome: Outcome): Request {
    r.(status := status, outcome := Some(outcome))
  }

  /** The code a thrown value is reported with: foreign errors of an aborted request count as cancellation. */
  function CodeOf(r: Request, t: Thrown): ErrorCode {
    match t
    case CommandError(code) => code
    case ForeignError => if AbortHeeded(r) then CancelledError else ExecutionFailed
  }

  function SettledBy(r: Request, code: ErrorCode): Request {
    Settle(r, if code == CancelledError then Cancelled else Failed, Rejected(code))
  }

  /** The catch block of `runRequest`, which ends the run. */
  function Caught(r: Request, t: Thrown): Request {
    if r.Settled() then r.(point := Ended) else SettledBy(r.(point := Ended), CodeOf(r, t))
  }

  /** The run takes the request out of the queue: its status says so even on a request already settled. */
  function Runs(r: Request): Request {
    var stage := if r.status == AwaitingConfirmation then "queue" else r.stage;
    r.(status := Running, stage := if stage == "queue" || stage == "confirmation" then "running" else stage)
  }

  predicate RevisionExpected(r: Request, w: World) {
    r.mode == Mutation && r.command.expected.Some? ==> r.command.expected.value == w.revision
  }

  /** From the granted decision to the first instruction of the handler. */
  function Enter(r: Request, granted: bool, w: World): Request {
    if !RevisionExpected(r, w) then Caught(Runs(r), CommandError(RevisionConflict))
    else if AbortHeeded(r) || !OwnerCurrent(r, w) then Caught(Runs(r), CommandError(CancelledError))
    else Runs(r).(point := InHandler, entered := true, granted := granted)
  }

  function AfterPolicy(r: Request, w: World): Request {
    match r.policy
    case PolicyFailed => Caught(r, CommandError(ExecutionFailed))
    case Evaluating => r
    case Decided(decision) =>
      if r.Settled() then r.(point := Ended)
      else if !decision.allowed then Caught(r, CommandError(UserDenied))
      else if decision.requireConfirmation then
        r.(status := AwaitingConfirmation, stage := "confirmation", point := AtConfirmation)
      else Enter(r, false, w)
  }

  /** What `confirm` and `cancel` answer for a request that is live exactly when it is unsettled. */
  predicate ConfirmAnswer(r: Request) {
    !r.Settled() && r.status == AwaitingConfirmation
  }

  predicate CancelAnswer(r: Request) {
    !r.Settled() && !r.status.Terminal() && !r.committed && r.status != Committing
  }

  predicate CommitAccepted(r: Request, w: World) {
    OwnerCurrent(r, w) && !AbortHeeded(r)
  }

  predicate Bumps(r: Request, changed: bool, w: World) {
    r.mode == Mutation && changed && !w.authoritative
  }

  function ResultOf(r: Request, i: nat, changed: bool, data: string, warnings: seq<string>, w: World): CommandResult {
    CommandResult(i, r.command.kind, changed, w.revision + (if Bumps(r, changed, w) then 1 else 0), data, warnings)
  }

  function Moved(r: Request, i: nat, m: Move, w: World): Request {
    match m
    case Begin => if r.Settled() || r.status == Cancelled then r.(point := Ended) else r.(point := AtPolicy)
    case PolicySettles(p) => r.(policy := p)
    case PolicyContinues(b) =>
      if b == Cancellation then Caught(r, CommandError(CancelledError)) else AfterPolicy(r, w)
    case ConfirmationContinues(b) =>
      if b == Cancellation then Caught(r, CommandError(CancelledError))
      else if r.confirmation == Some(false) then Caught(r, CommandError(UserDenied))
      else Enter(r, true, w)
    case ConfirmCall(allow) =>
      if ConfirmAnswer(r) && r.confirmation.None? then r.(confirmation := Some(allow)) else r
    case CancelCall =>
      if !CancelAnswer(r) then r
      else if r.status == Queued || r.status == AwaitingConfirmation
      then SettledBy(r.(aborted := true, cancelSignalled := true), CancelledError)
      else r.(aborted := true, cancelSignalled := true)
    case ProgressCall(stage, message, percent) =>
      if AbortHeeded(r) then r
      else r.(status := Running, stage := stage, message := message, percent := percent)
    case CommitCall =>
      if CommitAccepted(r, w) then r.(committed := true, status := Committing, stage := "commit") else r
    case CsvInspected(found) =>
      if found && !r.granted then Caught(r, CommandError(ConfirmationRequired)) else r.(inspected := true)
    case HandlerReturns(changed, data, warnings) =>
      if AbortHeeded(r) then Caught(r, CommandError(CancelledError))
      else Settle(r.(point := Ended, bumped := Bumps(r, changed, w)), Succeeded,
                  Resolved(ResultOf(r, i, changed, data, warnings, w)))
    case HandlerThrows(thrown) => Caught(r, thrown)
    case StoreContinues => r.(follow := Stored)
    case CleanupContinues => r.(follow := Cleaned)
  }

  /** The history a move leaves behind. */
  function Events(r: Request, i: nat, m: Move, w: World): seq<Event> {
    if m.CommitCall? then (if CommitAccepted(r, w) then [CommitBegan(i, w.owner)] else [])
    else if m.CsvInspected? then (if Moved(r, i, m, w).inspected then [Exported(i, m.targetExists, r.granted)] else [])
    else if !r.entered && Moved(r, i, m, w).entered then [HandlerEntered(i, w.owner)]
    else []
  }

  // ---------------------------------------------------------------- the whole runtime

  function ViewActor(a: Actor): ActorView {
    match a
    case Ui => UiView
    case Mcp(_, clientId) => McpView(clientId)
  }

  function EntryOf(i: nat, r: Request): Entry {
    Entry(i, r.command.kind, r.status, ViewActor(r.actor), r.stage, r.message, r.percent)
  }

  /** The eviction loop: drop the oldest ids until the limit is met. */
  function Evicted(a: Archive): Archive
    decreases |a.order|
  {
    if |a.order| > RECENT_TERMINAL_REQUEST_LIMIT
    then Evicted(a.(order := a.order[1..], entries := a.entries - {a.order[0]}))
    else a
  }

  function Archived(a: Archive, e: Entry): Archive {
    Evicted(Archive(a.entries[e.id := e],
                    if e.id in a.entries then a.order else a.order + [e.id],
                    a.history + [e]))
  }

  /** Install the moved request; if the step settled it, take it off the live map into the archive. */
  function Put(s: State, i: nat, r: Request): State
    requires i < |s.requests|
  {
    var placed := s.(requests := s.requests[i := r]);
    if !s.requests[i].Settled() && r.Settled()
    then placed.(live := s.live - {i}, archive := Archived(s.archive, EntryOf(i, r)))
    else placed
  }

  function BuildKey(actor: Actor, kind: string, idempotencyKey: Option<string>): Option<string> {
    if idempotencyKey.None? || idempotencyKey.value == "" || actor.Ui? then None
    else Some(actor.sessionId + ":" + kind + ":" + idempotencyKey.value)
  }

  /** What `execute` hands back. */
  datatype Ticket = Unknown | Cached(result: CommandResult) | Joined(id: nat) | Fresh(id: nat)

  function TicketFor(s: State, c: Command, actor: Actor): Ticket {
    var key := BuildKey(actor, c.kind, c.idempotencyKey);
    if c.kind !in s.handlers then Unknown
    else if key.Some? && key.value in s.cache then Cached(s.cache[key.value])
    else if key.Some? && key.value in s.inFlight then Joined(s.inFlight[key.value])
    else Fresh(|s.requests|)
  }

  function NewRequest(s: State, c: Command, actor: Actor): Request
    requires c.kind in s.handlers
  {
    var mode := s.handlers[c.kind];
    Request(c, actor, mode, BuildKey(actor, c.kind, c.idempotencyKey),
            if mode == Mutation && s.cfg.hasGuard then Some(s.world.owner) else None,
            s.tail, Queued, "queue", None, None, false, false, None, Evaluating,
            false, false, false, false, Waiting, None, false, Pending)
  }

  /** A new request enters the live map, the tail and, with a key, the in-flight table. */
  function Admitted(s: State, c: Command, actor: Actor): State
    requires c.kind in s.handlers
  {
    var i := |s.requests|;
    var r := NewRequest(s, c, actor);
    s.(requests := s.requests + [r], live := s.live + {i}, tail := Some(i),
       inFlight := if r.key.Some? then s.inFlight[r.key.value := i] else s.inFlight,
       log := s.log + [Submitted(i, s.world.owner)])
  }

  datatype Step =
    | Register(kind: string, mode: Mode)
    | Submit(command: Command, actor: Actor, signalAborted: bool)
    | Act(id: nat, move: Move)
    | Outside(world: World)

  /** The link a request waits on has resolved: there is none, or that request's run has ended. */
  predicate LinkResolved(s: State, i: nat)
    requires i < |s.requests|
  {
    var link := s.requests[i].waitsOn;
    link.Some? ==> link.value < |s.requests| && s.requests[link.value].point == Ended
  }

  /** From outside the revision is neither written nor made authoritative. */
  predicate LeavesRevision(w: World, before: World) {
    w.revision == before.revision && !w.authoritative
  }

  predicate Enabled(s: State, step: Step) {
    match step
    case Register(_, _) => true
    case Submit(_, _, _) => true
    case Act(i, m) => i < |s.requests| && CanMove(s.requests[i], m) && (m.Begin? ==> LinkResolved(s, i))
    // without a revision adapter nothing outside can reach the revision
    case Outside(w) => !s.cfg.hasAdapter ==> LeavesRevision(w, s.world)
  }

  /** Install the moved request and let the step's other effects follow. */
  function Installed(s: State, i: nat, m: Move, next: Request, events: seq<Event>): State
    requires i < |s.requests|
  {
    var r := s.requests[i];
    var t := Put(s, i, next).(log := s.log + events);
    if next.bumped && !r.bumped then t.(world := s.world.(revision := s.world.revision + 1))
    else if m.StoreContinues? && r.key.Some? && HasSucceeded(r)
    then t.(cache := s.cache[r.key.value := r.outcome.value.result])
    else if m.CleanupContinues? && r.key.Some? && r.key.value in s.inFlight && s.inFlight[r.key.value] == i
    then t.(inFlight := s.inFlight - {r.key.value})
    else t
  }

  function Acted(s: State, i: nat, m: Move): State
    requires i < |s.requests|
  {
    Installed(s, i, m, Moved(s.requests[i], i, m, s.world), Events(s.requests[i], i, m, s.world))
  }

  function Apply(s: State, step: Step): State
    requires Enabled(s, step)
  {
    match step
    case Register(kind, mode) => s.(handlers := s.handlers[kind := mode])
    case Submit(c, actor, signalAborted) =>
      if !TicketFor(s, c, actor).Fresh? then s
      else
        var t := Admitted(s, c, actor);
        if signalAborted then Acted(t, |s.requests|, CancelCall) else t
    case Act(i, m) => Acted(s, i, m)
    case Outside(w) =>
      s.(world := w, drift := s.drift + w.revision - s.world.revision, quiet := s.quiet && LeavesRevision(w, s.world))
  }

  // ---------------------------------------------------------------- runs

  ghost predicate Legal(s: State, run: seq<Step>)
    decreases |run|
  {
    run != [] ==> Enabled(s, run[0]) && Legal(Apply(s, run[0]), run[1..])
  }

  ghost function After(s: State, run: seq<Step>): State
    requires Legal(s, run)
    decreases |run|
  {
    if run == [] then s else After(Apply(s, run[0]), run[1..])
  }

  // ---------------------------------------------------------------- snapshot

  function LiveEntries(rs: seq<Request>, live: set<nat>, i: nat): seq<Entry>
    requires i <= |rs|
    decreases |rs| - i
  {
    if i == |rs| then []
    else if i in live then [EntryOf(i, rs[i])] + LiveEntries(rs, live, i + 1)
    else LiveEntries(rs, live, i + 1)
  }

  function RetainedEntries(entries: map<nat, Entry>, order: seq<nat>): seq<Entry> {
    if order == [] then []
    else if order[0] in entries then [entries[order[0]]] + RetainedEntries(entries, order[1..])
    else RetainedEntries(entries, order[1..])
  }

  /** `snapshot()`: the archive, then the live requests, each in insertion order. */
  function SnapshotOf(s: State): seq<Entry> {
    RetainedEntries(s.archive.entries, s.archive.order) + LiveEntries(s.requests, s.live, 0)
  }
}
