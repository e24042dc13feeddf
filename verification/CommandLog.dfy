/** The history log says nothing untrue and leaves nothing out. */
module CommandLog {
  import opened Common
  import opened CommandProtocol
  import opened CommandInvariant
  import opened CommandQueue

  ghost predicate GuardAllows(r: Request, owner: Owner) {
    r.guard.Some? ==> GuardHolds(r.guard.value, owner)
  }

  ghost predicate EventOk(r: Request, hasGuard: bool, e: Event) {
    match e
    case Submitted(_, owner) => r.guard == if r.mode == Mutation && hasGuard then Some(owner) else None
    case HandlerEntered(_, owner) => r.entered && GuardAllows(r, owner)
    case CommitBegan(_, owner) => r.committed && GuardAllows(r, owner)
    case Exported(_, found, confirmed) => r.inspected && confirmed == r.granted && (found ==> confirmed)
  }

  ghost predicate Truthful(rs: seq<Request>, hasGuard: bool, log: seq<Event>) {
    forall k | 0 <= k < |log| :: log[k].id < |rs| && EventOk(rs[log[k].id], hasGuard, log[k])
  }

  /** Handlers are entered in strictly increasing request order. */
  ghost predicate EntriesAscend(log: seq<Event>) {
    forall k, l | 0 <= k < l < |log| && log[k].HandlerEntered? && log[l].HandlerEntered? :: log[k].id < log[l].id
  }

  ghost predicate WasSubmitted(log: seq<Event>, i: nat) { exists owner :: Submitted(i, owner) in log }
  ghost predicate WasEntered(log: seq<Event>, i: nat) { exists owner :: HandlerEntered(i, owner) in log }
  ghost predicate WasCommitted(log: seq<Event>, i: nat) { exists owner :: CommitBegan(i, owner) in log }
  ghost predicate WasExported(log: seq<Event>, i: nat) {
    exists found, confirmed :: Exported(i, found, confirmed) in log
  }

  ghost predicate Logged(log: seq<Event>, r: Request, i: nat) {
    && WasSubmitted(log, i)
    && (r.entered ==> WasEntered(log, i))
    && (r.committed ==> WasCommitted(log, i))
    && (r.inspected ==> WasExported(log, i))
  }

  ghost predicate LogInv(rs: seq<Request>, hasGuard: bool, log: seq<Event>) {
    && Truthful(rs, hasGuard, log)
    && EntriesAscend(log)
    && forall i | 0 <= i < |rs| :: Logged(log, rs[i], i)
  }

  /** What one move adds to the log. */
  ghost predicate EventsOf(r: Request, next: Request, i: nat, events: seq<Event>) {
    && |events| <= 1
    && (forall k | 0 <= k < |events| :: events[k].id == i && !events[k].Submitted?
          && EventOk(next, false, events[k]) && (events[k].HandlerEntered? ==> !r.entered && r.point != Ended))
    && (next.entered && !r.entered ==> WasEntered(events, i))
    && (next.committed && !r.committed ==> WasCommitted(events, i))
    && (next.inspected && !r.inspected ==> WasExported(events, i))
  }

  lemma LogGrows(log: seq<Event>, events: seq<Event>, r: Request, i: nat)
    requires Logged(log, r, i)
    ensures Logged(log + events, r, i)
  {
    var o :| Submitted(i, o) in log;
    assert Submitted(i, o) in log + events;
    if r.entered { var o :| HandlerEntered(i, o) in log; assert HandlerEntered(i, o) in log + events; }
    if r.committed { var o :| CommitBegan(i, o) in log; assert CommitBegan(i, o) in log + events; }
    if r.inspected { var f, c :| Exported(i, f, c) in log; assert Exported(i, f, c) in log + events; }
  }

  lemma PutKeepsLogged(log: seq<Event>, r: Request, next: Request, i: nat, events: seq<Event>)
    requires Logged(log, r, i) && EventsOf(r, next, i, events)
    ensures Logged(log + events, next, i)
  {
    LogGrows(log, events, r, i);
    if next.entered && !r.entered {
      var o :| HandlerEntered(i, o) in events;
      assert HandlerEntered(i, o) in log + events;
    }
    if next.committed && !r.committed {
      var o :| CommitBegan(i, o) in events;
      assert CommitBegan(i, o) in log + events;
    }
    if next.inspected && !r.inspected {
      var f, c :| Exported(i, f, c) in events;
      assert Exported(i, f, c) in log + events;
    }
  }

  /** A handler that is entered now belongs to a later request than every handler entered before. */
  lemma PutKeepsAscent(rs: seq<Request>, hasGuard: bool, log: seq<Event>, i: nat, next: Request, events: seq<Event>)
    requires (forall j | 0 <= j < |rs| :: RequestInv(rs[j])) && Serial(rs)
    requires Truthful(rs, hasGuard, log) && EntriesAscend(log) && i < |rs| && EventsOf(rs[i], next, i, events)
    ensures EntriesAscend(log + events)
  {
    forall k | 0 <= k < |log| && log[k].HandlerEntered? && events != [] && events[0].HandlerEntered?
      ensures log[k].id < i
    {
      var j := log[k].id;
      assert EventOk(rs[j], hasGuard, log[k]);
      assert RequestInv(rs[j]);
    }
  }

  lemma PutKeepsLog(rs: seq<Request>, hasGuard: bool, log: seq<Event>, i: nat, next: Request, events: seq<Event>)
    requires (forall j | 0 <= j < |rs| :: RequestInv(rs[j])) && Serial(rs) && LogInv(rs, hasGuard, log)
    requires i < |rs| && Keeps(rs[i], next) && EventsOf(rs[i], next, i, events)
    ensures LogInv(rs[i := next], hasGuard, log + events)
  {
    PutKeepsAscent(rs, hasGuard, log, i, next, events);
    var ts := rs[i := next];
    forall j | 0 <= j < |ts| ensures Logged(log + events, ts[j], j) {
      if j == i {
        PutKeepsLogged(log, rs[i], next, i, events);
      } else {
        LogGrows(log, events, rs[j], j);
      }
    }
  }

  lemma MoveLogs(r: Request, i: nat, m: Move, w: World)
    requires RequestInv(r) && CanMove(r, m)
    ensures EventsOf(r, Moved(r, i, m, w), i, Events(r, i, m, w))
  {
    match m
    case CommitCall => CommitLogs(r, i, w);
    case CsvInspected(found) => InspectionLogs(r, i, found, w);
    case _ => EntryLogs(r, i, m, w);
  }

  lemma CommitLogs(r: Request, i: nat, w: World)
    requires RequestInv(r) && CanMove(r, CommitCall)
    ensures EventsOf(r, Moved(r, i, CommitCall, w), i, Events(r, i, CommitCall, w))
  {
    if CommitAccepted(r, w) { assert CommitBegan(i, w.owner) in Events(r, i, CommitCall, w); }
  }

  lemma InspectionLogs(r: Request, i: nat, found: bool, w: World)
    requires RequestInv(r) && CanMove(r, CsvInspected(found))
    ensures EventsOf(r, Moved(r, i, CsvInspected(found), w), i, Events(r, i, CsvInspected(found), w))
  {
    if found && !r.granted {
      if r.Settled() {} else {}
    } else {
      assert Exported(i, found, r.granted) in Events(r, i, CsvInspected(found), w);
    }
  }

  /** Every other step is logged exactly when it enters the handler. */
  lemma EntryLogs(r: Request, i: nat, m: Move, w: World)
    requires RequestInv(r) && CanMove(r, m) && !m.CommitCall? && !m.CsvInspected?
    ensures EventsOf(r, Moved(r, i, m, w), i, Events(r, i, m, w))
  {
    var events := Events(r, i, m, w);
    if events != [] { assert events[0] in events; }
  }

  lemma AdmitKeepsLog(rs: seq<Request>, hasGuard: bool, log: seq<Event>, r: Request, owner: Owner)
    requires LogInv(rs, hasGuard, log) && EventOk(r, hasGuard, Submitted(|rs|, owner))
    requires !r.entered && !r.committed && !r.inspected
    ensures LogInv(rs + [r], hasGuard, log + [Submitted(|rs|, owner)])
  {
    var ts, e := rs + [r], Submitted(|rs|, owner);
    var longer := log + [e];
    assert longer[|log|] == e;
    forall k | 0 <= k < |longer| ensures longer[k].id < |ts| && EventOk(ts[longer[k].id], hasGuard, longer[k]) {
      if k < |log| { assert longer[k] == log[k]; }
    }
    forall j | 0 <= j < |ts| ensures Logged(longer, ts[j], j) {
      if j < |rs| { LogGrows(log, [e], rs[j], j); }
    }
  }
}
