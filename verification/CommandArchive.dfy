/** The live map, the settlement history and the archive of the last 32 settled requests. */
module CommandArchive {
  import opened Common
  import opened CommandProtocol
  import opened CommandInvariant

  ghost predicate LiveInv(rs: seq<Request>, live: set<nat>) {
    forall i: nat :: i in live <==> i < |rs| && !rs[i].Settled()
  }

  ghost predicate Distinct(h: seq<Entry>) {
    forall k, l | 0 <= k < l < |h| :: h[k].id != h[l].id
  }

  ghost predicate InHistory(h: seq<Entry>, i: nat) {
    exists k :: 0 <= k < |h| && h[k].id == i
  }

  ghost predicate EntryOk(rs: seq<Request>, e: Entry) {
    && e.id < |rs|
    && rs[e.id].Settled()
    && StatusMatches(e.status, rs[e.id].outcome.value)
    && e.kind == rs[e.id].command.kind && e.actor == ViewActor(rs[e.id].actor)
  }

  /** The settlement history lists every settled request exactly once, with the status it settled in. */
  ghost predicate HistoryInv(rs: seq<Request>, h: seq<Entry>) {
    && (forall k | 0 <= k < |h| :: EntryOk(rs, h[k]))
    && Distinct(h)
    && (forall i | 0 <= i < |rs| && rs[i].Settled() :: InHistory(h, i))
  }

  /** The retained part of a settlement history. */
  ghost function Window(h: seq<Entry>): (w: seq<Entry>)
    ensures |w| == Min(RECENT_TERMINAL_REQUEST_LIMIT, |h|)
  {
    h[|h| - Min(RECENT_TERMINAL_REQUEST_LIMIT, |h|)..]
  }

  /** `order` and `entries` hold exactly the given entries, in order. */
  ghost predicate Holds(order: seq<nat>, entries: map<nat, Entry>, w: seq<Entry>) {
    && |order| == |w|
    && (forall k | 0 <= k < |w| :: order[k] == w[k].id)
    && (forall k | 0 <= k < |w| :: w[k].id in entries && entries[w[k].id] == w[k])
    && (forall i | i in entries :: InHistory(w, i))
  }

  /** The archive holds the last 32 settlements, in settlement order. */
  ghost predicate ArchiveInv(a: Archive) {
    Holds(a.order, a.entries, Window(a.history))
  }

  lemma HoldsGrown(order: seq<nat>, entries: map<nat, Entry>, w: seq<Entry>, e: Entry)
    requires Holds(order, entries, w) && !InHistory(w, e.id)
    ensures Holds(order + [e.id], entries[e.id := e], w + [e])
  {
    var v := w + [e];
    assert v[|w|].id == e.id;
    forall i | i in entries[e.id := e] ensures InHistory(v, i) {
      if i != e.id {
        var k :| 0 <= k < |w| && w[k].id == i;
        assert v[k].id == i;
      }
    }
  }

  lemma HoldsEvicted(order: seq<nat>, entries: map<nat, Entry>, w: seq<Entry>)
    requires Holds(order, entries, w) && w != [] && Distinct(w)
    ensures Holds(order[1..], entries - {order[0]}, w[1..])
  {
    var v := w[1..];
    forall k | 0 <= k < |v| ensures v[k].id != order[0] {
      assert v[k] == w[k + 1];
    }
    forall i | i in entries - {order[0]} ensures InHistory(v, i) {
      var k :| 0 <= k < |w| && w[k].id == i;
      assert v[k - 1].id == i;
    }
  }

  lemma WindowGrown(h: seq<Entry>, e: Entry)
    requires Distinct(h) && !InHistory(h, e.id)
    ensures var v := Window(h) + [e];
            && !InHistory(Window(h), e.id) && Distinct(v)
            && Window(h + [e]) == if |v| <= RECENT_TERMINAL_REQUEST_LIMIT then v else v[1..]
  {
    var w := Window(h);
    forall k | 0 <= k < |w| ensures w[k] == h[|h| - |w| + k] && w[k].id != e.id {}
  }

  lemma EvictedOnce(a: Archive)
    requires |a.order| <= RECENT_TERMINAL_REQUEST_LIMIT + 1
    ensures Evicted(a) == if |a.order| <= RECENT_TERMINAL_REQUEST_LIMIT then a
                          else a.(order := a.order[1..], entries := a.entries - {a.order[0]})
  {}

  /** Archiving a newly settled request shifts the window by one. */
  lemma ArchivedKeeps(a: Archive, e: Entry)
    requires ArchiveInv(a) && Distinct(a.history) && !InHistory(a.history, e.id)
    ensures ArchiveInv(Archived(a, e)) && Archived(a, e).history == a.history + [e]
  {
    WindowGrown(a.history, e);
    HoldsGrown(a.order, a.entries, Window(a.history), e);
    var grown := Archive(a.entries[e.id := e], a.order + [e.id], a.history + [e]);
    EvictedOnce(grown);
    if |grown.order| > RECENT_TERMINAL_REQUEST_LIMIT {
      HoldsEvicted(grown.order, grown.entries, Window(a.history) + [e]);
    }
  }

  lemma HistoryGrown(rs: seq<Request>, h: seq<Entry>, i: nat, next: Request)
    requires HistoryInv(rs, h) && i < |rs| && !rs[i].Settled() && next.Settled() && Evolves(rs[i], next)
    ensures !InHistory(h, i) && HistoryInv(rs[i := next], h + [EntryOf(i, next)])
  {
    var g := h + [EntryOf(i, next)];
    assert g[|h|].id == i;
    forall j | 0 <= j < |rs| && rs[i := next][j].Settled() ensures InHistory(g, j) {
      if j != i {
        var k :| 0 <= k < |h| && h[k].id == j;
        assert g[k].id == j;
      }
    }
  }

  lemma PutKeepsLive(rs: seq<Request>, live: set<nat>, i: nat, next: Request)
    requires LiveInv(rs, live) && i < |rs| && Evolves(rs[i], next)
    ensures LiveInv(rs[i := next], if !rs[i].Settled() && next.Settled() then live - {i} else live)
  {
    var live' := if !rs[i].Settled() && next.Settled() then live - {i} else live;
    forall j: nat ensures j in live' <==> j < |rs| && !rs[i := next][j].Settled() {
      if j == i {} else { assert j in live <==> j < |rs| && !rs[j].Settled(); }
    }
  }

  lemma PutKeepsHistory(rs: seq<Request>, h: seq<Entry>, i: nat, next: Request)
    requires HistoryInv(rs, h) && i < |rs| && Evolves(rs[i], next) && rs[i].Settled() == next.Settled()
    ensures HistoryInv(rs[i := next], h)
  {
    forall k | 0 <= k < |h| ensures EntryOk(rs[i := next], h[k]) {
      assert EntryOk(rs, h[k]);
    }
    forall j | 0 <= j < |rs| && rs[i := next][j].Settled() ensures InHistory(h, j) {
      assert rs[j].Settled();
    }
  }

  lemma PutKeepsArchive(s: State, i: nat, next: Request)
    requires i < |s.requests| && Evolves(s.requests[i], next)
    requires LiveInv(s.requests, s.live) && HistoryInv(s.requests, s.archive.history) && ArchiveInv(s.archive)
    ensures var t := Put(s, i, next);
            LiveInv(t.requests, t.live) && HistoryInv(t.requests, t.archive.history) && ArchiveInv(t.archive)
  {
    PutKeepsLive(s.requests, s.live, i, next);
    if !s.requests[i].Settled() && next.Settled() {
      HistoryGrown(s.requests, s.archive.history, i, next);
      ArchivedKeeps(s.archive, EntryOf(i, next));
    } else {
      PutKeepsHistory(s.requests, s.archive.history, i, next);
    }
  }

  lemma AdmitKeepsArchive(rs: seq<Request>, live: set<nat>, h: seq<Entry>, r: Request)
    requires LiveInv(rs, live) && HistoryInv(rs, h) && !r.Settled()
    ensures LiveInv(rs + [r], live + {|rs|}) && HistoryInv(rs + [r], h)
  {}
}
