/** Idempotency: the cache of results and the table of promises in flight. */
module CommandKeys {
  import opened Common
  import opened CommandProtocol
  import opened CommandInvariant

  /** A key is in flight exactly for the one request whose cleanup continuation has not run. */
  ghost predicate FlightInv(rs: seq<Request>, inFlight: map<string, nat>) {
    && (forall i | 0 <= i < |rs| && rs[i].key.Some? && rs[i].follow != Cleaned :: Flies(rs[i].key.value, i, inFlight))
    && (forall k | k in inFlight ::
          inFlight[k] < |rs| && rs[inFlight[k]].key == Some(k) && rs[inFlight[k]].follow != Cleaned)
  }

  ghost predicate Flies(k: string, i: nat, inFlight: map<string, nat>) {
    k in inFlight && inFlight[k] == i
  }

  /** A result is cached exactly for the keys whose request succeeded and ran its first continuation. */
  ghost predicate CacheInv(rs: seq<Request>, cache: map<string, CommandResult>) {
    && (forall i | 0 <= i < |rs| && rs[i].key.Some? && rs[i].follow != Pending && HasSucceeded(rs[i]) ::
          rs[i].key.value in cache && cache[rs[i].key.value] == rs[i].outcome.value.result)
    && (forall k | k in cache :: Backed(rs, k, cache[k]))
  }

  ghost predicate Backed(rs: seq<Request>, k: string, result: CommandResult) {
    exists i :: 0 <= i < |rs| && rs[i].key == Some(k) && rs[i].outcome == Some(Resolved(result))
                && rs[i].follow != Pending
  }

  /** A key is used again only after the earlier request with it has failed and been cleaned up. */
  ghost predicate ReuseInv(rs: seq<Request>) {
    forall i, j | 0 <= i < j < |rs| && rs[i].key.Some? && rs[j].key == rs[i].key ::
      rs[i].follow == Cleaned && rs[i].Settled() && !HasSucceeded(rs[i])
  }

  ghost predicate KeyInv(rs: seq<Request>, cache: map<string, CommandResult>, inFlight: map<string, nat>) {
    FlightInv(rs, inFlight) && CacheInv(rs, cache) && ReuseInv(rs)
  }

  lemma BackedKept(rs: seq<Request>, i: nat, next: Request, k: string, result: CommandResult)
    requires i < |rs| && Keeps(rs[i], next) && (rs[i].follow != Pending ==> next.follow != Pending)
    requires Backed(rs, k, result)
    ensures Backed(rs[i := next], k, result)
  {
    var j :| 0 <= j < |rs| && rs[j].key == Some(k) && rs[j].outcome == Some(Resolved(result))
             && rs[j].follow != Pending;
    assert rs[i := next][j].key == Some(k);
  }

  lemma PutKeepsCache(rs: seq<Request>, cache: map<string, CommandResult>, i: nat, next: Request)
    requires CacheInv(rs, cache) && i < |rs| && Keeps(rs[i], next)
    requires next.follow == rs[i].follow || (next.follow == Cleaned && (rs[i].follow == Stored || !HasSucceeded(next)))
    requires rs[i].follow != Pending ==> rs[i].Settled()
    ensures CacheInv(rs[i := next], cache)
  {
    forall k | k in cache ensures Backed(rs[i := next], k, cache[k]) {
      BackedKept(rs, i, next, k, cache[k]);
    }
  }

  lemma PutKeepsKeys(rs: seq<Request>, cache: map<string, CommandResult>, inFlight: map<string, nat>, i: nat,
      next: Request)
    requires KeyInv(rs, cache, inFlight) && i < |rs| && Keeps(rs[i], next)
    requires next.follow == rs[i].follow && (rs[i].follow != Pending ==> rs[i].Settled())
    ensures KeyInv(rs[i := next], cache, inFlight)
  {
    PutKeepsCache(rs, cache, i, next);
  }

  lemma StoreKeepsKeys(rs: seq<Request>, cache: map<string, CommandResult>, inFlight: map<string, nat>, i: nat)
    requires KeyInv(rs, cache, inFlight) && i < |rs| && CanMove(rs[i], StoreContinues)
    ensures KeyInv(rs[i := rs[i].(follow := Stored)], cache[rs[i].key.value := rs[i].outcome.value.result], inFlight)
  {
    var r := rs[i];
    var next := r.(follow := Stored);
    var ts, stored := rs[i := next], cache[r.key.value := r.outcome.value.result];
    assert ts[i].outcome == Some(Resolved(r.outcome.value.result));
    forall k | k in stored ensures Backed(ts, k, stored[k]) {
      if k != r.key.value {
        BackedKept(rs, i, next, k, cache[k]);
      }
    }
    forall j | 0 <= j < |ts| && ts[j].key.Some? && ts[j].follow != Pending && HasSucceeded(ts[j])
      ensures ts[j].key.value in stored && stored[ts[j].key.value] == ts[j].outcome.value.result
    {
      assert j == i || r.key != rs[j].key;
    }
  }

  lemma CleanupKeepsKeys(rs: seq<Request>, cache: map<string, CommandResult>, inFlight: map<string, nat>, i: nat)
    requires KeyInv(rs, cache, inFlight) && i < |rs| && CanMove(rs[i], CleanupContinues)
    ensures Flies(rs[i].key.value, i, inFlight)
    ensures KeyInv(rs[i := rs[i].(follow := Cleaned)], cache, inFlight - {rs[i].key.value})
  {
    PutKeepsCache(rs, cache, i, rs[i].(follow := Cleaned));
  }

  lemma AdmitKeepsKeys(rs: seq<Request>, cache: map<string, CommandResult>, inFlight: map<string, nat>, r: Request)
    requires KeyInv(rs, cache, inFlight) && r.follow == Pending
    requires r.key.Some? ==> r.key.value !in cache && r.key.value !in inFlight
    requires forall i | 0 <= i < |rs| && rs[i].follow == Cleaned :: rs[i].Settled()
    ensures KeyInv(rs + [r], cache, if r.key.Some? then inFlight[r.key.value := |rs|] else inFlight)
  {
    var ts := rs + [r];
    forall k | k in cache ensures Backed(ts, k, cache[k]) {
      var j :| 0 <= j < |rs| && rs[j].key == Some(k) && rs[j].outcome == Some(Resolved(cache[k]))
               && rs[j].follow != Pending;
      assert ts[j] == rs[j];
    }
  }

  /** A cached key belongs to its latest request, which succeeded with the cached result. */
  lemma CachedIsTheLatest(rs: seq<Request>, cache: map<string, CommandResult>, i: nat)
    requires CacheInv(rs, cache) && ReuseInv(rs) && i < |rs| && rs[i].key.Some? && rs[i].key.value in cache
    requires !rs[i].Settled() || HasSucceeded(rs[i])
    ensures rs[i].outcome == Some(Resolved(cache[rs[i].key.value]))
  {
    var k := rs[i].key.value;
    assert Backed(rs, k, cache[k]);
    var j :| 0 <= j < |rs| && rs[j].key == Some(k) && rs[j].outcome == Some(Resolved(cache[k]));
    assert HasSucceeded(rs[j]);
    assert j == i;
  }

  // ---------------------------------------------------------------- the key string

  lemma {:induction false} ColonSplits(a: string, b: string, x: string, y: string)
    requires a + ":" + x == b + ":" + y && ':' !in a && ':' !in b
    ensures a == b && x == y
  {
    var s, t := a + ":" + x, b + ":" + y;
    assert s[|a|] == ':' && t[|b|] == ':';
    assert (forall i | 0 <= i < |a| :: s[i] == a[i]) && (forall i | 0 <= i < |b| :: t[i] == b[i]);
    assert |a| == |b|;
    assert s[..|a|] == a && t[..|b|] == b;
    assert s[|a| + 1..] == x && t[|b| + 1..] == y;
  }

  /** Session, command and idempotency key can be read off the key string while the first two have no colon. */
  lemma KeysAreInjective(a: Actor, kind: string, k: Option<string>, b: Actor, other: string, l: Option<string>)
    requires BuildKey(a, kind, k).Some? && BuildKey(a, kind, k) == BuildKey(b, other, l)
    requires ':' !in a.sessionId && ':' !in b.sessionId && ':' !in kind && ':' !in other
    ensures a.sessionId == b.sessionId && kind == other && k == l
  {
    assert a.sessionId + ":" + kind + ":" + k.value == a.sessionId + ":" + (kind + ":" + k.value);
    assert b.sessionId + ":" + other + ":" + l.value == b.sessionId + ":" + (other + ":" + l.value);
    ColonSplits(a.sessionId, b.sessionId, kind + ":" + k.value, other + ":" + l.value);
    ColonSplits(kind, other, k.value, l.value);
  }

  /** All that the key string has before the idempotency key. */
  function KeyPrefix(a: Actor, kind: string): string
    requires a.Mcp?
  {
    a.sessionId + ":" + kind + ":"
  }

  lemma KeyIsPrefixed(a: Actor, kind: string, k: string)
    requires a.Mcp? && k != ""
    ensures BuildKey(a, kind, Some(k)) == Some(KeyPrefix(a, kind) + k)
  {
    assert a.sessionId + ":" + kind + ":" + k == KeyPrefix(a, kind) + k;
  }

  /** Some keys of one session and command are also keys of the other. */
  ghost predicate Collide(a: Actor, kind: string, b: Actor, other: string) {
    exists k: string, l: string :: k != "" && l != "" && BuildKey(a, kind, Some(k)) == BuildKey(b, other, Some(l))
  }

  lemma CollideOn(a: Actor, kind: string, k: string, b: Actor, other: string, l: string)
    requires a.Mcp? && b.Mcp? && k != "" && l != "" && KeyPrefix(a, kind) + k == KeyPrefix(b, other) + l
    ensures Collide(a, kind, b, other)
  {
    KeyIsPrefixed(a, kind, k);
    KeyIsPrefixed(b, other, l);
    assert BuildKey(a, kind, Some(k)) == BuildKey(b, other, Some(l));
  }

  lemma Extends(p: string, q: string) returns (k: string, l: string)
    requires p <= q
    ensures k != "" && l != "" && p + k == q + l
  {
    k, l := q[|p|..] + "k", "k";
    assert p + q[|p|..] == q;
  }

  /** Two sessions and commands share key strings if and only if one of their prefixes begins with the other. */
  lemma KeysCollideExactly(a: Actor, kind: string, b: Actor, other: string)
    requires a.Mcp? && b.Mcp?
    ensures Collide(a, kind, b, other) <==>
            KeyPrefix(a, kind) <= KeyPrefix(b, other) || KeyPrefix(b, other) <= KeyPrefix(a, kind)
  {
    var p, q := KeyPrefix(a, kind), KeyPrefix(b, other);
    if Collide(a, kind, b, other) {
      var k: string, l: string :| k != "" && l != "" && BuildKey(a, kind, Some(k)) == BuildKey(b, other, Some(l));
      KeyIsPrefixed(a, kind, k);
      KeyIsPrefixed(b, other, l);
      PrefixesOfOne(p, k, q, l);
    } else if p <= q {
      var k, l := Extends(p, q);
      CollideOn(a, kind, k, b, other, l);
    } else if q <= p {
      var l, k := Extends(q, p);
      CollideOn(a, kind, k, b, other, l);
    }
  }

  lemma PrefixesOfOne(p: string, k: string, q: string, l: string)
    requires p + k == q + l
    ensures p <= q || q <= p
  {
    assert p == (p + k)[..|p|] && q == (q + l)[..|q|];
  }

  /** So a session id that ends in a colon and a command shares its keys with the session before that colon. */
  lemma ColonsCollide(left: string, right: string, kind: string, k: string)
    requires k != ""
    ensures BuildKey(Mcp(left + ":" + right, None), kind, Some(k)).Some?
    ensures BuildKey(Mcp(left + ":" + right, None), kind, Some(k)) ==
            BuildKey(Mcp(left, None), right, Some(kind + ":" + k))
  {
    assert left + ":" + right + ":" + kind + ":" + k == left + ":" + right + ":" + (kind + ":" + k);
  }
}
