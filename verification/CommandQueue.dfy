/** The serial queue: mutationTail chains each run to the one submitted before it. */
module CommandQueue {
  import opened Common
  import opened CommandProtocol
  import opened CommandInvariant

  ghost predicate Chained(rs: seq<Request>, tail: Option<nat>) {
    && tail == (if rs == [] then None else Some(|rs| - 1))
    && forall i | 0 <= i < |rs| :: rs[i].waitsOn == if i == 0 then None else Some(i - 1)
  }

  /** A run has left the queue only after every earlier run ended. */
  ghost predicate Serial(rs: seq<Request>) {
    forall i, j | 0 <= i < j < |rs| && rs[j].point != Waiting :: rs[i].point == Ended
  }

  lemma PutKeepsQueue(rs: seq<Request>, tail: Option<nat>, i: nat, next: Request)
    requires Chained(rs, tail) && Serial(rs) && i < |rs| && Keeps(rs[i], next)
    requires rs[i].point == Waiting && next.point != Waiting && i > 0 ==> rs[i - 1].point == Ended
    ensures Chained(rs[i := next], tail) && Serial(rs[i := next])
  {
    var ts := rs[i := next];
    forall a, b | 0 <= a < b < |ts| && ts[b].point != Waiting ensures ts[a].point == Ended {
      if b == i && rs[i].point == Waiting {
        assert rs[i - 1].point == Ended;
      }
      assert rs[a].point == Ended;
    }
  }

  lemma AdmitKeepsQueue(rs: seq<Request>, tail: Option<nat>, r: Request)
    requires Chained(rs, tail) && Serial(rs) && r.waitsOn == tail && r.point == Waiting
    ensures Chained(rs + [r], Some(|rs|)) && Serial(rs + [r])
  {}
}
