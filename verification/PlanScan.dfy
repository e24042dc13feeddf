/** The scan counts in an analysed query plan, collected by the profiler and again by the loader of its profile. */
module PlanScan {
  import opened Common

  const U64_LIMIT := 0x1_0000_0000_0000_0000

  type U64 = n: int | 0 <= n < U64_LIMIT

  datatype Field = Field(name: string, value: Json)

  /** A JSON value; `unsigned` is what `as_u64` makes of a number. */
  datatype Json =
    | Null
    | Bool(truth: bool)
    | Number(unsigned: Option<U64>)
    | Str(text: string)
    | Array(items: seq<Json>)
    | Object(fields: seq<Field>)

  /** `value[name]`: null where there is no such field. */
  function Get(value: Json, name: string): Json {
    if value.Object? then Lookup(value.fields, name) else Null
  }

  function Lookup(fields: seq<Field>, name: string): Json {
    if fields == [] then Null else if fields[0].name == name then fields[0].value else Lookup(fields[1..], name)
  }

  predicate EndsWith(text: string, suffix: string) {
    |suffix| <= |text| && text[|text| - |suffix|..] == suffix
  }

  /** A scan of the benchmark's own table. */
  predicate IsSourceScan(node: Json) {
    && node.Object? && Get(node, "operator_type") == Str("TABLE_SCAN")
    && Get(Get(node, "extra_info"), "Table").Str?
        && EndsWith(Get(Get(node, "extra_info"), "Table").text, ".dataset_perf_data")
  }

  function RowsScanned(node: Json): Option<U64> {
    if Get(node, "operator_rows_scanned").Number? then Get(node, "operator_rows_scanned").unsigned else None
  }

  /** What is directly inside a value. */
  function Children(value: Json): (children: seq<Json>)
    ensures forall i | 0 <= i < |children| :: children[i] < value
  {
    match value
    case Array(items) => items
    case Object(fields) => seq(|fields|, i requires 0 <= i < |fields| => fields[i].value)
    case _ => []
  }

  /** What the scan makes of one value in the plan. */
  datatype Reading = Irrelevant | Counted(rows: U64) | Uncounted

  function Read(node: Json): Reading {
    if !IsSourceScan(node) then Irrelevant
    else if RowsScanned(node).None? then Uncounted
    else Counted(RowsScanned(node).value)
  }

  /** The readings of all values in the tree, each before those of what is inside it. */
  function Readings(value: Json): seq<Reading>
    decreases value, |Children(value)| + 1
  {
    [Read(value)] + ReadingsFrom(value, 0)
  }

  function ReadingsFrom(value: Json, from: nat): seq<Reading>
    requires from <= |Children(value)|
    decreases value, |Children(value)| - from
  {
    if from == |Children(value)| then [] else Readings(Children(value)[from]) + ReadingsFrom(value, from + 1)
  }

  function CountOf(reading: Reading): seq<U64> {
    if reading.Counted? then [reading.rows] else []
  }

  /** The counts among the readings, in order. */
  function Counts(readings: seq<Reading>): seq<U64> {
    if readings == [] then [] else CountOf(readings[0]) + Counts(readings[1..])
  }

  /** How far the scan gets that stops at the first source scan without a count. */
  function UpToUncounted(readings: seq<Reading>): seq<Reading> {
    if readings == [] || readings[0].Uncounted? then [] else [readings[0]] + UpToUncounted(readings[1..])
  }

  lemma {:induction false} CountsJoin(a: seq<Reading>, b: seq<Reading>)
    ensures Counts(a + b) == Counts(a) + Counts(b)
  {
    if a == [] {
      assert a + b == b;
    } else {
      CountsJoin(a[1..], b);
      assert (a + b)[1..] == a[1..] + b;
      Associates(CountOf(a[0]), Counts(a[1..]), Counts(b));
    }
  }

  lemma Associates(a: seq<U64>, b: seq<U64>, c: seq<U64>)
    ensures a + (b + c) == a + b + c
  {
  }

  lemma {:induction false} UpToJoin(a: seq<Reading>, b: seq<Reading>)
    ensures Uncounted !in a ==> UpToUncounted(a + b) == a + UpToUncounted(b)
    ensures Uncounted in a ==> UpToUncounted(a + b) == UpToUncounted(a)
  {
    if a == [] {
      assert a + b == b;
    } else {
      UpToJoin(a[1..], b);
      assert (a + b)[1..] == a[1..] + b;
    }
  }

  lemma {:induction false} UpToAll(readings: seq<Reading>)
    requires Uncounted !in readings
    ensures UpToUncounted(readings) == readings
  {
    if readings == [] {
    } else {
      UpToAll(readings[1..]);
    }
  }

  /** Reading on after `done`, in which every source scan has its count. */
  lemma GoesOn(was: seq<U64>, done: seq<Reading>, next: seq<Reading>, rest: seq<Reading>)
    requires Uncounted !in done
    ensures was + Counts(done) + Counts(UpToUncounted(next)) == was + Counts(done + UpToUncounted(next))
    ensures Uncounted !in next ==> UpToUncounted(next) == next
    ensures Uncounted in next ==> UpToUncounted(done + next + rest) == done + UpToUncounted(next)
  {
    CountsJoin(done, UpToUncounted(next));
    if Uncounted !in next { UpToAll(next); } else { StopsInside(done, next, rest); }
  }

  lemma StopsInside(done: seq<Reading>, next: seq<Reading>, rest: seq<Reading>)
    requires Uncounted !in done && Uncounted in next
    ensures UpToUncounted(done + next + rest) == done + UpToUncounted(next)
  {
    assert done + next + rest == done + (next + rest);
    UpToJoin(done, next + rest);
    UpToJoin(next, rest);
  }

  // ---- What the scan reaches

  /** The value is somewhere in the tree: it is the tree itself, or in an item, or in the value of a field. */
  ghost predicate Inside(v: Json, tree: Json)
    decreases tree
  {
    || v == tree
    || (tree.Array? && exists i :: 0 <= i < |tree.items| && Inside(v, tree.items[i]))
    || (tree.Object? && exists i :: 0 <= i < |tree.fields| && Inside(v, tree.fields[i].value))
  }

  /** What is at a place in the tree; a place is the indices of the items and fields on the way to it. */
  function At(tree: Json, place: seq<nat>): Option<Json>
    decreases |place|
  {
    if place == [] then Some(tree)
    else
      match tree
      case Array(items) => if place[0] < |items| then At(items[place[0]], place[1..]) else None
      case Object(fields) => if place[0] < |fields| then At(fields[place[0]].value, place[1..]) else None
      case _ => None
  }

  /** The tree is walked to p before it is walked to q. */
  predicate Precedes(p: seq<nat>, q: seq<nat>)
    decreases |p|
  {
    q != [] && (p == [] || p[0] < q[0] || (p[0] == q[0] && Precedes(p[1..], q[1..])))
  }

  predicate InOrder(places: seq<seq<nat>>) {
    forall k, l | 0 <= k < l < |places| :: Precedes(places[k], places[l])
  }

  function Below(i: nat, places: seq<seq<nat>>): (below: seq<seq<nat>>)
    ensures |below| == |places| && forall k | 0 <= k < |below| :: below[k] == [i] + places[k]
  {
    seq(|places|, k requires 0 <= k < |places| => [i] + places[k])
  }

  lemma AtBelow(tree: Json, i: nat, place: seq<nat>)
    requires i < |Children(tree)|
    ensures At(tree, [i] + place) == At(Children(tree)[i], place)
  {
    assert ([i] + place)[1..] == place;
  }

  lemma AtNoChild(tree: Json, place: seq<nat>)
    requires place != [] && place[0] >= |Children(tree)|
    ensures At(tree, place).None?
  {
  }

  /** These are places in the tree, in the order of its walk, each with its reading. */
  ghost predicate ReadsPlaces(tree: Json, places: seq<seq<nat>>, readings: seq<Reading>) {
    && |places| == |readings| && InOrder(places)
    && forall k | 0 <= k < |places| :: ReadAt(tree, places[k], readings[k])
  }

  predicate ReadAt(tree: Json, place: seq<nat>, reading: Reading) {
    At(tree, place).Some? && reading == Read(At(tree, place).value)
  }

  /** All the places in the tree from its child number `from` on. */
  ghost predicate AllFrom(tree: Json, places: seq<seq<nat>>, from: nat) {
    && (forall k | 0 <= k < |places| :: places[k] != [] && places[k][0] >= from)
    && (forall place | place != [] && place[0] >= from && At(tree, place).Some? :: place in places)
  }

  /** The scan reads every place in the tree once, walking it from the root. */
  lemma {:induction false} OneReadingPerPlace(tree: Json) returns (places: seq<seq<nat>>)
    ensures ReadsPlaces(tree, places, Readings(tree))
    ensures forall place: seq<nat> :: place in places <==> At(tree, place).Some?
    decreases tree, |Children(tree)| + 1
  {
    var below := ReadingsBelow(tree, 0);
    places := [[]] + below;
    FirstPlace(tree, below);
  }

  lemma FirstPlace(tree: Json, below: seq<seq<nat>>)
    requires ReadsPlaces(tree, below, ReadingsFrom(tree, 0)) && AllFrom(tree, below, 0)
    ensures ReadsPlaces(tree, [[]] + below, Readings(tree))
    ensures forall place: seq<nat> :: place in [[]] + below <==> At(tree, place).Some?
  {
    var places := [[]] + below;
    assert places[0] == [];
    assert Readings(tree) == [Read(tree)] + ReadingsFrom(tree, 0);
    forall k, l | 0 <= k < l < |places| ensures Precedes(places[k], places[l]) {
      if k > 0 { assert Precedes(below[k - 1], below[l - 1]); }
    }
    forall k | 0 <= k < |places| ensures ReadAt(tree, places[k], Readings(tree)[k]) {
      if k > 0 { assert ReadAt(tree, below[k - 1], ReadingsFrom(tree, 0)[k - 1]); }
    }
    forall place: seq<nat> ensures place in places <==> At(tree, place).Some? {
      if place in places {
        var k :| 0 <= k < |places| && places[k] == place;
        assert ReadAt(tree, places[k], Readings(tree)[k]);
      }
    }
  }

  lemma {:induction false} ReadingsBelow(tree: Json, from: nat) returns (places: seq<seq<nat>>)
    requires from <= |Children(tree)|
    ensures ReadsPlaces(tree, places, ReadingsFrom(tree, from)) && AllFrom(tree, places, from)
    decreases tree, |Children(tree)| - from
  {
    if from == |Children(tree)| {
      places := [];
      forall place | place != [] && place[0] >= from ensures At(tree, place).None? { AtNoChild(tree, place); }
    } else {
      var inner := OneReadingPerPlace(Children(tree)[from]);
      var later := ReadingsBelow(tree, from + 1);
      places := Below(from, inner) + later;
      ChildRead(tree, from, inner);
      BothRead(tree, Below(from, inner), Readings(Children(tree)[from]), later, ReadingsFrom(tree, from + 1), from);
      BothAll(tree, from, inner, later);
    }
  }

  lemma ChildRead(tree: Json, i: nat, inner: seq<seq<nat>>)
    requires i < |Children(tree)| && ReadsPlaces(Children(tree)[i], inner, Readings(Children(tree)[i]))
    ensures ReadsPlaces(tree, Below(i, inner), Readings(Children(tree)[i]))
  {
    var below, readings := Below(i, inner), Readings(Children(tree)[i]);
    forall k, l | 0 <= k < l < |below| ensures Precedes(below[k], below[l]) {
      assert Precedes(inner[k], inner[l]);
      assert below[k][1..] == inner[k] && below[l][1..] == inner[l];
    }
    forall k | 0 <= k < |below| ensures ReadAt(tree, below[k], readings[k]) {
      assert ReadAt(Children(tree)[i], inner[k], readings[k]);
      AtBelow(tree, i, inner[k]);
    }
  }

  lemma BothRead(tree: Json, p: seq<seq<nat>>, r: seq<Reading>, q: seq<seq<nat>>, s: seq<Reading>, from: nat)
    requires ReadsPlaces(tree, p, r) && ReadsPlaces(tree, q, s)
    requires (forall k | 0 <= k < |p| :: p[k] != [] && p[k][0] == from)
    requires (forall k | 0 <= k < |q| :: q[k] != [] && q[k][0] > from)
    ensures ReadsPlaces(tree, p + q, r + s)
  {
    forall k | 0 <= k < |p + q| ensures ReadAt(tree, (p + q)[k], (r + s)[k]) {
      if k < |p| { assert ReadAt(tree, p[k], r[k]); } else { assert ReadAt(tree, q[k - |p|], s[k - |p|]); }
    }
  }

  lemma BothAll(tree: Json, from: nat, inner: seq<seq<nat>>, later: seq<seq<nat>>)
    requires from < |Children(tree)| && AllFrom(tree, later, from + 1)
    requires forall place: seq<nat> :: place in inner <==> At(Children(tree)[from], place).Some?
    ensures AllFrom(tree, Below(from, inner) + later, from)
  {
    var below := Below(from, inner);
    forall place | place != [] && place[0] >= from && At(tree, place).Some? ensures place in below + later {
      if place[0] == from {
        assert place == [from] + place[1..];
        AtBelow(tree, from, place[1..]);
        var k :| 0 <= k < |inner| && inner[k] == place[1..];
        assert below[k] == place;
      }
    }
  }

  lemma {:induction false} PlaceIsInside(tree: Json, place: seq<nat>)
    requires At(tree, place).Some?
    ensures Inside(At(tree, place).value, tree)
    decreases |place|
  {
    if place == [] {
    } else if tree.Array? {
      PlaceIsInside(tree.items[place[0]], place[1..]);
    } else {
      PlaceIsInside(tree.fields[place[0]].value, place[1..]);
    }
  }

  lemma {:induction false} InsideHasAPlace(v: Json, tree: Json) returns (place: seq<nat>)
    requires Inside(v, tree)
    ensures At(tree, place) == Some(v)
    decreases tree
  {
    if v == tree {
      place := [];
    } else if tree.Array? {
      var i: nat :| i < |tree.items| && Inside(v, tree.items[i]);
      var rest := InsideHasAPlace(v, tree.items[i]);
      place := [i] + rest;
    } else {
      var i: nat :| i < |tree.fields| && Inside(v, tree.fields[i].value);
      var rest := InsideHasAPlace(v, tree.fields[i].value);
      place := [i] + rest;
    }
  }

  /** A field of that name is there, and the first one holds that value. */
  predicate Holds(fields: seq<Field>, name: string, value: Json) {
    exists i :: 0 <= i < |fields| && fields[i] == Field(name, value) && forall j | 0 <= j < i :: fields[j].name != name
  }

  lemma {:induction false} LookupFinds(fields: seq<Field>, name: string, value: Json)
    ensures Holds(fields, name, value) ==> Lookup(fields, name) == value
    ensures Lookup(fields, name) == value && value != Null ==> Holds(fields, name, value)
  {
    if fields == [] {
    } else if fields[0].name == name {
      if Lookup(fields, name) == value { assert fields[0] == Field(name, value); }
    } else {
      LookupFinds(fields[1..], name, value);
      HoldsLater(fields, name, value);
    }
  }

  lemma HoldsLater(fields: seq<Field>, name: string, value: Json)
    requires fields != [] && fields[0].name != name
    ensures Holds(fields, name, value) <==> Holds(fields[1..], name, value)
  {
    var later := fields[1..];
    if i: nat :| i < |fields| && fields[i] == Field(name, value) && forall j | 0 <= j < i :: fields[j].name != name {
      assert later[i - 1] == Field(name, value);
    }
    if i: nat :| i < |later| && later[i] == Field(name, value) && forall j | 0 <= j < i :: later[j].name != name {
      assert fields[i + 1] == Field(name, value);
      assert forall j | 0 < j < i + 1 :: fields[j] == later[j - 1];
    }
  }

  /** A scan of the source is an object of operator type TABLE_SCAN over a table whose name ends in its own. */
  lemma SourceScanExactly(node: Json)
    ensures IsSourceScan(node) <==>
            && node.Object? && Holds(node.fields, "operator_type", Str("TABLE_SCAN"))
            && exists extra: Json, database: string ::
                 && Holds(node.fields, "extra_info", extra) && extra.Object?
                 && Holds(extra.fields, "Table", Str(database + ".dataset_perf_data"))
    ensures forall rows: U64 :: RowsScanned(node) == Some(rows) <==>
              node.Object? && Holds(node.fields, "operator_rows_scanned", Number(Some(rows)))
  {
    if node.Object? {
      LookupFinds(node.fields, "operator_type", Str("TABLE_SCAN"));
      TableFinds(node);
      forall rows: U64 ensures RowsScanned(node) == Some(rows) <==>
                               Holds(node.fields, "operator_rows_scanned", Number(Some(rows))) {
        LookupFinds(node.fields, "operator_rows_scanned", Number(Some(rows)));
      }
    }
  }

  lemma TableFinds(node: Json)
    requires node.Object?
    ensures Get(Get(node, "extra_info"), "Table").Str?
            && EndsWith(Get(Get(node, "extra_info"), "Table").text, ".dataset_perf_data") <==>
            exists extra: Json, database: string ::
              && Holds(node.fields, "extra_info", extra) && extra.Object?
              && Holds(extra.fields, "Table", Str(database + ".dataset_perf_data"))
  {
    var suffix := ".dataset_perf_data";
    var extra := Get(node, "extra_info");
    var table := Get(extra, "Table");
    if table.Str? && EndsWith(table.text, suffix) {
      var database := table.text[..|table.text| - |suffix|];
      assert table.text == database + suffix;
      LookupFinds(node.fields, "extra_info", extra);
      LookupFinds(extra.fields, "Table", table);
      assert Holds(extra.fields, "Table", Str(database + suffix));
    }
    if other: Json, database: string :|
      Holds(node.fields, "extra_info", other) && other.Object? && Holds(other.fields, "Table", Str(database + suffix)) {
      LookupFinds(node.fields, "extra_info", other);
      LookupFinds(other.fields, "Table", Str(database + suffix));
      assert (database + suffix)[|database|..] == suffix;
    }
  }

  /** Every scan of the source anywhere in the plan says how many rows it read. */
  ghost predicate AllCounted(plan: Json) {
    forall v | Inside(v, plan) && IsSourceScan(v) :: RowsScanned(v).Some?
  }

  /** The row counts of the source scans at these places. */
  function CountsAt(plan: Json, places: seq<seq<nat>>): seq<U64>
    requires forall k | 0 <= k < |places| :: At(plan, places[k]).Some?
  {
    if places == [] then []
    else
      var v := At(plan, places[0]).value;
      (if IsSourceScan(v) && RowsScanned(v).Some? then [RowsScanned(v).value] else []) + CountsAt(plan, places[1..])
  }

  lemma {:induction false} CountsByPlace(plan: Json, places: seq<seq<nat>>, readings: seq<Reading>)
    requires ReadsPlaces(plan, places, readings)
    ensures forall k | 0 <= k < |places| :: At(plan, places[k]).Some?
    ensures Counts(readings) == CountsAt(plan, places)
  {
    assert forall k | 0 <= k < |places| :: ReadAt(plan, places[k], readings[k]);
    if places == [] {
    } else {
      CountsByPlace(plan, places[1..], readings[1..]);
    }
  }

  /** The counts that a complete scan collects are those of the source scans at all places, in the order of its walk. */
  lemma CollectedByPlace(plan: Json) returns (places: seq<seq<nat>>)
    ensures InOrder(places) && forall place: seq<nat> :: place in places <==> At(plan, place).Some?
    ensures Counts(Readings(plan)) == CountsAt(plan, places)
  {
    places := OneReadingPerPlace(plan);
    CountsByPlace(plan, places, Readings(plan));
  }

  lemma InsideIsRead(plan: Json, v: Json)
    requires Inside(v, plan)
    ensures Read(v) in Readings(plan)
  {
    var places := OneReadingPerPlace(plan);
    var place := InsideHasAPlace(v, plan);
    var k :| 0 <= k < |places| && places[k] == place;
    assert ReadAt(plan, places[k], Readings(plan)[k]);
  }

  lemma ReadIsInside(plan: Json, k: nat) returns (v: Json)
    requires k < |Readings(plan)|
    ensures Inside(v, plan) && Readings(plan)[k] == Read(v)
  {
    var places := OneReadingPerPlace(plan);
    assert ReadAt(plan, places[k], Readings(plan)[k]);
    PlaceIsInside(plan, places[k]);
    v := At(plan, places[k]).value;
  }

  /** The scan is complete exactly when every source scan inside the plan has its count. */
  lemma CompleteExactly(plan: Json)
    ensures Uncounted !in Readings(plan) <==> AllCounted(plan)
  {
    if AllCounted(plan) && Uncounted in Readings(plan) {
      var k :| 0 <= k < |Readings(plan)| && Readings(plan)[k] == Uncounted;
      var v := ReadIsInside(plan, k);
    }
    forall v | Inside(v, plan) && IsSourceScan(v) && RowsScanned(v).None? ensures Uncounted in Readings(plan) {
      InsideIsRead(plan, v);
    }
  }

  /** It has counted something exactly when there is a source scan with a count inside the plan. */
  lemma CountedExactly(plan: Json)
    ensures Counts(Readings(plan)) != [] <==>
            exists v :: Inside(v, plan) && IsSourceScan(v) && RowsScanned(v).Some?
  {
    var readings := Readings(plan);
    AnyCount(readings);
    if k: nat :| k < |readings| && readings[k].Counted? { var v := ReadIsInside(plan, k); }
    if v :| Inside(v, plan) && IsSourceScan(v) && RowsScanned(v).Some? {
      InsideIsRead(plan, v);
      var k :| 0 <= k < |readings| && readings[k] == Read(v);
    }
  }

  lemma {:induction false} AnyCount(readings: seq<Reading>)
    ensures Counts(readings) != [] <==> exists k :: 0 <= k < |readings| && readings[k].Counted?
  {
    if readings == [] {
    } else {
      AnyCount(readings[1..]);
      if k :| 0 <= k < |readings| && readings[k].Counted? { if k > 0 { assert readings[1..][k - 1].Counted?; } }
    }
  }

  // ---- The scan

  /** The vector the counts are pushed to. */
  class Scans {
    var rows: seq<U64>

    constructor ()
      ensures rows == []
    {
      rows := [];
    }
  }

  /**
   `source_scan_rows` is true exactly when every source scan in the plan has a count, and has then pushed all of these
   counts; otherwise it has pushed those before the first one that is missing.
   */
  method SourceScanRows(plan: Json, scans: Scans) returns (ok: bool)
    modifies scans
    ensures ok <==> AllCounted(plan)
    ensures ok <==> Uncounted !in Readings(plan)
    ensures scans.rows == old(scans.rows) + Counts(UpToUncounted(Readings(plan)))
    ensures ok ==> scans.rows == old(scans.rows) + Counts(Readings(plan))
    decreases plan
  {
    CompleteExactly(plan);
    if IsSourceScan(plan) {
      if RowsScanned(plan).None? { return false; }
      scans.rows := scans.rows + [RowsScanned(plan).value];
    }
    ok := ScanChildren(plan, [Read(plan)], old(scans.rows), scans);
  }

  method ScanChildren(plan: Json, ghost own: seq<Reading>, ghost was: seq<U64>, scans: Scans) returns (ok: bool)
    requires Uncounted !in own && scans.rows == was + Counts(own)
    modifies scans
    ensures ok <==> Uncounted !in own + ReadingsFrom(plan, 0)
    ensures scans.rows == was + Counts(UpToUncounted(own + ReadingsFrom(plan, 0)))
    ensures ok ==> scans.rows == was + Counts(own + ReadingsFrom(plan, 0))
    decreases plan, 0
  {
    ghost var all, done := own + ReadingsFrom(plan, 0), own;
    for i := 0 to |Children(plan)|
      invariant all == done + ReadingsFrom(plan, i)
      invariant Uncounted !in done && scans.rows == was + Counts(done)
    {
      ghost var next, rest := Readings(Children(plan)[i]), ReadingsFrom(plan, i + 1);
      ChildIsNext(plan, i, all, done);
      GoesOn(was, done, next, rest);
      var inner := SourceScanRows(Children(plan)[i], scans);
      if !inner { return false; }
      done := done + next;
    }
    assert all == done;
    UpToAll(all);
    ok := true;
  }

  lemma ChildIsNext(plan: Json, i: nat, all: seq<Reading>, done: seq<Reading>)
    requires i < |Children(plan)| && all == done + ReadingsFrom(plan, i)
    ensures all == done + Readings(Children(plan)[i]) + ReadingsFrom(plan, i + 1)
  {
  }

  // ---- The profiler and the loader

  function Sum(rows: seq<U64>): nat {
    if rows == [] then 0 else Sum(rows[..|rows| - 1]) + rows[|rows| - 1]
  }

  lemma {:induction false} SumOfPrefix(rows: seq<U64>, k: nat)
    requires k <= |rows|
    ensures Sum(rows[..k]) <= Sum(rows)
  {
    if k < |rows| {
      SumOfPrefix(rows[..|rows| - 1], k);
      assert rows[..|rows| - 1][..k] == rows[..k];
    } else {
      assert rows[..k] == rows;
    }
  }

  /** The sum, unless it overflows 64 bits. */
  function Total(rows: seq<U64>): Option<U64> {
    if Sum(rows) < U64_LIMIT then Some(Sum(rows)) else None
  }

  /** `try_fold` with `checked_add`: it gives up at the first partial sum that overflows. */
  method CheckedSum(rows: seq<U64>) returns (total: Option<U64>)
    ensures total == Total(rows)
  {
    var sum: U64 := 0;
    for k := 0 to |rows|
      invariant sum == Sum(rows[..k])
    {
      assert rows[..k + 1][..k] == rows[..k];
      SumOfPrefix(rows, k + 1);
      if sum + rows[k] >= U64_LIMIT { return None; }
      sum := sum + rows[k];
    }
    assert rows[..|rows|] == rows;
    total := Some(sum);
  }

  /** A profiled query, with its analysed plan. */
  datatype Query = Query(plan: Json)

  /** The rows that readings stand for, up to the first that is missing. */
  function Observed(readings: seq<Reading>): Option<U64> {
    Total(Counts(UpToUncounted(readings)))
  }

  /** The source is scanned, every scan is counted, and together they are not all of it. */
  predicate Partial(readings: seq<Reading>, rows: U64) {
    Uncounted !in readings && Counts(readings) != [] && Sum(Counts(readings)) < rows
  }

  /** What the check of one query finds, from the counts its scan pushed. */
  lemma CheckFinds(readings: seq<Reading>, pushed: seq<U64>, rows: U64)
    requires pushed == Counts(UpToUncounted(readings))
    ensures Partial(readings, rows) <==>
            Uncounted !in readings && pushed != [] && Total(pushed).Some? && Total(pushed).value < rows
  {
    if Uncounted !in readings { UpToAll(readings); }
  }

  /** The rows a query is counted for, whether or not the scan of its plan got to the end. */
  function Observation(query: Query): Option<U64> {
    Observed(Readings(query.plan))
  }

  /** The query's plan scans the source, says how much of it, and that is not all of it. */
  predicate ScansPart(query: Query, rows: U64) {
    Partial(Readings(query.plan), rows)
  }

  /** A query passes when the source is scanned in its plan, every scan of it is counted, and not all of it was read. */
  lemma ScansPartExactly(query: Query, rows: U64)
    ensures ScansPart(query, rows) <==>
            && AllCounted(query.plan)
            && (exists v :: Inside(v, query.plan) && IsSourceScan(v))
            && Sum(Counts(Readings(query.plan))) < rows
  {
    CompleteExactly(query.plan);
    CountedExactly(query.plan);
  }

  datatype Profile = Profile(queries: seq<Query>, rows: U64, observations: seq<Option<U64>>, verifiedNoFullScan: bool)

  /** The check of one query, as both sides make it. */
  method ObserveQuery(query: Query, rows: U64) returns (part: bool, total: Option<U64>)
    ensures part <==> ScansPart(query, rows)
    ensures total == Observation(query) && (part ==> total.Some?)
  {
    var scans := new Scans();
    var ok := SourceScanRows(query.plan, scans);
    var rowsScanned := scans.rows;
    CheckFinds(Readings(query.plan), rowsScanned, rows);
    total := CheckedSum(rowsScanned);
    part := ok && rowsScanned != [] && total.Some? && total.value < rows;
  }

  /** The observations of the queries, one by one. */
  function Observations(queries: seq<Query>): seq<Option<U64>> {
    if queries == [] then [] else Observations(queries[..|queries| - 1]) + [Observation(queries[|queries| - 1])]
  }

  predicate AllPart(queries: seq<Query>, rows: U64) {
    queries == [] || (AllPart(queries[..|queries| - 1], rows) && ScansPart(queries[|queries| - 1], rows))
  }

  lemma {:induction false} ObservationAt(queries: seq<Query>, k: nat)
    requires k < |queries|
    ensures |Observations(queries)| == |queries| && Observations(queries)[k] == Observation(queries[k])
  {
    var n := |queries| - 1;
    if n > 0 {
      ObservationAt(queries[..n], if k < n then k else 0);
    } else {
      assert Observations(queries[..n]) == [];
    }
  }

  lemma {:induction false} AllWhenEach(queries: seq<Query>, rows: U64)
    requires forall k | 0 <= k < |queries| :: ScansPart(queries[k], rows)
    ensures AllPart(queries, rows)
  {
    if queries == [] {
    } else {
      AllWhenEach(queries[..|queries| - 1], rows);
    }
  }

  lemma EachObservation(queries: seq<Query>, rows: U64)
    ensures |Observations(queries)| == |queries|
    ensures forall k | 0 <= k < |queries| :: Observations(queries)[k] == Observation(queries[k])
    ensures AllPart(queries, rows) <==> forall k | 0 <= k < |queries| :: ScansPart(queries[k], rows)
  {
    forall k | 0 <= k < |queries|
      ensures |Observations(queries)| == |queries| && Observations(queries)[k] == Observation(queries[k])
      ensures AllPart(queries, rows) ==> ScansPart(queries[k], rows)
    {
      ObservationAt(queries, k);
      OneMoreQuery(queries, rows, k);
    }
    if forall k | 0 <= k < |queries| :: ScansPart(queries[k], rows) { AllWhenEach(queries, rows); }
  }

  lemma {:induction false} PartOfAll(queries: seq<Query>, rows: U64, k: nat)
    requires k <= |queries|
    ensures AllPart(queries, rows) ==> AllPart(queries[..k], rows)
  {
    if k < |queries| {
      PartOfAll(queries[..|queries| - 1], rows, k);
      assert queries[..|queries| - 1][..k] == queries[..k];
    } else {
      assert queries[..k] == queries;
    }
  }

  lemma OneMoreQuery(queries: seq<Query>, rows: U64, k: nat)
    requires k < |queries|
    ensures Observations(queries[..k + 1]) == Observations(queries[..k]) + [Observation(queries[k])]
    ensures AllPart(queries[..k + 1], rows) <==> AllPart(queries[..k], rows) && ScansPart(queries[k], rows)
    ensures AllPart(queries, rows) ==> ScansPart(queries[k], rows)
  {
    assert queries[..k + 1][..k] == queries[..k];
    PartOfAll(queries, rows, k + 1);
  }

  /** `queries.iter().all`: it stops at the first query that does not pass, whose observation is still recorded. */
  method ObserveAll(queries: seq<Query>, rows: U64)
    returns (observations: seq<Option<U64>>, all: bool, ghost passed: nat)
    ensures all <==> AllPart(queries, rows)
    ensures passed <= |queries| && AllPart(queries[..passed], rows)
    ensures if all then passed == |queries| && observations == Observations(queries)
            else passed < |queries| && observations == Observations(queries[..passed + 1])
  {
    observations := [];
    for k := 0 to |queries|
      invariant observations == Observations(queries[..k]) && AllPart(queries[..k], rows)
    {
      var part, total := ObserveQuery(queries[k], rows);
      OneMoreQuery(queries, rows, k);
      observations := observations + [total];
      if !part { return observations, false, k; }
    }
    assert queries[..|queries|] == queries;
    all, passed := true, |queries|;
  }

  /** The loader's loop: it gives up at the first query that does not pass. */
  method LoadAll(queries: seq<Query>, rows: U64) returns (found: Option<seq<U64>>)
    ensures found.Some? <==> AllPart(queries, rows)
    ensures found.Some? ==> Present(found.value) == Observations(queries)
  {
    var observations: seq<U64> := [];
    for k := 0 to |queries|
      invariant Present(observations) == Observations(queries[..k]) && AllPart(queries[..k], rows)
    {
      var part, total := ObserveQuery(queries[k], rows);
      OneMoreQuery(queries, rows, k);
      if !part { return None; }
      PresentGrows(observations, total.value);
      observations := observations + [total.value];
    }
    assert queries[..|queries|] == queries;
    found := Some(observations);
  }

  function Present(rows: seq<U64>): (present: seq<Option<U64>>)
    ensures |present| == |rows| && forall k | 0 <= k < |rows| :: present[k] == Some(rows[k])
  {
    seq(|rows|, k requires 0 <= k < |rows| => Some(rows[k]))
  }

  lemma PresentGrows(rows: seq<U64>, row: U64)
    ensures Present(rows + [row]) == Present(rows) + [Some(row)]
  {
  }

  lemma Recorded(queries: seq<Query>, rows: U64, observations: seq<Option<U64>>, all: bool, passed: nat)
    requires passed <= |queries| && AllPart(queries[..passed], rows) && (all <==> AllPart(queries, rows))
    requires if all then passed == |queries| && observations == Observations(queries)
             else passed < |queries| && observations == Observations(queries[..passed + 1])
    ensures |observations| == (if all then passed else passed + 1)
    ensures forall k | 0 <= k < |observations| :: observations[k] == Observation(queries[k])
    ensures forall k | 0 <= k < passed :: ScansPart(queries[k], rows)
    ensures all <==> forall k | 0 <= k < |queries| :: ScansPart(queries[k], rows)
  {
    EachObservation(queries, rows);
    EachObservation(queries[..passed], rows);
    if !all { EachObservation(queries[..passed + 1], rows); }
    forall k | 0 <= k < passed ensures ScansPart(queries[k], rows) { assert queries[..passed][k] == queries[k]; }
  }

  /**
   The fold in `profile`: verified exactly when there are three queries and each scans a part of the source.
   Observations are recorded up to the first query that does not.
   */
  method MakeProfile(queries: seq<Query>, rows: U64) returns (profile: Profile)
    ensures profile.queries == queries && profile.rows == rows
    ensures profile.verifiedNoFullScan <==> |queries| == 3 && forall k | 0 <= k < 3 :: ScansPart(queries[k], rows)
    ensures |profile.observations| <= |queries|
    ensures forall k | 0 <= k < |profile.observations| :: profile.observations[k] == Observation(queries[k])
    ensures forall k | 0 <= k < |profile.observations| - 1 :: ScansPart(queries[k], rows)
    ensures profile.verifiedNoFullScan ==> |profile.observations| == 3
  {
    if |queries| != 3 { return Profile(queries, rows, [], false); }
    var observations, all;
    ghost var passed;
    observations, all, passed := ObserveAll(queries, rows);
    Recorded(queries, rows, observations, all, passed);
    profile := Profile(queries, rows, observations, all);
  }

  /** The loader's own scan, after it has checked that the profile is of a fixture with as many rows as its database. */
  method LoadProfile(profile: Profile, rows: U64) returns (observations: Option<seq<U64>>)
    ensures observations.Some? <==>
              && profile.rows == rows && |profile.queries| == 3 && profile.verifiedNoFullScan
              && forall k | 0 <= k < 3 :: ScansPart(profile.queries[k], rows)
    ensures observations.Some? ==>
              && |observations.value| == 3
              && forall k | 0 <= k < 3 :: Observation(profile.queries[k]) == Some(observations.value[k])
  {
    if profile.rows != rows { return None; }
    if |profile.queries| != 3 || !profile.verifiedNoFullScan { return None; }
    observations := LoadAll(profile.queries, rows);
    EachObservation(profile.queries, rows);
  }

  /**
   A profile marked `verifiedNoFullScan` by the profiler passes the loader's re-scan of the same plans for the same
   fixture size, with the same observations; one that is not marked never does.
   */
  method ProfileAndLoad(queries: seq<Query>, rows: U64) returns (profile: Profile, loaded: Option<seq<U64>>)
    ensures loaded.Some? <==> profile.verifiedNoFullScan
    ensures loaded.Some? ==>
              && |loaded.value| == |profile.observations| == 3
              && forall k | 0 <= k < 3 :: profile.observations[k] == Some(loaded.value[k])
    ensures profile.verifiedNoFullScan <==> |queries| == 3 && forall k | 0 <= k < 3 :: ScansPart(queries[k], rows)
  {
    profile := MakeProfile(queries, rows);
    loaded := LoadProfile(profile, rows);
  }
}
