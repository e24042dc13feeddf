/** The native probe: one active sample at a time, and spans that outlive the lock they were opened under. */
module UiProbe {
  import opened Common
  import opened Intervals

  const U64_MAX: nat := 0xFFFF_FFFF_FFFF_FFFF

  datatype Scenario = Catalog | Window | Scroll | Edit | Close

  datatype ProbeError = SampleActive | IdExhausted | SampleMissing | SampleStale | NativeWorkPending

  /** A monotonic clock reading, in nanoseconds. */
  type Instant = U128

  datatype ActiveSample = ActiveSample(
    id: nat,
    scenario: Scenario,
    epoch: Option<nat>,
    origin: Instant,
    intervals: seq<Interval>,
    backendNs: nat,
    nativeCalls: nat,
    inFlight: nat,
    bytes: nat,
    payloadMissing: bool)

  /** What `finish` reports about the native side; durations stay in nanoseconds. */
  datatype Report = Report(
    sampleId: nat,
    intervals: seq<Interval>,
    nativeCalls: nat,
    nativeCallsPending: nat,
    backendNs: Option<nat>,
    backendAggregateNs: Option<nat>,
    backendOverlapNs: Option<nat>,
    transferredBytes: Option<nat>,
    passed: bool)

  class UiBackendSpan {
    const sampleId: Option<nat>
    const started: Instant

    constructor (sampleId: Option<nat>, started: Instant)
      ensures this.sampleId == sampleId && this.started == started
    {
      this.sampleId, this.started := sampleId, started;
    }
  }

  // ---------------------------------------------------------------- payloads

  /** The payload fields after the given spans were dropped: a missing or overflowing payload spoils the sum. */
  function Payload(payloads: seq<Option<nat>>): (nat, bool) {
    if payloads == [] then (0, false)
    else
      var (bytes, missing) := Payload(payloads[..|payloads| - 1]);
      var last := payloads[|payloads| - 1];
      if last.Some? && bytes + last.value <= U64_MAX then (bytes + last.value, missing) else (bytes, true)
  }

  function SumPayloads(payloads: seq<Option<nat>>): nat {
    if payloads == [] then 0
    else
      var last := payloads[|payloads| - 1];
      SumPayloads(payloads[..|payloads| - 1]) + (if last.Some? then last.value else 0)
  }

  /** The byte count is the sum of all payloads exactly when none was missing and the sum fits 64 bits. */
  lemma {:induction false} PayloadMeaning(payloads: seq<Option<nat>>)
    ensures var (bytes, missing) := Payload(payloads);
            && (!missing <==> (forall i | 0 <= i < |payloads| :: payloads[i].Some?) && SumPayloads(payloads) <= U64_MAX)
            && (!missing ==> bytes == SumPayloads(payloads))
  {
    if payloads == [] {
    } else {
      var n := |payloads| - 1;
      PayloadMeaning(payloads[..n]);
      assert forall i | 0 <= i < n :: payloads[..n][i] == payloads[i];
    }
  }

  // ---------------------------------------------------------------- times

  /** The intervals are those times, counted from the origin. */
  ghost predicate CountedFrom(origin: Instant, times: seq<Interval>, intervals: seq<Interval>) {
    && |intervals| == |times|
    && forall i | 0 <= i < |times| ::
         && origin <= times[i].start <= times[i].end
         && intervals[i] == Interval(times[i].start - origin, times[i].end - origin)
  }

  lemma SumLengthsGrows(s: seq<Interval>, iv: Interval)
    ensures SumLengths(s + [iv]) == SumLengths(s) + (iv.end - iv.start)
  {
    assert (s + [iv])[..|s|] == s;
  }

  // ---------------------------------------------------------------- the probe

  ghost function OpenFor(open: set<UiBackendSpan>, id: nat): set<UiBackendSpan> {
    set span | span in open && span.sampleId == Some(id)
  }

  /** An active sample after one of its spans, opened at `started`, was dropped at `ended`. */
  function Dropped(sample: ActiveSample, started: Instant, ended: Instant, payload: Option<nat>): ActiveSample
    requires sample.origin <= started <= ended && sample.inFlight > 0
  {
    var fits := payload.Some? && sample.bytes + payload.value <= U64_MAX;
    sample.(intervals := sample.intervals + [Interval(started - sample.origin, ended - sample.origin)],
            backendNs := sample.backendNs + (ended - started),
            nativeCalls := sample.nativeCalls + 1,
            inFlight := sample.inFlight - 1,
            bytes := if fits then sample.bytes + payload.value else sample.bytes,
            payloadMissing := sample.payloadMissing || !fits)
  }

  /** What the drop writes into the sample, field by field. */
  method Record(before: ActiveSample, started: Instant, ended: Instant, payload: Option<nat>)
    returns (sample: ActiveSample)
    requires before.origin <= started <= ended && before.inFlight > 0
    ensures sample == Dropped(before, started, ended, payload)
  {
    sample := before.(backendNs := before.backendNs + (ended - started));
    if started >= sample.origin && ended >= sample.origin {
      sample := sample.(intervals := sample.intervals + [Interval(started - sample.origin, ended - sample.origin)]);
    }
    sample := sample.(nativeCalls := sample.nativeCalls + 1, inFlight := sample.inFlight - 1);
    if payload.Some? && sample.bytes + payload.value <= U64_MAX {
      sample := sample.(bytes := sample.bytes + payload.value);
    } else {
      sample := sample.(payloadMissing := true);
    }
  }

  lemma OpenShrinks(open: set<UiBackendSpan>, id: nat, span: UiBackendSpan)
    requires span in open
    ensures OpenFor(open - {span}, id) == OpenFor(open, id) - {span}
    ensures span.sampleId == Some(id) ==>
            |OpenFor(open, id)| > 0 && |OpenFor(open, id) - {span}| == |OpenFor(open, id)| - 1
    ensures span.sampleId != Some(id) ==> OpenFor(open, id) - {span} == OpenFor(open, id)
  {
    if span.sampleId == Some(id) { assert span in OpenFor(open, id); }
  }

  lemma DropKeepsSample(sample: ActiveSample, payloads: seq<Option<nat>>, times: seq<Interval>,
                        started: Instant, ended: Instant, payload: Option<nat>)
    requires SampleOk(sample, payloads, times) && sample.origin <= started <= ended && sample.inFlight > 0
    ensures SampleOk(Dropped(sample, started, ended, payload), payloads + [payload], times + [Interval(started, ended)])
  {
    SumLengthsGrows(sample.intervals, Interval(started - sample.origin, ended - sample.origin));
    assert (payloads + [payload])[..|payloads|] == payloads;
  }

  class UiProbeState {
    var nextId: nat
    var active: Option<ActiveSample>
    ghost var open: set<UiBackendSpan>         // the spans not yet dropped
    ghost var payloads: seq<Option<nat>>       // the payloads of the active sample's dropped spans
    ghost var times: seq<Interval>             // and when these started and ended

    /** In every state: the counters and sums of the active sample are exactly what its spans did. */
    ghost predicate Valid()
      reads this
    {
      && (active.Some? ==>
            && active.value.id == nextId
            && active.value.inFlight == |OpenFor(open, nextId)|
            && SampleOk(active.value, payloads, times)
            && forall span | span in OpenFor(open, nextId) :: active.value.origin <= span.started)
      && (forall span | span in open && span.sampleId.Some? :: span.sampleId.value <= nextId)
      && nextId <= U64_MAX
    }

    constructor ()
      ensures Valid() && active.None? && nextId == 0 && open == {}
    {
      nextId, active, open, payloads, times := 0, None, {}, [], [];
    }

    /** A new sample gets an id above all earlier ones, and no open span belongs to it. */
    method Begin(scenario: Scenario, epoch: Option<nat>, origin: Instant) returns (r: Result<nat, ProbeError>)
      requires Valid()
      modifies this
      ensures Valid() && open == old(open)
      ensures r == if old(active).Some? then Err(SampleActive)
                   else if old(nextId) == U64_MAX then Err(IdExhausted) else Ok(old(nextId) + 1)
      ensures r.Err? ==> active == old(active) && nextId == old(nextId)
      ensures r.Ok? ==> nextId == r.value && payloads == [] && times == []
                        && active == Some(ActiveSample(nextId, scenario, epoch, origin, [], 0, 0, 0, 0, false))
    {
      if active.Some? { return Err(SampleActive); }
      if nextId == U64_MAX { return Err(IdExhausted); }
      assert OpenFor(open, nextId + 1) == {};
      nextId := nextId + 1;
      active, payloads, times := Some(ActiveSample(nextId, scenario, epoch, origin, [], 0, 0, 0, 0, false)), [], [];
      r := Ok(nextId);
    }

    /** A span is bound to the active sample when it asks for the same work and did not start before the sample. */
    method BackendSpan(scenario: Scenario, epoch: Option<nat>, started: Instant) returns (span: UiBackendSpan)
      requires Valid()
      modifies this
      ensures Valid() && fresh(span) && open == old(open) + {span} && span.started == started
      ensures nextId == old(nextId) && payloads == old(payloads) && times == old(times)
      ensures var matches := old(active).Some? && old(active).value.scenario == scenario
                             && old(active).value.epoch == epoch && old(active).value.origin <= started;
              && span.sampleId == (if matches then Some(nextId) else None)
              && active ==
                  (if matches then Some(old(active).value.(inFlight := old(active).value.inFlight + 1))
                   else old(active))
    {
      var sampleId: Option<nat> := None;
      if active.Some? {
        var sample := active.value;
        if sample.scenario == scenario && sample.epoch == epoch && started >= sample.origin {
          active := Some(sample.(inFlight := sample.inFlight + 1));
          sampleId := Some(sample.id);
        }
      }
      span := new UiBackendSpan(sampleId, started);
      open := open + {span};
      assert OpenFor(open, nextId) == OpenFor(old(open), nextId) + (if sampleId == Some(nextId) then {span} else {});
    }

    /** Dropping a span reports it to its own sample if that is still active, and to no other. */
    method Drop(span: UiBackendSpan, ended: Instant, payload: Option<nat>)
      requires Valid() && span in open && span.started <= ended
      modifies this
      ensures Valid() && open == old(open) - {span} && nextId == old(nextId)
      ensures if old(active).Some? && span.sampleId == Some(old(active).value.id)
              then active == Some(Dropped(old(active).value, span.started, ended, payload))
                  && payloads == old(payloads) + [payload] && times == old(times) + [Interval(span.started, ended)]
              else active == old(active) && payloads == old(payloads) && times == old(times)
    {
      OpenShrinks(open, nextId, span);
      if active.Some? && span.sampleId == Some(active.value.id) {
        DropKeepsSample(active.value, payloads, times, span.started, ended, payload);
        var sample := Record(active.value, span.started, ended, payload);
        active, payloads, times := Some(sample), payloads + [payload], times + [Interval(span.started, ended)];
      }
      open := open - {span};
    }

    /**
     `finish`. It is refused for a missing or foreign sample, and for a verified one with native work pending; then
     the sample stays active. Otherwise the slot is free, and a complete sample reports the exact time covered.
     */
    method Finish(id: nat, uiReadyMs: Option<real>, verified: bool) returns (r: Result<Report, ProbeError>)
      requires Valid()
      modifies this
      ensures Valid() && open == old(open) && nextId == old(nextId)
      ensures r.Err? <==> old(active).None? || old(active).value.id != id || (verified && OpenFor(open, id) != {})
      ensures r.Err? ==> active == old(active) && payloads == old(payloads) && times == old(times)
      ensures r.Err? ==> r.error == if old(active).None? then SampleMissing
                                    else if old(active).value.id != id then SampleStale else NativeWorkPending
      ensures r.Ok? ==> active.None? && CountedFrom(old(active).value.origin, old(times), r.value.intervals)
      ensures r.Ok? ==> Reports(id, |OpenFor(open, id)|, old(payloads), r.value, uiReadyMs, verified)
    {
      if active.None? { return Err(SampleMissing); }
      var sample := active.value;
      if sample.id != id { return Err(SampleStale); }
      if verified && sample.inFlight > 0 { return Err(NativeWorkPending); }
      active := None;
      var union: Option<U128> := None;
      if sample.nativeCalls > 0 && sample.inFlight == 0 && |sample.intervals| == sample.nativeCalls {
        union := IntervalUnionNs(sample.intervals);
        UnionBounds(sample.intervals);
      }
      PayloadMeaning(payloads);
      r := Ok(Summary(sample, union, uiReadyMs, verified));
    }
  }

  ghost predicate SampleOk(sample: ActiveSample, payloads: seq<Option<nat>>, times: seq<Interval>) {
    && |times| == sample.nativeCalls == |payloads|
    && CountedFrom(sample.origin, times, sample.intervals)
    && sample.backendNs == SumLengths(sample.intervals)
    && (sample.bytes, sample.payloadMissing) == Payload(payloads)
  }

  function Summary(sample: ActiveSample, union: Option<nat>, uiReadyMs: Option<real>, verified: bool): Report {
    Report(sample.id, sample.intervals, sample.nativeCalls, sample.inFlight, union,
           if union.Some? then Some(sample.backendNs) else None,
           if union.Some? && union.value <= sample.backendNs then Some(sample.backendNs - union.value) else None,
           if !sample.payloadMissing && sample.nativeCalls > 0 && sample.inFlight == 0 then Some(sample.bytes)
           else None,
           verified && !sample.payloadMissing && sample.inFlight == 0 && union.Some? && uiReadyMs.Some?
           && uiReadyMs.value >= union.value as real / 1000000.0 && uiReadyMs.value >= 0.0)
  }

  /** What the report means: its intervals are those of the closed spans of the sample, and `pending` are still open. */
  ghost predicate Reports(id: nat, pending: nat, payloads: seq<Option<nat>>, report: Report, uiReadyMs: Option<real>,
                          verified: bool) {
    var complete := report.intervals != [] && pending == 0;
    && report.sampleId == id && report.nativeCalls == |report.intervals| && report.nativeCallsPending == pending
    && report.backendNs == (if complete then Some(|Covered(report.intervals)|) else None)
    && report.backendAggregateNs == (if complete then Some(SumLengths(report.intervals)) else None)
    // the time counted twice is never negative, so it is never left out
    && report.backendOverlapNs ==
        (if complete then Some(SumLengths(report.intervals) - |Covered(report.intervals)|) else None)
    && report.transferredBytes == (if complete && AllPresent(payloads) then Some(SumPayloads(payloads)) else None)
    && (report.passed <==> && verified && complete && AllPresent(payloads) && uiReadyMs.Some?
                           && uiReadyMs.value >= |Covered(report.intervals)| as real / 1000000.0)
  }

  ghost predicate AllPresent(payloads: seq<Option<nat>>) {
    (forall i | 0 <= i < |payloads| :: payloads[i].Some?) && SumPayloads(payloads) <= U64_MAX
  }
}
