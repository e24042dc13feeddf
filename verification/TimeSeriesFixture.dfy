/** The time-series benchmark's fixture and the auditor that checks what was rendered from it. */
module TimeSeriesFixture {
  import opened Arithmetic
  import opened Common

  /** 2026-01-01T00:00:00Z, and a day, in milliseconds. */
  const BASE_TIME := 1_767_225_600_000
  const DAY_MS := 86_400_000

  // ---- Bitmaps

  /** `1 << k`, for the eight bits of a byte. */
  function Mask(k: nat): bv8
    requires k < 8
  {
    if k == 0 then 1 else if k == 1 then 2 else if k == 2 then 4 else if k == 3 then 8
    else if k == 4 then 16 else if k == 5 then 32 else if k == 6 then 64 else 128
  }

  /** Bit k of a byte is its k-th from the low end. */
  lemma MaskIsShift(k: nat)
    requires k < 8
    ensures Mask(k) == (1 as bv8) << k
  {
    if k == 0 { } else if k == 1 { } else if k == 2 { } else if k == 3 { }
    else if k == 4 { } else if k == 5 { } else if k == 6 { } else { }
  }

  /** The auditor's way to read a bit; beyond the end of the bytes it reads as unset. */
  predicate BitSet(bytes: seq<bv8>, row: nat) {
    BitAt(bytes, row / 8, row % 8)
  }

  predicate BitAt(bytes: seq<bv8>, byte: nat, bit: nat)
    requires bit < 8
  {
    byte < |bytes| && bytes[byte] & Mask(bit) != 0
  }

  /** Setting one bit of a byte leaves the others alone. */
  lemma SetsOneBit(b: bv8, j: nat, k: nat)
    requires j < 8 && k < 8
    ensures (b | Mask(k)) & Mask(j) != 0 <==> j == k || b & Mask(j) != 0
  {
    if k == 0 { } else if k == 1 { } else if k == 2 { } else if k == 3 { }
    else if k == 4 { } else if k == 5 { } else if k == 6 { } else { }
  }

  /** Row is one of every `invalidEvery`-th rows; none is when that is absent or zero. */
  predicate Skipped(row: nat, invalidEvery: Option<nat>) {
    invalidEvery.Some? && invalidEvery.value != 0 && (row + 1) % invalidEvery.value == 0
  }

  /** What a bitmap of that many rows decodes to: their validity, and nothing beyond the last one. */
  ghost predicate Decodes(bytes: seq<bv8>, rowCount: nat, invalidEvery: Option<nat>) {
    |bytes| == (rowCount + 7) / 8 && forall row: nat :: BitSet(bytes, row) <==>
        row < rowCount && !Skipped(row, invalidEvery)
  }

  ghost predicate DecodesUpTo(bytes: seq<bv8>, done: nat, invalidEvery: Option<nat>) {
    forall row: nat :: BitSet(bytes, row) <==> row < done && !Skipped(row, invalidEvery)
  }

  function Marked(bytes: seq<bv8>, row: nat): seq<bv8>
    requires row / 8 < |bytes|
  {
    bytes[row / 8 := bytes[row / 8] | Mask(row % 8)]
  }

  lemma MarksOneBit(bytes: seq<bv8>, i: nat, k: nat, j: nat, l: nat)
    requires i < |bytes| && k < 8 && l < 8
    ensures BitAt(bytes[i := bytes[i] | Mask(k)], j, l) <==> (i == j && k == l) || BitAt(bytes, j, l)
  {
    var b := bytes[i];
    SetsOneBit(b, l, k);
    if i == j {} else {}
  }

  lemma MarksOneRow(bytes: seq<bv8>, done: nat, row: nat)
    requires done / 8 < |bytes|
    ensures BitSet(Marked(bytes, done), row) <==> row == done || BitSet(bytes, row)
  {
    SameBit(row, done);
    MarksOneBit(bytes, done / 8, done % 8, row / 8, row % 8);
  }

  lemma SameBit(row: nat, done: nat)
    ensures row == done <==> row / 8 == done / 8 && row % 8 == done % 8
  {
  }

  lemma DecodesOneMore(bytes: seq<bv8>, done: nat, invalidEvery: Option<nat>)
    requires DecodesUpTo(bytes, done, invalidEvery) && done / 8 < |bytes| && !Skipped(done, invalidEvery)
    ensures DecodesUpTo(Marked(bytes, done), done + 1, invalidEvery)
  {
    forall row: nat ensures BitSet(Marked(bytes, done), row) <==> row < done + 1 && !Skipped(row, invalidEvery) {
      MarksOneRow(bytes, done, row);
    }
  }

  lemma NothingSet(bytes: seq<bv8>, invalidEvery: Option<nat>)
    requires forall i | 0 <= i < |bytes| :: bytes[i] == 0
    ensures DecodesUpTo(bytes, 0, invalidEvery)
  {
  }

  method ValidityBitmap(rowCount: nat, invalidEvery: Option<nat>) returns (bytes: array<bv8>)
    ensures fresh(bytes) && Decodes(bytes[..], rowCount, invalidEvery)
  {
    bytes := new bv8[(rowCount + 7) / 8](_ => 0);
    NothingSet(bytes[..], invalidEvery);
    for row := 0 to rowCount
      invariant DecodesUpTo(bytes[..], row, invalidEvery)
    {
      if invalidEvery.Some? && invalidEvery.value != 0 && (row + 1) % invalidEvery.value == 0 { continue; }
      DecodesOneMore(bytes[..], row, invalidEvery);
      ghost var was := bytes[..];
      bytes[row / 8] := bytes[row / 8] | Mask(row % 8);
      assert bytes[..] == Marked(was, row);
    }
  }

  // ---- The fixture

  datatype Scenario = Scenario(points: nat, seriesCount: nat, showMarkers: bool)

  /** The columns of one series. `yBits` is the validity bitmap of the y column. */
  datatype Chunk = Chunk(
    rowCount: nat,
    xValues: seq<real>,
    yValues: seq<real>,
    rowIds: seq<int>,
    sourceCodes: Option<seq<nat>>,
    xBits: seq<bv8>,
    yBits: seq<bv8>,
    sourceBits: seq<bv8>)

  function ExpectedX(row: nat): real {
    (BASE_TIME + row / 2 * DAY_MS) as real
  }

  function ExpectedId(series: nat, rows: nat, row: nat): nat {
    series * rows + row + 1
  }

  /** The chunk of one series, given what the sine curve is at each row. */
  ghost predicate IsFixture(chunk: Chunk, series: nat, rows: nat, wave: (nat, nat) -> real) {
    && chunk.rowCount == |chunk.xValues| == |chunk.yValues| == |chunk.rowIds| == rows
    && chunk.sourceCodes.Some? && |chunk.sourceCodes.value| == rows
    && (forall row | 0 <= row < rows :: chunk.xValues[row] == ExpectedX(row) && chunk.yValues[row] == wave(series, row))
    && (forall row | 0 <= row < rows :: chunk.rowIds[row] == ExpectedId(series, rows, row))
    && (forall row | 0 <= row < rows :: chunk.sourceCodes.value[row] == series)
    && Decodes(chunk.xBits, rows, None) && Decodes(chunk.yBits, rows, Some(100))
        && Decodes(chunk.sourceBits, rows, None)
  }

  method FillColumns(series: nat, rows: nat, wave: (nat, nat) -> real)
    returns (xValues: array<real>, yValues: array<real>, rowIds: array<int>, sourceCodes: array<nat>)
    ensures xValues.Length == yValues.Length == rowIds.Length == sourceCodes.Length == rows
    ensures forall row | 0 <= row < rows :: xValues[row] == ExpectedX(row) && yValues[row] == wave(series, row)
    ensures forall row | 0 <= row < rows :: rowIds[row] == ExpectedId(series, rows, row) && sourceCodes[row] == series
  {
    xValues, yValues, rowIds, sourceCodes := new real[rows](_ => 0.0), new real[rows](_ => 0.0), new int[rows](_ => 0),
        new nat[rows](_ => 0);
    for row := 0 to rows
      invariant forall r | 0 <= r < row :: xValues[r] == ExpectedX(r) && yValues[r] == wave(series, r)
      invariant forall r | 0 <= r < row :: rowIds[r] == ExpectedId(series, rows, r) && sourceCodes[r] == series
    {
      xValues[row] := (BASE_TIME + row / 2 * DAY_MS) as real;
      yValues[row] := wave(series, row);
      rowIds[row] := series * rows + row + 1;
      sourceCodes[row] := series;
    }
  }

  method BuildChunk(series: nat, rows: nat, wave: (nat, nat) -> real, xBits: seq<bv8>, yBits: seq<bv8>,
      sourceBits: seq<bv8>)
    returns (chunk: Chunk)
    requires Decodes(xBits, rows, None) && Decodes(yBits, rows, Some(100)) && Decodes(sourceBits, rows, None)
    ensures IsFixture(chunk, series, rows, wave)
  {
    var xValues, yValues, rowIds, sourceCodes := FillColumns(series, rows, wave);
    chunk := Chunk(rows, xValues[..], yValues[..], rowIds[..], Some(sourceCodes[..]), xBits, yBits, sourceBits);
  }

  /**
   `buildScenarioFrame`: nothing when the points do not divide evenly, and otherwise one fixture chunk for each
   series.
   */
  method BuildFrame(scenario: Scenario, wave: (nat, nat) -> real) returns (frame: Option<seq<Chunk>>)
    ensures frame.Some? <==> scenario.seriesCount > 0 && scenario.points % scenario.seriesCount == 0
    ensures frame.Some? ==> IsFrame(frame.value, scenario, wave)
  {
    if scenario.seriesCount == 0 || scenario.points % scenario.seriesCount != 0 { return None; }
    var rows := scenario.points / scenario.seriesCount;
    var xBits := ValidityBitmap(rows, None);
    var yBits := ValidityBitmap(rows, Some(100));
    var sourceBits := ValidityBitmap(rows, None);
    var x, y, source := xBits[..], yBits[..], sourceBits[..];
    var chunks: seq<Chunk> := [];
    for series := 0 to scenario.seriesCount
      invariant |chunks| == series && forall s | 0 <= s < series :: IsFixture(chunks[s], s, rows, wave)
    {
      var chunk := BuildChunk(series, rows, wave, x, y, source);
      chunks := chunks + [chunk];
    }
    frame := Some(chunks);
  }

  ghost predicate IsFrame(frame: seq<Chunk>, scenario: Scenario, wave: (nat, nat) -> real) {
    && scenario.seriesCount > 0 && scenario.points % scenario.seriesCount == 0 && |frame| == scenario.seriesCount
    && forall s | 0 <= s < |frame| :: IsFixture(frame[s], s, scenario.points / scenario.seriesCount, wave)
  }

  /** The fixture's row ids number all the points: every number from 1 to `points` belongs to exactly one row. */
  lemma RowIdsNumberThePoints(seriesCount: nat, rows: nat, id: nat) returns (series: nat, row: nat)
    requires 1 <= id <= seriesCount * rows
    ensures series < seriesCount && row < rows && ExpectedId(series, rows, row) == id
    ensures forall s: nat, r: nat | r < rows && ExpectedId(s, rows, r) == id :: s == series && r == row
  {
    series, row := Divide(id - 1, rows);
    if series >= seriesCount { Scale(seriesCount, series, rows); }
    forall s: nat, r: nat | r < rows && ExpectedId(s, rows, r) == id ensures s == series && r == row {
      SameRow(s, r, series, row, rows);
    }
  }

  lemma SameRow(s: nat, r: nat, t: nat, q: nat, rows: nat)
    requires r < rows && q < rows && s * rows + r == t * rows + q
    ensures s == t && r == q
  {
    Divided(s * rows + r, rows, s, r);
    Divided(s * rows + r, rows, t, q);
  }

  // ---- The auditor

  /** A rendered point: a value of y, or null. */
  datatype Point = Point(x: real, y: Option<real>)

  /** A series as the renderer holds it, with the rows and the source its adapter says it shows. */
  datatype Series = Series(
    data: seq<Point>,
    rowIds: seq<int>,
    source: nat,            // the n of `reading_n`
    line: bool,             // type "line"
    unsampled: bool,        // sampling "none"
    animation: bool,
    progressive: int,
    showSymbol: bool)

  datatype AuditError =
    | SeriesCountMismatch
    | ObservationCountMismatch
    | XMismatch
    | YValidityMismatch
    | YValueMismatch
    | RowIdentityMismatch
    | SourceMismatch
    | StyleMismatch
    | RenderedCountMismatch

  datatype Evidence = Evidence(inputCount: nat, renderedCount: nat, missingYCount: nat, duplicateXPairs: nat)

  /** A typed array read beyond its end gives nothing that equals a value. */
  predicate Reads<T(==)>(values: seq<T>, row: nat, value: T) {
    row < |values| && values[row] == value
  }

  /** One rendered row is the fixture's row, with y taken from the chunk. */
  predicate RowMatches(chunk: Chunk, item: Series, series: nat, rows: nat, row: nat) {
    && row < |item.data| && XMatches(chunk, item, row)
    && (BitSet(chunk.yBits, row) <==> (row + 1) % 100 != 0)
    && YMatches(chunk, item.data[row].y, row)
    && IdMatches(chunk, item, series, rows, row)
    && chunk.sourceCodes.Some? && Reads(chunk.sourceCodes.value, row, series)
  }

  predicate XMatches(chunk: Chunk, item: Series, row: nat)
    requires row < |item.data|
  {
    item.data[row].x == ExpectedX(row) && Reads(chunk.xValues, row, ExpectedX(row))
  }

  predicate IdMatches(chunk: Chunk, item: Series, series: nat, rows: nat, row: nat) {
    Reads(chunk.rowIds, row, ExpectedId(series, rows, row)) && Reads(item.rowIds, row, ExpectedId(series, rows, row))
  }

  /** Every hundredth value is missing, and the others are the chunk's. */
  predicate YMatches(chunk: Chunk, y: Option<real>, row: nat) {
    if (row + 1) % 100 == 0 then y.None? else y.Some? && Reads(chunk.yValues, row, y.value)
  }

  predicate StyleMatches(item: Series, series: nat, showMarkers: bool) {
    item.source == series + 1 && item.line && item.unsampled && !item.animation && item.progressive == 0
        && item.showSymbol == showMarkers
  }

  function RenderedCount(rendered: Option<seq<nat>>, item: Series, series: nat): nat {
    if rendered.Some? && series < |rendered.value| then rendered.value[series] else |item.data|
  }

  predicate CountsMatch(scenario: Scenario, frame: seq<Chunk>, item: Series, series: nat)
    requires scenario.seriesCount > 0
  {
    && series < |frame| && scenario.points % scenario.seriesCount == 0
    && frame[series].rowCount == |item.data| == |item.rowIds| == scenario.points / scenario.seriesCount
  }

  ghost predicate RowsMatch(chunk: Chunk, item: Series, series: nat, rows: nat) {
    forall row: nat | row < rows :: RowMatches(chunk, item, series, rows, row)
  }

  ghost predicate SeriesMatches(scenario: Scenario, frame: seq<Chunk>, item: Series, rendered: Option<seq<nat>>,
      series: nat) {
    && scenario.seriesCount > 0 && CountsMatch(scenario, frame, item, series)
    && RowsMatch(frame[series], item, series, scenario.points / scenario.seriesCount)
    && StyleMatches(item, series, scenario.showMarkers)
    && RenderedCount(rendered, item, series) == scenario.points / scenario.seriesCount
  }

  /** What is wrong with the row, if all the auditor asks about it before that is right. */
  predicate RowFault(chunk: Chunk, item: Series, series: nat, rows: nat, row: nat, error: AuditError)
    requires row < |item.data|
  {
    var validity := BitSet(chunk.yBits, row) <==> (row + 1) % 100 != 0;
    match error
    case XMismatch => !XMatches(chunk, item, row)
    case YValidityMismatch => XMatches(chunk, item, row) && !validity
    case YValueMismatch => XMatches(chunk, item, row) && validity && !YMatches(chunk, item.data[row].y, row)
    case RowIdentityMismatch =>
      && XMatches(chunk, item, row) && validity && YMatches(chunk, item.data[row].y, row)
      && !IdMatches(chunk, item, series, rows, row)
    case SourceMismatch =>
      && XMatches(chunk, item, row) && validity && YMatches(chunk, item.data[row].y, row)
      && IdMatches(chunk, item, series, rows, row)
      && !(chunk.sourceCodes.Some? && Reads(chunk.sourceCodes.value, row, series))
    case _ => false
  }

  /** What is wrong with the series, if all the auditor asks about it before that is right: its first fault. */
  ghost predicate SeriesFault(scenario: Scenario, frame: seq<Chunk>, item: Series, rendered: Option<seq<nat>>,
                              series: nat, error: AuditError)
    requires scenario.seriesCount > 0
  {
    var rows := scenario.points / scenario.seriesCount;
    match error
    case SeriesCountMismatch => false
    case ObservationCountMismatch => !CountsMatch(scenario, frame, item, series)
    case StyleMismatch =>
      && CountsMatch(scenario, frame, item, series) && RowsMatch(frame[series], item, series, rows)
      && !StyleMatches(item, series, scenario.showMarkers)
    case RenderedCountMismatch =>
      && CountsMatch(scenario, frame, item, series) && RowsMatch(frame[series], item, series, rows)
      && StyleMatches(item, series, scenario.showMarkers) && RenderedCount(rendered, item, series) != rows
    case _ =>
      && CountsMatch(scenario, frame, item, series)
      && exists row: nat :: FirstFault(frame[series], item, series, rows, row, error)
  }

  ghost predicate FirstFault(chunk: Chunk, item: Series, series: nat, rows: nat, row: nat, error: AuditError) {
    && row < rows == |item.data| && RowFault(chunk, item, series, rows, row, error)
    && forall r: nat | r < row :: RowMatches(chunk, item, series, rows, r)
  }

  /** The check of one row, in the auditor's order. */
  method AuditRow(chunk: Chunk, item: Series, series: nat, rows: nat, row: nat) returns (error: Option<AuditError>)
    requires row < rows == |item.data|
    ensures error.None? <==> RowMatches(chunk, item, series, rows, row)
    ensures error.Some? ==> RowFault(chunk, item, series, rows, row, error.value)
  {
    var actual := item.data[row];
    var expectedMissingY := (row + 1) % 100 == 0;
    var yValid := BitSet(chunk.yBits, row);
    if actual.x != ExpectedX(row) || !Reads(chunk.xValues, row, actual.x) { return Some(XMismatch); }
    if expectedMissingY != !yValid { return Some(YValidityMismatch); }
    if !YMatches(chunk, actual.y, row) { return Some(YValueMismatch); }
    var expectedId := series * rows + row + 1;
    if !Reads(chunk.rowIds, row, expectedId) || !Reads(item.rowIds, row, expectedId) {
      return Some(RowIdentityMismatch);
    }
    if chunk.sourceCodes.None? || !Reads(chunk.sourceCodes.value, row, series) { return Some(SourceMismatch); }
    error := None;
  }

  method AuditRows(chunk: Chunk, item: Series, series: nat, rows: nat)
    returns (error: Option<AuditError>, missingYCount: nat, duplicateXPairs: nat)
    requires rows == |item.data|
    ensures error.None? <==> RowsMatch(chunk, item, series, rows)
    ensures error.Some? ==> exists row: nat :: FirstFault(chunk, item, series, rows, row, error.value)
    ensures error.None? ==> missingYCount == rows / 100 && duplicateXPairs == rows / 2
  {
    missingYCount, duplicateXPairs := 0, 0;
    for row := 0 to rows
      invariant forall r: nat | r < row :: RowMatches(chunk, item, series, rows, r)
      invariant missingYCount == row / 100 && duplicateXPairs == row / 2
    {
      error := AuditRow(chunk, item, series, rows, row);
      if error.Some? {
        assert FirstFault(chunk, item, series, rows, row, error.value);
        return;
      }
      if (row + 1) % 100 == 0 { missingYCount := missingYCount + 1; }
      if row % 2 == 1 && item.data[row - 1].x == item.data[row].x { duplicateXPairs := duplicateXPairs + 1; }
      assert row > 0 ==> RowMatches(chunk, item, series, rows, row - 1);
    }
    error := None;
  }

  method AuditSeries(scenario: Scenario, frame: seq<Chunk>, item: Series, rendered: Option<seq<nat>>, series: nat)
    returns (result: Result<Evidence, AuditError>)
    requires scenario.seriesCount > 0
    ensures result.Ok? <==> SeriesMatches(scenario, frame, item, rendered, series)
    ensures result.Err? ==> SeriesFault(scenario, frame, item, rendered, series, result.error)
    ensures result.Ok? ==> var rows := scenario.points / scenario.seriesCount;
                           result.value == Evidence(rows, rows, rows / 100, rows / 2)
  {
    if series >= |frame| || scenario.points % scenario.seriesCount != 0 { return Err(ObservationCountMismatch); }
    var chunk, rows := frame[series], scenario.points / scenario.seriesCount;
    if chunk.rowCount != rows || |item.data| != rows || |item.rowIds| != rows { return Err(ObservationCountMismatch); }
    var error, missingYCount, duplicateXPairs := AuditRows(chunk, item, series, rows);
    if error.Some? { return Err(error.value); }
    if !StyleMatches(item, series, scenario.showMarkers) { return Err(StyleMismatch); }
    if RenderedCount(rendered, item, series) != rows { return Err(RenderedCountMismatch); }
    result := Ok(Evidence(rows, RenderedCount(rendered, item, series), missingYCount, duplicateXPairs));
  }

  function SumRows(frame: seq<Chunk>): nat {
    if frame == [] then 0 else SumRows(frame[..|frame| - 1]) + frame[|frame| - 1].rowCount
  }

  datatype Report = Report(inputObservations: nat, renderedVertices: nat, evidence: seq<Evidence>)

  /** Everything the auditor accepts: as many series as the scenario has, each matching its chunk and the fixture. */
  ghost predicate Matches(scenario: Scenario, frame: seq<Chunk>, option: seq<Series>, rendered: Option<seq<nat>>) {
    && |option| == scenario.seriesCount
    && forall s: nat | s < |option| :: SeriesMatches(scenario, frame, option[s], rendered, s)
  }

  /** Series s is the first that does not match, and this is its first fault. */
  ghost predicate FirstFaulty(scenario: Scenario, frame: seq<Chunk>, option: seq<Series>, rendered: Option<seq<nat>>,
                              s: nat, error: AuditError) {
    && s < |option| == scenario.seriesCount && SeriesFault(scenario, frame, option[s], rendered, s, error)
    && forall t: nat | t < s :: SeriesMatches(scenario, frame, option[t], rendered, t)
  }

  /**
   `inspectScenarioEvidence` refuses what does not match, for the first fault of the first series that has one. It
   accepts exactly what matches, and then reports for each series its rows, floor(rows / 100) missing values and
   floor(rows / 2) duplicate pairs, and as many rendered vertices as there are points.
   */
  method InspectEvidence(scenario: Scenario, frame: seq<Chunk>, option: seq<Series>, rendered: Option<seq<nat>>)
    returns (result: Result<Report, AuditError>)
    ensures result.Ok? <==> Matches(scenario, frame, option, rendered)
    ensures result == Err(SeriesCountMismatch) <==> |option| != scenario.seriesCount
    ensures result.Err? && |option| == scenario.seriesCount ==>
              exists s: nat :: FirstFaulty(scenario, frame, option, rendered, s, result.error)
    ensures result.Ok? && scenario.seriesCount > 0 ==>
              var rows := scenario.points / scenario.seriesCount;
              && |result.value.evidence| == scenario.seriesCount
              && (forall s | 0 <= s < scenario.seriesCount ::
                  result.value.evidence[s] == Evidence(rows, rows, rows / 100, rows / 2))
              && result.value.renderedVertices == scenario.points
    ensures result.Ok? ==> result.value.inputObservations == SumRows(frame)
  {
    if |option| != scenario.seriesCount { return Err(SeriesCountMismatch); }
    var evidence: seq<Evidence> := [];
    for s := 0 to |option|
      invariant |evidence| == s && forall t: nat | t < s :: SeriesMatches(scenario, frame, option[t], rendered, t)
      invariant scenario.seriesCount > 0 ==> var rows := scenario.points / scenario.seriesCount;
                  forall t: nat | t < s :: evidence[t] == Evidence(rows, rows, rows / 100, rows / 2)
    {
      var audited := AuditSeries(scenario, frame, option[s], rendered, s);
      if audited.Err? {
        assert FirstFaulty(scenario, frame, option, rendered, s, audited.error);
        return Err(audited.error);
      }
      evidence := evidence + [audited.value];
    }
    var inputObservations, renderedVertices := 0, 0;
    for k := 0 to |frame|
      invariant inputObservations == SumRows(frame[..k])
    {
      inputObservations := inputObservations + frame[k].rowCount;
      assert frame[..k + 1][..k] == frame[..k];
    }
    assert frame[..|frame|] == frame;
    ghost var rows := if scenario.seriesCount > 0 then scenario.points / scenario.seriesCount else 0;
    for s := 0 to |evidence|
      invariant renderedVertices == s * rows
    {
      renderedVertices := renderedVertices + evidence[s].renderedCount;
      OneMore(s, rows);
    }
    if scenario.seriesCount > 0 { WholeRows(scenario, frame, option, rendered, rows); }
    result := Ok(Report(inputObservations, renderedVertices, evidence));
  }

  lemma WholeRows(scenario: Scenario, frame: seq<Chunk>, option: seq<Series>, rendered: Option<seq<nat>>, rows: nat)
    requires scenario.seriesCount > 0 && rows == scenario.points / scenario.seriesCount
    requires Matches(scenario, frame, option, rendered)
    ensures scenario.seriesCount * rows == scenario.points
  {
    assert SeriesMatches(scenario, frame, option[0], rendered, 0);
    assert scenario.points ==
           scenario.points / scenario.seriesCount * scenario.seriesCount + scenario.points % scenario.seriesCount;
  }

  /** The rendering of a chunk row by row: each point as it is, and null where the y column has no value. */
  function Faithful(chunk: Chunk, series: nat, showMarkers: bool): Series
    requires |chunk.xValues| == |chunk.yValues| == chunk.rowCount
  {
    Series(seq(chunk.rowCount, row requires 0 <= row < chunk.rowCount =>
                 Point(chunk.xValues[row], if BitSet(chunk.yBits, row) then Some(chunk.yValues[row]) else None)),
           chunk.rowIds, series + 1, true, true, false, 0, showMarkers)
  }

  ghost predicate Renders(option: seq<Series>, frame: seq<Chunk>, showMarkers: bool) {
    && |option| == |frame|
    && forall s | 0 <= s < |frame| ::
         && |frame[s].xValues| == |frame[s].yValues| == frame[s].rowCount
         && option[s] == Faithful(frame[s], s, showMarkers)
  }

  /** The frame the benchmark builds, rendered row by row and counted in full, passes the audit. */
  lemma FixtureIsAccepted(scenario: Scenario, frame: seq<Chunk>, wave: (nat, nat) -> real, option: seq<Series>,
                          rendered: Option<seq<nat>>)
    requires IsFrame(frame, scenario, wave) && Renders(option, frame, scenario.showMarkers)
    requires rendered.Some? ==>
            forall count | count in rendered.value :: count == scenario.points / scenario.seriesCount
    ensures Matches(scenario, frame, option, rendered)
  {
    var rows := scenario.points / scenario.seriesCount;
    forall s: nat | s < |option| ensures SeriesMatches(scenario, frame, option[s], rendered, s) {
      assert IsFixture(frame[s], s, rows, wave);
      FaithfulMatches(frame[s], s, rows, wave, scenario.showMarkers);
      assert rendered.Some? && s < |rendered.value| ==> rendered.value[s] in rendered.value;
    }
  }

  lemma FaithfulMatches(chunk: Chunk, series: nat, rows: nat, wave: (nat, nat) -> real, showMarkers: bool)
    requires IsFixture(chunk, series, rows, wave)
    ensures forall row: nat | row < rows :: RowMatches(chunk, Faithful(chunk, series, showMarkers), series, rows, row)
  {
    forall row: nat | row < rows ensures RowMatches(chunk, Faithful(chunk, series, showMarkers), series, rows, row) {
      assert BitSet(chunk.yBits, row) <==> row < rows && !Skipped(row, Some(100));
    }
  }

  /**
   Conversely, whatever is accepted is the fixture in everything the auditor looks at: every x, every validity bit of y,
   every row id and every source code, in the chunk and in the rendering.
   */
  lemma AcceptedIsTheFixture(scenario: Scenario, frame: seq<Chunk>, option: seq<Series>, rendered: Option<seq<nat>>,
                             fixture: seq<Chunk>, wave: (nat, nat) -> real, s: nat, row: nat)
    requires Matches(scenario, frame, option, rendered) && IsFrame(fixture, scenario, wave)
    requires s < scenario.seriesCount && row < fixture[s].rowCount
    ensures s < |frame| && frame[s].rowCount == fixture[s].rowCount && row < |option[s].data|
            && row < |option[s].rowIds|
    ensures Reads(frame[s].xValues, row, fixture[s].xValues[row]) && option[s].data[row].x == fixture[s].xValues[row]
    ensures BitSet(frame[s].yBits, row) <==> BitSet(fixture[s].yBits, row)
    ensures option[s].data[row].y.Some? <==> BitSet(fixture[s].yBits, row)
    ensures Reads(frame[s].rowIds, row, fixture[s].rowIds[row]) && option[s].rowIds[row] == fixture[s].rowIds[row]
    ensures frame[s].sourceCodes.Some? && Reads(frame[s].sourceCodes.value, row, fixture[s].sourceCodes.value[row])
  {
    var rows := scenario.points / scenario.seriesCount;
    assert IsFixture(fixture[s], s, rows, wave) && SeriesMatches(scenario, frame, option[s], rendered, s);
    assert RowMatches(frame[s], option[s], s, rows, row);
    assert BitSet(fixture[s].yBits, row) <==> row < rows && !Skipped(row, Some(100));
  }

  /** What is accepted is rendered as its chunk says: y where it is valid, null elsewhere, in the scenario's style. */
  lemma AcceptedIsTheChunk(scenario: Scenario, frame: seq<Chunk>, option: seq<Series>, rendered: Option<seq<nat>>,
                           s: nat, row: nat)
    requires Matches(scenario, frame, option, rendered) && s < scenario.seriesCount
    ensures s < |frame| && |option[s].data| == |option[s].rowIds| == frame[s].rowCount
    ensures frame[s].rowCount * scenario.seriesCount == scenario.points
    ensures row < frame[s].rowCount && (row + 1) % 100 == 0 ==> option[s].data[row].y.None?
    ensures row < frame[s].rowCount && (row + 1) % 100 != 0 ==>
              row < |frame[s].yValues| && option[s].data[row].y == Some(frame[s].yValues[row])
    ensures option[s].source == s + 1 && option[s].line && option[s].unsampled && !option[s].animation
    ensures option[s].progressive == 0 && option[s].showSymbol == scenario.showMarkers
    ensures rendered.Some? && s < |rendered.value| ==> rendered.value[s] == frame[s].rowCount
  {
    var rows := scenario.points / scenario.seriesCount;
    assert SeriesMatches(scenario, frame, option[s], rendered, s);
    WholeRows(scenario, frame, option, rendered, rows);
    if row < rows { assert RowMatches(frame[s], option[s], s, rows, row); }
  }

  /** Other bitmaps of x and of the source, and other values of y, which the rendering shows wherever it showed one. */
  ghost predicate DiffersUnseen(chunk: Chunk, other: Chunk, item: Series, shown: Series) {
    && other == chunk.(xBits := other.xBits, sourceBits := other.sourceBits, yValues := other.yValues)
    && |other.yValues| == |chunk.yValues|
    && shown == item.(data := shown.data) && |shown.data| == |item.data|
    && forall row | 0 <= row < |item.data| ::
         && shown.data[row].x == item.data[row].x
         && shown.data[row].y == Shows(other, item.data[row].y, row)
  }

  function Shows(chunk: Chunk, y: Option<real>, row: nat): Option<real> {
    if y.Some? && row < |chunk.yValues| then Some(chunk.yValues[row]) else y
  }

  /**
   What the auditor leaves unchecked: it never reads the validity bitmaps of x and of the source, and it compares y with
   what is rendered but not with the sine curve. Whatever they are changed to, what was accepted is accepted.
   */
  lemma AuditorIgnores(scenario: Scenario, frame: seq<Chunk>, other: seq<Chunk>, option: seq<Series>,
                       shown: seq<Series>, rendered: Option<seq<nat>>)
    requires Matches(scenario, frame, option, rendered) && |other| == |frame| && |shown| == |option|
    requires forall s | 0 <= s < |frame| && s < |option| :: DiffersUnseen(frame[s], other[s], option[s], shown[s])
    ensures Matches(scenario, other, shown, rendered)
  {
    forall s: nat | s < |option| ensures SeriesMatches(scenario, other, shown[s], rendered, s) {
      assert SeriesMatches(scenario, frame, option[s], rendered, s);
      RowsStillMatch(frame[s], other[s], option[s], shown[s], s, scenario.points / scenario.seriesCount);
    }
  }

  lemma RowsStillMatch(chunk: Chunk, other: Chunk, item: Series, shown: Series, series: nat, rows: nat)
    requires DiffersUnseen(chunk, other, item, shown) && RowsMatch(chunk, item, series, rows)
    ensures RowsMatch(other, shown, series, rows)
  {
    forall row: nat | row < rows ensures RowMatches(other, shown, series, rows, row) {
      assert RowMatches(chunk, item, series, rows, row);
    }
  }
}
