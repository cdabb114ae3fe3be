/** A bounded series of closed price bars, and how whole the requested window came back. */
module MarketHistory {
  import opened Wrappers
  import opened Contracts
  import MarketReadings

  datatype Timeframe = MINUTE | HOUR | DAILY
  datatype Coverage = COMPLETE | PARTIAL | EMPTY

  /** One closed interval, named by its opening instant. */
  datatype BarFigures = BarFigures(openedAt: Instant, intervalSeconds: nat, open: real, high: real, low: real, close: real)

  type Bar = bar: BarFigures | ValidBar(bar) witness BarFigures(0, 60, 1.0, 1.0, 1.0, 1.0)

  datatype Series = Series(
    pairId: string,
    chain: string,
    network: string,
    baseAssetId: string,
    quoteAssetId: string,
    timeframe: Timeframe,
    aggregate: nat,
    bars: seq<Bar>,
    requestedBars: nat,
    coverage: Coverage,
    observedAt: Option<Instant>,
    fetchedAt: Instant
  )

  /** The aggregates the provider offers of each timeframe. */
  function Supported(timeframe: Timeframe): set<nat> {
    match timeframe
    case MINUTE => {1, 5, 15}
    case HOUR => {1, 4, 12}
    case DAILY => {1}
  }

  function SecondsOf(timeframe: Timeframe): nat {
    match timeframe
    case MINUTE => 60
    case HOUR => 3600
    case DAILY => 86400
  }

  /** The series' interval in microseconds, if the provider has it. */
  function StepOf(timeframe: Timeframe, aggregate: nat): (step: Option<nat>)
    ensures step.Some? ==> step.value > 0
  {
    if aggregate in Supported(timeframe) then Some(SecondsOf(timeframe) * aggregate * SECOND) else None
  }

  /** Opened on a whole minute, so no division by the interval ever drops a fraction of a second. */
  predicate ValidBar(bar: BarFigures) {
    && 0 < bar.intervalSeconds <= 86400
    && 0.0 < bar.low <= bar.open <= bar.high && bar.low <= bar.close <= bar.high
    && bar.openedAt % (60 * SECOND) == 0
  }

  function ClosedAt(bar: Bar): Instant {
    bar.openedAt + bar.intervalSeconds * SECOND
  }

  // -------------------------------------------------------------------------------------- coverage

  function Missing(bars: seq<Bar>, step: nat): int
    requires step > 0 && bars != []
  {
    (bars[|bars| - 1].openedAt - bars[0].openedAt) / step + 1 - |bars|
  }

  /** The coverage a caller derives before a series is constructed. */
  function CoverageFor(bars: seq<Bar>, requested: nat, step: nat): Coverage
    requires step > 0
  {
    if bars == [] then EMPTY
    else if |bars| == requested && Missing(bars, step) == 0 then COMPLETE
    else PARTIAL
  }

  function MissingIntervals(series: Series): int
    requires StepOf(series.timeframe, series.aggregate).Some?
  {
    if |series.bars| < 2 then 0 else Missing(series.bars, StepOf(series.timeframe, series.aggregate).value)
  }

  predicate IsWhole(series: Series)
    requires StepOf(series.timeframe, series.aggregate).Some?
  {
    |series.bars| == series.requestedBars && MissingIntervals(series) == 0
  }

  // ------------------------------------------------------------------------------------- validation

  /** Bars of one interval on its grid, oldest first, no interval twice. */
  predicate Ordered(bars: seq<Bar>, step: nat)
    requires step > 0
  {
    && (forall b :: b in bars ==> b.intervalSeconds * SECOND == step && b.openedAt % step == 0)
    && (forall i, j :: 0 <= i < j < |bars| ==> bars[i].openedAt < bars[j].openedAt)
  }

  predicate Coherent(series: Series) {
    var step := StepOf(series.timeframe, series.aggregate);
    && step.Some? && Ordered(series.bars, step.value)
    && series.baseAssetId != series.quoteAssetId
    && MarketReadings.Prefix(series.chain, series.network) <= series.pairId
    && (series.coverage == EMPTY <==> series.bars == [])
    && series.observedAt == (if series.bars == [] then None else Some(ClosedAt(series.bars[|series.bars| - 1])))
    && (series.observedAt.Some? ==> series.observedAt.value <= series.fetchedAt)
    && (series.bars != [] ==> series.coverage == if IsWhole(series) then COMPLETE else PARTIAL)
  }

  /** The validator's walk over the bars. */
  method OrderedBars(bars: seq<Bar>, step: nat) returns (ok: bool)
    requires step > 0
    ensures ok <==> Ordered(bars, step)
  {
    hide ValidBar;
    var previous: Option<Bar> := None;
    for i := 0 to |bars|
      invariant Ordered(bars[..i], step)
      invariant previous == if i == 0 then None else Some(bars[i - 1])
    {
      var bar := bars[i];
      assert bar in bars;
      if bar.intervalSeconds * SECOND != step || bar.openedAt % step != 0 { return false; }
      if previous.Some? && bar.openedAt <= previous.value.openedAt {
        assert bars[i - 1].openedAt >= bars[i].openedAt;
        return false;
      }
      assert bars[..i + 1] == bars[..i] + [bar];
      previous := Some(bar);
    }
    assert bars[..|bars|] == bars;
    ok := true;
  }

  /** The validator, walking the bars once. */
  method CoherentSeries(series: Series) returns (ok: bool)
    ensures ok <==> Coherent(series)
  {
    hide MarketReadings.Prefix, StepOf, ClosedAt, IsWhole, ValidBar, Ordered;
    var step := StepOf(series.timeframe, series.aggregate);
    if step.None? { return false; }
    var ordered := OrderedBars(series.bars, step.value);
    if !ordered { return false; }
    if series.baseAssetId == series.quoteAssetId { return false; }
    if !(MarketReadings.Prefix(series.chain, series.network) <= series.pairId) { return false; }
    if (series.coverage == EMPTY) != (series.bars == []) { return false; }
    var observed := if series.bars == [] then None else Some(ClosedAt(series.bars[|series.bars| - 1]));
    if series.observedAt != observed { return false; }
    if series.observedAt.Some? && series.observedAt.value > series.fetchedAt { return false; }
    var expected := if IsWhole(series) then COMPLETE else PARTIAL;
    if series.bars != [] && series.coverage != expected { return false; }
    ok := true;
  }

  /** Coverage derived from the bars is the one and only coverage the validator accepts. */
  lemma DerivedCoverageIsTheOneAccepted(series: Series, coverage: Coverage)
    requires Coherent(series)
    ensures Coherent(series.(coverage := coverage))
            <==> coverage == CoverageFor(series.bars, series.requestedBars, StepOf(series.timeframe, series.aggregate).value)
  {
  }

  // ------------------------------------------------------------------------------- the slots without a bar

  function SlotAt(first: Instant, step: nat, k: int): Instant {
    first + k * step
  }

  /** The grid slots from the first bar on, and the instants at which a bar opens. */
  function Slots(first: Instant, step: nat, count: nat): set<Instant> {
    set k | 0 <= k < count :: SlotAt(first, step, k)
  }

  function Openings(bars: seq<Bar>): set<Instant> {
    set b <- bars :: b.openedAt
  }

  lemma MultiplesOrdered(x: int, y: int, step: nat)
    requires x <= y
    ensures x * step <= y * step
  {
    assert (y - x) * step >= 0;
    assert (y - x) * step == y * step - x * step;
  }

  lemma MultiplesCancel(x: int, y: int, step: nat)
    requires x * step < y * step
    ensures x < y
  {
    if y <= x { MultiplesOrdered(y, x, step); }
  }

  lemma SlotsDistinct(first: Instant, step: nat, j: int, k: int)
    requires step > 0 && j < k
    ensures SlotAt(first, step, j) < SlotAt(first, step, k)
  {
    MultiplesOrdered(j + 1, k, step);
    assert (j + 1) * step == j * step + step;
  }

  lemma {:induction false} SlotCount(first: Instant, step: nat, count: nat)
    requires step > 0
    ensures |Slots(first, step, count)| == count
  {
    hide SlotAt;
    if count == 0 {
      assert Slots(first, step, 0) == {};
    } else {
      SlotCount(first, step, count - 1);
      var last := SlotAt(first, step, count - 1);
      forall k | 0 <= k < count - 1 ensures SlotAt(first, step, k) != last {
        SlotsDistinct(first, step, k, count - 1);
      }
      assert Slots(first, step, count) == Slots(first, step, count - 1) + {last};
    }
  }

  lemma {:induction false} OpeningCount(bars: seq<Bar>)
    requires forall i, j :: 0 <= i < j < |bars| ==> bars[i].openedAt < bars[j].openedAt
    ensures |Openings(bars)| == |bars|
  {
    if bars == [] {
      assert Openings(bars) == {};
    } else {
      var rest, last := bars[..|bars| - 1], bars[|bars| - 1];
      OpeningCount(rest);
      assert bars == rest + [last];
      assert Openings(bars) == Openings(rest) + {last.openedAt};
      assert last.openedAt !in Openings(rest);
    }
  }

  /** Two instants on the grid are a whole number of steps apart. */
  lemma OnGrid(first: Instant, at: Instant, step: nat)
    requires step > 0 && first % step == 0 && at % step == 0
    ensures SlotAt(first, step, (at - first) / step) == at
  {
    var a, b := at / step, first / step;
    assert at == a * step && first == b * step;
    assert (a - b) * step == a * step - b * step;
    var q := (at - first) / step;
    assert q * step <= at - first < q * step + step;
    assert (q + 1) * step == q * step + step;
    MultiplesCancel(a - b, q + 1, step);
    assert (a - b + 1) * step == (a - b) * step + step;
    MultiplesCancel(q, a - b + 1, step);
  }

  /** Every bar opens on a slot between the first and the last. */
  lemma OpeningsAreSlots(bars: seq<Bar>, step: nat)
    requires step > 0 && bars != [] && Ordered(bars, step)
    ensures var count := Missing(bars, step) + |bars|;
            count >= 1 && Openings(bars) <= Slots(bars[0].openedAt, step, count)
  {
    var first, last := bars[0].openedAt, bars[|bars| - 1].openedAt;
    assert bars[0] in bars && bars[|bars| - 1] in bars;
    OnGrid(first, last, step);
    var count := (last - first) / step + 1;
    SlotIndex(first, last, last, step);
    forall b | b in bars ensures b.openedAt in Slots(first, step, count) {
      var i :| 0 <= i < |bars| && bars[i] == b;
      OnGrid(first, b.openedAt, step);
      SlotIndex(first, b.openedAt, last, step);
    }
  }

  lemma SlotIndex(first: Instant, at: Instant, last: Instant, step: nat)
    requires step > 0 && first <= at <= last
    requires SlotAt(first, step, (at - first) / step) == at && SlotAt(first, step, (last - first) / step) == last
    ensures 0 <= (at - first) / step < (last - first) / step + 1
  {
    var j, k := (at - first) / step, (last - first) / step;
    assert -1 * step == 0 - step && (k + 1) * step == k * step + step;
    MultiplesCancel(-1, j, step);
    MultiplesCancel(j, k + 1, step);
  }

  lemma CountedBars(bars: seq<Bar>, step: nat)
    requires step > 0 && bars != [] && Ordered(bars, step)
    ensures var count := Missing(bars, step) + |bars|;
            count >= 1 && Missing(bars, step) == |Slots(bars[0].openedAt, step, count) - Openings(bars)|
  {
    hide Slots;
    OpeningsAreSlots(bars, step);
    SlotCount(bars[0].openedAt, step, Missing(bars, step) + |bars|);
    OpeningCount(bars);
    DifferenceCount(Slots(bars[0].openedAt, step, Missing(bars, step) + |bars|), Openings(bars));
  }

  /**
   The derived count is the real one: for every coherent series, the bars and the missing intervals together
   are the grid slots from its first bar to its last, and the missing ones are those at which no bar opens.
   */
  lemma MissingIsCounted(series: Series)
    requires Coherent(series) && series.bars != []
    ensures var step, bars := StepOf(series.timeframe, series.aggregate).value, series.bars;
            var count := MissingIntervals(series) + |bars|;
            && count >= 1
            && SlotAt(bars[0].openedAt, step, count - 1) == bars[|bars| - 1].openedAt
            && MissingIntervals(series) == |Slots(bars[0].openedAt, step, count) - Openings(bars)|
  {
    hide StepOf, Slots, SlotAt, Openings, IsWhole, ClosedAt;
    var step, bars := StepOf(series.timeframe, series.aggregate).value, series.bars;
    assert bars[0] in bars && bars[|bars| - 1] in bars;
    CountedBars(bars, step);
    OnGrid(bars[0].openedAt, bars[|bars| - 1].openedAt, step);
    if |bars| == 1 { assert Missing(bars, step) == 0; }
  }

  lemma DifferenceCount(whole: set<Instant>, part: set<Instant>)
    requires part <= whole
    ensures |whole - part| == |whole| - |part|
  {
    assert whole == (whole - part) + part;
  }
}
