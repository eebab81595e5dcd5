/** The per-series lane: what each command does to the lane and the store
    (internal/engine/lane.go:193-653, 682-826). Each step is a function from the
    old lane and store to the new ones; LaneObject.dfy refines them with loops. */
module Lane {
  import opened Model
  import opened Sorting
  import opened Ema
  import opened Market
  import opened Store

  // ---- Configuration and state -------------------------------------------

  /** `step` is the timeframe's duration. */
  datatype LaneConfig = LaneConfig(key: SeriesKey, periods: seq<Period>, step: nat, snapshotEvery: nat)

  predicate ValidConfig(config: LaneConfig) {
    && config.periods != []
    && (forall i, j :: 0 <= i < j < |config.periods| ==> config.periods[i] < config.periods[j])
    && config.step > 0
    && config.snapshotEvery > 0
  }

  function PeriodSet(periods: seq<Period>): set<Period> { set p | p in periods }

  type Reducers = map<Period, EmaState>

  datatype LaneState = LaneState(
    reducers: Reducers,
    market: MarketReducer,
    lastBar: Option<Bar>,
    lastRevision: UInt64,
    closedCount: nat,
    provisional: map<Period, real>,
    forming: Option<Bar>,
    formingRevision: UInt64)

  function NewReducers(periods: seq<Period>): Reducers { map p | p in periods :: NewEma(p) }

  function NewLane(config: LaneConfig): LaneState {
    LaneState(NewReducers(config.periods), NEW_MARKET, None, 0, 0, map[], None, 0)
  }

  datatype LaneError =
    | NotClosed | NotForming | InvalidBar | BrokenReducer | StaleBar | GappedBar | StoreFailed | LoadFailed | ConflictingSeed

  // ---- Events ------------------------------------------------------------

  function NewPoint(key: SeriesKey, bar: Bar, period: Period, samples: nat, value: real, provisional: bool): Event {
    var revision, algorithm := RevisionForBar(bar), EmaAlgorithm(period);
    Event(0, PointId(key, bar.time, algorithm, period, provisional, revision), PointEvent, key, bar.time, bar, revision,
          provisional, false, [], algorithm, period, value, samples, None, [])
  }

  function IndicatorsOf(periods: seq<Period>, reducers: Reducers): seq<Indicator> {
    if periods == [] then []
    else
      var p := periods[|periods| - 1];
      IndicatorsOf(periods[..|periods| - 1], reducers) +
      if p in reducers then [IndicatorFor(p, reducers[p])] else []
  }

  function IndicatorFor(p: Period, e: EmaState): Indicator {
    Indicator(p, if e.Ready() then Some(e.value) else None, e.samples, e.Ready())
  }

  function NewMarketEvent(config: LaneConfig, bar: Bar, state: MarketState, reducers: Reducers): Event {
    var revision, algorithm := RevisionForBar(bar), FactsAlgorithm(config.periods);
    Event(0, MarketId(config.key, bar.time, algorithm, revision), MarketEvent, config.key, bar.time, bar, revision,
          false, false, [], algorithm, 0, 0.0, 0, Some(state), IndicatorsOf(config.periods, reducers))
  }

  // ---- Reducing one closed candle ----------------------------------------

  function Advanced(reducers: Reducers, close: real): Reducers {
    map p | p in reducers :: Advance(reducers[p], close)
  }

  /** One point per ready reducer, in period order. */
  function PointsFor(key: SeriesKey, periods: seq<Period>, after: Reducers, bar: Bar): seq<Event> {
    if periods == [] then []
    else
      var p := periods[|periods| - 1];
      PointsFor(key, periods[..|periods| - 1], after, bar) +
      if p in after && after[p].Ready() then [NewPoint(key, bar, p, after[p].samples, after[p].value, false)] else []
  }

  /** Cloning goes through each reducer's snapshot. */
  function CloneReducers(periods: seq<Period>, source: Reducers): Option<Reducers> {
    if forall p :: p in periods ==> p in source && Restored(NewEma(p), TakeSnapshot(source[p])).Some?
    then Some(map p | p in periods :: Restored(NewEma(p), TakeSnapshot(source[p])).value)
    else None
  }

  function EmaCheckpoints(periods: seq<Period>, reducers: Reducers, time: nat): seq<Snapshot> {
    if periods == [] then []
    else
      var p := periods[|periods| - 1];
      EmaCheckpoints(periods[..|periods| - 1], reducers, time) +
      if p in reducers then [Snapshot(p, time, EmaCheckpoint(TakeSnapshot(reducers[p])))] else []
  }

  /** A checkpoint of every reducer at one candle. */
  function Checkpoints(periods: seq<Period>, reducers: Reducers, market: MarketReducer, time: nat): seq<Snapshot> {
    EmaCheckpoints(periods, reducers, time) + [Snapshot(0, time, MarketCheckpoint(TakeMarketSnapshot(market)))]
  }

  // ---- Command outcomes --------------------------------------------------

  /** What a command did to the history of applied candles. */
  datatype Effect = Extended(bars: seq<Bar>) | Replaced(bars: seq<Bar>)

  datatype Outcome = Outcome(lane: LaneState, store: StoreState, error: Option<LaneError>, effect: Effect)

  function Failed(lane: LaneState, store: StoreState, error: LaneError): Outcome {
    Outcome(lane, store, Some(error), Extended([]))
  }

  function Advancing(reducers: Reducers, market: MarketReducer, bar: Bar, count: nat): LaneState {
    LaneState(reducers, market, Some(bar), RevisionForBar(bar), count, map[], None, 0)
  }

  /** A closed candle: validate, reduce on clones, commit, and only then advance. */
  function ClosedStep(config: LaneConfig, lane: LaneState, store: StoreState, bar: Bar, fail: bool): Outcome
    requires ValidConfig(config)
  {
    if !bar.closed then Failed(lane, store, NotClosed)
    else if !ValidBar(config.key, bar) then Failed(lane, store, InvalidBar)
    else
      var reducers, market := CloneReducers(config.periods, lane.reducers), RestoreMarket(TakeMarketSnapshot(lane.market));
      if reducers.None? || market.None? then Failed(lane, store, BrokenReducer)
      else if lane.lastBar.Some? && bar.time <= lane.lastBar.value.time then
        if bar.time == lane.lastBar.value.time && FingerprintOf(bar) == FingerprintOf(lane.lastBar.value)
        then Outcome(lane, store, None, Extended([]))
        else Failed(lane, store, StaleBar)
      else if lane.lastBar.Some? && bar.time != lane.lastBar.value.time + config.step then Failed(lane, store, GappedBar)
      else CommitStep(config, lane, store, bar, fail, reducers.value, market.value)
  }

  function CommitStep(config: LaneConfig, lane: LaneState, store: StoreState, bar: Bar, fail: bool,
                      reducers: Reducers, market: MarketReducer): Outcome
    requires ValidConfig(config)
  {
    var after, closed, count := Advanced(reducers, bar.close), CloseBar(market, bar), lane.closedCount + 1;
    var events := PointsFor(config.key, config.periods, after, bar) + [NewMarketEvent(config, bar, closed.state, after)];
    var snapshots := if count % config.snapshotEvery == 0 then Checkpoints(config.periods, after, closed, bar.time) else [];
    var reply := if fail then Refused else CommitClosed(store, config.key, bar, events, snapshots);
    match reply
    case Refused => Failed(lane, store, StoreFailed)
    case Accepted(state, _) => Outcome(Advancing(after, closed, bar, count), state, None, Extended([bar]))
  }

  /** A forming candle projects every ready reducer and touches nothing canonical. */
  function FormingStep(config: LaneConfig, lane: LaneState, bar: Bar): (r: (LaneState, Option<LaneError>)) {
    if bar.closed then (lane, Some(NotForming))
    else if !ValidBar(config.key, bar) then (lane, Some(InvalidBar))
    else
      var reducers := CloneReducers(config.periods, lane.reducers);
      if reducers.None? then (lane, Some(BrokenReducer))
      else if lane.lastBar.Some? && bar.time < lane.lastBar.value.time then (lane, None)
      else
        (lane.(provisional := Projected(Advanced(reducers.value, bar.close)), forming := Some(bar), formingRevision :=
          RevisionForBar(bar)), None)
  }

  /** The values the ready reducers report. */
  function Projected(after: Reducers): map<Period, real> {
    map p | p in after && after[p].Ready() :: after[p].value
  }

  // ---- Catching up -------------------------------------------------------

  function CatchUpBar(config: LaneConfig, lane: LaneState, store: StoreState, bar: Bar, fail: bool): Outcome
    requires ValidConfig(config)
  {
    if !bar.closed then Outcome(lane, store, None, Extended([]))
    else if lane.lastBar.Some? && bar.time <= lane.lastBar.value.time then
      if bar.time == lane.lastBar.value.time && FingerprintOf(bar) != FingerprintOf(lane.lastBar.value)
      then Failed(lane, store, ConflictingSeed)
      else Outcome(lane, store, None, Extended([]))
    else ClosedStep(config, lane, store, bar, fail)
  }

  /** The first `n` seed candles applied one by one, stopping at the first error.
      `failing` are the positions at which the store is unavailable. */
  function CatchUp(
    config: LaneConfig, lane: LaneState, store: StoreState, bars: seq<Bar>, failing: set<nat>, n: nat): (r: Outcome)
    requires ValidConfig(config) && n <= |bars|
    ensures r.effect.Extended?
  {
    if n == 0 then Outcome(lane, store, None, Extended([]))
    else
      var before := CatchUp(config, lane, store, bars, failing, n - 1);
      if before.error.Some? then before
      else
        var r := CatchUpBar(config, before.lane, before.store, bars[n - 1], n - 1 in failing);
        Outcome(r.lane, r.store, r.error, Extended(before.effect.bars + r.effect.bars))
  }

  // ---- Rebuilding --------------------------------------------------------

  datatype Build = Build(reducers: Reducers, market: MarketReducer, lastBar: Option<Bar>, count: nat, points: seq<Event>)

  function BuildBar(config: LaneConfig, b: Build, bar: Bar): Option<Build> {
    if !bar.closed then Some(b)
    else if !ValidBar(config.key, bar) then None
    else if b.lastBar.Some? && bar.time <= b.lastBar.value.time then
      if bar.time == b.lastBar.value.time && FingerprintOf(bar) == FingerprintOf(b.lastBar.value) then Some(b) else None
    else
      var after := Advanced(b.reducers, bar.close);
      Some(Build(after, CloseBar(b.market, bar), Some(bar), b.count + 1,
                 b.points + PointsFor(config.key, config.periods, after, bar)))
  }

  function BuildRun(config: LaneConfig, bars: seq<Bar>): Option<Build> {
    if bars == [] then Some(Build(NewReducers(config.periods), NEW_MARKET, None, 0, []))
    else
      match BuildRun(config, bars[..|bars| - 1])
      case None => None
      case Some(b) => BuildBar(config, b, bars[|bars| - 1])
  }

  function KeepNext(kept: seq<Bar>, bar: Bar): seq<Bar> {
    if bar.closed && (kept == [] || bar.time > kept[|kept| - 1].time) then kept + [bar] else kept
  }

  /** The closed candles a rebuild applies: repeats of the last one are skipped. */
  function Kept(bars: seq<Bar>): seq<Bar> {
    if bars == [] then [] else KeepNext(Kept(bars[..|bars| - 1]), bars[|bars| - 1])
  }

  predicate ClosedBefore(bar: Bar, time: nat) { bar.closed && bar.time < time }

  function ClosedEarlier(time: nat): Bar -> bool { bar => ClosedBefore(bar, time) }

  /** The reset frame carries up to 500 confirmed candles before the last. */
  function ResetEvent(event: Event, bars: seq<Bar>): Event {
    event.(reset := true,
           resetHistory := Suffix(Filter(ClosedEarlier(event.barTime), bars), HISTORY_LIMIT),
           id := ResetId(event.key, event.barTime, event.algorithm, event.revision))
  }

  function RebuildEventsOf(config: LaneConfig, b: Build, bars: seq<Bar>, reset: bool): seq<Event> {
    match b.lastBar
    case None => b.points
    case Some(last) =>
      var event := NewMarketEvent(config, last, b.market.state, b.reducers);
      b.points + [if reset then ResetEvent(event, bars) else event]
  }

  function RebuildStep(config: LaneConfig, lane: LaneState, store: StoreState, bars: seq<Bar>, reset: bool, fail: bool): Outcome {
    match BuildRun(config, bars)
    case None => Failed(lane, store, ConflictingSeed)
    case Some(b) =>
      var snapshots := if b.lastBar.None? then [] else Checkpoints(config.periods, b.reducers, b.market, b.lastBar.value.time);
      var reply := if fail then Refused
                   else RebuildSeries(store, config.key, RebuildEventsOf(config, b, bars, reset), snapshots, b.lastBar);
      match reply
      case Refused => Failed(lane, store, StoreFailed)
      case Accepted(state, _) =>
        Outcome(LaneState(b.reducers, b.market, b.lastBar,
                          if b.lastBar.Some? then RevisionForBar(b.lastBar.value) else lane.lastRevision,
                          b.count, map[], None, 0),
                state, None, Replaced(Kept(bars)))
  }

  // ---- Restoring ---------------------------------------------------------

  datatype Restoring = Restoring(
    reducers: Reducers, lastBar: Option<Bar>, foundSnapshot: bool, foundCursor: bool, count: nat, marketBars: seq<Bar>)

  function RestoreBar(config: LaneConfig, snapshotTime: nat, cursor: Bar, r: Restoring, bar: Bar): Option<Restoring> {
    var r1 := if bar.closed && bar.time <= cursor.time then r.(marketBars := r.marketBars + [bar]) else r;
    if !bar.closed || bar.time < snapshotTime then Some(r1)
    else if !ValidBar(config.key, bar) then None
    else if bar.time != snapshotTime && bar.time <= cursor.time && !r1.foundSnapshot then None
    else
      var r2 := if bar.time == snapshotTime then r1.(lastBar := Some(bar), foundSnapshot := true)
                else if bar.time <= cursor.time then
                  r1.(reducers := Advanced(r1.reducers, bar.close), lastBar := Some(bar), count := r1.count + 1)
                else r1;
      if bar.time == cursor.time then
        if FingerprintOf(bar) != FingerprintOf(cursor) then None else Some(r2.(foundCursor := true))
      else Some(r2)
  }

  function RestoreRun(config: LaneConfig, snapshotTime: nat, cursor: Bar, start: Restoring, bars: seq<Bar>): Option<Restoring> {
    if bars == [] then Some(start)
    else
      match RestoreRun(config, snapshotTime, cursor, start, bars[..|bars| - 1])
      case None => None
      case Some(r) => RestoreBar(config, snapshotTime, cursor, r, bars[|bars| - 1])
  }

  predicate RestorableSnapshot(snapshots: map<nat, Snapshot>, p: Period) {
    p in snapshots && snapshots[p].state.EmaCheckpoint? && Restored(NewEma(p), snapshots[p].state.ema).Some?
  }

  function RestoredReducers(periods: seq<Period>, snapshots: map<nat, Snapshot>): (r: Option<Reducers>)
    ensures r.Some? ==> r.value.Keys == PeriodSet(periods) && forall p :: p in periods ==> p in snapshots
  {
    if forall p :: p in periods ==> RestorableSnapshot(snapshots, p)
    then Some(map p | p in periods :: Restored(NewEma(p), snapshots[p].state.ema).value)
    else None
  }

  /** Checkpoints agree when they were all taken at one candle after equally many samples. */
  predicate SharedCheckpoint(periods: seq<Period>, snapshots: map<nat, Snapshot>, reducers: Reducers)
    requires periods != [] && forall p :: p in periods ==> p in snapshots && p in reducers
  {
    forall p :: p in periods ==>
      && snapshots[p].lastOpenTime == snapshots[periods[0]].lastOpenTime
      && reducers[p].samples == reducers[periods[0]].samples
  }

  function Replayed(m: MarketReducer, bars: seq<Bar>, after: nat): MarketReducer {
    if bars == [] then m
    else
      var rest, bar := Replayed(m, bars[..|bars| - 1], after), bars[|bars| - 1];
      if bar.time > after then CloseBar(rest, bar) else rest
  }

  function RestoredMarket(snapshots: map<nat, Snapshot>, cursor: Bar, bars: seq<Bar>): Option<MarketReducer> {
    if 0 !in snapshots || !snapshots[0].state.MarketCheckpoint? then Some(SeedMarket(bars))
    else if snapshots[0].lastOpenTime > cursor.time then None
    else
      match RestoreMarket(snapshots[0].state.market)
      case None => None
      case Some(m) => Some(Replayed(m, bars, snapshots[0].lastOpenTime))
  }

  /** Restores checkpoints and replays the seed from them through the cursor. Every failure
      leads the caller to the same place, so failures carry no reason. */
  function RestoreStep(config: LaneConfig, cursor: Bar, snapshots: map<nat, Snapshot>, bars: seq<Bar>): Option<LaneState>
    requires ValidConfig(config)
  {
    var reducers := RestoredReducers(config.periods, snapshots);
    if reducers.None? then None
    else
      var first := config.periods[0];
      var snapshotTime, count := snapshots[first].lastOpenTime, reducers.value[first].samples;
      if snapshotTime > cursor.time || !SharedCheckpoint(config.periods, snapshots, reducers.value) then None
      else
        var r := RestoreRun(config, snapshotTime, cursor, Restoring(reducers.value, None, false, false, count, []), bars);
        if r.None? || !r.value.foundSnapshot || !r.value.foundCursor || r.value.lastBar.None? then None
        else
          match RestoredMarket(snapshots, cursor, r.value.marketBars)
          case None => None
          case Some(market) =>
            var last := r.value.lastBar.value;
            Some(LaneState(r.value.reducers, market, Some(last), RevisionForBar(last), r.value.count, map[], None, 0))
  }

  // ---- Conflicts with an authoritative seed ------------------------------

  function FingerprintMap(bars: seq<Bar>): map<nat, Fingerprint> {
    if bars == [] then map[]
    else FingerprintMap(bars[..|bars| - 1])[bars[|bars| - 1].time := FingerprintOf(bars[|bars| - 1])]
  }

  predicate InOverlap(bar: Bar, cursorTime: nat) { bar.closed && bar.time <= cursorTime }

  function Overlapping(cursorTime: nat): Bar -> bool { bar => InOverlap(bar, cursorTime) }

  /** The earliest overlapping seed time, with the zero time standing for none yet. */
  function SeedFirst(bars: seq<Bar>): nat {
    if bars == [] then 0
    else
      var first, time := SeedFirst(bars[..|bars| - 1]), bars[|bars| - 1].time;
      if first == 0 || time < first then time else first
  }

  /** A changed or missing candle in the overlap of local history and seed. */
  predicate SeedConflicts(lane: LaneState, bars: seq<Bar>) {
    if lane.lastBar.None? || lane.market.bars == [] then false
    else
      var cursorTime, localBars := lane.lastBar.value.time, lane.market.bars;
      var overlap := Filter(Overlapping(cursorTime), bars);
      SeedFirst(overlap) != 0 && MapsConflict(FingerprintMap(overlap), FingerprintMap(localBars), localBars,
        SeedFirst(overlap), cursorTime)
  }

  predicate MapsConflict(
    seed: map<nat, Fingerprint>, local: map<nat, Fingerprint>, localBars: seq<Bar>, first: nat, cursorTime: nat)
    requires localBars != []
  {
    || (exists t :: t in seed && if t in local then local[t] != seed[t] else t >= localBars[0].time)
    || (exists i :: 0 <= i < |localBars| && first <= localBars[i].time <= cursorTime && localBars[i].time !in seed)
  }

  // ---- Seeding -----------------------------------------------------------

  /** Where the store is unavailable while a seed is processed. */
  datatype Faults = Faults(load: bool, commits: set<nat>, rebuild: bool)

  const NO_FAULTS := Faults(false, {}, false)

  function Ordered(bars: seq<Bar>): seq<Bar> { StableSort(BarTime, bars) }

  function SeedStep(config: LaneConfig, lane: LaneState, store: StoreState, bars: seq<Bar>, faults: Faults): Outcome
    requires ValidConfig(config)
  {
    SeedOrdered(config, lane, store, Ordered(bars), faults)
  }

  function SeedOrdered(config: LaneConfig, lane: LaneState, store: StoreState, bars: seq<Bar>, faults: Faults): Outcome
    requires ValidConfig(config)
  {
    if lane.lastBar.Some? then
      if SeedConflicts(lane, bars) then RebuildStep(config, lane, store, bars, true, faults.rebuild)
      else
        var caught := CatchUp(config, lane, store, bars, faults.commits, |bars|);
        if caught.error.None? then caught
        else RebuildAfter(config, caught, bars, faults)
    else if faults.load then Failed(lane, store, LoadFailed)
    else
      var recovery := LoadRecovery(store, config.key);
      match recovery.cursor
      case None => RebuildStep(config, lane, store, bars, false, faults.rebuild)
      case Some(cursor) =>
        match RestoreStep(config, cursor, recovery.snapshots, bars)
        case None => RebuildStep(config, lane, store, bars, true, faults.rebuild)
        case Some(restored) => CatchUp(config, restored, store, bars, faults.commits, |bars|)
  }

  /** A failed catch-up falls back to a rebuild; what it committed before failing stays. */
  function RebuildAfter(config: LaneConfig, caught: Outcome, bars: seq<Bar>, faults: Faults): Outcome {
    var rebuilt := RebuildStep(config, caught.lane, caught.store, bars, true, faults.rebuild);
    if rebuilt.error.Some? then Outcome(rebuilt.lane, rebuilt.store, rebuilt.error, caught.effect) else rebuilt
  }
}
