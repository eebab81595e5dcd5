/** What a closed candle and a catch-up keep: lane and store fold one history
    (internal/engine/lane.go:478-653). */
module Steps {
  import opened Model
  import opened Market
  import opened Store
  import opened Lane
  import opened Fold
  import opened Durable
  import opened Commit
  import opened Rebuild

  /** Lane and store agree on one history of closed candles. */
  ghost predicate InStep(config: LaneConfig, lane: LaneState, store: StoreState, history: seq<Bar>) {
    && History(config.key, history)
    && LaneFolds(config, lane, history)
    && StoreFolds(config, store, history)
    && LogInv(store)
  }

  /** A wiped series whose left-over cursor is the very candle that now closes, with a
      one-sample average configured: the store skips the commit and the point is never written. */
  predicate SkipsFirstPoint(config: LaneConfig, lane: LaneState, store: StoreState, bar: Bar) {
    lane.lastBar.None? && config.key in store.cursors && store.cursors[config.key] == bar && 1 in config.periods
  }

  lemma {:induction false} ReducedClosed(
    config: LaneConfig, lane: LaneState, store: StoreState, history: seq<Bar>, bar: Bar, fail: bool)
    requires ValidConfig(config) && LaneFolds(config, lane, history)
    requires bar.closed && ValidBar(config.key, bar)
    requires history != [] ==> bar.time == history[|history| - 1].time + config.step
    ensures RestoreMarket(TakeMarketSnapshot(lane.market)).Some?
    ensures ClosedStep(config, lane, store, bar, fail) ==
            CommitStep(config, lane, store, bar, fail, lane.reducers, RestoreMarket(TakeMarketSnapshot(lane.market)).value)
    ensures CloseBar(RestoreMarket(TakeMarketSnapshot(lane.market)).value, bar) == CloseBar(lane.market, bar)
  {
    hide CommitStep, CloneReducers, CloseBar, RestoreMarket, Tracks, ReducersOf, ValidBar;
    CloneIsIdentity(config.periods, history);
    CloneIsTransparent(lane.market, history, bar);
  }

  /** The commit of the next candle, once the lane's own checks have passed. */
  lemma {:induction false} CommitAdvances(
    config: LaneConfig, lane: LaneState, store: StoreState, history: seq<Bar>, bar: Bar, fail: bool,
    market: MarketReducer)
    requires ValidConfig(config) && InStep(config, lane, store, history)
    requires bar.closed && ValidBar(config.key, bar)
    requires history != [] ==> bar.time > history[|history| - 1].time
    requires CloseBar(market, bar) == CloseBar(lane.market, bar)
    requires !SkipsFirstPoint(config, lane, store, bar)
    ensures var r := CommitStep(config, lane, store, bar, fail, lane.reducers, market);
            && (r.error.Some? ==> r == Failed(lane, store, StoreFailed))
            && (r.error.None? ==> r.effect == Extended([bar]) && InStep(config, r.lane, r.store, history + [bar])
                                  && r.lane.market == CloseBar(lane.market, bar))
  {
    hide PointsFor, CommitClosed, Checkpoints, CloseBar, NewMarketEvent, LogInv, StoreFolds, Tracks, ValidBar,
         ReducersOf, Advanced;
    AdvancingFolds(config, lane, history, bar);
    AdvancedReducers(config.periods, history, bar);
    HistoryAppend(config.key, history, bar);
    CloseBarTracks(lane.market, history, bar);
    var r := CommitStep(config, lane, store, bar, fail, lane.reducers, market);
    if r.error.None? {
      var after, closed, count := Advanced(lane.reducers, bar.close), CloseBar(market, bar), lane.closedCount + 1;
      var snapshots := if count % config.snapshotEvery == 0 then Checkpoints(config.periods, after, closed, bar.time) else [];
      if config.key in store.cursors && bar.time <= store.cursors[config.key].time {
        CommitSkipped(config, store, history, bar, closed.state, after, snapshots);
      } else {
        CommitExtends(config, store, history, bar, closed, closed.state, snapshots);
      }
    }
  }

  /** The store skips a commit only for a series left over from an empty seed. */
  lemma {:induction false} CommitSkipped(
    config: LaneConfig, store: StoreState, history: seq<Bar>, bar: Bar, state: MarketState, after: Reducers,
    snapshots: seq<Snapshot>)
    requires StoreFolds(config, store, history)
    requires bar.closed && ValidBar(config.key, bar)
    requires history != [] ==> bar.time > history[|history| - 1].time
    requires config.key in store.cursors && bar.time <= store.cursors[config.key].time
    requires CommitClosed(store, config.key, bar,
             PointsFor(config.key, config.periods, after, bar) + [NewMarketEvent(config, bar, state, after)], snapshots).Accepted?
    ensures history == [] && store.cursors[config.key] == bar
    ensures CommitClosed(store, config.key, bar, PointsFor(config.key, config.periods, after,
            bar) + [NewMarketEvent(config, bar, state, after)], snapshots).state == store
    ensures 1 !in config.periods ==> StoreFolds(config, store, [bar])
  {
    hide PointsFor, NewMarketEvent, PutSnapshots, SeriesPoints, PointMap, CheckpointMap;
    FingerprintIdentifiesBar(config.key, bar, store.cursors[config.key]);
    if 1 !in config.periods {
      FirstPoints(config, bar);
    }
  }

  lemma {:induction false} NoneReady(key: SeriesKey, periods: seq<Period>, after: Reducers, bar: Bar)
    requires forall p :: p in periods && p in after ==> !after[p].Ready()
    ensures PointsFor(key, periods, after, bar) == []
  {
    if periods != [] {
      NoneReady(key, periods[..|periods| - 1], after, bar);
    }
  }

  /** One candle has a point only for a one-sample average. */
  lemma {:induction false} FirstPoints(config: LaneConfig, bar: Bar)
    requires 1 !in config.periods
    ensures PointMap(config, [bar]) == PointMap(config, [])
  {
    var after := ReducersOf(config.periods, [bar]);
    assert [] + [bar] == [bar];
    forall p | p in config.periods ensures !after[p].Ready() {
      assert p != 1;
    }
    NoneReady(config.key, config.periods, after, bar);
    PointMapAppend(config, [], bar);
  }

  /** What being in step comes to. */
  lemma {:induction false} StepHolds(config: LaneConfig, lane: LaneState, store: StoreState, history: seq<Bar>)
    requires InStep(config, lane, store, history)
    ensures History(config.key, history) && LaneFolds(config, lane, history) && StoreFolds(config, store, history) &&
            LogInv(store)
    ensures lane.lastBar == LastOf(history)
    ensures history != [] ==> config.key in store.cursors && store.cursors[config.key] == history[|history| - 1]
  {
    hide LaneFolds, StoreFolds, LogInv, History;
    FoldsLast(config, lane, history);
    if history != [] {
      CursorThere(config, store, history);
    }
  }

  /** A closed candle extends the shared history by itself or changes nothing; any error,
      a failed commit included, leaves lane and store exactly as they were. */
  lemma {:induction false} ClosedExtends(
    config: LaneConfig, lane: LaneState, store: StoreState, history: seq<Bar>, bar: Bar, fail: bool)
    requires ValidConfig(config) && InStep(config, lane, store, history)
    requires !SkipsFirstPoint(config, lane, store, bar)
    ensures var r := ClosedStep(config, lane, store, bar, fail);
            && r.effect.Extended?
            && (r.effect.bars == [] || r.effect.bars == [bar])
            && (r.effect.bars == [] ==> r.lane == lane && r.store == store)
            && (r.effect.bars == [bar] ==> r.error.None? && r.lane.market == CloseBar(lane.market, bar))
            && InStep(config, r.lane, r.store, history + r.effect.bars)
  {
    hide ClosedStep, CommitStep, RestoreMarket, CloseBar, ValidBar, LaneFolds, StoreFolds, LogInv, History, SkipsFirstPoint;
    StepHolds(config, lane, store, history);
    assert history + [] == history;
    if bar.closed && ValidBar(config.key, bar) && (history != [] ==> bar.time == history[|history| - 1].time + config.step) {
      ReducedClosed(config, lane, store, history, bar, fail);
      CommitAdvances(config, lane, store, history, bar, fail, RestoreMarket(TakeMarketSnapshot(lane.market)).value);
    } else {
      NotNext(config, lane, store, bar, fail);
    }
  }

  lemma {:induction false} NotNext(config: LaneConfig, lane: LaneState, store: StoreState, bar: Bar, fail: bool)
    requires ValidConfig(config)
    requires !bar.closed || !ValidBar(config.key, bar) ||
             (lane.lastBar.Some? && bar.time != lane.lastBar.value.time + config.step)
    ensures var r := ClosedStep(config, lane, store, bar, fail);
            r.lane == lane && r.store == store && r.effect == Extended([])
  {
    hide CommitStep, CloneReducers, RestoreMarket, ValidBar;
  }

  /** The store turns the candle down: it is behind the cursor or differs from it. */
  predicate Refuses(store: StoreState, key: SeriesKey, bar: Bar) {
    && key in store.cursors
    && bar.time <= store.cursors[key].time
    && !(bar.time == store.cursors[key].time && FingerprintOf(bar) == FingerprintOf(store.cursors[key]))
  }

  lemma {:induction false} FailedClose(config: LaneConfig, lane: LaneState, store: StoreState, bar: Bar, fail: bool)
    requires ValidConfig(config)
    requires fail || !bar.closed || !ValidBar(config.key, bar) || Refuses(store, config.key, bar)
    ensures var r := ClosedStep(config, lane, store, bar, fail);
            r.lane == lane && r.store == store && r.effect == Extended([])
  {
    hide CloneReducers, RestoreMarket, ValidBar, CloseBar, Advanced, PointsFor, NewMarketEvent, Checkpoints,
         FingerprintOf, CommitEvents, PutSnapshots;
  }

  /** The answer to a closed candle, in terms of the shared history. */
  function VerdictOn(config: LaneConfig, store: StoreState, history: seq<Bar>, bar: Bar, fail: bool): Option<LaneError> {
    if !bar.closed then Some(NotClosed)
    else if !ValidBar(config.key, bar) then Some(InvalidBar)
    else if history != [] && bar.time <= history[|history| - 1].time then
      if bar == history[|history| - 1] then None else Some(StaleBar)
    else if history != [] && bar.time != history[|history| - 1].time + config.step then Some(GappedBar)
    else if fail || Refuses(store, config.key, bar) then Some(StoreFailed)
    else None
  }

  /** Which closed candles are turned down, and why; an accepted one that is not the last candle
      again is applied. */
  lemma {:induction false} ClosedVerdict(
    config: LaneConfig, lane: LaneState, store: StoreState, history: seq<Bar>, bar: Bar, fail: bool)
    requires ValidConfig(config) && InStep(config, lane, store, history)
    ensures var r := ClosedStep(config, lane, store, bar, fail);
            && r.error == VerdictOn(config, store, history, bar, fail)
            && r.effect == Extended(if r.error.None? && LastOf(history) != Some(bar) then [bar] else [])
  {
    hide CloneReducers, RestoreMarket, CommitStep, CloseBar, LaneFolds, StoreFolds, LogInv, History, ValidBar,
         FingerprintOf, Refuses;
    StepHolds(config, lane, store, history);
    if bar.closed && ValidBar(config.key, bar) {
      CloneWorks(config, lane, history, bar);
      if history != [] {
        var last := history[|history| - 1];
        LastIsValid(config.key, history);
        if bar.time == last.time {
          FingerprintIdentifiesBar(config.key, bar, last);
        }
      }
      CommitVerdict(config, lane, store, bar, fail, lane.reducers, RestoreMarket(TakeMarketSnapshot(lane.market)).value);
    }
  }

  lemma LastIsValid(key: SeriesKey, history: seq<Bar>)
    requires History(key, history) && history != []
    ensures history[|history| - 1].closed && ValidBar(key, history[|history| - 1])
  {
  }

  lemma {:induction false} CloneWorks(config: LaneConfig, lane: LaneState, history: seq<Bar>, bar: Bar)
    requires LaneFolds(config, lane, history)
    ensures CloneReducers(config.periods, lane.reducers) == Some(lane.reducers)
    ensures RestoreMarket(TakeMarketSnapshot(lane.market)).Some?
  {
    hide CloneReducers, RestoreMarket, Tracks, ReducersOf, CloseBar;
    CloneIsIdentity(config.periods, history);
    CloneIsTransparent(lane.market, history, bar);
  }

  lemma {:induction false} CommitVerdict(
    config: LaneConfig, lane: LaneState, store: StoreState, bar: Bar, fail: bool, reducers: Reducers, market: MarketReducer)
    requires ValidConfig(config)
    ensures var r := CommitStep(config, lane, store, bar, fail, reducers, market);
            && r.error == (if fail || Refuses(store, config.key, bar) then Some(StoreFailed) else None)
            && r.effect == Extended(if r.error.None? then [bar] else [])
  {
    hide CloseBar, Advanced, PointsFor, NewMarketEvent, Checkpoints, FingerprintOf, CommitEvents, PutSnapshots;
  }

  // ---- Catching up -------------------------------------------------------

  lemma {:induction false} CatchUpBarExtends(
    config: LaneConfig, lane: LaneState, store: StoreState, history: seq<Bar>, bar: Bar, fail: bool)
    requires ValidConfig(config) && InStep(config, lane, store, history) && history != []
    ensures var r := CatchUpBar(config, lane, store, bar, fail);
            && r.effect.Extended?
            && (r.effect.bars == [] || r.effect.bars == [bar])
            && (r.effect.bars == [] ==> r.lane == lane && r.store == store)
            && InStep(config, r.lane, r.store, history + r.effect.bars)
  {
    hide ClosedStep, InStep, FingerprintOf, ValidConfig;
    assert history + [] == history;
    StepHolds(config, lane, store, history);
    ClosedExtends(config, lane, store, history, bar, fail);
  }

  /** Catching up extends the shared history, candle by candle, also when it stops half-way. */
  lemma {:induction false} CatchUpExtends(
    config: LaneConfig, lane: LaneState, store: StoreState, history: seq<Bar>, bars: seq<Bar>, failing: set<nat>,
    n: nat)
    requires ValidConfig(config) && InStep(config, lane, store, history) && history != [] && n <= |bars|
    ensures var r := CatchUp(config, lane, store, bars, failing, n);
            && InStep(config, r.lane, r.store, history + r.effect.bars)
            && (r.effect.bars == [] ==> r.lane == lane && r.store == store)
            && (forall i :: 0 <= i < |r.effect.bars| ==> r.effect.bars[i] in bars[..n])
  {
    hide InStep, CatchUpBar;
    if n == 0 {
      assert history + [] == history;
    } else {
      CatchUpExtends(config, lane, store, history, bars, failing, n - 1);
      var before := CatchUp(config, lane, store, bars, failing, n - 1);
      var sofar := history + before.effect.bars;
      assert forall x :: x in bars[..n - 1] ==> x in bars[..n];
      if before.error.None? {
        CatchUpBarExtends(config, before.lane, before.store, sofar, bars[n - 1], n - 1 in failing);
        var r := CatchUpBar(config, before.lane, before.store, bars[n - 1], n - 1 in failing);
        assert sofar + r.effect.bars == history + (before.effect.bars + r.effect.bars);
        assert bars[n - 1] in bars[..n];
      }
    }
  }
}
