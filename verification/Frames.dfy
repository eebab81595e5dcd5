/** What the log holds after every command: the points and the market frame of each applied candle,
    the reset frame of each rebuild, and the current frame of the series
    (internal/engine/lane.go:315-334, 537-564, 711-783, internal/store/memory.go:54-118, 202-216). */
module Frames {
  import opened Model
  import opened Sorting
  import opened Ema
  import opened Market
  import opened Store
  import opened Lane
  import opened Fold
  import opened Durable
  import opened Commit
  import opened Rebuild
  import opened Steps
  import opened Runs
  import opened LogShape

  // ---- What a history is told as -----------------------------------------

  /** How many of the periods are warm after `n` candles; they are the first ones. */
  function WarmCount(periods: seq<Period>, n: nat): (r: nat)
    ensures r <= |periods|
  {
    if periods == [] then 0
    else if periods[|periods| - 1] <= n then |periods|
    else WarmCount(periods[..|periods| - 1], n)
  }

  /** The view of the last 500 candles, and what the last one did to the zones of the view before. */
  function StateAfter(history: seq<Bar>): MarketState
    requires history != []
  {
    var before, now := Evaluate(Suffix(history[..|history| - 1], 500)), Evaluate(Suffix(history, 500));
    MarketState(now, TransitionsBetween(before, now, history[|history| - 1]))
  }

  /** The confirmed frame of the last candle of a history. */
  function FrameAt(config: LaneConfig, history: seq<Bar>): Event
    requires history != []
  {
    var bar := history[|history| - 1];
    var revision := if bar.trades == MAX_UINT64 then bar.trades else bar.trades + 1;
    var algorithm := AlgorithmRef("smc.market_state", FactsConfig(config.periods));
    Event(0, MarketId(config.key, bar.time, algorithm, revision), MarketEvent, config.key, bar.time, bar, revision,
          false, false, [], algorithm, 0, 0.0, 0, Some(StateAfter(history)),
          seq(|config.periods|, i requires 0 <= i < |config.periods| => IndicatorAt(config.periods[i], history)))
  }

  predicate IsEarlier(bar: Bar, time: nat) { bar.closed && bar.time < time }

  function Earlier(time: nat): Bar -> bool { bar => IsEarlier(bar, time) }

  /** The reset frame of a rebuild: the frame of its last candle under an identity of its own, with
      the last 500 closed seed candles before it. */
  function ResetAt(config: LaneConfig, history: seq<Bar>, bars: seq<Bar>): Event
    requires history != []
  {
    var frame := FrameAt(config, history);
    frame.(reset := true, resetHistory := Suffix(Filter(Earlier(frame.barTime), bars), 500),
           id := ResetId(config.key, frame.barTime, frame.algorithm, frame.revision))
  }

  /** What closing the last candle of a history logs: a point for every warm period, then the frame. */
  function CandleLog(config: LaneConfig, history: seq<Bar>): seq<Event>
    requires history != []
  {
    seq(WarmCount(config.periods, |history|), i requires 0 <= i < WarmCount(config.periods, |history|) =>
          PointAt(config.key, history, |history| - 1, config.periods[i]))
    + [FrameAt(config, history)]
  }

  /** What closing `bars` one by one after `history` logs. */
  function Entries(config: LaneConfig, history: seq<Bar>, bars: seq<Bar>): seq<Event> {
    if bars == [] then [] else Entries(config, history, bars[..|bars| - 1]) + CandleLog(config, history + bars)
  }

  // ---- One candle --------------------------------------------------------

  lemma {:induction false} WarmAre(periods: seq<Period>, n: nat)
    requires forall i, j :: 0 <= i < j < |periods| ==> periods[i] < periods[j]
    ensures forall i :: 0 <= i < |periods| ==> (i < WarmCount(periods, n) <==> periods[i] <= n)
  {
    if periods != [] {
      var rest := periods[..|periods| - 1];
      WarmAre(rest, n);
      assert forall i :: 0 <= i < |rest| ==> rest[i] == periods[i] < periods[|periods| - 1];
    }
  }

  lemma {:induction false} PointIs(key: SeriesKey, periods: seq<Period>, history: seq<Bar>, p: Period)
    requires history != [] && p in periods
    ensures var after := ReducersOf(periods, history);
            && (after[p].Ready() <==> p <= |history|)
            && NewPoint(key, history[|history| - 1], p, after[p].samples, after[p].value, false)
               == PointAt(key, history, |history| - 1, p)
  {
    hide EmaOf, Closes;
    assert history[..|history|] == history;
  }

  lemma {:induction false} PointsAreWarm(key: SeriesKey, all: seq<Period>, periods: seq<Period>, history: seq<Bar>)
    requires history != [] && forall p :: p in periods ==> p in all
    requires forall i, j :: 0 <= i < j < |periods| ==> periods[i] < periods[j]
    ensures var points := PointsFor(key, periods, ReducersOf(all, history), history[|history| - 1]);
            && |points| == WarmCount(periods, |history|)
            && forall i :: 0 <= i < |points| ==> points[i] == PointAt(key, history, |history| - 1, periods[i])
  {
    hide ReducersOf, NewPoint, PointAt;
    if periods != [] {
      var rest, p := periods[..|periods| - 1], periods[|periods| - 1];
      PointsAreWarm(key, all, rest, history);
      WarmAre(rest, |history|);
      WarmAre(periods, |history|);
      assert p in all;
      ReadyIs(key, all, history, p);
    }
  }

  lemma {:induction false} ReadyIs(key: SeriesKey, all: seq<Period>, history: seq<Bar>, p: Period)
    requires history != [] && p in all
    ensures var after := ReducersOf(all, history);
            && p in after && (after[p].Ready() <==> p <= |history|)
            && NewPoint(key, history[|history| - 1], p, after[p].samples, after[p].value, false)
               == PointAt(key, history, |history| - 1, p)
  {
    hide NewPoint, PointAt, EmaOf;
    PointIs(key, all, history, p);
  }

  lemma {:induction false} ClosedState(market: MarketReducer, history: seq<Bar>, bar: Bar)
    requires Tracks(market, history)
    ensures CloseBar(market, bar).state == StateAfter(history + [bar])
  {
    hide Evaluate, TransitionsBetween, Suffix;
    CloseBarTracks(market, history, bar);
    assert (history + [bar])[..|history|] == history;
  }

  lemma {:induction false} StateOfHistory(history: seq<Bar>)
    requires history != []
    ensures MarketOf(history).state == StateAfter(history)
  {
    hide Evaluate, CloseBar, StateAfter, Tracks;
    var rest, bar := history[..|history| - 1], history[|history| - 1];
    MarketOfTracks(rest);
    assert rest + [bar] == history;
    ClosedState(MarketOf(rest), rest, bar);
  }

  lemma {:induction false} FrameIs(config: LaneConfig, history: seq<Bar>, state: MarketState)
    requires history != [] && state == StateAfter(history) && history[|history| - 1].closed
    ensures NewMarketEvent(config, history[|history| - 1], state, ReducersOf(config.periods, history)) == FrameAt(config, history)
  {
    hide StateAfter, EmaOf, Closes, ReducersOf, IndicatorAt;
    FrameReportsFold(config, history[|history| - 1], state, history);
  }

  lemma {:induction false} CandleLogIs(config: LaneConfig, history: seq<Bar>)
    requires ValidConfig(config) && history != []
    ensures CandleLog(config, history) ==
            PointsFor(config.key, config.periods, ReducersOf(config.periods, history), history[|history| - 1])
            + [FrameAt(config, history)]
  {
    hide ReducersOf, PointsFor, PointAt, FrameAt;
    PointsAreWarm(config.key, config.periods, config.periods, history);
  }

  lemma {:induction false} StampedConcat(a: seq<Event>, b: seq<Event>, next: nat)
    ensures Stamped(a + b, next) == Stamped(a, next) + Stamped(b, next + |a|)
  {
  }

  /** A left-over cursor that is the very candle now closing: the store skips the commit. */
  predicate Skips(config: LaneConfig, lane: LaneState, store: StoreState, bar: Bar) {
    lane.lastBar.None? && config.key in store.cursors && store.cursors[config.key] == bar
  }

  /** What a command logged, what the current frame is, and where the log ends. */
  ghost predicate Told(config: LaneConfig, s: StoreState, t: StoreState, entries: seq<Event>) {
    t.events == s.events + Stamped(entries, |s.events|)
  }

  function Current(config: LaneConfig): (SeriesKey, AlgorithmRef) {
    (config.key, AlgorithmRef("smc.market_state", FactsConfig(config.periods)))
  }

  /** The store's market state of the series is the frame of this history. */
  ghost predicate ShowsFrame(config: LaneConfig, s: StoreState, history: seq<Bar>) {
    history != [] ==>
      && Current(config) in s.markets
      && (Blank(s.markets[Current(config)]) == FrameAt(config, history)
          || exists bars :: Blank(s.markets[Current(config)]) == ResetAt(config, history, bars))
  }

  /** Checkpoints are due at every multiple of the interval. */
  predicate IsDue(config: LaneConfig, m: nat)
    requires config.snapshotEvery > 0
  {
    m > 0 && m % config.snapshotEvery == 0
  }

  /** The store's checkpoints are those of the `k`-th candle. */
  ghost predicate CheckpointAt(config: LaneConfig, s: StoreState, history: seq<Bar>, k: nat) {
    1 <= k <= |history| && SeriesSnapshots(s, config.key) == CheckpointMap(config, history[..k])
  }

  /** Every checkpoint that was due has been taken, or a later one. */
  ghost predicate Checkpointed(config: LaneConfig, s: StoreState, history: seq<Bar>)
    requires config.snapshotEvery > 0
  {
    forall m: nat :: m <= |history| && IsDue(config, m) ==> exists k :: m <= k && CheckpointAt(config, s, history, k)
  }

  // ---- A closed candle ---------------------------------------------------

  /** The commit of the next candle, in terms of the history it makes. */
  lemma {:induction false} CommitTells(
    config: LaneConfig, lane: LaneState, store: StoreState, history: seq<Bar>, bar: Bar, fail: bool, market: MarketReducer)
    requires ValidConfig(config) && InStep(config, lane, store, history)
    requires bar.closed && ValidBar(config.key, bar) && !Skips(config, lane, store, bar)
    requires history != [] ==> bar.time > history[|history| - 1].time
    requires CloseBar(market, bar) == CloseBar(lane.market, bar)
    ensures var r := CommitStep(config, lane, store, bar, fail, lane.reducers, market);
            var all := history + [bar];
            var points := PointsFor(config.key, config.periods, ReducersOf(config.periods, all), bar);
            var after, closed := ReducersOf(config.periods, all), CloseBar(lane.market, bar);
            var snapshots := if |all| % config.snapshotEvery == 0
                             then Checkpoints(config.periods, after, closed, bar.time) else [];
            r.error.None? ==> CommittedFields(store, r.store, config.key, bar, points, FrameAt(config, all), snapshots)
  {
    hide CommitStep, InStep, LaneFolds, StoreFolds, LogInv, PointsFor, NewMarketEvent, Checkpoints, CloseBar,
         ReducersOf, Advanced, CommitClosed, CommittedFields, FrameAt, StateAfter, Tracks, ValidBar, History,
         ValidConfig, PointList, FrameOf, Skips;
    StepHolds(config, lane, store, history);
    LaneIs(config, lane, history);
    Increasing(config);
    var all, key := history + [bar], config.key;
    var after, closed := ReducersOf(config.periods, all), CloseBar(lane.market, bar);
    AdvancedReducers(config.periods, history, bar);
    ClosedState(lane.market, history, bar);
    FrameIs(config, all, closed.state);
    if CommitStep(config, lane, store, bar, fail, lane.reducers, market).error.None? {
      var points, frame := PointsFor(key, config.periods, after, bar), FrameAt(config, all);
      var snapshots := if |all| % config.snapshotEvery == 0 then Checkpoints(config.periods, after, closed, bar.time) else [];
      CommitSucceeds(config, lane, store, bar, fail, lane.reducers, market, after, closed);
      NotBehind(config, lane, store, history, bar, closed.state, after, snapshots);
      PointsForDistinct(key, config.periods, after, bar);
      NewFrame(config, bar, closed.state, after);
      CommitFields(config, store, bar, points, frame, snapshots);
    }
  }

  /** A commit step that succeeds is an accepted transaction of points, frame and checkpoints. */
  lemma {:induction false} CommitSucceeds(
    config: LaneConfig, lane: LaneState, store: StoreState, bar: Bar, fail: bool, reducers: Reducers, market: MarketReducer,
    after: Reducers, closed: MarketReducer)
    requires ValidConfig(config) && after == Advanced(reducers, bar.close) && closed == CloseBar(market, bar)
    requires CommitStep(config, lane, store, bar, fail, reducers, market).error.None?
    ensures var snapshots := if (lane.closedCount + 1) % config.snapshotEvery == 0
                             then Checkpoints(config.periods, after, closed, bar.time) else [];
            var reply := CommitClosed(store, config.key, bar,
              PointsFor(config.key, config.periods, after, bar) + [NewMarketEvent(config, bar, closed.state, after)], snapshots);
            reply.Accepted? && reply.state == CommitStep(config, lane, store, bar, fail, reducers, market).store
  {
    hide PointsFor, NewMarketEvent, Checkpoints, CloseBar, Advanced, CommitClosed;
  }

  lemma {:induction false} LaneIs(config: LaneConfig, lane: LaneState, history: seq<Bar>)
    requires LaneFolds(config, lane, history)
    ensures lane.reducers == ReducersOf(config.periods, history) && Tracks(lane.market, history)
    ensures lane.lastBar == LastOf(history) && lane.closedCount == |history|
  {
    hide ReducersOf, Tracks;
  }

  /** A commit that is accepted and not skipped is beyond the cursor. */
  lemma {:induction false} NotBehind(
    config: LaneConfig, lane: LaneState, store: StoreState, history: seq<Bar>, bar: Bar, state: MarketState, after: Reducers,
    snapshots: seq<Snapshot>)
    requires StoreFolds(config, store, history) && lane.lastBar == LastOf(history)
    requires bar.closed && ValidBar(config.key, bar) && !Skips(config, lane, store, bar)
    requires history != [] ==> bar.time > history[|history| - 1].time
    requires CommitClosed(store, config.key, bar,
               PointsFor(config.key, config.periods, after, bar) + [NewMarketEvent(config, bar, state, after)],
               snapshots).Accepted?
    ensures config.key in store.cursors ==> store.cursors[config.key].time < bar.time
  {
    hide StoreFolds, PointsFor, NewMarketEvent, CommitClosed, ValidBar;
    if config.key in store.cursors && bar.time <= store.cursors[config.key].time {
      CommitSkipped(config, store, history, bar, state, after, snapshots);
    }
  }

  lemma {:induction false} CommittedTells(
    config: LaneConfig, s: StoreState, t: StoreState, history: seq<Bar>, bar: Bar, market: MarketReducer,
    snapshots: seq<Snapshot>)
    requires ValidConfig(config) && LogInv(s) && CheckpointsFold(config, s, history) && Tracks(market, history + [bar])
    requires var all := history + [bar];
             var after := ReducersOf(config.periods, all);
             var points := PointsFor(config.key, config.periods, after, bar);
             && snapshots == (if |all| % config.snapshotEvery == 0
                              then Checkpoints(config.periods, after, market, bar.time) else [])
             && CommittedFields(s, t, config.key, bar, points, FrameAt(config, all), snapshots)
    ensures Told(config, s, t, CandleLog(config, history + [bar])) && ShowsFrame(config, t, history + [bar])
    ensures Checkpointed(config, s, history) ==> Checkpointed(config, t, history + [bar])
  {
    hide CheckpointsFold, Tracks, ReducersOf, PointsFor, Checkpoints, PutSnapshots, PutPoints, LogInv, StateAfter,
         IndicatorAt, CheckpointMap, SnapshotsOf;
    var all := history + [bar];
    LogIsDense(s);
    CandleLogIs(config, all);
    var points, frame := PointsFor(config.key, config.periods, ReducersOf(config.periods, all), bar), FrameAt(config, all);
    StampedConcat(points, [frame], s.next);
    assert Stamped([frame], s.next + |points|) == [frame.(cursor := s.next + |points| + 1)];
    assert Blank(frame.(cursor := s.next + |points| + 1)) == frame;
    if Checkpointed(config, s, history) {
      CheckpointAdvances(config, s, t, history, bar, market, snapshots);
    }
  }

  lemma {:induction false} CheckpointAdvances(
    config: LaneConfig, s: StoreState, t: StoreState, history: seq<Bar>, bar: Bar, market: MarketReducer,
    snapshots: seq<Snapshot>)
    requires ValidConfig(config) && Tracks(market, history + [bar])
    requires CheckpointsFold(config, s, history) && Checkpointed(config, s, history)
    requires var all := history + [bar];
             snapshots == (if |all| % config.snapshotEvery == 0
                           then Checkpoints(config.periods, ReducersOf(config.periods, all), market, bar.time) else [])
    requires t.snapshots == PutSnapshots(s.snapshots, config.key, snapshots)
    ensures Checkpointed(config, t, history + [bar])
  {
    hide CheckpointsFold, Tracks, ReducersOf, Checkpoints, PutSnapshots, CheckpointMap, SnapshotsOf;
    var all := history + [bar];
    if |all| % config.snapshotEvery == 0 {
      NewestCheckpoint(config, s, t, history, bar, market);
      assert all[..|all|] == all;
      assert CheckpointAt(config, t, all, |all|);
    } else {
      NoSnapshots(s.snapshots, config.key);
      forall m: nat | m <= |all| && IsDue(config, m) ensures exists k :: m <= k && CheckpointAt(config, t, all, k) {
        assert m <= |history|;
        var k :| m <= k && CheckpointAt(config, s, history, k);
        assert all[..k] == history[..k];
        assert CheckpointAt(config, t, all, k);
      }
    }
  }

  /** What a closed candle leaves in the log, as current frame and as checkpoint. */
  lemma {:induction false} ClosedTells(
    config: LaneConfig, lane: LaneState, store: StoreState, history: seq<Bar>, bar: Bar, fail: bool)
    requires ValidConfig(config) && InStep(config, lane, store, history) && !Skips(config, lane, store, bar)
    ensures var r := ClosedStep(config, lane, store, bar, fail);
            && r.effect.Extended?
            && Told(config, store, r.store, Entries(config, history, r.effect.bars))
            && (r.effect.bars == [bar] ==> ShowsFrame(config, r.store, history + [bar]))
            && (Checkpointed(config, store, history) ==> Checkpointed(config, r.store, history + r.effect.bars))
  {
    hide ClosedStep, CommitStep, LaneFolds, StoreFolds, LogInv, History, CloseBar, RestoreMarket, ValidBar, CandleLog,
         FrameAt, ShowsFrame, Checkpointed, CommittedFields, PointsFor, Checkpoints, ReducersOf, Tracks,
         CheckpointsFold;
    var r, all := ClosedStep(config, lane, store, bar, fail), history + [bar];
    assert history + [] == history;
    NothingTold(config, store, history);
    StepHolds(config, lane, store, history);
    assert !SkipsFirstPoint(config, lane, store, bar);
    ClosedExtends(config, lane, store, history, bar, fail);
    if r.effect.bars == [bar] {
      if !bar.closed || !ValidBar(config.key, bar) || (history != [] && bar.time != history[|history| - 1].time + config.step) {
        NotNext(config, lane, store, bar, fail);
      }
      ReducedClosed(config, lane, store, history, bar, fail);
      CommitTells(config, lane, store, history, bar, fail, RestoreMarket(TakeMarketSnapshot(lane.market)).value);
      LaneIs(config, lane, history);
      CloseBarTracks(lane.market, history, bar);
      StoreParts(config, store, history);
      var after, closed := ReducersOf(config.periods, all), CloseBar(lane.market, bar);
      var snapshots := if |all| % config.snapshotEvery == 0 then Checkpoints(config.periods, after, closed, bar.time) else [];
      CommittedTells(config, store, r.store, history, bar, closed, snapshots);
      OneEntry(config, history, bar);
    }
  }

  /** The newest log entry after a close carries the market state a from-scratch computation over
      the whole history ends with, and one from-scratch average per period. */
  lemma {:induction false} ClosedFrame(
    config: LaneConfig, lane: LaneState, store: StoreState, history: seq<Bar>, bar: Bar, fail: bool)
    requires ValidConfig(config) && InStep(config, lane, store, history) && !Skips(config, lane, store, bar)
    ensures var r, all := ClosedStep(config, lane, store, bar, fail), history + [bar];
            r.effect == Extended([bar]) ==>
              && r.store.events != []
              && var last := r.store.events[|r.store.events| - 1];
              && last.market == Some(MarketOf(all).state) && last.sourceBar == bar && !last.reset
              && |last.indicators| == |config.periods|
              && (forall i :: 0 <= i < |config.periods| ==> last.indicators[i] == IndicatorAt(config.periods[i], all))
  {
    hide ClosedStep, InStep, StateAfter, ValidConfig, MarketOf, PointAt, ShowsFrame, Checkpointed, IndicatorAt, WarmCount;
    Increasing(config);
    ClosedTells(config, lane, store, history, bar, fail);
    StateOfHistory(history + [bar]);
    OneEntry(config, history, bar);
  }

  lemma StoreParts(config: LaneConfig, store: StoreState, history: seq<Bar>)
    requires StoreFolds(config, store, history)
    ensures CheckpointsFold(config, store, history)
  {
  }

  lemma {:induction false} OneEntry(config: LaneConfig, history: seq<Bar>, bar: Bar)
    ensures Entries(config, history, [bar]) == CandleLog(config, history + [bar])
  {
    hide CandleLog;
    assert [bar][..0] == [];
    assert Entries(config, history, []) + CandleLog(config, history + [bar]) == CandleLog(config, history + [bar]);
  }

  lemma {:induction false} NothingTold(config: LaneConfig, s: StoreState, history: seq<Bar>)
    ensures Told(config, s, s, Entries(config, history, []))
  {
    assert Stamped([], |s.events|) == [];
  }

  lemma {:induction false} ToldThenTold(
    config: LaneConfig, s: StoreState, t: StoreState, u: StoreState, a: seq<Event>, b: seq<Event>)
    requires Told(config, s, t, a) && Told(config, t, u, b)
    ensures Told(config, s, u, a + b)
  {
    StampedConcat(a, b, |s.events|);
  }

  lemma {:induction false} EntriesThen(config: LaneConfig, history: seq<Bar>, a: seq<Bar>, b: seq<Bar>)
    ensures Entries(config, history, a + b) == Entries(config, history, a) + Entries(config, history + a, b)
  {
    hide CandleLog;
    if b == [] {
      assert a + b == a;
    } else {
      var rest := b[..|b| - 1];
      EntriesThen(config, history, a, rest);
      assert (a + b)[..|a + b| - 1] == a + rest;
      assert history + (a + b) == (history + a) + b;
    }
  }

  // ---- Catching up -------------------------------------------------------

  /** What is known of a store that tells `entries` more than before about a longer history. */
  ghost predicate Tells(
    config: LaneConfig, s: StoreState, t: StoreState, history: seq<Bar>, next: seq<Bar>, entries: seq<Event>)
    requires config.snapshotEvery > 0
  {
    && Told(config, s, t, entries)
    && (ShowsFrame(config, s, history) ==> ShowsFrame(config, t, next))
    && (Checkpointed(config, s, history) ==> Checkpointed(config, t, next))
  }

  lemma {:induction false} CatchUpBarTells(
    config: LaneConfig, lane: LaneState, store: StoreState, history: seq<Bar>, bar: Bar, fail: bool)
    requires ValidConfig(config) && InStep(config, lane, store, history) && history != []
    ensures var r := CatchUpBar(config, lane, store, bar, fail);
            && r.effect.Extended?
            && Tells(config, store, r.store, history, history + r.effect.bars, Entries(config, history, r.effect.bars))
  {
    hide ClosedStep, InStep, FingerprintOf, ShowsFrame, Checkpointed, Told, Entries, LaneFolds, StoreFolds, History, LogInv;
    assert history + [] == history;
    StepHolds(config, lane, store, history);
    NothingTold(config, store, history);
    ClosedExtends(config, lane, store, history, bar, fail);
    ClosedTells(config, lane, store, history, bar, fail);
  }

  lemma {:induction false} CatchUpTells(
    config: LaneConfig, lane: LaneState, store: StoreState, history: seq<Bar>, bars: seq<Bar>, failing: set<nat>, n: nat)
    requires ValidConfig(config) && InStep(config, lane, store, history) && history != [] && n <= |bars|
    ensures var r := CatchUp(config, lane, store, bars, failing, n);
            Tells(config, store, r.store, history, history + r.effect.bars, Entries(config, history, r.effect.bars))
  {
    hide InStep, CatchUpBar, ShowsFrame, Checkpointed, Told, Entries;
    assert history + [] == history;
    NothingTold(config, store, history);
    if n > 0 {
      CatchUpTells(config, lane, store, history, bars, failing, n - 1);
      CatchUpExtends(config, lane, store, history, bars, failing, n - 1);
      var before := CatchUp(config, lane, store, bars, failing, n - 1);
      if before.error.None? {
        var sofar := history + before.effect.bars;
        var r := CatchUpBar(config, before.lane, before.store, bars[n - 1], n - 1 in failing);
        CatchUpBarTells(config, before.lane, before.store, sofar, bars[n - 1], n - 1 in failing);
        assert sofar + r.effect.bars == history + (before.effect.bars + r.effect.bars);
        EntriesThen(config, history, before.effect.bars, r.effect.bars);
        ToldThenTold(config, store, before.store, r.store, Entries(config, history, before.effect.bars),
          Entries(config, sofar, r.effect.bars));
      }
    }
  }

  // ---- Rebuilding --------------------------------------------------------

  /** What a rebuild logs: nothing for a new series or an empty one, else the reset frame. */
  function ResetLog(config: LaneConfig, kept: seq<Bar>, bars: seq<Bar>, reset: bool): seq<Event> {
    if kept == [] || !reset then [] else [ResetAt(config, kept, bars)]
  }

  lemma {:induction false} RebuiltFrame(config: LaneConfig, b: Build, history: seq<Bar>, bars: seq<Bar>, reset: bool)
    requires BuildFolds(config, b, history) && history != []
    ensures FrameFor(config, b, history[|history| - 1], bars, reset) ==
            if reset then ResetAt(config, history, bars) else FrameAt(config, history)
  {
    hide NewMarketEvent, FrameAt, StateAfter, MarketOf, ReducersOf, AllPoints, Filter, Suffix, ValidBar;
    StateOfHistory(history);
    FrameIs(config, history, b.market.state);
    FrameHead(config, history);
    if reset {
      var time := history[|history| - 1].time;
      FilterAgrees(ClosedEarlier(time), Earlier(time), bars);
    }
  }

  lemma {:induction false} FrameHead(config: LaneConfig, history: seq<Bar>)
    requires history != []
    ensures var e, bar := FrameAt(config, history), history[|history| - 1];
            e.key == config.key && e.barTime == bar.time && (e.key, e.algorithm) == Current(config) && !e.reset && e.cursor == 0
  {
    hide StateAfter, IndicatorAt;
  }

  lemma {:induction false} RebuiltTells(
    config: LaneConfig, s: StoreState, t: StoreState, history: seq<Bar>, bars: seq<Bar>, reset: bool, market: MarketReducer)
    requires ValidConfig(config) && LogInv(s) && history != [] && Tracks(market, history)
    requires RebuiltFields(config, s, t, history, if reset then ResetAt(config, history, bars) else FrameAt(config, history),
               Checkpoints(config.periods, ReducersOf(config.periods, history), market, history[|history| - 1].time))
    ensures Told(config, s, t, ResetLog(config, history, bars, reset))
    ensures ShowsFrame(config, t, history) && Checkpointed(config, t, history)
  {
    hide SeriesPoints, PointMap, PutSnapshots, LogInv, Tracks, Checkpoints, CheckpointMap, ReducersOf, FromSeries,
         OthersKept, SnapshotsOf, Wipe, ValidConfig, KeyedById, FrameAt;
    LogIsDense(s);
    FrameHead(config, history);
    WipedSeries(s, config.key);
    CheckpointsStored(config, Wipe(s, config.key).snapshots, history, market);
    assert history[..|history|] == history;
    assert CheckpointAt(config, t, history, |history|);
    var frame := if reset then ResetAt(config, history, bars) else FrameAt(config, history);
    assert Blank(frame) == frame;
    assert reset ==> Stamped([frame], |s.events|) == [frame.(cursor := |s.events| + 1)];
    assert Stamped([], |s.events|) == [];
  }

  /** What a successful rebuild logs, shows and checkpoints; a failed one leaves the store. */
  lemma {:induction false} RebuildTells(
    config: LaneConfig, lane: LaneState, store: StoreState, bars: seq<Bar>, reset: bool, fail: bool)
    requires ValidConfig(config) && LogInv(store) && ValidCursor(config, store)
    ensures var r, kept := RebuildStep(config, lane, store, bars, reset, fail), Kept(bars);
            && (r.error.Some? ==> r.store == store)
            && (r.error.None? ==>
                  && r.effect == Replaced(kept)
                  && Told(config, store, r.store, ResetLog(config, kept, bars, reset))
                  && ShowsFrame(config, r.store, kept) && Checkpointed(config, r.store, kept))
  {
    hide BuildRun, RebuildSeries, Checkpoints, RebuildEventsOf, ShowsFrame, Checkpointed, LogInv, ValidConfig, Kept,
         ResetAt, StoreFolds;
    var r, kept := RebuildStep(config, lane, store, bars, reset, fail), Kept(bars);
    if r.error.None? {
      var b := BuildRun(config, bars).value;
      BuildIsFold(config, bars);
      BuildLast(config, b, kept);
      if kept == [] {
        EmptyTells(config, store, b, bars, reset);
      } else {
        AcceptedTells(config, store, bars, reset, b, kept);
      }
    }
  }

  lemma {:induction false} EmptyTells(config: LaneConfig, store: StoreState, b: Build, bars: seq<Bar>, reset: bool)
    requires ValidConfig(config) && LogInv(store) && ValidCursor(config, store) && BuildFolds(config, b, [])
    ensures b.lastBar == None
    ensures var reply := RebuildSeries(store, config.key, RebuildEventsOf(config, b, bars, reset), [], b.lastBar);
            reply.Accepted? ==>
              && Told(config, store, reply.state, ResetLog(config, [], bars, reset))
              && ShowsFrame(config, reply.state, []) && Checkpointed(config, reply.state, [])
  {
    hide RebuildSeries, LogInv, ReducersOf, MarketOf, StoreFolds, ValidConfig;
    Increasing(config);
    EmptyRebuild(config, store);
    assert RebuildEventsOf(config, b, bars, reset) == [];
    assert Stamped([], |store.events|) == [];
  }

  lemma {:induction false} AcceptedTells(
    config: LaneConfig, store: StoreState, bars: seq<Bar>, reset: bool, b: Build, history: seq<Bar>)
    requires ValidConfig(config) && LogInv(store) && BuildFolds(config, b, history) && history != []
    ensures b.lastBar == Some(history[|history| - 1])
    ensures var snapshots := Checkpoints(config.periods, b.reducers, b.market, b.lastBar.value.time);
            var reply := RebuildSeries(store, config.key, RebuildEventsOf(config, b, bars, reset), snapshots, b.lastBar);
            reply.Accepted? ==>
              && Told(config, store, reply.state, ResetLog(config, history, bars, reset))
              && ShowsFrame(config, reply.state, history) && Checkpointed(config, reply.state, history)
  {
    hide RebuildSeries, Checkpoints, ReducersOf, Tracks, LogInv, LastFrame, RebuiltFields, RebuildEventsOf, FrameFor,
         BuildFolds, ValidConfig, ResetAt, FrameAt, Told, ResetLog, ShowsFrame, Checkpointed;
    AcceptedFields(config, store, bars, reset, b, history);
    BuildHistory(config, b, history);
    RebuiltFrame(config, b, history, bars, reset);
    var snapshots := Checkpoints(config.periods, b.reducers, b.market, b.lastBar.value.time);
    var reply := RebuildSeries(store, config.key, RebuildEventsOf(config, b, bars, reset), snapshots, b.lastBar);
    if reply.Accepted? {
      RebuiltTells(config, store, reply.state, history, bars, reset, b.market);
    }
  }

  // ---- Seeding -----------------------------------------------------------

  /** What a running lane applied before a failed catch-up made it rebuild. */
  function AppliedFirst(config: LaneConfig, lane: LaneState, store: StoreState, bars: seq<Bar>, faults: Faults): seq<Bar>
    requires ValidConfig(config)
  {
    if lane.lastBar.None? || SeedConflicts(lane, bars) then []
    else CatchUp(config, lane, store, bars, faults.commits, |bars|).effect.bars
  }

  /** What a seed logs: the candles it appended, or those and then the reset of its rebuild. Only
      the first seed of a series the store has never seen is not a reset. */
  function SeedLog(
    config: LaneConfig, lane: LaneState, store: StoreState, history: seq<Bar>, bars: seq<Bar>, faults: Faults,
    effect: Effect): seq<Event>
    requires ValidConfig(config)
  {
    match effect
    case Extended(applied) => Entries(config, history, applied)
    case Replaced(kept) =>
      Entries(config, history, AppliedFirst(config, lane, store, bars, faults))
      + ResetLog(config, kept, bars, lane.lastBar.Some? || config.key in store.cursors)
  }

  lemma {:induction false} RunningTells(
    config: LaneConfig, lane: LaneState, store: StoreState, history: seq<Bar>, bars: seq<Bar>, faults: Faults)
    requires ValidConfig(config) && InStep(config, lane, store, history) && history != [] && lane.lastBar.Some?
    ensures var r := SeedOrdered(config, lane, store, bars, faults);
            Tells(config, store, r.store, history, NextHistory(history, r.effect),
                  SeedLog(config, lane, store, history, bars, faults, r.effect))
  {
    hide RebuildStep, CatchUp, SeedConflicts, LaneFolds, StoreFolds, LogInv, History, ValidConfig, ShowsFrame,
         Checkpointed, Told, ResetLog, Entries;
    Increasing(config);
    StepHolds(config, lane, store, history);
    StoreHasValidCursor(config, store, history);
    assert history + [] == history;
    NothingTold(config, store, history);
    NoEntries(config, history);
    assert [] + ResetLog(config, Kept(bars), bars, true) == ResetLog(config, Kept(bars), bars, true);
    if SeedConflicts(lane, bars) {
      RebuildTells(config, lane, store, bars, true, faults.rebuild);
      RebuildFailsSafely(config, lane, store, bars, true, faults.rebuild);
    } else {
      RunningCatchesUp(config, lane, store, history, bars, faults);
    }
  }

  lemma {:induction false} RunningCatchesUp(
    config: LaneConfig, lane: LaneState, store: StoreState, history: seq<Bar>, bars: seq<Bar>, faults: Faults)
    requires ValidConfig(config) && InStep(config, lane, store, history) && history != []
    requires lane.lastBar.Some? && !SeedConflicts(lane, bars)
    ensures var r := SeedOrdered(config, lane, store, bars, faults);
            Tells(config, store, r.store, history, NextHistory(history, r.effect),
                  SeedLog(config, lane, store, history, bars, faults, r.effect))
  {
    hide RebuildStep, CatchUp, SeedConflicts, InStep, LaneFolds, StoreFolds, LogInv, History, ValidConfig, ShowsFrame,
         Checkpointed, Told, ResetLog, Entries;
    Increasing(config);
    CatchUpTells(config, lane, store, history, bars, faults.commits, |bars|);
    CatchUpExtends(config, lane, store, history, bars, faults.commits, |bars|);
    var caught := CatchUp(config, lane, store, bars, faults.commits, |bars|);
    var sofar := history + caught.effect.bars;
    StepHolds(config, caught.lane, caught.store, sofar);
    StoreHasValidCursor(config, caught.store, sofar);
    RebuildTells(config, caught.lane, caught.store, bars, true, faults.rebuild);
    RebuildFailsSafely(config, caught.lane, caught.store, bars, true, faults.rebuild);
    var rebuilt := RebuildStep(config, caught.lane, caught.store, bars, true, faults.rebuild);
    if rebuilt.error.None? {
      ToldThenTold(config, store, caught.store, rebuilt.store, Entries(config, history, caught.effect.bars),
        ResetLog(config, Kept(bars), bars, true));
    }
  }

  lemma {:induction false} NoEntries(config: LaneConfig, history: seq<Bar>)
    ensures Entries(config, history, []) == []
  {
  }

  lemma {:induction false} StartingTells(
    config: LaneConfig, lane: LaneState, store: StoreState, history: seq<Bar>, bars: seq<Bar>, faults: Faults)
    requires ValidConfig(config) && History(config.key, history) && StoreFolds(config, store, history) && LogInv(store)
    requires lane.lastBar.None? && SortedBy(BarTime, bars) && (faults.load || Faithful(config, store, history, bars))
    ensures var r := SeedOrdered(config, lane, store, bars, faults);
            Tells(config, store, r.store, history, NextHistory(history, r.effect),
                  SeedLog(config, lane, store, history, bars, faults, r.effect))
  {
    hide RebuildStep, CatchUp, RestoreStep, LaneFolds, StoreFolds, LogInv, History, ValidConfig, Faithful, SnapshotsOf,
         SortedBy, ShowsFrame, Checkpointed, Told, ResetLog, Entries;
    Increasing(config);
    StoreHasValidCursor(config, store, history);
    assert history + [] == history;
    NothingTold(config, store, history);
    NoEntries(config, history);
    var reset := config.key in store.cursors;
    assert [] + ResetLog(config, Kept(bars), bars, reset) == ResetLog(config, Kept(bars), bars, reset);
    RebuildTells(config, lane, store, bars, true, faults.rebuild);
    RebuildTells(config, lane, store, bars, false, faults.rebuild);
    RebuildFailsSafely(config, lane, store, bars, true, faults.rebuild);
    RebuildFailsSafely(config, lane, store, bars, false, faults.rebuild);
    if !faults.load && config.key in store.cursors {
      var restored := RestoreStep(config, store.cursors[config.key], SnapshotsOf(store.snapshots, config.key), bars);
      if restored.Some? {
        RestoreFromStore(config, store, history, bars);
        CatchUpTells(config, restored.value, store, history, bars, faults.commits, |bars|);
      }
    }
  }

  // ---- Every command and every run ---------------------------------------

  predicate SkippedClose(config: LaneConfig, sys: System, command: Command) {
    command.Closed? && Skips(config, sys.lane, sys.store, command.bar)
  }

  /** What a command logs: for each candle it applied the warm points and the frame, and for a
      rebuild its reset frame. A close the store skips logs nothing. */
  function CommandLog(config: LaneConfig, sys: System, history: seq<Bar>, command: Command): seq<Event>
    requires ValidConfig(config)
  {
    var effect := Do(config, sys, command).1;
    if SkippedClose(config, sys, command) then []
    else if command.Seed? then SeedLog(config, sys.lane, sys.store, history, Ordered(command.bars), command.faults, effect)
    else Entries(config, history, effect.bars)
  }

  /** A commit at the cursor leaves the store as it was. */
  lemma {:induction false} SkipTellsNothing(config: LaneConfig, lane: LaneState, store: StoreState, bar: Bar, fail: bool)
    requires ValidConfig(config) && config.key in store.cursors && bar.time <= store.cursors[config.key].time
    ensures ClosedStep(config, lane, store, bar, fail).store == store
  {
    hide CloneReducers, RestoreMarket, ValidBar, CloseBar, Advanced, PointsFor, NewMarketEvent, Checkpoints,
         FingerprintOf, CommitEvents, PutSnapshots;
  }

  lemma {:induction false} CloseTells(config: LaneConfig, sys: System, history: seq<Bar>, bar: Bar, fail: bool)
    requires ValidConfig(config) && SystemInv(config, sys, history) && SafeToClose(config, sys, history, bar, fail)
    ensures var command := Closed(bar, fail);
            var next := Do(config, sys, command);
            && Told(config, sys.store, next.0.store, CommandLog(config, sys, history, command))
            && (!Skips(config, sys.lane, sys.store, bar) ==>
                  Tells(config, sys.store, next.0.store, history, NextHistory(history, next.1),
                        CommandLog(config, sys, history, command)))
  {
    hide LaneFolds, StoreFolds, LogInv, History, ValidConfig, ClosedStep, SkipsFirstPoint, ValidBar, Refuses,
         ShowsFrame, Checkpointed, Told, Entries;
    Increasing(config);
    assert history + [] == history;
    NothingTold(config, sys.store, history);
    NoEntries(config, history);
    if Skips(config, sys.lane, sys.store, bar) {
      SkipTellsNothing(config, sys.lane, sys.store, bar, fail);
    } else if fail || !bar.closed || !ValidBar(config.key, bar) || Refuses(sys.store, config.key, bar) {
      FailedClose(config, sys.lane, sys.store, bar, fail);
    } else {
      LastBarTells(config, sys.lane, history);
      ClosedExtends(config, sys.lane, sys.store, history, bar, fail);
      ClosedTells(config, sys.lane, sys.store, history, bar, fail);
    }
  }

  /** What every command logs, shows and checkpoints. */
  lemma {:induction false} StepTells(config: LaneConfig, sys: System, history: seq<Bar>, command: Command)
    requires ValidConfig(config) && SystemInv(config, sys, history) && Admissible(config, sys, history, command)
    ensures var next := Do(config, sys, command);
            && Told(config, sys.store, next.0.store, CommandLog(config, sys, history, command))
            && (!SkippedClose(config, sys, command) ==>
                  Tells(config, sys.store, next.0.store, history, NextHistory(history, next.1),
                        CommandLog(config, sys, history, command)))
  {
    hide LaneFolds, StoreFolds, LogInv, History, ValidConfig, Faithful, SeedOrdered, ClosedStep, FormingStep,
         SafeToClose, ShowsFrame, Checkpointed, Told, Entries, Ordered, SeedLog;
    Increasing(config);
    assert history + [] == history;
    NothingTold(config, sys.store, history);
    match command
    case Seed(bars, faults) =>
      OrderedIsSorted(bars);
      LastBarTells(config, sys.lane, history);
      if sys.lane.lastBar.Some? {
        RunningTells(config, sys.lane, sys.store, history, Ordered(bars), faults);
      } else {
        StartingTells(config, sys.lane, sys.store, history, Ordered(bars), faults);
      }
    case Closed(bar, fail) =>
      CloseTells(config, sys, history, bar, fail);
    case Forming(_) =>
    case Crash =>
  }

  /** The logs of the commands of a run, one after another. */
  function RunLog(config: LaneConfig, sys: System, history: seq<Bar>, commands: seq<Command>): seq<Event>
    requires ValidConfig(config)
  {
    if commands == [] then []
    else
      var before := commands[..|commands| - 1];
      RunLog(config, sys, history, before)
      + CommandLog(config, Run(config, sys, before), HistoryOf(config, sys, history, before), commands[|commands| - 1])
  }

  /** No close of the run is skipped by the store. */
  predicate NeverSkips(config: LaneConfig, sys: System, commands: seq<Command>)
    requires ValidConfig(config)
  {
    commands == [] ||
    var before := commands[..|commands| - 1];
    NeverSkips(config, sys, before) && !SkippedClose(config, Run(config, sys, before), commands[|commands| - 1])
  }

  lemma {:induction false} RunTells(config: LaneConfig, sys: System, history: seq<Bar>, commands: seq<Command>)
    requires ValidConfig(config) && SystemInv(config, sys, history) && AdmissibleRun(config, sys, history, commands)
    ensures var end, all := Run(config, sys, commands), HistoryOf(config, sys, history, commands);
            && Told(config, sys.store, end.store, RunLog(config, sys, history, commands))
            && (NeverSkips(config, sys, commands) ==>
                  Tells(config, sys.store, end.store, history, all, RunLog(config, sys, history, commands)))
  {
    hide SystemInv, Admissible, Do, NextHistory, CommandLog, Told, ShowsFrame, Checkpointed, SkippedClose;
    if commands == [] {
      NothingTold(config, sys.store, history);
      NoEntries(config, history);
    } else {
      var before, command := commands[..|commands| - 1], commands[|commands| - 1];
      RunTells(config, sys, history, before);
      RunKeeps(config, sys, history, before);
      var mid, sofar := Run(config, sys, before), HistoryOf(config, sys, history, before);
      StepTells(config, mid, sofar, command);
      ToldThenTold(config, sys.store, mid.store, Do(config, mid, command).0.store, RunLog(config, sys, history, before),
        CommandLog(config, mid, sofar, command));
    }
  }

  /** From an empty store: the log of any admissible run, entry by entry, and, unless a close was
      skipped, the frame the store shows and the checkpoints it holds. */
  lemma {:induction false} EveryFrame(config: LaneConfig, commands: seq<Command>)
    requires ValidConfig(config) && AdmissibleRun(config, Initial(config), [], commands)
    ensures var sys, history := Run(config, Initial(config), commands), HistoryOf(config, Initial(config), [], commands);
            && sys.store.events == Stamped(RunLog(config, Initial(config), [], commands), 0)
            && (NeverSkips(config, Initial(config), commands) ==>
                  ShowsFrame(config, sys.store, history) && Checkpointed(config, sys.store, history))
  {
    hide Run, HistoryOf, RunLog, AdmissibleRun, NeverSkips, SystemInv, CheckpointAt;
    InitialInv(config);
    RunTells(config, Initial(config), [], commands);
    assert ShowsFrame(config, EMPTY_STORE, []);
    assert Checkpointed(config, EMPTY_STORE, []);
  }
}
