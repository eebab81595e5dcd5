/** Live and replayed candles lead to the same state (internal/engine/lane.go:288-314, 499-588). */
module Parity {
  import opened Model
  import opened Sorting
  import opened Market
  import opened Store
  import opened Lane
  import opened Fold
  import opened Durable
  import opened Rebuild
  import opened Steps
  import opened Runs
  import opened Conflicts
  import opened Seeds

  // ---- Seeding a history -------------------------------------------------

  /** A history is built from completely. */
  lemma {:induction false} HistoryBuilds(config: LaneConfig, bars: seq<Bar>)
    requires History(config.key, bars)
    ensures BuildRun(config, bars).Some? && Kept(bars) == bars
  {
    if bars != [] {
      hide ValidBar, FingerprintOf, Kept, BuildRun;
      var rest, bar := bars[..|bars| - 1], bars[|bars| - 1];
      assert rest + [bar] == bars;
      HistoryBuilds(config, rest);
      BuildPush(config, rest, bar);
      assert rest != [] ==> rest[|rest| - 1].time < bar.time;
    }
  }

  /** With the store up, a rebuild is refused only if it would move the cursor back. */
  lemma {:induction false} RebuildSucceeds(config: LaneConfig, lane: LaneState, store: StoreState, bars: seq<Bar>, reset: bool)
    requires History(config.key, bars) && bars != []
    requires config.key in store.cursors ==> store.cursors[config.key].time <= bars[|bars| - 1].time
    ensures RebuildStep(config, lane, store, bars, reset, false).error.None?
    ensures RebuildStep(config, lane, store, bars, reset, false).effect == Replaced(bars)
  {
    HistoryBuilds(config, bars);
    BuildIsFold(config, bars);
    hide BuildRun, Kept, RebuildEvents, RebuildEventsOf, Checkpoints, MarketOf, ReducersOf, AllPoints, History, PutSnapshots;
  }

  lemma {:induction false} OrderedHistory(key: SeriesKey, bars: seq<Bar>)
    requires History(key, bars)
    ensures SortedBy(BarTime, bars) && Ordered(bars) == bars
  {
    HistorySorted(key, bars);
    StableSortIdentity(BarTime, bars);
  }

  /** Seeding a history into an empty store. */
  lemma {:induction false} FreshSeed(config: LaneConfig, bars: seq<Bar>)
    requires ValidConfig(config) && History(config.key, bars) && bars != []
    ensures var r := Do(config, Initial(config), Seed(bars, NO_FAULTS));
            && r.1 == Replaced(bars) && r.0.seeded
            && InStep(config, r.0.lane, r.0.store, bars)
            && r.0.lane.market == MarketOf(bars)
  {
    hide RebuildStep, Kept, Ordered, LaneFolds, StoreFolds, LogInv, ValidConfig, MarketOf;
    var start := Initial(config);
    OrderedHistory(config.key, bars);
    HistoryBuilds(config, bars);
    RebuildSucceeds(config, start.lane, start.store, bars, false);
    EmptyStoreLog();
    RebuildReplaces(config, start.lane, start.store, bars, false, false);
  }

  lemma EmptyStoreLog()
    ensures LogInv(EMPTY_STORE)
  {
  }

  // ---- Closing candles live ----------------------------------------------

  predicate Contiguous(config: LaneConfig, bars: seq<Bar>) {
    forall i :: 0 <= i < |bars| - 1 ==> bars[i + 1].time == bars[i].time + config.step
  }

  /** Live input: closed candles the store accepts, and forming candles of any kind. */
  predicate Live(commands: seq<Command>) {
    forall i :: 0 <= i < |commands| ==> commands[i].Forming? || (commands[i].Closed? && !commands[i].fail)
  }

  function ClosedOf(commands: seq<Command>): seq<Bar> {
    if commands == [] then []
    else
      var last := commands[|commands| - 1];
      ClosedOf(commands[..|commands| - 1]) + if last.Closed? then [last.bar] else []
  }

  lemma {:induction false} NextCloses(config: LaneConfig, lane: LaneState, store: StoreState, history: seq<Bar>, bar: Bar)
    requires ValidConfig(config) && InStep(config, lane, store, history) && history != []
    requires bar.closed && ValidBar(config.key, bar) && bar.time == history[|history| - 1].time + config.step
    ensures ClosedStep(config, lane, store, bar, false).effect == Extended([bar])
  {
    Increments(config);
    StepHolds(config, lane, store, history);
    hide ValidConfig, CloseBar, RestoreMarket, StoreFolds, LogInv, Tracks, ReducersOf, ValidBar, Advanced, PointsFor,
         NewMarketEvent, Checkpoints, CommitEvents, PutSnapshots, History;
    ReducedClosed(config, lane, store, history, bar, false);
    hide ClosedStep, LaneFolds, InStep;
  }

  lemma Increments(config: LaneConfig)
    requires ValidConfig(config)
    ensures config.step > 0 && config.snapshotEvery > 0
  {
  }

  /** Live input extends the history by its closed candles, and the market by exactly the
      closes a replay makes. */
  lemma {:induction false} LiveExtends(config: LaneConfig, sys: System, history: seq<Bar>, commands: seq<Command>)
    requires ValidConfig(config) && InStep(config, sys.lane, sys.store, history) && history != [] && sys.lane.market ==
             MarketOf(history)
    requires Live(commands)
    requires History(config.key, history + ClosedOf(commands)) && Contiguous(config, history + ClosedOf(commands))
    ensures var r := Run(config, sys, commands);
            && InStep(config, r.lane, r.store, history + ClosedOf(commands))
            && r.lane.market == MarketOf(history + ClosedOf(commands))
  {
    hide InStep, ClosedStep, FormingStep, SeedStep, MarketOf, ValidConfig, History, Contiguous, NewLane;
    if commands == [] {
      assert history + ClosedOf(commands) == history;
    } else {
      var rest, last := commands[..|commands| - 1], commands[|commands| - 1];
      var sofar, all := history + ClosedOf(rest), history + ClosedOf(commands);
      LiveSoFar(config, all, |sofar|);
      assert all[..|sofar|] == sofar;
      LiveExtends(config, sys, history, rest);
      var before := Run(config, sys, rest);
      if last.Forming? {
        FormingInStep(config, before.lane, before.store, sofar, last.bar);
        assert all == sofar;
      } else {
        assert all == sofar + [last.bar];
        LiveCloses(config, before.lane, before.store, sofar, last.bar);
      }
    }
  }

  lemma {:induction false} LiveSoFar(config: LaneConfig, bars: seq<Bar>, n: nat)
    requires History(config.key, bars) && Contiguous(config, bars) && n <= |bars|
    ensures History(config.key, bars[..n]) && Contiguous(config, bars[..n])
  {
    hide ValidBar;
  }

  lemma {:induction false} LiveCloses(config: LaneConfig, lane: LaneState, store: StoreState, history: seq<Bar>, bar: Bar)
    requires ValidConfig(config) && InStep(config, lane, store, history) && history != [] && lane.market == MarketOf(history)
    requires History(config.key, history + [bar]) && Contiguous(config, history + [bar])
    ensures var r := ClosedStep(config, lane, store, bar, false);
            InStep(config, r.lane, r.store, history + [bar]) && r.lane.market == MarketOf(history + [bar])
  {
    hide InStep, ClosedStep, MarketOf, CloseBar, ValidBar, ValidConfig;
    var all := history + [bar];
    assert all[|history|] == bar && all[|history| - 1] == history[|history| - 1];
    assert all[|history| - 1 + 1].time == all[|history| - 1].time + config.step;
    NextCloses(config, lane, store, history, bar);
    NotSkipped(config, lane, store, history, bar);
    ClosedExtends(config, lane, store, history, bar, false);
    MarketPush(history, bar);
  }

  lemma {:induction false} NotSkipped(config: LaneConfig, lane: LaneState, store: StoreState, history: seq<Bar>, bar: Bar)
    requires InStep(config, lane, store, history) && history != []
    ensures !SkipsFirstPoint(config, lane, store, bar)
  {
    hide ReducersOf, Tracks, StoreFolds, LogInv;
  }

  lemma {:induction false} MarketPush(history: seq<Bar>, bar: Bar)
    ensures MarketOf(history + [bar]) == CloseBar(MarketOf(history), bar)
  {
    assert (history + [bar])[..|history|] == history;
  }

  lemma {:induction false} FormingInStep(config: LaneConfig, lane: LaneState, store: StoreState, history: seq<Bar>, bar: Bar)
    requires InStep(config, lane, store, history)
    ensures InStep(config, FormingStep(config, lane, bar).0, store, history) &&
            FormingStep(config, lane, bar).0.market == lane.market
  {
    hide LaneFolds, StoreFolds, LogInv, CloneReducers, Advanced, ValidBar;
    FormingKeeps(config, lane, bar, history);
  }

  // ---- Parity ------------------------------------------------------------

  /** Everything a lane and a store hold that does not depend on how candles arrived. */
  ghost predicate SameState(config: LaneConfig, a: System, b: System) {
    && a.lane.reducers == b.lane.reducers
    && a.lane.market == b.lane.market
    && a.lane.lastBar == b.lane.lastBar
    && a.lane.lastRevision == b.lane.lastRevision
    && a.lane.closedCount == b.lane.closedCount
    && config.key in a.store.cursors && config.key in b.store.cursors
    && a.store.cursors[config.key] == b.store.cursors[config.key]
    && SeriesPoints(a.store.points, config.key) == SeriesPoints(b.store.points, config.key)
  }

  lemma {:induction false} OneHistoryOneState(config: LaneConfig, a: System, b: System, history: seq<Bar>)
    requires history != [] && InStep(config, a.lane, a.store, history) && InStep(config, b.lane, b.store, history)
    requires a.lane.market == b.lane.market
    ensures SameState(config, a, b)
  {
    hide ReducersOf, Tracks, LogInv, SeriesPoints, PointMap, CheckpointsFold, History;
  }

  /** Seeding contiguous candles in one go, or a non-empty prefix and then closing the rest one
      by one with any forming candles in between, ends in the same state: reducers, market with
      its zone transitions, revision, count, cursor and points. */
  lemma {:induction false} LiveEqualsReplay(config: LaneConfig, bars: seq<Bar>, n: nat, commands: seq<Command>)
    requires ValidConfig(config) && History(config.key, bars) && Contiguous(config, bars) && 1 <= n <= |bars|
    requires Live(commands) && ClosedOf(commands) == bars[n..]
    ensures SameState(config,
              Run(config, Do(config, Initial(config), Seed(bars[..n], NO_FAULTS)).0, commands),
              Do(config, Initial(config), Seed(bars, NO_FAULTS)).0)
  {
    hide InStep, Run, Do, MarketOf, SameState, ValidConfig, Live, ClosedOf;
    var head := bars[..n];
    assert head + bars[n..] == bars;
    HistoryPrefix(config.key, bars, n);
    FreshSeed(config, head);
    FreshSeed(config, bars);
    var seeded := Do(config, Initial(config), Seed(head, NO_FAULTS)).0;
    LiveExtends(config, seeded, head, commands);
    OneHistoryOneState(config, Run(config, seeded, commands), Do(config, Initial(config), Seed(bars, NO_FAULTS)).0, bars);
  }
}
