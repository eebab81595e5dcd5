/** Where the lane's laws stop: the exact conditions of the run theorem and of recovery, and
    runs that fall outside them (internal/engine/lane.go:279-365, 413-476). */
module Limits {
  import opened Model
  import opened Sorting
  import opened Ema
  import opened Market
  import opened Store
  import opened Lane
  import opened Fold
  import opened Durable
  import opened Commit
  import opened Rebuild
  import opened Steps
  import opened Recovery
  import opened Runs
  import opened Conflicts
  import opened Seeds
  import opened Restarts
  import opened Repeats
  import opened Parity

  // ---- The point that is never written -----------------------------------

  /** With a one-sample average one candle has a point. */
  lemma {:induction false} OneCandleHasPoint(config: LaneConfig, bar: Bar)
    requires ValidConfig(config) && 1 in config.periods
    ensures PointMap(config, [bar]) != map[]
  {
    hide PointMap, PointAt, PointIdAt, ValidConfig;
    PointMapIsExact(config, [bar]);
    assert HasPoint(config, [bar], 0, 1);
    assert PointIdAt(config.key, [bar][0], 1) in PointMap(config, [bar]);
  }

  lemma {:induction false} SkippedClose(config: LaneConfig, lane: LaneState, store: StoreState, bar: Bar)
    requires ValidConfig(config) && InStep(config, lane, store, []) && SkipsFirstPoint(config, lane, store, bar)
    ensures var r := ClosedStep(config, lane, store, bar, false);
            && r.error.None? && r.effect == Extended([bar]) && r.store == store
            && LaneFolds(config, r.lane, [bar])
            && SeriesPoints(r.store.points, config.key) == map[]
  {
    Increments(config);
    EmptyStoreFolds(config, lane, store);
    hide ValidConfig, CloseBar, RestoreMarket, LogInv, Tracks, ReducersOf, ValidBar, Advanced, PointsFor,
         NewMarketEvent, Checkpoints, CommitEvents, PutSnapshots, SeriesPoints, History, StoreFolds;
    ReducedClosed(config, lane, store, [], bar, false);
    AdvancingFolds(config, lane, [], bar);
    hide ClosedStep, LaneFolds, InStep, Advancing;
    assert [] + [bar] == [bar];
  }

  lemma {:induction false} EmptyStoreFolds(config: LaneConfig, lane: LaneState, store: StoreState)
    requires InStep(config, lane, store, [])
    ensures SeriesPoints(store.points, config.key) == map[] && ValidCursor(config, store)
    ensures LaneFolds(config, lane, []) && lane.reducers == ReducersOf(config.periods, []) && lane.closedCount == 0
  {
    hide ReducersOf, Tracks, LogInv, SeriesPoints, CheckpointsFold, ValidBar;
  }

  /** A closed candle keeps lane and store in step exactly outside that one case. */
  lemma {:induction false} ClosedKeepsExactly(
    config: LaneConfig, lane: LaneState, store: StoreState, history: seq<Bar>, bar: Bar, fail: bool)
    requires ValidConfig(config) && InStep(config, lane, store, history)
    ensures var r := ClosedStep(config, lane, store, bar, fail);
            r.effect.Extended? &&
            (InStep(config, r.lane, r.store, history + r.effect.bars) <==> fail || !SkipsFirstPoint(config, lane, store, bar))
  {
    hide ClosedStep, LaneFolds, StoreFolds, LogInv, ValidConfig, ValidBar;
    if !SkipsFirstPoint(config, lane, store, bar) {
      ClosedExtends(config, lane, store, history, bar, fail);
    } else {
      StepLast(config, lane, store, history);
      assert history == [];
      if fail {
        FailedClose(config, lane, store, bar, fail);
        assert history + [] == history;
      } else {
        SkippedClose(config, lane, store, bar);
        OneCandleHasPoint(config, bar);
        NoPointsNoFold(config, store, bar);
        assert history + [bar] == [bar];
      }
    }
  }

  lemma {:induction false} NoPointsNoFold(config: LaneConfig, store: StoreState, bar: Bar)
    requires SeriesPoints(store.points, config.key) == map[] && PointMap(config, [bar]) != map[]
    ensures !StoreFolds(config, store, [bar])
  {
    hide SeriesPoints, PointMap, CheckpointsFold;
  }

  /** A closed candle keeps the run's invariant if and only if it is safe: nothing it may do is
      left out of the admissible runs without need. */
  lemma {:induction false} SafeToCloseExactly(config: LaneConfig, sys: System, history: seq<Bar>, bar: Bar, fail: bool)
    requires ValidConfig(config) && SystemInv(config, sys, history)
    ensures SystemInv(config, Do(config, sys, Closed(bar, fail)).0, NextHistory(history, Do(config, sys, Closed(bar, fail)).1))
            <==> SafeToClose(config, sys, history, bar, fail)
  {
    hide LaneFolds, StoreFolds, LogInv, History, ValidConfig, ClosedStep, SkipsFirstPoint, ValidBar, Refuses;
    LastBarTells(config, sys.lane, history);
    if SafeToClose(config, sys, history, bar, fail) {
      ClosedKeeps(config, sys, history, bar, fail);
    } else if sys.lane.lastBar.Some? || history == [] {
      ClosedKeepsExactly(config, sys.lane, sys.store, history, bar, fail);
      SkippedAdvances(config, sys, history, bar);
      assert history + [bar] == [bar];
    } else {
      ColdClose(config, sys.lane, sys.store, bar);
      WrongCount(config, ClosedStep(config, sys.lane, sys.store, bar, false).lane, history + [bar]);
    }
  }

  lemma {:induction false} WrongCount(config: LaneConfig, lane: LaneState, history: seq<Bar>)
    requires lane.closedCount == 1 && |history| >= 2
    ensures !LaneFolds(config, lane, history) && !LaneFolds(config, lane, [])
  {
    hide ReducersOf, Tracks;
  }

  /** In the skipped case the lane has moved on, so it does not fold the empty history either. */
  lemma {:induction false} SkippedAdvances(config: LaneConfig, sys: System, history: seq<Bar>, bar: Bar)
    requires ValidConfig(config) && InStep(config, sys.lane, sys.store, history) &&
             SkipsFirstPoint(config, sys.lane, sys.store, bar)
    ensures var r := ClosedStep(config, sys.lane, sys.store, bar, false);
            r.effect == Extended([bar]) && history == [] && LaneFolds(config, r.lane, [bar])
  {
    hide ClosedStep, LaneFolds, StoreFolds, LogInv, ValidConfig;
    StepHolds(config, sys.lane, sys.store, history);
    SkippedClose(config, sys.lane, sys.store, bar);
  }

  /** A lane that has not been seeded and is given a candle the store takes counts from one. */
  lemma {:induction false} ColdClose(config: LaneConfig, lane: LaneState, store: StoreState, bar: Bar)
    requires ValidConfig(config) && LaneFolds(config, lane, []) && bar.closed && ValidBar(config.key, bar)
    requires !Refuses(store, config.key, bar)
    ensures var r := ClosedStep(config, lane, store, bar, false);
            r.effect == Extended([bar]) && r.lane.closedCount == 1
  {
    Increments(config);
    ReducedClosed(config, lane, store, [], bar, false);
    hide ValidConfig, CloseBar, RestoreMarket, Tracks, ReducersOf, ValidBar, Advanced, PointsFor, NewMarketEvent,
         Checkpoints, CommitEvents, PutSnapshots, ClosedStep;
  }

  /** The case is reachable: seed one candle, restart, seed nothing. */
  lemma {:induction false} SkipIsReachable(config: LaneConfig, bar: Bar)
    requires ValidConfig(config) && 1 in config.periods && History(config.key, [bar])
    ensures var sys := Run(config, Initial(config), [Seed([bar], NO_FAULTS), Crash, Seed([], NO_FAULTS)]);
            sys.seeded && InStep(config, sys.lane, sys.store, []) && SkipsFirstPoint(config, sys.lane, sys.store, bar)
  {
    hide InStep, Do, ValidConfig, History;
    var one := Do(config, Initial(config), Seed([bar], NO_FAULTS)).0;
    FreshSeed(config, [bar]);
    StepHolds(config, one.lane, one.store, [bar]);
    EmptyRestart(config, one.store, [bar]);
    CrashRestarts(config, one);
    var seed, crash, empty := Seed([bar], NO_FAULTS), Crash, Seed([], NO_FAULTS);
    RunPush(config, Initial(config), [], seed);
    RunPush(config, Initial(config), [seed], crash);
    RunPush(config, Initial(config), [seed, crash], empty);
    assert [] + [seed] == [seed] && [seed] + [crash] == [seed, crash] && [seed, crash] + [empty] == [seed, crash, empty];
  }

  lemma {:induction false} RunPush(config: LaneConfig, sys: System, commands: seq<Command>, command: Command)
    requires ValidConfig(config)
    ensures Run(config, sys, []) == sys
    ensures Run(config, sys, commands + [command]) == Do(config, Run(config, sys, commands), command).0
  {
    hide Do;
    assert (commands + [command])[..|commands|] == commands;
  }

  lemma ValidTime(key: SeriesKey, bar: Bar)
    requires ValidBar(key, bar)
    ensures bar.time != 0
  {
  }

  lemma CrashRestarts(config: LaneConfig, sys: System)
    requires ValidConfig(config)
    ensures Do(config, sys, Crash).0 == System(NewLane(config), sys.store, false)
  {
  }

  /** An empty seed after a restart wipes the series but leaves its cursor. */
  lemma {:induction false} EmptyRestart(config: LaneConfig, store: StoreState, history: seq<Bar>)
    requires ValidConfig(config) && StoreFolds(config, store, history) && LogInv(store) && history != []
    ensures var sys := Do(config, System(NewLane(config), store, false), Seed([], NO_FAULTS)).0;
            && sys.seeded && sys.lane.lastBar.None? && sys.store.cursors == store.cursors
            && InStep(config, sys.lane, sys.store, [])
  {
    StoreHasValidCursor(config, store, history);
    CursorThere(config, store, history);
    hide RebuildStep, LaneFolds, StoreFolds, LogInv, ValidConfig, RestoreStep, SnapshotsOf, NewReducers, MarketOf, ValidCursor;
    var start := NewLane(config);
    assert Ordered([]) == [];
    assert BuildRun(config, []).Some? && Kept([]) == [];
    EmptyRebuildStep(config, start, store, [], true, false);
    RebuildReplaces(config, start, store, [], true, false);
    NothingRestores(config, store.cursors[config.key], SnapshotsOf(store.snapshots, config.key));
  }

  lemma {:induction false} NothingRestores(config: LaneConfig, cursor: Bar, snapshots: map<nat, Snapshot>)
    requires ValidConfig(config)
    ensures RestoreStep(config, cursor, snapshots, []).None?
  {
    hide RestoredReducers, SharedCheckpoint, RestoredMarket;
  }

  // ---- Recovery, both ways -----------------------------------------------

  lemma {:induction false} SuffixTail(a: seq<Bar>, more: seq<Bar>, tail: seq<Bar>)
    requires |more| == |tail| <= HISTORY_LIMIT && Suffix(a + more, HISTORY_LIMIT) == Suffix(a + tail, HISTORY_LIMIT)
    ensures more == tail
  {
    var s, t := Suffix(a + more, HISTORY_LIMIT), Suffix(a + tail, HISTORY_LIMIT);
    assert s[|s| - |more|..] == more;
    assert t[|t| - |tail|..] == tail;
  }

  /** What a lane can tell two histories apart by. */
  ghost predicate SameFold(config: LaneConfig, a: seq<Bar>, b: seq<Bar>) {
    && |a| == |b|
    && Suffix(a, HISTORY_LIMIT) == Suffix(b, HISTORY_LIMIT)
    && ReducersOf(config.periods, a) == ReducersOf(config.periods, b)
  }

  lemma {:induction false} FoldsSame(config: LaneConfig, lane: LaneState, a: seq<Bar>, b: seq<Bar>)
    requires LaneFolds(config, lane, a)
    ensures LaneFolds(config, lane, b) <==> SameFold(config, a, b)
  {
    hide ReducersOf, Evaluate;
    if SameFold(config, a, b) && a != [] {
      var s, t := Suffix(a, HISTORY_LIMIT), Suffix(b, HISTORY_LIMIT);
      assert s[|s| - 1] == a[|a| - 1] && t[|t| - 1] == b[|b| - 1];
    }
  }

  /** A restored lane folds the durable history if and only if it cannot tell the seed's candles
      after the checkpoint from the committed ones; and while those fit the window, if and only if
      they are the same candles, none missing and none doubled. */
  lemma {:induction false} RecoveryIsExact(config: LaneConfig, history: seq<Bar>, k: nat, bars: seq<Bar>)
    requires ValidConfig(config) && History(config.key, history) && 1 <= k <= |history| && SortedBy(BarTime, bars)
    requires RestoreStep(config, history[|history| - 1], CheckpointMap(config, history[..k]), bars).Some?
    ensures var lane := RestoreStep(config, history[|history| - 1], CheckpointMap(config, history[..k]), bars).value;
            var within := ClosedWithin(bars, history[k - 1].time, history[|history| - 1].time);
            && (LaneFolds(config, lane, history) <==> SameFold(config, history[..k] + within, history))
            && (|history| - k <= HISTORY_LIMIT ==> (LaneFolds(config, lane, history) <==> within == history[k..]))
  {
    hide RestoreStep, LaneFolds, ClosedWithin, CheckpointMap, SortedBy, History, ValidConfig, ReducersOf;
    var lane := RestoreStep(config, history[|history| - 1], CheckpointMap(config, history[..k]), bars).value;
    var within := ClosedWithin(bars, history[k - 1].time, history[|history| - 1].time);
    RestoreFolds(config, history, k, bars);
    assert history[..k] + history[k..] == history;
    FoldsSame(config, lane, history[..k] + within, history);
    if LaneFolds(config, lane, history) && |history| - k <= HISTORY_LIMIT {
      SuffixTail(history[..k], within, history[k..]);
    }
  }

  /** The prefix of a lane's candles and of the durable history is the same, so what differs
      after it shows, in number always and in content while it fits the window. */
  lemma {:induction false} TailsShow(
    config: LaneConfig, lane: LaneState, prefix: seq<Bar>, within: seq<Bar>, tail: seq<Bar>, more: seq<Bar>)
    requires LaneFolds(config, lane, prefix + within + more) && LaneFolds(config, lane, prefix + tail + more)
    ensures |within| == |tail|
    ensures |tail| + |more| <= HISTORY_LIMIT ==> within == tail
  {
    hide LaneFolds, ReducersOf, Suffix;
    FoldsSame(config, lane, prefix + within + more, prefix + tail + more);
    if |tail| + |more| <= HISTORY_LIMIT {
      assert prefix + within + more == prefix + (within + more) && prefix + tail + more == prefix + (tail + more);
      SuffixTail(prefix, within + more, tail + more);
      assert (within + more)[..|within|] == within && (tail + more)[..|tail|] == tail;
    }
  }

  /** The state a restored seed leaves. */
  lemma {:induction false} RestartOutcome(config: LaneConfig, sys: System, history: seq<Bar>, bars: seq<Bar>, faults: Faults)
    requires ValidConfig(config) && SystemInv(config, sys, history) && sys.lane.lastBar.None? && !faults.load
    requires Restores(config, sys.store, history, Ordered(bars))
    ensures var r := Do(config, sys, Seed(bars, faults));
            && r.1.Extended? && |r.1.bars| <= |NewCandles(Ordered(bars), history[|history| - 1].time)| && r.0.lane.lastBar.Some?
            && LaneFolds(config, r.0.lane, Rejoined(sys.store, config.key, history, Ordered(bars)) + r.1.bars)
  {
    hide RestoreStep, CatchUp, ValidConfig, SortedBy, StoreFolds, LogInv, LaneFolds, SnapshotsOf, NewCandles, History,
         FingerprintOf, Covers, Rejoined, Ordered, SeenAt, RebuildStep;
    var seed, cursor := Ordered(bars), history[|history| - 1];
    OrderedIsSorted(bars);
    RestoredFolds(config, sys.store, history, seed);
    var restored := RestoreStep(config, cursor, SnapshotsOf(sys.store.snapshots, config.key), seed).value;
    RestoredStands(config, cursor, SnapshotsOf(sys.store.snapshots, config.key), seed);
    var rejoined := Rejoined(sys.store, config.key, history, seed);
    FoldsLast(config, restored, rejoined);
    CatchUpAppliesNew(config, restored, sys.store, rejoined, seed, faults.commits, |seed|);
    assert seed[..|seed|] == seed;
    var r := CatchUp(config, restored, sys.store, seed, faults.commits, |seed|);
    FoldsLast(config, r.lane, rejoined + r.effect.bars);
  }

  /** A seed the lane cannot tell from the committed candles is as good as a faithful one. */
  lemma {:induction false} SameFoldKeeps(config: LaneConfig, sys: System, history: seq<Bar>, bars: seq<Bar>, faults: Faults)
    requires ValidConfig(config) && SystemInv(config, sys, history) && sys.lane.lastBar.None? && !faults.load
    requires Restores(config, sys.store, history, Ordered(bars))
    requires SameFold(config, Rejoined(sys.store, config.key, history, Ordered(bars)), history)
    ensures SystemInv(config, Do(config, sys, Seed(bars, faults)).0, NextHistory(history, Do(config, sys, Seed(bars, faults)).1))
  {
    hide RestoreStep, CatchUp, ValidConfig, SortedBy, StoreFolds, LogInv, LaneFolds, SnapshotsOf, History, Covers,
         Rejoined, Ordered, RebuildStep, SameFold;
    var seed := Ordered(bars);
    OrderedIsSorted(bars);
    RestoredFolds(config, sys.store, history, seed);
    var restored := RestoreStep(config, history[|history| - 1], SnapshotsOf(sys.store.snapshots, config.key), seed).value;
    FoldsSame(config, restored, Rejoined(sys.store, config.key, history, seed), history);
    CatchUpExtends(config, restored, sys.store, history, seed, faults.commits, |seed|);
  }

  /** What a kept invariant says of the seed's candles between checkpoint and cursor. */
  lemma {:induction false} KeptMeans(config: LaneConfig, sys: System, history: seq<Bar>, bars: seq<Bar>, faults: Faults)
    requires ValidConfig(config) && SystemInv(config, sys, history) && sys.lane.lastBar.None? && !faults.load
    requires Restores(config, sys.store, history, Ordered(bars))
    requires SystemInv(config, Do(config, sys, Seed(bars, faults)).0, NextHistory(history, Do(config, sys, Seed(bars, faults)).1))
    ensures var lo, hi := SnapshotsOf(sys.store.snapshots, config.key)[0].lastOpenTime, history[|history| - 1].time;
            var within, tail := ClosedWithin(Ordered(bars), lo, hi), ClosedWithin(history, lo, hi);
            var rejoined, beyond := Rejoined(sys.store, config.key, history, Ordered(bars)), NewCandles(Ordered(bars), hi);
            && |within| == |tail|
            && ReducersOf(config.periods, rejoined) == ReducersOf(config.periods, history)
            && (beyond == [] ==> SameFold(config, rejoined, history))
            && (|tail| + |beyond| <= HISTORY_LIMIT ==> within == tail)
  {
    hide Do, RestoreStep, CatchUp, ValidConfig, SortedBy, StoreFolds, LogInv, LaneFolds, SnapshotsOf, History, Covers,
         Ordered, RebuildStep, SameFold, CheckpointMap, ClosedWithin, NewCandles, ReducersOf;
    var seed := Ordered(bars);
    var r := Do(config, sys, Seed(bars, faults));
    OrderedIsSorted(bars);
    RestartOutcome(config, sys, history, bars, faults);
    LastBarTells(config, r.0.lane, []);
    var k := CheckpointIndex(config, sys.store, history, seed);
    var within, more := ClosedWithin(seed, history[k - 1].time, history[|history| - 1].time), r.1.bars;
    assert history[..k] + history[k..] == history;
    TailsShow(config, r.0.lane, history[..k], within, history[k..], more);
    var rejoined := history[..k] + within;
    FoldsSame(config, r.0.lane, rejoined + more, history + more);
    SameLastClose(config, sys.store, history, seed);
    SameReducers(config, rejoined + more, history + more);
    AveragesShow(config.periods, rejoined, history, more);
    assert more == [] ==> rejoined + more == rejoined && history + more == history;
  }

  lemma SameReducers(config: LaneConfig, a: seq<Bar>, b: seq<Bar>)
    requires SameFold(config, a, b)
    ensures ReducersOf(config.periods, a) == ReducersOf(config.periods, b)
  {
  }

  /** The rejoined candles end at the durable cursor's close. */
  lemma {:induction false} SameLastClose(config: LaneConfig, store: StoreState, history: seq<Bar>, bars: seq<Bar>)
    requires ValidConfig(config) && History(config.key, history) && StoreFolds(config, store, history)
    requires SortedBy(BarTime, bars) && Restores(config, store, history, bars)
    ensures var rejoined := Rejoined(store, config.key, history, bars);
            rejoined != [] && rejoined[|rejoined| - 1].close == history[|history| - 1].close
  {
    hide RestoreStep, ValidConfig, SortedBy, StoreFolds, LaneFolds, SnapshotsOf, History, Covers, Rejoined, SeenAt;
    RestoredFolds(config, store, history, bars);
    var restored := RestoreStep(config, history[|history| - 1], SnapshotsOf(store.snapshots, config.key), bars).value;
    RestoredStands(config, history[|history| - 1], SnapshotsOf(store.snapshots, config.key), bars);
    FoldsLast(config, restored, Rejoined(store, config.key, history, bars));
  }

  /** Averages that differ at the cursor still differ after the same further candles. */
  lemma {:induction false} AveragesShow(periods: seq<Period>, a: seq<Bar>, b: seq<Bar>, more: seq<Bar>)
    requires |a| == |b| > 0 && a[|a| - 1].close == b[|b| - 1].close
    requires ReducersOf(periods, a + more) == ReducersOf(periods, b + more)
    ensures ReducersOf(periods, a) == ReducersOf(periods, b)
  {
    hide EmaOf, Closes;
    var left, right := ReducersOf(periods, a + more), ReducersOf(periods, b + more);
    forall p | p in periods ensures EmaOf(p, Closes(a)) == EmaOf(p, Closes(b)) {
      assert left[p] == right[p];
      AverageShows(p, a, b, more);
    }
  }

  lemma {:induction false} AverageShows(p: Period, a: seq<Bar>, b: seq<Bar>, more: seq<Bar>)
    requires |a| == |b| > 0 && a[|a| - 1].close == b[|b| - 1].close
    requires EmaOf(p, Closes(a + more)) == EmaOf(p, Closes(b + more))
    ensures EmaOf(p, Closes(a)) == EmaOf(p, Closes(b))
  {
    hide EmaOf;
    if more == [] {
      assert a + more == a && b + more == b;
    } else {
      var rest, bar := more[..|more| - 1], more[|more| - 1];
      assert a + rest + [bar] == a + more && b + rest + [bar] == b + more;
      EmaAppend(p, a + rest, bar);
      EmaAppend(p, b + rest, bar);
      EmaForgetsNothing(p, Closes(a + rest), Closes(b + rest), bar.close);
      AverageShows(p, a, b, rest);
    }
  }

  /** A restart seed keeps the run's invariant if it is not restored from. If it is, it must leave
      the lane as the committed candles would: they are equally many and give the same averages,
      and that is enough if they also fill the same window. While the candles from the checkpoint
      on fit the window, new ones included, it must repeat the committed ones, and if it brings
      nothing new it must leave the very same lane. */
  lemma {:induction false} FaithfulExactly(config: LaneConfig, sys: System, history: seq<Bar>, bars: seq<Bar>, faults: Faults)
    requires ValidConfig(config) && SystemInv(config, sys, history) && sys.lane.lastBar.None? && !faults.load
    ensures var r := Do(config, sys, Seed(bars, faults));
            var seed, kept := Ordered(bars), SystemInv(config, r.0, NextHistory(history, r.1));
            && (!Restores(config, sys.store, history, seed) ==> kept)
            && (Restores(config, sys.store, history, seed) ==>
                  var lo, hi := SnapshotsOf(sys.store.snapshots, config.key)[0].lastOpenTime, history[|history| - 1].time;
                  var tail, beyond := ClosedWithin(history, lo, hi), NewCandles(seed, hi);
                  var rejoined := Rejoined(sys.store, config.key, history, seed);
                  && (kept ==> |ClosedWithin(seed, lo, hi)| == |tail|)
                  && (kept ==> ReducersOf(config.periods, rejoined) == ReducersOf(config.periods, history))
                  && (SameFold(config, rejoined, history) ==> kept)
                  && (beyond == [] ==> (kept <==> SameFold(config, rejoined, history)))
                  && (|tail| + |beyond| <= HISTORY_LIMIT ==> (kept <==> Faithful(config, sys.store, history, seed))))
  {
    hide Do, SystemInv, ValidConfig, Ordered, SnapshotsOf, ClosedWithin, SameFold, Covers, NewCandles, Rejoined,
         ReducersOf, NextHistory;
    var seed := Ordered(bars);
    if Faithful(config, sys.store, history, seed) {
      SeedKeeps(config, sys, history, bars, faults);
    }
    if Restores(config, sys.store, history, seed) {
      var r := Do(config, sys, Seed(bars, faults));
      if SameFold(config, Rejoined(sys.store, config.key, history, seed), history) {
        SameFoldKeeps(config, sys, history, bars, faults);
      }
      if SystemInv(config, r.0, NextHistory(history, r.1)) {
        KeptMeans(config, sys, history, bars, faults);
      }
    }
  }

  // ---- A candle counted twice --------------------------------------------

  lemma {:induction false} CommitSparesSnapshots(s: StoreState, events: seq<Event>)
    ensures CommitEvents(s, events).0.snapshots == s.snapshots
  {
    hide EventById;
    if events != [] {
      CommitSparesSnapshots(s, events[..|events| - 1]);
    }
  }

  /** Between checkpoints a close leaves the stored ones alone. */
  lemma {:induction false} CloseKeepsCheckpoint(config: LaneConfig, lane: LaneState, store: StoreState, bar: Bar)
    requires ValidConfig(config) && (lane.closedCount + 1) % config.snapshotEvery != 0
    ensures ClosedStep(config, lane, store, bar, false).store.snapshots == store.snapshots
  {
    forall events { CommitSparesSnapshots(store, events); }
    hide CloneReducers, RestoreMarket, ValidBar, CloseBar, Advanced, PointsFor, NewMarketEvent, Checkpoints,
         FingerprintOf, CommitEvents;
  }

  lemma {:induction false} CountOf(config: LaneConfig, lane: LaneState, history: seq<Bar>)
    requires LaneFolds(config, lane, history)
    ensures lane.closedCount == |history|
  {
    hide ReducersOf, Tracks;
  }

  lemma {:induction false} TwiceWithin(a: Bar, b: Bar)
    requires a.closed && b.closed && a.time < b.time
    ensures ClosedWithin([a, b, b], a.time, b.time) == [b, b]
  {
    assert [a, b, b] == [a] + [b, b];
    FilterConcat(Between(a.time, b.time), [a], [b, b]);
    FilterNone(Between(a.time, b.time), [a]);
    FilterAll(Between(a.time, b.time), [b, b]);
  }

  /** The restore loop counts a repeated seed candle twice: seed `a`, close `b`, restart with `b`
      twice in the seed. The seed succeeds, and lane and store have parted. */
  lemma {:induction false} RestartDoubleCounts(config: LaneConfig, a: Bar, b: Bar)
    requires ValidConfig(config) && 2 % config.snapshotEvery != 0
    requires History(config.key, [a, b]) && b.time == a.time + config.step
    ensures var one := Do(config, Initial(config), Seed([a], NO_FAULTS)).0;
            var two := Do(config, one, Closed(b, false)).0;
            var sys := Do(config, Do(config, two, Crash).0, Seed([a, b, b], NO_FAULTS)).0;
            && sys.seeded && StoreFolds(config, sys.store, [a, b])
            && LaneFolds(config, sys.lane, [a, b, b]) && !LaneFolds(config, sys.lane, [a, b])
  {
    hide InStep, ValidConfig, LaneFolds, StoreFolds, SeedStep, ClosedStep, CheckpointMap, SnapshotsOf, NewLane;
    assert [a, b][..1] == [a] && [a] + [b] == [a, b];
    HistoryPrefix(config.key, [a, b], 1);
    FreshSeed(config, [a]);
    FreshCheckpoint(config, [a]);
    var one := Do(config, Initial(config), Seed([a], NO_FAULTS)).0;
    StepHolds(config, one.lane, one.store, [a]);
    CountOf(config, one.lane, [a]);
    assert [a, b][0] == a && [a, b][1] == b;
    NextCloses(config, one.lane, one.store, [a], b);
    NotSkipped(config, one.lane, one.store, [a], b);
    ClosedExtends(config, one.lane, one.store, [a], b, false);
    CloseKeepsCheckpoint(config, one.lane, one.store, b);
    var two := Do(config, one, Closed(b, false)).0;
    StepHolds(config, two.lane, two.store, [a, b]);
    RestoresTwice(config, two.store, a, b);
    CrashRestarts(config, two);
    var sys := Do(config, Do(config, two, Crash).0, Seed([a, b, b], NO_FAULTS)).0;
    assert sys == System(SeedStep(config, NewLane(config), two.store, [a, b, b], NO_FAULTS).lane, two.store, true);
    CountOf(config, sys.lane, [a, b, b]);
    if LaneFolds(config, sys.lane, [a, b]) {
      CountOf(config, sys.lane, [a, b]);
    }
  }

  lemma {:induction false} RestoresTwice(config: LaneConfig, store: StoreState, a: Bar, b: Bar)
    requires ValidConfig(config) && History(config.key, [a, b]) && StoreFolds(config, store, [a, b])
    requires SnapshotsOf(store.snapshots, config.key) == CheckpointMap(config, [a])
    ensures var r := SeedStep(config, NewLane(config), store, [a, b, b], NO_FAULTS);
            r.error.None? && r.store == store && LaneFolds(config, r.lane, [a, b, b])
  {
    hide RestoreStep, CheckpointMap, SnapshotsOf, LaneFolds, CatchUp, Ordered, StoreFolds, ValidBar, FingerprintOf,
         ValidConfig, ClosedWithin;
    var was, now := [a, b], [a, b, b];
    assert was[0].time < was[1].time && was[0].closed && was[1].closed;
    SortedTwice(a, b);
    CursorThere(config, store, was);
    assert was[..1] == [a] && [a] + [b, b] == now;
    TwiceCovers(config, was, now);
    RestoreSucceedsExactly(config, was, 1, now);
    TwiceWithin(a, b);
    RestoreFolds(config, was, 1, now);
    var restored := RestoreStep(config, b, CheckpointMap(config, [a]), now).value;
    FoldsLast(config, restored, now);
    NothingToCatchUp(config, restored, store, now, {}, 3);
  }

  lemma {:induction false} SortedTwice(a: Bar, b: Bar)
    requires a.time < b.time
    ensures SortedBy(BarTime, [a, b, b]) && Ordered([a, b, b]) == [a, b, b]
  {
    hide StableSort, Insert;
    StableSortIdentity(BarTime, [a, b, b]);
  }

  lemma {:induction false} TwiceCovers(config: LaneConfig, was: seq<Bar>, now: seq<Bar>)
    requires |was| == 2 && now == was + [was[1]] && History(config.key, was)
    ensures Covers(config, was[0].time, was[1], now)
  {
    hide ValidBar, FingerprintOf;
    assert now[0] == was[0] && now[1] == was[1] && now[2] == was[1];
  }

  // ---- A correction behind the checkpoint --------------------------------

  /** A corrected candle older than the checkpoint goes unnoticed by a restart: the seed
      succeeds and the lane keeps the old candle. Only the next seed rebuilds. */
  lemma {:induction false} RestartMissesCorrection(config: LaneConfig, first: Bar, last: Bar, corrected: Bar)
    requires ValidConfig(config) && History(config.key, [first, last]) && History(config.key, [corrected, last])
    requires corrected.time == first.time && FingerprintOf(corrected) != FingerprintOf(first)
    ensures var seeded := Do(config, Initial(config), Seed([first, last], NO_FAULTS)).0;
            var restarted := Do(config, seeded, Crash).0;
            var once := Do(config, restarted, Seed([corrected, last], NO_FAULTS));
            var twice := Do(config, once.0, Seed([corrected, last], NO_FAULTS));
            && once.0.seeded && once.1 == Extended([]) && LaneFolds(config, once.0.lane, [first, last])
            && twice.1 == Replaced([corrected, last])
  {
    hide InStep, Do, ValidConfig, History, FingerprintOf, LaneFolds;
    var was, now := [first, last], [corrected, last];
    var seeded := Do(config, Initial(config), Seed(was, NO_FAULTS)).0;
    FreshSeed(config, was);
    CrashRestarts(config, seeded);
    StepHolds(config, seeded.lane, seeded.store, was);
    FreshCheckpoint(config, was);
    RestartKeepsOld(config, seeded.store, first, last, corrected);
    var once := Do(config, System(NewLane(config), seeded.store, false), Seed(now, NO_FAULTS)).0;
    SecondRebuilds(config, once, first, last, corrected);
  }

  /** A fresh seed checkpoints its last candle. */
  lemma {:induction false} FreshCheckpoint(config: LaneConfig, bars: seq<Bar>)
    requires ValidConfig(config) && History(config.key, bars) && bars != []
    ensures SnapshotsOf(Do(config, Initial(config), Seed(bars, NO_FAULTS)).0.store.snapshots, config.key) ==
            CheckpointMap(config, bars)
  {
    hide CheckpointMap, Checkpoints, PutSnapshots, SnapshotsOf, Ordered, MarketOf, ReducersOf, RebuildEvents, AllPoints,
         BuildRun, Kept, ValidConfig, History, Tracks, RebuildEventsOf, LogInv;
    OrderedHistory(config.key, bars);
    HistoryBuilds(config, bars);
    BuildIsFold(config, bars);
    MarketOfTracks(bars);
    var b := BuildRun(config, bars).value;
    EmptySnapshots(config.key);
    CheckpointsStored(config, map[], bars, b.market);
    var events := RebuildEventsOf(config, b, bars, false);
    RebuildSparesSnapshots(Wipe(EMPTY_STORE, config.key), events);
    assert Wipe(EMPTY_STORE, config.key).snapshots == map[];
  }

  lemma EmptySnapshots(key: SeriesKey)
    ensures SnapshotsOf(map[], key) == map[]
  {
  }

  lemma {:induction false} RebuildSparesSnapshots(s: StoreState, events: seq<Event>)
    ensures RebuildEvents(s, events).snapshots == s.snapshots
  {
    if events != [] {
      RebuildSparesSnapshots(s, events[..|events| - 1]);
    }
  }

  lemma {:induction false} RestartKeepsOld(config: LaneConfig, store: StoreState, first: Bar, last: Bar, corrected: Bar)
    requires ValidConfig(config) && History(config.key, [first, last]) && History(config.key, [corrected, last])
    requires StoreFolds(config, store, [first, last])
    requires SnapshotsOf(store.snapshots, config.key) == CheckpointMap(config, [first, last])
    ensures var once := Do(config, System(NewLane(config), store, false), Seed([corrected, last], NO_FAULTS));
            once.0.seeded && once.0.store == store && once.1 == Extended([]) && LaneFolds(config, once.0.lane, [first, last])
  {
    hide RestoreStep, CheckpointMap, SnapshotsOf, LaneFolds, CatchUp, Ordered, StoreFolds, ValidBar, FingerprintOf,
         ValidConfig, SortedBy;
    var was, now := [first, last], [corrected, last];
    OrderedHistory(config.key, now);
    CursorThere(config, store, was);
    assert was[..2] == was;
    assert now[0].closed && now[1].closed;
    NowCovers(config, was, now);
    RestoreSucceedsExactly(config, was, 2, now);
    assert was[0].time < was[1].time && now[0].time < now[1].time;
    NothingWithin(now, last.time);
    RecoveryRestoresHistory(config, was, 2, now);
    var restored := RestoreStep(config, last, CheckpointMap(config, was), now).value;
    FoldsLast(config, restored, was);
    NothingToCatchUp(config, restored, store, now, {}, 2);
  }

  lemma {:induction false} NowCovers(config: LaneConfig, was: seq<Bar>, now: seq<Bar>)
    requires |was| == |now| == 2 && History(config.key, was) && History(config.key, now) && was[1] == now[1]
    ensures Covers(config, was[1].time, was[1], now)
  {
    hide ValidBar, FingerprintOf;
    assert now[0].time < now[1].time;
    assert now[1].closed && now[1].time == was[1].time;
  }

  lemma {:induction false} NothingWithin(bars: seq<Bar>, time: nat)
    ensures ClosedWithin(bars, time, time) == []
  {
    FilterNone(Between(time, time), bars);
  }

  lemma {:induction false} SecondRebuilds(config: LaneConfig, sys: System, first: Bar, last: Bar, corrected: Bar)
    requires ValidConfig(config) && History(config.key, [first, last]) && History(config.key, [corrected, last])
    requires corrected.time == first.time && FingerprintOf(corrected) != FingerprintOf(first)
    requires LaneFolds(config, sys.lane, [first, last]) && StoreFolds(config, sys.store, [first, last])
    ensures Do(config, sys, Seed([corrected, last], NO_FAULTS)).1 == Replaced([corrected, last])
  {
    hide LaneFolds, StoreFolds, RebuildStep, SeedConflicts, Ordered, ValidBar, FingerprintOf, ValidConfig, SeedMap,
         FirstSeedTime, FingerprintMap;
    var was, now := [first, last], [corrected, last];
    OrderedHistory(config.key, now);
    FoldsLast(config, sys.lane, was);
    CursorThere(config, sys.store, was);
    Differs(config, sys.lane, first, last, corrected);
    HistorySorted(config.key, was);
    ConflictByHistory(config, sys.lane, was, now);
    RebuildSucceeds(config, sys.lane, sys.store, now, true);
  }

  lemma {:induction false} Differs(config: LaneConfig, lane: LaneState, first: Bar, last: Bar, corrected: Bar)
    requires History(config.key, [first, last]) && History(config.key, [corrected, last])
    requires corrected.time == first.time && FingerprintOf(corrected) != FingerprintOf(first)
    requires lane.lastBar == Some(last)
    ensures FirstSeedTime(lane, [corrected, last]) != 0
    ensures !Agree(SeedMap(lane, [corrected, last]), FingerprintMap([first, last]), WindowStart([first, last]),
            FirstSeedTime(lane, [corrected, last]))
  {
    hide ValidBar, FingerprintOf, FingerprintMap, SeedFirst, Filter;
    var was, now := [first, last], [corrected, last];
    assert was[0].time < was[1].time && now[0].time < now[1].time;
    assert ValidBar(config.key, now[0]);
    ValidTime(config.key, now[0]);
    FilterAll(Overlapping(last.time), now);
    FingerprintValue(was, 0);
    FingerprintValue(now, 0);
    assert SortedBy(BarTime, now);
    SeedFirstIsLeast(now);
  }
}
