/** What a restart seed leads to, whatever it holds: the candles a restored and caught-up lane
    folds (internal/engine/lane.go:212-227, 413-497). */
module Restarts {
  import opened Model
  import opened Sorting
  import opened Market
  import opened Store
  import opened Lane
  import opened Fold
  import opened Rebuild
  import opened Steps
  import opened Recovery
  import opened Runs
  import opened Conflicts

  // ---- A lane on its own, whatever the store holds -----------------------

  lemma {:induction false} CommitStepFolds(
    config: LaneConfig, lane: LaneState, store: StoreState, all: seq<Bar>, bar: Bar, fail: bool, market: MarketReducer)
    requires ValidConfig(config) && LaneFolds(config, lane, all) && CloseBar(market, bar) == CloseBar(lane.market, bar)
    ensures var r := CommitStep(config, lane, store, bar, fail, lane.reducers, market);
            && (r.error.Some? ==> r.lane == lane && r.effect == Extended([]))
            && (r.error.None? ==> r.effect == Extended([bar]) && LaneFolds(config, r.lane, all + [bar]))
  {
    LaneParts(config, lane, all);
    hide LaneFolds, CloseBar, Advanced, PointsFor, NewMarketEvent, Checkpoints, CommitClosed, ReducersOf;
    AdvancingFolds(config, lane, all, bar);
  }

  lemma {:induction false} LaneParts(config: LaneConfig, lane: LaneState, all: seq<Bar>)
    requires LaneFolds(config, lane, all)
    ensures lane.reducers == ReducersOf(config.periods, all) && lane.closedCount == |all| && lane.lastBar == LastOf(all)
  {
    hide Tracks, ReducersOf;
  }

  /** A closed candle that is not the next one is an error unless it is the last one again. */
  lemma {:induction false} OnlyNextSucceeds(config: LaneConfig, lane: LaneState, store: StoreState, bar: Bar, fail: bool)
    requires ValidConfig(config) && lane.lastBar.Some? && bar.time > lane.lastBar.value.time
    requires ClosedStep(config, lane, store, bar, fail).error.None?
    ensures bar.closed && ValidBar(config.key, bar) && bar.time == lane.lastBar.value.time + config.step
  {
    hide CommitStep, CloneReducers, RestoreMarket, ValidBar, FingerprintOf;
  }

  /** A closed candle extends what a lane folds, whether or not the store agrees with it. */
  lemma {:induction false} ClosedFolds(
    config: LaneConfig, lane: LaneState, store: StoreState, all: seq<Bar>, bar: Bar, fail: bool)
    requires ValidConfig(config) && LaneFolds(config, lane, all) && all != [] && bar.time > all[|all| - 1].time
    ensures var r := ClosedStep(config, lane, store, bar, fail);
            && r.effect.Extended?
            && (r.error.Some? ==> r.lane == lane && r.effect.bars == [])
            && (r.error.None? ==> bar.closed && r.effect.bars == [bar] && LaneFolds(config, r.lane, all + [bar]))
  {
    hide ClosedStep, CommitStep, LaneFolds, CloseBar, RestoreMarket, ValidBar, ValidConfig;
    LaneParts(config, lane, all);
    if bar.closed && ValidBar(config.key, bar) && bar.time == all[|all| - 1].time + config.step {
      ReducedClosed(config, lane, store, all, bar, fail);
      CommitStepFolds(config, lane, store, all, bar, fail, RestoreMarket(TakeMarketSnapshot(lane.market)).value);
    } else {
      NotNext(config, lane, store, bar, fail);
      if ClosedStep(config, lane, store, bar, fail).error.None? {
        OnlyNextSucceeds(config, lane, store, bar, fail);
      }
    }
  }

  // ---- What a catch-up applies -------------------------------------------

  predicate IsClosedAfter(bar: Bar, time: nat) { bar.closed && bar.time > time }

  function ClosedAfter(time: nat): Bar -> bool { bar => IsClosedAfter(bar, time) }

  /** The candles a seed has beyond a time, repeats dropped. */
  function NewCandles(bars: seq<Bar>, time: nat): seq<Bar> { Kept(Filter(ClosedAfter(time), bars)) }

  lemma NoNewCandles(time: nat)
    ensures NewCandles([], time) == []
  {
  }

  lemma {:induction false} NewCandlesPush(bars: seq<Bar>, bar: Bar, time: nat)
    ensures NewCandles(bars + [bar], time) ==
            if IsClosedAfter(bar, time) then KeepNext(NewCandles(bars, time), bar) else NewCandles(bars, time)
  {
    hide Kept;
    FilterPush(ClosedAfter(time), bars, bar);
    KeptPush(Filter(ClosedAfter(time), bars), bar);
    assert Filter(ClosedAfter(time), bars) + [] == Filter(ClosedAfter(time), bars);
  }

  /** New candles are beyond the time and strictly increase. */
  lemma {:induction false} NewCandlesInOrder(bars: seq<Bar>, time: nat)
    ensures StrictlyIncreasing(NewCandles(bars, time))
    ensures forall i :: 0 <= i < |NewCandles(bars, time)| ==> NewCandles(bars, time)[i].time > time
  {
    hide NewCandles, KeepNext;
    if bars == [] {
      NoNewCandles(time);
    } else {
      var rest, bar := bars[..|bars| - 1], bars[|bars| - 1];
      NewCandlesInOrder(rest, time);
      NewCandlesPush(rest, bar, time);
      assert rest + [bar] == bars;
      if IsClosedAfter(bar, time) {
        KeepNextInOrder(NewCandles(rest, time), bar, time);
      }
    }
  }

  lemma {:induction false} KeepNextInOrder(kept: seq<Bar>, bar: Bar, time: nat)
    requires StrictlyIncreasing(kept) && bar.time > time && forall i :: 0 <= i < |kept| ==> kept[i].time > time
    ensures StrictlyIncreasing(KeepNext(kept, bar))
    ensures forall i :: 0 <= i < |KeepNext(kept, bar)| ==> KeepNext(kept, bar)[i].time > time
  {
    if kept != [] && bar.time > kept[|kept| - 1].time {
      assert forall i :: 0 <= i < |kept| ==> kept[i].time <= kept[|kept| - 1].time;
    }
  }

  lemma {:induction false} NextOfBoth(all: seq<Bar>, more: seq<Bar>, bar: Bar)
    requires all != [] && forall i :: 0 <= i < |more| ==> more[i].time > all[|all| - 1].time
    ensures KeepNext(all + more, bar) ==
            all + if IsClosedAfter(bar, all[|all| - 1].time) then KeepNext(more, bar) else more
  {
    if more == [] {
      assert all + more == all;
    } else {
      assert (all + more)[|all + more| - 1] == more[|more| - 1];
      assert all + more + [bar] == all + (more + [bar]);
    }
  }

  lemma {:induction false} CatchUpBarFolds(
    config: LaneConfig, lane: LaneState, store: StoreState, all: seq<Bar>, bar: Bar, fail: bool)
    requires ValidConfig(config) && LaneFolds(config, lane, all) && all != []
    ensures var r := CatchUpBar(config, lane, store, bar, fail);
            && r.effect.Extended?
            && LaneFolds(config, r.lane, all + r.effect.bars)
            && (r.error.None? ==> all + r.effect.bars == KeepNext(all, bar))
            && (r.error.Some? ==> r.effect.bars == [])
  {
    hide ClosedStep, LaneFolds, ValidConfig, FingerprintOf;
    LaneParts(config, lane, all);
    assert all + [] == all;
    if bar.closed && bar.time > all[|all| - 1].time {
      ClosedFolds(config, lane, store, all, bar, fail);
    }
  }

  /** A catch-up extends what a lane folds by what it applies, which on success is exactly the
      seed's candles beyond the last one; an error only cuts it short. */
  lemma {:induction false} CatchUpAppliesNew(
    config: LaneConfig, lane: LaneState, store: StoreState, all: seq<Bar>, bars: seq<Bar>, failing: set<nat>, n: nat)
    requires ValidConfig(config) && LaneFolds(config, lane, all) && all != [] && n <= |bars|
    ensures var r := CatchUp(config, lane, store, bars, failing, n);
            var beyond := NewCandles(bars[..n], all[|all| - 1].time);
            && LaneFolds(config, r.lane, all + r.effect.bars)
            && (r.error.None? ==> r.effect.bars == beyond)
            && |r.effect.bars| <= |beyond|
  {
    hide LaneFolds, CatchUpBar, ValidConfig, NewCandles;
    var hi := all[|all| - 1].time;
    if n == 0 {
      NoNewCandles(hi);
      assert bars[..0] == [] && all + [] == all;
    } else {
      CatchUpAppliesNew(config, lane, store, all, bars, failing, n - 1);
      var before, bar := CatchUp(config, lane, store, bars, failing, n - 1), bars[n - 1];
      assert bars[..n - 1] + [bar] == bars[..n];
      NewCandlesPush(bars[..n - 1], bar, hi);
      if before.error.None? {
        var more := before.effect.bars;
        CatchUpBarFolds(config, before.lane, before.store, all + more, bar, n - 1 in failing);
        NewCandlesInOrder(bars[..n - 1], hi);
        NextOfBoth(all, more, bar);
        SameTail(all, more, CatchUpBar(config, before.lane, before.store, bar, n - 1 in failing).effect.bars);
      }
    }
  }

  lemma {:induction false} SameTail(all: seq<Bar>, more: seq<Bar>, one: seq<Bar>)
    ensures all + more + one == all + (more + one)
    ensures forall tail :: all + more + one == all + tail ==> more + one == tail
  {
    forall tail | all + more + one == all + tail ensures more + one == tail {
      assert (all + more + one)[|all|..] == more + one;
      assert (all + tail)[|all|..] == tail;
    }
  }

  // ---- What a restored lane folds ----------------------------------------

  lemma {:induction false} CheckpointIndex(
    config: LaneConfig, store: StoreState, history: seq<Bar>, bars: seq<Bar>) returns (k: nat)
    requires History(config.key, history) && StoreFolds(config, store, history) && Restores(config, store, history, bars)
    ensures 1 <= k <= |history| && SnapshotsOf(store.snapshots, config.key) == CheckpointMap(config, history[..k])
    ensures 0 in SnapshotsOf(store.snapshots, config.key)
    ensures SnapshotsOf(store.snapshots, config.key)[0].lastOpenTime == history[k - 1].time
    ensures ClosedWithin(history, 0, history[k - 1].time) == history[..k]
    ensures ClosedWithin(history, history[k - 1].time, history[|history| - 1].time) == history[k..]
  {
    hide Covers, SeriesPoints, PointMap, SnapshotsOf, History, CheckpointMap, ClosedWithin;
    k :| 1 <= k <= |history| && SnapshotsOf(store.snapshots, config.key) == CheckpointMap(config, history[..k]);
    CheckpointTime(config, history, k);
    BeforeCheckpoint(config.key, history, k);
    WithinHistory(config.key, history, k);
  }

  lemma {:induction false} BeforeCheckpoint(key: SeriesKey, history: seq<Bar>, k: nat)
    requires History(key, history) && 1 <= k <= |history|
    ensures ClosedWithin(history, 0, history[k - 1].time) == history[..k]
  {
    hide Filter;
    var lo := history[k - 1].time;
    assert history == history[..k] + history[k..];
    FilterConcat(Between(0, lo), history[..k], history[k..]);
    FilterAll(Between(0, lo), history[..k]);
    FilterNone(Between(0, lo), history[k..]);
    assert history[..k] + [] == history[..k];
  }

  /** The committed candles up to the checkpoint, then the seed's through the cursor. */
  function Rejoined(store: StoreState, key: SeriesKey, history: seq<Bar>, bars: seq<Bar>): seq<Bar>
    requires history != [] && 0 in SnapshotsOf(store.snapshots, key)
  {
    var lo := SnapshotsOf(store.snapshots, key)[0].lastOpenTime;
    ClosedWithin(history, 0, lo) + ClosedWithin(bars, lo, history[|history| - 1].time)
  }

  /** A restored lane folds the rejoined candles, the last of which is the durable cursor. */
  lemma {:induction false} RestoredFolds(config: LaneConfig, store: StoreState, history: seq<Bar>, bars: seq<Bar>)
    requires ValidConfig(config) && History(config.key, history) && StoreFolds(config, store, history)
    requires SortedBy(BarTime, bars) && Restores(config, store, history, bars)
    ensures config.key in store.cursors && store.cursors[config.key] == history[|history| - 1]
    ensures var restored := RestoreStep(config, history[|history| - 1], SnapshotsOf(store.snapshots, config.key), bars);
            restored.Some? && LaneFolds(config, restored.value, Rejoined(store, config.key, history, bars))
  {
    hide RestoreStep, StoreFolds, History, ValidConfig, SnapshotsOf, SortedBy, LaneFolds, CheckpointMap, ClosedWithin, Covers;
    CursorThere(config, store, history);
    RestoresExactly(config, store, history, bars);
    var k := CheckpointIndex(config, store, history, bars);
    RestoreFolds(config, history, k, bars);
  }

  lemma {:induction false} SortedConcat(a: seq<Bar>, b: seq<Bar>, time: nat)
    requires InOrder(a) && InOrder(b)
    requires forall i :: 0 <= i < |a| ==> a[i].time <= time
    requires forall i :: 0 <= i < |b| ==> b[i].time > time
    ensures InOrder(a + b)
  {
    var all := a + b;
    forall i, j | 0 <= i < j < |all| ensures BarTime(all[i]) <= BarTime(all[j]) {
      if j < |a| {
        assert BarTime(a[i]) <= BarTime(a[j]);
      } else if i >= |a| {
        assert BarTime(b[i - |a|]) <= BarTime(b[j - |a|]);
      }
    }
  }

  lemma {:induction false} WithinInOrder(bars: seq<Bar>, lo: nat, hi: nat)
    requires SortedBy(BarTime, bars)
    ensures InOrder(ClosedWithin(bars, lo, hi))
    ensures forall i :: 0 <= i < |ClosedWithin(bars, lo, hi)| ==> lo < ClosedWithin(bars, lo, hi)[i].time <= hi
  {
    hide Filter;
    var within := ClosedWithin(bars, lo, hi);
    FilterSorted(BarTime, Between(lo, hi), bars);
    forall i | 0 <= i < |within| ensures lo < within[i].time <= hi {
      FilterMember(Between(lo, hi), bars, within[i]);
    }
  }

  /** The rejoined candles with what the seed adds beyond the cursor. */
  function WithSeed(store: StoreState, key: SeriesKey, history: seq<Bar>, bars: seq<Bar>): seq<Bar>
    requires history != [] && 0 in SnapshotsOf(store.snapshots, key)
  {
    Rejoined(store, key, history, bars) + NewCandles(bars, history[|history| - 1].time)
  }

  lemma {:induction false} WithSeedInOrder(config: LaneConfig, store: StoreState, history: seq<Bar>, bars: seq<Bar>)
    requires History(config.key, history) && StoreFolds(config, store, history)
    requires SortedBy(BarTime, bars) && Restores(config, store, history, bars)
    ensures InOrder(WithSeed(store, config.key, history, bars))
  {
    hide StoreFolds, ClosedWithin, Covers, CheckpointMap, SortedBy, NewCandles, InOrder, History, SnapshotsOf;
    var k := CheckpointIndex(config, store, history, bars);
    var lo, hi := history[k - 1].time, history[|history| - 1].time;
    assert lo <= hi by { LastIsLatest(config.key, history, k - 1); }
    HistorySorted(config.key, history);
    WithinInOrder(history, 0, lo);
    WithinInOrder(bars, lo, hi);
    SortedConcat(ClosedWithin(history, 0, lo), ClosedWithin(bars, lo, hi), lo);
    var rejoined := Rejoined(store, config.key, history, bars);
    assert forall i :: 0 <= i < |rejoined| ==> rejoined[i].time <= hi;
    NewCandlesInOrder(bars, hi);
    IncreasingInOrder(NewCandles(bars, hi), hi);
    SortedConcat(rejoined, NewCandles(bars, hi), hi);
  }

  lemma LastIsLatest(key: SeriesKey, history: seq<Bar>, i: nat)
    requires History(key, history) && i < |history|
    ensures history[i].time <= history[|history| - 1].time
  {
  }

  lemma {:induction false} IncreasingInOrder(bars: seq<Bar>, time: nat)
    requires StrictlyIncreasing(bars) && forall i :: 0 <= i < |bars| ==> bars[i].time > time
    ensures InOrder(bars)
  {
    forall i, j | 0 <= i < j < |bars| ensures BarTime(bars[i]) <= BarTime(bars[j]) {
      assert bars[i].time < bars[j].time;
    }
  }
}
