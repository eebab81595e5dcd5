/** Seeds are authoritative (internal/engine/lane.go:193-228, 279-365, 478-497). */
module Seeds {
  import opened Model
  import opened Sorting
  import opened Market
  import opened Store
  import opened Lane
  import opened Fold
  import opened Durable
  import opened Rebuild
  import opened Steps
  import opened Recovery
  import opened Runs
  import opened Conflicts
  import opened LogShape

  /** The same candle as far as the open time and the digest tell. */
  predicate SameCandle(a: Bar, b: Bar) { a.time == b.time && FingerprintOf(a) == FingerprintOf(b) }

  /** The latest closed candle of an ordered seed. */
  function Latest(bars: seq<Bar>): Option<Bar> { LastOf(Filter(IsClosed, bars)) }

  /** Lane and store cursor both stand at this candle. */
  predicate StandsAt(config: LaneConfig, lane: LaneState, store: StoreState, bar: Bar) {
    && lane.lastBar.Some? && SameCandle(lane.lastBar.value, bar)
    && config.key in store.cursors && SameCandle(store.cursors[config.key], bar)
  }

  /** No closed candle is after `bar`, and those at its time are the same candle. */
  predicate NoneBeyond(bars: seq<Bar>, bar: Bar) {
    forall i :: 0 <= i < |bars| && bars[i].closed ==>
      bars[i].time <= bar.time && (bars[i].time == bar.time ==> SameCandle(bars[i], bar))
  }

  lemma {:induction false} LatestIsLast(bars: seq<Bar>)
    requires SortedBy(BarTime, bars)
    ensures Latest(bars).None? <==> forall i :: 0 <= i < |bars| ==> !bars[i].closed
    ensures Latest(bars).Some? ==>
              && Latest(bars).value in bars && Latest(bars).value.closed
              && forall i :: 0 <= i < |bars| && bars[i].closed ==> bars[i].time <= Latest(bars).value.time
  {
    if bars != [] {
      var rest, bar := bars[..|bars| - 1], bars[|bars| - 1];
      LatestIsLast(rest);
      forall i | 0 <= i < |bars| - 1 ensures BarTime(bars[i]) <= BarTime(bar) && bars[i] == rest[i] {
      }
      if bar.closed {
        assert Latest(bars) == Some(bar);
      } else {
        assert Latest(bars) == Latest(rest);
      }
    }
  }

  // ---- Catching up reaches the end ---------------------------------------

  predicate Aligned(config: LaneConfig, lane: LaneState, store: StoreState) {
    lane.lastBar.Some? && config.key in store.cursors && SameCandle(store.cursors[config.key], lane.lastBar.value)
  }

  lemma {:induction false} ClosedAligns(config: LaneConfig, lane: LaneState, store: StoreState, bar: Bar, fail: bool)
    requires ValidConfig(config) && Aligned(config, lane, store) && lane.lastBar.value.time < bar.time
    ensures var r := ClosedStep(config, lane, store, bar, fail);
            && Aligned(config, r.lane, r.store)
            && (r.error.None? ==> r.lane.lastBar == Some(bar) && bar.closed)
            && (r.error.Some? ==> r.lane == lane)
  {
    hide ValidBar, CloneReducers, RestoreMarket, Advanced, CloseBar, PointsFor, NewMarketEvent, Checkpoints,
         FingerprintOf, CommitEvents, PutSnapshots;
    hide ValidConfig;
    Increasing(config);
  }

  /** A catch-up without error ends at or beyond every closed candle it read. */
  lemma {:induction false} CatchUpReaches(
    config: LaneConfig, lane: LaneState, store: StoreState, bars: seq<Bar>, failing: set<nat>, n: nat)
    requires ValidConfig(config) && Aligned(config, lane, store) && n <= |bars|
    ensures var r := CatchUp(config, lane, store, bars, failing, n);
            && Aligned(config, r.lane, r.store)
            && lane.lastBar.value.time <= r.lane.lastBar.value.time
            && (r.error.None? ==> NoneBeyond(bars[..n], r.lane.lastBar.value))
            && (r.lane.lastBar == lane.lastBar || (r.lane.lastBar.value in bars[..n] && r.lane.lastBar.value.closed))
  {
    hide ClosedStep, FingerprintOf, ValidConfig;
    if n > 0 {
      CatchUpReaches(config, lane, store, bars, failing, n - 1);
      var before := CatchUp(config, lane, store, bars, failing, n - 1);
      if before.error.None? {
        var bar := bars[n - 1];
        if bar.closed && before.lane.lastBar.value.time < bar.time {
          ClosedAligns(config, before.lane, before.store, bar, n - 1 in failing);
        }
        assert forall i :: 0 <= i < n - 1 ==> bars[..n][i] == bars[..n - 1][i];
        assert bars[..n][n - 1] == bar;
      }
      assert forall x :: x in bars[..n - 1] ==> x in bars[..n];
    }
  }

  /** A lane that stands beyond every closed candle has nothing to catch up. */
  lemma {:induction false} NothingToCatchUp(
    config: LaneConfig, lane: LaneState, store: StoreState, bars: seq<Bar>, failing: set<nat>, n: nat)
    requires ValidConfig(config) && lane.lastBar.Some? && NoneBeyond(bars, lane.lastBar.value) && n <= |bars|
    ensures CatchUp(config, lane, store, bars, failing, n) == Outcome(lane, store, None, Extended([]))
  {
    hide ClosedStep, FingerprintOf;
    if n > 0 {
      NothingToCatchUp(config, lane, store, bars, failing, n - 1);
      assert CatchUpBar(config, lane, store, bars[n - 1], n - 1 in failing) == Outcome(lane, store, None, Extended([]));
    }
  }

  lemma {:induction false} CaughtUp(config: LaneConfig, lane: LaneState, store: StoreState, bars: seq<Bar>, failing: set<nat>)
    requires ValidConfig(config) && Aligned(config, lane, store) && SortedBy(BarTime, bars)
    requires Latest(bars).Some? && lane.lastBar.value.time <= Latest(bars).value.time
    requires CatchUp(config, lane, store, bars, failing, |bars|).error.None?
    ensures var r := CatchUp(config, lane, store, bars, failing, |bars|);
            StandsAt(config, r.lane, r.store, Latest(bars).value) && NoneBeyond(bars, r.lane.lastBar.value)
  {
    hide CatchUp, Latest, FingerprintOf;
    CatchUpReaches(config, lane, store, bars, failing, |bars|);
    assert bars[..|bars|] == bars;
    LatestIsLast(bars);
    var last, latest := CatchUp(config, lane, store, bars, failing, |bars|).lane.lastBar.value, Latest(bars).value;
    var i :| 0 <= i < |bars| && bars[i] == latest;
    assert latest.time <= last.time && last.time <= latest.time;
  }

  // ---- Rebuilding ends at the end ----------------------------------------

  lemma {:induction false} BuildLastBar(config: LaneConfig, bars: seq<Bar>)
    requires BuildRun(config, bars).Some?
    ensures BuildRun(config, bars).value.lastBar == LastOf(Kept(bars))
  {
    hide BuildRun, Kept, AllPoints, MarketOf, ReducersOf;
    BuildIsFold(config, bars);
  }

  /** A candle the build loop accepts after `last`. */
  predicate Buildable(key: SeriesKey, last: Option<Bar>, bar: Bar) {
    bar.closed ==>
      && ValidBar(key, bar)
      && (last.None? || bar.time > last.value.time || SameCandle(bar, last.value))
  }

  lemma KeptNothing()
    ensures Kept([]) == []
  {
  }

  lemma {:induction false} BuildPush(config: LaneConfig, bars: seq<Bar>, bar: Bar)
    ensures Kept(bars + [bar]) == KeepNext(Kept(bars), bar)
    ensures BuildRun(config, bars + [bar]).Some? <==>
            BuildRun(config, bars).Some? && Buildable(config.key, LastOf(Kept(bars)), bar)
  {
    assert (bars + [bar])[..|bars|] == bars;
    if BuildRun(config, bars).Some? {
      BuildLastBar(config, bars);
      hide Kept, CloseBar, PointsFor, Advanced, ValidBar, FingerprintOf;
    }
  }

  lemma {:induction false} FilterLast(bars: seq<Bar>, bar: Bar)
    ensures Latest(bars + [bar]) == if bar.closed then Some(bar) else Latest(bars)
  {
    assert (bars + [bar])[..|bars|] == bars;
  }

  lemma {:induction false} LatestOfNone(bars: seq<Bar>)
    ensures Latest(bars).None? <==> forall i :: 0 <= i < |bars| ==> !bars[i].closed
  {
    if bars != [] {
      LatestOfNone(bars[..|bars| - 1]);
      FilterLast(bars[..|bars| - 1], bars[|bars| - 1]);
      assert bars[..|bars| - 1] + [bars[|bars| - 1]] == bars;
      hide Latest;
    }
  }

  /** The closed candles of a seed that can be rebuilt from. */
  lemma {:induction false} KeptReaches(config: LaneConfig, bars: seq<Bar>)
    requires BuildRun(config, bars).Some?
    ensures Latest(bars).Some? <==> Kept(bars) != []
    ensures Kept(bars) != [] ==>
              && NoneBeyond(bars, Kept(bars)[|Kept(bars)| - 1])
              && SameCandle(Latest(bars).value, Kept(bars)[|Kept(bars)| - 1])
  {
    hide ValidBar, FingerprintOf, Latest, Kept, BuildRun;
    if bars == [] {
      LatestOfNone(bars);
      KeptNothing();
    } else {
      var rest, bar := bars[..|bars| - 1], bars[|bars| - 1];
      assert rest + [bar] == bars;
      BuildPush(config, rest, bar);
      KeptReaches(config, rest);
      FilterLast(rest, bar);
      LatestOfNone(rest);
      assert forall i :: 0 <= i < |rest| ==> bars[i] == rest[i];
    }
  }

  lemma {:induction false} RebuiltFrom(
    config: LaneConfig, lane: LaneState, store: StoreState, bars: seq<Bar>, reset: bool, fail: bool)
    ensures RebuildStep(config, lane, store, bars, reset, fail).error.None? ==> BuildRun(config, bars).Some?
  {
    hide BuildRun, RebuildSeries, Checkpoints, RebuildEventsOf;
  }

  /** A successful rebuild stands at the seed's latest closed candle. */
  lemma {:induction false} RebuildStands(
    config: LaneConfig, lane: LaneState, store: StoreState, bars: seq<Bar>, reset: bool, fail: bool)
    requires ValidConfig(config) && Sound(config, store) && Latest(bars).Some?
    requires RebuildStep(config, lane, store, bars, reset, fail).error.None?
    ensures var r := RebuildStep(config, lane, store, bars, reset, fail);
            StandsAt(config, r.lane, r.store, Latest(bars).value) && NoneBeyond(bars, r.lane.lastBar.value)
  {
    hide RebuildStep, Latest, Kept, SeriesPoints, PointMap, CheckpointsFold, LogInv, Tracks, ReducersOf, History,
         MarketOf, BuildRun, FingerprintOf;
    RebuildReplaces(config, lane, store, bars, reset, fail);
    RebuiltFrom(config, lane, store, bars, reset, fail);
    KeptReaches(config, bars);
  }

  // ---- Restoring ends at the cursor --------------------------------------

  lemma {:induction false} LastSpanning(bars: seq<Bar>, lo: nat, hi: nat)
    requires SortedBy(BarTime, bars) && lo <= hi && SeenAt(bars, hi)
    ensures var last := LastOf(Filter(Spanning(lo, hi), bars));
            last.Some? && last.value in bars && last.value.closed && last.value.time == hi
  {
    var i :| 0 <= i < |bars| && bars[i].closed && bars[i].time == hi;
    FilterKeeps(Spanning(lo, hi), bars, bars[i]);
    var span := Filter(Spanning(lo, hi), bars);
    FilterSorted(BarTime, Spanning(lo, hi), bars);
    var k :| 0 <= k < |span| && span[k] == bars[i];
    assert BarTime(span[k]) <= BarTime(span[|span| - 1]);
    FilterMember(Spanning(lo, hi), bars, span[|span| - 1]);
  }

  /** A restored lane stands at the durable cursor, whatever the seed and the checkpoints. */
  lemma {:induction false} RestoredStands(config: LaneConfig, cursor: Bar, snapshots: map<nat, Snapshot>, bars: seq<Bar>)
    requires ValidConfig(config) && SortedBy(BarTime, bars)
    requires RestoreStep(config, cursor, snapshots, bars).Some?
    ensures var lane := RestoreStep(config, cursor, snapshots, bars).value;
            lane.lastBar.Some? && SameCandle(cursor, lane.lastBar.value) && SeenAt(bars, cursor.time)
  {
    hide RestoredReducers, SharedCheckpoint, RestoreRun, RestoredMarket, SeenAt, Filter, FingerprintOf, SortedBy,
         ValidBar, ClosedWithin, AdvancedAll;
    var reducers := RestoredReducers(config.periods, snapshots).value;
    assert config.periods[0] in config.periods;
    var lo, count := snapshots[config.periods[0]].lastOpenTime, reducers[config.periods[0]].samples;
    var start := Restoring(reducers, None, false, false, count, []);
    RestoreRunCollects(config, lo, cursor, start, bars);
    LastSpanning(bars, lo, cursor.time);
    var last := LastOf(Filter(Spanning(lo, cursor.time), bars)).value;
    CursorMatches(config, lo, cursor, start, bars, last);
  }

  // ---- The running lane --------------------------------------------------

  /** Without a conflict, a seed that reaches back to the cursor at all also contains it. */
  lemma {:induction false} NoConflictReaches(config: LaneConfig, lane: LaneState, history: seq<Bar>, bars: seq<Bar>)
    requires LaneFolds(config, lane, history) && History(config.key, history) && history != []
    requires SortedBy(BarTime, bars) && Latest(bars).Some? && Latest(bars).value.time != 0
    requires !SeedConflicts(lane, bars)
    ensures lane.lastBar.Some? && lane.lastBar.value.time <= Latest(bars).value.time
  {
    hide LaneFolds, SeedConflicts, FingerprintMap, SeedMap, FirstSeedTime, Latest, Filter, SortedBy, InOrder;
    HistorySorted(config.key, history);
    LocalTimes(config, lane, history, 0);
    LatestIsLast(bars);
    var latest, cursor := Latest(bars).value, lane.lastBar.value;
    if latest.time < cursor.time {
      InSeedMap(lane, bars, latest);
      SeedTimes(lane, bars, latest.time);
      CursorIsLocal(config, lane, history);
      ConflictIsClash(config, lane, history, bars);
      assert cursor.time in SeedMap(lane, bars);
      var i := SeedMapBar(lane, bars, cursor.time);
      assert false;
    }
  }

  lemma {:induction false} InSeedMap(lane: LaneState, bars: seq<Bar>, bar: Bar)
    requires lane.lastBar.Some? && bar in bars && bar.closed && bar.time <= lane.lastBar.value.time
    ensures bar.time in SeedMap(lane, bars)
  {
    var hi := lane.lastBar.value.time;
    FilterKeeps(Overlapping(hi), bars, bar);
    var overlap := Filter(Overlapping(hi), bars);
    var i :| 0 <= i < |overlap| && overlap[i] == bar;
    FingerprintKeys(overlap, bar.time);
  }

  lemma {:induction false} SeedMapBar(lane: LaneState, bars: seq<Bar>, t: nat) returns (i: nat)
    requires lane.lastBar.Some? && t in SeedMap(lane, bars)
    ensures i < |bars| && bars[i].closed && bars[i].time == t <= lane.lastBar.value.time
  {
    var hi := lane.lastBar.value.time;
    var overlap := Filter(Overlapping(hi), bars);
    FingerprintKeys(overlap, t);
    var k :| 0 <= k < |overlap| && overlap[k].time == t;
    FilterMember(Overlapping(hi), bars, overlap[k]);
    i :| 0 <= i < |bars| && bars[i] == overlap[k];
  }

  lemma {:induction false} CursorIsLocal(config: LaneConfig, lane: LaneState, history: seq<Bar>)
    requires LaneFolds(config, lane, history) && history != []
    ensures lane.lastBar.Some? && lane.lastBar.value.time in FingerprintMap(lane.market.bars)
  {
    hide ReducersOf, Evaluate;
    var local := lane.market.bars;
    assert local[|local| - 1] == history[|history| - 1];
  }

  // ---- Seeds are authoritative -------------------------------------------

  lemma {:induction false} SystemIsAligned(config: LaneConfig, sys: System, history: seq<Bar>)
    requires SystemInv(config, sys, history)
    ensures Sound(config, sys.store)
    ensures sys.lane.lastBar.Some? ==>
              Aligned(config, sys.lane, sys.store) && LaneFolds(config, sys.lane, history) && history != [] &&
                InStep(config, sys.lane, sys.store, history)
  {
    hide SeriesPoints, PointMap, CheckpointsFold, LogInv, Tracks, ReducersOf, History, FingerprintOf;
    LastBarTells(config, sys.lane, history);
  }

  lemma {:induction false} OrderedSeedStands(config: LaneConfig, sys: System, history: seq<Bar>, bars: seq<Bar>, faults: Faults)
    requires ValidConfig(config) && SystemInv(config, sys, history) && SortedBy(BarTime, bars)
    requires Latest(bars).Some? && Latest(bars).value.time != 0
    requires SeedOrdered(config, sys.lane, sys.store, bars, faults).error.None?
    ensures var r := SeedOrdered(config, sys.lane, sys.store, bars, faults);
            StandsAt(config, r.lane, r.store, Latest(bars).value) && NoneBeyond(bars, r.lane.lastBar.value)
  {
    hide SystemInv, Latest, SortedBy, CatchUp, RebuildStep, RestoreStep, SeedConflicts, LaneFolds, History, Sound,
         NoneBeyond, SnapshotsOf, ValidConfig, InStep;
    var lane, store := sys.lane, sys.store;
    SystemIsAligned(config, sys, history);
    if lane.lastBar.Some? {
      if SeedConflicts(lane, bars) {
        RebuildStands(config, lane, store, bars, true, faults.rebuild);
      } else {
        var caught := CatchUp(config, lane, store, bars, faults.commits, |bars|);
        if caught.error.None? {
          StepHolds(config, lane, store, history);
          NoConflictReaches(config, lane, history, bars);
          CaughtUp(config, lane, store, bars, faults.commits);
        } else {
          CatchUpMoves(config, lane, store, bars, faults.commits, |bars|);
          RebuildStands(config, caught.lane, caught.store, bars, true, faults.rebuild);
        }
      }
    } else if config.key !in store.cursors {
      RebuildStands(config, lane, store, bars, false, faults.rebuild);
    } else {
      var restored := RestoreStep(config, store.cursors[config.key], SnapshotsOf(store.snapshots, config.key), bars);
      if restored.None? {
        RebuildStands(config, lane, store, bars, true, faults.rebuild);
      } else {
        RestoredStands(config, store.cursors[config.key], SnapshotsOf(store.snapshots, config.key), bars);
        CursorNotAfterLatest(bars, store.cursors[config.key].time);
        CaughtUp(config, restored.value, store, bars, faults.commits);
      }
    }
  }

  lemma {:induction false} CursorNotAfterLatest(bars: seq<Bar>, time: nat)
    requires SortedBy(BarTime, bars) && SeenAt(bars, time) && Latest(bars).Some?
    ensures time <= Latest(bars).value.time
  {
    hide Latest;
    LatestIsLast(bars);
  }

  /** A successful seed with a closed candle leaves lane and cursor at its latest closed candle,
      exactly when that candle has an open time at all. */
  lemma {:induction false} SeedIsAuthoritative(config: LaneConfig, sys: System, history: seq<Bar>, bars: seq<Bar>, faults: Faults)
    requires ValidConfig(config) && SystemInv(config, sys, history) && Latest(Ordered(bars)).Some?
    requires SeedStep(config, sys.lane, sys.store, bars, faults).error.None?
    ensures var r := SeedStep(config, sys.lane, sys.store, bars, faults);
            var latest := Latest(Ordered(bars)).value;
            && (StandsAt(config, r.lane, r.store, latest) <==> latest.time != 0)
            && (forall i :: 0 <= i < |bars| && bars[i].closed ==> bars[i].time <= latest.time)
  {
    hide SystemInv, Latest, Ordered, SortedBy, SeedOrdered, LogInv;
    OrderedIsSorted(bars);
    LatestIsLast(Ordered(bars));
    OrderedHasAll(bars);
    SystemIsAligned(config, sys, history);
    SeedMoves(config, sys.lane, sys.store, Ordered(bars), faults);
    if Latest(Ordered(bars)).value.time != 0 {
      OrderedSeedStands(config, sys, history, Ordered(bars), faults);
    }
  }

  lemma {:induction false} OrderedHasAll(bars: seq<Bar>)
    ensures forall i :: 0 <= i < |bars| ==> bars[i] in Ordered(bars)
  {
    SameElements(BarTime, bars);
    forall i | 0 <= i < |bars| ensures bars[i] in Ordered(bars) {
      assert bars[i] in multiset(bars);
    }
  }
}
