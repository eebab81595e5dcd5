/** Whole runs of a lane over its store: seeds, closed and forming candles, store failures and
    crashes in any order (internal/engine/lane.go:131-228). */
module Runs {
  import opened Model
  import opened Sorting
  import opened Ema
  import opened Market
  import opened Store
  import opened Lane
  import opened Fold
  import opened Durable
  import opened Rebuild
  import opened Steps
  import opened Recovery

  // ---- The system --------------------------------------------------------

  /** `seeded` tells whether a seed has succeeded since the last start. */
  datatype System = System(lane: LaneState, store: StoreState, seeded: bool)

  datatype Command =
    | Seed(bars: seq<Bar>, faults: Faults)
    | Closed(bar: Bar, fail: bool)
    | Forming(bar: Bar)
    | Crash

  function Do(config: LaneConfig, sys: System, command: Command): (r: (System, Effect))
    requires ValidConfig(config)
  {
    match command
    case Seed(bars, faults) =>
      var r := SeedStep(config, sys.lane, sys.store, bars, faults);
      (System(r.lane, r.store, sys.seeded || r.error.None?), r.effect)
    case Closed(bar, fail) =>
      var r := ClosedStep(config, sys.lane, sys.store, bar, fail);
      (System(r.lane, r.store, sys.seeded), r.effect)
    case Forming(bar) => (sys.(lane := FormingStep(config, sys.lane, bar).0), Extended([]))
    case Crash => (System(NewLane(config), sys.store, false), Extended([]))
  }

  function NextHistory(history: seq<Bar>, effect: Effect): seq<Bar> {
    match effect
    case Extended(bars) => history + bars
    case Replaced(bars) => bars
  }

  function Run(config: LaneConfig, sys: System, commands: seq<Command>): System
    requires ValidConfig(config)
  {
    if commands == [] then sys
    else Do(config, Run(config, sys, commands[..|commands| - 1]), commands[|commands| - 1]).0
  }

  /** The candles applied since the series began, as the commands replaced and extended them. */
  function HistoryOf(config: LaneConfig, sys: System, history: seq<Bar>, commands: seq<Command>): seq<Bar>
    requires ValidConfig(config)
  {
    if commands == [] then history
    else
      var before := commands[..|commands| - 1];
      NextHistory(HistoryOf(config, sys, history, before),
                  Do(config, Run(config, sys, before), commands[|commands| - 1]).1)
  }

  // ---- What every run keeps ----------------------------------------------

  /** The store folds the history; so does the lane, unless it has only just started. */
  ghost predicate SystemInv(config: LaneConfig, sys: System, history: seq<Bar>) {
    && History(config.key, history)
    && StoreFolds(config, sys.store, history)
    && LogInv(sys.store)
    && (LaneFolds(config, sys.lane, history) || (!sys.seeded && LaneFolds(config, sys.lane, [])))
  }

  /** Whether a restart seed is restored from: it covers the last checkpoint and the cursor, agrees
      at the cursor and is valid in between. */
  ghost predicate Restores(config: LaneConfig, store: StoreState, history: seq<Bar>, bars: seq<Bar>) {
    var snapshots := SnapshotsOf(store.snapshots, config.key);
    history != [] && 0 in snapshots && Covers(config, snapshots[0].lastOpenTime, history[|history| - 1], bars)
  }

  /** A restart seed that is restored from repeats exactly the committed candles after the
      checkpoint. Any other seed is rebuilt from and may hold anything. */
  ghost predicate Faithful(config: LaneConfig, store: StoreState, history: seq<Bar>, bars: seq<Bar>) {
    Restores(config, store, history, bars) ==>
      var lo, hi := SnapshotsOf(store.snapshots, config.key)[0].lastOpenTime, history[|history| - 1].time;
      ClosedWithin(bars, lo, hi) == ClosedWithin(history, lo, hi)
  }

  /** A closed candle that changes nothing is safe. Otherwise the lane must have caught up with
      the store, and the candle must not be the left-over cursor of a wiped series. */
  ghost predicate SafeToClose(config: LaneConfig, sys: System, history: seq<Bar>, bar: Bar, fail: bool) {
    || fail || !bar.closed || !ValidBar(config.key, bar) || Refuses(sys.store, config.key, bar)
    || ((sys.lane.lastBar.Some? || history == []) && !SkipsFirstPoint(config, sys.lane, sys.store, bar))
  }

  /** Closed candles are safe, and restart seeds are faithful. */
  ghost predicate Admissible(config: LaneConfig, sys: System, history: seq<Bar>, command: Command) {
    match command
    case Seed(bars, faults) => sys.lane.lastBar.None? && !faults.load ==> Faithful(config, sys.store, history, Ordered(bars))
    case Closed(bar, fail) => SafeToClose(config, sys, history, bar, fail)
    case Forming(_) => true
    case Crash => true
  }

  ghost predicate AdmissibleRun(config: LaneConfig, sys: System, history: seq<Bar>, commands: seq<Command>)
    requires ValidConfig(config)
  {
    commands == [] ||
    var before := commands[..|commands| - 1];
    && AdmissibleRun(config, sys, history, before)
    && Admissible(config, Run(config, sys, before), HistoryOf(config, sys, history, before), commands[|commands| - 1])
  }

  // ---- Seeding -----------------------------------------------------------

  lemma {:induction false} OrderedIsSorted(bars: seq<Bar>)
    ensures SortedBy(BarTime, Ordered(bars))
  {
    StableSortSorted(BarTime, bars);
  }

  lemma {:induction false} WithinHistory(key: SeriesKey, history: seq<Bar>, k: nat)
    requires History(key, history) && 1 <= k <= |history|
    ensures ClosedWithin(history, history[k - 1].time, history[|history| - 1].time) == history[k..]
  {
    hide Filter, ValidBar;
    var lo, hi := history[k - 1].time, history[|history| - 1].time;
    assert history == history[..k] + history[k..];
    FilterConcat(Between(lo, hi), history[..k], history[k..]);
    FilterNone(Between(lo, hi), history[..k]);
    FilterAll(Between(lo, hi), history[k..]);
  }

  lemma {:induction false} NoCheckpointNoRestore(config: LaneConfig, cursor: Bar, bars: seq<Bar>)
    requires ValidConfig(config)
    ensures RestoreStep(config, cursor, map[], bars).None?
  {
    assert config.periods[0] in config.periods;
    assert !RestorableSnapshot(map[], config.periods[0]);
  }

  /** Restoring succeeds exactly on the seeds that cover what the store holds. */
  lemma {:induction false} RestoresExactly(config: LaneConfig, store: StoreState, history: seq<Bar>, bars: seq<Bar>)
    requires ValidConfig(config) && History(config.key, history) && StoreFolds(config, store, history) && SortedBy(BarTime, bars)
    ensures Restores(config, store, history, bars) <==>
            && config.key in store.cursors
            && RestoreStep(config, store.cursors[config.key], SnapshotsOf(store.snapshots, config.key), bars).Some?
  {
    hide RestoreStep, Covers, History, SeriesPoints, PointMap, ValidConfig, SnapshotsOf, SortedBy, CheckpointMap;
    var snapshots := SnapshotsOf(store.snapshots, config.key);
    if snapshots == map[] {
      if config.key in store.cursors {
        NoCheckpointNoRestore(config, store.cursors[config.key], bars);
      }
    } else {
      var k :| 1 <= k <= |history| && snapshots == CheckpointMap(config, history[..k]);
      CheckpointTime(config, history, k);
      RestoreSucceedsExactly(config, history, k, bars);
    }
  }

  /** Restoring from what the store holds gives the fold of the durable history. */
  lemma {:induction false} RestoreFromStore(config: LaneConfig, store: StoreState, history: seq<Bar>, bars: seq<Bar>)
    requires ValidConfig(config) && History(config.key, history) && StoreFolds(config, store, history)
    requires SortedBy(BarTime, bars) && Faithful(config, store, history, bars)
    requires config.key in store.cursors
    requires RestoreStep(config, store.cursors[config.key], SnapshotsOf(store.snapshots, config.key), bars).Some?
    ensures history != []
    ensures LaneFolds(config, RestoreStep(config, store.cursors[config.key], SnapshotsOf(store.snapshots, config.key),
            bars).value, history)
  {
    hide RestoreStep, LaneFolds, ClosedWithin, History, SeriesPoints, PointMap, ValidConfig, SnapshotsOf, Covers;
    var snapshots := SnapshotsOf(store.snapshots, config.key);
    NoCheckpointNoRestore(config, store.cursors[config.key], bars);
    RestoresExactly(config, store, history, bars);
    var k :| 1 <= k <= |history| && snapshots == CheckpointMap(config, history[..k]);
    CheckpointTime(config, history, k);
    WithinHistory(config.key, history, k);
    RecoveryRestoresHistory(config, history, k, bars);
  }

  lemma {:induction false} CheckpointTime(config: LaneConfig, history: seq<Bar>, k: nat)
    requires 1 <= k <= |history|
    ensures 0 in CheckpointMap(config, history[..k]) && CheckpointMap(config, history[..k])[0].lastOpenTime == history[k - 1].time
  {
    hide EmaOf, TakeSnapshot;
  }

  ghost predicate SeedKept(config: LaneConfig, before: LaneState, r: Outcome, history: seq<Bar>) {
    var next := NextHistory(history, r.effect);
    && History(config.key, next)
    && StoreFolds(config, r.store, next)
    && LogInv(r.store)
    && (LaneFolds(config, r.lane, next) || (r.error.Some? && r.lane == before && r.effect == Extended([])))
  }

  lemma {:induction false} StoreHasValidCursor(config: LaneConfig, store: StoreState, history: seq<Bar>)
    requires StoreFolds(config, store, history)
    ensures ValidCursor(config, store)
  {
    hide SeriesPoints, PointMap, CheckpointsFold;
  }

  lemma {:induction false} RebuildKept(
    config: LaneConfig, lane: LaneState, store: StoreState, history: seq<Bar>, bars: seq<Bar>, reset: bool, fail: bool)
    requires ValidConfig(config) && History(config.key, history) && StoreFolds(config, store, history) && LogInv(store)
    ensures SeedKept(config, lane, RebuildStep(config, lane, store, bars, reset, fail), history)
  {
    StoreHasValidCursor(config, store, history);
    hide RebuildStep, LaneFolds, StoreFolds, LogInv, History, ValidConfig;
    RebuildReplaces(config, lane, store, bars, reset, fail);
    assert history + [] == history;
  }

  /** A running lane: conflicts rebuild, otherwise catch up and rebuild only on failure. */
  lemma {:induction false} SeedRunning(
    config: LaneConfig, lane: LaneState, store: StoreState, history: seq<Bar>, bars: seq<Bar>, faults: Faults)
    requires ValidConfig(config) && InStep(config, lane, store, history) && history != [] && lane.lastBar.Some?
    ensures var r := SeedOrdered(config, lane, store, bars, faults);
            SeedKept(config, lane, r, history) && LaneFolds(config, r.lane, NextHistory(history, r.effect))
  {
    hide RebuildStep, CatchUp, SeedConflicts, LaneFolds, StoreFolds, LogInv, History, ValidConfig;
    if SeedConflicts(lane, bars) {
      RebuildKept(config, lane, store, history, bars, true, faults.rebuild);
      RebuildFailsSafely(config, lane, store, bars, true, faults.rebuild);
      assert history + [] == history;
    } else {
      CatchUpExtends(config, lane, store, history, bars, faults.commits, |bars|);
      var caught := CatchUp(config, lane, store, bars, faults.commits, |bars|);
      var sofar := history + caught.effect.bars;
      RebuildKept(config, caught.lane, caught.store, sofar, bars, true, faults.rebuild);
      RebuildFailsSafely(config, caught.lane, caught.store, bars, true, faults.rebuild);
      assert sofar + [] == sofar;
    }
  }

  lemma {:induction false} RebuildFailsSafely(
    config: LaneConfig, lane: LaneState, store: StoreState, bars: seq<Bar>, reset: bool, fail: bool)
    ensures var r := RebuildStep(config, lane, store, bars, reset, fail);
            && (r.error.Some? ==> r.lane == lane && r.store == store && r.effect == Extended([]))
            && (r.error.None? ==> r.effect == Replaced(Kept(bars)))
  {
    hide BuildRun, RebuildSeries, Checkpoints, RebuildEventsOf;
  }

  /** A lane that has just started: restore and catch up, or rebuild. */
  lemma {:induction false} SeedStarting(
    config: LaneConfig, lane: LaneState, store: StoreState, history: seq<Bar>, bars: seq<Bar>, faults: Faults)
    requires ValidConfig(config) && History(config.key, history) && StoreFolds(config, store, history) && LogInv(store)
    requires lane.lastBar.None? && SortedBy(BarTime, bars) && (faults.load || Faithful(config, store, history, bars))
    ensures SeedKept(config, lane, SeedOrdered(config, lane, store, bars, faults), history)
  {
    hide RebuildStep, CatchUp, RestoreStep, LaneFolds, StoreFolds, LogInv, History, ValidConfig, Faithful, SnapshotsOf, SortedBy;
    assert history + [] == history;
    if !faults.load && config.key in store.cursors {
      var restored := RestoreStep(config, store.cursors[config.key], SnapshotsOf(store.snapshots, config.key), bars);
      if restored.Some? {
        RestoreFromStore(config, store, history, bars);
        CatchUpExtends(config, restored.value, store, history, bars, faults.commits, |bars|);
      } else {
        RebuildKept(config, lane, store, history, bars, true, faults.rebuild);
      }
    } else {
      RebuildKept(config, lane, store, history, bars, false, faults.rebuild);
    }
  }

  lemma {:induction false} SeedKeeps(config: LaneConfig, sys: System, history: seq<Bar>, bars: seq<Bar>, faults: Faults)
    requires ValidConfig(config) && SystemInv(config, sys, history) && Admissible(config, sys, history, Seed(bars, faults))
    ensures SystemInv(config, Do(config, sys, Seed(bars, faults)).0, NextHistory(history, Do(config, sys, Seed(bars, faults)).1))
  {
    OrderedIsSorted(bars);
    LastBarTells(config, sys.lane, history);
    hide Ordered, LaneFolds, StoreFolds, LogInv, History, ValidConfig, Faithful, SeedOrdered;
    if sys.lane.lastBar.Some? {
      SeedRunning(config, sys.lane, sys.store, history, Ordered(bars), faults);
    } else {
      SeedStarting(config, sys.lane, sys.store, history, Ordered(bars), faults);
      assert history + [] == history;
    }
  }

  // ---- Every run ---------------------------------------------------------

  lemma {:induction false} FormingKeeps(config: LaneConfig, lane: LaneState, bar: Bar, history: seq<Bar>)
    ensures LaneFolds(config, FormingStep(config, lane, bar).0, history) <==> LaneFolds(config, lane, history)
  {
    hide Tracks, ReducersOf, CloneReducers, Advanced, ValidBar;
  }

  /** A forming candle that is valid and not older than the last closed one shows, for every
      period warm by then, the from-scratch average with its close as one more sample. */
  lemma {:induction false} FormingProjects(config: LaneConfig, lane: LaneState, history: seq<Bar>, bar: Bar)
    requires LaneFolds(config, lane, history)
    ensures var r := FormingStep(config, lane, bar);
            && r.1 == (if bar.closed then Some(NotForming) else if !ValidBar(config.key, bar) then Some(InvalidBar) else None)
            && (r.1.Some? || (history != [] && bar.time < history[|history| - 1].time) ==> r.0 == lane)
            && (r.1.None? && (history == [] || history[|history| - 1].time <= bar.time) ==>
                  && r.0 == lane.(provisional := r.0.provisional, forming := Some(bar), formingRevision := bar.trades)
                  && (forall p: Period :: p in r.0.provisional <==> p in config.periods && p <= |history| + 1)
                  && (forall p: Period :: p in r.0.provisional ==>
                        r.0.provisional[p] == EmaOf(p, Closes(history) + [bar.close]).value))
  {
    hide Tracks, CloneReducers, Advanced, ValidBar, EmaOf, Closes, ReducersOf, Projected;
    CloneIsIdentity(config.periods, history);
    AdvancedReducers(config.periods, history, bar);
    ProjectedIs(config.periods, history, bar);
  }

  lemma {:induction false} ProjectedIs(periods: seq<Period>, history: seq<Bar>, bar: Bar)
    ensures var shown := Projected(ReducersOf(periods, history + [bar]));
            && (forall p: Period :: p in shown <==> p in periods && p <= |history| + 1)
            && (forall p: Period :: p in shown ==> shown[p] == EmaOf(p, Closes(history) + [bar.close]).value)
  {
    hide EmaOf, Closes;
    ClosesAppend(history, bar);
  }

  lemma {:induction false} ClosedKeeps(config: LaneConfig, sys: System, history: seq<Bar>, bar: Bar, fail: bool)
    requires ValidConfig(config) && SystemInv(config, sys, history) && SafeToClose(config, sys, history, bar, fail)
    ensures SystemInv(config, Do(config, sys, Closed(bar, fail)).0, NextHistory(history, Do(config, sys, Closed(bar, fail)).1))
  {
    hide LaneFolds, StoreFolds, LogInv, History, ValidConfig, ClosedStep, SkipsFirstPoint, ValidBar, Refuses;
    assert history + [] == history;
    if fail || !bar.closed || !ValidBar(config.key, bar) || Refuses(sys.store, config.key, bar) {
      FailedClose(config, sys.lane, sys.store, bar, fail);
    } else {
      LastBarTells(config, sys.lane, history);
      ClosedExtends(config, sys.lane, sys.store, history, bar, fail);
    }
  }

  /** Every command keeps the invariant, with the history it leaves behind. */
  lemma {:induction false} StepKeeps(config: LaneConfig, sys: System, history: seq<Bar>, command: Command)
    requires ValidConfig(config) && SystemInv(config, sys, history) && Admissible(config, sys, history, command)
    ensures SystemInv(config, Do(config, sys, command).0, NextHistory(history, Do(config, sys, command).1))
  {
    hide LaneFolds, StoreFolds, LogInv, History, ValidConfig, Faithful, SeedStep, ClosedStep, FormingStep, SkipsFirstPoint;
    assert history + [] == history;
    match command
    case Seed(bars, faults) =>
      SeedKeeps(config, sys, history, bars, faults);
    case Closed(bar, fail) =>
      ClosedKeeps(config, sys, history, bar, fail);
    case Forming(bar) =>
      FormingKeeps(config, sys.lane, bar, history);
      FormingKeeps(config, sys.lane, bar, []);
    case Crash =>
      NewLaneFolds(config);
  }

  /** Over every admissible run some strictly time-increasing history determines everything in
      memory and on disk. */
  lemma {:induction false} RunKeeps(config: LaneConfig, sys: System, history: seq<Bar>, commands: seq<Command>)
    requires ValidConfig(config) && SystemInv(config, sys, history) && AdmissibleRun(config, sys, history, commands)
    ensures SystemInv(config, Run(config, sys, commands), HistoryOf(config, sys, history, commands))
  {
    hide SystemInv, Admissible, Do, NextHistory;
    if commands != [] {
      var before := commands[..|commands| - 1];
      RunKeeps(config, sys, history, before);
      StepKeeps(config, Run(config, sys, before), HistoryOf(config, sys, history, before), commands[|commands| - 1]);
    }
  }

  function Initial(config: LaneConfig): System { System(NewLane(config), EMPTY_STORE, false) }

  lemma {:induction false} InitialInv(config: LaneConfig)
    ensures SystemInv(config, Initial(config), [])
  {
    NewLaneFolds(config);
    hide LaneFolds, CheckpointMap;
    assert SeriesPoints(map[], config.key) == map[];
    assert SnapshotsOf(map[], config.key) == map[];
  }

  /** From an empty store: lane, cursor, points and checkpoints after any admissible run. */
  lemma {:induction false} EveryRun(config: LaneConfig, commands: seq<Command>)
    requires ValidConfig(config) && AdmissibleRun(config, Initial(config), [], commands)
    ensures var sys, history := Run(config, Initial(config), commands), HistoryOf(config, Initial(config), [], commands);
            && SystemInv(config, sys, history)
            && ExactPoints(config, SeriesPoints(sys.store.points, config.key), history)
            && (sys.seeded ==> LaneFolds(config, sys.lane, history))
  {
    hide LaneFolds, LogInv, Run, HistoryOf, AdmissibleRun, SeriesPoints, PointMap, CheckpointsFold, ExactPoints;
    InitialInv(config);
    RunKeeps(config, Initial(config), [], commands);
    PointMapIsExact(config, HistoryOf(config, Initial(config), [], commands));
  }

  lemma {:induction false} LastBarTells(config: LaneConfig, lane: LaneState, history: seq<Bar>)
    ensures LaneFolds(config, lane, history) ==> (lane.lastBar.Some? <==> history != [])
    ensures LaneFolds(config, lane, []) ==> lane.lastBar.None?
  {
    hide Tracks, ReducersOf;
  }

  // ---- Forming candles over every run ------------------------------------

  /** What the lane shows of a forming candle: nothing, or the averages the history would have with
      that candle's close as one more sample, for every period warm by then. */
  ghost predicate Shows(config: LaneConfig, lane: LaneState, history: seq<Bar>) {
    match lane.forming
    case None => lane.provisional == map[] && lane.formingRevision == 0
    case Some(bar) =>
      && !bar.closed && ValidBar(config.key, bar) && lane.formingRevision == bar.trades
      && (history == [] || history[|history| - 1].time <= bar.time)
      && (forall p: Period :: p in lane.provisional <==> p in config.periods && p <= |history| + 1)
      && (forall p: Period :: p in lane.provisional ==> lane.provisional[p] == EmaOf(p, Closes(history) + [bar.close]).value)
  }

  ghost predicate ShowsRight(config: LaneConfig, lane: LaneState) {
    forall history :: LaneFolds(config, lane, history) ==> Shows(config, lane, history)
  }

  predicate ShowsNothing(lane: LaneState) {
    lane.forming == None && lane.provisional == map[] && lane.formingRevision == 0
  }

  lemma {:induction false} NothingIsRight(config: LaneConfig, lane: LaneState)
    requires ShowsNothing(lane)
    ensures ShowsRight(config, lane)
  {
    hide LaneFolds;
  }

  lemma {:induction false} FormingShows(config: LaneConfig, lane: LaneState, bar: Bar)
    requires ShowsRight(config, lane)
    ensures ShowsRight(config, FormingStep(config, lane, bar).0)
  {
    hide LaneFolds, FormingStep, ValidBar, EmaOf, Closes;
    var after := FormingStep(config, lane, bar).0;
    forall history | LaneFolds(config, after, history) ensures Shows(config, after, history) {
      FormingKeeps(config, lane, bar, history);
      FormingProjects(config, lane, history, bar);
    }
  }

  lemma {:induction false} ClosedShows(config: LaneConfig, lane: LaneState, store: StoreState, bar: Bar, fail: bool)
    requires ValidConfig(config)
    ensures var r := ClosedStep(config, lane, store, bar, fail);
            r.lane == lane || ShowsNothing(r.lane)
  {
    hide CloneReducers, RestoreMarket, ValidBar, CloseBar, Advanced, PointsFor, NewMarketEvent, Checkpoints, FingerprintOf,
         CommitClosed;
  }

  lemma {:induction false} CatchUpShows(
    config: LaneConfig, lane: LaneState, store: StoreState, bars: seq<Bar>, failing: set<nat>, n: nat)
    requires ValidConfig(config) && n <= |bars|
    ensures var r := CatchUp(config, lane, store, bars, failing, n);
            r.lane == lane || ShowsNothing(r.lane)
  {
    hide ClosedStep, FingerprintOf, ShowsNothing;
    if n > 0 {
      CatchUpShows(config, lane, store, bars, failing, n - 1);
      var before := CatchUp(config, lane, store, bars, failing, n - 1);
      ClosedShows(config, before.lane, before.store, bars[n - 1], n - 1 in failing);
    }
  }

  lemma {:induction false} RebuildShows(
    config: LaneConfig, lane: LaneState, store: StoreState, bars: seq<Bar>, reset: bool, fail: bool)
    ensures var r := RebuildStep(config, lane, store, bars, reset, fail);
            r.lane == lane || ShowsNothing(r.lane)
  {
    hide BuildRun, RebuildSeries, Checkpoints, RebuildEventsOf;
  }

  lemma {:induction false} RestoreShows(config: LaneConfig, cursor: Bar, snapshots: map<nat, Snapshot>, bars: seq<Bar>)
    requires ValidConfig(config)
    ensures var r := RestoreStep(config, cursor, snapshots, bars);
            r.Some? ==> ShowsNothing(r.value)
  {
    hide RestoredReducers, RestoreRun, RestoredMarket, SharedCheckpoint;
  }

  lemma {:induction false} SeedShows(config: LaneConfig, lane: LaneState, store: StoreState, bars: seq<Bar>, faults: Faults)
    requires ValidConfig(config)
    ensures var r := SeedOrdered(config, lane, store, bars, faults);
            r.lane == lane || ShowsNothing(r.lane)
  {
    hide RebuildStep, CatchUp, RestoreStep, SeedConflicts, ShowsNothing, SnapshotsOf;
    RebuildShows(config, lane, store, bars, true, faults.rebuild);
    RebuildShows(config, lane, store, bars, false, faults.rebuild);
    CatchUpShows(config, lane, store, bars, faults.commits, |bars|);
    var caught := CatchUp(config, lane, store, bars, faults.commits, |bars|);
    RebuildShows(config, caught.lane, caught.store, bars, true, faults.rebuild);
    if config.key in store.cursors {
      var snapshots := SnapshotsOf(store.snapshots, config.key);
      RestoreShows(config, store.cursors[config.key], snapshots, bars);
      var restored := RestoreStep(config, store.cursors[config.key], snapshots, bars);
      if restored.Some? {
        CatchUpShows(config, restored.value, store, bars, faults.commits, |bars|);
      }
    }
  }

  lemma {:induction false} StepShows(config: LaneConfig, sys: System, command: Command)
    requires ValidConfig(config) && ShowsRight(config, sys.lane)
    ensures ShowsRight(config, Do(config, sys, command).0.lane)
  {
    hide ShowsRight, SeedOrdered, ClosedStep, FormingStep, Ordered, NewReducers;
    var lane := Do(config, sys, command).0.lane;
    if command.Seed? {
      SeedShows(config, sys.lane, sys.store, Ordered(command.bars), command.faults);
    } else if command.Closed? {
      ClosedShows(config, sys.lane, sys.store, command.bar, command.fail);
    } else if command.Forming? {
      FormingShows(config, sys.lane, command.bar);
    }
    if ShowsNothing(lane) {
      NothingIsRight(config, lane);
    }
  }

  /** After any run at all, whatever the lane folds, what it shows of a forming candle is that
      history with the candle on top; a close, a rebuild or a restart leaves none. */
  lemma {:induction false} EveryProjection(config: LaneConfig, commands: seq<Command>)
    requires ValidConfig(config)
    ensures ShowsRight(config, Run(config, Initial(config), commands).lane)
  {
    hide ShowsRight, Do, NewReducers;
    if commands == [] {
      NothingIsRight(config, NewLane(config));
    } else {
      var before := commands[..|commands| - 1];
      EveryProjection(config, before);
      StepShows(config, Run(config, Initial(config), before), commands[|commands| - 1]);
    }
  }
}
