/** The durable state over every run whatever: no assumption on the lane, on the seeds or on the
    order of commands (internal/store/memory.go:54-118, 202-228). */
module LogShape {
  import opened Model
  import opened Market
  import opened Store
  import opened Lane
  import opened Fold
  import opened Durable
  import opened Commit
  import opened Rebuild
  import opened Runs

  // ---- What one transaction may change -----------------------------------

  ghost predicate SameSeries(s: StoreState, t: StoreState, key: SeriesKey) {
    && (key in t.cursors <==> key in s.cursors)
    && (key in s.cursors ==> t.cursors[key] == s.cursors[key])
    && SeriesPoints(t.points, key) == SeriesPoints(s.points, key)
    && SnapshotsOf(t.snapshots, key) == SnapshotsOf(s.snapshots, key)
  }

  /** No cursor moves back and none is forgotten. */
  ghost predicate CursorsAdvance(s: StoreState, t: StoreState) {
    forall k :: k in s.cursors ==> k in t.cursors && s.cursors[k].time <= t.cursors[k].time
  }

  /** From `s` to `t` the log only grew, by entries of `key`; no cursor moved back; other series
      are untouched; and no entry already logged changed its published mark. */
  ghost predicate Moves(key: SeriesKey, s: StoreState, t: StoreState) {
    && s.events <= t.events
    && (forall i :: |s.events| <= i < |t.events| ==> t.events[i].key == key)
    && CursorsAdvance(s, t)
    && (forall k :: k != key ==> SameSeries(s, t, k))
    && t.published <= s.published
    && (forall c :: c in s.published && c <= |s.events| ==> c in t.published)
  }

  ghost predicate Sound(config: LaneConfig, s: StoreState) { LogInv(s) && ValidCursor(config, s) }

  lemma {:induction false} StandingStill(key: SeriesKey, s: StoreState)
    ensures Moves(key, s, s)
  {
    hide SeriesPoints, SnapshotsOf;
  }

  lemma {:induction false} MovesThenMoves(key: SeriesKey, s: StoreState, t: StoreState, u: StoreState)
    requires Moves(key, s, t) && Moves(key, t, u)
    ensures Moves(key, s, u)
  {
    hide SeriesPoints, SnapshotsOf;
    forall i | |s.events| <= i < |u.events| ensures u.events[i].key == key {
      if i < |t.events| {
        assert t.events[i] == u.events[i];
      }
    }
    forall k | k != key ensures SameSeries(s, u, k) {
      assert SameSeries(s, t, k) && SameSeries(t, u, k);
    }
  }

  lemma {:induction false} OtherPoints(was: map<EventId, Event>, points: map<EventId, Event>, key: SeriesKey, other: SeriesKey)
    requires KeyedById(was) && KeyedById(points) && OthersKept(was, points, key) && other != key
    ensures SeriesPoints(points, other) == SeriesPoints(was, other)
  {
    var a, b := SeriesPoints(was, other), SeriesPoints(points, other);
    assert forall id :: id in a <==> id in b;
    assert forall id :: id in a ==> a[id] == b[id];
  }

  lemma {:induction false} OtherSnapshots(
    m: map<(SeriesKey, nat), Snapshot>, key: SeriesKey, snapshots: seq<Snapshot>, other: SeriesKey)
    requires other != key
    ensures SnapshotsOf(PutSnapshots(m, key, snapshots), other) == SnapshotsOf(m, other)
  {
    hide PutSnapshots, SnapshotsOf;
    var a, b := SnapshotsOf(m, other), SnapshotsOf(PutSnapshots(m, key, snapshots), other);
    forall p: nat
      ensures p in a <==> p in b
      ensures p in a ==> a[p] == b[p]
    {
      SnapshotsAt(m, other, p);
      SnapshotsAt(PutSnapshots(m, key, snapshots), other, p);
      PutSnapshotsOther(m, key, snapshots, (other, p));
    }
    assert a == b;
  }

  // ---- Committing --------------------------------------------------------

  lemma {:induction false} CommitMoves(
    config: LaneConfig, s: StoreState, t: StoreState, bar: Bar, points: seq<Event>, frame: Event,
    snapshots: seq<Snapshot>)
    requires LogInv(s) && LogInv(t) && PointList(config.key, config.periods, bar, points) && FrameOf(config.key, bar, frame)
    requires config.key in s.cursors ==> s.cursors[config.key].time < bar.time
    requires CommittedFields(s, t, config.key, bar, points, frame, snapshots)
    ensures Moves(config.key, s, t)
  {
    hide LogInv, PutPoints, SeriesPoints, SnapshotsOf, PutSnapshots;
    var key, stamped := config.key, Stamped(points, s.next);
    LogKeysById(s);
    LogKeysById(t);
    forall i | 0 <= i < |points| ensures stamped[i].id.key == key && stamped[i].key == key {
      assert PointOfBar(key, bar, points[i]);
    }
    PutKeepsOthers(s.points, s.points, key, stamped);
    forall k | k != key ensures SameSeries(s, t, k) {
      OtherPoints(s.points, t.points, key, k);
      OtherSnapshots(s.snapshots, key, snapshots, k);
    }
    forall i | |s.events| <= i < |t.events| ensures t.events[i].key == key {
      assert t.events[i] == (stamped + [frame.(cursor := s.next + |points| + 1)])[i - |s.events|];
    }
  }

  /** A closed candle, from any lane state: reducers, counts and last candle may be anything. */
  lemma {:induction false} CommitStepMoves(
    config: LaneConfig, lane: LaneState, store: StoreState, bar: Bar, fail: bool, reducers: Reducers,
    market: MarketReducer)
    requires ValidConfig(config) && Sound(config, store) && bar.closed && ValidBar(config.key, bar)
    ensures var r := CommitStep(config, lane, store, bar, fail, reducers, market);
            Sound(config, r.store) && Moves(config.key, store, r.store)
  {
    hide Advanced, CloseBar, PointsFor, NewMarketEvent, Checkpoints, Sound, PointList, FrameOf, Moves, ValidBar,
         ValidConfig, CommitClosed;
    var key, after, closed := config.key, Advanced(reducers, bar.close), CloseBar(market, bar);
    StandingStill(key, store);
    Increasing(config);
    PointsForDistinct(key, config.periods, after, bar);
    NewFrame(config, bar, closed.state, after);
    var points, frame := PointsFor(key, config.periods, after, bar), NewMarketEvent(config, bar, closed.state, after);
    var snapshots := if (lane.closedCount + 1) % config.snapshotEvery ==
      0 then Checkpoints(config.periods, after, closed, bar.time) else [];
    ReplyMoves(config, store, bar, points, frame, snapshots);
  }

  lemma Increasing(config: LaneConfig)
    requires ValidConfig(config)
    ensures config.snapshotEvery > 0
    ensures forall i, j :: 0 <= i < j < |config.periods| ==> config.periods[i] < config.periods[j]
  {
  }

  lemma {:induction false} ReplyMoves(
    config: LaneConfig, store: StoreState, bar: Bar, points: seq<Event>, frame: Event, snapshots: seq<Snapshot>)
    requires Sound(config, store) && bar.closed && ValidBar(config.key, bar)
    requires PointList(config.key, config.periods, bar, points) && FrameOf(config.key, bar, frame)
    ensures var reply := CommitClosed(store, config.key, bar, points + [frame], snapshots);
            reply.Accepted? ==> Sound(config, reply.state) && Moves(config.key, store, reply.state)
  {
    hide LogInv, PointList, FrameOf, Moves, ValidBar, CommittedFields, CommitClosed;
    var key := config.key;
    if key in store.cursors && bar.time <= store.cursors[key].time {
      StandingStill(key, store);
      CommitSkips(store, key, bar, points + [frame], snapshots);
    } else {
      CommitFields(config, store, bar, points, frame, snapshots);
      var t := CommitClosed(store, key, bar, points + [frame], snapshots).state;
      CommitKeepsLog(config, store, t, bar, points, frame, snapshots);
      CommitMoves(config, store, t, bar, points, frame, snapshots);
      CommittedCursor(store, t, key, bar, points, frame, snapshots);
    }
  }

  lemma {:induction false} CommitSkips(s: StoreState, key: SeriesKey, bar: Bar, events: seq<Event>, snapshots: seq<Snapshot>)
    requires key in s.cursors && bar.time <= s.cursors[key].time
    ensures var r := CommitClosed(s, key, bar, events, snapshots);
            r.Accepted? ==> r.state == s
  {
    hide CommitEvents, PutSnapshots, FingerprintOf;
  }

  lemma {:induction false} CommittedCursor(
    s: StoreState, t: StoreState, key: SeriesKey, bar: Bar, points: seq<Event>, frame: Event, snapshots: seq<Snapshot>)
    requires CommittedFields(s, t, key, bar, points, frame, snapshots)
    ensures t.cursors == s.cursors[key := bar]
  {
    hide PutPoints, PutSnapshots, Stamped;
  }

  lemma {:induction false} ClosedMoves(config: LaneConfig, lane: LaneState, store: StoreState, bar: Bar, fail: bool)
    requires ValidConfig(config) && Sound(config, store)
    ensures var r := ClosedStep(config, lane, store, bar, fail);
            Sound(config, r.store) && Moves(config.key, store, r.store)
  {
    hide Sound, Moves, CommitStep, CloneReducers, RestoreMarket, ValidBar, FingerprintOf;
    StandingStill(config.key, store);
    var reducers, market := CloneReducers(config.periods, lane.reducers), RestoreMarket(TakeMarketSnapshot(lane.market));
    if bar.closed && ValidBar(config.key, bar) && reducers.Some? && market.Some? {
      CommitStepMoves(config, lane, store, bar, fail, reducers.value, market.value);
    }
  }

  lemma {:induction false} CatchUpMoves(
    config: LaneConfig, lane: LaneState, store: StoreState, bars: seq<Bar>, failing: set<nat>, n: nat)
    requires ValidConfig(config) && Sound(config, store) && n <= |bars|
    ensures var r := CatchUp(config, lane, store, bars, failing, n);
            Sound(config, r.store) && Moves(config.key, store, r.store)
  {
    hide Sound, Moves, ClosedStep, FingerprintOf;
    StandingStill(config.key, store);
    if n > 0 {
      CatchUpMoves(config, lane, store, bars, failing, n - 1);
      var before := CatchUp(config, lane, store, bars, failing, n - 1);
      ClosedMoves(config, before.lane, before.store, bars[n - 1], n - 1 in failing);
      MovesThenMoves(config.key, store, before.store,
        ClosedStep(config, before.lane, before.store, bars[n - 1], n - 1 in failing).store);
    }
  }

  // ---- Rebuilding --------------------------------------------------------

  lemma {:induction false} WipeSparesOthers(s: StoreState, key: SeriesKey, other: SeriesKey)
    requires other != key
    ensures SeriesPoints(Wipe(s, key).points, other) == SeriesPoints(s.points, other)
    ensures SnapshotsOf(Wipe(s, key).snapshots, other) == SnapshotsOf(s.snapshots, other)
  {
    var w := Wipe(s, key);
    assert forall id :: id in SeriesPoints(w.points, other) <==> id in SeriesPoints(s.points, other);
    forall p: nat
      ensures p in SnapshotsOf(w.snapshots, other) <==> p in SnapshotsOf(s.snapshots, other)
      ensures p in SnapshotsOf(s.snapshots, other) ==> SnapshotsOf(w.snapshots, other)[p] == SnapshotsOf(s.snapshots, other)[p]
    {
      SnapshotsAt(w.snapshots, other, p);
      SnapshotsAt(s.snapshots, other, p);
    }
  }

  lemma {:induction false} RebuildMoves(
    config: LaneConfig, s: StoreState, t: StoreState, history: seq<Bar>, frame: Event, snapshots: seq<Snapshot>)
    requires LogInv(s) && LogInv(t) && history != [] && LastFrame(config.key, history[|history| - 1], frame)
    requires config.key in s.cursors ==> s.cursors[config.key].time <= LastTime(history)
    requires RebuiltFields(config, s, t, history, frame, snapshots)
    ensures Moves(config.key, s, t)
  {
    hide LogInv, SeriesPoints, SnapshotsOf, PutSnapshots, PointMap, FromSeries, OthersKept, Wipe, KeyedById;
    var key := config.key;
    WipedSeries(s, key);
    LogKeysById(t);
    LogIsDense(s);
    forall k | k != key ensures SameSeries(s, t, k) {
      OtherPoints(Wipe(s, key).points, t.points, key, k);
      OtherSnapshots(Wipe(s, key).snapshots, key, snapshots, k);
      WipeSparesOthers(s, key, k);
    }
  }

  lemma LogIsDense(s: StoreState)
    requires LogInv(s)
    ensures s.next == |s.events|
  {
  }

  lemma {:induction false} WipeMoves(config: LaneConfig, s: StoreState)
    requires LogInv(s)
    ensures Moves(config.key, s, Wipe(s, config.key))
  {
    var w := Wipe(s, config.key);
    hide LogInv, SeriesPoints, SnapshotsOf;
    forall k | k != config.key ensures SameSeries(s, w, k) {
      WipeSparesOthers(s, config.key, k);
    }
  }

  lemma {:induction false} AcceptedRebuildMoves(
    config: LaneConfig, store: StoreState, bars: seq<Bar>, reset: bool, b: Build, history: seq<Bar>)
    requires ValidConfig(config) && LogInv(store) && BuildFolds(config, b, history) && history != []
    ensures b.lastBar == Some(history[|history| - 1])
    ensures var snapshots := Checkpoints(config.periods, b.reducers, b.market, b.lastBar.value.time);
            var reply := RebuildSeries(store, config.key, RebuildEventsOf(config, b, bars, reset), snapshots, b.lastBar);
            reply.Accepted? ==> Moves(config.key, store, reply.state) && ValidCursor(config, reply.state)
  {
    hide RebuildSeries, Checkpoints, ReducersOf, LogInv, LastFrame, RebuiltFields, RebuildEventsOf, FrameFor,
         BuildFolds, ValidConfig, Moves, ValidBar;
    var bar := history[|history| - 1];
    AcceptedFields(config, store, bars, reset, b, history);
    BuildHistory(config, b, history);
    var frame := FrameFor(config, b, bar, bars, reset);
    var snapshots := Checkpoints(config.periods, b.reducers, b.market, bar.time);
    var reply := RebuildSeries(store, config.key, RebuildEventsOf(config, b, bars, reset), snapshots, b.lastBar);
    if reply.Accepted? {
      RebuildKeepsLog(config, store, reply.state, history, frame, snapshots);
      RebuildMoves(config, store, reply.state, history, frame, snapshots);
      RebuiltCursor(config, store, reply.state, history, frame, snapshots);
    }
  }

  lemma {:induction false} RebuiltCursor(
    config: LaneConfig, s: StoreState, t: StoreState, history: seq<Bar>, frame: Event, snapshots: seq<Snapshot>)
    requires history != [] && RebuiltFields(config, s, t, history, frame, snapshots)
    ensures t.cursors == s.cursors[config.key := history[|history| - 1]]
  {
    hide SeriesPoints, PointMap, PutSnapshots, FromSeries, OthersKept, Wipe;
  }

  lemma {:induction false} RebuildStepMoves(
    config: LaneConfig, lane: LaneState, store: StoreState, bars: seq<Bar>, reset: bool, fail: bool)
    requires ValidConfig(config) && Sound(config, store)
    ensures var r := RebuildStep(config, lane, store, bars, reset, fail);
            Sound(config, r.store) && Moves(config.key, store, r.store)
  {
    RebuildReplaces(config, lane, store, bars, reset, fail);
    StandingStill(config.key, store);
    var r := RebuildStep(config, lane, store, bars, reset, fail);
    if r.error.None? {
      var b := BuildRun(config, bars).value;
      BuildIsFold(config, bars);
      if Kept(bars) == [] {
        EmptyRebuild(config, store);
        WipeMoves(config, store);
        EmptyRebuildWipes(config, store);
      } else {
        AcceptedRebuildMoves(config, store, bars, reset, b, Kept(bars));
      }
      hide RebuildSeries, Moves, LogInv, StoreFolds, Checkpoints, RebuildEventsOf, MarketOf, ReducersOf, Kept, BuildRun,
           AllPoints, ValidBar;
    }
  }

  lemma EmptyRebuildWipes(config: LaneConfig, s: StoreState)
    ensures RebuildSeries(s, config.key, [], [], None) == Accepted(Wipe(s, config.key), [])
  {
  }

  // ---- Every command and every run ---------------------------------------

  lemma {:induction false} SeedMoves(config: LaneConfig, lane: LaneState, store: StoreState, bars: seq<Bar>, faults: Faults)
    requires ValidConfig(config) && Sound(config, store)
    ensures var r := SeedOrdered(config, lane, store, bars, faults);
            Sound(config, r.store) && Moves(config.key, store, r.store)
  {
    hide Sound, Moves, RebuildStep, CatchUp, RestoreStep, SeedConflicts;
    StandingStill(config.key, store);
    RebuildStepMoves(config, lane, store, bars, true, faults.rebuild);
    RebuildStepMoves(config, lane, store, bars, false, faults.rebuild);
    if lane.lastBar.Some? {
      CatchUpMoves(config, lane, store, bars, faults.commits, |bars|);
      var caught := CatchUp(config, lane, store, bars, faults.commits, |bars|);
      RebuildStepMoves(config, caught.lane, caught.store, bars, true, faults.rebuild);
      MovesThenMoves(config.key, store, caught.store,
        RebuildStep(config, caught.lane, caught.store, bars, true, faults.rebuild).store);
    } else if config.key in store.cursors {
      var restored := RestoreStep(config, store.cursors[config.key], SnapshotsOf(store.snapshots, config.key), bars);
      if restored.Some? {
        CatchUpMoves(config, restored.value, store, bars, faults.commits, |bars|);
      }
    }
  }

  lemma {:induction false} StepMoves(config: LaneConfig, sys: System, command: Command)
    requires ValidConfig(config) && Sound(config, sys.store)
    ensures Sound(config, Do(config, sys, command).0.store) && Moves(config.key, sys.store, Do(config, sys, command).0.store)
  {
    hide Sound, Moves, SeedOrdered, ClosedStep, FormingStep, Ordered;
    StandingStill(config.key, sys.store);
    match command
    case Seed(bars, faults) =>
      SeedMoves(config, sys.lane, sys.store, Ordered(bars), faults);
    case Closed(bar, fail) =>
      ClosedMoves(config, sys.lane, sys.store, bar, fail);
    case Forming(_) =>
    case Crash =>
  }

  lemma {:induction false} RunMoves(config: LaneConfig, sys: System, commands: seq<Command>)
    requires ValidConfig(config) && Sound(config, sys.store)
    ensures Sound(config, Run(config, sys, commands).store) && Moves(config.key, sys.store, Run(config, sys, commands).store)
  {
    hide Sound, Moves, Do;
    StandingStill(config.key, sys.store);
    if commands != [] {
      var before := commands[..|commands| - 1];
      RunMoves(config, sys, before);
      StepMoves(config, Run(config, sys, before), commands[|commands| - 1]);
      MovesThenMoves(config.key, sys.store, Run(config, sys, before).store, Run(config, sys, commands).store);
    }
  }

  /** Lanes of other series lose nothing: what their store folds, it still folds. */
  lemma {:induction false} OtherLanesUnaffected(
    config: LaneConfig, sys: System, commands: seq<Command>, other: LaneConfig, history: seq<Bar>)
    requires ValidConfig(config) && Sound(config, sys.store)
    requires other.key != config.key && StoreFolds(other, sys.store, history)
    ensures StoreFolds(other, Run(config, sys, commands).store, history)
  {
    RunMoves(config, sys, commands);
    hide Run, SeriesPoints, SnapshotsOf, PointMap, CheckpointMap, LogInv, ValidBar;
    assert SameSeries(sys.store, Run(config, sys, commands).store, other.key);
  }

  /** From an empty store: dense cursors, candle times in order and bounded by the cursor,
      identities unique but for resets, after any run at all. */
  lemma {:induction false} EveryLog(config: LaneConfig, commands: seq<Command>)
    requires ValidConfig(config)
    ensures var s := Run(config, Initial(config), commands).store;
            && (forall i :: 0 <= i < |s.events| ==> s.events[i].cursor == i + 1)
            && (forall i :: 0 <= i < |s.events| ==>
              s.events[i].key in s.cursors && s.events[i].barTime <= s.cursors[s.events[i].key].time)
            && OrderedLog(s.events)
            && UniqueLog(s.events)
  {
    RunMoves(config, Initial(config), commands);
    hide Run, OrderedLog, UniqueLog, Moves, Shaped, ShapedPoints, ValidCursor;
    assert BoundedLog(Run(config, Initial(config), commands).store);
  }
}
