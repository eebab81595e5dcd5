/** A rebuild from an authoritative seed makes the seed's closed candles the history of lane
    and store alike (internal/engine/lane.go:279-365, internal/store/memory.go:54-90). */
module Rebuild {
  import opened Model
  import opened Ema
  import opened Market
  import opened Store
  import opened Lane
  import opened Fold
  import opened Durable
  import opened Commit

  // ---- The build loop is a fold ------------------------------------------

  /** Every point of a history in the order a rebuild emits them. */
  function AllPoints(config: LaneConfig, history: seq<Bar>): seq<Event> {
    if history == [] then []
    else
      AllPoints(config, history[..|history| - 1]) +
      PointsFor(config.key, config.periods, ReducersOf(config.periods, history), history[|history| - 1])
  }

  ghost predicate BuildFolds(config: LaneConfig, b: Build, history: seq<Bar>) {
    && History(config.key, history)
    && b.reducers == ReducersOf(config.periods, history)
    && b.market == MarketOf(history)
    && b.lastBar == LastOf(history)
    && b.count == |history|
    && b.points == AllPoints(config, history)
  }

  lemma {:induction false} BuildNothing(config: LaneConfig)
    ensures BuildFolds(config, Build(NewReducers(config.periods), NEW_MARKET, None, 0, []), [])
  {
    assert forall p: Period :: EmaOf(p, Closes([])) == NewEma(p);
  }

  lemma {:induction false} HistoryAppend(key: SeriesKey, history: seq<Bar>, bar: Bar)
    requires History(key, history) && bar.closed && ValidBar(key, bar)
    requires history != [] ==> history[|history| - 1].time < bar.time
    ensures History(key, history + [bar])
  {
    var all := history + [bar];
    forall i, j | 0 <= i < j < |all| ensures all[i].time < all[j].time {
      if j == |history| && i < |history| - 1 {
        assert history[i].time < history[|history| - 1].time;
      }
    }
  }

  lemma {:induction false} BuildBarFolds(config: LaneConfig, b: Build, history: seq<Bar>, bar: Bar)
    requires BuildFolds(config, b, history) && bar.closed && ValidBar(config.key, bar)
    requires history != [] ==> history[|history| - 1].time < bar.time
    ensures BuildFolds(config,
              Build(Advanced(b.reducers, bar.close), CloseBar(b.market, bar), Some(bar), b.count + 1,
                    b.points + PointsFor(config.key, config.periods, Advanced(b.reducers, bar.close), bar)),
              history + [bar])
  {
    hide CloseBar, ReducersOf, Advanced, PointsFor, History;
    HistoryAppend(config.key, history, bar);
    AdvancedReducers(config.periods, history, bar);
    assert (history + [bar])[..|history|] == history;
  }

  lemma {:induction false} KeptPush(bars: seq<Bar>, bar: Bar)
    ensures Kept(bars + [bar]) == KeepNext(Kept(bars), bar)
  {
    assert (bars + [bar])[..|bars|] == bars;
  }

  lemma {:induction false} BuildUnfold(config: LaneConfig, bars: seq<Bar>, bar: Bar)
    ensures BuildRun(config, bars + [bar]) ==
            if BuildRun(config, bars).None? then None else BuildBar(config, BuildRun(config, bars).value, bar)
  {
    hide BuildBar;
    assert (bars + [bar])[..|bars|] == bars;
  }

  /** One candle of the build loop: skipped, refused, or folded. */
  lemma {:induction false} BuildBarKeeps(config: LaneConfig, b: Build, history: seq<Bar>, bar: Bar)
    requires BuildFolds(config, b, history) && BuildBar(config, b, bar).Some?
    ensures BuildFolds(config, BuildBar(config, b, bar).value, KeepNext(history, bar))
  {
    hide BuildFolds, CloseBar, PointsFor, Advanced, ValidBar, FingerprintOf;
    BuildLast(config, b, history);
    if bar.closed && (history == [] || bar.time > history[|history| - 1].time) {
      BuildBarFolds(config, b, history, bar);
    }
  }

  /** The build loop succeeds only on valid, unambiguous candles, and then folds them. */
  lemma {:induction false} BuildIsFold(config: LaneConfig, bars: seq<Bar>)
    requires BuildRun(config, bars).Some?
    ensures BuildFolds(config, BuildRun(config, bars).value, Kept(bars))
    decreases |bars|, 1
  {
    if bars == [] {
      BuildNothing(config);
    } else {
      BuildIsFoldStep(config, bars[..|bars| - 1], bars[|bars| - 1]);
      assert bars[..|bars| - 1] + [bars[|bars| - 1]] == bars;
    }
  }

  lemma {:induction false} BuildIsFoldStep(config: LaneConfig, bars: seq<Bar>, bar: Bar)
    requires BuildRun(config, bars + [bar]).Some?
    ensures BuildFolds(config, BuildRun(config, bars + [bar]).value, Kept(bars + [bar]))
    decreases |bars + [bar]|, 0
  {
    hide BuildRun, Kept, BuildBar, BuildFolds, KeepNext;
    BuildUnfold(config, bars, bar);
    KeptPush(bars, bar);
    BuildIsFold(config, bars);
    BuildBarKeeps(config, BuildRun(config, bars).value, Kept(bars), bar);
  }

  lemma {:induction false} BuildLast(config: LaneConfig, b: Build, history: seq<Bar>)
    requires BuildFolds(config, b, history)
    ensures b.lastBar == LastOf(history)
  {
    hide AllPoints;
  }

  // ---- Storing the rebuilt points ----------------------------------------

  lemma {:induction false} RebuildConcat(s: StoreState, a: seq<Event>, b: seq<Event>)
    ensures RebuildEvents(s, a + b) == RebuildEvents(RebuildEvents(s, a), b)
  {
    hide RebuildEvent;
    if b == [] {
      assert a + b == a;
    } else {
      assert (a + b)[..|a + b| - 1] == a + b[..|b| - 1];
      RebuildConcat(s, a, b[..|b| - 1]);
    }
  }

  lemma {:induction false} SeriesPointsPlain(points: map<EventId, Event>, key: SeriesKey, events: seq<Event>)
    requires KeyedById(points)
    requires forall i :: 0 <= i < |events| ==> events[i].key == key && events[i].id.key == key && events[i].cursor == 0
    ensures KeyedById(PutPoints(points, events))
    ensures SeriesPoints(PutPoints(points, events), key) == PutPoints(SeriesPoints(points, key), events)
  {
    if events != [] {
      var rest, e := events[..|events| - 1], events[|events| - 1];
      SeriesPointsPlain(points, key, rest);
      hide SeriesPoints;
      SeriesPointsPut(PutPoints(points, rest), key, e);
      assert Blank(e) == e;
    }
  }

  /** A stored point is untouched, or belongs to the series and is no newer than `limit`. */
  ghost predicate FromSeries(was: map<EventId, Event>, points: map<EventId, Event>, key: SeriesKey, limit: nat) {
    forall id :: id in points ==>
      || (id in was && points[id] == was[id] && points[id].key != key)
      || (points[id].id == id && PointShaped(points[id]) && points[id].key == key && points[id].barTime <= limit)
  }

  function LastTime(history: seq<Bar>): nat { if history == [] then 0 else history[|history| - 1].time }

  /** What storing the points of a history leaves. */
  ghost predicate StoredPoints(config: LaneConfig, s: StoreState, t: StoreState, history: seq<Bar>) {
    && t == s.(points := t.points)
    && KeyedById(t.points)
    && SeriesPoints(t.points, config.key) == PointMap(config, history)
    && FromSeries(s.points, t.points, config.key, LastTime(history))
    && OthersKept(s.points, t.points, config.key)
  }

  lemma {:induction false} PutFromSeries(
    was: map<EventId, Event>, points: map<EventId, Event>, key: SeriesKey, periods: seq<Period>,
                                         bar: Bar, events: seq<Event>, limit: nat)
    requires FromSeries(was, points, key, limit) && limit <= bar.time && Points(key, periods, bar, events)
    ensures FromSeries(was, PutPoints(points, events), key, bar.time)
  {
    hide PutPoints;
    var grown := PutPoints(points, events);
    forall id | id in grown
      ensures || (id in was && grown[id] == was[id] && grown[id].key != key)
              || (grown[id].id == id && PointShaped(grown[id]) && grown[id].key == key && grown[id].barTime <= bar.time)
    {
      PutPointsValue(points, events, id);
      if grown[id] in events && grown[id].id == id {
        var k :| 0 <= k < |events| && events[k] == grown[id];
        assert PointOfBar(key, bar, Blank(events[k]));
      }
    }
  }

  lemma {:induction false} StorePointsStep(config: LaneConfig, s: StoreState, t: StoreState, history: seq<Bar>, bar: Bar)
    requires ValidConfig(config) && StoredPoints(config, s, t, history)
    requires bar.time != 0 && LastTime(history) < bar.time
    ensures var events := PointsFor(config.key, config.periods, ReducersOf(config.periods, history + [bar]), bar);
            StoredPoints(config, s, RebuildEvents(t, events), history + [bar])
  {
    var after := ReducersOf(config.periods, history + [bar]);
    var events := PointsFor(config.key, config.periods, after, bar);
    PointsForDistinct(config.key, config.periods, after, bar);
    PointListIsPoints(config.key, config.periods, bar, events);
    hide PointsFor, PutPoints, RebuildEvents, SeriesPoints, PointMap, ReducersOf, Points;
    assert NoPointsAt(t.points, config.key, bar.time);
    RebuildPointList(t, config.key, config.periods, bar, events);
    forall i | 0 <= i < |events| ensures events[i].key == config.key && events[i].id.key == config.key && events[i].cursor == 0 {
      assert PointOfBar(config.key, bar, events[i]);
    }
    SeriesPointsPlain(t.points, config.key, events);
    PointMapAppend(config, history, bar);
    PutFromSeries(s.points, t.points, config.key, config.periods, bar, events, LastTime(history));
    PutKeepsOthers(s.points, t.points, config.key, events);
  }

  lemma {:induction false} StoreAllPoints(config: LaneConfig, s: StoreState, history: seq<Bar>)
    requires ValidConfig(config) && History(config.key, history)
    requires KeyedById(s.points) && forall id :: id in s.points ==> s.points[id].key != config.key
    ensures StoredPoints(config, s, RebuildEvents(s, AllPoints(config, history)), history)
  {
    if history == [] {
      assert SeriesPoints(s.points, config.key) == map[];
    } else {
      hide StoredPoints, RebuildEvents, PointsFor, ReducersOf;
      var rest, bar := history[..|history| - 1], history[|history| - 1];
      StoreAllPoints(config, s, rest);
      assert rest + [bar] == history;
      StorePointsStep(config, s, RebuildEvents(s, AllPoints(config, rest)), rest, bar);
      RebuildConcat(s, AllPoints(config, rest), PointsFor(config.key, config.periods, ReducersOf(config.periods, history), bar));
    }
  }

  // ---- The whole transaction ---------------------------------------------

  lemma {:induction false} WipedSeries(s: StoreState, key: SeriesKey)
    requires LogInv(s)
    ensures KeyedById(Wipe(s, key).points) && forall id :: id in Wipe(s, key).points ==> Wipe(s, key).points[id].key != key
    ensures forall id :: id in Wipe(s, key).points ==> id in s.points && Wipe(s, key).points[id] == s.points[id]
    ensures SnapshotsOf(Wipe(s, key).snapshots, key) == map[]
  {
    hide Dense, BoundedLog, OrderedLog, UniqueLog;
  }

  /** The frame a rebuild ends with, as a confirmed frame or as a reset. */
  predicate LastFrame(key: SeriesKey, bar: Bar, e: Event) {
    && e.kind == MarketEvent && e.key == key && e.barTime == bar.time && !e.provisional
    && e.id.key == key && e.id.time == bar.time && (e.reset <==> e.id.ResetId?)
  }

  function ResetEntries(s: StoreState, frame: Event): seq<Event> {
    if frame.reset then [frame.(cursor := s.next + 1)] else []
  }

  /** The rebuilt state of a non-empty history, field by field. */
  ghost predicate RebuiltFields(
    config: LaneConfig, s: StoreState, t: StoreState, history: seq<Bar>, frame: Event, snapshots: seq<Snapshot>)
    requires history != []
  {
    && t.events == s.events + ResetEntries(s, frame)
    && t.next == s.next + |ResetEntries(s, frame)|
    && t.cursors == s.cursors[config.key := history[|history| - 1]]
    && SeriesPoints(t.points, config.key) == PointMap(config, history)
    && FromSeries(Wipe(s, config.key).points, t.points, config.key, LastTime(history))
    && OthersKept(Wipe(s, config.key).points, t.points, config.key)
    && t.published == s.published - (set e | e in ResetEntries(s, frame) :: e.cursor)
    && t.snapshots == PutSnapshots(Wipe(s, config.key).snapshots, config.key, snapshots)
    && t.markets == s.markets[(frame.key, frame.algorithm) := frame]
  }

  lemma {:induction false} RebuildFields(
    config: LaneConfig, s: StoreState, history: seq<Bar>, frame: Event, snapshots: seq<Snapshot>)
    requires ValidConfig(config) && LogInv(s) && History(config.key, history) && history != []
    requires LastFrame(config.key, history[|history| - 1], frame)
    requires config.key in s.cursors ==> s.cursors[config.key].time <= LastTime(history)
    ensures var reply := RebuildSeries(s, config.key, AllPoints(config, history) + [frame], snapshots,
            Some(history[|history| - 1]));
            reply.Accepted? && RebuiltFields(config, s, reply.state, history, frame, snapshots)
  {
    hide AllPoints, RebuildEvents, SeriesPoints, PointMap, PutSnapshots, FromSeries, OthersKept, LogInv, KeyedById,
         RebuildSeries, Wipe, LastFrame, History, ValidConfig, StoredPoints, RebuiltFields;
    var w, events := Wipe(s, config.key), AllPoints(config, history) + [frame];
    WipedSeries(s, config.key);
    StoreAllPoints(config, w, history);
    var u := RebuildEvents(w, AllPoints(config, history));
    RebuildConcat(w, AllPoints(config, history), [frame]);
    FrameKind(config.key, history[|history| - 1], frame);
    RebuildState(s, config.key, events, snapshots, history[|history| - 1]);
    FrameStored(config, s, u, history, frame, snapshots);
  }

  lemma {:induction false} FrameStored(
    config: LaneConfig, s: StoreState, u: StoreState, history: seq<Bar>, frame: Event, snapshots: seq<Snapshot>)
    requires history != [] && frame.kind == MarketEvent && StoredPoints(config, Wipe(s, config.key), u, history)
    ensures var t := RebuildEvents(u, [frame]);
            RebuiltFields(config, s, t.(snapshots := PutSnapshots(t.snapshots, config.key, snapshots),
                                        cursors := t.cursors[config.key := history[|history| - 1]]), history, frame, snapshots)
  {
    hide RebuildEvents, SeriesPoints, PointMap, PutSnapshots, FromSeries, OthersKept, KeyedById, Wipe;
    WipeKeeps(s, config.key);
    RebuildOne(u, frame);
    assert u.events + ResetEntries(u, frame) == s.events + ResetEntries(s, frame);
  }

  lemma WipeKeeps(s: StoreState, key: SeriesKey)
    ensures var w := Wipe(s, key);
            && w.events == s.events && w.next == s.next && w.cursors == s.cursors
            && w.published == s.published && w.markets == s.markets
  {
  }

  lemma FrameKind(key: SeriesKey, bar: Bar, frame: Event)
    requires LastFrame(key, bar, frame)
    ensures frame.kind == MarketEvent
  {
  }

  lemma {:induction false} RebuildState(s: StoreState, key: SeriesKey, events: seq<Event>, snapshots: seq<Snapshot>, last: Bar)
    requires key in s.cursors ==> s.cursors[key].time <= last.time
    ensures var u := RebuildEvents(Wipe(s, key), events);
            var reply := RebuildSeries(s, key, events, snapshots, Some(last));
            reply.Accepted? && reply.state == u.(snapshots := PutSnapshots(u.snapshots, key, snapshots), cursors :=
              u.cursors[key := last])
  {
    hide RebuildEvents, Wipe, PutSnapshots;
  }

  lemma {:induction false} RebuildOne(s: StoreState, frame: Event)
    requires frame.kind == MarketEvent
    ensures var t := RebuildEvents(s, [frame]);
            && t.events == s.events + ResetEntries(s, frame)
            && t.next == s.next + |ResetEntries(s, frame)|
            && t.cursors == s.cursors && t.points == s.points && t.snapshots == s.snapshots
            && t.markets == s.markets[(frame.key, frame.algorithm) := frame]
            && t.published == s.published - (set e | e in ResetEntries(s, frame) :: e.cursor)
  {
    assert [frame][..0] == [];
  }

  lemma {:induction false} RebuildKeepsLog(
    config: LaneConfig, s: StoreState, t: StoreState, history: seq<Bar>, frame: Event, snapshots: seq<Snapshot>)
    requires LogInv(s) && history != [] && LastFrame(config.key, history[|history| - 1], frame)
    requires config.key in s.cursors ==> s.cursors[config.key].time <= LastTime(history)
    requires RebuiltFields(config, s, t, history, frame, snapshots)
    ensures LogInv(t)
  {
    hide SeriesPoints, PointMap, PutSnapshots, PointShaped, LogInv, OthersKept, KeyedById, Wipe, FromSeries, LastFrame;
    var key, bar := config.key, history[|history| - 1];
    WipedSeries(s, key);
    FromWiped(s, t, config, history);
    ResetBatch(s, key, bar, frame);
    GrowsKeepsLog(s, t, key, bar, ResetEntries(s, frame));
  }

  /** Points after a rebuild are untouched ones of other series or new ones of this. */
  lemma {:induction false} FromWiped(s: StoreState, t: StoreState, config: LaneConfig, history: seq<Bar>)
    requires LogInv(s) && history != [] && FromSeries(Wipe(s, config.key).points, t.points, config.key, LastTime(history))
    ensures forall id :: id in t.points ==>
              || (id in s.points && t.points[id] == s.points[id])
              || (&& t.points[id].id == id && PointShaped(t.points[id]) && t.points[id].key == config.key
                  && t.points[id].barTime <= history[|history| - 1].time)
  {
    hide LogInv, PointShaped, Wipe, KeyedById;
    WipedSeries(s, config.key);
  }

  lemma {:induction false} ResetBatch(s: StoreState, key: SeriesKey, bar: Bar, frame: Event)
    requires LastFrame(key, bar, frame)
    ensures Batch(key, bar.time, s.next, ResetEntries(s, frame)) && AllReset(ResetEntries(s, frame))
  {
  }

  lemma {:induction false} RebuildFolds(
    config: LaneConfig, s: StoreState, t: StoreState, history: seq<Bar>, market: MarketReducer, frame: Event)
    requires ValidConfig(config) && LogInv(s) && History(config.key, history) && history != [] && Tracks(market, history)
    requires RebuiltFields(config, s, t, history, frame,
               Checkpoints(config.periods, ReducersOf(config.periods, history), market, LastTime(history)))
    ensures StoreFolds(config, t, history)
  {
    hide SeriesPoints, PointMap, PutSnapshots, LogInv, Tracks, Checkpoints, CheckpointMap, ReducersOf, FromSeries,
         SnapshotsOf, Wipe, ValidConfig, KeyedById;
    WipedSeries(s, config.key);
    CheckpointsStored(config, Wipe(s, config.key).snapshots, history, market);
    assert history[..|history|] == history;
  }

  // ---- Rebuilding to nothing ---------------------------------------------

  lemma {:induction false} EmptyRebuild(config: LaneConfig, s: StoreState)
    requires LogInv(s)
    requires config.key in s.cursors ==> s.cursors[config.key].closed && ValidBar(config.key, s.cursors[config.key])
    ensures var reply := RebuildSeries(s, config.key, [], [], None);
            reply.Accepted? && LogInv(reply.state) && StoreFolds(config, reply.state, []) && reply.state.events == s.events
            && reply.state.cursors == s.cursors
  {
    WipedSeries(s, config.key);
    var w := Wipe(s, config.key);
    assert RebuildSeries(s, config.key, [], [], None).state == w;
    assert SeriesPoints(w.points, config.key) == map[];
    hide Dense, OrderedLog, UniqueLog, Shaped, PointShaped;
    assert LogInv(w);
  }

  // ---- The rebuild step --------------------------------------------------

  lemma {:induction false} FrameOfRebuild(
    config: LaneConfig, bar: Bar, state: MarketState, reducers: Reducers, bars: seq<Bar>, reset: bool)
    ensures var event := NewMarketEvent(config, bar, state, reducers);
            LastFrame(config.key, bar, if reset then ResetEvent(event, bars) else event)
  {
    hide IndicatorsOf, Filter;
  }

  ghost predicate ValidCursor(config: LaneConfig, s: StoreState) {
    config.key in s.cursors ==> s.cursors[config.key].closed && ValidBar(config.key, s.cursors[config.key])
  }

  /** A successful rebuild makes the kept candles the history of both lane and store; a failed
      one changes neither. */
  lemma {:induction false} RebuildReplaces(
    config: LaneConfig, lane: LaneState, store: StoreState, bars: seq<Bar>, reset: bool, fail: bool)
    requires ValidConfig(config) && LogInv(store) && ValidCursor(config, store)
    ensures var r := RebuildStep(config, lane, store, bars, reset, fail);
            && (r.error.Some? ==> r.lane == lane && r.store == store && r.effect == Extended([]))
            && (r.error.None? ==>
                  && r.effect == Replaced(Kept(bars))
                  && History(config.key, Kept(bars))
                  && LaneFolds(config, r.lane, Kept(bars))
                  && r.lane.market == MarketOf(Kept(bars))
                  && StoreFolds(config, r.store, Kept(bars))
                  && LogInv(r.store))
  {
    var r := RebuildStep(config, lane, store, bars, reset, fail);
    if r.error.None? {
      var b, history := BuildRun(config, bars).value, Kept(bars);
      BuildIsFold(config, bars);
      MarketOfTracks(history);
      if history == [] {
        EmptyRebuild(config, store);
      } else {
        RebuildAccepted(config, store, bars, reset, b, history);
      }
      hide RebuildSeries, StoreFolds, LogInv, Checkpoints, RebuildEventsOf, MarketOf, ReducersOf, Tracks, Kept,
           BuildRun, AllPoints;
    }
  }

  /** The frame a rebuild of `b` ends with. */
  function FrameFor(config: LaneConfig, b: Build, bar: Bar, bars: seq<Bar>, reset: bool): Event {
    var event := NewMarketEvent(config, bar, b.market.state, b.reducers);
    if reset then ResetEvent(event, bars) else event
  }

  lemma {:induction false} RebuildEventList(config: LaneConfig, b: Build, bars: seq<Bar>, reset: bool, history: seq<Bar>)
    requires BuildFolds(config, b, history) && history != []
    ensures b.lastBar == Some(history[|history| - 1])
    ensures RebuildEventsOf(config, b, bars, reset) ==
            AllPoints(config, history) + [FrameFor(config, b, history[|history| - 1], bars, reset)]
  {
    hide AllPoints, NewMarketEvent, ResetEvent, MarketOf, ReducersOf;
  }

  lemma {:induction false} AcceptedBound(s: StoreState, key: SeriesKey, events: seq<Event>, snapshots: seq<Snapshot>, last: Bar)
    requires RebuildSeries(s, key, events, snapshots, Some(last)).Accepted?
    ensures key in s.cursors ==> s.cursors[key].time <= last.time
  {
    hide RebuildEvents, PutSnapshots, Wipe;
  }

  /** An accepted rebuild moves the cursor forward or leaves it, and its fields are known. */
  lemma {:induction false} AcceptedFields(
    config: LaneConfig, store: StoreState, bars: seq<Bar>, reset: bool, b: Build, history: seq<Bar>)
    requires ValidConfig(config) && LogInv(store) && BuildFolds(config, b, history) && history != []
    ensures b.lastBar == Some(history[|history| - 1])
    ensures var bar := history[|history| - 1];
            var snapshots := Checkpoints(config.periods, b.reducers, b.market, bar.time);
            var reply := RebuildSeries(store, config.key, RebuildEventsOf(config, b, bars, reset), snapshots, b.lastBar);
            var frame := FrameFor(config, b, bar, bars, reset);
            reply.Accepted? ==>
              && (config.key in store.cursors ==> store.cursors[config.key].time <= LastTime(history))
              && LastFrame(config.key, bar, frame)
              && RebuiltFields(config, store, reply.state, history, frame, snapshots)
  {
    hide RebuildSeries, Checkpoints, AllPoints, LogInv, LastFrame, RebuiltFields, RebuildEventsOf, ValidConfig,
         BuildFolds, FrameFor;
    var bar := history[|history| - 1];
    BuildHistory(config, b, history);
    RebuildEventList(config, b, bars, reset, history);
    var frame := FrameFor(config, b, bar, bars, reset);
    var snapshots := Checkpoints(config.periods, b.reducers, b.market, bar.time);
    var events := AllPoints(config, history) + [frame];
    if RebuildSeries(store, config.key, events, snapshots, Some(bar)).Accepted? {
      AcceptedBound(store, config.key, events, snapshots, bar);
      FrameIsLast(config, b, bar, bars, reset);
      RebuildFields(config, store, history, frame, snapshots);
    }
  }

  lemma {:induction false} FrameIsLast(config: LaneConfig, b: Build, bar: Bar, bars: seq<Bar>, reset: bool)
    ensures LastFrame(config.key, bar, FrameFor(config, b, bar, bars, reset))
  {
    hide NewMarketEvent, ResetEvent, LastFrame;
    FrameOfRebuild(config, bar, b.market.state, b.reducers, bars, reset);
  }

  lemma {:induction false} BuildHistory(config: LaneConfig, b: Build, history: seq<Bar>)
    requires BuildFolds(config, b, history)
    ensures History(config.key, history) && b.reducers == ReducersOf(config.periods, history) && Tracks(b.market, history)
  {
    hide AllPoints, ReducersOf, MarketOf, Tracks, History;
    MarketOfTracks(history);
  }

  lemma {:induction false} RebuildAccepted(
    config: LaneConfig, store: StoreState, bars: seq<Bar>, reset: bool, b: Build, history: seq<Bar>)
    requires ValidConfig(config) && LogInv(store) && BuildFolds(config, b, history) && history != []
    ensures b.lastBar == Some(history[|history| - 1])
    ensures var snapshots := Checkpoints(config.periods, b.reducers, b.market, b.lastBar.value.time);
            var reply := RebuildSeries(store, config.key, RebuildEventsOf(config, b, bars, reset), snapshots, b.lastBar);
            reply.Accepted? ==> LogInv(reply.state) && StoreFolds(config, reply.state, history)
  {
    hide RebuildSeries, Checkpoints, ReducersOf, Tracks, LogInv, StoreFolds, LastFrame, RebuiltFields, RebuildEventsOf,
         FrameFor, BuildFolds, ValidConfig;
    var bar := history[|history| - 1];
    AcceptedFields(config, store, bars, reset, b, history);
    BuildHistory(config, b, history);
    var frame := FrameFor(config, b, bar, bars, reset);
    var snapshots := Checkpoints(config.periods, b.reducers, b.market, bar.time);
    var reply := RebuildSeries(store, config.key, RebuildEventsOf(config, b, bars, reset), snapshots, b.lastBar);
    if reply.Accepted? {
      RebuildKeepsLog(config, store, reply.state, history, frame, snapshots);
      RebuildFolds(config, store, reply.state, history, b.market, frame);
    }
  }
}
