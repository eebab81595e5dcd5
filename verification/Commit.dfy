/** One closed candle committed to a store that folds a history leaves a store that folds
    one candle more (internal/store/memory.go:92-118). */
module Commit {
  import opened Model
  import opened Ema
  import opened Market
  import opened Store
  import opened Lane
  import opened Fold
  import opened Durable

  lemma {:induction false} NewerCandle(s: StoreState, key: SeriesKey, time: nat)
    requires LogInv(s)
    requires key in s.cursors ==> s.cursors[key].time < time
    ensures CandleIsNew(s, key, time)
  {
    forall i | 0 <= i < |s.events| ensures !(s.events[i].id.key == key && s.events[i].id.time == time) {
      assert Shaped(s.events[i]) && Within(s, s.events[i]);
    }
  }

  lemma {:induction false} PointListIsPoints(key: SeriesKey, periods: seq<Period>, bar: Bar, events: seq<Event>)
    requires PointList(key, periods, bar, events)
    ensures Points(key, periods, bar, events)
  {
    forall i | 0 <= i < |events| ensures Blank(events[i]) == events[i] {
      assert PointOfBar(key, bar, events[i]);
    }
  }

  /** The state after committing the points of a candle and its market frame. */
  function WithFrame(s: StoreState, points: seq<Event>, frame: Event): StoreState {
    var t := WithPoints(s, points);
    var stamped := frame.(cursor := t.next + 1);
    t.(next := t.next + 1, events := t.events + [stamped], markets := t.markets[(frame.key, frame.algorithm) := stamped])
  }

  predicate FrameOf(key: SeriesKey, bar: Bar, e: Event) {
    && e.kind == MarketEvent && e.key == key && e.barTime == bar.time && !e.provisional && !e.reset
    && e.id == MarketId(key, bar.time, e.algorithm, e.revision)
  }

  lemma {:induction false} FrameIsFresh(
    s: StoreState, key: SeriesKey, periods: seq<Period>, bar: Bar, points: seq<Event>, frame: Event)
    requires Points(key, periods, bar, points) && CandleIsNew(s, key, bar.time) && FrameOf(key, bar, frame)
    ensures frame.id !in WithPoints(s, points).points && FindInLog(WithPoints(s, points).events, frame.id).None?
  {
    var stamped := Stamped(points, s.next);
    forall k | 0 <= k < |stamped| ensures stamped[k].id != frame.id {
      assert PointOfBar(key, bar, Blank(points[k]));
    }
    PutPointsOld(s.points, stamped, frame.id);
    assert frame.id in s.points ==> PointShaped(s.points[frame.id]);
    forall i | 0 <= i < |s.events + stamped| ensures (s.events + stamped)[i].id != frame.id {
      if i >= |s.events| {
        assert (s.events + stamped)[i] == stamped[i - |s.events|];
      }
    }
    NotInLog(s.events + stamped, frame.id);
  }

  lemma {:induction false} CommitPointsAndFrame(
    s: StoreState, key: SeriesKey, periods: seq<Period>, bar: Bar, points: seq<Event>, frame: Event)
    requires Points(key, periods, bar, points) && CandleIsNew(s, key, bar.time) && FrameOf(key, bar, frame)
    ensures CommitEvents(s, points + [frame]).0 == WithFrame(s, points, frame)
    ensures CommitEvents(s, points + [frame]).1 == Stamped(points, s.next) + [frame.(cursor := s.next + |points| + 1)]
  {
    hide Points, CandleIsNew, WithPoints, FindInLog, CommitEvents;
    CommitPointList(s, key, periods, bar, points);
    FrameIsFresh(s, key, periods, bar, points, frame);
    CommitUnfold(s, points + [frame]);
    NextAfterPoints(s, points);
    assert (points + [frame])[..|points|] == points;
  }

  lemma NextAfterPoints(s: StoreState, points: seq<Event>)
    ensures WithPoints(s, points).next == s.next + |points|
  {
  }

  // ---- The log after a commit --------------------------------------------

  lemma {:induction false} BatchOfCandle(
    key: SeriesKey, periods: seq<Period>, bar: Bar, points: seq<Event>, frame: Event, next: nat)
    requires Points(key, periods, bar, points) && FrameOf(key, bar, frame)
    ensures Batch(key, bar.time, next, Stamped(points, next) + [frame.(cursor := next + |points| + 1)])
  {
    var added := Stamped(points, next) + [frame.(cursor := next + |points| + 1)];
    forall i | 0 <= i < |added|
      ensures added[i].cursor == next + 1 + i && Shaped(added[i]) && added[i].key == key && added[i].barTime == bar.time
    {
      if i < |points| {
        assert PointOfBar(key, bar, Blank(points[i]));
      }
    }
    forall i, j | 0 <= i < j < |added| ensures added[i].id != added[j].id {
      assert PointOfBar(key, bar, Blank(points[i]));
      if j < |points| {
        assert PointOfBar(key, bar, Blank(points[j]));
        assert points[i].period < points[j].period;
      }
    }
  }

  lemma {:induction false} PointsStayShaped(
    s: StoreState, key: SeriesKey, periods: seq<Period>, bar: Bar, points: seq<Event>, id: EventId)
    requires Points(key, periods, bar, points)
    requires id in PutPoints(s.points, Stamped(points, s.next))
    ensures var p := PutPoints(s.points, Stamped(points, s.next))[id];
            (id in s.points && p == s.points[id]) || (p.id == id && PointShaped(p) && p.key == key && p.barTime <= bar.time)
  {
    var stamped := Stamped(points, s.next);
    PutPointsValue(s.points, stamped, id);
    var p := PutPoints(s.points, stamped)[id];
    if p in stamped {
      var k :| 0 <= k < |stamped| && stamped[k] == p;
      assert PointOfBar(key, bar, Blank(points[k]));
    }
  }

  lemma {:induction false} CommitGrows(
    s: StoreState, t: StoreState, key: SeriesKey, periods: seq<Period>, bar: Bar, points: seq<Event>, frame: Event)
    requires Points(key, periods, bar, points) && FrameOf(key, bar, frame)
    requires key in s.cursors ==> s.cursors[key].time < bar.time
    requires t.events == s.events + (Stamped(points, s.next) + [frame.(cursor := s.next + |points| + 1)])
    requires t.next == s.next + |points| + 1
    requires t.points == PutPoints(s.points, Stamped(points, s.next)) && t.cursors == s.cursors[key := bar]
    ensures Grows(s, t, key, bar, Stamped(points, s.next) + [frame.(cursor := s.next + |points| + 1)])
  {
    hide Points, Batch, PointShaped, PutPoints, AllReset;
    BatchOfCandle(key, periods, bar, points, frame, s.next);
    var added := Stamped(points, s.next) + [frame.(cursor := s.next + |points| + 1)];
    assert t.events == s.events + added;
    forall id | id in t.points
      ensures || (id in s.points && t.points[id] == s.points[id])
              || (t.points[id].id == id && PointShaped(t.points[id]) && t.points[id].key ==
                key && t.points[id].barTime <= bar.time)
    {
      PointsStayShaped(s, key, periods, bar, points, id);
    }
  }

  // ---- The points after a commit -----------------------------------------

  lemma SeriesPointsPut(points: map<EventId, Event>, key: SeriesKey, e: Event)
    requires e.key == key && (e.id in points ==> points[e.id].key == key)
    ensures SeriesPoints(points[e.id := e], key) == SeriesPoints(points, key)[e.id := Blank(e)]
  {
  }

  ghost predicate KeyedById(points: map<EventId, Event>) {
    forall id :: id in points ==> points[id].key == id.key
  }

  /** Points of other series are neither added, changed nor lost. */
  ghost predicate OthersKept(was: map<EventId, Event>, points: map<EventId, Event>, key: SeriesKey) {
    forall id: EventId :: id.key != key ==> (id in points <==> id in was) && (id in was ==> points[id] == was[id])
  }

  lemma {:induction false} PutKeepsOthers(
    was: map<EventId, Event>, points: map<EventId, Event>, key: SeriesKey, events: seq<Event>)
    requires OthersKept(was, points, key) && forall i :: 0 <= i < |events| ==> events[i].id.key == key
    ensures OthersKept(was, PutPoints(points, events), key)
  {
    if events != [] {
      PutKeepsOthers(was, points, key, events[..|events| - 1]);
    }
  }

  lemma {:induction false} SeriesPointsStamped(points: map<EventId, Event>, key: SeriesKey, events: seq<Event>, next: nat)
    requires KeyedById(points)
    requires forall i :: 0 <= i < |events| ==> events[i].key == key && events[i].id.key == key && events[i].cursor == 0
    ensures KeyedById(PutPoints(points, Stamped(events, next)))
    ensures SeriesPoints(PutPoints(points, Stamped(events, next)), key) == PutPoints(SeriesPoints(points, key), events)
  {
    if events == [] {
      assert Stamped(events, next) == [];
    } else {
      var rest, e := events[..|events| - 1], events[|events| - 1];
      SeriesPointsStamped(points, key, rest, next);
      StampedInit(events, next);
      var stamped := e.(cursor := next + |events|);
      PutPointsAppend(points, Stamped(rest, next), stamped);
      PutPointsAppend(SeriesPoints(points, key), rest, e);
      assert rest + [e] == events;
      hide PutPoints, Stamped, SeriesPoints;
      SeriesPointsPut(PutPoints(points, Stamped(rest, next)), key, stamped);
      assert Blank(stamped) == e;
    }
  }

  lemma {:induction false} PointMapAppend(config: LaneConfig, history: seq<Bar>, bar: Bar)
    ensures PointMap(config, history + [bar]) ==
            PutPoints(PointMap(config, history), PointsFor(config.key, config.periods,
              ReducersOf(config.periods, history + [bar]), bar))
  {
    assert (history + [bar])[..|history|] == history;
  }

  // ---- The checkpoints after a commit ------------------------------------

  lemma {:induction false} SnapshotsAt(m: map<(SeriesKey, nat), Snapshot>, key: SeriesKey, p: nat)
    ensures p in SnapshotsOf(m, key) <==> (key, p) in m
    ensures (key, p) in m ==> SnapshotsOf(m, key)[p] == m[(key, p)]
  {
    if (key, p) in m {
      assert (key, p).1 == p;
    }
  }

  lemma {:induction false} PutSnapshotsOther(
    m: map<(SeriesKey, nat), Snapshot>, key: SeriesKey, snapshots: seq<Snapshot>, k: (SeriesKey, nat))
    requires k.0 != key || forall i :: 0 <= i < |snapshots| ==> snapshots[i].period != k.1
    ensures k in PutSnapshots(m, key, snapshots) <==> k in m
    ensures k in m ==> PutSnapshots(m, key, snapshots)[k] == m[k]
  {
    if snapshots != [] {
      PutSnapshotsOther(m, key, snapshots[..|snapshots| - 1], k);
    }
  }

  lemma {:induction false} PutSnapshotsOne(m: map<(SeriesKey, nat), Snapshot>, key: SeriesKey, snapshots: seq<Snapshot>, i: nat)
    requires i < |snapshots|
    requires forall a, b :: 0 <= a < b < |snapshots| ==> snapshots[a].period != snapshots[b].period
    ensures (key, snapshots[i].period) in PutSnapshots(m, key, snapshots)
    ensures PutSnapshots(m, key, snapshots)[(key, snapshots[i].period)] == snapshots[i]
  {
    if i < |snapshots| - 1 {
      PutSnapshotsOne(m, key, snapshots[..|snapshots| - 1], i);
    }
  }

  lemma {:induction false} EmaCheckpointList(periods: seq<Period>, reducers: Reducers, time: nat)
    requires forall p :: p in periods ==> p in reducers
    ensures |EmaCheckpoints(periods, reducers, time)| == |periods|
    ensures forall i :: 0 <= i < |periods| ==>
              EmaCheckpoints(periods, reducers, time)[i] ==
                Snapshot(periods[i], time, EmaCheckpoint(TakeSnapshot(reducers[periods[i]])))
  {
    if periods != [] {
      EmaCheckpointList(periods[..|periods| - 1], reducers, time);
    }
  }

  lemma {:induction false} CheckpointStored(config: LaneConfig, m: map<(SeriesKey, nat), Snapshot>, list: seq<Snapshot>, p: nat)
    requires forall a, b :: 0 <= a < b < |list| ==> list[a].period != list[b].period
    ensures var after := SnapshotsOf(PutSnapshots(m, config.key, list), config.key);
            && (forall i :: 0 <= i < |list| && list[i].period == p ==> p in after && after[p] == list[i])
            && ((forall i :: 0 <= i < |list| ==> list[i].period != p) ==>
                  && (p in after <==> p in SnapshotsOf(m, config.key))
                  && (p in after ==> after[p] == SnapshotsOf(m, config.key)[p]))
  {
    hide PutSnapshots, SnapshotsOf;
    SnapshotsAt(PutSnapshots(m, config.key, list), config.key, p);
    SnapshotsAt(m, config.key, p);
    forall i | 0 <= i < |list| && list[i].period == p
      ensures (config.key, p) in PutSnapshots(m, config.key, list) &&
              PutSnapshots(m, config.key, list)[(config.key, p)] == list[i]
    {
      PutSnapshotsOne(m, config.key, list, i);
    }
    if forall i :: 0 <= i < |list| ==> list[i].period != p {
      PutSnapshotsOther(m, config.key, list, (config.key, p));
    }
  }

  lemma {:induction false} CheckpointListOf(config: LaneConfig, history: seq<Bar>, market: MarketReducer, list: seq<Snapshot>)
    requires ValidConfig(config) && history != [] && Tracks(market, history)
    requires list == Checkpoints(config.periods, ReducersOf(config.periods, history), market, history[|history| - 1].time)
    ensures |list| == |config.periods| + 1
    ensures list[|config.periods|].period == 0 && list[|config.periods|] == CheckpointMap(config, history)[0]
    ensures forall i :: 0 <= i < |config.periods| ==>
              list[i].period == config.periods[i] && config.periods[i] in CheckpointMap(config, history)
              && list[i] == CheckpointMap(config, history)[config.periods[i]]
    ensures forall p :: p in CheckpointMap(config, history) <==> p == 0 || p in config.periods
    ensures forall a, b :: 0 <= a < b < |list| ==> list[a].period != list[b].period
  {
    hide EmaOf, Closes, Evaluate, EmaCheckpoints, TakeSnapshot;
    EmaCheckpointList(config.periods, ReducersOf(config.periods, history), history[|history| - 1].time);
  }

  lemma {:induction false} CheckpointsStored(
    config: LaneConfig, m: map<(SeriesKey, nat), Snapshot>, history: seq<Bar>, market: MarketReducer)
    requires ValidConfig(config) && history != [] && Tracks(market, history)
    requires forall p :: p in SnapshotsOf(m, config.key) ==> p in CheckpointMap(config, history)
    ensures var time := history[|history| - 1].time;
            SnapshotsOf(PutSnapshots(m, config.key,
              Checkpoints(config.periods, ReducersOf(config.periods, history), market, time)), config.key)
            == CheckpointMap(config, history)
  {
    hide Tracks, PutSnapshots, SnapshotsOf, Checkpoints, CheckpointMap, ReducersOf, ValidConfig;
    var list := Checkpoints(config.periods, ReducersOf(config.periods, history), market, history[|history| - 1].time);
    CheckpointListOf(config, history, market, list);
    var after, expected := SnapshotsOf(PutSnapshots(m, config.key, list), config.key), CheckpointMap(config, history);
    forall p: nat
      ensures p in after <==> p in expected
      ensures p in expected ==> after[p] == expected[p]
    {
      CheckpointStored(config, m, list, p);
      if p in config.periods {
        var i :| 0 <= i < |config.periods| && config.periods[i] == p;
        assert list[i].period == p;
      } else if p == 0 {
        assert list[|config.periods|].period == p;
      } else {
        forall i | 0 <= i < |list| ensures list[i].period != p {
          assert i < |config.periods| ==> config.periods[i] in config.periods;
        }
      }
    }
    assert after == expected;
  }

  lemma {:induction false} CheckpointKeys(config: LaneConfig, a: seq<Bar>, b: seq<Bar>)
    requires a != [] && b != []
    ensures CheckpointMap(config, a).Keys == CheckpointMap(config, b).Keys
  {
    hide EmaOf, TakeSnapshot;
  }

  /** A new checkpoint replaces the old one completely. */
  lemma {:induction false} NewestCheckpoint(
    config: LaneConfig, s: StoreState, t: StoreState, history: seq<Bar>, bar: Bar, market: MarketReducer)
    requires ValidConfig(config) && CheckpointsFold(config, s, history) && Tracks(market, history + [bar])
    requires t.snapshots == PutSnapshots(s.snapshots, config.key,
               Checkpoints(config.periods, ReducersOf(config.periods, history + [bar]), market, bar.time))
    ensures SeriesSnapshots(t, config.key) == CheckpointMap(config, history + [bar])
  {
    hide Checkpoints, PutSnapshots, CheckpointMap, Tracks, SnapshotsOf, ReducersOf, ValidConfig;
    var all := history + [bar];
    forall p | p in SnapshotsOf(s.snapshots, config.key) ensures p in CheckpointMap(config, all) {
      if SeriesSnapshots(s, config.key) != map[] {
        var k :| 1 <= k <= |history| && SeriesSnapshots(s, config.key) == CheckpointMap(config, history[..k]);
        CheckpointKeys(config, history[..k], all);
        assert p in CheckpointMap(config, history[..k]).Keys;
      }
    }
    CheckpointsStored(config, s.snapshots, all, market);
  }

  lemma {:induction false} NewCheckpoint(
    config: LaneConfig, s: StoreState, t: StoreState, history: seq<Bar>, bar: Bar, market: MarketReducer)
    requires ValidConfig(config) && CheckpointsFold(config, s, history) && Tracks(market, history + [bar])
    requires t.snapshots == PutSnapshots(s.snapshots, config.key,
               Checkpoints(config.periods, ReducersOf(config.periods, history + [bar]), market, bar.time))
    ensures CheckpointsFold(config, t, history + [bar])
  {
    hide Checkpoints, PutSnapshots, CheckpointMap, Tracks, SnapshotsOf, ReducersOf, ValidConfig;
    NewestCheckpoint(config, s, t, history, bar, market);
    assert (history + [bar])[..|history| + 1] == history + [bar];
  }

  /** Without a new checkpoint the old one is still of a prefix. */
  lemma {:induction false} OldCheckpoint(config: LaneConfig, s: StoreState, t: StoreState, history: seq<Bar>, bar: Bar)
    requires CheckpointsFold(config, s, history) && t.snapshots == s.snapshots
    ensures CheckpointsFold(config, t, history + [bar])
  {
    hide CheckpointMap;
    if SeriesSnapshots(s, config.key) != map[] {
      var k :| 1 <= k <= |history| && SeriesSnapshots(s, config.key) == CheckpointMap(config, history[..k]);
      assert (history + [bar])[..k] == history[..k];
    }
  }

  // ---- The whole transaction ---------------------------------------------

  lemma LogKeysById(s: StoreState)
    requires LogInv(s)
    ensures KeyedById(s.points)
  {
  }

  lemma {:induction false} PointsAfterCommit(config: LaneConfig, s: StoreState, history: seq<Bar>, bar: Bar)
    requires ValidConfig(config) && LogInv(s) && SeriesPoints(s.points, config.key) == PointMap(config, history)
    ensures var points := PointsFor(config.key, config.periods, ReducersOf(config.periods, history + [bar]), bar);
            SeriesPoints(PutPoints(s.points, Stamped(points, s.next)), config.key) == PointMap(config, history + [bar])
  {
    var after := ReducersOf(config.periods, history + [bar]);
    var points := PointsFor(config.key, config.periods, after, bar);
    PointsForDistinct(config.key, config.periods, after, bar);
    hide PointMap, PutPoints, Stamped, PointsFor, SeriesPoints, ReducersOf;
    LogKeysById(s);
    forall i | 0 <= i < |points| ensures points[i].key == config.key && points[i].id.key == config.key && points[i].cursor == 0 {
      assert PointOfBar(config.key, bar, points[i]);
    }
    SeriesPointsStamped(s.points, config.key, points, s.next);
    PointMapAppend(config, history, bar);
  }

  lemma {:induction false} CommitAccepted(s: StoreState, key: SeriesKey, bar: Bar, events: seq<Event>, snapshots: seq<Snapshot>)
    requires key in s.cursors ==> s.cursors[key].time < bar.time
    ensures var t := CommitEvents(s, events).0;
            CommitClosed(s, key, bar, events, snapshots) ==
            Accepted(t.(snapshots := PutSnapshots(t.snapshots, key, snapshots), cursors := t.cursors[key := bar]),
              CommitEvents(s, events).1)
  {
    hide CommitEvents, PutSnapshots;
  }

  /** The committed state of a candle, field by field. */
  ghost predicate CommittedFields(
    s: StoreState, t: StoreState, key: SeriesKey, bar: Bar, points: seq<Event>, frame: Event,
    snapshots: seq<Snapshot>) {
    && t.next == s.next + |points| + 1
    && t.events == s.events + (Stamped(points, s.next) + [frame.(cursor := s.next + |points| + 1)])
    && t.points == PutPoints(s.points, Stamped(points, s.next))
    && t.cursors == s.cursors[key := bar]
    && t.snapshots == PutSnapshots(s.snapshots, key, snapshots)
    && t.markets == s.markets[(frame.key, frame.algorithm) := frame.(cursor := s.next + |points| + 1)]
    && t.published == s.published
  }

  lemma {:induction false} CommitFields(
    config: LaneConfig, s: StoreState, bar: Bar, points: seq<Event>, frame: Event, snapshots: seq<Snapshot>)
    requires LogInv(s) && PointList(config.key, config.periods, bar, points) && FrameOf(config.key, bar, frame)
    requires config.key in s.cursors ==> s.cursors[config.key].time < bar.time
    ensures var reply := CommitClosed(s, config.key, bar, points + [frame], snapshots);
            && reply.Accepted? && CommittedFields(s, reply.state, config.key, bar, points, frame, snapshots)
            && reply.state.events == s.events + reply.committed
  {
    hide LogInv, PointList, CommitClosed, CommitEvents, PutSnapshots, Stamped, PutPoints, Points, CandleIsNew;
    PointListIsPoints(config.key, config.periods, bar, points);
    NewerCandle(s, config.key, bar.time);
    CommitPointsAndFrame(s, config.key, config.periods, bar, points, frame);
    CommitAccepted(s, config.key, bar, points + [frame], snapshots);
  }

  lemma {:induction false} CommitKeepsLog(
    config: LaneConfig, s: StoreState, t: StoreState, bar: Bar, points: seq<Event>, frame: Event,
    snapshots: seq<Snapshot>)
    requires LogInv(s) && PointList(config.key, config.periods, bar, points) && FrameOf(config.key, bar, frame)
    requires config.key in s.cursors ==> s.cursors[config.key].time < bar.time
    requires CommittedFields(s, t, config.key, bar, points, frame, snapshots)
    ensures LogInv(t)
  {
    hide LogInv, PointList, PutSnapshots, Stamped, PutPoints, Points, Grows, FrameOf;
    PointListIsPoints(config.key, config.periods, bar, points);
    CommitGrows(s, t, config.key, config.periods, bar, points, frame);
    GrowsKeepsLog(s, t, config.key, bar, Stamped(points, s.next) + [frame.(cursor := s.next + |points| + 1)]);
  }

  /** Committing the next candle extends the durable history by exactly that candle. */
  lemma {:induction false} CommitExtends(
    config: LaneConfig, s: StoreState, history: seq<Bar>, bar: Bar, market: MarketReducer, state: MarketState,
    snapshots: seq<Snapshot>)
    requires ValidConfig(config) && LogInv(s) && StoreFolds(config, s, history)
    requires bar.closed && ValidBar(config.key, bar) && Tracks(market, history + [bar])
    requires config.key in s.cursors ==> s.cursors[config.key].time < bar.time
    requires snapshots == [] ||
             snapshots == Checkpoints(config.periods, ReducersOf(config.periods, history + [bar]), market, bar.time)
    ensures var after := ReducersOf(config.periods, history + [bar]);
            var events := PointsFor(config.key, config.periods, after, bar) + [NewMarketEvent(config, bar, state, after)];
            var reply := CommitClosed(s, config.key, bar, events, snapshots);
            && reply.Accepted?
            && LogInv(reply.state)
            && StoreFolds(config, reply.state, history + [bar])
            && |reply.state.events| == |s.events| + |events|
  {
    var key, after := config.key, ReducersOf(config.periods, history + [bar]);
    PointsForDistinct(key, config.periods, after, bar);
    NewFrame(config, bar, state, after);
    hide LogInv, PointsFor, PointList, CommitClosed, PutSnapshots, Stamped, PutPoints, SeriesPoints, PointMap,
         CheckpointsFold, ReducersOf, Checkpoints, NewMarketEvent, FrameOf, Tracks, ValidConfig, ValidBar, StoreFolds;
    var points, frame := PointsFor(key, config.periods, after, bar), NewMarketEvent(config, bar, state, after);
    CommitFields(config, s, bar, points, frame, snapshots);
    var t := CommitClosed(s, key, bar, points + [frame], snapshots).state;
    CommitKeepsLog(config, s, t, bar, points, frame, snapshots);
    CommitFolds(config, s, t, history, bar, market, points, frame, snapshots);
  }

  lemma {:induction false} CommitFolds(
    config: LaneConfig, s: StoreState, t: StoreState, history: seq<Bar>, bar: Bar, market: MarketReducer,
                    points: seq<Event>, frame: Event, snapshots: seq<Snapshot>)
    requires ValidConfig(config) && LogInv(s) && StoreFolds(config, s, history)
    requires bar.closed && ValidBar(config.key, bar) && Tracks(market, history + [bar])
    requires points == PointsFor(config.key, config.periods, ReducersOf(config.periods, history + [bar]), bar)
    requires snapshots == [] ||
             snapshots == Checkpoints(config.periods, ReducersOf(config.periods, history + [bar]), market, bar.time)
    requires CommittedFields(s, t, config.key, bar, points, frame, snapshots)
    ensures StoreFolds(config, t, history + [bar])
  {
    hide LogInv, PointsFor, PutSnapshots, Stamped, PutPoints, SeriesPoints, PointMap, CheckpointsFold, ReducersOf,
         Checkpoints, Tracks, ValidConfig, ValidBar;
    PointsAfterCommit(config, s, history, bar);
    if snapshots == [] {
      NoSnapshots(s.snapshots, config.key);
      OldCheckpoint(config, s, t, history, bar);
    } else {
      NewCheckpoint(config, s, t, history, bar, market);
    }
  }

  lemma NewFrame(config: LaneConfig, bar: Bar, state: MarketState, reducers: Reducers)
    ensures FrameOf(config.key, bar, NewMarketEvent(config, bar, state, reducers))
  {
  }

  lemma NoSnapshots(m: map<(SeriesKey, nat), Snapshot>, key: SeriesKey)
    ensures PutSnapshots(m, key, []) == m
  {
  }

  // ---- Committing twice --------------------------------------------------

  /** Log entries have cursors, points that have one are in the log, and only points have point
      identities. */
  ghost predicate Logged(s: StoreState) {
    && (forall e :: e in s.events ==> e.cursor > 0)
    && (forall id :: id in s.points ==> id.PointId? && (s.points[id].cursor > 0 ==> exists e :: e in s.events && e.id == id))
  }

  predicate WellKinded(event: Event) { event.kind == PointEvent <==> event.id.PointId? }

  /** The store would hand back a committed event for this identity. */
  predicate Known(s: StoreState, id: EventId) {
    EventById(s, id).Some? && EventById(s, id).value.cursor > 0
  }

  lemma {:induction false} InLogIsKnown(s: StoreState, id: EventId)
    requires forall e :: e in s.events ==> e.cursor > 0
    requires id !in s.points && exists e :: e in s.events && e.id == id
    ensures Known(s, id)
  {
  }

  /** From `s` to `t` one event was logged, and stored if it is a point. */
  ghost predicate Adds(s: StoreState, t: StoreState, event: Event) {
    && event.cursor > 0
    && t.events == s.events + [event]
    && (event.kind == PointEvent ==> event.id in t.points && t.points[event.id] == event)
    && (forall id :: id in t.points && (event.kind == MarketEvent || id != event.id) ==>
          id in s.points && t.points[id] == s.points[id])
  }

  lemma {:induction false} CommitAdds(s: StoreState, event: Event)
    ensures if Known(s, event.id) then CommitEvent(s, event).0 == s
            else Adds(s, CommitEvent(s, event).0, event.(cursor := s.next + 1))
  {
    hide FindInLog;
  }

  lemma {:induction false} AddsLogged(s: StoreState, t: StoreState, event: Event)
    requires Logged(s) && WellKinded(event) && Adds(s, t, event)
    ensures Logged(t) && event in t.events && forall e :: e in s.events ==> e in t.events
  {
    assert t.events[|s.events|] == event;
    forall id | id in t.points && t.points[id].cursor > 0 ensures exists e :: e in t.events && e.id == id {
      if event.kind == PointEvent && id == event.id {
        assert event in t.events;
      } else {
        var e :| e in s.events && e.id == id;
        assert e in t.events;
      }
    }
  }

  lemma {:induction false} AddsKnown(s: StoreState, t: StoreState, event: Event, id: EventId)
    requires Logged(s) && WellKinded(event) && Adds(s, t, event) && (id == event.id || Known(s, id))
    ensures Known(t, id)
  {
    hide FindInLog;
    AddsLogged(s, t, event);
    if id !in t.points {
      if id != event.id {
        KnownInLog(s, id);
      }
      InLogIsKnown(t, id);
    }
  }

  lemma {:induction false} KnownInLog(s: StoreState, id: EventId)
    requires Logged(s) && Known(s, id)
    ensures exists e :: e in s.events && e.id == id
  {
    if id !in s.points {
      assert FindInLog(s.events, id).value in s.events;
    }
  }

  /** What has been committed stays known, and the event itself becomes known. */
  lemma {:induction false} CommitMakesKnown(s: StoreState, event: Event, id: EventId)
    requires Logged(s) && WellKinded(event)
    ensures var t := CommitEvent(s, event).0;
            Logged(t) && Known(t, event.id) && (Known(s, id) ==> Known(t, id))
  {
    hide Known, Logged, CommitEvent, Adds;
    CommitAdds(s, event);
    if !Known(s, event.id) {
      var t, stamped := CommitEvent(s, event).0, event.(cursor := s.next + 1);
      AddsLogged(s, t, stamped);
      AddsKnown(s, t, stamped, event.id);
      if Known(s, id) {
        AddsKnown(s, t, stamped, id);
      }
    }
  }

  lemma {:induction false} CommitsMakeKnown(s: StoreState, events: seq<Event>)
    requires Logged(s) && forall e :: e in events ==> WellKinded(e)
    ensures var t := CommitEvents(s, events).0;
            Logged(t) && forall e :: e in events ==> Known(t, e.id)
  {
    if events != [] {
      hide Logged, Known, CommitEvent;
      var rest, last := events[..|events| - 1], events[|events| - 1];
      CommitsMakeKnown(s, rest);
      var t := CommitEvents(s, rest).0;
      forall e | e in events ensures Known(CommitEvent(t, last).0, e.id) {
        CommitMakesKnown(t, last, e.id);
      }
      CommitMakesKnown(t, last, last.id);
    }
  }

  lemma {:induction false} KnownChangesNothing(s: StoreState, events: seq<Event>)
    requires forall e :: e in events ==> Known(s, e.id)
    ensures CommitEvents(s, events).0 == s
    ensures forall e :: e in CommitEvents(s, events).1 ==> e.cursor > 0
  {
    if events != [] {
      KnownChangesNothing(s, events[..|events| - 1]);
    }
  }

  /** Committing the same events again changes nothing and reports events already in the log. */
  lemma {:induction false} CommitIsIdempotent(s: StoreState, events: seq<Event>)
    requires Logged(s) && forall e :: e in events ==> WellKinded(e)
    ensures var t := CommitEvents(s, events).0;
            CommitEvents(t, events).0 == t && forall e :: e in CommitEvents(t, events).1 ==> e.cursor > 0
  {
    hide Logged, Known, CommitEvents;
    CommitsMakeKnown(s, events);
    KnownChangesNothing(CommitEvents(s, events).0, events);
  }

  lemma {:induction false} RebuildStaysLogged(s: StoreState, events: seq<Event>)
    requires Logged(s) && forall e :: e in events ==> WellKinded(e) && e.cursor == 0
    ensures Logged(RebuildEvents(s, events))
  {
    if events != [] {
      RebuildStaysLogged(s, events[..|events| - 1]);
      RebuildOneLogged(RebuildEvents(s, events[..|events| - 1]), events[|events| - 1]);
    }
  }

  lemma {:induction false} RebuildOneLogged(s: StoreState, event: Event)
    requires Logged(s) && WellKinded(event) && event.cursor == 0
    ensures Logged(RebuildEvent(s, event))
  {
    var t := RebuildEvent(s, event);
    assert forall e :: e in s.events ==> e in t.events;
  }

  /** Both transactions keep the log and the points so. */
  lemma {:induction false} TransactionsStayLogged(
    s: StoreState, key: SeriesKey, bar: Bar, last: Option<Bar>, events: seq<Event>, snapshots: seq<Snapshot>)
    requires Logged(s) && forall e :: e in events ==> WellKinded(e)
    ensures var commit := CommitClosed(s, key, bar, events, snapshots);
            commit.Accepted? ==> Logged(commit.state)
    ensures var rebuild := RebuildSeries(s, key, events, snapshots, last);
            rebuild.Accepted? && (forall e :: e in events ==> e.cursor == 0) ==> Logged(rebuild.state)
  {
    hide CommitEvents, RebuildEvents, PutSnapshots, FingerprintOf;
    CommitsMakeKnown(s, events);
    if forall e :: e in events ==> e.cursor == 0 {
      RebuildStaysLogged(Wipe(s, key), events);
    }
  }
}
