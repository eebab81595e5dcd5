/** What a lane and a store must hold for a given history of applied candles. */
module Fold {
  import opened Model
  import opened Ema
  import opened Market
  import opened Store
  import opened Lane

  // ---- The lane as a fold of its history ---------------------------------

  function ReducersOf(periods: seq<Period>, history: seq<Bar>): Reducers {
    map p | p in periods :: EmaOf(p, Closes(history))
  }

  function LastOf(history: seq<Bar>): Option<Bar> {
    if history == [] then None else Some(history[|history| - 1])
  }

  /** Every canonical field of a lane is a function of the candles applied. */
  ghost predicate LaneFolds(config: LaneConfig, lane: LaneState, history: seq<Bar>) {
    && lane.reducers == ReducersOf(config.periods, history)
    && Tracks(lane.market, history)
    && lane.lastBar == LastOf(history)
    && lane.closedCount == |history|
    && (history != [] ==> lane.lastRevision == RevisionForBar(history[|history| - 1]))
  }

  lemma {:induction false} FoldsLast(config: LaneConfig, lane: LaneState, history: seq<Bar>)
    requires LaneFolds(config, lane, history)
    ensures lane.lastBar == LastOf(history)
  {
    hide ReducersOf, Tracks;
  }

  lemma ClosesAppend(history: seq<Bar>, bar: Bar)
    ensures Closes(history + [bar]) == Closes(history) + [bar.close]
  {
  }

  lemma {:induction false} EmaAppend(p: Period, history: seq<Bar>, bar: Bar)
    ensures EmaOf(p, Closes(history + [bar])) == Advance(EmaOf(p, Closes(history)), bar.close)
  {
    ClosesAppend(history, bar);
    EmaUnfold(p, Closes(history) + [bar.close]);
    assert (Closes(history) + [bar.close])[..|history|] == Closes(history);
    hide EmaOf;
  }

  lemma {:induction false} AdvancedReducers(periods: seq<Period>, history: seq<Bar>, bar: Bar)
    ensures Advanced(ReducersOf(periods, history), bar.close) == ReducersOf(periods, history + [bar])
  {
    hide EmaOf, Advance, Closes;
    forall p | p in periods
      ensures EmaOf(p, Closes(history + [bar])) == Advance(EmaOf(p, Closes(history)), bar.close)
    {
      EmaAppend(p, history, bar);
    }
  }

  lemma {:induction false} CloneIsIdentity(periods: seq<Period>, history: seq<Bar>)
    ensures CloneReducers(periods, ReducersOf(periods, history)) == Some(ReducersOf(periods, history))
  {
    hide EmaOf, Closes, Restored, TakeSnapshot;
    forall p | p in periods
      ensures Restored(NewEma(p), TakeSnapshot(EmaOf(p, Closes(history)))) == Some(EmaOf(p, Closes(history)))
    {
      SnapshotRoundTrip(p, Closes(history));
    }
    var source := ReducersOf(periods, history);
    assert (map p | p in periods :: Restored(NewEma(p), TakeSnapshot(source[p])).value) == source;
  }

  lemma {:induction false} NewLaneFolds(config: LaneConfig)
    ensures LaneFolds(config, NewLane(config), [])
  {
    EvaluateNothing();
    hide Evaluate;
    assert forall p: Period :: EmaOf(p, Closes([])) == NewEma(p);
  }

  /** The lane a closed candle leads to folds one more candle. */
  lemma {:induction false} AdvancingFolds(config: LaneConfig, lane: LaneState, history: seq<Bar>, bar: Bar)
    requires LaneFolds(config, lane, history)
    ensures LaneFolds(config,
              Advancing(Advanced(ReducersOf(config.periods, history), bar.close), CloseBar(lane.market, bar), bar, |history| + 1),
              history + [bar])
  {
    hide CloseBar, Tracks, ReducersOf, Advanced;
    AdvancedReducers(config.periods, history, bar);
    CloseBarTracks(lane.market, history, bar);
  }

  /** What an indicator says of a period after a history. */
  function IndicatorAt(p: Period, history: seq<Bar>): Indicator {
    var ready := |history| >= p;
    Indicator(p, if ready then Some(EmaOf(p, Closes(history)).value) else None, |history|, ready)
  }

  /** A frame of reducers that fold a history reports one indicator per period, in period order,
      each with the history's length and, once warm, the from-scratch average. */
  lemma {:induction false} FrameReportsFold(config: LaneConfig, bar: Bar, state: MarketState, history: seq<Bar>)
    ensures var frame := NewMarketEvent(config, bar, state, ReducersOf(config.periods, history));
            && |frame.indicators| == |config.periods|
            && (forall i :: 0 <= i < |config.periods| ==> frame.indicators[i] == IndicatorAt(config.periods[i], history))
            && frame.sourceBar == bar && frame.barTime == bar.time && frame.market == Some(state)
  {
    hide EmaOf, Closes;
    IndicatorList(config.periods, config.periods, history);
  }

  lemma {:induction false} IndicatorList(periods: seq<Period>, all: seq<Period>, history: seq<Bar>)
    requires forall p :: p in periods ==> p in all
    ensures |IndicatorsOf(periods, ReducersOf(all, history))| == |periods|
    ensures forall i :: 0 <= i < |periods| ==>
              IndicatorsOf(periods, ReducersOf(all, history))[i] == IndicatorAt(periods[i], history)
  {
    hide EmaOf, Closes;
    if periods != [] {
      IndicatorList(periods[..|periods| - 1], all, history);
    }
  }

  // ---- Points ------------------------------------------------------------

  /** The identity of the point of candle `i` for a period. */
  function PointIdAt(key: SeriesKey, bar: Bar, p: Period): EventId {
    PointId(key, bar.time, EmaAlgorithm(p), p, false, RevisionForBar(bar))
  }

  /** The point a from-scratch computation over the first `i + 1` candles yields. */
  function PointAt(key: SeriesKey, history: seq<Bar>, i: nat, p: Period): Event
    requires i < |history|
  {
    var bar, revision := history[i], RevisionForBar(history[i]);
    Event(0, PointIdAt(key, bar, p), PointEvent, key, bar.time, bar, revision, false, false, [],
          AlgorithmRef("ema", EmaConfig(p)), p, EmaOf(p, Closes(history[..i + 1])).value, i + 1, None, [])
  }

  function PutPoints(m: map<EventId, Event>, events: seq<Event>): map<EventId, Event> {
    if events == [] then m
    else PutPoints(m, events[..|events| - 1])[events[|events| - 1].id := events[|events| - 1]]
  }

  /** Every point of a history, without cursors. */
  function PointMap(config: LaneConfig, history: seq<Bar>): map<EventId, Event> {
    if history == [] then map[]
    else
      PutPoints(PointMap(config, history[..|history| - 1]),
                PointsFor(config.key, config.periods, ReducersOf(config.periods, history), history[|history| - 1]))
  }

  function Blank(e: Event): Event { e.(cursor := 0) }

  /** The stored points of a series, with their cursors blanked. */
  function SeriesPoints(points: map<EventId, Event>, key: SeriesKey): map<EventId, Event> {
    map id | id in points && points[id].key == key :: Blank(points[id])
  }

  // ---- Checkpoints -------------------------------------------------------

  function SeriesSnapshots(s: StoreState, key: SeriesKey): map<nat, Snapshot> {
    SnapshotsOf(s.snapshots, key)
  }

  /** The checkpoints of every reducer after a non-empty history. */
  function CheckpointMap(config: LaneConfig, history: seq<Bar>): map<nat, Snapshot>
    requires history != []
  {
    var time := history[|history| - 1].time;
    (map p | p in config.periods :: (p as nat) := Snapshot(p, time, EmaCheckpoint(TakeSnapshot(EmaOf(p, Closes(history))))))
    [0 := Snapshot(0, time, MarketCheckpoint(MarketSnapshot(|history|, Suffix(history, HISTORY_LIMIT))))]
  }

  /** No checkpoint, or all of them at one shared prefix of the history. */
  ghost predicate CheckpointsFold(config: LaneConfig, s: StoreState, history: seq<Bar>) {
    || SeriesSnapshots(s, config.key) == map[]
    || exists k :: 1 <= k <= |history| && SeriesSnapshots(s, config.key) == CheckpointMap(config, history[..k])
  }

  // ---- The store as a fold of the durable history ------------------------

  /** Cursor, points and checkpoints of a series are functions of one history. With an empty
      history a cursor may be left over from a series that was wiped by an empty seed. */
  ghost predicate StoreFolds(config: LaneConfig, s: StoreState, history: seq<Bar>) {
    && (history != [] ==> config.key in s.cursors && s.cursors[config.key] == history[|history| - 1])
    && (config.key in s.cursors ==> s.cursors[config.key].closed && ValidBar(config.key, s.cursors[config.key]))
    && SeriesPoints(s.points, config.key) == PointMap(config, history)
    && CheckpointsFold(config, s, history)
  }

  lemma {:induction false} CursorThere(config: LaneConfig, store: StoreState, history: seq<Bar>)
    requires StoreFolds(config, store, history) && history != []
    ensures config.key in store.cursors && store.cursors[config.key] == history[|history| - 1]
  {
    hide SeriesPoints, PointMap, CheckpointsFold;
  }

  // ---- What the point map holds ------------------------------------------

  predicate HasPoint(config: LaneConfig, history: seq<Bar>, i: nat, p: Period) {
    i < |history| && p in config.periods && i + 1 >= p
  }

  lemma {:induction false} PointsForMembers(key: SeriesKey, periods: seq<Period>, after: Reducers, bar: Bar)
    requires forall p :: p in periods ==> p in after
    ensures forall p :: p in periods && after[p].Ready() ==>
              NewPoint(key, bar, p, after[p].samples, after[p].value, false) in PointsFor(key, periods, after, bar)
    ensures forall e :: e in PointsFor(key, periods, after, bar) ==>
              exists p :: p in periods && after[p].Ready() && e == NewPoint(key, bar, p, after[p].samples, after[p].value, false)
  {
    hide NewPoint;
    if periods != [] {
      var rest, q := periods[..|periods| - 1], periods[|periods| - 1];
      assert forall p :: p in periods <==> p in rest || p == q;
      PointsForMembers(key, rest, after, bar);
    }
  }

  ghost predicate DistinctEvents(events: seq<Event>) {
    forall i, j :: 0 <= i < j < |events| ==> events[i].id != events[j].id
  }

  lemma {:induction false} PutPointsNew(m: map<EventId, Event>, events: seq<Event>, e: Event)
    requires DistinctEvents(events) && e in events
    ensures e.id in PutPoints(m, events) && PutPoints(m, events)[e.id] == e
  {
    var rest, last := events[..|events| - 1], events[|events| - 1];
    if e != last {
      var k :| 0 <= k < |events| && events[k] == e;
      assert rest[k] == e;
      assert events[k].id != last.id;
      PutPointsNew(m, rest, e);
    }
  }

  lemma {:induction false} PutPointsOld(m: map<EventId, Event>, events: seq<Event>, id: EventId)
    requires forall e :: e in events ==> e.id != id
    ensures id in PutPoints(m, events) <==> id in m
    ensures id in m ==> PutPoints(m, events)[id] == m[id]
  {
    if events != [] {
      PutPointsOld(m, events[..|events| - 1], id);
    }
  }

  /** A point of one candle: its identity and fields follow from the candle and the period. */
  predicate PointOfBar(key: SeriesKey, bar: Bar, e: Event) {
    && e.kind == PointEvent && e.key == key && e.barTime == bar.time && e.revision == RevisionForBar(bar)
    && e.period >= 1 && e.algorithm == EmaAlgorithm(e.period) && !e.provisional && !e.reset && e.cursor == 0
    && e.id == PointIdAt(key, bar, e.period)
  }

  /** Points of one candle for some of the periods, in increasing period order. */
  predicate PointList(key: SeriesKey, periods: seq<Period>, bar: Bar, events: seq<Event>) {
    && (forall i :: 0 <= i < |events| ==> PointOfBar(key, bar, events[i]) && events[i].period in periods)
    && (forall i, j :: 0 <= i < j < |events| ==> events[i].period < events[j].period)
  }

  lemma {:induction false} PointListGrows(
    key: SeriesKey, periods: seq<Period>, q: Period, bar: Bar, events: seq<Event>, more: seq<Event>)
    requires PointList(key, periods, bar, events)
    requires forall k :: 0 <= k < |periods| ==> periods[k] < q
    requires |more| <= 1 && forall i :: 0 <= i < |more| ==> PointOfBar(key, bar, more[i]) && more[i].period == q
    ensures PointList(key, periods + [q], bar, events + more)
  {
    hide PointOfBar;
    forall i | 0 <= i < |events| ensures events[i].period < q && events[i].period in periods + [q] {
      assert events[i].period in periods;
    }
    assert q in periods + [q];
  }

  lemma {:induction false} PointsForDistinct(key: SeriesKey, periods: seq<Period>, after: Reducers, bar: Bar)
    requires forall i, j :: 0 <= i < j < |periods| ==> periods[i] < periods[j]
    ensures PointList(key, periods, bar, PointsFor(key, periods, after, bar))
  {
    if periods != [] {
      var rest, q := periods[..|periods| - 1], periods[|periods| - 1];
      PointsForDistinct(key, rest, after, bar);
      var head := PointsFor(key, rest, after, bar);
      var more := PointsFor(key, periods, after, bar)[|head|..];
      assert PointsFor(key, periods, after, bar) == head + more;
      assert rest + [q] == periods;
      PointListGrows(key, rest, q, bar, head, more);
    }
  }

  /** The point map holds exactly one point per candle and warmed-up period, valued at the
      from-scratch average. */
  ghost predicate ExactPoints(config: LaneConfig, m: map<EventId, Event>, history: seq<Bar>) {
    && (forall i: nat, p: Period :: HasPoint(config, history, i, p) ==>
          PointIdAt(config.key, history[i], p) in m
          && m[PointIdAt(config.key, history[i], p)] == PointAt(config.key, history, i, p))
    && (forall id :: id in m ==> exists i: nat, p: Period ::
          HasPoint(config, history, i, p) && id == PointIdAt(config.key, history[i], p))
  }

  lemma {:induction false} PointAtPrefix(key: SeriesKey, history: seq<Bar>, bar: Bar, i: nat, p: Period)
    requires i < |history|
    ensures PointAt(key, history + [bar], i, p) == PointAt(key, history, i, p)
  {
    assert (history + [bar])[..i + 1] == history[..i + 1];
  }

  lemma {:induction false} NewestPoint(config: LaneConfig, history: seq<Bar>, bar: Bar, p: Period)
    requires p in config.periods
    ensures var after := ReducersOf(config.periods, history + [bar]);
            && (after[p].Ready() <==> |history| + 1 >= p)
            && NewPoint(config.key, bar, p, after[p].samples, after[p].value, false)
               == PointAt(config.key, history + [bar], |history|, p)
  {
    hide EmaOf;
    assert (history + [bar])[..|history| + 1] == history + [bar];
  }

  lemma OtherCandle(config: LaneConfig, bar: Bar, older: Bar, p: Period, events: seq<Event>)
    requires PointList(config.key, config.periods, bar, events) && older.time != bar.time
    ensures forall e :: e in events ==> e.id != PointIdAt(config.key, older, p)
  {
  }

  lemma DistinctIds(key: SeriesKey, periods: seq<Period>, bar: Bar, events: seq<Event>)
    requires PointList(key, periods, bar, events)
    ensures DistinctEvents(events)
  {
  }

  lemma {:induction false} ExactPointsStep(config: LaneConfig, m: map<EventId, Event>, history: seq<Bar>, bar: Bar)
    requires ValidConfig(config) && StrictlyIncreasing(history + [bar]) && ExactPoints(config, m, history)
    ensures ExactPoints(config,
              PutPoints(m, PointsFor(config.key, config.periods, ReducersOf(config.periods, history + [bar]), bar)),
              history + [bar])
  {
    hide ReducersOf, PutPoints, PointsFor, PointAt, PointIdAt, StrictlyIncreasing;
    var all, after := history + [bar], ReducersOf(config.periods, history + [bar]);
    var grown := PutPoints(m, PointsFor(config.key, config.periods, after, bar));
    forall i: nat, p: Period | HasPoint(config, all, i, p)
      ensures PointIdAt(config.key, all[i], p) in grown
      ensures grown[PointIdAt(config.key, all[i], p)] == PointAt(config.key, all, i, p)
    {
      PointIsThere(config, m, history, bar, i, p);
    }
    forall id | id in grown
      ensures exists i: nat, p: Period :: HasPoint(config, all, i, p) && id == PointIdAt(config.key, all[i], p)
    {
      var i, p := PointIsExpected(config, m, history, bar, id);
    }
  }

  lemma {:induction false} PointIsThere(
    config: LaneConfig, m: map<EventId, Event>, history: seq<Bar>, bar: Bar, i: nat, p: Period)
    requires ValidConfig(config) && StrictlyIncreasing(history + [bar]) && ExactPoints(config, m, history)
    requires HasPoint(config, history + [bar], i, p)
    ensures var all := history + [bar];
            var grown := PutPoints(m, PointsFor(config.key, config.periods, ReducersOf(config.periods, all), bar));
            && PointIdAt(config.key, all[i], p) in grown
            && grown[PointIdAt(config.key, all[i], p)] == PointAt(config.key, all, i, p)
  {
    var all, after := history + [bar], ReducersOf(config.periods, history + [bar]);
    var events := PointsFor(config.key, config.periods, after, bar);
    PointsForDistinct(config.key, config.periods, after, bar);
    hide PutPoints, PointsFor, NewPoint, PointAt, PointIdAt, PointList, EmaOf;
    if i < |history| {
      assert HasPoint(config, history, i, p);
      PointAtPrefix(config.key, history, bar, i, p);
      assert all[i].time < all[|history|].time;
      OtherCandle(config, bar, all[i], p, events);
      PutPointsOld(m, events, PointIdAt(config.key, all[i], p));
    } else {
      NewestPoint(config, history, bar, p);
      PointAtId(config.key, all, i, p);
      PointsForMembers(config.key, config.periods, after, bar);
      DistinctIds(config.key, config.periods, bar, events);
      PutPointsNew(m, events, PointAt(config.key, all, i, p));
    }
  }

  lemma {:induction false} PointIsExpected(config: LaneConfig, m: map<EventId, Event>, history: seq<Bar>, bar: Bar, id: EventId)
    returns (i: nat, p: Period)
    requires ValidConfig(config) && ExactPoints(config, m, history)
    requires id in PutPoints(m, PointsFor(config.key, config.periods, ReducersOf(config.periods, history + [bar]), bar))
    ensures HasPoint(config, history + [bar], i, p) && id == PointIdAt(config.key, (history + [bar])[i], p)
  {
    hide PutPoints, PointsFor, NewPoint, PointAt, PointIdAt, PointList, EmaOf;
    var all, after := history + [bar], ReducersOf(config.periods, history + [bar]);
    var events := PointsFor(config.key, config.periods, after, bar);
    if exists e :: e in events && e.id == id {
      var e :| e in events && e.id == id;
      PointsForMembers(config.key, config.periods, after, bar);
      p :| p in config.periods && after[p].Ready() && e == NewPoint(config.key, bar, p, after[p].samples, after[p].value, false);
      i := |history|;
      NewestPoint(config, history, bar, p);
      PointAtId(config.key, all, |history|, p);
    } else {
      PutPointsOld(m, events, id);
      i, p :| HasPoint(config, history, i, p) && id == PointIdAt(config.key, history[i], p);
    }
  }

  lemma PointAtId(key: SeriesKey, history: seq<Bar>, i: nat, p: Period)
    requires i < |history|
    ensures PointAt(key, history, i, p).id == PointIdAt(key, history[i], p)
  {
  }

  /** Materialised points agree with recomputation, for every history. */
  lemma {:induction false} PointMapIsExact(config: LaneConfig, history: seq<Bar>)
    requires ValidConfig(config) && StrictlyIncreasing(history)
    ensures ExactPoints(config, PointMap(config, history), history)
  {
    hide ExactPoints, PutPoints, PointsFor, ReducersOf, ValidConfig;
    if history == [] {
      NothingIsExact(config);
    } else {
      var rest, bar := history[..|history| - 1], history[|history| - 1];
      assert rest + [bar] == history;
      PointMapIsExact(config, rest);
      ExactPointsStep(config, PointMap(config, rest), rest, bar);
    }
  }

  lemma NothingIsExact(config: LaneConfig)
    ensures ExactPoints(config, map[], [])
  {
  }
}
