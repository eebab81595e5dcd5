/** The lane as an object over the store (internal/engine/lane.go:193-653). Every command is
    proved to be the step function of the same name; store failures are inputs. Reducers are
    objects advanced in place, so that commands work on clones is what keeps a failed one from
    touching the lane. */
module LaneObject {
  import opened Model
  import opened Ema
  import opened Market
  import opened Store
  import opened Lane

  // ---- Reducer objects ---------------------------------------------------

  type Averages = map<Period, EMA>

  function StatesOf(objects: Averages): (r: Reducers)
    reads objects.Values
    ensures r.Keys == objects.Keys
  {
    map p | p in objects :: objects[p].State()
  }

  /** One object per configured period; being of different periods they are different objects. */
  predicate OnePerPeriod(config: LaneConfig, objects: Averages) {
    && objects.Keys == PeriodSet(config.periods)
    && (forall p :: p in objects ==> objects[p].period == p)
  }

  /** What `objects` hold, position by position. */
  ghost predicate Hold(periods: seq<Period>, objects: Averages, lo: nat, hi: nat, states: Reducers)
    requires hi <= |periods|
    reads objects.Values
  {
    forall k :: lo <= k < hi ==>
      periods[k] in objects && periods[k] in states && objects[periods[k]].State() == states[periods[k]]
  }

  lemma {:induction false} HoldAll(config: LaneConfig, objects: Averages, states: Reducers)
    requires OnePerPeriod(config, objects) && states.Keys == objects.Keys
    requires Hold(config.periods, objects, 0, |config.periods|, states)
    ensures StatesOf(objects) == states
  {
    forall p | p in objects ensures objects[p].State() == states[p] {
      assert p in PeriodSet(config.periods);
      var k :| 0 <= k < |config.periods| && config.periods[k] == p;
    }
  }

  lemma {:induction false} HoldOwn(config: LaneConfig, objects: Averages)
    requires OnePerPeriod(config, objects)
    ensures Hold(config.periods, objects, 0, |config.periods|, StatesOf(objects))
  {
    forall k | 0 <= k < |config.periods| ensures config.periods[k] in objects {
      assert config.periods[k] in config.periods;
    }
  }

  method MakeReducers(config: LaneConfig) returns (objects: Averages)
    requires ValidConfig(config)
    ensures OnePerPeriod(config, objects) && StatesOf(objects) == NewReducers(config.periods)
    ensures fresh(objects.Values)
  {
    hide ValidConfig, PeriodSet, NewReducers;
    objects := map[];
    ghost var states := NewReducers(config.periods);
    PeriodSetNone();
    for i := 0 to |config.periods|
      invariant forall p :: p in objects ==> fresh(objects[p]) && objects[p].period == p
      invariant objects.Keys == PeriodSet(config.periods[..i])
      invariant Hold(config.periods, objects, 0, i, states)
    {
      Increasing(config, i);
      PeriodSetPush(config.periods, i);
      NewAt(config.periods, i);
      var e := new EMA(config.periods[i]);
      objects := objects[config.periods[i] := e];
    }
    assert config.periods[..|config.periods|] == config.periods;
    NewKeys(config.periods);
    HoldAll(config, objects, states);
  }

  lemma PeriodSetNone()
    ensures forall periods: seq<Period> :: PeriodSet(periods[..0]) == {}
  {
  }

  lemma NewKeys(periods: seq<Period>)
    ensures NewReducers(periods).Keys == PeriodSet(periods)
  {
  }

  lemma {:induction false} PeriodSetPush(periods: seq<Period>, i: nat)
    requires i < |periods|
    ensures PeriodSet(periods[..i + 1]) == PeriodSet(periods[..i]) + {periods[i]}
  {
    assert periods[..i + 1] == periods[..i] + [periods[i]];
  }

  /** Clones every reducer through its snapshot; the originals are not touched. */
  method CloneOfReducers(config: LaneConfig, source: Averages) returns (ok: bool, objects: Averages)
    requires ValidConfig(config) && OnePerPeriod(config, source)
    ensures ok == CloneReducers(config.periods, StatesOf(source)).Some?
    ensures ok ==> OnePerPeriod(config, objects) && fresh(objects.Values)
    ensures ok ==> StatesOf(objects) == CloneReducers(config.periods, StatesOf(source)).value
  {
    hide Restored, TakeSnapshot, ValidConfig, CloneReducers, StatesOf, NewReducers, OnePerPeriod;
    ghost var states := StatesOf(source);
    HoldOwn(config, source);
    objects := MakeReducers(config);
    HoldOwn(config, objects);
    for i := 0 to |config.periods|
      invariant OnePerPeriod(config, objects) && fresh(objects.Values)
      invariant Hold(config.periods, source, 0, |config.periods|, states)
      invariant Cloned(config.periods, objects, i, states)
      invariant Hold(config.periods, objects, i, |config.periods|, NewReducers(config.periods))
    {
      OthersDiffer(config, objects, i);
      NewAt(config.periods, i);
      assert config.periods[i] in source && source[config.periods[i]].State() == states[config.periods[i]];
      var snapshot := source[config.periods[i]].Snapshot();
      assert objects[config.periods[i]] in objects.Values;
      ok := objects[config.periods[i]].Restore(snapshot);
      if !ok {
        CloneFails(config.periods, states, i);
        return;
      }
    }
    ok := true;
    SameKeys(config, source, objects);
    ClonedStates(config, objects, states);
  }

  lemma SameKeys(config: LaneConfig, a: Averages, b: Averages)
    requires OnePerPeriod(config, a) && OnePerPeriod(config, b)
    ensures a.Keys == b.Keys
  {
  }

  lemma {:induction false} OthersDiffer(config: LaneConfig, objects: Averages, i: nat)
    requires ValidConfig(config) && OnePerPeriod(config, objects) && i < |config.periods|
    ensures config.periods[i] in objects
    ensures forall k :: 0 <= k < |config.periods| && k != i ==>
              config.periods[k] in objects && objects[config.periods[k]] != objects[config.periods[i]]
  {
    Increasing(config, i);
    forall k | 0 <= k < |config.periods| ensures config.periods[k] in objects {
      assert config.periods[k] in config.periods;
    }
  }

  /** The first reducers carry the state their originals' snapshots restore to. */
  ghost predicate Cloned(periods: seq<Period>, objects: Averages, hi: nat, states: Reducers)
    requires hi <= |periods|
    reads objects.Values
  {
    forall k :: 0 <= k < hi ==> periods[k] in objects && periods[k] in states
                                && Restored(NewEma(periods[k]), TakeSnapshot(states[periods[k]])) ==
                                  Some(objects[periods[k]].State())
  }

  lemma NewAt(periods: seq<Period>, i: nat)
    requires i < |periods|
    ensures periods[i] in NewReducers(periods) && NewReducers(periods)[periods[i]] == NewEma(periods[i])
  {
  }

  lemma {:induction false} CloneFails(periods: seq<Period>, states: Reducers, i: nat)
    requires i < |periods| && periods[i] in states && Restored(NewEma(periods[i]), TakeSnapshot(states[periods[i]])).None?
    ensures CloneReducers(periods, states).None?
  {
    hide Restored, TakeSnapshot;
    assert periods[i] in periods;
  }

  lemma Positive(config: LaneConfig)
    requires ValidConfig(config)
    ensures config.snapshotEvery > 0
  {
  }

  lemma Increasing(config: LaneConfig, i: nat)
    requires ValidConfig(config) && i < |config.periods|
    ensures forall k :: 0 <= k < |config.periods| && k != i ==> config.periods[k] != config.periods[i]
  {
  }

  lemma {:induction false} ClonedStates(config: LaneConfig, objects: Averages, states: Reducers)
    requires OnePerPeriod(config, objects) && states.Keys ==
             objects.Keys && Cloned(config.periods, objects, |config.periods|, states)
    ensures CloneReducers(config.periods, states) == Some(StatesOf(objects))
  {
    hide Restored, TakeSnapshot;
    forall p | p in objects ensures Restored(NewEma(p), TakeSnapshot(states[p])) == Some(objects[p].State()) {
      assert p in PeriodSet(config.periods);
      var k :| 0 <= k < |config.periods| && config.periods[k] == p;
    }
    assert forall p :: p in config.periods ==> p in PeriodSet(config.periods);
    assert (map p | p in config.periods :: Restored(NewEma(p), TakeSnapshot(states[p])).value) == StatesOf(objects);
  }

  /** Advances every reducer in place, in period order, and reports a point for each ready one. */
  method ReduceClosed(config: LaneConfig, objects: Averages, bar: Bar) returns (events: seq<Event>)
    requires ValidConfig(config) && OnePerPeriod(config, objects)
    modifies objects.Values
    ensures StatesOf(objects) == Advanced(old(StatesOf(objects)), bar.close)
    ensures events == PointsFor(config.key, config.periods, StatesOf(objects), bar)
  {
    hide Advance, NewPoint, ValidConfig;
    ghost var before := StatesOf(objects);
    ghost var target := Advanced(before, bar.close);
    HoldOwn(config, objects);
    events := [];
    for i := 0 to |config.periods|
      invariant Hold(config.periods, objects, 0, i, target)
      invariant Hold(config.periods, objects, i, |config.periods|, before)
      invariant events == PointsFor(config.key, config.periods[..i], target, bar)
    {
      var p := config.periods[i];
      OthersDiffer(config, objects, i);
      assert config.periods[i] in objects && objects[p].State() == before[p];
      assert config.periods[..i + 1][..i] == config.periods[..i];
      var value, ready := objects[p].OnClosed(bar.close);
      assert objects[p].State() == target[p];
      if ready {
        events := events + [NewPoint(config.key, bar, p, objects[p].samples, value, false)];
      }
    }
    assert config.periods[..|config.periods|] == config.periods;
    HoldAll(config, objects, target);
  }

  /** The market frame, with one indicator per period. */
  method FrameFor(config: LaneConfig, bar: Bar, state: MarketState, objects: Averages) returns (event: Event)
    requires OnePerPeriod(config, objects)
    ensures event == NewMarketEvent(config, bar, state, StatesOf(objects))
    ensures |event.indicators| == |config.periods|
    ensures forall i :: 0 <= i < |config.periods| ==>
              config.periods[i] in objects && event.indicators[i] ==
                IndicatorFor(config.periods[i], objects[config.periods[i]].State())
  {
    hide OnePerPeriod, StatesOf, IndicatorFor;
    ghost var states := StatesOf(objects);
    HoldOwn(config, objects);
    var indicators: seq<Indicator> := [];
    for i := 0 to |config.periods|
      invariant indicators == IndicatorsOf(config.periods[..i], states)
    {
      var p := config.periods[i];
      assert config.periods[i] in objects && objects[p].State() == states[p];
      assert config.periods[..i + 1][..i] == config.periods[..i];
      indicators := indicators + [IndicatorFor(p, objects[p].State())];
    }
    assert config.periods[..|config.periods|] == config.periods;
    OneIndicatorEach(config.periods, states);
    var revision, algorithm := RevisionForBar(bar), FactsAlgorithm(config.periods);
    event := Event(0, MarketId(config.key, bar.time, algorithm, revision), MarketEvent, config.key, bar.time, bar, revision,
                   false, false, [], algorithm, 0, 0.0, 0, Some(state), indicators);
  }

  lemma {:induction false} OneIndicatorEach(periods: seq<Period>, states: Reducers)
    requires forall i :: 0 <= i < |periods| ==> periods[i] in states
    ensures |IndicatorsOf(periods, states)| == |periods|
    ensures forall i :: 0 <= i < |periods| ==> IndicatorsOf(periods, states)[i] == IndicatorFor(periods[i], states[periods[i]])
  {
    hide IndicatorFor;
    if periods != [] {
      OneIndicatorEach(periods[..|periods| - 1], states);
    }
  }

  method CheckpointsOf(config: LaneConfig, objects: Averages, state: MarketReducer, time: nat) returns (snapshots: seq<Snapshot>)
    requires OnePerPeriod(config, objects)
    ensures snapshots == Checkpoints(config.periods, StatesOf(objects), state, time)
  {
    hide TakeSnapshot;
    HoldOwn(config, objects);
    snapshots := [];
    for i := 0 to |config.periods|
      invariant snapshots == EmaCheckpoints(config.periods[..i], StatesOf(objects), time)
    {
      var p := config.periods[i];
      assert config.periods[i] in objects;
      assert config.periods[..i + 1][..i] == config.periods[..i];
      var snapshot := objects[p].Snapshot();
      snapshots := snapshots + [Snapshot(p, time, EmaCheckpoint(snapshot))];
    }
    assert config.periods[..|config.periods|] == config.periods;
    snapshots := snapshots + [Snapshot(0, time, MarketCheckpoint(TakeMarketSnapshot(state)))];
  }

  /** What each ready reducer would report for one more close. */
  method Projections(config: LaneConfig, objects: Averages, close: real) returns (projected: map<Period, real>)
    requires OnePerPeriod(config, objects)
    ensures projected == Projected(Advanced(StatesOf(objects), close))
    ensures StatesOf(objects) == old(StatesOf(objects))
  {
    hide Advance;
    projected := map[];
    ghost var next := Advanced(StatesOf(objects), close);
    HoldOwn(config, objects);
    for i := 0 to |config.periods|
      invariant forall p :: p in projected ==> p in next && next[p].Ready() && projected[p] == next[p].value
      invariant forall k :: 0 <= k < i && next[config.periods[k]].Ready() ==> config.periods[k] in projected
    {
      var p := config.periods[i];
      assert config.periods[i] in objects;
      AdvanceCounts(objects[p].State(), close);
      var value, ready := objects[p].Project(close);
      if ready {
        projected := projected[p := value];
      }
    }
    forall p | p in next && next[p].Ready() ensures p in projected {
      assert p in PeriodSet(config.periods);
      var k :| 0 <= k < |config.periods| && config.periods[k] == p;
    }
  }

  lemma AdvanceCounts(e: EmaState, close: real)
    ensures Advance(e, close).Ready() <==> e.samples + 1 >= e.period
  {
  }

  /** The build loop over a seed, on reducers of its own. */
  method BuildFrom(config: LaneConfig, bars: seq<Bar>)
    returns (ok: bool, objects: Averages, market: MarketReducer, lastBar: Option<Bar>, count: nat, points: seq<Event>)
    requires ValidConfig(config)
    ensures OnePerPeriod(config, objects) && fresh(objects.Values)
    ensures BuildRun(config, bars) == if ok then Some(Build(StatesOf(objects), market, lastBar, count, points)) else None
  {
    hide CloseBar, PointsFor, ValidBar, FingerprintOf, Advanced, ValidConfig;
    objects := MakeReducers(config);
    market, lastBar, count, points := NEW_MARKET, None, 0, [];
    for i := 0 to |bars|
      invariant OnePerPeriod(config, objects) && fresh(objects.Values)
      invariant BuildRun(config, bars[..i]) == Some(Build(StatesOf(objects), market, lastBar, count, points))
    {
      var bar := bars[i];
      assert bars[..i + 1][..i] == bars[..i];
      if !bar.closed {
        continue;
      }
      if !ValidBar(config.key, bar) {
        BuildStops(config, bars, i + 1);
        return false, objects, market, lastBar, count, points;
      }
      if lastBar.Some? && bar.time <= lastBar.value.time {
        if bar.time == lastBar.value.time && FingerprintOf(bar) == FingerprintOf(lastBar.value) {
          continue;
        }
        BuildStops(config, bars, i + 1);
        return false, objects, market, lastBar, count, points;
      }
      var events := ReduceClosed(config, objects, bar);
      market, lastBar, count, points := CloseBar(market, bar), Some(bar), count + 1, points + events;
    }
    assert bars[..|bars|] == bars;
    ok := true;
  }

  /** New reducers set to the checkpoints, if there is one for each. */
  method RestoredFrom(config: LaneConfig, snapshots: map<nat, Snapshot>) returns (ok: bool, objects: Averages)
    requires ValidConfig(config)
    ensures OnePerPeriod(config, objects) && fresh(objects.Values)
    ensures RestoredReducers(config.periods, snapshots) == if ok then Some(StatesOf(objects)) else None
  {
    hide Restored, ValidConfig;
    objects := MakeReducers(config);
    HoldOwn(config, objects);
    assert forall k :: 0 <= k < |config.periods| ==> config.periods[k] in config.periods;
    for i := 0 to |config.periods|
      invariant OnePerPeriod(config, objects) && fresh(objects.Values)
      invariant forall k :: 0 <= k < i ==> var p := config.periods[k];
                  RestorableSnapshot(snapshots, p) && Restored(NewEma(p), snapshots[p].state.ema) == Some(objects[p].State())
      invariant forall k :: i <= k < |config.periods| ==> objects[config.periods[k]].State() == NewEma(config.periods[k])
    {
      var p := config.periods[i];
      OthersDiffer(config, objects, i);
      if p !in snapshots || !snapshots[p].state.EmaCheckpoint? {
        assert p in config.periods && !RestorableSnapshot(snapshots, p);
        return false, objects;
      }
      assert objects[p] in objects.Values;
      ok := objects[p].Restore(snapshots[p].state.ema);
      if !ok {
        assert p in config.periods && !RestorableSnapshot(snapshots, p);
        return false, objects;
      }
    }
    ok := true;
    RestoredStates(config, objects, snapshots);
  }

  lemma {:induction false} RestoredStates(config: LaneConfig, objects: Averages, snapshots: map<nat, Snapshot>)
    requires OnePerPeriod(config, objects)
    requires forall k :: 0 <= k < |config.periods| ==> var p := config.periods[k];
               p in objects && RestorableSnapshot(snapshots, p) && Restored(NewEma(p), snapshots[p].state.ema) ==
                 Some(objects[p].State())
    ensures RestoredReducers(config.periods, snapshots) == Some(StatesOf(objects))
  {
    hide Restored;
    forall p | p in config.periods
      ensures p in objects && RestorableSnapshot(snapshots, p) && Restored(NewEma(p), snapshots[p].state.ema) ==
              Some(objects[p].State())
    {
      var k :| 0 <= k < |config.periods| && config.periods[k] == p;
    }
    assert (map p | p in config.periods :: Restored(NewEma(p), snapshots[p].state.ema).value) == StatesOf(objects);
  }

  /** Replays the seed from the checkpoint through the cursor, advancing the restored reducers. */
  method ReplaySeed(config: LaneConfig, time: nat, cursor: Bar, objects: Averages, samples: nat, bars: seq<Bar>)
    returns (ok: bool, lastBar: Option<Bar>, foundSnapshot: bool, foundCursor: bool, count: nat, marketBars: seq<Bar>)
    requires ValidConfig(config) && OnePerPeriod(config, objects)
    modifies objects.Values
    ensures RestoreRun(config, time, cursor, Restoring(old(StatesOf(objects)), None, false, false, samples, []), bars) ==
            if ok then Some(Restoring(StatesOf(objects), lastBar, foundSnapshot, foundCursor, count, marketBars)) else None
  {
    hide ValidBar, FingerprintOf, Advanced, PointsFor, ValidConfig;
    ghost var start := Restoring(StatesOf(objects), None, false, false, samples, []);
    lastBar, foundSnapshot, foundCursor, count, marketBars := None, false, false, samples, [];
    for i := 0 to |bars|
      invariant RestoreRun(config, time, cursor, start, bars[..i]) ==
                Some(Restoring(StatesOf(objects), lastBar, foundSnapshot, foundCursor, count, marketBars))
    {
      var bar := bars[i];
      assert bars[..i + 1][..i] == bars[..i];
      if bar.closed && bar.time <= cursor.time {
        marketBars := marketBars + [bar];
      }
      if !bar.closed || bar.time < time {
        continue;
      }
      if !ValidBar(config.key, bar) {
        RestoreStops(config, time, cursor, start, bars, i + 1);
        ok := false;
        return;
      }
      if bar.time == time {
        lastBar, foundSnapshot := Some(bar), true;
      } else if bar.time <= cursor.time {
        if !foundSnapshot {
          RestoreStops(config, time, cursor, start, bars, i + 1);
          ok := false;
          return;
        }
        var events := ReduceClosed(config, objects, bar);
        lastBar, count := Some(bar), count + 1;
      }
      if bar.time == cursor.time {
        if FingerprintOf(bar) != FingerprintOf(cursor) {
          RestoreStops(config, time, cursor, start, bars, i + 1);
          ok := false;
          return;
        }
        foundCursor := true;
      }
    }
    assert bars[..|bars|] == bars;
    ok := true;
  }

  // ---- The lane ----------------------------------------------------------

  class Actor {
    const config: LaneConfig
    const store: Memory
    var reducers: Averages
    var market: MarketReducer
    var lastBar: Option<Bar>
    var lastRevision: UInt64
    var closedCount: nat
    var provisional: map<Period, real>
    var forming: Option<Bar>
    var formingRevision: UInt64

    predicate Valid()
      reads this
    {
      ValidConfig(config) && OnePerPeriod(config, reducers)
    }

    function State(): LaneState
      reads this, reducers.Values
    {
      LaneState(StatesOf(reducers), market, lastBar, lastRevision, closedCount, provisional, forming, formingRevision)
    }

    constructor (config: LaneConfig, store: Memory)
      requires ValidConfig(config)
      ensures Valid() && this.config == config && this.store == store && State() == NewLane(config)
      ensures fresh(reducers.Values)
    {
      this.config := config;
      this.store := store;
      var objects := MakeReducers(config);
      reducers := objects;
      market, lastBar, lastRevision, closedCount := NEW_MARKET, None, 0, 0;
      provisional, forming, formingRevision := map[], None, 0;
    }

    // ---- Closed and forming candles --------------------------------------

    /** The outcome a command leaves in this object and its store. */
    ghost predicate Leaves(outcome: Outcome, error: Option<LaneError>)
      reads this, reducers.Values, store
    {
      State() == outcome.lane && store.State() == outcome.store && error == outcome.error
    }

    /** Takes over the advanced clones. */
    method Accept(objects: Averages, closed: MarketReducer, bar: Bar, count: nat)
      modifies this
      ensures State() == Advancing(old(StatesOf(objects)), closed, bar, count) && reducers == objects
    {
      hide StatesOf;
      reducers, market, lastBar, lastRevision, closedCount := objects, closed, Some(bar), RevisionForBar(bar), count;
      provisional, forming, formingRevision := map[], None, 0;
    }

    method ApplyClosed(bar: Bar, fail: bool) returns (error: Option<LaneError>)
      requires Valid()
      modifies this, store
      ensures Valid() && (reducers == old(reducers) || fresh(reducers.Values))
      ensures Leaves(ClosedStep(config, old(State()), old(store.State()), bar, fail), error)
    {
      hide CloneReducers, RestoreMarket, ValidBar, CloseBar, Advanced, PointsFor, NewMarketEvent, Checkpoints,
           CommitClosed, FingerprintOf, CommitStep;
      if !bar.closed {
        return Some(NotClosed);
      }
      if !ValidBar(config.key, bar) {
        return Some(InvalidBar);
      }
      var ok, cloned := CloneOfReducers(config, reducers);
      var copy := RestoreMarket(TakeMarketSnapshot(market));
      if !ok || copy.None? {
        return Some(BrokenReducer);
      }
      if lastBar.Some? && bar.time <= lastBar.value.time {
        if bar.time == lastBar.value.time && FingerprintOf(bar) == FingerprintOf(lastBar.value) {
          return None;
        }
        return Some(StaleBar);
      }
      if lastBar.Some? && bar.time != lastBar.value.time + config.step {
        return Some(GappedBar);
      }
      error := CommitNext(bar, fail, cloned, copy.value);
    }

    /** Advances the clones, commits, and only then takes them over. */
    method CommitNext(bar: Bar, fail: bool, cloned: Averages, copy: MarketReducer) returns (error: Option<LaneError>)
      requires Valid() && OnePerPeriod(config, cloned)
      requires cloned.Values !! reducers.Values
      modifies this, store, cloned.Values
      ensures Valid() && (reducers == old(reducers) || reducers == cloned)
      ensures Leaves(CommitStep(config, old(State()), old(store.State()), bar, fail, old(StatesOf(cloned)), copy), error)
    {
      hide CloseBar, PointsFor, NewMarketEvent, Checkpoints, CommitClosed, Advanced, StatesOf, OnePerPeriod, ValidConfig;
      Positive(config);
      var closed, count := CloseBar(copy, bar), closedCount + 1;
      var events, snapshots := Prepare(bar, cloned, closed, count);
      var ok := false;
      if !fail {
        var committed;
        ok, committed := store.CommitClosedBar(config.key, bar, events, snapshots);
      }
      if !ok {
        return Some(StoreFailed);
      }
      Accept(cloned, closed, bar, count);
      error := None;
    }

    /** The events and checkpoints of the next candle. */
    method Prepare(
      bar: Bar, cloned: Averages, closed: MarketReducer, count: nat) returns (events: seq<Event>,
      snapshots: seq<Snapshot>)
      requires Valid() && OnePerPeriod(config, cloned)
      modifies cloned.Values
      ensures StatesOf(cloned) == Advanced(old(StatesOf(cloned)), bar.close)
      ensures events == PointsFor(config.key, config.periods, StatesOf(cloned),
              bar) + [NewMarketEvent(config, bar, closed.state, StatesOf(cloned))]
      ensures config.snapshotEvery > 0
      ensures snapshots == if count % config.snapshotEvery ==
              0 then Checkpoints(config.periods, StatesOf(cloned), closed, bar.time) else []
    {
      hide PointsFor, NewMarketEvent, Checkpoints, Advanced, StatesOf, OnePerPeriod;
      events := ReduceClosed(config, cloned, bar);
      var frame := FrameFor(config, bar, closed.state, cloned);
      events := events + [frame];
      snapshots := [];
      if count % config.snapshotEvery == 0 {
        snapshots := CheckpointsOf(config, cloned, closed, bar.time);
      }
    }

    method ApplyForming(bar: Bar) returns (error: Option<LaneError>)
      requires Valid()
      modifies this
      ensures Valid() && reducers == old(reducers)
      ensures (State(), error) == FormingStep(config, old(State()), bar)
    {
      hide CloneReducers, ValidBar, Advanced, ValidConfig, Projected, StatesOf, OnePerPeriod;
      if bar.closed {
        return Some(NotForming);
      }
      if !ValidBar(config.key, bar) {
        return Some(InvalidBar);
      }
      var ok, cloned := CloneOfReducers(config, reducers);
      if !ok {
        return Some(BrokenReducer);
      }
      if lastBar.Some? && bar.time < lastBar.value.time {
        return None;
      }
      var values := Projections(config, cloned, bar.close);
      provisional, forming, formingRevision := values, Some(bar), RevisionForBar(bar);
      error := None;
    }

    // ---- Seeding ---------------------------------------------------------

    method ApplyCatchUpSeed(bars: seq<Bar>, failing: set<nat>) returns (error: Option<LaneError>)
      requires Valid()
      modifies this, store
      ensures Valid() && (reducers == old(reducers) || fresh(reducers.Values))
      ensures Leaves(CatchUp(config, old(State()), old(store.State()), bars, failing, |bars|), error)
    {
      hide ClosedStep, FingerprintOf, ValidConfig;
      error := None;
      var i := 0;
      while i < |bars|
        invariant 0 <= i <= |bars|
        invariant Valid() && error.None? && (reducers == old(reducers) || fresh(reducers.Values))
        invariant Leaves(CatchUp(config, old(State()), old(store.State()), bars, failing, i), error)
      {
        var bar := bars[i];
        i := i + 1;
        if !bar.closed {
          continue;
        }
        if lastBar.Some? && bar.time <= lastBar.value.time {
          if bar.time == lastBar.value.time && FingerprintOf(bar) != FingerprintOf(lastBar.value) {
            error := Some(ConflictingSeed);
            CatchUpStops(config, old(State()), old(store.State()), bars, failing, i, |bars|);
            return;
          }
          continue;
        }
        error := ApplyClosed(bar, i - 1 in failing);
        if error.Some? {
          CatchUpStops(config, old(State()), old(store.State()), bars, failing, i, |bars|);
          return;
        }
      }
    }

    method SeedConflictsWithHistory(bars: seq<Bar>) returns (conflict: bool)
      ensures conflict == SeedConflicts(State(), bars)
    {
      hide FingerprintOf, Filter;
      if lastBar.None? || |market.bars| == 0 {
        return false;
      }
      var time := lastBar.value.time;
      var local := Digest(market.bars);
      var overlap := OverlapOf(bars, time);
      var seed := Digest(overlap);
      var first := FirstOf(overlap);
      if first == 0 {
        return false;
      }
      hide FingerprintMap, SeedFirst;
      var todo := seed.Keys;
      while todo != {}
        invariant todo <= seed.Keys
        invariant forall t :: t in seed && t !in todo ==> if t in local then local[t] == seed[t] else t < market.bars[0].time
        decreases todo
      {
        var t :| t in todo;
        if t in local && local[t] != seed[t] {
          return true;
        } else if t !in local && t >= market.bars[0].time {
          return true;
        }
        todo := todo - {t};
      }
      for i := 0 to |market.bars|
        invariant forall k :: 0 <= k < i && first <= market.bars[k].time <= time ==> market.bars[k].time in seed
      {
        if first <= market.bars[i].time <= time && market.bars[i].time !in seed {
          return true;
        }
      }
      return false;
    }

    method RebuildSeed(bars: seq<Bar>, reset: bool, fail: bool) returns (error: Option<LaneError>)
      requires Valid()
      modifies this, store
      ensures Valid() && (reducers == old(reducers) || fresh(reducers.Values))
      ensures Leaves(RebuildStep(config, old(State()), old(store.State()), bars, reset, fail), error)
    {
      hide BuildRun, RebuildEventsOf, Checkpoints, RebuildSeries, Kept, ValidConfig, StatesOf, OnePerPeriod;
      var built, objects, window, last, count, points := BuildFrom(config, bars);
      if !built {
        return Some(ConflictingSeed);
      }
      ghost var b := Build(StatesOf(objects), window, last, count, points);
      var events := EventsOf(objects, window, last, count, points, bars, reset);
      var snapshots := [];
      if last.Some? {
        snapshots := CheckpointsOf(config, objects, window, last.value.time);
      }
      var ok := false;
      if !fail {
        var committed;
        ok, committed := store.Rebuild(config.key, events, snapshots, last);
      }
      if !ok {
        return Some(StoreFailed);
      }
      Replace(objects, window, last, count);
      error := None;
    }

    method Replace(objects: Averages, window: MarketReducer, last: Option<Bar>, count: nat)
      modifies this
      ensures reducers == objects
      ensures State() == LaneState(old(StatesOf(objects)), window, last,
                                   if last.Some? then RevisionForBar(last.value) else old(lastRevision), count, map[], None, 0)
    {
      hide StatesOf;
      reducers, market, lastBar, closedCount := objects, window, last, count;
      if lastBar.Some? {
        lastRevision := RevisionForBar(lastBar.value);
      }
      provisional, forming, formingRevision := map[], None, 0;
    }

    method EventsOf(
      objects: Averages, window: MarketReducer, last: Option<Bar>, count: nat, points: seq<Event>, bars: seq<Bar>,
      reset: bool)
      returns (events: seq<Event>)
      requires OnePerPeriod(config, objects)
      ensures events == RebuildEventsOf(config, Build(StatesOf(objects), window, last, count, points), bars, reset)
    {
      hide NewMarketEvent, ResetEvent;
      events := points;
      if last.Some? {
        var frame := FrameFor(config, last.value, window.state, objects);
        if reset {
          frame := ResetFrame(frame, bars);
        }
        events := events + [frame];
      }
    }

    method ResetFrame(frame: Event, bars: seq<Bar>) returns (event: Event)
      ensures event == ResetEvent(frame, bars)
    {
      var confirmed: seq<Bar> := [];
      for i := 0 to |bars|
        invariant confirmed == Filter(ClosedEarlier(frame.barTime), bars[..i])
      {
        FilterTake(ClosedEarlier(frame.barTime), bars, i);
        if bars[i].closed && bars[i].time < frame.barTime {
          confirmed := confirmed + [bars[i]];
        }
      }
      assert bars[..|bars|] == bars;
      if |confirmed| > HISTORY_LIMIT {
        confirmed := confirmed[|confirmed| - HISTORY_LIMIT..];
      }
      event := frame.(reset := true, resetHistory := confirmed, id :=
        ResetId(frame.key, frame.barTime, frame.algorithm, frame.revision));
    }

    // ---- Restoring -------------------------------------------------------

    /** On failure the lane is left alone and the caller rebuilds. */
    method RestoreRecoverySeed(cursor: Bar, snapshots: map<nat, Snapshot>, bars: seq<Bar>) returns (ok: bool)
      requires Valid()
      modifies this
      ensures Valid() && (reducers == old(reducers) || fresh(reducers.Values))
      ensures ok == RestoreStep(config, cursor, snapshots, bars).Some?
      ensures ok ==> State() == RestoreStep(config, cursor, snapshots, bars).value
      ensures !ok ==> State() == old(State())
    {
      hide RestoredReducers, RestoreRun, RestoredMarket, SharedCheckpoint, OnePerPeriod;
      var found, objects := RestoredFrom(config, snapshots);
      if !found {
        return false;
      }
      var first := config.periods[0];
      assert first in config.periods && first in PeriodSet(config.periods);
      var time, samples := snapshots[first].lastOpenTime, objects[first].samples;
      if time > cursor.time {
        return false;
      }
      var shared := SharesCheckpoint(objects, snapshots);
      if !shared {
        return false;
      }
      var replayed, last, foundSnapshot, foundCursor, count, marketBars :=
        ReplaySeed(config, time, cursor, objects, samples, bars);
      if !replayed || !foundSnapshot || !foundCursor || last.None? {
        return false;
      }
      var window := MarketFrom(snapshots, cursor, marketBars);
      if window.None? {
        return false;
      }
      Accept(objects, window.value, last.value, count);
      ok := true;
    }

    method SharesCheckpoint(objects: Averages, snapshots: map<nat, Snapshot>) returns (shared: bool)
      requires Valid() && OnePerPeriod(config, objects) && forall p :: p in config.periods ==> p in snapshots
      ensures forall p :: p in config.periods ==> p in StatesOf(objects)
      ensures shared == SharedCheckpoint(config.periods, snapshots, StatesOf(objects))
    {
      HoldOwn(config, objects);
      assert forall k :: 0 <= k < |config.periods| ==> config.periods[k] in config.periods && config.periods[k] in objects;
      assert forall p :: p in config.periods ==> p in PeriodSet(config.periods);
      var first := config.periods[0];
      for i := 0 to |config.periods|
        invariant forall k :: 0 <= k < i ==> var p := config.periods[k];
                    snapshots[p].lastOpenTime == snapshots[first].lastOpenTime && objects[p].samples == objects[first].samples
      {
        var p := config.periods[i];
        if snapshots[p].lastOpenTime != snapshots[first].lastOpenTime || objects[p].samples != objects[first].samples {
          assert p in config.periods;
          return false;
        }
      }
      return true;
    }

    method MarketFrom(snapshots: map<nat, Snapshot>, cursor: Bar, bars: seq<Bar>) returns (window: Option<MarketReducer>)
      ensures window == RestoredMarket(snapshots, cursor, bars)
    {
      hide CloseBar, SeedMarket, RestoreMarket;
      if 0 !in snapshots || !snapshots[0].state.MarketCheckpoint? {
        return Some(SeedMarket(bars));
      }
      var time := snapshots[0].lastOpenTime;
      if time > cursor.time {
        return None;
      }
      var restored := RestoreMarket(snapshots[0].state.market);
      if restored.None? {
        return None;
      }
      var m := restored.value;
      for i := 0 to |bars|
        invariant m == Replayed(restored.value, bars[..i], time)
      {
        assert bars[..i + 1][..i] == bars[..i];
        if bars[i].time > time {
          m := CloseBar(m, bars[i]);
        }
      }
      assert bars[..|bars|] == bars;
      window := Some(m);
    }

    // ---- The seed command ------------------------------------------------

    method ApplySeed(input: seq<Bar>, faults: Faults) returns (error: Option<LaneError>)
      requires Valid()
      modifies this, store
      ensures Valid() && (reducers == old(reducers) || fresh(reducers.Values))
      ensures Leaves(SeedStep(config, old(State()), old(store.State()), input, faults), error)
    {
      hide RebuildStep, CatchUp, RestoreStep, SeedConflicts, Ordered, SnapshotsOf, ValidConfig;
      var bars := Ordered(input);
      if lastBar.Some? {
        var conflict := SeedConflictsWithHistory(bars);
        if conflict {
          error := RebuildSeed(bars, true, faults.rebuild);
          return;
        }
        error := ApplyCatchUpSeed(bars, faults.commits);
        if error.Some? {
          error := RebuildSeed(bars, true, faults.rebuild);
        }
        return;
      }
      if faults.load {
        return Some(LoadFailed);
      }
      var recovery := store.Recover(config.key);
      if recovery.cursor.Some? {
        var ok := RestoreRecoverySeed(recovery.cursor.value, recovery.snapshots, bars);
        if !ok {
          error := RebuildSeed(bars, true, faults.rebuild);
          return;
        }
        error := ApplyCatchUpSeed(bars, faults.commits);
        return;
      }
      error := RebuildSeed(bars, false, faults.rebuild);
    }
  }

  // ---- Loops over seed candles ---------------------------------------------

  method Digest(bars: seq<Bar>) returns (digests: map<nat, Fingerprint>)
    ensures digests == FingerprintMap(bars)
  {
    hide FingerprintOf;
    digests := map[];
    for i := 0 to |bars|
      invariant digests == FingerprintMap(bars[..i])
    {
      assert bars[..i + 1][..i] == bars[..i];
      digests := digests[bars[i].time := FingerprintOf(bars[i])];
    }
    assert bars[..|bars|] == bars;
  }

  method OverlapOf(bars: seq<Bar>, time: nat) returns (overlap: seq<Bar>)
    ensures overlap == Filter(Overlapping(time), bars)
  {
    overlap := [];
    for i := 0 to |bars|
      invariant overlap == Filter(Overlapping(time), bars[..i])
    {
      FilterTake(Overlapping(time), bars, i);
      if bars[i].closed && bars[i].time <= time {
        overlap := overlap + [bars[i]];
      }
    }
    assert bars[..|bars|] == bars;
  }

  method FirstOf(bars: seq<Bar>) returns (first: nat)
    ensures first == SeedFirst(bars)
  {
    first := 0;
    for i := 0 to |bars|
      invariant first == SeedFirst(bars[..i])
    {
      assert bars[..i + 1][..i] == bars[..i];
      if first == 0 || bars[i].time < first {
        first := bars[i].time;
      }
    }
    assert bars[..|bars|] == bars;
  }

  /** An error ends the catch-up: the candles after it are not looked at. */
  lemma {:induction false} CatchUpStops(
    config: LaneConfig, lane: LaneState, store: StoreState, bars: seq<Bar>, failing: set<nat>, n: nat, m: nat)
    requires ValidConfig(config) && n <= m <= |bars| && CatchUp(config, lane, store, bars, failing, n).error.Some?
    ensures CatchUp(config, lane, store, bars, failing, m) == CatchUp(config, lane, store, bars, failing, n)
  {
    hide CatchUpBar, ValidConfig;
    if n < m {
      CatchUpStops(config, lane, store, bars, failing, n, m - 1);
    }
  }

  lemma {:induction false} BuildStops(config: LaneConfig, bars: seq<Bar>, n: nat)
    requires n <= |bars| && BuildRun(config, bars[..n]).None?
    ensures BuildRun(config, bars).None?
    decreases |bars|
  {
    if n < |bars| {
      assert bars[..|bars| - 1][..n] == bars[..n];
      BuildStops(config, bars[..|bars| - 1], n);
    } else {
      assert bars[..n] == bars;
    }
  }

  lemma {:induction false} RestoreStops(config: LaneConfig, time: nat, cursor: Bar, start: Restoring, bars: seq<Bar>, n: nat)
    requires n <= |bars| && RestoreRun(config, time, cursor, start, bars[..n]).None?
    ensures RestoreRun(config, time, cursor, start, bars).None?
    decreases |bars|
  {
    if n < |bars| {
      assert bars[..|bars| - 1][..n] == bars[..n];
      RestoreStops(config, time, cursor, start, bars[..|bars| - 1], n);
    } else {
      assert bars[..n] == bars;
    }
  }
}
