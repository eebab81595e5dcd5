/** Many lanes over one store: commands of different series interleaved in any order
    (internal/engine/lane.go:131-228, internal/store/memory.go:54-118). */
module Fleet {
  import opened Model
  import opened Store
  import opened Lane
  import opened Fold
  import opened Durable
  import opened Rebuild
  import opened Runs
  import opened LogShape

  // ---- The fleet ---------------------------------------------------------

  datatype Fleet = Fleet(lanes: seq<LaneState>, seeded: seq<bool>, store: StoreState)

  ghost predicate ValidFleet(configs: seq<LaneConfig>) {
    && (forall i :: 0 <= i < |configs| ==> ValidConfig(configs[i]))
    && (forall i, j :: 0 <= i < j < |configs| ==> configs[i].key != configs[j].key)
  }

  predicate Fits(configs: seq<LaneConfig>, fleet: Fleet) { |fleet.lanes| == |fleet.seeded| == |configs| }

  /** One lane with the shared store. */
  function Member(fleet: Fleet, i: nat): System
    requires i < |fleet.lanes| == |fleet.seeded|
  {
    System(fleet.lanes[i], fleet.store, fleet.seeded[i])
  }

  /** A command for the lane with this index. */
  datatype Order = Order(lane: nat, command: Command)

  function FleetStep(configs: seq<LaneConfig>, fleet: Fleet, order: Order): (r: (Fleet, Effect))
    requires ValidFleet(configs) && Fits(configs, fleet) && order.lane < |configs|
    ensures Fits(configs, r.0)
  {
    var r := Do(configs[order.lane], Member(fleet, order.lane), order.command);
    (Fleet(fleet.lanes[order.lane := r.0.lane], fleet.seeded[order.lane := r.0.seeded], r.0.store), r.1)
  }

  predicate Addressed(configs: seq<LaneConfig>, orders: seq<Order>) {
    forall i :: 0 <= i < |orders| ==> orders[i].lane < |configs|
  }

  function FleetRun(configs: seq<LaneConfig>, fleet: Fleet, orders: seq<Order>): (r: Fleet)
    requires ValidFleet(configs) && Fits(configs, fleet) && Addressed(configs, orders)
    ensures Fits(configs, r)
  {
    if orders == [] then fleet
    else FleetStep(configs, FleetRun(configs, fleet, orders[..|orders| - 1]), orders[|orders| - 1]).0
  }

  function NewFleet(configs: seq<LaneConfig>): (r: Fleet)
    ensures Fits(configs, r)
  {
    Fleet(seq(|configs|, i requires 0 <= i < |configs| => NewLane(configs[i])), seq(|configs|, i => false), EMPTY_STORE)
  }

  // ---- The log of every run ----------------------------------------------

  ghost predicate FleetSound(configs: seq<LaneConfig>, s: StoreState) {
    LogInv(s) && forall i :: 0 <= i < |configs| ==> ValidCursor(configs[i], s)
  }

  lemma {:induction false} OtherCursor(config: LaneConfig, other: LaneConfig, s: StoreState, t: StoreState)
    requires Moves(config.key, s, t) && other.key != config.key && ValidCursor(other, s)
    ensures ValidCursor(other, t)
  {
    hide SeriesPoints, SnapshotsOf, ValidBar;
    assert SameSeries(s, t, other.key);
  }

  /** Whatever one lane does, the log stays sound for all. */
  lemma {:induction false} FleetStepMoves(configs: seq<LaneConfig>, fleet: Fleet, order: Order)
    requires ValidFleet(configs) && Fits(configs, fleet) && order.lane < |configs| && FleetSound(configs, fleet.store)
    ensures var t := FleetStep(configs, fleet, order).0.store;
            FleetSound(configs, t) && Moves(configs[order.lane].key, fleet.store, t)
  {
    hide Do, LogInv, Moves, ValidConfig, ValidCursor;
    var config := configs[order.lane];
    StepMoves(config, Member(fleet, order.lane), order.command);
    var t := FleetStep(configs, fleet, order).0.store;
    forall i | 0 <= i < |configs| ensures ValidCursor(configs[i], t) {
      if i != order.lane {
        assert configs[i].key != config.key;
        OtherCursor(config, configs[i], fleet.store, t);
      }
    }
  }

  lemma {:induction false} FleetRunMoves(configs: seq<LaneConfig>, fleet: Fleet, orders: seq<Order>)
    requires ValidFleet(configs) && Fits(configs, fleet) && Addressed(configs, orders) && FleetSound(configs, fleet.store)
    ensures var t := FleetRun(configs, fleet, orders).store;
            FleetSound(configs, t) && fleet.store.events <= t.events && CursorsAdvance(fleet.store, t)
  {
    hide FleetSound, FleetStep, ValidFleet;
    if orders != [] {
      var rest := orders[..|orders| - 1];
      FleetRunMoves(configs, fleet, rest);
      FleetStepMoves(configs, FleetRun(configs, fleet, rest), orders[|orders| - 1]);
      MovesAdvance(configs[orders[|orders| - 1].lane].key, FleetRun(configs, fleet, rest).store,
        FleetRun(configs, fleet, orders).store);
    }
  }

  lemma MovesAdvance(key: SeriesKey, s: StoreState, t: StoreState)
    requires Moves(key, s, t)
    ensures s.events <= t.events && CursorsAdvance(s, t)
  {
  }

  /** From an empty store, any orders to any lanes: dense cursors, and within each series candle
      times in order and bounded by its cursor, identities unique but for resets. */
  lemma {:induction false} EveryFleetLog(configs: seq<LaneConfig>, orders: seq<Order>)
    requires ValidFleet(configs) && Addressed(configs, orders)
    ensures var s := FleetRun(configs, NewFleet(configs), orders).store;
            && (forall i :: 0 <= i < |s.events| ==> s.events[i].cursor == i + 1)
            && (forall i :: 0 <= i < |s.events| ==>
              s.events[i].key in s.cursors && s.events[i].barTime <= s.cursors[s.events[i].key].time)
            && OrderedLog(s.events)
            && UniqueLog(s.events)
  {
    hide FleetRun, OrderedLog, UniqueLog, Shaped, ShapedPoints, ValidFleet, NewLane, ValidCursor;
    EmptyIsSound(configs);
    FleetRunMoves(configs, NewFleet(configs), orders);
    assert BoundedLog(FleetRun(configs, NewFleet(configs), orders).store);
  }

  lemma EmptyIsSound(configs: seq<LaneConfig>)
    ensures FleetSound(configs, EMPTY_STORE)
  {
  }

  // ---- The invariant of every lane ---------------------------------------

  ghost predicate FleetInv(configs: seq<LaneConfig>, fleet: Fleet, histories: seq<seq<Bar>>) {
    && Fits(configs, fleet) && |histories| == |configs|
    && forall i :: 0 <= i < |configs| ==> SystemInv(configs[i], Member(fleet, i), histories[i])
  }

  lemma {:induction false} OtherLaneKept(
    config: LaneConfig, sys: System, command: Command, other: LaneConfig, lane: LaneState, seeded: bool,
    history: seq<Bar>)
    requires ValidConfig(config) && Sound(config, sys.store) && other.key != config.key
    requires SystemInv(other, System(lane, sys.store, seeded), history)
    ensures SystemInv(other, System(lane, Do(config, sys, command).0.store, seeded), history)
  {
    hide Do, LaneFolds, SeriesPoints, SnapshotsOf, PointMap, CheckpointMap, LogInv, ValidBar, History, ValidConfig;
    StepMoves(config, sys, command);
    assert SameSeries(sys.store, Do(config, sys, command).0.store, other.key);
  }

  lemma {:induction false} InvIsSound(config: LaneConfig, sys: System, history: seq<Bar>)
    requires SystemInv(config, sys, history)
    ensures Sound(config, sys.store)
  {
    hide LaneFolds, StoreFolds, LogInv, History;
    StoreHasValidCursor(config, sys.store, history);
  }

  /** An admissible command keeps the invariant of its own lane and of every other. */
  lemma {:induction false} FleetStepKeeps(configs: seq<LaneConfig>, fleet: Fleet, histories: seq<seq<Bar>>, order: Order)
    requires ValidFleet(configs) && FleetInv(configs, fleet, histories) && order.lane < |configs|
    requires Admissible(configs[order.lane], Member(fleet, order.lane), histories[order.lane], order.command)
    ensures var r := FleetStep(configs, fleet, order);
            FleetInv(configs, r.0, histories[order.lane := NextHistory(histories[order.lane], r.1)])
  {
    hide Do, SystemInv, Admissible, ValidConfig, Sound;
    var i := order.lane;
    var config, sys := configs[i], Member(fleet, i);
    var r := FleetStep(configs, fleet, order);
    var next := histories[i := NextHistory(histories[i], r.1)];
    StepKeeps(config, sys, histories[i], order.command);
    InvIsSound(config, sys, histories[i]);
    forall j | 0 <= j < |configs| ensures SystemInv(configs[j], Member(r.0, j), next[j]) {
      if j == i {
        assert Member(r.0, j) == Do(config, sys, order.command).0;
      } else {
        assert configs[j].key != config.key;
        OtherLaneKept(config, sys, order.command, configs[j], fleet.lanes[j], fleet.seeded[j], histories[j]);
      }
    }
  }

  function HistoriesOf(configs: seq<LaneConfig>, fleet: Fleet, histories: seq<seq<Bar>>, orders: seq<Order>): (r: seq<seq<Bar>>)
    requires ValidFleet(configs) && Fits(configs, fleet) && Addressed(configs, orders) && |histories| == |configs|
    ensures |r| == |configs|
  {
    if orders == [] then histories
    else
      var rest, last := orders[..|orders| - 1], orders[|orders| - 1];
      var before := HistoriesOf(configs, fleet, histories, rest);
      before[last.lane := NextHistory(before[last.lane], FleetStep(configs, FleetRun(configs, fleet, rest), last).1)]
  }

  ghost predicate AdmissibleOrders(configs: seq<LaneConfig>, fleet: Fleet, histories: seq<seq<Bar>>, orders: seq<Order>)
    requires ValidFleet(configs) && Fits(configs, fleet) && Addressed(configs, orders) && |histories| == |configs|
  {
    orders == [] ||
    var rest, last := orders[..|orders| - 1], orders[|orders| - 1];
    && AdmissibleOrders(configs, fleet, histories, rest)
    && Admissible(configs[last.lane], Member(FleetRun(configs, fleet, rest), last.lane),
                  HistoriesOf(configs, fleet, histories, rest)[last.lane], last.command)
  }

  lemma {:induction false} FleetRunKeeps(configs: seq<LaneConfig>, fleet: Fleet, histories: seq<seq<Bar>>, orders: seq<Order>)
    requires ValidFleet(configs) && FleetInv(configs, fleet, histories) && Addressed(configs, orders)
    requires AdmissibleOrders(configs, fleet, histories, orders)
    ensures FleetInv(configs, FleetRun(configs, fleet, orders), HistoriesOf(configs, fleet, histories, orders))
  {
    hide ValidFleet, FleetStep, SystemInv, Admissible, NextHistory;
    if orders != [] {
      var rest := orders[..|orders| - 1];
      FleetRunKeeps(configs, fleet, histories, rest);
      FleetStepKeeps(configs, FleetRun(configs, fleet, rest), HistoriesOf(configs, fleet, histories, rest), orders[|orders| - 1]);
    }
  }

  /** From an empty store, over every admissible interleaving of the commands of all lanes: one
      history per lane determines that lane and its part of the shared store. */
  lemma {:induction false} EveryFleetRun(configs: seq<LaneConfig>, orders: seq<Order>)
    requires ValidFleet(configs) && Addressed(configs, orders)
    requires AdmissibleOrders(configs, NewFleet(configs), seq(|configs|, i => []), orders)
    ensures var fleet, histories := FleetRun(configs, NewFleet(configs), orders),
            HistoriesOf(configs, NewFleet(configs), seq(|configs|, i => []), orders);
            forall i :: 0 <= i < |configs| ==>
              && SystemInv(configs[i], Member(fleet, i), histories[i])
              && ExactPoints(configs[i], SeriesPoints(fleet.store.points, configs[i].key), histories[i])
              && (fleet.seeded[i] ==> LaneFolds(configs[i], fleet.lanes[i], histories[i]))
  {
    hide FleetRun, HistoriesOf, AdmissibleOrders, LaneFolds, LogInv, SeriesPoints, PointMap, CheckpointsFold,
         ExactPoints, NewLane, ValidConfig;
    var start, none := NewFleet(configs), seq(|configs|, i => []);
    forall i | 0 <= i < |configs| ensures SystemInv(configs[i], Member(start, i), none[i]) {
      InitialInv(configs[i]);
      assert Member(start, i) == Initial(configs[i]);
    }
    FleetRunKeeps(configs, start, none, orders);
    var fleet, histories := FleetRun(configs, start, orders), HistoriesOf(configs, start, none, orders);
    forall i | 0 <= i < |configs| ensures ExactPoints(configs[i], SeriesPoints(fleet.store.points, configs[i].key),
      histories[i]) {
      assert SystemInv(configs[i], Member(fleet, i), histories[i]);
      PointMapIsExact(configs[i], histories[i]);
    }
  }
}
