/** Signal events and the transactional store (internal/store/memory.go,
    internal/model/signal.go). One value is the whole durable state; the class
    holds it and its methods are the store's transactions. */
module Store {
  import opened Model
  import opened Ema
  import opened Market

  // ---- Events ------------------------------------------------------------

  /** What a configuration hash is computed from. */
  datatype ConfigHash = EmaConfig(period: nat) | FactsConfig(periods: seq<nat>)

  datatype AlgorithmRef = AlgorithmRef(name: string, config: ConfigHash)

  function EmaAlgorithm(period: nat): AlgorithmRef { AlgorithmRef("ema", EmaConfig(period)) }

  function FactsAlgorithm(periods: seq<nat>): AlgorithmRef { AlgorithmRef("smc.market_state", FactsConfig(periods)) }

  datatype EventKind = PointEvent | MarketEvent

  /** The hashed identity of an event, kept as the hashed tuple. */
  datatype EventId =
    | PointId(key: SeriesKey, time: nat, algorithm: AlgorithmRef, period: nat, provisional: bool, revision: UInt64)
    | MarketId(key: SeriesKey, time: nat, algorithm: AlgorithmRef, revision: UInt64)
    | ResetId(key: SeriesKey, time: nat, algorithm: AlgorithmRef, revision: UInt64)

  datatype Indicator = Indicator(period: nat, value: Option<real>, samples: nat, ready: bool)

  datatype Event = Event(
    cursor: nat,
    id: EventId,
    kind: EventKind,
    key: SeriesKey,
    barTime: nat,
    sourceBar: Bar,
    revision: UInt64,
    provisional: bool,
    reset: bool,
    resetHistory: seq<Bar>,
    algorithm: AlgorithmRef,
    period: nat,
    value: real,
    samples: nat,
    market: Option<MarketState>,
    indicators: seq<Indicator>)

  datatype SnapshotState = EmaCheckpoint(ema: EmaSnapshot) | MarketCheckpoint(market: MarketSnapshot)

  /** Period 0 is the market reducer. */
  datatype Snapshot = Snapshot(period: nat, lastOpenTime: nat, state: SnapshotState)

  // ---- Durable state -----------------------------------------------------

  datatype StoreState = StoreState(
    next: nat,
    events: seq<Event>,
    points: map<EventId, Event>,
    markets: map<(SeriesKey, AlgorithmRef), Event>,
    cursors: map<SeriesKey, Bar>,
    snapshots: map<(SeriesKey, nat), Snapshot>,
    published: set<nat>)

  const EMPTY_STORE := StoreState(0, [], map[], map[], map[], map[], {})

  predicate SamePoint(existing: Event, event: Event) {
    && existing.key == event.key
    && existing.barTime == event.barTime
    && existing.revision == event.revision
    && existing.period == event.period
    && existing.algorithm.name == event.algorithm.name
  }

  /** Replaces the current market state, or the one point of that candle and period. */
  function Persist(s: StoreState, event: Event): StoreState {
    if event.kind == MarketEvent then s.(markets := s.markets[(event.key, event.algorithm) := event])
    else
      var kept := map id | id in s.points && !SamePoint(s.points[id], event) :: s.points[id];
      s.(points := kept[event.id := event])
  }

  function FindInLog(events: seq<Event>, id: EventId): (r: Option<Event>)
    ensures r.Some? ==> r.value in events && r.value.id == id
    ensures r.None? ==> forall e :: e in events ==> e.id != id
  {
    if events == [] then None
    else if events[0].id == id then Some(events[0])
    else FindInLog(events[1..], id)
  }

  function EventById(s: StoreState, id: EventId): Option<Event> {
    if id in s.points then Some(s.points[id]) else FindInLog(s.events, id)
  }

  function Append(s: StoreState, event: Event): StoreState {
    s.(next := s.next + 1, events := s.events + [event.(cursor := s.next + 1)])
  }

  /** Commits one event, or hands back the one already committed under its identity. */
  function CommitEvent(s: StoreState, event: Event): (r: (StoreState, Event)) {
    var existing := EventById(s, event.id);
    if existing.Some? && existing.value.cursor > 0 then (s, existing.value)
    else
      var stamped := event.(cursor := s.next + 1);
      (Append(Persist(s, stamped), event), stamped)
  }

  function CommitEvents(s: StoreState, events: seq<Event>): (r: (StoreState, seq<Event>)) {
    if events == [] then (s, [])
    else
      var rest := CommitEvents(s, events[..|events| - 1]);
      var last := CommitEvent(rest.0, events[|events| - 1]);
      (last.0, rest.1 + [last.1])
  }

  function PutSnapshots(
    m: map<(SeriesKey, nat), Snapshot>, key: SeriesKey, snapshots: seq<Snapshot>): map<(SeriesKey, nat), Snapshot> {
    if snapshots == [] then m
    else
      var last := snapshots[|snapshots| - 1];
      PutSnapshots(m, key, snapshots[..|snapshots| - 1])[(key, last.period) := last]
  }

  /** The state after a transaction and the events it reports, or a refusal that changes nothing. */
  datatype Reply = Accepted(state: StoreState, committed: seq<Event>) | Refused

  function CommitClosed(s: StoreState, key: SeriesKey, bar: Bar, events: seq<Event>, snapshots: seq<Snapshot>): Reply {
    if key in s.cursors && bar.time <= s.cursors[key].time then
      if bar.time == s.cursors[key].time && FingerprintOf(bar) == FingerprintOf(s.cursors[key]) then Accepted(s, [])
      else Refused
    else
      var r := CommitEvents(s, events);
      Accepted(r.0.(snapshots := PutSnapshots(r.0.snapshots, key, snapshots), cursors := r.0.cursors[key := bar]), r.1)
  }

  /** Forgets the checkpoints and points of a series. */
  function Wipe(s: StoreState, key: SeriesKey): StoreState {
    s.(snapshots := map k | k in s.snapshots && k.0 != key :: s.snapshots[k],
       points := map id | id in s.points && s.points[id].key != key :: s.points[id])
  }

  function RebuildEvent(s: StoreState, event: Event): StoreState {
    var kept := Persist(s, event);
    if event.reset then Append(kept, event).(published := kept.published - {s.next + 1}) else kept
  }

  function RebuildEvents(s: StoreState, events: seq<Event>): (r: StoreState)
    ensures s.events <= r.events
  {
    if events == [] then s
    else RebuildEvent(RebuildEvents(s, events[..|events| - 1]), events[|events| - 1])
  }

  function RebuildSeries(
    s: StoreState, key: SeriesKey, events: seq<Event>, snapshots: seq<Snapshot>, lastBar: Option<Bar>): Reply {
    if lastBar.Some? && key in s.cursors && s.cursors[key].time > lastBar.value.time then Refused
    else
      var r := RebuildEvents(Wipe(s, key), events);
      Accepted(r.(snapshots := PutSnapshots(r.snapshots, key, snapshots),
                  cursors := if lastBar.Some? then r.cursors[key := lastBar.value] else r.cursors),
               r.events[|s.events|..])
  }

  datatype Recovery = Recovery(cursor: Option<Bar>, snapshots: map<nat, Snapshot>)

  /** The checkpoints of one series, by period. */
  function SnapshotsOf(m: map<(SeriesKey, nat), Snapshot>, key: SeriesKey): map<nat, Snapshot> {
    map k | k in m && k.0 == key :: k.1 := m[k]
  }

  function LoadRecovery(s: StoreState, key: SeriesKey): Recovery {
    Recovery(if key in s.cursors then Some(s.cursors[key]) else None, SnapshotsOf(s.snapshots, key))
  }

  // ---- Queries -----------------------------------------------------------

  /** Empty strings and a zero period select everything. */
  datatype EventFilter = EventFilter(
    afterCursor: nat, dataset: string, symbol: string, timeframe: string, period: nat, kind: Option<EventKind>, analysis: string)

  predicate Selects(filter: EventFilter, event: Event) {
    && event.cursor > filter.afterCursor
    && (filter.dataset == "" || event.key.dataset == filter.dataset)
    && (filter.symbol == "" || event.key.symbol == filter.symbol)
    && (filter.timeframe == "" || event.key.timeframe == filter.timeframe)
    && (filter.period == 0 || event.period == filter.period)
    && (filter.kind.None? || filter.kind.value == event.kind)
    && (filter.analysis == "" || event.algorithm.name == filter.analysis)
  }

  /** A query naming a whole series selects that series after the cursor, and nothing else. */
  lemma SeriesQuery(key: SeriesKey, after: nat, event: Event)
    requires key.dataset != "" && key.symbol != "" && key.timeframe != ""
    ensures Selects(EventFilter(after, key.dataset, key.symbol, key.timeframe, 0, None, ""), event)
            <==> event.key == key && event.cursor > after
  {
  }

  function Selected(filter: EventFilter): Event -> bool { (event: Event) => Selects(filter, event) }

  function After(cursor: nat): EventFilter { EventFilter(cursor, "", "", "", 0, None, "") }

  function Take<T>(s: seq<T>, n: nat): (r: seq<T>)
    ensures |r| == if |s| <= n then |s| else n
  {
    if |s| <= n then s else s[..n]
  }

  /** A page of the log: the first `limit` selected entries. */
  function Page(s: StoreState, filter: EventFilter, limit: nat): seq<Event> {
    Take(Filter(Selected(filter), s.events), limit)
  }

  function Unpublished(s: StoreState): Event -> bool { (event: Event) => event.cursor !in s.published }

  /** The first `limit` entries not yet marked published. */
  function Pending(s: StoreState, limit: nat): seq<Event> {
    Take(Filter(Unpublished(s), s.events), limit)
  }

  /** The limit the store applies: 500 for none given, 5000 at most. */
  function NormalLimit(limit: int): nat {
    if limit <= 0 then 500 else if limit > 5000 then 5000 else limit
  }

  // ---- The store object --------------------------------------------------

  class Memory {
    var next: nat
    var events: seq<Event>
    var points: map<EventId, Event>
    var markets: map<(SeriesKey, AlgorithmRef), Event>
    var cursors: map<SeriesKey, Bar>
    var snapshots: map<(SeriesKey, nat), Snapshot>
    var published: set<nat>

    function State(): StoreState
      reads this
    {
      StoreState(next, events, points, markets, cursors, snapshots, published)
    }

    constructor ()
      ensures State() == EMPTY_STORE
    {
      next, events, points, markets, cursors, snapshots, published := 0, [], map[], map[], map[], map[], {};
    }

    method PersistEventState(event: Event)
      modifies this
      ensures State() == Persist(old(State()), event)
    {
      if event.kind == MarketEvent {
        markets := markets[(event.key, event.algorithm) := event];
        return;
      }
      var todo := points.Keys;
      var start := points;
      while todo != {}
        invariant todo <= start.Keys
        invariant points == map id | id in start && (id in todo || !SamePoint(start[id], event)) :: start[id]
        invariant State() == old(State()).(points := points)
        decreases todo
      {
        var id :| id in todo;
        if SamePoint(start[id], event) {
          points := points - {id};
        }
        todo := todo - {id};
      }
      points := points[event.id := event];
    }

    method FindEvent(id: EventId) returns (found: Option<Event>)
      ensures found == EventById(State(), id)
    {
      if id in points {
        return Some(points[id]);
      }
      var i := 0;
      while i < |events|
        invariant 0 <= i <= |events|
        invariant FindInLog(events[i..], id) == FindInLog(events, id)
      {
        assert events[i..][1..] == events[i + 1..];
        if events[i].id == id {
          return Some(events[i]);
        }
        i := i + 1;
      }
      return None;
    }

    method StoreSnapshots(key: SeriesKey, input: seq<Snapshot>)
      modifies this
      ensures State() == old(State()).(snapshots := PutSnapshots(old(snapshots), key, input))
    {
      for i := 0 to |input|
        invariant State() == old(State()).(snapshots := PutSnapshots(old(snapshots), key, input[..i]))
      {
        assert input[..i + 1][..i] == input[..i];
        snapshots := snapshots[(key, input[i].period) := input[i]];
      }
      assert input[..|input|] == input;
    }

    /** One closed candle's events, checkpoints and cursor, all or nothing. */
    method CommitClosedBar(
      key: SeriesKey, bar: Bar, input: seq<Event>, checkpoints: seq<Snapshot>) returns (ok: bool,
      committed: seq<Event>)
      modifies this
      ensures match CommitClosed(old(State()), key, bar, input, checkpoints)
              case Accepted(state, out) => ok && State() == state && committed == out
              case Refused => !ok && State() == old(State()) && committed == []
    {
      if key in cursors && bar.time <= cursors[key].time {
        return bar.time == cursors[key].time && FingerprintOf(bar) == FingerprintOf(cursors[key]), [];
      }
      hide Persist, EventById;
      committed := [];
      for i := 0 to |input|
        invariant (State(), committed) == CommitEvents(old(State()), input[..i])
      {
        assert input[..i + 1][..i] == input[..i];
        var done := CommitOne(input[i]);
        committed := committed + [done];
      }
      assert input[..|input|] == input;
      StoreSnapshots(key, checkpoints);
      cursors := cursors[key := bar];
      ok := true;
    }

    method CommitOne(event: Event) returns (done: Event)
      modifies this
      ensures (State(), done) == CommitEvent(old(State()), event)
    {
      var existing := FindEvent(event.id);
      if existing.Some? && existing.value.cursor > 0 {
        return existing.value;
      }
      next := next + 1;
      done := event.(cursor := next);
      ghost var middle := State();
      PersistEventState(done);
      assert Persist(middle, done) == Persist(old(State()), done).(next := next);
      events := events + [done];
    }

    method WipeSeries(key: SeriesKey)
      modifies this
      ensures State() == Wipe(old(State()), key)
    {
      var doomed := set k | k in snapshots && k.0 == key;
      snapshots := snapshots - doomed;
      var gone := set id | id in points && points[id].key == key;
      points := points - gone;
    }

    /** Replaces a series' checkpoints and points, moving its cursor only forward. */
    method Rebuild(
      key: SeriesKey, input: seq<Event>, checkpoints: seq<Snapshot>, lastBar: Option<Bar>) returns (ok: bool,
      committed: seq<Event>)
      modifies this
      ensures match RebuildSeries(old(State()), key, input, checkpoints, lastBar)
              case Accepted(state, out) => ok && State() == state && committed == out
              case Refused => !ok && State() == old(State()) && committed == []
    {
      if lastBar.Some? && key in cursors && cursors[key].time > lastBar.value.time {
        return false, [];
      }
      hide Persist;
      WipeSeries(key);
      ghost var wiped := State();
      committed := [];
      for i := 0 to |input|
        invariant State() == RebuildEvents(wiped, input[..i])
        invariant events == old(events) + committed
      {
        assert input[..i + 1][..i] == input[..i];
        var added := RebuildOne(input[i]);
        committed := committed + added;
      }
      assert input[..|input|] == input;
      assert events[|old(events)|..] == committed;
      StoreSnapshots(key, checkpoints);
      if lastBar.Some? {
        cursors := cursors[key := lastBar.value];
      }
      ok := true;
    }

    method RebuildOne(event: Event) returns (added: seq<Event>)
      modifies this
      ensures State() == RebuildEvent(old(State()), event)
      ensures events == old(events) + added
    {
      PersistEventState(event);
      added := [];
      if event.reset {
        next := next + 1;
        added := [event.(cursor := next)];
        events := events + added;
        published := published - {next};
      }
    }

    method Recover(key: SeriesKey) returns (recovery: Recovery)
      ensures recovery == LoadRecovery(State(), key)
    {
      recovery := Recovery(None, map[]);
      if key in cursors {
        recovery := recovery.(cursor := Some(cursors[key]));
      }
      var todo := snapshots.Keys;
      while todo != {}
        invariant todo <= snapshots.Keys
        invariant recovery.cursor == LoadRecovery(State(), key).cursor
        invariant recovery.snapshots == map k | k in snapshots && k !in todo && k.0 == key :: k.1 := snapshots[k]
        decreases todo
      {
        var k :| k in todo;
        if k.0 == key {
          recovery := recovery.(snapshots := recovery.snapshots[k.1 := snapshots[k]]);
        }
        todo := todo - {k};
      }
    }

    method QueryEvents(filter: EventFilter, limit: int) returns (page: seq<Event>)
      ensures page == Page(State(), filter, NormalLimit(limit))
    {
      var most := NormalLimit(limit);
      page := [];
      assert Filter(Selected(filter), events[..0]) == [];
      hide Filter;
      for i := 0 to |events|
        invariant |page| < most
        invariant page == Filter(Selected(filter), events[..i])
      {
        FilterTake(Selected(filter), events, i);
        if Selects(filter, events[i]) {
          page := page + [events[i]];
          if |page| == most {
            PrefixFilter(Selected(filter), events, i + 1);
            return;
          }
        }
      }
      assert events[..|events|] == events;
    }

    method PendingEvents(limit: int) returns (page: seq<Event>)
      ensures page == Pending(State(), if limit <= 0 then 100 else limit)
    {
      var most := if limit <= 0 then 100 else limit;
      page := [];
      assert Filter(Unpublished(State()), events[..0]) == [];
      hide Filter;
      for i := 0 to |events|
        invariant |page| < most
        invariant page == Filter(Unpublished(State()), events[..i])
      {
        FilterTake(Unpublished(State()), events, i);
        if events[i].cursor !in published {
          page := page + [events[i]];
          if |page| == most {
            PrefixFilter(Unpublished(State()), events, i + 1);
            return;
          }
        }
      }
      assert events[..|events|] == events;
    }

    method MarkPublished(cursors: seq<nat>)
      modifies this
      ensures State() == old(State()).(published := old(published) + set c | c in cursors)
    {
      for i := 0 to |cursors|
        invariant State() == old(State()).(published := old(published) + set c | c in cursors[..i])
      {
        published := published + {cursors[i]};
        assert forall c :: c in cursors[..i + 1] <==> c in cursors[..i] || c == cursors[i];
      }
      assert cursors[..|cursors|] == cursors;
    }
  }
}
