/** The event log over every transaction, and what a transaction does to one series. */
module Durable {
  import opened Model
  import opened Store
  import opened Fold

  // ---- The log invariant -------------------------------------------------

  /** An event's identity carries its series, candle and kind. */
  predicate Shaped(e: Event) {
    && e.id.key == e.key
    && e.id.time == e.barTime
    && !e.provisional
    && (e.reset <==> e.id.ResetId?)
  }

  predicate PointShaped(e: Event) {
    && e.kind == PointEvent && !e.provisional && !e.reset
    && e.algorithm == EmaAlgorithm(e.period)
    && e.id == PointId(e.key, e.barTime, e.algorithm, e.period, false, e.revision)
  }

  predicate Within(s: StoreState, e: Event) {
    e.key in s.cursors && e.barTime <= s.cursors[e.key].time
  }

  /** The i-th entry has cursor i + 1. */
  ghost predicate Dense(s: StoreState) {
    s.next == |s.events| && forall i :: 0 <= i < |s.events| ==> s.events[i].cursor == i + 1
  }

  ghost predicate BoundedLog(s: StoreState) {
    forall i :: 0 <= i < |s.events| ==> Shaped(s.events[i]) && Within(s, s.events[i])
  }

  /** Within a series, later entries are never about earlier candles. */
  ghost predicate OrderedLog(events: seq<Event>) {
    forall i, j :: 0 <= i < j < |events| && events[i].key == events[j].key ==> events[i].barTime <= events[j].barTime
  }

  /** Only a reset may reappear under its identity. */
  ghost predicate UniqueLog(events: seq<Event>) {
    forall i, j :: 0 <= i < j < |events| && !events[i].reset && !events[j].reset ==> events[i].id != events[j].id
  }

  ghost predicate ShapedPoints(s: StoreState) {
    forall id :: id in s.points ==> s.points[id].id == id && PointShaped(s.points[id]) && Within(s, s.points[id])
  }

  ghost predicate LogInv(s: StoreState) {
    Dense(s) && BoundedLog(s) && OrderedLog(s.events) && UniqueLog(s.events) && ShapedPoints(s)
  }

  /** Entries about to be appended for one candle of one series. */
  ghost predicate Batch(key: SeriesKey, time: nat, next: nat, added: seq<Event>) {
    && (forall i :: 0 <= i < |added| ==>
          added[i].cursor == next + 1 + i && Shaped(added[i]) && added[i].key == key && added[i].barTime == time)
    && UniqueLog(added)
  }

  ghost predicate AllReset(added: seq<Event>) {
    forall i :: 0 <= i < |added| ==> added[i].reset
  }

  /** A transaction on `key`: the log grows by a batch at `bar`, the cursor moves to it, and
      points change only for that series. */
  ghost predicate Grows(s: StoreState, t: StoreState, key: SeriesKey, bar: Bar, added: seq<Event>) {
    && t.events == s.events + added
    && t.next == s.next + |added|
    && t.cursors == s.cursors[key := bar]
    && (key in s.cursors ==> s.cursors[key].time <= bar.time)
    && Batch(key, bar.time, s.next, added)
    && (AllReset(added) || (key in s.cursors ==> s.cursors[key].time < bar.time))
    && (forall id :: id in t.points ==>
          || (id in s.points && t.points[id] == s.points[id])
          || (t.points[id].id == id && PointShaped(t.points[id]) && t.points[id].key == key && t.points[id].barTime <= bar.time))
  }

  lemma {:induction false} GrowsUnique(s: StoreState, t: StoreState, key: SeriesKey, bar: Bar, added: seq<Event>)
    requires BoundedLog(s) && UniqueLog(s.events) && Grows(s, t, key, bar, added)
    ensures UniqueLog(t.events)
  {
    var n := |s.events|;
    forall i, j | 0 <= i < j < |t.events| && !t.events[i].reset && !t.events[j].reset
      ensures t.events[i].id != t.events[j].id
    {
      if i < n && j >= n {
        assert t.events[i] == s.events[i] && t.events[j] == added[j - n];
        assert Shaped(s.events[i]) && Within(s, s.events[i]);
      } else if i >= n {
        assert t.events[i] == added[i - n] && t.events[j] == added[j - n];
      }
    }
  }

  lemma {:induction false} GrowsOrdered(s: StoreState, t: StoreState, key: SeriesKey, bar: Bar, added: seq<Event>)
    requires BoundedLog(s) && OrderedLog(s.events) && Grows(s, t, key, bar, added)
    ensures OrderedLog(t.events)
  {
    var n := |s.events|;
    forall i, j | 0 <= i < j < |t.events| && t.events[i].key == t.events[j].key
      ensures t.events[i].barTime <= t.events[j].barTime
    {
      if i < n && j >= n {
        assert t.events[i] == s.events[i] && t.events[j] == added[j - n];
        assert Within(s, s.events[i]);
      } else if i >= n {
        assert t.events[i] == added[i - n] && t.events[j] == added[j - n];
      }
    }
  }

  /** Every such transaction keeps the log invariant. */
  lemma {:induction false} GrowsKeepsLog(s: StoreState, t: StoreState, key: SeriesKey, bar: Bar, added: seq<Event>)
    requires LogInv(s) && Grows(s, t, key, bar, added)
    ensures LogInv(t)
  {
    GrowsUnique(s, t, key, bar, added);
    GrowsOrdered(s, t, key, bar, added);
    hide UniqueLog, OrderedLog;
    var n := |s.events|;
    forall i | 0 <= i < |t.events|
      ensures t.events[i].cursor == i + 1 && Shaped(t.events[i]) && Within(t, t.events[i])
    {
      if i < n {
        assert t.events[i] == s.events[i];
      } else {
        assert t.events[i] == added[i - n];
      }
    }
  }

  // ---- Persisting the points of one candle -------------------------------

  ghost predicate NoSamePoint(points: map<EventId, Event>, e: Event) {
    forall id :: id in points ==> !SamePoint(points[id], e)
  }

  lemma {:induction false} PersistFresh(s: StoreState, e: Event)
    requires e.kind == PointEvent && NoSamePoint(s.points, e)
    ensures Persist(s, e) == s.(points := s.points[e.id := e])
  {
    assert (map id | id in s.points && !SamePoint(s.points[id], e) :: s.points[id]) == s.points;
  }

  lemma {:induction false} PutPointsValue(m: map<EventId, Event>, events: seq<Event>, id: EventId)
    requires id in PutPoints(m, events)
    ensures (id in m && PutPoints(m, events)[id] == m[id]) ||
            (PutPoints(m, events)[id] in events && PutPoints(m, events)[id].id == id)
  {
    if events != [] && id != events[|events| - 1].id {
      PutPointsValue(m, events[..|events| - 1], id);
    }
  }

  /** No point of the series belongs to this candle. */
  ghost predicate NoPointsAt(points: map<EventId, Event>, key: SeriesKey, time: nat) {
    forall id :: id in points && points[id].key == key ==> points[id].barTime != time
  }

  function Stamped(events: seq<Event>, next: nat): (r: seq<Event>)
    ensures |r| == |events|
    ensures forall i :: 0 <= i < |events| ==> r[i] == events[i].(cursor := next + 1 + i)
  {
    seq(|events|, i requires 0 <= i < |events| => events[i].(cursor := next + 1 + i))
  }

  /** Points of one candle up to their cursors. */
  predicate Points(key: SeriesKey, periods: seq<Period>, bar: Bar, events: seq<Event>) {
    && (forall i :: 0 <= i < |events| ==> PointOfBar(key, bar, Blank(events[i])) && events[i].period in periods)
    && (forall i, j :: 0 <= i < j < |events| ==> events[i].period < events[j].period)
  }

  lemma PointsInit(key: SeriesKey, periods: seq<Period>, bar: Bar, events: seq<Event>)
    requires Points(key, periods, bar, events) && events != []
    ensures Points(key, periods, bar, events[..|events| - 1])
  {
  }

  lemma {:induction false} NextIsFresh(m: map<EventId, Event>, key: SeriesKey, periods: seq<Period>, bar: Bar, events: seq<Event>)
    requires Points(key, periods, bar, events) && events != [] && NoPointsAt(m, key, bar.time)
    ensures NoSamePoint(PutPoints(m, events[..|events| - 1]), events[|events| - 1])
  {
    var rest, e := events[..|events| - 1], events[|events| - 1];
    assert PointOfBar(key, bar, Blank(e));
    forall id | id in PutPoints(m, rest) ensures !SamePoint(PutPoints(m, rest)[id], e) {
      PutPointsValue(m, rest, id);
      if PutPoints(m, rest)[id] in rest {
        var k :| 0 <= k < |rest| && rest[k] == PutPoints(m, rest)[id];
        assert events[k].period < e.period;
      }
    }
  }

  lemma {:induction false} RebuildPointList(s: StoreState, key: SeriesKey, periods: seq<Period>, bar: Bar, events: seq<Event>)
    requires Points(key, periods, bar, events) && NoPointsAt(s.points, key, bar.time)
    ensures RebuildEvents(s, events) == s.(points := PutPoints(s.points, events))
  {
    if events != [] {
      var rest, e := events[..|events| - 1], events[|events| - 1];
      PointsInit(key, periods, bar, events);
      RebuildPointList(s, key, periods, bar, rest);
      NextIsFresh(s.points, key, periods, bar, events);
      assert PointOfBar(key, bar, Blank(e));
      PersistFresh(s.(points := PutPoints(s.points, rest)), e);
    }
  }

  /** No log entry of the series belongs to this candle. */
  ghost predicate NoEntriesAt(events: seq<Event>, key: SeriesKey, time: nat) {
    forall i :: 0 <= i < |events| ==> !(events[i].id.key == key && events[i].id.time == time)
  }

  lemma {:induction false} CommitPointFresh(s: StoreState, e: Event)
    requires e.kind == PointEvent
    requires e.id !in s.points && FindInLog(s.events, e.id).None? && NoSamePoint(s.points, e)
    ensures var stamped := e.(cursor := s.next + 1);
            CommitEvent(s, e) == (s.(next := s.next + 1, events := s.events + [stamped], points :=
              s.points[e.id := stamped]), stamped)
  {
    PersistFresh(s, e.(cursor := s.next + 1));
  }

  lemma {:induction false} NotInLog(events: seq<Event>, id: EventId)
    requires forall i :: 0 <= i < |events| ==> events[i].id != id
    ensures FindInLog(events, id).None?
  {
    assert forall e :: e in events ==> e.id != id;
  }

  /** The state after committing fresh points of one candle. */
  function WithPoints(s: StoreState, events: seq<Event>): StoreState {
    s.(next := s.next + |events|,
       events := s.events + Stamped(events, s.next),
       points := PutPoints(s.points, Stamped(events, s.next)))
  }

  lemma StampedInit(events: seq<Event>, next: nat)
    requires events != []
    ensures Stamped(events, next)[..|events| - 1] == Stamped(events[..|events| - 1], next)
    ensures Stamped(events, next) == Stamped(events[..|events| - 1], next) + [events[|events| - 1].(cursor := next + |events|)]
  {
  }

  /** Nothing the store holds of the series belongs to this candle. */
  ghost predicate CandleIsNew(s: StoreState, key: SeriesKey, time: nat) {
    && NoPointsAt(s.points, key, time)
    && NoEntriesAt(s.events, key, time)
    && (forall id :: id in s.points ==> s.points[id].id == id && PointShaped(s.points[id]))
  }

  lemma {:induction false} CommitPointList(s: StoreState, key: SeriesKey, periods: seq<Period>, bar: Bar, events: seq<Event>)
    requires Points(key, periods, bar, events) && CandleIsNew(s, key, bar.time)
    ensures CommitEvents(s, events) == (WithPoints(s, events), Stamped(events, s.next))
  {
    hide Points, CandleIsNew, WithPoints, Stamped, CommitEvent, CommitEvents, FindInLog, NoSamePoint;
    if events == [] {
      CommitNothing(s);
    } else {
      var rest, e := events[..|events| - 1], events[|events| - 1];
      PointsInit(key, periods, bar, events);
      CommitPointList(s, key, periods, bar, rest);
      CommitUnfold(s, events);
      StampedInit(events, s.next);
      LastIsFresh(s, key, periods, bar, events);
      LastCommitted(s, rest, e);
      assert rest + [e] == events;
    }
  }

  lemma {:induction false} CommitNothing(s: StoreState)
    ensures CommitEvents(s, []) == (WithPoints(s, []), Stamped([], s.next))
  {
    assert Stamped([], s.next) == [];
    assert s.events + [] == s.events;
  }

  lemma CommitUnfold(s: StoreState, events: seq<Event>)
    requires events != []
    ensures var before := CommitEvents(s, events[..|events| - 1]);
            var last := CommitEvent(before.0, events[|events| - 1]);
            CommitEvents(s, events) == (last.0, before.1 + [last.1])
  {
  }

  lemma {:induction false} LastCommitted(s: StoreState, rest: seq<Event>, e: Event)
    requires e.kind == PointEvent
    requires e.id !in WithPoints(s, rest).points && FindInLog(WithPoints(s, rest).events, e.id).None? &&
             NoSamePoint(WithPoints(s, rest).points, e)
    ensures CommitEvent(WithPoints(s, rest), e) == (WithPoints(s, rest + [e]), e.(cursor := s.next + |rest| + 1))
  {
    hide CommitEvent, PutPoints, FindInLog, NoSamePoint, Stamped;
    CommitPointFresh(WithPoints(s, rest), e);
    StampedInit(rest + [e], s.next);
    assert (rest + [e])[..|rest|] == rest;
    var stamped := e.(cursor := s.next + |rest| + 1);
    PutPointsAppend(s.points, Stamped(rest, s.next), stamped);
    assert s.events + Stamped(rest, s.next) + [stamped] == s.events + (Stamped(rest, s.next) + [stamped]);
  }

  lemma {:induction false} PutPointsAppend(m: map<EventId, Event>, events: seq<Event>, e: Event)
    ensures PutPoints(m, events + [e]) == PutPoints(m, events)[e.id := e]
  {
    assert (events + [e])[..|events|] == events;
  }

  lemma {:induction false} LastIsFresh(s: StoreState, key: SeriesKey, periods: seq<Period>, bar: Bar, events: seq<Event>)
    requires Points(key, periods, bar, events) && events != [] && CandleIsNew(s, key, bar.time)
    ensures var t, e := WithPoints(s, events[..|events| - 1]), events[|events| - 1];
            && e.kind == PointEvent
            && e.id !in t.points && FindInLog(t.events, e.id).None? && NoSamePoint(t.points, e)
  {
    var rest, e := events[..|events| - 1], events[|events| - 1];
    var stamped := Stamped(rest, s.next);
    assert PointOfBar(key, bar, Blank(e));
    StampedWithLast(key, periods, bar, events, s.next);
    assert (stamped + [e])[..|stamped|] == stamped;
    NextIsFresh(s.points, key, periods, bar, stamped + [e]);
    IdNotStored(s, key, periods, bar, stamped, e);
    IdNotLogged(s.events, key, periods, bar, stamped, e);
  }

  lemma {:induction false} StampedWithLast(key: SeriesKey, periods: seq<Period>, bar: Bar, events: seq<Event>, next: nat)
    requires Points(key, periods, bar, events) && events != []
    ensures Points(key, periods, bar, Stamped(events[..|events| - 1], next) + [events[|events| - 1]])
  {
    var mixed := Stamped(events[..|events| - 1], next) + [events[|events| - 1]];
    forall i | 0 <= i < |events| ensures Blank(mixed[i]) == Blank(events[i]) && mixed[i].period == events[i].period {
    }
  }

  lemma {:induction false} IdNotStored(
    s: StoreState, key: SeriesKey, periods: seq<Period>, bar: Bar, stamped: seq<Event>, e: Event)
    requires Points(key, periods, bar, stamped + [e]) && CandleIsNew(s, key, bar.time)
    ensures e.id !in PutPoints(s.points, stamped)
  {
    var all := stamped + [e];
    assert PointOfBar(key, bar, Blank(all[|stamped|]));
    forall k | 0 <= k < |stamped| ensures stamped[k].id != e.id {
      assert PointOfBar(key, bar, Blank(all[k])) && all[k].period < all[|stamped|].period;
    }
    PutPointsOld(s.points, stamped, e.id);
    assert e.id in s.points ==> PointShaped(s.points[e.id]);
  }

  lemma {:induction false} IdNotLogged(
    events: seq<Event>, key: SeriesKey, periods: seq<Period>, bar: Bar, stamped: seq<Event>, e: Event)
    requires Points(key, periods, bar, stamped + [e]) && NoEntriesAt(events, key, bar.time)
    ensures FindInLog(events + stamped, e.id).None?
  {
    var all := stamped + [e];
    assert PointOfBar(key, bar, Blank(all[|stamped|]));
    forall i | 0 <= i < |events + stamped| ensures (events + stamped)[i].id != e.id {
      if i >= |events| {
        var k := i - |events|;
        assert PointOfBar(key, bar, Blank(all[k])) && all[k].period < all[|stamped|].period;
      }
    }
    NotInLog(events + stamped, e.id);
  }
}
