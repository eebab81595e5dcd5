/** Coalescing of forming frames (internal/broker/jetstream.go:110-187, cmd/signald/main.go:46-66). */
module Coalescer {
  import opened Model
  import opened Store

  /** One second, in nanoseconds. */
  const LIVE_PUBLISH_INTERVAL: int := 1_000_000_000

  datatype Color = Doji | Green | Red

  function ColorOf(bar: Bar): Color {
    if bar.close > bar.open then Green else if bar.close < bar.open then Red else Doji
  }

  datatype LiveCursor = LiveCursor(openTime: nat, color: Color, lastPublished: int)

  /** The last published forming frame of each series since its last confirmed one. */
  type Live = map<SeriesKey, LiveCursor>

  datatype FrameKind = ConfirmedFrame | ResetFrame | SnapshotFrame | TransitionFrame

  /** One call to the stream: the clock it reads and whether the stream accepts. */
  datatype Attempt = Attempt(now: int, ok: bool)

  datatype Verdict = Ignored | Suppressed | Published(kind: FrameKind) | Dropped | NotAccepted

  predicate IsTransition(live: Live, event: Event) {
    event.key !in live || live[event.key].openTime != event.barTime || live[event.key].color != ColorOf(event.sourceBar)
  }

  predicate IsDue(live: Live, event: Event, now: int)
    requires event.key in live
  {
    now - live[event.key].lastPublished >= LIVE_PUBLISH_INTERVAL
  }

  function NextCursor(event: Event, now: int): LiveCursor { LiveCursor(event.barTime, ColorOf(event.sourceBar), now) }

  function KindOf(event: Event, disposable: bool): FrameKind {
    if event.reset then ResetFrame
    else if event.provisional && disposable then SnapshotFrame
    else if event.provisional then TransitionFrame
    else ConfirmedFrame
  }

  /** One call of PublishEvaluation. */
  function Try(live: Live, event: Event, attempt: Attempt): (Live, Verdict) {
    if event.kind != MarketEvent then (live, Ignored)
    else if !event.provisional then
      if attempt.ok then (live - {event.key}, Published(KindOf(event, false))) else (live, NotAccepted)
    else if !IsTransition(live, event) && !IsDue(live, event, attempt.now) then (live, Suppressed)
    else if attempt.ok then
      (live[event.key := NextCursor(event, attempt.now)], Published(KindOf(event, !IsTransition(live, event))))
    else (live, if IsTransition(live, event) then NotAccepted else Dropped)
  }

  /** A frame on the stream. */
  datatype Sent = Sent(event: Event, kind: FrameKind, at: int)

  /** Retries until accepted; suppressed and disposable frames are given up at once. */
  function Deliver(live: Live, event: Event, attempts: seq<Attempt>): (Live, seq<Sent>) {
    if attempts == [] then (live, [])
    else
      var r := Try(live, event, attempts[0]);
      match r.1
      case Published(kind) => (r.0, [Sent(event, kind, attempts[0].now)])
      case NotAccepted => Deliver(live, event, attempts[1..])
      case _ => (live, [])
  }

  datatype Arrival = Arrival(event: Event, attempts: seq<Attempt>)

  function RunAll(live: Live, arrivals: seq<Arrival>): (Live, seq<Sent>) {
    if arrivals == [] then (live, [])
    else
      var before, last := RunAll(live, arrivals[..|arrivals| - 1]), arrivals[|arrivals| - 1];
      var r := Deliver(before.0, last.event, last.attempts);
      (r.0, before.1 + r.1)
  }

  // ---- What a consumer can tell apart ------------------------------------

  /** A forming frame counts by its candle and colour, a confirmed one by itself. */
  datatype Mark = Forming(openTime: nat, color: Color) | Confirmed(event: Event)

  function MarkOf(event: Event): Mark {
    if event.provisional then Forming(event.barTime, ColorOf(event.sourceBar)) else Confirmed(event)
  }

  /** Drops a forming mark that repeats the mark before it. */
  function Dedup(marks: seq<Mark>): seq<Mark> {
    if marks == [] then [] else Push(Dedup(marks[..|marks| - 1]), marks[|marks| - 1])
  }

  function Push(marks: seq<Mark>, mark: Mark): seq<Mark> {
    if marks != [] && mark.Forming? && marks[|marks| - 1] == mark then marks else marks + [mark]
  }

  predicate IsFrameOf(event: Event, key: SeriesKey) { event.kind == MarketEvent && event.key == key }

  /** The marks of one series among the arrivals. */
  function Arrived(arrivals: seq<Arrival>, key: SeriesKey): seq<Mark> {
    if arrivals == [] then []
    else
      var rest, event := Arrived(arrivals[..|arrivals| - 1], key), arrivals[|arrivals| - 1].event;
      if IsFrameOf(event, key) then rest + [MarkOf(event)] else rest
  }

  /** The frames of one series on the stream, and their marks. */
  function OfSeries(sent: seq<Sent>, key: SeriesKey): seq<Sent> {
    if sent == [] then []
    else
      var rest, last := OfSeries(sent[..|sent| - 1], key), sent[|sent| - 1];
      if IsFrameOf(last.event, key) then rest + [last] else rest
  }

  function Marks(sent: seq<Sent>): seq<Mark> {
    if sent == [] then [] else Marks(sent[..|sent| - 1]) + [MarkOf(sent[|sent| - 1].event)]
  }

  /** Some call is accepted: frames that are retried get through. */
  predicate GetsThrough(attempts: seq<Attempt>) { exists i :: 0 <= i < |attempts| && attempts[i].ok }

  ghost predicate AllGetThrough(arrivals: seq<Arrival>) {
    forall i :: 0 <= i < |arrivals| ==> GetsThrough(arrivals[i].attempts)
  }

  // ---- One arrival -------------------------------------------------------

  /** Confirmed frames and transitions are published by the first call that is accepted. */
  lemma {:induction false} RetriedGetsThrough(live: Live, event: Event, attempts: seq<Attempt>) returns (k: nat)
    requires event.kind == MarketEvent && GetsThrough(attempts)
    requires !event.provisional || IsTransition(live, event)
    ensures k < |attempts| && attempts[k].ok && forall i :: 0 <= i < k ==> !attempts[i].ok
    ensures Deliver(live, event, attempts) ==
            (if event.provisional then live[event.key := NextCursor(event, attempts[k].now)] else live - {event.key},
             [Sent(event, KindOf(event, false), attempts[k].now)])
  {
    if attempts[0].ok {
      k := 0;
    } else {
      var i :| 0 <= i < |attempts| && attempts[i].ok;
      assert attempts[1..][i - 1].ok;
      var n := RetriedGetsThrough(live, event, attempts[1..]);
      k := n + 1;
      assert attempts[1..][n] == attempts[k];
      assert forall m :: 1 <= m < k ==> attempts[m] == attempts[1..][m - 1];
    }
  }

  /** A repeated forming frame has one chance, its first call: it is published, as a disposable
      snapshot, exactly when that call is accepted a second or more after the last published one. */
  lemma {:induction false} RepeatIsReplaceable(live: Live, event: Event, attempts: seq<Attempt>)
    requires event.kind == MarketEvent && event.provisional && !IsTransition(live, event)
    ensures var chance := attempts != [] && attempts[0].ok && attempts[0].now - live[event.key].lastPublished >= 1_000_000_000;
            Deliver(live, event, attempts) ==
            if chance && event.reset then
              (live[event.key := NextCursor(event, attempts[0].now)], [Sent(event, ResetFrame, attempts[0].now)])
            else if chance then
              (live[event.key := NextCursor(event, attempts[0].now)], [Sent(event, SnapshotFrame, attempts[0].now)])
            else (live, [])
  {
    if attempts != [] {
      match Try(live, event, attempts[0]).1
      case Published(_) =>
      case _ =>
    }
  }

  /** Only market frames are published. */
  lemma {:induction false} NotAFrame(live: Live, event: Event, attempts: seq<Attempt>)
    requires event.kind != MarketEvent
    ensures Deliver(live, event, attempts) == (live, [])
  {
  }

  lemma {:induction false} OtherFrames(live: Live, event: Event, attempts: seq<Attempt>, key: SeriesKey)
    requires !IsFrameOf(event, key)
    ensures var r := Deliver(live, event, attempts);
            && (key in r.0 <==> key in live) && (key in live ==> r.0[key] == live[key])
            && |r.1| <= 1
            && (forall i :: 0 <= i < |r.1| ==> r.1[i].event == event)
  {
    if attempts != [] {
      OtherFrames(live, event, attempts[1..], key);
    }
  }

  // ---- Every stream ------------------------------------------------------

  /** The live entry of a series is its last published frame, if that one was forming. */
  ghost predicate Remembers(live: Live, sent: seq<Sent>, key: SeriesKey) {
    if key in live then
      && sent != []
      && var last := sent[|sent| - 1];
         && MarkOf(last.event) == Forming(live[key].openTime, live[key].color)
         && last.at == live[key].lastPublished
    else sent == [] || !sent[|sent| - 1].event.provisional
  }

  /** Whether entry `i` is a forming frame of the candle and colour the entry before it had. */
  predicate Repeats(sent: seq<Sent>, i: nat)
    requires i < |sent|
  {
    i > 0 && sent[i].event.provisional && MarkOf(sent[i - 1].event) == MarkOf(sent[i].event)
  }

  /** A snapshot follows the frame before it, of the same candle and colour, by a second or more;
      every other frame is labelled for what it is. */
  predicate Spaced(sent: seq<Sent>) {
    && (forall i: nat :: i < |sent| && Repeats(sent, i) ==> sent[i].at - sent[i - 1].at >= LIVE_PUBLISH_INTERVAL)
    && (forall i: nat :: i < |sent| && Repeats(sent, i) ==> sent[i].kind == SnapshotFrame)
    && (forall i: nat :: i < |sent| && !Repeats(sent, i) ==> sent[i].kind == LabelOf(sent[i].event))
  }

  function LabelOf(event: Event): FrameKind {
    if event.reset then ResetFrame else if event.provisional then TransitionFrame else ConfirmedFrame
  }

  lemma {:induction false} OfSeriesPush(sent: seq<Sent>, more: seq<Sent>, key: SeriesKey)
    requires |more| <= 1
    ensures OfSeries(sent + more, key) == OfSeries(sent, key) + if more != [] && IsFrameOf(more[0].event, key) then more else []
  {
    if more == [] {
      assert sent + more == sent;
    } else {
      assert (sent + more)[..|sent|] == sent;
      assert more == [more[0]];
    }
  }

  lemma {:induction false} MarksPush(sent: seq<Sent>, one: Sent)
    ensures Marks(sent + [one]) == Marks(sent) + [MarkOf(one.event)]
  {
    assert (sent + [one])[..|sent|] == sent;
  }

  lemma {:induction false} DedupPush(marks: seq<Mark>, mark: Mark)
    ensures Dedup(marks + [mark]) == Push(Dedup(marks), mark)
  {
    assert (marks + [mark])[..|marks|] == marks;
  }

  lemma {:induction false} DedupLast(marks: seq<Mark>)
    ensures marks != [] ==> Dedup(marks) != [] && Dedup(marks)[|Dedup(marks)| - 1] == marks[|marks| - 1]
    ensures marks == [] ==> Dedup(marks) == []
  {
    if marks != [] {
      DedupLast(marks[..|marks| - 1]);
    }
  }

  /** What one arrival does to the frames and marks of its own series. */
  lemma {:induction false} ArrivalKeeps(live: Live, sent: seq<Sent>, event: Event, attempts: seq<Attempt>)
    requires event.kind == MarketEvent && GetsThrough(attempts) && (event.reset ==> !event.provisional)
    requires Remembers(live, sent, event.key) && Spaced(sent)
    ensures var r := Deliver(live, event, attempts);
            && Remembers(r.0, sent + r.1, event.key) && Spaced(sent + r.1) && |r.1| <= 1
            && Dedup(Marks(sent + r.1)) == Push(Dedup(Marks(sent)), MarkOf(event))
            && (forall i :: 0 <= i < |r.1| ==> r.1[i].event == event)
  {
    hide Deliver, Dedup, Marks, Spaced, Remembers;
    var r, mark := Deliver(live, event, attempts), MarkOf(event);
    DedupLast(Marks(sent));
    MarksLast(sent);
    RemembersMark(live, sent, event);
    if !event.provisional || IsTransition(live, event) {
      var k := RetriedGetsThrough(live, event, attempts);
      MarksPush(sent, r.1[0]);
      DedupPush(Marks(sent), mark);
      SpacedPush(live, sent, r.1[0]);
      RemembersPush(live, sent, event, r.1[0]);
    } else {
      RepeatIsReplaceable(live, event, attempts);
      if r.1 == [] {
        assert sent + r.1 == sent;
      } else {
        MarksPush(sent, r.1[0]);
        DedupPush(Marks(sent), mark);
        SpacedPush(live, sent, r.1[0]);
        RemembersPush(live, sent, event, r.1[0]);
      }
    }
  }

  /** A forming frame is no transition exactly when it repeats the last published mark. */
  lemma {:induction false} RemembersMark(live: Live, sent: seq<Sent>, event: Event)
    requires Remembers(live, sent, event.key)
    ensures event.provisional ==>
              (!IsTransition(live, event) <==> sent != [] && MarkOf(sent[|sent| - 1].event) == MarkOf(event))
    ensures event.key in live ==> sent != [] && sent[|sent| - 1].at == live[event.key].lastPublished
  {
  }

  /** One more frame of the series, published for what it is. */
  lemma {:induction false} SpacedPush(live: Live, sent: seq<Sent>, one: Sent)
    requires Spaced(sent) && Remembers(live, sent, one.event.key)
    requires one.event.provisional && !IsTransition(live, one.event) ==>
               one.kind == SnapshotFrame && one.at - live[one.event.key].lastPublished >= LIVE_PUBLISH_INTERVAL
    requires !one.event.provisional || IsTransition(live, one.event) ==> one.kind == LabelOf(one.event)
    ensures Spaced(sent + [one])
  {
    hide Remembers;
    RemembersMark(live, sent, one.event);
    var all := sent + [one];
    forall i: nat | i < |sent| ensures Repeats(all, i) == Repeats(sent, i) {
    }
  }

  lemma {:induction false} RemembersPush(live: Live, sent: seq<Sent>, event: Event, one: Sent)
    requires one.event == event
    ensures var after := if event.provisional then live[event.key := NextCursor(event, one.at)] else live - {event.key};
            Remembers(after, sent + [one], event.key)
  {
  }

  lemma {:induction false} MarksLast(sent: seq<Sent>)
    ensures |Marks(sent)| == |sent|
    ensures sent != [] ==> Marks(sent)[|sent| - 1] == MarkOf(sent[|sent| - 1].event)
  {
    if sent != [] {
      MarksLast(sent[..|sent| - 1]);
    }
  }

  /** A forming frame is never a reset. */
  ghost predicate WellFormed(arrivals: seq<Arrival>) {
    forall i :: 0 <= i < |arrivals| ==> (arrivals[i].event.reset ==> !arrivals[i].event.provisional)
  }

  /** Lossless coalescing, for every series of every stream: published and incoming frames have
      the same marks once consecutive repeats are removed, and every snapshot comes at least a
      second after the frame published before it. */
  lemma {:induction false} CoalescingIsLossless(arrivals: seq<Arrival>, key: SeriesKey)
    requires AllGetThrough(arrivals) && WellFormed(arrivals)
    ensures var r := RunAll(map[], arrivals);
            && Dedup(Marks(OfSeries(r.1, key))) == Dedup(Arrived(arrivals, key))
            && Spaced(OfSeries(r.1, key))
            && Remembers(r.0, OfSeries(r.1, key), key)
  {
    if arrivals != [] {
      hide Dedup, Marks, OfSeries, Deliver, Spaced, Remembers, GetsThrough;
      var rest, last := arrivals[..|arrivals| - 1], arrivals[|arrivals| - 1];
      assert forall i :: 0 <= i < |rest| ==> rest[i] == arrivals[i];
      CoalescingIsLossless(rest, key);
      var before := RunAll(map[], rest);
      var r := Deliver(before.0, last.event, last.attempts);
      if IsFrameOf(last.event, key) {
        ArrivalKeeps(before.0, OfSeries(before.1, key), last.event, last.attempts);
        OfSeriesPush(before.1, r.1, key);
        DedupPush(Arrived(rest, key), MarkOf(last.event));
      } else {
        OtherFrames(before.0, last.event, last.attempts, key);
        OfSeriesPush(before.1, r.1, key);
        assert OfSeries(before.1, key) + [] == OfSeries(before.1, key);
        RemembersSame(before.0, r.0, OfSeries(before.1, key), key);
      }
    }
  }

  lemma RemembersSame(a: Live, b: Live, sent: seq<Sent>, key: SeriesKey)
    requires Remembers(a, sent, key) && (key in b <==> key in a) && (key in a ==> b[key] == a[key])
    ensures Remembers(b, sent, key)
  {
  }

  // ---- The publisher -----------------------------------------------------

  class Broker {
    var live: Live

    constructor ()
      ensures live == map[]
    {
      live := map[];
    }

    method LiveDecision(event: Event, now: int) returns (publish: bool, disposable: bool, next: LiveCursor)
      ensures publish == (IsTransition(live, event) || IsDue(live, event, now))
      ensures disposable == (publish && !IsTransition(live, event))
      ensures next == NextCursor(event, now)
    {
      var color := Doji;
      if event.sourceBar.close > event.sourceBar.open {
        color := Green;
      } else if event.sourceBar.close < event.sourceBar.open {
        color := Red;
      }
      var transition := true;
      publish := true;
      if event.key in live {
        var previous := live[event.key];
        transition := previous.openTime != event.barTime || previous.color != color;
        publish := transition || now - previous.lastPublished >= LIVE_PUBLISH_INTERVAL;
      }
      disposable := publish && !transition;
      next := LiveCursor(event.barTime, color, now);
    }

    method PublishEvaluation(event: Event, attempt: Attempt) returns (verdict: Verdict)
      modifies this
      ensures (live, verdict) == Try(old(live), event, attempt)
    {
      if event.kind != MarketEvent {
        return Ignored;
      }
      var disposable := false;
      var next := NextCursor(event, attempt.now);
      if event.provisional {
        var publish;
        publish, disposable, next := LiveDecision(event, attempt.now);
        if !publish {
          return Suppressed;
        }
      }
      if !attempt.ok {
        return if disposable then Dropped else NotAccepted;
      }
      if event.provisional {
        live := live[event.key := next];
      } else {
        live := live - {event.key};
      }
      verdict := Published(KindOf(event, disposable));
    }

    /** Retries a refused frame; `attempts` ends where the process shuts down. */
    method Publish(event: Event, attempts: seq<Attempt>) returns (sent: seq<Sent>)
      modifies this
      ensures (live, sent) == Deliver(old(live), event, attempts)
    {
      hide Try;
      var i := 0;
      while i < |attempts|
        invariant 0 <= i <= |attempts| && live == old(live)
        invariant Deliver(old(live), event, attempts[i..]) == Deliver(old(live), event, attempts)
      {
        var verdict := PublishEvaluation(event, attempts[i]);
        assert attempts[i..][0] == attempts[i] && attempts[i..][1..] == attempts[i + 1..];
        TryFails(old(live), event, attempts[i]);
        if verdict.Published? {
          return [Sent(event, verdict.kind, attempts[i].now)];
        }
        if !verdict.NotAccepted? {
          return [];
        }
        i := i + 1;
      }
      return [];
    }
  }

  /** Only a published frame changes what is remembered. */
  lemma TryFails(live: Live, event: Event, attempt: Attempt)
    ensures !Try(live, event, attempt).1.Published? ==> Try(live, event, attempt).0 == live
  {
  }
}
