/** What a client finds on its socket over every run of the delivery protocol, and the replay as
    the handler runs it (internal/api/server.go:295-353). */
module Sockets {
  import opened Model
  import opened Store
  import Lane
  import Runs
  import opened Durable
  import opened LogShape
  import opened Outbox
  import opened Hub
  import opened Delivery

  // ---- What a socket carries ---------------------------------------------

  predicate IsAbove(event: Event, base: nat) { event.cursor > base }

  function Above(base: nat): Event -> bool { event => IsAbove(event, base) }

  function Selecting(filter: Subscription): Event -> bool { event => Matches(filter, event) }

  /** Drops an event that repeats the cursor before it. */
  function Dedup(events: seq<Event>): seq<Event> {
    if events == [] then []
    else
      var rest, n := Dedup(events[..|events| - 1]), |events|;
      if n >= 2 && events[n - 2].cursor == events[n - 1].cursor then rest else rest + [events[n - 1]]
  }

  predicate CursorsDense(log: seq<Event>) { forall i :: 0 <= i < |log| ==> log[i].cursor == i + 1 }

  /** Whatever has been written so far is gap-free too. */
  lemma {:induction false} GapFreePrefix(events: seq<Event>, n: nat, log: seq<Event>, filter: Subscription, base: nat)
    requires GapFree(events, log, filter, base) && n <= |events| && CursorsDense(log)
    ensures GapFree(events[..n], log, filter, base)
  {
    hide Matches;
    var part := events[..n];
    forall i | 0 <= i < n ensures Covered(part, log, filter, base, part[i].cursor) {
      assert Covered(events, log, filter, base, events[i].cursor) && Genuine(log, filter, events[i]);
      forall c | base < c <= part[i].cursor ensures Holds(part, log, filter, c) {
        assert Holds(events, log, filter, c);
        if 1 <= c <= |log| && log[c - 1] in events {
          var j :| 0 <= j < |events| && events[j] == log[c - 1];
          if j < n {
            assert part[j] == log[c - 1];
          } else {
            assert part[i] == log[c - 1];
          }
        }
      }
    }
    forall i | 0 <= i < n ensures Genuine(log, filter, part[i]) {
      assert Genuine(log, filter, events[i]);
    }
  }

  /** The durable part above a cursor: strictly above, in order, still gap-free. */
  lemma {:induction false} DurablePart(events: seq<Event>, log: seq<Event>, filter: Subscription, base: nat)
    requires GapFree(events, log, filter, base) && CursorsDense(log)
    ensures GapFree(Filter(Above(base), events), log, filter, base)
    ensures forall i :: 0 <= i < |Filter(Above(base), events)| ==> Filter(Above(base), events)[i].cursor > base
  {
    hide Matches, Filter, Covered;
    var part := Filter(Above(base), events);
    DurableSorted(events, base);
    forall i | 0 <= i < |part|
      ensures part[i].cursor > base && Genuine(log, filter, part[i]) && Covered(part, log, filter, base, part[i].cursor)
    {
      FilterMember(Above(base), events, part[i]);
      var k :| 0 <= k < |events| && events[k] == part[i];
      assert Genuine(log, filter, events[k]);
      CoveredAbove(events, log, filter, base, part[i].cursor);
    }
  }

  lemma {:induction false} CoveredAbove(events: seq<Event>, log: seq<Event>, filter: Subscription, base: nat, hi: nat)
    requires Covered(events, log, filter, base, hi) && CursorsDense(log)
    ensures Covered(Filter(Above(base), events), log, filter, base, hi)
  {
    hide Matches, Filter;
    forall c | base < c <= hi ensures Holds(Filter(Above(base), events), log, filter, c) {
      assert Holds(events, log, filter, c);
      if 1 <= c <= |log| && log[c - 1] in events {
        FilterKeeps(Above(base), events, log[c - 1]);
      }
    }
  }

  lemma {:induction false} DurableSorted(events: seq<Event>, base: nat)
    requires forall i, j :: 0 <= i < j < |events| && events[i].cursor > 0 && events[j].cursor > 0 ==>
             events[i].cursor <= events[j].cursor
    ensures var part := Filter(Above(base), events);
            forall i, j :: 0 <= i < j < |part| ==> part[i].cursor <= part[j].cursor
  {
    if events != [] {
      var rest, x := events[..|events| - 1], events[|events| - 1];
      DurableSorted(rest, base);
      var kept := Filter(Above(base), rest);
      forall i | 0 <= i < |kept| && x.cursor > base ensures kept[i].cursor <= x.cursor {
        FilterMember(Above(base), rest, kept[i]);
        var k :| 0 <= k < |rest| && rest[k] == kept[i];
        assert events[k].cursor <= events[|events| - 1].cursor;
      }
    }
  }

  /** A stretch of the log of which only the last entry is selected. */
  lemma {:induction false} OneSelected(log: seq<Event>, filter: Subscription, base: nat, lo: nat, hi: nat)
    requires base <= lo < hi <= |log| && Matches(filter, log[hi - 1])
    requires forall i :: lo <= i < hi - 1 ==> !Matches(filter, log[i])
    ensures Filter(Selecting(filter), log[base..hi]) == Filter(Selecting(filter), log[base..lo]) + [log[hi - 1]]
  {
    hide Matches, Filter;
    var silent, last := log[lo..hi - 1], log[hi - 1];
    forall e | e in silent ensures !Selecting(filter)(e) {
      var i :| 0 <= i < |silent| && silent[i] == e;
      assert log[lo + i] == e;
    }
    FilterNone(Selecting(filter), silent);
    FilterAll(Selecting(filter), [last]);
    FilterConcat(Selecting(filter), log[base..lo], silent);
    FilterConcat(Selecting(filter), log[base..lo] + silent, [last]);
    assert log[base..hi] == log[base..lo] + silent + [last];
    assert Filter(Selecting(filter), log[base..lo]) + [] == Filter(Selecting(filter), log[base..lo]);
  }

  /** Between the last two cursors nothing was selected. */
  lemma {:induction false} NothingBetween(events: seq<Event>, log: seq<Event>, filter: Subscription, base: nat, lo: nat)
    requires events != [] && GapFree(events, log, filter, base) && CursorsDense(log) && base <= lo
    requires forall i :: 0 <= i < |events| - 1 ==> events[i].cursor <= lo
    requires lo < events[|events| - 1].cursor <= |log|
    ensures forall i :: lo <= i < events[|events| - 1].cursor - 1 ==> !Matches(filter, log[i])
  {
    hide Matches;
    var n := |events|;
    assert Covered(events, log, filter, base, events[n - 1].cursor);
    forall i | lo <= i < events[n - 1].cursor - 1 ensures !Matches(filter, log[i]) {
      assert Holds(events, log, filter, i + 1);
    }
  }

  lemma DedupUnfold(events: seq<Event>)
    requires events != []
    ensures var rest, n := Dedup(events[..|events| - 1]), |events|;
            Dedup(events) == if n >= 2 && events[n - 2].cursor == events[n - 1].cursor then rest else rest + [events[n - 1]]
  {
  }

  /** In cursor order without repeats, the events are exactly the selected log entries above
      `base` up to the last one. */
  lemma {:induction false} DedupIsLog(events: seq<Event>, log: seq<Event>, filter: Subscription, base: nat)
    requires events != [] && GapFree(events, log, filter, base) && CursorsDense(log)
    requires forall i :: 0 <= i < |events| ==> events[i].cursor > base
    ensures base < events[|events| - 1].cursor <= |log|
    ensures Dedup(events) == Filter(Selecting(filter), log[base..events[|events| - 1].cursor])
  {
    hide Matches, Filter, Covered, Dedup;
    var n := |events|;
    var rest, hi := events[..n - 1], events[n - 1].cursor;
    assert Genuine(log, filter, events[n - 1]);
    var lo := if n == 1 then base else events[n - 2].cursor;
    DedupUnfold(events);
    if n > 1 {
      GapFreePrefix(events, n - 1, log, filter, base);
      hide GapFree;
      DedupIsLog(rest, log, filter, base);
    } else {
      DedupNothing();
      FilterNone(Selecting(filter), log[base..base]);
    }
    if lo < hi {
      NothingBetween(events, log, filter, base, lo);
      OneSelected(log, filter, base, lo, hi);
    }
  }

  lemma DedupNothing()
    ensures Dedup([]) == []
  {
  }

  /** The durable events written to a socket above its base, repeats dropped, are exactly the
      selected log entries from there to the last one written. */
  ghost predicate Delivered(socket: seq<Event>, log: seq<Event>, filter: Subscription, base: nat) {
    var durable := Filter(Above(base), socket);
    durable != [] ==>
      var last := durable[|durable| - 1].cursor;
      base < last <= |log| && Dedup(durable) == Filter(Selecting(filter), log[base..last])
  }

  lemma {:induction false} GapFreeDelivers(events: seq<Event>, n: nat, log: seq<Event>, filter: Subscription, base: nat)
    requires GapFree(events, log, filter, base) && n <= |events| && CursorsDense(log)
    ensures Delivered(events[..n], log, filter, base)
  {
    hide Matches, Filter, Dedup, GapFree;
    GapFreePrefix(events, n, log, filter, base);
    DurablePart(events[..n], log, filter, base);
    var durable := Filter(Above(base), events[..n]);
    if durable != [] {
      DedupIsLog(durable, log, filter, base);
    }
  }

  /** From any start of the process, over every interleaving of commits, failing and repeated
      flushes, replay, activation and disconnects: the published set is a prefix, everything in it
      reached the hub, and what a client has on its socket has no gap. With a resume cursor every
      durable event counts. An open client that has switched to live delivery holds or has written
      every selected entry the hub or the replay has reached. */
  lemma {:induction false} EveryDelivery(store: StoreState, marked: nat, steps: seq<Step>)
    requires Dense(store) && PublishedUpTo(store, marked) && AllEnabled(Started(store, marked), steps)
    ensures var w := RunAll(Started(store, marked), steps);
            && PublishedUpTo(w.d.store, w.d.marked) && marked <= w.d.marked <= w.d.high
            && (w.session.Some? ==>
                  var s := w.session.value;
                  && Delivered(Socket(s), Log(w.d), s.conn.client.filter, Base(s))
                  && (!s.replaying && !s.conn.client.closed ==>
                        Covered(Sent(s), Log(w.d), s.conn.client.filter, Base(s), Later(w.d.high, s.position)))
                  && (s.resume > 0 ==> Base(s) == s.resume
                                       && forall i :: 0 <= i < |Socket(s)| && Socket(s)[i].cursor > 0 ==>
                                         Socket(s)[i].cursor > s.resume))
  {
    hide AllEnabled, Next, SessionInv, Delivered, GapFree, RunAll, Dense, PublishedUpTo, Covered;
    var start := Started(store, marked);
    StartInv(store, marked);
    RunKeeps(start, steps);
    MarkedGrows(start, steps);
    var w := RunAll(start, steps);
    if w.session.Some? {
      var s := w.session.value;
      SessionIsGapFree(s, Log(w.d), w.d.high);
      DenseLog(w.d);
      assert Socket(s) == Sent(s)[..|Socket(s)|];
      GapFreeDelivers(Sent(s), |Socket(s)|, Log(w.d), s.conn.client.filter, Base(s));
    }
  }

  lemma StartInv(store: StoreState, marked: nat)
    requires Dense(store) && PublishedUpTo(store, marked)
    ensures WorldInv(Started(store, marked))
  {
  }

  /** Nothing is ever unmarked. */
  lemma {:induction false} MarkedGrows(w: World, steps: seq<Step>)
    ensures w.d.marked <= RunAll(w, steps).d.marked
  {
    if steps != [] {
      MarkedGrows(w, steps[..|steps| - 1]);
      MarkedStep(RunAll(w, steps[..|steps| - 1]), steps[|steps| - 1]);
    }
  }

  lemma {:induction false} MarkedStep(w: World, step: Step)
    ensures w.d.marked <= Next(w, step).d.marked
  {
    hide Offered, NewSession, ReadStep, WriteStep, SwitchStep, Apply, Pending, CursorsOf;
  }

  lemma {:induction false} SessionIsGapFree(s: Session, log: seq<Event>, high: nat)
    requires SessionInv(s, log, high)
    ensures GapFree(Sent(s), log, s.conn.client.filter, Base(s))
    ensures !s.replaying && !s.conn.client.closed ==>
            Covered(Sent(s), log, s.conn.client.filter, Base(s), Later(high, s.position))
    ensures forall i :: 0 <= i < |Sent(s)| && Sent(s)[i].cursor > 0 ==> s.resume < Sent(s)[i].cursor
  {
    hide GapFree, ConnectionInv, ReplayingInv, Covered, Orderly;
  }

  // ---- Where commits come from -------------------------------------------

  /** Every command of every lane, in whatever state, is a commit step. */
  lemma {:induction false} LaneCommandIsCommit(config: Lane.LaneConfig, sys: Runs.System, command: Runs.Command, w: World)
    requires Lane.ValidConfig(config) && Sound(config, sys.store) && w.d.store == sys.store
    ensures Enabled(w, Commit(config.key, Runs.Do(config, sys, command).0.store))
    ensures Sound(config, Runs.Do(config, sys, command).0.store)
  {
    hide Runs.Do, Moves, Dense, OrderedLog, UniqueLog, BoundedLog, ShapedPoints;
    StepMoves(config, sys, command);
  }

  // ---- The replay as the handler runs it ---------------------------------

  /** What a replay after `resume` writes when nothing is committed meanwhile. */
  function Replay(log: seq<Event>, filter: Subscription, resume: nat): seq<Event> {
    if 0 < resume <= |log| then Filter(Selecting(filter), log[resume..]) else []
  }

  /** Replays page by page, then activates the client at the cursor reached. `writeFails` are
      the writes at which the connection breaks. */
  method ReplayAndActivate(
    store: Memory, client: HubClient, resume: nat, writeFails: set<nat>) returns (ok: bool, written: seq<Event>)
    requires Dense(store.State()) && client.Valid()
    modifies client, client.send
    ensures client.Valid() && store.State() == old(store.State())
    ensures written <= Replay(store.events, client.filter, resume)
    ensures ok ==> written == Replay(store.events, client.filter, resume)
    ensures ok ==> client.State() == Activate(old(client.State()), if resume > 0 then Later(resume, |store.events|) else 0)
    ensures !ok ==> client.State() == old(client.State())
    ensures writeFails == {} ==> ok
  {
    hide Activate, Filter, Dense, Page, Take, Matches, Written;
    written := [];
    ghost var log := store.events;
    NothingWritten(log, client.filter, resume);
    var last, more := resume, resume > 0;
    while more
      invariant store.State() == old(store.State()) && client.Valid() && client.State() == old(client.State())
      invariant resume <= last && (resume == 0 ==> last == 0 && !more) && (last == resume || last <= |log|)
      invariant written == Written(log, client.filter, resume, last)
      invariant resume > 0 && !more ==> last >= |log|
      decreases more, |log| - last
    {
      var page := store.QueryEvents(After(last), PAGE);
      PageIsRest(store.State(), last);
      if last <= |log| {
        TakeIsPrefix(log[last..], PAGE);
      }
      ghost var start := last;
      for i := 0 to |page|
        invariant store.State() == old(store.State()) && client.Valid() && client.State() == old(client.State())
        invariant last == start + i && (i > 0 ==> last <= |log|)
        invariant written == Written(log, client.filter, resume, last)
      {
        PageEntry(store.State(), page, start, i);
        WrittenNext(log, client.filter, resume, last);
        var selected := MatchesEvent(client.filter, page[i]);
        if selected {
          if |written| in writeFails {
            WrittenIsPrefix(log, client.filter, resume, last);
            return false, written;
          }
          written := written + [page[i]];
        }
        last := page[i].cursor;
      }
      more := |page| == PAGE;
    }
    WrittenIsPrefix(log, client.filter, resume, last);
    client.Start(last);
    ok := true;
  }

  // ---- The writer --------------------------------------------------------

  /** Drains a client's channel to the connection until it is empty or a write breaks. Every event
      leaves once, in order; only the one whose write broke is taken without being written. */
  method WriteClient(client: HubClient, writeFails: set<nat>) returns (ok: bool, written: seq<Event>)
    requires client.Valid()
    modifies client.send
    ensures client.Valid()
    ensures written <= old(client.send.queue)
    ensures ok ==> written == old(client.send.queue)
    ensures !ok ==> |written| < |old(client.send.queue)| && |written| in writeFails
    ensures var taken := if ok then |written| else |written| + 1;
            client.State() == old(client.State()).(queue := old(client.send.queue)[taken..])
  {
    ghost var queue := client.send.queue;
    written := [];
    while true
      invariant client.Valid() && |written| <= |queue| && written == queue[..|written|]
      invariant client.State() == old(client.State()).(queue := queue[|written|..])
      decreases |client.send.queue|
    {
      var event := client.send.Receive();
      if event.None? {
        return true, written;
      }
      if |written| in writeFails {
        return false, written;
      }
      written := written + [event.value];
    }
  }

  /** What has been written once the replay has reached `last`. */
  function Written(log: seq<Event>, filter: Subscription, resume: nat, last: nat): seq<Event> {
    if 0 < resume <= last <= |log| then Filter(Selecting(filter), log[resume..last]) else []
  }

  lemma {:induction false} NothingWritten(log: seq<Event>, filter: Subscription, resume: nat)
    ensures Written(log, filter, resume, resume) == []
  {
    if resume <= |log| {
      assert log[resume..resume] == [];
    }
  }

  lemma {:induction false} WrittenNext(log: seq<Event>, filter: Subscription, resume: nat, last: nat)
    requires 0 < resume <= last < |log|
    ensures Written(log, filter, resume, last + 1) ==
            Written(log, filter, resume, last) + if Matches(filter, log[last]) then [log[last]] else []
  {
    hide Matches;
    assert log[resume..last + 1][..last - resume] == log[resume..last];
  }

  lemma {:induction false} WrittenIsPrefix(log: seq<Event>, filter: Subscription, resume: nat, last: nat)
    requires resume <= last
    ensures Written(log, filter, resume, last) <= Replay(log, filter, resume)
    ensures last >= |log| && (last == resume || last <= |log|) ==>
            Written(log, filter, resume, last) == Replay(log, filter, resume)
  {
    hide Filter, Matches;
    if 0 < resume <= last <= |log| {
      PrefixFilter(Selecting(filter), log[resume..], last - resume);
      assert log[resume..][..last - resume] == log[resume..last];
      if last == |log| {
        assert log[resume..last] == log[resume..];
      }
    }
  }

  lemma {:induction false} PageEntry(store: StoreState, page: seq<Event>, start: nat, i: nat)
    requires Dense(store) && i < |page| && start <= |store.events| && page <= store.events[start..]
    ensures start + i < |store.events| && page[i] == store.events[start + i] && page[i].cursor == start + i + 1
  {
    assert page[i] == store.events[start..][i];
  }
}
