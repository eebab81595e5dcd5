/** From the log to a socket: dispatcher, hub, replay and activation interleaved in any order
    (internal/api/server.go:295-353, internal/api/hub.go:72-142, internal/outbox/dispatcher.go:78-101). */
module Delivery {
  import opened Model
  import opened Store
  import opened Durable
  import opened LogShape
  import opened Outbox
  import opened Hub

  const PAGE: nat := 5000
  const BUFFER: nat := 2048

  // ---- The dispatcher ----------------------------------------------------

  /** `sent` of the fetched `batch` have been published. Two history variables: `marked` entries
      have been marked, and the highest cursor ever handed to the hub is `high`. */
  datatype Dispatcher = Dispatcher(store: StoreState, batch: seq<Event>, sent: nat, marked: nat, high: nat)

  function Log(d: Dispatcher): seq<Event> { d.store.events }

  /** The published set is a prefix, the batch is what follows it, and every entry up to
      `high`, among them the marked ones, has been handed to the hub. */
  ghost predicate DispatcherInv(d: Dispatcher) {
    && Dense(d.store)
    && PublishedUpTo(d.store, d.marked)
    && d.batch <= Log(d)[d.marked..]
    && d.sent <= |d.batch|
    && d.marked + d.sent <= d.high <= |Log(d)|
  }

  // ---- The session -------------------------------------------------------

  /** `position` is the replay cursor, `page` what is left of the current page and `more` whether
      another page will be read; `joined` is the dispatcher's `high` at subscription. */
  datatype Session = Session(
    resume: nat, joined: nat, position: nat, page: seq<Event>, more: bool, replayed: seq<Event>, conn: Connection,
      replaying: bool)

  /** Everything written or waiting to be written, replay first. */
  function Sent(s: Session): seq<Event> { s.replayed + Stream(s.conn) }

  /** What has been written. */
  function Socket(s: Session): seq<Event> { s.replayed + s.conn.received }

  /** Entries above this are owed to the client. */
  function Base(s: Session): nat { if s.resume > 0 then s.resume else s.joined }

  /** The entry with a cursor, if the client selects it, is among `events`. */
  predicate Holds(events: seq<Event>, log: seq<Event>, filter: Subscription, c: nat) {
    1 <= c <= |log| && Matches(filter, log[c - 1]) ==> log[c - 1] in events
  }

  ghost predicate Covered(events: seq<Event>, log: seq<Event>, filter: Subscription, lo: nat, hi: nat) {
    forall c :: lo < c <= hi ==> Holds(events, log, filter, c)
  }

  /** A durable event is the selected log entry under its cursor. */
  predicate Genuine(log: seq<Event>, filter: Subscription, event: Event) {
    event.cursor > 0 ==> event.cursor <= |log| && event == log[event.cursor - 1] && Matches(filter, event)
  }

  /** In cursor order, genuine, and without a gap above `base`. */
  ghost predicate GapFree(events: seq<Event>, log: seq<Event>, filter: Subscription, base: nat) {
    && (forall i :: 0 <= i < |events| ==> Genuine(log, filter, events[i]))
    && (forall i, j :: 0 <= i < j < |events| && events[i].cursor > 0 && events[j].cursor > 0 ==>
      events[i].cursor <= events[j].cursor)
    && (forall i :: 0 <= i < |events| ==> Covered(events, log, filter, base, events[i].cursor))
  }

  function Later(a: nat, b: nat): nat { if a >= b then a else b }

  ghost predicate PageInv(s: Session, log: seq<Event>) {
    && (s.page != [] ==> s.position <= |log|)
    && (s.position <= |log| ==> s.page <= log[s.position..])
  }

  ghost predicate ReplayingInv(s: Session, log: seq<Event>, high: nat) {
    var c := s.conn.client;
    && !c.active && s.conn.received == []
    && (s.resume == 0 ==> s.position == 0 && s.page == [] && !s.more && s.replayed == [])
    && (s.resume > 0 && !s.more ==> s.position + |s.page| >= s.joined)
    && Covered(s.replayed, log, c.filter, s.resume, s.position)
    && Orderly(s.replayed, s.position)
    && PageInv(s, log)
    && (forall i :: 0 <= i < |c.pending| ==> Genuine(log, c.filter, c.pending[i]) && c.pending[i].cursor <= high)
    && (!c.closed ==> Covered(c.pending, log, c.filter, s.joined, high))
  }

  /** An open client has everything owed up to what the hub or the replay has reached. */
  ghost predicate LiveInv(s: Session, log: seq<Event>, high: nat) {
    var c := s.conn.client;
    && s.position <= c.lastCursor <= Later(high, s.position)
    && Orderly(Sent(s), c.lastCursor)
    && Covered(Sent(s), log, c.filter, Base(s), Later(high, s.position))
  }

  ghost predicate SessionInv(s: Session, log: seq<Event>, high: nat) {
    var c := s.conn.client;
    && ConnectionInv(s.conn)
    && s.joined <= high <= |log|
    && s.resume <= s.position && (s.position == s.resume || s.position <= |log|)
    && GapFree(Sent(s), log, c.filter, Base(s))
    && (forall i :: 0 <= i < |Sent(s)| && Sent(s)[i].cursor > 0 ==> s.resume < Sent(s)[i].cursor)
    && (s.replaying ==> ReplayingInv(s, log, high))
    && (!s.replaying && !c.closed ==> c.active && LiveInv(s, log, high))
  }

  // ---- Steps -------------------------------------------------------------

  datatype World = World(d: Dispatcher, session: Option<Session>)

  datatype Step =
    | Commit(key: SeriesKey, after: StoreState)
    | Fetch
    | Publish(reached: bool, ok: bool)
    | Mark(ok: bool)
    | Provisional(event: Event)
    | Subscribe(filter: Subscription, resume: nat)
    | ReadPage
    | WriteReplay
    | Switch
    | Write
    | Disconnect

  ghost predicate Enabled(w: World, step: Step) {
    match step
    case Commit(key, after) => Moves(key, w.d.store, after) && Dense(after)
    case Fetch => w.d.batch == []
    case Publish(reached, ok) => w.d.sent < |w.d.batch| && (ok ==> reached)
    case Mark(_) => w.d.batch != [] && w.d.sent == |w.d.batch|
    case Provisional(event) => event.cursor == 0
    case Subscribe(_, _) => w.session.None?
    case ReadPage => w.session.Some? && w.session.value.replaying && w.session.value.page == [] && w.session.value.more
    case WriteReplay => w.session.Some? && w.session.value.replaying && w.session.value.page != []
    case Switch => w.session.Some? && w.session.value.replaying && w.session.value.page == [] && !w.session.value.more
    case Write => w.session.Some? && !w.session.value.replaying
    case Disconnect => w.session.Some?
  }

  function Offered(s: Session, event: Event): Session { s.(conn := Apply(s.conn, Offer(event))) }

  function Hand(session: Option<Session>, event: Event): Option<Session> {
    if session.Some? then Some(Offered(session.value, event)) else None
  }

  function DispatcherStep(d: Dispatcher, step: Step): Dispatcher {
    match step
    case Commit(_, after) => d.(store := after)
    case Fetch => d.(batch := Pending(d.store, BATCH), sent := 0)
    case Publish(reached, ok) =>
      if d.sent >= |d.batch| then d
      else
        var high := if reached then Later(d.high, d.batch[d.sent].cursor) else d.high;
        if ok then d.(high := high, sent := d.sent + 1) else d.(high := high, batch := [], sent := 0)
    case Mark(ok) =>
      if ok then
        Dispatcher(d.store.(published := d.store.published + set c | c in CursorsOf(d.batch)), [], 0,
          d.marked + |d.batch|, d.high)
      else d.(batch := [], sent := 0)
    case _ => d
  }

  function NewSession(filter: Subscription, resume: nat, high: nat): Session {
    Session(resume, high, resume, [], resume > 0, [], Connection(NewClient(filter, BUFFER), []), true)
  }

  function ReadStep(s: Session, store: StoreState): Session {
    var page := Page(store, After(s.position), PAGE);
    s.(page := page, more := |page| == PAGE)
  }

  function WriteStep(s: Session): Session {
    if s.page == [] then s
    else
      s.(replayed := if Matches(s.conn.client.filter, s.page[0]) then s.replayed + [s.page[0]] else s.replayed,
         position := s.page[0].cursor, page := s.page[1..])
  }

  function SwitchStep(s: Session): Session {
    s.(conn := Apply(s.conn, Activation(s.position)), replaying := false)
  }

  function Next(w: World, step: Step): World {
    var d := DispatcherStep(w.d, step);
    match step
    case Publish(true, _) => if w.d.sent < |w.d.batch| then World(d, Hand(w.session, w.d.batch[w.d.sent])) else w
    case Provisional(event) => World(d, Hand(w.session, event))
    case Subscribe(filter, resume) => World(d, Some(NewSession(filter, resume, d.high)))
    case ReadPage => if w.session.Some? then World(d, Some(ReadStep(w.session.value, d.store))) else w
    case WriteReplay => if w.session.Some? then World(d, Some(WriteStep(w.session.value))) else w
    case Switch => if w.session.Some? then World(d, Some(SwitchStep(w.session.value))) else w
    case Write => if w.session.Some? then World(d, Some(w.session.value.(conn := Apply(w.session.value.conn, Receive)))) else w
    case Disconnect =>
      if w.session.Some? then World(d, Some(w.session.value.(conn := Apply(w.session.value.conn, Shut), replaying :=
        false))) else w
    case _ => World(d, w.session)
  }

  ghost predicate WorldInv(w: World) {
    && DispatcherInv(w.d)
    && (w.session.Some? ==> SessionInv(w.session.value, Log(w.d), w.d.high))
  }

  // ---- The dispatcher's steps --------------------------------------------

  lemma {:induction false} CommitDispatcher(d: Dispatcher, key: SeriesKey, after: StoreState)
    requires DispatcherInv(d) && Moves(key, d.store, after) && Dense(after)
    ensures DispatcherInv(d.(store := after))
  {
    CommitsKeepPublished(key, d.store, after, d.marked);
    hide PublishedUpTo, SameSeries, CursorsAdvance, Dense;
    assert d.store.events[d.marked..] <= after.events[d.marked..];
  }

  lemma {:induction false} FetchDispatcher(d: Dispatcher)
    requires DispatcherInv(d) && d.batch == []
    ensures DispatcherInv(d.(batch := Pending(d.store, BATCH), sent := 0))
  {
    PendingIsNext(d.store, d.marked, BATCH);
    TakeIsPrefix(Log(d)[d.marked..], BATCH);
    hide PublishedUpTo, Pending, Dense, Take;
  }

  lemma {:induction false} NextToPublish(d: Dispatcher)
    requires DispatcherInv(d) && d.sent < |d.batch|
    ensures d.marked + d.sent < |Log(d)|
    ensures d.batch[d.sent] == Log(d)[d.marked + d.sent] && d.batch[d.sent].cursor == d.marked + d.sent + 1
  {
    hide PublishedUpTo;
    assert d.batch[d.sent] == Log(d)[d.marked..][d.sent];
  }

  /** Deliveries to the hub are the log entry under their cursor, and a first delivery is
      always the one right after the highest so far. A fetch takes the next 250 unmarked entries,
      a success moves on by one entry or one batch, and a failure starts over at the first
      unmarked entry. */
  lemma {:induction false} DispatcherKeeps(d: Dispatcher, step: Step)
    requires DispatcherInv(d) && Enabled(World(d, None), step)
    ensures DispatcherInv(DispatcherStep(d, step))
    ensures Log(d) <= Log(DispatcherStep(d, step))
    ensures step.Publish? ==>
              && d.batch[d.sent].cursor <= d.high + 1
              && d.batch[d.sent].cursor <= |Log(d)|
              && d.batch[d.sent] == Log(d)[d.batch[d.sent].cursor - 1]
    ensures var next := DispatcherStep(d, step);
            && (step.Fetch? ==> next.batch == Take(Log(d)[d.marked..], 250) && next.sent == 0 && next.marked == d.marked)
            && (step == Publish(true, true) ==>
                  next.batch == d.batch && next.sent == d.sent + 1 && next.high >= d.marked + d.sent + 1)
            && (step == Mark(true) ==> next.marked == d.marked + |d.batch| && next.batch == [])
            && (step == Mark(false) || (step.Publish? && !step.ok) ==> next.marked == d.marked && next.batch == [])
  {
    match step
    case Commit(key, after) =>
      CommitDispatcher(d, key, after);
    case Fetch =>
      PendingIsNext(d.store, d.marked, BATCH);
      FetchDispatcher(d);
    case Publish(reached, ok) =>
      hide PublishedUpTo, Dense;
      NextToPublish(d);
    case Mark(ok) =>
      if ok {
        MarkingNext(d.store, d.marked, d.batch);
        hide PublishedUpTo;
      }
    case _ =>
  }

  // ---- Coverage ----------------------------------------------------------

  lemma {:induction false} CoveredGrows(
    events: seq<Event>, log: seq<Event>, more: seq<Event>, filter: Subscription, lo: nat, hi: nat)
    requires Covered(events, log, filter, lo, hi) && log <= more && (hi <= |log| || hi <= lo)
    ensures Covered(events, more, filter, lo, hi)
  {
    hide Matches;
    forall c | lo < c <= hi ensures Holds(events, more, filter, c) {
      assert Holds(events, log, filter, c);
    }
  }

  lemma {:induction false} CoveredMore(
    events: seq<Event>, more: seq<Event>, log: seq<Event>, filter: Subscription, lo: nat, hi: nat)
    requires Covered(events, log, filter, lo, hi) && forall e :: e in events ==> e in more
    ensures Covered(more, log, filter, lo, hi)
  {
    hide Matches;
    forall c | lo < c <= hi ensures Holds(more, log, filter, c) {
      assert Holds(events, log, filter, c);
    }
  }

  lemma {:induction false} CoveredOne(events: seq<Event>, log: seq<Event>, filter: Subscription, lo: nat, hi: nat, next: nat)
    requires Covered(events, log, filter, lo, hi) && next <= hi + 1 && Holds(events, log, filter, next)
    ensures Covered(events, log, filter, lo, Later(hi, next))
  {
    hide Matches, Holds;
  }

  lemma {:induction false} GapFreeGrows(events: seq<Event>, log: seq<Event>, more: seq<Event>, filter: Subscription, base: nat)
    requires GapFree(events, log, filter, base) && log <= more
    ensures GapFree(events, more, filter, base)
  {
    hide Matches, Covered;
    forall i | 0 <= i < |events| ensures Covered(events, more, filter, base, events[i].cursor) &&
      Genuine(more, filter, events[i]) {
      assert Genuine(log, filter, events[i]);
      CoveredGrows(events, log, more, filter, base, events[i].cursor);
    }
  }

  /** One more event at the end, covered up to itself. */
  lemma {:induction false} GapFreePush(
    events: seq<Event>, event: Event, log: seq<Event>, filter: Subscription, base: nat, last: nat)
    requires GapFree(events, log, filter, base) && Genuine(log, filter, event)
    requires Orderly(events + [event], last) && Covered(events + [event], log, filter, base, event.cursor)
    ensures GapFree(events + [event], log, filter, base)
  {
    hide Matches, Covered, Genuine;
    var all := events + [event];
    forall i | 0 <= i < |all| ensures Covered(all, log, filter, base, all[i].cursor) && Genuine(log, filter, all[i]) {
      if i < |events| {
        assert all[i] == events[i];
        CoveredMore(events, all, log, filter, base, all[i].cursor);
      }
    }
  }

  // ---- The log grows -----------------------------------------------------

  lemma {:induction false} PendingGrows(s: Session, log: seq<Event>, more: seq<Event>, high: nat)
    requires log <= more && high <= |log|
    requires forall i :: 0 <= i < |s.conn.client.pending| ==>
               Genuine(log, s.conn.client.filter, s.conn.client.pending[i]) && s.conn.client.pending[i].cursor <= high
    ensures forall i :: 0 <= i < |s.conn.client.pending| ==>
              Genuine(more, s.conn.client.filter, s.conn.client.pending[i]) && s.conn.client.pending[i].cursor <= high
  {
    hide Matches;
  }

  lemma {:induction false} LogGrows(s: Session, log: seq<Event>, more: seq<Event>, high: nat)
    requires SessionInv(s, log, high) && log <= more
    ensures SessionInv(s, more, high)
  {
    hide GapFree, Covered, Orderly, ConnectionInv, Genuine;
    var c := s.conn.client;
    GapFreeGrows(Sent(s), log, more, c.filter, Base(s));
    if s.replaying {
      CoveredGrows(s.replayed, log, more, c.filter, s.resume, s.position);
      PendingGrows(s, log, more, high);
      if !c.closed {
        CoveredGrows(c.pending, log, more, c.filter, s.joined, high);
      }
      assert s.position <= |log| ==> log[s.position..] <= more[s.position..];
    } else if !c.closed {
      CoveredGrows(Sent(s), log, more, c.filter, Base(s), Later(high, s.position));
    }
  }

  // ---- The hub offers an event -------------------------------------------

  /** A frame without a cursor, or a log entry no further than one beyond `high`. */
  predicate Deliverable(event: Event, log: seq<Event>, high: nat) {
    event.cursor == 0 || (event.cursor <= |log| && event.cursor <= high + 1 && event == log[event.cursor - 1])
  }

  lemma {:induction false} MatchedIsGenuine(event: Event, log: seq<Event>, filter: Subscription, high: nat, events: seq<Event>)
    requires Deliverable(event, log, high)
    ensures Matches(filter, event) ==> Genuine(log, filter, event)
    ensures event.cursor > 0 && (!Matches(filter, event) || event in events) ==> Holds(events, log, filter, event.cursor)
  {
    hide Matches;
  }

  lemma {:induction false} OfferWhileReplaying(s: Session, log: seq<Event>, high: nat, event: Event)
    requires SessionInv(s, log, high) && s.replaying && Deliverable(event, log, high)
    ensures SessionInv(Offered(s, event), log, Later(high, event.cursor))
  {
    hide GapFree, Covered, Orderly, Genuine, Matches, Holds, Stream;
    var c, t := s.conn.client, Offered(s, event);
    var d := t.conn.client;
    OfferKeeps(s.conn, event);
    OfferToPending(c, event);
    assert Stream(t.conn) == Stream(s.conn) by { StreamOf(s.conn); StreamOf(t.conn); }
    assert ConnectionInv(t.conn);
    MatchedIsGenuine(event, log, c.filter, high, d.pending);
    assert high <= Later(high, event.cursor);
    if !d.closed {
      CoveredMore(c.pending, d.pending, log, c.filter, s.joined, high);
      if event.cursor > 0 {
        CoveredOne(d.pending, log, c.filter, s.joined, high, event.cursor);
      }
    }
  }

  lemma StreamOf(conn: Connection)
    ensures Stream(conn) == conn.received + conn.client.queue
  {
  }

  lemma {:induction false} OfferToPending(c: Client, event: Event)
    requires ClientInv(c) && !c.active
    ensures var d := Enqueue(c, event);
            && d == c.(pending := d.pending, closed := d.closed)
            && (c.closed ==> d == c)
            && (d.pending == c.pending || (d.pending == c.pending + [event] && Matches(c.filter, event)))
            && (!d.closed && Matches(c.filter, event) ==> event in d.pending)
  {
    hide Matches;
  }

  lemma {:induction false} OfferToActive(c: Client, event: Event)
    requires ClientInv(c) && c.active && !c.closed
    ensures var d := Enqueue(c, event);
            && d == c.(queue := d.queue, lastCursor := d.lastCursor, closed := d.closed)
            && (d.queue == c.queue ==> d.lastCursor == c.lastCursor)
            && (d.queue != c.queue ==>
                  && d.queue == c.queue + [event] && Matches(c.filter, event) && !d.closed
                  && !Stale(event, c.lastCursor) && d.lastCursor == Bump(c.lastCursor, event))
            && (!d.closed && Matches(c.filter, event) && d.queue == c.queue ==> Stale(event, c.lastCursor))
  {
    hide Matches;
  }

  lemma {:induction false} OrderlyPush(events: seq<Event>, event: Event, last: nat)
    requires Orderly(events, last) && !Stale(event, last)
    ensures Orderly(events + [event], Bump(last, event))
  {
  }

  lemma {:induction false} OfferWhileLive(s: Session, log: seq<Event>, high: nat, event: Event)
    requires SessionInv(s, log, high) && !s.replaying && !s.conn.client.closed && Deliverable(event, log, high)
    ensures SessionInv(Offered(s, event), log, Later(high, event.cursor))
  {
    hide GapFree, Covered, Orderly, Genuine, Matches, Holds, ClientInv;
    var c, t := s.conn.client, Offered(s, event);
    var d := t.conn.client;
    OfferKeeps(s.conn, event);
    OfferToActive(c, event);
    assert ConnectionInv(t.conn);
    var reach, next := Later(high, s.position), Later(Later(high, event.cursor), s.position);
    MatchedIsGenuine(event, log, c.filter, high, Sent(t));
    if d.queue == c.queue {
      assert Sent(t) == Sent(s);
      if !d.closed {
        StillCovered(s, log, high, event);
      }
    } else {
      assert Sent(t) == Sent(s) + [event];
      OrderlyPush(Sent(s), event, c.lastCursor);
      CoveredMore(Sent(s), Sent(t), log, c.filter, Base(s), reach);
      if event.cursor > 0 {
        CoveredOne(Sent(t), log, c.filter, Base(s), reach, event.cursor);
        CoveredLess(Sent(t), log, c.filter, Base(s), Later(reach, event.cursor), event.cursor);
      } else {
        CoveredLess(Sent(t), log, c.filter, Base(s), reach, event.cursor);
      }
      GapFreePush(Sent(s), event, log, c.filter, Base(s), d.lastCursor);
    }
  }

  lemma {:induction false} CoveredLess(events: seq<Event>, log: seq<Event>, filter: Subscription, lo: nat, hi: nat, less: nat)
    requires Covered(events, log, filter, lo, hi) && less <= hi
    ensures Covered(events, log, filter, lo, less)
  {
    hide Holds;
  }

  /** A repeated or unselected event adds nothing that is owed. */
  lemma {:induction false} StillCovered(s: Session, log: seq<Event>, high: nat, event: Event)
    requires LiveInv(s, log, high) && Deliverable(event, log, high)
    requires Matches(s.conn.client.filter, event) ==> Stale(event, s.conn.client.lastCursor)
    ensures LiveInv(s, log, Later(high, event.cursor))
  {
    hide Covered, Orderly, Matches, Holds;
    var c, reach := s.conn.client, Later(high, s.position);
    if event.cursor > reach {
      MatchedIsGenuine(event, log, c.filter, high, Sent(s));
      CoveredOne(Sent(s), log, c.filter, Base(s), reach, event.cursor);
    }
  }

  lemma {:induction false} OfferWhenClosed(s: Session, log: seq<Event>, high: nat, event: Event)
    requires SessionInv(s, log, high) && !s.replaying && s.conn.client.closed && Deliverable(event, log, high)
    ensures SessionInv(Offered(s, event), log, Later(high, event.cursor))
  {
    hide GapFree, Orderly, ConnectionInv, Matches;
    assert Offered(s, event) == s;
  }

  lemma {:induction false} OfferedKeeps(s: Session, log: seq<Event>, high: nat, event: Event)
    requires SessionInv(s, log, high) && Deliverable(event, log, high)
    ensures SessionInv(Offered(s, event), log, Later(high, event.cursor))
  {
    hide SessionInv, Deliverable;
    if s.replaying {
      OfferWhileReplaying(s, log, high, event);
    } else if s.conn.client.closed {
      OfferWhenClosed(s, log, high, event);
    } else {
      OfferWhileLive(s, log, high, event);
    }
  }

  // ---- Subscribing and replaying -----------------------------------------

  lemma {:induction false} SubscribeKeeps(filter: Subscription, resume: nat, log: seq<Event>, high: nat)
    requires high <= |log|
    ensures SessionInv(NewSession(filter, resume, high), log, high)
  {
    hide Matches, ConnectionInv, GapFree, Covered, Orderly;
    NewConnection(filter, BUFFER);
    var s := NewSession(filter, resume, high);
    assert Sent(s) == [];
    NothingSent(log, filter, Base(s), resume);
    NothingSent(log, filter, Base(s), high);
    assert s.position <= |log| ==> [] <= log[s.position..];
  }

  lemma NothingSent(log: seq<Event>, filter: Subscription, base: nat, position: nat)
    ensures GapFree([], log, filter, base) && Covered([], log, filter, position, position) && Orderly([], position)
  {
  }

  /** A page after a cursor is the log from there on. */
  lemma {:induction false} PageIsRest(store: StoreState, position: nat)
    requires Dense(store)
    ensures position <= |store.events| ==> Page(store, After(position), PAGE) == Take(store.events[position..], PAGE)
    ensures position > |store.events| ==> Page(store, After(position), PAGE) == []
  {
    hide Filter, Take;
    var events, wanted := store.events, Selected(After(position));
    var k := if position <= |events| then position else |events|;
    assert events == events[..k] + events[k..];
    FilterConcat(wanted, events[..k], events[k..]);
    forall e | e in events[..k] ensures !wanted(e) {
      var i :| 0 <= i < k && events[i] == e;
    }
    forall e | e in events[k..] ensures wanted(e) {
      var i :| 0 <= i < |events| - k && events[k..][i] == e;
      assert events[k + i] == e;
    }
    FilterNone(wanted, events[..k]);
    FilterAll(wanted, events[k..]);
    assert [] + events[k..] == events[k..];
    if position > |events| {
      assert events[k..] == [];
    }
  }

  lemma {:induction false} NextPage(s: Session, store: StoreState)
    requires Dense(store)
    ensures var next := ReadStep(s, store);
            && next == s.(page := next.page, more := |next.page| == 5000)
            && next.page == (if s.position <= |store.events| then Take(store.events[s.position..], 5000) else [])
  {
    hide Page, Take, Dense;
    PageIsRest(store, s.position);
  }

  lemma {:induction false} ReadKeeps(s: Session, store: StoreState, high: nat)
    requires SessionInv(s, store.events, high) && Dense(store)
    requires s.replaying && s.page == [] && s.more
    ensures SessionInv(ReadStep(s, store), store.events, high)
    ensures var next := ReadStep(s, store);
            && next.page == (if s.position <= |store.events| then Take(store.events[s.position..], 5000) else [])
            && (next.more <==> |next.page| == 5000)
  {
    hide GapFree, Covered, Orderly, ConnectionInv, Genuine, Take, Dense, ReadStep;
    NextPage(s, store);
    if s.position <= |store.events| {
      TakeIsPrefix(store.events[s.position..], 5000);
    }
    var t := ReadStep(s, store);
    assert Sent(t) == Sent(s);
  }

  lemma {:induction false} WriteKeeps(s: Session, store: StoreState, high: nat)
    requires SessionInv(s, store.events, high) && Dense(store)
    requires s.replaying && s.page != []
    ensures SessionInv(WriteStep(s), store.events, high)
    ensures var next := WriteStep(s);
            next.position == s.position + 1 && next.page == s.page[1..] && next.more == s.more && next.replaying
  {
    hide GapFree, Covered, Orderly, ConnectionInv, Genuine, Matches, Dense, Holds, PageInv, Stream;
    var log, c, t := store.events, s.conn.client, WriteStep(s);
    var event := s.page[0];
    PageHead(s, store);
    assert t.conn == s.conn;
    NoStream(s.conn);
    assert Sent(s) == s.replayed && Sent(t) == t.replayed;
    CoveredMore(s.replayed, t.replayed, log, c.filter, s.resume, s.position);
    NextHeld(t.replayed, log, c.filter, event);
    CoveredOne(t.replayed, log, c.filter, s.resume, s.position, event.cursor);
    if Matches(c.filter, event) {
      OrderlyPush(s.replayed, event, s.position);
      GenuineEntry(log, c.filter, event);
      GapFreePush(s.replayed, event, log, c.filter, Base(s), event.cursor);
    } else {
      OrderlyUpTo(s.replayed, s.position, t.position);
    }
  }

  lemma {:induction false} PageHead(s: Session, store: StoreState)
    requires PageInv(s, store.events) && Dense(store) && s.page != []
    ensures s.position < |store.events| && s.page[0] == store.events[s.position] && s.page[0].cursor == s.position + 1
    ensures PageInv(WriteStep(s), store.events)
  {
    hide Matches;
    var log, t := store.events, WriteStep(s);
    assert s.page[0] == log[s.position..][0];
    assert log[s.position..][1..] == log[s.position + 1..];
  }

  lemma {:induction false} NoStream(conn: Connection)
    requires ConnectionInv(conn) && !conn.client.active && conn.received == []
    ensures Stream(conn) == []
  {
    hide Matches, Orderly;
  }

  lemma {:induction false} GenuineEntry(log: seq<Event>, filter: Subscription, event: Event)
    requires 1 <= event.cursor <= |log| && event == log[event.cursor - 1] && Matches(filter, event)
    ensures Genuine(log, filter, event)
  {
    hide Matches;
  }

  lemma {:induction false} NextHeld(events: seq<Event>, log: seq<Event>, filter: Subscription, event: Event)
    requires 1 <= event.cursor <= |log| && event == log[event.cursor - 1]
    requires Matches(filter, event) ==> event in events
    ensures Holds(events, log, filter, event.cursor)
  {
    hide Matches;
  }

  // ---- Switching to live delivery ----------------------------------------

  /** A client that overflowed during the replay stays closed. */
  lemma {:induction false} SwitchWhenClosed(s: Session, log: seq<Event>, high: nat)
    requires SessionInv(s, log, high) && s.replaying && s.conn.client.closed
    ensures SessionInv(SwitchStep(s), log, high)
  {
    hide GapFree, Orderly, ConnectionInv, Activate, Covered, Matches;
    ActivateClosed(s.conn.client, s.position);
    assert SwitchStep(s).conn == s.conn;
  }

  /** What the backlog adds to the replay. */
  lemma {:induction false} BacklogCovers(s: Session, log: seq<Event>, high: nat)
    requires forall i :: 0 <= i < |log| ==> log[i].cursor == i + 1
    requires SessionInv(s, log, high) && s.replaying && s.page == [] && !s.more && !s.conn.client.closed
    ensures Covered(s.replayed + Backlog(s.conn.client, s.position), log, s.conn.client.filter, Base(s), Later(high, s.position))
  {
    hide GapFree, Orderly, ConnectionInv, Genuine, Matches, Backlog, PageInv;
    var c := s.conn.client;
    var all := s.replayed + Backlog(c, s.position);
    BacklogIsOrderly(c, s.position);
    forall x | Base(s) < x <= Later(high, s.position) ensures Holds(all, log, c.filter, x) {
      if x <= s.position {
        assert Holds(s.replayed, log, c.filter, x);
      } else {
        assert Holds(c.pending, log, c.filter, x);
        HeldInBacklog(s, log, x);
      }
    }
  }

  lemma {:induction false} HeldInBacklog(s: Session, log: seq<Event>, x: nat)
    requires x > s.position && (1 <= x <= |log| ==> log[x - 1].cursor == x) &&
             Holds(s.conn.client.pending, log, s.conn.client.filter, x)
    ensures Holds(Backlog(s.conn.client, s.position), log, s.conn.client.filter, x)
  {
    hide Matches, Backlog;
    BacklogIsOrderly(s.conn.client, s.position);
  }

  lemma {:induction false} BacklogEntries(s: Session, log: seq<Event>, high: nat)
    requires SessionInv(s, log, high) && s.replaying
    ensures var backlog := Backlog(s.conn.client, s.position);
            forall i :: 0 <= i < |backlog| ==>
              && Genuine(log, s.conn.client.filter, backlog[i]) && backlog[i].cursor <= high
              && (backlog[i].cursor > 0 ==> backlog[i].cursor > s.position)
  {
    hide GapFree, Orderly, ConnectionInv, Genuine, Matches, Backlog, PageInv, Covered;
    var c, backlog := s.conn.client, Backlog(s.conn.client, s.position);
    BacklogIsOrderly(c, s.position);
    forall i | 0 <= i < |backlog|
      ensures Genuine(log, c.filter, backlog[i]) && backlog[i].cursor <= high &&
              (backlog[i].cursor > 0 ==> backlog[i].cursor > s.position)
    {
      assert backlog[i] in backlog;
      var k :| 0 <= k < |c.pending| && c.pending[k] == backlog[i];
    }
  }

  lemma {:induction false} OrderlyConcat(a: seq<Event>, b: seq<Event>, middle: nat, last: nat)
    requires Orderly(a, middle) && Orderly(b, last)
    requires forall i :: 0 <= i < |b| && b[i].cursor > 0 ==> b[i].cursor > middle
    ensures Orderly(a + b, Later(middle, last))
  {
    var all := a + b;
    forall i, j | 0 <= i < j < |all| && all[i].cursor > 0 && all[j].cursor > 0 ensures all[i].cursor <= all[j].cursor {
      if i < |a| <= j {
        assert all[i] == a[i] && all[j] == b[j - |a|];
      }
    }
  }

  lemma {:induction false} ReplayThenBacklog(s: Session, log: seq<Event>, high: nat)
    requires forall i :: 0 <= i < |log| ==> log[i].cursor == i + 1
    requires SessionInv(s, log, high) && s.replaying && s.page == [] && !s.more && !s.conn.client.closed
    ensures var all, last := s.replayed + Backlog(s.conn.client, s.position), LastCursor(0, Backlog(s.conn.client, s.position));
            && GapFree(all, log, s.conn.client.filter, Base(s))
            && Orderly(all, Later(s.position, last))
            && last <= high
            && (forall i :: 0 <= i < |all| && all[i].cursor > 0 ==> s.resume < all[i].cursor)
  {
    hide Orderly, ConnectionInv, Genuine, Matches, Backlog, PageInv, Covered, Stream;
    var c, backlog := s.conn.client, Backlog(s.conn.client, s.position);
    var all, last := s.replayed + backlog, LastCursor(0, backlog);
    NoStream(s.conn);
    assert Sent(s) == s.replayed;
    BacklogIsOrderly(c, s.position);
    BacklogEntries(s, log, high);
    BacklogCovers(s, log, high);
    OrderlyConcat(s.replayed, backlog, s.position, last);
    OrderlyMeans(all, Later(s.position, last));
    forall i | 0 <= i < |all|
      ensures Covered(all, log, c.filter, Base(s), all[i].cursor) && Genuine(log, c.filter, all[i])
      ensures all[i].cursor > 0 ==> s.resume < all[i].cursor
    {
      if i < |s.replayed| {
        assert all[i] == Sent(s)[i];
        CoveredMore(s.replayed, all, log, c.filter, Base(s), all[i].cursor);
      } else {
        assert all[i] == backlog[i - |s.replayed|];
        CoveredLess(all, log, c.filter, Base(s), Later(high, s.position), all[i].cursor);
      }
    }
  }

  lemma OrderlyMeans(events: seq<Event>, last: nat)
    requires Orderly(events, last)
    ensures forall i, j :: 0 <= i < j < |events| && events[i].cursor > 0 && events[j].cursor > 0 ==>
            events[i].cursor <= events[j].cursor
  {
  }

  /** The hand-off: replay up to the cursor, then the backlog beyond it, with nothing between. */
  lemma {:induction false} SwitchWhenOpen(s: Session, log: seq<Event>, high: nat)
    requires forall i :: 0 <= i < |log| ==> log[i].cursor == i + 1
    requires SessionInv(s, log, high) && s.replaying && s.page == [] && !s.more && !s.conn.client.closed
    ensures SessionInv(SwitchStep(s), log, high)
  {
    hide Orderly, GapFree, Matches, Backlog, PageInv, Covered, Activate, LastCursor, Genuine;
    var c, t := s.conn.client, SwitchStep(s);
    ActivationKeeps(s.conn, s.position);
    ActivationFits(c, s.position);
    ReplayThenBacklog(s, log, high);
    BacklogCovers(s, log, high);
    assert Stream(t.conn) == Backlog(c, s.position);
    assert ConnectionInv(t.conn);
  }

  lemma {:induction false} SwitchKeeps(s: Session, log: seq<Event>, high: nat)
    requires forall i :: 0 <= i < |log| ==> log[i].cursor == i + 1
    requires SessionInv(s, log, high) && s.replaying && s.page == [] && !s.more
    ensures SessionInv(SwitchStep(s), log, high)
  {
    hide SessionInv;
    if s.conn.client.closed {
      SwitchWhenClosed(s, log, high);
    } else {
      SwitchWhenOpen(s, log, high);
    }
  }

  // ---- Writing and disconnecting -----------------------------------------

  lemma {:induction false} WriterKeeps(s: Session, log: seq<Event>, high: nat)
    requires SessionInv(s, log, high) && !s.replaying
    ensures SessionInv(s.(conn := Apply(s.conn, Receive)), log, high)
  {
    hide Orderly, GapFree, Matches, Covered, Stream;
    ReceiveKeeps(s.conn);
    var t := s.(conn := Apply(s.conn, Receive));
    assert Stream(t.conn) == Stream(s.conn);
    assert t.conn.client == s.conn.client.(queue := t.conn.client.queue);
    assert ConnectionInv(t.conn);
  }

  lemma {:induction false} DisconnectKeeps(s: Session, log: seq<Event>, high: nat)
    requires SessionInv(s, log, high)
    ensures SessionInv(s.(conn := Apply(s.conn, Shut), replaying := false), log, high)
  {
    hide Orderly, GapFree, Matches, Covered, Stream;
    OpKeeps(s.conn, Shut);
    var t := s.(conn := Apply(s.conn, Shut), replaying := false);
    assert Stream(t.conn) == Stream(s.conn);
    assert ConnectionInv(t.conn);
  }

  // ---- Every run ---------------------------------------------------------

  lemma DenseLog(d: Dispatcher)
    requires DispatcherInv(d)
    ensures Dense(d.store) && forall i :: 0 <= i < |Log(d)| ==> Log(d)[i].cursor == i + 1
    ensures d.high <= |Log(d)|
  {
  }

  lemma {:induction false} PublishKeeps(w: World, reached: bool, ok: bool)
    requires WorldInv(w) && Enabled(w, Publish(reached, ok))
    ensures WorldInv(Next(w, Publish(reached, ok)))
  {
    hide DispatcherInv, SessionInv, Offered;
    DispatcherKeeps(w.d, Publish(reached, ok));
    if reached && w.session.Some? {
      OfferedKeeps(w.session.value, Log(w.d), w.d.high, w.d.batch[w.d.sent]);
    }
  }

  /** Every step keeps the dispatcher's and the session's invariant. */
  lemma {:induction false} WorldKeeps(w: World, step: Step)
    requires WorldInv(w) && Enabled(w, step)
    ensures WorldInv(Next(w, step))
  {
    hide DispatcherInv, SessionInv, Moves, Dense, Offered, NewSession, ReadStep, WriteStep, SwitchStep, Apply;
    DenseLog(w.d);
    match step
    case Commit(key, after) =>
      DispatcherKeeps(w.d, step);
      if w.session.Some? {
        LogGrows(w.session.value, Log(w.d), after.events, w.d.high);
      }
    case Fetch =>
      DispatcherKeeps(w.d, step);
    case Publish(reached, ok) =>
      PublishKeeps(w, reached, ok);
    case Mark(ok) =>
      DispatcherKeeps(w.d, step);
    case Provisional(event) =>
      if w.session.Some? {
        OfferedKeeps(w.session.value, Log(w.d), w.d.high, event);
      }
    case Subscribe(filter, resume) =>
      SubscribeKeeps(filter, resume, Log(w.d), w.d.high);
    case ReadPage =>
      ReadKeeps(w.session.value, w.d.store, w.d.high);
    case WriteReplay =>
      WriteKeeps(w.session.value, w.d.store, w.d.high);
    case Switch =>
      SwitchKeeps(w.session.value, Log(w.d), w.d.high);
    case Write =>
      WriterKeeps(w.session.value, Log(w.d), w.d.high);
    case Disconnect =>
      DisconnectKeeps(w.session.value, Log(w.d), w.d.high);
  }

  /** A process starts on the store it finds, with nothing handed to its hub but what is marked. */
  function Started(store: StoreState, marked: nat): World { World(Dispatcher(store, [], 0, marked, marked), None) }

  function RunAll(w: World, steps: seq<Step>): World {
    if steps == [] then w else Next(RunAll(w, steps[..|steps| - 1]), steps[|steps| - 1])
  }

  ghost predicate AllEnabled(w: World, steps: seq<Step>) {
    steps == [] ||
    (AllEnabled(w, steps[..|steps| - 1]) && Enabled(RunAll(w, steps[..|steps| - 1]), steps[|steps| - 1]))
  }

  lemma {:induction false} RunKeeps(w: World, steps: seq<Step>)
    requires WorldInv(w) && AllEnabled(w, steps)
    ensures WorldInv(RunAll(w, steps))
  {
    hide WorldInv, Enabled, Next;
    if steps != [] {
      RunKeeps(w, steps[..|steps| - 1]);
      WorldKeeps(RunAll(w, steps[..|steps| - 1]), steps[|steps| - 1]);
    }
  }
}
