/** WebSocket clients of the hub (internal/api/hub.go). The specification is a value and its
    transitions; the classes refine it over a channel whose misuse is a precondition failure. */
module Hub {
  import opened Model
  import opened Sorting
  import opened Store

  // ---- Subscriptions -----------------------------------------------------

  const ANALYSIS_EVENT_TYPE := "io.ytstack.signals.analysis.updated.v1"

  /** An empty dataset selects every dataset. */
  datatype SeriesSelector = SeriesSelector(dataset: string, symbol: string, timeframe: string)

  datatype AnalysisSelector = AnalysisSelector(name: string, config: Option<ConfigHash>)

  datatype Subscription = Subscription(
    series: seq<SeriesSelector>, analyses: seq<AnalysisSelector>, eventTypes: set<string>, confirmed: bool, provisional: bool)

  predicate SelectsSeries(selector: SeriesSelector, key: SeriesKey) {
    && selector.symbol == key.symbol && selector.timeframe == key.timeframe
    && (selector.dataset == "" || selector.dataset == key.dataset)
  }

  predicate SelectsAnalysis(selector: AnalysisSelector, algorithm: AlgorithmRef) {
    && (selector.name == "*" || selector.name == algorithm.name)
    && (selector.config.None? || selector.config.value == algorithm.config)
  }

  /** Each empty part of a subscription selects everything. */
  predicate Matches(filter: Subscription, event: Event) {
    && (if event.provisional then filter.provisional else filter.confirmed)
    && (filter.series == [] || exists i :: 0 <= i < |filter.series| && SelectsSeries(filter.series[i], event.key))
    && (filter.eventTypes == {} || ANALYSIS_EVENT_TYPE in filter.eventTypes)
    && (filter.analyses == [] || exists i :: 0 <= i < |filter.analyses| && SelectsAnalysis(filter.analyses[i], event.algorithm))
  }

  /** A subscription to one fully named series, to everything it confirms, selects exactly that. */
  lemma {:induction false} SeriesSubscription(key: SeriesKey, event: Event)
    requires key.dataset != ""
    ensures var one := SeriesSelector(key.dataset, key.symbol, key.timeframe);
            Matches(Subscription([one], [], {}, true, false), event) <==> event.key == key && !event.provisional
  {
    var one := SeriesSelector(key.dataset, key.symbol, key.timeframe);
    assert [one][0] == one;
  }

  /** More selectors select more: a list of series is the union of its parts. */
  lemma {:induction false} SeriesUnion(filter: Subscription, a: seq<SeriesSelector>, b: seq<SeriesSelector>, event: Event)
    requires a != [] && b != []
    ensures Matches(filter.(series := a + b), event) <==>
            Matches(filter.(series := a), event) || Matches(filter.(series := b), event)
  {
    var all := a + b;
    assert forall i :: 0 <= i < |a| ==> all[i] == a[i];
    assert forall i :: 0 <= i < |b| ==> all[|a| + i] == b[i];
  }

  method MatchesEvent(filter: Subscription, event: Event) returns (selected: bool)
    ensures selected == Matches(filter, event)
  {
    if event.provisional && !filter.provisional {
      return false;
    }
    if !event.provisional && !filter.confirmed {
      return false;
    }
    if |filter.series| > 0 {
      var found := false;
      for i := 0 to |filter.series|
        invariant !found && forall k :: 0 <= k < i ==> !SelectsSeries(filter.series[k], event.key)
      {
        if SelectsSeries(filter.series[i], event.key) {
          found := true;
          break;
        }
      }
      if !found {
        return false;
      }
    }
    if |filter.eventTypes| > 0 && ANALYSIS_EVENT_TYPE !in filter.eventTypes {
      return false;
    }
    if |filter.analyses| > 0 {
      for i := 0 to |filter.analyses|
        invariant forall k :: 0 <= k < i ==> !SelectsAnalysis(filter.analyses[k], event.algorithm)
      {
        if SelectsAnalysis(filter.analyses[i], event.algorithm) {
          return true;
        }
      }
      return false;
    }
    return true;
  }

  // ---- One client --------------------------------------------------------

  /** `queue` is what the channel buffers; it may still be drained after closing. */
  datatype Client = Client(
    filter: Subscription, capacity: nat, queue: seq<Event>, active: bool, pending: seq<Event>, lastCursor: nat, closed: bool)

  function NewClient(filter: Subscription, buffer: int): Client {
    Client(filter, if buffer <= 0 then 1024 else buffer, [], false, [], 0, false)
  }

  /** Cursors in order, frames without a cursor last; cursors fit 63 bits. */
  function CursorKey(event: Event): int {
    if event.cursor == 0 then 0x8000_0000_0000_0000 else event.cursor
  }

  predicate Stale(event: Event, cursor: nat) { event.cursor > 0 && event.cursor <= cursor }

  function Bump(last: nat, event: Event): nat { if event.cursor > 0 then event.cursor else last }

  function Enqueue(c: Client, event: Event): Client {
    if !Matches(c.filter, event) || c.closed || Stale(event, c.lastCursor) then c
    else if !c.active then
      if |c.pending| >= c.capacity then c.(closed := true) else c.(pending := c.pending + [event])
    else if |c.queue| < c.capacity then c.(queue := c.queue + [event], lastCursor := Bump(c.lastCursor, event))
    else c.(closed := true)
  }

  /** Sends the events beyond `after`, stopping and closing when the channel is full. */
  function SendAll(c: Client, events: seq<Event>, after: nat): Client {
    if events == [] then c
    else
      var before, event := SendAll(c, events[..|events| - 1], after), events[|events| - 1];
      if before.closed || Stale(event, after) then before
      else if |before.queue| < before.capacity then
        before.(queue := before.queue + [event], lastCursor := Bump(before.lastCursor, event))
      else before.(closed := true)
  }

  function Activate(c: Client, after: nat): Client {
    if c.closed then c
    else
      var sorted := c.(pending := StableSort(CursorKey, c.pending));
      var sent := SendAll(sorted, sorted.pending, after);
      if sent.closed then sent
      else sent.(pending := [], lastCursor := if after > sent.lastCursor then after else sent.lastCursor, active := true)
  }

  function Drain(c: Client): Client { if c.queue == [] then c else c.(queue := c.queue[1..]) }

  function Close(c: Client): Client { c.(closed := true) }

  // ---- What every step keeps ---------------------------------------------

  /** Until activation the channel is empty and the backlog fits it. */
  predicate ClientInv(c: Client) {
    && |c.queue| <= c.capacity && |c.pending| <= c.capacity
    && (!c.active ==> c.queue == [] && c.lastCursor == 0)
    && (c.active ==> c.pending == [])
    && (forall i :: 0 <= i < |c.pending| ==> Matches(c.filter, c.pending[i]))
  }

  lemma {:induction false} SendAllUnfold(c: Client, events: seq<Event>, event: Event, after: nat)
    ensures var before := SendAll(c, events, after);
            SendAll(c, events + [event], after) ==
            if before.closed || Stale(event, after) then before
            else if |before.queue| < before.capacity then
              before.(queue := before.queue + [event], lastCursor := Bump(before.lastCursor, event))
            else before.(closed := true)
  {
    assert (events + [event])[..|events|] == events;
  }

  lemma SendNothing(c: Client, after: nat)
    ensures SendAll(c, [], after) == c
  {
  }

  predicate IsFresh(event: Event, after: nat) { !Stale(event, after) }

  function Beyond(after: nat): Event -> bool { event => IsFresh(event, after) }

  function LastCursor(last: nat, events: seq<Event>): nat {
    if events == [] then last else Bump(LastCursor(last, events[..|events| - 1]), events[|events| - 1])
  }

  /** With room for all of them, the events beyond `after` are all sent, in order. */
  lemma {:induction false} SendAllFits(c: Client, events: seq<Event>, after: nat)
    requires !c.closed && |c.queue| + |events| <= c.capacity
    ensures SendAll(c, events, after) ==
            c.(queue := c.queue + Filter(Beyond(after), events), lastCursor :=
              LastCursor(c.lastCursor, Filter(Beyond(after), events)))
  {
    if events == [] {
      assert c.queue + Filter(Beyond(after), events) == c.queue;
    } else {
      var rest, event := events[..|events| - 1], events[|events| - 1];
      SendAllFits(c, rest, after);
      assert Filter(Beyond(after), events) == Filter(Beyond(after), rest) + if Beyond(after)(event) then [event] else [];
      if !Stale(event, after) {
        var sent := Filter(Beyond(after), rest);
        assert (sent + [event])[..|sent|] == sent;
        assert c.queue + sent + [event] == c.queue + (sent + [event]);
      }
    }
  }

  function Backlog(c: Client, after: nat): seq<Event> { Filter(Beyond(after), StableSort(CursorKey, c.pending)) }

  /** Activation never overflows: it sends the whole backlog beyond the cursor. */
  lemma {:induction false} ActivationFits(c: Client, after: nat)
    requires ClientInv(c) && !c.active && !c.closed
    ensures var last := LastCursor(0, Backlog(c, after));
            Activate(c, after) ==
            c.(queue := Backlog(c, after), pending := [], active := true, lastCursor := if after > last then after else last)
  {
    var sorted := c.(pending := StableSort(CursorKey, c.pending));
    SendAllFits(sorted, sorted.pending, after);
    assert [] + Backlog(c, after) == Backlog(c, after);
  }

  lemma {:induction false} EnqueueKeeps(c: Client, event: Event)
    requires ClientInv(c)
    ensures ClientInv(Enqueue(c, event))
  {
    hide Matches;
  }

  lemma {:induction false} ActivateAgain(c: Client, after: nat)
    requires ClientInv(c) && c.active && !c.closed
    ensures Activate(c, after) == c.(lastCursor := if after > c.lastCursor then after else c.lastCursor)
  {
    var none := StableSort(CursorKey, c.pending);
    assert none == [] && c.(pending := none) == c;
    assert SendAll(c, none, after) == c;
  }

  /** Whatever has been or can still be drained: durable cursors never decrease, and none
      exceeds the client's last cursor. */
  predicate Orderly(stream: seq<Event>, last: nat) {
    && (forall i, j :: 0 <= i < j < |stream| && stream[i].cursor > 0 && stream[j].cursor > 0 ==>
      stream[i].cursor <= stream[j].cursor)
    && (forall i :: 0 <= i < |stream| ==> stream[i].cursor <= last)
  }

  lemma {:induction false} LastCursorBounds(last: nat, events: seq<Event>)
    requires SortedBy(CursorKey, events)
    requires forall i :: 0 <= i < |events| && events[i].cursor > 0 ==> last <= events[i].cursor
    ensures last <= LastCursor(last, events)
    ensures forall i :: 0 <= i < |events| ==> events[i].cursor <= LastCursor(last, events)
    ensures LastCursor(last, events) == last || exists i :: 0 <= i < |events| && events[i].cursor == LastCursor(last, events)
  {
    if events != [] {
      var rest, event := events[..|events| - 1], events[|events| - 1];
      LastCursorBounds(last, rest);
      forall i | 0 <= i < |rest| && event.cursor > 0 && rest[i].cursor > 0 ensures rest[i].cursor <= event.cursor {
        assert CursorKey(events[i]) <= CursorKey(events[|events| - 1]);
      }
      if event.cursor == 0 && LastCursor(last, rest) != last {
        var i :| 0 <= i < |rest| && rest[i].cursor == LastCursor(last, rest);
        assert events[i].cursor == LastCursor(last, events);
      }
    }
  }

  /** The backlog a client receives on activation. */
  lemma {:induction false} BacklogIsOrderly(c: Client, after: nat)
    ensures Orderly(Backlog(c, after), LastCursor(0, Backlog(c, after)))
    ensures LastCursor(0, Backlog(c, after)) == 0 ||
            exists i :: 0 <= i < |Backlog(c, after)| && Backlog(c, after)[i].cursor == LastCursor(0, Backlog(c, after))
    ensures forall e :: e in Backlog(c, after) <==> e in c.pending && !Stale(e, after)
    ensures forall i :: 0 <= i < |Backlog(c, after)| ==> Backlog(c, after)[i].cursor == 0 || Backlog(c, after)[i].cursor > after
  {
    hide StableSort, Filter, LastCursor;
    var sorted, sent := StableSort(CursorKey, c.pending), Backlog(c, after);
    StableSortSorted(CursorKey, c.pending);
    SameElements(CursorKey, c.pending);
    FilterSorted(CursorKey, Beyond(after), sorted);
    LastCursorBounds(0, sent);
    SortedIsOrderly(sent, LastCursor(0, sent));
    forall e ensures e in sent <==> e in sorted && !Stale(e, after) {
      if e in sent {
        FilterMember(Beyond(after), sorted, e);
      }
      if e in sorted && !Stale(e, after) {
        FilterKeeps(Beyond(after), sorted, e);
      }
    }
    forall i | 0 <= i < |sent| ensures sent[i].cursor == 0 || sent[i].cursor > after {
      assert sent[i] in sent;
    }
  }

  lemma {:induction false} SortedIsOrderly(events: seq<Event>, last: nat)
    requires SortedBy(CursorKey, events) && forall i :: 0 <= i < |events| ==> events[i].cursor <= last
    ensures Orderly(events, last)
  {
    forall i, j | 0 <= i < j < |events| && events[i].cursor > 0 && events[j].cursor > 0
      ensures events[i].cursor <= events[j].cursor {
      assert CursorKey(events[i]) <= CursorKey(events[j]);
    }
  }

  // ---- Every interleaving ------------------------------------------------

  datatype Op = Offer(event: Event) | Activation(after: nat) | Receive | Shut

  /** A client and what its writer has taken from the channel. */
  datatype Connection = Connection(client: Client, received: seq<Event>)

  function Stream(conn: Connection): seq<Event> { conn.received + conn.client.queue }

  function Apply(conn: Connection, op: Op): Connection {
    var c := conn.client;
    match op
    case Offer(event) => conn.(client := Enqueue(c, event))
    case Activation(after) => conn.(client := Activate(c, after))
    case Receive => Connection(Drain(c), conn.received + Take(c.queue, 1))
    case Shut => conn.(client := Close(c))
  }

  function ApplyAll(conn: Connection, ops: seq<Op>): Connection {
    if ops == [] then conn else Apply(ApplyAll(conn, ops[..|ops| - 1]), ops[|ops| - 1])
  }

  predicate ConnectionInv(conn: Connection) {
    && ClientInv(conn.client)
    && (!conn.client.active ==> conn.received == [])
    && Orderly(Stream(conn), conn.client.lastCursor)
  }

  /** What one step may put on the stream. */
  ghost predicate Sends(conn: Connection, op: Op, after: Connection) {
    && Stream(conn) <= Stream(after)
    && (conn.client.closed ==> after.client.closed && Stream(after) == Stream(conn))
    && (op.Receive? || op.Shut? ==> Stream(after) == Stream(conn))
    && (op.Offer? && Stream(after) != Stream(conn) ==>
          && conn.client.active && Matches(conn.client.filter, op.event) && Stream(after) == Stream(conn) + [op.event]
          && (op.event.cursor > 0 ==> op.event.cursor > conn.client.lastCursor)
          && (op.event.cursor > 0 ==> forall i :: 0 <= i < |Stream(conn)| ==> Stream(conn)[i].cursor < op.event.cursor))
    && (conn.client.active ==> after.client.active && conn.client.lastCursor <= after.client.lastCursor)
    && (op.Activation? && conn.client.active ==> Stream(after) == Stream(conn))
    && (op.Activation? && !conn.client.closed ==> after.client.active && op.after <= after.client.lastCursor)
    && (op.Activation? ==> after.client.closed == conn.client.closed)
    && (op.Activation? ==> forall i :: |Stream(conn)| <= i < |Stream(after)| ==>
                             Stream(after)[i].cursor == 0 || Stream(after)[i].cursor > op.after)
  }

  lemma {:induction false} OfferKeeps(conn: Connection, event: Event)
    requires ConnectionInv(conn)
    ensures ConnectionInv(Apply(conn, Offer(event))) && Sends(conn, Offer(event), Apply(conn, Offer(event)))
  {
    hide Matches;
    EnqueueKeeps(conn.client, event);
    var after := Apply(conn, Offer(event));
    if after.client.queue != conn.client.queue {
      assert Stream(after) == Stream(conn) + [event];
    }
  }

  lemma {:induction false} ReceiveKeeps(conn: Connection)
    requires ConnectionInv(conn)
    ensures ConnectionInv(Apply(conn, Receive)) && Sends(conn, Receive, Apply(conn, Receive))
  {
    hide Matches;
    var c := conn.client;
    if c.queue != [] {
      assert Take(c.queue, 1) + c.queue[1..] == c.queue;
    }
    assert Stream(Apply(conn, Receive)) == Stream(conn);
  }

  lemma {:induction false} ActivationKeeps(conn: Connection, after: nat)
    requires ConnectionInv(conn)
    ensures ConnectionInv(Apply(conn, Activation(after))) && Sends(conn, Activation(after), Apply(conn, Activation(after)))
  {
    hide Matches, Backlog, LastCursor, Activate;
    var c := conn.client;
    if c.closed {
      ActivateClosed(c, after);
      assert Apply(conn, Activation(after)) == conn;
    } else if c.active {
      ActivateAgain(c, after);
    } else {
      FirstActivation(conn, after);
    }
  }

  lemma {:induction false} FirstActivation(conn: Connection, after: nat)
    requires ConnectionInv(conn) && !conn.client.closed && !conn.client.active
    ensures ConnectionInv(Apply(conn, Activation(after))) && Sends(conn, Activation(after), Apply(conn, Activation(after)))
  {
    hide Matches, Backlog, LastCursor, Activate, Orderly;
    var c, t := conn.client, Apply(conn, Activation(after));
    ActivationFits(c, after);
    BacklogIsOrderly(c, after);
    BacklogFits(c, after);
    assert Stream(conn) == [];
    assert Stream(t) == Backlog(c, after);
    OrderlyUpTo(Stream(t), LastCursor(0, Stream(t)), t.client.lastCursor);
  }

  lemma OrderlyUpTo(stream: seq<Event>, last: nat, later: nat)
    requires Orderly(stream, last) && last <= later
    ensures Orderly(stream, later)
  {
  }

  lemma ActivateClosed(c: Client, after: nat)
    requires c.closed
    ensures Activate(c, after) == c
  {
  }

  lemma BacklogFits(c: Client, after: nat)
    ensures |Backlog(c, after)| <= |c.pending|
  {
  }

  lemma {:induction false} OpKeeps(conn: Connection, op: Op)
    requires ConnectionInv(conn)
    ensures ConnectionInv(Apply(conn, op)) && Sends(conn, op, Apply(conn, op))
  {
    match op
    case Offer(event) => OfferKeeps(conn, event);
    case Activation(after) => ActivationKeeps(conn, after);
    case Receive => ReceiveKeeps(conn);
    case Shut =>
      hide Matches;
      assert Stream(Apply(conn, op)) == Stream(conn);
  }

  /** An activated connection: every durable event on the stream is above the activation cursor,
      and beyond the first `len` entries, the backlog, cursors strictly increase. */
  ghost predicate Settled(conn: Connection, after: nat, len: nat) {
    var stream := Stream(conn);
    && conn.client.active && after <= conn.client.lastCursor && len <= |stream|
    && (forall i :: 0 <= i < |stream| && stream[i].cursor > 0 ==> stream[i].cursor > after)
    && (forall i, j :: 0 <= i < j < |stream| && len <= j && stream[i].cursor > 0 && stream[j].cursor > 0 ==>
          stream[i].cursor < stream[j].cursor)
  }

  lemma {:induction false} ActivationSettles(conn: Connection, after: nat)
    requires ConnectionInv(conn) && !conn.client.closed && !conn.client.active
    ensures Settled(Apply(conn, Activation(after)), after, |Stream(Apply(conn, Activation(after)))|)
  {
    hide Apply, Orderly, ClientInv, Matches;
    assert Stream(conn) == [] by { NothingYet(conn); }
    ActivationKeeps(conn, after);
  }

  lemma {:induction false} NothingYet(conn: Connection)
    requires ConnectionInv(conn) && !conn.client.active
    ensures Stream(conn) == []
  {
    hide Matches, Orderly;
  }

  lemma {:induction false} SettledKeeps(conn: Connection, op: Op, after: nat, len: nat)
    requires ConnectionInv(conn) && Settled(conn, after, len)
    ensures Settled(Apply(conn, op), after, len)
  {
    hide Apply, ConnectionInv, Matches;
    OpKeeps(conn, op);
  }

  /** Once active, an open client stays settled over any further steps. */
  lemma {:induction false} StaysSettled(conn: Connection, ops: seq<Op>, after: nat, len: nat)
    requires ConnectionInv(conn) && Settled(conn, after, len)
    ensures ConnectionInv(ApplyAll(conn, ops)) && Settled(ApplyAll(conn, ops), after, len)
  {
    hide Apply, ConnectionInv, Settled;
    if ops != [] {
      StaysSettled(conn, ops[..|ops| - 1], after, len);
      OpKeeps(ApplyAll(conn, ops[..|ops| - 1]), ops[|ops| - 1]);
      SettledKeeps(ApplyAll(conn, ops[..|ops| - 1]), ops[|ops| - 1], after, len);
    }
  }

  lemma {:induction false} ApplyAllConcat(conn: Connection, a: seq<Op>, b: seq<Op>)
    ensures ApplyAll(conn, a + b) == ApplyAll(ApplyAll(conn, a), b)
  {
    hide Apply;
    if b == [] {
      assert a + b == a;
    } else {
      assert (a + b)[..|a + b| - 1] == a + b[..|b| - 1];
      ApplyAllConcat(conn, a, b[..|b| - 1]);
    }
  }

  /** Whether step `n` activates a client that is still open and waiting. */
  predicate Activates(conn: Connection, op: Op) {
    op.Activation? && !conn.client.closed && !conn.client.active
  }

  /** Over every interleaving of offers, activations, drains and closes: durable cursors never
      decrease, nothing sent is taken back, a closed client's stream is frozen, and from its
      activation on every durable event is above the activation cursor, strictly increasing once
      the backlog is through. */
  lemma {:induction false} ClientSafety(filter: Subscription, buffer: int, ops: seq<Op>, n: nat)
    requires n <= |ops|
    ensures var start := Connection(NewClient(filter, buffer), []);
            var mid, now := ApplyAll(start, ops[..n]), ApplyAll(start, ops);
            && ConnectionInv(now)
            && Stream(mid) <= Stream(now)
            && (mid.client.closed ==> now.client.closed && Stream(now) == Stream(mid))
            && (n < |ops| && Activates(mid, ops[n]) ==> Settled(now, ops[n].after, |Stream(Apply(mid, ops[n]))|))
  {
    hide ConnectionInv, Apply, Settled, NewClient;
    var start := Connection(NewClient(filter, buffer), []);
    NewConnection(filter, buffer);
    StreamGrows(start, ops[..n]);
    var mid := ApplyAll(start, ops[..n]);
    StreamGrows(mid, ops[n..]);
    ApplyAllConcat(start, ops[..n], ops[n..]);
    assert ops[..n] + ops[n..] == ops;
    if n < |ops| && Activates(mid, ops[n]) {
      ActivationSettles(mid, ops[n].after);
      OpKeeps(mid, ops[n]);
      var active := Apply(mid, ops[n]);
      StaysSettled(active, ops[n + 1..], ops[n].after, |Stream(active)|);
      ApplyOne(mid, ops[n]);
      ApplyAllConcat(mid, [ops[n]], ops[n + 1..]);
      assert [ops[n]] + ops[n + 1..] == ops[n..];
    }
  }

  lemma {:induction false} ApplyOne(conn: Connection, op: Op)
    ensures ApplyAll(conn, [op]) == Apply(conn, op)
  {
    assert [op][..0] == [];
  }

  lemma {:induction false} StreamGrows(conn: Connection, ops: seq<Op>)
    requires ConnectionInv(conn)
    ensures var after := ApplyAll(conn, ops);
            && ConnectionInv(after)
            && Stream(conn) <= Stream(after)
            && (conn.client.closed ==> after.client.closed && Stream(after) == Stream(conn))
  {
    hide ConnectionInv, Apply;
    if ops != [] {
      StreamGrows(conn, ops[..|ops| - 1]);
      OpKeeps(ApplyAll(conn, ops[..|ops| - 1]), ops[|ops| - 1]);
    }
  }

  lemma NewConnection(filter: Subscription, buffer: int)
    ensures ConnectionInv(Connection(NewClient(filter, buffer), []))
  {
  }

  // ---- Forming frames ----------------------------------------------------

  predicate Uncursored(event: Event) { event.cursor == 0 }

  predicate Wanted(filter: Subscription, event: Event) { Uncursored(event) && Matches(filter, event) }

  function WantedBy(filter: Subscription): Event -> bool { event => Wanted(filter, event) }

  /** The frames without a cursor among events, in order. */
  function Live(events: seq<Event>): seq<Event> { Filter(Uncursored, events) }

  /** What has reached the client or waits for it. */
  function Held(conn: Connection): seq<Event> { Stream(conn) + conn.client.pending }

  /** The events offered over some steps. */
  function OffersOf(ops: seq<Op>): seq<Event> {
    if ops == [] then []
    else OffersOf(ops[..|ops| - 1]) + match ops[|ops| - 1] case Offer(event) => [event] case _ => []
  }

  lemma {:induction false} LiveOfKey(s: seq<Event>)
    ensures Live(WithKey(CursorKey, s, 0x8000_0000_0000_0000)) == Live(s)
  {
    if s != [] {
      LiveOfKey(s[..|s| - 1]);
    }
  }

  lemma {:induction false} LiveOfFresh(s: seq<Event>, after: nat)
    ensures Live(Filter(Beyond(after), s)) == Live(s)
  {
    if s != [] {
      LiveOfFresh(s[..|s| - 1], after);
    }
  }

  /** Sorting and skipping the replayed part leave the frames without a cursor alone. */
  lemma {:induction false} LiveOfBacklog(c: Client, after: nat)
    ensures Live(Backlog(c, after)) == Live(c.pending)
  {
    hide StableSort, Filter, WithKey;
    var sorted := StableSort(CursorKey, c.pending);
    LiveOfFresh(sorted, after);
    LiveOfKey(sorted);
    LiveOfKey(c.pending);
    StableSortStable(CursorKey, c.pending, 0x8000_0000_0000_0000);
  }

  lemma {:induction false} LivePush(events: seq<Event>, event: Event)
    ensures Live(events + [event]) == Live(events) + if event.cursor == 0 then [event] else []
  {
    assert (events + [event])[..|events|] == events;
  }

  /** An offer to an open client closes it exactly when it is wanted, new and finds no room. */
  lemma {:induction false} OfferCloses(conn: Connection, event: Event)
    requires ConnectionInv(conn) && !conn.client.closed
    ensures var c, after := conn.client, Apply(conn, Offer(event)).client;
            after.closed <==>
              && Matches(c.filter, event) && (event.cursor == 0 || event.cursor > c.lastCursor)
              && (if c.active then |c.queue| else |c.pending|) == c.capacity
  {
    hide Matches, Orderly;
  }

  lemma {:induction false} OfferHolds(conn: Connection, event: Event)
    requires ConnectionInv(conn) && !Apply(conn, Offer(event)).client.closed
    ensures Live(Held(Apply(conn, Offer(event)))) ==
            Live(Held(conn)) + if Wanted(conn.client.filter, event) then [event] else []
  {
    hide Matches, Orderly, Filter;
    var c, after := conn.client, Apply(conn, Offer(event));
    LivePush(Held(conn), event);
    if after.client != c {
      assert Held(after) == Held(conn) + [event];
    }
  }

  /** No step but an offer changes which frames without a cursor are held, nor their order. */
  lemma {:induction false} OtherStepsHold(conn: Connection, op: Op)
    requires ConnectionInv(conn) && !Apply(conn, op).client.closed && !op.Offer?
    ensures Live(Held(Apply(conn, op))) == Live(Held(conn))
  {
    hide Matches, Orderly, Filter, Activate, Backlog, LastCursor;
    var c, after := conn.client, Apply(conn, op);
    match op
    case Activation(cursor) =>
      if c.closed {
        ActivateClosed(c, cursor);
      } else if c.active {
        ActivateAgain(c, cursor);
      } else {
        ActivationFits(c, cursor);
        LiveOfBacklog(c, cursor);
        assert Held(conn) == c.pending;
        assert Held(after) == Backlog(c, cursor);
      }
    case Receive =>
      ReceiveKeeps(conn);
    case Shut =>
  }

  lemma {:induction false} FilterStays(conn: Connection, op: Op)
    requires ConnectionInv(conn)
    ensures Apply(conn, op).client.filter == conn.client.filter
    ensures conn.client.closed ==> Apply(conn, op).client.closed
  {
    hide Matches, Orderly, Activate, Backlog, LastCursor;
    match op
    case Activation(after) =>
      if conn.client.closed {
        ActivateClosed(conn.client, after);
      } else if conn.client.active {
        ActivateAgain(conn.client, after);
      } else {
        ActivationFits(conn.client, after);
      }
    case _ =>
  }

  /** As long as a client is open it holds every frame without a cursor that it selects, once and
      in the order offered, whenever it was activated. */
  lemma {:induction false} LiveFramesInOrder(filter: Subscription, buffer: int, ops: seq<Op>)
    ensures var now := ApplyAll(Connection(NewClient(filter, buffer), []), ops);
            && ConnectionInv(now) && now.client.filter == filter
            && (!now.client.closed ==> Live(Held(now)) == Filter(WantedBy(filter), OffersOf(ops)))
  {
    hide ConnectionInv, Apply, Filter, Matches, Held;
    var start := Connection(NewClient(filter, buffer), []);
    NewConnection(filter, buffer);
    if ops == [] {
      NothingHeld(filter, buffer);
    } else {
      var rest, op := ops[..|ops| - 1], ops[|ops| - 1];
      LiveFramesInOrder(filter, buffer, rest);
      var before := ApplyAll(start, rest);
      OpKeeps(before, op);
      FilterStays(before, op);
      if !Apply(before, op).client.closed {
        if op.Offer? {
          OfferHolds(before, op.event);
          WantedPush(filter, OffersOf(rest), op.event);
        } else {
          OtherStepsHold(before, op);
          assert OffersOf(rest) + [] == OffersOf(rest);
        }
      }
    }
  }

  lemma {:induction false} WantedPush(filter: Subscription, events: seq<Event>, event: Event)
    ensures Filter(WantedBy(filter), events + [event]) ==
            Filter(WantedBy(filter), events) + if Wanted(filter, event) then [event] else []
  {
    hide Matches;
    assert (events + [event])[..|events|] == events;
  }

  lemma {:induction false} NothingHeld(filter: Subscription, buffer: int)
    ensures Live(Held(Connection(NewClient(filter, buffer), []))) == Filter(WantedBy(filter), [])
  {
    hide Matches;
  }

  // ---- The objects -------------------------------------------------------

  /** A buffered channel. Sending to or closing a closed channel would panic, so both are
      preconditions here. */
  class Channel {
    const capacity: nat
    var queue: seq<Event>
    var closed: bool

    constructor (capacity: nat)
      ensures this.capacity == capacity && queue == [] && !closed
    {
      this.capacity, queue, closed := capacity, [], false;
    }

    /** The non-blocking send of a `select` with a default. */
    method TrySend(event: Event) returns (sent: bool)
      requires !closed
      modifies this
      ensures sent == (|old(queue)| < capacity) && !closed
      ensures queue == if sent then old(queue) + [event] else old(queue)
    {
      sent := |queue| < capacity;
      if sent {
        queue := queue + [event];
      }
    }

    method Shut()
      requires !closed
      modifies this
      ensures closed && queue == old(queue)
    {
      closed := true;
    }

    method Receive() returns (event: Option<Event>)
      modifies this
      ensures closed == old(closed)
      ensures event == if old(queue) == [] then None else Some(old(queue)[0])
      ensures queue == if old(queue) == [] then [] else old(queue)[1..]
    {
      event := None;
      if queue != [] {
        event := Some(queue[0]);
        queue := queue[1..];
      }
    }
  }

  class HubClient {
    const filter: Subscription
    const send: Channel
    var active: bool
    var pending: seq<Event>
    var lastCursor: nat
    var closed: bool

    ghost predicate Valid()
      reads this, send
    {
      send.closed == closed
    }

    function State(): Client
      reads this, send
    {
      Client(filter, send.capacity, send.queue, active, pending, lastCursor, closed)
    }

    constructor (filter: Subscription, buffer: int)
      ensures Valid() && fresh(send) && State() == NewClient(filter, buffer)
    {
      this.filter := filter;
      send := new Channel(if buffer <= 0 then 1024 else buffer);
      active, pending, lastCursor, closed := false, [], 0, false;
    }

    method Offer(event: Event)
      requires Valid()
      modifies this, send
      ensures Valid() && State() == Enqueue(old(State()), event)
    {
      hide Matches;
      var selected := MatchesEvent(filter, event);
      if !selected || closed || (event.cursor > 0 && event.cursor <= lastCursor) {
        return;
      }
      if !active {
        if |pending| >= send.capacity {
          closed := true;
          send.Shut();
          return;
        }
        pending := pending + [event];
        return;
      }
      var sent := send.TrySend(event);
      if !sent {
        closed := true;
        send.Shut();
      } else if event.cursor > 0 {
        lastCursor := event.cursor;
      }
    }

    method Start(after: nat)
      requires Valid()
      modifies this, send
      ensures Valid() && State() == Activate(old(State()), after)
    {
      hide StableSort, SendAll;
      if closed {
        return;
      }
      pending := StableSort(CursorKey, pending);
      ghost var start := State();
      SendNothing(start, after);
      assert pending[..0] == [];
      for i := 0 to |pending|
        invariant Valid() && !closed && pending == start.pending
        invariant State() == SendAll(start, pending[..i], after)
      {
        var event := pending[i];
        SendAllUnfold(start, pending[..i], event, after);
        assert pending[..i] + [event] == pending[..i + 1];
        if event.cursor > 0 && event.cursor <= after {
          continue;
        }
        var sent := send.TrySend(event);
        if !sent {
          closed := true;
          send.Shut();
          SendAllStops(start, pending, after, i + 1);
          return;
        }
        if event.cursor > 0 {
          lastCursor := event.cursor;
        }
      }
      assert pending[..|pending|] == pending;
      pending := [];
      if after > lastCursor {
        lastCursor := after;
      }
      active := true;
    }

    method Stop()
      requires Valid()
      modifies this, send
      ensures Valid() && State() == Close(old(State()))
    {
      if !closed {
        closed := true;
        send.Shut();
      }
    }
  }

  lemma {:induction false} SendAllStops(c: Client, events: seq<Event>, after: nat, n: nat)
    requires n <= |events| && SendAll(c, events[..n], after).closed
    ensures SendAll(c, events, after) == SendAll(c, events[..n], after)
    decreases |events|
  {
    if n < |events| {
      assert events[..|events| - 1][..n] == events[..n];
      SendAllStops(c, events[..|events| - 1], after, n);
    } else {
      assert events[..n] == events;
    }
  }

  class HubObject {
    var clients: set<HubClient>

    /** Clients do not share channels. */
    ghost predicate Valid()
      reads this, clients, set c | c in clients :: c.send
    {
      && (forall c :: c in clients ==> c.Valid())
      && (forall c, d :: c in clients && d in clients && c != d ==> c.send != d.send)
    }

    constructor ()
      ensures Valid() && clients == {}
    {
      clients := {};
    }

    method Subscribe(filter: Subscription, buffer: int) returns (client: HubClient)
      requires Valid()
      modifies this
      ensures Valid() && fresh(client) && clients == old(clients) + {client}
      ensures client.State() == NewClient(filter, buffer)
    {
      client := new HubClient(filter, buffer);
      clients := clients + {client};
    }

    /** Every client is offered the event, exactly once. */
    method Publish(event: Event)
      requires Valid()
      modifies clients, set c | c in clients :: c.send
      ensures Valid() && clients == old(clients)
      ensures forall c :: c in clients ==> c.State() == Enqueue(old(c.State()), event)
    {
      hide Enqueue;
      var todo := clients;
      while todo != {}
        invariant todo <= clients && clients == old(clients) && Valid()
        invariant forall c :: c in clients && c !in todo ==> c.State() == Enqueue(old(c.State()), event)
        invariant forall c :: c in todo ==> c.State() == old(c.State())
        decreases todo
      {
        var client :| client in todo;
        client.Offer(event);
        todo := todo - {client};
      }
    }

    /** A client that is no longer registered is closed all the same. */
    method Unsubscribe(client: HubClient)
      requires Valid() && client.Valid()
      requires forall c :: c in clients && c != client ==> c.send != client.send
      modifies this, client, client.send
      ensures Valid() && clients == old(clients) - {client}
      ensures client.State() == Close(old(client.State()))
      ensures forall c :: c in clients ==> c.State() == old(c.State())
    {
      clients := clients - {client};
      client.Stop();
    }
  }
}
