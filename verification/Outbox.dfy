/** The outbox dispatcher (internal/outbox/dispatcher.go:78-101, internal/store/memory.go:171-196). */
module Outbox {
  import opened Model
  import opened Store
  import opened Durable
  import opened LogShape

  const BATCH: nat := 250

  /** Exactly the first `k` log entries are marked published. */
  ghost predicate PublishedUpTo(s: StoreState, k: nat) {
    && k <= |s.events|
    && forall c :: c in s.published <==> 1 <= c <= k
  }

  /** What is pending is what follows the published prefix, in order. */
  lemma {:induction false} PendingIsNext(s: StoreState, k: nat, limit: nat)
    requires Dense(s) && PublishedUpTo(s, k)
    ensures Pending(s, limit) == Take(s.events[k..], limit)
  {
    hide Filter, Take;
    assert s.events == s.events[..k] + s.events[k..];
    FilterConcat(Unpublished(s), s.events[..k], s.events[k..]);
    forall e | e in s.events[..k] ensures !Unpublished(s)(e) {
      var i :| 0 <= i < k && s.events[i] == e;
    }
    NotYetPublished(s, k);
    FilterNone(Unpublished(s), s.events[..k]);
    FilterAll(Unpublished(s), s.events[k..]);
    assert [] + s.events[k..] == s.events[k..];
  }

  lemma {:induction false} NotYetPublished(s: StoreState, k: nat)
    requires Dense(s) && PublishedUpTo(s, k)
    ensures forall e :: e in s.events[k..] ==> Unpublished(s)(e)
  {
    forall e | e in s.events[k..] ensures Unpublished(s)(e) {
      var i :| 0 <= i < |s.events| - k && s.events[k..][i] == e;
      assert s.events[k + i] == e;
    }
  }

  function CursorsOf(events: seq<Event>): (r: seq<nat>)
    ensures |r| == |events| && forall i :: 0 <= i < |events| ==> r[i] == events[i].cursor
  {
    seq(|events|, i requires 0 <= i < |events| => events[i].cursor)
  }

  /** Marking the next entries keeps the published set a prefix. */
  lemma {:induction false} MarkingNext(s: StoreState, k: nat, batch: seq<Event>)
    requires Dense(s) && PublishedUpTo(s, k) && batch <= s.events[k..]
    ensures PublishedUpTo(s.(published := s.published + set c | c in CursorsOf(batch)), k + |batch|)
  {
    var cursors := CursorsOf(batch);
    forall i | 0 <= i < |batch| ensures cursors[i] == k + 1 + i {
      assert batch[i] == s.events[k..][i] == s.events[k + i];
    }
    forall c | k < c <= k + |batch| ensures c in cursors {
      assert cursors[c - k - 1] == c;
    }
  }

  /** Commits and rebuilds leave the published prefix alone. */
  lemma {:induction false} CommitsKeepPublished(key: SeriesKey, s: StoreState, t: StoreState, k: nat)
    requires Moves(key, s, t) && PublishedUpTo(s, k)
    ensures PublishedUpTo(t, k)
  {
    hide SameSeries, CursorsAdvance;
  }

  /** Publishes everything pending. `publishFails` and `markFails` say which publish calls and
      which markings fail; `published` are the calls that succeeded, in order. */
  method Flush(store: Memory, publishFails: set<nat>, markFails: set<nat>, ghost k: nat)
    returns (ok: bool, published: seq<Event>, ghost marked: nat)
    requires Dense(store.State()) && PublishedUpTo(store.State(), k)
    modifies store
    ensures store.State() == old(store.State()).(published := store.published)
    ensures PublishedUpTo(store.State(), marked)
    ensures published <= store.events[k..]
    ensures k <= marked <= k + |published|
    ensures ok ==> marked == |store.events|
    ensures publishFails == {} && markFails == {} ==> ok
  {
    hide Dense, PublishedUpTo, Pending, Take;
    published, marked := [], k;
    PublishedBound(store.State(), k);
    var round := 0;
    while true
      invariant store.State() == old(store.State()).(published := store.published)
      invariant Dense(store.State()) && PublishedUpTo(store.State(), marked)
      invariant k <= marked <= |store.events|
      invariant published == store.events[k..marked]
      decreases |store.events| - marked
    {
      ghost var before := store.State();
      var events := store.PendingEvents(BATCH);
      PendingIsNext(before, marked, BATCH);
      TakeIsPrefix(store.events[marked..], BATCH);
      if |events| == 0 {
        return true, published, marked;
      }
      var sent, cursors := PublishAll(events, publishFails, |published|);
      assert published + sent <= store.events[k..] by {
        assert store.events[k..] == published + store.events[marked..];
      }
      published := published + sent;
      if |sent| < |events| || round in markFails {
        return false, published, marked;
      }
      assert sent == events;
      MarkingNext(before, marked, events);
      store.MarkPublished(cursors);
      DenseKept(before, store.State());
      marked := marked + |events|;
      round := round + 1;
      if |events| < BATCH {
        return true, published, marked;
      }
    }
  }

  lemma PublishedBound(s: StoreState, k: nat)
    requires PublishedUpTo(s, k)
    ensures k <= |s.events|
  {
  }

  lemma TakeIsPrefix<T>(s: seq<T>, n: nat)
    ensures Take(s, n) <= s && (|Take(s, n)| < n ==> Take(s, n) == s)
  {
  }

  lemma DenseKept(s: StoreState, t: StoreState)
    requires Dense(s) && t.events == s.events && t.next == s.next
    ensures Dense(t)
  {
  }

  /** Publishes a batch in order up to the first failure; only complete batches are marked. */
  method PublishAll(events: seq<Event>, failing: set<nat>, n: nat) returns (sent: seq<Event>, cursors: seq<nat>)
    ensures sent <= events
    ensures cursors == CursorsOf(sent)
    ensures |sent| < |events| <==> exists i :: n <= i < n + |events| && i in failing
    ensures |sent| < |events| ==> n + |sent| in failing
  {
    sent, cursors := [], [];
    for i := 0 to |events|
      invariant sent == events[..i] && cursors == CursorsOf(sent)
      invariant forall j :: n <= j < n + i ==> j !in failing
    {
      if n + i in failing {
        return;
      }
      sent, cursors := sent + [events[i]], cursors + [events[i].cursor];
    }
  }
}
