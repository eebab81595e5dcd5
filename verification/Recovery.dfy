/** Restoring a lane after a restart from checkpoints and a seed
    (internal/engine/lane.go:367-476). */
module Recovery {
  import opened Model
  import opened Sorting
  import opened Ema
  import opened Market
  import opened Lane
  import opened Fold

  /** The seed's closed candles after one time up to another. */
  predicate InWindow(bar: Bar, lo: nat, hi: nat) { bar.closed && lo < bar.time <= hi }

  function Between(lo: nat, hi: nat): Bar -> bool { bar => InWindow(bar, lo, hi) }

  function ClosedWithin(bars: seq<Bar>, lo: nat, hi: nat): seq<Bar> { Filter(Between(lo, hi), bars) }

  predicate InSpan(bar: Bar, lo: nat, hi: nat) { bar.closed && lo <= bar.time <= hi }

  function Spanning(lo: nat, hi: nat): Bar -> bool { bar => InSpan(bar, lo, hi) }

  function AdvancedAll(reducers: Reducers, bars: seq<Bar>): Reducers {
    if bars == [] then reducers else Advanced(AdvancedAll(reducers, bars[..|bars| - 1]), bars[|bars| - 1].close)
  }

  predicate SeenAt(bars: seq<Bar>, time: nat) {
    exists i :: 0 <= i < |bars| && bars[i].closed && bars[i].time == time
  }

  // ---- The restore loop --------------------------------------------------

  /** What the loop has collected, from the checkpoint on. */
  ghost predicate Collected(start: Restoring, r: Restoring, bars: seq<Bar>, lo: nat, hi: nat) {
    && r.reducers == AdvancedAll(start.reducers, ClosedWithin(bars, lo, hi))
    && r.count == start.count + |ClosedWithin(bars, lo, hi)|
    && r.marketBars == Filter(Overlapping(hi), bars)
    && r.lastBar == LastOf(Filter(Spanning(lo, hi), bars))
    && (r.foundSnapshot <==> SeenAt(bars, lo))
    && (r.foundCursor <==> SeenAt(bars, hi))
  }

  lemma {:induction false} SeenGrows(bars: seq<Bar>, bar: Bar, time: nat)
    ensures SeenAt(bars + [bar], time) <==> SeenAt(bars, time) || (bar.closed && bar.time == time)
  {
    var all := bars + [bar];
    if SeenAt(bars, time) {
      var i :| 0 <= i < |bars| && bars[i].closed && bars[i].time == time;
      assert all[i] == bars[i];
    }
    assert all[|bars|] == bar;
  }

  lemma {:induction false} FilterPush<T>(p: T -> bool, s: seq<T>, x: T)
    ensures Filter(p, s + [x]) == Filter(p, s) + if p(x) then [x] else []
  {
    assert (s + [x])[..|s|] == s;
  }

  lemma {:induction false} CollectStep(
    config: LaneConfig, lo: nat, cursor: Bar, start: Restoring, r: Restoring, bars: seq<Bar>, bar: Bar)
    requires lo <= cursor.time
    requires Collected(start, r, bars, lo, cursor.time)
    requires RestoreBar(config, lo, cursor, r, bar).Some?
    ensures Collected(start, RestoreBar(config, lo, cursor, r, bar).value, bars + [bar], lo, cursor.time)
  {
    var hi := cursor.time;
    SeenGrows(bars, bar, lo);
    SeenGrows(bars, bar, hi);
    FilterPush(Between(lo, hi), bars, bar);
    FilterPush(Overlapping(hi), bars, bar);
    FilterPush(Spanning(lo, hi), bars, bar);
    hide SeenAt, Filter, Advanced, ValidBar, FingerprintOf;
    var within := ClosedWithin(bars, lo, hi);
    assert (within + [bar])[..|within|] == within;
    assert within + [] == within;
  }

  lemma {:induction false} RestoreRunCollects(config: LaneConfig, lo: nat, cursor: Bar, start: Restoring, bars: seq<Bar>)
    requires lo <= cursor.time
    requires start.lastBar.None? && !start.foundSnapshot && !start.foundCursor && start.marketBars == []
    requires RestoreRun(config, lo, cursor, start, bars).Some?
    ensures Collected(start, RestoreRun(config, lo, cursor, start, bars).value, bars, lo, cursor.time)
  {
    if bars == [] {
      assert ClosedWithin([], lo, cursor.time) == [];
    } else {
      hide Collected, RestoreBar;
      var rest, bar := bars[..|bars| - 1], bars[|bars| - 1];
      RestoreRunCollects(config, lo, cursor, start, rest);
      CollectStep(config, lo, cursor, start, RestoreRun(config, lo, cursor, start, rest).value, rest, bar);
      assert rest + [bar] == bars;
    }
  }

  // ---- The restored reducers ---------------------------------------------

  lemma {:induction false} AdvancedAllFolds(periods: seq<Period>, history: seq<Bar>, more: seq<Bar>)
    ensures AdvancedAll(ReducersOf(periods, history), more) == ReducersOf(periods, history + more)
  {
    hide ReducersOf, Advanced;
    if more == [] {
      assert history + more == history;
    } else {
      var rest, bar := more[..|more| - 1], more[|more| - 1];
      AdvancedAllFolds(periods, history, rest);
      AdvancedReducers(periods, history + rest, bar);
      assert history + rest + [bar] == history + more;
    }
  }

  lemma {:induction false} CheckpointRestores(config: LaneConfig, history: seq<Bar>)
    requires ValidConfig(config) && history != []
    ensures var snapshots := CheckpointMap(config, history);
            && RestoredReducers(config.periods, snapshots) == Some(ReducersOf(config.periods, history))
            && SharedCheckpoint(config.periods, snapshots, ReducersOf(config.periods, history))
            && snapshots[config.periods[0]].lastOpenTime == history[|history| - 1].time
            && ReducersOf(config.periods, history)[config.periods[0]].samples == |history|
  {
    hide EmaOf, Closes, Restored, TakeSnapshot;
    var snapshots := CheckpointMap(config, history);
    forall p | p in config.periods
      ensures RestorableSnapshot(snapshots, p)
      ensures Restored(NewEma(p), snapshots[p].state.ema).value == EmaOf(p, Closes(history))
    {
      SnapshotRoundTrip(p, Closes(history));
    }
    assert RestoredReducers(config.periods, snapshots).value == ReducersOf(config.periods, history);
    assert config.periods[0] in config.periods;
  }

  lemma {:induction false} ReplayedTracks(m: MarketReducer, history: seq<Bar>, bars: seq<Bar>, lo: nat, hi: nat)
    requires Tracks(m, history)
    requires forall i :: 0 <= i < |bars| ==> bars[i].closed && bars[i].time <= hi
    ensures Tracks(Replayed(m, bars, lo), history + ClosedWithin(bars, lo, hi))
  {
    hide Tracks, CloseBar;
    if bars == [] {
      assert history + ClosedWithin(bars, lo, hi) == history;
    } else {
      var rest, bar := bars[..|bars| - 1], bars[|bars| - 1];
      ReplayedTracks(m, history, rest, lo, hi);
      var sofar := history + ClosedWithin(rest, lo, hi);
      if bar.time > lo {
        CloseBarTracks(Replayed(m, rest, lo), sofar, bar);
        assert sofar + [bar] == history + ClosedWithin(bars, lo, hi);
      }
    }
  }

  lemma {:induction false} OverlapThenWithin(bars: seq<Bar>, lo: nat, hi: nat)
    ensures ClosedWithin(Filter(Overlapping(hi), bars), lo, hi) == ClosedWithin(bars, lo, hi)
    ensures var overlap := Filter(Overlapping(hi), bars);
            forall i :: 0 <= i < |overlap| ==> overlap[i].closed && overlap[i].time <= hi
  {
    if bars != [] {
      var rest, bar := bars[..|bars| - 1], bars[|bars| - 1];
      OverlapThenWithin(rest, lo, hi);
      if Overlapping(hi)(bar) {
        FilterPush(Between(lo, hi), Filter(Overlapping(hi), rest), bar);
      }
    }
  }

  lemma {:induction false} MarketRestores(config: LaneConfig, history: seq<Bar>, cursor: Bar, bars: seq<Bar>)
    requires history != [] && history[|history| - 1].time <= cursor.time
    ensures var lo, hi := history[|history| - 1].time, cursor.time;
            var r := RestoredMarket(CheckpointMap(config, history), cursor, Filter(Overlapping(hi), bars));
            r.Some? && Tracks(r.value, history + ClosedWithin(bars, lo, hi))
  {
    hide EmaOf, Closes, TakeSnapshot, Evaluate, Replayed, ClosedWithin;
    var lo, hi := history[|history| - 1].time, cursor.time;
    var m := RestoreMarket(MarketSnapshot(|history|, Suffix(history, HISTORY_LIMIT))).value;
    OverlapThenWithin(bars, lo, hi);
    ReplayedTracks(m, history, Filter(Overlapping(hi), bars), lo, hi);
  }

  // ---- The last candle ---------------------------------------------------

  lemma {:induction false} SpanSplits(bars: seq<Bar>, lo: nat, hi: nat)
    requires SortedBy(BarTime, bars)
    ensures ClosedWithin(bars, lo, hi) != [] ==> LastOf(Filter(Spanning(lo, hi), bars)) == LastOf(ClosedWithin(bars, lo, hi))
    ensures ClosedWithin(bars, lo, hi) == [] ==>
              var last := LastOf(Filter(Spanning(lo, hi), bars));
              last.Some? ==> last.value.time == lo && last.value in bars && last.value.closed
  {
    if bars != [] {
      var rest, bar := bars[..|bars| - 1], bars[|bars| - 1];
      SpanSplits(rest, lo, hi);
      if bar.closed && bar.time == lo {
        forall x | x in rest ensures !Between(lo, hi)(x) {
          var i :| 0 <= i < |rest| && rest[i] == x;
          assert BarTime(bars[i]) <= BarTime(bar);
        }
        FilterNone(Between(lo, hi), rest);
      }
    }
  }

  /** Every closed candle the loop read at the cursor carries the cursor's digest. */
  lemma {:induction false} CursorMatches(config: LaneConfig, lo: nat, cursor: Bar, start: Restoring, bars: seq<Bar>, bar: Bar)
    requires lo <= cursor.time && RestoreRun(config, lo, cursor, start, bars).Some?
    requires bar in bars && bar.closed && bar.time == cursor.time
    ensures ValidBar(config.key, bar) && FingerprintOf(bar) == FingerprintOf(cursor)
  {
    var rest, last := bars[..|bars| - 1], bars[|bars| - 1];
    if bar != last {
      var i :| 0 <= i < |bars| && bars[i] == bar;
      assert rest[i] == bar;
      CursorMatches(config, lo, cursor, start, rest, bar);
    }
  }

  // ---- Recovery ----------------------------------------------------------

  lemma {:induction false} RestoredLastBar(config: LaneConfig, history: seq<Bar>, k: nat, start: Restoring, bars: seq<Bar>)
    requires History(config.key, history) && 1 <= k <= |history| && SortedBy(BarTime, bars)
    requires var cursor := history[|history| - 1];
             var r := RestoreRun(config, history[k - 1].time, cursor, start, bars);
             r.Some? && SeenAt(bars, cursor.time)
    ensures var lo, hi := history[k - 1].time, history[|history| - 1].time;
            LastOf(Filter(Spanning(lo, hi), bars)) == LastOf(history[..k] + ClosedWithin(bars, lo, hi))
  {
    var cursor := history[|history| - 1];
    var lo, hi := history[k - 1].time, cursor.time;
    SpanSplits(bars, lo, hi);
    var i :| 0 <= i < |bars| && bars[i].closed && bars[i].time == hi;
    if ClosedWithin(bars, lo, hi) == [] {
      if lo < hi {
        FilterKeeps(Between(lo, hi), bars, bars[i]);
        assert false;
      }
      assert k == |history|;
      FilterKeeps(Spanning(lo, hi), bars, bars[i]);
      var last := LastOf(Filter(Spanning(lo, hi), bars)).value;
      CursorMatches(config, lo, cursor, start, bars, last);
      FingerprintIdentifiesBar(config.key, last, cursor);
      assert history[..k] + [] == history;
    }
  }

  /** Whatever the seed, a restored lane is exactly the fold of the checkpointed candles
      followed by the seed's closed candles after the checkpoint through the cursor. */
  lemma {:induction false} RestoreFolds(config: LaneConfig, history: seq<Bar>, k: nat, bars: seq<Bar>)
    requires ValidConfig(config) && History(config.key, history) && 1 <= k <= |history| && SortedBy(BarTime, bars)
    requires RestoreStep(config, history[|history| - 1], CheckpointMap(config, history[..k]), bars).Some?
    ensures var lo, hi := history[k - 1].time, history[|history| - 1].time;
            var lane := RestoreStep(config, history[|history| - 1], CheckpointMap(config, history[..k]), bars).value;
            LaneFolds(config, lane, history[..k] + ClosedWithin(bars, lo, hi))
  {
    var cursor, prefix := history[|history| - 1], history[..k];
    var lo, hi := history[k - 1].time, cursor.time;
    CheckpointRestores(config, prefix);
    var start := Restoring(ReducersOf(config.periods, prefix), None, false, false, k, []);
    var r := RestoreRun(config, lo, cursor, start, bars);
    hide CheckpointMap, ReducersOf, RestoreRun, RestoredMarket, RestoredReducers, SharedCheckpoint, Filter, Tracks,
         SortedBy, ValidConfig, SeenAt, History, AdvancedAll;
    RestoreRunCollects(config, lo, cursor, start, bars);
    RestoredLastBar(config, history, k, start, bars);
    AdvancedAllFolds(config.periods, prefix, ClosedWithin(bars, lo, hi));
    MarketRestores(config, prefix, cursor, bars);
  }

  /** Crash recovery: a seed that repeats exactly the committed candles after the checkpoint
      restores every reducer, count and the last candle to the fold of the durable history. */
  lemma {:induction false} RecoveryRestoresHistory(config: LaneConfig, history: seq<Bar>, k: nat, bars: seq<Bar>)
    requires ValidConfig(config) && History(config.key, history) && 1 <= k <= |history| && SortedBy(BarTime, bars)
    requires RestoreStep(config, history[|history| - 1], CheckpointMap(config, history[..k]), bars).Some?
    requires ClosedWithin(bars, history[k - 1].time, history[|history| - 1].time) == history[k..]
    ensures LaneFolds(config, RestoreStep(config, history[|history| - 1], CheckpointMap(config, history[..k]),
            bars).value, history)
  {
    hide RestoreStep, LaneFolds, ClosedWithin;
    RestoreFolds(config, history, k, bars);
    assert history[..k] + history[k..] == history;
  }

  // ---- When restoring succeeds -------------------------------------------

  /** The seed covers the checkpoint and the cursor, agrees with the cursor, and is valid from
      the checkpoint on. */
  ghost predicate Covers(config: LaneConfig, lo: nat, cursor: Bar, bars: seq<Bar>) {
    && SeenAt(bars, lo)
    && SeenAt(bars, cursor.time)
    && (forall i :: 0 <= i < |bars| && bars[i].closed && bars[i].time >= lo ==> ValidBar(config.key, bars[i]))
    && (forall i :: 0 <= i < |bars| && bars[i].closed && bars[i].time == cursor.time ==>
      FingerprintOf(bars[i]) == FingerprintOf(cursor))
  }

  /** What the loop accepts: every candle it reads is in order and, at the cursor, the same. */
  ghost predicate Acceptable(config: LaneConfig, lo: nat, cursor: Bar, bars: seq<Bar>) {
    && (forall i :: 0 <= i < |bars| && bars[i].closed && bars[i].time >= lo ==> ValidBar(config.key, bars[i]))
    && (forall i :: 0 <= i < |bars| && bars[i].closed && bars[i].time == cursor.time ==>
      FingerprintOf(bars[i]) == FingerprintOf(cursor))
    && (forall i :: 0 <= i < |bars| && InWindow(bars[i], lo, cursor.time) ==> SeenAt(bars[..i], lo))
  }

  lemma {:induction false} AcceptableGrows(config: LaneConfig, lo: nat, cursor: Bar, bars: seq<Bar>, bar: Bar)
    ensures Acceptable(config, lo, cursor, bars + [bar]) <==>
            && Acceptable(config, lo, cursor, bars)
            && (bar.closed && bar.time >= lo ==> ValidBar(config.key, bar))
            && (bar.closed && bar.time == cursor.time ==> FingerprintOf(bar) == FingerprintOf(cursor))
            && (InWindow(bar, lo, cursor.time) ==> SeenAt(bars, lo))
  {
    hide ValidBar, FingerprintOf, SeenAt;
    var all := bars + [bar];
    assert all[|bars|] == bar && all[..|bars|] == bars;
    assert forall i :: 0 <= i < |bars| ==> all[i] == bars[i] && all[..i] == bars[..i];
    assert forall i :: 0 <= i < |bars| ==> bars[i] == all[i];
  }

  lemma {:induction false} RestoreRunAccepts(config: LaneConfig, lo: nat, cursor: Bar, start: Restoring, bars: seq<Bar>)
    requires lo <= cursor.time
    requires start.lastBar.None? && !start.foundSnapshot && !start.foundCursor && start.marketBars == []
    ensures RestoreRun(config, lo, cursor, start, bars).Some? <==> Acceptable(config, lo, cursor, bars)
  {
    if bars != [] {
      hide Acceptable, ValidBar, FingerprintOf, SeenAt;
      var rest, bar := bars[..|bars| - 1], bars[|bars| - 1];
      RestoreRunAccepts(config, lo, cursor, start, rest);
      AcceptableGrows(config, lo, cursor, rest, bar);
      assert rest + [bar] == bars;
      if RestoreRun(config, lo, cursor, start, rest).Some? {
        RestoreRunCollects(config, lo, cursor, start, rest);
      }
    }
  }

  lemma {:induction false} CoversIsAcceptable(config: LaneConfig, lo: nat, cursor: Bar, bars: seq<Bar>)
    requires SortedBy(BarTime, bars) && SeenAt(bars, lo)
    ensures forall i :: 0 <= i < |bars| && InWindow(bars[i], lo, cursor.time) ==> SeenAt(bars[..i], lo)
  {
    var s :| 0 <= s < |bars| && bars[s].closed && bars[s].time == lo;
    forall i | 0 <= i < |bars| && InWindow(bars[i], lo, cursor.time) ensures SeenAt(bars[..i], lo) {
      assert s < i by {
        assert i < s ==> BarTime(bars[i]) <= BarTime(bars[s]);
      }
      assert bars[..i][s] == bars[s];
    }
  }

  /** Restoring succeeds exactly on a seed that covers the checkpointed range. */
  lemma {:induction false} RestoreSucceedsExactly(config: LaneConfig, history: seq<Bar>, k: nat, bars: seq<Bar>)
    requires ValidConfig(config) && History(config.key, history) && 1 <= k <= |history| && SortedBy(BarTime, bars)
    ensures RestoreStep(config, history[|history| - 1], CheckpointMap(config, history[..k]), bars).Some? <==>
            Covers(config, history[k - 1].time, history[|history| - 1], bars)
  {
    var cursor, prefix := history[|history| - 1], history[..k];
    var lo, hi := history[k - 1].time, cursor.time;
    assert lo <= hi;
    CheckpointRestores(config, prefix);
    var start := Restoring(ReducersOf(config.periods, prefix), None, false, false, k, []);
    var r := RestoreRun(config, lo, cursor, start, bars);
    RestoreRunAccepts(config, lo, cursor, start, bars);
    if SeenAt(bars, lo) {
      CoversIsAcceptable(config, lo, cursor, bars);
    }
    MarketRestores(config, prefix, cursor, bars);
    if r.Some? {
      RestoreRunCollects(config, lo, cursor, start, bars);
      if SeenAt(bars, hi) {
        RestoredLastBar(config, history, k, start, bars);
      }
    }
    hide CheckpointMap, ReducersOf, RestoreRun, RestoredMarket, RestoredReducers, SharedCheckpoint, Filter, Tracks,
         SeenAt, AdvancedAll, ClosedWithin, SortedBy, ValidBar, FingerprintOf;
  }
}
