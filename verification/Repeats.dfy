/** Repeating a seed at once (internal/engine/lane.go:193-277, 478-497). */
module Repeats {
  import opened Model
  import opened Sorting
  import opened Market
  import opened Store
  import opened Lane
  import opened Fold
  import opened Durable
  import opened Rebuild
  import opened Steps
  import opened Recovery
  import opened Runs
  import opened Conflicts
  import opened LogShape
  import opened Seeds
  import opened Restarts

  type Digests = map<nat, Fingerprint>

  // ---- Conflicts in terms of the whole history ---------------------------

  lemma {:induction false} FingerprintSource(bars: seq<Bar>, t: nat) returns (i: nat)
    requires t in FingerprintMap(bars)
    ensures i < |bars| && bars[i].time == t && FingerprintMap(bars)[t] == FingerprintOf(bars[i])
  {
    hide FingerprintOf;
    if bars[|bars| - 1].time == t {
      i := |bars| - 1;
    } else {
      i := FingerprintSource(bars[..|bars| - 1], t);
    }
  }

  lemma {:induction false} FingerprintConcat(a: seq<Bar>, b: seq<Bar>)
    ensures FingerprintMap(a + b) == FingerprintMap(a) + FingerprintMap(b)
  {
    hide FingerprintOf;
    if b == [] {
      assert a + b == a;
    } else {
      assert (a + b)[..|a + b| - 1] == a + b[..|b| - 1];
      FingerprintConcat(a, b[..|b| - 1]);
    }
  }

  /** In a window of candles in time order, exactly those from the window's start on. */
  lemma {:induction false} WindowMap(history: seq<Bar>, n: nat, t: nat)
    requires SortedBy(BarTime, history) && history != [] && n > 0
    ensures var w := Suffix(history, n);
            && (t in FingerprintMap(w) <==> t in FingerprintMap(history) && t >= w[0].time)
            && (t in FingerprintMap(w) ==> FingerprintMap(w)[t] == FingerprintMap(history)[t])
  {
    hide FingerprintMap, FingerprintOf;
    var w := Suffix(history, n);
    var d := |history| - |w|;
    var a := history[..d];
    assert a + w == history;
    FingerprintConcat(a, w);
    FingerprintKeys(w, t);
    if t in FingerprintMap(w) {
      var i :| 0 <= i < |w| && w[i].time == t;
      assert w[0] == history[d] && w[i] == history[d + i];
      assert i == 0 || BarTime(history[d]) <= BarTime(history[d + i]);
    } else if t in FingerprintMap(history) {
      var j := FingerprintSource(a, t);
      assert BarTime(history[j]) <= BarTime(history[d]);
      assert t != w[0].time;
    }
  }

  /** From `start` on the seed has the history's candles, and the history's from `first` on. */
  ghost predicate Agree(seed: Digests, history: Digests, start: nat, first: nat) {
    && (forall t :: t in seed && t >= start ==> t in history && history[t] == seed[t])
    && (forall t :: t in history && t >= start && t >= first ==> t in seed)
  }

  lemma {:induction false} ClashIsDisagreement(seed: Digests, local: Digests, history: Digests, first: nat, start: nat)
    requires forall t: nat :: t in local <==> t in history && t >= start
    requires forall t: nat :: t in local ==> local[t] == history[t]
    ensures Clash(seed, local, first, start) <==> !Agree(seed, history, start, first)
  {
    if Agree(seed, history, start, first) {
      forall t | t in seed ensures if t in local then local[t] == seed[t] else t < start {
      }
    }
    if !Clash(seed, local, first, start) {
      forall t | t in seed && t >= start ensures t in history && history[t] == seed[t] {
        assert if t in local then local[t] == seed[t] else t < start;
      }
      forall t | t in history && t >= start && t >= first ensures t in seed {
        assert t in local;
      }
    }
  }

  function WindowStart(history: seq<Bar>): nat
    requires history != []
  {
    Suffix(history, HISTORY_LIMIT)[0].time
  }

  lemma {:induction false} ConflictByHistory(config: LaneConfig, lane: LaneState, history: seq<Bar>, bars: seq<Bar>)
    requires LaneFolds(config, lane, history) && InOrder(history) && history != []
    ensures lane.lastBar.Some?
    ensures SeedConflicts(lane, bars) <==>
            && FirstSeedTime(lane, bars) != 0
            && !Agree(SeedMap(lane, bars), FingerprintMap(history), WindowStart(history), FirstSeedTime(lane, bars))
  {
    WindowOf(config, lane, history);
    hide LaneFolds, SeedConflicts, FingerprintMap, SeedMap, FirstSeedTime, Agree, Clash;
    ConflictIsClash(config, lane, history, bars);
    forall t: nat
      ensures t in FingerprintMap(lane.market.bars) <==> t in FingerprintMap(history) && t >= WindowStart(history)
      ensures t in FingerprintMap(lane.market.bars) ==> FingerprintMap(lane.market.bars)[t] == FingerprintMap(history)[t]
    {
      WindowMap(history, HISTORY_LIMIT, t);
    }
    ClashIsDisagreement(SeedMap(lane, bars), FingerprintMap(lane.market.bars), FingerprintMap(history),
      FirstSeedTime(lane, bars), WindowStart(history));
  }

  lemma {:induction false} WindowOf(config: LaneConfig, lane: LaneState, history: seq<Bar>)
    requires LaneFolds(config, lane, history)
    ensures lane.market.bars == Suffix(history, HISTORY_LIMIT)
  {
    hide ReducersOf, Evaluate;
  }

  // ---- All closed candles of a seed --------------------------------------

  function ClosedMap(bars: seq<Bar>): Digests { FingerprintMap(Filter(IsClosed, bars)) }

  lemma {:induction false} SeedMapIsClosedMap(lane: LaneState, bars: seq<Bar>)
    requires lane.lastBar.Some? && NoneBeyond(bars, lane.lastBar.value)
    ensures SeedMap(lane, bars) == ClosedMap(bars)
  {
    FilterAgrees(Overlapping(lane.lastBar.value.time), IsClosed, bars);
  }

  lemma {:induction false} OverlapMap(bars: seq<Bar>, hi: nat, t: nat)
    requires t <= hi
    ensures var overlap := FingerprintMap(Filter(Overlapping(hi), bars));
            && (t in overlap <==> t in ClosedMap(bars))
            && (t in overlap ==> overlap[t] == ClosedMap(bars)[t])
  {
    hide FingerprintOf;
    if bars != [] {
      var rest, bar := bars[..|bars| - 1], bars[|bars| - 1];
      OverlapMap(rest, hi, t);
      if bar.closed {
        FingerprintPush(Filter(IsClosed, rest), bar);
        FingerprintPush(Filter(Overlapping(hi), rest), bar);
      }
    }
  }

  lemma {:induction false} FingerprintPush(bars: seq<Bar>, bar: Bar)
    ensures FingerprintMap(bars + [bar]) == FingerprintMap(bars)[bar.time := FingerprintOf(bar)]
  {
    assert (bars + [bar])[..|bars|] == bars;
  }

  lemma ClosedMapNothing()
    ensures ClosedMap([]) == FingerprintMap([])
  {
  }

  lemma {:induction false} ClosedMapPush(bars: seq<Bar>, bar: Bar)
    ensures ClosedMap(bars + [bar]) == if bar.closed then ClosedMap(bars)[bar.time := FingerprintOf(bar)] else ClosedMap(bars)
  {
    hide FingerprintMap, FingerprintOf;
    assert (bars + [bar])[..|bars|] == bars;
    FingerprintPush(Filter(IsClosed, bars), bar);
  }

  /** A seed that can be rebuilt from says of every time what the kept candles say. */
  lemma {:induction false} KeptMap(config: LaneConfig, bars: seq<Bar>)
    requires BuildRun(config, bars).Some?
    ensures ClosedMap(bars) == FingerprintMap(Kept(bars))
  {
    hide ValidBar, FingerprintOf, Kept, BuildRun, FingerprintMap, ClosedMap;
    if bars == [] {
      KeptNothing();
      ClosedMapNothing();
    } else {
      var rest, bar := bars[..|bars| - 1], bars[|bars| - 1];
      var kept := Kept(rest);
      assert rest + [bar] == bars;
      BuildPush(config, rest, bar);
      KeptMap(config, rest);
      ClosedMapPush(rest, bar);
      FingerprintPush(kept, bar);
      if bar.closed && kept != [] && bar.time <= kept[|kept| - 1].time {
        FingerprintPush(kept[..|kept| - 1], kept[|kept| - 1]);
        assert kept[..|kept| - 1] + [kept[|kept| - 1]] == kept;
      }
    }
  }

  /** After a rebuild the same seed neither conflicts nor has anything new. */
  lemma {:induction false} RebuiltAgrees(config: LaneConfig, lane: LaneState, bars: seq<Bar>)
    requires BuildRun(config, bars).Some? && Kept(bars) != [] && History(config.key, Kept(bars)) &&
             LaneFolds(config, lane, Kept(bars))
    ensures lane.lastBar.Some? && NoneBeyond(bars, lane.lastBar.value) && !SeedConflicts(lane, bars)
  {
    KeptReaches(config, bars);
    KeptMap(config, bars);
    FoldsLast(config, lane, Kept(bars));
    hide LaneFolds, SeedConflicts, FingerprintMap, SeedMap, FirstSeedTime, Kept, BuildRun, NoneBeyond, Latest, ClosedMap;
    SeedMapIsClosedMap(lane, bars);
    HistorySorted(config.key, Kept(bars));
    ConflictByHistory(config, lane, Kept(bars), bars);
  }

  // ---- After a catch-up --------------------------------------------------

  lemma {:induction false} AgreeExtends(
    seed: Digests, closed: Digests, history: Digests, grown: Digests, hi: nat, start: nat, later: nat, first: nat,
    next: nat)
    requires 0 < start <= later
    requires first == 0 || Agree(seed, history, start, first)
    requires forall t :: t in seed && t != 0 ==> 0 != first <= t
    requires next != 0 && next in closed
    requires forall t :: t <= hi ==> (t in seed <==> t in closed) && (t in seed ==> seed[t] == closed[t])
    requires forall t :: t <= hi ==> (t in history <==> t in grown) && (t in history ==> history[t] == grown[t])
    requires forall t :: t > hi && t in closed ==> t in grown && grown[t] == closed[t]
    requires forall t :: t > hi && t in grown ==> t in closed
    ensures Agree(closed, grown, later, next)
  {
    forall t | t in closed && t >= later ensures t in grown && grown[t] == closed[t] {
      if t <= hi {
        assert t in seed;
      }
    }
    forall t | t in grown && t >= later && t >= next ensures t in closed {
      if t <= hi {
        assert next in seed && t in history;
      }
    }
  }

  lemma {:induction false} GrownMap(history: seq<Bar>, more: seq<Bar>, t: nat)
    requires history != [] && StrictlyIncreasing(history + more) && t <= history[|history| - 1].time
    ensures t in FingerprintMap(history) <==> t in FingerprintMap(history + more)
    ensures t in FingerprintMap(history) ==> FingerprintMap(history)[t] == FingerprintMap(history + more)[t]
  {
    if more == [] {
      assert history + more == history;
    } else {
      var rest, bar := more[..|more| - 1], more[|more| - 1];
      assert history + rest + [bar] == history + more;
      assert forall i :: 0 <= i < |history + rest| ==> (history + rest)[i] == (history + more)[i];
      assert (history + more)[|history| - 1].time < (history + more)[|history + rest|].time;
      hide FingerprintMap, FingerprintOf;
      GrownMap(history, rest, t);
      FingerprintPush(history + rest, bar);
    }
  }

  /** Every closed candle beyond the old cursor is one of the candles just applied. */
  ghost predicate AllApplied(bars: seq<Bar>, hi: nat, more: seq<Bar>) {
    forall i :: 0 <= i < |bars| && bars[i].closed && bars[i].time > hi ==>
      exists j :: 0 <= j < |more| && SameCandle(bars[i], more[j])
  }

  lemma {:induction false} AllAppliedGrows(bars: seq<Bar>, bar: Bar, hi: nat, more: seq<Bar>, one: seq<Bar>)
    requires AllApplied(bars, hi, more)
    requires bar.closed && bar.time > hi ==> exists j :: 0 <= j < |more + one| && SameCandle(bar, (more + one)[j])
    ensures AllApplied(bars + [bar], hi, more + one)
  {
    var all := bars + [bar];
    forall i | 0 <= i < |all| && all[i].closed && all[i].time > hi
      ensures exists j :: 0 <= j < |more + one| && SameCandle(all[i], (more + one)[j]) {
      if i < |bars| {
        assert all[i] == bars[i];
        var j :| 0 <= j < |more| && SameCandle(bars[i], more[j]);
        assert (more + one)[j] == more[j];
      } else {
        assert all[i] == bar;
      }
    }
  }

  lemma {:induction false} StepLast(config: LaneConfig, lane: LaneState, store: StoreState, history: seq<Bar>)
    requires InStep(config, lane, store, history)
    ensures lane.lastBar == LastOf(history)
    ensures history != [] ==> Aligned(config, lane, store)
  {
    hide ReducersOf, Tracks, LogInv, SeriesPoints, PointMap, CheckpointsFold, History, FingerprintOf;
  }

  lemma {:induction false} CatchUpBarApplies(
    config: LaneConfig, lane: LaneState, store: StoreState, history: seq<Bar>, bar: Bar, fail: bool)
    requires ValidConfig(config) && InStep(config, lane, store, history) && history != []
    requires bar.closed && history[|history| - 1].time <= bar.time
    requires CatchUpBar(config, lane, store, bar, fail).error.None?
    ensures var r := CatchUpBar(config, lane, store, bar, fail);
            r.effect.Extended? && (r.effect.bars == [bar] || SameCandle(bar, history[|history| - 1]))
  {
    hide InStep, ClosedStep, FingerprintOf, ValidConfig;
    StepLast(config, lane, store, history);
    CatchUpBarExtends(config, lane, store, history, bar, fail);
    if history[|history| - 1].time < bar.time {
      ClosedAligns(config, lane, store, bar, fail);
    }
  }

  lemma {:induction false} CatchUpApplies(
    config: LaneConfig, lane: LaneState, store: StoreState, history: seq<Bar>, bars: seq<Bar>, failing: set<nat>,
    n: nat)
    requires ValidConfig(config) && InStep(config, lane, store, history) && history != [] && SortedBy(BarTime, bars) &&
             n <= |bars|
    requires CatchUp(config, lane, store, bars, failing, n).error.None?
    ensures AllApplied(bars[..n], history[|history| - 1].time, CatchUp(config, lane, store, bars, failing, n).effect.bars)
  {
    hide InStep, CatchUpBar, FingerprintOf, ValidConfig, NoneBeyond, Aligned;
    if n > 0 {
      CatchUpApplies(config, lane, store, history, bars, failing, n - 1);
      hide AllApplied;
      var before, bar, hi := CatchUp(config, lane, store, bars, failing, n - 1), bars[n - 1], history[|history| - 1].time;
      var more := before.effect.bars;
      var r := CatchUpBar(config, before.lane, before.store, bar, n - 1 in failing);
      StepLast(config, lane, store, history);
      CatchUpExtends(config, lane, store, history, bars, failing, n - 1);
      StepLast(config, before.lane, before.store, history + more);
      CatchUpReaches(config, lane, store, bars, failing, n - 1);
      if bar.closed && bar.time > hi {
        var last := (history + more)[|history + more| - 1];
        assert last.time <= bar.time by {
          if last in bars[..n - 1] {
            var j :| 0 <= j < n - 1 && bars[j] == last;
            assert BarTime(bars[j]) <= BarTime(bars[n - 1]);
          }
        }
        CatchUpBarApplies(config, before.lane, before.store, history + more, bar, n - 1 in failing);
        LandsInMore(history, more, bar, r.effect.bars);
      }
      CatchUpBarEffect(config, before.lane, before.store, bar, n - 1 in failing);
      AllAppliedGrows(bars[..n - 1], bar, hi, more, r.effect.bars);
      assert bars[..n - 1] + [bar] == bars[..n];
    }
  }

  lemma {:induction false} CatchUpBarEffect(config: LaneConfig, lane: LaneState, store: StoreState, bar: Bar, fail: bool)
    requires ValidConfig(config)
    ensures CatchUpBar(config, lane, store, bar, fail).effect.Extended?
  {
    hide CommitClosed;
  }

  lemma {:induction false} LandsInMore(history: seq<Bar>, more: seq<Bar>, bar: Bar, one: seq<Bar>)
    requires history != [] && bar.time > history[|history| - 1].time
    requires one == [bar] || SameCandle(bar, (history + more)[|history + more| - 1])
    ensures exists j :: 0 <= j < |more + one| && SameCandle(bar, (more + one)[j])
  {
    hide FingerprintOf;
    if one == [bar] {
      assert (more + one)[|more|] == bar;
    } else {
      assert more == [] ==> history + more == history;
      assert (more + one)[|more| - 1] == (history + more)[|history + more| - 1];
    }
  }

  /** Beyond the old cursor, seed and grown history say the same. */
  lemma {:induction false} NewPart(history: seq<Bar>, more: seq<Bar>, bars: seq<Bar>, t: nat)
    requires history != [] && StrictlyIncreasing(history + more) && StrictlyIncreasing(history) &&
             AllApplied(bars, history[|history| - 1].time, more)
    requires forall i :: 0 <= i < |more| ==> more[i] in bars && more[i].closed
    requires t > history[|history| - 1].time
    ensures t in ClosedMap(bars) <==> t in FingerprintMap(history + more)
    ensures t in ClosedMap(bars) ==> ClosedMap(bars)[t] == FingerprintMap(history + more)[t]
  {
    hide FingerprintMap, FingerprintOf, Filter;
    var all, closed := history + more, Filter(IsClosed, bars);
    if t in ClosedMap(bars) {
      var k := FingerprintSource(closed, t);
      FilterMember(IsClosed, bars, closed[k]);
      var i :| 0 <= i < |bars| && bars[i] == closed[k];
      var j :| 0 <= j < |more| && SameCandle(bars[i], more[j]);
      assert all[|history| + j] == more[j];
      FingerprintValue(all, |history| + j);
    }
    if t in FingerprintMap(all) {
      var k := FingerprintSource(all, t);
      assert forall i :: 0 <= i < |history| ==> all[i] == history[i] && history[i].time <= history[|history| - 1].time;
      assert all[k] == more[k - |history|];
      FilterKeeps(IsClosed, bars, all[k]);
      var i :| 0 <= i < |closed| && closed[i] == all[k];
      FingerprintKeys(closed, t);
    }
  }

  lemma {:induction false} WindowMovesOn(history: seq<Bar>, more: seq<Bar>)
    requires history != [] && StrictlyIncreasing(history + more) && history[0].time > 0
    ensures 0 < WindowStart(history) <= WindowStart(history + more)
  {
    var all := history + more;
    var a := if |history| <= HISTORY_LIMIT then 0 else |history| - HISTORY_LIMIT;
    var b := if |all| <= HISTORY_LIMIT then 0 else |all| - HISTORY_LIMIT;
    assert WindowStart(history) == all[a].time && WindowStart(all) == all[b].time;
    assert all[0].time <= all[a].time <= all[b].time;
  }

  lemma {:induction false} FirstIsInMap(lane: LaneState, bars: seq<Bar>)
    requires lane.lastBar.Some? && SortedBy(BarTime, bars) && FirstSeedTime(lane, bars) != 0
    ensures FirstSeedTime(lane, bars) in SeedMap(lane, bars)
  {
    var overlap := Filter(Overlapping(lane.lastBar.value.time), bars);
    FilterSorted(BarTime, Overlapping(lane.lastBar.value.time), bars);
    SeedFirstIsLeast(overlap);
    FingerprintKeys(overlap, FirstSeedTime(lane, bars));
  }

  /** A seed that did not conflict does not conflict after its catch-up either. */
  lemma {:induction false} CaughtUpAgrees(
    config: LaneConfig, lane: LaneState, history: seq<Bar>, after: LaneState, more: seq<Bar>, bars: seq<Bar>)
    requires LaneFolds(config, lane, history) && History(config.key, history + more) && History(config.key, history) &&
             history != []
    requires LaneFolds(config, after, history + more) && SortedBy(BarTime, bars)
    requires after.lastBar.Some? && NoneBeyond(bars, after.lastBar.value)
    requires AllApplied(bars, history[|history| - 1].time, more)
    requires forall i :: 0 <= i < |more| ==> more[i] in bars && more[i].closed
    requires !SeedConflicts(lane, bars)
    ensures !SeedConflicts(after, bars)
  {
    FoldsLast(config, lane, history);
    WindowMovesOn(history, more);
    hide LaneFolds, SeedConflicts, FingerprintMap, FirstSeedTime, NoneBeyond, ClosedMap, AllApplied, Agree, WindowStart, Filter;
    HistorySorted(config.key, history);
    HistorySorted(config.key, history + more);
    ConflictByHistory(config, lane, history, bars);
    ConflictByHistory(config, after, history + more, bars);
    SeedMapIsClosedMap(after, bars);
    var hi, next := history[|history| - 1].time, FirstSeedTime(after, bars);
    if next != 0 {
      FirstIsInMap(after, bars);
      forall t: nat
        ensures t in SeedMap(lane, bars) && t != 0 ==> 0 != FirstSeedTime(lane, bars) <= t
        ensures t <= hi ==> (t in SeedMap(lane, bars) <==> t in ClosedMap(bars))
                            && (t in SeedMap(lane, bars) ==> SeedMap(lane, bars)[t] == ClosedMap(bars)[t])
        ensures t <= hi ==> (t in FingerprintMap(history) <==> t in FingerprintMap(history + more))
                            && (t in FingerprintMap(history) ==> FingerprintMap(history)[t] == FingerprintMap(history + more)[t])
        ensures t > hi && t in ClosedMap(bars) ==>
                t in FingerprintMap(history + more) && FingerprintMap(history + more)[t] == ClosedMap(bars)[t]
        ensures t > hi && t in FingerprintMap(history + more) ==> t in ClosedMap(bars)
      {
        SeedTimes(lane, bars, t);
        if t <= hi {
          OverlapMap(bars, hi, t);
          GrownMap(history, more, t);
        } else {
          NewPart(history, more, bars, t);
        }
      }
      AgreeExtends(SeedMap(lane, bars), ClosedMap(bars), FingerprintMap(history), FingerprintMap(history + more), hi,
                   WindowStart(history), WindowStart(history + more), FirstSeedTime(lane, bars), next);
    }
  }

  // ---- Repeating a seed --------------------------------------------------

  /** A lane that agrees with a seed and stands at its end does nothing with it. */
  lemma {:induction false} SeedIsNoop(config: LaneConfig, lane: LaneState, store: StoreState, bars: seq<Bar>, faults: Faults)
    requires ValidConfig(config) && lane.lastBar.Some? && NoneBeyond(bars, lane.lastBar.value) && !SeedConflicts(lane, bars)
    ensures SeedOrdered(config, lane, store, bars, faults) == Outcome(lane, store, None, Extended([]))
  {
    hide CatchUp, SeedConflicts, NoneBeyond;
    NothingToCatchUp(config, lane, store, bars, faults.commits, |bars|);
  }

  lemma {:induction false} AfterRebuild(
    config: LaneConfig, lane: LaneState, store: StoreState, bars: seq<Bar>, reset: bool, fail: bool, faults: Faults)
    requires ValidConfig(config) && Sound(config, store)
    requires RebuildStep(config, lane, store, bars, reset, fail).error.None?
    ensures var r := RebuildStep(config, lane, store, bars, reset, fail);
            && (Kept(bars) != [] ==>
                  SeedOrdered(config, r.lane, r.store, bars, faults) == Outcome(r.lane, r.store, None, Extended([])))
            && (Kept(bars) == [] ==> SeedOrdered(config, r.lane, r.store, bars, faults).lane == r.lane
                                     && SeedOrdered(config, r.lane, r.store, bars, faults).store == r.store)
  {
    hide RebuildStep, Kept, SeedConflicts, LogInv, StoreFolds, LaneFolds, History, BuildRun, MarketOf, NoneBeyond,
         SeedOrdered, ValidCursor;
    RebuildReplaces(config, lane, store, bars, reset, fail);
    RebuiltFrom(config, lane, store, bars, reset, fail);
    var r := RebuildStep(config, lane, store, bars, reset, fail);
    if Kept(bars) == [] {
      EmptySeedTwice(config, lane, store, bars, reset, fail, faults);
    } else {
      RebuiltAgrees(config, r.lane, bars);
      SeedIsNoop(config, r.lane, r.store, bars, faults);
    }
  }

  lemma {:induction false} NothingBuilt(config: LaneConfig, bars: seq<Bar>)
    requires BuildRun(config, bars).Some? && Kept(bars) == []
    ensures BuildRun(config, bars) == Some(Build(NewReducers(config.periods), NEW_MARKET, None, 0, []))
  {
    hide ValidBar, CloseBar, PointsFor, Advanced;
    if bars != [] {
      NothingBuilt(config, bars[..|bars| - 1]);
    }
  }

  lemma {:induction false} EmptyRebuildStep(
    config: LaneConfig, lane: LaneState, store: StoreState, bars: seq<Bar>, reset: bool, fail: bool)
    requires BuildRun(config, bars).Some? && Kept(bars) == []
    ensures RebuildStep(config, lane, store, bars, reset, fail) ==
            if fail then Failed(lane, store, StoreFailed)
            else Outcome(LaneState(NewReducers(config.periods), NEW_MARKET, None, lane.lastRevision, 0, map[], None,
              0), Wipe(store, config.key), None, Replaced([]))
  {
    NothingBuilt(config, bars);
    EmptyRebuildWipes(config, store);
    hide BuildRun, Kept, RebuildSeries, Wipe;
  }

  /** A seed without closed candles clears the series; a second one finds it cleared. */
  lemma {:induction false} EmptySeedTwice(
    config: LaneConfig, lane: LaneState, store: StoreState, bars: seq<Bar>, reset: bool, fail: bool, faults: Faults)
    requires ValidConfig(config) && Sound(config, store) && BuildRun(config, bars).Some? && Kept(bars) == []
    requires RebuildStep(config, lane, store, bars, reset, fail).error.None?
    ensures var r := RebuildStep(config, lane, store, bars, reset, fail);
            && SeedOrdered(config, r.lane, r.store, bars, faults).lane == r.lane
            && SeedOrdered(config, r.lane, r.store, bars, faults).store == r.store
  {
    hide RebuildStep, BuildRun, Kept, LogInv, SnapshotsOf, RestoreStep, Wipe, NewReducers, ValidConfig, ValidCursor;
    EmptyRebuildStep(config, lane, store, bars, reset, fail);
    var r := RebuildStep(config, lane, store, bars, reset, fail);
    EmptyRebuildStep(config, r.lane, r.store, bars, true, faults.rebuild);
    EmptyRebuildStep(config, r.lane, r.store, bars, false, faults.rebuild);
    WipeTwice(store, config.key);
    WipedSeries(store, config.key);
    if config.key in r.store.cursors {
      NoCheckpointNoRestore(config, r.store.cursors[config.key], bars);
    }
  }

  lemma WipeTwice(s: StoreState, key: SeriesKey)
    ensures Wipe(Wipe(s, key), key) == Wipe(s, key)
  {
  }

  lemma {:induction false} AfterCatchUp(
    config: LaneConfig, lane: LaneState, store: StoreState, history: seq<Bar>, bars: seq<Bar>, failing: set<nat>,
    faults: Faults)
    requires ValidConfig(config) && InStep(config, lane, store, history) && history != [] && SortedBy(BarTime, bars)
    requires !SeedConflicts(lane, bars) && CatchUp(config, lane, store, bars, failing, |bars|).error.None?
    ensures var r := CatchUp(config, lane, store, bars, failing, |bars|);
            SeedOrdered(config, r.lane, r.store, bars, faults) == Outcome(r.lane, r.store, None, Extended([]))
  {
    hide CatchUp, SeedConflicts, NoneBeyond, InStep, AllApplied, ValidConfig, SortedBy, Aligned;
    var r := CatchUp(config, lane, store, bars, failing, |bars|);
    assert bars[..|bars|] == bars;
    StepLast(config, lane, store, history);
    CatchUpReaches(config, lane, store, bars, failing, |bars|);
    CatchUpExtends(config, lane, store, history, bars, failing, |bars|);
    CatchUpApplies(config, lane, store, history, bars, failing, |bars|);
    StepHolds(config, lane, store, history);
    StepHolds(config, r.lane, r.store, history + r.effect.bars);
    StepLast(config, r.lane, r.store, history + r.effect.bars);
    HistoryTail(config.key, history, r.effect.bars);
    CaughtUpAgrees(config, lane, history, r.lane, r.effect.bars, bars);
    SeedIsNoop(config, r.lane, r.store, bars, faults);
  }

  lemma {:induction false} HistoryTail(key: SeriesKey, history: seq<Bar>, more: seq<Bar>)
    requires History(key, history + more)
    ensures forall i :: 0 <= i < |more| ==> more[i].closed
  {
    assert forall i :: 0 <= i < |more| ==> more[i] == (history + more)[|history| + i];
  }

  /** A running lane ignores a seed without closed candles. */
  lemma {:induction false} EmptySeedIsNoop(config: LaneConfig, lane: LaneState, store: StoreState, bars: seq<Bar>, faults: Faults)
    requires ValidConfig(config) && lane.lastBar.Some? && Latest(bars).None?
    ensures SeedOrdered(config, lane, store, bars, faults) == Outcome(lane, store, None, Extended([]))
  {
    hide Latest, MapsConflict, SeedOrdered, ValidConfig, FingerprintMap;
    LatestOfNone(bars);
    FilterNone(Overlapping(lane.lastBar.value.time), bars);
    SeedIsNoop(config, lane, store, bars, faults);
  }

  lemma {:induction false} SeedTwiceRunning(
    config: LaneConfig, lane: LaneState, store: StoreState, history: seq<Bar>, bars: seq<Bar>, faults: Faults,
    again: Faults)
    requires ValidConfig(config) && InStep(config, lane, store, history) && history != [] && lane.lastBar.Some? &&
             SortedBy(BarTime, bars)
    requires Sound(config, store) && SeedOrdered(config, lane, store, bars, faults).error.None?
    ensures var r := SeedOrdered(config, lane, store, bars, faults);
            SeedOrdered(config, r.lane, r.store, bars, again) == Outcome(r.lane, r.store, None, Extended([]))
  {
    hide CatchUp, RebuildStep, SeedConflicts, Sound, ValidConfig, InStep, Kept, BuildRun, Latest, NoneBeyond, SortedBy,
         RestoreStep, SnapshotsOf;
    if Latest(bars).None? {
      EmptySeedIsNoop(config, lane, store, bars, faults);
      EmptySeedIsNoop(config, lane, store, bars, again);
    } else if SeedConflicts(lane, bars) {
      RebuiltFrom(config, lane, store, bars, true, faults.rebuild);
      KeptReaches(config, bars);
      AfterRebuild(config, lane, store, bars, true, faults.rebuild, again);
    } else {
      var caught := CatchUp(config, lane, store, bars, faults.commits, |bars|);
      if caught.error.None? {
        AfterCatchUp(config, lane, store, history, bars, faults.commits, again);
      } else {
        CatchUpMoves(config, lane, store, bars, faults.commits, |bars|);
        RebuiltFrom(config, caught.lane, caught.store, bars, true, faults.rebuild);
        KeptReaches(config, bars);
        AfterRebuild(config, caught.lane, caught.store, bars, true, faults.rebuild, again);
      }
    }
  }

  lemma {:induction false} SeedTwiceStarting(
    config: LaneConfig, lane: LaneState, store: StoreState, bars: seq<Bar>, faults: Faults, again: Faults)
    requires ValidConfig(config) && lane.lastBar.None? && Sound(config, store)
    requires SeedOrdered(config, lane, store, bars, faults).error.None? &&
             SeedOrdered(config, lane, store, bars, faults).effect.Replaced?
    ensures var r := SeedOrdered(config, lane, store, bars, faults);
            var r2 := SeedOrdered(config, r.lane, r.store, bars, again);
            && r2.lane == r.lane && r2.store == r.store
            && (Latest(bars).Some? ==> r2 == Outcome(r.lane, r.store, None, Extended([])))
  {
    var reset := config.key in store.cursors;
    assert SeedOrdered(config, lane, store, bars, faults) == RebuildStep(config, lane, store, bars, reset, faults.rebuild) by {
      hide CatchUp, RebuildStep, SnapshotsOf, RestoreStep;
    }
    hide *;
    RebuiltFrom(config, lane, store, bars, reset, faults.rebuild);
    KeptReaches(config, bars);
    AfterRebuild(config, lane, store, bars, reset, faults.rebuild, again);
  }

  /** A seed repeated at once changes nothing, if the first call rebuilt or found the lane
      running; store failures during the repeat make no difference. */
  lemma {:induction false} SeedTwice(
    config: LaneConfig, sys: System, history: seq<Bar>, bars: seq<Bar>, faults: Faults, again: Faults)
    requires ValidConfig(config) && SystemInv(config, sys, history)
    requires SeedStep(config, sys.lane, sys.store, bars, faults).error.None?
    requires sys.lane.lastBar.Some? || SeedStep(config, sys.lane, sys.store, bars, faults).effect.Replaced?
    ensures var r := SeedStep(config, sys.lane, sys.store, bars, faults);
            var r2 := SeedStep(config, r.lane, r.store, bars, again);
            && r2.lane == r.lane && r2.store == r.store
            && (sys.lane.lastBar.Some? || Latest(Ordered(bars)).Some? ==> r2 == Outcome(r.lane, r.store, None, Extended([])))
  {
    hide SystemInv, Ordered, SortedBy, Sound, ValidConfig, InStep, Aligned, Latest, SeedOrdered, LaneFolds;
    OrderedIsSorted(bars);
    SystemIsAligned(config, sys, history);
    if sys.lane.lastBar.Some? {
      SeedTwiceRunning(config, sys.lane, sys.store, history, Ordered(bars), faults, again);
    } else {
      SeedTwiceStarting(config, sys.lane, sys.store, Ordered(bars), faults, again);
    }
  }

  // ---- Exactly when a repeat changes nothing -----------------------------

  /** Only a running lane accepts a seed whose latest closed candle has no open time. */
  lemma {:induction false} UndatedNeedsRunning(
    config: LaneConfig, lane: LaneState, store: StoreState, bars: seq<Bar>, faults: Faults)
    requires ValidConfig(config) && Sound(config, store) && SortedBy(BarTime, bars)
    requires Latest(bars).Some? && Latest(bars).value.time == 0
    requires SeedOrdered(config, lane, store, bars, faults).error.None?
    ensures lane.lastBar.Some?
  {
    hide RebuildStep, RestoreStep, CatchUp, SeedConflicts, LogInv, SnapshotsOf, ValidConfig, Latest, SortedBy, SeenAt,
         ValidBar, FingerprintOf;
    if lane.lastBar.None? {
      if config.key in store.cursors {
        var cursor := store.cursors[config.key];
        CursorIsDated(config, store);
        if RestoreStep(config, cursor, SnapshotsOf(store.snapshots, config.key), bars).Some? {
          RestoredStands(config, cursor, SnapshotsOf(store.snapshots, config.key), bars);
          CursorNotAfterLatest(bars, cursor.time);
        } else {
          RebuiltIsDated(config, lane, store, bars, true, faults.rebuild);
        }
      } else {
        RebuiltIsDated(config, lane, store, bars, false, faults.rebuild);
      }
    }
  }

  lemma CursorIsDated(config: LaneConfig, store: StoreState)
    requires Sound(config, store) && config.key in store.cursors
    ensures store.cursors[config.key].time != 0
  {
  }

  lemma {:induction false} RebuiltIsDated(
    config: LaneConfig, lane: LaneState, store: StoreState, bars: seq<Bar>, reset: bool, fail: bool)
    requires ValidConfig(config) && Sound(config, store) && Latest(bars).Some?
    ensures RebuildStep(config, lane, store, bars, reset, fail).error.None? ==> Latest(bars).value.time != 0
  {
    hide RebuildStep, LogInv, Latest, StoreFolds, LaneFolds, MarketOf, BuildRun, Kept, FingerprintOf;
    RebuildReplaces(config, lane, store, bars, reset, fail);
    if RebuildStep(config, lane, store, bars, reset, fail).error.None? {
      RebuiltFrom(config, lane, store, bars, reset, fail);
      KeptReaches(config, bars);
      assert ValidBar(config.key, Kept(bars)[|Kept(bars)| - 1]);
    }
  }

  /** A conflicting seed is never without effect. */
  lemma {:induction false} ConflictIsNoNoop(
    config: LaneConfig, lane: LaneState, store: StoreState, bars: seq<Bar>, faults: Faults)
    requires ValidConfig(config) && SeedConflicts(lane, bars)
    ensures SeedOrdered(config, lane, store, bars, faults) != Outcome(lane, store, None, Extended([]))
  {
    hide RebuildStep, MapsConflict, FingerprintMap, Filter, SeedFirst;
    RebuildFailsSafely(config, lane, store, bars, true, faults.rebuild);
  }

  /** A repeated seed changes nothing if and only if it does not conflict with the lane the first
      call left. */
  lemma {:induction false} SeedAgain(
    config: LaneConfig, sys: System, history: seq<Bar>, bars: seq<Bar>, faults: Faults, again: Faults)
    requires ValidConfig(config) && SystemInv(config, sys, history) && Latest(Ordered(bars)).Some?
    requires SeedStep(config, sys.lane, sys.store, bars, faults).error.None?
    ensures var r := SeedStep(config, sys.lane, sys.store, bars, faults);
            SeedStep(config, r.lane, r.store, bars, again) == Outcome(r.lane, r.store, None, Extended([])) <==>
              !SeedConflicts(r.lane, Ordered(bars))
  {
    hide SystemInv, Ordered, SortedBy, Sound, ValidConfig, InStep, Aligned, Latest, SeedOrdered, LaneFolds,
         SeedConflicts, NoneBeyond;
    var seed := Ordered(bars);
    var r := SeedOrdered(config, sys.lane, sys.store, seed, faults);
    OrderedIsSorted(bars);
    SystemIsAligned(config, sys, history);
    if SeedConflicts(r.lane, seed) {
      ConflictIsNoNoop(config, r.lane, r.store, seed, again);
    } else if Latest(seed).value.time != 0 {
      OrderedSeedStands(config, sys, history, seed, faults);
      SeedIsNoop(config, r.lane, r.store, seed, again);
    } else {
      UndatedNeedsRunning(config, sys.lane, sys.store, seed, faults);
      SeedTwiceRunning(config, sys.lane, sys.store, history, seed, faults, again);
    }
  }

  // ---- In terms of the durable history -----------------------------------

  /** Where a seed starts. */
  function SeedStart(bars: seq<Bar>): nat { SeedFirst(Filter(IsClosed, bars)) }

  /** Within the window and from the seed's start on, the seed holds the candles that restoring
      and catching up lead to. */
  ghost predicate SeedAgrees(store: StoreState, key: SeriesKey, history: seq<Bar>, bars: seq<Bar>)
    requires history != [] && 0 in SnapshotsOf(store.snapshots, key)
  {
    var all := WithSeed(store, key, history, bars);
    all != [] && Agree(ClosedMap(bars), FingerprintMap(all), WindowStart(all), SeedStart(bars))
  }

  lemma {:induction false} SeedStartIsFirst(lane: LaneState, bars: seq<Bar>)
    requires lane.lastBar.Some? && NoneBeyond(bars, lane.lastBar.value)
    ensures FirstSeedTime(lane, bars) == SeedStart(bars)
  {
    FilterAgrees(Overlapping(lane.lastBar.value.time), IsClosed, bars);
  }

  /** A restored lane that has caught up stands at the seed's end and folds the candles with the
      seed, whatever the seed holds. */
  lemma {:induction false} RestoredReaches(
    config: LaneConfig, store: StoreState, history: seq<Bar>, bars: seq<Bar>, failing: set<nat>)
    requires ValidConfig(config) && History(config.key, history) && StoreFolds(config, store, history)
    requires SortedBy(BarTime, bars) && Restores(config, store, history, bars) && Latest(bars).Some?
    ensures config.key in store.cursors && store.cursors[config.key] == history[|history| - 1]
    ensures RestoreStep(config, history[|history| - 1], SnapshotsOf(store.snapshots, config.key), bars).Some?
    ensures var restored := RestoreStep(config, history[|history| - 1], SnapshotsOf(store.snapshots, config.key), bars).value;
            var r := CatchUp(config, restored, store, bars, failing, |bars|);
            r.error.None? ==>
              && LaneFolds(config, r.lane, WithSeed(store, config.key, history, bars)) &&
                WithSeed(store, config.key, history, bars) != []
              && r.lane.lastBar.Some? && NoneBeyond(bars, r.lane.lastBar.value)
              && SeenAt(bars, history[|history| - 1].time)
  {
    hide RestoreStep, CatchUp, NoneBeyond, ValidConfig, SortedBy, StoreFolds, LaneFolds, SnapshotsOf, NewCandles,
         Latest, History, SeenAt, FingerprintOf, Covers, Rejoined;
    var cursor := history[|history| - 1];
    RestoredFolds(config, store, history, bars);
    var restored := RestoreStep(config, cursor, SnapshotsOf(store.snapshots, config.key), bars).value;
    var rejoined := Rejoined(store, config.key, history, bars);
    RestoredStands(config, cursor, SnapshotsOf(store.snapshots, config.key), bars);
    FoldsLast(config, restored, rejoined);
    CatchUpAppliesNew(config, restored, store, rejoined, bars, failing, |bars|);
    assert bars[..|bars|] == bars;
    CursorNotAfterLatest(bars, cursor.time);
    if CatchUp(config, restored, store, bars, failing, |bars|).error.None? {
      CaughtUp(config, restored, store, bars, failing);
    }
  }

  /** It conflicts with the seed exactly when the seed disagrees with those candles. */
  lemma {:induction false} RestoredConflicts(
    config: LaneConfig, store: StoreState, history: seq<Bar>, bars: seq<Bar>, failing: set<nat>)
    requires ValidConfig(config) && History(config.key, history) && StoreFolds(config, store, history)
    requires SortedBy(BarTime, bars) && Restores(config, store, history, bars) && Latest(bars).Some?
    ensures config.key in store.cursors
    ensures RestoreStep(config, store.cursors[config.key], SnapshotsOf(store.snapshots, config.key), bars).Some?
    ensures var restored := RestoreStep(config, store.cursors[config.key], SnapshotsOf(store.snapshots, config.key), bars).value;
            var r := CatchUp(config, restored, store, bars, failing, |bars|);
            r.error.None? ==> (SeedConflicts(r.lane, bars) <==> !SeedAgrees(store, config.key, history, bars))
  {
    hide RestoreStep, CatchUp, SeedConflicts, NoneBeyond, ValidConfig, SortedBy, StoreFolds, LaneFolds, SnapshotsOf,
         Agree, ClosedMap, FingerprintMap, WindowStart, SeedStart, NewCandles, Latest, SeedMap, FirstSeedTime, History,
         SeenAt, WithSeed, InOrder, Covers;
    RestoredReaches(config, store, history, bars, failing);
    var restored := RestoreStep(config, history[|history| - 1], SnapshotsOf(store.snapshots, config.key), bars).value;
    var r := CatchUp(config, restored, store, bars, failing, |bars|);
    if r.error.None? {
      var all := WithSeed(store, config.key, history, bars);
      WithSeedInOrder(config, store, history, bars);
      ConflictByHistory(config, r.lane, all, bars);
      SeedMapIsClosedMap(r.lane, bars);
      SeedStartIsFirst(r.lane, bars);
      CursorIsDatedIn(config, store, history);
      StartsDated(r.lane, bars, history[|history| - 1].time);
    }
  }

  lemma {:induction false} CursorIsDatedIn(config: LaneConfig, store: StoreState, history: seq<Bar>)
    requires StoreFolds(config, store, history) && config.key in store.cursors
    ensures store.cursors[config.key].time != 0
  {
    hide SeriesPoints, PointMap, CheckpointsFold;
  }

  /** A seed with a dated candle has a dated start. */
  lemma {:induction false} StartsDated(lane: LaneState, bars: seq<Bar>, time: nat)
    requires lane.lastBar.Some? && NoneBeyond(bars, lane.lastBar.value)
    requires SortedBy(BarTime, bars) && SeenAt(bars, time) && time != 0
    ensures FirstSeedTime(lane, bars) != 0
  {
    hide SortedBy, FirstSeedTime, SeedMap, FingerprintOf;
    var i :| 0 <= i < |bars| && bars[i].closed && bars[i].time == time;
    InSeedMap(lane, bars, bars[i]);
    SeedTimes(lane, bars, time);
  }

  /** Repeating a successful seed at once changes nothing if and only if the lane was running, or
      the seed is not restored from, or within the window it agrees with the committed candles up
      to the checkpoint followed by its own. All of it can be told before the first call, and
      nothing is asked of the seed. */
  lemma {:induction false} RepeatIsExact(
    config: LaneConfig, sys: System, history: seq<Bar>, bars: seq<Bar>, faults: Faults, again: Faults)
    requires ValidConfig(config) && SystemInv(config, sys, history)
    requires Latest(Ordered(bars)).Some? && SeedStep(config, sys.lane, sys.store, bars, faults).error.None?
    ensures var r := SeedStep(config, sys.lane, sys.store, bars, faults);
            SeedStep(config, r.lane, r.store, bars, again) == Outcome(r.lane, r.store, None, Extended([])) <==>
            || sys.lane.lastBar.Some?
            || !Restores(config, sys.store, history, Ordered(bars))
            || SeedAgrees(sys.store, config.key, history, Ordered(bars))
  {
    hide Ordered, SortedBy, ValidConfig, Latest, LaneFolds, SeedConflicts, StoreFolds, LogInv, History, SeedAgrees,
         Covers, SnapshotsOf, RestoreStep, RebuildStep, CatchUp;
    var seed, store := Ordered(bars), sys.store;
    OrderedIsSorted(bars);
    SeedAgain(config, sys, history, bars, faults, again);
    if sys.lane.lastBar.Some? {
      SeedTwice(config, sys, history, bars, faults, again);
    } else {
      RestoresExactly(config, store, history, seed);
      if Restores(config, store, history, seed) {
        RestoredConflicts(config, store, history, seed, faults.commits);
      } else {
        RebuildFailsSafely(config, sys.lane, store, seed, true, faults.rebuild);
        RebuildFailsSafely(config, sys.lane, store, seed, false, faults.rebuild);
        SeedTwice(config, sys, history, bars, faults, again);
      }
    }
  }
}
