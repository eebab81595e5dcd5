/** Exactly when an authoritative seed conflicts with a running lane
    (internal/engine/lane.go:230-277). */
module Conflicts {
  import opened Model
  import opened Sorting
  import opened Market
  import opened Lane
  import opened Fold

  lemma {:induction false} FingerprintKeys(bars: seq<Bar>, t: nat)
    ensures t in FingerprintMap(bars) <==> exists i :: 0 <= i < |bars| && bars[i].time == t
  {
    if bars != [] {
      var rest := bars[..|bars| - 1];
      FingerprintKeys(rest, t);
      if t in FingerprintMap(rest) {
        var i :| 0 <= i < |rest| && rest[i].time == t;
        assert bars[i].time == t;
      } else if t != bars[|bars| - 1].time {
        forall i | 0 <= i < |bars| ensures bars[i].time != t {
          if i < |rest| {
            assert rest[i] == bars[i];
          }
        }
      }
    }
  }

  lemma {:induction false} FingerprintValue(bars: seq<Bar>, i: nat)
    requires i < |bars|
    requires forall j :: i < j < |bars| ==> bars[j].time != bars[i].time
    ensures bars[i].time in FingerprintMap(bars) && FingerprintMap(bars)[bars[i].time] == FingerprintOf(bars[i])
  {
    if i < |bars| - 1 {
      FingerprintValue(bars[..|bars| - 1], i);
      assert bars[|bars| - 1].time != bars[i].time;
    }
  }

  /** Among candles in time order the first seed time is the least time that is not zero. */
  lemma {:induction false} SeedFirstIsLeast(bars: seq<Bar>)
    requires SortedBy(BarTime, bars)
    ensures forall i :: 0 <= i < |bars| && bars[i].time != 0 ==> 0 != SeedFirst(bars) <= bars[i].time
    ensures SeedFirst(bars) != 0 ==> exists i :: 0 <= i < |bars| && bars[i].time == SeedFirst(bars)
  {
    if bars != [] {
      var rest, bar := bars[..|bars| - 1], bars[|bars| - 1];
      SeedFirstIsLeast(rest);
      if SeedFirst(rest) != 0 {
        var i :| 0 <= i < |rest| && rest[i].time == SeedFirst(rest);
        assert BarTime(bars[i]) <= BarTime(bar);
        assert bars[i].time == SeedFirst(bars);
      } else {
        assert SeedFirst(bars) == bar.time;
        assert forall i :: 0 <= i < |rest| ==> rest[i].time == 0;
        assert bars[|rest|].time == bar.time;
      }
    }
  }

  /** The part of a time-to-digest map from a time on. */
  function From(m: map<nat, Fingerprint>, t: nat): map<nat, Fingerprint> {
    map x | x in m && x >= t :: m[x]
  }

  /** The seed's candles up to the lane's cursor. */
  function SeedMap(lane: LaneState, bars: seq<Bar>): map<nat, Fingerprint>
    requires lane.lastBar.Some?
  {
    FingerprintMap(Filter(Overlapping(lane.lastBar.value.time), bars))
  }

  function FirstSeedTime(lane: LaneState, bars: seq<Bar>): nat
    requires lane.lastBar.Some?
  {
    SeedFirst(Filter(Overlapping(lane.lastBar.value.time), bars))
  }

  lemma {:induction false} SeedTimes(lane: LaneState, bars: seq<Bar>, t: nat)
    requires lane.lastBar.Some? && SortedBy(BarTime, bars)
    ensures t in SeedMap(lane, bars) && t != 0 ==> 0 != FirstSeedTime(lane, bars) <= t
    ensures t in SeedMap(lane, bars) ==> t <= lane.lastBar.value.time
  {
    var overlap := Filter(Overlapping(lane.lastBar.value.time), bars);
    FilterSorted(BarTime, Overlapping(lane.lastBar.value.time), bars);
    SeedFirstIsLeast(overlap);
    FingerprintKeys(overlap, t);
    if t in SeedMap(lane, bars) {
      var i :| 0 <= i < |overlap| && overlap[i].time == t;
      FilterMember(Overlapping(lane.lastBar.value.time), bars, overlap[i]);
    }
  }

  /** Dated candles in time order, repeats allowed. */
  ghost predicate InOrder(bars: seq<Bar>) {
    SortedBy(BarTime, bars) && forall i :: 0 <= i < |bars| ==> bars[i].time > 0
  }

  lemma {:induction false} HistorySorted(key: SeriesKey, history: seq<Bar>)
    requires History(key, history)
    ensures SortedBy(BarTime, history) && InOrder(history)
  {
    forall i, j | 0 <= i < j < |history| ensures BarTime(history[i]) <= BarTime(history[j]) {
      assert history[i].time < history[j].time;
    }
  }

  /** The lane's window as a map: every candle lies between its first and the cursor. */
  lemma {:induction false} LocalTimes(config: LaneConfig, lane: LaneState, history: seq<Bar>, t: nat)
    requires LaneFolds(config, lane, history) && InOrder(history) && history != []
    ensures lane.market.bars != [] && lane.lastBar.Some? && lane.market.bars[0].time > 0
    ensures t in FingerprintMap(lane.market.bars) ==> lane.market.bars[0].time <= t <= lane.lastBar.value.time
  {
    hide ReducersOf, Evaluate;
    var local := lane.market.bars;
    FingerprintKeys(local, t);
    assert local[|local| - 1] == history[|history| - 1];
    if t in FingerprintMap(local) {
      var i :| 0 <= i < |local| && local[i].time == t;
      var d := |history| - |local|;
      assert local[0] == history[d] && local[i] == history[d + i];
      assert BarTime(history[d]) <= BarTime(history[d + i]) || i == 0;
      assert BarTime(history[d + i]) <= BarTime(history[|history| - 1]) || d + i == |history| - 1;
    }
  }

  ghost predicate Clash(seed: map<nat, Fingerprint>, local: map<nat, Fingerprint>, first: nat, localFirst: nat) {
    || (exists t :: t in seed && if t in local then local[t] != seed[t] else t >= localFirst)
    || (exists t :: t in local && first <= t && t !in seed)
  }

  /** Conflict detection over the maps alone. */
  lemma {:induction false} ConflictIsClash(config: LaneConfig, lane: LaneState, history: seq<Bar>, bars: seq<Bar>)
    requires LaneFolds(config, lane, history) && InOrder(history) && history != []
    ensures lane.lastBar.Some? && lane.market.bars != []
    ensures SeedConflicts(lane, bars) <==>
            && FirstSeedTime(lane, bars) != 0
            && Clash(SeedMap(lane, bars), FingerprintMap(lane.market.bars), FirstSeedTime(lane, bars), lane.market.bars[0].time)
  {
    hide FingerprintMap, Filter, SeedFirst, LaneFolds, MapsConflict, Clash;
    LocalTimes(config, lane, history, 0);
    var local := lane.market.bars;
    forall t: nat
      ensures t in FingerprintMap(local) ==> t <= lane.lastBar.value.time
      ensures t in FingerprintMap(local) <==> exists i :: 0 <= i < |local| && local[i].time == t
    {
      LocalTimes(config, lane, history, t);
      FingerprintKeys(local, t);
    }
    MapsClash(SeedMap(lane, bars), FingerprintMap(local), local, FirstSeedTime(lane, bars), lane.lastBar.value.time);
  }

  lemma {:induction false} MapsClash(
    seed: map<nat, Fingerprint>, local: map<nat, Fingerprint>, localBars: seq<Bar>, first: nat, cursorTime: nat)
    requires localBars != [] && forall t :: t in local ==> t <= cursorTime
    requires forall t: nat :: t in local <==> exists i :: 0 <= i < |localBars| && localBars[i].time == t
    ensures MapsConflict(seed, local, localBars, first, cursorTime) <==> Clash(seed, local, first, localBars[0].time)
  {
    if t :| t in local && first <= t && t !in seed {
      var i :| 0 <= i < |localBars| && localBars[i].time == t;
      assert first <= localBars[i].time <= cursorTime && localBars[i].time !in seed;
    }
    if i :| 0 <= i < |localBars| && first <= localBars[i].time <= cursorTime && localBars[i].time !in seed {
      assert localBars[i].time in local;
    }
  }

  /** With overlap present there is no conflict exactly when the seed from the first local
      candle and the local history from the first seed candle are the same map. */
  lemma {:induction false} ConflictIsExact(config: LaneConfig, lane: LaneState, history: seq<Bar>, bars: seq<Bar>)
    requires LaneFolds(config, lane, history) && InOrder(history) && history != []
    requires SortedBy(BarTime, bars)
    ensures lane.lastBar.Some? && lane.market.bars != []
    ensures FirstSeedTime(lane, bars) == 0 ==> !SeedConflicts(lane, bars)
    ensures FirstSeedTime(lane, bars) != 0 ==>
              (!SeedConflicts(lane, bars) <==>
               From(SeedMap(lane, bars), lane.market.bars[0].time) ==
                 From(FingerprintMap(lane.market.bars), FirstSeedTime(lane, bars)))
  {
    hide LaneFolds, SeedConflicts, FingerprintMap, SeedMap, FirstSeedTime;
    ConflictIsClash(config, lane, history, bars);
    LocalTimes(config, lane, history, 0);
    forall t: nat
      ensures t in SeedMap(lane, bars) && t != 0 ==> 0 != FirstSeedTime(lane, bars) <= t
      ensures t in FingerprintMap(lane.market.bars) ==> lane.market.bars[0].time <= t
    {
      SeedTimes(lane, bars, t);
      LocalTimes(config, lane, history, t);
    }
    ClashIsExact(SeedMap(lane, bars), FingerprintMap(lane.market.bars), FirstSeedTime(lane, bars), lane.market.bars[0].time);
  }

  lemma {:induction false} ClashIsExact(seed: map<nat, Fingerprint>, local: map<nat, Fingerprint>, first: nat, localFirst: nat)
    requires localFirst > 0
    requires forall t :: t in seed && t != 0 ==> first <= t
    requires forall t :: t in local ==> localFirst <= t
    ensures !Clash(seed, local, first, localFirst) <==> From(seed, localFirst) == From(local, first)
  {
    var a, b := From(seed, localFirst), From(local, first);
    if !Clash(seed, local, first, localFirst) {
      assert forall t :: t in seed ==> if t in local then local[t] == seed[t] else t < localFirst;
      assert forall t :: t in local && first <= t ==> t in seed;
      assert forall t :: t in a <==> t in b;
      assert a == b;
    }
    if a == b {
      forall t | t in seed ensures if t in local then local[t] == seed[t] else t < localFirst {
        if t >= localFirst {
          assert t in a && t in b && a[t] == b[t];
        }
      }
      forall t | t in local && first <= t ensures t in seed {
        assert t in b && t in a;
      }
    }
  }
}
