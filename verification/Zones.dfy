/** Fair value gaps, order blocks, zone states and zone transitions
    (internal/indicator/market.go:130-230, internal/indicator/market_reducer.go:55-106). */
module Zones {
  import opened Model
  import opened Candles

  const GAP_LIMIT: nat := 8
  const BLOCK_LIMIT: nat := 6

  // ---- Fair value gaps ---------------------------------------------------

  function GradeOf(first: Bar, middle: Bar, last: Bar, gap: real): ZoneGrade {
    if gap >= 0.3 * Range(middle) || (SimpleMarubozu(first) && SimpleMarubozu(middle) && SimpleMarubozu(last))
    then Strong else Weak
  }

  function GapZone(side: Side, grade: ZoneGrade, time: nat, top: real, bottom: real): PriceZone {
    PriceZone(ZoneId(Gap, side, time, top, bottom), Gap, side, grade, time, 0, top, bottom, Unset)
  }

  /** The gap the three candles ending at `index` leave open, before any later candle.
      `toTime` and `state` are filled in later. */
  function GapAt(bars: seq<Bar>, index: nat): (r: Option<PriceZone>)
    requires 2 <= index < |bars|
    ensures r.Some? ==> r.value.kind == Gap && r.value.fromTime == bars[index].time && IsGapZone(r.value)
  {
    var first, middle, last := bars[index - 2], bars[index - 1], bars[index];
    var marubozu := SimpleMarubozu(first) || SimpleMarubozu(middle) || SimpleMarubozu(last);
    if last.low > first.high && marubozu then
      Some(GapZone(UpSide, GradeOf(first, middle, last, last.low - first.high), last.time, last.low, first.high))
    else if last.high < first.low && marubozu then
      Some(GapZone(DownSide, GradeOf(first, middle, last, first.low - last.high), last.time, first.low, last.high))
    else None
  }

  /** The identity of a gap is built from its own fields. */
  predicate IsGapZone(zone: PriceZone) {
    zone.kind == Gap && zone.id == ZoneId(Gap, zone.side, zone.fromTime, zone.top, zone.bottom)
  }

  /** A later candle fills a gap by reaching its far edge. */
  predicate FilledBy(zone: PriceZone, bar: Bar) {
    if zone.side == UpSide then bar.low <= zone.bottom else bar.high >= zone.top
  }

  predicate OpenAfter(bars: seq<Bar>, index: nat, zone: PriceZone) {
    forall later :: index < later < |bars| ==> !FilledBy(zone, bars[later])
  }

  function GapIfOpen(bars: seq<Bar>, index: nat): seq<PriceZone>
    requires 2 <= index < |bars|
  {
    var gap := GapAt(bars, index);
    if gap.Some? && OpenAfter(bars, index, gap.value) then [gap.value] else []
  }

  /** The gaps ending at candles `lo` up to `hi` that no later candle filled. */
  function OpenGaps(bars: seq<Bar>, lo: nat, hi: nat): seq<PriceZone>
    requires 2 <= lo && hi <= |bars|
    decreases hi
  {
    if hi <= lo then [] else OpenGaps(bars, lo, hi - 1) + GapIfOpen(bars, hi - 1)
  }

  function GapStart(n: nat, lookback: nat): (r: nat)
    ensures r >= 2
  {
    if n >= lookback + 2 then n - lookback else 2
  }

  /** Every open gap of the lookback, before the cap. */
  function AllGaps(bars: seq<Bar>, lookback: nat): seq<PriceZone> {
    OpenGaps(bars, GapStart(|bars|, lookback), |bars|)
  }

  function Stamp(zones: seq<PriceZone>, toTime: nat): (r: seq<PriceZone>)
    ensures |r| == |zones|
    ensures forall i :: 0 <= i < |zones| ==> r[i] == zones[i].(toTime := toTime)
  {
    seq(|zones|, i requires 0 <= i < |zones| => zones[i].(toTime := toTime))
  }

  function DetectGaps(bars: seq<Bar>, lookback: nat): seq<PriceZone> {
    if bars == [] then [] else Suffix(Stamp(AllGaps(bars, lookback), bars[|bars| - 1].time), GAP_LIMIT)
  }

  /** One round of the detection loop: the gap at `index`, unless a later candle filled it. */
  method GapWithScan(bars: seq<Bar>, index: nat) returns (out: seq<PriceZone>)
    requires 2 <= index < |bars|
    ensures out == Stamp(GapIfOpen(bars, index), bars[|bars| - 1].time)
  {
    hide GradeOf, SimpleMarubozu;
    var first, middle, last := bars[index - 2], bars[index - 1], bars[index];
    var marubozu := SimpleMarubozu(first) || SimpleMarubozu(middle) || SimpleMarubozu(last);
    var side, top, bottom, edge, gap := UpSide, last.low, first.high, first.high, last.low - first.high;
    if last.low > first.high && marubozu {
    } else if last.high < first.low && marubozu {
      side, top, bottom, edge, gap := DownSide, first.low, last.high, first.low, first.low - last.high;
    } else {
      return [];
    }
    ghost var zone := GapAt(bars, index).value;
    for later := index + 1 to |bars|
      invariant forall i :: index < i < later ==> !FilledBy(zone, bars[i])
    {
      if (side == UpSide && bars[later].low <= edge) || (side == DownSide && bars[later].high >= edge) {
        assert FilledBy(zone, bars[later]);
        return [];
      }
    }
    out := [PriceZone(ZoneId(Gap, side, last.time, top, bottom), Gap, side,
                      GradeOf(first, middle, last, gap), last.time, bars[|bars| - 1].time, top, bottom, Unset)];
  }

  method DetectFVG(bars: seq<Bar>, lookback: nat) returns (out: seq<PriceZone>)
    ensures out == DetectGaps(bars, lookback)
  {
    hide GapIfOpen;
    var start := GapStart(|bars|, lookback);
    out := [];
    if start < |bars| {
      for index := start to |bars|
        invariant out == Stamp(OpenGaps(bars, start, index), bars[|bars| - 1].time)
      {
        var found := GapWithScan(bars, index);
        out := out + found;
      }
    }
    assert bars != [] ==> out == Stamp(AllGaps(bars, lookback), bars[|bars| - 1].time);
    if |out| > 8 {
      out := out[|out| - 8..];
    }
  }

  // ---- Exactly the open gaps ---------------------------------------------

  /** Candle `i` leaves a gap to the candle two before it, one of the three is a marubozu, and no
      later candle has reached the far edge. */
  predicate IsOpenGap(bars: seq<Bar>, i: nat, z: PriceZone)
    requires 2 <= i < |bars|
  {
    var first, middle, last := bars[i - 2], bars[i - 1], bars[i];
    && (SimpleMarubozu(first) || SimpleMarubozu(middle) || SimpleMarubozu(last))
    && (if z.side == UpSide
        then && first.high < last.low && z.bottom == first.high && z.top == last.low
             && forall j :: i < j < |bars| ==> bars[j].low > first.high
        else && first.high >= last.low && last.high < first.low && z.bottom == last.high && z.top == first.low
             && forall j :: i < j < |bars| ==> bars[j].high < first.low)
    && z.kind == Gap && z.fromTime == last.time && z.id == ZoneId(Gap, z.side, last.time, z.top, z.bottom)
    && z.grade == (if 10.0 * (z.top - z.bottom) >= 3.0 * Range(middle)
                      || (SimpleMarubozu(first) && SimpleMarubozu(middle) && SimpleMarubozu(last)) then Strong else Weak)
    && z.toTime == 0 && z.state == Unset
  }

  lemma {:induction false} GapIfOpenIs(bars: seq<Bar>, i: nat, z: PriceZone)
    requires 2 <= i < |bars|
    ensures GapIfOpen(bars, i) == [z] <==> IsOpenGap(bars, i, z)
    ensures |GapIfOpen(bars, i)| <= 1
  {
    hide SimpleMarubozu, Range;
    var gap := GapAt(bars, i);
    if gap.Some? && gap.value == z {
      assert OpenAfter(bars, i, z) <==> if z.side == UpSide then forall j :: i < j < |bars| ==> bars[j].low > z.bottom
                                        else forall j :: i < j < |bars| ==> bars[j].high < z.top;
    }
  }

  /** The gaps and the candles that complete them: one for every candle from `lo` on that leaves
      an open gap, in order. */
  ghost predicate GapsAt(bars: seq<Bar>, lo: nat, hi: nat, gaps: seq<PriceZone>, at: seq<nat>)
    requires 2 <= lo && hi <= |bars|
  {
    && |at| == |gaps|
    && (forall k :: 0 <= k < |at| ==> lo <= at[k] < hi && IsOpenGap(bars, at[k], gaps[k]))
    && (forall j, k :: 0 <= j < k < |at| ==> at[j] < at[k])
    && (forall i, z :: lo <= i < hi && IsOpenGap(bars, i, z) ==> i in at)
  }

  lemma {:induction false} GapsAreExact(bars: seq<Bar>, lo: nat, hi: nat) returns (at: seq<nat>)
    requires 2 <= lo && hi <= |bars|
    ensures GapsAt(bars, lo, hi, OpenGaps(bars, lo, hi), at)
    decreases hi
  {
    hide GapIfOpen, IsOpenGap;
    if hi <= lo {
      at := [];
    } else {
      var i := hi - 1;
      var before := GapsAreExact(bars, lo, i);
      var found := GapIfOpen(bars, i);
      forall z ensures found == [z] <==> IsOpenGap(bars, i, z) {
        GapIfOpenIs(bars, i, z);
      }
      if found == [] {
        at := before;
        forall z ensures !IsOpenGap(bars, i, z) {
          assert [z] != found;
        }
      } else {
        GapIfOpenIs(bars, i, found[0]);
        at := before + [i];
        assert found == [found[0]];
        assert IsOpenGap(bars, i, found[0]);
      }
    }
  }

  // ---- Incremental maintenance -------------------------------------------

  lemma {:induction false} OpenGapsTimes(bars: seq<Bar>, lo: nat, hi: nat)
    requires 2 <= lo && hi <= |bars|
    ensures forall z :: z in OpenGaps(bars, lo, hi) ==>
              IsGapZone(z) && exists i :: lo <= i < hi && bars[i].time == z.fromTime
  {
    if hi > lo {
      hide GapAt;
      OpenGapsTimes(bars, lo, hi - 1);
      forall z | z in OpenGaps(bars, lo, hi)
        ensures IsGapZone(z) && exists i :: lo <= i < hi && bars[i].time == z.fromTime
      {
        if z in OpenGaps(bars, lo, hi - 1) {
          var i :| lo <= i < hi - 1 && bars[i].time == z.fromTime;
          assert lo <= i < hi;
        } else {
          assert bars[hi - 1].time == z.fromTime;
        }
      }
    }
  }

  /** Whether a gap is still reported once `bars` has grown by its last candle. */
  predicate Survives(zone: PriceZone, bars: seq<Bar>, lookback: nat) {
    var cutoff := GapStart(|bars|, lookback);
    && (cutoff < |bars| ==> zone.fromTime >= bars[cutoff].time)
    && (bars != [] ==> !FilledBy(zone, bars[|bars| - 1]))
  }

  function Surviving(bars: seq<Bar>, lookback: nat): PriceZone -> bool {
    zone => Survives(zone, bars, lookback)
  }

  lemma {:induction false} SurvivorsUpTo(bars: seq<Bar>, b: Bar, all: seq<Bar>, lookback: nat, hi: nat)
    requires all == bars + [b]
    requires 1 <= lookback && hi <= |bars| && StrictlyIncreasing(all)
    ensures OpenGaps(all, GapStart(|all|, lookback), hi) ==
            Filter(Surviving(all, lookback), OpenGaps(bars, GapStart(|bars|, lookback), hi))
  {
    var lo, cutoff := GapStart(|bars|, lookback), GapStart(|all|, lookback);
    if hi > lo {
      hide GapIfOpen, Surviving, Filter, StrictlyIncreasing, GapStart;
      SurvivorsUpTo(bars, b, all, lookback, hi - 1);
      FilterConcat(Surviving(all, lookback), OpenGaps(bars, lo, hi - 1), GapIfOpen(bars, hi - 1));
      SurvivorAt(bars, b, all, lookback, hi - 1);
      if cutoff <= hi - 1 {
        assert OpenGaps(all, cutoff, hi) == OpenGaps(all, cutoff, hi - 1) + GapIfOpen(all, hi - 1);
      } else {
        assert OpenGaps(all, cutoff, hi) == OpenGaps(all, cutoff, hi - 1) == [];
      }
    }
  }

  lemma {:induction false} SurvivorAt(bars: seq<Bar>, b: Bar, all: seq<Bar>, lookback: nat, index: nat)
    requires all == bars + [b]
    requires 1 <= lookback && 2 <= index < |bars| && StrictlyIncreasing(all)
    requires GapStart(|bars|, lookback) <= index
    ensures Filter(Surviving(all, lookback), GapIfOpen(bars, index)) ==
            if GapStart(|all|, lookback) <= index then GapIfOpen(all, index) else []
  {
    hide SimpleMarubozu, GradeOf, FilledBy;
    assert GapAt(all, index) == GapAt(bars, index) by {
      assert all[index - 2] == bars[index - 2] && all[index - 1] == bars[index - 1] && all[index] == bars[index];
    }
    var gap := GapAt(bars, index);
    if gap.Some? {
      assert OpenAfter(all, index, gap.value) <==> OpenAfter(bars, index, gap.value) && !FilledBy(gap.value, b) by {
        assert forall j :: index < j < |bars| ==> all[j] == bars[j];
        assert all[|bars|] == b;
      }
      var cutoff := GapStart(|all|, lookback);
      assert gap.value.fromTime == all[index].time;
      assert cutoff < |all| ==> (all[index].time >= all[cutoff].time <==> index >= cutoff);
    }
  }

  /** Recomputing the gaps after one more candle drops those it fills or ages out and
      appends at most the one it completes. */
  lemma {:induction false} GapsAreIncremental(bars: seq<Bar>, b: Bar, lookback: nat)
    requires 1 <= lookback && StrictlyIncreasing(bars + [b])
    ensures var all := bars + [b];
            AllGaps(all, lookback) ==
            Filter(Surviving(all, lookback), AllGaps(bars, lookback))
            + if |bars| >= 2 then GapIfOpen(all, |bars|) else []
  {
    hide GapIfOpen, Surviving;
    SurvivorsUpTo(bars, b, bars + [b], lookback, |bars|);
  }

  lemma {:induction false} OpenGapsShift(bars: seq<Bar>, d: nat, lo: nat, hi: nat)
    requires d <= |bars| && lo >= d + 2 && hi <= |bars| && d <= hi
    ensures OpenGaps(bars[d..], lo - d, hi - d) == OpenGaps(bars, lo, hi)
  {
    hide GapIfOpen;
    if hi > lo {
      OpenGapsShift(bars, d, lo, hi - 1);
      GapShift(bars, d, hi - 1);
    }
  }

  lemma {:induction false} GapShift(bars: seq<Bar>, d: nat, index: nat)
    requires d + 2 <= index < |bars|
    ensures GapIfOpen(bars[d..], index - d) == GapIfOpen(bars, index)
  {
    hide SimpleMarubozu, GradeOf, FilledBy;
    var tail := bars[d..];
    assert GapAt(tail, index - d) == GapAt(bars, index);
    var gap := GapAt(bars, index);
    if gap.Some? {
      assert forall j :: index < j < |bars| ==> bars[j] == tail[j - d];
      assert forall j :: index - d < j < |tail| ==> tail[j] == bars[j + d];
      assert OpenAfter(tail, index - d, gap.value) <==> OpenAfter(bars, index, gap.value);
    }
  }

  /** A window that covers the lookback sees the same gaps as the whole history. */
  lemma {:induction false} WindowSeesAllGaps(bars: seq<Bar>, window: nat, lookback: nat)
    requires window >= lookback + 2
    ensures AllGaps(Suffix(bars, window), lookback) == AllGaps(bars, lookback)
  {
    if |bars| > window {
      OpenGapsShift(bars, |bars| - window, |bars| - lookback, |bars|);
    }
  }

  // ---- Order blocks ------------------------------------------------------

  /** The first candle at or after a time. */
  function IndexAt(bars: seq<Bar>, time: nat): (r: nat)
    ensures r <= |bars|
    ensures forall j :: 0 <= j < r ==> bars[j].time < time
    ensures r < |bars| ==> bars[r].time >= time
  {
    if bars == [] || bars[0].time >= time then 0 else 1 + IndexAt(bars[1..], time)
  }

  /** A candle that closed against the side of a gap. */
  predicate Opposes(bar: Bar, side: Side) { (side == UpSide) != ClosesUp(bar) }

  /** The nearest of `left` candles down from `index` that closed against the gap. */
  function BlockIndex(bars: seq<Bar>, index: int, left: nat, side: Side): (r: Option<nat>)
    requires index < |bars|
    ensures r.Some? ==> r.value < |bars|
    decreases left
  {
    if index < 0 || left == 0 then None
    else if Opposes(bars[index], side) then Some(index)
    else BlockIndex(bars, index - 1, left - 1, side)
  }

  lemma {:induction false} SearchFindsNearest(bars: seq<Bar>, index: int, left: nat, side: Side)
    requires index < |bars|
    ensures match BlockIndex(bars, index, left, side)
            case Some(r) => index - left < r <= index && Opposes(bars[r], side) && forall j :: r < j <= index ==>
              !Opposes(bars[j], side)
            case None => forall j :: 0 <= j <= index && index - left < j ==> !Opposes(bars[j], side)
    decreases left
  {
    if index >= 0 && left > 0 && !Opposes(bars[index], side) {
      SearchFindsNearest(bars, index - 1, left - 1, side);
    }
  }

  function BlockOf(bars: seq<Bar>, gap: PriceZone): seq<PriceZone>
    requires bars != []
  {
    match BlockIndex(bars, IndexAt(bars, gap.fromTime) - 2, 4, gap.side)
    case None => []
    case Some(index) => [BlockAt(bars, index, gap)]
  }

  function BlockAt(bars: seq<Bar>, index: nat, gap: PriceZone): PriceZone
    requires index < |bars|
  {
    var bar := bars[index];
    PriceZone(ZoneId(OrderBlock, gap.side, bar.time, bar.high, bar.low), OrderBlock, gap.side, gap.grade,
              bar.time, bars[|bars| - 1].time, bar.high, bar.low, Unset)
  }

  /** The zone of candle `r` as the order block of a gap. */
  predicate IsBlock(bars: seq<Bar>, r: int, gap: PriceZone, z: PriceZone)
    requires 0 <= r < |bars|
  {
    && z.top == bars[r].high && z.bottom == bars[r].low && z.fromTime == bars[r].time && z.toTime == bars[|bars| - 1].time
    && z.kind == OrderBlock && z.side == gap.side && z.grade == gap.grade && z.state == Unset
    && z.id == ZoneId(OrderBlock, gap.side, bars[r].time, bars[r].high, bars[r].low)
  }

  /** The nearest of the four candles two and more before `at` that closed against the side. */
  predicate IsNearestAgainst(bars: seq<Bar>, at: nat, side: Side, r: int)
    requires at < |bars|
  {
    && 0 <= r && at - 6 < r <= at - 2
    && (if side == UpSide then bars[r].close < bars[r].open else bars[r].close >= bars[r].open)
    && forall j :: r < j <= at - 2 ==> if side == UpSide then bars[j].close >= bars[j].open else bars[j].close < bars[j].open
  }

  /** The order block of a gap whose last candle is at `at` is that candle's zone; there is none
      exactly when there is no such candle. */
  lemma {:induction false} BlockIsNearest(bars: seq<Bar>, gap: PriceZone, at: nat)
    requires at < |bars| && bars[at].time == gap.fromTime && StrictlyIncreasing(bars)
    ensures |BlockOf(bars, gap)| <= 1
    ensures BlockOf(bars, gap) == [] <==> forall r :: !IsNearestAgainst(bars, at, gap.side, r)
    ensures forall r :: IsNearestAgainst(bars, at, gap.side, r) ==>
              |BlockOf(bars, gap)| == 1 && IsBlock(bars, r, gap, BlockOf(bars, gap)[0])
  {
    assert IndexAt(bars, gap.fromTime) == at;
    SearchFindsNearest(bars, at - 2, 4, gap.side);
    hide IndexAt, BlockIndex;
    match BlockIndex(bars, at - 2, 4, gap.side)
    case None =>
    case Some(r) =>
      assert IsNearestAgainst(bars, at, gap.side, r);
      forall q | IsNearestAgainst(bars, at, gap.side, q) ensures q == r {
      }
  }

  function AllBlocks(bars: seq<Bar>, gaps: seq<PriceZone>): (r: seq<PriceZone>)
    requires bars != []
    ensures forall z :: z in r ==> z.id.kind == OrderBlock
  {
    if gaps == [] then [] else AllBlocks(bars, gaps[..|gaps| - 1]) + BlockOf(bars, gaps[|gaps| - 1])
  }

  /** Blocks and the gaps they belong to: one for each of the first `n` gaps that has one, in order. */
  ghost predicate BlocksOf(bars: seq<Bar>, gaps: seq<PriceZone>, n: nat, blocks: seq<PriceZone>, of: seq<nat>)
    requires bars != [] && n <= |gaps|
  {
    && |of| == |blocks|
    && (forall i :: 0 <= i < |of| ==> of[i] < n && BlockOf(bars, gaps[of[i]]) == [blocks[i]])
    && (forall i, j :: 0 <= i < j < |of| ==> of[i] < of[j])
    && (forall k :: 0 <= k < n && BlockOf(bars, gaps[k]) != [] ==> k in of)
  }

  /** Gap by gap, in order: the blocks are those of the gaps that have one. */
  lemma {:induction false} BlocksFollowGaps(bars: seq<Bar>, gaps: seq<PriceZone>, n: nat) returns (of: seq<nat>)
    requires bars != [] && n <= |gaps|
    ensures BlocksOf(bars, gaps, n, AllBlocks(bars, gaps[..n]), of)
  {
    hide BlockOf;
    if n == 0 {
      of := [];
      assert gaps[..0] == [];
    } else {
      var before := BlocksFollowGaps(bars, gaps, n - 1);
      assert gaps[..n][..n - 1] == gaps[..n - 1];
      BlockAtMostOne(bars, gaps[n - 1]);
      of := if BlockOf(bars, gaps[n - 1]) == [] then before else before + [n - 1];
      BlocksPush(bars, gaps, n, AllBlocks(bars, gaps[..n - 1]), before, of);
    }
  }

  lemma {:induction false} BlocksPush(
    bars: seq<Bar>, gaps: seq<PriceZone>, n: nat, blocks: seq<PriceZone>, before: seq<nat>, of: seq<nat>)
    requires bars != [] && 0 < n <= |gaps| && BlocksOf(bars, gaps, n - 1, blocks, before) && |BlockOf(bars, gaps[n - 1])| <= 1
    requires of == if BlockOf(bars, gaps[n - 1]) == [] then before else before + [n - 1]
    ensures BlocksOf(bars, gaps, n, blocks + BlockOf(bars, gaps[n - 1]), of)
  {
    hide BlockOf;
    var last := BlockOf(bars, gaps[n - 1]);
    if last == [] {
      assert blocks + last == blocks;
    } else {
      assert last == [last[0]];
      assert of[|before|] == n - 1;
    }
  }

  lemma {:induction false} BlockAtMostOne(bars: seq<Bar>, gap: PriceZone)
    requires bars != []
    ensures |BlockOf(bars, gap)| <= 1
  {
    hide BlockIndex, IndexAt;
  }

  function DetectBlocks(bars: seq<Bar>, gaps: seq<PriceZone>): seq<PriceZone> {
    if bars == [] then [] else Suffix(AllBlocks(bars, gaps), BLOCK_LIMIT)
  }

  method DetectOrderBlocks(bars: seq<Bar>, gaps: seq<PriceZone>) returns (out: seq<PriceZone>)
    requires bars != []
    ensures out == DetectBlocks(bars, gaps)
  {
    out := [];
    for i := 0 to |gaps|
      invariant out == AllBlocks(bars, gaps[..i])
    {
      var gap := gaps[i];
      var index, searched := IndexAt(bars, gap.fromTime) - 2, 0;
      ghost var target := BlockIndex(bars, index, 4, gap.side);
      ghost var before := out;
      assert before + [] == before;
      while index >= 0 && searched < 4
        invariant index < |bars| && searched <= 4
        invariant out == before
        invariant BlockIndex(bars, index, 4 - searched, gap.side) == target
        decreases 4 - searched
      {
        var bar := bars[index];
        if (gap.side == UpSide && !ClosesUp(bar)) || (gap.side == DownSide && ClosesUp(bar)) {
          out := out + [BlockAt(bars, index, gap)];
          break;
        }
        index, searched := index - 1, searched + 1;
      }
      assert out == before + BlockOf(bars, gap);
      assert gaps[..i + 1][..i] == gaps[..i];
    }
    assert gaps[..|gaps|] == gaps;
    if |out| > 6 {
      out := out[|out| - 6..];
    }
  }

  // ---- Zone states -------------------------------------------------------

  predicate Intersects(bar: Bar, zone: PriceZone) {
    bar.high >= zone.bottom && bar.low <= zone.top && bar.time > zone.fromTime
  }

  predicate TouchedBy(bars: seq<Bar>, zone: PriceZone) {
    exists i :: 0 <= i < |bars| && Intersects(bars[i], zone)
  }

  function Annotate(bars: seq<Bar>, zones: seq<PriceZone>): (r: seq<PriceZone>)
    ensures |r| == |zones|
    ensures forall i :: 0 <= i < |zones| ==>
      r[i] == zones[i].(state := if TouchedBy(bars, zones[i]) then Touched else Active)
  {
    seq(|zones|, i requires 0 <= i < |zones| =>
          zones[i].(state := if TouchedBy(bars, zones[i]) then Touched else Active))
  }

  /** Marks each zone in place. */
  method AnnotateZoneStates(bars: seq<Bar>, zones: array<PriceZone>)
    modifies zones
    ensures zones[..] == Annotate(bars, old(zones[..]))
  {
    for index := 0 to zones.Length
      invariant forall i :: 0 <= i < index ==> zones[i] == Annotate(bars, old(zones[..]))[i]
      invariant forall i :: index <= i < zones.Length ==> zones[i] == old(zones[i])
    {
      zones[index] := zones[index].(state := Active);
      var current := 0;
      while current < |bars|
        invariant 0 <= current <= |bars|
        invariant zones[index] == old(zones[index]).(state := Active)
        invariant forall i :: 0 <= i < index ==> zones[i] == Annotate(bars, old(zones[..]))[i]
        invariant forall i :: index < i < zones.Length ==> zones[i] == old(zones[i])
        invariant forall i :: 0 <= i < current ==> !Intersects(bars[i], old(zones[index]))
      {
        if Intersects(bars[current], zones[index]) {
          zones[index] := zones[index].(state := Touched);
          break;
        }
        current := current + 1;
      }
    }
  }

  // ---- Zone transitions --------------------------------------------------

  datatype Lifecycle = Created | NowTouched | Mitigated | Invalidated | Expired

  datatype ZoneTransition = ZoneTransition(zone: PriceZone, transition: Lifecycle, at: nat)

  /** Zones by identity; of two with the same identity the later one counts. */
  function ById(zones: seq<PriceZone>): (r: map<ZoneId, PriceZone>)
    ensures forall id :: id in r ==> r[id].id == id && r[id] in zones
    ensures forall i :: 0 <= i < |zones| ==> zones[i].id in r
  {
    if zones == [] then map[]
    else
      var rest := ById(zones[..|zones| - 1]);
      var z := zones[|zones| - 1];
      rest[z.id := z]
  }

  /** What a zone of the new state reports. */
  function Appearance(before: map<ZoneId, PriceZone>, zone: PriceZone, at: nat): seq<ZoneTransition> {
    if zone.id !in before then [ZoneTransition(zone, Created, at)]
    else if before[zone.id].state != Touched && zone.state == Touched then [ZoneTransition(zone, NowTouched, at)]
    else []
  }

  function Appearances(before: map<ZoneId, PriceZone>, zones: seq<PriceZone>, at: nat): seq<ZoneTransition> {
    if zones == [] then []
    else Appearances(before, zones[..|zones| - 1], at) + Appearance(before, zones[|zones| - 1], at)
  }

  /** What a zone missing from the new state reports. */
  function Ending(zone: PriceZone, bar: Bar): seq<ZoneTransition> {
    if !Intersects(bar, zone) then [ZoneTransition(zone, Expired, bar.time)]
    else
      var broken := zone.kind == OrderBlock &&
                    if zone.side == UpSide then bar.close < zone.bottom else bar.close > zone.top;
      (if zone.state != Touched then [ZoneTransition(zone, NowTouched, bar.time)] else [])
      + [ZoneTransition(zone, if broken then Invalidated else Mitigated, bar.time)]
  }

  /** How a zone ends: out of the candle's reach it expires; reached, it is invalidated if it is an
      order block the candle closed through, and mitigated otherwise, touched first if it was not. */
  lemma {:induction false} EndingMeans(zone: PriceZone, bar: Bar)
    ensures var reached := bar.low <= zone.top && zone.bottom <= bar.high && zone.fromTime < bar.time;
            var through := zone.kind == OrderBlock
                           && (|| (zone.side == UpSide && bar.close < zone.bottom)
                               || (zone.side == DownSide && zone.top < bar.close));
            var ending := Ending(zone, bar);
            && (!reached ==> ending == [ZoneTransition(zone, Expired, bar.time)])
            && (reached ==> ending[|ending| - 1] == ZoneTransition(zone, if through then Invalidated else Mitigated, bar.time))
            && (reached && zone.state == Touched ==> |ending| == 1)
            && (reached && zone.state != Touched ==> |ending| == 2 && ending[0] == ZoneTransition(zone, NowTouched, bar.time))
  {
  }

  /** What a zone of the new state says: created if its identity is new, touched if it was not
      touched and now is, nothing otherwise. */
  lemma {:induction false} AppearanceMeans(before: map<ZoneId, PriceZone>, zone: PriceZone, at: nat)
    ensures var unseen := zone.id !in before;
            var turned := zone.id in before && before[zone.id].state != Touched && zone.state == Touched;
            && (unseen ==> Appearance(before, zone, at) == [ZoneTransition(zone, Created, at)])
            && (turned ==> Appearance(before, zone, at) == [ZoneTransition(zone, NowTouched, at)])
            && (!unseen && !turned ==> Appearance(before, zone, at) == [])
  {
  }

  /** The transitions of one zone identity between two states. */
  function TransitionsFor(previous: seq<PriceZone>, current: seq<PriceZone>, bar: Bar, id: ZoneId): seq<ZoneTransition> {
    var before := ById(previous);
    if id in ById(current) then Appearances(before, Filter((z: PriceZone) => z.id == id, current), bar.time)
    else if id in before then Ending(before[id], bar)
    else []
  }

  function OfZone(out: seq<ZoneTransition>, id: ZoneId): seq<ZoneTransition> {
    Filter((t: ZoneTransition) => t.zone.id == id, out)
  }

  lemma {:induction false} OfZoneConcat(a: seq<ZoneTransition>, b: seq<ZoneTransition>, id: ZoneId)
    ensures OfZone(a + b, id) == OfZone(a, id) + OfZone(b, id)
  {
    FilterConcat((t: ZoneTransition) => t.zone.id == id, a, b);
  }

  lemma {:induction false} OfZoneUniform(a: seq<ZoneTransition>, owner: ZoneId, id: ZoneId)
    requires forall t :: t in a ==> t.zone.id == owner
    ensures OfZone(a, id) == if owner == id then a else []
  {
    if owner == id {
      FilterAll((t: ZoneTransition) => t.zone.id == id, a);
    } else {
      FilterNone((t: ZoneTransition) => t.zone.id == id, a);
    }
  }

  lemma {:induction false} AppearancesOfZone(before: map<ZoneId, PriceZone>, zones: seq<PriceZone>, at: nat, id: ZoneId)
    ensures OfZone(Appearances(before, zones, at), id) ==
            Appearances(before, Filter((z: PriceZone) => z.id == id, zones), at)
  {
    hide OfZone, Appearance;
    if zones == [] {
      NothingOfZone(id);
    } else {
      var rest, z := zones[..|zones| - 1], zones[|zones| - 1];
      AppearancesOfZone(before, rest, at, id);
      OfZoneConcat(Appearances(before, rest, at), Appearance(before, z, at), id);
      AppearanceOwner(before, z, at);
      OfZoneUniform(Appearance(before, z, at), z.id, id);
      var mine := Filter((y: PriceZone) => y.id == id, rest);
      if z.id == id {
        assert (mine + [z])[..|mine|] == mine;
      }
    }
  }

  lemma NothingOfZone(id: ZoneId)
    ensures OfZone([], id) == []
  {
  }

  lemma AppearanceOwner(before: map<ZoneId, PriceZone>, zone: PriceZone, at: nat)
    ensures forall t :: t in Appearance(before, zone, at) ==> t.zone.id == zone.id
  {
  }

  method AppearOne(before: map<ZoneId, PriceZone>, zone: PriceZone, at: nat) returns (out: seq<ZoneTransition>)
    ensures out == Appearance(before, zone, at)
  {
    if zone.id !in before {
      return [ZoneTransition(zone, Created, at)];
    }
    if before[zone.id].state != Touched && zone.state == Touched {
      return [ZoneTransition(zone, NowTouched, at)];
    }
    return [];
  }

  method Appearing(before: map<ZoneId, PriceZone>, current: seq<PriceZone>, at: nat) returns (out: seq<ZoneTransition>)
    ensures out == Appearances(before, current, at)
  {
    hide Appearance;
    out := [];
    for i := 0 to |current|
      invariant out == Appearances(before, current[..i], at)
    {
      assert current[..i + 1][..i] == current[..i];
      var found := AppearOne(before, current[i], at);
      out := out + found;
    }
    assert current[..|current|] == current;
  }

  method EndOne(zone: PriceZone, bar: Bar) returns (out: seq<ZoneTransition>)
    ensures out == Ending(zone, bar)
  {
    if !Intersects(bar, zone) {
      return [ZoneTransition(zone, Expired, bar.time)];
    }
    out := [];
    if zone.state != Touched {
      out := [ZoneTransition(zone, NowTouched, bar.time)];
    }
    var transition := Mitigated;
    if zone.kind == OrderBlock && ((zone.side == UpSide && bar.close < zone.bottom) ||
      (zone.side == DownSide && bar.close > zone.top)) {
      transition := Invalidated;
    }
    out := out + [ZoneTransition(zone, transition, bar.time)];
  }

  /** The endings due to one zone: its own when it vanished, none otherwise. */
  function EndingIf(before: map<ZoneId, PriceZone>, ended: set<ZoneId>, bar: Bar, id: ZoneId): seq<ZoneTransition> {
    if id in before && id in ended then Ending(before[id], bar) else []
  }

  /** Visits the vanished zones in any order. */
  method Vanishing(before: map<ZoneId, PriceZone>, after: map<ZoneId, PriceZone>, bar: Bar) returns (out: seq<ZoneTransition>)
    requires forall id :: id in before ==> before[id].id == id
    ensures forall id :: OfZone(out, id) == EndingIf(before, before.Keys - after.Keys, bar, id)
  {
    hide OfZone, Ending;
    out := [];
    var rest := before.Keys;
    forall id ensures OfZone(out, id) == [] {
      OfZoneUniform([], id, id);
    }
    while rest != {}
      invariant rest <= before.Keys
      invariant forall id :: OfZone(out, id) == EndingIf(before, before.Keys - after.Keys - rest, bar, id)
      decreases rest
    {
      var id :| id in rest;
      if id !in after {
        var ending := EndOne(before[id], bar);
        EndingOwner(before[id], bar);
        forall other ensures OfZone(out + ending, other) == OfZone(out, other) + if other == id then ending else [] {
          OfZoneConcat(out, ending, other);
          OfZoneUniform(ending, id, other);
        }
        out := out + ending;
      }
      rest := rest - {id};
    }
  }

  lemma EndingOwner(zone: PriceZone, bar: Bar)
    ensures forall t :: t in Ending(zone, bar) ==> t.zone.id == zone.id
  {
  }

  /** Compares two states. The order in which vanished zones are visited is arbitrary;
      for every zone its own transitions come out in a fixed order. */
  method ZoneTransitions(previous: seq<PriceZone>, current: seq<PriceZone>, bar: Bar) returns (out: seq<ZoneTransition>)
    ensures forall id :: OfZone(out, id) == TransitionsFor(previous, current, bar, id)
  {
    hide OfZone, Filter, Ending;
    var before := BuildIndex(previous);
    var after := BuildIndex(current);
    var appearing := Appearing(before, current, bar.time);
    var ended := Vanishing(before, after, bar);
    out := appearing + ended;
    forall id ensures OfZone(out, id) == TransitionsFor(previous, current, bar, id) {
      OfZoneConcat(appearing, ended, id);
      AppearancesOfZone(before, current, bar.time, id);
      if id !in after {
        NoneAppear(before, current, bar.time, id);
      }
    }
  }

  lemma {:induction false} NoneAppear(before: map<ZoneId, PriceZone>, zones: seq<PriceZone>, at: nat, id: ZoneId)
    requires id !in ById(zones)
    ensures OfZone(Appearances(before, zones, at), id) == []
  {
    AppearancesOfZone(before, zones, at, id);
    FilterNone((z: PriceZone) => z.id == id, zones);
  }

  method BuildIndex(zones: seq<PriceZone>) returns (index: map<ZoneId, PriceZone>)
    ensures index == ById(zones)
  {
    index := map[];
    for i := 0 to |zones|
      invariant index == ById(zones[..i])
    {
      assert zones[..i + 1][..i] == zones[..i];
      index := index[zones[i].id := zones[i]];
    }
    assert zones[..|zones|] == zones;
  }
}
