/** What the market view of a candle list is, over candles alone
    (internal/indicator/market.go:85-230, 352-480, 573-634). */
module Views {
  import opened Model
  import opened Candles
  import opened Zigzag
  import opened Swings
  import opened Breaks
  import opened Zones
  import opened Market

  /** The zone at the end of the evaluated candles, with its state. */
  function Shown(closed: seq<Bar>, z: PriceZone): PriceZone
    requires closed != []
  {
    z.(toTime := closed[|closed| - 1].time, state := if TouchedBy(closed, z) then Touched else Active)
  }

  /** `shown` are the last of `all`, at most `n`, with their states. */
  ghost predicate ShowsLast(closed: seq<Bar>, all: seq<PriceZone>, n: nat, shown: seq<PriceZone>)
    requires closed != []
  {
    && |shown| == (if |all| <= n then |all| else n)
    && forall i :: 0 <= i < |shown| ==> shown[i] == Shown(closed, all[|all| - |shown| + i])
  }

  /** The newest eight open gaps that end within the last 300 candles. */
  ghost predicate ShowsGaps(closed: seq<Bar>, shown: seq<PriceZone>)
    requires closed != []
  {
    exists all, at :: GapsAt(closed, Earliest(|closed|), |closed|, all, at) && ShowsLast(closed, all, 8, shown)
  }

  /** The first candle that may complete a gap: the third, or the first of the last 300. */
  function Earliest(n: nat): (r: nat)
    ensures r >= 2
  {
    if n <= 302 then 2 else n - 300
  }

  /** The newest six order blocks of the gaps that are shown. */
  ghost predicate ShowsBlocks(closed: seq<Bar>, gaps: seq<PriceZone>, shown: seq<PriceZone>)
    requires closed != []
  {
    exists all, of :: BlocksOf(closed, gaps, |gaps|, all, of) && ShowsLast(closed, all, 6, shown)
  }

  /** The swings of the last 400 candles, once there are 18: the only zigzag of those candles,
      rewritten until every swing stays. */
  ghost predicate ShowsSwings(window: seq<Bar>, swings: seq<Swing>)
    requires InRange(window, swings)
  {
    if |window| < 18 then swings == []
    else
      exists averages, chain ::
        && |averages| == |window| && AreAverages(window, 14, averages)
        && IsChain(window, DEFAULT_CONFIG, chain) && IsZigzag(window, DEFAULT_CONFIG, averages, chain[0])
        && chain[|chain| - 1] == swings && AllStay(window, DEFAULT_CONFIG, swings)
  }

  /** Every decided break of those swings, classified by side. */
  ghost predicate ShowsBreaks(window: seq<Bar>, swings: seq<Swing>, events: seq<StructureEvent>)
    requires InRange(window, swings)
  {
    Classified(ConfirmedEvents(events)) && exists at :: Reports(window, DEFAULT_CONFIG, swings, events, at)
  }

  function Recent(closed: seq<Bar>): seq<Bar> { if |closed| <= 400 then closed else closed[|closed| - 400..] }

  ghost predicate IsView(closed: seq<Bar>, view: MarketView)
    requires closed != []
  {
    && ShowsGaps(closed, view.fvgs)
    && ShowsBlocks(closed, view.fvgs, view.orderBlocks)
    && InRange(Recent(closed), view.swings)
    && ShowsSwings(Recent(closed), view.swings)
    && ShowsBreaks(Recent(closed), view.swings, view.structure)
  }

  lemma {:induction false} GapsShown(closed: seq<Bar>)
    requires closed != []
    ensures ShowsGaps(closed, Annotate(closed, DetectGaps(closed, DEFAULT_CONFIG.fvgLookback)))
  {
    hide OpenGaps, TouchedBy, ShowsLast, GapsAt, Annotate, Suffix;
    var lo := GapStart(|closed|, 300);
    assert lo == Earliest(|closed|);
    var at := GapsAreExact(closed, lo, |closed|);
    var all := OpenGaps(closed, lo, |closed|);
    var now := closed[|closed| - 1].time;
    LastShown(closed, Stamp(all, now), 8);
    StampShown(closed, all, 8, Annotate(closed, Suffix(Stamp(all, now), 8)));
  }

  /** The end time of a zone does not matter to what is shown of it. */
  lemma {:induction false} StampShown(closed: seq<Bar>, all: seq<PriceZone>, n: nat, shown: seq<PriceZone>)
    requires closed != [] && ShowsLast(closed, Stamp(all, closed[|closed| - 1].time), n, shown)
    ensures ShowsLast(closed, all, n, shown)
  {
    hide TouchedBy, Stamp;
    var stamped := Stamp(all, closed[|closed| - 1].time);
    forall i | 0 <= i < |shown| ensures shown[i] == Shown(closed, all[|all| - |shown| + i]) {
      SameReach(closed, all[|all| - |shown| + i], stamped[|all| - |shown| + i]);
    }
  }

  lemma {:induction false} SameReach(bars: seq<Bar>, a: PriceZone, b: PriceZone)
    requires a.top == b.top && a.bottom == b.bottom && a.fromTime == b.fromTime
    ensures TouchedBy(bars, a) <==> TouchedBy(bars, b)
  {
    assert forall i :: 0 <= i < |bars| ==> (Intersects(bars[i], a) <==> Intersects(bars[i], b));
  }

  /** A block depends on its gap's side, grade and time only. */
  lemma {:induction false} SameBlock(closed: seq<Bar>, a: PriceZone, b: PriceZone)
    requires closed != [] && a.side == b.side && a.grade == b.grade && a.fromTime == b.fromTime
    ensures BlockOf(closed, a) == BlockOf(closed, b)
  {
    hide BlockIndex, IndexAt;
  }

  lemma {:induction false} SameBlocks(closed: seq<Bar>, gaps: seq<PriceZone>)
    requires closed != []
    ensures AllBlocks(closed, Annotate(closed, gaps)) == AllBlocks(closed, gaps)
  {
    hide BlockOf, TouchedBy;
    if gaps != [] {
      var shown := Annotate(closed, gaps);
      assert shown[..|gaps| - 1] == Annotate(closed, gaps[..|gaps| - 1]);
      SameBlocks(closed, gaps[..|gaps| - 1]);
      SameBlock(closed, shown[|gaps| - 1], gaps[|gaps| - 1]);
    }
  }

  lemma {:induction false} BlocksShown(closed: seq<Bar>, gaps: seq<PriceZone>)
    requires closed != []
    ensures ShowsBlocks(closed, Annotate(closed, gaps), Annotate(closed, DetectBlocks(closed, gaps)))
  {
    hide BlockOf, AllBlocks, TouchedBy, ShowsLast, BlocksOf, Annotate;
    var shown := Annotate(closed, gaps);
    var of := BlocksFollowGaps(closed, shown, |shown|);
    assert shown[..|shown|] == shown;
    SameBlocks(closed, gaps);
    BlocksEndNow(closed, gaps);
    LastShown(closed, AllBlocks(closed, gaps), 6);
  }

  lemma {:induction false} LastShown(closed: seq<Bar>, all: seq<PriceZone>, n: nat)
    requires closed != [] && forall i :: 0 <= i < |all| ==> all[i].toTime == closed[|closed| - 1].time
    ensures ShowsLast(closed, all, n, Annotate(closed, Suffix(all, n)))
  {
    var last := Suffix(all, n);
    var shown := Annotate(closed, last);
    hide TouchedBy, Suffix, Annotate;
    forall i | 0 <= i < |shown| ensures shown[i] == Shown(closed, all[|all| - |shown| + i]) {
      LastAt(all, n, i);
      assert last[i].(toTime := closed[|closed| - 1].time) == last[i];
    }
  }

  lemma LastAt(all: seq<PriceZone>, n: nat, i: nat)
    requires i < |Suffix(all, n)|
    ensures Suffix(all, n)[i] == all[|all| - |Suffix(all, n)| + i]
  {
  }

  lemma {:induction false} BlocksEndNow(closed: seq<Bar>, gaps: seq<PriceZone>)
    requires closed != []
    ensures forall i :: 0 <= i < |AllBlocks(closed, gaps)| ==> AllBlocks(closed, gaps)[i].toTime == closed[|closed| - 1].time
  {
    hide BlockIndex, IndexAt;
    if gaps != [] {
      BlocksEndNow(closed, gaps[..|gaps| - 1]);
    }
  }

  lemma {:induction false} SwingsShown(closed: seq<Bar>)
    ensures InRange(Recent(closed), StructuralSwings(closed))
    ensures ShowsSwings(Recent(closed), StructuralSwings(closed))
  {
    hide ZigzagSwings, Merge, AreAverages, IsZigzag, IsChain, AllStay, AtrsOf;
    var window := Recent(closed);
    assert StructureBars(closed) == window;
    if |window| >= 18 {
      ZigzagIsComplete(window, DEFAULT_CONFIG);
      ZigzagInRange(window);
      var chain := MergeIsChain(window, ZigzagSwings(window, DEFAULT_CONFIG), DEFAULT_CONFIG);
      MergedIs(window);
      assert |AtrsOf(window, 14)| == |window|;
    }
  }

  lemma {:induction false} ZigzagInRange(bars: seq<Bar>)
    ensures InRange(bars, ZigzagSwings(bars, DEFAULT_CONFIG))
  {
    hide ZigzagSwings;
    ZigzagIsExtremal(bars, DEFAULT_CONFIG);
    SoundIsOrdered(bars, ZigzagSwings(bars, DEFAULT_CONFIG));
  }

  lemma {:induction false} MergedIs(bars: seq<Bar>)
    requires InRange(bars, ZigzagSwings(bars, DEFAULT_CONFIG))
    ensures MergedSwings(bars, DEFAULT_CONFIG) == Merge(bars, ZigzagSwings(bars, DEFAULT_CONFIG), DEFAULT_CONFIG)
  {
    hide ZigzagSwings, Merge;
  }

  lemma {:induction false} BreaksShown(window: seq<Bar>, swings: seq<Swing>)
    requires InRange(window, swings)
    ensures ShowsBreaks(window, swings, ScanRun(window, swings, DEFAULT_CONFIG).events)
  {
    hide ScanRun, Reports, Classified;
    var at := ScanIsExact(window, swings, DEFAULT_CONFIG);
    ScanIsClassified(window, swings, DEFAULT_CONFIG);
  }

  /** The evaluation of a candle list is the view of its closed candles. */
  lemma {:induction false} EvaluateIsExact(bars: seq<Bar>)
    ensures Filter(IsClosed, bars) == [] ==> Evaluate(bars) == EMPTY_VIEW
    ensures Filter(IsClosed, bars) != [] ==> IsView(Filter(IsClosed, bars), Evaluate(bars))
  {
    hide Filter, DetectGaps, DetectBlocks, Annotate, StructuralSwings, ScanRun, ShowsGaps, ShowsBlocks, ShowsSwings, ShowsBreaks;
    var closed := Filter(IsClosed, bars);
    if closed != [] {
      GapsShown(closed);
      BlocksShown(closed, DetectGaps(closed, DEFAULT_CONFIG.fvgLookback));
      SwingsShown(closed);
      BreaksShown(Recent(closed), StructuralSwings(closed));
      assert StructureBars(closed) == Recent(closed);
    }
  }
}
