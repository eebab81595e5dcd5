/** Market evaluation over a bounded candle window and the market reducer
    (internal/indicator/market.go:85-128, internal/indicator/market_reducer.go:11-166). */
module Market {
  import opened Model
  import opened Candles
  import opened Zigzag
  import opened Swings
  import opened Breaks
  import opened Zones

  const HISTORY_LIMIT: nat := 500

  /** The modelled part of a market state that depends on the candles alone. */
  datatype MarketView = MarketView(
    fvgs: seq<PriceZone>,
    orderBlocks: seq<PriceZone>,
    swings: seq<Swing>,
    structure: seq<StructureEvent>)

  const EMPTY_VIEW := MarketView([], [], [], [])

  function AllZones(view: MarketView): seq<PriceZone> { view.fvgs + view.orderBlocks }

  predicate IsClosed(bar: Bar) { bar.closed }

  /** The candles structure is read from, and whether there are enough of them. */
  function StructureBars(closed: seq<Bar>): seq<Bar> { Suffix(closed, DEFAULT_CONFIG.recentBars) }

  function StructuralSwings(closed: seq<Bar>): (r: seq<Swing>)
    ensures InRange(StructureBars(closed), r)
  {
    if |StructureBars(closed)| >= DEFAULT_CONFIG.atrPeriod + 4
    then MergedSwings(StructureBars(closed), DEFAULT_CONFIG) else []
  }

  /** The state of a candle list, recomputed from scratch. */
  function Evaluate(bars: seq<Bar>): MarketView {
    var closed := Filter(IsClosed, bars);
    if closed == [] then EMPTY_VIEW
    else
      var gaps := DetectGaps(closed, DEFAULT_CONFIG.fvgLookback);
      var swings := StructuralSwings(closed);
      MarketView(Annotate(closed, gaps), Annotate(closed, DetectBlocks(closed, gaps)),
                 swings, ScanRun(StructureBars(closed), swings, DEFAULT_CONFIG).events)
  }

  /** A view together with what only the latest candle did. Transitions are kept per zone. */
  datatype MarketState = MarketState(view: MarketView, transitions: map<ZoneId, seq<ZoneTransition>>)

  datatype MarketReducer = MarketReducer(bars: seq<Bar>, samples: nat, state: MarketState)

  datatype MarketSnapshot = MarketSnapshot(samples: nat, bars: seq<Bar>)

  const NEW_MARKET := MarketReducer([], 0, MarketState(EMPTY_VIEW, map[]))

  function TransitionsBetween(previous: MarketView, current: MarketView, bar: Bar): map<ZoneId, seq<ZoneTransition>> {
    map id | id in ById(AllZones(previous)).Keys + ById(AllZones(current)).Keys ::
      TransitionsFor(AllZones(previous), AllZones(current), bar, id)
  }

  function CloseBar(m: MarketReducer, bar: Bar): MarketReducer {
    var bars := Suffix(m.bars + [bar], HISTORY_LIMIT);
    var view := Evaluate(bars);
    MarketReducer(bars, m.samples + 1, MarketState(view, TransitionsBetween(m.state.view, view, bar)))
  }

  function SeedMarket(bars: seq<Bar>): MarketReducer {
    var closed := Filter(IsClosed, bars);
    var window := Suffix(closed, HISTORY_LIMIT);
    MarketReducer(window, |closed|, MarketState(Evaluate(window), map[]))
  }

  function TakeMarketSnapshot(m: MarketReducer): MarketSnapshot { MarketSnapshot(m.samples, m.bars) }

  /** Restoring recomputes the view and forgets what the latest candle did. */
  function RestoreMarket(snapshot: MarketSnapshot): Option<MarketReducer> {
    if |snapshot.bars| > HISTORY_LIMIT then None
    else Some(MarketReducer(snapshot.bars, snapshot.samples, MarketState(Evaluate(snapshot.bars), map[])))
  }

  /** The reducer after a list of closed candles. */
  function MarketOf(history: seq<Bar>): MarketReducer {
    if history == [] then NEW_MARKET
    else CloseBar(MarketOf(history[..|history| - 1]), history[|history| - 1])
  }

  /** Bars, count and view are what the history determines; transitions may be missing. */
  ghost predicate Tracks(m: MarketReducer, history: seq<Bar>) {
    && m.bars == Suffix(history, HISTORY_LIMIT)
    && m.samples == |history|
    && m.state.view == Evaluate(Suffix(history, HISTORY_LIMIT))
  }

  lemma SuffixPush<T>(s: seq<T>, x: T, n: nat)
    requires n >= 1
    ensures Suffix(Suffix(s, n) + [x], n) == Suffix(s + [x], n)
  {
  }

  lemma {:induction false} CloseBarTracks(m: MarketReducer, history: seq<Bar>, bar: Bar)
    requires Tracks(m, history)
    ensures Tracks(CloseBar(m, bar), history + [bar])
    ensures CloseBar(m, bar).state.transitions ==
            TransitionsBetween(Evaluate(Suffix(history, HISTORY_LIMIT)), Evaluate(Suffix(history + [bar], HISTORY_LIMIT)), bar)
  {
    hide Evaluate, TransitionsBetween;
    SuffixPush(history, bar, HISTORY_LIMIT);
  }

  lemma EvaluateNothing()
    ensures Evaluate([]) == EMPTY_VIEW
  {
  }

  lemma {:induction false} MarketOfTracks(history: seq<Bar>)
    ensures Tracks(MarketOf(history), history)
  {
    EvaluateNothing();
    hide Evaluate, CloseBar;
    if history != [] {
      MarketOfTracks(history[..|history| - 1]);
      CloseBarTracks(MarketOf(history[..|history| - 1]), history[..|history| - 1], history[|history| - 1]);
      assert history == history[..|history| - 1] + [history[|history| - 1]];
    }
  }

  /** Two reducers tracking one history react alike to the next candle, transitions included,
      whatever either still remembered of the candle before. */
  lemma NextStateIsDetermined(a: MarketReducer, b: MarketReducer, history: seq<Bar>, bar: Bar)
    requires Tracks(a, history) && Tracks(b, history)
    ensures CloseBar(a, bar) == CloseBar(b, bar)
  {
  }

  /** A clone goes through a snapshot, loses the transitions, and still closes the next
      candle exactly as the original would. */
  lemma {:induction false} CloneIsTransparent(m: MarketReducer, history: seq<Bar>, bar: Bar)
    requires Tracks(m, history)
    ensures RestoreMarket(TakeMarketSnapshot(m)).Some?
    ensures Tracks(RestoreMarket(TakeMarketSnapshot(m)).value, history)
    ensures CloseBar(RestoreMarket(TakeMarketSnapshot(m)).value, bar) == CloseBar(m, bar)
  {
    NextStateIsDetermined(RestoreMarket(TakeMarketSnapshot(m)).value, m, history, bar);
  }

  // ---- The reducer object ------------------------------------------------

  method EvaluateMarket(bars: seq<Bar>) returns (view: MarketView)
    ensures view == Evaluate(bars)
  {
    hide DetectGaps, DetectBlocks, Annotate, MergedSwings, ScanRun;
    var closed: seq<Bar> := [];
    for i := 0 to |bars|
      invariant closed == Filter(IsClosed, bars[..i])
    {
      FilterTake(IsClosed, bars, i);
      if bars[i].closed {
        closed := closed + [bars[i]];
      }
    }
    assert bars[..|bars|] == bars;
    if |closed| == 0 {
      return EMPTY_VIEW;
    }
    var gaps := DetectFVG(closed, DEFAULT_CONFIG.fvgLookback);
    var blocks := DetectOrderBlocks(closed, gaps);
    var annotatedGaps := Annotated(closed, gaps);
    var annotatedBlocks := Annotated(closed, blocks);
    var structureBars := closed;
    if |structureBars| > DEFAULT_CONFIG.recentBars {
      structureBars := structureBars[|structureBars| - DEFAULT_CONFIG.recentBars..];
    }
    var swings, events := StructureOf(closed, structureBars);
    view := MarketView(annotatedGaps, annotatedBlocks, swings, events);
  }

  method StructureOf(closed: seq<Bar>, bars: seq<Bar>) returns (swings: seq<Swing>, events: seq<StructureEvent>)
    requires bars == StructureBars(closed)
    ensures swings == StructuralSwings(closed)
    ensures events == ScanRun(bars, StructuralSwings(closed), DEFAULT_CONFIG).events
  {
    hide Merge, ZigzagSwings, Sound;
    swings := [];
    if |bars| >= DEFAULT_CONFIG.atrPeriod + 4 {
      var raw := ComputeZigzag(bars, DEFAULT_CONFIG);
      ZigzagIsExtremal(bars, DEFAULT_CONFIG);
      SoundIsOrdered(bars, raw);
      swings := MergeByValidPullback(bars, raw, DEFAULT_CONFIG);
    }
    events := ScanBreaks(bars, swings, DEFAULT_CONFIG);
  }

  method Annotated(bars: seq<Bar>, zones: seq<PriceZone>) returns (out: seq<PriceZone>)
    ensures out == Annotate(bars, zones)
  {
    var work := new PriceZone[|zones|](i requires 0 <= i < |zones| => zones[i]);
    assert work[..] == zones;
    AnnotateZoneStates(bars, work);
    out := work[..];
  }

  /** The reducer the lane owns; its transitions are a list in visiting order. */
  class MarketObject {
    var bars: seq<Bar>
    var samples: nat
    var view: MarketView
    var transitions: seq<ZoneTransition>

    /** Agrees with a reducer value, transitions compared zone by zone. */
    ghost predicate Represents(m: MarketReducer)
      reads this
    {
      && bars == m.bars && samples == m.samples && view == m.state.view
      && forall id :: OfZone(transitions, id) ==
                      if id in m.state.transitions then m.state.transitions[id] else []
    }

    constructor ()
      ensures Represents(NEW_MARKET)
    {
      bars, samples, view, transitions := [], 0, EMPTY_VIEW, [];
    }

    method OnClosed(bar: Bar, ghost m: MarketReducer)
      requires Represents(m)
      modifies this
      ensures Represents(CloseBar(m, bar))
    {
      hide Evaluate, OfZone, TransitionsFor, Suffix;
      var previous := view;
      bars := bars + [bar];
      SuffixIs(bars, HISTORY_LIMIT);
      if |bars| > HISTORY_LIMIT {
        bars := bars[|bars| - HISTORY_LIMIT..];
      }
      samples := samples + 1;
      view := EvaluateMarket(bars);
      transitions := ZoneTransitions(AllZones(previous), AllZones(view), bar);
      forall id | id !in CloseBar(m, bar).state.transitions ensures OfZone(transitions, id) == [] {
        NoTransitions(AllZones(previous), AllZones(view), bar, id);
      }
    }

    method Seed(input: seq<Bar>)
      modifies this
      ensures Represents(SeedMarket(input))
    {
      hide Evaluate;
      bars, samples := [], 0;
      for i := 0 to |input|
        invariant bars == Filter(IsClosed, input[..i]) && samples == |bars|
      {
        FilterTake(IsClosed, input, i);
        if input[i].closed {
          bars := bars + [input[i]];
          samples := samples + 1;
        }
      }
      assert input[..|input|] == input;
      if |bars| > HISTORY_LIMIT {
        bars := bars[|bars| - HISTORY_LIMIT..];
      }
      view := EvaluateMarket(bars);
      transitions := [];
    }

    method Snapshot() returns (snapshot: MarketSnapshot)
      ensures snapshot == MarketSnapshot(samples, bars)
    {
      snapshot := MarketSnapshot(samples, bars);
    }

    method Restore(snapshot: MarketSnapshot) returns (ok: bool)
      modifies this
      ensures ok == RestoreMarket(snapshot).Some?
      ensures ok ==> Represents(RestoreMarket(snapshot).value)
      ensures !ok ==> unchanged(this)
    {
      hide Evaluate;
      if |snapshot.bars| > HISTORY_LIMIT {
        return false;
      }
      bars, samples := snapshot.bars, snapshot.samples;
      view := EvaluateMarket(bars);
      transitions := [];
      return true;
    }
  }

  lemma SuffixIs<T>(s: seq<T>, n: nat)
    ensures Suffix(s, n) == if |s| > n then s[|s| - n..] else s
  {
  }

  lemma NoTransitions(previous: seq<PriceZone>, current: seq<PriceZone>, bar: Bar, id: ZoneId)
    requires id !in ById(previous) && id !in ById(current)
    ensures TransitionsFor(previous, current, bar, id) == []
  {
  }
}
