/** Breakout verdicts and break-of-structure classification
    (internal/indicator/market.go:482-634, 759-785). */
module Breaks {
  import opened Model
  import opened Candles
  import opened Zigzag
  import opened Swings

  datatype Verdict = Unbroken | Pending | Confirmed | Fake

  datatype Breakout = Breakout(verdict: Verdict, confirmIndex: nat, excursion: real)

  predicate Beyond(direction: Side, line: real, value: real) {
    if direction == UpSide then value > line else value < line
  }

  /** The furthest price of two candles in the direction of the break. */
  function Excursion(direction: Side, first: Bar, second: Bar): real {
    if direction == UpSide then Max(first.high, second.high) else Min(first.low, second.low)
  }

  /** The share of the breaking body that lies beyond the line. */
  function Penetration(first: Bar, line: real, direction: Side): real {
    if Body(first) <= 0.0 then 0.0
    else if direction == UpSide then Max(0.0, first.close - Max(first.open, line)) / Body(first)
    else Max(0.0, Min(first.open, line) - first.close) / Body(first)
  }

  predicate FollowsThrough(first: Bar, second: Bar, line: real, direction: Side, config: MarketConfig) {
    && StructureMarubozu(first, direction)
    && StructureMarubozu(second, direction)
    && Beyond(direction, line, second.close)
    && Beyond(direction, first.close, second.close)
    && Range(second) >= config.secondMaruMin * Range(first)
  }

  predicate SmallPullback(first: Bar, second: Bar, direction: Side, config: MarketConfig) {
    && Range(second) <= config.oppositeSmallMax * Range(first)
    && if direction == UpSide then second.low >= Mid(first) else second.high <= Mid(first)
  }

  predicate Big(bars: seq<Bar>, index: nat, config: MarketConfig)
    requires index < |bars|
  {
    var reference := MarubozuReference(bars, index);
    reference > 0.0 && Range(bars[index]) >= config.bigVsReference * reference
  }

  /** The first candle from `current` to `end` closing beyond `excursion`. */
  function FirstCloseBeyond(bars: seq<Bar>, current: nat, end: nat, direction: Side, excursion: real): (r: Option<nat>)
    ensures r.Some? ==> current <= r.value <= end && r.value < |bars| && Beyond(direction, excursion, bars[r.value].close)
    ensures r.Some? ==> forall i :: current <= i < r.value ==> !Beyond(direction, excursion, bars[i].close)
    ensures r.None? ==> forall i :: current <= i <= end && i < |bars| ==> !Beyond(direction, excursion, bars[i].close)
    decreases end + 1 - current
  {
    if current > end || current >= |bars| then None
    else if Beyond(direction, excursion, bars[current].close) then Some(current)
    else FirstCloseBeyond(bars, current + 1, end, direction, excursion)
  }

  /** The verdict by later closes, for a marubozu break nothing else decided. */
  function LateVerdict(bars: seq<Bar>, index: nat, direction: Side, excursion: real, config: MarketConfig): Breakout {
    var end := index + 1 + config.pacWindow;
    match FirstCloseBeyond(bars, index + 2, end, direction, excursion)
    case Some(current) => Breakout(Confirmed, current, excursion)
    case None => if |bars| >= end + 1 then Breakout(Fake, index + 1, excursion) else Breakout(Pending, 0, excursion)
  }

  predicate ClosedBack(second: Bar, line: real, direction: Side) {
    if direction == UpSide then second.close < line else second.close > line
  }

  /** The rule cascade, in the source's order. */
  function EvaluateBreakout(bars: seq<Bar>, index: nat, line: real, direction: Side, config: MarketConfig): Breakout
    requires index < |bars|
  {
    var first := bars[index];
    if !Beyond(direction, line, first.close) then Breakout(Unbroken, 0, 0.0)
    else if index + 1 >= |bars| then
      Breakout(Pending, 0, if direction == UpSide then first.high else first.low)
    else
      var second := bars[index + 1];
      var excursion := Excursion(direction, first, second);
      var penetration := Penetration(first, line, direction);
      var marubozu := StructureMarubozu(first, direction);
      var closedBack := ClosedBack(second, line, direction);
      if FollowsThrough(first, second, line, direction, config) then Breakout(Confirmed, index + 1, excursion)
      else if marubozu && Big(bars, index, config) && penetration > config.breakBodyBeyond
              && SmallPullback(first, second, direction, config) && !closedBack then
        Breakout(Confirmed, index + 1, excursion)
      else if (marubozu || penetration > config.breakBodyBeyond) && !closedBack then
        Breakout(Confirmed, index + 1, excursion)
      else if closedBack then Breakout(Fake, index + 1, excursion)
      else if marubozu then LateVerdict(bars, index, direction, excursion, config)
      else Breakout(Fake, index + 1, excursion)
  }

  /** The whole cascade as one test; in particular the late-close rule never decides. */
  lemma {:induction false} BreakoutIsOneTest(bars: seq<Bar>, index: nat, line: real, direction: Side, config: MarketConfig)
    requires index < |bars|
    ensures var first, r := bars[index], EvaluateBreakout(bars, index, line, direction, config);
            && (r.verdict == Unbroken <==> !Beyond(direction, line, first.close))
            && (r.verdict == Pending <==> Beyond(direction, line, first.close) && index + 1 == |bars|)
            && (Beyond(direction, line, first.close) && index + 1 < |bars| ==>
                  && r.confirmIndex == index + 1
                  && r.excursion == Excursion(direction, first, bars[index + 1])
                  && (r.verdict == Confirmed <==>
                        && !ClosedBack(bars[index + 1], line, direction)
                        && (StructureMarubozu(first, direction) || Penetration(first, line, direction) > config.breakBodyBeyond)))
  {
    hide StructureMarubozu, Penetration, SmallPullback, Excursion, Big, LateVerdict, Range;
  }

  /** Once decided, a verdict survives every later candle. */
  lemma {:induction false} VerdictIsStable(
    bars: seq<Bar>, more: seq<Bar>, index: nat, line: real, direction: Side, config: MarketConfig)
    requires index < |bars|
    requires EvaluateBreakout(bars, index, line, direction, config).verdict != Pending
    ensures EvaluateBreakout(bars + more, index, line, direction, config) ==
            EvaluateBreakout(bars, index, line, direction, config)
  {
    BreakoutIsOneTest(bars, index, line, direction, config);
    BreakoutIsOneTest(bars + more, index, line, direction, config);
    assert (bars + more)[index] == bars[index];
    assert index + 1 < |bars| ==> (bars + more)[index + 1] == bars[index + 1];
    hide StructureMarubozu, Penetration, SmallPullback, Excursion, Big, LateVerdict, Range;
  }

  // ---- Scanning ----------------------------------------------------------

  datatype EventKind = BOS | CHoCH | FAKE

  datatype StructureEvent = StructureEvent(kind: EventKind, side: Side, price: real, time: nat, zone: Option<PriceZone>)

  /** A candle that stands beyond the reference. */
  predicate Stands(bar: Bar, reference: real, direction: Side) {
    if direction == UpSide then bar.high > reference else bar.low < reference
  }

  /** Where a false break starts: back while candles still stand beyond the reference. */
  function FalseBreakStart(bars: seq<Bar>, reference: real, start: nat, direction: Side): (r: nat)
    requires start < |bars|
    ensures r <= start
  {
    if start > 0 && Stands(bars[start - 1], reference, direction) then FalseBreakStart(bars, reference, start - 1, direction)
    else start
  }

  function FurthestPrice(bars: seq<Bar>, reference: real, lo: nat, hi: nat, direction: Side): real
    requires hi <= |bars|
    decreases hi
  {
    if hi <= lo then reference
    else
      var sofar := FurthestPrice(bars, reference, lo, hi - 1, direction);
      if direction == UpSide then Max(sofar, bars[hi - 1].high) else Min(sofar, bars[hi - 1].low)
  }

  function FalseBreakZone(bars: seq<Bar>, reference: real, swingIndex: nat, direction: Side): PriceZone
    requires swingIndex < |bars|
  {
    var start := FalseBreakStart(bars, reference, swingIndex, direction);
    var extreme := FurthestPrice(bars, reference, start, swingIndex + 1, direction);
    var top, bottom := Max(reference, extreme), Min(reference, extreme);
    PriceZone(ZoneId(FalseBreak, direction, bars[start].time, top, bottom), FalseBreak, direction, Ungraded,
              bars[start].time, bars[swingIndex].time, top, bottom, Unset)
  }

  method ComputeFalseBreakZone(bars: seq<Bar>, reference: real, swingIndex: nat, direction: Side) returns (zone: PriceZone)
    requires swingIndex < |bars|
    ensures zone == FalseBreakZone(bars, reference, swingIndex, direction)
    ensures exists start :: SpansRun(bars, reference, swingIndex, direction, start, zone)
  {
    var start := swingIndex;
    while start > 0 && Stands(bars[start - 1], reference, direction)
      invariant 0 <= start <= swingIndex
      invariant FalseBreakStart(bars, reference, start, direction) == FalseBreakStart(bars, reference, swingIndex, direction)
    {
      start := start - 1;
    }
    var extreme := reference;
    for index := start to swingIndex + 1
      invariant extreme == FurthestPrice(bars, reference, start, index, direction)
    {
      extreme := if direction == UpSide then Max(extreme, bars[index].high) else Min(extreme, bars[index].low);
    }
    var top, bottom := Max(reference, extreme), Min(reference, extreme);
    zone := PriceZone(ZoneId(FalseBreak, direction, bars[start].time, top, bottom), FalseBreak, direction, Ungraded,
                      bars[start].time, bars[swingIndex].time, top, bottom, Unset);
    var _ := FalseBreakIsRun(bars, reference, swingIndex, direction);
  }

  function Reach(bar: Bar, direction: Side): real { if direction == UpSide then bar.high else bar.low }

  /** The furthest price of a stretch: no candle reaches further, and one reaches it unless it is
      the reference itself. */
  ghost predicate Furthest(bars: seq<Bar>, reference: real, lo: nat, hi: nat, direction: Side, r: real)
    requires hi <= |bars|
  {
    && !Beyond(direction, r, reference)
    && (forall i :: lo <= i < hi ==> !Beyond(direction, r, Reach(bars[i], direction)))
    && (r == reference || exists i :: lo <= i < hi && r == Reach(bars[i], direction))
  }

  lemma {:induction false} FurthestIsExtreme(bars: seq<Bar>, reference: real, lo: nat, hi: nat, direction: Side)
    requires hi <= |bars|
    ensures Furthest(bars, reference, lo, hi, direction, FurthestPrice(bars, reference, lo, hi, direction))
  {
    if hi > lo {
      FurthestIsExtreme(bars, reference, lo, hi - 1, direction);
    }
  }

  lemma {:induction false} StartIsEarliest(bars: seq<Bar>, reference: real, start: nat, direction: Side)
    requires start < |bars|
    ensures var r := FalseBreakStart(bars, reference, start, direction);
            && (forall i :: r <= i < start ==> Stands(bars[i], reference, direction))
            && (r == 0 || !Stands(bars[r - 1], reference, direction))
  {
    if start > 0 && Stands(bars[start - 1], reference, direction) {
      StartIsEarliest(bars, reference, start - 1, direction);
    }
  }

  /** The zone of a false break spans the longest run of candles up to the swing that stand beyond
      the reference, from the reference to the furthest price of run and swing. */
  ghost predicate SpansRun(bars: seq<Bar>, reference: real, swingIndex: nat, direction: Side, start: nat, zone: PriceZone)
    requires swingIndex < |bars|
  {
    && start <= swingIndex
    && (forall i :: start <= i < swingIndex ==> Stands(bars[i], reference, direction))
    && (start == 0 || !Stands(bars[start - 1], reference, direction))
    && zone.fromTime == bars[start].time && zone.toTime == bars[swingIndex].time && zone.side == direction
    && (if direction == UpSide then zone.bottom else zone.top) == reference
    && Furthest(bars, reference, start, swingIndex + 1, direction, if direction == UpSide then zone.top else zone.bottom)
    && zone.id == ZoneId(FalseBreak, direction, zone.fromTime, zone.top, zone.bottom)
    && zone.kind == FalseBreak && zone.grade == Ungraded && zone.state == Unset
  }

  lemma {:induction false} FalseBreakIsRun(bars: seq<Bar>, reference: real, swingIndex: nat, direction: Side) returns (start: nat)
    requires swingIndex < |bars|
    ensures SpansRun(bars, reference, swingIndex, direction, start, FalseBreakZone(bars, reference, swingIndex, direction))
  {
    start := FalseBreakStart(bars, reference, swingIndex, direction);
    StartIsEarliest(bars, reference, swingIndex, direction);
    FurthestIsExtreme(bars, reference, start, swingIndex + 1, direction);
    hide FalseBreakStart, FurthestPrice;
  }

  datatype Scan = Scan(events: seq<StructureEvent>, trend: Option<Side>, lastHigh: Option<Swing>, lastLow: Option<Swing>)

  /** What a swing past the previous one of its kind reports, and the trend after it. */
  function BreakEvents(bars: seq<Bar>, trend: Option<Side>, previous: Swing, swing: Swing, direction: Side, config: MarketConfig)
    : (r: (seq<StructureEvent>, Option<Side>))
    requires swing.index < |bars|
  {
    match FirstCloseBeyond(bars, previous.index + 1, swing.index, direction, previous.price)
    case None =>
      ([StructureEvent(FAKE, direction, previous.price, bars[swing.index].time,
                       Some(FalseBreakZone(bars, previous.price, swing.index, direction)))], trend)
    case Some(at) =>
      var r := EvaluateBreakout(bars, at, previous.price, direction, config);
      if r.verdict == Confirmed && r.confirmIndex < |bars| then
        var kind := if trend.Some? && trend.value != direction then CHoCH else BOS;
        ([StructureEvent(kind, direction, previous.price, bars[r.confirmIndex].time, None)], Some(direction))
      else if r.verdict == Fake then
        ([StructureEvent(FAKE, direction, previous.price, bars[at].time,
                         Some(FalseBreakZone(bars, previous.price, swing.index, direction)))], trend)
      else ([], trend)
  }

  /** What one swing reports against the latest earlier swing of its kind. */
  function Reported(bars: seq<Bar>, s: Scan, swing: Swing, config: MarketConfig): (r: (seq<StructureEvent>, Option<Side>))
    requires swing.index < |bars|
  {
    if swing.kind == High && s.lastHigh.Some? && swing.price > s.lastHigh.value.price then
      BreakEvents(bars, s.trend, s.lastHigh.value, swing, UpSide, config)
    else if swing.kind == Low && s.lastLow.Some? && swing.price < s.lastLow.value.price then
      BreakEvents(bars, s.trend, s.lastLow.value, swing, DownSide, config)
    else ([], s.trend)
  }

  function ScanSwing(bars: seq<Bar>, s: Scan, swing: Swing, config: MarketConfig): Scan
    requires swing.index < |bars|
  {
    var r := Reported(bars, s, swing, config);
    Scan(s.events + r.0, r.1,
         if swing.kind == High then Some(swing) else s.lastHigh,
         if swing.kind == High then s.lastLow else Some(swing))
  }

  function ScanRun(bars: seq<Bar>, swings: seq<Swing>, config: MarketConfig): Scan
    requires InRange(bars, swings)
  {
    if swings == [] then Scan([], None, None, None)
    else ScanSwing(bars, ScanRun(bars, swings[..|swings| - 1], config), swings[|swings| - 1], config)
  }

  method ComputeBreakEvents(
    bars: seq<Bar>, trend: Option<Side>, previous: Swing, swing: Swing, direction: Side, config: MarketConfig)
    returns (events: seq<StructureEvent>, next: Option<Side>)
    requires swing.index < |bars|
    ensures (events, next) == BreakEvents(bars, trend, previous, swing, direction, config)
  {
    hide EvaluateBreakout, FalseBreakZone;
    next := trend;
    var breakIndex := -1;
    var current := previous.index + 1;
    while current <= swing.index
      invariant previous.index + 1 <= current
      invariant breakIndex == -1
      invariant FirstCloseBeyond(bars, current, swing.index, direction, previous.price)
             == FirstCloseBeyond(bars, previous.index + 1, swing.index, direction, previous.price)
    {
      if Beyond(direction, previous.price, bars[current].close) {
        breakIndex := current;
        break;
      }
      current := current + 1;
    }
    if breakIndex < 0 {
      var zone := ComputeFalseBreakZone(bars, previous.price, swing.index, direction);
      events := [StructureEvent(FAKE, direction, previous.price, bars[swing.index].time, Some(zone))];
      return;
    }
    BreakoutIsOneTest(bars, breakIndex, previous.price, direction, config);
    var result := EvaluateBreakout(bars, breakIndex, previous.price, direction, config);
    if result.verdict == Confirmed {
      var kind := BOS;
      if trend == Some(if direction == UpSide then DownSide else UpSide) {
        kind := CHoCH;
      }
      events := [StructureEvent(kind, direction, previous.price, bars[result.confirmIndex].time, None)];
      next := Some(direction);
    } else if result.verdict == Fake {
      var zone := ComputeFalseBreakZone(bars, previous.price, swing.index, direction);
      events := [StructureEvent(FAKE, direction, previous.price, bars[breakIndex].time, Some(zone))];
    } else {
      events := [];
    }
  }

  method ScanBreaks(bars: seq<Bar>, swings: seq<Swing>, config: MarketConfig) returns (events: seq<StructureEvent>)
    requires InRange(bars, swings)
    ensures events == ScanRun(bars, swings, config).events
  {
    hide BreakEvents;
    events := [];
    var trend: Option<Side>, lastHigh: Option<Swing>, lastLow: Option<Swing> := None, None, None;
    for index := 0 to |swings|
      invariant ScanRun(bars, swings[..index], config) == Scan(events, trend, lastHigh, lastLow)
    {
      var swing := swings[index];
      assert swings[..index + 1][..index] == swings[..index];
      var found: seq<StructureEvent> := [];
      if swing.kind == High {
        if lastHigh.Some? && swing.price > lastHigh.value.price {
          found, trend := ComputeBreakEvents(bars, trend, lastHigh.value, swing, UpSide, config);
        }
        lastHigh := Some(swing);
      } else {
        if lastLow.Some? && swing.price < lastLow.value.price {
          found, trend := ComputeBreakEvents(bars, trend, lastLow.value, swing, DownSide, config);
        }
        lastLow := Some(swing);
      }
      events := events + found;
    }
    assert swings[..|swings|] == swings;
  }

  // ---- Classification ----------------------------------------------------

  predicate IsConfirmed(e: StructureEvent) { e.kind != FAKE }

  function ConfirmedEvents(events: seq<StructureEvent>): seq<StructureEvent> { Filter(IsConfirmed, events) }

  /** The first confirmed break continues; a later one reverses exactly when its side changed. */
  function KindAfter(earlier: seq<StructureEvent>, side: Side): EventKind {
    if earlier != [] && earlier[|earlier| - 1].side != side then CHoCH else BOS
  }

  ghost predicate Classified(confirmed: seq<StructureEvent>) {
    forall i :: 0 <= i < |confirmed| ==> confirmed[i].kind == KindAfter(confirmed[..i], confirmed[i].side)
  }

  function FinalSide(confirmed: seq<StructureEvent>): Option<Side> {
    if confirmed == [] then None else Some(confirmed[|confirmed| - 1].side)
  }

  /** Nothing confirmed and the trend kept, or one break classified against the trend it sets. */
  ghost predicate Shape(trend: Option<Side>, r: (seq<StructureEvent>, Option<Side>)) {
    || (ConfirmedEvents(r.0) == [] && r.1 == trend)
    || (&& |r.0| == 1
        && ConfirmedEvents(r.0) == r.0
        && r.1 == Some(r.0[0].side)
        && r.0[0].kind == if trend.Some? && trend.value != r.0[0].side then CHoCH else BOS)
  }

  lemma {:induction false} ReportedShape(bars: seq<Bar>, s: Scan, swing: Swing, config: MarketConfig)
    requires swing.index < |bars|
    ensures Shape(s.trend, Reported(bars, s, swing, config))
  {
    hide EvaluateBreakout, FalseBreakZone, FirstCloseBeyond;
    var r := Reported(bars, s, swing, config).0;
    if r != [] {
      assert r[..|r| - 1] == [];
    }
  }

  lemma {:induction false} ClassifiedExtends(confirmed: seq<StructureEvent>, e: StructureEvent)
    requires Classified(confirmed) && e.kind == KindAfter(confirmed, e.side)
    ensures Classified(confirmed + [e])
  {
    var all := confirmed + [e];
    forall i | 0 <= i < |all| ensures all[i].kind == KindAfter(all[..i], all[i].side) {
      if i < |confirmed| {
        assert all[..i] == confirmed[..i];
      } else {
        assert all[..i] == confirmed;
      }
    }
  }

  ghost predicate ScanClassified(s: Scan) {
    Classified(ConfirmedEvents(s.events)) && s.trend == FinalSide(ConfirmedEvents(s.events))
  }

  lemma {:induction false} ScanSwingKeeps(s: Scan, r: (seq<StructureEvent>, Option<Side>), after: Scan)
    requires ScanClassified(s) && Shape(s.trend, r)
    requires after.events == s.events + r.0 && after.trend == r.1
    ensures ScanClassified(after)
  {
    hide Classified, Filter;
    FilterConcat(IsConfirmed, s.events, r.0);
    if ConfirmedEvents(r.0) != [] {
      assert r.0 == [r.0[0]];
      ClassifiedExtends(ConfirmedEvents(s.events), r.0[0]);
    } else {
      assert ConfirmedEvents(after.events) == ConfirmedEvents(s.events);
    }
  }

  /** Classification is by side against the previous confirmed break, and the scan ends in the last side. */
  lemma {:induction false} ScanIsClassified(bars: seq<Bar>, swings: seq<Swing>, config: MarketConfig)
    requires InRange(bars, swings)
    ensures ScanClassified(ScanRun(bars, swings, config))
  {
    if swings == [] {
      assert ConfirmedEvents([]) == [];
    } else {
      hide Reported;
      var swing := swings[|swings| - 1];
      var before := ScanRun(bars, swings[..|swings| - 1], config);
      ScanIsClassified(bars, swings[..|swings| - 1], config);
      ReportedShape(bars, before, swing, config);
      ScanSwingKeeps(before, Reported(bars, before, swing, config), ScanRun(bars, swings, config));
    }
  }

  // ---- Which breaks are reported -----------------------------------------

  /** Swing `j` is the latest one of swing `k`'s kind before it. */
  predicate IsPrevious(swings: seq<Swing>, j: nat, k: nat)
    requires k < |swings|
  {
    j < k && swings[j].kind == swings[k].kind && forall m :: j < m < k ==> swings[m].kind != swings[k].kind
  }

  /** The later of two swings of one kind goes past the earlier. */
  predicate GoesPast(a: Swing, b: Swing) { if b.kind == High then b.price > a.price else b.price < a.price }

  function BreakSide(b: Swing): Side { if b.kind == High then UpSide else DownSide }

  /** The first candle after the earlier swing, up to the later one, to close past the earlier's price. */
  predicate FirstBreak(bars: seq<Bar>, a: Swing, b: Swing, c: nat)
    requires b.index < |bars|
  {
    && a.index < c <= b.index
    && (if b.kind == High then bars[c].close > a.price else bars[c].close < a.price)
    && forall i :: a.index < i < c ==> if b.kind == High then bars[i].close <= a.price else bars[i].close >= a.price
  }

  /** The break holds: the next candle does not close back, and the breaking candle is a marubozu
      or has more than the required share of its body past the price. */
  predicate Holds(first: Bar, second: Bar, line: real, side: Side, config: MarketConfig) {
    var body := Abs(first.close - first.open);
    var past := if side == UpSide then first.close - Max(first.open, line) else Min(first.open, line) - first.close;
    && (if side == UpSide then second.close >= line else second.close <= line)
    && (|| StructureMarubozu(first, side)
        || (if body == 0.0 || past <= 0.0 then config.breakBodyBeyond < 0.0 else past > config.breakBodyBeyond * body))
  }

  lemma {:induction false} PenetrationMeans(first: Bar, line: real, side: Side, share: real)
    ensures var body := Abs(first.close - first.open);
            var past := if side == UpSide then first.close - Max(first.open, line) else Min(first.open, line) - first.close;
            Penetration(first, line, side) > share <==> if body == 0.0 || past <= 0.0 then share < 0.0 else past > share * body
  {
    var body := Abs(first.close - first.open);
    var past := if side == UpSide then first.close - Max(first.open, line) else Min(first.open, line) - first.close;
    if body > 0.0 {
      Ratio(if past <= 0.0 then 0.0 else past, body, share);
      assert past <= 0.0 ==> 0.0 / body == 0.0;
    }
  }

  ghost predicate HasFakeZone(bars: seq<Bar>, a: Swing, b: Swing, zone: Option<PriceZone>)
    requires b.index < |bars|
  {
    zone.Some? && exists start :: SpansRun(bars, a.price, b.index, BreakSide(b), start, zone.value)
  }

  /** What the pair reports: a break that holds is confirmed by the candle after it; one that does
      not is fake at its own candle, and without any close past the price at the later swing. */
  ghost predicate IsReport(bars: seq<Bar>, config: MarketConfig, a: Swing, b: Swing, e: StructureEvent)
    requires b.index < |bars|
  {
    && e.side == BreakSide(b) && e.price == a.price
    && ((forall c: nat :: !FirstBreak(bars, a, b, c)) ==>
          e.kind == FAKE && e.time == bars[b.index].time && HasFakeZone(bars, a, b, e.zone))
    && (forall c: nat :: FirstBreak(bars, a, b, c) ==>
          && c + 1 < |bars|
          && if Holds(bars[c], bars[c + 1], a.price, BreakSide(b), config)
             then e.kind != FAKE && e.time == bars[c + 1].time && e.zone == None
             else e.kind == FAKE && e.time == bars[c].time && HasFakeZone(bars, a, b, e.zone))
  }

  /** The break is at the very last candle. */
  ghost predicate StillPending(bars: seq<Bar>, a: Swing, b: Swing)
    requires b.index < |bars|
  {
    FirstBreak(bars, a, b, |bars| - 1)
  }

  lemma {:induction false} OneFirstBreak(bars: seq<Bar>, a: Swing, b: Swing, c: nat, d: nat)
    requires b.index < |bars| && FirstBreak(bars, a, b, c) && FirstBreak(bars, a, b, d)
    ensures c == d
  {
  }

  lemma {:induction false} FirstBreakIs(bars: seq<Bar>, a: Swing, b: Swing)
    requires b.index < |bars|
    ensures match FirstCloseBeyond(bars, a.index + 1, b.index, BreakSide(b), a.price)
            case Some(c) => FirstBreak(bars, a, b, c)
            case None => forall c: nat :: !FirstBreak(bars, a, b, c)
  {
    hide FirstCloseBeyond;
  }

  lemma {:induction false} TestIsHolds(bars: seq<Bar>, c: nat, line: real, side: Side, config: MarketConfig)
    requires c + 1 < |bars| && Beyond(side, line, bars[c].close)
    ensures EvaluateBreakout(bars, c, line, side, config).confirmIndex == c + 1
    ensures EvaluateBreakout(bars, c, line, side, config).verdict ==
            if Holds(bars[c], bars[c + 1], line, side, config) then Confirmed else Fake
  {
    BreakoutIsOneTest(bars, c, line, side, config);
    PenetrationMeans(bars[c], line, side, config.breakBodyBeyond);
    hide EvaluateBreakout, StructureMarubozu, Penetration;
  }

  /** One pair, one report, unless the break is pending. */
  lemma {:induction false} PairReports(bars: seq<Bar>, trend: Option<Side>, a: Swing, b: Swing, config: MarketConfig)
    requires b.index < |bars|
    ensures var r := BreakEvents(bars, trend, a, b, BreakSide(b), config).0;
            && (StillPending(bars, a, b) ==> r == [])
            && (!StillPending(bars, a, b) ==> |r| == 1 && IsReport(bars, config, a, b, r[0]))
  {
    hide EvaluateBreakout, FalseBreakZone, FirstCloseBeyond, SpansRun, Holds;
    FirstBreakIs(bars, a, b);
    var start := FalseBreakIsRun(bars, a.price, b.index, BreakSide(b));
    match FirstCloseBeyond(bars, a.index + 1, b.index, BreakSide(b), a.price)
    case None =>
    case Some(c) =>
      forall d: nat | FirstBreak(bars, a, b, d) ensures d == c {
        OneFirstBreak(bars, a, b, c, d);
      }
      if c + 1 < |bars| {
        TestIsHolds(bars, c, a.price, BreakSide(b), config);
      } else {
        BreakoutIsOneTest(bars, c, a.price, BreakSide(b), config);
      }
  }

  /** The latest swing of a kind. */
  ghost predicate IsLatest(swings: seq<Swing>, kind: SwingKind, latest: Option<Swing>) {
    match latest
    case None => forall m :: 0 <= m < |swings| ==> swings[m].kind != kind
    case Some(s) =>
      exists j :: && 0 <= j < |swings| && swings[j] == s && s.kind == kind
                  && forall m :: j < m < |swings| ==> swings[m].kind != kind
  }

  lemma {:induction false} LatestGrows(swings: seq<Swing>, swing: Swing, kind: SwingKind, latest: Option<Swing>)
    requires IsLatest(swings, kind, latest)
    ensures IsLatest(swings + [swing], kind, if swing.kind == kind then Some(swing) else latest)
  {
    var all := swings + [swing];
    if swing.kind == kind {
      assert all[|swings|] == swing;
    } else if latest.Some? {
      var j :| && 0 <= j < |swings| && swings[j] == latest.value && latest.value.kind == kind
               && forall m :: j < m < |swings| ==> swings[m].kind != kind;
      assert all[j] == latest.value && forall m :: j < m < |all| ==> all[m].kind != kind;
    }
  }

  lemma {:induction false} ScanLatest(bars: seq<Bar>, swings: seq<Swing>, config: MarketConfig)
    requires InRange(bars, swings)
    ensures IsLatest(swings, High, ScanRun(bars, swings, config).lastHigh)
    ensures IsLatest(swings, Low, ScanRun(bars, swings, config).lastLow)
  {
    hide IsLatest, Reported;
    if swings == [] {
      NoneLatest();
    } else {
      var rest, swing := swings[..|swings| - 1], swings[|swings| - 1];
      ScanLatest(bars, rest, config);
      LatestGrows(rest, swing, High, ScanRun(bars, rest, config).lastHigh);
      LatestGrows(rest, swing, Low, ScanRun(bars, rest, config).lastLow);
      assert rest + [swing] == swings;
    }
  }

  lemma NoneLatest()
    ensures IsLatest([], High, None) && IsLatest([], Low, None)
  {
  }

  /** Swing `k` goes past the latest one of its kind before it, and the break is decided. */
  ghost predicate Decided(bars: seq<Bar>, swings: seq<Swing>, k: nat)
    requires InRange(bars, swings) && k < |swings|
  {
    exists j: nat :: IsPrevious(swings, j, k) && GoesPast(swings[j], swings[k]) && !StillPending(bars, swings[j], swings[k])
  }

  /** Event `e` is what swing `k` reports against the latest one of its kind before it. */
  ghost predicate ReportedBy(bars: seq<Bar>, config: MarketConfig, swings: seq<Swing>, k: nat, e: StructureEvent)
    requires InRange(bars, swings) && k < |swings|
  {
    exists j: nat :: IsPrevious(swings, j, k) && GoesPast(swings[j], swings[k]) && IsReport(bars, config, swings[j], swings[k], e)
  }

  /** The events of a scan over positions: one for every decided break and no other, in swing order. */
  ghost predicate Reports(bars: seq<Bar>, config: MarketConfig, swings: seq<Swing>, events: seq<StructureEvent>, at: seq<nat>)
    requires InRange(bars, swings)
  {
    && |at| == |events|
    && (forall i :: 0 <= i < |at| ==> at[i] < |swings| && ReportedBy(bars, config, swings, at[i], events[i]))
    && (forall i, j :: 0 <= i < j < |at| ==> at[i] < at[j])
    && (forall k :: 0 <= k < |swings| ==> (k in at <==> Decided(bars, swings, k)))
  }

  lemma {:induction false} OnePrevious(swings: seq<Swing>, i: nat, j: nat, k: nat)
    requires k < |swings| && IsPrevious(swings, i, k) && IsPrevious(swings, j, k)
    ensures i == j
  {
  }

  /** What the last swing reports. */
  lemma {:induction false} LastReports(bars: seq<Bar>, swings: seq<Swing>, config: MarketConfig)
    requires InRange(bars, swings) && swings != []
    ensures var k := |swings| - 1;
            var r := Reported(bars, ScanRun(bars, swings[..k], config), swings[k], config).0;
            && (Decided(bars, swings, k) ==> |r| == 1 && ReportedBy(bars, config, swings, k, r[0]))
            && (!Decided(bars, swings, k) ==> r == [])
  {
    hide BreakEvents, ScanRun, IsReport, StillPending;
    var k := |swings| - 1;
    var rest, swing := swings[..k], swings[k];
    var s := ScanRun(bars, rest, config);
    ScanLatest(bars, rest, config);
    var latest := if swing.kind == High then s.lastHigh else s.lastLow;
    assert IsLatest(rest, swing.kind, latest);
    if latest.None? {
      assert forall j: nat :: !IsPrevious(swings, j, k) by {
        assert forall m :: 0 <= m < k ==> swings[m] == rest[m];
      }
    } else {
      var j :| 0 <= j < |rest| && rest[j] == latest.value && latest.value.kind == swing.kind
               && forall m :: j < m < |rest| ==> rest[m].kind != swing.kind;
      assert IsPrevious(swings, j, k);
      forall i: nat | IsPrevious(swings, i, k) ensures i == j {
        OnePrevious(swings, i, j, k);
      }
      PairReports(bars, s.trend, swings[j], swing, config);
    }
  }

  lemma {:induction false} EarlierStand(bars: seq<Bar>, config: MarketConfig, swings: seq<Swing>, swing: Swing, k: nat)
    requires InRange(bars, swings + [swing]) && InRange(bars, swings) && k < |swings|
    ensures Decided(bars, swings + [swing], k) <==> Decided(bars, swings, k)
    ensures forall e :: ReportedBy(bars, config, swings + [swing], k, e) <==> ReportedBy(bars, config, swings, k, e)
  {
    hide IsReport, StillPending;
    var all := swings + [swing];
    assert forall m :: 0 <= m <= k ==> all[m] == swings[m];
    forall j: nat ensures IsPrevious(all, j, k) <==> IsPrevious(swings, j, k) {
    }
  }

  /** A scan reports every decided break of a swing past the latest one of its kind, as it is
      decided, and nothing else. */
  lemma {:induction false} ScanIsExact(bars: seq<Bar>, swings: seq<Swing>, config: MarketConfig) returns (at: seq<nat>)
    requires InRange(bars, swings)
    ensures Reports(bars, config, swings, ScanRun(bars, swings, config).events, at)
  {
    hide Reported, Decided, ReportedBy;
    if swings == [] {
      at := [];
    } else {
      var k := |swings| - 1;
      var rest, swing := swings[..k], swings[k];
      var before := ScanIsExact(bars, rest, config);
      LastReports(bars, swings, config);
      assert rest + [swing] == swings;
      forall m: nat | m < k
        ensures Decided(bars, swings, m) <==> Decided(bars, rest, m)
      {
        EarlierStand(bars, config, rest, swing, m);
      }
      var events := ScanRun(bars, rest, config).events;
      forall i | 0 <= i < |before| ensures before[i] < k && ReportedBy(bars, config, swings, before[i], events[i]) {
        assert ReportedBy(bars, config, rest, before[i], events[i]);
        EarlierStand(bars, config, rest, swing, before[i]);
      }
      at := if Decided(bars, swings, k) then before + [k] else before;
      var r := Reported(bars, ScanRun(bars, rest, config), swing, config).0;
      ReportsPush(bars, config, swings, events, before, r, at);
    }
  }

  lemma {:induction false} ReportsPush(
    bars: seq<Bar>, config: MarketConfig, swings: seq<Swing>, events: seq<StructureEvent>, before: seq<nat>,
    r: seq<StructureEvent>, at: seq<nat>)
    requires InRange(bars, swings) && swings != [] && |before| == |events|
    requires forall i :: 0 <= i < |before| ==> before[i] < |swings| - 1 && ReportedBy(bars, config, swings, before[i], events[i])
    requires forall i, j :: 0 <= i < j < |before| ==> before[i] < before[j]
    requires forall k :: 0 <= k < |swings| - 1 ==> (k in before <==> Decided(bars, swings, k))
    requires Decided(bars, swings, |swings| - 1) ==>
               |r| == 1 && ReportedBy(bars, config, swings, |swings| - 1, r[0]) && at == before + [|swings| - 1]
    requires !Decided(bars, swings, |swings| - 1) ==> r == [] && at == before
    ensures Reports(bars, config, swings, events + r, at)
  {
    hide Decided, ReportedBy;
    forall k | 0 <= k < |swings| ensures k in at <==> Decided(bars, swings, k) {
      if k == |swings| - 1 {
        assert k !in before;
      }
    }
  }

  datatype Trend = TrendUp | TrendDown | TrendRange

  function TrendOf(side: Side): Trend { if side == UpSide then TrendUp else TrendDown }

  predicate IsHigh(s: Swing) { s.kind == High }

  predicate IsLow(s: Swing) { s.kind == Low }

  /** The last two elements, newest first, or as many as there are. */
  function LatestTwo<T>(s: seq<T>): (r: seq<T>) {
    if |s| >= 2 then [s[|s| - 1], s[|s| - 2]] else s
  }

  /** `marketTrend`: the last confirmed break, else a range, else the last two highs and lows. */
  method MarketTrend(swings: seq<Swing>, events: seq<StructureEvent>, hasRange: bool) returns (trend: Trend)
    ensures match FinalSide(ConfirmedEvents(events))
            case Some(side) => trend == TrendOf(side)
            case None =>
              var highs, lows := LatestTwo(Filter(IsHigh, swings)), LatestTwo(Filter(IsLow, swings));
              trend == if hasRange || |highs| < 2 || |lows| < 2 then TrendRange
                       else if highs[0].price > highs[1].price && lows[0].price > lows[1].price then TrendUp
                       else if highs[0].price < highs[1].price && lows[0].price < lows[1].price then TrendDown
                       else TrendRange
  {
    var index := |events|;
    assert events[..index] == events;
    while index > 0
      invariant 0 <= index <= |events|
      invariant ConfirmedEvents(events[..index]) == ConfirmedEvents(events)
    {
      index := index - 1;
      assert events[..index + 1][..index] == events[..index];
      if events[index].kind != FAKE {
        return TrendOf(events[index].side);
      }
    }
    if hasRange {
      return TrendRange;
    }
    var highs, lows := ComputeLatestTwo(swings);
    if |highs| == 2 && |lows| == 2 {
      if highs[0].price > highs[1].price && lows[0].price > lows[1].price {
        return TrendUp;
      }
      if highs[0].price < highs[1].price && lows[0].price < lows[1].price {
        return TrendDown;
      }
    }
    return TrendRange;
  }

  /** With `rest` still unread of `all`, `found` are the newest of what was read. */
  ghost predicate Newest(found: seq<Swing>, all: seq<Swing>, rest: seq<Swing>) {
    && rest <= all
    && |found| <= 2
    && (|found| < 2 ==> |all| == |rest| + |found|)
    && (|found| == 1 ==> found == [all[|all| - 1]])
    && (|found| == 2 ==> |all| >= 2 && found == LatestTwo(all))
  }

  method ComputeLatestTwo(swings: seq<Swing>) returns (highs: seq<Swing>, lows: seq<Swing>)
    ensures |highs| == 2 <==> |Filter(IsHigh, swings)| >= 2
    ensures |lows| == 2 <==> |Filter(IsLow, swings)| >= 2
    ensures |highs| == 2 ==> highs == LatestTwo(Filter(IsHigh, swings))
    ensures |lows| == 2 ==> lows == LatestTwo(Filter(IsLow, swings))
  {
    hide Filter;
    highs, lows := [], [];
    ghost var allHighs, allLows := Filter(IsHigh, swings), Filter(IsLow, swings);
    var index := |swings|;
    assert swings[..index] == swings;
    while index > 0 && (|highs| < 2 || |lows| < 2)
      invariant 0 <= index <= |swings|
      invariant Newest(highs, allHighs, Filter(IsHigh, swings[..index]))
      invariant Newest(lows, allLows, Filter(IsLow, swings[..index]))
    {
      index := index - 1;
      FilterTake(IsHigh, swings, index);
      FilterTake(IsLow, swings, index);
      if swings[index].kind == High && |highs| < 2 {
        highs := highs + [swings[index]];
      } else if swings[index].kind == Low && |lows| < 2 {
        lows := lows + [swings[index]];
      }
    }
    assert index == 0 ==> Filter(IsHigh, swings[..index]) == [] && Filter(IsLow, swings[..index]) == [];
  }

  /** The public trend follows the scan's own trend whenever any break was confirmed. */
  lemma {:induction false} TrendFollowsScan(bars: seq<Bar>, swings: seq<Swing>, config: MarketConfig)
    requires InRange(bars, swings)
    ensures FinalSide(ConfirmedEvents(ScanRun(bars, swings, config).events)) == ScanRun(bars, swings, config).trend
  {
    ScanIsClassified(bars, swings, config);
  }
}
