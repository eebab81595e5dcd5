/** Average true range and the ATR-driven zigzag
    (internal/indicator/market.go:352-402). */
module Zigzag {
  import opened Model
  import opened Candles

  // ---- Average true range ------------------------------------------------

  function TrueRange(bars: seq<Bar>, i: nat): real
    requires i < |bars|
  {
    var r := bars[i].high - bars[i].low;
    if i == 0 then r
    else Max(Max(r, Abs(bars[i].high - bars[i - 1].close)), Abs(bars[i].low - bars[i - 1].close))
  }

  function TrueRangeSum(bars: seq<Bar>, n: nat): real
    requires n <= |bars|
  {
    if n == 0 then 0.0 else TrueRangeSum(bars, n - 1) + TrueRange(bars, n - 1)
  }

  function Mean(sum: real, n: nat): real
    requires n > 0
  {
    sum / n as real
  }

  function Smooth(previous: real, range: real, period: nat): real
    requires period >= 1
  {
    (previous * (period - 1) as real + range) / period as real
  }

  /** A running mean for the first `period` candles, Wilder smoothing after. */
  function Atr(bars: seq<Bar>, period: nat, i: nat): real
    requires period >= 1 && i < |bars|
  {
    if i < period then Mean(TrueRangeSum(bars, i + 1), i + 1)
    else Smooth(Atr(bars, period, i - 1), TrueRange(bars, i), period)
  }

  method AverageTrueRange(bars: seq<Bar>, period: nat) returns (out: seq<real>)
    requires period >= 1
    ensures |out| == |bars|
    ensures forall i :: 0 <= i < |bars| ==> out[i] == Atr(bars, period, i)
    ensures AreAverages(bars, period, out)
  {
    hide Mean, Smooth;
    out := [];
    var sum := 0.0;
    for index := 0 to |bars|
      invariant |out| == index
      invariant index <= period ==> sum == TrueRangeSum(bars, index)
      invariant forall i :: 0 <= i < index ==> out[i] == Atr(bars, period, i)
    {
      var trueRange := bars[index].high - bars[index].low;
      if index > 0 {
        trueRange := Max(Max(trueRange, Abs(bars[index].high - bars[index - 1].close)),
          Abs(bars[index].low - bars[index - 1].close));
      }
      if index < period {
        sum := sum + trueRange;
        out := out + [Mean(sum, index + 1)];
      } else {
        out := out + [Smooth(out[index - 1], trueRange, period)];
      }
    }
    AveragesOf(bars, period, out);
  }

  /** The largest of a candle's own range and the distances of its ends from the last close. */
  predicate IsTrueRange(bars: seq<Bar>, i: nat, t: real)
    requires i < |bars|
  {
    var own := bars[i].high - bars[i].low;
    if i == 0 then t == own
    else
      var up, down := Abs(bars[i].high - bars[i - 1].close), Abs(bars[i].low - bars[i - 1].close);
      own <= t && up <= t && down <= t && (t == own || t == up || t == down)
  }

  /** How many parts the average at a candle is made of, the newest range being one. */
  function Parts(period: nat, i: nat): nat { if i < period then i + 1 else period }

  predicate AverageHolds(bars: seq<Bar>, period: nat, out: seq<real>, i: nat, t: real)
    requires i < |bars| == |out|
  {
    && IsTrueRange(bars, i, t)
    && Parts(period, i) as real * out[i] == t + if i == 0 then 0.0 else (Parts(period, i) - 1) as real * out[i - 1]
  }

  /** The mean of the true ranges so far for the first `period` candles; after that each new
      range counts one part in `period`. */
  ghost predicate AreAverages(bars: seq<Bar>, period: nat, out: seq<real>) {
    |out| == |bars| && forall i :: 0 <= i < |bars| ==> IsAverage(bars, period, out, i)
  }

  ghost predicate IsAverage(bars: seq<Bar>, period: nat, out: seq<real>, i: nat)
    requires i < |bars| == |out|
  {
    exists t :: AverageHolds(bars, period, out, i, t)
  }

  lemma {:induction false} AveragesOf(bars: seq<Bar>, period: nat, out: seq<real>)
    requires period >= 1 && |out| == |bars| && forall i :: 0 <= i < |bars| ==> out[i] == Atr(bars, period, i)
    ensures AreAverages(bars, period, out)
  {
    hide Atr, TrueRange, IsTrueRange;
    forall i | 0 <= i < |bars| ensures IsAverage(bars, period, out, i) {
      LargestRangeIs(bars, i);
      AverageAt(bars, period, i);
      assert AverageHolds(bars, period, out, i, TrueRange(bars, i));
    }
  }

  lemma LargestRangeIs(bars: seq<Bar>, i: nat)
    requires i < |bars|
    ensures IsTrueRange(bars, i, TrueRange(bars, i))
  {
  }

  lemma {:induction false} AverageAt(bars: seq<Bar>, period: nat, i: nat)
    requires period >= 1 && i < |bars|
    ensures Parts(period, i) as real * Atr(bars, period, i) ==
            TrueRange(bars, i) + if i == 0 then 0.0 else (Parts(period, i) - 1) as real * Atr(bars, period, i - 1)
  {
    hide Mean, Smooth, TrueRange;
    if i < period {
      MeanBack(TrueRangeSum(bars, i + 1), i + 1);
      if i > 0 {
        MeanBack(TrueRangeSum(bars, i), i);
      } else {
        assert TrueRangeSum(bars, 0) == 0.0;
      }
    } else {
      SmoothBack(Atr(bars, period, i - 1), TrueRange(bars, i), period);
    }
  }

  lemma MeanBack(sum: real, n: nat)
    requires n > 0
    ensures n as real * Mean(sum, n) == sum
  {
  }

  lemma SmoothBack(previous: real, range: real, period: nat)
    requires period >= 1
    ensures period as real * Smooth(previous, range, period) == range + (period - 1) as real * previous
  {
  }

  predicate Consistent(bars: seq<Bar>) {
    forall i :: 0 <= i < |bars| ==> bars[i].low <= bars[i].high
  }

  lemma {:induction false} TrueRangeSumBounded(bars: seq<Bar>, n: nat, top: real)
    requires Consistent(bars) && n <= |bars|
    requires forall i :: 0 <= i < n ==> TrueRange(bars, i) <= top
    ensures 0.0 <= TrueRangeSum(bars, n) <= n as real * top
  {
    hide TrueRange;
    if n > 0 {
      TrueRangeSumBounded(bars, n - 1, top);
      AddOne((n - 1) as real, top);
      TrueRangeNonNegative(bars, n - 1);
    }
  }

  lemma TrueRangeNonNegative(bars: seq<Bar>, i: nat)
    requires Consistent(bars) && i < |bars|
    ensures TrueRange(bars, i) >= 0.0
  {
  }

  lemma AddOne(n: real, top: real)
    ensures n * top + top == (n + 1.0) * top
  {
  }

  lemma {:induction false} MeanBounded(sum: real, n: nat, top: real)
    requires n > 0 && 0.0 <= sum <= n as real * top
    ensures 0.0 <= Mean(sum, n) <= top
  {
    QuotientBounded(sum, n as real, top);
  }

  lemma QuotientBounded(a: real, b: real, top: real)
    requires b > 0.0 && 0.0 <= a <= b * top
    ensures 0.0 <= a / b <= top
  {
  }

  /** The average lies between zero and the largest true range so far. */
  lemma {:induction false} AtrBounded(bars: seq<Bar>, period: nat, i: nat, top: real)
    requires Consistent(bars) && period >= 1 && i < |bars|
    requires forall k :: 0 <= k <= i ==> TrueRange(bars, k) <= top
    ensures 0.0 <= Atr(bars, period, i) <= top
  {
    hide Mean, Smooth, TrueRange, TrueRangeSum;
    if i < period {
      TrueRangeSumBounded(bars, i + 1, top);
      MeanBounded(TrueRangeSum(bars, i + 1), i + 1, top);
    } else {
      AtrBounded(bars, period, i - 1, top);
      TrueRangeNonNegative(bars, i);
      SmoothBounded(Atr(bars, period, i - 1), TrueRange(bars, i), period, top);
    }
  }

  lemma {:induction false} SmoothBounded(previous: real, range: real, period: nat, top: real)
    requires 0.0 <= previous <= top && 0.0 <= range <= top && period >= 1
    ensures 0.0 <= Smooth(previous, range, period) <= top
  {
    var k := (period - 1) as real;
    ProductBounded(k, previous, top);
    AddOne(k, top);
    QuotientBounded(previous * k + range, period as real, top);
  }

  lemma ProductBounded(k: real, x: real, top: real)
    requires 0.0 <= k && 0.0 <= x <= top
    ensures 0.0 <= x * k <= k * top
  {
  }

  lemma {:induction false} TrueRangeSumIsCausal(bars: seq<Bar>, n: nat, k: nat)
    requires k <= n <= |bars|
    ensures TrueRangeSum(bars[..n], k) == TrueRangeSum(bars, k)
  {
    if k > 0 {
      TrueRangeSumIsCausal(bars, n, k - 1);
    }
  }

  lemma {:induction false} AtrIsCausal(bars: seq<Bar>, period: nat, n: nat, i: nat)
    requires period >= 1 && i < n <= |bars|
    ensures Atr(bars[..n], period, i) == Atr(bars, period, i)
  {
    hide Mean, Smooth;
    if i < period {
      TrueRangeSumIsCausal(bars, n, i + 1);
    } else {
      AtrIsCausal(bars, period, n, i - 1);
      assert TrueRange(bars[..n], i) == TrueRange(bars, i);
    }
  }

  // ---- Zigzag ------------------------------------------------------------

  datatype SwingKind = High | Low

  datatype Swing = Swing(index: nat, kind: SwingKind, price: real, time: nat, confirmIndex: nat, confirmTime: nat)

  /** How far price must turn before a swing is confirmed. */
  function Deviation(config: MarketConfig, atr: real, price: real): real {
    if price <= 0.0 then config.minSwingPct else Max(config.minSwingPct, config.atrMult * atr / price)
  }

  function Drop(price: real, fraction: real): real { price * (1.0 - fraction) }

  function Rise(price: real, fraction: real): real { price * (1.0 + fraction) }

  /** Direction 1 seeks a high, -1 a low, 0 either. */
  datatype ZigState = ZigState(direction: int, high: nat, low: nat, swings: seq<Swing>)

  function SwingHigh(bars: seq<Bar>, at: nat, confirm: nat): Swing
    requires at < |bars| && confirm < |bars|
  {
    Swing(at, High, bars[at].high, bars[at].time, confirm, bars[confirm].time)
  }

  function SwingLow(bars: seq<Bar>, at: nat, confirm: nat): Swing
    requires at < |bars| && confirm < |bars|
  {
    Swing(at, Low, bars[at].low, bars[at].time, confirm, bars[confirm].time)
  }

  predicate TurnsDown(bars: seq<Bar>, config: MarketConfig, index: nat, high: nat)
    requires config.atrPeriod >= 1 && index < |bars| && high < |bars|
  {
    var top := bars[high].high;
    bars[index].low <= Drop(top, Deviation(config, Atr(bars, config.atrPeriod, index), top))
  }

  predicate TurnsUp(bars: seq<Bar>, config: MarketConfig, index: nat, low: nat)
    requires config.atrPeriod >= 1 && index < |bars| && low < |bars|
  {
    var bottom := bars[low].low;
    bars[index].high >= Rise(bottom, Deviation(config, Atr(bars, config.atrPeriod, index), bottom))
  }

  function ZigStep(bars: seq<Bar>, config: MarketConfig, index: nat, s: ZigState): ZigState
    requires config.atrPeriod >= 1 && index < |bars| && s.high < |bars| && s.low < |bars|
  {
    var high := if bars[index].high > bars[s.high].high then index else s.high;
    var low := if bars[index].low < bars[s.low].low then index else s.low;
    if s.direction >= 0 && TurnsDown(bars, config, index, high) then
      ZigState(-1, high, index, s.swings + [SwingHigh(bars, high, index)])
    else if s.direction <= 0 && TurnsUp(bars, config, index, low) then
      ZigState(1, index, low, s.swings + [SwingLow(bars, low, index)])
    else ZigState(s.direction, high, low, s.swings)
  }

  /** The state after the first `n` candles. */
  function ZigRun(bars: seq<Bar>, config: MarketConfig, n: nat): (s: ZigState)
    requires config.atrPeriod >= 1 && 1 <= n <= |bars|
    ensures s.high < n && s.low < n
  {
    if n == 1 then ZigState(0, 0, 0, [])
    else ZigStep(bars, config, n - 1, ZigRun(bars, config, n - 1))
  }

  function ZigzagSwings(bars: seq<Bar>, config: MarketConfig): seq<Swing>
    requires config.atrPeriod >= 1
  {
    if bars == [] then [] else ZigRun(bars, config, |bars|).swings
  }

  method ComputeZigzag(bars: seq<Bar>, config: MarketConfig) returns (swings: seq<Swing>)
    requires config.atrPeriod >= 1
    ensures swings == ZigzagSwings(bars, config)
  {
    hide Atr, Deviation, Drop, Rise, AreAverages;
    var atr := AverageTrueRange(bars, config.atrPeriod);
    swings := [];
    var direction, highIndex, lowIndex := 0, 0, 0;
    var index := 1;
    while index < |bars|
      invariant bars != [] ==> 1 <= index <= |bars|
      invariant bars != [] ==> ZigRun(bars, config, index) == ZigState(direction, highIndex, lowIndex, swings)
      invariant bars == [] ==> swings == []
    {
      if bars[index].high > bars[highIndex].high {
        highIndex := index;
      }
      if bars[index].low < bars[lowIndex].low {
        lowIndex := index;
      }
      var top, bottom := bars[highIndex].high, bars[lowIndex].low;
      if direction >= 0 && bars[index].low <= Drop(top, Deviation(config, atr[index], top)) {
        swings := swings + [Swing(highIndex, High, top, bars[highIndex].time, index, bars[index].time)];
        direction, lowIndex := -1, index;
      } else if direction <= 0 && bars[index].high >= Rise(bottom, Deviation(config, atr[index], bottom)) {
        swings := swings + [Swing(lowIndex, Low, bottom, bars[lowIndex].time, index, bars[index].time)];
        direction, highIndex := 1, index;
      }
      index := index + 1;
    }
  }

  // ---- Causality ---------------------------------------------------------

  lemma {:induction false} ZigRunIsCausal(bars: seq<Bar>, config: MarketConfig, n: nat, k: nat)
    requires config.atrPeriod >= 1 && 1 <= k <= n <= |bars|
    ensures ZigRun(bars[..n], config, k) == ZigRun(bars, config, k)
  {
    if k > 1 {
      ZigRunIsCausal(bars, config, n, k - 1);
      var s := ZigRun(bars, config, k - 1);
      ZigStepIsCausal(bars, config, n, k - 1, s);
    }
  }

  lemma {:induction false} ZigStepIsCausal(bars: seq<Bar>, config: MarketConfig, n: nat, index: nat, s: ZigState)
    requires config.atrPeriod >= 1 && index < n <= |bars| && s.high < n && s.low < n
    ensures ZigStep(bars[..n], config, index, s) == ZigStep(bars, config, index, s)
  {
    hide Atr, Deviation, Drop, Rise;
    AtrIsCausal(bars, config.atrPeriod, n, index);
  }

  /** Later candles only append swings confirmed on them. */
  lemma {:induction false} SwingsGrow(bars: seq<Bar>, config: MarketConfig, k: nat, n: nat)
    requires config.atrPeriod >= 1 && 1 <= k <= n <= |bars|
    ensures var early, late := ZigRun(bars, config, k).swings, ZigRun(bars, config, n).swings;
            && early <= late
            && (forall i :: 0 <= i < |early| ==> early[i].confirmIndex < k)
            && (forall i :: |early| <= i < |late| ==> late[i].confirmIndex >= k)
    decreases n
  {
    hide TurnsDown, TurnsUp;
    if n > k {
      SwingsGrow(bars, config, k, n - 1);
    } else if k > 1 {
      SwingsGrow(bars, config, k - 1, k - 1);
    }
  }

  /** The zigzag of a prefix is exactly the swings of the whole run confirmed inside it. */
  lemma {:induction false} ZigzagIsCausal(bars: seq<Bar>, config: MarketConfig, n: nat)
    requires config.atrPeriod >= 1 && n <= |bars|
    ensures ZigzagSwings(bars[..n], config) ==
            Filter((s: Swing) => s.confirmIndex < n, ZigzagSwings(bars, config))
  {
    var within := (s: Swing) => s.confirmIndex < n;
    if n == 0 {
      FilterNone(within, ZigzagSwings(bars, config));
    } else {
      ZigRunIsCausal(bars, config, n, n);
      SwingsGrow(bars, config, n, |bars|);
      var early, late := ZigRun(bars, config, n).swings, ZigRun(bars, config, |bars|).swings;
      assert late == early + late[|early|..];
      FilterConcat(within, early, late[|early|..]);
      FilterAll(within, early);
      FilterNone(within, late[|early|..]);
    }
  }

  // ---- Extremality -------------------------------------------------------

  /** Where the hunt for swing `k` starts: the previous confirmation, or the first candle. */
  function HuntStart(swings: seq<Swing>, k: nat): nat
    requires k <= |swings|
  {
    if k == 0 then 0 else swings[k - 1].confirmIndex
  }

  predicate HighestIn(bars: seq<Bar>, at: nat, from: nat, to: nat) {
    && from <= at <= to < |bars|
    && (forall j :: from <= j <= to ==> bars[j].high <= bars[at].high)
    && (forall j :: from <= j < at ==> bars[j].high < bars[at].high)
  }

  predicate LowestIn(bars: seq<Bar>, at: nat, from: nat, to: nat) {
    && from <= at <= to < |bars|
    && (forall j :: from <= j <= to ==> bars[j].low >= bars[at].low)
    && (forall j :: from <= j < at ==> bars[j].low > bars[at].low)
  }

  /** Swing `k` is the first extreme candle between the previous confirmation and its own. */
  ghost predicate Extremal(bars: seq<Bar>, swings: seq<Swing>, k: nat)
    requires k < |swings|
  {
    var s := swings[k];
    && HuntStart(swings, k) <= s.index <= s.confirmIndex < |bars|
    && s.time == bars[s.index].time
    && s.confirmTime == bars[s.confirmIndex].time
    && match s.kind
       case High => s.price == bars[s.index].high && HighestIn(bars, s.index, HuntStart(swings, k), s.confirmIndex)
       case Low => s.price == bars[s.index].low && LowestIn(bars, s.index, HuntStart(swings, k), s.confirmIndex)
  }

  ghost predicate Alternating(swings: seq<Swing>) {
    forall k :: 0 < k < |swings| ==> swings[k].kind != swings[k - 1].kind
  }

  ghost predicate Sound(bars: seq<Bar>, swings: seq<Swing>) {
    && Alternating(swings)
    && forall k :: 0 <= k < |swings| ==> Extremal(bars, swings, k)
  }

  ghost predicate ZigInvariant(bars: seq<Bar>, n: nat, s: ZigState)
    requires 1 <= n <= |bars|
  {
    && Sound(bars, s.swings)
    && HuntStart(s.swings, |s.swings|) < n
    && (s.direction >= 0 ==> HighestIn(bars, s.high, HuntStart(s.swings, |s.swings|), n - 1))
    && (s.direction <= 0 ==> LowestIn(bars, s.low, HuntStart(s.swings, |s.swings|), n - 1))
    && (s.direction == 0 <==> s.swings == [])
    && (s.swings != [] ==> s.direction == if s.swings[|s.swings| - 1].kind == High then -1 else 1)
  }

  lemma {:induction false} SoundAppend(bars: seq<Bar>, swings: seq<Swing>, s: Swing)
    requires Sound(bars, swings)
    requires swings != [] ==> swings[|swings| - 1].kind != s.kind
    requires Extremal(bars, swings + [s], |swings|)
    ensures Sound(bars, swings + [s])
  {
    var all := swings + [s];
    forall k | 0 <= k < |all| ensures Extremal(bars, all, k) {
      if k < |swings| {
        assert Extremal(bars, swings, k);
        assert HuntStart(all, k) == HuntStart(swings, k);
      }
    }
  }

  lemma {:induction false} ZigStepKeeps(bars: seq<Bar>, config: MarketConfig, n: nat, s: ZigState)
    requires config.atrPeriod >= 1 && 1 <= n < |bars|
    requires s.high < |bars| && s.low < |bars|
    requires ZigInvariant(bars, n, s)
    ensures ZigInvariant(bars, n + 1, ZigStep(bars, config, n, s))
  {
    hide TurnsDown, TurnsUp, Sound, HighestIn, LowestIn;
    var high := if bars[n].high > bars[s.high].high then n else s.high;
    var low := if bars[n].low < bars[s.low].low then n else s.low;
    var from := HuntStart(s.swings, |s.swings|);
    if s.direction >= 0 {
      HighestGrows(bars, s.high, from, n);
    }
    if s.direction <= 0 {
      LowestGrows(bars, s.low, from, n);
    }
    OneCandle(bars, n);
    if s.direction >= 0 && TurnsDown(bars, config, n, high) {
      HighestBounds(bars, high, from, n);
      SoundAppend(bars, s.swings, SwingHigh(bars, high, n));
    } else if s.direction <= 0 && TurnsUp(bars, config, n, low) {
      LowestBounds(bars, low, from, n);
      SoundAppend(bars, s.swings, SwingLow(bars, low, n));
    }
  }

  /** One more candle: it is the new extreme, or the old one stays. */
  lemma {:induction false} HighestGrows(bars: seq<Bar>, at: nat, from: nat, n: nat)
    requires 1 <= n < |bars| && HighestIn(bars, at, from, n - 1)
    ensures HighestIn(bars, if bars[n].high > bars[at].high then n else at, from, n)
  {
    assert forall j :: from <= j <= n - 1 ==> bars[j].high <= bars[at].high;
  }

  lemma {:induction false} LowestGrows(bars: seq<Bar>, at: nat, from: nat, n: nat)
    requires 1 <= n < |bars| && LowestIn(bars, at, from, n - 1)
    ensures LowestIn(bars, if bars[n].low < bars[at].low then n else at, from, n)
  {
    assert forall j :: from <= j <= n - 1 ==> bars[j].low >= bars[at].low;
  }

  lemma OneCandle(bars: seq<Bar>, n: nat)
    requires n < |bars|
    ensures HighestIn(bars, n, n, n) && LowestIn(bars, n, n, n)
  {
  }

  lemma HighestBounds(bars: seq<Bar>, at: nat, from: nat, to: nat)
    requires HighestIn(bars, at, from, to)
    ensures from <= at <= to < |bars|
  {
  }

  lemma LowestBounds(bars: seq<Bar>, at: nat, from: nat, to: nat)
    requires LowestIn(bars, at, from, to)
    ensures from <= at <= to < |bars|
  {
  }

  lemma {:induction false} ZigRunInvariant(bars: seq<Bar>, config: MarketConfig, n: nat)
    requires config.atrPeriod >= 1 && 1 <= n <= |bars|
    ensures ZigInvariant(bars, n, ZigRun(bars, config, n))
  {
    if n > 1 {
      ZigRunInvariant(bars, config, n - 1);
      ZigStepKeeps(bars, config, n - 1, ZigRun(bars, config, n - 1));
    }
  }

  /** Swings alternate, follow one another, and each is the true extreme of its leg. */
  lemma {:induction false} ZigzagIsExtremal(bars: seq<Bar>, config: MarketConfig)
    requires config.atrPeriod >= 1
    ensures Sound(bars, ZigzagSwings(bars, config))
  {
    if bars != [] {
      ZigRunInvariant(bars, config, |bars|);
    }
  }

  // ---- Completeness ------------------------------------------------------

  /** A fall from `price` to `low` by the minimum share and by the minimum multiple of the average. */
  predicate FellEnough(config: MarketConfig, average: real, price: real, low: real) {
    if price <= 0.0 then low <= price - price * config.minSwingPct
    else price - low >= config.minSwingPct * price && price - low >= config.atrMult * average
  }

  predicate RoseEnough(config: MarketConfig, average: real, price: real, high: real) {
    if price <= 0.0 then high >= price + price * config.minSwingPct
    else high - price >= config.minSwingPct * price && high - price >= config.atrMult * average
  }

  lemma {:induction false} DeviationMeans(config: MarketConfig, average: real, price: real, d: real)
    ensures price <= 0.0 ==> price * Deviation(config, average, price) == price * config.minSwingPct
    ensures price > 0.0 ==>
              (d >= price * Deviation(config, average, price) <==>
               d >= config.minSwingPct * price && d >= config.atrMult * average)
  {
    if price > 0.0 {
      var part := config.atrMult * average;
      assert part / price * price == part;
      Scaled(config.minSwingPct, part / price, price);
    }
  }

  lemma {:induction false} TurnsMean(bars: seq<Bar>, config: MarketConfig, c: nat, at: nat)
    requires config.atrPeriod >= 1 && c < |bars| && at < |bars|
    ensures TurnsDown(bars, config, c, at) <==> FellEnough(config, Atr(bars, config.atrPeriod, c), bars[at].high, bars[c].low)
    ensures TurnsUp(bars, config, c, at) <==> RoseEnough(config, Atr(bars, config.atrPeriod, c), bars[at].low, bars[c].high)
  {
    hide Atr, Deviation, Drop, Rise;
    var average, top, bottom := Atr(bars, config.atrPeriod, c), bars[at].high, bars[at].low;
    DeviationMeans(config, average, top, top - bars[c].low);
    DeviationMeans(config, average, bottom, bars[c].high - bottom);
    DropIs(top, Deviation(config, average, top));
    DropIs(bottom, Deviation(config, average, bottom));
  }

  lemma DropIs(price: real, fraction: real)
    ensures Drop(price, fraction) == price - price * fraction && Rise(price, fraction) == price + price * fraction
  {
  }

  /** The true averages at every candle. */
  function AtrsOf(bars: seq<Bar>, period: nat): (r: seq<real>)
    requires period >= 1
    ensures |r| == |bars| && forall i :: 0 <= i < |bars| ==> r[i] == Atr(bars, period, i)
  {
    seq(|bars|, i requires 0 <= i < |bars| => Atr(bars, period, i))
  }

  /** Candle `c` stands far enough below the highest candle from `from` on. */
  ghost predicate Down(bars: seq<Bar>, config: MarketConfig, averages: seq<real>, from: nat, c: nat)
    requires c < |bars| == |averages|
  {
    exists at: nat :: HighestIn(bars, at, from, c) && FellEnough(config, averages[c], bars[at].high, bars[c].low)
  }

  ghost predicate Up(bars: seq<Bar>, config: MarketConfig, averages: seq<real>, from: nat, c: nat)
    requires c < |bars| == |averages|
  {
    exists at: nat :: LowestIn(bars, at, from, c) && RoseEnough(config, averages[c], bars[at].low, bars[c].high)
  }

  /** Candle `c` ends the hunt for swing `k`: a turn against what the last swing leaves to seek,
      either way before the first. */
  ghost predicate Turned(bars: seq<Bar>, config: MarketConfig, averages: seq<real>, swings: seq<Swing>, k: nat, c: nat)
    requires c < |bars| == |averages| && k <= |swings|
  {
    || ((k == 0 || swings[k - 1].kind == Low) && Down(bars, config, averages, HuntStart(swings, k), c))
    || ((k == 0 || swings[k - 1].kind == High) && Up(bars, config, averages, HuntStart(swings, k), c))
  }

  /** Swing `k` is confirmed by the first candle that turns, a turn down before a turn up. */
  ghost predicate ConfirmedFirst(bars: seq<Bar>, config: MarketConfig, averages: seq<real>, swings: seq<Swing>, k: nat)
    requires |bars| == |averages| && k < |swings|
  {
    var from, c := HuntStart(swings, k), swings[k].confirmIndex;
    && from < c < |bars|
    && (forall j :: from < j < c ==> !Turned(bars, config, averages, swings, k, j))
    && Turned(bars, config, averages, swings, k, c)
    && (k == 0 ==> (swings[k].kind == High <==> Down(bars, config, averages, from, c)))
  }

  /** After the last swing nothing turned. */
  ghost predicate NoneLeft(bars: seq<Bar>, config: MarketConfig, averages: seq<real>, swings: seq<Swing>, n: nat)
    requires n <= |bars| == |averages|
  {
    forall j :: HuntStart(swings, |swings|) < j < n ==> !Turned(bars, config, averages, swings, |swings|, j)
  }

  /** The zigzag of a candle list, over candles and averages alone. */
  ghost predicate IsZigzag(bars: seq<Bar>, config: MarketConfig, averages: seq<real>, swings: seq<Swing>)
    requires |bars| == |averages|
  {
    && Sound(bars, swings)
    && (forall k :: 0 <= k < |swings| ==> ConfirmedFirst(bars, config, averages, swings, k))
    && NoneLeft(bars, config, averages, swings, |bars|)
  }

  lemma {:induction false} OneHighest(bars: seq<Bar>, a: nat, b: nat, from: nat, to: nat)
    requires HighestIn(bars, a, from, to) && HighestIn(bars, b, from, to)
    ensures a == b
  {
    assert bars[a].high <= bars[b].high && bars[b].high <= bars[a].high;
  }

  lemma {:induction false} OneLowest(bars: seq<Bar>, a: nat, b: nat, from: nat, to: nat)
    requires LowestIn(bars, a, from, to) && LowestIn(bars, b, from, to)
    ensures a == b
  {
    assert bars[a].low <= bars[b].low && bars[b].low <= bars[a].low;
  }

  lemma {:induction false} DownIsTurn(bars: seq<Bar>, config: MarketConfig, from: nat, c: nat, at: nat)
    requires config.atrPeriod >= 1 && HighestIn(bars, at, from, c)
    ensures at < |bars| && c < |bars|
    ensures Down(bars, config, AtrsOf(bars, config.atrPeriod), from, c) <==> TurnsDown(bars, config, c, at)
  {
    HighestBounds(bars, at, from, c);
    hide HighestIn, TurnsDown, FellEnough, Atr;
    TurnsMean(bars, config, c, at);
    forall b: nat | HighestIn(bars, b, from, c) ensures b == at {
      OneHighest(bars, at, b, from, c);
    }
  }

  lemma {:induction false} UpIsTurn(bars: seq<Bar>, config: MarketConfig, from: nat, c: nat, at: nat)
    requires config.atrPeriod >= 1 && LowestIn(bars, at, from, c)
    ensures at < |bars| && c < |bars|
    ensures Up(bars, config, AtrsOf(bars, config.atrPeriod), from, c) <==> TurnsUp(bars, config, c, at)
  {
    LowestBounds(bars, at, from, c);
    hide LowestIn, TurnsUp, RoseEnough, Atr;
    TurnsMean(bars, config, c, at);
    forall b: nat | LowestIn(bars, b, from, c) ensures b == at {
      OneLowest(bars, at, b, from, c);
    }
  }

  /** Appending a swing leaves what is said of the earlier ones. */
  lemma {:induction false} EarlierSwings(
    bars: seq<Bar>, config: MarketConfig, averages: seq<real>, swings: seq<Swing>, s: Swing, k: nat)
    requires |bars| == |averages| && k < |swings| && ConfirmedFirst(bars, config, averages, swings, k)
    ensures ConfirmedFirst(bars, config, averages, swings + [s], k)
  {
    hide Down, Up;
    var all := swings + [s];
    assert HuntStart(all, k) == HuntStart(swings, k) && all[k] == swings[k] && (k > 0 ==> all[k - 1] == swings[k - 1]);
    assert forall j :: 0 <= j < |bars| ==>
                         (Turned(bars, config, averages, all, k, j) <==> Turned(bars, config, averages, swings, k, j));
  }

  ghost predicate CompleteUpTo(bars: seq<Bar>, config: MarketConfig, n: nat, swings: seq<Swing>)
    requires config.atrPeriod >= 1 && n <= |bars|
  {
    var averages := AtrsOf(bars, config.atrPeriod);
    && (forall k :: 0 <= k < |swings| ==> ConfirmedFirst(bars, config, averages, swings, k))
    && NoneLeft(bars, config, averages, swings, n)
  }

  /** Whether candle `n` turns, in terms of the running extremes. */
  lemma {:induction false} StepTurns(bars: seq<Bar>, config: MarketConfig, n: nat, s: ZigState)
    requires config.atrPeriod >= 1 && 1 <= n < |bars| && s.high < |bars| && s.low < |bars| && ZigInvariant(bars, n, s)
    ensures var high := if bars[n].high > bars[s.high].high then n else s.high;
            var low := if bars[n].low < bars[s.low].low then n else s.low;
            var averages, from := AtrsOf(bars, config.atrPeriod), HuntStart(s.swings, |s.swings|);
            && (s.direction >= 0 ==> (Down(bars, config, averages, from, n) <==> TurnsDown(bars, config, n, high)))
            && (s.direction <= 0 ==> (Up(bars, config, averages, from, n) <==> TurnsUp(bars, config, n, low)))
            && (Turned(bars, config, averages, s.swings, |s.swings|, n) <==>
                  (s.direction >= 0 && TurnsDown(bars, config, n, high)) || (s.direction <= 0 && TurnsUp(bars, config, n, low)))
  {
    hide HighestIn, LowestIn, TurnsDown, TurnsUp, Sound, Down, Up, AtrsOf;
    var from := HuntStart(s.swings, |s.swings|);
    if s.direction >= 0 {
      HighestGrows(bars, s.high, from, n);
      DownIsTurn(bars, config, from, n, if bars[n].high > bars[s.high].high then n else s.high);
    }
    if s.direction <= 0 {
      LowestGrows(bars, s.low, from, n);
      UpIsTurn(bars, config, from, n, if bars[n].low < bars[s.low].low then n else s.low);
    }
  }

  lemma {:induction false} StepCompletes(bars: seq<Bar>, config: MarketConfig, n: nat, s: ZigState)
    requires config.atrPeriod >= 1 && 1 <= n < |bars| && s.high < |bars| && s.low < |bars|
    requires ZigInvariant(bars, n, s) && CompleteUpTo(bars, config, n, s.swings)
    ensures CompleteUpTo(bars, config, n + 1, ZigStep(bars, config, n, s).swings)
  {
    hide HighestIn, LowestIn, TurnsDown, TurnsUp, Sound, Down, Up, AtrsOf;
    var averages, after := AtrsOf(bars, config.atrPeriod), ZigStep(bars, config, n, s).swings;
    StepTurns(bars, config, n, s);
    if after != s.swings {
      var added := after[|s.swings|];
      assert after == s.swings + [added];
      forall k | 0 <= k < |after| ensures ConfirmedFirst(bars, config, averages, after, k) {
        if k < |s.swings| {
          EarlierSwings(bars, config, averages, s.swings, added, k);
        } else {
          SameTurns(bars, config, averages, s.swings, added);
        }
      }
    }
  }

  lemma {:induction false} SameTurns(bars: seq<Bar>, config: MarketConfig, averages: seq<real>, swings: seq<Swing>, s: Swing)
    requires |bars| == |averages|
    ensures HuntStart(swings + [s], |swings|) == HuntStart(swings, |swings|)
    ensures forall j :: 0 <= j < |bars| ==>
              (Turned(bars, config, averages, swings + [s], |swings|, j) <==> Turned(bars, config, averages, swings, |swings|, j))
  {
    hide Down, Up;
    var all := swings + [s];
    assert |swings| > 0 ==> all[|swings| - 1] == swings[|swings| - 1];
  }

  lemma {:induction false} ZigRunCompletes(bars: seq<Bar>, config: MarketConfig, n: nat)
    requires config.atrPeriod >= 1 && 1 <= n <= |bars|
    ensures CompleteUpTo(bars, config, n, ZigRun(bars, config, n).swings)
  {
    hide ZigStep, CompleteUpTo, ZigInvariant;
    if n == 1 {
      NothingYet(bars, config);
    } else {
      ZigRunCompletes(bars, config, n - 1);
      ZigRunInvariant(bars, config, n - 1);
      StepCompletes(bars, config, n - 1, ZigRun(bars, config, n - 1));
    }
  }

  lemma NothingYet(bars: seq<Bar>, config: MarketConfig)
    requires config.atrPeriod >= 1 && bars != []
    ensures CompleteUpTo(bars, config, 1, [])
  {
  }

  /** The zigzag misses no swing: each is confirmed by the first candle that turns, and after the
      last none has turned. */
  lemma {:induction false} ZigzagIsComplete(bars: seq<Bar>, config: MarketConfig)
    requires config.atrPeriod >= 1
    ensures AreAverages(bars, config.atrPeriod, AtrsOf(bars, config.atrPeriod))
    ensures IsZigzag(bars, config, AtrsOf(bars, config.atrPeriod), ZigzagSwings(bars, config))
  {
    hide AreAverages, Sound, ConfirmedFirst, AtrsOf, Turned;
    AveragesOf(bars, config.atrPeriod, AtrsOf(bars, config.atrPeriod));
    ZigzagIsExtremal(bars, config);
    if bars != [] {
      ZigRunCompletes(bars, config, |bars|);
    }
  }

  // ---- Uniqueness --------------------------------------------------------

  lemma {:induction false} SameSwing(
    bars: seq<Bar>, config: MarketConfig, averages: seq<real>, a: seq<Swing>, b: seq<Swing>, k: nat)
    requires |bars| == |averages| && IsZigzag(bars, config, averages, a) && IsZigzag(bars, config, averages, b)
    requires k < |a| && k < |b| && a[..k] == b[..k]
    ensures a[k] == b[k]
  {
    hide Down, Up, HighestIn, LowestIn;
    assert k > 0 ==> a[k - 1] == a[..k][k - 1] == b[..k][k - 1] == b[k - 1];
    assert HuntStart(a, k) == HuntStart(b, k);
    assert ConfirmedFirst(bars, config, averages, a, k) && ConfirmedFirst(bars, config, averages, b, k);
    assert forall j :: 0 <= j < |bars| ==> (Turned(bars, config, averages, a, k, j) <==> Turned(bars, config, averages, b, k, j));
    var c := a[k].confirmIndex;
    assert c == b[k].confirmIndex;
    assert Extremal(bars, a, k) && Extremal(bars, b, k);
    assert a[k].kind == b[k].kind;
    if a[k].kind == High {
      OneHighest(bars, a[k].index, b[k].index, HuntStart(a, k), c);
    } else {
      OneLowest(bars, a[k].index, b[k].index, HuntStart(a, k), c);
    }
  }

  lemma {:induction false} SamePrefix(
    bars: seq<Bar>, config: MarketConfig, averages: seq<real>, a: seq<Swing>, b: seq<Swing>, k: nat)
    requires |bars| == |averages| && IsZigzag(bars, config, averages, a) && IsZigzag(bars, config, averages, b)
    requires k <= |a| && k <= |b|
    ensures a[..k] == b[..k]
  {
    hide IsZigzag;
    if k > 0 {
      SamePrefix(bars, config, averages, a, b, k - 1);
      SameSwing(bars, config, averages, a, b, k - 1);
      assert a[..k] == a[..k - 1] + [a[k - 1]] && b[..k] == b[..k - 1] + [b[k - 1]];
    }
  }

  /** A zigzag that ends before another one of the same candles misses its next swing. */
  lemma {:induction false} NotShorter(bars: seq<Bar>, config: MarketConfig, averages: seq<real>, a: seq<Swing>, b: seq<Swing>)
    requires |bars| == |averages| && IsZigzag(bars, config, averages, a) && IsZigzag(bars, config, averages, b)
    ensures |a| >= |b|
  {
    hide Turned, Sound;
    if |a| < |b| {
      SamePrefix(bars, config, averages, a, b, |a|);
      assert ConfirmedFirst(bars, config, averages, b, |a|);
      PrefixTurns(bars, config, averages, a, b, b[|a|].confirmIndex);
    }
  }

  lemma {:induction false} PrefixTurns(
    bars: seq<Bar>, config: MarketConfig, averages: seq<real>, a: seq<Swing>, b: seq<Swing>, c: nat)
    requires c < |bars| == |averages| && a <= b
    ensures HuntStart(a, |a|) == HuntStart(b, |a|)
    ensures Turned(bars, config, averages, a, |a|, c) <==> Turned(bars, config, averages, b, |a|, c)
  {
    hide Down, Up;
    assert a != [] ==> a[|a| - 1] == b[|a| - 1];
  }

  /** Candles and averages leave exactly one zigzag. */
  lemma {:induction false} ZigzagIsUnique(bars: seq<Bar>, config: MarketConfig, averages: seq<real>, a: seq<Swing>, b: seq<Swing>)
    requires |bars| == |averages| && IsZigzag(bars, config, averages, a) && IsZigzag(bars, config, averages, b)
    ensures a == b
  {
    hide IsZigzag;
    NotShorter(bars, config, averages, a, b);
    NotShorter(bars, config, averages, b, a);
    SamePrefix(bars, config, averages, a, b, |a|);
    assert a[..|a|] == a && b[..|b|] == b;
  }

  // ---- Distance between neighbours ---------------------------------------

  /** The later swing lies at least `pct` of the earlier price away, on its own side. */
  predicate Apart(pct: real, a: Swing, b: Swing) {
    if a.kind == High then b.price <= Drop(a.price, pct) else b.price >= Rise(a.price, pct)
  }

  ghost predicate AllApart(pct: real, swings: seq<Swing>) {
    forall k :: 0 < k < |swings| ==> Apart(pct, swings[k - 1], swings[k])
  }

  predicate PositivePrices(bars: seq<Bar>) {
    forall i :: 0 <= i < |bars| ==> bars[i].low > 0.0 && bars[i].high > 0.0
  }

  /** The candle that confirmed a swing already stands that far from it. */
  ghost predicate ConfirmedApart(bars: seq<Bar>, pct: real, s: Swing) {
    s.confirmIndex < |bars| &&
    if s.kind == High then bars[s.confirmIndex].low <= Drop(s.price, pct)
    else bars[s.confirmIndex].high >= Rise(s.price, pct)
  }

  lemma {:induction false} TurnImpliesDistance(bars: seq<Bar>, config: MarketConfig, index: nat, at: nat)
    requires config.atrPeriod >= 1 && index < |bars| && at < |bars| && PositivePrices(bars)
    ensures TurnsDown(bars, config, index, at) ==> bars[index].low <= Drop(bars[at].high, config.minSwingPct)
    ensures TurnsUp(bars, config, index, at) ==> bars[index].high >= Rise(bars[at].low, config.minSwingPct)
  {
    var atr := Atr(bars, config.atrPeriod, index);
    DeviationAtLeast(config, atr, bars[at].high);
    DeviationAtLeast(config, atr, bars[at].low);
    hide Atr, Deviation, Drop, Rise;
    ThresholdMono(bars[at].high, config.minSwingPct, Deviation(config, atr, bars[at].high));
    ThresholdMono(bars[at].low, config.minSwingPct, Deviation(config, atr, bars[at].low));
  }

  lemma DeviationAtLeast(config: MarketConfig, atr: real, price: real)
    ensures Deviation(config, atr, price) >= config.minSwingPct
  {
  }

  lemma ThresholdMono(p: real, a: real, b: real)
    requires p > 0.0 && a <= b
    ensures Drop(p, b) <= Drop(p, a)
    ensures Rise(p, a) <= Rise(p, b)
  {
  }

  lemma {:induction false} ZigRunConfirmed(bars: seq<Bar>, config: MarketConfig, n: nat)
    requires config.atrPeriod >= 1 && 1 <= n <= |bars| && PositivePrices(bars)
    ensures forall k :: 0 <= k < |ZigRun(bars, config, n).swings| ==>
              ConfirmedApart(bars, config.minSwingPct, ZigRun(bars, config, n).swings[k])
  {
    hide TurnsDown, TurnsUp, Drop, Rise;
    if n > 1 {
      ZigRunConfirmed(bars, config, n - 1);
      var s := ZigRun(bars, config, n - 1);
      var high := if bars[n - 1].high > bars[s.high].high then n - 1 else s.high;
      var low := if bars[n - 1].low < bars[s.low].low then n - 1 else s.low;
      TurnImpliesDistance(bars, config, n - 1, high);
      TurnImpliesDistance(bars, config, n - 1, low);
    }
  }

  /** With positive prices every adjacent pair is at least the minimum swing apart. */
  lemma {:induction false} ZigzagIsApart(bars: seq<Bar>, config: MarketConfig)
    requires config.atrPeriod >= 1 && PositivePrices(bars)
    ensures AllApart(config.minSwingPct, ZigzagSwings(bars, config))
  {
    hide Drop, Rise, ZigRun;
    if bars != [] {
      var swings := ZigzagSwings(bars, config);
      ZigzagIsExtremal(bars, config);
      ZigRunConfirmed(bars, config, |bars|);
      forall k | 0 < k < |swings| ensures Apart(config.minSwingPct, swings[k - 1], swings[k]) {
        assert ConfirmedApart(bars, config.minSwingPct, swings[k - 1]);
        assert Extremal(bars, swings, k);
        assert swings[k].kind != swings[k - 1].kind;
      }
    }
  }
}
