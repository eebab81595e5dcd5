/** Per-candle measurements and the market configuration
    (internal/indicator/market.go:19-53, 142-162, 404-423). */
module Candles {
  import opened Model

  datatype MarketConfig = MarketConfig(
    minSwingPct: real,
    atrPeriod: nat,
    atrMult: real,
    minPullbackFrac: real,
    secondMaruMin: real,
    bigVsReference: real,
    breakBodyBeyond: real,
    oppositeSmallMax: real,
    pacWindow: nat,
    recentBars: nat,
    fvgLookback: nat)

  const DEFAULT_CONFIG := MarketConfig(
    minSwingPct := 0.0005, atrPeriod := 14, atrMult := 2.0, minPullbackFrac := 0.6,
    secondMaruMin := 0.7, bigVsReference := 0.7, breakBodyBeyond := 0.3, oppositeSmallMax := 0.3,
    pacWindow := 4, recentBars := 400, fvgLookback := 300)

  /** Candle range, with the source's floor for a flat candle. */
  function Range(bar: Bar): real {
    var r := bar.high - bar.low;
    if r == 0.0 then 0.000000001 else r
  }

  function Body(bar: Bar): real { Abs(bar.close - bar.open) }

  function BodyRatio(bar: Bar): real { Body(bar) / Range(bar) }

  function Mid(bar: Bar): real { (bar.high + bar.low) / 2.0 }

  function CloseLocation(bar: Bar): real { (bar.close - bar.low) / Range(bar) }

  predicate ClosesUp(bar: Bar) { bar.close >= bar.open }

  predicate Directed(bar: Bar, direction: Side) {
    if direction == UpSide then bar.close > bar.open else bar.close < bar.open
  }

  predicate SimpleMarubozu(bar: Bar) { BodyRatio(bar) > 0.8 }

  predicate StructureMarubozu(bar: Bar, direction: Side) {
    && Directed(bar, direction)
    && (|| BodyRatio(bar) >= 0.7
        || (direction == UpSide && BodyRatio(bar) >= 0.5 && CloseLocation(bar) >= 0.9)
        || (direction == DownSide && BodyRatio(bar) >= 0.5 && CloseLocation(bar) <= 0.1))
  }

  predicate EitherMarubozu(bar: Bar) {
    BodyRatio(bar) >= 0.7 || (BodyRatio(bar) >= 0.5 && (CloseLocation(bar) >= 0.9 || CloseLocation(bar) <= 0.1))
  }

  // ---- What the ratios come to -------------------------------------------

  /** For a candle with some range, the marubozu tests without a division: the body against the
      range, and how near the close is to the end of it. */
  lemma {:induction false} MarubozuMeans(bar: Bar)
    requires bar.high > bar.low
    ensures var range, body := bar.high - bar.low, Abs(bar.close - bar.open);
            && (SimpleMarubozu(bar) <==> 10.0 * body > 8.0 * range)
            && (StructureMarubozu(bar, UpSide) <==>
                  && bar.close > bar.open
                  && (10.0 * body >= 7.0 * range || (2.0 * body >= range && 10.0 * (bar.close - bar.low) >= 9.0 * range)))
            && (StructureMarubozu(bar, DownSide) <==>
                  && bar.close < bar.open
                  && (10.0 * body >= 7.0 * range || (2.0 * body >= range && 10.0 * (bar.close - bar.low) <= range)))
            && (EitherMarubozu(bar) <==>
                  || 10.0 * body >= 7.0 * range
                  || (&& 2.0 * body >= range
                      && (10.0 * (bar.close - bar.low) >= 9.0 * range || 10.0 * (bar.close - bar.low) <= range)))
  {
    var range := bar.high - bar.low;
    var body, reach := Abs(bar.close - bar.open), bar.close - bar.low;
    Ratio(body, range, 0.8);
    Ratio(body, range, 0.7);
    Ratio(body, range, 0.5);
    Ratio(reach, range, 0.9);
    Ratio(reach, range, 0.1);
  }

  lemma {:induction false} Ratio(part: real, whole: real, k: real)
    requires whole > 0.0
    ensures (part / whole >= k <==> part >= k * whole) && (part / whole <= k <==> part <= k * whole)
  {
    var q := part / whole;
    assert q * whole == part;
    Scaled(q, k, whole);
  }

  lemma {:induction false} Scaled(a: real, b: real, k: real)
    requires k > 0.0
    ensures (a >= b <==> a * k >= b * k) && (a <= b <==> a * k <= b * k)
  {
    assert (a - b) * k == a * k - b * k;
    if a > b {
      assert (a - b) * k > 0.0;
    } else if a < b {
      assert (b - a) * k > 0.0;
      assert (b - a) * k == b * k - a * k;
    }
  }

  /** The largest range among the `left` nearest marubozu candles before `index`. */
  function ReferenceFrom(bars: seq<Bar>, index: nat, left: nat, maximum: real): real
    requires index <= |bars|
  {
    if index == 0 || left == 0 then maximum
    else if EitherMarubozu(bars[index - 1]) then
      ReferenceFrom(bars, index - 1, left - 1, Max(maximum, Range(bars[index - 1])))
    else ReferenceFrom(bars, index - 1, left, maximum)
  }

  function MarubozuReference(bars: seq<Bar>, index: nat): real
    requires index <= |bars|
  {
    ReferenceFrom(bars, index, 5, 0.0)
  }

  /** How many marubozu candles lie at `lo` up to `hi`. */
  function MarubozuCount(bars: seq<Bar>, lo: nat, hi: nat): nat
    requires hi <= |bars|
  {
    if hi <= lo then 0 else MarubozuCount(bars, lo, hi - 1) + if EitherMarubozu(bars[hi - 1]) then 1 else 0
  }

  /** A marubozu candle before `index` with fewer than `left` others in between. */
  predicate AmongNearest(bars: seq<Bar>, index: nat, left: nat, i: int)
    requires index <= |bars|
  {
    0 <= i < index && EitherMarubozu(bars[i]) && MarubozuCount(bars, i + 1, index) < left
  }

  /** The largest of zero and the ranges of those candles. */
  ghost predicate LargestRange(bars: seq<Bar>, index: nat, left: nat, floor: real, r: real)
    requires index <= |bars|
  {
    && r >= floor
    && (forall i :: AmongNearest(bars, index, left, i) ==> Range(bars[i]) <= r)
    && (r == floor || exists i :: AmongNearest(bars, index, left, i) && r == Range(bars[i]))
  }

  lemma {:induction false} NearestStep(bars: seq<Bar>, index: nat, left: nat, i: int)
    requires 0 < index <= |bars| && left > 0
    ensures EitherMarubozu(bars[index - 1]) ==>
              (AmongNearest(bars, index, left, i) <==> i == index - 1 || AmongNearest(bars, index - 1, left - 1, i))
    ensures !EitherMarubozu(bars[index - 1]) ==> (AmongNearest(bars, index, left, i) <==> AmongNearest(bars, index - 1, left, i))
  {
    hide EitherMarubozu;
  }

  lemma {:induction false} ReferenceIsLargest(bars: seq<Bar>, index: nat, left: nat, maximum: real)
    requires index <= |bars|
    ensures LargestRange(bars, index, left, maximum, ReferenceFrom(bars, index, left, maximum))
  {
    hide EitherMarubozu, Range;
    if index > 0 && left > 0 {
      hide AmongNearest;
      forall i { NearestStep(bars, index, left, i); }
      if EitherMarubozu(bars[index - 1]) {
        ReferenceIsLargest(bars, index - 1, left - 1, Max(maximum, Range(bars[index - 1])));
      } else {
        ReferenceIsLargest(bars, index - 1, left, maximum);
      }
    }
  }

  /** The largest range of the five nearest marubozu candles before `index`, zero without any. */
  method ComputeMarubozuReference(bars: seq<Bar>, index: nat) returns (maximum: real)
    requires index <= |bars|
    ensures maximum == MarubozuReference(bars, index)
    ensures LargestRange(bars, index, 5, 0.0, maximum)
  {
    var count, current := 0, index;
    maximum := 0.0;
    while current > 0 && count < 5
      invariant 0 <= current <= index && 0 <= count <= 5
      invariant ReferenceFrom(bars, current, 5 - count, maximum) == MarubozuReference(bars, index)
    {
      current := current - 1;
      if EitherMarubozu(bars[current]) {
        count := count + 1;
        maximum := Max(maximum, Range(bars[current]));
      }
    }
    ReferenceIsLargest(bars, index, 5, 0.0);
  }
}
