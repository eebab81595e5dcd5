/** Candles, series keys and the notions every other module shares. */
module Model {

  datatype Option<+T> = None | Some(value: T)

  const MAX_UINT64: int := 0xFFFF_FFFF_FFFF_FFFF

  type UInt64 = x: int | 0 <= x <= MAX_UINT64

  /** Moving-average periods are positive. */
  type Period = p: nat | p >= 1 witness 1

  datatype SeriesKey = SeriesKey(dataset: string, symbol: string, timeframe: string)

  /** One OHLCV candle. `time` is the open time; 0 stands for Go's zero time. */
  datatype Bar = Bar(
    symbol: string,
    timeframe: string,
    time: nat,
    open: real,
    high: real,
    low: real,
    close: real,
    volume: real,
    trades: UInt64,
    closed: bool)

  /** The SHA-256 digest of a candle, kept as the hashed tuple. Symbol and
      timeframe are hashed back to back, and the open time is not hashed. */
  datatype Fingerprint = Fingerprint(
    market: string, open: real, high: real, low: real, close: real, volume: real, trades: UInt64)

  function FingerprintOf(bar: Bar): Fingerprint {
    Fingerprint(bar.symbol + bar.timeframe, bar.open, bar.high, bar.low, bar.close, bar.volume, bar.trades)
  }

  predicate ValidBar(key: SeriesKey, bar: Bar) {
    && bar.symbol == key.symbol
    && bar.timeframe == key.timeframe
    && bar.time != 0
    && bar.low <= bar.high
    && bar.open <= bar.high
    && bar.close <= bar.high
    && bar.low <= bar.open
    && bar.low <= bar.close
    && 0.0 <= bar.volume
  }

  /** Confirmation takes the revision after the accepted-trade count, saturating at the top. */
  function RevisionForBar(bar: Bar): UInt64 {
    if bar.closed && bar.trades < MAX_UINT64 then bar.trades + 1 else bar.trades
  }

  /** Two valid closed candles of one series at one time are equal exactly when their digests are. */
  lemma FingerprintIdentifiesBar(key: SeriesKey, a: Bar, b: Bar)
    requires ValidBar(key, a) && ValidBar(key, b)
    requires a.closed == b.closed && a.time == b.time
    ensures FingerprintOf(a) == FingerprintOf(b) <==> a == b
  {
  }

  function BarTime(bar: Bar): int { bar.time }

  predicate StrictlyIncreasing(bars: seq<Bar>) {
    forall i, j :: 0 <= i < j < |bars| ==> bars[i].time < bars[j].time
  }

  /** A history: valid closed candles of one series in strictly increasing time. */
  predicate History(key: SeriesKey, bars: seq<Bar>) {
    && StrictlyIncreasing(bars)
    && forall i :: 0 <= i < |bars| ==> bars[i].closed && ValidBar(key, bars[i])
  }

  lemma HistoryPrefix(key: SeriesKey, bars: seq<Bar>, n: nat)
    requires History(key, bars) && n <= |bars|
    ensures History(key, bars[..n])
  {
  }

  function Closes(bars: seq<Bar>): (r: seq<real>)
    ensures |r| == |bars|
    ensures forall i :: 0 <= i < |bars| ==> r[i] == bars[i].close
  {
    seq(|bars|, i requires 0 <= i < |bars| => bars[i].close)
  }

  /** The last `n` elements, or all of them when there are fewer. */
  function Suffix<T>(s: seq<T>, n: nat): (r: seq<T>)
    ensures |r| == if |s| <= n then |s| else n
  {
    if |s| <= n then s else s[|s| - n..]
  }

  function Filter<T>(p: T -> bool, s: seq<T>): (r: seq<T>)
    ensures |r| <= |s|
  {
    if s == [] then []
    else
      var rest := Filter(p, s[..|s| - 1]);
      var x := s[|s| - 1];
      if p(x) then rest + [x] else rest
  }

  lemma {:induction false} FilterMember<T>(p: T -> bool, s: seq<T>, x: T)
    requires x in Filter(p, s)
    ensures x in s && p(x)
  {
    var rest := Filter(p, s[..|s| - 1]);
    if x in rest {
      FilterMember(p, s[..|s| - 1], x);
    }
  }

  lemma {:induction false} FilterKeeps<T>(p: T -> bool, s: seq<T>, x: T)
    requires x in s && p(x)
    ensures x in Filter(p, s)
  {
    if x != s[|s| - 1] {
      var i :| 0 <= i < |s| && s[i] == x;
      assert x == s[..|s| - 1][i];
      FilterKeeps(p, s[..|s| - 1], x);
    }
  }

  lemma {:induction false} FilterConcat<T>(p: T -> bool, s: seq<T>, t: seq<T>)
    ensures Filter(p, s + t) == Filter(p, s) + Filter(p, t)
  {
    if t == [] {
      assert s + t == s;
    } else {
      assert (s + t)[..|s + t| - 1] == s + t[..|t| - 1];
      FilterConcat(p, s, t[..|t| - 1]);
    }
  }

  /** What a prefix selects is a prefix of what the whole selects. */
  lemma {:induction false} PrefixFilter<T>(p: T -> bool, s: seq<T>, n: nat)
    requires n <= |s|
    ensures Filter(p, s[..n]) <= Filter(p, s)
    decreases |s| - n
  {
    hide Filter;
    if n == |s| {
      assert s[..n] == s;
    } else {
      PrefixFilter(p, s, n + 1);
      FilterTake(p, s, n);
    }
  }

  lemma {:induction false} FilterTake<T>(p: T -> bool, s: seq<T>, i: nat)
    requires i < |s|
    ensures Filter(p, s[..i + 1]) == Filter(p, s[..i]) + if p(s[i]) then [s[i]] else []
  {
    assert s[..i + 1][..i] == s[..i];
  }

  lemma {:induction false} FilterAll<T>(p: T -> bool, s: seq<T>)
    requires forall x :: x in s ==> p(x)
    ensures Filter(p, s) == s
  {
    if s != [] {
      assert s == s[..|s| - 1] + [s[|s| - 1]];
      FilterAll(p, s[..|s| - 1]);
    }
  }

  lemma {:induction false} FilterNone<T>(p: T -> bool, s: seq<T>)
    requires forall x :: x in s ==> !p(x)
    ensures Filter(p, s) == []
  {
    if s != [] {
      FilterNone(p, s[..|s| - 1]);
    }
  }

  lemma {:induction false} FilterAgrees<T>(p: T -> bool, q: T -> bool, s: seq<T>)
    requires forall x :: x in s ==> p(x) == q(x)
    ensures Filter(p, s) == Filter(q, s)
  {
    if s != [] {
      FilterAgrees(p, q, s[..|s| - 1]);
    }
  }

  function Max(a: real, b: real): real { if a >= b then a else b }

  function Min(a: real, b: real): real { if a <= b then a else b }

  function Abs(a: real): real { if a >= 0.0 then a else -a }

  // ---- Price zones -------------------------------------------------------

  datatype Side = UpSide | DownSide

  datatype ZoneKind = Gap | OrderBlock | FalseBreak

  datatype ZoneGrade = Ungraded | Weak | Strong

  datatype ZoneState = Unset | Active | Touched

  /** The hashed identity of a zone, kept as the hashed tuple. */
  datatype ZoneId = ZoneId(kind: ZoneKind, side: Side, time: nat, top: real, bottom: real)

  datatype PriceZone = PriceZone(
    id: ZoneId,
    kind: ZoneKind,
    side: Side,
    grade: ZoneGrade,
    fromTime: nat,
    toTime: nat,
    top: real,
    bottom: real,
    state: ZoneState)
}
