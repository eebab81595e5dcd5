/** The exponential moving average reducer, seeded with a simple average
    (internal/indicator/ema.go). Values are exact reals. */
module Ema {
  import opened Model

  datatype EmaState = EmaState(period: Period, samples: nat, seedSum: real, value: real) {
    predicate Ready() { samples >= period }
  }

  /** What the JSON snapshot carries. */
  datatype EmaSnapshot = EmaSnapshot(period: nat, samples: nat, seedSum: real, value: real)

  function NewEma(period: Period): EmaState { EmaState(period, 0, 0.0, 0.0) }

  function Multiplier(period: Period): real { 2.0 / (period + 1) as real }

  function Advance(e: EmaState, close: real): EmaState
  {
    var samples := e.samples + 1;
    if samples <= e.period then
      var seedSum := e.seedSum + close;
      e.(samples := samples, seedSum := seedSum,
         value := if samples == e.period then seedSum / e.period as real else e.value)
    else
      var m := Multiplier(e.period);
      e.(samples := samples, value := close * m + e.value * (1.0 - m))
  }

  function TakeSnapshot(e: EmaState): EmaSnapshot {
    EmaSnapshot(e.period, e.samples, e.seedSum, e.value)
  }

  /** Restoring rejects another period, and a value held before readiness. */
  function Restored(e: EmaState, snapshot: EmaSnapshot): Option<EmaState> {
    if snapshot.period != e.period || (snapshot.samples < e.period && snapshot.value != 0.0) then None
    else Some(EmaState(e.period, snapshot.samples, snapshot.seedSum, snapshot.value))
  }

  /** The reducer after a list of closes. */
  function EmaOf(period: Period, closes: seq<real>): (e: EmaState)
    ensures e.period == period && e.samples == |closes|
    ensures |closes| < period ==> e.value == 0.0
  {
    if closes == [] then NewEma(period)
    else Advance(EmaOf(period, closes[..|closes| - 1]), closes[|closes| - 1])
  }

  /** Every reachable reducer survives its own snapshot unchanged. */
  lemma {:induction false} SnapshotRoundTrip(period: Period, closes: seq<real>)
    ensures Restored(NewEma(period), TakeSnapshot(EmaOf(period, closes))) == Some(EmaOf(period, closes))
  {
    var e := EmaOf(period, closes);
    assert e.samples < period ==> e.value == 0.0;
  }

  // ---- Closed form -------------------------------------------------------

  function Power(b: real, e: nat): real {
    if e == 0 then 1.0 else Power(b, e - 1) * b
  }

  /** The weight of close `j` after `n` closes: an equal share of the seed or the smoothing
      factor, decayed once for every close since. */
  function Weight(period: Period, n: nat, j: nat): real
    requires period <= n && j < n
  {
    var factor := 2.0 / (period + 1) as real;
    if j < period then (1.0 / period as real) * Power(1.0 - factor, n - period)
    else factor * Power(1.0 - factor, n - 1 - j)
  }

  ghost predicate AreWeights(period: Period, w: seq<real>)
    requires period <= |w|
  {
    forall j :: 0 <= j < |w| ==> w[j] == Weight(period, |w|, j)
  }

  /** The sum of the first `k` products. */
  function Dot(w: seq<real>, c: seq<real>, k: nat): real
    requires k <= |w| && k <= |c|
  {
    if k == 0 then 0.0 else Dot(w, c, k - 1) + c[k - 1] * w[k - 1]
  }

  function Sum(s: seq<real>, k: nat): real
    requires k <= |s|
  {
    if k == 0 then 0.0 else Sum(s, k - 1) + s[k - 1]
  }

  lemma MulAssoc(a: real, b: real, c: real)
    ensures a * (b * c) == a * b * c
  {
  }

  lemma MulMono(w: real, x: real, y: real)
    requires 0.0 <= w && x <= y
    ensures x * w <= y * w
  {
  }

  lemma ScaleStep(dot: real, c: real, w: real, d: real)
    ensures (dot + c * w) * d == dot * d + c * (w * d)
  {
  }

  lemma {:induction false} DotScaled(w: seq<real>, v: seq<real>, d: real, c: seq<real>, k: nat)
    requires k <= |w| && k <= |v| && k <= |c|
    requires forall j :: 0 <= j < k ==> v[j] == w[j] * d
    ensures Dot(v, c, k) == Dot(w, c, k) * d
  {
    if k > 0 {
      DotScaled(w, v, d, c, k - 1);
      ScaleStep(Dot(w, c, k - 1), c[k - 1], w[k - 1], d);
    }
  }

  lemma {:induction false} DotConstant(w: seq<real>, a: real, c: seq<real>, k: nat)
    requires k <= |w| && k <= |c|
    requires forall j :: 0 <= j < k ==> w[j] == a
    ensures Dot(w, c, k) == Sum(c, k) * a
  {
    if k > 0 {
      DotConstant(w, a, c, k - 1);
      ScaleStep(Sum(c, k - 1), c[k - 1], 1.0, a);
    }
  }

  lemma {:induction false} DotPrefix(w: seq<real>, c: seq<real>, e: seq<real>, k: nat)
    requires k <= |w| && k <= |c| && k <= |e| && c[..k] == e[..k]
    ensures Dot(w, c, k) == Dot(w, e, k)
  {
    if k > 0 {
      assert c[..k - 1] == c[..k][..k - 1] == e[..k - 1];
      DotPrefix(w, c, e, k - 1);
      assert c[k - 1] == c[..k][k - 1] == e[k - 1];
    }
  }

  lemma {:induction false} SumPrefix(c: seq<real>, e: seq<real>, k: nat)
    requires k <= |c| && k <= |e| && c[..k] == e[..k]
    ensures Sum(c, k) == Sum(e, k)
  {
    if k > 0 {
      assert c[..k - 1] == c[..k][..k - 1] == e[..k - 1];
      SumPrefix(c, e, k - 1);
      assert c[k - 1] == c[..k][k - 1] == e[k - 1];
    }
  }

  lemma {:induction false} DotBounded(w: seq<real>, c: seq<real>, k: nat, lo: real, hi: real)
    requires k <= |w| && k <= |c|
    requires forall j :: 0 <= j < k ==> w[j] >= 0.0
    requires forall j :: 0 <= j < k ==> lo <= c[j] <= hi
    ensures Sum(w, k) * lo <= Dot(w, c, k) <= Sum(w, k) * hi
  {
    if k > 0 {
      DotBounded(w, c, k - 1, lo, hi);
      MulMono(w[k - 1], lo, c[k - 1]);
      MulMono(w[k - 1], c[k - 1], hi);
      ScaleStep(Sum(w, k - 1), w[k - 1], 1.0, lo);
      ScaleStep(Sum(w, k - 1), w[k - 1], 1.0, hi);
    }
  }

  lemma {:induction false} SumScaled(w: seq<real>, v: seq<real>, d: real, k: nat)
    requires k <= |w| && k <= |v|
    requires forall j :: 0 <= j < k ==> v[j] == w[j] * d
    ensures Sum(v, k) == Sum(w, k) * d
  {
    if k > 0 {
      SumScaled(w, v, d, k - 1);
      ScaleStep(Sum(w, k - 1), 1.0, w[k - 1], d);
    }
  }

  lemma {:induction false} SumConstant(w: seq<real>, a: real, k: nat)
    requires k <= |w|
    requires forall j :: 0 <= j < k ==> w[j] == a
    ensures Sum(w, k) == k as real * a
  {
    if k > 0 {
      SumConstant(w, a, k - 1);
      ScaleStep((k - 1) as real, 1.0, 1.0, a);
    }
  }

  lemma MultiplierBounds(period: Period)
    ensures 0.0 < Multiplier(period) <= 1.0
  {
  }

  lemma {:induction false} PowerNonNegative(b: real, e: nat)
    requires b >= 0.0
    ensures Power(b, e) >= 0.0
  {
    if e > 0 {
      PowerNonNegative(b, e - 1);
      MulMono(b, 0.0, Power(b, e - 1));
    }
  }

  lemma {:induction false} WeightNonNegative(period: Period, n: nat, j: nat)
    requires period <= n && j < n
    ensures Weight(period, n, j) >= 0.0
  {
    MultiplierBounds(period);
    var decay := 1.0 - Multiplier(period);
    if j < period {
      PowerNonNegative(decay, n - period);
      assert 1.0 / period as real > 0.0;
      MulMono(Power(decay, n - period), 0.0, 1.0 / period as real);
    } else {
      PowerNonNegative(decay, n - 1 - j);
      MulMono(Power(decay, n - 1 - j), 0.0, Multiplier(period));
    }
  }

  lemma {:induction false} WeightDecays(period: Period, n: nat, j: nat)
    requires period < n && j < n - 1
    ensures Weight(period, n, j) == Weight(period, n - 1, j) * (1.0 - Multiplier(period))
  {
    var m := Multiplier(period);
    if j < period {
      MulAssoc(1.0 / period as real, Power(1.0 - m, n - 1 - period), 1.0 - m);
    } else {
      MulAssoc(m, Power(1.0 - m, n - 2 - j), 1.0 - m);
    }
  }

  lemma {:induction false} WeightsAtSeed(period: Period, w: seq<real>)
    requires period == |w|
    ensures AreWeights(period, w) <==> forall j :: 0 <= j < period ==> w[j] == 1.0 / period as real
  {
    assert Power(1.0 - Multiplier(period), 0) == 1.0;
  }

  /** Every weight of `w` decayed, and a last weight `m`. */
  ghost predicate Decayed(w: seq<real>, v: seq<real>, m: real) {
    && |v| == |w| + 1
    && v[|w|] == m
    && forall j :: 0 <= j < |w| ==> v[j] == w[j] * (1.0 - m)
  }

  lemma {:induction false} Decay(w: seq<real>, m: real) returns (v: seq<real>)
    ensures Decayed(w, v, m)
  {
    v := seq(|w|, j requires 0 <= j < |w| => w[j] * (1.0 - m)) + [m];
  }

  lemma {:induction false} DecayedWeights(period: Period, w: seq<real>, v: seq<real>)
    requires period <= |w| && AreWeights(period, w) && Decayed(w, v, Multiplier(period))
    ensures AreWeights(period, v)
  {
    forall j | 0 <= j < |v| ensures v[j] == Weight(period, |v|, j) {
      if j < |w| {
        WeightDecays(period, |v|, j);
      } else {
        assert Power(1.0 - Multiplier(period), 0) == 1.0;
      }
    }
  }

  lemma {:induction false} DecayedDot(w: seq<real>, v: seq<real>, m: real, c: seq<real>)
    requires Decayed(w, v, m) && |c| == |v|
    ensures Dot(v, c, |v|) == c[|w|] * m + Dot(w, c[..|w|], |w|) * (1.0 - m)
  {
    hide Dot;
    DotScaled(w, v, 1.0 - m, c, |w|);
    DotPrefix(w, c, c[..|w|], |w|);
    DotUnfold(v, c, |v|);
  }

  lemma DotUnfold(w: seq<real>, c: seq<real>, k: nat)
    requires 0 < k <= |w| && k <= |c|
    ensures Dot(w, c, k) == Dot(w, c, k - 1) + c[k - 1] * w[k - 1]
  {
  }

  lemma {:induction false} DecayedSum(w: seq<real>, v: seq<real>, m: real)
    requires Decayed(w, v, m)
    ensures Sum(v, |v|) == Sum(w, |w|) * (1.0 - m) + m
  {
    SumScaled(w, v, 1.0 - m, |w|);
  }

  lemma {:induction false} SeedSumIsSum(period: Period, closes: seq<real>)
    requires |closes| <= period
    ensures EmaOf(period, closes).seedSum == Sum(closes, |closes|)
  {
    if closes != [] {
      var previous := closes[..|closes| - 1];
      SeedSumIsSum(period, previous);
      SumPrefix(closes, previous, |previous|);
    }
  }

  lemma DivIsMul(s: real, x: real)
    requires x > 0.0
    ensures s / x == s * (1.0 / x)
  {
  }

  lemma {:induction false} ClosedFormAtSeed(period: Period, closes: seq<real>) returns (w: seq<real>)
    requires period == |closes|
    ensures |w| == period && AreWeights(period, w) && Sum(w, period) == 1.0
    ensures EmaOf(period, closes).value == Dot(w, closes, period)
  {
    w := seq(period, _ => 1.0 / period as real);
    WeightsAtSeed(period, w);
    SumConstant(w, 1.0 / period as real, period);
    DivIsMul(period as real, period as real);
    SeedSumIsSum(period, closes);
    DotConstant(w, 1.0 / period as real, closes, period);
    DivIsMul(Sum(closes, period), period as real);
    assert EmaOf(period, closes).value == EmaOf(period, closes).seedSum / period as real;
  }

  lemma AdvanceReady(e: EmaState, close: real)
    requires e.Ready()
    ensures Advance(e, close).value == close * Multiplier(e.period) + e.value * (1.0 - Multiplier(e.period))
  {
  }

  lemma {:induction false} EmaStep(period: Period, closes: seq<real>)
    requires period < |closes|
    ensures EmaOf(period, closes).value ==
            closes[|closes| - 1] * Multiplier(period) +
            EmaOf(period, closes[..|closes| - 1]).value * (1.0 - Multiplier(period))
  {
    hide *;
    EmaUnfold(period, closes);
    AdvanceReady(EmaOf(period, closes[..|closes| - 1]), closes[|closes| - 1]);
  }

  /** One more close counts twice against the average `period - 1` times. */
  lemma {:induction false} EmaRecurrence(period: Period, closes: seq<real>, x: real)
    requires period <= |closes|
    ensures (period + 1) as real * EmaOf(period, closes + [x]).value ==
            2.0 * x + (period - 1) as real * EmaOf(period, closes).value
  {
    hide *;
    var all := closes + [x];
    assert all[..|closes|] == closes;
    EmaStep(period, all);
    Smoothed(period, x, EmaOf(period, closes).value);
  }

  lemma {:induction false} Smoothed(period: Period, x: real, v: real)
    ensures (period + 1) as real * (x * Multiplier(period) + v * (1.0 - Multiplier(period))) == 2.0 * x + (period - 1) as real * v
  {
    var n, m := (period + 1) as real, Multiplier(period);
    assert n * m == 2.0;
    Distributes(n, m, x, v);
    assert (n - 2.0) == (period - 1) as real;
  }

  lemma Distributes(n: real, m: real, x: real, v: real)
    ensures n * (x * m + v * (1.0 - m)) == (n * m) * x + (n - n * m) * v
  {
  }

  /** The average of the first `period` closes is their mean; before that there is none. */
  lemma {:induction false} EmaSeed(period: Period, closes: seq<real>)
    ensures EmaOf(period, closes).Ready() <==> |closes| >= period
    ensures |closes| == period ==> period as real * EmaOf(period, closes).value == Sum(closes, period)
  {
    if |closes| == period {
      SeedSumIsSum(period, closes);
      assert EmaOf(period, closes).value == EmaOf(period, closes).seedSum / period as real;
    }
  }

  lemma EmaUnfold(period: Period, closes: seq<real>)
    requires closes != []
    ensures EmaOf(period, closes) == Advance(EmaOf(period, closes[..|closes| - 1]), closes[|closes| - 1])
  {
  }

  /** A ready average is the sum of every close under its geometric weight, and
      the weights sum to one. */
  lemma {:induction false} EmaClosedForm(period: Period, closes: seq<real>) returns (w: seq<real>)
    requires period <= |closes|
    ensures |w| == |closes| && AreWeights(period, w) && Sum(w, |w|) == 1.0
    ensures EmaOf(period, closes).value == Dot(w, closes, |closes|)
  {
    if |closes| == period {
      w := ClosedFormAtSeed(period, closes);
    } else {
      var previous := EmaClosedForm(period, closes[..|closes| - 1]);
      w := ClosedFormStep(period, closes, previous);
    }
  }

  lemma {:induction false} ClosedFormStep(period: Period, closes: seq<real>, w: seq<real>) returns (v: seq<real>)
    requires period < |closes| == |w| + 1
    requires AreWeights(period, w) && Sum(w, |w|) == 1.0
    requires EmaOf(period, closes[..|w|]).value == Dot(w, closes[..|w|], |w|)
    ensures |v| == |closes| && AreWeights(period, v) && Sum(v, |v|) == 1.0
    ensures EmaOf(period, closes).value == Dot(v, closes, |closes|)
  {
    hide *;
    v := Decay(w, Multiplier(period));
    DecayedWeights(period, w, v);
    DecayedSum(w, v, Multiplier(period));
    DecayedDot(w, v, Multiplier(period), closes);
    EmaStep(period, closes);
  }

  lemma {:induction false} WeightsNonNegative(period: Period, w: seq<real>)
    requires period <= |w| && AreWeights(period, w)
    ensures forall j :: 0 <= j < |w| ==> w[j] >= 0.0
  {
    forall j | 0 <= j < |w| ensures w[j] >= 0.0 {
      WeightNonNegative(period, |w|, j);
    }
  }

  /** A ready average never leaves the range of the closes it saw. */
  lemma {:induction false} EmaWithinRange(period: Period, closes: seq<real>, lo: real, hi: real)
    requires period <= |closes|
    requires forall i :: 0 <= i < |closes| ==> lo <= closes[i] <= hi
    ensures lo <= EmaOf(period, closes).value <= hi
  {
    var w := EmaClosedForm(period, closes);
    WeightsNonNegative(period, w);
    DotBounded(w, closes, |closes|, lo, hi);
  }

  // ---- Nothing is forgotten ----------------------------------------------

  /** An average of one sample is the last close. */
  lemma {:induction false} OneSample(closes: seq<real>)
    requires closes != []
    ensures EmaOf(1, closes).value == closes[|closes| - 1]
  {
    var before := EmaOf(1, closes[..|closes| - 1]);
    if before.samples == 0 {
      assert before.seedSum == 0.0;
    }
  }

  lemma {:induction false} Cancel(x: real, y: real, k: real)
    requires k != 0.0 && x * k == y * k
    ensures x == y
  {
    assert (x - y) * k == 0.0;
  }

  lemma {:induction false} AdvanceBack(a: EmaState, b: EmaState, close: real)
    requires a.period == b.period && a.samples == b.samples && Advance(a, close) == Advance(b, close)
    requires a.period == 1 || a.samples < a.period ==> a.value == b.value
    ensures a == b
  {
    if a.samples >= a.period && a.period >= 2 {
      var m := Multiplier(a.period);
      assert m <= 2.0 / 3.0;
      assert close * m + a.value * (1.0 - m) == close * m + b.value * (1.0 - m);
      Cancel(a.value, b.value, 1.0 - m);
    }
  }

  /** Reducers that agree after one more close agreed before it, if their last closes did. */
  lemma {:induction false} EmaForgetsNothing(period: Period, a: seq<real>, b: seq<real>, close: real)
    requires |a| == |b| > 0 && a[|a| - 1] == b[|b| - 1]
    requires Advance(EmaOf(period, a), close) == Advance(EmaOf(period, b), close)
    ensures EmaOf(period, a) == EmaOf(period, b)
  {
    hide Advance;
    if period == 1 {
      OneSample(a);
      OneSample(b);
    }
    AdvanceBack(EmaOf(period, a), EmaOf(period, b), close);
  }

  // ---- The reducer object ------------------------------------------------

  class EMA {
    const period: Period
    var samples: nat
    var seedSum: real
    var value: real

    function State(): EmaState
      reads this
    {
      EmaState(period, samples, seedSum, value)
    }

    constructor (period: Period)
      ensures State() == NewEma(period)
    {
      this.period := period;
      samples := 0;
      seedSum := 0.0;
      value := 0.0;
    }

    /** Consumes one close. Before readiness the reported value is zero. */
    method OnClosed(close: real) returns (result: real, ready: bool)
      modifies this
      ensures State() == Advance(old(State()), close)
      ensures ready == State().Ready()
      ensures result == if ready then State().value else 0.0
      ensures old(samples) >= period ==> (period + 1) as real * value == 2.0 * close + (period - 1) as real * old(value)
      ensures old(samples) + 1 == period ==> period as real * value == old(seedSum) + close
    {
      Smoothed(period, close, value);
      samples := samples + 1;
      if samples <= period {
        seedSum := seedSum + close;
        if samples == period {
          value := seedSum / period as real;
          return value, true;
        }
        return 0.0, false;
      }
      var multiplier := Multiplier(period);
      value := close * multiplier + value * (1.0 - multiplier);
      return value, true;
    }

    /** What OnClosed would report, on a copy. */
    method Project(close: real) returns (result: real, ready: bool)
      ensures ready == (samples + 1 >= period)
      ensures result == if ready then Advance(State(), close).value else 0.0
      ensures unchanged(this)
    {
      var copy := new EMA(period);
      copy.samples, copy.seedSum, copy.value := samples, seedSum, value;
      result, ready := copy.OnClosed(close);
    }

    method Snapshot() returns (snapshot: EmaSnapshot)
      ensures snapshot == TakeSnapshot(State())
    {
      snapshot := EmaSnapshot(period, samples, seedSum, value);
    }

    method Restore(snapshot: EmaSnapshot) returns (ok: bool)
      modifies this
      ensures match Restored(old(State()), snapshot)
              case Some(e) => ok && State() == e
              case None => !ok && State() == old(State())
    {
      if snapshot.period != period {
        return false;
      }
      if snapshot.samples < period && snapshot.value != 0.0 {
        return false;
      }
      samples, seedSum, value := snapshot.samples, snapshot.seedSum, snapshot.value;
      return true;
    }
  }
}
