/** Rewriting the zigzag to structurally valid pullbacks
    (internal/indicator/market.go:425-480). */
module Swings {
  import opened Model
  import opened Candles
  import opened Zigzag

  predicate OpensPullback(bars: seq<Bar>, index: nat, direction: Side, config: MarketConfig)
    requires index + 1 < |bars|
  {
    && StructureMarubozu(bars[index], direction)
    && (|| StructureMarubozu(bars[index + 1], direction)
        || (var reference := MarubozuReference(bars, index);
            && reference > 0.0
            && Range(bars[index]) >= config.bigVsReference * reference
            && Range(bars[index + 1]) <= config.oppositeSmallMax * Range(bars[index])))
  }

  /** Some candle from `from` up to `to` opens a pullback in the given direction. */
  predicate ValidPullback(bars: seq<Bar>, from: nat, to: nat, direction: Side, config: MarketConfig)
    requires to < |bars|
  {
    exists index :: from <= index < to && OpensPullback(bars, index, direction, config)
  }

  method ComputeValidPullback(bars: seq<Bar>, from: nat, to: nat, direction: Side, config: MarketConfig) returns (valid: bool)
    requires to < |bars|
    ensures valid == ValidPullback(bars, from, to, direction, config)
  {
    hide StructureMarubozu, Range, MarubozuReference;
    var index := from;
    while index < to
      invariant forall i :: from <= i < index && i < to ==> !OpensPullback(bars, i, direction, config)
    {
      if StructureMarubozu(bars[index], direction) {
        if StructureMarubozu(bars[index + 1], direction) {
          assert OpensPullback(bars, index, direction, config);
          return true;
        }
        var reference := ComputeMarubozuReference(bars, index);
        if reference > 0.0 && Range(bars[index]) >= config.bigVsReference * reference
           && Range(bars[index + 1]) <= config.oppositeSmallMax * Range(bars[index]) {
          assert OpensPullback(bars, index, direction, config);
          return true;
        }
      }
      index := index + 1;
    }
    return false;
  }

  /** Depth of the middle swing against the impulse it corrects; a full retrace when there is none. */
  function Retrace(swings: seq<Swing>, index: nat): real
    requires 1 <= index < |swings| - 1
  {
    var depth := Abs(swings[index - 1].price - swings[index].price);
    var impulse := if index >= 2 then Abs(swings[index - 1].price - swings[index - 2].price)
                   else Abs(swings[index + 1].price - swings[index].price);
    if impulse > 0.0 then depth / impulse else 1.0
  }

  predicate InRange(bars: seq<Bar>, swings: seq<Swing>) {
    forall k :: 0 <= k < |swings| ==> swings[k].index < |bars|
  }

  function PullbackDirection(middle: Swing): Side { if middle.kind == Low then DownSide else UpSide }

  /** An interior swing that stays: a valid pullback, or deep enough. */
  predicate Justified(bars: seq<Bar>, swings: seq<Swing>, config: MarketConfig, index: nat)
    requires InRange(bars, swings) && 1 <= index < |swings| - 1
  {
    || ValidPullback(bars, swings[index - 1].index, swings[index].index, PullbackDirection(swings[index]), config)
    || Retrace(swings, index) >= config.minPullbackFrac
  }

  /** Whether the swing after the middle one goes at least as far as the one before. */
  predicate Surpasses(first: Swing, last: Swing) {
    if first.kind == High then last.price >= first.price else last.price <= first.price
  }

  /** Drops the middle swing with whichever neighbour the other outreaches. */
  function MergeAt(swings: seq<Swing>, index: nat): (r: seq<Swing>)
    requires 1 <= index < |swings| - 1
    ensures |r| == |swings| - 2
  {
    if Surpasses(swings[index - 1], swings[index + 1]) then swings[..index - 1] + swings[index + 1..]
    else swings[..index] + swings[index + 2..]
  }

  /** The first interior index from `index` on that is not justified, if any. */
  function FirstUnjustified(bars: seq<Bar>, swings: seq<Swing>, config: MarketConfig, index: nat): (r: Option<nat>)
    requires InRange(bars, swings) && 1 <= index
    ensures r.Some? ==> index <= r.value < |swings| - 1 && !Justified(bars, swings, config, r.value)
    ensures r.Some? ==> forall i :: index <= i < r.value ==> Justified(bars, swings, config, i)
    ensures r.None? ==> forall i :: index <= i < |swings| - 1 ==> Justified(bars, swings, config, i)
    decreases |swings| - index
  {
    if index >= |swings| - 1 then None
    else if !Justified(bars, swings, config, index) then Some(index)
    else FirstUnjustified(bars, swings, config, index + 1)
  }

  function Merge(bars: seq<Bar>, swings: seq<Swing>, config: MarketConfig): (r: seq<Swing>)
    requires InRange(bars, swings)
    ensures InRange(bars, r)
    decreases |swings|
  {
    match FirstUnjustified(bars, swings, config, 1)
    case None => swings
    case Some(index) => Merge(bars, MergeAt(swings, index), config)
  }

  /** The rewriting loop: each round removes one adjacent pair, so it stops. */
  method MergeByValidPullback(bars: seq<Bar>, input: seq<Swing>, config: MarketConfig) returns (swings: seq<Swing>)
    requires InRange(bars, input)
    ensures swings == Merge(bars, input, config)
  {
    hide ValidPullback, Retrace, Surpasses;
    swings := input;
    var changed := true;
    while changed && |swings| >= 3
      invariant InRange(bars, swings)
      invariant Merge(bars, swings, config) == Merge(bars, input, config)
      invariant !changed ==> FirstUnjustified(bars, swings, config, 1).None?
      decreases |swings|, changed
    {
      changed := false;
      var index := 1;
      while index < |swings| - 1
        invariant 1 <= index <= |swings| - 1
        invariant FirstUnjustified(bars, swings, config, index) == FirstUnjustified(bars, swings, config, 1)
        decreases |swings| - index
      {
        var first, middle, last := swings[index - 1], swings[index], swings[index + 1];
        var valid := ComputeValidPullback(bars, first.index, middle.index, PullbackDirection(middle), config);
        if valid || Retrace(swings, index) >= config.minPullbackFrac {
          index := index + 1;
          continue;
        }
        assert FirstUnjustified(bars, swings, config, index) == Some(index);
        var merged := MergeAt(swings, index);
        assert Merge(bars, swings, config) == Merge(bars, merged, config);
        swings := merged;
        changed := true;
        break;
      }
    }
  }

  // ---- What merging keeps ------------------------------------------------

  /** `a` picks the elements of `b` at the strictly increasing positions `at`. */
  ghost predicate Picks<T>(a: seq<T>, b: seq<T>, at: seq<nat>) {
    && |at| == |a|
    && (forall i :: 0 <= i < |at| ==> at[i] < |b| && a[i] == b[at[i]])
    && (forall i, j :: 0 <= i < j < |at| ==> at[i] < at[j])
  }

  ghost predicate Subsequence<T>(a: seq<T>, b: seq<T>) {
    exists at :: Picks(a, b, at)
  }

  lemma {:induction false} CutIsSubsequence<T>(s: seq<T>, from: nat, to: nat)
    requires from <= to <= |s|
    ensures Subsequence(s[..from] + s[to..], s)
  {
    var at := seq(|s| - (to - from), i requires 0 <= i => if i < from then i else i + (to - from));
    assert Picks(s[..from] + s[to..], s, at);
  }

  lemma {:induction false} SubsequenceTransitive<T>(a: seq<T>, b: seq<T>, c: seq<T>)
    requires Subsequence(a, b) && Subsequence(b, c)
    ensures Subsequence(a, c)
  {
    var f: seq<nat> :| Picks(a, b, f);
    var g: seq<nat> :| Picks(b, c, g);
    var at: seq<nat> := seq(|a|, i requires 0 <= i < |a| => g[f[i]]);
    assert Picks(a, c, at);
  }

  lemma {:induction false} SubsequenceReflexive<T>(a: seq<T>)
    ensures Subsequence(a, a)
  {
    var at: seq<nat> := seq(|a|, i => i);
    assert Picks(a, a, at);
  }

  ghost predicate Ordered(swings: seq<Swing>) {
    && (forall k :: 0 <= k < |swings| ==> swings[k].index <= swings[k].confirmIndex)
    && (forall k :: 0 < k < |swings| ==> swings[k - 1].confirmIndex <= swings[k].index)
  }

  /** Highs and lows in turn, each found after the one before was confirmed. */
  ghost predicate InTurn(swings: seq<Swing>) {
    Alternating(swings) && Ordered(swings)
  }

  lemma {:induction false} OrderedPairs(swings: seq<Swing>, i: nat, j: nat)
    requires Ordered(swings) && i < j < |swings|
    ensures swings[i].confirmIndex <= swings[j].index
    decreases j - i
  {
    if i + 1 < j {
      OrderedPairs(swings, i, j - 1);
    }
  }

  lemma MoveThreshold(pct: real, a: real, b: real)
    requires 0.0 <= pct <= 1.0 && a <= b
    ensures Drop(a, pct) <= Drop(b, pct)
    ensures Rise(a, pct) <= Rise(b, pct)
  {
  }

  lemma {:induction false} MergeAtKeeps(pct: real, swings: seq<Swing>, index: nat)
    requires 0.0 <= pct <= 1.0 && 1 <= index < |swings| - 1
    requires InTurn(swings)
    ensures InTurn(MergeAt(swings, index))
    ensures AllApart(pct, swings) ==> AllApart(pct, MergeAt(swings, index))
    ensures Subsequence(MergeAt(swings, index), swings)
  {
    hide Subsequence, Drop, Rise;
    var first, last := swings[index - 1], swings[index + 1];
    var merged := MergeAt(swings, index);
    var cut := if Surpasses(first, last) then index - 1 else index;
    assert merged == swings[..cut] + swings[cut + 2..];
    CutIsSubsequence(swings, cut, cut + 2);
    assert first.kind == last.kind by {
      assert swings[index].kind != first.kind && last.kind != swings[index].kind;
    }
    forall k | 0 < k < |merged|
      ensures merged[k].kind != merged[k - 1].kind
      ensures merged[k - 1].confirmIndex <= merged[k].index
      ensures AllApart(pct, swings) ==> Apart(pct, merged[k - 1], merged[k])
    {
      if k < cut {
        assert merged[k - 1] == swings[k - 1] && merged[k] == swings[k];
      } else if k > cut {
        assert merged[k - 1] == swings[k + 1] && merged[k] == swings[k + 2];
      } else {
        JoinKeeps(pct, swings, index, cut);
        assert merged[k - 1] == swings[cut - 1] && merged[k] == swings[cut + 2];
      }
    }
    forall k | 0 <= k < |merged| ensures merged[k].index <= merged[k].confirmIndex {
      assert merged[k] == if k < cut then swings[k] else swings[k + 2];
    }
  }

  /** The two swings a merge brings together still alternate, follow and stand apart. */
  lemma {:induction false} JoinKeeps(pct: real, swings: seq<Swing>, index: nat, cut: nat)
    requires 0.0 <= pct <= 1.0 && 1 <= index < |swings| - 1
    requires InTurn(swings)
    requires cut == if Surpasses(swings[index - 1], swings[index + 1]) then index - 1 else index
    requires 1 <= cut && cut + 2 < |swings|
    ensures swings[cut + 2].kind != swings[cut - 1].kind
    ensures swings[cut - 1].confirmIndex <= swings[cut + 2].index
    ensures AllApart(pct, swings) ==> Apart(pct, swings[cut - 1], swings[cut + 2])
  {
    hide Drop, Rise;
    OrderedPairs(swings, cut - 1, cut + 2);
    assert swings[cut].kind != swings[cut - 1].kind;
    assert swings[cut + 1].kind != swings[cut].kind;
    assert swings[cut + 2].kind != swings[cut + 1].kind;
    assert AllApart(pct, swings) ==> Apart(pct, swings[cut - 1], swings[cut]) && Apart(pct, swings[cut + 1], swings[cut + 2]);
    var first, last := swings[index - 1], swings[index + 1];
    if first.price <= last.price {
      MoveThreshold(pct, first.price, last.price);
    } else {
      MoveThreshold(pct, last.price, first.price);
    }
  }

  /** Fewer than three swings, or every interior swing is justified. */
  ghost predicate NormalForm(bars: seq<Bar>, swings: seq<Swing>, config: MarketConfig)
    requires InRange(bars, swings)
  {
    forall index :: 1 <= index < |swings| - 1 ==> Justified(bars, swings, config, index)
  }

  /** Merging ends in normal form with a subsequence of what it was given, still in
      turn, and still apart when the input was. */
  lemma {:induction false} MergeIsNormal(bars: seq<Bar>, swings: seq<Swing>, config: MarketConfig)
    requires InRange(bars, swings)
    requires 0.0 <= config.minSwingPct <= 1.0 && InTurn(swings)
    ensures NormalForm(bars, Merge(bars, swings, config), config)
    ensures InTurn(Merge(bars, swings, config))
    ensures AllApart(config.minSwingPct, swings) ==> AllApart(config.minSwingPct, Merge(bars, swings, config))
    ensures Subsequence(Merge(bars, swings, config), swings)
    ensures (|swings| - |Merge(bars, swings, config)|) % 2 == 0
    decreases |swings|
  {
    hide Justified, InTurn, AllApart, Subsequence;
    match FirstUnjustified(bars, swings, config, 1)
    case None =>
      SubsequenceReflexive(swings);
    case Some(index) =>
      var merged := MergeAt(swings, index);
      MergeAtKeeps(config.minSwingPct, swings, index);
      MergeIsNormal(bars, merged, config);
      SubsequenceTransitive(Merge(bars, swings, config), merged, swings);
  }

  lemma {:induction false} SoundIsOrdered(bars: seq<Bar>, swings: seq<Swing>)
    requires Sound(bars, swings)
    ensures InRange(bars, swings) && Ordered(swings) && Alternating(swings)
  {
    forall k | 0 <= k < |swings|
      ensures swings[k].index <= swings[k].confirmIndex && swings[k].index < |bars|
      ensures k > 0 ==> swings[k - 1].confirmIndex <= swings[k].index
    {
      assert Extremal(bars, swings, k);
    }
  }

  function MergedSwings(bars: seq<Bar>, config: MarketConfig): (r: seq<Swing>)
    requires config.atrPeriod >= 1
    ensures InRange(bars, r)
  {
    ZigzagIsExtremal(bars, config);
    SoundIsOrdered(bars, ZigzagSwings(bars, config));
    Merge(bars, ZigzagSwings(bars, config), config)
  }

  /** The structural swings of any candle list; the spacing needs positive prices. */
  lemma {:induction false} MergedSwingsAreNormal(bars: seq<Bar>, config: MarketConfig)
    requires config.atrPeriod >= 1 && 0.0 <= config.minSwingPct <= 1.0
    ensures var r := MergedSwings(bars, config);
            && NormalForm(bars, r, config)
            && InTurn(r)
            && Subsequence(r, ZigzagSwings(bars, config))
            && (PositivePrices(bars) ==> AllApart(config.minSwingPct, r))
  {
    hide Sound, Ordered, AllApart, Alternating, NormalForm, Subsequence, Merge;
    ZigzagIsExtremal(bars, config);
    SoundIsOrdered(bars, ZigzagSwings(bars, config));
    if PositivePrices(bars) {
      ZigzagIsApart(bars, config);
    }
    MergeIsNormal(bars, ZigzagSwings(bars, config), config);
  }

  // ---- Which swings stay -------------------------------------------------

  /** Candle `c` opens a pullback: a marubozu followed by another, or a big one followed by a
      small candle, big being measured against the five marubozu candles before it. */
  ghost predicate Opens(bars: seq<Bar>, c: nat, side: Side, config: MarketConfig)
    requires c + 1 < |bars|
  {
    && StructureMarubozu(bars[c], side)
    && (|| StructureMarubozu(bars[c + 1], side)
        || (&& Range(bars[c + 1]) <= config.oppositeSmallMax * Range(bars[c])
            && exists r :: LargestRange(bars, c, 5, 0.0, r) && r > 0.0 && Range(bars[c]) >= config.bigVsReference * r))
  }

  /** The leg to swing `i` retraces enough of the one before it, the next one standing in for the
      first; a leg of no length is retraced in full. */
  predicate Deep(swings: seq<Swing>, i: nat, share: real)
    requires 1 <= i < |swings| - 1
  {
    var depth := Abs(swings[i].price - swings[i - 1].price);
    var leg := if i == 1 then Abs(swings[2].price - swings[1].price) else Abs(swings[i - 1].price - swings[i - 2].price);
    if leg == 0.0 then share <= 1.0 else depth >= share * leg
  }

  /** The interior swing `i` stays: a candle of its leg opens a pullback its way, or it is deep. */
  ghost predicate Stays(bars: seq<Bar>, swings: seq<Swing>, config: MarketConfig, i: nat)
    requires InRange(bars, swings) && 1 <= i < |swings| - 1
  {
    || OpensWithin(bars, swings[i - 1].index, swings[i].index, if swings[i].kind == High then UpSide else DownSide, config)
    || Deep(swings, i, config.minPullbackFrac)
  }

  ghost predicate OpensWithin(bars: seq<Bar>, from: nat, to: nat, side: Side, config: MarketConfig)
    requires to < |bars|
  {
    exists c :: from <= c < to && Opens(bars, c, side, config)
  }

  lemma {:induction false} OneLargest(bars: seq<Bar>, index: nat, left: nat, floor: real, r: real, q: real)
    requires index <= |bars| && LargestRange(bars, index, left, floor, r) && LargestRange(bars, index, left, floor, q)
    ensures r == q
  {
    hide AmongNearest, Range;
  }

  lemma {:induction false} OpensIsPullback(bars: seq<Bar>, c: nat, side: Side, config: MarketConfig)
    requires c + 1 < |bars|
    ensures Opens(bars, c, side, config) <==> OpensPullback(bars, c, side, config)
  {
    ReferenceIsLargest(bars, c, 5, 0.0);
    hide StructureMarubozu, Range, LargestRange, ReferenceFrom;
    var reference := MarubozuReference(bars, c);
    forall r | LargestRange(bars, c, 5, 0.0, r) ensures r == reference {
      OneLargest(bars, c, 5, 0.0, r, reference);
    }
  }

  lemma {:induction false} DeepMeans(swings: seq<Swing>, i: nat, share: real)
    requires 1 <= i < |swings| - 1
    ensures Retrace(swings, i) >= share <==> Deep(swings, i, share)
  {
    var depth := Abs(swings[i].price - swings[i - 1].price);
    var leg := if i == 1 then Abs(swings[2].price - swings[1].price) else Abs(swings[i - 1].price - swings[i - 2].price);
    assert Retrace(swings, i) == if leg > 0.0 then depth / leg else 1.0;
    if leg > 0.0 {
      Ratio(depth, leg, share);
    }
  }

  lemma {:induction false} StaysIsJustified(bars: seq<Bar>, swings: seq<Swing>, config: MarketConfig, i: nat)
    requires InRange(bars, swings) && 1 <= i < |swings| - 1
    ensures Stays(bars, swings, config, i) <==> Justified(bars, swings, config, i)
  {
    hide Opens, OpensPullback, Retrace, Deep;
    DeepMeans(swings, i, config.minPullbackFrac);
    var side := if swings[i].kind == High then UpSide else DownSide;
    forall c: nat | c < swings[i].index ensures Opens(bars, c, side, config) <==> OpensPullback(bars, c, side, config) {
      OpensIsPullback(bars, c, side, config);
    }
    var lo, hi := swings[i - 1].index, swings[i].index;
    assert OpensWithin(bars, lo, hi, side, config) <==> ValidPullback(bars, lo, hi, side, config);
  }

  // ---- Merging is rewriting ----------------------------------------------

  /** `b` is `a` without swing `i` and the neighbour the other one outreaches; nothing else moves. */
  predicate Removes(a: seq<Swing>, i: nat, b: seq<Swing>)
    requires 1 <= i < |a| - 1
  {
    var outreached := if a[i - 1].kind == High then a[i + 1].price >= a[i - 1].price else a[i + 1].price <= a[i - 1].price;
    var cut := if outreached then i - 1 else i;
    && |b| == |a| - 2
    && (forall j :: 0 <= j < cut ==> b[j] == a[j])
    && (forall j :: cut <= j < |b| ==> b[j] == a[j + 2])
  }

  /** One rewrite: the leftmost interior swing that does not stay goes. */
  ghost predicate Rewrites(bars: seq<Bar>, config: MarketConfig, a: seq<Swing>, b: seq<Swing>)
    requires InRange(bars, a)
  {
    exists i :: && 1 <= i < |a| - 1 && !Stays(bars, a, config, i)
                && (forall j :: 1 <= j < i ==> Stays(bars, a, config, j)) && Removes(a, i, b)
  }

  ghost predicate IsChain(bars: seq<Bar>, config: MarketConfig, chain: seq<seq<Swing>>) {
    && chain != []
    && (forall k :: 0 <= k < |chain| ==> InRange(bars, chain[k]))
    && (forall k :: 0 <= k < |chain| - 1 ==> Rewrites(bars, config, chain[k], chain[k + 1]))
  }

  /** Nothing is left to rewrite. */
  ghost predicate AllStay(bars: seq<Bar>, config: MarketConfig, swings: seq<Swing>)
    requires InRange(bars, swings)
  {
    forall i :: 1 <= i < |swings| - 1 ==> Stays(bars, swings, config, i)
  }

  lemma {:induction false} RemovesIsMergeAt(a: seq<Swing>, i: nat, b: seq<Swing>)
    requires 1 <= i < |a| - 1
    ensures Removes(a, i, b) <==> b == MergeAt(a, i)
  {
    var m := MergeAt(a, i);
    var cut := if Surpasses(a[i - 1], a[i + 1]) then i - 1 else i;
    assert m == a[..cut] + a[cut + 2..];
    if Removes(a, i, b) {
      assert forall j :: 0 <= j < |b| ==> b[j] == m[j];
    }
  }

  lemma {:induction false} FirstIsLeftmost(bars: seq<Bar>, swings: seq<Swing>, config: MarketConfig)
    requires InRange(bars, swings)
    ensures match FirstUnjustified(bars, swings, config, 1)
            case None => AllStay(bars, config, swings)
            case Some(i) => !Stays(bars, swings, config, i) && forall j :: 1 <= j < i ==> Stays(bars, swings, config, j)
  {
    hide Stays, Justified, FirstUnjustified;
    forall i: nat | 1 <= i < |swings| - 1 ensures Stays(bars, swings, config, i) <==> Justified(bars, swings, config, i) {
      StaysIsJustified(bars, swings, config, i);
    }
  }

  /** What one rewrite is, in terms of the first unjustified swing. */
  lemma {:induction false} RewriteIsStep(bars: seq<Bar>, config: MarketConfig, a: seq<Swing>, b: seq<Swing>)
    requires InRange(bars, a)
    ensures Rewrites(bars, config, a, b) <==>
            FirstUnjustified(bars, a, config, 1).Some? && b == MergeAt(a, FirstUnjustified(bars, a, config, 1).value)
  {
    hide Stays, Justified, FirstUnjustified, Removes, MergeAt;
    FirstIsLeftmost(bars, a, config);
    var first := FirstUnjustified(bars, a, config, 1);
    if Rewrites(bars, config, a, b) {
      var i :| && 1 <= i < |a| - 1 && !Stays(bars, a, config, i)
               && (forall j :: 1 <= j < i ==> Stays(bars, a, config, j)) && Removes(a, i, b);
      assert first.Some? && first.value == i;
      RemovesIsMergeAt(a, i, b);
    }
    if first.Some? && b == MergeAt(a, first.value) {
      RemovesIsMergeAt(a, first.value, b);
      assert !Stays(bars, a, config, first.value) && Removes(a, first.value, b);
    }
  }

  lemma {:induction false} MergeUnfold(bars: seq<Bar>, swings: seq<Swing>, config: MarketConfig)
    requires InRange(bars, swings)
    ensures var first := FirstUnjustified(bars, swings, config, 1);
            && (first.None? ==> Merge(bars, swings, config) == swings)
            && (first.Some? ==> InRange(bars, MergeAt(swings, first.value))
                                && Merge(bars, swings, config) == Merge(bars, MergeAt(swings, first.value), config))
  {
    hide FirstUnjustified;
  }

  /** Merging is a chain of rewrites from what it was given to swings that all stay, one link for
      every pair removed. */
  lemma {:induction false} MergeIsChain(bars: seq<Bar>, swings: seq<Swing>, config: MarketConfig) returns (chain: seq<seq<Swing>>)
    requires InRange(bars, swings)
    ensures IsChain(bars, config, chain) && chain[0] == swings && chain[|chain| - 1] == Merge(bars, swings, config)
    ensures 2 * (|chain| - 1) == |swings| - |Merge(bars, swings, config)|
    ensures AllStay(bars, config, Merge(bars, swings, config))
    decreases |swings|
  {
    hide Rewrites, AllStay, Merge, MergeAt, FirstUnjustified;
    FirstIsLeftmost(bars, swings, config);
    MergeUnfold(bars, swings, config);
    match FirstUnjustified(bars, swings, config, 1)
    case None =>
      chain := [swings];
    case Some(i) =>
      var rest := MergeIsChain(bars, MergeAt(swings, i), config);
      RewriteIsStep(bars, config, swings, MergeAt(swings, i));
      chain := [swings] + rest;
      forall k | 0 <= k < |chain| - 1 ensures Rewrites(bars, config, chain[k], chain[k + 1]) {
        if k > 0 {
          assert chain[k] == rest[k - 1] && chain[k + 1] == rest[k];
        }
      }
  }

  /** There is only one way to rewrite, so any chain that cannot go on ends in the merge. */
  lemma {:induction false} MergeIsUnique(bars: seq<Bar>, config: MarketConfig, chain: seq<seq<Swing>>)
    requires IsChain(bars, config, chain) && AllStay(bars, config, chain[|chain| - 1])
    ensures chain[|chain| - 1] == Merge(bars, chain[0], config)
    decreases |chain|
  {
    hide Rewrites, Merge, MergeAt, FirstUnjustified, Stays;
    FirstIsLeftmost(bars, chain[0], config);
    MergeUnfold(bars, chain[0], config);
    if |chain| > 1 {
      RewriteIsStep(bars, config, chain[0], chain[1]);
      var rest := chain[1..];
      forall k | 0 <= k < |rest| - 1 ensures Rewrites(bars, config, rest[k], rest[k + 1]) {
        assert rest[k] == chain[k + 1] && rest[k + 1] == chain[k + 2];
      }
      MergeIsUnique(bars, config, rest);
    }
  }
}
