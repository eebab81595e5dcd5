/** Clustering of equal highs and lows (internal/indicator/market.go:280-332). */
module Liquidity {
  import opened Model

  datatype Extremum = Extremum(price: real, index: nat)

  datatype Cluster = Cluster(price: real, touches: nat, last: nat)

  /** Dividing by a zero price gives an infinity or no number, and neither is below the tolerance. */
  predicate Near(cluster: Cluster, value: Extremum, tolerance: real) {
    value.price != 0.0 && Abs(cluster.price - value.price) / value.price < tolerance
  }

  /** The first cluster close enough to take a value. */
  function Match(clusters: seq<Cluster>, value: Extremum, tolerance: real, from: nat): (r: Option<nat>)
    requires from <= |clusters|
    ensures r.Some? ==> from <= r.value < |clusters|
    decreases |clusters| - from
  {
    if from == |clusters| then None
    else if Near(clusters[from], value, tolerance) then Some(from)
    else Match(clusters, value, tolerance, from + 1)
  }

  function Moved(price: real, touches: nat, value: real): real
    requires touches >= 1
  {
    (price * (touches - 1) as real + value) / touches as real
  }

  /** One value joins the first near cluster, moving its price, or starts its own. */
  function Absorb(clusters: seq<Cluster>, value: Extremum, tolerance: real): seq<Cluster> {
    match Match(clusters, value, tolerance, 0)
    case None => clusters + [Cluster(value.price, 1, value.index)]
    case Some(i) =>
      var touches := clusters[i].touches + 1;
      clusters[i := Cluster(Moved(clusters[i].price, touches, value.price), touches, value.index)]
  }

  function Clustered(values: seq<Extremum>, tolerance: real): seq<Cluster> {
    if values == [] then []
    else Absorb(Clustered(values[..|values| - 1], tolerance), values[|values| - 1], tolerance)
  }

  predicate Repeated(c: Cluster) { c.touches >= 2 }

  /** Clusters touched at least twice, the newest three. */
  method ClusterExtrema(values: seq<Extremum>, tolerance: real) returns (clusters: seq<Cluster>)
    ensures clusters == Suffix(Filter(Repeated, Clustered(values, tolerance)), 3)
  {
    hide Near, Moved;
    clusters := [];
    for k := 0 to |values|
      invariant clusters == Clustered(values[..k], tolerance)
    {
      var value := values[k];
      var matched := -1;
      var index := 0;
      while index < |clusters|
        invariant 0 <= index <= |clusters| && matched == -1
        invariant Match(clusters, value, tolerance, index) == Match(clusters, value, tolerance, 0)
      {
        if Near(clusters[index], value, tolerance) {
          matched := index;
          break;
        }
        index := index + 1;
      }
      assert values[..k + 1][..k] == values[..k];
      if matched >= 0 {
        var touches := clusters[matched].touches + 1;
        clusters := clusters[matched := Cluster(Moved(clusters[matched].price, touches, value.price), touches, value.index)];
      } else {
        clusters := clusters + [Cluster(value.price, 1, value.index)];
      }
    }
    assert values[..|values|] == values;
    var filtered: seq<Cluster> := [];
    for k := 0 to |clusters|
      invariant filtered == Filter(Repeated, clusters[..k])
    {
      FilterTake(Repeated, clusters, k);
      if clusters[k].touches >= 2 {
        filtered := filtered + [clusters[k]];
      }
    }
    assert clusters[..|clusters|] == clusters;
    clusters := filtered;
    if |clusters| > 3 {
      clusters := clusters[|clusters| - 3..];
    }
  }

  // ---- What a cluster is -------------------------------------------------

  /** Which values each cluster took, in order. */
  function Members(values: seq<Extremum>, tolerance: real): (r: seq<seq<real>>)
    ensures |r| == |Clustered(values, tolerance)|
  {
    if values == [] then []
    else
      var rest, value := values[..|values| - 1], values[|values| - 1];
      var members := Members(rest, tolerance);
      match Match(Clustered(rest, tolerance), value, tolerance, 0)
      case None => members + [[value.price]]
      case Some(i) => members[i := members[i] + [value.price]]
  }

  function Sum(s: seq<real>): real {
    if s == [] then 0.0 else Sum(s[..|s| - 1]) + s[|s| - 1]
  }

  /** The exact mean of its members, with one touch each. */
  ghost predicate IsMean(c: Cluster, members: seq<real>) {
    c.touches == |members| && c.touches >= 1 && c.price * c.touches as real == Sum(members)
  }

  lemma {:induction false} MovedIsMean(c: Cluster, members: seq<real>, value: real, last: nat)
    requires IsMean(c, members)
    ensures IsMean(Cluster(Moved(c.price, c.touches + 1, value), c.touches + 1, last), members + [value])
  {
    assert (members + [value])[..|members|] == members;
    DivideBack(c.price * c.touches as real + value, (c.touches + 1) as real);
  }

  lemma DivideBack(a: real, b: real)
    requires b != 0.0
    ensures a / b * b == a
  {
  }

  /** Every cluster is the exact mean of the values it took. */
  lemma {:induction false} ClustersAreMeans(values: seq<Extremum>, tolerance: real)
    ensures forall i :: 0 <= i < |Clustered(values, tolerance)| ==>
              IsMean(Clustered(values, tolerance)[i], Members(values, tolerance)[i])
  {
    if values != [] {
      hide Match, Moved, IsMean;
      var rest, value := values[..|values| - 1], values[|values| - 1];
      ClustersAreMeans(rest, tolerance);
      match Match(Clustered(rest, tolerance), value, tolerance, 0)
      case None =>
        SingleIsMean(value.price, value.index);
      case Some(i) =>
        MovedIsMean(Clustered(rest, tolerance)[i], Members(rest, tolerance)[i], value.price, value.index);
    }
  }

  lemma {:induction false} SingleIsMean(price: real, last: nat)
    ensures IsMean(Cluster(price, 1, last), [price])
  {
    assert [price][..0] == [];
  }

  function TotalTouches(clusters: seq<Cluster>): nat {
    if clusters == [] then 0 else TotalTouches(clusters[..|clusters| - 1]) + clusters[|clusters| - 1].touches
  }

  function Flatten(groups: seq<seq<real>>): multiset<real> {
    if groups == [] then multiset{} else Flatten(groups[..|groups| - 1]) + multiset(groups[|groups| - 1])
  }

  function Prices(values: seq<Extremum>): seq<real> {
    seq(|values|, i requires 0 <= i < |values| => values[i].price)
  }

  lemma {:induction false} TouchesUpdate(clusters: seq<Cluster>, i: nat, c: Cluster)
    requires i < |clusters|
    ensures TotalTouches(clusters[i := c]) == TotalTouches(clusters) - clusters[i].touches + c.touches
  {
    var n := |clusters| - 1;
    if i < n {
      TouchesUpdate(clusters[..n], i, c);
      assert clusters[i := c][..n] == clusters[..n][i := c];
    } else {
      assert clusters[i := c][..n] == clusters[..n];
    }
  }

  lemma {:induction false} FlattenUpdate(groups: seq<seq<real>>, i: nat, x: real)
    requires i < |groups|
    ensures Flatten(groups[i := groups[i] + [x]]) == Flatten(groups) + multiset{x}
  {
    var n := |groups| - 1;
    var updated := groups[i := groups[i] + [x]];
    if i < n {
      FlattenUpdate(groups[..n], i, x);
      assert updated[..n] == groups[..n][i := groups[..n][i] + [x]];
    } else {
      assert updated[..n] == groups[..n];
      assert multiset(groups[i] + [x]) == multiset(groups[i]) + multiset{x};
    }
  }

  lemma {:induction false} TouchesAddUp(values: seq<Extremum>, tolerance: real)
    ensures TotalTouches(Clustered(values, tolerance)) == |values|
  {
    if values != [] {
      hide Match, Moved;
      var rest, value := values[..|values| - 1], values[|values| - 1];
      TouchesAddUp(rest, tolerance);
      var clusters := Clustered(rest, tolerance);
      match Match(clusters, value, tolerance, 0)
      case None =>
        assert Clustered(values, tolerance)[..|clusters|] == clusters;
      case Some(i) =>
        TouchesUpdate(clusters, i, Clustered(values, tolerance)[i]);
    }
  }

  lemma {:induction false} MembersAreValues(values: seq<Extremum>, tolerance: real)
    ensures Flatten(Members(values, tolerance)) == multiset(Prices(values))
  {
    if values != [] {
      hide Match, Absorb, Flatten, Prices;
      var rest, value := values[..|values| - 1], values[|values| - 1];
      MembersAreValues(rest, tolerance);
      PricesPush(rest, value);
      assert rest + [value] == values;
      var members := Members(rest, tolerance);
      match Match(Clustered(rest, tolerance), value, tolerance, 0)
      case None =>
        FlattenPush(members, value.price);
      case Some(i) =>
        FlattenUpdate(members, i, value.price);
    }
  }

  lemma {:induction false} PricesPush(values: seq<Extremum>, value: Extremum)
    ensures multiset(Prices(values + [value])) == multiset(Prices(values)) + multiset{value.price}
  {
    assert Prices(values + [value]) == Prices(values) + [value.price];
  }

  lemma {:induction false} FlattenPush(members: seq<seq<real>>, price: real)
    ensures Flatten(members + [[price]]) == Flatten(members) + multiset{price}
  {
    assert (members + [[price]])[..|members|] == members;
  }

  /** No value is lost or counted twice: the members are the input, and touches add up to it. */
  lemma {:induction false} ClustersPartition(values: seq<Extremum>, tolerance: real)
    ensures Flatten(Members(values, tolerance)) == multiset(Prices(values))
    ensures TotalTouches(Clustered(values, tolerance)) == |values|
  {
    hide *;
    TouchesAddUp(values, tolerance);
    MembersAreValues(values, tolerance);
  }

  // ---- Which cluster takes a value ---------------------------------------

  /** A cluster close enough: nearer than the tolerated share of the value. The share of a negative
      value is negative, so every cluster takes it, and a value of zero is taken by none. */
  predicate Takes(c: Cluster, value: Extremum, tolerance: real) {
    if value.price > 0.0 then -tolerance * value.price < c.price - value.price < tolerance * value.price
    else value.price < 0.0 && Abs(c.price - value.price) > tolerance * value.price
  }

  lemma {:induction false} NearMeans(c: Cluster, value: Extremum, tolerance: real)
    ensures Near(c, value, tolerance) <==> Takes(c, value, tolerance)
  {
    var d := Abs(c.price - value.price);
    if value.price > 0.0 {
      ShareOf(d, value.price, tolerance);
    } else if value.price < 0.0 {
      ShareOf(d, -value.price, -tolerance);
      assert d / value.price == -(d / -value.price);
    }
  }

  lemma {:induction false} ShareOf(part: real, whole: real, k: real)
    requires whole > 0.0
    ensures part / whole < k <==> part < k * whole
    ensures part / whole > k <==> part > k * whole
  {
    var q := part / whole;
    assert q * whole == part;
    assert (q - k) * whole == part - k * whole;
    if q > k {
      assert (q - k) * whole > 0.0;
    } else if q < k {
      assert (k - q) * whole > 0.0;
    }
  }

  /** One value: the first cluster that takes it moves to the mean of one more and remembers it
      last; if none takes it, it starts a cluster. Nothing else changes. */
  ghost predicate Joins(before: seq<Cluster>, value: Extremum, tolerance: real, after: seq<Cluster>) {
    if exists i :: 0 <= i < |before| && Takes(before[i], value, tolerance) then
      exists i :: && 0 <= i < |before| == |after|
                  && Takes(before[i], value, tolerance) && (forall j :: 0 <= j < i ==> !Takes(before[j], value, tolerance))
                  && after[i].touches == before[i].touches + 1 && after[i].last == value.index
                  && after[i].touches as real * after[i].price == before[i].touches as real * before[i].price + value.price
                  && (forall j :: 0 <= j < |before| && j != i ==> after[j] == before[j])
    else after == before + [Cluster(value.price, 1, value.index)]
  }

  lemma {:induction false} MatchIsFirst(clusters: seq<Cluster>, value: Extremum, tolerance: real, from: nat)
    requires from <= |clusters|
    ensures match Match(clusters, value, tolerance, from)
            case None => forall i :: from <= i < |clusters| ==> !Takes(clusters[i], value, tolerance)
            case Some(r) =>
              && Takes(clusters[r], value, tolerance)
              && forall i :: from <= i < r ==> !Takes(clusters[i], value, tolerance)
    decreases |clusters| - from
  {
    hide Near, Takes;
    if from < |clusters| {
      NearMeans(clusters[from], value, tolerance);
      if !Near(clusters[from], value, tolerance) {
        MatchIsFirst(clusters, value, tolerance, from + 1);
      }
    }
  }

  /** Every value of a run joins that way. */
  lemma {:induction false} ClustersJoin(values: seq<Extremum>, tolerance: real, k: nat)
    requires k < |values|
    ensures Joins(Clustered(values[..k], tolerance), values[k], tolerance, Clustered(values[..k + 1], tolerance))
  {
    hide Match, Takes, Moved;
    assert values[..k + 1][..k] == values[..k];
    var before, after, value := Clustered(values[..k], tolerance), Clustered(values[..k + 1], tolerance), values[k];
    MatchIsFirst(before, value, tolerance, 0);
    match Match(before, value, tolerance, 0)
    case None =>
    case Some(i) =>
      MovedBack(before[i].price, before[i].touches + 1, value.price);
  }

  lemma MovedBack(price: real, touches: nat, value: real)
    requires touches >= 1
    ensures touches as real * Moved(price, touches, value) == (touches - 1) as real * price + value
  {
  }
}
