/** The stable sort behind `sort.SliceStable`, as insertion from the left. */
module Sorting {
  import opened Model

  ghost predicate SortedBy<T>(key: T -> int, s: seq<T>) {
    forall i, j :: 0 <= i < j < |s| ==> key(s[i]) <= key(s[j])
  }

  /** Puts `x` behind every element whose key does not exceed its own. */
  function Insert<T>(key: T -> int, s: seq<T>, x: T): (r: seq<T>)
    ensures |r| == |s| + 1
    ensures multiset(r) == multiset(s) + multiset{x}
  {
    if s == [] || key(s[|s| - 1]) <= key(x) then s + [x]
    else
      assert s == s[..|s| - 1] + [s[|s| - 1]];
      Insert(key, s[..|s| - 1], x) + [s[|s| - 1]]
  }

  function StableSort<T>(key: T -> int, s: seq<T>): (r: seq<T>)
    ensures |r| == |s|
    ensures multiset(r) == multiset(s)
  {
    if s == [] then []
    else
      assert s == s[..|s| - 1] + [s[|s| - 1]];
      Insert(key, StableSort(key, s[..|s| - 1]), s[|s| - 1])
  }

  lemma {:induction false} InsertElements<T>(key: T -> int, s: seq<T>, x: T)
    ensures forall y :: y in Insert(key, s, x) ==> y in s || y == x
  {
    hide Insert;
    forall y | y in Insert(key, s, x) ensures y in s || y == x {
      assert y in multiset(Insert(key, s, x));
    }
  }

  lemma {:induction false} SortedPush<T>(key: T -> int, s: seq<T>, x: T)
    requires SortedBy(key, s) && forall y :: y in s ==> key(y) <= key(x)
    ensures SortedBy(key, s + [x])
  {
  }

  lemma {:induction false} InsertSorted<T>(key: T -> int, s: seq<T>, x: T)
    requires SortedBy(key, s)
    ensures SortedBy(key, Insert(key, s, x))
  {
    if s == [] || key(s[|s| - 1]) <= key(x) {
      SortedPush(key, s, x);
    } else {
      var head, last := s[..|s| - 1], s[|s| - 1];
      InsertSorted(key, head, x);
      InsertElements(key, head, x);
      assert forall y :: y in head ==> key(y) <= key(last);
      SortedPush(key, Insert(key, head, x), last);
    }
  }

  lemma {:induction false} StableSortSorted<T>(key: T -> int, s: seq<T>)
    ensures SortedBy(key, StableSort(key, s))
  {
    if s != [] {
      StableSortSorted(key, s[..|s| - 1]);
      InsertSorted(key, StableSort(key, s[..|s| - 1]), s[|s| - 1]);
    }
  }

  lemma {:induction false} SameElements<T>(key: T -> int, s: seq<T>)
    ensures forall x :: x in StableSort(key, s) <==> x in s
  {
    assert forall x :: x in s <==> x in multiset(s);
    assert forall x :: x in StableSort(key, s) <==> x in multiset(StableSort(key, s));
  }

  /** A list already in key order is left alone. */
  lemma {:induction false} StableSortIdentity<T>(key: T -> int, s: seq<T>)
    requires SortedBy(key, s)
    ensures StableSort(key, s) == s
  {
    hide Insert;
    if s != [] {
      var head, x := s[..|s| - 1], s[|s| - 1];
      StableSortIdentity(key, head);
      assert head != [] ==> key(s[|s| - 2]) <= key(x);
      InsertLast(key, head, x);
      assert s == head + [x];
    }
  }

  lemma InsertLast<T>(key: T -> int, s: seq<T>, x: T)
    requires s == [] || key(s[|s| - 1]) <= key(x)
    ensures Insert(key, s, x) == s + [x]
  {
  }

  /** The elements sharing a key. */
  function WithKey<T>(key: T -> int, s: seq<T>, k: int): seq<T> {
    if s == [] then []
    else
      var rest := WithKey(key, s[..|s| - 1], k);
      if key(s[|s| - 1]) == k then rest + [s[|s| - 1]] else rest
  }

  lemma {:induction false} InsertStable<T>(key: T -> int, s: seq<T>, x: T, k: int)
    requires SortedBy(key, s)
    ensures WithKey(key, Insert(key, s, x), k) ==
            if key(x) == k then WithKey(key, s, k) + [x] else WithKey(key, s, k)
  {
    if s == [] || key(s[|s| - 1]) <= key(x) {
      assert (s + [x])[..|s|] == s;
    } else {
      var head, last := s[..|s| - 1], s[|s| - 1];
      InsertStable(key, head, x, k);
      var r := Insert(key, head, x);
      assert (r + [last])[..|r|] == r;
      if key(last) == k {
        assert key(x) != k;
      }
    }
  }

  /** Elements with equal keys keep their order. */
  lemma {:induction false} StableSortStable<T>(key: T -> int, s: seq<T>, k: int)
    ensures WithKey(key, StableSort(key, s), k) == WithKey(key, s, k)
  {
    if s != [] {
      var head, x := s[..|s| - 1], s[|s| - 1];
      StableSortStable(key, head, k);
      StableSortSorted(key, head);
      InsertStable(key, StableSort(key, head), x, k);
    }
  }

  /** Selecting keeps key order. */
  lemma {:induction false} FilterSorted<T>(key: T -> int, p: T -> bool, s: seq<T>)
    requires SortedBy(key, s)
    ensures SortedBy(key, Filter(p, s))
  {
    if s != [] {
      var rest, x := s[..|s| - 1], s[|s| - 1];
      FilterSorted(key, p, rest);
      var kept := Filter(p, rest);
      forall i | 0 <= i < |kept| ensures key(kept[i]) <= key(x) {
        FilterMember(p, rest, kept[i]);
        var k :| 0 <= k < |rest| && rest[k] == kept[i];
        assert key(s[k]) <= key(x);
      }
    }
  }
}
