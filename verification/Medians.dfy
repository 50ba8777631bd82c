/** The index the leader tries to commit: the median of matchIndex. As written it sorts
    numbers as text; sorted as numbers it is an index a majority of the cluster stores. */
module Medians {
  import opened RaftTypes
  import opened Decimals

  /** a may stand before b. */
  predicate Ordered(numeric: bool, a: nat, b: nat) {
    if numeric then a <= b else !TextBelow(Decimal(b), Decimal(a))
  }

  function Insert(numeric: bool, x: nat, xs: seq<nat>): (r: seq<nat>)
    ensures |r| == |xs| + 1
  {
    if xs == [] || Ordered(numeric, x, xs[0]) then [x] + xs
    else [xs[0]] + Insert(numeric, x, xs[1..])
  }

  function Sort(numeric: bool, xs: seq<nat>): (r: seq<nat>)
    ensures |r| == |xs|
  {
    if xs == [] then [] else Insert(numeric, xs[0], Sort(numeric, xs[1..]))
  }

  function Median(numeric: bool, xs: seq<nat>): nat
    requires |xs| > 0
  {
    var sorted := Sort(numeric, xs);
    if |sorted| % 2 == 1 then sorted[|sorted| / 2] else sorted[|sorted| / 2 - 1]
  }

  // ----- sorting -----

  ghost predicate IsSorted(numeric: bool, xs: seq<nat>) {
    forall i, j :: 0 <= i < j < |xs| ==> Ordered(numeric, xs[i], xs[j])
  }

  lemma OrderedTransitive(numeric: bool, a: nat, b: nat, c: nat)
    requires Ordered(numeric, a, b) && Ordered(numeric, b, c)
    ensures Ordered(numeric, a, c)
  {
    if !numeric {
      TextTransitive(Decimal(a), Decimal(b), Decimal(c));
    }
  }

  lemma OrderedTotal(numeric: bool, a: nat, b: nat)
    ensures Ordered(numeric, a, b) || Ordered(numeric, b, a)
    ensures Ordered(numeric, a, b) && Ordered(numeric, b, a) ==> a == b
  {
    if !numeric {
      TextTotal(Decimal(a), Decimal(b));
      if Decimal(a) == Decimal(b) {
        DecimalInjective(a, b);
      }
    }
  }

  lemma {:induction false} InsertSorts(numeric: bool, x: nat, xs: seq<nat>)
    requires IsSorted(numeric, xs)
    ensures IsSorted(numeric, Insert(numeric, x, xs))
    ensures multiset(Insert(numeric, x, xs)) == multiset(xs) + multiset{x}
  {
    if xs == [] {
    } else if Ordered(numeric, x, xs[0]) {
      forall j | 0 <= j < |xs| ensures Ordered(numeric, x, xs[j]) {
        if j > 0 {
          OrderedTransitive(numeric, x, xs[0], xs[j]);
        }
      }
    } else {
      assert xs == [xs[0]] + xs[1..];
      InsertSorts(numeric, x, xs[1..]);
      OrderedTotal(numeric, x, xs[0]);
      var rest := Insert(numeric, x, xs[1..]);
      forall j | 0 <= j < |rest| ensures Ordered(numeric, xs[0], rest[j]) {
        assert rest[j] in multiset(rest);
        assert rest[j] == x || rest[j] in multiset(xs[1..]);
      }
    }
  }

  lemma {:induction false} SortSorts(numeric: bool, xs: seq<nat>)
    ensures IsSorted(numeric, Sort(numeric, xs))
    ensures multiset(Sort(numeric, xs)) == multiset(xs)
  {
    if xs != [] {
      assert xs == [xs[0]] + xs[1..];
      SortSorts(numeric, xs[1..]);
      InsertSorts(numeric, xs[0], Sort(numeric, xs[1..]));
    }
  }

  lemma SameHead(numeric: bool, xs: seq<nat>, ys: seq<nat>)
    requires |xs| > 0 && IsSorted(numeric, xs) && IsSorted(numeric, ys) && multiset(xs) == multiset(ys)
    ensures |ys| > 0 && xs[0] == ys[0]
  {
    assert xs[0] in multiset(ys);
    assert ys[0] in multiset(xs);
    var i :| 0 <= i < |xs| && xs[i] == ys[0];
    var j :| 0 <= j < |ys| && ys[j] == xs[0];
    OrderedTotal(numeric, xs[0], ys[0]);
  }

  lemma TailSorted(numeric: bool, xs: seq<nat>)
    requires |xs| > 0 && IsSorted(numeric, xs)
    ensures IsSorted(numeric, xs[1..]) && multiset(xs[1..]) == multiset(xs) - multiset{xs[0]}
  {
    assert xs == [xs[0]] + xs[1..];
  }

  /** A sorted list is determined by its elements. */
  lemma {:induction false} SortedUnique(numeric: bool, xs: seq<nat>, ys: seq<nat>)
    requires IsSorted(numeric, xs) && IsSorted(numeric, ys) && multiset(xs) == multiset(ys)
    ensures xs == ys
  {
    if xs == [] {
      assert |ys| == |multiset(ys)| == 0;
    } else {
      SameHead(numeric, xs, ys);
      TailSorted(numeric, xs);
      TailSorted(numeric, ys);
      SortedUnique(numeric, xs[1..], ys[1..]);
      assert xs == [xs[0]] + xs[1..] && ys == [ys[0]] + ys[1..];
    }
  }

  /** No two of the numbers are ordered differently as text. */
  ghost predicate TextAgrees(xs: seq<nat>) {
    forall a, b :: a in xs && b in xs && a < b ==> Ordered(false, a, b)
  }

  lemma TextAgreesIfSorted(xs: seq<nat>, sorted: seq<nat>)
    requires multiset(xs) == multiset(sorted) && IsSorted(true, sorted) && IsSorted(false, sorted)
    ensures TextAgrees(xs)
  {
    forall a, b | a in xs && b in xs && a < b ensures Ordered(false, a, b) {
      assert a in multiset(sorted) && b in multiset(sorted);
      var i :| 0 <= i < |sorted| && sorted[i] == a;
      var j :| 0 <= j < |sorted| && sorted[j] == b;
      assert j < i ==> Ordered(true, b, a);
    }
  }

  lemma SortedIfTextAgrees(xs: seq<nat>, sorted: seq<nat>)
    requires multiset(xs) == multiset(sorted) && IsSorted(true, sorted) && TextAgrees(xs)
    ensures IsSorted(false, sorted)
  {
    forall i, j | 0 <= i < j < |sorted| ensures Ordered(false, sorted[i], sorted[j]) {
      assert sorted[i] in multiset(xs) && sorted[j] in multiset(xs);
      assert Ordered(true, sorted[i], sorted[j]);
      OrderedTotal(false, sorted[i], sorted[j]);
    }
  }

  /** The text sort gives the numeric order exactly when no two of the numbers are ordered
      differently as text; 2 and 10 are such a pair. */
  lemma TextSortIsNumericIff(xs: seq<nat>)
    ensures Sort(false, xs) == Sort(true, xs) <==> TextAgrees(xs)
  {
    var text, numeric := Sort(false, xs), Sort(true, xs);
    SortSorts(false, xs);
    SortSorts(true, xs);
    if text == numeric {
      TextAgreesIfSorted(xs, text);
    }
    if TextAgrees(xs) {
      SortedIfTextAgrees(xs, numeric);
      SortedUnique(false, text, numeric);
    }
  }

  /** Two followers that store up to 2 and up to 10: the text order is 10, 2, so the source
      picks 10, an index only one follower has. */
  lemma TextMedianOvershoots()
    ensures Median(false, [2, 10]) == 10 && Median(true, [2, 10]) == 2
  {
    assert Decimal(10) == Decimal(1) + [Digit(0)] == "10" && Decimal(2) == "2";
    assert !TextBelow("2", "10") && TextBelow("10", "2");
    assert [2, 10][1..] == [10] && [10][1..] == [];
    assert Sort(false, [10]) == [10] && Sort(true, [10]) == [10];
    assert Sort(false, [2, 10]) == Insert(false, 2, [10]) == [10, 2];
    assert Sort(true, [2, 10]) == Insert(true, 2, [10]) == [2, 10];
  }

  // ----- majorities -----

  /** How many of the values reach v. */
  ghost function Reaching(xs: seq<nat>, v: nat): nat {
    if xs == [] then 0 else (if xs[0] >= v then 1 else 0) + Reaching(xs[1..], v)
  }

  /** floor(n / 2) + 1 of n servers, as the candidate counts it too. */
  predicate MajorityOf(n: nat, count: nat) {
    count >= n / 2 + 1
  }

  lemma {:induction false} ReachingInsert(x: nat, xs: seq<nat>, v: nat)
    ensures Reaching(Insert(true, x, xs), v) == Reaching(xs, v) + if x >= v then 1 else 0
  {
    if xs == [] || x <= xs[0] {
      assert ([x] + xs)[1..] == xs;
    } else {
      ReachingInsert(x, xs[1..], v);
      assert ([xs[0]] + Insert(true, x, xs[1..]))[1..] == Insert(true, x, xs[1..]);
    }
  }

  lemma {:induction false} ReachingSort(xs: seq<nat>, v: nat)
    ensures Reaching(Sort(true, xs), v) == Reaching(xs, v)
  {
    if xs != [] {
      ReachingSort(xs[1..], v);
      ReachingInsert(xs[0], Sort(true, xs[1..]), v);
    }
  }

  /** In a sorted list at least k values reach v exactly when the k-th from the end does. */
  lemma {:induction false} ReachingSorted(xs: seq<nat>, v: nat, k: nat)
    requires IsSorted(true, xs) && 0 < k <= |xs|
    ensures Reaching(xs, v) >= k <==> xs[|xs| - k] >= v
  {
    ReachingAtMost(xs[1..], v);
    if k < |xs| {
      ReachingSorted(xs[1..], v, k);
    } else if xs[0] >= v {
      ReachingAll(xs, v);
    }
  }

  lemma {:induction false} ReachingAtMost(xs: seq<nat>, v: nat)
    ensures Reaching(xs, v) <= |xs|
  {
    if xs != [] {
      ReachingAtMost(xs[1..], v);
    }
  }

  lemma {:induction false} ReachingAll(xs: seq<nat>, v: nat)
    requires forall i :: 0 <= i < |xs| ==> xs[i] >= v
    ensures Reaching(xs, v) == |xs|
  {
    if xs != [] {
      ReachingAll(xs[1..], v);
    }
  }

  /** m is the largest index the leader and some followers that reach it, a majority, store. */
  ghost predicate LargestMajorityIndex(xs: seq<nat>, m: nat) {
    && MajorityOf(|xs| + 1, 1 + Reaching(xs, m))
    && forall v: nat :: MajorityOf(|xs| + 1, 1 + Reaching(xs, v)) ==> v <= m
  }

  lemma MajorityIndexIff(xs: seq<nat>, v: nat)
    requires |xs| > 0
    ensures MajorityOf(|xs| + 1, 1 + Reaching(xs, v)) <==> v <= Sort(true, xs)[|xs| / 2]
  {
    var n, need := |xs|, (|xs| + 1) / 2;
    HalfUp(n);
    SortSorts(true, xs);
    ReachingSort(xs, v);
    ReachingSorted(Sort(true, xs), v, need);
  }

  lemma HalfUp(n: nat)
    requires n > 0
    ensures n - (n + 1) / 2 == n / 2 && 0 < (n + 1) / 2 <= n
  {
  }

  lemma {:induction false} BestIndex(xs: seq<nat>)
    requires |xs| > 0
    ensures LargestMajorityIndex(xs, Sort(true, xs)[|xs| / 2])
  {
    forall v: nat ensures MajorityOf(|xs| + 1, 1 + Reaching(xs, v)) <==> v <= Sort(true, xs)[|xs| / 2] {
      MajorityIndexIff(xs, v);
    }
  }

  lemma {:induction false} ReachingMonotone(xs: seq<nat>, v: nat, w: nat)
    requires v <= w
    ensures Reaching(xs, w) <= Reaching(xs, v)
  {
    if xs != [] {
      ReachingMonotone(xs[1..], v, w);
    }
  }

  /** For any number of followers, the leader and the followers at or above the numeric
      median are a majority of the cluster. With an odd number of followers it is the
      largest such index; with an even number exactly when the two middle values are equal. */
  lemma {:induction false} MedianIsMajorityIndex(xs: seq<nat>)
    requires |xs| > 0
    ensures MajorityOf(|xs| + 1, 1 + Reaching(xs, Median(true, xs)))
    ensures LargestMajorityIndex(xs, Median(true, xs))
       <==> |xs| % 2 == 1 || Sort(true, xs)[|xs| / 2 - 1] == Sort(true, xs)[|xs| / 2]
  {
    var sorted := Sort(true, xs);
    SortSorts(true, xs);
    BestIndex(xs);
    var best := sorted[|xs| / 2];
    if |xs| % 2 == 0 {
      assert Ordered(true, sorted[|xs| / 2 - 1], best);
    }
    ReachingMonotone(xs, Median(true, xs), best);
  }
}
