/**
 * PHP 8's `usort` is stable: elements the comparator calls equal keep their
 * relative order. It is modelled by a stable insertion sort on a rank; a
 * descending order is an ascending one on the negated rank.
 */
module Ranking {

  /** Every element ranks no higher than the ones after it. */
  ghost predicate SortedBy<T>(s: seq<T>, rank: T -> real) {
    forall i, j :: 0 <= i < j < |s| ==> rank(s[i]) <= rank(s[j])
  }

  /** The elements of rank exactly `k`, in order. */
  function WithRank<T>(s: seq<T>, rank: T -> real, k: real): (r: seq<T>)
    ensures |r| <= |s|
  {
    if s == [] then []
    else (if rank(s[0]) == k then [s[0]] else []) + WithRank(s[1..], rank, k)
  }

  /** Insert `x` after every element of rank at most its own. */
  function Insert<T>(s: seq<T>, x: T, rank: T -> real): (r: seq<T>)
    ensures |r| == |s| + 1
    ensures multiset(r) == multiset(s) + multiset{x}
  {
    if s == [] then [x]
    else if rank(s[0]) > rank(x) then [x] + s
    else
      assert s == [s[0]] + s[1..];
      [s[0]] + Insert(s[1..], x, rank)
  }

  /** A sorted list headed by an element ranking no higher than any of it is sorted. */
  lemma ConsSorted<T>(h: T, t: seq<T>, rank: T -> real)
    requires SortedBy(t, rank)
    requires forall j :: 0 <= j < |t| ==> rank(h) <= rank(t[j])
    ensures SortedBy([h] + t, rank)
  {
    var r := [h] + t;
    forall i, j | 0 <= i < j < |r|
      ensures rank(r[i]) <= rank(r[j])
    {
      assert r[j] == t[j - 1];
      if i > 0 {
        assert r[i] == t[i - 1];
      }
    }
  }

  /** Dropping the last element of a sorted list leaves it sorted. */
  lemma SortedInit<T>(s: seq<T>, rank: T -> real)
    requires SortedBy(s, rank) && s != []
    ensures SortedBy(s[..|s| - 1], rank)
  {
  }

  /** Appending an element ranking at least as high as every element keeps a list sorted. */
  lemma SnocSorted<T>(s: seq<T>, x: T, rank: T -> real)
    requires SortedBy(s, rank)
    requires forall y :: y in s ==> rank(y) <= rank(x)
    ensures SortedBy(s + [x], rank)
  {
    var r := s + [x];
    forall i, j | 0 <= i < j < |r|
      ensures rank(r[i]) <= rank(r[j])
    {
      assert r[i] == s[i];
      if j < |s| {
        assert r[j] == s[j];
      } else {
        assert s[i] in s;
      }
    }
  }

  /** Every element of an insertion is `x` or an element of `s`. */
  lemma InsertFrom<T>(s: seq<T>, x: T, rank: T -> real, j: nat)
    requires j < |Insert(s, x, rank)|
    ensures Insert(s, x, rank)[j] == x || exists i :: 0 <= i < |s| && s[i] == Insert(s, x, rank)[j]
  {
    var y := Insert(s, x, rank)[j];
    assert y in multiset(Insert(s, x, rank));
    if y != x {
      assert y in multiset(s);
    }
  }

  /** Inserting into a sorted list keeps it sorted. */
  lemma {:induction false} InsertSorted<T>(s: seq<T>, x: T, rank: T -> real)
    requires SortedBy(s, rank)
    ensures SortedBy(Insert(s, x, rank), rank)
  {
    if s == [] {
    } else if rank(s[0]) > rank(x) {
      forall j | 0 <= j < |s|
        ensures rank(x) <= rank(s[j])
      {
        assert j == 0 || rank(s[0]) <= rank(s[j]);
      }
      ConsSorted(x, s, rank);
    } else {
      var tl := s[1..];
      var t := Insert(tl, x, rank);
      InsertSorted(tl, x, rank);
      forall j | 0 <= j < |t|
        ensures rank(s[0]) <= rank(t[j])
      {
        InsertFrom(tl, x, rank, j);
        if t[j] != x {
          var i :| 0 <= i < |tl| && tl[i] == t[j];
          assert tl[i] == s[i + 1];
        }
      }
      ConsSorted(s[0], t, rank);
    }
  }

  /** `usort($xs, fn ($a, $b) => rank($a) <=> rank($b))`. */
  function SortBy<T>(xs: seq<T>, rank: T -> real): (r: seq<T>)
    ensures |r| == |xs|
    ensures multiset(r) == multiset(xs)
    ensures SortedBy(r, rank)
  {
    if xs == [] then []
    else
      var init, last := xs[..|xs| - 1], xs[|xs| - 1];
      assert xs == init + [last];
      var sorted := SortBy(init, rank);
      InsertSorted(sorted, last, rank);
      Insert(sorted, last, rank)
  }

  /** The elements of rank `k` of a concatenation are those of each part, in order. */
  lemma {:induction false} WithRankAppend<T>(s: seq<T>, t: seq<T>, rank: T -> real, k: real)
    ensures WithRank(s + t, rank, k) == WithRank(s, rank, k) + WithRank(t, rank, k)
  {
    if s == [] {
      assert s + t == t;
    } else {
      var h := if rank(s[0]) == k then [s[0]] else [];
      var u := s + t;
      assert u != [] && u[0] == s[0] && u[1..] == s[1..] + t;
      assert WithRank(u, rank, k) == h + WithRank(s[1..] + t, rank, k);
      WithRankAppend(s[1..], t, rank, k);
      assert WithRank(s, rank, k) == h + WithRank(s[1..], rank, k);
      assert h + (WithRank(s[1..], rank, k) + WithRank(t, rank, k))
          == (h + WithRank(s[1..], rank, k)) + WithRank(t, rank, k);
    }
  }

  lemma {:induction false} WithRankAbove<T>(s: seq<T>, rank: T -> real, k: real)
    requires forall y :: y in s ==> rank(y) > k
    ensures WithRank(s, rank, k) == []
  {
    if s != [] {
      WithRankAbove(s[1..], rank, k);
    }
  }

  /** Every element of a sorted list ranks at least as high as its head. */
  lemma SortedAbove<T>(s: seq<T>, rank: T -> real, k: real)
    requires SortedBy(s, rank) && s != [] && rank(s[0]) > k
    ensures forall y :: y in s ==> rank(y) > k
  {
    forall y | y in s
      ensures rank(y) > k
    {
      var i :| 0 <= i < |s| && s[i] == y;
      assert i == 0 || rank(s[0]) <= rank(s[i]);
    }
  }

  lemma Associative<T>(a: seq<T>, b: seq<T>, c: seq<T>)
    ensures a + (b + c) == (a + b) + c
  {
  }

  /** The elements of rank `k` of a list with head `h` and rest `t`. */
  lemma WithRankCons<T>(h: T, t: seq<T>, rank: T -> real, k: real)
    ensures WithRank([h] + t, rank, k) == (if rank(h) == k then [h] else []) + WithRank(t, rank, k)
  {
    var r := [h] + t;
    assert r[0] == h && r[1..] == t;
  }

  /** Past a head ranking no higher than `x`, insertion goes on into the rest. */
  lemma InsertStep<T>(s: seq<T>, x: T, rank: T -> real)
    requires s != [] && rank(s[0]) <= rank(x)
    ensures Insert(s, x, rank) == [s[0]] + Insert(s[1..], x, rank)
  {
  }

  /** Inserting in front of a sorted list whose head ranks above `x`. */
  lemma InsertFrontWithRank<T>(s: seq<T>, x: T, rank: T -> real, k: real)
    requires SortedBy(s, rank) && s != [] && rank(s[0]) > rank(x)
    ensures WithRank([x] + s, rank, k) == WithRank(s, rank, k) + (if rank(x) == k then [x] else [])
  {
    WithRankCons(x, s, rank, k);
    if rank(x) == k {
      SortedAbove(s, rank, k);
      WithRankAbove(s, rank, k);
    }
  }

  /** Inserting past the head: what holds of the rest holds of the whole list. */
  lemma InsertBehindWithRank<T>(s: seq<T>, x: T, rank: T -> real, k: real)
    requires s != [] && rank(s[0]) <= rank(x)
    requires WithRank(Insert(s[1..], x, rank), rank, k)
          == WithRank(s[1..], rank, k) + (if rank(x) == k then [x] else [])
    ensures WithRank(Insert(s, x, rank), rank, k)
         == WithRank(s, rank, k) + (if rank(x) == k then [x] else [])
  {
    var tl, tail := s[1..], if rank(x) == k then [x] else [];
    var h := if rank(s[0]) == k then [s[0]] else [];
    var t, w := Insert(tl, x, rank), WithRank(tl, rank, k);
    calc {
      WithRank(Insert(s, x, rank), rank, k);
    == { InsertStep(s, x, rank); }
      WithRank([s[0]] + t, rank, k);
    == { WithRankCons(s[0], t, rank, k); }
      h + WithRank(t, rank, k);
    ==
      h + (w + tail);
    == { Associative(h, w, tail); }
      (h + w) + tail;
    ==
      WithRank(s, rank, k) + tail;
    }
  }

  /** The rest of a sorted list is sorted. */
  lemma SortedTail<T>(s: seq<T>, rank: T -> real)
    requires SortedBy(s, rank) && s != []
    ensures SortedBy(s[1..], rank)
  {
    var tl := s[1..];
    forall i, j | 0 <= i < j < |tl|
      ensures rank(tl[i]) <= rank(tl[j])
    {
      assert tl[i] == s[i + 1] && tl[j] == s[j + 1];
    }
  }

  /** Inserting into a sorted list adds `x` after the elements of its own rank. */
  lemma {:induction false} InsertWithRank<T>(s: seq<T>, x: T, rank: T -> real, k: real)
    requires SortedBy(s, rank)
    ensures WithRank(Insert(s, x, rank), rank, k)
         == WithRank(s, rank, k) + (if rank(x) == k then [x] else [])
  {
    if s == [] {
      WithRankCons(x, [], rank, k);
      assert [x] + [] == [x];
    } else if rank(s[0]) > rank(x) {
      InsertFrontWithRank(s, x, rank, k);
    } else {
      SortedTail(s, rank);
      InsertWithRank(s[1..], x, rank, k);
      InsertBehindWithRank(s, x, rank, k);
    }
  }

  /** Stability: among elements of equal rank the input order is kept. */
  lemma {:induction false} SortByStable<T>(xs: seq<T>, rank: T -> real, k: real)
    ensures WithRank(SortBy(xs, rank), rank, k) == WithRank(xs, rank, k)
    decreases |xs|
  {
    if xs != [] {
      var init, last := xs[..|xs| - 1], xs[|xs| - 1];
      assert xs == init + [last];
      var tail := if rank(last) == k then [last] else [];
      assert WithRank(xs, rank, k) == WithRank(init, rank, k) + tail by {
        WithRankAppend(init, [last], rank, k);
        assert WithRank([last], rank, k) == tail + WithRank([], rank, k);
      }
      assert WithRank(SortBy(xs, rank), rank, k) == WithRank(init, rank, k) + tail by {
        var sorted := SortBy(init, rank);
        assert SortBy(xs, rank) == Insert(sorted, last, rank);
        SortByStable(init, rank, k);
        InsertWithRank(sorted, last, rank, k);
      }
    }
  }
}
