/** Sorting with a strict total order, and the neighbour test for duplicates. */
module Sorting {

  ghost predicate StrictOrder<T(!new)>(less: (T, T) -> bool) {
    && (forall a :: !less(a, a))
    && (forall a, b :: less(a, b) || less(b, a) || a == b)
    && (forall a, b, c :: less(a, b) && less(b, c) ==> less(a, c))
  }

  function Insert<T>(x: T, s: seq<T>, less: (T, T) -> bool): seq<T> {
    if s == [] || !less(s[0], x) then [x] + s else [s[0]] + Insert(x, s[1..], less)
  }

  function Sort<T>(s: seq<T>, less: (T, T) -> bool): seq<T> {
    if s == [] then [] else Insert(s[0], Sort(s[1..], less), less)
  }

  predicate HasAdjacentDuplicate<T(==)>(s: seq<T>) {
    exists i | 0 < i < |s| :: s[i] == s[i - 1]
  }

  predicate Increasing<T>(s: seq<T>, less: (T, T) -> bool) {
    forall i, j | 0 <= i < j < |s| :: less(s[i], s[j])
  }

  ghost predicate NonDecreasing<T(!new)>(s: seq<T>, less: (T, T) -> bool) {
    forall i, j | 0 <= i < j < |s| :: !less(s[j], s[i])
  }

  predicate Distinct<T(==)>(s: seq<T>) {
    forall i, j | 0 <= i < j < |s| :: s[i] != s[j]
  }

  lemma {:induction false} InsertKeepsOrder<T(!new)>(x: T, s: seq<T>, less: (T, T) -> bool)
    requires StrictOrder(less) && NonDecreasing(s, less)
    ensures NonDecreasing(Insert(x, s, less), less)
    ensures multiset(Insert(x, s, less)) == multiset{x} + multiset(s)
  {
    if s != [] && less(s[0], x) {
      InsertKeepsOrder(x, s[1..], less);
      var r := Insert(x, s[1..], less);
      assert s == [s[0]] + s[1..];
      forall j | 0 <= j < |r|
        ensures !less(r[j], s[0])
      {
        assert r[j] in multiset(r);
        if r[j] != x {
          assert r[j] in s[1..];
        }
      }
    }
  }

  lemma {:induction false} SortSorts<T(!new)>(s: seq<T>, less: (T, T) -> bool)
    requires StrictOrder(less)
    ensures NonDecreasing(Sort(s, less), less) && multiset(Sort(s, less)) == multiset(s)
  {
    if s != [] {
      SortSorts(s[1..], less);
      InsertKeepsOrder(s[0], Sort(s[1..], less), less);
      assert s == [s[0]] + s[1..];
    }
  }

  /** In a sorted list the neighbour test finds every duplicate. */
  lemma NeighboursSuffice<T(!new)>(s: seq<T>, less: (T, T) -> bool)
    requires StrictOrder(less) && NonDecreasing(s, less)
    ensures !HasAdjacentDuplicate(s) <==> Increasing(s, less)
  {
    if !HasAdjacentDuplicate(s) {
      forall i, j | 0 <= i < j < |s|
        ensures less(s[i], s[j])
      {
        assert s[i + 1] != s[i] && !less(s[i + 1], s[i]);
        assert j == i + 1 || !less(s[j], s[i + 1]);
      }
    }
  }

  /** Increasing lists with the same elements are equal. */
  lemma {:induction false} IncreasingIsUnique<T(!new)>(a: seq<T>, b: seq<T>, less: (T, T) -> bool)
    requires StrictOrder(less) && Increasing(a, less) && Increasing(b, less) && multiset(a) == multiset(b)
    ensures a == b
  {
    if a == [] {
      assert |multiset(b)| == 0;
    } else {
      assert a[0] in multiset(b);
      assert b[0] in multiset(a);
      assert a[0] == b[0];
      assert a == [a[0]] + a[1..] && b == [b[0]] + b[1..];
      assert multiset(a[1..]) == multiset(a) - multiset{a[0]};
      assert multiset(b[1..]) == multiset(b) - multiset{b[0]};
      IncreasingIsUnique(a[1..], b[1..], less);
    }
  }

  lemma {:induction false} SortOfIncreasing<T(!new)>(s: seq<T>, less: (T, T) -> bool)
    requires StrictOrder(less) && Increasing(s, less)
    ensures Sort(s, less) == s && !HasAdjacentDuplicate(s)
  {
    if s != [] {
      SortOfIncreasing(s[1..], less);
      assert |s| > 1 ==> less(s[0], s[1]);
      assert s == [s[0]] + s[1..];
    }
  }

  lemma {:induction false} DistinctCounts<T(!new)>(s: seq<T>)
    ensures Distinct(s) <==> forall x | x in s :: multiset(s)[x] == 1
  {
    if s != [] {
      DistinctCounts(s[1..]);
      assert s == [s[0]] + s[1..];
      assert multiset(s) == multiset{s[0]} + multiset(s[1..]);
      assert s[0] in s;
      if Distinct(s) {
        assert s[0] !in s[1..];
      } else if Distinct(s[1..]) {
        assert s[0] in s[1..];
        assert multiset(s)[s[0]] >= 2;
      } else {
        var x :| x in s[1..] && multiset(s[1..])[x] != 1;
        assert multiset(s)[x] >= 2;
      }
    }
  }

  /** Sorting and then comparing neighbours accepts exactly the lists without repetitions. */
  lemma SortFindsDuplicates<T(!new)>(s: seq<T>, less: (T, T) -> bool)
    requires StrictOrder(less)
    ensures !HasAdjacentDuplicate(Sort(s, less)) <==> Distinct(s)
  {
    var t := Sort(s, less);
    SortSorts(s, less);
    NeighboursSuffice(t, less);
    DistinctCounts(s);
    DistinctCounts(t);
    assert forall x :: x in s <==> x in multiset(t);
    if HasAdjacentDuplicate(t) {
      assert !Distinct(t);
    }
  }

  /** The sorted list depends only on which elements are listed, and how often. */
  lemma SortForgetsOrder<T(!new)>(s: seq<T>, t: seq<T>, less: (T, T) -> bool)
    requires StrictOrder(less) && multiset(s) == multiset(t) && Distinct(s)
    ensures Sort(s, less) == Sort(t, less)
  {
    SortSorts(s, less);
    SortSorts(t, less);
    SortFindsDuplicates(s, less);
    DistinctCounts(s);
    DistinctCounts(t);
    assert forall x :: x in t <==> x in multiset(s);
    SortFindsDuplicates(t, less);
    NeighboursSuffice(Sort(s, less), less);
    NeighboursSuffice(Sort(t, less), less);
    IncreasingIsUnique(Sort(s, less), Sort(t, less), less);
  }
}
