/** The stable insertion sort that stands for Go's sort.SliceStable. */
module Sorting {

  /** `less` is a strict weak order: what sort.SliceStable asks of its callers. */
  ghost predicate WeakOrder<T(!new)>(less: (T, T) -> bool) {
    && (forall a, b :: less(a, b) ==> !less(b, a))
    && (forall a, b, c :: !less(b, a) && !less(c, b) ==> !less(c, a))
  }

  /** No later element belongs strictly before an earlier one. */
  ghost predicate Ordered<T>(less: (T, T) -> bool, s: seq<T>) {
    forall i, j :: 0 <= i < j < |s| ==> !less(s[j], s[i])
  }

  function Insert<T>(less: (T, T) -> bool, x: T, s: seq<T>): (r: seq<T>)
    ensures multiset(r) == multiset{x} + multiset(s)
  {
    if s == [] then [x]
    else if less(s[0], x) then
      assert s == [s[0]] + s[1..];
      [s[0]] + Insert(less, x, s[1..])
    else [x] + s
  }

  function StableSort<T>(less: (T, T) -> bool, s: seq<T>): (r: seq<T>)
    ensures multiset(r) == multiset(s)
  {
    if s == [] then []
    else
      assert s == [s[0]] + s[1..];
      Insert(less, s[0], StableSort(less, s[1..]))
  }

  lemma {:induction false} InsertKeepsOrder<T(!new)>(less: (T, T) -> bool, x: T, s: seq<T>)
    requires WeakOrder(less) && Ordered(less, s)
    ensures Ordered(less, Insert(less, x, s))
  {
    if s != [] {
      var r := Insert(less, x, s);
      if less(s[0], x) {
        var tail := Insert(less, x, s[1..]);
        InsertKeepsOrder(less, x, s[1..]);
        forall j | 0 <= j < |tail| ensures !less(tail[j], s[0]) {
          SameMembers(tail, [x] + s[1..]);
          assert tail[j] in [x] + s[1..];
        }
      } else {
        forall j | 0 <= j < |s| ensures !less(s[j], x) {
          assert j > 0 ==> !less(s[j], s[0]);
        }
      }
    }
  }

  lemma {:induction false} SortOrders<T(!new)>(less: (T, T) -> bool, s: seq<T>)
    requires WeakOrder(less)
    ensures Ordered(less, StableSort(less, s))
  {
    if s != [] {
      SortOrders(less, s[1..]);
      InsertKeepsOrder(less, s[0], StableSort(less, s[1..]));
    }
  }

  lemma SameMembers<T>(a: seq<T>, b: seq<T>)
    requires multiset(a) == multiset(b)
    ensures |a| == |b|
    ensures forall x :: x in a <==> x in b
  {
    assert |multiset(a)| == |multiset(b)|;
    forall x ensures x in a <==> x in b {
      assert x in a <==> x in multiset(a);
      assert x in b <==> x in multiset(b);
    }
  }

  ghost predicate Distinct<T>(s: seq<T>) {
    forall i, j :: 0 <= i < j < |s| ==> s[i] != s[j]
  }

  lemma {:induction false} DistinctCounts<T>(s: seq<T>)
    ensures Distinct(s) <==> forall x :: multiset(s)[x] <= 1
  {
    if s != [] {
      var head, rest := s[0], s[1..];
      assert s == [head] + rest;
      DistinctCounts(rest);
      assert head in rest <==> multiset(rest)[head] > 0;
      if Distinct(rest) && head !in rest {
        forall x ensures multiset(s)[x] <= 1 {
          assert multiset(s)[x] == multiset([head])[x] + multiset(rest)[x];
        }
      } else if head in rest {
        assert multiset(s)[head] >= 2;
        var k :| 0 <= k < |rest| && rest[k] == head;
        assert s[0] == s[k + 1];
      } else {
        var x :| multiset(rest)[x] > 1;
        assert multiset(s)[x] > 1;
        var i, j :| 0 <= i < j < |rest| && rest[i] == rest[j];
        assert s[i + 1] == s[j + 1];
      }
    }
  }

  /** Rearranging a sequence of distinct elements keeps them distinct. */
  lemma DistinctRearranged<T>(a: seq<T>, b: seq<T>)
    requires multiset(a) == multiset(b) && Distinct(a)
    ensures Distinct(b)
  {
    DistinctCounts(a);
    DistinctCounts(b);
  }

  /** What is ordered already is left alone. */
  lemma {:induction false} OrderedStays<T(!new)>(less: (T, T) -> bool, s: seq<T>)
    requires Ordered(less, s)
    ensures StableSort(less, s) == s
  {
    if s != [] {
      OrderedStays(less, s[1..]);
      assert s == [s[0]] + s[1..];
      assert |s| > 1 ==> !less(s[1], s[0]);
    }
  }
}
