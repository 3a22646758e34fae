/** What sort.Slice and sort.Strings promise: for a strict weak order, some
    ordered permutation of the input. */
module Sorting {
  import opened Prelude

  /** What sort.Slice asks of its less function. */
  ghost predicate WeakOrder<T(!new)>(less: (T, T) -> bool)
  {
    && (forall x :: !less(x, x))
    && (forall x, y, z :: less(x, y) && less(y, z) ==> less(x, z))
    && (forall x, y, z :: !less(x, y) && !less(y, z) ==> !less(x, z))
  }

  /** Different values are never tied. */
  ghost predicate TotalOrder<T(!new)>(less: (T, T) -> bool)
  {
    && WeakOrder(less)
    && forall x, y :: less(x, y) || less(y, x) || x == y
  }

  predicate Ordered<T>(less: (T, T) -> bool, s: seq<T>)
  {
    forall i, j | 0 <= i < j < |s| :: !less(s[j], s[i])
  }

  /** The contract of a sorting function. It says nothing about ties. */
  ghost predicate Sorts<T(!new)>(less: (T, T) -> bool, sort: seq<T> -> seq<T>)
  {
    forall s :: multiset(sort(s)) == multiset(s) && Ordered(less, sort(s))
  }

  function Insert<T>(less: (T, T) -> bool, s: seq<T>, x: T): (r: seq<T>)
    ensures |r| == |s| + 1
  {
    if s == [] || !less(x, Last(s)) then s + [x]
    else Insert(less, Front(s), x) + [Last(s)]
  }

  function InsertionSort<T>(less: (T, T) -> bool, s: seq<T>): (r: seq<T>)
    ensures |r| == |s|
  {
    if s == [] then [] else Insert(less, InsertionSort(less, Front(s)), Last(s))
  }

  lemma {:induction false} InsertMultiset<T>(less: (T, T) -> bool, s: seq<T>, x: T)
    ensures multiset(Insert(less, s, x)) == multiset(s) + multiset{x}
  {
    if s != [] {
      assert s == Front(s) + [Last(s)];
      InsertMultiset(less, Front(s), x);
    }
  }

  lemma {:induction false} InsertKeepsOrder<T(!new)>(less: (T, T) -> bool, s: seq<T>, x: T)
    requires WeakOrder(less) && Ordered(less, s)
    ensures Ordered(less, Insert(less, s, x))
  {
    if s != [] && less(x, Last(s)) {
      var r := Insert(less, Front(s), x);
      InsertKeepsOrder(less, Front(s), x);
      InsertMultiset(less, Front(s), x);
      forall i | 0 <= i < |r|
        ensures !less(Last(s), r[i])
      {
        assert r[i] in multiset(r);
        assert r[i] == x || r[i] in Front(s);
      }
    } else if s != [] {
      forall i | 0 <= i < |s|
        ensures !less(x, s[i])
      {
        assert !less(x, Last(s)) && !less(Last(s), s[i]);
      }
    }
  }

  lemma {:induction false} InsertionSortIsSorted<T(!new)>(less: (T, T) -> bool, s: seq<T>)
    requires WeakOrder(less)
    ensures multiset(InsertionSort(less, s)) == multiset(s)
    ensures Ordered(less, InsertionSort(less, s))
  {
    if s != [] {
      InsertionSortIsSorted(less, Front(s));
      assert s == Front(s) + [Last(s)];
      InsertMultiset(less, InsertionSort(less, Front(s)), Last(s));
      InsertKeepsOrder(less, InsertionSort(less, Front(s)), Last(s));
    }
  }

  /** Every weak order has a sorting function. */
  lemma {:induction false} SomethingSorts<T(!new)>(less: (T, T) -> bool)
    requires WeakOrder(less)
    ensures Sorts(less, s => InsertionSort(less, s))
  {
    forall s {
      InsertionSortIsSorted(less, s);
    }
  }

  /** In an ordered sequence nothing comes after the last element. */
  lemma LastIsGreatest<T>(less: (T, T) -> bool, s: seq<T>, x: T)
    requires s != [] && Ordered(less, s) && x in s && !less(x, x)
    ensures !less(Last(s), x)
  {
  }

  lemma FrontMultiset<T>(s: seq<T>)
    requires s != []
    ensures multiset(Front(s)) == multiset(s) - multiset{Last(s)}
    ensures Last(s) in multiset(s)
  {
    assert s == Front(s) + [Last(s)];
  }

  lemma LastsAgree<T(!new)>(less: (T, T) -> bool, a: seq<T>, b: seq<T>)
    requires TotalOrder(less) && Ordered(less, a) && Ordered(less, b)
    requires a != [] && b != [] && multiset(a) == multiset(b)
    ensures Last(a) == Last(b)
  {
    FrontMultiset(a);
    FrontMultiset(b);
    assert Last(b) in multiset(a) && Last(a) in multiset(b);
    LastIsGreatest(less, a, Last(b));
    LastIsGreatest(less, b, Last(a));
  }

  lemma SameSize<T>(a: seq<T>, b: seq<T>)
    requires multiset(a) == multiset(b)
    ensures |a| == |b|
  {
    assert |multiset(a)| == |a| && |multiset(b)| == |b|;
  }

  lemma FrontKeepsOrder<T>(less: (T, T) -> bool, s: seq<T>)
    requires s != [] && Ordered(less, s)
    ensures Ordered(less, Front(s))
  {
  }

  /** Under a total order, the multiset alone determines the sorted sequence. */
  lemma {:induction false} SortedIsUnique<T(!new)>(less: (T, T) -> bool, a: seq<T>, b: seq<T>)
    requires TotalOrder(less) && Ordered(less, a) && Ordered(less, b)
    requires multiset(a) == multiset(b)
    ensures a == b
  {
    SameSize(a, b);
    if a != [] {
      assert Last(a) == Last(b) && multiset(Front(a)) == multiset(Front(b)) by {
        LastsAgree(less, a, b);
        FrontMultiset(a);
        FrontMultiset(b);
      }
      FrontKeepsOrder(less, a);
      FrontKeepsOrder(less, b);
      SortedIsUnique(less, Front(a), Front(b));
      assert a == Front(a) + [Last(a)];
      assert b == Front(b) + [Last(b)];
    }
  }

  /** Go's < on strings. */
  predicate StringLess(a: string, b: string)
  {
    b != [] && (a == [] || a[0] < b[0] || (a[0] == b[0] && StringLess(a[1..], b[1..])))
  }

  ghost predicate DiffersAt(a: string, b: string, i: int)
  {
    0 <= i < |a| && i < |b| && a[..i] == b[..i] && a[i] < b[i]
  }

  /** One string is less than another if it is a proper prefix of it, or smaller
      where they first differ. */
  lemma {:induction false} StringLessMeaning(a: string, b: string)
    ensures StringLess(a, b) <==> (a < b) || exists i :: DiffersAt(a, b, i)
  {
    if a != [] && b != [] && a[0] == b[0] {
      StringLessMeaning(a[1..], b[1..]);
      assert a == [a[0]] + a[1..] && b == [b[0]] + b[1..];
      if i :| DiffersAt(a[1..], b[1..], i) {
        assert a[..i + 1] == [a[0]] + a[1..][..i] && b[..i + 1] == [b[0]] + b[1..][..i];
        assert DiffersAt(a, b, i + 1);
      }
      if i :| DiffersAt(a, b, i) {
        assert i > 0 && a[1..][..i - 1] == a[..i][1..] && b[1..][..i - 1] == b[..i][1..];
        assert DiffersAt(a[1..], b[1..], i - 1);
      }
    } else if a != [] && b != [] && a[0] < b[0] {
      assert DiffersAt(a, b, 0);
    }
  }

  lemma {:induction false} StringLessIrreflexive(a: string)
    ensures !StringLess(a, a)
  {
    if a != [] {
      StringLessIrreflexive(a[1..]);
    }
  }

  lemma {:induction false} StringLessTransitive(a: string, b: string, c: string)
    requires StringLess(a, b) && StringLess(b, c)
    ensures StringLess(a, c)
  {
    if a != [] && a[0] == b[0] && b[0] == c[0] {
      StringLessTransitive(a[1..], b[1..], c[1..]);
    }
  }

  lemma {:induction false} StringLessTrichotomy(a: string, b: string)
    ensures StringLess(a, b) || StringLess(b, a) || a == b
  {
    if a != [] && b != [] && a[0] == b[0] {
      StringLessTrichotomy(a[1..], b[1..]);
      assert a == [a[0]] + a[1..] && b == [b[0]] + b[1..];
    }
  }

  lemma {:induction false} StringLessNegative(a: string, b: string, c: string)
    requires !StringLess(a, b) && !StringLess(b, c)
    ensures !StringLess(a, c)
  {
    StringLessTrichotomy(a, b);
    StringLessTrichotomy(b, c);
    if a != b && b != c {
      StringLessTransitive(c, b, a);
      if StringLess(a, c) {
        StringLessTransitive(a, c, a);
        StringLessIrreflexive(a);
      }
    }
  }

  /** String comparison is a total order, so sort.Strings has one answer. */
  lemma {:induction false} StringLessIsTotal()
    ensures TotalOrder(StringLess)
  {
    forall a {
      StringLessIrreflexive(a);
    }
    forall a, b, c | StringLess(a, b) && StringLess(b, c)
      ensures StringLess(a, c)
    {
      StringLessTransitive(a, b, c);
    }
    forall a, b, c | !StringLess(a, b) && !StringLess(b, c)
      ensures !StringLess(a, c)
    {
      StringLessNegative(a, b, c);
    }
    forall a, b {
      StringLessTrichotomy(a, b);
    }
  }

  /** sort.Strings: the caller's array itself ends up sorted. How it is sorted
      is the library's business. */
  method SortStrings(a: array<string>)
    modifies a
    ensures multiset(a[..]) == multiset(old(a[..])) && Ordered(StringLess, a[..])
    ensures a[..] == InsertionSort(StringLess, old(a[..]))
  {
    StringLessIsTotal();
    InsertionSortIsSorted(StringLess, a[..]);
    var sorted := InsertionSort(StringLess, a[..]);
    for i := 0 to a.Length
      invariant forall k | 0 <= k < i :: a[k] == sorted[k]
    {
      a[i] := sorted[i];
    }
    assert a[..] == sorted;
  }
}
