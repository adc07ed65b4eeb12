/** Insertion sort under a given order, for what JavaScript and SQL sort for the source. */
module Sorting {
  ghost predicate TotalOrder<T(!new)>(le: (T, T) -> bool) {
    && (forall x, y :: le(x, y) || le(y, x))
    && (forall x, y, z :: le(x, y) && le(y, z) ==> le(x, z))
  }

  ghost predicate Sorted<T>(xs: seq<T>, le: (T, T) -> bool) {
    forall i, j :: 0 <= i < j < |xs| ==> le(xs[i], xs[j])
  }

  function Insert<T>(x: T, xs: seq<T>, le: (T, T) -> bool): seq<T> {
    if xs == [] then [x]
    else if le(x, xs[0]) then [x] + xs
    else [xs[0]] + Insert(x, xs[1..], le)
  }

  function Sort<T>(xs: seq<T>, le: (T, T) -> bool): seq<T> {
    if xs == [] then [] else Insert(xs[0], Sort(xs[1..], le), le)
  }

  lemma {:induction false} InsertAdds<T>(x: T, xs: seq<T>, le: (T, T) -> bool)
    ensures multiset(Insert(x, xs, le)) == multiset([x]) + multiset(xs)
  {
    if xs != [] && !le(x, xs[0]) {
      InsertAdds(x, xs[1..], le);
      assert xs == [xs[0]] + xs[1..];
    }
  }

  lemma {:induction false} SortPermutes<T>(xs: seq<T>, le: (T, T) -> bool)
    ensures multiset(Sort(xs, le)) == multiset(xs)
  {
    if xs == [] {
    } else {
      SortPermutes(xs[1..], le);
      InsertAdds(xs[0], Sort(xs[1..], le), le);
      assert xs == [xs[0]] + xs[1..];
    }
  }

  lemma SortKeepsMembers<T>(xs: seq<T>, le: (T, T) -> bool, x: T)
    ensures x in Sort(xs, le) <==> x in xs
  {
    SortPermutes(xs, le);
    assert x in Sort(xs, le) <==> x in multiset(Sort(xs, le));
    assert x in xs <==> x in multiset(xs);
  }

  lemma {:induction false} InsertSorts<T(!new)>(x: T, xs: seq<T>, le: (T, T) -> bool)
    requires TotalOrder(le) && Sorted(xs, le)
    ensures Sorted(Insert(x, xs, le), le)
  {
    if xs != [] && !le(x, xs[0]) {
      InsertSorts(x, xs[1..], le);
      var tail := Insert(x, xs[1..], le);
      InsertAdds(x, xs[1..], le);
      forall i | 0 <= i < |tail|
        ensures le(xs[0], tail[i])
      {
        assert tail[i] in multiset(tail);
        assert tail[i] == x || tail[i] in xs[1..];
      }
    }
  }

  lemma {:induction false} SortSorts<T(!new)>(xs: seq<T>, le: (T, T) -> bool)
    requires TotalOrder(le)
    ensures Sorted(Sort(xs, le), le)
  {
    if xs == [] {
    } else {
      SortSorts(xs[1..], le);
      InsertSorts(xs[0], Sort(xs[1..], le), le);
    }
  }

  predicate Distinct<T(==)>(xs: seq<T>) {
    forall i, j :: 0 <= i < j < |xs| ==> xs[i] != xs[j]
  }

  lemma {:induction false} DistinctMultiset<T>(xs: seq<T>, x: T)
    requires Distinct(xs)
    ensures multiset(xs)[x] <= 1
  {
    if xs == [] {
    } else {
      assert xs == [xs[0]] + xs[1..];
      DistinctMultiset(xs[1..], x);
      if x == xs[0] {
        assert x !in xs[1..];
      }
    }
  }

  lemma RepeatCountsTwice<T>(ys: seq<T>, i: nat, j: nat)
    requires i < j < |ys| && ys[i] == ys[j]
    ensures multiset(ys)[ys[i]] >= 2
  {
    assert ys == ys[..j] + [ys[j]] + ys[j + 1..];
    assert ys[i] in ys[..j];
  }

  lemma SortStaysDistinct<T>(xs: seq<T>, le: (T, T) -> bool)
    requires Distinct(xs)
    ensures Distinct(Sort(xs, le))
  {
    var ys := Sort(xs, le);
    SortPermutes(xs, le);
    forall i, j | 0 <= i < j < |ys|
      ensures ys[i] != ys[j]
    {
      DistinctMultiset(xs, ys[i]);
      if ys[i] == ys[j] {
        RepeatCountsTwice(ys, i, j);
      }
    }
  }

  /** Each element strictly before the next. */
  ghost predicate Strict<T>(xs: seq<T>, le: (T, T) -> bool) {
    forall i, j :: 0 <= i < j < |xs| ==> le(xs[i], xs[j]) && !le(xs[j], xs[i])
  }

  lemma TailMembers<T>(xs: seq<T>, le: (T, T) -> bool, x: T)
    requires Strict(xs, le) && xs != []
    ensures x in xs[1..] <==> x in xs && x != xs[0]
  {
    assert xs == [xs[0]] + xs[1..];
  }

  lemma FirstIsLeast<T>(xs: seq<T>, ys: seq<T>, le: (T, T) -> bool)
    requires Strict(xs, le) && Strict(ys, le) && xs != [] && ys != []
    requires xs[0] in ys && ys[0] in xs
    ensures xs[0] == ys[0]
  {
  }

  /** A strictly ordered sequence is determined by its members. */
  lemma {:induction false} StrictIsUnique<T(!new)>(xs: seq<T>, ys: seq<T>, le: (T, T) -> bool)
    requires Strict(xs, le) && Strict(ys, le)
    requires forall x :: x in xs <==> x in ys
    ensures xs == ys
  {
    assert (xs == [] || xs[0] in xs) && (ys == [] || ys[0] in ys);
    if xs == [] {
    } else {
      FirstIsLeast(xs, ys, le);
      forall x
        ensures x in xs[1..] <==> x in ys[1..]
      {
        TailMembers(xs, le, x);
        TailMembers(ys, le, x);
      }
      StrictIsUnique(xs[1..], ys[1..], le);
      assert xs == [xs[0]] + xs[1..] && ys == [ys[0]] + ys[1..];
    }
  }

  /** Sorting distinct elements that the order tells apart orders them strictly. */
  lemma SortIsStrict<T(!new)>(xs: seq<T>, le: (T, T) -> bool)
    requires TotalOrder(le) && Distinct(xs)
    requires forall x, y :: x in xs && y in xs && le(x, y) && le(y, x) ==> x == y
    ensures Strict(Sort(xs, le), le)
  {
    var ys := Sort(xs, le);
    SortSorts(xs, le);
    SortStaysDistinct(xs, le);
    forall i, j | 0 <= i < j < |ys|
      ensures le(ys[i], ys[j]) && !le(ys[j], ys[i])
    {
      SortKeepsMembers(xs, le, ys[i]);
      SortKeepsMembers(xs, le, ys[j]);
    }
  }
}
