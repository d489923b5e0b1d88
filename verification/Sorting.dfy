/** The library sorts, `sort.Slice` and `sort.SliceStable`, and when their result is
    independent of the order of the input. */
module Sorting {

  /** Places x after every element that is not greater, as a stable sort does. */
  function Insert<T>(x: T, xs: seq<T>, less: (T, T) -> bool): seq<T>
  {
    if xs == [] then [x]
    else if less(x, xs[0]) then [x] + xs
    else [xs[0]] + Insert(x, xs[1..], less)
  }

  function Sort<T>(xs: seq<T>, less: (T, T) -> bool): seq<T>
  {
    if xs == [] then [] else Insert(xs[|xs| - 1], Sort(xs[..|xs| - 1], less), less)
  }

  ghost predicate StrictOrder<T(!new)>(less: (T, T) -> bool)
  {
    && (forall a :: !less(a, a))
    && (forall a, b, c :: less(a, b) && less(b, c) ==> less(a, c))
  }

  /** Distinct positions hold comparable elements; in particular there are no duplicates. */
  ghost predicate Comparable<T>(xs: seq<T>, less: (T, T) -> bool)
  {
    forall i, j :: 0 <= i < j < |xs| ==> less(xs[i], xs[j]) || less(xs[j], xs[i])
  }

  ghost predicate Increasing<T>(xs: seq<T>, less: (T, T) -> bool)
  {
    forall i, j :: 0 <= i < j < |xs| ==> less(xs[i], xs[j])
  }

  lemma {:induction false} InsertPermutes<T>(x: T, xs: seq<T>, less: (T, T) -> bool)
    ensures multiset(Insert(x, xs, less)) == multiset{x} + multiset(xs)
  {
    if xs != [] && !less(x, xs[0]) {
      InsertPermutes(x, xs[1..], less);
      assert xs == [xs[0]] + xs[1..];
    }
  }

  lemma {:induction false} SortPermutes<T>(xs: seq<T>, less: (T, T) -> bool)
    ensures multiset(Sort(xs, less)) == multiset(xs)
    ensures |Sort(xs, less)| == |xs|
  {
    if xs != [] {
      SortPermutes(xs[..|xs| - 1], less);
      InsertPermutes(xs[|xs| - 1], Sort(xs[..|xs| - 1], less), less);
      assert xs == xs[..|xs| - 1] + [xs[|xs| - 1]];
    }
    assert |Sort(xs, less)| == |multiset(Sort(xs, less))|;
  }

  lemma {:induction false} InsertIncreasing<T(!new)>(x: T, xs: seq<T>, less: (T, T) -> bool)
    requires StrictOrder(less) && Increasing(xs, less)
    requires forall i :: 0 <= i < |xs| ==> less(x, xs[i]) || less(xs[i], x)
    ensures Increasing(Insert(x, xs, less), less)
  {
    if xs != [] && !less(x, xs[0]) {
      var rest := Insert(x, xs[1..], less);
      InsertIncreasing(x, xs[1..], less);
      InsertPermutes(x, xs[1..], less);
      forall y | y in rest ensures less(xs[0], y) {
        assert y in multiset(rest);
        assert y == x || y in multiset(xs[1..]);
      }
    }
  }

  /** A sort of comparable elements is strictly increasing. */
  lemma {:induction false} SortIncreasing<T(!new)>(xs: seq<T>, less: (T, T) -> bool)
    requires StrictOrder(less) && Comparable(xs, less)
    ensures Increasing(Sort(xs, less), less)
  {
    if xs != [] {
      var front, x := xs[..|xs| - 1], xs[|xs| - 1];
      SortIncreasing(front, less);
      SortPermutes(front, less);
      forall y | y in Sort(front, less) ensures less(x, y) || less(y, x) {
        assert y in multiset(Sort(front, less));
        assert y in multiset(front);
      }
      InsertIncreasing(x, Sort(front, less), less);
    }
  }

  /** At most one arrangement of given elements is strictly increasing, so the algorithm behind
      `sort.Slice` cannot show. */
  lemma {:induction false} IncreasingUnique<T(!new)>(xs: seq<T>, ys: seq<T>, less: (T, T) -> bool)
    requires StrictOrder(less) && Increasing(xs, less) && Increasing(ys, less)
    requires multiset(xs) == multiset(ys)
    ensures xs == ys
  {
    if xs == [] {
      NothingElse(ys);
    } else {
      SameHead(xs, ys, less);
      SameTails(xs, ys);
      IncreasingUnique(xs[1..], ys[1..], less);
    }
  }

  lemma NothingElse<T>(ys: seq<T>)
    requires multiset(ys) == multiset{}
    ensures ys == []
  {
    assert |ys| == |multiset(ys)|;
  }

  lemma SameHead<T(!new)>(xs: seq<T>, ys: seq<T>, less: (T, T) -> bool)
    requires StrictOrder(less) && Increasing(xs, less) && Increasing(ys, less)
    requires multiset(xs) == multiset(ys) && xs != []
    ensures ys != [] && xs[0] == ys[0]
  {
    assert xs[0] in multiset(ys);
    assert ys[0] in multiset(xs);
    var i :| 0 <= i < |ys| && ys[i] == xs[0];
    var j :| 0 <= j < |xs| && xs[j] == ys[0];
  }

  /** Sequences with one head and the same elements have tails with the same elements. */
  lemma SameTails<T>(xs: seq<T>, ys: seq<T>)
    requires multiset(xs) == multiset(ys) && xs != [] && ys != [] && xs[0] == ys[0]
    ensures multiset(xs[1..]) == multiset(ys[1..]) && xs == [xs[0]] + xs[1..] && ys == [xs[0]] + ys[1..]
  {
    assert xs == [xs[0]] + xs[1..] && ys == [ys[0]] + ys[1..];
    assert multiset(xs[1..]) == multiset(xs) - multiset{xs[0]};
    assert multiset(ys[1..]) == multiset(ys) - multiset{ys[0]};
  }

  lemma ComparablePermutes<T(!new)>(xs: seq<T>, ys: seq<T>, less: (T, T) -> bool)
    requires StrictOrder(less) && Comparable(xs, less) && multiset(xs) == multiset(ys)
    ensures Increasing(Sort(ys, less), less) && Sort(xs, less) == Sort(ys, less)
  {
    SortIncreasing(xs, less);
    SortPermutes(xs, less);
    SortPermutes(ys, less);
    PermutationComparable(xs, ys, less);
    SortIncreasing(ys, less);
    IncreasingUnique(Sort(xs, less), Sort(ys, less), less);
  }

  lemma PermutationComparable<T(!new)>(xs: seq<T>, ys: seq<T>, less: (T, T) -> bool)
    requires StrictOrder(less) && Comparable(xs, less) && multiset(xs) == multiset(ys)
    ensures Comparable(ys, less)
  {
    forall i, j | 0 <= i < j < |ys| ensures less(ys[i], ys[j]) || less(ys[j], ys[i]) {
      var a, b := ys[i], ys[j];
      assert ys == ys[..i] + [a] + ys[i + 1..j] + [b] + ys[j + 1..];
      assert a in multiset(xs) && b in multiset(xs);
      if a == b {
        assert multiset(ys)[a] >= 2;
        NoDuplicates(xs, a, less);
        assert false;
      }
    }
  }

  lemma {:induction false} NoDuplicates<T(!new)>(xs: seq<T>, a: T, less: (T, T) -> bool)
    requires StrictOrder(less) && Comparable(xs, less)
    ensures multiset(xs)[a] <= 1
  {
    if xs != [] {
      var front := xs[..|xs| - 1];
      assert xs == front + [xs[|xs| - 1]];
      NoDuplicates(front, a, less);
      assert xs[|xs| - 1] == a ==> a !in front;
      assert a !in front ==> multiset(front)[a] == 0;
    }
  }

  function Map<S, T>(f: S -> T, xs: seq<S>): (ys: seq<T>)
    ensures |ys| == |xs|
  {
    seq(|xs|, i requires 0 <= i < |xs| => f(xs[i]))
  }

  lemma {:induction false} InsertMap<T>(f: T -> T, x: T, xs: seq<T>, less: (T, T) -> bool)
    requires forall y :: y in xs ==> less(f(x), f(y)) == less(x, y)
    ensures Map(f, Insert(x, xs, less)) == Insert(f(x), Map(f, xs), less)
  {
    if xs != [] && !less(x, xs[0]) {
      InsertMap(f, x, xs[1..], less);
      assert Map(f, xs)[1..] == Map(f, xs[1..]);
      assert Map(f, Insert(x, xs, less)) == [f(xs[0])] + Map(f, Insert(x, xs[1..], less));
    } else {
      assert Map(f, [x] + xs) == [f(x)] + Map(f, xs);
    }
  }

  /** A change of the elements that the order does not see commutes with sorting. */
  lemma {:induction false} SortMap<T(!new)>(f: T -> T, xs: seq<T>, less: (T, T) -> bool)
    requires forall x, y :: less(f(x), f(y)) == less(x, y)
    ensures Map(f, Sort(xs, less)) == Sort(Map(f, xs), less)
  {
    if xs != [] {
      var front := xs[..|xs| - 1];
      SortMap(f, front, less);
      InsertMap(f, xs[|xs| - 1], Sort(front, less), less);
      assert Map(f, xs)[..|xs| - 1] == Map(f, front);
    }
  }

  // ---- Sorting with duplicates -----------------------------------------------------------------

  ghost predicate TotalOrder<T(!new)>(less: (T, T) -> bool)
  {
    StrictOrder(less) && forall a, b :: a == b || less(a, b) || less(b, a)
  }

  ghost predicate Ordered<T>(xs: seq<T>, less: (T, T) -> bool)
  {
    forall i, j :: 0 <= i < j < |xs| ==> !less(xs[j], xs[i])
  }

  lemma {:induction false} InsertOrdered<T(!new)>(x: T, xs: seq<T>, less: (T, T) -> bool)
    requires TotalOrder(less) && Ordered(xs, less)
    ensures Ordered(Insert(x, xs, less), less)
  {
    if xs != [] && !less(x, xs[0]) {
      var rest := Insert(x, xs[1..], less);
      InsertOrdered(x, xs[1..], less);
      InsertPermutes(x, xs[1..], less);
      forall y | y in rest ensures !less(y, xs[0]) {
        assert y in multiset(rest);
        assert y == x || y in multiset(xs[1..]);
      }
    }
  }

  lemma {:induction false} SortOrdered<T(!new)>(xs: seq<T>, less: (T, T) -> bool)
    requires TotalOrder(less)
    ensures Ordered(Sort(xs, less), less)
  {
    if xs != [] {
      SortOrdered(xs[..|xs| - 1], less);
      InsertOrdered(xs[|xs| - 1], Sort(xs[..|xs| - 1], less), less);
    }
  }

  lemma {:induction false} OrderedUnique<T(!new)>(xs: seq<T>, ys: seq<T>, less: (T, T) -> bool)
    requires TotalOrder(less) && Ordered(xs, less) && Ordered(ys, less) && multiset(xs) == multiset(ys)
    ensures xs == ys
  {
    if xs == [] {
      NothingElse(ys);
    } else {
      LeastHead(xs, ys, less);
      SameTails(xs, ys);
      OrderedUnique(xs[1..], ys[1..], less);
    }
  }

  lemma LeastHead<T(!new)>(xs: seq<T>, ys: seq<T>, less: (T, T) -> bool)
    requires TotalOrder(less) && Ordered(xs, less) && Ordered(ys, less) && multiset(xs) == multiset(ys) && xs != []
    ensures ys != [] && xs[0] == ys[0]
  {
    assert xs[0] in multiset(ys);
    assert ys[0] in multiset(xs);
    var i :| 0 <= i < |ys| && ys[i] == xs[0];
    var j :| 0 <= j < |xs| && xs[j] == ys[0];
  }

  /** Under a total order a sort depends on the elements only. */
  lemma SortsAgree<T(!new)>(xs: seq<T>, ys: seq<T>, less: (T, T) -> bool)
    requires TotalOrder(less)
    ensures multiset(xs) == multiset(ys) <==> Sort(xs, less) == Sort(ys, less)
  {
    SortPermutes(xs, less);
    SortPermutes(ys, less);
    SortOrdered(xs, less);
    SortOrdered(ys, less);
    if multiset(xs) == multiset(ys) {
      OrderedUnique(Sort(xs, less), Sort(ys, less), less);
    }
  }
}
