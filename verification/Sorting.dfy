/** Sorting a list by any total order, as sort.Slice does: what equal elements do
    among themselves is not promised. */
module Sorting {
  import opened Text

  ghost predicate TotalOrder<T(!new)>(leq: (T, T) -> bool) {
    && (forall a, b :: leq(a, b) || leq(b, a))
    && (forall a, b, c :: leq(a, b) && leq(b, c) ==> leq(a, c))
  }

  predicate Sorted<T>(xs: seq<T>, leq: (T, T) -> bool) {
    forall i, j :: 0 <= i < j < |xs| ==> leq(xs[i], xs[j])
  }

  lemma {:induction false} InsertSorted<T(!new)>(xs: seq<T>, x: T, i: nat, leq: (T, T) -> bool)
    requires TotalOrder(leq) && Sorted(xs, leq) && i <= |xs|
    requires (forall j :: 0 <= j < i ==> leq(xs[j], x)) && (i < |xs| ==> !leq(xs[i], x))
    ensures Sorted(xs[..i] + [x] + xs[i..], leq)
  {
    forall j | i <= j < |xs| ensures leq(x, xs[j]) {
      assert leq(x, xs[i]) && (i < j ==> leq(xs[i], xs[j]));
    }
  }

  lemma {:induction false} InsertKeeps<T>(xs: seq<T>, x: T, i: nat)
    requires i <= |xs|
    ensures multiset(xs[..i] + [x] + xs[i..]) == multiset(xs) + multiset{x}
  {
    assert xs == xs[..i] + xs[i..];
  }

  /** x goes after everything it does not precede. */
  method InsertBy<T(!new)>(xs: seq<T>, x: T, leq: (T, T) -> bool) returns (out: seq<T>)
    requires TotalOrder(leq) && Sorted(xs, leq)
    ensures Sorted(out, leq) && multiset(out) == multiset(xs) + multiset{x}
  {
    var i := 0;
    while i < |xs| && leq(xs[i], x)
      invariant 0 <= i <= |xs|
      invariant forall j :: 0 <= j < i ==> leq(xs[j], x)
    {
      i := i + 1;
    }
    InsertSorted(xs, x, i, leq);
    InsertKeeps(xs, x, i);
    out := xs[..i] + [x] + xs[i..];
  }

  method SortBy<T(!new)>(xs: seq<T>, leq: (T, T) -> bool) returns (out: seq<T>)
    requires TotalOrder(leq)
    ensures Sorted(out, leq) && multiset(out) == multiset(xs)
  {
    out := [];
    for k := 0 to |xs|
      invariant Sorted(out, leq) && multiset(out) == multiset(xs[..k])
    {
      assert xs[..k + 1] == xs[..k] + [xs[k]];
      out := InsertBy(out, xs[k], leq);
    }
    assert xs[..|xs|] == xs;
  }

  /** A list without repeats holds each element once, and the other way round. */
  lemma {:induction false} RepeatsCount<T>(xs: seq<T>)
    ensures Distinct(xs) <==> forall x :: x in xs ==> multiset(xs)[x] == 1
  {
    if xs != [] {
      var front, last := xs[..|xs| - 1], xs[|xs| - 1];
      assert xs == front + [last];
      RepeatsCount(front);
      assert forall x :: x in front <==> x in multiset(front);
      if Distinct(xs) {
        assert last !in front;
      } else if last in front {
        assert multiset(xs)[last] >= 2;
      } else {
        var i, j :| 0 <= i < j < |xs| && xs[i] == xs[j];
        assert front[i] == front[j];
        var x :| x in front && multiset(front)[x] != 1;
        assert x in xs && multiset(xs)[x] != 1;
      }
    }
  }

  /** Rearranging keeps the elements, and brings in no repeats. */
  lemma {:induction false} Rearranged<T>(xs: seq<T>, ys: seq<T>)
    requires multiset(xs) == multiset(ys)
    ensures |xs| == |ys| && (forall x :: x in xs <==> x in ys) && (Distinct(xs) <==> Distinct(ys))
  {
    RepeatsCount(xs);
    RepeatsCount(ys);
    assert forall x :: x in xs <==> x in multiset(xs);
    assert forall x :: x in ys <==> x in multiset(ys);
    assert |multiset(xs)| == |xs| && |multiset(ys)| == |ys|;
  }
}
