// The one sequence that lists a finite set in a strict total order.
module Ordering {

  ghost predicate StrictOrder<T(!new)>(less: (T, T) -> bool)
  {
    && (forall x :: !less(x, x))
    && (forall x, y, z :: less(x, y) && less(y, z) ==> less(x, z))
    && (forall x, y :: x == y || less(x, y) || less(y, x))
  }

  ghost predicate IsLeast<T(!new)>(s: set<T>, less: (T, T) -> bool, m: T)
  {
    m in s && forall x :: x in s && x != m ==> less(m, x)
  }

  lemma {:induction false} LeastExists<T(!new)>(s: set<T>, less: (T, T) -> bool)
    requires s != {} && StrictOrder(less)
    ensures exists m :: IsLeast(s, less, m)
    decreases |s|
  {
    var x :| x in s;
    var rest := s - {x};
    assert forall y :: y in s ==> y == x || y in rest;
    if rest == {} {
      assert IsLeast(s, less, x);
    } else {
      LeastExists(rest, less);
      var n :| IsLeast(rest, less, n);
      var m := if less(x, n) then x else n;
      assert IsLeast(s, less, m);
    }
  }

  ghost function Least<T(!new)>(s: set<T>, less: (T, T) -> bool): (m: T)
    requires s != {} && StrictOrder(less)
    ensures IsLeast(s, less, m)
  {
    LeastExists(s, less);
    var m :| IsLeast(s, less, m);
    m
  }

  /** The elements of the set, least first. */
  ghost function Ordered<T(!new)>(s: set<T>, less: (T, T) -> bool): seq<T>
    requires StrictOrder(less)
    decreases |s|
  {
    if s == {} then []
    else
      var m := Least(s, less);
      [m] + Ordered(s - {m}, less)
  }

  ghost predicate Increasing<T(!new)>(xs: seq<T>, less: (T, T) -> bool)
  {
    forall i, j :: 0 <= i < j < |xs| ==> less(xs[i], xs[j])
  }

  ghost predicate Lists<T(!new)>(xs: seq<T>, s: set<T>)
  {
    |xs| == |s| && forall x :: x in xs <==> x in s
  }

  lemma {:induction false} OrderedLists<T(!new)>(s: set<T>, less: (T, T) -> bool)
    requires StrictOrder(less)
    ensures Lists(Ordered(s, less), s) && Increasing(Ordered(s, less), less)
    decreases |s|
  {
    if s != {} {
      var m := Least(s, less);
      var rest := Ordered(s - {m}, less);
      OrderedLists(s - {m}, less);
      assert Ordered(s, less) == [m] + rest;
      forall j | 0 <= j < |rest| ensures less(m, rest[j]) {
        assert rest[j] in rest;
      }
    }
  }

  /** A sequence that increases and lists the set is that one. */
  lemma {:induction false} OrderedUnique<T(!new)>(s: set<T>, less: (T, T) -> bool, xs: seq<T>)
    requires StrictOrder(less) && Lists(xs, s) && Increasing(xs, less)
    ensures xs == Ordered(s, less)
    decreases |s|
  {
    if s != {} {
      var m := Least(s, less);
      assert m in xs;
      var i :| 0 <= i < |xs| && xs[i] == m;
      assert xs[0] in xs;
      assert i == 0;
      RestLists(s, less, xs, m);
      OrderedUnique(s - {m}, less, xs[1..]);
    }
  }

  lemma RestLists<T(!new)>(s: set<T>, less: (T, T) -> bool, xs: seq<T>, m: T)
    requires StrictOrder(less) && Lists(xs, s) && Increasing(xs, less) && xs != [] && xs[0] == m
    ensures Lists(xs[1..], s - {m}) && Increasing(xs[1..], less)
  {
    forall x ensures x in xs[1..] <==> x in s - {m} {
      if x in xs[1..] {
        var i :| 0 <= i < |xs| - 1 && xs[1..][i] == x;
        assert x == xs[i + 1] && less(xs[0], xs[i + 1]);
      }
      if x in s - {m} {
        var i :| 0 <= i < |xs| && xs[i] == x;
        assert xs[1..][i - 1] == x;
      }
    }
  }
}
