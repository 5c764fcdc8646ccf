// Cardinality of images of finite sets.
module Sets {

  function Image<A, B>(s: set<A>, f: A -> B): set<B>
  {
    set x | x in s :: f(x)
  }

  ghost predicate InjectiveOn<A(!new), B>(s: set<A>, f: A -> B)
  {
    forall x, y :: x in s && y in s && f(x) == f(y) ==> x == y
  }

  /** An image is no larger than its set, and as large exactly when the function is injective there. */
  lemma {:induction false} ImageSize<A(!new), B>(s: set<A>, f: A -> B)
    ensures |Image(s, f)| <= |s|
    ensures |Image(s, f)| == |s| <==> InjectiveOn(s, f)
    decreases |s|
  {
    if s != {} {
      var x :| x in s;
      var rest := s - {x};
      ImageSize(rest, f);
      if f(x) in Image(rest, f) {
        assert Image(s, f) == Image(rest, f);
        var y :| y in rest && f(y) == f(x);
      } else {
        assert Image(s, f) == Image(rest, f) + {f(x)};
      }
    }
  }

  lemma ImageStep<A(!new), B>(s: set<A>, x: A, f: A -> B)
    requires x in s
    ensures |Image(s, f)| == |Image(s - {x}, f)| + if f(x) in Image(s - {x}, f) then 0 else 1
    ensures f(x) in Image(s - {x}, f) <==> exists y :: y in s && y != x && f(y) == f(x)
  {
    assert Image(s, f) == Image(s - {x}, f) + {f(x)};
  }

  /** Two functions that identify the same elements have images of one size. */
  lemma {:induction false} ImagesAlike<A(!new), B, C>(s: set<A>, f: A -> B, g: A -> C)
    requires forall x, y :: x in s && y in s ==> (f(x) == f(y) <==> g(x) == g(y))
    ensures |Image(s, f)| == |Image(s, g)|
    decreases |s|
  {
    if s == {} {
      assert Image(s, f) == {} && Image(s, g) == {};
    } else {
      var x :| x in s;
      ImageStep(s, x, f);
      ImageStep(s, x, g);
      hide Image;
      ImagesAlike(s - {x}, f, g);
      assert (exists y :: y in s && y != x && f(y) == f(x)) <==> (exists y :: y in s && y != x && g(y) == g(x));
    }
  }

  lemma DisjointSize<A>(a: set<A>, b: set<A>)
    requires a !! b
    ensures |a + b| == |a| + |b|
  {
  }

  lemma {:induction false} SubsetSize<A>(a: set<A>, b: set<A>)
    requires a <= b
    ensures |a| <= |b|
    decreases |a|
  {
    if a != {} {
      var x :| x in a;
      SubsetSize(a - {x}, b - {x});
    }
  }
}
