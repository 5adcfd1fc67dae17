/**
 * Facts about the size of the image of a finite set, used to relate the
 * counts the summary reports to the sets the day view returns.
 */
module Cardinality {

  /** The image of `xs` under `f`. */
  function Image<A, B>(xs: set<A>, f: A -> B): (ys: set<B>)
    ensures forall x | x in xs :: f(x) in ys
    ensures forall y | y in ys :: exists x | x in xs :: f(x) == y
  {
    set x | x in xs :: f(x)
  }

  ghost predicate InjectiveOn<A, B>(xs: set<A>, f: A -> B) {
    forall x, y | x in xs && y in xs && f(x) == f(y) :: x == y
  }

  /** Removing one element of the domain removes its value from the image, and no other. */
  lemma ImageRemove<A, B>(xs: set<A>, f: A -> B, x: A)
    requires x in xs
    requires InjectiveOn(xs, f)
    ensures Image(xs - {x}, f) == Image(xs, f) - {f(x)}
  {
  }

  /** An injective map keeps the number of elements. */
  lemma {:induction false} InjectiveImageSize<A, B>(xs: set<A>, f: A -> B)
    requires InjectiveOn(xs, f)
    ensures |Image(xs, f)| == |xs|
  {
    if xs != {} {
      var x :| x in xs;
      ImageRemove(xs, f, x);
      InjectiveImageSize(xs - {x}, f);
    }
  }

  /** No map enlarges a set. */
  lemma {:induction false} ImageSizeBound<A, B>(xs: set<A>, f: A -> B)
    ensures |Image(xs, f)| <= |xs|
  {
    if xs != {} {
      var x :| x in xs;
      var rest := xs - {x};
      ImageSizeBound(rest, f);
      assert Image(xs, f) == Image(rest, f) + {f(x)};
    }
  }

  /** A subset is no larger than the set containing it. */
  lemma {:induction false} SubsetSize<A>(xs: set<A>, ys: set<A>)
    requires xs <= ys
    ensures |xs| <= |ys|
  {
    if xs != {} {
      var x :| x in xs;
      SubsetSize(xs - {x}, ys - {x});
    }
  }
}
