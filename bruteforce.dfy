/** `intersect` of bruteforce.py: an ordered chain of `isinstance` tests. */
module BruteForce {
  import opened Shapes

  /**
   * The branch `intersect(s1, s2)` takes for arguments of classes `s1` and
   * `s2`. The tests are `isinstance` tests, so instances of subclasses match
   * too; exactly one branch fires.
   */
  function Intersect(s1: Class, s2: Class): (h: Handler)
    ensures h == RectangleEllipse <==> IsSubclass(s1, Rectangle) && IsSubclass(s2, Ellipse)
    ensures h == RectangleRectangle <==> IsSubclass(s1, Rectangle) && IsSubclass(s2, Rectangle)
    ensures h == ShapeShape <==> !IsSubclass(s1, Rectangle) || (!IsSubclass(s2, Ellipse) && !IsSubclass(s2, Rectangle))
  {
    if IsSubclass(s1, Rectangle) && IsSubclass(s2, Ellipse) then RectangleEllipse
    else if IsSubclass(s1, Rectangle) && IsSubclass(s2, Rectangle) then RectangleRectangle
    else ShapeShape
  }

  /** The chain's branches as signatures, in the order the chain checks them. */
  const Branches: seq<(seq<Class>, Handler)> :=
    [([Rectangle, Ellipse], RectangleEllipse), ([Rectangle, Rectangle], RectangleRectangle)]

  /** The chain is dispatch to the first branch whose signature covers the arguments, with the generic handler last. */
  lemma IntersectIsFirstCovering(s1: Class, s2: Class)
    ensures Intersect(s1, s2) == FirstCovering(Branches, [s1, s2], ShapeShape)
  {
    assert Branches[1..] == [([Rectangle, Rectangle], RectangleRectangle)];
    CoversPair(Rectangle, Ellipse, s1, s2);
    CoversPair(Rectangle, Rectangle, s1, s2);
  }

  /** A specific branch taken for classes `c1`, `c2` is taken for all their subclasses as well. */
  lemma SubclassesInheritBranch(c1: Class, c2: Class, d1: Class, d2: Class)
    requires IsSubclass(d1, c1) && IsSubclass(d2, c2)
    requires Intersect(c1, c2) != ShapeShape
    ensures Intersect(d1, d2) == Intersect(c1, c2)
  {
    SubclassTransitive(d1, c1, Rectangle);
    if Intersect(c1, c2) == RectangleEllipse {
      SubclassTransitive(d2, c2, Ellipse);
    } else {
      SubclassTransitive(d2, c2, Rectangle);
    }
    RectangleEllipseDisjoint(d2);
  }

  /** The three calls of the example: Rectangle x Ellipse, Rectangle x Rectangle, and the generic branch for Triangle x Ellipse. */
  lemma ExampleCalls()
    ensures Intersect(Rectangle, Ellipse) == RectangleEllipse
    ensures Intersect(Rectangle, Rectangle) == RectangleRectangle
    ensures Intersect(Triangle, Ellipse) == ShapeShape
  {
  }
}
