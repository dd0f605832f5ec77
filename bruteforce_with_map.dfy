/** `intersect` of bruteforce_with_map.py: a lookup on the exact argument types, with a generic default. */
module BruteForceWithMap {
  import opened Shapes
  import BruteForce

  /** `_dispatch_map`, keyed by the ordered pair of argument types; it is a constant and never changes. */
  const DispatchMap: map<seq<Class>, Handler> :=
    map[[Rectangle, Ellipse] := RectangleEllipse, [Rectangle, Rectangle] := RectangleRectangle]

  /**
   * The handler `intersect(s1, s2)` calls for arguments whose `type()` is
   * `s1` and `s2`: the map's entry for the exact ordered pair, or
   * `intersect_generic`.
   */
  function Intersect(s1: Class, s2: Class): (h: Handler)
    ensures h == RectangleEllipse <==> s1 == Rectangle && s2 == Ellipse
    ensures h == RectangleRectangle <==> s1 == Rectangle && s2 == Rectangle
    ensures h == ShapeShape <==> s1 != Rectangle || (s2 != Ellipse && s2 != Rectangle)
  {
    var key := [s1, s2];
    assert key == [Rectangle, Ellipse] <==> s1 == Rectangle && s2 == Ellipse;
    assert key == [Rectangle, Rectangle] <==> s1 == Rectangle && s2 == Rectangle;
    if key in DispatchMap then DispatchMap[key] else ShapeShape
  }

  /**
   * Among the classes this example declares (all but Square), exact-type
   * lookup and the `isinstance` chain of bruteforce.py dispatch alike.
   */
  lemma AgreesWithChainWithoutSubclasses(s1: Class, s2: Class)
    requires s1 != Square && s2 != Square
    ensures Intersect(s1, s2) == BruteForce.Intersect(s1, s2)
  {
  }

  /**
   * Lookup is on exact types, so a subclass of Rectangle falls back to the
   * generic handler where the `isinstance` chain takes the Rectangle branch.
   */
  lemma SubclassFallsBackToGeneric(s2: Class)
    requires s2 == Ellipse || s2 == Rectangle
    ensures Intersect(Square, s2) == ShapeShape
    ensures BruteForce.Intersect(Square, s2) != ShapeShape
  {
  }

  /** The pair is ordered: `(Ellipse, Rectangle)` is not in the map. */
  lemma PairIsOrdered()
    ensures Intersect(Rectangle, Ellipse) == RectangleEllipse
    ensures Intersect(Ellipse, Rectangle) == ShapeShape
  {
  }

  /** The three calls of the example. */
  lemma ExampleCalls()
    ensures Intersect(Rectangle, Ellipse) == RectangleEllipse
    ensures Intersect(Rectangle, Rectangle) == RectangleRectangle
    ensures Intersect(Triangle, Ellipse) == ShapeShape
  {
  }
}
