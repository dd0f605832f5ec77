/**
 * The shape classes of the multiple-dispatch examples, with the class
 * hierarchy written out explicitly in place of Python's reflection
 * (`__class__`, `isinstance`, `__subclasses__`), and the intersection
 * handlers as tags.
 */
module Shapes {
  import opened Wrappers

  /**
   * Every class the examples declare. `Square` is declared only in
   * multi_with_base_class_defaults.py; in the other examples no object of
   * that class ever exists.
   */
  datatype Class = Shape | Rectangle | Square | Ellipse | Triangle

  /** The declared base class; `Shape` derives only from `object`, which is not modelled. */
  function Base(c: Class): Option<Class> {
    match c
    case Shape => None
    case Rectangle => Some(Shape)
    case Square => Some(Rectangle)
    case Ellipse => Some(Shape)
    case Triangle => Some(Shape)
  }

  /** How many levels of classes lie below `c`; it shrinks from a class to its subclasses. */
  function Height(c: Class): nat {
    match c
    case Shape => 2
    case Rectangle => 1
    case _ => 0
  }

  lemma SubclassIsLower(sub: Class, c: Class)
    requires Base(sub) == Some(c)
    ensures Height(sub) < Height(c)
  {
  }

  /** How many bases lie above `c`; it shrinks from a class to its base. */
  function Depth(c: Class): nat {
    match c
    case Shape => 0
    case Square => 2
    case _ => 1
  }

  /** `issubclass(c, d)`: `d` is `c` or one of its ancestors, which is what `isinstance` tests of an instance of `c`. */
  predicate IsSubclass(c: Class, d: Class)
    decreases Depth(c)
  {
    c == d || (Base(c).Some? && IsSubclass(Base(c).value, d))
  }

  /** The subclass relation in full: every class is below `Shape`, and `Square` is also below `Rectangle`. */
  lemma SubclassTable(c: Class, d: Class)
    ensures IsSubclass(c, d) <==> c == d || d == Shape || (c == Square && d == Rectangle)
  {
    match c
    case Square =>
      assert IsSubclass(Rectangle, d) <==> d == Rectangle || d == Shape;
    case _ =>
  }

  /** `c.__subclasses__()`: the direct subclasses of `c`, in the order they are declared. */
  function DirectSubclasses(c: Class): (r: seq<Class>)
    ensures forall d :: d in r <==> Base(d) == Some(c)
    ensures forall i, j :: 0 <= i < j < |r| ==> r[i] != r[j]
  {
    match c
    case Shape => [Rectangle, Ellipse, Triangle]
    case Rectangle => [Square]
    case _ => []
  }

  /** An instance of a subclass of `d` is an instance of every ancestor of `d`. */
  lemma {:induction false} SubclassTransitive(c: Class, d: Class, e: Class)
    requires IsSubclass(c, d) && IsSubclass(d, e)
    ensures IsSubclass(c, e)
    decreases Depth(c)
  {
    if c != d {
      SubclassTransitive(Base(c).value, d, e);
    }
  }

  /** Arguments of classes `args` are instances, position by position, of the signature `sig`. */
  predicate Covers(sig: seq<Class>, args: seq<Class>) {
    |sig| == |args| && forall i :: 0 <= i < |args| ==> IsSubclass(args[i], sig[i])
  }

  lemma CoversPair(a: Class, b: Class, c: Class, d: Class)
    ensures Covers([a, b], [c, d]) <==> IsSubclass(c, a) && IsSubclass(d, b)
  {
    if IsSubclass(c, a) && IsSubclass(d, b) {
      forall i | 0 <= i < 2
        ensures IsSubclass([c, d][i], [a, b][i])
      {
        if i == 1 {
          assert [c, d][i] == d;
        }
      }
    }
    if Covers([a, b], [c, d]) {
      assert IsSubclass([c, d][0], [a, b][0]) && IsSubclass([c, d][1], [a, b][1]);
    }
  }

  /**
   * Reference semantics of dispatch by `isinstance`: the handler of the first
   * entry of `table` whose signature covers the arguments, or `default`.
   */
  function FirstCovering(table: seq<(seq<Class>, Handler)>, args: seq<Class>, default: Handler): (h: Handler)
    ensures h != default ==> exists i :: 0 <= i < |table| && Covers(table[i].0, args) && h == table[i].1
  {
    if table == [] then default
    else if Covers(table[0].0, args) then table[0].1
    else FirstCovering(table[1..], args, default)
  }

  /** Rectangles and ellipses are unrelated: no class is both. */
  lemma RectangleEllipseDisjoint(c: Class)
    ensures !(IsSubclass(c, Rectangle) && IsSubclass(c, Ellipse))
  {
  }

  /** The intersection functions the examples dispatch to, as tags; their `print` is not modelled. */
  datatype Handler = RectangleEllipse | RectangleRectangle | ShapeShape

  /** The `TypeError`s the multimethods raise. */
  datatype TypeError = NoMatch(name: string, types: seq<Class>) | DuplicateRegistration
}
