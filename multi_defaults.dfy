/**
 * The multimethod library of multi_with_base_class_defaults.py: registering
 * a function for a tuple of types registers it for every tuple of those
 * types or their subclasses, overwriting earlier registrations, so generic
 * registrations made first act as defaults for later, more specific ones.
 */
module MultiDefaults {
  import opened Wrappers
  import opened Shapes
  import BruteForce

  /** Every subclass of `c`, recursively: its direct subclasses, then each one's subclasses in turn. */
  function AllBelow(c: Class): seq<Class>
    decreases Height(c), |DirectSubclasses(c)| + 1
  {
    DirectSubclasses(c) + Flatten(c, DirectSubclasses(c))
  }

  /** The subclasses of each of `subs`, direct subclasses of `parent`, one after another. */
  function Flatten(parent: Class, subs: seq<Class>): seq<Class>
    requires forall s :: s in subs ==> Base(s) == Some(parent)
    decreases Height(parent), |subs|
  {
    if subs == [] then []
    else
      var last := subs[|subs| - 1];
      SubclassIsLower(last, parent);
      Flatten(parent, subs[..|subs| - 1]) + AllBelow(last)
  }

  lemma AllBelowLeaves()
    ensures AllBelow(Square) == [] && AllBelow(Ellipse) == [] && AllBelow(Triangle) == []
  {
  }

  lemma AllBelowRectangle()
    ensures AllBelow(Rectangle) == [Square]
  {
    AllBelowLeaves();
    assert [Square][..0] == [];
    assert Flatten(Rectangle, [Square]) == [];
  }

  lemma AllBelowShape()
    ensures AllBelow(Shape) == [Rectangle, Ellipse, Triangle, Square]
  {
    AllBelowLeaves();
    AllBelowRectangle();
    var direct := [Rectangle, Ellipse, Triangle];
    assert direct[..2][..1] == [Rectangle] && [Rectangle][..0] == [];
    assert Flatten(Shape, [Rectangle]) == [Square];
    assert direct[..2] == [Rectangle, Ellipse];
    assert Flatten(Shape, [Rectangle, Ellipse]) == [Square];
    assert direct[..2] == direct[..|direct| - 1];
    assert Flatten(Shape, direct) == [Square];
  }

  /** What `all_subclasses` returns for each class. */
  lemma AllBelowValues()
    ensures AllBelow(Shape) == [Rectangle, Ellipse, Triangle, Square]
    ensures AllBelow(Rectangle) == [Square]
    ensures AllBelow(Square) == [] && AllBelow(Ellipse) == [] && AllBelow(Triangle) == []
  {
    AllBelowLeaves();
    AllBelowRectangle();
    AllBelowShape();
  }

  /** `all_subclasses(c)` is exactly the proper subclasses of `c`, each listed once. */
  lemma AllBelowIsProperSubclasses(c: Class)
    ensures forall x :: x in AllBelow(c) <==> x != c && IsSubclass(x, c)
    ensures forall i, j :: 0 <= i < j < |AllBelow(c)| ==> AllBelow(c)[i] != AllBelow(c)[j]
  {
    AllBelowValues();
    forall x
      ensures x in AllBelow(c) <==> x != c && IsSubclass(x, c)
    {
      SubclassTable(x, c);
    }
  }

  /** Flattening one more direct subclass appends that subclass's own subclasses. */
  lemma FlattenSnoc(parent: Class, subs: seq<Class>, i: nat)
    requires forall s :: s in subs ==> Base(s) == Some(parent)
    requires i < |subs|
    ensures Flatten(parent, subs[..i + 1]) == Flatten(parent, subs[..i]) + AllBelow(subs[i])
  {
    assert subs[..i + 1][..i] == subs[..i];
  }

  lemma AppendAssociates(a: seq<Class>, b: seq<Class>, c: seq<Class>)
    ensures (a + b) + c == a + (b + c)
  {
  }

  /** The subclasses of the first `i` direct subclasses of `c`, one after another. */
  function FlattenPrefix(c: Class, i: nat): seq<Class>
    requires i <= |DirectSubclasses(c)|
  {
    Flatten(c, DirectSubclasses(c)[..i])
  }

  lemma FlattenPrefixSteps(c: Class, i: nat)
    requires i < |DirectSubclasses(c)|
    ensures Height(DirectSubclasses(c)[i]) < Height(c)
    ensures FlattenPrefix(c, i + 1) == FlattenPrefix(c, i) + AllBelow(DirectSubclasses(c)[i])
  {
    SubclassIsLower(DirectSubclasses(c)[i], c);
    FlattenSnoc(c, DirectSubclasses(c), i);
  }

  lemma FlattenPrefixEnds(c: Class)
    ensures FlattenPrefix(c, 0) == []
    ensures AllBelow(c) == DirectSubclasses(c) + FlattenPrefix(c, |DirectSubclasses(c)|)
  {
    assert DirectSubclasses(c)[..|DirectSubclasses(c)|] == DirectSubclasses(c);
  }

  /** `all_subclasses`: extends the list of direct subclasses with each one's own subclasses. */
  method AllSubclasses(cls: Class) returns (subclasses: seq<Class>)
    ensures subclasses == AllBelow(cls)
    decreases Height(cls)
  {
    var direct := DirectSubclasses(cls);
    subclasses := direct;
    FlattenPrefixEnds(cls);
    for i := 0 to |direct|
      invariant subclasses == direct + FlattenPrefix(cls, i)
    {
      FlattenPrefixSteps(cls, i);
      var more := AllSubclasses(direct[i]);
      AppendAssociates(direct, FlattenPrefix(cls, i), more);
      subclasses := subclasses + more;
    }
  }

  /** `t` takes its i-th element from `lists[i]`, for every i. */
  predicate Picks(lists: seq<seq<Class>>, t: seq<Class>) {
    |t| == |lists| && forall i :: 0 <= i < |t| ==> t[i] in lists[i]
  }

  /** Each of `heads` put in front of each of `tails`, heads varying slowest. */
  function PrependEach(heads: seq<Class>, tails: seq<seq<Class>>): (r: seq<seq<Class>>)
    ensures |r| == |heads| * |tails|
  {
    if heads == [] then []
    else seq(|tails|, j requires 0 <= j < |tails| => [heads[0]] + tails[j]) + PrependEach(heads[1..], tails)
  }

  /** `itertools.product(*lists)`: every pick, in lexicographic order with the last position varying fastest. */
  function Product(lists: seq<seq<Class>>): (r: seq<seq<Class>>)
  {
    if lists == [] then [[]] else PrependEach(lists[0], Product(lists[1..]))
  }

  lemma {:induction false} InPrependEach(heads: seq<Class>, tails: seq<seq<Class>>, t: seq<Class>)
    ensures t in PrependEach(heads, tails) <==> |t| > 0 && t[0] in heads && t[1..] in tails
  {
    if heads != [] {
      var front := seq(|tails|, j requires 0 <= j < |tails| => [heads[0]] + tails[j]);
      InPrependEach(heads[1..], tails, t);
      if |t| > 0 && t[0] == heads[0] && t[1..] in tails {
        var j :| 0 <= j < |tails| && tails[j] == t[1..];
        assert front[j] == t;
      }
      if t in front {
        var j :| 0 <= j < |front| && front[j] == t;
        assert t[1..] == tails[j];
      }
      assert heads == [heads[0]] + heads[1..];
    }
  }

  /** The product holds exactly the picks. */
  lemma {:induction false} InProduct(lists: seq<seq<Class>>, t: seq<Class>)
    ensures t in Product(lists) <==> Picks(lists, t)
  {
    if lists == [] {
      assert Product(lists) == [[]];
    } else {
      InPrependEach(lists[0], Product(lists[1..]), t);
      if |t| > 0 {
        InProduct(lists[1..], t[1..]);
        if Picks(lists, t) {
          assert forall i :: 0 <= i < |t[1..]| ==> t[1..][i] == t[i + 1];
        }
        if Picks(lists[1..], t[1..]) && t[0] in lists[0] {
          forall i | 0 <= i < |t|
            ensures t[i] in lists[i]
          {
            if i > 0 {
              assert t[i] == t[1..][i - 1];
            }
          }
        }
      }
    }
  }

  /** `types_with_subclasses`: each declared type followed by all its subclasses. */
  function Expand(types: seq<Class>): (r: seq<seq<Class>>)
    ensures |r| == |types|
    ensures forall i :: 0 <= i < |types| ==> r[i] == [types[i]] + AllBelow(types[i])
  {
    seq(|types|, i requires 0 <= i < |types| => [types[i]] + AllBelow(types[i]))
  }

  lemma ExpandSnoc(types: seq<Class>, i: nat)
    requires i < |types|
    ensures Expand(types[..i + 1]) == Expand(types[..i]) + [[types[i]] + AllBelow(types[i])]
  {
    var l, r := Expand(types[..i + 1]), Expand(types[..i]) + [[types[i]] + AllBelow(types[i])];
    assert forall k :: 0 <= k < |l| ==> l[k] == r[k];
  }

  /** The tuples a registration for `types` covers are exactly those of instances of `types`. */
  lemma ProductOfExpansionCovers(types: seq<Class>, t: seq<Class>)
    ensures t in Product(Expand(types)) <==> Covers(types, t)
  {
    InProduct(Expand(types), t);
    forall i | 0 <= i < |types|
      ensures forall x :: x in Expand(types)[i] <==> IsSubclass(x, types[i])
    {
      AllBelowIsProperSubclasses(types[i]);
    }
  }

  /** `typemap` with every tuple of `tuples` mapped to `f` and every other entry kept. */
  function Overwrite<H>(typemap: map<seq<Class>, H>, tuples: seq<seq<Class>>, f: H): map<seq<Class>, H> {
    map k | k in typemap.Keys + (set t | t in tuples) :: if k in tuples then f else typemap[k]
  }

  lemma OverwriteNothing<H>(typemap: map<seq<Class>, H>, f: H)
    ensures Overwrite(typemap, [], f) == typemap
  {
  }

  /** Overwriting one more tuple is one more map update. */
  lemma OverwriteSnoc<H>(typemap: map<seq<Class>, H>, tuples: seq<seq<Class>>, j: nat, f: H)
    requires j < |tuples|
    ensures Overwrite(typemap, tuples[..j + 1], f) == Overwrite(typemap, tuples[..j], f)[tuples[j] := f]
  {
    assert tuples[..j + 1] == tuples[..j] + [tuples[j]];
  }

  /**
   * What a registration of `f` for `types` leaves in the typemap: the tuples
   * covered by `types` now go to `f`, whatever they held before (the last
   * registration wins), and every other entry is unchanged.
   */
  lemma RegistrationOverrides<H>(typemap: map<seq<Class>, H>, types: seq<Class>, f: H, k: seq<Class>)
    ensures k in Overwrite(typemap, Product(Expand(types)), f) <==> k in typemap || Covers(types, k)
    ensures Covers(types, k) ==> Overwrite(typemap, Product(Expand(types)), f)[k] == f
    ensures !Covers(types, k) && k in typemap ==> Overwrite(typemap, Product(Expand(types)), f)[k] == typemap[k]
  {
    ProductOfExpansionCovers(types, k);
  }

  /** `types_with_subclasses`, built one declared type at a time. */
  method TypesWithSubclasses(types: seq<Class>) returns (r: seq<seq<Class>>)
    ensures r == Expand(types)
  {
    r := [];
    for i := 0 to |types|
      invariant r == Expand(types[..i])
    {
      var subclasses := AllSubclasses(types[i]);
      ExpandSnoc(types, i);
      r := r + [[types[i]] + subclasses];
    }
    assert types[..|types|] == types;
  }

  /** `_MultiMethod` with base-class defaults. */
  class MultiMethod<H> {
    const name: string
    var typemap: map<seq<Class>, H>

    constructor (name: string)
      ensures this.name == name && typemap == map[]
    {
      this.name := name;
      typemap := map[];
    }

    /** `__call__`: the function registered for exactly the tuple of the arguments' classes, or `TypeError`. */
    function Call(args: seq<Class>): (r: Result<H, TypeError>)
      reads this
      ensures r.Ok? <==> args in typemap
      ensures r.Ok? ==> r.value == typemap[args]
      ensures r.Err? ==> r.error == NoMatch(name, args)
    {
      if args in typemap then Ok(typemap[args]) else Err(NoMatch(name, args))
    }

    /**
     * `register_function_for_types`: maps every tuple of the product of the
     * declared types and their subclasses to `f`, overwriting earlier
     * registrations.
     */
    method RegisterFunctionForTypes(types: seq<Class>, f: H)
      modifies this
      ensures typemap == Overwrite(old(typemap), Product(Expand(types)), f)
    {
      var typesWithSubclasses := TypesWithSubclasses(types);
      var tuples := Product(typesWithSubclasses);
      OverwriteNothing(typemap, f);
      assert tuples[..0] == [];
      for j := 0 to |tuples|
        invariant typemap == Overwrite(old(typemap), tuples[..j], f)
      {
        OverwriteSnoc(old(typemap), tuples, j, f);
        typemap := typemap[tuples[j] := f];
      }
      assert tuples[..|tuples|] == tuples;
    }
  }

  /** `_multi_registry` together with the `multimethod` decorator that fills it. */
  class Registry<H> {
    var entries: map<string, MultiMethod<H>>

    /** Every multimethod is filed under its own name. */
    ghost predicate Valid()
      reads this
    {
      forall n :: n in entries ==> entries[n].name == n
    }

    constructor ()
      ensures entries == map[] && Valid()
    {
      entries := map[];
    }

    /**
     * `multimethod(*types)` applied to a function called `name`: the
     * multimethod of that name, created on first use and reused afterwards,
     * with `f` registered for `types` and their subclasses.
     */
    method Multimethod(name: string, types: seq<Class>, f: H) returns (mm: MultiMethod<H>)
      requires Valid()
      modifies this, if name in entries then {entries[name]} else {}
      ensures Valid()
      ensures name in entries && entries[name] == mm
      ensures name in old(entries) ==> entries == old(entries) && mm == old(entries[name])
      ensures name !in old(entries) ==> fresh(mm) && entries == old(entries)[name := mm]
      ensures mm.typemap == Overwrite(if name in old(entries) then old(entries[name].typemap) else map[],
                                      Product(Expand(types)), f)
      ensures forall n :: n in old(entries) && n != name ==> entries[n].typemap == old(entries[n].typemap)
    {
      if name in entries {
        mm := entries[name];
      } else {
        mm := new MultiMethod(name);
        entries := entries[name := mm];
      }
      mm.RegisterFunctionForTypes(types, f);
    }
  }

  /** The client's typemap: Shape x Shape, then Rectangle x Ellipse, then Rectangle x Rectangle. */
  function ClientTable(): map<seq<Class>, Handler> {
    var generic := Overwrite(map[], Product(Expand([Shape, Shape])), ShapeShape);
    var withEllipse := Overwrite(generic, Product(Expand([Rectangle, Ellipse])), RectangleEllipse);
    Overwrite(withEllipse, Product(Expand([Rectangle, Rectangle])), RectangleRectangle)
  }

  /**
   * With the generic registration first, every pair of classes is
   * registered, and exact-type lookup in the client's typemap agrees with
   * the ordered `isinstance` chain of bruteforce.py.
   */
  lemma ClientTableIsChain(c1: Class, c2: Class)
    ensures [c1, c2] in ClientTable()
    ensures ClientTable()[[c1, c2]] == BruteForce.Intersect(c1, c2)
  {
    var generic := Overwrite(map[], Product(Expand([Shape, Shape])), ShapeShape);
    var withEllipse := Overwrite(generic, Product(Expand([Rectangle, Ellipse])), RectangleEllipse);
    var k := [c1, c2];
    CoversPair(Shape, Shape, c1, c2);
    CoversPair(Rectangle, Ellipse, c1, c2);
    CoversPair(Rectangle, Rectangle, c1, c2);
    RegistrationOverrides(map[], [Shape, Shape], ShapeShape, k);
    RegistrationOverrides(generic, [Rectangle, Ellipse], RectangleEllipse, k);
    RegistrationOverrides(withEllipse, [Rectangle, Rectangle], RectangleRectangle, k);
    ShapeIsRoot(c1);
    ShapeIsRoot(c2);
    RectangleEllipseDisjoint(c2);
  }

  /** The lookups the client makes, in the client's typemap. */
  lemma ClientLookups()
    ensures [Square, Ellipse] in ClientTable() && ClientTable()[[Square, Ellipse]] == RectangleEllipse
    ensures [Square, Rectangle] in ClientTable() && ClientTable()[[Square, Rectangle]] == RectangleRectangle
    ensures [Triangle, Ellipse] in ClientTable() && ClientTable()[[Triangle, Ellipse]] == ShapeShape
  {
    ClientTableIsChain(Square, Ellipse);
    ClientTableIsChain(Square, Rectangle);
    ClientTableIsChain(Triangle, Ellipse);
  }

  lemma ShapeIsRoot(c: Class)
    ensures IsSubclass(c, Shape)
  {
  }

  /**
   * The client of multi_with_base_class_defaults.py: `intersect(sq, e)`
   * reaches the Rectangle x Ellipse function and `intersect(sq, r)` the
   * Rectangle x Rectangle one, through Square's base class; `intersect(t, e)`
   * falls back to Shape x Shape.
   */
  method Client() returns (squareEllipse: Result<Handler, TypeError>, squareRectangle: Result<Handler, TypeError>,
                           triangleEllipse: Result<Handler, TypeError>)
    ensures squareEllipse == Ok(RectangleEllipse)
    ensures squareRectangle == Ok(RectangleRectangle)
    ensures triangleEllipse == Ok(ShapeShape)
  {
    ClientLookups();
    ghost var generic := Overwrite(map[], Product(Expand([Shape, Shape])), ShapeShape);
    ghost var withEllipse := Overwrite(generic, Product(Expand([Rectangle, Ellipse])), RectangleEllipse);
    var registry := new Registry<Handler>();
    var intersect := registry.Multimethod("intersect", [Shape, Shape], ShapeShape);
    assert intersect.typemap == generic;
    intersect := registry.Multimethod("intersect", [Rectangle, Ellipse], RectangleEllipse);
    assert intersect.typemap == withEllipse;
    intersect := registry.Multimethod("intersect", [Rectangle, Rectangle], RectangleRectangle);
    assert intersect.typemap == ClientTable();
    squareEllipse := intersect.Call([Square, Ellipse]);
    squareRectangle := intersect.Call([Square, Rectangle]);
    triangleEllipse := intersect.Call([Triangle, Ellipse]);
  }
}
