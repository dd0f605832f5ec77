/**
 * The multimethod library of multi.py: a `_MultiMethod` maps exact tuples of
 * argument classes to functions and refuses a second registration of a
 * tuple; a registry keyed by function name hands out one multimethod per
 * name. Functions are modelled by the tags `H` the client registers.
 */
module Multi {
  import opened Wrappers
  import opened Shapes

  /**
   * A registration of `f` for exactly `types`: `TypeError` when the tuple is
   * already present; otherwise the map gains exactly that entry.
   */
  function Insert<H>(typemap: map<seq<Class>, H>, types: seq<Class>, f: H): (r: Result<map<seq<Class>, H>, TypeError>)
    ensures r.Err? <==> types in typemap
    ensures r.Err? ==> r.error == DuplicateRegistration
    ensures r.Ok? ==> r.value.Keys == typemap.Keys + {types}
                      && |r.value| == |typemap| + 1
                      && r.value[types] == f
                      && forall k :: k in typemap ==> r.value[k] == typemap[k]
  {
    if types in typemap then Err(DuplicateRegistration) else Ok(typemap[types := f])
  }

  /** `_MultiMethod`: the function to call for each tuple of argument types. */
  class MultiMethod<H> {
    const name: string
    var typemap: map<seq<Class>, H>

    constructor (name: string)
      ensures this.name == name && typemap == map[]
    {
      this.name := name;
      typemap := map[];
    }

    /**
     * `__call__` on arguments of classes `args`: the function registered for
     * exactly that tuple (no base-class fallback), or `TypeError` naming the
     * multimethod and the tuple.
     */
    function Call(args: seq<Class>): (r: Result<H, TypeError>)
      reads this
      ensures r.Ok? <==> args in typemap
      ensures r.Ok? ==> r.value == typemap[args]
      ensures r.Err? ==> r.error == NoMatch(name, args)
    {
      if args in typemap then Ok(typemap[args]) else Err(NoMatch(name, args))
    }

    /** `register_function_for_types`: a guarded insert; on `TypeError` the typemap is unchanged. */
    method RegisterFunctionForTypes(types: seq<Class>, f: H) returns (err: Option<TypeError>)
      modifies this
      ensures Insert(old(typemap), types, f).Err? ==>
                typemap == old(typemap) && err == Some(Insert(old(typemap), types, f).error)
      ensures Insert(old(typemap), types, f).Ok? ==>
                typemap == Insert(old(typemap), types, f).value && err == None
    {
      if types in typemap {
        return Some(DuplicateRegistration);
      }
      typemap := typemap[types := f];
      err := None;
    }
  }

  /** `_multi_registry` together with the `multimethod` decorator that fills it. */
  class Registry<H> {
    var entries: map<string, MultiMethod<H>>

    /** Every multimethod is filed under its own name. */
    ghost predicate Valid()
      reads this
    {
      forall n :: n in entries ==> entries[n].name == n
    }

    constructor ()
      ensures entries == map[] && Valid()
    {
      entries := map[];
    }

    /**
     * `multimethod(*types)` applied to a function called `name`: the
     * multimethod of that name, created on first use and reused afterwards,
     * with `f` registered for `types`. `err` is the `TypeError` the
     * decorator raises on a duplicate registration; the multimethod is
     * returned either way.
     */
    method Multimethod(name: string, types: seq<Class>, f: H) returns (mm: MultiMethod<H>, err: Option<TypeError>)
      requires Valid()
      modifies this, if name in entries then {entries[name]} else {}
      ensures Valid()
      ensures name in entries && entries[name] == mm
      ensures name in old(entries) ==> entries == old(entries) && mm == old(entries[name])
      ensures name !in old(entries) ==> fresh(mm) && entries == old(entries)[name := mm]
      ensures var before := if name in old(entries) then old(entries[name].typemap) else map[];
              match Insert(before, types, f)
              case Err(e) => mm.typemap == before && err == Some(e)
              case Ok(after) => mm.typemap == after && err == None
      ensures forall n :: n in old(entries) && n != name ==> entries[n].typemap == old(entries[n].typemap)
    {
      if name in entries {
        mm := entries[name];
      } else {
        mm := new MultiMethod(name);
        entries := entries[name := mm];
      }
      err := mm.RegisterFunctionForTypes(types, f);
    }
  }

  /** The typemaps the client's registrations build, one `Insert` at a time. */
  lemma ClientInserts()
    ensures Insert(map[], [Rectangle, Ellipse], RectangleEllipse)
         == Ok(map[[Rectangle, Ellipse] := RectangleEllipse])
    ensures Insert(map[[Rectangle, Ellipse] := RectangleEllipse], [Rectangle, Rectangle], RectangleRectangle)
         == Ok(map[[Rectangle, Ellipse] := RectangleEllipse, [Rectangle, Rectangle] := RectangleRectangle])
    ensures Insert(map[[Rectangle, Ellipse] := RectangleEllipse, [Rectangle, Rectangle] := RectangleRectangle],
                   [Shape, Shape], ShapeShape)
         == Ok(ClientTable())
    ensures Insert(ClientTable(), [Rectangle, Ellipse], RectangleEllipse) == Err(DuplicateRegistration)
    ensures [Rectangle, Ellipse] in ClientTable() && ClientTable()[[Rectangle, Ellipse]] == RectangleEllipse
    ensures [Ellipse, Rectangle] !in ClientTable()
  {
    assert [Rectangle, Rectangle] != [Rectangle, Ellipse];
    assert [Shape, Shape][0] != [Rectangle, Ellipse][0] && [Shape, Shape][0] != [Rectangle, Rectangle][0];
    assert [Ellipse, Rectangle][0] != [Rectangle, Ellipse][0] && [Ellipse, Rectangle][0] != [Rectangle, Rectangle][0];
    assert [Ellipse, Rectangle][0] != [Shape, Shape][0];
  }

  /** The client's typemap after its three registrations. */
  function ClientTable(): map<seq<Class>, Handler> {
    map[[Rectangle, Ellipse] := RectangleEllipse, [Rectangle, Rectangle] := RectangleRectangle,
        [Shape, Shape] := ShapeShape]
  }

  /**
   * The client of multi.py: `intersect` registered for Rectangle x Ellipse,
   * Rectangle x Rectangle and Shape x Shape, in that order. The call on
   * `(r1, e)` reaches the Rectangle x Ellipse function; the call on `(e, r1)`
   * raises `TypeError` although Shape x Shape is registered; registering
   * Rectangle x Ellipse once more raises the duplicate-registration error.
   */
  method Client() returns (first: Result<Handler, TypeError>, swapped: Result<Handler, TypeError>, again: Option<TypeError>)
    ensures first == Ok(RectangleEllipse)
    ensures swapped == Err(NoMatch("intersect", [Ellipse, Rectangle]))
    ensures again == Some(DuplicateRegistration)
  {
    ClientInserts();
    var registry := new Registry<Handler>();
    var intersect, err := registry.Multimethod("intersect", [Rectangle, Ellipse], RectangleEllipse);
    assert intersect.typemap == map[[Rectangle, Ellipse] := RectangleEllipse];
    intersect, err := registry.Multimethod("intersect", [Rectangle, Rectangle], RectangleRectangle);
    assert intersect.typemap == map[[Rectangle, Ellipse] := RectangleEllipse, [Rectangle, Rectangle] := RectangleRectangle];
    intersect, err := registry.Multimethod("intersect", [Shape, Shape], ShapeShape);
    assert intersect.typemap == ClientTable();
    first := intersect.Call([Rectangle, Ellipse]);
    swapped := intersect.Call([Ellipse, Rectangle]);
    intersect, again := registry.Multimethod("intersect", [Rectangle, Ellipse], RectangleEllipse);
  }
}
