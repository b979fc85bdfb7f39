/**
 * The lightweight SDK over an ontology: lookups that raise NotFoundError
 * instead of returning None, and a function call that first checks and
 * converts the caller's keyword arguments against the function's declared
 * inputs and only then hands them to the ontology's own `execute_function`.
 *
 * The SDK holds nothing but the ontology, so its operations are functions
 * of the ontology state; argument preparation, a loop in the source, is a
 * method proved against the recursive definition `Prepare`.
 */
module Osdk {
  import opened Wrappers
  import opened Values
  import opened Schema
  import PyDict
  import DataSources
  import OntologyModel
  import Coercions

  /** A keyword argument as a caller passes it. */
  datatype Supplied =
    | SVal(v: Value)
    | SObj(o: ObjectInstance)
    | SRef(ref: map<string, Value>)
    | SSet(setType: string, members: seq<ObjectInstance>)

  /** `str(value)` of an argument that is not a plain value, supplied by the caller's runtime. */
  type Render = Supplied -> string

  // ---------------------------------------------------------------------
  // Lookups

  /** `get_object_type`: NotFoundError for an unregistered type. */
  function GetObjectType(s: OntologyModel.State, name: string): (r: Result<ObjectType>)
    ensures r.Ok? <==> name in s.objectTypes.vals
    ensures r.Ok? ==> r.value == s.objectTypes.vals[name]
    ensures r.Err? ==> r.exc == NotFoundError
  {
    match PyDict.Get(s.objectTypes, name)
    case None => Err(NotFoundError)
    case Some(t) => Ok(t)
  }

  /**
   * `get_object`: the type must be registered, the data source's error is
   * passed on, and a missing object is NotFoundError.
   */
  function GetObject(s: OntologyModel.State, typeName: string, pk: Value): (r: Result<ObjectInstance>)
    ensures typeName !in s.objectTypes.vals ==> r == Err(NotFoundError)
    ensures r.Ok? <==> (OntologyModel.GetObject(s, typeName, pk).Ok? && OntologyModel.GetObject(s, typeName, pk).value.Some?
      && typeName in s.objectTypes.vals)
    ensures r.Ok? ==> Some(r.value) == DataSources.FetchObject(s.storage, typeName, pk)
    ensures typeName in s.objectTypes.vals && OntologyModel.GetObject(s, typeName, pk) == Ok(None) ==>
      r == Err(NotFoundError)
    ensures typeName in s.objectTypes.vals && OntologyModel.GetObject(s, typeName, pk).Err? ==>
      r == Err(OntologyModel.GetObject(s, typeName, pk).exc)
  {
    match GetObjectType(s, typeName)
    case Err(e) => Err(e)
    case Ok(_) => Found(OntologyModel.GetObject(s, typeName, pk))
  }

  /** A lookup's outcome with a missing object turned into NotFoundError. */
  function Found(fetched: Result<Option<ObjectInstance>>): (r: Result<ObjectInstance>)
  {
    match fetched
    case Err(e) => Err(e)
    case Ok(None) => Err(NotFoundError)
    case Ok(Some(o)) => Ok(o)
  }

  /** `list_objects`: NotFoundError for an unregistered type, else every stored object of it. */
  function ListObjects(s: OntologyModel.State, typeName: string): (r: Result<seq<ObjectInstance>>)
    requires OntologyModel.StateWf(s)
    ensures typeName !in s.objectTypes.vals ==> r == Err(NotFoundError)
    ensures typeName in s.objectTypes.vals ==> r == OntologyModel.ScanObjects(s, typeName, map[], None)
    ensures r.Ok? ==> forall o :: o in r.value ==> o in DataSources.TableObjects(s.storage, typeName)
  {
    OntologyModel.ScanAgreesWithGet(s, typeName, map[], None);
    match GetObjectType(s, typeName)
    case Err(e) => Err(e)
    case Ok(_) => OntologyModel.ScanObjects(s, typeName, map[], None)
  }

  /** `get_function`: NotFoundError for an unregistered function. */
  function GetFunction(s: OntologyModel.State, name: string): (r: Result<Function>)
    ensures r.Ok? <==> name in s.functions.vals
    ensures r.Ok? ==> r.value == s.functions.vals[name]
    ensures r.Err? ==> r.exc == NotFoundError
  {
    match PyDict.Get(s.functions, name)
    case None => Err(NotFoundError)
    case Some(f) => Ok(f)
  }

  // ---------------------------------------------------------------------
  // Argument conversion

  /**
   * `_coerce_primitive`: None stays None; STRING is `str`; INTEGER is
   * `int` (ValidationError when it fails); BOOLEAN reads the yes/no words,
   * else truthiness; DATE and TIMESTAMP are numbers (ValidationError when
   * the value is not one).
   */
  function CoercePrimitive(pt: PropertyType, x: Supplied, render: Render): (r: Result<Arg>)
    ensures x == SVal(Null) ==> r == Ok(AVal(Null))
    ensures r.Ok? && x != SVal(Null) ==> (r.value.AVal? && r.value.v.Str? == (pt == STRING)
      && r.value.v.Bool? == (pt == BOOLEAN) && r.value.v.Int? == (pt in {INTEGER, DATE, TIMESTAMP}))
    ensures pt == STRING ==> r.Ok?
    ensures pt == BOOLEAN ==> r.Ok?
    ensures pt == INTEGER && x.SVal? && x.v != Null ==>
      (r.Ok? <==> Coercions.PyInt(x.v).Some?) && (r.Ok? ==> r.value.v.i == Coercions.PyInt(x.v).value)
    ensures r.Err? ==> r.exc == ValidationError && pt in {INTEGER, DATE, TIMESTAMP}
    ensures pt != STRING && pt != BOOLEAN && !x.SVal? ==> r == Err(ValidationError)
    ensures pt == STRING && x.SVal? && x.v != Null ==> r == Ok(AVal(Str(Show(x.v))))
    ensures pt == STRING && !x.SVal? ==> r == Ok(AVal(Str(render(x))))
    ensures pt == BOOLEAN && x.SVal? && x.v != Null ==> r == Ok(AVal(Bool(Coercions.CoerceBool(x.v))))
    ensures pt == BOOLEAN && !x.SVal? ==> r == Ok(AVal(Bool(NonValueTruthy(x))))
  {
    match x
    case SVal(Null) => Ok(AVal(Null))
    case SVal(v) =>
      (match pt
       case STRING => Ok(AVal(Str(Show(v))))
       case BOOLEAN => Ok(AVal(Bool(Coercions.CoerceBool(v))))
       case _ =>
         match Coercions.PyInt(v)
         case None => Err(ValidationError)
         case Some(i) => Ok(AVal(Int(i))))
    case _ =>
      match pt
      case STRING => Ok(AVal(Str(render(x))))
      case BOOLEAN => Ok(AVal(Bool(NonValueTruthy(x))))
      case _ => Err(ValidationError)
  }

  /** `bool(x)` of a supplied argument that is not a plain value: an empty dict is false, anything else true. */
  function NonValueTruthy(x: Supplied): bool
  {
    match x
    case SRef(d) => d != map[]
    case _ => true
  }

  /** The primary key `_materialize_object` looks up: `get("primary_key") or get("id")` of a dict, else the value. */
  function LookupKey(x: Supplied): Option<Value>
    requires !x.SObj? && !x.SSet?
  {
    match x
    case SRef(d) =>
      var k := if "primary_key" in d && Truthy(d["primary_key"]) then d["primary_key"]
               else if "id" in d then d["id"] else Null;
      if k == Null then None else Some(k)
    case SVal(v) => if v == Null then None else Some(v)
  }

  /**
   * `_materialize_object`: an instance must have the expected type; a
   * dictionary or a bare value is a primary key that must be present and
   * must name a stored object. An object set used as a key finds nothing.
   */
  function MaterializeObject(s: OntologyModel.State, t: string, x: Supplied): (r: Result<ObjectInstance>)
    ensures x.SObj? ==> r == (if x.o.typeName == t then Ok(x.o) else Err(ValidationError))
    ensures x == SVal(Null) ==> r == Err(ValidationError)
    ensures r.Ok? && !x.SObj? ==>
      !x.SSet? && LookupKey(x).Some? && OntologyModel.GetObject(s, t, LookupKey(x).value) == Ok(Some(r.value))
    ensures x.SSet? ==> r.Err?
    ensures (x.SRef? || x.SVal?) && LookupKey(x).None? ==> r == Err(ValidationError)
    ensures (x.SRef? || x.SVal?) && LookupKey(x).Some? && OntologyModel.GetObject(s, t, LookupKey(x).value) == Ok(None) ==>
      r == Err(NotFoundError)
    ensures (x.SRef? || x.SVal?) && LookupKey(x).Some? && OntologyModel.GetObject(s, t, LookupKey(x).value).Err? ==>
      r == Err(OntologyModel.GetObject(s, t, LookupKey(x).value).exc)
  {
    match x
    case SObj(o) => if o.typeName == t then Ok(o) else Err(ValidationError)
    case SSet(_, _) =>
      // An unhashable-by-value key: no table holds it, only the data source's error can differ.
      (match OntologyModel.GetObject(s, t, Null)
       case Err(e) => Err(e)
       case Ok(_) => Err(NotFoundError))
    case _ =>
      match LookupKey(x)
      case None => Err(ValidationError)
      case Some(k) => Found(OntologyModel.GetObject(s, t, k))
  }

  /** `_coerce_argument`: dispatch on the declared type of the input. */
  function CoerceArgument(s: OntologyModel.State, spec: TypeSpec, x: Supplied, render: Render): (r: Result<Arg>)
    ensures spec.ObjectTypeSpec? ==> (r.Ok? <==> MaterializeObject(s, spec.objectType, x).Ok?)
    ensures spec.ObjectTypeSpec? && r.Ok? ==> r.value.AObj? && MaterializeObject(s, spec.objectType, x) == Ok(r.value.o)
    ensures spec.ObjectSetTypeSpec? ==>
      r == (if x.SSet? && x.setType == spec.objectType then Ok(ASet(x.setType, x.members)) else Err(ValidationError))
    ensures spec.Primitive? ==> r == CoercePrimitive(spec.pt, x, render)
  {
    match spec
    case Primitive(pt) => CoercePrimitive(pt, x, render)
    case ObjectTypeSpec(t) =>
      (match MaterializeObject(s, t, x)
       case Err(e) => Err(e)
       case Ok(o) => Ok(AObj(o)))
    case ObjectSetTypeSpec(t) =>
      if x.SSet? && x.setType == t then Ok(ASet(x.setType, x.members)) else Err(ValidationError)
  }

  // ---------------------------------------------------------------------
  // Argument preparation

  /**
   * The declared inputs `names` are taken in order: a missing required one
   * is ValidationError, a missing optional one is skipped, a supplied one
   * is converted and the first conversion error is raised.
   */
  function Prepare(s: OntologyModel.State, inputs: map<string, FunctionArgument>, names: seq<string>,
                   supplied: map<string, Supplied>, render: Render): Result<map<string, Arg>>
  {
    if names == [] then Ok(map[])
    else
      var n := names[0];
      if n !in inputs then Prepare(s, inputs, names[1..], supplied, render)
      else if n !in supplied then
        if inputs[n].required then Err(ValidationError)
        else Prepare(s, inputs, names[1..], supplied, render)
      else match CoerceArgument(s, inputs[n].spec, supplied[n], render)
        case Err(e) => Err(e)
        case Ok(a) =>
          match Prepare(s, inputs, names[1..], supplied, render)
          case Err(e) => Err(e)
          case Ok(m) => Ok(map[n := a] + m)
  }

  /** `_prepare_arguments`: the declared inputs in order, then no unknown argument may remain. */
  function PrepareArguments(s: OntologyModel.State, f: Function, supplied: map<string, Supplied>, render: Render): Result<map<string, Arg>>
  {
    match Prepare(s, f.inputs.vals, f.inputs.keys, supplied, render)
    case Err(e) => Err(e)
    case Ok(m) => if supplied.Keys <= f.inputs.vals.Keys then Ok(m) else Err(ValidationError)
  }

  /** Whether a declared input is fine: supplied and convertible, or missing and optional. */
  predicate InputOk(s: OntologyModel.State, inputs: map<string, FunctionArgument>, n: string,
                    supplied: map<string, Supplied>, render: Render)
  {
    if n !in inputs then true
    else if n in supplied then CoerceArgument(s, inputs[n].spec, supplied[n], render).Ok?
    else !inputs[n].required
  }

  /**
   * Preparation succeeds exactly when every declared input is fine; the
   * prepared arguments are then the supplied declared inputs, each converted
   * by its declared type. A failure is the failure of the first input that
   * is not fine, and a missing required input fails with ValidationError.
   */
  lemma {:induction false} PrepareSpec(s: OntologyModel.State, inputs: map<string, FunctionArgument>, names: seq<string>,
                                        supplied: map<string, Supplied>, render: Render)
    ensures Prepare(s, inputs, names, supplied, render).Ok? <==>
      forall i :: 0 <= i < |names| ==> InputOk(s, inputs, names[i], supplied, render)
    ensures Prepare(s, inputs, names, supplied, render).Ok? ==>
      var m := Prepare(s, inputs, names, supplied, render).value;
      (forall n :: n in m <==> n in names && n in inputs && n in supplied)
      && forall n :: n in m ==> m[n] == CoerceArgument(s, inputs[n].spec, supplied[n], render).value
    ensures Prepare(s, inputs, names, supplied, render).Err? ==>
      exists i :: 0 <= i < |names| && !InputOk(s, inputs, names[i], supplied, render)
        && (forall j :: 0 <= j < i ==> InputOk(s, inputs, names[j], supplied, render))
        && Prepare(s, inputs, names, supplied, render).exc ==
           (if names[i] in supplied then CoerceArgument(s, inputs[names[i]].spec, supplied[names[i]], render).exc
            else ValidationError)
  {
    if names != [] {
      var tl := names[1..];
      PrepareSpec(s, inputs, tl, supplied, render);
      var r := Prepare(s, inputs, names, supplied, render);
      if InputOk(s, inputs, names[0], supplied, render) {
        forall i | 1 <= i < |names| ensures names[i] == tl[i - 1] { }
        if r.Err? {
          var i :| 0 <= i < |tl| && !InputOk(s, inputs, tl[i], supplied, render)
            && (forall j :: 0 <= j < i ==> InputOk(s, inputs, tl[j], supplied, render))
            && Prepare(s, inputs, tl, supplied, render).exc ==
               (if tl[i] in supplied then CoerceArgument(s, inputs[tl[i]].spec, supplied[tl[i]], render).exc
                else ValidationError);
          assert names[i + 1] == tl[i];
        }
      } else {
        assert !InputOk(s, inputs, names[0], supplied, render);
      }
    }
  }

  /**
   * `_prepare_arguments` succeeds exactly when every declared input is fine
   * and no argument is undeclared; the result holds the supplied declared
   * inputs, converted.
   */
  lemma PrepareArgumentsSpec(s: OntologyModel.State, f: Function, supplied: map<string, Supplied>, render: Render)
    requires PyDict.Wf(f.inputs)
    ensures PrepareArguments(s, f, supplied, render).Ok? <==>
      (forall i :: 0 <= i < |f.inputs.keys| ==> InputOk(s, f.inputs.vals, f.inputs.keys[i], supplied, render))
      && supplied.Keys <= f.inputs.vals.Keys
    ensures PrepareArguments(s, f, supplied, render).Ok? ==>
      var m := PrepareArguments(s, f, supplied, render).value;
      m.Keys == supplied.Keys
      && forall n :: n in m ==> m[n] == CoerceArgument(s, f.inputs.vals[n].spec, supplied[n], render).value
    ensures (exists n :: n in f.inputs.vals && f.inputs.vals[n].required && n !in supplied) ==>
      PrepareArguments(s, f, supplied, render).Err?
    ensures !(supplied.Keys <= f.inputs.vals.Keys) ==> PrepareArguments(s, f, supplied, render).Err?
  {
    PrepareSpec(s, f.inputs.vals, f.inputs.keys, supplied, render);
    if exists n :: n in f.inputs.vals && f.inputs.vals[n].required && n !in supplied {
      var n :| n in f.inputs.vals && f.inputs.vals[n].required && n !in supplied;
      var i :| 0 <= i < |f.inputs.keys| && f.inputs.keys[i] == n;
      assert !InputOk(s, f.inputs.vals, f.inputs.keys[i], supplied, render);
    }
  }

  /**
   * `_prepare_arguments` as the source writes it: a loop over the declared
   * inputs that returns at the first failure, then the unknown-argument check.
   */
  method PrepareArgumentsLoop(s: OntologyModel.State, f: Function, supplied: map<string, Supplied>, render: Render)
    returns (r: Result<map<string, Arg>>)
    ensures r == PrepareArguments(s, f, supplied, render)
  {
    var names := f.inputs.keys;
    var prepared: map<string, Arg> := map[];
    var i := 0;
    ThenEmpty(Prepare(s, f.inputs.vals, names, supplied, render));
    assert names[i..] == names;
    while i < |names|
      invariant 0 <= i <= |names|
      invariant Prepare(s, f.inputs.vals, names, supplied, render) ==
        Then(prepared, Prepare(s, f.inputs.vals, names[i..], supplied, render))
    {
      var n := names[i];
      assert names[i..][1..] == names[i + 1..];
      if n !in f.inputs.vals {
      } else if n !in supplied {
        if f.inputs.vals[n].required {
          return Err(ValidationError);
        }
      } else {
        var c := CoerceArgument(s, f.inputs.vals[n].spec, supplied[n], render);
        if c.Err? {
          return Err(c.exc);
        }
        ThenAssoc(prepared, n, c.value, Prepare(s, f.inputs.vals, names[i + 1..], supplied, render));
        prepared := prepared[n := c.value];
      }
      i := i + 1;
    }
    assert names[i..] == [];
    assert prepared + map[] == prepared;
    if !(supplied.Keys <= f.inputs.vals.Keys) {
      return Err(ValidationError);
    }
    return Ok(prepared);
  }

  /** The outcome of the remaining inputs, with the arguments prepared so far in front. */
  function Then(prepared: map<string, Arg>, rest: Result<map<string, Arg>>): Result<map<string, Arg>>
  {
    match rest
    case Err(e) => Err(e)
    case Ok(m) => Ok(prepared + m)
  }

  lemma ThenEmpty(rest: Result<map<string, Arg>>)
    ensures Then(map[], rest) == rest
  {
    if rest.Ok? {
      assert map[] + rest.value == rest.value;
    }
  }

  lemma ThenAssoc(p: map<string, Arg>, n: string, a: Arg, rest: Result<map<string, Arg>>)
    ensures Then(p, match rest case Err(e) => Err(e) case Ok(m) => Ok(map[n := a] + m)) == Then(p[n := a], rest)
  {
    if rest.Ok? {
      assert p + (map[n := a] + rest.value) == p[n := a] + rest.value;
    }
  }

  // ---------------------------------------------------------------------
  // execute_function

  /** `execute_function`: look the function up, prepare the arguments, run it in the ontology. */
  function ExecuteFunction(s: OntologyModel.State, name: string, supplied: map<string, Supplied>,
                           render: Render, logic: Logic): Result<Ret>
  {
    match GetFunction(s, name)
    case Err(e) => Err(e)
    case Ok(f) =>
      assert f == s.functions.vals[name];
      match PrepareArguments(s, f, supplied, render)
      case Err(e) => Err(e)
      case Ok(m) => OntologyModel.ExecuteFunction(s, name, m, logic)
  }

  /** Every stored object sits in the table of its own type. */
  ghost predicate TypedStorage(s: OntologyModel.State)
  {
    forall t, k :: t in s.storage && k in s.storage[t].vals ==> s.storage[t].vals[k].typeName == t
  }

  /** With typed storage, a materialized object always has the declared type. */
  lemma MaterializedHasType(s: OntologyModel.State, t: string, x: Supplied)
    requires OntologyModel.StateWf(s) && TypedStorage(s)
    ensures MaterializeObject(s, t, x).Ok? ==> MaterializeObject(s, t, x).value.typeName == t
  {
  }

  /** A declared input that prepared fine passes the ontology's check of its argument. */
  lemma PreparedArgPasses(s: OntologyModel.State, inputs: map<string, FunctionArgument>, n: string,
                          supplied: map<string, Supplied>, render: Render, m: map<string, Arg>)
    requires OntologyModel.StateWf(s) && TypedStorage(s)
    requires n in inputs && InputOk(s, inputs, n, supplied, render) && m.Keys == supplied.Keys
    requires n in m ==> m[n] == CoerceArgument(s, inputs[n].spec, supplied[n], render).value
    ensures OntologyModel.ArgError(inputs, n, m).None?
  {
    if n in supplied && inputs[n].spec.ObjectTypeSpec? {
      MaterializedHasType(s, inputs[n].spec.objectType, supplied[n]);
    }
  }

  /**
   * Arguments the SDK prepared always pass the ontology's own checks: the
   * call reaches the logic exactly when the function has logic, and an
   * unknown function is NotFoundError rather than the ontology's ValueError.
   */
  lemma ExecuteFunctionSpec(s: OntologyModel.State, name: string, supplied: map<string, Supplied>,
                            render: Render, logic: Logic)
    requires OntologyModel.StateWf(s) && TypedStorage(s)
    ensures name !in s.functions.vals ==> ExecuteFunction(s, name, supplied, render, logic) == Err(NotFoundError)
    ensures name in s.functions.vals ==>
      var f := s.functions.vals[name];
      PyDict.Wf(f.inputs) && PrepareArguments(s, f, supplied, render).Ok? ==>
      ExecuteFunction(s, name, supplied, render, logic) ==
        (if f.logic.None? then Err(ValueError)
         else Ok(logic(f.logic.value, PrepareArguments(s, f, supplied, render).value)))
  {
    if name in s.functions.vals {
      var f := s.functions.vals[name];
      if PyDict.Wf(f.inputs) && PrepareArguments(s, f, supplied, render).Ok? {
        var m := PrepareArguments(s, f, supplied, render).value;
        PrepareArgumentsSpec(s, f, supplied, render);
        forall i | 0 <= i < |f.inputs.keys| ensures OntologyModel.ArgError(f.inputs.vals, f.inputs.keys[i], m).None? {
          PreparedArgPasses(s, f.inputs.vals, f.inputs.keys[i], supplied, render, m);
        }
        OntologyModel.ExecuteFunctionSpec(s, name, m, logic);
      }
    }
  }
}
