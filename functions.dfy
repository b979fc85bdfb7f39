/**
 * The function registry (src/ontology_framework/functions.py): functions
 * declared with the `ontology_function` decorator wait in a pending map
 * until they are registered with an ontology.
 */
module FunctionRegistries {
  import opened Wrappers
  import opened Schema
  import PyDict
  import Seqs
  import opened OntologyModel
  import opened Ontologies

  /** The Python annotation handed to `_map_python_type`. */
  datatype PyType = StrType | IntType | BoolType | OtherType

  /** `_map_python_type`: str, int and bool map to their primitive; anything else is a string. */
  function MapPythonType(t: PyType): (r: TypeSpec)
    ensures r.Primitive?
    ensures r.pt == STRING <==> t == StrType || t == OtherType
    ensures r.pt == INTEGER <==> t == IntType
    ensures r.pt == BOOLEAN <==> t == BoolType
  {
    match t
    case StrType => Primitive(STRING)
    case IntType => Primitive(INTEGER)
    case BoolType => Primitive(BOOLEAN)
    case OtherType => Primitive(STRING)
  }

  /** The inputs after `add_input` for each declared input, in declaration order. */
  function AddInputs(d: PyDict.Dict<string, FunctionArgument>, keys: seq<string>, specs: map<string, TypeSpec>)
    : PyDict.Dict<string, FunctionArgument>
    requires forall k :: k in keys ==> k in specs
  {
    if keys == [] then d
    else
      var last := keys[|keys| - 1];
      PyDict.Put(AddInputs(d, keys[..|keys| - 1], specs), last, FunctionArgument(last, specs[last], true))
  }

  /** The `Function` the decorator builds and records. */
  function Declared(apiName: string, displayName: Option<string>, description: Option<string>,
                    inputs: PyDict.Dict<string, TypeSpec>, logic: string): Function
    requires forall k :: k in inputs.keys ==> k in inputs.vals
  {
    Function(apiName, displayName.GetOr(apiName), AddInputs(PyDict.Empty(), inputs.keys, inputs.vals),
             None, Some(logic), description)
  }

  /** Every declared input becomes a required argument of its declared type, in declaration order. */
  lemma {:induction false} AddInputsSpec(d: PyDict.Dict<string, FunctionArgument>, keys: seq<string>,
                                         specs: map<string, TypeSpec>)
    requires forall k :: k in keys ==> k in specs
    requires PyDict.Wf(d) && PyDict.Distinct(keys) && (forall k :: k in keys ==> k !in d.vals)
    ensures var r := AddInputs(d, keys, specs);
      && PyDict.Wf(r)
      && r.keys == d.keys + keys
      && (forall k :: k in keys ==> r.vals[k] == FunctionArgument(k, specs[k], true))
      && (forall k :: k in d.vals ==> r.vals[k] == d.vals[k])
      && (forall k :: k in r.vals <==> k in d.vals || k in keys)
    decreases |keys|
  {
    if keys != [] {
      var init := keys[..|keys| - 1];
      var last := keys[|keys| - 1];
      assert keys == init + [last];
      assert PyDict.Distinct(init) && last !in init by {
        forall i | 0 <= i < |init| ensures init[i] == keys[i] && init[i] != last { }
      }
      AddInputsSpec(d, init, specs);
      var g := AddInputs(d, init, specs);
      assert last !in g.vals;
      assert AddInputs(d, keys, specs) == PyDict.Put(g, last, FunctionArgument(last, specs[last], true));
      assert d.keys + init + [last] == d.keys + keys;
    }
  }

  /** The decorator records the given logic, the display name (the api name by default) and the inputs. */
  lemma DeclaredSpec(apiName: string, displayName: Option<string>, description: Option<string>,
                     inputs: PyDict.Dict<string, TypeSpec>, logic: string)
    requires PyDict.Wf(inputs)
    ensures var f := Declared(apiName, displayName, description, inputs, logic);
      && f.apiName == apiName
      && f.logic == Some(logic)
      && f.displayName == (if displayName.Some? then displayName.value else apiName)
      && f.description == description
      && PyDict.Wf(f.inputs) && f.inputs.keys == inputs.keys
      && (forall k :: k in f.inputs.vals <==> k in inputs.vals)
      && (forall k :: k in inputs.vals ==> f.inputs.vals[k] == FunctionArgument(k, inputs.vals[k], true))
  {
    AddInputsSpec(PyDict.Empty(), inputs.keys, inputs.vals);
  }

  /** The decorator's loop: `add_input` for each declared input, in declaration order. */
  method Build(apiName: string, displayName: Option<string>, description: Option<string>,
               inputs: PyDict.Dict<string, TypeSpec>, logic: string) returns (f: Function)
    requires PyDict.Wf(inputs)
    ensures f == Declared(apiName, displayName, description, inputs, logic)
  {
    f := Function(apiName, displayName.GetOr(apiName), PyDict.Empty(), None, Some(logic), description);
    var i := 0;
    while i < |inputs.keys|
      invariant 0 <= i <= |inputs.keys|
      invariant f == Function(apiName, displayName.GetOr(apiName), AddInputs(PyDict.Empty(), inputs.keys[..i], inputs.vals),
                              None, Some(logic), description)
    {
      var name := inputs.keys[i];
      Seqs.TakeNext(inputs.keys, i);
      f := AddInput(f, name, inputs.vals[name]);
      i := i + 1;
    }
    assert inputs.keys[..i] == inputs.keys;
  }

  /** The ontology after `register_function` for each function in turn. */
  function RegisterEach(s: State, fs: seq<Function>): State
  {
    if fs == [] then s else RegisterFunction(RegisterEach(s, fs[..|fs| - 1]), fs[|fs| - 1])
  }

  /**
   * With distinct names, every function ends up registered under its own
   * name, and the other registered functions are untouched.
   */
  lemma {:induction false} RegisterEachSpec(s: State, fs: seq<Function>)
    requires forall i, j :: 0 <= i < j < |fs| ==> fs[i].apiName != fs[j].apiName
    ensures forall i :: 0 <= i < |fs| ==> PyDict.Get(RegisterEach(s, fs).functions, fs[i].apiName) == Some(fs[i])
    ensures forall n :: (forall i :: 0 <= i < |fs| ==> fs[i].apiName != n) ==>
      PyDict.Get(RegisterEach(s, fs).functions, n) == PyDict.Get(s.functions, n)
    ensures RegisterEach(s, fs).(functions := s.functions) == s
  {
    if fs != [] {
      var init := fs[..|fs| - 1];
      RegisterEachSpec(s, init);
      forall i | 0 <= i < |fs| ensures PyDict.Get(RegisterEach(s, fs).functions, fs[i].apiName) == Some(fs[i]) {
        if i < |fs| - 1 {
          assert init[i] == fs[i];
        }
      }
      forall n | forall i :: 0 <= i < |fs| ==> fs[i].apiName != n
        ensures PyDict.Get(RegisterEach(s, fs).functions, n) == PyDict.Get(s.functions, n)
      {
        assert forall i :: 0 <= i < |init| ==> init[i] == fs[i];
      }
    }
  }

  /** Registering functions changes nothing but the function registry. */
  lemma {:induction false} RegisterEachFrame(s: State, fs: seq<Function>)
    ensures RegisterEach(s, fs).(functions := s.functions) == s
  {
    if fs != [] {
      RegisterEachFrame(s, fs[..|fs| - 1]);
    }
  }

  class FunctionRegistry {
    var pending: PyDict.Dict<string, Function>

    /** Each pending function sits under its own `api_name`. */
    ghost predicate Valid()
      reads this
    {
      PyDict.Wf(pending) && forall k :: k in pending.vals ==> pending.vals[k].apiName == k
    }

    constructor ()
      ensures Valid() && pending.keys == []
    {
      pending := PyDict.Empty();
    }

    /**
     * `register(api_name, **kwargs)(func)`: builds the function with its
     * inputs and records it, replacing an earlier one of the same name.
     */
    method Register(apiName: string, displayName: Option<string>, description: Option<string>,
                    inputs: PyDict.Dict<string, TypeSpec>, logic: string)
      requires Valid() && PyDict.Wf(inputs)
      modifies this
      ensures Valid()
      ensures pending == PyDict.Put(old(pending), apiName, Declared(apiName, displayName, description, inputs, logic))
    {
      var f := Build(apiName, displayName, description, inputs, logic);
      pending := PyDict.Put(pending, apiName, f);
    }

    /** `register_all_to_ontology`: each pending function in registry order. */
    method RegisterAllToOntology(ontology: Ontology)
      requires Valid() && ontology.Valid()
      modifies ontology
      ensures ontology.Valid()
      ensures ontology.Snapshot() == RegisterEach(old(ontology.Snapshot()), PyDict.Values(pending))
    {
      var fs := PyDict.Values(pending);
      ghost var s0 := ontology.Snapshot();
      var i := 0;
      while i < |fs|
        invariant 0 <= i <= |fs|
        invariant ontology.Valid()
        invariant ontology.Snapshot() == RegisterEach(s0, fs[..i])
      {
        Seqs.TakeNext(fs, i);
        ontology.RegisterFunction(fs[i]);
        i := i + 1;
      }
      assert fs[..i] == fs;
    }

    method Clear()
      modifies this
      ensures Valid() && pending.keys == [] && pending.vals == map[]
    {
      pending := PyDict.Empty();
    }

    /** `get_pending_functions`: a copy (a value here, so later changes to either side stay apart). */
    method GetPendingFunctions() returns (r: PyDict.Dict<string, Function>)
      ensures r == pending
    {
      r := pending;
    }

    predicate HasFunction(name: string)
      reads this
    {
      name in pending.vals
    }

    /** `remove_function`: True iff the name was pending; afterwards it is not. */
    method RemoveFunction(name: string) returns (removed: bool)
      requires Valid()
      modifies this
      ensures Valid()
      ensures removed == old(HasFunction(name)) && !HasFunction(name)
      ensures pending == PyDict.Remove(old(pending), name)
    {
      removed := name in pending.vals;
      PyDict.RemoveWf(pending, name);
      if removed {
        pending := PyDict.Remove(pending, name);
      } else {
        PyDict.RemoveAbsent(pending, name);
      }
    }
  }

  /** After `register_all_to_ontology`, every pending function is registered under its name. */
  lemma RegisterAllSpec(s: State, pending: PyDict.Dict<string, Function>)
    requires PyDict.Wf(pending) && forall k :: k in pending.vals ==> pending.vals[k].apiName == k
    ensures forall k :: k in pending.vals ==> PyDict.Get(RegisterEach(s, PyDict.Values(pending)).functions, k) == Some(pending.vals[k])
  {
    var fs := PyDict.Values(pending);
    forall i, j | 0 <= i < j < |fs| ensures fs[i].apiName != fs[j].apiName {
      assert fs[i].apiName == pending.keys[i] && fs[j].apiName == pending.keys[j];
    }
    RegisterEachSpec(s, fs);
    forall k | k in pending.vals ensures PyDict.Get(RegisterEach(s, fs).functions, k) == Some(pending.vals[k]) {
      var i :| 0 <= i < |pending.keys| && pending.keys[i] == k;
      assert fs[i] == pending.vals[k];
    }
  }
}
