/**
 * The `Ontology` registry (src/ontology_framework/core.py): object, link,
 * action and function definitions, the registered data sources, the object
 * store and the link store.
 *
 * `State` is the registry as a value, and each operation is a function from
 * the old state to the new one (or to the exception it raises); the
 * `Ontology` class (module Ontologies) holds the same state in mutable
 * fields and its methods are proved to perform exactly these functions.
 */
module OntologyModel {
  import opened Wrappers
  import opened Values
  import opened Schema
  import PyDict
  import Seqs
  import opened DataSources
  import opened LinkStores

  const DEFAULT_DATASOURCE: string := "__memory__"

  /**
   * The registry.  `datasources` maps each registered adapter id to its
   * `read_only` flag; every adapter reads and writes the one object store
   * `storage`.
   */
  datatype State = State(
    objectTypes: PyDict.Dict<string, ObjectType>,
    linkTypes: PyDict.Dict<string, LinkType>,
    actionTypes: PyDict.Dict<string, ActionType>,
    functions: PyDict.Dict<string, Function>,
    datasources: map<string, bool>,
    storage: Storage,
    links: seq<Link>)

  ghost predicate StateWf(s: State)
  {
    PyDict.Wf(s.objectTypes) && PyDict.Wf(s.linkTypes) && PyDict.Wf(s.actionTypes)
    && PyDict.Wf(s.functions) && StorageWf(s.storage)
  }

  /** A fresh `Ontology()`: nothing registered except the in-memory data source. */
  function Initial(): (s: State)
    ensures StateWf(s)
    ensures s.datasources == map[DEFAULT_DATASOURCE := false]
  {
    State(PyDict.Empty(), PyDict.Empty(), PyDict.Empty(), PyDict.Empty(),
          map[DEFAULT_DATASOURCE := false], map[], [])
  }

  /** `backing_datasource_id or default`. */
  function DatasourceId(t: ObjectType): string
  {
    if t.backingDatasource.Some? && t.backingDatasource.value != "" then t.backingDatasource.value
    else DEFAULT_DATASOURCE
  }

  /** `_get_datasource_for_type(t).read_only`, or the ValueError of an unregistered adapter. */
  function DatasourceReadOnly(s: State, t: ObjectType): Result<bool>
  {
    var id := DatasourceId(t);
    if id in s.datasources then Ok(s.datasources[id]) else Err(ValueError)
  }

  /** `is_type_read_only`: an unknown type counts as read-only. */
  function IsTypeReadOnly(s: State, name: string): Result<bool>
  {
    match PyDict.Get(s.objectTypes, name)
    case None => Ok(true)
    case Some(t) => DatasourceReadOnly(s, t)
  }

  /** `ensure_object_type_writable` (and `_ensure_writable` once the type is known). */
  function EnsureWritable(s: State, name: string): Result<()>
  {
    match PyDict.Get(s.objectTypes, name)
    case None => Err(ValueError)
    case Some(t) =>
      match DatasourceReadOnly(s, t)
      case Err(e) => Err(e)
      case Ok(ro) => if ro then Err(DataSourceError) else Ok(())
  }

  /** A type is writable exactly when it is known and not read-only. */
  lemma WritableIffNotReadOnly(s: State, name: string)
    ensures EnsureWritable(s, name).Ok? <==> IsTypeReadOnly(s, name) == Ok(false)
    ensures EnsureWritable(s, name) == Err(DataSourceError) <==> (name in s.objectTypes.vals && IsTypeReadOnly(s, name) == Ok(true))
  {
  }

  /** `register_datasource`: the adapter id now resolves to this adapter. */
  function RegisterDatasource(s: State, id: string, readOnly: bool): State
  {
    s.(datasources := s.datasources[id := readOnly])
  }

  /** `register_object_type`: fills in the default data source and creates an empty table. */
  function RegisterObjectType(s: State, t: ObjectType): State
  {
    var t' := if t.backingDatasource.None? || t.backingDatasource.value == "" then t.(backingDatasource := Some(DEFAULT_DATASOURCE)) else t;
    s.(objectTypes := PyDict.Put(s.objectTypes, t.apiName, t'),
       storage := if t.apiName in s.storage then s.storage else s.storage[t.apiName := PyDict.Empty()])
  }

  /**
   * Registration makes the type resolvable with a non-empty data source id
   * that is the one it named (or the default), keeps every object already
   * stored for that name, and leaves the other types alone.
   */
  lemma RegisterObjectTypeSpec(s: State, t: ObjectType)
    requires StateWf(s)
    ensures StateWf(RegisterObjectType(s, t))
    ensures var r := RegisterObjectType(s, t);
      && PyDict.Get(r.objectTypes, t.apiName).Some?
      && PyDict.Get(r.objectTypes, t.apiName).value.backingDatasource.Some?
      && PyDict.Get(r.objectTypes, t.apiName).value.backingDatasource.value != ""
      && DatasourceId(PyDict.Get(r.objectTypes, t.apiName).value) == DatasourceId(t)
      && PyDict.Get(r.objectTypes, t.apiName).value.(backingDatasource := t.backingDatasource) == t
    ensures var r := RegisterObjectType(s, t);
      forall n, pk :: FetchObject(r.storage, n, pk) == FetchObject(s.storage, n, pk)
    ensures var r := RegisterObjectType(s, t);
      forall n :: n != t.apiName ==> PyDict.Get(r.objectTypes, n) == PyDict.Get(s.objectTypes, n)
  {
    var r := RegisterObjectType(s, t);
    forall n, pk ensures FetchObject(r.storage, n, pk) == FetchObject(s.storage, n, pk) {
      if n == t.apiName && n !in s.storage {
        assert r.storage[n] == PyDict.Empty();
      }
    }
  }

  /** `get_object`: None for an unknown type, otherwise the adapter's `fetch_object`. */
  function GetObject(s: State, typeName: string, pk: Value): Result<Option<ObjectInstance>>
  {
    match PyDict.Get(s.objectTypes, typeName)
    case None => Ok(None)
    case Some(t) =>
      if DatasourceReadOnly(s, t).Err? then Err(ValueError)
      else Ok(FetchObject(s.storage, typeName, pk))
  }

  /** `add_object`: ValueError for an unknown type, the writability error, else an upsert. */
  function AddObject(s: State, o: ObjectInstance): Result<State>
  {
    match EnsureWritable(s, o.typeName)
    case Err(e) => Err(e)
    case Ok(_) => Ok(s.(storage := Upserted(s.storage, o.typeName, o)))
  }

  /**
   * `add_object` succeeds exactly on writable types; afterwards `get_object`
   * returns the instance and every other (type, key) reads as before.
   */
  lemma AddThenGet(s: State, o: ObjectInstance)
    requires StateWf(s)
    ensures AddObject(s, o).Ok? <==> EnsureWritable(s, o.typeName).Ok?
    ensures AddObject(s, o).Err? ==> AddObject(s, o).exc == EnsureWritable(s, o.typeName).exc
    ensures AddObject(s, o).Ok? ==> StateWf(AddObject(s, o).value)
    ensures AddObject(s, o).Ok? ==> GetObject(AddObject(s, o).value, o.typeName, o.pk) == Ok(Some(o))
    ensures AddObject(s, o).Ok? ==> forall n, k :: (n != o.typeName || k != o.pk) ==>
              GetObject(AddObject(s, o).value, n, k) == GetObject(s, n, k)
  {
    if AddObject(s, o).Ok? {
      UpsertedWf(s.storage, o.typeName, o);
      UpsertThenFetch(s.storage, o.typeName, o);
    }
  }

  /** `delete_object`: silently nothing for an unknown type, the writability error, else a delete. */
  function DeleteObject(s: State, typeName: string, pk: Value): Result<State>
  {
    match PyDict.Get(s.objectTypes, typeName)
    case None => Ok(s)
    case Some(_) =>
      match EnsureWritable(s, typeName)
      case Err(e) => Err(e)
      case Ok(_) => Ok(s.(storage := Deleted(s.storage, typeName, pk)))
  }

  /**
   * After `delete_object` the key reads as absent and every other key as
   * before; it only fails on a known type that is not writable.
   */
  lemma DeleteThenGet(s: State, typeName: string, pk: Value)
    requires StateWf(s)
    ensures DeleteObject(s, typeName, pk).Err? <==> (typeName in s.objectTypes.vals && EnsureWritable(s, typeName).Err?)
    ensures typeName !in s.objectTypes.vals ==> DeleteObject(s, typeName, pk) == Ok(s)
    ensures DeleteObject(s, typeName, pk).Ok? ==> StateWf(DeleteObject(s, typeName, pk).value)
    ensures DeleteObject(s, typeName, pk).Ok? ==> GetObject(DeleteObject(s, typeName, pk).value, typeName, pk) == Ok(None)
    ensures DeleteObject(s, typeName, pk).Ok? ==> forall n, k :: (n != typeName || k != pk) ==>
              GetObject(DeleteObject(s, typeName, pk).value, n, k) == GetObject(s, n, k)
  {
    if DeleteObject(s, typeName, pk).Ok? && typeName in s.objectTypes.vals {
      DeletedWf(s.storage, typeName, pk);
      DeleteThenFetch(s.storage, typeName, pk);
    }
  }

  /** `scan_objects`: [] for an unknown type, otherwise the adapter's `scan`. */
  function ScanObjects(s: State, typeName: string, filters: map<string, Value>, limit: Option<int>): Result<seq<ObjectInstance>>
    requires StateWf(s)
  {
    match PyDict.Get(s.objectTypes, typeName)
    case None => Ok([])
    case Some(t) =>
      if DatasourceReadOnly(s, t).Err? then Err(ValueError)
      else Ok(Scan(s.storage, typeName, filters, limit))
  }

  /** `scan_objects` agrees with `get_object`: it returns stored objects that match every filter. */
  lemma ScanAgreesWithGet(s: State, typeName: string, filters: map<string, Value>, limit: Option<int>)
    requires StateWf(s)
    ensures ScanObjects(s, typeName, filters, limit).Err? <==> GetObject(s, typeName, Null).Err?
    ensures ScanObjects(s, typeName, filters, limit).Ok? ==>
      forall o :: o in ScanObjects(s, typeName, filters, limit).value ==>
        MatchesAll(o, filters) && o in TableObjects(s.storage, typeName)
  {
    if ScanObjects(s, typeName, filters, limit).Ok? && typeName in s.objectTypes.vals {
      var all := Scan(s.storage, typeName, filters, None);
      ScanSpec(s.storage, typeName, filters, if limit.Some? then limit.value else 0);
      forall o | o in ScanObjects(s, typeName, filters, limit).value
        ensures MatchesAll(o, filters) && o in TableObjects(s.storage, typeName)
      {
        assert o in all;
      }
    }
  }

  /** `register_link_type`: both end types must be registered. */
  function RegisterLinkType(s: State, lt: LinkType): Result<State>
  {
    if lt.sourceType !in s.objectTypes.vals then Err(ValueError)
    else if lt.targetType !in s.objectTypes.vals then Err(ValueError)
    else Ok(s.(linkTypes := PyDict.Put(s.linkTypes, lt.apiName, lt)))
  }

  /** `register_action_type`: every target type must be registered. */
  function RegisterActionType(s: State, at: ActionType): Result<State>
  {
    if exists i :: 0 <= i < |at.targetObjectTypes| && at.targetObjectTypes[i] !in s.objectTypes.vals then Err(ValueError)
    else Ok(s.(actionTypes := PyDict.Put(s.actionTypes, at.apiName, at)))
  }

  /** `register_function`: overwrites a function of the same name. */
  function RegisterFunction(s: State, f: Function): State
  {
    s.(functions := PyDict.Put(s.functions, f.apiName, f))
  }

  /**
   * Registered link types only ever connect registered object types: the
   * invariant `register_link_type` keeps (object types are never removed).
   */
  ghost predicate LinkTypesClosed(s: State)
  {
    forall n :: n in s.linkTypes.vals ==>
      s.linkTypes.vals[n].sourceType in s.objectTypes.vals && s.linkTypes.vals[n].targetType in s.objectTypes.vals
  }

  lemma RegistrationKeepsLinkTypesClosed(s: State, lt: LinkType, t: ObjectType, at: ActionType, f: Function)
    requires LinkTypesClosed(s)
    ensures RegisterLinkType(s, lt).Ok? ==> LinkTypesClosed(RegisterLinkType(s, lt).value)
    ensures RegisterLinkType(s, lt).Ok? <==> lt.sourceType in s.objectTypes.vals && lt.targetType in s.objectTypes.vals
    ensures LinkTypesClosed(RegisterObjectType(s, t))
    ensures RegisterActionType(s, at).Ok? ==> LinkTypesClosed(RegisterActionType(s, at).value)
    ensures RegisterActionType(s, at).Ok? <==> forall n :: n in at.targetObjectTypes ==> n in s.objectTypes.vals
    ensures LinkTypesClosed(RegisterFunction(s, f))
  {
    if RegisterActionType(s, at).Ok? {
      forall n | n in at.targetObjectTypes ensures n in s.objectTypes.vals {
        var i :| 0 <= i < |at.targetObjectTypes| && at.targetObjectTypes[i] == n;
      }
    }
  }

  // ---------------------------------------------------------------------
  // execute_function

  /** The check `execute_function` makes of one declared input, None when it passes. */
  function ArgError(inputs: map<string, FunctionArgument>, name: string, kwargs: map<string, Arg>): Option<Exc>
  {
    if name !in inputs then None
    else var a := inputs[name];
    if name !in kwargs then (if a.required then Some(ValueError) else None)
    else match a.spec
      case Primitive(_) => None
      case ObjectTypeSpec(t) => if kwargs[name].AObj? && kwargs[name].o.typeName == t then None else Some(TypeError)
      case ObjectSetTypeSpec(t) => if kwargs[name].ASet? && kwargs[name].setType == t then None else Some(TypeError)
  }

  /** The declared inputs are checked in declaration order; the first failure is raised. */
  function FirstArgError(inputs: map<string, FunctionArgument>, names: seq<string>, kwargs: map<string, Arg>): Option<Exc>
  {
    if names == [] then None
    else match ArgError(inputs, names[0], kwargs)
      case Some(e) => Some(e)
      case None => FirstArgError(inputs, names[1..], kwargs)
  }

  /**
   * The raised exception is that of the first declared input that fails its
   * check, and nothing is raised when every input passes.
   */
  lemma {:induction false} FirstArgErrorSpec(inputs: map<string, FunctionArgument>, names: seq<string>, kwargs: map<string, Arg>)
    ensures FirstArgError(inputs, names, kwargs).None? <==>
      forall i :: 0 <= i < |names| ==> ArgError(inputs, names[i], kwargs).None?
    ensures FirstArgError(inputs, names, kwargs).Some? ==>
      exists i :: 0 <= i < |names| && ArgError(inputs, names[i], kwargs) == FirstArgError(inputs, names, kwargs)
        && forall j :: 0 <= j < i ==> ArgError(inputs, names[j], kwargs).None?
  {
    if names != [] {
      var tl := names[1..];
      FirstArgErrorSpec(inputs, tl, kwargs);
      if ArgError(inputs, names[0], kwargs).None? {
        if FirstArgError(inputs, tl, kwargs).Some? {
          var i :| 0 <= i < |tl| && ArgError(inputs, tl[i], kwargs) == FirstArgError(inputs, tl, kwargs)
            && forall j :: 0 <= j < i ==> ArgError(inputs, tl[j], kwargs).None?;
          assert ArgError(inputs, names[i + 1], kwargs) == FirstArgError(inputs, names, kwargs);
          forall j | 0 <= j < i + 1 ensures ArgError(inputs, names[j], kwargs).None? {
            if j > 0 { assert names[j] == tl[j - 1]; }
          }
        } else {
          forall i | 0 <= i < |names| ensures ArgError(inputs, names[i], kwargs).None? {
            if i > 0 { assert names[i] == tl[i - 1]; }
          }
        }
      }
    }
  }

  /** `execute_function`: lookup, logic present, argument checks, then the logic itself. */
  function ExecuteFunction(s: State, name: string, kwargs: map<string, Arg>, logic: Logic): Result<Ret>
  {
    if name !in s.functions.vals then Err(ValueError)
    else
      var f := s.functions.vals[name];
      if f.logic.None? then Err(ValueError)
      else match FirstArgError(f.inputs.vals, f.inputs.keys, kwargs)
        case Some(e) => Err(e)
        case None => Ok(logic(f.logic.value, kwargs))
  }

  /**
   * The logic runs exactly when the function is registered, has logic, every
   * required input is supplied and every object-typed input has the
   * declared object type; it then returns what the logic returns.
   */
  lemma ExecuteFunctionSpec(s: State, name: string, kwargs: map<string, Arg>, logic: Logic)
    ensures name !in s.functions.vals ==> ExecuteFunction(s, name, kwargs, logic) == Err(ValueError)
    ensures name in s.functions.vals ==>
      var f := s.functions.vals[name];
      (ExecuteFunction(s, name, kwargs, logic).Ok? <==>
        f.logic.Some? && forall i :: 0 <= i < |f.inputs.keys| ==> ArgError(f.inputs.vals, f.inputs.keys[i], kwargs).None?)
    ensures ExecuteFunction(s, name, kwargs, logic).Ok? ==>
      ExecuteFunction(s, name, kwargs, logic).value == logic(s.functions.vals[name].logic.value, kwargs)
    ensures name in s.functions.vals ==>
      var f := s.functions.vals[name];
      forall i :: 0 <= i < |f.inputs.keys| && f.inputs.keys[i] in f.inputs.vals && f.inputs.vals[f.inputs.keys[i]].required && f.inputs.keys[i] !in kwargs ==>
        ExecuteFunction(s, name, kwargs, logic).Err?
  {
    if name in s.functions.vals {
      var f := s.functions.vals[name];
      FirstArgErrorSpec(f.inputs.vals, f.inputs.keys, kwargs);
    }
  }

  // ---------------------------------------------------------------------
  // Links

  function LinkPermission(t: string): string
  {
    "EDIT_LINK_" + t
  }

  /** The permission gate shared by `create_link` and `delete_link`; None means no principal. */
  predicate LinkPermitted(t: string, perms: Option<seq<string>>)
  {
    perms.None? || LinkPermission(t) in perms.value
  }

  /** `create_link`: permission, link type, both endpoints, then append unless present. */
  function CreateLink(s: State, t: string, src: Value, dst: Value, perms: Option<seq<string>>): Result<State>
  {
    if !LinkPermitted(t, perms) then Err(PermissionError)
    else match PyDict.Get(s.linkTypes, t)
      case None => Err(ValueError)
      case Some(lt) =>
        match GetObject(s, lt.sourceType, src)
        case Err(e) => Err(e)
        case Ok(so) =>
          if so.None? then Err(ValueError)
          else match GetObject(s, lt.targetType, dst)
            case Err(e) => Err(e)
            case Ok(to) =>
              if to.None? then Err(ValueError)
              else if exists l :: l in ListLinks(s.links, Some(t)) && IsTriple(l, t, src, dst) then Ok(s)
              else Ok(s.(links := s.links + [Link(t, src, dst)]))
  }

  /**
   * `create_link` is refused without the permission, fails with ValueError
   * for an unknown link type or a missing endpoint, and otherwise leaves the
   * triple in the store exactly once more than never: it appends it only when
   * absent, so a repeated call changes nothing.
   */
  lemma CreateLinkSpec(s: State, t: string, src: Value, dst: Value, perms: Option<seq<string>>)
    ensures !LinkPermitted(t, perms) ==> CreateLink(s, t, src, dst, perms) == Err(PermissionError)
    ensures LinkPermitted(t, perms) && t !in s.linkTypes.vals ==> CreateLink(s, t, src, dst, perms) == Err(ValueError)
    ensures LinkPermitted(t, perms) && t in s.linkTypes.vals && GetObject(s, s.linkTypes.vals[t].sourceType, src) == Ok(None)
      ==> CreateLink(s, t, src, dst, perms) == Err(ValueError)
    ensures CreateLink(s, t, src, dst, perms).Ok? ==>
      var r := CreateLink(s, t, src, dst, perms).value;
      && Link(t, src, dst) in r.links
      && r.links == (if Link(t, src, dst) in s.links then s.links else s.links + [Link(t, src, dst)])
      && r.(links := s.links) == s
    ensures CreateLink(s, t, src, dst, perms).Ok? ==>
      CreateLink(CreateLink(s, t, src, dst, perms).value, t, src, dst, perms) == CreateLink(s, t, src, dst, perms)
  {
    TripleListed(s.links, t, src, dst);
    if CreateLink(s, t, src, dst, perms).Ok? {
      TripleListed(CreateLink(s, t, src, dst, perms).value.links, t, src, dst);
    }
  }

  /** The duplicate check of `create_link` looks for exactly the triple. */
  lemma TripleListed(links: seq<Link>, t: string, src: Value, dst: Value)
    ensures (exists l :: l in ListLinks(links, Some(t)) && IsTriple(l, t, src, dst)) <==> Link(t, src, dst) in links
  {
    if t != "" {
      ListLinksSpec(links, [], t);
    }
    if Link(t, src, dst) in links {
      assert Link(t, src, dst) in ListLinks(links, Some(t));
    }
  }

  /** `delete_link`: permission, then drop every copy of the triple. */
  function DeleteLink(s: State, t: string, src: Value, dst: Value, perms: Option<seq<string>>): Result<State>
  {
    if !LinkPermitted(t, perms) then Err(PermissionError)
    else Ok(s.(links := WithoutTriple(s.links, t, src, dst)))
  }

  /** `delete_link` then `create_link` round-trip: the triple is gone, then back exactly once at the end. */
  lemma DeleteLinkSpec(s: State, t: string, src: Value, dst: Value, perms: Option<seq<string>>)
    ensures DeleteLink(s, t, src, dst, perms).Err? <==> !LinkPermitted(t, perms)
    ensures DeleteLink(s, t, src, dst, perms).Ok? ==>
      var r := DeleteLink(s, t, src, dst, perms).value;
      && Link(t, src, dst) !in r.links
      && (forall l :: l in r.links <==> l in s.links && l != Link(t, src, dst))
      && r.(links := s.links) == s
    ensures DeleteLink(s, t, src, dst, perms).Ok? && CreateLink(DeleteLink(s, t, src, dst, perms).value, t, src, dst, perms).Ok? ==>
      CreateLink(DeleteLink(s, t, src, dst, perms).value, t, src, dst, perms).value.links
        == WithoutTriple(s.links, t, src, dst) + [Link(t, src, dst)]
  {
    LinkStores.DeleteLinkSpec(s.links, [], t, src, dst);
    if DeleteLink(s, t, src, dst, perms).Ok? {
      var r := DeleteLink(s, t, src, dst, perms).value;
      CreateLinkSpec(r, t, src, dst, perms);
    }
  }

  /** `get_link_types_for_object`: registered link types with the type at either end, in order. */
  function LinkTypesFor(s: State, typeName: string): seq<LinkType>
    requires PyDict.Wf(s.linkTypes)
  {
    Seqs.Filter(PyDict.Values(s.linkTypes), (lt: LinkType) => lt.sourceType == typeName || lt.targetType == typeName)
  }

  lemma LinkTypesForSpec(s: State, typeName: string)
    requires PyDict.Wf(s.linkTypes)
    ensures forall lt :: lt in LinkTypesFor(s, typeName) <==>
      (exists n :: n in s.linkTypes.vals && s.linkTypes.vals[n] == lt) && (lt.sourceType == typeName || lt.targetType == typeName)
  {
    var vs := PyDict.Values(s.linkTypes);
    forall lt | lt in LinkTypesFor(s, typeName)
      ensures (exists n :: n in s.linkTypes.vals && s.linkTypes.vals[n] == lt)
    {
      assert lt in vs;
      var i :| 0 <= i < |vs| && vs[i] == lt;
      assert s.linkTypes.keys[i] in s.linkTypes.vals;
    }
    forall lt | (exists n :: n in s.linkTypes.vals && s.linkTypes.vals[n] == lt) && (lt.sourceType == typeName || lt.targetType == typeName)
      ensures lt in LinkTypesFor(s, typeName)
    {
      var n :| n in s.linkTypes.vals && s.linkTypes.vals[n] == lt;
      assert n in s.linkTypes.keys;
      var i :| 0 <= i < |s.linkTypes.keys| && s.linkTypes.keys[i] == n;
      assert vs[i] == lt;
    }
  }
}
