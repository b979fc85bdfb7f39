/**
 * The service layer (src/ontology_framework/services.py): an object-set
 * service with a per-type list store, a per-property value index and a
 * naive text search, and the action service that checks, runs, commits
 * and logs actions.
 */
module Services {
  import opened Wrappers
  import opened Values
  import opened Schema
  import PyDict
  import opened Seqs
  import opened Permissions
  import opened OntologyModel
  import opened Ontologies
  import opened Actions

  /** `_index[type]`: property name -> value -> objects, in indexing order. */
  type PropIndex = map<string, map<Value, seq<ObjectInstance>>>

  /** `_index[type][p][v]`, `[]` where a level is missing. */
  function Bucket(idx: PropIndex, p: string, v: Value): seq<ObjectInstance>
  {
    if p in idx && v in idx[p] then idx[p][v] else []
  }

  /** `_storage.get(type, [])`. */
  function Stored(storage: map<string, seq<ObjectInstance>>, t: string): seq<ObjectInstance>
  {
    if t in storage then storage[t] else []
  }

  /** The objects a bucket `(p, v)` is meant to hold. */
  function HasValue(p: string, v: Value): ObjectInstance -> bool
  {
    (o: ObjectInstance) => p in o.props && o.props[p] == v
  }

  /** `_index[type]` once the properties in `done` of `o` have been appended. */
  function IndexSome(idx: PropIndex, o: ObjectInstance, done: set<string>): PropIndex
    requires done <= o.props.Keys
  {
    map p | p in idx.Keys + done ::
      if p in done then (if p in idx then idx[p] else map[])[o.props[p] := Bucket(idx, p, o.props[p]) + [o]]
      else idx[p]
  }

  /** One more property indexed: its bucket for the object's value gains the object. */
  lemma IndexSomeStep(idx: PropIndex, o: ObjectInstance, done: set<string>, p: string)
    requires done <= o.props.Keys && p in o.props && p !in done
    ensures var cur := IndexSome(idx, o, done);
      IndexSome(idx, o, done + {p})
        == cur[p := (if p in cur then cur[p] else map[])[o.props[p] := Bucket(cur, p, o.props[p]) + [o]]]
  {
    var cur := IndexSome(idx, o, done);
    assert Bucket(cur, p, o.props[p]) == Bucket(idx, p, o.props[p]);
    assert (if p in cur then cur[p] else map[]) == (if p in idx then idx[p] else map[]);
  }

  /** `_index[type]` after `index_object(o)`. */
  function IndexProps(idx: PropIndex, o: ObjectInstance): PropIndex
  {
    IndexSome(idx, o, o.props.Keys)
  }

  /** The loop of `index_object` over the object's properties. */
  method IndexInto(idx: PropIndex, o: ObjectInstance) returns (cur: PropIndex)
    ensures cur == IndexProps(idx, o)
  {
    cur := idx;
    var todo := o.props.Keys;
    ghost var done: set<string> := {};
    assert IndexSome(idx, o, {}) == idx;
    while todo != {}
      invariant done + todo == o.props.Keys && done !! todo
      invariant cur == IndexSome(idx, o, done)
      decreases todo
    {
      var p :| p in todo;
      IndexSomeStep(idx, o, done, p);
      var v := o.props[p];
      var inner := if p in cur then cur[p] else map[];
      cur := cur[p := inner[v := Bucket(cur, p, v) + [o]]];
      todo := todo - {p};
      done := done + {p};
    }
    assert done == o.props.Keys;
  }

  /** Each bucket gains `o` at its end exactly when `o` carries that value. */
  lemma IndexPropsSpec(idx: PropIndex, o: ObjectInstance)
    ensures forall p, v :: Bucket(IndexProps(idx, o), p, v) == Bucket(idx, p, v) + Filter([o], HasValue(p, v))
  {
    forall p, v ensures Bucket(IndexProps(idx, o), p, v) == Bucket(idx, p, v) + Filter([o], HasValue(p, v)) {
      assert Filter([o], HasValue(p, v)) == if HasValue(p, v)(o) then [o] else [];
    }
  }

  /**
   * The index of a type is exactly its store list filtered by each
   * (property, value), in the same order.
   */
  ghost predicate Consistent(storage: map<string, seq<ObjectInstance>>, index: map<string, PropIndex>)
  {
    && storage.Keys == index.Keys
    && forall t, p, v :: t in index ==> Bucket(index[t], p, v) == Filter(storage[t], HasValue(p, v))
  }

  /**
   * `index_object` keeps the index exact, and a re-indexed object is
   * stored (and indexed) once more.
   */
  lemma IndexKeepsConsistent(storage: map<string, seq<ObjectInstance>>, index: map<string, PropIndex>, o: ObjectInstance)
    requires Consistent(storage, index)
    ensures var t := o.typeName;
      Consistent(storage[t := Stored(storage, t) + [o]],
                 index[t := IndexProps(if t in index then index[t] else map[], o)])
    ensures var t := o.typeName;
      multiset(Stored(storage, t) + [o])[o] == multiset(Stored(storage, t))[o] + 1
  {
    var t := o.typeName;
    var idx := if t in index then index[t] else map[];
    var st' := storage[t := Stored(storage, t) + [o]];
    var ix' := index[t := IndexProps(idx, o)];
    IndexPropsSpec(idx, o);
    forall t2, p, v | t2 in ix' ensures Bucket(ix'[t2], p, v) == Filter(st'[t2], HasValue(p, v)) {
      if t2 == t {
        FilterConcat(Stored(storage, t), [o], HasValue(p, v));
      }
    }
  }

  class ObjectSetService {
    var storage: map<string, seq<ObjectInstance>>
    var index: map<string, PropIndex>

    /** The index mirrors the store. */
    ghost predicate Valid()
      reads this
    {
      Consistent(storage, index)
    }

    constructor ()
      ensures storage == map[] && index == map[]
      ensures Valid()
    {
      storage := map[];
      index := map[];
    }

    /** `index_object`: append to the type's list, then to one bucket per property. */
    method IndexObject(o: ObjectInstance)
      requires Valid()
      modifies this
      ensures Valid()
      ensures storage == old(storage)[o.typeName := Stored(old(storage), o.typeName) + [o]]
      ensures index == old(index)[o.typeName := IndexProps(if o.typeName in old(index) then old(index)[o.typeName] else map[], o)]
    {
      IndexKeepsConsistent(storage, index, o);
      var t := o.typeName;
      var cur := IndexInto(if t in index then index[t] else map[], o);
      storage := storage[t := Stored(storage, t) + [o]];
      index := index[t := cur];
    }

    /** `get_base_object_set`: a VIEW check only when the type has an ACL and a principal is named. */
    method GetBaseObjectSet(t: ObjectType, principal: string) returns (r: Result<seq<ObjectInstance>>)
      ensures r.Err? <==> t.permissions.Some? && principal != "" && !t.permissions.value.Check(principal, VIEW)
      ensures r.Err? ==> r.exc == PermissionError
      ensures r.Ok? ==> r.value == Stored(storage, t.apiName)
    {
      if t.permissions.Some? && principal != "" {
        if !t.permissions.value.Check(principal, VIEW) {
          return Err(PermissionError);
        }
      }
      r := Ok(Stored(storage, t.apiName));
    }

    /** `search`: the stored objects of the type that some property value matches, in store order. */
    method Search(t: ObjectType, query: string) returns (r: seq<ObjectInstance>)
      ensures r == Filter(Stored(storage, t.apiName), Hit(query))
    {
      r := SearchIn(Stored(storage, t.apiName), query);
    }
  }

  /** The outer loop of `search` over a type's stored objects. */
  method SearchIn(all: seq<ObjectInstance>, query: string) returns (r: seq<ObjectInstance>)
    ensures r == Filter(all, Hit(query))
  {
    r := [];
    var i := 0;
    while i < |all|
      invariant 0 <= i <= |all|
      invariant r == Filter(all[..i], Hit(query))
    {
      var o := all[i];
      var found := HasHit(o, query);
      TakeNext(all, i);
      FilterSnoc(all[..i], o, Hit(query));
      if found {
        r := r + [o];
      }
      i := i + 1;
    }
    assert all[..i] == all;
  }

  /** The inner loop of `search`: stop at the first property whose value matches. */
  method HasHit(o: ObjectInstance, query: string) returns (found: bool)
    ensures found == IsHit(query, o)
  {
    found := false;
    var todo := o.props.Keys;
    while todo != {} && !found
      invariant todo <= o.props.Keys
      invariant found ==> IsHit(query, o)
      invariant !found ==> forall p :: p in o.props && p !in todo ==> !ValueMatches(o.props[p], query)
      decreases todo
    {
      var p :| p in todo;
      if Contains(Lower(Show(o.props[p])), Lower(query)) {
        found := true;
      }
      todo := todo - {p};
    }
  }

  /** `str(val).lower().find(query.lower()) != -1`. */
  predicate ValueMatches(v: Value, query: string)
  {
    Contains(Lower(Show(v)), Lower(query))
  }

  /** An object is a search hit when some property value matches. */
  predicate IsHit(query: string, o: ObjectInstance)
  {
    exists p :: p in o.props && ValueMatches(o.props[p], query)
  }

  /** `IsHit` as the filter `search` applies. */
  function Hit(query: string): ObjectInstance -> bool
  {
    (o: ObjectInstance) => IsHit(query, o)
  }

  /** A search keeps exactly the hits, and the empty query hits every object with at least one property. */
  lemma SearchSpec(objs: seq<ObjectInstance>, query: string)
    ensures forall o :: o in Filter(objs, Hit(query)) <==> o in objs && Hit(query)(o)
    ensures query == "" ==> forall o :: o in objs && o.props != map[] ==> o in Filter(objs, Hit(query))
  {
    forall o | o in objs && Hit(query)(o) ensures o in Filter(objs, Hit(query)) {
      var i :| 0 <= i < |objs| && objs[i] == o;
    }
    if query == "" {
      forall o | o in objs && o.props != map[] ensures Hit(query)(o) {
        var p :| p in o.props;
        assert StartsWith(Lower(Show(o.props[p]))[0..], Lower(query));
        assert ValueMatches(o.props[p], query);
      }
    }
  }

  // ---------------------------------------------------------------------
  // ActionService

  /** The ACL an action's permission check reads. */
  function AclOf(s: State, name: string): set<object>
  {
    if name in s.actionTypes.vals && s.actionTypes.vals[name].permissions.Some?
    then {s.actionTypes.vals[name].permissions.value} else {}
  }

  /** Some declared parameter is required and not supplied. */
  predicate LacksRequired(at: ActionType, params: map<string, Value>)
  {
    exists i :: 0 <= i < |at.parameters.keys| && at.parameters.keys[i] in at.parameters.vals
      && at.parameters.vals[at.parameters.keys[i]].required && at.parameters.keys[i] !in params
  }

  /** The checks `execute_action` makes before any logic runs. */
  function Admit(s: State, name: string, params: map<string, Value>, principal: string): Result<ActionType>
    reads AclOf(s, name)
  {
    if name !in s.actionTypes.vals then Err(ValueError)
    else
      var at := s.actionTypes.vals[name];
      if at.permissions.Some? && !at.permissions.value.Check(principal, EDIT) then Err(PermissionError)
      else if LacksRequired(at, params) then Err(ValueError)
      else Ok(at)
  }

  /**
   * The order of the checks: an unknown action fails first, then a missing
   * EDIT grant, then a missing required parameter.
   */
  lemma AdmitOrder(s: State, name: string, params: map<string, Value>, principal: string)
    ensures Admit(s, name, params, principal) == Err(PermissionError) <==>
      name in s.actionTypes.vals && s.actionTypes.vals[name].permissions.Some?
      && !Allows(s.actionTypes.vals[name].permissions.value.permissions, principal, EDIT)
    ensures Admit(s, name, params, principal) == Err(ValueError) <==>
      name !in s.actionTypes.vals
      || ((s.actionTypes.vals[name].permissions.None?
           || Allows(s.actionTypes.vals[name].permissions.value.permissions, principal, EDIT))
          && LacksRequired(s.actionTypes.vals[name], params))
    ensures Admit(s, name, params, principal).Ok? ==>
      && Admit(s, name, params, principal).value == s.actionTypes.vals[name]
      && forall k :: (k in s.actionTypes.vals[name].parameters.keys && k in s.actionTypes.vals[name].parameters.vals
                      && s.actionTypes.vals[name].parameters.vals[k].required) ==> k in params
  {
  }

  /**
   * `execute_action` without its log: the checks, then (when the action
   * has logic) its run; on a failed check no logic runs and the state is
   * unchanged.
   */
  function Execute(s: State, name: string, params: map<string, Value>, principal: string,
                   logic: ActionLogic, uuid: nat -> string): (State, Result<seq<string>>)
    reads AclOf(s, name)
  {
    var a := Admit(s, name, params, principal);
    if a.Err? then (s, Err(a.exc))
    else RunAction(s, if a.value.logic.Some? then logic(a.value.logic.value, s, params) else LogicRun([], None), uuid)
  }

  /** A failed check leaves everything as it was; an action without logic commits nothing and reports no change. */
  lemma ExecuteSpec(s: State, name: string, params: map<string, Value>, principal: string,
                    logic: ActionLogic, uuid: nat -> string)
    ensures Admit(s, name, params, principal).Err? ==>
      Execute(s, name, params, principal, logic, uuid) == (s, Err(Admit(s, name, params, principal).exc))
    ensures Admit(s, name, params, principal).Ok? && Admit(s, name, params, principal).value.logic.None? ==>
      Execute(s, name, params, principal, logic, uuid) == (s, Ok([]))
  {
  }

  class ActionService {
    const ontology: Ontology
    var actionLogs: seq<ActionLog>

    constructor (ontology: Ontology)
      ensures this.ontology == ontology && actionLogs == []
    {
      this.ontology := ontology;
      actionLogs := [];
    }

    /** The checks at the head of `execute_action`, in their order. */
    method Check(name: string, params: map<string, Value>, principal: string) returns (r: Result<ActionType>)
      ensures r == Admit(ontology.Snapshot(), name, params, principal)
    {
      if name !in ontology.actionTypes.vals {
        return Err(ValueError);
      }
      var at := ontology.actionTypes.vals[name];
      if at.permissions.Some? && !at.permissions.value.Check(principal, EDIT) {
        return Err(PermissionError);
      }
      var i := 0;
      while i < |at.parameters.keys|
        invariant 0 <= i <= |at.parameters.keys|
        invariant forall j :: (0 <= j < i && at.parameters.keys[j] in at.parameters.vals
                               && at.parameters.vals[at.parameters.keys[j]].required) ==> at.parameters.keys[j] in params
      {
        var k := at.parameters.keys[i];
        if k in at.parameters.vals && at.parameters.vals[k].required && k !in params {
          return Err(ValueError);
        }
        i := i + 1;
      }
      r := Ok(at);
    }

    /**
     * `execute_action`; the log id and timestamp are supplied (they come
     * from `uuid4` and the clock).  Exactly one log entry is appended, and
     * only on success.
     */
    method ExecuteAction(name: string, params: map<string, Value>, principal: string,
                         logic: ActionLogic, uuid: nat -> string, logId: string, now: int)
      returns (r: Result<ActionLog>)
      requires ontology.Valid()
      modifies this, ontology, ontology.memory, ontology.linkStore
      ensures ontology.Valid()
      ensures ontology.Snapshot() == old(Execute(ontology.Snapshot(), name, params, principal, logic, uuid)).0
      ensures var out := old(Execute(ontology.Snapshot(), name, params, principal, logic, uuid)).1;
        && (r.Ok? <==> out.Ok?)
        && (r.Err? ==> r.exc == out.exc && actionLogs == old(actionLogs))
        && (r.Ok? ==> r.value == ActionLog(logId, name, principal, now, params, out.value)
                      && actionLogs == old(actionLogs) + [r.value])
    {
      var s0 := ontology.Snapshot();
      var admitted := Check(name, params, principal);
      if admitted.Err? {
        return Err(admitted.exc);
      }
      var at := admitted.value;
      var run := if at.logic.Some? then logic(at.logic.value, s0, params) else LogicRun([], None);
      assert Execute(s0, name, params, principal, logic, uuid) == RunAction(s0, run, uuid);
      var ctx := new ActionContext(ontology, principal);
      var out := ctx.Run(run, uuid);
      if out.Err? {
        return Err(out.exc);
      }
      var log := ActionLog(logId, name, principal, now, params, out.value);
      actionLogs := actionLogs + [log];
      r := Ok(log);
    }
  }
}
