/**
 * `ActionContext` (src/ontology_framework/core.py): a buffer of staged edits
 * and change messages that `apply_changes` replays against the ontology.
 *
 * Each staged closure is represented by the `Edit` it performs at commit
 * time.  Action logic is an oracle that, from the committed state and the
 * action parameters, yields the sequence of context calls it makes.
 */
module Actions {
  import opened Wrappers
  import opened Values
  import opened Schema
  import PyDict
  import Seqs
  import opened DataSources
  import opened OntologyModel
  import opened Ontologies

  /** What a staged closure does when `apply_changes` runs it. */
  datatype Edit =
    | CreateObj(typeName: string, pk: Value, props: map<string, Value>)
    | ModifyObj(typeName: string, pk: Value, prop: string, value: Value)
    | DeleteObj(typeName: string, pk: Value)
    | CreateLnk(linkType: string, src: Value, dst: Value)
    | DeleteLnk(linkType: string, src: Value, dst: Value)

  /** A call action logic makes on its context. */
  datatype Call =
    | CreateWithKey(typeName: string, pk: Value, props: map<string, Value>)
    | CreateFromProps(typeName: string, props: map<string, Value>)
    | Modify(obj: ObjectInstance, prop: string, value: Value)
    | Delete(obj: ObjectInstance)
    | AddLink(linkType: string, src: Value, dst: Value)
    | RemoveLink(linkType: string, src: Value, dst: Value)

  /** What one run of action logic does: the context calls it makes, in order, and what it raises after them. */
  datatype LogicRun = LogicRun(calls: seq<Call>, raised: Option<Exc>)

  /** Action logic: logic id, committed state and parameters to its run. */
  type ActionLogic = (string, State, map<string, Value>) -> LogicRun

  // ---------------------------------------------------------------------
  // create_object's primary key

  /** `resolved_properties.get(k)`: None when absent. */
  function Lookup(props: map<string, Value>, k: string): Value
  {
    if k in props then props[k] else Null
  }

  /**
   * The key `create_object` picks from the properties: the first non-None of
   * the type's key field (when it names one), `id` and `primary_key`, else
   * `ctx_` followed by a fresh id.
   */
  function ResolvePk(props: map<string, Value>, pkField: string, freshId: string): Value
  {
    var c1 := if pkField != "" then Lookup(props, pkField) else Null;
    if c1 != Null then c1
    else if Lookup(props, "id") != Null then Lookup(props, "id")
    else if Lookup(props, "primary_key") != Null then Lookup(props, "primary_key")
    else Str("ctx_" + freshId)
  }

  /** The properties stored: the key field and `id` are filled with the key when absent. */
  function ResolveProps(props: map<string, Value>, pkField: string, pk: Value): map<string, Value>
  {
    var p1 := if pkField != "" && pkField !in props then props[pkField := pk] else props;
    if "id" in p1 then p1 else p1["id" := pk]
  }

  lemma ResolvePkSpec(props: map<string, Value>, pkField: string, freshId: string)
    ensures var pk := ResolvePk(props, pkField, freshId);
      && pk != Null
      && (pkField != "" && Lookup(props, pkField) != Null ==> pk == props[pkField])
      && ((pkField == "" || Lookup(props, pkField) == Null) && Lookup(props, "id") != Null ==> pk == props["id"])
      && (var none := (pkField == "" || Lookup(props, pkField) == Null) && Lookup(props, "id") == Null;
          && (none && Lookup(props, "primary_key") != Null ==> pk == props["primary_key"])
          && (none && Lookup(props, "primary_key") == Null ==> pk == Str("ctx_" + freshId)))
    ensures var pk := ResolvePk(props, pkField, freshId);
      var r := ResolveProps(props, pkField, pk);
      && (forall k :: k in props ==> k in r && r[k] == props[k])
      && (pkField != "" ==> pkField in r)
      && "id" in r
      && (forall k :: k in r ==> k in props || k == pkField || k == "id")
      && (pkField != "" && pkField !in props ==> r[pkField] == pk)
  {
  }

  /** The type `create_object` registers for an unknown type name. */
  function DefaultType(t: string): ObjectType
  {
    AddProperty(NewObjectType(t, t, "id"), "id", STRING)
  }

  // ---------------------------------------------------------------------
  // Staging

  function CreatedMessage(t: string, pk: Value): string
  {
    "Created object " + t + " with PK " + Show(pk)
  }

  /**
   * One context call: the state afterwards (only `create_object` on an
   * unknown type registers it at once), the edit it stages and its change
   * message, or what it raises (`modify_object` on a type that is not
   * writable).
   */
  function StageCall(s: State, c: Call, freshId: string): Result<(State, Edit, string)>
  {
    match c
    case CreateWithKey(t, pk, props) => Ok((s, CreateObj(t, pk, props), CreatedMessage(t, pk)))
    case CreateFromProps(t, props) =>
      var s' := if t in s.objectTypes.vals then s else RegisterObjectType(s, DefaultType(t));
      var pkField := if t in s'.objectTypes.vals then s'.objectTypes.vals[t].primaryKey else "";
      var pk := ResolvePk(props, pkField, freshId);
      Ok((s', CreateObj(t, pk, ResolveProps(props, pkField, pk)), CreatedMessage(t, pk)))
    case Modify(o, prop, v) =>
      if EnsureWritable(s, o.typeName).Err? then Err(EnsureWritable(s, o.typeName).exc)
      else Ok((s, ModifyObj(o.typeName, o.pk, prop, v),
               "Modified object " + o.typeName + ":" + Show(o.pk) + " set " + prop + "=" + Show(v)))
    case Delete(o) => Ok((s, DeleteObj(o.typeName, o.pk), "Deleted object " + o.typeName + ":" + Show(o.pk)))
    case AddLink(t, a, b) => Ok((s, CreateLnk(t, a, b), "Created link " + t + " from " + Show(a) + " to " + Show(b)))
    case RemoveLink(t, a, b) => Ok((s, DeleteLnk(t, a, b), "Deleted link " + t + " from " + Show(a) + " to " + Show(b)))
  }

  /** What staging a list of calls leaves: the state, the edits and messages so far, and the error that stopped it. */
  datatype Staged = Staged(state: State, edits: seq<Edit>, changes: seq<string>, error: Option<Exc>)

  /** The calls staged in order; call number `i` draws fresh id `uuid(i)`. */
  function StageAll(s: State, calls: seq<Call>, uuid: nat -> string, i: nat): Staged
    decreases |calls|
  {
    if calls == [] then Staged(s, [], [], None)
    else
      var c := StageCall(s, calls[0], uuid(i));
      if c.Err? then Staged(s, [], [], Some(c.exc))
      else
        var rest := StageAll(c.value.0, calls[1..], uuid, i + 1);
        Staged(rest.state, [c.value.1] + rest.edits, [c.value.2] + rest.changes, rest.error)
  }

  /**
   * Staging only appends: one edit and one message per call that succeeded,
   * and only `create_object` on an unknown type changes the state, by
   * registering it.
   */
  lemma {:induction false} StageAllSpec(s: State, calls: seq<Call>, uuid: nat -> string, i: nat)
    ensures |StageAll(s, calls, uuid, i).edits| == |StageAll(s, calls, uuid, i).changes| <= |calls|
    ensures StageAll(s, calls, uuid, i).error.None? ==> |StageAll(s, calls, uuid, i).edits| == |calls|
    ensures (forall j :: 0 <= j < |calls| ==> !calls[j].CreateFromProps?) ==> StageAll(s, calls, uuid, i).state == s
    decreases |calls|
  {
    if calls != [] && StageCall(s, calls[0], uuid(i)).Ok? {
      StageAllSpec(StageCall(s, calls[0], uuid(i)).value.0, calls[1..], uuid, i + 1);
      if forall j :: 0 <= j < |calls| ==> !calls[j].CreateFromProps? {
        assert !calls[0].CreateFromProps?;
        assert forall j :: 0 <= j < |calls[1..]| ==> !calls[1..][j].CreateFromProps? by {
          forall j | 0 <= j < |calls[1..]| ensures !calls[1..][j].CreateFromProps? {
            assert calls[1..][j] == calls[j + 1];
          }
        }
      }
    }
  }

  // ---------------------------------------------------------------------
  // Commit

  /** The store after a `modify_object` closure sets one property of the stored instance in place. */
  function Modified(st: Storage, t: string, pk: Value, prop: string, v: Value): Storage
  {
    if t in st && pk in st[t].vals then
      st[t := PyDict.Put(st[t], pk, st[t].vals[pk].(props := st[t].vals[pk].props[prop := v]))]
    else st
  }

  /** One staged closure run against the ontology. */
  function ApplyEdit(s: State, e: Edit): Result<State>
  {
    match e
    case CreateObj(t, pk, props) => AddObject(s, ObjectInstance(t, pk, props))
    case ModifyObj(t, pk, prop, v) => Ok(s.(storage := Modified(s.storage, t, pk, prop, v)))
    case DeleteObj(t, pk) => DeleteObject(s, t, pk)
    case CreateLnk(t, a, b) => CreateLink(s, t, a, b, Some([LinkPermission(t)]))
    case DeleteLnk(t, a, b) => DeleteLink(s, t, a, b, Some([LinkPermission(t)]))
  }

  /**
   * `apply_changes`: the closures run in staging order; the first one that
   * raises stops the run, and everything committed before it stays.
   */
  function ApplyAll(s: State, edits: seq<Edit>): (State, Option<Exc>)
    decreases |edits|
  {
    if edits == [] then (s, None)
    else match ApplyEdit(s, edits[0])
      case Err(x) => (s, Some(x))
      case Ok(s1) => ApplyAll(s1, edits[1..])
  }

  /** Replaying a concatenation is replaying the first part, then (if it did not raise) the second. */
  lemma {:induction false} ApplyAllConcat(s: State, a: seq<Edit>, b: seq<Edit>)
    ensures ApplyAll(s, a + b) == if ApplyAll(s, a).1.Some? then ApplyAll(s, a) else ApplyAll(ApplyAll(s, a).0, b)
    decreases |a|
  {
    if a == [] {
      assert a + b == b;
    } else {
      assert (a + b)[0] == a[0];
      assert (a + b)[1..] == a[1..] + b;
      match ApplyEdit(s, a[0])
      case Err(_) =>
      case Ok(s1) => ApplyAllConcat(s1, a[1..], b);
    }
  }

  /** The staged link edits always pass the permission gate they carry. */
  lemma LinkEditsArePermitted(s: State, t: string, a: Value, b: Value)
    ensures ApplyEdit(s, DeleteLnk(t, a, b)).Ok?
    ensures ApplyEdit(s, CreateLnk(t, a, b)).Err? ==> ApplyEdit(s, CreateLnk(t, a, b)).exc != PermissionError
  {
  }

  lemma ModifiedWf(st: Storage, t: string, pk: Value, prop: string, v: Value)
    requires StorageWf(st)
    ensures StorageWf(Modified(st, t, pk, prop, v))
  {
  }

  /** A modification is visible to `get_object` at exactly that (type, key). */
  lemma ModifyThenGet(s: State, t: string, pk: Value, prop: string, v: Value)
    requires StateWf(s)
    ensures StateWf(ApplyEdit(s, ModifyObj(t, pk, prop, v)).value)
    ensures var s' := ApplyEdit(s, ModifyObj(t, pk, prop, v)).value;
      && (GetObject(s, t, pk).Ok? && GetObject(s, t, pk).value.Some? ==>
            GetObject(s', t, pk) == Ok(Some(GetObject(s, t, pk).value.value.(props := GetObject(s, t, pk).value.value.props[prop := v]))))
      && (forall t2, k :: (t2 != t || k != pk) ==> GetObject(s', t2, k) == GetObject(s, t2, k))
      && (GetObject(s, t, pk) == Ok(None) ==> GetObject(s', t, pk) == Ok(None))
  {
    ModifiedWf(s.storage, t, pk, prop, v);
  }

  lemma ApplyEditWf(s: State, e: Edit)
    requires StateWf(s)
    ensures ApplyEdit(s, e).Ok? ==> StateWf(ApplyEdit(s, e).value)
  {
    match e
    case CreateObj(t, pk, props) => AddThenGet(s, ObjectInstance(t, pk, props));
    case ModifyObj(t, pk, prop, v) => ModifiedWf(s.storage, t, pk, prop, v);
    case DeleteObj(t, pk) => DeleteThenGet(s, t, pk);
    case CreateLnk(t, a, b) =>
    case DeleteLnk(t, a, b) =>
  }

  lemma {:induction false} ApplyAllWf(s: State, edits: seq<Edit>)
    requires StateWf(s)
    ensures StateWf(ApplyAll(s, edits).0)
    decreases |edits|
  {
    if edits != [] {
      ApplyEditWf(s, edits[0]);
      match ApplyEdit(s, edits[0])
      case Err(_) =>
      case Ok(s1) => ApplyAllWf(s1, edits[1..]);
    }
  }

  /**
   * An action run: the logic's calls are staged; when neither a call nor the
   * logic itself raised, the buffer is committed.  The result is the final
   * state and either the change messages or the exception that escaped.
   */
  function RunAction(s: State, run: LogicRun, uuid: nat -> string): (State, Result<seq<string>>)
  {
    var staged := StageAll(s, run.calls, uuid, 0);
    if staged.error.Some? then (staged.state, Err(staged.error.value))
    else if run.raised.Some? then (staged.state, Err(run.raised.value))
    else
      var (s2, err) := ApplyAll(staged.state, staged.edits);
      if err.Some? then (s2, Err(err.value)) else (s2, Ok(staged.changes))
  }

  /** Staged results with edits and messages already buffered in front. */
  function After(edits: seq<Edit>, changes: seq<string>, rest: Staged): Staged
  {
    Staged(rest.state, edits + rest.edits, changes + rest.changes, rest.error)
  }

  /** One step of staging: call number `j` either raises or adds its edit and message in front of the rest. */
  lemma StageAllStep(s: State, calls: seq<Call>, uuid: nat -> string, j: nat)
    requires j < |calls|
    ensures var c := StageCall(s, calls[j], uuid(j));
      StageAll(s, calls[j..], uuid, j)
        == if c.Err? then Staged(s, [], [], Some(c.exc))
           else After([c.value.1], [c.value.2], StageAll(c.value.0, calls[j + 1..], uuid, j + 1))
  {
    assert calls[j..][0] == calls[j] && calls[j..][1..] == calls[j + 1..];
  }

  lemma AfterAfter(e1: seq<Edit>, m1: seq<string>, e2: seq<Edit>, m2: seq<string>, rest: Staged)
    ensures After(e1, m1, After(e2, m2, rest)) == After(e1 + e2, m1 + m2, rest)
  {
    assert e1 + (e2 + rest.edits) == (e1 + e2) + rest.edits;
    assert m1 + (m2 + rest.changes) == (m1 + m2) + rest.changes;
  }

  /**
   * A run that raises before the commit (in a staged call or in the logic)
   * leaves the links and the stored objects exactly as they were; a run
   * that succeeds returns one change message per call.
   */
  lemma RunActionSpec(s: State, run: LogicRun, uuid: nat -> string)
    ensures var staged := StageAll(s, run.calls, uuid, 0);
      (staged.error.Some? || run.raised.Some?) ==>
        && RunAction(s, run, uuid).1.Err?
        && RunAction(s, run, uuid).0.links == s.links
        && (forall t :: t in s.storage ==>
              t in RunAction(s, run, uuid).0.storage && RunAction(s, run, uuid).0.storage[t] == s.storage[t])
    ensures RunAction(s, run, uuid).1.Ok? ==>
      && run.raised.None?
      && RunAction(s, run, uuid).1.value == StageAll(s, run.calls, uuid, 0).changes
      && |RunAction(s, run, uuid).1.value| == |run.calls|
  {
    StagePreserves(s, run.calls, uuid, 0);
    StageAllSpec(s, run.calls, uuid, 0);
  }

  /** Staging keeps the links and every stored table (it can only register types, which adds empty tables). */
  lemma {:induction false} StagePreserves(s: State, calls: seq<Call>, uuid: nat -> string, i: nat)
    ensures StageAll(s, calls, uuid, i).state.links == s.links
    ensures forall t :: t in s.storage ==>
      t in StageAll(s, calls, uuid, i).state.storage && StageAll(s, calls, uuid, i).state.storage[t] == s.storage[t]
    decreases |calls|
  {
    if calls != [] {
      var c := StageCall(s, calls[0], uuid(i));
      if c.Ok? {
        var s1 := c.value.0;
        assert s1.links == s.links;
        assert forall t :: t in s.storage ==> t in s1.storage && s1.storage[t] == s.storage[t];
        StagePreserves(s1, calls[1..], uuid, i + 1);
      }
    }
  }

  // ---------------------------------------------------------------------

  class ActionContext {
    const ontology: Ontology
    const principalId: string
    var changes: seq<string>
    var edits: seq<Edit>

    constructor (ontology: Ontology, principalId: string)
      ensures this.ontology == ontology && this.principalId == principalId
      ensures changes == [] && edits == []
    {
      this.ontology := ontology;
      this.principalId := principalId;
      changes := [];
      edits := [];
    }

    /** `get_object` reads the committed store, not the staged edits. */
    function GetObject(typeName: string, pk: Value): Result<Option<ObjectInstance>>
      reads ontology, ontology.memory, ontology.linkStore
    {
      OntologyModel.GetObject(ontology.Snapshot(), typeName, pk)
    }

    /** `create_object(t, pk, props)`: the key and properties as given. */
    method CreateObjectWithKey(t: string, pk: Value, props: map<string, Value>)
      modifies this
      ensures edits == old(edits) + [CreateObj(t, pk, props)]
      ensures changes == old(changes) + [CreatedMessage(t, pk)]
    {
      edits := edits + [CreateObj(t, pk, props)];
      changes := changes + [CreatedMessage(t, pk)];
    }

    /** `create_object(t, props)`: registers an unknown type at once, then derives the key. */
    method CreateObjectFromProps(t: string, props: map<string, Value>, freshId: string)
      requires ontology.Valid()
      modifies this, ontology, ontology.memory
      ensures ontology.Valid()
      ensures var (s', e, m) := StageCall(old(ontology.Snapshot()), CreateFromProps(t, props), freshId).value;
        ontology.Snapshot() == s' && edits == old(edits) + [e] && changes == old(changes) + [m]
    {
      if t !in ontology.objectTypes.vals {
        ontology.RegisterObjectType(DefaultType(t));
      }
      var pkField := if t in ontology.objectTypes.vals then ontology.objectTypes.vals[t].primaryKey else "";
      var pk := ResolvePk(props, pkField, freshId);
      edits := edits + [CreateObj(t, pk, ResolveProps(props, pkField, pk))];
      changes := changes + [CreatedMessage(t, pk)];
    }

    /** `modify_object`: the writability check happens now, the write at commit. */
    method ModifyObject(o: ObjectInstance, prop: string, v: Value) returns (r: Result<()>)
      modifies this
      ensures r.Ok? <==> StageCall(ontology.Snapshot(), Modify(o, prop, v), "").Ok?
      ensures r.Err? ==> (r.exc == StageCall(ontology.Snapshot(), Modify(o, prop, v), "").exc
                          && edits == old(edits) && changes == old(changes))
      ensures r.Ok? ==> var (_, e, m) := StageCall(ontology.Snapshot(), Modify(o, prop, v), "").value;
        edits == old(edits) + [e] && changes == old(changes) + [m]
    {
      var w := EnsureWritable(ontology.Snapshot(), o.typeName);
      if w.Err? {
        return Err(w.exc);
      }
      edits := edits + [ModifyObj(o.typeName, o.pk, prop, v)];
      changes := changes + ["Modified object " + o.typeName + ":" + Show(o.pk) + " set " + prop + "=" + Show(v)];
      r := Ok(());
    }

    method DeleteObject(o: ObjectInstance)
      modifies this
      ensures var (_, e, m) := StageCall(ontology.Snapshot(), Delete(o), "").value;
        edits == old(edits) + [e] && changes == old(changes) + [m]
    {
      edits := edits + [DeleteObj(o.typeName, o.pk)];
      changes := changes + ["Deleted object " + o.typeName + ":" + Show(o.pk)];
    }

    method CreateLink(t: string, a: Value, b: Value)
      modifies this
      ensures var (_, e, m) := StageCall(ontology.Snapshot(), AddLink(t, a, b), "").value;
        edits == old(edits) + [e] && changes == old(changes) + [m]
    {
      edits := edits + [CreateLnk(t, a, b)];
      changes := changes + ["Created link " + t + " from " + Show(a) + " to " + Show(b)];
    }

    method DeleteLink(t: string, a: Value, b: Value)
      modifies this
      ensures var (_, e, m) := StageCall(ontology.Snapshot(), RemoveLink(t, a, b), "").value;
        edits == old(edits) + [e] && changes == old(changes) + [m]
    {
      edits := edits + [DeleteLnk(t, a, b)];
      changes := changes + ["Deleted link " + t + " from " + Show(a) + " to " + Show(b)];
    }

    /** Dispatches one call of action logic to the matching method. */
    method Stage(c: Call, freshId: string) returns (r: Result<()>)
      requires ontology.Valid()
      modifies this, ontology, ontology.memory
      ensures ontology.Valid()
      ensures r.Ok? <==> StageCall(old(ontology.Snapshot()), c, freshId).Ok?
      ensures r.Err? ==> (r.exc == StageCall(old(ontology.Snapshot()), c, freshId).exc
                          && edits == old(edits) && changes == old(changes)
                          && ontology.Snapshot() == old(ontology.Snapshot()))
      ensures r.Ok? ==> var (s', e, m) := StageCall(old(ontology.Snapshot()), c, freshId).value;
        ontology.Snapshot() == s' && edits == old(edits) + [e] && changes == old(changes) + [m]
    {
      match c
      case CreateWithKey(t, pk, props) => CreateObjectWithKey(t, pk, props); r := Ok(());
      case CreateFromProps(t, props) => CreateObjectFromProps(t, props, freshId); r := Ok(());
      case Modify(o, prop, v) => r := ModifyObject(o, prop, v);
      case Delete(o) => DeleteObject(o); r := Ok(());
      case AddLink(t, a, b) => CreateLink(t, a, b); r := Ok(());
      case RemoveLink(t, a, b) => DeleteLink(t, a, b); r := Ok(());
    }

    /** The calls of one logic run, staged in order until one raises; call number `i` draws `uuid(i)`. */
    method StageCalls(calls: seq<Call>, uuid: nat -> string) returns (err: Option<Exc>)
      requires ontology.Valid()
      modifies this, ontology, ontology.memory
      ensures ontology.Valid()
      ensures var st := StageAll(old(ontology.Snapshot()), calls, uuid, 0);
        ontology.Snapshot() == st.state && err == st.error
        && edits == old(edits) + st.edits && changes == old(changes) + st.changes
    {
      ghost var s0 := ontology.Snapshot();
      ghost var e0, m0 := edits, changes;
      ghost var total := After(e0, m0, StageAll(s0, calls, uuid, 0));
      assert calls[0..] == calls;
      var j := 0;
      while j < |calls|
        invariant 0 <= j <= |calls|
        invariant ontology.Valid()
        invariant total == After(edits, changes, StageAll(ontology.Snapshot(), calls[j..], uuid, j))
      {
        ghost var cur := ontology.Snapshot();
        ghost var e1, m1 := edits, changes;
        StageAllStep(cur, calls, uuid, j);
        var st := Stage(calls[j], uuid(j));
        if st.Err? {
          assert total == Staged(cur, e1 + [], m1 + [], Some(st.exc));
          assert e1 + [] == e1 && m1 + [] == m1;
          return Some(st.exc);
        }
        ghost var c := StageCall(cur, calls[j], uuid(j));
        AfterAfter(e1, m1, [c.value.1], [c.value.2], StageAll(c.value.0, calls[j + 1..], uuid, j + 1));
        j := j + 1;
      }
      assert calls[j..] == [];
      assert edits + [] == edits && changes + [] == changes;
      err := None;
    }

    /** A logic run on a fresh context: stage its calls, then commit unless something raised. */
    method Run(run: LogicRun, uuid: nat -> string) returns (r: Result<seq<string>>)
      requires ontology.Valid() && edits == [] && changes == []
      modifies this, ontology, ontology.memory, ontology.linkStore
      ensures ontology.Valid()
      ensures (ontology.Snapshot(), r) == RunAction(old(ontology.Snapshot()), run, uuid)
    {
      ghost var s0 := ontology.Snapshot();
      var staged := StageCalls(run.calls, uuid);
      if staged.Some? {
        return Err(staged.value);
      }
      if run.raised.Some? {
        return Err(run.raised.value);
      }
      assert edits == StageAll(s0, run.calls, uuid, 0).edits;
      assert changes == StageAll(s0, run.calls, uuid, 0).changes;
      var err := ApplyChanges();
      if err.Some? {
        return Err(err.value);
      }
      r := Ok(changes);
    }

    /** One staged edit replayed against the ontology, as `apply_changes` does for each. */
    method Replay(e: Edit) returns (r: Result<()>)
      requires ontology.Valid()
      modifies ontology, ontology.memory, ontology.linkStore
      ensures ontology.Valid()
      ensures r.Ok? <==> ApplyEdit(old(ontology.Snapshot()), e).Ok?
      ensures r.Err? ==> r.exc == ApplyEdit(old(ontology.Snapshot()), e).exc && ontology.Snapshot() == old(ontology.Snapshot())
      ensures r.Ok? ==> ontology.Snapshot() == ApplyEdit(old(ontology.Snapshot()), e).value
    {
      match e {
        case CreateObj(t, pk, props) => r := ontology.AddObject(ObjectInstance(t, pk, props));
        case ModifyObj(t, pk, prop, v) =>
          ModifiedWf(ontology.memory.storage, t, pk, prop, v);
          ontology.memory.storage := Modified(ontology.memory.storage, t, pk, prop, v);
          r := Ok(());
        case DeleteObj(t, pk) => r := ontology.DeleteObject(t, pk);
        case CreateLnk(t, a, b) => r := ontology.CreateLink(t, a, b, Some([LinkPermission(t)]));
        case DeleteLnk(t, a, b) => r := ontology.DeleteLink(t, a, b, Some([LinkPermission(t)]));
      }
    }

    /** `apply_changes`: replays every staged edit in order; it neither rolls back nor clears the buffer. */
    method ApplyChanges() returns (err: Option<Exc>)
      requires ontology.Valid()
      modifies ontology, ontology.memory, ontology.linkStore
      ensures ontology.Valid()
      ensures (ontology.Snapshot(), err) == ApplyAll(old(ontology.Snapshot()), edits)
    {
      ghost var s0 := ontology.Snapshot();
      var i := 0;
      while i < |edits|
        invariant 0 <= i <= |edits|
        invariant ontology.Valid()
        invariant ApplyAll(s0, edits[..i]) == (ontology.Snapshot(), None)
      {
        var e := edits[i];
        ghost var before := ontology.Snapshot();
        var r := Replay(e);
        ApplyAllConcat(s0, edits[..i], [e]);
        Seqs.TakeNext(edits, i);
        if r.Err? {
          assert ApplyAll(before, [e]) == (before, Some(r.exc));
          ApplyAllConcat(s0, edits[..i + 1], edits[i + 1..]);
          assert edits[..i + 1] + edits[i + 1..] == edits;
          return Some(r.exc);
        }
        assert ApplyAll(before, [e]) == (ontology.Snapshot(), None);
        i := i + 1;
      }
      assert edits[..i] == edits;
      err := None;
    }
  }
}
