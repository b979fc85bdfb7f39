/**
 * The `Ontology` class (src/ontology_framework/core.py): the registry held in
 * mutable fields, each method proved to perform the matching function of
 * module OntologyModel.
 */
module Ontologies {
  import opened Wrappers
  import opened Values
  import opened Schema
  import PyDict
  import opened DataSources
  import opened LinkStores
  import opened OntologyModel

  /** The engine object; its fields are the registry, the store is shared with `memory`. */
  class Ontology {
    var objectTypes: PyDict.Dict<string, ObjectType>
    var linkTypes: PyDict.Dict<string, LinkType>
    var actionTypes: PyDict.Dict<string, ActionType>
    var functions: PyDict.Dict<string, Function>
    var datasources: map<string, bool>
    const memory: InMemoryDataSource
    const linkStore: InMemoryLinkStore

    function Snapshot(): State
      reads this, memory, linkStore
    {
      State(objectTypes, linkTypes, actionTypes, functions, datasources, memory.storage, linkStore.links)
    }

    ghost predicate Valid()
      reads this, memory, linkStore
    {
      memory.Valid() && StateWf(Snapshot())
    }

    constructor ()
      ensures Valid() && Snapshot() == Initial()
      ensures fresh(memory) && fresh(linkStore)
    {
      objectTypes := PyDict.Empty();
      linkTypes := PyDict.Empty();
      actionTypes := PyDict.Empty();
      functions := PyDict.Empty();
      memory := new InMemoryDataSource(map[], DEFAULT_DATASOURCE);
      linkStore := new InMemoryLinkStore();
      datasources := map[DEFAULT_DATASOURCE := false];
    }

    method RegisterDatasource(id: string, readOnly: bool)
      requires Valid()
      modifies this
      ensures Valid() && Snapshot() == OntologyModel.RegisterDatasource(old(Snapshot()), id, readOnly)
    {
      datasources := datasources[id := readOnly];
    }

    method RegisterObjectType(t: ObjectType)
      requires Valid()
      modifies this, memory
      ensures Valid() && Snapshot() == OntologyModel.RegisterObjectType(old(Snapshot()), t)
    {
      var t' := if t.backingDatasource.None? || t.backingDatasource.value == "" then t.(backingDatasource := Some(DEFAULT_DATASOURCE)) else t;
      objectTypes := PyDict.Put(objectTypes, t.apiName, t');
      if t.apiName !in memory.storage {
        memory.storage := memory.storage[t.apiName := PyDict.Empty()];
      }
    }

    method AddObject(o: ObjectInstance) returns (r: Result<()>)
      requires Valid()
      modifies memory
      ensures Valid()
      ensures r.Ok? <==> OntologyModel.AddObject(old(Snapshot()), o).Ok?
      ensures r.Err? ==> r.exc == OntologyModel.AddObject(old(Snapshot()), o).exc && Snapshot() == old(Snapshot())
      ensures r.Ok? ==> Snapshot() == OntologyModel.AddObject(old(Snapshot()), o).value
    {
      r := EnsureWritable(Snapshot(), o.typeName);
      if r.Ok? {
        memory.Upsert(o.typeName, o);
      }
    }

    method DeleteObject(typeName: string, pk: Value) returns (r: Result<()>)
      requires Valid()
      modifies memory
      ensures Valid()
      ensures r.Ok? <==> OntologyModel.DeleteObject(old(Snapshot()), typeName, pk).Ok?
      ensures r.Err? ==> r.exc == OntologyModel.DeleteObject(old(Snapshot()), typeName, pk).exc && Snapshot() == old(Snapshot())
      ensures r.Ok? ==> Snapshot() == OntologyModel.DeleteObject(old(Snapshot()), typeName, pk).value
    {
      if typeName !in objectTypes.vals {
        return Ok(());
      }
      r := EnsureWritable(Snapshot(), typeName);
      if r.Ok? {
        memory.Delete(typeName, pk);
      }
    }

    method RegisterLinkType(lt: LinkType) returns (r: Result<()>)
      requires Valid()
      modifies this
      ensures Valid()
      ensures r.Ok? <==> OntologyModel.RegisterLinkType(old(Snapshot()), lt).Ok?
      ensures r.Err? ==> r.exc == OntologyModel.RegisterLinkType(old(Snapshot()), lt).exc && Snapshot() == old(Snapshot())
      ensures r.Ok? ==> Snapshot() == OntologyModel.RegisterLinkType(old(Snapshot()), lt).value
    {
      if lt.sourceType !in objectTypes.vals || lt.targetType !in objectTypes.vals {
        return Err(ValueError);
      }
      linkTypes := PyDict.Put(linkTypes, lt.apiName, lt);
      r := Ok(());
    }

    /** The loop over `target_object_types` that raises at the first unregistered one. */
    method RegisterActionType(at: ActionType) returns (r: Result<()>)
      requires Valid()
      modifies this
      ensures Valid()
      ensures r.Ok? <==> OntologyModel.RegisterActionType(old(Snapshot()), at).Ok?
      ensures r.Err? ==> r.exc == OntologyModel.RegisterActionType(old(Snapshot()), at).exc && Snapshot() == old(Snapshot())
      ensures r.Ok? ==> Snapshot() == OntologyModel.RegisterActionType(old(Snapshot()), at).value
    {
      var i := 0;
      while i < |at.targetObjectTypes|
        invariant 0 <= i <= |at.targetObjectTypes|
        invariant forall j :: 0 <= j < i ==> at.targetObjectTypes[j] in objectTypes.vals
      {
        if at.targetObjectTypes[i] !in objectTypes.vals {
          return Err(ValueError);
        }
        i := i + 1;
      }
      actionTypes := PyDict.Put(actionTypes, at.apiName, at);
      r := Ok(());
    }

    method RegisterFunction(f: Function)
      requires Valid()
      modifies this
      ensures Valid() && Snapshot() == OntologyModel.RegisterFunction(old(Snapshot()), f)
    {
      functions := PyDict.Put(functions, f.apiName, f);
    }

    /** The duplicate check is the loop over `list_links(t)`. */
    method CreateLink(t: string, src: Value, dst: Value, perms: Option<seq<string>>) returns (r: Result<()>)
      requires Valid()
      modifies linkStore
      ensures Valid()
      ensures r.Ok? <==> OntologyModel.CreateLink(old(Snapshot()), t, src, dst, perms).Ok?
      ensures r.Err? ==> r.exc == OntologyModel.CreateLink(old(Snapshot()), t, src, dst, perms).exc && Snapshot() == old(Snapshot())
      ensures r.Ok? ==> Snapshot() == OntologyModel.CreateLink(old(Snapshot()), t, src, dst, perms).value
    {
      var spec := OntologyModel.CreateLink(Snapshot(), t, src, dst, perms);
      if !LinkPermitted(t, perms) {
        return Err(PermissionError);
      }
      if t !in linkTypes.vals {
        return Err(ValueError);
      }
      var lt := linkTypes.vals[t];
      var so := GetObject(Snapshot(), lt.sourceType, src);
      if so.Err? {
        return Err(so.exc);
      }
      if so.value.None? {
        return Err(ValueError);
      }
      var to := GetObject(Snapshot(), lt.targetType, dst);
      if to.Err? {
        return Err(to.exc);
      }
      if to.value.None? {
        return Err(ValueError);
      }
      var existing := linkStore.List(Some(t));
      var i := 0;
      while i < |existing|
        invariant 0 <= i <= |existing|
        invariant forall j :: 0 <= j < i ==> !IsTriple(existing[j], t, src, dst)
      {
        if IsTriple(existing[i], t, src, dst) {
          return Ok(());
        }
        i := i + 1;
      }
      linkStore.AddLink(Link(t, src, dst));
      r := Ok(());
    }

    method DeleteLink(t: string, src: Value, dst: Value, perms: Option<seq<string>>) returns (r: Result<()>)
      requires Valid()
      modifies linkStore
      ensures Valid()
      ensures r.Ok? <==> OntologyModel.DeleteLink(old(Snapshot()), t, src, dst, perms).Ok?
      ensures r.Err? ==> r.exc == PermissionError && Snapshot() == old(Snapshot())
      ensures r.Ok? ==> Snapshot() == OntologyModel.DeleteLink(old(Snapshot()), t, src, dst, perms).value
    {
      if !LinkPermitted(t, perms) {
        return Err(PermissionError);
      }
      linkStore.DeleteLink(t, src, dst);
      r := Ok(());
    }
  }
}
