/**
 * The `Inspector` of the debugging tools: it reads the ontology's type
 * registry and object store and reports the issues it finds, a health
 * score with its status, and recommendations keyed on the wording of the
 * issues. Every report is a fresh value; nothing is changed.
 */
module DebugTools {
  import opened Schema
  import PyDict
  import Seqs
  import DataSources
  import Values

  // ---------------------------------------------------------------------
  // inspect_object_types

  predicate NoPrimaryKey(t: ObjectType)
  {
    t.primaryKey == ""
  }

  predicate NoProperties(t: ObjectType)
  {
    t.properties.keys == [] && t.derivedProperties.keys == []
  }

  /** The type registered under `name` records a different api name. */
  predicate NameMismatch(name: string, t: ObjectType)
  {
    t.apiName != name
  }

  /** A type with none of the three defects. */
  predicate Sound(name: string, t: ObjectType)
  {
    !NoPrimaryKey(t) && !NoProperties(t) && !NameMismatch(name, t)
  }

  function NoPrimaryKeyIssue(name: string): string
  {
    "Object type '" + name + "' has no primary key"
  }

  function NoPropertiesIssue(name: string): string
  {
    "Object type '" + name + "' has no properties"
  }

  function MismatchIssue(name: string): string
  {
    "Object type '" + name + "' API name mismatch"
  }

  /** The issues one registered type contributes, in the order they are checked. */
  function IssuesOf(name: string, t: ObjectType): (r: seq<string>)
    ensures |r| == (if NoPrimaryKey(t) then 1 else 0) + (if NoProperties(t) then 1 else 0)
                   + (if NameMismatch(name, t) then 1 else 0)
    ensures r == [] <==> Sound(name, t)
    ensures NoPrimaryKey(t) <==> NoPrimaryKeyIssue(name) in r
  {
    (if NoPrimaryKey(t) then [NoPrimaryKeyIssue(name)] else [])
    + (if NoProperties(t) then [NoPropertiesIssue(name)] else [])
    + (if NameMismatch(name, t) then [MismatchIssue(name)] else [])
  }

  /** The `issues` list of `inspect_object_types` over the registered names `names`, in order. */
  function TypeIssues(names: seq<string>, types: map<string, ObjectType>): seq<string>
    requires forall n :: n in names ==> n in types
    decreases |names|
  {
    if names == [] then []
    else
      var last := names[|names| - 1];
      TypeIssues(names[..|names| - 1], types) + IssuesOf(last, types[last])
  }

  /** The number of defects of the types named in `names`. */
  function Defects(names: seq<string>, types: map<string, ObjectType>): nat
    requires forall n :: n in names ==> n in types
    decreases |names|
  {
    if names == [] then 0
    else
      var last := names[|names| - 1];
      var t := types[last];
      Defects(names[..|names| - 1], types)
      + (if NoPrimaryKey(t) then 1 else 0) + (if NoProperties(t) then 1 else 0) + (if NameMismatch(last, t) then 1 else 0)
  }

  /** One issue per defect, so at most three per type. */
  lemma {:induction false} TypeIssuesCount(names: seq<string>, types: map<string, ObjectType>)
    requires forall n :: n in names ==> n in types
    ensures |TypeIssues(names, types)| == Defects(names, types) <= 3 * |names|
    decreases |names|
  {
    if names != [] {
      TypeIssuesCount(names[..|names| - 1], types);
    }
  }

  /** There are no issues exactly when every registered type is sound. */
  lemma {:induction false} TypeIssuesEmpty(names: seq<string>, types: map<string, ObjectType>)
    requires forall n :: n in names ==> n in types
    ensures TypeIssues(names, types) == [] <==> forall n :: n in names ==> Sound(n, types[n])
    decreases |names|
  {
    if names != [] {
      var init := names[..|names| - 1];
      var last := names[|names| - 1];
      assert names == init + [last];
      TypeIssuesEmpty(init, types);
    }
  }

  /** A registered type without a primary key is reported as such. */
  lemma {:induction false} MissingKeyReported(names: seq<string>, types: map<string, ObjectType>, n: string)
    requires forall m :: m in names ==> m in types
    requires n in names && NoPrimaryKey(types[n])
    ensures NoPrimaryKeyIssue(n) in TypeIssues(names, types)
    decreases |names|
  {
    var init := names[..|names| - 1];
    var last := names[|names| - 1];
    assert names == init + [last];
    if n != last {
      MissingKeyReported(init, types, n);
    }
  }

  // ---------------------------------------------------------------------
  // inspect_object_instances

  /** The per-type entry of `inspect_object_instances`. */
  datatype TypeCount = TypeCount(count: nat, sample: seq<Values.Value>)

  /** The entry for one table: its size and its first five keys. */
  function CountOf(table: DataSources.Table): (r: TypeCount)
    ensures r.count == |table.keys|
    ensures |r.sample| <= 5 && r.sample <= table.keys
    ensures |table.keys| <= 5 ==> r.sample == table.keys
  {
    TypeCount(|table.keys|, Seqs.SliceTo(table.keys, 5))
  }

  /** The sum of the table sizes of the stored types in `order`. */
  function TotalObjects(st: DataSources.Storage, order: seq<string>): nat
    decreases |order|
  {
    if order == [] then 0
    else
      var last := order[|order| - 1];
      TotalObjects(st, order[..|order| - 1]) + (if last in st then |st[last].keys| else 0)
  }

  /** `inspect_object_instances` over the store whose keys are `order`, in that order. */
  function InspectObjectInstances(st: DataSources.Storage, order: seq<string>): (r: (nat, map<string, TypeCount>))
    ensures r.0 == TotalObjects(st, order)
    ensures forall t :: t in r.1 <==> t in order && t in st
    ensures forall t :: t in r.1 ==> r.1[t] == CountOf(st[t])
    decreases |order|
  {
    if order == [] then (0, map[])
    else
      var last := order[|order| - 1];
      var prev := InspectObjectInstances(st, order[..|order| - 1]);
      if last in st then (prev.0 + |st[last].keys|, prev.1[last := CountOf(st[last])])
      else prev
  }

  /** The total is zero exactly when every stored table is empty. */
  lemma {:induction false} TotalZero(st: DataSources.Storage, order: seq<string>)
    ensures TotalObjects(st, order) == 0 <==> forall t :: t in order && t in st ==> st[t].keys == []
    decreases |order|
  {
    if order != [] {
      var init := order[..|order| - 1];
      var last := order[|order| - 1];
      assert order == init + [last];
      TotalZero(st, init);
    }
  }

  // ---------------------------------------------------------------------
  // _assess_system_health and _generate_recommendations

  /** `sub` occurs in `s` (Python's `sub in s`). */
  predicate Contains(s: string, sub: string)
    decreases |s|
  {
    sub <= s || (s != [] && Contains(s[1..], sub))
  }

  lemma {:induction false} ContainsMiddle(a: string, sub: string, b: string)
    ensures Contains(a + sub + b, sub)
    decreases |a|
  {
    if a == [] {
      assert sub <= a + sub + b;
    } else {
      assert (a + sub + b)[1..] == a[1..] + sub + b;
      ContainsMiddle(a[1..], sub, b);
    }
  }

  /** Some issue mentions `sub`. */
  predicate Mentioned(issues: seq<string>, sub: string)
  {
    exists i :: 0 <= i < |issues| && Contains(issues[i], sub)
  }

  const NoLinksIssue := "No links defined between object types"
  const NoInstancesIssue := "No object instances found"

  /** The four recommendations. */
  datatype Advice = AddKeys | DefineProperties | DefineLinks | CreateInstances

  function AdviceText(a: Advice): string
  {
    match a
    case AddKeys => "Add primary keys to object types for better data integrity"
    case DefineProperties => "Define properties for object types to make them useful"
    case DefineLinks => "Define relationships between object types using link types"
    case CreateInstances => "Create some object instances to test the system"
  }

  /** `_generate_recommendations`: each advice whose trigger phrase some issue mentions, once, in this order. */
  function Recommendations(issues: seq<string>): (r: seq<Advice>)
    ensures |r| <= 4 && Seqs.NoDup(r)
    ensures AddKeys in r <==> Mentioned(issues, "primary key")
    ensures DefineProperties in r <==> Mentioned(issues, "no properties")
    ensures DefineLinks in r <==> Mentioned(issues, "No links")
    ensures CreateInstances in r <==> Mentioned(issues, "No object instances")
  {
    (if Mentioned(issues, "primary key") then [AddKeys] else [])
    + (if Mentioned(issues, "no properties") then [DefineProperties] else [])
    + (if Mentioned(issues, "No links") then [DefineLinks] else [])
    + (if Mentioned(issues, "No object instances") then [CreateInstances] else [])
  }

  datatype Status = Poor | Fair | Good | Excellent

  /** The status of an (unclamped) score. */
  function StatusOf(score: int): (r: Status)
    ensures r == Poor <==> score < 70
    ensures r == Fair <==> 70 <= score < 85
    ensures r == Good <==> 85 <= score < 95
    ensures r == Excellent <==> score >= 95
  {
    if score < 70 then Poor else if score < 85 then Fair else if score < 95 then Good else Excellent
  }

  datatype Health = Health(score: nat, status: Status, issues: seq<string>, recommendations: seq<Advice>)

  /**
   * `_assess_system_health` from the type issues, the number of links (an
   * input: the inspector reads a link list the ontology does not have), the
   * number of registered types and the number of stored objects.
   */
  function AssessHealth(typeIssues: seq<string>, linkCount: nat, typeCount: nat, totalObjects: nat): (r: Health)
    ensures var raw := 100 - 5 * |typeIssues| - (if linkCount == 0 && typeCount > 1 then 10 else 0)
                       - (if totalObjects == 0 then 5 else 0);
      r.score == (if raw < 0 then 0 else raw) && r.status == StatusOf(raw)
    ensures |r.issues| == |typeIssues| + (if linkCount == 0 && typeCount > 1 then 1 else 0) + (if totalObjects == 0 then 1 else 0)
    ensures r.issues[..|typeIssues|] == typeIssues
    ensures linkCount == 0 && typeCount > 1 ==> r.issues[|typeIssues|] == NoLinksIssue
    ensures totalObjects == 0 ==> r.issues[|r.issues| - 1] == NoInstancesIssue
    ensures r.recommendations == Recommendations(r.issues)
    ensures r.score <= 100
  {
    var noLinks := linkCount == 0 && typeCount > 1;
    var raw := 100 - 5 * |typeIssues| - (if noLinks then 10 else 0) - (if totalObjects == 0 then 5 else 0);
    var issues := typeIssues + (if noLinks then [NoLinksIssue] else []) + (if totalObjects == 0 then [NoInstancesIssue] else []);
    Health(if raw < 0 then 0 else raw, StatusOf(raw), issues, Recommendations(issues))
  }

  /** The whole inspection: `inspect_object_types`, `inspect_object_instances`, then the health. */
  function Inspect(types: PyDict.Dict<string, ObjectType>, st: DataSources.Storage, order: seq<string>, linkCount: nat)
    : (r: Health)
    requires PyDict.Wf(types)
  {
    AssessHealth(TypeIssues(types.keys, types.vals), linkCount, |types.keys|, TotalObjects(st, order))
  }

  /** A sound registry with links and objects scores 100 and is excellent, with nothing to recommend. */
  lemma HealthySystem(types: PyDict.Dict<string, ObjectType>, st: DataSources.Storage, order: seq<string>, linkCount: nat)
    requires PyDict.Wf(types) && forall n :: n in types.keys ==> Sound(n, types.vals[n])
    requires linkCount > 0 && TotalObjects(st, order) > 0
    ensures var h := Inspect(types, st, order, linkCount);
      h.score == 100 && h.status == Excellent && h.issues == [] && h.recommendations == []
  {
    TypeIssuesEmpty(types.keys, types.vals);
  }

  /** A registered type without a primary key costs points and brings the primary-key advice. */
  lemma MissingKeyAdvised(types: PyDict.Dict<string, ObjectType>, st: DataSources.Storage, order: seq<string>,
                          linkCount: nat, n: string)
    requires PyDict.Wf(types) && n in types.keys && NoPrimaryKey(types.vals[n])
    ensures var h := Inspect(types, st, order, linkCount);
      h.score <= 95 && AddKeys in h.recommendations
  {
    var issues := TypeIssues(types.keys, types.vals);
    MissingKeyReported(types.keys, types.vals, n);
    var h := Inspect(types, st, order, linkCount);
    var i :| 0 <= i < |issues| && issues[i] == NoPrimaryKeyIssue(n);
    assert h.issues[i] == issues[i];
    KeyIssueMentionsKey(n);
  }

  /** The missing-key issue mentions "primary key", whatever the type's name. */
  lemma KeyIssueMentionsKey(n: string)
    ensures Contains(NoPrimaryKeyIssue(n), "primary key")
  {
    var prefix := "Object type '" + n + "' has no ";
    assert NoPrimaryKeyIssue(n) == prefix + "primary key" + "";
    ContainsMiddle(prefix, "primary key", "");
  }
}
