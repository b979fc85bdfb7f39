/**
 * The application helpers of `src/ontology_framework/applications.py`:
 * the Object Explorer's view registry, its view descriptions and its
 * pivot context, and Vertex's simulations and breadth-first system graph.
 */
module Applications {
  import opened Wrappers
  import opened Values
  import opened Schema
  import PyDict
  import Seqs
  import DataSources
  import OntologyModel

  // ---------------------------------------------------------------------
  // Object snapshots
  // ---------------------------------------------------------------------

  /** `_object_snapshot(obj, properties)["properties"]`. */
  datatype ObjectSnapshot = ObjectSnapshot(primaryKey: Value, properties: map<string, Value>)

  /**
   * A non-empty property list reads exactly those names through `get`;
   * otherwise the stored properties, then every derived property of the
   * object's type (`derivedNames`, empty without an ontology) through `get`.
   */
  function Snapshot(o: ObjectInstance, properties: seq<string>, derivedNames: seq<string>,
                    derive: (ObjectInstance, string) -> Value): (r: ObjectSnapshot)
    ensures r.primaryKey == o.pk
    ensures properties != [] ==> r.properties.Keys == set p | p in properties
    ensures properties == [] ==> r.properties.Keys == o.props.Keys + set d | d in derivedNames
    ensures forall p :: p in r.properties ==> r.properties[p] == GetProp(o, p, derive)
  {
    if properties != [] then
      ObjectSnapshot(o.pk, map p | p in properties :: GetProp(o, p, derive))
    else
      ObjectSnapshot(o.pk, o.props + map d | d in derivedNames :: GetProp(o, d, derive))
  }

  // ---------------------------------------------------------------------
  // ObjectExplorer
  // ---------------------------------------------------------------------

  /** An `ObjectView`: the type it shows, its title and its widgets. */
  datatype ObjectView = ObjectView(objectType: ObjectType, title: string, widgets: seq<string>)

  /** `ObjectView.schema()`. */
  datatype ViewSchema = ViewSchema(
    objectType: string,
    title: string,
    widgets: seq<string>,
    properties: seq<string>,
    derivedProperties: seq<string>)

  /** The description a view gives of itself, listing its type's properties in order. */
  function SchemaOf(v: ObjectView): (r: ViewSchema)
    ensures r.objectType == v.objectType.apiName && r.title == v.title && r.widgets == v.widgets
    ensures r.properties == v.objectType.properties.keys && r.derivedProperties == v.objectType.derivedProperties.keys
  {
    ViewSchema(v.objectType.apiName, v.title, v.widgets, v.objectType.properties.keys, v.objectType.derivedProperties.keys)
  }

  /** The widgets of the normalised default view. */
  const DefaultWidgets: seq<string> := ["standard_table", "property_cards", "link_overview"]

  /** `_build_default_view(object_type)`. */
  function DefaultView(t: ObjectType): ObjectView
  {
    ObjectView(t, t.displayName + " (Normalized View)", DefaultWidgets)
  }

  /**
   * `describe_view(object_type, object_set)`: the explicit type, else the
   * set's type; neither raises ValueError.  A view registered under the
   * type's name describes itself, otherwise the default view does.
   */
  function DescribeView(views: map<string, ObjectView>, objectType: Option<ObjectType>, setType: Option<ObjectType>): Result<ViewSchema>
  {
    var target := if objectType.Some? then objectType else setType;
    if target.None? then Err(ValueError)
    else if target.value.apiName in views then Ok(SchemaOf(views[target.value.apiName]))
    else Ok(SchemaOf(DefaultView(target.value)))
  }

  /**
   * Describing needs a type; a registered view answers for its type name,
   * and an unregistered type gets the three normalised widgets with its
   * own properties.
   */
  lemma DescribeViewSpec(views: map<string, ObjectView>, objectType: Option<ObjectType>, setType: Option<ObjectType>)
    ensures DescribeView(views, objectType, setType).Err? <==> objectType.None? && setType.None?
    ensures DescribeView(views, objectType, setType).Err? ==> DescribeView(views, objectType, setType).exc == ValueError
    ensures objectType.Some? && objectType.value.apiName !in views ==>
      DescribeView(views, objectType, setType) == Ok(SchemaOf(DefaultView(objectType.value)))
    ensures objectType.None? && setType.Some? && setType.value.apiName !in views ==>
      DescribeView(views, objectType, setType) == Ok(SchemaOf(DefaultView(setType.value)))
    ensures forall t: ObjectType ::
      SchemaOf(DefaultView(t)).widgets == DefaultWidgets && SchemaOf(DefaultView(t)).properties == t.properties.keys
      && SchemaOf(DefaultView(t)).title == t.displayName + " (Normalized View)"
  {
  }

  /** The Object Explorer's registry of views, keyed by object type name. */
  class ObjectExplorer {
    var views: map<string, ObjectView>

    constructor()
      ensures views == map[]
    {
      views := map[];
    }

    /** `register_view(view)`: a later view replaces an earlier one for the same type. */
    method RegisterView(v: ObjectView)
      modifies this
      ensures views == old(views)[v.objectType.apiName := v]
    {
      views := views[v.objectType.apiName := v];
    }

    /** `describe_view` against the current registry. */
    function Describe(objectType: Option<ObjectType>, setType: Option<ObjectType>): (r: Result<ViewSchema>)
      reads this
      ensures r == DescribeView(views, objectType, setType)
    {
      DescribeView(views, objectType, setType)
    }
  }

  /**
   * After registering `v`, describing any type of the same name gives the
   * schema of `v`, whichever view was registered before.
   */
  lemma RegisterThenDescribe(views: map<string, ObjectView>, v: ObjectView, t: ObjectType)
    requires t.apiName == v.objectType.apiName
    ensures DescribeView(views[v.objectType.apiName := v], Some(t), None) == Ok(SchemaOf(v))
    ensures DescribeView(views[v.objectType.apiName := v], None, Some(t)) == Ok(SchemaOf(v))
  {
  }

  /** Registering a view for one type leaves the descriptions of every other type alone. */
  lemma RegisterKeepsOthers(views: map<string, ObjectView>, v: ObjectView, t: ObjectType)
    requires t.apiName != v.objectType.apiName
    ensures DescribeView(views[v.objectType.apiName := v], Some(t), None) == DescribeView(views, Some(t), None)
  {
  }

  // ---------------------------------------------------------------------
  // pivot_context
  // ---------------------------------------------------------------------

  /** A `PivotAggregationPlan`: the link to pivot along, the metrics, the snapshot properties, the limit. */
  datatype PivotPlan = PivotPlan(linkType: string, metrics: PyDict.Dict<string, string>, properties: seq<string>, limit: int)

  /** The set `search_around` produced: its type name and its members. */
  datatype RelatedSet = RelatedSet(objectType: string, objects: seq<ObjectInstance>)

  /** One pivot of the context bundle. */
  datatype Pivot = Pivot(linkType: LinkType, targetType: string, objects: seq<ObjectSnapshot>, metrics: map<string, real>)

  /** The context bundle: the root set and the pivots, one per plan. */
  datatype PivotContext = PivotContext(rootType: string, count: nat, root: seq<ObjectSnapshot>, pivots: seq<Pivot>)

  /** `{prop: related.aggregate(prop, agg) for prop, agg in metrics}`: the first failing aggregate raises. */
  function Metrics(objs: seq<ObjectInstance>, metrics: PyDict.Dict<string, string>, ks: seq<string>): (r: Result<map<string, real>>)
    requires forall k :: k in ks ==> k in metrics.vals
    ensures r.Ok? ==> r.value.Keys == set k | k in ks
    ensures r.Ok? ==> forall k :: k in ks ==> DataSources.AggregateValues(DataSources.NonNullValues(objs, k), metrics.vals[k]) == Ok(r.value[k])
    ensures r.Err? <==> exists k :: k in ks && DataSources.AggregateValues(DataSources.NonNullValues(objs, k), metrics.vals[k]).Err?
  {
    if ks == [] then Ok(map[])
    else
      var k := ks[|ks| - 1];
      match Metrics(objs, metrics, ks[..|ks| - 1])
      case Err(e) => Err(e)
      case Ok(m) =>
        match DataSources.AggregateValues(DataSources.NonNullValues(objs, k), metrics.vals[k])
        case Err(e) => Err(e)
        case Ok(x) => Ok(m[k := x])
  }

  /** The snapshots of a list of objects. */
  function Snapshots(objs: seq<ObjectInstance>, properties: seq<string>, derivedNames: string -> seq<string>,
                     derive: (ObjectInstance, string) -> Value): (r: seq<ObjectSnapshot>)
    ensures |r| == |objs|
    ensures forall i :: 0 <= i < |objs| ==> r[i] == Snapshot(objs[i], properties, derivedNames(objs[i].typeName), derive)
  {
    Seqs.Map(objs, (o: ObjectInstance) => Snapshot(o, properties, derivedNames(o.typeName), derive))
  }

  /**
   * One plan of `pivot_context`: ValueError for an unknown link type, else
   * its `search_around` (`around`, which may raise), then the metrics over
   * the related objects (the first failing aggregate raises), and the pivot
   * with the link type, the related set's type, its snapshots and metrics.
   */
  function PivotOf(plan: PivotPlan, linkTypes: map<string, LinkType>, around: PivotPlan -> Result<RelatedSet>,
                   derivedNames: string -> seq<string>, derive: (ObjectInstance, string) -> Value): (r: Result<Pivot>)
    requires PyDict.Wf(plan.metrics)
    ensures plan.linkType !in linkTypes ==> r == Err(ValueError)
    ensures plan.linkType in linkTypes && around(plan).Err? ==> r == Err(around(plan).exc)
    ensures plan.linkType in linkTypes && around(plan).Ok? ==>
      (r.Ok? <==> Metrics(around(plan).value.objects, plan.metrics, plan.metrics.keys).Ok?)
    ensures r.Ok? ==>
      && plan.linkType in linkTypes && around(plan).Ok? && r.value.linkType == linkTypes[plan.linkType]
      && r.value.targetType == around(plan).value.objectType
      && r.value.objects == Snapshots(around(plan).value.objects, plan.properties, derivedNames, derive)
      && Metrics(around(plan).value.objects, plan.metrics, plan.metrics.keys) == Ok(r.value.metrics)
  {
    if plan.linkType !in linkTypes then Err(ValueError)
    else
      match around(plan)
      case Err(e) => Err(e)
      case Ok(related) =>
        match Metrics(related.objects, plan.metrics, plan.metrics.keys)
        case Err(e) => Err(e)
        case Ok(m) =>
          Ok(Pivot(linkTypes[plan.linkType], related.objectType,
                   Snapshots(related.objects, plan.properties, derivedNames, derive), m))
  }

  /**
   * `pivot_context(object_set, plans, include_root_properties)`: without
   * an ontology ValueError; otherwise the root snapshot, then one pivot per
   * plan in turn, the first failing plan raising its error.
   */
  method PivotContextOf(hasOntology: bool, rootType: string, members: seq<ObjectInstance>, plans: seq<PivotPlan>,
                        rootProperties: seq<string>, linkTypes: map<string, LinkType>,
                        around: PivotPlan -> Result<RelatedSet>, derivedNames: string -> seq<string>,
                        derive: (ObjectInstance, string) -> Value)
    returns (r: Result<PivotContext>)
    requires forall p :: p in plans ==> PyDict.Wf(p.metrics)
    ensures !hasOntology ==> r == Err(ValueError)
    ensures r.Ok? ==> hasOntology && r.value.count == |members| && r.value.rootType == rootType
    ensures r.Ok? ==> r.value.root == Snapshots(members, rootProperties, derivedNames, derive)
    ensures r.Ok? ==> |r.value.pivots| == |plans|
    ensures r.Ok? ==> forall i :: 0 <= i < |plans| ==>
      PivotOf(plans[i], linkTypes, around, derivedNames, derive) == Ok(r.value.pivots[i])
    ensures hasOntology && r.Err? ==> exists i ::
      && 0 <= i < |plans|
      && PivotOf(plans[i], linkTypes, around, derivedNames, derive) == Err(r.exc)
      && (forall j :: 0 <= j < i ==> PivotOf(plans[j], linkTypes, around, derivedNames, derive).Ok?)
  {
    if !hasOntology {
      return Err(ValueError);
    }
    var pivots: seq<Pivot> := [];
    var i := 0;
    while i < |plans|
      invariant 0 <= i <= |plans| && |pivots| == i
      invariant forall j :: 0 <= j < i ==> PivotOf(plans[j], linkTypes, around, derivedNames, derive) == Ok(pivots[j])
    {
      var plan := plans[i];
      assert plan in plans;
      if plan.linkType !in linkTypes {
        return Err(ValueError);
      }
      var related := around(plan);
      if related.Err? {
        return Err(related.exc);
      }
      var metrics := Metrics(related.value.objects, plan.metrics, plan.metrics.keys);
      if metrics.Err? {
        return Err(metrics.exc);
      }
      var snaps := Snapshots(related.value.objects, plan.properties, derivedNames, derive);
      pivots := pivots + [Pivot(linkTypes[plan.linkType], related.value.objectType, snaps, metrics.value)];
      i := i + 1;
    }
    r := Ok(PivotContext(rootType, |members|, Snapshots(members, rootProperties, derivedNames, derive), pivots));
  }

  // ---------------------------------------------------------------------
  // Vertex: simulations
  // ---------------------------------------------------------------------

  /** A `VertexSimulation`: its description and whether it has a binding handler (its runner is external). */
  datatype Simulation = Simulation(name: string, description: Option<string>, hasBindingHandler: bool)

  /** The report `run_simulation` returns. */
  datatype SimulationReport = SimulationReport(simulation: string, description: Option<string>, result: map<string, Value>, bound: bool)

  /** What one `run_simulation` call did: its outcome and whether the binding handler ran. */
  datatype SimulationRun = SimulationRun(outcome: Result<SimulationReport>, handlerInvoked: bool)

  /**
   * `run_simulation(name, bind, **kwargs)`: ValueError for an unknown
   * name; otherwise the runner's result (`run`, which may raise), then the
   * binding handler only when `bind` and a handler exist (`binding`, its
   * outcome), and a report whose `bound` is exactly that condition.
   */
  function RunSimulation(sims: map<string, Simulation>, name: string, bind: bool,
                         run: Result<map<string, Value>>, binding: Option<Exc>): SimulationRun
  {
    if name !in sims then SimulationRun(Err(ValueError), false)
    else
      var sim := sims[name];
      if run.Err? then SimulationRun(Err(run.exc), false)
      else
        var invoke := bind && sim.hasBindingHandler;
        if invoke && binding.Some? then SimulationRun(Err(binding.value), true)
        else SimulationRun(Ok(SimulationReport(name, sim.description, run.value, invoke)), invoke)
  }

  /** The handler runs exactly when the name is known, the runner succeeded, `bind` is set and a handler exists. */
  lemma RunSimulationSpec(sims: map<string, Simulation>, name: string, bind: bool,
                          run: Result<map<string, Value>>, binding: Option<Exc>)
    ensures var r := RunSimulation(sims, name, bind, run, binding);
      && (name !in sims ==> r.outcome == Err(ValueError) && !r.handlerInvoked)
      && (r.handlerInvoked <==> name in sims && run.Ok? && bind && sims[name].hasBindingHandler)
      && (r.outcome.Ok? ==>
            r.outcome.value.bound == r.handlerInvoked && r.outcome.value.result == run.value
            && r.outcome.value.simulation == name && r.outcome.value.description == sims[name].description)
      && (name in sims && run.Err? ==> r.outcome == Err(run.exc))
  {
  }

  /** `register_function_backed_simulation`: an empty description falls back to naming the function. */
  function FunctionBackedSimulation(name: string, functionName: string, description: Option<string>, hasBindingHandler: bool): (s: Simulation)
    ensures s.name == name && s.hasBindingHandler == hasBindingHandler && s.description.Some?
    ensures description.Some? && description.value != "" ==> s.description == description
    ensures description.None? || description.value == "" ==> s.description == Some("Backed by function " + functionName)
  {
    var d := if description.Some? && description.value != "" then description.value else "Backed by function " + functionName;
    Simulation(name, Some(d), hasBindingHandler)
  }

  // ---------------------------------------------------------------------
  // Vertex: the system graph
  // ---------------------------------------------------------------------

  /** A node's identity, `<type>:<primary key>`. */
  datatype NodeKey = NodeKey(typeName: string, pk: Value)

  function KeyOf(o: ObjectInstance): NodeKey
  {
    NodeKey(o.typeName, o.pk)
  }

  /** A graph node: the object and the depth it was first reached at. */
  datatype Node = Node(obj: ObjectInstance, depth: int)

  datatype Direction = Outbound | Inbound

  /** An edge; `source` is the current object for an outbound edge and the neighbour for an inbound one. */
  datatype Edge = Edge(linkType: string, source: NodeKey, target: NodeKey, direction: Direction)

  /** What `_resolve_neighbor` finds: no matching end, or the object at the other end (if any) and the direction. */
  datatype Resolution = Unrelated | Resolved(neighbor: Option<ObjectInstance>, direction: Direction)

  /**
   * `_resolve_neighbor(current, link, link_type)`: the source end is
   * checked first (outbound, the target object), then the target end
   * (inbound, the source object).
   */
  function ResolveNeighbor(cur: ObjectInstance, l: Link, lt: LinkType, lookup: (string, Value) -> Option<ObjectInstance>): (r: Resolution)
    ensures r.Resolved? <==> (lt.sourceType == cur.typeName && l.source == cur.pk) || (lt.targetType == cur.typeName && l.target == cur.pk)
    ensures r.Resolved? ==> (r.direction == Outbound <==> lt.sourceType == cur.typeName && l.source == cur.pk)
    ensures r.Resolved? && r.direction == Outbound ==> r.neighbor == lookup(lt.targetType, l.target)
    ensures r.Resolved? && r.direction == Inbound ==> r.neighbor == lookup(lt.sourceType, l.source)
  {
    if lt.sourceType == cur.typeName && l.source == cur.pk then Resolved(lookup(lt.targetType, l.target), Outbound)
    else if lt.targetType == cur.typeName && l.target == cur.pk then Resolved(lookup(lt.sourceType, l.source), Inbound)
    else Unrelated
  }

  /** An object waiting in the queue with its depth. */
  datatype Pending = Pending(obj: ObjectInstance, depth: int)

  /** The working state of the walk. */
  datatype Walk = Walk(nodes: PyDict.Dict<NodeKey, Node>, edges: seq<Edge>, queue: seq<Pending>)

  /** `get_object` answers with the object of that type and key, or nothing. */
  ghost predicate LookupKeyed(lookup: (string, Value) -> Option<ObjectInstance>)
  {
    forall t, pk :: lookup(t, pk).Some? ==> KeyOf(lookup(t, pk).value) == NodeKey(t, pk)
  }

  /** Every key the walk can meet: a seed's type or an end type of a registered link type, with a seed's key or a link end. */
  ghost function Universe(s: OntologyModel.State, seeds: seq<ObjectInstance>): set<NodeKey>
  {
    var types := (set o | o in seeds :: o.typeName)
      + (set n | n in s.linkTypes.vals :: s.linkTypes.vals[n].sourceType)
      + (set n | n in s.linkTypes.vals :: s.linkTypes.vals[n].targetType);
    var pks := (set o | o in seeds :: o.pk) + (set l | l in s.links :: l.source) + (set l | l in s.links :: l.target);
    set t, p | t in types && p in pks :: NodeKey(t, p)
  }

  /** The depth bound on nodes: the seeds at 0, everything else at most `max_depth + 1`. */
  predicate DepthOk(d: int, maxDepth: int)
  {
    d == 0 || 1 <= d <= maxDepth + 1
  }

  /** An edge joins two nodes and starts (outbound) or ends (inbound) at an expanded object. */
  ghost predicate EdgeOk(e: Edge, nodes: PyDict.Dict<NodeKey, Node>, done: set<NodeKey>)
  {
    e.source in nodes.vals && e.target in nodes.vals && (if e.direction == Outbound then e.source in done else e.target in done)
  }

  /**
   * What holds of the walk throughout: nodes are in the universe within
   * the depth bound, every seed is a node at depth 0, every edge joins two
   * nodes and starts (outbound) or ends (inbound) at an expanded object,
   * and every queued object is a node at depth 0 or at most `max_depth`.
   */
  ghost predicate WalkInv(w: Walk, seeds: seq<ObjectInstance>, maxDepth: int, u: set<NodeKey>, done: set<NodeKey>)
  {
    && PyDict.Wf(w.nodes)
    && (forall k :: k in w.nodes.vals ==> k in u && DepthOk(w.nodes.vals[k].depth, maxDepth))
    && (forall x :: x in seeds ==> KeyOf(x) in w.nodes.vals && w.nodes.vals[KeyOf(x)].depth == 0)
    && (forall e :: e in w.edges ==> EdgeOk(e, w.nodes, done))
    && (forall p :: p in w.queue ==> KeyOf(p.obj) in w.nodes.vals && (p.depth == 0 || 1 <= p.depth <= maxDepth))
  }

  /**
   * One link of the inner loop of `generate_system_graph`, for the
   * current object at `depth`: links of other types are skipped, as are
   * links whose other end is missing; otherwise the neighbour becomes a
   * node at `depth + 1` unless already one, is queued unless expanded or
   * too deep, and the edge is recorded.
   */
  function VisitLink(w: Walk, cur: ObjectInstance, depth: int, lt: LinkType, l: Link, maxDepth: int,
                     visited: set<NodeKey>, lookup: (string, Value) -> Option<ObjectInstance>): Walk
  {
    if l.linkType != lt.apiName then w
    else match ResolveNeighbor(cur, l, lt, lookup)
      case Unrelated => w
      case Resolved(nb, dir) =>
        if nb.None? then w
        else
          var nk := KeyOf(nb.value);
          var nodes := if nk in w.nodes.vals then w.nodes else PyDict.Put(w.nodes, nk, Node(nb.value, depth + 1));
          var queue := if nk !in visited && depth + 1 <= maxDepth then w.queue + [Pending(nb.value, depth + 1)] else w.queue;
          var e := if dir == Outbound then Edge(lt.apiName, KeyOf(cur), nk, Outbound) else Edge(lt.apiName, nk, KeyOf(cur), Inbound);
          Walk(nodes, w.edges + [e], queue)
  }

  /** Visiting a link of a registered link type keeps the walk invariant. */
  lemma VisitLinkInv(s: OntologyModel.State, seeds: seq<ObjectInstance>, w: Walk, cur: ObjectInstance, depth: int, lt: LinkType,
                     l: Link, maxDepth: int, visited: set<NodeKey>, lookup: (string, Value) -> Option<ObjectInstance>)
    requires LookupKeyed(lookup) && l in s.links && lt in s.linkTypes.vals.Values
    requires WalkInv(w, seeds, maxDepth, Universe(s, seeds), visited + {KeyOf(cur)})
    requires KeyOf(cur) in w.nodes.vals && 0 <= depth <= maxDepth
    ensures WalkInv(VisitLink(w, cur, depth, lt, l, maxDepth, visited, lookup), seeds, maxDepth, Universe(s, seeds), visited + {KeyOf(cur)})
    ensures w.nodes.vals.Keys <= VisitLink(w, cur, depth, lt, l, maxDepth, visited, lookup).nodes.vals.Keys
  {
    var u := Universe(s, seeds);
    var done := visited + {KeyOf(cur)};
    var r := ResolveNeighbor(cur, l, lt, lookup);
    if l.linkType == lt.apiName && r.Resolved? && r.neighbor.Some? {
      var nb := r.neighbor.value;
      NeighborInUniverse(s, seeds, cur, lt, l, lookup);
      var nk := KeyOf(nb);
      var nodes := if nk in w.nodes.vals then w.nodes else PyDict.Put(w.nodes, nk, Node(nb, depth + 1));
      var queue := if nk !in visited && depth + 1 <= maxDepth then w.queue + [Pending(nb, depth + 1)] else w.queue;
      var e := if r.direction == Outbound then Edge(lt.apiName, KeyOf(cur), nk, Outbound) else Edge(lt.apiName, nk, KeyOf(cur), Inbound);
      assert VisitLink(w, cur, depth, lt, l, maxDepth, visited, lookup) == Walk(nodes, w.edges + [e], queue);
      WalkGrows(w, seeds, maxDepth, u, done, nb, depth, nk !in visited, e);
    }
  }

  /** Adding a neighbour at `depth + 1`, maybe queueing it, and recording an edge at the current object keep the walk invariant. */
  lemma WalkGrows(w: Walk, seeds: seq<ObjectInstance>, maxDepth: int, u: set<NodeKey>, done: set<NodeKey>,
                  nb: ObjectInstance, depth: int, enqueue: bool, e: Edge)
    requires WalkInv(w, seeds, maxDepth, u, done)
    requires KeyOf(nb) in u && 0 <= depth <= maxDepth
    requires e.source == KeyOf(nb) || e.source in w.nodes.vals
    requires e.target == KeyOf(nb) || e.target in w.nodes.vals
    requires if e.direction == Outbound then e.source in done else e.target in done
    ensures var nk := KeyOf(nb);
            var nodes := if nk in w.nodes.vals then w.nodes else PyDict.Put(w.nodes, nk, Node(nb, depth + 1));
            var queue := if enqueue && depth + 1 <= maxDepth then w.queue + [Pending(nb, depth + 1)] else w.queue;
            && WalkInv(Walk(nodes, w.edges + [e], queue), seeds, maxDepth, u, done)
            && w.nodes.vals.Keys <= nodes.vals.Keys
  {
    var nk := KeyOf(nb);
    var nodes := if nk in w.nodes.vals then w.nodes else PyDict.Put(w.nodes, nk, Node(nb, depth + 1));
    var queue := if enqueue && depth + 1 <= maxDepth then w.queue + [Pending(nb, depth + 1)] else w.queue;
    assert w.nodes.vals.Keys <= nodes.vals.Keys && nodes.vals.Keys <= w.nodes.vals.Keys + {nk};
    assert forall k :: k in w.nodes.vals ==> nodes.vals[k] == w.nodes.vals[k];
    EdgesKept(w.edges, w.nodes, nodes, done, e);
  }

  /** Edges stay valid when nodes are only added, and a valid new edge can join them. */
  lemma EdgesKept(edges: seq<Edge>, before: PyDict.Dict<NodeKey, Node>, after: PyDict.Dict<NodeKey, Node>,
                  done: set<NodeKey>, e: Edge)
    requires forall x :: x in edges ==> EdgeOk(x, before, done)
    requires before.vals.Keys <= after.vals.Keys && EdgeOk(e, after, done)
    ensures forall x :: x in edges + [e] ==> EdgeOk(x, after, done)
  {
    forall x | x in edges + [e] ensures EdgeOk(x, after, done) {
      if x != e {
        assert EdgeOk(x, before, done);
      }
    }
  }

  /** The other end of a link of a registered link type lies in the universe. */
  lemma NeighborInUniverse(s: OntologyModel.State, seeds: seq<ObjectInstance>, cur: ObjectInstance, lt: LinkType, l: Link,
                           lookup: (string, Value) -> Option<ObjectInstance>)
    requires LookupKeyed(lookup) && l in s.links && lt in s.linkTypes.vals.Values
    requires ResolveNeighbor(cur, l, lt, lookup).Resolved? && ResolveNeighbor(cur, l, lt, lookup).neighbor.Some?
    ensures KeyOf(ResolveNeighbor(cur, l, lt, lookup).neighbor.value) in Universe(s, seeds)
  {
    var r := ResolveNeighbor(cur, l, lt, lookup);
    var n :| n in s.linkTypes.vals && s.linkTypes.vals[n] == lt;
    var types := (set o | o in seeds :: o.typeName)
      + (set n | n in s.linkTypes.vals :: s.linkTypes.vals[n].sourceType)
      + (set n | n in s.linkTypes.vals :: s.linkTypes.vals[n].targetType);
    var pks := (set o | o in seeds :: o.pk) + (set l | l in s.links :: l.source) + (set l | l in s.links :: l.target);
    assert lt.sourceType in types && lt.targetType in types;
    assert l.source in pks && l.target in pks;
  }

  /** The inner loop over all links for one link type. */
  method VisitLinks(s: OntologyModel.State, seeds: seq<ObjectInstance>, w0: Walk, cur: ObjectInstance, depth: int, lt: LinkType,
                    maxDepth: int, visited: set<NodeKey>, lookup: (string, Value) -> Option<ObjectInstance>)
    returns (w: Walk)
    requires LookupKeyed(lookup) && lt in s.linkTypes.vals.Values
    requires WalkInv(w0, seeds, maxDepth, Universe(s, seeds), visited + {KeyOf(cur)})
    requires KeyOf(cur) in w0.nodes.vals && 0 <= depth <= maxDepth
    ensures WalkInv(w, seeds, maxDepth, Universe(s, seeds), visited + {KeyOf(cur)}) && KeyOf(cur) in w.nodes.vals
    ensures w0.nodes.vals.Keys <= w.nodes.vals.Keys
  {
    w := w0;
    var j := 0;
    while j < |s.links|
      invariant 0 <= j <= |s.links|
      invariant WalkInv(w, seeds, maxDepth, Universe(s, seeds), visited + {KeyOf(cur)}) && KeyOf(cur) in w.nodes.vals
      invariant w0.nodes.vals.Keys <= w.nodes.vals.Keys
    {
      VisitLinkInv(s, seeds, w, cur, depth, lt, s.links[j], maxDepth, visited, lookup);
      w := VisitLink(w, cur, depth, lt, s.links[j], maxDepth, visited, lookup);
      j := j + 1;
    }
  }

  /** The expansion of one object: every link type touching its type, in registry order. */
  method Expand(s: OntologyModel.State, seeds: seq<ObjectInstance>, w0: Walk, cur: ObjectInstance, depth: int,
                maxDepth: int, visited: set<NodeKey>, lookup: (string, Value) -> Option<ObjectInstance>)
    returns (w: Walk)
    requires LookupKeyed(lookup) && PyDict.Wf(s.linkTypes)
    requires WalkInv(w0, seeds, maxDepth, Universe(s, seeds), visited + {KeyOf(cur)})
    requires KeyOf(cur) in w0.nodes.vals && 0 <= depth <= maxDepth
    ensures WalkInv(w, seeds, maxDepth, Universe(s, seeds), visited + {KeyOf(cur)})
    ensures w0.nodes.vals.Keys <= w.nodes.vals.Keys
  {
    var lts := OntologyModel.LinkTypesFor(s, cur.typeName);
    OntologyModel.LinkTypesForSpec(s, cur.typeName);
    w := w0;
    var i := 0;
    while i < |lts|
      invariant 0 <= i <= |lts|
      invariant WalkInv(w, seeds, maxDepth, Universe(s, seeds), visited + {KeyOf(cur)}) && KeyOf(cur) in w.nodes.vals
      invariant w0.nodes.vals.Keys <= w.nodes.vals.Keys
    {
      assert lts[i] in lts;
      w := VisitLinks(s, seeds, w, cur, depth, lts[i], maxDepth, visited, lookup);
      i := i + 1;
    }
  }

  /** The first loop: every seed becomes a node at depth 0 and is queued. */
  method PlaceSeeds(s: OntologyModel.State, seeds: seq<ObjectInstance>, maxDepth: int) returns (w: Walk)
    ensures WalkInv(w, seeds, maxDepth, Universe(s, seeds), {})
    ensures w.edges == [] && w.queue == Seqs.Map(seeds, (o: ObjectInstance) => Pending(o, 0))
  {
    ghost var u := Universe(s, seeds);
    w := Walk(PyDict.Empty(), [], []);
    var i := 0;
    while i < |seeds|
      invariant 0 <= i <= |seeds| && w.edges == [] && w.queue == Seqs.Map(seeds[..i], (o: ObjectInstance) => Pending(o, 0))
      invariant WalkInv(w, seeds[..i], maxDepth, u, {})
    {
      SeedInUniverse(s, seeds, i);
      PlaceSeedInv(w, seeds, i, maxDepth, u);
      w := Walk(PyDict.Put(w.nodes, KeyOf(seeds[i]), Node(seeds[i], 0)), w.edges, w.queue + [Pending(seeds[i], 0)]);
      i := i + 1;
    }
    assert seeds[..i] == seeds;
  }

  /** Placing one more seed keeps the walk invariant for the seeds placed so far. */
  lemma PlaceSeedInv(w: Walk, seeds: seq<ObjectInstance>, i: int, maxDepth: int, u: set<NodeKey>)
    requires 0 <= i < |seeds| && KeyOf(seeds[i]) in u && w.edges == []
    requires WalkInv(w, seeds[..i], maxDepth, u, {})
    ensures WalkInv(Walk(PyDict.Put(w.nodes, KeyOf(seeds[i]), Node(seeds[i], 0)), w.edges, w.queue + [Pending(seeds[i], 0)]),
                    seeds[..i + 1], maxDepth, u, {})
  {
    var nodes := PyDict.Put(w.nodes, KeyOf(seeds[i]), Node(seeds[i], 0));
    assert forall x :: x in seeds[..i + 1] ==> x in seeds[..i] || x == seeds[i] by {
      Seqs.TakeNext(seeds, i);
    }
    forall p | p in w.queue + [Pending(seeds[i], 0)] ensures KeyOf(p.obj) in nodes.vals && (p.depth == 0 || 1 <= p.depth <= maxDepth) {
      if p !in w.queue {
        assert p == Pending(seeds[i], 0);
      }
    }
  }

  lemma SeedInUniverse(s: OntologyModel.State, seeds: seq<ObjectInstance>, i: int)
    requires 0 <= i < |seeds|
    ensures KeyOf(seeds[i]) in Universe(s, seeds)
  {
    var types := (set o | o in seeds :: o.typeName)
      + (set n | n in s.linkTypes.vals :: s.linkTypes.vals[n].sourceType)
      + (set n | n in s.linkTypes.vals :: s.linkTypes.vals[n].targetType);
    var pks := (set o | o in seeds :: o.pk) + (set l | l in s.links :: l.source) + (set l | l in s.links :: l.target);
    assert seeds[i] in seeds;
    assert seeds[i].typeName in types && seeds[i].pk in pks;
  }

  /** Taking the head of the queue, or counting one more object as expanded, keeps the walk invariant. */
  lemma PopInv(w: Walk, seeds: seq<ObjectInstance>, maxDepth: int, u: set<NodeKey>, done: set<NodeKey>, more: set<NodeKey>)
    requires WalkInv(w, seeds, maxDepth, u, done) && w.queue != []
    ensures WalkInv(w.(queue := w.queue[1..]), seeds, maxDepth, u, done + more)
  {
    forall e | e in w.edges ensures EdgeOk(e, w.nodes, done + more) {
      assert EdgeOk(e, w.nodes, done);
    }
    forall p | p in w.queue[1..] ensures p in w.queue {
    }
  }

  /**
   * The second loop: pop the head; skip it when expanded already or
   * deeper than `max_depth`; otherwise expand it and mark it expanded.
   */
  method Drain(s: OntologyModel.State, seeds: seq<ObjectInstance>, w0: Walk, maxDepth: int,
               lookup: (string, Value) -> Option<ObjectInstance>)
    returns (w: Walk, ghost expanded: seq<NodeKey>)
    requires LookupKeyed(lookup) && PyDict.Wf(s.linkTypes)
    requires WalkInv(w0, seeds, maxDepth, Universe(s, seeds), {})
    ensures WalkInv(w, seeds, maxDepth, Universe(s, seeds), set k | k in expanded)
    ensures Seqs.NoDup(expanded) && forall k :: k in expanded ==> k in w.nodes.vals
  {
    ghost var u := Universe(s, seeds);
    w := w0;
    expanded := [];
    var visited: set<NodeKey> := {};
    while w.queue != []
      invariant WalkInv(w, seeds, maxDepth, u, visited)
      invariant visited <= u && visited == (set k | k in expanded) && Seqs.NoDup(expanded)
      invariant forall k :: k in expanded ==> k in w.nodes.vals
      decreases u - visited, |w.queue|
    {
      var p := w.queue[0];
      assert p in w.queue;
      var key := KeyOf(p.obj);
      if key in visited || p.depth > maxDepth {
        PopInv(w, seeds, maxDepth, u, visited, {});
        assert visited + {} == visited;
        w := w.(queue := w.queue[1..]);
        continue;
      }
      PopInv(w, seeds, maxDepth, u, visited, {key});
      assert key in u;
      w := w.(queue := w.queue[1..]);
      w := Expand(s, seeds, w, p.obj, p.depth, maxDepth, visited, lookup);
      ExpandedGrows(expanded, key);
      expanded := expanded + [key];
      visited := visited + {key};
    }
  }

  /** Marking one more, not yet expanded, object keeps the expanded list free of repeats. */
  lemma ExpandedGrows(expanded: seq<NodeKey>, key: NodeKey)
    requires Seqs.NoDup(expanded) && key !in expanded
    ensures Seqs.NoDup(expanded + [key])
    ensures (set k | k in expanded + [key]) == (set k | k in expanded) + {key}
  {
    var e := expanded + [key];
    forall i, j | 0 <= i < j < |e| ensures e[i] != e[j] {
      if j < |expanded| {
        assert e[i] == expanded[i] && e[j] == expanded[j];
      } else {
        assert e[i] == expanded[i] && e[j] == key;
      }
    }
  }

  /** Who asks for the graph: a seed set without an ontology, with this Vertex's ontology, or with another one. */
  datatype SeedContext = NoOntology | SameOntology | OtherOntology

  /** `generate_system_graph`'s answer. */
  datatype SystemGraph = SystemGraph(nodes: PyDict.Dict<NodeKey, Node>, edges: seq<Edge>)

  /**
   * `generate_system_graph(seed_set, max_depth)`: ValueError unless the
   * seeds carry this ontology; otherwise a breadth-first walk from the
   * seeds at depth 0 that expands each object at most once and never
   * beyond `max_depth`.  `expanded` lists the expanded objects in order.
   */
  method GenerateSystemGraph(s: OntologyModel.State, ctx: SeedContext, seeds: seq<ObjectInstance>, maxDepth: int,
                             lookup: (string, Value) -> Option<ObjectInstance>)
    returns (r: Result<SystemGraph>, ghost expanded: seq<NodeKey>)
    requires LookupKeyed(lookup) && PyDict.Wf(s.linkTypes)
    ensures r.Err? <==> ctx != SameOntology
    ensures r.Err? ==> r.exc == ValueError
    ensures r.Ok? ==> PyDict.Wf(r.value.nodes)
    ensures r.Ok? ==> forall x :: x in seeds ==> KeyOf(x) in r.value.nodes.vals && r.value.nodes.vals[KeyOf(x)].depth == 0
    ensures r.Ok? ==> forall k :: k in r.value.nodes.vals ==> DepthOk(r.value.nodes.vals[k].depth, maxDepth)
    ensures r.Ok? ==> forall e :: e in r.value.edges ==>
      e.source in r.value.nodes.vals && e.target in r.value.nodes.vals
      && (if e.direction == Outbound then e.source in expanded else e.target in expanded)
    ensures Seqs.NoDup(expanded)
    ensures r.Ok? ==> forall k :: k in expanded ==> k in r.value.nodes.vals
  {
    expanded := [];
    if ctx != SameOntology {
      return Err(ValueError), expanded;
    }
    var w := PlaceSeeds(s, seeds, maxDepth);
    w, expanded := Drain(s, seeds, w, maxDepth, lookup);
    WalkGraph(w, seeds, maxDepth, Universe(s, seeds), expanded);
    r := Ok(SystemGraph(w.nodes, w.edges));
  }

  /** The invariant of a finished walk, read as the promises of `generate_system_graph`. */
  lemma WalkGraph(w: Walk, seeds: seq<ObjectInstance>, maxDepth: int, u: set<NodeKey>, expanded: seq<NodeKey>)
    requires WalkInv(w, seeds, maxDepth, u, set k | k in expanded)
    ensures PyDict.Wf(w.nodes)
    ensures forall x :: x in seeds ==> KeyOf(x) in w.nodes.vals && w.nodes.vals[KeyOf(x)].depth == 0
    ensures forall k :: k in w.nodes.vals ==> DepthOk(w.nodes.vals[k].depth, maxDepth)
    ensures forall e :: e in w.edges ==>
      e.source in w.nodes.vals && e.target in w.nodes.vals
      && (if e.direction == Outbound then e.source in expanded else e.target in expanded)
  {
    forall e | e in w.edges
      ensures e.source in w.nodes.vals && e.target in w.nodes.vals
      ensures if e.direction == Outbound then e.source in expanded else e.target in expanded
    {
      assert EdgeOk(e, w.nodes, set k | k in expanded);
    }
  }
}
