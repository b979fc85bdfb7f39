/**
 * The graph checks of the order-delivery example: a link index keyed by
 * (type, primary key), a bounded breadth-first local graph around an
 * anchor object, the check of an answer's facts against that graph, and
 * the execution of a search plan of chained `search_around` steps.
 */
module Oag {
  import opened Wrappers
  import opened Values
  import opened Schema
  import PyDict
  import OntologyModel
  import Ontologies
  import ObjectSets
  import Seqs

  /** A node key: the object type and the primary key. */
  datatype Key = Key(typeName: string, pk: Value)

  datatype Dir = Forward | Reverse

  /** An index entry: the direction, the link type and the object at the other end. */
  datatype Entry = Entry(dir: Dir, linkType: string, neighbor: Key)

  type LinkIndex = map<Key, seq<Entry>>

  /** `index.get(key, [])`. */
  function Lookup(index: LinkIndex, k: Key): seq<Entry>
  {
    if k in index then index[k] else []
  }

  // ---------------------------------------------------------------------
  // build_link_index

  function SourceKey(lt: LinkType, l: Link): Key
  {
    Key(lt.sourceType, l.source)
  }

  function TargetKey(lt: LinkType, l: Link): Key
  {
    Key(lt.targetType, l.target)
  }

  /** The entries one link files under `k`: forward at its source, then reverse at its target. */
  function EntriesOfLink(l: Link, linkTypes: map<string, LinkType>, k: Key): seq<Entry>
  {
    if l.linkType !in linkTypes then []
    else
      var lt := linkTypes[l.linkType];
      (if SourceKey(lt, l) == k then [Entry(Forward, l.linkType, TargetKey(lt, l))] else [])
      + (if TargetKey(lt, l) == k then [Entry(Reverse, l.linkType, SourceKey(lt, l))] else [])
  }

  /** The entries filed under `k`, link by link: the index read one key at a time. */
  function EntriesAt(links: seq<Link>, linkTypes: map<string, LinkType>, k: Key): seq<Entry>
    decreases |links|
  {
    if links == [] then []
    else EntriesAt(links[..|links| - 1], linkTypes, k) + EntriesOfLink(links[|links| - 1], linkTypes, k)
  }

  /** Appends `e` to the list filed under `k` (a `defaultdict(list)` append). */
  function File(index: LinkIndex, k: Key, e: Entry): LinkIndex
  {
    index[k := Lookup(index, k) + [e]]
  }

  /** The index after filing one more link. */
  function FileLink(index: LinkIndex, l: Link, linkTypes: map<string, LinkType>): LinkIndex
  {
    if l.linkType !in linkTypes then index
    else
      var lt := linkTypes[l.linkType];
      File(File(index, SourceKey(lt, l), Entry(Forward, l.linkType, TargetKey(lt, l))),
           TargetKey(lt, l), Entry(Reverse, l.linkType, SourceKey(lt, l)))
  }

  lemma FileLinkLookup(index: LinkIndex, l: Link, linkTypes: map<string, LinkType>, k: Key)
    ensures Lookup(FileLink(index, l, linkTypes), k) == Lookup(index, k) + EntriesOfLink(l, linkTypes, k)
  {
  }

  /** Filing the `i`-th link extends the index of the links before it to the links up to it. */
  lemma IndexStep(index: LinkIndex, links: seq<Link>, i: int, linkTypes: map<string, LinkType>)
    requires 0 <= i < |links|
    requires forall k :: Lookup(index, k) == EntriesAt(links[..i], linkTypes, k)
    ensures forall k :: Lookup(FileLink(index, links[i], linkTypes), k) == EntriesAt(links[..i + 1], linkTypes, k)
  {
    assert links[..i + 1][..i] == links[..i];
    forall k
      ensures Lookup(FileLink(index, links[i], linkTypes), k) == EntriesAt(links[..i + 1], linkTypes, k)
    {
      FileLinkLookup(index, links[i], linkTypes, k);
    }
  }

  /**
   * `build_link_index`: every link whose type is registered adds a forward
   * entry at its source key and a reverse entry at its target key; a link
   * of an unknown type is skipped.
   */
  method BuildLinkIndex(links: seq<Link>, linkTypes: map<string, LinkType>) returns (index: LinkIndex)
    ensures forall k :: Lookup(index, k) == EntriesAt(links, linkTypes, k)
  {
    index := map[];
    for i := 0 to |links|
      invariant forall k :: Lookup(index, k) == EntriesAt(links[..i], linkTypes, k)
    {
      IndexStep(index, links, i, linkTypes);
      ghost var before := index;
      var l := links[i];
      if l.linkType in linkTypes {
        var lt := linkTypes[l.linkType];
        var src := SourceKey(lt, l);
        var tgt := TargetKey(lt, l);
        index := File(index, src, Entry(Forward, l.linkType, tgt));
        index := File(index, tgt, Entry(Reverse, l.linkType, src));
      }
      assert index == FileLink(before, l, linkTypes);
    }
    assert links[..|links|] == links;
  }

  /** Every link of a registered type is indexed at both of its ends. */
  lemma {:induction false} LinkIndexed(links: seq<Link>, linkTypes: map<string, LinkType>, i: int)
    requires 0 <= i < |links| && links[i].linkType in linkTypes
    ensures var l := links[i];
      var lt := linkTypes[l.linkType];
      Entry(Forward, l.linkType, TargetKey(lt, l)) in EntriesAt(links, linkTypes, SourceKey(lt, l))
      && Entry(Reverse, l.linkType, SourceKey(lt, l)) in EntriesAt(links, linkTypes, TargetKey(lt, l))
    decreases |links|
  {
    var init := links[..|links| - 1];
    if i < |links| - 1 {
      assert init[i] == links[i];
      LinkIndexed(init, linkTypes, i);
    }
  }

  /** The entry `e` under `k` is one of the two entries link `l` files. */
  predicate FiledBy(l: Link, linkTypes: map<string, LinkType>, k: Key, e: Entry)
  {
    l.linkType in linkTypes && e.linkType == l.linkType
    && var lt := linkTypes[l.linkType];
      (e.dir == Forward && k == SourceKey(lt, l) && e.neighbor == TargetKey(lt, l))
      || (e.dir == Reverse && k == TargetKey(lt, l) && e.neighbor == SourceKey(lt, l))
  }

  /** Every entry comes from a link of a registered type with an end at `k`. */
  lemma {:induction false} EntryFromLink(links: seq<Link>, linkTypes: map<string, LinkType>, k: Key, e: Entry)
    requires e in EntriesAt(links, linkTypes, k)
    ensures exists i :: 0 <= i < |links| && FiledBy(links[i], linkTypes, k, e)
    decreases |links|
  {
    var init := links[..|links| - 1];
    if e in EntriesAt(init, linkTypes, k) {
      EntryFromLink(init, linkTypes, k, e);
      var i :| 0 <= i < |init| && FiledBy(init[i], linkTypes, k, e);
      assert links[i] == init[i];
    } else {
      assert FiledBy(links[|links| - 1], linkTypes, k, e);
    }
  }

  // ---------------------------------------------------------------------
  // build_local_graph

  /** One step of a path from the anchor. */
  datatype Step = Step(linkType: string, dir: Dir, from: Key, to: Key)

  datatype GraphEdge = GraphEdge(from: Key, to: Key, linkType: string, dir: Dir)

  datatype NodeInfo = NodeInfo(properties: map<string, Value>, path: seq<Step>)

  /** The local graph: its nodes in visiting order, its de-duplicated edges, and the hop bound. */
  datatype LocalGraph = LocalGraph(anchor: Key, nodes: PyDict.Dict<Key, NodeInfo>, edges: set<GraphEdge>, maxHops: int)

  datatype Queued = Queued(key: Key, depth: int)

  function Max0(n: int): nat
  {
    if n < 0 then 0 else n
  }

  /** An empty whitelist (or none) lets every link type through. */
  predicate Allowed(whitelist: seq<string>, linkType: string)
  {
    whitelist == [] || linkType in whitelist
  }

  /** The stored properties, overlaid in order with each of `names` whose `get` is not None. */
  function Overlay(o: ObjectInstance, names: seq<string>, derive: (ObjectInstance, string) -> Value): (r: map<string, Value>)
    ensures forall k :: k in o.props ==> k in r && r[k] == o.props[k]
    ensures forall n :: n in names && GetProp(o, n, derive) != Null ==> n in r && r[n] == GetProp(o, n, derive)
    ensures forall k :: k in r ==> k in o.props || (k in names && GetProp(o, k, derive) != Null)
    decreases |names|
  {
    if names == [] then o.props
    else
      var last := names[|names| - 1];
      var p := Overlay(o, names[..|names| - 1], derive);
      assert forall n :: n in names ==> n in names[..|names| - 1] || n == last;
      var v := GetProp(o, last, derive);
      if v != Null then p[last := v] else p
  }

  /** `collect_properties`: the stored properties plus every derived property of the type that is set. */
  function CollectProperties(s: OntologyModel.State, o: ObjectInstance, derive: (ObjectInstance, string) -> Value)
    : map<string, Value>
  {
    match PyDict.Get(s.objectTypes, o.typeName)
    case None => o.props
    case Some(t) => Overlay(o, t.derivedProperties.keys, derive)
  }

  /** The object under `k` exists and `props` are its collected properties. */
  predicate NodeOk(s: OntologyModel.State, k: Key, props: map<string, Value>, derive: (ObjectInstance, string) -> Value)
  {
    var g := OntologyModel.GetObject(s, k.typeName, k.pk);
    g.Ok? && g.value.Some? && props == CollectProperties(s, g.value.value, derive)
  }

  /**
   * Breadth-first order: the queued depths are sorted and lie within
   * `level` and `level + 1`, a queued key's path is no longer than its
   * depth, and no path is longer than `level + 1`.
   */
  ghost predicate Frontier(queue: seq<Queued>, paths: map<Key, seq<Step>>, level: int)
  {
    (forall j :: 0 <= j < |queue| ==> level <= queue[j].depth <= level + 1)
    && (forall i, j :: 0 <= i < j < |queue| ==> queue[i].depth <= queue[j].depth)
    && (forall j :: 0 <= j < |queue| ==> queue[j].key in paths && |paths[queue[j].key]| <= queue[j].depth)
    && (forall k :: k in paths ==> |paths[k]| <= level + 1)
  }

  /** The anchor's path is empty, and every path is short enough and uses whitelisted links only. */
  ghost predicate PathsOk(paths: map<Key, seq<Step>>, anchor: Key, maxHops: int, whitelist: seq<string>)
  {
    anchor in paths && paths[anchor] == []
    && forall k :: k in paths ==>
      |paths[k]| <= Max0(maxHops) && forall j :: 0 <= j < |paths[k]| ==> Allowed(whitelist, paths[k][j].linkType)
  }

  /** Every edge leaves a recorded node expanded below the hop bound, along a whitelisted index entry. */
  ghost predicate EdgesOk(edges: set<GraphEdge>, recorded: set<Key>, paths: map<Key, seq<Step>>, maxHops: int,
                          whitelist: seq<string>, links: seq<Link>, linkTypes: map<string, LinkType>)
  {
    forall e :: e in edges ==>
      e.from in recorded && e.from in paths && |paths[e.from]| < maxHops && Allowed(whitelist, e.linkType)
      && Entry(e.dir, e.linkType, e.to) in EntriesAt(links, linkTypes, e.from)
  }

  /** The rest of the queue, once its head is taken at the head's depth. */
  lemma PopFrontier(queue: seq<Queued>, paths: map<Key, seq<Step>>, level: int)
    requires Frontier(queue, paths, level) && queue != []
    ensures Frontier(queue[1..], paths, queue[0].depth)
  {
  }

  /** The loop over the index entries of an expanded key (the inner `for` of `build_local_graph`). */
  method Expand(key: Key, depth: int, entries: seq<Entry>, whitelist: seq<string>, visited: set<Key>,
                queue0: seq<Queued>, edges0: set<GraphEdge>, paths0: map<Key, seq<Step>>,
                ghost anchor: Key, maxHops: int, ghost recorded: set<Key>, ghost links: seq<Link>,
                ghost linkTypes: map<string, LinkType>)
    returns (queue: seq<Queued>, edges: set<GraphEdge>, paths: map<Key, seq<Step>>)
    requires key in paths0 && |paths0[key]| <= depth < maxHops && key in recorded
    requires entries == EntriesAt(links, linkTypes, key)
    requires Frontier(queue0, paths0, depth) && PathsOk(paths0, anchor, maxHops, whitelist)
    requires EdgesOk(edges0, recorded, paths0, maxHops, whitelist, links, linkTypes)
    ensures Frontier(queue, paths, depth) && PathsOk(paths, anchor, maxHops, whitelist)
    ensures EdgesOk(edges, recorded, paths, maxHops, whitelist, links, linkTypes)
    ensures |queue| >= |queue0| && queue[..|queue0|] == queue0 && edges0 <= edges
    ensures forall k :: k in paths0 ==> k in paths && paths[k] == paths0[k]
    ensures forall j :: |queue0| <= j < |queue| ==> queue[j].key !in visited && queue[j].depth == depth + 1
  {
    queue, edges, paths := queue0, edges0, paths0;
    for i := 0 to |entries|
      invariant Frontier(queue, paths, depth) && PathsOk(paths, anchor, maxHops, whitelist)
      invariant EdgesOk(edges, recorded, paths, maxHops, whitelist, links, linkTypes)
      invariant |queue| >= |queue0| && queue[..|queue0|] == queue0 && edges0 <= edges
      invariant forall k :: k in paths0 ==> k in paths && paths[k] == paths0[k]
      invariant forall j :: |queue0| <= j < |queue| ==> queue[j].key !in visited && queue[j].depth == depth + 1
    {
      queue, edges, paths := ExpandEntry(key, depth, entries[i], whitelist, visited, queue, edges, paths,
                                         anchor, maxHops, recorded, links, linkTypes);
    }
  }

  /** One index entry of an expanded key: a whitelisted entry records its edge, a path and a queued key. */
  method ExpandEntry(key: Key, depth: int, e: Entry, whitelist: seq<string>, visited: set<Key>,
                     queue0: seq<Queued>, edges0: set<GraphEdge>, paths0: map<Key, seq<Step>>,
                     ghost anchor: Key, maxHops: int, ghost recorded: set<Key>, ghost links: seq<Link>,
                     ghost linkTypes: map<string, LinkType>)
    returns (queue: seq<Queued>, edges: set<GraphEdge>, paths: map<Key, seq<Step>>)
    requires key in paths0 && |paths0[key]| <= depth < maxHops && key in recorded
    requires e in EntriesAt(links, linkTypes, key)
    requires Frontier(queue0, paths0, depth) && PathsOk(paths0, anchor, maxHops, whitelist)
    requires EdgesOk(edges0, recorded, paths0, maxHops, whitelist, links, linkTypes)
    ensures Frontier(queue, paths, depth) && PathsOk(paths, anchor, maxHops, whitelist)
    ensures EdgesOk(edges, recorded, paths, maxHops, whitelist, links, linkTypes)
    ensures queue == queue0 || (queue == queue0 + [Queued(e.neighbor, depth + 1)] && e.neighbor !in visited)
    ensures edges0 <= edges
    ensures forall k :: k in paths0 ==> k in paths && paths[k] == paths0[k]
  {
    queue, edges, paths := queue0, edges0, paths0;
    if Allowed(whitelist, e.linkType) {
      edges := edges + {GraphEdge(key, e.neighbor, e.linkType, e.dir)};
      if e.neighbor !in paths {
        var p := paths[key] + [Step(e.linkType, e.dir, key, e.neighbor)];
        assert forall j :: 0 <= j < |p| ==> Allowed(whitelist, p[j].linkType);
        paths := paths[e.neighbor := p];
      }
      if e.neighbor !in visited {
        queue := queue + [Queued(e.neighbor, depth + 1)];
      }
    }
  }

  /** What the walk keeps about its visited keys and recorded nodes. */
  ghost predicate NodesOk(s: OntologyModel.State, nodes: PyDict.Dict<Key, map<string, Value>>, visited: set<Key>,
                          maxNodes: int, anchor: Key, derive: (ObjectInstance, string) -> Value)
  {
    PyDict.Wf(nodes) && |nodes.keys| <= |visited| <= Max0(maxNodes)
    && (forall k :: k in nodes.vals ==> k in visited && NodeOk(s, k, nodes.vals[k], derive))
    && (visited != {} ==> nodes.keys != [] && nodes.keys[0] == anchor)
  }

  /** Recording a newly visited key that holds an object keeps `NodesOk`. */
  lemma RecordNode(s: OntologyModel.State, nodes: PyDict.Dict<Key, map<string, Value>>, visited: set<Key>, key: Key,
                   nodes': PyDict.Dict<Key, map<string, Value>>, maxNodes: int, anchor: Key,
                   derive: (ObjectInstance, string) -> Value)
    requires NodesOk(s, nodes, visited, maxNodes, anchor, derive) && key !in visited && |visited| < maxNodes
    requires visited == {} ==> key == anchor && nodes.keys == []
    requires var g := OntologyModel.GetObject(s, key.typeName, key.pk);
      g.Ok? && g.value.Some? && nodes' == PyDict.Put(nodes, key, CollectProperties(s, g.value.value, derive))
    ensures NodesOk(s, nodes', visited + {key}, maxNodes, anchor, derive)
  {
    assert key !in nodes.vals;
    PyDict.DistinctAppend(nodes.keys, key);
  }

  lemma EdgesGrow(edges: set<GraphEdge>, recorded: set<Key>, recorded': set<Key>, paths: map<Key, seq<Step>>,
                  maxHops: int, whitelist: seq<string>, links: seq<Link>, linkTypes: map<string, LinkType>)
    requires EdgesOk(edges, recorded, paths, maxHops, whitelist, links, linkTypes) && recorded <= recorded'
    ensures EdgesOk(edges, recorded', paths, maxHops, whitelist, links, linkTypes)
  {
  }

  /**
   * What a local graph promises: at most `max_nodes` nodes, the anchor
   * first with an empty path when any node is allowed, every node an
   * existing object with its collected properties, every path within the
   * hop bound and along whitelisted links, and every edge leaving a node
   * below the hop bound along a whitelisted entry of the link index.
   */
  ghost predicate GraphOk(s: OntologyModel.State, g: LocalGraph, anchor: Key, maxHops: int, maxNodes: int,
                          whitelist: seq<string>, derive: (ObjectInstance, string) -> Value)
  {
    g.anchor == anchor && g.maxHops == maxHops
    && PyDict.Wf(g.nodes) && |g.nodes.keys| <= Max0(maxNodes)
    && (maxNodes >= 1 ==> g.nodes.keys != [] && g.nodes.keys[0] == anchor && g.nodes.vals[anchor].path == [])
    && (forall k :: k in g.nodes.vals ==> NodeOk(s, k, g.nodes.vals[k].properties, derive))
    && (forall k :: k in g.nodes.vals ==> |g.nodes.vals[k].path| <= Max0(maxHops))
    && (forall k, j :: k in g.nodes.vals && 0 <= j < |g.nodes.vals[k].path| ==>
          Allowed(whitelist, g.nodes.vals[k].path[j].linkType))
    && (forall e :: e in g.edges ==>
          e.from in g.nodes.vals && |g.nodes.vals[e.from].path| < maxHops && Allowed(whitelist, e.linkType)
          && Entry(e.dir, e.linkType, e.to) in EntriesAt(s.links, s.linkTypes.vals, e.from))
  }

  /** The returned graph: each recorded node with its properties and `path_registry.get(key, [])`. */
  function Assemble(anchor: Key, nodes: PyDict.Dict<Key, map<string, Value>>, paths: map<Key, seq<Step>>,
                    edges: set<GraphEdge>, maxHops: int): LocalGraph
  {
    var info := map k | k in nodes.vals :: NodeInfo(nodes.vals[k], if k in paths then paths[k] else []);
    LocalGraph(anchor, PyDict.Dict(nodes.keys, info), edges, maxHops)
  }

  lemma AssembleOk(s: OntologyModel.State, anchor: Key, nodes: PyDict.Dict<Key, map<string, Value>>,
                   paths: map<Key, seq<Step>>, edges: set<GraphEdge>, visited: set<Key>, maxHops: int, maxNodes: int,
                   whitelist: seq<string>, derive: (ObjectInstance, string) -> Value)
    requires PathsOk(paths, anchor, maxHops, whitelist) && NodesOk(s, nodes, visited, maxNodes, anchor, derive)
    requires EdgesOk(edges, nodes.vals.Keys, paths, maxHops, whitelist, s.links, s.linkTypes.vals)
    requires maxNodes >= 1 ==> visited != {}
    ensures GraphOk(s, Assemble(anchor, nodes, paths, edges, maxHops), anchor, maxHops, maxNodes, whitelist, derive)
  {
  }

  /**
   * `build_local_graph`: ValueError when the anchor does not exist; else a
   * breadth-first walk from the anchor over the link index that visits at
   * most `max_nodes` keys, records each existing object once with its
   * collected properties and first-found path, expands only keys below
   * `max_hops`, and follows whitelisted link types only.
   */
  method BuildLocalGraph(s: OntologyModel.State, anchorType: string, anchorPk: Value, maxHops: int, maxNodes: int,
                         whitelist: seq<string>, derive: (ObjectInstance, string) -> Value)
    returns (r: Result<LocalGraph>)
    ensures OntologyModel.GetObject(s, anchorType, anchorPk).Err? ==> r == Err(OntologyModel.GetObject(s, anchorType, anchorPk).exc)
    ensures OntologyModel.GetObject(s, anchorType, anchorPk) == Ok(None) ==> r == Err(ValueError)
    ensures r.Ok? ==> GraphOk(s, r.value, Key(anchorType, anchorPk), maxHops, maxNodes, whitelist, derive)
  {
    var anchorObj := OntologyModel.GetObject(s, anchorType, anchorPk);
    if anchorObj.Err? {
      return Err(anchorObj.exc);
    }
    if anchorObj.value.None? {
      return Err(ValueError);
    }
    var index := BuildLinkIndex(s.links, s.linkTypes.vals);
    var anchor := Key(anchorType, anchorPk);
    var queue := [Queued(anchor, 0)];
    var visited: set<Key> := {};
    var nodes: PyDict.Dict<Key, map<string, Value>> := PyDict.Empty();
    var edges: set<GraphEdge> := {};
    var paths: map<Key, seq<Step>> := map[anchor := []];
    ghost var level := 0;
    while queue != [] && |visited| < maxNodes
      invariant Frontier(queue, paths, level) && PathsOk(paths, anchor, maxHops, whitelist)
      invariant NodesOk(s, nodes, visited, maxNodes, anchor, derive)
      invariant EdgesOk(edges, nodes.vals.Keys, paths, maxHops, whitelist, s.links, s.linkTypes.vals)
      invariant visited == {} ==> queue == [Queued(anchor, 0)] && nodes.keys == []
      decreases maxNodes - |visited|, |queue|
    {
      var key, depth := queue[0].key, queue[0].depth;
      PopFrontier(queue, paths, level);
      queue := queue[1..];
      level := depth;
      if key !in visited {
        visited := visited + {key};
        var got := OntologyModel.GetObject(s, key.typeName, key.pk);
        if got.Err? {
          return Err(got.exc);
        }
        if got.value.Some? {
          ghost var before := nodes;
          nodes := PyDict.Put(nodes, key, CollectProperties(s, got.value.value, derive));
          RecordNode(s, before, visited - {key}, key, nodes, maxNodes, anchor, derive);
          EdgesGrow(edges, before.vals.Keys, nodes.vals.Keys, paths, maxHops, whitelist, s.links, s.linkTypes.vals);
          if depth < maxHops {
            queue, edges, paths := Expand(key, depth, Lookup(index, key), whitelist, visited, queue, edges, paths,
                                          anchor, maxHops, nodes.vals.Keys, s.links, s.linkTypes.vals);
          }
        }
      }
    }
    AssembleOk(s, anchor, nodes, paths, edges, visited, maxHops, maxNodes, whitelist, derive);
    r := Ok(Assemble(anchor, nodes, paths, edges, maxHops));
  }

  // ---------------------------------------------------------------------
  // verify_answer_against_graph

  /** A fact of an answer: a node, a property and its expected value, and an evidence link type ("" when none). */
  datatype Fact = Fact(node: Key, property: string, value: Value, requiresLink: string)

  /** The node's path from the anchor uses a link of type `linkType`. */
  predicate OnPath(path: seq<Step>, linkType: string)
  {
    exists j :: 0 <= j < |path| && path[j].linkType == linkType
  }

  /** One fact is backed by the graph: its node is there, the value matches, and the evidence link is on its path. */
  predicate FactHolds(g: LocalGraph, f: Fact)
  {
    f.node in g.nodes.vals
    && (if f.property in g.nodes.vals[f.node].properties then g.nodes.vals[f.node].properties[f.property] else Null) == f.value
    && (f.requiresLink == "" || OnPath(g.nodes.vals[f.node].path, f.requiresLink) || f.node == g.anchor)
  }

  /**
   * `verify_answer_against_graph`: AssertionError at the first fact the
   * graph does not back, else nothing.
   */
  function VerifyAnswer(g: LocalGraph, facts: seq<Fact>): (r: Result<()>)
    ensures r.Ok? <==> forall i :: 0 <= i < |facts| ==> FactHolds(g, facts[i])
    ensures r.Err? ==> r.exc == AssertionError
    decreases |facts|
  {
    if facts == [] then Ok(())
    else if !FactHolds(g, facts[0]) then Err(AssertionError)
    else
      var rest := VerifyAnswer(g, facts[1..]);
      assert forall i :: 1 <= i < |facts| ==> facts[i] == facts[1..][i - 1];
      rest
  }

  /** A fact about the anchor needs no evidence link: its value alone decides. */
  lemma AnchorNeedsNoEvidence(g: LocalGraph, f: Fact)
    requires f.node == g.anchor && g.anchor in g.nodes.vals
    ensures VerifyAnswer(g, [f]).Ok? <==>
      (if f.property in g.nodes.vals[f.node].properties then g.nodes.vals[f.node].properties[f.property] else Null) == f.value
  {
    assert forall i :: 0 <= i < |[f]| ==> [f][i] == f;
  }

  // ---------------------------------------------------------------------
  // execute_search_plan

  /** One step of a plan: `search_around` from the set named `source`, stored under `alias`. */
  datatype PlanStep = PlanStep(source: string, alias: string, linkType: string, filters: map<string, Value>,
                               limit: Option<int>, projection: seq<string>)

  /** `summarize_object`: the node key and the projected properties (all stored ones without a projection). */
  datatype Summary = Summary(key: Key, properties: map<string, Value>)

  function Summarize(o: ObjectInstance, projection: seq<string>, derive: (ObjectInstance, string) -> Value): Summary
  {
    Summary(Key(o.typeName, o.pk),
            if projection == [] then o.props else map p | p in projection :: GetProp(o, p, derive))
  }

  /** The summaries of a step's result, in order. */
  function SummarizeAll(objs: seq<ObjectInstance>, projection: seq<string>, derive: (ObjectInstance, string) -> Value)
    : (r: seq<Summary>)
    ensures |r| == |objs| && forall k :: 0 <= k < |objs| ==> r[k] == Summarize(objs[k], projection, derive)
  {
    seq(|objs|, k requires 0 <= k < |objs| => Summarize(objs[k], projection, derive))
  }

  /** The anchor objects: each id whose object exists, in order; a failing lookup raises. */
  function AnchorObjects(s: OntologyModel.State, t: string, ids: seq<Value>): (r: Result<seq<ObjectInstance>>)
    ensures r.Ok? ==> |r.value| <= |ids|
    ensures r.Ok? && r.value != [] ==> PyDict.Get(s.objectTypes, t).Some?
    ensures r == Ok([]) <==> forall j :: 0 <= j < |ids| ==> OntologyModel.GetObject(s, t, ids[j]) == Ok(None)
    decreases |ids|
  {
    if ids == [] then Ok([])
    else
      match OntologyModel.GetObject(s, t, ids[0])
      case Err(e) => Err(e)
      case Ok(o) =>
        var rest := AnchorObjects(s, t, ids[1..]);
        assert forall j :: 1 <= j < |ids| ==> ids[j] == ids[1..][j - 1];
        if rest.Err? then rest
        else Ok((if o.Some? then [o.value] else []) + rest.value)
  }

  /** Step `i` reads from one of the `initial` sets or from the alias of an earlier step. */
  predicate Sourced(initial: set<string>, plan: seq<PlanStep>, i: int)
    requires 0 <= i < |plan|
  {
    plan[i].source in initial || exists j :: 0 <= j < i && plan[j].alias == plan[i].source
  }

  /** Every step reads from the anchor set or from the alias of an earlier step. */
  predicate Scoped(plan: seq<PlanStep>)
  {
    forall i :: 0 <= i < |plan| ==> Sourced({"anchor"}, plan, i)
  }

  /**
   * `search_around(link_type, limit=limit, **filters)` on a set of type
   * `setType` whose `all()` is `members`: TypeError when a filter is named
   * like a parameter of `search_around`, otherwise its target type and
   * targets.
   */
  function SearchStepOf(s: OntologyModel.State, setType: string, members: Result<seq<ObjectInstance>>, step: PlanStep,
                        derive: (ObjectInstance, string) -> Value, logic: Logic)
    : Result<(ObjectType, seq<ObjectInstance>)>
  {
    if ObjectSets.KeywordClash(step.filters) then Err(TypeError)
    else
      match ObjectSets.SearchAroundOf(s, setType, members, step.linkType, step.limit, step.filters, derive, logic)
      case Err(e) => Err(e)
      case Ok((tt, tr)) => Ok((tt, tr.targets))
  }

  /** The sets a plan has built so far, by alias: their type and their objects. */
  type Context = map<string, (ObjectType, seq<ObjectInstance>)>

  /** One step on the sets built so far: ValueError for an unknown source alias, else its search. */
  function StepOf(s: OntologyModel.State, sets: Context, step: PlanStep,
                  derive: (ObjectInstance, string) -> Value, logic: Logic)
    : Result<(ObjectType, seq<ObjectInstance>)>
  {
    if step.source !in sets then Err(ValueError)
    else SearchStepOf(s, sets[step.source].0.apiName, Ok(sets[step.source].1), step, derive, logic)
  }

  /** How a plan runs one step on the sets built so far. */
  type StepFunction = (Context, PlanStep) -> Result<(ObjectType, seq<ObjectInstance>)>

  /** The step function of plans run over the stored state `s`. */
  function StepFn(s: OntologyModel.State, derive: (ObjectInstance, string) -> Value, logic: Logic)
    : StepFunction
  {
    (c: Context, step: PlanStep) => StepOf(s, c, step, derive, logic)
  }

  /**
   * The sets and the materialised summaries after the first `n` steps of
   * the plan, each step run by `stepOf`, or the error of the first step
   * that fails.
   */
  function PlanState(stepOf: StepFunction, sets: Context, plan: seq<PlanStep>, n: int,
                     derive: (ObjectInstance, string) -> Value)
    : Result<(Context, map<string, seq<Summary>>)>
    requires 0 <= n <= |plan|
    decreases n
  {
    if n == 0 then Ok((sets, map[]))
    else
      match PlanState(stepOf, sets, plan, n - 1, derive)
      case Err(e) => Err(e)
      case Ok((c, m)) =>
        var step := plan[n - 1];
        match stepOf(c, step)
        case Err(e) => Err(e)
        case Ok(found) => Ok((c[step.alias := found], m[step.alias := SummarizeAll(found.1, step.projection, derive)]))
  }

  /** The summaries a whole plan materialises, or the error of its first failing step. */
  function PlanResult(stepOf: StepFunction, sets: Context, plan: seq<PlanStep>,
                      derive: (ObjectInstance, string) -> Value)
    : Result<map<string, seq<Summary>>>
  {
    match PlanState(stepOf, sets, plan, |plan|, derive)
    case Err(e) => Err(e)
    case Ok((_, m)) => Ok(m)
  }

  /** What `execute_search_plan` returns. */
  function ExecuteSearchPlanOf(s: OntologyModel.State, anchorType: string, anchorIds: seq<Value>, plan: seq<PlanStep>,
                               derive: (ObjectInstance, string) -> Value, logic: Logic)
    : Result<map<string, seq<Summary>>>
  {
    match AnchorObjects(s, anchorType, anchorIds)
    case Err(e) => Err(e)
    case Ok(anchors) =>
      if anchors == [] then Err(ValueError)
      else
        var sets := map["anchor" := (PyDict.Get(s.objectTypes, anchorType).value, anchors)];
        PlanResult(StepFn(s, derive, logic), sets, plan, derive)
  }

  /**
   * A successful step: no filter clashes with a parameter, the source set
   * exists, and its targets are the far ends of qualifying links from the
   * source's objects, with no key twice, within the limit, and all of them
   * when the limit was not reached.
   */
  lemma StepOfSpec(s: OntologyModel.State, sets: Context, step: PlanStep,
                   derive: (ObjectInstance, string) -> Value, logic: Logic,
                   lt: LinkType, dir: ObjectSets.Direction, r: (ObjectType, seq<ObjectInstance>))
    requires StepOf(s, sets, step, derive, logic) == Ok(r)
    requires step.source in sets
    requires ObjectSets.ResolveTraversal(s, sets[step.source].0.apiName, step.linkType).Ok?
    requires ObjectSets.ResolveTraversal(s, sets[step.source].0.apiName, step.linkType).value.0 == lt
    requires ObjectSets.ResolveTraversal(s, sets[step.source].0.apiName, step.linkType).value.1 == dir
    ensures !ObjectSets.KeywordClash(step.filters)
    ensures r.0 == ObjectSets.ResolveTraversal(s, sets[step.source].0.apiName, step.linkType).value.2
    ensures Seqs.NoDup(ObjectSets.Pks(r.1))
    ensures step.limit.Some? ==> |r.1| <= Max0(step.limit.value)
    ensures step.limit.None? || step.limit.value > 0 ==>
      ObjectSets.AllQualify(s, sets[step.source].1, lt, dir, step.filters, derive, logic, r.1)
    ensures step.limit.None? || (step.limit.value > 0 && |r.1| < step.limit.value) ==>
      ObjectSets.Covers(s, sets[step.source].1, lt, dir, step.filters, derive, logic, r.1)
  {
    var members := Ok(sets[step.source].1);
    var sa := ObjectSets.SearchAroundOf(s, sets[step.source].0.apiName, members, step.linkType, step.limit,
                                        step.filters, derive, logic);
    var tt := ObjectSets.ResolveTraversal(s, sets[step.source].0.apiName, step.linkType).value.2;
    ObjectSets.SearchAroundOfSpec(s, sets[step.source].0.apiName, members, step.linkType, step.limit,
                                  step.filters, derive, logic, lt, dir, tt, sa.value);
  }

  /** A successful step stores its result and its summaries under its alias. */
  lemma PlanStateNext(stepOf: StepFunction, sets: Context, plan: seq<PlanStep>, n: int,
                      derive: (ObjectInstance, string) -> Value, c: Context, m: map<string, seq<Summary>>)
    requires 0 <= n < |plan|
    requires PlanState(stepOf, sets, plan, n, derive) == Ok((c, m))
    requires stepOf(c, plan[n]).Ok?
    ensures PlanState(stepOf, sets, plan, n + 1, derive)
      == Ok((c[plan[n].alias := stepOf(c, plan[n]).value],
             m[plan[n].alias := SummarizeAll(stepOf(c, plan[n]).value.1, plan[n].projection, derive)]))
  {
  }

  /**
   * The loop step of `execute_search_plan` over the stored state keeps
   * `PlanState`.
   */
  lemma PlanStateAdvance(s: OntologyModel.State, derive: (ObjectInstance, string) -> Value, logic: Logic,
                         sets: Context, plan: seq<PlanStep>, n: int, c: Context, m: map<string, seq<Summary>>,
                         c': Context, m': map<string, seq<Summary>>)
    requires 0 <= n < |plan|
    requires PlanState(StepFn(s, derive, logic), sets, plan, n, derive) == Ok((c, m))
    requires StepFn(s, derive, logic)(c, plan[n]).Ok?
    requires c' == c[plan[n].alias := StepFn(s, derive, logic)(c, plan[n]).value]
    requires m' == m[plan[n].alias := SummarizeAll(c'[plan[n].alias].1, plan[n].projection, derive)]
    ensures PlanState(StepFn(s, derive, logic), sets, plan, n + 1, derive) == Ok((c', m'))
  {
    PlanStateNext(StepFn(s, derive, logic), sets, plan, n, derive, c, m);
  }

  /** A failing step ends the plan with its error. */
  lemma PlanStateFails(stepOf: StepFunction, sets: Context, plan: seq<PlanStep>, n: int,
                       derive: (ObjectInstance, string) -> Value, c: Context, m: map<string, seq<Summary>>)
    requires 0 <= n < |plan|
    requires PlanState(stepOf, sets, plan, n, derive) == Ok((c, m))
    requires stepOf(c, plan[n]).Err?
    ensures PlanResult(stepOf, sets, plan, derive) == Err(stepOf(c, plan[n]).exc)
  {
    PlanStateStuck(stepOf, sets, plan, n + 1, |plan|, derive);
  }

  /** Once a step has failed, the plan keeps that error. */
  lemma {:induction false} PlanStateStuck(stepOf: StepFunction, sets: Context, plan: seq<PlanStep>, i: int, n: int,
                                          derive: (ObjectInstance, string) -> Value)
    requires 0 <= i <= n <= |plan|
    requires PlanState(stepOf, sets, plan, i, derive).Err?
    ensures PlanState(stepOf, sets, plan, n, derive) == PlanState(stepOf, sets, plan, i, derive)
    decreases n
  {
    if n > i {
      PlanStateStuck(stepOf, sets, plan, i, n - 1, derive);
    }
  }

  /** A failed plan fails with the error of its first failing step. */
  lemma {:induction false} PlanStateErr(stepOf: StepFunction, sets: Context, plan: seq<PlanStep>, n: int,
                                        derive: (ObjectInstance, string) -> Value)
    requires 0 <= n <= |plan|
    requires PlanState(stepOf, sets, plan, n, derive).Err?
    ensures exists i ::
      && 0 <= i < n && PlanState(stepOf, sets, plan, i, derive).Ok?
      && stepOf(PlanState(stepOf, sets, plan, i, derive).value.0, plan[i])
         == Err(PlanState(stepOf, sets, plan, n, derive).exc)
    decreases n
  {
    if PlanState(stepOf, sets, plan, n - 1, derive).Err? {
      PlanStateErr(stepOf, sets, plan, n - 1, derive);
    }
  }

  /**
   * After `n` successful steps the summaries hold exactly the aliases of
   * those steps, and the sets hold those and the initial ones.
   */
  lemma {:induction false} PlanStateKeys(stepOf: StepFunction, sets: Context, plan: seq<PlanStep>, n: int,
                                         derive: (ObjectInstance, string) -> Value)
    requires 0 <= n <= |plan|
    requires PlanState(stepOf, sets, plan, n, derive).Ok?
    ensures PlanState(stepOf, sets, plan, n, derive).value.1.Keys == set j | 0 <= j < n :: plan[j].alias
    ensures PlanState(stepOf, sets, plan, n, derive).value.0.Keys == sets.Keys + set j | 0 <= j < n :: plan[j].alias
    decreases n
  {
    if n > 0 {
      var n1 := n - 1;
      PlanStateKeys(stepOf, sets, plan, n1, derive);
      var (c, m) := PlanState(stepOf, sets, plan, n1, derive).value;
      PlanStateNext(stepOf, sets, plan, n1, derive, c, m);
      assert (set j | 0 <= j < n :: plan[j].alias) == (set j | 0 <= j < n1 :: plan[j].alias) + {plan[n1].alias};
    }
  }

  /**
   * When its step function fails unless the source set exists, a plan
   * that ran `n` steps read every step from an initial set or from the
   * alias of an earlier step.
   */
  lemma {:induction false} PlanStateSourced(stepOf: StepFunction, sets: Context, plan: seq<PlanStep>, n: int,
                                            derive: (ObjectInstance, string) -> Value)
    requires 0 <= n <= |plan|
    requires forall c: Context, step: PlanStep :: stepOf(c, step).Ok? ==> step.source in c
    requires PlanState(stepOf, sets, plan, n, derive).Ok?
    ensures forall i :: 0 <= i < n ==> Sourced(sets.Keys, plan, i)
    decreases n
  {
    if n > 0 {
      var n1 := n - 1;
      PlanStateSourced(stepOf, sets, plan, n1, derive);
      PlanStateKeys(stepOf, sets, plan, n1, derive);
      var (c, m) := PlanState(stepOf, sets, plan, n1, derive).value;
      PlanStateNext(stepOf, sets, plan, n1, derive, c, m);
      var step := plan[n1];
      assert step.source in c;
      if step.source !in sets {
        var j :| 0 <= j < n1 && plan[j].alias == step.source;
      }
      assert Sourced(sets.Keys, plan, n1);
    }
  }

  /**
   * After `n` successful steps, an alias that no later step reuses holds
   * the set its step found and the summaries of that set's objects.
   */
  lemma {:induction false} PlanStateLast(stepOf: StepFunction, sets: Context, plan: seq<PlanStep>, n: int, i: int,
                                         derive: (ObjectInstance, string) -> Value)
    requires 0 <= i < n <= |plan|
    requires PlanState(stepOf, sets, plan, n, derive).Ok?
    requires forall j :: i < j < n ==> plan[j].alias != plan[i].alias
    ensures PlanState(stepOf, sets, plan, i, derive).Ok?
    ensures stepOf(PlanState(stepOf, sets, plan, i, derive).value.0, plan[i]).Ok?
    ensures var found := stepOf(PlanState(stepOf, sets, plan, i, derive).value.0, plan[i]).value;
      && plan[i].alias in PlanState(stepOf, sets, plan, n, derive).value.0
      && plan[i].alias in PlanState(stepOf, sets, plan, n, derive).value.1
      && PlanState(stepOf, sets, plan, n, derive).value.0[plan[i].alias] == found
      && PlanState(stepOf, sets, plan, n, derive).value.1[plan[i].alias]
         == SummarizeAll(found.1, plan[i].projection, derive)
    decreases n
  {
    if i < n - 1 {
      PlanStateLast(stepOf, sets, plan, n - 1, i, derive);
    }
  }

  /**
   * `execute_search_plan`: the anchor lookup's error; ValueError without
   * anchor objects; otherwise every step reads an earlier alias, every
   * alias is materialised, and the last step naming an alias decides its
   * summaries.
   */
  lemma ExecuteSearchPlanOfSpec(s: OntologyModel.State, anchorType: string, anchorIds: seq<Value>, plan: seq<PlanStep>,
                                derive: (ObjectInstance, string) -> Value, logic: Logic)
    ensures AnchorObjects(s, anchorType, anchorIds).Err? ==>
      ExecuteSearchPlanOf(s, anchorType, anchorIds, plan, derive, logic) == Err(AnchorObjects(s, anchorType, anchorIds).exc)
    ensures AnchorObjects(s, anchorType, anchorIds) == Ok([]) ==>
      ExecuteSearchPlanOf(s, anchorType, anchorIds, plan, derive, logic) == Err(ValueError)
    ensures ExecuteSearchPlanOf(s, anchorType, anchorIds, plan, derive, logic).Ok? ==>
      && Scoped(plan)
      && ExecuteSearchPlanOf(s, anchorType, anchorIds, plan, derive, logic).value.Keys == set j | 0 <= j < |plan| :: plan[j].alias
  {
    var r := ExecuteSearchPlanOf(s, anchorType, anchorIds, plan, derive, logic);
    if r.Ok? {
      var anchors := AnchorObjects(s, anchorType, anchorIds).value;
      var sets := map["anchor" := (PyDict.Get(s.objectTypes, anchorType).value, anchors)];
      forall c: Context, step: PlanStep | StepFn(s, derive, logic)(c, step).Ok?
        ensures step.source in c
      {
      }
      PlanStateKeys(StepFn(s, derive, logic), sets, plan, |plan|, derive);
      PlanStateSourced(StepFn(s, derive, logic), sets, plan, |plan|, derive);
      assert sets.Keys == {"anchor"};
    }
  }

  /** The `search_around` of one step on its source set: its target type and targets. */
  method SearchStep(source: ObjectSets.ObjectSet, ont: Ontologies.Ontology, step: PlanStep,
                    derive: (ObjectInstance, string) -> Value, logic: Logic)
    returns (r: Result<(ObjectType, seq<ObjectInstance>)>)
    requires source.ontology == ont && ont.Valid()
    modifies source
    ensures r == SearchStepOf(ont.Snapshot(), source.objectType.apiName, old(source.Members()), step, derive, logic)
    ensures !old(source.lazy) ==> !source.lazy && source.objects == old(source.objects)
  {
    if ObjectSets.KeywordClash(step.filters) {
      return Err(TypeError);
    }
    var found := source.SearchAround(step.linkType, step.limit, step.filters, derive, logic);
    if found.Err? {
      return Err(found.exc);
    }
    r := Ok((found.value.0, found.value.1.targets));
  }

  /** One step of the plan: its search, a new set of the targets and their summaries. */
  method RunStep(source: ObjectSets.ObjectSet, ont: Ontologies.Ontology, step: PlanStep,
                 derive: (ObjectInstance, string) -> Value, logic: Logic)
    returns (r: Result<(ObjectSets.ObjectSet, seq<Summary>)>)
    requires source.ontology == ont && ont.Valid()
    modifies source
    ensures ont.Valid()
    ensures !old(source.lazy) ==> !source.lazy && source.objects == old(source.objects)
    ensures r.Ok? <==> SearchStepOf(ont.Snapshot(), source.objectType.apiName, old(source.Members()), step, derive, logic).Ok?
    ensures r.Err? ==>
      r.exc == SearchStepOf(ont.Snapshot(), source.objectType.apiName, old(source.Members()), step, derive, logic).exc
    ensures r.Ok? ==>
      var found := SearchStepOf(ont.Snapshot(), source.objectType.apiName, old(source.Members()), step, derive, logic).value;
      && fresh(r.value.0) && r.value.0.ontology == ont && !r.value.0.lazy
      && r.value.0.objectType == found.0 && r.value.0.objects == found.1
      && r.value.1 == SummarizeAll(found.1, step.projection, derive)
  {
    var found := SearchStep(source, ont, step, derive, logic);
    if found.Err? {
      return Err(found.exc);
    }
    var targets := found.value.1;
    var resultSet := new ObjectSets.ObjectSet(found.value.0, targets, ont, map[], None, false);
    r := Ok((resultSet, SummarizeAll(targets, step.projection, derive)));
  }

  /**
   * One step of the loop of `execute_search_plan` on the sets kept so far:
   * it keeps `PlanState` over the stored state `s`, stopping the plan with
   * the step's error or storing its result under its alias.
   */
  method Advance(ont: Ontologies.Ontology, ghost s: OntologyModel.State, ghost sets0: Context, plan: seq<PlanStep>,
                 i: int, sets: Context, materialized: map<string, seq<Summary>>,
                 derive: (ObjectInstance, string) -> Value, logic: Logic)
    returns (failed: Option<Exc>, sets': Context, materialized': map<string, seq<Summary>>)
    requires 0 <= i < |plan|
    requires ont.Valid() && ont.Snapshot() == s
    requires PlanState(StepFn(s, derive, logic), sets0, plan, i, derive) == Ok((sets, materialized))
    ensures ont.Valid() && ont.Snapshot() == s
    ensures failed.Some? ==> PlanResult(StepFn(s, derive, logic), sets0, plan, derive) == Err(failed.value)
    ensures failed.None? ==>
      PlanState(StepFn(s, derive, logic), sets0, plan, i + 1, derive) == Ok((sets', materialized'))
  {
    var step := plan[i];
    if step.source !in sets {
      PlanStateFails(StepFn(s, derive, logic), sets0, plan, i, derive, sets, materialized);
      return Some(ValueError), sets, materialized;
    }
    var source := new ObjectSets.ObjectSet(sets[step.source].0, sets[step.source].1, ont, map[], None, false);
    var found := RunStep(source, ont, step, derive, logic);
    if found.Err? {
      PlanStateFails(StepFn(s, derive, logic), sets0, plan, i, derive, sets, materialized);
      return Some(found.exc), sets, materialized;
    }
    failed := None;
    sets' := sets[step.alias := (found.value.0.objectType, found.value.0.objects)];
    materialized' := materialized[step.alias := found.value.1];
    PlanStateAdvance(s, derive, logic, sets0, plan, i, sets, materialized, sets', materialized');
  }

  /**
   * The loop of `execute_search_plan` from the anchor objects: exactly
   * `PlanResult` over the stored state.
   */
  method RunPlan(ont: Ontologies.Ontology, anchorType: ObjectType, anchors: seq<ObjectInstance>, plan: seq<PlanStep>,
                 derive: (ObjectInstance, string) -> Value, logic: Logic)
    returns (r: Result<map<string, seq<Summary>>>)
    requires ont.Valid()
    ensures r == PlanResult(StepFn(ont.Snapshot(), derive, logic), map["anchor" := (anchorType, anchors)], plan, derive)
  {
    ghost var s := ont.Snapshot();
    var sets: Context := map["anchor" := (anchorType, anchors)];
    ghost var sets0 := sets;
    var materialized: map<string, seq<Summary>> := map[];
    for i := 0 to |plan|
      invariant ont.Valid() && ont.Snapshot() == s
      invariant PlanState(StepFn(s, derive, logic), sets0, plan, i, derive) == Ok((sets, materialized))
    {
      var failed;
      failed, sets, materialized := Advance(ont, s, sets0, plan, i, sets, materialized, derive, logic);
      if failed.Some? {
        return Err(failed.value);
      }
    }
    r := Ok(materialized);
  }

  /**
   * `execute_search_plan`: exactly `ExecuteSearchPlanOf` over the stored
   * state.
   */
  method ExecuteSearchPlan(ont: Ontologies.Ontology, anchorType: string, anchorIds: seq<Value>, plan: seq<PlanStep>,
                           derive: (ObjectInstance, string) -> Value, logic: Logic)
    returns (r: Result<map<string, seq<Summary>>>)
    requires ont.Valid()
    ensures r == ExecuteSearchPlanOf(ont.Snapshot(), anchorType, anchorIds, plan, derive, logic)
  {
    var anchors := AnchorObjects(ont.Snapshot(), anchorType, anchorIds);
    if anchors.Err? {
      return Err(anchors.exc);
    }
    if anchors.value == [] {
      return Err(ValueError);
    }
    r := RunPlan(ont, PyDict.Get(ont.objectTypes, anchorType).value, anchors.value, plan, derive, logic);
  }
}
