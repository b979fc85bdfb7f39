/**
 * The pure helpers of the order-delivery tool server: filter matching over
 * stored and derived properties, scalar coercion of JSON parameters,
 * action parameter preparation, traversal direction resolution, and the
 * clamped `limit` of the listing tools.
 */
module McpTools {
  import opened Wrappers
  import opened Values
  import opened Schema
  import PyDict
  import Seqs
  import Coercions
  import OntologyModel
  import Ontologies
  import ObjectSets

  // ---------------------------------------------------------------------
  // _match_filters

  /** A filter expectation: a single value, or a JSON list meaning "one of". */
  datatype Expect = One(v: Value) | AnyOf(vs: seq<Value>)

  const DerivedPrefix := "derived."

  /** `key[len("derived."):]` for a `derived.`-prefixed key. */
  function AfterPrefix(key: string): string
    requires DerivedPrefix <= key
  {
    key[|DerivedPrefix|..]
  }

  /** The value a filter key reads: `obj.get(name)` behind `derived.`, else the stored property or None. */
  function Actual(o: ObjectInstance, key: string, derive: (ObjectInstance, string) -> Value): Value
  {
    if DerivedPrefix <= key then GetProp(o, AfterPrefix(key), derive)
    else if key in o.props then o.props[key] else Null
  }

  predicate Satisfies(actual: Value, e: Expect)
  {
    match e
    case One(v) => actual == v
    case AnyOf(vs) => actual in vs
  }

  /** `_match_filters`: the filters in order, False at the first one that fails. */
  function MatchFilters(o: ObjectInstance, filters: PyDict.Dict<string, Expect>, derive: (ObjectInstance, string) -> Value)
    : (r: bool)
    requires PyDict.Wf(filters)
    ensures r <==> forall k :: k in filters.vals ==> Satisfies(Actual(o, k, derive), filters.vals[k])
  {
    MatchKeys(o, filters.keys, filters.vals, derive)
  }

  function MatchKeys(o: ObjectInstance, keys: seq<string>, filters: map<string, Expect>,
                     derive: (ObjectInstance, string) -> Value): (r: bool)
    requires forall k :: k in keys ==> k in filters
    ensures r <==> forall k :: k in keys ==> Satisfies(Actual(o, k, derive), filters[k])
    decreases |keys|
  {
    if keys == [] then true
    else if !Satisfies(Actual(o, keys[0], derive), filters[keys[0]]) then false
    else
      var rest := MatchKeys(o, keys[1..], filters, derive);
      assert forall k :: k in keys ==> k == keys[0] || k in keys[1..];
      rest
  }

  /** No filters match everything. */
  lemma NoFiltersMatch(o: ObjectInstance, derive: (ObjectInstance, string) -> Value)
    ensures MatchFilters(o, PyDict.Empty(), derive)
  {
  }

  // ---------------------------------------------------------------------
  // _coerce_scalar

  /** A coerced parameter: a value, or `float(raw)` (floating point is not modelled). */
  datatype Scalar = Plain(v: Value) | FloatOf(raw: Value)

  /**
   * `_coerce_scalar`: None stays None; STRING is `str(raw)`, INTEGER
   * `int(raw)` (ValueError when it does not parse), BOOLEAN the word sets
   * then truthiness, TIMESTAMP `float(raw)`; DATE passes the raw value on.
   */
  function CoerceScalar(pt: PropertyType, raw: Value): (r: Result<Scalar>)
    ensures raw == Null ==> r == Ok(Plain(Null))
    ensures r.Err? <==> raw != Null && pt == INTEGER && Coercions.PyInt(raw).None?
    ensures r.Err? ==> r.exc == ValueError
    ensures raw != Null && pt == STRING ==> r == Ok(Plain(Str(Show(raw))))
    ensures raw != Null && pt == INTEGER && Coercions.PyInt(raw).Some? ==> r == Ok(Plain(Int(Coercions.PyInt(raw).value)))
    ensures raw != Null && pt == BOOLEAN ==> r == Ok(Plain(Bool(Coercions.CoerceBool(raw))))
    ensures raw != Null && pt == TIMESTAMP ==> r == Ok(FloatOf(raw))
    ensures pt == DATE ==> r == Ok(Plain(raw))
  {
    if raw == Null then Ok(Plain(Null))
    else
      match pt
      case STRING => Ok(Plain(Str(Show(raw))))
      case INTEGER =>
        (match Coercions.PyInt(raw)
         case None => Err(ValueError)
         case Some(i) => Ok(Plain(Int(i))))
      case BOOLEAN => Ok(Plain(Bool(Coercions.CoerceBool(raw))))
      case TIMESTAMP => Ok(FloatOf(raw))
      case DATE => Ok(Plain(raw))
  }

  /** An integer parameter sent as its decimal text comes back as the integer. */
  lemma IntegerTextRoundTrip(i: int)
    ensures CoerceScalar(INTEGER, Str(IntToString(i))) == Ok(Plain(Int(i)))
  {
    Coercions.IntRoundTrip(i);
  }

  // ---------------------------------------------------------------------
  // _prepare_action_parameters

  /** The declared parameters from `names` on: ValueError for a missing required one or a failing coercion. */
  function ParseParams(params: map<string, ActionParameter>, names: seq<string>, payload: map<string, Value>)
    : (r: Result<map<string, Scalar>>)
    requires forall n :: n in names ==> n in params
    ensures r.Err? ==> r.exc == ValueError
    ensures r.Ok? <==> forall n :: n in names ==> ParamOk(params[n], n, payload)
    ensures r.Ok? ==> forall n :: n in r.value <==> n in names && n in payload
    ensures r.Ok? ==> forall n :: n in r.value ==> Ok(r.value[n]) == CoerceScalar(params[n].dataType, payload[n])
    decreases |names|
  {
    if names == [] then Ok(map[])
    else
      var n := names[0];
      assert forall m :: m in names ==> m == n || m in names[1..];
      if n !in payload then
        if params[n].required then Err(ValueError) else ParseParams(params, names[1..], payload)
      else
        match CoerceScalar(params[n].dataType, payload[n])
        case Err(e) => Err(e)
        case Ok(v) =>
          (match ParseParams(params, names[1..], payload)
           case Err(e) => Err(e)
           case Ok(m) => Ok(m[n := v]))
  }

  /** The parameter `n` is supplied and coerces, or is absent and optional. */
  predicate ParamOk(p: ActionParameter, n: string, payload: map<string, Value>)
  {
    if n in payload then CoerceScalar(p.dataType, payload[n]).Ok? else !p.required
  }

  /**
   * `_prepare_action_parameters`: ValueError for an unknown action, a
   * missing required parameter, a value `int()` rejects, or a supplied name
   * the action does not declare; otherwise the coerced supplied parameters.
   */
  function PrepareActionParameters(actions: PyDict.Dict<string, ActionType>, action: string, payload: map<string, Value>)
    : (r: Result<map<string, Scalar>>)
    requires PyDict.Wf(actions) && forall a :: a in actions.vals ==> PyDict.Wf(actions.vals[a].parameters)
  {
    if action !in actions.vals then Err(ValueError)
    else
      var at := actions.vals[action];
      assert PyDict.Wf(at.parameters);
      match ParseParams(at.parameters.vals, at.parameters.keys, payload)
      case Err(e) => Err(e)
      case Ok(parsed) =>
        if exists k :: k in payload && k !in at.parameters.vals then Err(ValueError) else Ok(parsed)
  }

  /** The whole contract of `_prepare_action_parameters`, both ways. */
  lemma PrepareActionParametersSpec(actions: PyDict.Dict<string, ActionType>, action: string, payload: map<string, Value>)
    requires PyDict.Wf(actions) && forall a :: a in actions.vals ==> PyDict.Wf(actions.vals[a].parameters)
    ensures var r := PrepareActionParameters(actions, action, payload);
      (r.Err? ==> r.exc == ValueError)
      && (r.Ok? <==>
            action in actions.vals
            && (var ps := actions.vals[action].parameters.vals;
                (forall n :: n in ps ==> ParamOk(ps[n], n, payload)) && payload.Keys <= ps.Keys))
      && (r.Ok? ==>
            var ps := actions.vals[action].parameters.vals;
            r.value.Keys == payload.Keys
            && forall n :: n in r.value ==> Ok(r.value[n]) == CoerceScalar(ps[n].dataType, payload[n]))
  {
    if action in actions.vals {
      var at := actions.vals[action];
      var ps := at.parameters;
      assert forall n :: n in ps.vals <==> n in ps.keys;
      var parsed := ParseParams(ps.vals, ps.keys, payload);
      if parsed.Ok? && payload.Keys <= ps.vals.Keys {
        assert parsed.value.Keys == payload.Keys;
      }
    }
  }

  // ---------------------------------------------------------------------
  // _resolve_traversal

  type Direction = ObjectSets.Direction

  /**
   * `_resolve_traversal`: `auto` picks forward when the anchor type is the
   * link's source, else reverse when it is the target; an explicit
   * direction must match that end; anything else is a ValueError.
   */
  function ResolveTraversal(requested: string, anchorType: string, lt: LinkType): (r: Result<Direction>)
    ensures r.Err? ==> r.exc == ValueError
    ensures r == Ok(ObjectSets.Forward) <==>
      lt.sourceType == anchorType && (requested == "auto" || requested == "forward")
    ensures r == Ok(ObjectSets.Reverse) <==>
      lt.targetType == anchorType
      && ((requested == "auto" && lt.sourceType != anchorType) || requested == "reverse")
  {
    if requested == "auto" then
      if lt.sourceType == anchorType then Ok(ObjectSets.Forward)
      else if lt.targetType == anchorType then Ok(ObjectSets.Reverse)
      else Err(ValueError)
    else if requested == "forward" then
      if lt.sourceType != anchorType then Err(ValueError) else Ok(ObjectSets.Forward)
    else if requested == "reverse" then
      if lt.targetType != anchorType then Err(ValueError) else Ok(ObjectSets.Reverse)
    else Err(ValueError)
  }

  /** Any direction other than the three names is rejected. */
  lemma UnknownDirection(requested: string, anchorType: string, lt: LinkType)
    requires requested !in {"auto", "forward", "reverse"}
    ensures ResolveTraversal(requested, anchorType, lt) == Err(ValueError)
  {
  }

  // ---------------------------------------------------------------------
  // The listing tools

  /** `max(1, min(limit, 100))`. */
  function ClampLimit(limit: int): (r: int)
    ensures 1 <= r <= 100
    ensures 1 <= limit <= 100 ==> r == limit
    ensures limit < 1 ==> r == 1
    ensures limit > 100 ==> r == 100
  {
    var capped := if limit < 100 then limit else 100;
    if capped > 1 then capped else 1
  }

  /**
   * `list_objects`: ValueError for an unknown type; otherwise the type's
   * objects in store order, keeping those that match, stopping once
   * `limit` (clamped) are kept.
   */
  method ListObjects(ont: Ontologies.Ontology, typeName: string, filters: PyDict.Dict<string, Expect>, limit: int,
                     derive: (ObjectInstance, string) -> Value)
    returns (r: Result<seq<ObjectInstance>>)
    requires ont.Valid() && PyDict.Wf(filters)
    ensures typeName !in ont.objectTypes.vals ==> r == Err(ValueError)
    ensures typeName in ont.objectTypes.vals ==> (
      var all := OntologyModel.ScanObjects(ont.Snapshot(), typeName, map[], None);
      (all.Err? ==> r == Err(all.exc))
      && (all.Ok? ==> r == Ok(Seqs.SliceTo(Seqs.Filter(all.value, Matcher(filters, derive)), ClampLimit(limit)))))
    ensures r.Ok? ==> |r.value| <= ClampLimit(limit)
  {
    var lim := ClampLimit(limit);
    if typeName !in ont.objectTypes.vals {
      return Err(ValueError);
    }
    var all := OntologyModel.ScanObjects(ont.Snapshot(), typeName, map[], None);
    if all.Err? {
      return Err(all.exc);
    }
    var instances := all.value;
    var matches := Matcher(filters, derive);
    var matched: seq<ObjectInstance> := [];
    var i := 0;
    while i < |instances| && |matched| < lim
      invariant 0 <= i <= |instances|
      invariant matched == Seqs.Filter(instances[..i], matches)
      invariant |matched| <= lim
    {
      Seqs.TakeNext(instances, i);
      Seqs.FilterSnoc(instances[..i], instances[i], matches);
      if matches(instances[i]) {
        matched := matched + [instances[i]];
      }
      i := i + 1;
    }
    TakeFirst(instances, i, matches, lim);
    r := Ok(matched);
  }

  /** `_match_filters` with its filters fixed, as the predicate `list_objects` keeps objects by. */
  function Matcher(filters: PyDict.Dict<string, Expect>, derive: (ObjectInstance, string) -> Value): ObjectInstance -> bool
    requires PyDict.Wf(filters)
  {
    o => MatchFilters(o, filters, derive)
  }

  /** Stopping the scan once `n` matches are kept gives the first `n` matches of the whole list. */
  lemma TakeFirst(s: seq<ObjectInstance>, i: int, p: ObjectInstance -> bool, n: int)
    requires 0 <= i <= |s| && n >= 1
    requires |Seqs.Filter(s[..i], p)| <= n
    requires i == |s| || |Seqs.Filter(s[..i], p)| >= n
    ensures Seqs.Filter(s[..i], p) == Seqs.SliceTo(Seqs.Filter(s, p), n)
  {
    if i == |s| {
      assert s[..i] == s;
    } else {
      assert s == s[..i] + s[i..];
      Seqs.FilterConcat(s[..i], s[i..], p);
    }
  }

  /** A key with any `derived.` prefix dropped (`key.split(".", 1)[1]`). */
  function Normalized(key: string): string
  {
    if DerivedPrefix <= key then AfterPrefix(key) else key
  }

  /**
   * `normalized_filters` of `get_related_objects`: every key with its
   * `derived.` prefix dropped; when two keys normalise alike, the later
   * one's value wins (see `NormalizedLastWins`).
   */
  function NormalizeFilters(keys: seq<string>, raw: map<string, Value>): (r: map<string, Value>)
    requires forall k :: k in keys ==> k in raw
    ensures forall n :: n in r <==> exists i :: 0 <= i < |keys| && Normalized(keys[i]) == n
    decreases |keys|
  {
    if keys == [] then map[]
    else
      var init := keys[..|keys| - 1];
      var last := keys[|keys| - 1];
      assert forall i :: 0 <= i < |init| ==> keys[i] == init[i];
      NormalizeFilters(init, raw)[Normalized(last) := raw[last]]
  }

  /** The index of the last key that normalises to `n`, -1 when there is none. */
  function LastFor(keys: seq<string>, n: string): (i: int)
    ensures -1 <= i < |keys|
    ensures i >= 0 ==> Normalized(keys[i]) == n
    ensures forall j :: i < j < |keys| ==> Normalized(keys[j]) != n
    decreases |keys|
  {
    if keys == [] then -1
    else if Normalized(keys[|keys| - 1]) == n then |keys| - 1
    else
      var i := LastFor(keys[..|keys| - 1], n);
      assert forall j :: 0 <= j < |keys| - 1 ==> keys[..|keys| - 1][j] == keys[j];
      i
  }

  /** Each normalised key holds the value of the last raw key that normalises to it. */
  lemma {:induction false} NormalizedLastWins(keys: seq<string>, raw: map<string, Value>, n: string)
    requires forall k :: k in keys ==> k in raw
    ensures n in NormalizeFilters(keys, raw) <==> LastFor(keys, n) >= 0
    ensures n in NormalizeFilters(keys, raw) ==> NormalizeFilters(keys, raw)[n] == raw[keys[LastFor(keys, n)]]
    decreases |keys|
  {
    if keys != [] {
      var init := keys[..|keys| - 1];
      assert forall j :: 0 <= j < |init| ==> keys[j] == init[j];
      if Normalized(keys[|keys| - 1]) != n {
        NormalizedLastWins(init, raw, n);
      }
    }
  }

  /** The checks `get_related_objects` makes before traversing: the anchor type, the anchor, the link type and the direction. */
  function RelatedChecks(s: OntologyModel.State, typeName: string, pk: string, ltName: string, direction: string)
    : (r: Result<(ObjectType, ObjectInstance, Direction)>)
    requires OntologyModel.StateWf(s)
    ensures r.Ok? ==> typeName in s.objectTypes.vals && r.value.0 == s.objectTypes.vals[typeName]
    ensures r.Ok? ==> OntologyModel.GetObject(s, typeName, Str(pk)) == Ok(Some(r.value.1))
    ensures r.Ok? ==> (ltName in s.linkTypes.vals
      && ResolveTraversal(direction, r.value.0.apiName, s.linkTypes.vals[ltName]) == Ok(r.value.2))
    ensures r.Err? && OntologyModel.GetObject(s, typeName, Str(pk)).Ok? ==> r.exc == ValueError
  {
    match PyDict.Get(s.objectTypes, typeName)
    case None => Err(ValueError)
    case Some(t) =>
      match OntologyModel.GetObject(s, typeName, Str(pk))
      case Err(e) => Err(e)
      case Ok(None) => Err(ValueError)
      case Ok(Some(anchor)) =>
        match PyDict.Get(s.linkTypes, ltName)
        case None => Err(ValueError)
        case Some(lt) =>
          match ResolveTraversal(direction, t.apiName, lt)
          case Err(e) => Err(e)
          case Ok(d) => Ok((t, anchor, d))
  }

  /**
   * What `get_related_objects` returns for normalised filters and a clamped
   * limit: the error of `RelatedChecks`; TypeError when a filter is named
   * like a parameter of `search_around`; otherwise the `search_around` of
   * the one-element anchor set, reported with the direction the tool
   * resolved.
   */
  function RelatedOf(s: OntologyModel.State, typeName: string, pk: string, ltName: string, direction: string,
                     filters: map<string, Value>, lim: int, derive: (ObjectInstance, string) -> Value, logic: Logic)
    : Result<(Direction, seq<ObjectInstance>)>
    requires OntologyModel.StateWf(s)
  {
    match RelatedChecks(s, typeName, pk, ltName, direction)
    case Err(e) => Err(e)
    case Ok((t, anchor, d)) =>
      if ObjectSets.KeywordClash(filters) then Err(TypeError)
      else
        match ObjectSets.SearchAroundOf(s, t.apiName, Ok([anchor]), ltName, Some(lim), filters, derive, logic)
        case Err(e) => Err(e)
        case Ok((_, tr)) => Ok((d, tr.targets))
  }

  /**
   * After the checks pass, `get_related_objects` raises TypeError for a
   * filter named like a parameter of `search_around`, and ValueError when
   * the type at the far end of the link is not registered.
   */
  lemma RelatedOfErrors(s: OntologyModel.State, typeName: string, pk: string, ltName: string, direction: string,
                        filters: map<string, Value>, lim: int, derive: (ObjectInstance, string) -> Value, logic: Logic,
                        t: ObjectType, anchor: ObjectInstance, d: Direction)
    requires OntologyModel.StateWf(s)
    requires RelatedChecks(s, typeName, pk, ltName, direction) == Ok((t, anchor, d))
    ensures ObjectSets.KeywordClash(filters) ==>
      RelatedOf(s, typeName, pk, ltName, direction, filters, lim, derive, logic) == Err(TypeError)
    ensures !ObjectSets.KeywordClash(filters) && ObjectSets.ResolveTraversal(s, t.apiName, ltName).Err? ==>
      RelatedOf(s, typeName, pk, ltName, direction, filters, lim, derive, logic) == Err(ValueError)
  {
    ObjectSets.ResolveTraversalSpec(s, t.apiName, ltName);
  }

  /**
   * A successful `get_related_objects` reports the direction the tool
   * resolved, returns at most the limit, no key twice, only objects
   * reached from the anchor by a qualifying link along the direction
   * `search_around` walks, and every such object when fewer than the limit
   * came back.
   */
  lemma RelatedOfSpec(s: OntologyModel.State, typeName: string, pk: string, ltName: string, direction: string,
                      filters: map<string, Value>, lim: int, derive: (ObjectInstance, string) -> Value, logic: Logic,
                      t: ObjectType, anchor: ObjectInstance, d: Direction, lt: LinkType, walk: Direction,
                      r: (Direction, seq<ObjectInstance>))
    requires OntologyModel.StateWf(s) && lim >= 1
    requires RelatedChecks(s, typeName, pk, ltName, direction) == Ok((t, anchor, d))
    requires ObjectSets.ResolveTraversal(s, t.apiName, ltName).Ok?
    requires ObjectSets.ResolveTraversal(s, t.apiName, ltName).value.0 == lt
    requires ObjectSets.ResolveTraversal(s, t.apiName, ltName).value.1 == walk
    requires RelatedOf(s, typeName, pk, ltName, direction, filters, lim, derive, logic) == Ok(r)
    ensures r.0 == d
    ensures |r.1| <= lim
    ensures Seqs.NoDup(ObjectSets.Pks(r.1))
    ensures ObjectSets.AllQualify(s, [anchor], lt, walk, filters, derive, logic, r.1)
    ensures |r.1| < lim ==> ObjectSets.Covers(s, [anchor], lt, walk, filters, derive, logic, r.1)
  {
    var sa := ObjectSets.SearchAroundOf(s, t.apiName, Ok([anchor]), ltName, Some(lim), filters, derive, logic);
    var tt := ObjectSets.ResolveTraversal(s, t.apiName, ltName).value.2;
    ObjectSets.SearchAroundOfSpec(s, t.apiName, Ok([anchor]), ltName, Some(lim), filters, derive, logic,
                                  lt, walk, tt, sa.value);
  }

  /**
   * `get_related_objects`: exactly `RelatedOf` over the stored state, with
   * the normalised filters and the clamped limit; the qualification and
   * completeness of `RelatedOfSpec` are restated here.
   */
  method GetRelatedObjects(ont: Ontologies.Ontology, typeName: string, pk: string, ltName: string, direction: string,
                           rawFilters: PyDict.Dict<string, Value>, limit: int,
                           derive: (ObjectInstance, string) -> Value, logic: Logic)
    returns (r: Result<(Direction, seq<ObjectInstance>)>)
    requires ont.Valid() && PyDict.Wf(rawFilters)
    ensures r == RelatedOf(ont.Snapshot(), typeName, pk, ltName, direction,
                           NormalizeFilters(rawFilters.keys, rawFilters.vals), ClampLimit(limit), derive, logic)
    ensures r.Ok? ==> |r.value.1| <= ClampLimit(limit)
    ensures r.Ok? ==>
      && RelatedChecks(ont.Snapshot(), typeName, pk, ltName, direction).Ok?
      && r.value.0 == RelatedChecks(ont.Snapshot(), typeName, pk, ltName, direction).value.2
      && var (t, anchor, _) := RelatedChecks(ont.Snapshot(), typeName, pk, ltName, direction).value;
         && ObjectSets.ResolveTraversal(ont.Snapshot(), t.apiName, ltName).Ok?
         && var (lt, walk, _) := ObjectSets.ResolveTraversal(ont.Snapshot(), t.apiName, ltName).value;
            && ObjectSets.AllQualify(ont.Snapshot(), [anchor], lt, walk,
                                     NormalizeFilters(rawFilters.keys, rawFilters.vals), derive, logic, r.value.1)
            && (|r.value.1| < ClampLimit(limit) ==>
                  ObjectSets.Covers(ont.Snapshot(), [anchor], lt, walk,
                                    NormalizeFilters(rawFilters.keys, rawFilters.vals), derive, logic, r.value.1))
  {
    var filters := NormalizeFilters(rawFilters.keys, rawFilters.vals);
    var lim := ClampLimit(limit);
    var s := ont.Snapshot();
    var checks := RelatedChecks(s, typeName, pk, ltName, direction);
    if checks.Err? {
      return Err(checks.exc);
    }
    var (t, anchor, d) := checks.value;
    var anchorSet := new ObjectSets.ObjectSet(t, [anchor], ont, map[], None, false);
    if ObjectSets.KeywordClash(filters) {
      return Err(TypeError);
    }
    var related := anchorSet.SearchAround(ltName, Some(lim), filters, derive, logic);
    if related.Err? {
      return Err(related.exc);
    }
    r := Ok((d, related.value.1.targets));
    var (lt, walk, _) := ObjectSets.ResolveTraversal(s, t.apiName, ltName).value;
    RelatedOfSpec(s, typeName, pk, ltName, direction, filters, lim, derive, logic, t, anchor, d, lt, walk, r.value);
  }

  /**
   * A self-link (both ends of the anchor's type) asked for in reverse: the
   * tool reports "reverse", while `search_around`, which resolves the
   * direction again without it, walks the link forward.
   */
  lemma SelfLinkReverseWalksForward(s: OntologyModel.State, t: string, ltName: string)
    requires ltName in s.linkTypes.vals && t in s.objectTypes.vals
    requires s.linkTypes.vals[ltName].sourceType == t && s.linkTypes.vals[ltName].targetType == t
    ensures ResolveTraversal("reverse", t, s.linkTypes.vals[ltName]) == Ok(ObjectSets.Reverse)
    ensures ObjectSets.ResolveTraversal(s, t, ltName).Ok?
      && ObjectSets.ResolveTraversal(s, t, ltName).value.1 == ObjectSets.Forward
  {
  }

  /**
   * `get_related_objects` as evidently intended: the traversal follows the
   * direction the tool resolved and reports, so every target is reached
   * from the anchor along that direction by a qualifying link, and every
   * such target is returned when fewer than the limit came back.
   */
  method GetRelatedObjectsDirected(ont: Ontologies.Ontology, typeName: string, pk: string, ltName: string, direction: string,
                                   rawFilters: PyDict.Dict<string, Value>, limit: int,
                                   derive: (ObjectInstance, string) -> Value, logic: Logic)
    returns (r: Result<(Direction, seq<ObjectInstance>)>)
    requires ont.Valid() && PyDict.Wf(rawFilters)
    ensures RelatedChecks(ont.Snapshot(), typeName, pk, ltName, direction).Err? ==>
      r == Err(RelatedChecks(ont.Snapshot(), typeName, pk, ltName, direction).exc)
    ensures (RelatedChecks(ont.Snapshot(), typeName, pk, ltName, direction).Ok?
             && ObjectSets.KeywordClash(NormalizeFilters(rawFilters.keys, rawFilters.vals))) ==> r == Err(TypeError)
    ensures r.Ok? ==> (RelatedChecks(ont.Snapshot(), typeName, pk, ltName, direction).Ok?
      && r.value.0 == RelatedChecks(ont.Snapshot(), typeName, pk, ltName, direction).value.2)
    ensures r.Ok? ==> |r.value.1| <= ClampLimit(limit) && Seqs.NoDup(ObjectSets.Pks(r.value.1))
    ensures r.Ok? ==>
      && ObjectSets.AllQualify(ont.Snapshot(), [RelatedChecks(ont.Snapshot(), typeName, pk, ltName, direction).value.1],
                               ont.Snapshot().linkTypes.vals[ltName], r.value.0,
                               NormalizeFilters(rawFilters.keys, rawFilters.vals), derive, logic, r.value.1)
      && (|r.value.1| < ClampLimit(limit) ==>
            ObjectSets.Covers(ont.Snapshot(), [RelatedChecks(ont.Snapshot(), typeName, pk, ltName, direction).value.1],
                              ont.Snapshot().linkTypes.vals[ltName], r.value.0,
                              NormalizeFilters(rawFilters.keys, rawFilters.vals), derive, logic, r.value.1))
  {
    var filters := NormalizeFilters(rawFilters.keys, rawFilters.vals);
    var lim := ClampLimit(limit);
    var s := ont.Snapshot();
    var checks := RelatedChecks(s, typeName, pk, ltName, direction);
    if checks.Err? {
      return Err(checks.exc);
    }
    var (t, anchor, d) := checks.value;
    if ObjectSets.KeywordClash(filters) {
      return Err(TypeError);
    }
    var lt := s.linkTypes.vals[ltName];
    var far := if d == ObjectSets.Forward then lt.targetType else lt.sourceType;
    if far !in s.objectTypes.vals {
      return Err(ValueError);
    }
    var related := ObjectSets.Traverse(s, [anchor], lt, d, Some(lim), filters, derive, logic);
    if related.Err? {
      return Err(related.exc);
    }
    ObjectSets.TraversalOfSpec(s, [anchor], lt, d, Some(lim), filters, derive, logic, related.value);
    r := Ok((d, related.value.targets));
  }
}
