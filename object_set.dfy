/**
 * `ObjectSet` (src/ontology_framework/core.py): a typed collection of
 * objects, eager or lazy over the ontology's store, with filtering,
 * aggregation and link traversal under governance functions.
 */
module ObjectSets {
  import opened Wrappers
  import opened Values
  import opened Schema
  import PyDict
  import Seqs
  import opened DataSources
  import opened OntologyModel
  import opened Ontologies

  // ---------------------------------------------------------------------
  // Pure parts: filters, argument auto-fill, validation verdicts

  /** `_matches_filters`: every extra filter equals `obj.get(prop)` (derived properties included). */
  predicate MatchesFilters(o: ObjectInstance, filters: map<string, Value>, derive: (ObjectInstance, string) -> Value)
  {
    forall k :: k in filters ==> GetProp(o, k, derive) == filters[k]
  }

  /** The members of an eager `filter`: `property_values.get(prop) == value`, in order. */
  function Select(objs: seq<ObjectInstance>, prop: string, value: Value): (r: seq<ObjectInstance>)
    ensures forall o :: o in r <==> o in objs && PropOf(o, prop) == value
  {
    var r := Seqs.Filter(objs, (o: ObjectInstance) => PropOf(o, prop) == value);
    assert forall o :: o in r ==> o in objs && PropOf(o, prop) == value by {
      forall o | o in r ensures o in objs && PropOf(o, prop) == value {
        var i :| 0 <= i < |r| && r[i] == o;
      }
    }
    assert forall o :: o in objs && PropOf(o, prop) == value ==> o in r by {
      forall o | o in objs && PropOf(o, prop) == value ensures o in r {
        var i :| 0 <= i < |objs| && objs[i] == o;
      }
    }
    r
  }

  /** Chained eager filters intersect, in either order. */
  lemma ChainedFiltersIntersect(objs: seq<ObjectInstance>, p1: string, v1: Value, p2: string, v2: Value)
    ensures forall o :: o in Select(Select(objs, p1, v1), p2, v2) <==> o in objs && PropOf(o, p1) == v1 && PropOf(o, p2) == v2
    ensures forall o :: o in Select(Select(objs, p1, v1), p2, v2) <==> o in Select(Select(objs, p2, v2), p1, v1)
  {
  }

  /**
   * `_auto_fill_link_argument`: by (lower-cased) name first, then by object
   * type, then the link type's name for a primitive `link_type` argument.
   */
  function AutoFill(argName: string, spec: TypeSpec, lt: LinkType, src: ObjectInstance, tgt: ObjectInstance): (r: Option<Arg>)
    ensures Lower(argName) in {"source", "source_object"} ==> r == Some(AObj(src))
    ensures Lower(argName) in {"target", "target_object"} ==> r == Some(AObj(tgt))
    ensures r.Some? && r.value.AVal? ==> r.value == AVal(Str(lt.apiName)) && spec.Primitive?
    ensures r.Some? && r.value.AObj? ==> r.value.o == src || r.value.o == tgt
    ensures r.Some? ==> !r.value.ASet?
    ensures spec.ObjectTypeSpec? && r.Some? && Lower(argName) !in {"source", "source_object", "target", "target_object"}
      ==> r.value.AObj? && r.value.o.typeName == spec.objectType
  {
    var n := Lower(argName);
    if n in {"source", "source_object"} then Some(AObj(src))
    else if n in {"target", "target_object"} then Some(AObj(tgt))
    else if spec.ObjectTypeSpec? && spec.objectType == src.typeName then Some(AObj(src))
    else if spec.ObjectTypeSpec? && spec.objectType == tgt.typeName then Some(AObj(tgt))
    else if spec.Primitive? && n in {"link_type", "link_type_api_name"} then Some(AVal(Str(lt.apiName)))
    else None
  }

  /**
   * The keyword arguments `_execute_link_function` builds, input by input in
   * declaration order: an unfillable required input raises ValueError, an
   * unfillable optional one is left out.
   */
  function PrepareLinkArgs(inputs: map<string, FunctionArgument>, names: seq<string>, lt: LinkType,
                           src: ObjectInstance, tgt: ObjectInstance): (r: Result<map<string, Arg>>)
    ensures r.Ok? ==> forall k :: k in r.value ==>
      k in names && k in inputs && AutoFill(k, inputs[k].spec, lt, src, tgt) == Some(r.value[k])
    ensures r.Ok? ==> forall k :: k in names && k in inputs && inputs[k].required ==> k in r.value
    ensures r.Err? ==> r.exc == ValueError
  {
    if names == [] then Ok(map[])
    else
      match PrepareLinkArgs(inputs, names[1..], lt, src, tgt)
      case Err(e) => Err(e)
      case Ok(rest) =>
        var n := names[0];
        if n !in inputs then Ok(rest)
        else match AutoFill(n, inputs[n].spec, lt, src, tgt)
          case None => if inputs[n].required then Err(ValueError) else Ok(rest - {n})
          case Some(v) => Ok(rest[n := v])
  }

  /** `_execute_link_function`: lookup, auto-filled arguments, then `execute_function`. */
  function ExecuteLinkFunction(s: State, fnName: string, lt: LinkType, src: ObjectInstance, tgt: ObjectInstance,
                               logic: Logic): Result<Ret>
  {
    if fnName !in s.functions.vals then Err(ValueError)
    else
      var f := s.functions.vals[fnName];
      match PrepareLinkArgs(f.inputs.vals, f.inputs.keys, lt, src, tgt)
      case Err(e) => Err(e)
      case Ok(args) => ExecuteFunction(s, fnName, args, logic)
  }

  /** A validation result counts as valid: a dict by its `valid` entry (default True), anything else by truthiness. */
  predicate IsValid(r: Ret)
  {
    match r
    case RDict(d) => "valid" !in d || Truthy(d["valid"])
    case RVal(v) => Truthy(v)
  }

  /** `_passes_link_validations`: the functions run in order and the first invalid verdict stops the run. */
  function PassesValidations(s: State, fns: seq<string>, lt: LinkType, src: ObjectInstance, tgt: ObjectInstance,
                             logic: Logic): Result<bool>
  {
    if fns == [] then Ok(true)
    else match ExecuteLinkFunction(s, fns[0], lt, src, tgt, logic)
      case Err(e) => Err(e)
      case Ok(v) => if !IsValid(v) then Ok(false) else PassesValidations(s, fns[1..], lt, src, tgt, logic)
  }

  /** One governance function runs without raising and returns a valid verdict. */
  predicate RunsValid(s: State, fn: string, lt: LinkType, src: ObjectInstance, tgt: ObjectInstance, logic: Logic)
  {
    ExecuteLinkFunction(s, fn, lt, src, tgt, logic).Ok? && IsValid(ExecuteLinkFunction(s, fn, lt, src, tgt, logic).value)
  }

  /** Validation functions combine with AND: the pair passes iff every function runs and is valid. */
  lemma {:induction false} ValidationsAreConjunction(s: State, fns: seq<string>, lt: LinkType, src: ObjectInstance,
                                                     tgt: ObjectInstance, logic: Logic)
    ensures PassesValidations(s, fns, lt, src, tgt, logic) == Ok(true) <==>
      forall i :: 0 <= i < |fns| ==> RunsValid(s, fns[i], lt, src, tgt, logic)
  {
    if fns != [] {
      var tl := fns[1..];
      ValidationsAreConjunction(s, tl, lt, src, tgt, logic);
      if RunsValid(s, fns[0], lt, src, tgt, logic) && forall i :: 0 <= i < |tl| ==> RunsValid(s, tl[i], lt, src, tgt, logic) {
        forall i | 0 <= i < |fns| ensures RunsValid(s, fns[i], lt, src, tgt, logic) {
          if i > 0 { assert fns[i] == tl[i - 1]; }
        }
      }
      if forall i :: 0 <= i < |fns| ==> RunsValid(s, fns[i], lt, src, tgt, logic) {
        assert RunsValid(s, fns[0], lt, src, tgt, logic);
        forall i | 0 <= i < |tl| ensures RunsValid(s, tl[i], lt, src, tgt, logic) {
          assert tl[i] == fns[i + 1];
        }
      }
    }
  }

  // ---------------------------------------------------------------------
  // search_around

  datatype Direction = Forward | Reverse

  /**
   * The checks `search_around` makes before touching the set's members:
   * the link type, the direction (forward wins for a self-link) and the
   * type of the result set.
   */
  function ResolveTraversal(s: State, setType: string, ltName: string): Result<(LinkType, Direction, ObjectType)>
  {
    match PyDict.Get(s.linkTypes, ltName)
    case None => Err(ValueError)
    case Some(lt) =>
      if lt.sourceType != setType && lt.targetType != setType then Err(ValueError)
      else
        var dir := if lt.sourceType == setType then Forward else Reverse;
        var targetName := if dir == Forward then lt.targetType else lt.sourceType;
        match PyDict.Get(s.objectTypes, targetName)
        case None => Err(ValueError)
        case Some(tt) => Ok((lt, dir, tt))
  }

  lemma ResolveTraversalSpec(s: State, setType: string, ltName: string)
    ensures ltName !in s.linkTypes.vals ==> ResolveTraversal(s, setType, ltName) == Err(ValueError)
    ensures (ltName in s.linkTypes.vals && s.linkTypes.vals[ltName].sourceType != setType
      && s.linkTypes.vals[ltName].targetType != setType) ==> ResolveTraversal(s, setType, ltName) == Err(ValueError)
    ensures ResolveTraversal(s, setType, ltName).Ok? ==>
      var (lt, dir, tt) := ResolveTraversal(s, setType, ltName).value;
      && lt == s.linkTypes.vals[ltName]
      && (dir == Forward <==> lt.sourceType == setType)
      && (dir == Reverse ==> lt.targetType == setType)
      && (dir == Forward ==> lt.targetType in s.objectTypes.vals && s.objectTypes.vals[lt.targetType] == tt)
      && (dir == Reverse ==> lt.sourceType in s.objectTypes.vals && s.objectTypes.vals[lt.sourceType] == tt)
  {
  }

  /** `{obj.primary_key_value: obj for obj in members}`: the last member with that key. */
  function MemberByPk(members: seq<ObjectInstance>, pk: Value): (r: Option<ObjectInstance>)
    ensures r.Some? ==> r.value in members && r.value.pk == pk
    ensures r.None? <==> forall i :: 0 <= i < |members| ==> members[i].pk != pk
  {
    if members == [] then None
    else if members[|members| - 1].pk == pk then Some(members[|members| - 1])
    else MemberByPk(members[..|members| - 1], pk)
  }

  /**
   * The (source, target) pair of a link of the traversed type, in the
   * link's own orientation: going forward a member at the link's source
   * and the stored object at its target; in reverse the stored object at
   * the link's source and a member at its target.  None when either end
   * is missing.
   */
  function Reach(s: State, members: seq<ObjectInstance>, lt: LinkType, dir: Direction, l: Link)
    : Result<Option<(ObjectInstance, ObjectInstance)>>
  {
    if dir == Forward then
      match MemberByPk(members, l.source)
      case None => Ok(None)
      case Some(so) =>
        match GetObject(s, lt.targetType, l.target)
        case Err(e) => Err(e)
        case Ok(to) => if to.None? then Ok(None) else Ok(Some((so, to.value)))
    else
      match MemberByPk(members, l.target)
      case None => Ok(None)
      case Some(to) =>
        match GetObject(s, lt.sourceType, l.source)
        case Err(e) => Err(e)
        case Ok(so) => if so.None? then Ok(None) else Ok(Some((so.value, to)))
  }

  /**
   * The end of a reached pair away from the set: the target going forward,
   * the source in reverse. The source collects the pair's target in both
   * directions (`ReverseCollectsMember`); the model collects this far end,
   * which is what a reverse traversal is for.
   */
  function Far(dir: Direction, pair: (ObjectInstance, ObjectInstance)): ObjectInstance
  {
    if dir == Forward then pair.1 else pair.0
  }

  /** A link of the traversed type whose pair passes validation and whose far end passes the extra filters. */
  predicate Qualifies(s: State, members: seq<ObjectInstance>, lt: LinkType, dir: Direction, l: Link,
                      filters: map<string, Value>, derive: (ObjectInstance, string) -> Value, logic: Logic)
  {
    && l.linkType == lt.apiName
    && Reach(s, members, lt, dir, l).Ok?
    && Reach(s, members, lt, dir, l).value.Some?
    && var pair := Reach(s, members, lt, dir, l).value.value;
       PassesValidations(s, lt.validationFunctions, lt, pair.0, pair.1, logic) == Ok(true)
       && MatchesFilters(Far(dir, pair), filters, derive)
  }

  /** The object a reached link contributes to the result: its far end. */
  function TargetOf(s: State, members: seq<ObjectInstance>, lt: LinkType, dir: Direction, l: Link): ObjectInstance
    requires Reach(s, members, lt, dir, l).Ok? && Reach(s, members, lt, dir, l).value.Some?
  {
    Far(dir, Reach(s, members, lt, dir, l).value.value)
  }

  /**
   * As written, `search_around` collects `target_obj` in both directions;
   * in reverse that is the set's own member at the link's target, so a
   * reverse traversal returns members of the set it started from.
   */
  lemma ReverseCollectsMember(s: State, members: seq<ObjectInstance>, lt: LinkType, l: Link)
    requires Reach(s, members, lt, Reverse, l).Ok? && Reach(s, members, lt, Reverse, l).value.Some?
    ensures Reach(s, members, lt, Reverse, l).value.value.1 == MemberByPk(members, l.target).value
    ensures Reach(s, members, lt, Reverse, l).value.value.1 in members
  {
  }

  /**
   * The far end a link contributes is the object stored at the other end:
   * under the link's target going forward and under its source in reverse,
   * whether or not it is a member.
   */
  lemma TargetIsFarEnd(s: State, members: seq<ObjectInstance>, lt: LinkType, dir: Direction, l: Link)
    requires Reach(s, members, lt, dir, l).Ok? && Reach(s, members, lt, dir, l).value.Some?
    ensures dir == Forward ==> GetObject(s, lt.targetType, l.target) == Ok(Some(TargetOf(s, members, lt, dir, l)))
    ensures dir == Reverse ==> GetObject(s, lt.sourceType, l.source) == Ok(Some(TargetOf(s, members, lt, dir, l)))
    ensures dir == Forward ==> MemberByPk(members, l.source).Some?
    ensures dir == Reverse ==> MemberByPk(members, l.target).Some?
  {
  }

  function Pks(objs: seq<ObjectInstance>): (r: seq<Value>)
    ensures |r| == |objs| && forall i :: 0 <= i < |objs| ==> r[i] == objs[i].pk
  {
    seq(|objs|, i requires 0 <= i < |objs| => objs[i].pk)
  }

  predicate HasScoring(lt: LinkType)
  {
    lt.scoringFunction.Some? && lt.scoringFunction.value != ""
  }

  /** The link type's scoring function run on a reached pair. */
  function LinkScore(s: State, members: seq<ObjectInstance>, lt: LinkType, dir: Direction, l: Link, logic: Logic)
    : Result<Ret>
    requires Reach(s, members, lt, dir, l).Ok? && Reach(s, members, lt, dir, l).value.Some? && HasScoring(lt)
  {
    var pair := Reach(s, members, lt, dir, l).value.value;
    ExecuteLinkFunction(s, lt.scoringFunction.value, lt, pair.0, pair.1, logic)
  }

  /** What one link contributes: an object and, when the link type scores, its score. */
  datatype Hit = Hit(obj: ObjectInstance, score: Option<Ret>)

  /**
   * A link of the traversed type raises: the far end's lookup fails, a
   * validation function fails, or the link qualifies and its scoring
   * function fails.
   */
  predicate Raises(s: State, members: seq<ObjectInstance>, lt: LinkType, dir: Direction, l: Link,
                   filters: map<string, Value>, derive: (ObjectInstance, string) -> Value, logic: Logic)
  {
    && l.linkType == lt.apiName
    && (|| Reach(s, members, lt, dir, l).Err?
        || (&& Reach(s, members, lt, dir, l).value.Some?
            && var pair := Reach(s, members, lt, dir, l).value.value;
               || PassesValidations(s, lt.validationFunctions, lt, pair.0, pair.1, logic).Err?
               || (Qualifies(s, members, lt, dir, l, filters, derive, logic) && HasScoring(lt)
                   && LinkScore(s, members, lt, dir, l, logic).Err?)))
  }

  /** One iteration of the traversal loop, on one stored link. */
  function Visit(s: State, members: seq<ObjectInstance>, lt: LinkType, dir: Direction, l: Link,
                 filters: map<string, Value>, derive: (ObjectInstance, string) -> Value, logic: Logic)
    : Result<Option<Hit>>
  {
    if l.linkType != lt.apiName then Ok(None)
    else
      match Reach(s, members, lt, dir, l)
      case Err(e) => Err(e)
      case Ok(None) => Ok(None)
      case Ok(Some(pair)) =>
        match PassesValidations(s, lt.validationFunctions, lt, pair.0, pair.1, logic)
        case Err(e) => Err(e)
        case Ok(valid) =>
          if !(valid && MatchesFilters(Far(dir, pair), filters, derive)) then Ok(None)
          else if !HasScoring(lt) then Ok(Some(Hit(Far(dir, pair), None)))
          else
            match ExecuteLinkFunction(s, lt.scoringFunction.value, lt, pair.0, pair.1, logic)
            case Err(e) => Err(e)
            case Ok(sc) => Ok(Some(Hit(Far(dir, pair), Some(sc))))
  }

  /**
   * One link yields the far end of a qualifying link, scored exactly when
   * the link type has a scoring function, with that function's result;
   * nothing for any other link; an error exactly when the link raises.
   */
  lemma VisitSpec(s: State, members: seq<ObjectInstance>, lt: LinkType, dir: Direction, l: Link,
                  filters: map<string, Value>, derive: (ObjectInstance, string) -> Value, logic: Logic,
                  r: Result<Option<Hit>>)
    requires r == Visit(s, members, lt, dir, l, filters, derive, logic)
    ensures r.Err? <==> Raises(s, members, lt, dir, l, filters, derive, logic)
    ensures r.Ok? ==> (r.value.Some? <==> Qualifies(s, members, lt, dir, l, filters, derive, logic))
    ensures r.Ok? && r.value.Some? ==> r.value.value.obj == TargetOf(s, members, lt, dir, l)
    ensures r.Ok? && r.value.Some? && HasScoring(lt) ==>
      r.value.value.score.Some? && LinkScore(s, members, lt, dir, l, logic) == Ok(r.value.value.score.value)
    ensures r.Ok? && r.value.Some? && !HasScoring(lt) ==> r.value.value.score.None?
  {
  }

  /** What `search_around` returns: the targets and the score written for each target's key. */
  datatype Traversal = Traversal(targets: seq<ObjectInstance>, scores: map<Value, Ret>)

  /** The loop's state: the targets so far, the scores written, and whether an append reached the limit. */
  datatype Progress = Progress(targets: seq<ObjectInstance>, scores: map<Value, Ret>, stopped: bool)

  /**
   * One link's contribution folded in: its score is written first, then
   * its object is appended unless its key is already there, and the loop
   * stops when that append reaches the limit.
   */
  function Absorb(p: Progress, h: Option<Hit>, limit: Option<int>): Progress
  {
    match h
    case None => p
    case Some(hit) =>
      var scores := if hit.score.Some? then p.scores[hit.obj.pk := hit.score.value] else p.scores;
      if hit.obj.pk in Pks(p.targets) then p.(scores := scores)
      else
        var targets := p.targets + [hit.obj];
        Progress(targets, scores, limit.Some? && |targets| >= limit.value)
  }

  // The loop, its reference answers and their properties, over any
  // sequence of per-link contributions.

  /** The loop over the first `n` contributions: it raises at the first error and stops once an append reaches the limit. */
  function Run(vs: seq<Result<Option<Hit>>>, limit: Option<int>, n: nat): Result<Progress>
    requires n <= |vs|
  {
    if n == 0 then Ok(Progress([], map[], false))
    else
      match Run(vs, limit, n - 1)
      case Err(e) => Err(e)
      case Ok(p) =>
        if p.stopped then Ok(p)
        else
          match vs[n - 1]
          case Err(e) => Err(e)
          case Ok(h) => Ok(Absorb(p, h, limit))
  }

  /** How many of the first `n` contributions the loop examined: up to the append that reached the limit. */
  function Examined(vs: seq<Result<Option<Hit>>>, limit: Option<int>, n: nat): (k: nat)
    requires n <= |vs|
    ensures k <= n
  {
    if n == 0 then 0
    else if Run(vs, limit, n - 1).Ok? && Run(vs, limit, n - 1).value.stopped then Examined(vs, limit, n - 1)
    else n
  }

  predicate Found(v: Result<Option<Hit>>)
  {
    v.Ok? && v.value.Some?
  }

  predicate Scored(v: Result<Option<Hit>>)
  {
    Found(v) && v.value.value.score.Some?
  }

  /** The objects the contributions carry, None where a contribution carries none. */
  function Objects(vs: seq<Result<Option<Hit>>>): (os: seq<Option<ObjectInstance>>)
    ensures |os| == |vs|
    ensures forall i :: 0 <= i < |vs| ==> os[i] == if Found(vs[i]) then Some(vs[i].value.value.obj) else None
  {
    seq(|vs|, i requires 0 <= i < |vs| => if Found(vs[i]) then Some(vs[i].value.value.obj) else None)
  }

  /** The objects among the first `n`, each key once, in the order the key first appears. */
  function Firsts(os: seq<Option<ObjectInstance>>, n: nat): seq<ObjectInstance>
    requires n <= |os|
  {
    if n == 0 then []
    else
      var t := Firsts(os, n - 1);
      if os[n - 1].Some? && os[n - 1].value.pk !in Pks(t) then t + [os[n - 1].value] else t
  }

  /** For each key, the score of the last scored contribution to it among the first `n`. */
  function Lasts(vs: seq<Result<Option<Hit>>>, n: nat): map<Value, Ret>
    requires n <= |vs|
  {
    if n == 0 then map[]
    else
      var m := Lasts(vs, n - 1);
      if Scored(vs[n - 1]) then m[vs[n - 1].value.value.obj.pk := vs[n - 1].value.value.score.value] else m
  }

  predicate AllOk(vs: seq<Result<Option<Hit>>>, k: nat)
    requires k <= |vs|
  {
    forall j :: 0 <= j < k ==> vs[j].Ok?
  }

  /** Contribution `j` is the last scored one to key `pk` among the first `n`, with score `score`. */
  predicate LastAt(vs: seq<Result<Option<Hit>>>, n: nat, j: nat, pk: Value, score: Ret)
    requires j < n <= |vs|
  {
    && Scored(vs[j]) && vs[j].value.value.obj.pk == pk && vs[j].value.value.score == Some(score)
    && forall i :: j < i < n ==> !(Scored(vs[i]) && vs[i].value.value.obj.pk == pk)
  }

  lemma AbsorbStep(vs: seq<Result<Option<Hit>>>, limit: Option<int>, n: nat, p: Progress)
    requires 0 < n <= |vs| && vs[n - 1].Ok?
    requires p.targets == Firsts(Objects(vs), n - 1) && p.scores == Lasts(vs, n - 1)
    requires !p.stopped && (limit.Some? ==> |p.targets| < limit.value)
    ensures var q := Absorb(p, vs[n - 1].value, limit);
      && q.targets == Firsts(Objects(vs), n) && q.scores == Lasts(vs, n)
      && (limit.Some? ==> |q.targets| <= limit.value)
      && (q.stopped <==> limit.Some? && |q.targets| == limit.value)
  {
    assert Objects(vs)[n - 1] == if Found(vs[n - 1]) then Some(vs[n - 1].value.value.obj) else None;
  }

  /**
   * The loop agrees with the reference: the contributions it examined
   * (all of them unless the limit stopped it) are all Ok, its targets are
   * `Firsts` of them and its scores `Lasts`; it stops exactly when the
   * targets reach the limit.
   */
  lemma {:induction false} RunSpec(vs: seq<Result<Option<Hit>>>, limit: Option<int>, n: nat)
    requires n <= |vs| && (limit.None? || limit.value > 0)
    requires Run(vs, limit, n).Ok?
    ensures !Run(vs, limit, n).value.stopped ==> Examined(vs, limit, n) == n
    ensures AllOk(vs, Examined(vs, limit, n))
    ensures Run(vs, limit, n).value.targets == Firsts(Objects(vs), Examined(vs, limit, n))
    ensures Run(vs, limit, n).value.scores == Lasts(vs, Examined(vs, limit, n))
    ensures limit.Some? ==> |Run(vs, limit, n).value.targets| <= limit.value
    ensures Run(vs, limit, n).value.stopped <==> limit.Some? && |Run(vs, limit, n).value.targets| == limit.value
  {
    if n > 0 {
      var prev := Run(vs, limit, n - 1);
      assert prev.Ok?;
      RunSpec(vs, limit, n - 1);
      if !prev.value.stopped {
        assert vs[n - 1].Ok?;
        AbsorbStep(vs, limit, n, prev.value);
        assert AllOk(vs, n) by {
          forall j | 0 <= j < n ensures vs[j].Ok? {
            if j < n - 1 {
              assert AllOk(vs, n - 1);
            }
          }
        }
      }
    }
  }

  /** When the loop raises, it is with the error of a contribution reached while the loop was still running. */
  lemma {:induction false} RunRaises(vs: seq<Result<Option<Hit>>>, limit: Option<int>, n: nat)
    requires n <= |vs| && Run(vs, limit, n).Err?
    ensures exists j :: && 0 <= j < n && Run(vs, limit, j).Ok? && !Run(vs, limit, j).value.stopped
                         && vs[j] == Err(Run(vs, limit, n).exc)
  {
    var prev := Run(vs, limit, n - 1);
    if prev.Err? {
      RunRaises(vs, limit, n - 1);
    } else {
      assert !prev.value.stopped && vs[n - 1] == Err(Run(vs, limit, n).exc);
    }
  }

  /** Once the loop raised or stopped, the remaining contributions change nothing. */
  lemma {:induction false} Settled(vs: seq<Result<Option<Hit>>>, limit: Option<int>, n: nat)
    requires n <= |vs|
    requires Run(vs, limit, n).Err? || Run(vs, limit, n).value.stopped
    ensures Run(vs, limit, |vs|) == Run(vs, limit, n)
    decreases |vs| - n
  {
    if n < |vs| {
      Settled(vs, limit, n + 1);
    }
  }

  /**
   * `Firsts` holds no key twice, only objects that appear, and the key of
   * every object that appears.
   */
  lemma {:induction false} FirstsSpec(os: seq<Option<ObjectInstance>>, n: nat)
    requires n <= |os|
    ensures Seqs.NoDup(Pks(Firsts(os, n)))
    ensures forall o :: o in Firsts(os, n) ==> exists j :: 0 <= j < n && os[j] == Some(o)
    ensures forall j :: 0 <= j < n && os[j].Some? ==> os[j].value.pk in Pks(Firsts(os, n))
  {
    if n > 0 {
      FirstsSpec(os, n - 1);
      var t := Firsts(os, n - 1);
      if os[n - 1].Some? && os[n - 1].value.pk !in Pks(t) {
        var o := os[n - 1].value;
        NoDupAppend(t, o);
        assert Pks(t + [o]) == Pks(t) + [o.pk];
        forall x | x in t + [o] ensures exists j :: 0 <= j < n && os[j] == Some(x) {
          if x != o {
            assert x in t;
          }
        }
      }
    }
  }

  /** The objects found in the first `m` come first, in the same order, among those of the first `n`. */
  lemma {:induction false} FirstsGrow(os: seq<Option<ObjectInstance>>, m: nat, n: nat)
    requires m <= n <= |os|
    ensures |Firsts(os, m)| <= |Firsts(os, n)| && Firsts(os, n)[..|Firsts(os, m)|] == Firsts(os, m)
    decreases n - m
  {
    if m < n {
      FirstsGrow(os, m, n - 1);
      var tm := Firsts(os, m);
      var t1 := Firsts(os, n - 1);
      var tn := Firsts(os, n);
      assert tn[..|t1|] == t1;
      assert tn[..|tm|] == t1[..|tm|];
    }
  }

  /** `Firsts` depends only on the first `n` entries. */
  lemma {:induction false} FirstsAgree(os: seq<Option<ObjectInstance>>, ws: seq<Option<ObjectInstance>>, n: nat)
    requires n <= |os| && n <= |ws|
    requires forall j :: 0 <= j < n ==> os[j] == ws[j]
    ensures Firsts(os, n) == Firsts(ws, n)
  {
    if n > 0 {
      FirstsAgree(os, ws, n - 1);
    }
  }

  /**
   * `Lasts` holds a score for the key of every scored contribution, and
   * each score it holds is that of the last scored contribution to its key.
   */
  lemma {:induction false} LastsSpec(vs: seq<Result<Option<Hit>>>, n: nat)
    requires n <= |vs|
    ensures forall j :: 0 <= j < n && Scored(vs[j]) ==> vs[j].value.value.obj.pk in Lasts(vs, n)
    ensures forall pk :: pk in Lasts(vs, n) ==> exists j :: 0 <= j < n && LastAt(vs, n, j, pk, Lasts(vs, n)[pk])
  {
    if n > 0 {
      LastsSpec(vs, n - 1);
      var m0 := Lasts(vs, n - 1);
      var m := Lasts(vs, n);
      forall pk | pk in m ensures exists j :: 0 <= j < n && LastAt(vs, n, j, pk, m[pk]) {
        if Scored(vs[n - 1]) && vs[n - 1].value.value.obj.pk == pk {
          assert LastAt(vs, n, n - 1, pk, m[pk]);
        } else {
          assert pk in m0 && m[pk] == m0[pk];
          var n1 := n - 1;
          var j :| 0 <= j < n1 && LastAt(vs, n1, j, pk, m0[pk]);
          assert LastAt(vs, n, j, pk, m[pk]) by {
            forall i | j < i < n ensures !(Scored(vs[i]) && vs[i].value.value.obj.pk == pk) {
              if i < n1 {
                assert LastAt(vs, n1, j, pk, m0[pk]);
              }
            }
          }
        }
      }
      forall j | 0 <= j < n && Scored(vs[j]) ensures vs[j].value.value.obj.pk in m {
        if j < n - 1 {
          assert vs[j].value.value.obj.pk in m0;
        }
      }
    }
  }

  // The loop over the stored links.

  /** What each stored link contributes, in the order the links are stored. */
  function Visits(s: State, members: seq<ObjectInstance>, lt: LinkType, dir: Direction,
                  filters: map<string, Value>, derive: (ObjectInstance, string) -> Value, logic: Logic)
    : (vs: seq<Result<Option<Hit>>>)
    ensures |vs| == |s.links|
    ensures forall i :: 0 <= i < |s.links| ==> vs[i] == Visit(s, members, lt, dir, s.links[i], filters, derive, logic)
  {
    seq(|s.links|, i requires 0 <= i < |s.links| => Visit(s, members, lt, dir, s.links[i], filters, derive, logic))
  }

  /** The loop over every stored link, as `search_around` returns it. */
  function TraversalOf(s: State, members: seq<ObjectInstance>, lt: LinkType, dir: Direction, limit: Option<int>,
                       filters: map<string, Value>, derive: (ObjectInstance, string) -> Value, logic: Logic)
    : Result<Traversal>
  {
    match Run(Visits(s, members, lt, dir, filters, derive, logic), limit, |s.links|)
    case Err(e) => Err(e)
    case Ok(p) => Ok(Traversal(p.targets, p.scores))
  }

  /** How many stored links the loop examined before the limit stopped it (all of them when it did not). */
  function LinksExamined(s: State, members: seq<ObjectInstance>, lt: LinkType, dir: Direction, limit: Option<int>,
                         filters: map<string, Value>, derive: (ObjectInstance, string) -> Value, logic: Logic)
    : (k: nat)
    ensures k <= |s.links|
  {
    Examined(Visits(s, members, lt, dir, filters, derive, logic), limit, |s.links|)
  }

  /** The far end of each stored link that qualifies, None for the others. */
  function FarEnds(s: State, members: seq<ObjectInstance>, lt: LinkType, dir: Direction,
                   filters: map<string, Value>, derive: (ObjectInstance, string) -> Value, logic: Logic)
    : (os: seq<Option<ObjectInstance>>)
    ensures |os| == |s.links|
    ensures forall i :: 0 <= i < |s.links| ==>
      os[i] == if Qualifies(s, members, lt, dir, s.links[i], filters, derive, logic)
               then Some(TargetOf(s, members, lt, dir, s.links[i])) else None
  {
    seq(|s.links|, i requires 0 <= i < |s.links| =>
      if Qualifies(s, members, lt, dir, s.links[i], filters, derive, logic)
      then Some(TargetOf(s, members, lt, dir, s.links[i])) else None)
  }

  /**
   * The reference answer: the far ends of the qualifying links among the
   * first `n`, each key once, in the order of its first qualifying link.
   */
  function FirstTargets(s: State, members: seq<ObjectInstance>, lt: LinkType, dir: Direction,
                        filters: map<string, Value>, derive: (ObjectInstance, string) -> Value, logic: Logic, n: nat)
    : seq<ObjectInstance>
    requires n <= |s.links|
  {
    Firsts(FarEnds(s, members, lt, dir, filters, derive, logic), n)
  }

  /**
   * The reference answer holds no key twice, only far ends of qualifying
   * links, and the key of every qualifying link's far end; a longer prefix
   * of the links only appends to it.
   */
  lemma FirstTargetsSpec(s: State, members: seq<ObjectInstance>, lt: LinkType, dir: Direction,
                         filters: map<string, Value>, derive: (ObjectInstance, string) -> Value, logic: Logic,
                         n: nat, t: seq<ObjectInstance>)
    requires n <= |s.links| && t == FirstTargets(s, members, lt, dir, filters, derive, logic, n)
    ensures Seqs.NoDup(Pks(t))
    ensures forall o :: o in t ==>
      exists j :: 0 <= j < n && Qualifies(s, members, lt, dir, s.links[j], filters, derive, logic)
                  && TargetOf(s, members, lt, dir, s.links[j]) == o
    ensures forall j :: 0 <= j < n && Qualifies(s, members, lt, dir, s.links[j], filters, derive, logic) ==>
      TargetOf(s, members, lt, dir, s.links[j]).pk in Pks(t)
    ensures forall m :: 0 <= m <= n ==>
      |FirstTargets(s, members, lt, dir, filters, derive, logic, m)| <= |t|
      && t[..|FirstTargets(s, members, lt, dir, filters, derive, logic, m)|]
         == FirstTargets(s, members, lt, dir, filters, derive, logic, m)
  {
    var os := FarEnds(s, members, lt, dir, filters, derive, logic);
    FirstsSpec(os, n);
    forall o | o in t
      ensures exists j :: && 0 <= j < n && Qualifies(s, members, lt, dir, s.links[j], filters, derive, logic)
                          && TargetOf(s, members, lt, dir, s.links[j]) == o
    {
      var j :| 0 <= j < n && os[j] == Some(o);
    }
    forall j | 0 <= j < n && Qualifies(s, members, lt, dir, s.links[j], filters, derive, logic)
      ensures TargetOf(s, members, lt, dir, s.links[j]).pk in Pks(t)
    {
      assert os[j].Some?;
    }
    forall m | 0 <= m <= n
      ensures |FirstTargets(s, members, lt, dir, filters, derive, logic, m)| <= |t|
              && t[..|FirstTargets(s, members, lt, dir, filters, derive, logic, m)|]
                 == FirstTargets(s, members, lt, dir, filters, derive, logic, m)
    {
      FirstsGrow(os, m, n);
    }
  }

  /** What a stored link contributes, read back in the terms of `Visit`'s contract. */
  lemma VisitAt(s: State, members: seq<ObjectInstance>, lt: LinkType, dir: Direction,
                filters: map<string, Value>, derive: (ObjectInstance, string) -> Value, logic: Logic, i: nat)
    requires i < |s.links|
    ensures var v := Visits(s, members, lt, dir, filters, derive, logic)[i];
      var l := s.links[i];
      && (v.Err? <==> Raises(s, members, lt, dir, l, filters, derive, logic))
      && (v.Ok? ==> (Found(v) <==> Qualifies(s, members, lt, dir, l, filters, derive, logic)))
      && (v.Ok? ==> Objects(Visits(s, members, lt, dir, filters, derive, logic))[i]
                    == FarEnds(s, members, lt, dir, filters, derive, logic)[i])
      && (Found(v) ==> (Scored(v) <==> HasScoring(lt)))
      && (Scored(v) ==> LinkScore(s, members, lt, dir, l, logic) == Ok(v.value.value.score.value))
  {
    VisitSpec(s, members, lt, dir, s.links[i], filters, derive, logic, Visits(s, members, lt, dir, filters, derive, logic)[i]);
  }

  /** Every link among the first `k` runs without raising. */
  predicate NoneRaise(s: State, members: seq<ObjectInstance>, lt: LinkType, dir: Direction,
                      filters: map<string, Value>, derive: (ObjectInstance, string) -> Value, logic: Logic, k: nat)
    requires k <= |s.links|
  {
    forall j :: 0 <= j < k ==> !Raises(s, members, lt, dir, s.links[j], filters, derive, logic)
  }

  lemma AllOkNoneRaise(s: State, members: seq<ObjectInstance>, lt: LinkType, dir: Direction,
                       filters: map<string, Value>, derive: (ObjectInstance, string) -> Value, logic: Logic, k: nat)
    requires k <= |s.links|
    ensures AllOk(Visits(s, members, lt, dir, filters, derive, logic), k)
            <==> NoneRaise(s, members, lt, dir, filters, derive, logic, k)
  {
    var vs := Visits(s, members, lt, dir, filters, derive, logic);
    forall j | 0 <= j < k ensures vs[j].Ok? <==> !Raises(s, members, lt, dir, s.links[j], filters, derive, logic) {
      VisitAt(s, members, lt, dir, filters, derive, logic, j);
    }
  }

  /**
   * The targets of `search_around`: over the links the loop examined
   * (all of them unless the limit was reached) none raised, and the
   * targets are the reference answer over those links, so a prefix of
   * the reference answer over every link; never more than the limit.
   */
  lemma TraversalTargets(s: State, members: seq<ObjectInstance>, lt: LinkType, dir: Direction, limit: Option<int>,
                         filters: map<string, Value>, derive: (ObjectInstance, string) -> Value, logic: Logic,
                         t: Traversal, k: nat)
    requires limit.None? || limit.value > 0
    requires TraversalOf(s, members, lt, dir, limit, filters, derive, logic) == Ok(t)
    requires k == LinksExamined(s, members, lt, dir, limit, filters, derive, logic)
    ensures NoneRaise(s, members, lt, dir, filters, derive, logic, k)
    ensures t.targets == FirstTargets(s, members, lt, dir, filters, derive, logic, k)
    ensures limit.Some? ==> |t.targets| <= limit.value
    ensures (limit.None? || |t.targets| < limit.value) ==> k == |s.links|
  {
    var vs := Visits(s, members, lt, dir, filters, derive, logic);
    RunSpec(vs, limit, |s.links|);
    AllOkNoneRaise(s, members, lt, dir, filters, derive, logic, k);
    var os := FarEnds(s, members, lt, dir, filters, derive, logic);
    forall j | 0 <= j < k ensures Objects(vs)[j] == os[j] {
      VisitAt(s, members, lt, dir, filters, derive, logic, j);
    }
    FirstsAgree(Objects(vs), os, k);
  }

  /**
   * The targets of `search_around`, stated directly: no key twice, at
   * most `limit` of them, only far ends of qualifying links, and the far
   * end of every qualifying link when the limit was not reached.
   */
  lemma TraversalOfSpec(s: State, members: seq<ObjectInstance>, lt: LinkType, dir: Direction, limit: Option<int>,
                        filters: map<string, Value>, derive: (ObjectInstance, string) -> Value, logic: Logic,
                        t: Traversal)
    requires limit.None? || limit.value > 0
    requires TraversalOf(s, members, lt, dir, limit, filters, derive, logic) == Ok(t)
    ensures Seqs.NoDup(Pks(t.targets))
    ensures limit.Some? ==> |t.targets| <= limit.value
    ensures AllQualify(s, members, lt, dir, filters, derive, logic, t.targets)
    ensures (limit.None? || |t.targets| < limit.value) ==> Covers(s, members, lt, dir, filters, derive, logic, t.targets)
  {
    var k := LinksExamined(s, members, lt, dir, limit, filters, derive, logic);
    TraversalTargets(s, members, lt, dir, limit, filters, derive, logic, t, k);
    FirstTargetsSpec(s, members, lt, dir, filters, derive, logic, k, t.targets);
  }

  /**
   * The scores of `search_around`: when the link type scores, every target
   * has one, and it is what the scoring function gave the last qualifying
   * link to that target among those examined; no other key has one; when
   * it does not score, there are none.
   */
  lemma TraversalScores(s: State, members: seq<ObjectInstance>, lt: LinkType, dir: Direction, limit: Option<int>,
                        filters: map<string, Value>, derive: (ObjectInstance, string) -> Value, logic: Logic,
                        t: Traversal, k: nat)
    requires limit.None? || limit.value > 0
    requires TraversalOf(s, members, lt, dir, limit, filters, derive, logic) == Ok(t)
    requires k == LinksExamined(s, members, lt, dir, limit, filters, derive, logic)
    ensures HasScoring(lt) ==> forall o :: o in t.targets ==>
      o.pk in t.scores
      && exists j :: 0 <= j < k && LastScoreAt(s, members, lt, dir, filters, derive, logic, k, j, o.pk, t.scores[o.pk])
    ensures forall pk :: pk in t.scores ==> pk in Pks(t.targets)
    ensures !HasScoring(lt) ==> t.scores == map[]
  {
    var vs := Visits(s, members, lt, dir, filters, derive, logic);
    RunSpec(vs, limit, |s.links|);
    ScoredKeysFound(vs, k);
    if HasScoring(lt) {
      TargetsScored(s, members, lt, dir, filters, derive, logic, vs, k);
    } else {
      UnscoredLinks(s, members, lt, dir, filters, derive, logic, k);
    }
  }

  /** Every key with a score is the key of an object found. */
  lemma ScoredKeysFound(vs: seq<Result<Option<Hit>>>, k: nat)
    requires k <= |vs|
    ensures forall pk :: pk in Lasts(vs, k) ==> pk in Pks(Firsts(Objects(vs), k))
  {
    FirstsSpec(Objects(vs), k);
    LastsSpec(vs, k);
    forall pk | pk in Lasts(vs, k) ensures pk in Pks(Firsts(Objects(vs), k)) {
      var j :| 0 <= j < k && LastAt(vs, k, j, pk, Lasts(vs, k)[pk]);
      assert Objects(vs)[j].Some?;
    }
  }

  /** With a scoring link type, every target found among the first `k` links has its last qualifying link's score. */
  lemma TargetsScored(s: State, members: seq<ObjectInstance>, lt: LinkType, dir: Direction,
                      filters: map<string, Value>, derive: (ObjectInstance, string) -> Value, logic: Logic,
                      vs: seq<Result<Option<Hit>>>, k: nat)
    requires vs == Visits(s, members, lt, dir, filters, derive, logic)
    requires k <= |s.links| && HasScoring(lt) && AllOk(vs, k)
    ensures forall o :: o in Firsts(Objects(vs), k) ==>
      o.pk in Lasts(vs, k)
      && exists j :: 0 <= j < k && LastScoreAt(s, members, lt, dir, filters, derive, logic, k, j, o.pk, Lasts(vs, k)[o.pk])
  {
    FirstsSpec(Objects(vs), k);
    LastsSpec(vs, k);
    var m := Lasts(vs, k);
    forall o | o in Firsts(Objects(vs), k)
      ensures o.pk in m
      ensures exists j :: 0 <= j < k && LastScoreAt(s, members, lt, dir, filters, derive, logic, k, j, o.pk, m[o.pk])
    {
      var j :| 0 <= j < k && Objects(vs)[j] == Some(o);
      VisitAt(s, members, lt, dir, filters, derive, logic, j);
      assert Scored(vs[j]) && vs[j].value.value.obj == o;
      assert o.pk in m;
      var j' :| 0 <= j' < k && LastAt(vs, k, j', o.pk, m[o.pk]);
      LastAtIsLastScoreAt(s, members, lt, dir, filters, derive, logic, k, j', o.pk, m[o.pk]);
    }
  }

  /** Without a scoring function no score is written. */
  lemma UnscoredLinks(s: State, members: seq<ObjectInstance>, lt: LinkType, dir: Direction,
                      filters: map<string, Value>, derive: (ObjectInstance, string) -> Value, logic: Logic, k: nat)
    requires k <= |s.links| && !HasScoring(lt)
    ensures Lasts(Visits(s, members, lt, dir, filters, derive, logic), k) == map[]
  {
    var vs := Visits(s, members, lt, dir, filters, derive, logic);
    LastsSpec(vs, k);
    forall pk | pk in Lasts(vs, k) ensures false {
      var j :| 0 <= j < k && LastAt(vs, k, j, pk, Lasts(vs, k)[pk]);
      VisitAt(s, members, lt, dir, filters, derive, logic, j);
    }
  }

  /** Every object of `targets` is the far end of a qualifying stored link. */
  predicate AllQualify(s: State, members: seq<ObjectInstance>, lt: LinkType, dir: Direction,
                       filters: map<string, Value>, derive: (ObjectInstance, string) -> Value, logic: Logic,
                       targets: seq<ObjectInstance>)
  {
    forall o :: o in targets ==>
      exists i :: 0 <= i < |s.links| && Qualifies(s, members, lt, dir, s.links[i], filters, derive, logic)
                  && TargetOf(s, members, lt, dir, s.links[i]) == o
  }

  /** The key of the far end of every qualifying stored link is among `targets`. */
  predicate Covers(s: State, members: seq<ObjectInstance>, lt: LinkType, dir: Direction,
                   filters: map<string, Value>, derive: (ObjectInstance, string) -> Value, logic: Logic,
                   targets: seq<ObjectInstance>)
  {
    forall i :: 0 <= i < |s.links| && Qualifies(s, members, lt, dir, s.links[i], filters, derive, logic) ==>
      TargetOf(s, members, lt, dir, s.links[i]).pk in Pks(targets)
  }

  /** A link qualifies and its far end has the key `pk`. */
  predicate ReachesKey(s: State, members: seq<ObjectInstance>, lt: LinkType, dir: Direction, l: Link,
                       filters: map<string, Value>, derive: (ObjectInstance, string) -> Value, logic: Logic, pk: Value)
  {
    Qualifies(s, members, lt, dir, l, filters, derive, logic) && TargetOf(s, members, lt, dir, l).pk == pk
  }

  /** Link `j` is the last of the first `n` to reach key `pk`, and the link type scores it `score`. */
  predicate LastScoreAt(s: State, members: seq<ObjectInstance>, lt: LinkType, dir: Direction,
                        filters: map<string, Value>, derive: (ObjectInstance, string) -> Value, logic: Logic,
                        n: nat, j: nat, pk: Value, score: Ret)
    requires j < n <= |s.links|
  {
    && ReachesKey(s, members, lt, dir, s.links[j], filters, derive, logic, pk)
    && HasScoring(lt)
    && LinkScore(s, members, lt, dir, s.links[j], logic) == Ok(score)
    && forall i :: j < i < n ==> !ReachesKey(s, members, lt, dir, s.links[i], filters, derive, logic, pk)
  }

  lemma LastAtIsLastScoreAt(s: State, members: seq<ObjectInstance>, lt: LinkType, dir: Direction,
                            filters: map<string, Value>, derive: (ObjectInstance, string) -> Value, logic: Logic,
                            k: nat, j: nat, pk: Value, score: Ret)
    requires j < k <= |s.links|
    requires AllOk(Visits(s, members, lt, dir, filters, derive, logic), k)
    requires LastAt(Visits(s, members, lt, dir, filters, derive, logic), k, j, pk, score)
    ensures LastScoreAt(s, members, lt, dir, filters, derive, logic, k, j, pk, score)
  {
    var vs := Visits(s, members, lt, dir, filters, derive, logic);
    VisitAt(s, members, lt, dir, filters, derive, logic, j);
    forall i | j < i < k ensures !ReachesKey(s, members, lt, dir, s.links[i], filters, derive, logic, pk) {
      VisitAt(s, members, lt, dir, filters, derive, logic, i);
      assert vs[i].Ok?;
      assert !(Scored(vs[i]) && vs[i].value.value.obj.pk == pk);
    }
  }

  /** When the loop raises, it is with the error of a link the loop reached, and no earlier link raised. */
  lemma TraversalOfRaises(s: State, members: seq<ObjectInstance>, lt: LinkType, dir: Direction, limit: Option<int>,
                          filters: map<string, Value>, derive: (ObjectInstance, string) -> Value, logic: Logic)
    requires limit.None? || limit.value > 0
    ensures TraversalOf(s, members, lt, dir, limit, filters, derive, logic).Err? ==>
      exists j :: && 0 <= j < |s.links| && Raises(s, members, lt, dir, s.links[j], filters, derive, logic)
                  && Visit(s, members, lt, dir, s.links[j], filters, derive, logic)
                     == Err(TraversalOf(s, members, lt, dir, limit, filters, derive, logic).exc)
                  && NoneRaise(s, members, lt, dir, filters, derive, logic, j)
    ensures NoneRaise(s, members, lt, dir, filters, derive, logic, |s.links|) ==>
      TraversalOf(s, members, lt, dir, limit, filters, derive, logic).Ok?
  {
    var vs := Visits(s, members, lt, dir, filters, derive, logic);
    var t := Run(vs, limit, |s.links|);
    if t.Err? {
      RunRaises(vs, limit, |s.links|);
      var j :| 0 <= j < |s.links| && Run(vs, limit, j).Ok? && !Run(vs, limit, j).value.stopped && vs[j] == Err(t.exc);
      RunSpec(vs, limit, j);
      AllOkNoneRaise(s, members, lt, dir, filters, derive, logic, j);
      VisitAt(s, members, lt, dir, filters, derive, logic, j);
    }
  }

  /**
   * The traversal loop of `search_around` over every stored link, after
   * the checks of `ResolveTraversal` and with a positive or absent limit.
   */
  method Traverse(s: State, members: seq<ObjectInstance>, lt: LinkType, dir: Direction, limit: Option<int>,
                  filters: map<string, Value>, derive: (ObjectInstance, string) -> Value, logic: Logic)
    returns (r: Result<Traversal>)
    requires limit.None? || limit.value > 0
    ensures r == TraversalOf(s, members, lt, dir, limit, filters, derive, logic)
  {
    ghost var vs := Visits(s, members, lt, dir, filters, derive, logic);
    var targets: seq<ObjectInstance> := [];
    var seen: set<Value> := {};
    var scores: map<Value, Ret> := map[];
    var raised: Option<Exc> := None;
    var stop := false;
    var i := 0;
    while i < |s.links| && raised.None? && !stop
      invariant 0 <= i <= |s.links|
      invariant Run(vs, limit, i) == if raised.Some? then Err(raised.value) else Ok(Progress(targets, scores, stop))
      invariant seen == set o | o in targets :: o.pk
    {
      var visit := Visit(s, members, lt, dir, s.links[i], filters, derive, logic);
      assert visit == vs[i];
      if visit.Err? {
        raised := Some(visit.exc);
      } else {
        targets, seen, scores, stop := Collect(targets, seen, scores, visit.value, limit);
      }
      i := i + 1;
    }
    if i < |s.links| {
      Settled(vs, limit, i);
    }
    r := if raised.Some? then Err(raised.value) else Ok(Traversal(targets, scores));
  }

  /**
   * `search_around(link_type_api_name, limit=..., **filters)` called with a
   * filter named like one of its parameters raises TypeError before it runs.
   */
  predicate KeywordClash(filters: map<string, Value>)
  {
    "self" in filters || "link_type_api_name" in filters || "limit" in filters
  }

  /**
   * What `search_around` returns, given the set's members as `all()`
   * yields them: the error of `ResolveTraversal`, an empty result for a
   * non-positive limit, the error of materialising the members, or the
   * traversal of the stored links.
   */
  function SearchAroundOf(s: State, setType: string, members: Result<seq<ObjectInstance>>, ltName: string,
                          limit: Option<int>, filters: map<string, Value>,
                          derive: (ObjectInstance, string) -> Value, logic: Logic)
    : Result<(ObjectType, Traversal)>
  {
    match ResolveTraversal(s, setType, ltName)
    case Err(e) => Err(e)
    case Ok((lt, dir, tt)) =>
      if limit.Some? && limit.value <= 0 then Ok((tt, Traversal([], map[])))
      else if members.Err? then Err(members.exc)
      else
        match TraversalOf(s, members.value, lt, dir, limit, filters, derive, logic)
        case Err(e) => Err(e)
        case Ok(t) => Ok((tt, t))
  }

  /**
   * A successful `search_around` names the far type; with a positive or
   * absent limit its targets hold no key twice, stay within the limit, are
   * far ends of qualifying links from the members, and include the far end
   * of every qualifying link when the limit was not reached; scores are
   * present exactly for the targets when the link type scores.
   */
  lemma SearchAroundOfSpec(s: State, setType: string, members: Result<seq<ObjectInstance>>, ltName: string,
                           limit: Option<int>, filters: map<string, Value>,
                           derive: (ObjectInstance, string) -> Value, logic: Logic,
                           lt: LinkType, dir: Direction, tt: ObjectType, r: (ObjectType, Traversal))
    requires ResolveTraversal(s, setType, ltName) == Ok((lt, dir, tt))
    requires SearchAroundOf(s, setType, members, ltName, limit, filters, derive, logic) == Ok(r)
    ensures r.0 == tt
    ensures limit.Some? && limit.value <= 0 ==> r.1 == Traversal([], map[])
    ensures (limit.None? || limit.value > 0) ==>
      members.Ok? && TraversalOf(s, members.value, lt, dir, limit, filters, derive, logic) == Ok(r.1)
    ensures Seqs.NoDup(Pks(r.1.targets))
    ensures limit.Some? ==> |r.1.targets| <= if limit.value < 0 then 0 else limit.value
    ensures r.1.targets != [] ==> members.Ok? && AllQualify(s, members.value, lt, dir, filters, derive, logic, r.1.targets)
    ensures members.Ok? && (limit.None? || (limit.value > 0 && |r.1.targets| < limit.value)) ==>
      Covers(s, members.value, lt, dir, filters, derive, logic, r.1.targets)
    ensures HasScoring(lt) ==> forall o :: o in r.1.targets ==> o.pk in r.1.scores
    ensures forall pk :: pk in r.1.scores ==> pk in Pks(r.1.targets)
  {
    if limit.Some? && limit.value <= 0 {
      assert Seqs.NoDup(Pks([]));
    } else {
      TraversalOfSpec(s, members.value, lt, dir, limit, filters, derive, logic, r.1);
      var k := LinksExamined(s, members.value, lt, dir, limit, filters, derive, logic);
      TraversalScores(s, members.value, lt, dir, limit, filters, derive, logic, r.1, k);
    }
  }

  /**
   * The body of the loop for a link that did not raise: write the score,
   * append the object when its key was not seen, and report whether that
   * append reached the limit.
   */
  method Collect(targets: seq<ObjectInstance>, seen: set<Value>, scores: map<Value, Ret>, h: Option<Hit>,
                 limit: Option<int>)
    returns (targets': seq<ObjectInstance>, seen': set<Value>, scores': map<Value, Ret>, stop: bool)
    requires seen == set o | o in targets :: o.pk
    ensures Absorb(Progress(targets, scores, false), h, limit) == Progress(targets', scores', stop)
    ensures seen' == set o | o in targets' :: o.pk
  {
    targets', seen', scores', stop := targets, seen, scores, false;
    if h.Some? {
      var hit := h.value;
      if hit.score.Some? {
        scores' := scores'[hit.obj.pk := hit.score.value];
      }
      SeenArePks(targets, seen);
      if hit.obj.pk !in seen {
        targets' := targets + [hit.obj];
        seen' := seen + {hit.obj.pk};
        stop := limit.Some? && |targets'| >= limit.value;
      }
    }
  }

  lemma NoDupAppend(targets: seq<ObjectInstance>, o: ObjectInstance)
    requires Seqs.NoDup(Pks(targets))
    requires o.pk !in Pks(targets)
    ensures Seqs.NoDup(Pks(targets + [o]))
  {
    assert Pks(targets + [o]) == Pks(targets) + [o.pk];
  }

  lemma SeenArePks(targets: seq<ObjectInstance>, seen: set<Value>)
    requires seen == set o | o in targets :: o.pk
    ensures forall v :: v in Pks(targets) <==> v in seen
  {
    forall v | v in seen ensures v in Pks(targets) {
      var o :| o in targets && o.pk == v;
      var j :| 0 <= j < |targets| && targets[j] == o;
      assert Pks(targets)[j] == v;
    }
    forall v | v in Pks(targets) ensures v in seen {
      var j :| 0 <= j < |targets| && Pks(targets)[j] == v;
      assert targets[j] in targets;
    }
  }

  // ---------------------------------------------------------------------

  /** An object set: eager (`objects`) or lazy (a pending scan with `queryFilters` and `lazyLimit`). */
  class ObjectSet {
    const objectType: ObjectType
    var objects: seq<ObjectInstance>
    const ontology: Ontology?
    var lazy: bool
    var queryFilters: map<string, Value>
    var lazyLimit: Option<int>

    /** The members `all()` yields: the result of the pending scan, or the objects held. */
    function Members(): Result<seq<ObjectInstance>>
      requires ontology != null ==> ontology.Valid()
      reads this, if ontology != null then {ontology, ontology.memory, ontology.linkStore} else {}
    {
      if Pending() then ScanObjects(ontology.Snapshot(), objectType.apiName, queryFilters, lazyLimit) else Ok(objects)
    }

    /** The scan a lazy set stands for, while it is still pending. */
    predicate Pending()
      reads this
    {
      lazy && ontology != null
    }

    constructor (objectType: ObjectType, objects: seq<ObjectInstance>, ontology: Ontology?,
                 filters: map<string, Value>, limit: Option<int>, lazy: bool)
      ensures this.objectType == objectType && this.objects == objects && this.ontology == ontology
      ensures this.lazy == lazy
      ensures queryFilters == (if lazy then filters else map[])
      ensures lazyLimit == (if lazy then limit else None)
    {
      this.objectType := objectType;
      this.objects := objects;
      this.ontology := ontology;
      this.lazy := lazy;
      queryFilters := if lazy then filters else map[];
      lazyLimit := if lazy then limit else None;
    }

    /** `add`: only objects of the set's type are appended. */
    method Add(o: ObjectInstance) returns (r: Result<()>)
      modifies this
      ensures r.Err? <==> o.typeName != objectType.apiName
      ensures r.Err? ==> r.exc == ValueError && objects == old(objects)
      ensures r.Ok? ==> objects == old(objects) + [o]
      ensures lazy == old(lazy) && queryFilters == old(queryFilters) && lazyLimit == old(lazyLimit)
    {
      if o.typeName != objectType.apiName {
        return Err(ValueError);
      }
      objects := objects + [o];
      r := Ok(());
    }

    /**
     * `all()`: a pending lazy set runs its scan once, stores the result and
     * becomes eager; any other set returns its objects unchanged.
     */
    method All() returns (r: Result<seq<ObjectInstance>>)
      requires ontology != null ==> ontology.Valid()
      modifies this
      ensures old(Pending()) ==> r == ScanObjects(ontology.Snapshot(), objectType.apiName, old(queryFilters), old(lazyLimit))
      ensures old(Pending()) && r.Ok? ==> objects == r.value && !lazy && queryFilters == map[] && lazyLimit == None
      ensures !old(Pending()) || r.Err? ==>
        objects == old(objects) && lazy == old(lazy) && queryFilters == old(queryFilters) && lazyLimit == old(lazyLimit)
      ensures !old(Pending()) ==> r == Ok(objects)
    {
      if lazy && ontology != null {
        r := ScanObjects(ontology.Snapshot(), objectType.apiName, queryFilters, lazyLimit);
        if r.Ok? {
          objects := r.value;
          lazy := false;
          queryFilters := map[];
          lazyLimit := None;
        }
      } else {
        r := Ok(objects);
      }
    }

    /**
     * `filter`: a pending lazy set yields a new lazy set whose filters are a
     * copy with `prop` set to `value`; otherwise a new eager set of the
     * members whose `prop` equals `value`.  The receiver never changes.
     */
    method Filter(prop: string, value: Value) returns (r: Result<ObjectSet>)
      requires ontology != null ==> ontology.Valid()
      ensures objects == old(objects) && lazy == old(lazy) && queryFilters == old(queryFilters) && lazyLimit == old(lazyLimit)
      ensures r.Ok? ==> fresh(r.value) && r.value.objectType == objectType && r.value.ontology == ontology
      ensures Pending() ==> (r.Ok? && r.value.Pending() && r.value.queryFilters == queryFilters[prop := value]
        && r.value.lazyLimit == lazyLimit && r.value.objects == [])
      ensures !Pending() ==> r.Ok? && !r.value.lazy && r.value.objects == Select(objects, prop, value)
    {
      if lazy && ontology != null {
        var merged := queryFilters[prop := value];
        var set' := new ObjectSet(objectType, [], ontology, merged, lazyLimit, true);
        return Ok(set');
      }
      var set' := new ObjectSet(objectType, Select(objects, prop, value), ontology, map[], None, false);
      r := Ok(set');
    }

    /** `aggregate` over the members (materialising a lazy set first). */
    method Aggregate(prop: string, fn: string) returns (r: Result<real>)
      requires ontology != null ==> ontology.Valid()
      modifies this
      ensures old(Pending()) ==> var all := ScanObjects(ontology.Snapshot(), objectType.apiName, old(queryFilters), old(lazyLimit));
        r == if all.Err? then Err(all.exc) else AggregateValues(NonNullValues(all.value, prop), fn)
      ensures !old(Pending()) ==> r == AggregateValues(NonNullValues(old(objects), prop), fn)
    {
      var all := All();
      if all.Err? {
        return Err(all.exc);
      }
      r := AggregateValues(NonNullValues(all.value, prop), fn);
    }

    /**
     * `search_around`: ValueError without an ontology, otherwise exactly
     * `SearchAroundOf` over the stored state and the members `all()`
     * yields; the members are materialised only when the checks pass and
     * the limit is positive or absent.  The quantified properties of
     * `SearchAroundOfSpec` are restated over the members held afterwards.
     */
    method SearchAround(ltName: string, limit: Option<int>, filters: map<string, Value>,
                        derive: (ObjectInstance, string) -> Value, logic: Logic)
      returns (r: Result<(ObjectType, Traversal)>)
      requires ontology != null ==> ontology.Valid()
      modifies this
      ensures ontology == null ==> r == Err(ValueError)
      ensures ontology != null ==>
        r == SearchAroundOf(ontology.Snapshot(), objectType.apiName, old(Members()), ltName, limit, filters, derive, logic)
      ensures (ontology != null && ResolveTraversal(ontology.Snapshot(), objectType.apiName, ltName).Ok?
               && (limit.None? || limit.value > 0) && old(Pending()) && old(Members()).Ok?) ==>
        objects == old(Members()).value && !lazy && queryFilters == map[] && lazyLimit == None
      ensures !(ontology != null && ResolveTraversal(ontology.Snapshot(), objectType.apiName, ltName).Ok?
                && (limit.None? || limit.value > 0) && old(Pending()) && old(Members()).Ok?) ==>
        objects == old(objects) && lazy == old(lazy) && queryFilters == old(queryFilters) && lazyLimit == old(lazyLimit)
      ensures r.Ok? ==>
        && ontology != null && ResolveTraversal(ontology.Snapshot(), objectType.apiName, ltName).Ok?
        && r.value.0 == ResolveTraversal(ontology.Snapshot(), objectType.apiName, ltName).value.2
      ensures r.Ok? ==> Seqs.NoDup(Pks(r.value.1.targets))
      ensures r.Ok? && limit.Some? ==> |r.value.1.targets| <= if limit.value < 0 then 0 else limit.value
      ensures r.Ok? ==>
        var (lt, dir, _) := ResolveTraversal(ontology.Snapshot(), objectType.apiName, ltName).value;
        AllQualify(ontology.Snapshot(), objects, lt, dir, filters, derive, logic, r.value.1.targets)
      ensures r.Ok? && (limit.None? || (limit.value > 0 && |r.value.1.targets| < limit.value)) ==>
        var (lt, dir, _) := ResolveTraversal(ontology.Snapshot(), objectType.apiName, ltName).value;
        Covers(ontology.Snapshot(), objects, lt, dir, filters, derive, logic, r.value.1.targets)
    {
      if ontology == null {
        return Err(ValueError);
      }
      var st := ontology.Snapshot();
      var resolved := ResolveTraversal(st, objectType.apiName, ltName);
      if resolved.Err? {
        return Err(resolved.exc);
      }
      var (lt, dir, tt) := resolved.value;
      if limit.Some? && limit.value <= 0 {
        assert Seqs.NoDup(Pks([]));
        return Ok((tt, Traversal([], map[])));
      }
      var members := All();
      if members.Err? {
        return Err(members.exc);
      }
      var t := Traverse(st, members.value, lt, dir, limit, filters, derive, logic);
      if t.Err? {
        return Err(t.exc);
      }
      r := Ok((tt, t.value));
      SearchAroundOfSpec(st, objectType.apiName, members, ltName, limit, filters, derive, logic, lt, dir, tt, r.value);
    }
  }

  /** `build_object_set`: ValueError for an unknown type, else an eager scan or a pending lazy set. */
  method BuildObjectSet(ont: Ontology, typeName: string, filters: map<string, Value>, limit: Option<int>, lazy: bool)
    returns (r: Result<ObjectSet>)
    requires ont.Valid()
    ensures typeName !in ont.objectTypes.vals ==> r == Err(ValueError)
    ensures r.Ok? ==> fresh(r.value) && r.value.ontology == ont && r.value.objectType == ont.objectTypes.vals[typeName]
    ensures r.Ok? && lazy ==> r.value.Pending() && r.value.queryFilters == filters && r.value.lazyLimit == limit
    ensures typeName in ont.objectTypes.vals && !lazy ==>
      var scan := ScanObjects(ont.Snapshot(), typeName, filters, limit);
      (r.Ok? <==> scan.Ok?) && (r.Ok? ==> r.value.objects == scan.value && !r.value.lazy)
  {
    if typeName !in ont.objectTypes.vals {
      return Err(ValueError);
    }
    var t := ont.objectTypes.vals[typeName];
    if !lazy {
      var scan := ScanObjects(ont.Snapshot(), typeName, filters, limit);
      if scan.Err? {
        return Err(scan.exc);
      }
      var set' := new ObjectSet(t, scan.value, ont, map[], None, false);
      return Ok(set');
    }
    var set' := new ObjectSet(t, [], ont, filters, limit, true);
    r := Ok(set');
  }
}
