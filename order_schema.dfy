/**
 * The order-delivery example (example/order_delivery/schema.py): the
 * Order, Merchant and Rider types, the two links, the two derived
 * durations and the seven lifecycle actions, whose logic is written out
 * here as the context calls it makes against the committed state.
 */
module OrderDelivery {
  import opened Wrappers
  import opened Values
  import opened Schema
  import PyDict
  import opened DataSources
  import opened OntologyModel
  import opened Ontologies
  import opened Actions
  import opened FunctionRegistries

  const ORDER := "Order"
  const MERCHANT := "Merchant"
  const RIDER := "Rider"
  const HAS_MERCHANT := "OrderHasMerchant"
  const HAS_RIDER := "OrderHasRider"

  // ---------------------------------------------------------------------
  // Types

  /** `add_property` for each (name, type) in turn. */
  function WithProperties(t: ObjectType, ps: seq<(string, PropertyType)>): ObjectType
    decreases |ps|
  {
    if ps == [] then t else AddProperty(WithProperties(t, ps[..|ps| - 1]), ps[|ps| - 1].0, ps[|ps| - 1].1)
  }

  /** Adding properties keeps the name and the primary key, and declares each property. */
  lemma {:induction false} WithPropertiesSpec(t: ObjectType, ps: seq<(string, PropertyType)>)
    ensures var r := WithProperties(t, ps);
      && r.(properties := t.properties) == t
      && forall i :: 0 <= i < |ps| ==> ps[i].0 in r.properties.vals
    decreases |ps|
  {
    if ps != [] {
      var init := ps[..|ps| - 1];
      WithPropertiesSpec(t, init);
      assert forall i :: 0 <= i < |init| ==> init[i] == ps[i];
    }
  }

  const ORDER_PROPERTIES: seq<(string, PropertyType)> :=
    [ ("order_id", STRING), ("user_id", STRING), ("merchant_id", STRING), ("rider_id", STRING),
      ("status", STRING), ("items", STRING), ("user_expected_t_min", INTEGER), ("ts_created", TIMESTAMP),
      ("ts_merchant_accepted", TIMESTAMP), ("ts_rider_called", TIMESTAMP), ("ts_merchant_out", TIMESTAMP),
      ("ts_rider_arrived_store", TIMESTAMP), ("ts_rider_picked", TIMESTAMP), ("ts_delivered", TIMESTAMP) ]

  function OrderType(): ObjectType
  {
    var t := WithProperties(NewObjectType(ORDER, "Delivery Order", "order_id"), ORDER_PROPERTIES);
    AddDerivedProperty(AddDerivedProperty(t, "actual_t_min", "calculate_actual_t"), "t_gap_min", "calculate_t_gap")
  }

  function MerchantType(): ObjectType
  {
    WithProperties(NewObjectType(MERCHANT, "Restaurant", "merchant_id"), [("merchant_id", STRING), ("name", STRING), ("address", STRING)])
  }

  function RiderType(): ObjectType
  {
    WithProperties(NewObjectType(RIDER, "Delivery Rider", "rider_id"), [("rider_id", STRING), ("name", STRING), ("phone", STRING)])
  }

  function OrderHasMerchant(): LinkType
  {
    LinkType(HAS_MERCHANT, "Order Merchant", ORDER, MERCHANT, [], None)
  }

  function OrderHasRider(): LinkType
  {
    LinkType(HAS_RIDER, "Order Rider", ORDER, RIDER, [], None)
  }

  /** An action on orders whose logic is named after the action, with the given parameters (all required). */
  function OrderAction(apiName: string, displayName: string, params: seq<(string, PropertyType)>): ActionType
    decreases |params|
  {
    if params == [] then ActionType(apiName, displayName, [ORDER], PyDict.Empty(), Some(apiName), None)
    else AddParameter(OrderAction(apiName, displayName, params[..|params| - 1]), params[|params| - 1].0, params[|params| - 1].1)
  }

  /** Name, display name and parameters of the seven actions, in registration order. */
  const ACTION_TABLE: seq<(string, string, seq<(string, PropertyType)>)> :=
    [ ("CreateOrder", "User Places Order",
        [("order_id", STRING), ("user_id", STRING), ("merchant_id", STRING), ("items", STRING), ("expected_t", INTEGER), ("now", TIMESTAMP)]),
      ("MerchantAccept", "Merchant Accepts Order", [("order_id", STRING), ("now", TIMESTAMP)]),
      ("CallRider", "Merchant Calls Rider", [("order_id", STRING), ("now", TIMESTAMP)]),
      ("MerchantOut", "Merchant Food Ready", [("order_id", STRING), ("now", TIMESTAMP)]),
      ("RiderArrive", "Rider Arrives at Store", [("order_id", STRING), ("rider_id", STRING), ("now", TIMESTAMP)]),
      ("RiderPickup", "Rider Picks Up Order", [("order_id", STRING), ("now", TIMESTAMP)]),
      ("RiderDeliver", "Rider Delivers Order", [("order_id", STRING), ("now", TIMESTAMP)]) ]

  function ActionTypes(): seq<ActionType>
  {
    seq(|ACTION_TABLE|, i requires 0 <= i < |ACTION_TABLE| => OrderAction(ACTION_TABLE[i].0, ACTION_TABLE[i].1, ACTION_TABLE[i].2))
  }

  // ---------------------------------------------------------------------
  // Derived durations

  /** `int(x / 60)`: the true quotient truncated toward zero. */
  function TruncDiv60(x: int): int
  {
    if x >= 0 then x / 60 else -((-x) / 60)
  }

  /**
   * `calculate_actual_t`: whole minutes from creation to delivery, None
   * when either timestamp is missing; subtracting a non-number raises.
   */
  function ActualT(created: Value, delivered: Value): Result<Value>
  {
    if created == Null || delivered == Null then Ok(Null)
    else if AsNumber(created).None? || AsNumber(delivered).None? then Err(TypeError)
    else Ok(Int(TruncDiv60(AsNumber(delivered).value - AsNumber(created).value)))
  }

  /**
   * `calculate_t_gap`.  `actualRead` is what `order.get("actual_t_min")`
   * returned: a stored value first, else the derived one.  Only when it is
   * None are the minutes recomputed from the timestamps.  The gap is the
   * expected minutes less the actual minutes, None when either is missing;
   * subtracting a non-number raises.
   */
  function TGap(expected: Value, actualRead: Value, created: Value, delivered: Value): Result<Value>
  {
    var actual := if actualRead != Null then Ok(actualRead) else ActualT(created, delivered);
    match actual
    case Err(e) => Err(e)
    case Ok(a) =>
      if expected == Null || a == Null then Ok(Null)
      else if AsNumber(expected).None? || AsNumber(a).None? then Err(TypeError)
      else Ok(Int(AsNumber(expected).value - AsNumber(a).value))
  }

  /**
   * The minutes are the elapsed seconds divided by 60 and rounded toward
   * zero, None exactly when a timestamp is missing.
   */
  lemma ActualTSpec(created: Value, delivered: Value)
    ensures ActualT(created, delivered) == Ok(Null) <==> created == Null || delivered == Null
    ensures created.Int? && delivered.Int? ==>
      var d := delivered.i - created.i;
      && ActualT(created, delivered).Ok? && ActualT(created, delivered).value.Int?
      && var k := ActualT(created, delivered).value.i;
      && (d >= 0 ==> 0 <= 60 * k <= d < 60 * k + 60)
      && (d < 0 ==> 60 * k - 60 < d <= 60 * k <= 0)
  {
    if created.Int? && delivered.Int? {
      var d := delivered.i - created.i;
      if d >= 0 {
        var q := d / 60;
        assert 60 * q <= d < 60 * q + 60;
      } else {
        var q := (-d) / 60;
        assert 60 * q <= -d < 60 * q + 60;
        assert TruncDiv60(d) == -q;
      }
    }
  }

  /**
   * The gap is the expectation minus the actual minutes: a stored (or
   * derived) `actual_t_min` wins over the timestamps, which are read only
   * when it is None.  The gap is None exactly when the expectation is
   * missing or no actual minutes can be had.
   */
  lemma TGapSpec(expected: Value, actualRead: Value, created: Value, delivered: Value)
    ensures actualRead.Int? && expected.Int? ==>
      TGap(expected, actualRead, created, delivered) == Ok(Int(expected.i - actualRead.i))
    ensures actualRead == Null && created.Int? && delivered.Int? && expected.Int? ==>
      TGap(expected, actualRead, created, delivered) == Ok(Int(expected.i - TruncDiv60(delivered.i - created.i)))
    ensures actualRead == Null && (created == Null || delivered == Null) ==>
      TGap(expected, actualRead, created, delivered) == Ok(Null)
    ensures expected == Null && (actualRead != Null || (created.Int? && delivered.Int?)) ==>
      TGap(expected, actualRead, created, delivered) == Ok(Null)
    ensures TGap(expected, actualRead, created, delivered) == Ok(Null) ==>
      expected == Null || (actualRead == Null && (created == Null || delivered == Null))
  {
  }

  /**
   * Reading `actual_t_min` through its derived property or recomputing it
   * from the timestamps gives the same gap.
   */
  lemma TGapDerivedAgrees(expected: Value, created: Value, delivered: Value)
    requires ActualT(created, delivered).Ok?
    ensures TGap(expected, ActualT(created, delivered).value, created, delivered) == TGap(expected, Null, created, delivered)
  {
  }

  // ---------------------------------------------------------------------
  // Action logic

  /** A `modify_object` call for each (property, value), in order. */
  function Mods(o: ObjectInstance, pvs: seq<(string, Value)>): seq<Call>
    decreases |pvs|
  {
    if pvs == [] then [] else [Modify(o, pvs[0].0, pvs[0].1)] + Mods(o, pvs[1..])
  }

  const STATUS_ACTIONS: set<string> := {"MerchantAccept", "CallRider", "MerchantOut", "RiderPickup", "RiderDeliver"}

  /** The keyword parameters each action's logic accepts. */
  function LogicParams(id: string): set<string>
  {
    if id == "CreateOrder" then {"order_id", "user_id", "merchant_id", "items", "expected_t", "now"}
    else if id == "RiderArrive" then {"order_id", "rider_id", "now"}
    else {"order_id", "now"}
  }

  /** The properties an action on an existing order assigns, in the order it assigns them. */
  function Assignments(id: string, o: ObjectInstance, params: map<string, Value>): seq<(string, Value)>
    requires params.Keys == LogicParams(id)
  {
    var now := params["now"];
    if id == "MerchantAccept" then [("status", Str("ACCEPTED")), ("ts_merchant_accepted", now)]
    else if id == "CallRider" then [("status", Str("RIDER_CALLED")), ("ts_rider_called", now)]
    else if id == "MerchantOut" then
      [("ts_merchant_out", now)]
      + (if PropOf(o, "status") == Str("RIDER_ARRIVED") then [("status", Str("READY_FOR_PICKUP"))] else [])
    else if id == "RiderArrive" then
      [("rider_id", params["rider_id"]), ("ts_rider_arrived_store", now),
       ("status", Str(if PropOf(o, "ts_merchant_out") != Null then "READY_FOR_PICKUP" else "RIDER_ARRIVED"))]
    else if id == "RiderPickup" then [("status", Str("DELIVERING")), ("ts_rider_picked", now)]
    else [("status", Str("COMPLETED")), ("ts_delivered", now)]
  }

  /** The links an action on an existing order creates after its modifications. */
  function LinkCalls(id: string, params: map<string, Value>): seq<Call>
    requires params.Keys == LogicParams(id)
  {
    if id == "RiderArrive" then [AddLink(HAS_RIDER, params["order_id"], params["rider_id"])] else []
  }

  /**
   * The logic of the seven actions, keyed by action name.  A call binds the
   * parameters as keyword arguments, so a parameter the logic does not
   * declare is a TypeError before the body runs; `ctx.get_object` reads the
   * committed order, and a missing order stages nothing.
   */
  function OrderLogic(id: string, s: State, params: map<string, Value>): LogicRun
  {
    if id != "CreateOrder" && id != "RiderArrive" && id !in STATUS_ACTIONS then LogicRun([], None)
    else if params.Keys != LogicParams(id) then LogicRun([], Some(TypeError))
    else if id == "CreateOrder" then
      var pk := params["order_id"];
      LogicRun([CreateWithKey(ORDER, pk, map["user_id" := params["user_id"], "merchant_id" := params["merchant_id"],
                                             "items" := params["items"], "status" := Str("CREATED"),
                                             "user_expected_t_min" := params["expected_t"], "ts_created" := params["now"]]),
                AddLink(HAS_MERCHANT, pk, params["merchant_id"])], None)
    else
      match GetObject(s, ORDER, params["order_id"])
      case Err(e) => LogicRun([], Some(e))
      case Ok(None) => LogicRun([], None)
      case Ok(Some(o)) => LogicRun(Mods(o, Assignments(id, o, params)) + LinkCalls(id, params), None)
  }

  /**
   * What the status actions and `RiderArrive` stage: nothing but a
   * TypeError for undeclared parameters, nothing for a missing order, and
   * otherwise one `modify_object` per assignment, then (for `RiderArrive`)
   * the link to the rider.
   */
  lemma OrderLogicSpec(id: string, s: State, params: map<string, Value>)
    requires id in STATUS_ACTIONS || id == "RiderArrive"
    ensures params.Keys != LogicParams(id) ==> OrderLogic(id, s, params) == LogicRun([], Some(TypeError))
    ensures params.Keys == LogicParams(id) && GetObject(s, ORDER, params["order_id"]) == Ok(None) ==>
      OrderLogic(id, s, params) == LogicRun([], None)
    ensures params.Keys == LogicParams(id) && GetObject(s, ORDER, params["order_id"]).Ok?
            && GetObject(s, ORDER, params["order_id"]).value.Some? ==>
      var o := GetObject(s, ORDER, params["order_id"]).value.value;
      var pvs := Assignments(id, o, params);
      && OrderLogic(id, s, params).raised.None?
      && |OrderLogic(id, s, params).calls| == |pvs| + (if id == "RiderArrive" then 1 else 0)
      && (forall i :: 0 <= i < |pvs| ==> OrderLogic(id, s, params).calls[i] == Modify(o, pvs[i].0, pvs[i].1))
      && (id == "RiderArrive" ==>
            OrderLogic(id, s, params).calls[|pvs|] == AddLink(HAS_RIDER, params["order_id"], params["rider_id"]))
  {
    if params.Keys == LogicParams(id) && GetObject(s, ORDER, params["order_id"]).Ok?
       && GetObject(s, ORDER, params["order_id"]).value.Some? {
      var o := GetObject(s, ORDER, params["order_id"]).value.value;
      ModsLength(o, Assignments(id, o, params));
    }
  }

  /**
   * What `CreateOrder` stages: a TypeError for undeclared parameters;
   * otherwise, without reading the state, the new order (status CREATED,
   * created at `now`) under the given key and then its link to the
   * merchant, both staged as edits without raising.
   */
  lemma CreateOrderLogic(s: State, params: map<string, Value>, uuid: nat -> string)
    ensures params.Keys != LogicParams("CreateOrder") ==> OrderLogic("CreateOrder", s, params) == LogicRun([], Some(TypeError))
    ensures params.Keys == LogicParams("CreateOrder") ==>
      var run := OrderLogic("CreateOrder", s, params);
      var pk := params["order_id"];
      var staged := StageAll(s, run.calls, uuid, 0);
      && run.raised.None? && |run.calls| == 2
      && run.calls[0].CreateWithKey? && run.calls[0].typeName == ORDER && run.calls[0].pk == pk
      && run.calls[0].props.Keys == {"user_id", "merchant_id", "items", "status", "user_expected_t_min", "ts_created"}
      && run.calls[0].props["status"] == Str("CREATED") && run.calls[0].props["ts_created"] == params["now"]
      && run.calls[0].props["user_expected_t_min"] == params["expected_t"]
      && run.calls[1] == AddLink(HAS_MERCHANT, pk, params["merchant_id"])
      && staged.state == s && staged.error.None?
      && staged.edits == [CreateObj(ORDER, pk, run.calls[0].props), CreateLnk(HAS_MERCHANT, pk, params["merchant_id"])]
  {
    if params.Keys == LogicParams("CreateOrder") {
      var run := OrderLogic("CreateOrder", s, params);
      var pk := params["order_id"];
      var e0 := CreateObj(ORDER, pk, run.calls[0].props);
      var e1 := CreateLnk(HAS_MERCHANT, pk, params["merchant_id"]);
      assert StageCall(s, run.calls[0], uuid(0)).value.1 == e0;
      assert StageCall(s, run.calls[1], uuid(1)).value.1 == e1;
      assert run.calls[1..][0] == run.calls[1] && run.calls[1..][1..] == [];
      assert StageAll(s, run.calls[1..][1..], uuid, 2) == Staged(s, [], [], None);
      var tail := StageAll(s, run.calls[1..], uuid, 1);
      assert tail.state == s && tail.error.None? && tail.edits == [e1];
    }
  }

  /** The lifecycle table: the status an action leaves on an existing order. */
  function NextStatus(id: string, o: ObjectInstance): Value
  {
    if id == "MerchantAccept" then Str("ACCEPTED")
    else if id == "CallRider" then Str("RIDER_CALLED")
    else if id == "MerchantOut" then
      (if PropOf(o, "status") == Str("RIDER_ARRIVED") then Str("READY_FOR_PICKUP") else PropOf(o, "status"))
    else if id == "RiderArrive" then
      (if PropOf(o, "ts_merchant_out") != Null then Str("READY_FOR_PICKUP") else Str("RIDER_ARRIVED"))
    else if id == "RiderPickup" then Str("DELIVERING")
    else if id == "RiderDeliver" then Str("COMPLETED")
    else PropOf(o, "status")
  }

  /** The timestamp property an action stamps with `now`. */
  function StampField(id: string): string
  {
    if id == "MerchantAccept" then "ts_merchant_accepted"
    else if id == "CallRider" then "ts_rider_called"
    else if id == "MerchantOut" then "ts_merchant_out"
    else if id == "RiderArrive" then "ts_rider_arrived_store"
    else if id == "RiderPickup" then "ts_rider_picked"
    else "ts_delivered"
  }

  /** The row of the lifecycle table an action's assignments are meant to follow. */
  ghost predicate FollowsTable(id: string, o: ObjectInstance, params: map<string, Value>)
    requires params.Keys == LogicParams(id)
  {
    var o' := o.(props := Assigned(o.props, Assignments(id, o, params)));
    && PropOf(o', "status") == NextStatus(id, o)
    && PropOf(o', StampField(id)) == params["now"]
    && PropOf(o', "rider_id") == (if id == "RiderArrive" then params["rider_id"] else PropOf(o, "rider_id"))
    && forall k :: k != "status" && k != StampField(id) && k != "rider_id" ==> PropOf(o', k) == PropOf(o, k)
  }

  /**
   * Each action's assignments set the status its row of the lifecycle
   * table names, stamp its timestamp with `now`, record the rider on
   * arrival, and leave every other property as it was.
   */
  lemma AssignmentsSpec(id: string, o: ObjectInstance, params: map<string, Value>)
    requires id in STATUS_ACTIONS || id == "RiderArrive"
    requires params.Keys == LogicParams(id)
    ensures var o' := o.(props := Assigned(o.props, Assignments(id, o, params)));
      && PropOf(o', "status") == NextStatus(id, o)
      && PropOf(o', StampField(id)) == params["now"]
      && PropOf(o', "rider_id") == (if id == "RiderArrive" then params["rider_id"] else PropOf(o, "rider_id"))
      && forall k :: k != "status" && k != StampField(id) && k != "rider_id" ==> PropOf(o', k) == PropOf(o, k)
  {
    if id == "MerchantOut" {
      MerchantOutFollows(o, params);
    } else if id == "RiderArrive" {
      RiderArriveFollows(o, params);
    } else {
      PlainFollows(id, o, params);
    }
  }

  lemma MerchantOutFollows(o: ObjectInstance, params: map<string, Value>)
    requires params.Keys == LogicParams("MerchantOut")
    ensures FollowsTable("MerchantOut", o, params)
  {
    var pvs := Assignments("MerchantOut", o, params);
    if PropOf(o, "status") == Str("RIDER_ARRIVED") {
      assert pvs == [("ts_merchant_out", params["now"]), ("status", Str("READY_FOR_PICKUP"))];
    } else {
      assert pvs == [("ts_merchant_out", params["now"])];
    }
    AssignedDistinct(o.props, pvs);
    AssignedSpec(o.props, pvs);
  }

  lemma RiderArriveFollows(o: ObjectInstance, params: map<string, Value>)
    requires params.Keys == LogicParams("RiderArrive")
    ensures FollowsTable("RiderArrive", o, params)
  {
    var pvs := Assignments("RiderArrive", o, params);
    assert pvs == [("rider_id", params["rider_id"]), ("ts_rider_arrived_store", params["now"]),
                   ("status", NextStatus("RiderArrive", o))];
    AssignedDistinct(o.props, pvs);
    AssignedSpec(o.props, pvs);
  }

  lemma PlainFollows(id: string, o: ObjectInstance, params: map<string, Value>)
    requires id in STATUS_ACTIONS && id != "MerchantOut"
    requires params.Keys == LogicParams(id)
    ensures FollowsTable(id, o, params)
  {
    var pvs := Assignments(id, o, params);
    assert pvs == [("status", NextStatus(id, o)), (StampField(id), params["now"])];
    AssignedDistinct(o.props, pvs);
    AssignedSpec(o.props, pvs);
  }

  lemma {:induction false} ModsLength(o: ObjectInstance, pvs: seq<(string, Value)>)
    ensures |Mods(o, pvs)| == |pvs|
    ensures forall i :: 0 <= i < |pvs| ==> Mods(o, pvs)[i] == Modify(o, pvs[i].0, pvs[i].1)
    decreases |pvs|
  {
    if pvs != [] {
      ModsLength(o, pvs[1..]);
    }
  }

  /** With distinct properties, each assignment is the property's final value. */
  lemma AssignedDistinct(props: map<string, Value>, pvs: seq<(string, Value)>)
    requires forall i, j :: 0 <= i < j < |pvs| ==> pvs[i].0 != pvs[j].0
    ensures forall i :: 0 <= i < |pvs| ==> pvs[i].0 in Assigned(props, pvs) && Assigned(props, pvs)[pvs[i].0] == pvs[i].1
  {
    forall i | 0 <= i < |pvs| ensures pvs[i].0 in Assigned(props, pvs) && Assigned(props, pvs)[pvs[i].0] == pvs[i].1 {
      AssignedAt(props, pvs, i);
    }
  }

  // ---------------------------------------------------------------------
  // Running modifications

  /** The edits `Mods(o, pvs)` stages. */
  function ModEdits(t: string, pk: Value, pvs: seq<(string, Value)>): seq<Edit>
    decreases |pvs|
  {
    if pvs == [] then [] else [ModifyObj(t, pk, pvs[0].0, pvs[0].1)] + ModEdits(t, pk, pvs[1..])
  }

  function LinkEdits(calls: seq<Call>): seq<Edit>
    requires forall c :: c in calls ==> c.AddLink?
    decreases |calls|
  {
    if calls == [] then [] else [CreateLnk(calls[0].linkType, calls[0].src, calls[0].dst)] + LinkEdits(calls[1..])
  }

  /** The store after each modification in turn. */
  function ModifiedAll(st: Storage, t: string, pk: Value, pvs: seq<(string, Value)>): Storage
    decreases |pvs|
  {
    if pvs == [] then st else ModifiedAll(Modified(st, t, pk, pvs[0].0, pvs[0].1), t, pk, pvs[1..])
  }

  /** A property map after each assignment in turn. */
  function Assigned(props: map<string, Value>, pvs: seq<(string, Value)>): map<string, Value>
    decreases |pvs|
  {
    if pvs == [] then props else Assigned(props[pvs[0].0 := pvs[0].1], pvs[1..])
  }

  /** The last assignment to a property wins; an unassigned property keeps its value. */
  lemma {:induction false} AssignedSpec(props: map<string, Value>, pvs: seq<(string, Value)>)
    ensures pvs != [] ==> pvs[|pvs| - 1].0 in Assigned(props, pvs) && Assigned(props, pvs)[pvs[|pvs| - 1].0] == pvs[|pvs| - 1].1
    ensures forall k :: (forall i :: 0 <= i < |pvs| ==> pvs[i].0 != k) ==>
      (k in Assigned(props, pvs) <==> k in props) && (k in props ==> Assigned(props, pvs)[k] == props[k])
    decreases |pvs|
  {
    if pvs != [] {
      AssignedSpec(props[pvs[0].0 := pvs[0].1], pvs[1..]);
      assert forall i :: 0 <= i < |pvs[1..]| ==> pvs[1..][i] == pvs[i + 1];
    }
  }

  /** An assignment that no later one overrides is the property's final value. */
  lemma {:induction false} AssignedAt(props: map<string, Value>, pvs: seq<(string, Value)>, i: int)
    requires 0 <= i < |pvs|
    requires forall j :: i < j < |pvs| ==> pvs[j].0 != pvs[i].0
    ensures pvs[i].0 in Assigned(props, pvs) && Assigned(props, pvs)[pvs[i].0] == pvs[i].1
    decreases |pvs|
  {
    var rest := pvs[1..];
    if i == 0 {
      assert forall j :: 0 <= j < |rest| ==> rest[j] == pvs[j + 1];
      AssignedSpec(props[pvs[0].0 := pvs[0].1], rest);
    } else {
      assert rest[i - 1] == pvs[i];
      AssignedAt(props[pvs[0].0 := pvs[0].1], rest, i - 1);
    }
  }

  lemma {:induction false} StageLinks(s: State, calls: seq<Call>, uuid: nat -> string, i: nat)
    requires forall c :: c in calls ==> c.AddLink?
    ensures StageAll(s, calls, uuid, i).state == s
    ensures StageAll(s, calls, uuid, i).error.None?
    ensures StageAll(s, calls, uuid, i).edits == LinkEdits(calls)
    decreases |calls|
  {
    if calls != [] {
      assert calls[0] in calls;
      assert forall c :: c in calls[1..] ==> c in calls;
      StageLinks(s, calls[1..], uuid, i + 1);
    }
  }

  /** Modifications of a writable object's type, then links, stage without raising and without touching the state. */
  lemma {:induction false} StageMods(s: State, o: ObjectInstance, pvs: seq<(string, Value)>, tail: seq<Call>,
                                     uuid: nat -> string, i: nat)
    requires EnsureWritable(s, o.typeName).Ok?
    requires forall c :: c in tail ==> c.AddLink?
    ensures StageAll(s, Mods(o, pvs) + tail, uuid, i).state == s
    ensures StageAll(s, Mods(o, pvs) + tail, uuid, i).error.None?
    ensures StageAll(s, Mods(o, pvs) + tail, uuid, i).edits == ModEdits(o.typeName, o.pk, pvs) + LinkEdits(tail)
    decreases |pvs|
  {
    if pvs == [] {
      assert Mods(o, pvs) + tail == tail;
      StageLinks(s, tail, uuid, i);
    } else {
      var calls := Mods(o, pvs) + tail;
      assert calls[0] == Modify(o, pvs[0].0, pvs[0].1);
      assert calls[1..] == Mods(o, pvs[1..]) + tail;
      StageMods(s, o, pvs[1..], tail, uuid, i + 1);
    }
  }

  lemma {:induction false} LinkEditsAreCreates(calls: seq<Call>)
    requires forall c :: c in calls ==> c.AddLink?
    ensures forall e :: e in LinkEdits(calls) ==> e.CreateLnk?
    decreases |calls|
  {
    if calls != [] {
      assert forall c :: c in calls[1..] ==> c in calls;
      LinkEditsAreCreates(calls[1..]);
    }
  }

  lemma {:induction false} ApplyLinks(s: State, edits: seq<Edit>)
    requires forall e :: e in edits ==> e.CreateLnk?
    ensures ApplyAll(s, edits).0.(links := s.links) == s
    decreases |edits|
  {
    if edits != [] {
      var e := edits[0];
      assert e in edits;
      assert forall x :: x in edits[1..] ==> x in edits;
      CreateLinkSpec(s, e.linkType, e.src, e.dst, Some([LinkPermission(e.linkType)]));
      match ApplyEdit(s, e)
      case Err(_) =>
      case Ok(s1) => ApplyLinks(s1, edits[1..]);
    }
  }

  lemma {:induction false} ApplyMods(s: State, t: string, pk: Value, pvs: seq<(string, Value)>, rest: seq<Edit>)
    ensures ApplyAll(s, ModEdits(t, pk, pvs) + rest) == ApplyAll(s.(storage := ModifiedAll(s.storage, t, pk, pvs)), rest)
    decreases |pvs|
  {
    if pvs == [] {
      assert ModEdits(t, pk, pvs) + rest == rest;
    } else {
      var edits := ModEdits(t, pk, pvs) + rest;
      assert edits[0] == ModifyObj(t, pk, pvs[0].0, pvs[0].1);
      assert edits[1..] == ModEdits(t, pk, pvs[1..]) + rest;
      ApplyMods(s.(storage := Modified(s.storage, t, pk, pvs[0].0, pvs[0].1)), t, pk, pvs[1..], rest);
    }
  }

  lemma {:induction false} FetchModifiedAll(st: Storage, t: string, pk: Value, pvs: seq<(string, Value)>)
    ensures FetchObject(st, t, pk).Some? ==>
      FetchObject(ModifiedAll(st, t, pk, pvs), t, pk)
        == Some(FetchObject(st, t, pk).value.(props := Assigned(FetchObject(st, t, pk).value.props, pvs)))
    ensures FetchObject(st, t, pk).None? ==> FetchObject(ModifiedAll(st, t, pk, pvs), t, pk).None?
    decreases |pvs|
  {
    if pvs != [] {
      FetchModifiedAll(Modified(st, t, pk, pvs[0].0, pvs[0].1), t, pk, pvs[1..]);
    }
  }

  /**
   * A run of modifications to one object (then links) commits the
   * modifications whatever the links do: only the store and the link list
   * differ afterwards, and the store is the modified one.
   */
  lemma RunMods(s: State, o: ObjectInstance, pvs: seq<(string, Value)>, tail: seq<Call>, uuid: nat -> string)
    requires EnsureWritable(s, o.typeName).Ok?
    requires forall c :: c in tail ==> c.AddLink?
    ensures RunAction(s, LogicRun(Mods(o, pvs) + tail, None), uuid).0.(links := s.links)
      == s.(storage := ModifiedAll(s.storage, o.typeName, o.pk, pvs))
  {
    StageMods(s, o, pvs, tail, uuid, 0);
    ApplyMods(s, o.typeName, o.pk, pvs, LinkEdits(tail));
    LinkEditsAreCreates(tail);
    ApplyLinks(s.(storage := ModifiedAll(s.storage, o.typeName, o.pk, pvs)), LinkEdits(tail));
  }

  /**
   * Running a status action or `RiderArrive` on an existing, writable order
   * commits exactly its assignments to that order; the order stays
   * writable and only the store and the link list change.
   */
  lemma RunOrderAction(s: State, id: string, o: ObjectInstance, params: map<string, Value>, uuid: nat -> string)
    requires id in STATUS_ACTIONS || id == "RiderArrive"
    requires params.Keys == LogicParams(id) && params["order_id"] == o.pk && o.typeName == ORDER
    requires EnsureWritable(s, ORDER).Ok? && GetObject(s, ORDER, o.pk) == Ok(Some(o))
    ensures var s' := RunAction(s, OrderLogic(id, s, params), uuid).0;
      && s'.(links := s.links, storage := s.storage) == s
      && EnsureWritable(s', ORDER).Ok?
      && GetObject(s', ORDER, o.pk) == Ok(Some(o.(props := Assigned(o.props, Assignments(id, o, params)))))
  {
    var pvs := Assignments(id, o, params);
    var tail := LinkCalls(id, params);
    assert OrderLogic(id, s, params) == LogicRun(Mods(o, pvs) + tail, None);
    RunMods(s, o, pvs, tail, uuid);
    FetchModifiedAll(s.storage, ORDER, o.pk, pvs);
  }

  /**
   * From RIDER_CALLED with the food not yet out, `MerchantOut` followed by
   * `RiderArrive` (each committed before the next) leaves the order
   * READY_FOR_PICKUP.
   */
  lemma OutThenArrive(s: State, o: ObjectInstance, rider: Value, t1: int, t2: int, uuid: nat -> string)
    requires o.typeName == ORDER && EnsureWritable(s, ORDER).Ok?
    requires GetObject(s, ORDER, o.pk) == Ok(Some(o))
    requires PropOf(o, "status") == Str("RIDER_CALLED") && PropOf(o, "ts_merchant_out") == Null
    ensures var s1 := RunAction(s, OrderLogic("MerchantOut", s, map["order_id" := o.pk, "now" := Int(t1)]), uuid).0;
      var s2 := RunAction(s1, OrderLogic("RiderArrive", s1, map["order_id" := o.pk, "rider_id" := rider, "now" := Int(t2)]), uuid).0;
      GetObject(s2, ORDER, o.pk).Ok? && GetObject(s2, ORDER, o.pk).value.Some?
      && PropOf(GetObject(s2, ORDER, o.pk).value.value, "status") == Str("READY_FOR_PICKUP")
  {
    var p1 := map["order_id" := o.pk, "now" := Int(t1)];
    assert p1.Keys == LogicParams("MerchantOut");
    RunOrderAction(s, "MerchantOut", o, p1, uuid);
    AssignmentsSpec("MerchantOut", o, p1);
    var s1 := RunAction(s, OrderLogic("MerchantOut", s, p1), uuid).0;
    var o1 := o.(props := Assigned(o.props, Assignments("MerchantOut", o, p1)));
    var p2 := map["order_id" := o.pk, "rider_id" := rider, "now" := Int(t2)];
    assert p2.Keys == LogicParams("RiderArrive");
    RunOrderAction(s1, "RiderArrive", o1, p2, uuid);
    AssignmentsSpec("RiderArrive", o1, p2);
  }

  /** The other order: `RiderArrive` first (RIDER_ARRIVED), then `MerchantOut` also ends READY_FOR_PICKUP. */
  lemma ArriveThenOut(s: State, o: ObjectInstance, rider: Value, t1: int, t2: int, uuid: nat -> string)
    requires o.typeName == ORDER && EnsureWritable(s, ORDER).Ok?
    requires GetObject(s, ORDER, o.pk) == Ok(Some(o))
    requires PropOf(o, "status") == Str("RIDER_CALLED") && PropOf(o, "ts_merchant_out") == Null
    ensures var s1 := RunAction(s, OrderLogic("RiderArrive", s, map["order_id" := o.pk, "rider_id" := rider, "now" := Int(t1)]), uuid).0;
      var s2 := RunAction(s1, OrderLogic("MerchantOut", s1, map["order_id" := o.pk, "now" := Int(t2)]), uuid).0;
      GetObject(s2, ORDER, o.pk).Ok? && GetObject(s2, ORDER, o.pk).value.Some?
      && PropOf(GetObject(s2, ORDER, o.pk).value.value, "status") == Str("READY_FOR_PICKUP")
  {
    var p1 := map["order_id" := o.pk, "rider_id" := rider, "now" := Int(t1)];
    assert p1.Keys == LogicParams("RiderArrive");
    RunOrderAction(s, "RiderArrive", o, p1, uuid);
    AssignmentsSpec("RiderArrive", o, p1);
    var s1 := RunAction(s, OrderLogic("RiderArrive", s, p1), uuid).0;
    var o1 := o.(props := Assigned(o.props, Assignments("RiderArrive", o, p1)));
    var p2 := map["order_id" := o.pk, "now" := Int(t2)];
    assert p2.Keys == LogicParams("MerchantOut");
    RunOrderAction(s1, "MerchantOut", o1, p2, uuid);
    AssignmentsSpec("MerchantOut", o1, p2);
  }

  // ---------------------------------------------------------------------
  // setup_ontology

  /** The ontology after `register_action_type` for each action in turn; the first failure stops the run. */
  function RegisterActions(s: State, acts: seq<ActionType>): Result<State>
    decreases |acts|
  {
    if acts == [] then Ok(s)
    else
      match RegisterActionType(s, acts[0])
      case Err(e) => Err(e)
      case Ok(s1) => RegisterActions(s1, acts[1..])
  }

  /** The two link types, registered in order; each fails when its end types are unknown. */
  function RegisterLinks(s: State): Result<State>
  {
    match RegisterLinkType(s, OrderHasMerchant())
    case Err(e) => Err(e)
    case Ok(s2) => RegisterLinkType(s2, OrderHasRider())
  }

  /** The registration sequence of `setup_ontology`, for given Order, Merchant and Rider types and actions. */
  function SetupWith(s: State, fns: seq<Function>, order: ObjectType, merchant: ObjectType, rider: ObjectType,
                     acts: seq<ActionType>): Result<State>
  {
    match RegisterLinks(RegisterObjectType(RegisterObjectType(RegisterObjectType(s, order), merchant), rider))
    case Err(e) => Err(e)
    case Ok(s3) => RegisterActions(RegisterEach(s3, fns), acts)
  }

  /** `setup_ontology`: the three types, the two links, the pending functions and the seven actions, in that order. */
  function Setup(s: State, fns: seq<Function>): Result<State>
  {
    SetupWith(s, fns, OrderType(), MerchantType(), RiderType(), ActionTypes())
  }

  /** The api names of a list of action types, in order. */
  function Names(acts: seq<ActionType>): seq<string>
    decreases |acts|
  {
    if acts == [] then [] else [acts[0].apiName] + Names(acts[1..])
  }

  /** Actions whose targets are all registered register without error, changing nothing but the action registry. */
  lemma {:induction false} RegisterActionsFrame(s: State, acts: seq<ActionType>)
    requires forall i, j :: 0 <= i < |acts| && 0 <= j < |acts[i].targetObjectTypes| ==> acts[i].targetObjectTypes[j] in s.objectTypes.vals
    ensures RegisterActions(s, acts).Ok?
    ensures RegisterActions(s, acts).value.(actionTypes := s.actionTypes) == s
    decreases |acts|
  {
    if acts != [] {
      var s1 := s.(actionTypes := PyDict.Put(s.actionTypes, acts[0].apiName, acts[0]));
      assert RegisterActionType(s, acts[0]) == Ok(s1);
      var rest := acts[1..];
      assert forall i :: 0 <= i < |rest| ==> rest[i] == acts[i + 1];
      RegisterActionsFrame(s1, rest);
    }
  }

  /**
   * Actions with distinct names whose targets are all registered are all
   * registered, each under its name; other names and the rest of the
   * ontology are untouched.
   */
  lemma {:induction false} RegisterActionsSpec(s: State, acts: seq<ActionType>)
    requires forall i, j :: 0 <= i < |acts| && 0 <= j < |acts[i].targetObjectTypes| ==> acts[i].targetObjectTypes[j] in s.objectTypes.vals
    requires forall i, j :: 0 <= i < j < |acts| ==> acts[i].apiName != acts[j].apiName
    ensures RegisterActions(s, acts).Ok?
    ensures RegisterActions(s, acts).value.(actionTypes := s.actionTypes) == s
    ensures forall i :: 0 <= i < |acts| ==> PyDict.Get(RegisterActions(s, acts).value.actionTypes, acts[i].apiName) == Some(acts[i])
    ensures forall n :: (forall i :: 0 <= i < |acts| ==> acts[i].apiName != n) ==>
      PyDict.Get(RegisterActions(s, acts).value.actionTypes, n) == PyDict.Get(s.actionTypes, n)
    decreases |acts|
  {
    if acts != [] {
      var s1 := s.(actionTypes := PyDict.Put(s.actionTypes, acts[0].apiName, acts[0]));
      assert RegisterActionType(s, acts[0]) == Ok(s1);
      var rest := acts[1..];
      assert forall i :: 0 <= i < |rest| ==> rest[i] == acts[i + 1];
      RegisterActionsSpec(s1, rest);
      var r := RegisterActions(s1, rest).value;
      assert forall i :: 0 <= i < |rest| ==> rest[i].apiName != acts[0].apiName;
      forall i | 0 <= i < |acts| ensures PyDict.Get(r.actionTypes, acts[i].apiName) == Some(acts[i]) {
        if i > 0 {
          assert acts[i] == rest[i - 1];
        }
      }
      forall n | forall i :: 0 <= i < |acts| ==> acts[i].apiName != n
        ensures PyDict.Get(r.actionTypes, n) == PyDict.Get(s.actionTypes, n)
      {
        assert forall i :: 0 <= i < |rest| ==> rest[i].apiName != n;
      }
    }
  }

  /** New, distinct action names are appended to the registry's order. */
  lemma {:induction false} RegisterActionsKeys(s: State, acts: seq<ActionType>)
    requires RegisterActions(s, acts).Ok?
    requires forall i, j :: 0 <= i < j < |acts| ==> acts[i].apiName != acts[j].apiName
    requires forall i :: 0 <= i < |acts| ==> acts[i].apiName !in s.actionTypes.vals
    ensures RegisterActions(s, acts).value.actionTypes.keys == s.actionTypes.keys + Names(acts)
    decreases |acts|
  {
    if acts != [] {
      var r0 := RegisterActionType(s, acts[0]);
      assert r0.Ok?;
      var s1 := r0.value;
      assert s1.actionTypes == PyDict.Put(s.actionTypes, acts[0].apiName, acts[0]);
      var rest := acts[1..];
      assert RegisterActions(s, acts) == RegisterActions(s1, rest);
      assert forall i :: 0 <= i < |rest| ==> rest[i] == acts[i + 1];
      assert forall i :: 0 <= i < |rest| ==> rest[i].apiName !in s1.actionTypes.vals;
      RegisterActionsKeys(s1, rest);
      assert Names(acts) == [acts[0].apiName] + Names(rest);
      assert s.actionTypes.keys + [acts[0].apiName] + Names(rest) == s.actionTypes.keys + ([acts[0].apiName] + Names(rest));
    }
  }

  /** Each order action is named, targets the Order type, runs the logic of its name and has no access list. */
  lemma {:induction false} OrderActionSpec(apiName: string, displayName: string, params: seq<(string, PropertyType)>)
    ensures var a := OrderAction(apiName, displayName, params);
      && a.apiName == apiName && a.targetObjectTypes == [ORDER] && a.logic == Some(apiName) && a.permissions.None?
      && (forall i :: 0 <= i < |params| ==> params[i].0 in a.parameters.vals && a.parameters.vals[params[i].0].required)
    decreases |params|
  {
    if params != [] {
      var init := params[..|params| - 1];
      OrderActionSpec(apiName, displayName, init);
      assert forall i :: 0 <= i < |init| ==> init[i] == params[i];
    }
  }

  lemma TypesSpec()
    ensures OrderType().apiName == ORDER && MerchantType().apiName == MERCHANT && RiderType().apiName == RIDER
    ensures OrderType().primaryKey == "order_id" && MerchantType().primaryKey == "merchant_id" && RiderType().primaryKey == "rider_id"
  {
    WithPropertiesSpec(NewObjectType(ORDER, "Delivery Order", "order_id"), ORDER_PROPERTIES);
    WithPropertiesSpec(NewObjectType(MERCHANT, "Restaurant", "merchant_id"), [("merchant_id", STRING), ("name", STRING), ("address", STRING)]);
    WithPropertiesSpec(NewObjectType(RIDER, "Delivery Rider", "rider_id"), [("rider_id", STRING), ("name", STRING), ("phone", STRING)]);
  }

  /** Three types are registered, and nothing but the type registry and the store changes. */
  lemma RegisterThree(s: State, a: ObjectType, b: ObjectType, c: ObjectType)
    requires StateWf(s)
    ensures var r := RegisterObjectType(RegisterObjectType(RegisterObjectType(s, a), b), c);
      && StateWf(r) && r.linkTypes == s.linkTypes && r.actionTypes == s.actionTypes && r.functions == s.functions
      && a.apiName in r.objectTypes.vals && b.apiName in r.objectTypes.vals && c.apiName in r.objectTypes.vals
  {
    RegisterObjectTypeSpec(s, a);
    var s1 := RegisterObjectType(s, a);
    RegisterObjectTypeSpec(s1, b);
    var s2 := RegisterObjectType(s1, b);
    RegisterObjectTypeSpec(s2, c);
  }

  /** Three types with distinct names registered into an empty registry are its only keys, in order. */
  lemma RegisterThreeKeys(s: State, a: ObjectType, b: ObjectType, c: ObjectType)
    requires a.apiName != b.apiName && a.apiName != c.apiName && b.apiName != c.apiName
    requires s.objectTypes.keys == [] && s.objectTypes.vals == map[]
    ensures RegisterObjectType(RegisterObjectType(RegisterObjectType(s, a), b), c).objectTypes.keys == [a.apiName, b.apiName, c.apiName]
  {
  }

  /** With Order, Merchant and Rider registered both links are, as built; nothing else changes. */
  lemma RegisterLinksSpec(s: State)
    requires ORDER in s.objectTypes.vals && MERCHANT in s.objectTypes.vals && RIDER in s.objectTypes.vals
    ensures RegisterLinks(s).Ok?
    ensures var r := RegisterLinks(s).value;
      && r.(linkTypes := s.linkTypes) == s
      && PyDict.Get(r.linkTypes, HAS_MERCHANT) == Some(OrderHasMerchant())
      && PyDict.Get(r.linkTypes, HAS_RIDER) == Some(OrderHasRider())
      && (s.linkTypes.keys == [] && s.linkTypes.vals == map[] ==> r.linkTypes.keys == [HAS_MERCHANT, HAS_RIDER])
  {
  }

  /** The seven actions are built with distinct names, each targeting Order and running the logic of its name. */
  lemma ActionTypesSpec()
    ensures |ActionTypes()| == 7
    ensures forall i, j :: 0 <= i < j < |ActionTypes()| ==> ActionTypes()[i].apiName != ActionTypes()[j].apiName
    ensures forall i :: 0 <= i < |ActionTypes()| ==>
      ActionTypes()[i].targetObjectTypes == [ORDER] && ActionTypes()[i].logic == Some(ActionTypes()[i].apiName)
  {
    var acts := ActionTypes();
    forall i | 0 <= i < |acts|
      ensures acts[i].apiName == ACTION_TABLE[i].0 && acts[i].targetObjectTypes == [ORDER] && acts[i].logic == Some(acts[i].apiName)
    {
      OrderActionSpec(ACTION_TABLE[i].0, ACTION_TABLE[i].1, ACTION_TABLE[i].2);
    }
    TableNamesDistinct();
  }

  lemma TableNamesDistinct()
    ensures forall i, j :: 0 <= i < j < |ACTION_TABLE| ==> ACTION_TABLE[i].0 != ACTION_TABLE[j].0
  {
  }

  lemma {:induction false} NamesSpec(acts: seq<ActionType>)
    ensures |Names(acts)| == |acts| && forall i :: 0 <= i < |acts| ==> Names(acts)[i] == acts[i].apiName
    decreases |acts|
  {
    if acts != [] {
      NamesSpec(acts[1..]);
    }
  }

  /** The ontology `setup_ontology` leaves before registering the actions. */
  lemma SetupPrefix(s: State, fns: seq<Function>, order: ObjectType, merchant: ObjectType, rider: ObjectType,
                    acts: seq<ActionType>) returns (s4: State)
    requires StateWf(s)
    requires order.apiName == ORDER && merchant.apiName == MERCHANT && rider.apiName == RIDER
    ensures SetupWith(s, fns, order, merchant, rider, acts) == RegisterActions(s4, acts)
    ensures ORDER in s4.objectTypes.vals && MERCHANT in s4.objectTypes.vals && RIDER in s4.objectTypes.vals
    ensures PyDict.Get(s4.linkTypes, HAS_MERCHANT) == Some(OrderHasMerchant())
    ensures PyDict.Get(s4.linkTypes, HAS_RIDER) == Some(OrderHasRider())
    ensures s4.actionTypes == s.actionTypes
    ensures s.objectTypes.keys == [] && s.objectTypes.vals == map[] ==> s4.objectTypes.keys == [ORDER, MERCHANT, RIDER]
    ensures s.linkTypes.keys == [] && s.linkTypes.vals == map[] ==> s4.linkTypes.keys == [HAS_MERCHANT, HAS_RIDER]
  {
    RegisterThree(s, order, merchant, rider);
    if s.objectTypes.keys == [] && s.objectTypes.vals == map[] {
      RegisterThreeKeys(s, order, merchant, rider);
    }
    var s1 := RegisterObjectType(RegisterObjectType(RegisterObjectType(s, order), merchant), rider);
    RegisterLinksSpec(s1);
    var s3 := RegisterLinks(s1).value;
    s4 := RegisterEach(s3, fns);
    RegisterEachFrame(s3, fns);
  }

  /** The registration sequence succeeds and registers everything it is given, whatever the pending functions. */
  lemma SetupWithSpec(s: State, fns: seq<Function>, order: ObjectType, merchant: ObjectType, rider: ObjectType,
                      acts: seq<ActionType>)
    requires StateWf(s) && Parts(order, merchant, rider, acts)
    ensures SetupWith(s, fns, order, merchant, rider, acts).Ok?
    ensures var r := SetupWith(s, fns, order, merchant, rider, acts).value;
      && ORDER in r.objectTypes.vals && MERCHANT in r.objectTypes.vals && RIDER in r.objectTypes.vals
      && PyDict.Get(r.linkTypes, HAS_MERCHANT) == Some(OrderHasMerchant())
      && PyDict.Get(r.linkTypes, HAS_RIDER) == Some(OrderHasRider())
    ensures var r := SetupWith(s, fns, order, merchant, rider, acts).value;
      forall i :: 0 <= i < |acts| ==> PyDict.Get(r.actionTypes, acts[i].apiName) == Some(acts[i])
  {
    var s4 := SetupPrefix(s, fns, order, merchant, rider, acts);
    RegisterActionsSpec(s4, acts);
    var r := RegisterActions(s4, acts).value;
    assert r.objectTypes == s4.objectTypes && r.linkTypes == s4.linkTypes;
  }

  /** Order actions registered into an empty action registry are its only keys, in order. */
  lemma ActionsOnEmpty(s: State, acts: seq<ActionType>)
    requires ORDER in s.objectTypes.vals && s.actionTypes.keys == [] && s.actionTypes.vals == map[]
    requires forall i :: 0 <= i < |acts| ==> acts[i].targetObjectTypes == [ORDER]
    requires forall i, j :: 0 <= i < j < |acts| ==> acts[i].apiName != acts[j].apiName
    ensures RegisterActions(s, acts).Ok?
    ensures RegisterActions(s, acts).value.(actionTypes := s.actionTypes) == s
    ensures RegisterActions(s, acts).value.actionTypes.keys == Names(acts)
  {
    forall i, j | 0 <= i < |acts| && 0 <= j < |acts[i].targetObjectTypes|
      ensures acts[i].targetObjectTypes[j] in s.objectTypes.vals
    {
      assert acts[i].targetObjectTypes[j] == ORDER;
    }
    RegisterActionsFrame(s, acts);
    RegisterActionsKeys(s, acts);
    assert s.actionTypes.keys + Names(acts) == Names(acts);
  }

  /** A well-formed ontology with no types, links or actions registered. */
  ghost predicate Fresh(s: State)
  {
    && StateWf(s)
    && s.objectTypes.keys == [] && s.objectTypes.vals == map[] && s.linkTypes.keys == [] && s.linkTypes.vals == map[]
    && s.actionTypes.keys == [] && s.actionTypes.vals == map[]
  }

  /** The example's types carry their names; its actions have distinct names and target Order. */
  ghost predicate Parts(order: ObjectType, merchant: ObjectType, rider: ObjectType, acts: seq<ActionType>)
  {
    && order.apiName == ORDER && merchant.apiName == MERCHANT && rider.apiName == RIDER
    && (forall i :: 0 <= i < |acts| ==> acts[i].targetObjectTypes == [ORDER])
    && (forall i, j :: 0 <= i < j < |acts| ==> acts[i].apiName != acts[j].apiName)
  }

  lemma PartsHold()
    ensures Parts(OrderType(), MerchantType(), RiderType(), ActionTypes())
    ensures |Names(ActionTypes())| == 7
  {
    TypesSpec();
    ActionTypesSpec();
    NamesSpec(ActionTypes());
  }

  /** On an empty registry the sequence leaves exactly its own types, links and actions, in order. */
  lemma SetupWithFresh(s: State, fns: seq<Function>, order: ObjectType, merchant: ObjectType, rider: ObjectType,
                       acts: seq<ActionType>)
    requires Fresh(s) && Parts(order, merchant, rider, acts)
    ensures SetupWith(s, fns, order, merchant, rider, acts).Ok?
    ensures var r := SetupWith(s, fns, order, merchant, rider, acts).value;
      r.objectTypes.keys == [ORDER, MERCHANT, RIDER] && r.linkTypes.keys == [HAS_MERCHANT, HAS_RIDER]
      && r.actionTypes.keys == Names(acts)
  {
    var s4 := SetupPrefix(s, fns, order, merchant, rider, acts);
    ActionsOnEmpty(s4, acts);
  }

  /**
   * Registering the example on any well-formed ontology succeeds, and the
   * three types, both links (as built) and all seven actions (as built)
   * are registered.
   */
  lemma SetupSpec(s: State, fns: seq<Function>)
    requires StateWf(s)
    ensures Setup(s, fns).Ok?
    ensures var r := Setup(s, fns).value;
      && ORDER in r.objectTypes.vals && MERCHANT in r.objectTypes.vals && RIDER in r.objectTypes.vals
      && PyDict.Get(r.linkTypes, HAS_MERCHANT) == Some(OrderHasMerchant())
      && PyDict.Get(r.linkTypes, HAS_RIDER) == Some(OrderHasRider())
      && (forall i :: 0 <= i < |ActionTypes()| ==> PyDict.Get(r.actionTypes, ActionTypes()[i].apiName) == Some(ActionTypes()[i]))
  {
    PartsHold();
    SetupWithSpec(s, fns, OrderType(), MerchantType(), RiderType(), ActionTypes());
  }

  /** On a fresh ontology `setup_ontology` leaves exactly 3 object types, 2 link types and 7 action types. */
  lemma SetupCounts(fns: seq<Function>)
    ensures Setup(Initial(), fns).Ok?
    ensures var r := Setup(Initial(), fns).value;
      |r.objectTypes.keys| == 3 && |r.linkTypes.keys| == 2 && |r.actionTypes.keys| == 7
  {
    PartsHold();
    assert Fresh(Initial());
    SetupWithFresh(Initial(), fns, OrderType(), MerchantType(), RiderType(), ActionTypes());
  }
}
