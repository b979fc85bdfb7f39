/**
 * The entities of the ontology engine (src/ontology_framework/core.py):
 * object types, object instances, links, link types, functions and actions.
 * User-supplied callables are named by an id; what they compute is an
 * oracle passed to the operations that call them.
 */
module Schema {
  import opened Wrappers
  import opened Values
  import PyDict
  import Permissions

  datatype PropertyType = STRING | INTEGER | BOOLEAN | DATE | TIMESTAMP

  datatype TypeSpec =
    | Primitive(pt: PropertyType)
    | ObjectTypeSpec(objectType: string)
    | ObjectSetTypeSpec(objectType: string)

  /**
   * `ObjectType`.  `properties` maps a property name to its type and
   * `derivedProperties` maps a derived property to its backing function.
   */
  datatype ObjectType = ObjectType(
    apiName: string,
    displayName: string,
    properties: PyDict.Dict<string, PropertyType>,
    derivedProperties: PyDict.Dict<string, string>,
    primaryKey: string,
    backingDatasource: Option<string>,
    permissions: Option<Permissions.AccessControlList>)

  /** `ObjectInstance` (its runtime metadata is not part of the value). */
  datatype ObjectInstance = ObjectInstance(typeName: string, pk: Value, props: map<string, Value>)

  /** `obj.property_values.get(name)`. */
  function PropOf(o: ObjectInstance, name: string): Value
  {
    if name in o.props then o.props[name] else Null
  }

  /**
   * `obj.get(name)`: a stored property first, otherwise whatever the
   * derived-property machinery yields (`derive`, Null when there is none).
   */
  function GetProp(o: ObjectInstance, name: string, derive: (ObjectInstance, string) -> Value): Value
  {
    if name in o.props then o.props[name] else derive(o, name)
  }

  datatype Link = Link(linkType: string, source: Value, target: Value)

  datatype LinkType = LinkType(
    apiName: string,
    displayName: string,
    sourceType: string,
    targetType: string,
    validationFunctions: seq<string>,
    scoringFunction: Option<string>)

  datatype FunctionArgument = FunctionArgument(name: string, spec: TypeSpec, required: bool)

  /** `Function`; `logic` names the Python callable, None when there is none. */
  datatype Function = Function(
    apiName: string,
    displayName: string,
    inputs: PyDict.Dict<string, FunctionArgument>,
    outputType: Option<TypeSpec>,
    logic: Option<string>,
    description: Option<string>)

  /** What a function's logic returns: a dict or any other value. */
  datatype Ret = RVal(v: Value) | RDict(d: map<string, Value>)

  /** A keyword argument passed to a function. */
  datatype Arg =
    | AVal(v: Value)
    | AObj(o: ObjectInstance)
    | ASet(setType: string, members: seq<ObjectInstance>)

  /** The callables behind `Function.logic`: logic id and keyword arguments to a return value. */
  type Logic = (string, map<string, Arg>) -> Ret

  datatype ActionParameter = ActionParameter(apiName: string, dataType: PropertyType, required: bool)

  datatype ActionType = ActionType(
    apiName: string,
    displayName: string,
    targetObjectTypes: seq<string>,
    parameters: PyDict.Dict<string, ActionParameter>,
    logic: Option<string>,
    permissions: Option<Permissions.AccessControlList>)

  datatype ActionLog = ActionLog(
    id: string,
    actionType: string,
    userId: string,
    timestamp: int,
    parameters: map<string, Value>,
    changes: seq<string>)

  /** A fresh `ObjectType` with the defaults of the dataclass. */
  function NewObjectType(apiName: string, displayName: string, primaryKey: string): ObjectType
  {
    ObjectType(apiName, displayName, PyDict.Empty(), PyDict.Empty(), primaryKey, None, None)
  }

  /** `ObjectType.add_property` */
  function AddProperty(t: ObjectType, name: string, pt: PropertyType): ObjectType
  {
    t.(properties := PyDict.Put(t.properties, name, pt))
  }

  /** `ObjectType.add_derived_property` */
  function AddDerivedProperty(t: ObjectType, name: string, backing: string): ObjectType
  {
    t.(derivedProperties := PyDict.Put(t.derivedProperties, name, backing))
  }

  /** `ActionType.add_parameter` (required by default). */
  function AddParameter(a: ActionType, name: string, pt: PropertyType): ActionType
  {
    a.(parameters := PyDict.Put(a.parameters, name, ActionParameter(name, pt, true)))
  }

  /** `Function.add_input` (required by default). */
  function AddInput(f: Function, name: string, spec: TypeSpec): Function
  {
    f.(inputs := PyDict.Put(f.inputs, name, FunctionArgument(name, spec, true)))
  }
}
