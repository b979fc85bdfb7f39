/**
 * The framework's structured exceptions: an `OntologyError` carries a code
 * (its class name unless one is given), a category, a severity, string
 * details and a context dictionary; an `ErrorCollector` gathers errors and
 * warnings; `handle_exception` turns any exception into an `OntologyError`.
 *
 * Errors are objects because the collector lowers a warning's severity in
 * place and `handle_exception` merges into an existing error's context.
 */
module Exceptions {
  import opened Wrappers
  import opened Values
  import Seqs

  datatype Severity = LOW | MEDIUM | HIGH | CRITICAL

  datatype Category = VALIDATION | PERMISSION | NOT_FOUND | SYSTEM | BUSINESS | INTEGRATION | CONFIGURATION | PERFORMANCE

  /** `error_code or <class name>`: an empty or absent code falls back to the class name. */
  function ErrorCode(code: string, className: string): (r: string)
    ensures r == code || r == className
    ensures r == "" ==> code == "" && className == ""
    ensures code != "" <==> r == code && r != ""
  {
    if code != "" then code else className
  }

  class OntologyError {
    const className: string
    const message: string
    const errorCode: string
    const category: Category
    var severity: Severity
    const details: map<string, string>
    var context: map<string, Value>

    /** `OntologyError.__init__` (and the subclasses' calls to it). */
    constructor (className: string, message: string, code: string, category: Category, severity: Severity,
                 details: map<string, string>, context: map<string, Value>)
      ensures this.className == className && this.message == message
      ensures errorCode == ErrorCode(code, className)
      ensures this.category == category && this.severity == severity
      ensures this.details == details && this.context == context
    {
      this.className := className;
      this.message := message;
      this.errorCode := ErrorCode(code, className);
      this.category := category;
      this.severity := severity;
      this.details := details;
      this.context := context;
    }

    /** `__str__`: the code in brackets, a blank, then the message. */
    function Text(): (r: string)
      ensures |r| == |errorCode| + 3 + |message|
      ensures r[..|errorCode| + 3] == "[" + errorCode + "] " && r[|errorCode| + 3..] == message
    {
      "[" + errorCode + "] " + message
    }
  }

  /** Adds `key := value` to the details when the value is set (Python truthiness of a string). */
  function NoteIfSet(d: map<string, string>, key: string, value: string): (r: map<string, string>)
    ensures value != "" ==> r == d[key := value]
    ensures value == "" ==> r == d
  {
    if value != "" then d[key := value] else d
  }

  /**
   * The details `ValidationError` records: the field name and expected type
   * when given, and `str(field_value)` whenever the value is not None; every
   * other entry comes from the caller's own details.
   */
  function ValidationDetails(base: map<string, string>, fieldName: string, fieldValue: Value, expectedType: string)
    : (r: map<string, string>)
    ensures fieldName != "" ==> "field_name" in r && r["field_name"] == fieldName
    ensures fieldValue != Null ==> "field_value" in r && r["field_value"] == Show(fieldValue)
    ensures expectedType != "" ==> "expected_type" in r && r["expected_type"] == expectedType
    ensures forall k :: k in r && k !in {"field_name", "field_value", "expected_type"} ==> k in base && r[k] == base[k]
    ensures forall k :: k in base ==> k in r
    ensures fieldName == "" && fieldValue == Null && expectedType == "" ==> r == base
  {
    var d := NoteIfSet(base, "field_name", fieldName);
    var d := if fieldValue != Null then d["field_value" := Show(fieldValue)] else d;
    NoteIfSet(d, "expected_type", expectedType)
  }

  /** `ValidationError(...)`: category VALIDATION, severity MEDIUM, and the field details. */
  method NewValidationError(message: string, fieldName: string, fieldValue: Value, expectedType: string,
                            base: map<string, string>, code: string, context: map<string, Value>)
    returns (e: OntologyError)
    ensures fresh(e)
    ensures e.className == "ValidationError" && e.message == message
    ensures e.errorCode == (if code != "" then code else "ValidationError")
    ensures e.category == VALIDATION && e.severity == MEDIUM
    ensures e.details == ValidationDetails(base, fieldName, fieldValue, expectedType) && e.context == context
  {
    e := new OntologyError("ValidationError", message, code, VALIDATION, MEDIUM,
                           ValidationDetails(base, fieldName, fieldValue, expectedType), context);
  }

  // ---------------------------------------------------------------------
  // ErrorCollector

  /** Which errors of `es` have the given severity. */
  function SeverityFlags(es: seq<OntologyError>, sev: Severity): (r: seq<bool>)
    reads es
    ensures |r| == |es| && forall i :: 0 <= i < |es| ==> r[i] == (es[i].severity == sev)
  {
    if es == [] then [] else SeverityFlags(es[..|es| - 1], sev) + [es[|es| - 1].severity == sev]
  }

  /** Which errors of `es` are in the given category. */
  function CategoryFlags(es: seq<OntologyError>, cat: Category): (r: seq<bool>)
    ensures |r| == |es| && forall i :: 0 <= i < |es| ==> r[i] == (es[i].category == cat)
  {
    if es == [] then [] else CategoryFlags(es[..|es| - 1], cat) + [es[|es| - 1].category == cat]
  }

  /**
   * The errors of `es` with the given severity, in order and with repeats:
   * the k-th is the error at the k-th matching position.
   */
  function WithSeverity(es: seq<OntologyError>, sev: Severity): (r: seq<OntologyError>)
    reads es
    ensures |r| == |Seqs.Hits(SeverityFlags(es, sev))|
    ensures forall k :: 0 <= k < |r| ==> r[k] == es[Seqs.Hits(SeverityFlags(es, sev))[k]]
    ensures forall e :: e in r ==> e in es && e.severity == sev
    ensures forall e :: e in es && e.severity == sev ==> e in r
  {
    var flags := SeverityFlags(es, sev);
    var r := Seqs.Pick(es, flags);
    forall e | e in r
      ensures e in es && e.severity == sev
    {
      var i := Seqs.PickFrom(es, flags, e);
    }
    forall e | e in es && e.severity == sev
      ensures e in r
    {
      var i :| 0 <= i < |es| && es[i] == e;
      Seqs.PickHas(es, flags, i);
    }
    r
  }

  /**
   * The errors of `es` in the given category, in order and with repeats:
   * the k-th is the error at the k-th matching position.
   */
  function WithCategory(es: seq<OntologyError>, cat: Category): (r: seq<OntologyError>)
    ensures |r| == |Seqs.Hits(CategoryFlags(es, cat))|
    ensures forall k :: 0 <= k < |r| ==> r[k] == es[Seqs.Hits(CategoryFlags(es, cat))[k]]
    ensures forall e :: e in r ==> e in es && e.category == cat
    ensures forall e :: e in es && e.category == cat ==> e in r
  {
    var flags := CategoryFlags(es, cat);
    var r := Seqs.Pick(es, flags);
    forall e | e in r
      ensures e in es && e.category == cat
    {
      var i := Seqs.PickFrom(es, flags, e);
    }
    forall e | e in es && e.category == cat
      ensures e in r
    {
      var i :| 0 <= i < |es| && es[i] == e;
      Seqs.PickHas(es, flags, i);
    }
    r
  }

  class ErrorCollector {
    var errors: seq<OntologyError>
    var warnings: seq<OntologyError>

    constructor ()
      ensures errors == [] && warnings == []
    {
      errors := [];
      warnings := [];
    }

    /** `add_error`: appends the error and touches nothing else. */
    method AddError(e: OntologyError)
      modifies this
      ensures errors == old(errors) + [e] && warnings == old(warnings)
    {
      errors := errors + [e];
    }

    /** `add_warning`: forces the warning's severity to LOW, then appends it. */
    method AddWarning(w: OntologyError)
      modifies this, w
      ensures warnings == old(warnings) + [w] && errors == old(errors)
      ensures w.severity == LOW && w.context == old(w.context)
      ensures w in BySeverity(LOW)
    {
      w.severity := LOW;
      warnings := warnings + [w];
      assert warnings[|warnings| - 1] == w;
    }

    predicate HasErrors()
      reads this
    {
      |errors| > 0
    }

    predicate HasWarnings()
      reads this
    {
      |warnings| > 0
    }

    /** `get_all`: the errors, then the warnings. */
    function GetAll(): (r: seq<OntologyError>)
      reads this
      ensures |r| == |errors| + |warnings|
      ensures r[..|errors|] == errors && r[|errors|..] == warnings
    {
      errors + warnings
    }

    /** `get_by_severity`: the collected items of that severity. */
    function BySeverity(sev: Severity): (r: seq<OntologyError>)
      reads this, errors, warnings
      ensures |r| == |Seqs.Hits(SeverityFlags(errors + warnings, sev))|
      ensures forall k :: 0 <= k < |r| ==> r[k] == (errors + warnings)[Seqs.Hits(SeverityFlags(errors + warnings, sev))[k]]
      ensures forall e :: e in r ==> (e in errors || e in warnings) && e.severity == sev
      ensures forall e :: e in errors && e.severity == sev ==> e in r
      ensures forall e :: e in warnings && e.severity == sev ==> e in r
    {
      WithSeverity(GetAll(), sev)
    }

    /** `get_by_category`: the collected items of that category. */
    function ByCategory(cat: Category): (r: seq<OntologyError>)
      reads this
      ensures |r| == |Seqs.Hits(CategoryFlags(errors + warnings, cat))|
      ensures forall k :: 0 <= k < |r| ==> r[k] == (errors + warnings)[Seqs.Hits(CategoryFlags(errors + warnings, cat))[k]]
      ensures forall e :: e in r ==> (e in errors || e in warnings) && e.category == cat
      ensures forall e :: e in errors && e.category == cat ==> e in r
      ensures forall e :: e in warnings && e.category == cat ==> e in r
    {
      WithCategory(GetAll(), cat)
    }

    /** `clear`: both lists become empty. */
    method Clear()
      modifies this
      ensures errors == [] && warnings == []
      ensures !HasErrors() && !HasWarnings()
    {
      errors := [];
      warnings := [];
    }
  }

  // ---------------------------------------------------------------------
  // handle_exception

  /** The built-in exception classes `handle_exception` tells apart (with their subclasses). */
  datatype BuiltinKind = BValueError | BTypeError | BKeyError | BPermissionError | BOther

  /** An exception handed to `handle_exception`: a framework error, or a built-in one with its `str`. */
  datatype Raised = Framework(err: OntologyError) | Builtin(kind: BuiltinKind, text: string)

  /**
   * The category `handle_exception` gives a built-in exception as written.
   * Inside the module the name `PermissionError` is the framework's own
   * subclass, which the first branch already returned, so a built-in
   * PermissionError falls through to SYSTEM.
   */
  function CategoryAsWritten(k: BuiltinKind): Category
  {
    match k
    case BValueError => VALIDATION
    case BKeyError => NOT_FOUND
    case BTypeError => VALIDATION
    case _ => SYSTEM
  }

  /** The ontology's own permission check raises the built-in PermissionError, which ends up as SYSTEM. */
  lemma BuiltinPermissionMisfiled()
    ensures CategoryAsWritten(BPermissionError) == SYSTEM
    ensures CategoryOf(BPermissionError) == PERMISSION
  {
  }

  /**
   * The intended category: ValueError and TypeError are VALIDATION, a
   * permission failure PERMISSION, KeyError NOT_FOUND, anything else SYSTEM.
   */
  function CategoryOf(k: BuiltinKind): (r: Category)
    ensures r == VALIDATION <==> k == BValueError || k == BTypeError
    ensures r == PERMISSION <==> k == BPermissionError
    ensures r == NOT_FOUND <==> k == BKeyError
    ensures r == SYSTEM <==> k == BOther
    ensures k != BPermissionError ==> r == CategoryAsWritten(k)
  {
    match k
    case BValueError => VALIDATION
    case BPermissionError => PERMISSION
    case BKeyError => NOT_FOUND
    case BTypeError => VALIDATION
    case BOther => SYSTEM
  }

  /**
   * `handle_exception`: a framework error comes back as the same object with
   * the context merged in; any other exception becomes a new OntologyError
   * of its category, with `str(e)` as message (the default when empty).
   */
  method HandleException(x: Raised, context: map<string, Value>, defaultMessage: string) returns (e: OntologyError)
    modifies if x.Framework? then {x.err} else {}
    ensures x.Framework? ==>
      e == x.err && e.context == old(x.err.context) + context && e.severity == old(x.err.severity)
    ensures x.Builtin? ==>
      fresh(e) && e.className == "OntologyError" && e.errorCode == "OntologyError"
      && e.message == (if x.text == "" then defaultMessage else x.text)
      && e.category == CategoryOf(x.kind) && e.severity == MEDIUM
      && e.details == map[] && e.context == context
  {
    if x.Framework? {
      if context != map[] {
        x.err.context := x.err.context + context;
      } else {
        assert x.err.context + context == x.err.context;
      }
      e := x.err;
    } else {
      var message := if x.text == "" then defaultMessage else x.text;
      e := new OntologyError("OntologyError", message, "", CategoryOf(x.kind), MEDIUM, map[], context);
    }
  }
}
