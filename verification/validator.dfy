/**
 * The candidate data validator: a walk over a vacancy's field schema that
 * reports the first field whose value is missing or malformed.
 */
module Validator {
  import opened Wrappers
  import opened Errors
  import opened Schemas
  import opened EmailFormat

  /**
   * Whether JavaScript's `Number()` parses a string to a number other than
   * NaN. The parser itself is not modelled; every result here holds for any
   * such test.
   */
  type NumericTest = string -> bool

  /** The methods every plain object inherits from `Object.prototype`. */
  const ObjectPrototypeMethods: set<string> := {
    "constructor", "hasOwnProperty", "isPrototypeOf", "propertyIsEnumerable",
    "toLocaleString", "toString", "valueOf",
    "__defineGetter__", "__defineSetter__", "__lookupGetter__", "__lookupSetter__"
  }

  /**
   * `data[key]` on a plain object: the submitted value when the key is its
   * own; otherwise an inherited method, or `Object.prototype` itself under
   * `__proto__`; otherwise nothing (undefined).
   */
  function Lookup(data: map<string, Value>, key: string): (r: Option<Value>)
    ensures key in data ==> r == Some(data[key])
    ensures key !in data ==> (r.Some? <==> key in ObjectPrototypeMethods || key == "__proto__")
    ensures r.Some? && key !in data ==> r.value.JFunction? || r.value.JObject?
  {
    if key in data then Some(data[key])
    else if key in ObjectPrototypeMethods then Some(JFunction)
    else if key == "__proto__" then Some(JObject)
    else None
  }

  /** JavaScript truthiness: undefined, null, false, 0 and "" are falsy; objects and functions are truthy. */
  predicate IsTruthy(v: Option<Value>) {
    match v
    case None => false
    case Some(JNull) => false
    case Some(JBool(b)) => b
    case Some(JNumber(n)) => n != 0.0
    case Some(JString(s)) => s != ""
    case Some(JObject) => true
    case Some(JFunction) => true
  }

  /**
   * The e-mail test applied to a value. A non-string is first turned into a
   * string ("true", "[object Object]", a numeral, a function's source text
   * with its spaces), none of which the pattern accepts, so only strings can
   * pass.
   */
  predicate IsEmailValue(v: Value) {
    v.JString? && IsValidEmail(v.s)
  }

  /** `isNaN(Number(v))`: null, booleans and JSON numbers convert; a plain object or a function does not. */
  predicate IsNaN(v: Value, numeric: NumericTest) {
    match v
    case JString(s) => !numeric(s)
    case JObject => true
    case JFunction => true
    case _ => false
  }

  /** The checks one field runs, in order: required, then e-mail format, then number format. */
  function CheckField(data: map<string, Value>, f: VacancyField, numeric: NumericTest): (r: Option<FieldViolation>)
    ensures r.Some? ==> r.value.key == f.key
    ensures f.required && !IsTruthy(Lookup(data, f.key)) ==> r == Some(Required(f.key))
    ensures !f.required && !IsTruthy(Lookup(data, f.key)) ==> r.None?
    ensures IsTruthy(Lookup(data, f.key)) ==>
      var v := Lookup(data, f.key).value;
      && (r == Some(NotAnEmail(f.key)) <==> f.fieldType == Email && !IsEmailValue(v))
      && (r == Some(NotANumber(f.key)) <==> f.fieldType == Number && IsNaN(v, numeric))
      && (r.None? <==> !(f.fieldType == Email && !IsEmailValue(v)) && !(f.fieldType == Number && IsNaN(v, numeric)))
  {
    var v := Lookup(data, f.key);
    if f.required && !IsTruthy(v) then Some(Required(f.key))
    else if IsTruthy(v) && f.fieldType == Email && !IsEmailValue(v.value) then Some(NotAnEmail(f.key))
    else if IsTruthy(v) && f.fieldType == Number && IsNaN(v.value, numeric) then Some(NotANumber(f.key))
    else None
  }

  /** Field `i` is the first field of the schema that fails, and it fails with `e`. */
  ghost predicate FirstViolationAt(data: map<string, Value>, fields: seq<VacancyField>, numeric: NumericTest, i: int, e: FieldViolation) {
    && 0 <= i < |fields|
    && CheckField(data, fields[i], numeric) == Some(e)
    && forall j :: 0 <= j < i ==> CheckField(data, fields[j], numeric).None?
  }

  /**
   * Validates `data` against `fields` in schema order and stops at the first
   * violation. Keys of `data` that no field names are never looked at.
   */
  function Validate(data: map<string, Value>, fields: seq<VacancyField>, numeric: NumericTest): (r: Option<FieldViolation>)
    ensures r.None? <==> forall i :: 0 <= i < |fields| ==> CheckField(data, fields[i], numeric).None?
    ensures r.Some? ==> exists i :: FirstViolationAt(data, fields, numeric, i, r.value)
  {
    if fields == [] then None
    else
      match CheckField(data, fields[0], numeric)
      case Some(e) =>
        assert FirstViolationAt(data, fields, numeric, 0, e);
        Some(e)
      case None =>
        var r := Validate(data, fields[1..], numeric);
        assert forall i :: 1 <= i < |fields| ==> fields[i] == fields[1..][i - 1];
        assert r.Some? ==> exists i :: FirstViolationAt(data, fields, numeric, i, r.value) by {
          if r.Some? {
            var i :| FirstViolationAt(data, fields[1..], numeric, i, r.value);
            assert FirstViolationAt(data, fields, numeric, i + 1, r.value);
          }
        }
        r
  }

  /** Validation of a concatenated schema is validation of its first part, then of the rest. */
  lemma {:induction false} ValidateAppend(data: map<string, Value>, a: seq<VacancyField>, b: seq<VacancyField>, numeric: NumericTest)
    ensures Validate(data, a + b, numeric) ==
      (if Validate(data, a, numeric).Some? then Validate(data, a, numeric) else Validate(data, b, numeric))
  {
    if a == [] {
      assert a + b == b;
    } else {
      assert (a + b)[0] == a[0];
      assert (a + b)[1..] == a[1..] + b;
      ValidateAppend(data, a[1..], b, numeric);
    }
  }

  /** A key that no field of the schema names has no effect on validation. */
  lemma {:induction false} ValidateIgnoresUnknownKeys(data: map<string, Value>, fields: seq<VacancyField>, numeric: NumericTest, k: string, v: Value)
    requires forall i :: 0 <= i < |fields| ==> fields[i].key != k
    ensures Validate(data[k := v], fields, numeric) == Validate(data, fields, numeric)
  {
    if fields != [] {
      assert Lookup(data[k := v], fields[0].key) == Lookup(data, fields[0].key);
      assert CheckField(data[k := v], fields[0], numeric) == CheckField(data, fields[0], numeric);
      ValidateIgnoresUnknownKeys(data, fields[1..], numeric, k, v);
    }
  }

  /** A required e-mail field with nothing submitted is reported as required. */
  lemma MissingRequiredEmail(numeric: NumericTest)
    ensures Validate(map[], [VacancyField("email", Email, true, [])], numeric) == Some(Required("email"))
  {}

  /**
   * A malformed address in a required e-mail field is a format error, not a
   * required error ("not-an-email" is one: see RejectsMissingAt).
   */
  lemma MalformedEmailIsFormatError(s: string, numeric: NumericTest)
    requires s != "" && !IsValidEmail(s)
    ensures Validate(map["email" := JString(s)], [VacancyField("email", Email, true, [])], numeric)
         == Some(NotAnEmail("email"))
  {
    var f := VacancyField("email", Email, true, []);
    assert CheckField(map["email" := JString(s)], f, numeric) == Some(NotAnEmail("email"));
  }

  /** A numeric string in an optional number field passes. */
  lemma NumericStringPasses(numeric: NumericTest)
    requires numeric("42")
    ensures Validate(map["age" := JString("42")], [VacancyField("age", Number, false, [])], numeric) == None
  {}

  /** A missing required field is reported; an unknown key is not. */
  lemma UnknownKeyNotReported(numeric: NumericTest)
    ensures Validate(map["extra" := JString("x")], [VacancyField("name", Text, true, [])], numeric) == Some(Required("name"))
  {}

  /**
   * Names inherited from `Object.prototype` are present on empty data: a
   * required text field `constructor` passes, an e-mail field `toString`
   * fails the format check and a number field `valueOf` fails the number
   * check.
   */
  lemma InheritedNamesArePresent(numeric: NumericTest)
    ensures Validate(map[], [VacancyField("constructor", Text, true, [])], numeric) == None
    ensures Validate(map[], [VacancyField("toString", Email, true, [])], numeric) == Some(NotAnEmail("toString"))
    ensures Validate(map[], [VacancyField("valueOf", Number, false, [])], numeric) == Some(NotANumber("valueOf"))
    ensures Validate(map[], [VacancyField("__proto__", Text, true, [])], numeric) == None
  {}

  /** Zero and false are falsy, so they fail a required field. */
  lemma FalsyValuesFailRequired(numeric: NumericTest, key: string, t: FieldType)
    ensures Validate(map[key := JNumber(0.0)], [VacancyField(key, t, true, [])], numeric) == Some(Required(key))
    ensures Validate(map[key := JBool(false)], [VacancyField(key, t, true, [])], numeric) == Some(Required(key))
    ensures Validate(map[key := JNull], [VacancyField(key, t, true, [])], numeric) == Some(Required(key))
  {}
}
