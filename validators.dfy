/** The parameter validators of minihass/_validators.py. Each returns a value
    or raises, and the order of their checks decides which exception. */
module Validators {
  import opened PyValues

  /** The entity categories Home Assistant accepts besides "no category". */
  const ValidEntityCategories: seq<string> := ["diagnostic", "config"]

  /** Values of the type pair `(str, NoneType)`. */
  predicate StringOrNone(v: Value) {
    v.None? || v.Str?
  }

  /** An accepted entity category: `None` or one of the listed strings. */
  predicate AllowedCategory(v: Value) {
    v.None? || (v.Str? && v.s in ValidEntityCategories)
  }

  /** `param if param else None`. */
  function FalsyToNone(v: Value): Value {
    if Truthy(v) then v else None
  }

  /** `validate_entity_category`: the type check runs before the membership
      check, so a non-string is a TypeError even though it is not a category. */
  function ValidateEntityCategory(category: Value): (r: Result<Value>)
    ensures r == Ok(category) <==> AllowedCategory(category)
    ensures r.Ok? ==> r.value == category
    ensures r == Err(TypeError) <==> !StringOrNone(category)
    ensures r == Err(ValueError) <==> category.Str? && category.s !in ValidEntityCategories
  {
    if !StringOrNone(category) then Err(TypeError)
    else if category != None && category.s !in ValidEntityCategories then Err(ValueError)
    else Ok(category)
  }

  /** `validate_string(param, none_ok)`: a non-empty string is returned as it is;
      with `noneOk`, `None` and `""` both collapse to `None`. */
  function ValidateString(param: Value, noneOk: bool): (r: Result<Value>)
    ensures param.Str? && param.s != "" ==> r == Ok(param)
    ensures param.None? ==> r == if noneOk then Ok(None) else Err(TypeError)
    ensures param == Str("") ==> r == if noneOk then Ok(None) else Err(ValueError)
    ensures !StringOrNone(param) ==> r == Err(TypeError)
    ensures r.Ok? <==> StringOrNone(param) && (noneOk || Truthy(param))
    ensures r.Ok? ==> r.value == FalsyToNone(param) && StringOrNone(r.value)
  {
    if param.None? then
      if !noneOk then Err(TypeError) else Ok(FalsyToNone(param))
    else if param.Str? then
      if param.s == "" && !noneOk then Err(ValueError) else Ok(FalsyToNone(param))
    else
      Err(TypeError)
  }

  /** `validate_bool(param, strict)`: the truthiness of `param`; in strict mode
      anything but a bool or `None` is a TypeError. */
  function ValidateBool(param: Value, strict: bool): (r: Result<bool>)
    ensures r.Ok? ==> r.value == Truthy(param)
    ensures r.Err? <==> strict && !(param.Bool? || param.None?)
    ensures r.Err? ==> r.exc == TypeError
    ensures param.None? ==> r == Ok(false)
  {
    if strict && !(param.Bool? || param.None?) then Err(TypeError)
    else Ok(if Truthy(param) then true else false)
  }

  /** Validating an already validated bool changes nothing, in either mode. */
  lemma ValidateBoolIdempotent(param: Value, strict: bool, strict': bool)
    requires ValidateBool(param, strict).Ok?
    ensures ValidateBool(Bool(ValidateBool(param, strict).value), strict') == ValidateBool(param, strict)
  {
  }

  /** Validating an already validated string changes nothing. */
  lemma ValidateStringIdempotent(param: Value, noneOk: bool)
    requires ValidateString(param, noneOk).Ok?
    ensures ValidateString(ValidateString(param, noneOk).value, true) == Ok(ValidateString(param, noneOk).value)
  {
  }

  /** The outcomes of the calls in tests/test_validators.py. All agree with the
      test's assertion except `validate_string(1)`, which raises TypeError where
      the test expects "1"; the empty category is added, which no test calls. */
  lemma ValidatorExamples()
    ensures ValidateEntityCategory(Str("invalid")) == Err(ValueError)
    ensures ValidateEntityCategory(Str("")) == Err(ValueError)
    ensures ValidateEntityCategory(Int(1)) == Err(TypeError)
    ensures ValidateEntityCategory(Str("config")) == Ok(Str("config"))
    ensures ValidateString(Int(1), false) == Err(TypeError)
    ensures ValidateString(None, false) == Err(TypeError)
    ensures ValidateString(Str(""), false) == Err(ValueError)
    ensures ValidateString(None, true) == Ok(None)
    ensures ValidateString(Str("foo"), false) == Ok(Str("foo"))
    ensures ValidateString(Str(""), true) == Ok(None)
    ensures ValidateBool(Int(1), true) == Err(TypeError)
    ensures ValidateBool(Int(0), false) == Ok(false)
    ensures ValidateBool(Int(1), false) == Ok(true)
    ensures ValidateBool(Bool(true), false) == Ok(true)
    ensures ValidateBool(Bool(false), false) == Ok(false)
    ensures ValidateBool(None, false) == Ok(false)
  {
  }
}
