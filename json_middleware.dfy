/**
 * `JsonMiddleware` of `commons_falcon/middlewares/json_middleware.py`: the
 * `get_json` helper that reads a field of the decoded request body, falls
 * back to a default, and runs the built-in validators (`dtype`, `min`,
 * `max`, `choices`), answering 400 Bad Request on the first violation.
 */
module JsonMiddleware {
  import opened Wrappers
  import opened Json

  /** The Python type of a value, as `type(value)` reports it; floats are never produced by `Json`. */
  datatype PyType = NoneType | Bool | Int | Float | Str | List | Dict

  function TypeOf(v: Json): PyType {
    match v
    case JNull => NoneType
    case JBool(_) => Bool
    case JInt(_) => Int
    case JString(_) => Str
    case JArray(_) => List
    case JObject(_) => Dict
  }

  /** What a 400 explains when the middleware is in debug mode. */
  datatype Complaint =
    | MissingField
    | WrongType(actual: PyType, expected: PyType)
    | TooShort(minLength: int)
    | TooLong(maxLength: int)
    | TooSmall(minValue: int)
    | TooLarge(maxValue: int)
    | NotAChoice(choices: seq<Json>)

  /** The title and description of a 400: the title, the field and the complaint the description spells out. */
  datatype Explanation = Explanation(title: string, field: string, complaint: Complaint)

  /** `falcon.HTTPBadRequest`, with its title and description only in debug mode. */
  datatype BadRequest = BadRequest(shown: Option<Explanation>)

  const MISSING_FIELD_TITLE: string := "Missing JSON field"
  const VALIDATION_TITLE: string := "Validation error"

  /** The keyword validators `validate` accepts; `None` is an omitted keyword. */
  datatype Validators = Validators(dtype: Option<PyType>, min: Option<int>, max: Option<int>,
                                   choices: Option<seq<Json>>)

  /** `if bound`: an omitted bound or a bound of 0 is switched off. */
  predicate BoundOn(bound: Option<int>) {
    bound.Some? && bound.value != 0
  }

  /** `if choices`: an omitted or empty choice list is switched off. */
  predicate ChoicesOn(choices: Option<seq<Json>>) {
    choices.Some? && |choices.value| > 0
  }

  /**
   * The rules a value must meet, stated all at once: the exact type when
   * `dtype` is given (`bool` is not `int`); for a string, a length within the
   * switched-on bounds; for an integer, a value within them; membership in a
   * non-empty choice list.
   */
  predicate Acceptable(value: Json, v: Validators) {
    && (v.dtype.Some? ==> TypeOf(value) == v.dtype.value)
    && (value.JString? && BoundOn(v.min) ==> |value.s| >= v.min.value)
    && (value.JString? && BoundOn(v.max) ==> |value.s| <= v.max.value)
    && (value.JInt? && BoundOn(v.min) ==> value.i >= v.min.value)
    && (value.JInt? && BoundOn(v.max) ==> value.i <= v.max.value)
    && (ChoicesOn(v.choices) ==> PyIn(value, v.choices.value))
  }

  /** The middleware; `debug` is `bool(help_messages)`. */
  datatype JsonMiddleware = JsonMiddleware(debug: bool) {

    /** `bad_request(title, description)`: always raises, explaining itself only in debug mode. */
    function BadRequestFor(title: string, field: string, complaint: Complaint): (e: BadRequest)
      ensures debug <==> e.shown.Some?
      ensures e.shown.Some? ==> e.shown.value == Explanation(title, field, complaint)
    {
      if debug then BadRequest(Some(Explanation(title, field, complaint))) else BadRequest(None)
    }

    /** The first check of `validate` that `value` fails, in the order the code runs them. */
    function FirstViolation(value: Json, v: Validators): (r: Option<Complaint>)
      ensures r.None? <==> Acceptable(value, v)
    {
      if v.dtype.Some? && TypeOf(value) != v.dtype.value then Some(WrongType(TypeOf(value), v.dtype.value))
      else if value.JString? && BoundOn(v.min) && |value.s| < v.min.value then Some(TooShort(v.min.value))
      else if value.JString? && BoundOn(v.max) && |value.s| > v.max.value then Some(TooLong(v.max.value))
      else if value.JInt? && BoundOn(v.min) && value.i < v.min.value then Some(TooSmall(v.min.value))
      else if value.JInt? && BoundOn(v.max) && value.i > v.max.value then Some(TooLarge(v.max.value))
      else if ChoicesOn(v.choices) && !PyIn(value, v.choices.value) then Some(NotAChoice(v.choices.value))
      else None
    }

    /** `validate(field, value, **validators)`: the value itself, or the 400 of its first violation. */
    function Validate(field: string, value: Json, v: Validators): (r: Result<Json, BadRequest>)
      ensures r.Success? <==> Acceptable(value, v)
      ensures r.Success? ==> r.value == value
      ensures r.Failure? && debug ==> r.error.shown.Some? && r.error.shown.value.title == VALIDATION_TITLE
                                      && r.error.shown.value.field == field
    {
      match FirstViolation(value, v)
      case None => Success(value)
      case Some(c) => Failure(BadRequestFor(VALIDATION_TITLE, field, c))
    }

    /**
     * `get_json(field, **kwargs)` on the decoded body: the field's value if
     * present (any default dropped), else the default if one was passed
     * (even `None`), else a "Missing JSON field" 400; then validated.
     */
    function GetJson(body: map<string, Json>, field: string, default: Option<Json>, v: Validators)
      : (r: Result<Json, BadRequest>)
      ensures r.Success? ==> Acceptable(r.value, v)
      ensures r.Success? && field in body ==> r.value == body[field]
      ensures r.Success? && field !in body ==> default == Some(r.value)
      ensures field !in body && default.None? ==> r.Failure?
      ensures r.Failure? && debug ==> r.error.shown.Some? && r.error.shown.value.field == field
    {
      if field in body then Validate(field, body[field], v)
      else if default.None? then Failure(BadRequestFor(MISSING_FIELD_TITLE, field, MissingField))
      else Validate(field, default.value, v)
    }
  }

  /**
   * `validate` accepts exactly the acceptable values and returns them
   * unchanged; anything else is a "Validation error" 400.
   */
  lemma ValidateAcceptsExactlyAcceptable(m: JsonMiddleware, field: string, value: Json, v: Validators)
    ensures m.Validate(field, value, v).Success? <==> Acceptable(value, v)
    ensures m.Validate(field, value, v).Success? ==> m.Validate(field, value, v).value == value
    ensures m.Validate(field, value, v).Failure? && m.debug ==>
              m.Validate(field, value, v).error.shown.value.title == VALIDATION_TITLE
  {
  }

  /** A wrong type is reported before any other violation. */
  lemma TypeIsCheckedFirst(m: JsonMiddleware, field: string, value: Json, v: Validators)
    requires v.dtype.Some? && TypeOf(value) != v.dtype.value
    ensures m.Validate(field, value, v)
            == Failure(m.BadRequestFor(VALIDATION_TITLE, field, WrongType(TypeOf(value), v.dtype.value)))
  {
  }

  /** A bound of 0 behaves exactly as an omitted bound. */
  lemma ZeroBoundIsOff(m: JsonMiddleware, field: string, value: Json, v: Validators)
    ensures m.Validate(field, value, v.(min := Some(0))) == m.Validate(field, value, v.(min := None))
    ensures m.Validate(field, value, v.(max := Some(0))) == m.Validate(field, value, v.(max := None))
  {
  }

  /** Only strings are measured by length and only integers (not booleans) by value. */
  lemma BoundsApplyToStringsAndIntegers(value: Json, v: Validators)
    requires !value.JString? && !value.JInt?
    ensures Acceptable(value, v) <==> Acceptable(value, v.(min := None, max := None))
  {
  }

  /** A present field is validated as it is, whatever default is passed. */
  lemma PresentFieldIgnoresDefault(m: JsonMiddleware, body: map<string, Json>, field: string,
                                   d1: Option<Json>, d2: Option<Json>, v: Validators)
    requires field in body
    ensures m.GetJson(body, field, d1, v) == m.GetJson(body, field, d2, v) == m.Validate(field, body[field], v)
  {
  }

  /**
   * An absent field without a default is a "Missing JSON field" 400; with a
   * default, the default is validated like a supplied value.
   */
  lemma AbsentFieldRules(m: JsonMiddleware, body: map<string, Json>, field: string, default: Option<Json>, v: Validators)
    requires field !in body
    ensures default.None? ==> m.GetJson(body, field, default, v) == Failure(m.BadRequestFor(MISSING_FIELD_TITLE, field, MissingField))
    ensures default.Some? ==>
              (m.GetJson(body, field, default, v).Success? <==> Acceptable(default.value, v))
    ensures default.Some? && m.GetJson(body, field, default, v).Success? ==>
              m.GetJson(body, field, default, v).value == default.value
  {
    if default.Some? {
      ValidateAcceptsExactlyAcceptable(m, field, default.value, v);
    }
  }

  /** A successful `get_json` returns a value that was in the body or was the default, and that is acceptable. */
  lemma GetJsonResultIsSuppliedOrDefault(m: JsonMiddleware, body: map<string, Json>, field: string,
                                         default: Option<Json>, v: Validators)
    requires m.GetJson(body, field, default, v).Success?
    ensures var r := m.GetJson(body, field, default, v).value;
            && Acceptable(r, v)
            && (field in body ==> r == body[field])
            && (field !in body ==> default == Some(r))
  {
    if field in body {
      ValidateAcceptsExactlyAcceptable(m, field, body[field], v);
    } else {
      ValidateAcceptsExactlyAcceptable(m, field, default.value, v);
    }
  }
}
