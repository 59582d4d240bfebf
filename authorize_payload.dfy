/**
 * The `AuthorizePayload` hook of `commons_falcon/hooks/authorize_payload.py`:
 * on a JWT-authenticated request, a caller-supplied extractor names a
 * person id, which must appear among the token's `self` or `dependants`
 * profiles as the hook's access level allows.
 */
module AuthorizePayloadHook {
  import opened Wrappers
  import opened Json
  import opened Auth
  import opened Falcon

  /** Python's `needle in text` on two strings. */
  predicate IsSubstring(needle: string, text: string) {
    exists i, j :: 0 <= i <= j <= |text| && text[i..j] == needle
  }

  /** The ids a level grants when the profile entries are lists: `self`, `dependants`, or both concatenated. */
  function LevelIds(level: AccessLevel, selfIds: seq<Json>, dependants: seq<Json>): seq<Json> {
    match level
    case Self => selfIds
    case Dependant => dependants
    case SelfAndDependant => selfIds + dependants
  }

  /** The same selection when both profile entries are strings (Python's `+` concatenates them too). */
  function LevelText(level: AccessLevel, selfText: string, dependantsText: string): string {
    match level
    case Self => selfText
    case Dependant => dependantsText
    case SelfAndDependant => selfText + dependantsText
  }

  /**
   * `value in person_ids[level]`, where building `person_ids` adds the
   * `self` and `dependants` entries for every level: two lists or two
   * strings can be added, anything else raises `TypeError`, as does testing a
   * non-string for membership in a string.
   */
  function Granted(value: Json, selfEntry: Json, dependantsEntry: Json, level: AccessLevel): (r: Result<bool, HttpError>)
    ensures r.Failure? ==> r.error == Unhandled("TypeError")
    ensures r.Success? <==> (selfEntry.JArray? && dependantsEntry.JArray?)
                            || (selfEntry.JString? && dependantsEntry.JString? && value.JString?)
  {
    match (selfEntry, dependantsEntry)
    case (JArray(a), JArray(b)) => Success(PyIn(value, LevelIds(level, a, b)))
    case (JString(a), JString(b)) =>
      if value.JString? then Success(IsSubstring(value.s, LevelText(level, a, b)))
      else Failure(Unhandled("TypeError"))
    case _ => Failure(Unhandled("TypeError"))
  }

  /**
   * The hook object: the extractor applied to the hook's `(req, resp,
   * resource, params)` arguments, abstracted as `A`, and the access level.
   */
  datatype AuthorizePayload<!A> = AuthorizePayload(extract: A -> Json, level: AccessLevel) {

    /** `__call__` on a request whose context is `context`. */
    function Call(context: map<string, ContextValue>, args: A): (r: Outcome<HttpError>)
      ensures ContextGet(context, "authorization_scheme") != SchemeValue(Jwt) ==> r == Pass
      ensures r.Fail? ==> r.error == UnAuthorizedSession || r.error == Unhandled("AttributeError")
                          || r.error == Unhandled("TypeError")
    {
      if ContextGet(context, "authorization_scheme") != SchemeValue(Jwt) then Pass
      else
        var payload := ContextGet(context, "authorization_payload");
        if payload == JsonValue(JNull) then Fail(UnAuthorizedSession)
        else
          var value := extract(args);
          if value == JNull then Fail(UnAuthorizedSession)
          else if !(payload.JsonValue? && payload.json.JObject?) then Fail(Unhandled("AttributeError"))
          else match Get(payload.json.fields, "profiles", JNull)
            case JObject(profiles) =>
              (match Granted(value, Get(profiles, "self", JArray([])), Get(profiles, "dependants", JArray([])), level)
               case Success(ok) => if ok then Pass else Fail(UnAuthorizedSession)
               case Failure(e) => Fail(e))
            case _ => Fail(Unhandled("AttributeError"))
    }
  }

  /** The context a JWT-authenticated request carries with the given claims. */
  function JwtContext(claims: Json): map<string, ContextValue> {
    map["authorization_scheme" := SchemeValue(Jwt), "authorization_payload" := JsonValue(claims)]
  }

  /** A request not authenticated by JWT passes without the extractor being consulted. */
  lemma NonJwtRequestPasses<A>(hook: AuthorizePayload<A>, other: A -> Json, context: map<string, ContextValue>, args: A)
    requires ContextGet(context, "authorization_scheme") != SchemeValue(Jwt)
    ensures hook.Call(context, args) == Pass
    ensures AuthorizePayload(other, hook.level).Call(context, args) == Pass
  {
  }

  /** A JWT request without a payload, or whose extractor yields `None`, is an unauthorized session. */
  lemma MissingPayloadOrIdRejected<A>(hook: AuthorizePayload<A>, context: map<string, ContextValue>, args: A)
    requires ContextGet(context, "authorization_scheme") == SchemeValue(Jwt)
    requires ContextGet(context, "authorization_payload") == JsonValue(JNull) || hook.extract(args) == JNull
    ensures hook.Call(context, args) == Fail(UnAuthorizedSession)
  {
  }

  /** Claims whose `profiles` is an object whose `self` and `dependants` entries are lists or absent. */
  predicate WellFormedClaims(claims: Json) {
    && claims.JObject? && "profiles" in claims.fields && claims.fields["profiles"].JObject?
    && Get(claims.fields["profiles"].fields, "self", JArray([])).JArray?
    && Get(claims.fields["profiles"].fields, "dependants", JArray([])).JArray?
  }

  function SelfIds(claims: Json): seq<Json>
    requires WellFormedClaims(claims)
  {
    Get(claims.fields["profiles"].fields, "self", JArray([])).items
  }

  function DependantIds(claims: Json): seq<Json>
    requires WellFormedClaims(claims)
  {
    Get(claims.fields["profiles"].fields, "dependants", JArray([])).items
  }

  /**
   * On well-formed claims the request passes exactly when the extracted id
   * is `==` to one of the ids the level grants: `SELF` the `self` ids,
   * `DEPENDANT` the `dependants` ids, `SELF_AND_DEPENDANT` either;
   * otherwise it is an unauthorized session.
   */
  lemma AllowedIffIdGranted<A>(hook: AuthorizePayload<A>, claims: Json, args: A)
    requires WellFormedClaims(claims) && hook.extract(args) != JNull
    ensures var r := hook.Call(JwtContext(claims), args);
            var v := hook.extract(args);
            && (r == Pass || r == Fail(UnAuthorizedSession))
            && (hook.level == Self ==> (r == Pass <==> PyIn(v, SelfIds(claims))))
            && (hook.level == Dependant ==> (r == Pass <==> PyIn(v, DependantIds(claims))))
            && (hook.level == SelfAndDependant ==>
                  (r == Pass <==> PyIn(v, SelfIds(claims)) || PyIn(v, DependantIds(claims))))
  {
    PyInConcat(hook.extract(args), SelfIds(claims), DependantIds(claims));
  }

  /** A substring of the text a level selects is a substring of the `self` and `dependants` text together. */
  lemma SubstringOfLevelText(needle: string, selfText: string, dependantsText: string, level: AccessLevel)
    requires IsSubstring(needle, LevelText(level, selfText, dependantsText))
    ensures IsSubstring(needle, selfText + dependantsText)
  {
    var t := LevelText(level, selfText, dependantsText);
    var i, j :| 0 <= i <= j <= |t| && t[i..j] == needle;
    var both := selfText + dependantsText;
    if level == Dependant {
      assert both[|selfText| + i..|selfText| + j] == needle;
    } else if level == Self {
      assert both[i..j] == needle;
    }
  }

  /** Whatever a level grants, `SELF_AND_DEPENDANT` grants too. */
  lemma GrantedWidens(value: Json, selfEntry: Json, dependantsEntry: Json, level: AccessLevel)
    requires Granted(value, selfEntry, dependantsEntry, level) == Success(true)
    ensures Granted(value, selfEntry, dependantsEntry, SelfAndDependant) == Success(true)
  {
    if selfEntry.JArray? {
      PyInConcat(value, selfEntry.items, dependantsEntry.items);
    } else {
      SubstringOfLevelText(value.s, selfEntry.s, dependantsEntry.s, level);
    }
  }

  /** `SELF_AND_DEPENDANT` admits every id either narrower level admits. */
  lemma SelfAndDependantWidens<A>(extract: A -> Json, context: map<string, ContextValue>, args: A, level: AccessLevel)
    requires AuthorizePayload(extract, level).Call(context, args) == Pass
    ensures AuthorizePayload(extract, SelfAndDependant).Call(context, args) == Pass
  {
    if ContextGet(context, "authorization_scheme") == SchemeValue(Jwt) {
      var claims := ContextGet(context, "authorization_payload").json;
      assert claims.JObject? && Get(claims.fields, "profiles", JNull).JObject?;
      var profiles := Get(claims.fields, "profiles", JNull).fields;
      GrantedWidens(extract(args), Get(profiles, "self", JArray([])), Get(profiles, "dependants", JArray([])), level);
    }
  }
}
