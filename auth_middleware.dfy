/**
 * `SimpleAuthMiddleware` of `commons_falcon/middlewares/auth_middleware.py`:
 * classifies each request by the first credential that matches (JWT, IP
 * whitelist, API key, client id/secret, opaque access token), records the
 * scheme in the request context, and later enforces each resource's list of
 * accepted schemes.
 */
module AuthMiddleware {
  import opened Wrappers
  import opened Json
  import opened Auth
  import opened Falcon

  /**
   * The configuration dictionary handed to the middleware, shared with its
   * caller; `None` stands for a missing key.
   */
  class AuthConfig {
    var exemptedPaths: Option<seq<string>>
    var clients: Option<map<string, string>>
    var apiKeys: Option<seq<string>>
    var ipWhitelist: Option<seq<string>>

    constructor(exemptedPaths: Option<seq<string>>, clients: Option<map<string, string>>,
                apiKeys: Option<seq<string>>, ipWhitelist: Option<seq<string>>)
      ensures this.exemptedPaths == exemptedPaths && this.clients == clients
      ensures this.apiKeys == apiKeys && this.ipWhitelist == ipWhitelist
    {
      this.exemptedPaths := exemptedPaths;
      this.clients := clients;
      this.apiKeys := apiKeys;
      this.ipWhitelist := ipWhitelist;
    }

    /** Every key the middleware reads is present. */
    predicate Defaulted()
      reads this
    {
      exemptedPaths.Some? && clients.Some? && apiKeys.Some? && ipWhitelist.Some?
    }

    function Current(): Settings
      reads this
      requires Defaulted()
    {
      Settings(exemptedPaths.value, clients.value, apiKeys.value, ipWhitelist.value)
    }
  }

  /** The configuration values the checks read. */
  datatype Settings = Settings(exemptedPaths: seq<string>, clients: map<string, string>,
                               apiKeys: seq<string>, ipWhitelist: seq<string>)

  /** The first component of `jwt_auth_service.verify`: a verification error enum member or some other truthy value. */
  datatype JwtServiceError = Known(kind: JWTVerificationError) | Unrecognised

  /** `(error, token)` as the JWT service returns it. */
  datatype JwtReply = JwtReply(error: Option<JwtServiceError>, token: Json)

  /** `(error, value)` as the OAuth client's `introspection` and `get_user` return it. */
  datatype OAuthReply = OAuthReply(error: Json, value: Json)

  /**
   * The injected collaborators: `jwt_auth_service.verify(token)`,
   * `oauth_client.introspection(None, None, token, "access_token")` and
   * `oauth_client.get_user(auth_token=token)`.
   */
  datatype Services = Services(verify: string -> JwtReply, introspection: string -> OAuthReply,
                               getUser: string -> OAuthReply)

  /** What `process_request` concludes about a request. */
  datatype Classification =
    | Preflight                                  // OPTIONS: answered 200 and completed
    | JwtSession(payload: Json)                  // scheme JWT, the token's claims as payload
    | Trusted(scheme: AuthorizationScheme)       // IP whitelist, API key or client secret
    | OAuthSession(user: Json)                   // scheme ACCESS_TOKEN, `req.user` set
    | Anonymous                                  // no credential matched; nothing written
    | Rejected(error: HttpError)                 // a presented credential failed

  /** The error class `error_mapping.get(verification_error, UnAuthorizedSession)` picks. */
  function JwtErrorToHttp(e: JwtServiceError): (r: HttpError)
    ensures r == InvalidJWTError <==> e == Known(Expired)
    ensures r == ServiceFailureError <==> e == Known(Internal)
    ensures r == UnAuthorizedSession <==> e == Known(Invalid) || e == Unrecognised
  {
    match e
    case Known(Expired) => InvalidJWTError
    case Known(Invalid) => UnAuthorizedSession
    case Known(Internal) => ServiceFailureError
    case Unrecognised => UnAuthorizedSession
  }

  /** `auth[7:]`: the `AUTHORIZATION` header with its 7-character prefix dropped. */
  function TokenAfterPrefix(auth: string): (t: string)
    ensures |auth| <= 7 ==> t == ""
    ensures |auth| > 7 ==> auth == auth[..7] + t
  {
    if |auth| <= 7 then "" else auth[7..]
  }

  /** `clients.get(client_id) == client_secret and client_id is not None and client_secret is not None`. */
  predicate ClientMatches(clients: map<string, string>, id: Option<string>, secret: Option<string>) {
    id.Some? && secret.Some? && id.value in clients && clients[id.value] == secret.value
  }

  function ClientId(headers: map<string, string>): Option<string> {
    Or(Header(headers, "CLIENT-ID"), Header(headers, "CLIENTID"))
  }

  function ClientSecretHeader(headers: map<string, string>): Option<string> {
    Or(Header(headers, "CLIENT-SECRET"), Header(headers, "CLIENTSECRET"))
  }

  // Each credential check on its own: `None` when it does not apply, else
  // the classification it settles on.

  function CheckJwt(svc: Services, headers: map<string, string>): (r: Option<Classification>)
    ensures r.None? <==> !Present(Header(headers, "X-JWT"))
    ensures r.Some? ==> r.value.JwtSession? || r.value.Rejected?
  {
    var jwt := Header(headers, "X-JWT");
    if !Present(jwt) then None
    else
      var reply := svc.verify(jwt.value);
      if reply.error.Some? then Some(Rejected(JwtErrorToHttp(reply.error.value)))
      else Some(JwtSession(reply.token))
  }

  /** `req.access_route[0]`, which raises `IndexError` on an empty route. */
  function CheckIpWhitelist(s: Settings, accessRoute: seq<string>): (r: Option<Classification>)
    ensures r == Some(Trusted(IpWhitelist)) <==> |accessRoute| > 0 && accessRoute[0] in s.ipWhitelist
    ensures |accessRoute| == 0 <==> r == Some(Rejected(Unhandled("IndexError")))
  {
    if |accessRoute| == 0 then Some(Rejected(Unhandled("IndexError")))
    else if accessRoute[0] in s.ipWhitelist then Some(Trusted(IpWhitelist))
    else None
  }

  function CheckApiKey(s: Settings, headers: map<string, string>): (r: Option<Classification>)
    ensures r.Some? ==> r.value == Trusted(ApiKey)
    ensures r.Some? <==> "X-API-KEY" in headers && headers["X-API-KEY"] in s.apiKeys
  {
    var key := Header(headers, "X-API-KEY");
    if key.Some? && key.value in s.apiKeys then Some(Trusted(ApiKey)) else None
  }

  function CheckClientSecret(s: Settings, headers: map<string, string>): (r: Option<Classification>)
    ensures r.Some? ==> r.value == Trusted(ClientSecret)
    ensures r.Some? ==> && ClientId(headers).Some? && ClientSecretHeader(headers).Some?
                        && ClientId(headers).value in s.clients
                        && s.clients[ClientId(headers).value] == ClientSecretHeader(headers).value
  {
    if ClientMatches(s.clients, ClientId(headers), ClientSecretHeader(headers)) then Some(Trusted(ClientSecret))
    else None
  }

  /** The opaque-token check; a `get_user` value that is not a dictionary has no `.get`. */
  function CheckAccessToken(svc: Services, headers: map<string, string>): (r: Option<Classification>)
    ensures r.None? <==> !Present(Header(headers, "AUTHORIZATION"))
    ensures r.Some? ==> r.value.OAuthSession? || r.value == Rejected(UnAuthorizedSession)
                        || r.value == Rejected(Unhandled("AttributeError"))
    ensures r.Some? && r.value.OAuthSession? ==>
              r.value.user.JObject? && "username" in r.value.user.fields && Truthy(r.value.user.fields["username"])
  {
    var auth := Header(headers, "AUTHORIZATION");
    if !Present(auth) then None
    else
      var token := TokenAfterPrefix(auth.value);
      if Truthy(svc.introspection(token).error) then Some(Rejected(UnAuthorizedSession))
      else
        var lookup := svc.getUser(token);
        if Truthy(lookup.error) then Some(Rejected(UnAuthorizedSession))
        else match lookup.value
          case JObject(user) =>
            if "username" in user && Truthy(user["username"]) then Some(OAuthSession(lookup.value))
            else Some(Rejected(UnAuthorizedSession))
          case _ => Some(Rejected(Unhandled("AttributeError")))
  }

  /** The checks in the order `process_request` tries them. */
  function CredentialChecks(s: Settings, svc: Services, headers: map<string, string>, accessRoute: seq<string>)
    : seq<Option<Classification>>
  {
    [CheckJwt(svc, headers), CheckIpWhitelist(s, accessRoute), CheckApiKey(s, headers),
     CheckClientSecret(s, headers), CheckAccessToken(svc, headers)]
  }

  /** The classification of the first check that applies; anonymous when none does. */
  function FirstDecided(checks: seq<Option<Classification>>): Classification {
    if |checks| == 0 then Anonymous
    else if checks[0].Some? then checks[0].value
    else FirstDecided(checks[1..])
  }

  /** The first check that applies decides, and it is the earliest one that applies. */
  lemma {:induction false} FirstDecidedIsEarliest(checks: seq<Option<Classification>>, i: nat)
    requires i < |checks| && checks[i].Some?
    requires forall j :: 0 <= j < i ==> checks[j].None?
    ensures FirstDecided(checks) == checks[i].value
  {
    if i > 0 {
      FirstDecidedIsEarliest(checks[1..], i - 1);
    }
  }

  /** When no check applies the request is anonymous. */
  lemma {:induction false} NoCheckAppliesIsAnonymous(checks: seq<Option<Classification>>)
    requires forall j :: 0 <= j < |checks| ==> checks[j].None?
    ensures FirstDecided(checks) == Anonymous
  {
    if |checks| > 0 {
      NoCheckAppliesIsAnonymous(checks[1..]);
    }
  }

  /** Checks after the one that decides are never looked at. */
  lemma {:induction false} LaterChecksIrrelevant(a: seq<Option<Classification>>, b: seq<Option<Classification>>, i: nat)
    requires i < |a| && i < |b| && a[..i + 1] == b[..i + 1] && a[i].Some?
    ensures FirstDecided(a) == FirstDecided(b)
  {
    if a[0].None? {
      assert a[1..][..i] == a[..i + 1][1..];
      assert b[1..][..i] == b[..i + 1][1..];
      LaterChecksIrrelevant(a[1..], b[1..], i - 1);
    }
  }

  /** No credential check concludes that a request is a preflight. */
  lemma {:induction false} NeverPreflight(checks: seq<Option<Classification>>)
    requires forall j :: 0 <= j < |checks| ==> checks[j] != Some(Preflight)
    ensures FirstDecided(checks) != Preflight
  {
    if |checks| > 0 && checks[0].None? {
      NeverPreflight(checks[1..]);
    }
  }

  /** `process_request`'s conclusion about a request. */
  function Classify(s: Settings, svc: Services, httpMethod: string, headers: map<string, string>,
                    accessRoute: seq<string>): (c: Classification)
    ensures c == Preflight <==> httpMethod == "OPTIONS"
  {
    NeverPreflight(CredentialChecks(s, svc, headers, accessRoute));
    if httpMethod == "OPTIONS" then Preflight
    else FirstDecided(CredentialChecks(s, svc, headers, accessRoute))
  }

  /** The scheme a classification writes into the context, if any. */
  function WrittenScheme(c: Classification): Option<AuthorizationScheme> {
    match c
    case JwtSession(_) => Some(Jwt)
    case Trusted(scheme) => Some(scheme)
    case OAuthSession(_) => Some(AccessToken)
    case _ => None
  }

  /** The context after `process_request`: the scheme, and for a JWT also the payload. */
  function ContextAfter(ctx: map<string, ContextValue>, c: Classification): map<string, ContextValue> {
    match c
    case JwtSession(payload) =>
      ctx["authorization_scheme" := SchemeValue(Jwt)]["authorization_payload" := JsonValue(payload)]
    case Trusted(scheme) => ctx["authorization_scheme" := SchemeValue(scheme)]
    case OAuthSession(_) => ctx["authorization_scheme" := SchemeValue(AccessToken)]
    case _ => ctx
  }

  function OutcomeOf(c: Classification): Outcome<HttpError> {
    if c.Rejected? then Fail(c.error) else Pass
  }

  /** An `OPTIONS` request is answered whatever credentials, configuration or services there are. */
  lemma PreflightIgnoresCredentials(s: Settings, svc: Services, headers: map<string, string>,
                                    accessRoute: seq<string>, ctx: map<string, ContextValue>)
    ensures Classify(s, svc, "OPTIONS", headers, accessRoute) == Preflight
    ensures ContextAfter(ctx, Preflight) == ctx && WrittenScheme(Preflight) == None
  {
  }

  /**
   * A presented JWT is decided by the verification service alone: an error
   * maps to its error class (expired to `InvalidJWTError`, invalid to
   * `UnAuthorizedSession`, internal to `ServiceFailureError`, anything else
   * to `UnAuthorizedSession`); success is a JWT session whose payload is the
   * claims, whatever other credentials the request carries.
   */
  lemma JwtIsCheckedFirst(s: Settings, svc: Services, httpMethod: string, headers: map<string, string>,
                          accessRoute: seq<string>)
    requires httpMethod != "OPTIONS"
    requires "X-JWT" in headers && headers["X-JWT"] != ""
    ensures var reply := svc.verify(headers["X-JWT"]);
            var c := Classify(s, svc, httpMethod, headers, accessRoute);
            && (reply.error == Some(Known(Expired)) ==> c == Rejected(InvalidJWTError))
            && (reply.error == Some(Known(Invalid)) ==> c == Rejected(UnAuthorizedSession))
            && (reply.error == Some(Known(Internal)) ==> c == Rejected(ServiceFailureError))
            && (reply.error == Some(Unrecognised) ==> c == Rejected(UnAuthorizedSession))
            && (reply.error.None? ==> c == JwtSession(reply.token) && WrittenScheme(c) == Some(Jwt))
  {
    FirstDecidedIsEarliest(CredentialChecks(s, svc, headers, accessRoute), 0);
  }

  /** A request carrying a valid JWT and a configured API key is classified JWT. */
  lemma JwtWinsOverApiKey(s: Settings, svc: Services, httpMethod: string, headers: map<string, string>,
                          accessRoute: seq<string>)
    requires httpMethod != "OPTIONS"
    requires "X-JWT" in headers && headers["X-JWT"] != "" && svc.verify(headers["X-JWT"]).error.None?
    requires "X-API-KEY" in headers && headers["X-API-KEY"] in s.apiKeys
    ensures WrittenScheme(Classify(s, svc, httpMethod, headers, accessRoute)) == Some(Jwt)
  {
    JwtIsCheckedFirst(s, svc, httpMethod, headers, accessRoute);
  }

  /** Only the first entry of the proxy route is compared with the whitelist. */
  lemma IpWhitelistUsesFirstHop(s: Settings, svc: Services, httpMethod: string, headers: map<string, string>,
                                accessRoute: seq<string>)
    requires httpMethod != "OPTIONS" && !Present(Header(headers, "X-JWT"))
    requires |accessRoute| > 0
    ensures Classify(s, svc, httpMethod, headers, accessRoute) == Trusted(IpWhitelist)
            <==> accessRoute[0] in s.ipWhitelist
  {
    var checks := CredentialChecks(s, svc, headers, accessRoute);
    if accessRoute[0] in s.ipWhitelist {
      FirstDecidedIsEarliest(checks, 1);
    } else {
      ClassifiedByLaterCheck(s, svc, headers, accessRoute);
    }
  }

  /** Once the first two checks do not apply, the outcome is decided by the last three alone. */
  lemma ClassifiedByLaterCheck(s: Settings, svc: Services, headers: map<string, string>, accessRoute: seq<string>)
    requires CheckJwt(svc, headers).None? && CheckIpWhitelist(s, accessRoute).None?
    ensures FirstDecided(CredentialChecks(s, svc, headers, accessRoute))
            == if CheckApiKey(s, headers).Some? then Trusted(ApiKey)
               else if CheckClientSecret(s, headers).Some? then Trusted(ClientSecret)
               else CheckAccessToken(svc, headers).GetOr(Anonymous)
  {
    var checks := CredentialChecks(s, svc, headers, accessRoute);
    var rest := checks[2..];
    assert checks[1..][1..] == rest;
    assert FirstDecided(checks) == FirstDecided(rest);
    if rest[0].None? {
      assert FirstDecided(rest) == FirstDecided(rest[1..]);
      if rest[1].None? {
        var last := rest[1..][1..];
        assert last == [CheckAccessToken(svc, headers)];
        assert FirstDecided(rest[1..]) == FirstDecided(last);
        assert last[1..] == [];
        assert FirstDecided(last) == CheckAccessToken(svc, headers).GetOr(Anonymous);
      } else {
        assert rest[1] == CheckClientSecret(s, headers);
      }
    }
  }

  /**
   * When no earlier check applies, client-secret authentication succeeds
   * exactly when both the id and the secret are given (`CLIENT-ID` falling
   * back to `CLIENTID`, `CLIENT-SECRET` to `CLIENTSECRET`) and the id's
   * configured secret equals the one given.
   */
  lemma ClientSecretRule(s: Settings, svc: Services, httpMethod: string, headers: map<string, string>,
                         accessRoute: seq<string>)
    requires httpMethod != "OPTIONS"
    requires CheckJwt(svc, headers).None? && CheckIpWhitelist(s, accessRoute).None? && CheckApiKey(s, headers).None?
    ensures var id := Or(Header(headers, "CLIENT-ID"), Header(headers, "CLIENTID"));
            var secret := Or(Header(headers, "CLIENT-SECRET"), Header(headers, "CLIENTSECRET"));
            Classify(s, svc, httpMethod, headers, accessRoute) == Trusted(ClientSecret)
            <==> id.Some? && secret.Some? && id.value in s.clients && s.clients[id.value] == secret.value
  {
    ClassifiedByLaterCheck(s, svc, headers, accessRoute);
  }

  /**
   * When no earlier check applies and an `AUTHORIZATION` header is given,
   * the token after its first 7 characters is introspected: an
   * introspection or user-lookup error, or a missing or empty username,
   * rejects the request as an unauthorized session; otherwise it is an
   * OAuth session for the looked-up user.
   */
  lemma AccessTokenRule(s: Settings, svc: Services, httpMethod: string, headers: map<string, string>,
                        accessRoute: seq<string>)
    requires httpMethod != "OPTIONS"
    requires CheckJwt(svc, headers).None? && CheckIpWhitelist(s, accessRoute).None?
    requires CheckApiKey(s, headers).None? && CheckClientSecret(s, headers).None?
    requires "AUTHORIZATION" in headers && headers["AUTHORIZATION"] != ""
    ensures var token := TokenAfterPrefix(headers["AUTHORIZATION"]);
            var lookup := svc.getUser(token);
            var c := Classify(s, svc, httpMethod, headers, accessRoute);
            && (Truthy(svc.introspection(token).error) || Truthy(lookup.error) ==> c == Rejected(UnAuthorizedSession))
            && (c.OAuthSession? <==>
                  && !Truthy(svc.introspection(token).error) && !Truthy(lookup.error)
                  && lookup.value.JObject? && "username" in lookup.value.fields
                  && Truthy(lookup.value.fields["username"]))
            && (c.OAuthSession? ==> c.user == lookup.value)
            && (!Truthy(svc.introspection(token).error) && !Truthy(lookup.error) && lookup.value.JObject?
                && !("username" in lookup.value.fields && Truthy(lookup.value.fields["username"])) ==>
                  c == Rejected(UnAuthorizedSession))
            && (!Truthy(svc.introspection(token).error) && !Truthy(lookup.error) && !lookup.value.JObject? ==>
                  c == Rejected(Unhandled("AttributeError")))
  {
    ClassifiedByLaterCheck(s, svc, headers, accessRoute);
  }

  /** A request with no matching credential is anonymous: nothing is raised and the context is unchanged. */
  lemma NoCredentialIsAnonymous(s: Settings, svc: Services, httpMethod: string, headers: map<string, string>,
                                accessRoute: seq<string>, ctx: map<string, ContextValue>)
    requires httpMethod != "OPTIONS"
    requires "X-JWT" !in headers && "AUTHORIZATION" !in headers && "X-API-KEY" !in headers
    requires "CLIENT-ID" !in headers && "CLIENTID" !in headers
    requires |accessRoute| > 0 && accessRoute[0] !in s.ipWhitelist
    ensures Classify(s, svc, httpMethod, headers, accessRoute) == Anonymous
    ensures ContextAfter(ctx, Anonymous) == ctx && OutcomeOf(Anonymous) == Pass
  {
    NoCheckAppliesIsAnonymous(CredentialChecks(s, svc, headers, accessRoute));
  }

  /** A resource's `authorization_schemes` attribute; a resource without one accepts everything. */
  datatype Resource = Resource(authorizationSchemes: Option<seq<AuthorizationScheme>>)

  /** What `process_resource` decides, and whether it marks the context as an exempted path first. */
  datatype Enforcement = Enforcement(outcome: Outcome<HttpError>, marksExempted: bool)

  /**
   * `process_resource` as written. With no scheme in the context it writes
   * `EXEMPTED_PATH` for an exempted route but still tests its local copy of
   * the scheme, which is `None`, and so raises in both cases.
   */
  function EnforceAsWritten(current: ContextValue, allowed: seq<AuthorizationScheme>, uriTemplate: string,
                            exempted: seq<string>): (e: Enforcement)
    ensures e.outcome == Pass <==>
              |allowed| == 0 || current == SchemeValue(ExemptedPath) || (current.SchemeValue? && current.scheme in allowed)
    ensures e.marksExempted ==> e.outcome == Fail(UnAuthorizedSession)
  {
    if |allowed| == 0 then Enforcement(Pass, false)
    else if current == JsonValue(JNull) then Enforcement(Fail(UnAuthorizedSession), uriTemplate in exempted)
    else if current == SchemeValue(ExemptedPath) then Enforcement(Pass, false)
    else if current.SchemeValue? && current.scheme in allowed then Enforcement(Pass, false)
    else Enforcement(Fail(ForbiddenError), false)
  }

  /**
   * The decision the method's documentation and structure evidently intend:
   * an exempted route without credentials is let through as `EXEMPTED_PATH`.
   */
  function EnforceIntended(current: ContextValue, allowed: seq<AuthorizationScheme>, uriTemplate: string,
                           exempted: seq<string>): (e: Enforcement)
    ensures e.marksExempted ==> e.outcome == Pass
  {
    if |allowed| == 0 then Enforcement(Pass, false)
    else if current == JsonValue(JNull) then
      if uriTemplate in exempted then Enforcement(Pass, true) else Enforcement(Fail(UnAuthorizedSession), false)
    else if current == SchemeValue(ExemptedPath) then Enforcement(Pass, false)
    else if current.SchemeValue? && current.scheme in allowed then Enforcement(Pass, false)
    else Enforcement(Fail(ForbiddenError), false)
  }

  /**
   * The rules of `process_resource` as written: an empty list accepts
   * everything and changes nothing; a pre-set `EXEMPTED_PATH` is accepted
   * whatever the list; another scheme is accepted iff it is listed, else
   * forbidden.
   */
  lemma EnforcementRules(current: ContextValue, allowed: seq<AuthorizationScheme>, uriTemplate: string,
                         exempted: seq<string>)
    ensures |allowed| == 0 ==> EnforceAsWritten(current, allowed, uriTemplate, exempted) == Enforcement(Pass, false)
    ensures current == SchemeValue(ExemptedPath) ==> EnforceAsWritten(current, allowed, uriTemplate, exempted).outcome == Pass
    ensures |allowed| > 0 && current.SchemeValue? && current.scheme != ExemptedPath ==>
              EnforceAsWritten(current, allowed, uriTemplate, exempted).outcome
              == (if current.scheme in allowed then Pass else Fail(ForbiddenError))
  {
  }

  /**
   * As written, a request without a scheme is never let through by a
   * resource that lists schemes, even on an exempted route, which is only
   * marked `EXEMPTED_PATH` on the way out.
   */
  lemma ExemptedRouteRejectedAsWritten(allowed: seq<AuthorizationScheme>, uriTemplate: string, exempted: seq<string>)
    requires |allowed| > 0
    ensures var e := EnforceAsWritten(JsonValue(JNull), allowed, uriTemplate, exempted);
            e.outcome == Fail(UnAuthorizedSession) && (e.marksExempted <==> uriTemplate in exempted)
  {
  }

  /**
   * The intended decision lets an exempted route through and agrees with the
   * code as written on every other request.
   */
  lemma IntendedDiffersOnlyOnExemptedRoutes(current: ContextValue, allowed: seq<AuthorizationScheme>,
                                            uriTemplate: string, exempted: seq<string>)
    ensures var intended := EnforceIntended(current, allowed, uriTemplate, exempted);
            var written := EnforceAsWritten(current, allowed, uriTemplate, exempted);
            && (|allowed| > 0 && current == JsonValue(JNull) && uriTemplate in exempted ==>
                  intended == Enforcement(Pass, true) && written == Enforcement(Fail(UnAuthorizedSession), true))
            && (!(|allowed| > 0 && current == JsonValue(JNull) && uriTemplate in exempted) ==> intended == written)
  {
  }

  /** The middleware object. */
  class SimpleAuthMiddleware {
    const config: AuthConfig
    const services: Services
    /** `request_initate_time`: the clock reading when the last request arrived. */
    var requestInitiateTime: int

    /** `__init__`: fills the configuration's missing keys with empty lists and an empty dictionary, in place. */
    constructor(config: AuthConfig, services: Services)
      modifies config
      ensures this.config == config && this.services == services
      ensures config.exemptedPaths == Some(old(config.exemptedPaths).GetOr([]))
      ensures config.clients == Some(old(config.clients).GetOr(map[]))
      ensures config.apiKeys == Some(old(config.apiKeys).GetOr([]))
      ensures config.ipWhitelist == Some(old(config.ipWhitelist).GetOr([]))
      ensures config.Defaulted()
    {
      this.config := config;
      this.services := services;
      config.exemptedPaths := Some(config.exemptedPaths.GetOr([]));
      config.clients := Some(config.clients.GetOr(map[]));
      config.apiKeys := Some(config.apiKeys.GetOr([]));
      config.ipWhitelist := Some(config.ipWhitelist.GetOr([]));
    }

    /** `process_request` at clock reading `now`. */
    method ProcessRequest(req: Request, resp: Response, now: int) returns (outcome: Outcome<HttpError>)
      requires config.Defaulted()
      modifies this, req, resp
      ensures requestInitiateTime == now
      ensures var c := Classify(config.Current(), services, req.httpMethod, req.headers, req.accessRoute);
              && outcome == OutcomeOf(c)
              && req.context == ContextAfter(old(req.context), c)
              && req.user == (if c.OAuthSession? then Some(c.user) else old(req.user))
              && resp.status == (if c.Preflight? then HTTP_200 else old(resp.status))
              && resp.complete == (c.Preflight? || old(resp.complete))
    {
      requestInitiateTime := now;
      if req.httpMethod == "OPTIONS" {
        resp.status := HTTP_200;
        resp.complete := true;
        return Pass;
      }
      var c := Authenticate(req);
      match c {
        case JwtSession(payload) =>
          req.context := req.context["authorization_scheme" := SchemeValue(Jwt)];
          req.context := req.context["authorization_payload" := JsonValue(payload)];
        case Trusted(scheme) =>
          req.context := req.context["authorization_scheme" := SchemeValue(scheme)];
        case OAuthSession(user) =>
          req.user := Some(user);
          req.context := req.context["authorization_scheme" := SchemeValue(AccessToken)];
        case _ =>
      }
      outcome := OutcomeOf(c);
    }

    /**
     * The credential checks of `process_request` after the `OPTIONS` test, in
     * order, each returning as soon as it applies; what the request is
     * classified as, before anything is written to it.
     */
    method Authenticate(req: Request) returns (c: Classification)
      requires config.Defaulted()
      ensures c == FirstDecided(CredentialChecks(config.Current(), services, req.headers, req.accessRoute))
      ensures c != Preflight
    {
      ghost var checks := CredentialChecks(config.Current(), services, req.headers, req.accessRoute);

      var jwtAuth := Header(req.headers, "X-JWT");
      if Present(jwtAuth) {
        FirstDecidedIsEarliest(checks, 0);
        var reply := services.verify(jwtAuth.value);
        if reply.error.Some? {
          return Rejected(JwtErrorToHttp(reply.error.value));
        }
        return JwtSession(reply.token);
      }

      if |req.accessRoute| == 0 {
        FirstDecidedIsEarliest(checks, 1);
        return Rejected(Unhandled("IndexError"));
      }
      if req.accessRoute[0] in config.ipWhitelist.value {
        FirstDecidedIsEarliest(checks, 1);
        return Trusted(IpWhitelist);
      }

      var apiKey := Header(req.headers, "X-API-KEY");
      if apiKey.Some? && apiKey.value in config.apiKeys.value {
        FirstDecidedIsEarliest(checks, 2);
        return Trusted(ApiKey);
      }

      var clientId, clientSecret := ClientId(req.headers), ClientSecretHeader(req.headers);
      if ClientMatches(config.clients.value, clientId, clientSecret) {
        FirstDecidedIsEarliest(checks, 3);
        return Trusted(ClientSecret);
      }

      var auth := Header(req.headers, "AUTHORIZATION");
      if Present(auth) {
        FirstDecidedIsEarliest(checks, 4);
        c := AuthenticateAccessToken(req.headers, auth.value);
        return;
      }
      NoCheckAppliesIsAnonymous(checks);
      return Anonymous;
    }

    /**
     * The `AUTHORIZATION` check: introspect the token after the 7-character
     * prefix, then look up its user, who must have a truthy `username`.
     */
    method AuthenticateAccessToken(headers: map<string, string>, auth: string) returns (c: Classification)
      requires Header(headers, "AUTHORIZATION") == Some(auth) && Present(Some(auth))
      ensures Some(c) == CheckAccessToken(services, headers)
      ensures c.OAuthSession? ==> c.user.JObject? && "username" in c.user.fields && Truthy(c.user.fields["username"])
    {
      var token := TokenAfterPrefix(auth);
      var introspected := services.introspection(token);
      if Truthy(introspected.error) {
        return Rejected(UnAuthorizedSession);
      }
      var lookup := services.getUser(token);
      if Truthy(lookup.error) {
        return Rejected(UnAuthorizedSession);
      }
      if !lookup.value.JObject? {
        return Rejected(Unhandled("AttributeError"));
      }
      if !("username" in lookup.value.fields && Truthy(lookup.value.fields["username"])) {
        return Rejected(UnAuthorizedSession);
      }
      return OAuthSession(lookup.value);
    }

    /** `process_resource`: enforces the resource's accepted schemes, as written. */
    method ProcessResource(req: Request, resource: Resource) returns (outcome: Outcome<HttpError>)
      requires config.Defaulted()
      modifies req
      ensures var e := EnforceAsWritten(ContextGet(old(req.context), "authorization_scheme"),
                                        resource.authorizationSchemes.GetOr([]), req.uriTemplate,
                                        config.exemptedPaths.value);
              && outcome == e.outcome
              && req.context == (if e.marksExempted
                                 then old(req.context)["authorization_scheme" := SchemeValue(ExemptedPath)]
                                 else old(req.context))
      ensures req.user == old(req.user)
    {
      var requestScheme := ContextGet(req.context, "authorization_scheme");
      var resourceSchemes := resource.authorizationSchemes.GetOr([]);

      if |resourceSchemes| == 0 {
        return Pass;
      }
      if requestScheme == JsonValue(JNull) {
        if req.uriTemplate !in config.exemptedPaths.value {
          return Fail(UnAuthorizedSession);
        }
        req.context := req.context["authorization_scheme" := SchemeValue(ExemptedPath)];
      }
      if requestScheme == SchemeValue(ExemptedPath) {
        return Pass;
      }
      if requestScheme == JsonValue(JNull) {
        return Fail(UnAuthorizedSession);
      }
      if !(requestScheme.SchemeValue? && requestScheme.scheme in resourceSchemes) {
        return Fail(ForbiddenError);
      }
      return Pass;
    }
  }
}
