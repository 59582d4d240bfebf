/**
 * The surface of the web framework that the middlewares and hooks touch:
 * header lookup, the per-request context bag, the request and response
 * objects, and the errors the middlewares raise.
 */
module Falcon {
  import opened Wrappers
  import opened Json
  import opened Auth

  /** Python's `bool(x)` on an optional header value (`None` or a string). */
  predicate Present(h: Option<string>) {
    h.Some? && h.value != ""
  }

  /** Python's `a or b` on two optional header values. */
  function Or(a: Option<string>, b: Option<string>): (r: Option<string>)
    ensures Present(a) ==> r == a
    ensures !Present(a) ==> r == b
  {
    if Present(a) then a else b
  }

  /** `dict.get(key)` on a `dict` of headers. */
  function Header(headers: map<string, string>, name: string): (r: Option<string>)
    ensures r.Some? <==> name in headers
    ensures r.Some? ==> r.value == headers[name]
  {
    if name in headers then Some(headers[name]) else None
  }

  /**
   * A value stored in `req.context`: one of the authorization scheme enum
   * members, or a plain (JSON-like) value such as a payload or an id.
   */
  datatype ContextValue = SchemeValue(scheme: AuthorizationScheme) | JsonValue(json: Json)

  /** `req.context.get(key)`: a missing key reads as `None`. */
  function ContextGet(ctx: map<string, ContextValue>, key: string): (v: ContextValue)
    ensures key in ctx ==> v == ctx[key]
    ensures key !in ctx ==> v == JsonValue(JNull)
  {
    if key in ctx then ctx[key] else JsonValue(JNull)
  }

  /**
   * Errors raised by the modelled code. The first five are the classes of
   * `commons_falcon.errors`; `Unhandled` is a Python exception the code does
   * not catch (an `AttributeError`, `TypeError` or `IndexError`), named by
   * its class.
   */
  datatype HttpError =
    | UnAuthorizedSession
    | InvalidJWTError
    | ServiceFailureError
    | ForbiddenError
    | InvalidApiVersionScheme
    | Unhandled(exception: string)

  /** The status line falcon's `HTTP_200` stands for. */
  const HTTP_200: string := "200 OK"

  /**
   * A framework request. Its method (`httpMethod`), path, headers (with the upper-case
   * names the WSGI request gives them), proxy route and query parameters
   * are fixed; the context bag and the `user` attribute are written by
   * middlewares. `paramKeys` lists the query parameter names in the order
   * the request's parameter dictionary yields them, and `params[k]` is what
   * `get_param_as_list(k)` returns.
   */
  class Request {
    const httpMethod: string
    const path: string
    const uriTemplate: string
    const headers: map<string, string>
    const accessRoute: seq<string>
    const paramKeys: seq<string>
    const params: map<string, seq<string>>
    var context: map<string, ContextValue>
    var user: Option<Json>

    constructor(httpMethod: string, path: string, uriTemplate: string, headers: map<string, string>,
                accessRoute: seq<string>, paramKeys: seq<string>, params: map<string, seq<string>>)
      ensures this.httpMethod == httpMethod && this.path == path && this.uriTemplate == uriTemplate
      ensures this.headers == headers && this.accessRoute == accessRoute
      ensures this.paramKeys == paramKeys && this.params == params
      ensures context == map[] && user == None
    {
      this.httpMethod := httpMethod;
      this.path := path;
      this.uriTemplate := uriTemplate;
      this.headers := headers;
      this.accessRoute := accessRoute;
      this.paramKeys := paramKeys;
      this.params := params;
      context := map[];
      user := None;
    }
  }

  /** A framework response: its status line and whether it is complete. */
  class Response {
    var status: string
    var complete: bool

    constructor()
      ensures status == "" && !complete
    {
      status := "";
      complete := false;
    }
  }
}
