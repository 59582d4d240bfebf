/**
 * `ApiVersioningScheme` of `commons_falcon/mixins/api_version.py`: a
 * resource mix-in whose `on_get`/`on_post` pick the handler named after the
 * `X-API-VERSION` header and call it with the same arguments.
 */
module ApiVersion {
  import opened Wrappers
  import opened Falcon

  /** The two verbs the mix-in answers. */
  datatype Verb = Get | Post {
    /** The method called when no version is requested: `self.get` or `self.post`. */
    function Fallback(): string {
      match this
      case Get => "get"
      case Post => "post"
    }

    /** The prefix of versioned handler names: `on_get_` or `on_post_`. */
    function Prefix(): string {
      match this
      case Get => "on_get_"
      case Post => "on_post_"
    }
  }

  /**
   * The name of the handler `on_get`/`on_post` calls on a resource whose
   * truthy attributes are `handlers`; the handler receives the request,
   * response and remaining arguments unchanged. No version falls back to
   * `get`/`post`, whose absence is an `AttributeError`.
   */
  function Dispatch(verb: Verb, headers: map<string, string>, handlers: set<string>): (r: Result<string, HttpError>)
    ensures r.Success? ==> r.value in handlers
    ensures r.Failure? ==> r.error == InvalidApiVersionScheme || r.error == Unhandled("AttributeError")
    ensures r == Failure(InvalidApiVersionScheme) ==> Present(Header(headers, "X-API-VERSION"))
  {
    var version := Header(headers, "X-API-VERSION");
    if !Present(version) then
      if verb.Fallback() in handlers then Success(verb.Fallback()) else Failure(Unhandled("AttributeError"))
    else
      var name := verb.Prefix() + version.value;
      if name in handlers then Success(name) else Failure(InvalidApiVersionScheme)
  }

  /** A missing or empty `X-API-VERSION` delegates to `get`/`post`. */
  lemma NoVersionDelegates(verb: Verb, headers: map<string, string>, handlers: set<string>)
    requires "X-API-VERSION" !in headers || headers["X-API-VERSION"] == ""
    requires verb.Fallback() in handlers
    ensures Dispatch(verb, headers, handlers) == Success(verb.Fallback())
  {
  }

  /**
   * A version `v` runs `on_get_v`/`on_post_v` exactly when the resource has
   * it, and raises `InvalidApiVersionScheme` otherwise, without running any
   * handler.
   */
  lemma VersionSelectsHandler(verb: Verb, headers: map<string, string>, handlers: set<string>)
    requires "X-API-VERSION" in headers && headers["X-API-VERSION"] != ""
    ensures var name := verb.Prefix() + headers["X-API-VERSION"];
            && (name in handlers <==> Dispatch(verb, headers, handlers) == Success(name))
            && (name !in handlers <==> Dispatch(verb, headers, handlers) == Failure(InvalidApiVersionScheme))
  {
  }

  /** Whatever the header says, a successful dispatch names a handler the resource has. */
  lemma DispatchedHandlerExists(verb: Verb, headers: map<string, string>, handlers: set<string>)
    ensures Dispatch(verb, headers, handlers).Success? ==> Dispatch(verb, headers, handlers).value in handlers
  {
  }

  /** The other verb. */
  function Other(verb: Verb): Verb {
    if verb == Get then Post else Get
  }

  /**
   * A GET never reaches a POST handler and a POST never reaches a GET
   * handler: a dispatched name is the verb's fallback or starts with the
   * verb's own prefix, and it is neither the other verb's fallback nor
   * starts with the other verb's prefix.
   */
  lemma VerbsNeverCross(verb: Verb, headers: map<string, string>, handlers: set<string>)
    requires Dispatch(verb, headers, handlers).Success?
    ensures var name := Dispatch(verb, headers, handlers).value;
            var other := Other(verb);
            && (name == verb.Fallback() || (|verb.Prefix()| <= |name| && name[..|verb.Prefix()|] == verb.Prefix()))
            && name != other.Fallback()
            && !(|other.Prefix()| <= |name| && name[..|other.Prefix()|] == other.Prefix())
  {
    var name := Dispatch(verb, headers, handlers).value;
    var other := Other(verb);
    if name != verb.Fallback() {
      assert name[..|verb.Prefix()|] == verb.Prefix();
      assert name[3] == verb.Prefix()[3] != other.Prefix()[3];
    }
  }
}
