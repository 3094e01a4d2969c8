/**
 * The session: its transport defaults, its one cookie jar and its hook registry, the request
 * pipeline (normalise, attach the jar, beforeRequest hooks, transport, afterRequest hooks), the
 * verb shortcuts, and saving and restoring the cookie state.
 */
module Session {
  import opened Wrappers
  import opened Cookies
  import opened JsValues
  import opened Normalization
  import opened Hooks

  const JarKey := "jar"
  const MethodKey := "method"
  const DefaultsKey := "defaults"
  const CookiesKey := "cookies"
  const BeforeRequestEvent := "beforeRequest"
  const AfterRequestEvent := "afterRequest"

  /**
   * The HTTP client: given the defaults the session was configured with and the options of one
   * call, it answers with a response or an error.
   */
  type Transport = (Value, Options) -> Result<Value, Error>

  /**
   * One `request` call: the options handed to the transport (none if it was never called), the
   * caller's second argument after the call (normalisation may have written `url` onto it), and
   * the result.
   */
  datatype RequestRun = RequestRun(sent: Option<Options>, caller: Value, result: Result<Value, Error>)

  /** `(options || {}).defaults || {}`: the client defaults of a new session. */
  function TransportDefaults(options: Value): (d: Value)
    ensures Truthy(d)
    ensures options.Obj? && DefaultsKey in options.fields && Truthy(options.fields[DefaultsKey]) ==>
      d == options.fields[DefaultsKey]
    ensures !(options.Obj? && DefaultsKey in options.fields && Truthy(options.fields[DefaultsKey])) ==>
      d == Obj(map[])
  {
    Or(Property(Or(options, Obj(map[])), DefaultsKey), Obj(map[]))
  }

  class HttpSession {
    const defaults: Value
    const cookieJar: CookieJar
    var hooks: Registry

    /** `new HttpSession(options)`; `freshStore` is the empty store the cookie library creates. */
    constructor (options: Value, freshStore: CookieStore)
      ensures defaults == TransportDefaults(options)
      ensures fresh(cookieJar) && cookieJar.store == freshStore
      ensures hooks == map[]
    {
      defaults := TransportDefaults(options);
      cookieJar := new CookieJar(freshStore);
      hooks := map[];
    }

    /**
     * The first line of `request`: normalisation with the session jar as the only override. The
     * jar is all it adds to what plain normalisation gives.
     */
    function Prepare(url: Value, options: Value): (r: Result<Normalized, Error>)
      ensures r.Success? <==> Normalize(url, options, map[]).Success?
      ensures r.Success? ==>
        r.value.options == Normalize(url, options, map[]).value.options[JarKey := JarRef(cookieJar)]
        && r.value.callerOptions == Normalize(url, options, map[]).value.callerOptions
    {
      NormalizeSingleOverride(url, options, JarKey, JarRef(cookieJar));
      Normalize(url, options, map[JarKey := JarRef(cookieJar)])
    }

    /**
     * `request(url, options)`: the options are normalised with the session jar as override, the
     * beforeRequest chain sees them (its result is dropped), the transport gets those same options,
     * and the afterRequest chain, called with the response and the options, decides the result.
     */
    function Request(url: Value, options: Value, send: Transport): (r: RequestRun)
      reads this
      // a call the normaliser rejects fails before any hook or the transport runs
      ensures Prepare(url, options).Failure? ==> r == RequestRun(None, options, Failure(Prepare(url, options).error))
      // the caller's object is left as normalisation leaves it: a string URL is written onto it
      ensures Prepare(url, options).Success? ==> r.caller == Prepare(url, options).value.callerOptions
      // the transport always gets the session's jar, in exactly the normalised options the hooks saw
      ensures r.sent.Some? ==> JarKey in r.sent.value && r.sent.value[JarKey] == JarRef(cookieJar)
      ensures r.sent.Some? ==> Prepare(url, options).Success? && r.sent.value == Prepare(url, options).value.options
      // the transport is called exactly when normalisation and the beforeRequest chain succeed
      ensures Prepare(url, options).Success? ==>
        var before := RunHooks(hooks, BeforeRequestEvent, [Obj(Prepare(url, options).value.options)]);
        (r.sent.None? <==> before.outcome.Failure?) && (r.sent.None? ==> r.result == before.outcome)
      // a transport error is the result; otherwise the afterRequest chain's outcome is
      ensures r.sent.Some? ==>
        r.result == match send(defaults, r.sent.value)
                    case Failure(e) => Failure(e)
                    case Success(response) => RunHooks(hooks, AfterRequestEvent, [response, Obj(r.sent.value)]).outcome
    {
      match Prepare(url, options)
      case Failure(e) => RequestRun(None, options, Failure(e))
      case Success(n) =>
        var before := RunHooks(hooks, BeforeRequestEvent, [Obj(n.options)]);
        if before.outcome.Failure? then RequestRun(None, n.callerOptions, before.outcome)
        else
          match send(defaults, n.options)
          case Failure(e) => RequestRun(Some(n.options), n.callerOptions, Failure(e))
          case Success(response) =>
            RequestRun(Some(n.options), n.callerOptions, RunHooks(hooks, AfterRequestEvent, [response, Obj(n.options)]).outcome)
    }

    /**
     * With no hooks registered, as on a new session, `request` is the transport call itself:
     * both chains pass their first argument through.
     */
    lemma NoHooksRequestIsTransport(url: Value, options: Value, send: Transport)
      requires Handlers(hooks, BeforeRequestEvent) == [] && Handlers(hooks, AfterRequestEvent) == []
      requires Prepare(url, options).Success?
      ensures var n := Prepare(url, options).value;
        Request(url, options, send) == RequestRun(Some(n.options), n.callerOptions, send(defaults, n.options))
    {
      var sent := Prepare(url, options).value.options;
      match send(defaults, sent)
      case Failure(_) =>
      case Success(response) =>
        assert FirstArg([response, Obj(sent)]) == response;
    }

    /**
     * The shared body of the verb shortcuts: normalise with `{method: verb}`, then `request` the
     * result. The method is the verb whatever the caller gave, and the jar is attached.
     */
    function Shortcut(verb: string, url: Value, options: Value, send: Transport): (r: RequestRun)
      reads this
      ensures r.sent.Some? ==> MethodKey in r.sent.value && r.sent.value[MethodKey] == Str(verb)
      ensures r.sent.Some? ==> JarKey in r.sent.value && r.sent.value[JarKey] == JarRef(cookieJar)
      ensures r.sent.Some? && url.Str? ==> UrlKey in r.sent.value && r.sent.value[UrlKey] == url
      // the caller's object gains a string URL, as the shortcut's normalisation writes it
      ensures url.Str? && options.Obj? ==> r.caller == Obj(options.fields[UrlKey := url])
      ensures !url.Str? ==> r.caller == options
      ensures Normalize(url, options, map[MethodKey := Str(verb)]).Failure? ==>
        r == RequestRun(None, options, Failure(Normalize(url, options, map[MethodKey := Str(verb)]).error))
      ensures Normalize(url, options, map[MethodKey := Str(verb)]).Success? ==>
        var n := Normalize(url, options, map[MethodKey := Str(verb)]).value;
        r == Request(Obj(n.options), Undefined, send).(caller := n.callerOptions)
    {
      match Normalize(url, options, map[MethodKey := Str(verb)])
      case Failure(e) => RequestRun(None, options, Failure(e))
      case Success(n) => Request(Obj(n.options), Undefined, send).(caller := n.callerOptions)
    }

    /** `get(url, options)` */
    function Get(url: Value, options: Value, send: Transport): (r: RequestRun)
      reads this
      ensures r.sent.Some? ==> MethodKey in r.sent.value && r.sent.value[MethodKey] == Str("GET")
      ensures r.sent.Some? ==> JarKey in r.sent.value && r.sent.value[JarKey] == JarRef(cookieJar)
    {
      Shortcut("GET", url, options, send)
    }

    /** `post(url, options)` */
    function Post(url: Value, options: Value, send: Transport): (r: RequestRun)
      reads this
      ensures r.sent.Some? ==> MethodKey in r.sent.value && r.sent.value[MethodKey] == Str("POST")
      ensures r.sent.Some? ==> JarKey in r.sent.value && r.sent.value[JarKey] == JarRef(cookieJar)
    {
      Shortcut("POST", url, options, send)
    }

    /** `put(url, options)` */
    function Put(url: Value, options: Value, send: Transport): (r: RequestRun)
      reads this
      ensures r.sent.Some? ==> MethodKey in r.sent.value && r.sent.value[MethodKey] == Str("PUT")
      ensures r.sent.Some? ==> JarKey in r.sent.value && r.sent.value[JarKey] == JarRef(cookieJar)
    {
      Shortcut("PUT", url, options, send)
    }

    /** `delete(url, options)` */
    function Delete(url: Value, options: Value, send: Transport): (r: RequestRun)
      reads this
      ensures r.sent.Some? ==> MethodKey in r.sent.value && r.sent.value[MethodKey] == Str("DELETE")
      ensures r.sent.Some? ==> JarKey in r.sent.value && r.sent.value[JarKey] == JarRef(cookieJar)
    {
      Shortcut("DELETE", url, options, send)
    }

    /** `patch(url, options)` */
    function Patch(url: Value, options: Value, send: Transport): (r: RequestRun)
      reads this
      ensures r.sent.Some? ==> MethodKey in r.sent.value && r.sent.value[MethodKey] == Str("PATCH")
      ensures r.sent.Some? ==> JarKey in r.sent.value && r.sent.value[JarKey] == JarRef(cookieJar)
    {
      Shortcut("PATCH", url, options, send)
    }

    /** `head(url, options)` */
    function Head(url: Value, options: Value, send: Transport): (r: RequestRun)
      reads this
      ensures r.sent.Some? ==> MethodKey in r.sent.value && r.sent.value[MethodKey] == Str("HEAD")
      ensures r.sent.Some? ==> JarKey in r.sent.value && r.sent.value[JarKey] == JarRef(cookieJar)
    {
      Shortcut("HEAD", url, options, send)
    }

    /** `_addHook(event, handler)` */
    method AddHook(event: string, handler: Handler)
      modifies this
      ensures hooks == AppendHook(old(hooks), event, handler)
    {
      hooks := AppendHook(hooks, event, handler);
    }

    /** `beforeRequest(callback)` */
    method BeforeRequest(callback: Handler)
      modifies this
      ensures hooks == AppendHook(old(hooks), BeforeRequestEvent, callback)
    {
      AddHook(BeforeRequestEvent, callback);
    }

    /** `afterRequest(callback)` */
    method AfterRequest(callback: Handler)
      modifies this
      ensures hooks == AppendHook(old(hooks), AfterRequestEvent, callback)
    {
      AddHook(AfterRequestEvent, callback);
    }

    /** `serialize()`: a plain object whose only property is the cookie library's serialization of the store. */
    function Serialize(serializeSync: CookieStore -> Value): (r: Value)
      reads this, cookieJar
      ensures r.Obj? && r.fields.Keys == {CookiesKey}
      ensures r.fields[CookiesKey] == serializeSync(cookieJar.store)
    {
      Obj(map[CookiesKey := serializeSync(cookieJar.store)])
    }

    /**
     * `deserialize(state)`: the store is replaced by what the cookie library rebuilds from
     * `(state || {}).cookies`; if the library throws, the error is returned and the store is kept.
     * The jar object itself, the one every request carries, stays the same.
     */
    method Deserialize(state: Value, deserializeSync: Value -> Result<CookieStore, Error>) returns (err: Option<Error>)
      modifies cookieJar
      ensures match deserializeSync(Property(Or(state, Obj(map[])), CookiesKey))
        case Success(store) => err == None && cookieJar.store == store
        case Failure(e) => err == Some(e) && cookieJar.store == old(cookieJar.store)
    {
      var cookies := Property(Or(state, Obj(map[])), CookiesKey);
      match deserializeSync(cookies)
      case Success(store) =>
        cookieJar.store := store;
        err := None;
      case Failure(e) =>
        err := Some(e);
    }
  }
}
