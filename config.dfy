/** `api/config.ts`: the module-level API configuration and the request
    function built from it.

    The module holds two pieces of state: `apiConfig`, which starts as a
    copy of the defaults and absorbs every partial configuration handed to
    `setupApi`, and `request`, which is unset until `setupApi` stores what
    its `initer` built. */
module Config {
  import opened Wrappers
  import opened JsValues
  import opened Utils

  /** A function-valued configuration entry (`tenant`, `authToken`,
      `autoLogin`). `DefaultHook` is the function the defaults install: it
      returns null for `tenant` and `authToken` and rejects with
      `NotImplementedMessage` for `autoLogin`. `UserHook(name)` is a function
      the application supplies; what it returns is an input wherever it is
      called. */
  datatype Hook = DefaultHook | UserHook(name: string)

  /** `proxy?: ProxyConfig | false`. */
  datatype Proxy = NoProxy | ProxyTo(host: string, port: int)

  /** `ApiConfig`. The three hooks are optional in the interface, but every
      configuration `setupApi` produces has them, because the defaults
      supply them and a merge never removes a key. */
  datatype ApiConfig = ApiConfig(
    baseUrl: string,
    requestTimeout: int,
    successCode: OneOrMany<int>,
    needLoginCode: OneOrMany<int>,
    tenant: Hook,
    authToken: Hook,
    autoLogin: Hook,
    defaultHeaders: Option<map<string, string>>,
    defaultParams: Option<seq<Entry>>,
    proxy: Option<Proxy>)

  /** `Partial<ApiConfig>`: `None` is a key the object does not have. */
  datatype PartialConfig = PartialConfig(
    baseUrl: Option<string>,
    requestTimeout: Option<int>,
    successCode: Option<OneOrMany<int>>,
    needLoginCode: Option<OneOrMany<int>>,
    tenant: Option<Hook>,
    authToken: Option<Hook>,
    autoLogin: Option<Hook>,
    defaultHeaders: Option<map<string, string>>,
    defaultParams: Option<seq<Entry>>,
    proxy: Option<Proxy>)

  /** The rejection message of the default `autoLogin`. */
  const NotImplementedMessage: string := "autoLogin not implemented"

  /** The error `useRequest` throws before `setupApi`. */
  const SetupFirstMessage: string := "Please call `setupApi()` before useRequest"

  /** `defaultApiConfig`. */
  const DefaultApiConfig: ApiConfig := ApiConfig(
    "", 60000, One(0), Many([630]), DefaultHook, DefaultHook, DefaultHook, None, None, None)

  /** A partial configuration with no keys. */
  const NoKeys: PartialConfig := PartialConfig(None, None, None, None, None, None, None, None, None, None)

  /** The value a partial configuration supplies for a key, or the current
      one when it lacks the key. */
  function Pick<T>(supplied: Option<T>, current: T): T
  {
    if supplied.Some? then supplied.value else current
  }

  /** `extend(apiConfig, config)`: every key the partial configuration
      supplies replaces the current value; absent keys keep it. */
  function Merge(c: ApiConfig, p: PartialConfig): ApiConfig
  {
    ApiConfig(
      Pick(p.baseUrl, c.baseUrl),
      Pick(p.requestTimeout, c.requestTimeout),
      Pick(p.successCode, c.successCode),
      Pick(p.needLoginCode, c.needLoginCode),
      Pick(p.tenant, c.tenant),
      Pick(p.authToken, c.authToken),
      Pick(p.autoLogin, c.autoLogin),
      if p.defaultHeaders.Some? then p.defaultHeaders else c.defaultHeaders,
      if p.defaultParams.Some? then p.defaultParams else c.defaultParams,
      if p.proxy.Some? then p.proxy else c.proxy)
  }

  /** Two partial configurations applied one after the other, as one: the
      later one's keys win. */
  function Then(p: PartialConfig, q: PartialConfig): PartialConfig
  {
    PartialConfig(
      if q.baseUrl.Some? then q.baseUrl else p.baseUrl,
      if q.requestTimeout.Some? then q.requestTimeout else p.requestTimeout,
      if q.successCode.Some? then q.successCode else p.successCode,
      if q.needLoginCode.Some? then q.needLoginCode else p.needLoginCode,
      if q.tenant.Some? then q.tenant else p.tenant,
      if q.authToken.Some? then q.authToken else p.authToken,
      if q.autoLogin.Some? then q.autoLogin else p.autoLogin,
      if q.defaultHeaders.Some? then q.defaultHeaders else p.defaultHeaders,
      if q.defaultParams.Some? then q.defaultParams else p.defaultParams,
      if q.proxy.Some? then q.proxy else p.proxy)
  }

  /** A complete configuration as a partial one supplying every key. */
  function AllKeys(c: ApiConfig): PartialConfig
  {
    PartialConfig(
      Some(c.baseUrl), Some(c.requestTimeout), Some(c.successCode), Some(c.needLoginCode),
      Some(c.tenant), Some(c.authToken), Some(c.autoLogin),
      c.defaultHeaders, c.defaultParams, c.proxy)
  }

  /** A partial configuration with no keys changes nothing. */
  lemma MergeNothing(c: ApiConfig)
    ensures Merge(c, NoKeys) == c
  {
  }

  /** Successive merges accumulate: merging `p` and then `q` is merging
      their combination, in which `q` wins. */
  lemma MergeAccumulates(c: ApiConfig, p: PartialConfig, q: PartialConfig)
    ensures Merge(Merge(c, p), q) == Merge(c, Then(p, q))
  {
  }

  /** Merging the same partial configuration twice is merging it once. */
  lemma MergeIdempotent(c: ApiConfig, p: PartialConfig)
    ensures Merge(Merge(c, p), p) == Merge(c, p)
  {
  }

  /** A partial configuration supplying a key fixes that key whatever the
      configuration before; one supplying every key replaces it. An optional
      key `d` lacks is absent from `AllKeys(d)` and so keeps its old value. */
  lemma MergeSupplied(c: ApiConfig, d: ApiConfig, p: PartialConfig)
    ensures var m := Merge(c, p);
      && m.baseUrl == (if p.baseUrl.Some? then p.baseUrl.value else c.baseUrl)
      && m.requestTimeout == (if p.requestTimeout.Some? then p.requestTimeout.value else c.requestTimeout)
      && m.successCode == (if p.successCode.Some? then p.successCode.value else c.successCode)
      && m.needLoginCode == (if p.needLoginCode.Some? then p.needLoginCode.value else c.needLoginCode)
      && m.tenant == (if p.tenant.Some? then p.tenant.value else c.tenant)
      && m.authToken == (if p.authToken.Some? then p.authToken.value else c.authToken)
      && m.autoLogin == (if p.autoLogin.Some? then p.autoLogin.value else c.autoLogin)
      && m.defaultHeaders == (if p.defaultHeaders.Some? then p.defaultHeaders else c.defaultHeaders)
      && m.defaultParams == (if p.defaultParams.Some? then p.defaultParams else c.defaultParams)
      && m.proxy == (if p.proxy.Some? then p.proxy else c.proxy)
    ensures d.defaultHeaders.Some? && d.defaultParams.Some? && d.proxy.Some? ==> Merge(c, AllKeys(d)) == d
    ensures Merge(c, AllKeys(d)).autoLogin == d.autoLogin
  {
  }

  /** The module state of `api/config.ts`. */
  class ApiState<R> {
    var apiConfig: ApiConfig
    var request: Option<R>

    /** Module load: `apiConfig` is a copy of the defaults and `request` is
        null. The defaults themselves are a constant and stay as they are. */
    constructor ()
      ensures apiConfig == DefaultApiConfig && request == None
    {
      apiConfig := DefaultApiConfig;
      request := None;
    }

    /** `setupApi(initer, config)`: merge the partial configuration, if
        given, into `apiConfig`, then store what `initer` builds from the
        merged configuration (`None` for a falsy result). */
    method SetupApi(initer: ApiConfig -> Option<R>, config: Option<PartialConfig>)
      modifies this
      ensures apiConfig == if config.Some? then Merge(old(apiConfig), config.value) else old(apiConfig)
      ensures request == initer(apiConfig)
    {
      if config.Some? {
        apiConfig := Merge(apiConfig, config.value);
      }
      request := initer(apiConfig);
    }

    /** `useRequest()`: the stored request, or the setup error while none is
        stored. */
    method UseRequest() returns (r: Result<R, string>)
      ensures request.None? <==> r.Failure?
      ensures r.Failure? ==> r.error == SetupFirstMessage
      ensures r.Success? ==> request == Some(r.value)
    {
      if request.None? {
        return Failure(SetupFirstMessage);
      }
      return Success(request.value);
    }
  }

  /** `useRequest` fails on a fresh module and, after one `setupApi`,
      returns exactly what `initer` built from the defaults merged with the
      partial configuration. */
  method UseBeforeAndAfterSetup<R>(initer: ApiConfig -> Option<R>, config: PartialConfig)
    returns (before: Result<R, string>, after: Result<R, string>)
    ensures before == Failure(SetupFirstMessage)
    ensures after == match initer(Merge(DefaultApiConfig, config))
      case None => Failure(SetupFirstMessage)
      case Some(req) => Success(req)
  {
    var state := new ApiState<R>();
    before := state.UseRequest();
    state.SetupApi(initer, Some(config));
    after := state.UseRequest();
  }

  /** Two `setupApi` calls: the second `initer` sees the defaults with both
      partial configurations merged in order; a call without a partial
      configuration keeps the merged configuration. */
  method SetupTwice<R>(initer: ApiConfig -> Option<R>, p: PartialConfig, q: PartialConfig)
    returns (seen: ApiConfig, kept: ApiConfig)
    ensures seen == Merge(Merge(DefaultApiConfig, p), q)
    ensures seen == Merge(DefaultApiConfig, Then(p, q))
    ensures kept == seen
  {
    var state := new ApiState<R>();
    state.SetupApi(initer, Some(p));
    state.SetupApi(initer, Some(q));
    seen := state.apiConfig;
    state.SetupApi(initer, None);
    kept := state.apiConfig;
    MergeAccumulates(DefaultApiConfig, p, q);
  }
}
