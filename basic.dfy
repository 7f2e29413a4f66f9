/** `api/basic.ts`: the request shaper and the builders on top of it.

    `request` turns an API request configuration into the configuration the
    service's request function receives (Content-Type and method defaulted,
    params snake-cased) and turns the reply back into camel case. `upload`,
    `get`, `post`, `getPage` and `postPage` adjust the configuration first;
    the `define*Api` factories merge default parameters under the caller's.
    The request function of the service (`useApi(service).request`) is a
    parameter `send`. */
module Basic {
  import opened Wrappers
  import opened JsValues
  import opened Utils

  /** The caller's `Pageable` object, as its own properties in their order.
      Its type asks for `pn` and `pl`, but any object extending it (a
      previous `ApiPageResponse`, say) is accepted, and all its properties
      are copied into the params. */
  type Pageable = seq<Entry>

  /** The caller's `Sortable` object (normally just `sort`), likewise. */
  type Sortable = seq<Entry>

  /** `ApiRequestConfig`, the fields the builders read or write. `None` is
      a property the object does not have; absent `data` is `Nil`. */
  datatype ApiRequestConfig = ApiRequestConfig(
    service: Option<string>,
    url: string,
    httpMethod: Option<string>,
    contentType: Option<string>,
    headers: Option<map<string, string>>,
    params: Option<seq<Entry>>,
    data: Value)

  /** `RequestConfig`: what the service's request function receives. */
  datatype RequestConfig = RequestConfig(
    service: Option<string>,
    url: string,
    httpMethod: string,
    contentType: Option<string>,
    headers: map<string, string>,
    params: Value,
    data: Value)

  /** `HttpResponse`: the reply the request function resolves with. */
  datatype HttpResponse = HttpResponse(data: Value, status: int, statusText: string)

  const JsonContentType: string := "application/json"
  const MultipartContentType: string := "multipart/form-data"
  const DefaultMethod: string := "get"
  const OkStatus: int := 200

  /** The caller's headers, or none. */
  function CallerHeaders(config: ApiRequestConfig): map<string, string>
  {
    if config.headers.Some? then config.headers.value else map[]
  }

  /** `{ 'Content-Type': contentType || 'application/json', ...headers }`:
      the caller's headers are spread last and win, Content-Type included. */
  function Headers(config: ApiRequestConfig): (h: map<string, string>)
    ensures ContentTypeHeader in h
    ensures h[ContentTypeHeader] ==
      if ContentTypeHeader in CallerHeaders(config) then CallerHeaders(config)[ContentTypeHeader]
      else OrElse(config.contentType, JsonContentType)
    ensures forall k :: k != ContentTypeHeader ==>
      (k in h <==> k in CallerHeaders(config)) && (k in h ==> h[k] == CallerHeaders(config)[k])
  {
    map[ContentTypeHeader := OrElse(config.contentType, JsonContentType)] + CallerHeaders(config)
  }

  /** `toSnakeObject(params)` for an optional params object. */
  function SnakeParams(casing: Casing, params: Option<seq<Entry>>): (r: Value)
    ensures params.None? ==> r == Nil
    ensures params.Some? ==> r.Obj? && KeySet(r.entries) == RenamedKeys(casing.snake, params.value)
  {
    if params.None? then Nil
    else
      TranscodeKeepsTarget(casing.snake, params.value, None);
      TranscodeInto(casing.snake, Obj(params.value), None)
  }

  /** The configuration `request` hands to the service's request function. */
  function BuildRequest(casing: Casing, config: ApiRequestConfig): (r: RequestConfig)
    ensures r.httpMethod == OrElse(config.httpMethod, DefaultMethod)
    ensures r.headers == Headers(config)
    ensures r.params == SnakeParams(casing, config.params)
    ensures r.service == config.service && r.url == config.url && r.data == config.data
  {
    RequestConfig(
      config.service, config.url, OrElse(config.httpMethod, DefaultMethod), config.contentType,
      Headers(config), SnakeParams(casing, config.params), config.data)
  }

  /** How the promise of the service's request function settles: with a
      response, with `undefined` (what the response interceptor leaves
      after a failed login or re-issue), or rejected with a reason. */
  datatype ServiceReply<+Reason> = Responded(response: HttpResponse) | Undefined | Rejected(reason: Reason)

  /** Why `request` rejects: the status check throws `Error(statusText)`,
      reading `status` of `undefined` throws a TypeError, or the service's
      rejection passes through the `await` unchanged. */
  datatype RequestError<+Reason> = StatusError(statusText: string) | ReadOfUndefined | ServiceRejected(reason: Reason)

  /** `request(config)`: a rejected service call rejects `request` with the
      same reason; an `undefined` reply throws at `res.status`; a status
      other than 200 throws `Error(statusText)`; otherwise the reply data
      comes back camel-cased. */
  function Request<R>(casing: Casing, send: RequestConfig -> ServiceReply<R>, config: ApiRequestConfig): (r: Result<Value, RequestError<R>>)
    ensures var reply := send(BuildRequest(casing, config));
      && (reply.Rejected? ==> r == Failure(ServiceRejected(reply.reason)))
      && (reply.Undefined? ==> r == Failure(ReadOfUndefined))
      && (reply.Responded? ==>
            && (r.Failure? <==> reply.response.status != OkStatus)
            && (r.Failure? ==> r.error == StatusError(reply.response.statusText))
            && (r.Success? ==> r.value == TranscodeInto(casing.camel, reply.response.data, None)))
  {
    match send(BuildRequest(casing, config))
    case Rejected(reason) => Failure(ServiceRejected(reason))
    case Undefined => Failure(ReadOfUndefined)
    case Responded(res) =>
      if res.status != OkStatus then Failure(StatusError(res.statusText))
      else Success(Transcode(casing.camel, res.data))
  }

  /** A service that echoes the snake-cased data of a request back with
      status 200 hands the caller back exactly the data it sent, whenever
      the casing round trip is lossless for that data. */
  lemma EchoRoundTrip<R>(casing: Casing, send: RequestConfig -> ServiceReply<R>, config: ApiRequestConfig)
    requires RoundTrips(casing, config.data)
    requires send(BuildRequest(casing, config)) == Responded(HttpResponse(Transcode(casing.snake, config.data), OkStatus, "OK"))
    ensures Request(casing, send, config) == Success(config.data)
  {
    TranscodeRoundTrip(casing, config.data);
  }

  // ---------------------------------------------------------------------
  // The builders

  /** `upload`: the method defaults to `'post'`; the content type is always
      multipart. */
  function UploadConfig(config: ApiRequestConfig): ApiRequestConfig
  {
    config.(httpMethod := Some(OrElse(config.httpMethod, "post")), contentType := Some(MultipartContentType))
  }

  /** `get`: the method is `'get'`. */
  function GetConfig(config: ApiRequestConfig): ApiRequestConfig
  {
    config.(httpMethod := Some("get"))
  }

  /** The body `post` and `postPage` send: `{ body: toSnakeObject(data) }`. */
  function PostBody(casing: Casing, data: Value): Value
  {
    Obj([Entry("body", TranscodeInto(casing.snake, data, None))])
  }

  /** `post`: the method is `'post'` and the data is wrapped. */
  function PostConfig(casing: Casing, config: ApiRequestConfig): ApiRequestConfig
  {
    config.(httpMethod := Some("post"), data := PostBody(casing, config.data))
  }

  /** The properties an optional `Sortable` contributes: lodash `extend`
      skips an `undefined` source. */
  function SortEntries(sort: Option<Sortable>): seq<Entry>
  {
    if sort.Some? then sort.value else []
  }

  /** `extend(config.params, config.page, config.sort)`: the caller's
      params (a fresh object when there are none) with every property of the
      page, then of the sort, assigned over them in their own order. The caller's own params object is the one
      extended, so afterwards it holds exactly this. */
  function PageParams(params: Option<seq<Entry>>, page: Pageable, sort: Option<Sortable>): seq<Entry>
  {
    Extend(Extend(if params.Some? then params.value else [], page), SortEntries(sort))
  }

  /** `getPage`. */
  function GetPageConfig(config: ApiRequestConfig, page: Pageable, sort: Option<Sortable>): ApiRequestConfig
  {
    config.(httpMethod := Some("get"), params := Some(PageParams(config.params, page, sort)))
  }

  /** `postPage`. */
  function PostPageConfig(casing: Casing, config: ApiRequestConfig, page: Pageable, sort: Option<Sortable>): ApiRequestConfig
  {
    config.(httpMethod := Some("post"), params := Some(PageParams(config.params, page, sort)),
            data := PostBody(casing, config.data))
  }

  /** What each builder's request carries: the forced or defaulted method,
      the content type, the params and the body. */
  lemma BuildersShape(casing: Casing, config: ApiRequestConfig, page: Pageable, sort: Option<Sortable>)
    ensures BuildRequest(casing, UploadConfig(config)).httpMethod == OrElse(config.httpMethod, "post")
    ensures UploadConfig(config).contentType == Some(MultipartContentType)
    ensures BuildRequest(casing, GetConfig(config)).httpMethod == "get"
    ensures BuildRequest(casing, GetConfig(config)).data == config.data
    ensures BuildRequest(casing, PostConfig(casing, config)).httpMethod == "post"
    ensures BuildRequest(casing, PostConfig(casing, config)).data == Obj([Entry("body", Transcode(casing.snake, config.data))])
    ensures BuildRequest(casing, GetPageConfig(config, page, sort)).httpMethod == "get"
    ensures BuildRequest(casing, PostPageConfig(casing, config, page, sort)).httpMethod == "post"
    ensures BuildRequest(casing, PostPageConfig(casing, config, page, sort)).params
      == Transcode(casing.snake, Obj(PageParams(config.params, page, sort)))
  {
  }

  /** `upload` forces the multipart content type, but a Content-Type among
      the caller's headers is spread after it and wins. */
  lemma UploadContentType(casing: Casing, config: ApiRequestConfig)
    ensures var h := BuildRequest(casing, UploadConfig(config)).headers;
      h[ContentTypeHeader] ==
        if ContentTypeHeader in CallerHeaders(config) then CallerHeaders(config)[ContentTypeHeader]
        else MultipartContentType
  {
  }

  /** Reading the paging params: a key of the sort reads the sort's value,
      else a key of the page reads the page's (so `pn` and `pl`, and any
      other property the page object carries), and every other key reads as
      in the caller's params. */
  lemma {:induction false} PageParamsGet(params: Option<seq<Entry>>, page: Pageable, sort: Option<Sortable>, k: string)
    requires UniqueKeys(page) && UniqueKeys(SortEntries(sort))
    ensures var r := PageParams(params, page, sort);
      var base := if params.Some? then params.value else [];
      Get(r, k) ==
        if Get(SortEntries(sort), k).Some? then Get(SortEntries(sort), k)
        else if Get(page, k).Some? then Get(page, k)
        else Get(base, k)
  {
    var base := if params.Some? then params.value else [];
    ExtendGet(Extend(base, page), SortEntries(sort), k);
    ExtendGet(base, page, k);
    GetLastUnique(page, k);
    GetLastUnique(SortEntries(sort), k);
  }

  /** The paging params hold the caller's keys in their places, followed by
      the page's new keys and then the sort's, each in its own order. */
  lemma PageParamsKeys(params: Option<seq<Entry>>, page: Pageable, sort: Option<Sortable>)
    ensures var base := if params.Some? then params.value else [];
      KeySet(PageParams(params, page, sort)) == KeySet(base) + KeySet(page) + KeySet(SortEntries(sort))
    ensures var base := if params.Some? then params.value else [];
      |base| <= |PageParams(params, page, sort)|
      && forall i :: 0 <= i < |base| ==> PageParams(params, page, sort)[i].key == base[i].key
  {
    var base := if params.Some? then params.value else [];
    ExtendKeySet(base, page);
    ExtendKeySet(Extend(base, page), SortEntries(sort));
    ExtendPositions(base, page);
    ExtendPositions(Extend(base, page), SortEntries(sort));
  }

  /** A page object carrying more than `pn` and `pl` (the previous page's
      response, with its `total`) sends those extra properties as params. */
  lemma PageResponseSent(pn: int, pl: int, total: int)
    ensures var page := [Entry("pn", Num(pn)), Entry("pl", Num(pl)), Entry("total", Num(total))];
      PageParams(None, page, None) == page
  {
    var page := [Entry("pn", Num(pn)), Entry("pl", Num(pl)), Entry("total", Num(total))];
    ExtendFresh(page);
  }

  // ---------------------------------------------------------------------
  // The `define*Api` factories

  /** `extend({}, defaultParam, param)`: a fresh object with the defaults
      and then the caller's params assigned into it. */
  function MergeDefaults(defaultParam: Option<seq<Entry>>, param: Option<seq<Entry>>): seq<Entry>
  {
    Extend(Extend([], if defaultParam.Some? then defaultParam.value else []),
           if param.Some? then param.value else [])
  }

  /** The caller's value wins on a clash, the defaults fill the gaps, and
      the keys are those of both. */
  lemma MergeDefaultsSpec(defaultParam: seq<Entry>, param: seq<Entry>, k: string)
    requires UniqueKeys(defaultParam) && UniqueKeys(param)
    ensures var r := MergeDefaults(Some(defaultParam), Some(param));
      && Get(r, k) == (if k in KeySet(param) then Get(param, k) else Get(defaultParam, k))
      && KeySet(r) == KeySet(defaultParam) + KeySet(param)
      && UniqueKeys(r)
  {
    ExtendFresh(defaultParam);
    ExtendGet(defaultParam, param, k);
    GetLastUnique(param, k);
    ExtendShape(defaultParam, param);
  }

  /** `{a: 1}` over the defaults `{a: 2, b: 3}` gives `{a: 1, b: 3}`, with
      `a` kept in its default position. */
  lemma MergeDefaultsExample()
    ensures MergeDefaults(Some([Entry("a", Num(2)), Entry("b", Num(3))]), Some([Entry("a", Num(1))]))
      == [Entry("a", Num(1)), Entry("b", Num(3))]
  {
    var d := [Entry("a", Num(2)), Entry("b", Num(3))];
    assert d[..1] == [Entry("a", Num(2))];
    assert d[..1][..0] == [];
    ExtendFresh(d);
    assert [Entry("a", Num(1))][..0] == [];
  }

  /** `defineUploadApi(config, defaultParam)` called with `(data, param)`. */
  function DefinedUpload(config: ApiRequestConfig, defaultParam: Option<seq<Entry>>, data: Value, param: Option<seq<Entry>>): ApiRequestConfig
  {
    UploadConfig(config.(params := Some(MergeDefaults(defaultParam, param)), data := data))
  }

  /** `defineGetApi(config, defaultParam)` called with `(param)`. */
  function DefinedGet(config: ApiRequestConfig, defaultParam: Option<seq<Entry>>, param: Option<seq<Entry>>): ApiRequestConfig
  {
    GetConfig(config.(params := Some(MergeDefaults(defaultParam, param))))
  }

  /** `defineGetPageApi(config, defaultParam)` called with `(params, page, sort)`. */
  function DefinedGetPage(config: ApiRequestConfig, defaultParam: Option<seq<Entry>>, params: Option<seq<Entry>>,
                          page: Pageable, sort: Option<Sortable>): ApiRequestConfig
  {
    GetPageConfig(config.(params := Some(MergeDefaults(defaultParam, params))), page, sort)
  }

  /** `definePostApi(config, defaultParam)` called with `(data, param)`. */
  function DefinedPost(casing: Casing, config: ApiRequestConfig, defaultParam: Option<seq<Entry>>, data: Value,
                       param: Option<seq<Entry>>): ApiRequestConfig
  {
    PostConfig(casing, config.(params := Some(MergeDefaults(defaultParam, param)), data := data))
  }

  /** `definePostPageApi(config, defaultParam)` called with `(data, page, param, sort)`. */
  function DefinedPostPage(casing: Casing, config: ApiRequestConfig, defaultParam: Option<seq<Entry>>, data: Value,
                           page: Pageable, param: Option<seq<Entry>>, sort: Option<Sortable>): ApiRequestConfig
  {
    PostPageConfig(casing, config.(params := Some(MergeDefaults(defaultParam, param)), data := data), page, sort)
  }

  /** Every factory sends the merge of its defaults and the caller's params
      (with paging assigned over it for the page factories), and the data
      the caller passed. */
  lemma FactoriesMergeDefaults(casing: Casing, config: ApiRequestConfig, defaultParam: Option<seq<Entry>>, data: Value,
                               param: Option<seq<Entry>>, page: Pageable, sort: Option<Sortable>)
    ensures var merged := MergeDefaults(defaultParam, param);
      && DefinedUpload(config, defaultParam, data, param).params == Some(merged)
      && DefinedUpload(config, defaultParam, data, param).data == data
      && DefinedGet(config, defaultParam, param).params == Some(merged)
      && DefinedGetPage(config, defaultParam, param, page, sort).params == Some(PageParams(Some(merged), page, sort))
      && DefinedPost(casing, config, defaultParam, data, param).params == Some(merged)
      && DefinedPost(casing, config, defaultParam, data, param).data == PostBody(casing, data)
      && DefinedPostPage(casing, config, defaultParam, data, page, param, sort).params == Some(PageParams(Some(merged), page, sort))
  {
  }
}
