# dino-vue3-core API layer, modelled in Dafny

This project models the client-side API layer of `dino-vue3-core` and proves
properties of the model. It covers:

- **The interceptor manager** (`common/interceptor.ts`, module `Interceptor`).
  A class holds the ordered handler list and the id counter. `use` tags a
  handler and appends it. The canceller removes the first handler with its
  tag, `clear` empties the list, and `execute` runs the handlers in order,
  chained or unchained.
- **The key-casing transcoder and small utilities** (`utils/index.ts`,
  module `Utils`).
  - `toCamleObject` and `toSnakeObject` are one recursive walk over a
    JSON-like `Value`. Its top-level `for…in` loop is a method that fills
    an optional target.
  - `camelCase` and `snakeCase` are key-rename parameters.
  - `asArray` is modelled, and so is `useID` with its module counter.
- **The API configuration holder** (`api/config.ts`, module `Config`).
  `apiConfig` and `request` are the fields of a class. `setupApi` merges a
  partial configuration, later keys winning, and stores what `initer`
  builds. `useRequest` fails until a request is stored.
- **The axios interceptors** (`request/axios.ts` and its older duplicate
  `api/useAxios.ts`, module `AxiosInterceptors`).
  - The request interceptor is a method that edits a request configuration
    object in place. It form-encodes the body, replaces the first
    `{tenant}` with JavaScript's `String.prototype.replace` semantics
    (including `$` patterns), and sets the auth header.
  - The response interceptor is a pure function `Settle`. It takes the
    sequence of transport replies and the outcomes of the `autoLogin`
    calls. It returns how the request's promise settles, the messages
    shown, and how many requests and logins happened.
- **The request builders** (`api/basic.ts`, `api/crud.ts`, `api/tree.ts`;
  modules `Basic`, `Crud`, `Tree`). `request`, `upload`, `get`, `post`,
  `getPage`, `postPage` and the `define*Api` factories are modelled. So are
  the CRUD operations, with their URLs, dispatch and comma-joined ids, and
  the four tree operations.

JavaScript objects are ordered lists of entries (`JsValues`).

- A property read returns the first entry with the key.
- An assignment keeps an existing key's position and appends a new key.
- lodash `extend` assigns the source's entries one by one.

`upload(c)`, `get(c)` and the other `basic.ts` calls are each
`Request(casing, send, XConfig(c))`. Each `Basic.*Config` function builds the
configuration that the call hands to `request`.

The source and its own documentation disagree in two places; the model
follows the code.

- The `useID` doc example (`utils/index.ts:159-163`) shows `'1'` and then
  `'dino-2'`. The counter starts at 1 and is pre-incremented, so the code
  gives `'2'` and then `'dino-3'` (`Utils.FirstIds`).
- `autoLogin` is documented (`api/config.ts:46-49`) to resolve `true` after
  a successful login and `false` otherwise. The response interceptor
  (`request/axios.ts:62-64`) ignores that value and re-issues the request
  even after a login that reports failure
  (`AxiosInterceptors.FailedLoginReissues`). So a server that keeps asking
  for a login gets login and re-issue without end
  (`AxiosInterceptors.UnboundedReissue` with a login value of `false`).

## Model

| member | source | states |
|---|---|---|
| Interceptor.Handler.constructor | dino-vue3-core/src/common/interceptor.ts:66-68 | a handler starts with no `__id` (tag 0, never an id `use` hands out) |
| Interceptor.InterceptorManager.constructor | dino-vue3-core/src/common/interceptor.ts:57-59 | a new manager has an empty list, the id counter at 0, and the given chain mode |
| Interceptor.InterceptorManager.Use | dino-vue3-core/src/common/interceptor.ts:66-70 | the id is pre-incremented and returned, written onto the handler, and the handler is appended with every earlier entry kept in place; ids start at 1 and strictly increase |
| Interceptor.FindIndex | dino-vue3-core/src/common/interceptor.ts:72 | `findIndex`: -1 exactly when the tag is absent, otherwise the first position holding it |
| Interceptor.RemoveAt | dino-vue3-core/src/common/interceptor.ts:73-75 | `splice(index, 1)` on a found index removes that one element and keeps the others in order; -1 changes nothing |
| Interceptor.InterceptorManager.Cancel | dino-vue3-core/src/common/interceptor.ts:71-76 | the canceller removes the first handler tagged with its id, if any, and keeps the rest in relative order; the tags and the id counter stay consistent |
| Interceptor.RemoveAtMultiset | dino-vue3-core/src/common/interceptor.ts:74 | `splice(index, 1)` removes exactly one copy of the element at that index |
| Interceptor.RemoveFirstCount | dino-vue3-core/src/common/interceptor.ts:71-76 | a cancel removes exactly one entry with its tag when there is one, and nothing else |
| Interceptor.CancelAgainNothing | dino-vue3-core/src/common/interceptor.ts:71-76 | when the id tagged at most one entry, calling the canceller again removes nothing |
| Interceptor.InterceptorManager.CancelOnceListed | dino-vue3-core/src/common/interceptor.ts:71-76 | in a valid manager, a handler listed once is the only entry carrying its tag, so its canceller removes it and calling the canceller again removes nothing |
| Interceptor.RegisterSameTwice | dino-vue3-core/src/common/interceptor.ts:66-70 | the same handler registered twice is listed twice, and both entries carry the newer id |
| Interceptor.RegisterTwice | dino-vue3-core/src/common/interceptor.ts:67-74 | registering the same handler twice retags it: the older canceller removes nothing, and the newer one removes one copy per call |
| Interceptor.InterceptorManager.Clear | dino-vue3-core/src/common/interceptor.ts:82-84 | the list is left empty and the id counter is not reset |
| Interceptor.InterceptorManager.Fns | dino-vue3-core/src/common/interceptor.ts:90-92 | the handler functions in list order |
| Interceptor.InterceptorManager.Execute | dino-vue3-core/src/common/interceptor.ts:100-111 | the loop computes `Run` over the handlers in list order; with no handlers it returns its input unchanged |
| Interceptor.ChainedIsFold | dino-vue3-core/src/common/interceptor.ts:103-108 | in chained mode each handler receives the previous output, so the result is the left fold |
| Interceptor.FoldFirst | dino-vue3-core/src/common/interceptor.ts:103-108 | the fold runs the first handler first and stops at its rejection |
| Interceptor.UnchainedIsLast | dino-vue3-core/src/common/interceptor.ts:101-110 | in unchained mode every handler receives the original argument, and the result is the last handler's output (the input when there are none) |
| Interceptor.FirstRejectionWins | dino-vue3-core/src/common/interceptor.ts:103-104 | a handler that rejects stops the loop, and `execute` rejects with that rejection |
| Interceptor.ReceivedSpec | dino-vue3-core/src/common/interceptor.ts:103-108 | handlers run once each in list order; the first receives `arg`, and each later one receives the previous output (chained) or `arg` (unchained); only handlers before a rejection run; `execute` succeeds exactly when all of them ran and the last one succeeded |
| Interceptor.RegisterThree | dino-vue3-core/src/common/interceptor.ts:66-70 | three `use` calls list the handlers in registration order with ids 1, 2, 3 |
| Interceptor.CancelOneOfThree | dino-vue3-core/src/common/interceptor.ts:71-76 | registering three handlers, cancelling the second and executing runs exactly the first then the third |
| JsValues.Get | dino-vue3-core/src/utils/index.ts:34 | a property read finds a value exactly when the key is present |
| JsValues.Put | dino-vue3-core/src/utils/index.ts:36-38 | a property assignment `o[k] = v`; its behaviour is stated by `PutShape`, `PutPositions`, `PutKeySet` and `PutGet` |
| JsValues.PutShape | dino-vue3-core/src/utils/index.ts:36-38 | a property assignment overwrites an existing key in place or appends a new one; other entries are unchanged and the keys stay unique |
| JsValues.PutPositions | dino-vue3-core/src/utils/index.ts:36-38 | an assignment grows the object only for a new key, and then by one entry at the end |
| JsValues.PutKeySet | dino-vue3-core/src/utils/index.ts:36-38 | after an assignment the keys are the old keys plus the assigned one |
| JsValues.PutGet | dino-vue3-core/src/utils/index.ts:36-38 | reading back the assigned key gives the assigned value; other keys read as before |
| JsValues.KeySetConcat | dino-vue3-core/src/utils/index.ts:33 | the keys of two concatenated entry lists are the union of their keys |
| JsValues.Extend | dino-vue3-core/src/api/basic.ts:98 | lodash `extend(target, src)`, assigning the source entries in order; its behaviour is stated by `ExtendShape`, `ExtendPositions`, `ExtendKeySet`, `ExtendGet` and `ExtendFresh` |
| JsValues.ExtendShape | dino-vue3-core/src/api/basic.ts:98 | lodash `extend` keeps the target's keys in place, adds the source's keys, and preserves unique keys |
| JsValues.ExtendPositions | dino-vue3-core/src/api/basic.ts:98 | `extend` never shortens the target and keeps each of its keys at its position |
| JsValues.ExtendKeySet | dino-vue3-core/src/api/basic.ts:98 | the keys after `extend` are the target's and the source's |
| JsValues.ExtendGet | dino-vue3-core/src/api/basic.ts:98 | after `extend` a key reads as the source's last value for it, or else as in the target (right-biased) |
| JsValues.GetLastUnique | dino-vue3-core/src/api/basic.ts:129 | in an object with unique keys, the last and the first entry for a key agree |
| JsValues.GetOfPrefix | dino-vue3-core/src/utils/index.ts:33-39 | reading an object is reading its prefix unless the key first appears in the last entry |
| JsValues.ExtendFresh | dino-vue3-core/src/api/basic.ts:129 | `extend({}, src)` copies an object with unique keys exactly |
| Utils.Transcode | dino-vue3-core/src/utils/index.ts:24-43 | the recursive walk into fresh objects; stated by `TranscodeInto` (which it is when no target is given), `TranscodeRoundTrip` and the `Transcode*` lemmas |
| Utils.TranscodeInto | dino-vue3-core/src/utils/index.ts:24-43 | nil, strings, numbers, RegExps, Dates and functions pass through unchanged; arrays are mapped element-wise with length and order kept and no target; booleans fall into the object branch and give the target or an empty object; without a target the result is the recursive transcoding |
| Utils.TranscodeObject | dino-vue3-core/src/utils/index.ts:31-42 | the `for…in` loop that fills the target (or a fresh object) entry by entry computes `TranscodeInto` |
| Utils.ToCamelObject | dino-vue3-core/src/utils/index.ts:24-43 | `toCamleObject` is the walk with `camelCase` as the key function |
| Utils.ToSnakeObject | dino-vue3-core/src/utils/index.ts:63-82 | `toSnakeObject` is the walk with `snakeCase` as the key function |
| Utils.WritesKeys | dino-vue3-core/src/utils/index.ts:35-38 | the keys written are the source keys, with `@`-prefixed keys verbatim and all others renamed |
| Utils.TranscodeKeepsTarget | dino-vue3-core/src/utils/index.ts:31-42 | a supplied target keeps its entries in place and gains the renamed keys; `@` keys are copied verbatim |
| Utils.TranscodeLaterWins | dino-vue3-core/src/utils/index.ts:33-39 | when two source keys rename to the same key, the later one's transcoded value is the one left |
| Utils.TranscodeOtherKeys | dino-vue3-core/src/utils/index.ts:31-42 | the target's keys that no source key renames to are left as they were |
| Utils.GetLastAt | dino-vue3-core/src/utils/index.ts:33-39 | the last entry for a key is the one no later entry shares its key with |
| Utils.GetLastAbsent | dino-vue3-core/src/utils/index.ts:33-39 | a key that is absent has no last entry |
| Utils.TranscodeRoundTrip | dino-vue3-core/src/utils/index.ts:24-82 | camel-casing a snake-cased value gives the value back, whenever its objects have unique keys, the two key functions invert each other on its keys, and it holds no booleans |
| Utils.AsArray | dino-vue3-core/src/utils/index.ts:96-104 | nil gives `[]`, an array is returned as it is, and any other value becomes a one-element array |
| Utils.AsArrayContains | dino-vue3-core/src/utils/index.ts:96-104 | membership in the normalised list is membership in the array, or equality with the single value |
| Utils.Decimal | dino-vue3-core/src/utils/index.ts:166 | a number becomes a non-empty string of decimal digits |
| Utils.DecimalRoundTrip | dino-vue3-core/src/utils/index.ts:166 | the decimal text of a number parses back to that number |
| Utils.IdStringsDistinct | dino-vue3-core/src/utils/index.ts:165-167 | two different counter values give two different ids under the same prefix |
| Utils.IdCounter.constructor | dino-vue3-core/src/utils/index.ts:151 | the counter starts at 1 |
| Utils.IdCounter.UseID | dino-vue3-core/src/utils/index.ts:165-167 | the counter is pre-incremented, and the id is the prefix (or nothing) followed by its new value |
| Utils.FirstIds | dino-vue3-core/src/utils/index.ts:151-167 | the first two calls give `'2'` and `'dino-3'` |
| Config.Merge | dino-vue3-core/src/api/config.ts:84-86 | `extend(apiConfig, config)`; stated by `MergeSupplied`, `MergeNothing`, `MergeAccumulates` and `MergeIdempotent` |
| Config.MergeNothing | dino-vue3-core/src/api/config.ts:84-86 | a partial configuration with no keys changes nothing |
| Config.MergeSupplied | dino-vue3-core/src/api/config.ts:84-86 | for each of the ten keys, a supplied key replaces the current value and an absent key keeps it; a partial configuration supplying every key replaces the configuration |
| Config.MergeAccumulates | dino-vue3-core/src/api/config.ts:77-86 | successive merges accumulate: merging `p` then `q` is merging their combination, with `q`'s keys winning |
| Config.MergeIdempotent | dino-vue3-core/src/api/config.ts:84-86 | merging the same partial configuration twice is merging it once |
| Config.ApiState.constructor | dino-vue3-core/src/api/config.ts:67-78 | the module starts from a copy of the defaults (timeout 60000, success code 0, needs-login code [630], default hooks), with no request |
| Config.ApiState.SetupApi | dino-vue3-core/src/api/config.ts:83-89 | with a partial configuration `apiConfig` becomes the merge, and without one it is unchanged; `request` is what `initer` builds from the new `apiConfig` |
| Config.ApiState.UseRequest | dino-vue3-core/src/api/config.ts:91-96 | fails with the setup message exactly when no request is stored, and otherwise returns the stored request |
| Config.UseBeforeAndAfterSetup | dino-vue3-core/src/api/config.ts:77-96 | on a fresh module `useRequest` fails; after one `setupApi` it returns what `initer` built from the merged defaults |
| Config.SetupTwice | dino-vue3-core/src/api/config.ts:83-89 | a second `setupApi` sees both partial configurations merged in order, and one without a configuration keeps the merge |
| AxiosInterceptors.HookResult | dino-vue3-core/src/request/axios.ts:34-41 | calling the default `tenant` or `authToken` hook gives nothing (null), and calling a supplied one gives what it returns |
| AxiosInterceptors.FirstOccurrence | dino-vue3-core/src/request/axios.ts:37 | the position found is an occurrence of the pattern, and no earlier position is one |
| AxiosInterceptors.ReplaceFirst | dino-vue3-core/src/request/axios.ts:37 | `url.replace('{tenant}', id)` with a string pattern; stated by `ReplaceAbsent`, `ReplaceLiteral` and `DollarPatternsInTenantId` |
| AxiosInterceptors.ExpandLiteral | dino-vue3-core/src/request/axios.ts:37 | a replacement without `$` is inserted literally |
| AxiosInterceptors.ReplaceAbsent | dino-vue3-core/src/request/axios.ts:37 | `replace` leaves a URL without `{tenant}` unchanged |
| AxiosInterceptors.ReplaceLiteral | dino-vue3-core/src/api/useAxios.ts:41 | only the first `{tenant}` is replaced, and everything before and after it is kept, later occurrences included |
| AxiosInterceptors.DollarPatternsInTenantId | dino-vue3-core/src/request/axios.ts:37 | a tenant id goes through `$` pattern expansion: `$&` puts the placeholder back and `$$` becomes `$` |
| AxiosInterceptors.NeedsFormEncoding | dino-vue3-core/src/request/axios.ts:30 | true exactly when the method is `'post'` and the Content-Type header is the urlencoded form type; used by the data clause of `InterceptRequest` |
| AxiosInterceptors.TenantUrl | dino-vue3-core/src/request/axios.ts:34-38 | with no tenant, or no placeholder in the URL, the URL is unchanged |
| AxiosInterceptors.AuthHeaders | dino-vue3-core/src/request/axios.ts:40-43 | a token sets its header name to its payload, overwriting any value; every other header is kept |
| AxiosInterceptors.InterceptRequest | dino-vue3-core/src/request/axios.ts:29-44 | the body is form-encoded only for method exactly `'post'` with the exact urlencoded Content-Type; the URL gets the tenant step, the headers get the auth step, and the method and `baseURL` are untouched |
| AxiosInterceptors.InterceptWithDefaults | dino-vue3-core/src/api/useAxios.ts:33-48 | under the defaults the interceptor leaves a GET's URL, headers and body unchanged |
| AxiosInterceptors.IndexOf | dino-vue3-core/src/request/axios.ts:58-60 | `indexOf` is -1 exactly when the code is absent, and otherwise a position holding it |
| AxiosInterceptors.Classify | dino-vue3-core/src/api/useAxios.ts:62-76 | success exactly when the code is in the success list (checked first); needs-login exactly when it is in the needs-login list and not the success list; failure otherwise |
| AxiosInterceptors.VerdictFor | dino-vue3-core/src/request/axios.ts:24-25 | `Classify` over the two code lists normalised by `asArray`; stated by `DefaultVerdicts` and through `Classify` |
| AxiosInterceptors.DefaultVerdicts | dino-vue3-core/src/request/axios.ts:24-25 | with both code lists normalised by `asArray`, the defaults make 0 succeed, 630 need a login, and every other code fail |
| AxiosInterceptors.Settle | dino-vue3-core/src/request/axios.ts:55-79 | a request never uses more replies than the transport gives, and it resolves with an envelope only when that envelope's code is a success code |
| AxiosInterceptors.FirstReplySettles | dino-vue3-core/src/request/axios.ts:55-79 | for every configuration: a success code resolves with the envelope and shows nothing; any other code outside the needs-login list shows `msg` and rejects with the envelope; a transport error shows the network message and rejects with the error |
| AxiosInterceptors.NeedsLoginSettles | dino-vue3-core/src/request/axios.ts:60-68 | on a needs-login reply: the default `autoLogin` is caught and its message shown; a supplied one that rejects has its reason's message shown; one that resolves re-issues the request, which settles as the remaining replies do, a rejection of it being caught and its message shown |
| AxiosInterceptors.DefaultLoginSwallowed | dino-vue3-core/src/request/axios.ts:60-68 | with the default `autoLogin`, a needs-login reply shows the not-implemented message and resolves with undefined after one request |
| AxiosInterceptors.UnboundedReissue | dino-vue3-core/src/api/useAxios.ts:64-69 | any number of needs-login replies, each followed by a resolved login, end in the envelope of the first success reply; no retry bound applies |
| AxiosInterceptors.FailedLoginReissues | dino-vue3-core/src/request/axios.ts:60-64 | a login that resolves `false` (documented as a failed login) still re-issues the request, and a success reply to the re-issue resolves the request with that envelope after two requests and one login |
| AxiosInterceptors.ReissueNeverRejects | dino-vue3-core/src/request/axios.ts:60-68 | after a needs-login reply the request never rejects: login and re-issue failures are caught |
| AxiosInterceptors.RejectionIsFirstReply | dino-vue3-core/src/api/useAxios.ts:73-83 | a rejection comes from the first reply alone: a refused envelope with its `msg` shown, or a transport error with the network message shown |
| AxiosInterceptors.ReissueFailureMessages | dino-vue3-core/src/request/axios.ts:63-68 | a re-issue that is refused shows the envelope's `msg` and then `reason.message` (undefined); a re-issue that meets a transport error shows the network message and then the error's message; both resolve with undefined |
| Basic.Headers | dino-vue3-core/src/api/basic.ts:29-32 | Content-Type defaults to `contentType` or else `application/json`; the caller's headers are spread after it and win, including their own Content-Type |
| Basic.SnakeParams | dino-vue3-core/src/api/basic.ts:37 | no params stay absent; params become an object whose keys are the snake-cased keys |
| Basic.BuildRequest | dino-vue3-core/src/api/basic.ts:34-40 | the method defaults to `'get'`, params are snake-cased, and data, service and URL pass unchanged |
| Basic.Request | dino-vue3-core/src/api/basic.ts:26-48 | a rejected service call rejects with the same reason; an `undefined` reply throws at `res.status`; a status other than 200 throws `Error(statusText)`; otherwise the result is the camel-cased response data |
| Basic.EchoRoundTrip | dino-vue3-core/src/api/basic.ts:37-47 | a server that echoes the snake-cased data with status 200 gives the caller its data back |
| Basic.BuildersShape | dino-vue3-core/src/api/basic.ts:55-114 | `upload` defaults the method to `'post'` and forces multipart; `get`/`getPage` force `'get'`; `post`/`postPage` force `'post'` and send `{body: toSnakeObject(data)}`; `postPage` sends the paged params snake-cased |
| Basic.UploadConfig | dino-vue3-core/src/api/basic.ts:55-61 | `upload`'s configuration; stated by `BuildersShape` and `UploadContentType` |
| Basic.GetConfig | dino-vue3-core/src/api/basic.ts:68-73 | `get`'s configuration; stated by `BuildersShape` |
| Basic.PostConfig | dino-vue3-core/src/api/basic.ts:80-86 | `post`'s configuration; stated by `BuildersShape` |
| Basic.GetPageConfig | dino-vue3-core/src/api/basic.ts:94-100 | `getPage`'s configuration; stated by `BuildersShape` and `PageParamsGet` |
| Basic.PostPageConfig | dino-vue3-core/src/api/basic.ts:107-114 | `postPage`'s configuration; stated by `BuildersShape` and `PageParamsGet` |
| Basic.UploadContentType | dino-vue3-core/src/api/basic.ts:55-61 | an upload's Content-Type is multipart unless the caller's headers set their own |
| Basic.PageParams | dino-vue3-core/src/api/basic.ts:98 | `extend(config.params, config.page, config.sort)`, copying every property of the page and sort objects; stated by `PageParamsGet`, `PageParamsKeys` and `PageResponseSent` |
| Basic.PageParamsGet | dino-vue3-core/src/api/basic.ts:94-114 | a key of the sort object reads the sort's value; else a key of the page object (`pn`, `pl` or any other it carries) reads the page's value; every other key reads as in the caller's params |
| Basic.PageParamsKeys | dino-vue3-core/src/api/basic.ts:94-114 | the paging params hold the caller's keys at their positions, and their keys are those of the params, the page and the sort together |
| Basic.PageResponseSent | dino-vue3-core/src/api/basic.ts:94-100 | a page object carrying `total` besides `pn` and `pl`, such as a previous page response, sends all three as params, in its own order |
| Basic.MergeDefaults | dino-vue3-core/src/api/basic.ts:129 | `extend({}, defaultParam, param)`; stated by `MergeDefaultsSpec` and `MergeDefaultsExample` |
| Basic.MergeDefaultsSpec | dino-vue3-core/src/api/basic.ts:124-131 | `extend({}, defaultParam, param)`: the caller's value wins on a clash, the defaults fill the gaps, and the keys are both sets |
| Basic.MergeDefaultsExample | dino-vue3-core/src/api/basic.ts:129 | `{a: 1}` over the defaults `{a: 2, b: 3}` gives `{a: 1, b: 3}` |
| Basic.DefinedUpload | dino-vue3-core/src/api/basic.ts:124-131 | `defineUploadApi`'s call; stated by `FactoriesMergeDefaults` |
| Basic.DefinedGet | dino-vue3-core/src/api/basic.ts:142-149 | `defineGetApi`'s call; stated by `FactoriesMergeDefaults` |
| Basic.DefinedGetPage | dino-vue3-core/src/api/basic.ts:159-166 | `defineGetPageApi`'s call; stated by `FactoriesMergeDefaults` |
| Basic.DefinedPost | dino-vue3-core/src/api/basic.ts:177-184 | `definePostApi`'s call; stated by `FactoriesMergeDefaults` |
| Basic.DefinedPostPage | dino-vue3-core/src/api/basic.ts:195-202 | `definePostPageApi`'s call; stated by `FactoriesMergeDefaults` |
| Basic.FactoriesMergeDefaults | dino-vue3-core/src/api/basic.ts:124-202 | every `define*Api` factory sends the merged defaults as its params, paged ones with the page and sort merged after them; post factories wrap the data |
| Crud.Url | dino-vue3-core/src/api/crud.ts:87 | the URL is the path (or nothing), `/`, and the configured segment when non-empty, or else the default segment |
| Crud.Join | dino-vue3-core/src/api/crud.ts:111 | lodash `join(ids, ',')` for a list of ids; stated by `JoinSplit` and `JoinAmbiguous` |
| Crud.Split | dino-vue3-core/src/api/crud.ts:111 | no source counterpart: the reference inverse of `Join` (split at commas) that `JoinSplit` uses; it always gives at least one piece |
| Crud.SplitPlain | dino-vue3-core/src/api/crud.ts:111 | no source counterpart: a step of the `JoinSplit` proof; text without a comma splits into itself |
| Crud.SplitAfter | dino-vue3-core/src/api/crud.ts:111 | no source counterpart: a step of the `JoinSplit` proof; splitting `a,rest` gives `a` and then the pieces of `rest` |
| Crud.JoinSplit | dino-vue3-core/src/api/crud.ts:111-117 | comma-joined ids split back into the same list, when the list is not empty and no id holds a comma |
| Crud.JoinAmbiguous | dino-vue3-core/src/api/crud.ts:117 | no ids and one empty id join to the same text |
| Crud.GetOne | dino-vue3-core/src/api/crud.ts:84-88 | `getOne`; stated by `Dispatch`, `DefaultUrls` and `KeyedParams` |
| Crud.ListPage | dino-vue3-core/src/api/crud.ts:90-94 | `listPage`; stated by `Dispatch`, `DefaultUrls` and `CopiedParams` |
| Crud.AddOne | dino-vue3-core/src/api/crud.ts:96-100 | `addOne`; stated by `Dispatch`, `DefaultUrls` and `CopiedParams` |
| Crud.UpdateOne | dino-vue3-core/src/api/crud.ts:102-106 | `updateOne`; stated by `Dispatch`, `DefaultUrls` and `KeyedParams` |
| Crud.ChangeStatus | dino-vue3-core/src/api/crud.ts:108-112 | `changeStatus`; stated by `Dispatch`, `DefaultUrls` and `StatusParams` |
| Crud.Delete | dino-vue3-core/src/api/crud.ts:114-118 | `delete`; stated by `Dispatch`, `DefaultUrls` and `KeyedParams` |
| Crud.Dispatch | dino-vue3-core/src/api/crud.ts:84-118 | a function-valued entry is the operation itself; otherwise `getOne` and `delete` are GETs, `addOne`, `updateOne` and `changeStatus` are POSTs, and `listPage` is a paged POST, each of its URL; `changeStatus` sends no data |
| Crud.DefaultUrls | dino-vue3-core/src/api/crud.ts:87-117 | with no segments configured the six URLs are path plus `/id`, `/list`, `/add`, `/update`, `/status`, `/delete`, and they are pairwise different |
| Crud.OneOverDefaults | dino-vue3-core/src/api/crud.ts:87 | one entry merged over the defaults reads back as its value, and every other key as in the defaults |
| Crud.KeyedParams | dino-vue3-core/src/api/crud.ts:87-117 | `getOne` and `updateOne` read `id` back as their argument and `delete` reads the comma-joined ids; every other key reads as in the defaults |
| Crud.StatusParams | dino-vue3-core/src/api/crud.ts:111 | `changeStatus` reads back the joined ids and the status; every other key reads as in the defaults |
| Crud.CopiedParams | dino-vue3-core/src/api/crud.ts:93-99 | `listPage` and `addOne` send a copy of the default params |
| Tree.GetTree | dino-vue3-core/src/api/tree.ts:46-48 | `getTree`; stated by `TreeReads` |
| Tree.GetPickerTree | dino-vue3-core/src/api/tree.ts:50-52 | `getPickerTree`; stated by `TreeReads` |
| Tree.GetSearch | dino-vue3-core/src/api/tree.ts:54-56 | `getSearch`; stated by `TreeQueries` |
| Tree.GetOptions | dino-vue3-core/src/api/tree.ts:58-60 | `getOptions`; stated by `TreeQueries` |
| Tree.TreeReads | dino-vue3-core/src/api/tree.ts:46-52 | `getTree` and `getPickerTree` are GETs of `path/tree` and `path/picker-tree` to the given service, whose params are exactly `{parentId}` |
| Tree.TreeQueries | dino-vue3-core/src/api/tree.ts:54-60 | `getSearch` and `getOptions` are paged POSTs of `path/search` and `path/options` to the given service with no sort; the params are the page object copied into a fresh object, so exactly the page (all its properties, in its order) when its keys are distinct; the body wraps the snake-cased data |

## Left out

- Axios and the transport are not modelled. This covers `axios.create`, the registration of the interceptors with axios, the wx and uni adapters, the HTTP call and the `useApi(service)` lookup. The call that sends a request is a function parameter (`send`). The replies to a request and to its re-issues are an input sequence (`Settle`).
- Promises and scheduling are not modelled. Each asynchronous chain is a sequential computation returning a result. A handler added or removed during a running `execute` is not modelled.
- `getHandlers` returns the live list itself, so the caller can mutate it. The model only returns the handler functions (`Fns`), so that aliasing is not captured.
- `awaitGet` and `isPromise` in `utils/index.ts` are not modelled. They are promise duck-typing, with no sequential behaviour to state.
- `camelCase`, `snakeCase`, `qs.stringify`, lodash `isEmpty` and lodash `join` are other libraries' code. The case converters and `stringify` are parameters.
  - A tenant for which `isEmpty` holds (null, or `{}`) is `None`.
  - `join` is modelled for a list of string ids. A bare-string id argument gets lodash's own behaviour, which is not modelled.
- The message sink (`useMessage().error`) is the list of messages `Settle` returns. This assumes `setupMessage` has run. Otherwise `useMessage()` throws at `message/index.ts:33-35`. A refused envelope or a transport error then rejects with that Error instead of the envelope or the transport error. The catch after a failed login or a failed re-issue throws it again, so the request rejects. Each settlement lemma admits this below.
- A numeric property key that JavaScript would enumerate first is not modelled. Objects are enumerated in insertion order.
- An own property explicitly set to `undefined` is treated as an absent key, in partial configurations and elsewhere.
- Numbers are unbounded integers. Floating point and `NaN` are not modelled.
- Only the fields of a configuration the code reads are modelled. The `...onProgress` and other spread fields of `ApiRequestConfig` are left out, as are `ProxyConfig`'s auth and protocol.
- A configuration lacking a hook (calling it throws a TypeError) is not modelled. The defaults always supply all three hooks.
- `getPage` and `postPage` extend the caller's own params object in place. The model returns the extended params as a value, so a caller holding that object does not see the change. Likewise, an `initer` that keeps a reference to `apiConfig` does not see later merges.
- A re-issued request passes through the request interceptor again, so a form body would be stringified a second time. Only the reply to the re-issue is modelled, not its outgoing configuration.
- The request-error handler at `request/axios.ts:46-50` is not modelled. It only logs, and it discards its own rejection.
- `basic.ts` calls `useApi`, which is not in the `config.ts` shown. That `config.ts` offers `useRequest`; the lookup is the abstract `send` parameter.
- The `basic.ts` response is typed with a `status` field that the axios envelope lacks. `Request` checks the status of the response `send` returns.
- Type-only files are not part of this model (`api/types.ts`, `common/index.ts`, `auth/types.ts`), except for the shapes of the envelope, `Tenant` and `AuthToken`. `Pageable` and `Sortable` are plain objects, because lodash `extend` copies whatever properties they carry. Neither are `auth/api.ts`, `api/wallet.ts`, `src/index.ts` or the build configuration.
- AxiosInterceptors.TenantUrl: its own contract covers only the unchanged cases. The replacement itself is stated by `ReplaceLiteral` and `DollarPatternsInTenantId`.
- AxiosInterceptors.Settle: its own contract states only bounds and the success condition. The settlement itself is stated by `FirstReplySettles` (the first reply: success, error code, transport error), `NeedsLoginSettles` (a needs-login reply, for each kind of `autoLogin`), `UnboundedReissue`, `ReissueNeverRejects`, `RejectionIsFirstReply` and `ReissueFailureMessages`.
- AxiosInterceptors.ReissueNeverRejects: assumes every rejection has a readable `message`. A supplied `autoLogin` that rejects with `null` or `undefined` makes the catch at `request/axios.ts:66-67` throw, so the request rejects. A reply whose `response.data` is `null` makes `request/axios.ts:58` throw. Neither a `LoginResult` nor a `Delivered` reply can express these, so the model does not capture them. It also assumes a message sink has been set up (`message/index.ts:33-35`). With none, the catch throws the Error `useMessage()` throws, and the request rejects.
- AxiosInterceptors.FirstReplySettles: assumes a message sink has been set up (`message/index.ts:33-35`). With no sink, a refused code or a transport error rejects with the Error `useMessage()` throws, not with `Refused(env)` or `Unreachable(m)`, and no message is shown.
- AxiosInterceptors.NeedsLoginSettles: assumes a message sink has been set up (`message/index.ts:33-35`). With no sink, a login failure or a failed re-issue is not swallowed. The catch throws the Error `useMessage()` throws, and the request rejects.
- AxiosInterceptors.DefaultLoginSwallowed: assumes a message sink has been set up (`message/index.ts:33-35`). With no sink, the catch of the default login's rejection throws, and the request rejects instead of resolving with `undefined`.
- AxiosInterceptors.RejectionIsFirstReply: assumes a message sink has been set up (`message/index.ts:33-35`). With no sink, the rejection reason is the Error `useMessage()` throws, and a needs-login reply can also end in a rejection.
- AxiosInterceptors.ReissueFailureMessages: assumes a message sink has been set up (`message/index.ts:33-35`). With no sink, no message is shown and the failed re-issue makes the request reject.
- Interceptor.InterceptorManager.Valid: requires handler tags to be unique within one manager, so one handler object registered with two managers is not modelled. In the source the second `use` re-tags the shared object, and the first manager's canceller can then remove a different handler.
- Utils.TranscodeObject: the source fills the caller's own target object and returns that same object. The model returns a new value, so a caller holding the target does not see it change.
