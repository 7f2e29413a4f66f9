/** The request and response interceptors that `request/axios.ts`
    (`axiosWithAdapter`) and its older twin `api/useAxios.ts` (`useAxios`)
    register on the axios instance built from an `ApiConfig`.

    The request side edits the outgoing request configuration in place:
    it form-encodes the body, puts the tenant id into the URL and sets the
    auth header. The response side classifies the envelope `code`: success,
    needs login (auto-login, then re-issue), or failure. Axios itself, the
    transport and the message sink are outside the model: a transport reply
    and an auto-login outcome are inputs, and the messages shown are
    returned as a list. */
module AxiosInterceptors {
  import opened Wrappers
  import opened JsValues
  import opened Utils
  import opened Config

  /** `Tenant`: the tenant the `tenant` hook reports. */
  datatype Tenant = Tenant(id: string, name: string, logo: string)

  /** `AuthToken`: the credential the `authToken` hook reports. */
  datatype AuthToken = AuthToken(refreshToken: string, expiresIn: int, authHeaderName: string, authPayload: string)

  const PostMethod: string := "post"
  const FormContentType: string := "application/x-www-form-urlencoded"
  const TenantPlaceholder: string := "{tenant}"

  /** The message shown for a transport error. */
  const NetworkErrorMessage: string := "网络错误，请检查网络连接是否正常！"

  // ---------------------------------------------------------------------
  // Calling the configured hooks

  /** What calling a `tenant` or `authToken` hook gives: the default hook
      returns null, and the application's function returns `returned`
      (`None` for null, a falsy token, or a tenant for which `isEmpty`
      holds). */
  function HookResult<T>(h: Hook, returned: Option<T>): (r: Option<T>)
    ensures h.DefaultHook? ==> r.None?
    ensures h.UserHook? ==> r == returned
  {
    match h
    case DefaultHook => None
    case UserHook(_) => returned
  }

  // ---------------------------------------------------------------------
  // `String.prototype.replace` with a string pattern

  /** `pat` occurs in `s` at position `i`. */
  predicate OccursAt(s: string, pat: string, i: int)
  {
    0 <= i && i + |pat| <= |s| && s[i..i + |pat|] == pat
  }

  /** The first position at or after `from` where `pat` occurs, or -1. */
  function FirstOccurrence(s: string, pat: string, from: nat): (r: int)
    ensures r == -1 || (from <= r && OccursAt(s, pat, r))
    ensures forall i :: from <= i && (r == -1 || i < r) ==> !OccursAt(s, pat, i)
    decreases |s| - from
  {
    if from + |pat| > |s| then -1
    else if s[from..from + |pat|] == pat then from
    else FirstOccurrence(s, pat, from + 1)
  }

  /** The replacement string with its `$` patterns expanded, for a string
      pattern (no capture groups): `$$` is `$`, `$&` the matched text,
      `` $` `` the text before the match and `$'` the text after it; any other
      `$` stays as it is. */
  function Expand(rep: string, matched: string, before: string, after: string): string
    decreases |rep|
  {
    if rep == [] then []
    else if rep[0] == '$' && |rep| >= 2 && rep[1] == '$' then "$" + Expand(rep[2..], matched, before, after)
    else if rep[0] == '$' && |rep| >= 2 && rep[1] == '&' then matched + Expand(rep[2..], matched, before, after)
    else if rep[0] == '$' && |rep| >= 2 && rep[1] == '`' then before + Expand(rep[2..], matched, before, after)
    else if rep[0] == '$' && |rep| >= 2 && rep[1] == '\'' then after + Expand(rep[2..], matched, before, after)
    else [rep[0]] + Expand(rep[1..], matched, before, after)
  }

  /** A replacement without `$` is inserted literally. */
  lemma {:induction false} ExpandLiteral(rep: string, matched: string, before: string, after: string)
    requires '$' !in rep
    ensures Expand(rep, matched, before, after) == rep
    decreases |rep|
  {
    if rep != [] {
      assert rep[0] != '$';
      assert '$' !in rep[1..] by {
        forall k | 0 <= k < |rep[1..]| ensures rep[1..][k] != '$' {
          assert rep[1..][k] == rep[k + 1];
        }
      }
      ExpandLiteral(rep[1..], matched, before, after);
      assert rep == [rep[0]] + rep[1..];
    }
  }

  /** `s.replace(pat, rep)`: only the first occurrence is replaced. */
  function ReplaceFirst(s: string, pat: string, rep: string): string
  {
    var i := FirstOccurrence(s, pat, 0);
    if i == -1 then s
    else s[..i] + Expand(rep, pat, s[..i], s[i + |pat|..]) + s[i + |pat|..]
  }

  /** The replacement leaves a string without the pattern alone. */
  lemma ReplaceAbsent(s: string, pat: string, rep: string)
    requires forall i :: !OccursAt(s, pat, i)
    ensures ReplaceFirst(s, pat, rep) == s
  {
  }

  /** When the pattern occurs (at `i`, say), a `$`-free replacement is
      spliced in at the first occurrence, which is at or before `i`, and
      everything before and after it is kept, later occurrences included. */
  lemma {:induction false} ReplaceLiteral(s: string, pat: string, rep: string, i: int)
    requires '$' !in rep && OccursAt(s, pat, i)
    ensures var first := FirstOccurrence(s, pat, 0);
      && 0 <= first <= i && OccursAt(s, pat, first)
      && (forall j :: 0 <= j < first ==> !OccursAt(s, pat, j))
      && ReplaceFirst(s, pat, rep) == s[..first] + rep + s[first + |pat|..]
  {
    var first := FirstOccurrence(s, pat, 0);
    assert first != -1;
    ExpandLiteral(rep, pat, s[..first], s[first + |pat|..]);
  }

  /** A tenant id is a replacement string, not literal text: `$&` in it
      puts the placeholder back, and `$$` becomes a single `$`. */
  lemma DollarPatternsInTenantId()
    ensures ReplaceFirst("/{tenant}/x", TenantPlaceholder, "a$&") == "/a{tenant}/x"
    ensures ReplaceFirst("/{tenant}/x", TenantPlaceholder, "a$$b") == "/a$b/x"
  {
    assert OccursAt("/{tenant}/x", TenantPlaceholder, 1);
    assert !OccursAt("/{tenant}/x", TenantPlaceholder, 0) by {
      assert "/{tenant}/x"[0..8][0] == '/' != TenantPlaceholder[0];
    }
    assert FirstOccurrence("/{tenant}/x", TenantPlaceholder, 0) == 1;
  }

  // ---------------------------------------------------------------------
  // The request interceptor

  /** The request configuration axios hands to the request interceptor (the
      fields the interceptor reads or writes). */
  class RequestConf {
    var httpMethod: Option<string>
    var url: string
    var baseURL: string
    var headers: map<string, string>
    var data: Value

    constructor (httpMethod: Option<string>, url: string, baseURL: string, headers: map<string, string>, data: Value)
      ensures this.httpMethod == httpMethod && this.url == url && this.baseURL == baseURL
      ensures this.headers == headers && this.data == data
    {
      this.httpMethod := httpMethod;
      this.url := url;
      this.baseURL := baseURL;
      this.headers := headers;
      this.data := data;
    }
  }

  /** The body is form-encoded exactly when the method is `'post'` and the
      Content-Type header is the urlencoded form type, both compared as
      exact strings. */
  predicate NeedsFormEncoding(httpMethod: Option<string>, headers: map<string, string>)
  {
    httpMethod == Some(PostMethod) && ContentTypeHeader in headers && headers[ContentTypeHeader] == FormContentType
  }

  /** The URL after the tenant step: the first placeholder replaced by the
      tenant id when there is a tenant, unchanged otherwise. */
  function TenantUrl(url: string, tenant: Option<Tenant>): (r: string)
    ensures tenant.None? ==> r == url
    ensures (forall i :: !OccursAt(url, TenantPlaceholder, i)) ==> r == url
  {
    if tenant.Some? then ReplaceFirst(url, TenantPlaceholder, tenant.value.id) else url
  }

  /** The headers after the auth step: with a token, its header name is set
      to its payload, overwriting any value; every other header is kept. */
  function AuthHeaders(headers: map<string, string>, token: Option<AuthToken>): (r: map<string, string>)
    ensures token.None? ==> r == headers
    ensures token.Some? ==> token.value.authHeaderName in r && r[token.value.authHeaderName] == token.value.authPayload
    ensures forall h :: h in headers ==> h in r
    ensures forall h :: h in r && (token.None? || h != token.value.authHeaderName) ==> h in headers && r[h] == headers[h]
  {
    if token.Some? then headers[token.value.authHeaderName := token.value.authPayload] else headers
  }

  /** The request interceptor (axios.ts lines 29-44, useAxios.ts lines
      33-48). `stringify` is `qs.stringify`; `returnedTenant` and
      `returnedToken` are what the application's `tenant` and `authToken`
      functions return when the configuration holds its own. The method,
      `baseURL` and every other header are left as they were. */
  method InterceptRequest(config: ApiConfig, conf: RequestConf, stringify: Value -> string,
                          returnedTenant: Option<Tenant>, returnedToken: Option<AuthToken>)
    modifies conf
    ensures conf.data == if NeedsFormEncoding(old(conf.httpMethod), old(conf.headers)) then Str(stringify(old(conf.data))) else old(conf.data)
    ensures conf.url == TenantUrl(old(conf.url), HookResult(config.tenant, returnedTenant))
    ensures conf.headers == AuthHeaders(old(conf.headers), HookResult(config.authToken, returnedToken))
    ensures conf.httpMethod == old(conf.httpMethod) && conf.baseURL == old(conf.baseURL)
  {
    if conf.httpMethod == Some(PostMethod) && ContentTypeHeader in conf.headers && conf.headers[ContentTypeHeader] == FormContentType {
      conf.data := Str(stringify(conf.data));
    }
    var tenant := HookResult(config.tenant, returnedTenant);
    if tenant.Some? {
      conf.url := ReplaceFirst(conf.url, TenantPlaceholder, tenant.value.id);
    }
    var token := HookResult(config.authToken, returnedToken);
    if token.Some? {
      conf.headers := conf.headers[token.value.authHeaderName := token.value.authPayload];
    }
  }

  /** With the default configuration the request interceptor touches only a
      form-posted body: the default hooks report no tenant and no token. */
  method InterceptWithDefaults(stringify: Value -> string, url: string, headers: map<string, string>, data: Value)
    returns (sentUrl: string, sentHeaders: map<string, string>, sentData: Value)
    ensures sentUrl == url && sentHeaders == headers
    ensures sentData == data
  {
    var conf := new RequestConf(Some("get"), url, "", headers, data);
    InterceptRequest(DefaultApiConfig, conf, stringify, None, None);
    sentUrl, sentHeaders, sentData := conf.url, conf.headers, conf.data;
  }

  // ---------------------------------------------------------------------
  // The response interceptor

  /** `ApiResponse`: the envelope every API reply carries. */
  datatype Envelope = Envelope(code: int, msg: string, cost: int, data: Value)

  /** One transport reply: an envelope, or a transport error with its
      message. */
  datatype Reply = Delivered(envelope: Envelope) | TransportError(message: string)

  /** How one call of the application's `autoLogin` settles. The resolved
      value is ignored by the interceptor; a rejection carries the reason's
      `message` (`None` when it has none). */
  datatype LoginResult = LoginResolved(value: bool) | LoginRejected(message: Option<string>)

  /** Why a request was rejected: the envelope itself, or the transport
      error. */
  datatype Reason = Refused(envelope: Envelope) | Unreachable(message: string)

  /** How the promise of one request settles: with the envelope, with
      `undefined`, rejected, or not yet (the replies or logins given ran out). */
  datatype Outcome = Resolved(envelope: Envelope) | ResolvedUndefined | Rejected(reason: Reason) | Pending

  /** The settled outcome, the messages shown (in order; `None` stands for
      `undefined`), the number of requests sent and of `autoLogin` calls. */
  datatype Settlement = Settlement(outcome: Outcome, messages: seq<Option<string>>, sent: nat, logins: nat)

  /** The three branches of the response interceptor. */
  datatype Verdict = Succeeded | LoginNeeded | Failed

  /** `Array.prototype.indexOf`: the first position holding `x`, or -1. */
  function IndexOf(xs: seq<int>, x: int): (r: int)
    ensures -1 <= r < |xs|
    ensures r >= 0 ==> xs[r] == x
    ensures r == -1 <==> x !in xs
    decreases |xs|
  {
    if xs == [] then -1
    else if xs[0] == x then 0
    else
      var r := IndexOf(xs[1..], x);
      if r == -1 then -1 else r + 1
  }

  /** The branch taken for an envelope code, success checked first. */
  function Classify(successCode: seq<int>, needLoginCode: seq<int>, code: int): (v: Verdict)
    ensures v == Succeeded <==> code in successCode
    ensures v == LoginNeeded <==> code !in successCode && code in needLoginCode
    ensures v == Failed <==> code !in successCode && code !in needLoginCode
  {
    if IndexOf(successCode, code) >= 0 then Succeeded
    else if IndexOf(needLoginCode, code) >= 0 then LoginNeeded
    else Failed
  }

  /** The branch for a code under a configuration, whose codes are first
      normalised to lists with `asArray` (axios.ts lines 24-25). */
  function VerdictFor(config: ApiConfig, code: int): Verdict
  {
    Classify(AsArray(config.successCode), AsArray(config.needLoginCode), code)
  }

  /** The `message` of a rejection reason as the login `catch` reads it: an
      envelope has no `message` property. */
  function ReasonMessage(r: Reason): Option<string>
  {
    match r
    case Refused(_) => None
    case Unreachable(m) => Some(m)
  }

  /** How a request settles, given the transport replies to it and to each
      re-issue in order, and the outcomes of the application's `autoLogin`
      calls in order. A needs-login reply calls `autoLogin`; when that
      resolves, whatever its value, the request is re-issued and its reply
      is classified again, with no bound on the number of rounds; a
      rejection of the re-issued request, and a rejection of `autoLogin`,
      are caught, shown, and turned into `undefined`. */
  function Settle(config: ApiConfig, replies: seq<Reply>, logins: seq<LoginResult>): (s: Settlement)
    ensures s.sent <= |replies|
    ensures s.outcome.Resolved? ==> s.outcome.envelope.code in AsArray(config.successCode)
    decreases |replies|
  {
    if replies == [] then Settlement(Pending, [], 0, 0)
    else match replies[0]
      case TransportError(m) => Settlement(Rejected(Unreachable(m)), [Some(NetworkErrorMessage)], 1, 0)
      case Delivered(env) =>
        match VerdictFor(config, env.code)
        case Succeeded => Settlement(Resolved(env), [], 1, 0)
        case Failed => Settlement(Rejected(Refused(env)), [Some(env.msg)], 1, 0)
        case LoginNeeded =>
          if config.autoLogin.DefaultHook? then Settlement(ResolvedUndefined, [Some(NotImplementedMessage)], 1, 1)
          else if logins == [] then Settlement(Pending, [], 1, 1)
          else match logins[0]
            case LoginRejected(m) => Settlement(ResolvedUndefined, [m], 1, 1)
            case LoginResolved(_) =>
              var again := Settle(config, replies[1..], logins[1..]);
              if again.outcome.Rejected? then
                Settlement(ResolvedUndefined, again.messages + [ReasonMessage(again.outcome.reason)], again.sent + 1, again.logins + 1)
              else
                Settlement(again.outcome, again.messages, again.sent + 1, again.logins + 1)
  }

  /** How a request settles on its first reply, whatever the configuration:
      a success code resolves with the envelope and shows nothing; any
      other code outside the needs-login list shows `msg` and rejects with
      the envelope; a transport error shows the network message and rejects
      with the error. */
  lemma FirstReplySettles(config: ApiConfig, r: Reply, rest: seq<Reply>, logins: seq<LoginResult>)
    ensures r.Delivered? && VerdictFor(config, r.envelope.code) == Succeeded ==>
      Settle(config, [r] + rest, logins) == Settlement(Resolved(r.envelope), [], 1, 0)
    ensures r.Delivered? && VerdictFor(config, r.envelope.code) == Failed ==>
      Settle(config, [r] + rest, logins) == Settlement(Rejected(Refused(r.envelope)), [Some(r.envelope.msg)], 1, 0)
    ensures r.TransportError? ==>
      Settle(config, [r] + rest, logins) == Settlement(Rejected(Unreachable(r.message)), [Some(NetworkErrorMessage)], 1, 0)
  {
    assert ([r] + rest)[0] == r;
  }

  /** How a request settles on a needs-login first reply: the default
      `autoLogin` rejects, and its message is shown and swallowed; a
      supplied one that rejects has its reason's message shown and
      swallowed; one that resolves re-issues the request, which settles as
      the rest of the replies do, except that a rejection of the re-issue is
      shown and swallowed too. */
  lemma NeedsLoginSettles(config: ApiConfig, env: Envelope, rest: seq<Reply>, login: LoginResult, logins: seq<LoginResult>)
    requires VerdictFor(config, env.code) == LoginNeeded
    ensures config.autoLogin.DefaultHook? ==>
      Settle(config, [Delivered(env)] + rest, [login] + logins) == Settlement(ResolvedUndefined, [Some(NotImplementedMessage)], 1, 1)
    ensures config.autoLogin.UserHook? && login.LoginRejected? ==>
      Settle(config, [Delivered(env)] + rest, [login] + logins) == Settlement(ResolvedUndefined, [login.message], 1, 1)
    ensures config.autoLogin.UserHook? && login.LoginResolved? ==>
      var again := Settle(config, rest, logins);
      Settle(config, [Delivered(env)] + rest, [login] + logins) ==
        if again.outcome.Rejected? then
          Settlement(ResolvedUndefined, again.messages + [ReasonMessage(again.outcome.reason)], again.sent + 1, again.logins + 1)
        else Settlement(again.outcome, again.messages, again.sent + 1, again.logins + 1)
  {
    var replies := [Delivered(env)] + rest;
    assert replies[0] == Delivered(env) && replies[1..] == rest;
    assert ([login] + logins)[0] == login && ([login] + logins)[1..] == logins;
  }

  /** The default codes: 0 succeeds, 630 needs a login, anything else
      fails. */
  lemma DefaultVerdicts(code: int)
    ensures VerdictFor(DefaultApiConfig, code) ==
      if code == 0 then Succeeded else if code == 630 then LoginNeeded else Failed
  {
    assert AsArray(DefaultApiConfig.successCode) == [0];
    assert AsArray(DefaultApiConfig.needLoginCode) == [630];
  }

  /** With the default `autoLogin`, a needs-login reply is never re-issued:
      the rejection is caught, its message shown, and the request resolves
      with `undefined`. */
  lemma DefaultLoginSwallowed(env: Envelope, replies: seq<Reply>, logins: seq<LoginResult>)
    requires env.code == 630
    ensures Settle(DefaultApiConfig, [Delivered(env)] + replies, logins)
      == Settlement(ResolvedUndefined, [Some(NotImplementedMessage)], 1, 1)
  {
    DefaultVerdicts(env.code);
  }

  /** There is no retry bound: after any number of needs-login replies, each
      followed by a resolved `autoLogin` (whatever value it resolves with), a
      success reply resolves the original request with its envelope. */
  lemma {:induction false} UnboundedReissue(config: ApiConfig, need: Envelope, ok: Envelope, n: nat, loginValue: bool)
    requires config.autoLogin.UserHook?
    requires VerdictFor(config, need.code) == LoginNeeded && VerdictFor(config, ok.code) == Succeeded
    ensures Settle(config, seq(n, _ => Delivered(need)) + [Delivered(ok)], seq(n, _ => LoginResolved(loginValue)))
      == Settlement(Resolved(ok), [], n + 1, n)
  {
    var replies := seq(n, _ => Delivered(need)) + [Delivered(ok)];
    var logins := seq(n, _ => LoginResolved(loginValue));
    if n > 0 {
      UnboundedReissue(config, need, ok, n - 1, loginValue);
      assert replies[1..] == seq(n - 1, _ => Delivered(need)) + [Delivered(ok)];
      assert logins[1..] == seq(n - 1, _ => LoginResolved(loginValue));
      assert replies[0] == Delivered(need) && logins[0] == LoginResolved(loginValue);
    }
  }

  /** The value `autoLogin` resolves with is ignored: a login that reports
      failure (`false`) still re-issues the request, whose success reply
      resolves the original request. */
  lemma FailedLoginReissues(config: ApiConfig, need: Envelope, ok: Envelope)
    requires config.autoLogin.UserHook?
    requires VerdictFor(config, need.code) == LoginNeeded && VerdictFor(config, ok.code) == Succeeded
    ensures Settle(config, [Delivered(need), Delivered(ok)], [LoginResolved(false)]) == Settlement(Resolved(ok), [], 2, 1)
  {
    assert [Delivered(need), Delivered(ok)][1..] == [Delivered(ok)];
  }

  /** A needs-login reply never makes the request reject: a failure of the
      login or of the re-issued request is turned into `undefined`. */
  lemma ReissueNeverRejects(config: ApiConfig, replies: seq<Reply>, logins: seq<LoginResult>)
    requires replies != [] && replies[0].Delivered? && VerdictFor(config, replies[0].envelope.code) == LoginNeeded
    ensures !Settle(config, replies, logins).outcome.Rejected?
  {
  }

  /** A rejection always comes from the first reply, after a single request:
      a refused envelope (its `msg` shown) or a transport error (the network
      message shown). */
  lemma RejectionIsFirstReply(config: ApiConfig, replies: seq<Reply>, logins: seq<LoginResult>)
    ensures var s := Settle(config, replies, logins);
      s.outcome.Rejected? ==>
        && s.sent == 1 && s.logins == 0
        && match s.outcome.reason
           case Refused(env) =>
             replies[0] == Delivered(env) && VerdictFor(config, env.code) == Failed && s.messages == [Some(env.msg)]
           case Unreachable(m) =>
             replies[0] == TransportError(m) && s.messages == [Some(NetworkErrorMessage)]
  {
  }

  /** A re-issued request that is refused shows two messages, the
      envelope's `msg` and then `undefined` (an envelope has no `message`),
      and resolves with `undefined`; one that meets a transport error shows
      the network message and then the error's own message. */
  lemma ReissueFailureMessages(config: ApiConfig, need: Envelope, bad: Envelope, m: string, loginValue: bool)
    requires config.autoLogin.UserHook?
    requires VerdictFor(config, need.code) == LoginNeeded && VerdictFor(config, bad.code) == Failed
    ensures Settle(config, [Delivered(need), Delivered(bad)], [LoginResolved(loginValue)])
      == Settlement(ResolvedUndefined, [Some(bad.msg), None], 2, 1)
    ensures Settle(config, [Delivered(need), TransportError(m)], [LoginResolved(loginValue)])
      == Settlement(ResolvedUndefined, [Some(NetworkErrorMessage), Some(m)], 2, 1)
  {
    assert [Delivered(need), Delivered(bad)][1..] == [Delivered(bad)];
    assert [Delivered(need), TransportError(m)][1..] == [TransportError(m)];
  }
}
