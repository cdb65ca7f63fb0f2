/**
 * Request preparation (hapi/base.py, `_prepare_request`) as functions of the
 * caller's parameters: credential injection with the check-then-refresh-once rule,
 * `portalId` injection, the URL, the headers and the body. The imperative method
 * that updates the caller's dictionary in place is `Client.BaseClient.PrepareRequest`;
 * these functions are its specification.
 */
module Prepare {
  import opened Wrappers
  import opened PyValues
  import opened HapiTypes

  const JsonContentType := "application/json"
  /** Auth-check results from this value up trigger a refresh. */
  const RefreshThreshold := 400

  /** What `_prepare_request` returns: `(url, headers, data)`. */
  datatype Prepared = Prepared(url: Value, headers: map<string, Value>, data: Value)

  /** The parameters after credential injection, and whether it succeeded. */
  datatype AuthOutcome = AuthOutcome(params: map<string, Value>, ok: bool)

  /** The caller's parameters after `_prepare_request` ran (also when it raised part
      way) and what it returned or raised. */
  datatype Preparation = Preparation(params: map<string, Value>, outcome: Result<Prepared, Error>)

  /** The query key that carries the credential. */
  function AuthKey(c: Credentials): string {
    if Truthy(c.apiKey) then "hapikey" else "access_token"
  }

  /** The token that is injected and then checked: the caller's `access_token`
      parameter when truthy, else the stored one. */
  function TokenToCheck(p: map<string, Value>, c: Credentials): Value {
    Or(Get(p, "access_token"), c.accessToken)
  }

  /** Decoded refresh response that holds an `access_token` entry. */
  predicate DecodesToToken(decoded: Option<Value>) {
    decoded.Some? && decoded.value.VDict? && "access_token" in decoded.value.entries
  }

  /** The body of the `try` block: `json.loads(refresh_access_token(...))['access_token']`,
      `None` when any of the three steps raises. */
  function RefreshedToken(c: Credentials, env: Collaborators): (t: Option<Value>)
    ensures var response := env.refreshAccessToken(c.refreshToken, c.clientId);
            && (t.Some? <==> response.Some? && response.value.VStr? && DecodesToToken(env.loads(response.value.s)))
            && (t.Some? ==> t.value == env.loads(response.value.s).value.entries["access_token"])
  {
    match env.refreshAccessToken(c.refreshToken, c.clientId)
    case None => None
    case Some(response) =>
      if !response.VStr? then None
      else match env.loads(response.s)
        case Some(VDict(fields)) =>
          if "access_token" in fields then Some(fields["access_token"]) else None
        case _ => None
  }

  /** Credential injection (lines 51-63). */
  function AuthStep(p: map<string, Value>, c: Credentials, env: Collaborators): (a: AuthOutcome)
    // exactly one credential key is written; every other parameter is kept
    ensures a.params.Keys == p.Keys + {AuthKey(c)}
    ensures forall k :: k in p && k != AuthKey(c) ==> a.params[k] == p[k]
    // a static key: the caller's truthy `hapikey` wins over the configured key
    ensures Truthy(c.apiKey) ==>
              a.ok && a.params["hapikey"] == (if Truthy(Get(p, "hapikey")) then p["hapikey"] else c.apiKey)
    ensures Truthy(c.apiKey) ==> ("access_token" in a.params <==> "access_token" in p)
    // a token that passes the check is used as it is
    ensures !Truthy(c.apiKey) && env.authChecker(TokenToCheck(p, c)) < RefreshThreshold ==>
              a.ok && a.params["access_token"] == TokenToCheck(p, c)
    // a token that fails the check is refreshed once
    ensures !Truthy(c.apiKey) && env.authChecker(TokenToCheck(p, c)) >= RefreshThreshold ==>
              (a.ok <==> RefreshedToken(c, env).Some?) &&
              a.params["access_token"] == (if a.ok then RefreshedToken(c, env).value else TokenToCheck(p, c))
    ensures !a.ok ==> !Truthy(c.apiKey) && env.authChecker(TokenToCheck(p, c)) >= RefreshThreshold
  {
    if Truthy(c.apiKey) then
      AuthOutcome(p["hapikey" := Or(Get(p, "hapikey"), c.apiKey)], true)
    else
      var withToken := p["access_token" := TokenToCheck(p, c)];
      if env.authChecker(withToken["access_token"]) < RefreshThreshold then AuthOutcome(withToken, true)
      else match RefreshedToken(c, env)
        case Some(token) => AuthOutcome(withToken["access_token" := token], true)
        case None => AuthOutcome(withToken, false)
  }

  /** `portalId` injection (lines 65-66): `hub_id` when truthy, else `portal_id`. */
  function PortalStep(p: map<string, Value>, opts: map<string, Value>): (q: map<string, Value>)
    ensures var hub, portal := Get(opts, "hub_id"), Get(opts, "portal_id");
            && (Truthy(hub) || Truthy(portal) ==>
                  q.Keys == p.Keys + {"portalId"} && q["portalId"] == (if Truthy(hub) then hub else portal) &&
                  Truthy(q["portalId"]))
            && (!Truthy(hub) && !Truthy(portal) ==> q == p)
    ensures forall k :: k in p && k != "portalId" ==> k in q && q[k] == p[k]
  {
    var hub, portal := Get(opts, "hub_id"), Get(opts, "portal_id");
    if Truthy(hub) || Truthy(portal) then p["portalId" := Or(hub, portal)] else p
  }

  /** The URL (line 67): the `url` option verbatim when truthy, otherwise
      `'/' + path + '?' + urlencode(params, doseq)`; the path hook is asked only then. */
  function BuildUrl(p: map<string, Value>, subpath: string, opts: map<string, Value>, doseq: bool,
                    env: Collaborators): (r: Result<Value, Error>)
    ensures r.Success? ==> Truthy(r.value)
    ensures Truthy(Get(opts, "url")) ==> r == Success(opts["url"])
    ensures !Truthy(Get(opts, "url")) ==>
              match env.getPath(subpath)
              case None => r == Failure(PathUnavailable)
              case Some(path) => r.Success? && r.value.VStr? &&
                                 r.value.s == "/" + path + "?" + env.urlencode(p, doseq)
  {
    var url := Get(opts, "url");
    if Truthy(url) then Success(url)
    else match env.getPath(subpath)
      case None => Failure(PathUnavailable)
      case Some(path) => Success(VStr("/" + path + "?" + env.urlencode(p, doseq)))
  }

  /** The `Content-Type` that is written: the `content_type` option when truthy,
      else `application/json`. */
  function ContentType(opts: map<string, Value>): (v: Value)
    ensures Truthy(v)
    ensures v == (if Truthy(Get(opts, "content_type")) then opts["content_type"] else VStr(JsonContentType))
  {
    Or(Get(opts, "content_type"), VStr(JsonContentType))
  }

  /** The headers (lines 68-69): the `headers` option when truthy, else a new dict,
      updated with `Content-Type`, which overwrites a caller-supplied one. */
  function HeadersFor(opts: map<string, Value>): (r: Result<map<string, Value>, Error>)
    ensures var given := Get(opts, "headers");
            && (r.Failure? <==> Truthy(given) && !given.VDict?)
            && (r.Failure? ==> r.error == HeadersNotDict)
            && (r.Success? ==>
                  var caller := if Truthy(given) then given.entries else map[];
                  && r.value.Keys == caller.Keys + {"Content-Type"}
                  && r.value["Content-Type"] == ContentType(opts)
                  && forall k :: k in caller && k != "Content-Type" ==> r.value[k] == caller[k])
  {
    var given := Get(opts, "headers");
    if Truthy(given) && !given.VDict? then Failure(HeadersNotDict)
    else
      var headers := if Truthy(given) then given.entries else map[];
      Success(headers + map["Content-Type" := ContentType(opts)])
  }

  /** The body (lines 70-71): serialised exactly when it is truthy, not a string, and
      the content type is JSON. */
  function EncodeBody(data: Value, contentType: Value, env: Collaborators): (r: Value)
    ensures var serialise := Truthy(data) && !data.VStr? && contentType == VStr(JsonContentType);
            (serialise ==> r == VStr(env.dumps(data))) && (!serialise ==> r == data)
  {
    if Truthy(data) && !data.VStr? && contentType == VStr(JsonContentType) then VStr(env.dumps(data)) else data
  }

  /** The steps of `_prepare_request` after credential injection (lines 65-73). */
  function AfterAuth(p: map<string, Value>, subpath: string, data: Value, opts: map<string, Value>, doseq: bool,
                     env: Collaborators): (s: Preparation)
    ensures s.params == PortalStep(p, opts)
    // the URL is built first and the headers second; the first that fails decides the error
    ensures var url := BuildUrl(PortalStep(p, opts), subpath, opts, doseq, env);
            && (url.Failure? ==> s.outcome == Failure(url.error))
            && (url.Success? && HeadersFor(opts).Failure? ==> s.outcome == Failure(HeadersFor(opts).error))
            && (s.outcome.Success? <==> url.Success? && HeadersFor(opts).Success?)
    ensures s.outcome.Failure? ==> s.outcome.error == PathUnavailable || s.outcome.error == HeadersNotDict
    ensures s.outcome.Success? ==>
              && BuildUrl(s.params, subpath, opts, doseq, env) == Success(s.outcome.value.url)
              && HeadersFor(opts) == Success(s.outcome.value.headers)
              && s.outcome.value.headers["Content-Type"] == ContentType(opts)
              && s.outcome.value.data == EncodeBody(data, ContentType(opts), env)
  {
    var q := PortalStep(p, opts);
    match BuildUrl(q, subpath, opts, doseq, env)
    case Failure(e) => Preparation(q, Failure(e))
    case Success(url) =>
      match HeadersFor(opts)
      case Failure(e) => Preparation(q, Failure(e))
      case Success(headers) =>
        Preparation(q, Success(Prepared(url, headers, EncodeBody(data, headers["Content-Type"], env))))
  }

  /** `_prepare_request(subpath, params, data, opts, doseq)` on the caller's
      parameters `p0` (`params or {}`). */
  function PrepareSpec(p0: map<string, Value>, c: Credentials, subpath: string, data: Value,
                       opts: map<string, Value>, doseq: bool, env: Collaborators): (s: Preparation)
    // the refresh error is raised exactly when credential injection fails
    ensures s.outcome == Failure(RefreshFailed) <==> !AuthStep(p0, c, env).ok
    // the caller's keys, the credential key, and `portalId` when the later steps ran
    // and a portal id is configured
    ensures var portal := AuthStep(p0, c, env).ok && (Truthy(Get(opts, "hub_id")) || Truthy(Get(opts, "portal_id")));
            s.params.Keys == p0.Keys + {AuthKey(c)} + (if portal then {"portalId"} else {})
    ensures s.params[AuthKey(c)] == AuthStep(p0, c, env).params[AuthKey(c)]
    ensures forall k :: k in p0 && k != AuthKey(c) && k != "portalId" ==> s.params[k] == p0[k]
    // a prepared request: the URL built from the final parameters, the headers and the encoded body
    ensures s.outcome.Success? ==>
              && BuildUrl(s.params, subpath, opts, doseq, env) == Success(s.outcome.value.url)
              && HeadersFor(opts) == Success(s.outcome.value.headers)
              && s.outcome.value.data == EncodeBody(data, ContentType(opts), env)
    ensures AuthStep(p0, c, env).ok ==>
              (s.outcome.Success? <==>
                 BuildUrl(s.params, subpath, opts, doseq, env).Success? && HeadersFor(opts).Success?)
  {
    var a := AuthStep(p0, c, env);
    if !a.ok then Preparation(a.params, Failure(RefreshFailed))
    else AfterAuth(a.params, subpath, data, opts, doseq, env)
  }
}
