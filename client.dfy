/**
 * The client object (hapi/base.py, `BaseClient`): its credential fields and options
 * map, construction, `_prepare_connection_type`, `_prepare_request` updating the
 * caller's parameter dictionary in place, and `_call`, which merges the per-call
 * options into a copy of the client's options and runs the pipeline.
 */
module Client {
  import opened Wrappers
  import opened PyValues
  import opened HapiTypes
  import opened Config
  import opened Prepare
  import opened ResponseHandling

  /** `opts = self.options.copy(); opts.update(options)`: per-call options win, and
      the client's own map is a value that the merge leaves as it was. */
  function MergeOptions(options: map<string, Value>, overrides: map<string, Value>): (opts: map<string, Value>)
    ensures opts.Keys == options.Keys + overrides.Keys
    ensures forall k :: k in overrides ==> opts[k] == overrides[k]
    ensures forall k :: k in options && k !in overrides ==> opts[k] == options[k]
  {
    options + overrides
  }

  /** The caller's parameters after a call, and what the call returned or raised. */
  datatype CallResult = CallResult(params: map<string, Value>, outcome: Result<Value, Error>)

  /** The request `_create_request` records for a prepared request. */
  function RequestFor(verb: Value, prepared: Prepared, opts: map<string, Value>): Request
    requires "api_base" in opts && "timeout" in opts
  {
    Request(verb, prepared.url, prepared.data, prepared.headers, opts["api_base"], opts["timeout"])
  }

  /** `_call(subpath, params, method, data, doseq, **options)` on the caller's
      parameters `p0`. */
  function CallSpec(p0: map<string, Value>, c: Credentials, options: map<string, Value>, subpath: string,
                    verb: Value, data: Value, doseq: bool, overrides: map<string, Value>,
                    env: Collaborators): (s: CallResult)
    requires "api_base" in options && "timeout" in options && "connection_type" in options
    ensures var opts := MergeOptions(options, overrides);
            var prep := PrepareSpec(p0, c, subpath, data, opts, doseq, env);
            && s.params == prep.params
            && (prep.outcome.Failure? ==> s.outcome == Failure(prep.outcome.error))
            && (prep.outcome.Success? ==>
                  var request := RequestFor(verb, prep.outcome.value, opts);
                  var response := env.send(opts["connection_type"], request);
                  && (s.outcome.Success? <==> response.Some? && response.value.status < ErrorStatus)
                  && (response.None? ==> s.outcome == Failure(TransportFailed(request)))
                  && (response.Some? && response.value.status >= ErrorStatus ==>
                        s.outcome == Failure(ApiError(response.value, request)))
                  && (s.outcome.Success? ==> s.outcome.value == DigestResult(VStr(response.value.body), env.loads))
                  && (s.outcome.Failure? ==>
                        (s.outcome.error.TransportFailed? || s.outcome.error.ApiError?) &&
                        s.outcome.error.request == request))
  {
    var opts := MergeOptions(options, overrides);
    var prep := PrepareSpec(p0, c, subpath, data, opts, doseq, env);
    match prep.outcome
    case Failure(e) => CallResult(prep.params, Failure(e))
    case Success(prepared) =>
      var request := RequestFor(verb, prepared, opts);
      match ExecuteRequest(env.send(opts["connection_type"], request), request)
      case Failure(e) => CallResult(prep.params, Failure(e))
      case Success(body) => CallResult(prep.params, Success(DigestResult(body, env.loads)))
  }

  class BaseClient {
    var apiKey: Value
    var accessToken: Value
    var refreshToken: Value
    var clientId: Value
    var options: map<string, Value>

    /** The credentials as one value. */
    function Creds(): Credentials
      reads this
    {
      Credentials(apiKey, accessToken, refreshToken, clientId)
    }

    /** A constructed client: the credential checks passed and the options hold a
        supported protocol, its connection class, a host without a scheme and a timeout. */
    ghost predicate Valid()
      reads this
    {
      CredentialsAccepted(Creds()) && OptionsPrepared(options)
    }

    /** The field assignments of `__init__` (lines 23-26 and 32-35). */
    constructor (c: Credentials, initial: map<string, Value>)
      ensures Creds() == c && options == initial
    {
      apiKey, accessToken, refreshToken, clientId := c.apiKey, c.accessToken, c.refreshToken, c.clientId;
      options := initial;
    }

    /** `BaseClient(api_key, timeout, access_token=..., refresh_token=..., client_id=...,
        **extra_options)`: raises on a rejected credential combination or `api_base`,
        and otherwise yields a valid client in the state `Configure` describes. */
    static method Create(apiKey: Value, timeout: Value, accessToken: Value, refreshToken: Value, clientId: Value,
                         extra: map<string, Value>) returns (r: Result<BaseClient, Error>)
      ensures r.Failure? ==> Configure(apiKey, timeout, accessToken, refreshToken, clientId, extra) == Failure(r.error)
      ensures r.Success? ==>
                && fresh(r.value) && r.value.Valid()
                && Configure(apiKey, timeout, accessToken, refreshToken, clientId, extra)
                   == Success(ClientState(r.value.Creds(), r.value.options))
    {
      var c := EffectiveCredentials(apiKey, accessToken, refreshToken, clientId, extra);
      ghost var spec := Configure(apiKey, timeout, accessToken, refreshToken, clientId, extra);
      if Truthy(c.apiKey) && Truthy(c.accessToken) {
        return Failure(BothCredentials);
      }
      if !(Truthy(c.apiKey) || Truthy(c.accessToken) || Truthy(c.refreshToken)) {
        return Failure(MissingCredentials);
      }
      assert CheckCredentials(c).None?;
      var initial := map["api_base" := VStr(DefaultApiBase)];
      initial := initial["timeout" := timeout];
      initial := initial + extra;
      assert initial == InitialOptions(timeout, extra);
      var client := new BaseClient(c, initial);
      var err := client.PrepareConnectionType();
      if err.Some? {
        assert spec == Failure(err.value);
        return Failure(err.value);
      }
      assert ConnectionOptions(initial) == Success(client.options);
      assert spec == Success(ClientState(c, client.options));
      return Success(client);
    }

    /** `_prepare_connection_type`: records the connection class and protocol in the
        options and replaces `api_base` by the host; a bad `api_base` raises before any
        option is written. */
    method PrepareConnectionType() returns (err: Option<Error>)
      requires "api_base" in options && "timeout" in options
      modifies this
      ensures Creds() == old(Creds())
      ensures match ConnectionOptions(old(options))
              case Success(m) => err.None? && options == m
              case Failure(e) => err == Some(e) && options == old(options)
    {
      var parsed := ParseApiBase(options["api_base"]);
      if parsed.Failure? {
        return Some(parsed.error);
      }
      var conn := parsed.value;
      options := options["connection_type" := VConnectionClass(conn.protocol == "https")];
      options := options["protocol" := VStr(conn.protocol)];
      options := options["api_base" := VStr(conn.host)];
      return None;
    }

    /** `_prepare_request(subpath, params, data, opts, doseq)`. A non-empty `params`
        dictionary is updated in place (also when the call raises part way); `None` or
        an empty one is replaced by a new dictionary. The client's own fields, among
        them the stored access token, are left as they were. */
    method PrepareRequest(subpath: string, params: Dict?, data: Value, opts: map<string, Value>, doseq: bool,
                          env: Collaborators) returns (r: Result<Prepared, Error>, used: Dict)
      modifies params
      ensures var p0 := if params == null then map[] else old(params.items);
              var s := PrepareSpec(p0, Creds(), subpath, data, opts, doseq, env);
              used.items == s.params && r == s.outcome
      ensures params != null && old(params.items) != map[] ==> used == params
      ensures params == null || old(params.items) == map[] ==>
                fresh(used) && (params != null ==> params.items == map[])
      ensures Creds() == old(Creds()) && options == old(options)
    {
      ghost var p0 := if params == null then map[] else params.items;
      ghost var spec := PrepareSpec(p0, Creds(), subpath, data, opts, doseq, env);
      if params != null && params.items != map[] {
        used := params;
      } else {
        used := new Dict(map[]);
      }
      assert used.items == p0;
      var ok := InjectCredentials(used, env);
      if !ok {
        r := Failure(RefreshFailed);
        assert spec == Preparation(used.items, r);
        return;
      }
      r := FinishRequest(used, subpath, data, opts, doseq, env);
    }

    /** The rest of `_prepare_request` (lines 65-73): `portalId` injection into the
        parameters, then the URL, the headers and the body. */
    method FinishRequest(used: Dict, subpath: string, data: Value, opts: map<string, Value>, doseq: bool,
                         env: Collaborators) returns (r: Result<Prepared, Error>)
      modifies used
      ensures AfterAuth(old(used.items), subpath, data, opts, doseq, env) == Preparation(used.items, r)
    {
      ghost var spec := AfterAuth(used.items, subpath, data, opts, doseq, env);
      var hubId, portalId := Get(opts, "hub_id"), Get(opts, "portal_id");
      if Truthy(hubId) || Truthy(portalId) {
        used.Set("portalId", Or(hubId, portalId));
      }
      assert used.items == PortalStep(old(used.items), opts);
      ghost var urlSpec := BuildUrl(used.items, subpath, opts, doseq, env);
      var url := Get(opts, "url");
      if !Truthy(url) {
        var path := env.getPath(subpath);
        if path.None? {
          assert urlSpec == Failure(PathUnavailable);
          r := Failure(PathUnavailable);
          assert spec == Preparation(used.items, r);
          return;
        }
        url := VStr("/" + path.value + "?" + env.urlencode(used.items, doseq));
      }
      assert urlSpec == Success(url);
      var given := Get(opts, "headers");
      var headers: map<string, Value> := map[];
      if Truthy(given) {
        if !given.VDict? {
          assert HeadersFor(opts) == Failure(HeadersNotDict);
          r := Failure(HeadersNotDict);
          assert spec == Preparation(used.items, r);
          return;
        }
        headers := given.entries;
      }
      headers := headers + map["Content-Type" := Or(Get(opts, "content_type"), VStr(JsonContentType))];
      assert HeadersFor(opts) == Success(headers);
      var body := data;
      if Truthy(body) && !body.VStr? && headers["Content-Type"] == VStr(JsonContentType) {
        body := VStr(env.dumps(body));
      }
      assert body == EncodeBody(data, headers["Content-Type"], env);
      r := Success(Prepared(url, headers, body));
      assert spec == Preparation(used.items, r);
    }

    /** Credential injection, the first step of `_prepare_request` (lines 51-63): on
        `false` the refresh failed and the parameters keep the injected token. */
    method InjectCredentials(used: Dict, env: Collaborators) returns (ok: bool)
      modifies used
      ensures used.items == AuthStep(old(used.items), Creds(), env).params
      ensures ok == AuthStep(old(used.items), Creds(), env).ok
    {
      if Truthy(apiKey) {
        used.Set("hapikey", Or(used.Lookup("hapikey"), apiKey));
        return true;
      }
      used.Set("access_token", Or(used.Lookup("access_token"), accessToken));
      var check := env.authChecker(used.items["access_token"]);
      if check >= RefreshThreshold {
        var token := RefreshedToken(Creds(), env);
        if token.None? {
          return false;
        }
        used.Set("access_token", token.value);
      }
      return true;
    }

    /** `_call(subpath, params, method, data, doseq, **options)`: prepare, send over a
        connection of the configured class, apply the status rule and digest the body. */
    method Call(subpath: string, params: Dict?, verb: Value, data: Value, doseq: bool,
                overrides: map<string, Value>, env: Collaborators) returns (r: Result<Value, Error>, used: Dict)
      requires Valid()
      modifies params
      ensures var p0 := if params == null then map[] else old(params.items);
              var s := CallSpec(p0, Creds(), options, subpath, verb, data, doseq, overrides, env);
              used.items == s.params && r == s.outcome
      ensures Creds() == old(Creds()) && options == old(options) && Valid()
    {
      var opts := MergeOptions(options, overrides);
      var prepared;
      prepared, used := PrepareRequest(subpath, params, data, opts, doseq, env);
      if prepared.Failure? {
        r := Failure(prepared.error);
        return;
      }
      var request := RequestFor(verb, prepared.value, opts);
      var response := env.send(opts["connection_type"], request);
      var result := ExecuteRequest(response, request);
      if result.Failure? {
        r := Failure(result.error);
        return;
      }
      r := Success(DigestResult(result.value, env.loads));
    }
  }
}
