/**
 * Properties of the whole request pipeline of hapi/base.py that relate several
 * steps: what ends up in the query parameters, when the refresh collaborator and
 * the transport are consulted, what the base class's missing path hook does, and
 * the worked examples of a static-key call and a token refresh.
 */
module Pipeline {
  import opened Wrappers
  import opened PyValues
  import opened HapiTypes
  import opened Config
  import opened Prepare
  import opened ResponseHandling
  import opened Client

  /** With a static key, the prepared parameters hold `hapikey` (the caller's when
      truthy, else the key), gain no `access_token`, and keep every other caller key
      except a `portalId` the options set. */
  lemma StaticKeyParameters(p0: map<string, Value>, c: Credentials, subpath: string, data: Value,
                            opts: map<string, Value>, doseq: bool, env: Collaborators)
    requires Truthy(c.apiKey)
    ensures var s := PrepareSpec(p0, c, subpath, data, opts, doseq, env);
            && "hapikey" in s.params
            && s.params["hapikey"] == (if Truthy(Get(p0, "hapikey")) then p0["hapikey"] else c.apiKey)
            && ("access_token" in s.params <==> "access_token" in p0)
            && forall k :: k in p0 && k != "hapikey" && k != "portalId" ==> s.params[k] == p0[k]
  {
    var a := AuthStep(p0, c, env);
    assert a.ok;
    var s := PrepareSpec(p0, c, subpath, data, opts, doseq, env);
    assert s.params == PortalStep(a.params, opts);
  }

  /** When the auth check passes, the refresh collaborator is not consulted: any
      other refresh collaborator gives the same parameters and outcome. */
  lemma NoRefreshWhenCheckPasses(p0: map<string, Value>, c: Credentials, env: Collaborators,
                                 otherRefresh: (Value, Value) -> Option<Value>)
    requires !Truthy(c.apiKey) && env.authChecker(TokenToCheck(p0, c)) < RefreshThreshold
    ensures AuthStep(p0, c, env) == AuthStep(p0, c, env.(refreshAccessToken := otherRefresh))
    ensures AuthStep(p0, c, env).ok && AuthStep(p0, c, env).params["access_token"] == TokenToCheck(p0, c)
  {
  }

  /** A failed refresh fails the call before anything is sent: the outcome is the
      refresh error whatever the transport would have answered. */
  lemma RefreshFailureSendsNothing(p0: map<string, Value>, c: Credentials, options: map<string, Value>,
                                   subpath: string, verb: Value, data: Value, doseq: bool,
                                   overrides: map<string, Value>, env: Collaborators,
                                   otherSend: (Value, Request) -> Option<Response>)
    requires "api_base" in options && "timeout" in options && "connection_type" in options
    requires !Truthy(c.apiKey)
    requires env.authChecker(TokenToCheck(p0, c)) >= RefreshThreshold && RefreshedToken(c, env).None?
    ensures CallSpec(p0, c, options, subpath, verb, data, doseq, overrides, env).outcome == Failure(RefreshFailed)
    ensures CallSpec(p0, c, options, subpath, verb, data, doseq, overrides, env.(send := otherSend)).outcome
            == Failure(RefreshFailed)
  {
    var opts := MergeOptions(options, overrides);
    assert !AuthStep(p0, c, env).ok;
    assert !AuthStep(p0, c, env.(send := otherSend)).ok;
  }

  /** `BaseClient`'s own path hook always raises, so once the credentials are in
      place a call prepared there fails exactly when no explicit `url` is given. */
  lemma BasePathHookFailsWithoutUrl(p0: map<string, Value>, c: Credentials, subpath: string, data: Value,
                                    opts: map<string, Value>, doseq: bool, env: Collaborators)
    requires env.getPath == UnimplementedPath
    requires AuthStep(p0, c, env).ok
    ensures var s := PrepareSpec(p0, c, subpath, data, opts, doseq, env);
            (s.outcome == Failure(PathUnavailable)) <==> !Truthy(Get(opts, "url"))
  {
    assert env.getPath(subpath) == None;
  }

  /** A static key `k1`, no parameters, and a path hook mapping `contacts` to
      `contacts/v1/lists`: the request goes to `/contacts/v1/lists?` followed by the
      encoding of `{hapikey: k1}`, with the JSON content type and no body. */
  lemma StaticKeyRequestExample(opts: map<string, Value>, env: Collaborators)
    requires env.getPath("contacts") == Some("contacts/v1/lists")
    requires "url" !in opts && "hub_id" !in opts && "portal_id" !in opts
    requires "headers" !in opts && "content_type" !in opts
    ensures var s := PrepareSpec(map[], Credentials(VStr("k1"), VNone, VNone, VNone), "contacts", VNone, opts,
                                 false, env);
            && s.params == map["hapikey" := VStr("k1")]
            && s.outcome == Success(Prepared(
                 VStr("/contacts/v1/lists?" + env.urlencode(map["hapikey" := VStr("k1")], false)),
                 map["Content-Type" := VStr(JsonContentType)],
                 VNone))
  {
    var c := Credentials(VStr("k1"), VNone, VNone, VNone);
    var a := AuthStep(map[], c, env);
    assert a.params == map["hapikey" := VStr("k1")];
    assert PortalStep(a.params, opts) == a.params;
    assert Get(opts, "headers") == VNone && ContentType(opts) == VStr(JsonContentType);
    var h: map<string, Value> := map[];
    assert h + map["Content-Type" := VStr(JsonContentType)] == map["Content-Type" := VStr(JsonContentType)];
    assert HeadersFor(opts) == Success(map["Content-Type" := VStr(JsonContentType)]);
    assert "/" + "contacts/v1/lists" + "?" == "/contacts/v1/lists?";
    assert BuildUrl(a.params, "contacts", opts, false, env)
           == Success(VStr("/contacts/v1/lists?" + env.urlencode(map["hapikey" := VStr("k1")], false)));
  }

  /** The refresh example on the parameters: a stored token the auth check rejects
      with 401, and a refresh whose response decodes to `{access_token: new-token}`,
      leave the new token in the parameters. */
  lemma TokenRefreshParameters(opts: map<string, Value>, subpath: string, env: Collaborators, text: string)
    requires "hub_id" !in opts && "portal_id" !in opts
    requires env.authChecker(VStr("old-token")) == 401
    requires env.refreshAccessToken(VStr("refresh"), VStr("client")) == Some(VStr(text))
    requires env.loads(text) == Some(VDict(map["access_token" := VStr("new-token")]))
    ensures PrepareSpec(map[], Credentials(VNone, VStr("old-token"), VStr("refresh"), VStr("client")),
                        subpath, VNone, opts, false, env).params == map["access_token" := VStr("new-token")]
  {
    var c := Credentials(VNone, VStr("old-token"), VStr("refresh"), VStr("client"));
    assert TokenToCheck(map[], c) == VStr("old-token");
    assert RefreshedToken(c, env) == Some(VStr("new-token"));
    var a := AuthStep(map[], c, env);
    assert a == AuthOutcome(map["access_token" := VStr("new-token")], true);
    assert PortalStep(a.params, opts) == a.params;
  }

  /** The same example on a constructed client, through `_call`: the request carries
      the new token while the client's `access_token` field keeps the old one. */
  method TokenRefreshExample(env: Collaborators, text: string) returns (sent: Value, stored: Value)
    requires env.authChecker(VStr("old-token")) == 401
    requires env.refreshAccessToken(VStr("refresh"), VStr("client")) == Some(VStr(text))
    requires env.loads(text) == Some(VDict(map["access_token" := VStr("new-token")]))
    ensures sent == VStr("new-token")
    ensures stored == VStr("old-token")
  {
    var c := Credentials(VNone, VStr("old-token"), VStr("refresh"), VStr("client"));
    var options := map["api_base" := VStr(DefaultApiBase), "timeout" := DefaultTimeout,
                       "connection_type" := VConnectionClass(true), "protocol" := VStr("https")];
    NoColonNoSeparator(DefaultApiBase);
    var client := new BaseClient(c, options);
    assert client.Valid();
    TokenRefreshParameters(options, "contacts", env, text);
    var params := new Dict(map[]);
    var outcome, used := client.Call("contacts", params, VStr("GET"), VNone, false, map[], env);
    sent := used.items["access_token"];
    stored := client.accessToken;
  }
}
