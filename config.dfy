/**
 * Construction of a client (hapi/base.py, `BaseClient.__init__` and
 * `_prepare_connection_type`): which credential combinations are accepted, the
 * options map built from the defaults and the extra keyword options, and how the
 * configured `api_base` is split into a protocol and a host.
 */
module Config {
  import opened Wrappers
  import opened PyValues
  import opened Strings
  import opened HapiTypes

  const Sep := "://"
  const DefaultProtocol := "https"
  const DefaultApiBase := "api.hubapi.com"
  /** The default of the `timeout` keyword argument. */
  const DefaultTimeout := VInt(10)

  /** The keys of `connection_types`. */
  predicate SupportedProtocol(p: string) {
    p == "http" || p == "https"
  }

  /** The protocol and host `_prepare_connection_type` derives from `api_base`. */
  datatype Connection = Connection(protocol: string, host: string)

  /** `_prepare_connection_type` on the value of `options['api_base']`: split it at
      `"://"`, take the first piece as the protocol when there is more than one piece
      (`https` otherwise) and the last piece as the host. */
  function ParseApiBase(apiBase: Value): (r: Result<Connection, Error>)
    ensures !apiBase.VStr? ==> r == Failure(ApiBaseNotString)
    ensures r.Success? ==> SupportedProtocol(r.value.protocol) && !Contains(r.value.host, Sep)
    ensures apiBase.VStr? && r.Failure? ==> r.error.UnknownProtocol? && !SupportedProtocol(r.error.protocol)
  {
    if !apiBase.VStr? then Failure(ApiBaseNotString)
    else
      var parts := Split(apiBase.s, Sep);
      SplitPiecesFree(apiBase.s, Sep);
      var protocol := (parts[..|parts| - 1] + [DefaultProtocol])[0];
      if SupportedProtocol(protocol) then Success(Connection(protocol, parts[|parts| - 1]))
      else Failure(UnknownProtocol(protocol))
  }

  /** A host without `"://"` keeps the default protocol and is the host itself; a host
      with one or more separators has as protocol the text before the first separator
      and as host the text after the last one. */
  lemma ParseApiBaseMeaning(s: string)
    ensures !Contains(s, Sep) ==> ParseApiBase(VStr(s)) == Success(Connection(DefaultProtocol, s))
    ensures ParseApiBase(VStr(s)).Success? ==>
              var c := ParseApiBase(VStr(s)).value;
              !Contains(c.host, Sep) && EndsWith(s, c.host) &&
              (Contains(s, Sep) ==> c.protocol + Sep <= s && !Contains(c.protocol, Sep) && EndsWith(s, Sep + c.host))
    ensures ParseApiBase(VStr(s)).Failure? ==>
              var p := ParseApiBase(VStr(s)).error.protocol;
              Contains(s, Sep) && p + Sep <= s && !Contains(p, Sep)
  {
    var parts := Split(s, Sep);
    SplitPiecesCount(s, Sep);
    SplitPiecesFree(s, Sep);
    JoinSplit(s, Sep);
    JoinEndsWithLast(parts, Sep);
    if !Contains(s, Sep) {
      SplitWithoutSeparator(s, Sep);
    } else {
      assert parts[0] == (parts[..|parts| - 1] + [DefaultProtocol])[0];
      JoinEndsWithSepLast(parts, Sep);
    }
  }

  /** A string with no `':'` holds no `"://"`. */
  lemma NoColonNoSeparator(s: string)
    requires ':' !in s
    ensures !Contains(s, Sep)
  {
    forall i | 0 <= i <= |s| - |Sep| ensures !OccursAt(s, Sep, i) {
      assert s[i] != ':';
    }
  }

  /** Writing a connection as `protocol://host` and parsing it back gives the
      connection again, for a supported protocol and a host without `"://"` (a port,
      as in `localhost:8080`, is allowed). */
  lemma ParseApiBaseRoundTrip(c: Connection)
    requires SupportedProtocol(c.protocol) && !Contains(c.host, Sep)
    ensures ParseApiBase(VStr(c.protocol + Sep + c.host)) == Success(c)
  {
    SplitAfterPrefix(c.protocol, Sep, c.host);
    SplitWithoutSeparator(c.host, Sep);
    assert Split(c.protocol + Sep + c.host, Sep) == [c.protocol, c.host];
  }

  /** A host written with an empty scheme (`"://host"`) is rejected: its protocol is
      the empty string. */
  lemma EmptySchemeRejected(h: string)
    requires !Contains(h, Sep)
    ensures ParseApiBase(VStr(Sep + h)) == Failure(UnknownProtocol(""))
  {
    SplitAfterPrefix("", Sep, h);
    assert "" + Sep + h == Sep + h;
    SplitWithoutSeparator(h, Sep);
    assert Split(Sep + h, Sep) == ["", h];
  }

  /** The default host parses to itself over `https`. */
  lemma DefaultApiBaseParses()
    ensures ParseApiBase(VStr(DefaultApiBase)) == Success(Connection("https", DefaultApiBase))
  {
    NoColonNoSeparator(DefaultApiBase);
    SplitWithoutSeparator(DefaultApiBase, Sep);
  }

  /** A host with a port keeps its port: `http` + `"://"` + `localhost:8080` parses to
      protocol `http` and host `localhost:8080`. */
  lemma PortKeptInHost()
    ensures ParseApiBase(VStr("http" + Sep + "localhost:8080")) == Success(Connection("http", "localhost:8080"))
  {
    var h := "localhost:8080";
    forall i | 0 <= i <= |h| - |Sep| ensures !OccursAt(h, Sep, i) {
      if i == 9 { assert h[10] != '/'; } else { assert h[i] != ':'; }
    }
    ParseApiBaseRoundTrip(Connection("http", h));
  }

  /** The options of a constructed client, after `_prepare_connection_type`. */
  ghost predicate OptionsPrepared(m: map<string, Value>) {
    && "api_base" in m && m["api_base"].VStr? && !Contains(m["api_base"].s, Sep)
    && "protocol" in m && m["protocol"].VStr? && SupportedProtocol(m["protocol"].s)
    && "connection_type" in m && m["connection_type"] == VConnectionClass(m["protocol"].s == "https")
    && "timeout" in m
  }

  /** `{'api_base': 'api.hubapi.com'}`, then `timeout`, then `update(extra_options)`. */
  function InitialOptions(timeout: Value, extra: map<string, Value>): (m: map<string, Value>)
    ensures m.Keys == {"api_base", "timeout"} + extra.Keys
    ensures m["api_base"] == (if "api_base" in extra then extra["api_base"] else VStr(DefaultApiBase))
    ensures m["timeout"] == (if "timeout" in extra then extra["timeout"] else timeout)
    ensures forall k :: k in extra ==> m[k] == extra[k]
  {
    map["api_base" := VStr(DefaultApiBase), "timeout" := timeout] + extra
  }

  /** `_prepare_connection_type` on a whole options map: it records the connection
      class and the protocol and replaces `api_base` by the host. */
  function ConnectionOptions(options: map<string, Value>): (r: Result<map<string, Value>, Error>)
    requires "api_base" in options && "timeout" in options
    ensures r.Failure? <==> ParseApiBase(options["api_base"]).Failure?
    ensures r.Failure? ==> r.error == ParseApiBase(options["api_base"]).error
    ensures r.Success? ==> OptionsPrepared(r.value)
    ensures r.Success? ==> r.value.Keys == options.Keys + {"connection_type", "protocol"}
    ensures r.Success? ==>
              var c := ParseApiBase(options["api_base"]).value;
              r.value["api_base"] == VStr(c.host) && r.value["protocol"] == VStr(c.protocol)
    ensures r.Success? ==> forall k :: k in options && k != "api_base" && k != "protocol" && k != "connection_type" ==>
              r.value[k] == options[k]
  {
    match ParseApiBase(options["api_base"])
    case Failure(e) => Failure(e)
    case Success(c) =>
      Success(options["connection_type" := VConnectionClass(c.protocol == "https")]
                     ["protocol" := VStr(c.protocol)]
                     ["api_base" := VStr(c.host)])
  }

  /** Each credential is the keyword argument when truthy, else the same-named extra option. */
  function EffectiveCredentials(apiKey: Value, accessToken: Value, refreshToken: Value, clientId: Value,
                                extra: map<string, Value>): Credentials
  {
    Credentials(
      Or(apiKey, Get(extra, "api_key")),
      Or(accessToken, Get(extra, "access_token")),
      Or(refreshToken, Get(extra, "refresh_token")),
      Or(clientId, Get(extra, "client_id")))
  }

  /** The constructor's two credential checks both pass. */
  predicate CredentialsAccepted(c: Credentials) {
    !(Truthy(c.apiKey) && Truthy(c.accessToken)) &&
    (Truthy(c.apiKey) || Truthy(c.accessToken) || Truthy(c.refreshToken))
  }

  /** The two credential checks, in the constructor's order. */
  function CheckCredentials(c: Credentials): (r: Option<Error>)
    ensures r.None? <==> CredentialsAccepted(c)
    ensures Truthy(c.apiKey) && Truthy(c.accessToken) ==> r == Some(BothCredentials)
    ensures !Truthy(c.apiKey) && !Truthy(c.accessToken) && !Truthy(c.refreshToken) ==> r == Some(MissingCredentials)
  {
    if Truthy(c.apiKey) && Truthy(c.accessToken) then Some(BothCredentials)
    else if !(Truthy(c.apiKey) || Truthy(c.accessToken) || Truthy(c.refreshToken)) then Some(MissingCredentials)
    else None
  }

  /** The state of a constructed client: its credential fields and its options. */
  datatype ClientState = ClientState(creds: Credentials, options: map<string, Value>)

  /** `BaseClient.__init__(api_key, timeout, access_token=..., refresh_token=...,
      client_id=..., **extra_options)` as a function of its arguments. */
  function Configure(apiKey: Value, timeout: Value, accessToken: Value, refreshToken: Value, clientId: Value,
                     extra: map<string, Value>): (r: Result<ClientState, Error>)
    ensures var c := EffectiveCredentials(apiKey, accessToken, refreshToken, clientId, extra);
            && (Truthy(c.apiKey) && Truthy(c.accessToken) ==> r == Failure(BothCredentials))
            && (!Truthy(c.apiKey) && !Truthy(c.accessToken) && !Truthy(c.refreshToken) ==>
                  r == Failure(MissingCredentials))
            && (CredentialsAccepted(c) ==>
                  (r.Success? <==> ParseApiBase(InitialOptions(timeout, extra)["api_base"]).Success?))
            && (r.Success? ==> r.value.creds == c && CredentialsAccepted(c))
    ensures r.Success? ==> OptionsPrepared(r.value.options)
    ensures r.Success? ==> ConnectionOptions(InitialOptions(timeout, extra)) == Success(r.value.options)
    ensures r.Success? ==> r.value.options.Keys == {"api_base", "timeout", "connection_type", "protocol"} + extra.Keys
    ensures r.Success? ==> r.value.options["timeout"] == (if "timeout" in extra then extra["timeout"] else timeout)
    ensures r.Success? ==> forall k :: k in extra && k != "api_base" && k != "protocol" && k != "connection_type" ==>
              r.value.options[k] == extra[k]
  {
    var c := EffectiveCredentials(apiKey, accessToken, refreshToken, clientId, extra);
    match CheckCredentials(c)
    case Some(e) => Failure(e)
    case None =>
      match ConnectionOptions(InitialOptions(timeout, extra))
      case Failure(e) => Failure(e)
      case Success(options) => Success(ClientState(c, options))
  }

  /** Without an `api_base` extra option the client talks to the default host over
      `https`, whatever the credentials. */
  lemma DefaultHostUsed(apiKey: Value, timeout: Value, accessToken: Value, refreshToken: Value, clientId: Value,
                        extra: map<string, Value>)
    requires "api_base" !in extra
    requires CredentialsAccepted(EffectiveCredentials(apiKey, accessToken, refreshToken, clientId, extra))
    ensures var r := Configure(apiKey, timeout, accessToken, refreshToken, clientId, extra);
            r.Success? && r.value.options["api_base"] == VStr(DefaultApiBase) &&
            r.value.options["protocol"] == VStr("https") && r.value.options["connection_type"] == VConnectionClass(true)
  {
    DefaultApiBaseParses();
  }

  /** A refresh token alone is enough to construct a client. */
  lemma RefreshTokenAloneAccepted(refreshToken: Value, extra: map<string, Value>)
    requires Truthy(refreshToken)
    requires "api_key" !in extra && "access_token" !in extra && "api_base" !in extra
    ensures Configure(VNone, DefaultTimeout, VNone, refreshToken, VNone, extra).Success?
  {
    DefaultApiBaseParses();
  }
}
