# hapipy `BaseClient`: request preparation and response interpretation

This project models the deterministic core of `BaseClient` in hapi/base.py, the
base class of a small Python client for the HubSpot HTTP API, and proves its rules.
What it covers:

- **Construction** (`__init__`). Each credential (`api_key`, `access_token`,
  `refresh_token`, `client_id`) falls back to the extra keyword option of the same
  name. The client refuses an API key together with an access token, and refuses
  the case where none of key, access token and refresh token is given. It builds the
  `options` map: the default host `api.hubapi.com`, the `timeout`, then the extra
  options, which win over both.
- **Connection type** (`_prepare_connection_type`). `api_base` is split at `"://"`.
  The protocol is the first piece when there are several pieces, `https` otherwise.
  The host is the last piece. Only `http` and `https` are accepted.
- **Request preparation** (`_prepare_request`). This step:
  - injects `hapikey` or `access_token` into the caller's parameter dictionary, in
    place;
  - checks the token with the auth-check collaborator and, at a result of 400 or
    more, refreshes it exactly once;
  - injects `portalId`;
  - builds the URL through the path hook and `urlencode`;
  - sets `Content-Type`, overwriting any value the caller gave;
  - serialises a non-string body when the content type is JSON.
- **Response interpretation**. In `_execute_request`, a failure to read the
  response, or a status of 400 or more, raises. `_digest_result` decodes a
  non-empty string as JSON and returns anything else unchanged. It never raises.
- **Per-call options** (`_call`). The call's options are merged over a copy of the
  client's options. The client's own map stays as it was.

Python's values are modelled by `PyValues.Value`. Python's truthiness drives every
`x or y` in the source and is modelled as `PyValues.Truthy`. A Python exception is
modelled as the `Failure` of a `Result`, and the source's exceptions are the
constructors of `HapiTypes.Error`.

The client is the class `Client.BaseClient`. Its fields are the four credentials
and the options map. The methods `Create`, `PrepareConnectionType`,
`PrepareRequest` and `Call` follow the source statement by statement. Each is
proved against a pure function that states what it computes: `Config.Configure`,
`Config.ConnectionOptions`, `Prepare.PrepareSpec` and `Client.CallSpec`. The
properties are proved about those functions.

The collaborators are arrow-typed fields of the datatype
`HapiTypes.Collaborators`. The model assumes nothing about them except where a
lemma states a requirement:

- `utils.auth_checker`;
- `utils.refresh_access_token`;
- `json.loads`, where `None` stands for `ValueError`;
- `json.dumps`;
- `urllib.urlencode`;
- the `_get_path` hook;
- the transport.

`BaseClient`'s own `_get_path` always raises. It is `HapiTypes.UnimplementedPath`.

On the refreshed token: after a successful refresh, the new token is written only
into the request parameters. `self.access_token` is never assigned (line 60), so
the next call checks the old token again and refreshes again. The model follows
the code, and `Pipeline.TokenRefreshExample` shows it on a client object.

## Model

| member | source | states |
|---|---|---|
| `Strings.Split` | hapi/base.py:40 | `str.split('://')` always yields at least one piece; by construction it cuts at the leftmost occurrence each time |
| `Strings.FindFrom` | hapi/base.py:40 | the leftmost occurrence of the separator at or after a position, or none at all |
| `Strings.JoinSplit` | hapi/base.py:40 | joining the pieces with the separator gives back the original string |
| `Strings.SplitPiecesFree` | hapi/base.py:40 | no piece of the split contains the separator |
| `Strings.SplitWithoutSeparator` | hapi/base.py:40-41 | a string without `"://"` splits into itself alone |
| `Strings.SplitPiecesCount` | hapi/base.py:40-41 | there are several pieces exactly when the separator occurs; the string then starts with the first piece and the separator |
| `Strings.JoinEndsWithLast` | hapi/base.py:44 | the string ends with the last piece, which becomes the host |
| `Strings.JoinEndsWithSepLast` | hapi/base.py:44 | with two or more pieces, the string ends with the separator followed by the last piece |
| `Strings.SplitAfterPrefix` | hapi/base.py:40 | `a + "://" + b`, where `a` has no `':'`, splits into `a` followed by the pieces of `b` |
| `Config.ParseApiBase` | hapi/base.py:38-44 | a non-string `api_base` raises; a success has protocol `http` or `https` and a host without `"://"`; any other protocol raises as an unknown key |
| `Config.ParseApiBaseMeaning` | hapi/base.py:40-44 | without `"://"`: protocol `https` and the whole string as host; with it: the protocol is the text before the first separator and the host is the text after the last one (the string ends with `"://"` followed by the host, and the host holds no separator); a rejection names the text before the first separator |
| `Config.ParseApiBaseRoundTrip` | hapi/base.py:40-44 | `protocol://host`, for a supported protocol and any host without `"://"` (a port included), parses back to the same protocol and host |
| `Config.PortKeptInHost` | hapi/base.py:40-44 | `http://localhost:8080` parses to protocol `http` and host `localhost:8080` |
| `Config.EmptySchemeRejected` | hapi/base.py:41-42 | `"://host"` has the empty protocol and is rejected |
| `Config.DefaultApiBaseParses` | hapi/base.py:32-44 | the default `api.hubapi.com` parses to itself over `https` |
| `Config.InitialOptions` | hapi/base.py:32-35 | the options hold `api_base` (default `api.hubapi.com`), `timeout` and every extra option, and extra options win |
| `Config.ConnectionOptions` | hapi/base.py:38-44 | on success, adds `connection_type` and `protocol`, replaces `api_base` by the host and keeps every other option; it fails exactly when parsing fails, with the same error |
| `Config.CheckCredentials` | hapi/base.py:28-31 | passes exactly on accepted credentials; key and token together give the "both" error; none of key, token and refresh token gives the "missing" error |
| `Config.Configure` | hapi/base.py:23-36 | credentials fall back to the extra options; both or none are rejected; accepted credentials succeed exactly when `api_base` parses; on success the options are exactly those `ConnectionOptions` derives from the initial options (so protocol and host come from the configured `api_base`), they are prepared, their keys are the defaults, the connection keys and the extras, and `timeout` and the extras are kept |
| `Config.DefaultHostUsed` | hapi/base.py:32-44 | without an `api_base` extra option, accepted credentials give host `api.hubapi.com`, protocol `https` and the HTTPS connection class |
| `Config.RefreshTokenAloneAccepted` | hapi/base.py:25-31 | a refresh token alone passes construction |
| `Prepare.RefreshedToken` | hapi/base.py:58-60 | a token comes back exactly when the refresh returned text that decodes to a dict with an `access_token` entry, and it is that entry |
| `Prepare.AuthStep` | hapi/base.py:51-63 | exactly one credential key is added and every other parameter is kept; `hapikey` is the caller's if truthy, else the key, and `access_token` is neither added nor removed; the token path uses the caller's token if truthy, else the stored one; a check under 400 keeps it; a check of 400 or more succeeds exactly when the refresh yields a token, which replaces it, and a failure leaves the injected token |
| `Prepare.PortalStep` | hapi/base.py:65-66 | `portalId` is `hub_id` if truthy, else `portal_id`, set only when one of them is truthy; other keys are kept |
| `Prepare.BuildUrl` | hapi/base.py:67 | a truthy `url` option is used verbatim and the path hook is not asked; otherwise the URL is `'/' + path + '?' + urlencode(params, doseq)`, or fails when the hook raises; a URL is always truthy |
| `Prepare.ContentType` | hapi/base.py:69 | the content type written is the `content_type` option when truthy, else `application/json`, and so always truthy |
| `Prepare.HeadersFor` | hapi/base.py:68-69 | fails exactly on a truthy non-dict `headers` option; otherwise the caller's headers, with every key kept, plus `Content-Type`, which always overwrites |
| `Prepare.EncodeBody` | hapi/base.py:70-71 | the body is replaced by `json.dumps(data)` exactly when it is truthy, not a string, and the content type is `application/json`; otherwise it is unchanged |
| `Prepare.AfterAuth` | hapi/base.py:65-73 | the parameters gain at most `portalId`; the URL is built before the headers and the first of them that fails gives the error (the path error or the headers error); it succeeds exactly when both succeed, and a success carries the URL, the headers with the chosen `Content-Type`, and the encoded body |
| `Prepare.PrepareSpec` | hapi/base.py:49-73 | the refresh error is raised exactly when credential injection fails; the final parameters are the caller's keys plus the credential key, plus `portalId` when the later steps ran and a portal id is configured, with every other caller value kept and the credential as injected; after a successful injection the call succeeds exactly when URL and headers can be built, and a prepared request carries the URL built from the final parameters, the headers and the encoded body |
| `ResponseHandling.ExecuteRequest` | hapi/base.py:82-94 | no response raises the transport error carrying the request; a status under 400 returns the body; a status of 400 or more raises with the response and the request |
| `ResponseHandling.DigestResult` | hapi/base.py:96-103 | the result is the input or the decoding of a non-empty string input; a non-string or empty input is unchanged; a string is decoded when that succeeds, and is unchanged when it does not |
| `ResponseHandling.NotFoundIsApiError` | hapi/base.py:91-92 | a 404 response raises with that response and the original request |
| `ResponseHandling.JsonBodyRoundTrip` | hapi/base.py:96-103 | a non-string body sent as JSON goes out as its serialisation, and digesting that text returns the body when the JSON library decodes its own output |
| `Client.MergeOptions` | hapi/base.py:106-107 | the merged keys are the union; per-call options win; the client's other options are kept |
| `Client.CallSpec` | hapi/base.py:105-118 | the parameters are those of preparation; a preparation error is returned unchanged; otherwise the call succeeds exactly when a response came back with status under 400, the result is the digested body; no response raises the transport error and a status of 400 or more the API error, each carrying the request that was recorded |
| `Client.BaseClient.constructor` | hapi/base.py:23-35 | the fields hold the given credentials and options |
| `Client.BaseClient.Create` | hapi/base.py:15-36 | raises exactly the error `Configure` gives; otherwise yields a new valid client whose credentials and options are those `Configure` gives |
| `Client.BaseClient.PrepareConnectionType` | hapi/base.py:38-44 | on success the options become those `ConnectionOptions` gives; on failure nothing is written; credentials unchanged |
| `Client.BaseClient.PrepareRequest` | hapi/base.py:49-73 | the dictionary used ends as `PrepareSpec` says and the result is its outcome; a non-empty caller dictionary is the one updated in place, and an absent or empty one is replaced by a new dictionary, leaving the caller's empty; the client's fields, the stored token among them, are unchanged |
| `Client.BaseClient.InjectCredentials` | hapi/base.py:51-63 | updates the dictionary as `AuthStep` says and reports whether the refresh succeeded |
| `Client.BaseClient.FinishRequest` | hapi/base.py:65-73 | updates the dictionary and returns the outcome as `AfterAuth` says |
| `Client.BaseClient.Call` | hapi/base.py:105-118 | the dictionary and result are those of `CallSpec`; the client's options and credentials are unchanged and the client stays valid |
| `Pipeline.StaticKeyParameters` | hapi/base.py:50-52 | with a static key the final parameters hold `hapikey` (the caller's if truthy, else the key), gain no `access_token`, and keep every other caller key except `portalId` |
| `Pipeline.NoRefreshWhenCheckPasses` | hapi/base.py:53-56 | when the check is under 400 the refresh collaborator is not consulted, since any other one gives the same result, and the caller-or-stored token is kept |
| `Pipeline.RefreshFailureSendsNothing` | hapi/base.py:56-63 | a failed refresh fails the call with the refresh error, whatever the transport would answer |
| `Pipeline.BasePathHookFailsWithoutUrl` | hapi/base.py:46-47 | with the base class's hook, a call with its credentials in place fails with the path error exactly when no truthy `url` option is given (line 67) |
| `Pipeline.StaticKeyRequestExample` | hapi/base.py:49-73 | key `k1`, no parameters, and path `contacts/v1/lists`: URL `/contacts/v1/lists?` plus the encoding of `{hapikey: k1}`, the JSON content type, no body |
| `Pipeline.TokenRefreshParameters` | hapi/base.py:53-60 | a stored token rejected with 401 and a refresh decoding to `{access_token: new-token}` leave `access_token = new-token` in the parameters |
| `Pipeline.TokenRefreshExample` | hapi/base.py:56-60 | through `Call` on a valid client, the request carries `new-token` while the client's `access_token` field is still `old-token` |

## Left out

- Runtime mixin injection (hapi/base.py:17-21), which rewrites `self.__class__.__bases__`, is not modelled: Dafny has no counterpart to changing a class's bases at run time.
- Logging (lines 27, 61, 64, 86) and the traceback text attached to a transport error are left out. Line 64 is unreachable anyway.
- The Python 2.5 branches (lines 10, 33, 78, 112) are fixed to a newer Python: `timeout` is always in the options and always passed to the connection.
- Transport I/O is one collaborator, `send`: building the `httplib` connection, `conn.request`, `getresponse`, `read` and `close` (lines 75-90, 114-117). `None` stands only for `getresponse` raising. Exceptions from `conn.request` or `read` are not modelled.
- `RequestFor` (lines 75-80, `_create_request`) builds the recorded request with no contract of its own; it is used inside `CallSpec`. Its `host` is the `api_base` option, while the source records `conn.host`, which `httplib` derives from `api_base` by dropping a `:port` and IPv6 brackets; for `api_base = "localhost:8080"` the source's recorded host is `localhost`, the model's `localhost:8080`. The connection object is not modelled.
- The collaborators are total functions with no implementation here: `auth_checker`, `refresh_access_token`, `json.loads`, `json.dumps`, `urlencode` and the path hook. Exceptions from `auth_checker`, `json.dumps` (for example on data that cannot be serialised) and `urlencode` are not modelled.
- `json.loads` raising an exception other than `ValueError` inside `_digest_result` is not modelled.
- `PyValues.Value` has no floats, tuples or other objects, and dictionary keys are strings only.
- The `params` argument is a dictionary or `None`. A truthy non-dict `params`, which makes the source raise, is not modelled.
- The source updates a truthy `headers` option dictionary in place. That dictionary is shared with `self.options` through the shallow copy in `_call`. The model builds the returned headers as a new value, so this aliasing is not captured.
- The `str()` conversion in `'/%s?%s'` is left out: the path hook returns text.
- "Exactly one refresh" holds by construction: there is no loop, and the refresh collaborator is applied once. No lemma counts calls.
- The fallback of each credential to `extra_options` can only fire when the map holds keys that Python's keyword binding never puts there. The model accepts any map and states the fallback as written.
