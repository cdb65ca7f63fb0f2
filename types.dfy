/**
 * Values shared by the stages of the client: its credentials, the collaborators it
 * calls but does not implement, the request record kept for error reports, the
 * response it reads, and the errors it raises.
 */
module HapiTypes {
  import opened Wrappers
  import opened PyValues

  /** The four credential fields of a client (`api_key`, `access_token`,
      `refresh_token`, `client_id`). */
  datatype Credentials = Credentials(apiKey: Value, accessToken: Value, refreshToken: Value, clientId: Value)

  /** What the client sends: the record `_create_request` builds after issuing the request
      (`verb` is its `method` entry). */
  datatype Request = Request(
    verb: Value, url: Value, data: Value, headers: map<string, Value>, host: Value, timeout: Value)

  /** A response as read from the connection: status code and body text. */
  datatype Response = Response(status: int, body: string)

  /**
   * The collaborators, as functions of their inputs:
   * - `authChecker`: `utils.auth_checker(token)`, a status-like integer;
   * - `refreshAccessToken`: `utils.refresh_access_token(refresh_token, client_id)`,
   *   `None` when it raises;
   * - `loads`: `json.loads` on text, `None` when it raises `ValueError`;
   * - `dumps`: `json.dumps`;
   * - `urlencode`: `urllib.urlencode(params, doseq)`;
   * - `getPath`: the `_get_path` hook of the concrete client, `None` when it raises;
   * - `send`: open a connection of the given class, send the request and read the
   *   response, `None` when reading the response raises.
   */
  datatype Collaborators = Collaborators(
    authChecker: Value -> int,
    refreshAccessToken: (Value, Value) -> Option<Value>,
    loads: string -> Option<Value>,
    dumps: Value -> string,
    urlencode: (map<string, Value>, bool) -> string,
    getPath: string -> Option<string>,
    send: (Value, Request) -> Option<Response>)

  /** The `_get_path` of `BaseClient` itself: it always raises. */
  function UnimplementedPath(subpath: string): Option<string> {
    None
  }

  /** The exceptions the client raises. */
  datatype Error =
    | BothCredentials                 // "Cannot use both api_key and access_token."
    | MissingCredentials              // "Missing required credentials."
    | ApiBaseNotString                // `.split` on an `api_base` that is not a string
    | UnknownProtocol(protocol: string) // `connection_types[protocol]` raises KeyError
    | PathUnavailable                 // `_get_path` raised
    | RefreshFailed                   // "Couldn't refresh the access token, ..."
    | HeadersNotDict                  // `.update` on a `headers` option that is not a dict
    | TransportFailed(request: Request) // HapiError(None, request, traceback)
    | ApiError(response: Response, request: Request) // HapiError(result, request)
}
