/**
 * Response interpretation (hapi/base.py): the status rule at the end of
 * `_execute_request` and `_digest_result`.
 */
module ResponseHandling {
  import opened Wrappers
  import opened PyValues
  import opened HapiTypes
  import Prepare

  /** Statuses from this value up are errors. */
  const ErrorStatus := 400

  /** `_execute_request` after the response has been obtained (or not): a failure to
      get the response, or a status of 400 or more, raises; otherwise the body is
      returned. */
  function ExecuteRequest(response: Option<Response>, request: Request): (r: Result<Value, Error>)
    ensures response.None? ==> r == Failure(TransportFailed(request))
    ensures response.Some? ==> (r.Success? <==> response.value.status < ErrorStatus)
    ensures r.Success? ==> response.Some? && r.value == VStr(response.value.body)
    ensures response.Some? && r.Failure? ==> r.error == ApiError(response.value, request)
  {
    match response
    case None => Failure(TransportFailed(request))
    case Some(result) =>
      if result.status >= ErrorStatus then Failure(ApiError(result, request)) else Success(VStr(result.body))
  }

  /** `_digest_result`: a non-empty string is replaced by its JSON decoding when that
      succeeds; anything else, and a string that does not decode, comes back as it is.
      It never raises. */
  function DigestResult(data: Value, loads: string -> Option<Value>): (r: Value)
    ensures r == data || (data.VStr? && data.s != "" && loads(data.s) == Some(r))
    ensures !(Truthy(data) && data.VStr?) ==> r == data
    ensures data.VStr? && data.s != "" && loads(data.s).Some? ==> r == loads(data.s).value
    ensures data.VStr? && loads(data.s).None? ==> r == data
  {
    if Truthy(data) && data.VStr? then
      match loads(data.s)
      case Some(decoded) => decoded
      case None => data
    else data
  }

  /** A 404 response is reported with the response and the original request. */
  lemma NotFoundIsApiError(body: string, request: Request)
    ensures ExecuteRequest(Some(Response(404, body)), request) == Failure(ApiError(Response(404, body), request))
  {
  }

  /** A JSON body round trip: a body that is not a string, sent with the default JSON
      content type, goes out as its serialisation; when the JSON library decodes its
      own non-empty output back to the value, digesting that text returns it. */
  lemma JsonBodyRoundTrip(v: Value, env: Collaborators)
    requires Truthy(v) && !v.VStr?
    requires env.dumps(v) != "" && env.loads(env.dumps(v)) == Some(v)
    ensures Prepare.EncodeBody(v, VStr(Prepare.JsonContentType), env) == VStr(env.dumps(v))
    ensures DigestResult(Prepare.EncodeBody(v, VStr(Prepare.JsonContentType), env), env.loads) == v
  {
  }
}
