/**
 * The blueprint's error handlers: each turns one exception kind into a JSON
 * error envelope `{"errors": [error.as_dict()]}` with the error's HTTP status,
 * and only the registry-exception handler may add authentication challenges.
 */
module ErrorHandlers {
  import opened Base
  import opened V2Errors
  import opened Http

  /** The registry error each handled exception is reported as. */
  function MappedError(ex: RaisedException, statuses: ErrorStatuses): (e: V2Error)
    ensures ex.RegistryException? ==> e == ex.error
    ensures ex.ReadOnlyModeException? ==> e.kind == ReadOnlyMode && e.status == statuses.readOnlyMode
    ensures ex.UpstreamRegistryError? ==>
      e.kind == InvalidRequest && e.message == Some(ex.text) && e.status == statuses.invalidRequest
    ensures ex.QuotaExceededException? ==> e.kind == QuotaExceeded && e.status == statuses.quotaExceeded
    ensures !ex.RegistryException? ==> e.repository.None? && e.scopes.None? && e.detail.None?
  {
    match ex
    case RegistryException(error) => error
    case ReadOnlyModeException => V2Error(ReadOnlyMode, None, None, None, None, statuses.readOnlyMode)
    case UpstreamRegistryError(text) =>
      V2Error(InvalidRequest, Some(text), None, None, None, statuses.invalidRequest)
    case QuotaExceededException => V2Error(QuotaExceeded, None, None, None, None, statuses.quotaExceeded)
  }

  /** The response the handler registered for `ex` returns. `authHeaders` is
      `get_auth_headers(repository=..., scopes=...)`. */
  function MappedResponse(
    ex: RaisedException,
    statuses: ErrorStatuses,
    authHeaders: (Option<string>, Option<seq<string>>) -> seq<(string, string)>): (r: ResponseState)
    ensures r.body == ErrorEnvelope([MappedError(ex, statuses)])
    ensures r.status == MappedError(ex, statuses).status
    ensures !(ex.RegistryException? && ex.error.status == 401) ==> r.headers == JsonHeaders()
    ensures ex.RegistryException? && ex.error.status == 401 ==>
      r.headers.Keys == JsonHeaders().Keys + NamesOf(authHeaders(ex.error.repository, ex.error.scopes))
  {
    var e := MappedError(ex, statuses);
    var challenged := ex.RegistryException? && e.status == 401;
    ResponseState(
      ErrorEnvelope([e]),
      e.status,
      if challenged then Extended(JsonHeaders(), authHeaders(e.repository, e.scopes)) else JsonHeaders())
  }

  /** Every handler answers with a one-error envelope whose status is that error's. */
  lemma EnvelopeCarriesOneError(
    ex: RaisedException,
    statuses: ErrorStatuses,
    authHeaders: (Option<string>, Option<seq<string>>) -> seq<(string, string)>)
    ensures var r := MappedResponse(ex, statuses, authHeaders);
      r.body.ErrorEnvelope? && |r.body.errors| == 1 && r.body.errors[0].status == r.status
  {
  }

  /** Challenge headers appear only for a registry exception whose status is 401;
      then every header name gets exactly the challenge values for it appended. */
  lemma {:induction false} ChallengeOnlyOn401(
    ex: RaisedException,
    statuses: ErrorStatuses,
    authHeaders: (Option<string>, Option<seq<string>>) -> seq<(string, string)>,
    name: string)
    ensures var r := MappedResponse(ex, statuses, authHeaders);
      Values(r.headers, name) == Values(JsonHeaders(), name) +
        (if ex.RegistryException? && ex.error.status == 401
         then ValuesNamed(authHeaders(ex.error.repository, ex.error.scopes), name)
         else [])
  {
    var e := MappedError(ex, statuses);
    if ex.RegistryException? && e.status == 401 {
      ExtendedAppends(JsonHeaders(), authHeaders(e.repository, e.scopes), name);
    } else {
      assert Values(JsonHeaders(), name) + [] == Values(JsonHeaders(), name);
    }
  }

  /** `_format_error_response`: the envelope for `error` with its status. */
  method FormatErrorResponse(error: V2Error) returns (r: Response)
    ensures fresh(r)
    ensures r.body == ErrorEnvelope([error]) && r.status == error.status && r.headers == JsonHeaders()
  {
    r := new Response.Jsonify(ErrorEnvelope([error]));
    r.status := error.status;
  }

  /** `handle_registry_v2_exception`. */
  method HandleRegistryV2Exception(
    error: V2Error,
    authHeaders: (Option<string>, Option<seq<string>>) -> seq<(string, string)>,
    ghost statuses: ErrorStatuses)
    returns (r: Response)
    ensures fresh(r)
    ensures r.State() == MappedResponse(RegistryException(error), statuses, authHeaders)
  {
    r := new Response.Jsonify(ErrorEnvelope([error]));
    r.status := error.status;
    if r.status == 401 {
      r.Extend(authHeaders(error.repository, error.scopes));
    }
  }

  /** `handle_readonly`. */
  method HandleReadonly(
    statuses: ErrorStatuses,
    ghost authHeaders: (Option<string>, Option<seq<string>>) -> seq<(string, string)>)
    returns (r: Response)
    ensures fresh(r)
    ensures r.State() == MappedResponse(ReadOnlyModeException, statuses, authHeaders)
  {
    r := FormatErrorResponse(V2Error(ReadOnlyMode, None, None, None, None, statuses.readOnlyMode));
  }

  /** `handle_proxy_cache_error`. */
  method HandleProxyCacheError(
    text: string,
    statuses: ErrorStatuses,
    ghost authHeaders: (Option<string>, Option<seq<string>>) -> seq<(string, string)>)
    returns (r: Response)
    ensures fresh(r)
    ensures r.State() == MappedResponse(UpstreamRegistryError(text), statuses, authHeaders)
  {
    r := FormatErrorResponse(V2Error(InvalidRequest, Some(text), None, None, None, statuses.invalidRequest));
  }

  /** `handle_quota_error`. */
  method HandleQuotaError(
    statuses: ErrorStatuses,
    ghost authHeaders: (Option<string>, Option<seq<string>>) -> seq<(string, string)>)
    returns (r: Response)
    ensures fresh(r)
    ensures r.State() == MappedResponse(QuotaExceededException, statuses, authHeaders)
  {
    r := FormatErrorResponse(V2Error(QuotaExceeded, None, None, None, None, statuses.quotaExceeded));
  }
}
