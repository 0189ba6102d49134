/**
 * The HTTP machinery shared by the e-mail provider clients
 * (app/clients/base_client.py, repeated in
 * app/clients/postal_client/client.py): URL joining, the session
 * precondition, status classification, the timeout conversion and the
 * retry policy of `_make_request`.
 */
module HttpBase {
  import opened Wrappers
  import opened Text
  import opened Json
  import opened Retry

  /** Attempts `_make_request` makes at most. */
  const MaxAttempts := 3

  datatype Provider = UnisenderGo | Postal

  /**
   * The exceptions a request can end with. `ProviderError` is the
   * provider's base class (UnisenderGoError or PostalError);
   * `RequestException` is a transport error of the HTTP library, re-raised
   * as is; `SessionMissing` is the RuntimeError of a client used outside
   * its context manager.
   */
  datatype ClientError =
    | AuthenticationError
    | RateLimitError
    | ValidationError
    | ProviderError(message: string)
    | RequestException
    | SessionMissing
    | InvalidResponse
    | DumpFailed(message: string)

  /** What the network does with one request: time out, fail otherwise, or answer (a body that is not JSON is `None`). */
  datatype Wire = Timeout | ConnectionFailed | Reply(status: int, body: Option<Json>)

  /** `response.ok`: false exactly for 4xx and 5xx statuses. */
  predicate IsOk(status: int) {
    !(400 <= status < 600)
  }

  /**
   * `_handle_response_errors`, checked in order: 401, 429, the validation
   * statuses (400 and 422 for Unisender Go, 422 only for Postal), then any
   * other status that is not ok.
   */
  function Classify(p: Provider, status: int): (e: Option<ClientError>)
    ensures e.None? <==> IsOk(status)
    ensures status == 401 ==> e == Some(AuthenticationError)
    ensures status == 429 ==> e == Some(RateLimitError)
    ensures e == Some(ValidationError) <==> status == 422 || (p == UnisenderGo && status == 400)
    ensures e.Some? && !e.value.ProviderError? ==> status in {400, 401, 422, 429}
  {
    if status == 401 then Some(AuthenticationError)
    else if status == 429 then Some(RateLimitError)
    else if status == 422 || (p == UnisenderGo && status == 400) then Some(ValidationError)
    else if !IsOk(status) then Some(ProviderError("Request failed with status " + IntToString(status)))
    else None
  }

  /** The retry predicate: rate limiting and transport errors only. */
  predicate Retryable(e: ClientError) {
    e.RateLimitError? || e.RequestException?
  }

  /** Of the statuses, only 429 leads to another attempt. */
  lemma OnlyRateLimitStatusRetried(p: Provider, status: int)
    requires Classify(p, status).Some?
    ensures Retryable(Classify(p, status).value) <==> status == 429
  {
  }

  /**
   * One attempt of `_make_request`: the session check, the request, the
   * status check and the JSON decoding. A timeout becomes the provider's
   * base error; a body that does not decode is a transport error of the
   * HTTP library.
   */
  function AttemptResult(p: Provider, hasSession: bool, w: Wire): (r: Result<Json, ClientError>)
    ensures !hasSession ==> r == Err(SessionMissing)
    ensures hasSession && w.Timeout? ==> r.Err? && r.error.ProviderError?
    ensures r.Ok? <==> hasSession && w.Reply? && IsOk(w.status) && w.body.Some?
  {
    if !hasSession then Err(SessionMissing)
    else match w
      case Timeout => Err(ProviderError("Request timeout"))
      case ConnectionFailed => Err(RequestException)
      case Reply(status, body) =>
        var e := Classify(p, status);
        if e.Some? then Err(e.value)
        else if body.None? then Err(RequestException)
        else Ok(body.value)
  }

  function ErrorOf<T>(r: Result<T, ClientError>): Option<ClientError> {
    if r.Err? then Some(r.error) else None
  }

  /** The error of each allowed attempt, when the network behaves as `wire`. */
  function AttemptErrors(p: Provider, hasSession: bool, wire: nat -> Wire): seq<Option<ClientError>> {
    seq(MaxAttempts, k requires 0 <= k < MaxAttempts => ErrorOf(AttemptResult(p, hasSession, wire(k))))
  }

  /** How many attempts `_make_request` makes. */
  function Attempts(p: Provider, hasSession: bool, wire: nat -> Wire): (n: nat)
    ensures 1 <= n <= MaxAttempts
  {
    AttemptCount(AttemptErrors(p, hasSession, wire), Retryable, MaxAttempts, 0)
  }

  /** What `_make_request` returns or raises: the outcome of its last attempt. */
  function Exchanged(p: Provider, hasSession: bool, wire: nat -> Wire): (r: Result<Json, ClientError>)
    ensures ErrorOf(r) == Final(AttemptErrors(p, hasSession, wire), Retryable, MaxAttempts)
  {
    AttemptResult(p, hasSession, wire(Attempts(p, hasSession, wire) - 1))
  }

  /** A timeout ends the call at once with the provider's base error. */
  lemma TimeoutNotRetried(p: Provider, wire: nat -> Wire)
    requires wire(0) == Timeout
    ensures Attempts(p, true, wire) == 1
    ensures Exchanged(p, true, wire) == Err(ProviderError("Request timeout"))
  {
    NotRetried(AttemptErrors(p, true, wire), Retryable, MaxAttempts);
  }

  /** Without a session nothing is sent: one attempt, raising RuntimeError. */
  lemma NoSessionNoRequest(p: Provider, wire: nat -> Wire)
    ensures Attempts(p, false, wire) == 1
    ensures Exchanged(p, false, wire) == Err(SessionMissing)
  {
    NotRetried(AttemptErrors(p, false, wire), Retryable, MaxAttempts);
  }

  /** `f"{api_url}/{endpoint.lstrip('/')}"`. */
  function Url(apiUrl: string, endpoint: string): string {
    apiUrl + "/" + LStripChar(endpoint, '/')
  }

  /**
   * With the base URL stripped of trailing slashes at construction, the
   * joined URL has exactly one slash between base and endpoint.
   */
  lemma OneSlashAtJoin(rawUrl: string, endpoint: string)
    ensures var base := RStripChar(rawUrl, '/');
      var u := Url(base, endpoint);
      && u[..|base|] == base && u[|base|] == '/'
      && (|base| > 0 ==> u[|base| - 1] != '/')
      && (|u| > |base| + 1 ==> u[|base| + 1] != '/')
      && u[|base| + 1..] == LStripChar(endpoint, '/')
  {
  }

  /**
   * `_make_request` under `@retry(stop_after_attempt(3), reraise=True)`:
   * returns the decoded body or raises, having sent `sent` requests.
   */
  method Exchange(p: Provider, hasSession: bool, wire: nat -> Wire) returns (r: Result<Json, ClientError>, sent: nat)
    ensures r == Exchanged(p, hasSession, wire)
    ensures sent == (if hasSession then Attempts(p, hasSession, wire) else 0)
  {
    var errors := AttemptErrors(p, hasSession, wire);
    var attempt := 0;
    sent := 0;
    while true
      invariant 0 <= attempt < MaxAttempts
      invariant forall j :: 0 <= j < attempt ==> Again(errors, Retryable, MaxAttempts, j)
      invariant sent == (if hasSession then attempt else 0)
      decreases MaxAttempts - attempt
    {
      r := AttemptResult(p, hasSession, wire(attempt));
      if hasSession {
        sent := sent + 1;
      }
      if !Again(errors, Retryable, MaxAttempts, attempt) {
        StoppedAfter(errors, Retryable, MaxAttempts, 0, attempt);
        return;
      }
      attempt := attempt + 1;
    }
  }
}
