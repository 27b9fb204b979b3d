/**
 * The HTTP client's two interceptors (services/api.ts): the request
 * interceptor that adds the bearer header, and the response interceptor
 * that turns every failure into an `ApiError`, clearing the session on 401.
 */
module Api {
  import opened Wrappers
  import opened Storage
  import Endpoints

  const DEFAULT_ERROR: string := "An unexpected error occurred"
  const AUTHORIZATION: string := "Authorization"
  const UNAUTHORIZED: int := 401
  const LOGIN_PATH: string := "/login"

  /** The headers every request starts with. */
  const DEFAULT_HEADERS: map<string, string> := map["Content-Type" := "application/json"]

  /** The fields of an error body the client reads; `None` stands for a missing or non-string field. */
  datatype ErrorData = ErrorData(error: Option<string>, message: Option<string>)

  /** `error.response`: the status and, when the body is truthy, its fields. */
  datatype ErrorResponse = ErrorResponse(status: int, data: Option<ErrorData>)

  /** What the network delivers for one request: a 2xx body, or a failure with or without a response. */
  datatype Reply<T> = Delivered(data: T) | Failed(response: Option<ErrorResponse>)

  /** A `POST` as it leaves the client: the full URL, the JSON body and the headers after the request interceptor. */
  datatype Request<B> = Post(url: string, body: B, headers: map<string, string>)

  /** The value every failed request is rejected with. */
  datatype ApiError = ApiError(error: string, message: Option<string>, status: Option<int>)

  /** JavaScript truthiness of an optional string. */
  predicate Truthy(o: Option<string>) {
    o.Some? && o.value != ""
  }

  predicate IsUnauthorized(response: Option<ErrorResponse>) {
    response.Some? && response.value.status == UNAUTHORIZED
  }

  /** `window.location.href` after a failed request: the login page on 401, otherwise as it was. */
  function LocationAfterFailure(href: string, response: Option<ErrorResponse>): string {
    if IsUnauthorized(response) then LOGIN_PATH else href
  }

  /** The request interceptor: adds `Authorization: Bearer <token>` when a non-empty token is stored. */
  function AuthorizeHeaders(headers: map<string, string>, token: Option<string>): (h: map<string, string>)
    ensures forall k :: k != AUTHORIZATION ==> (k in h <==> k in headers)
    ensures forall k :: k in headers && k != AUTHORIZATION ==> h[k] == headers[k]
    ensures Truthy(token) ==> AUTHORIZATION in h && h[AUTHORIZATION] == "Bearer " + token.value
    ensures !Truthy(token) ==> h == headers
  {
    if Truthy(token) then headers[AUTHORIZATION := "Bearer " + token.value] else headers
  }

  /**
   * `apiClient.post(endpoint, body)` with the store `items`: the endpoint is
   * resolved against the base URL and the stored token, if any, is attached.
   */
  function Outgoing<B>(endpoint: string, body: B, items: map<string, string>): (q: Request<B>)
    ensures q.url == Endpoints.API_BASE_URL + endpoint && q.body == body
    ensures q.headers == AuthorizeHeaders(DEFAULT_HEADERS, Get(items, TOKEN_KEY))
  {
    Post(Endpoints.API_BASE_URL + endpoint, body, AuthorizeHeaders(DEFAULT_HEADERS, Get(items, TOKEN_KEY)))
  }

  /** The `ApiError` the response interceptor builds from `error.response`. */
  function ToApiError(response: Option<ErrorResponse>): (e: ApiError)
    ensures e.error != ""
    ensures e.status == (if response.Some? then Some(response.value.status) else None)
    ensures response.None? || response.value.data.None? ==> e == ApiError(DEFAULT_ERROR, None, e.status)
    ensures response.Some? && response.value.data.Some? ==>
              var d := response.value.data.value;
              && e.message == d.message
              && (Truthy(d.error) ==> e.error == d.error.value)
              && (!Truthy(d.error) && Truthy(d.message) ==> e.error == d.message.value)
              && (!Truthy(d.error) && !Truthy(d.message) ==> e.error == DEFAULT_ERROR)
  {
    var status := if response.Some? then Some(response.value.status) else None;
    if response.Some? && response.value.data.Some? then
      var d := response.value.data.value;
      var text := if Truthy(d.error) then d.error.value
                  else if Truthy(d.message) then d.message.value
                  else DEFAULT_ERROR;
      ApiError(text, d.message, status)
    else
      ApiError(DEFAULT_ERROR, None, status)
  }

  /** The failure branch of the response interceptor. */
  method RejectError(browser: Browser, response: Option<ErrorResponse>) returns (e: ApiError)
    modifies browser
    ensures e == ToApiError(response)
    ensures IsUnauthorized(response) ==>
              browser.items == old(browser.items) - {TOKEN_KEY, USER_KEY} && browser.href == LOGIN_PATH
    ensures !IsUnauthorized(response) ==>
              browser.items == old(browser.items) && browser.href == old(browser.href)
  {
    e := ToApiError(response);
    if IsUnauthorized(response) {
      browser.RemoveItem(TOKEN_KEY);
      browser.RemoveItem(USER_KEY);
      browser.Assign(LOGIN_PATH);
      assert browser.items == old(browser.items) - {TOKEN_KEY} - {USER_KEY};
    }
  }

  /**
   * `apiClient.post(endpoint, body)` through both interceptors: `request` is
   * what goes over the wire; a delivered body passes through unchanged and
   * every failure rejects.
   */
  method Send<B, T>(browser: Browser, endpoint: string, body: B, reply: Reply<T>)
    returns (request: Request<B>, r: Result<T, ApiError>)
    modifies browser
    ensures request == Outgoing(endpoint, body, old(browser.items))
    ensures reply.Delivered? ==>
              r == Ok(reply.data) && browser.items == old(browser.items) && browser.href == old(browser.href)
    ensures reply.Failed? ==> r == Err(ToApiError(reply.response))
    ensures reply.Failed? && IsUnauthorized(reply.response) ==>
              browser.items == old(browser.items) - {TOKEN_KEY, USER_KEY} && browser.href == LOGIN_PATH
    ensures reply.Failed? && !IsUnauthorized(reply.response) ==>
              browser.items == old(browser.items) && browser.href == old(browser.href)
  {
    request := Post(Endpoints.API_BASE_URL + endpoint, body, AuthorizeHeaders(DEFAULT_HEADERS, Get(browser.items, TOKEN_KEY)));
    match reply
    case Delivered(data) =>
      r := Ok(data);
    case Failed(response) =>
      var e := RejectError(browser, response);
      r := Err(e);
  }
}
