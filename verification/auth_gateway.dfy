/**
 * The client's session gateway (services/authService.ts): the four remote
 * calls, the two-key session store in `localStorage`, and the local
 * "is the session still valid" check on the token's `exp` claim.
 */
module AuthGateway {
  import opened Wrappers
  import opened Types
  import opened Storage
  import opened Api
  import UserJson
  import Endpoints

  /** What a caller can see thrown by an awaited client call. */
  datatype Thrown =
    | Remote(apiError: ApiError)   // the rejection built by the response interceptor
    | UnreadableUser               // `JSON.parse` of the stored user entry threw

  /**
   * The result of `JSON.parse(atob(token.split(".")[1]))`: either it throws,
   * or it yields a payload whose `exp` is a number or missing.
   */
  datatype Claims = Undecodable | Payload(exp: Option<int>)

  /** `getToken()`. */
  function GetToken(items: map<string, string>): (r: Option<string>)
    ensures r.Some? <==> TOKEN_KEY in items
    ensures r.Some? ==> r.value == items[TOKEN_KEY]
  {
    Get(items, TOKEN_KEY)
  }

  /** `getUser()`: no entry, `""` or `null` read as no user; anything unparseable throws. */
  function GetUser(items: map<string, string>): (r: Result<Option<User>, Thrown>)
    ensures USER_KEY !in items ==> r == Ok(None)
    ensures r.Err? ==> r.error == UnreadableUser
    ensures r.Ok? && r.value.Some? ==> USER_KEY in items && items[USER_KEY] == UserJson.Stringify(r.value.value)
  {
    match Get(items, USER_KEY)
    case None => Ok(None)
    case Some(text) =>
      if text == "" || text == "null" then Ok(None)
      else
        match UserJson.Parse(text)
        case Some(u) => Ok(Some(u))
        case None => Err(UnreadableUser)
  }

  /**
   * `isTokenExpired(token)`: fail-closed on any decoding failure; otherwise
   * `payload.exp < Date.now() / 1000`, where a missing `exp` compares false.
   */
  function IsTokenExpired(token: string, decode: string -> Claims, nowMs: int): (r: bool)
    ensures decode(token).Undecodable? ==> r
    ensures r ==> decode(token).Undecodable? || decode(token).exp.Some?
  {
    match decode(token)
    case Undecodable => true
    case Payload(None) => false
    case Payload(Some(exp)) => (exp as real) < (nowMs as real) / 1000.0
  }

  /** The expiry test in whole numbers: expired exactly when `exp` seconds lie strictly before `nowMs` milliseconds. */
  lemma ExpiryInMilliseconds(token: string, decode: string -> Claims, nowMs: int)
    ensures decode(token).Undecodable? ==> IsTokenExpired(token, decode, nowMs)
    ensures decode(token).Payload? && decode(token).exp.Some? ==>
              (IsTokenExpired(token, decode, nowMs) <==> decode(token).exp.value * 1000 < nowMs)
  {
    match decode(token)
    case Undecodable =>
    case Payload(None) =>
    case Payload(Some(exp)) =>
      var e, n := exp as real, nowMs as real;
      assert e < n / 1000.0 <==> e * 1000.0 < n;
      assert (exp * 1000) as real == e * 1000.0;
  }

  /** `isAuthenticated()`: a non-empty token is stored and it is not expired. */
  function IsAuthenticated(items: map<string, string>, decode: string -> Claims, nowMs: int): (b: bool)
    ensures b <==> TOKEN_KEY in items && items[TOKEN_KEY] != "" && !IsTokenExpired(items[TOKEN_KEY], decode, nowMs)
  {
    var token := GetToken(items);
    Truthy(token) && !IsTokenExpired(token.value, decode, nowMs)
  }

  /** The store after `setAuthData(r)`. */
  function WithAuthData(items: map<string, string>, r: AuthResponse): map<string, string> {
    items[TOKEN_KEY := r.token][USER_KEY := UserJson.Stringify(UserOf(r))]
  }

  /** The store after `clearAuthData()`. */
  function WithoutAuthData(items: map<string, string>): map<string, string> {
    items - {TOKEN_KEY, USER_KEY}
  }

  /** After `setAuthData(r)`, `getToken()` is `r.token` and `getUser()` is exactly the six-field projection of `r`. */
  lemma ReadBackAuthData(items: map<string, string>, r: AuthResponse)
    ensures GetToken(WithAuthData(items, r)) == Some(r.token)
    ensures GetUser(WithAuthData(items, r)) == Ok(Some(UserOf(r)))
  {
    var text := UserJson.Stringify(UserOf(r));
    UserJson.ParseStringify(UserOf(r));
    assert text[0] == '{';
  }

  /** `setAuthData` writes the two session keys and nothing else. */
  lemma AuthDataFrame(items: map<string, string>, r: AuthResponse, key: string)
    requires key != TOKEN_KEY && key != USER_KEY
    ensures Get(WithAuthData(items, r), key) == Get(items, key)
    ensures Get(WithoutAuthData(items), key) == Get(items, key)
  {
  }

  /** After `clearAuthData()` there is no token and no user, the session is invalid, and clearing again changes nothing. */
  lemma ClearedSession(items: map<string, string>, decode: string -> Claims, nowMs: int)
    ensures GetToken(WithoutAuthData(items)) == None
    ensures GetUser(WithoutAuthData(items)) == Ok(None)
    ensures !IsAuthenticated(WithoutAuthData(items), decode, nowMs)
    ensures WithoutAuthData(WithoutAuthData(items)) == WithoutAuthData(items)
  {
  }

  /** `setAuthData(r)`. */
  method SetAuthData(browser: Browser, r: AuthResponse)
    modifies browser
    ensures browser.items == WithAuthData(old(browser.items), r)
    ensures browser.href == old(browser.href)
  {
    browser.SetItem(TOKEN_KEY, r.token);
    var user := UserOf(r);
    browser.SetItem(USER_KEY, UserJson.Stringify(user));
  }

  /** `clearAuthData()`. */
  method ClearAuthData(browser: Browser)
    modifies browser
    ensures browser.items == WithoutAuthData(old(browser.items))
    ensures browser.href == old(browser.href)
  {
    browser.RemoveItem(TOKEN_KEY);
    browser.RemoveItem(USER_KEY);
    assert browser.items == old(browser.items) - {TOKEN_KEY} - {USER_KEY};
  }

  /** `logout()`: clears the session and navigates to the login page; no remote call, cannot fail. */
  method Logout(browser: Browser)
    modifies browser
    ensures browser.items == WithoutAuthData(old(browser.items))
    ensures browser.href == LOGIN_PATH
  {
    ClearAuthData(browser);
    browser.Assign(LOGIN_PATH);
  }

  /** The store after a failed request: the 401 rule of the response interceptor. */
  function AfterFailure(items: map<string, string>, response: Option<ErrorResponse>): map<string, string> {
    if IsUnauthorized(response) then WithoutAuthData(items) else items
  }

  /**
   * The shared tail of `login` and `verifyEmail`: the reply is persisted only
   * when it carries a non-empty token.
   */
  method PersistIfToken<B>(browser: Browser, endpoint: string, body: B, reply: Reply<AuthResponse>)
    returns (request: Request<B>, r: Result<AuthResponse, Thrown>)
    modifies browser
    ensures request == Outgoing(endpoint, body, old(browser.items))
    ensures reply.Failed? ==> r == Err(Remote(ToApiError(reply.response)))
    ensures reply.Failed? ==> browser.items == AfterFailure(old(browser.items), reply.response)
    ensures reply.Delivered? ==> r == Ok(reply.data)
    ensures browser.href == (if reply.Failed? then LocationAfterFailure(old(browser.href), reply.response) else old(browser.href))
    ensures reply.Delivered? && reply.data.token != "" ==> browser.items == WithAuthData(old(browser.items), reply.data)
    ensures reply.Delivered? && reply.data.token == "" ==> browser.items == old(browser.items)
  {
    var sent;
    request, sent := Send(browser, endpoint, body, reply);
    match sent
    case Err(e) =>
      r := Err(Remote(e));
    case Ok(data) =>
      if data.token != "" {
        SetAuthData(browser, data);
      }
      r := Ok(data);
  }

  /** `authService.login(credentials)`. */
  method Login(browser: Browser, credentials: LoginCredentials, reply: Reply<AuthResponse>)
    returns (request: Request<LoginCredentials>, r: Result<AuthResponse, Thrown>)
    modifies browser
    ensures request == Outgoing(Endpoints.LOGIN, credentials, old(browser.items))
    ensures reply.Failed? ==> r == Err(Remote(ToApiError(reply.response)))
    ensures reply.Failed? ==> browser.items == AfterFailure(old(browser.items), reply.response)
    ensures reply.Delivered? ==> r == Ok(reply.data)
    ensures browser.href == (if reply.Failed? then LocationAfterFailure(old(browser.href), reply.response) else old(browser.href))
    ensures reply.Delivered? && reply.data.token != "" ==> browser.items == WithAuthData(old(browser.items), reply.data)
    ensures reply.Delivered? && reply.data.token == "" ==> browser.items == old(browser.items)
  {
    request, r := PersistIfToken(browser, Endpoints.LOGIN, credentials, reply);
  }

  /** `authService.verifyEmail({email, code})`: the same persistence rule as `login`. */
  method VerifyEmail(browser: Browser, email: string, code: string, reply: Reply<AuthResponse>)
    returns (request: Request<VerificationData>, r: Result<AuthResponse, Thrown>)
    modifies browser
    ensures request == Outgoing(Endpoints.VERIFY_EMAIL, VerificationData(email, code), old(browser.items))
    ensures reply.Failed? ==> r == Err(Remote(ToApiError(reply.response)))
    ensures reply.Failed? ==> browser.items == AfterFailure(old(browser.items), reply.response)
    ensures reply.Delivered? ==> r == Ok(reply.data)
    ensures browser.href == (if reply.Failed? then LocationAfterFailure(old(browser.href), reply.response) else old(browser.href))
    ensures reply.Delivered? && reply.data.token != "" ==> browser.items == WithAuthData(old(browser.items), reply.data)
    ensures reply.Delivered? && reply.data.token == "" ==> browser.items == old(browser.items)
  {
    request, r := PersistIfToken(browser, Endpoints.VERIFY_EMAIL, VerificationData(email, code), reply);
  }

  /** `authService.register(userData)`: writes nothing to the store (only the 401 rule can clear it). */
  method Register(browser: Browser, data: RegisterData, reply: Reply<RegisterReply>)
    returns (request: Request<RegisterData>, r: Result<RegisterReply, Thrown>)
    modifies browser
    ensures request == Outgoing(Endpoints.REGISTER, data, old(browser.items))
    ensures reply.Delivered? ==> r == Ok(reply.data)
    ensures reply.Failed? ==> r == Err(Remote(ToApiError(reply.response)))
    ensures browser.items == (if reply.Failed? then AfterFailure(old(browser.items), reply.response) else old(browser.items))
    ensures browser.href == (if reply.Failed? then LocationAfterFailure(old(browser.href), reply.response) else old(browser.href))
  {
    var sent;
    request, sent := Send(browser, Endpoints.REGISTER, data, reply);
    r := match sent case Ok(body) => Ok(body) case Err(e) => Err(Remote(e));
  }

  /** `authService.resendVerificationCode(email)`: writes nothing to the store (only the 401 rule can clear it). */
  method ResendVerificationCode(browser: Browser, email: string, reply: Reply<MessageReply>)
    returns (request: Request<EmailBody>, r: Result<MessageReply, Thrown>)
    modifies browser
    ensures request == Outgoing(Endpoints.RESEND_CODE, EmailBody(email), old(browser.items))
    ensures reply.Delivered? ==> r == Ok(reply.data)
    ensures reply.Failed? ==> r == Err(Remote(ToApiError(reply.response)))
    ensures browser.items == (if reply.Failed? then AfterFailure(old(browser.items), reply.response) else old(browser.items))
    ensures browser.href == (if reply.Failed? then LocationAfterFailure(old(browser.href), reply.response) else old(browser.href))
  {
    var sent;
    request, sent := Send(browser, Endpoints.RESEND_CODE, EmailBody(email), reply);
    r := match sent case Ok(body) => Ok(body) case Err(e) => Err(Remote(e));
  }
}
