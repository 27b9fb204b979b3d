/**
 * The client's session state machine (context/AuthContext.tsx): the
 * reducer over `{isAuthenticated, user, loading}` and the provider's
 * operations, each a sequence of dispatches around a gateway call.
 */
module AuthContext {
  import opened Wrappers
  import opened Types
  import opened Storage
  import opened Api
  import opened AuthGateway
  import Endpoints

  datatype AuthState = AuthState(isAuthenticated: bool, user: Option<User>, loading: bool)

  datatype AuthAction =
    | SetLoading(loading: bool)
    | SetAuthenticated(user: User)
    | SetUnauthenticated

  /** `initialState`. */
  const INITIAL_STATE: AuthState := AuthState(false, None, true)

  /** The state invariant: authenticated exactly when a user snapshot is held. */
  predicate Consistent(s: AuthState) {
    s.isAuthenticated <==> s.user.Some?
  }

  /** `authReducer`. */
  function Reduce(s: AuthState, a: AuthAction): (r: AuthState)
    ensures Consistent(s) ==> Consistent(r)
    ensures a.SetLoading? ==> r.isAuthenticated == s.isAuthenticated && r.user == s.user && r.loading == a.loading
    ensures !a.SetLoading? ==> !r.loading && Consistent(r)
    ensures a.SetAuthenticated? ==> r.user == Some(a.user)
    ensures a.SetUnauthenticated? ==> !r.isAuthenticated
  {
    match a
    case SetLoading(loading) => s.(loading := loading)
    case SetAuthenticated(user) => s.(isAuthenticated := true, user := Some(user), loading := false)
    case SetUnauthenticated => s.(isAuthenticated := false, user := None, loading := false)
  }

  /** The state `initializeAuth` ends in, from what the store holds at mount time. */
  function BootState(items: map<string, string>, decode: string -> Claims, nowMs: int): (s: AuthState)
    ensures !s.loading && Consistent(s)
    ensures s.isAuthenticated <==> GetUser(items).Ok? && GetUser(items).value.Some? && IsAuthenticated(items, decode, nowMs)
    ensures s.isAuthenticated ==> s.user == GetUser(items).value
  {
    match GetUser(items)
    case Ok(Some(user)) =>
      if IsAuthenticated(items, decode, nowMs) then Reduce(INITIAL_STATE, SetAuthenticated(user))
      else Reduce(INITIAL_STATE, SetUnauthenticated)
    case _ => Reduce(INITIAL_STATE, SetUnauthenticated)
  }

  /** A store that was never written boots unauthenticated, so the entry page is the one to show. */
  lemma BootFromEmptyStore(decode: string -> Claims, nowMs: int)
    ensures BootState(map[], decode, nowMs) == AuthState(false, None, false)
  {
  }

  /** What `setAuthData(r)` followed by a boot yields: the reply's user, if its token is still valid. */
  lemma BootAfterAuthData(items: map<string, string>, r: AuthResponse, decode: string -> Claims, nowMs: int)
    requires r.token != "" && !IsTokenExpired(r.token, decode, nowMs)
    ensures BootState(WithAuthData(items, r), decode, nowMs) == AuthState(true, Some(UserOf(r)), false)
  {
    ReadBackAuthData(items, r);
  }

  class AuthProvider {
    var state: AuthState
    const browser: Browser

    ghost predicate Valid()
      reads this
    {
      Consistent(state)
    }

    /** `useReducer(authReducer, initialState)`. */
    constructor (browser: Browser)
      ensures state == INITIAL_STATE && this.browser == browser
      ensures Valid()
    {
      state := INITIAL_STATE;
      this.browser := browser;
    }

    method Dispatch(a: AuthAction)
      modifies this
      ensures state == Reduce(old(state), a)
    {
      state := Reduce(state, a);
    }

    /** `initializeAuth()`, run once on mount; reads the store and never writes it. */
    method InitializeAuth(decode: string -> Claims, nowMs: int)
      modifies this
      ensures state == BootState(browser.items, decode, nowMs)
      ensures Valid()
    {
      var user := GetUser(browser.items);
      match user
      case Err(_) =>
        Dispatch(SetUnauthenticated);
      case Ok(u) =>
        if u.Some? && IsAuthenticated(browser.items, decode, nowMs) {
          Dispatch(SetAuthenticated(u.value));
        } else {
          Dispatch(SetUnauthenticated);
        }
    }

    /**
     * `login(credentials)`. A reply with a token authenticates with exactly
     * its user. A reply without one persists nothing, and the outcome then
     * depends on what the store already held: no user means no dispatch, so
     * `loading` stays true.
     */
    method Login(credentials: LoginCredentials, reply: Reply<AuthResponse>)
      returns (request: Request<LoginCredentials>, r: Result<AuthResponse, Thrown>)
      requires Valid()
      modifies this, browser
      ensures Valid()
      ensures request == Outgoing(Endpoints.LOGIN, credentials, old(browser.items))
      ensures reply.Failed? ==> r == Err(Remote(ToApiError(reply.response)))
      ensures reply.Failed? ==> state == AuthState(false, None, false)
      ensures reply.Failed? ==> browser.items == AfterFailure(old(browser.items), reply.response)
      ensures reply.Delivered? && reply.data.token != "" ==>
                && r == Ok(reply.data)
                && state == AuthState(true, Some(UserOf(reply.data)), false)
                && browser.items == WithAuthData(old(browser.items), reply.data)
      ensures reply.Delivered? && reply.data.token == "" ==>
                && browser.items == old(browser.items)
                && match GetUser(old(browser.items))
                   case Ok(None) => r == Ok(reply.data) && state == old(state).(loading := true)
                   case Ok(Some(stale)) => r == Ok(reply.data) && state == AuthState(true, Some(stale), false)
                   case Err(e) => r == Err(e) && state == AuthState(false, None, false)
      ensures browser.href == (if reply.Failed? then LocationAfterFailure(old(browser.href), reply.response) else old(browser.href))
    {
      Dispatch(SetLoading(true));
      var response;
      request, response := AuthGateway.Login(browser, credentials, reply);
      match response
      case Err(e) =>
        Dispatch(SetUnauthenticated);
        r := Err(e);
      case Ok(data) =>
        if data.token != "" {
          ReadBackAuthData(old(browser.items), data);
        }
        var user := GetUser(browser.items);
        match user
        case Err(e) =>
          Dispatch(SetUnauthenticated);
          r := Err(e);
        case Ok(u) =>
          if u.Some? {
            Dispatch(SetAuthenticated(u.value));
          }
          r := Ok(data);
    }

    /** `register(userData)`: toggles `loading` around the call and never changes who is signed in. */
    method Register(data: RegisterData, reply: Reply<RegisterReply>)
      returns (request: Request<RegisterData>, r: Result<RegisterReply, Thrown>)
      requires Valid()
      modifies this, browser
      ensures Valid()
      ensures request == Outgoing(Endpoints.REGISTER, data, old(browser.items))
      ensures state == old(state).(loading := false)
      ensures reply.Delivered? ==> r == Ok(reply.data)
      ensures reply.Failed? ==> r == Err(Remote(ToApiError(reply.response)))
      ensures browser.items == (if reply.Failed? then AfterFailure(old(browser.items), reply.response) else old(browser.items))
      ensures browser.href == (if reply.Failed? then LocationAfterFailure(old(browser.href), reply.response) else old(browser.href))
    {
      Dispatch(SetLoading(true));
      request, r := AuthGateway.Register(browser, data, reply);
      Dispatch(SetLoading(false));
    }

    /**
     * `verifyEmail(email, code)`. On failure only `loading` is cleared; who
     * is signed in stays as it was.
     */
    method VerifyEmail(email: string, code: string, reply: Reply<AuthResponse>)
      returns (request: Request<VerificationData>, r: Result<AuthResponse, Thrown>)
      requires Valid()
      modifies this, browser
      ensures Valid()
      ensures request == Outgoing(Endpoints.VERIFY_EMAIL, VerificationData(email, code), old(browser.items))
      ensures reply.Failed? ==> r == Err(Remote(ToApiError(reply.response)))
      ensures reply.Failed? ==> state == old(state).(loading := false)
      ensures reply.Failed? ==> browser.items == AfterFailure(old(browser.items), reply.response)
      ensures reply.Delivered? && reply.data.token != "" ==>
                && r == Ok(reply.data)
                && state == AuthState(true, Some(UserOf(reply.data)), false)
                && browser.items == WithAuthData(old(browser.items), reply.data)
      ensures reply.Delivered? && reply.data.token == "" ==>
                && browser.items == old(browser.items)
                && match GetUser(old(browser.items))
                   case Ok(None) => r == Ok(reply.data) && state == old(state).(loading := true)
                   case Ok(Some(stale)) => r == Ok(reply.data) && state == AuthState(true, Some(stale), false)
                   case Err(e) => r == Err(e) && state == old(state).(loading := false)
      ensures browser.href == (if reply.Failed? then LocationAfterFailure(old(browser.href), reply.response) else old(browser.href))
    {
      Dispatch(SetLoading(true));
      var response;
      request, response := AuthGateway.VerifyEmail(browser, email, code, reply);
      match response
      case Err(e) =>
        Dispatch(SetLoading(false));
        r := Err(e);
      case Ok(data) =>
        if data.token != "" {
          ReadBackAuthData(old(browser.items), data);
        }
        var user := GetUser(browser.items);
        match user
        case Err(e) =>
          Dispatch(SetLoading(false));
          r := Err(e);
        case Ok(u) =>
          if u.Some? {
            Dispatch(SetAuthenticated(u.value));
          }
          r := Ok(data);
    }

    /** `resendVerificationCode(email)`: no dispatch at all. */
    method ResendVerificationCode(email: string, reply: Reply<MessageReply>)
      returns (request: Request<EmailBody>, r: Result<(), Thrown>)
      modifies browser
      ensures request == Outgoing(Endpoints.RESEND_CODE, EmailBody(email), old(browser.items))
      ensures state == old(state)
      ensures reply.Delivered? ==> r == Ok(())
      ensures reply.Failed? ==> r == Err(Remote(ToApiError(reply.response)))
      ensures browser.items == (if reply.Failed? then AfterFailure(old(browser.items), reply.response) else old(browser.items))
      ensures browser.href == (if reply.Failed? then LocationAfterFailure(old(browser.href), reply.response) else old(browser.href))
    {
      var response;
      request, response := AuthGateway.ResendVerificationCode(browser, email, reply);
      r := match response case Ok(_) => Ok(()) case Err(e) => Err(e);
    }

    /** `logout()`: clears the store, navigates to the login page and ends unauthenticated. */
    method Logout()
      modifies this, browser
      ensures state == AuthState(false, None, false)
      ensures browser.items == WithoutAuthData(old(browser.items))
      ensures browser.href == LOGIN_PATH
      ensures Valid()
    {
      AuthGateway.Logout(browser);
      Dispatch(SetUnauthenticated);
    }
  }

  /** Logging out twice leaves the same state and store as logging out once. */
  method LogoutTwice(provider: AuthProvider)
    modifies provider, provider.browser
    ensures provider.state == AuthState(false, None, false)
    ensures provider.browser.items == WithoutAuthData(old(provider.browser.items))
    ensures provider.browser.href == LOGIN_PATH
  {
    provider.Logout();
    ghost var once := provider.browser.items;
    provider.Logout();
    ClearedSession(once, _ => Undecodable, 0);
  }
}
