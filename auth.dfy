/**
 * src/app/context/authContext.tsx: the authentication state machine
 * (`checkAuth`, `login`, `logout`), its request decorator, its 401 handler
 * and `isAdmin`. Network replies, the clock and `jwt.decode` are inputs.
 */
module Auth {
  import opened Common
  import opened Web

  const AuthCookie := "authToken"
  const DefaultRole := "user"
  const AdminRole := "admin"
  /** Header names the decorator writes. */
  const AuthorizationHeader := "Authorization"
  const SessionHeader := "X-Session-ID"
  const Unauthorized := 401

  /** The user record; a field the backend left out is "". */
  datatype User = User(id: string, firstName: string, lastName: string, email: string,
                       role: string, avatarLink: string)

  /** The copy the provider stores: every field kept, `role || 'user'`. */
  function WithDefaultRole(u: User): (r: User)
    ensures r.role != ""
    ensures u.role != "" ==> r == u
    ensures r.(role := u.role) == u
  {
    if u.role == "" then u.(role := DefaultRole) else u
  }

  /** `user?.role === "admin"`. */
  predicate HasAdminRole(u: Option<User>) {
    u.Some? && u.value.role == AdminRole
  }

  /** A profile reply body: either `{ user: … }` or the user's fields at top level. */
  datatype ProfileBody = ProfileBody(user: Option<User>, top: User)

  /** `response.data.user || response.data._id`. */
  predicate HasProfile(b: ProfileBody) {
    b.user.Some? || b.top.id != ""
  }

  /** `response.data.user || response.data`, with the default role. */
  function ProfileUser(b: ProfileBody): User {
    WithDefaultRole(if b.user.Some? then b.user.value else b.top)
  }

  /** What `jwt.decode(token)` gives: a payload (whose `exp` may be missing), null, or an exception. */
  datatype Decoded = Claims(exp: Option<int>) | NullPayload | DecodeThrows

  /** `decoded && decoded.exp * 1000 < Date.now()`; a missing `exp` compares as NaN, i.e. false. */
  predicate Expired(d: Decoded, now: int) {
    d.Claims? && d.exp.Some? && d.exp.value * 1000 < now
  }

  /** The login reply body: `token` ("" when absent) and an optional user. */
  datatype LoginBody = LoginBody(token: string, user: Option<User>)

  /** The cookie `Cookies.set("authToken", token, { sameSite: 'lax' })` writes: session-scoped, path `/`. */
  function TokenCookie(token: string): Cookie {
    Cookie(token, "/", None, "lax")
  }

  /** Everything the provider's methods change: its state fields, the cookie jar and the route. */
  datatype Snapshot = Snapshot(isAuthenticated: bool, token: Option<string>, user: Option<User>,
                               cookies: map<string, Cookie>, route: string)

  /** `setIsAuthenticated(false); setToken(null); setUser(null)`. */
  function Cleared(s: Snapshot): Snapshot {
    s.(isAuthenticated := false, token := None, user := None)
  }

  /** `Cookies.remove("authToken")` followed by clearing the state: how every failed check ends. */
  function Unauthenticated(s: Snapshot): (r: Snapshot)
    ensures AuthCookie !in r.cookies && !r.isAuthenticated && r.token == None && r.user == None
    ensures r.route == s.route && r.cookies == s.cookies - {AuthCookie}
  {
    Cleared(s).(cookies := s.cookies - {AuthCookie})
  }

  /** The end of `logout`: cleared state, no auth cookie, and a navigation to `/`. */
  function LoggedOut(s: Snapshot): (r: Snapshot)
    ensures r == Unauthenticated(s).(route := "/")
  {
    Unauthenticated(s).(route := "/")
  }

  /** The 401 response interceptor: a 401 runs `logout` before the error is passed on; anything else changes nothing. */
  function AfterError(s: Snapshot, e: HttpError): (r: Snapshot)
    ensures HasStatus(e, Unauthorized) ==> r == LoggedOut(s)
    ensures !HasStatus(e, Unauthorized) ==> r == s
  {
    if HasStatus(e, Unauthorized) then LoggedOut(s) else s
  }

  /** A profile call succeeded: authenticated with the reply's user, the token set only when `token` is present. */
  function Authenticated(s: Snapshot, token: Option<string>, b: ProfileBody): Snapshot
    requires HasProfile(b)
  {
    s.(isAuthenticated := true, token := if token.Some? then token else s.token, user := Some(ProfileUser(b)))
  }

  /** What `checkAuth` resolves to, and the state it leaves. */
  datatype CheckResult = CheckResult(ok: bool, state: Snapshot)

  /**
   * `checkAuth` with the clock, the decode outcome and the two profile
   * replies as inputs. The fallback reply is only consulted when the primary
   * call throws; the 401 interceptor runs on each failed call before the
   * code after it.
   */
  function CheckAuthResult(s: Snapshot, now: int, decoded: Decoded,
                           primary: Reply<ProfileBody>, fallback: Reply<ProfileBody>): (r: CheckResult)
    ensures r.ok <==> r.state.isAuthenticated
    ensures r.ok ==> r.state.user.Some? && r.state.user.value.role != ""
    ensures !r.ok ==> r.state.token == None && r.state.user == None
  {
    var cookieToken := CookieValue(s.cookies, AuthCookie);
    if cookieToken == "" then CheckResult(false, Cleared(s))
    else if decoded.DecodeThrows? || Expired(decoded, now) then CheckResult(false, Unauthenticated(s))
    else match primary
      case Ok(body) =>
        if HasProfile(body) then CheckResult(true, Authenticated(s, Some(cookieToken), body))
        else CheckResult(false, Unauthenticated(s))
      case Failed(e) =>
        var s1 := AfterError(s, e);
        match fallback
        case Ok(body) =>
          if HasProfile(body) then
            var newCookieToken := CookieValue(s1.cookies, AuthCookie);
            CheckResult(true, Authenticated(s1, if newCookieToken != "" then Some(newCookieToken) else None, body))
          else CheckResult(false, Unauthenticated(s1))
        case Failed(e2) => CheckResult(false, Unauthenticated(AfterError(s1, e2)))
  }

  /** Without an auth cookie the check fails at once: nothing is removed and no call is made. */
  lemma NoCookieNoCheck(s: Snapshot, now: int, decoded: Decoded, primary: Reply<ProfileBody>, fallback: Reply<ProfileBody>)
    requires CookieValue(s.cookies, AuthCookie) == ""
    ensures CheckAuthResult(s, now, decoded, primary, fallback) == CheckResult(false, Cleared(s))
  {
  }

  /**
   * A token whose `exp` (in seconds) lies before `now` (in milliseconds) is
   * removed; `exp * 1000 == now` still counts as valid and the check goes on
   * exactly as if there were no expiry at all, as it does for a null payload.
   */
  lemma ExpiryBoundary(s: Snapshot, exp: int, now: int, primary: Reply<ProfileBody>, fallback: Reply<ProfileBody>)
    requires CookieValue(s.cookies, AuthCookie) != ""
    ensures exp * 1000 < now ==>
      CheckAuthResult(s, now, Claims(Some(exp)), primary, fallback) == CheckResult(false, Unauthenticated(s))
    ensures exp * 1000 >= now ==>
      CheckAuthResult(s, now, Claims(Some(exp)), primary, fallback)
        == CheckAuthResult(s, now, NullPayload, primary, fallback)
        == CheckAuthResult(s, now, Claims(None), primary, fallback)
  {
  }

  /** A decode exception ends the check with the cookie removed. */
  lemma DecodeFailureRemovesCookie(s: Snapshot, now: int, primary: Reply<ProfileBody>, fallback: Reply<ProfileBody>)
    requires CookieValue(s.cookies, AuthCookie) != ""
    ensures CheckAuthResult(s, now, DecodeThrows, primary, fallback) == CheckResult(false, Unauthenticated(s))
  {
  }

  /** A primary reply carrying a user authenticates with the cookie token and a defaulted role; the fallback is never asked. */
  lemma PrimarySuccess(s: Snapshot, now: int, decoded: Decoded, body: ProfileBody, fallback: Reply<ProfileBody>)
    requires CookieValue(s.cookies, AuthCookie) != "" && !decoded.DecodeThrows? && !Expired(decoded, now)
    requires HasProfile(body)
    ensures var r := CheckAuthResult(s, now, decoded, Ok(body), fallback);
            && r.ok && r.state.isAuthenticated
            && r.state.token == Some(s.cookies[AuthCookie].value)
            && r.state.user == Some(ProfileUser(body))
            && r.state.cookies == s.cookies
  {
  }

  /** A primary reply without `user` or `_id` skips the fallback and fails, whatever the fallback would say. */
  lemma PrimaryWithoutUserFails(s: Snapshot, now: int, decoded: Decoded, body: ProfileBody,
                                fallback: Reply<ProfileBody>, fallback': Reply<ProfileBody>)
    requires CookieValue(s.cookies, AuthCookie) != "" && !decoded.DecodeThrows? && !Expired(decoded, now)
    requires !HasProfile(body)
    ensures CheckAuthResult(s, now, decoded, Ok(body), fallback) == CheckResult(false, Unauthenticated(s))
    ensures CheckAuthResult(s, now, decoded, Ok(body), fallback) == CheckAuthResult(s, now, decoded, Ok(body), fallback')
  {
  }

  /**
   * When the primary call throws something other than 401 and the fallback
   * succeeds, the check authenticates and keeps the cookie token. After a
   * 401, `logout` has already removed the cookie, so the check still
   * authenticates but with no token, on the route `/`.
   */
  lemma FallbackSuccess(s: Snapshot, now: int, decoded: Decoded, e: HttpError, body: ProfileBody)
    requires CookieValue(s.cookies, AuthCookie) != "" && !decoded.DecodeThrows? && !Expired(decoded, now)
    requires HasProfile(body)
    ensures var r := CheckAuthResult(s, now, decoded, Failed(e), Ok(body));
            && r.ok && r.state.user == Some(ProfileUser(body))
            && (!HasStatus(e, Unauthorized) ==> r.state.token == Some(s.cookies[AuthCookie].value) && r.state.cookies == s.cookies)
            && (HasStatus(e, Unauthorized) ==> r.state.token == None && AuthCookie !in r.state.cookies && r.state.route == "/")
  {
  }

  /** Every failed check that found a cookie removes it. */
  lemma FailedCheckRemovesCookie(s: Snapshot, now: int, decoded: Decoded,
                                 primary: Reply<ProfileBody>, fallback: Reply<ProfileBody>)
    requires CookieValue(s.cookies, AuthCookie) != ""
    ensures var r := CheckAuthResult(s, now, decoded, primary, fallback);
            !r.ok ==> AuthCookie !in r.state.cookies
  {
  }

  /** What `login` does to the state, and which error (if any) it rethrows. */
  datatype LoginResult = LoginResult(thrown: Option<HttpError>, state: Snapshot)

  /** `login` with the POST's outcome as input. */
  function LoginOutcome(s: Snapshot, reply: Reply<LoginBody>): (r: LoginResult)
    ensures reply.Ok? <==> r.thrown == None
    ensures reply.Failed? ==> r.thrown == Some(reply.error)
  {
    match reply
    case Failed(e) => LoginResult(Some(e), AfterError(s, e))
    case Ok(body) =>
      var s1 :=
        if body.token != "" then
          s.(cookies := s.cookies[AuthCookie := TokenCookie(body.token)], token := Some(body.token),
             user := if body.user.Some? then Some(WithDefaultRole(body.user.value)) else s.user)
        else s;
      LoginResult(None, s1.(isAuthenticated := true))
  }

  /**
   * A reply always authenticates, even without a token; a token is stored
   * in the cookie and the state; the user is replaced only when the reply
   * has one and a token.
   */
  lemma LoginSuccess(s: Snapshot, body: LoginBody)
    ensures var r := LoginOutcome(s, Ok(body));
            && r.state.isAuthenticated
            && (body.token != "" ==> r.state.token == Some(body.token) && CookieValue(r.state.cookies, AuthCookie) == body.token)
            && (body.token == "" ==> r.state == s.(isAuthenticated := true))
            && (body.token != "" && body.user.Some? ==> r.state.user == Some(WithDefaultRole(body.user.value)))
  {
  }

  /** A login error is rethrown unchanged; only a 401 (through the interceptor) touches the state. */
  lemma LoginFailure(s: Snapshot, e: HttpError)
    ensures LoginOutcome(s, Failed(e)).thrown == Some(e)
    ensures !HasStatus(e, Unauthorized) ==> LoginOutcome(s, Failed(e)).state == s
    ensures HasStatus(e, Unauthorized) ==> LoginOutcome(s, Failed(e)).state == LoggedOut(s)
  {
  }

  /** The headers the request interceptor leaves on a request. */
  function DecoratedHeaders(headers: map<string, string>, cookieToken: string, sessionId: string): (h: map<string, string>)
    ensures cookieToken != "" ==> AuthorizationHeader in h && h[AuthorizationHeader] == "Bearer " + cookieToken
    ensures sessionId != "" ==> SessionHeader in h && h[SessionHeader] == sessionId
    ensures forall k :: k != AuthorizationHeader && k != SessionHeader ==>
      (k in h <==> k in headers) && (k in h ==> h[k] == headers[k])
    ensures cookieToken == "" ==> (AuthorizationHeader in h <==> AuthorizationHeader in headers)
    ensures cookieToken == "" && AuthorizationHeader in headers ==> h[AuthorizationHeader] == headers[AuthorizationHeader]
    ensures sessionId == "" ==> (SessionHeader in h <==> SessionHeader in headers)
    ensures sessionId == "" && SessionHeader in headers ==> h[SessionHeader] == headers[SessionHeader]
  {
    var withAuth := if cookieToken != "" then headers[AuthorizationHeader := "Bearer " + cookieToken] else headers;
    if sessionId != "" then withAuth[SessionHeader := sessionId] else withAuth
  }

  /** Decorating twice is decorating once. */
  lemma DecorateIdempotent(headers: map<string, string>, cookieToken: string, sessionId: string)
    ensures DecoratedHeaders(DecoratedHeaders(headers, cookieToken, sessionId), cookieToken, sessionId)
         == DecoratedHeaders(headers, cookieToken, sessionId)
  {
  }

  /** A header the caller sets that the decorator does not own may be set before or after decorating. */
  lemma DecorateCommutesWithOtherHeaders(headers: map<string, string>, cookieToken: string, sessionId: string,
                                         k: string, v: string)
    requires k != AuthorizationHeader && k != SessionHeader
    ensures DecoratedHeaders(headers[k := v], cookieToken, sessionId)
         == DecoratedHeaders(headers, cookieToken, sessionId)[k := v]
  {
  }

  /**
   * The "cookie-only" fallback asks for no header, yet the interceptor gives
   * it the Bearer header whenever the auth cookie is still there.
   */
  lemma CookieOnlyFallbackCarriesBearer(cookies: map<string, Cookie>, sessionId: string)
    requires CookieValue(cookies, AuthCookie) != ""
    ensures var h := DecoratedHeaders(map[], CookieValue(cookies, AuthCookie), sessionId);
            AuthorizationHeader in h && h[AuthorizationHeader] == "Bearer " + cookies[AuthCookie].value
  {
  }

  /** Logout as written: how many POSTs it has sent, and whether its `finally` block has run. */
  datatype LogoutRun = Completed(posts: nat) | Pending(posts: nat)

  /**
   * `logout` as the source runs it, given the status of each of its POSTs in
   * turn: a 401 on its own POST goes through the response interceptor, which
   * awaits a nested `logout` (another POST) before the outer `finally` can
   * run. When the statuses run out, the latest POST is still awaiting its reply.
   */
  function LogoutAsWritten(statuses: seq<int>): (r: LogoutRun)
    ensures 1 <= r.posts <= |statuses| + 1
    ensures r.Completed? ==> r.posts <= |statuses| && statuses[r.posts - 1] != Unauthorized
    ensures forall i :: 0 <= i < r.posts - 1 ==> statuses[i] == Unauthorized
    ensures r.Pending? ==> r.posts == |statuses| + 1
  {
    if statuses == [] then Pending(1)
    else if statuses[0] == Unauthorized then
      match LogoutAsWritten(statuses[1..])
      case Completed(n) => Completed(n + 1)
      case Pending(n) => Pending(n + 1)
    else Completed(1)
  }

  /** A backend that answers 401 to every logout POST keeps logout re-entering itself: the state is never cleared. */
  lemma {:induction false} LogoutAsWrittenLoops(statuses: seq<int>)
    requires forall i :: 0 <= i < |statuses| ==> statuses[i] == Unauthorized
    ensures LogoutAsWritten(statuses) == Pending(|statuses| + 1)
  {
    if statuses != [] {
      LogoutAsWrittenLoops(statuses[1..]);
    }
  }

  /**
   * Logout as written finishes exactly when some POST is answered with
   * something other than 401, having sent one POST per reply up to and
   * including the first such one.
   */
  lemma LogoutAsWrittenCompletes(statuses: seq<int>)
    ensures LogoutAsWritten(statuses).Completed? <==> exists i :: 0 <= i < |statuses| && statuses[i] != Unauthorized
    ensures LogoutAsWritten(statuses).Completed? ==>
      var n := LogoutAsWritten(statuses).posts;
      n <= |statuses| && statuses[n - 1] != Unauthorized && forall i :: 0 <= i < n - 1 ==> statuses[i] == Unauthorized
  {
    var r := LogoutAsWritten(statuses);
    if r.Completed? {
      assert statuses[r.posts - 1] != Unauthorized;
    }
  }

  /**
   * Logout as intended (the 401 handler does not re-enter for the logout
   * request): one POST, then cleared. It agrees with the logout as written
   * exactly when the first POST is not answered with 401.
   */
  function LogoutCorrected(statuses: seq<int>): (r: LogoutRun)
    ensures r.posts == 1
    ensures statuses != [] ==> (r == LogoutAsWritten(statuses) <==> statuses[0] != Unauthorized)
    ensures statuses == [] ==> r == LogoutAsWritten(statuses)
  {
    if statuses == [] then Pending(1) else Completed(1)
  }

  /** The `AuthProvider` component's state, over one browser and the session id it was given. */
  class AuthProvider {
    var isAuthenticated: bool
    var token: Option<string>
    var user: Option<User>
    var isLoading: bool
    /** The last `router.push` target. */
    var route: string
    const browser: Browser
    /** `sessionId` from the session context. */
    const sessionId: string

    /** First render: unauthenticated, loading. */
    constructor (browser: Browser, sessionId: string, route: string)
      ensures !isAuthenticated && token == None && user == None && isLoading
      ensures this.browser == browser && this.sessionId == sessionId && this.route == route
    {
      isAuthenticated := false;
      token := None;
      user := None;
      isLoading := true;
      this.route := route;
      this.browser := browser;
      this.sessionId := sessionId;
    }

    function State(): Snapshot
      reads this, browser
    {
      Snapshot(isAuthenticated, token, user, browser.cookies, route)
    }

    /** `isAdmin`. */
    predicate IsAdmin()
      reads this
    {
      HasAdminRole(user)
    }

    method ClearState()
      modifies this
      ensures State() == Cleared(old(State())) && isLoading == old(isLoading)
    {
      isAuthenticated := false;
      token := None;
      user := None;
    }

    method RemoveAuthCookie()
      modifies browser
      ensures browser.cookies == old(browser.cookies) - {AuthCookie}
      ensures browser.storage == old(browser.storage)
    {
      browser.cookies := browser.cookies - {AuthCookie};
    }

    /** `logout`: the POST is best effort, its outcome changes nothing; the state is always cleared. */
    method Logout()
      modifies this, browser
      ensures State() == LoggedOut(old(State())) && !isLoading
      ensures browser.storage == old(browser.storage)
    {
      isLoading := true;
      token := None;
      isAuthenticated := false;
      user := None;
      RemoveAuthCookie();
      route := "/";
      isLoading := false;
    }

    /** The response interceptor's error path; it hands back the same error to reject with. */
    method OnResponseError(e: HttpError) returns (rejected: HttpError)
      modifies this, browser
      ensures rejected == e
      ensures State() == AfterError(old(State()), e)
      ensures !HasStatus(e, Unauthorized) ==> isLoading == old(isLoading)
      ensures HasStatus(e, Unauthorized) ==> !isLoading
      ensures browser.storage == old(browser.storage)
    {
      if HasStatus(e, Unauthorized) {
        Logout();
      }
      rejected := e;
    }

    /** The request interceptor: Bearer from the cookie, the session header, credentials on. */
    method DecorateRequest(config: RequestConfig)
      modifies config
      ensures config.headers == DecoratedHeaders(old(config.headers), CookieValue(browser.cookies, AuthCookie), sessionId)
      ensures config.withCredentials
    {
      var cookieToken := CookieValue(browser.cookies, AuthCookie);
      if cookieToken != "" {
        config.headers := config.headers[AuthorizationHeader := "Bearer " + cookieToken];
      }
      if sessionId != "" {
        config.headers := config.headers[SessionHeader := sessionId];
      }
      config.withCredentials := true;
    }

    /** `Authenticated(...)` on the fields, after a profile reply with a user. */
    method Authenticate(newToken: Option<string>, body: ProfileBody)
      requires HasProfile(body)
      modifies this
      ensures State() == Authenticated(old(State()), newToken, body) && isLoading == old(isLoading)
    {
      if newToken.Some? {
        token := newToken;
      }
      isAuthenticated := true;
      user := Some(ProfileUser(body));
    }

    /** `checkAuth`, with the clock, the decode outcome and both profile replies as inputs. */
    method CheckAuth(now: int, decoded: Decoded, primary: Reply<ProfileBody>, fallback: Reply<ProfileBody>)
      returns (ok: bool)
      modifies this, browser
      ensures CheckResult(ok, State()) == CheckAuthResult(old(State()), now, decoded, primary, fallback)
      ensures !isLoading && browser.storage == old(browser.storage)
    {
      isLoading := true;
      var cookieToken := CookieValue(browser.cookies, AuthCookie);
      if cookieToken == "" {
        ClearState();
        isLoading := false;
        return false;
      }
      if decoded.DecodeThrows? || Expired(decoded, now) {
        RemoveAuthCookie();
        ClearState();
        isLoading := false;
        return false;
      }
      match primary {
        case Ok(body) =>
          if HasProfile(body) {
            Authenticate(Some(cookieToken), body);
            isLoading := false;
            return true;
          }
        case Failed(e) =>
          var _ := OnResponseError(e);
          match fallback {
            case Ok(body) =>
              if HasProfile(body) {
                var newCookieToken := CookieValue(browser.cookies, AuthCookie);
                Authenticate(if newCookieToken != "" then Some(newCookieToken) else None, body);
                isLoading := false;
                return true;
              }
            case Failed(e2) =>
              var _ := OnResponseError(e2);
          }
      }
      RemoveAuthCookie();
      ClearState();
      isLoading := false;
      return false;
    }

    /** `login`; `thrown` is the error it rethrows, None when it resolves. */
    method Login(reply: Reply<LoginBody>) returns (thrown: Option<HttpError>)
      modifies this, browser
      ensures LoginResult(thrown, State()) == LoginOutcome(old(State()), reply)
      ensures !isLoading && browser.storage == old(browser.storage)
    {
      isLoading := true;
      match reply {
        case Failed(e) =>
          var rejected := OnResponseError(e);
          isLoading := false;
          return Some(rejected);
        case Ok(body) =>
          if body.token != "" {
            browser.cookies := browser.cookies[AuthCookie := TokenCookie(body.token)];
            token := Some(body.token);
            if body.user.Some? {
              user := Some(WithDefaultRole(body.user.value));
            }
          }
          isAuthenticated := true;
      }
      isLoading := false;
      return None;
    }
  }

  /** `isAdmin` holds exactly for the role "admin". */
  lemma IsAdminIffAdminRole(u: User)
    ensures HasAdminRole(Some(u)) <==> u.role == "admin"
    ensures !HasAdminRole(None)
    ensures HasAdminRole(Some(WithDefaultRole(u))) <==> u.role == "admin"
  {
  }
}
