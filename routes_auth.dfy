/**
 * Model of routes/auth.js: the four authentication endpoints as functions from what a
 * request carries (and what the library calls return) to the response sent, including
 * the effect on the `oauth_state` cookie. This is the Authorization Code flow of section
 * 4.1 of RFC 6749, with the `state` parameter of section 10.12 of RFC 6749 as the
 * cross-site request forgery check.
 */
module AuthRoutes {
  import opened Wrappers
  import opened Jwt
  import opened AuthUtils

  datatype CookieOptions = CookieOptions(httpOnly: bool, secure: bool, maxAge: int)

  /** What a response does to the browser's cookies. */
  datatype CookieEffect = KeepCookies | SetCookie(name: string, value: string, options: CookieOptions) | ClearCookie(name: string)

  /** The user fields a response exposes. */
  datatype PublicUser = PublicUser(id: string, email: string, name: string, picture: string)

  datatype AuthData = NoData | Session(token: string, user: PublicUser) | Profile(user: PublicUser)

  /** A redirect, or a JSON body `{result, message, error?, data?}`. */
  datatype Body = Redirect(location: string) | Json(result: bool, message: string, error: Option<string>, data: AuthData)

  datatype Response = Response(status: int, body: Body, cookie: CookieEffect)

  /** The callback's query string; a parameter may be missing. */
  datatype CallbackQuery = CallbackQuery(code: Option<string>, state: Option<string>, error: Option<string>)

  /**
   * What the handlers use besides the request: the Google client, the JWT plugin's
   * signer (a throw is `Err`) and the clock in milliseconds.
   */
  datatype Env = Env(google: GoogleClient, sign: TokenPayload -> Result<string, string>, nowMs: int)

  const StateCookie := "oauth_state"
  const StateCookieOptions := CookieOptions(true, false, 600000)

  const ProviderErrorMessage := "Google OAuth error"
  const MissingCodeMessage := "Authorization code is required"
  const InvalidStateMessage := "Invalid state parameter"
  const MissingIdTokenMessage := "Failed to get ID token from Google"
  const AuthFailedMessage := "Authentication failed"
  const LogoutMessage := "Logout successful. Please discard your token."

  /** JavaScript truthiness of an optional string: present and non-empty. */
  predicate Truthy(s: Option<string>) {
    s.Some? && s.value != ""
  }

  /** A `result: false` JSON reply that leaves the cookies alone. */
  function Fail(status: int, message: string, error: Option<string>): (r: Response)
    ensures r.status == status && r.cookie == KeepCookies
    ensures r.body == Json(false, message, error, NoData)
  {
    Response(status, Json(false, message, error, NoData), KeepCookies)
  }

  function PublicUserOf(user: GoogleUser): (p: PublicUser)
    ensures p.id == user.id && p.email == user.email && p.name == user.name && p.picture == user.picture
  {
    PublicUser(user.id, user.email, user.name, user.picture)
  }

  /**
   * GET /auth/google with `state` as the freshly drawn anti-forgery value: the same value
   * goes into the authorization URL and into the `oauth_state` cookie, then the browser is
   * redirected; if the URL cannot be built the reply is 500 and no cookie is set.
   */
  function Login(state: string, env: Env): (r: Response)
    ensures r.status == 302 <==> GetGoogleOAuthURL(env.google, Some(state)).Ok?
    ensures r.status == 302 ==> r.body == Redirect(GetGoogleOAuthURL(env.google, Some(state)).value)
    ensures r.status == 302 ==> r.cookie == SetCookie(StateCookie, AuthUrlParamsFor(Some(state)).state, StateCookieOptions)
    ensures r.status != 302 ==> r.status == 500 && r.cookie == KeepCookies
    ensures r.status != 302 ==> r.body == Json(false, "Failed to initiate Google OAuth", Some(GetGoogleOAuthURL(env.google, Some(state)).error), NoData)
  {
    match GetGoogleOAuthURL(env.google, Some(state))
    case Ok(url) => Response(302, Redirect(url), SetCookie(StateCookie, state, StateCookieOptions))
    case Err(e) => Response(500, Json(false, "Failed to initiate Google OAuth", Some(e), NoData), KeepCookies)
  }

  /** The state cookie a successful login sets, if any. */
  function IssuedState(r: Response): Option<string> {
    if r.cookie.SetCookie? && r.cookie.name == StateCookie then Some(r.cookie.value) else None
  }

  /**
   * The steps after the state check: exchange the code, insist on an ID token, verify it,
   * sign the session payload. A throw anywhere is a 500; a missing ID token is a 400.
   */
  function CompleteLogin(code: string, env: Env): (r: Response)
    ensures r.body.Json? && r.status in {200, 400, 500}
    ensures r.body.result <==> r.status == 200
    ensures r.status == 400 ==> r.body.message == MissingIdTokenMessage
    ensures r.status == 500 ==> r.body.message == AuthFailedMessage
    ensures r.cookie == if r.status == 200 then ClearCookie(StateCookie) else KeepCookies
  {
    match ExchangeCodeForTokens(env.google, code)
    case Err(e) => Fail(500, AuthFailedMessage, Some(e))
    case Ok(tokens) =>
      if !Truthy(tokens.id_token) then Fail(400, MissingIdTokenMessage, None)
      else
        match VerifyGoogleToken(env.google, tokens.id_token.value)
        case Err(e) => Fail(500, AuthFailedMessage, Some(e))
        case Ok(user) =>
          match env.sign(GenerateTokenPayload(user, env.nowMs))
          case Err(e) => Fail(500, AuthFailedMessage, Some(e))
          case Ok(jwt) =>
            Response(200, Json(true, "Authentication successful", None, Session(jwt, PublicUserOf(user))), ClearCookie(StateCookie))
  }

  /**
   * GET /auth/google/callback, with `cookieState` the `oauth_state` cookie the request
   * carries: the guards run in order (provider error, missing code, state check) before
   * anything is exchanged. Only a complete success answers 200, and only that clears the cookie.
   */
  function Callback(q: CallbackQuery, cookieState: Option<string>, env: Env): (r: Response)
    ensures r.body.Json?
    ensures r.status in {200, 400, 500}
    ensures r.body.result <==> r.status == 200
    ensures r.cookie == if r.status == 200 then ClearCookie(StateCookie) else KeepCookies
  {
    if Truthy(q.error) then Fail(400, ProviderErrorMessage, q.error)
    else if !Truthy(q.code) then Fail(400, MissingCodeMessage, None)
    else if !Truthy(cookieState) || cookieState != q.state then Fail(400, InvalidStateMessage, None)
    else CompleteLogin(q.code.value, env)
  }

  /** A provider error decides the reply whatever the code, the state, the cookie and the services are. */
  lemma ProviderErrorFirst(q: CallbackQuery, q': CallbackQuery, cookie: Option<string>, cookie': Option<string>, env: Env, env': Env)
    requires Truthy(q.error) && q'.error == q.error
    ensures Callback(q, cookie, env) == Callback(q', cookie', env')
    ensures Callback(q, cookie, env) == Fail(400, ProviderErrorMessage, q.error)
  {
  }

  /** Without a code (and without a provider error) the reply is 400, whatever the state and cookie. */
  lemma MissingCodeRejected(q: CallbackQuery, cookie: Option<string>, env: Env)
    requires !Truthy(q.error) && !Truthy(q.code)
    ensures Callback(q, cookie, env) == Fail(400, MissingCodeMessage, None)
  {
  }

  /**
   * A missing, empty or different state cookie is rejected with 400, and the code exchange
   * is never invoked: replacing the provider's token endpoint changes nothing.
   */
  lemma StateMismatchSkipsExchange(q: CallbackQuery, cookie: Option<string>, env: Env, getToken: string -> Result<TokenSet, string>)
    requires !Truthy(q.error) && Truthy(q.code)
    requires !Truthy(cookie) || cookie != q.state
    ensures Callback(q, cookie, env) == Fail(400, InvalidStateMessage, None)
    ensures Callback(q, cookie, env.(google := env.google.(getToken := getToken))) == Callback(q, cookie, env)
  {
  }

  /** The state check passes exactly when the cookie is non-empty and the query echoes it. */
  lemma StateCheckPasses(q: CallbackQuery, cookie: Option<string>, env: Env)
    requires !Truthy(q.error) && Truthy(q.code)
    ensures Callback(q, cookie, env).body.message != InvalidStateMessage <==> Truthy(cookie) && q.state == cookie
    ensures Truthy(cookie) && q.state == cookie ==> Callback(q, cookie, env) == CompleteLogin(q.code.value, env)
  {
  }

  /** A token set without an ID token (or with an empty one) is a 400, not a 500. */
  lemma MissingIdTokenRejected(code: string, env: Env)
    requires env.google.getToken(code).Ok? && !Truthy(env.google.getToken(code).value.id_token)
    ensures CompleteLogin(code, env) == Fail(400, MissingIdTokenMessage, None)
  {
  }

  /** A failure of the exchange, the ID-token verification or the signer is a 500 "Authentication failed". */
  lemma ServiceFailureIs500(code: string, env: Env)
    requires env.google.getToken(code).Err?
          || (Truthy(env.google.getToken(code).value.id_token)
              && (VerifyGoogleToken(env.google, env.google.getToken(code).value.id_token.value).Err?
                  || env.sign(GenerateTokenPayload(VerifyGoogleToken(env.google, env.google.getToken(code).value.id_token.value).value, env.nowMs)).Err?))
    ensures CompleteLogin(code, env).status == 500
    ensures CompleteLogin(code, env).body.message == AuthFailedMessage
  {
  }

  /**
   * A successful callback: every guard passed and every service succeeded; the token is
   * the signature of the payload built from the verified user, and the reply carries
   * exactly that user's public fields.
   */
  lemma CallbackSuccess(q: CallbackQuery, cookie: Option<string>, env: Env)
    requires Callback(q, cookie, env).status == 200
    ensures !Truthy(q.error) && Truthy(q.code) && Truthy(cookie) && q.state == cookie
    ensures ExchangeCodeForTokens(env.google, q.code.value).Ok?
    ensures var tokens := ExchangeCodeForTokens(env.google, q.code.value).value;
            Truthy(tokens.id_token)
            && VerifyGoogleToken(env.google, tokens.id_token.value).Ok?
            && var user := VerifyGoogleToken(env.google, tokens.id_token.value).value;
               env.sign(GenerateTokenPayload(user, env.nowMs)).Ok?
               && Callback(q, cookie, env).body.data == Session(env.sign(GenerateTokenPayload(user, env.nowMs)).value, PublicUserOf(user))
  {
  }

  /** The converse: when every guard passes and every service succeeds, the callback answers 200. */
  lemma CallbackSucceedsWhenAllPass(q: CallbackQuery, cookie: Option<string>, env: Env)
    requires !Truthy(q.error) && Truthy(q.code) && Truthy(cookie) && q.state == cookie
    requires ExchangeCodeForTokens(env.google, q.code.value).Ok?
    requires Truthy(ExchangeCodeForTokens(env.google, q.code.value).value.id_token)
    requires VerifyGoogleToken(env.google, ExchangeCodeForTokens(env.google, q.code.value).value.id_token.value).Ok?
    requires env.sign(GenerateTokenPayload(VerifyGoogleToken(env.google, ExchangeCodeForTokens(env.google, q.code.value).value.id_token.value).value, env.nowMs)).Ok?
    ensures Callback(q, cookie, env).status == 200
  {
  }

  /**
   * The browser that started a login and comes back with the provider's code and the
   * echoed state gets past the state check, provided the drawn state is non-empty.
   */
  lemma LoginThenCallback(state: string, code: string, env: Env)
    requires Login(state, env).status == 302 && state != "" && code != ""
    ensures IssuedState(Login(state, env)) == Some(state)
    ensures Callback(CallbackQuery(Some(code), Some(state), None), IssuedState(Login(state, env)), env) == CompleteLogin(code, env)
  {
  }

  /** A login that drew the empty state can never complete: its cookie fails the state check. */
  lemma EmptyStateNeverAccepted(q: CallbackQuery, env: Env)
    requires Login("", env).status == 302
    requires !Truthy(q.error) && Truthy(q.code)
    ensures Callback(q, IssuedState(Login("", env)), env) == Fail(400, InvalidStateMessage, None)
  {
  }

  /** GET /auth/me: the pre-handler answers 401 on a failed verification; otherwise the claims are echoed. */
  function Me(v: Verification): (r: Response)
    ensures r.cookie == KeepCookies && r.body.Json?
    ensures r.status == 401 <==> v.Err?
    ensures v.Err? ==> r.body == Json(false, "Unauthorized: Invalid or missing token", None, NoData)
    ensures v.Ok? ==> r.status == 200 && r.body.result
    ensures v.Ok? ==> r.body.data == Profile(PublicUser(v.value.id, v.value.email, v.value.name, v.value.picture))
  {
    match v
    case Err(_) => Response(401, Json(false, "Unauthorized: Invalid or missing token", None, NoData), KeepCookies)
    case Ok(user) =>
      Response(200, Json(true, "User information retrieved successfully", None,
                         Profile(PublicUser(user.id, user.email, user.name, user.picture))), KeepCookies)
  }

  /**
   * Expiry is decided by the verifier. When it honours `exp` at the current clock, /auth/me
   * answers 200 only for unexpired claims, and an expiry error is the pre-handler's 401.
   */
  lemma ExpiredTokenRejected(v: Verification, nowSec: int)
    requires HonoursExpiry(v, nowSec)
    ensures Me(v).status == 200 ==> v.Ok? && Unexpired(v.value, nowSec)
    ensures v == Err(TokenExpired) ==> Me(v).status == 401
  {
  }

  /**
   * Round trip from the callback to /auth/me: if the verifier gives back, for a token the
   * signer produced, claims carrying the signed fields, then presenting the token the
   * callback returned yields exactly the user the callback reported.
   */
  lemma SessionTokenRoundTrip(q: CallbackQuery, cookie: Option<string>, env: Env, verify: string -> Verification)
    requires Callback(q, cookie, env).status == 200
    requires forall p: TokenPayload :: env.sign(p).Ok? ==>
               verify(env.sign(p).value).Ok?
               && verify(env.sign(p).value).value.id == p.id
               && verify(env.sign(p).value).value.email == p.email
               && verify(env.sign(p).value).value.name == p.name
               && verify(env.sign(p).value).value.picture == p.picture
    ensures Callback(q, cookie, env).body.data.Session?
    ensures Me(verify(Callback(q, cookie, env).body.data.token)).status == 200
    ensures Me(verify(Callback(q, cookie, env).body.data.token)).body.data.user == Callback(q, cookie, env).body.data.user
  {
    CallbackSuccess(q, cookie, env);
    var tokens := ExchangeCodeForTokens(env.google, q.code.value).value;
    var user := VerifyGoogleToken(env.google, tokens.id_token.value).value;
    var p := GenerateTokenPayload(user, env.nowMs);
    assert env.sign(p).Ok?;
  }

  /** POST /auth/logout: always 200 with the fixed message; it reads no token and touches no cookie. */
  function Logout(): (r: Response)
    ensures r.status == 200 && r.cookie == KeepCookies
    ensures r.body == Json(true, LogoutMessage, None, NoData)
  {
    Response(200, Json(true, LogoutMessage, None, NoData), KeepCookies)
  }
}
