/**
 * Model of utils/auth.js: the wrapper around the Google OAuth2 client and the builder of
 * the session-token payload. The client's three network and crypto operations are
 * oracles held in a `GoogleClient` value; a throw is an `Err` carrying its message.
 */
module AuthUtils {
  import opened Wrappers

  /** The payload of a verified Google ID token, with the provider's claim names. */
  datatype GooglePayload = GooglePayload(sub: string, email: string, name: string, picture: string, email_verified: bool)

  /** What `verifyIdToken` resolves to; `getPayload()` may come back empty. */
  datatype LoginTicket = LoginTicket(payload: Option<GooglePayload>)

  /** The user record built from a verified ID token. */
  datatype GoogleUser = GoogleUser(id: string, email: string, name: string, picture: string, emailVerified: bool)

  /** The provider's token set returned by the code exchange. */
  datatype TokenSet = TokenSet(access_token: Option<string>, refresh_token: Option<string>, id_token: Option<string>, expiry_date: Option<int>)

  /** The options handed to `generateAuthUrl`. */
  datatype AuthUrlParams = AuthUrlParams(access_type: string, scope: seq<string>, state: string, include_granted_scopes: bool)

  /**
   * The process-wide OAuth2 client: the configured client id and the library operations
   * it offers. `verifyIdToken` takes the ID token and the expected audience.
   */
  datatype GoogleClient = GoogleClient(
    clientId: string,
    generateAuthUrl: AuthUrlParams -> Result<string, string>,
    getToken: string -> Result<TokenSet, string>,
    verifyIdToken: (string, string) -> Result<LoginTicket, string>)

  /** The claims the application signs into its own session token (the signer adds `exp`). */
  datatype TokenPayload = TokenPayload(id: string, email: string, name: string, picture: string, iat: int)

  const InvalidGoogleToken := "Invalid Google token"
  const ExchangeFailed := "Failed to exchange code for tokens"

  /** The scopes every login asks for. */
  const Scopes: seq<string> := ["openid", "email", "profile"]

  /**
   * The session payload for `user` at wall-clock time `nowMs` (milliseconds): the four
   * identity fields copied unchanged and `iat` the time in whole seconds, rounded down.
   */
  function GenerateTokenPayload(user: GoogleUser, nowMs: int): (p: TokenPayload)
    ensures p.id == user.id && p.email == user.email && p.name == user.name && p.picture == user.picture
    ensures p.iat * 1000 <= nowMs < p.iat * 1000 + 1000
  {
    TokenPayload(user.id, user.email, user.name, user.picture, nowMs / 1000)
  }

  /** The payload depends on the user only through id, email, name and picture: `emailVerified` is dropped. */
  lemma PayloadIgnoresOtherClaims(u: GoogleUser, v: GoogleUser, nowMs: int)
    requires u.id == v.id && u.email == v.email && u.name == v.name && u.picture == v.picture
    ensures GenerateTokenPayload(u, nowMs) == GenerateTokenPayload(v, nowMs)
  {
  }

  /** Renames the provider's claims to the application's user fields. */
  function UserFromPayload(p: GooglePayload): (u: GoogleUser)
    ensures u.id == p.sub && u.email == p.email && u.name == p.name && u.picture == p.picture
    ensures u.emailVerified == p.email_verified
  {
    GoogleUser(p.sub, p.email, p.name, p.picture, p.email_verified)
  }

  /**
   * Verifies `idToken` with the configured client id as audience. Succeeds exactly when
   * the library accepts the token and yields a payload; every other outcome becomes the
   * single error "Invalid Google token".
   */
  function VerifyGoogleToken(client: GoogleClient, idToken: string): (r: Result<GoogleUser, string>)
    ensures r.Ok? <==> client.verifyIdToken(idToken, client.clientId).Ok? && client.verifyIdToken(idToken, client.clientId).value.payload.Some?
    ensures r.Ok? ==> r.value == UserFromPayload(client.verifyIdToken(idToken, client.clientId).value.payload.value)
    ensures r.Err? ==> r.error == InvalidGoogleToken
  {
    match client.verifyIdToken(idToken, client.clientId)
    case Err(_) => Err(InvalidGoogleToken)
    case Ok(ticket) =>
      match ticket.payload
      case None => Err(InvalidGoogleToken)
      case Some(p) => Ok(UserFromPayload(p))
  }

  /** The audience is the configured client id: what the library says for any other audience is irrelevant. */
  lemma VerifyUsesConfiguredAudience(client: GoogleClient, other: (string, string) -> Result<LoginTicket, string>, idToken: string)
    requires other(idToken, client.clientId) == client.verifyIdToken(idToken, client.clientId)
    ensures VerifyGoogleToken(client.(verifyIdToken := other), idToken) == VerifyGoogleToken(client, idToken)
  {
  }

  /** The options for the authorization URL; an omitted state defaults to the empty string. */
  function AuthUrlParamsFor(state: Option<string>): (p: AuthUrlParams)
    ensures p.scope == ["openid", "email", "profile"]
    ensures p.access_type == "offline" && p.include_granted_scopes
    ensures state.Some? ==> p.state == state.value
    ensures state.None? ==> p.state == ""
  {
    AuthUrlParams("offline", Scopes, if state.Some? then state.value else "", true)
  }

  /** The authorization URL as the library builds it from those options. */
  function GetGoogleOAuthURL(client: GoogleClient, state: Option<string>): (r: Result<string, string>)
    ensures r == client.generateAuthUrl(AuthUrlParamsFor(state))
  {
    client.generateAuthUrl(AuthUrlParamsFor(state))
  }

  /** The token set for `code`, unchanged on success; any failure becomes one fixed error. */
  function ExchangeCodeForTokens(client: GoogleClient, code: string): (r: Result<TokenSet, string>)
    ensures r.Ok? <==> client.getToken(code).Ok?
    ensures r.Ok? ==> r.value == client.getToken(code).value
    ensures r.Err? ==> r.error == ExchangeFailed
  {
    match client.getToken(code)
    case Ok(tokens) => Ok(tokens)
    case Err(_) => Err(ExchangeFailed)
  }
}
