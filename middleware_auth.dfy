/**
 * Model of middleware/auth.js: the three request guards and the rate-limit settings.
 * A guard either lets the request continue, with the identity it attached, or halts it
 * with a reply. The outcome of `request.jwtVerify()` is an input.
 */
module AuthMiddleware {
  import opened Wrappers
  import opened Jwt

  /** The part of a request the guards read and write: `request.user`, absent when unset or null. */
  datatype Request = Request(user: Option<SessionClaims>)

  /** A JSON failure reply `{result, message, error?}` with its status code. */
  datatype Reply = Reply(status: int, result: bool, message: string, error: Option<string>)

  /** What a guard does with a request: pass it on, or answer it. */
  datatype Outcome = Continue(request: Request) | Halt(reply: Reply)

  const AdminEmails: seq<string> := ["admin@yourdomain.com"]

  const InvalidTokenReply := Reply(401, false, "Unauthorized: Invalid or missing token",
                                   Some("Please provide a valid JWT token in the Authorization header"))
  const AuthRequiredReply := Reply(401, false, "Unauthorized: Authentication required", None)
  const AdminRequiredReply := Reply(403, false, "Forbidden: Admin access required", None)

  /** Mandatory authentication: a verified token attaches its claims; any failure answers 401. */
  function RequireAuth(req: Request, v: Verification): (o: Outcome)
    ensures o.Halt? <==> v.Err?
    ensures v.Err? ==> o.reply == InvalidTokenReply
    ensures v.Ok? ==> o.request == req.(user := Some(v.value))
  {
    match v
    case Ok(claims) => Continue(req.(user := Some(claims)))
    case Err(_) => Halt(InvalidTokenReply)
  }

  /** Optional authentication: never answers; a failed verification leaves the user null. */
  function OptionalAuth(req: Request, v: Verification): (o: Outcome)
    ensures o.Continue?
    ensures o.request.user == if v.Ok? then Some(v.value) else None
  {
    match v
    case Ok(claims) => Continue(req.(user := Some(claims)))
    case Err(_) => Continue(req.(user := None))
  }

  /** The admin gate: 401 without a user, then 403 for an email outside the allowlist. */
  function RequireAdmin(req: Request): (o: Outcome)
    ensures req.user.None? ==> o == Halt(AuthRequiredReply)
    ensures req.user.Some? && req.user.value.email !in AdminEmails ==> o == Halt(AdminRequiredReply)
    ensures o.Continue? <==> req.user.Some? && req.user.value.email in AdminEmails
    ensures o.Continue? ==> o.request == req
  {
    match req.user
    case None => Halt(AuthRequiredReply)
    case Some(claims) =>
      if claims.email in AdminEmails then Continue(req) else Halt(AdminRequiredReply)
  }

  /**
   * When the verifier honours `exp` at the current clock, whatever claims `requireAuth`
   * attaches are unexpired, and so are those `optionalAuth` attaches.
   */
  lemma AuthAttachesOnlyUnexpired(req: Request, v: Verification, nowSec: int)
    requires HonoursExpiry(v, nowSec)
    ensures RequireAuth(req, v).Continue? ==> Unexpired(RequireAuth(req, v).request.user.value, nowSec)
    ensures OptionalAuth(req, v).request.user.Some? ==> Unexpired(OptionalAuth(req, v).request.user.value, nowSec)
  {
  }

  /** The admin decision reads no claim but the email. */
  lemma AdminDependsOnlyOnEmail(a: SessionClaims, b: SessionClaims)
    requires a.email == b.email
    ensures RequireAdmin(Request(Some(a))).Continue? == RequireAdmin(Request(Some(b))).Continue?
    ensures RequireAdmin(Request(Some(a))).Halt? ==> RequireAdmin(Request(Some(a))).reply == RequireAdmin(Request(Some(b))).reply
  {
  }

  /** Runs the next guard of a pre-handler list only if the previous one let the request through. */
  function Then(o: Outcome, next: Request -> Outcome): (r: Outcome)
    ensures o.Halt? ==> r == o
    ensures o.Continue? ==> r == next(o.request)
  {
    match o
    case Halt(_) => o
    case Continue(req) => next(req)
  }

  /**
   * `requireAdmin` placed after `requireAuth`: a bad token answers 401 for the token,
   * a good one outside the allowlist 403, and the request passes exactly for an allowlisted email.
   */
  lemma AdminAfterAuth(req: Request, v: Verification)
    ensures v.Err? ==> Then(RequireAuth(req, v), RequireAdmin) == Halt(InvalidTokenReply)
    ensures v.Ok? && v.value.email !in AdminEmails ==> Then(RequireAuth(req, v), RequireAdmin) == Halt(AdminRequiredReply)
    ensures Then(RequireAuth(req, v), RequireAdmin).Continue? <==> v.Ok? && v.value.email in AdminEmails
    ensures Then(RequireAuth(req, v), RequireAdmin).Continue? ==> Then(RequireAuth(req, v), RequireAdmin).request.user == Some(v.value)
  {
  }

  /** `requireAdmin` after `optionalAuth`: a bad token no longer says so, it reaches the gate as "authentication required". */
  lemma AdminAfterOptionalAuth(req: Request, v: Verification)
    ensures v.Err? ==> Then(OptionalAuth(req, v), RequireAdmin) == Halt(AuthRequiredReply)
    ensures Then(OptionalAuth(req, v), RequireAdmin).Continue? <==> v.Ok? && v.value.email in AdminEmails
  {
  }

  /** The structured message sent when the limit is hit. */
  datatype LimitMessage = LimitMessage(result: bool, message: string)

  /** The rate-limit settings object, as declared; nothing in the core counts requests with it. */
  datatype RateLimitSettings = RateLimitSettings(max: nat, timeWindow: string, message: LimitMessage)

  const AuthRateLimit := RateLimitSettings(10, "15 minutes",
                                           LimitMessage(false, "Too many authentication attempts, please try again later"))

  /** At most ten attempts per fifteen-minute window, refused with a `result: false` message. */
  lemma AuthRateLimitIsTenPerQuarterHour()
    ensures AuthRateLimit.max == 10
    ensures AuthRateLimit.timeWindow == "15 minutes"
    ensures !AuthRateLimit.message.result
  {
  }
}
