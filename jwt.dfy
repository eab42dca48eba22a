/**
 * The interface of the JWT plugin as the core sees it. Signing and verification are
 * cryptographic library calls; the model keeps only the shape of what they return.
 */
module Jwt {
  import opened Wrappers

  /** The claims `request.jwtVerify()` attaches to `request.user` once a bearer token checks out. */
  datatype SessionClaims = SessionClaims(id: string, email: string, name: string, picture: string, iat: int, exp: int)

  /** The ways a bearer token can fail verification; the core treats them all alike. */
  datatype JwtError = MissingToken | MalformedToken | BadSignature | TokenExpired

  /** The result of `request.jwtVerify()` for one request. */
  type Verification = Result<SessionClaims, JwtError>

  /** Claims still valid at `nowSec`, seconds since the epoch: their `exp` lies ahead. */
  predicate Unexpired(c: SessionClaims, nowSec: int) {
    nowSec < c.exp
  }

  /** What the JWT plugin promises at clock `nowSec`: it hands over only unexpired claims. */
  predicate HonoursExpiry(v: Verification, nowSec: int) {
    v.Ok? ==> Unexpired(v.value, nowSec)
  }
}
