/** JSON Web Tokens (RFC 7519) as both back ends use them. Signing and verification are
    foreign library calls; they appear as functions of a `Jwt` value. Signing takes the
    issue time in seconds, so the same payload signed twice in one second may give the
    same token. */
module Tokens {
  import opened Common

  datatype TokenPayload = TokenPayload(userId: string, email: string)

  datatype TokenPair = TokenPair(accessToken: string, refreshToken: string)

  /** The token library under the configured secrets: signing with the access secret
      (15 minute expiry) and the refresh secret (7 day expiry), and verification under
      each, which yields the payload or fails with the library's message. Expiry is folded
      into verification. */
  datatype Jwt = Jwt(
    signAccess: (TokenPayload, int) -> string,
    signRefresh: (TokenPayload, int) -> string,
    verifyAccess: string -> Result<TokenPayload>,
    verifyRefresh: string -> Result<TokenPayload>)

  /** generateTokens: an access token and a refresh token for the same payload. */
  function GenerateTokens(jwt: Jwt, payload: TokenPayload, now: int): TokenPair {
    TokenPair(jwt.signAccess(payload, now), jwt.signRefresh(payload, now))
  }
}
