/** The API's authentication middleware. One request/response exchange is an object: the
    request's Authorization header, the user the middleware attaches, the error response it
    may send, and how many times it hands the request on with `next()`. */
module AuthMiddleware {
  import opened Common
  import opened Tokens
  import AuthService

  const TokenRequired: string := "Access token is required"
  const InvalidOrExpired: string := "Invalid or expired token"

  /** `authHeader && authHeader.split(' ')[1]`, as a present token or nothing: a missing or
      empty header, a header without a space, and an empty second field all give nothing. */
  function ExtractToken(header: Option<string>): (token: Option<string>)
    ensures token.Some? ==> Present(header) && token.value != ""
    ensures token.Some? ==> |Split(header.value, ' ')| >= 2 && token.value == Split(header.value, ' ')[1]
    ensures Present(header) && |Split(header.value, ' ')| >= 2 && Split(header.value, ' ')[1] != "" ==> token.Some?
    ensures token.Some? ==> ' ' !in token.value
  {
    if !Present(header) then None
    else
      var fields := Split(header.value, ' ');
      SplitFieldsLackSeparator(header.value, ' ');
      if |fields| >= 2 && fields[1] != "" then Some(fields[1]) else None
  }

  /** A well-formed `Bearer <token>` header yields exactly the token. */
  lemma ExtractBearer(token: string)
    requires token != "" && ' ' !in token
    ensures ExtractToken(Some("Bearer " + token)) == Some(token)
  {
    SplitWithoutSeparator(token, ' ');
    assert "Bearer " + token == "Bearer" + [' '] + token;
    SplitAfterWord("Bearer", ' ', token);
  }

  /** A header with no space in it, such as a bare token, carries no token. */
  lemma ExtractWithoutScheme(header: string)
    requires ' ' !in header
    ensures ExtractToken(Some(header)) == None
  {
    SplitWithoutSeparator(header, ' ');
  }

  /** The error response the middleware may send. */
  datatype ErrorReply = ErrorReply(status: int, message: string)

  class Exchange {
    /** `req.headers.authorization`. */
    const authorization: Option<string>
    /** `req.user`. */
    var user: Option<TokenPayload>
    /** The response sent, if any. */
    var response: Option<ErrorReply>
    /** How many times `next()` has been called. */
    var nextCalls: nat

    /** A fresh exchange: nothing attached, nothing sent, next not called. */
    constructor(authorization: Option<string>)
      ensures this.authorization == authorization
      ensures user == None && response == None && nextCalls == 0
    {
      this.authorization := authorization;
      user := None;
      response := None;
      nextCalls := 0;
    }

    /** authenticateToken: without a token it sends 401; with a token that fails
        verification it sends 403; otherwise it attaches the payload's user and email and
        calls next once. Exactly one of sending and calling next happens. */
    method AuthenticateToken(jwt: Jwt)
      requires response.None?
      modifies this
      ensures ExtractToken(authorization).None? ==>
                response == Some(ErrorReply(401, TokenRequired)) && user == old(user) && nextCalls == old(nextCalls)
      ensures ExtractToken(authorization).Some? ==>
                var verified := AuthService.VerifyAccessToken(jwt, ExtractToken(authorization).value);
                && (verified.Err? ==>
                      response == Some(ErrorReply(403, InvalidOrExpired)) && user == old(user) && nextCalls == old(nextCalls))
                && (verified.Ok? ==>
                      user == Some(TokenPayload(verified.value.userId, verified.value.email))
                      && response == None && nextCalls == old(nextCalls) + 1)
      ensures response.None? <==> nextCalls == old(nextCalls) + 1
    {
      var token := ExtractToken(authorization);
      if token.None? {
        response := Some(ErrorReply(401, TokenRequired));
        return;
      }
      var payload := AuthService.VerifyAccessToken(jwt, token.value);
      if payload.Err? {
        response := Some(ErrorReply(403, InvalidOrExpired));
        return;
      }
      user := Some(TokenPayload(payload.value.userId, payload.value.email));
      nextCalls := nextCalls + 1;
    }

    /** optionalAuth: never sends a response and always calls next once; the user is
        attached only when a token is present and verifies. */
    method OptionalAuth(jwt: Jwt)
      modifies this
      ensures response == old(response)
      ensures nextCalls == old(nextCalls) + 1
      ensures ExtractToken(authorization).Some? &&
              AuthService.VerifyAccessToken(jwt, ExtractToken(authorization).value).Ok? ==>
                var payload := AuthService.VerifyAccessToken(jwt, ExtractToken(authorization).value).value;
                user == Some(TokenPayload(payload.userId, payload.email))
      ensures !(ExtractToken(authorization).Some? &&
                AuthService.VerifyAccessToken(jwt, ExtractToken(authorization).value).Ok?) ==>
                user == old(user)
    {
      var token := ExtractToken(authorization);
      if token.Some? {
        var payload := AuthService.VerifyAccessToken(jwt, token.value);
        if payload.Ok? {
          user := Some(TokenPayload(payload.value.userId, payload.value.email));
        }
      }
      nextCalls := nextCalls + 1;
    }
  }
}
