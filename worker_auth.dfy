/** The worker's authentication routes over the D1 user and profile tables and the SESSION
    namespace. Passwords are SHA-256 digests in hexadecimal and ids come from generateId;
    every outcome is an HTTP status with a message. */
module WorkerAuth {
  import opened Common
  import opened Tokens
  import opened Accounts
  import Crypto
  import Schemas

  /** How long a session entry lives; expiry is not modelled. */
  const SessionTtlSeconds: nat := 7 * 24 * 60 * 60

  /** The text of a schema failure; its wording is not modelled. */
  const ValidationFailed: string := "Validation failed"
  /** The database's refusal of a second row with an existing id; its text is not modelled. */
  const DuplicateKey: string := "UNIQUE constraint failed"
  const AuthorizationRequired: string := "Authorization header required"

  // ---------------------------------------------------------------------------
  // Schemas
  // ---------------------------------------------------------------------------

  /** registerSchema. An absent field fails like an invalid one. */
  predicate ValidRegisterBody(email: string, password: string, username: string) {
    Schemas.IsEmail(email) && |password| >= 8 && |username| >= 3
  }

  /** loginSchema. */
  predicate ValidLoginBody(email: string, password: string) {
    Schemas.IsEmail(email) && |password| >= 1
  }

  /** refreshSchema. */
  predicate ValidRefreshBody(refreshToken: string) {
    |refreshToken| >= 1
  }

  /** Registration is stricter than login: every password that may register may log in. */
  lemma RegisterBodyAllowsLogin(email: string, password: string, username: string)
    requires ValidRegisterBody(email, password, username)
    ensures ValidLoginBody(email, password)
  {
  }

  // ---------------------------------------------------------------------------
  // Replies
  // ---------------------------------------------------------------------------

  datatype AuthReply =
    | Failure(status: int, message: string)
    | SignedIn(status: int, message: string, user: PublicUser, tokens: TokenPair)
    | LoggedOut
    | Me(payload: TokenPayload)

  /** `error.message || fallback`. */
  function MessageOr(error: string, fallback: string): (m: string)
    ensures m != "" || fallback == ""
    ensures error != "" ==> m == error
  {
    OrElse(Some(error), fallback)
  }

  /** The password check login performs: the SHA-256 hex digest compared with the stored hash. */
  function PasswordMatcher(password: string, sha256: string -> seq<Crypto.Byte>): string -> bool {
    hash => Crypto.VerifyPassword(password, hash, sha256)
  }

  /** The statuses of a refused login: 401 for an unknown email and for a wrong password,
      403 for a deactivated account. */
  function LoginRefusal(o: LoginOutcome): (reply: AuthReply)
    requires !o.Accepted?
    ensures reply.Failure?
    ensures reply.status == 403 <==> o.Deactivated?
    ensures reply.status == 401 <==> (o.NoSuchUser? || o.WrongPassword?)
    ensures reply.status == 401 ==> reply.message == "Invalid credentials"
    ensures reply.status == 403 ==> reply.message == "Account is deactivated"
  {
    match o
    case Deactivated(_) => Failure(403, "Account is deactivated")
    case _ => Failure(401, "Invalid credentials")
  }

  /** GET /me: reads no state. A missing header is 401, any verification failure 403. */
  function MeRoute(header: Option<string>, jwt: Jwt): (reply: AuthReply)
    ensures !Present(header) <==> reply == Failure(401, AuthorizationRequired)
    ensures reply.Failure? ==> reply.status == 401 || reply == Failure(403, "Invalid token")
    ensures Present(header) ==>
              var verified := jwt.verifyAccess(ReplaceFirst(header.value, "Bearer ", ""));
              (reply.Me? <==> verified.Ok?) && (reply.Me? ==> reply.payload == verified.value)
  {
    if !Present(header) then Failure(401, AuthorizationRequired)
    else
      match jwt.verifyAccess(ReplaceFirst(header.value, "Bearer ", ""))
      case Err(_) => Failure(403, "Invalid token")
      case Ok(payload) => Me(payload)
  }

  /** Whether a profile row already carries an id. */
  predicate ProfileIdTaken(profiles: seq<ProfileRow>, id: string) {
    exists i :: 0 <= i < |profiles| && profiles[i].id == id
  }

  class AuthRoutes {
    var users: seq<UserRow>
    var profiles: seq<ProfileRow>
    /** The SESSION namespace. */
    var session: map<string, string>

    predicate Valid()
      reads this
    {
      UniqueKeys(users)
    }

    constructor()
      ensures users == [] && profiles == [] && session == map[]
      ensures Valid()
    {
      users := [];
      profiles := [];
      session := map[];
    }

    /** POST /register. `userRandom` and `profileRandom` are the two random texts the ids
        are drawn from. The user and profile rows are written by separate statements, so a
        failed profile insert leaves the user row in place without a session. */
    method Register(
      email: string, password: string, username: string, sha256: string -> seq<Crypto.Byte>,
      jwt: Jwt, now: nat, userRandom: string, profileRandom: string)
      returns (reply: AuthReply)
      requires Valid()
      modifies this
      ensures Valid()
      ensures reply.Failure? ==> reply.status == 400 && session == old(session)
      ensures !ValidRegisterBody(email, password, username) ==>
                reply == Failure(400, ValidationFailed) && users == old(users) && profiles == old(profiles)
      ensures ValidRegisterBody(email, password, username) && FindByEmail(old(users), email).Some? ==>
                reply == Failure(400, "User already exists") && users == old(users) && profiles == old(profiles)
      ensures ValidRegisterBody(email, password, username) && FindByEmail(old(users), email).None? ==>
                var userId := Crypto.GenerateId("user", now, userRandom);
                var profileId := Crypto.GenerateId("profile", now, profileRandom);
                var u := NewUser(userId, email, username, Crypto.HashPassword(password, sha256), now);
                var tokens := GenerateTokens(jwt, TokenPayload(userId, email), now);
                && (FindById(old(users), userId).Some? ==>
                      reply == Failure(400, DuplicateKey) && users == old(users) && profiles == old(profiles))
                && (FindById(old(users), userId).None? && ProfileIdTaken(old(profiles), profileId) ==>
                      reply == Failure(400, DuplicateKey) && users == old(users) + [u] && profiles == old(profiles))
                && (FindById(old(users), userId).None? && !ProfileIdTaken(old(profiles), profileId) ==>
                      && reply == SignedIn(201, "User registered successfully", PublicOf(u), tokens)
                      && users == old(users) + [u]
                      && profiles == old(profiles) + [NewProfile(profileId, userId)]
                      && session == old(session)[SessionKey(userId) := tokens.refreshToken])
    {
      if !ValidRegisterBody(email, password, username) {
        return Failure(400, ValidationFailed);
      }
      if FindByEmail(users, email).Some? {
        return Failure(400, "User already exists");
      }
      var passwordHash := Crypto.HashPassword(password, sha256);
      var userId := Crypto.GenerateId("user", now, userRandom);
      if FindById(users, userId).Some? {
        return Failure(400, DuplicateKey);
      }
      var u := NewUser(userId, email, username, passwordHash, now);
      AppendFresh(users, u);
      users := users + [u];
      var profileId := Crypto.GenerateId("profile", now, profileRandom);
      if ProfileIdTaken(profiles, profileId) {
        return Failure(400, DuplicateKey);
      }
      profiles := profiles + [NewProfile(profileId, userId)];
      var tokens := GenerateTokens(jwt, TokenPayload(userId, email), now);
      session := session[SessionKey(userId) := tokens.refreshToken];
      reply := SignedIn(201, "User registered successfully", PublicOf(u), tokens);
    }

    /** POST /login. Every refusal comes before any write; on success the new refresh
        token replaces the user's session and the last login is stamped. */
    method Login(email: string, password: string, sha256: string -> seq<Crypto.Byte>, jwt: Jwt, now: int)
      returns (reply: AuthReply)
      requires Valid()
      modifies this
      ensures Valid()
      ensures profiles == old(profiles)
      ensures !ValidLoginBody(email, password) ==>
                reply == Failure(400, ValidationFailed) && users == old(users) && session == old(session)
      ensures ValidLoginBody(email, password) ==>
                var o := CheckLogin(old(users), email, PasswordMatcher(password, sha256));
                && (!o.Accepted? ==> reply == LoginRefusal(o) && users == old(users) && session == old(session))
                && (o.Accepted? ==>
                      var u := old(users)[o.index];
                      var tokens := GenerateTokens(jwt, TokenPayload(u.id, u.email), now);
                      && reply == SignedIn(200, "Login successful", PublicOf(u), tokens)
                      && users == old(users)[o.index := u.(lastLoginAt := Some(now))]
                      && session == old(session)[SessionKey(u.id) := tokens.refreshToken])
    {
      if !ValidLoginBody(email, password) {
        return Failure(400, ValidationFailed);
      }
      var o := CheckLogin(users, email, PasswordMatcher(password, sha256));
      if !o.Accepted? {
        return LoginRefusal(o);
      }
      var u := users[o.index];
      var tokens := GenerateTokens(jwt, TokenPayload(u.id, u.email), now);
      session := session[SessionKey(u.id) := tokens.refreshToken];
      StampLoginKeepsKeys(users, o.index, now);
      users := users[o.index := u.(lastLoginAt := Some(now))];
      reply := SignedIn(200, "Login successful", PublicOf(u), tokens);
    }

    /** POST /refresh. Every refusal, including a malformed body and a failed signature, is
        a 401 and writes nothing; success stores the new refresh token for the user. */
    method Refresh(refreshToken: string, jwt: Jwt, now: int) returns (reply: AuthReply)
      requires Valid()
      modifies this
      ensures Valid()
      ensures users == old(users) && profiles == old(profiles)
      ensures reply.Failure? ==> reply.status == 401 && session == old(session)
      ensures reply.Failure? || reply.SignedIn?
      ensures !ValidRefreshBody(refreshToken) ==> reply == Failure(401, ValidationFailed)
      ensures ValidRefreshBody(refreshToken) && jwt.verifyRefresh(refreshToken).Err? ==>
                reply == Failure(401, MessageOr(jwt.verifyRefresh(refreshToken).error, "Token refresh failed"))
      ensures ValidRefreshBody(refreshToken) && jwt.verifyRefresh(refreshToken).Ok? ==>
                var payload := jwt.verifyRefresh(refreshToken).value;
                var check := CheckRefresh(old(users), old(session), refreshToken, payload);
                && (check.Err? ==> reply == Failure(401, check.error))
                && (check.Ok? ==>
                      var u := old(users)[check.value];
                      var tokens := GenerateTokens(jwt, TokenPayload(u.id, u.email), now);
                      && reply == SignedIn(200, "Token refreshed successfully", PublicOf(u), tokens)
                      && session == old(session)[SessionKey(payload.userId) := tokens.refreshToken]
                      && (tokens.refreshToken != refreshToken ==> CheckRefresh(users, session, refreshToken, payload).Err?))
    {
      if !ValidRefreshBody(refreshToken) {
        return Failure(401, ValidationFailed);
      }
      match jwt.verifyRefresh(refreshToken)
      case Err(e) =>
        return Failure(401, MessageOr(e, "Token refresh failed"));
      case Ok(payload) =>
        var check := CheckRefresh(users, session, refreshToken, payload);
        if check.Err? {
          return Failure(401, check.error);
        }
        var u := users[check.value];
        var tokens := GenerateTokens(jwt, TokenPayload(u.id, u.email), now);
        if tokens.refreshToken != refreshToken {
          RotationRevokesOld(users, session, refreshToken, tokens.refreshToken, payload);
        }
        session := session[SessionKey(u.id) := tokens.refreshToken];
        reply := SignedIn(200, "Token refreshed successfully", PublicOf(u), tokens);
    }

    /** POST /logout. Without a header it is 401; a token that fails verification is 400;
        otherwise the user's session entry is deleted. */
    method Logout(header: Option<string>, jwt: Jwt) returns (reply: AuthReply)
      requires Valid()
      modifies this
      ensures Valid()
      ensures users == old(users) && profiles == old(profiles)
      ensures !Present(header) <==> reply == Failure(401, AuthorizationRequired)
      ensures reply.Failure? ==> session == old(session)
      ensures Present(header) ==>
                var verified := jwt.verifyAccess(ReplaceFirst(header.value, "Bearer ", ""));
                && (verified.Err? ==> reply == Failure(400, MessageOr(verified.error, "Logout failed")))
                && (verified.Ok? ==>
                      reply == LoggedOut
                      && session == old(session) - {SessionKey(verified.value.userId)}
                      && forall t :: !StoredTokenMatches(session, verified.value.userId, t))
    {
      if !Present(header) {
        return Failure(401, AuthorizationRequired);
      }
      var token := ReplaceFirst(header.value, "Bearer ", "");
      match jwt.verifyAccess(token)
      case Err(e) =>
        return Failure(400, MessageOr(e, "Logout failed"));
      case Ok(payload) =>
        session := session - {SessionKey(payload.userId)};
        reply := LoggedOut;
    }
  }
}
