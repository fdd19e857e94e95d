/** The API's authentication service: registration, login, token refresh with rotation, and
    logout, over the user table, the profile table and the session store. bcrypt is a
    foreign primitive and appears as two function parameters: the salted hash of a
    password and the comparison of a password with a stored hash. */
module AuthService {
  import opened Common
  import opened Tokens
  import opened Accounts

  /** The user object of a reply: the public fields, plus the creation time that register
      selects and the active flag that refresh selects. */
  datatype SessionUser = SessionUser(fields: PublicUser, createdAt: Option<int>, isActive: Option<bool>)

  /** What register, login and refresh return: the user object and a token pair. */
  datatype Session = Session(user: SessionUser, tokens: TokenPair)

  /** How long a stored refresh token lives; expiry is not modelled. */
  const SessionTtlSeconds: nat := 7 * 24 * 60 * 60

  const UserAlreadyExists: string := "User already exists"
  const InvalidCredentials: string := "Invalid credentials"
  const AccountDeactivated: string := "Account is deactivated"
  /** The database's refusal of a second row with an existing id; its text is not modelled. */
  const DuplicateKey: string := "Unique constraint failed"

  /** verifyAccessToken: any library failure becomes `Invalid access token`. */
  function VerifyAccessToken(jwt: Jwt, token: string): (r: Result<TokenPayload>)
    ensures r.Ok? <==> jwt.verifyAccess(token).Ok?
    ensures r.Ok? ==> r.value == jwt.verifyAccess(token).value
    ensures r.Err? ==> r.error == "Invalid access token"
  {
    match jwt.verifyAccess(token)
    case Ok(payload) => Ok(payload)
    case Err(_) => Err("Invalid access token")
  }

  /** verifyRefreshToken: any library failure becomes `Invalid refresh token`. */
  function VerifyRefreshToken(jwt: Jwt, token: string): (r: Result<TokenPayload>)
    ensures r.Ok? <==> jwt.verifyRefresh(token).Ok?
    ensures r.Ok? ==> r.value == jwt.verifyRefresh(token).value
    ensures r.Err? ==> r.error == InvalidRefreshToken
  {
    match jwt.verifyRefresh(token)
    case Ok(payload) => Ok(payload)
    case Err(_) => Err(InvalidRefreshToken)
  }

  /** The password check login performs against a stored hash. */
  function Matcher(compare: (string, string) -> bool, password: string): string -> bool {
    hash => compare(password, hash)
  }

  /** The message of a refused login. An unknown email and a wrong password are reported
      alike, so a caller cannot tell which accounts exist. */
  function LoginFailure(o: LoginOutcome): (message: string)
    requires !o.Accepted?
    ensures o.NoSuchUser? || o.WrongPassword? <==> message == InvalidCredentials
    ensures o.Deactivated? <==> message == AccountDeactivated
  {
    match o
    case Deactivated(_) => AccountDeactivated
    case _ => InvalidCredentials
  }

  class AuthService {
    var users: seq<UserRow>
    var profiles: seq<ProfileRow>
    /** The Redis cache, restricted to its `refresh_token:<userId>` entries. */
    var sessions: map<string, string>

    predicate Valid()
      reads this
    {
      UniqueKeys(users)
    }

    constructor()
      ensures users == [] && profiles == [] && sessions == map[]
      ensures Valid()
    {
      users := [];
      profiles := [];
      sessions := map[];
    }

    /** register. An existing email is refused before anything is written; otherwise the
        user and their profile are created and the new refresh token becomes the user's
        session. `newId` and `newProfileId` are the ids the database assigns. */
    method Register(
      email: string, password: string, username: string, bcryptHash: string -> string,
      jwt: Jwt, newId: string, newProfileId: string, now: int)
      returns (r: Result<Session>)
      requires Valid()
      modifies this
      ensures Valid()
      ensures FindByEmail(old(users), email).Some? ==>
                r == Err(UserAlreadyExists)
                && users == old(users) && profiles == old(profiles) && sessions == old(sessions)
      ensures FindByEmail(old(users), email).None? && FindById(old(users), newId).Some? ==>
                r == Err(DuplicateKey)
                && users == old(users) && profiles == old(profiles) && sessions == old(sessions)
      ensures FindByEmail(old(users), email).None? && FindById(old(users), newId).None? ==>
                var u := NewUser(newId, email, username, bcryptHash(password), now);
                var tokens := GenerateTokens(jwt, TokenPayload(newId, email), now);
                && r == Ok(Session(SessionUser(PublicOf(u), Some(now), None), tokens))
                && users == old(users) + [u]
                && profiles == old(profiles) + [NewProfile(newProfileId, newId)]
                && sessions == old(sessions)[SessionKey(newId) := tokens.refreshToken]
                && FindByEmail(users, email) == Some(|old(users)|)
                && StoredTokenMatches(sessions, newId, tokens.refreshToken)
    {
      if FindByEmail(users, email).Some? {
        return Err(UserAlreadyExists);
      }
      if FindById(users, newId).Some? {
        return Err(DuplicateKey);
      }
      var hashedPassword := bcryptHash(password);
      var u := NewUser(newId, email, username, hashedPassword, now);
      AppendFresh(users, u);
      users := users + [u];
      profiles := profiles + [NewProfile(newProfileId, newId)];
      var tokens := GenerateTokens(jwt, TokenPayload(u.id, u.email), now);
      sessions := sessions[SessionKey(u.id) := tokens.refreshToken];
      r := Ok(Session(SessionUser(PublicOf(u), Some(u.createdAt), None), tokens));
    }

    /** login. The checks run in the order of CheckLogin and a refusal writes nothing; on
        success the new refresh token replaces whatever session the user had and the last
        login time is stamped. */
    method Login(email: string, password: string, compare: (string, string) -> bool, jwt: Jwt, now: int)
      returns (r: Result<Session>)
      requires Valid()
      modifies this
      ensures Valid()
      ensures var o := CheckLogin(old(users), email, Matcher(compare, password));
              !o.Accepted? ==>
                r == Err(LoginFailure(o))
                && users == old(users) && profiles == old(profiles) && sessions == old(sessions)
      ensures var o := CheckLogin(old(users), email, Matcher(compare, password));
              o.Accepted? ==>
                var u := old(users)[o.index];
                var tokens := GenerateTokens(jwt, TokenPayload(u.id, u.email), now);
                && r == Ok(Session(SessionUser(PublicOf(u), None, None), tokens))
                && users == old(users)[o.index := u.(lastLoginAt := Some(now))]
                && profiles == old(profiles)
                && sessions == old(sessions)[SessionKey(u.id) := tokens.refreshToken]
                && (forall t :: t != tokens.refreshToken ==> !StoredTokenMatches(sessions, u.id, t))
    {
      var o := CheckLogin(users, email, Matcher(compare, password));
      if !o.Accepted? {
        return Err(LoginFailure(o));
      }
      var u := users[o.index];
      var tokens := GenerateTokens(jwt, TokenPayload(u.id, u.email), now);
      sessions := sessions[SessionKey(u.id) := tokens.refreshToken];
      StampLoginKeepsKeys(users, o.index, now);
      users := users[o.index := u.(lastLoginAt := Some(now))];
      r := Ok(Session(SessionUser(PublicOf(u), None, None), tokens));
    }

    /** refreshToken. The token must verify, be the one stored for its user, and name an
        existing active user; then a new pair is signed for the user's current row and the
        new refresh token is stored. When the new token differs from the presented one, the
        presented one is refused from then on. */
    method RefreshToken(token: string, jwt: Jwt, now: int) returns (r: Result<Session>)
      requires Valid()
      modifies this
      ensures Valid()
      ensures users == old(users) && profiles == old(profiles)
      ensures jwt.verifyRefresh(token).Err? ==> r == Err(InvalidRefreshToken) && sessions == old(sessions)
      ensures jwt.verifyRefresh(token).Ok? ==>
                var payload := jwt.verifyRefresh(token).value;
                var check := CheckRefresh(old(users), old(sessions), token, payload);
                && (check.Err? ==> r == Err(check.error) && sessions == old(sessions))
                && (check.Ok? ==>
                      var u := old(users)[check.value];
                      var tokens := GenerateTokens(jwt, TokenPayload(u.id, u.email), now);
                      && r == Ok(Session(SessionUser(PublicOf(u), None, Some(true)), tokens))
                      && sessions == old(sessions)[SessionKey(payload.userId) := tokens.refreshToken]
                      && (tokens.refreshToken != token ==> CheckRefresh(users, sessions, token, payload).Err?))
    {
      var verified := VerifyRefreshToken(jwt, token);
      if verified.Err? {
        return Err(verified.error);
      }
      var payload := verified.value;
      var check := CheckRefresh(users, sessions, token, payload);
      if check.Err? {
        return Err(check.error);
      }
      var u := users[check.value];
      var tokens := GenerateTokens(jwt, TokenPayload(u.id, u.email), now);
      if tokens.refreshToken != token {
        RotationRevokesOld(users, sessions, token, tokens.refreshToken, payload);
      }
      sessions := sessions[SessionKey(u.id) := tokens.refreshToken];
      r := Ok(Session(SessionUser(PublicOf(u), None, Some(u.isActive)), tokens));
    }

    /** logout: deletes the user's session, after which no refresh token of theirs is
        accepted; every other session stays. */
    method Logout(userId: string)
      requires Valid()
      modifies this
      ensures Valid()
      ensures users == old(users) && profiles == old(profiles)
      ensures sessions == old(sessions) - {SessionKey(userId)}
      ensures forall t :: !StoredTokenMatches(sessions, userId, t)
    {
      sessions := sessions - {SessionKey(userId)};
    }
  }
}
