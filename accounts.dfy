/** The account data both back ends share: the user table, the profile table, and the
    session store that keeps one refresh token per user under `refresh_token:<userId>`.
    The decisions that login and refresh take on this state are pure functions here; the
    two services differ only in how they report them. */
module Accounts {
  import opened Common
  import opened Tokens

  datatype UserRow = UserRow(
    id: string, email: string, username: string, passwordHash: string,
    isActive: bool, createdAt: int, lastLoginAt: Option<int>)

  datatype ProfileRow = ProfileRow(id: string, userId: string, location: string)

  /** The user fields a response exposes. */
  datatype PublicUser = PublicUser(id: string, email: string, username: string)

  function PublicOf(u: UserRow): PublicUser {
    PublicUser(u.id, u.email, u.username)
  }

  /** A newly registered account: active, never logged in. */
  function NewUser(id: string, email: string, username: string, passwordHash: string, now: int): UserRow {
    UserRow(id, email, username, passwordHash, true, now, None)
  }

  /** The profile created with every account. */
  function NewProfile(id: string, userId: string): ProfileRow {
    ProfileRow(id, userId, "Unknown")
  }

  // ---------------------------------------------------------------------------
  // Lookups
  // ---------------------------------------------------------------------------

  /** `WHERE email = ?`: the first row with that email. */
  function FindByEmail(users: seq<UserRow>, email: string): (r: Option<nat>)
    ensures r.Some? ==> r.value < |users| && users[r.value].email == email
    ensures r.Some? ==> forall j :: 0 <= j < r.value ==> users[j].email != email
    ensures r.None? <==> forall j :: 0 <= j < |users| ==> users[j].email != email
    decreases |users|
  {
    if users == [] then None
    else if users[0].email == email then Some(0)
    else match FindByEmail(users[1..], email)
      case None => None
      case Some(i) => Some(i + 1)
  }

  /** `WHERE id = ?`: the first row with that id. */
  function FindById(users: seq<UserRow>, id: string): (r: Option<nat>)
    ensures r.Some? ==> r.value < |users| && users[r.value].id == id
    ensures r.Some? ==> forall j :: 0 <= j < r.value ==> users[j].id != id
    ensures r.None? <==> forall j :: 0 <= j < |users| ==> users[j].id != id
    decreases |users|
  {
    if users == [] then None
    else if users[0].id == id then Some(0)
    else match FindById(users[1..], id)
      case None => None
      case Some(i) => Some(i + 1)
  }

  /** The table's unique columns: no two rows share an email or an id. */
  predicate UniqueKeys(users: seq<UserRow>) {
    forall i, j :: 0 <= i < j < |users| ==> users[i].email != users[j].email && users[i].id != users[j].id
  }

  /** Under unique keys a lookup finds the one row carrying the key. */
  lemma FindUnique(users: seq<UserRow>, i: nat)
    requires UniqueKeys(users) && i < |users|
    ensures FindByEmail(users, users[i].email) == Some(i)
    ensures FindById(users, users[i].id) == Some(i)
  {
  }

  /** Appending an account whose email and id are both new keeps the keys unique, and the
      new row is then what both lookups find. */
  lemma AppendFresh(users: seq<UserRow>, u: UserRow)
    requires UniqueKeys(users)
    requires FindByEmail(users, u.email).None? && FindById(users, u.id).None?
    ensures UniqueKeys(users + [u])
    ensures FindByEmail(users + [u], u.email) == Some(|users|)
    ensures FindById(users + [u], u.id) == Some(|users|)
  {
    FindUnique(users + [u], |users|);
  }

  /** Stamping the last login changes no key. */
  lemma StampLoginKeepsKeys(users: seq<UserRow>, i: nat, now: int)
    requires UniqueKeys(users) && i < |users|
    ensures UniqueKeys(users[i := users[i].(lastLoginAt := Some(now))])
  {
  }

  // ---------------------------------------------------------------------------
  // Sessions
  // ---------------------------------------------------------------------------

  const SessionPrefix: string := "refresh_token:"

  /** `refresh_token:<userId>`. */
  function SessionKey(userId: string): string {
    SessionPrefix + userId
  }

  lemma SessionKeyInjective(a: string, b: string)
    requires SessionKey(a) == SessionKey(b)
    ensures a == b
  {
    assert a == SessionKey(a)[|SessionPrefix|..];
    assert b == SessionKey(b)[|SessionPrefix|..];
  }

  /** Whether a refresh token is the one stored for its user. A missing entry never
      matches, since `null !== token`. */
  predicate StoredTokenMatches(sessions: map<string, string>, userId: string, token: string) {
    SessionKey(userId) in sessions && sessions[SessionKey(userId)] == token
  }

  /** The checks refresh makes after the signature is verified: the token must be the
      stored one, and its user must exist and be active. */
  function CheckRefresh(users: seq<UserRow>, sessions: map<string, string>, token: string, payload: TokenPayload)
    : (r: Result<nat>)
    ensures r.Ok? <==>
              && StoredTokenMatches(sessions, payload.userId, token)
              && FindById(users, payload.userId).Some?
              && users[FindById(users, payload.userId).value].isActive
    ensures r.Ok? ==> r.value < |users| && users[r.value].id == payload.userId && users[r.value].isActive
    ensures !StoredTokenMatches(sessions, payload.userId, token) ==> r == Err(InvalidRefreshToken)
    ensures StoredTokenMatches(sessions, payload.userId, token) && r.Err? ==> r == Err(UserNotFoundOrInactive)
  {
    if !StoredTokenMatches(sessions, payload.userId, token) then Err(InvalidRefreshToken)
    else match FindById(users, payload.userId)
      case None => Err(UserNotFoundOrInactive)
      case Some(i) => if users[i].isActive then Ok(i) else Err(UserNotFoundOrInactive)
  }

  const InvalidRefreshToken: string := "Invalid refresh token"
  const UserNotFoundOrInactive: string := "User not found or inactive"

  /** Rotation: once a refresh has stored a different token, the presented one is refused
      and the new one is accepted. */
  lemma RotationRevokesOld(users: seq<UserRow>, sessions: map<string, string>, token: string, newToken: string, payload: TokenPayload)
    requires CheckRefresh(users, sessions, token, payload).Ok?
    requires newToken != token
    ensures CheckRefresh(users, sessions[SessionKey(payload.userId) := newToken], token, payload) == Err(InvalidRefreshToken)
    ensures CheckRefresh(users, sessions[SessionKey(payload.userId) := newToken], newToken, payload).Ok?
  {
  }

  /** One live refresh token per user: after a token is stored for `userId`, every other
      token naming that user is refused, whatever was stored before. */
  lemma OneLiveTokenPerUser(users: seq<UserRow>, sessions: map<string, string>, userId: string, newToken: string, token: string, payload: TokenPayload)
    requires payload.userId == userId && token != newToken
    ensures CheckRefresh(users, sessions[SessionKey(userId) := newToken], token, payload) == Err(InvalidRefreshToken)
  {
  }

  /** Logout revokes: once the entry is deleted, no token of that user is accepted. */
  lemma LogoutRevokes(users: seq<UserRow>, sessions: map<string, string>, userId: string, token: string, payload: TokenPayload)
    requires payload.userId == userId
    ensures CheckRefresh(users, sessions - {SessionKey(userId)}, token, payload) == Err(InvalidRefreshToken)
  {
  }

  /** Writing or deleting one user's entry leaves every other user's refresh decision as it was. */
  lemma OtherSessionsUnaffected(users: seq<UserRow>, sessions: map<string, string>, userId: string, newToken: string, token: string, payload: TokenPayload)
    requires payload.userId != userId
    ensures CheckRefresh(users, sessions[SessionKey(userId) := newToken], token, payload) == CheckRefresh(users, sessions, token, payload)
    ensures CheckRefresh(users, sessions - {SessionKey(userId)}, token, payload) == CheckRefresh(users, sessions, token, payload)
  {
    if SessionKey(userId) == SessionKey(payload.userId) {
      SessionKeyInjective(userId, payload.userId);
    }
  }

  // ---------------------------------------------------------------------------
  // Login
  // ---------------------------------------------------------------------------

  /** The outcome of a credential check, in the order the checks run: the account is looked
      up by email, then its active flag read, then the password compared. */
  datatype LoginOutcome = NoSuchUser | Deactivated(index: nat) | WrongPassword(index: nat) | Accepted(index: nat)

  /** `matches(hash)` says whether the presented password verifies against a stored hash. */
  function CheckLogin(users: seq<UserRow>, email: string, matches: string -> bool): (r: LoginOutcome)
    ensures r.NoSuchUser? <==> FindByEmail(users, email).None?
    ensures !r.NoSuchUser? ==> r.index == FindByEmail(users, email).value
    ensures r.Deactivated? <==> FindByEmail(users, email).Some? && !users[FindByEmail(users, email).value].isActive
    ensures r.Accepted? <==>
              && FindByEmail(users, email).Some?
              && users[FindByEmail(users, email).value].isActive
              && matches(users[FindByEmail(users, email).value].passwordHash)
  {
    match FindByEmail(users, email)
    case None => NoSuchUser
    case Some(i) =>
      if !users[i].isActive then Deactivated(i)
      else if !matches(users[i].passwordHash) then WrongPassword(i)
      else Accepted(i)
  }

  /** A deactivated account is reported as such whatever the password, so the password is
      never compared for it. */
  lemma DeactivatedIgnoresPassword(users: seq<UserRow>, email: string, m1: string -> bool, m2: string -> bool)
    ensures CheckLogin(users, email, m1).Deactivated? <==> CheckLogin(users, email, m2).Deactivated?
  {
  }
}
