/**
 * Sessions and one-time tokens: the `users` and `user_sessions` tables the authentication
 * functions read and update, with the database clock `NOW()` (milliseconds) standing beside them.
 *
 * `AuthState` is the value of the two tables and the clock; the functions on it say what each
 * statement does to them, and the lemmas say what the source promises of those statements.
 * `AuthStore` holds the tables and the clock as fields and performs the operations in place.
 * Password hashes come from bcrypt and are passed in already computed; random choices (the session
 * UUID, the token characters) are passed in too.
 */
module Auth {
  import opened Wrappers
  import opened JsStrings
  import Validation

  type UserId = string
  type Token = string

  const DefaultSessionMinutes := 5
  const MsPerMinute := 60 * 1000
  /** An email-verification token is good for 24 hours. */
  const VerificationTokenLifetime := 24 * 60 * 60 * 1000
  /** A password-reset token is good for 1 hour. */
  const ResetTokenLifetime := 1 * 60 * 60 * 1000
  const TokenLength := 32
  const ActiveStatus := "active"

  /** A row of `users`, without its id (the key of the map) and the columns no operation here uses. */
  datatype User = User(
    email: string,
    name: string,
    passwordHash: string,
    dateOfBirth: string,
    emailVerified: bool,
    emailVerifiedAt: Option<int>,
    status: string,
    verificationToken: Option<Token>,
    verificationExpiresAt: Option<int>,
    updatedAt: Option<int>)

  /** The optional device columns of a session. */
  datatype DeviceInfo = DeviceInfo(
    deviceType: Option<string>,
    deviceName: Option<string>,
    userAgent: Option<string>,
    ipAddress: Option<string>)

  /** A row of `user_sessions`. */
  datatype Session = Session(
    userId: UserId,
    token: Token,
    expiresAt: int,
    active: bool,
    lastActivityAt: Option<int>,
    device: DeviceInfo)

  /** What `validateSession`, `verifyEmailToken` and `resetPasswordWithToken` return: a user without
      the password hash. */
  datatype AuthUser = AuthUser(id: UserId, email: string, name: string, emailVerified: bool)

  /** What `getUserByEmail` returns. */
  datatype UserWithPassword = UserWithPassword(
    id: UserId, email: string, name: string, passwordHash: string, emailVerified: bool, status: string)

  /** The two tables, sessions keyed by their token, and the clock. */
  datatype AuthState = AuthState(users: map<UserId, User>, sessions: map<Token, Session>, now: int)

  function PublicUser(id: UserId, u: User): AuthUser {
    AuthUser(id, u.email, u.name, u.emailVerified)
  }

  // ---------------------------------------------------------------------------------------------
  // Sessions

  /** `parseInt(process.env.SESSION_DURATION_MINUTES || "5")`; `env` is the number the variable
      holds, `None` when it is unset or empty. */
  function SessionMinutes(env: Option<int>): int {
    match env
    case None => DefaultSessionMinutes
    case Some(m) => m
  }

  /** The device argument the sign-up and sign-in handlers pass: only the user agent. */
  function UserAgentDevice(userAgent: Option<string>): DeviceInfo {
    DeviceInfo(None, None, userAgent, None)
  }

  function StoredDevice(d: DeviceInfo): DeviceInfo {
    DeviceInfo(OrNull(d.deviceType), OrNull(d.deviceName), OrNull(d.userAgent), OrNull(d.ipAddress))
  }

  /** The row createSession inserts: active, expiring the configured number of minutes from now. */
  function NewSession(st: AuthState, userId: UserId, token: Token, env: Option<int>, device: DeviceInfo): Session {
    Session(userId, token, st.now + SessionMinutes(env) * MsPerMinute, true, None, StoredDevice(device))
  }

  function AddSession(st: AuthState, s: Session): AuthState {
    st.(sessions := st.sessions[s.token := s])
  }

  /** The join validateSession runs: the token has a session that has not expired, is active, and
      belongs to an existing user whose status is 'active'. */
  predicate SessionValid(st: AuthState, token: Token) {
    && token in st.sessions
    && st.sessions[token].expiresAt > st.now
    && st.sessions[token].active
    && st.sessions[token].userId in st.users
    && st.users[st.sessions[token].userId].status == ActiveStatus
  }

  /** What validateSession returns. */
  function SessionUser(st: AuthState, token: Token): Option<AuthUser> {
    if SessionValid(st, token) then
      var id := st.sessions[token].userId;
      Some(PublicUser(id, st.users[id]))
    else None
  }

  /** The last-activity update validateSession makes after a successful lookup. */
  function TouchSession(st: AuthState, token: Token): AuthState {
    if SessionValid(st, token) then
      st.(sessions := st.sessions[token := st.sessions[token].(lastActivityAt := Some(st.now))])
    else st
  }

  /** deleteSession: the session with this token is made inactive. */
  function DeactivateSession(st: AuthState, token: Token): AuthState {
    if token in st.sessions then st.(sessions := st.sessions[token := st.sessions[token].(active := false)])
    else st
  }

  /** deleteAllUserSessions: every session of the user is made inactive. */
  function DeactivateUserSessions(st: AuthState, userId: UserId): AuthState {
    st.(sessions := map t | t in st.sessions ::
                      if st.sessions[t].userId == userId then st.sessions[t].(active := false)
                      else st.sessions[t])
  }

  /** cleanupExpiredSessions: every active session whose expiry lies strictly before now is made
      inactive. */
  function CleanupSessions(st: AuthState): AuthState {
    st.(sessions := map t | t in st.sessions ::
                      if st.sessions[t].active && st.sessions[t].expiresAt < st.now then st.sessions[t].(active := false)
                      else st.sessions[t])
  }

  /** A session created for an active user stays valid for exactly its configured duration: with
      nothing else changed, it is valid `t` milliseconds later if and only if `t` is less than the
      duration (five minutes when the variable is unset). */
  lemma CreatedSessionLifetime(st: AuthState, userId: UserId, token: Token, env: Option<int>, device: DeviceInfo, t: int)
    requires userId in st.users && st.users[userId].status == ActiveStatus
    ensures SessionValid(AddSession(st, NewSession(st, userId, token, env, device)).(now := st.now + t), token)
            <==> t < SessionMinutes(env) * MsPerMinute
    ensures env.None? ==>
              (SessionValid(AddSession(st, NewSession(st, userId, token, env, device)).(now := st.now + t), token)
               <==> t < 300000)
    ensures SessionUser(AddSession(st, NewSession(st, userId, token, env, device)), token).Some? ==>
              SessionUser(AddSession(st, NewSession(st, userId, token, env, device)), token).value.id == userId
  {
  }

  /** After deleteSession(t), validateSession(t) returns null, and no other session changes. */
  lemma DeleteSessionInvalidates(st: AuthState, token: Token)
    ensures SessionUser(DeactivateSession(st, token), token) == None
    ensures DeactivateSession(st, token).sessions.Keys == st.sessions.Keys
    ensures forall t :: t in st.sessions && t != token ==>
              DeactivateSession(st, token).sessions[t] == st.sessions[t]
    ensures forall t :: t != token ==> SessionUser(DeactivateSession(st, token), t) == SessionUser(st, t)
    ensures DeactivateSession(st, token).users == st.users
  {
  }

  /** deleteAllUserSessions(u) makes inactive exactly the sessions of `u`: each of them is then
      rejected, and every other session is as it was. */
  lemma DeleteAllUserSessionsExactly(st: AuthState, userId: UserId)
    ensures DeactivateUserSessions(st, userId).sessions.Keys == st.sessions.Keys
    ensures forall t :: t in st.sessions ==>
              (DeactivateUserSessions(st, userId).sessions[t].active
               <==> st.sessions[t].active && st.sessions[t].userId != userId)
    ensures forall t :: t in st.sessions ==>
              DeactivateUserSessions(st, userId).sessions[t].(active := st.sessions[t].active) == st.sessions[t]
    ensures forall t :: t in st.sessions && st.sessions[t].userId == userId ==>
              SessionUser(DeactivateUserSessions(st, userId), t) == None
    ensures forall t :: t in st.sessions && st.sessions[t].userId != userId ==>
              SessionUser(DeactivateUserSessions(st, userId), t) == SessionUser(st, t)
  {
  }

  /** Recording the last activity changes no outcome of validateSession. */
  lemma TouchKeepsValidity(st: AuthState, token: Token)
    ensures TouchSession(st, token).users == st.users && TouchSession(st, token).now == st.now
    ensures forall t :: SessionUser(TouchSession(st, token), t) == SessionUser(st, t)
  {
  }

  /** cleanupExpiredSessions deactivates only active sessions that expired strictly before now, and
      so changes no outcome of validateSession at the same instant. A session expiring exactly now
      is neither valid nor cleaned up. */
  lemma CleanupKeepsValidity(st: AuthState)
    ensures CleanupSessions(st).sessions.Keys == st.sessions.Keys
    ensures forall t :: t in st.sessions ==>
              (CleanupSessions(st).sessions[t].active <==> st.sessions[t].active && st.sessions[t].expiresAt >= st.now)
    ensures forall t :: SessionUser(CleanupSessions(st), t) == SessionUser(st, t)
    ensures forall t :: t in st.sessions && st.sessions[t].expiresAt == st.now ==>
              !SessionValid(st, t) && CleanupSessions(st).sessions[t] == st.sessions[t]
  {
  }

  // ---------------------------------------------------------------------------------------------
  // Users and their one-time tokens

  /** The row createUser inserts: unverified, active, no token. */
  function NewUser(email: string, name: string, passwordHash: string, dateOfBirth: string): User {
    User(email, name, passwordHash, dateOfBirth, false, None, ActiveStatus, None, None, None)
  }

  /** The update both token generators make: the token and its expiry go into the
      `email_verification_*` columns of the user. */
  function SetVerificationToken(st: AuthState, id: UserId, token: Token, expiresAt: int): AuthState {
    if id in st.users then
      st.(users := st.users[id := st.users[id].(verificationToken := Some(token), verificationExpiresAt := Some(expiresAt))])
    else st
  }

  /** The WHERE clause of verifyEmailToken. A NULL expiry compares as unknown and so does not match. */
  predicate VerificationMatches(u: User, token: Token, now: int) {
    u.verificationToken == Some(token) && u.verificationExpiresAt.Some? && u.verificationExpiresAt.value > now
    && !u.emailVerified
  }

  /** The WHERE clause of resetPasswordWithToken: the same columns, without the verified check. */
  predicate ResetMatches(u: User, token: Token, now: int) {
    u.verificationToken == Some(token) && u.verificationExpiresAt.Some? && u.verificationExpiresAt.value > now
  }

  function Verified(u: User, now: int): User {
    u.(emailVerified := true, emailVerifiedAt := Some(now), verificationToken := None, verificationExpiresAt := None)
  }

  /** verifyEmailToken's UPDATE: every matching user is verified and loses the token. */
  function VerifyEmails(st: AuthState, token: Token): AuthState {
    st.(users := map id | id in st.users ::
                   if VerificationMatches(st.users[id], token, st.now) then Verified(st.users[id], st.now)
                   else st.users[id])
  }

  /** changePassword: the new hash and the update time on the user, then every session of the user
      made inactive. */
  function ChangePasswordState(st: AuthState, id: UserId, passwordHash: string): AuthState {
    var users := if id in st.users then st.users[id := st.users[id].(passwordHash := passwordHash, updatedAt := Some(st.now))]
                 else st.users;
    DeactivateUserSessions(st.(users := users), id)
  }

  function ClearVerificationToken(st: AuthState, id: UserId): AuthState {
    if id in st.users then
      st.(users := st.users[id := st.users[id].(verificationToken := None, verificationExpiresAt := None)])
    else st
  }

  /** What resetPasswordWithToken does once it has found the user. */
  function ResetPasswordState(st: AuthState, id: UserId, passwordHash: string): AuthState {
    ClearVerificationToken(ChangePasswordState(st, id, passwordHash), id)
  }

  /** An email-verification token is accepted exactly while it is unexpired and the user is
      unverified; accepting it verifies the user and clears the token, so the same token is refused
      afterwards. Users the token does not match, and all sessions, are untouched. */
  lemma VerifyEmailConsumesToken(st: AuthState, token: Token)
    ensures VerifyEmails(st, token).users.Keys == st.users.Keys
    ensures forall id :: id in st.users ==> !VerificationMatches(VerifyEmails(st, token).users[id], token, st.now)
    ensures forall id :: id in st.users && VerificationMatches(st.users[id], token, st.now) ==>
              VerifyEmails(st, token).users[id].emailVerified
              && VerifyEmails(st, token).users[id].verificationToken.None?
    ensures forall id :: id in st.users && !VerificationMatches(st.users[id], token, st.now) ==>
              VerifyEmails(st, token).users[id] == st.users[id]
    ensures VerifyEmails(st, token).sessions == st.sessions
  {
  }

  /** The two kinds of token share one pair of columns, so they are interchangeable: a password-reset
      token verifies the email of an unverified user for its hour, and an email-verification token
      resets the password for its whole 24 hours. */
  lemma TokensAreInterchangeable(st: AuthState, id: UserId, token: Token, later: int)
    requires id in st.users && st.now <= later
    ensures !st.users[id].emailVerified ==>
              (VerificationMatches(SetVerificationToken(st, id, token, st.now + ResetTokenLifetime).users[id], token, later)
               <==> later < st.now + ResetTokenLifetime)
    ensures ResetMatches(SetVerificationToken(st, id, token, st.now + VerificationTokenLifetime).users[id], token, later)
            <==> later < st.now + VerificationTokenLifetime
  {
  }

  /** A successful reset stores the new hash, deactivates every session of the user, and clears the
      token, which is then refused; other users keep their rows. */
  lemma ResetPasswordEffects(st: AuthState, id: UserId, passwordHash: string)
    requires id in st.users
    ensures ResetPasswordState(st, id, passwordHash).users.Keys == st.users.Keys
    ensures ResetPasswordState(st, id, passwordHash).users[id].passwordHash == passwordHash
    ensures forall t :: !ResetMatches(ResetPasswordState(st, id, passwordHash).users[id], t, st.now)
    ensures forall other :: other in st.users && other != id ==>
              ResetPasswordState(st, id, passwordHash).users[other] == st.users[other]
    ensures forall t :: t in st.sessions && st.sessions[t].userId == id ==>
              SessionUser(ResetPasswordState(st, id, passwordHash), t) == None
    ensures ResetPasswordState(st, id, passwordHash).sessions.Keys == st.sessions.Keys
  {
  }

  /** `found` is what getUserByEmail may return: `None` when no user has the email, otherwise the
      selected columns of one user that has it. */
  predicate UserByEmail(users: map<UserId, User>, email: string, found: Option<UserWithPassword>) {
    match found
    case None => forall id :: id in users ==> users[id].email != email
    case Some(u) =>
      && u.id in users && users[u.id].email == email
      && u == UserWithPassword(u.id, email, users[u.id].name, users[u.id].passwordHash,
                               users[u.id].emailVerified, users[u.id].status)
  }

  // ---------------------------------------------------------------------------------------------
  // The tables as mutable state

  class AuthStore {
    var users: map<UserId, User>
    var sessions: map<Token, Session>
    var now: int

    function State(): AuthState
      reads this
    {
      AuthState(users, sessions, now)
    }

    constructor (now: int)
      ensures State() == AuthState(map[], map[], now)
    {
      users := map[];
      sessions := map[];
      this.now := now;
    }

    /** The clock moves on. */
    method Advance(ms: nat)
      modifies this
      ensures State() == old(State()).(now := old(now) + ms)
    {
      now := now + ms;
    }

    /** createSession. `token` is the fresh UUIDv7 the source generates. */
    method CreateSession(userId: UserId, token: Token, env: Option<int>, device: DeviceInfo) returns (s: Session)
      requires token !in sessions
      modifies this
      ensures s == NewSession(old(State()), userId, token, env, device)
      ensures s.expiresAt == old(now) + SessionMinutes(env) * MsPerMinute && s.active
      ensures State() == AddSession(old(State()), s)
    {
      var minutes := SessionMinutes(env);
      var expiresAt := now + minutes * 60 * 1000;
      s := Session(userId, token, expiresAt, true, None, StoredDevice(device));
      sessions := sessions[token := s];
    }

    /** validateSession: the user when the session is valid, after recording the activity time;
        `None`, with nothing changed, otherwise. */
    method ValidateSession(token: Token) returns (user: Option<AuthUser>)
      modifies this
      ensures user == SessionUser(old(State()), token)
      ensures State() == TouchSession(old(State()), token)
    {
      if !(token in sessions) {
        return None;
      }
      var s := sessions[token];
      if !(s.expiresAt > now && s.active && s.userId in users && users[s.userId].status == ActiveStatus) {
        return None;
      }
      sessions := sessions[token := s.(lastActivityAt := Some(now))];
      var u := users[s.userId];
      user := Some(AuthUser(s.userId, u.email, u.name, u.emailVerified));
    }

    method DeleteSession(token: Token)
      modifies this
      ensures State() == DeactivateSession(old(State()), token)
    {
      if token in sessions {
        sessions := sessions[token := sessions[token].(active := false)];
      }
    }

    method DeleteAllUserSessions(userId: UserId)
      modifies this
      ensures State() == DeactivateUserSessions(old(State()), userId)
    {
      sessions := map t | t in sessions ::
                    if sessions[t].userId == userId then sessions[t].(active := false) else sessions[t];
    }

    /** getUserByEmail: some user with this email (the query has no ORDER BY), or `None`. */
    method GetUserByEmail(email: string) returns (user: Option<UserWithPassword>)
      ensures user.None? <==> forall id :: id in users ==> users[id].email != email
      ensures UserByEmail(users, email, user)
    {
      if id :| id in users && users[id].email == email {
        var u := users[id];
        user := Some(UserWithPassword(id, u.email, u.name, u.passwordHash, u.emailVerified, u.status));
      } else {
        user := None;
      }
    }

    /** createUser. `id` is the fresh id the database assigns; `passwordHash` is the bcrypt hash of
        the password. */
    method CreateUser(id: UserId, email: string, name: string, passwordHash: string, dateOfBirth: string)
      returns (user: AuthUser)
      requires id !in users
      modifies this
      ensures user == AuthUser(id, email, name, false)
      ensures State() == old(State()).(users := old(users)[id := NewUser(email, name, passwordHash, dateOfBirth)])
    {
      users := users[id := NewUser(email, name, passwordHash, dateOfBirth)];
      user := AuthUser(id, email, name, false);
    }

    /** generateEmailVerificationToken: a 32-character token (from the random `picks`) stored with a
        24-hour expiry. */
    method GenerateEmailVerificationToken(userId: UserId, picks: seq<nat>) returns (token: Token)
      requires |picks| == TokenLength
      requires forall i :: 0 <= i < |picks| ==> picks[i] < |Validation.Charset|
      modifies this
      ensures |token| == TokenLength
      ensures forall i :: 0 <= i < |token| ==> Validation.IsAlphanumeric(token[i])
      ensures token == Validation.TokenOf(picks)
      ensures State() == SetVerificationToken(old(State()), userId, token, old(now) + VerificationTokenLifetime)
    {
      token := Validation.GenerateToken(TokenLength, picks);
      var expiresAt := now + 24 * 60 * 60 * 1000;
      if userId in users {
        users := users[userId := users[userId].(verificationToken := Some(token), verificationExpiresAt := Some(expiresAt))];
      }
    }

    /** verifyEmailToken: every matching user is verified, and one of them (RETURNING without
        ORDER BY) is returned as it is after the update. */
    method VerifyEmailToken(token: Token) returns (user: Option<AuthUser>)
      modifies this
      ensures user.None? <==> forall id :: id in old(users) ==> !VerificationMatches(old(users)[id], token, old(now))
      ensures user.Some? ==>
                var id := user.value.id;
                id in old(users) && VerificationMatches(old(users)[id], token, old(now))
                && user.value == AuthUser(id, old(users)[id].email, old(users)[id].name, true)
      ensures State() == VerifyEmails(old(State()), token)
    {
      if id :| id in users && VerificationMatches(users[id], token, now) {
        user := Some(AuthUser(id, users[id].email, users[id].name, true));
      } else {
        user := None;
      }
      users := map id | id in users ::
                 if VerificationMatches(users[id], token, now) then Verified(users[id], now) else users[id];
    }

    /** changePassword. */
    method ChangePassword(userId: UserId, passwordHash: string)
      modifies this
      ensures State() == ChangePasswordState(old(State()), userId, passwordHash)
    {
      if userId in users {
        users := users[userId := users[userId].(passwordHash := passwordHash, updatedAt := Some(now))];
      }
      DeleteAllUserSessions(userId);
    }

    /** generatePasswordResetToken: `None` for an unknown email; otherwise a 32-character token with
        a 1-hour expiry, written to the email-verification columns of one user with that email. */
    method GeneratePasswordResetToken(email: string, picks: seq<nat>) returns (token: Option<Token>)
      requires |picks| == TokenLength
      requires forall i :: 0 <= i < |picks| ==> picks[i] < |Validation.Charset|
      modifies this
      ensures token.None? <==> forall id :: id in old(users) ==> old(users)[id].email != email
      ensures token.None? ==> State() == old(State())
      ensures token.Some? ==> token.value == Validation.TokenOf(picks)
      ensures token.Some? ==>
                |token.value| == TokenLength
                && (forall i :: 0 <= i < |token.value| ==> Validation.IsAlphanumeric(token.value[i]))
                && (exists id :: id in old(users) && old(users)[id].email == email
                      && State() == SetVerificationToken(old(State()), id, token.value, old(now) + ResetTokenLifetime))
    {
      var user := GetUserByEmail(email);
      if user.None? {
        return None;
      }
      var t := Validation.GenerateToken(TokenLength, picks);
      var expiresAt := now + 1 * 60 * 60 * 1000;
      var id := user.value.id;
      users := users[id := users[id].(verificationToken := Some(t), verificationExpiresAt := Some(expiresAt))];
      token := Some(t);
    }

    /** resetPasswordWithToken: `None`, with nothing changed, when no user holds the token unexpired;
        otherwise the password of one such user is changed, their sessions ended and the token
        cleared, and that user is returned as it was selected. */
    method ResetPasswordWithToken(token: Token, passwordHash: string) returns (user: Option<AuthUser>)
      modifies this
      ensures user.None? <==> forall id :: id in old(users) ==> !ResetMatches(old(users)[id], token, old(now))
      ensures user.None? ==> State() == old(State())
      ensures user.Some? ==>
                var id := user.value.id;
                id in old(users) && ResetMatches(old(users)[id], token, old(now))
                && user.value == PublicUser(id, old(users)[id])
                && State() == ResetPasswordState(old(State()), id, passwordHash)
    {
      if id :| id in users && ResetMatches(users[id], token, now) {
        var u := users[id];
        ChangePassword(id, passwordHash);
        users := users[id := users[id].(verificationToken := None, verificationExpiresAt := None)];
        user := Some(PublicUser(id, u));
      } else {
        user := None;
      }
    }

    method CleanupExpiredSessions()
      modifies this
      ensures State() == CleanupSessions(old(State()))
    {
      sessions := map t | t in sessions ::
                    if sessions[t].active && sessions[t].expiresAt < now then sessions[t].(active := false)
                    else sessions[t];
    }
  }
}
