/**
 * The sign-up endpoint: the body's fields are validated in a fixed order, an email already in use
 * is refused, and otherwise a user, a session and an email-verification token are created.
 *
 * The date of birth is given both as the text stored in the user row and as the date it parses to
 * (`None` when it does not parse); "today" is a parameter. The bcrypt hash is an opaque function.
 * The verification email is sent without waiting for it, so nothing it does reaches the response
 * and it has no part in the model.
 */
module SignupApi {
  import opened Wrappers
  import opened Http
  import Validation
  import Auth

  const InvalidEmailFormat := "Invalid email format"
  const EmailAlreadyRegistered := "Email already registered"

  datatype SignupBody = SignupBody(email: string, name: string, password: string, dateOfBirth: string)

  /** The validation checks, in order: email, password, name, age. The error of the first that
      fails (the first password error for the password), or `None` when all pass. */
  function ValidationError(body: SignupBody, birth: Option<Validation.Date>, today: Validation.Date): (r: Option<string>)
    ensures r.None? <==>
              && Validation.ValidateEmail(body.email)
              && Validation.ValidatePassword(body.password).valid
              && Validation.ValidateName(body.name).valid
              && Validation.ValidateAge(birth, today).valid
    ensures !Validation.ValidateEmail(body.email) ==> r == Some(InvalidEmailFormat)
    ensures Validation.ValidateEmail(body.email) && !Validation.ValidatePassword(body.password).valid ==>
              r == Some(Validation.ValidatePassword(body.password).errors[0])
    ensures Validation.ValidateEmail(body.email) && Validation.ValidatePassword(body.password).valid
            && !Validation.ValidateName(body.name).valid ==>
              r == Validation.ValidateName(body.name).error
    ensures Validation.ValidateEmail(body.email) && Validation.ValidatePassword(body.password).valid
            && Validation.ValidateName(body.name).valid && !Validation.ValidateAge(birth, today).valid ==>
              r == Validation.ValidateAge(birth, today).error
  {
    var password := Validation.ValidatePassword(body.password);
    var name := Validation.ValidateName(body.name);
    var age := Validation.ValidateAge(birth, today);
    if !Validation.ValidateEmail(body.email) then Some(InvalidEmailFormat)
    else if !password.valid then Some(password.errors[0])
    else if !name.valid then name.error
    else if !age.valid then age.error
    else None
  }

  predicate EmailTaken(users: map<Auth.UserId, Auth.User>, email: string) {
    exists id :: id in users && users[id].email == email
  }

  /** The response that refuses the request, or `None` when the account is to be created. `body` is
      `None` when the body is not valid JSON, which makes `req.json()` throw. */
  function Refusal(users: map<Auth.UserId, Auth.User>, body: Option<SignupBody>, birth: Option<Validation.Date>, today: Validation.Date)
    : (r: Option<Response<SessionReply>>)
    ensures body.None? ==> r == Some(ServerError())
    ensures body.Some? && ValidationError(body.value, birth, today).Some? ==>
              r == Some(Error(StatusBadRequest, ValidationError(body.value, birth, today).value))
    ensures body.Some? && ValidationError(body.value, birth, today).None? && EmailTaken(users, body.value.email) ==>
              r == Some(Error(StatusConflict, EmailAlreadyRegistered))
    ensures r.None? <==>
              body.Some? && ValidationError(body.value, birth, today).None? && !EmailTaken(users, body.value.email)
  {
    match body
    case None => Some(ServerError())
    case Some(b) =>
      match ValidationError(b, birth, today)
      case Some(e) => Some(Error(StatusBadRequest, e))
      case None => if EmailTaken(users, b.email) then Some(Error(StatusConflict, EmailAlreadyRegistered)) else None
  }

  /** The tables after a successful sign-up: the new user, their session, and the verification
      token written to the user. */
  function Registered(
    st: Auth.AuthState, body: SignupBody, hash: string -> string, userId: Auth.UserId,
    sessionToken: Auth.Token, env: Option<int>, userAgent: Option<string>, picks: seq<nat>)
    : Auth.AuthState
    requires forall i :: 0 <= i < |picks| ==> picks[i] < |Validation.Charset|
  {
    var withUser := st.(users := st.users[userId := Auth.NewUser(body.email, body.name, hash(body.password), body.dateOfBirth)]);
    var withSession := Auth.AddSession(withUser, Auth.NewSession(withUser, userId, sessionToken, env, Auth.UserAgentDevice(userAgent)));
    Auth.SetVerificationToken(withSession, userId, Validation.TokenOf(picks), st.now + Auth.VerificationTokenLifetime)
  }

  /** After a sign-up, the new user is unverified and active, holds the hash of the password and a
      24-hour verification token, nobody else changed, and the returned session token signs the new
      user in for as long as the session lasts. */
  lemma RegisteredUserSignedIn(
    st: Auth.AuthState, body: SignupBody, hash: string -> string, userId: Auth.UserId,
    sessionToken: Auth.Token, env: Option<int>, userAgent: Option<string>, picks: seq<nat>)
    requires forall i :: 0 <= i < |picks| ==> picks[i] < |Validation.Charset|
    requires Auth.SessionMinutes(env) > 0
    ensures var after := Registered(st, body, hash, userId, sessionToken, env, userAgent, picks);
            && after.users.Keys == st.users.Keys + {userId}
            && (forall id :: id in st.users && id != userId ==> after.users[id] == st.users[id])
            && after.users[userId].email == body.email
            && after.users[userId].passwordHash == hash(body.password)
            && !after.users[userId].emailVerified
            && after.users[userId].status == Auth.ActiveStatus
            && after.users[userId].verificationToken == Some(Validation.TokenOf(picks))
            && after.users[userId].verificationExpiresAt == Some(st.now + Auth.VerificationTokenLifetime)
            && Auth.SessionUser(after, sessionToken) == Some(Auth.AuthUser(userId, body.email, body.name, false))
  {
  }

  /** signup. `userId` and `sessionToken` are the fresh ids the database and createSession
      generate, `picks` the random positions of the verification token, `userAgent` the
      User-Agent header (`None` when absent or empty). */
  method Signup(
    auth: Auth.AuthStore, body: Option<SignupBody>, birth: Option<Validation.Date>, today: Validation.Date,
    hash: string -> string, userId: Auth.UserId, sessionToken: Auth.Token, env: Option<int>,
    userAgent: Option<string>, picks: seq<nat>)
    returns (resp: Response<SessionReply>)
    requires userId !in auth.users && sessionToken !in auth.sessions
    requires |picks| == Auth.TokenLength && forall i :: 0 <= i < |picks| ==> picks[i] < |Validation.Charset|
    modifies auth
    ensures Refusal(old(auth.users), body, birth, today).Some? ==>
              resp == Refusal(old(auth.users), body, birth, today).value && auth.State() == old(auth.State())
    ensures Refusal(old(auth.users), body, birth, today).None? ==>
              && resp == Json(SessionReply(sessionToken, userId, body.value.email, body.value.name, false))
              && auth.State() == Registered(old(auth.State()), body.value, hash, userId, sessionToken, env, userAgent, picks)
  {
    if body.None? {
      return ServerError();
    }
    var b := body.value;
    ghost var failure := ValidationError(b, birth, today);
    if !Validation.ValidateEmail(b.email) {
      return Error(StatusBadRequest, InvalidEmailFormat);
    }
    var passwordCheck := Validation.ValidatePassword(b.password);
    if !passwordCheck.valid {
      assert failure == Some(passwordCheck.errors[0]);
      return Error(StatusBadRequest, passwordCheck.errors[0]);
    }
    var nameCheck := Validation.ValidateName(b.name);
    if !nameCheck.valid {
      assert failure == nameCheck.error;
      return Error(StatusBadRequest, nameCheck.error.value);
    }
    var ageCheck := Validation.ValidateAge(birth, today);
    if !ageCheck.valid {
      assert failure == ageCheck.error;
      return Error(StatusBadRequest, ageCheck.error.value);
    }
    assert failure == None;
    var existing := auth.GetUserByEmail(b.email);
    if existing.Some? {
      assert EmailTaken(auth.users, b.email);
      return Error(StatusConflict, EmailAlreadyRegistered);
    }
    resp := CreateAccount(auth, b, hash, userId, sessionToken, env, userAgent, picks);
  }

  /** The steps of signup after the checks: createUser, createSession, and the verification token. */
  method CreateAccount(
    auth: Auth.AuthStore, body: SignupBody, hash: string -> string, userId: Auth.UserId,
    sessionToken: Auth.Token, env: Option<int>, userAgent: Option<string>, picks: seq<nat>)
    returns (resp: Response<SessionReply>)
    requires userId !in auth.users && sessionToken !in auth.sessions
    requires |picks| == Auth.TokenLength && forall i :: 0 <= i < |picks| ==> picks[i] < |Validation.Charset|
    modifies auth
    ensures resp == Json(SessionReply(sessionToken, userId, body.email, body.name, false))
    ensures auth.State() == Registered(old(auth.State()), body, hash, userId, sessionToken, env, userAgent, picks)
  {
    ghost var st0 := auth.State();
    var user := auth.CreateUser(userId, body.email, body.name, hash(body.password), body.dateOfBirth);
    ghost var st1 := auth.State();
    assert st1 == st0.(users := st0.users[userId := Auth.NewUser(body.email, body.name, hash(body.password), body.dateOfBirth)]);
    var session := auth.CreateSession(user.id, sessionToken, env, Auth.UserAgentDevice(userAgent));
    assert auth.State() == Auth.AddSession(st1, Auth.NewSession(st1, userId, sessionToken, env, Auth.UserAgentDevice(userAgent)));
    var token := auth.GenerateEmailVerificationToken(user.id, picks);
    resp := Json(SessionReply(session.token, user.id, user.email, user.name, user.emailVerified));
  }
}
