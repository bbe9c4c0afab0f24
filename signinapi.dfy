/**
 * The sign-in endpoint: both credentials must be present, the user is looked up by email, the
 * password is checked against the stored hash, and only then is a session created. An unknown
 * email and a wrong password get the same answer.
 *
 * The bcrypt comparison is an opaque function of the password and the stored hash.
 */
module SigninApi {
  import opened Wrappers
  import opened JsStrings
  import opened Http
  import Auth

  const CredentialsRequired := "Email and password required"
  const InvalidCredentials := "Invalid credentials"

  /** The JSON fields, `None` when absent or null. */
  datatype SigninBody = SigninBody(email: Option<string>, password: Option<string>)

  /** `!email || !password`: both must be present and non-empty. */
  function Credentials(body: SigninBody): (r: Option<(string, string)>)
    ensures r.Some? <==> OrNull(body.email).Some? && OrNull(body.password).Some?
    ensures r.Some? ==> r.value == (body.email.value, body.password.value) && r.value.0 != [] && r.value.1 != []
  {
    match (OrNull(body.email), OrNull(body.password))
    case (Some(e), Some(p)) => Some((e, p))
    case _ => None
  }

  /** The credential check on what getUserByEmail found: the user whose hash the password matches,
      or the refusal. */
  function CheckCredentials(found: Option<Auth.UserWithPassword>, password: string, verify: (string, string) -> bool)
    : (r: Result<Auth.UserWithPassword, Response<SessionReply>>)
    ensures r.Ok? <==> found.Some? && verify(password, found.value.passwordHash)
    ensures r.Ok? ==> r.value == found.value
    ensures r.Err? ==> r.error == Error(StatusUnauthorized, InvalidCredentials)
  {
    match found
    case None => Err(Error(StatusUnauthorized, InvalidCredentials))
    case Some(u) =>
      if verify(password, u.passwordHash) then Ok(u) else Err(Error(StatusUnauthorized, InvalidCredentials))
  }

  /** An unknown email and a wrong password for a known one are answered identically, so the
      answer does not tell whether the account exists. */
  lemma UnknownEmailLooksLikeWrongPassword(u: Auth.UserWithPassword, password: string, verify: (string, string) -> bool)
    requires !verify(password, u.passwordHash)
    ensures CheckCredentials(None, password, verify) == CheckCredentials(Some(u), password, verify)
  {
  }

  /** What signin answers once the user lookup has returned `found`: the 400 for missing
      credentials, the 401 for bad ones, or the session reply. */
  function SigninResponse(
    body: Option<SigninBody>, found: Option<Auth.UserWithPassword>, verify: (string, string) -> bool, sessionToken: Auth.Token)
    : (r: Response<SessionReply>)
    ensures body.None? ==> r == ServerError()
    ensures body.Some? && Credentials(body.value).None? ==> r == Error(StatusBadRequest, CredentialsRequired)
    ensures body.Some? && Credentials(body.value).Some?
            && (found.None? || !verify(Credentials(body.value).value.1, found.value.passwordHash)) ==>
              r == Error(StatusUnauthorized, InvalidCredentials)
    ensures r.status == StatusOk <==>
              body.Some? && Credentials(body.value).Some?
              && CheckCredentials(found, Credentials(body.value).value.1, verify).Ok?
    ensures r.status == StatusOk ==>
              r == Json(SessionReply(sessionToken, found.value.id, found.value.email, found.value.name, found.value.emailVerified))
  {
    match body
    case None => ServerError()
    case Some(b) =>
      match Credentials(b)
      case None => Error(StatusBadRequest, CredentialsRequired)
      case Some((email, password)) =>
        match CheckCredentials(found, password, verify)
        case Err(refusal) => refusal
        case Ok(u) => Json(SessionReply(sessionToken, u.id, u.email, u.name, u.emailVerified))
  }

  /** signin. `sessionToken` is the fresh id createSession generates, `userAgent` the User-Agent
      header (`None` when absent or empty). `found` is what the user lookup returned, `None` when
      the credentials were missing and no lookup was made. A session is created exactly when the
      answer is 200, and is for the user whose hash the password matched. */
  method Signin(
    auth: Auth.AuthStore, body: Option<SigninBody>, verify: (string, string) -> bool,
    sessionToken: Auth.Token, env: Option<int>, userAgent: Option<string>)
    returns (resp: Response<SessionReply>, ghost found: Option<Auth.UserWithPassword>)
    requires sessionToken !in auth.sessions
    modifies auth
    ensures body.Some? && Credentials(body.value).Some? ==> Auth.UserByEmail(old(auth.users), body.value.email.value, found)
    ensures resp == SigninResponse(body, found, verify, sessionToken)
    ensures resp.status != StatusOk ==> auth.State() == old(auth.State())
    ensures resp.status == StatusOk ==>
              auth.State() == Auth.AddSession(old(auth.State()),
                                Auth.NewSession(old(auth.State()), found.value.id, sessionToken, env,
                                                Auth.UserAgentDevice(userAgent)))
  {
    found := None;
    if body.None? {
      return ServerError(), found;
    }
    var b := body.value;
    if OrNull(b.email).None? || OrNull(b.password).None? {
      return Error(StatusBadRequest, CredentialsRequired), found;
    }
    var email, password := b.email.value, b.password.value;
    var user := auth.GetUserByEmail(email);
    found := user;
    if user.None? {
      return Error(StatusUnauthorized, InvalidCredentials), found;
    }
    var isValid := verify(password, user.value.passwordHash);
    if !isValid {
      return Error(StatusUnauthorized, InvalidCredentials), found;
    }
    var session := auth.CreateSession(user.value.id, sessionToken, env, Auth.UserAgentDevice(userAgent));
    resp := Json(SessionReply(session.token, user.value.id, user.value.email, user.value.name, user.value.emailVerified));
  }
}
