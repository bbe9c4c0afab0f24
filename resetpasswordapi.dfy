/**
 * The reset-password endpoint: both fields must be present, the new password must pass
 * validation, and only then is the token looked up; an unknown or expired token is refused.
 *
 * The bcrypt hash of the new password is an opaque function.
 */
module ResetPasswordApi {
  import opened Wrappers
  import opened JsStrings
  import opened Http
  import Validation
  import Auth

  const TokenAndPasswordRequired := "Token and new password required"
  const InvalidOrExpiredToken := "Invalid or expired token"
  const PasswordResetSuccessfully := "Password reset successfully"

  /** The JSON fields, `None` when absent or null. */
  datatype ResetPasswordBody = ResetPasswordBody(token: Option<string>, password: Option<string>)

  /** The checks made before the token is used, in order: both fields present, then the password
      valid. The error of the first that fails, or `None`. */
  function RequestError(body: ResetPasswordBody): (r: Option<string>)
    ensures OrNull(body.token).None? || OrNull(body.password).None? ==> r == Some(TokenAndPasswordRequired)
    ensures OrNull(body.token).Some? && OrNull(body.password).Some? ==>
              (r.None? <==> Validation.ValidatePassword(body.password.value).valid)
    ensures OrNull(body.token).Some? && OrNull(body.password).Some? && !Validation.ValidatePassword(body.password.value).valid ==>
              r == Some(Validation.ValidatePassword(body.password.value).errors[0])
  {
    if OrNull(body.token).None? || OrNull(body.password).None? then Some(TokenAndPasswordRequired)
    else
      var check := Validation.ValidatePassword(body.password.value);
      if !check.valid then Some(check.errors[0]) else None
  }

  /** A password of 8 to 128 code units with a token gets past the checks, so only the token
      decides; a shorter or longer one is refused before the token is looked at. */
  lemma PasswordCheckedBeforeToken(token: string, password: string)
    requires token != [] && password != []
    ensures RequestError(ResetPasswordBody(Some(token), Some(password))).None? <==>
              Validation.MinPasswordLength <= Utf16Length(password) <= Validation.MaxPasswordLength
    ensures Utf16Length(password) < Validation.MinPasswordLength ==>
              RequestError(ResetPasswordBody(Some(token), Some(password))) == Some(Validation.PasswordTooShort)
    ensures Utf16Length(password) > Validation.MaxPasswordLength ==>
              RequestError(ResetPasswordBody(Some(token), Some(password))) == Some(Validation.PasswordTooLong)
  {
    assert OrNull(Some(token)) == Some(token);
    assert OrNull(Some(password)) == Some(password);
  }

  predicate TokenHeld(users: map<Auth.UserId, Auth.User>, token: string, now: int) {
    exists id :: id in users && Auth.ResetMatches(users[id], token, now)
  }

  /** resetPassword. */
  method ResetPassword(auth: Auth.AuthStore, body: Option<ResetPasswordBody>, hash: string -> string)
    returns (resp: Response<()>)
    modifies auth
    ensures body.None? ==> resp == ServerError() && auth.State() == old(auth.State())
    ensures body.Some? && RequestError(body.value).Some? ==>
              resp == Error(StatusBadRequest, RequestError(body.value).value) && auth.State() == old(auth.State())
    ensures body.Some? && RequestError(body.value).None? && !TokenHeld(old(auth.users), body.value.token.value, old(auth.now)) ==>
              resp == Error(StatusBadRequest, InvalidOrExpiredToken) && auth.State() == old(auth.State())
    ensures body.Some? && RequestError(body.value).None? && TokenHeld(old(auth.users), body.value.token.value, old(auth.now)) ==>
              && resp == Message(PasswordResetSuccessfully)
              && exists id :: id in old(auth.users) && Auth.ResetMatches(old(auth.users)[id], body.value.token.value, old(auth.now))
                              && auth.State() == Auth.ResetPasswordState(old(auth.State()), id, hash(body.value.password.value))
  {
    if body.None? {
      return ServerError();
    }
    var b := body.value;
    if OrNull(b.token).None? || OrNull(b.password).None? {
      return Error(StatusBadRequest, TokenAndPasswordRequired);
    }
    var token, password := b.token.value, b.password.value;
    var check := Validation.ValidatePassword(password);
    if !check.valid {
      return Error(StatusBadRequest, check.errors[0]);
    }
    var user := auth.ResetPasswordWithToken(token, hash(password));
    if user.None? {
      return Error(StatusBadRequest, InvalidOrExpiredToken);
    }
    resp := Message(PasswordResetSuccessfully);
  }
}
