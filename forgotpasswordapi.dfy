/**
 * The forgot-password endpoint: for any email it answers with the same notice, whether or not an
 * account has it; when one does, a reset token is generated and mailed to it.
 *
 * The reset email is awaited, so its failure is a parameter: a send that fails makes the handler
 * answer 500, after the token has been written. The mail itself is returned as what was sent.
 */
module ForgotPasswordApi {
  import opened Wrappers
  import opened JsStrings
  import opened Http
  import Validation
  import Auth

  const EmailRequired := "Email required"
  const ResetLinkNotice := "If an account exists, a reset link has been sent."

  /** The JSON field, `None` when absent or null. */
  datatype ForgotPasswordBody = ForgotPasswordBody(email: Option<string>)

  /** The reset email: its recipient, the name it greets, and the token it carries. */
  datatype ResetMail = ResetMail(to: string, name: string, token: string)

  predicate KnownEmail(users: map<Auth.UserId, Auth.User>, email: string) {
    exists id :: id in users && users[id].email == email
  }

  /** forgotPassword. `picks` are the random positions of the reset token; `mailDelivered` says
      whether sending the reset email succeeds. */
  method ForgotPassword(auth: Auth.AuthStore, body: Option<ForgotPasswordBody>, picks: seq<nat>, mailDelivered: bool)
    returns (resp: Response<()>, sent: Option<ResetMail>)
    requires |picks| == Auth.TokenLength && forall i :: 0 <= i < |picks| ==> picks[i] < |Validation.Charset|
    modifies auth
    ensures body.None? ==> resp == ServerError() && sent == None && auth.State() == old(auth.State())
    ensures body.Some? && OrNull(body.value.email).None? ==>
              resp == Error(StatusBadRequest, EmailRequired) && sent == None && auth.State() == old(auth.State())
    ensures body.Some? && OrNull(body.value.email).Some? && !KnownEmail(old(auth.users), body.value.email.value) ==>
              resp == Message(ResetLinkNotice) && sent == None && auth.State() == old(auth.State())
    ensures body.Some? && OrNull(body.value.email).Some? && KnownEmail(old(auth.users), body.value.email.value) ==>
              var email := body.value.email.value;
              && resp == (if mailDelivered then Message(ResetLinkNotice) else ServerError())
              && sent.Some? && sent.value.to == email && sent.value.token == Validation.TokenOf(picks)
              && (exists id :: id in old(auth.users) && old(auth.users)[id].email == email
                               && old(auth.users)[id].name == sent.value.name)
              && (exists id :: id in old(auth.users) && old(auth.users)[id].email == email
                               && auth.State() == Auth.SetVerificationToken(old(auth.State()), id, sent.value.token,
                                                                            old(auth.now) + Auth.ResetTokenLifetime))
    ensures body.Some? && OrNull(body.value.email).Some? && mailDelivered ==> resp == Message(ResetLinkNotice)
  {
    sent := None;
    if body.None? {
      return ServerError(), sent;
    }
    if OrNull(body.value.email).None? {
      return Error(StatusBadRequest, EmailRequired), sent;
    }
    var email := body.value.email.value;
    var user := auth.GetUserByEmail(email);
    if user.None? {
      return Message(ResetLinkNotice), sent;
    }
    var token := auth.GeneratePasswordResetToken(email, picks);
    if token.Some? {
      sent := Some(ResetMail(email, user.value.name, token.value));
      if !mailDelivered {
        return ServerError(), sent;
      }
    }
    resp := Message(ResetLinkNotice);
  }
}
