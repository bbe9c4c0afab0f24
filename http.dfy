/**
 * What the HTTP handlers share: the JSON responses they build (a status and an `error`, a
 * `message` or a data payload) and the extraction of the session token from an `Authorization:
 * Bearer …` header. CORS headers and the serialisation of the body are outside the model.
 */
module Http {
  import opened Wrappers
  import opened JsStrings

  const StatusOk := 200
  const StatusBadRequest := 400
  const StatusUnauthorized := 401
  const StatusConflict := 409
  const StatusServerError := 500

  const Unauthorized := "Unauthorized"
  const InvalidSession := "Invalid session"
  const InternalServerError := "Internal server error"

  /** The payload of a successful sign-up or sign-in: the session token and the four public fields
      of the user. */
  datatype SessionReply = SessionReply(token: string, id: string, email: string, name: string, emailVerified: bool)

  /** `{ error }`, `{ message }`, or the handler's own payload. */
  datatype Body<+T> = ErrorBody(error: string) | MessageBody(message: string) | DataBody(data: T)

  datatype Response<+T> = Response(status: int, body: Body<T>)

  function Error<T>(status: int, error: string): Response<T>
  {
    Response(status, ErrorBody(error))
  }

  /** A 200 response with a `message`. */
  function Message<T>(message: string): Response<T>
  {
    Response(StatusOk, MessageBody(message))
  }

  /** A 200 response with a payload. */
  function Json<T>(data: T): Response<T>
  {
    Response(StatusOk, DataBody(data))
  }

  /** What a handler's catch block returns. */
  function ServerError<T>(): Response<T> {
    Error(StatusServerError, InternalServerError)
  }

  const BearerPrefix := "Bearer "

  /** The token of an Authorization header: `None` when the header is missing or does not start
      with "Bearer " (answered with 401 "Unauthorized"), otherwise `authHeader.split(" ")[1]`. */
  function BearerToken(header: Option<string>): (token: Option<string>)
    ensures token.Some? <==> header.Some? && StartsWith(header.value, BearerPrefix)
    ensures token.Some? ==> ' ' !in token.value
  {
    if header.Some? && StartsWith(header.value, BearerPrefix) then
      var h := header.value;
      assert IndexOf(h, ' ') == Some(6) by {
        assert h[..7] == BearerPrefix;
        assert h[6] == ' ';
        assert ' ' !in h[..6] by {
          forall k | 0 <= k < 6 ensures h[..6][k] != ' ' { assert h[..6][k] == BearerPrefix[k]; }
        }
      }
      assert Split(h, ' ') == [h[..6]] + Split(h[7..], ' ');
      Some(Split(h, ' ')[1])
    else None
  }

  /** The token is the text after "Bearer " up to the next space, if any. */
  lemma BearerTokenIsSecondField(rest: string)
    ensures BearerToken(Some(BearerPrefix + rest)) == Some(Split(rest, ' ')[0])
  {
    var h := BearerPrefix + rest;
    assert h[..7] == BearerPrefix;
    assert h[7..] == rest;
    assert IndexOf(h, ' ') == Some(6) by {
      assert h[6] == ' ';
      assert ' ' !in h[..6] by {
        forall k | 0 <= k < 6 ensures h[..6][k] != ' ' { assert h[..6][k] == BearerPrefix[k]; }
      }
    }
    assert Split(h, ' ') == [h[..6]] + Split(rest, ' ');
  }

  /** A header built from a token without spaces gives that token back. */
  lemma BearerTokenRoundTrip(token: string)
    requires ' ' !in token
    ensures BearerToken(Some(BearerPrefix + token)) == Some(token)
  {
    BearerTokenIsSecondField(token);
    assert IndexOf(token, ' ') == None;
  }
}
