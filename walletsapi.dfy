/**
 * The wallet endpoints: listing the wallets of the signed-in user, and creating one after the
 * request passes its checks. Both authenticate with the session token of the Authorization header.
 *
 * URL validation (`new URL`) and amount validation (`parseFloat`) are outside the model: the
 * endpoint is given what they report, `None` when the value passes and the error message otherwise.
 */
module WalletsApi {
  import opened Wrappers
  import opened Http
  import Validation
  import Auth
  import Db

  const InvalidCurrencyCode := "Invalid currency code"

  /** The fields createWalletEndpoint reads from the JSON body. `initialAmount` is the number
      `parseFloat(initial_amount)` gives when `initial_amount` is truthy, and `None` when it is
      falsy; `isPrimary` is `!!is_primary`. */
  datatype CreateWalletBody = CreateWalletBody(
    name: string,
    walletUrl: string,
    currencyCode: string,
    initialAmount: Option<real>,
    isPrimary: bool)

  /** The checks on the body, in the order the endpoint makes them: name, URL, currency, then the
      amount when one is given. The error of the first that fails, or `None` when all pass. */
  function BodyError(body: CreateWalletBody, urlError: Option<string>, amountError: Option<string>): (r: Option<string>)
    ensures r.None? <==>
              && Validation.ValidateWalletName(body.name).valid
              && urlError.None?
              && Validation.ValidateCurrencyCode(body.currencyCode)
              && (body.initialAmount.Some? ==> amountError.None?)
    ensures !Validation.ValidateWalletName(body.name).valid ==> r == Validation.ValidateWalletName(body.name).error
    ensures Validation.ValidateWalletName(body.name).valid && urlError.Some? ==> r == urlError
    ensures Validation.ValidateWalletName(body.name).valid && urlError.None? && !Validation.ValidateCurrencyCode(body.currencyCode)
            ==> r == Some(InvalidCurrencyCode)
  {
    var nameCheck := Validation.ValidateWalletName(body.name);
    if !nameCheck.valid then nameCheck.error
    else if urlError.Some? then urlError
    else if !Validation.ValidateCurrencyCode(body.currencyCode) then Some(InvalidCurrencyCode)
    else if body.initialAmount.Some? && amountError.Some? then amountError
    else None
  }

  /** Without a truthy initial amount the amount is not validated: what validateAmount would say
      about it makes no difference. */
  lemma AmountCheckedOnlyWhenGiven(body: CreateWalletBody, urlError: Option<string>, a1: Option<string>, a2: Option<string>)
    requires body.initialAmount.None?
    ensures BodyError(body, urlError, a1) == BodyError(body, urlError, a2)
  {
  }

  /** The argument of createWallet: the session's user, the body's fields, the parsed amount or 0,
      and the primary flag. */
  function RequestedWallet(userId: string, body: CreateWalletBody): Db.WalletInput {
    Db.WalletInput(userId, body.name, body.walletUrl, body.currencyCode,
                   Some(match body.initialAmount case None => 0.0 case Some(a) => a),
                   Some(body.isPrimary))
  }

  /** What createWalletEndpoint decides: the wallet to create, or the response that refuses the
      request. `body` is `None` when the body is not valid JSON, which makes `req.json()` throw. */
  function CreateWalletDecision(
    st: Auth.AuthState, header: Option<string>, body: Option<CreateWalletBody>,
    urlError: Option<string>, amountError: Option<string>)
    : (r: Result<Db.WalletInput, Response<Db.Wallet>>)
    ensures BearerToken(header).None? ==> r == Err(Error(StatusUnauthorized, Unauthorized))
    ensures BearerToken(header).Some? && Auth.SessionUser(st, BearerToken(header).value).None? ==>
              r == Err(Error(StatusUnauthorized, InvalidSession))
    ensures r.Err? ==> r.error.body.ErrorBody?
    ensures r.Err? && r.error.status == StatusBadRequest ==>
              body.Some? && BodyError(body.value, urlError, amountError) == Some(r.error.body.error)
    ensures r.Ok? <==>
              && BearerToken(header).Some? && Auth.SessionUser(st, BearerToken(header).value).Some?
              && body.Some? && BodyError(body.value, urlError, amountError).None?
    ensures r.Ok? ==>
              var user := Auth.SessionUser(st, BearerToken(header).value).value;
              && r.value.userId == user.id
              && r.value.currentBalance == Some(if body.value.initialAmount.Some? then body.value.initialAmount.value else 0.0)
              && r.value.isPrimary == Some(body.value.isPrimary)
  {
    match BearerToken(header)
    case None => Err(Error(StatusUnauthorized, Unauthorized))
    case Some(token) =>
      match Auth.SessionUser(st, token)
      case None => Err(Error(StatusUnauthorized, InvalidSession))
      case Some(user) =>
        match body
        case None => Err(ServerError())
        case Some(b) =>
          match BodyError(b, urlError, amountError)
          case Some(e) => Err(Error(StatusBadRequest, e))
          case None => Ok(RequestedWallet(user.id, b))
  }

  /** The wallet an accepted request creates is owned by the session's user, holds the initial
      amount or 0, is active, and is listed for that user. */
  lemma AcceptedWalletIsListed(
    st: Auth.AuthState, header: Option<string>, body: Option<CreateWalletBody>,
    urlError: Option<string>, amountError: Option<string>,
    table: seq<Db.Wallet>, id: string, now: int)
    requires CreateWalletDecision(st, header, body, urlError, amountError).Ok?
    ensures var w := Db.NewWallet(id, CreateWalletDecision(st, header, body, urlError, amountError).value, now);
            && w.userId == Auth.SessionUser(st, BearerToken(header).value).value.id
            && w.currentBalance == (if body.value.initialAmount.Some? then body.value.initialAmount.value else 0.0)
            && w.isPrimary == body.value.isPrimary
            && w.status == Db.ActiveStatus
            && w in Db.WalletsOf(table + [w], w.userId)
  {
    var input := CreateWalletDecision(st, header, body, urlError, amountError).value;
    Db.CreatedWalletIsListed(table, id, input, now);
  }

  /** The session check of both endpoints also records the session's last activity. */
  function AfterAuthentication(st: Auth.AuthState, header: Option<string>): Auth.AuthState {
    match BearerToken(header)
    case None => st
    case Some(token) => Auth.TouchSession(st, token)
  }

  /** createWalletEndpoint. `walletId` is the id the database generates. */
  method CreateWalletEndpoint(
    auth: Auth.AuthStore, db: Db.Database, header: Option<string>, body: Option<CreateWalletBody>,
    urlError: Option<string>, amountError: Option<string>, walletId: string)
    returns (resp: Response<Db.Wallet>)
    modifies auth, db
    ensures auth.State() == AfterAuthentication(old(auth.State()), header)
    ensures match CreateWalletDecision(old(auth.State()), header, body, urlError, amountError)
            case Err(refusal) => resp == refusal && db.wallets == old(db.wallets)
            case Ok(input) =>
              && resp == Json(Db.NewWallet(walletId, input, old(db.now)))
              && db.wallets == old(db.wallets) + [Db.NewWallet(walletId, input, old(db.now))]
    ensures db.faceImages == old(db.faceImages) && db.transactions == old(db.transactions)
    ensures db.clients == old(db.clients) && db.grants == old(db.grants) && db.now == old(db.now)
  {
    var token := BearerToken(header);
    if token.None? {
      return Error(StatusUnauthorized, Unauthorized);
    }
    var user := auth.ValidateSession(token.value);
    if user.None? {
      return Error(StatusUnauthorized, InvalidSession);
    }
    if body.None? {
      return ServerError();
    }
    var b := body.value;
    var nameCheck := Validation.ValidateWalletName(b.name);
    if !nameCheck.valid {
      return Error(StatusBadRequest, nameCheck.error.value);
    }
    if urlError.Some? {
      return Error(StatusBadRequest, urlError.value);
    }
    if !Validation.ValidateCurrencyCode(b.currencyCode) {
      return Error(StatusBadRequest, InvalidCurrencyCode);
    }
    if b.initialAmount.Some? && amountError.Some? {
      return Error(StatusBadRequest, amountError.value);
    }
    var balance := if b.initialAmount.Some? then b.initialAmount.value else 0.0;
    var wallet := db.CreateWallet(walletId, Db.WalletInput(user.value.id, b.name, b.walletUrl, b.currencyCode,
                                                           Some(balance), Some(b.isPrimary)));
    resp := Json(wallet);
  }

  /** listWallets: 401 without a valid session, otherwise the wallets getWalletsByUserId lists for
      the session's user, which are that user's only. */
  method ListWallets(auth: Auth.AuthStore, db: Db.Database, header: Option<string>)
    returns (resp: Response<seq<Db.Wallet>>)
    modifies auth
    ensures auth.State() == AfterAuthentication(old(auth.State()), header)
    ensures BearerToken(header).None? ==> resp == Error(StatusUnauthorized, Unauthorized)
    ensures BearerToken(header).Some? && Auth.SessionUser(old(auth.State()), BearerToken(header).value).None? ==>
              resp == Error(StatusUnauthorized, InvalidSession)
    ensures BearerToken(header).Some? && Auth.SessionUser(old(auth.State()), BearerToken(header).value).Some? ==>
              var user := Auth.SessionUser(old(auth.State()), BearerToken(header).value).value;
              && resp == Json(Db.WalletsOf(db.wallets, user.id))
              && forall w :: w in resp.body.data ==> w in db.wallets && w.userId == user.id
  {
    var token := BearerToken(header);
    if token.None? {
      return Error(StatusUnauthorized, Unauthorized);
    }
    var user := auth.ValidateSession(token.value);
    if user.None? {
      return Error(StatusUnauthorized, InvalidSession);
    }
    var wallets := db.GetWalletsByUserId(user.value.id);
    resp := Json(wallets);
  }
}
