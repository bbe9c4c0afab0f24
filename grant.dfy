/**
 * The outgoing-payment grant orchestration of the backend over an Open Payments client.
 *
 * The remote client is a record of functions from request to response (`OpenPayments`): the model
 * says nothing about what the wallet servers answer, only what the orchestration asks them and
 * what it does with the answers. Every function that talks to the client returns, beside its
 * result, the list of remote calls it made in order, so that "before any remote call" can be
 * stated. The database is `Db.Database`; the token file is a `FileSystem` map from name to text.
 */
module Grant {
  import opened Wrappers
  import Db

  /** The sending and the receiving wallet addresses, fixed in the source. */
  const SendingWalletUrl := "https://ilp.interledger-test.dev/d2667778"
  const ReceivingWalletUrl := "https://ilp.interledger-test.dev/mikejauregui"
  const TokenFileName := "quoteGrant.token.txt"
  const IncomingPaymentPurpose := "Test payment from script"

  const AmountRequired := "Amount is required"
  const NoGrantFound := "No outgoing payment grant found"

  function ClientNotFound(clientId: string): string {
    "Client not found: " + clientId
  }

  // ---------------------------------------------------------------------------------------------
  // The Open Payments vocabulary

  datatype Amount = Amount(assetCode: string, assetScale: int, value: string)

  datatype WalletAddress = WalletAddress(
    id: string, authServer: string, resourceServer: string, assetCode: string, assetScale: int)

  /** One entry of `access_token.access`. */
  datatype Access = Access(kind: string, actions: seq<string>, limits: Option<Amount>, identifier: Option<string>)

  datatype Finish = Finish(finishMethod: string, uri: string, nonce: string)

  datatype Interact = Interact(start: seq<string>, finish: Finish)

  datatype GrantRequest = GrantRequest(access: seq<Access>, interact: Option<Interact>)

  /** `continue.uri` and `continue.access_token.value` of a grant response. */
  datatype Continuation = Continuation(uri: string, accessToken: string)

  /** A grant response: finalized when it carries an access token, pending with a continuation
      otherwise. */
  datatype GrantResponse = GrantResponse(accessToken: Option<string>, continuation: Option<Continuation>)

  /** The incoming payment request; `value` is the number that the source writes into the text of
      `incomingAmount.value`. */
  datatype IncomingPaymentRequest = IncomingPaymentRequest(
    purpose: string, walletAddress: string, assetCode: string, assetScale: int, value: real)

  datatype IncomingPayment = IncomingPayment(id: string)

  datatype QuoteRequest = QuoteRequest(walletAddress: string, receiver: string, paymentMethod: string)

  datatype Quote = Quote(id: string, debitAmount: Amount)

  /** `OpenPaymentsClientError`, or any other error a call throws. */
  datatype RemoteError = ClientError(description: string) | OtherError(description: string)

  /** An authenticated client: what each call answers to each request. */
  datatype OpenPayments = OpenPayments(
    walletAddress: string -> Result<WalletAddress, RemoteError>,
    requestGrant: (string, GrantRequest) -> Result<GrantResponse, RemoteError>,
    createIncomingPayment: (string, Option<string>, IncomingPaymentRequest) -> Result<IncomingPayment, RemoteError>,
    createQuote: (string, string, QuoteRequest) -> Result<Quote, RemoteError>,
    continueGrant: (string, string) -> Result<GrantResponse, RemoteError>)

  datatype RemoteCall =
    | Authenticate(walletAddressUrl: string)
    | GetWalletAddress(url: string)
    | RequestGrant(authServer: string, request: GrantRequest)
    | CreateIncomingPayment(resourceServer: string, token: Option<string>, payment: IncomingPaymentRequest)
    | CreateQuote(resourceServer: string, quoteToken: string, quote: QuoteRequest)
    | ContinueGrant(uri: string, continueToken: string)

  /** Why an operation threw: one of its own errors, a remote error passed on, a property read on
      a missing field (a TypeError), or a failed insert. */
  datatype Failure = Thrown(message: string) | Remote(error: RemoteError) | TypeError(field: string) | Database(dbError: Db.DbError)

  /** A result together with the remote calls made to obtain it. */
  datatype Step<T> = Step(result: Result<T, Failure>, calls: seq<RemoteCall>)

  // ---------------------------------------------------------------------------------------------
  // Request bodies

  const IncomingGrantRequest := GrantRequest([Access("incoming-payment", ["read", "complete", "create"], None, None)], None)
  const QuoteGrantRequest := GrantRequest([Access("quote", ["create", "read"], None, None)], None)

  /** The incoming payment on the receiving wallet: the amount times 100, in the receiving wallet's
      asset code and scale. */
  function IncomingPaymentFor(receiving: WalletAddress, amount: real): IncomingPaymentRequest {
    IncomingPaymentRequest(IncomingPaymentPurpose, receiving.id, receiving.assetCode, receiving.assetScale, amount * 100.0)
  }

  /** The incoming value is `amount * 100` whatever the scale of the receiving wallet: the scale is
      passed along but not used in the conversion. */
  lemma IncomingValueIgnoresScale(receiving: WalletAddress, amount: real, scale: int)
    ensures IncomingPaymentFor(receiving.(assetScale := scale), amount).value
            == IncomingPaymentFor(receiving, amount).value == amount * 100.0
    ensures IncomingPaymentFor(receiving.(assetScale := scale), amount).assetScale == scale
  {
  }

  /** `process.env.REDIRECT_URI!`, which is the text "undefined" when the variable is unset. */
  function RedirectBase(redirectUri: Option<string>): string {
    match redirectUri
    case None => "undefined"
    case Some(u) => u
  }

  function FinishUri(redirectUri: Option<string>, txId: string): string {
    RedirectBase(redirectUri) + "?t=" + txId
  }

  /** The finish URI carries the transaction id after the redirect base, so distinct transactions
      get distinct URIs and the id can be read back from the URI. */
  lemma FinishUriCarriesTxId(redirectUri: Option<string>, txId: string, otherTxId: string)
    ensures |FinishUri(redirectUri, txId)| == |RedirectBase(redirectUri)| + 3 + |txId|
    ensures FinishUri(redirectUri, txId)[..|RedirectBase(redirectUri)|] == RedirectBase(redirectUri)
    ensures FinishUri(redirectUri, txId)[|RedirectBase(redirectUri)| + 3..] == txId
    ensures FinishUri(redirectUri, txId) == FinishUri(redirectUri, otherTxId) <==> txId == otherTxId
  {
    var base := RedirectBase(redirectUri);
    assert FinishUri(redirectUri, txId)[|base| + 3..] == txId;
    assert FinishUri(redirectUri, otherTxId)[|base| + 3..] == otherTxId;
  }

  /** The interactive outgoing-payment grant request: the debit limit is the quote's debit amount,
      unchanged; the grant may read and create outgoing payments of the sending wallet; the user is
      redirected, and sent back to the finish URI with the transaction id as nonce. */
  function OutgoingGrantRequest(sending: WalletAddress, quote: Quote, redirectUri: Option<string>, txId: string): (r: GrantRequest)
    ensures |r.access| == 1 && r.access[0].kind == "outgoing-payment" && r.access[0].actions == ["read", "create"]
    ensures r.access[0].limits == Some(quote.debitAmount) && r.access[0].identifier == Some(sending.id)
    ensures r.interact.Some? && r.interact.value.start == ["redirect"]
    ensures r.interact.value.finish == Finish("redirect", FinishUri(redirectUri, txId), txId)
  {
    var debit := Amount(quote.debitAmount.assetCode, quote.debitAmount.assetScale, quote.debitAmount.value);
    GrantRequest(
      [Access("outgoing-payment", ["read", "create"], Some(debit), Some(sending.id))],
      Some(Interact(["redirect"], Finish("redirect", FinishUri(redirectUri, txId), txId))))
  }

  // ---------------------------------------------------------------------------------------------
  // The call chain

  /** createClient: the client row first, then the authenticated client for its wallet. `connect`
      is `createAuthenticatedClient` with the key file and KEY_ID. */
  function CreateClient(clients: map<string, Db.Client>, connect: string -> Result<OpenPayments, RemoteError>, clientId: string)
    : (s: Step<OpenPayments>)
    ensures clientId !in clients <==> s.result == Err(Thrown(ClientNotFound(clientId)))
    ensures clientId !in clients ==> s.calls == []
    ensures clientId in clients ==> s.calls == [Authenticate(clients[clientId].wallet)]
  {
    if clientId !in clients then Step(Err(Thrown(ClientNotFound(clientId))), [])
    else
      var calls := [Authenticate(clients[clientId].wallet)];
      match connect(clients[clientId].wallet)
      case Err(e) => Step(Err(Remote(e)), calls)
      case Ok(c) => Step(Ok(c), calls)
  }

  /** What createTxClient hands on: the client, the sending wallet and the quote. */
  datatype TxContext = TxContext(client: OpenPayments, sending: WalletAddress, quote: Quote)

  /** createTxClient after its createClient: the two wallets, the incoming-payment grant and
      payment on the receiving wallet, then the quote grant and the quote on the sending wallet.
      The first failing call ends the chain. */
  function QuoteChain(client: OpenPayments, amount: real): (s: Step<TxContext>)
    ensures 1 <= |s.calls| <= 6 && s.calls[0] == GetWalletAddress(SendingWalletUrl)
    ensures forall k :: 0 <= k < |s.calls| && s.calls[k].CreateIncomingPayment? ==>
              s.calls[k].payment.value == amount * 100.0
    ensures s.result.Ok? ==>
              && |s.calls| == 6
              && s.result.value.client == client
              && client.walletAddress(SendingWalletUrl) == Ok(s.result.value.sending)
              && s.calls[5].CreateQuote?
              && s.calls[5].resourceServer == s.result.value.sending.resourceServer
              && s.calls[5].quote.walletAddress == s.result.value.sending.id
              && client.createQuote(s.calls[5].resourceServer, s.calls[5].quoteToken, s.calls[5].quote)
                 == Ok(s.result.value.quote)
  {
    var c1 := [GetWalletAddress(SendingWalletUrl)];
    match client.walletAddress(SendingWalletUrl)
    case Err(e) => Step(Err(Remote(e)), c1)
    case Ok(sending) =>
      var c2 := c1 + [GetWalletAddress(ReceivingWalletUrl)];
      match client.walletAddress(ReceivingWalletUrl)
      case Err(e) => Step(Err(Remote(e)), c2)
      case Ok(receiving) =>
        var c3 := c2 + [RequestGrant(receiving.authServer, IncomingGrantRequest)];
        match client.requestGrant(receiving.authServer, IncomingGrantRequest)
        case Err(e) => Step(Err(Remote(e)), c3)
        case Ok(incomingGrant) =>
          var payment := IncomingPaymentFor(receiving, amount);
          var c4 := c3 + [CreateIncomingPayment(receiving.resourceServer, incomingGrant.accessToken, payment)];
          match client.createIncomingPayment(receiving.resourceServer, incomingGrant.accessToken, payment)
          case Err(e) => Step(Err(Remote(e)), c4)
          case Ok(incoming) =>
            var c5 := c4 + [RequestGrant(sending.authServer, QuoteGrantRequest)];
            match client.requestGrant(sending.authServer, QuoteGrantRequest)
            case Err(e) => Step(Err(Remote(e)), c5)
            case Ok(quoteGrant) =>
              if quoteGrant.accessToken.None? then Step(Err(TypeError("access_token")), c5)
              else
                var request := QuoteRequest(sending.id, incoming.id, "ilp");
                var c6 := c5 + [CreateQuote(sending.resourceServer, quoteGrant.accessToken.value, request)];
                match client.createQuote(sending.resourceServer, quoteGrant.accessToken.value, request)
                case Err(e) => Step(Err(Remote(e)), c6)
                case Ok(quote) => Step(Ok(TxContext(client, sending, quote)), c6)
  }

  /** A falsy amount: `undefined` or 0. */
  predicate MissingAmount(amount: Option<real>) {
    amount.None? || amount == Some(0.0)
  }

  /** What startOutgoingPaymentGrant returns. */
  datatype Started = Started(txId: string, grant: GrantResponse)

  /** The files the process writes, as a map from file name to contents. */
  class FileSystem {
    var files: map<string, string>

    constructor ()
      ensures files == map[]
    {
      files := map[];
    }

    /** `fs.writeFileSync(name, text)`. */
    method WriteFile(name: string, text: string)
      modifies this
      ensures files == old(files)[name := text]
    {
      files := files[name := text];
    }
  }

  /** startOutgoingPaymentGrant. `txId` is the UUIDv7 the source generates and `redirectUri` the
      REDIRECT_URI variable. The amount is checked before anything else; on success the
      continuation of the grant is stored under `txId` before the result is returned. */
  method StartOutgoingPaymentGrant(
    db: Db.Database, connect: string -> Result<OpenPayments, RemoteError>,
    clientId: string, amount: Option<real>, txId: string, redirectUri: Option<string>)
    returns (r: Result<Started, Failure>, calls: seq<RemoteCall>)
    modifies db
    ensures MissingAmount(amount) ==> r == Err(Thrown(AmountRequired)) && calls == []
    ensures !MissingAmount(amount) && clientId !in old(db.clients) ==>
              r == Err(Thrown(ClientNotFound(clientId))) && calls == []
    ensures !MissingAmount(amount) && CreateClient(old(db.clients), connect, clientId).result.Err? ==>
              var created := CreateClient(old(db.clients), connect, clientId);
              r == Err(created.result.error) && calls == created.calls
    ensures !MissingAmount(amount) && CreateClient(old(db.clients), connect, clientId).result.Ok? ==>
              var created := CreateClient(old(db.clients), connect, clientId);
              var chain := QuoteChain(created.result.value, amount.value);
              && |created.calls| + |chain.calls| <= |calls|
              && calls[..|created.calls| + |chain.calls|] == created.calls + chain.calls
              && (chain.result.Err? ==> r == Err(chain.result.error) && calls == created.calls + chain.calls)
    ensures !MissingAmount(amount) && CreateClient(old(db.clients), connect, clientId).result.Ok?
              && QuoteChain(CreateClient(old(db.clients), connect, clientId).result.value, amount.value).result.Ok? ==>
              var tx := QuoteChain(CreateClient(old(db.clients), connect, clientId).result.value, amount.value).result.value;
              var response := tx.client.requestGrant(tx.sending.authServer, OutgoingGrantRequest(tx.sending, tx.quote, redirectUri, txId));
              && (response.Err? ==> r == Err(Remote(response.error)))
              && (response.Ok? && response.value.continuation.None? ==> r == Err(TypeError("continue")))
              && (response.Ok? && response.value.continuation.Some? && txId in old(db.grants) ==>
                    r == Err(Database(Db.DuplicateKey(txId))))
              && (r.Ok? <==> response.Ok? && response.value.continuation.Some? && txId !in old(db.grants))
    ensures r.Err? ==> db.grants == old(db.grants)
    ensures r.Ok? ==>
              && !MissingAmount(amount)
              && CreateClient(old(db.clients), connect, clientId).result.Ok?
              && QuoteChain(CreateClient(old(db.clients), connect, clientId).result.value, amount.value).result.Ok?
    ensures r.Ok? ==>
              var tx := QuoteChain(CreateClient(old(db.clients), connect, clientId).result.value, amount.value).result.value;
              var request := OutgoingGrantRequest(tx.sending, tx.quote, redirectUri, txId);
              && r.value.txId == txId
              && calls != [] && calls[|calls| - 1] == RequestGrant(tx.sending.authServer, request)
              && tx.client.requestGrant(tx.sending.authServer, request) == Ok(r.value.grant)
              && r.value.grant.continuation.Some?
              && txId !in old(db.grants)
              && db.grants == old(db.grants)[txId := Db.Grant(r.value.grant.continuation.value.uri,
                                                     r.value.grant.continuation.value.accessToken, clientId, old(db.now))]
    ensures db.clients == old(db.clients) && db.wallets == old(db.wallets) && db.faceImages == old(db.faceImages)
    ensures db.transactions == old(db.transactions) && db.now == old(db.now)
  {
    if MissingAmount(amount) {
      return Err(Thrown(AmountRequired)), [];
    }
    var created := CreateClient(db.clients, connect, clientId);
    calls := created.calls;
    if created.result.Err? {
      return Err(created.result.error), calls;
    }
    var chain := QuoteChain(created.result.value, amount.value);
    calls := calls + chain.calls;
    if chain.result.Err? {
      return Err(chain.result.error), calls;
    }
    var tx := chain.result.value;
    var request := OutgoingGrantRequest(tx.sending, tx.quote, redirectUri, txId);
    calls := calls + [RequestGrant(tx.sending.authServer, request)];
    var response := tx.client.requestGrant(tx.sending.authServer, request);
    if response.Err? {
      return Err(Remote(response.error)), calls;
    }
    var grant := response.value;
    if grant.continuation.None? {
      return Err(TypeError("continue")), calls;
    }
    var inserted := db.InsertGrant(txId, grant.continuation.value.uri, grant.continuation.value.accessToken, clientId);
    if inserted.Err? {
      return Err(Database(inserted.error)), calls;
    }
    r := Ok(Started(txId, grant));
  }

  /** How waitForGrantFinalization ends: the finalized grant's access token written to the token
      file, `process.exit()` after an error message, or an exception. */
  datatype Finalization = TokenWritten(token: string) | ProcessExited | Failed(failure: Failure)

  /** waitForGrantFinalization. The grant is looked up with getGrantById, which matches `txId`
      against the client_id column. */
  method WaitForGrantFinalization(
    db: Db.Database, files: FileSystem, connect: string -> Result<OpenPayments, RemoteError>,
    clientId: string, txId: string)
    returns (outcome: Finalization, calls: seq<RemoteCall>)
    modifies files
    ensures clientId !in db.clients ==> outcome == Failed(Thrown(ClientNotFound(clientId))) && calls == []
    ensures CreateClient(db.clients, connect, clientId).result.Err? ==>
              outcome == Failed(CreateClient(db.clients, connect, clientId).result.error)
              && calls == CreateClient(db.clients, connect, clientId).calls
    ensures CreateClient(db.clients, connect, clientId).result.Ok? && Db.HasGrantForClient(db.grants, txId) ==>
              var client := CreateClient(db.clients, connect, clientId).result.value;
              && |calls| == 2 && calls[0] == Authenticate(db.clients[clientId].wallet) && calls[1].ContinueGrant?
              && var response := client.continueGrant(calls[1].uri, calls[1].continueToken);
              && (outcome.TokenWritten? <==> response.Ok? && response.value.accessToken.Some?)
              && (outcome == ProcessExited <==>
                    (response.Err? && response.error.ClientError?) || (response.Ok? && response.value.accessToken.None?))
              && (response.Err? && response.error.OtherError? ==> outcome == Failed(Remote(response.error)))
    ensures clientId in db.clients && CreateClient(db.clients, connect, clientId).result.Ok?
              && !Db.HasGrantForClient(db.grants, txId) ==>
              outcome == Failed(Thrown(NoGrantFound)) && calls == [Authenticate(db.clients[clientId].wallet)]
    ensures forall k :: 0 <= k < |calls| && calls[k].ContinueGrant? ==>
              k == |calls| - 1
              && (exists id :: id in db.grants && db.grants[id].clientId == txId
                    && calls[k] == ContinueGrant(db.grants[id].uri, db.grants[id].value))
    ensures outcome.TokenWritten? ==>
              && CreateClient(db.clients, connect, clientId).result.Ok?
              && calls != [] && calls[|calls| - 1].ContinueGrant?
              && CreateClient(db.clients, connect, clientId).result.value.continueGrant(
                   calls[|calls| - 1].uri, calls[|calls| - 1].continueToken).Ok?
              && CreateClient(db.clients, connect, clientId).result.value.continueGrant(
                   calls[|calls| - 1].uri, calls[|calls| - 1].continueToken).value.accessToken == Some(outcome.token)
    ensures outcome.TokenWritten? ==> files.files == old(files.files)[TokenFileName := outcome.token]
    ensures !outcome.TokenWritten? ==> files.files == old(files.files)
  {
    var created := CreateClient(db.clients, connect, clientId);
    calls := created.calls;
    if created.result.Err? {
      return Failed(created.result.error), calls;
    }
    var client := created.result.value;
    var stored := db.GetGrantById(txId);
    if stored.None? {
      return Failed(Thrown(NoGrantFound)), calls;
    }
    var grant := stored.value;
    calls := calls + [ContinueGrant(grant.uri, grant.value)];
    var response := client.continueGrant(grant.uri, grant.value);
    if response.Err? {
      if response.error.ClientError? {
        return ProcessExited, calls;
      }
      return Failed(Remote(response.error)), calls;
    }
    if response.value.accessToken.None? {
      return ProcessExited, calls;
    }
    files.WriteFile(TokenFileName, response.value.accessToken.value);
    outcome := TokenWritten(response.value.accessToken.value);
  }
}
