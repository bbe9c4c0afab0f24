/**
 * The tables of the backend as in-memory state: wallets, face images, transactions, API clients
 * and the grant continuations of `grants_manager`, with the defaults the INSERT statements apply
 * and the filters and orderings of the SELECT statements.
 *
 * Columns a statement leaves to the database (generated ids, `DEFAULT now()` timestamps) are passed
 * in as parameters or taken from the clock field `now`. Amounts and balances are JavaScript numbers;
 * they are modelled as `real` and only passed through.
 */
module Db {
  import opened Wrappers
  import opened JsStrings
  import Sequences

  /** The status every selection here filters on, and the default of the status columns. */
  const ActiveStatus := "active"

  // ---------------------------------------------------------------------------------------------
  // Wallets

  datatype Wallet = Wallet(
    id: string,
    userId: string,
    name: string,
    walletUrl: string,
    currencyCode: string,
    currentBalance: real,
    isPrimary: bool,
    status: string,
    createdAt: int)

  /** The fields createWallet reads from its `Partial<Wallet>` argument. */
  datatype WalletInput = WalletInput(
    userId: string,
    name: string,
    walletUrl: string,
    currencyCode: string,
    currentBalance: Option<real>,
    isPrimary: Option<bool>)

  /** The row createWallet inserts: `current_balance || 0`, `is_primary || false`; the status and the
      creation time are the column defaults. */
  function NewWallet(id: string, w: WalletInput, now: int): Wallet {
    Wallet(id, w.userId, w.name, w.walletUrl, w.currencyCode,
           match w.currentBalance case None => 0.0 case Some(b) => b,
           match w.isPrimary case None => false case Some(p) => p,
           ActiveStatus, now)
  }

  /** ORDER BY is_primary DESC, created_at DESC: `a` may come before `b`. */
  predicate WalletBefore(a: Wallet, b: Wallet) {
    (a.isPrimary && !b.isPrimary) || (a.isPrimary == b.isPrimary && a.createdAt >= b.createdAt)
  }

  lemma WalletOrderIsTotal()
    ensures Sequences.TotalPreorder(WalletBefore)
  {
  }

  predicate ListedWallet(w: Wallet, userId: string) {
    w.userId == userId && w.status == ActiveStatus
  }

  /** getWalletsByUserId: the user's active wallets, each as often as in the table, primary ones
      first, and within each group the newest first. */
  function WalletsOf(table: seq<Wallet>, userId: string): (r: seq<Wallet>)
    ensures forall w :: w in r <==> w in table && ListedWallet(w, userId)
    ensures forall w :: multiset(r)[w] == if ListedWallet(w, userId) then multiset(table)[w] else 0
    ensures forall i, j :: 0 <= i < j < |r| && r[j].isPrimary ==> r[i].isPrimary
    ensures forall i, j :: 0 <= i < j < |r| && r[i].isPrimary == r[j].isPrimary ==> r[i].createdAt >= r[j].createdAt
  {
    var mine := Sequences.Filter(table, w => ListedWallet(w, userId));
    WalletOrderIsTotal();
    Sequences.SortBySorted(mine, WalletBefore);
    var r := Sequences.SortBy(mine, WalletBefore);
    assert forall w :: w in r <==> w in mine by {
      forall w ensures w in r <==> w in mine {
        assert w in r <==> w in multiset(r);
      }
    }
    r
  }

  /** createWallet stores a balance of 0 and a non-primary flag when those inputs are absent or
      falsy, and the new wallet is listed for its owner. */
  lemma CreatedWalletIsListed(table: seq<Wallet>, id: string, w: WalletInput, now: int)
    ensures w.currentBalance in {None, Some(0.0)} ==> NewWallet(id, w, now).currentBalance == 0.0
    ensures w.isPrimary in {None, Some(false)} ==> !NewWallet(id, w, now).isPrimary
    ensures NewWallet(id, w, now) in WalletsOf(table + [NewWallet(id, w, now)], w.userId)
    ensures forall u :: u != w.userId ==> WalletsOf(table + [NewWallet(id, w, now)], u) == WalletsOf(table, u)
  {
    var nw := NewWallet(id, w, now);
    assert nw in table + [nw];
    forall u | u != w.userId
      ensures WalletsOf(table + [nw], u) == WalletsOf(table, u)
    {
      Sequences.FilterAppend(table, [nw], v => ListedWallet(v, u));
      assert Sequences.Filter([nw], v => ListedWallet(v, u)) == [] by {
        assert [nw][1..] == [];
      }
      assert Sequences.Filter(table, v => ListedWallet(v, u)) + [] == Sequences.Filter(table, v => ListedWallet(v, u));
    }
  }

  // ---------------------------------------------------------------------------------------------
  // Face images

  datatype FaceImage = FaceImage(
    id: string,
    userId: string,
    s3Key: string,
    rekognitionImageId: Option<string>,
    isPrimary: bool,
    matchCount: int,
    uploadedAt: Option<int>,
    lastUsedAt: Option<int>,
    status: string)

  /** The fields createFaceImage reads from its `Partial<FaceImage>` argument. */
  datatype FaceInput = FaceInput(userId: string, s3Key: string, rekognitionImageId: Option<string>, isPrimary: Option<bool>)

  /** The row createFaceImage inserts: `is_primary || false`; match count, upload time and status are
      the column defaults. */
  function NewFaceImage(id: string, f: FaceInput, now: int): FaceImage {
    FaceImage(id, f.userId, f.s3Key, f.rekognitionImageId,
              match f.isPrimary case None => false case Some(p) => p,
              0, Some(now), None, ActiveStatus)
  }

  /** `uploaded_at DESC NULLS LAST`: `a` may come before `b`. */
  predicate LaterOrNull(a: Option<int>, b: Option<int>) {
    match (a, b)
    case (Some(x), Some(y)) => x >= y
    case (Some(_), None) => true
    case (None, Some(_)) => false
    case (None, None) => true
  }

  /** ORDER BY is_primary DESC, uploaded_at DESC NULLS LAST. */
  predicate FaceBefore(a: FaceImage, b: FaceImage) {
    (a.isPrimary && !b.isPrimary) || (a.isPrimary == b.isPrimary && LaterOrNull(a.uploadedAt, b.uploadedAt))
  }

  lemma FaceOrderIsTotal()
    ensures Sequences.TotalPreorder(FaceBefore)
  {
  }

  predicate ListedFace(f: FaceImage, userId: string) {
    f.userId == userId && f.status == ActiveStatus
  }

  /** Face images sorted by FaceBefore put primary ones first, and within each group the later
      uploads first and the never-uploaded last. */
  lemma SortedFacesOrdered(r: seq<FaceImage>)
    requires Sequences.SortedBy(r, FaceBefore)
    ensures forall i, j :: 0 <= i < j < |r| && r[j].isPrimary ==> r[i].isPrimary
    ensures forall i, j :: 0 <= i < j < |r| && r[i].isPrimary == r[j].isPrimary && r[j].uploadedAt.Some? ==>
              r[i].uploadedAt.Some? && r[i].uploadedAt.value >= r[j].uploadedAt.value
  {
    forall i, j | 0 <= i < j < |r|
      ensures r[j].isPrimary ==> r[i].isPrimary
      ensures r[i].isPrimary == r[j].isPrimary && r[j].uploadedAt.Some? ==>
                r[i].uploadedAt.Some? && r[i].uploadedAt.value >= r[j].uploadedAt.value
    {
      assert FaceBefore(r[i], r[j]);
    }
  }

  /** getFaceImagesByUserId: the user's active face images, each as often as in the table, primary
      ones first, then the most recently uploaded, and those never uploaded last. (The query also
      returns `uploaded_at` a second time under the name `created_at`.) */
  function FacesOf(table: seq<FaceImage>, userId: string): (r: seq<FaceImage>)
    ensures forall f :: f in r <==> f in table && ListedFace(f, userId)
    ensures forall f :: multiset(r)[f] == if ListedFace(f, userId) then multiset(table)[f] else 0
    ensures forall i, j :: 0 <= i < j < |r| && r[j].isPrimary ==> r[i].isPrimary
    ensures forall i, j :: 0 <= i < j < |r| && r[i].isPrimary == r[j].isPrimary && r[j].uploadedAt.Some? ==>
              r[i].uploadedAt.Some? && r[i].uploadedAt.value >= r[j].uploadedAt.value
  {
    var mine := Sequences.Filter(table, f => ListedFace(f, userId));
    FaceOrderIsTotal();
    Sequences.SortBySorted(mine, FaceBefore);
    var r := Sequences.SortBy(mine, FaceBefore);
    SortedFacesOrdered(r);
    assert forall f :: f in r <==> f in mine by {
      forall f ensures f in r <==> f in mine {
        assert f in r <==> f in multiset(r);
      }
    }
    r
  }

  // ---------------------------------------------------------------------------------------------
  // Transactions

  /** The request insertTransaction receives; absent fields are `None`. `metadata` is the JSON text
      `JSON.stringify` gives for the metadata object. */
  datatype TransactionRequest = TransactionRequest(
    userId: Option<string>,
    walletId: Option<string>,
    amount: real,
    currency: string,
    store: Option<real>,
    snapshot: Option<string>,
    snapshotId: Option<string>,
    snapshotS3Key: Option<string>,
    transcript: Option<string>,
    paymentType: Option<string>,
    paymentStatus: Option<string>,
    interledgerPaymentId: Option<string>,
    grantId: Option<string>,
    faceImageId: Option<string>,
    faceMatchConfidence: Option<real>,
    voiceS3Key: Option<string>,
    createdAt: Option<int>,
    completedAt: Option<int>,
    notes: Option<string>,
    metadata: Option<string>)

  /** A row of `transactions` as insertTransaction writes it. */
  datatype Transaction = Transaction(
    id: string,
    userId: Option<string>,
    walletId: Option<string>,
    amount: real,
    currency: string,
    store: Option<real>,
    snapshot: Option<string>,
    transcript: Option<string>,
    paymentType: string,
    paymentStatus: string,
    interledgerPaymentId: Option<string>,
    grantId: Option<string>,
    snapshotS3Key: Option<string>,
    faceImageId: Option<string>,
    faceMatchConfidence: Option<real>,
    voiceS3Key: Option<string>,
    createdAt: int,
    completedAt: Option<int>,
    notes: Option<string>,
    metadata: Option<string>)

  const DefaultPaymentType := "outgoing"
  const DefaultPaymentStatus := "completed"

  /** `n || null` for an optional number: absent and 0 become `null`. */
  function NumberOrNull(n: Option<real>): Option<real> {
    if n == Some(0.0) then None else n
  }

  /** `s || fallback` for an optional string. */
  function OrDefault(s: Option<string>, fallback: string): string {
    match OrNull(s)
    case None => fallback
    case Some(v) => v
  }

  /** The row insertTransaction writes; `now` is `new Date()`. */
  function NewTransaction(id: string, t: TransactionRequest, now: int): Transaction {
    Transaction(
      id, OrNull(t.userId), OrNull(t.walletId), t.amount, t.currency, NumberOrNull(t.store),
      match OrNull(t.snapshotId) case Some(s) => Some(s) case None => OrNull(t.snapshot),
      OrNull(t.transcript),
      OrDefault(t.paymentType, DefaultPaymentType), OrDefault(t.paymentStatus, DefaultPaymentStatus),
      OrNull(t.interledgerPaymentId), OrNull(t.grantId), OrNull(t.snapshotS3Key), OrNull(t.faceImageId),
      NumberOrNull(t.faceMatchConfidence), OrNull(t.voiceS3Key),
      match t.createdAt case None => now case Some(c) => c,
      t.completedAt, OrNull(t.notes), t.metadata)
  }

  /** The defaults of insertTransaction: an outgoing, completed payment unless the request says
      otherwise; the snapshot is `snapshot_id`, else `snapshot`, else null; a confidence of 0 is
      stored as null; an empty string is stored as null. */
  lemma TransactionDefaults(id: string, t: TransactionRequest, now: int)
    ensures t.paymentType in {None, Some("")} ==> NewTransaction(id, t, now).paymentType == "outgoing"
    ensures t.paymentStatus in {None, Some("")} ==> NewTransaction(id, t, now).paymentStatus == "completed"
    ensures t.paymentType.Some? && t.paymentType.value != [] ==> NewTransaction(id, t, now).paymentType == t.paymentType.value
    ensures t.snapshotId.Some? && t.snapshotId.value != [] ==> NewTransaction(id, t, now).snapshot == t.snapshotId
    ensures t.snapshotId in {None, Some("")} ==> NewTransaction(id, t, now).snapshot == OrNull(t.snapshot)
    ensures NewTransaction(id, t, now).snapshot.None? <==> OrNull(t.snapshotId).None? && OrNull(t.snapshot).None?
    ensures t.faceMatchConfidence == Some(0.0) ==> NewTransaction(id, t, now).faceMatchConfidence.None?
    ensures t.faceMatchConfidence.Some? && t.faceMatchConfidence.value != 0.0 ==>
              NewTransaction(id, t, now).faceMatchConfidence == t.faceMatchConfidence
    ensures t.createdAt.None? ==> NewTransaction(id, t, now).createdAt == now
    ensures t.userId == Some("") ==> NewTransaction(id, t, now).userId.None?
  {
  }

  // ---------------------------------------------------------------------------------------------
  // API clients

  datatype Client = Client(name: string, grantToken: string, wallet: string)

  function ClientById(clients: map<string, Client>, id: string): Option<Client> {
    if id in clients then Some(clients[id]) else None
  }

  /** getGrantTokenByClientId: `client?.grant_token`. */
  function GrantTokenOf(clients: map<string, Client>, id: string): Option<string> {
    match ClientById(clients, id)
    case None => None
    case Some(c) => Some(c.grantToken)
  }

  /** updateGrantTokenByClientId's UPDATE. */
  function WithGrantToken(clients: map<string, Client>, id: string, token: string): map<string, Client> {
    if id in clients then clients[id := clients[id].(grantToken := token)] else clients
  }

  /** Updating a client's grant token changes only that client's token, and reading it back gives
      the new value; for an unknown id nothing changes. */
  lemma GrantTokenUpdateThenRead(clients: map<string, Client>, id: string, token: string)
    ensures id in clients ==> GrantTokenOf(WithGrantToken(clients, id, token), id) == Some(token)
    ensures id !in clients ==> WithGrantToken(clients, id, token) == clients && GrantTokenOf(clients, id).None?
    ensures WithGrantToken(clients, id, token).Keys == clients.Keys
    ensures forall other :: other != id ==> ClientById(WithGrantToken(clients, id, token), other) == ClientById(clients, other)
    ensures id in clients ==>
              ClientById(WithGrantToken(clients, id, token), id) == Some(clients[id].(grantToken := token))
  {
  }

  // ---------------------------------------------------------------------------------------------
  // Grant continuations (grants_manager)

  /** A row of `grants_manager` without its id, the key of the map. */
  datatype Grant = Grant(uri: string, value: string, clientId: string, timestamp: int)

  /** A row as a SELECT or RETURNING gives it. */
  datatype GrantRow = GrantRow(id: string, uri: string, value: string, clientId: string, timestamp: int)

  datatype DbError = DuplicateKey(key: string)

  /** Some row of `grants_manager` has this `client_id`: what getGrantById's WHERE clause asks. */
  predicate HasGrantForClient(grants: map<string, Grant>, clientId: string) {
    exists id :: id in grants && grants[id].clientId == clientId
  }

  /** getGrantById is given the id a grant was stored under, but compares it with the client_id
      column. A grant stored under `txId` is therefore found by it only when some row's client_id
      happens to equal `txId`; when none does, the lookup misses. */
  lemma GrantLookupMissesStoredId(grants: map<string, Grant>, txId: string, uri: string, value: string, clientId: string, now: int)
    requires txId !in grants
    requires clientId != txId && !HasGrantForClient(grants, txId)
    ensures txId in grants[txId := Grant(uri, value, clientId, now)]
    ensures !HasGrantForClient(grants[txId := Grant(uri, value, clientId, now)], txId)
  {
    var g := grants[txId := Grant(uri, value, clientId, now)];
    forall id | id in g ensures g[id].clientId != txId {
      if id != txId {
        assert id in grants && g[id] == grants[id];
      }
    }
  }

  // ---------------------------------------------------------------------------------------------
  // The tables as mutable state

  class Database {
    var wallets: seq<Wallet>
    var faceImages: seq<FaceImage>
    var transactions: seq<Transaction>
    var clients: map<string, Client>
    var grants: map<string, Grant>
    /** The database clock, `NOW()`, in milliseconds. */
    var now: int

    constructor (now: int)
      ensures wallets == [] && faceImages == [] && transactions == []
      ensures clients == map[] && grants == map[] && this.now == now
    {
      wallets, faceImages, transactions := [], [], [];
      clients, grants := map[], map[];
      this.now := now;
    }

    /** createWallet. `id` is the generated id. */
    method CreateWallet(id: string, w: WalletInput) returns (wallet: Wallet)
      modifies this
      ensures wallet == NewWallet(id, w, old(now))
      ensures wallets == old(wallets) + [wallet]
      ensures faceImages == old(faceImages) && transactions == old(transactions)
      ensures clients == old(clients) && grants == old(grants) && now == old(now)
    {
      wallet := NewWallet(id, w, now);
      wallets := wallets + [wallet];
    }

    method GetWalletsByUserId(userId: string) returns (r: seq<Wallet>)
      ensures r == WalletsOf(wallets, userId)
    {
      r := WalletsOf(wallets, userId);
    }

    /** createFaceImage. `id` is the generated id. */
    method CreateFaceImage(id: string, f: FaceInput) returns (face: FaceImage)
      modifies this
      ensures face == NewFaceImage(id, f, old(now))
      ensures faceImages == old(faceImages) + [face]
      ensures wallets == old(wallets) && transactions == old(transactions)
      ensures clients == old(clients) && grants == old(grants) && now == old(now)
    {
      face := NewFaceImage(id, f, now);
      faceImages := faceImages + [face];
    }

    method GetFaceImagesByUserId(userId: string) returns (r: seq<FaceImage>)
      ensures r == FacesOf(faceImages, userId)
    {
      r := FacesOf(faceImages, userId);
    }

    /** insertTransaction. `id` is the generated id; `clock` is `new Date()`. */
    method InsertTransaction(id: string, t: TransactionRequest, clock: int) returns (row: Transaction)
      modifies this
      ensures row == NewTransaction(id, t, clock)
      ensures transactions == old(transactions) + [row]
      ensures wallets == old(wallets) && faceImages == old(faceImages)
      ensures clients == old(clients) && grants == old(grants) && now == old(now)
    {
      row := NewTransaction(id, t, clock);
      transactions := transactions + [row];
    }

    /** insertClient. `id` is the generated id. */
    method InsertClient(id: string, name: string, grantToken: string, wallet: string) returns (client: Client)
      requires id !in clients
      modifies this
      ensures client == Client(name, grantToken, wallet)
      ensures clients == old(clients)[id := client]
      ensures wallets == old(wallets) && faceImages == old(faceImages) && transactions == old(transactions)
      ensures grants == old(grants) && now == old(now)
    {
      client := Client(name, grantToken, wallet);
      clients := clients[id := client];
    }

    method GetClientById(id: string) returns (client: Option<Client>)
      ensures client.Some? <==> id in clients
      ensures client.Some? ==> client.value == clients[id]
    {
      client := if id in clients then Some(clients[id]) else None;
    }

    method GetGrantTokenByClientId(id: string) returns (token: Option<string>)
      ensures token.Some? <==> id in clients
      ensures token.Some? ==> token.value == clients[id].grantToken
    {
      var client := GetClientById(id);
      token := match client case None => None case Some(c) => Some(c.grantToken);
    }

    /** updateGrantTokenByClientId: the updated client, or `None` when there is none. */
    method UpdateGrantTokenByClientId(id: string, token: string) returns (client: Option<Client>)
      modifies this
      ensures clients == WithGrantToken(old(clients), id, token)
      ensures client == ClientById(clients, id)
      ensures wallets == old(wallets) && faceImages == old(faceImages) && transactions == old(transactions)
      ensures grants == old(grants) && now == old(now)
    {
      if id in clients {
        clients := clients[id := clients[id].(grantToken := token)];
        client := Some(clients[id]);
      } else {
        client := None;
      }
    }

    /** insertGrant: one new row keyed by `id`, stamped with the clock; an id already present
        violates the primary key and nothing is inserted. */
    method InsertGrant(id: string, uri: string, value: string, clientId: string) returns (r: Result<GrantRow, DbError>)
      modifies this
      ensures old(id in grants) ==> r == Err(DuplicateKey(id)) && grants == old(grants)
      ensures old(id !in grants) ==>
                r == Ok(GrantRow(id, uri, value, clientId, old(now)))
                && grants == old(grants)[id := Grant(uri, value, clientId, old(now))]
      ensures wallets == old(wallets) && faceImages == old(faceImages) && transactions == old(transactions)
      ensures clients == old(clients) && now == old(now)
    {
      if id in grants {
        return Err(DuplicateKey(id));
      }
      grants := grants[id := Grant(uri, value, clientId, now)];
      r := Ok(GrantRow(id, uri, value, clientId, now));
    }

    /** getGrantById: some row whose client_id (not id) equals the argument, in no particular order,
        or `None`. */
    method GetGrantById(id: string) returns (grant: Option<GrantRow>)
      ensures grant.None? <==> !HasGrantForClient(grants, id)
      ensures grant.Some? ==>
                grant.value.id in grants && grant.value.clientId == id
                && grants[grant.value.id] == Grant(grant.value.uri, grant.value.value, id, grant.value.timestamp)
    {
      if key :| key in grants && grants[key].clientId == id {
        var g := grants[key];
        grant := Some(GrantRow(key, g.uri, g.value, g.clientId, g.timestamp));
      } else {
        grant := None;
      }
    }
  }
}
