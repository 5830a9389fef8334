/** The rows of the PostgreSQL schema, a committed database state, and the writes that one
    database transaction has staged but not yet committed. */
module Tables {

  datatype Option<+T> = None | Some(value: T)

  type UserId = nat
  type TxnId = nat
  type EntryId = nat
  // The text form of a request's UUID: the settlement key is built from it.
  type RequestId = string
  type Key = string

  // Wallet ids are 128-bit UUIDs, and rows are locked in the order of these numbers.
  const ID_LIMIT: int := 0x1_0000_0000_0000_0000_0000_0000_0000_0000
  type WalletId = w: int | 0 <= w < ID_LIMIT witness 0

  const MINT: WalletId := 1

  // Money is an integer count of poisha; NUMERIC(15,2) holds at most this many.
  const MAX_NUMERIC: int := 999_999_999_999_999

  predicate FitsNumeric(amount: int) {
    -MAX_NUMERIC <= amount <= MAX_NUMERIC
  }

  datatype WalletKind = User | System
  datatype Wallet = Wallet(kind: WalletKind, balance: int)

  datatype TxnKind = SignupGrant | Transfer | RequestSettlement
  // Processing is stored as PENDING; the name keeps it apart from a pending request.
  datatype TxnStatus = Processing | Completed
  datatype Txn = Txn(id: TxnId, kind: TxnKind, status: TxnStatus, amount: int, src: WalletId, dst: WalletId,
                     initiator: UserId, key: Option<Key>)

  datatype Entry = Entry(id: EntryId, txn: TxnId, wallet: WalletId, amount: int, balanceAfter: int, at: int)

  datatype RequestStatus = Pending | Approved | Declined | Cancelled | Expired
  datatype Request = Request(requester: UserId, payer: UserId, amount: int, status: RequestStatus,
                             link: Option<TxnId>, expires: int)

  /** A committed database state. `txns` and `entries` are kept in commit order. */
  datatype Store = Store(phones: map<string, UserId>, walletOf: map<UserId, WalletId>,
                         wallets: map<WalletId, Wallet>, txns: seq<Txn>, entries: seq<Entry>,
                         requests: map<RequestId, Request>)

  /** The database as the first migration leaves it: nothing but the mint. */
  const FRESH: Store := Store(map[], map[], map[MINT := Wallet(System, 0)], [], [], map[])

  datatype Account = Account(phone: string, user: UserId, wallet: WalletId)

  /** The uncommitted writes of one database transaction. */
  datatype Staged = Staged(account: Option<Account>, txn: Option<Txn>, balances: map<WalletId, int>,
                           entries: seq<Entry>, request: Option<(RequestId, Request)>)

  const NOTHING: Staged := Staged(None, None, map[], [], None)

  function AddAccount(st: Store, a: Account): Store {
    st.(phones := st.phones[a.phone := a.user],
        walletOf := st.walletOf[a.user := a.wallet],
        wallets := st.wallets[a.wallet := Wallet(User, 0)])
  }

  function SetBalances(wallets: map<WalletId, Wallet>, balances: map<WalletId, int>): map<WalletId, Wallet> {
    map w | w in wallets :: if w in balances then wallets[w].(balance := balances[w]) else wallets[w]
  }

  /** What a commit of `g` makes of the committed state. */
  function Overlay(st: Store, g: Staged): Store {
    var base := if g.account.Some? then AddAccount(st, g.account.value) else st;
    base.(wallets := SetBalances(base.wallets, g.balances),
          txns := if g.txn.Some? then base.txns + [g.txn.value] else base.txns,
          entries := base.entries + g.entries,
          requests := if g.request.Some? then base.requests[g.request.value.0 := g.request.value.1] else base.requests)
  }

  /** The deterministic key under which an approval settles its request. */
  function RequestKey(r: RequestId): (k: Key)
    ensures |k| > 0
  {
    "request:" + r
  }

  lemma RequestKeyInjective(r: RequestId, q: RequestId)
    ensures RequestKey(r) == RequestKey(q) ==> r == q
  {
    assert RequestKey(r)[8..] == r && RequestKey(q)[8..] == q;
  }
}
