/** The PostgreSQL tables under many concurrent transactions. A statement's rows
    are in the heap at once; they are visible to others once their transaction
    commits. Sequence values are positions in the append-only posting heap. */
module Database {
  import opened Core
  import opened Balance

  datatype PostingRow = PostingRow(tenant: Uuid, tx: Uuid, posting: Posting, createdAt: nat)

  datatype TxStatus = Open | CommitRequested | Committed | Aborted

  /** One database transaction: the row it inserted into `transactions`, and the
      event it inserted into the outbox. */
  datatype Session = Session(startedAt: nat, tx: Option<Uuid>, event: Option<Event>, status: TxStatus)

  datatype Db = Db(
    accounts: map<int, Account>,
    heap: map<Uuid, TxRow>,
    postings: seq<PostingRow>,
    committed: set<Uuid>,
    sessions: map<CallId, Session>)

  const EMPTY: Db := Db(map[], map[], [], {}, map[])

  predicate Live(db: Db, c: CallId) {
    c in db.sessions && (db.sessions[c].status.Open? || db.sessions[c].status.CommitRequested?)
  }

  // ------------------------------------------------------------------- reads

  /** A row of GetPostingsByTransactionID, joined with its account's name. */
  datatype PostingView = PostingView(id: nat, row: PostingRow, accountName: string)

  /** WHERE transaction_id = tx AND tenant_id = tenant ORDER BY id, over the first n rows. */
  function Select(accounts: map<int, Account>, ps: seq<PostingRow>, n: nat, tx: Uuid, tenant: Uuid): seq<PostingView>
    requires n <= |ps|
  {
    if n == 0 then []
    else
      var p := ps[n - 1];
      Select(accounts, ps, n - 1, tx, tenant)
      + (if p.tx == tx && p.tenant == tenant && p.posting.account in accounts
         then [PostingView(n - 1, p, accounts[p.posting.account].name)] else [])
  }

  function GetPostings(db: Db, tx: Uuid, tenant: Uuid): seq<PostingView> {
    if tx in db.committed then Select(db.accounts, db.postings, |db.postings|, tx, tenant) else []
  }

  /** All legs ever inserted under this transaction id, in insertion order. */
  function Legs(ps: seq<PostingRow>, n: nat, tx: Uuid): seq<Posting>
    requires n <= |ps|
  {
    if n == 0 then []
    else Legs(ps, n - 1, tx) + (if ps[n - 1].tx == tx then [ps[n - 1].posting] else [])
  }

  function LegsOf(db: Db, tx: Uuid): seq<Posting> {
    Legs(db.postings, |db.postings|, tx)
  }

  function GetTransactionRow(db: Db, id: Uuid, tenant: Uuid): Option<TxRow> {
    if id in db.committed && id in db.heap && db.heap[id].tenant == tenant then Some(db.heap[id]) else None
  }

  function GetAccount(db: Db, id: int, tenant: Uuid): Option<Account> {
    if id in db.accounts && db.accounts[id].tenant == tenant then Some(db.accounts[id]) else None
  }

  /** Visible amount on one side of an account, over the first n rows. */
  function Side(ps: seq<PostingRow>, vis: set<Uuid>, n: nat, tenant: Uuid, account: int, d: Direction): int
    requires n <= |ps|
  {
    if n == 0 then 0
    else
      var p := ps[n - 1];
      Side(ps, vis, n - 1, tenant, account, d)
      + (if p.tx in vis && p.tenant == tenant && p.posting.account == account then Amount(p.posting, d) else 0)
  }

  datatype BalanceRow = BalanceRow(debits: int, credits: int, net: int)

  predicate Bigint(x: int) {
    INT64_MIN <= x <= INT64_MAX
  }

  function ExactBalance(db: Db, tenant: Uuid, account: int): BalanceRow {
    var d := Side(db.postings, db.committed, |db.postings|, tenant, account, Debit);
    var c := Side(db.postings, db.committed, |db.postings|, tenant, account, Credit);
    BalanceRow(d, c, d - c)
  }

  datatype BalanceError = AccountNotFound | OutOfRange

  datatype BalanceResponse = BalanceResponse(account: int, debits: int, credits: int, net: int, currency: string)

  /** The sums are exact; casting one that does not fit BIGINT is an error. */
  function GetAccountBalance(db: Db, tenant: Uuid, account: int): Result<BalanceResponse, BalanceError> {
    match GetAccount(db, account, tenant)
    case None => Err(AccountNotFound)
    case Some(a) =>
      var b := ExactBalance(db, tenant, account);
      if Bigint(b.debits) && Bigint(b.credits) && Bigint(b.net)
      then Ok(BalanceResponse(account, b.debits, b.credits, b.net, a.currency)) else Err(OutOfRange)
  }

  // ------------------------------------------------------------------ writes

  predicate CanBegin(db: Db, c: CallId) { c !in db.sessions }

  function Begin(db: Db, c: CallId, now: nat): Db {
    db.(sessions := db.sessions[c := Session(now, None, None, Open)])
  }

  /** The row of a transaction that has not been rolled back. */
  predicate Alive(db: Db, id: Uuid) {
    && id in db.heap && db.heap[id].writer in db.sessions
    && !db.sessions[db.heap[id].writer].status.Aborted?
  }

  predicate Occupies(db: Db, id: Uuid, tenant: Uuid, key: string) {
    Alive(db, id) && db.heap[id].tenant == tenant && db.heap[id].key == key
  }

  /** The unique index on (tenant_id, idempotency_key): an insert waits for a
      concurrent holder to finish and fails once a holder has committed. */
  predicate KeyFree(db: Db, tenant: Uuid, key: string) {
    forall id :: id in db.heap ==> !Occupies(db, id, tenant, key)
  }

  predicate KeyTaken(db: Db, tenant: Uuid, key: string) {
    exists id :: id in db.committed && Occupies(db, id, tenant, key)
  }

  predicate CanInsertTx(db: Db, c: CallId, id: Uuid, tenant: Uuid, key: string) {
    && c in db.sessions && db.sessions[c].status.Open? && db.sessions[c].tx.None? && db.sessions[c].event.None?
    && id !in db.heap && KeyFree(db, tenant, key)
  }

  function InsertTx(db: Db, c: CallId, id: Uuid, tenant: Uuid, key: string, description: string, metadata: string): Db
    requires c in db.sessions
  {
    db.(heap := db.heap[id := TxRow(id, tenant, key, description, metadata, db.sessions[c].startedAt, c)],
        sessions := db.sessions[c := db.sessions[c].(tx := Some(id))])
  }

  /** CHECK (amount > 0), the direction enum and the foreign key on accounts. */
  predicate CanInsertPosting(db: Db, c: CallId, p: Posting) {
    && c in db.sessions && db.sessions[c].status.Open? && db.sessions[c].tx.Some? && db.sessions[c].event.None?
    && WellFormed(p) && p.account in db.accounts
  }

  function InsertPosting(db: Db, c: CallId, tenant: Uuid, p: Posting): Db
    requires c in db.sessions && db.sessions[c].tx.Some?
  {
    db.(postings := db.postings + [PostingRow(tenant, db.sessions[c].tx.value, p, db.sessions[c].startedAt)])
  }

  predicate CanInsertEvent(db: Db, c: CallId) {
    c in db.sessions && db.sessions[c].status.Open? && db.sessions[c].tx.Some? && db.sessions[c].event.None?
  }

  function InsertEvent(db: Db, c: CallId, e: Event): Db
    requires c in db.sessions
  {
    db.(sessions := db.sessions[c := db.sessions[c].(event := Some(e))])
  }

  function SetStatus(db: Db, c: CallId, status: TxStatus): Db
    requires c in db.sessions
  {
    db.(sessions := db.sessions[c := db.sessions[c].(status := status)])
  }

  /** The deferred trigger runs at commit, once per inserted posting. */
  predicate CanCommit(db: Db, c: CallId) {
    && c in db.sessions && db.sessions[c].status.CommitRequested? && db.sessions[c].tx.Some?
    && (var legs := LegsOf(db, db.sessions[c].tx.value); |legs| > 0 ==> TriggerAccepts(legs))
  }

  function Commit(db: Db, c: CallId): Db
    requires c in db.sessions && db.sessions[c].tx.Some?
  {
    SetStatus(db, c, Committed).(committed := db.committed + {db.sessions[c].tx.value})
  }

  /** Identifiers come from a sequence; names are unique within a tenant. */
  predicate CanAddAccount(db: Db, id: int, a: Account) {
    && id >= 1 && id !in db.accounts
    && forall other :: other in db.accounts ==> db.accounts[other].tenant != a.tenant || db.accounts[other].name != a.name
  }

  function AddAccount(db: Db, id: int, a: Account): Db {
    db.(accounts := db.accounts[id := a])
  }
}
