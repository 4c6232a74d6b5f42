/** What the schema guarantees in every reachable state, whatever the callers do. */
module DatabaseInv {
  import opened Core
  import opened Balance
  import opened Database

  predicate HeapRowOk(db: Db, id: Uuid)
    requires id in db.heap
  {
    var row := db.heap[id];
    && row.id == id && row.writer in db.sessions
    && db.sessions[row.writer].tx == Some(id)
    && (id in db.committed <==> db.sessions[row.writer].status.Committed?)
  }

  predicate SessionOk(db: Db, c: CallId)
    requires c in db.sessions
  {
    var s := db.sessions[c];
    && (s.tx.Some? ==> s.tx.value in db.heap && db.heap[s.tx.value].writer == c)
    && (s.tx.None? ==> s.event.None? && !s.status.Committed?)
  }

  predicate PostingOk(db: Db, p: PostingRow) {
    && p.tx in db.heap && p.tenant == db.heap[p.tx].tenant
    && WellFormed(p.posting) && p.posting.account in db.accounts
  }

  predicate SamePair(a: TxRow, b: TxRow) {
    a.tenant == b.tenant && a.key == b.key
  }

  ghost predicate RowsOk(db: Db) {
    && (forall id :: id in db.committed ==> id in db.heap)
    && (forall id :: id in db.heap ==> HeapRowOk(db, id))
    && (forall c :: c in db.sessions ==> SessionOk(db, c))
  }

  ghost predicate PostingsOk(db: Db) {
    forall i :: 0 <= i < |db.postings| ==> PostingOk(db, db.postings[i])
  }

  /** The unique index. */
  ghost predicate PairsUnique(db: Db) {
    forall a, b :: Alive(db, a) && Alive(db, b) && SamePair(db.heap[a], db.heap[b]) ==> a == b
  }

  ghost predicate CommittedBalance(db: Db) {
    forall id :: id in db.committed ==> Balanced(LegsOf(db, id))
  }

  /** Debits minus credits over all visible postings of a tenant. */
  function TenantNet(ps: seq<PostingRow>, vis: set<Uuid>, n: nat, tenant: Uuid): int
    requires n <= |ps|
  {
    if n == 0 then 0
    else
      var p := ps[n - 1];
      TenantNet(ps, vis, n - 1, tenant)
      + (if p.tx in vis && p.tenant == tenant then Amount(p.posting, Debit) - Amount(p.posting, Credit) else 0)
  }

  ghost predicate BooksBalance(db: Db) {
    forall tenant :: TenantNet(db.postings, db.committed, |db.postings|, tenant) == 0
  }

  ghost predicate DbInv(db: Db) {
    RowsOk(db) && PostingsOk(db) && PairsUnique(db) && CommittedBalance(db) && BooksBalance(db)
  }

  // ------------------------------------------------------ what a step preserves

  /** Committed data is immutable: rows, legs and what the queries return. */
  ghost predicate Extends(db: Db, db': Db) {
    && (forall id :: id in db.accounts ==> id in db'.accounts && db'.accounts[id] == db.accounts[id])
    && db.committed <= db'.committed
    && (forall id :: id in db.committed && id in db.heap ==> id in db'.heap && db'.heap[id] == db.heap[id])
    && (forall id, tenant :: id in db.committed ==> GetPostings(db', id, tenant) == GetPostings(db, id, tenant))
    && (forall id :: id in db.committed ==> LegsOf(db', id) == LegsOf(db, id))
  }

  /** Call c's database transaction looks the same in both states. */
  ghost predicate SameSession(db: Db, db': Db, c: CallId) {
    && (c in db.sessions <==> c in db'.sessions)
    && (c in db.sessions ==>
          && db'.sessions[c] == db.sessions[c]
          && (db.sessions[c].tx.Some? ==>
                var id := db.sessions[c].tx.value;
                && (id in db.heap <==> id in db'.heap)
                && (id in db.heap ==> db'.heap[id] == db.heap[id])
                && LegsOf(db', id) == LegsOf(db, id)))
  }

  /** A step of call c: committed data stays, other calls' transactions stay. */
  ghost predicate StepOf(db: Db, db': Db, c: CallId) {
    Extends(db, db') && forall other :: other != c ==> SameSession(db, db', other)
  }

  lemma {:induction false} LegsPrefix(ps: seq<PostingRow>, p: PostingRow, n: nat, tx: Uuid)
    requires n <= |ps|
    ensures Legs(ps + [p], n, tx) == Legs(ps, n, tx)
  {
    if n > 0 {
      LegsPrefix(ps, p, n - 1, tx);
    }
  }

  lemma {:induction false} LegsSnoc(ps: seq<PostingRow>, p: PostingRow, tx: Uuid)
    ensures Legs(ps + [p], |ps| + 1, tx) == Legs(ps, |ps|, tx) + (if p.tx == tx then [p.posting] else [])
  {
    LegsPrefix(ps, p, |ps|, tx);
  }

  lemma {:induction false} SelectPrefix(acc: map<int, Account>, ps: seq<PostingRow>, p: PostingRow, n: nat, tx: Uuid, tenant: Uuid)
    requires n <= |ps|
    ensures Select(acc, ps + [p], n, tx, tenant) == Select(acc, ps, n, tx, tenant)
  {
    if n > 0 {
      SelectPrefix(acc, ps, p, n - 1, tx, tenant);
    }
  }

  lemma {:induction false} SelectAccounts(acc: map<int, Account>, id: int, a: Account, ps: seq<PostingRow>, n: nat, tx: Uuid, tenant: Uuid)
    requires n <= |ps| && id !in acc
    requires forall i :: 0 <= i < n ==> ps[i].posting.account in acc
    ensures Select(acc[id := a], ps, n, tx, tenant) == Select(acc, ps, n, tx, tenant)
  {
    if n > 0 {
      SelectAccounts(acc, id, a, ps, n - 1, tx, tenant);
    }
  }

  lemma {:induction false} NetPrefix(ps: seq<PostingRow>, p: PostingRow, vis: set<Uuid>, n: nat, tenant: Uuid)
    requires n <= |ps|
    ensures TenantNet(ps + [p], vis, n, tenant) == TenantNet(ps, vis, n, tenant)
  {
    if n > 0 {
      NetPrefix(ps, p, vis, n - 1, tenant);
    }
  }

  /** Making one transaction visible adds exactly its own legs. */
  lemma {:induction false} NetCommit(ps: seq<PostingRow>, vis: set<Uuid>, n: nat, id: Uuid, owner: Uuid, tenant: Uuid)
    requires n <= |ps| && id !in vis
    requires forall i :: 0 <= i < n && ps[i].tx == id ==> ps[i].tenant == owner
    ensures TenantNet(ps, vis + {id}, n, tenant) == TenantNet(ps, vis, n, tenant)
      + (if tenant == owner then Sum(Legs(ps, n, id), Debit) - Sum(Legs(ps, n, id), Credit) else 0)
  {
    if n > 0 {
      NetCommit(ps, vis, n - 1, id, owner, tenant);
      SumSnoc(Legs(ps, n - 1, id), ps[n - 1].posting, Debit);
      SumSnoc(Legs(ps, n - 1, id), ps[n - 1].posting, Credit);
      assert Legs(ps, n - 1, id) + [] == Legs(ps, n - 1, id);
    }
  }

  // ------------------------------------------------------------------- steps

  /** Only call c's session record changes, and neither what it inserted nor
      whether it has committed; a rollback is not taken back. */
  ghost predicate OnlySession(db: Db, db': Db, c: CallId) {
    && db' == db.(sessions := db'.sessions) && c in db'.sessions && SessionOk(db', c)
    && (forall other :: other != c ==>
          && (other in db.sessions <==> other in db'.sessions)
          && (other in db.sessions ==> db'.sessions[other] == db.sessions[other]))
    && (if c in db.sessions then
          && db'.sessions[c].tx == db.sessions[c].tx
          && (db'.sessions[c].status.Committed? <==> db.sessions[c].status.Committed?)
          && (db.sessions[c].status.Aborted? ==> db'.sessions[c].status.Aborted?)
        else db'.sessions[c].tx.None?)
  }

  lemma {:induction false} SessionRows(db: Db, db': Db, c: CallId)
    requires DbInv(db) && OnlySession(db, db', c)
    ensures RowsOk(db') && PairsUnique(db')
  {
    forall id | id in db'.heap ensures HeapRowOk(db', id) {
      assert HeapRowOk(db, id);
    }
    forall other | other in db'.sessions ensures SessionOk(db', other) {
      assert other != c ==> SessionOk(db, other);
    }
    forall a, b | Alive(db', a) && Alive(db', b) && SamePair(db'.heap[a], db'.heap[b]) ensures a == b {
      assert HeapRowOk(db, a) && HeapRowOk(db, b);
      assert Alive(db, a) && Alive(db, b);
    }
  }

  /** Statements that touch only call c's session record. */
  lemma {:induction false} SessionStep(db: Db, db': Db, c: CallId)
    requires DbInv(db) && OnlySession(db, db', c)
    ensures DbInv(db') && StepOf(db, db', c)
  {
    SessionRows(db, db', c);
    forall i | 0 <= i < |db'.postings| ensures PostingOk(db', db'.postings[i]) {
      assert PostingOk(db, db.postings[i]);
    }
    forall id | id in db'.committed ensures Balanced(LegsOf(db', id)) {
      assert LegsOf(db', id) == LegsOf(db, id);
    }
  }

  lemma {:induction false} BeginOk(db: Db, c: CallId, now: nat)
    requires DbInv(db) && CanBegin(db, c)
    ensures DbInv(Begin(db, c, now)) && StepOf(db, Begin(db, c, now), c)
  {
    SessionStep(db, Begin(db, c, now), c);
  }

  lemma {:induction false} InsertEventOk(db: Db, c: CallId, e: Event)
    requires DbInv(db) && CanInsertEvent(db, c)
    ensures DbInv(InsertEvent(db, c, e)) && StepOf(db, InsertEvent(db, c, e), c)
  {
    assert SessionOk(db, c);
    SessionStep(db, InsertEvent(db, c, e), c);
  }

  /** COMMIT sent, or the transaction rolled back. */
  lemma {:induction false} SetStatusOk(db: Db, c: CallId, status: TxStatus)
    requires DbInv(db) && Live(db, c) && !status.Committed?
    ensures DbInv(SetStatus(db, c, status)) && StepOf(db, SetStatus(db, c, status), c)
  {
    assert SessionOk(db, c);
    SessionStep(db, SetStatus(db, c, status), c);
  }

  lemma {:induction false} InsertTxRows(db: Db, c: CallId, id: Uuid, tenant: Uuid, key: string, description: string, metadata: string)
    requires DbInv(db) && CanInsertTx(db, c, id, tenant, key)
    ensures RowsOk(InsertTx(db, c, id, tenant, key, description, metadata))
  {
    var db' := InsertTx(db, c, id, tenant, key, description, metadata);
    assert SessionOk(db, c);
    forall x | x in db'.heap ensures HeapRowOk(db', x) {
      assert x != id ==> HeapRowOk(db, x);
    }
    forall other | other in db'.sessions ensures SessionOk(db', other) {
      assert other != c ==> SessionOk(db, other);
    }
  }

  lemma {:induction false} InsertTxUnique(db: Db, c: CallId, id: Uuid, tenant: Uuid, key: string, description: string, metadata: string)
    requires DbInv(db) && CanInsertTx(db, c, id, tenant, key)
    ensures PairsUnique(InsertTx(db, c, id, tenant, key, description, metadata))
  {
    var db' := InsertTx(db, c, id, tenant, key, description, metadata);
    forall a, b | Alive(db', a) && Alive(db', b) && SamePair(db'.heap[a], db'.heap[b]) ensures a == b {
      assert !Occupies(db, a, tenant, key) && !Occupies(db, b, tenant, key);
      assert a != id ==> HeapRowOk(db, a) && Alive(db, a);
      assert b != id ==> HeapRowOk(db, b) && Alive(db, b);
    }
  }

  lemma {:induction false} NoLegsYet(db: Db, n: nat, id: Uuid)
    requires PostingsOk(db) && n <= |db.postings| && id !in db.heap
    ensures Legs(db.postings, n, id) == []
  {
    if n > 0 {
      NoLegsYet(db, n - 1, id);
      assert PostingOk(db, db.postings[n - 1]);
    }
  }

  lemma {:induction false} InsertTxOk(db: Db, c: CallId, id: Uuid, tenant: Uuid, key: string, description: string, metadata: string)
    requires DbInv(db) && CanInsertTx(db, c, id, tenant, key)
    ensures var db' := InsertTx(db, c, id, tenant, key, description, metadata);
      DbInv(db') && StepOf(db, db', c) && LegsOf(db', id) == []
  {
    var db' := InsertTx(db, c, id, tenant, key, description, metadata);
    InsertTxRows(db, c, id, tenant, key, description, metadata);
    InsertTxUnique(db, c, id, tenant, key, description, metadata);
    NoLegsYet(db, |db.postings|, id);
    assert LegsOf(db', id) == LegsOf(db, id);
    forall i | 0 <= i < |db'.postings| ensures PostingOk(db', db'.postings[i]) {
      assert PostingOk(db, db.postings[i]);
    }
    forall x | x in db'.committed ensures Balanced(LegsOf(db', x)) {
      assert LegsOf(db', x) == LegsOf(db, x);
    }
    forall other | other != c ensures SameSession(db, db', other) {
      if other in db.sessions {
        assert SessionOk(db, other);
      }
    }
  }

  lemma {:induction false} InsertPostingData(db: Db, c: CallId, tenant: Uuid, p: Posting)
    requires DbInv(db) && CanInsertPosting(db, c, p)
    requires db.heap[db.sessions[c].tx.value].tenant == tenant
    ensures var db' := InsertPosting(db, c, tenant, p);
      PostingsOk(db') && CommittedBalance(db') && BooksBalance(db')
    ensures db.sessions[c].tx.value !in db.committed
    ensures var db' := InsertPosting(db, c, tenant, p);
      forall id :: LegsOf(db', id) == LegsOf(db, id) + (if id == db.sessions[c].tx.value then [p] else [])
  {
    var db' := InsertPosting(db, c, tenant, p);
    var tx := db.sessions[c].tx.value;
    var row := PostingRow(tenant, tx, p, db.sessions[c].startedAt);
    assert SessionOk(db, c) && HeapRowOk(db, tx);
    forall i | 0 <= i < |db'.postings| ensures PostingOk(db', db'.postings[i]) {
      assert i < |db.postings| ==> PostingOk(db, db.postings[i]);
    }
    forall id ensures LegsOf(db', id) == LegsOf(db, id) + (if id == tx then [p] else []) {
      LegsSnoc(db.postings, row, id);
    }
    forall id | id in db'.committed ensures Balanced(LegsOf(db', id)) {
      assert LegsOf(db, id) + [] == LegsOf(db, id);
    }
    forall t ensures TenantNet(db'.postings, db'.committed, |db'.postings|, t) == 0 {
      NetPrefix(db.postings, row, db.committed, |db.postings|, t);
    }
  }

  /** A posting goes to an uncommitted transaction, so nothing committed moves. */
  lemma {:induction false} InsertPostingOk(db: Db, c: CallId, tenant: Uuid, p: Posting)
    requires DbInv(db) && CanInsertPosting(db, c, p)
    requires db.sessions[c].tx.value in db.heap && db.heap[db.sessions[c].tx.value].tenant == tenant
    ensures var db' := InsertPosting(db, c, tenant, p);
      && DbInv(db') && StepOf(db, db', c)
      && LegsOf(db', db.sessions[c].tx.value) == LegsOf(db, db.sessions[c].tx.value) + [p]
  {
    var db' := InsertPosting(db, c, tenant, p);
    var tx := db.sessions[c].tx.value;
    var row := PostingRow(tenant, tx, p, db.sessions[c].startedAt);
    InsertPostingData(db, c, tenant, p);
    forall id | id in db.heap ensures HeapRowOk(db', id) {
      assert HeapRowOk(db, id);
    }
    forall other | other in db.sessions ensures SessionOk(db', other) {
      assert SessionOk(db, other);
    }
    forall a, b | Alive(db', a) && Alive(db', b) && SamePair(db'.heap[a], db'.heap[b]) ensures a == b {
      assert Alive(db, a) && Alive(db, b);
    }
    forall id, t | id in db.committed ensures GetPostings(db', id, t) == GetPostings(db, id, t) {
      SelectPrefix(db.accounts, db.postings, row, |db.postings|, id, t);
    }
    forall id | id != tx ensures LegsOf(db', id) == LegsOf(db, id) {
      assert LegsOf(db, id) + [] == LegsOf(db, id);
    }
    forall other | other != c ensures SameSession(db, db', other) {
      assert SessionOk(db, c) && (other in db.sessions ==> SessionOk(db, other));
    }
  }

  lemma {:induction false} CommitRows(db: Db, c: CallId)
    requires DbInv(db) && CanCommit(db, c)
    ensures RowsOk(Commit(db, c)) && PairsUnique(Commit(db, c)) && PostingsOk(Commit(db, c))
  {
    var db' := Commit(db, c);
    assert SessionOk(db, c);
    forall id | id in db'.heap ensures HeapRowOk(db', id) {
      assert HeapRowOk(db, id);
    }
    forall other | other in db'.sessions ensures SessionOk(db', other) {
      assert SessionOk(db, other);
    }
    forall a, b | Alive(db', a) && Alive(db', b) && SamePair(db'.heap[a], db'.heap[b]) ensures a == b {
      assert Alive(db, a) && Alive(db, b);
    }
    forall i | 0 <= i < |db'.postings| ensures PostingOk(db', db'.postings[i]) {
      assert PostingOk(db, db.postings[i]);
    }
  }

  lemma {:induction false} CommitBooks(db: Db, c: CallId)
    requires DbInv(db) && CanCommit(db, c)
    ensures CommittedBalance(Commit(db, c)) && BooksBalance(Commit(db, c))
  {
    var db' := Commit(db, c);
    var id := db.sessions[c].tx.value;
    var owner := db.heap[id].tenant;
    assert SessionOk(db, c) && HeapRowOk(db, id);
    assert Balanced(LegsOf(db, id));
    forall x | x in db'.committed ensures Balanced(LegsOf(db', x)) {
      assert LegsOf(db', x) == LegsOf(db, x);
    }
    forall i | 0 <= i < |db.postings| && db.postings[i].tx == id ensures db.postings[i].tenant == owner {
      assert PostingOk(db, db.postings[i]);
    }
    forall t ensures TenantNet(db'.postings, db'.committed, |db'.postings|, t) == 0 {
      NetCommit(db.postings, db.committed, |db.postings|, id, owner, t);
    }
  }

  lemma {:induction false} CommitOk(db: Db, c: CallId)
    requires DbInv(db) && CanCommit(db, c)
    ensures DbInv(Commit(db, c)) && StepOf(db, Commit(db, c), c)
    ensures db.sessions[c].tx.value !in db.committed
  {
    var db' := Commit(db, c);
    CommitRows(db, c);
    CommitBooks(db, c);
    assert SessionOk(db, c) && HeapRowOk(db, db.sessions[c].tx.value);
    forall id ensures LegsOf(db', id) == LegsOf(db, id) {}
    forall other | other != c ensures SameSession(db, db', other) {}
  }

  lemma {:induction false} AddAccountOk(db: Db, id: int, a: Account)
    requires DbInv(db) && CanAddAccount(db, id, a)
    ensures var db' := AddAccount(db, id, a);
      DbInv(db') && Extends(db, db') && forall c :: SameSession(db, db', c)
  {
    var db' := AddAccount(db, id, a);
    forall x | x in db'.heap ensures HeapRowOk(db', x) {
      assert HeapRowOk(db, x);
    }
    forall c | c in db'.sessions ensures SessionOk(db', c) {
      assert SessionOk(db, c);
    }
    forall i | 0 <= i < |db'.postings| ensures PostingOk(db', db'.postings[i]) {
      assert PostingOk(db, db.postings[i]);
    }
    forall x, y | Alive(db', x) && Alive(db', y) && SamePair(db'.heap[x], db'.heap[y]) ensures x == y {
      assert Alive(db, x) && Alive(db, y);
    }
    forall x ensures LegsOf(db', x) == LegsOf(db, x) {}
    forall x, t | x in db.committed ensures GetPostings(db', x, t) == GetPostings(db, x, t) {
      forall i | 0 <= i < |db.postings| ensures db.postings[i].posting.account in db.accounts {
        assert PostingOk(db, db.postings[i]);
      }
      SelectAccounts(db.accounts, id, a, db.postings, |db.postings|, x, t);
    }
  }

  lemma {:induction false} EmptyOk()
    ensures DbInv(EMPTY)
  {}

  // ----------------------------------------------------- what the queries show

  function LegsShown(vs: seq<PostingView>): seq<Posting> {
    seq(|vs|, i requires 0 <= i < |vs| => vs[i].row.posting)
  }

  /** The posting query returns exactly the legs inserted under the transaction,
      in the order they were inserted: no posting is lost in the join. */
  lemma {:induction false} SelectShowsLegs(db: Db, n: nat, tx: Uuid)
    requires RowsOk(db) && PostingsOk(db) && n <= |db.postings| && tx in db.heap
    ensures LegsShown(Select(db.accounts, db.postings, n, tx, db.heap[tx].tenant)) == Legs(db.postings, n, tx)
  {
    if n > 0 {
      SelectShowsLegs(db, n - 1, tx);
      assert PostingOk(db, db.postings[n - 1]);
    }
  }

  /** Sum of net balances over a list of accounts. */
  function NetOver(db: Db, tenant: Uuid, accounts: seq<int>): int {
    if |accounts| == 0 then 0
    else NetOver(db, tenant, accounts[..|accounts| - 1]) + ExactBalance(db, tenant, accounts[|accounts| - 1]).net
  }

  function NetOverFirst(db: Db, n: nat, tenant: Uuid, accounts: seq<int>): int
    requires n <= |db.postings|
  {
    if |accounts| == 0 then 0
    else
      var a := accounts[|accounts| - 1];
      NetOverFirst(db, n, tenant, accounts[..|accounts| - 1])
      + Side(db.postings, db.committed, n, tenant, a, Debit)
      - Side(db.postings, db.committed, n, tenant, a, Credit)
  }

  predicate AllDistinct(accounts: seq<int>) {
    forall i, j :: 0 <= i < j < |accounts| ==> accounts[i] != accounts[j]
  }

  predicate Mentions(db: Db, tenant: Uuid, account: int) {
    exists i :: 0 <= i < |db.postings| && db.postings[i].tenant == tenant && db.postings[i].posting.account == account
  }

  /** One more posting changes exactly one account of a list without repeats. */
  lemma {:induction false} NetOverStep(db: Db, n: nat, tenant: Uuid, accounts: seq<int>)
    requires 0 < n <= |db.postings| && AllDistinct(accounts)
    ensures var p := db.postings[n - 1];
      NetOverFirst(db, n, tenant, accounts) == NetOverFirst(db, n - 1, tenant, accounts)
      + (if p.tx in db.committed && p.tenant == tenant && p.posting.account in accounts
         then Amount(p.posting, Debit) - Amount(p.posting, Credit) else 0)
  {
    if |accounts| > 0 {
      var k := |accounts| - 1;
      NetOverStep(db, n, tenant, accounts[..k]);
      assert accounts == accounts[..k] + [accounts[k]];
    }
  }

  lemma {:induction false} NetOverZero(db: Db, tenant: Uuid, accounts: seq<int>)
    ensures NetOverFirst(db, 0, tenant, accounts) == 0
  {
    if |accounts| > 0 {
      NetOverZero(db, tenant, accounts[..|accounts| - 1]);
    }
  }

  lemma {:induction false} NetOverIsTenantNet(db: Db, n: nat, tenant: Uuid, accounts: seq<int>)
    requires n <= |db.postings| && AllDistinct(accounts)
    requires forall a :: Mentions(db, tenant, a) ==> a in accounts
    ensures NetOverFirst(db, n, tenant, accounts) == TenantNet(db.postings, db.committed, n, tenant)
  {
    if n > 0 {
      NetOverIsTenantNet(db, n - 1, tenant, accounts);
      NetOverStep(db, n, tenant, accounts);
      assert db.postings[n - 1].tenant == tenant ==> Mentions(db, tenant, db.postings[n - 1].posting.account);
    } else {
      NetOverZero(db, tenant, accounts);
    }
  }

  lemma {:induction false} NetOverAll(db: Db, tenant: Uuid, accounts: seq<int>)
    ensures NetOver(db, tenant, accounts) == NetOverFirst(db, |db.postings|, tenant, accounts)
  {
    if |accounts| > 0 {
      NetOverAll(db, tenant, accounts[..|accounts| - 1]);
    }
  }

  /** Trial balance: a tenant's net balances, over all accounts its postings
      mention, sum to zero. */
  lemma {:induction false} TrialBalance(db: Db, tenant: Uuid, accounts: seq<int>)
    requires DbInv(db) && AllDistinct(accounts)
    requires forall a :: Mentions(db, tenant, a) ==> a in accounts
    ensures NetOver(db, tenant, accounts) == 0
  {
    NetOverAll(db, tenant, accounts);
    NetOverIsTenantNet(db, |db.postings|, tenant, accounts);
  }
}
