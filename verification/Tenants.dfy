/** Tenants share every table, one Redis and one worker pool; no tenant's reads
    depend on what another tenant does. */
module Tenants {
  import opened Core
  import opened Balance
  import opened Database
  import opened DatabaseInv
  import opened Protocol
  import opened ProtocolInv
  import opened ProtocolSafety
  import opened AccountHistory
  import Paging

  /** On whose behalf a step is taken; clock ticks and workers serve everybody. */
  function ActingTenant(s: State, l: Label): Option<Uuid> {
    match l
    case Arrive(_, tenant, _) => Some(tenant)
    case AddAccount(_, account) => Some(account.tenant)
    case LoseLock(p) => Some(p.tenant)
    case LoseEntry(p) => Some(p.tenant)
    case Tick(_) => None
    case Worker(_) => None
    case _ => if l.c in s.calls then Some(s.calls[l.c].tenant) else None
  }

  ghost predicate SameAccounts(db: Db, db': Db, tenant: Uuid) {
    forall id :: GetAccount(db', id, tenant) == GetAccount(db, id, tenant)
  }

  ghost predicate SameBalances(db: Db, db': Db, tenant: Uuid) {
    forall account :: GetAccountBalance(db', tenant, account) == GetAccountBalance(db, tenant, account)
  }

  predicate SameTransaction(db: Db, db': Db, tenant: Uuid, id: Uuid) {
    && GetTransaction(db', tenant, id) == GetTransaction(db, tenant, id)
    && GetPostings(db', id, tenant) == GetPostings(db, id, tenant)
  }

  ghost predicate SameTransactions(db: Db, db': Db, tenant: Uuid) {
    forall id :: SameTransaction(db, db', tenant, id)
  }

  ghost predicate SameAccountLists(db: Db, db': Db, tenant: Uuid) {
    forall cursor, limit, page ::
      Paging.IsAccountPage(db'.accounts, tenant, cursor, limit, page) <==> Paging.IsAccountPage(db.accounts, tenant, cursor, limit, page)
  }

  ghost predicate SameReads(db: Db, db': Db, tenant: Uuid) {
    && SameAccounts(db, db', tenant) && SameBalances(db, db', tenant)
    && SameTransactions(db, db', tenant) && SameAccountLists(db, db', tenant)
  }

  ghost predicate SameRedis(s: State, s': State, tenant: Uuid) {
    forall p: Pair :: p.tenant == tenant ==> SameLock(s, s', p) && SameEntry(s, s', p)
  }

  predicate SameLock(s: State, s': State, p: Pair) {
    (p in s'.locks <==> p in s.locks) && (p in s.locks ==> s'.locks[p] == s.locks[p])
  }

  predicate SameEntry(s: State, s': State, p: Pair) {
    (p in s'.cache <==> p in s.cache) && (p in s.cache ==> s'.cache[p] == s.cache[p])
  }

  // ---------------------------------------------------------------- database

  lemma {:induction false} OthersAddTheirAccounts(s: State, l: Label, cfg: Config, tenant: Uuid)
    requires Enabled(s, l, cfg) && ActingTenant(s, l) != Some(tenant)
    ensures SameAccounts(s.db, Apply(s, l, cfg).db, tenant)
  {
    if LeavesDatabase(l) {
      DatabaseLeftAlone(s, l, cfg);
    } else if Inserts(l) {
      InsertsTouchOwn(s, l, cfg);
    } else if Ends(l) {
      EndsTouchOwn(s, l, cfg);
    }
  }

  lemma {:induction false} AccountsDecideLists(db: Db, db': Db, tenant: Uuid)
    requires SameAccounts(db, db', tenant)
    ensures SameAccountLists(db, db', tenant)
  {
    forall cursor, id ensures Paging.Matches(db'.accounts, tenant, cursor, id) == Paging.Matches(db.accounts, tenant, cursor, id) {
      assert GetAccount(db', id, tenant) == GetAccount(db, id, tenant);
    }
  }

  lemma {:induction false} NoContribution(s: State, l: Label, cfg: Config, tenant: Uuid)
    requires Inv(s) && Enabled(s, l, cfg) && ActingTenant(s, l) != Some(tenant)
    ensures forall account :: ExactBalance(Apply(s, l, cfg).db, tenant, account) == ExactBalance(s.db, tenant, account)
  {
    forall account ensures ExactBalance(Apply(s, l, cfg).db, tenant, account) == ExactBalance(s.db, tenant, account) {
      StepContributes(s, l, cfg, tenant, account, Debit);
      StepContributes(s, l, cfg, tenant, account, Credit);
    }
  }

  lemma {:induction false} NothingSelected(db: Db, n: nat, tx: Uuid, tenant: Uuid)
    requires PostingsOk(db) && n <= |db.postings| && tx in db.heap && db.heap[tx].tenant != tenant
    ensures Select(db.accounts, db.postings, n, tx, tenant) == []
  {
    if n > 0 {
      NothingSelected(db, n - 1, tx, tenant);
      assert PostingOk(db, db.postings[n - 1]);
    }
  }

  /** A transaction of another tenant looks like no transaction at all. */
  predicate Hidden(db: Db, id: Uuid, tenant: Uuid) {
    id in db.committed ==> id in db.heap && db.heap[id].tenant != tenant
  }

  lemma {:induction false} HiddenReads(db: Db, id: Uuid, tenant: Uuid)
    requires DbInv(db) && Hidden(db, id, tenant)
    ensures GetTransaction(db, tenant, id) == None && GetPostings(db, id, tenant) == []
  {
    if id in db.committed {
      NothingSelected(db, |db.postings|, id, tenant);
    }
  }

  lemma {:induction false} OthersCommitTheirs(s: State, c: CallId, cfg: Config, tenant: Uuid, id: Uuid)
    requires Inv(s) && Enabled(s, ServerCommit(c), cfg) && c in s.calls && s.calls[c].tenant != tenant
    requires id !in s.db.committed
    ensures Hidden(Commit(s.db, c), id, tenant)
  {
    InvAt(s, c);
  }

  lemma {:induction false} StaysHidden(s: State, l: Label, cfg: Config, tenant: Uuid, id: Uuid)
    requires Inv(s) && Enabled(s, l, cfg) && ActingTenant(s, l) != Some(tenant)
    requires id !in s.db.committed
    ensures Hidden(Apply(s, l, cfg).db, id, tenant)
  {
    if l.ServerCommit? {
      assert l.c in s.calls;
      OthersCommitTheirs(s, l.c, cfg, tenant, id);
    } else if l.InsertLeg? {
      LegIsInvisible(s, l.c, l.outcome, cfg);
    } else {
      OtherStepsAddNothing(s, l, cfg);
    }
  }

  lemma {:induction false} SameOrHidden(db: Db, db': Db, tenant: Uuid, id: Uuid)
    requires DbInv(db) && DbInv(db') && Extends(db, db')
    requires id !in db.committed ==> Hidden(db', id, tenant)
    ensures SameTransaction(db, db', tenant, id)
  {
    if id !in db.committed {
      HiddenReads(db, id, tenant);
      HiddenReads(db', id, tenant);
    }
  }

  lemma {:induction false} OthersTransactions(s: State, l: Label, cfg: Config, tenant: Uuid)
    requires Inv(s) && Enabled(s, l, cfg) && ActingTenant(s, l) != Some(tenant)
    ensures SameTransactions(s.db, Apply(s, l, cfg).db, tenant)
  {
    var db' := Apply(s, l, cfg).db;
    StepKeepsInv(s, l, cfg);
    forall id ensures SameTransaction(s.db, db', tenant, id) {
      if id !in s.db.committed {
        StaysHidden(s, l, cfg, tenant, id);
      }
      SameOrHidden(s.db, db', tenant, id);
    }
  }

  /** No step of another tenant, of a worker or of the clock changes what this
      tenant reads: accounts, lists, balances, transactions and postings. */
  lemma {:induction false} StepDoesNotInterfere(s: State, l: Label, cfg: Config, tenant: Uuid)
    requires Inv(s) && Enabled(s, l, cfg) && ActingTenant(s, l) != Some(tenant)
    ensures SameReads(s.db, Apply(s, l, cfg).db, tenant)
  {
    OthersAddTheirAccounts(s, l, cfg, tenant);
    AccountsDecideLists(s.db, Apply(s, l, cfg).db, tenant);
    NoContribution(s, l, cfg, tenant);
    OthersTransactions(s, l, cfg, tenant);
  }

  lemma {:induction false} LocksOfOthers(s: State, l: Label, cfg: Config, p: Pair)
    requires Enabled(s, l, cfg) && ActingTenant(s, l) != Some(p.tenant)
    ensures SameLock(s, Apply(s, l, cfg), p)
  {}

  lemma {:induction false} EntriesOfOthers(s: State, l: Label, cfg: Config, p: Pair)
    requires Enabled(s, l, cfg) && ActingTenant(s, l) != Some(p.tenant)
    ensures SameEntry(s, Apply(s, l, cfg), p)
  {}

  /** Nor does it touch this tenant's locks and cached responses. */
  lemma {:induction false} StepLeavesRedis(s: State, l: Label, cfg: Config, tenant: Uuid)
    requires Enabled(s, l, cfg) && ActingTenant(s, l) != Some(tenant)
    ensures SameRedis(s, Apply(s, l, cfg), tenant)
  {
    forall p: Pair | p.tenant == tenant ensures SameLock(s, Apply(s, l, cfg), p) && SameEntry(s, Apply(s, l, cfg), p) {
      LocksOfOthers(s, l, cfg, p);
      EntriesOfOthers(s, l, cfg, p);
    }
  }

  // -------------------------------------------------------------------- runs

  /** No step of the run is this tenant's. */
  ghost predicate AllForeign(s: State, ls: seq<Label>, cfg: Config, tenant: Uuid)
    requires Legal(s, ls, cfg)
    decreases |ls|
  {
    |ls| == 0 || (ActingTenant(s, ls[0]) != Some(tenant) && AllForeign(Apply(s, ls[0], cfg), ls[1..], cfg, tenant))
  }

  lemma {:induction false} ReadsChain(a: Db, b: Db, c: Db, tenant: Uuid)
    requires SameReads(a, b, tenant) && SameReads(b, c, tenant)
    ensures SameReads(a, c, tenant)
  {
    forall id ensures SameTransaction(a, c, tenant, id) {
      assert SameTransaction(a, b, tenant, id) && SameTransaction(b, c, tenant, id);
    }
    forall cursor, limit, page
      ensures Paging.IsAccountPage(c.accounts, tenant, cursor, limit, page) <==> Paging.IsAccountPage(a.accounts, tenant, cursor, limit, page)
    {
      assert Paging.IsAccountPage(b.accounts, tenant, cursor, limit, page) <==> Paging.IsAccountPage(a.accounts, tenant, cursor, limit, page);
    }
  }

  lemma {:induction false} RedisChain(a: State, b: State, c: State, tenant: Uuid)
    requires SameRedis(a, b, tenant) && SameRedis(b, c, tenant)
    ensures SameRedis(a, c, tenant)
  {}

  /** Whatever other tenants do in between, a tenant that does nothing reads the
      same answers and finds its locks and cached responses as it left them. */
  lemma {:induction false} TenantsDoNotInterfere(s: State, ls: seq<Label>, cfg: Config, tenant: Uuid)
    requires Inv(s) && Legal(s, ls, cfg) && AllForeign(s, ls, cfg, tenant)
    ensures SameReads(s.db, Run(s, ls, cfg).db, tenant)
    ensures SameRedis(s, Run(s, ls, cfg), tenant)
    decreases |ls|
  {
    if |ls| > 0 {
      var next := Apply(s, ls[0], cfg);
      StepKeepsInv(s, ls[0], cfg);
      StepDoesNotInterfere(s, ls[0], cfg, tenant);
      StepLeavesRedis(s, ls[0], cfg, tenant);
      TenantsDoNotInterfere(next, ls[1..], cfg, tenant);
      ReadsChain(s.db, next.db, Run(next, ls[1..], cfg).db, tenant);
      RedisChain(s, next, Run(next, ls[1..], cfg), tenant);
    }
  }
}
