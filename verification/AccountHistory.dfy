/** Balances are never stored: what the balance query sums up is the history of
    the requests that were committed. */
module AccountHistory {
  import opened Core
  import opened Balance
  import opened Database
  import opened DatabaseInv
  import opened Protocol
  import opened ProtocolInv
  import opened ProtocolSafety

  /** One side of one account within a posting list. */
  function OnAccount(legs: seq<Posting>, account: int, d: Direction): int {
    if |legs| == 0 then 0
    else
      OnAccount(legs[..|legs| - 1], account, d)
      + (if legs[|legs| - 1].account == account && legs[|legs| - 1].direction == d then legs[|legs| - 1].amount else 0)
  }

  lemma {:induction false} OnAccountSnoc(legs: seq<Posting>, p: Posting, account: int, d: Direction)
    ensures OnAccount(legs + [p], account, d) == OnAccount(legs, account, d) + (if p.account == account then Amount(p, d) else 0)
  {
    assert (legs + [p])[..|legs|] == legs;
  }

  /** Making one transaction visible adds exactly its own legs on the account. */
  lemma {:induction false} SideCommit(ps: seq<PostingRow>, vis: set<Uuid>, n: nat, id: Uuid, owner: Uuid, tenant: Uuid, account: int, d: Direction)
    requires n <= |ps| && id !in vis
    requires forall i :: 0 <= i < n && ps[i].tx == id ==> ps[i].tenant == owner
    ensures Side(ps, vis + {id}, n, tenant, account, d) == Side(ps, vis, n, tenant, account, d)
      + (if tenant == owner then OnAccount(Legs(ps, n, id), account, d) else 0)
  {
    if n > 0 {
      SideCommit(ps, vis, n - 1, id, owner, tenant, account, d);
      OnAccountSnoc(Legs(ps, n - 1, id), ps[n - 1].posting, account, d);
      assert Legs(ps, n - 1, id) + [] == Legs(ps, n - 1, id);
    }
  }

  lemma {:induction false} SidePrefix(ps: seq<PostingRow>, p: PostingRow, vis: set<Uuid>, n: nat, tenant: Uuid, account: int, d: Direction)
    requires n <= |ps|
    ensures Side(ps + [p], vis, n, tenant, account, d) == Side(ps, vis, n, tenant, account, d)
  {
    if n > 0 {
      SidePrefix(ps, p, vis, n - 1, tenant, account, d);
    }
  }

  function SideOf(db: Db, tenant: Uuid, account: int, d: Direction): int {
    Side(db.postings, db.committed, |db.postings|, tenant, account, d)
  }

  /** What a step adds to one side of an account: a commit adds the request it commits. */
  function Contribution(s: State, l: Label, tenant: Uuid, account: int, d: Direction): int {
    if l.ServerCommit? && l.c in s.calls && s.calls[l.c].tenant == tenant
    then OnAccount(s.calls[l.c].req.postings, account, d) else 0
  }

  ghost function History(s: State, ls: seq<Label>, cfg: Config, tenant: Uuid, account: int, d: Direction): int
    requires Legal(s, ls, cfg)
    decreases |ls|
  {
    if |ls| == 0 then 0
    else Contribution(s, ls[0], tenant, account, d) + History(Apply(s, ls[0], cfg), ls[1..], cfg, tenant, account, d)
  }

  /** Only a commit makes postings visible; only InsertLeg adds one. */
  predicate OnlyInvisiblePostings(db: Db, db': Db) {
    && db'.committed == db.committed
    && (db'.postings == db.postings
        || (|db'.postings| == |db.postings| + 1 && db'.postings[..|db.postings|] == db.postings
            && db'.postings[|db.postings|].tx !in db.committed))
  }

  lemma {:induction false} LegIsInvisible(s: State, c: CallId, outcome: Outcome, cfg: Config)
    requires Inv(s) && Enabled(s, InsertLeg(c, outcome), cfg)
    ensures OnlyInvisiblePostings(s.db, AfterInsertLeg(s, c, outcome).db)
  {
    if c in s.db.sessions {
      assert DatabaseInv.SessionOk(s.db, c);
      if s.db.sessions[c].tx.Some? {
        assert DatabaseInv.HeapRowOk(s.db, s.db.sessions[c].tx.value);
      }
    }
  }

  lemma {:induction false} OtherStepsAddNothing(s: State, l: Label, cfg: Config)
    requires Enabled(s, l, cfg) && !l.ServerCommit? && !l.InsertLeg?
    ensures Apply(s, l, cfg).db.committed == s.db.committed && Apply(s, l, cfg).db.postings == s.db.postings
  {
    if LeavesDatabase(l) {
      DatabaseLeftAlone(s, l, cfg);
    } else {
      StatementAddsNothing(s, l, cfg);
    }
  }

  lemma {:induction false} StatementAddsNothing(s: State, l: Label, cfg: Config)
    requires Enabled(s, l, cfg) && !LeavesDatabase(l) && !l.ServerCommit? && !l.InsertLeg?
    ensures Apply(s, l, cfg).db.committed == s.db.committed && Apply(s, l, cfg).db.postings == s.db.postings
  {}

  /** A commit adds the legs of its transaction to that transaction's tenant. */
  lemma {:induction false} CommitAdds(db: Db, c: CallId, tenant: Uuid, account: int, d: Direction)
    requires DbInv(db) && CanCommit(db, c)
    ensures HasRow(db, c)
    ensures SideOf(Commit(db, c), tenant, account, d) == SideOf(db, tenant, account, d)
      + (if tenant == RowOf(db, c).tenant then OnAccount(LegsOf(db, db.sessions[c].tx.value), account, d) else 0)
  {
    var id := db.sessions[c].tx.value;
    CommitOk(db, c);
    assert DatabaseInv.SessionOk(db, c);
    forall i | 0 <= i < |db.postings| && db.postings[i].tx == id ensures db.postings[i].tenant == RowOf(db, c).tenant {
      assert PostingOk(db, db.postings[i]);
    }
    SideCommit(db.postings, db.committed, |db.postings|, id, RowOf(db, c).tenant, tenant, account, d);
  }

  lemma {:induction false} CommitContributes(s: State, c: CallId, cfg: Config, tenant: Uuid, account: int, d: Direction)
    requires Inv(s) && Enabled(s, ServerCommit(c), cfg)
    ensures SideOf(Commit(s.db, c), tenant, account, d)
      == SideOf(s.db, tenant, account, d) + Contribution(s, ServerCommit(c), tenant, account, d)
  {
    InvAt(s, c);
    CommitAdds(s.db, c, tenant, account, d);
  }

  lemma {:induction false} InvisibleStep(db: Db, db': Db, tenant: Uuid, account: int, d: Direction)
    requires OnlyInvisiblePostings(db, db')
    ensures SideOf(db', tenant, account, d) == SideOf(db, tenant, account, d)
  {
    if db'.postings != db.postings {
      var p := db'.postings[|db.postings|];
      assert db'.postings == db.postings + [p];
      SidePrefix(db.postings, p, db.committed, |db.postings|, tenant, account, d);
    }
  }

  lemma {:induction false} StepContributes(s: State, l: Label, cfg: Config, tenant: Uuid, account: int, d: Direction)
    requires Inv(s) && Enabled(s, l, cfg)
    ensures SideOf(Apply(s, l, cfg).db, tenant, account, d)
      == SideOf(s.db, tenant, account, d) + Contribution(s, l, tenant, account, d)
  {
    if l.ServerCommit? {
      CommitContributes(s, l.c, cfg, tenant, account, d);
    } else if l.InsertLeg? {
      LegIsInvisible(s, l.c, l.outcome, cfg);
      InvisibleStep(s.db, Apply(s, l, cfg).db, tenant, account, d);
    } else {
      OtherStepsAddNothing(s, l, cfg);
    }
  }

  lemma {:induction false} SideIsHistory(s: State, ls: seq<Label>, cfg: Config, tenant: Uuid, account: int, d: Direction)
    requires Inv(s) && Legal(s, ls, cfg)
    ensures SideOf(Run(s, ls, cfg).db, tenant, account, d)
      == SideOf(s.db, tenant, account, d) + History(s, ls, cfg, tenant, account, d)
    decreases |ls|
  {
    if |ls| > 0 {
      StepKeepsInv(s, ls[0], cfg);
      StepContributes(s, ls[0], cfg, tenant, account, d);
      SideIsHistory(Apply(s, ls[0], cfg), ls[1..], cfg, tenant, account, d);
    }
  }

  /** In every reachable state an account's debits and credits are the sums, over
      the commits of the run, of what the committed requests asked for. */
  lemma {:induction false} BalanceIsHistory(s0: State, ls: seq<Label>, s: State, cfg: Config, tenant: Uuid, account: int)
    requires Reaches(s0, ls, s, cfg)
    ensures var debits := History(s0, ls, cfg, tenant, account, Debit);
      var credits := History(s0, ls, cfg, tenant, account, Credit);
      ExactBalance(s.db, tenant, account) == BalanceRow(debits, credits, debits - credits)
  {
    EmptyOk();
    SideIsHistory(s0, ls, cfg, tenant, account, Debit);
    SideIsHistory(s0, ls, cfg, tenant, account, Credit);
  }
}
