/** What the read queries answer in every reachable state, column by column. */
module Reads {
  import opened Core
  import opened Balance
  import opened Database
  import opened DatabaseInv
  import opened Protocol
  import opened ProtocolInv
  import opened ProtocolSafety
  import opened AccountHistory
  import opened Timestamps

  // ---------------------------------------------------------------- postings

  /** v is the posting at position v.id, joined with the name of its account. */
  predicate ShowsPosting(db: Db, v: PostingView, tx: Uuid, tenant: Uuid) {
    && v.id < |db.postings| && v.row == db.postings[v.id] && v.row.tx == tx && v.row.tenant == tenant
    && v.row.posting.account in db.accounts && v.accountName == db.accounts[v.row.posting.account].name
  }

  predicate IdsAscend(vs: seq<PostingView>, n: nat) {
    && (forall i, j :: 0 <= i < j < |vs| ==> vs[i].id < vs[j].id)
    && (forall i :: 0 <= i < |vs| ==> vs[i].id < n)
  }

  predicate Wanted(p: PostingRow, tx: Uuid, tenant: Uuid) {
    p.tx == tx && p.tenant == tenant
  }

  predicate Shown(vs: seq<PostingView>, j: nat) {
    exists i :: 0 <= i < |vs| && vs[i].id == j
  }

  /** The wanted postings among the first n, each once and in order. */
  ghost predicate ShowsWanted(db: Db, vs: seq<PostingView>, n: nat, tx: Uuid, tenant: Uuid) {
    && n <= |db.postings|
    && (forall i :: 0 <= i < |vs| ==> ShowsPosting(db, vs[i], tx, tenant))
    && IdsAscend(vs, n)
    && (forall j {:trigger Shown(vs, j)} :: 0 <= j < n && Wanted(db.postings[j], tx, tenant) ==> Shown(vs, j))
  }

  /** What the query has selected after the first n rows. */
  function Selected(db: Db, n: nat, tx: Uuid, tenant: Uuid): seq<PostingView>
    requires n <= |db.postings|
  {
    Select(db.accounts, db.postings, n, tx, tenant)
  }

  lemma {:induction false} SelectNext(db: Db, n: nat, tx: Uuid, tenant: Uuid)
    requires n < |db.postings| && PostingOk(db, db.postings[n])
    ensures var p, before := db.postings[n], Selected(db, n, tx, tenant);
      Selected(db, n + 1, tx, tenant) ==
      if Wanted(p, tx, tenant) then before + [PostingView(n, p, db.accounts[p.posting.account].name)] else before
  {
    var before := Selected(db, n, tx, tenant);
    assert before + [] == before;
  }

  lemma {:induction false} SelectedAreShown(db: Db, n: nat, tx: Uuid, tenant: Uuid)
    requires PostingsOk(db) && n <= |db.postings|
    ensures forall v :: v in Selected(db, n, tx, tenant) ==> ShowsPosting(db, v, tx, tenant)
  {
    if n > 0 {
      SelectedAreShown(db, n - 1, tx, tenant);
      assert PostingOk(db, db.postings[n - 1]);
      SelectNext(db, n - 1, tx, tenant);
    }
  }

  lemma {:induction false} AscendSnoc(vs: seq<PostingView>, more: seq<PostingView>, n: nat)
    requires IdsAscend(vs, n) && |more| <= 1 && forall v :: v in more ==> v.id == n
    ensures IdsAscend(vs + more, n + 1)
  {}

  lemma {:induction false} SelectedAscend(db: Db, n: nat, tx: Uuid, tenant: Uuid)
    requires n <= |db.postings|
    ensures IdsAscend(Selected(db, n, tx, tenant), n)
  {
    if n > 0 {
      SelectedAscend(db, n - 1, tx, tenant);
      var before, p := Selected(db, n - 1, tx, tenant), db.postings[n - 1];
      var more :=
        if Wanted(p, tx, tenant) && p.posting.account in db.accounts
        then [PostingView(n - 1, p, db.accounts[p.posting.account].name)] else [];
      AscendSnoc(before, more, n - 1);
    }
  }

  lemma {:induction false} SelectedGrows(db: Db, m: nat, n: nat, tx: Uuid, tenant: Uuid)
    requires m <= n <= |db.postings|
    ensures Selected(db, m, tx, tenant) <= Selected(db, n, tx, tenant)
  {
    if m < n {
      SelectedGrows(db, m, n - 1, tx, tenant);
    }
  }

  lemma {:induction false} WantedIsSelected(db: Db, n: nat, tx: Uuid, tenant: Uuid, j: nat)
    requires j < n <= |db.postings| && PostingOk(db, db.postings[j]) && Wanted(db.postings[j], tx, tenant)
    ensures Shown(Selected(db, n, tx, tenant), j)
  {
    SelectNext(db, j, tx, tenant);
    SelectedGrows(db, j + 1, n, tx, tenant);
    assert Selected(db, n, tx, tenant)[|Selected(db, j, tx, tenant)|].id == j;
  }

  lemma {:induction false} SelectAnswers(db: Db, n: nat, tx: Uuid, tenant: Uuid)
    requires PostingsOk(db) && n <= |db.postings|
    ensures ShowsWanted(db, Selected(db, n, tx, tenant), n, tx, tenant)
  {
    SelectedAreShown(db, n, tx, tenant);
    SelectedAscend(db, n, tx, tenant);
    forall j | 0 <= j < n && Wanted(db.postings[j], tx, tenant) ensures Shown(Selected(db, n, tx, tenant), j) {
      assert PostingOk(db, db.postings[j]);
      WantedIsSelected(db, n, tx, tenant, j);
    }
  }

  /** The posting query: nothing of a transaction that is not committed; of one
      that is, exactly its postings of this tenant, in the order of their ids, each
      with its own account's name and the transaction's creation time. */
  lemma {:induction false} GetPostingsAnswers(s0: State, ls: seq<Label>, s: State, cfg: Config, id: Uuid, tenant: Uuid)
    requires Reaches(s0, ls, s, cfg)
    ensures id !in s.db.committed ==> GetPostings(s.db, id, tenant) == []
    ensures id in s.db.committed ==> id in s.db.heap && ShowsWanted(s.db, GetPostings(s.db, id, tenant), |s.db.postings|, id, tenant)
    ensures forall v :: v in GetPostings(s.db, id, tenant) ==> id in s.db.heap && v.row.createdAt == s.db.heap[id].createdAt
  {
    if id in s.db.committed {
      ReachableInv(s0, ls, s, cfg);
      OneTimePerTransaction(s0, ls, s, cfg, id);
      SelectAnswers(s.db, |s.db.postings|, id, tenant);
      ShownAtOneTime(s.db, GetPostings(s.db, id, tenant), id, tenant);
    }
  }

  lemma {:induction false} ShownAtOneTime(db: Db, vs: seq<PostingView>, id: Uuid, tenant: Uuid)
    requires ShowsWanted(db, vs, |db.postings|, id, tenant) && id in db.heap
    requires forall i :: 0 <= i < |db.postings| && db.postings[i].tx == id ==> db.postings[i].createdAt == db.heap[id].createdAt
    ensures forall i :: 0 <= i < |vs| ==> vs[i].row.createdAt == db.heap[id].createdAt
  {
    forall i | 0 <= i < |vs| ensures vs[i].row.createdAt == db.heap[id].createdAt {
      assert ShowsPosting(db, vs[i], id, tenant);
    }
  }

  // ------------------------------------------------------------- transactions

  /** GetTransaction finds exactly the committed transactions of the tenant, and
      answers with the row's fields and its postings. */
  lemma {:induction false} GetTransactionAnswers(s0: State, ls: seq<Label>, s: State, cfg: Config, tenant: Uuid, id: Uuid)
    requires Reaches(s0, ls, s, cfg)
    ensures var r := GetTransaction(s.db, tenant, id);
      && (r.Some? <==> id in s.db.committed && id in s.db.heap && s.db.heap[id].tenant == tenant)
      && (r.Some? ==>
            && ReportsRow(r.value, s.db.heap[id]) && r.value.id == id
            && r.value.postings == Some(GetPostings(s.db, id, tenant))
            && s.db.heap[id].writer in s.calls
            && LegsShown(r.value.postings.value) == s.calls[s.db.heap[id].writer].req.postings)
  {
    ReachableInv(s0, ls, s, cfg);
    if id in s.db.committed {
      CommittedIsRequested(s0, ls, s, cfg, id);
      CommittedIsAlive(s.db, id);
      assert DatabaseInv.HeapRowOk(s.db, id);
    }
  }

  // ----------------------------------------------------------------- balances

  predicate IsOf(db: Db, tenant: Uuid, account: int) {
    account in db.accounts && db.accounts[account].tenant == tenant
  }

  predicate InBigint(x: int) {
    -0x8000_0000_0000_0000 <= x <= 0x7fff_ffff_ffff_ffff
  }

  /** The balance query, from what the run's committed requests put on each side of
      the account: the totals and their difference in the account's currency, not
      found for no account or another tenant's, out of range when a figure does not
      fit BIGINT, and nothing else. */
  lemma {:induction false} GetAccountBalanceAnswers(s0: State, ls: seq<Label>, s: State, cfg: Config, tenant: Uuid, account: int)
    requires Reaches(s0, ls, s, cfg)
    ensures var debits := History(s0, ls, cfg, tenant, account, Debit);
      var credits := History(s0, ls, cfg, tenant, account, Credit);
      var fits := InBigint(debits) && InBigint(credits) && InBigint(debits - credits);
      var r := GetAccountBalance(s.db, tenant, account);
      && (r.Ok? <==> IsOf(s.db, tenant, account) && fits)
      && (r.Ok? ==>
            && r.value.debits == debits && r.value.credits == credits && r.value.net == debits - credits
            && r.value.account == account && r.value.currency == s.db.accounts[account].currency)
      && (r.Err? && r.error.AccountNotFound? <==> !IsOf(s.db, tenant, account))
      && (r.Err? && r.error.OutOfRange? <==> IsOf(s.db, tenant, account) && !fits)
  {
    BalanceIsHistory(s0, ls, s, cfg, tenant, account);
  }

  /** Once added, an account is read by its own tenant as it was given and by no
      other, and nobody reads any other account differently. */
  lemma {:induction false} AddedAccountAnswers(s: State, id: int, a: Account, cfg: Config, tenant: Uuid)
    requires Enabled(s, AddAccount(id, a), cfg)
    ensures var db' := Apply(s, AddAccount(id, a), cfg).db;
      && GetAccount(db', id, tenant) == (if tenant == a.tenant then Some(a) else None)
      && forall other :: other != id ==> GetAccount(db', other, tenant) == GetAccount(s.db, other, tenant)
  {}
}
