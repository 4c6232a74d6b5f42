/** Which requests can ever be committed: exactly those some run commits. */
module Reachability {
  import opened Core
  import opened Balance
  import opened Validation
  import opened Database
  import opened DatabaseInv
  import opened Protocol
  import opened ProtocolInv
  import opened ProtocolSafety
  import opened LedgerServices

  lemma {:induction false} OneMore(s0: State, ls: seq<Label>, s: State, l: Label, cfg: Config)
    requires Reaches(s0, ls, s, cfg) && Enabled(s, l, cfg)
    ensures Reaches(s0, ls + [l], Apply(s, l, cfg), cfg)
  {
    RunSnoc(s0, ls, l, cfg);
  }

  // ------------------------------------------------------- opening accounts

  /** Names of different lengths are different names. */
  function Name(id: nat): string {
    seq(id, _ => 'a')
  }

  /** Accounts have been opened, and nothing else has happened. */
  predicate OnlyAccounts(s0: State, s: State) {
    && s == s0.(db := s0.db.(accounts := s.db.accounts))
    && forall a :: a in s.db.accounts ==> |s.db.accounts[a].name| == a
  }

  predicate Opened(s: State, ps: seq<Posting>) {
    forall i :: 0 <= i < |ps| ==> ps[i].account in s.db.accounts
  }

  predicate RealAccounts(ps: seq<Posting>) {
    forall i :: 0 <= i < |ps| ==> ps[i].account >= 1
  }

  lemma {:induction false} OpenAccounts(s0: State, cfg: Config, tenant: Uuid, ps: seq<Posting>)
    returns (ls: seq<Label>, s: State)
    requires Init(s0) && RealAccounts(ps)
    ensures Reaches(s0, ls, s, cfg) && OnlyAccounts(s0, s) && Opened(s, ps)
  {
    if |ps| == 0 {
      ls, s := [], s0;
    } else {
      var n := |ps| - 1;
      ls, s := OpenAccounts(s0, cfg, tenant, ps[..n]);
      assert forall i :: 0 <= i < n ==> ps[..n][i] == ps[i];
      var a := ps[n].account;
      if a !in s.db.accounts {
        var l := AddAccount(a, Account(tenant, Name(a), "INR"));
        OneMore(s0, ls, s, l, cfg);
        ls, s := ls + [l], Apply(s, l, cfg);
      }
    }
  }

  // -------------------------------------------------------- walking a call

  /** A run that has brought call c, with nothing in its way, to pc. */
  ghost predicate Brought(s0: State, ls: seq<Label>, s: State, cfg: Config, c: CallId, call: Call, id: Uuid) {
    Reaches(s0, ls, s, cfg) && Clear(s, c, id) && s.calls[c] == call
  }

  lemma {:induction false} Enter(s0: State, before: seq<Label>, s: State, cfg: Config, c: CallId, tenant: Uuid, req: Request, id: Uuid)
    returns (ls: seq<Label>, s': State)
    requires Reaches(s0, before, s, cfg) && c !in s.calls && Clear(Waiting(s, c, tenant, req), c, id)
    ensures Brought(s0, ls, s', cfg, c, Call(tenant, req, s.now, WantLock), id)
  {
    ReachableInv(s0, before, s, cfg);
    var l1, l2 := Arrive(c, tenant, req), Validate(c);
    OneMore(s0, before, s, l1, cfg);
    JustArrived(s, c, tenant, req, WantLock);
    OneMore(s0, before + [l1], Apply(s, l1, cfg), l2, cfg);
    ls, s' := before + [l1] + [l2], Waiting(s, c, tenant, req);
  }

  lemma {:induction false} Acquire(s0: State, before: seq<Label>, s: State, cfg: Config, c: CallId, call: Call, id: Uuid)
    returns (ls: seq<Label>, s': State)
    requires Brought(s0, before, s, cfg, c, call, id) && call.pc.WantLock?
    ensures Brought(s0, ls, s', cfg, c, call.(pc := Beginning), id)
  {
    var l1, l2 := Obtain(c, Granted), ReadCache(c, false);
    OneMore(s0, before, s, l1, cfg);
    OneMore(s0, before + [l1], Apply(s, l1, cfg), l2, cfg);
    ls, s' := before + [l1] + [l2], Apply(Apply(s, l1, cfg), l2, cfg);
  }

  lemma {:induction false} BeginAndInsert(s0: State, before: seq<Label>, s: State, cfg: Config, c: CallId, call: Call, id: Uuid)
    returns (ls: seq<Label>, s': State)
    requires Brought(s0, before, s, cfg, c, call, id) && call.pc.Beginning?
    ensures Brought(s0, ls, s', cfg, c, call.(pc := InsertingPostings(0)), id)
  {
    ReachableInv(s0, before, s, cfg);
    InvAt(s, c);
    ClearBegin(s, c, id);
    var l1, l2 := BeginTx(c, true), InsertRow(c, id, Succeeded);
    OneMore(s0, before, s, l1, cfg);
    var begun := Apply(s, l1, cfg);
    ReachableInv(s0, before + [l1], begun, cfg);
    ClearInsertRow(begun, c, id);
    OneMore(s0, before + [l1], begun, l2, cfg);
    ls, s' := before + [l1] + [l2], Apply(begun, l2, cfg);
  }

  lemma {:induction false} InsertOne(s0: State, before: seq<Label>, s: State, cfg: Config, c: CallId, call: Call, id: Uuid)
    returns (ls: seq<Label>, s': State)
    requires Brought(s0, before, s, cfg, c, call, id) && call.pc.InsertingPostings? && call.pc.next < |call.req.postings|
    ensures Brought(s0, ls, s', cfg, c, call.(pc := InsertingPostings(call.pc.next + 1)), id)
  {
    ReachableInv(s0, before, s, cfg);
    ClearInsertLeg(s, c, id);
    var l := InsertLeg(c, Succeeded);
    OneMore(s0, before, s, l, cfg);
    ls, s' := before + [l], AfterInsertLeg(s, c, Succeeded);
  }

  lemma {:induction false} InsertLegs(s0: State, before: seq<Label>, s: State, cfg: Config, c: CallId, call: Call, id: Uuid)
    returns (ls: seq<Label>, s': State)
    requires Brought(s0, before, s, cfg, c, call, id) && call.pc.InsertingPostings? && call.pc.next <= |call.req.postings|
    ensures Brought(s0, ls, s', cfg, c, call.(pc := InsertingPostings(|call.req.postings|)), id)
    decreases |call.req.postings| - call.pc.next
  {
    ls, s' := before, s;
    if call.pc.next < |call.req.postings| {
      ls, s' := InsertOne(s0, before, s, cfg, c, call, id);
      ls, s' := InsertLegs(s0, ls, s', cfg, c, call.(pc := InsertingPostings(call.pc.next + 1)), id);
    }
  }

  lemma {:induction false} SendAll(s0: State, before: seq<Label>, s: State, cfg: Config, c: CallId, call: Call, id: Uuid, eventId: Uuid)
    returns (ls: seq<Label>, s': State)
    requires Brought(s0, before, s, cfg, c, call, id) && call.pc == InsertingPostings(|call.req.postings|)
    ensures Brought(s0, ls, s', cfg, c, call.(pc := Committing), id)
  {
    ReachableInv(s0, before, s, cfg);
    ClearInsertOutbox(s, c, id, eventId);
    var l := InsertOutbox(c, eventId, Succeeded);
    OneMore(s0, before, s, l, cfg);
    ls, s' := before + [l], Apply(s, l, cfg);
  }

  lemma {:induction false} CommitAtLast(s0: State, before: seq<Label>, s: State, cfg: Config, c: CallId, call: Call, id: Uuid)
    returns (ls: seq<Label>, s': State)
    requires Brought(s0, before, s, cfg, c, call, id) && call.pc.Committing?
    ensures Brought(s0, ls, s', cfg, c, call.(pc := Fetching), id) && id in s'.db.committed && s'.db.heap[id].writer == c
  {
    ReachableInv(s0, before, s, cfg);
    ClearCommit(s, c, id);
    var l1, l2, l3 := SendCommit(c, true), ServerCommit(c), CommitReply(c, true);
    var sent := Requested(s, c);
    var after := AfterServerCommit(sent, c);
    OneMore(s0, before, s, l1, cfg);
    OneMore(s0, before + [l1], sent, l2, cfg);
    OneMore(s0, before + [l1] + [l2], after, l3, cfg);
    ls, s' := before + [l1] + [l2] + [l3], Goto(after, c, Fetching);
    WriterIs(s0, ls, s', cfg, c, id);
  }

  lemma {:induction false} WriterIs(s0: State, ls: seq<Label>, s: State, cfg: Config, c: CallId, id: Uuid)
    requires Reaches(s0, ls, s, cfg) && HasRow(s.db, c) && s.db.sessions[c].tx == Some(id)
    ensures s.db.heap[id].writer == c
  {
    ReachableInv(s0, ls, s, cfg);
    assert DatabaseInv.SessionOk(s.db, c);
  }

  /** The call has its response at hand. */
  ghost predicate Responding(s0: State, ls: seq<Label>, s: State, cfg: Config, c: CallId, call: Call, id: Uuid) {
    && Reaches(s0, ls, s, cfg) && c in s.calls && s.calls[c] == call
    && call.pc.Caching? && Answers(call.pc.response, id, call.req, true)
  }

  lemma {:induction false} FetchLegs(s0: State, before: seq<Label>, s: State, cfg: Config, c: CallId, call: Call, id: Uuid)
    returns (ls: seq<Label>, s': State, r: Response)
    requires Brought(s0, before, s, cfg, c, call, id) && call.pc.Fetching?
    ensures Responding(s0, ls, s', cfg, c, call.(pc := Caching(r)), id) && s'.db == s.db
  {
    assert DbInv(s.db) && CallOk(s.db, c, s.calls[c]) by {
      ReachableInv(s0, before, s, cfg);
      InvAt(s, c);
    }
    FetchAnswers(s, c, id, true);
    OneMore(s0, before, s, Fetch(c, true), cfg);
    ls, s' := before + [Fetch(c, true)], AfterFetch(s, c, true);
    r := s'.calls[c].pc.response;
  }

  lemma {:induction false} Respond(s0: State, before: seq<Label>, s: State, cfg: Config, c: CallId, call: Call, id: Uuid)
    returns (ls: seq<Label>, s': State)
    requires Responding(s0, before, s, cfg, c, call, id)
    ensures Reaches(s0, ls, s', cfg) && s'.db == s.db && c in s'.calls
    ensures s'.calls[c] == call.(pc := Done(Ok(call.pc.response)))
  {
    var l1, l2 := StoreCache(c, true), Release(c, true);
    OneMore(s0, before, s, l1, cfg);
    var stored := Apply(s, l1, cfg);
    OneMore(s0, before + [l1], stored, l2, cfg);
    ls, s' := before + [l1] + [l2], AfterRelease(stored, c, true);
  }

  /** Transaction id is committed, and call c wrote it for this request. */
  predicate CommittedFor(s: State, c: CallId, tenant: Uuid, req: Request, id: Uuid) {
    && id in s.db.committed && id in s.db.heap && s.db.heap[id].writer == c
    && c in s.calls && s.calls[c].tenant == tenant && s.calls[c].req == req
  }

  /** Call c has been answered with transaction id. */
  predicate AnsweredWith(s: State, c: CallId, id: Uuid) {
    && c in s.calls && s.calls[c].pc.Done? && s.calls[c].pc.result.Ok?
    && Answers(s.calls[c].pc.result.value, id, s.calls[c].req, true)
  }

  lemma {:induction false} WriteAll(s0: State, before: seq<Label>, s: State, cfg: Config, c: CallId, call: Call, id: Uuid, eventId: Uuid)
    returns (ls: seq<Label>, s': State)
    requires Brought(s0, before, s, cfg, c, call, id) && call.pc.Beginning?
    ensures Brought(s0, ls, s', cfg, c, call.(pc := Committing), id)
  {
    ls, s' := BeginAndInsert(s0, before, s, cfg, c, call, id);
    ls, s' := InsertLegs(s0, ls, s', cfg, c, call.(pc := InsertingPostings(0)), id);
    ls, s' := SendAll(s0, ls, s', cfg, c, call.(pc := InsertingPostings(|call.req.postings|)), id, eventId);
  }

  lemma {:induction false} CommitAndRespond(s0: State, before: seq<Label>, s: State, cfg: Config, c: CallId, call: Call, id: Uuid)
    returns (ls: seq<Label>, s': State)
    requires Brought(s0, before, s, cfg, c, call, id) && call.pc.Committing?
    ensures Reaches(s0, ls, s', cfg) && CommittedFor(s', c, call.tenant, call.req, id) && AnsweredWith(s', c, id)
  {
    ls, s' := CommitAtLast(s0, before, s, cfg, c, call, id);
    var r;
    ls, s', r := FetchLegs(s0, ls, s', cfg, c, call.(pc := Fetching), id);
    ls, s' := Respond(s0, ls, s', cfg, c, call.(pc := Caching(r)), id);
  }

  /** From any reachable state in which nothing is in its way, a new call can be
      carried through to its answer. */
  lemma {:induction false} CarriedThrough(s0: State, before: seq<Label>, s: State, cfg: Config, c: CallId, tenant: Uuid, req: Request, id: Uuid, eventId: Uuid)
    returns (ls: seq<Label>, s': State)
    requires Reaches(s0, before, s, cfg) && c !in s.calls && Clear(Waiting(s, c, tenant, req), c, id)
    ensures Reaches(s0, ls, s', cfg) && CommittedFor(s', c, tenant, req, id) && AnsweredWith(s', c, id)
  {
    var call := Call(tenant, req, s.now, WantLock);
    ls, s' := Enter(s0, before, s, cfg, c, tenant, req, id);
    ls, s' := Acquire(s0, ls, s', cfg, c, call, id);
    ls, s' := WriteAll(s0, ls, s', cfg, c, call.(pc := Beginning), id, eventId);
    ls, s' := CommitAndRespond(s0, ls, s', cfg, c, call.(pc := Committing), id);
  }

  // ------------------------------------------------------------ and only these

  /** The trigger has passed what is committed, and account ids are positive. */
  ghost predicate Scrutinised(db: Db) {
    && (forall id :: id in db.committed && |LegsOf(db, id)| > 0 ==> TriggerAccepts(LegsOf(db, id)))
    && (forall a :: a in db.accounts ==> a >= 1)
  }

  lemma {:induction false} OnlyCommitCommits(s: State, l: Label, cfg: Config)
    requires Enabled(s, l, cfg) && !l.ServerCommit?
    ensures Apply(s, l, cfg).db.committed == s.db.committed
  {
    if LeavesDatabase(l) {
      DatabaseLeftAlone(s, l, cfg);
    }
  }

  lemma {:induction false} OnlyAddAccountAdds(s: State, l: Label, cfg: Config)
    requires Enabled(s, l, cfg) && !l.AddAccount?
    ensures Apply(s, l, cfg).db.accounts == s.db.accounts
  {
    if LeavesDatabase(l) {
      DatabaseLeftAlone(s, l, cfg);
    } else if Inserts(l) {
      InsertsTouchOwn(s, l, cfg);
    } else {
      EndsTouchOwn(s, l, cfg);
    }
  }

  predicate SameName(a: Account, b: Account) {
    a.tenant == b.tenant && a.name == b.name
  }

  ghost predicate NamesUnique(db: Db) {
    forall a, b :: a in db.accounts && b in db.accounts && SameName(db.accounts[a], db.accounts[b]) ==> a == b
  }

  lemma {:induction false} RunKeepsNames(s: State, ls: seq<Label>, cfg: Config)
    requires NamesUnique(s.db) && Legal(s, ls, cfg)
    ensures NamesUnique(Run(s, ls, cfg).db)
    decreases |ls|
  {
    if |ls| > 0 {
      if !ls[0].AddAccount? {
        OnlyAddAccountAdds(s, ls[0], cfg);
      }
      RunKeepsNames(Apply(s, ls[0], cfg), ls[1..], cfg);
    }
  }

  /** A tenant never has two accounts of one name. */
  lemma {:induction false} AccountNamesUnique(s0: State, ls: seq<Label>, s: State, cfg: Config, a: int, b: int)
    requires Reaches(s0, ls, s, cfg) && a in s.db.accounts && b in s.db.accounts
    requires SameName(s.db.accounts[a], s.db.accounts[b])
    ensures a == b
  {
    RunKeepsNames(s0, ls, cfg);
  }

  lemma {:induction false} CommitScrutinised(db: Db, c: CallId)
    requires Scrutinised(db) && CanCommit(db, c)
    ensures Scrutinised(Commit(db, c))
  {
    var db' := Commit(db, c);
    assert forall id :: LegsOf(db', id) == LegsOf(db, id);
  }

  lemma {:induction false} StepScrutinised(s: State, l: Label, cfg: Config)
    requires Inv(s) && Scrutinised(s.db) && Enabled(s, l, cfg)
    ensures Scrutinised(Apply(s, l, cfg).db)
  {
    if l.ServerCommit? {
      CommitScrutinised(s.db, l.c);
      assert Apply(s, l, cfg).db == Commit(s.db, l.c);
    } else {
      OnlyCommitCommits(s, l, cfg);
      StepKeepsInv(s, l, cfg);
      if !l.AddAccount? {
        OnlyAddAccountAdds(s, l, cfg);
      }
    }
  }

  lemma {:induction false} RunScrutinised(s: State, ls: seq<Label>, cfg: Config)
    requires Inv(s) && Scrutinised(s.db) && Legal(s, ls, cfg)
    ensures Scrutinised(Run(s, ls, cfg).db)
    decreases |ls|
  {
    if |ls| > 0 {
      StepScrutinised(s, ls[0], cfg);
      StepKeepsInv(s, ls[0], cfg);
      RunScrutinised(Apply(s, ls[0], cfg), ls[1..], cfg);
    }
  }

  /** Every leg of a committed transaction names an account with a positive id. */
  lemma {:induction false} LegsOnAccounts(db: Db, n: nat, id: Uuid)
    requires PostingsOk(db) && n <= |db.postings| && forall a :: a in db.accounts ==> a >= 1
    ensures RealAccounts(Legs(db.postings, n, id))
  {
    if n > 0 {
      LegsOnAccounts(db, n - 1, id);
      assert PostingOk(db, db.postings[n - 1]);
    }
  }

  /** A request as the database takes it once its accounts are there. */
  predicate Committable(req: Request) {
    && req.key != "" && |req.postings| >= 2
    && (forall i :: 0 <= i < |req.postings| ==> WellFormed(req.postings[i]) && req.postings[i].account >= 1)
    && Sum(req.postings, Debit) == Sum(req.postings, Credit) <= 0x7fff_ffff_ffff_ffff
  }

  lemma {:induction false} CommittableMeaning(req: Request)
    ensures Committable(req) <==> ServiceAccepts(req) && TriggerAccepts(req.postings) && RealAccounts(req.postings)
  {
    ServiceAcceptsMeaning(req);
    if AllWellFormed(req.postings) {
      SumNonNegative(req.postings, Debit);
      SumNonNegative(req.postings, Credit);
    }
  }

  lemma {:induction false} LegsAreRequested(s: State, c: CallId, tenant: Uuid, req: Request, id: Uuid)
    requires Inv(s) && CommittedFor(s, c, tenant, req, id)
    ensures ServiceAccepts(req) && LegsOf(s.db, id) == req.postings
  {
    InvAt(s, c);
    assert DatabaseInv.HeapRowOk(s.db, id);
  }

  lemma {:induction false} CommittedIsCommittable(s0: State, ls: seq<Label>, s: State, cfg: Config, c: CallId, tenant: Uuid, req: Request, id: Uuid)
    requires Reaches(s0, ls, s, cfg) && CommittedFor(s, c, tenant, req, id)
    ensures Committable(req)
  {
    assert ServiceAccepts(req) && LegsOf(s.db, id) == req.postings && PostingsOk(s.db) by {
      ReachableInv(s0, ls, s, cfg);
      LegsAreRequested(s, c, tenant, req, id);
    }
    assert Scrutinised(s.db) by {
      EmptyOk();
      RunScrutinised(s0, ls, cfg);
    }
    LegsOnAccounts(s.db, |s.db.postings|, id);
    CommittableMeaning(req);
  }

  /** Starting from an empty system, these requests can come to be committed, each
      with an answer to its call, and no others. */
  lemma {:induction false} CommittableIff(s0: State, cfg: Config, tenant: Uuid, req: Request)
    requires Init(s0)
    ensures Committable(req) ==> exists ls, s, c, id ::
      Reaches(s0, ls, s, cfg) && CommittedFor(s, c, tenant, req, id) && AnsweredWith(s, c, id)
    ensures (exists ls, s, c, id :: Reaches(s0, ls, s, cfg) && CommittedFor(s, c, tenant, req, id)) ==> Committable(req)
  {
    if Committable(req) {
      CommittableMeaning(req);
      var ls, s := OpenAccounts(s0, cfg, tenant, req.postings);
      var id: Uuid := "00000000-0000-0000-0000-000000000000";
      ls, s := CarriedThrough(s0, ls, s, cfg, 0, tenant, req, id, id);
    }
    if ls, s, c, id :| Reaches(s0, ls, s, cfg) && CommittedFor(s, c, tenant, req, id) {
      CommittedIsCommittable(s0, ls, s, cfg, c, tenant, req, id);
    }
  }
}
