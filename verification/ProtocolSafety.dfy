/** The guarantees of the protocol, over every run. */
module ProtocolSafety {
  import opened Core
  import opened Balance
  import opened Validation
  import opened Database
  import opened DatabaseInv
  import opened Protocol
  import opened ProtocolInv
  import Outbox

  /** Reachable from an empty system, whatever fails on the way. */
  ghost predicate Reaches(s0: State, ls: seq<Label>, s: State, cfg: Config) {
    Init(s0) && Legal(s0, ls, cfg) && Run(s0, ls, cfg) == s
  }

  lemma {:induction false} RunKeepsInv(s: State, ls: seq<Label>, cfg: Config)
    requires Inv(s) && Legal(s, ls, cfg)
    ensures Inv(Run(s, ls, cfg))
    decreases |ls|
  {
    if |ls| > 0 {
      StepKeepsInv(s, ls[0], cfg);
      RunKeepsInv(Apply(s, ls[0], cfg), ls[1..], cfg);
    }
  }

  lemma {:induction false} ReachableInv(s0: State, ls: seq<Label>, s: State, cfg: Config)
    requires Reaches(s0, ls, s, cfg)
    ensures Inv(s)
  {
    EmptyOk();
    RunKeepsInv(s0, ls, cfg);
  }

  // -------------------------------------------------------------- idempotency

  /** At most one transaction per tenant and key is ever committed. */
  lemma {:induction false} AtMostOneTransaction(s0: State, ls: seq<Label>, s: State, cfg: Config, a: Uuid, b: Uuid)
    requires Reaches(s0, ls, s, cfg)
    requires a in s.db.committed && b in s.db.committed
    requires a in s.db.heap && b in s.db.heap && SamePair(s.db.heap[a], s.db.heap[b])
    ensures a == b
  {
    ReachableInv(s0, ls, s, cfg);
    CommittedIsAlive(s.db, a);
    CommittedIsAlive(s.db, b);
  }

  lemma {:induction false} CommittedIsAlive(db: Db, id: Uuid)
    requires DbInv(db) && id in db.committed
    ensures id in db.heap && Alive(db, id)
  {
    assert DatabaseInv.HeapRowOk(db, id);
  }

  predicate HasSucceeded(s: State, c: CallId) {
    c in s.calls && s.calls[c].pc.Done? && s.calls[c].pc.result.Ok?
  }

  function ResultOf(s: State, c: CallId): Response
    requires HasSucceeded(s, c)
  {
    s.calls[c].pc.result.value
  }

  /** All calls that succeed for the same tenant and key report the same
      transaction: same id and same fields; only the posting list may be absent. */
  lemma {:induction false} SuccessfulCallsAgree(s0: State, ls: seq<Label>, s: State, cfg: Config, c: CallId, d: CallId)
    requires Reaches(s0, ls, s, cfg)
    requires HasSucceeded(s, c) && HasSucceeded(s, d) && PairOf(s.calls[c]) == PairOf(s.calls[d])
    ensures ResultOf(s, c).(postings := None) == ResultOf(s, d).(postings := None)
    ensures ResultOf(s, c).postings.Some? && ResultOf(s, d).postings.Some? ==> ResultOf(s, c) == ResultOf(s, d)
  {
    ReachableInv(s0, ls, s, cfg);
    SuccessOk(s, c);
    SuccessOk(s, d);
    AtMostOneTransaction(s0, ls, s, cfg, ResultOf(s, c).id, ResultOf(s, d).id);
    ResponsesAgree(s.db, ResultOf(s, c), ResultOf(s, d), PairOf(s.calls[c]));
  }

  lemma {:induction false} SuccessOk(s: State, c: CallId)
    requires Inv(s) && HasSucceeded(s, c)
    ensures ResponseOk(s.db, ResultOf(s, c), s.calls[c].tenant, s.calls[c].req.key)
  {
    InvAt(s, c);
    assert PcOk(s.db, c, s.calls[c]);
  }

  lemma {:induction false} ResponsesAgree(db: Db, a: Response, b: Response, p: Pair)
    requires ResponseOk(db, a, p.tenant, p.key) && ResponseOk(db, b, p.tenant, p.key) && a.id == b.id
    ensures a.(postings := None) == b.(postings := None)
    ensures a.postings.Some? && b.postings.Some? ==> a == b
  {}

  // ---------------------------------------------------------------- read paths

  /** GetTransaction: the row of this tenant and its postings. */
  function GetTransaction(db: Db, tenant: Uuid, id: Uuid): Option<Response> {
    match GetTransactionRow(db, id, tenant)
    case None => None
    case Some(row) => Some(ResponseFor(row, Some(GetPostings(db, id, tenant))))
  }

  predicate AgreesWith(r: Response, read: Option<Response>) {
    && read.Some?
    && r.(postings := read.value.postings) == read.value
    && (r.postings.Some? ==> r == read.value)
  }

  lemma {:induction false} ResponseAgrees(db: Db, r: Response, tenant: Uuid, key: string)
    requires ResponseOk(db, r, tenant, key)
    ensures AgreesWith(r, GetTransaction(db, tenant, r.id)) && r.key == key
  {
    if r.postings.Some? {
      assert r.(postings := Some(GetPostings(db, r.id, tenant))) == r;
    }
  }

  predicate ReportsRow(r: Response, row: TxRow) {
    && r.id == row.id && r.key == row.key && r.description == row.description
    && r.metadata == row.metadata && r.createdAt == row.createdAt
  }

  /** A success is a committed transaction, read back field by field. */
  lemma {:induction false} SuccessIsCommitted(s0: State, ls: seq<Label>, s: State, cfg: Config, c: CallId)
    requires Reaches(s0, ls, s, cfg) && HasSucceeded(s, c)
    ensures var r := ResultOf(s, c);
      && r.id in s.db.committed && r.key == s.calls[c].req.key
      && r.id in s.db.heap && ReportsRow(r, s.db.heap[r.id]) && s.db.heap[r.id].tenant == s.calls[c].tenant
      && AgreesWith(r, GetTransaction(s.db, s.calls[c].tenant, r.id))
  {
    ReachableInv(s0, ls, s, cfg);
    SuccessOk(s, c);
    ResponseAgrees(s.db, ResultOf(s, c), s.calls[c].tenant, s.calls[c].req.key);
  }

  predicate CommittedFor(db: Db, id: Uuid, p: Pair) {
    id in db.committed && id in db.heap && db.heap[id].tenant == p.tenant && db.heap[id].key == p.key
  }

  /** Every idempotency entry names the one committed transaction of its pair and
      agrees with what GetTransaction returns, on postings whenever the fetch
      after commit had succeeded. */
  lemma {:induction false} CacheCoherent(s0: State, ls: seq<Label>, s: State, cfg: Config, p: Pair)
    requires Reaches(s0, ls, s, cfg) && p in s.cache
    ensures var r := s.cache[p].response;
      && r.id in s.db.committed && r.id in s.db.heap
      && AgreesWith(r, GetTransaction(s.db, p.tenant, r.id))
    ensures forall id :: CommittedFor(s.db, id, p) <==> id == s.cache[p].response.id
  {
    ReachableInv(s0, ls, s, cfg);
    var r := s.cache[p].response;
    ResponseAgrees(s.db, r, p.tenant, p.key);
    forall id | CommittedFor(s.db, id, p) ensures id == r.id {
      AtMostOneTransaction(s0, ls, s, cfg, id, r.id);
    }
  }

  // ------------------------------------------------------------ exact balance

  /** Every committed transaction is its call's request: balanced over the
      integers, and returned by the posting query leg by leg in request order. */
  lemma {:induction false} CommittedIsRequested(s0: State, ls: seq<Label>, s: State, cfg: Config, id: Uuid)
    requires Reaches(s0, ls, s, cfg) && id in s.db.committed
    ensures id in s.db.heap && s.db.heap[id].writer in s.calls
    ensures var row := s.db.heap[id]; var call := s.calls[row.writer];
      && row.tenant == call.tenant && row.key == call.req.key
      && row.description == call.req.description
      && (if call.req.metadata.Some? then row.metadata == call.req.metadata.value else row.metadata == "{}")
      && LegsShown(GetPostings(s.db, id, row.tenant)) == call.req.postings
      && Sum(call.req.postings, Debit) == Sum(call.req.postings, Credit)
      && |call.req.postings| >= 2
  {
    ReachableInv(s0, ls, s, cfg);
    assert DatabaseInv.HeapRowOk(s.db, id);
    var c := s.db.heap[id].writer;
    InvAt(s, c);
    ServiceAcceptsMeaning(s.calls[c].req);
    SelectShowsLegs(s.db, |s.db.postings|, id);
    assert Balanced(LegsOf(s.db, id));
  }

  /** Trial balance in every reachable state. */
  lemma {:induction false} TrialBalanceAlways(s0: State, ls: seq<Label>, s: State, cfg: Config, tenant: Uuid, accounts: seq<int>)
    requires Reaches(s0, ls, s, cfg) && AllDistinct(accounts)
    requires forall a :: Mentions(s.db, tenant, a) ==> a in accounts
    ensures NetOver(s.db, tenant, accounts) == 0
  {
    ReachableInv(s0, ls, s, cfg);
    TrialBalance(s.db, tenant, accounts);
  }

  // ------------------------------------------------------------ event delivery

  /** Transactions and outbox rows are in bijection: every committed transaction
      has exactly one row, every row one committed transaction, and the payload is
      that transaction's tenant, id, key, description, metadata and exact legs. */
  lemma {:induction false} OutboxBijection(s0: State, ls: seq<Label>, s: State, cfg: Config)
    requires Reaches(s0, ls, s, cfg)
    ensures forall id :: id in s.db.committed ==>
      exists i :: 0 <= i < |s.ob.rows| && s.ob.rows[i].event.txId == id
    ensures forall i, j :: 0 <= i < j < |s.ob.rows| ==> s.ob.rows[i].event.txId != s.ob.rows[j].event.txId
    ensures forall i :: 0 <= i < |s.ob.rows| ==> PayloadIs(s, s.ob.rows[i].event)
  {
    ReachableInv(s0, ls, s, cfg);
    forall id | id in s.db.committed
      ensures exists i :: 0 <= i < |s.ob.rows| && s.ob.rows[i].event.txId == id
    {
      assert s.ob.rows[s.slot[id]].event.txId == id;
    }
    forall i, j | 0 <= i < j < |s.ob.rows| ensures s.ob.rows[i].event.txId != s.ob.rows[j].event.txId
    {
      assert PayloadOk(s.db, s.ob.rows[i].event, s.slot, i) && PayloadOk(s.db, s.ob.rows[j].event, s.slot, j);
    }
    forall i | 0 <= i < |s.ob.rows| ensures PayloadIs(s, s.ob.rows[i].event) {
      assert PayloadOk(s.db, s.ob.rows[i].event, s.slot, i);
      CommittedIsRequested(s0, ls, s, cfg, s.ob.rows[i].event.txId);
      PayloadLegs(s, s.ob.rows[i].event.txId);
    }
  }

  lemma {:induction false} PayloadLegs(s: State, id: Uuid)
    requires Inv(s) && id in s.db.committed && id in s.db.heap
    ensures LegsShown(GetPostings(s.db, id, s.db.heap[id].tenant)) == LegsOf(s.db, id)
  {
    SelectShowsLegs(s.db, |s.db.postings|, id);
  }

  /** The event of a committed transaction, against its row, its call's request
      and what the posting query returns. */
  predicate PayloadIs(s: State, e: Event) {
    && e.txId in s.db.committed && e.txId in s.db.heap && s.db.heap[e.txId].writer in s.calls
    && (var row := s.db.heap[e.txId];
        && e.tenant == row.tenant && e.txId == row.id && e.key == row.key
        && e.description == row.description && e.metadata == row.metadata && e.createdAt == row.createdAt
        && e.postings == s.calls[row.writer].req.postings
        && e.postings == LegsShown(GetPostings(s.db, e.txId, e.tenant)))
  }

  /** No message exists for an uncommitted transaction: what reached the broker is
      a committed transaction's own event. */
  lemma {:induction false} MessagesAreCommitted(s0: State, ls: seq<Label>, s: State, cfg: Config, m: nat)
    requires Reaches(s0, ls, s, cfg) && m < |s.ob.messages|
    ensures PayloadIs(s, s.ob.messages[m].event)
  {
    ReachableInv(s0, ls, s, cfg);
    OutboxBijection(s0, ls, s, cfg);
    assert s.ob.messages[m].event == s.ob.rows[s.ob.messages[m].id].event;
  }

  /** A row marked published had a publish that returned nil. */
  lemma {:induction false} PublishedWasAcked(s0: State, ls: seq<Label>, s: State, cfg: Config, i: nat)
    requires Reaches(s0, ls, s, cfg)
    requires i < |s.ob.rows| && s.ob.rows[i].status.Published?
    ensures i in s.ob.acked
  {
    ReachableInv(s0, ls, s, cfg);
  }

  // ----------------------------------------------------------- append-only data

  lemma {:induction false} ExtendsTransitive(a: Db, b: Db, c: Db)
    requires Extends(a, b) && Extends(b, c) && RowsOk(a) && RowsOk(b)
    ensures Extends(a, c)
  {}

  lemma {:induction false} RunExtends(s: State, ls: seq<Label>, cfg: Config)
    requires Inv(s) && Legal(s, ls, cfg)
    ensures Extends(s.db, Run(s, ls, cfg).db)
    decreases |ls|
  {
    SameEverything(s.db);
    if |ls| > 0 {
      var next := Apply(s, ls[0], cfg);
      StepKeepsInv(s, ls[0], cfg);
      RunExtends(next, ls[1..], cfg);
      RunKeepsInv(next, ls[1..], cfg);
      ExtendsTransitive(s.db, next.db, Run(next, ls[1..], cfg).db);
    }
  }

  /** What GetTransaction answers for an id once it is committed. */
  predicate SameAnswer(db: Db, db': Db, id: Uuid, tenant: Uuid) {
    && id in db'.committed && id in db.heap && id in db'.heap && db'.heap[id] == db.heap[id]
    && GetTransaction(db', tenant, id) == GetTransaction(db, tenant, id)
    && GetPostings(db', id, tenant) == GetPostings(db, id, tenant)
    && LegsOf(db', id) == LegsOf(db, id)
  }

  /** What is committed stays, from any reachable state over any further run: the
      row, its legs and every query's answer, to every tenant. */
  lemma {:induction false} CommittedIsForever(s0: State, before: seq<Label>, s: State, ls: seq<Label>, cfg: Config, id: Uuid, tenant: Uuid)
    requires Reaches(s0, before, s, cfg) && Legal(s, ls, cfg) && id in s.db.committed
    ensures SameAnswer(s.db, Run(s, ls, cfg).db, id, tenant)
  {
    ReachableInv(s0, before, s, cfg);
    RunExtends(s, ls, cfg);
    ExtendsAnswers(s.db, Run(s, ls, cfg).db, id, tenant);
  }

  lemma {:induction false} ExtendsAnswers(db: Db, db': Db, id: Uuid, tenant: Uuid)
    requires DbInv(db) && Extends(db, db') && id in db.committed
    ensures SameAnswer(db, db', id, tenant)
  {
    CommittedIsAlive(db, id);
  }

  // ---------------------------------------------------------------- atomicity

  /** Call c is past its database work and had not sent COMMIT. */
  predicate GaveUp(s: State, c: CallId) {
    && c in s.calls
    && (var pc := s.calls[c].pc; pc.RollingBack? || pc.Releasing? || pc.Done? || pc.Crashed?)
    && (c in s.db.sessions ==> s.db.sessions[c].status.Open? || s.db.sessions[c].status.Aborted?)
  }

  lemma {:induction false} GivingUpGoesOn(s: State, l: Label, cfg: Config)
    requires Enabled(s, l, cfg)
    requires (l.Rollback? || l.Release? || l.Crash? || l.ServerAbort?) && GaveUp(s, l.c)
    ensures GaveUp(Apply(s, l, cfg), l.c)
  {}

  lemma {:induction false} GaveUpStays(s: State, l: Label, cfg: Config, c: CallId)
    requires Inv(s) && Enabled(s, l, cfg) && GaveUp(s, c)
    ensures GaveUp(Apply(s, l, cfg), c)
  {
    if Actor(l) != Some(c) {
      OthersUntouched(s, l, cfg, c);
    } else {
      assert l.Rollback? || l.Release? || l.Crash? || l.ServerAbort?;
      GivingUpGoesOn(s, l, cfg);
    }
  }

  lemma {:induction false} NothingCommittedBy(s: State, c: CallId, id: Uuid)
    requires Inv(s) && GaveUp(s, c) && id in s.db.committed && id in s.db.heap
    ensures s.db.heap[id].writer != c
  {
    assert DatabaseInv.HeapRowOk(s.db, id);
  }

  /** Nothing visible was written by call c. */
  ghost predicate NoTraceOf(s: State, c: CallId) {
    && (forall id :: id in s.db.committed && id in s.db.heap ==> s.db.heap[id].writer != c)
    && (forall i :: 0 <= i < |s.ob.rows| && s.ob.rows[i].event.txId in s.db.heap ==>
          s.db.heap[s.ob.rows[i].event.txId].writer != c)
  }

  lemma {:induction false} GaveUpLeavesNothing(s: State, c: CallId)
    requires Inv(s) && GaveUp(s, c)
    ensures NoTraceOf(s, c)
  {
    forall id | id in s.db.committed && id in s.db.heap ensures s.db.heap[id].writer != c {
      NothingCommittedBy(s, c, id);
    }
    forall i | 0 <= i < |s.ob.rows| && s.ob.rows[i].event.txId in s.db.heap
      ensures s.db.heap[s.ob.rows[i].event.txId].writer != c
    {
      assert PayloadOk(s.db, s.ob.rows[i].event, s.slot, i);
    }
  }

  /** A call that fails or crashes before sending COMMIT leaves nothing: in no
      later state is there a committed transaction or an outbox row of its making. */
  lemma {:induction false} AbortedCallLeavesNothing(s: State, ls: seq<Label>, cfg: Config, c: CallId)
    requires Inv(s) && Legal(s, ls, cfg) && GaveUp(s, c)
    ensures NoTraceOf(Run(s, ls, cfg), c)
    decreases |ls|
  {
    if |ls| > 0 {
      StepKeepsInv(s, ls[0], cfg);
      GaveUpStays(s, ls[0], cfg, c);
      AbortedCallLeavesNothing(Apply(s, ls[0], cfg), ls[1..], cfg, c);
    } else {
      GaveUpLeavesNothing(s, c);
    }
  }
}
