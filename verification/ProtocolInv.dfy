/** What holds in every state the calls, the database, Redis and the workers can
    reach, whatever fails and whoever crashes. */
module ProtocolInv {
  import opened Core
  import opened Balance
  import opened Validation
  import opened Database
  import opened DatabaseInv
  import opened Protocol
  import Outbox

  // --------------------------------------------------------------- invariants

  /** A response names a committed transaction of this tenant and key, and agrees
      with the tables on every field it carries. */
  predicate ResponseOk(db: Db, r: Response, tenant: Uuid, key: string) {
    && r.id in db.committed && r.id in db.heap
    && db.heap[r.id].tenant == tenant && db.heap[r.id].key == key
    && r == ResponseFor(db.heap[r.id], r.postings)
    && (r.postings.Some? ==> r.postings.value == GetPostings(db, r.id, tenant))
  }

  predicate EventOk(db: Db, e: Event, row: TxRow) {
    e == EventFor(row, LegsOf(db, row.id), e.eventId)
  }

  /** What call c's database transaction contains, whatever has become of c. */
  predicate SessionMatches(db: Db, c: CallId, call: Call) {
    c in db.sessions ==>
      && ServiceAccepts(call.req)
      && (db.sessions[c].tx.Some? ==>
            && HasRow(db, c)
            && RowOf(db, c).id == db.sessions[c].tx.value
            && RowOf(db, c).tenant == call.tenant && RowOf(db, c).key == call.req.key
            && RowOf(db, c).description == call.req.description && RowOf(db, c).metadata == MetadataOf(call.req))
      && (db.sessions[c].event.Some? ==>
            && HasRow(db, c) && EventOk(db, db.sessions[c].event.value, RowOf(db, c))
            && LegsOf(db, RowOf(db, c).id) == call.req.postings)
      && (db.sessions[c].status.CommitRequested? || db.sessions[c].status.Committed? ==> db.sessions[c].event.Some?)
  }

  predicate StatusIs(db: Db, c: CallId, a: TxStatus, b: TxStatus) {
    c in db.sessions && (db.sessions[c].status == a || db.sessions[c].status == b)
  }

  /** Where the call stands against what its transaction contains. */
  predicate PcOk(db: Db, c: CallId, call: Call) {
    match call.pc
    case Validating => c !in db.sessions
    case WantLock => c !in db.sessions && ServiceAccepts(call.req)
    case ReadingCache => c !in db.sessions && ServiceAccepts(call.req)
    case Beginning => c !in db.sessions && ServiceAccepts(call.req)
    case InsertingTx => StatusIs(db, c, Open, Aborted) && db.sessions[c].tx.None?
    case InsertingPostings(i) =>
      && StatusIs(db, c, Open, Aborted) && HasRow(db, c) && db.sessions[c].event.None?
      && i <= |call.req.postings| && LegsOf(db, RowOf(db, c).id) == call.req.postings[..i]
    case Committing => StatusIs(db, c, Open, Aborted) && db.sessions[c].event.Some?
    case AwaitingCommit => c in db.sessions && !db.sessions[c].status.Open? && db.sessions[c].event.Some?
    case Fetching => StatusIs(db, c, Committed, Committed) && HasRow(db, c)
    case Caching(r) => StatusIs(db, c, Committed, Committed) && ResponseOk(db, r, call.tenant, call.req.key)
    case RollingBack(_) => true
    case Releasing(r) => r.Ok? ==> ResponseOk(db, r.value, call.tenant, call.req.key)
    case Done(r) => r.Ok? ==> ResponseOk(db, r.value, call.tenant, call.req.key)
    case Crashed => true
  }

  predicate CallOk(db: Db, c: CallId, call: Call) {
    SessionMatches(db, c, call) && PcOk(db, c, call)
  }

  ghost predicate CallsOk(s: State) {
    && (forall c :: c in s.calls ==> CallOk(s.db, c, s.calls[c]))
    && (forall c :: c in s.db.sessions ==> c in s.calls)
  }

  ghost predicate CacheOk(s: State) {
    forall p :: p in s.cache ==> ResponseOk(s.db, s.cache[p].response, p.tenant, p.key)
  }

  /** Committed transactions and outbox rows are in bijection through `slot`, and
      each payload is its transaction's row and legs. */
  ghost predicate OutboxMatches(db: Db, rows: seq<Outbox.Row>, slot: map<Uuid, nat>) {
    && (forall id :: id in slot <==> id in db.committed)
    && (forall id :: id in slot ==> slot[id] < |rows| && rows[slot[id]].event.txId == id)
    && (forall i :: 0 <= i < |rows| ==> PayloadOk(db, rows[i].event, slot, i))
  }

  predicate PayloadOk(db: Db, e: Event, slot: map<Uuid, nat>, i: nat) {
    && e.txId in db.committed && e.txId in db.heap && e.txId in slot && slot[e.txId] == i
    && db.heap[e.txId].id == e.txId
    && EventOk(db, e, db.heap[e.txId])
  }

  ghost predicate Inv(s: State) {
    && DbInv(s.db) && CallsOk(s) && CacheOk(s)
    && OutboxMatches(s.db, s.ob.rows, s.slot) && Outbox.Safe(s.ob)
  }

  // ------------------------------------------------------------------- frames

  lemma {:induction false} ResponseStays(db: Db, db': Db, r: Response, tenant: Uuid, key: string)
    requires Extends(db, db') && ResponseOk(db, r, tenant, key)
    ensures ResponseOk(db', r, tenant, key)
  {}

  lemma {:induction false} CallFrame(db: Db, db': Db, c: CallId, call: Call)
    requires Extends(db, db') && SameSession(db, db', c) && CallOk(db, c, call) && RowsOk(db)
    ensures CallOk(db', c, call)
  {
    if c in db.sessions {
      assert DatabaseInv.SessionOk(db, c);
    }
  }

  lemma {:induction false} CacheFrame(s: State, s': State)
    requires CacheOk(s) && Extends(s.db, s'.db)
    requires forall p :: p in s'.cache ==> p in s.cache && s'.cache[p] == s.cache[p]
    ensures CacheOk(s')
  {
    forall p | p in s'.cache ensures ResponseOk(s'.db, s'.cache[p].response, p.tenant, p.key) {
      ResponseStays(s.db, s'.db, s.cache[p].response, p.tenant, p.key);
    }
  }

  lemma {:induction false} OutboxFrame(db: Db, db': Db, rows: seq<Outbox.Row>, rows': seq<Outbox.Row>, slot: map<Uuid, nat>)
    requires OutboxMatches(db, rows, slot) && Extends(db, db') && db'.committed == db.committed
    requires Outbox.SameEvents(rows, rows') && |rows'| == |rows|
    ensures OutboxMatches(db', rows', slot)
  {
    forall i | 0 <= i < |rows'| ensures PayloadOk(db', rows'[i].event, slot, i) {
      assert PayloadOk(db, rows[i].event, slot, i);
    }
  }

  lemma {:induction false} RowsSame(rows: seq<Outbox.Row>)
    ensures Outbox.SameEvents(rows, rows)
  {}

  /** A step of call c that leaves the cache, the outbox and visibility alone. */
  lemma {:induction false} CallStep(s: State, c: CallId, db': Db, pc: Pc, locks: map<Pair, Lock>)
    requires Inv(s) && c in s.calls
    requires DbInv(db') && StepOf(s.db, db', c) && db'.committed == s.db.committed
    requires c in db'.sessions ==> c in s.calls
    requires CallOk(db', c, s.calls[c].(pc := pc))
    ensures Inv(Goto(s.(db := db', locks := locks), c, pc)) && Extends(s.db, db')
  {
    var s' := Goto(s.(db := db', locks := locks), c, pc);
    forall other | other in s'.calls ensures CallOk(s'.db, other, s'.calls[other]) {
      if other != c {
        CallFrame(s.db, s'.db, other, s.calls[other]);
      }
    }
    forall other | other in s'.db.sessions ensures other in s'.calls {
      assert other != c ==> SameSession(s.db, s'.db, other);
    }
    CacheFrame(s, s');
    RowsSame(s.ob.rows);
    OutboxFrame(s.db, s'.db, s.ob.rows, s.ob.rows, s.slot);
  }

  lemma {:induction false} SameDb(db: Db, c: CallId)
    ensures StepOf(db, db, c)
  {}

  lemma {:induction false} InvAt(s: State, c: CallId)
    requires Inv(s) && c in s.calls
    ensures DbInv(s.db) && CallOk(s.db, c, s.calls[c])
  {}

  // -------------------------------------------------- steps of a single caller

  /** Steps that move the caller and perhaps a lock, nothing else. */
  lemma {:induction false} QuietStep(s: State, c: CallId, pc: Pc, locks: map<Pair, Lock>)
    requires Inv(s) && c in s.calls
    requires PcOk(s.db, c, s.calls[c].(pc := pc))
    ensures Inv(Goto(s.(locks := locks), c, pc)) && Extends(s.db, s.db)
  {
    InvAt(s, c);
    SameDb(s.db, c);
    CallStep(s, c, s.db, pc, locks);
  }

  lemma {:induction false} FetchOk(db: Db, c: CallId, call: Call, ok: bool)
    requires DbInv(db) && CallOk(db, c, call) && call.pc.Fetching?
    ensures var row := RowOf(db, c);
      PcOk(db, c, call.(pc := Caching(ResponseFor(row, if ok then Some(GetPostings(db, row.id, call.tenant)) else None))))
  {
    assert DatabaseInv.SessionOk(db, c) && DatabaseInv.HeapRowOk(db, db.sessions[c].tx.value);
  }

  lemma {:induction false} ObtainStep(s: State, c: CallId, grant: Grant, cfg: Config)
    requires Inv(s) && At(s, c, WantLock)
    ensures Inv(AfterObtain(s, c, grant, cfg)) && AfterObtain(s, c, grant, cfg).db == s.db
  {
    InvAt(s, c);
    var s' := AfterObtain(s, c, grant, cfg);
    QuietStep(s, c, s'.calls[c].pc, s'.locks);
  }

  lemma {:induction false} ReadCacheStep(s: State, c: CallId, hit: bool)
    requires Inv(s) && At(s, c, ReadingCache) && (hit ==> LiveEntry(s, PairOf(s.calls[c])))
    ensures Inv(AfterReadCache(s, c, hit)) && AfterReadCache(s, c, hit).db == s.db
  {
    InvAt(s, c);
    QuietStep(s, c, AfterReadCache(s, c, hit).calls[c].pc, s.locks);
  }

  lemma {:induction false} FetchStep(s: State, c: CallId, ok: bool)
    requires Inv(s) && At(s, c, Fetching) && HasRow(s.db, c)
    ensures Inv(AfterFetch(s, c, ok))
  {
    InvAt(s, c);
    FetchOk(s.db, c, s.calls[c], ok);
    QuietStep(s, c, AfterFetch(s, c, ok).calls[c].pc, s.locks);
  }

  lemma {:induction false} ReleaseStep(s: State, c: CallId, effective: bool)
    requires Inv(s) && c in s.calls && s.calls[c].pc.Releasing?
    ensures Inv(AfterRelease(s, c, effective)) && AfterRelease(s, c, effective).db == s.db
  {
    InvAt(s, c);
    var pc := Done(s.calls[c].pc.result);
    QuietStep(s, c, pc, s.locks);
    QuietStep(s, c, pc, s.locks - {PairOf(s.calls[c])});
  }

  lemma {:induction false} ValidateStep(s: State, c: CallId)
    requires Inv(s) && At(s, c, Validating)
    ensures Inv(AfterValidate(s, c))
  {
    InvAt(s, c);
    QuietStep(s, c, AfterValidate(s, c).calls[c].pc, s.locks);
  }

  lemma {:induction false} CommitReplyStep(s: State, c: CallId, ok: bool)
    requires Inv(s) && At(s, c, AwaitingCommit) && (ok ==> StatusIs(s.db, c, Committed, Committed))
    ensures Inv(Goto(s, c, if ok then Fetching else RollingBack(CommitFailed)))
  {
    InvAt(s, c);
    QuietStep(s, c, if ok then Fetching else RollingBack(CommitFailed), s.locks);
  }

  lemma {:induction false} RedisSteps(s: State, l: Label, cfg: Config)
    requires Inv(s) && Enabled(s, l, cfg)
    requires l.Obtain? || l.ReadCache? || l.Release?
    ensures Inv(Apply(s, l, cfg)) && Apply(s, l, cfg).db == s.db
  {
    match l
    case Obtain(c, grant) => ObtainStep(s, c, grant, cfg);
    case ReadCache(c, hit) => ReadCacheStep(s, c, hit);
    case Release(c, effective) => ReleaseStep(s, c, effective);
  }

  lemma {:induction false} OtherSteps(s: State, l: Label, cfg: Config)
    requires Inv(s) && Enabled(s, l, cfg)
    requires l.Validate? || l.DuplicateKey? || l.CommitReply? || l.Fetch? || l.Crash?
    ensures Inv(Apply(s, l, cfg)) && Extends(s.db, Apply(s, l, cfg).db)
  {
    match l
    case Validate(c) => ValidateStep(s, c);
    case DuplicateKey(c) => QuietStep(s, c, RollingBack(InsertTransactionFailed), s.locks);
    case CommitReply(c, ok) => CommitReplyStep(s, c, ok);
    case Fetch(c, ok) => FetchStep(s, c, ok);
    case Crash(c) => QuietStep(s, c, Crashed, s.locks);
  }

  lemma {:induction false} ArriveStep(s: State, c: CallId, tenant: Uuid, req: Request, cfg: Config)
    requires Inv(s) && Enabled(s, Arrive(c, tenant, req), cfg)
    ensures Inv(Apply(s, Arrive(c, tenant, req), cfg))
  {
    var s' := Apply(s, Arrive(c, tenant, req), cfg);
    forall other | other in s'.calls ensures CallOk(s'.db, other, s'.calls[other]) {
      assert other != c ==> CallOk(s.db, other, s.calls[other]);
    }
  }

  lemma {:induction false} BeginStep(s: State, c: CallId)
    requires Inv(s) && At(s, c, Beginning) && CanBegin(s.db, c)
    ensures Inv(Goto(s.(db := Begin(s.db, c, s.now)), c, InsertingTx)) && Extends(s.db, Begin(s.db, c, s.now))
  {
    InvAt(s, c);
    BeginOk(s.db, c, s.now);
    CallStep(s, c, Begin(s.db, c, s.now), InsertingTx, s.locks);
  }

  lemma {:induction false} InsertRowCall(db: Db, c: CallId, id: Uuid, call: Call, pc: Pc)
    requires DbInv(db) && CallOk(db, c, call) && call.pc.InsertingTx? && CanInsertTx(db, c, id, call.tenant, call.req.key)
    requires pc == InsertingPostings(0) || pc.RollingBack?
    ensures CallOk(InsertTx(db, c, id, call.tenant, call.req.key, call.req.description, MetadataOf(call.req)), c, call.(pc := pc))
  {
    InsertTxOk(db, c, id, call.tenant, call.req.key, call.req.description, MetadataOf(call.req));
    assert call.req.postings[..0] == [];
  }

  lemma {:induction false} InsertRowStep(s: State, c: CallId, id: Uuid, outcome: Outcome)
    requires Inv(s) && At(s, c, InsertingTx)
    requires !outcome.Rejected? ==> CanInsertTx(s.db, c, id, s.calls[c].tenant, s.calls[c].req.key)
    ensures Inv(AfterInsertRow(s, c, id, outcome)) && Extends(s.db, AfterInsertRow(s, c, id, outcome).db)
  {
    InvAt(s, c);
    var call := s.calls[c];
    var pc := if outcome.Succeeded? then InsertingPostings(0) else RollingBack(InsertTransactionFailed);
    if outcome.Rejected? {
      QuietStep(s, c, pc, s.locks);
    } else {
      InsertTxOk(s.db, c, id, call.tenant, call.req.key, call.req.description, MetadataOf(call.req));
      InsertRowCall(s.db, c, id, call, pc);
      CallStep(s, c, InsertTx(s.db, c, id, call.tenant, call.req.key, call.req.description, MetadataOf(call.req)), pc, s.locks);
    }
  }

  lemma {:induction false} InsertLegCall(db: Db, c: CallId, call: Call, pc: Pc)
    requires DbInv(db) && CallOk(db, c, call) && call.pc.InsertingPostings? && call.pc.next < |call.req.postings|
    requires CanInsertPosting(db, c, call.req.postings[call.pc.next])
    requires pc == InsertingPostings(call.pc.next + 1) || pc.RollingBack?
    ensures CallOk(InsertPosting(db, c, call.tenant, call.req.postings[call.pc.next]), c, call.(pc := pc))
  {
    var i := call.pc.next;
    InsertPostingOk(db, c, call.tenant, call.req.postings[i]);
    assert call.req.postings[..i + 1] == call.req.postings[..i] + [call.req.postings[i]];
  }

  lemma {:induction false} InsertLegWritten(s: State, c: CallId, outcome: Outcome)
    requires Inv(s) && c in s.calls && s.calls[c].pc.InsertingPostings? && s.calls[c].pc.next < |s.calls[c].req.postings|
    requires !outcome.Rejected? && CanInsertPosting(s.db, c, s.calls[c].req.postings[s.calls[c].pc.next])
    ensures Inv(AfterInsertLeg(s, c, outcome)) && Extends(s.db, AfterInsertLeg(s, c, outcome).db)
  {
    InvAt(s, c);
    var call := s.calls[c];
    var pc := AfterInsertLeg(s, c, outcome).calls[c].pc;
    var db' := InsertPosting(s.db, c, call.tenant, call.req.postings[call.pc.next]);
    InsertPostingOk(s.db, c, call.tenant, call.req.postings[call.pc.next]);
    InsertLegCall(s.db, c, call, pc);
    CallStep(s, c, db', pc, s.locks);
    assert s.(db := db', locks := s.locks) == s.(db := db');
  }

  lemma {:induction false} InsertLegStep(s: State, c: CallId, outcome: Outcome)
    requires Inv(s) && c in s.calls && s.calls[c].pc.InsertingPostings? && s.calls[c].pc.next < |s.calls[c].req.postings|
    requires !outcome.Rejected? ==> CanInsertPosting(s.db, c, s.calls[c].req.postings[s.calls[c].pc.next])
    ensures Inv(AfterInsertLeg(s, c, outcome)) && Extends(s.db, AfterInsertLeg(s, c, outcome).db)
  {
    if outcome.Rejected? {
      QuietStep(s, c, RollingBack(InsertPostingFailed), s.locks);
    } else {
      InsertLegWritten(s, c, outcome);
    }
  }

  lemma {:induction false} SameLegs(db: Db, db': Db)
    requires db'.postings == db.postings
    ensures forall id :: LegsOf(db', id) == LegsOf(db, id)
  {}

  lemma {:induction false} InsertOutboxCall(db: Db, c: CallId, call: Call, e: Event, pc: Pc)
    requires DbInv(db) && CallOk(db, c, call) && call.pc == InsertingPostings(|call.req.postings|)
    requires CanInsertEvent(db, c) && HasRow(db, c) && e == EventFor(RowOf(db, c), call.req.postings, e.eventId)
    requires pc == Committing || pc.RollingBack?
    ensures CallOk(InsertEvent(db, c, e), c, call.(pc := pc))
  {
    SameLegs(db, InsertEvent(db, c, e));
    assert call.req.postings[..|call.req.postings|] == call.req.postings;
  }

  lemma {:induction false} InsertOutboxStep(s: State, c: CallId, eventId: Uuid, outcome: Outcome)
    requires Inv(s) && c in s.calls && s.calls[c].pc == InsertingPostings(|s.calls[c].req.postings|)
    requires !outcome.Rejected? ==> CanInsertEvent(s.db, c) && HasRow(s.db, c)
    ensures Inv(AfterInsertOutbox(s, c, eventId, outcome)) && Extends(s.db, AfterInsertOutbox(s, c, eventId, outcome).db)
  {
    InvAt(s, c);
    var call := s.calls[c];
    var pc := if outcome.Succeeded? then Committing else RollingBack(InsertEventFailed);
    if outcome.Rejected? {
      QuietStep(s, c, pc, s.locks);
    } else {
      var e := EventFor(RowOf(s.db, c), call.req.postings, eventId);
      InsertEventOk(s.db, c, e);
      InsertOutboxCall(s.db, c, call, e, pc);
      CallStep(s, c, InsertEvent(s.db, c, e), pc, s.locks);
    }
  }

  lemma {:induction false} SendCommitCall(db: Db, c: CallId, call: Call)
    requires DbInv(db) && CallOk(db, c, call) && call.pc.Committing? && StatusIs(db, c, Open, Open)
    ensures CallOk(SetStatus(db, c, CommitRequested), c, call.(pc := AwaitingCommit))
  {
    SameLegs(db, SetStatus(db, c, CommitRequested));
  }

  lemma {:induction false} SendCommitStep(s: State, c: CallId)
    requires Inv(s) && At(s, c, Committing) && c in s.db.sessions && s.db.sessions[c].status.Open?
    ensures Inv(Goto(s.(db := SetStatus(s.db, c, CommitRequested)), c, AwaitingCommit))
    ensures Extends(s.db, SetStatus(s.db, c, CommitRequested))
  {
    InvAt(s, c);
    SetStatusOk(s.db, c, CommitRequested);
    SendCommitCall(s.db, c, s.calls[c]);
    CallStep(s, c, SetStatus(s.db, c, CommitRequested), AwaitingCommit, s.locks);
  }

  /** Rolling back, by the caller or by the server, keeps what the call is at. */
  lemma {:induction false} AbortKeepsCall(db: Db, c: CallId, call: Call)
    requires DbInv(db) && Live(db, c) && CallOk(db, c, call)
    ensures CallOk(SetStatus(db, c, Aborted), c, call)
  {
    var db' := SetStatus(db, c, Aborted);
    SameLegs(db, db');
    assert forall id, tenant :: GetPostings(db', id, tenant) == GetPostings(db, id, tenant);
  }

  lemma {:induction false} AbortStep(s: State, c: CallId, pc: Pc)
    requires Inv(s) && c in s.calls && Live(s.db, c)
    requires PcOk(s.db, c, s.calls[c].(pc := pc))
    ensures Inv(Goto(s.(db := SetStatus(s.db, c, Aborted)), c, pc)) && Extends(s.db, SetStatus(s.db, c, Aborted))
  {
    InvAt(s, c);
    SetStatusOk(s.db, c, Aborted);
    AbortKeepsCall(s.db, c, s.calls[c].(pc := pc));
    CallStep(s, c, SetStatus(s.db, c, Aborted), pc, s.locks);
  }

  lemma {:induction false} ServerAbortStep(s: State, c: CallId)
    requires Inv(s) && Live(s.db, c)
    ensures Inv(s.(db := SetStatus(s.db, c, Aborted))) && Extends(s.db, SetStatus(s.db, c, Aborted))
  {
    assert c in s.calls;
    InvAt(s, c);
    AbortStep(s, c, s.calls[c].pc);
    StayPut(s.(db := SetStatus(s.db, c, Aborted)), c);
  }

  lemma {:induction false} StayPut(s: State, c: CallId)
    requires c in s.calls
    ensures Goto(s, c, s.calls[c].pc) == s
  {
    assert s.calls[c := s.calls[c].(pc := s.calls[c].pc)] == s.calls;
  }

  lemma {:induction false} DatabaseSteps(s: State, l: Label, cfg: Config)
    requires Inv(s) && Enabled(s, l, cfg)
    requires l.BeginTx? || l.InsertRow? || l.InsertLeg? || l.InsertOutbox? || l.SendCommit? || l.Rollback?
    ensures Inv(Apply(s, l, cfg)) && Extends(s.db, Apply(s, l, cfg).db)
  {
    match l
    case BeginTx(c, ok) => if ok { BeginStep(s, c); } else { QuietStep(s, c, Releasing(Err(BeginFailed)), s.locks); }
    case InsertRow(c, id, outcome) => InsertRowStep(s, c, id, outcome);
    case InsertLeg(c, outcome) => InsertLegStep(s, c, outcome);
    case InsertOutbox(c, eventId, outcome) => InsertOutboxStep(s, c, eventId, outcome);
    case SendCommit(c, sent) => if sent { SendCommitStep(s, c); } else { QuietStep(s, c, RollingBack(CommitFailed), s.locks); }
    case Rollback(c, effective) =>
      var pc := Releasing(Err(s.calls[c].pc.error));
      if effective && c in s.db.sessions && s.db.sessions[c].status.Open? {
        AbortStep(s, c, pc);
      } else {
        QuietStep(s, c, pc, s.locks);
      }
  }

  lemma {:induction false} StoreCacheStep(s: State, c: CallId, stored: bool, cfg: Config)
    requires Inv(s) && Enabled(s, StoreCache(c, stored), cfg)
    ensures Inv(Apply(s, StoreCache(c, stored), cfg))
  {
    var s' := Apply(s, StoreCache(c, stored), cfg);
    var mid := Goto(s, c, Releasing(Ok(s.calls[c].pc.response)));
    InvAt(s, c);
    QuietStep(s, c, Releasing(Ok(s.calls[c].pc.response)), s.locks);
    forall p | p in s'.cache ensures ResponseOk(s'.db, s'.cache[p].response, p.tenant, p.key) {
      assert p != PairOf(s.calls[c]) ==> p in s.cache && ResponseOk(s.db, s.cache[p].response, p.tenant, p.key);
    }
  }

  // ------------------------------------------------------------------ commit

  lemma {:induction false} CommitKeepsCall(db: Db, c: CallId, call: Call)
    requires DbInv(db) && CanCommit(db, c) && CallOk(db, c, call)
    ensures CallOk(Commit(db, c), c, call)
  {
    var db' := Commit(db, c);
    CommitOk(db, c);
    assert forall id :: LegsOf(db', id) == LegsOf(db, id);
    match call.pc
    case Releasing(r) => if r.Ok? { ResponseStays(db, db', r.value, call.tenant, call.req.key); }
    case Done(r) => if r.Ok? { ResponseStays(db, db', r.value, call.tenant, call.req.key); }
    case _ =>
  }

  lemma {:induction false} OldPayloadStays(db: Db, c: CallId, e: Event, slot: map<Uuid, nat>, row: nat, i: nat)
    requires DbInv(db) && CanCommit(db, c) && PayloadOk(db, e, slot, i)
    ensures PayloadOk(Commit(db, c), e, slot[db.sessions[c].tx.value := row], i)
  {
    CommitOk(db, c);
    SameLegs(db, Commit(db, c));
  }

  lemma {:induction false} NewPayload(db: Db, c: CallId, call: Call, slot: map<Uuid, nat>, row: nat)
    requires DbInv(db) && CanCommit(db, c) && CallOk(db, c, call)
    ensures var session := db.sessions[c];
      session.event.Some? && session.event.value.txId == session.tx.value
      && PayloadOk(Commit(db, c), session.event.value, slot[session.tx.value := row], row)
  {
    SameLegs(db, Commit(db, c));
  }

  /** The committed transaction's outbox row extends the bijection. */
  lemma {:induction false} CommitPayload(db: Db, c: CallId, call: Call, rows: seq<Outbox.Row>, slot: map<Uuid, nat>)
    requires DbInv(db) && CanCommit(db, c) && CallOk(db, c, call) && OutboxMatches(db, rows, slot)
    ensures var session := db.sessions[c];
      session.event.Some?
      && OutboxMatches(Commit(db, c), rows + [Outbox.Row(session.event.value, session.startedAt, Outbox.Pending, 0)],
                       slot[session.tx.value := |rows|])
  {
    NewPayload(db, c, call, slot, |rows|);
    var session := db.sessions[c];
    var rows' := rows + [Outbox.Row(session.event.value, session.startedAt, Outbox.Pending, 0)];
    forall i | 0 <= i < |rows'| ensures PayloadOk(Commit(db, c), rows'[i].event, slot[session.tx.value := |rows|], i) {
      if i < |rows| {
        OldPayloadStays(db, c, rows[i].event, slot, |rows|, i);
      }
    }
  }

  lemma {:induction false} EnqueueKeepsSafe(o: Outbox.State, row: Outbox.Row)
    requires Outbox.Safe(o) && row.status.Pending?
    ensures Outbox.Safe(o.(rows := o.rows + [row]))
  {
    var o' := o.(rows := o.rows + [row]);
    forall w | 0 <= w < |o'.workers| ensures Outbox.WorkerOk(o', o'.workers[w]) {
      assert Outbox.WorkerOk(o, o.workers[w]);
    }
  }

  lemma {:induction false} ServerCommitStep(s: State, c: CallId, cfg: Config)
    requires Inv(s) && Enabled(s, ServerCommit(c), cfg)
    ensures Inv(Apply(s, ServerCommit(c), cfg)) && Extends(s.db, Apply(s, ServerCommit(c), cfg).db)
  {
    var s' := Apply(s, ServerCommit(c), cfg);
    assert c in s.calls;
    InvAt(s, c);
    CommitOk(s.db, c);
    CommitPayload(s.db, c, s.calls[c], s.ob.rows, s.slot);
    EnqueueKeepsSafe(s.ob, Outbox.Row(s.db.sessions[c].event.value, s.db.sessions[c].startedAt, Outbox.Pending, 0));
    forall other | other in s'.calls ensures CallOk(s'.db, other, s'.calls[other]) {
      if other == c {
        CommitKeepsCall(s.db, c, s.calls[c]);
      } else {
        CallFrame(s.db, s'.db, other, s.calls[other]);
      }
    }
    CacheFrame(s, s');
  }

  // ----------------------------------------------- steps nobody in particular takes

  lemma {:induction false} EnvironmentFrame(s: State, s': State)
    requires Inv(s) && s'.calls == s.calls && s'.slot == s.slot
    requires DbInv(s'.db) && Extends(s.db, s'.db) && s'.db.committed == s.db.committed
    requires forall c :: SameSession(s.db, s'.db, c)
    requires forall p :: p in s'.cache ==> p in s.cache && s'.cache[p] == s.cache[p]
    requires Outbox.Safe(s'.ob) && Outbox.SameEvents(s.ob.rows, s'.ob.rows) && |s'.ob.rows| == |s.ob.rows|
    ensures Inv(s')
  {
    forall c | c in s'.calls ensures CallOk(s'.db, c, s'.calls[c]) {
      CallFrame(s.db, s'.db, c, s.calls[c]);
    }
    forall c | c in s'.db.sessions ensures c in s'.calls {
      assert SameSession(s.db, s'.db, c);
    }
    CacheFrame(s, s');
    OutboxFrame(s.db, s'.db, s.ob.rows, s'.ob.rows, s.slot);
  }

  lemma {:induction false} SameEverything(db: Db)
    ensures Extends(db, db) && forall c :: SameSession(db, db, c)
  {}

  lemma {:induction false} TickStep(s: State, now: nat)
    requires Inv(s)
    ensures Inv(s.(now := now))
  {
    SameEverything(s.db);
    RowsSame(s.ob.rows);
    EnvironmentFrame(s, s.(now := now));
  }

  lemma {:induction false} RedisLossStep(s: State, locks: map<Pair, Lock>, cache: map<Pair, Entry>)
    requires Inv(s)
    requires forall p :: p in cache ==> p in s.cache && cache[p] == s.cache[p]
    ensures Inv(s.(locks := locks)) && Inv(s.(cache := cache))
  {
    SameEverything(s.db);
    RowsSame(s.ob.rows);
    EnvironmentFrame(s, s.(locks := locks));
    EnvironmentFrame(s, s.(cache := cache));
  }

  lemma {:induction false} AddAccountStep(s: State, id: int, a: Account)
    requires Inv(s) && CanAddAccount(s.db, id, a)
    ensures Inv(s.(db := Database.AddAccount(s.db, id, a))) && Extends(s.db, Database.AddAccount(s.db, id, a))
  {
    AddAccountOk(s.db, id, a);
    RowsSame(s.ob.rows);
    EnvironmentFrame(s, s.(db := Database.AddAccount(s.db, id, a)));
  }

  lemma {:induction false} WorkerStep(s: State, step: Outbox.Label, cfg: Outbox.Config)
    requires Inv(s) && !step.Enqueue? && Outbox.Enabled(s.ob, step, cfg)
    ensures Inv(s.(ob := Outbox.Apply(s.ob, step, cfg)))
  {
    SameEverything(s.db);
    Outbox.StepKeepsSafe(s.ob, step, cfg);
    Outbox.StepKeepsEvents(s.ob, step, cfg);
    EnvironmentFrame(s, s.(ob := Outbox.Apply(s.ob, step, cfg)));
  }

  lemma {:induction false} EnvironmentSteps(s: State, l: Label, cfg: Config)
    requires Inv(s) && Enabled(s, l, cfg)
    requires l.AddAccount? || l.Tick? || l.LoseLock? || l.LoseEntry? || l.Worker?
    ensures Inv(Apply(s, l, cfg)) && Extends(s.db, Apply(s, l, cfg).db)
  {
    SameEverything(s.db);
    match l
    case AddAccount(id, a) => AddAccountStep(s, id, a);
    case Tick(d) => TickStep(s, s.now + d);
    case LoseLock(p) => RedisLossStep(s, s.locks - {p}, s.cache);
    case LoseEntry(p) => RedisLossStep(s, s.locks, s.cache - {p});
    case Worker(step) => WorkerStep(s, step, cfg.outbox);
  }

  lemma {:induction false} CallerSteps(s: State, l: Label, cfg: Config)
    requires Inv(s) && Enabled(s, l, cfg)
    requires l.Validate? || l.DuplicateKey? || l.CommitReply? || l.Fetch? || l.Crash? || l.Obtain? || l.ReadCache? || l.Release?
    ensures Inv(Apply(s, l, cfg)) && Extends(s.db, Apply(s, l, cfg).db)
  {
    if l.Obtain? || l.ReadCache? || l.Release? {
      SameEverything(s.db);
      RedisSteps(s, l, cfg);
    } else {
      OtherSteps(s, l, cfg);
    }
  }

  lemma {:induction false} CommitSteps(s: State, l: Label, cfg: Config)
    requires Inv(s) && Enabled(s, l, cfg)
    requires l.Arrive? || l.StoreCache? || l.ServerCommit? || l.ServerAbort?
    ensures Inv(Apply(s, l, cfg)) && Extends(s.db, Apply(s, l, cfg).db)
  {
    SameEverything(s.db);
    match l
    case Arrive(c, tenant, req) => ArriveStep(s, c, tenant, req, cfg);
    case StoreCache(c, stored) => StoreCacheStep(s, c, stored, cfg);
    case ServerCommit(c) => ServerCommitStep(s, c, cfg);
    case ServerAbort(c) => ServerAbortStep(s, c);
  }

  /** Every step of anybody keeps the invariant, and nothing committed changes. */
  lemma {:induction false} StepKeepsInv(s: State, l: Label, cfg: Config)
    requires Inv(s) && Enabled(s, l, cfg)
    ensures Inv(Apply(s, l, cfg)) && Extends(s.db, Apply(s, l, cfg).db)
  {
    if l.Arrive? || l.StoreCache? || l.ServerCommit? || l.ServerAbort? {
      CommitSteps(s, l, cfg);
    } else if l.AddAccount? || l.Tick? || l.LoseLock? || l.LoseEntry? || l.Worker? {
      EnvironmentSteps(s, l, cfg);
    } else if Inserts(l) || l.SendCommit? || l.Rollback? {
      DatabaseSteps(s, l, cfg);
    } else {
      CallerSteps(s, l, cfg);
    }
  }
}
