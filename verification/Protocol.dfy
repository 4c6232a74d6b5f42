/** CreateTransaction as run by any number of concurrent calls against
    PostgreSQL, Redis and the outbox workers. A label names who moves and how the
    step turned out, so a run is a sequence of labels. */
module Protocol {
  import opened Core
  import opened Balance
  import opened Validation
  import opened Database
  import Outbox

  datatype Response = Response(
    id: Uuid,
    key: string,
    description: string,
    metadata: string,
    createdAt: nat,
    postings: Option<seq<PostingView>>)

  datatype Error =
    | Invalid(why: Verdict)
    | LockAcquisitionFailed
    | BeginFailed
    | InsertTransactionFailed
    | InsertPostingFailed
    | InsertEventFailed
    | CommitFailed

  /** Where a call stands. The deferred rollback runs before the deferred lock
      release, so an error met inside the database transaction passes RollingBack. */
  datatype Pc =
    | Validating
    | WantLock
    | ReadingCache
    | Beginning
    | InsertingTx
    | InsertingPostings(next: nat)
    | Committing
    | AwaitingCommit
    | Fetching
    | Caching(response: Response)
    | RollingBack(error: Error)
    | Releasing(result: Result<Response, Error>)
    | Done(result: Result<Response, Error>)
    | Crashed

  datatype Call = Call(tenant: Uuid, req: Request, arrivedAt: nat, pc: Pc)

  /** Tenant and idempotency key: what a lock or a cache entry is about. */
  datatype Pair = Pair(tenant: Uuid, key: string)

  datatype Lock = Lock(owner: CallId, expires: nat)

  datatype Entry = Entry(response: Response, expires: nat)

  datatype Config = Config(lockTtl: nat, cacheTtl: nat, outbox: Outbox.Config)

  datatype State = State(
    db: Db,
    ob: Outbox.State,
    calls: map<CallId, Call>,
    locks: map<Pair, Lock>,
    cache: map<Pair, Entry>,
    now: nat,
    /** For the record: the outbox row each committed transaction came with. */
    slot: map<Uuid, nat>)

  /** How a statement sent to the database turned out for the caller. */
  datatype Outcome = Succeeded | Rejected | ReplyLost

  datatype Grant = Granted | Refused | GrantLost

  datatype Label =
    | Arrive(c: CallId, tenant: Uuid, req: Request)
    | Validate(c: CallId)
    | Obtain(c: CallId, grant: Grant)
    | ReadCache(c: CallId, hit: bool)
    | BeginTx(c: CallId, ok: bool)
    | InsertRow(c: CallId, id: Uuid, outcome: Outcome)
    | DuplicateKey(c: CallId)
    | InsertLeg(c: CallId, outcome: Outcome)
    | InsertOutbox(c: CallId, eventId: Uuid, outcome: Outcome)
    | SendCommit(c: CallId, sent: bool)
    | CommitReply(c: CallId, ok: bool)
    | Rollback(c: CallId, effective: bool)
    | Fetch(c: CallId, ok: bool)
    | StoreCache(c: CallId, stored: bool)
    | Release(c: CallId, effective: bool)
    | Crash(c: CallId)
    | ServerCommit(c: CallId)
    | ServerAbort(c: CallId)
    | AddAccount(accountId: int, account: Account)
    | Tick(d: nat)
    | LoseLock(p: Pair)
    | LoseEntry(p: Pair)
    | Worker(step: Outbox.Label)

  // ------------------------------------------------------------------ helpers

  function PairOf(call: Call): Pair {
    Pair(call.tenant, call.req.key)
  }

  predicate LiveLock(s: State, p: Pair) {
    p in s.locks && s.now < s.locks[p].expires
  }

  predicate LiveEntry(s: State, p: Pair) {
    p in s.cache && s.now < s.cache[p].expires
  }

  predicate At(s: State, c: CallId, pc: Pc) {
    c in s.calls && s.calls[c].pc == pc
  }

  function Goto(s: State, c: CallId, pc: Pc): State
    requires c in s.calls
  {
    s.(calls := s.calls[c := s.calls[c].(pc := pc)])
  }

  function MetadataOf(req: Request): string {
    if req.metadata.Some? then req.metadata.value else "{}"
  }

  function EventFor(row: TxRow, postings: seq<Posting>, eventId: Uuid): Event {
    Event(eventId, row.tenant, row.id, row.key, row.description, postings, row.metadata, row.createdAt)
  }

  function ResponseFor(row: TxRow, postings: Option<seq<PostingView>>): Response {
    Response(row.id, row.key, row.description, row.metadata, row.createdAt, postings)
  }

  /** The row call c inserted into `transactions`, if it did. */
  predicate HasRow(db: Db, c: CallId) {
    c in db.sessions && db.sessions[c].tx.Some? && db.sessions[c].tx.value in db.heap
  }

  function RowOf(db: Db, c: CallId): TxRow
    requires HasRow(db, c)
  {
    db.heap[db.sessions[c].tx.value]
  }

  /** Calls between lock acquisition and release. */
  predicate InCriticalSection(pc: Pc) {
    pc.ReadingCache? || pc.Beginning? || pc.InsertingTx? || pc.InsertingPostings? || pc.Committing?
    || pc.AwaitingCommit? || pc.Fetching? || pc.Caching? || pc.RollingBack? || pc.Releasing?
  }

  // -------------------------------------------------------------------- steps

  predicate Enabled(s: State, l: Label, cfg: Config) {
    match l
    case Arrive(c, _, _) => c !in s.calls && c !in s.db.sessions
    case Validate(c) => At(s, c, Validating)
    case Obtain(c, grant) => At(s, c, WantLock) && (!grant.Refused? ==> !LiveLock(s, PairOf(s.calls[c])))
    case ReadCache(c, hit) => At(s, c, ReadingCache) && (hit ==> LiveEntry(s, PairOf(s.calls[c])))
    case BeginTx(c, ok) => At(s, c, Beginning) && (ok ==> CanBegin(s.db, c))
    case InsertRow(c, id, outcome) =>
      && At(s, c, InsertingTx)
      && (!outcome.Rejected? ==> CanInsertTx(s.db, c, id, s.calls[c].tenant, s.calls[c].req.key))
    case DuplicateKey(c) => At(s, c, InsertingTx) && KeyTaken(s.db, s.calls[c].tenant, s.calls[c].req.key)
    case InsertLeg(c, outcome) =>
      && c in s.calls && s.calls[c].pc.InsertingPostings?
      && s.calls[c].pc.next < |s.calls[c].req.postings|
      && (!outcome.Rejected? ==> CanInsertPosting(s.db, c, s.calls[c].req.postings[s.calls[c].pc.next]))
    case InsertOutbox(c, _, outcome) =>
      && At(s, c, InsertingPostings(if c in s.calls then |s.calls[c].req.postings| else 0))
      && (!outcome.Rejected? ==> CanInsertEvent(s.db, c) && HasRow(s.db, c))
    case SendCommit(c, sent) => At(s, c, Committing) && (sent ==> c in s.db.sessions && s.db.sessions[c].status.Open?)
    case CommitReply(c, ok) =>
      At(s, c, AwaitingCommit) && (ok ==> c in s.db.sessions && s.db.sessions[c].status.Committed?)
    case Rollback(c, _) => c in s.calls && s.calls[c].pc.RollingBack?
    case Fetch(c, _) => At(s, c, Fetching) && HasRow(s.db, c)
    case StoreCache(c, _) => c in s.calls && s.calls[c].pc.Caching?
    case Release(c, _) => c in s.calls && s.calls[c].pc.Releasing?
    case Crash(c) => c in s.calls && !s.calls[c].pc.Done?
    case ServerCommit(c) => CanCommit(s.db, c)
    case ServerAbort(c) => Live(s.db, c)
    case AddAccount(id, account) => CanAddAccount(s.db, id, account)
    case Tick(_) => true
    case LoseLock(_) => true
    case LoseEntry(_) => true
    case Worker(step) => !step.Enqueue? && Outbox.Enabled(s.ob, step, cfg.outbox)
  }

  function AfterValidate(s: State, c: CallId): State
    requires c in s.calls
  {
    var req := s.calls[c].req;
    Goto(s, c, if ServiceAccepts(req) then WantLock else Done(Err(Invalid(ServiceVerdict(req)))))
  }

  /** A hit replays the cached response, whatever the new request says. */
  function AfterReadCache(s: State, c: CallId, hit: bool): State
    requires c in s.calls && (hit ==> LiveEntry(s, PairOf(s.calls[c])))
  {
    Goto(s, c, if hit then Releasing(Ok(s.cache[PairOf(s.calls[c])].response)) else Beginning)
  }

  /** A failed fetch is not an error: the response goes out without postings. */
  function AfterFetch(s: State, c: CallId, ok: bool): State
    requires c in s.calls && HasRow(s.db, c)
  {
    var row := RowOf(s.db, c);
    Goto(s, c, Caching(ResponseFor(row, if ok then Some(GetPostings(s.db, row.id, s.calls[c].tenant)) else None)))
  }

  function AfterObtain(s: State, c: CallId, grant: Grant, cfg: Config): State
    requires c in s.calls
  {
    var held := s.(locks := s.locks[PairOf(s.calls[c]) := Lock(c, s.now + cfg.lockTtl)]);
    match grant
    case Granted => Goto(held, c, ReadingCache)
    case Refused => Goto(s, c, Done(Err(LockAcquisitionFailed)))
    case GrantLost => Goto(held, c, Done(Err(LockAcquisitionFailed)))
  }

  function AfterInsertRow(s: State, c: CallId, id: Uuid, outcome: Outcome): State
    requires c in s.calls && (!outcome.Rejected? ==> c in s.db.sessions)
  {
    var req := s.calls[c].req;
    var s' := if outcome.Rejected? then s
              else s.(db := InsertTx(s.db, c, id, s.calls[c].tenant, req.key, req.description, MetadataOf(req)));
    Goto(s', c, if outcome.Succeeded? then InsertingPostings(0) else RollingBack(InsertTransactionFailed))
  }

  function AfterInsertLeg(s: State, c: CallId, outcome: Outcome): State
    requires c in s.calls && s.calls[c].pc.InsertingPostings? && s.calls[c].pc.next < |s.calls[c].req.postings|
    requires !outcome.Rejected? ==> c in s.db.sessions && s.db.sessions[c].tx.Some?
  {
    var i := s.calls[c].pc.next;
    var s' := if outcome.Rejected? then s
              else s.(db := InsertPosting(s.db, c, s.calls[c].tenant, s.calls[c].req.postings[i]));
    Goto(s', c, if outcome.Succeeded? then InsertingPostings(i + 1) else RollingBack(InsertPostingFailed))
  }

  function AfterInsertOutbox(s: State, c: CallId, eventId: Uuid, outcome: Outcome): State
    requires c in s.calls && (!outcome.Rejected? ==> HasRow(s.db, c))
  {
    var s' := if outcome.Rejected? then s
              else s.(db := InsertEvent(s.db, c, EventFor(RowOf(s.db, c), s.calls[c].req.postings, eventId)));
    Goto(s', c, if outcome.Succeeded? then Committing else RollingBack(InsertEventFailed))
  }

  /** The whole database transaction becomes visible at once, its outbox row included. */
  function AfterServerCommit(s: State, c: CallId): State
    requires c in s.db.sessions && s.db.sessions[c].tx.Some?
  {
    var session := s.db.sessions[c];
    var s' := s.(db := Commit(s.db, c));
    if session.event.None? then s'
    else s'.(ob := s.ob.(rows := s.ob.rows + [Outbox.Row(session.event.value, session.startedAt, Outbox.Pending, 0)]),
             slot := s.slot[session.tx.value := |s.ob.rows|])
  }

  function AfterRelease(s: State, c: CallId, effective: bool): State
    requires c in s.calls && s.calls[c].pc.Releasing?
  {
    var p := PairOf(s.calls[c]);
    var s' := if effective && LiveLock(s, p) && s.locks[p].owner == c then s.(locks := s.locks - {p}) else s;
    Goto(s', c, Done(s.calls[c].pc.result))
  }

  function Apply(s: State, l: Label, cfg: Config): State
    requires Enabled(s, l, cfg)
  {
    match l
    case Arrive(c, tenant, req) => s.(calls := s.calls[c := Call(tenant, req, s.now, Validating)])
    case Validate(c) => AfterValidate(s, c)
    case Obtain(c, grant) => AfterObtain(s, c, grant, cfg)
    case ReadCache(c, hit) => AfterReadCache(s, c, hit)
    case BeginTx(c, ok) =>
      if ok then Goto(s.(db := Begin(s.db, c, s.now)), c, InsertingTx) else Goto(s, c, Releasing(Err(BeginFailed)))
    case InsertRow(c, id, outcome) => AfterInsertRow(s, c, id, outcome)
    case DuplicateKey(c) => Goto(s, c, RollingBack(InsertTransactionFailed))
    case InsertLeg(c, outcome) => AfterInsertLeg(s, c, outcome)
    case InsertOutbox(c, eventId, outcome) => AfterInsertOutbox(s, c, eventId, outcome)
    case SendCommit(c, sent) =>
      if sent then Goto(s.(db := SetStatus(s.db, c, CommitRequested)), c, AwaitingCommit)
      else Goto(s, c, RollingBack(CommitFailed))
    case CommitReply(c, ok) => Goto(s, c, if ok then Fetching else RollingBack(CommitFailed))
    case Rollback(c, effective) =>
      var s' := if effective && c in s.db.sessions && s.db.sessions[c].status.Open?
                then s.(db := SetStatus(s.db, c, Aborted)) else s;
      Goto(s', c, Releasing(Err(s.calls[c].pc.error)))
    case Fetch(c, ok) => AfterFetch(s, c, ok)
    case StoreCache(c, stored) =>
      var response := s.calls[c].pc.response;
      var s' := if stored then s.(cache := s.cache[PairOf(s.calls[c]) := Entry(response, s.now + cfg.cacheTtl)]) else s;
      Goto(s', c, Releasing(Ok(response)))
    case Release(c, effective) => AfterRelease(s, c, effective)
    case Crash(c) => Goto(s, c, Crashed)
    case ServerCommit(c) => AfterServerCommit(s, c)
    case ServerAbort(c) => s.(db := SetStatus(s.db, c, Aborted))
    case AddAccount(id, account) => s.(db := Database.AddAccount(s.db, id, account))
    case Tick(d) => s.(now := s.now + d)
    case LoseLock(p) => s.(locks := s.locks - {p})
    case LoseEntry(p) => s.(cache := s.cache - {p})
    case Worker(step) => s.(ob := Outbox.Apply(s.ob, step, cfg.outbox))
  }

  ghost predicate Legal(s: State, ls: seq<Label>, cfg: Config)
    decreases |ls|
  {
    |ls| == 0 || (Enabled(s, ls[0], cfg) && Legal(Apply(s, ls[0], cfg), ls[1..], cfg))
  }

  ghost function Run(s: State, ls: seq<Label>, cfg: Config): State
    requires Legal(s, ls, cfg)
    decreases |ls|
  {
    if |ls| == 0 then s else Run(Apply(s, ls[0], cfg), ls[1..], cfg)
  }

  lemma {:induction false} RunSnoc(s: State, ls: seq<Label>, l: Label, cfg: Config)
    requires Legal(s, ls, cfg) && Enabled(Run(s, ls, cfg), l, cfg)
    ensures Legal(s, ls + [l], cfg)
    ensures Run(s, ls + [l], cfg) == Apply(Run(s, ls, cfg), l, cfg)
    decreases |ls|
  {
    if |ls| > 0 {
      RunSnoc(Apply(s, ls[0], cfg), ls[1..], l, cfg);
      assert (ls + [l])[1..] == ls[1..] + [l];
    } else {
      assert ls + [l] == [l] && [l][1..] == [];
      assert Legal(Apply(s, l, cfg), [l][1..], cfg);
    }
  }

  /** The call whose record or database transaction the step may change. */
  function Actor(l: Label): Option<CallId> {
    match l
    case AddAccount(_, _) => None
    case Tick(_) => None
    case LoseLock(_) => None
    case LoseEntry(_) => None
    case Worker(_) => None
    case _ => Some(l.c)
  }

  predicate SameCall(s: State, s': State, c: CallId) {
    && (c in s'.calls <==> c in s.calls)
    && (c in s.calls ==> s'.calls[c] == s.calls[c])
  }

  predicate SameSessionRecord(db: Db, db': Db, c: CallId) {
    && (c in db'.sessions <==> c in db.sessions)
    && (c in db.sessions ==> db'.sessions[c] == db.sessions[c])
  }

  /** Steps taken by the caller itself that send nothing to the database. */
  predicate CallerOnly(l: Label) {
    l.Arrive? || l.Validate? || l.Obtain? || l.ReadCache? || l.DuplicateKey? || l.CommitReply?
    || l.Fetch? || l.StoreCache? || l.Release? || l.Crash?
  }

  /** Steps nobody's record of the call notices. */
  predicate LeavesCalls(l: Label) {
    l.ServerCommit? || l.ServerAbort? || l.AddAccount? || l.Tick? || l.LoseLock? || l.LoseEntry? || l.Worker?
  }

  predicate LeavesDatabase(l: Label) {
    CallerOnly(l) || l.Tick? || l.LoseLock? || l.LoseEntry? || l.Worker?
  }

  lemma {:induction false} DatabaseLeftAlone(s: State, l: Label, cfg: Config)
    requires Enabled(s, l, cfg) && LeavesDatabase(l)
    ensures Apply(s, l, cfg).db == s.db
  {}

  lemma {:induction false} CallsLeftAlone(s: State, l: Label, cfg: Config)
    requires Enabled(s, l, cfg) && LeavesCalls(l)
    ensures Apply(s, l, cfg).calls == s.calls
  {}

  lemma {:induction false} CallerMovesItself(s: State, l: Label, cfg: Config)
    requires Enabled(s, l, cfg) && CallerOnly(l)
    ensures var s' := Apply(s, l, cfg);
      l.c in s'.calls && s'.calls == s.calls[l.c := s'.calls[l.c]]
  {}

  lemma {:induction false} StatementMovesItself(s: State, l: Label, cfg: Config)
    requires Enabled(s, l, cfg) && !CallerOnly(l) && !LeavesCalls(l)
    ensures var s' := Apply(s, l, cfg);
      l.c in s'.calls && s'.calls == s.calls[l.c := s'.calls[l.c]]
  {}

  lemma {:induction false} OtherCallsUntouched(s: State, l: Label, cfg: Config, c: CallId)
    requires Enabled(s, l, cfg) && Actor(l) != Some(c)
    ensures SameCall(s, Apply(s, l, cfg), c)
  {
    if LeavesCalls(l) {
      CallsLeftAlone(s, l, cfg);
    } else if CallerOnly(l) {
      CallerMovesItself(s, l, cfg);
    } else {
      StatementMovesItself(s, l, cfg);
    }
  }

  predicate Inserts(l: Label) {
    l.BeginTx? || l.InsertRow? || l.InsertLeg? || l.InsertOutbox?
  }

  predicate Ends(l: Label) {
    l.SendCommit? || l.Rollback? || l.ServerCommit? || l.ServerAbort?
  }

  /** Statements change their own session only; AddAccount alone adds accounts. */
  ghost predicate OwnSessionOnly(db: Db, db': Db, c: CallId) {
    db'.accounts == db.accounts && forall d :: d != c ==> SameSessionRecord(db, db', d)
  }

  lemma {:induction false} InsertsTouchOwn(s: State, l: Label, cfg: Config)
    requires Enabled(s, l, cfg) && Inserts(l)
    ensures OwnSessionOnly(s.db, Apply(s, l, cfg).db, l.c)
  {}

  lemma {:induction false} EndsTouchOwn(s: State, l: Label, cfg: Config)
    requires Enabled(s, l, cfg) && Ends(l)
    ensures OwnSessionOnly(s.db, Apply(s, l, cfg).db, l.c)
  {
    if l.ServerCommit? {
      assert Apply(s, l, cfg).db == Commit(s.db, l.c);
    }
  }

  lemma {:induction false} OtherSessionsUntouched(s: State, l: Label, cfg: Config, c: CallId)
    requires Enabled(s, l, cfg) && Actor(l) != Some(c)
    ensures SameSessionRecord(s.db, Apply(s, l, cfg).db, c)
  {
    if LeavesDatabase(l) {
      DatabaseLeftAlone(s, l, cfg);
    } else if Inserts(l) {
      InsertsTouchOwn(s, l, cfg);
    } else if Ends(l) {
      EndsTouchOwn(s, l, cfg);
    }
  }

  /** Nobody moves another call or its database transaction. */
  lemma {:induction false} OthersUntouched(s: State, l: Label, cfg: Config, c: CallId)
    requires Enabled(s, l, cfg) && Actor(l) != Some(c)
    ensures SameCall(s, Apply(s, l, cfg), c) && SameSessionRecord(s.db, Apply(s, l, cfg).db, c)
  {
    OtherCallsUntouched(s, l, cfg, c);
    OtherSessionsUntouched(s, l, cfg, c);
  }

  ghost predicate Init(s: State) {
    && s.db == Database.EMPTY && Outbox.Init(s.ob)
    && s.calls == map[] && s.locks == map[] && s.cache == map[] && s.slot == map[]
  }
}
