/** Runs without infrastructure faults: no lock or cached response expires or is
    lost, Redis answers truthfully, rollbacks reach the server and the outcome of a
    COMMIT is reported as it is. Callers may still crash and statements may fail. */
module FaultFree {
  import opened Core
  import opened Balance
  import opened Validation
  import opened Database
  import opened DatabaseInv
  import opened Protocol
  import opened ProtocolInv
  import opened ProtocolSafety
  import AccountHistory
  import MutualExclusion

  predicate StaysLive(now: nat, d: nat, expires: nat) {
    now < expires ==> now + d < expires
  }

  ghost predicate NothingExpires(s: State, d: nat) {
    && (forall p :: p in s.locks ==> StaysLive(s.now, d, s.locks[p].expires))
    && (forall p :: p in s.cache ==> StaysLive(s.now, d, s.cache[p].expires))
  }

  ghost predicate Faultless(s: State, l: Label) {
    match l
    case Obtain(_, grant) => !grant.GrantLost?
    case ReadCache(c, hit) => c in s.calls && (hit <==> LiveEntry(s, PairOf(s.calls[c])))
    case CommitReply(c, ok) => ok || StatusIs(s.db, c, Aborted, Aborted)
    case Rollback(_, effective) => effective
    case StoreCache(_, stored) => stored
    case Tick(d) => NothingExpires(s, d)
    case LoseLock(_) => false
    case LoseEntry(_) => false
    case _ => true
  }

  ghost predicate AllFaultless(s: State, ls: seq<Label>, cfg: Config)
    requires Legal(s, ls, cfg)
    decreases |ls|
  {
    |ls| == 0 || (Faultless(s, ls[0]) && AllFaultless(Apply(s, ls[0], cfg), ls[1..], cfg))
  }

  // --------------------------------------------------------------- invariant

  /** Inside the critical section, or dead there with the lock in hand. */
  predicate Holding(s: State, c: CallId)
    requires c in s.calls
  {
    InCriticalSection(s.calls[c].pc) || (s.calls[c].pc.Crashed? && c in s.db.sessions)
  }

  predicate OwnsLock(s: State, c: CallId)
    requires c in s.calls
  {
    LiveLock(s, PairOf(s.calls[c])) && s.locks[PairOf(s.calls[c])].owner == c
  }

  predicate Replays(s: State, p: Pair, r: Response) {
    LiveEntry(s, p) && s.cache[p].response == r
  }

  /** After the cache was read and found empty, before it is written. */
  predicate Uncached(pc: Pc) {
    pc.Beginning? || pc.InsertingTx? || pc.InsertingPostings? || pc.Committing?
    || pc.AwaitingCommit? || pc.Fetching? || pc.Caching?
  }

  predicate ResultCached(s: State, p: Pair, r: Result<Response, Error>) {
    r.Ok? ==> Replays(s, p, r.value)
  }

  predicate StageOk(s: State, c: CallId)
    requires c in s.calls
  {
    var p := PairOf(s.calls[c]);
    && (Uncached(s.calls[c].pc) ==> !LiveEntry(s, p))
    && (match s.calls[c].pc
        case RollingBack(_) => c in s.db.sessions ==> StatusIs(s.db, c, Open, Aborted)
        case Releasing(r) => !Live(s.db, c) && ResultCached(s, p, r)
        case Done(r) => !Live(s.db, c) && ResultCached(s, p, r)
        case _ => true)
  }

  predicate CallQuiet(s: State, c: CallId)
    requires c in s.calls
  {
    (Holding(s, c) ==> OwnsLock(s, c)) && StageOk(s, c)
  }

  predicate StillAt(pc: Pc) {
    pc.AwaitingCommit? || pc.Fetching? || pc.Caching? || pc.Crashed?
  }

  /** A committed transaction is cached, or its writer has not let go of the lock. */
  predicate Covered(s: State, id: Uuid) {
    id in s.db.heap
    && (LiveEntry(s, Pair(s.db.heap[id].tenant, s.db.heap[id].key))
        || (s.db.heap[id].writer in s.calls && StillAt(s.calls[s.db.heap[id].writer].pc)))
  }

  ghost predicate Quiet(s: State) {
    && (forall c :: c in s.calls ==> CallQuiet(s, c))
    && (forall id :: id in s.db.committed ==> Covered(s, id))
  }

  lemma {:induction false} OneHolder(s: State, c: CallId, d: CallId)
    requires Quiet(s) && c in s.calls && d in s.calls && PairOf(s.calls[c]) == PairOf(s.calls[d])
    requires Holding(s, c) && Holding(s, d)
    ensures c == d
  {
    assert CallQuiet(s, c) && CallQuiet(s, d);
  }

  // ------------------------------------------------------------- frame facts

  lemma {:induction false} LockStaysLive(s: State, l: Label, cfg: Config, p: Pair)
    requires Enabled(s, l, cfg) && Faultless(s, l) && LiveLock(s, p) && Actor(l) != Some(s.locks[p].owner)
    ensures LiveLock(Apply(s, l, cfg), p) && Apply(s, l, cfg).locks[p] == s.locks[p]
  {
    MutualExclusion.LockStays(s, l, cfg, p);
    ClockStaysBefore(s, l, cfg, p);
  }

  lemma {:induction false} ClockStaysBefore(s: State, l: Label, cfg: Config, p: Pair)
    requires Enabled(s, l, cfg) && Faultless(s, l)
    ensures LiveLock(s, p) ==> Apply(s, l, cfg).now < s.locks[p].expires
    ensures LiveEntry(s, p) ==> Apply(s, l, cfg).now < s.cache[p].expires
  {
    if l.Tick? {
      assert p in s.locks ==> StaysLive(s.now, l.d, s.locks[p].expires);
      assert p in s.cache ==> StaysLive(s.now, l.d, s.cache[p].expires);
    } else {
      MutualExclusion.ClockStands(s, l, cfg);
    }
  }

  lemma {:induction false} StatementsLeaveCache(s: State, l: Label, cfg: Config)
    requires Enabled(s, l, cfg) && !CallerOnly(l) && !l.LoseEntry?
    ensures Apply(s, l, cfg).cache == s.cache
  {}

  lemma {:induction false} CallersWriteCache(s: State, l: Label, cfg: Config)
    requires Enabled(s, l, cfg) && Faultless(s, l) && CallerOnly(l)
    ensures Apply(s, l, cfg).cache == if l.StoreCache?
      then s.cache[PairOf(s.calls[l.c]) := Entry(s.calls[l.c].pc.response, s.now + cfg.cacheTtl)] else s.cache
  {}

  /** Only StoreCache writes an entry, and it writes its own pair's. */
  lemma {:induction false} CacheWrites(s: State, l: Label, cfg: Config)
    requires Enabled(s, l, cfg) && Faultless(s, l)
    ensures Apply(s, l, cfg).cache == if l.StoreCache?
      then s.cache[PairOf(s.calls[l.c]) := Entry(s.calls[l.c].pc.response, s.now + cfg.cacheTtl)] else s.cache
  {
    if CallerOnly(l) {
      CallersWriteCache(s, l, cfg);
    } else {
      StatementsLeaveCache(s, l, cfg);
    }
  }

  /** A live entry is never replaced: who writes one has seen that there was none. */
  lemma {:induction false} EntryStays(s: State, l: Label, cfg: Config, p: Pair)
    requires Quiet(s) && Enabled(s, l, cfg) && Faultless(s, l) && LiveEntry(s, p)
    ensures LiveEntry(Apply(s, l, cfg), p) && Apply(s, l, cfg).cache[p] == s.cache[p]
  {
    CacheWrites(s, l, cfg);
    ClockStaysBefore(s, l, cfg, p);
    if l.StoreCache? {
      assert CallQuiet(s, l.c);
    }
  }

  lemma {:induction false} EntryAppears(s: State, l: Label, cfg: Config, p: Pair)
    requires Enabled(s, l, cfg) && Faultless(s, l)
    requires !LiveEntry(s, p) && (l.StoreCache? ==> PairOf(s.calls[l.c]) != p)
    ensures !LiveEntry(Apply(s, l, cfg), p)
  {
    CacheWrites(s, l, cfg);
    MutualExclusion.TimePasses(s, l, cfg);
  }

  // -------------------------------------------------------------- other calls

  lemma {:induction false} OtherHolds(s: State, l: Label, cfg: Config, c: CallId)
    requires Quiet(s) && Enabled(s, l, cfg) && Faultless(s, l) && Actor(l) != Some(c) && c in s.calls
    ensures c in Apply(s, l, cfg).calls
    ensures Holding(Apply(s, l, cfg), c) ==> OwnsLock(Apply(s, l, cfg), c)
  {
    OthersUntouched(s, l, cfg, c);
    assert CallQuiet(s, c);
    if Holding(s, c) {
      LockStaysLive(s, l, cfg, PairOf(s.calls[c]));
    }
  }

  lemma {:induction false} OtherUncached(s: State, l: Label, cfg: Config, c: CallId)
    requires Quiet(s) && Enabled(s, l, cfg) && Faultless(s, l) && Actor(l) != Some(c) && c in s.calls
    requires Uncached(s.calls[c].pc)
    ensures !LiveEntry(Apply(s, l, cfg), PairOf(s.calls[c]))
  {
    assert CallQuiet(s, c);
    if l.StoreCache? && PairOf(s.calls[l.c]) == PairOf(s.calls[c]) {
      OneHolder(s, l.c, c);
    }
    EntryAppears(s, l, cfg, PairOf(s.calls[c]));
  }

  lemma {:induction false} OtherStage(s: State, l: Label, cfg: Config, c: CallId)
    requires Quiet(s) && Enabled(s, l, cfg) && Faultless(s, l) && Actor(l) != Some(c) && c in s.calls
    requires c in Apply(s, l, cfg).calls
    ensures StageOk(Apply(s, l, cfg), c)
  {
    OthersUntouched(s, l, cfg, c);
    assert CallQuiet(s, c);
    if Uncached(s.calls[c].pc) {
      OtherUncached(s, l, cfg, c);
    }
    if LiveEntry(s, PairOf(s.calls[c])) {
      EntryStays(s, l, cfg, PairOf(s.calls[c]));
    }
  }

  // ----------------------------------------------------------------- the actor

  /** What a step may assume of the call that takes it. */
  predicate Ready(s: State, c: CallId) {
    c in s.calls && CallOk(s.db, c, s.calls[c]) && CallQuiet(s, c)
  }

  lemma {:induction false} ObtainQuiet(s: State, c: CallId, grant: Grant, cfg: Config)
    requires Ready(s, c) && s.calls[c].pc.WantLock? && !grant.GrantLost? && cfg.lockTtl > 0
    ensures CallQuiet(AfterObtain(s, c, grant, cfg), c)
  {}

  lemma {:induction false} ReadCacheQuiet(s: State, c: CallId, hit: bool)
    requires Ready(s, c) && s.calls[c].pc.ReadingCache? && (hit <==> LiveEntry(s, PairOf(s.calls[c])))
    ensures CallQuiet(AfterReadCache(s, c, hit), c)
  {}

  lemma {:induction false} BeginQuiet(s: State, c: CallId)
    requires Ready(s, c) && s.calls[c].pc.Beginning?
    ensures CallQuiet(Goto(s.(db := Begin(s.db, c, s.now)), c, InsertingTx), c)
    ensures CallQuiet(Goto(s, c, Releasing(Err(BeginFailed))), c)
  {}

  lemma {:induction false} InsertRowQuiet(s: State, c: CallId, id: Uuid, outcome: Outcome)
    requires Ready(s, c) && s.calls[c].pc.InsertingTx?
    ensures CallQuiet(AfterInsertRow(s, c, id, outcome), c)
    ensures CallQuiet(Goto(s, c, RollingBack(InsertTransactionFailed)), c)
  {}

  lemma {:induction false} InsertLegQuiet(s: State, c: CallId, outcome: Outcome)
    requires Ready(s, c) && s.calls[c].pc.InsertingPostings? && s.calls[c].pc.next < |s.calls[c].req.postings|
    ensures CallQuiet(AfterInsertLeg(s, c, outcome), c)
  {}

  lemma {:induction false} InsertOutboxQuiet(s: State, c: CallId, eventId: Uuid, outcome: Outcome)
    requires Ready(s, c) && s.calls[c].pc.InsertingPostings?
    ensures CallQuiet(AfterInsertOutbox(s, c, eventId, outcome), c)
  {}

  lemma {:induction false} SendCommitQuiet(s: State, c: CallId)
    requires Ready(s, c) && s.calls[c].pc.Committing?
    ensures CallQuiet(Goto(s.(db := SetStatus(s.db, c, CommitRequested)), c, AwaitingCommit), c)
    ensures CallQuiet(Goto(s, c, RollingBack(CommitFailed)), c)
  {}

  lemma {:induction false} CommitReplyQuiet(s: State, c: CallId, ok: bool)
    requires Ready(s, c) && s.calls[c].pc.AwaitingCommit? && (ok || StatusIs(s.db, c, Aborted, Aborted))
    ensures CallQuiet(Goto(s, c, if ok then Fetching else RollingBack(CommitFailed)), c)
  {}

  lemma {:induction false} RollbackQuiet(s: State, c: CallId)
    requires Ready(s, c) && s.calls[c].pc.RollingBack?
    ensures var pc := Releasing(Err(s.calls[c].pc.error));
      if c in s.db.sessions && s.db.sessions[c].status.Open?
      then CallQuiet(Goto(s.(db := SetStatus(s.db, c, Aborted)), c, pc), c) else CallQuiet(Goto(s, c, pc), c)
  {}

  lemma {:induction false} FetchQuiet(s: State, c: CallId, ok: bool)
    requires Ready(s, c) && s.calls[c].pc.Fetching? && HasRow(s.db, c)
    ensures CallQuiet(AfterFetch(s, c, ok), c)
  {}

  lemma {:induction false} StoreCacheQuiet(s: State, c: CallId, cfg: Config)
    requires Ready(s, c) && s.calls[c].pc.Caching? && cfg.cacheTtl > 0
    ensures var r := s.calls[c].pc.response;
      CallQuiet(Goto(s.(cache := s.cache[PairOf(s.calls[c]) := Entry(r, s.now + cfg.cacheTtl)]), c, Releasing(Ok(r))), c)
  {}

  lemma {:induction false} ReleaseQuiet(s: State, c: CallId, effective: bool)
    requires Ready(s, c) && s.calls[c].pc.Releasing?
    ensures CallQuiet(AfterRelease(s, c, effective), c)
  {}

  lemma {:induction false} CrashQuiet(s: State, c: CallId)
    requires Ready(s, c) && !s.calls[c].pc.Done?
    ensures CallQuiet(Goto(s, c, Crashed), c)
  {}

  lemma {:induction false} ServerCommitQuiet(s: State, c: CallId)
    requires Ready(s, c) && CanCommit(s.db, c)
    ensures CallQuiet(AfterServerCommit(s, c), c)
  {}

  lemma {:induction false} ServerAbortQuiet(s: State, c: CallId)
    requires Ready(s, c) && Live(s.db, c)
    ensures CallQuiet(s.(db := SetStatus(s.db, c, Aborted)), c)
  {}

  lemma {:induction false} RedisActorQuiet(s: State, l: Label, cfg: Config, c: CallId)
    requires Ready(s, c) && Enabled(s, l, cfg) && Faultless(s, l) && Actor(l) == Some(c)
    requires l.Validate? || l.Obtain? || l.ReadCache? || l.StoreCache? || l.Release? || l.Crash?
    requires cfg.lockTtl > 0 && cfg.cacheTtl > 0
    ensures CallQuiet(Apply(s, l, cfg), c)
  {
    match l
    case Validate(_) =>
    case Obtain(_, grant) => ObtainQuiet(s, c, grant, cfg);
    case ReadCache(_, hit) => ReadCacheQuiet(s, c, hit);
    case StoreCache(_, _) => StoreCacheQuiet(s, c, cfg);
    case Release(_, effective) => ReleaseQuiet(s, c, effective);
    case Crash(_) => CrashQuiet(s, c);
  }

  lemma {:induction false} DatabaseActorQuiet(s: State, l: Label, cfg: Config, c: CallId)
    requires Ready(s, c) && Enabled(s, l, cfg) && Faultless(s, l) && Actor(l) == Some(c)
    requires !(l.Arrive? || l.Validate? || l.Obtain? || l.ReadCache? || l.StoreCache? || l.Release? || l.Crash?)
    ensures CallQuiet(Apply(s, l, cfg), c)
  {
    match l
    case BeginTx(_, _) => BeginQuiet(s, c);
    case InsertRow(_, id, outcome) => InsertRowQuiet(s, c, id, outcome);
    case DuplicateKey(_) => InsertRowQuiet(s, c, s.calls[c].tenant, Rejected);
    case InsertLeg(_, outcome) => InsertLegQuiet(s, c, outcome);
    case InsertOutbox(_, eventId, outcome) => InsertOutboxQuiet(s, c, eventId, outcome);
    case SendCommit(_, _) => SendCommitQuiet(s, c);
    case CommitReply(_, ok) => CommitReplyQuiet(s, c, ok);
    case Rollback(_, _) => RollbackQuiet(s, c);
    case Fetch(_, ok) => FetchQuiet(s, c, ok);
    case ServerCommit(_) => ServerCommitQuiet(s, c);
    case ServerAbort(_) => ServerAbortQuiet(s, c);
  }

  lemma {:induction false} ArrivalQuiet(s: State, l: Label, cfg: Config)
    requires l.Arrive? && Enabled(s, l, cfg)
    ensures l.c in Apply(s, l, cfg).calls && CallQuiet(Apply(s, l, cfg), l.c)
  {}

  lemma {:induction false} ActorQuiet(s: State, l: Label, cfg: Config, c: CallId)
    requires Inv(s) && Quiet(s) && Enabled(s, l, cfg) && Faultless(s, l) && Actor(l) == Some(c)
    requires cfg.lockTtl > 0 && cfg.cacheTtl > 0 && c in Apply(s, l, cfg).calls
    ensures CallQuiet(Apply(s, l, cfg), c)
  {
    if l.Arrive? {
      ArrivalQuiet(s, l, cfg);
    } else {
      ActorKnown(s, l, cfg, c);
      InvAt(s, c);
      assert CallQuiet(s, c);
      if l.Validate? || l.Obtain? || l.ReadCache? || l.StoreCache? || l.Release? || l.Crash? {
        RedisActorQuiet(s, l, cfg, c);
      } else {
        DatabaseActorQuiet(s, l, cfg, c);
      }
    }
  }

  lemma {:induction false} ActorKnown(s: State, l: Label, cfg: Config, c: CallId)
    requires Enabled(s, l, cfg) && Actor(l) == Some(c) && !l.Arrive? && c in Apply(s, l, cfg).calls
    ensures c in s.calls
  {}

  // ------------------------------------------------- committed transactions

  /** The writer of a committed transaction only leaves by caching its response. */
  lemma {:induction false} WriterMoves(s: State, l: Label, cfg: Config, w: CallId)
    requires Ready(s, w) && Enabled(s, l, cfg) && Faultless(s, l) && Actor(l) == Some(w) && cfg.cacheTtl > 0
    requires StillAt(s.calls[w].pc) && StatusIs(s.db, w, Committed, Committed)
    ensures w in Apply(s, l, cfg).calls
    ensures StillAt(Apply(s, l, cfg).calls[w].pc) || LiveEntry(Apply(s, l, cfg), PairOf(s.calls[w]))
  {}

  lemma {:induction false} WriterOf(db: Db, id: Uuid)
    requires DbInv(db) && id in db.committed
    ensures id in db.heap && StatusIs(db, db.heap[id].writer, Committed, Committed)
    ensures db.sessions[db.heap[id].writer].tx == Some(id)
  {
    assert DatabaseInv.HeapRowOk(db, id);
  }

  lemma {:induction false} WriterPair(s: State, id: Uuid)
    requires Inv(s) && id in s.db.committed
    ensures id in s.db.heap && s.db.heap[id].writer in s.calls
    ensures PairOf(s.calls[s.db.heap[id].writer]) == Pair(s.db.heap[id].tenant, s.db.heap[id].key)
  {
    WriterOf(s.db, id);
    InvAt(s, s.db.heap[id].writer);
  }

  lemma {:induction false} OldStaysCovered(s: State, l: Label, cfg: Config, id: Uuid)
    requires Inv(s) && Quiet(s) && Enabled(s, l, cfg) && Faultless(s, l) && cfg.cacheTtl > 0
    requires id in s.db.committed
    ensures Covered(Apply(s, l, cfg), id)
  {
    var s' := Apply(s, l, cfg);
    WriterOf(s.db, id);
    WriterPair(s, id);
    StepKeepsInv(s, l, cfg);
    var w := s.db.heap[id].writer;
    assert s'.db.heap[id] == s.db.heap[id] && Covered(s, id);
    if LiveEntry(s, PairOf(s.calls[w])) {
      EntryStays(s, l, cfg, PairOf(s.calls[w]));
    } else if Actor(l) != Some(w) {
      OtherCallsUntouched(s, l, cfg, w);
    } else {
      InvAt(s, w);
      assert CallQuiet(s, w);
      WriterMoves(s, l, cfg, w);
    }
  }

  lemma {:induction false} RequestedFrom(s: State, c: CallId)
    requires Ready(s, c) && CanCommit(s.db, c)
    ensures s.calls[c].pc.AwaitingCommit? || s.calls[c].pc.Crashed?
  {}

  lemma {:induction false} NewIsCovered(s: State, c: CallId, cfg: Config)
    requires Inv(s) && Quiet(s) && Enabled(s, ServerCommit(c), cfg)
    ensures c in s.db.sessions && s.db.sessions[c].tx.Some? && Covered(AfterServerCommit(s, c), s.db.sessions[c].tx.value)
  {
    assert c in s.calls;
    InvAt(s, c);
    assert CallQuiet(s, c) && DatabaseInv.SessionOk(s.db, c);
    RequestedFrom(s, c);
  }

  lemma {:induction false} NewlyCommitted(s: State, l: Label, cfg: Config, id: Uuid)
    requires Inv(s) && Enabled(s, l, cfg) && id !in s.db.committed && id in Apply(s, l, cfg).db.committed
    ensures l.ServerCommit? && l.c in s.db.sessions && s.db.sessions[l.c].tx == Some(id)
  {
    if l.InsertLeg? {
      AccountHistory.LegIsInvisible(s, l.c, l.outcome, cfg);
    } else if !l.ServerCommit? {
      AccountHistory.OtherStepsAddNothing(s, l, cfg);
    }
  }

  lemma {:induction false} StepKeepsQuiet(s: State, l: Label, cfg: Config)
    requires Inv(s) && Quiet(s) && Enabled(s, l, cfg) && Faultless(s, l)
    requires cfg.lockTtl > 0 && cfg.cacheTtl > 0
    ensures Quiet(Apply(s, l, cfg))
  {
    var s' := Apply(s, l, cfg);
    forall c | c in s'.calls ensures CallQuiet(s', c) {
      if Actor(l) == Some(c) {
        ActorQuiet(s, l, cfg, c);
      } else {
        OtherCallsUntouched(s, l, cfg, c);
        OtherHolds(s, l, cfg, c);
        OtherStage(s, l, cfg, c);
      }
    }
    forall id | id in s'.db.committed ensures Covered(s', id) {
      if id in s.db.committed {
        OldStaysCovered(s, l, cfg, id);
      } else {
        NewlyCommitted(s, l, cfg, id);
        NewIsCovered(s, l.c, cfg);
      }
    }
  }

  lemma {:induction false} RunKeepsQuiet(s: State, ls: seq<Label>, cfg: Config)
    requires Inv(s) && Quiet(s) && Legal(s, ls, cfg) && AllFaultless(s, ls, cfg)
    requires cfg.lockTtl > 0 && cfg.cacheTtl > 0
    ensures Inv(Run(s, ls, cfg)) && Quiet(Run(s, ls, cfg))
    decreases |ls|
  {
    if |ls| > 0 {
      StepKeepsInv(s, ls[0], cfg);
      StepKeepsQuiet(s, ls[0], cfg);
      RunKeepsQuiet(Apply(s, ls[0], cfg), ls[1..], cfg);
    }
  }

  // ------------------------------------------------------------- main results

  /** Reached from an empty system by a run without infrastructure faults. */
  ghost predicate ReachesFaultlessly(s0: State, ls: seq<Label>, s: State, cfg: Config) {
    && Reaches(s0, ls, s, cfg) && AllFaultless(s0, ls, cfg)
    && cfg.lockTtl > 0 && cfg.cacheTtl > 0
  }

  lemma {:induction false} FaultlesslyQuiet(s0: State, ls: seq<Label>, s: State, cfg: Config)
    requires ReachesFaultlessly(s0, ls, s, cfg)
    ensures Inv(s) && Quiet(s)
  {
    EmptyOk();
    RunKeepsQuiet(s0, ls, cfg);
  }

  /** A live row of the pair would have its writer in the critical section too. */
  lemma {:induction false} RowMeansHolder(s: State, c: CallId, id: Uuid)
    requires Inv(s) && Quiet(s) && At(s, c, InsertingTx)
    ensures !Occupies(s.db, id, s.calls[c].tenant, s.calls[c].req.key)
  {
    if Occupies(s.db, id, s.calls[c].tenant, s.calls[c].req.key) {
      assert DatabaseInv.HeapRowOk(s.db, id);
      var w := s.db.heap[id].writer;
      InvAt(s, w);
      InvAt(s, c);
      assert CallQuiet(s, w) && CallQuiet(s, c);
      if id in s.db.committed {
        assert Covered(s, id);
      }
      OneHolder(s, c, w);
      assert false;
    }
  }

  /** The unique index never rejects an insert, nor makes one wait: when a call
      comes to insert its transaction, no unfinished or committed row has its key. */
  lemma {:induction false} UniqueIndexNeverHit(s0: State, ls: seq<Label>, s: State, cfg: Config, c: CallId)
    requires ReachesFaultlessly(s0, ls, s, cfg) && At(s, c, InsertingTx)
    ensures KeyFree(s.db, s.calls[c].tenant, s.calls[c].req.key)
    ensures !Enabled(s, DuplicateKey(c), cfg)
  {
    FaultlesslyQuiet(s0, ls, s, cfg);
    forall id ensures !Occupies(s.db, id, s.calls[c].tenant, s.calls[c].req.key) {
      RowMeansHolder(s, c, id);
    }
  }

  lemma {:induction false} EntryNamesIt(s: State, p: Pair, id: Uuid)
    requires Inv(s) && LiveEntry(s, p) && CommittedFor(s.db, id, p)
    ensures s.cache[p].response.id == id
  {
    assert ResponseOk(s.db, s.cache[p].response, p.tenant, p.key);
    CommittedIsAlive(s.db, id);
    CommittedIsAlive(s.db, s.cache[p].response.id);
  }

  lemma {:induction false} ReaderFindsEntry(s: State, c: CallId, id: Uuid)
    requires Inv(s) && Quiet(s) && At(s, c, ReadingCache) && CommittedFor(s.db, id, PairOf(s.calls[c]))
    ensures LiveEntry(s, PairOf(s.calls[c]))
  {
    assert Covered(s, id) && CallQuiet(s, c);
    WriterOf(s.db, id);
    WriterPair(s, id);
    InvAt(s, c);
    var w := s.db.heap[id].writer;
    assert CallQuiet(s, w);
    if !LiveEntry(s, PairOf(s.calls[c])) {
      OneHolder(s, c, w);
      assert false;
    }
  }

  /** A call that obtained the lock once its key has a committed transaction can
      only replay the stored response, which is that transaction's. */
  lemma {:induction false} LateCallReplays(s0: State, ls: seq<Label>, s: State, cfg: Config, c: CallId, id: Uuid, hit: bool)
    requires ReachesFaultlessly(s0, ls, s, cfg)
    requires At(s, c, ReadingCache) && CommittedFor(s.db, id, PairOf(s.calls[c]))
    requires Enabled(s, ReadCache(c, hit), cfg) && Faultless(s, ReadCache(c, hit))
    ensures hit && LiveEntry(s, PairOf(s.calls[c]))
    ensures var r := s.cache[PairOf(s.calls[c])].response;
      && r.id == id && AgreesWith(r, GetTransaction(s.db, s.calls[c].tenant, id))
      && Apply(s, ReadCache(c, hit), cfg).calls[c].pc == Releasing(Ok(r))
  {
    FaultlesslyQuiet(s0, ls, s, cfg);
    var p := PairOf(s.calls[c]);
    ReaderFindsEntry(s, c, id);
    EntryNamesIt(s, p, id);
    assert ResponseOk(s.db, s.cache[p].response, p.tenant, p.key);
    ResponseAgrees(s.db, s.cache[p].response, p.tenant, p.key);
  }

  /** All calls that succeed for a pair return the very same response, posting
      list included, even when the fetch after commit had failed. */
  lemma {:induction false} RepliesIdentical(s0: State, ls: seq<Label>, s: State, cfg: Config, c: CallId, d: CallId)
    requires ReachesFaultlessly(s0, ls, s, cfg)
    requires HasSucceeded(s, c) && HasSucceeded(s, d) && PairOf(s.calls[c]) == PairOf(s.calls[d])
    ensures ResultOf(s, c) == ResultOf(s, d)
  {
    FaultlesslyQuiet(s0, ls, s, cfg);
    assert CallQuiet(s, c) && CallQuiet(s, d);
  }
}
