/** CreateTransaction as the service runs it, statement by statement, while the
    rest of the world moves between any two statements. Each call is shown to be a
    run of the transition system in Protocol. */
module LedgerServices {
  import opened Core
  import opened Balance
  import opened Validation
  import opened Database
  import opened DatabaseInv
  import opened Protocol
  import opened ProtocolInv
  import opened ProtocolSafety
  import opened Timestamps

  /** How one statement fares: what everybody else does before it, whether its
      reply arrives, and whether it takes effect when the reply is lost. */
  datatype Fate = Fate(before: seq<Label>, ok: bool, effective: bool)

  const LOST: Fate := Fate([], false, false)
  const SMOOTH: Fate := Fate([], true, true)

  datatype Script = Script(
    id: Uuid,
    eventId: Uuid,
    lock: seq<Fate>,
    cache: Fate,
    begin: Fate,
    row: Fate,
    legs: seq<Fate>,
    outbox: Fate,
    commit: Fate,
    reply: Fate,
    rollback: Fate,
    fetch: Fate,
    store: Fate,
    release: Fate)

  /** One attempt and five retries. */
  const LOCK_ATTEMPTS: nat := 6

  function FateAt(fates: seq<Fate>, i: nat): Fate {
    if i < |fates| then fates[i] else LOST
  }

  predicate AllSmooth(fates: seq<Fate>, n: nat) {
    forall i :: 0 <= i < n ==> FateAt(fates, i) == SMOOTH
  }

  /** Every statement gets through, and the server commits when asked to. */
  predicate SmoothTransaction(script: Script, c: CallId, n: nat) {
    && script.row == SMOOTH && AllSmooth(script.legs, n) && script.outbox == SMOOTH
    && script.commit == SMOOTH && script.reply == Fate([ServerCommit(c)], true, true)
  }

  /** The call's own statements get through, and c's way from here on is clear. */
  predicate Unhindered(s: State, c: CallId, script: Script) {
    c in s.calls && SmoothCall(script, c, |s.calls[c].req.postings|) && Clear(s, c, script.id)
  }

  predicate SmoothCall(script: Script, c: CallId, n: nat) {
    && FateAt(script.lock, 0) == SMOOTH && script.cache == SMOOTH && script.begin == SMOOTH
    && SmoothTransaction(script, c, n)
  }

  function OutcomeOf(can: bool, fate: Fate): Outcome {
    if !can then Rejected
    else if fate.ok then Succeeded
    else if fate.effective then ReplyLost
    else Rejected
  }

  /** Steps of the call's own code; the server may end its transaction unasked. */
  predicate IsOwn(l: Label, c: CallId) {
    Actor(l) == Some(c) && !l.ServerCommit? && !l.ServerAbort?
  }

  lemma {:induction false} WorldLeavesCall(s: State, l: Label, cfg: Config, c: CallId)
    requires Enabled(s, l, cfg) && !IsOwn(l, c) && c in s.calls
    ensures c in Apply(s, l, cfg).calls && Apply(s, l, cfg).calls[c] == s.calls[c]
  {
    if Actor(l) == Some(c) {
      CallsLeftAlone(s, l, cfg);
    } else {
      OtherCallsUntouched(s, l, cfg, c);
    }
  }

  /** What call c's database transaction inserted into transactions stays. */
  predicate KeepsTx(db: Db, db': Db, c: CallId) {
    && (c in db.sessions ==> c in db'.sessions && db'.sessions[c].tx == db.sessions[c].tx)
    && (HasRow(db, c) ==> HasRow(db', c) && RowOf(db', c) == RowOf(db, c))
  }

  lemma {:induction false} WorldKeepsTx(s: State, l: Label, cfg: Config, c: CallId)
    requires Enabled(s, l, cfg) && !IsOwn(l, c)
    ensures KeepsTx(s.db, Apply(s, l, cfg).db, c)
  {
    StepGrowsHeap(s, l, cfg);
    if Actor(l) != Some(c) {
      OtherSessionsUntouched(s, l, cfg, c);
    } else {
      ServerKeepsTx(s, l, cfg, c);
    }
  }

  lemma {:induction false} ServerKeepsTx(s: State, l: Label, cfg: Config, c: CallId)
    requires Enabled(s, l, cfg) && (l == ServerCommit(c) || l == ServerAbort(c)) && c in s.db.sessions
    ensures c in Apply(s, l, cfg).db.sessions && Apply(s, l, cfg).db.sessions[c].tx == s.db.sessions[c].tx
  {
    if l == ServerCommit(c) {
      assert Apply(s, l, cfg).db == Commit(s.db, c);
    } else {
      assert Apply(s, l, cfg).db == SetStatus(s.db, c, Aborted);
    }
  }

  /** No lock is gone but one that c itself holds alive. */
  predicate OthersKeepLocks(s: State, s': State, c: CallId) {
    forall p :: p in s.locks && (s.locks[p].owner != c || !LiveLock(s, p)) ==> p in s'.locks && s'.locks[p] == s.locks[p]
  }

  /** A committed transaction has call c's tenant and key. */
  predicate TakenAt(s: State, c: CallId) {
    c in s.calls && KeyTaken(s.db, s.calls[c].tenant, s.calls[c].req.key)
  }

  predicate BeforeBegin(pc: Pc) {
    pc.Validating? || pc.WantLock? || pc.Beginning?
  }

  predicate BeforeCommit(pc: Pc) {
    BeforeBegin(pc) || pc.InsertingTx? || pc.InsertingPostings? || pc.Committing?
  }

  /** A call that has not sent COMMIT has an open or a rolled-back transaction. */
  lemma {:induction false} NotSentYet(s: State, c: CallId)
    requires Inv(s) && c in s.calls && BeforeCommit(s.calls[c].pc)
    ensures c in s.db.sessions ==> StatusIs(s.db, c, Open, Aborted)
    ensures BeforeBegin(s.calls[c].pc) ==> c !in s.db.sessions
  {
    InvAt(s, c);
  }

  /** What everybody else's steps come to, those that cannot happen left out. */
  function Played(s: State, others: seq<Label>, c: CallId, cfg: Config): State {
    if |others| == 0 then s
    else
      var before, l := Played(s, others[..|others| - 1], c, cfg), others[|others| - 1];
      if !IsOwn(l, c) && Enabled(before, l, cfg) then Apply(before, l, cfg) else before
  }

  /** What attempt i at the lock finds; refusals change nothing. */
  function Waited(s: State, attempts: seq<Fate>, i: nat, c: CallId, cfg: Config): State {
    Played(if i == 0 then s else Waited(s, attempts, i - 1, c, cfg), FateAt(attempts, i).before, c, cfg)
  }

  predicate RefusedAt(s: State, attempts: seq<Fate>, i: nat, c: CallId, cfg: Config)
    requires c in s.calls
  {
    FateAt(attempts, i).ok && LiveLock(Waited(s, attempts, i, c, cfg), PairOf(s.calls[c]))
  }

  /** Attempt i is the first to find the lock free, and Redis answers until then. */
  predicate ObtainsAt(s: State, attempts: seq<Fate>, i: nat, c: CallId, cfg: Config)
    requires c in s.calls
  {
    && (forall j :: 0 <= j < i ==> RefusedAt(s, attempts, j, c, cfg))
    && FateAt(attempts, i).ok && !LiveLock(Waited(s, attempts, i, c, cfg), PairOf(s.calls[c]))
  }

  predicate ObtainedAt(s: State, s': State, attempts: seq<Fate>, i: nat, c: CallId, cfg: Config) {
    && c in s.calls && ObtainsAt(s, attempts, i, c, cfg)
    && c in Waited(s, attempts, i, c, cfg).calls
    && s' == AfterObtain(Waited(s, attempts, i, c, cfg), c, Granted, cfg)
  }

  /** What an attempt at p's lock comes to: nothing, or taken, or an error. */
  function AttemptEnds(found: State, p: Pair, fate: Fate): Option<bool> {
    if !fate.ok then Some(false) else if LiveLock(found, p) then None else Some(true)
  }

  predicate TookLock(found: State, s: State, c: CallId, cfg: Config) {
    c in found.calls && s == AfterObtain(found, c, Granted, cfg) && HasLock(s, c, cfg)
  }

  /** The loop after i refusals. */
  ghost predicate RefusedUpTo(s0: State, s: State, attempts: seq<Fate>, i: nat, c: CallId, cfg: Config) {
    && c in s0.calls && (forall j :: 0 <= j < i ==> RefusedAt(s0, attempts, j, c, cfg))
    && s == if i == 0 then s0 else Waited(s0, attempts, i - 1, c, cfg)
  }

  lemma {:induction false} WhatAttemptFinds(s0: State, s: State, attempts: seq<Fate>, i: nat, c: CallId, cfg: Config)
    requires RefusedUpTo(s0, s, attempts, i, c, cfg)
    ensures var found := Played(s, FateAt(attempts, i).before, c, cfg);
      && Waited(s0, attempts, i, c, cfg) == found
      && (FateAt(attempts, i).ok && !LiveLock(found, PairOf(s0.calls[c])) ==> ObtainsAt(s0, attempts, i, c, cfg))
      && (FateAt(attempts, i).ok && LiveLock(found, PairOf(s0.calls[c])) ==> RefusedUpTo(s0, found, attempts, i + 1, c, cfg))
  {}

  predicate HasLock(s: State, c: CallId, cfg: Config) {
    c in s.calls && PairOf(s.calls[c]) in s.locks && s.locks[PairOf(s.calls[c])] == Lock(c, s.now + cfg.lockTtl)
  }

  predicate NeverFree(s: State, attempts: seq<Fate>, c: CallId, cfg: Config) {
    c in s.calls && forall i :: 0 <= i < 6 ==> !ObtainsAt(s, attempts, i, c, cfg)
  }

  lemma {:induction false} NoneObtains(s: State, asked: State, attempts: seq<Fate>, i: nat, c: CallId, cfg: Config)
    requires RefusedUpTo(s, asked, attempts, i, c, cfg)
    requires i >= LOCK_ATTEMPTS || !FateAt(attempts, i).ok
    ensures NeverFree(s, attempts, c, cfg)
  {
    forall k | 0 <= k < LOCK_ATTEMPTS ensures !ObtainsAt(s, attempts, k, c, cfg) {
      if k < i {
        assert RefusedAt(s, attempts, k, c, cfg);
      } else if k > i {
        assert !RefusedAt(s, attempts, i, c, cfg);
      }
    }
  }

  /** Of all attempts one at most can be the one that obtains the lock. */
  lemma {:induction false} ObtainsOnce(s: State, attempts: seq<Fate>, i: nat, j: nat, c: CallId, cfg: Config)
    requires c in s.calls && ObtainsAt(s, attempts, i, c, cfg) && ObtainsAt(s, attempts, j, c, cfg)
    ensures i == j
  {
    assert i < j ==> RefusedAt(s, attempts, i, c, cfg);
    assert j < i ==> RefusedAt(s, attempts, j, c, cfg);
  }

  lemma {:induction false} FreeAtOnce(s: State, attempts: seq<Fate>, c: CallId, cfg: Config)
    requires c in s.calls && FateAt(attempts, 0) == SMOOTH && !LiveLock(s, PairOf(s.calls[c]))
    ensures ObtainsAt(s, attempts, 0, c, cfg) && Waited(s, attempts, 0, c, cfg) == s
  {}

  /** COMMIT has been sent for the call's transaction. */
  function Requested(s: State, c: CallId): State
    requires c in s.calls && c in s.db.sessions
  {
    Goto(s.(db := SetStatus(s.db, c, CommitRequested)), c, AwaitingCommit)
  }

  /** The state in which the call, just arrived and valid, asks for its lock. */
  function Waiting(s: State, c: CallId, tenant: Uuid, req: Request): State {
    Arrived(s, c, tenant, req, WantLock)
  }

  /** A call that came in just now and has got as far as pc. */
  function Arrived(s: State, c: CallId, tenant: Uuid, req: Request, pc: Pc): State {
    s.(calls := s.calls[c := Call(tenant, req, s.now, pc)])
  }

  function Judged(verdict: Verdict): Pc {
    if verdict == Accept then WantLock else Done(Err(Invalid(verdict)))
  }

  lemma {:induction false} JustArrived(s: State, c: CallId, tenant: Uuid, req: Request, pc: Pc)
    ensures Goto(Arrived(s, c, tenant, req, Validating), c, pc) == Arrived(s, c, tenant, req, pc)
  {
    assert s.calls[c := Call(tenant, req, s.now, Validating)][c := Call(tenant, req, s.now, pc)]
        == s.calls[c := Call(tenant, req, s.now, pc)];
  }

  /** The pair's response is cached and its lock is free. */
  predicate Repeats(s: State, p: Pair) {
    !LiveLock(s, p) && LiveEntry(s, p)
  }

  /** Redis answers the lock request and the cache lookup. */
  predicate RedisAnswers(script: Script) {
    FateAt(script.lock, 0) == SMOOTH && script.cache == SMOOTH
  }

  /** The call succeeded with its own transaction, created at that time. */
  predicate Answered(result: Result<Response, Error>, script: Script, req: Request, at: nat) {
    result.Ok? && Answers(result.value, script.id, req, script.fetch.ok) && result.value.createdAt == at
  }

  /** The server commits as asked, and says so. */
  predicate CommitsAtOnce(s: State, c: CallId, fate: Fate) {
    && fate == Fate([ServerCommit(c)], true, true) && CanCommit(s.db, c)
    && StatusIs(AfterServerCommit(s, c).db, c, Committed, Committed)
  }

  lemma {:induction false} PlayedCommit(s: State, c: CallId, cfg: Config)
    requires CanCommit(s.db, c)
    ensures Played(s, [ServerCommit(c)], c, cfg) == AfterServerCommit(s, c)
  {
    assert [ServerCommit(c)][..0] == [];
    assert Played(s, [], c, cfg) == s;
  }

  // ---------------------------------------------- a call nothing stands in the way of

  predicate OpenSession(db: Db, c: CallId) {
    c in db.sessions && db.sessions[c].status.Open?
  }

  predicate Insertable(db: Db, call: Call, id: Uuid) {
    id !in db.heap && KeyFree(db, call.tenant, call.req.key)
  }

  /** The request is one the database takes: valid, exactly balanced, its sums within
      BIGINT, its accounts there. */
  predicate Acceptable(db: Db, req: Request) {
    && ServiceAccepts(req) && TriggerAccepts(req.postings)
    && forall i :: 0 <= i < |req.postings| ==> req.postings[i].account in db.accounts
  }

  /** The transaction of call c is id, and began when the call arrived. */
  predicate BeganAtOnce(s: State, c: CallId, id: Uuid)
    requires c in s.calls
  {
    HasRow(s.db, c) && s.db.sessions[c].tx == Some(id) && RowOf(s.db, c).createdAt == s.calls[c].arrivedAt
  }

  /** Nothing in the tables or in Redis is in the way of call c, to become id, and
      no time has passed since it arrived. */
  predicate Clear(s: State, c: CallId, id: Uuid) {
    && c in s.calls && Acceptable(s.db, s.calls[c].req) && s.now == s.calls[c].arrivedAt
    && (match s.calls[c].pc
        case WantLock =>
          !LiveLock(s, PairOf(s.calls[c])) && !LiveEntry(s, PairOf(s.calls[c])) && Insertable(s.db, s.calls[c], id)
        case ReadingCache => !LiveEntry(s, PairOf(s.calls[c])) && Insertable(s.db, s.calls[c], id)
        case Beginning => Insertable(s.db, s.calls[c], id)
        case InsertingTx => OpenSession(s.db, c) && s.db.sessions[c].startedAt == s.now && Insertable(s.db, s.calls[c], id)
        case InsertingPostings(_) => OpenSession(s.db, c) && BeganAtOnce(s, c, id)
        case Committing => OpenSession(s.db, c) && BeganAtOnce(s, c, id)
        case Fetching => BeganAtOnce(s, c, id)
        case _ => false)
  }

  lemma {:induction false} ClearBegin(s: State, c: CallId, id: Uuid)
    requires Inv(s) && Clear(s, c, id) && s.calls[c].pc.Beginning?
    ensures Clear(Goto(s.(db := Begin(s.db, c, s.now)), c, InsertingTx), c, id)
  {
    InvAt(s, c);
    var db' := Begin(s.db, c, s.now);
    forall x | x in db'.heap ensures !Occupies(db', x, s.calls[c].tenant, s.calls[c].req.key) {
      assert DatabaseInv.HeapRowOk(s.db, x);
    }
  }

  lemma {:induction false} ClearCanInsert(s: State, c: CallId, id: Uuid)
    requires Inv(s) && Clear(s, c, id) && s.calls[c].pc.InsertingTx?
    ensures CanInsertTx(s.db, c, id, s.calls[c].tenant, s.calls[c].req.key)
    ensures !KeyTaken(s.db, s.calls[c].tenant, s.calls[c].req.key)
  {
    InvAt(s, c);
    assert DatabaseInv.SessionOk(s.db, c);
  }

  lemma {:induction false} ClearInsertRow(s: State, c: CallId, id: Uuid)
    requires Inv(s) && Clear(s, c, id) && s.calls[c].pc.InsertingTx?
    ensures CanInsertTx(s.db, c, id, s.calls[c].tenant, s.calls[c].req.key)
    ensures !KeyTaken(s.db, s.calls[c].tenant, s.calls[c].req.key)
    ensures Clear(AfterInsertRow(s, c, id, Succeeded), c, id)
  {
    ClearCanInsert(s, c, id);
  }

  lemma {:induction false} ClearInsertLeg(s: State, c: CallId, id: Uuid)
    requires Inv(s) && Clear(s, c, id) && s.calls[c].pc.InsertingPostings? && s.calls[c].pc.next < |s.calls[c].req.postings|
    ensures CanInsertPosting(s.db, c, s.calls[c].req.postings[s.calls[c].pc.next])
    ensures Clear(AfterInsertLeg(s, c, Succeeded), c, id)
  {
    InvAt(s, c);
    NoFaultIsWellFormed(s.calls[c].req.postings);
  }

  lemma {:induction false} ClearInsertOutbox(s: State, c: CallId, id: Uuid, eventId: Uuid)
    requires Inv(s) && Clear(s, c, id) && s.calls[c].pc.InsertingPostings?
    ensures CanInsertEvent(s.db, c) && HasRow(s.db, c)
    ensures Clear(AfterInsertOutbox(s, c, eventId, Succeeded), c, id)
  {
    InvAt(s, c);
  }

  lemma {:induction false} ClearCanCommit(s: State, c: CallId, id: Uuid)
    requires Inv(s) && Clear(s, c, id) && s.calls[c].pc.Committing?
    ensures CanCommit(SetStatus(s.db, c, CommitRequested), c)
  {
    InvAt(s, c);
    var db' := SetStatus(s.db, c, CommitRequested);
    assert LegsOf(db', id) == LegsOf(s.db, id) == s.calls[c].req.postings;
  }

  lemma {:induction false} ClearCommit(s: State, c: CallId, id: Uuid)
    requires Inv(s) && Clear(s, c, id) && s.calls[c].pc.Committing?
    ensures var sent := Requested(s, c);
      CanCommit(sent.db, c) && Clear(Goto(AfterServerCommit(sent, c), c, Fetching), c, id)
      && StatusIs(AfterServerCommit(sent, c).db, c, Committed, Committed)
  {
    ClearCanCommit(s, c, id);
    StaysClear(s, c, id);
  }

  lemma {:induction false} StaysClear(s: State, c: CallId, id: Uuid)
    requires Clear(s, c, id) && s.calls[c].pc.Committing?
    ensures var after := AfterServerCommit(Requested(s, c), c);
      Clear(Goto(after, c, Fetching), c, id) && StatusIs(after.db, c, Committed, Committed)
  {}

  /** The response to a call whose transaction is id. */
  predicate Answers(r: Response, id: Uuid, req: Request, fetched: bool) {
    && r.id == id && r.key == req.key && r.description == req.description
    && r.metadata == (if req.metadata.Some? then req.metadata.value else "{}")
    && (r.postings.Some? <==> fetched)
    && (fetched ==> LegsShown(r.postings.value) == req.postings)
  }

  lemma {:induction false} FetchAnswers(s: State, c: CallId, id: Uuid, ok: bool)
    requires At(s, c, Fetching) && c in s.db.sessions && s.db.sessions[c].tx == Some(id)
    requires DbInv(s.db) && CallOk(s.db, c, s.calls[c])
    ensures HasRow(s.db, c) && Answers(AfterFetch(s, c, ok).calls[c].pc.response, id, s.calls[c].req, ok)
  {
    SelectShowsLegs(s.db, |s.db.postings|, id);
  }

  class LedgerService {
    const cfg: Config
    /** Database, Redis, broker and the calls in flight. */
    var s: State
    ghost const start: State
    ghost var trace: seq<Label>

    /** What has happened since the start is a run of the protocol. */
    ghost predicate Valid()
      reads this
    {
      Inv(start) && Legal(start, trace, cfg) && Run(start, trace, cfg) == s
    }

    lemma {:induction false} KeepsInv()
      requires Valid()
      ensures Inv(s)
    {
      RunKeepsInv(start, trace, cfg);
    }

    lemma {:induction false} NotSent(c: CallId)
      requires Valid() && c in s.calls && BeforeCommit(s.calls[c].pc)
      ensures c in s.db.sessions ==> StatusIs(s.db, c, Open, Aborted)
      ensures BeforeBegin(s.calls[c].pc) ==> c !in s.db.sessions
    {
      KeepsInv();
      NotSentYet(s, c);
    }

    lemma {:induction false} NewCallHasNoSession(c: CallId)
      requires Valid() && c !in s.calls
      ensures c !in s.db.sessions
    {
      KeepsInv();
    }

    lemma {:induction false} LeavesNothing(c: CallId)
      requires Valid() && GaveUp(s, c)
      ensures NoTraceOf(s, c)
    {
      KeepsInv();
      GaveUpLeavesNothing(s, c);
    }

    lemma {:induction false} StaysGivenUp(c: CallId, l: Label)
      requires Valid() && GaveUp(s, c) && Enabled(s, l, cfg)
      ensures GaveUp(Apply(s, l, cfg), c)
    {
      KeepsInv();
      GaveUpStays(s, l, cfg, c);
    }

    lemma {:induction false} AgreesWhenDone(c: CallId)
      requires Valid() && HasSucceeded(s, c)
      ensures ResultOf(s, c).key == s.calls[c].req.key
      ensures AgreesWith(ResultOf(s, c), GetTransaction(s.db, s.calls[c].tenant, ResultOf(s, c).id))
    {
      KeepsInv();
      SuccessOk(s, c);
      ResponseAgrees(s.db, ResultOf(s, c), s.calls[c].tenant, s.calls[c].req.key);
    }

    lemma {:induction false} RowIsThere(c: CallId)
      requires Valid() && At(s, c, Fetching)
      ensures HasRow(s.db, c)
    {
      KeepsInv();
      InvAt(s, c);
    }

    lemma {:induction false} RowAnswers(c: CallId, ok: bool)
      requires Valid() && At(s, c, Fetching)
      ensures HasRow(s.db, c)
      ensures Answers(AfterFetch(s, c, ok).calls[c].pc.response, s.db.sessions[c].tx.value, s.calls[c].req, ok)
    {
      RowIsThere(c);
      KeepsInv();
      InvAt(s, c);
      FetchAnswers(s, c, s.db.sessions[c].tx.value, ok);
    }

    constructor (cfg: Config, s: State)
      requires Inv(s)
      ensures Valid() && this.cfg == cfg && this.s == s && start == s && trace == []
    {
      this.cfg, this.s, this.start, this.trace := cfg, s, s, [];
    }

    method Step(l: Label)
      requires Valid() && Enabled(s, l, cfg)
      modifies this`s, this`trace
      ensures Valid() && s == Apply(old(s), l, cfg) && trace == old(trace) + [l]
    {
      RunSnoc(start, trace, l, cfg);
      s := Apply(s, l, cfg);
      trace := trace + [l];
    }

    /** Everybody else moves; what cannot happen in this state does not. */
    method Interfere(c: CallId, others: seq<Label>)
      requires Valid() && c in s.calls
      modifies this`s, this`trace
      ensures Valid() && old(trace) <= trace
      ensures c in s.calls && s.calls[c] == old(s).calls[c]
      ensures GaveUp(old(s), c) ==> GaveUp(s, c)
      ensures s == Played(old(s), others, c, cfg)
      ensures KeepsTx(old(s).db, s.db, c)
    {
      for i := 0 to |others|
        invariant Valid() && old(trace) <= trace
        invariant s == Played(old(s), others[..i], c, cfg)
        invariant c in s.calls && s.calls[c] == old(s).calls[c]
        invariant GaveUp(old(s), c) ==> GaveUp(s, c)
        invariant KeepsTx(old(s).db, s.db, c)
      {
        assert others[..i + 1][..i] == others[..i];
        if !IsOwn(others[i], c) && Enabled(s, others[i], cfg) {
          WorldLeavesCall(s, others[i], cfg, c);
          WorldKeepsTx(s, others[i], cfg, c);
          if GaveUp(s, c) {
            StaysGivenUp(c, others[i]);
          }
          Step(others[i]);
        }
      }
      assert others[..|others|] == others;
    }

    /** Where the call is now, everything else about it being as before. */
    twostate predicate Moved(c: CallId, pc: Pc)
      reads this
    {
      && Valid() && old(trace) <= trace
      && c in old(s).calls && c in s.calls && s.calls[c] == old(s).calls[c].(pc := pc)
    }

    method TakeLock(c: CallId)
      requires Valid() && At(s, c, WantLock) && !LiveLock(s, PairOf(s.calls[c]))
      modifies this`s, this`trace
      ensures Moved(c, ReadingCache) && s == AfterObtain(old(s), c, Granted, cfg) && HasLock(s, c, cfg)
    {
      Step(Obtain(c, Granted));
    }

    /** The lock may have been set all the same, if only the answer was lost. */
    method GoWithout(c: CallId, lost: bool)
      requires Valid() && At(s, c, WantLock) && (lost ==> !LiveLock(s, PairOf(s.calls[c])))
      modifies this`s, this`trace
      ensures Moved(c, Done(Err(LockAcquisitionFailed))) && GaveUp(s, c)
      ensures if lost then HasLock(s, c, cfg) else s.locks == old(s).locks
    {
      NotSent(c);
      Step(Obtain(c, if lost then GrantLost else Refused));
    }

    /** One attempt at the lock: taken, given up on an error, or none of the two. */
    method Attempt(c: CallId, fate: Fate) returns (taken: Option<bool>)
      requires Valid() && At(s, c, WantLock)
      modifies this`s, this`trace
      ensures Moved(c, if taken.None? then WantLock else if taken.value then ReadingCache else Done(Err(LockAcquisitionFailed)))
      ensures taken == AttemptEnds(Played(old(s), fate.before, c, cfg), PairOf(old(s).calls[c]), fate)
      ensures taken.None? ==> s == Played(old(s), fate.before, c, cfg)
      ensures taken == Some(true) ==> TookLock(Played(old(s), fate.before, c, cfg), s, c, cfg)
      ensures taken == Some(false) ==> GaveUp(s, c)
    {
      var p := PairOf(s.calls[c]);
      Interfere(c, fate.before);
      var free := !LiveLock(s, p);
      if !fate.ok {
        GoWithout(c, free && fate.effective);
        return Some(false);
      }
      if free {
        TakeLock(c);
        return Some(true);
      }
      taken := None;
    }

    /** Obtain with linear back-off: a live lock is asked for again, five times; a
        Redis error is not retried. */
    method ObtainLock(c: CallId, attempts: seq<Fate>) returns (ok: bool, ghost at: nat)
      requires Valid() && At(s, c, WantLock)
      modifies this`s, this`trace
      ensures Moved(c, if ok then ReadingCache else Done(Err(LockAcquisitionFailed)))
      ensures ok ==> HasLock(s, c, cfg)
      ensures !ok ==> GaveUp(s, c)
      ensures ok ==> at < 6 && ObtainedAt(old(s), s, attempts, at, c, cfg)
      ensures !ok ==> NeverFree(old(s), attempts, c, cfg)
    {
      at := 0;
      for i := 0 to LOCK_ATTEMPTS
        invariant Moved(c, WantLock)
        invariant RefusedUpTo(old(s), s, attempts, i, c, cfg)
      {
        ghost var asked := s;
        WhatAttemptFinds(old(s), asked, attempts, i, c, cfg);
        var taken := Attempt(c, FateAt(attempts, i));
        if taken == Some(false) {
          NoneObtains(old(s), asked, attempts, i, c, cfg);
          return false, i;
        }
        if taken == Some(true) {
          return true, i;
        }
      }
      NoneObtains(old(s), s, attempts, LOCK_ATTEMPTS, c, cfg);
      GoWithout(c, false);
      ok := false;
    }

    function Cached(p: Pair): Option<Response>
      reads this
    {
      if LiveEntry(s, p) then Some(s.cache[p].response) else None
    }

    /** A Redis error counts as a miss. */
    method ReadCached(c: CallId, fate: Fate) returns (replay: Option<Response>)
      requires Valid() && At(s, c, ReadingCache)
      modifies this`s, this`trace
      ensures Moved(c, if replay.Some? then Releasing(Ok(replay.value)) else Beginning)
      ensures replay == if fate.ok then Cached(PairOf(s.calls[c])) else None
      ensures fate == SMOOTH ==> replay == old(Cached(PairOf(s.calls[c]))) && s == AfterReadCache(old(s), c, replay.Some?)
    {
      Interfere(c, fate.before);
      replay := if fate.ok then Cached(PairOf(s.calls[c])) else None;
      Step(ReadCache(c, replay.Some?));
    }

    method BeginTransaction(c: CallId, fate: Fate, ghost id: Uuid) returns (ok: bool)
      requires Valid() && At(s, c, Beginning)
      modifies this`s, this`trace
      ensures Moved(c, if ok then InsertingTx else Releasing(Err(BeginFailed)))
      ensures !ok ==> GaveUp(s, c)
      ensures ok <==> fate.ok
      ensures ok ==> c in s.db.sessions && s.db.sessions[c] == Session(s.now, None, None, Open)
      ensures fate == SMOOTH && Clear(old(s), c, id) ==> ok && Clear(s, c, id)
    {
      Interfere(c, fate.before);
      NotSent(c);
      if Clear(s, c, id) {
        KeepsInv();
        ClearBegin(s, c, id);
      }
      ok := fate.ok;
      Step(BeginTx(c, ok));
    }

    method InsertTransaction(c: CallId, id: Uuid, fate: Fate) returns (ok: bool)
      requires Valid() && At(s, c, InsertingTx)
      modifies this`s, this`trace
      ensures Moved(c, if ok then InsertingPostings(0) else RollingBack(InsertTransactionFailed))
      ensures !ok ==> GaveUp(s, c)
      ensures TakenAt(Played(old(s), fate.before, c, cfg), c) ==> !ok && s.db == Played(old(s), fate.before, c, cfg).db
      ensures ok ==> HasRow(s.db, c) && s.db.sessions[c].tx == Some(id)
      ensures fate == SMOOTH && Clear(old(s), c, id) ==> ok && Clear(s, c, id)
    {
      Interfere(c, fate.before);
      NotSent(c);
      ghost var clear := Clear(s, c, id);
      if clear {
        KeepsInv();
        ClearInsertRow(s, c, id);
      }
      var call := s.calls[c];
      if KeyTaken(s.db, call.tenant, call.req.key) {
        Step(DuplicateKey(c));
        return false;
      }
      var outcome := OutcomeOf(CanInsertTx(s.db, c, id, call.tenant, call.req.key), fate);
      Step(InsertRow(c, id, outcome));
      ok := outcome.Succeeded?;
    }

    method InsertPosting(c: CallId, i: nat, fate: Fate, ghost id: Uuid) returns (ok: bool)
      requires Valid() && At(s, c, InsertingPostings(i)) && i < |s.calls[c].req.postings|
      modifies this`s, this`trace
      ensures Moved(c, if ok then InsertingPostings(i + 1) else RollingBack(InsertPostingFailed))
      ensures !ok ==> GaveUp(s, c)
      ensures fate == SMOOTH && Clear(old(s), c, id) ==> ok && Clear(s, c, id)
    {
      Interfere(c, fate.before);
      NotSent(c);
      if Clear(s, c, id) {
        assert CanInsertPosting(s.db, c, s.calls[c].req.postings[i]) && Clear(AfterInsertLeg(s, c, Succeeded), c, id) by {
          KeepsInv();
          ClearInsertLeg(s, c, id);
        }
      }
      var outcome := OutcomeOf(CanInsertPosting(s.db, c, s.calls[c].req.postings[i]), fate);
      Step(InsertLeg(c, outcome));
      ok := outcome.Succeeded?;
    }

    /** The insert loop stops at the first posting that fails. */
    method InsertPostings(c: CallId, fates: seq<Fate>, ghost id: Uuid) returns (ok: bool)
      requires Valid() && At(s, c, InsertingPostings(0))
      modifies this`s, this`trace
      ensures Moved(c, if ok then InsertingPostings(|old(s).calls[c].req.postings|) else RollingBack(InsertPostingFailed))
      ensures !ok ==> GaveUp(s, c)
      ensures AllSmooth(fates, |old(s).calls[c].req.postings|) && Clear(old(s), c, id) ==> ok && Clear(s, c, id)
    {
      var n := |s.calls[c].req.postings|;
      for i := 0 to n
        invariant Moved(c, InsertingPostings(i))
        invariant AllSmooth(fates, n) && Clear(old(s), c, id) ==> Clear(s, c, id)
      {
        ok := InsertPosting(c, i, FateAt(fates, i), id);
        if !ok {
          return;
        }
      }
      ok := true;
    }

    method InsertOutboxEvent(c: CallId, eventId: Uuid, fate: Fate, ghost id: Uuid) returns (ok: bool)
      requires Valid() && c in s.calls && s.calls[c].pc == InsertingPostings(|s.calls[c].req.postings|)
      modifies this`s, this`trace
      ensures Moved(c, if ok then Committing else RollingBack(InsertEventFailed))
      ensures !ok ==> GaveUp(s, c)
      ensures ok ==> c in s.db.sessions && s.db.sessions[c].event.Some? && s.db.sessions[c].event.value.eventId == eventId
      ensures fate == SMOOTH && Clear(old(s), c, id) ==> ok && Clear(s, c, id)
    {
      Interfere(c, fate.before);
      NotSent(c);
      if Clear(s, c, id) {
        KeepsInv();
        ClearInsertOutbox(s, c, id, eventId);
      }
      var outcome := OutcomeOf(CanInsertEvent(s.db, c) && HasRow(s.db, c), fate);
      Step(InsertOutbox(c, eventId, outcome));
      ok := outcome.Succeeded?;
    }

    method SendCommitRequest(c: CallId, fate: Fate) returns (sent: bool)
      requires Valid() && At(s, c, Committing)
      modifies this`s, this`trace
      ensures Moved(c, if sent then AwaitingCommit else RollingBack(CommitFailed))
      ensures sent <==> fate.ok && OpenSession(Played(old(s), fate.before, c, cfg).db, c)
      ensures fate == SMOOTH && OpenSession(old(s).db, c) ==> sent && s == Requested(old(s), c)
    {
      Interfere(c, fate.before);
      sent := fate.ok && OpenSession(s.db, c);
      Step(SendCommit(c, sent));
    }

    method AwaitCommit(c: CallId, fate: Fate) returns (ok: bool)
      requires Valid() && At(s, c, AwaitingCommit)
      modifies this`s, this`trace
      ensures Moved(c, if ok then Fetching else RollingBack(CommitFailed))
      ensures ok <==> fate.ok && StatusIs(s.db, c, Committed, Committed)
      ensures CommitsAtOnce(old(s), c, fate) ==> ok && s == Goto(AfterServerCommit(old(s), c), c, Fetching)
    {
      ghost var atOnce := CommitsAtOnce(s, c, fate);
      if atOnce {
        PlayedCommit(s, c, cfg);
      }
      Interfere(c, fate.before);
      assert atOnce ==> s == AfterServerCommit(old(s), c);
      ok := fate.ok && StatusIs(s.db, c, Committed, Committed);
      Step(CommitReply(c, ok));
    }

    /** tx.Commit: an error may mean that nothing was sent, that the server refused,
        or that its answer was lost. */
    method CommitTransaction(c: CallId, sending: Fate, reply: Fate, ghost id: Uuid) returns (ok: bool)
      requires Valid() && At(s, c, Committing)
      modifies this`s, this`trace
      ensures Moved(c, if ok then Fetching else RollingBack(CommitFailed))
      ensures ok ==> StatusIs(s.db, c, Committed, Committed)
      ensures sending == SMOOTH && reply == Fate([ServerCommit(c)], true, true) && Clear(old(s), c, id) ==> ok && Clear(s, c, id)
    {
      if Clear(s, c, id) {
        KeepsInv();
        ClearCommit(s, c, id);
      }
      ok := SendCommitRequest(c, sending);
      if ok {
        ok := AwaitCommit(c, reply);
      }
    }

    /** The inserts and the commit; an error leaves it to the caller to roll back. */
    method RunTransaction(c: CallId, script: Script) returns (r: Result<(), Error>)
      requires Valid() && At(s, c, InsertingTx)
      modifies this`s, this`trace
      ensures Moved(c, if r.Ok? then Fetching else RollingBack(r.error))
      ensures r.Err? && !r.error.CommitFailed? ==> GaveUp(s, c)
      ensures SmoothTransaction(script, c, |s.calls[c].req.postings|) && Clear(old(s), c, script.id) ==> r.Ok? && Clear(s, c, script.id)
    {
      var ok := InsertTransaction(c, script.id, script.row);
      if !ok {
        return Err(InsertTransactionFailed);
      }
      ok := InsertPostings(c, script.legs, script.id);
      if !ok {
        return Err(InsertPostingFailed);
      }
      ok := InsertOutboxEvent(c, script.eventId, script.outbox, script.id);
      if !ok {
        return Err(InsertEventFailed);
      }
      ok := CommitTransaction(c, script.commit, script.reply, script.id);
      r := if ok then Ok(()) else Err(CommitFailed);
    }

    predicate Stored(p: Pair, response: Response)
      reads this
    {
      p in s.cache && s.cache[p] == Entry(response, s.now + cfg.cacheTtl)
    }

    /** A failed read of the postings leaves them out of the response. */
    method FetchPostings(c: CallId, fate: Fate) returns (response: Response)
      requires Valid() && At(s, c, Fetching)
      modifies this`s, this`trace
      ensures Moved(c, Caching(response))
      ensures c in old(s).db.sessions && old(s).db.sessions[c].tx.Some?
      ensures Answers(response, old(s).db.sessions[c].tx.value, old(s).calls[c].req, fate.ok)
      ensures HasRow(old(s).db, c) && response.createdAt == RowOf(old(s).db, c).createdAt
    {
      RowIsThere(c);
      Interfere(c, fate.before);
      RowAnswers(c, fate.ok);
      Step(Fetch(c, fate.ok));
      response := s.calls[c].pc.response;
    }

    /** Best effort: the call succeeds whether or not the response is stored. */
    method StoreResponse(c: CallId, fate: Fate, response: Response)
      requires Valid() && At(s, c, Caching(response))
      modifies this`s, this`trace
      ensures Moved(c, Releasing(Ok(response)))
      ensures fate.ok ==> Stored(PairOf(s.calls[c]), response)
      ensures !fate.ok ==> s.cache == Played(old(s), fate.before, c, cfg).cache
    {
      Interfere(c, fate.before);
      Step(StoreCache(c, fate.ok));
    }

    /** The deferred rollback; nobody looks at its result. */
    method RollBack(c: CallId, fate: Fate, error: Error)
      requires Valid() && At(s, c, RollingBack(error))
      modifies this`s, this`trace
      ensures Moved(c, Releasing(Err(error)))
      ensures GaveUp(old(s), c) ==> GaveUp(s, c)
      ensures fate.effective ==> !OpenSession(s.db, c)
    {
      Interfere(c, fate.before);
      if GaveUp(s, c) {
        StaysGivenUp(c, Rollback(c, fate.effective));
      }
      Step(Rollback(c, fate.effective));
    }

    /** Inside the database transaction and after it. */
    method TransactAndRespond(c: CallId, script: Script) returns (result: Result<Response, Error>)
      requires Valid() && At(s, c, InsertingTx)
      modifies this`s, this`trace
      ensures Moved(c, Releasing(result))
      ensures result.Err? && !result.error.CommitFailed? ==> GaveUp(s, c)
      ensures SmoothCall(script, c, |s.calls[c].req.postings|) && Clear(old(s), c, script.id) ==> Answered(result, script, s.calls[c].req, s.calls[c].arrivedAt)
    {
      var r := RunTransaction(c, script);
      if r.Err? {
        RollBack(c, script.rollback, r.error);
        return Err(r.error);
      }
      var response := FetchPostings(c, script.fetch);
      StoreResponse(c, script.store, response);
      result := Ok(response);
    }

    /** From the cache lookup to the point where the lock is let go; the rollback
        deferred inside it runs before that. */
    method WhileLocked(c: CallId, script: Script) returns (result: Result<Response, Error>)
      requires Valid() && At(s, c, ReadingCache)
      modifies this`s, this`trace
      ensures Moved(c, Releasing(result))
      ensures result.Err? && !result.error.CommitFailed? ==> GaveUp(s, c)
      ensures Unhindered(old(s), c, script) ==> Answered(result, script, s.calls[c].req, s.calls[c].arrivedAt)
      ensures script.cache == SMOOTH && LiveEntry(old(s), PairOf(old(s).calls[c])) ==> result == Ok(old(s).cache[PairOf(old(s).calls[c])].response)
    {
      var replay := ReadCached(c, script.cache);
      if replay.Some? {
        return Ok(replay.value);
      }
      var begun := BeginTransaction(c, script.begin, script.id);
      if !begun {
        return Err(BeginFailed);
      }
      result := TransactAndRespond(c, script);
    }

    method Receive(c: CallId, tenant: Uuid, req: Request)
      requires Valid() && c !in s.calls
      modifies this`s, this`trace
      ensures Valid() && old(trace) <= trace && c !in s.db.sessions
      ensures s == Arrived(old(s), c, tenant, req, Validating)
    {
      NewCallHasNoSession(c);
      Step(Arrive(c, tenant, req));
    }

    method ValidateRequest(c: CallId) returns (verdict: Verdict)
      requires Valid() && At(s, c, Validating)
      modifies this`s, this`trace
      ensures Valid() && old(trace) <= trace
      ensures verdict == ServiceVerdict(old(s).calls[c].req) && s == Goto(old(s), c, Judged(verdict))
    {
      verdict := ValidateForService(s.calls[c].req);
      Step(Validate(c));
    }

    /** The call arrives and its request is validated. */
    method Admit(c: CallId, tenant: Uuid, req: Request) returns (verdict: Verdict)
      requires Valid() && c !in s.calls
      modifies this`s, this`trace
      ensures Valid() && old(trace) <= trace && verdict == ServiceVerdict(req)
      ensures s == Arrived(old(s), c, tenant, req, Judged(verdict))
      ensures c !in s.db.sessions
    {
      Receive(c, tenant, req);
      verdict := ValidateRequest(c);
      JustArrived(old(s), c, tenant, req, Judged(verdict));
    }

    method ReleaseLock(c: CallId, fate: Fate, result: Result<Response, Error>)
      requires Valid() && At(s, c, Releasing(result))
      modifies this`s, this`trace
      ensures Moved(c, Done(result))
      ensures GaveUp(old(s), c) ==> GaveUp(s, c)
      ensures fate.effective && LiveLock(s, PairOf(s.calls[c])) ==> s.locks[PairOf(s.calls[c])].owner != c
      ensures OthersKeepLocks(Played(old(s), fate.before, c, cfg), s, c)
      ensures !fate.effective ==> s.locks == Played(old(s), fate.before, c, cfg).locks
    {
      Interfere(c, fate.before);
      if GaveUp(s, c) {
        StaysGivenUp(c, Release(c, fate.effective));
      }
      Step(Release(c, fate.effective));
    }

    /** A validated call, from asking for the lock to returning. */
    method Serve(c: CallId, script: Script) returns (result: Result<Response, Error>)
      requires Valid() && At(s, c, WantLock)
      modifies this`s, this`trace
      ensures Moved(c, Done(result))
      ensures result.Err? && !result.error.CommitFailed? ==> GaveUp(s, c)
      ensures Unhindered(old(s), c, script) ==> Answered(result, script, s.calls[c].req, s.calls[c].arrivedAt)
      ensures RedisAnswers(script) && Repeats(old(s), PairOf(old(s).calls[c])) ==> result == Ok(old(s).cache[PairOf(old(s).calls[c])].response)
    {
      ghost var before := s;
      var locked;
      ghost var at;
      locked, at := ObtainLock(c, script.lock);
      if FateAt(script.lock, 0) == SMOOTH && !LiveLock(before, PairOf(before.calls[c])) {
        FreeAtOnce(before, script.lock, c, cfg);
        if locked {
          ObtainsOnce(before, script.lock, at, 0, c, cfg);
        }
      }
      if !locked {
        return Err(LockAcquisitionFailed);
      }
      result := WhileLocked(c, script);
      ReleaseLock(c, script.release, result);
    }

    /** The whole call, as a run of the protocol: it ends, its result is recorded,
        a success is a committed transaction of this tenant and key as GetTransaction
        reads it back, and any error but a failed commit leaves nothing behind. With
        nothing in its way it succeeds; a repeat under a free lock replays the cache. */
    method CreateTransaction(c: CallId, tenant: Uuid, req: Request, script: Script)
      returns (result: Result<Response, Error>)
      requires Valid() && c !in s.calls
      modifies this`s, this`trace
      ensures Valid() && old(trace) <= trace
      ensures c in s.calls && s.calls[c] == Call(tenant, req, old(s).now, Done(result))
      ensures !ServiceAccepts(req) ==> result == Err(Invalid(ServiceVerdict(req)))
      ensures result.Ok? ==> result.value.key == req.key && AgreesWith(result.value, GetTransaction(s.db, tenant, result.value.id))
      ensures result.Err? && !result.error.CommitFailed? ==> NoTraceOf(s, c)
      ensures Unhindered(Waiting(old(s), c, tenant, req), c, script) ==> Answered(result, script, req, old(s).now)
      ensures ServiceAccepts(req) && RedisAnswers(script) && Repeats(old(s), Pair(tenant, req.key)) ==> result == Ok(old(s).cache[Pair(tenant, req.key)].response)
    {
      var verdict := Admit(c, tenant, req);
      if verdict == Accept {
        result := Serve(c, script);
      } else {
        result := Err(Invalid(verdict));
      }
      if result.Ok? {
        AgreesWhenDone(c);
      } else if !result.error.CommitFailed? {
        LeavesNothing(c);
      }
    }
  }
}
