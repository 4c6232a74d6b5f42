/** A repeated key whose cached response is gone: the call is neither replayed nor
    told about the earlier transaction, it fails at its first statement. */
module Duplicates {
  import opened Core
  import opened Database
  import opened DatabaseInv
  import opened Protocol
  import opened ProtocolInv
  import opened ProtocolSafety

  predicate PlainFailure(e: Error) {
    e.BeginFailed? || e.InsertTransactionFailed?
  }

  /** Where such a call can stand; it has inserted nothing. */
  predicate FailingAt(pc: Pc) {
    match pc
    case Beginning => true
    case InsertingTx => true
    case RollingBack(e) => PlainFailure(e)
    case Releasing(r) => r.Err? && PlainFailure(r.error)
    case Done(r) => r.Err? && PlainFailure(r.error)
    case Crashed => true
    case _ => false
  }

  /** Transaction id has call c's tenant and key, and c is past the cache. */
  predicate Doomed(s: State, c: CallId, id: Uuid) {
    && c in s.calls && CommittedFor(s.db, id, PairOf(s.calls[c]))
    && FailingAt(s.calls[c].pc) && (c in s.db.sessions ==> s.db.sessions[c].tx.None?)
  }

  /** A cache miss, an eviction or a Redis error after the key was committed. */
  lemma {:induction false} MissDooms(s: State, c: CallId, id: Uuid, cfg: Config)
    requires Inv(s) && At(s, c, ReadingCache) && CommittedFor(s.db, id, PairOf(s.calls[c]))
    ensures Enabled(s, ReadCache(c, false), cfg) && Doomed(Apply(s, ReadCache(c, false), cfg), c, id)
  {
    InvAt(s, c);
  }

  lemma {:induction false} KeyIsTaken(s: State, c: CallId, id: Uuid)
    requires Inv(s) && Doomed(s, c, id)
    ensures Occupies(s.db, id, s.calls[c].tenant, s.calls[c].req.key)
  {
    CommittedIsAlive(s.db, id);
  }

  lemma {:induction false} CallerFails(s: State, l: Label, cfg: Config, id: Uuid)
    requires Enabled(s, l, cfg) && CallerOnly(l) && Doomed(s, l.c, id)
    ensures Doomed(Apply(s, l, cfg), l.c, id)
  {}

  lemma {:induction false} InsertFails(s: State, l: Label, cfg: Config, id: Uuid)
    requires Enabled(s, l, cfg) && Inserts(l) && Doomed(s, l.c, id)
    requires Occupies(s.db, id, s.calls[l.c].tenant, s.calls[l.c].req.key)
    ensures Doomed(Apply(s, l, cfg), l.c, id)
  {}

  lemma {:induction false} EndFails(s: State, l: Label, cfg: Config, id: Uuid)
    requires Enabled(s, l, cfg) && Ends(l) && Doomed(s, l.c, id)
    ensures Doomed(Apply(s, l, cfg), l.c, id)
  {}

  lemma {:induction false} StepKeepsDoomed(s: State, l: Label, cfg: Config, c: CallId, id: Uuid)
    requires Inv(s) && Enabled(s, l, cfg) && Doomed(s, c, id)
    ensures Doomed(Apply(s, l, cfg), c, id)
  {
    if Actor(l) != Some(c) {
      OthersUntouched(s, l, cfg, c);
      StepKeepsInv(s, l, cfg);
    } else if CallerOnly(l) {
      CallerFails(s, l, cfg, id);
    } else if Ends(l) {
      EndFails(s, l, cfg, id);
    } else {
      KeyIsTaken(s, c, id);
      InsertFails(s, l, cfg, id);
    }
  }

  lemma {:induction false} RunKeepsDoomed(s: State, ls: seq<Label>, cfg: Config, c: CallId, id: Uuid)
    requires Inv(s) && Legal(s, ls, cfg) && Doomed(s, c, id)
    ensures Doomed(Run(s, ls, cfg), c, id)
    decreases |ls|
  {
    if |ls| > 0 {
      StepKeepsInv(s, ls[0], cfg);
      StepKeepsDoomed(s, ls[0], cfg, c, id);
      RunKeepsDoomed(Apply(s, ls[0], cfg), ls[1..], cfg, c, id);
    }
  }

  /** Returned, if at all, with a plain failure; nothing committed is c's. */
  ghost predicate FailedPlainly(s: State, c: CallId) {
    && c in s.calls
    && (s.calls[c].pc.Done? ==> s.calls[c].pc.result.Err? && PlainFailure(s.calls[c].pc.result.error))
    && (forall x :: x in s.db.committed && x in s.db.heap ==> s.db.heap[x].writer != c)
  }

  lemma {:induction false} DoomedFails(s: State, c: CallId, id: Uuid)
    requires DbInv(s.db) && Doomed(s, c, id)
    ensures FailedPlainly(s, c)
  {
    forall x | x in s.db.committed && x in s.db.heap ensures s.db.heap[x].writer != c {
      assert DatabaseInv.HeapRowOk(s.db, x);
    }
  }

  /** In any reachable state: once its key is committed, a call that misses the
      cache, as it always may, never succeeds, whatever happens next. If it returns,
      it returns a plain insert or begin failure, and no committed transaction is of
      its making. */
  lemma {:induction false} MissedDuplicateFails(s0: State, before: seq<Label>, s: State, c: CallId, id: Uuid, ls: seq<Label>, cfg: Config)
    requires Reaches(s0, before, s, cfg)
    requires At(s, c, ReadingCache) && CommittedFor(s.db, id, PairOf(s.calls[c]))
    requires Legal(AfterReadCache(s, c, false), ls, cfg)
    ensures Enabled(s, ReadCache(c, false), cfg)
    ensures FailedPlainly(Run(AfterReadCache(s, c, false), ls, cfg), c)
  {
    ReachableInv(s0, before, s, cfg);
    MissDooms(s, c, id, cfg);
    StepKeepsInv(s, ReadCache(c, false), cfg);
    DoomedRunFails(AfterReadCache(s, c, false), ls, cfg, c, id);
  }

  lemma {:induction false} DoomedRunFails(s: State, ls: seq<Label>, cfg: Config, c: CallId, id: Uuid)
    requires Inv(s) && Legal(s, ls, cfg) && Doomed(s, c, id)
    ensures FailedPlainly(Run(s, ls, cfg), c)
  {
    RunKeepsDoomed(s, ls, cfg, c, id);
    RunKeepsInv(s, ls, cfg);
    DoomedFails(Run(s, ls, cfg), c, id);
  }
}
