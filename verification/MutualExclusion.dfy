/** What the Redis lock alone guarantees, given time. A request carries a deadline
    set before the lock was asked for; past it nothing the call attempts takes
    effect. */
module MutualExclusion {
  import opened Core
  import opened Validation
  import opened Protocol
  import opened ProtocolSafety

  function Deadline(call: Call, timeout: nat): nat {
    call.arrivedAt + timeout
  }

  /** Between lock acquisition and release, and still able to act. */
  predicate Acting(s: State, c: CallId, timeout: nat) {
    c in s.calls && InCriticalSection(s.calls[c].pc) && s.now < Deadline(s.calls[c], timeout)
  }

  /** Redis keeps every lock until it is released or its time is up. */
  predicate KeepsLocks(ls: seq<Label>) {
    forall i :: 0 <= i < |ls| ==> !ls[i].LoseLock?
  }

  // -------------------------------------------------------------- invariant

  predicate HoldsLock(s: State, c: CallId, timeout: nat)
    requires c in s.calls
  {
    var p := PairOf(s.calls[c]);
    p in s.locks && s.locks[p].owner == c && s.locks[p].expires >= Deadline(s.calls[c], timeout)
  }

  predicate CallTimed(s: State, c: CallId, timeout: nat)
    requires c in s.calls
  {
    s.calls[c].arrivedAt <= s.now && (Acting(s, c, timeout) ==> HoldsLock(s, c, timeout))
  }

  ghost predicate Timed(s: State, timeout: nat) {
    forall c :: c in s.calls ==> CallTimed(s, c, timeout)
  }

  predicate WalksOn(s: State, s': State, c: CallId) {
    && c in s.calls && c in s'.calls && s'.now == s.now && s'.locks == s.locks
    && s'.calls[c] == s.calls[c].(pc := s'.calls[c].pc)
    && (InCriticalSection(s'.calls[c].pc) ==> InCriticalSection(s.calls[c].pc))
  }

  /** Past acquisition a call only walks on: its request and arrival stay, it does
      not come back into the critical section, and keeps its lock until it leaves. */
  lemma {:induction false} ActorWalksOn(s: State, l: Label, cfg: Config, c: CallId)
    requires Enabled(s, l, cfg) && Actor(l) == Some(c) && !l.Arrive? && !l.Obtain? && !l.Release?
    requires c in Apply(s, l, cfg).calls
    ensures WalksOn(s, Apply(s, l, cfg), c)
  {
    if CallerOnly(l) {
      CallerWalksOn(s, l, cfg);
    } else {
      StatementWalksOn(s, l, cfg);
    }
  }

  lemma {:induction false} CallerWalksOn(s: State, l: Label, cfg: Config)
    requires Enabled(s, l, cfg) && CallerOnly(l) && !l.Arrive? && !l.Obtain? && !l.Release?
    ensures WalksOn(s, Apply(s, l, cfg), l.c)
  {}

  lemma {:induction false} StatementWalksOn(s: State, l: Label, cfg: Config)
    requires Enabled(s, l, cfg) && (Inserts(l) || Ends(l)) && l.c in Apply(s, l, cfg).calls
    ensures WalksOn(s, Apply(s, l, cfg), l.c)
  {}

  lemma {:induction false} WalkerTimed(s: State, s': State, c: CallId, timeout: nat)
    requires WalksOn(s, s', c) && CallTimed(s, c, timeout)
    ensures CallTimed(s', c, timeout)
  {}

  lemma {:induction false} ObtainerTimed(s: State, c: CallId, grant: Grant, cfg: Config, timeout: nat)
    requires At(s, c, WantLock) && CallTimed(s, c, timeout) && timeout <= cfg.lockTtl
    ensures CallTimed(AfterObtain(s, c, grant, cfg), c, timeout)
  {}

  lemma {:induction false} ReleaserTimed(s: State, c: CallId, effective: bool, timeout: nat)
    requires c in s.calls && s.calls[c].pc.Releasing? && CallTimed(s, c, timeout)
    ensures CallTimed(AfterRelease(s, c, effective), c, timeout)
  {}

  lemma {:induction false} ActorTimed(s: State, l: Label, cfg: Config, timeout: nat, c: CallId)
    requires Timed(s, timeout) && Enabled(s, l, cfg) && Actor(l) == Some(c) && timeout <= cfg.lockTtl
    requires c in Apply(s, l, cfg).calls
    ensures CallTimed(Apply(s, l, cfg), c, timeout)
  {
    if l.Obtain? {
      ObtainerTimed(s, c, l.grant, cfg, timeout);
    } else if l.Release? {
      ReleaserTimed(s, c, l.effective, timeout);
    } else if !l.Arrive? {
      ActorWalksOn(s, l, cfg, c);
      WalkerTimed(s, Apply(s, l, cfg), c, timeout);
    }
  }

  /** A live lock of another call is neither taken over nor released. */
  lemma {:induction false} LockStays(s: State, l: Label, cfg: Config, p: Pair)
    requires Enabled(s, l, cfg) && !l.LoseLock? && LiveLock(s, p) && Actor(l) != Some(s.locks[p].owner)
    ensures var s' := Apply(s, l, cfg); p in s'.locks && s'.locks[p] == s.locks[p]
  {}

  /** Only a tick moves the clock. */
  lemma {:induction false} ClockStands(s: State, l: Label, cfg: Config)
    requires Enabled(s, l, cfg) && !l.Tick?
    ensures Apply(s, l, cfg).now == s.now
  {}

  lemma {:induction false} TimePasses(s: State, l: Label, cfg: Config)
    requires Enabled(s, l, cfg)
    ensures Apply(s, l, cfg).now >= s.now
  {
    if !l.Tick? {
      ClockStands(s, l, cfg);
    }
  }

  lemma {:induction false} OtherTimed(s: State, l: Label, cfg: Config, timeout: nat, c: CallId)
    requires Timed(s, timeout) && Enabled(s, l, cfg) && !l.LoseLock?
    requires Actor(l) != Some(c) && c in s.calls
    ensures c in Apply(s, l, cfg).calls && CallTimed(Apply(s, l, cfg), c, timeout)
  {
    OtherCallsUntouched(s, l, cfg, c);
    TimePasses(s, l, cfg);
    assert CallTimed(s, c, timeout);
    if Acting(Apply(s, l, cfg), c, timeout) {
      LockStays(s, l, cfg, PairOf(s.calls[c]));
    }
  }

  lemma {:induction false} StepKeepsTimed(s: State, l: Label, cfg: Config, timeout: nat)
    requires Timed(s, timeout) && Enabled(s, l, cfg) && !l.LoseLock? && timeout <= cfg.lockTtl
    ensures Timed(Apply(s, l, cfg), timeout)
  {
    var s' := Apply(s, l, cfg);
    forall c | c in s'.calls ensures CallTimed(s', c, timeout) {
      if Actor(l) == Some(c) {
        ActorTimed(s, l, cfg, timeout, c);
      } else {
        OtherCallsUntouched(s, l, cfg, c);
        OtherTimed(s, l, cfg, timeout, c);
      }
    }
  }

  lemma {:induction false} RunKeepsTimed(s: State, ls: seq<Label>, cfg: Config, timeout: nat)
    requires Timed(s, timeout) && Legal(s, ls, cfg) && KeepsLocks(ls) && timeout <= cfg.lockTtl
    ensures Timed(Run(s, ls, cfg), timeout)
    decreases |ls|
  {
    if |ls| > 0 {
      StepKeepsTimed(s, ls[0], cfg, timeout);
      RunKeepsTimed(Apply(s, ls[0], cfg), ls[1..], cfg, timeout);
    }
  }

  /** Two calls for the same tenant and key never both act between acquisition and
      release when the request timeout is at most the lock's time to live. */
  lemma {:induction false} NeverBothActing(s0: State, ls: seq<Label>, s: State, cfg: Config, timeout: nat, c: CallId, d: CallId)
    requires Reaches(s0, ls, s, cfg) && KeepsLocks(ls) && timeout <= cfg.lockTtl
    requires Acting(s, c, timeout) && Acting(s, d, timeout) && PairOf(s.calls[c]) == PairOf(s.calls[d])
    ensures c == d
  {
    RunKeepsTimed(s0, ls, cfg, timeout);
    assert CallTimed(s, c, timeout) && CallTimed(s, d, timeout);
  }

  // ------------------------------------------------------- and only then

  lemma {:induction false} ReachOneMore(s0: State, ls: seq<Label>, s: State, l: Label, cfg: Config)
    requires Reaches(s0, ls, s, cfg) && KeepsLocks(ls) && Enabled(s, l, cfg) && !l.LoseLock?
    ensures Reaches(s0, ls + [l], Apply(s, l, cfg), cfg) && KeepsLocks(ls + [l])
  {
    RunSnoc(s0, ls, l, cfg);
  }

  /** A call walks from arrival into its critical section. */
  lemma {:induction false} Enter(s0: State, before: seq<Label>, s: State, cfg: Config, c: CallId, tenant: Uuid, req: Request)
    returns (ls: seq<Label>, s': State)
    requires Reaches(s0, before, s, cfg) && KeepsLocks(before) && ServiceAccepts(req)
    requires c !in s.calls && c !in s.db.sessions && !LiveLock(s, Pair(tenant, req.key))
    ensures Reaches(s0, ls, s', cfg) && KeepsLocks(ls)
    ensures s' == s.(calls := s.calls[c := Call(tenant, req, s.now, ReadingCache)],
                     locks := s.locks[Pair(tenant, req.key) := Lock(c, s.now + cfg.lockTtl)])
  {
    var l1, l2, l3 := Arrive(c, tenant, req), Validate(c), Obtain(c, Granted);
    ReachOneMore(s0, before, s, l1, cfg);
    var s1 := s.(calls := s.calls[c := Call(tenant, req, s.now, Validating)]);
    ReachOneMore(s0, before + [l1], s1, l2, cfg);
    var s2 := Goto(s1, c, WantLock);
    ReachOneMore(s0, before + [l1] + [l2], s2, l3, cfg);
    ls, s' := before + [l1] + [l2] + [l3], AfterObtain(s2, c, Granted, cfg);
  }

  /** With a longer timeout the first caller's lock runs out while it may still
      act, and a second caller walks in: from any initial state, for any request. */
  lemma {:induction false} LongerTimeoutOverlaps(s0: State, cfg: Config, timeout: nat, c: CallId, d: CallId, tenant: Uuid, req: Request)
    returns (ls: seq<Label>, s: State)
    requires Init(s0) && cfg.lockTtl < timeout && c != d && ServiceAccepts(req)
    ensures Reaches(s0, ls, s, cfg) && KeepsLocks(ls)
    ensures Acting(s, c, timeout) && Acting(s, d, timeout) && PairOf(s.calls[c]) == PairOf(s.calls[d])
  {
    ls, s := Enter(s0, [], s0, cfg, c, tenant, req);
    ReachOneMore(s0, ls, s, Tick(cfg.lockTtl), cfg);
    ls, s := ls + [Tick(cfg.lockTtl)], s.(now := s.now + cfg.lockTtl);
    ls, s := Enter(s0, ls, s, cfg, d, tenant, req);
  }

  /** In the whole system, whoever calls and whatever fails. */
  ghost predicate Exclusive(s0: State, cfg: Config, timeout: nat) {
    forall ls, s, c, d :: Overlap(s0, ls, s, cfg, timeout, c, d) ==> c == d
  }

  ghost predicate Overlap(s0: State, ls: seq<Label>, s: State, cfg: Config, timeout: nat, c: CallId, d: CallId) {
    && Reaches(s0, ls, s, cfg) && KeepsLocks(ls)
    && Acting(s, c, timeout) && Acting(s, d, timeout) && PairOf(s.calls[c]) == PairOf(s.calls[d])
  }

  function SmallRequest(): Request {
    Request("k", "", None, [Posting(1, 1, Debit), Posting(2, 1, Credit)])
  }

  lemma {:induction false} SmallRequestIsFine()
    ensures ServiceAccepts(SmallRequest())
  {
    ServiceAcceptsMeaning(SmallRequest());
  }

  /** The exact condition on the two configured durations. */
  lemma {:induction false} ExclusiveIff(s0: State, cfg: Config, timeout: nat)
    requires Init(s0)
    ensures Exclusive(s0, cfg, timeout) <==> timeout <= cfg.lockTtl
  {
    if timeout <= cfg.lockTtl {
      forall ls, s, c, d | Overlap(s0, ls, s, cfg, timeout, c, d) ensures c == d {
        NeverBothActing(s0, ls, s, cfg, timeout, c, d);
      }
    } else {
      SmallRequestIsFine();
      var tenant: Uuid := "00000000-0000-0000-0000-000000000000";
      var ls, s := LongerTimeoutOverlaps(s0, cfg, timeout, 0, 1, tenant, SmallRequest());
      assert Overlap(s0, ls, s, cfg, timeout, 0, 1);
    }
  }
}
