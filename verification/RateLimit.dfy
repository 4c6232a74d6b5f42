/** The sliding-window rate limiter: one client's sorted set, pruned in place,
    against the plain count of admitted requests in the last window. */
module RateLimit {
  import opened Core

  const NS_PER_MS: int := 1_000_000

  /** Window in nanoseconds. */
  datatype Config = Config(window: int, maxRequests: int)

  /** A sorted-set member "now:random"; its score is `at`. */
  datatype Member = Member(at: int, nonce: nat)

  /** The key's value and the time from which the key is gone. */
  datatype Zset = Zset(members: set<Member>, expires: Option<int>)

  const EMPTY: Zset := Zset({}, None)

  /** `at` is the application's clock, `clock` is Redis's. */
  datatype Req = Req(at: int, clock: int, nonce: nat)

  datatype Reply = Reply(allowed: bool, current: int, limit: int)

  predicate Expired(z: Zset, clock: int) {
    z.expires.Some? && clock >= z.expires.value
  }

  /** ZREMRANGEBYSCORE key -inf (at - window), on the key if it still exists. */
  function Pruned(z: Zset, r: Req, cfg: Config): set<Member> {
    if Expired(z, r.clock) then {} else set m | m in z.members && m.at > r.at - cfg.window
  }

  predicate Allowed(z: Zset, r: Req, cfg: Config) {
    |Pruned(z, r, cfg)| < cfg.maxRequests
  }

  /** PEXPIRE takes whole milliseconds; the fraction is dropped. */
  function Script(z: Zset, r: Req, cfg: Config): Zset {
    var kept := Pruned(z, r, cfg);
    if |kept| >= cfg.maxRequests then Zset(kept, if Expired(z, r.clock) then None else z.expires)
    else Zset(kept + {Member(r.at, r.nonce)}, Some(r.clock + cfg.window / NS_PER_MS * NS_PER_MS))
  }

  /** The key after a trace of requests, starting from no key. */
  function After(reqs: seq<Req>, cfg: Config): Zset {
    if |reqs| == 0 then EMPTY else Script(After(reqs[..|reqs| - 1], cfg), reqs[|reqs| - 1], cfg)
  }

  /** Whether the script admits the last request of the trace. */
  predicate Admits(reqs: seq<Req>, cfg: Config)
    requires |reqs| > 0
  {
    Allowed(After(reqs[..|reqs| - 1], cfg), reqs[|reqs| - 1], cfg)
  }

  /** Every request the script has admitted. */
  function Admitted(reqs: seq<Req>, cfg: Config): seq<Member> {
    if |reqs| == 0 then []
    else
      var r := reqs[|reqs| - 1];
      Admitted(reqs[..|reqs| - 1], cfg) + (if Admits(reqs, cfg) then [Member(r.at, r.nonce)] else [])
  }

  // ------------------------------------------------- the simple specification

  /** Members with lo < at <= hi. */
  function Count(hist: seq<Member>, lo: int, hi: int): nat {
    if |hist| == 0 then 0
    else Count(hist[..|hist| - 1], lo, hi) + (if lo < hist[|hist| - 1].at <= hi then 1 else 0)
  }

  /** Fewer than maxRequests admissions in (now - window, now]. */
  predicate Decide(hist: seq<Member>, now: int, cfg: Config) {
    Count(hist, now - cfg.window, now) < cfg.maxRequests
  }

  function History(reqs: seq<Req>, cfg: Config): seq<Member> {
    if |reqs| == 0 then []
    else
      var h, r := History(reqs[..|reqs| - 1], cfg), reqs[|reqs| - 1];
      if Decide(h, r.at, cfg) then h + [Member(r.at, r.nonce)] else h
  }

  predicate SpecAdmits(reqs: seq<Req>, cfg: Config)
    requires |reqs| > 0
  {
    Decide(History(reqs[..|reqs| - 1], cfg), reqs[|reqs| - 1].at, cfg)
  }

  // ------------------------------------------------------------------ traces

  /** No two requests make the same member. */
  predicate FreshMembers(reqs: seq<Req>) {
    forall i, j :: 0 <= i < j < |reqs| ==> reqs[i].at != reqs[j].at || reqs[i].nonce != reqs[j].nonce
  }

  /** The application's stamps never go back; Redis's clock is its own. */
  predicate StampsAscend(reqs: seq<Req>) {
    forall i, j :: 0 <= i < j < |reqs| ==> reqs[i].at <= reqs[j].at
  }

  /** If the key has gone by request n, what it held was due for pruning anyway. */
  predicate GoneInTime(reqs: seq<Req>, n: nat, cfg: Config)
    requires n < |reqs|
  {
    var z := After(reqs[..n], cfg);
    Expired(z, reqs[n].clock) ==> forall m :: m in z.members ==> m.at <= reqs[n].at - cfg.window
  }

  predicate NoEarlyExpiry(reqs: seq<Req>, cfg: Config) {
    forall n :: 0 <= n < |reqs| ==> GoneInTime(reqs, n, cfg)
  }

  lemma {:induction false} PrefixExpiry(reqs: seq<Req>, cfg: Config)
    requires |reqs| > 0 && NoEarlyExpiry(reqs, cfg)
    ensures NoEarlyExpiry(reqs[..|reqs| - 1], cfg)
  {
    var before := reqs[..|reqs| - 1];
    forall n | 0 <= n < |before| ensures GoneInTime(before, n, cfg) {
      assert GoneInTime(reqs, n, cfg);
      assert before[..n] == reqs[..n];
    }
  }

  /** One clock, never going back. */
  predicate OneClock(reqs: seq<Req>) {
    && (forall i :: 0 <= i < |reqs| ==> reqs[i].clock == reqs[i].at)
    && (forall i, j :: 0 <= i < j < |reqs| ==> reqs[i].at <= reqs[j].at)
  }

  predicate DistinctMembers(hist: seq<Member>) {
    forall i, j :: 0 <= i < j < |hist| ==> hist[i] != hist[j]
  }

  function InWindow(hist: seq<Member>, lo: int, hi: int): set<Member> {
    set m | m in hist && lo < m.at <= hi
  }

  lemma {:induction false} CountIsCardinality(hist: seq<Member>, lo: int, hi: int)
    requires DistinctMembers(hist)
    ensures |InWindow(hist, lo, hi)| == Count(hist, lo, hi)
  {
    if |hist| > 0 {
      var n := |hist| - 1;
      CountIsCardinality(hist[..n], lo, hi);
      assert hist == hist[..n] + [hist[n]];
      if lo < hist[n].at <= hi {
        assert InWindow(hist, lo, hi) == InWindow(hist[..n], lo, hi) + {hist[n]};
      } else {
        assert InWindow(hist, lo, hi) == InWindow(hist[..n], lo, hi);
      }
    }
  }

  predicate FromRequests(hist: seq<Member>, reqs: seq<Req>) {
    forall m :: m in hist ==> exists i :: 0 <= i < |reqs| && reqs[i].at == m.at && reqs[i].nonce == m.nonce
  }

  lemma {:induction false} MemberSnoc(hist: seq<Member>, reqs: seq<Req>)
    requires |reqs| > 0 && FreshMembers(reqs)
    requires FromRequests(hist, reqs[..|reqs| - 1]) && DistinctMembers(hist)
    ensures var r := reqs[|reqs| - 1]; var m := Member(r.at, r.nonce);
      m !in hist && DistinctMembers(hist + [m]) && FromRequests(hist + [m], reqs) && FromRequests(hist, reqs)
  {
    var n := |reqs| - 1;
    var x := Member(reqs[n].at, reqs[n].nonce);
    forall m | m in hist
      ensures m != x && exists i :: 0 <= i < |reqs| && reqs[i].at == m.at && reqs[i].nonce == m.nonce
    {
      var i :| 0 <= i < n && reqs[..n][i].at == m.at && reqs[..n][i].nonce == m.nonce;
      assert reqs[i] == reqs[..n][i];
    }
    assert reqs[n].at == x.at && reqs[n].nonce == x.nonce;
  }

  // -------------------------------------------------------------- refinement

  /** Members younger than the window that ends at `now`. */
  function Recent(members: set<Member>, now: int, cfg: Config): set<Member> {
    set m | m in members && m.at > now - cfg.window
  }

  /** After a trace that ends at `last`, the key holds the admitted requests of the
      last window, and perhaps some that the next pruning takes away. */
  predicate Tracks(z: Zset, hist: seq<Member>, last: int, cfg: Config) {
    && DistinctMembers(hist)
    && (forall m :: m in hist ==> m.at <= last)
    && Recent(z.members, last, cfg) == InWindow(hist, last - cfg.window, last)
  }

  lemma {:induction false} PruneTracks(z: Zset, hist: seq<Member>, last: int, r: Req, cfg: Config)
    requires Tracks(z, hist, last, cfg) && last <= r.at
    requires Expired(z, r.clock) ==> forall m :: m in z.members ==> m.at <= r.at - cfg.window
    ensures Pruned(z, r, cfg) == InWindow(hist, r.at - cfg.window, r.at)
    ensures Allowed(z, r, cfg) == Decide(hist, r.at, cfg)
  {
    CountIsCardinality(hist, r.at - cfg.window, r.at);
    var kept := Pruned(z, r, cfg);
    forall m ensures m in kept <==> m in InWindow(hist, r.at - cfg.window, r.at) {
      assert m in Recent(z.members, last, cfg) <==> m in InWindow(hist, last - cfg.window, last);
    }
    assert kept == InWindow(hist, r.at - cfg.window, r.at);
  }

  lemma {:induction false} ScriptTracks(z: Zset, hist: seq<Member>, r: Req, cfg: Config)
    requires Pruned(z, r, cfg) == InWindow(hist, r.at - cfg.window, r.at)
    requires Allowed(z, r, cfg) == Decide(hist, r.at, cfg)
    requires DistinctMembers(hist) && (forall m :: m in hist ==> m.at <= r.at)
    requires Member(r.at, r.nonce) !in hist
    ensures var h' := if Decide(hist, r.at, cfg) then hist + [Member(r.at, r.nonce)] else hist;
      Tracks(Script(z, r, cfg), h', r.at, cfg)
  {
    var x := Member(r.at, r.nonce);
    var h' := if Decide(hist, r.at, cfg) then hist + [x] else hist;
    var members := Script(z, r, cfg).members;
    forall m ensures m in Recent(members, r.at, cfg) <==> m in InWindow(h', r.at - cfg.window, r.at) {
      assert m in members <==> m in InWindow(hist, r.at - cfg.window, r.at) || (m == x && Decide(hist, r.at, cfg));
    }
  }

  lemma {:induction false} ScriptTracksHistory(reqs: seq<Req>, cfg: Config)
    requires FreshMembers(reqs) && StampsAscend(reqs) && NoEarlyExpiry(reqs, cfg)
    ensures Admitted(reqs, cfg) == History(reqs, cfg)
    ensures FromRequests(History(reqs, cfg), reqs)
    ensures |reqs| > 0 ==> Tracks(After(reqs, cfg), History(reqs, cfg), reqs[|reqs| - 1].at, cfg)
    ensures |reqs| > 0 ==> Admits(reqs, cfg) == SpecAdmits(reqs, cfg)
  {
    if |reqs| > 0 {
      var n := |reqs| - 1;
      var before, r := reqs[..n], reqs[n];
      PrefixExpiry(reqs, cfg);
      ScriptTracksHistory(before, cfg);
      var last := if n > 0 then reqs[n - 1].at else r.at;
      assert n > 0 ==> before[n - 1] == reqs[n - 1];
      assert Tracks(After(before, cfg), History(before, cfg), last, cfg);
      assert GoneInTime(reqs, n, cfg);
      MemberSnoc(History(before, cfg), reqs);
      PruneTracks(After(before, cfg), History(before, cfg), last, r, cfg);
      ScriptTracks(After(before, cfg), History(before, cfg), r, cfg);
    }
  }

  /** The pruned set decides every request as a count over the full admission
      history does: for any window and whatever clock Redis keeps, as long as
      stamps do not go back, members are fresh and the key does not go early. */
  lemma {:induction false} ScriptRefinesCount(reqs: seq<Req>, cfg: Config)
    requires FreshMembers(reqs) && StampsAscend(reqs) && NoEarlyExpiry(reqs, cfg)
    ensures Admitted(reqs, cfg) == History(reqs, cfg)
    ensures |reqs| > 0 ==> Admits(reqs, cfg) == SpecAdmits(reqs, cfg)
  {
    ScriptTracksHistory(reqs, cfg);
  }

  /** The key holds nothing that was not admitted. */
  lemma {:induction false} MembersWereAdmitted(reqs: seq<Req>, cfg: Config)
    ensures forall m :: m in After(reqs, cfg).members ==> m in Admitted(reqs, cfg)
  {
    if |reqs| > 0 {
      MembersWereAdmitted(reqs[..|reqs| - 1], cfg);
    }
  }

  lemma {:induction false} AdmittedIsOld(reqs: seq<Req>, now: int, cfg: Config)
    requires forall i :: 0 <= i < |reqs| ==> reqs[i].at <= now
    ensures forall m :: m in Admitted(reqs, cfg) ==> m.at <= now
  {
    if |reqs| > 0 {
      AdmittedIsOld(reqs[..|reqs| - 1], now, cfg);
    }
  }

  /** With one clock and a window of whole milliseconds a key outlives its members. */
  lemma {:induction false} KeyOutlivesMembers(reqs: seq<Req>, cfg: Config)
    requires OneClock(reqs) && cfg.window % NS_PER_MS == 0
    ensures var z := After(reqs, cfg); z.expires.Some? ==> forall m :: m in z.members ==> m.at + cfg.window <= z.expires.value
    ensures After(reqs, cfg).expires.None? ==> After(reqs, cfg).members == {}
  {
    if |reqs| > 0 {
      var before, r := reqs[..|reqs| - 1], reqs[|reqs| - 1];
      KeyOutlivesMembers(before, cfg);
      MembersWereAdmitted(before, cfg);
      AdmittedIsOld(before, r.at, cfg);
      assert cfg.window / NS_PER_MS * NS_PER_MS == cfg.window;
    }
  }

  /** So on one clock the key goes early only for a window with a fraction. */
  lemma {:induction false} WholeWindowSuffices(reqs: seq<Req>, cfg: Config)
    requires OneClock(reqs) && (cfg.window % NS_PER_MS == 0 || cfg.window <= 0)
    ensures NoEarlyExpiry(reqs, cfg)
  {
    forall n | 0 <= n < |reqs| ensures GoneInTime(reqs, n, cfg) {
      if cfg.window <= 0 {
        MembersWereAdmitted(reqs[..n], cfg);
        AdmittedIsOld(reqs[..n], reqs[n].at, cfg);
      } else {
        KeyOutlivesMembers(reqs[..n], cfg);
      }
    }
  }

  // ------------------------------------------- when the key expires too early

  ghost predicate AgreesWithCount(cfg: Config) {
    forall reqs: seq<Req> :: |reqs| > 0 && FreshMembers(reqs) && OneClock(reqs)
      ==> Admits(reqs, cfg) == SpecAdmits(reqs, cfg)
  }

  lemma {:induction false} NothingAdmitted(reqs: seq<Req>, cfg: Config)
    requires cfg.maxRequests <= 0
    ensures Admitted(reqs, cfg) == [] && History(reqs, cfg) == []
    ensures |reqs| > 0 ==> !Admits(reqs, cfg) && !SpecAdmits(reqs, cfg)
  {
    if |reqs| > 0 {
      NothingAdmitted(reqs[..|reqs| - 1], cfg);
    }
  }

  /** maxRequests requests at once, then one as the truncated TTL runs out. */
  function Burst(n: nat, k: nat): seq<Req>
    requires k <= n
  {
    seq(k, i requires 0 <= i < k => Req(0, 0, i))
  }

  lemma {:induction false} BurstAdmitted(n: nat, k: nat, cfg: Config)
    requires 0 < cfg.window && k <= n && n == cfg.maxRequests
    ensures var h := History(Burst(n, k), cfg);
      |h| == k && Count(h, -cfg.window, 0) == k && forall i :: 0 <= i < k ==> h[i] == Member(0, i)
  {
    if k > 0 {
      BurstAdmitted(n, k - 1, cfg);
      assert Burst(n, k)[..k - 1] == Burst(n, k - 1);
      var h := History(Burst(n, k - 1), cfg);
      assert History(Burst(n, k), cfg)[..k - 1] == h;
    }
  }

  lemma {:induction false} CountAll(hist: seq<Member>, lo: int, hi: int)
    requires forall i :: 0 <= i < |hist| ==> lo < hist[i].at <= hi
    ensures Count(hist, lo, hi) == |hist|
  {
    if |hist| > 0 {
      CountAll(hist[..|hist| - 1], lo, hi);
    }
  }

  /** If every request of the burst is at 0, the key is set to go at the
      truncated window, or is already gone. */
  lemma {:induction false} BurstKey(n: nat, k: nat, cfg: Config)
    requires k <= n && n == cfg.maxRequests && cfg.window > 0
    ensures var z := After(Burst(n, k), cfg);
      z == EMPTY || z.expires == Some(cfg.window / NS_PER_MS * NS_PER_MS) || |z.members| < n
  {
    if k > 0 {
      assert Burst(n, k)[..k - 1] == Burst(n, k - 1);
      BurstKey(n, k - 1, cfg);
    }
  }

  lemma {:induction false} FractionDisagrees(cfg: Config)
    requires cfg.window > 0 && cfg.window % NS_PER_MS != 0 && cfg.maxRequests >= 1
    ensures !AgreesWithCount(cfg)
  {
    var n: nat := cfg.maxRequests;
    var ttl := cfg.window / NS_PER_MS * NS_PER_MS;
    assert 0 <= ttl < cfg.window;
    var burst := Burst(n, n);
    var reqs := burst + [Req(ttl, ttl, n)];
    assert reqs[..n] == burst;
    BurstAdmitted(n, n, cfg);
    var h := History(burst, cfg);
    CountAll(h, ttl - cfg.window, ttl);
    assert !SpecAdmits(reqs, cfg);
    BurstKey(n, n, cfg);
    PrunedSmall(After(burst, cfg), reqs[n], n, cfg);
    assert Admits(reqs, cfg);
    assert FreshMembers(reqs) && OneClock(reqs);
  }

  lemma {:induction false} PrunedSmall(z: Zset, r: Req, n: nat, cfg: Config)
    requires n >= 1
    requires z == EMPTY || z.expires == Some(r.clock) || |z.members| < n
    ensures |Pruned(z, r, cfg)| < n
  {
    PruneShrinks(z, r, cfg);
  }

  /** Exactly when the pruned set decides like the full count on one clock: the
      window is in whole milliseconds, or is empty, or nothing is ever admitted. */
  lemma {:induction false} AgreementIff(cfg: Config)
    ensures AgreesWithCount(cfg) <==> cfg.window % 1_000_000 == 0 || cfg.window <= 0 || cfg.maxRequests <= 0
  {
    if cfg.maxRequests <= 0 {
      forall reqs: seq<Req> | |reqs| > 0 && FreshMembers(reqs) && OneClock(reqs)
        ensures Admits(reqs, cfg) == SpecAdmits(reqs, cfg)
      {
        NothingAdmitted(reqs, cfg);
      }
    } else if cfg.window % NS_PER_MS == 0 || cfg.window <= 0 {
      forall reqs: seq<Req> | |reqs| > 0 && FreshMembers(reqs) && OneClock(reqs)
        ensures Admits(reqs, cfg) == SpecAdmits(reqs, cfg)
      {
        WholeWindowSuffices(reqs, cfg);
        ScriptRefinesCount(reqs, cfg);
      }
    } else {
      FractionDisagrees(cfg);
    }
  }

  function Limit(cfg: Config): nat {
    if cfg.maxRequests >= 0 then cfg.maxRequests else 0
  }

  /** The set never outgrows the limit, for any clocks at all. */
  lemma {:induction false} SetWithinLimit(reqs: seq<Req>, cfg: Config)
    ensures |After(reqs, cfg).members| <= Limit(cfg)
  {
    if |reqs| > 0 {
      SetWithinLimit(reqs[..|reqs| - 1], cfg);
      PruneShrinks(After(reqs[..|reqs| - 1], cfg), reqs[|reqs| - 1], cfg);
    }
  }

  lemma {:induction false} PruneShrinks(z: Zset, r: Req, cfg: Config)
    ensures |Pruned(z, r, cfg)| <= |z.members|
  {
    var kept := Pruned(z, r, cfg);
    assert z.members == kept + (z.members - kept);
  }
}
