/** What the limiter promises a client over whole traces. */
module RateLimitWindows {
  import opened Core
  import opened RateLimit

  // ------------------------------------------------ denied requests leave no mark

  /** The trace without the requests the script denies. */
  function WithoutDenied(reqs: seq<Req>, cfg: Config): seq<Req> {
    if |reqs| == 0 then []
    else WithoutDenied(reqs[..|reqs| - 1], cfg) + (if Admits(reqs, cfg) then [reqs[|reqs| - 1]] else [])
  }

  /** Neither the stamps nor Redis's clock go back; the two need not agree. */
  predicate TimeAscends(reqs: seq<Req>) {
    forall i, j :: 0 <= i < j < |reqs| ==> reqs[i].at <= reqs[j].at && reqs[i].clock <= reqs[j].clock
  }

  /** From this moment on no request can tell the two keys apart. */
  ghost predicate PruneAlike(z: Zset, y: Zset, now: Req, cfg: Config) {
    forall r: Req :: now.at <= r.at && now.clock <= r.clock ==> Pruned(z, r, cfg) == Pruned(y, r, cfg)
  }

  /** A denied request prunes what every later request would have pruned. */
  lemma {:induction false} DenialUnseen(z: Zset, now: Req, cfg: Config)
    requires !Allowed(z, now, cfg)
    ensures PruneAlike(Script(z, now, cfg), z, now, cfg)
  {
    forall r: Req | now.at <= r.at && now.clock <= r.clock
      ensures Pruned(Script(z, now, cfg), r, cfg) == Pruned(z, r, cfg)
    {}
  }

  /** The full trace and the one without its denied requests leave keys that no
      later request can tell apart, and admit the same. */
  lemma {:induction false} KeysAlike(reqs: seq<Req>, cfg: Config)
    requires TimeAscends(reqs)
    ensures |reqs| > 0 ==> PruneAlike(After(reqs, cfg), After(WithoutDenied(reqs, cfg), cfg), reqs[|reqs| - 1], cfg)
    ensures |reqs| == 0 ==> After(reqs, cfg) == After(WithoutDenied(reqs, cfg), cfg)
    ensures Admitted(WithoutDenied(reqs, cfg), cfg) == Admitted(reqs, cfg)
  {
    if |reqs| > 0 {
      var before, r := reqs[..|reqs| - 1], reqs[|reqs| - 1];
      KeysAlike(before, cfg);
      var z, kept := After(before, cfg), WithoutDenied(before, cfg);
      assert Pruned(z, r, cfg) == Pruned(After(kept, cfg), r, cfg);
      assert (kept + [r])[..|kept|] == kept;
      if Admits(reqs, cfg) {
        assert After(reqs, cfg) == After(kept + [r], cfg);
      } else {
        DenialUnseen(z, r, cfg);
        assert kept + [] == kept && Admitted(before, cfg) + [] == Admitted(before, cfg);
        forall q: Req | r.at <= q.at && r.clock <= q.clock
          ensures Pruned(After(reqs, cfg), q, cfg) == Pruned(After(kept, cfg), q, cfg)
        {
          assert Pruned(After(reqs, cfg), q, cfg) == Pruned(z, q, cfg);
        }
      }
    }
  }

  lemma {:induction false} EachAdmitted(reqs: seq<Req>, k: nat, cfg: Config)
    requires TimeAscends(reqs) && 0 < k <= |WithoutDenied(reqs, cfg)|
    ensures Admits(WithoutDenied(reqs, cfg)[..k], cfg)
  {
    var before, r := reqs[..|reqs| - 1], reqs[|reqs| - 1];
    var kept := WithoutDenied(before, cfg);
    if k <= |kept| {
      EachAdmitted(before, k, cfg);
      assert WithoutDenied(reqs, cfg)[..k] == kept[..k];
    } else {
      KeysAlike(before, cfg);
      assert WithoutDenied(reqs, cfg)[..k] == kept + [r] && (kept + [r])[..|kept|] == kept;
      assert Pruned(After(before, cfg), r, cfg) == Pruned(After(kept, cfg), r, cfg);
    }
  }

  /** Deleting all denied requests leaves every other decision as it was: what
      remains is admitted, request by request. */
  lemma {:induction false} DeniedRequestsInvisible(reqs: seq<Req>, cfg: Config, k: nat)
    requires TimeAscends(reqs) && 0 < k <= |WithoutDenied(reqs, cfg)|
    ensures Admits(WithoutDenied(reqs, cfg)[..k], cfg)
    ensures Admitted(WithoutDenied(reqs, cfg), cfg) == Admitted(reqs, cfg)
  {
    EachAdmitted(reqs, k, cfg);
    KeysAlike(reqs, cfg);
  }

  lemma {:induction false} CountNone(hist: seq<Member>, lo: int, hi: int)
    requires forall m :: m in hist ==> m.at <= lo
    ensures Count(hist, lo, hi) == 0
  {
    if |hist| > 0 {
      CountNone(hist[..|hist| - 1], lo, hi);
    }
  }

  /** After a denial at t with nothing admitted since, a window's wait suffices. */
  lemma {:induction false} AdmittedAfterWaiting(reqs: seq<Req>, t: int, cfg: Config)
    requires cfg.maxRequests >= 1 && |reqs| > 0
    requires forall m :: m in Admitted(reqs[..|reqs| - 1], cfg) ==> m.at <= t
    requires reqs[|reqs| - 1].at >= t + cfg.window
    ensures Admits(reqs, cfg)
  {
    var before, r := reqs[..|reqs| - 1], reqs[|reqs| - 1];
    MembersWereAdmitted(before, cfg);
    assert Pruned(After(before, cfg), r, cfg) == {};
  }

  // ------------------------------------------------------ clocks that disagree

  /** No request is stamped more than d before one processed earlier. */
  predicate LagAtMost(reqs: seq<Req>, d: nat) {
    forall i, j :: 0 <= i < j < |reqs| ==> reqs[j].at >= reqs[i].at - d
  }

  function Newest(reqs: seq<Req>): int
    requires |reqs| > 0
  {
    var last := reqs[|reqs| - 1].at;
    if |reqs| == 1 then last
    else
      var before := Newest(reqs[..|reqs| - 1]);
      if before > last then before else last
  }

  lemma {:induction false} NewestBound(reqs: seq<Req>)
    requires |reqs| > 0
    ensures forall i :: 0 <= i < |reqs| ==> reqs[i].at <= Newest(reqs)
    ensures exists i :: 0 <= i < |reqs| && reqs[i].at == Newest(reqs)
  {
    var n := |reqs| - 1;
    if n > 0 {
      NewestBound(reqs[..n]);
      var i :| 0 <= i < n && reqs[..n][i].at == Newest(reqs[..n]);
      assert reqs[i].at == Newest(reqs[..n]);
      forall j | 0 <= j < n ensures reqs[j].at <= Newest(reqs) {
        assert reqs[..n][j].at <= Newest(reqs[..n]);
      }
    }
    assert reqs[n].at <= Newest(reqs);
  }

  /** The set still holds every admitted request younger than a window, counted
      back from the newest stamp seen. */
  predicate HoldsRecent(reqs: seq<Req>, cfg: Config) {
    |reqs| > 0 ==>
      forall m :: m in Admitted(reqs, cfg) && m.at > Newest(reqs) - cfg.window ==> m in After(reqs, cfg).members
  }

  lemma {:induction false} PrefixTrace(reqs: seq<Req>, d: nat, cfg: Config)
    requires |reqs| > 0 && LagAtMost(reqs, d) && FreshMembers(reqs) && NoEarlyExpiry(reqs, cfg)
    ensures var before := reqs[..|reqs| - 1];
      LagAtMost(before, d) && FreshMembers(before) && NoEarlyExpiry(before, cfg)
  {
    PrefixExpiry(reqs, cfg);
  }

  lemma {:induction false} AdmittedDistinct(reqs: seq<Req>, cfg: Config)
    requires FreshMembers(reqs)
    ensures DistinctMembers(Admitted(reqs, cfg)) && FromRequests(Admitted(reqs, cfg), reqs)
    ensures |reqs| > 0 ==> Member(reqs[|reqs| - 1].at, reqs[|reqs| - 1].nonce) !in Admitted(reqs[..|reqs| - 1], cfg)
  {
    if |reqs| > 0 {
      AdmittedDistinct(reqs[..|reqs| - 1], cfg);
      MemberSnoc(Admitted(reqs[..|reqs| - 1], cfg), reqs);
    }
  }

  lemma {:induction false} RecentKept(reqs: seq<Req>, d: nat, cfg: Config)
    requires FreshMembers(reqs) && NoEarlyExpiry(reqs, cfg) && LagAtMost(reqs, d)
    requires cfg.window > 0
    ensures HoldsRecent(reqs, cfg)
  {
    if |reqs| > 0 {
      var n := |reqs| - 1;
      PrefixTrace(reqs, d, cfg);
      RecentKept(reqs[..n], d, cfg);
      var z := After(reqs[..n], cfg);
      assert GoneInTime(reqs, n, cfg);
      assert reqs[n].at <= Newest(reqs);
      forall m | m in Admitted(reqs, cfg) && m.at > Newest(reqs) - cfg.window
        ensures m in After(reqs, cfg).members
      {
        if m in Admitted(reqs[..n], cfg) {
          assert m in z.members;
        }
      }
    }
  }

  /** Admitted requests of the window that the last request falls in are all
      in the set it is judged against. */
  lemma {:induction false} JudgedAgainstWindow(reqs: seq<Req>, d: nat, lo: int, cfg: Config)
    requires |reqs| > 0 && 0 <= d < cfg.window
    requires FreshMembers(reqs) && NoEarlyExpiry(reqs, cfg) && LagAtMost(reqs, d)
    requires lo < reqs[|reqs| - 1].at <= lo + cfg.window - d
    ensures var before, r := reqs[..|reqs| - 1], reqs[|reqs| - 1];
      InWindow(Admitted(before, cfg), lo, lo + cfg.window - d) <= Pruned(After(before, cfg), r, cfg)
  {
    var n := |reqs| - 1;
    var before, r := reqs[..n], reqs[n];
    PrefixTrace(reqs, d, cfg);
    RecentKept(before, d, cfg);
    assert GoneInTime(reqs, n, cfg);
    if n > 0 {
      NewestBound(before);
      var i :| 0 <= i < n && before[i].at == Newest(before);
      assert r.at >= reqs[i].at - d;
    }
    forall m | m in InWindow(Admitted(before, cfg), lo, lo + cfg.window - d)
      ensures m in Pruned(After(before, cfg), r, cfg)
    {
      assert m in After(before, cfg).members;
    }
  }

  lemma {:induction false} CountWithin(hist: seq<Member>, lo: int, hi: int, kept: set<Member>)
    requires DistinctMembers(hist) && InWindow(hist, lo, hi) <= kept
    ensures Count(hist, lo, hi) <= |kept|
  {
    CountIsCardinality(hist, lo, hi);
    assert kept == InWindow(hist, lo, hi) + (kept - InWindow(hist, lo, hi));
  }

  lemma {:induction false} AdmittedFit(reqs: seq<Req>, d: nat, lo: int, cfg: Config)
    requires |reqs| > 0 && d < cfg.window
    requires FreshMembers(reqs) && NoEarlyExpiry(reqs, cfg) && LagAtMost(reqs, d)
    requires lo < reqs[|reqs| - 1].at <= lo + cfg.window - d
    ensures Count(Admitted(reqs[..|reqs| - 1], cfg), lo, lo + cfg.window - d)
      <= |Pruned(After(reqs[..|reqs| - 1], cfg), reqs[|reqs| - 1], cfg)|
  {
    var before, r := reqs[..|reqs| - 1], reqs[|reqs| - 1];
    JudgedAgainstWindow(reqs, d, lo, cfg);
    assert DistinctMembers(Admitted(before, cfg)) by {
      PrefixTrace(reqs, d, cfg);
      AdmittedDistinct(before, cfg);
    }
    CountWithin(Admitted(before, cfg), lo, lo + cfg.window - d, Pruned(After(before, cfg), r, cfg));
  }

  /** With stamps lagging by at most d, no half-open window of length
      window - d ever sees more than maxRequests admissions. */
  lemma {:induction false} RateBoundUnderSkew(reqs: seq<Req>, d: nat, lo: int, cfg: Config)
    requires d < cfg.window
    requires FreshMembers(reqs) && NoEarlyExpiry(reqs, cfg) && LagAtMost(reqs, d)
    ensures Count(Admitted(reqs, cfg), lo, lo + cfg.window - d) <= Limit(cfg)
  {
    if |reqs| > 0 {
      var before, r := reqs[..|reqs| - 1], reqs[|reqs| - 1];
      PrefixTrace(reqs, d, cfg);
      RateBoundUnderSkew(before, d, lo, cfg);
      if Admits(reqs, cfg) && lo < r.at <= lo + cfg.window - d {
        AdmittedFit(reqs, d, lo, cfg);
      }
      CountSnoc(Admitted(before, cfg), Member(r.at, r.nonce), lo, lo + cfg.window - d);
      assert Admitted(before, cfg) + [] == Admitted(before, cfg);
    }
  }

  lemma {:induction false} CountSnoc(hist: seq<Member>, m: Member, lo: int, hi: int)
    ensures Count(hist + [m], lo, hi) == Count(hist, lo, hi) + (if lo < m.at <= hi then 1 else 0)
  {
    assert (hist + [m])[..|hist|] == hist;
  }

  // ------------------------------------------------ the full window under skew

  predicate Spaced(hist: seq<Member>, gap: int) {
    forall i, j :: 0 <= i < j < |hist| ==> hist[i].at + gap <= hist[j].at
  }

  /** Every admission finds the set empty. */
  predicate FromEmpty(reqs: seq<Req>, cfg: Config) {
    forall n :: 0 <= n < |reqs| ==> FindsEmpty(reqs, n, cfg)
  }

  predicate FindsEmpty(reqs: seq<Req>, n: nat, cfg: Config)
    requires n < |reqs|
  {
    var z := After(reqs[..n], cfg);
    Allowed(z, reqs[n], cfg) ==> Pruned(z, reqs[n], cfg) == {}
  }

  lemma {:induction false} SpacedSnoc(h: seq<Member>, m: Member, gap: int)
    requires Spaced(h, gap) && gap > 0 && (h != [] ==> h[|h| - 1].at + gap <= m.at)
    ensures Spaced(h + [m], gap)
  {
    var all := h + [m];
    forall i, j | 0 <= i < j < |all| ensures all[i].at + gap <= all[j].at {
      assert i < |h| - 1 ==> h[i].at + gap <= h[|h| - 1].at;
    }
  }

  lemma {:induction false} PrefixFromEmpty(reqs: seq<Req>, cfg: Config)
    requires |reqs| > 0 && FromEmpty(reqs, cfg)
    ensures FromEmpty(reqs[..|reqs| - 1], cfg)
  {
    var before := reqs[..|reqs| - 1];
    forall k | 0 <= k < |before| ensures FindsEmpty(before, k, cfg) {
      assert FindsEmpty(reqs, k, cfg) && before[..k] == reqs[..k];
    }
  }

  /** Then admissions are a window apart. */
  lemma {:induction false} FromEmptySpaced(reqs: seq<Req>, cfg: Config)
    requires cfg.window > 0 && NoEarlyExpiry(reqs, cfg) && FromEmpty(reqs, cfg)
    ensures Spaced(Admitted(reqs, cfg), cfg.window)
    ensures var h := Admitted(reqs, cfg); After(reqs, cfg).members == if h == [] then {} else {h[|h| - 1]}
  {
    if |reqs| > 0 {
      var n := |reqs| - 1;
      var before, r := reqs[..n], reqs[n];
      PrefixExpiry(reqs, cfg);
      PrefixFromEmpty(reqs, cfg);
      FromEmptySpaced(before, cfg);
      assert FindsEmpty(reqs, n, cfg) && GoneInTime(reqs, n, cfg);
      var h, z := Admitted(before, cfg), After(before, cfg);
      if Admits(reqs, cfg) {
        if h != [] {
          assert h[|h| - 1] in z.members && h[|h| - 1] !in Pruned(z, r, cfg);
        }
        SpacedSnoc(h, Member(r.at, r.nonce), cfg.window);
        assert After(reqs, cfg).members == {} + {Member(r.at, r.nonce)};
      } else {
        assert h + [] == h;
        if cfg.maxRequests <= 0 {
          NothingAdmitted(before, cfg);
        }
        NothingOrLast(z, r, h, cfg);
      }
    }
  }

  /** A denial leaves a set of at most one member as it is. */
  lemma {:induction false} NothingOrLast(z: Zset, r: Req, h: seq<Member>, cfg: Config)
    requires !Allowed(z, r, cfg) && z.members == if h == [] then {} else {h[|h| - 1]}
    requires cfg.maxRequests <= 0 ==> h == []
    ensures Script(z, r, cfg).members == z.members
  {
    var kept := Pruned(z, r, cfg);
    assert kept <= z.members;
    if h != [] {
      assert kept != {};
      assert kept == z.members;
    }
  }

  lemma {:induction false} SpacedCount(hist: seq<Member>, lo: int, gap: int)
    requires Spaced(hist, gap) && gap > 0
    ensures Count(hist, lo, lo + gap) <= 1
  {
    if |hist| > 0 {
      var n := |hist| - 1;
      SpacedCount(hist[..n], lo, gap);
      if lo < hist[n].at <= lo + gap {
        CountNone(hist[..n], lo, lo + gap);
      }
    }
  }

  lemma {:induction false} LimitOneFromEmpty(reqs: seq<Req>, cfg: Config)
    requires cfg.maxRequests <= 1
    ensures FromEmpty(reqs, cfg)
  {}

  /** A window below a millisecond gives the key no time at all. */
  lemma {:induction false} ShortWindowFromEmpty(reqs: seq<Req>, cfg: Config)
    requires 0 < cfg.window < NS_PER_MS && RedisClockAscends(reqs)
    ensures FromEmpty(reqs, cfg)
    ensures var z := After(reqs, cfg); z == EMPTY || (z.expires.Some? && |reqs| > 0 && z.expires.value <= reqs[|reqs| - 1].clock) || z.members == {}
  {
    if |reqs| > 0 {
      var n := |reqs| - 1;
      ShortWindowFromEmpty(reqs[..n], cfg);
      forall k | 0 <= k < |reqs| ensures FindsEmpty(reqs, k, cfg) {
        if k < n {
          assert FindsEmpty(reqs[..n], k, cfg) && reqs[..n][..k] == reqs[..k];
        }
      }
      assert cfg.window / NS_PER_MS == 0;
    }
  }

  predicate RedisClockAscends(reqs: seq<Req>) {
    forall i, j :: 0 <= i < j < |reqs| ==> reqs[i].clock <= reqs[j].clock
  }

  /** Traces with stamps late by at most d, on a Redis clock that does not go back. */
  predicate Skewed(reqs: seq<Req>, d: nat, cfg: Config) {
    && FreshMembers(reqs) && LagAtMost(reqs, d) && NoEarlyExpiry(reqs, cfg)
    && RedisClockAscends(reqs)
  }

  predicate WindowHolds(reqs: seq<Req>, lo: int, cfg: Config) {
    Count(Admitted(reqs, cfg), lo, lo + cfg.window) <= Limit(cfg)
  }

  ghost predicate FullWindowHolds(d: nat, cfg: Config) {
    forall reqs, lo :: Skewed(reqs, d, cfg) ==> WindowHolds(reqs, lo, cfg)
  }

  lemma {:induction false} CountEmptyWindow(hist: seq<Member>, lo: int, hi: int)
    requires hi <= lo
    ensures Count(hist, lo, hi) == 0
  {
    if |hist| > 0 {
      CountEmptyWindow(hist[..|hist| - 1], lo, hi);
    }
  }

  lemma {:induction false} WindowHeld(reqs: seq<Req>, lo: int, d: nat, cfg: Config)
    requires Skewed(reqs, d, cfg)
    requires d == 0 || cfg.maxRequests <= 1 || cfg.window < NS_PER_MS
    ensures WindowHolds(reqs, lo, cfg)
  {
    if cfg.window <= 0 {
      CountEmptyWindow(Admitted(reqs, cfg), lo, lo + cfg.window);
    } else if cfg.maxRequests <= 0 {
      NothingAdmitted(reqs, cfg);
    } else if d == 0 {
      RateBoundUnderSkew(reqs, 0, lo, cfg);
    } else {
      OneAtATime(reqs, lo, d, cfg);
    }
  }

  lemma {:induction false} OneAtATime(reqs: seq<Req>, lo: int, d: nat, cfg: Config)
    requires Skewed(reqs, d, cfg) && cfg.window > 0 && cfg.maxRequests >= 1
    requires cfg.maxRequests == 1 || cfg.window < NS_PER_MS
    ensures Count(Admitted(reqs, cfg), lo, lo + cfg.window) <= 1
  {
    if cfg.maxRequests == 1 {
      LimitOneFromEmpty(reqs, cfg);
    } else {
      ShortWindowFromEmpty(reqs, cfg);
    }
    FromEmptySpaced(reqs, cfg);
    SpacedCount(Admitted(reqs, cfg), lo, cfg.window);
  }

  // Otherwise: a full limit at 0, one request a window later, and one stamped an
  // instant before that.

  /** One admitted request, with the set it finds. */
  lemma {:induction false} AdmitOne(reqs: seq<Req>, r: Req, kept: set<Member>, cfg: Config)
    requires Pruned(After(reqs, cfg), r, cfg) == kept && |kept| < cfg.maxRequests
    ensures After(reqs + [r], cfg) == Zset(kept + {Member(r.at, r.nonce)}, Some(r.clock + cfg.window / NS_PER_MS * NS_PER_MS))
    ensures Admitted(reqs + [r], cfg) == Admitted(reqs, cfg) + [Member(r.at, r.nonce)]
  {
    assert (reqs + [r])[..|reqs|] == reqs;
    assert Admits(reqs + [r], cfg);
  }

  lemma {:induction false} ExpirySnoc(reqs: seq<Req>, r: Req, cfg: Config)
    requires NoEarlyExpiry(reqs, cfg)
    requires Expired(After(reqs, cfg), r.clock) ==> forall m :: m in After(reqs, cfg).members ==> m.at <= r.at - cfg.window
    ensures NoEarlyExpiry(reqs + [r], cfg)
  {
    var all := reqs + [r];
    forall n | 0 <= n < |all| ensures GoneInTime(all, n, cfg) {
      assert all[..n] == if n < |reqs| then reqs[..n] else reqs;
      assert n < |reqs| ==> GoneInTime(reqs, n, cfg);
    }
  }

  /** k requests at 0, all admitted. */
  predicate FullAtZero(reqs: seq<Req>, k: nat, cfg: Config) {
    && |reqs| == k && (forall i :: 0 <= i < k ==> reqs[i] == Req(0, 0, i))
    && NoEarlyExpiry(reqs, cfg)
    && (var z := After(reqs, cfg);
        && |z.members| == k && (forall m :: m in z.members ==> m.at == 0 && m.nonce < k)
        && (z.expires.Some? ==> z.expires.value == cfg.window / NS_PER_MS * NS_PER_MS))
    && Count(Admitted(reqs, cfg), -1, -1 + cfg.window) == k
  }

  lemma {:induction false} FillAtZero(k: nat, cfg: Config) returns (reqs: seq<Req>)
    requires cfg.window >= NS_PER_MS && k <= cfg.maxRequests
    ensures FullAtZero(reqs, k, cfg)
  {
    reqs := [];
    if k > 0 {
      var before := FillAtZero(k - 1, cfg);
      var r := Req(0, 0, k - 1);
      var z := After(before, cfg);
      assert cfg.window / NS_PER_MS * NS_PER_MS > 0;
      assert Pruned(z, r, cfg) == z.members;
      AdmitOne(before, r, z.members, cfg);
      ExpirySnoc(before, r, cfg);
      CountSnoc(Admitted(before, cfg), Member(0, k - 1), -1, -1 + cfg.window);
      reqs := before + [r];
    }
  }

  /** The full limit at 0, and one more a window later. */
  lemma {:induction false} FillThenOne(cfg: Config) returns (reqs: seq<Req>)
    requires cfg.window >= NS_PER_MS && cfg.maxRequests >= 2
    ensures var n, w := cfg.maxRequests, cfg.window;
      && |reqs| == n + 1 && (forall i :: 0 <= i < n ==> reqs[i] == Req(0, 0, i)) && reqs[n] == Req(w, w, n)
      && NoEarlyExpiry(reqs, cfg) && After(reqs, cfg).members == {Member(w, n)}
      && !Expired(After(reqs, cfg), w) && Count(Admitted(reqs, cfg), -1, -1 + w) == n
  {
    var n: nat, w := cfg.maxRequests, cfg.window;
    assert 0 < w / NS_PER_MS * NS_PER_MS;
    var full := FillAtZero(n, cfg);
    var late := Req(w, w, n);
    assert Pruned(After(full, cfg), late, cfg) == {};
    ExpirySnoc(full, late, cfg);
    AdmitOne(full, late, {}, cfg);
    CountSnoc(Admitted(full, cfg), Member(w, n), -1, -1 + w);
    reqs := full + [late];
  }

  /** n requests at 0, one at w, one an instant earlier. */
  predicate LateTrace(reqs: seq<Req>, n: nat, w: int) {
    && |reqs| == n + 2 && (forall i :: 0 <= i < n ==> reqs[i] == Req(0, 0, i))
    && reqs[n] == Req(w, w, n) && reqs[n + 1] == Req(w - 1, w, n + 1)
  }

  lemma {:induction false} LateTraceIsFresh(reqs: seq<Req>, n: nat, w: int)
    requires LateTrace(reqs, n, w)
    ensures FreshMembers(reqs)
  {
    forall i | 0 <= i < |reqs| ensures reqs[i].nonce == i {}
  }

  lemma {:induction false} LateTraceLags(reqs: seq<Req>, n: nat, w: int)
    requires LateTrace(reqs, n, w) && w >= 1
    ensures LagAtMost(reqs, 1) && RedisClockAscends(reqs)
  {
    forall i, j | 0 <= i < j < |reqs| ensures reqs[j].at >= reqs[i].at - 1 && reqs[i].clock <= reqs[j].clock {
      assert i < n || i == n;
    }
  }

  /** With two or more allowed, one instant of lag admits one too many. */
  lemma {:induction false} SkewBreaksFullWindow(cfg: Config) returns (reqs: seq<Req>)
    requires cfg.window >= NS_PER_MS && cfg.maxRequests >= 2
    ensures Skewed(reqs, 1, cfg)
    ensures Count(Admitted(reqs, cfg), -1, -1 + cfg.window) == cfg.maxRequests + 1
  {
    var n: nat, w := cfg.maxRequests, cfg.window;
    var before := FillThenOne(cfg);
    var later := Req(w - 1, w, n + 1);
    assert Pruned(After(before, cfg), later, cfg) == {Member(w, n)};
    ExpirySnoc(before, later, cfg);
    AdmitOne(before, later, {Member(w, n)}, cfg);
    CountSnoc(Admitted(before, cfg), Member(w - 1, n + 1), -1, -1 + w);
    reqs := before + [later];
    assert LateTrace(reqs, n, w);
    LateTraceIsFresh(reqs, n, w);
    LateTraceLags(reqs, n, w);
  }

  /** Exactly when the full window is bounded too: nothing lags, or at most one
      request is allowed, or the window is below Redis's resolution. */
  lemma {:induction false} FullWindowIff(d: nat, cfg: Config)
    ensures FullWindowHolds(d, cfg) <==> d == 0 || cfg.maxRequests <= 1 || cfg.window < NS_PER_MS
  {
    if d == 0 || cfg.maxRequests <= 1 || cfg.window < NS_PER_MS {
      forall reqs, lo | Skewed(reqs, d, cfg) ensures WindowHolds(reqs, lo, cfg) {
        WindowHeld(reqs, lo, d, cfg);
      }
    } else {
      var reqs := SkewBreaksFullWindow(cfg);
      assert Skewed(reqs, d, cfg) && !WindowHolds(reqs, -1, cfg);
    }
  }
}
