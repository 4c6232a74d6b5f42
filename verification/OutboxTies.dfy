/** How long ties can delay an event. The query orders by created_at alone, so the
    database may rotate tied rows between polls, and a row can be passed over until
    all others have had nearly all their tries. */
module OutboxTies {
  import opened Core
  import opened Outbox
  import opened OutboxSingle
  import opened OutboxDrain

  // -------------------------------------------------------------- arithmetic

  lemma {:induction false} FullShift(n: nat, x: nat, b: nat)
    requires b >= 1
    ensures Full(Times(n, b) + x, b) == n + Full(x, b)
    decreases n
  {
    if n > 0 {
      FullShift(n - 1, x, b);
    }
  }

  lemma {:induction false} FullFits(x: nat, b: nat)
    requires b >= 1
    ensures Times(Full(x, b), b) <= x
    decreases x
  {
    if x >= b {
      FullFits(x - b, b);
    }
  }

  lemma {:induction false} TimesCommute(a: nat, b: nat)
    ensures Times(a, b) == Times(b, a)
  {
    TimesIsProduct(a, b);
    TimesIsProduct(b, a);
  }

  lemma {:induction false} TimesAdd(x: nat, y: nat, m: nat)
    ensures Times(x + y, m) == Times(x, m) + Times(y, m)
    decreases x
  {
    if x > 0 {
      TimesAdd(x - 1, y, m);
    }
  }

  lemma {:induction false} TimesSwap(q: nat, b: nat, m: nat)
    ensures Times(Times(q, b), m) == Times(Times(q, m), b)
    decreases q
  {
    if q > 0 {
      TimesSwap(q - 1, b, m);
      TimesAdd(b, Times(q - 1, b), m);
      TimesAdd(m, Times(q - 1, m), b);
      TimesCommute(b, m);
    }
  }

  lemma {:induction false} Remainder(x: nat, b: nat)
    requires b >= 1
    ensures x == Times(Full(x, b), b) + x % b
  {
    FullIsQuotient(x, b);
    TimesIsProduct(Full(x, b), b);
  }

  lemma {:induction false} ExtraPollsFor(r: nat, q: nat, s: nat, cfg: Config)
    requires cfg.batchSize >= 1 && q == Full(r, cfg.batchSize) && r == Times(q, cfg.batchSize) + s
    ensures PollsWithTies(r, cfg) == PollsWithoutTies(r, cfg) + Full(Times(s, Most(cfg)), cfg.batchSize)
  {
    var b, m := cfg.batchSize, Most(cfg);
    TimesAdd(Times(q, b), s, m);
    TimesSwap(q, b, m);
    FullShift(Times(q, m), Times(s, m), b);
  }

  /** What ties can cost on top of the sharper bound. */
  lemma {:induction false} ExtraPolls(r: nat, cfg: Config)
    requires cfg.batchSize >= 1
    ensures PollsWithTies(r, cfg) == PollsWithoutTies(r, cfg) + Full(Times(r % cfg.batchSize, Most(cfg)), cfg.batchSize)
  {
    Remainder(r, cfg.batchSize);
    ExtraPollsFor(r, Full(r, cfg.batchSize), r % cfg.batchSize, cfg);
  }

  lemma {:induction false} TimesMonotone(c: nat, m: nat, r: nat)
    requires m <= c
    ensures Times(m, r) <= Times(c, r)
    decreases m
  {
    if m > 0 {
      TimesMonotone(c - 1, m - 1, r);
    }
  }

  // ------------------------------------------------------ polls that all fail

  /** A row after k failed tries out of m. */
  function Tried(event: Event, k: nat, m: nat): Row
    requires m >= 1
  {
    if k >= m then Row(event, 0, Failed, m - 1) else Row(event, 0, Pending, k)
  }

  function AllFail(n: nat): seq<bool> {
    seq(n, i => false)
  }

  function FailedTry(row: Row, cfg: Config): Row {
    if row.retry + 1 >= cfg.maxRetries then row.(status := Failed) else row.(retry := row.retry + 1)
  }

  /** A batch that fails takes one try off every row in it and touches no other. */
  lemma {:induction false} BatchFails(rows: seq<Row>, batch: seq<Item>, cfg: Config)
    requires Fresh(rows, batch)
    ensures var rows' := HandleAll(rows, batch, AllFail(|batch|), cfg);
      && |rows'| == |rows|
      && forall k :: 0 <= k < |rows| ==> rows'[k] == if InBatch(batch, k) then FailedTry(rows[k], cfg) else rows[k]
    decreases |batch|
  {
    if |batch| > 0 {
      var mid := Settle(rows, batch[0], false, cfg);
      assert AllFail(|batch|)[1..] == AllFail(|batch| - 1);
      SettleKeepsFresh(rows, batch, false, cfg);
      BatchFails(mid, batch[1..], cfg);
      forall k | 0 <= k < |rows| ensures InBatch(batch, k) <==> batch[0].id == k || InBatch(batch[1..], k) {
        InBatchCons(batch, k);
      }
    }
  }

  predicate AllTied(rows: seq<Row>) {
    forall k :: 0 <= k < |rows| ==> rows[k].createdAt == 0
  }

  /** Tied rows may be fetched in any order: any full batch of them is an answer. */
  lemma {:induction false} FullBatchIsAnswer(rows: seq<Row>, batch: seq<Item>, e: nat, cfg: Config)
    requires AllTied(rows) && Fresh(rows, batch) && |batch| == cfg.batchSize && e < |rows|
    ensures LegalRound(rows, Round(batch, AllFail(|batch|), []), e, cfg)
  {}

  // ------------------------------------------------- laps over the older rows

  /** Tries of row i, when rows 0 to r - 1 are tried round and round and those
      before p have had one more than the others. Row r has not been tried. */
  function Tries(r: nat, c: nat, p: nat, i: nat): nat {
    if i == r then 0 else if i < p then c + 1 else c
  }

  predicate IsLap(rows: seq<Row>, event: Event, r: nat, c: nat, p: nat, cfg: Config) {
    && |rows| == r + 1
    && forall i :: 0 <= i <= r ==> rows[i] == Tried(event, Tries(r, c, p, i), Most(cfg))
  }

  lemma {:induction false} FailedTryCounts(event: Event, k: nat, cfg: Config)
    requires k < Most(cfg)
    ensures FailedTry(Tried(event, k, Most(cfg)), cfg) == Tried(event, k + 1, Most(cfg))
  {}

  function Fetched(rows: seq<Row>, lo: nat, hi: nat): seq<Item>
    requires lo <= hi <= |rows|
  {
    seq(hi - lo, i requires 0 <= i < hi - lo => Item(lo + i, rows[lo + i]))
  }

  lemma {:induction false} FetchedIds(rows: seq<Row>, lo: nat, hi: nat, k: nat)
    requires lo <= hi <= |rows|
    ensures InBatch(Fetched(rows, lo, hi), k) <==> lo <= k < hi
  {
    if lo <= k < hi {
      assert Fetched(rows, lo, hi)[k - lo].id == k;
    }
  }

  lemma {:induction false} InBatchAppend(a: seq<Item>, b: seq<Item>, k: nat)
    ensures InBatch(a + b, k) <==> InBatch(a, k) || InBatch(b, k)
  {
    if InBatch(a, k) {
      var i :| 0 <= i < |a| && a[i].id == k;
      assert (a + b)[i].id == k;
    }
    if InBatch(b, k) {
      var i :| 0 <= i < |b| && b[i].id == k;
      assert (a + b)[|a| + i].id == k;
    }
    if InBatch(a + b, k) {
      var i :| 0 <= i < |a + b| && (a + b)[i].id == k;
      assert i >= |a| ==> b[i - |a|].id == k;
    }
  }

  /** The rows from mid on, then those before lo, each once. */
  lemma {:induction false} WrapIsFresh(rows: seq<Row>, lo: nat, mid: nat, hi: nat)
    requires lo <= mid <= hi <= |rows|
    requires forall k :: (0 <= k < lo || mid <= k < hi) ==> rows[k].status.Pending?
    ensures Fresh(rows, Fetched(rows, mid, hi) + Fetched(rows, 0, lo))
    ensures forall k: nat :: InBatch(Fetched(rows, mid, hi) + Fetched(rows, 0, lo), k) <==> mid <= k < hi || k < lo
  {
    forall k: nat ensures InBatch(Fetched(rows, mid, hi) + Fetched(rows, 0, lo), k) <==> mid <= k < hi || k < lo {
      FetchedIds(rows, mid, hi, k);
      FetchedIds(rows, 0, lo, k);
      InBatchAppend(Fetched(rows, mid, hi), Fetched(rows, 0, lo), k);
    }
  }

  /** Where the lap stands after n more tries. */
  function NextLap(r: nat, c: nat, p: nat, n: nat): (nat, nat)
    requires p <= r && n <= r
  {
    if p + n <= r then (c, p + n) else (c + 1, p + n - r)
  }

  /** There are still that many full batches of tries left among the older rows. */
  predicate Enough(r: nat, c: nat, p: nat, polls: nat, cfg: Config) {
    1 <= cfg.batchSize <= r && p <= r && Times(c, r) + p + Times(polls, cfg.batchSize) <= Times(Most(cfg), r)
  }

  lemma {:induction false} EnoughTries(r: nat, c: nat, p: nat, cfg: Config)
    requires Enough(r, c, p, 1, cfg)
    ensures c < Most(cfg) && (p + cfg.batchSize > r ==> c + 1 < Most(cfg))
  {
    var m := Most(cfg);
    assert Times(1, cfg.batchSize) == cfg.batchSize;
    if c >= m {
      TimesMonotone(c, m, r);
    } else if c + 1 >= m {
      TimesMonotone(c + 1, m, r);
    }
  }

  /** Row k is one of the next b in turn. */
  predicate InTurn(r: nat, p: nat, b: nat, k: nat) {
    if p + b <= r then p <= k < p + b else p <= k < r || k < p + b - r
  }

  /** The next batch goes on where the last one stopped, starting a new lap if need be. */
  lemma {:induction false} NextBatch(rows: seq<Row>, event: Event, r: nat, c: nat, p: nat, cfg: Config)
    returns (batch: seq<Item>)
    requires Enough(r, c, p, 1, cfg) && IsLap(rows, event, r, c, p, cfg)
    ensures Fresh(rows, batch) && |batch| == cfg.batchSize
    ensures forall k: nat :: InBatch(batch, k) <==> InTurn(r, p, cfg.batchSize, k)
  {
    var b := cfg.batchSize;
    EnoughTries(r, c, p, cfg);
    if p + b <= r {
      WrapIsFresh(rows, 0, p, p + b);
      batch := Fetched(rows, p, p + b) + Fetched(rows, 0, 0);
    } else {
      WrapIsFresh(rows, p + b - r, p, r);
      batch := Fetched(rows, p, r) + Fetched(rows, 0, p + b - r);
    }
  }

  lemma {:induction false} LapPoll(rows: seq<Row>, event: Event, r: nat, c: nat, p: nat, cfg: Config)
    returns (round: Round)
    requires Enough(r, c, p, 1, cfg) && IsLap(rows, event, r, c, p, cfg)
    ensures LegalRound(rows, round, r, cfg)
    ensures var next := NextLap(r, c, p, cfg.batchSize); IsLap(AfterRound(rows, round, cfg), event, r, next.0, next.1, cfg)
  {
    var b := cfg.batchSize;
    var batch := NextBatch(rows, event, r, c, p, cfg);
    EnoughTries(r, c, p, cfg);
    FullBatchIsAnswer(rows, batch, r, cfg);
    BatchFails(rows, batch, cfg);
    round := Round(batch, AllFail(|batch|), []);
    var rows', next := AfterRound(rows, round, cfg), NextLap(r, c, p, b);
    forall i | 0 <= i <= r ensures rows'[i] == Tried(event, Tries(r, next.0, next.1, i), Most(cfg)) {
      if InBatch(batch, i) {
        FailedTryCounts(event, Tries(r, c, p, i), cfg);
      }
    }
  }

  lemma {:induction false} EnoughStays(r: nat, c: nat, p: nat, polls: nat, cfg: Config)
    requires polls > 0 && Enough(r, c, p, polls, cfg)
    ensures Enough(r, c, p, 1, cfg)
    ensures var next := NextLap(r, c, p, cfg.batchSize); Enough(r, next.0, next.1, polls - 1, cfg)
  {
    assert Times(1, cfg.batchSize) == cfg.batchSize;
  }

  lemma {:induction false} LapIsTied(rows: seq<Row>, event: Event, r: nat, c: nat, p: nat, cfg: Config)
    requires IsLap(rows, event, r, c, p, cfg)
    ensures AllTied(rows) && rows[r] == Tried(event, 0, Most(cfg))
  {
    assert rows[r] == Tried(event, Tries(r, c, p, r), Most(cfg));
  }

  // ------------------------------------------------- row r's own failed tries

  /** Pending rows among the first n, up to the limit. */
  lemma {:induction false} SomeBatch(rows: seq<Row>, n: nat, limit: nat) returns (batch: seq<Item>)
    requires n <= |rows|
    ensures Fresh(rows, batch) && |batch| <= limit && forall i :: 0 <= i < |batch| ==> batch[i].id < n
    ensures forall k :: 0 <= k < n && rows[k].status.Pending? && !InBatch(batch, k) ==> |batch| == limit
  {
    batch := [];
    if n > 0 {
      var before := SomeBatch(rows, n - 1, limit);
      batch := before;
      if |before| < limit && rows[n - 1].status.Pending? {
        batch := before + [Item(n - 1, rows[n - 1])];
        assert batch[|before|].id == n - 1;
      }
      forall k | 0 <= k < n - 1 && InBatch(before, k) ensures InBatch(batch, k) {
        var i :| 0 <= i < |before| && before[i].id == k;
        assert batch[i].id == k;
      }
    }
  }

  /** However the rows are fetched, a poll costs a row at most one try. */
  lemma {:induction false} FailingPolls(rows: seq<Row>, e: nat, polls: nat, cfg: Config) returns (rounds: seq<Round>)
    requires AllTied(rows) && e < |rows| && rows[e].status.Pending?
    requires polls > 0 ==> rows[e].retry + polls < cfg.maxRetries
    ensures |rounds| == polls && LegalRounds(rows, rounds, e, cfg)
    ensures AfterRounds(rows, rounds, e, cfg)[e].status.Pending?
    decreases polls
  {
    rounds := [];
    if polls > 0 {
      var batch := SomeBatch(rows, |rows|, cfg.batchSize);
      var round := Round(batch, AllFail(|batch|), []);
      BatchFails(rows, batch, cfg);
      var next := AfterRound(rows, round, cfg);
      assert next == HandleAll(rows, batch, AllFail(|batch|), cfg);
      var rest := FailingPolls(next, e, polls - 1, cfg);
      RoundsCons(rows, round, rest, e, cfg);
      rounds := [round] + rest;
    }
  }

  // ------------------------------------------------------------- main results

  /** As long as a full batch of tries is left, row r is not fetched; then it has
      its own tries, and is still pending before the last. */
  lemma {:induction false} LapPolls(rows: seq<Row>, event: Event, r: nat, c: nat, p: nat, polls: nat, cfg: Config)
    returns (rounds: seq<Round>)
    requires Enough(r, c, p, polls, cfg) && IsLap(rows, event, r, c, p, cfg)
    ensures |rounds| == polls + Most(cfg) - 1 && LegalRounds(rows, rounds, r, cfg)
    ensures AfterRounds(rows, rounds, r, cfg)[r].status.Pending?
    decreases polls
  {
    LapIsTied(rows, event, r, c, p, cfg);
    if polls == 0 {
      rounds := FailingPolls(rows, r, Most(cfg) - 1, cfg);
    } else {
      var next := NextLap(r, c, p, cfg.batchSize);
      EnoughStays(r, c, p, polls, cfg);
      var round := LapPoll(rows, event, r, c, p, cfg);
      var rest := LapPolls(AfterRound(rows, round, cfg), event, r, next.0, next.1, polls - 1, cfg);
      RoundsCons(rows, round, rest, r, cfg);
      rounds := [round] + rest;
    }
  }

  lemma {:induction false} CountBelow(s: set<nat>, r: nat)
    requires forall k :: k in s <==> 0 <= k < r
    ensures |s| == r
    decreases r
  {
    if r > 0 {
      CountBelow(s - {r - 1}, r - 1);
      assert s == s - {r - 1} + {r - 1};
    } else {
      assert s == {};
    }
  }

  /** r + 1 rows that tie and have not been tried. */
  function Untried(event: Event, r: nat): seq<Row> {
    seq(r + 1, i => Row(event, 0, Pending, 0))
  }

  /** The bound for tied rows is attained: for every configuration and every number
      of older rows that fills a batch, a row can be pending one poll before it. */
  lemma {:induction false} DrainBoundAttained(event: Event, r: nat, cfg: Config)
    returns (rows: seq<Row>, rounds: seq<Round>)
    requires 1 <= cfg.batchSize <= r
    ensures r < |rows| && |Older(rows, r)| == r
    ensures LegalRounds(rows, rounds, r, cfg) && |rounds| == PollsWithTies(r, cfg) - 1
    ensures AfterRounds(rows, rounds, r, cfg)[r].status.Pending?
  {
    var m, b := Most(cfg), cfg.batchSize;
    rows := Untried(event, r);
    CountBelow(Older(rows, r), r);
    TimesCommute(r, m);
    FullFits(Times(m, r), b);
    rounds := LapPolls(rows, event, r, 0, 0, Full(Times(m, r), b), cfg);
  }

  /** After that many polls a row with r older pending rows is terminal. */
  ghost predicate DoneWithin(polls: nat, r: nat, cfg: Config) {
    forall rows, rounds, e :: Waits(rows, rounds, e, r, cfg) && |rounds| >= polls ==> Done(rows, rounds, e, cfg)
  }

  ghost predicate Waits(rows: seq<Row>, rounds: seq<Round>, e: nat, r: nat, cfg: Config) {
    e < |rows| && LegalRounds(rows, rounds, e, cfg) && |Older(rows, e)| == r
  }

  ghost predicate Done(rows: seq<Row>, rounds: seq<Round>, e: nat, cfg: Config)
    requires e < |rows| && LegalRounds(rows, rounds, e, cfg)
  {
    !AfterRounds(rows, rounds, e, cfg)[e].status.Pending?
  }

  lemma {:induction false} SharpBoundSuffices(rows: seq<Row>, rounds: seq<Round>, e: nat, r: nat, cfg: Config)
    requires cfg.batchSize >= 1 && Waits(rows, rounds, e, r, cfg) && |rounds| >= PollsWithoutTies(r, cfg)
    requires r < cfg.batchSize || Times(r % cfg.batchSize, Most(cfg)) < cfg.batchSize
    ensures Done(rows, rounds, e, cfg)
  {
    if r < cfg.batchSize {
      assert Times(1, Most(cfg)) == Most(cfg);
      FrontRowFinishes(rows, rounds, e, e, cfg);
    } else {
      ExtraPolls(r, cfg);
      DrainBound(rows, rounds, e, cfg);
    }
  }

  /** Exactly when maxRetries * (r / batchSize + 1) polls are enough although rows
      may tie: the older rows fit into one batch with the row, or the rows left over
      from full batches have fewer tries among them than one batch takes. */
  lemma {:induction false} SharpBoundIff(r: nat, cfg: Config)
    requires cfg.batchSize >= 1
    ensures DoneWithin(PollsWithoutTies(r, cfg), r, cfg) <==> r < cfg.batchSize || Most(cfg) * (r % cfg.batchSize) < cfg.batchSize
  {
    TimesIsProduct(r % cfg.batchSize, Most(cfg));
    if r < cfg.batchSize || Times(r % cfg.batchSize, Most(cfg)) < cfg.batchSize {
      forall rows, rounds, e | Waits(rows, rounds, e, r, cfg) && |rounds| >= PollsWithoutTies(r, cfg)
        ensures Done(rows, rounds, e, cfg)
      {
        SharpBoundSuffices(rows, rounds, e, r, cfg);
      }
    } else {
      var id: Uuid := "00000000-0000-0000-0000-000000000000";
      var rows, rounds := DrainBoundAttained(Event(id, id, id, "", "", [], "{}", 0), r, cfg);
      ExtraPolls(r, cfg);
      assert Waits(rows, rounds, r, r, cfg) && !Done(rows, rounds, r, cfg);
    }
  }
}
