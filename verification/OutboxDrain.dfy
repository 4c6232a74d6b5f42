/** How many polls a pending event can take to leave the pending state when one
    worker serves the table and its table updates succeed. */
module OutboxDrain {
  import opened Core
  import opened Outbox
  import opened OutboxSingle

  /** The table after one batch, `oks[i]` being whether publish i returned nil. */
  function HandleAll(rows: seq<Row>, batch: seq<Item>, oks: seq<bool>, cfg: Config): seq<Row>
    requires |oks| == |batch|
    decreases |batch|
  {
    if |batch| == 0 then rows
    else HandleAll(Settle(rows, batch[0], oks[0], cfg), batch[1..], oks[1..], cfg)
  }

  /** One poll and the rows committed before the next one. */
  datatype Round = Round(batch: seq<Item>, oks: seq<bool>, arrivals: seq<Row>)

  ghost predicate LegalRound(rows: seq<Row>, r: Round, e: nat, cfg: Config)
    requires e < |rows|
  {
    && IsPendingBatch(rows, r.batch, cfg.batchSize) && |r.oks| == |r.batch|
    && forall i :: 0 <= i < |r.arrivals| ==> r.arrivals[i].createdAt > rows[e].createdAt
  }

  function AfterRound(rows: seq<Row>, r: Round, cfg: Config): seq<Row>
    requires |r.oks| == |r.batch|
  {
    HandleAll(rows, r.batch, r.oks, cfg) + r.arrivals
  }

  /** What handling a batch never changes. */
  ghost predicate SameShape(rows: seq<Row>, rows': seq<Row>) {
    && |rows| == |rows'|
    && forall k :: 0 <= k < |rows| ==> rows'[k].createdAt == rows[k].createdAt
  }

  /** Publishes still to be tried before the row can only be terminal. */
  function Left(row: Row, cfg: Config): nat {
    if !row.status.Pending? then 0
    else if cfg.maxRetries - row.retry >= 1 then cfg.maxRetries - row.retry else 1
  }

  predicate Ahead(rows: seq<Row>, k: nat, e: nat)
    requires k < |rows| && e < |rows|
  {
    k != e && rows[k].createdAt <= rows[e].createdAt
  }

  /** Work that may be done before e's turn, over the first n rows. */
  function Load(rows: seq<Row>, n: nat, e: nat, cfg: Config): nat
    requires n <= |rows| && e < |rows|
  {
    if n == 0 then 0
    else Load(rows, n - 1, e, cfg) + (if Ahead(rows, n - 1, e) then Left(rows[n - 1], cfg) else 0)
  }

  lemma {:induction false} LoadCongruent(rows: seq<Row>, rows': seq<Row>, n: nat, e: nat, j: nat, cfg: Config)
    requires SameShape(rows, rows') && n <= |rows| && e < |rows| && j < |rows|
    requires forall k :: 0 <= k < |rows| && k != j ==> rows'[k] == rows[k]
    ensures Load(rows', n, e, cfg) + (if j < n && Ahead(rows, j, e) then Left(rows[j], cfg) else 0)
         == Load(rows, n, e, cfg) + (if j < n && Ahead(rows, j, e) then Left(rows'[j], cfg) else 0)
  {
    if n > 0 {
      LoadCongruent(rows, rows', n - 1, e, j, cfg);
    }
  }

  lemma {:induction false} SettleEffect(rows: seq<Row>, item: Item, ok: bool, cfg: Config)
    requires item.id < |rows| && rows[item.id] == item.row && item.row.status.Pending?
    ensures SameShape(rows, Settle(rows, item, ok, cfg))
    ensures Left(Settle(rows, item, ok, cfg)[item.id], cfg) < Left(rows[item.id], cfg)
    ensures forall k :: 0 <= k < |rows| && k != item.id ==> Settle(rows, item, ok, cfg)[k] == rows[k]
  {}

  /** A batch takes one publish off every row in it and touches no other row. */
  lemma {:induction false} HandleAllEffect(rows: seq<Row>, batch: seq<Item>, oks: seq<bool>, e: nat, cfg: Config)
    requires |oks| == |batch| && Fresh(rows, batch) && e < |rows|
    ensures SameShape(rows, HandleAll(rows, batch, oks, cfg))
    ensures InBatch(batch, e) ==> Left(HandleAll(rows, batch, oks, cfg)[e], cfg) < Left(rows[e], cfg)
    ensures !InBatch(batch, e) ==> HandleAll(rows, batch, oks, cfg)[e] == rows[e]
    decreases |batch|
  {
    if |batch| > 0 {
      var mid := Settle(rows, batch[0], oks[0], cfg);
      SettleEffect(rows, batch[0], oks[0], cfg);
      SettleKeepsFresh(rows, batch, oks[0], cfg);
      HandleAllEffect(mid, batch[1..], oks[1..], e, cfg);
      InBatchCons(batch, e);
    }
  }

  lemma {:induction false} InBatchCons(batch: seq<Item>, id: nat)
    requires |batch| > 0
    ensures InBatch(batch, id) <==> batch[0].id == id || InBatch(batch[1..], id)
  {
    if InBatch(batch, id) && batch[0].id != id {
      var i :| 0 <= i < |batch| && batch[i].id == id;
      assert batch[1..][i - 1].id == id;
    }
    if InBatch(batch[1..], id) {
      var i :| 0 <= i < |batch[1..]| && batch[1..][i].id == id;
      assert batch[i + 1].id == id;
    }
  }

  lemma {:induction false} HandleAllLoad(rows: seq<Row>, batch: seq<Item>, oks: seq<bool>, e: nat, cfg: Config)
    requires |oks| == |batch| && Fresh(rows, batch) && e < |rows|
    ensures var rows' := HandleAll(rows, batch, oks, cfg);
      && SameShape(rows, rows')
      && Load(rows', |rows|, e, cfg) <= Load(rows, |rows|, e, cfg)
      && ((forall i :: 0 <= i < |batch| ==> Ahead(rows, batch[i].id, e)) ==>
            Load(rows', |rows|, e, cfg) + |batch| <= Load(rows, |rows|, e, cfg))
    decreases |batch|
  {
    if |batch| > 0 {
      var mid := Settle(rows, batch[0], oks[0], cfg);
      SettleEffect(rows, batch[0], oks[0], cfg);
      SettleKeepsFresh(rows, batch, oks[0], cfg);
      LoadCongruent(rows, mid, |rows|, e, batch[0].id, cfg);
      HandleAllLoad(mid, batch[1..], oks[1..], e, cfg);
      if forall i :: 0 <= i < |batch| ==> Ahead(rows, batch[i].id, e) {
        assert Ahead(rows, batch[0].id, e);
        forall i | 0 <= i < |batch[1..]| ensures Ahead(mid, batch[1..][i].id, e) {
          assert batch[1..][i] == batch[i + 1];
        }
      }
    }
  }

  lemma {:induction false} LoadArrivals(rows: seq<Row>, arrivals: seq<Row>, n: nat, e: nat, cfg: Config)
    requires e < |rows| && n <= |rows + arrivals|
    requires forall i :: 0 <= i < |arrivals| ==> arrivals[i].createdAt > rows[e].createdAt
    ensures Load(rows + arrivals, n, e, cfg) == Load(rows, if n < |rows| then n else |rows|, e, cfg)
  {
    if n > 0 {
      LoadArrivals(rows, arrivals, n - 1, e, cfg);
    }
  }

  /** Full batches of b among x rows: x / b, counted down. */
  function Full(x: nat, b: nat): nat
    requires b >= 1
    decreases x
  {
    if x < b then 0 else 1 + Full(x - b, b)
  }

  lemma {:induction false} FullMonotone(x: nat, y: nat, b: nat)
    requires b >= 1 && x <= y
    ensures Full(x, b) <= Full(y, b)
    decreases x
  {
    if x >= b {
      FullMonotone(x - b, y - b, b);
    }
  }

  function Times(n: nat, d: nat): nat {
    if n == 0 then 0 else d + Times(n - 1, d)
  }

  lemma {:induction false} TimesIsProduct(n: nat, d: nat)
    ensures Times(n, d) == n * d
  {
    if n > 0 {
      TimesIsProduct(n - 1, d);
    }
  }

  /** Polls that suffice for e, whatever the order among equal timestamps. */
  function Polls(rows: seq<Row>, e: nat, cfg: Config): nat
    requires e < |rows| && cfg.batchSize >= 1
  {
    Full(Load(rows, |rows|, e, cfg), cfg.batchSize) + Left(rows[e], cfg)
  }

  lemma {:induction false} RoundProgress(rows: seq<Row>, r: Round, e: nat, cfg: Config)
    requires cfg.batchSize >= 1 && e < |rows| && LegalRound(rows, r, e, cfg)
    ensures |rows| <= |AfterRound(rows, r, cfg)|
    ensures AfterRound(rows, r, cfg)[e].createdAt == rows[e].createdAt
    ensures !rows[e].status.Pending? ==> AfterRound(rows, r, cfg)[e] == rows[e]
    ensures rows[e].status.Pending? ==> Polls(AfterRound(rows, r, cfg), e, cfg) + 1 <= Polls(rows, e, cfg)
  {
    var mid := HandleAll(rows, r.batch, r.oks, cfg);
    HandleAllEffect(rows, r.batch, r.oks, e, cfg);
    HandleAllLoad(rows, r.batch, r.oks, e, cfg);
    LoadArrivals(mid, r.arrivals, |mid + r.arrivals|, e, cfg);
    var before, after := Load(rows, |rows|, e, cfg), Load(mid, |mid|, e, cfg);
    if rows[e].status.Pending? {
      if InBatch(r.batch, e) {
        FullMonotone(after, before, cfg.batchSize);
      } else {
        assert |r.batch| == cfg.batchSize;
        forall i | 0 <= i < |r.batch| ensures Ahead(rows, r.batch[i].id, e) {
          assert InBatch(r.batch, r.batch[i].id);
        }
        FullMonotone(after, before - cfg.batchSize, cfg.batchSize);
      }
    }
  }

  ghost predicate LegalRounds(rows: seq<Row>, rounds: seq<Round>, e: nat, cfg: Config)
    requires e < |rows|
    decreases |rounds|
  {
    |rounds| == 0
    || (LegalRound(rows, rounds[0], e, cfg)
        && e < |AfterRound(rows, rounds[0], cfg)|
        && LegalRounds(AfterRound(rows, rounds[0], cfg), rounds[1..], e, cfg))
  }

  ghost function AfterRounds(rows: seq<Row>, rounds: seq<Round>, e: nat, cfg: Config): (rows': seq<Row>)
    requires e < |rows| && LegalRounds(rows, rounds, e, cfg)
    ensures e < |rows'|
    decreases |rounds|
  {
    if |rounds| == 0 then rows else AfterRounds(AfterRound(rows, rounds[0], cfg), rounds[1..], e, cfg)
  }

  /** However publishes fail and ties are broken, that many polls finish e. */
  lemma {:induction false} Drained(rows: seq<Row>, rounds: seq<Round>, e: nat, cfg: Config)
    requires cfg.batchSize >= 1 && e < |rows| && LegalRounds(rows, rounds, e, cfg)
    requires |rounds| >= Polls(rows, e, cfg)
    ensures !AfterRounds(rows, rounds, e, cfg)[e].status.Pending?
    decreases |rounds|
  {
    if |rounds| > 0 {
      RoundProgress(rows, rounds[0], e, cfg);
      if !rows[e].status.Pending? {
        StaysTerminal(AfterRound(rows, rounds[0], cfg), rounds[1..], e, cfg);
      } else {
        Drained(AfterRound(rows, rounds[0], cfg), rounds[1..], e, cfg);
      }
    }
  }

  lemma {:induction false} StaysTerminal(rows: seq<Row>, rounds: seq<Round>, e: nat, cfg: Config)
    requires cfg.batchSize >= 1 && e < |rows| && LegalRounds(rows, rounds, e, cfg)
    requires !rows[e].status.Pending?
    ensures AfterRounds(rows, rounds, e, cfg)[e] == rows[e]
    decreases |rounds|
  {
    if |rounds| > 0 {
      RoundProgress(rows, rounds[0], e, cfg);
      StaysTerminal(AfterRound(rows, rounds[0], cfg), rounds[1..], e, cfg);
    }
  }

  // ------------------------------------------------- the bound in row counts

  /** Pending rows that sort no later than e. */
  ghost function Older(rows: seq<Row>, e: nat): set<nat>
    requires e < |rows|
  {
    set k: nat | k < |rows| && Ahead(rows, k, e) && rows[k].status.Pending?
  }

  function Most(cfg: Config): nat {
    if cfg.maxRetries >= 1 then cfg.maxRetries else 1
  }

  lemma {:induction false} LoadBounded(rows: seq<Row>, n: nat, e: nat, cfg: Config)
    requires n <= |rows| && e < |rows|
    ensures Load(rows, n, e, cfg) <= Times(|set k: nat | k < n && k in Older(rows, e)|, Most(cfg))
  {
    var here := set k: nat | k < n && k in Older(rows, e);
    if n > 0 {
      LoadBounded(rows, n - 1, e, cfg);
      var before := set k: nat | k < n - 1 && k in Older(rows, e);
      if n - 1 in Older(rows, e) {
        assert here == before + {n - 1};
      } else {
        assert here == before;
      }
    }
  }

  /** Polls enough for a row with r pending rows that sort no later. */
  function PollsWithTies(r: nat, cfg: Config): nat
    requires cfg.batchSize >= 1
  {
    Full(Times(r, Most(cfg)), cfg.batchSize) + Most(cfg)
  }

  lemma {:induction false} PollsBounded(rows: seq<Row>, e: nat, cfg: Config)
    requires cfg.batchSize >= 1 && e < |rows|
    ensures Polls(rows, e, cfg) <= PollsWithTies(|Older(rows, e)|, cfg)
  {
    LoadBounded(rows, |rows|, e, cfg);
    assert (set k: nat | k < |rows| && k in Older(rows, e)) == Older(rows, e);
    FullMonotone(Load(rows, |rows|, e, cfg), Times(|Older(rows, e)|, Most(cfg)), cfg.batchSize);
  }

  /** Whatever the order among equal timestamps, failing rows delay a row by no
      more than their own tries. */
  lemma {:induction false} DrainBound(rows: seq<Row>, rounds: seq<Round>, e: nat, cfg: Config)
    requires cfg.batchSize >= 1 && e < |rows| && LegalRounds(rows, rounds, e, cfg)
    requires |rounds| >= PollsWithTies(|Older(rows, e)|, cfg)
    ensures !AfterRounds(rows, rounds, e, cfg)[e].status.Pending?
  {
    PollsBounded(rows, e, cfg);
    Drained(rows, rounds, e, cfg);
  }

  // ------------------------------------- the sharper bound when nothing ties

  /** No two rows up to e share a created_at. */
  ghost predicate NoTies(rows: seq<Row>, e: nat)
    requires e < |rows|
  {
    forall j, k :: 0 <= j < |rows| && 0 <= k < |rows| && j != k && rows[j].createdAt <= rows[e].createdAt
      ==> rows[j].createdAt != rows[k].createdAt
  }

  lemma {:induction false} BatchShape(rows: seq<Row>, r: Round, e: nat, cfg: Config)
    requires e < |rows| && LegalRound(rows, r, e, cfg)
    ensures var rows' := AfterRound(rows, r, cfg);
      && |rows| <= |rows'|
      && (forall k :: 0 <= k < |rows| ==> rows'[k].createdAt == rows[k].createdAt)
      && (forall k :: 0 <= k < |rows| && !rows[k].status.Pending? ==> rows'[k] == rows[k])
      && (forall k :: 0 <= k < |rows| && rows[k].status.Pending? ==>
            Left(rows'[k], cfg) + (if InBatch(r.batch, k) then 1 else 0) <= Left(rows[k], cfg))
      && (forall k :: |rows| <= k < |rows'| ==> rows'[k].createdAt > rows[e].createdAt)
  {
    var mid := HandleAll(rows, r.batch, r.oks, cfg);
    HandleAllEffect(rows, r.batch, r.oks, e, cfg);
    forall k | 0 <= k < |rows|
      ensures !rows[k].status.Pending? ==> mid[k] == rows[k]
      ensures Left(mid[k], cfg) + (if InBatch(r.batch, k) then 1 else 0) <= Left(rows[k], cfg)
    {
      HandleAllEffect(rows, r.batch, r.oks, k, cfg);
    }
  }

  lemma {:induction false} OlderShrinks(rows: seq<Row>, r: Round, e: nat, x: nat, cfg: Config)
    requires e < |rows| && x < |rows| && rows[x].createdAt <= rows[e].createdAt
    requires LegalRound(rows, r, e, cfg)
    ensures |rows| <= |AfterRound(rows, r, cfg)|
    ensures Older(AfterRound(rows, r, cfg), x) <= Older(rows, x)
  {
    BatchShape(rows, r, e, cfg);
  }

  function Ids(batch: seq<Item>): set<nat> {
    set i | 0 <= i < |batch| :: batch[i].id
  }

  lemma {:induction false} IdsCount(batch: seq<Item>)
    requires Distinct(batch)
    ensures |Ids(batch)| == |batch|
  {
    if |batch| > 0 {
      var n := |batch| - 1;
      IdsCount(batch[..n]);
      assert Ids(batch) == Ids(batch[..n]) + {batch[n].id};
    }
  }

  /** A row with fewer than batchSize rows before it is in every batch. */
  lemma {:induction false} FrontRowIsFetched(rows: seq<Row>, batch: seq<Item>, x: nat, cfg: Config)
    requires x < |rows| && rows[x].status.Pending? && IsPendingBatch(rows, batch, cfg.batchSize)
    requires |Older(rows, x)| < cfg.batchSize
    ensures InBatch(batch, x)
  {
    if !InBatch(batch, x) {
      IdsCount(batch);
      forall id | id in Ids(batch) ensures id in Older(rows, x) {
        var i :| 0 <= i < |batch| && batch[i].id == id;
        assert InBatch(batch, batch[i].id);
      }
      SubsetCount(Ids(batch), Older(rows, x));
    }
  }

  lemma {:induction false} SubsetCount(a: set<nat>, b: set<nat>)
    requires a <= b
    ensures |a| <= |b| && |b - a| == |b| - |a|
  {
    assert b == a + (b - a);
  }

  lemma {:induction false} FrontRowFinishes(rows: seq<Row>, rounds: seq<Round>, e: nat, x: nat, cfg: Config)
    requires e < |rows| && x < |rows| && rows[x].createdAt <= rows[e].createdAt
    requires LegalRounds(rows, rounds, e, cfg)
    requires |Older(rows, x)| < cfg.batchSize && |rounds| >= Left(rows[x], cfg)
    ensures x < |AfterRounds(rows, rounds, e, cfg)|
    ensures !AfterRounds(rows, rounds, e, cfg)[x].status.Pending?
    decreases |rounds|
  {
    if |rounds| > 0 {
      var rows' := AfterRound(rows, rounds[0], cfg);
      BatchShape(rows, rounds[0], e, cfg);
      OlderShrinks(rows, rounds[0], e, x, cfg);
      SubsetCount(Older(rows', x), Older(rows, x));
      if rows[x].status.Pending? {
        FrontRowIsFetched(rows, rounds[0].batch, x, cfg);
      }
      FrontRowFinishes(rows', rounds[1..], e, x, cfg);
    }
  }

  lemma {:induction false} RoundsShape(rows: seq<Row>, rounds: seq<Round>, e: nat, cfg: Config)
    requires e < |rows| && LegalRounds(rows, rounds, e, cfg)
    ensures var rows' := AfterRounds(rows, rounds, e, cfg);
      && |rows| <= |rows'| && rows'[e].createdAt == rows[e].createdAt
      && Older(rows', e) <= Older(rows, e)
      && (NoTies(rows, e) ==> NoTies(rows', e))
    decreases |rounds|
  {
    if |rounds| > 0 {
      BatchShape(rows, rounds[0], e, cfg);
      OlderShrinks(rows, rounds[0], e, e, cfg);
      RoundsShape(AfterRound(rows, rounds[0], cfg), rounds[1..], e, cfg);
    }
  }

  lemma {:induction false} RoundsSplit(rows: seq<Row>, rounds: seq<Round>, n: nat, e: nat, cfg: Config)
    requires e < |rows| && LegalRounds(rows, rounds, e, cfg) && n <= |rounds|
    ensures LegalRounds(rows, rounds[..n], e, cfg)
    ensures LegalRounds(AfterRounds(rows, rounds[..n], e, cfg), rounds[n..], e, cfg)
    ensures AfterRounds(AfterRounds(rows, rounds[..n], e, cfg), rounds[n..], e, cfg) == AfterRounds(rows, rounds, e, cfg)
    decreases n
  {
    if n > 0 {
      RoundsSplit(AfterRound(rows, rounds[0], cfg), rounds[1..], n - 1, e, cfg);
      assert rounds[..n][1..] == rounds[1..][..n - 1];
      assert rounds[1..][n - 1..] == rounds[n..];
    } else {
      assert rounds[..0] == [] && rounds[0..] == rounds;
    }
  }

  /** Once e waits behind a full batch, maxRetries polls clear that batch. */
  lemma {:induction false} FirstBatchClears(rows: seq<Row>, rounds: seq<Round>, e: nat, cfg: Config)
    requires cfg.batchSize >= 1 && e < |rows| && LegalRounds(rows, rounds, e, cfg) && rows[e].status.Pending?
    requires NoTies(rows, e) && |Older(rows, e)| >= cfg.batchSize && |rounds| == Most(cfg)
    ensures |Older(AfterRounds(rows, rounds, e, cfg), e)| + cfg.batchSize <= |Older(rows, e)|
  {
    var batch := rounds[0].batch;
    var rows' := AfterRounds(rows, rounds, e, cfg);
    assert IsPendingBatch(rows, batch, cfg.batchSize);
    IdsCount(batch);
    FullBatchIsOlder(rows, batch, e, cfg);
    forall x | x in Ids(batch) ensures x !in Older(rows', e) {
      var i :| 0 <= i < |batch| && batch[i].id == x;
      BatchMembersAreFront(rows, batch, i, e, cfg);
      FrontRowFinishes(rows, rounds, e, x, cfg);
    }
    RoundsShape(rows, rounds, e, cfg);
    assert Older(rows', e) <= Older(rows, e) - Ids(batch);
    SubsetCount(Ids(batch), Older(rows, e));
    SubsetCount(Older(rows', e), Older(rows, e) - Ids(batch));
  }

  lemma {:induction false} NotFetchedYet(rows: seq<Row>, batch: seq<Item>, e: nat, cfg: Config)
    requires e < |rows| && IsPendingBatch(rows, batch, cfg.batchSize)
    requires NoTies(rows, e) && |Older(rows, e)| >= cfg.batchSize
    ensures !InBatch(batch, e)
  {
    if i :| 0 <= i < |batch| && batch[i].id == e {
      IdsCount(batch);
      assert e in Ids(batch);
      forall k | k in Older(rows, e) ensures k in Ids(batch) - {e} {
        assert InBatch(batch, k);
      }
      SubsetCount(Older(rows, e), Ids(batch) - {e});
    }
  }

  lemma {:induction false} FullBatchIsOlder(rows: seq<Row>, batch: seq<Item>, e: nat, cfg: Config)
    requires e < |rows| && IsPendingBatch(rows, batch, cfg.batchSize) && rows[e].status.Pending?
    requires NoTies(rows, e) && |Older(rows, e)| >= cfg.batchSize
    ensures Ids(batch) <= Older(rows, e) && |batch| == cfg.batchSize
  {
    NotFetchedYet(rows, batch, e, cfg);
    forall id | id in Ids(batch) ensures id in Older(rows, e) {
      var i :| 0 <= i < |batch| && batch[i].id == id;
      assert InBatch(batch, id);
    }
  }

  lemma {:induction false} BatchMembersAreFront(rows: seq<Row>, batch: seq<Item>, i: nat, e: nat, cfg: Config)
    requires e < |rows| && IsPendingBatch(rows, batch, cfg.batchSize) && i < |batch|
    requires NoTies(rows, e) && Ids(batch) <= Older(rows, e)
    ensures |Older(rows, batch[i].id)| < cfg.batchSize
  {
    var x := batch[i].id;
    assert x in Ids(batch);
    forall k | k in Older(rows, x) ensures k in Ids(batch) - {x} {
      assert InBatch(batch, k);
    }
    IdsCount(batch);
    SubsetCount(Older(rows, x), Ids(batch) - {x});
  }

  /** What is left once the rows of the first full batch have had their tries. */
  lemma {:induction false} AfterFirstBatch(rows: seq<Row>, rounds: seq<Round>, e: nat, cfg: Config) returns (rows': seq<Row>)
    requires cfg.batchSize >= 1 && e < |rows| && LegalRounds(rows, rounds, e, cfg) && NoTies(rows, e)
    requires rows[e].status.Pending? && |Older(rows, e)| >= cfg.batchSize && |rounds| >= Most(cfg)
    ensures e < |rows'| && LegalRounds(rows', rounds[Most(cfg)..], e, cfg) && NoTies(rows', e)
    ensures |Older(rows', e)| + cfg.batchSize <= |Older(rows, e)|
    ensures AfterRounds(rows', rounds[Most(cfg)..], e, cfg) == AfterRounds(rows, rounds, e, cfg)
  {
    var m := Most(cfg);
    RoundsSplit(rows, rounds, m, e, cfg);
    rows' := AfterRounds(rows, rounds[..m], e, cfg);
    FirstBatchClears(rows, rounds[..m], e, cfg);
    RoundsShape(rows, rounds[..m], e, cfg);
  }

  /** Induction over the full batches in front of e. */
  lemma {:induction false} DrainByBatches(rows: seq<Row>, rounds: seq<Round>, e: nat, n: nat, cfg: Config)
    requires cfg.batchSize >= 1 && e < |rows| && LegalRounds(rows, rounds, e, cfg) && NoTies(rows, e)
    requires |Older(rows, e)| < Times(n + 1, cfg.batchSize)
    requires |rounds| >= Times(n + 1, Most(cfg))
    ensures !AfterRounds(rows, rounds, e, cfg)[e].status.Pending?
    decreases n
  {
    if !rows[e].status.Pending? {
      StaysTerminal(rows, rounds, e, cfg);
    } else if |Older(rows, e)| < cfg.batchSize {
      FrontRowFinishes(rows, rounds, e, e, cfg);
    } else {
      var rows' := AfterFirstBatch(rows, rounds, e, cfg);
      DrainByBatches(rows', rounds[Most(cfg)..], e, n - 1, cfg);
    }
  }

  /** One lot of tries for each batch up to and including the row's own. */
  function PollsWithoutTies(r: nat, cfg: Config): nat
    requires cfg.batchSize >= 1
  {
    Times(Full(r, cfg.batchSize) + 1, Most(cfg))
  }

  lemma {:induction false} FullBatches(r: nat, b: nat)
    requires b >= 1
    ensures r < Times(Full(r, b) + 1, b)
    decreases r
  {
    if r >= b {
      FullBatches(r - b, b);
    }
  }

  /** With r older pending rows: maxRetries * (r / batchSize + 1) polls, so rows
      failing at the head cannot starve the ones behind them. */
  lemma {:induction false} DrainBoundWithoutTies(rows: seq<Row>, rounds: seq<Round>, e: nat, r: nat, cfg: Config)
    requires cfg.batchSize >= 1 && e < |rows| && LegalRounds(rows, rounds, e, cfg) && NoTies(rows, e)
    requires |Older(rows, e)| <= r && |rounds| >= PollsWithoutTies(r, cfg)
    ensures !AfterRounds(rows, rounds, e, cfg)[e].status.Pending?
  {
    FullBatches(r, cfg.batchSize);
    DrainByBatches(rows, rounds, e, Full(r, cfg.batchSize), cfg);
  }

  lemma {:induction false} MulMonotone(p: nat, q: nat, d: nat)
    requires p <= q
    ensures p * d <= q * d
  {}

  lemma {:induction false} QuotientUnique(x: nat, b: nat, k: nat)
    requires b >= 1 && k * b <= x < k * b + b
    ensures x / b == k
  {
    var p := x / b;
    assert p * b <= x < p * b + b;
    if p >= k + 1 {
      MulMonotone(k + 1, p, b);
    } else if k >= p + 1 {
      MulMonotone(p + 1, k, b);
    }
  }

  lemma {:induction false} FullIsQuotient(x: nat, b: nat)
    requires b >= 1
    ensures Full(x, b) == x / b
    decreases x
  {
    if x >= b {
      FullIsQuotient(x - b, b);
      var q := (x - b) / b;
      assert (q + 1) * b == q * b + b;
      QuotientUnique(x, b, q + 1);
    } else {
      QuotientUnique(x, b, 0);
    }
  }

  lemma {:induction false} ClosedForms(r: nat, m: nat, b: nat)
    requires b >= 1
    ensures Full(Times(r, m), b) == r * m / b
    ensures Times(Full(r, b) + 1, m) == m * (r / b + 1)
  {
    TimesIsProduct(r, m);
    FullIsQuotient(r * m, b);
    FullIsQuotient(r, b);
    TimesIsProduct(r / b + 1, m);
  }

  /** Both bounds in closed form. */
  lemma {:induction false} PollsInClosedForm(r: nat, cfg: Config)
    requires cfg.batchSize >= 1
    ensures PollsWithTies(r, cfg) == r * Most(cfg) / cfg.batchSize + Most(cfg)
    ensures PollsWithoutTies(r, cfg) == Most(cfg) * (r / cfg.batchSize + 1)
  {
    ClosedForms(r, Most(cfg), cfg.batchSize);
  }

  lemma {:induction false} RoundsCons(rows: seq<Row>, round: Round, rest: seq<Round>, e: nat, cfg: Config)
    requires e < |rows| && LegalRound(rows, round, e, cfg) && e < |AfterRound(rows, round, cfg)|
    requires LegalRounds(AfterRound(rows, round, cfg), rest, e, cfg)
    ensures LegalRounds(rows, [round] + rest, e, cfg)
    ensures AfterRounds(rows, [round] + rest, e, cfg) == AfterRounds(AfterRound(rows, round, cfg), rest, e, cfg)
  {
    assert ([round] + rest)[1..] == rest;
  }
}
