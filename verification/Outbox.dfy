/** The outbox table and any number of workers over it, as a transition system.
    A row's identity is its position in the append-only table. Workers act on
    snapshots, so the row they update may have changed since they read it. */
module Outbox {
  import opened Core

  datatype Status = Pending | Published | Failed

  datatype Row = Row(event: Event, createdAt: nat, status: Status, retry: nat)

  /** One element of a fetched batch: the row as it was when fetched. */
  datatype Item = Item(id: nat, row: Row)

  /** The unhandled rest of a batch; `verdict` is set once its head has been
      published, to whether the publish returned nil. */
  datatype Worker = Worker(batch: seq<Item>, verdict: Option<bool>)

  const IDLE: Worker := Worker([], None)

  datatype Message = Message(id: nat, event: Event)

  /** A finished publish attempt, and whether the table write after it took effect. */
  datatype Attempt = Attempt(id: nat, ok: bool, effective: bool)

  datatype State = State(
    rows: seq<Row>,
    workers: seq<Worker>,
    messages: seq<Message>,
    acked: set<nat>,
    log: seq<Attempt>)

  datatype Config = Config(batchSize: nat, maxRetries: int)

  /** Default of the max_retries column, the only bound the requeue looks at. */
  const MAX_RETRIES_COLUMN: nat := 5

  // ------------------------------------------------------- the SQL statements

  function MarkPublished(rows: seq<Row>, id: nat): seq<Row> {
    if id < |rows| && rows[id].status.Pending? then rows[id := rows[id].(status := Published)] else rows
  }

  /** Unlike the other two updates, this one has no guard on the status. */
  function MarkFailed(rows: seq<Row>, id: nat): seq<Row> {
    if id < |rows| then rows[id := rows[id].(status := Failed)] else rows
  }

  function IncrementRetry(rows: seq<Row>, id: nat): seq<Row> {
    if id < |rows| && rows[id].status.Pending? then rows[id := rows[id].(retry := rows[id].retry + 1)] else rows
  }

  function Requeued(row: Row): Row {
    if row.status.Failed? && row.retry < MAX_RETRIES_COLUMN then row.(status := Pending, retry := 0) else row
  }

  /** status = 'pending' ORDER BY created_at ASC LIMIT n; ties come in any order. */
  predicate IsPendingBatch(rows: seq<Row>, batch: seq<Item>, limit: nat) {
    && |batch| <= limit
    && (forall i :: 0 <= i < |batch| ==>
          batch[i].id < |rows| && rows[batch[i].id] == batch[i].row && batch[i].row.status.Pending?)
    && (forall i, j :: 0 <= i < j < |batch| ==>
          batch[i].id != batch[j].id && batch[i].row.createdAt <= batch[j].row.createdAt)
    && (forall k :: 0 <= k < |rows| && rows[k].status.Pending? && !InBatch(batch, k) ==>
          |batch| == limit && forall i :: 0 <= i < |batch| ==> batch[i].row.createdAt <= rows[k].createdAt)
  }

  predicate InBatch(batch: seq<Item>, id: nat) {
    exists i :: 0 <= i < |batch| && batch[i].id == id
  }

  /** handlePublishSuccess and handlePublishFailure: which update is issued is
      decided from the snapshot, not from the row. */
  function Settle(rows: seq<Row>, item: Item, ok: bool, cfg: Config): seq<Row> {
    if ok then MarkPublished(rows, item.id)
    else if item.row.retry + 1 >= cfg.maxRetries then MarkFailed(rows, item.id)
    else IncrementRetry(rows, item.id)
  }

  // ------------------------------------------------------------------- steps

  datatype Label =
    | Enqueue(event: Event, createdAt: nat)
    | Poll(w: nat, batch: seq<Item>)
    | Publish(w: nat, ok: bool, delivered: bool)
    | Write(w: nat, effective: bool)
    | Crash(w: nat)
    | Requeue

  predicate Enabled(s: State, l: Label, cfg: Config) {
    match l
    case Enqueue(_, _) => true
    case Poll(w, batch) =>
      w < |s.workers| && s.workers[w] == IDLE && IsPendingBatch(s.rows, batch, cfg.batchSize)
    case Publish(w, _, _) => w < |s.workers| && s.workers[w].batch != [] && s.workers[w].verdict.None?
    case Write(w, _) => w < |s.workers| && s.workers[w].batch != [] && s.workers[w].verdict.Some?
    case Crash(w) => w < |s.workers|
    case Requeue => true
  }

  function Head(s: State, w: nat): Item
    requires w < |s.workers| && s.workers[w].batch != []
  {
    s.workers[w].batch[0]
  }

  /** Nil from PublishWithContext is the worker's only success signal; whether
      the broker kept the message is a separate matter, as no confirm is awaited. */
  function AfterPublish(s: State, w: nat, ok: bool, delivered: bool): State
    requires w < |s.workers| && s.workers[w].batch != []
  {
    var item := Head(s, w);
    s.(workers := s.workers[w := Worker(s.workers[w].batch, Some(ok))],
       messages := if delivered then s.messages + [Message(item.id, item.row.event)] else s.messages,
       acked := if ok then s.acked + {item.id} else s.acked)
  }

  function AfterWrite(s: State, w: nat, effective: bool, cfg: Config): State
    requires w < |s.workers| && s.workers[w].batch != [] && s.workers[w].verdict.Some?
  {
    var item, ok := Head(s, w), s.workers[w].verdict.value;
    s.(rows := if effective then Settle(s.rows, item, ok, cfg) else s.rows,
       workers := s.workers[w := Worker(s.workers[w].batch[1..], None)],
       log := s.log + [Attempt(item.id, ok, effective)])
  }

  /** A worker that stops after publishing but before writing leaves an attempt
      without effect on the table. */
  function AfterCrash(s: State, w: nat): State
    requires w < |s.workers|
  {
    var me := s.workers[w];
    s.(workers := s.workers[w := IDLE],
       log := if me.verdict.Some? && me.batch != []
              then s.log + [Attempt(me.batch[0].id, me.verdict.value, false)] else s.log)
  }

  function Apply(s: State, l: Label, cfg: Config): State
    requires Enabled(s, l, cfg)
  {
    match l
    case Enqueue(event, createdAt) => s.(rows := s.rows + [Row(event, createdAt, Pending, 0)])
    case Poll(w, batch) => s.(workers := s.workers[w := Worker(batch, None)])
    case Publish(w, ok, delivered) => AfterPublish(s, w, ok, delivered)
    case Write(w, effective) => AfterWrite(s, w, effective, cfg)
    case Crash(w) => AfterCrash(s, w)
    case Requeue => s.(rows := seq(|s.rows|, i requires 0 <= i < |s.rows| => Requeued(s.rows[i])))
  }

  ghost predicate Legal(s: State, ls: seq<Label>, cfg: Config)
    decreases |ls|
  {
    |ls| == 0 || (Enabled(s, ls[0], cfg) && Legal(Apply(s, ls[0], cfg), ls[1..], cfg))
  }

  ghost function Run(s: State, ls: seq<Label>, cfg: Config): State
    requires Legal(s, ls, cfg)
    decreases |ls|
  {
    if |ls| == 0 then s else Run(Apply(s, ls[0], cfg), ls[1..], cfg)
  }

  /** Runs grow at their end. */
  lemma {:induction false} RunSnoc(s: State, ls: seq<Label>, l: Label, cfg: Config)
    requires Legal(s, ls, cfg) && Enabled(Run(s, ls, cfg), l, cfg)
    ensures Legal(s, ls + [l], cfg)
    ensures Run(s, ls + [l], cfg) == Apply(Run(s, ls, cfg), l, cfg)
    decreases |ls|
  {
    if |ls| > 0 {
      RunSnoc(Apply(s, ls[0], cfg), ls[1..], l, cfg);
      assert (ls + [l])[1..] == ls[1..] + [l];
    } else {
      assert ls + [l] == [l] && [l][1..] == [];
      assert Legal(Apply(s, l, cfg), [l][1..], cfg);
    }
  }

  lemma {:induction false} RunConcat(s: State, ls: seq<Label>, more: seq<Label>, cfg: Config)
    requires Legal(s, ls, cfg) && Legal(Run(s, ls, cfg), more, cfg)
    ensures Legal(s, ls + more, cfg)
    ensures Run(s, ls + more, cfg) == Run(Run(s, ls, cfg), more, cfg)
    decreases |ls|
  {
    if |ls| > 0 {
      RunConcat(Apply(s, ls[0], cfg), ls[1..], more, cfg);
      assert (ls + more)[1..] == ls[1..] + more;
    } else {
      assert ls + more == more;
    }
  }

  ghost predicate Init(s: State) {
    && s.rows == [] && s.messages == [] && s.acked == {} && s.log == []
    && forall w :: 0 <= w < |s.workers| ==> s.workers[w] == IDLE
  }

  // -------------------------------------------- safety, any number of workers

  ghost predicate ItemOk(s: State, item: Item) {
    item.id < |s.rows| && item.row.event == s.rows[item.id].event
  }

  ghost predicate WorkerOk(s: State, w: Worker) {
    && (forall i :: 0 <= i < |w.batch| ==> ItemOk(s, w.batch[i]))
    && (w.verdict.Some? ==> w.batch != [])
    && (w.verdict == Some(true) ==> w.batch != [] && w.batch[0].id in s.acked)
  }

  /** Every message is a committed row's own event; every published row has had a
      publish that returned nil. */
  ghost predicate Safe(s: State) {
    && (forall w :: 0 <= w < |s.workers| ==> WorkerOk(s, s.workers[w]))
    && (forall m :: 0 <= m < |s.messages| ==>
          s.messages[m].id < |s.rows| && s.messages[m].event == s.rows[s.messages[m].id].event)
    && (forall id :: 0 <= id < |s.rows| && s.rows[id].status.Published? ==> id in s.acked)
  }

  /** What no step ever does to a row: drop it or change its event. */
  ghost predicate SameEvents(rows: seq<Row>, rows': seq<Row>) {
    && |rows| <= |rows'|
    && forall id :: 0 <= id < |rows| ==>
         rows'[id].event == rows[id].event && rows'[id].createdAt == rows[id].createdAt
  }

  lemma {:induction false} StepKeepsEvents(s: State, l: Label, cfg: Config)
    requires Enabled(s, l, cfg)
    ensures SameEvents(s.rows, Apply(s, l, cfg).rows)
    ensures !l.Enqueue? ==> |Apply(s, l, cfg).rows| == |s.rows|
    ensures |Apply(s, l, cfg).workers| == |s.workers|
  {}

  lemma {:induction false} StepKeepsSafe(s: State, l: Label, cfg: Config)
    requires Safe(s) && Enabled(s, l, cfg)
    ensures Safe(Apply(s, l, cfg))
  {
    var s' := Apply(s, l, cfg);
    StepKeepsEvents(s, l, cfg);
    forall w | 0 <= w < |s'.workers| ensures WorkerOk(s', s'.workers[w]) {
      assert WorkerOk(s, s.workers[w]);
      if l.Write? && l.w == w {
        assert forall i :: 0 <= i < |s'.workers[w].batch| ==> s'.workers[w].batch[i] == s.workers[w].batch[i + 1];
      }
    }
    if l.Publish? {
      assert WorkerOk(s, s.workers[l.w]);
    }
    forall id | 0 <= id < |s'.rows| && s'.rows[id].status.Published? ensures id in s'.acked {
      if l.Write? {
        assert WorkerOk(s, s.workers[l.w]);
      }
    }
  }

  lemma {:induction false} RunKeepsSafe(s: State, ls: seq<Label>, cfg: Config)
    requires Safe(s) && Legal(s, ls, cfg)
    ensures Safe(Run(s, ls, cfg))
    ensures SameEvents(s.rows, Run(s, ls, cfg).rows)
    decreases |ls|
  {
    if |ls| > 0 {
      StepKeepsSafe(s, ls[0], cfg);
      StepKeepsEvents(s, ls[0], cfg);
      RunKeepsSafe(Apply(s, ls[0], cfg), ls[1..], cfg);
    }
  }

  // ------------------------------------- bound on retry_count with N workers

  /** Worker w still holds a snapshot of the row from which a failed publish
      leads to an increment rather than to the dead letter. */
  ghost predicate Stale(w: Worker, id: nat, cfg: Config) {
    exists i :: 0 <= i < |w.batch| && w.batch[i].id == id && w.batch[i].row.retry + 1 < cfg.maxRetries
  }

  ghost function StaleCount(ws: seq<Worker>, id: nat, cfg: Config): nat {
    if |ws| == 0 then 0
    else StaleCount(ws[..|ws| - 1], id, cfg) + (if Stale(ws[|ws| - 1], id, cfg) then 1 else 0)
  }

  lemma {:induction false} StaleCountUpdate(ws: seq<Worker>, w: nat, x: Worker, id: nat, cfg: Config)
    requires w < |ws|
    ensures StaleCount(ws[w := x], id, cfg) + (if Stale(ws[w], id, cfg) then 1 else 0)
         == StaleCount(ws, id, cfg) + (if Stale(x, id, cfg) then 1 else 0)
    ensures StaleCount(ws, id, cfg) <= |ws| - (if Stale(ws[w], id, cfg) then 0 else 1)
  {
    var n := |ws| - 1;
    assert ws[w := x][..n] == if w < n then ws[..n][w := x] else ws[..n];
    if w < n {
      StaleCountUpdate(ws[..n], w, x, id, cfg);
    } else {
      StaleCountBound(ws[..n], id, cfg);
    }
  }

  lemma {:induction false} StaleCountBound(ws: seq<Worker>, id: nat, cfg: Config)
    ensures StaleCount(ws, id, cfg) <= |ws|
  {
    if |ws| > 0 {
      StaleCountBound(ws[..|ws| - 1], id, cfg);
    }
  }

  lemma {:induction false} IdleCount(ws: seq<Worker>, id: nat, cfg: Config)
    requires forall w :: 0 <= w < |ws| ==> !Stale(ws[w], id, cfg)
    ensures StaleCount(ws, id, cfg) == 0
  {
    if |ws| > 0 {
      IdleCount(ws[..|ws| - 1], id, cfg);
    }
  }

  ghost predicate Distinct(batch: seq<Item>) {
    forall i, j :: 0 <= i < j < |batch| ==> batch[i].id != batch[j].id
  }

  /** A row past maxRetries - 2 can only be pushed further by snapshots taken
      before it got there, one increment each. */
  ghost predicate RowBounded(s: State, id: nat, cfg: Config)
    requires id < |s.rows|
  {
    || s.rows[id].retry <= cfg.maxRetries - 2
    || s.rows[id].retry + StaleCount(s.workers, id, cfg) <= cfg.maxRetries + |s.workers| - 2
  }

  ghost predicate Bounded(s: State, cfg: Config) {
    && (forall w :: 0 <= w < |s.workers| ==> Distinct(s.workers[w].batch))
    && (forall w, i :: 0 <= w < |s.workers| && 0 <= i < |s.workers[w].batch| ==> s.workers[w].batch[i].id < |s.rows|)
    && (forall id :: 0 <= id < |s.rows| ==> RowBounded(s, id, cfg))
  }

  /** A worker that replaces its batch by one with no more stale snapshots. */
  lemma {:induction false} RowBoundedShrinks(s: State, s': State, w: nat, x: Worker, id: nat, cfg: Config)
    requires id < |s.rows| && id < |s'.rows| && w < |s.workers|
    requires RowBounded(s, id, cfg)
    requires s'.workers == s.workers[w := x] && s'.rows[id].retry == s.rows[id].retry
    requires Stale(x, id, cfg) ==> Stale(s.workers[w], id, cfg) || s.rows[id].retry <= cfg.maxRetries - 2
    ensures RowBounded(s', id, cfg)
  {
    StaleCountUpdate(s.workers, w, x, id, cfg);
  }

  lemma {:induction false} PollKeepsBounded(s: State, w: nat, batch: seq<Item>, cfg: Config)
    requires Bounded(s, cfg) && Enabled(s, Poll(w, batch), cfg)
    ensures Bounded(Apply(s, Poll(w, batch), cfg), cfg)
  {
    var s' := Apply(s, Poll(w, batch), cfg);
    forall id | 0 <= id < |s'.rows| ensures RowBounded(s', id, cfg) {
      RowBoundedShrinks(s, s', w, Worker(batch, None), id, cfg);
    }
  }

  lemma {:induction false} PoppedNotStale(w: Worker, cfg: Config)
    requires w.batch != [] && Distinct(w.batch)
    ensures !Stale(Worker(w.batch[1..], None), w.batch[0].id, cfg)
    ensures forall id :: Stale(Worker(w.batch[1..], None), id, cfg) ==> Stale(w, id, cfg)
  {
    var rest := w.batch[1..];
    forall id | Stale(Worker(rest, None), id, cfg) ensures Stale(w, id, cfg) && id != w.batch[0].id {
      var i :| 0 <= i < |rest| && rest[i].id == id && rest[i].row.retry + 1 < cfg.maxRetries;
      assert w.batch[i + 1] == rest[i];
    }
  }

  lemma {:induction false} WriteKeepsBounded(s: State, w: nat, effective: bool, cfg: Config)
    requires Bounded(s, cfg) && Enabled(s, Write(w, effective), cfg)
    ensures Bounded(Apply(s, Write(w, effective), cfg), cfg)
  {
    var s' := Apply(s, Write(w, effective), cfg);
    var me, item := s.workers[w], Head(s, w);
    var x := Worker(me.batch[1..], None);
    PoppedNotStale(me, cfg);
    forall id | 0 <= id < |s'.rows| ensures RowBounded(s', id, cfg) {
      assert RowBounded(s, id, cfg);
      if s'.rows[id].retry == s.rows[id].retry {
        RowBoundedShrinks(s, s', w, x, id, cfg);
      } else {
        assert id == item.id && s'.rows[id].retry == s.rows[id].retry + 1;
        assert Stale(me, id, cfg);
        StaleCountUpdate(s.workers, w, x, id, cfg);
        StaleCountUpdate(s'.workers, w, x, id, cfg);
      }
    }
    forall v, i | 0 <= v < |s'.workers| && 0 <= i < |s'.workers[v].batch|
      ensures s'.workers[v].batch[i].id < |s'.rows|
    {
      assert s'.workers[v].batch[i] == if v == w then me.batch[i + 1] else s.workers[v].batch[i];
    }
  }

  lemma {:induction false} StepKeepsBounded(s: State, l: Label, cfg: Config)
    requires cfg.maxRetries >= 1 && |s.workers| >= 1
    requires Bounded(s, cfg) && Enabled(s, l, cfg) && !l.Requeue?
    ensures Bounded(Apply(s, l, cfg), cfg)
  {
    var s' := Apply(s, l, cfg);
    match l
    case Enqueue(_, _) =>
      var id := |s.rows|;
      forall w | 0 <= w < |s.workers| ensures !Stale(s.workers[w], id, cfg) {}
      IdleCount(s.workers, id, cfg);
      assert RowBounded(s', id, cfg);
      forall k | 0 <= k < id ensures RowBounded(s', k, cfg) {
        assert RowBounded(s, k, cfg);
      }
    case Poll(w, batch) => PollKeepsBounded(s, w, batch, cfg);
    case Publish(w, ok, delivered) =>
      forall id | 0 <= id < |s'.rows| ensures RowBounded(s', id, cfg) {
        RowBoundedShrinks(s, s', w, s'.workers[w], id, cfg);
      }
    case Write(w, effective) => WriteKeepsBounded(s, w, effective, cfg);
    case Crash(w) =>
      forall id | 0 <= id < |s'.rows| ensures RowBounded(s', id, cfg) {
        RowBoundedShrinks(s, s', w, IDLE, id, cfg);
      }
  }

  ghost predicate NoRequeue(ls: seq<Label>) {
    forall i :: 0 <= i < |ls| ==> !ls[i].Requeue?
  }

  lemma {:induction false} RunKeepsBounded(s: State, ls: seq<Label>, cfg: Config)
    requires cfg.maxRetries >= 1 && |s.workers| >= 1
    requires Bounded(s, cfg) && Legal(s, ls, cfg) && NoRequeue(ls)
    ensures Bounded(Run(s, ls, cfg), cfg) && |Run(s, ls, cfg).workers| == |s.workers|
    decreases |ls|
  {
    if |ls| > 0 {
      StepKeepsBounded(s, ls[0], cfg);
      RunKeepsBounded(Apply(s, ls[0], cfg), ls[1..], cfg);
    }
  }

  /** However N workers interleave, retry_count stays within maxRetries + N - 2. */
  lemma {:induction false} RetryCountBound(s: State, ls: seq<Label>, cfg: Config, id: nat)
    requires cfg.maxRetries >= 1 && |s.workers| >= 1
    requires Init(s) && Legal(s, ls, cfg) && NoRequeue(ls)
    requires id < |Run(s, ls, cfg).rows|
    ensures Run(s, ls, cfg).rows[id].retry <= cfg.maxRetries + |s.workers| - 2
  {
    RunKeepsBounded(s, ls, cfg);
    assert RowBounded(Run(s, ls, cfg), id, cfg);
  }

  ghost predicate NoneCounted(rows: seq<Row>) {
    forall k :: 0 <= k < |rows| ==> rows[k].retry == 0
  }

  /** With one try at most nothing is ever counted: the first failure is the last. */
  lemma {:induction false} OneTryCountsNothing(s: State, ls: seq<Label>, cfg: Config)
    requires cfg.maxRetries <= 1 && NoneCounted(s.rows) && Legal(s, ls, cfg)
    ensures NoneCounted(Run(s, ls, cfg).rows)
    decreases |ls|
  {
    if |ls| > 0 {
      OneTryCountsNothing(Apply(s, ls[0], cfg), ls[1..], cfg);
    }
  }

  // The bound is attained. The run: the row fails until it is one short of the
  // dead letter, all workers fetch it, and every publish fails.

  ghost predicate Reached(s0: State, ls: seq<Label>, event: Event, retry: nat, workers: seq<Worker>, cfg: Config) {
    && Legal(s0, ls, cfg) && NoRequeue(ls)
    && Run(s0, ls, cfg).rows == [Row(event, 0, Pending, retry)]
    && Run(s0, ls, cfg).workers == workers
  }

  lemma {:induction false} PollOnly(s0: State, ls: seq<Label>, event: Event, retry: nat, workers: seq<Worker>, w: nat, cfg: Config)
    returns (ls': seq<Label>)
    requires cfg.batchSize >= 1 && Reached(s0, ls, event, retry, workers, cfg)
    requires w < |workers| && workers[w] == IDLE
    ensures Reached(s0, ls', event, retry, workers[w := Worker([Item(0, Row(event, 0, Pending, retry))], None)], cfg)
  {
    var batch := [Item(0, Row(event, 0, Pending, retry))];
    assert batch[0].id == 0 && InBatch(batch, 0);
    RunSnoc(s0, ls, Poll(w, batch), cfg);
    ls' := ls + [Poll(w, batch)];
  }

  lemma {:induction false} FailOnly(s0: State, ls: seq<Label>, event: Event, retry: nat, workers: seq<Worker>, w: nat, seen: nat, cfg: Config)
    returns (ls': seq<Label>)
    requires Reached(s0, ls, event, retry, workers, cfg)
    requires w < |workers| && workers[w] == Worker([Item(0, Row(event, 0, Pending, seen))], None)
    requires seen + 1 < cfg.maxRetries
    ensures Reached(s0, ls', event, retry + 1, workers[w := IDLE], cfg)
  {
    RunSnoc(s0, ls, Publish(w, false, false), cfg);
    ls' := ls + [Publish(w, false, false)];
    RunSnoc(s0, ls', Write(w, true), cfg);
    ls' := ls' + [Write(w, true)];
    assert workers[w].batch[1..] == [];
    assert Run(s0, ls', cfg).workers == workers[w := IDLE];
  }

  lemma {:induction false} FailUntil(s0: State, ls: seq<Label>, event: Event, workers: seq<Worker>, goal: nat, cfg: Config)
    returns (ls': seq<Label>)
    requires cfg.batchSize >= 1 && |workers| >= 1 && workers[0] == IDLE
    requires Reached(s0, ls, event, 0, workers, cfg) && goal < cfg.maxRetries
    ensures Reached(s0, ls', event, goal, workers, cfg)
  {
    ls' := ls;
    for retry := 0 to goal
      invariant Reached(s0, ls', event, retry, workers, cfg)
    {
      var item := Item(0, Row(event, 0, Pending, retry));
      ls' := PollOnly(s0, ls', event, retry, workers, 0, cfg);
      ls' := FailOnly(s0, ls', event, retry, workers[0 := Worker([item], None)], 0, retry, cfg);
      assert workers[0 := Worker([item], None)][0 := IDLE] == workers;
    }
  }

  lemma {:induction false} RetryCountBoundAttained(event: Event, n: nat, cfg: Config) returns (s0: State, ls: seq<Label>)
    requires n >= 1 && cfg.batchSize >= 1 && cfg.maxRetries >= 2
    ensures Init(s0) && |s0.workers| == n && Legal(s0, ls, cfg) && NoRequeue(ls)
    ensures |Run(s0, ls, cfg).rows| == 1
    ensures Run(s0, ls, cfg).rows[0].retry == cfg.maxRetries + n - 2
  {
    var idle := seq(n, i => IDLE);
    s0, ls := State([], idle, [], {}, []), [];
    RunSnoc(s0, ls, Enqueue(event, 0), cfg);
    ls := ls + [Enqueue(event, 0)];
    var seen := cfg.maxRetries - 2;
    ls := FailUntil(s0, ls, event, idle, seen, cfg);
    var busy := Worker([Item(0, Row(event, 0, Pending, seen))], None);
    var ws := idle;
    for w := 0 to n
      invariant |ws| == n && Reached(s0, ls, event, seen, ws, cfg)
      invariant forall v :: 0 <= v < n ==> ws[v] == if v < w then busy else IDLE
    {
      ls := PollOnly(s0, ls, event, seen, ws, w, cfg);
      ws := ws[w := busy];
    }
    for w := 0 to n
      invariant |ws| == n && Reached(s0, ls, event, seen + w, ws, cfg)
      invariant forall v :: w <= v < n ==> ws[v] == busy
    {
      ls := FailOnly(s0, ls, event, seen + w, ws, w, seen, cfg);
      ws := ws[w := IDLE];
    }
  }
}
