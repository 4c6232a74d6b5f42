/** What holds when a single worker serves the outbox: its snapshots are never
    stale, terminal rows stay as they are, and attempts are conserved. */
module OutboxSingle {
  import opened Core
  import opened Outbox

  /** The rest of the batch still shows the table as it is. */
  ghost predicate Fresh(rows: seq<Row>, batch: seq<Item>) {
    && (forall i :: 0 <= i < |batch| ==>
          batch[i].id < |rows| && rows[batch[i].id] == batch[i].row && batch[i].row.status.Pending?)
    && Distinct(batch)
  }

  function Tally(log: seq<Attempt>, a: Attempt): nat {
    if |log| == 0 then 0 else Tally(log[..|log| - 1], a) + (if log[|log| - 1] == a then 1 else 0)
  }

  /** Publishes of this row that returned nil, and those that did not. */
  function Successes(log: seq<Attempt>, id: nat): nat {
    Tally(log, Attempt(id, true, true)) + Tally(log, Attempt(id, true, false))
  }

  function Failures(log: seq<Attempt>, id: nat): nat {
    Tally(log, Attempt(id, false, true)) + Tally(log, Attempt(id, false, false))
  }

  lemma {:induction false} TallySnoc(log: seq<Attempt>, b: Attempt, a: Attempt)
    ensures Tally(log + [b], a) == Tally(log, a) + (if b == a then 1 else 0)
  {
    assert (log + [b])[..|log|] == log;
  }

  /** Attempts are neither lost nor invented: each success either marked the row
      or had no effect, each failure either counted, or dead-lettered, or had no effect. */
  ghost predicate ConservedAt(rows: seq<Row>, log: seq<Attempt>, id: nat, cfg: Config)
    requires id < |rows|
  {
    var row := rows[id];
    && Successes(log, id) == Tally(log, Attempt(id, true, false)) + (if row.status.Published? then 1 else 0)
    && Failures(log, id) == row.retry + Tally(log, Attempt(id, false, false)) + (if row.status.Failed? then 1 else 0)
    && (row.status.Pending? ==> row.retry < cfg.maxRetries)
  }

  ghost predicate Conserved(rows: seq<Row>, log: seq<Attempt>, cfg: Config) {
    && (forall i :: 0 <= i < |log| ==> log[i].id < |rows|)
    && (forall id :: 0 <= id < |rows| ==> ConservedAt(rows, log, id, cfg))
  }

  ghost predicate Sound(s: State, cfg: Config) {
    && |s.workers| == 1
    && Fresh(s.rows, s.workers[0].batch)
    && Conserved(s.rows, s.log, cfg)
  }

  lemma {:induction false} TallyAbsent(log: seq<Attempt>, a: Attempt)
    requires forall i :: 0 <= i < |log| ==> log[i] != a
    ensures Tally(log, a) == 0
  {
    if |log| > 0 {
      TallyAbsent(log[..|log| - 1], a);
    }
  }

  lemma {:induction false} EnqueueConserved(rows: seq<Row>, log: seq<Attempt>, row: Row, cfg: Config)
    requires cfg.maxRetries >= 1 && Conserved(rows, log, cfg)
    requires row.status.Pending? && row.retry == 0
    ensures Conserved(rows + [row], log, cfg)
  {
    forall id | 0 <= id < |rows + [row]| ensures ConservedAt(rows + [row], log, id, cfg) {
      if id < |rows| {
        assert ConservedAt(rows, log, id, cfg);
      } else {
        forall ok, eff ensures Tally(log, Attempt(id, ok, eff)) == 0 {
          TallyAbsent(log, Attempt(id, ok, eff));
        }
      }
    }
  }

  /** Handling one fresh item keeps the books. */
  lemma {:induction false} AttemptConserved(rows: seq<Row>, log: seq<Attempt>, item: Item, ok: bool, effective: bool, cfg: Config)
    requires Conserved(rows, log, cfg)
    requires item.id < |rows| && rows[item.id] == item.row && item.row.status.Pending?
    ensures Conserved(if effective then Settle(rows, item, ok, cfg) else rows,
                      log + [Attempt(item.id, ok, effective)], cfg)
  {
    var rows' := if effective then Settle(rows, item, ok, cfg) else rows;
    var log' := log + [Attempt(item.id, ok, effective)];
    forall id | 0 <= id < |rows'| ensures ConservedAt(rows', log', id, cfg) {
      assert ConservedAt(rows, log, id, cfg);
      TallySnoc(log, Attempt(item.id, ok, effective), Attempt(id, true, true));
      TallySnoc(log, Attempt(item.id, ok, effective), Attempt(id, true, false));
      TallySnoc(log, Attempt(item.id, ok, effective), Attempt(id, false, true));
      TallySnoc(log, Attempt(item.id, ok, effective), Attempt(id, false, false));
    }
  }

  lemma {:induction false} SettleKeepsFresh(rows: seq<Row>, batch: seq<Item>, ok: bool, cfg: Config)
    requires batch != [] && Fresh(rows, batch)
    ensures Fresh(Settle(rows, batch[0], ok, cfg), batch[1..])
    ensures Fresh(rows, batch[1..])
  {
    forall i | 0 <= i < |batch[1..]|
      ensures batch[1..][i].id != batch[0].id && batch[1..][i] == batch[i + 1]
    {}
  }

  /** published and failed are final. */
  ghost predicate TerminalFixed(rows: seq<Row>, rows': seq<Row>) {
    && |rows| <= |rows'|
    && forall id :: 0 <= id < |rows| && !rows[id].status.Pending? ==> rows'[id] == rows[id]
  }

  lemma {:induction false} StepKeepsSound(s: State, l: Label, cfg: Config)
    requires cfg.maxRetries >= 1
    requires Sound(s, cfg) && Enabled(s, l, cfg) && !l.Requeue?
    ensures Sound(Apply(s, l, cfg), cfg)
    ensures TerminalFixed(s.rows, Apply(s, l, cfg).rows)
  {
    match l
    case Enqueue(event, createdAt) =>
      EnqueueConserved(s.rows, s.log, Row(event, createdAt, Pending, 0), cfg);
    case Poll(_, _) =>
    case Publish(_, _, _) =>
    case Write(w, effective) =>
      var me := s.workers[0];
      AttemptConserved(s.rows, s.log, me.batch[0], me.verdict.value, effective, cfg);
      SettleKeepsFresh(s.rows, me.batch, me.verdict.value, cfg);
    case Crash(w) =>
      var me := s.workers[0];
      if me.verdict.Some? && me.batch != [] {
        AttemptConserved(s.rows, s.log, me.batch[0], me.verdict.value, false, cfg);
      }
  }

  /** One worker, any run without requeue: the books balance and terminal rows
      never change. */
  lemma {:induction false} SingleWorkerRun(s: State, ls: seq<Label>, cfg: Config)
    requires cfg.maxRetries >= 1
    requires Sound(s, cfg) && Legal(s, ls, cfg) && NoRequeue(ls)
    ensures Sound(Run(s, ls, cfg), cfg)
    ensures TerminalFixed(s.rows, Run(s, ls, cfg).rows)
    decreases |ls|
  {
    if |ls| > 0 {
      StepKeepsSound(s, ls[0], cfg);
      SingleWorkerRun(Apply(s, ls[0], cfg), ls[1..], cfg);
    }
  }

  lemma {:induction false} AttemptsConserved(s: State, ls: seq<Label>, cfg: Config, id: nat)
    requires cfg.maxRetries >= 1 && |s.workers| == 1
    requires Init(s) && Legal(s, ls, cfg) && NoRequeue(ls)
    requires id < |Run(s, ls, cfg).rows|
    ensures ConservedAt(Run(s, ls, cfg).rows, Run(s, ls, cfg).log, id, cfg)
  {
    SingleWorkerRun(s, ls, cfg);
  }

  // ------------------------------------------------ when terminal rows are final

  /** A step without requeue, taken in a state that n workers can reach. */
  ghost predicate StepTaken(s: State, ls: seq<Label>, l: Label, n: nat, cfg: Config) {
    && Init(s) && |s.workers| == n && Legal(s, ls, cfg) && NoRequeue(ls)
    && Enabled(Run(s, ls, cfg), l, cfg) && !l.Requeue?
  }

  /** published and failed are final with n workers, in every run. */
  ghost predicate TerminalIsFinal(n: nat, cfg: Config) {
    forall s, ls, l :: StepTaken(s, ls, l, n, cfg) ==>
      TerminalFixed(Run(s, ls, cfg).rows, Apply(Run(s, ls, cfg), l, cfg).rows)
  }

  /** No snapshot is stale: one worker at most, or empty batches only. */
  ghost predicate NothingStale(s: State, cfg: Config) {
    && (forall w :: 0 <= w < |s.workers| ==> Fresh(s.rows, s.workers[w].batch))
    && (|s.workers| <= 1 || (cfg.batchSize == 0 && forall w :: 0 <= w < |s.workers| ==> s.workers[w].batch == []))
  }

  lemma {:induction false} StepKeepsNothingStale(s: State, l: Label, cfg: Config)
    requires NothingStale(s, cfg) && Enabled(s, l, cfg) && !l.Requeue?
    ensures NothingStale(Apply(s, l, cfg), cfg) && TerminalFixed(s.rows, Apply(s, l, cfg).rows)
  {
    if l.Write? {
      SettleKeepsFresh(s.rows, s.workers[l.w].batch, s.workers[l.w].verdict.value, cfg);
    }
  }

  lemma {:induction false} RunKeepsNothingStale(s: State, ls: seq<Label>, cfg: Config)
    requires NothingStale(s, cfg) && Legal(s, ls, cfg) && NoRequeue(ls)
    ensures NothingStale(Run(s, ls, cfg), cfg)
    decreases |ls|
  {
    if |ls| > 0 {
      StepKeepsNothingStale(s, ls[0], cfg);
      RunKeepsNothingStale(Apply(s, ls[0], cfg), ls[1..], cfg);
    }
  }

  /** The retry count at which one more failure is the last. */
  function LastTry(cfg: Config): nat {
    if cfg.maxRetries >= 1 then cfg.maxRetries - 1 else 0
  }

  /** Two of n workers hold a row on its last try. */
  lemma {:induction false} TwoHoldLastTry(event: Event, n: nat, cfg: Config)
    returns (s0: State, ls: seq<Label>, workers: seq<Worker>)
    requires n >= 2 && cfg.batchSize >= 1
    ensures Init(s0) && |s0.workers| == n && |workers| == n
    ensures Reached(s0, ls, event, LastTry(cfg), workers, cfg)
    ensures var busy := Worker([Item(0, Row(event, 0, Pending, LastTry(cfg)))], None); workers[0] == busy && workers[1] == busy
  {
    var idle := seq(n, i => IDLE);
    s0, ls := State([], idle, [], {}, []), [];
    RunSnoc(s0, ls, Enqueue(event, 0), cfg);
    ls := ls + [Enqueue(event, 0)];
    if LastTry(cfg) > 0 {
      ls := FailUntil(s0, ls, event, idle, LastTry(cfg), cfg);
    }
    ls := PollOnly(s0, ls, event, LastTry(cfg), idle, 0, cfg);
    workers := idle[0 := Worker([Item(0, Row(event, 0, Pending, LastTry(cfg)))], None)];
    ls := PollOnly(s0, ls, event, LastTry(cfg), workers, 1, cfg);
    workers := workers[1 := Worker([Item(0, Row(event, 0, Pending, LastTry(cfg)))], None)];
  }

  /** The first of them publishes the row and marks it, the second fails to. */
  lemma {:induction false} MarkedWhileHeld(s0: State, ls: seq<Label>, event: Event, workers: seq<Worker>, cfg: Config)
    returns (all: seq<Label>)
    requires Reached(s0, ls, event, LastTry(cfg), workers, cfg) && |workers| >= 2
    requires var busy := Worker([Item(0, Row(event, 0, Pending, LastTry(cfg)))], None); workers[0] == busy && workers[1] == busy
    ensures Legal(s0, all, cfg) && NoRequeue(all)
    ensures Run(s0, all, cfg).rows == [Row(event, 0, Published, LastTry(cfg))]
    ensures var ws := Run(s0, all, cfg).workers;
      |ws| >= 2 && ws[1] == Worker([Item(0, Row(event, 0, Pending, LastTry(cfg)))], Some(false))
  {
    var l1, l2, l3 := Publish(0, true, true), Write(0, true), Publish(1, false, false);
    RunSnoc(s0, ls, l1, cfg);
    RunSnoc(s0, ls + [l1], l2, cfg);
    RunSnoc(s0, ls + [l1] + [l2], l3, cfg);
    all := ls + [l1] + [l2] + [l3];
  }

  /** With a second worker a published row can turn failed: the dead-letter update
      has no status guard, and the second worker decides from its old snapshot. */
  lemma {:induction false} PublishedCanBecomeFailed(event: Event, n: nat, cfg: Config)
    returns (s0: State, ls: seq<Label>, l: Label)
    requires n >= 2 && cfg.batchSize >= 1
    ensures StepTaken(s0, ls, l, n, cfg)
    ensures Run(s0, ls, cfg).rows == [Row(event, 0, Published, LastTry(cfg))]
    ensures Apply(Run(s0, ls, cfg), l, cfg).rows == [Row(event, 0, Failed, LastTry(cfg))]
  {
    var before, workers;
    s0, before, workers := TwoHoldLastTry(event, n, cfg);
    ls := MarkedWhileHeld(s0, before, event, workers, cfg);
    l := Write(1, true);
  }

  function SomeEvent(): Event {
    var id: Uuid := "00000000-0000-0000-0000-000000000000";
    Event(id, id, id, "", "", [], "{}", 0)
  }

  /** Exactly when published and failed are final: with one worker, or with a batch
      size that fetches nothing. */
  lemma {:induction false} TerminalIsFinalIff(n: nat, cfg: Config)
    ensures TerminalIsFinal(n, cfg) <==> n <= 1 || cfg.batchSize == 0
  {
    if n <= 1 || cfg.batchSize == 0 {
      forall s, ls, l | StepTaken(s, ls, l, n, cfg)
        ensures TerminalFixed(Run(s, ls, cfg).rows, Apply(Run(s, ls, cfg), l, cfg).rows)
      {
        RunKeepsNothingStale(s, ls, cfg);
        StepKeepsNothingStale(Run(s, ls, cfg), l, cfg);
      }
    } else {
      var s0, ls, l := PublishedCanBecomeFailed(SomeEvent(), n, cfg);
      assert !TerminalFixed(Run(s0, ls, cfg).rows, Apply(Run(s0, ls, cfg), l, cfg).rows);
    }
  }

  // ------------------------------------------------------------- dead letters

  /** The single worker gives a row up on its last try and not before. */
  predicate TriesTold(row: Row, cfg: Config) {
    (row.status.Failed? ==> row.retry == LastTry(cfg)) && (row.status.Pending? ==> row.retry <= LastTry(cfg))
  }

  ghost predicate LettersTold(s: State, cfg: Config) {
    && |s.workers| <= 1 && (forall w :: 0 <= w < |s.workers| ==> Fresh(s.rows, s.workers[w].batch))
    && forall id :: 0 <= id < |s.rows| ==> TriesTold(s.rows[id], cfg)
  }

  lemma {:induction false} SettleTold(s: State, w: nat, effective: bool, cfg: Config)
    requires LettersTold(s, cfg) && Enabled(s, Write(w, effective), cfg)
    ensures LettersTold(Apply(s, Write(w, effective), cfg), cfg)
  {
    var me := s.workers[w];
    SettleKeepsFresh(s.rows, me.batch, me.verdict.value, cfg);
    assert TriesTold(s.rows[me.batch[0].id], cfg);
  }

  lemma {:induction false} StepKeepsTold(s: State, l: Label, cfg: Config)
    requires LettersTold(s, cfg) && Enabled(s, l, cfg)
    ensures LettersTold(Apply(s, l, cfg), cfg)
  {
    if l.Write? {
      SettleTold(s, l.w, l.effective, cfg);
    }
  }

  lemma {:induction false} RunKeepsTold(s: State, ls: seq<Label>, cfg: Config)
    requires LettersTold(s, cfg) && Legal(s, ls, cfg)
    ensures LettersTold(Run(s, ls, cfg), cfg)
    decreases |ls|
  {
    if |ls| > 0 {
      StepKeepsTold(s, ls[0], cfg);
      RunKeepsTold(Apply(s, ls[0], cfg), ls[1..], cfg);
    }
  }

  /** What the requeue statement does with one worker at most, in any run: it goes
      by the column's default of five, not by the worker's own limit, so it revives
      every dead letter, as new, up to that limit and none at all above it. */
  lemma {:induction false} RequeueRevives(s0: State, ls: seq<Label>, cfg: Config)
    requires Init(s0) && |s0.workers| <= 1 && Legal(s0, ls, cfg)
    ensures var s, s' := Run(s0, ls, cfg), Apply(Run(s0, ls, cfg), Requeue, cfg);
      && |s'.rows| == |s.rows|
      && forall id :: 0 <= id < |s.rows| ==>
           var row := s.rows[id];
           s'.rows[id] == if row.status.Failed? && cfg.maxRetries <= 5 then Row(row.event, row.createdAt, Pending, 0) else row
  {
    RunKeepsTold(s0, ls, cfg);
    var s := Run(s0, ls, cfg);
    assert forall id :: 0 <= id < |s.rows| ==> TriesTold(s.rows[id], cfg);
  }
}
