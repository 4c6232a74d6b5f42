/** The worker's own code: poll, publish one by one, settle each event. Every
    call is shown to be a run of the transition system in Outbox. */
module OutboxWorkers {
  import opened Core
  import opened Outbox
  import opened OutboxSingle
  import opened OutboxDrain

  /** What the broker and the database do with one event. */
  datatype Outcome = Outcome(ok: bool, delivered: bool, effective: bool)

  /** A row that some other transaction inserts. */
  datatype Arrival = Arrival(event: Event, createdAt: nat)

  /** What wakes the polling loop; a tick may find the query failing, and other
      writers may have committed rows since the last one. */
  datatype Signal = Stop | Done | Tick(arrivals: seq<Arrival>, fetched: bool, outcomes: seq<Outcome>)

  function OutcomeAt(outcomes: seq<Outcome>, i: nat): Outcome {
    if i < |outcomes| then outcomes[i] else Outcome(false, false, true)
  }

  function Oks(outcomes: seq<Outcome>, from: nat, n: nat): (oks: seq<bool>)
    ensures |oks| == n
  {
    seq(n, i requires 0 <= i < n => OutcomeAt(outcomes, from + i).ok)
  }

  predicate AllEffective(outcomes: seq<Outcome>) {
    forall i :: 0 <= i < |outcomes| ==> outcomes[i].effective
  }

  ghost predicate SortsFirst(rows: seq<Row>, n: nat, batch: seq<Item>, best: nat)
    requires best < |rows| && n <= |rows|
  {
    && rows[best].status.Pending? && !InBatch(batch, best)
    && forall k :: 0 <= k < n && rows[k].status.Pending? && !InBatch(batch, k) ==>
         rows[best].createdAt <= rows[k].createdAt
  }

  /** The unchosen pending row that sorts first, or |rows| when there is none. */
  method FirstUnchosen(rows: seq<Row>, batch: seq<Item>) returns (best: nat)
    ensures best <= |rows|
    ensures best == |rows| ==> forall k :: 0 <= k < |rows| && rows[k].status.Pending? ==> InBatch(batch, k)
    ensures best < |rows| ==> SortsFirst(rows, |rows|, batch, best)
  {
    best := |rows|;
    for k := 0 to |rows|
      invariant best == |rows| || best < k
      invariant best == |rows| ==> forall j :: 0 <= j < k && rows[j].status.Pending? ==> InBatch(batch, j)
      invariant best < |rows| ==> SortsFirst(rows, k, batch, best)
    {
      var chosen := Chosen(batch, k);
      if rows[k].status.Pending? && !chosen && (best == |rows| || rows[k].createdAt < rows[best].createdAt) {
        best := k;
      }
    }
  }

  lemma {:induction false} InBatchSnoc(batch: seq<Item>, item: Item, id: nat)
    ensures InBatch(batch + [item], id) <==> InBatch(batch, id) || item.id == id
  {
    var more := batch + [item];
    if InBatch(batch, id) {
      var i :| 0 <= i < |batch| && batch[i].id == id;
      assert more[i].id == id;
    }
    assert more[|batch|].id == item.id;
    if InBatch(more, id) {
      var i :| 0 <= i < |more| && more[i].id == id;
      assert i < |batch| ==> batch[i].id == id;
    }
  }

  method Chosen(batch: seq<Item>, id: nat) returns (found: bool)
    ensures found <==> InBatch(batch, id)
  {
    for i := 0 to |batch|
      invariant !InBatch(batch[..i], id)
    {
      if batch[i].id == id {
        return true;
      }
      assert batch[..i + 1] == batch[..i] + [batch[i]];
      InBatchSnoc(batch[..i], batch[i], id);
    }
    assert batch[..|batch|] == batch;
    return false;
  }

  /** GetPendingOutboxEvents: some answer to the query always exists. */
  method GetPendingOutboxEvents(rows: seq<Row>, limit: nat) returns (batch: seq<Item>)
    ensures IsPendingBatch(rows, batch, limit)
  {
    batch := [];
    while |batch| < limit
      invariant |batch| <= limit
      invariant Chosen'(rows, batch)
    {
      var best := FirstUnchosen(rows, batch);
      if best == |rows| {
        return;
      }
      ChosenSnoc(rows, batch, best);
      batch := batch + [Item(best, rows[best])];
    }
  }

  /** The answer as far as it has been collected. */
  ghost predicate Chosen'(rows: seq<Row>, batch: seq<Item>) {
    && (forall i :: 0 <= i < |batch| ==>
          batch[i].id < |rows| && rows[batch[i].id] == batch[i].row && batch[i].row.status.Pending?)
    && (forall i, j :: 0 <= i < j < |batch| ==>
          batch[i].id != batch[j].id && batch[i].row.createdAt <= batch[j].row.createdAt)
    && (forall k :: 0 <= k < |rows| && rows[k].status.Pending? && !InBatch(batch, k) ==>
          forall i :: 0 <= i < |batch| ==> batch[i].row.createdAt <= rows[k].createdAt)
  }

  lemma {:induction false} ChosenSnoc(rows: seq<Row>, batch: seq<Item>, best: nat)
    requires Chosen'(rows, batch) && best < |rows| && SortsFirst(rows, |rows|, batch, best)
    ensures Chosen'(rows, batch + [Item(best, rows[best])])
  {
    var more := batch + [Item(best, rows[best])];
    forall i | 0 <= i < |batch| ensures batch[i].id != best {
      assert InBatch(batch, batch[i].id);
    }
    forall k | 0 <= k < |rows| && rows[k].status.Pending? && !InBatch(more, k)
      ensures forall i :: 0 <= i < |more| ==> more[i].row.createdAt <= rows[k].createdAt
    {
      InBatchSnoc(batch, Item(best, rows[best]), k);
    }
  }

  // ---------------------------------------------- what polls do to the table

  function SettleOne(rows: seq<Row>, item: Item, o: Outcome, cfg: Config): seq<Row> {
    if o.effective then Settle(rows, item, o.ok, cfg) else rows
  }

  /** The table once the events from i on have been handled. */
  function Handled(rows: seq<Row>, events: seq<Item>, i: nat, outcomes: seq<Outcome>, cfg: Config): seq<Row>
    requires i <= |events|
    decreases |events| - i
  {
    if i == |events| then rows
    else Handled(SettleOne(rows, events[i], OutcomeAt(outcomes, i), cfg), events, i + 1, outcomes, cfg)
  }

  lemma {:induction false} HandledIsHandleAll(rows: seq<Row>, events: seq<Item>, i: nat, outcomes: seq<Outcome>, cfg: Config)
    requires i <= |events| && AllEffective(outcomes)
    ensures Handled(rows, events, i, outcomes, cfg) == HandleAll(rows, events[i..], Oks(outcomes, i, |events| - i), cfg)
    decreases |events| - i
  {
    if i < |events| {
      var oks := Oks(outcomes, i, |events| - i);
      assert events[i..][1..] == events[i + 1..];
      assert oks[1..] == Oks(outcomes, i + 1, |events| - i - 1);
      HandledIsHandleAll(SettleOne(rows, events[i], OutcomeAt(outcomes, i), cfg), events, i + 1, outcomes, cfg);
    }
  }

  function Inserted(arrivals: seq<Arrival>): seq<Row> {
    seq(|arrivals|, i requires 0 <= i < |arrivals| => Row(arrivals[i].event, arrivals[i].createdAt, Pending, 0))
  }

  /** The ticks the loop hears before it is told to stop. */
  function Heard(signals: seq<Signal>): (ticks: seq<Signal>)
    ensures forall k :: 0 <= k < |ticks| ==> ticks[k].Tick?
  {
    if |signals| == 0 || !signals[0].Tick? then [] else [signals[0]] + Heard(signals[1..])
  }

  predicate Ticks(signals: seq<Signal>) {
    forall k :: 0 <= k < |signals| ==> signals[k].Tick?
  }

  lemma {:induction false} HeardUntil(signals: seq<Signal>, k: nat)
    requires k <= |signals| && Ticks(signals[..k]) && (k == |signals| || !signals[k].Tick?)
    ensures Heard(signals) == signals[..k]
    decreases k
  {
    if k > 0 {
      assert signals[..k][0] == signals[0];
      assert signals[1..][..k - 1] == signals[..k][1..];
      HeardUntil(signals[1..], k - 1);
    }
  }

  function AfterTick(rows: seq<Row>, tick: Signal, batch: seq<Item>, cfg: Config): seq<Row>
    requires tick.Tick?
  {
    Handled(rows + Inserted(tick.arrivals), batch, 0, tick.outcomes, cfg)
  }

  /** The table after the ticks, `batches[k]` being what tick k fetched. */
  function AfterTicks(rows: seq<Row>, ticks: seq<Signal>, batches: seq<seq<Item>>, cfg: Config): seq<Row>
    requires Ticks(ticks) && |batches| == |ticks|
  {
    if |ticks| == 0 then rows
    else
      var n := |ticks| - 1;
      AfterTick(AfterTicks(rows, ticks[..n], batches[..n], cfg), ticks[n], batches[n], cfg)
  }

  /** What a tick may fetch from the table it finds. */
  ghost predicate Polled(rows: seq<Row>, tick: Signal, batch: seq<Item>, cfg: Config)
    requires tick.Tick?
  {
    if tick.fetched then IsPendingBatch(rows + Inserted(tick.arrivals), batch, cfg.batchSize) else batch == []
  }

  ghost predicate EachPolled(rows: seq<Row>, ticks: seq<Signal>, batches: seq<seq<Item>>, cfg: Config)
    requires Ticks(ticks) && |batches| == |ticks|
    decreases |ticks|
  {
    |ticks| == 0 ||
    (var n := |ticks| - 1;
     && EachPolled(rows, ticks[..n], batches[..n], cfg)
     && Polled(AfterTicks(rows, ticks[..n], batches[..n], cfg), ticks[n], batches[n], cfg))
  }

  /** No tick fails for row e: it fetches, its writes take effect, and what arrives
      sorts after e. */
  predicate Undisturbed(rows: seq<Row>, ticks: seq<Signal>, e: nat)
    requires e < |rows|
  {
    forall k :: 0 <= k < |ticks| ==> ticks[k].Tick? && GoodTick(ticks[k], rows[e].createdAt)
  }

  predicate GoodTick(tick: Signal, createdAt: nat)
    requires tick.Tick?
  {
    && tick.fetched && AllEffective(tick.outcomes)
    && forall i :: 0 <= i < |tick.arrivals| ==> tick.arrivals[i].createdAt > createdAt
  }

  lemma {:induction false} ArrivalsCostNothing(rows: seq<Row>, arrived: seq<Row>, e: nat, cfg: Config)
    requires cfg.batchSize >= 1 && e < |rows|
    requires forall i :: 0 <= i < |arrived| ==> arrived[i].createdAt > rows[e].createdAt
    ensures (rows + arrived)[e] == rows[e] && Polls(rows + arrived, e, cfg) == Polls(rows, e, cfg)
  {
    LoadArrivals(rows, arrived, |rows + arrived|, e, cfg);
  }

  /** One good tick takes a poll off what row e may still need. */
  lemma {:induction false} TickProgress(rows: seq<Row>, tick: Signal, batch: seq<Item>, e: nat, cfg: Config)
    requires cfg.batchSize >= 1 && e < |rows| && tick.Tick? && GoodTick(tick, rows[e].createdAt)
    requires Polled(rows, tick, batch, cfg)
    ensures var rows' := AfterTick(rows, tick, batch, cfg);
      && e < |rows'| && rows'[e].createdAt == rows[e].createdAt
      && (!rows[e].status.Pending? ==> rows'[e] == rows[e])
      && (rows[e].status.Pending? ==> Polls(rows', e, cfg) + 1 <= Polls(rows, e, cfg))
  {
    var mid := rows + Inserted(tick.arrivals);
    var round := Round(batch, Oks(tick.outcomes, 0, |batch|), []);
    ArrivalsCostNothing(rows, Inserted(tick.arrivals), e, cfg);
    HandledIsHandleAll(mid, batch, 0, tick.outcomes, cfg);
    assert batch[0..] == batch;
    RoundProgress(mid, round, e, cfg);
    assert AfterRound(mid, round, cfg) == AfterTick(rows, tick, batch, cfg);
  }

  lemma {:induction false} TicksProgress(rows: seq<Row>, ticks: seq<Signal>, batches: seq<seq<Item>>, e: nat, cfg: Config)
    requires cfg.batchSize >= 1 && e < |rows| && Ticks(ticks) && |batches| == |ticks|
    requires EachPolled(rows, ticks, batches, cfg) && Undisturbed(rows, ticks, e)
    ensures var rows' := AfterTicks(rows, ticks, batches, cfg);
      && e < |rows'| && rows'[e].createdAt == rows[e].createdAt
      && (rows'[e].status.Pending? ==> Polls(rows', e, cfg) + |ticks| <= Polls(rows, e, cfg))
    decreases |ticks|
  {
    if |ticks| > 0 {
      var n := |ticks| - 1;
      TicksProgress(rows, ticks[..n], batches[..n], e, cfg);
      TickProgress(AfterTicks(rows, ticks[..n], batches[..n], cfg), ticks[n], batches[n], e, cfg);
    }
  }

  /** The drain bound, for the loop's own ticks. */
  lemma {:induction false} TicksDrain(rows: seq<Row>, ticks: seq<Signal>, batches: seq<seq<Item>>, e: nat, cfg: Config)
    requires cfg.batchSize >= 1 && e < |rows| && Ticks(ticks) && |batches| == |ticks|
    requires EachPolled(rows, ticks, batches, cfg) && Undisturbed(rows, ticks, e)
    requires |ticks| >= PollsWithTies(|Older(rows, e)|, cfg)
    ensures e < |AfterTicks(rows, ticks, batches, cfg)| && !AfterTicks(rows, ticks, batches, cfg)[e].status.Pending?
  {
    TicksProgress(rows, ticks, batches, e, cfg);
    PollsBounded(rows, e, cfg);
  }

  /** Enough undisturbed ticks for row e, by the drain bound. */
  ghost predicate DueBy(rows: seq<Row>, ticks: seq<Signal>, e: nat, cfg: Config) {
    && cfg.batchSize >= 1 && e < |rows| && Undisturbed(rows, ticks, e)
    && |ticks| >= PollsWithTies(|Older(rows, e)|, cfg)
  }

  lemma {:induction false} AllDrain(rows: seq<Row>, ticks: seq<Signal>, batches: seq<seq<Item>>, cfg: Config)
    requires Ticks(ticks) && |batches| == |ticks| && EachPolled(rows, ticks, batches, cfg)
    ensures var rows' := AfterTicks(rows, ticks, batches, cfg);
      forall e: nat :: DueBy(rows, ticks, e, cfg) ==> e < |rows'| && !rows'[e].status.Pending?
  {
    var rows' := AfterTicks(rows, ticks, batches, cfg);
    forall e: nat | DueBy(rows, ticks, e, cfg) ensures e < |rows'| && !rows'[e].status.Pending? {
      TicksDrain(rows, ticks, batches, e, cfg);
    }
  }

  lemma {:induction false} OneMoreTick(rows: seq<Row>, signals: seq<Signal>, k: nat, batches: seq<seq<Item>>, batch: seq<Item>, cfg: Config)
    requires k < |signals| && Ticks(signals[..k]) && |batches| == k && signals[k].Tick?
    requires EachPolled(rows, signals[..k], batches, cfg)
    requires Polled(AfterTicks(rows, signals[..k], batches, cfg), signals[k], batch, cfg)
    ensures Ticks(signals[..k + 1]) && EachPolled(rows, signals[..k + 1], batches + [batch], cfg)
    ensures AfterTicks(rows, signals[..k + 1], batches + [batch], cfg)
      == AfterTick(AfterTicks(rows, signals[..k], batches, cfg), signals[k], batch, cfg)
  {
    assert signals[..k + 1][..k] == signals[..k] && (batches + [batch])[..k] == batches;
  }

  lemma {:induction false} PublishAndWrite(start: State, steps: seq<Label>, w: nat, o: Outcome, cfg: Config)
    requires Legal(start, steps, cfg) && Enabled(Run(start, steps, cfg), Publish(w, o.ok, o.delivered), cfg)
    ensures Legal(start, steps + [Publish(w, o.ok, o.delivered), Write(w, o.effective)], cfg)
    ensures Run(start, steps + [Publish(w, o.ok, o.delivered), Write(w, o.effective)], cfg)
         == AfterWrite(AfterPublish(Run(start, steps, cfg), w, o.ok, o.delivered), w, o.effective, cfg)
  {
    RunSnoc(start, steps, Publish(w, o.ok, o.delivered), cfg);
    RunSnoc(start, steps + [Publish(w, o.ok, o.delivered)], Write(w, o.effective), cfg);
    assert steps + [Publish(w, o.ok, o.delivered)] + [Write(w, o.effective)]
        == steps + [Publish(w, o.ok, o.delivered), Write(w, o.effective)];
  }

  class OutboxWorker {
    const cfg: Config
    const me: nat
    /** The outbox table, the broker and the workers, as this process sees them. */
    var s: State

    constructor (cfg: Config, me: nat, s: State)
      ensures this.cfg == cfg && this.me == me && this.s == s
    {
      this.cfg, this.me, this.s := cfg, me, s;
    }

    /** No row but this one has changed, and nothing besides rows. */
    twostate predicate OnlyRow(id: nat)
      reads this
    {
      && s == old(s).(rows := s.rows) && |s.rows| == |old(s).rows|
      && forall k :: 0 <= k < |s.rows| && k != id ==> s.rows[k] == old(s).rows[k]
    }

    /** The guarded update: a row that is no longer pending stays as it is. */
    method MarkOutboxEventPublished(id: nat, effective: bool)
      modifies this`s
      ensures OnlyRow(id) && (!effective ==> s == old(s))
      ensures id < |s.rows| && effective && old(s).rows[id].status.Pending? ==> s.rows[id] == old(s).rows[id].(status := Published)
      ensures id < |s.rows| && !old(s).rows[id].status.Pending? ==> s.rows[id] == old(s).rows[id]
    {
      if effective && id < |s.rows| && s.rows[id].status.Pending? {
        s := s.(rows := s.rows[id := s.rows[id].(status := Published)]);
      }
    }

    /** The dead-letter update, which does not look at the status. */
    method MarkOutboxEventFailed(id: nat, effective: bool)
      modifies this`s
      ensures OnlyRow(id) && (!effective ==> s == old(s))
      ensures id < |s.rows| && effective ==> s.rows[id] == old(s).rows[id].(status := Failed)
    {
      if effective && id < |s.rows| {
        s := s.(rows := s.rows[id := s.rows[id].(status := Failed)]);
      }
    }

    /** Guarded like the first: only a pending row counts the retry. */
    method IncrementOutboxRetry(id: nat, effective: bool)
      modifies this`s
      ensures OnlyRow(id) && (!effective ==> s == old(s))
      ensures id < |s.rows| && effective && old(s).rows[id].status.Pending? ==> s.rows[id] == old(s).rows[id].(retry := old(s).rows[id].retry + 1)
      ensures id < |s.rows| && !old(s).rows[id].status.Pending? ==> s.rows[id] == old(s).rows[id]
    {
      if effective && id < |s.rows| && s.rows[id].status.Pending? {
        s := s.(rows := s.rows[id := s.rows[id].(retry := s.rows[id].retry + 1)]);
      }
    }

    /** A nil means the message was handed over; whether the broker has it is not known. */
    method PublishEvent(event: Item, ok: bool, delivered: bool)
      requires me < |s.workers| && s.workers[me].batch != [] && event == Head(s, me)
      modifies this`s
      ensures s == AfterPublish(old(s), me, ok, delivered)
      ensures s.rows == old(s).rows && (event.id in s.acked <==> ok || event.id in old(s).acked)
      ensures s.messages == old(s).messages + (if delivered then [Message(event.id, event.row.event)] else [])
    {
      if delivered {
        s := s.(messages := s.messages + [Message(event.id, event.row.event)]);
      }
      if ok {
        s := s.(acked := s.acked + {event.id});
      }
      s := s.(workers := s.workers[me := Worker(s.workers[me].batch, Some(ok))]);
    }

    function SuccessLeaves(row: Row): Row {
      if row.status.Pending? then row.(status := Published) else row
    }

    /** The event's row becomes published if it is still pending; no other changes. */
    method HandlePublishSuccess(event: Item, effective: bool)
      modifies this`s
      ensures OnlyRow(event.id) && (!effective ==> s == old(s))
      ensures event.id < |s.rows| && effective ==> s.rows[event.id] == SuccessLeaves(old(s).rows[event.id])
    {
      MarkOutboxEventPublished(event.id, effective);
    }

    /** The row as the failure path leaves it: on the last try failed whatever it
        was, before that one retry more if it is still pending. */
    function FailureLeaves(row: Row, seen: nat): Row {
      if seen + 1 >= cfg.maxRetries then row.(status := Failed)
      else if row.status.Pending? then row.(retry := row.retry + 1)
      else row
    }

    /** Whether it was the last try is decided from the event as it was fetched. */
    method HandlePublishFailure(event: Item, effective: bool)
      modifies this`s
      ensures OnlyRow(event.id) && (!effective ==> s == old(s))
      ensures event.id < |s.rows| && effective ==> s.rows[event.id] == FailureLeaves(old(s).rows[event.id], event.row.retry)
    {
      var newRetryCount := event.row.retry + 1;
      if newRetryCount >= cfg.maxRetries {
        MarkOutboxEventFailed(event.id, effective);
        return;
      }
      IncrementOutboxRetry(event.id, effective);
    }

    /** One turn of the batch loop: a publish and a write of the worker system. */
    method HandleEvent(event: Item, o: Outcome)
      requires Enabled(s, Publish(me, o.ok, o.delivered), cfg) && event == Head(s, me)
      modifies this`s
      ensures s == AfterWrite(AfterPublish(old(s), me, o.ok, o.delivered), me, o.effective, cfg)
      ensures s.workers == old(s.workers)[me := Worker(old(s).workers[me].batch[1..], None)]
      ensures s.rows == SettleOne(old(s.rows), event, o, cfg)
    {
      PublishEvent(event, o.ok, o.delivered);
      if o.ok {
        HandlePublishSuccess(event, o.effective);
      } else {
        HandlePublishFailure(event, o.effective);
      }
      assert s.rows == SettleOne(old(s).rows, event, o, cfg);
      s := s.(workers := s.workers[me := Worker(s.workers[me].batch[1..], None)],
              log := s.log + [Attempt(event.id, o.ok, o.effective)]);
    }

    /** processBatch: a run of the worker system that ends idle, the events having
        been handled in the order they were fetched. */
    method ProcessBatch(fetched: bool, outcomes: seq<Outcome>)
      returns (events: seq<Item>, ghost steps: seq<Label>)
      requires me < |s.workers| && s.workers[me] == IDLE
      modifies this`s
      ensures Legal(old(s), steps, cfg) && s == Run(old(s), steps, cfg) && NoRequeue(steps)
      ensures |s.workers| == |old(s.workers)| && s.workers[me] == IDLE
      ensures if fetched then IsPendingBatch(old(s.rows), events, cfg.batchSize) else events == []
      ensures s.rows == Handled(old(s.rows), events, 0, outcomes, cfg)
    {
      events, steps := [], [];
      if !fetched {
        return;
      }
      events := GetPendingOutboxEvents(s.rows, cfg.batchSize);
      ghost var start := s;
      RunSnoc(start, steps, Poll(me, events), cfg);
      steps := steps + [Poll(me, events)];
      s := s.(workers := s.workers[me := Worker(events, None)]);
      assert events[0..] == events;
      for i := 0 to |events|
        invariant Legal(start, steps, cfg) && s == Run(start, steps, cfg) && NoRequeue(steps)
        invariant |s.workers| == |start.workers| && s.workers[me] == Worker(events[i..], None)
        invariant Handled(s.rows, events, i, outcomes, cfg) == Handled(start.rows, events, 0, outcomes, cfg)
      {
        var o := OutcomeAt(outcomes, i);
        PublishAndWrite(start, steps, me, o, cfg);
        steps := steps + [Publish(me, o.ok, o.delivered), Write(me, o.effective)];
        HandleEvent(events[i], o);
        assert events[i..][1..] == events[i + 1..];
      }
    }

    /** Rows that other writers committed between two ticks. */
    method Arrive(arrivals: seq<Arrival>) returns (ghost steps: seq<Label>)
      modifies this`s
      ensures Legal(old(s), steps, cfg) && s == Run(old(s), steps, cfg) && NoRequeue(steps)
      ensures s == old(s).(rows := old(s).rows + Inserted(arrivals))
    {
      steps := [];
      ghost var start := s;
      for i := 0 to |arrivals|
        invariant Legal(start, steps, cfg) && s == Run(start, steps, cfg) && NoRequeue(steps)
        invariant s == start.(rows := start.rows + Inserted(arrivals[..i]))
      {
        var l := Enqueue(arrivals[i].event, arrivals[i].createdAt);
        RunSnoc(start, steps, l, cfg);
        steps := steps + [l];
        s := s.(rows := s.rows + [Row(arrivals[i].event, arrivals[i].createdAt, Pending, 0)]);
        assert Inserted(arrivals[..i + 1]) == Inserted(arrivals[..i]) + [Row(arrivals[i].event, arrivals[i].createdAt, Pending, 0)];
      }
      assert arrivals[..|arrivals|] == arrivals;
    }

    /** One tick: what other writers have committed by then, and a batch. */
    method OnTick(tick: Signal) returns (batch: seq<Item>, ghost steps: seq<Label>)
      requires me < |s.workers| && s.workers[me] == IDLE && tick.Tick?
      modifies this`s
      ensures Legal(old(s), steps, cfg) && s == Run(old(s), steps, cfg) && NoRequeue(steps)
      ensures |s.workers| == |old(s.workers)| && s.workers[me] == IDLE
      ensures Polled(old(s.rows), tick, batch, cfg) && s.rows == AfterTick(old(s.rows), tick, batch, cfg)
    {
      ghost var start := s;
      steps := Arrive(tick.arrivals);
      ghost var more;
      batch, more := ProcessBatch(tick.fetched, tick.outcomes);
      RunConcat(start, steps, more, cfg);
      steps := steps + more;
    }

    /** The run loop: one batch per tick until it is told to stop. The table ends as
        the fetched batches leave it; a row no tick fails for is terminal once there
        have been as many ticks as the drain bound says; and served alone, the worker
        keeps the books and never touches a terminal row. */
    method PollLoop(signals: seq<Signal>) returns (batches: seq<seq<Item>>, ghost steps: seq<Label>)
      requires me < |s.workers| && s.workers[me] == IDLE
      modifies this`s
      ensures Legal(old(s), steps, cfg) && s == Run(old(s), steps, cfg) && NoRequeue(steps)
      ensures me < |s.workers| && s.workers[me] == IDLE
      ensures |batches| == |Heard(signals)| && EachPolled(old(s.rows), Heard(signals), batches, cfg)
      ensures s.rows == AfterTicks(old(s.rows), Heard(signals), batches, cfg)
      ensures forall e: nat :: DueBy(old(s.rows), Heard(signals), e, cfg) ==> e < |s.rows| && !s.rows[e].status.Pending?
      ensures cfg.maxRetries >= 1 && Sound(old(s), cfg) ==> Sound(s, cfg) && TerminalFixed(old(s.rows), s.rows)
    {
      batches, steps := [], [];
      ghost var start := s;
      var k := 0;
      while k < |signals|
        invariant k <= |signals| && Ticks(signals[..k]) && |batches| == k
        invariant me < |s.workers| && s.workers[me] == IDLE
        invariant Legal(start, steps, cfg) && s == Run(start, steps, cfg) && NoRequeue(steps)
        invariant EachPolled(start.rows, signals[..k], batches, cfg)
        invariant s.rows == AfterTicks(start.rows, signals[..k], batches, cfg)
      {
        match signals[k] {
          case Stop => break;
          case Done => break;
          case Tick(_, _, _) =>
            var batch;
            ghost var more;
            batch, more := OnTick(signals[k]);
            RunConcat(start, steps, more, cfg);
            OneMoreTick(start.rows, signals, k, batches, batch, cfg);
            steps := steps + more;
            batches := batches + [batch];
            k := k + 1;
        }
      }
      HeardUntil(signals, k);
      AllDrain(start.rows, Heard(signals), batches, cfg);
      if cfg.maxRetries >= 1 && Sound(start, cfg) {
        SingleWorkerRun(start, steps, cfg);
      }
    }
  }
}
