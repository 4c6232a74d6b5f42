/** The outbox of the whole system behaves as the outbox on its own: what is
    proved of the worker system holds with the ledger running beside it. */
module OutboxRefinement {
  import opened Core
  import opened Database
  import opened DatabaseInv
  import opened Protocol
  import opened ProtocolInv
  import opened ProtocolSafety
  import Outbox
  import OutboxSingle

  predicate CommitsEvent(s: State, l: Label) {
    l.ServerCommit? && l.c in s.db.sessions && s.db.sessions[l.c].event.Some?
  }

  /** The outbox's part in a step: a worker's own step, an arrival, or nothing. */
  function Part(s: State, l: Label): seq<Outbox.Label> {
    if l.Worker? then [l.step]
    else if CommitsEvent(s, l) then
      [Outbox.Enqueue(s.db.sessions[l.c].event.value, s.db.sessions[l.c].startedAt)]
    else []
  }

  ghost function Parts(s: State, ls: seq<Label>, cfg: Config): seq<Outbox.Label>
    requires Legal(s, ls, cfg)
    decreases |ls|
  {
    if |ls| == 0 then [] else Part(s, ls[0]) + Parts(Apply(s, ls[0], cfg), ls[1..], cfg)
  }

  ghost predicate Simulates(o: Outbox.State, os: seq<Outbox.Label>, o': Outbox.State, cfg: Config) {
    Outbox.Legal(o, os, cfg.outbox) && Outbox.Run(o, os, cfg.outbox) == o'
  }

  lemma {:induction false} OneStep(o: Outbox.State, l: Outbox.Label, cfg: Config)
    requires Outbox.Enabled(o, l, cfg.outbox)
    ensures Simulates(o, [l], Outbox.Apply(o, l, cfg.outbox), cfg)
  {
    Outbox.RunSnoc(o, [], l, cfg.outbox);
    assert [] + [l] == [l];
  }

  lemma {:induction false} OthersLeaveOutbox(s: State, l: Label, cfg: Config)
    requires Enabled(s, l, cfg) && !l.Worker? && !CommitsEvent(s, l)
    ensures Apply(s, l, cfg).ob == s.ob
  {}

  /** A commit appends one row: the transaction's event, pending, not yet tried,
      at the position recorded for it. */
  lemma {:induction false} CommitEnqueues(s: State, c: CallId, cfg: Config)
    requires Inv(s) && Enabled(s, ServerCommit(c), cfg)
    ensures CommitsEvent(s, ServerCommit(c)) && s.db.sessions[c].tx.Some?
    ensures var s' := Apply(s, ServerCommit(c), cfg); var id := s.db.sessions[c].tx.value;
      && |s'.ob.rows| == |s.ob.rows| + 1 && s'.ob.rows[..|s.ob.rows|] == s.ob.rows
      && s'.slot == s.slot[id := |s.ob.rows|]
      && var row := s'.ob.rows[|s.ob.rows|];
         row.event.txId == id && row.event == s.db.sessions[c].event.value && row.status.Pending? && row.retry == 0
  {
    assert c in s.calls;
    InvAt(s, c);
    assert HasRow(s.db, c);
  }

  lemma {:induction false} StepProjects(s: State, l: Label, cfg: Config)
    requires Enabled(s, l, cfg)
    ensures Simulates(s.ob, Part(s, l), Apply(s, l, cfg).ob, cfg)
  {
    if l.Worker? {
      OneStep(s.ob, l.step, cfg);
    } else if CommitsEvent(s, l) {
      OneStep(s.ob, Outbox.Enqueue(s.db.sessions[l.c].event.value, s.db.sessions[l.c].startedAt), cfg);
    } else {
      OthersLeaveOutbox(s, l, cfg);
    }
  }

  /** Every run of the system is, for the outbox, a run of the worker system. */
  lemma {:induction false} RunProjects(s: State, ls: seq<Label>, cfg: Config)
    requires Legal(s, ls, cfg)
    ensures Simulates(s.ob, Parts(s, ls, cfg), Run(s, ls, cfg).ob, cfg)
    decreases |ls|
  {
    if |ls| > 0 {
      var next := Apply(s, ls[0], cfg);
      StepProjects(s, ls[0], cfg);
      RunProjects(next, ls[1..], cfg);
      Outbox.RunConcat(s.ob, Part(s, ls[0]), Parts(next, ls[1..], cfg), cfg.outbox);
    }
  }

  predicate NeverRequeues(ls: seq<Label>) {
    forall i :: 0 <= i < |ls| ==> ls[i] != Worker(Outbox.Requeue)
  }

  lemma {:induction false} PartsNeverRequeue(s: State, ls: seq<Label>, cfg: Config)
    requires Legal(s, ls, cfg) && NeverRequeues(ls)
    ensures Outbox.NoRequeue(Parts(s, ls, cfg))
    decreases |ls|
  {
    if |ls| > 0 {
      assert ls[0] != Worker(Outbox.Requeue);
      PartsNeverRequeue(Apply(s, ls[0], cfg), ls[1..], cfg);
    }
  }

  /** So the retry bound, and with one worker the books of the attempts and the
      finality of published and failed, hold of the whole system. */
  lemma {:induction false} SystemRetryBound(s0: State, ls: seq<Label>, s: State, cfg: Config, id: nat)
    requires Reaches(s0, ls, s, cfg) && NeverRequeues(ls) && id < |s.ob.rows|
    requires cfg.outbox.maxRetries >= 1 && |s0.ob.workers| >= 1
    ensures s.ob.rows[id].retry <= cfg.outbox.maxRetries + |s0.ob.workers| - 2
  {
    RunProjects(s0, ls, cfg);
    PartsNeverRequeue(s0, ls, cfg);
    Outbox.RetryCountBound(s0.ob, Parts(s0, ls, cfg), cfg.outbox, id);
  }

  lemma {:induction false} SystemAttemptsConserved(s0: State, ls: seq<Label>, s: State, cfg: Config, id: nat)
    requires Reaches(s0, ls, s, cfg) && NeverRequeues(ls) && id < |s.ob.rows|
    requires cfg.outbox.maxRetries >= 1 && |s0.ob.workers| == 1
    ensures OutboxSingle.ConservedAt(s.ob.rows, s.ob.log, id, cfg.outbox)
  {
    RunProjects(s0, ls, cfg);
    PartsNeverRequeue(s0, ls, cfg);
    OutboxSingle.AttemptsConserved(s0.ob, Parts(s0, ls, cfg), cfg.outbox, id);
  }
}
