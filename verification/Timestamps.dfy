/** created_at, everywhere it is written: the clock at the begin of the database
    transaction that writes it. */
module Timestamps {
  import opened Core
  import opened Database
  import opened DatabaseInv
  import opened Protocol
  import opened ProtocolInv
  import opened ProtocolSafety
  import AccountHistory
  import MutualExclusion
  import Outbox

  // --------------------------------------------------------------- invariant

  predicate CallTimed(s: State, c: CallId) {
    && (c in s.calls ==> s.calls[c].arrivedAt <= s.now)
    && (c in s.db.sessions ==> c in s.calls && s.calls[c].arrivedAt <= s.db.sessions[c].startedAt <= s.now)
  }

  predicate RowTimed(db: Db, id: Uuid) {
    id in db.heap ==>
      db.heap[id].writer in db.sessions && db.heap[id].createdAt == db.sessions[db.heap[id].writer].startedAt
  }

  predicate LegTimed(db: Db, p: PostingRow) {
    p.tx in db.heap && p.createdAt == db.heap[p.tx].createdAt
  }

  predicate EventTimed(db: Db, row: Outbox.Row) {
    row.event.txId in db.heap && row.createdAt == db.heap[row.event.txId].createdAt
  }

  ghost predicate Timed(s: State) {
    && (forall c :: CallTimed(s, c))
    && (forall id :: id in s.db.heap ==> RowTimed(s.db, id))
    && LegsTimed(s.db) && EventsTimed(s.db, s.ob.rows)
  }

  // ------------------------------------------------------------ what steps do

  /** A call's arrival and its transaction's begin are never rewritten. */
  predicate SameTimes(s: State, s': State, c: CallId) {
    && (c in s.calls ==> c in s'.calls && s'.calls[c].arrivedAt == s.calls[c].arrivedAt)
    && (c in s.db.sessions ==> c in s'.db.sessions && s'.db.sessions[c].startedAt == s.db.sessions[c].startedAt)
  }

  lemma {:induction false} CallersKeepTimes(s: State, l: Label, cfg: Config)
    requires Enabled(s, l, cfg) && CallerOnly(l)
    ensures SameTimes(s, Apply(s, l, cfg), l.c)
  {
    DatabaseLeftAlone(s, l, cfg);
  }

  lemma {:induction false} InsertsKeepTimes(s: State, l: Label, cfg: Config)
    requires Enabled(s, l, cfg) && Inserts(l)
    ensures SameTimes(s, Apply(s, l, cfg), l.c)
  {}

  lemma {:induction false} EndsKeepTimes(s: State, l: Label, cfg: Config)
    requires Enabled(s, l, cfg) && Ends(l)
    ensures SameTimes(s, Apply(s, l, cfg), l.c)
  {}

  lemma {:induction false} TimesStay(s: State, l: Label, cfg: Config, c: CallId)
    requires Enabled(s, l, cfg)
    ensures SameTimes(s, Apply(s, l, cfg), c)
  {
    if Actor(l) != Some(c) {
      OthersUntouched(s, l, cfg, c);
    } else if CallerOnly(l) {
      CallersKeepTimes(s, l, cfg);
    } else if Inserts(l) {
      InsertsKeepTimes(s, l, cfg);
    } else {
      EndsKeepTimes(s, l, cfg);
    }
  }

  /** Rows of transactions are never rewritten or taken away. */
  predicate HeapGrows(db: Db, db': Db) {
    forall id :: id in db.heap ==> id in db'.heap && db'.heap[id] == db.heap[id]
  }

  lemma {:induction false} StepGrowsHeap(s: State, l: Label, cfg: Config)
    requires Enabled(s, l, cfg)
    ensures HeapGrows(s.db, Apply(s, l, cfg).db)
  {
    if LeavesDatabase(l) {
      DatabaseLeftAlone(s, l, cfg);
    } else if Inserts(l) {
      InsertsGrowHeap(s, l, cfg);
    } else {
      OthersLeaveHeap(s, l, cfg);
    }
  }

  lemma {:induction false} InsertsGrowHeap(s: State, l: Label, cfg: Config)
    requires Enabled(s, l, cfg) && Inserts(l)
    ensures HeapGrows(s.db, Apply(s, l, cfg).db)
  {}

  lemma {:induction false} OthersLeaveHeap(s: State, l: Label, cfg: Config)
    requires Enabled(s, l, cfg) && (Ends(l) || l.AddAccount?)
    ensures Apply(s, l, cfg).db.heap == s.db.heap
  {
    if Ends(l) {
      EndsLeaveHeap(s, l, cfg);
    }
  }

  lemma {:induction false} EndsLeaveHeap(s: State, l: Label, cfg: Config)
    requires Enabled(s, l, cfg) && Ends(l)
    ensures Apply(s, l, cfg).db.heap == s.db.heap
  {
    if l.ServerCommit? {
      assert Apply(s, l, cfg).db == Commit(s.db, l.c);
    }
  }

  lemma {:induction false} NewRowTimed(s: State, l: Label, cfg: Config, id: Uuid)
    requires Enabled(s, l, cfg) && Inserts(l) && id !in s.db.heap
    ensures RowTimed(Apply(s, l, cfg).db, id)
  {}

  lemma {:induction false} RowsStayTimed(s: State, l: Label, cfg: Config, id: Uuid)
    requires Inv(s) && Timed(s) && Enabled(s, l, cfg)
    ensures RowTimed(Apply(s, l, cfg).db, id)
  {
    StepGrowsHeap(s, l, cfg);
    if id in s.db.heap {
      assert RowTimed(s.db, id);
      TimesStay(s, l, cfg, s.db.heap[id].writer);
    } else if Inserts(l) {
      NewRowTimed(s, l, cfg, id);
    } else if LeavesDatabase(l) {
      DatabaseLeftAlone(s, l, cfg);
    } else {
      OthersLeaveHeap(s, l, cfg);
    }
  }

  lemma {:induction false} NewLegTimed(s: State, c: CallId, outcome: Outcome, cfg: Config)
    requires Inv(s) && Timed(s) && Enabled(s, InsertLeg(c, outcome), cfg)
    ensures var db' := AfterInsertLeg(s, c, outcome).db;
      |db'.postings| > |s.db.postings| ==> LegTimed(db', db'.postings[|s.db.postings|])
  {
    if !outcome.Rejected? {
      assert DatabaseInv.SessionOk(s.db, c);
      assert RowTimed(s.db, s.db.sessions[c].tx.value);
    }
  }

  ghost predicate LegsTimed(db: Db) {
    forall i :: 0 <= i < |db.postings| ==> LegTimed(db, db.postings[i])
  }

  lemma {:induction false} SameLegsTimed(db: Db, db': Db)
    requires LegsTimed(db) && HeapGrows(db, db') && db'.postings == db.postings
    ensures LegsTimed(db')
  {}

  lemma {:induction false} OneMoreLegTimed(db: Db, db': Db)
    requires LegsTimed(db) && HeapGrows(db, db') && AccountHistory.OnlyInvisiblePostings(db, db')
    requires |db'.postings| > |db.postings| ==> LegTimed(db', db'.postings[|db.postings|])
    ensures LegsTimed(db')
  {
    forall i | 0 <= i < |db'.postings| ensures LegTimed(db', db'.postings[i]) {
      if i < |db.postings| {
        assert db'.postings[i] == db'.postings[..|db.postings|][i] == db.postings[i];
      }
    }
  }

  lemma {:induction false} LegsStayTimed(s: State, l: Label, cfg: Config)
    requires Inv(s) && Timed(s) && Enabled(s, l, cfg)
    ensures LegsTimed(Apply(s, l, cfg).db)
  {
    var db' := Apply(s, l, cfg).db;
    StepGrowsHeap(s, l, cfg);
    if l.InsertLeg? {
      AccountHistory.LegIsInvisible(s, l.c, l.outcome, cfg);
      NewLegTimed(s, l.c, l.outcome, cfg);
      OneMoreLegTimed(s.db, db');
    } else {
      if !l.ServerCommit? {
        AccountHistory.OtherStepsAddNothing(s, l, cfg);
      }
      SameLegsTimed(s.db, db');
    }
  }

  lemma {:induction false} NewEventTimed(s: State, c: CallId)
    requires Inv(s) && Timed(s) && CanCommit(s.db, c)
    ensures var rows' := AfterServerCommit(s, c).ob.rows;
      |rows'| == |s.ob.rows| + 1 && rows'[..|s.ob.rows|] == s.ob.rows && EventTimed(s.db, rows'[|s.ob.rows|])
  {
    InvAt(s, c);
    assert DatabaseInv.SessionOk(s.db, c);
    assert RowTimed(s.db, s.db.sessions[c].tx.value);
  }

  lemma {:induction false} OutboxLeftAlone(s: State, l: Label, cfg: Config)
    requires Enabled(s, l, cfg) && !l.ServerCommit?
    ensures Outbox.SameEvents(s.ob.rows, Apply(s, l, cfg).ob.rows) && |Apply(s, l, cfg).ob.rows| == |s.ob.rows|
  {
    if l.Worker? {
      Outbox.StepKeepsEvents(s.ob, l.step, cfg.outbox);
    } else {
      OutboxUntouched(s, l, cfg);
    }
  }

  lemma {:induction false} OutboxUntouched(s: State, l: Label, cfg: Config)
    requires Enabled(s, l, cfg) && !l.ServerCommit? && !l.Worker?
    ensures Apply(s, l, cfg).ob == s.ob
  {}

  ghost predicate EventsTimed(db: Db, rows: seq<Outbox.Row>) {
    forall i :: 0 <= i < |rows| ==> EventTimed(db, rows[i])
  }

  lemma {:induction false} SameEventsTimed(db: Db, db': Db, rows: seq<Outbox.Row>, rows': seq<Outbox.Row>)
    requires EventsTimed(db, rows) && HeapGrows(db, db') && Outbox.SameEvents(rows, rows') && |rows'| == |rows|
    ensures EventsTimed(db', rows')
  {}

  lemma {:induction false} OneMoreEventTimed(db: Db, db': Db, rows: seq<Outbox.Row>, rows': seq<Outbox.Row>)
    requires EventsTimed(db, rows) && HeapGrows(db, db')
    requires |rows'| == |rows| + 1 && rows'[..|rows|] == rows && EventTimed(db, rows'[|rows|])
    ensures EventsTimed(db', rows')
  {
    forall i | 0 <= i < |rows'| ensures EventTimed(db', rows'[i]) {
      if i < |rows| {
        assert rows'[i] == rows'[..|rows|][i] == rows[i];
      }
    }
  }

  lemma {:induction false} EventsStayTimed(s: State, l: Label, cfg: Config)
    requires Inv(s) && Timed(s) && Enabled(s, l, cfg)
    ensures EventsTimed(Apply(s, l, cfg).db, Apply(s, l, cfg).ob.rows)
  {
    var s' := Apply(s, l, cfg);
    StepGrowsHeap(s, l, cfg);
    if l.ServerCommit? {
      NewEventTimed(s, l.c);
      OneMoreEventTimed(s.db, s'.db, s.ob.rows, s'.ob.rows);
    } else {
      OutboxLeftAlone(s, l, cfg);
      SameEventsTimed(s.db, s'.db, s.ob.rows, s'.ob.rows);
    }
  }

  lemma {:induction false} NewcomersTimed(s: State, l: Label, cfg: Config, c: CallId)
    requires Inv(s) && CallTimed(s, c) && Enabled(s, l, cfg) && Actor(l) == Some(c)
    requires l.Arrive? || l.BeginTx?
    ensures CallTimed(Apply(s, l, cfg), c)
  {
    SessionsAreCalls(s, c);
  }

  lemma {:induction false} SessionsAreCalls(s: State, c: CallId)
    requires Inv(s)
    ensures c in s.db.sessions ==> c in s.calls
  {}

  lemma {:induction false} OldhandsTimed(s: State, l: Label, cfg: Config, c: CallId)
    requires Inv(s) && CallTimed(s, c) && Enabled(s, l, cfg) && Actor(l) == Some(c)
    requires !l.Arrive? && !l.BeginTx?
    ensures (c in Apply(s, l, cfg).calls ==> c in s.calls) && (c in Apply(s, l, cfg).db.sessions ==> c in s.db.sessions)
  {
    if CallerOnly(l) {
      DatabaseLeftAlone(s, l, cfg);
      CallerMovesItself(s, l, cfg);
    } else if Inserts(l) {
      InsertsNeedSession(s, l, cfg);
    } else {
      EndsNeedSession(s, l, cfg);
    }
  }

  lemma {:induction false} InsertsNeedSession(s: State, l: Label, cfg: Config)
    requires Enabled(s, l, cfg) && Inserts(l) && !l.BeginTx?
    ensures l.c in s.calls && (l.c in Apply(s, l, cfg).db.sessions ==> l.c in s.db.sessions)
  {}

  lemma {:induction false} EndsNeedSession(s: State, l: Label, cfg: Config)
    requires Enabled(s, l, cfg) && Ends(l)
    ensures l.c in Apply(s, l, cfg).calls ==> l.c in s.calls
    ensures l.c in Apply(s, l, cfg).db.sessions ==> l.c in s.db.sessions
  {}

  lemma {:induction false} CallsStayTimed(s: State, l: Label, cfg: Config, c: CallId)
    requires Inv(s) && CallTimed(s, c) && Enabled(s, l, cfg)
    ensures CallTimed(Apply(s, l, cfg), c)
  {
    MutualExclusion.TimePasses(s, l, cfg);
    if Actor(l) != Some(c) {
      OthersUntouched(s, l, cfg, c);
    } else if l.Arrive? || l.BeginTx? {
      NewcomersTimed(s, l, cfg, c);
    } else {
      TimesStay(s, l, cfg, c);
      OldhandsTimed(s, l, cfg, c);
    }
  }

  lemma {:induction false} StepKeepsTimed(s: State, l: Label, cfg: Config)
    requires Inv(s) && Timed(s) && Enabled(s, l, cfg)
    ensures Timed(Apply(s, l, cfg))
  {
    var s' := Apply(s, l, cfg);
    forall c ensures CallTimed(s', c) {
      CallsStayTimed(s, l, cfg, c);
    }
    forall id | id in s'.db.heap ensures RowTimed(s'.db, id) {
      RowsStayTimed(s, l, cfg, id);
    }
    LegsStayTimed(s, l, cfg);
    EventsStayTimed(s, l, cfg);
  }

  lemma {:induction false} RunKeepsTimed(s: State, ls: seq<Label>, cfg: Config)
    requires Inv(s) && Timed(s) && Legal(s, ls, cfg)
    ensures Timed(Run(s, ls, cfg))
    decreases |ls|
  {
    if |ls| > 0 {
      StepKeepsInv(s, ls[0], cfg);
      StepKeepsTimed(s, ls[0], cfg);
      RunKeepsTimed(Apply(s, ls[0], cfg), ls[1..], cfg);
    }
  }

  lemma {:induction false} ReachableTimed(s0: State, ls: seq<Label>, s: State, cfg: Config)
    requires Reaches(s0, ls, s, cfg)
    ensures Timed(s)
  {
    EmptyOk();
    RunKeepsTimed(s0, ls, cfg);
  }

  // ---------------------------------------------------------- when it began

  /** The state in which step k of the run is taken. */
  ghost function StateBefore(s: State, ls: seq<Label>, k: nat, cfg: Config): State
    requires Legal(s, ls, cfg) && k <= |ls|
    decreases k
  {
    if k == 0 then s else StateBefore(Apply(s, ls[0], cfg), ls[1..], k - 1, cfg)
  }

  lemma {:induction false} StartedStays(s: State, ls: seq<Label>, cfg: Config, c: CallId)
    requires Legal(s, ls, cfg) && c in s.db.sessions
    ensures c in Run(s, ls, cfg).db.sessions
    ensures Run(s, ls, cfg).db.sessions[c].startedAt == s.db.sessions[c].startedAt
    decreases |ls|
  {
    if |ls| > 0 {
      TimesStay(s, ls[0], cfg, c);
      StartedStays(Apply(s, ls[0], cfg), ls[1..], cfg, c);
    }
  }

  lemma {:induction false} OnlyBeginStarts(s: State, l: Label, cfg: Config, c: CallId)
    requires Enabled(s, l, cfg) && c !in s.db.sessions && c in Apply(s, l, cfg).db.sessions
    ensures l == BeginTx(c, true) && Apply(s, l, cfg).db.sessions[c].startedAt == s.now
  {
    NewSessionIsActors(s, l, cfg, c);
    if CallerOnly(l) {
      DatabaseLeftAlone(s, l, cfg);
    } else if Inserts(l) {
      if !l.BeginTx? {
        InsertsNeedSession(s, l, cfg);
      }
    } else {
      EndsNeedSession(s, l, cfg);
    }
  }

  lemma {:induction false} NewSessionIsActors(s: State, l: Label, cfg: Config, c: CallId)
    requires Enabled(s, l, cfg) && c !in s.db.sessions && c in Apply(s, l, cfg).db.sessions
    ensures Actor(l) == Some(c)
  {
    if Actor(l) != Some(c) {
      OtherSessionsUntouched(s, l, cfg, c);
    }
  }

  lemma {:induction false} SessionBegan(s: State, ls: seq<Label>, cfg: Config, c: CallId) returns (k: nat)
    requires Legal(s, ls, cfg) && c !in s.db.sessions && c in Run(s, ls, cfg).db.sessions
    ensures k < |ls| && ls[k] == BeginTx(c, true)
    ensures StateBefore(s, ls, k, cfg).now == Run(s, ls, cfg).db.sessions[c].startedAt
    decreases |ls|
  {
    var next := Apply(s, ls[0], cfg);
    if c in next.db.sessions {
      OnlyBeginStarts(s, ls[0], cfg, c);
      StartedStays(next, ls[1..], cfg, c);
      k := 0;
    } else {
      var j := SessionBegan(next, ls[1..], cfg, c);
      k := j + 1;
    }
  }

  // ------------------------------------------------------------ main results

  /** A committed transaction was created when its writer's database transaction
      began: at a step of this very run, after the call had arrived. */
  lemma {:induction false} CreatedAtBegin(s0: State, ls: seq<Label>, s: State, cfg: Config, id: Uuid) returns (k: nat)
    requires Reaches(s0, ls, s, cfg) && id in s.db.committed
    ensures id in s.db.heap && s.db.heap[id].writer in s.calls
    ensures var row := s.db.heap[id];
      && k < |ls| && ls[k] == BeginTx(row.writer, true)
      && row.createdAt == StateBefore(s0, ls, k, cfg).now
      && s.calls[row.writer].arrivedAt <= row.createdAt <= s.now
  {
    ReachableInv(s0, ls, s, cfg);
    ReachableTimed(s0, ls, s, cfg);
    CommittedIsAlive(s.db, id);
    var w := s.db.heap[id].writer;
    assert RowTimed(s.db, id) && CallTimed(s, w);
    k := SessionBegan(s0, ls, cfg, w);
  }

  /** Its postings and its outbox row carry the same time. */
  lemma {:induction false} OneTimePerTransaction(s0: State, ls: seq<Label>, s: State, cfg: Config, id: Uuid)
    requires Reaches(s0, ls, s, cfg) && id in s.db.committed
    ensures id in s.db.heap
    ensures forall i :: 0 <= i < |s.db.postings| && s.db.postings[i].tx == id ==> s.db.postings[i].createdAt == s.db.heap[id].createdAt
    ensures forall i :: 0 <= i < |s.ob.rows| && s.ob.rows[i].event.txId == id ==> s.ob.rows[i].createdAt == s.db.heap[id].createdAt
  {
    ReachableInv(s0, ls, s, cfg);
    ReachableTimed(s0, ls, s, cfg);
    CommittedIsAlive(s.db, id);
    forall i | 0 <= i < |s.db.postings| && s.db.postings[i].tx == id ensures s.db.postings[i].createdAt == s.db.heap[id].createdAt {
      assert LegTimed(s.db, s.db.postings[i]);
    }
    forall i | 0 <= i < |s.ob.rows| && s.ob.rows[i].event.txId == id ensures s.ob.rows[i].createdAt == s.db.heap[id].createdAt {
      assert EventTimed(s.db, s.ob.rows[i]);
    }
  }
}
