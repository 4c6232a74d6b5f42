/** Walking transactions backwards in time by created_at alone. */
module TransactionPaging {
  import opened Core
  import opened Paging

  const SECOND: nat := 1_000_000_000

  type Table = map<Uuid, TxRow>

  predicate Eligible(table: Table, tenant: Uuid, before: int, row: TxRow) {
    row.id in table && table[row.id] == row && row.tenant == tenant && row.createdAt < before
  }

  /** WHERE tenant_id = t AND created_at < cursor ORDER BY created_at DESC LIMIT n;
      rows that tie come in any order. */
  ghost predicate IsTxPage(table: Table, tenant: Uuid, before: int, limit: nat, page: seq<TxRow>) {
    && |page| <= limit
    && (forall i :: 0 <= i < |page| ==> Eligible(table, tenant, before, page[i]))
    && Descending(page)
    && (forall row :: Eligible(table, tenant, before, row) && row !in page ==>
          |page| == limit && forall i :: 0 <= i < |page| ==> page[i].createdAt >= row.createdAt)
  }

  /** Newest first, no row twice. */
  predicate Descending(page: seq<TxRow>) {
    forall i, j :: 0 <= i < j < |page| ==> page[i].createdAt >= page[j].createdAt && page[i].id != page[j].id
  }

  datatype Cursor = Absent | Malformed | At(time: int)

  /** idx_transactions_created_at: all rows, newest first; ties in any order. */
  predicate IsIndex(table: Table, index: seq<TxRow>) {
    && (forall i :: 0 <= i < |index| ==> index[i].id in table && table[index[i].id] == index[i])
    && (forall id :: id in table && table[id].id == id ==> table[id] in index)
    && Descending(index)
  }

  /** A row the scan has behind it: on the page, not wanted, or past a full page. */
  predicate PassedOver(table: Table, tenant: Uuid, before: int, limit: nat, items: seq<TxRow>, row: TxRow) {
    Eligible(table, tenant, before, row) && row !in items ==>
      |items| == limit && forall j :: 0 <= j < |items| ==> items[j].createdAt >= row.createdAt
  }

  predicate SortsBefore(items: seq<TxRow>, row: TxRow) {
    forall k :: 0 <= k < |items| ==> items[k].createdAt >= row.createdAt && items[k].id != row.id
  }

  lemma {:induction false} ScanMissesNothing(table: Table, index: seq<TxRow>, tenant: Uuid, before: int, limit: nat, items: seq<TxRow>)
    requires IsIndex(table, index)
    requires forall k :: 0 <= k < |index| ==> PassedOver(table, tenant, before, limit, items, index[k])
    ensures forall row :: Eligible(table, tenant, before, row) && row !in items ==>
      |items| == limit && forall j :: 0 <= j < |items| ==> items[j].createdAt >= row.createdAt
  {
    forall row | Eligible(table, tenant, before, row) && row !in items
      ensures |items| == limit && forall j :: 0 <= j < |items| ==> items[j].createdAt >= row.createdAt
    {
      var k :| 0 <= k < |index| && index[k] == row;
      assert PassedOver(table, tenant, before, limit, items, index[k]);
    }
  }

  /** The list query, reading the created_at index. */
  method QueryTransactions(table: Table, index: seq<TxRow>, tenant: Uuid, before: int, limit: nat)
    returns (items: seq<TxRow>)
    requires IsIndex(table, index)
    ensures IsTxPage(table, tenant, before, limit, items)
  {
    items := [];
    for i := 0 to |index|
      invariant |items| <= limit
      invariant forall k :: 0 <= k < |items| ==> Eligible(table, tenant, before, items[k])
      invariant forall j :: i <= j < |index| ==> SortsBefore(items, index[j])
      invariant Descending(items)
      invariant forall k :: 0 <= k < i ==> PassedOver(table, tenant, before, limit, items, index[k])
    {
      if |items| < limit && index[i].tenant == tenant && index[i].createdAt < before {
        items := items + [index[i]];
      }
    }
    ScanMissesNothing(table, index, tenant, before, limit, items);
  }

  /** What a list request is answered with: the rows before the cursor it
      names or, when it names none, before a second past the server's clock. */
  ghost predicate AnswersList(table: Table, tenant: Uuid, cursor: Cursor, now: int, requested: int, r: Listing<TxRow>) {
    && (r.BadRequest? <==> requested > 100 || cursor.Malformed?)
    && (r.Listed? ==> r.pageSize == if requested <= 0 then 20 else requested)
    && (r.Listed? && cursor.At? ==> IsTxPage(table, tenant, cursor.time, r.pageSize, r.data))
    && (r.Listed? && cursor.Absent? ==> IsTxPage(table, tenant, now + 1_000_000_000, r.pageSize, r.data))
    && (r.Listed? ==> r.nextCursor == if r.data == [] then 0 else Last(r.data).createdAt)
  }

  /** GET /v1/transactions, handler and service together. */
  method ListTransactions(cursor: Cursor, now: int, requested: int, table: Table, index: seq<TxRow>, tenant: Uuid)
    returns (r: Listing<TxRow>)
    requires IsIndex(table, index)
    ensures AnswersList(table, tenant, cursor, now, requested, r)
  {
    var pageSize := requested;
    if pageSize <= 0 {
      pageSize := DEFAULT_PAGE_SIZE;
    }
    if pageSize > MAX_PAGE_SIZE {
      return BadRequest;
    }
    var cursorTime := 0;
    match cursor {
      case Malformed => return BadRequest;
      case At(time) => cursorTime := time;
      case Absent => cursorTime := now + SECOND;
    }
    var txns := QueryTransactions(table, index, tenant, cursorTime, pageSize);
    var nextCursor := 0;
    if |txns| > 0 {
      nextCursor := Last(txns).createdAt;
    }
    r := Listed(txns, nextCursor, pageSize);
  }

  datatype Visit = Visit(table: Table, page: seq<TxRow>)

  ghost predicate IsWalk(visits: seq<Visit>, tenant: Uuid, before: int, limit: nat)
    decreases |visits|
  {
    && |visits| > 0
    && IsTxPage(visits[0].table, tenant, before, limit, visits[0].page)
    && (if visits[0].page == [] then |visits| == 1
        else IsWalk(visits[1..], tenant, Last(visits[0].page).createdAt, limit))
  }

  ghost predicate TablesGrow(visits: seq<Visit>) {
    forall i, j :: 0 <= i < j < |visits| ==> Grows(visits[i].table, visits[j].table)
  }

  function Collected(visits: seq<Visit>): seq<TxRow> {
    if |visits| == 0 then [] else visits[0].page + Collected(visits[1..])
  }

  lemma {:induction false} CollectedBefore(visits: seq<Visit>, tenant: Uuid, before: int, limit: nat)
    requires IsWalk(visits, tenant, before, limit)
    ensures forall row :: row in Collected(visits) ==> row.createdAt < before
    decreases |visits|
  {
    if visits[0].page != [] {
      CollectedBefore(visits[1..], tenant, Last(visits[0].page).createdAt, limit);
    }
  }

  lemma {:induction false} CollectedFromLast(visits: seq<Visit>, tenant: Uuid, before: int, limit: nat)
    requires IsWalk(visits, tenant, before, limit) && TablesGrow(visits)
    ensures forall row :: row in Collected(visits) ==> row.id in Last(visits).table && Last(visits).table[row.id] == row
    decreases |visits|
  {
    if visits[0].page != [] {
      var rest := visits[1..];
      CollectedFromLast(rest, tenant, Last(visits[0].page).createdAt, limit);
      assert Last(rest) == Last(visits);
      assert Grows(visits[0].table, visits[|visits| - 1].table);
    }
  }

  lemma {:induction false} PageThenRest(page: seq<TxRow>, rest: seq<TxRow>, table: Table)
    requires |page| > 0 && Descending(page) && Descending(rest)
    requires forall row :: row in rest ==> row.createdAt < Last(page).createdAt
    requires forall row :: row in page + rest ==> row.id in table && table[row.id] == row
    ensures Descending(page + rest)
  {
    var all := page + rest;
    forall i, j | 0 <= i < j < |all| ensures all[i].createdAt >= all[j].createdAt && all[i].id != all[j].id {
      assert all[i] in all && all[j] in all;
      if i < |page| <= j {
        assert page[i].createdAt >= Last(page).createdAt && rest[j - |page|] in rest;
      }
    }
  }

  /** No row is ever listed twice, and newer rows come first. */
  lemma {:induction false} NeverRepeats(visits: seq<Visit>, tenant: Uuid, before: int, limit: nat)
    requires IsWalk(visits, tenant, before, limit) && TablesGrow(visits)
    ensures Descending(Collected(visits))
    decreases |visits|
  {
    var page := visits[0].page;
    if page != [] {
      var rest := visits[1..];
      NeverRepeats(rest, tenant, Last(page).createdAt, limit);
      CollectedBefore(rest, tenant, Last(page).createdAt, limit);
      CollectedFromLast(visits, tenant, before, limit);
      PageThenRest(page, Collected(rest), Last(visits).table);
    } else {
      assert Collected(visits) == [];
    }
  }

  /** Some page ended on a row created at the same instant, without this row. */
  ghost predicate TiedAway(visits: seq<Visit>, row: TxRow) {
    exists i :: 0 <= i < |visits| && TiedAt(visits[i].page, row)
  }

  predicate TiedAt(page: seq<TxRow>, row: TxRow) {
    page != [] && Last(page).createdAt == row.createdAt && row !in page
  }

  lemma {:induction false} TiedCons(visits: seq<Visit>, row: TxRow)
    requires |visits| > 0
    ensures TiedAway(visits, row) <==> TiedAt(visits[0].page, row) || TiedAway(visits[1..], row)
  {
    if TiedAway(visits[1..], row) {
      var i :| 0 <= i < |visits[1..]| && TiedAt(visits[1..][i].page, row);
      assert TiedAt(visits[i + 1].page, row);
    }
    if TiedAway(visits, row) {
      var i :| 0 <= i < |visits| && TiedAt(visits[i].page, row);
      assert i > 0 ==> TiedAt(visits[1..][i - 1].page, row);
    }
  }

  lemma {:induction false} NoLateTie(visits: seq<Visit>, tenant: Uuid, before: int, limit: nat, row: TxRow)
    requires IsWalk(visits, tenant, before, limit) && row.createdAt >= before
    ensures !TiedAway(visits, row)
    decreases |visits|
  {
    TiedCons(visits, row);
    if visits[0].page != [] {
      NoLateTie(visits[1..], tenant, Last(visits[0].page).createdAt, limit, row);
    }
  }

  /** A row that was there at the start is missed exactly when it ties on
      created_at with the last row of a page that leaves it out. */
  lemma {:induction false} MissedIffTied(visits: seq<Visit>, tenant: Uuid, before: int, limit: nat, row: TxRow)
    requires limit >= 1 && IsWalk(visits, tenant, before, limit) && TablesGrow(visits)
    requires Eligible(visits[0].table, tenant, before, row)
    ensures row !in Collected(visits) <==> TiedAway(visits, row)
    decreases |visits|
  {
    var page := visits[0].page;
    assert row in page || |page| == limit;
    var last := Last(page).createdAt;
    var rest := visits[1..];
    TiedCons(visits, row);
    CollectedBefore(rest, tenant, last, limit);
    if row.createdAt >= last {
      NoLateTie(rest, tenant, last, limit, row);
    } else {
      assert Grows(visits[0].table, visits[1].table);
      MissedIffTied(rest, tenant, last, limit, row);
    }
  }

  /** With distinct timestamps nothing is missed. */
  lemma {:induction false} DistinctTimesMissNothing(visits: seq<Visit>, tenant: Uuid, before: int, limit: nat, row: TxRow)
    requires limit >= 1 && IsWalk(visits, tenant, before, limit) && TablesGrow(visits)
    requires Eligible(visits[0].table, tenant, before, row)
    requires forall other :: other in Collected(visits) && other != row ==> other.createdAt != row.createdAt
    ensures row in Collected(visits)
  {
    MissedIffTied(visits, tenant, before, limit, row);
    if i :| 0 <= i < |visits| && TiedAt(visits[i].page, row) {
      PageCollected(visits, i, Last(visits[i].page));
    }
  }

  lemma {:induction false} PageCollected(visits: seq<Visit>, i: nat, row: TxRow)
    requires i < |visits| && row in visits[i].page
    ensures row in Collected(visits)
  {
    if i > 0 {
      PageCollected(visits[1..], i - 1, row);
    }
  }

  // ------------------------------------------------- following next_cursor

  /** One list request: the table it found, what it asked, the answer. */
  datatype Exchange = Exchange(table: Table, cursor: Cursor, now: int, answer: Listing<TxRow>)

  predicate Continues(before: Exchange, after: Exchange) {
    before.answer.Listed? && before.answer.data != [] && after.cursor == At(before.answer.nextCursor)
  }

  ghost predicate Answered(e: Exchange, tenant: Uuid, requested: int) {
    e.answer.Listed? && AnswersList(e.table, tenant, e.cursor, e.now, requested, e.answer)
  }

  /** A client pages through the list: each request after the first names the
      previous answer's next_cursor, and the client stops at an empty page. */
  ghost predicate Followed(es: seq<Exchange>, tenant: Uuid, requested: int) {
    && |es| > 0
    && (forall i :: 0 <= i < |es| ==> Answered(es[i], tenant, requested))
    && (forall i :: 0 < i < |es| ==> Continues(es[i - 1], es[i]))
    && Last(es).answer.data == []
    && (forall i, j :: 0 <= i < j < |es| ==> Grows(es[i].table, es[j].table))
  }

  function Rows(es: seq<Exchange>): seq<TxRow>
    requires forall e :: e in es ==> e.answer.Listed?
  {
    if |es| == 0 then [] else es[0].answer.data + Rows(es[1..])
  }

  function Visits(es: seq<Exchange>): (visits: seq<Visit>)
    requires forall e :: e in es ==> e.answer.Listed?
  {
    if |es| == 0 then [] else [Visit.Visit(es[0].table, es[0].answer.data)] + Visits(es[1..])
  }

  lemma {:induction false} VisitsMirror(es: seq<Exchange>)
    requires forall e :: e in es ==> e.answer.Listed?
    ensures |Visits(es)| == |es| && Collected(Visits(es)) == Rows(es)
    ensures forall i :: 0 <= i < |es| ==> Visits(es)[i] == Visit.Visit(es[i].table, es[i].answer.data)
  {
    if |es| > 0 {
      VisitsMirror(es[1..]);
      assert Visits(es)[1..] == Visits(es[1..]);
    }
  }

  /** The time before which an exchange looks. */
  function LooksBefore(e: Exchange): int {
    if e.cursor.At? then e.cursor.time else e.now + 1_000_000_000
  }

  lemma {:induction false} RestFollowed(es: seq<Exchange>, tenant: Uuid, requested: int)
    requires Followed(es, tenant, requested) && |es| > 1
    ensures Followed(es[1..], tenant, requested)
  {
    var rest := es[1..];
    assert forall i :: 0 < i < |rest| ==> rest[i] == es[i + 1] && rest[i - 1] == es[i];
  }

  lemma {:induction false} FollowedIsWalk(es: seq<Exchange>, tenant: Uuid, requested: int)
    requires Followed(es, tenant, requested)
    ensures IsWalk(Visits(es), tenant, LooksBefore(es[0]), es[0].answer.pageSize)
    decreases |es|
  {
    assert Answered(es[0], tenant, requested);
    if |es| > 1 {
      assert Continues(es[0], es[1]) && Answered(es[1], tenant, requested);
      RestFollowed(es, tenant, requested);
      FollowedIsWalk(es[1..], tenant, requested);
      assert Visits(es)[1..] == Visits(es[1..]);
    }
  }

  /** The rows a client gets by following next_cursor: newest first, none of
      them twice; a row that was there for the first request is missed exactly
      when some answer ends, without it, on a row created at the same instant. */
  lemma {:induction false} EndpointWalk(es: seq<Exchange>, tenant: Uuid, requested: int)
    requires Followed(es, tenant, requested)
    ensures Descending(Rows(es))
    ensures forall row :: Eligible(es[0].table, tenant, LooksBefore(es[0]), row) ==>
      (row !in Rows(es) <==> exists i :: 0 <= i < |es| && TiedAt(es[i].answer.data, row))
  {
    var visits, start := Visits(es), LooksBefore(es[0]);
    var limit := es[0].answer.pageSize;
    VisitsMirror(es);
    FollowedIsWalk(es, tenant, requested);
    NeverRepeats(visits, tenant, start, limit);
    assert Answered(es[0], tenant, requested);
    forall row | Eligible(es[0].table, tenant, start, row)
      ensures row !in Rows(es) <==> exists i :: 0 <= i < |es| && TiedAt(es[i].answer.data, row)
    {
      MissedIffTied(visits, tenant, start, limit, row);
      if i :| 0 <= i < |es| && TiedAt(es[i].answer.data, row) {
        assert TiedAt(visits[i].page, row);
      }
      if i :| 0 <= i < |visits| && TiedAt(visits[i].page, row) {
        assert TiedAt(es[i].answer.data, row);
      }
    }
  }
}
