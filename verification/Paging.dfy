/** Keyset pagination over tables that only grow. */
module Paging {
  import opened Core

  const DEFAULT_PAGE_SIZE: nat := 20
  const MAX_PAGE_SIZE: nat := 100

  function Last<T>(s: seq<T>): T
    requires |s| > 0
  {
    s[|s| - 1]
  }

  /** Rows are never deleted and never change. */
  ghost predicate Grows<K, V>(a: map<K, V>, b: map<K, V>) {
    forall k :: k in a ==> k in b && b[k] == a[k]
  }

  // ---------------------------------------------------------------- accounts

  predicate Matches(table: map<int, Account>, tenant: Uuid, cursor: int, id: int) {
    id in table && table[id].tenant == tenant && id > cursor
  }

  /** WHERE tenant_id = t AND id > cursor ORDER BY id ASC LIMIT n. */
  ghost predicate IsAccountPage(table: map<int, Account>, tenant: Uuid, cursor: int, limit: nat, page: seq<int>) {
    && |page| <= limit
    && (forall i :: 0 <= i < |page| ==> Matches(table, tenant, cursor, page[i]))
    && Ascending(page)
    && (forall id :: Matches(table, tenant, cursor, id) && id !in page ==>
          |page| == limit && forall i :: 0 <= i < |page| ==> page[i] < id)
  }

  predicate Ascending(page: seq<int>) {
    forall i, j :: 0 <= i < j < |page| ==> page[i] < page[j]
  }

  /** The query pins its answer down. */
  lemma {:induction false} AccountPageUnique(table: map<int, Account>, tenant: Uuid, cursor: int, limit: nat, p: seq<int>, q: seq<int>)
    requires IsAccountPage(table, tenant, cursor, limit, p)
    requires IsAccountPage(table, tenant, cursor, limit, q)
    ensures p == q
    decreases |p|
  {
    assert |q| > 0 ==> q[0] in p || |p| == limit;
    assert |p| > 0 ==> p[0] in q || |q| == limit;
    if |p| > 0 && |q| > 0 {
      FirstIsLeast(table, tenant, cursor, limit, p, q);
      FirstIsLeast(table, tenant, cursor, limit, q, p);
      TailIsPage(table, tenant, cursor, limit, p);
      TailIsPage(table, tenant, cursor, limit, q);
      AccountPageUnique(table, tenant, p[0], limit - 1, p[1..], q[1..]);
      assert p == [p[0]] + p[1..] && q == [q[0]] + q[1..];
    }
  }

  lemma {:induction false} FirstIsLeast(table: map<int, Account>, tenant: Uuid, cursor: int, limit: nat, p: seq<int>, q: seq<int>)
    requires IsAccountPage(table, tenant, cursor, limit, p) && |p| > 0
    requires IsAccountPage(table, tenant, cursor, limit, q) && |q| > 0
    ensures p[0] <= q[0]
  {
    if q[0] in p {
      var i :| 0 <= i < |p| && p[i] == q[0];
    } else {
      assert Matches(table, tenant, cursor, q[0]);
      assert p[0] < q[0];
    }
  }

  lemma {:induction false} TailIsPage(table: map<int, Account>, tenant: Uuid, cursor: int, limit: nat, p: seq<int>)
    requires IsAccountPage(table, tenant, cursor, limit, p) && |p| > 0
    ensures IsAccountPage(table, tenant, p[0], limit - 1, p[1..])
  {
    assert p == [p[0]] + p[1..];
    forall id | Matches(table, tenant, p[0], id) && id !in p[1..]
      ensures |p[1..]| == limit - 1 && forall i :: 0 <= i < |p[1..]| ==> p[1..][i] < id
    {
      assert Matches(table, tenant, cursor, id) && id !in p;
    }
  }

  datatype Listing<T> = BadRequest | Listed(data: seq<T>, nextCursor: int, pageSize: nat)

  /** A row the scan has behind it: on the page, not wanted, or past a full page. */
  predicate PassedOver(table: map<int, Account>, tenant: Uuid, cursor: int, limit: nat, items: seq<int>, id: int) {
    Matches(table, tenant, cursor, id) && id !in items ==>
      |items| == limit && forall j :: 0 <= j < |items| ==> items[j] < id
  }

  /** The list query, reading the primary-key index in order. */
  method QueryAccounts(table: map<int, Account>, index: seq<int>, tenant: Uuid, cursor: int, limit: nat)
    returns (items: seq<int>)
    requires Ascending(index) && forall id :: id in index <==> id in table
    ensures IsAccountPage(table, tenant, cursor, limit, items)
  {
    items := [];
    for i := 0 to |index|
      invariant |items| <= limit
      invariant forall k :: 0 <= k < |items| ==> Matches(table, tenant, cursor, items[k])
      invariant forall k, j :: 0 <= k < |items| && i <= j < |index| ==> items[k] < index[j]
      invariant Ascending(items)
      invariant forall k :: 0 <= k < i ==> PassedOver(table, tenant, cursor, limit, items, index[k])
    {
      if |items| < limit && index[i] in table && table[index[i]].tenant == tenant && index[i] > cursor {
        items := items + [index[i]];
      }
    }
    forall id | Matches(table, tenant, cursor, id) && id !in items
      ensures |items| == limit && forall j :: 0 <= j < |items| ==> items[j] < id
    {
      var k :| 0 <= k < |index| && index[k] == id;
      assert PassedOver(table, tenant, cursor, limit, items, index[k]);
    }
  }

  /** What a list request is answered with. */
  ghost predicate AnswersList(table: map<int, Account>, tenant: Uuid, cursor: int, requested: int, r: Listing<int>) {
    && (r.BadRequest? <==> requested > 100)
    && (r.Listed? ==> r.pageSize == if requested <= 0 then 20 else requested)
    && (r.Listed? ==> IsAccountPage(table, tenant, cursor, r.pageSize, r.data))
    && (r.Listed? ==> r.nextCursor == if r.data == [] then 0 else Last(r.data))
  }

  /** GET /v1/accounts, handler and service together. */
  method ListAccounts(table: map<int, Account>, index: seq<int>, tenant: Uuid, cursor: int, requested: int)
    returns (r: Listing<int>)
    requires Ascending(index) && forall id :: id in index <==> id in table
    ensures AnswersList(table, tenant, cursor, requested, r)
  {
    var pageSize := requested;
    if pageSize <= 0 {
      pageSize := DEFAULT_PAGE_SIZE;
    }
    if pageSize > MAX_PAGE_SIZE {
      return BadRequest;
    }
    var accounts := QueryAccounts(table, index, tenant, cursor, pageSize);
    var nextCursor := 0;
    if |accounts| > 0 {
      nextCursor := Last(accounts);
    }
    r := Listed(accounts, nextCursor, pageSize);
  }

  /** One request of a walk: the table it found and the page it got. */
  datatype Visit = Visit(table: map<int, Account>, page: seq<int>)

  /** next_cursor is followed from page to page; an empty page ends the walk. */
  ghost predicate IsWalk(visits: seq<Visit>, tenant: Uuid, cursor: int, limit: nat)
    decreases |visits|
  {
    && |visits| > 0
    && IsAccountPage(visits[0].table, tenant, cursor, limit, visits[0].page)
    && (if visits[0].page == [] then |visits| == 1
        else IsWalk(visits[1..], tenant, Last(visits[0].page), limit))
  }

  ghost predicate TablesGrow(visits: seq<Visit>) {
    forall i, j :: 0 <= i < j < |visits| ==> Grows(visits[i].table, visits[j].table)
  }

  function Collected(visits: seq<Visit>): seq<int> {
    if |visits| == 0 then [] else visits[0].page + Collected(visits[1..])
  }

  /** The walk lists ids in order, each once, and misses no account that was
      there at the start, however many are inserted while it runs. */
  lemma {:induction false} AccountWalk(visits: seq<Visit>, tenant: Uuid, cursor: int, limit: nat)
    requires limit >= 1 && IsWalk(visits, tenant, cursor, limit) && TablesGrow(visits)
    ensures Ascending(Collected(visits))
    ensures forall id :: id in Collected(visits) ==> id > cursor
    ensures forall id :: Matches(visits[0].table, tenant, cursor, id) ==> id in Collected(visits)
    ensures forall id :: id in Collected(visits) ==> Matches(Last(visits).table, tenant, cursor, id)
    decreases |visits|
  {
    var page := visits[0].page;
    if page != [] {
      var rest := visits[1..];
      AccountWalk(rest, tenant, Last(page), limit);
      assert Last(rest) == Last(visits);
      assert Grows(visits[0].table, rest[0].table);
      assert |rest| > 1 ==> Grows(visits[0].table, visits[|visits| - 1].table);
      PageThenRest(page, Collected(rest));
    } else {
      assert Collected(visits) == [];
    }
  }

  lemma {:induction false} PageThenRest(page: seq<int>, rest: seq<int>)
    requires |page| > 0 && Ascending(page) && Ascending(rest)
    requires forall id :: id in rest ==> id > Last(page)
    ensures Ascending(page + rest)
  {
    var all := page + rest;
    forall i, j | 0 <= i < j < |all| ensures all[i] < all[j] {
      if i < |page| <= j {
        assert page[i] <= Last(page) && rest[j - |page|] in rest;
      }
    }
  }

  ghost function Above(table: map<int, Account>, tenant: Uuid, cursor: int): set<int> {
    set id | id in table && Matches(table, tenant, cursor, id)
  }

  function Requests(n: nat, limit: nat): nat
    requires limit >= 1
  {
    if n == 0 then 1 else (n - 1) / limit + 2
  }

  /** Once inserts stop, the walk takes exactly this many requests. */
  lemma {:induction false} WalkEnds(visits: seq<Visit>, table: map<int, Account>, tenant: Uuid, cursor: int, limit: nat)
    requires limit >= 1 && IsWalk(visits, tenant, cursor, limit)
    requires forall i :: 0 <= i < |visits| ==> visits[i].table == table
    ensures |visits| == Requests(|Above(table, tenant, cursor)|, limit)
    decreases |visits|
  {
    var page := visits[0].page;
    if page != [] {
      WalkEnds(visits[1..], table, tenant, Last(page), limit);
      PageConsumes(table, tenant, cursor, limit, page);
      var n, n' := |Above(table, tenant, cursor)|, |Above(table, tenant, Last(page))|;
      RequestsStep(n, n', |page|, limit);
    } else {
      assert Above(table, tenant, cursor) == {};
    }
  }

  lemma {:induction false} RequestsStep(n: nat, n': nat, taken: nat, limit: nat)
    requires limit >= 1 && 1 <= taken <= limit && n == n' + taken && (taken == limit || n' == 0)
    ensures Requests(n, limit) == Requests(n', limit) + 1
  {
    if n' == 0 {
      assert (n - 1) / limit == 0;
    } else {
      AddDivisor(n' - 1, limit);
    }
  }

  lemma {:induction false} AddDivisor(a: nat, d: nat)
    requires d >= 1
    ensures (a + d) / d == a / d + 1
  {
    var q, r := a / d, a % d;
    assert a + d == (q + 1) * d + r;
    QuotientUnique(a + d, d, q + 1, r);
  }

  lemma {:induction false} QuotientUnique(a: nat, d: nat, q: nat, r: nat)
    requires d >= 1 && r < d && a == q * d + r
    ensures a / d == q
  {
    var p := a / d;
    assert p * d <= a < p * d + d;
    if p < q {
      Product(p + 1, q, d);
    } else if p > q {
      Product(q + 1, p, d);
    }
  }

  lemma {:induction false} Product(p: nat, q: nat, d: nat)
    requires p <= q
    ensures p * d <= q * d
  {}

  lemma {:induction false} PageConsumes(table: map<int, Account>, tenant: Uuid, cursor: int, limit: nat, page: seq<int>)
    requires IsAccountPage(table, tenant, cursor, limit, page) && |page| > 0
    ensures |Above(table, tenant, cursor)| == |Above(table, tenant, Last(page))| + |page|
    ensures |page| == limit || |Above(table, tenant, Last(page))| == 0
  {
    var before, after := Above(table, tenant, cursor), Above(table, tenant, Last(page));
    AscendingCount(page);
    SplitAtPage(table, tenant, cursor, limit, page);
    var taken := set i | 0 <= i < |page| :: page[i];
    assert |taken + after| == |taken| + |after|;
  }

  lemma {:induction false} SplitAtPage(table: map<int, Account>, tenant: Uuid, cursor: int, limit: nat, page: seq<int>)
    requires IsAccountPage(table, tenant, cursor, limit, page) && |page| > 0
    ensures var taken := set i | 0 <= i < |page| :: page[i];
      var after := Above(table, tenant, Last(page));
      taken !! after && Above(table, tenant, cursor) == taken + after && (|page| < limit ==> after == {})
  {
    var taken := set i | 0 <= i < |page| :: page[i];
    var after := Above(table, tenant, Last(page));
    forall id | id in after ensures id !in page && Matches(table, tenant, cursor, id) && |page| == limit {
      assert forall i :: 0 <= i < |page| ==> page[i] <= Last(page);
    }
    forall id | id in Above(table, tenant, cursor) && id !in page ensures id in after {}
    forall id ensures id in taken <==> id in page {}
  }

  lemma {:induction false} AscendingCount(page: seq<int>)
    requires Ascending(page)
    ensures |set i | 0 <= i < |page| :: page[i]| == |page|
  {
    if |page| > 0 {
      var n := |page| - 1;
      AscendingCount(page[..n]);
      assert (set i | 0 <= i < |page| :: page[i]) == (set i | 0 <= i < |page[..n]| :: page[..n][i]) + {page[n]};
    }
  }

  // ------------------------------------------------- following next_cursor

  /** One list request: the table it found, its cursor, the answer. */
  datatype Exchange = Exchange(table: map<int, Account>, cursor: int, answer: Listing<int>)

  predicate Continues(before: Exchange, after: Exchange) {
    before.answer.Listed? && before.answer.data != [] && after.cursor == before.answer.nextCursor
  }

  ghost predicate Answered(e: Exchange, tenant: Uuid, requested: int) {
    e.answer.Listed? && AnswersList(e.table, tenant, e.cursor, requested, e.answer)
  }

  /** A client pages through the list: each request after the first names the
      previous answer's next_cursor, and the client stops at an empty page. */
  ghost predicate Followed(es: seq<Exchange>, tenant: Uuid, requested: int) {
    && |es| > 0
    && (forall i :: 0 <= i < |es| ==> Answered(es[i], tenant, requested))
    && (forall i :: 0 < i < |es| ==> Continues(es[i - 1], es[i]))
    && Last(es).answer.data == []
    && (forall i, j :: 0 <= i < j < |es| ==> Grows(es[i].table, es[j].table))
  }

  function Ids(es: seq<Exchange>): seq<int>
    requires forall e :: e in es ==> e.answer.Listed?
  {
    if |es| == 0 then [] else es[0].answer.data + Ids(es[1..])
  }

  function Visits(es: seq<Exchange>): (visits: seq<Visit>)
    requires forall e :: e in es ==> e.answer.Listed?
  {
    if |es| == 0 then [] else [Visit(es[0].table, es[0].answer.data)] + Visits(es[1..])
  }

  lemma {:induction false} VisitsMirror(es: seq<Exchange>)
    requires forall e :: e in es ==> e.answer.Listed?
    ensures |Visits(es)| == |es| && Collected(Visits(es)) == Ids(es)
    ensures forall i :: 0 <= i < |es| ==> Visits(es)[i] == Visit(es[i].table, es[i].answer.data)
  {
    if |es| > 0 {
      VisitsMirror(es[1..]);
      assert Visits(es)[1..] == Visits(es[1..]);
    }
  }

  lemma {:induction false} RestFollowed(es: seq<Exchange>, tenant: Uuid, requested: int)
    requires Followed(es, tenant, requested) && |es| > 1
    ensures Followed(es[1..], tenant, requested)
  {
    var rest := es[1..];
    assert forall i :: 0 < i < |rest| ==> rest[i] == es[i + 1] && rest[i - 1] == es[i];
  }

  lemma {:induction false} FollowedIsWalk(es: seq<Exchange>, tenant: Uuid, requested: int)
    requires Followed(es, tenant, requested)
    ensures IsWalk(Visits(es), tenant, es[0].cursor, es[0].answer.pageSize)
    decreases |es|
  {
    assert Answered(es[0], tenant, requested);
    if |es| > 1 {
      assert Continues(es[0], es[1]) && Answered(es[1], tenant, requested);
      RestFollowed(es, tenant, requested);
      FollowedIsWalk(es[1..], tenant, requested);
      assert Visits(es)[1..] == Visits(es[1..]);
    }
  }

  /** The ids a client gets by following next_cursor ascend, hold every account
      that was there for the first request, and name only accounts that exist. */
  lemma {:induction false} EndpointWalk(es: seq<Exchange>, tenant: Uuid, requested: int)
    requires Followed(es, tenant, requested)
    ensures Ascending(Ids(es))
    ensures forall id :: Matches(es[0].table, tenant, es[0].cursor, id) ==> id in Ids(es)
    ensures forall id :: id in Ids(es) ==> Matches(Last(es).table, tenant, es[0].cursor, id)
  {
    VisitsMirror(es);
    FollowedIsWalk(es, tenant, requested);
    assert Answered(es[0], tenant, requested);
    AccountWalk(Visits(es), tenant, es[0].cursor, es[0].answer.pageSize);
  }
}
