/** The two request validators: the service's, which stops at the first fault,
    and the API's, which collects every problem. */
module Validation {
  import opened Core
  import opened Balance

  datatype Verdict =
    | Accept
    | KeyRequired
    | EmptyPostings
    | InvalidAmount
    | InvalidDirection
    | Unbalanced

  /** The first fault met when postings are read from the left. */
  function FirstFault(ps: seq<Posting>): Verdict {
    if |ps| == 0 then Accept
    else
      var before := FirstFault(ps[..|ps| - 1]);
      if before != Accept then before
      else if ps[|ps| - 1].amount <= 0 then InvalidAmount
      else if ps[|ps| - 1].direction.Other? then InvalidDirection
      else Accept
  }

  function ServiceVerdict(req: Request): Verdict {
    if req.key == "" then KeyRequired
    else if |req.postings| < 2 then EmptyPostings
    else if FirstFault(req.postings) != Accept then FirstFault(req.postings)
    else if !GoBalanced(req.postings) then Unbalanced
    else Accept
  }

  predicate ServiceAccepts(req: Request) {
    ServiceVerdict(req) == Accept
  }

  /** CreateTransaction's validation prologue. */
  method ValidateForService(req: Request) returns (v: Verdict)
    ensures v == ServiceVerdict(req)
  {
    if req.key == "" {
      return KeyRequired;
    }
    if |req.postings| < 2 {
      return EmptyPostings;
    }
    var debitSum: int64, creditSum: int64 := 0, 0;
    for i := 0 to |req.postings|
      invariant FirstFault(req.postings[..i]) == Accept
      invariant debitSum == Wrap64(Sum(req.postings[..i], Debit))
      invariant creditSum == Wrap64(Sum(req.postings[..i], Credit))
    {
      var p := req.postings[i];
      assert req.postings[..i + 1][..i] == req.postings[..i];
      FaultSticks(req.postings, i + 1);
      if p.amount <= 0 {
        return InvalidAmount;
      }
      match p.direction {
        case Debit =>
          WrapStep(Sum(req.postings[..i], Debit), p.amount);
          debitSum := Wrap64(debitSum + p.amount);
        case Credit =>
          WrapStep(Sum(req.postings[..i], Credit), p.amount);
          creditSum := Wrap64(creditSum + p.amount);
        case Other(_) =>
          return InvalidDirection;
      }
    }
    assert req.postings[..|req.postings|] == req.postings;
    v := if debitSum != creditSum then Unbalanced else Accept;
  }

  lemma {:induction false} FaultSticks(ps: seq<Posting>, n: nat)
    requires n <= |ps|
    ensures FirstFault(ps[..n]) != Accept ==> FirstFault(ps) == FirstFault(ps[..n])
  {
    if n < |ps| {
      FaultSticks(ps[..|ps| - 1], n);
      assert ps[..|ps| - 1][..n] == ps[..n];
    } else {
      assert ps[..n] == ps;
    }
  }

  lemma {:induction false} NoFaultIsWellFormed(ps: seq<Posting>)
    ensures FirstFault(ps) == Accept <==> AllWellFormed(ps)
  {
    if |ps| > 0 {
      NoFaultIsWellFormed(ps[..|ps| - 1]);
    }
  }

  /** What each rejection tells the caller about the posting list. */
  lemma {:induction false} FaultIsTheFirst(ps: seq<Posting>) returns (i: nat)
    requires FirstFault(ps) != Accept
    ensures i < |ps| && AllWellFormed(ps[..i])
    ensures FirstFault(ps) == InvalidAmount ==> ps[i].amount <= 0
    ensures FirstFault(ps) != InvalidAmount ==>
      FirstFault(ps) == InvalidDirection && ps[i].amount > 0 && ps[i].direction.Other?
  {
    var before := ps[..|ps| - 1];
    if FirstFault(before) != Accept {
      i := FaultIsTheFirst(before);
      assert before[..i] == ps[..i];
    } else {
      i := |ps| - 1;
      NoFaultIsWellFormed(before);
    }
  }

  /** The service lets a request through exactly under these conditions. */
  lemma {:induction false} ServiceAcceptsMeaning(req: Request)
    ensures ServiceAccepts(req) <==>
      && req.key != "" && |req.postings| >= 2
      && AllWellFormed(req.postings)
      && (Sum(req.postings, Debit) - Sum(req.postings, Credit)) % TWO_64 == 0
  {
    NoFaultIsWellFormed(req.postings);
    GoBalancedIsCongruence(req.postings);
  }

  /** Posting i is the first one at fault. */
  predicate FirstBad(ps: seq<Posting>, i: int) {
    0 <= i < |ps| && !WellFormed(ps[i]) && forall j :: 0 <= j < i ==> WellFormed(ps[j])
  }

  lemma {:induction false} FirstBadUnique(ps: seq<Posting>, i: int, j: int)
    requires FirstBad(ps, i) && FirstBad(ps, j)
    ensures i == j
  {}

  lemma {:induction false} FaultAt(ps: seq<Posting>, i: int)
    requires FirstBad(ps, i)
    ensures FirstFault(ps) == if ps[i].amount <= 0 then InvalidAmount else InvalidDirection
  {
    NoFaultIsWellFormed(ps);
    assert !WellFormed(ps[i]);
    var k := FaultIsTheFirst(ps);
    assert forall j :: 0 <= j < k ==> ps[..k][j] == ps[j];
    FirstBadUnique(ps, i, k);
  }

  lemma {:induction false} FirstBadExists(ps: seq<Posting>) returns (i: int)
    requires !AllWellFormed(ps)
    ensures FirstBad(ps, i)
  {
    NoFaultIsWellFormed(ps);
    i := FaultIsTheFirst(ps);
    assert forall j :: 0 <= j < i ==> ps[..i][j] == ps[j];
  }

  /** Which answer the service gives: the checks in their order, the posting
      reported being the first at fault, its amount looked at first. */
  lemma {:induction false} VerdictMeaning(req: Request)
    ensures var ps, v := req.postings, ServiceVerdict(req);
      var counted := req.key != "" && |ps| >= 2;
      var differ := (Sum(ps, Debit) - Sum(ps, Credit)) % 0x1_0000_0000_0000_0000;
      && (v == KeyRequired <==> req.key == "")
      && (v == EmptyPostings <==> req.key != "" && |ps| < 2)
      && (v == InvalidAmount <==> counted && exists i :: FirstBad(ps, i) && ps[i].amount <= 0)
      && (v == InvalidDirection <==> counted && exists i :: FirstBad(ps, i) && ps[i].amount > 0)
      && (v == Unbalanced <==> counted && (forall p :: p in ps ==> WellFormed(p)) && differ != 0)
      && (v == Accept <==> counted && (forall p :: p in ps ==> WellFormed(p)) && differ == 0)
  {
    var ps := req.postings;
    NoFaultIsWellFormed(ps);
    GoBalancedIsCongruence(ps);
    if !AllWellFormed(ps) {
      var i := FirstBadExists(ps);
      FaultAt(ps, i);
      assert ps[i] in ps;
      forall j | FirstBad(ps, j) ensures j == i {
        FirstBadUnique(ps, i, j);
      }
    }
  }

  // ---------------------------------------------------------------- API side

  const MAX_DESCRIPTION_LEN: nat := 1000
  const MAX_KEY_LEN: nat := 255
  const MAX_POSTINGS: nat := 100
  const MIN_POSTINGS: nat := 2

  datatype Problem =
    | KeyMissing
    | KeyTooLong
    | DescriptionTooLong
    | TooFewPostings
    | TooManyPostings
    | BadAmount(at: nat)
    | BadAccount(at: nat)
    | BadDirection(at: nat)
    | LegsDiffer

  predicate AboutPosting(x: Problem) {
    x.BadAmount? || x.BadAccount? || x.BadDirection?
  }

  function ProblemsAt(p: Posting, i: nat): seq<Problem> {
    (if p.amount <= 0 then [BadAmount(i)] else [])
    + (if p.account <= 0 then [BadAccount(i)] else [])
    + (if p.direction.Other? then [BadDirection(i)] else [])
  }

  function PostingProblems(ps: seq<Posting>): seq<Problem> {
    if |ps| == 0 then []
    else PostingProblems(ps[..|ps| - 1]) + ProblemsAt(ps[|ps| - 1], |ps| - 1)
  }

  function HeaderProblems(req: Request): seq<Problem> {
    (if |req.key| < 1 then [KeyMissing] else if |req.key| > MAX_KEY_LEN then [KeyTooLong] else [])
    + (if |req.description| > MAX_DESCRIPTION_LEN then [DescriptionTooLong] else [])
    + (if |req.postings| < MIN_POSTINGS then [TooFewPostings]
       else if |req.postings| > MAX_POSTINGS then [TooManyPostings] else [])
  }

  function ApiProblems(req: Request): seq<Problem> {
    HeaderProblems(req)
    + PostingProblems(req.postings)
    + (if |req.postings| >= MIN_POSTINGS && !GoBalanced(req.postings) then [LegsDiffer] else [])
  }

  /** The checks on the key, the description and the number of postings. */
  method ValidateHeader(req: Request) returns (errors: seq<Problem>)
    ensures errors == HeaderProblems(req)
  {
    errors := [];
    if |req.key| < 1 {
      errors := errors + [KeyMissing];
    } else if |req.key| > MAX_KEY_LEN {
      errors := errors + [KeyTooLong];
    }
    if |req.description| > MAX_DESCRIPTION_LEN {
      errors := errors + [DescriptionTooLong];
    }
    if |req.postings| < MIN_POSTINGS {
      errors := errors + [TooFewPostings];
    } else if |req.postings| > MAX_POSTINGS {
      errors := errors + [TooManyPostings];
    }
  }

  /** One turn of the posting loop. */
  method ValidatePosting(p: Posting, i: nat, errors: seq<Problem>, debitSum: int64, creditSum: int64)
    returns (errors': seq<Problem>, debitSum': int64, creditSum': int64)
    ensures errors' == errors + ProblemsAt(p, i)
    ensures debitSum' == Wrap64(debitSum + Amount(p, Debit))
    ensures creditSum' == Wrap64(creditSum + Amount(p, Credit))
  {
    errors', debitSum', creditSum' := errors, debitSum, creditSum;
    if p.amount <= 0 {
      errors' := errors' + [BadAmount(i)];
    }
    if p.account <= 0 {
      errors' := errors' + [BadAccount(i)];
    }
    match p.direction {
      case Debit => debitSum' := Wrap64(debitSum' + p.amount);
      case Credit => creditSum' := Wrap64(creditSum' + p.amount);
      case Other(_) => errors' := errors' + [BadDirection(i)];
    }
  }

  /** What the loop has reached after its first i turns. */
  predicate LoopReached(ps: seq<Posting>, i: nat, errors: seq<Problem>, debitSum: int64, creditSum: int64)
    requires i <= |ps|
  {
    && errors == PostingProblems(ps[..i])
    && debitSum == Wrap64(Sum(ps[..i], Debit))
    && creditSum == Wrap64(Sum(ps[..i], Credit))
  }

  lemma {:induction false} LoopTurn(ps: seq<Posting>, i: nat, errors: seq<Problem>, debitSum: int64, creditSum: int64)
    requires i < |ps| && LoopReached(ps, i, errors, debitSum, creditSum)
    ensures LoopReached(ps, i + 1, errors + ProblemsAt(ps[i], i),
                        Wrap64(debitSum + Amount(ps[i], Debit)), Wrap64(creditSum + Amount(ps[i], Credit)))
  {
    assert ps[..i + 1][..i] == ps[..i];
    assert ps[..i + 1] == ps[..i] + [ps[i]];
    SumSnoc(ps[..i], ps[i], Debit);
    SumSnoc(ps[..i], ps[i], Credit);
    WrapStep(Sum(ps[..i], Debit), Amount(ps[i], Debit));
    WrapStep(Sum(ps[..i], Credit), Amount(ps[i], Credit));
  }

  /** ValidateCreateTransactionRequest: errors are collected, sums wrap. */
  method ValidateForApi(req: Request) returns (errors: seq<Problem>)
    ensures errors == ApiProblems(req)
  {
    var header := ValidateHeader(req);
    errors := [];
    var debitSum: int64, creditSum: int64 := 0, 0;
    for i := 0 to |req.postings|
      invariant LoopReached(req.postings, i, errors, debitSum, creditSum)
    {
      LoopTurn(req.postings, i, errors, debitSum, creditSum);
      errors, debitSum, creditSum := ValidatePosting(req.postings[i], i, errors, debitSum, creditSum);
    }
    assert req.postings[..|req.postings|] == req.postings;
    errors := header + errors;
    if |req.postings| >= MIN_POSTINGS && debitSum != creditSum {
      errors := errors + [LegsDiffer];
    }
  }

  predicate ProblemAt(ps: seq<Posting>, x: Problem, i: nat)
    requires i < |ps|
  {
    x in ProblemsAt(ps[i], i)
  }

  lemma {:induction false} ProblemListed(ps: seq<Posting>, x: Problem, i: nat)
    requires i < |ps| && ProblemAt(ps, x, i)
    ensures x in PostingProblems(ps)
  {
    var n := |ps| - 1;
    if i < n {
      assert ps[..n][i] == ps[i];
      ProblemListed(ps[..n], x, i);
    }
  }

  lemma {:induction false} ListedProblem(ps: seq<Posting>, x: Problem) returns (i: nat)
    requires x in PostingProblems(ps)
    ensures i < |ps| && ProblemAt(ps, x, i)
  {
    i := |ps| - 1;
    if x !in ProblemsAt(ps[i], i) {
      var before := ps[..i];
      i := ListedProblem(before, x);
      assert before[i] == ps[i];
    }
  }

  /** Every posting problem is at a posting that has it, and conversely. */
  lemma {:induction false} PostingProblemsComplete(ps: seq<Posting>, x: Problem)
    ensures x in PostingProblems(ps) <==> exists i :: 0 <= i < |ps| && ProblemAt(ps, x, i)
  {
    if x in PostingProblems(ps) {
      var i := ListedProblem(ps, x);
    }
    if i :| 0 <= i < |ps| && ProblemAt(ps, x, i) {
      ProblemListed(ps, x, i);
    }
  }

  /** Posting i is reported for its amount, its account and its direction, each
      exactly when that is at fault. */
  lemma {:induction false} PostingProblemsAt(ps: seq<Posting>, i: nat)
    ensures BadAmount(i) in PostingProblems(ps) <==> i < |ps| && ps[i].amount <= 0
    ensures BadAccount(i) in PostingProblems(ps) <==> i < |ps| && ps[i].account <= 0
    ensures BadDirection(i) in PostingProblems(ps) <==> i < |ps| && ps[i].direction.Other?
  {
    forall x | x in {BadAmount(i), BadAccount(i), BadDirection(i)}
      ensures x in PostingProblems(ps) <==> i < |ps| && ProblemAt(ps, x, i)
    {
      PostingProblemsComplete(ps, x);
    }
  }

  lemma {:induction false} OnlyPostings(ps: seq<Posting>)
    ensures forall x :: x in PostingProblems(ps) ==> AboutPosting(x) && x.at < |ps|
  {
    forall x | x in PostingProblems(ps)
      ensures AboutPosting(x) && x.at < |ps|
    {
      PostingProblemsComplete(ps, x);
    }
  }

  lemma {:induction false} InReport(req: Request, x: Problem)
    ensures x in ApiProblems(req) <==>
      || x in HeaderProblems(req) || x in PostingProblems(req.postings)
      || (x == LegsDiffer && |req.postings| >= MIN_POSTINGS && !GoBalanced(req.postings))
  {}

  lemma {:induction false} InHeader(req: Request, x: Problem)
    ensures x in HeaderProblems(req) <==>
      || (x == KeyMissing && req.key == "") || (x == KeyTooLong && |req.key| > 255)
      || (x == DescriptionTooLong && |req.description| > 1000)
      || (x == TooFewPostings && |req.postings| < 2) || (x == TooManyPostings && |req.postings| > 100)
  {}

  lemma {:induction false} InReportOfPosting(req: Request, x: Problem)
    requires AboutPosting(x)
    ensures x in ApiProblems(req) <==> x in PostingProblems(req.postings)
  {
    InReport(req, x);
    InHeader(req, x);
  }

  /** Posting i is reported for its amount, its account and its direction, each
      exactly when that is at fault. */
  lemma {:induction false} PostingsReported(req: Request, i: nat)
    ensures BadAmount(i) in ApiProblems(req) <==> i < |req.postings| && req.postings[i].amount <= 0
    ensures BadAccount(i) in ApiProblems(req) <==> i < |req.postings| && req.postings[i].account <= 0
    ensures BadDirection(i) in ApiProblems(req) <==> i < |req.postings| && req.postings[i].direction.Other?
  {
    PostingProblemsAt(req.postings, i);
    InReportOfPosting(req, BadAmount(i));
    InReportOfPosting(req, BadAccount(i));
    InReportOfPosting(req, BadDirection(i));
  }

  lemma {:induction false} InReportOfRequest(req: Request, x: Problem)
    requires !AboutPosting(x)
    ensures x in ApiProblems(req) <==>
      || (x == KeyMissing && req.key == "") || (x == KeyTooLong && |req.key| > 255)
      || (x == DescriptionTooLong && |req.description| > 1000)
      || (x == TooFewPostings && |req.postings| < 2) || (x == TooManyPostings && |req.postings| > 100)
      || (x == LegsDiffer && |req.postings| >= 2 && !GoBalanced(req.postings))
  {
    OnlyPostings(req.postings);
    InReport(req, x);
    InHeader(req, x);
  }

  /** What is reported of the request's key, description and size, and of the
      two sides of its postings. */
  lemma {:induction false} RequestReported(req: Request)
    ensures KeyMissing in ApiProblems(req) <==> req.key == ""
    ensures KeyTooLong in ApiProblems(req) <==> |req.key| > 255
    ensures DescriptionTooLong in ApiProblems(req) <==> |req.description| > 1000
    ensures TooFewPostings in ApiProblems(req) <==> |req.postings| < 2
    ensures TooManyPostings in ApiProblems(req) <==> |req.postings| > 100
    ensures LegsDiffer in ApiProblems(req) <==>
      |req.postings| >= 2 && (Sum(req.postings, Debit) - Sum(req.postings, Credit)) % 0x1_0000_0000_0000_0000 != 0
  {
    InReportOfRequest(req, KeyMissing);
    InReportOfRequest(req, KeyTooLong);
    InReportOfRequest(req, DescriptionTooLong);
    InReportOfRequest(req, TooFewPostings);
    InReportOfRequest(req, TooManyPostings);
    InReportOfRequest(req, LegsDiffer);
    GoBalancedIsCongruence(req.postings);
  }

  /** Where a problem stands in a report about n postings. */
  function Place(x: Problem, n: nat): nat {
    match x
    case KeyMissing | KeyTooLong => 0
    case DescriptionTooLong => 1
    case TooFewPostings | TooManyPostings => 2
    case BadAmount(i) => 3 * i + 3
    case BadAccount(i) => 3 * i + 4
    case BadDirection(i) => 3 * i + 5
    case LegsDiffer => 3 * n + 3
  }

  predicate InOrder(errors: seq<Problem>, n: nat) {
    forall i, j :: 0 <= i < j < |errors| ==> Place(errors[i], n) < Place(errors[j], n)
  }

  lemma {:induction false} OrderedAppend(a: seq<Problem>, b: seq<Problem>, n: nat, middle: nat)
    requires InOrder(a, n) && InOrder(b, n)
    requires forall x :: x in a ==> Place(x, n) < middle
    requires forall x :: x in b ==> Place(x, n) >= middle
    ensures InOrder(a + b, n)
  {
    var c := a + b;
    forall i, j | 0 <= i < j < |c| ensures Place(c[i], n) < Place(c[j], n) {
      assert i < |a| ==> c[i] in a;
      assert j >= |a| ==> c[j] in b;
    }
  }

  lemma {:induction false} PostingsInOrder(ps: seq<Posting>, n: nat)
    requires |ps| <= n
    ensures InOrder(PostingProblems(ps), n)
    ensures forall x :: x in PostingProblems(ps) ==> 3 <= Place(x, n) < 3 * |ps| + 3
  {
    if |ps| > 0 {
      var i := |ps| - 1;
      PostingsInOrder(ps[..i], n);
      OrderedAppend(PostingProblems(ps[..i]), ProblemsAt(ps[i], i), n, 3 * i + 3);
    }
  }

  lemma {:induction false} ReportInOrder(req: Request)
    ensures InOrder(ApiProblems(req), |req.postings|)
  {
    var n := |req.postings|;
    var header, listed := HeaderProblems(req), PostingProblems(req.postings);
    PostingsInOrder(req.postings, n);
    OrderedAppend(header, listed, n, 3);
    assert forall x :: x in header + listed ==> x in header || x in listed;
    OrderedAppend(header + listed, if n >= MIN_POSTINGS && !GoBalanced(req.postings) then [LegsDiffer] else [], n, 3 * n + 3);
  }

  /** x is another problem than y and is reported ahead of it. */
  predicate Precedes(x: Problem, y: Problem) {
    && x != y && x != LegsDiffer
    && (AboutPosting(x) && AboutPosting(y) ==> x.at <= y.at)
    && (AboutPosting(x) && AboutPosting(y) && x.at == y.at ==> x.BadAmount? || y.BadDirection?)
    && (AboutPosting(x) ==> AboutPosting(y) || y == LegsDiffer)
    && (x == TooFewPostings || x == TooManyPostings ==> AboutPosting(y) || y == LegsDiffer)
    && (x == DescriptionTooLong ==> y != KeyMissing && y != KeyTooLong)
  }

  lemma {:induction false} PlaceOrders(x: Problem, y: Problem, n: nat)
    requires Place(x, n) < Place(y, n) && (AboutPosting(y) ==> y.at < n)
    ensures Precedes(x, y)
  {}

  /** No problem is reported twice; the request's own problems come first, then
      those of the postings by index, amount before account before direction,
      and the imbalance last. */
  lemma {:induction false} ProblemsInOrder(req: Request)
    ensures forall i, j :: 0 <= i < j < |ApiProblems(req)| ==> Precedes(ApiProblems(req)[i], ApiProblems(req)[j])
  {
    var n, E := |req.postings|, ApiProblems(req);
    ReportInOrder(req);
    forall i, j | 0 <= i < j < |E| ensures Precedes(E[i], E[j]) {
      if AboutPosting(E[j]) {
        assert E[j] in E;
        InReport(req, E[j]);
        OnlyPostings(req.postings);
      }
      PlaceOrders(E[i], E[j], n);
    }
  }

  lemma {:induction false} OnlyAccountProblems(ps: seq<Posting>)
    ensures (forall x :: x in PostingProblems(ps) ==> x.BadAccount?) <==> AllWellFormed(ps)
  {
    if AllWellFormed(ps) {
      forall x | x in PostingProblems(ps) ensures x.BadAccount? {
        PostingProblemsComplete(ps, x);
      }
    } else {
      var i :| 0 <= i < |ps| && !WellFormed(ps[i]);
      var x := if ps[i].amount <= 0 then BadAmount(i) else BadDirection(i);
      assert ProblemAt(ps, x, i);
      PostingProblemsComplete(ps, x);
    }
  }

  predicate WithinApiLimits(req: Request) {
    && 1 <= |req.key| <= MAX_KEY_LEN
    && |req.description| <= MAX_DESCRIPTION_LEN
    && MIN_POSTINGS <= |req.postings| <= MAX_POSTINGS
  }

  /** A request the API finds no fault with is one the service accepts. */
  lemma {:induction false} ApiCleanImpliesServiceAccepts(req: Request)
    requires ApiProblems(req) == []
    ensures ServiceAccepts(req)
  {
    assert HeaderProblems(req) == [] && PostingProblems(req.postings) == [];
    OnlyAccountProblems(req.postings);
    NoFaultIsWellFormed(req.postings);
  }

  /** Within the API's limits on keys, descriptions and counts, the validators
      differ only about account ids: the service accepts exactly the requests
      whose every remaining API problem is a non-positive account id. */
  lemma {:induction false} ValidatorsDifferOnlyOnAccounts(req: Request)
    requires WithinApiLimits(req)
    ensures ServiceAccepts(req) <==> forall x :: x in ApiProblems(req) ==> x.BadAccount?
    ensures ApiProblems(req) == [] <==>
      ServiceAccepts(req) && forall i :: 0 <= i < |req.postings| ==> req.postings[i].account > 0
  {
    NoFaultIsWellFormed(req.postings);
    OnlyAccountProblems(req.postings);
    assert HeaderProblems(req) == [];
    if !GoBalanced(req.postings) {
      assert LegsDiffer in ApiProblems(req);
    }
    assert forall x :: x in PostingProblems(req.postings) ==> x in ApiProblems(req);
    forall i | 0 <= i < |req.postings| && req.postings[i].account <= 0
      ensures BadAccount(i) in ApiProblems(req)
    {
      assert ProblemAt(req.postings, BadAccount(i), i);
      PostingProblemsComplete(req.postings, BadAccount(i));
    }
    if ServiceAccepts(req) && ApiProblems(req) != [] {
      var x := ApiProblems(req)[0];
      assert x in PostingProblems(req.postings);
      PostingProblemsComplete(req.postings, x);
    }
  }

  lemma {:induction false} WellFormedPermutation(ps: seq<Posting>, qs: seq<Posting>)
    requires multiset(ps) == multiset(qs)
    ensures |ps| == |qs|
    ensures AllWellFormed(ps) ==> AllWellFormed(qs)
    ensures (forall p :: p in ps ==> p.account > 0) ==> (forall p :: p in qs ==> p.account > 0)
  {
    assert |ps| == |multiset(ps)| && |qs| == |multiset(qs)|;
    forall i | 0 <= i < |qs| ensures qs[i] in ps {
      assert qs[i] in multiset(qs);
    }
  }

  lemma {:induction false} ApiCleanMeaning(req: Request)
    ensures ApiProblems(req) == [] <==>
      && WithinApiLimits(req) && ServiceAccepts(req)
      && forall p :: p in req.postings ==> p.account > 0
  {
    if WithinApiLimits(req) {
      ValidatorsDifferOnlyOnAccounts(req);
    } else {
      assert HeaderProblems(req) != [];
    }
  }

  /** Neither validator's acceptance depends on the order of the postings. */
  lemma {:induction false} AcceptanceIgnoresOrder(req: Request, postings: seq<Posting>)
    requires multiset(req.postings) == multiset(postings)
    ensures var req' := req.(postings := postings);
      && (ServiceAccepts(req) <==> ServiceAccepts(req'))
      && (ApiProblems(req) == [] <==> ApiProblems(req') == [])
  {
    var req' := req.(postings := postings);
    WellFormedPermutation(req.postings, postings);
    WellFormedPermutation(postings, req.postings);
    SumPermutation(req.postings, postings, Debit);
    SumPermutation(req.postings, postings, Credit);
    ServiceAcceptsMeaning(req);
    ServiceAcceptsMeaning(req');
    ApiCleanMeaning(req);
    ApiCleanMeaning(req');
  }
}
