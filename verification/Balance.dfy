/** Sums of debits and credits: the wrapping sums of the Go code against the
    exact, range-checked sums of the database trigger. */
module Balance {
  import opened Core

  function Amount(p: Posting, d: Direction): int {
    if p.direction == d then p.amount else 0
  }

  /** Exact sum of one side of a posting list. */
  function Sum(ps: seq<Posting>, d: Direction): int {
    if |ps| == 0 then 0 else Sum(ps[..|ps| - 1], d) + Amount(ps[|ps| - 1], d)
  }

  predicate WellFormed(p: Posting) {
    p.amount > 0 && !p.direction.Other?
  }

  predicate AllWellFormed(ps: seq<Posting>) {
    forall i :: 0 <= i < |ps| ==> WellFormed(ps[i])
  }

  /** debitSum == creditSum as the Go code sees it. */
  predicate GoBalanced(ps: seq<Posting>) {
    Wrap64(Sum(ps, Debit)) == Wrap64(Sum(ps, Credit))
  }

  predicate Balanced(ps: seq<Posting>) {
    Sum(ps, Debit) == Sum(ps, Credit)
  }

  predicate FitsBigint(ps: seq<Posting>) {
    INT64_MIN <= Sum(ps, Debit) <= INT64_MAX && INT64_MIN <= Sum(ps, Credit) <= INT64_MAX
  }

  /** fn_check_transaction_balance: SUM(BIGINT) is computed exactly, storing it
      in a BIGINT variable fails out of range, and the two must be equal. */
  predicate TriggerAccepts(ps: seq<Posting>) {
    FitsBigint(ps) && Balanced(ps)
  }

  lemma {:induction false} WrapStep(a: int, b: int)
    ensures Wrap64(Wrap64(a) + b) == Wrap64(a + b)
  {
    var k := (a - Wrap64(a)) / TWO_64;
    assert a == Wrap64(a) + k * TWO_64;
    WrapShift(Wrap64(a) + b, k);
  }

  lemma {:induction false} WrapShift(x: int, k: int)
    ensures Wrap64(x + k * TWO_64) == Wrap64(x)
  {
    ModShift(x - INT64_MIN, k);
    assert x + k * TWO_64 - INT64_MIN == (x - INT64_MIN) + k * TWO_64;
  }

  lemma {:induction false} ModShift(x: int, k: int)
    ensures (x + k * TWO_64) % TWO_64 == x % TWO_64
    decreases if k < 0 then -k else k
  {
    if k > 0 {
      ModShift(x, k - 1);
      assert x + k * TWO_64 == (x + (k - 1) * TWO_64) + TWO_64;
    } else if k < 0 {
      ModShift(x, k + 1);
      assert x + (k + 1) * TWO_64 == (x + k * TWO_64) + TWO_64;
    }
  }

  /** The Go check is agreement modulo 2^64, no more and no less. */
  lemma {:induction false} GoBalancedIsCongruence(ps: seq<Posting>)
    ensures GoBalanced(ps) <==> (Sum(ps, Debit) - Sum(ps, Credit)) % TWO_64 == 0
  {
    var d, c := Sum(ps, Debit), Sum(ps, Credit);
    if (d - c) % TWO_64 == 0 {
      WrapShift(c, (d - c) / TWO_64);
    }
    if GoBalanced(ps) {
      var kd, kc := (d - Wrap64(d)) / TWO_64, (c - Wrap64(c)) / TWO_64;
      assert d - c == (kd - kc) * TWO_64;
      ModShift(0, kd - kc);
    }
  }

  lemma {:induction false} SumNonNegative(ps: seq<Posting>, d: Direction)
    requires AllWellFormed(ps)
    ensures Sum(ps, d) >= 0
  {
    if |ps| > 0 {
      SumNonNegative(ps[..|ps| - 1], d);
    }
  }

  /** What the trigger adds to the Go check is exactly the range check: for the
      postings that reach it, the trigger accepts iff Go did and both sums fit. */
  lemma {:induction false} TriggerIsGoCheckPlusRange(ps: seq<Posting>)
    requires AllWellFormed(ps)
    ensures TriggerAccepts(ps) <==> GoBalanced(ps) && FitsBigint(ps)
  {
    SumNonNegative(ps, Debit);
    SumNonNegative(ps, Credit);
  }

  lemma {:induction false} SumBounded(ps: seq<Posting>, d: Direction, most: nat)
    requires AllWellFormed(ps)
    requires forall i :: 0 <= i < |ps| ==> ps[i].amount <= most
    ensures 0 <= Sum(ps, d) <= |ps| * most
  {
    if |ps| > 0 {
      SumBounded(ps[..|ps| - 1], d, most);
      assert |ps| * most == (|ps| - 1) * most + most;
    }
  }

  /** Within the API's limit of 100 postings, amounts up to (2^63 - 1)/100 make
      the Go check alone exact. */
  lemma {:induction false} GoCheckExactWhenSmall(ps: seq<Posting>)
    requires AllWellFormed(ps) && |ps| <= 100
    requires forall i :: 0 <= i < |ps| ==> ps[i].amount <= INT64_MAX / 100
    ensures GoBalanced(ps) <==> Balanced(ps)
    ensures FitsBigint(ps)
  {
    var most := INT64_MAX / 100;
    SumBounded(ps, Debit, most);
    SumBounded(ps, Credit, most);
    assert |ps| * most <= 100 * most;
  }

  lemma {:induction false} SumSnoc(ps: seq<Posting>, p: Posting, d: Direction)
    ensures Sum(ps + [p], d) == Sum(ps, d) + Amount(p, d)
  {
    assert (ps + [p])[..|ps|] == ps;
  }

  function Huge(): Posting { Posting(1, INT64_MAX, Debit) }

  /** Debits of 2^64 + 5 against credits of 5. */
  function Fooling(): seq<Posting> {
    ((([Huge()] + [Huge()]) + [Posting(1, 2, Debit)]) + [Posting(1, 5, Debit)]) + [Posting(2, 5, Credit)]
  }

  lemma {:induction false} FoolingSum(d: Direction)
    ensures Sum(Fooling(), d) == (if d == Debit then TWO_64 + 5 else if d == Credit then 5 else 0)
  {
    var two, three := [Huge()] + [Huge()], ([Huge()] + [Huge()]) + [Posting(1, 2, Debit)];
    SumSnoc([], Huge(), d);
    assert [] + [Huge()] == [Huge()];
    SumSnoc([Huge()], Huge(), d);
    SumSnoc(two, Posting(1, 2, Debit), d);
    SumSnoc(three, Posting(1, 5, Debit), d);
    SumSnoc(three + [Posting(1, 5, Debit)], Posting(2, 5, Credit), d);
  }

  /** Beyond that the Go check can be fooled; the trigger is then what rejects. */
  lemma {:induction false} GoCheckCanBeFooled()
    ensures var ps := Fooling();
      AllWellFormed(ps) && GoBalanced(ps) && !Balanced(ps) && !TriggerAccepts(ps)
  {
    FoolingSum(Debit);
    FoolingSum(Credit);
    GoBalancedIsCongruence(Fooling());
  }

  lemma {:induction false} SumAppend(ps: seq<Posting>, qs: seq<Posting>, d: Direction)
    ensures Sum(ps + qs, d) == Sum(ps, d) + Sum(qs, d)
  {
    if |qs| == 0 {
      assert ps + qs == ps;
    } else {
      SumAppend(ps, qs[..|qs| - 1], d);
      assert (ps + qs)[..|ps + qs| - 1] == ps + qs[..|qs| - 1];
    }
  }

  function Without<T>(s: seq<T>, i: nat): seq<T>
    requires i < |s|
  {
    s[..i] + s[i + 1..]
  }

  lemma {:induction false} WithoutBag<T>(s: seq<T>, i: nat)
    requires i < |s|
    ensures multiset(s) == multiset(Without(s, i)) + multiset{s[i]}
  {
    assert s == s[..i] + [s[i]] + s[i + 1..];
  }

  lemma {:induction false} WithoutSum(ps: seq<Posting>, i: nat, d: Direction)
    requires i < |ps|
    ensures Sum(ps, d) == Sum(Without(ps, i), d) + Amount(ps[i], d)
  {
    assert ps == (ps[..i] + [ps[i]]) + ps[i + 1..];
    SumAppend(ps[..i], ps[i + 1..], d);
    SumAppend(ps[..i] + [ps[i]], ps[i + 1..], d);
    SumSnoc(ps[..i], ps[i], d);
  }

  /** Neither side depends on the order of the postings. */
  lemma {:induction false} SumPermutation(ps: seq<Posting>, qs: seq<Posting>, d: Direction)
    requires multiset(ps) == multiset(qs)
    ensures Sum(ps, d) == Sum(qs, d)
    decreases |ps|
  {
    if |ps| == 0 {
      assert |multiset(qs)| == 0;
    } else {
      assert ps[0] in multiset(qs);
      var i :| 0 <= i < |qs| && qs[i] == ps[0];
      WithoutBag(ps, 0);
      WithoutBag(qs, i);
      assert multiset(Without(ps, 0)) == multiset(ps) - multiset{ps[0]};
      assert multiset(Without(qs, i)) == multiset(qs) - multiset{ps[0]};
      SumPermutation(Without(ps, 0), Without(qs, i), d);
      WithoutSum(ps, 0, d);
      WithoutSum(qs, i, d);
    }
  }
}
