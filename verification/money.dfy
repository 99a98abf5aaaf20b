/** Money totals. The profile handler sums a user's monetary donations with a
    `reduce` that adds an amount only when its `paymentStatus` is
    `"completed"`; the public total and the admin dashboard ask the database
    for the same number with a `$match` on that status followed by a `$group`
    that `$sum`s the amounts, falling back to 0 when the group is empty. */
module Money {
  import opened Records

  const Completed := "completed"

  predicate IsCompleted(m: MoneyDonation) {
    m.paymentStatus == Completed
  }

  /** The `reduce` with initial value 0, taken from left to right. */
  function TotalMoneyDonated(ms: seq<MoneyDonation>): int {
    if ms == [] then 0
    else
      var sum, m := TotalMoneyDonated(ms[..|ms| - 1]), ms[|ms| - 1];
      if IsCompleted(m) then sum + m.amount else sum
  }

  /** `$match: { paymentStatus: 'completed' }`: the completed records, in order. */
  function MatchCompleted(ms: seq<MoneyDonation>): (r: seq<MoneyDonation>)
    ensures |r| <= |ms|
    ensures forall i :: 0 <= i < |r| ==> IsCompleted(r[i])
  {
    if ms == [] then []
    else (if IsCompleted(ms[0]) then [ms[0]] else []) + MatchCompleted(ms[1..])
  }

  /** The `$match` keeps every completed record as often as it occurs, and
      nothing else. */
  lemma {:induction false} MatchCompletedCounts(ms: seq<MoneyDonation>)
    ensures forall m :: multiset(MatchCompleted(ms))[m] == if IsCompleted(m) then multiset(ms)[m] else 0
  {
    if ms != [] {
      assert ms == [ms[0]] + ms[1..];
      MatchCompletedCounts(ms[1..]);
    }
  }

  /** `$sum: '$amount'` over a sequence of records. */
  function SumAmounts(ms: seq<MoneyDonation>): int {
    if ms == [] then 0 else ms[0].amount + SumAmounts(ms[1..])
  }

  /** `$group: { _id: null, ... }`: one result document when anything matched,
      none otherwise. */
  function GroupTotal(ms: seq<MoneyDonation>): seq<int> {
    if ms == [] then [] else [SumAmounts(ms)]
  }

  /** `result.length > 0 ? result[0].total : 0` over the aggregation pipeline. */
  function PipelineTotal(ms: seq<MoneyDonation>): int {
    var result := GroupTotal(MatchCompleted(ms));
    if |result| > 0 then result[0] else 0
  }

  /** Appending a record adds its amount when it is completed and nothing otherwise. */
  lemma TotalAfterAppend(ms: seq<MoneyDonation>, m: MoneyDonation)
    ensures TotalMoneyDonated(ms + [m]) == TotalMoneyDonated(ms) + if IsCompleted(m) then m.amount else 0
  {
    assert (ms + [m])[..|ms|] == ms;
  }

  /** The total of a concatenation is the sum of the totals. */
  lemma {:induction false} TotalOfConcat(a: seq<MoneyDonation>, b: seq<MoneyDonation>)
    ensures TotalMoneyDonated(a + b) == TotalMoneyDonated(a) + TotalMoneyDonated(b)
  {
    if b == [] {
      assert a + b == a;
    } else {
      var b', m := b[..|b| - 1], b[|b| - 1];
      assert a + b == (a + b') + [m];
      assert b == b' + [m];
      TotalOfConcat(a, b');
      TotalAfterAppend(a + b', m);
      TotalAfterAppend(b', m);
    }
  }

  /** With no completed record, nothing has been raised. */
  lemma {:induction false} NoCompletedTotalsZero(ms: seq<MoneyDonation>)
    requires forall i :: 0 <= i < |ms| ==> !IsCompleted(ms[i])
    ensures TotalMoneyDonated(ms) == 0
  {
    if ms != [] {
      NoCompletedTotalsZero(ms[..|ms| - 1]);
    }
  }

  lemma {:induction false} SumAmountsOfConcat(a: seq<MoneyDonation>, b: seq<MoneyDonation>)
    ensures SumAmounts(a + b) == SumAmounts(a) + SumAmounts(b)
  {
    if a == [] {
      assert a + b == b;
    } else {
      assert (a + b)[1..] == a[1..] + b;
      assert (a + b)[0] == a[0];
      SumAmountsOfConcat(a[1..], b);
    }
  }

  /** The `reduce` adds up exactly the amounts of the completed records. */
  lemma {:induction false} TotalIsSumOfCompleted(ms: seq<MoneyDonation>)
    ensures TotalMoneyDonated(ms) == SumAmounts(MatchCompleted(ms))
  {
    if ms != [] {
      var rest := ms[1..];
      assert ms == [ms[0]] + rest;
      TotalOfConcat([ms[0]], rest);
      TotalAfterAppend([], ms[0]);
      assert [] + [ms[0]] == [ms[0]];
      TotalIsSumOfCompleted(rest);
      SumAmountsOfConcat(if IsCompleted(ms[0]) then [ms[0]] else [], MatchCompleted(rest));
    }
  }

  /** The profile's `reduce` and the aggregation pipeline used by the public
      total and the admin dashboard compute the same number. */
  lemma ReduceAgreesWithPipeline(ms: seq<MoneyDonation>)
    ensures TotalMoneyDonated(ms) == PipelineTotal(ms)
  {
    TotalIsSumOfCompleted(ms);
  }

  /** Records that are not completed do not affect the total. */
  lemma TotalIgnoresUncompleted(ms: seq<MoneyDonation>)
    ensures TotalMoneyDonated(ms) == TotalMoneyDonated(MatchCompleted(ms))
  {
    TotalIsSumOfCompleted(ms);
    TotalIsSumOfCompleted(MatchCompleted(ms));
    MatchCompletedIdempotent(ms);
  }

  lemma {:induction false} MatchCompletedIdempotent(ms: seq<MoneyDonation>)
    ensures MatchCompleted(MatchCompleted(ms)) == MatchCompleted(ms)
  {
    if ms != [] {
      var head := if IsCompleted(ms[0]) then [ms[0]] else [];
      MatchCompletedIdempotent(ms[1..]);
      MatchCompletedOfConcat(head, MatchCompleted(ms[1..]));
    }
  }

  lemma {:induction false} MatchCompletedOfConcat(a: seq<MoneyDonation>, b: seq<MoneyDonation>)
    ensures MatchCompleted(a + b) == MatchCompleted(a) + MatchCompleted(b)
  {
    if a == [] {
      assert a + b == b;
    } else {
      var head := if IsCompleted(a[0]) then [a[0]] else [];
      assert (a + b)[1..] == a[1..] + b;
      assert (a + b)[0] == a[0];
      MatchCompletedOfConcat(a[1..], b);
      calc {
        MatchCompleted(a + b);
        head + MatchCompleted(a[1..] + b);
        head + (MatchCompleted(a[1..]) + MatchCompleted(b));
        (head + MatchCompleted(a[1..])) + MatchCompleted(b);
      }
    }
  }
}
