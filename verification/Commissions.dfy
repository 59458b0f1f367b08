/** The tables of the commission component, and its money arithmetic. */
module Commissions {
  import opened Common
  import opened SponsorGraph

  /** Money is counted in whole cents, as the Decimal(12, 2) columns store it. */
  type Cents = int

  datatype Provider = Stripe | CoinGate

  datatype Status = EARNED | PAID | REVERSED

  /** One row of the commission table. A row's id is its position in the table: rows are
      appended and never removed. */
  datatype Commission = Commission(
    agentId: UserId,
    sourceUserId: UserId,
    paymentRef: string,
    provider: Provider,
    level: int,
    baseAmount: Cents,
    rate: real,
    amount: Cents,
    currency: string,
    wasCompressed: bool,
    originalBeneficiaryId: Option<UserId>,
    createdAt: int,
    status: Status,
    reversedAfterPayout: bool,
    carryOverBatchId: Option<nat>,
    payoutBatchId: Option<nat>)

  datatype BatchStatus = OPEN | EXPORTED | SETTLED

  /** One row of the payout batch table; SETTLED is the status the source calls PAID. */
  datatype PayoutBatch = PayoutBatch(periodStart: int, periodEnd: int, totalAmount: Cents, status: BatchStatus)

  datatype Payment = Payment(userId: UserId, paymentRef: string, provider: Provider, amount: Cents, currency: string)

  /** Half-up rounding of an amount in currency units to whole cents. */
  function RoundMoney(value: real): (cents: Cents)
    ensures -0.5 < cents as real - value * 100.0 <= 0.5
  {
    (value * 100.0 + 0.5).Floor
  }

  /** Rounding changes nothing that is already in whole cents, so the running sums of
      the source, rounded after every addition, are plain sums. */
  lemma RoundMoneyKeepsCents(a: Cents, b: Cents)
    ensures RoundMoney(a as real / 100.0 + b as real / 100.0) == a + b
    ensures RoundMoney(a as real / 100.0 - b as real / 100.0) == a - b
  {
    assert (a as real / 100.0 + b as real / 100.0) * 100.0 == (a + b) as real;
    assert (a as real / 100.0 - b as real / 100.0) * 100.0 == (a - b) as real;
  }

  function SumBy(rows: seq<Commission>, weight: Commission -> int): int {
    if rows == [] then 0 else SumBy(rows[..|rows| - 1], weight) + weight(rows[|rows| - 1])
  }

  /** Sums are linear, row by row: this one fact carries every conservation proof. */
  lemma {:induction false} SumByLinear(a: seq<Commission>, f: Commission -> int,
                                       b: seq<Commission>, g: Commission -> int,
                                       c: seq<Commission>, h: Commission -> int)
    requires |a| == |b| == |c|
    requires forall i :: 0 <= i < |a| ==> f(a[i]) == g(b[i]) + h(c[i])
    ensures SumBy(a, f) == SumBy(b, g) + SumBy(c, h)
  {
    if a != [] {
      var n := |a| - 1;
      SumByLinear(a[..n], f, b[..n], g, c[..n], h);
    }
  }

  lemma {:induction false} SumByEqual(a: seq<Commission>, f: Commission -> int, b: seq<Commission>,
                                      g: Commission -> int)
    requires |a| == |b|
    requires forall i :: 0 <= i < |a| ==> f(a[i]) == g(b[i])
    ensures SumBy(a, f) == SumBy(b, g)
  {
    if a != [] {
      var n := |a| - 1;
      SumByEqual(a[..n], f, b[..n], g);
    }
  }

  lemma {:induction false} SumByZero(a: seq<Commission>, f: Commission -> int)
    requires forall i :: 0 <= i < |a| ==> f(a[i]) == 0
    ensures SumBy(a, f) == 0
  {
    if a != [] {
      SumByZero(a[..|a| - 1], f);
    }
  }

  lemma {:induction false} SumByAppend(a: seq<Commission>, b: seq<Commission>, f: Commission -> int)
    ensures SumBy(a + b, f) == SumBy(a, f) + SumBy(b, f)
  {
    if b == [] {
      assert a + b == a;
    } else {
      var n := |b| - 1;
      assert (a + b)[..|a| + n] == a + b[..n];
      SumByAppend(a, b[..n], f);
    }
  }
}
