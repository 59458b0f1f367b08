/** Two histories in which money is asked back. A new batch has a negative line when a
    carry-over in one currency is settled against earnings in another, and a paid batch has
    a negative total when those earnings are refunded before it is paid. */
module NegativeTotals {
  import opened Common
  import opened Commissions
  import opened CarryOver
  import opened Ledger
  import opened LedgerInvariant
  import opened LedgerTheorems
  import opened PayoutCsv

  /** One agent, two payments of x cents that each earn the agent x cents. */
  function Earning(paymentRef: string, x: int, currency: string): Commission {
    Commission("agent", "client", paymentRef, CoinGate, 1, x, 100.0, x, currency, false, None, 0, EARNED, false, None,
               None)
  }

  /** The first row while it is attached, paid, refunded, and recovered. */
  function First(x: int): Commission { Earning("first", x, "EUR").(payoutBatchId := Some(0)) }

  function Paid(x: int): Commission { First(x).(status := PAID) }

  function Refunded(x: int): Commission { Paid(x).(status := REVERSED, reversedAfterPayout := true) }

  function Recovered(x: int): Commission { Refunded(x).(carryOverBatchId := Some(1)) }

  /** The second row while it is attached, refunded, and detached. */
  function Second(x: int, c: string): Commission { Earning("second", x, c).(payoutBatchId := Some(1)) }

  function Gone(x: int, c: string): Commission { Second(x, c).(status := REVERSED) }

  function Detached(x: int, c: string): Commission { Gone(x, c).(payoutBatchId := None) }

  function Batch(total: int, status: BatchStatus): PayoutBatch { PayoutBatch(0, 0, total, status) }

  lemma SumOfOne(r: Commission, w: Commission -> int)
    ensures SumBy([r], w) == w(r)
  {
    assert [r][..0] == [];
  }

  lemma SumPair(r: Commission, s: Commission, w: Commission -> int)
    ensures SumBy([r, s], w) == w(r) + w(s)
  {
    assert [r, s][..1] == [r];
    SumOfOne(r, w);
  }

  lemma AccrueOne(t: Tables, r: Commission)
    requires !HasKey(t.rows, r) && NewRow(r)
    ensures Step(t, Accrue([r])) == t.(rows := t.rows + [r])
  {
    assert [r][..0] == [];
  }

  lemma FirstBatch(x: int)
    requires x >= 0
    ensures Step(Tables([Earning("first", x, "EUR")], []), CreateBatch(0, 0, {0}, []))
            == Tables([First(x)], [Batch(x, OPEN)])
  {
    var rows := [First(x)];
    assert AttachRows([Earning("first", x, "EUR")], {0}, 0) == rows;
    assert First(x) in rows;
    assert "agent" in AgentsIn(rows, 0);
    SumOfOne(First(x), AttachedTo(0));
    assert SettleRows(rows, [], 0) == rows;
  }

  lemma PayFirst(x: int)
    ensures Step(Tables([First(x)], [Batch(x, OPEN)]), MarkPaid(0)) == Tables([Paid(x)], [Batch(x, SETTLED)])
  {
    assert PayRows([First(x)], 0) == [Paid(x)];
    SumOfOne(Paid(x), PaidIn(0));
    SumOfOne(Paid(x), DeductedIn(0));
  }

  /** The agent's purse covers the reversal exactly. */
  lemma GreedyTakesFirst(x: int, c: string)
    requires x >= 0
    ensures var rows := [Refunded(x), Second(x, c)];
            SettledIds(rows, 1, [0]) == [0] && SumIds(rows, [0]) == x && AgentsIn(rows, 1) == {"agent"}
  {
    var rows := [Refunded(x), Second(x, c)];
    assert rows[1] in rows;
    SumPair(Refunded(x), Second(x, c), AttachedOf(1, "agent"));
    assert InPurse(Earned(rows, 1), "agent") == x;
    assert [0][1..] == [];
    var left := Earned(rows, 1)["agent" := 0];
    assert Greedy(rows, [], left) == [];
    assert SumIds(rows, []) == 0;
  }

  /** The call can be made: the reversal is the one unsettled row of the batch's agent. */
  lemma SecondBatchEnabled(x: int, c: string)
    requires x >= 0
    ensures Enabled(Tables([Refunded(x), Earning("second", x, c)], [Batch(x, SETTLED)]), CreateBatch(0, 0, {1}, [0]))
  {
    assert AttachRows([Refunded(x), Earning("second", x, c)], {1}, 1) == [Refunded(x), Second(x, c)];
    GreedyTakesFirst(x, c);
  }

  lemma SecondBatch(x: int, c: string)
    requires x >= 0
    ensures Step(Tables([Refunded(x), Earning("second", x, c)], [Batch(x, SETTLED)]), CreateBatch(0, 0, {1}, [0]))
            == Tables([Recovered(x), Second(x, c)], [Batch(x, SETTLED), Batch(0, OPEN)])
  {
    var rows, t := [Refunded(x), Second(x, c)], Tables([Refunded(x), Earning("second", x, c)], [Batch(x, SETTLED)]);
    SecondBatchEnabled(x, c);
    assert AttachRows(t.rows, {1}, 1) == rows;
    GreedyTakesFirst(x, c);
    SumPair(Refunded(x), Second(x, c), AttachedTo(1));
    assert NewTotal(rows, 1, [0]) == 0;
    assert SettleRows(rows, [0], 1) == [Recovered(x), Second(x, c)];
    assert CreateTables(t, CreateBatch(0, 0, {1}, [0]))
           == Tables([Recovered(x), Second(x, c)], t.batches + [Batch(0, OPEN)]);
  }

  lemma RefundSecond(x: int, c: string)
    ensures Step(Tables([Recovered(x), Second(x, c)], [Batch(x, SETTLED), Batch(0, OPEN)]), Refund("second"))
            == Tables([Recovered(x), Gone(x, c)], [Batch(x, SETTLED), Batch(0, OPEN)])
  {
    assert RefundRows([Recovered(x), Second(x, c)], "second") == [Recovered(x), Gone(x, c)];
  }

  lemma PaySecond(x: int, c: string)
    ensures Step(Tables([Recovered(x), Gone(x, c)], [Batch(x, SETTLED), Batch(0, OPEN)]), MarkPaid(1))
            == Tables([Recovered(x), Detached(x, c)], [Batch(x, SETTLED), Batch(0 - x, SETTLED)])
  {
    assert PayRows([Recovered(x), Gone(x, c)], 1) == [Recovered(x), Detached(x, c)];
    SumPair(Recovered(x), Detached(x, c), PaidIn(1));
    SumPair(Recovered(x), Detached(x, c), DeductedIn(1));
  }

  /** One call more at the end of a history that has led to `t`. */
  lemma OneMore(actions: seq<Action>, t: Tables, a: Action)
    requires Run(EMPTY, actions) == t
    ensures Run(EMPTY, actions + [a]) == Step(t, a)
  {
    RunAppend(EMPTY, actions, [a]);
    assert [a][1..] == [];
    assert Run(Step(t, a), []) == Step(t, a);
  }

  /** The first commission is paid out ... */
  lemma FirstPaid(x: int) returns (actions: seq<Action>)
    requires x >= 0
    ensures Run(EMPTY, actions) == Tables([Paid(x)], [Batch(x, SETTLED)])
  {
    var r := Earning("first", x, "EUR");
    AccrueOne(EMPTY, r);
    assert [] + [r] == [r];
    OneMore([], EMPTY, Accrue([r]));
    actions := [] + [Accrue([r])];
    FirstBatch(x);
    OneMore(actions, Tables([r], []), CreateBatch(0, 0, {0}, []));
    actions := actions + [CreateBatch(0, 0, {0}, [])];
    PayFirst(x);
    OneMore(actions, Tables([First(x)], [Batch(x, OPEN)]), MarkPaid(0));
    actions := actions + [MarkPaid(0)];
  }

  /** ... and refunded. */
  lemma FirstRefunded(x: int) returns (actions: seq<Action>)
    requires x >= 0
    ensures Run(EMPTY, actions) == Tables([Refunded(x)], [Batch(x, SETTLED)])
  {
    actions := FirstPaid(x);
    OneMore(actions, Tables([Paid(x)], [Batch(x, SETTLED)]), Refund("first"));
    assert RefundRows([Paid(x)], "first") == [Refunded(x)];
    actions := actions + [Refund("first")];
  }

  /** Then a second commission, in currency c, and a batch over it. */
  lemma SecondHalf(x: int, c: string) returns (actions: seq<Action>)
    requires x >= 0
    ensures Run(EMPTY, actions) == Tables([Recovered(x), Second(x, c)], [Batch(x, SETTLED), Batch(0, OPEN)])
  {
    actions := FirstRefunded(x);
    var r, t := Earning("second", x, c), Tables([Refunded(x)], [Batch(x, SETTLED)]);
    AccrueOne(t, r);
    assert [Refunded(x)] + [r] == [Refunded(x), r];
    OneMore(actions, t, Accrue([r]));
    actions := actions + [Accrue([r])];
    SecondBatch(x, c);
    OneMore(actions, Tables([Refunded(x), r], t.batches), CreateBatch(0, 0, {1}, [0]));
    actions := actions + [CreateBatch(0, 0, {1}, [0])];
  }

  /** A paid batch can carry any negative total: from empty tables, with every call made
      in its turn. */
  lemma TotalsTurnNegative(x: int, c: string) returns (actions: seq<Action>)
    requires x >= 0
    ensures Run(EMPTY, actions).batches == [Batch(x, SETTLED), Batch(0 - x, SETTLED)]
  {
    actions := SecondHalf(x, c);
    var batches := [Batch(x, SETTLED), Batch(0, OPEN)];
    RefundSecond(x, c);
    OneMore(actions, Tables([Recovered(x), Second(x, c)], batches), Refund("second"));
    actions := actions + [Refund("second")];
    PaySecond(x, c);
    OneMore(actions, Tables([Recovered(x), Gone(x, c)], batches), MarkPaid(1));
    actions := actions + [MarkPaid(1)];
  }

  lemma LinesOfSecondBatch(x: int, c: string, line: string)
    ensures CashOfBatch(Tables([Recovered(x), Second(x, c)], [Batch(x, SETTLED), Batch(0, OPEN)]), 1,
                        Party(Some("agent"), Some(line)))
            == (if line == c then x else 0) - (if line == "EUR" then x else 0)
  {
    SumPair(Recovered(x), Second(x, c), CashWeight(1, Party(Some("agent"), Some(line))));
  }

  /** The EUR line is in the export: the settled reversal opens it. */
  lemma EuroLine(x: int, c: string, agents: Agents) returns (e: nat)
    ensures var entries := ExportEntries([Recovered(x), Second(x, c)], 1, agents);
            e < |entries| && entries[e].key == Key("agent", "EUR")
  {
    var rows := [Recovered(x), Second(x, c)];
    var items := ExportItems(rows, 1);
    assert rows[..1] == [Recovered(x)] && rows[..1][..0] == [];
    assert Select(rows[..1], Deducting(1), false) == [Item(Recovered(x), false)];
    assert Select(rows, Deducting(1), false) == [Item(Recovered(x), false)];
    assert items[|items| - 1] == Item(Recovered(x), false);
    GroupLines(items, agents);
    var k :| 0 <= k < |Group(items, agents)| && Group(items, agents)[k].key == ItemKey(items[|items| - 1]);
    e := k;
  }

  /** A batch can have a negative line from the start: a reversal in EUR is settled against
      earnings in another currency, the total is zero, and the export still tells the admin
      to pay the agent a negative sum in EUR. */
  lemma LinesTurnNegative(x: int, c: string, agents: Agents) returns (actions: seq<Action>, e: nat)
    requires x >= 0 && c != "EUR"
    ensures var t := Run(EMPTY, actions);
            && |t.batches| == 2 && t.batches[1] == Batch(0, OPEN)
            && e < |ExportEntries(t.rows, 1, agents)|
            && ExportEntries(t.rows, 1, agents)[e].key == Key("agent", "EUR")
            && ExportEntries(t.rows, 1, agents)[e].total == 0 - x
  {
    actions := SecondHalf(x, c);
    ReachableInv(actions);
    e := EuroLine(x, c, agents);
    LinesOfSecondBatch(x, c, "EUR");
    LineAgreesWithPayment(Run(EMPTY, actions), 1, agents, e, "agent", "EUR");
  }
}
