/** What holds over whole runs of the ledger: conservation of money, the life of a row,
    and the guarantees of one batch creation and one payment. */
module LedgerTheorems {
  import opened Common
  import opened SponsorGraph
  import opened Commissions
  import opened CarryOver
  import opened Ledger
  import opened LedgerInvariant

  // ------------------------------------------------------------------- conservation

  /** Whose money is counted: one agent's or everybody's, in one currency or in all. */
  datatype Party = Party(agent: Option<UserId>, currency: Option<string>)

  predicate Concerns(r: Commission, who: Party) {
    && (who.agent.Some? ==> r.agentId == who.agent.value)
    && (who.currency.Some? ==> r.currency == who.currency.value)
  }

  /** A row on the books as money already sent: paid, or reversed after its payout and
      not yet deducted in a batch that has been paid. */
  predicate OnBooks(r: Commission, batches: seq<PayoutBatch>) {
    || r.status == PAID
    || (r.status == REVERSED && r.reversedAfterPayout
        && (r.carryOverBatchId.None? || !Settled(batches, r.carryOverBatchId.value)))
  }

  function BookWeight(batches: seq<PayoutBatch>, who: Party): Commission -> int {
    (r: Commission) => if Concerns(r, who) && OnBooks(r, batches) then r.amount else 0
  }

  function Booked(t: Tables, who: Party): int {
    SumBy(t.rows, BookWeight(t.batches, who))
  }

  /** The cash one row moves when batch b is paid: its amount if it is paid now, minus its
      amount if it is a carry-over settled there. */
  function CashWeight(b: nat, who: Party): Commission -> int {
    (r: Commission) =>
      if !Concerns(r, who) then 0
      else (if r.payoutBatchId == Some(b) && r.status == EARNED then r.amount else 0)
           - (if r.carryOverBatchId == Some(b) then r.amount else 0)
  }

  function CashOfBatch(t: Tables, b: nat, who: Party): int {
    SumBy(t.rows, CashWeight(b, who))
  }

  function CashOfStep(t: Tables, a: Action, who: Party): int {
    if a.MarkPaid? && Payable(t, a.batchId) then CashOfBatch(t, a.batchId, who) else 0
  }

  /** All cash sent over a run: the only calls that send any are the successful mark-paids. */
  ghost function CashSent(t: Tables, actions: seq<Action>, who: Party): int
    decreases |actions|
  {
    if actions == [] then 0
    else CashOfStep(t, actions[0], who) + CashSent(Step(t, actions[0]), actions[1..], who)
  }

  lemma AccrueConserves(t: Tables, added: seq<Commission>, who: Party)
    requires Inv(t) && forall r :: r in added ==> NewRow(r)
    ensures Booked(t.(rows := InsertRows(t.rows, added)), who) == Booked(t, who)
  {
    var tail := InsertsNewRows(t.rows, added);
    NewRowsWeighNothing(t.rows, tail, BookWeight(t.batches, who));
  }

  lemma RefundConserves(t: Tables, paymentRef: string, who: Party)
    requires Inv(t)
    ensures Booked(t.(rows := RefundRows(t.rows, paymentRef)), who) == Booked(t, who)
  {
    var rows := RefundRows(t.rows, paymentRef);
    forall i | 0 <= i < |rows|
      ensures BookWeight(t.batches, who)(rows[i]) == BookWeight(t.batches, who)(t.rows[i])
    {
      assert RowOk(t.rows[i], t.batches);
    }
    SumByEqual(rows, BookWeight(t.batches, who), t.rows, BookWeight(t.batches, who));
  }

  lemma SettlingConserves(t: Tables, eligible: set<nat>, settled: seq<nat>, batch: PayoutBatch, who: Party)
    requires RowsOk(t) && batch.status != SETTLED && MaySettle(AttachRows(t.rows, eligible, |t.batches|), settled)
    ensures Booked(Tables(CreatedRows(t, eligible, settled), t.batches + [batch]), who) == Booked(t, who)
  {
    var rows, batches := CreatedRows(t, eligible, settled), t.batches + [batch];
    forall i | 0 <= i < |rows|
      ensures BookWeight(batches, who)(rows[i]) == BookWeight(t.batches, who)(t.rows[i])
    {
    }
    SumByEqual(rows, BookWeight(batches, who), t.rows, BookWeight(t.batches, who));
  }

  lemma CreateConserves(t: Tables, a: Action, who: Party)
    requires Inv(t) && a.CreateBatch? && Enabled(t, a)
    ensures Booked(CreateTables(t, a), who) == Booked(t, who)
  {
    var id := |t.batches|;
    var rows := AttachRows(t.rows, a.eligible, id);
    if AgentsIn(rows, id) != {} {
      GreedyMaySettle(rows, AgentsIn(rows, id), a.order, Earned(rows, id));
      SettlingConserves(t, a.eligible, SettledIds(rows, id, a.order), CreateTables(t, a).batches[id], who);
    }
  }

  lemma ExportConserves(t: Tables, b: nat, who: Party)
    requires Inv(t)
    ensures Booked(ExportTables(t, b), who) == Booked(t, who)
  {
    var t' := ExportTables(t, b);
    SumByEqual(t'.rows, BookWeight(t'.batches, who), t.rows, BookWeight(t.batches, who));
  }

  lemma PayConserves(t: Tables, b: nat, who: Party)
    requires Inv(t) && Payable(t, b)
    ensures Booked(PayTables(t, b), who) == Booked(t, who) + CashOfBatch(t, b, who)
  {
    var t' := PayTables(t, b);
    forall i | 0 <= i < |t.rows|
      ensures BookWeight(t'.batches, who)(t'.rows[i])
              == BookWeight(t.batches, who)(t.rows[i]) + CashWeight(b, who)(t.rows[i])
    {
    }
    SumByLinear(t'.rows, BookWeight(t'.batches, who), t.rows, BookWeight(t.batches, who), t.rows, CashWeight(b, who));
  }

  lemma StepConserves(t: Tables, a: Action, who: Party)
    requires Inv(t)
    ensures Booked(Step(t, a), who) == Booked(t, who) + CashOfStep(t, a, who)
  {
    if Enabled(t, a) {
      match a
      case Accrue(added) => AccrueConserves(t, added, who);
      case Refund(paymentRef) => RefundConserves(t, paymentRef, who);
      case CreateBatch(_, _, _, _) => CreateConserves(t, a, who);
      case Export(b) => ExportConserves(t, b, who);
      case MarkPaid(b) => if Payable(t, b) { PayConserves(t, b, who); }
    }
  }

  lemma {:induction false} RunConserves(t: Tables, actions: seq<Action>, who: Party)
    requires Inv(t)
    ensures Booked(Run(t, actions), who) == Booked(t, who) + CashSent(t, actions, who)
    decreases |actions|
  {
    if actions != [] {
      StepConserves(t, actions[0], who);
      StepKeepsInv(t, actions[0]);
      RunConserves(Step(t, actions[0]), actions[1..], who);
    }
  }

  /** Conservation: after any run from empty tables, the cash sent to an agent (in one
      currency or in all) is that agent's PAID total plus the reversed-after-payout rows
      that are unsettled or settled in a batch not yet paid. */
  lemma CashIsConserved(actions: seq<Action>, who: Party)
    ensures CashSent(EMPTY, actions, who) == Booked(Run(EMPTY, actions), who)
  {
    RunConserves(EMPTY, actions, who);
  }

  // -------------------------------------------------------------- balances as shown

  function EarnedWeight(a: UserId): Commission -> int {
    (r: Commission) => if r.agentId == a && r.status == EARNED then r.amount else 0
  }

  function PaidWeight(a: UserId): Commission -> int {
    (r: Commission) => if r.agentId == a && r.status == PAID then r.amount else 0
  }

  function CarryWeight(a: UserId): Commission -> int {
    (r: Commission) => if r.agentId == a && Unsettled(r) then r.amount else 0
  }

  /** Reversals already settled against a batch that is not paid yet. */
  function InFlightWeight(batches: seq<PayoutBatch>, a: UserId): Commission -> int {
    (r: Commission) =>
      if r.agentId == a && r.status == REVERSED && r.carryOverBatchId.Some?
         && !Settled(batches, r.carryOverBatchId.value)
      then r.amount else 0
  }

  function SumOfTwo(f: Commission -> int, g: Commission -> int): Commission -> int {
    (r: Commission) => f(r) + g(r)
  }

  /** The balances shown to an agent reconcile with the cash the agent has received:
      what was sent is what is shown as paid, plus the negative carry-over shown, plus
      the carry-over already taken up by a batch on its way. */
  lemma BalancesReconcile(actions: seq<Action>, a: UserId)
    ensures var t := Run(EMPTY, actions);
            CashSent(EMPTY, actions, Party(Some(a), None)) ==
            SumBy(t.rows, PaidWeight(a)) + SumBy(t.rows, CarryWeight(a)) + SumBy(t.rows, InFlightWeight(t.batches, a))
  {
    var t := Run(EMPTY, actions);
    var who := Party(Some(a), None);
    CashIsConserved(actions, who);
    ReachableInv(actions);
    var rest := SumOfTwo(CarryWeight(a), InFlightWeight(t.batches, a));
    forall i | 0 <= i < |t.rows|
      ensures BookWeight(t.batches, who)(t.rows[i]) == PaidWeight(a)(t.rows[i]) + rest(t.rows[i])
    {
      assert RowOk(t.rows[i], t.batches);
    }
    SumByLinear(t.rows, BookWeight(t.batches, who), t.rows, PaidWeight(a), t.rows, rest);
    SumByLinear(t.rows, rest, t.rows, CarryWeight(a), t.rows, InFlightWeight(t.batches, a));
  }

  // ----------------------------------------------------------------- stored totals

  function SettledTotal(batches: seq<PayoutBatch>): int {
    if batches == [] then 0
    else
      var n := |batches| - 1;
      SettledTotal(batches[..n]) + if batches[n].status == SETTLED then batches[n].totalAmount else 0
  }

  lemma {:induction false} SettleOneTotal(batches: seq<PayoutBatch>, b: nat, batch: PayoutBatch)
    requires b < |batches| && batches[b].status != SETTLED
    ensures SettledTotal(batches[b := batch])
            == SettledTotal(batches) + if batch.status == SETTLED then batch.totalAmount else 0
  {
    var n := |batches| - 1;
    if b < n {
      assert batches[b := batch][..n] == batches[..n][b := batch];
      SettleOneTotal(batches[..n], b, batch);
    } else {
      assert batches[b := batch][..n] == batches[..n];
    }
  }

  const EVERYBODY := Party(None, None)

  lemma PaidTotalIsCash(t: Tables, b: nat)
    requires Inv(t) && Payable(t, b)
    ensures PaidTotal(t, b) == CashOfBatch(t, b, EVERYBODY)
  {
    var rows := PayRows(t.rows, b);
    forall i | 0 <= i < |rows|
      ensures PaidIn(b)(rows[i]) == CashWeight(b, EVERYBODY)(t.rows[i]) + DeductedIn(b)(rows[i])
    {
      assert RowOk(t.rows[i], t.batches);
    }
    SumByLinear(rows, PaidIn(b), t.rows, CashWeight(b, EVERYBODY), rows, DeductedIn(b));
  }

  lemma {:induction false} RunTotals(t: Tables, actions: seq<Action>)
    requires Inv(t)
    ensures SettledTotal(Run(t, actions).batches) == SettledTotal(t.batches) + CashSent(t, actions, EVERYBODY)
    decreases |actions|
  {
    if actions != [] {
      var a := actions[0];
      var t' := Step(t, a);
      StepKeepsInv(t, a);
      RunTotals(t', actions[1..]);
      StepTotals(t, a);
    }
  }

  lemma StepTotals(t: Tables, a: Action)
    requires Inv(t)
    ensures SettledTotal(Step(t, a).batches) == SettledTotal(t.batches) + CashOfStep(t, a, EVERYBODY)
  {
    if Enabled(t, a) {
      match a
      case CreateBatch(_, _, _, _) =>
        var t' := Step(t, a);
        if t' != t { assert t'.batches[..|t.batches|] == t.batches; }
      case Export(b) =>
        if b < |t.batches| && t.batches[b].status == OPEN {
          SettleOneTotal(t.batches, b, t.batches[b].(status := EXPORTED));
        }
      case MarkPaid(b) =>
        if Payable(t, b) {
          PaidTotalIsCash(t, b);
          SettleOneTotal(t.batches, b, t.batches[b].(status := SETTLED, totalAmount := PaidTotal(t, b)));
        }
      case _ =>
    }
  }

  /** The stored totals of the paid batches add up to all cash ever sent. */
  lemma PaidBatchesAreTheCash(actions: seq<Action>)
    ensures SettledTotal(Run(EMPTY, actions).batches) == CashSent(EMPTY, actions, EVERYBODY)
  {
    RunTotals(EMPTY, actions);
  }

  // ------------------------------------------------------------------ life of a row

  /** How one row may differ between an earlier and a later state. */
  predicate Evolves(r: Commission, s: Commission) {
    && s.(status := r.status, reversedAfterPayout := r.reversedAfterPayout,
          carryOverBatchId := r.carryOverBatchId, payoutBatchId := r.payoutBatchId) == r
    && (r.status == REVERSED ==> s.status == REVERSED && s.reversedAfterPayout == r.reversedAfterPayout)
    && (r.status == PAID ==> s.status == PAID || (s.status == REVERSED && s.reversedAfterPayout))
    && (r.carryOverBatchId.Some? ==> s.carryOverBatchId == r.carryOverBatchId)
    && (r.payoutBatchId.Some? ==> s.payoutBatchId == r.payoutBatchId
                                  || (s.payoutBatchId.None? && s.status == REVERSED && !s.reversedAfterPayout))
    && (r.payoutBatchId.None? && r.status == REVERSED ==> s.payoutBatchId.None?)
  }

  ghost predicate RowsEvolve(t: Tables, u: Tables) {
    |t.rows| <= |u.rows| && forall i :: 0 <= i < |t.rows| ==> Evolves(t.rows[i], u.rows[i])
  }

  ghost predicate BatchesEvolve(t: Tables, u: Tables) {
    && |t.batches| <= |u.batches|
    && forall b :: 0 <= b < |t.batches| ==>
         && u.batches[b].periodStart == t.batches[b].periodStart && u.batches[b].periodEnd == t.batches[b].periodEnd
         && (t.batches[b].status == SETTLED ==> u.batches[b] == t.batches[b])
         && (t.batches[b].status == EXPORTED ==> u.batches[b].status != OPEN)
  }

  lemma SettlingEvolves(t: Tables, eligible: set<nat>, settled: seq<nat>, i: nat)
    requires i < |t.rows| && MaySettle(AttachRows(t.rows, eligible, |t.batches|), settled)
    ensures Evolves(t.rows[i], CreatedRows(t, eligible, settled)[i])
  {
  }

  lemma CreateEvolves(t: Tables, a: Action)
    requires a.CreateBatch? && Enabled(t, a)
    ensures RowsEvolve(t, CreateTables(t, a))
  {
    var id := |t.batches|;
    var rows := AttachRows(t.rows, a.eligible, id);
    if AgentsIn(rows, id) != {} {
      GreedyMaySettle(rows, AgentsIn(rows, id), a.order, Earned(rows, id));
      var settled := SettledIds(rows, id, a.order);
      forall i | 0 <= i < |t.rows|
        ensures Evolves(t.rows[i], CreatedRows(t, a.eligible, settled)[i])
      {
        SettlingEvolves(t, a.eligible, settled, i);
      }
    }
  }

  lemma StepEvolves(t: Tables, a: Action)
    ensures RowsEvolve(t, Step(t, a)) && BatchesEvolve(t, Step(t, a))
  {
    StepEvolvesRows(t, a);
    if Enabled(t, a) && a.CreateBatch? && CreateTables(t, a) != t {
      assert CreateTables(t, a).batches[..|t.batches|] == t.batches;
    }
  }

  lemma StepEvolvesRows(t: Tables, a: Action)
    ensures RowsEvolve(t, Step(t, a))
  {
    if Enabled(t, a) {
      match a
      case Accrue(added) => AccrueEvolves(t, added);
      case Refund(paymentRef) => RefundEvolves(t, paymentRef);
      case CreateBatch(_, _, _, _) => CreateEvolves(t, a);
      case Export(_) =>
      case MarkPaid(b) => PayEvolves(t, b);
    }
  }

  lemma AccrueEvolves(t: Tables, added: seq<Commission>)
    ensures RowsEvolve(t, t.(rows := InsertRows(t.rows, added)))
  {
    var rows := InsertRows(t.rows, added);
    forall i | 0 <= i < |t.rows|
      ensures rows[i] == t.rows[i]
    {
      assert rows[..|t.rows|][i] == t.rows[i];
    }
  }

  lemma RefundEvolves(t: Tables, paymentRef: string)
    ensures RowsEvolve(t, t.(rows := RefundRows(t.rows, paymentRef)))
  {
  }

  lemma PayEvolves(t: Tables, b: nat)
    ensures RowsEvolve(t, PayTables(t, b))
  {
  }

  lemma {:induction false} RunEvolves(t: Tables, actions: seq<Action>)
    ensures RowsEvolve(t, Run(t, actions)) && BatchesEvolve(t, Run(t, actions))
    decreases |actions|
  {
    if actions != [] {
      var next := Step(t, actions[0]);
      StepEvolves(t, actions[0]);
      RunEvolves(next, actions[1..]);
      var last := Run(t, actions);
      forall i | 0 <= i < |t.rows|
        ensures Evolves(t.rows[i], last.rows[i])
      {
        assert Evolves(t.rows[i], next.rows[i]) && Evolves(next.rows[i], last.rows[i]);
      }
    }
  }

  /** A row is attached to one batch at most in its whole life, however batch creations
      interleave, and deducted in at most one, created strictly after the one that paid
      it; a reversed row stays reversed and a paid row is never earned again. */
  lemma OneBatchEver(first: seq<Action>, more: seq<Action>, i: nat)
    requires i < |Run(EMPTY, first).rows|
    ensures var t, u := Run(EMPTY, first), Run(EMPTY, first + more);
            && i < |u.rows|
            && (t.rows[i].payoutBatchId.Some? && u.rows[i].payoutBatchId.Some? ==>
                  t.rows[i].payoutBatchId == u.rows[i].payoutBatchId)
            && (t.rows[i].carryOverBatchId.Some? ==> u.rows[i].carryOverBatchId == t.rows[i].carryOverBatchId)
            && (u.rows[i].carryOverBatchId.Some? ==>
                  && u.rows[i].status == REVERSED && u.rows[i].reversedAfterPayout
                  && u.rows[i].payoutBatchId.Some? && u.rows[i].payoutBatchId.value < u.rows[i].carryOverBatchId.value)
            && (t.rows[i].status == REVERSED ==> u.rows[i].status == REVERSED)
            && (t.rows[i].status == PAID ==> u.rows[i].status != EARNED)
            && (u.rows[i].status == PAID ==>
                  u.rows[i].payoutBatchId.Some? && Settled(u.batches, u.rows[i].payoutBatchId.value))
  {
    var t := Run(EMPTY, first);
    RunAppend(EMPTY, first, more);
    RunEvolves(t, more);
    ReachableInv(first + more);
    var u := Run(t, more);
    assert Evolves(t.rows[i], u.rows[i]) && RowOk(u.rows[i], u.batches);
  }

  /** After a refund no row of that payment is ever EARNED or PAID again, as long as no
      later call accrues rows for the same payment. */
  lemma {:induction false} RefundIsFinal(t: Tables, actions: seq<Action>, paymentRef: string)
    requires forall r :: r in t.rows && r.paymentRef == paymentRef ==> r.status == REVERSED
    requires forall a :: a in actions && a.Accrue? ==> forall r :: r in a.added ==> r.paymentRef != paymentRef
    ensures forall r :: r in Run(t, actions).rows && r.paymentRef == paymentRef ==> r.status == REVERSED
    decreases |actions|
  {
    if actions != [] {
      var a := actions[0];
      assert a in actions;
      StepEvolves(t, a);
      var next := Step(t, a);
      forall r | r in next.rows && r.paymentRef == paymentRef
        ensures r.status == REVERSED
      {
        var i :| 0 <= i < |next.rows| && next.rows[i] == r;
        if i < |t.rows| {
          assert Evolves(t.rows[i], next.rows[i]);
          assert t.rows[i] in t.rows;
        } else {
          NewRowsAreAdded(t.rows, a.added, i);
        }
      }
      RefundIsFinal(next, actions[1..], paymentRef);
    }
  }

  // ----------------------------------------------------- one creation, one payment

  lemma {:induction false} AttachedOfNonNegative(rows: seq<Commission>, b: nat, a: UserId)
    requires forall i :: 0 <= i < |rows| ==> rows[i].amount >= 0
    ensures SumBy(rows, AttachedOf(b, a)) >= 0
  {
    if rows != [] {
      AttachedOfNonNegative(rows[..|rows| - 1], b, a);
    }
  }

  lemma UnsettledAreListed(rows: seq<Commission>, agents: set<UserId>, order: seq<nat>, agent: UserId)
    requires ListsUnsettled(rows, agents, order) && agent in agents
    ensures forall i :: 0 <= i < |rows| && Unsettled(rows[i]) && rows[i].agentId == agent ==>
              exists k :: 0 <= k < |order| && order[k] == i
  {
    forall i | 0 <= i < |rows| && Unsettled(rows[i]) && rows[i].agentId == agent
      ensures exists k :: 0 <= k < |order| && order[k] == i
    {
      assert i in order;
    }
  }

  lemma AmountsNonNegative(t: Tables, eligible: set<nat>)
    requires RowsOk(t)
    ensures var rows := AttachRows(t.rows, eligible, |t.batches|);
            forall i :: 0 <= i < |rows| ==> rows[i].amount >= 0
  {
    forall i | 0 <= i < |t.rows|
      ensures t.rows[i].amount >= 0
    {
      assert RowOk(t.rows[i], t.batches);
    }
  }

  /** Batch creation never overdraws an agent and settles as much as it can: what is
      deducted from an agent is at most that agent's attached earnings, and every
      reversal left unsettled is larger than what then remains. */
  lemma SettlementIsSafeAndMaximal(t: Tables, a: Action, agent: UserId)
    requires Inv(t) && a.CreateBatch? && Enabled(t, a)
    requires agent in AgentsIn(AttachRows(t.rows, a.eligible, |t.batches|), |t.batches|)
    ensures var id := |t.batches|;
            var rows := AttachRows(t.rows, a.eligible, id);
            var settled := SettledIds(rows, id, a.order);
            var left := SumBy(rows, AttachedOf(id, agent)) - SumIdsOf(rows, settled, agent);
            && left >= 0
            && (forall i :: 0 <= i < |rows| && Unsettled(rows[i]) && rows[i].agentId == agent && i !in settled ==>
                  rows[i].amount > left)
  {
    var id := |t.batches|;
    var rows := AttachRows(t.rows, a.eligible, id);
    AmountsNonNegative(t, a.eligible);
    AttachedOfNonNegative(rows, id, agent);
    GreedyIsSafeAndMaximal(rows, a.order, Earned(rows, id), agent);
    UnsettledAreListed(rows, AgentsIn(rows, id), a.order, agent);
  }

  /** The rows of a batch being created, once its eligible rows are attached. */
  function AttachedNow(t: Tables, a: Action): seq<Commission>
    requires a.CreateBatch?
  {
    AttachRows(t.rows, a.eligible, |t.batches|)
  }

  /** No row is in a batch that is yet to be created. */
  lemma NoRowAhead(t: Tables)
    requires Inv(t)
    ensures forall i :: 0 <= i < |t.rows| ==> t.rows[i].payoutBatchId != Some(|t.batches|)
  {
    forall i | 0 <= i < |t.rows|
      ensures t.rows[i].payoutBatchId != Some(|t.batches|)
    {
      assert RowOk(t.rows[i], t.batches);
    }
  }

  lemma AttachedExist(rows: seq<Commission>, eligible: set<nat>, id: nat)
    requires forall i :: 0 <= i < |rows| ==> rows[i].payoutBatchId != Some(id)
    ensures AgentsIn(AttachRows(rows, eligible, id), id) == {} <==>
              forall i :: i in eligible && i < |rows| ==> !Attachable(rows[i])
  {
    var after := AttachRows(rows, eligible, id);
    forall i | i in eligible && i < |rows| && Attachable(rows[i])
      ensures rows[i].agentId in AgentsIn(after, id)
    {
      assert after[i] in after && after[i].payoutBatchId == Some(id);
    }
  }

  /** How a batch creation may change a row: an offered row that is earned and in no batch is
      attached, a row in `settled` is deducted, and nothing else about it changes. */
  predicate TakenUp(r: Commission, s: Commission, offered: bool, settled: bool, id: nat) {
    && s.payoutBatchId == (if offered && r.status == EARNED && r.payoutBatchId.None? then Some(id) else r.payoutBatchId)
    && s.carryOverBatchId == (if settled then Some(id) else r.carryOverBatchId)
    && s.(payoutBatchId := r.payoutBatchId, carryOverBatchId := r.carryOverBatchId) == r
  }

  /** No offered row is earned and in no batch. */
  ghost predicate NothingOffered(t: Tables, a: Action)
    requires a.CreateBatch?
  {
    forall i :: i in a.eligible && i < |t.rows| ==> t.rows[i].status != EARNED || t.rows[i].payoutBatchId.Some?
  }

  /** The whole effect of a batch creation. It is refused exactly if no offered row can be
      attached. Otherwise one batch is added, open and over the given period, and the rows
      are taken up; `settled` is decided row by row in `SettlesOldestFirst`. */
  lemma CreationWrites(t: Tables, a: Action)
    requires Inv(t) && a.CreateBatch? && Enabled(t, a)
    ensures var u, id, rows := Step(t, a), |t.batches|, AttachedNow(t, a);
            var settled := SettledIds(rows, id, a.order);
            if NothingOffered(t, a) then u == t
            else
              && |u.rows| == |t.rows|
              && (forall i :: 0 <= i < |t.rows| ==> TakenUp(t.rows[i], u.rows[i], i in a.eligible, i in settled, id))
              && |u.batches| == id + 1 && u.batches[..id] == t.batches
              && u.batches[id] == PayoutBatch(a.periodStart, a.periodEnd, u.batches[id].totalAmount, OPEN)
              && u.batches[id].totalAmount == BatchSum(u.rows, id)
  {
    var id, rows := |t.batches|, AttachedNow(t, a);
    NoRowAhead(t);
    AttachedExist(t.rows, a.eligible, id);
    assert AgentsIn(rows, id) == {} <==> NothingOffered(t, a);
    if AgentsIn(rows, id) != {} {
      StepKeepsInv(t, a);
      RowsAreTakenUp(t, a.eligible, SettledIds(rows, id, a.order));
    }
  }

  lemma RowsAreTakenUp(t: Tables, eligible: set<nat>, settled: seq<nat>)
    ensures var id, after := |t.batches|, SettleRows(AttachRows(t.rows, eligible, |t.batches|), settled, |t.batches|);
            forall i :: 0 <= i < |t.rows| ==> TakenUp(t.rows[i], after[i], i in eligible, i in settled, id)
  {
  }

  /** Which reversals a new batch deducts: the candidates are the unsettled ones of the agents it
      pays, taken oldest first, and a candidate is deducted exactly if what the batch brings
      its agent still covers it after the older ones that are deducted. */
  lemma SettlesOldestFirst(t: Tables, a: Action, k: nat)
    requires Inv(t) && a.CreateBatch? && Enabled(t, a) && k < |a.order|
    ensures var id, rows := |t.batches|, AttachedNow(t, a);
            var settled, c := SettledIds(rows, id, a.order), t.rows[a.order[k]];
            && c.status == REVERSED && c.reversedAfterPayout && c.carryOverBatchId.None?
            && (forall j :: 0 <= j < k ==> t.rows[a.order[j]].createdAt <= c.createdAt)
            && (forall i :: i in settled ==> i in a.order)
            && (forall i :: 0 <= i < |t.rows| && Unsettled(t.rows[i]) && t.rows[i].agentId == c.agentId ==>
                  i in a.order)
            && (a.order[k] in settled <==>
                  c.amount <= SumBy(rows, AttachedOf(id, c.agentId))
                              - TakenBefore(rows, a.order, settled, k, c.agentId))
  {
    var id, rows := |t.batches|, AttachedNow(t, a);
    CandidatesAreListed(t, a.eligible, AgentsIn(rows, id), a.order, k);
    GreedySettlesIff(rows, a.order, Earned(rows, id), k);
    GreedyPicksFromOrder(rows, a.order, Earned(rows, id));
    assert InPurse(Earned(rows, id), t.rows[a.order[k]].agentId)
           == SumBy(rows, AttachedOf(id, rows[a.order[k]].agentId));
  }

  lemma CandidatesAreListed(t: Tables, eligible: set<nat>, agents: set<UserId>, order: seq<nat>, k: nat)
    requires ListsUnsettled(AttachRows(t.rows, eligible, |t.batches|), agents, order) && k < |order|
    ensures var c := t.rows[order[k]];
            && c.status == REVERSED && c.reversedAfterPayout && c.carryOverBatchId.None? && c.agentId in agents
            && c == AttachRows(t.rows, eligible, |t.batches|)[order[k]]
            && (forall j :: 0 <= j < k ==> t.rows[order[j]].createdAt <= c.createdAt)
            && (forall i :: 0 <= i < |t.rows| && Unsettled(t.rows[i]) && t.rows[i].agentId == c.agentId ==> i in order)
  {
    var rows := AttachRows(t.rows, eligible, |t.batches|);
    assert order[k] in order && Unsettled(rows[order[k]]);
    forall j | 0 <= j < k
      ensures t.rows[order[j]].createdAt <= t.rows[order[k]].createdAt
    {
      assert rows[order[j]].createdAt <= rows[order[k]].createdAt;
    }
    forall i | 0 <= i < |t.rows| && Unsettled(t.rows[i]) && t.rows[i].agentId == t.rows[order[k]].agentId
      ensures i in order
    {
      assert rows[i] == t.rows[i];
    }
  }

  // ------------------------------------------------------- a new batch, line by line

  function BringsWeight(b: nat, who: Party): Commission -> int {
    (r: Commission) => if Concerns(r, who) && r.payoutBatchId == Some(b) then r.amount else 0
  }

  /** What a batch brings somebody, in one currency or in all: the rows attached to it. */
  function Brings(rows: seq<Commission>, b: nat, who: Party): int {
    SumBy(rows, BringsWeight(b, who))
  }

  /** What it takes: the reversals it settles. */
  function Takes(rows: seq<Commission>, settled: seq<nat>, who: Party): int
    requires RowIds(rows, settled)
  {
    if settled == [] then 0
    else (if Concerns(rows[settled[0]], who) then rows[settled[0]].amount else 0) + Takes(rows, settled[1..], who)
  }

  lemma {:induction false} SettlingTakes(rows: seq<Commission>, settled: seq<nat>, b: nat, who: Party)
    requires RowIds(rows, settled) && NoDuplicates(settled)
    requires forall i :: 0 <= i < |rows| ==> rows[i].carryOverBatchId != Some(b)
    ensures SumBy(SettleRows(rows, settled, b), CashWeight(b, who))
            == SumBy(rows, CashWeight(b, who)) - Takes(rows, settled, who)
  {
    if settled == [] {
      assert SettleRows(rows, settled, b) == rows;
    } else {
      var i, rest := settled[0], settled[1..];
      SettleStep(rows, settled, b);
      SettlingTakes(rows, rest, b, who);
      SumByUpdate(SettleRows(rows, rest, b), i, rows[i].(carryOverBatchId := Some(b)), CashWeight(b, who));
    }
  }

  /** What paying a new batch would send: what it brings less what it takes. So a line of
      its export is negative exactly when the carry-over settled in that currency exceeds
      the earnings attached in it. */
  lemma FreshLine(t: Tables, a: Action, who: Party)
    requires Inv(t) && a.CreateBatch? && Enabled(t, a) && AgentsIn(AttachedNow(t, a), |t.batches|) != {}
    ensures var id, rows := |t.batches|, AttachedNow(t, a);
            CashOfBatch(CreateTables(t, a), id, who)
            == Brings(rows, id, who) - Takes(rows, SettledIds(rows, id, a.order), who)
  {
    var id, rows := |t.batches|, AttachedNow(t, a);
    GreedyMaySettle(rows, AgentsIn(rows, id), a.order, Earned(rows, id));
    forall i | 0 <= i < |rows|
      ensures rows[i].carryOverBatchId != Some(id)
      ensures rows[i].payoutBatchId == Some(id) ==> rows[i].status == EARNED
    {
      assert RowOk(t.rows[i], t.batches);
    }
    SettlingTakes(rows, SettledIds(rows, id, a.order), id, who);
    SumByEqual(rows, CashWeight(id, who), rows, BringsWeight(id, who));
  }

  lemma {:induction false} TakesOfAgent(rows: seq<Commission>, settled: seq<nat>, agent: UserId)
    requires RowIds(rows, settled)
    ensures Takes(rows, settled, Party(Some(agent), None)) == SumIdsOf(rows, settled, agent)
  {
    if settled != [] {
      TakesOfAgent(rows, settled[1..], agent);
    }
  }

  lemma BringsToAgent(rows: seq<Commission>, b: nat, agent: UserId)
    ensures Brings(rows, b, Party(Some(agent), None)) == SumBy(rows, AttachedOf(b, agent))
  {
    SumByEqual(rows, AttachedOf(b, agent), rows, BringsWeight(b, Party(Some(agent), None)));
  }

  /** Over all currencies together a new batch never asks an agent for money. */
  lemma FreshAgentIsCovered(t: Tables, a: Action, agent: UserId)
    requires Inv(t) && a.CreateBatch? && Enabled(t, a)
    requires agent in AgentsIn(AttachedNow(t, a), |t.batches|)
    ensures CashOfBatch(CreateTables(t, a), |t.batches|, Party(Some(agent), None)) >= 0
  {
    var id, rows := |t.batches|, AttachedNow(t, a);
    var who := Party(Some(agent), None);
    FreshLine(t, a, who);
    TakesOfAgent(rows, SettledIds(rows, id, a.order), agent);
    BringsToAgent(rows, id, agent);
    SettlementIsSafeAndMaximal(t, a, agent);
  }

  /** The agent's rows that a batch can bring or take are all in one currency. */
  ghost predicate OneCurrency(rows: seq<Commission>, b: nat, agent: UserId, currency: string) {
    forall i :: 0 <= i < |rows| && rows[i].agentId == agent && (rows[i].payoutBatchId == Some(b) || Unsettled(rows[i]))
                ==> rows[i].currency == currency
  }

  lemma BringsInOneCurrency(rows: seq<Commission>, b: nat, agent: UserId, currency: string, line: string)
    requires OneCurrency(rows, b, agent, currency)
    ensures Brings(rows, b, Party(Some(agent), Some(line)))
            == if line == currency then Brings(rows, b, Party(Some(agent), None)) else 0
  {
    var one, all := BringsWeight(b, Party(Some(agent), Some(line))), BringsWeight(b, Party(Some(agent), None));
    if line == currency {
      SumByEqual(rows, one, rows, all);
    } else {
      SumByZero(rows, one);
    }
  }

  lemma {:induction false} TakesInOneCurrency(rows: seq<Commission>, settled: seq<nat>, b: nat, agent: UserId,
                                              currency: string, line: string)
    requires MaySettle(rows, settled) && OneCurrency(rows, b, agent, currency)
    ensures Takes(rows, settled, Party(Some(agent), Some(line))) ==
            if line == currency then Takes(rows, settled, Party(Some(agent), None)) else 0
  {
    if settled != [] {
      assert Unsettled(rows[settled[0]]);
      TakesInOneCurrency(rows, settled[1..], b, agent, currency, line);
    }
  }

  /** In one currency alone a line can be negative, but not if the agent's attached rows
      and unsettled reversals are all in the same currency. */
  lemma OneCurrencyIsCovered(t: Tables, a: Action, agent: UserId, currency: string, line: string)
    requires Inv(t) && a.CreateBatch? && Enabled(t, a)
    requires agent in AgentsIn(AttachedNow(t, a), |t.batches|)
    requires OneCurrency(AttachedNow(t, a), |t.batches|, agent, currency)
    ensures CashOfBatch(CreateTables(t, a), |t.batches|, Party(Some(agent), Some(line))) >= 0
  {
    var id, rows := |t.batches|, AttachedNow(t, a);
    GreedyMaySettle(rows, AgentsIn(rows, id), a.order, Earned(rows, id));
    FreshLine(t, a, Party(Some(agent), Some(line)));
    FreshLine(t, a, Party(Some(agent), None));
    FreshAgentIsCovered(t, a, agent);
    BringsInOneCurrency(rows, id, agent, currency, line);
    TakesInOneCurrency(rows, SettledIds(rows, id, a.order), id, agent, currency, line);
  }

  function DetachedWeight(b: nat): Commission -> int {
    (r: Commission) => if r.payoutBatchId == Some(b) && r.status == REVERSED then r.amount else 0
  }

  /** The recomputed total is the stored one less exactly the rows reversed since: the
      warning "total changed" can only be raised together with a detached row. */
  lemma PaidTotalDropsReversals(t: Tables, b: nat)
    requires Inv(t) && Payable(t, b)
    ensures PaidTotal(t, b) == t.batches[b].totalAmount - SumBy(t.rows, DetachedWeight(b))
  {
    var rows := PayRows(t.rows, b);
    forall i | 0 <= i < |rows|
      ensures AttachedTo(b)(t.rows[i]) == PaidIn(b)(rows[i]) + DetachedWeight(b)(t.rows[i])
      ensures DeductedIn(b)(rows[i]) == DeductedIn(b)(t.rows[i])
    {
      assert RowOk(t.rows[i], t.batches);
    }
    SumByLinear(t.rows, AttachedTo(b), rows, PaidIn(b), t.rows, DetachedWeight(b));
    SumByEqual(rows, DeductedIn(b), t.rows, DeductedIn(b));
  }
}
