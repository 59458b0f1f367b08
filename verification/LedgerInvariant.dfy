/** What every call keeps: which states a row can be in, one row per payment and level,
    and stored batch totals that always match the rows. */
module LedgerInvariant {
  import opened Common
  import opened SponsorGraph
  import opened Commissions
  import opened CarryOver
  import opened Ledger

  predicate Settled(batches: seq<PayoutBatch>, b: nat) {
    b < |batches| && batches[b].status == SETTLED
  }

  predicate Pending(batches: seq<PayoutBatch>, b: nat) {
    b < |batches| && batches[b].status != SETTLED
  }

  /** A row is EARNED outside any paid batch; or PAID by a paid batch; or reversed before
      payout, outside any paid batch; or reversed after the payout of a paid batch, and
      then perhaps deducted in one strictly later batch. */
  predicate RowOk(r: Commission, batches: seq<PayoutBatch>) {
    && r.amount >= 0
    && match r.status
       case EARNED =>
         !r.reversedAfterPayout && r.carryOverBatchId.None?
         && (r.payoutBatchId.Some? ==> Pending(batches, r.payoutBatchId.value))
       case PAID =>
         !r.reversedAfterPayout && r.carryOverBatchId.None? && r.payoutBatchId.Some?
         && Settled(batches, r.payoutBatchId.value)
       case REVERSED =>
         if r.reversedAfterPayout then
           && r.payoutBatchId.Some? && Settled(batches, r.payoutBatchId.value)
           && (r.carryOverBatchId.Some? ==> r.payoutBatchId.value < r.carryOverBatchId.value < |batches|)
         else
           r.carryOverBatchId.None? && (r.payoutBatchId.Some? ==> Pending(batches, r.payoutBatchId.value))
  }

  ghost predicate RowsOk(t: Tables) {
    forall i :: 0 <= i < |t.rows| ==> RowOk(t.rows[i], t.batches)
  }

  /** All rows attached to a batch minus all rows deducted in it. */
  function BatchSum(rows: seq<Commission>, b: nat): int {
    SumBy(rows, AttachedTo(b)) - SumBy(rows, DeductedIn(b))
  }

  ghost predicate TotalsMatch(t: Tables) {
    forall b :: 0 <= b < |t.batches| ==> t.batches[b].totalAmount == BatchSum(t.rows, b)
  }

  ghost predicate KeysUnique(rows: seq<Commission>) {
    forall i, j :: 0 <= i < j < |rows| ==> rows[i].paymentRef != rows[j].paymentRef || rows[i].level != rows[j].level
  }

  ghost predicate Inv(t: Tables) {
    RowsOk(t) && TotalsMatch(t) && KeysUnique(t.rows)
  }

  // ----------------------------------------------------------------------- accruing

  lemma AppendKeepsKeys(rows: seq<Commission>, r: Commission)
    requires KeysUnique(rows) && !HasKey(rows, r)
    ensures KeysUnique(rows + [r])
  {
    forall i | 0 <= i < |rows|
      ensures !SameKey(rows[i], r)
    {
    }
  }

  lemma {:induction false} InsertKeepsKeys(rows: seq<Commission>, added: seq<Commission>)
    requires KeysUnique(rows)
    ensures KeysUnique(InsertRows(rows, added))
  {
    if added != [] {
      var n := |added| - 1;
      InsertKeepsKeys(rows, added[..n]);
      var t := InsertRows(rows, added[..n]);
      if !HasKey(t, added[n]) {
        AppendKeepsKeys(t, added[n]);
      }
    }
  }

  lemma NewRowsWeighNothing(rows: seq<Commission>, tail: seq<Commission>, w: Commission -> int)
    requires forall i :: 0 <= i < |tail| ==> w(tail[i]) == 0
    ensures SumBy(rows + tail, w) == SumBy(rows, w)
  {
    SumByAppend(rows, tail, w);
    SumByZero(tail, w);
  }

  ghost predicate AllNew(rows: seq<Commission>) {
    forall i :: 0 <= i < |rows| ==> NewRow(rows[i])
  }

  lemma InsertsNewRows(rows: seq<Commission>, added: seq<Commission>) returns (tail: seq<Commission>)
    requires forall r :: r in added ==> NewRow(r)
    ensures InsertRows(rows, added) == rows + tail && AllNew(tail)
  {
    tail := InsertRows(rows, added)[|rows|..];
    forall i | 0 <= i < |tail|
      ensures NewRow(tail[i])
    {
      NewRowsAreAdded(rows, added, |rows| + i);
    }
  }

  lemma NewRowsKeepTotals(t: Tables, tail: seq<Commission>)
    requires TotalsMatch(t) && AllNew(tail)
    ensures TotalsMatch(t.(rows := t.rows + tail))
  {
    forall b | 0 <= b < |t.batches|
      ensures BatchSum(t.rows + tail, b) == BatchSum(t.rows, b)
    {
      NewRowsWeighNothing(t.rows, tail, AttachedTo(b));
      NewRowsWeighNothing(t.rows, tail, DeductedIn(b));
    }
  }

  lemma NewRowsAreOk(t: Tables, tail: seq<Commission>)
    requires RowsOk(t) && AllNew(tail)
    ensures RowsOk(t.(rows := t.rows + tail))
  {
    var rows := t.rows + tail;
    forall i | 0 <= i < |rows|
      ensures RowOk(rows[i], t.batches)
    {
      assert i >= |t.rows| ==> NewRow(tail[i - |t.rows|]);
    }
  }

  lemma AccrueKeepsInv(t: Tables, added: seq<Commission>)
    requires Inv(t) && forall r :: r in added ==> NewRow(r)
    ensures Inv(t.(rows := InsertRows(t.rows, added)))
  {
    InsertKeepsKeys(t.rows, added);
    var tail := InsertsNewRows(t.rows, added);
    NewRowsAreOk(t, tail);
    NewRowsKeepTotals(t, tail);
  }

  // ---------------------------------------------------------------------- refunding

  lemma RefundKeepsInv(t: Tables, paymentRef: string)
    requires Inv(t)
    ensures Inv(t.(rows := RefundRows(t.rows, paymentRef)))
  {
    var rows := RefundRows(t.rows, paymentRef);
    forall b | 0 <= b < |t.batches|
      ensures BatchSum(rows, b) == BatchSum(t.rows, b)
    {
      SumByEqual(rows, AttachedTo(b), t.rows, AttachedTo(b));
      SumByEqual(rows, DeductedIn(b), t.rows, DeductedIn(b));
    }
  }

  // ----------------------------------------------------------------------- batching

  lemma {:induction false} SumByUpdate(rows: seq<Commission>, i: nat, r: Commission, w: Commission -> int)
    requires i < |rows|
    ensures SumBy(rows[i := r], w) == SumBy(rows, w) - w(rows[i]) + w(r)
  {
    var n := |rows| - 1;
    if i < n {
      assert rows[i := r][..n] == rows[..n][i := r];
      SumByUpdate(rows[..n], i, r, w);
    } else {
      assert rows[i := r][..n] == rows[..n];
    }
  }

  /** Settling one reversal more updates one row that was as yet untouched. */
  lemma SettleStep(rows: seq<Commission>, settled: seq<nat>, b: nat)
    requires RowIds(rows, settled) && NoDuplicates(settled) && settled != []
    ensures var i, before := settled[0], SettleRows(rows, settled[1..], b);
            && RowIds(rows, settled[1..]) && NoDuplicates(settled[1..])
            && before[i] == rows[i]
            && SettleRows(rows, settled, b) == before[i := rows[i].(carryOverBatchId := Some(b))]
  {
    var i, rest := settled[0], settled[1..];
    assert i !in rest;
    forall k | 0 <= k < |rows| && k != i
      ensures k in settled <==> k in rest
    {
      assert settled == [i] + rest;
    }
  }

  /** The settled rows' amounts are what the new batch deducts. */
  lemma {:induction false} SettledSum(rows: seq<Commission>, settled: seq<nat>, b: nat)
    requires RowIds(rows, settled) && NoDuplicates(settled)
    requires forall i :: 0 <= i < |rows| ==> rows[i].carryOverBatchId != Some(b)
    ensures SumBy(SettleRows(rows, settled, b), DeductedIn(b)) == SumIds(rows, settled)
  {
    var after := SettleRows(rows, settled, b);
    if settled == [] {
      SumByZero(after, DeductedIn(b));
    } else {
      var i, rest := settled[0], settled[1..];
      SettleStep(rows, settled, b);
      SettledSum(rows, rest, b);
      SumByUpdate(SettleRows(rows, rest, b), i, rows[i].(carryOverBatchId := Some(b)), DeductedIn(b));
    }
  }

  /** What the carry-over loop may settle: unsettled reversals, each once. */
  ghost predicate MaySettle(rows: seq<Commission>, settled: seq<nat>) {
    && RowIds(rows, settled) && NoDuplicates(settled)
    && forall i :: 0 <= i < |settled| ==> Unsettled(rows[settled[i]])
  }

  lemma GreedyMaySettle(rows: seq<Commission>, agents: set<UserId>, order: seq<nat>, purse: Purse)
    requires ListsUnsettled(rows, agents, order)
    ensures MaySettle(rows, Greedy(rows, order, purse))
  {
    var settled := Greedy(rows, order, purse);
    GreedyPicksFromOrder(rows, order, purse);
    forall i | 0 <= i < |settled|
      ensures Unsettled(rows[settled[i]])
    {
      assert settled[i] in order;
    }
  }

  lemma OtherBatchUntouched(t: Tables, eligible: set<nat>, settled: seq<nat>, b: nat)
    requires b < |t.batches| && MaySettle(AttachRows(t.rows, eligible, |t.batches|), settled)
    ensures BatchSum(SettleRows(AttachRows(t.rows, eligible, |t.batches|), settled, |t.batches|), b)
            == BatchSum(t.rows, b)
  {
    var after := SettleRows(AttachRows(t.rows, eligible, |t.batches|), settled, |t.batches|);
    forall i | 0 <= i < |after|
      ensures AttachedTo(b)(after[i]) == AttachedTo(b)(t.rows[i])
      ensures DeductedIn(b)(after[i]) == DeductedIn(b)(t.rows[i])
    {
    }
    SumByEqual(after, AttachedTo(b), t.rows, AttachedTo(b));
    SumByEqual(after, DeductedIn(b), t.rows, DeductedIn(b));
  }

  lemma NewBatchSum(t: Tables, eligible: set<nat>, settled: seq<nat>)
    requires RowsOk(t) && MaySettle(AttachRows(t.rows, eligible, |t.batches|), settled)
    ensures var id := |t.batches|;
            var rows := AttachRows(t.rows, eligible, id);
            BatchSum(SettleRows(rows, settled, id), id) == SumBy(rows, AttachedTo(id)) - SumIds(rows, settled)
  {
    var id := |t.batches|;
    var rows := AttachRows(t.rows, eligible, id);
    forall i | 0 <= i < |rows|
      ensures rows[i].carryOverBatchId != Some(id)
    {
      assert RowOk(t.rows[i], t.batches);
    }
    SettledSum(rows, settled, id);
    SumByEqual(SettleRows(rows, settled, id), AttachedTo(id), rows, AttachedTo(id));
  }

  function CreatedRows(t: Tables, eligible: set<nat>, settled: seq<nat>): (r: seq<Commission>)
    ensures |r| == |t.rows|
  {
    SettleRows(AttachRows(t.rows, eligible, |t.batches|), settled, |t.batches|)
  }

  lemma SettlingKeepsRows(t: Tables, eligible: set<nat>, settled: seq<nat>, batch: PayoutBatch)
    requires RowsOk(t) && KeysUnique(t.rows) && batch.status != SETTLED
    requires MaySettle(AttachRows(t.rows, eligible, |t.batches|), settled)
    ensures RowsOk(Tables(CreatedRows(t, eligible, settled), t.batches + [batch]))
    ensures KeysUnique(CreatedRows(t, eligible, settled))
  {
    var after := CreatedRows(t, eligible, settled);
    forall i | 0 <= i < |after|
      ensures RowOk(after[i], t.batches + [batch]) && SameKey(after[i], t.rows[i])
    {
    }
  }

  lemma SettlingKeepsTotals(t: Tables, eligible: set<nat>, settled: seq<nat>, batch: PayoutBatch)
    requires TotalsMatch(t) && MaySettle(AttachRows(t.rows, eligible, |t.batches|), settled)
    requires batch.totalAmount == BatchSum(CreatedRows(t, eligible, settled), |t.batches|)
    ensures TotalsMatch(Tables(CreatedRows(t, eligible, settled), t.batches + [batch]))
  {
    forall b | 0 <= b < |t.batches|
      ensures BatchSum(CreatedRows(t, eligible, settled), b) == BatchSum(t.rows, b)
    {
      OtherBatchUntouched(t, eligible, settled, b);
    }
  }

  lemma CreateKeepsInv(t: Tables, a: Action)
    requires Inv(t) && a.CreateBatch? && Enabled(t, a)
    ensures Inv(CreateTables(t, a))
  {
    var id := |t.batches|;
    var rows := AttachRows(t.rows, a.eligible, id);
    if AgentsIn(rows, id) != {} {
      GreedyMaySettle(rows, AgentsIn(rows, id), a.order, Earned(rows, id));
      var settled, batch := SettledIds(rows, id, a.order), CreateTables(t, a).batches[id];
      NewBatchSum(t, a.eligible, settled);
      SettlingKeepsRows(t, a.eligible, settled, batch);
      SettlingKeepsTotals(t, a.eligible, settled, batch);
    }
  }

  // ----------------------------------------------------------- exporting and paying

  /** Marking a batch paid moves no other batch's sum, and the recomputed total is again
      the sum over all rows of the batch. */
  lemma PayKeepsTotals(t: Tables, b: nat)
    requires Inv(t) && Payable(t, b)
    ensures TotalsMatch(PayTables(t, b))
  {
    var rows := PayRows(t.rows, b);
    forall c | 0 <= c < |t.batches| && c != b
      ensures BatchSum(rows, c) == BatchSum(t.rows, c)
    {
      SumByEqual(rows, AttachedTo(c), t.rows, AttachedTo(c));
      SumByEqual(rows, DeductedIn(c), t.rows, DeductedIn(c));
    }
    forall i | 0 <= i < |rows|
      ensures PaidIn(b)(rows[i]) == AttachedTo(b)(rows[i])
    {
      assert RowOk(t.rows[i], t.batches);
    }
    SumByEqual(rows, PaidIn(b), rows, AttachedTo(b));
  }

  lemma PayKeepsRows(t: Tables, b: nat)
    requires Inv(t) && Payable(t, b)
    ensures RowsOk(PayTables(t, b)) && KeysUnique(PayTables(t, b).rows)
  {
    var t' := PayTables(t, b);
    forall i | 0 <= i < |t.rows|
      ensures RowOk(t'.rows[i], t'.batches) && SameKey(t'.rows[i], t.rows[i])
    {
    }
  }

  // ------------------------------------------------------------------------ theorem

  lemma StepKeepsInv(t: Tables, a: Action)
    requires Inv(t)
    ensures Inv(Step(t, a))
  {
    if Enabled(t, a) {
      match a
      case Accrue(added) => AccrueKeepsInv(t, added);
      case Refund(paymentRef) => RefundKeepsInv(t, paymentRef);
      case CreateBatch(_, _, _, _) =>
        CreateKeepsInv(t, a);
      case Export(_) =>
      case MarkPaid(b) =>
        if Payable(t, b) {
          PayKeepsTotals(t, b);
          PayKeepsRows(t, b);
        }
    }
  }

  /** Every reachable state satisfies the invariant. */
  lemma {:induction false} RunKeepsInv(t: Tables, actions: seq<Action>)
    requires Inv(t)
    ensures Inv(Run(t, actions))
    decreases |actions|
  {
    if actions != [] {
      StepKeepsInv(t, actions[0]);
      RunKeepsInv(Step(t, actions[0]), actions[1..]);
    }
  }

  lemma ReachableInv(actions: seq<Action>)
    ensures Inv(Run(EMPTY, actions))
  {
    RunKeepsInv(EMPTY, actions);
  }
}
