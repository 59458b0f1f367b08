/** The commission ledger as a state machine over its two tables: rows accrue, are
    reversed by refunds, attached to payout batches, exported and marked paid. */
module Ledger {
  import opened Common
  import opened SponsorGraph
  import opened Commissions
  import opened CarryOver

  datatype Tables = Tables(rows: seq<Commission>, batches: seq<PayoutBatch>)

  const EMPTY := Tables([], [])

  /** One service call. A payment brings the rows the engine built; a batch creation
      brings the rows it read as eligible, possibly before other calls ran, and the
      order in which the database listed the unsettled reversals. */
  datatype Action =
    | Accrue(added: seq<Commission>)
    | Refund(paymentRef: string)
    | CreateBatch(periodStart: int, periodEnd: int, eligible: set<nat>, order: seq<nat>)
    | Export(batchId: nat)
    | MarkPaid(batchId: nat)

  // ----------------------------------------------------------------------- accruing

  predicate SameKey(r: Commission, s: Commission) {
    r.paymentRef == s.paymentRef && r.level == s.level
  }

  predicate HasKey(rows: seq<Commission>, r: Commission) {
    exists i :: 0 <= i < |rows| && SameKey(rows[i], r)
  }

  /** `createMany` with `skipDuplicates`: a row whose unique key is taken is dropped. */
  function InsertRows(rows: seq<Commission>, added: seq<Commission>): (r: seq<Commission>)
    ensures |rows| <= |r| <= |rows| + |added| && r[..|rows|] == rows
  {
    if added == [] then rows
    else
      var n := |added| - 1;
      var t := InsertRows(rows, added[..n]);
      if HasKey(t, added[n]) then t else t + [added[n]]
  }

  lemma {:induction false} NewRowsAreAdded(rows: seq<Commission>, added: seq<Commission>, i: nat)
    requires |rows| <= i < |InsertRows(rows, added)|
    ensures InsertRows(rows, added)[i] in added
  {
    var n := |added| - 1;
    var t := InsertRows(rows, added[..n]);
    if i < |t| {
      NewRowsAreAdded(rows, added[..n], i);
    }
  }

  /** The offered rows, each key once, that no row of the table has: the first of its key. */
  function NewKeys(rows: seq<Commission>, added: seq<Commission>): seq<Commission> {
    if added == [] then []
    else
      var n := |added| - 1;
      NewKeys(rows, added[..n]) + if HasKey(rows + added[..n], added[n]) then [] else [added[n]]
  }

  /** The keys after an insert are those of the table and those offered. */
  lemma {:induction false} KeysAfterInsert(rows: seq<Commission>, added: seq<Commission>, r: Commission)
    ensures HasKey(InsertRows(rows, added), r) <==> HasKey(rows + added, r)
  {
    if added == [] {
      assert rows + added == rows;
    } else {
      var n := |added| - 1;
      var before, last := rows + added[..n], added[n];
      assert rows + added == before + [last];
      KeysAfterInsert(rows, added[..n], r);
      KeysAfterInsert(rows, added[..n], last);
      OneMoreKey(before, last, r);
      OneMoreKey(InsertRows(rows, added[..n]), last, r);
    }
  }

  lemma OneMoreKey(rows: seq<Commission>, last: Commission, r: Commission)
    ensures HasKey(rows + [last], r) <==> HasKey(rows, r) || SameKey(last, r)
    ensures HasKey(rows, last) && SameKey(last, r) ==> HasKey(rows, r)
  {
    var more := rows + [last];
    if HasKey(rows, r) {
      var i :| 0 <= i < |rows| && SameKey(rows[i], r);
      assert SameKey(more[i], r);
    }
    if SameKey(last, r) {
      assert SameKey(more[|rows|], r);
    }
  }

  /** An insert appends exactly the first offered row of each key that the table lacks. */
  lemma {:induction false} InsertAddsNewKeys(rows: seq<Commission>, added: seq<Commission>)
    ensures InsertRows(rows, added) == rows + NewKeys(rows, added)
  {
    if added != [] {
      var n := |added| - 1;
      InsertAddsNewKeys(rows, added[..n]);
      KeysAfterInsert(rows, added[..n], added[n]);
    }
  }

  /** A row as the engine creates it. */
  predicate NewRow(r: Commission) {
    r.amount >= 0 && r.status == EARNED && !r.reversedAfterPayout && r.carryOverBatchId.None? && r.payoutBatchId.None?
  }

  // ---------------------------------------------------------------------- refunding

  function RefundRow(r: Commission, paymentRef: string): Commission {
    if r.paymentRef == paymentRef && r.status != REVERSED then
      r.(status := REVERSED, reversedAfterPayout := r.status == PAID)
    else r
  }

  function RefundRows(rows: seq<Commission>, paymentRef: string): (r: seq<Commission>)
    ensures |r| == |rows| && forall i :: 0 <= i < |rows| ==> r[i] == RefundRow(rows[i], paymentRef)
  {
    seq(|rows|, i requires 0 <= i < |rows| => RefundRow(rows[i], paymentRef))
  }

  // ------------------------------------------------------------------------ batching

  predicate Attachable(r: Commission) {
    r.status == EARNED && r.payoutBatchId.None?
  }

  /** The attach: re-checks every row, so one claimed in the meantime is skipped. */
  function AttachRows(rows: seq<Commission>, eligible: set<nat>, batchId: nat): (r: seq<Commission>)
    ensures |r| == |rows|
    ensures forall i :: 0 <= i < |rows| ==>
              r[i] == if i in eligible && Attachable(rows[i]) then rows[i].(payoutBatchId := Some(batchId)) else rows[i]
  {
    seq(|rows|, i requires 0 <= i < |rows| =>
      if i in eligible && Attachable(rows[i]) then rows[i].(payoutBatchId := Some(batchId)) else rows[i])
  }

  function SettleRows(rows: seq<Commission>, settled: seq<nat>, batchId: nat): (r: seq<Commission>)
    ensures |r| == |rows|
    ensures forall i :: 0 <= i < |rows| ==>
              r[i] == if i in settled then rows[i].(carryOverBatchId := Some(batchId)) else rows[i]
  {
    seq(|rows|, i requires 0 <= i < |rows| =>
      if i in settled then rows[i].(carryOverBatchId := Some(batchId)) else rows[i])
  }

  function AttachedTo(batchId: nat): Commission -> int {
    (r: Commission) => if r.payoutBatchId == Some(batchId) then r.amount else 0
  }

  function AttachedOf(batchId: nat, a: UserId): Commission -> int {
    (r: Commission) => if r.payoutBatchId == Some(batchId) && r.agentId == a then r.amount else 0
  }

  function DeductedIn(batchId: nat): Commission -> int {
    (r: Commission) => if r.carryOverBatchId == Some(batchId) then r.amount else 0
  }

  function AgentsIn(rows: seq<Commission>, batchId: nat): set<UserId> {
    set r | r in rows && r.payoutBatchId == Some(batchId) :: r.agentId
  }

  /** Each agent's attached earnings, one entry per agent of the batch. */
  function Earned(rows: seq<Commission>, batchId: nat): Purse {
    map a | a in AgentsIn(rows, batchId) :: SumBy(rows, AttachedOf(batchId, a))
  }

  predicate Unsettled(r: Commission) {
    r.status == REVERSED && r.reversedAfterPayout && r.carryOverBatchId.None?
  }

  /** A legal answer to the carry-over query: each unsettled reversal of the batch's
      agents once, oldest first; ties may come in any order. */
  ghost predicate ListsUnsettled(rows: seq<Commission>, agents: set<UserId>, order: seq<nat>) {
    && RowIds(rows, order) && NoDuplicates(order)
    && (forall i :: 0 <= i < |rows| ==> (i in order <==> Unsettled(rows[i]) && rows[i].agentId in agents))
    && (forall i, j :: 0 <= i < j < |order| ==> rows[order[i]].createdAt <= rows[order[j]].createdAt)
  }

  /** The reversals settled by a batch whose rows are already attached. */
  function SettledIds(rows: seq<Commission>, batchId: nat, order: seq<nat>): (settled: seq<nat>)
    requires RowIds(rows, order)
    ensures RowIds(rows, settled)
  {
    Greedy(rows, order, Earned(rows, batchId))
  }

  /** The total of a new batch: attached earnings less settled carry-over. */
  function NewTotal(rows: seq<Commission>, batchId: nat, order: seq<nat>): Cents
    requires RowIds(rows, order)
  {
    SumBy(rows, AttachedTo(batchId)) - SumIds(rows, SettledIds(rows, batchId, order))
  }

  function CreateTables(t: Tables, a: Action): Tables
    requires a.CreateBatch?
    requires RowIds(AttachRows(t.rows, a.eligible, |t.batches|), a.order)
  {
    var id := |t.batches|;
    var rows := AttachRows(t.rows, a.eligible, id);
    if AgentsIn(rows, id) == {} then t   // "No unpaid commissions in this period": rolled back
    else
      Tables(SettleRows(rows, SettledIds(rows, id, a.order), id),
             t.batches + [PayoutBatch(a.periodStart, a.periodEnd, NewTotal(rows, id, a.order), OPEN)])
  }

  // ----------------------------------------------------------- exporting and paying

  function ExportTables(t: Tables, batchId: nat): Tables {
    if batchId < |t.batches| && t.batches[batchId].status == OPEN then
      t.(batches := t.batches[batchId := t.batches[batchId].(status := EXPORTED)])
    else t
  }

  /** Mark-paid, one row: reversals that were never paid out leave the batch, the rest is paid. */
  function PayRow(r: Commission, batchId: nat): Commission {
    if r.payoutBatchId == Some(batchId) && r.status == REVERSED && !r.reversedAfterPayout then r.(payoutBatchId := None)
    else if r.payoutBatchId == Some(batchId) && r.status == EARNED then r.(status := PAID)
    else r
  }

  function PayRows(rows: seq<Commission>, batchId: nat): (r: seq<Commission>)
    ensures |r| == |rows| && forall i :: 0 <= i < |rows| ==> r[i] == PayRow(rows[i], batchId)
  {
    seq(|rows|, i requires 0 <= i < |rows| => PayRow(rows[i], batchId))
  }

  function PaidIn(batchId: nat): Commission -> int {
    (r: Commission) => if r.payoutBatchId == Some(batchId) && r.status == PAID then r.amount else 0
  }

  predicate Payable(t: Tables, batchId: nat) {
    batchId < |t.batches| && t.batches[batchId].status != SETTLED
  }

  /** The total that mark-paid stores: what is then paid, net of settled carry-over. */
  function PaidTotal(t: Tables, batchId: nat): int {
    var rows := PayRows(t.rows, batchId);
    SumBy(rows, PaidIn(batchId)) - SumBy(rows, DeductedIn(batchId))
  }

  function PayTables(t: Tables, batchId: nat): Tables {
    if Payable(t, batchId) then
      Tables(PayRows(t.rows, batchId),
             t.batches[batchId := t.batches[batchId].(status := SETTLED, totalAmount := PaidTotal(t, batchId))])
    else t
  }

  // ------------------------------------------------------------------ runs of calls

  /** The arguments a call can really have; nothing here depends on the invariant. */
  ghost predicate Enabled(t: Tables, a: Action) {
    match a
    case Accrue(added) => forall r :: r in added ==> NewRow(r)
    case CreateBatch(from, to, eligible, order) =>
      var rows := AttachRows(t.rows, eligible, |t.batches|);
      && (forall i :: i in eligible && i < |t.rows| ==> from <= t.rows[i].createdAt <= to)
      && ListsUnsettled(rows, AgentsIn(rows, |t.batches|), order)
    case _ => true
  }

  ghost function Step(t: Tables, a: Action): Tables {
    if !Enabled(t, a) then t
    else
      match a
      case Accrue(added) => t.(rows := InsertRows(t.rows, added))
      case Refund(paymentRef) => t.(rows := RefundRows(t.rows, paymentRef))
      case CreateBatch(_, _, _, _) => CreateTables(t, a)
      case Export(batchId) => ExportTables(t, batchId)
      case MarkPaid(batchId) => PayTables(t, batchId)
  }

  ghost function Run(t: Tables, actions: seq<Action>): Tables
    decreases |actions|
  {
    if actions == [] then t else Run(Step(t, actions[0]), actions[1..])
  }

  lemma {:induction false} RunAppend(t: Tables, a: seq<Action>, b: seq<Action>)
    ensures Run(t, a + b) == Run(Run(t, a), b)
    decreases |a|
  {
    if a == [] {
      assert a + b == b;
    } else {
      assert (a + b)[0] == a[0] && (a + b)[1..] == a[1..] + b;
      RunAppend(Step(t, a[0]), a[1..], b);
    }
  }
}
