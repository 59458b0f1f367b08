/** The CSV export of a payout batch: grouping into one line per agent and currency, and
    how the lines agree with what mark-paid then books. */
module PayoutCsv {
  import opened Common
  import opened SponsorGraph
  import opened Commissions
  import opened Ledger
  import opened LedgerInvariant
  import opened LedgerTheorems
  import opened CsvText

  datatype Agent = Agent(firstName: string, lastName: string, email: string, payoutReference: Option<string>)

  type Agents = UserId -> Agent

  datatype Entry = Entry(key: string, name: string, email: string, reference: string, total: Cents, currency: string)

  /** A row of the batch: a credit if it is to be paid, a debit if it is deducted. */
  datatype Item = Item(row: Commission, credit: bool)

  // ----------------------------------------------------------------------- grouping

  function Amount(i: Item): int {
    if i.credit then i.row.amount else -i.row.amount
  }

  function Key(agentId: UserId, currency: string): string {
    agentId + ":" + currency
  }

  function ItemKey(i: Item): string {
    Key(i.row.agentId, i.row.currency)
  }

  function FindKey(entries: seq<Entry>, key: string): (r: Option<nat>)
    ensures r.Some? ==> r.value < |entries| && entries[r.value].key == key
    ensures r.None? ==> forall i :: 0 <= i < |entries| ==> entries[i].key != key
  {
    if entries == [] then None
    else if entries[|entries| - 1].key == key then Some(|entries| - 1)
    else FindKey(entries[..|entries| - 1], key)
  }

  /** Adds a signed row to the line of its agent and currency, opening the line if new. */
  function AddItem(entries: seq<Entry>, i: Item, agents: Agents): seq<Entry> {
    match FindKey(entries, ItemKey(i))
    case Some(at) => entries[at := entries[at].(total := entries[at].total + Amount(i))]
    case None =>
      var a := agents(i.row.agentId);
      entries + [Entry(ItemKey(i), a.firstName + " " + a.lastName, a.email,
                       match a.payoutReference { case Some(x) => x case None => "" },
                       Amount(i), i.row.currency)]
  }

  function Group(items: seq<Item>, agents: Agents): seq<Entry> {
    if items == [] then []
    else AddItem(Group(items[..|items| - 1], agents), items[|items| - 1], agents)
  }

  function Paying(b: nat): Commission -> bool {
    (r: Commission) => r.payoutBatchId == Some(b) && r.status != REVERSED
  }

  function Deducting(b: nat): Commission -> bool {
    (r: Commission) => r.carryOverBatchId == Some(b)
  }

  function Select(rows: seq<Commission>, wanted: Commission -> bool, credit: bool): seq<Item> {
    if rows == [] then []
    else
      var n := |rows| - 1;
      var rest := Select(rows[..n], wanted, credit);
      if wanted(rows[n]) then rest + [Item(rows[n], credit)] else rest
  }

  /** The attached rows that are to be paid, then the carry-overs settled in the batch. */
  function ExportItems(rows: seq<Commission>, b: nat): seq<Item> {
    Select(rows, Paying(b), true) + Select(rows, Deducting(b), false)
  }

  function ExportEntries(rows: seq<Commission>, b: nat, agents: Agents): seq<Entry> {
    Group(ExportItems(rows, b), agents)
  }

  function LineOf(e: Entry): Line {
    Line(e.name, e.email, e.reference, e.currency, e.total)
  }

  function LinesOfEntries(entries: seq<Entry>): (lines: seq<Line>)
    ensures |lines| == |entries|
    ensures forall i :: 0 <= i < |entries| ==> lines[i] == LineOf(entries[i])
  {
    seq(|entries|, i requires 0 <= i < |entries| => LineOf(entries[i]))
  }

  /** The exported text of a batch. */
  function ExportText(rows: seq<Commission>, b: nat, agents: Agents): string {
    DocumentText(LinesOfEntries(ExportEntries(rows, b, agents)))
  }

  lemma SelectStep(rows: seq<Commission>, n: nat, wanted: Commission -> bool, credit: bool)
    requires n < |rows|
    ensures Select(rows[..n + 1], wanted, credit) ==
            if wanted(rows[n]) then Select(rows[..n], wanted, credit) + [Item(rows[n], credit)]
            else Select(rows[..n], wanted, credit)
  {
    assert rows[..n + 1][..n] == rows[..n];
  }

  method WriteText(entries: seq<Entry>) returns (text: string)
    ensures text == DocumentText(LinesOfEntries(entries))
  {
    text := HeaderText(HEADER);
    ghost var lines := LinesOfEntries(entries);
    for i := 0 to |entries|
      invariant text == DocumentText(lines[..i])
    {
      assert lines[..i + 1][..i] == lines[..i];
      text := text + "\n" + LineText(LineOf(entries[i]));
    }
    assert lines[..|lines|] == lines;
  }

  /** One more row in a selection that follows `before`. */
  lemma SelectTurn(before: seq<Item>, rows: seq<Commission>, n: nat, wanted: Commission -> bool, credit: bool)
    requires n < |rows|
    ensures before + Select(rows[..n + 1], wanted, credit) ==
            if wanted(rows[n]) then (before + Select(rows[..n], wanted, credit)) + [Item(rows[n], credit)]
            else before + Select(rows[..n], wanted, credit)
  {
    SelectStep(rows, n, wanted, credit);
  }

  method BuildEntries(rows: seq<Commission>, b: nat, agents: Agents) returns (entries: seq<Entry>)
    ensures entries == ExportEntries(rows, b, agents)
  {
    entries := AddSelected([], [], rows, Paying(b), true, agents);
    NothingBefore(Select(rows, Paying(b), true));
    entries := AddSelected(entries, Select(rows, Paying(b), true), rows, Deducting(b), false, agents);
  }

  lemma NothingBefore(items: seq<Item>)
    ensures [] + items == items
  {
  }

  /** One of the two export loops: groups the wanted rows into the lines so far. */
  method AddSelected(start: seq<Entry>, ghost before: seq<Item>, rows: seq<Commission>, wanted: Commission -> bool,
                     credit: bool, agents: Agents)
    returns (entries: seq<Entry>)
    requires start == Group(before, agents)
    ensures entries == Group(before + Select(rows, wanted, credit), agents)
  {
    entries := start;
    assert before + [] == before;
    for i := 0 to |rows|
      invariant entries == Group(before + Select(rows[..i], wanted, credit), agents)
    {
      SelectTurn(before, rows, i, wanted, credit);
      if wanted(rows[i]) {
        entries := AddItem(entries, Item(rows[i], credit), agents);
      }
    }
    assert rows[..|rows|] == rows;
  }

  // --------------------------------------------------------- grouping is a partition

  function EntrySum(entries: seq<Entry>): int {
    if entries == [] then 0 else EntrySum(entries[..|entries| - 1]) + entries[|entries| - 1].total
  }

  function ItemSum(items: seq<Item>): int {
    if items == [] then 0 else ItemSum(items[..|items| - 1]) + Amount(items[|items| - 1])
  }

  function ItemSumOf(items: seq<Item>, key: string): int {
    if items == [] then 0
    else
      var i := items[|items| - 1];
      ItemSumOf(items[..|items| - 1], key) + if ItemKey(i) == key then Amount(i) else 0
  }

  lemma {:induction false} EntrySumUpdate(entries: seq<Entry>, at: nat, e: Entry)
    requires at < |entries|
    ensures EntrySum(entries[at := e]) == EntrySum(entries) - entries[at].total + e.total
  {
    var n := |entries| - 1;
    if at < n {
      assert entries[at := e][..n] == entries[..n][at := e];
      EntrySumUpdate(entries[..n], at, e);
    } else {
      assert entries[at := e][..n] == entries[..n];
    }
  }

  lemma AddItemSum(entries: seq<Entry>, i: Item, agents: Agents)
    ensures EntrySum(AddItem(entries, i, agents)) == EntrySum(entries) + Amount(i)
  {
    match FindKey(entries, ItemKey(i))
    case Some(at) => EntrySumUpdate(entries, at, entries[at].(total := entries[at].total + Amount(i)));
    case None => assert AddItem(entries, i, agents)[..|entries|] == entries;
  }

  lemma {:induction false} GroupKeepsSum(items: seq<Item>, agents: Agents)
    ensures EntrySum(Group(items, agents)) == ItemSum(items)
  {
    if items != [] {
      var n := |items| - 1;
      GroupKeepsSum(items[..n], agents);
      AddItemSum(Group(items[..n], agents), items[n], agents);
    }
  }

  ghost predicate DistinctKeys(entries: seq<Entry>) {
    forall i, j :: 0 <= i < j < |entries| ==> entries[i].key != entries[j].key
  }

  /** One line per key, with exactly the items of that key in it, and a line for each item. */
  ghost predicate LinesOf(entries: seq<Entry>, items: seq<Item>) {
    && DistinctKeys(entries)
    && (forall e :: 0 <= e < |entries| ==> entries[e].total == ItemSumOf(items, entries[e].key))
    && (forall i :: 0 <= i < |items| ==> exists e :: 0 <= e < |entries| && entries[e].key == ItemKey(items[i]))
  }

  lemma {:induction false} GroupLines(items: seq<Item>, agents: Agents)
    ensures LinesOf(Group(items, agents), items)
  {
    if items != [] {
      var n := |items| - 1;
      GroupLines(items[..n], agents);
      AddItemLines(Group(items[..n], agents), items[..n], items[n], agents);
      assert items[..n] + [items[n]] == items;
    }
  }

  lemma {:induction false} NoItemNoSum(items: seq<Item>, key: string)
    requires forall i :: 0 <= i < |items| ==> ItemKey(items[i]) != key
    ensures ItemSumOf(items, key) == 0
  {
    if items != [] {
      NoItemNoSum(items[..|items| - 1], key);
    }
  }

  lemma AddItemLines(entries: seq<Entry>, items: seq<Item>, i: Item, agents: Agents)
    requires LinesOf(entries, items)
    ensures LinesOf(AddItem(entries, i, agents), items + [i])
  {
    var after, all := AddItem(entries, i, agents), items + [i];
    assert all[..|items|] == items;
    if FindKey(entries, ItemKey(i)).None? {
      NoItemNoSum(items, ItemKey(i));
    }
    forall k | 0 <= k < |all|
      ensures exists e :: 0 <= e < |after| && after[e].key == ItemKey(all[k])
    {
      if k < |items| {
        var e :| 0 <= e < |entries| && entries[e].key == ItemKey(items[k]);
        assert after[e].key == ItemKey(all[k]);
      } else {
        var e := match FindKey(entries, ItemKey(i)) case Some(at) => at case None => |entries|;
        assert after[e].key == ItemKey(i);
      }
    }
  }

  // -------------------------------------------------------- export agrees with payment

  /** A signed weight that picks the wanted rows. */
  function Picked(wanted: Commission -> bool, credit: bool): Commission -> int {
    (r: Commission) => if wanted(r) then Amount(Item(r, credit)) else 0
  }

  function PickedOf(wanted: Commission -> bool, credit: bool, key: string): Commission -> int {
    (r: Commission) => if wanted(r) && Key(r.agentId, r.currency) == key then Amount(Item(r, credit)) else 0
  }

  lemma {:induction false} SelectSum(rows: seq<Commission>, wanted: Commission -> bool, credit: bool)
    ensures ItemSum(Select(rows, wanted, credit)) == SumBy(rows, Picked(wanted, credit))
  {
    if rows != [] {
      var n := |rows| - 1;
      SelectSum(rows[..n], wanted, credit);
      if wanted(rows[n]) {
        assert Select(rows, wanted, credit)[..|Select(rows, wanted, credit)| - 1] == Select(rows[..n], wanted, credit);
      }
    }
  }

  lemma {:induction false} SelectSumOf(rows: seq<Commission>, wanted: Commission -> bool, credit: bool, key: string)
    ensures ItemSumOf(Select(rows, wanted, credit), key) == SumBy(rows, PickedOf(wanted, credit, key))
  {
    if rows != [] {
      var n := |rows| - 1;
      SelectSumOf(rows[..n], wanted, credit, key);
      if wanted(rows[n]) {
        assert Select(rows, wanted, credit)[..|Select(rows, wanted, credit)| - 1] == Select(rows[..n], wanted, credit);
      }
    }
  }

  lemma {:induction false} ItemSumAppend(a: seq<Item>, b: seq<Item>, key: string)
    ensures ItemSum(a + b) == ItemSum(a) + ItemSum(b)
    ensures ItemSumOf(a + b, key) == ItemSumOf(a, key) + ItemSumOf(b, key)
  {
    if b == [] {
      assert a + b == a;
    } else {
      var n := |b| - 1;
      assert (a + b)[..|a| + n] == a + b[..n];
      ItemSumAppend(a, b[..n], key);
    }
  }

  /** The lines of the export add up to exactly the total that mark-paid would store if
      it were the next call. */
  lemma ExportAgreesWithPayment(t: Tables, b: nat, agents: Agents)
    requires Inv(t) && Payable(t, b)
    ensures EntrySum(ExportEntries(t.rows, b, agents)) == PaidTotal(t, b)
  {
    GroupKeepsSum(ExportItems(t.rows, b), agents);
    ItemSumAppend(Select(t.rows, Paying(b), true), Select(t.rows, Deducting(b), false), "");
    SelectSum(t.rows, Paying(b), true);
    SelectSum(t.rows, Deducting(b), false);
    var w := CashWeight(b, EVERYBODY);
    forall i | 0 <= i < |t.rows|
      ensures w(t.rows[i]) == Picked(Paying(b), true)(t.rows[i]) + Picked(Deducting(b), false)(t.rows[i])
    {
      assert RowOk(t.rows[i], t.batches);
    }
    SumByLinear(t.rows, w, t.rows, Picked(Paying(b), true), t.rows, Picked(Deducting(b), false));
    PaidTotalIsCash(t, b);
  }

  ghost predicate ColonFree(s: string) {
    forall i :: 0 <= i < |s| ==> s[i] != ':'
  }

  /** Agent ids are uuids, so they hold no colon and the key determines its parts. */
  lemma KeyIsInjective(a: UserId, c: string, a': UserId, c': string)
    requires ColonFree(a) && ColonFree(a') && Key(a, c) == Key(a', c')
    ensures a == a' && c == c'
  {
    var k, k' := Key(a, c), Key(a', c');
    assert k[|a|] == ':' && k'[|a'|] == ':';
    assert forall i :: 0 <= i < |a| ==> k[i] == a[i];
    assert forall i :: 0 <= i < |a'| ==> k'[i] == a'[i];
    assert |a| == |a'|;
    assert a == k[..|a|] && a' == k'[..|a'|];
    assert c == k[|a| + 1..] && c' == k'[|a'| + 1..];
  }

  /** ... and line by line: what the export tells the admin to pay an agent in a currency
      is exactly the cash that mark-paid then books for that agent in that currency. */
  lemma LineAgreesWithPayment(t: Tables, b: nat, agents: Agents, e: nat, a: UserId, currency: string)
    requires Inv(t) && Payable(t, b) && e < |ExportEntries(t.rows, b, agents)|
    requires ExportEntries(t.rows, b, agents)[e].key == Key(a, currency)
    requires ColonFree(a) && forall i :: 0 <= i < |t.rows| ==> ColonFree(t.rows[i].agentId)
    ensures ExportEntries(t.rows, b, agents)[e].total == CashOfBatch(t, b, Party(Some(a), Some(currency)))
  {
    var key := Key(a, currency);
    GroupLines(ExportItems(t.rows, b), agents);
    ItemSumAppend(Select(t.rows, Paying(b), true), Select(t.rows, Deducting(b), false), key);
    SelectSumOf(t.rows, Paying(b), true, key);
    SelectSumOf(t.rows, Deducting(b), false, key);
    KeyedCash(t, b, a, currency);
  }

  lemma KeyedCash(t: Tables, b: nat, a: UserId, currency: string)
    requires Inv(t) && Payable(t, b)
    requires ColonFree(a) && forall i :: 0 <= i < |t.rows| ==> ColonFree(t.rows[i].agentId)
    ensures CashOfBatch(t, b, Party(Some(a), Some(currency))) ==
            SumBy(t.rows, PickedOf(Paying(b), true, Key(a, currency)))
            + SumBy(t.rows, PickedOf(Deducting(b), false, Key(a, currency)))
  {
    var key := Key(a, currency);
    var w := CashWeight(b, Party(Some(a), Some(currency)));
    forall i | 0 <= i < |t.rows|
      ensures w(t.rows[i]) == PickedOf(Paying(b), true, key)(t.rows[i]) + PickedOf(Deducting(b), false, key)(t.rows[i])
    {
      var r := t.rows[i];
      assert RowOk(r, t.batches);
      if Key(r.agentId, r.currency) == key {
        KeyIsInjective(r.agentId, r.currency, a, currency);
      }
    }
    SumByLinear(t.rows, w, t.rows, PickedOf(Paying(b), true, key), t.rows, PickedOf(Deducting(b), false, key));
  }

  // ------------------------------------------------------------ what each record tells

  /** The rows an export is about: those to be paid and those deducted. */
  predicate InExport(r: Commission, b: nat) {
    (r.payoutBatchId == Some(b) && r.status != REVERSED) || r.carryOverBatchId == Some(b)
  }

  /** A line about a row: its agent as the agent table has it, and its currency. */
  predicate LineFor(e: Entry, r: Commission, agents: Agents) {
    var a := agents(r.agentId);
    && e.key == r.agentId + ":" + r.currency && e.currency == r.currency
    && e.name == a.firstName + " " + a.lastName && e.email == a.email
    && e.reference == (if a.payoutReference.Some? then a.payoutReference.value else "")
  }

  ghost predicate AboutSome(e: Entry, items: seq<Item>, agents: Agents) {
    exists i :: 0 <= i < |items| && LineFor(e, items[i].row, agents)
  }

  lemma AboutOneMore(e: Entry, total: Cents, items: seq<Item>, i: Item, agents: Agents)
    ensures AboutSome(e, items, agents) ==> AboutSome(e.(total := total), items + [i], agents)
    ensures LineFor(e, i.row, agents) ==> AboutSome(e, items + [i], agents)
  {
    var all := items + [i];
    if AboutSome(e, items, agents) {
      var k :| 0 <= k < |items| && LineFor(e, items[k].row, agents);
      assert LineFor(e.(total := total), all[k].row, agents);
    }
    if LineFor(e, i.row, agents) { assert LineFor(e, all[|items|].row, agents); }
  }

  /** One more item changes one line's total, or opens a line about itself. */
  lemma AddItemShape(entries: seq<Entry>, i: Item, agents: Agents, e: nat)
    requires e < |AddItem(entries, i, agents)|
    ensures var after := AddItem(entries, i, agents);
            if e < |entries| then after[e] == entries[e].(total := after[e].total)
            else LineFor(after[e], i.row, agents)
  {
  }

  lemma {:induction false} GroupIsAbout(items: seq<Item>, agents: Agents, e: nat)
    requires e < |Group(items, agents)|
    ensures AboutSome(Group(items, agents)[e], items, agents)
    decreases |items|
  {
    var n := |items| - 1;
    var before, x := Group(items[..n], agents), Group(items, agents)[e];
    AddItemShape(before, items[n], agents, e);
    if e < |before| { GroupIsAbout(items[..n], agents, e); }
    AboutOneMore(if e < |before| then before[e] else x, x.total, items[..n], items[n], agents);
    assert items[..n] + [items[n]] == items;
  }

  ghost predicate Holds(items: seq<Item>, r: Commission) {
    exists k :: 0 <= k < |items| && items[k].row == r
  }

  lemma HoldsOneMore(items: seq<Item>, i: Item, r: Commission)
    ensures Holds(items + [i], r) <==> Holds(items, r) || i.row == r
  {
    if Holds(items, r) {
      var k :| 0 <= k < |items| && items[k].row == r;
      assert (items + [i])[k].row == r;
    }
    assert (items + [i])[|items|] == i;
  }

  /** The selected items are the wanted rows of the table. */
  lemma {:induction false} SelectHolds(rows: seq<Commission>, wanted: Commission -> bool, credit: bool, r: Commission)
    ensures Holds(Select(rows, wanted, credit), r) <==> r in rows && wanted(r)
  {
    if rows != [] {
      var n := |rows| - 1;
      SelectHolds(rows[..n], wanted, credit, r);
      HoldsOneMore(Select(rows[..n], wanted, credit), Item(rows[n], credit), r);
      assert r in rows <==> r in rows[..n] || r == rows[n];
    }
  }

  lemma ExportHolds(rows: seq<Commission>, b: nat, r: Commission)
    ensures Holds(ExportItems(rows, b), r) <==> r in rows && InExport(r, b)
  {
    var first, last := Select(rows, Paying(b), true), Select(rows, Deducting(b), false);
    SelectHolds(rows, Paying(b), true, r);
    SelectHolds(rows, Deducting(b), false, r);
    HoldsAppend(first, last, r);
  }

  lemma HoldsAppend(a: seq<Item>, b: seq<Item>, r: Commission)
    ensures Holds(a + b, r) <==> Holds(a, r) || Holds(b, r)
  {
    if Holds(a, r) {
      var k :| 0 <= k < |a| && a[k].row == r;
      assert (a + b)[k].row == r;
    }
    if Holds(b, r) {
      var k :| 0 <= k < |b| && b[k].row == r;
      assert (a + b)[|a| + k].row == r;
    }
  }

  lemma LineHasRow(rows: seq<Commission>, b: nat, agents: Agents, e: nat) returns (r: Commission)
    requires e < |ExportEntries(rows, b, agents)|
    ensures r in rows && InExport(r, b) && LineFor(ExportEntries(rows, b, agents)[e], r, agents)
  {
    var items := ExportItems(rows, b);
    GroupIsAbout(items, agents, e);
    var i :| 0 <= i < |items| && LineFor(Group(items, agents)[e], items[i].row, agents);
    r := items[i].row;
    ExportHolds(rows, b, r);
  }

  lemma RowHasLine(rows: seq<Commission>, b: nat, agents: Agents, r: Commission) returns (e: nat)
    requires r in rows && InExport(r, b)
    ensures e < |ExportEntries(rows, b, agents)|
    ensures ExportEntries(rows, b, agents)[e].key == r.agentId + ":" + r.currency
  {
    var items := ExportItems(rows, b);
    GroupLines(items, agents);
    ExportHolds(rows, b, r);
    var i :| 0 <= i < |items| && items[i].row == r;
    var k :| 0 <= k < |Group(items, agents)| && Group(items, agents)[k].key == ItemKey(items[i]);
    e := k;
  }

  /** Every exported line is about a row of the batch, with that row's agent and currency, and
      every row of the batch has its line. */
  lemma EntriesDescribeRows(rows: seq<Commission>, b: nat, agents: Agents)
    ensures var entries := ExportEntries(rows, b, agents);
            && DistinctKeys(entries)
            && (forall e :: 0 <= e < |entries| ==>
                  exists r :: r in rows && InExport(r, b) && LineFor(entries[e], r, agents))
            && (forall r :: r in rows && InExport(r, b) ==>
                  exists e :: 0 <= e < |entries| && entries[e].key == r.agentId + ":" + r.currency)
  {
    var entries := ExportEntries(rows, b, agents);
    GroupLines(ExportItems(rows, b), agents);
    forall e | 0 <= e < |entries|
      ensures exists r :: r in rows && InExport(r, b) && LineFor(entries[e], r, agents)
    {
      var r := LineHasRow(rows, b, agents, e);
    }
    forall r | r in rows && InExport(r, b)
      ensures exists e :: 0 <= e < |entries| && entries[e].key == r.agentId + ":" + r.currency
    {
      var e := RowHasLine(rows, b, agents, r);
    }
  }

  /** A field as a spreadsheet gets it: a text that could start a formula has an apostrophe in
      front of it, any other is unchanged. */
  predicate Shown(field: string, text: string) {
    field == if text != "" && text[0] in {'=', '+', '-', '@', '\t', '\r'} then "'" + text else text
  }

  /** A record that tells the admin what to pay a row's agent in the row's currency: name, mail
      address, payout reference and currency, in this order, and the cash that mark-paid
      would book. */
  predicate Tells(fields: seq<string>, t: Tables, b: nat, agents: Agents, r: Commission) {
    var a := agents(r.agentId);
    && |fields| == 5
    && Shown(fields[0], a.firstName + " " + a.lastName)
    && Shown(fields[1], a.email)
    && Shown(fields[2], if a.payoutReference.Some? then a.payoutReference.value else "")
    && Shown(fields[3], r.currency)
    && ReadTotal(fields[4]) == CashOfBatch(t, b, Party(Some(r.agentId), Some(r.currency)))
  }

  lemma LineTells(t: Tables, b: nat, agents: Agents, e: nat, r: Commission)
    requires Inv(t) && Payable(t, b) && e < |ExportEntries(t.rows, b, agents)|
    requires forall i :: 0 <= i < |t.rows| ==> ColonFree(t.rows[i].agentId)
    requires r in t.rows && LineFor(ExportEntries(t.rows, b, agents)[e], r, agents)
    ensures Tells(LineFields(LineOf(ExportEntries(t.rows, b, agents)[e])), t, b, agents, r)
  {
    var entry := ExportEntries(t.rows, b, agents)[e];
    LineAgreesWithPayment(t, b, agents, e, r.agentId, r.currency);
    TotalReadsBack(entry.total);
  }

  lemma LineOfKey(t: Tables, b: nat, agents: Agents, e: nat, r: Commission)
    requires forall i :: 0 <= i < |t.rows| ==> ColonFree(t.rows[i].agentId)
    requires e < |ExportEntries(t.rows, b, agents)| && r in t.rows
    requires ExportEntries(t.rows, b, agents)[e].key == r.agentId + ":" + r.currency
    ensures LineFor(ExportEntries(t.rows, b, agents)[e], r, agents)
  {
    var s := LineHasRow(t.rows, b, agents, e);
    KeyIsInjective(s.agentId, s.currency, r.agentId, r.currency);
  }

  /** What the k-th line tells, and whom the line of a row tells of. */
  lemma RecordTells(t: Tables, b: nat, agents: Agents, k: nat) returns (r: Commission)
    requires Inv(t) && Payable(t, b) && forall i :: 0 <= i < |t.rows| ==> ColonFree(t.rows[i].agentId)
    requires k < |ExportEntries(t.rows, b, agents)|
    ensures r in t.rows && InExport(r, b)
    ensures Tells(LineFields(LineOf(ExportEntries(t.rows, b, agents)[k])), t, b, agents, r)
  {
    r := LineHasRow(t.rows, b, agents, k);
    LineTells(t, b, agents, k, r);
  }

  lemma RowIsTold(t: Tables, b: nat, agents: Agents, r: Commission) returns (e: nat)
    requires Inv(t) && Payable(t, b) && forall i :: 0 <= i < |t.rows| ==> ColonFree(t.rows[i].agentId)
    requires r in t.rows && InExport(r, b)
    ensures e < |ExportEntries(t.rows, b, agents)|
    ensures Tells(LineFields(LineOf(ExportEntries(t.rows, b, agents)[e])), t, b, agents, r)
  {
    e := RowHasLine(t.rows, b, agents, r);
    LineOfKey(t, b, agents, e, r);
    LineTells(t, b, agents, e, r);
  }

  /** The records are the header and then the fields of the lines, in order. */
  ghost predicate RecordsAre(records: seq<seq<string>>, entries: seq<Entry>) {
    && |records| == |entries| + 1
    && records[0] == ["Agent", "Email", "IBAN/Reference", "Currency", "Total"]
    && forall k :: 0 <= k < |entries| ==> records[k + 1] == LineFields(LineOf(entries[k]))
  }

  lemma RecordsOfExport(rows: seq<Commission>, b: nat, agents: Agents)
    ensures ReadCsv(ExportText(rows, b, agents)).Some?
    ensures RecordsAre(ReadCsv(ExportText(rows, b, agents)).value, ExportEntries(rows, b, agents))
  {
    var lines := LinesOfEntries(ExportEntries(rows, b, agents));
    CsvRoundTrip(lines);
    RecordsAreTheLines(lines);
  }

  ghost predicate TellsOfRow(fields: seq<string>, t: Tables, b: nat, agents: Agents) {
    exists r :: r in t.rows && InExport(r, b) && Tells(fields, t, b, agents, r)
  }

  ghost predicate IsTold(records: seq<seq<string>>, t: Tables, b: nat, agents: Agents, r: Commission) {
    exists k :: 1 <= k < |records| && Tells(records[k], t, b, agents, r)
  }

  lemma EachTells(t: Tables, b: nat, agents: Agents, fields: seq<string>, k: nat)
    requires Inv(t) && Payable(t, b) && forall i :: 0 <= i < |t.rows| ==> ColonFree(t.rows[i].agentId)
    requires k < |ExportEntries(t.rows, b, agents)|
    requires fields == LineFields(LineOf(ExportEntries(t.rows, b, agents)[k]))
    ensures TellsOfRow(fields, t, b, agents)
  {
    var r := RecordTells(t, b, agents, k);
  }

  lemma EachIsTold(t: Tables, b: nat, agents: Agents, records: seq<seq<string>>, r: Commission)
    requires Inv(t) && Payable(t, b) && forall i :: 0 <= i < |t.rows| ==> ColonFree(t.rows[i].agentId)
    requires RecordsAre(records, ExportEntries(t.rows, b, agents)) && r in t.rows && InExport(r, b)
    ensures IsTold(records, t, b, agents, r)
  {
    var e := RowIsTold(t, b, agents, r);
    assert records[e + 1] == LineFields(LineOf(ExportEntries(t.rows, b, agents)[e]));
  }

  /** Each record after the header tells of a row of the batch, and each such row is told of. */
  ghost predicate AllTell(records: seq<seq<string>>, t: Tables, b: nat, agents: Agents) {
    && (forall k :: 1 <= k < |records| ==> TellsOfRow(records[k], t, b, agents))
    && (forall r :: r in t.rows && InExport(r, b) ==> IsTold(records, t, b, agents, r))
  }

  lemma RecordsTell(t: Tables, b: nat, agents: Agents, records: seq<seq<string>>)
    requires Inv(t) && Payable(t, b) && forall i :: 0 <= i < |t.rows| ==> ColonFree(t.rows[i].agentId)
    requires RecordsAre(records, ExportEntries(t.rows, b, agents))
    ensures AllTell(records, t, b, agents)
  {
    forall k | 1 <= k < |records|
      ensures TellsOfRow(records[k], t, b, agents)
    {
      assert records[k - 1 + 1] == LineFields(LineOf(ExportEntries(t.rows, b, agents)[k - 1]));
      EachTells(t, b, agents, records[k], k - 1);
    }
    forall r | r in t.rows && InExport(r, b)
      ensures IsTold(records, t, b, agents, r)
    {
      EachIsTold(t, b, agents, records, r);
    }
  }

  /** From the text back to the money: the exported text reads back as the header and records
      that each tell a row's agent what mark-paid would book for the agent in that currency;
      every row of the batch is told of, and there is one record per agent and currency. */
  lemma RecordsTellThePayment(t: Tables, b: nat, agents: Agents)
    requires Inv(t) && Payable(t, b) && forall i :: 0 <= i < |t.rows| ==> ColonFree(t.rows[i].agentId)
    ensures var read, entries := ReadCsv(ExportText(t.rows, b, agents)), ExportEntries(t.rows, b, agents);
            && read.Some? && |read.value| == |entries| + 1 && DistinctKeys(entries)
            && read.value[0] == ["Agent", "Email", "IBAN/Reference", "Currency", "Total"]
            && AllTell(read.value, t, b, agents)
  {
    RecordsOfExport(t.rows, b, agents);
    GroupLines(ExportItems(t.rows, b), agents);
    RecordsTell(t, b, agents, ReadCsv(ExportText(t.rows, b, agents)).value);
  }
}
