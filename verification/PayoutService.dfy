/** The commission service: refunds, payout batches and balances over the two tables,
    each method proved equal to one step of the ledger. */
module PayoutService {
  import opened Common
  import opened SponsorGraph
  import opened Commissions
  import opened CommissionEngine
  import opened CarryOver
  import opened Ledger
  import opened LedgerInvariant
  import opened LedgerTheorems
  import opened CsvText
  import opened PayoutCsv

  // ------------------------------------------------------- sums by agent add up

  function EarnedPart(rows: seq<Commission>, b: nat): UserId -> int {
    (a: UserId) => SumBy(rows, AttachedOf(b, a))
  }

  function PartOf(x: int, owner: UserId): UserId -> int {
    (a: UserId) => if a == owner then x else 0
  }

  lemma {:induction false} SumOverPartOf(agents: seq<UserId>, x: int, owner: UserId)
    requires NoDuplicates(agents)
    ensures SumOver(agents, PartOf(x, owner)) == if owner in agents then x else 0
  {
    if agents != [] {
      SumOverPartOf(agents[..|agents| - 1], x, owner);
    }
  }

  lemma {:induction false} SumOverZero(agents: seq<UserId>, f: UserId -> int)
    requires forall a :: a in agents ==> f(a) == 0
    ensures SumOver(agents, f) == 0
  {
    if agents != [] {
      SumOverZero(agents[..|agents| - 1], f);
    }
  }

  /** The per-agent totals of a batch add up to the sum of its rows. */
  lemma {:induction false} AgentsAddUp(rows: seq<Commission>, b: nat, agents: seq<UserId>)
    requires NoDuplicates(agents)
    requires forall i :: 0 <= i < |rows| && rows[i].payoutBatchId == Some(b) ==> rows[i].agentId in agents
    ensures SumOver(agents, EarnedPart(rows, b)) == SumBy(rows, AttachedTo(b))
  {
    if rows == [] {
      SumOverZero(agents, EarnedPart(rows, b));
    } else {
      var n := |rows| - 1;
      var r := rows[n];
      AgentsAddUp(rows[..n], b, agents);
      var here := PartOf(AttachedTo(b)(r), r.agentId);
      SumOverLinear(agents, EarnedPart(rows, b), EarnedPart(rows[..n], b), here);
      SumOverPartOf(agents, AttachedTo(b)(r), r.agentId);
    }
  }

  function SettledPart(rows: seq<Commission>, ids: seq<nat>): UserId -> int
    requires RowIds(rows, ids)
  {
    (a: UserId) => SumIdsOf(rows, ids, a)
  }

  lemma {:induction false} SettledAddsUp(rows: seq<Commission>, ids: seq<nat>, agents: seq<UserId>)
    requires RowIds(rows, ids) && NoDuplicates(agents)
    requires forall i :: 0 <= i < |ids| ==> rows[ids[i]].agentId in agents
    ensures SumOver(agents, SettledPart(rows, ids)) == SumIds(rows, ids)
  {
    if ids == [] {
      SumOverZero(agents, SettledPart(rows, ids));
    } else {
      var c := rows[ids[0]];
      SettledAddsUp(rows, ids[1..], agents);
      SumOverLinear(agents, SettledPart(rows, ids), SettledPart(rows, ids[1..]), PartOf(c.amount, c.agentId));
      SumOverPartOf(agents, c.amount, c.agentId);
    }
  }

  lemma {:induction false} SumOverOrdered(agents: seq<UserId>, f: UserId -> int, g: UserId -> int)
    requires forall a :: a in agents ==> f(a) <= g(a)
    ensures SumOver(agents, f) <= SumOver(agents, g)
  {
    if agents != [] {
      SumOverOrdered(agents[..|agents| - 1], f, g);
    }
  }

  lemma ListAgents(agents: set<UserId>) returns (list: seq<UserId>)
    ensures NoDuplicates(list) && forall a :: a in list <==> a in agents
  {
    list := [];
    var rest := agents;
    while rest != {}
      invariant NoDuplicates(list) && forall a :: a in list <==> a in agents && a !in rest
      invariant rest <= agents
    {
      var a :| a in rest;
      list := list + [a];
      rest := rest - {a};
    }
  }

  /** What the batch takes from its agents is at most what it brings them. */
  lemma MembersAreCovered(t: Tables, a: Action, agents: seq<UserId>)
    requires Inv(t) && a.CreateBatch? && Enabled(t, a)
    requires var rows := AttachRows(t.rows, a.eligible, |t.batches|);
             forall g :: g in agents ==> g in AgentsIn(rows, |t.batches|)
    ensures var rows := AttachRows(t.rows, a.eligible, |t.batches|);
            SumOver(agents, SettledPart(rows, SettledIds(rows, |t.batches|, a.order)))
            <= SumOver(agents, EarnedPart(rows, |t.batches|))
  {
    var id := |t.batches|;
    var rows := AttachRows(t.rows, a.eligible, id);
    var f, g := SettledPart(rows, SettledIds(rows, id, a.order)), EarnedPart(rows, id);
    forall agent | agent in agents
      ensures f(agent) <= g(agent)
    {
      SettlementIsSafeAndMaximal(t, a, agent);
    }
    SumOverOrdered(agents, f, g);
  }

  lemma AttachedAreMembers(rows: seq<Commission>, b: nat)
    ensures forall i :: 0 <= i < |rows| && rows[i].payoutBatchId == Some(b) ==> rows[i].agentId in AgentsIn(rows, b)
  {
    forall i | 0 <= i < |rows| && rows[i].payoutBatchId == Some(b)
      ensures rows[i].agentId in AgentsIn(rows, b)
    {
      assert rows[i] in rows;
    }
  }

  lemma SettledAreMembers(rows: seq<Commission>, b: nat, order: seq<nat>)
    requires ListsUnsettled(rows, AgentsIn(rows, b), order)
    ensures var settled := SettledIds(rows, b, order);
            forall i :: 0 <= i < |settled| ==> rows[settled[i]].agentId in AgentsIn(rows, b)
  {
    var settled := SettledIds(rows, b, order);
    GreedyPicksFromOrder(rows, order, Earned(rows, b));
    forall i | 0 <= i < |settled|
      ensures rows[settled[i]].agentId in AgentsIn(rows, b)
    {
      assert settled[i] in order;
    }
  }

  lemma NewTotalNonNegative(t: Tables, a: Action)
    requires Inv(t) && a.CreateBatch? && Enabled(t, a)
    ensures NewTotal(AttachRows(t.rows, a.eligible, |t.batches|), |t.batches|, a.order) >= 0
  {
    var id := |t.batches|;
    var rows := AttachRows(t.rows, a.eligible, id);
    var agents := ListAgents(AgentsIn(rows, id));
    var settled := SettledIds(rows, id, a.order);
    AttachedAreMembers(rows, id);
    SettledAreMembers(rows, id, a.order);
    SettledAddsUp(rows, settled, agents);
    AgentsAddUp(rows, id, agents);
    MembersAreCovered(t, a, agents);
  }

  /** A batch total is never negative when the batch is created. */
  lemma CreationTotalNonNegative(t: Tables, a: Action)
    requires Inv(t) && a.CreateBatch? && Enabled(t, a)
    ensures CreateTables(t, a) != t ==> CreateTables(t, a).batches[|t.batches|].totalAmount >= 0
  {
    NewTotalNonNegative(t, a);
  }

  /** It can turn negative later, at mark-paid, and exactly when rows worth more than the
      stored total were reversed after the batch was created. */
  lemma PaidTotalNegativeIff(t: Tables, b: nat)
    requires Inv(t) && Payable(t, b)
    ensures PayTables(t, b).batches[b].totalAmount < 0 <==> SumBy(t.rows, DetachedWeight(b)) > t.batches[b].totalAmount
  {
    PaidTotalDropsReversals(t, b);
  }

  // ------------------------------------------------------------------- the service

  /** A GROUP BY over the rows: which rows, by what key, and what is summed. */
  datatype Grouping = Grouping(wanted: Commission -> bool, key: Commission -> string, amount: Commission -> int)

  function TallyRow(purse: Purse, r: Commission, g: Grouping): Purse {
    if g.wanted(r) then purse[g.key(r) := InPurse(purse, g.key(r)) + g.amount(r)] else purse
  }

  /** The groups as they are built, one row after another. */
  function Tally(rows: seq<Commission>, g: Grouping): Purse {
    if rows == [] then map[] else TallyRow(Tally(rows[..|rows| - 1], g), rows[|rows| - 1], g)
  }

  function KeyWeight(g: Grouping, k: string): Commission -> int {
    (r: Commission) => if g.wanted(r) && g.key(r) == k then g.amount(r) else 0
  }

  ghost predicate HasGroup(rows: seq<Commission>, g: Grouping, k: string) {
    exists i :: 0 <= i < |rows| && g.wanted(rows[i]) && g.key(rows[i]) == k
  }

  lemma {:induction false} TallyAt(rows: seq<Commission>, g: Grouping, k: string)
    ensures k in Tally(rows, g) <==> HasGroup(rows, g, k)
    ensures InPurse(Tally(rows, g), k) == SumBy(rows, KeyWeight(g, k))
  {
    if rows != [] {
      var n := |rows| - 1;
      TallyAt(rows[..n], g, k);
      if HasGroup(rows[..n], g, k) {
        var i :| 0 <= i < n && g.wanted(rows[..n][i]) && g.key(rows[..n][i]) == k;
        assert rows[i] == rows[..n][i];
      }
    }
  }

  function ByAgent(b: nat): Grouping {
    Grouping((r: Commission) => r.payoutBatchId == Some(b), (r: Commission) => r.agentId, (r: Commission) => r.amount)
  }

  function ByMonth(agent: UserId, month: int -> string): Grouping {
    Grouping((r: Commission) => r.agentId == agent, (r: Commission) => month(r.createdAt),
             (r: Commission) => if r.status == REVERSED then 0 else r.amount)
  }

  lemma AgentHasGroup(rows: seq<Commission>, b: nat, a: UserId)
    ensures a in AgentsIn(rows, b) <==> HasGroup(rows, ByAgent(b), a)
  {
    if a in AgentsIn(rows, b) {
      var r :| r in rows && r.payoutBatchId == Some(b) && r.agentId == a;
      var i :| 0 <= i < |rows| && rows[i] == r;
      assert ByAgent(b).wanted(rows[i]) && ByAgent(b).key(rows[i]) == a;
    }
    if HasGroup(rows, ByAgent(b), a) {
      var i :| 0 <= i < |rows| && ByAgent(b).wanted(rows[i]) && ByAgent(b).key(rows[i]) == a;
      assert rows[i] in rows;
    }
  }

  lemma PursesAgree(p: Purse, q: Purse)
    requires p.Keys == q.Keys && forall a :: a in p.Keys ==> p[a] == q[a]
    ensures p == q
  {
  }

  /** Grouping by agent gives each agent of the batch the sum of the attached rows. */
  lemma TallyIsEarned(rows: seq<Commission>, b: nat)
    ensures Tally(rows, ByAgent(b)) == Earned(rows, b)
  {
    var p, q := Tally(rows, ByAgent(b)), Earned(rows, b);
    forall a
      ensures a in p.Keys <==> a in q.Keys
      ensures a in p.Keys ==> p[a] == q[a]
    {
      TallyAt(rows, ByAgent(b), a);
      AgentHasGroup(rows, b, a);
      SumByEqual(rows, KeyWeight(ByAgent(b), a), rows, AttachedOf(b, a));
    }
    PursesAgree(p, q);
  }

  predicate InMonth(r: Commission, agent: UserId, month: int -> string, m: string) {
    r.agentId == agent && month(r.createdAt) == m
  }

  /** What a row adds to an agent's credit in a month: nothing once it is reversed. */
  function CreditWeight(agent: UserId, month: int -> string, m: string): Commission -> int {
    (r: Commission) => if InMonth(r, agent, month, m) && r.status != REVERSED then r.amount else 0
  }

  lemma MonthlyAt(rows: seq<Commission>, agent: UserId, month: int -> string, m: string)
    ensures m in Tally(rows, ByMonth(agent, month)) <==>
              exists i :: 0 <= i < |rows| && InMonth(rows[i], agent, month, m)
    ensures InPurse(Tally(rows, ByMonth(agent, month)), m) == SumBy(rows, CreditWeight(agent, month, m))
  {
    var g := ByMonth(agent, month);
    TallyAt(rows, g, m);
    forall i | 0 <= i < |rows|
      ensures g.wanted(rows[i]) && g.key(rows[i]) == m <==> InMonth(rows[i], agent, month, m)
    {
    }
    SumByEqual(rows, KeyWeight(g, m), rows, CreditWeight(agent, month, m));
  }

  /** Every row of an agent is shown in one balance, or is reversed: nothing is counted twice
      and nothing that is not reversed is left out. */
  lemma RowsShownOnce(rows: seq<Commission>, agent: UserId)
    ensures SumBy(rows, EarnedWeight(agent)) + SumBy(rows, PaidWeight(agent))
            == SumBy(rows, (r: Commission) => if r.agentId == agent && r.status != REVERSED then r.amount else 0)
  {
    SumByLinear(rows, (r: Commission) => if r.agentId == agent && r.status != REVERSED then r.amount else 0,
                rows, EarnedWeight(agent), rows, PaidWeight(agent));
  }

  function MonthCredit(rows: seq<Commission>, agent: UserId, month: int -> string): string -> int {
    (m: string) => SumBy(rows, CreditWeight(agent, month, m))
  }

  /** The credits of all months in which the agent has rows add up to the all-time figure. */
  lemma {:induction false} MonthsAddUp(rows: seq<Commission>, agent: UserId, month: int -> string, months: seq<string>)
    requires NoDuplicates(months)
    requires forall i :: 0 <= i < |rows| && rows[i].agentId == agent ==> month(rows[i].createdAt) in months
    ensures SumOver(months, MonthCredit(rows, agent, month))
            == SumBy(rows, EarnedWeight(agent)) + SumBy(rows, PaidWeight(agent))
  {
    if rows == [] {
      SumOverZero(months, MonthCredit(rows, agent, month));
    } else {
      var n := |rows| - 1;
      var r := rows[n];
      var x := EarnedWeight(agent)(r) + PaidWeight(agent)(r);
      MonthsAddUp(rows[..n], agent, month, months);
      SumOverLinear(months, MonthCredit(rows, agent, month), MonthCredit(rows[..n], agent, month),
                    PartOf(x, month(r.createdAt)));
      SumOverPartOf(months, x, month(r.createdAt));
    }
  }

  ghost predicate OldestFirst(rows: seq<Commission>, order: seq<nat>) {
    && RowIds(rows, order)
    && forall i, j :: 0 <= i < j < |order| ==> rows[order[i]].createdAt <= rows[order[j]].createdAt
  }

  lemma InsertOldestFirst(rows: seq<Commission>, order: seq<nat>, n: nat, at: nat)
    requires n < |rows| && OldestFirst(rows, order) && at <= |order|
    requires at > 0 ==> rows[order[at - 1]].createdAt <= rows[n].createdAt
    requires forall k :: at <= k < |order| ==> rows[order[k]].createdAt > rows[n].createdAt
    ensures OldestFirst(rows, order[..at] + [n] + order[at..])
  {
    forall i | 0 <= i < at
      ensures rows[order[i]].createdAt <= rows[n].createdAt
    {
      assert i < at - 1 ==> rows[order[i]].createdAt <= rows[order[at - 1]].createdAt;
    }
  }

  /** A row that does not qualify leaves the listing as it is. */
  lemma OtherRowUnlisted(rows: seq<Commission>, agents: set<UserId>, order: seq<nat>, n: nat)
    requires n < |rows| && ListsUnsettled(rows[..n], agents, order)
    ensures !(Unsettled(rows[n]) && rows[n].agentId in agents) ==> ListsUnsettled(rows[..n + 1], agents, order)
  {
    forall i | 0 <= i < |order|
      ensures order[i] < n && rows[..n + 1][order[i]] == rows[..n][order[i]]
    {
    }
    forall i | 0 <= i < n
      ensures rows[..n + 1][i] == rows[..n][i]
    {
    }
  }

  lemma InsertListed(rows: seq<Commission>, agents: set<UserId>, order: seq<nat>, n: nat, at: nat)
    requires n < |rows| && ListsUnsettled(rows[..n], agents, order) && at <= |order|
    requires Unsettled(rows[n]) && rows[n].agentId in agents
    requires at > 0 ==> rows[order[at - 1]].createdAt <= rows[n].createdAt
    requires forall k :: at <= k < |order| ==> rows[order[k]].createdAt > rows[n].createdAt
    ensures ListsUnsettled(rows[..n + 1], agents, order[..at] + [n] + order[at..])
  {
    var upTo := rows[..n + 1];
    forall k | 0 <= k < |order|
      ensures order[k] < n && upTo[order[k]] == rows[..n][order[k]]
    {
    }
    InsertOldestFirst(upTo, order, n, at);
    var o := order[..at] + [n] + order[at..];
    forall i | 0 <= i < |upTo|
      ensures i in o <==> Unsettled(upTo[i]) && upTo[i].agentId in agents
    {
      assert i < n ==> upTo[i] == rows[..n][i];
    }
  }

  lemma {:induction false} SumIdsAppend(rows: seq<Commission>, ids: seq<nat>, id: nat)
    requires RowIds(rows, ids) && id < |rows|
    ensures SumIds(rows, ids + [id]) == SumIds(rows, ids) + rows[id].amount
  {
    if ids != [] {
      assert (ids + [id])[1..] == ids[1..] + [id];
      SumIdsAppend(rows, ids[1..], id);
    }
  }

  /** One turn of the settlement loop, with `settled` already taken. */
  lemma GreedyStep(rows: seq<Commission>, order: seq<nat>, i: nat, settled: seq<nat>, purse: Purse)
    requires i < |order| && RowIds(rows, order[i..])
    ensures order[i] < |rows| && RowIds(rows, order[i + 1..])
    ensures var c := rows[order[i]];
            var left := InPurse(purse, c.agentId);
            settled + Greedy(rows, order[i..], purse) ==
            if c.amount <= left then
              (settled + [order[i]]) + Greedy(rows, order[i + 1..], purse[c.agentId := left - c.amount])
            else settled + Greedy(rows, order[i + 1..], purse)
  {
    var rest := order[i..];
    assert rest[0] == order[i] && rest[1..] == order[i + 1..];
    forall k | 0 <= k < |rest[1..]| ensures rest[1..][k] < |rows| { assert rest[k + 1] < |rows|; }
  }

  lemma CreationIsEnabled(t: Tables, from: int, to: int, eligible: set<nat>, order: seq<nat>)
    requires forall i :: i in eligible && i < |t.rows| ==> from <= t.rows[i].createdAt <= to
    requires var rows := AttachRows(t.rows, eligible, |t.batches|);
             ListsUnsettled(rows, AgentsIn(rows, |t.batches|), order)
    ensures Enabled(t, CreateBatch(from, to, eligible, order))
  {
  }

  /** A batch creation changes nothing, or adds one batch if there is a row to attach. */
  lemma CreationAddsBatch(t: Tables, a: Action)
    requires Inv(t) && a.CreateBatch? && RowIds(AttachRows(t.rows, a.eligible, |t.batches|), a.order)
    ensures var none := forall i :: i in a.eligible && i < |t.rows| ==> !Attachable(t.rows[i]);
            && (none <==> AgentsIn(AttachRows(t.rows, a.eligible, |t.batches|), |t.batches|) == {})
            && (if none then CreateTables(t, a) == t else |CreateTables(t, a).batches| == |t.batches| + 1)
  {
    NoRowAhead(t);
    AttachedExist(t.rows, a.eligible, |t.batches|);
  }

  /** A batch creation that goes through adds one open batch, and attaches exactly the offered rows
      that can be. */
  lemma CreationAttaches(t: Tables, a: Action)
    requires Inv(t) && a.CreateBatch? && Enabled(t, a)
    requires exists i :: i in a.eligible && i < |t.rows| && Attachable(t.rows[i])
    ensures var u, id := Step(t, a), |t.batches|;
            && |u.rows| == |t.rows| && |u.batches| == id + 1
            && u.batches == t.batches + [PayoutBatch(a.periodStart, a.periodEnd, u.batches[id].totalAmount, OPEN)]
            && forall i :: 0 <= i < |t.rows| ==>
                 (u.rows[i].payoutBatchId == Some(id) <==> i in a.eligible && Attachable(t.rows[i]))
  {
    CreationWrites(t, a);
    NoRowAhead(t);
    var u, id := Step(t, a), |t.batches|;
    assert u.batches == u.batches[..id] + [u.batches[id]];
  }

  /** Mark-paid, row by row: what is earned in the batch is paid, what was reversed before its
      payout leaves it, and every other row stays as it is. */
  predicate PaidOrDropped(r: Commission, s: Commission, b: nat) {
    if r.payoutBatchId != Some(b) then s == r
    else
      match r.status
      case EARNED => s == r.(status := PAID)
      case PAID => s == r
      case REVERSED => s == if r.reversedAfterPayout then r else r.(payoutBatchId := None)
  }

  predicate Detaches(r: Commission, b: nat) {
    r.payoutBatchId == Some(b) && r.status == REVERSED && !r.reversedAfterPayout
  }

  /** The ids of the rows that a batch over the period may take. */
  ghost predicate FoundIn(rows: seq<Commission>, periodStart: int, periodEnd: int, eligible: set<nat>) {
    forall i: nat :: i in eligible <==>
      i < |rows| && Attachable(rows[i]) && periodStart <= rows[i].createdAt <= periodEnd
  }

  /** A row to be paid out for a period: earned, in no batch yet, created from its first to its last
      instant. */
  predicate Due(r: Commission, periodStart: int, periodEnd: int) {
    r.status == EARNED && r.payoutBatchId == None && r.createdAt >= periodStart && r.createdAt <= periodEnd
  }

  datatype PayoutError = NothingToPay | BatchNotFound | AlreadyPaid

  class CommissionService {
    var commissions: seq<Commission>
    var batches: seq<PayoutBatch>
    const engine: CommissionEngine

    ghost function View(): Tables
      reads this
    {
      Tables(commissions, batches)
    }

    ghost predicate Valid()
      reads this
    {
      Inv(View())
    }

    constructor (engine: CommissionEngine)
      ensures Valid() && View() == EMPTY && this.engine == engine
    {
      commissions, batches := [], [];
      this.engine := engine;
      new;
      ReachableInv([]);
    }

    /** One confirmed payment: computes the rows and inserts them. Once a payment has rows
        the call changes nothing. */
    method ProcessPaymentCommissions(p: Payment, c: Context) returns (count: nat)
      requires Valid() && PlanOk(c.plan)
      modifies this`commissions, engine.qualification
      ensures Valid()
      ensures var added := EngineRows(old(commissions), old(engine.qualification.snapshots), p, c);
              && View() == Step(old(View()), Accrue(added))
              && commissions == old(commissions) + added && count == |added|
      ensures AlreadyProcessed(old(commissions), p.paymentRef) ==> commissions == old(commissions)
      ensures EngineSnapshots(old(commissions), old(engine.qualification.snapshots), engine.qualification.snapshots,
                              p, c)
    {
      EngineInsertsExactly(commissions, engine.qualification.snapshots, p, c);
      var added := engine.ProcessPayment(commissions, p, c);
      if added == [] {
        return 0;
      }
      var before := |commissions|;
      StepKeepsInv(View(), Accrue(added));
      commissions := InsertRows(commissions, added);
      count := |commissions| - before;
    }

    /** The loop over the payment's rows. */
    method ReverseRows(paymentRef: string) returns (reversed: nat)
      modifies this`commissions
      ensures |commissions| == |old(commissions)|
      ensures forall k :: 0 <= k < |commissions| ==> commissions[k] == RefundRow(old(commissions)[k], paymentRef)
      ensures reversed == |set i | 0 <= i < |old(commissions)| && old(commissions)[i].paymentRef == paymentRef
                                   && old(commissions)[i].status != REVERSED|
    {
      reversed := 0;
      ghost var rows := commissions;
      ghost var touched: set<int> := {};
      for i := 0 to |commissions|
        invariant |commissions| == |rows|
        invariant forall k :: 0 <= k < |rows| ==>
                    commissions[k] == if k < i then RefundRow(rows[k], paymentRef) else rows[k]
        invariant touched == set k | 0 <= k < i && rows[k].paymentRef == paymentRef && rows[k].status != REVERSED
        invariant reversed == |touched|
      {
        var row := commissions[i];
        if row.paymentRef == paymentRef && row.status != REVERSED {
          commissions := commissions[i := row.(status := REVERSED, reversedAfterPayout := row.status == PAID)];
          reversed := reversed + 1;
          touched := touched + {i};
        }
      }
    }

    /** A refund: every linked row that is not reversed yet becomes REVERSED, flagged if it
        had been paid. */
    method ReverseCommissionsForPayment(paymentRef: string) returns (reversed: nat)
      requires Valid()
      modifies this`commissions
      ensures Valid()
      ensures View() == Step(old(View()), Refund(paymentRef))
      ensures reversed == |set i | 0 <= i < |old(commissions)| && old(commissions)[i].paymentRef == paymentRef
                                   && old(commissions)[i].status != REVERSED|
      ensures forall r :: r in commissions && r.paymentRef == paymentRef ==> r.status == REVERSED
      ensures |commissions| == |old(commissions)| && batches == old(batches)
      ensures forall k :: 0 <= k < |commissions| ==>
                var row := old(commissions)[k];
                commissions[k] == if row.paymentRef != paymentRef || row.status == REVERSED then row
                                  else row.(status := REVERSED, reversedAfterPayout := row.status == PAID)
    {
      StepKeepsInv(View(), Refund(paymentRef));
      reversed := ReverseRows(paymentRef);
      assert commissions == RefundRows(old(commissions), paymentRef);
    }

    /** The read of batch creation: all rows that are earned, in no batch yet and created in
        the period, and no others. With no call in between, the attach takes every one of
        them into the batch. */
    method FindEligible(periodStart: int, periodEnd: int) returns (eligible: set<nat>)
      ensures FoundIn(commissions, periodStart, periodEnd, eligible)
      ensures forall b: nat, i: nat :: i < |commissions| ==>
                (i in eligible <==> AttachRows(commissions, eligible, b)[i] != commissions[i])
    {
      eligible := {};
      for i := 0 to |commissions|
        invariant FoundIn(commissions[..i], periodStart, periodEnd, eligible)
      {
        var row := commissions[i];
        if row.status == EARNED && row.payoutBatchId.None? && periodStart <= row.createdAt
           && row.createdAt <= periodEnd {
          eligible := eligible + {i};
        }
      }
      assert commissions[..|commissions|] == commissions;
    }

    /** Rows of the batch, grouped: the agents in order of appearance and their sums. */
    method GroupByAgent(batchId: nat) returns (agents: seq<UserId>, earned: Purse)
      ensures NoDuplicates(agents) && forall a :: a in agents <==> a in AgentsIn(commissions, batchId)
      ensures earned == Earned(commissions, batchId)
    {
      agents, earned := [], map[];
      for i := 0 to |commissions|
        invariant NoDuplicates(agents) && forall a :: a in agents <==> a in earned.Keys
        invariant earned == Tally(commissions[..i], ByAgent(batchId))
      {
        assert commissions[..i + 1][..i] == commissions[..i];
        var row := commissions[i];
        if row.payoutBatchId == Some(batchId) {
          agents := if row.agentId in earned then agents else agents + [row.agentId];
          earned := earned[row.agentId := InPurse(earned, row.agentId) + row.amount];
        }
      }
      assert commissions[..|commissions|] == commissions;
      TallyIsEarned(commissions, batchId);
      assert earned.Keys == AgentsIn(commissions, batchId);
    }

    /** The carry-over query: unsettled reversals of the given agents, oldest first. */
    method FindCarryOvers(agents: set<UserId>) returns (order: seq<nat>)
      ensures ListsUnsettled(commissions, agents, order)
      ensures forall i, j :: 0 <= i < j < |order| ==> commissions[order[i]].createdAt <= commissions[order[j]].createdAt
    {
      order := [];
      for i := 0 to |commissions|
        invariant ListsUnsettled(commissions[..i], agents, order)
      {
        OtherRowUnlisted(commissions, agents, order, i);
        if Unsettled(commissions[i]) && commissions[i].agentId in agents {
          var at := InsertionPoint(order, i);
          InsertListed(commissions, agents, order, i, at);
          order := order[..at] + [i] + order[at..];
        }
      }
      assert commissions[..|commissions|] == commissions;
    }

    /** Where the row goes among older ones. */
    method InsertionPoint(order: seq<nat>, i: nat) returns (at: nat)
      requires i < |commissions| && RowIds(commissions[..i], order)
      ensures at <= |order| && (at > 0 ==> commissions[order[at - 1]].createdAt <= commissions[i].createdAt)
      ensures forall k :: at <= k < |order| ==> commissions[order[k]].createdAt > commissions[i].createdAt
    {
      at := |order|;
      while at > 0 && commissions[order[at - 1]].createdAt > commissions[i].createdAt
        invariant 0 <= at <= |order|
        invariant forall k :: at <= k < |order| ==> commissions[order[k]].createdAt > commissions[i].createdAt
      {
        at := at - 1;
      }
    }

    /** The carry-over loop: settles whole reversals while the agent's purse covers them. */
    method SettleGreedily(order: seq<nat>, earned: Purse) returns (settled: seq<nat>, carryOverTotal: Cents)
      requires RowIds(commissions, order)
      ensures settled == Greedy(commissions, order, earned)
      ensures carryOverTotal == SumIds(commissions, settled)
    {
      settled, carryOverTotal := [], 0;
      var remaining := earned;
      for i := 0 to |order|
        invariant RowIds(commissions, settled) && RowIds(commissions, order[i..])
        invariant settled + Greedy(commissions, order[i..], remaining) == Greedy(commissions, order, earned)
        invariant carryOverTotal == SumIds(commissions, settled)
      {
        GreedyStep(commissions, order, i, settled, remaining);
        var row := commissions[order[i]];
        var left := InPurse(remaining, row.agentId);
        if row.amount <= left {
          SumIdsAppend(commissions, settled, order[i]);
          settled := settled + [order[i]];
          remaining := remaining[row.agentId := left - row.amount];
          carryOverTotal := carryOverTotal + row.amount;
        }
      }
    }

    /** The second half of the transaction: settle carry-over and store the total. */
    method SettleAndStore(periodStart: int, periodEnd: int, agents: seq<UserId>, earned: Purse, listed: seq<nat>)
      requires NoDuplicates(agents) && (forall a :: a in agents <==> a in AgentsIn(commissions, |batches|))
      requires earned == Earned(commissions, |batches|) && RowIds(commissions, listed)
      modifies this`commissions, this`batches
      ensures var id, rows := |old(batches)|, old(commissions);
              && commissions == SettleRows(rows, SettledIds(rows, id, listed), id)
              && batches == old(batches) + [PayoutBatch(periodStart, periodEnd, NewTotal(rows, id, listed), OPEN)]
    {
      var settled, total := NetTotal(agents, earned, listed);
      var id := |batches|;
      commissions := SettleRows(commissions, settled, id);
      batches := batches + [PayoutBatch(periodStart, periodEnd, total, OPEN)];
    }

    method NetTotal(agents: seq<UserId>, earned: Purse, listed: seq<nat>) returns (settled: seq<nat>, total: Cents)
      requires NoDuplicates(agents) && (forall a :: a in agents <==> a in AgentsIn(commissions, |batches|))
      requires earned == Earned(commissions, |batches|) && RowIds(commissions, listed)
      ensures settled == SettledIds(commissions, |batches|, listed)
      ensures total == NewTotal(commissions, |batches|, listed)
    {
      var carryOverTotal;
      settled, carryOverTotal := SettleGreedily(listed, earned);
      var earnedTotal := SumPurse(agents, earned, |batches|);
      total := earnedTotal - carryOverTotal;
    }

    /** The transaction of batch creation: attach, group, settle, total. */
    method WriteBatch(periodStart: int, periodEnd: int, eligible: set<nat>)
      returns (created: bool, ghost order: seq<nat>)
      modifies this`commissions, this`batches
      ensures var id := |old(batches)|;
              var rows := AttachRows(old(commissions), eligible, id);
              && ListsUnsettled(rows, AgentsIn(rows, id), order)
              && (created <==> AgentsIn(rows, id) != {})
      ensures View() == CreateTables(old(View()), CreateBatch(periodStart, periodEnd, eligible, order))
    {
      var before := commissions;
      commissions := AttachRows(before, eligible, |batches|);
      var agents, earned, listed := GroupAndList(|batches|);
      order := listed;
      if agents == [] {
        commissions := before;
        return false, order;
      }
      SettleAndStore(periodStart, periodEnd, agents, earned, listed);
      created := true;
    }

    method GroupAndList(batchId: nat) returns (agents: seq<UserId>, earned: Purse, listed: seq<nat>)
      ensures NoDuplicates(agents) && forall a :: a in agents <==> a in AgentsIn(commissions, batchId)
      ensures agents == [] <==> AgentsIn(commissions, batchId) == {}
      ensures earned == Earned(commissions, batchId)
      ensures ListsUnsettled(commissions, AgentsIn(commissions, batchId), listed)
    {
      agents, earned := GroupByAgent(batchId);
      var keys := set a | a in agents;
      assert keys == AgentsIn(commissions, batchId);
      assert agents != [] ==> agents[0] in keys;
      listed := FindCarryOvers(keys);
    }

    /** The write of batch creation, over rows that some earlier read found eligible. It
        fails, and changes nothing, when no such row can be attached any more. */
    method CreateFromEligible(periodStart: int, periodEnd: int, eligible: set<nat>)
      returns (r: Result<nat, PayoutError>, ghost order: seq<nat>)
      requires Valid()
      requires forall i :: i in eligible && i < |commissions| ==> periodStart <= commissions[i].createdAt <= periodEnd
      modifies this`commissions, this`batches
      ensures Valid()
      ensures Enabled(old(View()), CreateBatch(periodStart, periodEnd, eligible, order))
      ensures View() == Step(old(View()), CreateBatch(periodStart, periodEnd, eligible, order))
      ensures r.Err? <==> forall i :: i in eligible && i < |old(commissions)| ==> !Attachable(old(commissions)[i])
      ensures r.Ok? ==> r.value == |old(batches)| && |batches| == |old(batches)| + 1
      ensures r.Err? ==> View() == old(View())
      ensures r.Ok? ==>
                batches == old(batches) + [PayoutBatch(periodStart, periodEnd, batches[r.value].totalAmount, OPEN)]
      ensures r.Ok? ==> |commissions| == |old(commissions)|
                        && forall i :: 0 <= i < |commissions| ==>
                             (commissions[i].payoutBatchId == Some(r.value)
                              <==> i in eligible && Attachable(old(commissions)[i]))
    {
      var id := |batches|;
      ghost var t := View();
      var created;
      created, order := WriteBatch(periodStart, periodEnd, eligible);
      CreationIsEnabled(t, periodStart, periodEnd, eligible, order);
      CreationAddsBatch(t, CreateBatch(periodStart, periodEnd, eligible, order));
      StepKeepsInv(t, CreateBatch(periodStart, periodEnd, eligible, order));
      if created { CreationAttaches(t, CreateBatch(periodStart, periodEnd, eligible, order)); }
      r := if created then Ok(id) else Err(NothingToPay);
    }

    method SumPurse(agents: seq<UserId>, earned: Purse, batchId: nat) returns (total: Cents)
      requires NoDuplicates(agents) && (forall a :: a in agents <==> a in AgentsIn(commissions, batchId))
      requires earned == Earned(commissions, batchId)
      ensures total == SumBy(commissions, AttachedTo(batchId))
    {
      total := 0;
      for i := 0 to |agents|
        invariant total == SumOver(agents[..i], EarnedPart(commissions, batchId))
      {
        assert agents[..i + 1][..i] == agents[..i];
        total := total + earned[agents[i]];
      }
      assert agents[..|agents|] == agents;
      AttachedAreMembers(commissions, batchId);
      AgentsAddUp(commissions, batchId, agents);
    }

    /** Batch creation with no call in between the read and the write. */
    method CreatePayoutBatch(periodStart: int, periodEnd: int)
      returns (r: Result<nat, PayoutError>, ghost eligible: set<nat>, ghost order: seq<nat>)
      requires Valid()
      modifies this`commissions, this`batches
      ensures Valid()
      ensures FoundIn(old(commissions), periodStart, periodEnd, eligible)
      ensures Enabled(old(View()), CreateBatch(periodStart, periodEnd, eligible, order))
      ensures View() == Step(old(View()), CreateBatch(periodStart, periodEnd, eligible, order))
      ensures r.Err? <==> eligible == {}
      ensures r.Err? <==> forall i :: 0 <= i < |old(commissions)| ==> !Due(old(commissions)[i], periodStart, periodEnd)
      ensures r.Ok? ==> |commissions| == |old(commissions)|
                        && forall i :: 0 <= i < |commissions| ==>
                             (commissions[i].payoutBatchId == Some(r.value)
                              <==> Due(old(commissions)[i], periodStart, periodEnd))
    {
      var found := FindEligible(periodStart, periodEnd);
      eligible := found;
      r, order := CreateFromEligible(periodStart, periodEnd, found);
    }

    /** The CSV of a batch. Reading the text back gives the header and exactly one record per
        agent and currency; an open batch becomes exported. */
    method ExportPayoutBatchCsv(batchId: nat, agents: Agents) returns (r: Result<string, PayoutError>)
      requires Valid()
      modifies this`batches
      ensures Valid() && View() == Step(old(View()), Export(batchId))
      ensures r == if batchId < |old(batches)| then Ok(ExportText(commissions, batchId, agents)) else Err(BatchNotFound)
      ensures r.Err? ==> batches == old(batches)
      ensures r.Ok? ==> batches == old(batches)[batchId := old(batches)[batchId].(
                                     status := if old(batches)[batchId].status == OPEN then EXPORTED
                                               else old(batches)[batchId].status)]
      ensures r.Ok? ==> ReadCsv(r.value) == Some(Records(LinesOfEntries(ExportEntries(commissions, batchId, agents))))
    {
      if batchId >= |batches| {
        return Err(BatchNotFound);
      }
      StepKeepsInv(View(), Export(batchId));
      var entries := BuildEntries(commissions, batchId, agents);
      var text := WriteText(entries);
      CsvRoundTrip(LinesOfEntries(entries));
      if batches[batchId].status == OPEN {
        batches := batches[batchId := batches[batchId].(status := EXPORTED)];
      }
      r := Ok(text);
    }

    /** Marks a batch paid. The first result counts the rows that leave the batch, the
        second says whether the stored total changed. */
    method MarkPayoutBatchPaid(batchId: nat) returns (r: Result<(nat, bool), PayoutError>)
      requires Valid()
      modifies this`commissions, this`batches
      ensures Valid()
      ensures View() == Step(old(View()), MarkPaid(batchId))
      ensures r.Err? <==> !Payable(old(View()), batchId)
      ensures r == Err(AlreadyPaid) <==> batchId < |old(batches)| && old(batches)[batchId].status == SETTLED
      ensures r.Ok? ==> r.value.0 == |set i | 0 <= i < |old(commissions)| && Detaches(old(commissions)[i], batchId)|
      ensures r.Ok? ==> r.value.1 == (batches[batchId].totalAmount != old(batches)[batchId].totalAmount)
      ensures r.Err? ==> View() == old(View())
      ensures r.Ok? ==> |commissions| == |old(commissions)| && batches == old(batches)[batchId := batches[batchId]]
      ensures r.Ok? ==> batches[batchId] == old(batches)[batchId].(status := SETTLED,
                                                                  totalAmount := batches[batchId].totalAmount)
      ensures r.Ok? ==> forall k :: 0 <= k < |commissions| ==>
                          PaidOrDropped(old(commissions)[k], commissions[k], batchId)
    {
      if batchId >= |batches| {
        return Err(BatchNotFound);
      }
      if batches[batchId].status == SETTLED {
        return Err(AlreadyPaid);
      }
      StepKeepsInv(View(), MarkPaid(batchId));
      var detached, changed := SettleBatch(batchId);
      r := Ok((detached, changed));
    }

    /** The transaction of mark-paid. */
    method SettleBatch(batchId: nat) returns (detached: nat, changed: bool)
      requires Payable(View(), batchId)
      modifies this`commissions, this`batches
      ensures View() == PayTables(old(View()), batchId)
      ensures detached == |set i | 0 <= i < |old(commissions)| && Detaches(old(commissions)[i], batchId)|
      ensures changed == (batches[batchId].totalAmount != old(batches)[batchId].totalAmount)
    {
      ghost var rows := commissions;
      detached := DetachReversed(batchId);
      var paidTotal, carryOverTotal := PayAttached(batchId);
      assert commissions == PayRows(rows, batchId);
      var totalAmount := paidTotal - carryOverTotal;
      changed := totalAmount != batches[batchId].totalAmount;
      batches := batches[batchId := batches[batchId].(status := SETTLED, totalAmount := totalAmount)];
    }

    /** The first update of mark-paid: reversals that were never paid out leave the batch. */
    method DetachReversed(batchId: nat) returns (detached: nat)
      modifies this`commissions
      ensures |commissions| == |old(commissions)|
      ensures forall k :: 0 <= k < |commissions| ==>
                var row := old(commissions)[k];
                commissions[k] == if Detaches(row, batchId) then row.(payoutBatchId := None) else row
      ensures detached == |set i | 0 <= i < |old(commissions)| && Detaches(old(commissions)[i], batchId)|
    {
      detached := 0;
      ghost var rows := commissions;
      ghost var gone: set<int> := {};
      for i := 0 to |commissions|
        invariant |commissions| == |rows|
        invariant forall k :: 0 <= k < |rows| ==>
                    commissions[k] == if k < i && Detaches(rows[k], batchId) then rows[k].(payoutBatchId := None)
                    else rows[k]
        invariant gone == (set k | 0 <= k < i && Detaches(rows[k], batchId)) && detached == |gone|
      {
        if Detaches(commissions[i], batchId) {
          commissions := commissions[i := commissions[i].(payoutBatchId := None)];
          detached := detached + 1;
          gone := gone + {i};
        }
      }
    }

    /** The second update and the two sums of mark-paid. */
    method PayAttached(batchId: nat) returns (paidTotal: Cents, carryOverTotal: Cents)
      modifies this`commissions
      ensures |commissions| == |old(commissions)|
      ensures forall k :: 0 <= k < |commissions| ==>
                var row := old(commissions)[k];
                commissions[k] ==
                if row.payoutBatchId == Some(batchId) && row.status == EARNED then row.(status := PAID) else row
      ensures paidTotal == SumBy(commissions, PaidIn(batchId))
      ensures carryOverTotal == SumBy(commissions, DeductedIn(batchId))
    {
      paidTotal, carryOverTotal := 0, 0;
      ghost var rows := commissions;
      for i := 0 to |commissions|
        invariant |commissions| == |rows|
        invariant forall k :: 0 <= k < |rows| ==>
                    commissions[k] == if k < i && rows[k].payoutBatchId == Some(batchId) && rows[k].status == EARNED
                                      then rows[k].(status := PAID) else rows[k]
        invariant paidTotal == SumBy(commissions[..i], PaidIn(batchId))
                  && carryOverTotal == SumBy(commissions[..i], DeductedIn(batchId))
      {
        ghost var done := commissions[..i];
        if commissions[i].payoutBatchId == Some(batchId) && commissions[i].status == EARNED {
          commissions := commissions[i := commissions[i].(status := PAID)];
        }
        assert commissions[..i] == done && commissions[..i + 1][..i] == done;
        paidTotal := paidTotal + PaidIn(batchId)(commissions[i]);
        carryOverTotal := carryOverTotal + DeductedIn(batchId)(commissions[i]);
      }
      assert commissions[..|commissions|] == commissions;
    }

    /** The balances shown to an agent (`RowsShownOnce`, `MonthsAddUp`), and what was credited in
        each month in which the agent has rows. */
    method GetAgentBalances(agentId: UserId, month: int -> string)
      returns (accruedUnpaid: Cents, totalPaid: Cents, allTime: Cents, negativeCarryOver: Cents,
               monthly: map<string, Cents>)
      ensures accruedUnpaid == SumBy(commissions, EarnedWeight(agentId)) - SumBy(commissions, CarryWeight(agentId))
      ensures totalPaid == SumBy(commissions, PaidWeight(agentId))
      ensures negativeCarryOver == SumBy(commissions, CarryWeight(agentId))
      ensures allTime == accruedUnpaid + negativeCarryOver + totalPaid
      ensures forall m :: m in monthly <==>
                exists i :: 0 <= i < |commissions| && InMonth(commissions[i], agentId, month, m)
      ensures forall m :: m in monthly ==> monthly[m] == SumBy(commissions, CreditWeight(agentId, month, m))
    {
      var accrued := 0;
      totalPaid, negativeCarryOver := 0, 0;
      for i := 0 to |commissions|
        invariant accrued == SumBy(commissions[..i], EarnedWeight(agentId))
        invariant totalPaid == SumBy(commissions[..i], PaidWeight(agentId))
        invariant negativeCarryOver == SumBy(commissions[..i], CarryWeight(agentId))
      {
        assert commissions[..i + 1][..i] == commissions[..i];
        var row := commissions[i];
        if row.agentId == agentId {
          match row.status {
            case EARNED => accrued := accrued + row.amount;
            case PAID => totalPaid := totalPaid + row.amount;
            case REVERSED =>
              if row.reversedAfterPayout && row.carryOverBatchId.None? {
                negativeCarryOver := negativeCarryOver + row.amount;
              }
          }
        }
      }
      assert commissions[..|commissions|] == commissions;
      accruedUnpaid := accrued - negativeCarryOver;
      allTime := accrued + totalPaid;
      monthly := SumByMonth(agentId, month);
    }

    /** The monthly query: rows grouped by month, reversed ones counting nothing. */
    method SumByMonth(agentId: UserId, month: int -> string) returns (monthly: map<string, Cents>)
      ensures forall m :: m in monthly <==>
                exists i :: 0 <= i < |commissions| && InMonth(commissions[i], agentId, month, m)
      ensures forall m :: m in monthly ==> monthly[m] == SumBy(commissions, CreditWeight(agentId, month, m))
    {
      monthly := map[];
      for i := 0 to |commissions|
        invariant monthly == Tally(commissions[..i], ByMonth(agentId, month))
      {
        assert commissions[..i + 1][..i] == commissions[..i];
        monthly := TallyRow(monthly, commissions[i], ByMonth(agentId, month));
      }
      assert commissions[..|commissions|] == commissions;
      forall m
        ensures m in monthly <==> exists i :: 0 <= i < |commissions| && InMonth(commissions[i], agentId, month, m)
        ensures m in monthly ==> monthly[m] == SumBy(commissions, CreditWeight(agentId, month, m))
      {
        MonthlyAt(commissions, agentId, month, m);
      }
    }
  }
}
