/** Greedy settlement of negative carry-over against the earnings of one batch. */
module CarryOver {
  import opened Common
  import opened SponsorGraph
  import opened Commissions

  type Purse = map<UserId, Cents>

  function InPurse(purse: Purse, a: UserId): Cents {
    if a in purse then purse[a] else 0
  }

  predicate RowIds(rows: seq<Commission>, ids: seq<nat>) {
    forall i :: 0 <= i < |ids| ==> ids[i] < |rows|
  }

  /** The reversals settled, oldest first: each one that the agent's remaining earnings
      still cover is settled whole, every other one is left for a later batch. */
  function Greedy(rows: seq<Commission>, order: seq<nat>, purse: Purse): (settled: seq<nat>)
    requires RowIds(rows, order)
    ensures RowIds(rows, settled)
  {
    if order == [] then []
    else
      var c := rows[order[0]];
      var remaining := InPurse(purse, c.agentId);
      if c.amount <= remaining then
        [order[0]] + Greedy(rows, order[1..], purse[c.agentId := remaining - c.amount])
      else
        Greedy(rows, order[1..], purse)
  }

  /** What is settled is listed, and settled once. */
  lemma {:induction false} GreedyPicksFromOrder(rows: seq<Commission>, order: seq<nat>, purse: Purse)
    requires RowIds(rows, order)
    ensures forall x :: x in Greedy(rows, order, purse) ==> x in order
    ensures NoDuplicates(order) ==> NoDuplicates(Greedy(rows, order, purse))
  {
    if order != [] {
      var c, rest := rows[order[0]], order[1..];
      var remaining := InPurse(purse, c.agentId);
      assert forall x :: x in order <==> x == order[0] || x in rest;
      if c.amount <= remaining {
        var later := Greedy(rows, rest, purse[c.agentId := remaining - c.amount]);
        GreedyPicksFromOrder(rows, rest, purse[c.agentId := remaining - c.amount]);
        assert forall x :: x in [order[0]] + later <==> x == order[0] || x in later;
        if NoDuplicates(order) { FirstIsElsewhereAbsent(order); }
      } else {
        GreedyPicksFromOrder(rows, rest, purse);
      }
    }
  }

  lemma FirstIsElsewhereAbsent(order: seq<nat>)
    requires order != [] && NoDuplicates(order)
    ensures order[0] !in order[1..] && NoDuplicates(order[1..])
  {
    assert forall i :: 0 <= i < |order[1..]| ==> order[1..][i] == order[i + 1];
  }

  function SumIds(rows: seq<Commission>, ids: seq<nat>): int
    requires RowIds(rows, ids)
  {
    if ids == [] then 0 else rows[ids[0]].amount + SumIds(rows, ids[1..])
  }

  function SumIdsOf(rows: seq<Commission>, ids: seq<nat>, a: UserId): int
    requires RowIds(rows, ids)
  {
    if ids == [] then 0
    else (if rows[ids[0]].agentId == a then rows[ids[0]].amount else 0) + SumIdsOf(rows, ids[1..], a)
  }

  /** What is left of an agent's earnings after the settlement. */
  function Remainder(rows: seq<Commission>, order: seq<nat>, purse: Purse, a: UserId): int
    requires RowIds(rows, order)
  {
    InPurse(purse, a) - SumIdsOf(rows, Greedy(rows, order, purse), a)
  }

  /** Greedy never overdraws an agent, and it is maximal: every reversal it leaves
      unsettled is larger than what the agent has left at the end. */
  lemma {:induction false} GreedyIsSafeAndMaximal(rows: seq<Commission>, order: seq<nat>, purse: Purse, a: UserId)
    requires RowIds(rows, order) && NoDuplicates(order)
    requires forall i :: 0 <= i < |order| ==> rows[order[i]].amount >= 0
    requires InPurse(purse, a) >= 0
    ensures 0 <= Remainder(rows, order, purse, a) <= InPurse(purse, a)
    ensures forall i :: 0 <= i < |order| && order[i] !in Greedy(rows, order, purse) && rows[order[i]].agentId == a ==>
                          rows[order[i]].amount > Remainder(rows, order, purse, a)
  {
    GreedyPicksFromOrder(rows, order, purse);
    if order != [] {
      var c := rows[order[0]];
      var remaining := InPurse(purse, c.agentId);
      var rest := order[1..];
      assert forall i :: 0 < i < |order| ==> order[i] == rest[i - 1];
      if c.amount <= remaining {
        var purse' := purse[c.agentId := remaining - c.amount];
        GreedyIsSafeAndMaximal(rows, rest, purse', a);
        assert Greedy(rows, order, purse)[1..] == Greedy(rows, rest, purse');
      } else {
        GreedyIsSafeAndMaximal(rows, rest, purse, a);
      }
    }
  }

  /** What the first k listed reversals that are settled take from an agent. */
  function TakenBefore(rows: seq<Commission>, order: seq<nat>, settled: seq<nat>, k: nat, a: UserId): int
    requires RowIds(rows, order) && k <= |order|
  {
    if k == 0 then 0
    else
      var c := rows[order[k - 1]];
      TakenBefore(rows, order, settled, k - 1, a)
      + if order[k - 1] in settled && c.agentId == a then c.amount else 0
  }

  lemma {:induction false} TakenAfterFirst(rows: seq<Commission>, order: seq<nat>, settled: seq<nat>, later: seq<nat>,
                                           k: nat, a: UserId)
    requires RowIds(rows, order) && NoDuplicates(order) && 1 <= k <= |order|
    requires settled == later || settled == [order[0]] + later
    ensures TakenBefore(rows, order, settled, k, a) ==
            TakenBefore(rows, order, settled, 1, a) + TakenBefore(rows, order[1..], later, k - 1, a)
    decreases k
  {
    if k > 1 {
      TakenAfterFirst(rows, order, settled, later, k - 1, a);
      assert order[1..][k - 2] == order[k - 1] && order[k - 1] != order[0];
    }
  }

  /** Which reversals are settled, one by one: exactly those that the agent's earnings still
      cover after all older ones of the agent that are settled. No other choice has this
      property, so neither the order nor the choice is free. */
  lemma {:induction false} GreedySettlesIff(rows: seq<Commission>, order: seq<nat>, purse: Purse, k: nat)
    requires RowIds(rows, order) && NoDuplicates(order) && k < |order|
    ensures var settled, c := Greedy(rows, order, purse), rows[order[k]];
            order[k] in settled <==>
            c.amount <= InPurse(purse, c.agentId) - TakenBefore(rows, order, settled, k, c.agentId)
    decreases |order|
  {
    var c, rest, settled := rows[order[0]], order[1..], Greedy(rows, order, purse);
    var remaining := InPurse(purse, c.agentId);
    var purse' := if c.amount <= remaining then purse[c.agentId := remaining - c.amount] else purse;
    var later := Greedy(rows, rest, purse');
    assert settled == if c.amount <= remaining then [order[0]] + later else later;
    FirstIsElsewhereAbsent(order);
    GreedyPicksFromOrder(rows, rest, purse');
    if k > 0 {
      var a := rows[order[k]].agentId;
      GreedySettlesIff(rows, rest, purse', k - 1);
      TakenAfterFirst(rows, order, settled, later, k, a);
      assert rest[k - 1] == order[k] && order[k] != order[0];
      assert TakenBefore(rows, order, settled, 1, a) == InPurse(purse, a) - InPurse(purse', a);
    }
  }

  /** The sum of a per-agent amount over a list of agents. */
  function SumOver(agents: seq<UserId>, part: UserId -> int): int {
    if agents == [] then 0 else SumOver(agents[..|agents| - 1], part) + part(agents[|agents| - 1])
  }

  lemma {:induction false} SumOverLinear(agents: seq<UserId>, f: UserId -> int, g: UserId -> int, h: UserId -> int)
    requires forall a :: a in agents ==> f(a) == g(a) + h(a)
    ensures SumOver(agents, f) == SumOver(agents, g) + SumOver(agents, h)
  {
    if agents != [] {
      SumOverLinear(agents[..|agents| - 1], f, g, h);
    }
  }
}
