/** What one payment distributes: the upline walk, dynamic compression and the rows. */
module Compression {
  import opened Common
  import opened SponsorGraph
  import opened Commissions
  import opened CommissionPlans
  import opened Qualification

  const MAX_UPLINE_WALK := 50

  // -------------------------------------------------------------------- upline walk

  ghost predicate WalkEnds(links: Links, payer: UserId, chain: seq<UserId>) {
    || |chain| == MAX_UPLINE_WALK
    || Ancestor(links, payer, |chain| + 1).None?
    || Ancestor(links, payer, |chain| + 1).value == payer
    || Ancestor(links, payer, |chain| + 1).value in chain
  }

  ghost predicate IsWalk(links: Links, payer: UserId, chain: seq<UserId>) {
    && |chain| <= MAX_UPLINE_WALK
    && NoDuplicates(chain) && payer !in chain
    && forall i :: 0 <= i < |chain| ==> Ancestor(links, payer, i + 1) == Some(chain[i])
  }

  /** The chain follows parent links from the payer, holds nobody twice and never the
      payer, and stops only at 50 nodes, at the top, or where it would repeat itself. */
  ghost predicate IsUpline(links: Links, payer: UserId, chain: seq<UserId>) {
    IsWalk(links, payer, chain) && WalkEnds(links, payer, chain)
  }

  /** The description leaves no freedom: there is one such chain. */
  lemma UplineIsUnique(links: Links, payer: UserId, c: seq<UserId>, d: seq<UserId>)
    requires IsUpline(links, payer, c) && IsUpline(links, payer, d)
    ensures c == d
  {
    if |c| < |d| {
      UplineNotLonger(links, payer, c, d);
    } else if |d| < |c| {
      UplineNotLonger(links, payer, d, c);
    }
    forall i | 0 <= i < |c|
      ensures c[i] == d[i]
    {
      assert Ancestor(links, payer, i + 1) == Some(c[i]);
    }
  }

  lemma UplineNotLonger(links: Links, payer: UserId, c: seq<UserId>, d: seq<UserId>)
    requires IsUpline(links, payer, c) && IsUpline(links, payer, d)
    ensures |d| <= |c|
  {
    if |c| < |d| {
      var n := |c|;
      assert Ancestor(links, payer, n + 1) == Some(d[n]);
      forall i | 0 <= i < n
        ensures c[i] == d[i]
      {
        assert Ancestor(links, payer, i + 1) == Some(c[i]);
      }
    }
  }

  function ExtendWalk(links: Links, payer: UserId, chain: seq<UserId>): (r: seq<UserId>)
    requires IsWalk(links, payer, chain)
    ensures IsUpline(links, payer, r)
    decreases MAX_UPLINE_WALK - |chain|
  {
    if |chain| == MAX_UPLINE_WALK then chain
    else
      match Ancestor(links, payer, |chain| + 1)
      case None => chain
      case Some(a) => if a == payer || a in chain then chain else ExtendWalk(links, payer, chain + [a])
  }

  function Upline(links: Links, payer: UserId): (r: seq<UserId>)
    ensures IsUpline(links, payer, r)
  {
    ExtendWalk(links, payer, [])
  }

  /** The engine's loop: up to 50 parent lookups, stopped by a visited set. */
  method WalkUpline(links: Links, payer: UserId) returns (chain: seq<UserId>)
    ensures IsUpline(links, payer, chain) && chain == Upline(links, payer)
  {
    chain := [];
    var current := payer;
    var visited := {payer};
    assert Ancestor(links, payer, 0) == Some(payer);
    for i := 0 to MAX_UPLINE_WALK
      invariant |chain| == i && IsWalk(links, payer, chain)
      invariant Ancestor(links, payer, i) == Some(current)
      invariant visited == {payer} + set a | a in chain
    {
      if current !in links || links[current] in visited {
        UplineIsUnique(links, payer, chain, Upline(links, payer));
        return;
      }
      var ancestor := links[current];
      visited := visited + {ancestor};
      chain := chain + [ancestor];
      current := ancestor;
    }
    UplineIsUnique(links, payer, chain, Upline(links, payer));
  }

  /** On a forest the walk is exactly the first 50 ancestors. */
  lemma UplineOnForest(links: Links, payer: UserId, chain: seq<UserId>)
    requires Acyclic(links) && IsUpline(links, payer, chain)
    ensures forall i: nat :: i < 50 ==>
                               Ancestor(links, payer, i + 1) == if i < |chain| then Some(chain[i]) else None
    ensures |chain| <= 50
  {
    var n := |chain|;
    if n < MAX_UPLINE_WALK {
      if Ancestor(links, payer, n + 1).Some? {
        RepeatMakesCycle(links, payer, chain);
      }
      forall k: nat | n + 1 <= k
        ensures Ancestor(links, payer, k).None?
      {
        if Ancestor(links, payer, k).Some? {
          AncestorPrefix(links, payer, n + 1, k);
        }
      }
    }
  }

  lemma RepeatMakesCycle(links: Links, payer: UserId, chain: seq<UserId>)
    requires IsUpline(links, payer, chain) && |chain| < MAX_UPLINE_WALK
    requires Ancestor(links, payer, |chain| + 1).Some?
    ensures !Acyclic(links)
  {
    var n := |chain| + 1;
    var a := Ancestor(links, payer, n).value;
    var j: nat;
    if a == payer {
      j := 0;
      assert Ancestor(links, payer, 0) == Some(payer);
    } else {
      var i :| 0 <= i < |chain| && chain[i] == a;
      j := i + 1;
    }
    assert Ancestor(links, payer, j) == Some(a) && j < n;
    AncestorCompose(links, payer, j, n - j);
    assert Ancestor(links, a, n - j) == Some(a);
    assert OnCycle(links, a);
  }

  // ------------------------------------------------------------ dynamic compression

  /** Who qualifies for which plan level. */
  type Qualifier = (UserId, PlanLevel) -> bool

  /** A level without a threshold needs no snapshot; any other asks the frozen row. */
  function SnapshotQualifier(snaps: Snapshots, period: Period, live: UserId -> nat, t: Thresholds): Qualifier {
    (u: UserId, pl: PlanLevel) => pl.minActiveDirects <= 0 || SnapshotQualifies(Frozen(snaps, u, period, live, t), pl)
  }

  /** The index in the chain of the sponsor a level pays, searching upwards from `from`. */
  function FirstQualified(chain: seq<UserId>, from: nat, pl: PlanLevel, q: Qualifier): (r: Option<nat>)
    ensures r.Some? ==> from <= r.value < |chain| && q(chain[r.value], pl)
    ensures r.Some? ==> forall i :: from <= i < r.value ==> !q(chain[i], pl)
    ensures r.None? ==> forall i :: from <= i < |chain| ==> !q(chain[i], pl)
    decreases |chain| - from
  {
    if from >= |chain| then None
    else if q(chain[from], pl) then Some(from)
    else FirstQualified(chain, from + 1, pl, q)
  }

  function Beneficiary(chain: seq<UserId>, pl: PlanLevel, q: Qualifier): Option<nat>
    requires pl.level >= 1
  {
    FirstQualified(chain, pl.level - 1, pl, q)
  }

  function LevelAmount(p: Payment, pl: PlanLevel): Cents {
    RoundMoney(p.amount as real / 100.0 * pl.rate / 100.0)
  }

  /** The row one level creates, if anybody up to the top of the chain qualifies. */
  function LevelRow(p: Payment, pl: PlanLevel, chain: seq<UserId>, q: Qualifier, now: int): Option<Commission>
    requires pl.level >= 1
  {
    match Beneficiary(chain, pl, q)
    case None => None
    case Some(i) =>
      var natural := pl.level - 1;
      Some(Commission(
             chain[i], p.userId, p.paymentRef, p.provider, pl.level, p.amount, pl.rate,
             LevelAmount(p, pl), p.currency,
             i != natural, if i != natural then Some(chain[natural]) else None, now,
             EARNED, false, None, None))
  }

  /** The row for the sponsor at index i of the chain: the payment and the level as they are, the
      rate's share of the payment rounded to the cent, and nothing about payouts yet. */
  ghost predicate Credits(row: Commission, p: Payment, pl: PlanLevel, chain: seq<UserId>, i: nat, now: int)
    requires 1 <= pl.level <= i + 1 <= |chain|
  {
    && row.agentId == chain[i] && row.sourceUserId == p.userId
    && row.paymentRef == p.paymentRef && row.provider == p.provider
    && row.baseAmount == p.amount && row.currency == p.currency && row.createdAt == now
    && row.level == pl.level && row.rate == pl.rate
    && -0.5 < row.amount as real - p.amount as real * pl.rate / 100.0 <= 0.5
    && (row.wasCompressed <==> i > pl.level - 1)
    && row.originalBeneficiaryId == (if i > pl.level - 1 then Some(chain[pl.level - 1]) else None)
    && row.status == EARNED && !row.reversedAfterPayout && row.carryOverBatchId.None? && row.payoutBatchId.None?
  }

  /** The level pays index i: the first from the natural one upwards whose sponsor qualifies. */
  ghost predicate PaysIndex(chain: seq<UserId>, pl: PlanLevel, q: Qualifier, i: nat) {
    1 <= pl.level <= i + 1 <= |chain| && q(chain[i], pl) && forall j :: pl.level - 1 <= j < i ==> !q(chain[j], pl)
  }

  /** A level makes a row exactly if it pays somebody, and the row records that payment. */
  lemma RowRecordsPayment(p: Payment, pl: PlanLevel, chain: seq<UserId>, q: Qualifier, now: int)
    requires pl.level >= 1
    ensures LevelRow(p, pl, chain, q, now).Some? <==> exists i: nat :: PaysIndex(chain, pl, q, i)
    ensures forall i: nat :: PaysIndex(chain, pl, q, i) ==>
              && LevelRow(p, pl, chain, q, now).Some?
              && Credits(LevelRow(p, pl, chain, q, now).value, p, pl, chain, i, now)
  {
    var found := Beneficiary(chain, pl, q);
    if found.Some? {
      assert PaysIndex(chain, pl, q, found.value);
      var value := p.amount as real / 100.0 * pl.rate / 100.0;
      assert value * 100.0 == p.amount as real * pl.rate / 100.0;
      assert RoundMoney(value) == LevelAmount(p, pl);
    }
    forall i: nat | PaysIndex(chain, pl, q, i)
      ensures found == Some(i)
    {
    }
  }

  function OptionToSeq<T>(o: Option<T>): seq<T> {
    match o case None => [] case Some(x) => [x]
  }

  /** All rows of one payment, in ascending order of level. */
  function PaymentRows(p: Payment, levels: seq<PlanLevel>, chain: seq<UserId>, q: Qualifier, now: int): seq<Commission>
    requires forall pl :: pl in levels ==> pl.level >= 1
  {
    if levels == [] then []
    else
      var n := |levels| - 1;
      PaymentRows(p, levels[..n], chain, q, now) + OptionToSeq(LevelRow(p, levels[n], chain, q, now))
  }

  /** Compression pays the first qualified sponsor at or above the natural one and nobody
      otherwise; the two audit fields record exactly whether the natural sponsor, who
      then misses the level, was skipped. */
  lemma LevelPaysFirstQualified(p: Payment, pl: PlanLevel, chain: seq<UserId>, q: Qualifier, now: int)
    requires pl.level >= 1 && NoDuplicates(chain)
    ensures var natural := pl.level - 1;
            var row := LevelRow(p, pl, chain, q, now);
            && (row.Some? <==> exists i :: natural <= i < |chain| && q(chain[i], pl))
            && (row.Some? ==>
                  && (exists i :: natural <= i < |chain| && chain[i] == row.value.agentId && q(chain[i], pl)
                                  && forall j :: natural <= j < i ==> !q(chain[j], pl))
                  && (row.value.wasCompressed <==> row.value.agentId != chain[natural])
                  && (row.value.wasCompressed <==> !q(chain[natural], pl))
                  && row.value.originalBeneficiaryId == if row.value.wasCompressed then Some(chain[natural]) else None)
  {
  }

  ghost predicate MadeByALevel(p: Payment, levels: seq<PlanLevel>, chain: seq<UserId>, q: Qualifier, now: int,
                               row: Commission)
    requires forall pl :: pl in levels ==> pl.level >= 1
  {
    exists k :: 0 <= k < |levels| && LevelRow(p, levels[k], chain, q, now) == Some(row)
  }

  /** The rows are those of the levels: each level's row is there, and there is no other. */
  lemma {:induction false} RowsAreTheLevelsRows(p: Payment, levels: seq<PlanLevel>, chain: seq<UserId>, q: Qualifier,
                                                now: int, row: Commission)
    requires forall pl :: pl in levels ==> pl.level >= 1
    ensures row in PaymentRows(p, levels, chain, q, now) <==> MadeByALevel(p, levels, chain, q, now, row)
  {
    if levels != [] {
      var n := |levels| - 1;
      var first, last := PaymentRows(p, levels[..n], chain, q, now), OptionToSeq(LevelRow(p, levels[n], chain, q, now));
      assert row in first + last <==> row in first || row in last;
      RowsAreTheLevelsRows(p, levels[..n], chain, q, now, row);
    }
  }

  /** The row of one level among them. */
  lemma RowOfLevel(p: Payment, levels: seq<PlanLevel>, chain: seq<UserId>, q: Qualifier, now: int, pl: PlanLevel,
                   row: Commission)
    requires ValidLevels(levels) && pl in levels
    ensures row in PaymentRows(p, levels, chain, q, now) && row.level == pl.level <==>
            LevelRow(p, pl, chain, q, now) == Some(row)
  {
    RowsAreTheLevelsRows(p, levels, chain, q, now, row);
    var m :| 0 <= m < |levels| && levels[m] == pl;
    if MadeByALevel(p, levels, chain, q, now, row) {
      var k :| 0 <= k < |levels| && LevelRow(p, levels[k], chain, q, now) == Some(row);
      assert levels[k].level == row.level;
      OneOfLevel(levels, m, k);
    }
  }

  lemma OneOfLevel(levels: seq<PlanLevel>, m: nat, k: nat)
    requires ValidLevels(levels) && m < |levels| && k < |levels|
    ensures levels[m].level == levels[k].level <==> m == k
  {
  }

  /** A row of the levels but the last is of a lower level than the last. */
  lemma RowIsBelow(p: Payment, levels: seq<PlanLevel>, chain: seq<UserId>, q: Qualifier, now: int, row: Commission)
    requires ValidLevels(levels) && levels != []
    requires row in PaymentRows(p, levels[..|levels| - 1], chain, q, now)
    ensures row.level < levels[|levels| - 1].level
  {
    var n := |levels| - 1;
    RowsAreTheLevelsRows(p, levels[..n], chain, q, now, row);
    var k :| 0 <= k < n && LevelRow(p, levels[..n][k], chain, q, now) == Some(row);
    assert levels[k] == levels[..n][k];
  }

  ghost predicate AscendingLevels(rows: seq<Commission>) {
    forall i, j :: 0 <= i < j < |rows| ==> rows[i].level < rows[j].level
  }

  /** A payment makes at most one row per level. */
  lemma {:induction false} RowsHaveDistinctLevels(p: Payment, levels: seq<PlanLevel>, chain: seq<UserId>, q: Qualifier,
                                                  now: int)
    requires ValidLevels(levels)
    ensures AscendingLevels(PaymentRows(p, levels, chain, q, now))
  {
    if levels != [] {
      var n := |levels| - 1;
      var first := PaymentRows(p, levels[..n], chain, q, now);
      RowsHaveDistinctLevels(p, levels[..n], chain, q, now);
      var rows, last := PaymentRows(p, levels, chain, q, now), OptionToSeq(LevelRow(p, levels[n], chain, q, now));
      assert rows == first + last;
      forall i, j | 0 <= i < j < |rows|
        ensures rows[i].level < rows[j].level
      {
        assert rows[i] == first[i];
        if j < |first| {
          assert rows[j] == first[j];
        } else {
          assert rows[j] == last[0];
          RowIsBelow(p, levels, chain, q, now, first[i]);
        }
      }
    }
  }

  // ------------------------------------------------------------------- monotonicity

  ghost predicate Enlarges(q: Qualifier, wider: Qualifier) {
    forall u, pl :: q(u, pl) ==> wider(u, pl)
  }

  /** With more sponsors qualified, a level that was paid is still paid, and to a sponsor
      at most as far from the payer. */
  lemma CompressionMonotone(p: Payment, pl: PlanLevel, chain: seq<UserId>, q: Qualifier, wider: Qualifier)
    requires pl.level >= 1 && Enlarges(q, wider)
    ensures Beneficiary(chain, pl, q).Some? ==>
              Beneficiary(chain, pl, wider).Some? && Beneficiary(chain, pl, wider).value
              <= Beneficiary(chain, pl, q).value
  {
    if Beneficiary(chain, pl, q).Some? {
      var i := Beneficiary(chain, pl, q).value;
      assert wider(chain[i], pl);
    }
  }

  function Distributed(rows: seq<Commission>): int {
    SumBy(rows, (r: Commission) => r.amount)
  }

  /** The exact share, in cents, that a rate in percent takes of a payment. */
  function Share(base: Cents, rate: real): real {
    base as real * rate / 100.0
  }

  ghost predicate WithinHalfCent(amount: Cents, base: Cents, rate: real) {
    -0.5 <= amount as real - Share(base, rate) <= 0.5
  }

  lemma ShareBounds(base: Cents, rate: real)
    requires base >= 0 && 0.0 <= rate <= 100.0
    ensures 0.0 <= Share(base, rate) <= base as real
  {
    var b := base as real;
    assert 0.0 <= b * rate;
    assert b * (100.0 - rate) >= 0.0;
    assert b * rate <= b * 100.0;
  }

  lemma LevelAmountBounds(p: Payment, pl: PlanLevel)
    requires p.amount >= 0 && 0.0 <= pl.rate <= 100.0
    ensures 0 <= LevelAmount(p, pl) <= p.amount
    ensures WithinHalfCent(LevelAmount(p, pl), p.amount, pl.rate)
  {
    var exact := Share(p.amount, pl.rate);
    ShareBounds(p.amount, pl.rate);
    var value := p.amount as real / 100.0 * pl.rate / 100.0;
    assert value * 100.0 == exact;
    var cents := RoundMoney(value);
    assert cents == LevelAmount(p, pl);
    assert -0.5 < cents as real - exact <= 0.5;
  }

  /** ... and the total distributed never falls. */
  lemma {:induction false} DistributionMonotone(p: Payment, levels: seq<PlanLevel>, chain: seq<UserId>, q: Qualifier,
                                                wider: Qualifier, now: int)
    requires ValidLevels(levels) && p.amount >= 0 && Enlarges(q, wider)
    ensures Distributed(PaymentRows(p, levels, chain, q, now)) <= Distributed(PaymentRows(p, levels, chain, wider, now))
  {
    if levels != [] {
      var n := |levels| - 1;
      DistributionMonotone(p, levels[..n], chain, q, wider, now);
      CompressionMonotone(p, levels[n], chain, q, wider);
      LevelAmountBounds(p, levels[n]);
      SplitLast(p, levels, chain, q, now);
      SplitLast(p, levels, chain, wider, now);
    }
  }

  lemma SplitLast(p: Payment, levels: seq<PlanLevel>, chain: seq<UserId>, q: Qualifier, now: int)
    requires levels != [] && forall pl :: pl in levels ==> pl.level >= 1
    ensures var n := |levels| - 1;
            Distributed(PaymentRows(p, levels, chain, q, now)) ==
            Distributed(PaymentRows(p, levels[..n], chain, q, now)) +
            if Beneficiary(chain, levels[n], q).Some? then LevelAmount(p, levels[n]) else 0
  {
    var n := |levels| - 1;
    var first, last := PaymentRows(p, levels[..n], chain, q, now), OptionToSeq(LevelRow(p, levels[n], chain, q, now));
    SumByAppend(first, last, (r: Commission) => r.amount);
  }

  // ------------------------------------------------------------- distribution bound

  function RateSum(rows: seq<Commission>): real {
    if rows == [] then 0.0 else RateSum(rows[..|rows| - 1]) + rows[|rows| - 1].rate
  }

  lemma ShareIsAdditive(base: Cents, a: real, b: real)
    ensures Share(base, a + b) == Share(base, a) + Share(base, b)
  {
    assert base as real * (a + b) == base as real * a + base as real * b;
  }

  lemma {:induction false} RoundedSumBound(p: Payment, rows: seq<Commission>)
    requires forall r :: r in rows ==> WithinHalfCent(r.amount, p.amount, r.rate)
    ensures var error := Distributed(rows) as real - Share(p.amount, RateSum(rows));
            -0.5 * |rows| as real <= error <= 0.5 * |rows| as real
  {
    if rows != [] {
      var n := |rows| - 1;
      RoundedSumBound(p, rows[..n]);
      var before := Distributed(rows[..n]) as real - Share(p.amount, RateSum(rows[..n]));
      var here := rows[n].amount as real - Share(p.amount, rows[n].rate);
      assert rows[n] in rows;
      ShareIsAdditive(p.amount, RateSum(rows[..n]), rows[n].rate);
      assert Distributed(rows) == Distributed(rows[..n]) + rows[n].amount;
      assert Distributed(rows) as real - Share(p.amount, RateSum(rows)) == before + here;
    }
  }

  lemma {:induction false} AtMostOneRowPerLevel(p: Payment, levels: seq<PlanLevel>, chain: seq<UserId>, q: Qualifier,
                                                now: int)
    requires forall pl :: pl in levels ==> pl.level >= 1
    ensures |PaymentRows(p, levels, chain, q, now)| <= |levels|
  {
    if levels != [] {
      AtMostOneRowPerLevel(p, levels[..|levels| - 1], chain, q, now);
    }
  }

  lemma {:induction false} AtMostTwentyLevels(levels: seq<PlanLevel>, top: nat)
    requires ValidLevels(levels) && forall l :: l in levels ==> l.level <= top
    ensures |levels| <= top
  {
    if levels != [] {
      var n := |levels| - 1;
      assert levels[n] in levels;
      AtMostTwentyLevels(levels[..n], levels[n].level - 1);
    }
  }

  lemma RowBound(p: Payment, levels: seq<PlanLevel>, chain: seq<UserId>, q: Qualifier, now: int, r: Commission)
    requires ValidLevels(levels) && p.amount >= 0 && r in PaymentRows(p, levels, chain, q, now)
    ensures 0 <= r.amount <= p.amount && WithinHalfCent(r.amount, p.amount, r.rate)
  {
    RowsAreTheLevelsRows(p, levels, chain, q, now, r);
    var k :| 0 <= k < |levels| && LevelRow(p, levels[k], chain, q, now) == Some(r);
    assert levels[k] in levels;
    LevelAmountBounds(p, levels[k]);
  }

  /** For every valid plan each row lies between zero and the payment, and rounding costs
      at most half a cent a row, so at most ten cents a payment. */
  lemma DistributionBound(p: Payment, levels: seq<PlanLevel>, chain: seq<UserId>, q: Qualifier, now: int)
    requires ValidLevels(levels) && p.amount >= 0
    ensures var rows := PaymentRows(p, levels, chain, q, now);
            && (forall r :: r in rows ==> 0 <= r.amount <= p.amount)
            && (var error := Distributed(rows) as real - Share(p.amount, RateSum(rows));
                && -0.5 * |rows| as real <= error <= 0.5 * |rows| as real
                && -10.0 <= error <= 10.0)
  {
    var rows := PaymentRows(p, levels, chain, q, now);
    forall r | r in rows
      ensures 0 <= r.amount <= p.amount && WithinHalfCent(r.amount, p.amount, r.rate)
    {
      RowBound(p, levels, chain, q, now, r);
    }
    RoundedSumBound(p, rows);
    AtMostOneRowPerLevel(p, levels, chain, q, now);
    AtMostTwentyLevels(levels, 20);
  }

  // -------------------------------------------------------------------- frozen month

  /** Every snapshot that deciding one level consults is in the table: those of the
      sponsors from the natural one up to the one paid, or to the top if nobody is. */
  ghost predicate Consulted(snaps: Snapshots, period: Period, chain: seq<UserId>, pl: PlanLevel, q: Qualifier)
    requires pl.level >= 1
  {
    pl.minActiveDirects > 0 ==>
      var found := Beneficiary(chain, pl, q);
      forall i :: pl.level - 1 <= i < |chain| && (found.Some? ==> i <= found.value) ==> (chain[i], period) in snaps
  }

  /** Deciding the level asks for this sponsor's snapshot. */
  ghost predicate Consults(chain: seq<UserId>, pl: PlanLevel, q: Qualifier, u: UserId)
    requires pl.level >= 1
  {
    pl.minActiveDirects > 0 &&
      var found := Beneficiary(chain, pl, q);
      exists i :: pl.level - 1 <= i < |chain| && (found.Some? ==> i <= found.value) && chain[i] == u
  }

  /** What a run of the engine leaves in the snapshot table, given the table before it:
      nothing rewritten, new rows only as frozen now and of sponsors that some level asks for,
      and all consulted rows present. */
  ghost predicate LeavesSnapshots(before: Snapshots, after: Snapshots, period: Period, live: UserId -> nat,
                                  t: Thresholds, levels: seq<PlanLevel>, chain: seq<UserId>)
    requires forall pl :: pl in levels ==> pl.level >= 1
  {
    && Extends(before, after)
    && (forall k :: k in after && k !in before ==> k.1 == period && after[k] == Frozen(before, k.0, period, live, t))
    && (forall k :: k in after && k !in before ==>
          exists pl :: pl in levels && Consults(chain, pl, SnapshotQualifier(before, period, live, t), k.0))
    && forall pl :: pl in levels ==> Consulted(after, period, chain, pl, SnapshotQualifier(before, period, live, t))
  }

  /** Two qualifiers that agree up to where one search ends find the same sponsor. */
  lemma {:induction false} SameSearch(chain: seq<UserId>, from: nat, pl: PlanLevel, q: Qualifier, r: Qualifier)
    requires var found := FirstQualified(chain, from, pl, q);
             forall i :: from <= i < |chain| && (found.Some? ==> i <= found.value) ==>
               q(chain[i], pl) == r(chain[i], pl)
    ensures FirstQualified(chain, from, pl, r) == FirstQualified(chain, from, pl, q)
    decreases |chain| - from
  {
    if from < |chain| && !q(chain[from], pl) {
      SameSearch(chain, from + 1, pl, q, r);
    }
  }

  /** Frozen month: after one payment of a client, any later payment in the same period
      over the same upline and plan pays the same sponsor at every level, whatever
      snapshots were added and however the live subscription counts moved in between. */
  lemma FrozenMonth(before: Snapshots, after: Snapshots, later: Snapshots, period: Period,
                    live: UserId -> nat, laterLive: UserId -> nat, t: Thresholds,
                    levels: seq<PlanLevel>, chain: seq<UserId>, pl: PlanLevel)
    requires (forall l :: l in levels ==> l.level >= 1) && pl in levels
    requires LeavesSnapshots(before, after, period, live, t, levels, chain)
    requires Extends(after, later)
    ensures Beneficiary(chain, pl, SnapshotQualifier(later, period, laterLive, t)) ==
            Beneficiary(chain, pl, SnapshotQualifier(before, period, live, t))
  {
    var q, r := SnapshotQualifier(before, period, live, t), SnapshotQualifier(later, period, laterLive, t);
    forall i | pl.level - 1 <= i < |chain| && (Beneficiary(chain, pl, q).Some? ==> i <= Beneficiary(chain, pl, q).value)
      ensures q(chain[i], pl) == r(chain[i], pl)
    {
      if pl.minActiveDirects > 0 {
        var k := (chain[i], period);
        assert k in after && later[k] == after[k];
        assert after[k] == Frozen(before, chain[i], period, live, t);
        assert Frozen(later, chain[i], period, laterLive, t) == Frozen(before, chain[i], period, live, t);
      }
    }
    SameSearch(chain, pl.level - 1, pl, q, r);
  }
}
