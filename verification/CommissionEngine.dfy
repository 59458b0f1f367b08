/** The commission engine: what one confirmed payment writes to the commission table and
    to the snapshot table. */
module CommissionEngine {
  import opened Common
  import opened SponsorGraph
  import opened Commissions
  import opened CommissionPlans
  import opened Qualification
  import opened Compression
  import opened Ledger

  predicate AlreadyProcessed(rows: seq<Commission>, paymentRef: string) {
    exists i :: 0 <= i < |rows| && rows[i].paymentRef == paymentRef
  }

  /** Whether a call gets past the early returns, as far as the upline walk. */
  predicate Distributes(rows: seq<Commission>, p: Payment, plan: Option<Plan>) {
    p.paymentRef != "" && p.amount > 0 && !AlreadyProcessed(rows, p.paymentRef)
    && plan.Some? && plan.value.levels != []
  }

  /** Everything the database holds besides the commission table. */
  datatype Context = Context(links: Links, plan: Option<Plan>, period: Period, live: UserId -> nat, now: int)

  ghost predicate PlanOk(plan: Option<Plan>) {
    plan.Some? ==> ValidLevels(plan.value.levels)
  }

  function EngineQualifier(snaps: Snapshots, c: Context): Qualifier
    requires c.plan.Some?
  {
    SnapshotQualifier(snaps, c.period, c.live, ThresholdsOf(c.plan.value.levels))
  }

  /** The rows a call inserts. */
  function EngineRows(rows: seq<Commission>, snaps: Snapshots, p: Payment, c: Context): seq<Commission>
    requires c.plan.Some? ==> forall pl :: pl in c.plan.value.levels ==> pl.level >= 1
  {
    if Distributes(rows, p, c.plan) then
      PaymentRows(p, c.plan.value.levels, Upline(c.links, p.userId), EngineQualifier(snaps, c), c.now)
    else []
  }

  /** The snapshot table after a call. */
  ghost predicate EngineSnapshots(rows: seq<Commission>, before: Snapshots, after: Snapshots, p: Payment, c: Context)
    requires PlanOk(c.plan)
  {
    if Distributes(rows, p, c.plan) then
      LeavesSnapshots(before, after, c.period, c.live, ThresholdsOf(c.plan.value.levels), c.plan.value.levels,
                      Upline(c.links, p.userId))
    else after == before
  }

  /** The engine only ever brings rows that the ledger accepts as new. */
  lemma {:induction false} PaymentRowsAreNew(p: Payment, levels: seq<PlanLevel>, chain: seq<UserId>, q: Qualifier,
                                             now: int)
    requires ValidLevels(levels) && p.amount >= 0
    ensures forall r :: r in PaymentRows(p, levels, chain, q, now) ==> NewRow(r) && r.paymentRef == p.paymentRef
  {
    if levels != [] {
      var n := |levels| - 1;
      PaymentRowsAreNew(p, levels[..n], chain, q, now);
      assert levels[n] in levels;
      LevelAmountBounds(p, levels[n]);
    }
  }

  /** With no row of this payment in the table yet, no key is taken: all rows go in. */
  lemma {:induction false} NoneSkipped(rows: seq<Commission>, added: seq<Commission>, paymentRef: string)
    requires !AlreadyProcessed(rows, paymentRef)
    requires forall i :: 0 <= i < |added| ==> added[i].paymentRef == paymentRef
    requires forall i, j :: 0 <= i < j < |added| ==> added[i].level < added[j].level
    ensures InsertRows(rows, added) == rows + added
  {
    if added != [] {
      var n := |added| - 1;
      NoneSkipped(rows, added[..n], paymentRef);
      var t := rows + added[..n];
      forall i | 0 <= i < |t|
        ensures !SameKey(t[i], added[n])
      {
        if i >= |rows| { assert t[i] == added[i - |rows|]; }
      }
    }
  }

  /** The whole effect of a call on the commission table: its rows, all of them, are
      appended. */
  lemma EngineInsertsExactly(rows: seq<Commission>, snaps: Snapshots, p: Payment, c: Context)
    requires PlanOk(c.plan)
    ensures InsertRows(rows, EngineRows(rows, snaps, p, c)) == rows + EngineRows(rows, snaps, p, c)
    ensures forall r :: r in EngineRows(rows, snaps, p, c) ==> NewRow(r) && r.paymentRef == p.paymentRef
  {
    if Distributes(rows, p, c.plan) {
      var levels, chain, q := c.plan.value.levels, Upline(c.links, p.userId), EngineQualifier(snaps, c);
      assert EngineRows(rows, snaps, p, c) == PaymentRows(p, levels, chain, q, c.now);
      PaymentRowsAreNew(p, levels, chain, q, c.now);
      RowsHaveDistinctLevels(p, levels, chain, q, c.now);
      NoneSkipped(rows, EngineRows(rows, snaps, p, c), p.paymentRef);
    }
  }

  /** A payment that has rows is never distributed again, however the graph, the plan,
      the snapshots and the table itself have moved on. */
  lemma PaymentDistributesOnce(rows: seq<Commission>, snaps: Snapshots, p: Payment, c: Context,
                               later: seq<Commission>, snaps': Snapshots, c': Context)
    requires PlanOk(c.plan) && PlanOk(c'.plan) && EngineRows(rows, snaps, p, c) != []
    requires var now := rows + EngineRows(rows, snaps, p, c);
             |now| <= |later| && forall i :: 0 <= i < |now| ==> later[i].paymentRef == now[i].paymentRef
    ensures EngineRows(later, snaps', p, c') == []
  {
    EngineInsertsExactly(rows, snaps, p, c);
    var added := EngineRows(rows, snaps, p, c);
    assert added[0] in added;
    assert (rows + added)[|rows|] == added[0];
    assert later[|rows|].paymentRef == p.paymentRef;
  }

  // ------------------------------------------------------------- who is paid, and for what

  /** Who qualifies. A level without a threshold asks nothing. Any other asks the sponsor's row
      for the period, its flag at levels 2 and 3 and its count elsewhere; a sponsor who has no
      row yet is judged by the live count against the level's own threshold. */
  lemma CountDecides(snaps: Snapshots, c: Context, u: UserId, pl: PlanLevel)
    requires c.plan.Some? && LevelsDiffer(c.plan.value.levels) && pl in c.plan.value.levels
    ensures pl.minActiveDirects <= 0 ==> EngineQualifier(snaps, c)(u, pl)
    ensures pl.minActiveDirects > 0 && (u, c.period) !in snaps ==>
              (EngineQualifier(snaps, c)(u, pl) <==> c.live(u) >= pl.minActiveDirects)
    ensures pl.minActiveDirects > 0 && (u, c.period) in snaps ==>
              var row := snaps[(u, c.period)];
              (EngineQualifier(snaps, c)(u, pl) <==>
                 if pl.level == 2 then row.qualifiesLevel2
                 else if pl.level == 3 then row.qualifiesLevel3
                 else row.activeDirectCount >= pl.minActiveDirects)
  {
    var levels := c.plan.value.levels;
    FlagsFollowThePlan(levels, c.live(u));
    var s := Frozen(snaps, u, c.period, c.live, ThresholdsOf(levels));
    assert (u, c.period) !in snaps ==> s == TakeSnapshot(c.live(u), ThresholdsOf(levels));
    assert EngineQualifier(snaps, c)(u, pl) <==> pl.minActiveDirects <= 0 || SnapshotQualifies(s, pl);
  }

  /** When a call distributes anything: the payment has a reference, a positive amount and no
      rows yet, there is a plan, and some level of it pays some sponsor. */
  lemma PaymentEarnsIff(rows: seq<Commission>, snaps: Snapshots, p: Payment, c: Context)
    requires PlanOk(c.plan)
    ensures EngineRows(rows, snaps, p, c) != [] <==>
            && p.paymentRef != "" && p.amount > 0
            && (forall r :: r in rows ==> r.paymentRef != p.paymentRef)
            && c.plan.Some?
            && exists pl, i: nat ::
                 pl in c.plan.value.levels && PaysIndex(Upline(c.links, p.userId), pl, EngineQualifier(snaps, c), i)
  {
    if Distributes(rows, p, c.plan) {
      SomeLevelPays(p, c.plan.value.levels, Upline(c.links, p.userId), EngineQualifier(snaps, c), c.now);
    }
  }

  lemma SomeLevelPays(p: Payment, levels: seq<PlanLevel>, chain: seq<UserId>, q: Qualifier, now: int)
    requires ValidLevels(levels)
    ensures PaymentRows(p, levels, chain, q, now) != [] <==>
            exists pl, i: nat :: pl in levels && PaysIndex(chain, pl, q, i)
  {
    var added := PaymentRows(p, levels, chain, q, now);
    if added != [] {
      RowsAreTheLevelsRows(p, levels, chain, q, now, added[0]);
      var k :| 0 <= k < |levels| && LevelRow(p, levels[k], chain, q, now) == Some(added[0]);
      RowRecordsPayment(p, levels[k], chain, q, now);
      assert levels[k] in levels;
    }
    forall pl, i: nat | pl in levels && PaysIndex(chain, pl, q, i)
      ensures added != []
    {
      RowRecordsPayment(p, pl, chain, q, now);
      RowOfLevel(p, levels, chain, q, now, pl, LevelRow(p, pl, chain, q, now).value);
    }
  }

  /** What it then distributes, level by level: the level's row, for the sponsor it pays, with
      the payment's own data on it, and no row for a level that pays nobody. */
  lemma RowsCreditTheSponsors(rows: seq<Commission>, snaps: Snapshots, p: Payment, c: Context, pl: PlanLevel)
    requires PlanOk(c.plan) && Distributes(rows, p, c.plan) && pl in c.plan.value.levels
    ensures var added, chain := EngineRows(rows, snaps, p, c), Upline(c.links, p.userId);
            && (forall i: nat :: PaysIndex(chain, pl, EngineQualifier(snaps, c), i) ==>
                  exists r :: r in added && r.level == pl.level && Credits(r, p, pl, chain, i, c.now))
            && (forall r :: r in added && r.level == pl.level ==>
                  exists i: nat :: PaysIndex(chain, pl, EngineQualifier(snaps, c), i)
                                   && Credits(r, p, pl, chain, i, c.now))
  {
    var levels, chain, q := c.plan.value.levels, Upline(c.links, p.userId), EngineQualifier(snaps, c);
    var added, row := EngineRows(rows, snaps, p, c), LevelRow(p, pl, chain, q, c.now);
    assert added == PaymentRows(p, levels, chain, q, c.now);
    RowRecordsPayment(p, pl, chain, q, c.now);
    if row.Some? { RowOfLevel(p, levels, chain, q, c.now, pl, row.value); }
    forall r | r in added && r.level == pl.level
      ensures Some(r) == row
    {
      RowOfLevel(p, levels, chain, q, c.now, pl, r);
    }
  }

  /** Every row of a call credits some level's sponsor. */
  lemma CreditedBy(rows: seq<Commission>, snaps: Snapshots, p: Payment, c: Context, r: Commission)
    returns (pl: PlanLevel, i: nat)
    requires PlanOk(c.plan) && r in EngineRows(rows, snaps, p, c)
    ensures c.plan.Some? && pl in c.plan.value.levels
    ensures PaysIndex(Upline(c.links, p.userId), pl, EngineQualifier(snaps, c), i)
    ensures Credits(r, p, pl, Upline(c.links, p.userId), i, c.now)
  {
    var levels, chain, q := c.plan.value.levels, Upline(c.links, p.userId), EngineQualifier(snaps, c);
    RowsAreTheLevelsRows(p, levels, chain, q, c.now, r);
    var k :| 0 <= k < |levels| && LevelRow(p, levels[k], chain, q, c.now) == Some(r);
    pl := levels[k];
    assert pl in levels;
    RowRecordsPayment(p, pl, chain, q, c.now);
    var at: nat :| PaysIndex(chain, pl, q, at);
    i := at;
  }

  ghost predicate PaysByCount(chain: seq<UserId>, pl: PlanLevel, live: UserId -> nat, i: nat) {
    && pl.level - 1 <= i < |chain| && live(chain[i]) >= pl.minActiveDirects
    && forall j :: 0 <= j && pl.level - 1 <= j < i ==> live(chain[j]) < pl.minActiveDirects
  }

  /** The first payment of a period, from the live counts to the rows: where no sponsor of the
      client has a snapshot yet, a level pays exactly the first sponsor from the natural one
      upwards who has as many active directs as the level asks for. */
  lemma FreshMonthPays(rows: seq<Commission>, snaps: Snapshots, p: Payment, c: Context, pl: PlanLevel, i: nat)
    requires PlanOk(c.plan) && Distributes(rows, p, c.plan) && pl in c.plan.value.levels
    requires forall u :: u in Upline(c.links, p.userId) ==> (u, c.period) !in snaps
    requires i < |Upline(c.links, p.userId)|
    ensures var chain := Upline(c.links, p.userId);
            (exists r :: r in EngineRows(rows, snaps, p, c) && r.level == pl.level && r.agentId == chain[i]) <==>
            PaysByCount(chain, pl, c.live, i)
  {
    var chain, q := Upline(c.links, p.userId), EngineQualifier(snaps, c);
    assert PaysIndex(chain, pl, q, i) <==> PaysByCount(chain, pl, c.live, i) by {
      forall j | 0 <= j < |chain|
        ensures q(chain[j], pl) <==> c.live(chain[j]) >= pl.minActiveDirects
      {
        CountDecides(snaps, c, chain[j], pl);
      }
    }
    RowsCreditTheSponsors(rows, snaps, p, c, pl);
    OnlyIndexPaid(p, pl, chain, q, c.now, EngineRows(rows, snaps, p, c), i);
  }

  /** In a list without repeats a level credits the sponsor at index i just if it pays it. */
  lemma OnlyIndexPaid(p: Payment, pl: PlanLevel, chain: seq<UserId>, q: Qualifier, now: int, added: seq<Commission>,
                      i: nat)
    requires NoDuplicates(chain) && i < |chain| && 1 <= pl.level
    requires forall k: nat :: PaysIndex(chain, pl, q, k) ==>
               exists r :: r in added && r.level == pl.level && Credits(r, p, pl, chain, k, now)
    requires forall r :: r in added && r.level == pl.level ==>
               exists k: nat :: PaysIndex(chain, pl, q, k) && Credits(r, p, pl, chain, k, now)
    ensures (exists r :: r in added && r.level == pl.level && r.agentId == chain[i]) <==> PaysIndex(chain, pl, q, i)
  {
    if r :| r in added && r.level == pl.level && r.agentId == chain[i] {
      var k: nat :| PaysIndex(chain, pl, q, k) && Credits(r, p, pl, chain, k, now);
      assert k == i;
    }
  }

  /** Two lists of rows that credit the same sponsors at the same levels in the same way. */
  ghost predicate SamePayees(a: seq<Commission>, b: seq<Commission>) {
    && |a| == |b|
    && forall i :: 0 <= i < |a| ==>
         && a[i].level == b[i].level && a[i].agentId == b[i].agentId
         && a[i].wasCompressed == b[i].wasCompressed && a[i].originalBeneficiaryId == b[i].originalBeneficiaryId
  }

  lemma {:induction false} SameBeneficiariesSamePayees(p: Payment, p': Payment, levels: seq<PlanLevel>,
                                                       chain: seq<UserId>, q: Qualifier, r: Qualifier,
                                                       now: int, now': int)
    requires forall i :: 0 <= i < |levels| ==>
               levels[i].level >= 1 && Beneficiary(chain, levels[i], q) == Beneficiary(chain, levels[i], r)
    ensures SamePayees(PaymentRows(p, levels, chain, q, now), PaymentRows(p', levels, chain, r, now'))
  {
    if levels != [] {
      SameBeneficiariesSamePayees(p, p', levels[..|levels| - 1], chain, q, r, now, now');
    }
  }

  /** Frozen month, end to end: once a client's payment has been distributed, every later
      payment of the same client in the period, over the same upline and plan, credits the
      same sponsors at every level, compressed in the same way. */
  lemma SamePayeesAllMonth(rows: seq<Commission>, before: Snapshots, after: Snapshots, p: Payment, c: Context,
                           rows': seq<Commission>, later: Snapshots, p': Payment, c': Context)
    requires PlanOk(c.plan) && c'.plan == c.plan && c'.period == c.period
    requires Upline(c'.links, p'.userId) == Upline(c.links, p.userId)
    requires Distributes(rows, p, c.plan) && Distributes(rows', p', c'.plan)
    requires EngineSnapshots(rows, before, after, p, c) && Extends(after, later)
    ensures SamePayees(EngineRows(rows, before, p, c), EngineRows(rows', later, p', c'))
  {
    var levels, chain := c.plan.value.levels, Upline(c.links, p.userId);
    forall i | 0 <= i < |levels|
      ensures Beneficiary(chain, levels[i], EngineQualifier(before, c))
              == Beneficiary(chain, levels[i], EngineQualifier(later, c'))
    {
      FrozenMonth(before, after, later, c.period, c.live, c'.live, ThresholdsOf(levels), levels, chain, levels[i]);
    }
    SameBeneficiariesSamePayees(p, p', levels, chain, EngineQualifier(before, c), EngineQualifier(later, c'), c.now,
                                c'.now);
  }

  // -------------------------------------------------------- what the search consults

  lemma ExtendsFurther(a: Snapshots, b: Snapshots, c: Snapshots)
    requires Extends(a, b) && Extends(b, c)
    ensures Extends(a, c)
  {
  }

  /** New rows are of sponsors whose snapshots the level asks for. */
  ghost predicate OnlyConsulted(before: Snapshots, after: Snapshots, chain: seq<UserId>, pl: PlanLevel, q: Qualifier)
    requires pl.level >= 1
  {
    forall k :: k in after && k !in before ==> Consults(chain, pl, q, k.0)
  }

  /** New rows are of sponsors between the natural one and `idx`. */
  ghost predicate NewBelow(before: Snapshots, after: Snapshots, chain: seq<UserId>, pl: PlanLevel, idx: nat)
    requires 1 <= pl.level && idx <= |chain|
  {
    forall k :: k in after && k !in before ==>
      pl.minActiveDirects > 0 && exists j :: pl.level - 1 <= j < idx && chain[j] == k.0
  }

  lemma BelowIsConsulted(before: Snapshots, after: Snapshots, chain: seq<UserId>, pl: PlanLevel, q: Qualifier, idx: nat)
    requires 1 <= pl.level && idx <= |chain| && NewBelow(before, after, chain, pl, idx)
    requires Beneficiary(chain, pl, q).Some? ==> Beneficiary(chain, pl, q).value + 1 >= idx
    ensures OnlyConsulted(before, after, chain, pl, q)
  {
    forall k | k in after && k !in before
      ensures Consults(chain, pl, q, k.0)
    {
      var j :| pl.level - 1 <= j < idx && chain[j] == k.0;
    }
  }

  lemma OneMoreBelow(before: Snapshots, mid: Snapshots, after: Snapshots, chain: seq<UserId>, pl: PlanLevel, idx: nat)
    requires 1 <= pl.level <= idx + 1 && idx < |chain| && NewBelow(before, mid, chain, pl, idx)
    requires forall k :: k in after && k !in mid ==> k.0 == chain[idx] && pl.minActiveDirects > 0
    ensures NewBelow(before, after, chain, pl, idx + 1)
  {
    forall k | k in after && k !in before
      ensures pl.minActiveDirects > 0 && exists j :: pl.level - 1 <= j < idx + 1 && chain[j] == k.0
    {
      if k in mid {
        var j :| pl.level - 1 <= j < idx && chain[j] == k.0;
      } else {
        assert chain[idx] == k.0;
      }
    }
  }

  lemma ConsultedTwice(before: Snapshots, mid: Snapshots, after: Snapshots, chain: seq<UserId>, pl: PlanLevel,
                       q: Qualifier)
    requires pl.level >= 1 && OnlyConsulted(before, mid, chain, pl, q) && OnlyConsulted(mid, after, chain, pl, q)
    ensures OnlyConsulted(before, after, chain, pl, q)
  {
  }

  /** The search has come to `idx`: nobody below qualified, and all of them are frozen. */
  ghost predicate Searched(start: Snapshots, now: Snapshots, period: Period, chain: seq<UserId>, pl: PlanLevel,
                           q: Qualifier, idx: nat)
    requires 1 <= pl.level <= idx <= |chain|
  {
    && Extends(start, now)
    && Beneficiary(chain, pl, q) == FirstQualified(chain, idx, pl, q)
    && (pl.minActiveDirects > 0 ==> forall i :: pl.level - 1 <= i < idx ==> (chain[i], period) in now)
  }

  /** One sponsor more: either the search goes on, or it has found its result. */
  lemma SearchStep(start: Snapshots, mid: Snapshots, after: Snapshots, period: Period, chain: seq<UserId>,
                   pl: PlanLevel, q: Qualifier, idx: nat)
    requires 1 <= pl.level <= idx < |chain| && Searched(start, mid, period, chain, pl, q, idx)
    requires Extends(mid, after) && (pl.minActiveDirects > 0 ==> (chain[idx], period) in after)
    ensures Extends(start, after)
    ensures !q(chain[idx], pl) ==> Searched(start, after, period, chain, pl, q, idx + 1)
    ensures q(chain[idx], pl) ==> Beneficiary(chain, pl, q) == Some(idx) && Consulted(after, period, chain, pl, q)
  {
    ExtendsFurther(start, mid, after);
  }

  lemma SearchEnd(start: Snapshots, now: Snapshots, period: Period, chain: seq<UserId>, pl: PlanLevel, q: Qualifier)
    requires 1 <= pl.level <= |chain| && Searched(start, now, period, chain, pl, q, |chain|)
    ensures Beneficiary(chain, pl, q) == None && Consulted(now, period, chain, pl, q)
  {
  }

  class CommissionEngine {
    const qualification: QualificationTable

    constructor (qualification: QualificationTable)
      ensures this.qualification == qualification
    {
      this.qualification := qualification;
    }

    /** The month-frozen check for one sponsor and level, with the per-call cache in
        front of the snapshot table. `before` is the table when the call began. */
    method QualifiesFor(userId: UserId, pl: PlanLevel, c: Context, t: Thresholds, cache: map<UserId, Snapshot>,
                        ghost before: Snapshots)
      returns (ok: bool, cache': map<UserId, Snapshot>)
      requires InStep(before, c, t, cache)
      modifies qualification
      ensures InStep(before, c, t, cache')
      ensures Extends(old(qualification.snapshots), qualification.snapshots)
      ensures ok == SnapshotQualifier(before, c.period, c.live, t)(userId, pl)
      ensures pl.minActiveDirects > 0 ==> (userId, c.period) in qualification.snapshots
      ensures forall k :: k in qualification.snapshots && k !in old(qualification.snapshots) ==>
                k.0 == userId && pl.minActiveDirects > 0
    {
      cache' := cache;
      if pl.minActiveDirects <= 0 {
        return true, cache;
      }
      if userId !in cache' {
        var snapshot := qualification.GetOrCreateSnapshot(userId, c.period, t, c.live, Inserted);
        cache' := cache'[userId := snapshot.value];
      }
      ghost var key := (userId, c.period);
      assert qualification.snapshots[key] == Frozen(before, userId, c.period, c.live, t);
      ok := SnapshotQualifies(cache'[userId], pl);
    }

    /** The cache only holds table rows, and the table only holds what it held before the
        call or what a consultation before the call would have yielded. */
    ghost predicate InStep(before: Snapshots, c: Context, t: Thresholds, cache: map<UserId, Snapshot>)
      reads qualification
    {
      && Extends(before, qualification.snapshots)
      && (forall k :: k in qualification.snapshots && k !in before ==>
            k.1 == c.period && qualification.snapshots[k] == Frozen(before, k.0, c.period, c.live, t))
      && (forall u :: u in cache ==>
            (u, c.period) in qualification.snapshots && cache[u] == qualification.snapshots[(u, c.period)])
    }

    /** Dynamic compression for one level: the natural sponsor if qualified, else the first
        qualified one above. */
    method FindBeneficiary(chain: seq<UserId>, pl: PlanLevel, c: Context, t: Thresholds, cache: map<UserId, Snapshot>,
                           ghost before: Snapshots)
      returns (found: Option<nat>, cache': map<UserId, Snapshot>)
      requires 1 <= pl.level <= |chain| && InStep(before, c, t, cache)
      modifies qualification
      ensures InStep(before, c, t, cache')
      ensures Extends(old(qualification.snapshots), qualification.snapshots)
      ensures found == Beneficiary(chain, pl, SnapshotQualifier(before, c.period, c.live, t))
      ensures Consulted(qualification.snapshots, c.period, chain, pl, SnapshotQualifier(before, c.period, c.live, t))
      ensures OnlyConsulted(old(qualification.snapshots), qualification.snapshots, chain, pl,
                            SnapshotQualifier(before, c.period, c.live, t))
    {
      ghost var q := SnapshotQualifier(before, c.period, c.live, t);
      var natural := pl.level - 1;
      var ok;
      ok, cache' := QualifiesFor(chain[natural], pl, c, t, cache, before);
      OneMoreBelow(old(qualification.snapshots), old(qualification.snapshots), qualification.snapshots, chain, pl,
                   natural);
      BelowIsConsulted(old(qualification.snapshots), qualification.snapshots, chain, pl, q, pl.level);
      if ok {
        return Some(natural), cache';
      }
      label checked:
      found, cache' := SearchAbove(chain, pl, c, t, cache', before);
      ConsultedTwice(old(qualification.snapshots), old@checked(qualification.snapshots), qualification.snapshots, chain,
                     pl, q);
      ExtendsFurther(old(qualification.snapshots), old@checked(qualification.snapshots), qualification.snapshots);
    }

    /** The loop upwards from the natural sponsor, who did not qualify. */
    method SearchAbove(chain: seq<UserId>, pl: PlanLevel, c: Context, t: Thresholds, cache: map<UserId, Snapshot>,
                       ghost before: Snapshots)
      returns (found: Option<nat>, cache': map<UserId, Snapshot>)
      requires 1 <= pl.level <= |chain| && InStep(before, c, t, cache)
      requires !SnapshotQualifier(before, c.period, c.live, t)(chain[pl.level - 1], pl)
      requires pl.minActiveDirects > 0 ==> (chain[pl.level - 1], c.period) in qualification.snapshots
      modifies qualification
      ensures InStep(before, c, t, cache')
      ensures Extends(old(qualification.snapshots), qualification.snapshots)
      ensures found == Beneficiary(chain, pl, SnapshotQualifier(before, c.period, c.live, t))
      ensures Consulted(qualification.snapshots, c.period, chain, pl, SnapshotQualifier(before, c.period, c.live, t))
      ensures OnlyConsulted(old(qualification.snapshots), qualification.snapshots, chain, pl,
                            SnapshotQualifier(before, c.period, c.live, t))
    {
      ghost var q := SnapshotQualifier(before, c.period, c.live, t);
      var natural := pl.level - 1;
      cache' := cache;
      var idx := natural + 1;
      while idx < |chain|
        invariant natural < idx <= |chain| && InStep(before, c, t, cache')
        invariant Searched(old(qualification.snapshots), qualification.snapshots, c.period, chain, pl, q, idx)
        invariant NewBelow(old(qualification.snapshots), qualification.snapshots, chain, pl, idx)
      {
        ghost var mid := qualification.snapshots;
        var ok;
        ok, cache' := QualifiesFor(chain[idx], pl, c, t, cache', before);
        SearchStep(old(qualification.snapshots), mid, qualification.snapshots, c.period, chain, pl, q, idx);
        OneMoreBelow(old(qualification.snapshots), mid, qualification.snapshots, chain, pl, idx);
        if ok {
          BelowIsConsulted(old(qualification.snapshots), qualification.snapshots, chain, pl, q, idx + 1);
          return Some(idx), cache';
        }
        idx := idx + 1;
      }
      SearchEnd(old(qualification.snapshots), qualification.snapshots, c.period, chain, pl, q);
      BelowIsConsulted(old(qualification.snapshots), qualification.snapshots, chain, pl, q, |chain|);
      found := None;
    }

    method DistributeLevels(levels: seq<PlanLevel>, chain: seq<UserId>, p: Payment, c: Context, t: Thresholds)
      returns (added: seq<Commission>)
      requires ValidLevels(levels)
      modifies qualification
      ensures added == PaymentRows(p, levels, chain,
                                   SnapshotQualifier(old(qualification.snapshots), c.period, c.live, t), c.now)
      ensures LeavesSnapshots(old(qualification.snapshots), qualification.snapshots, c.period, c.live, t, levels, chain)
    {
      added := [];
      var cache: map<UserId, Snapshot> := map[];
      ghost var before := qualification.snapshots;
      ghost var q := SnapshotQualifier(before, c.period, c.live, t);
      for n := 0 to |levels|
        invariant InStep(before, c, t, cache)
        invariant added == PaymentRows(p, levels[..n], chain, q, c.now)
        invariant AllConsulted(qualification.snapshots, c.period, chain, levels[..n], q)
        invariant NewAreConsulted(before, qualification.snapshots, chain, levels[..n], q)
      {
        assert levels[n] in levels;
        var row;
        ghost var mid := qualification.snapshots;
        row, cache := DistributeLevel(levels[n], chain, p, c, t, cache, before);
        LevelDone(before, mid, qualification.snapshots, c.period, chain, levels, n, q);
        PaymentRowsStep(p, levels, n, chain, q, c.now);
        added := added + row;
      }
      assert levels[..|levels|] == levels;
    }

    method DistributeLevel(pl: PlanLevel, chain: seq<UserId>, p: Payment, c: Context, t: Thresholds,
                           cache: map<UserId, Snapshot>, ghost before: Snapshots)
      returns (row: seq<Commission>, cache': map<UserId, Snapshot>)
      requires pl.level >= 1 && InStep(before, c, t, cache)
      modifies qualification
      ensures InStep(before, c, t, cache')
      ensures Extends(old(qualification.snapshots), qualification.snapshots)
      ensures row == OptionToSeq(LevelRow(p, pl, chain, SnapshotQualifier(before, c.period, c.live, t), c.now))
      ensures Consulted(qualification.snapshots, c.period, chain, pl, SnapshotQualifier(before, c.period, c.live, t))
      ensures OnlyConsulted(old(qualification.snapshots), qualification.snapshots, chain, pl,
                            SnapshotQualifier(before, c.period, c.live, t))
    {
      cache' := cache;
      var natural := pl.level - 1;
      var found: Option<nat> := None;
      if natural < |chain| {
        found, cache' := FindBeneficiary(chain, pl, c, t, cache, before);
      }
      assert found == Beneficiary(chain, pl, SnapshotQualifier(before, c.period, c.live, t));
      if found.None? {
        return [], cache';
      }
      var wasCompressed := found.value != natural;
      row := [Commission(
        chain[found.value], p.userId, p.paymentRef, p.provider, pl.level, p.amount, pl.rate,
        LevelAmount(p, pl), p.currency,
        wasCompressed, if wasCompressed then Some(chain[natural]) else None, c.now,
        EARNED, false, None, None)];
    }

    /** One confirmed payment. */
    method ProcessPayment(rows: seq<Commission>, p: Payment, c: Context) returns (added: seq<Commission>)
      requires PlanOk(c.plan)
      modifies qualification
      ensures added == EngineRows(rows, old(qualification.snapshots), p, c)
      ensures EngineSnapshots(rows, old(qualification.snapshots), qualification.snapshots, p, c)
    {
      if p.paymentRef == "" || p.amount <= 0 {
        return [];
      }
      if exists i :: 0 <= i < |rows| && rows[i].paymentRef == p.paymentRef {
        return [];
      }
      if c.plan.None? || c.plan.value.levels == [] {
        return [];
      }
      var levels := c.plan.value.levels;
      var chain := WalkUpline(c.links, p.userId);
      added := DistributeLevels(levels, chain, p, c, ThresholdsOf(levels));
    }
  }

  ghost predicate AllConsulted(snaps: Snapshots, period: Period, chain: seq<UserId>, levels: seq<PlanLevel>,
                               q: Qualifier)
    requires forall pl :: pl in levels ==> pl.level >= 1
  {
    forall pl :: pl in levels ==> Consulted(snaps, period, chain, pl, q)
  }

  /** Every new row is of a sponsor that one of the levels asks for. */
  ghost predicate NewAreConsulted(before: Snapshots, after: Snapshots, chain: seq<UserId>, levels: seq<PlanLevel>,
                                  q: Qualifier)
    requires forall pl :: pl in levels ==> pl.level >= 1
  {
    forall k :: k in after && k !in before ==> exists pl :: pl in levels && Consults(chain, pl, q, k.0)
  }

  lemma NewOfOneLevelMore(before: Snapshots, mid: Snapshots, after: Snapshots, chain: seq<UserId>,
                          levels: seq<PlanLevel>, last: PlanLevel, q: Qualifier)
    requires (forall pl :: pl in levels ==> pl.level >= 1) && last.level >= 1
    requires NewAreConsulted(before, mid, chain, levels, q) && OnlyConsulted(mid, after, chain, last, q)
    ensures forall pl :: pl in levels + [last] ==> pl.level >= 1
    ensures NewAreConsulted(before, after, chain, levels + [last], q)
  {
    forall k | k in after && k !in before
      ensures exists pl :: pl in levels + [last] && Consults(chain, pl, q, k.0)
    {
      if k in mid {
        var pl :| pl in levels && Consults(chain, pl, q, k.0);
        assert pl in levels + [last];
      } else {
        assert last in levels + [last];
      }
    }
  }

  lemma ConsultedStays(before: Snapshots, after: Snapshots, period: Period, chain: seq<UserId>, levels: seq<PlanLevel>,
                       q: Qualifier)
    requires Extends(before, after) && (forall pl :: pl in levels ==> pl.level >= 1)
    requires AllConsulted(before, period, chain, levels, q)
    ensures AllConsulted(after, period, chain, levels, q)
  {
    forall pl | pl in levels
      ensures Consulted(after, period, chain, pl, q)
    {
      assert Consulted(before, period, chain, pl, q);
    }
  }

  /** One level more of a plan is decided. */
  lemma LevelDone(before: Snapshots, mid: Snapshots, after: Snapshots, period: Period, chain: seq<UserId>,
                  levels: seq<PlanLevel>, n: nat, q: Qualifier)
    requires ValidLevels(levels) && n < |levels| && Extends(mid, after)
    requires AllConsulted(mid, period, chain, levels[..n], q) && NewAreConsulted(before, mid, chain, levels[..n], q)
    requires Consulted(after, period, chain, levels[n], q) && OnlyConsulted(mid, after, chain, levels[n], q)
    ensures AllConsulted(after, period, chain, levels[..n + 1], q)
    ensures NewAreConsulted(before, after, chain, levels[..n + 1], q)
  {
    assert levels[..n + 1] == levels[..n] + [levels[n]];
    ConsultedStays(mid, after, period, chain, levels[..n], q);
    NewOfOneLevelMore(before, mid, after, chain, levels[..n], levels[n], q);
  }

  lemma PaymentRowsStep(p: Payment, levels: seq<PlanLevel>, n: nat, chain: seq<UserId>, q: Qualifier, now: int)
    requires n < |levels| && forall pl :: pl in levels ==> pl.level >= 1
    ensures PaymentRows(p, levels[..n + 1], chain, q, now) ==
            PaymentRows(p, levels[..n], chain, q, now) + OptionToSeq(LevelRow(p, levels[n], chain, q, now))
  {
    assert levels[..n + 1][..n] == levels[..n];
  }
}
