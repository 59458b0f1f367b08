/** Month-frozen qualification snapshots: one row per (user, period), written once. */
module Qualification {
  import opened Common
  import opened SponsorGraph
  import opened CommissionPlans

  /** A billing period in its "YYYY-MM" form. */
  type Period = string

  datatype Snapshot = Snapshot(activeDirectCount: nat, qualifiesLevel2: bool, qualifiesLevel3: bool)

  datatype Thresholds = Thresholds(level2: int, level3: int)

  type Snapshots = map<(UserId, Period), Snapshot>

  function TakeSnapshot(activeDirectCount: nat, t: Thresholds): Snapshot {
    Snapshot(activeDirectCount, activeDirectCount >= t.level2, activeDirectCount >= t.level3)
  }

  function LevelThreshold(levels: seq<PlanLevel>, level: int, default: int): int {
    if levels == [] then default
    else if levels[0].level == level then levels[0].minActiveDirects
    else LevelThreshold(levels[1..], level, default)
  }

  /** Thresholds of the active plan, or the defaults 3 and 5 where it has no such level. */
  function ThresholdsOf(levels: seq<PlanLevel>): Thresholds {
    Thresholds(LevelThreshold(levels, 2, 3), LevelThreshold(levels, 3, 5))
  }

  ghost predicate LevelsDiffer(levels: seq<PlanLevel>) {
    forall i, j :: 0 <= i < j < |levels| ==> levels[i].level != levels[j].level
  }

  lemma {:induction false} ThresholdOfLevel(levels: seq<PlanLevel>, level: int, default: int)
    requires LevelsDiffer(levels)
    ensures forall pl :: pl in levels && pl.level == level ==>
              LevelThreshold(levels, level, default) == pl.minActiveDirects
    ensures (forall pl :: pl in levels ==> pl.level != level) ==> LevelThreshold(levels, level, default) == default
  {
    if levels != [] {
      ThresholdOfLevel(levels[1..], level, default);
      forall pl | pl in levels && pl.level == level
        ensures LevelThreshold(levels, level, default) == pl.minActiveDirects
      {
        assert levels[0].level == level ==> forall i :: 0 < i < |levels| ==> levels[i].level != level;
      }
    }
  }

  /** Which count unlocks which of the two levels a snapshot has a flag for: the plan's own
      threshold, or 3 and 5 where the plan has no such level. */
  lemma FlagsFollowThePlan(levels: seq<PlanLevel>, activeDirectCount: nat)
    requires LevelsDiffer(levels)
    ensures var s := TakeSnapshot(activeDirectCount, ThresholdsOf(levels));
            && s.activeDirectCount == activeDirectCount
            && (forall pl :: pl in levels && pl.level == 2 ==>
                  (s.qualifiesLevel2 <==> activeDirectCount >= pl.minActiveDirects))
            && (forall pl :: pl in levels && pl.level == 3 ==>
                  (s.qualifiesLevel3 <==> activeDirectCount >= pl.minActiveDirects))
            && ((forall pl :: pl in levels ==> pl.level != 2) ==> (s.qualifiesLevel2 <==> activeDirectCount >= 3))
            && ((forall pl :: pl in levels ==> pl.level != 3) ==> (s.qualifiesLevel3 <==> activeDirectCount >= 5))
  {
    ThresholdOfLevel(levels, 2, 3);
    ThresholdOfLevel(levels, 3, 5);
  }

  /** The snapshot a consultation yields: the frozen row, or one taken from the live count. */
  function Frozen(snaps: Snapshots, u: UserId, period: Period, live: UserId -> nat, t: Thresholds): Snapshot {
    if (u, period) in snaps then snaps[(u, period)] else TakeSnapshot(live(u), t)
  }

  /** No row is ever rewritten or lost. */
  ghost predicate Extends(before: Snapshots, after: Snapshots) {
    forall k :: k in before ==> k in after && after[k] == before[k]
  }

  /** The only new rows are those of the given users for the given period, and they hold
      what a consultation before the change would have yielded. */
  ghost predicate FrozenFor(before: Snapshots, after: Snapshots, users: seq<UserId>, period: Period,
                            live: UserId -> nat, t: Thresholds) {
    && Extends(before, after)
    && (forall u :: u in users ==> (u, period) in after && after[(u, period)] == Frozen(before, u, period, live, t))
    && (forall k :: k in after ==> k in before || (k.1 == period && k.0 in users))
  }

  lemma OneSponsorMore(before: Snapshots, mid: Snapshots, after: Snapshots, users: seq<UserId>, u: UserId,
                       period: Period, live: UserId -> nat, t: Thresholds)
    requires FrozenFor(before, mid, users, period, live, t) && u !in users
    requires after == mid[(u, period) := Frozen(mid, u, period, live, t)]
    ensures FrozenFor(before, after, users + [u], period, live, t)
  {
    if (u, period) in mid {
      assert after == mid;
    }
  }

  function SnapshotQualifies(s: Snapshot, pl: PlanLevel): bool {
    if pl.level == 2 then s.qualifiesLevel2
    else if pl.level == 3 then s.qualifiesLevel3
    else s.activeDirectCount >= pl.minActiveDirects
  }

  /** How the insert of a snapshot ends: it succeeds, or a concurrent payment or cron run
      has inserted the row in between, or it fails for another reason. */
  datatype Insert = Inserted | Raced(rival: Snapshot) | Failed

  class QualificationTable {
    var snapshots: Snapshots

    constructor ()
      ensures snapshots == map[]
    {
      snapshots := map[];
    }

    /** The frozen row if there is one. Otherwise a row from the live count, or the row of
        whoever was faster, and an error, with nothing written, if the insert failed and no
        such row is there. Whatever is returned is frozen from here on. */
    method GetOrCreateSnapshot(userId: UserId, period: Period, t: Thresholds, live: UserId -> nat, insert: Insert)
      returns (r: Result<Snapshot, string>)
      modifies this
      ensures Extends(old(snapshots), snapshots)
      ensures r.Err? <==> insert.Failed? && (userId, period) !in old(snapshots)
      ensures snapshots == if r.Ok? then old(snapshots)[(userId, period) := r.value] else old(snapshots)
      ensures insert.Inserted? ==> r == Ok(Frozen(old(snapshots), userId, period, live, t))
      ensures insert.Raced? && (userId, period) !in old(snapshots) ==> r == Ok(insert.rival)
      ensures insert.Inserted? && (userId, period) !in old(snapshots) ==>
                && r.value.activeDirectCount == live(userId)
                && (r.value.qualifiesLevel2 <==> live(userId) >= t.level2)
                && (r.value.qualifiesLevel3 <==> live(userId) >= t.level3)
    {
      var key := (userId, period);
      if key in snapshots {
        return Ok(snapshots[key]);
      }
      var activeDirectCount := live(userId);
      match insert {
        case Inserted =>
          snapshots := snapshots[key := TakeSnapshot(activeDirectCount, t)];
          return Ok(snapshots[key]);
        case Raced(rival) =>
          snapshots := snapshots[key := rival];
        case Failed =>
      }
      if key !in snapshots {
        return Err("Failed to freeze qualification snapshot");
      }
      r := Ok(snapshots[key]);
    }

    /** The monthly cron: freezes every sponsor, counts the new rows, and changes nothing
        on a second run. */
    method SnapshotAllSponsors(sponsors: seq<UserId>, period: Period, t: Thresholds, live: UserId -> nat)
      returns (created: nat)
      requires NoDuplicates(sponsors)
      modifies this
      ensures FrozenFor(old(snapshots), snapshots, sponsors, period, live, t)
      ensures created == |snapshots| - |old(snapshots)|
      ensures (forall u :: u in sponsors ==> (u, period) in old(snapshots)) ==> created == 0
    {
      created := 0;
      for i := 0 to |sponsors|
        invariant FrozenFor(old(snapshots), snapshots, sponsors[..i], period, live, t)
        invariant created == |snapshots| - |old(snapshots)|
        invariant (forall u :: u in sponsors ==> (u, period) in old(snapshots)) ==> created == 0
      {
        assert sponsors[..i + 1] == sponsors[..i] + [sponsors[i]];
        ghost var mid := snapshots;
        if (sponsors[i], period) !in snapshots {
          var _ := GetOrCreateSnapshot(sponsors[i], period, t, live, Inserted);
          created := created + 1;
        }
        OneSponsorMore(old(snapshots), mid, snapshots, sponsors[..i], sponsors[i], period, live, t);
      }
      assert sponsors[..|sponsors|] == sponsors;
    }
  }
}
