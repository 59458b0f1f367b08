/** Compensation plans: validation, activation, and the levels the engine reads. */
module CommissionPlans {
  import opened Common

  datatype LevelInput = LevelInput(level: int, rate: real, minActiveDirects: Option<real>)

  datatype PlanLevel = PlanLevel(level: int, rate: real, minActiveDirects: int)

  datatype Plan = Plan(name: string, isActive: bool, levels: seq<PlanLevel>)

  datatype PlanError = NoLevels | DuplicateLevels | LevelOutOfRange | RateOutOfRange | BadThreshold

  function Threshold(l: LevelInput): real {
    match l.minActiveDirects
    case Some(t) => t
    case None => 0.0
  }

  predicate IsInteger(x: real) {
    x.Floor as real == x
  }

  predicate GoodThreshold(t: real) {
    0.0 <= t <= 1000.0 && IsInteger(t)
  }

  predicate GoodLevel(l: LevelInput) {
    1 <= l.level <= 20 && 0.0 <= l.rate <= 100.0 && GoodThreshold(Threshold(l))
  }

  ghost predicate DistinctLevels(levels: seq<LevelInput>) {
    forall i, j :: 0 <= i < j < |levels| ==> levels[i].level != levels[j].level
  }

  /** What the plan validation promises about every plan it lets through. */
  ghost predicate Acceptable(levels: seq<LevelInput>) {
    levels != [] && DistinctLevels(levels) && forall l :: l in levels ==> GoodLevel(l)
  }

  /** A stored plan as the engine reads it: levels in ascending order, hence distinct. */
  ghost predicate ValidLevels(levels: seq<PlanLevel>) {
    && (forall i, j :: 0 <= i < j < |levels| ==> levels[i].level < levels[j].level)
    && forall l :: l in levels ==> 1 <= l.level <= 20 && 0.0 <= l.rate <= 100.0 && 0 <= l.minActiveDirects <= 1000
  }

  /** A stored level is the level asked for: an omitted threshold is zero, a given one is whole
      and kept to the unit. */
  predicate Keeps(l: LevelInput, m: PlanLevel) {
    && m.level == l.level && 1 <= m.level <= 20
    && m.rate == l.rate && 0.0 <= m.rate <= 100.0
    && 0 <= m.minActiveDirects <= 1000
    && match l.minActiveDirects
       case None => m.minActiveDirects == 0
       case Some(t) => m.minActiveDirects as real == t
  }

  /** Acceptance, limit by limit: a level is good exactly when some stored level keeps it. */
  lemma GoodIsKept(l: LevelInput)
    ensures GoodLevel(l) <==> exists m :: Keeps(l, m)
    ensures GoodLevel(l) ==> Keeps(l, Stored(l))
  {
    if m :| Keeps(l, m) {
      assert (m.minActiveDirects as real).Floor == m.minActiveDirects;
    }
    assert GoodLevel(l) ==> Keeps(l, Stored(l));
  }

  function Stored(l: LevelInput): PlanLevel {
    PlanLevel(l.level, l.rate, Threshold(l).Floor)
  }

  /** Inserts a level into levels kept in ascending order (`orderBy: level asc`). */
  function InsertLevel(levels: seq<PlanLevel>, l: PlanLevel): (r: seq<PlanLevel>)
    requires forall i, j :: 0 <= i < j < |levels| ==> levels[i].level < levels[j].level
    requires forall m :: m in levels ==> m.level != l.level
    ensures forall i, j :: 0 <= i < j < |r| ==> r[i].level < r[j].level
    ensures forall m :: m in r <==> m in levels || m == l
    ensures |r| == |levels| + 1
  {
    if levels == [] || l.level < levels[0].level then [l] + levels
    else
      var rest := InsertLevel(levels[1..], l);
      assert forall m :: m in rest ==> levels[0].level < m.level by {
        forall m | m in rest
          ensures levels[0].level < m.level
        {
          if m != l {
            var j :| 0 <= j < |levels[1..]| && levels[1..][j] == m;
            assert levels[j + 1] == m;
          }
        }
      }
      assert forall m :: m in levels <==> m == levels[0] || m in levels[1..];
      [levels[0]] + rest
  }

  function SortLevels(levels: seq<LevelInput>): (r: seq<PlanLevel>)
    requires forall i, j :: 0 <= i < j < |levels| ==> levels[i].level != levels[j].level
    ensures |r| == |levels|
    ensures forall i, j :: 0 <= i < j < |r| ==> r[i].level < r[j].level
    ensures forall m :: m in r <==> exists l :: l in levels && m == Stored(l)
  {
    if levels == [] then []
    else
      var n := |levels| - 1;
      var rest := SortLevels(levels[..n]);
      assert forall l :: l in levels <==> l in levels[..n] || l == levels[n];
      InsertLevel(rest, Stored(levels[n]))
  }

  /** The stored levels are those asked for, each kept, and no others. */
  ghost predicate AllKept(levels: seq<LevelInput>, stored: seq<PlanLevel>) {
    && |stored| == |levels|
    && (forall l :: l in levels ==> exists m :: m in stored && Keeps(l, m))
    && (forall m :: m in stored ==> exists l :: l in levels && Keeps(l, m))
  }

  lemma SortingKeeps(levels: seq<LevelInput>)
    requires Acceptable(levels)
    ensures AllKept(levels, SortLevels(levels))
  {
    forall l | l in levels
      ensures exists m :: m in SortLevels(levels) && Keeps(l, m)
    {
      GoodIsKept(l);
      assert Stored(l) in SortLevels(levels);
    }
    forall m | m in SortLevels(levels)
      ensures exists l :: l in levels && Keeps(l, m)
    {
      var l :| l in levels && m == Stored(l);
      GoodIsKept(l);
    }
  }

  ghost predicate OneActive(plans: seq<Plan>) {
    forall i, j :: 0 <= i < j < |plans| ==> !(plans[i].isActive && plans[j].isActive)
  }

  /** Compares the number of different levels with the number of levels. */
  method HasDuplicates(levels: seq<LevelInput>) returns (duplicates: bool)
    ensures duplicates <==> !DistinctLevels(levels)
  {
    var seen: set<int> := {};
    for i := 0 to |levels|
      invariant forall x :: x in seen <==> exists k :: 0 <= k < i && levels[k].level == x
      invariant |seen| <= i
      invariant |seen| == i <==> forall j, k :: 0 <= j < k < i ==> levels[j].level != levels[k].level
    {
      seen := seen + {levels[i].level};
    }
    duplicates := |seen| != |levels|;
  }

  /** The first thing wrong with a level that is not good. */
  function LevelProblem(l: LevelInput): PlanError {
    if l.level < 1 || l.level > 20 then LevelOutOfRange
    else if l.rate < 0.0 || l.rate > 100.0 then RateOutOfRange
    else BadThreshold
  }

  ghost predicate FirstBadLevel(levels: seq<LevelInput>, i: nat) {
    i < |levels| && !GoodLevel(levels[i]) && forall k :: 0 <= k < i ==> GoodLevel(levels[k])
  }

  /** The checks run before anything is written; they name the first problem found. */
  method ValidateLevels(levels: seq<LevelInput>) returns (problem: Option<PlanError>)
    ensures problem.None? <==> Acceptable(levels)
    ensures problem == Some(NoLevels) <==> levels == []
    ensures problem == Some(DuplicateLevels) <==> !DistinctLevels(levels)
    ensures forall i: nat :: DistinctLevels(levels) && FirstBadLevel(levels, i) ==>
              problem == Some(LevelProblem(levels[i]))
  {
    if levels == [] {
      return Some(NoLevels);
    }
    var duplicates := HasDuplicates(levels);
    if duplicates {
      return Some(DuplicateLevels);
    }
    for i := 0 to |levels|
      invariant forall k :: 0 <= k < i ==> GoodLevel(levels[k])
    {
      var l := levels[i];
      assert l in levels && (GoodLevel(levels[i]) || FirstBadLevel(levels, i));
      assert forall k: nat :: FirstBadLevel(levels, k) && FirstBadLevel(levels, i) ==> k == i;
      if l.level < 1 || l.level > 20 {
        return Some(LevelOutOfRange);
      }
      if l.rate < 0.0 || l.rate > 100.0 {
        return Some(RateOutOfRange);
      }
      var threshold := Threshold(l);
      if threshold < 0.0 || threshold > 1000.0 || !IsInteger(threshold) {
        return Some(BadThreshold);
      }
    }
    problem := None;
  }

  function FirstActive(plans: seq<Plan>): (r: Option<Plan>)
    ensures r.Some? ==> r.value in plans && r.value.isActive
    ensures r.None? <==> forall p :: p in plans ==> !p.isActive
  {
    if plans == [] then None
    else if plans[0].isActive then Some(plans[0])
    else FirstActive(plans[1..])
  }

  method MakePlan(name: string, isActive: bool, levels: seq<LevelInput>) returns (p: Plan)
    requires Acceptable(levels)
    ensures p.name == name && p.isActive == isActive && AllKept(levels, p.levels)
    ensures p.levels != [] && ValidLevels(p.levels)
  {
    p := Plan(name, isActive, SortLevels(levels));
    SortingKeeps(levels);
  }

  class PlanTable {
    var plans: seq<Plan>

    ghost predicate Valid()
      reads this
    {
      OneActive(plans) && forall p :: p in plans ==> p.levels != [] && ValidLevels(p.levels)
    }

    constructor ()
      ensures Valid() && plans == []
    {
      plans := [];
    }

    /** Accepts exactly the acceptable inputs. An accepted plan is stored with its levels
        in order; an accepted active plan becomes the only active one. */
    method UpsertPlan(name: string, isActive: bool, levels: seq<LevelInput>) returns (r: Result<Plan, PlanError>)
      requires Valid()
      modifies this
      ensures Valid()
      ensures r.Ok? <==> Acceptable(levels)
      ensures r.Err? ==> plans == old(plans)
      ensures r.Ok? ==> |plans| == |old(plans)| + 1 && plans[|old(plans)|] == r.value
      ensures r.Ok? ==> r.value.name == name && r.value.isActive == isActive && AllKept(levels, r.value.levels)
      ensures r.Ok? ==> forall i :: 0 <= i < |old(plans)| ==>
                          plans[i] == if isActive then old(plans)[i].(isActive := false) else old(plans)[i]
    {
      var problem := ValidateLevels(levels);
      if problem.Some? {
        return Err(problem.value);
      }
      if isActive {
        plans := seq(|plans|, i requires 0 <= i < |plans| reads this => plans[i].(isActive := false));
      }
      var created := MakePlan(name, isActive, levels);
      plans := plans + [created];
      r := Ok(created);
    }
  }

  /** With one active plan at most, "the first active plan" is the active plan. */
  lemma ActivePlanIsUnique(plans: seq<Plan>, p: Plan)
    requires OneActive(plans) && p in plans && p.isActive
    ensures FirstActive(plans) == Some(p)
  {
    var i :| 0 <= i < |plans| && plans[i] == p;
    var q := FirstActive(plans).value;
    var j :| 0 <= j < |plans| && plans[j] == q;
    assert !(i < j) && !(j < i);
  }
}
