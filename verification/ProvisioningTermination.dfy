/** How many runs provisioning can take without an admin, and how long it can be told to
    wait. Runs that die with the process are free: they count no attempt. The bound on runs
    is exact: errors can be timed so that one run fewer leaves the record unfinished. */
module ProvisioningTermination {
  import opened Common
  import opened ServiceWorld
  import opened Provisioning
  import opened ProvisioningRecovery

  /** A record that has not failed has attempts left. */
  ghost predicate AttemptsLeft(w: World, max: nat) {
    !Terminal(w) ==> w.provision.value.attemptCount < max
  }

  function Times(n: nat, x: int): int
    requires n <= 4
  {
    if n == 0 then 0 else if n == 1 then x else if n == 2 then x + x else if n == 3 then x + x + x else x + x + x + x
  }

  /** Runs that can still throw before the record is terminal. */
  ghost function Potential(w: World, max: nat): int {
    if Terminal(w) then 0 else Times(StagesLeft(StatusOf(w)), max) - w.provision.value.attemptCount
  }

  /** The same when no run throws between a transition and the end of its stage. */
  ghost function TightPotential(w: World, max: nat): int {
    if Terminal(w) then 0 else Times(StagesLeft(StatusOf(w)), max - 1) + 1 - w.provision.value.attemptCount
  }

  /** The delays the rest of a stage can schedule after `attempts` failures. */
  function StageDelay(attempts: nat, max: nat): nat
    decreases max - attempts
  {
    if attempts + 1 >= max then 0 else Backoff(attempts + 1) + StageDelay(attempts + 1, max)
  }

  ghost function DelayLeft(w: World, max: nat): int {
    if Terminal(w) then 0
    else StageDelay(w.provision.value.attemptCount, max) + Times(StagesLeft(StatusOf(w)) - 1, StageDelay(0, max))
  }

  /** The run is interrupted after a transition and before its stage's report. */
  ghost predicate Late(w: World, left: nat)
    decreases StagesLeft(StatusOf(w))
  {
    if Terminal(w) then false
    else
      var p := w.provision.value;
      var stage := StageOf(p.status).value;
      match StagePlan(w, p, stage)
      case Err(_) => false
      case Ok(xs) =>
        StageCut(w, p, stage, left);
        if |xs| <= left then Late(ApplyAll(w, xs), left - |xs|) else left == |xs| - 1
  }

  lemma {:induction false} StageDelayShrinks(attempts: nat, max: nat)
    ensures StageDelay(attempts, max) <= StageDelay(0, max)
  {
    if attempts > 0 { StageDelayShrinks(attempts - 1, max); }
  }

  lemma FailureDecreases(s: World, p: Provision, stage: Stage, conflict: bool, now: int, max: nat)
    requires s.provision == Some(p) && StageOf(p.status) == Some(stage) && p.attemptCount < max
    ensures var o := HandleFailure(s, p, stage, conflict, now, max);
            && AttemptsLeft(o.world, max)
            && Potential(o.world, max) < Potential(s, max)
            && TightPotential(o.world, max) < TightPotential(s, max)
            && o.delay + DelayLeft(o.world, max) <= DelayLeft(s, max)
  {
  }

  lemma MovingOnDecreases(s: World, p: Provision, t: World, grant: Grant, max: nat)
    requires s.provision == Some(p) && StageOf(p.status).Some? && p.attemptCount < max
    requires t.provision == Some(Moved(p, NextStatus(StageOf(p.status).value), grant))
    ensures AttemptsLeft(t, max)
    ensures Potential(t, max) < Potential(s, max)
    ensures TightPotential(t, max) <= TightPotential(s, max)
    ensures Terminal(t) ==> TightPotential(t, max) < TightPotential(s, max)
    ensures DelayLeft(t, max) <= DelayLeft(s, max)
  {
  }

  /** From w to t: nothing gained, and something lost by an error that is not late or by
      moving on. */
  ghost predicate Costs(w: World, t: World, delay: nat, thrown: bool, late: bool, max: nat) {
    && AttemptsLeft(t, max)
    && Potential(t, max) <= Potential(w, max)
    && (thrown ==> Potential(t, max) < Potential(w, max))
    && (!late ==> TightPotential(t, max) <= TightPotential(w, max))
    && (!late && thrown ==> TightPotential(t, max) < TightPotential(w, max))
    && delay + DelayLeft(t, max) <= DelayLeft(w, max)
  }

  lemma StageCosts(w: World, left: nat, fault: Fault, now: int, max: nat)
    requires !Terminal(w) && AttemptsLeft(w, max)
    ensures match OneStage(w, left, fault, now, max)
            case Next(t, rest) =>
              && Costs(w, t, 0, false, false, max) && Potential(t, max) < Potential(w, max)
              && (Terminal(t) ==> TightPotential(t, max) < TightPotential(w, max))
              && Late(w, left) == Late(t, rest)
            case Ended(o) => Costs(w, o.world, o.delay, fault.Throws?, Late(w, left), max)
  {
    var p := w.provision.value;
    var stage := StageOf(p.status).value;
    match StagePlan(w, p, stage)
    case Err(f) =>
      FailureDecreases(w, p, stage, f == Conflict, now, max);
    case Ok(xs) =>
      StageCut(w, p, stage, left);
      var work := StageWork(w, p, stage).value;
      MovingOnDecreases(w, p, ApplyAll(w, xs), work.grant, max);
      if left <= |work.writes| && fault.Throws? {
        FailureDecreases(CutShort(w, xs, left), p, stage, fault.conflict, now, max);
      }
  }

  /** One run: a thrown error always costs potential, a death of the process never adds
      any, and the delay scheduled is paid for. */
  lemma {:induction false} RunDecreases(w: World, left: nat, fault: Fault, now: int, max: nat)
    requires !Terminal(w) && AttemptsLeft(w, max)
    ensures var o := Process(w, left, fault, now, max);
            Costs(w, o.world, o.delay, fault.Throws?, Late(w, left), max)
    decreases StagesLeft(StatusOf(w))
  {
    StageCosts(w, left, fault, now, max);
    match OneStage(w, left, fault, now, max)
    case Next(t, rest) => if !Terminal(t) { RunDecreases(t, rest, fault, now, max); }
    case Ended(o) =>
  }

  // ---------------------------------------------------------------------- many runs

  function RunWorker(w: World, runs: seq<WorkerRun>, max: nat): Outcome
    decreases |runs|
  {
    if runs == [] then Outcome(w, 0)
    else
      var o := Process(w, runs[0].left, runs[0].fault, runs[0].now, max);
      var rest := RunWorker(o.world, runs[1..], max);
      Outcome(rest.world, o.delay + rest.delay)
  }

  /** The runs that found a record to work on and did not die. */
  ghost function Answered(w: World, runs: seq<WorkerRun>, max: nat): nat
    decreases |runs|
  {
    if runs == [] then 0
    else
      var o := Process(w, runs[0].left, runs[0].fault, runs[0].now, max);
      (if !Terminal(w) && runs[0].fault.Throws? then 1 else 0) + Answered(o.world, runs[1..], max)
  }

  ghost predicate NoneLate(w: World, runs: seq<WorkerRun>, max: nat)
    decreases |runs|
  {
    runs != [] ==>
      && !Late(w, runs[0].left)
      && NoneLate(Process(w, runs[0].left, runs[0].fault, runs[0].now, max).world, runs[1..], max)
  }

  lemma {:induction false} RunsAreBounded(w: World, runs: seq<WorkerRun>, max: nat)
    requires AttemptsLeft(w, max)
    ensures var o := RunWorker(w, runs, max);
            && Answered(w, runs, max) + Potential(o.world, max) <= Potential(w, max)
            && (NoneLate(w, runs, max) ==>
                  Answered(w, runs, max) + TightPotential(o.world, max) <= TightPotential(w, max))
            && o.delay + DelayLeft(o.world, max) <= DelayLeft(w, max)
            && AttemptsLeft(o.world, max)
    decreases |runs|
  {
    if runs != [] {
      var o := Process(w, runs[0].left, runs[0].fault, runs[0].now, max);
      if !Terminal(w) { RunDecreases(w, runs[0].left, runs[0].fault, runs[0].now, max); }
      RunsAreBounded(o.world, runs[1..], max);
    }
  }

  lemma PotentialIsPositive(w: World, max: nat)
    requires AttemptsLeft(w, max)
    ensures 0 <= Potential(w, max) <= 4 * max
    ensures Terminal(w) <==> Potential(w, max) == 0
    ensures 0 <= TightPotential(w, max) && (max >= 1 ==> TightPotential(w, max) <= 4 * (max - 1) + 1)
    ensures Terminal(w) <==> TightPotential(w, max) == 0
    ensures 0 <= DelayLeft(w, max) <= 4 * StageDelay(0, max)
  {
    if !Terminal(w) { StageDelayShrinks(w.provision.value.attemptCount, max); }
  }

  lemma DelayForFive()
    ensures StageDelay(0, 5) == 4860
  {
    assert StageDelay(3, 5) == 3600;
    assert StageDelay(1, 5) == 300 + 900 + 3600;
  }

  lemma {:induction false} TerminalStays(w: World, runs: seq<WorkerRun>, max: nat)
    requires Terminal(w)
    ensures RunWorker(w, runs, max) == Outcome(w, 0)
    decreases |runs|
  {
    if runs != [] { TerminalStays(w, runs[1..], max); }
  }

  lemma {:induction false} AnsweredUntilTerminal(w: World, runs: seq<WorkerRun>, max: nat)
    requires forall i :: 0 <= i < |runs| ==> runs[i].fault.Throws?
    ensures Terminal(RunWorker(w, runs, max).world) || Answered(w, runs, max) == |runs|
    decreases |runs|
  {
    if runs != [] {
      if Terminal(w) {
        TerminalStays(w, runs, max);
      } else {
        AnsweredUntilTerminal(Process(w, runs[0].left, runs[0].fault, runs[0].now, max).world, runs[1..], max);
      }
    }
  }

  /** Without any admin, four times the attempt limit is enough runs to reach COMPLETED or
      FAILED, whatever goes wrong in them; one run fewer per stage and one more in all when no
      error strikes between a transition and its report. */
  lemma ProvisioningTerminates(w: World, runs: seq<WorkerRun>, max: nat)
    requires max >= 1 && AttemptsLeft(w, max)
    requires forall i :: 0 <= i < |runs| ==> runs[i].fault.Throws?
    ensures |runs| >= 4 * max ==> Terminal(RunWorker(w, runs, max).world)
    ensures NoneLate(w, runs, max) && |runs| >= 4 * (max - 1) + 1 ==> Terminal(RunWorker(w, runs, max).world)
    ensures RunWorker(w, runs, max).delay <= 4 * StageDelay(0, max)
    ensures max == 5 ==> RunWorker(w, runs, max).delay <= 4 * 4860
  {
    RunsAreBounded(w, runs, max);
    AnsweredUntilTerminal(w, runs, max);
    PotentialIsPositive(w, max);
    PotentialIsPositive(RunWorker(w, runs, max).world, max);
    DelayForFive();
  }

  /** Runs that die come on top, as many as you like; the bound is on the others. */
  lemma DyingRunsAreFree(w: World, runs: seq<WorkerRun>, max: nat)
    requires max >= 1 && AttemptsLeft(w, max)
    ensures Answered(w, runs, max) <= 4 * max
    ensures NoneLate(w, runs, max) ==> Answered(w, runs, max) <= 4 * (max - 1) + 1
    ensures RunWorker(w, runs, max).delay <= 4 * StageDelay(0, max)
  {
    RunsAreBounded(w, runs, max);
    PotentialIsPositive(w, max);
    PotentialIsPositive(RunWorker(w, runs, max).world, max);
  }

  // ------------------------------------------------------------------ the bound is exact

  /** Nothing but interruptions stands in the way of completion. */
  predicate CanComplete(w: World, max: nat) {
    StatusOf(Unbroken(w, 0, max)) == COMPLETED
  }

  /** An error before the first write costs one attempt and nothing else. */
  lemma EarlyError(w: World, max: nat) returns (t: World)
    requires !Terminal(w) && CanComplete(w, max) && w.provision.value.attemptCount + 1 < max
    ensures t == Process(w, 0, Throws(false), 0, max).world
    ensures CanComplete(t, max) && StatusOf(t) == StatusOf(w)
    ensures t.provision.value.attemptCount == w.provision.value.attemptCount + 1
  {
    var p := w.provision.value;
    var stage := StageOf(p.status).value;
    var moved := CompletingRunsPlan(w, 0, max);
    StageCut(w, p, stage, 0);
    t := Process(w, 0, Throws(false), 0, max).world;
    assert CutShort(w, FirstPlan(w).value, 0) == w;
    assert OneStage(w, 0, Throws(false), 0, max) == Ended(HandleFailure(w, p, stage, false, 0, max));
    RunRecoversIff(w, 0, Throws(false), 0, 0, 0, max);
    assert CurrentView(Unbroken(t, 0, max)).provision == CurrentView(Unbroken(w, 0, max)).provision;
  }

  /** An error between a transition and its report costs a run and no attempt. */
  lemma LateError(w: World, max: nat) returns (left: nat, t: World)
    requires !Terminal(w) && CanComplete(w, max)
    ensures t == Process(w, left, Throws(false), 0, max).world
    ensures CanComplete(t, max) && StatusOf(t) == NextStatus(StageOf(StatusOf(w)).value)
    ensures t.provision.value.attemptCount == 0
  {
    var p := w.provision.value;
    var stage := StageOf(p.status).value;
    var moved := CompletingRunsPlan(w, 0, max);
    left := |FirstPlan(w).value| - 1;
    StageCut(w, p, stage, left);
    t := moved;
    assert OneStage(w, left, Throws(false), 0, max) == Ended(HandleFailure(moved, p, stage, false, 0, max));
  }

  ghost predicate AllThrow(runs: seq<WorkerRun>) {
    forall i :: 0 <= i < |runs| ==> runs[i].fault.Throws?
  }

  /** The slowest schedule from any record that can complete. */
  lemma {:induction false} SlowestSchedule(w: World, max: nat) returns (runs: seq<WorkerRun>)
    requires !Terminal(w) && AttemptsLeft(w, max) && CanComplete(w, max)
    ensures AllThrow(runs) && |runs| == Potential(w, max) - 1
    ensures !Terminal(RunWorker(w, runs, max).world)
    decreases StagesLeft(StatusOf(w)), max - w.provision.value.attemptCount
  {
    var p := w.provision.value;
    if p.attemptCount + 1 < max {
      var t := EarlyError(w, max);
      var rest := SlowestSchedule(t, max);
      var r := WorkerRun(0, Throws(false), 0);
      runs := [r] + rest;
    } else if StageOf(p.status) == Some(Finalize) {
      runs := [];
    } else {
      var left, t := LateError(w, max);
      var rest := SlowestSchedule(t, max);
      var r := WorkerRun(left, Throws(false), 0);
      runs := [r] + rest;
    }
  }

  /** An error before the first write is not late. */
  lemma EarlyIsNotLate(w: World)
    ensures !Late(w, 0)
  {
    if !Terminal(w) {
      var p := w.provision.value;
      var stage := StageOf(p.status).value;
      if StagePlan(w, p, stage).Ok? { StageCut(w, p, stage, 0); }
    }
  }

  /** A stage done and an error before the first write of the next: one run, one attempt. */
  lemma NextStageError(w: World, max: nat) returns (left: nat, t: World)
    requires !Terminal(w) && CanComplete(w, max) && max > 1 && StageOf(StatusOf(w)) != Some(Finalize)
    ensures t == Process(w, left, Throws(false), 0, max).world && !Late(w, left)
    ensures CanComplete(t, max) && StatusOf(t) == NextStatus(StageOf(StatusOf(w)).value)
    ensures t.provision.value.attemptCount == 1
  {
    var p := w.provision.value;
    var stage := StageOf(p.status).value;
    var moved := CompletingRunsPlan(w, 0, max);
    left := |FirstPlan(w).value|;
    StageCut(w, p, stage, left);
    t := EarlyError(moved, max);
    EarlyIsNotLate(moved);
    assert OneStage(w, left, Throws(false), 0, max) == Next(moved, 0);
  }

  /** The slowest schedule without late errors. */
  lemma {:induction false} SlowestPunctualSchedule(w: World, max: nat) returns (runs: seq<WorkerRun>)
    requires !Terminal(w) && AttemptsLeft(w, max) && CanComplete(w, max)
    ensures AllThrow(runs) && NoneLate(w, runs, max) && |runs| == TightPotential(w, max) - 1
    ensures !Terminal(RunWorker(w, runs, max).world)
    decreases StagesLeft(StatusOf(w)), max - w.provision.value.attemptCount
  {
    var p := w.provision.value;
    if p.attemptCount + 1 < max {
      var t := EarlyError(w, max);
      EarlyIsNotLate(w);
      var rest := SlowestPunctualSchedule(t, max);
      var r := WorkerRun(0, Throws(false), 0);
      runs := [r] + rest;
    } else if max == 1 || StageOf(p.status) == Some(Finalize) {
      runs := [];
    } else {
      var left, t := NextStageError(w, max);
      var rest := SlowestPunctualSchedule(t, max);
      var r := WorkerRun(left, Throws(false), 0);
      runs := [r] + rest;
    }
  }

  /** These errors, so many of them, and no terminal status yet. */
  ghost predicate StillOpen(w: World, runs: seq<WorkerRun>, max: nat) {
    AllThrow(runs) && !Terminal(RunWorker(w, runs, max).world)
  }

  /** So for a new record four times the limit is not just enough but needed, and without
      late errors so is one run more than four times the limit less one. */
  lemma BoundIsExact(w: World, max: nat)
    requires max >= 1 && CanComplete(w, max)
    requires w.provision.Some? && w.provision.value.status == PENDING && w.provision.value.attemptCount == 0
    ensures exists runs :: |runs| == 4 * max - 1 && StillOpen(w, runs, max)
    ensures forall runs :: |runs| >= 4 * max ==> !StillOpen(w, runs, max)
    ensures exists runs :: |runs| == 4 * (max - 1) && NoneLate(w, runs, max) && StillOpen(w, runs, max)
    ensures forall runs :: |runs| >= 4 * (max - 1) + 1 && NoneLate(w, runs, max) ==> !StillOpen(w, runs, max)
  {
    var slow := SlowestSchedule(w, max);
    var punctual := SlowestPunctualSchedule(w, max);
    assert StillOpen(w, slow, max) && StillOpen(w, punctual, max);
    forall runs | |runs| >= 4 * (max - 1) + 1 && NoneLate(w, runs, max) ensures !StillOpen(w, runs, max) {
      if AllThrow(runs) { ProvisioningTerminates(w, runs, max); }
    }
    forall runs | |runs| >= 4 * max ensures !StillOpen(w, runs, max) {
      if AllThrow(runs) { ProvisioningTerminates(w, runs, max); }
    }
  }
}
