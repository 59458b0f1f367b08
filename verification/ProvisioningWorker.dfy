/** The provisioning worker step by step, proved to do exactly what `Process` says, and the
    admin actions on the record. */
module ProvisioningWorker {
  import opened Common
  import opened ServiceWorld
  import opened Provisioning

  /** A stage with writes enough for it, and the rest of the run. */
  lemma WholeStage(w: World, p: Provision, stage: Stage, left: nat, fault: Fault, now: int, max: nat)
    requires w.provision == Some(p) && StageOf(p.status) == Some(stage)
    requires StagePlan(w, p, stage).Ok? && |StagePlan(w, p, stage).value| <= left
    ensures var xs := StagePlan(w, p, stage).value;
            Process(w, left, fault, now, max) == Process(ApplyAll(w, xs), left - |xs|, fault, now, max)
  {
  }

  lemma WholeStageMoves(w: World, p: Provision, stage: Stage)
    requires w.provision == Some(p) && StagePlan(w, p, stage).Ok?
    ensures var t := ApplyAll(w, StagePlan(w, p, stage).value);
            t.provision.Some? && t.provision.value.status == NextStatus(stage)
  {
    StageCut(w, p, stage, 0);
  }

  /** A stage that is interrupted or cannot be planned ends the run. */
  lemma StoppedStage(w: World, p: Provision, stage: Stage, left: nat, fault: Fault, now: int, max: nat)
    requires w.provision == Some(p) && StageOf(p.status) == Some(stage)
    requires StagePlan(w, p, stage).Ok? ==> left < |StagePlan(w, p, stage).value|
    ensures var plan := StagePlan(w, p, stage);
            Process(w, left, fault, now, max) ==
            if plan.Err? then HandleFailure(w, p, stage, plan.error == Conflict, now, max)
            else if fault.Dies? then Outcome(CutShort(w, plan.value, left), 0)
            else HandleFailure(CutShort(w, plan.value, left), p, stage, fault.conflict, now, max)
  {
  }

  lemma PropPlan(w: World, p: Provision)
    ensures var prop := NewestActive(w.props);
            if p.epApiKey.None? || prop.None? then StagePlan(w, p, CreatePropAccount) == Err(OtherError)
            else
              var registered := Ensure(w.remote, Identity(w.props[prop.value]));
              && (registered.Err? ==> StagePlan(w, p, CreatePropAccount) == Err(registered.error))
              && (registered.Ok? ==>
                    StagePlan(w, p, CreatePropAccount) ==
                    Ok(registered.value.0
                       + ([PropEp(prop.value, registered.value.1)]
                          + Finish(CreatePropAccount, GrantProp(registered.value.1)))))
  {
    var prop := NewestActive(w.props);
    if prop.Some? && Ensure(w.remote, Identity(w.props[prop.value])).Ok? {
      var (create, epId) := Ensure(w.remote, Identity(w.props[prop.value])).value;
      var last := Finish(CreatePropAccount, GrantProp(epId));
      assert (create + [PropEp(prop.value, epId)]) + last == create + ([PropEp(prop.value, epId)] + last);
    }
  }

  lemma BrokerPlan(w: World, p: Provision)
    ensures var broker := HedgeBrokerAccount(w);
            if p.epApiKey.None? || broker.None? then StagePlan(w, p, CreateBrokerAccount) == Err(OtherError)
            else
              var registered := Ensure(w.remote, Identity(w.brokers[broker.value]));
              && (registered.Err? ==> StagePlan(w, p, CreateBrokerAccount) == Err(registered.error))
              && (registered.Ok? ==>
                    StagePlan(w, p, CreateBrokerAccount) ==
                    Ok(registered.value.0
                       + ([BrokerEp(broker.value, registered.value.1)]
                          + Finish(CreateBrokerAccount, GrantBroker(registered.value.1)))))
  {
    var broker := HedgeBrokerAccount(w);
    if broker.Some? && Ensure(w.remote, Identity(w.brokers[broker.value])).Ok? {
      var (create, epId) := Ensure(w.remote, Identity(w.brokers[broker.value])).value;
      var last := Finish(CreateBrokerAccount, GrantBroker(epId));
      assert (create + [BrokerEp(broker.value, epId)]) + last == create + ([BrokerEp(broker.value, epId)] + last);
    }
  }

  class ProvisionWorker {
    const store: Store

    constructor (store: Store)
      ensures this.store == store
    {
      this.store := store;
    }

    /** The transition and the audit event that end a stage. */
    method MoveOn(stage: Stage, grant: Grant, ghost goal: World, ghost whole: bool) returns (ended: Ended)
      requires store.Heading(Finish(stage, grant), goal, whole)
      modifies store
      ensures store.world == goal && ended == (if whole then Done else Cut)
      ensures store.left == if whole then old(store.left) - 2 else 0
    {
      var ok := store.Do(Transition(NextStatus(stage), grant), [Report], goal, whole);
      if !ok { return Cut; }
      assert [Report] + [] == [Report];
      ok := store.Do(Report, [], goal, whole);
      ended := if ok then Done else Cut;
    }

    method StepCreateKey(p: Provision) returns (ended: Ended)
      modifies store
      ensures store.Executed(ended, old(store.world), StagePlan(old(store.world), p, CreateKey), old(store.left))
    {
      ghost var xs := StagePlan(store.world, p, CreateKey).value;
      ghost var goal, whole := CutShort(store.world, xs, store.left), |xs| <= store.left;
      if p.epApiKey.Some? && p.epKeyId.Some? {
        assert xs == Finish(CreateKey, NoGrant);
        ended := MoveOn(CreateKey, NoGrant, goal, whole);
      } else {
        var key := store.world.remote.keys;
        var ok := store.Do(EpNewKey, Finish(CreateKey, GrantKey(key)), goal, whole);
        if !ok { return Cut; }
        ended := MoveOn(CreateKey, GrantKey(key), goal, whole);
      }
    }

    /** Stores the id of the registered account and moves on. */
    method StoreProp(prop: nat, epId: nat, ghost goal: World, ghost whole: bool) returns (ended: Ended)
      requires store.Heading([PropEp(prop, epId)] + Finish(CreatePropAccount, GrantProp(epId)), goal, whole)
      modifies store
      ensures store.world == goal && ended == (if whole then Done else Cut)
      ensures store.left == if whole then old(store.left) - 3 else 0
    {
      var ok := store.Do(PropEp(prop, epId), Finish(CreatePropAccount, GrantProp(epId)), goal, whole);
      if !ok { return Cut; }
      ended := MoveOn(CreatePropAccount, GrantProp(epId), goal, whole);
    }

    method StepCreatePropAccount(p: Provision) returns (ended: Ended)
      modifies store
      ensures store.Executed(ended, old(store.world), StagePlan(old(store.world), p, CreatePropAccount),
                             old(store.left))
    {
      var prop := NewestActive(store.world.props);
      PropPlan(store.world, p);
      if p.epApiKey.None? || prop.None? { return Refused(OtherError); }
      ghost var registered := Ensure(store.world.remote, Identity(store.world.props[prop.value]));
      ghost var epId0 := if registered.Ok? then registered.value.1 else 0;
      ghost var rest := [PropEp(prop.value, epId0)] + Finish(CreatePropAccount, GrantProp(epId0));
      ghost var xs := if registered.Ok? then registered.value.0 + rest else [];
      ghost var goal, whole := CutShort(store.world, xs, store.left), |xs| <= store.left;
      var account := store.EnsureEpAccount(Identity(store.world.props[prop.value]), rest, goal, whole);
      match account {
        case CutOff => return Cut;
        case NotRegistered(f) => return Refused(f);
        case RegisteredAs(epId) =>
          ended := StoreProp(prop.value, epId, goal, whole);
      }
    }

    /** Stores the id of the registered account and moves on. */
    method StoreBroker(broker: nat, epId: nat, ghost goal: World, ghost whole: bool) returns (ended: Ended)
      requires store.Heading([BrokerEp(broker, epId)] + Finish(CreateBrokerAccount, GrantBroker(epId)), goal, whole)
      modifies store
      ensures store.world == goal && ended == (if whole then Done else Cut)
      ensures store.left == if whole then old(store.left) - 3 else 0
    {
      var ok := store.Do(BrokerEp(broker, epId), Finish(CreateBrokerAccount, GrantBroker(epId)), goal, whole);
      if !ok { return Cut; }
      ended := MoveOn(CreateBrokerAccount, GrantBroker(epId), goal, whole);
    }

    method StepCreateBrokerAccount(p: Provision) returns (ended: Ended)
      modifies store
      ensures store.Executed(ended, old(store.world), StagePlan(old(store.world), p, CreateBrokerAccount),
                             old(store.left))
    {
      var broker := HedgeBrokerAccount(store.world);
      BrokerPlan(store.world, p);
      if p.epApiKey.None? || broker.None? { return Refused(OtherError); }
      ghost var registered := Ensure(store.world.remote, Identity(store.world.brokers[broker.value]));
      ghost var epId0 := if registered.Ok? then registered.value.1 else 0;
      ghost var rest := [BrokerEp(broker.value, epId0)] + Finish(CreateBrokerAccount, GrantBroker(epId0));
      ghost var xs := if registered.Ok? then registered.value.0 + rest else [];
      ghost var goal, whole := CutShort(store.world, xs, store.left), |xs| <= store.left;
      var account := store.EnsureEpAccount(Identity(store.world.brokers[broker.value]), rest, goal, whole);
      match account {
        case CutOff => return Cut;
        case NotRegistered(f) => return Refused(f);
        case RegisteredAs(epId) =>
          ended := StoreBroker(broker.value, epId, goal, whole);
      }
    }

    method StepFinalize(p: Provision) returns (ended: Ended)
      modifies store
      ensures store.Executed(ended, old(store.world), StagePlan(old(store.world), p, Finalize), old(store.left))
    {
      if p.epPropAccountId.None? || p.epBrokerAccountId.None? { return Refused(OtherError); }
      var prop := FindByEp(store.world.props, p.epPropAccountId.value);
      var broker := FindByEp(store.world.brokers, p.epBrokerAccountId.value);
      if prop.None? || broker.None? { return Refused(OtherError); }
      var hedge := Hedge(prop.value, broker.value, p.epPropAccountId.value, p.epBrokerAccountId.value, Active);
      ghost var rest := [NewHedge(hedge)] + Finish(Finalize, NoGrant);
      ghost var xs := [ArchiveHedges] + rest;
      ghost var goal, whole := CutShort(store.world, xs, store.left), |xs| <= store.left;
      assert StagePlan(store.world, p, Finalize).value == xs;
      var ok := store.Do(ArchiveHedges, rest, goal, whole);
      if !ok { return Cut; }
      ok := store.Do(NewHedge(hedge), Finish(Finalize, NoGrant), goal, whole);
      if !ok { return Cut; }
      ended := MoveOn(Finalize, NoGrant, goal, whole);
    }

    method HandleStepFailure(stale: Provision, stage: Stage, conflict: bool, now: int, max: nat) returns (delay: nat)
      modifies store
      ensures Outcome(store.world, delay) == HandleFailure(old(store.world), stale, stage, conflict, now, max)
      ensures store.left == old(store.left)
      ensures old(store.world).provision == Some(stale) ==>
                var n := stale.attemptCount + 1;
                var final, wait := conflict || n >= max, BACKOFF_SECONDS[if n <= 5 then n - 1 else 4];
                && delay == (if final then 0 else wait)
                && store.world == old(store.world).(provision := Some(stale.(
                     status := if final then FAILED else stale.status, failedStep := Some(stage), attemptCount := n,
                     nextRetryAt := if final then None else Some(now + wait))))
    {
      var attempts := stale.attemptCount + 1;
      delay := 0;
      match store.world.provision {
        case None =>
        case Some(p) =>
          if p.status == stale.status && p.attemptCount == stale.attemptCount {
            if conflict || attempts >= max {
              store.world := store.world.(provision :=
                Some(p.(status := FAILED, failedStep := Some(stage), attemptCount := attempts, nextRetryAt := None)));
            } else {
              delay := Backoff(attempts);
              store.world := store.world.(provision :=
                Some(p.(failedStep := Some(stage), attemptCount := attempts, nextRetryAt := Some(now + delay))));
            }
          }
      }
    }

    /** Where a run stands that set out for `target`: done so far with p the current record,
        or stopped in a stage that p started from. */
    ghost predicate Bound(ended: Ended, p: Provision, stage: Stage, target: Outcome, fault: Fault, now: int, max: nat)
      reads store
    {
      match ended
      case Done => store.world.provision == Some(p) && Process(store.world, store.left, fault, now, max) == target
      case Refused(f) => HandleFailure(store.world, p, stage, f == Conflict, now, max) == target
      case Cut =>
        match fault
        case Dies => Outcome(store.world, 0) == target
        case Throws(conflict) => HandleFailure(store.world, p, stage, conflict, now, max) == target
    }

    /** A step just made is one unfolding of the run's recursion. */
    lemma StepMade(w: World, left: nat, ended: Ended, p: Provision, stage: Stage, fault: Fault, now: int, max: nat)
      requires w.provision == Some(p) && StageOf(p.status) == Some(stage)
      requires store.Executed(ended, w, StagePlan(w, p, stage), left)
      ensures ended == Done ==> store.world.provision.Some? && store.world.provision.value.status == NextStatus(stage)
      ensures var q := if ended == Done then store.world.provision.value else p;
              Bound(ended, q, stage, Process(w, left, fault, now, max), fault, now, max)
    {
      var plan := StagePlan(w, p, stage);
      if plan.Ok? && |plan.value| <= left {
        WholeStage(w, p, stage, left, fault, now, max);
        WholeStageMoves(w, p, stage);
      } else {
        StoppedStage(w, p, stage, left, fault, now, max);
      }
    }

    /** One step of a run: the record it leaves, or the one it could not move. */
    method MakeStep(p: Provision, stage: Stage, ghost target: Outcome, fault: Fault, now: int, max: nat)
      returns (ended: Ended, q: Provision)
      requires StageOf(p.status) == Some(stage) && Bound(Done, p, stage, target, fault, now, max)
      modifies store
      ensures Bound(ended, q, stage, target, fault, now, max)
      ensures ended == Done ==> q.status == NextStatus(stage)
    {
      ghost var w, left := store.world, store.left;
      match stage {
        case CreateKey => ended := StepCreateKey(p);
        case CreatePropAccount => ended := StepCreatePropAccount(p);
        case CreateBrokerAccount => ended := StepCreateBrokerAccount(p);
        case Finalize => ended := StepFinalize(p);
      }
      StepMade(w, left, ended, p, stage, fault, now, max);
      q := if ended == Done then store.world.provision.value else p;
    }

    /** The first two stages of a run, as far as they are due. */
    method StepsToPropAccount(start: Provision, ghost target: Outcome, fault: Fault, now: int, max: nat)
      returns (ended: Ended, p: Provision, current: Stage)
      requires StageOf(start.status).Some? && Bound(Done, start, CreateKey, target, fault, now, max)
      modifies store
      ensures Bound(ended, p, current, target, fault, now, max)
      ensures ended == Done ==> StageOf(p.status) == Some(CreateBrokerAccount) || StageOf(p.status) == Some(Finalize)
    {
      p, ended, current := start, Done, CreateKey;
      if p.status == PENDING {
        ended, p := MakeStep(p, CreateKey, target, fault, now, max);
      }
      if ended == Done && p.status == KEY_CREATED {
        current := CreatePropAccount;
        ended, p := MakeStep(p, CreatePropAccount, target, fault, now, max);
      }
    }

    /** The last two stages of a run, as far as they are due. */
    method StepsToCompletion(start: Provision, ghost target: Outcome, fault: Fault, now: int, max: nat)
      returns (ended: Ended, p: Provision, current: Stage)
      requires StageOf(start.status) == Some(CreateBrokerAccount) || StageOf(start.status) == Some(Finalize)
      requires Bound(Done, start, CreateKey, target, fault, now, max)
      modifies store
      ensures Bound(ended, p, current, target, fault, now, max)
      ensures ended == Done ==> Terminal(store.world)
    {
      p, ended, current := start, Done, CreateKey;
      if p.status == PROP_ACCOUNT_CREATED {
        current := CreateBrokerAccount;
        ended, p := MakeStep(p, CreateBrokerAccount, target, fault, now, max);
      }
      if ended == Done && p.status == BROKER_ACCOUNT_CREATED {
        current := Finalize;
        ended, p := MakeStep(p, Finalize, target, fault, now, max);
      }
    }

    /** One run: the stages in order until one does not finish. */
    method ProcessProvision(fault: Fault, now: int, max: nat) returns (delay: nat)
      modifies store
      ensures Outcome(store.world, delay) == Process(old(store.world), old(store.left), fault, now, max)
    {
      if Terminal(store.world) { return 0; }
      ghost var target := Process(store.world, store.left, fault, now, max);
      var ended, p, current := StepsToPropAccount(store.world.provision.value, target, fault, now, max);
      if ended == Done {
        ended, p, current := StepsToCompletion(p, target, fault, now, max);
      }
      delay := HandleEnd(ended, p, current, target, fault, now, max);
    }

    /** The catch block: nothing after a finished run or a death of the process. */
    method HandleEnd(ended: Ended, p: Provision, stage: Stage, ghost target: Outcome, fault: Fault, now: int, max: nat)
      returns (delay: nat)
      requires Bound(ended, p, stage, target, fault, now, max)
      requires ended == Done ==> Terminal(store.world)
      modifies store
      ensures Outcome(store.world, delay) == target
    {
      delay := 0;
      match ended {
        case Done =>
        case Refused(f) => delay := HandleStepFailure(p, stage, f == Conflict, now, max);
        case Cut =>
          match fault {
            case Dies =>
            case Throws(conflict) => delay := HandleStepFailure(p, stage, conflict, now, max);
          }
      }
    }

    /** `maybeTriggerProvisioning`: never a second time. */
    method MaybeTrigger(eligible: bool, now: int) returns (triggered: bool)
      modifies store
      ensures store.world == Trigger(old(store.world), eligible, now)
      ensures triggered == (store.world != old(store.world))
      ensures triggered <==> eligible && old(store.world).provision.None?
      ensures triggered ==>
                store.world == old(store.world).(provision := Some(Provision(PENDING, None, None, None, None, None, 0,
                                                                             Some(now))))
    {
      triggered := eligible && store.world.provision.None?;
      if triggered {
        store.world := store.world.(provision := Some(Provision(PENDING, None, None, None, None, None, 0, Some(now))));
      }
    }

    method RetryProvision(now: int) returns (r: Result<Status, Failure>)
      modifies store
      ensures store.world == Retry(old(store.world), now)
      ensures r == if old(store.world).provision.None? then Err(OtherError) else Ok(store.world.provision.value.status)
      ensures r.Err? ==> store.world == old(store.world)
      ensures r.Ok? ==>
                var p := old(store.world).provision.value;
                && store.world == old(store.world).(provision := Some(p.(status := r.value, attemptCount := 0,
                                                                         nextRetryAt := Some(now), failedStep := None)))
                && (p.status != FAILED ==> r.value == p.status)
                && (p.status == FAILED ==>
                      r.value == match p.failedStep
                                 case None => PENDING
                                 case Some(CreateKey) => PENDING
                                 case Some(CreatePropAccount) => KEY_CREATED
                                 case Some(CreateBrokerAccount) => PROP_ACCOUNT_CREATED
                                 case Some(Finalize) => BROKER_ACCOUNT_CREATED)
    {
      match store.world.provision
      case None => r := Err(OtherError);
      case Some(p) =>
        var resume := p.status;
        if p.status == FAILED { resume := if p.failedStep.Some? then ResumeStatus(p.failedStep.value) else PENDING; }
        store.world := store.world.(provision :=
          Some(p.(status := resume, attemptCount := 0, nextRetryAt := Some(now), failedStep := None)));
        r := Ok(resume);
    }

    /** One best-effort cleanup call; an error is swallowed. */
    method CleanUp(p: Provision, epId: Option<nat>, reached: bool, ghost more: seq<Write>, ghost goal: World,
                   ghost whole: bool)
      returns (ok: bool)
      requires store.Heading(Cleanup(p, epId, reached) + more, goal, whole)
      modifies store
      ensures ok ==> store.Heading(more, goal, whole)
      ensures !ok ==> store.world == goal && !whole
    {
      ok := true;
      if p.epApiKey.Some? && epId.Some? && reached {
        ok := store.Do(EpDelete(epId.value), more, goal, whole);
      } else {
        assert [] + more == more;
      }
    }

    method Reprovision(now: int, propReached: bool, brokerReached: bool) returns (ok: bool)
      modifies store
      ensures store.world
              == CutShort(old(store.world), ReprovisionPlan(old(store.world), now, propReached, brokerReached),
                          old(store.left))
    {
      if store.world.provision.None? { return false; }
      var p := store.world.provision.value;
      ghost var r3 := [ResetProvision(now)] + [Report];
      ghost var r2 := [ArchiveHedges] + r3;
      ghost var r1 := Cleanup(p, p.epBrokerAccountId, brokerReached) + r2;
      ghost var xs := Cleanup(p, p.epPropAccountId, propReached) + r1;
      ghost var goal, whole := CutShort(store.world, xs, store.left), |xs| <= store.left;
      assert ReprovisionPlan(store.world, now, propReached, brokerReached) == xs;
      ok := CleanUp(p, p.epPropAccountId, propReached, r1, goal, whole);
      if !ok { return; }
      ok := CleanUp(p, p.epBrokerAccountId, brokerReached, r2, goal, whole);
      if !ok { return; }
      ok := store.Do(ArchiveHedges, r3, goal, whole);
      if !ok { return; }
      ok := store.Do(ResetProvision(now), [Report], goal, whole);
      if !ok { return; }
      assert [Report] + [] == [Report];
      ok := store.Do(Report, [], goal, whole);
    }
  }
}
