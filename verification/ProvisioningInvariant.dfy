/** What every worker run, command, trigger and admin action keeps true of a user's
    provision record and hedge setups, cut short or not. */
module ProvisioningInvariant {
  import opened Common
  import opened ServiceWorld
  import opened ServiceControl
  import opened ServiceRecovery
  import opened Provisioning

  /** The stage a record has reached; a failed one has reached what a retry resumes. */
  function Reached(p: Provision): Status {
    if p.status == FAILED && p.failedStep.Some? then ResumeStatus(p.failedStep.value) else p.status
  }

  /** A record at or past a stage holds what that stage stored. */
  predicate Backed(p: Provision, status: Status) {
    && (status == KEY_CREATED || status == PROP_ACCOUNT_CREATED || status == BROKER_ACCOUNT_CREATED
        || status == COMPLETED
        ==> p.epApiKey.Some?)
    && (status == PROP_ACCOUNT_CREATED || status == BROKER_ACCOUNT_CREATED || status == COMPLETED ==>
          p.epPropAccountId.Some?)
    && (status == BROKER_ACCOUNT_CREATED || status == COMPLETED ==> p.epBrokerAccountId.Some?)
  }

  predicate RecordOk(p: Provision, max: nat) {
    && (p.epApiKey.Some? <==> p.epKeyId.Some?)
    && (p.status == FAILED ==> p.failedStep.Some?)
    && (StageOf(p.status).Some? ==> p.attemptCount < max)
    && Backed(p, Reached(p))
  }

  predicate MayTrade(w: World) {
    w.provision.Some?
    && (Reached(w.provision.value) == BROKER_ACCOUNT_CREATED || Reached(w.provision.value) == COMPLETED)
  }

  ghost predicate Inv(w: World, max: nat) {
    && (w.provision.Some? ==> RecordOk(w.provision.value, max))
    && AtMostOneLive(w.hedges)
    && (LiveHedge(w.hedges).Some? ==> MayTrade(w))
  }

  /** A stored key is never replaced. */
  predicate KeyKept(w: World, t: World) {
    w.provision.Some? && w.provision.value.epApiKey.Some? ==>
      t.provision.Some? && t.provision.value.epApiKey == w.provision.value.epApiKey
      && t.provision.value.epKeyId == w.provision.value.epKeyId
  }

  // -------------------------------------------------------------------- single writes

  /** When a write may be made. */
  predicate Allowed(w: World, x: Write) {
    match x
    case SetHedgeStatus(h, to) => to == Archived || (h < |w.hedges| && w.hedges[h].status != Archived)
    case NewHedge(hedge) => LiveHedge(w.hedges).None? && MayTrade(w)
    case Decommission => LiveHedge(w.hedges).None?
    case ResetProvision(_) => LiveHedge(w.hedges).None?
    case Transition(to, grant) =>
      && w.provision.Some?
      && Backed(Moved(w.provision.value, to, grant), to) && to != FAILED
      && (grant.GrantKey? ==> w.provision.value.epApiKey.None?)
      && (LiveHedge(w.hedges).None? || to == COMPLETED)
    case _ => true
  }

  lemma WriteKeepsHedges(w: World, x: Write)
    requires AtMostOneLive(w.hedges) && Allowed(w, x)
    ensures AtMostOneLive(Apply(w, x).hedges)
    ensures !x.NewHedge? && LiveHedge(w.hedges).None? ==> LiveHedge(Apply(w, x).hedges).None?
  {
  }

  lemma WriteKeepsInv(w: World, x: Write, max: nat)
    requires max >= 1 && Inv(w, max) && Allowed(w, x)
    ensures Inv(Apply(w, x), max) && KeyKept(w, Apply(w, x))
  {
    WriteKeepsHedges(w, x);
  }

  ghost predicate AllAllowed(w: World, xs: seq<Write>)
    decreases |xs|
  {
    xs != [] ==> Allowed(w, xs[0]) && AllAllowed(Apply(w, xs[0]), xs[1..])
  }

  lemma {:induction false} CutKeepsInv(w: World, xs: seq<Write>, k: nat, max: nat)
    requires max >= 1 && Inv(w, max) && AllAllowed(w, xs)
    ensures Inv(CutShort(w, xs, k), max) && KeyKept(w, CutShort(w, xs, k))
    decreases |xs|
  {
    if xs != [] && k > 0 {
      WriteKeepsInv(w, xs[0], max);
      CutKeepsInv(Apply(w, xs[0]), xs[1..], k - 1, max);
      assert [xs[0]] + xs[1..] == xs;
      CutSplit(w, [xs[0]], xs[1..], k);
      ApplyOne(w, xs[0]);
    }
  }

  /** Writes that are allowed anywhere. */
  predicate Free(x: Write) {
    !x.SetHedgeStatus? && !x.NewHedge? && !x.Decommission? && !x.ResetProvision? && !x.Transition?
  }

  lemma {:induction false} FreeWritesAreAllowed(w: World, xs: seq<Write>)
    requires forall i :: 0 <= i < |xs| ==> Free(xs[i])
    ensures AllAllowed(w, xs)
    decreases |xs|
  {
    if xs != [] { FreeWritesAreAllowed(Apply(w, xs[0]), xs[1..]); }
  }

  lemma {:induction false} AllowedAppend(w: World, a: seq<Write>, b: seq<Write>)
    requires AllAllowed(w, a) && AllAllowed(ApplyAll(w, a), b)
    ensures AllAllowed(w, a + b)
    decreases |a|
  {
    if a == [] {
      assert a + b == b;
    } else {
      AllowedAppend(Apply(w, a[0]), a[1..], b);
      assert (a + b)[1..] == a[1..] + b;
    }
  }

  // ------------------------------------------------------------------------- commands

  lemma AllowedFirst(w: World, x: Write, rest: seq<Write>)
    requires Allowed(w, x) && AllAllowed(Apply(w, x), rest)
    ensures AllAllowed(w, [x] + rest)
  {
    assert ([x] + rest)[1..] == rest;
  }

  lemma DecommissionIsAllowed(w: World)
    requires LiveHedge(w.hedges).None?
    ensures AllAllowed(w, [Decommission] + [Report])
  {
    AllowedFirst(w, Decommission, [Report]);
  }

  /** The live hedge is archived, and only then is the user decommissioned. */
  lemma ArchivingIsAllowed(w: World)
    requires AtMostOneLive(w.hedges)
    ensures AllAllowed(w, WriteHedge(LiveHedge(w.hedges), (h: nat) => SetHedgeStatus(h, Archived))
                       + ([Decommission] + [Report]))
  {
    var last := [Decommission] + [Report];
    match LiveHedge(w.hedges) {
      case None =>
        DecommissionIsAllowed(w);
        assert [] + last == last;
      case Some(h) =>
        ArchivedTheOnlyOne(w.hedges);
        DecommissionIsAllowed(Apply(w, SetHedgeStatus(h, Archived)));
        AllowedFirst(w, SetHedgeStatus(h, Archived), last);
    }
  }

  lemma TailIsAllowed(w: World)
    requires AtMostOneLive(w.hedges)
    ensures AllAllowed(w, DeleteTail(LiveHedge(w.hedges)))
  {
    var w1 := Apply(w, ClearBrokerEps);
    var w2 := Apply(w1, ClearPropEps);
    var rest := WriteHedge(LiveHedge(w.hedges), (h: nat) => SetHedgeStatus(h, Archived)) + ([Decommission] + [Report]);
    ArchivingIsAllowed(w2);
    AllowedFirst(w1, ClearPropEps, rest);
    AllowedFirst(w, ClearBrokerEps, [ClearPropEps] + rest);
  }

  lemma CommandIsAllowed(w: World, c: Command)
    requires AtMostOneLive(w.hedges) && CommandPlan(w, c).Ok?
    ensures AllAllowed(w, CommandPlan(w, c).value)
  {
    var xs := CommandPlan(w, c).value;
    match c
    case DeleteService(listed) =>
      var ids := DoomedIds(w, listed);
      FreeWritesAreAllowed(w, Deletes(ids));
      DeletesEffect(w, ids);
      TailIsAllowed(ApplyAll(w, Deletes(ids)));
      AllowedAppend(w, Deletes(ids), DeleteTail(LiveHedge(w.hedges)));
    case Start =>
    case Stop(_) =>
    case _ =>
      SyncPlansAreFree(w, c);
      FreeWritesAreAllowed(w, xs);
  }

  ghost predicate AllFree(xs: seq<Write>) {
    forall i :: 0 <= i < |xs| ==> Free(xs[i])
  }

  lemma TailsAreFree(id: nat, epId: nat, previous: Option<nat>, hedge: Option<nat>)
    ensures AllFree(RotationTail(id, epId, previous, hedge)) && AllFree(ReplaceTail(id, epId, previous, hedge))
  {
  }

  lemma SyncPlansAreFree(w: World, c: Command)
    requires Recoverable(c) && CommandPlan(w, c).Ok?
    ensures AllFree(CommandPlan(w, c).value)
  {
    match c
    case PropRotation(p) =>
      var (create, epId) := Ensure(w.remote, Identity(w.props[p])).value;
      TailsAreFree(p, epId, w.provision.value.epPropAccountId, LiveHedge(w.hedges));
    case BrokerReplace(b, replaced) =>
      var (create, epId) := Ensure(w.remote, Identity(w.brokers[b])).value;
      TailsAreFree(b, epId, ReplacedEp(w, b, replaced, epId), LiveHedge(w.hedges));
    case BrokerAdd(b) =>
    case SetHedgeBroker(b) =>
  }

  // ---------------------------------------------------------------------- worker runs

  lemma WorkIsAllowed(w: World, p: Provision, stage: Stage)
    requires w.provision == Some(p) && StageOf(p.status) == Some(stage) && AtMostOneLive(w.hedges)
    requires StageWork(w, p, stage).Ok?
    ensures AllAllowed(w, StageWork(w, p, stage).value.writes)
  {
    var xs := StageWork(w, p, stage).value.writes;
    if stage == Finalize {
      FreeWritesAreAllowed(w, [ArchiveHedges]);
      ApplyOne(w, ArchiveHedges);
      AllowedAppend(w, [ArchiveHedges], [xs[1]]);
      assert xs == [ArchiveHedges] + [xs[1]];
    } else {
      WorkShape(w, p, stage);
      FreeWritesAreAllowed(w, xs);
    }
  }

  lemma WorkKeepsInv(w: World, p: Provision, stage: Stage, k: nat, max: nat)
    requires max >= 1 && Inv(w, max) && w.provision == Some(p) && StageOf(p.status) == Some(stage)
    requires StageWork(w, p, stage).Ok?
    ensures var xs := StageWork(w, p, stage).value.writes;
            && Inv(CutShort(w, xs, k), max) && KeyKept(w, CutShort(w, xs, k))
            && Inv(ApplyAll(w, xs), max) && KeyKept(w, ApplyAll(w, xs)) && ApplyAll(w, xs).provision == Some(p)
  {
    var xs := StageWork(w, p, stage).value.writes;
    WorkIsAllowed(w, p, stage);
    CutKeepsInv(w, xs, k, max);
    CutKeepsInv(w, xs, |xs|, max);
    WorkShape(w, p, stage);
    OffRecordWrites(w, xs);
  }

  lemma StageKeepsInv(w: World, p: Provision, stage: Stage, k: nat, max: nat)
    requires max >= 1 && Inv(w, max) && w.provision == Some(p) && StageOf(p.status) == Some(stage)
    requires StagePlan(w, p, stage).Ok?
    ensures Inv(CutShort(w, StagePlan(w, p, stage).value, k), max)
    ensures KeyKept(w, CutShort(w, StagePlan(w, p, stage).value, k))
  {
    var work := StageWork(w, p, stage).value;
    var ahead := ApplyAll(w, work.writes);
    StageCut(w, p, stage, k);
    WorkKeepsInv(w, p, stage, k, max);
    TransitionIsAllowed(w, p, stage, ahead, max);
    WriteKeepsInv(ahead, Transition(NextStatus(stage), work.grant), max);
  }

  lemma TransitionIsAllowed(w: World, p: Provision, stage: Stage, ahead: World, max: nat)
    requires Inv(ahead, max) && ahead.provision == Some(p) && StageOf(p.status) == Some(stage)
    requires StageWork(w, p, stage).Ok?
    ensures Allowed(ahead, Transition(NextStatus(stage), StageWork(w, p, stage).value.grant))
  {
  }

  lemma FailureKeepsInv(s: World, p: Provision, stage: Stage, conflict: bool, now: int, max: nat)
    requires Inv(s, max) && s.provision.Some? && StageOf(p.status) == Some(stage)
    ensures Inv(HandleFailure(s, p, stage, conflict, now, max).world, max)
    ensures KeyKept(s, HandleFailure(s, p, stage, conflict, now, max).world)
  {
  }

  function WorldOf(r: Progress): World {
    match r case Next(t, _) => t case Ended(o) => o.world
  }

  lemma OneStageKeepsInv(w: World, left: nat, fault: Fault, now: int, max: nat)
    requires max >= 1 && Inv(w, max) && !Terminal(w)
    ensures var t := WorldOf(OneStage(w, left, fault, now, max)); Inv(t, max) && KeyKept(w, t)
  {
    var p := w.provision.value;
    var stage := StageOf(p.status).value;
    match StagePlan(w, p, stage)
    case Err(f) => FailureKeepsInv(w, p, stage, f == Conflict, now, max);
    case Ok(xs) =>
      StageCut(w, p, stage, left);
      StageKeepsInv(w, p, stage, left, max);
      if |xs| > left && fault.Throws? { FailureKeepsInv(CutShort(w, xs, left), p, stage, fault.conflict, now, max); }
  }

  lemma {:induction false} RunKeepsInv(w: World, left: nat, fault: Fault, now: int, max: nat)
    requires max >= 1 && Inv(w, max)
    ensures Inv(Process(w, left, fault, now, max).world, max)
    ensures KeyKept(w, Process(w, left, fault, now, max).world)
    decreases StagesLeft(StatusOf(w))
  {
    if !Terminal(w) {
      OneStageKeepsInv(w, left, fault, now, max);
      match OneStage(w, left, fault, now, max)
      case Next(t, rest) => RunKeepsInv(t, rest, fault, now, max);
      case Ended(_) =>
    }
  }

  // --------------------------------------------------------------------------- events

  /** Everything that touches a user's service; `left` cuts a call short after that many
      writes. Account screens may change the account tables in any way. */
  datatype Event =
    | Triggered(eligible: bool, now: int)
    | Worked(left: nat, fault: Fault, now: int)
    | Commanded(command: Command, left: nat)
    | Retried(now: int)
    | Reprovisioned(now: int, propReached: bool, brokerReached: bool, left: nat)
    | Edited(props: seq<Account>, brokers: seq<Account>)

  function StepEvent(w: World, e: Event, max: nat): World {
    match e
    case Triggered(eligible, now) => Trigger(w, eligible, now)
    case Worked(left, fault, now) => Process(w, left, fault, now, max).world
    case Commanded(c, left) => RunCut(w, c, left)
    case Retried(now) => Retry(w, now)
    case Reprovisioned(now, prop, broker, left) => CutShort(w, ReprovisionPlan(w, now, prop, broker), left)
    case Edited(props, brokers) => w.(props := props, brokers := brokers)
  }

  function RunEvents(w: World, events: seq<Event>, max: nat): World
    decreases |events|
  {
    if events == [] then w else RunEvents(StepEvent(w, events[0], max), events[1..], max)
  }

  lemma ReprovisionIsAllowed(w: World, now: int, prop: bool, broker: bool)
    ensures AllAllowed(w, ReprovisionPlan(w, now, prop, broker))
  {
    if w.provision.Some? {
      var p := w.provision.value;
      var clean := Cleanup(p, p.epPropAccountId, prop) + Cleanup(p, p.epBrokerAccountId, broker);
      var w1 := ApplyAll(w, clean);
      FreeWritesAreAllowed(w, clean);
      FreeWritesAreAllowed(w1, [ArchiveHedges]);
      ApplyOne(w1, ArchiveHedges);
      var w2 := Apply(w1, ArchiveHedges);
      ApplyOne(w2, ResetProvision(now));
      AllowedAppend(w2, [ResetProvision(now)], [Report]);
      AllowedAppend(w1, [ArchiveHedges], [ResetProvision(now)] + [Report]);
      AllowedAppend(w, clean, [ArchiveHedges] + ([ResetProvision(now)] + [Report]));
      assert [ArchiveHedges] + ([ResetProvision(now)] + [Report]) == [ArchiveHedges, ResetProvision(now), Report];
    }
  }

  lemma EventKeepsInv(w: World, e: Event, max: nat)
    requires max >= 1 && Inv(w, max)
    ensures Inv(StepEvent(w, e, max), max) && KeyKept(w, StepEvent(w, e, max))
  {
    match e
    case Worked(left, fault, now) => RunKeepsInv(w, left, fault, now, max);
    case Commanded(c, left) =>
      if CommandPlan(w, c).Ok? {
        CommandIsAllowed(w, c);
        CutKeepsInv(w, CommandPlan(w, c).value, left, max);
      }
    case Reprovisioned(now, prop, broker, left) =>
      ReprovisionIsAllowed(w, now, prop, broker);
      CutKeepsInv(w, ReprovisionPlan(w, now, prop, broker), left, max);
    case _ =>
  }

  /** Over any run of anything, cut short anywhere: the record holds what its status claims,
      at most one hedge is alive and only for a provisioned user, and a stored key stays. */
  lemma {:induction false} EventsKeepInv(w: World, events: seq<Event>, max: nat)
    requires max >= 1 && Inv(w, max)
    ensures Inv(RunEvents(w, events, max), max) && KeyKept(w, RunEvents(w, events, max))
    decreases |events|
  {
    if events != [] {
      EventKeepsInv(w, events[0], max);
      EventsKeepInv(StepEvent(w, events[0], max), events[1..], max);
    }
  }

  /** A user without a record and without hedges is where every history begins. */
  lemma EveryHistoryKeepsInv(props: seq<Account>, brokers: seq<Account>, remote: Remote, events: seq<Event>, max: nat)
    requires max >= 1
    ensures Inv(RunEvents(World(None, props, brokers, [], remote), events, max), max)
  {
    EventsKeepInv(World(None, props, brokers, [], remote), events, max);
  }

  // ------------------------------------------------------- nothing is registered twice

  ghost predicate RegistersNothing(xs: seq<Write>) {
    forall i :: 0 <= i < |xs| ==> !xs[i].EpCreate?
  }

  lemma {:induction false} WritesKeepUnique(w: World, xs: seq<Write>)
    requires NoAlias(w.remote) && RegistersNothing(xs)
    ensures NoAlias(ApplyAll(w, xs).remote)
    decreases |xs|
  {
    if xs != [] {
      WritesKeepUnique(Apply(w, xs[0]), xs[1..]);
    }
  }

  lemma CutKeepsUnique(w: World, xs: seq<Write>, k: nat)
    requires NoAlias(w.remote) && RegistersNothing(xs)
    ensures NoAlias(CutShort(w, xs, k).remote)
  {
    WritesKeepUnique(w, if k < |xs| then xs[..k] else xs);
  }

  /** A plan that first registers what the listing does not show, and then nothing else. */
  lemma RegistrationKeepsUnique(w: World, a: EpAccount, rest: seq<Write>, k: nat)
    requires NoAlias(w.remote) && Ensure(w.remote, a).Ok? && RegistersNothing(rest)
    ensures NoAlias(CutShort(w, Ensure(w.remote, a).value.0 + rest, k).remote)
  {
    var create := Ensure(w.remote, a).value.0;
    EnsureIsIdempotent(w, a);
    var m := CutHead(w, create, rest, k);
    CutKeepsUnique(ApplyAll(w, create), rest, m);
  }

  lemma TailsRegisterNothing(id: nat, epId: nat, previous: Option<nat>, hedge: Option<nat>)
    ensures RegistersNothing(RotationTail(id, epId, previous, hedge))
    ensures RegistersNothing(ReplaceTail(id, epId, previous, hedge))
    ensures RegistersNothing(DeleteTail(hedge))
  {
  }

  lemma CommandKeepsUnique(w: World, c: Command, k: nat)
    requires NoAlias(w.remote)
    ensures NoAlias(RunCut(w, c, k).remote)
  {
    if CommandPlan(w, c).Ok? {
      match c
      case PropRotation(p) => RotationKeepsUnique(w, p, k);
      case BrokerReplace(b, replaced) => ReplaceKeepsUnique(w, b, replaced, k);
      case BrokerAdd(b) =>
        var a := Identity(w.brokers[b]);
        RegistrationKeepsUnique(w, a, [BrokerEp(b, Ensure(w.remote, a).value.1)] + [Report], k);
      case DeleteService(listed) => DeletionKeepsUnique(w, listed, k);
      case _ => CutKeepsUnique(w, CommandPlan(w, c).value, k);
    }
  }

  lemma DeletionKeepsUnique(w: World, listed: bool, k: nat)
    requires NoAlias(w.remote) && CommandPlan(w, DeleteService(listed)).Ok?
    ensures NoAlias(RunCut(w, DeleteService(listed), k).remote)
  {
    TailsRegisterNothing(0, 0, None, LiveHedge(w.hedges));
    CutKeepsUnique(w, Deletes(DoomedIds(w, listed)) + DeleteTail(LiveHedge(w.hedges)), k);
  }

  lemma RotationKeepsUnique(w: World, p: nat, k: nat)
    requires NoAlias(w.remote) && CommandPlan(w, PropRotation(p)).Ok?
    ensures NoAlias(RunCut(w, PropRotation(p), k).remote)
  {
    var a := Identity(w.props[p]);
    var epId := Ensure(w.remote, a).value.1;
    TailsRegisterNothing(p, epId, w.provision.value.epPropAccountId, LiveHedge(w.hedges));
    RegistrationKeepsUnique(w, a, RotationTail(p, epId, w.provision.value.epPropAccountId, LiveHedge(w.hedges)), k);
  }

  lemma ReplaceKeepsUnique(w: World, b: nat, replaced: Option<nat>, k: nat)
    requires NoAlias(w.remote) && CommandPlan(w, BrokerReplace(b, replaced)).Ok?
    ensures NoAlias(RunCut(w, BrokerReplace(b, replaced), k).remote)
  {
    var a := Identity(w.brokers[b]);
    var epId := Ensure(w.remote, a).value.1;
    TailsRegisterNothing(b, epId, ReplacedEp(w, b, replaced, epId), LiveHedge(w.hedges));
    RegistrationKeepsUnique(w, a, ReplaceTail(b, epId, ReplacedEp(w, b, replaced, epId), LiveHedge(w.hedges)), k);
  }

  lemma StageKeepsUnique(w: World, p: Provision, stage: Stage, k: nat)
    requires NoAlias(w.remote) && StagePlan(w, p, stage).Ok?
    ensures NoAlias(CutShort(w, StagePlan(w, p, stage).value, k).remote)
  {
    match stage
    case CreatePropAccount =>
      var prop := NewestActive(w.props).value;
      var a := Identity(w.props[prop]);
      var (create, epId) := Ensure(w.remote, a).value;
      var rest := [PropEp(prop, epId)] + Finish(stage, GrantProp(epId));
      assert StagePlan(w, p, stage).value == create + rest;
      RegistrationKeepsUnique(w, a, rest, k);
    case CreateBrokerAccount =>
      var broker := HedgeBrokerAccount(w).value;
      var a := Identity(w.brokers[broker]);
      var (create, epId) := Ensure(w.remote, a).value;
      var rest := [BrokerEp(broker, epId)] + Finish(stage, GrantBroker(epId));
      assert StagePlan(w, p, stage).value == create + rest;
      RegistrationKeepsUnique(w, a, rest, k);
    case _ => CutKeepsUnique(w, StagePlan(w, p, stage).value, k);
  }

  lemma OneStageKeepsUnique(w: World, left: nat, fault: Fault, now: int, max: nat)
    requires NoAlias(w.remote) && !Terminal(w)
    ensures NoAlias(WorldOf(OneStage(w, left, fault, now, max)).remote)
  {
    var p := w.provision.value;
    var stage := StageOf(p.status).value;
    if StagePlan(w, p, stage).Ok? { StageKeepsUnique(w, p, stage, left); }
  }

  lemma {:induction false} RunKeepsUnique(w: World, left: nat, fault: Fault, now: int, max: nat)
    requires NoAlias(w.remote)
    ensures NoAlias(Process(w, left, fault, now, max).world.remote)
    decreases StagesLeft(StatusOf(w))
  {
    if !Terminal(w) {
      OneStageKeepsUnique(w, left, fault, now, max);
      match OneStage(w, left, fault, now, max)
      case Next(t, rest) => RunKeepsUnique(t, rest, fault, now, max);
      case Ended(_) =>
    }
  }

  lemma EventKeepsUnique(w: World, e: Event, max: nat)
    requires NoAlias(w.remote)
    ensures NoAlias(StepEvent(w, e, max).remote)
  {
    match e
    case Worked(left, fault, now) => RunKeepsUnique(w, left, fault, now, max);
    case Commanded(c, left) => CommandKeepsUnique(w, c, left);
    case Reprovisioned(now, prop, broker, left) => CutKeepsUnique(w, ReprovisionPlan(w, now, prop, broker), left);
    case _ =>
  }

  /** Whatever happens to a user's service, and wherever it is interrupted, the platform
      never holds two accounts with the same login and server. */
  lemma {:induction false} NothingIsRegisteredTwice(w: World, events: seq<Event>, max: nat)
    requires NoAlias(w.remote)
    ensures NoAlias(RunEvents(w, events, max).remote)
    decreases |events|
  {
    if events != [] {
      EventKeepsUnique(w, events[0], max);
      NothingIsRegisteredTwice(StepEvent(w, events[0], max), events[1..], max);
    }
  }
}
