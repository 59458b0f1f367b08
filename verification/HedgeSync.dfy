/** The remote ids of the live hedge against those of the provision: equal after every
    finished call, unequal exactly in the window between two writes of an interrupted one,
    and equal again once the command has been run again. */
module HedgeSync {
  import opened Common
  import opened ServiceWorld
  import opened ServiceControl
  import opened ServiceRecovery
  import opened Provisioning
  import opened ProvisioningInvariant
  import opened ProvisioningRecovery

  /** The live hedge, if any, points where the provision does. */
  ghost predicate InSync(w: World) {
    match LiveHedge(w.hedges)
    case None => true
    case Some(h) =>
      && w.provision.Some?
      && w.provision.value.epPropAccountId == Some(w.hedges[h].epPropAccountId)
      && w.provision.value.epBrokerAccountId == Some(w.hedges[h].epBrokerAccountId)
  }

  /** Writes to neither the provision nor the hedges. */
  predicate Quiet(x: Write) {
    x.EpNewKey? || x.EpCreate? || x.EpDelete? || x.PropEp? || x.BrokerEp? || x.ClearBrokerEps? || x.ClearPropEps?
    || x.Report?
  }

  lemma {:induction false} QuietWrites(w: World, xs: seq<Write>)
    requires forall i :: 0 <= i < |xs| ==> Quiet(xs[i])
    ensures ApplyAll(w, xs).provision == w.provision && ApplyAll(w, xs).hedges == w.hedges
    decreases |xs|
  {
    if xs != [] { QuietWrites(Apply(w, xs[0]), xs[1..]); }
  }

  lemma PairCut(w: World, y: Write, z: Write, k: nat)
    ensures CutShort(w, [y] + ([z] + [Report]), k)
            == if k == 0 then w else if k == 1 then Apply(w, y) else Apply(Apply(w, y), z)
  {
    CutSplit(w, [y], [z] + [Report], k);
    if k >= 1 {
      ApplyOne(w, y);
      ReportChangesNothing(Apply(w, y), [z], k - 1);
      CutSplit(Apply(w, y), [z], [Report], k - 1);
      ApplyOne(Apply(w, y), z);
    }
  }

  /** Where a cut falls in a plan that ends in the two writes y and z. */
  lemma TwoWrites(w: World, a: seq<Write>, y: Write, z: Write, k: nat)
    requires forall i :: 0 <= i < |a| ==> Quiet(a[i])
    ensures var s := CutShort(w, a + ([y] + ([z] + [Report])), k);
            var w1 := ApplyAll(w, a);
            && w1.provision == w.provision && w1.hedges == w.hedges
            && (k <= |a| ==> s.provision == w.provision && s.hedges == w.hedges)
            && (k == |a| + 1 ==> s == Apply(w1, y))
            && (k >= |a| + 2 ==> s == Apply(Apply(w1, y), z))
  {
    QuietWrites(w, a);
    CutSplit(w, a, [y] + ([z] + [Report]), k);
    if k < |a| {
      QuietWrites(w, a[..k]);
    } else {
      PairCut(ApplyAll(w, a), y, z, k - |a|);
    }
  }

  /** The commands that point the hedge at another account. */
  predicate Repoints(c: Command) {
    c.PropRotation? || c.BrokerReplace? || c.SetHedgeBroker?
  }

  /** The account such a command points at. */
  function NewEp(w: World, c: Command): nat
    requires Repoints(c) && CommandPlan(w, c).Ok?
  {
    match c
    case PropRotation(p) => Ensure(w.remote, Identity(w.props[p])).value.1
    case BrokerReplace(b, _) => Ensure(w.remote, Identity(w.brokers[b])).value.1
    case SetHedgeBroker(b) => w.brokers[b].epAccountId.value
  }

  /** The account the hedge points at before. */
  function CurrentEp(w: World, c: Command): nat
    requires Repoints(c) && LiveHedge(w.hedges).Some?
  {
    var hedge := w.hedges[LiveHedge(w.hedges).value];
    if c.PropRotation? then hedge.epPropAccountId else hedge.epBrokerAccountId
  }

  /** The two writes that must not come apart. */
  function PairOf(w: World, c: Command): (Write, Write)
    requires Repoints(c) && CommandPlan(w, c).Ok? && LiveHedge(w.hedges).Some?
  {
    var h, epId := LiveHedge(w.hedges).value, NewEp(w, c);
    match c
    case PropRotation(p) => (ProvisionProp(epId), HedgeProp(h, p, epId))
    case BrokerReplace(b, _) => (ProvisionBroker(epId), HedgeBroker(h, b, epId))
    case SetHedgeBroker(b) => (HedgeBroker(h, b, epId), ProvisionBroker(epId))
  }

  lemma PlanEndsInPair(w: World, c: Command) returns (a: seq<Write>)
    requires Repoints(c) && CommandPlan(w, c).Ok? && LiveHedge(w.hedges).Some?
    ensures var (y, z) := PairOf(w, c);
            && CommandPlan(w, c).value == a + ([y] + ([z] + [Report]))
            && |CommandPlan(w, c).value| == |a| + 3
            && forall i :: 0 <= i < |a| ==> Quiet(a[i])
  {
    var (y, z) := PairOf(w, c);
    match c
    case PropRotation(p) =>
      var (create, epId) := Ensure(w.remote, Identity(w.props[p])).value;
      a := create + ([PropEp(p, epId)] + DeleteOld(w.provision.value.epPropAccountId, epId));
      assert CommandPlan(w, c).value == a + ([y] + ([z] + [Report]));
    case BrokerReplace(b, replaced) =>
      var (create, epId) := Ensure(w.remote, Identity(w.brokers[b])).value;
      a := create + ([BrokerEp(b, epId)] + DeleteOld(ReplacedEp(w, b, replaced, epId), epId));
      assert CommandPlan(w, c).value == a + ([y] + ([z] + [Report]));
    case SetHedgeBroker(b) =>
      a := [];
      assert CommandPlan(w, c).value == a + ([y] + ([z] + [Report]));
  }

  /** Half the pair breaks the agreement unless it changes nothing, and the whole pair keeps it. */
  lemma PairAndSync(w: World, c: Command, v: World)
    requires Repoints(c) && CommandPlan(w, c).Ok? && LiveHedge(w.hedges).Some? && InSync(w)
    requires v.provision == w.provision && v.hedges == w.hedges
    ensures var (y, z) := PairOf(w, c);
            && (InSync(Apply(v, y)) <==> NewEp(w, c) == CurrentEp(w, c))
            && InSync(Apply(Apply(v, y), z))
  {
    var h := LiveHedge(w.hedges).value;
    var x := match c case PropRotation(p) => w.hedges[h].(propAccountId := p, epPropAccountId := NewEp(w, c))
                     case BrokerReplace(b, _) => w.hedges[h].(brokerAccountId := b, epBrokerAccountId := NewEp(w, c))
                     case SetHedgeBroker(b) => w.hedges[h].(brokerAccountId := b, epBrokerAccountId := NewEp(w, c));
    HedgeUpdateKeepsLive(w.hedges, h, x);
  }

  /** An interrupted rotation, replacement or selection leaves hedge and provision apart if
      and only if it stopped between their two writes and pointed at a new account. */
  lemma InterruptionBreaksSyncIff(w: World, c: Command, k: nat)
    requires Repoints(c) && CommandPlan(w, c).Ok? && LiveHedge(w.hedges).Some? && InSync(w)
    ensures !InSync(RunCut(w, c, k)) <==> k == |CommandPlan(w, c).value| - 2 && NewEp(w, c) != CurrentEp(w, c)
  {
    var a := PlanEndsInPair(w, c);
    var (y, z) := PairOf(w, c);
    TwoWrites(w, a, y, z, k);
    PairAndSync(w, c, ApplyAll(w, a));
  }

  // ------------------------------------------------------------------- all the commands

  /** The one way an interrupted command takes hedge and provision apart. */
  ghost predicate Apart(w: World, c: Command, k: nat) {
    && Repoints(c) && CommandPlan(w, c).Ok? && LiveHedge(w.hedges).Some?
    && k == |CommandPlan(w, c).value| - 2 && NewEp(w, c) != CurrentEp(w, c)
  }

  predicate Steady(x: Write) {
    Quiet(x) || x.ProvisionProp? || x.ProvisionBroker?
  }

  lemma {:induction false} SteadyWrites(w: World, xs: seq<Write>)
    requires forall i :: 0 <= i < |xs| ==> Steady(xs[i])
    ensures ApplyAll(w, xs).hedges == w.hedges
    decreases |xs|
  {
    if xs != [] { SteadyWrites(Apply(w, xs[0]), xs[1..]); }
  }

  lemma TailsAreSteady(id: nat, epId: nat, previous: Option<nat>)
    ensures forall i :: 0 <= i < |RotationTail(id, epId, previous, None)| ==>
              Steady(RotationTail(id, epId, previous, None)[i])
    ensures forall i :: 0 <= i < |ReplaceTail(id, epId, previous, None)| ==>
              Steady(ReplaceTail(id, epId, previous, None)[i])
  {
  }

  lemma PlanIsSteady(w: World, c: Command)
    requires CommandPlan(w, c).Ok? && LiveHedge(w.hedges).None? && !c.DeleteService?
    ensures forall i :: 0 <= i < |CommandPlan(w, c).value| ==> Steady(CommandPlan(w, c).value[i])
  {
    match c
    case PropRotation(p) =>
      TailsAreSteady(p, NewEp(w, c), w.provision.value.epPropAccountId);
    case BrokerReplace(b, replaced) =>
      TailsAreSteady(b, NewEp(w, c), ReplacedEp(w, b, replaced, NewEp(w, c)));
    case _ =>
  }

  /** Without a live hedge nothing any command writes revives one. */
  lemma NoHedgeStaysSync(w: World, c: Command, k: nat)
    requires LiveHedge(w.hedges).None?
    ensures LiveHedge(RunCut(w, c, k).hedges).None?
  {
    if c.DeleteService? {
      if HasKey(w) { var gone := CutIsHalfway(w, c.listed, k); }
    } else if CommandPlan(w, c).Ok? {
      var xs := CommandPlan(w, c).value;
      PlanIsSteady(w, c);
      SteadyWrites(w, if k < |xs| then xs[..k] else xs);
    }
  }

  lemma StatusKeepsSync(w: World, h: nat, to: HedgeStatus, k: nat)
    requires LiveHedge(w.hedges) == Some(h) && to != Archived && InSync(w)
    ensures InSync(CutShort(w, [SetHedgeStatus(h, to), Report], k))
  {
    HedgeUpdateKeepsLive(w.hedges, h, w.hedges[h].(status := to));
    assert [SetHedgeStatus(h, to), Report] == [SetHedgeStatus(h, to)] + [Report];
    ReportChangesNothing(w, [SetHedgeStatus(h, to)], k);
    ApplyOne(w, SetHedgeStatus(h, to));
  }

  lemma DeletionKeepsSync(w: World, listed: bool, k: nat)
    requires InSync(w) && AtMostOneLive(w.hedges)
    ensures InSync(RunCut(w, DeleteService(listed), k))
  {
    if HasKey(w) {
      var gone := CutIsHalfway(w, listed, k);
      ArchivedTheOnlyOne(w.hedges);
    }
  }

  /** Every command, cut short anywhere, keeps hedge and provision together unless it stops
      between the two writes that point at a new account. */
  lemma CutKeepsSyncIff(w: World, c: Command, k: nat)
    requires InSync(w) && AtMostOneLive(w.hedges)
    ensures InSync(RunCut(w, c, k)) <==> !Apart(w, c, k)
  {
    if LiveHedge(w.hedges).None? {
      NoHedgeStaysSync(w, c, k);
    } else if CommandPlan(w, c).Ok? {
      var xs := CommandPlan(w, c).value;
      match c
      case DeleteService(listed) => DeletionKeepsSync(w, listed, k);
      case Start => StatusKeepsSync(w, LiveHedge(w.hedges).value, Active, k);
      case Stop(entitled) =>
        if entitled { QuietWrites(w, if k < |xs| then xs[..k] else xs); }
        else { StatusKeepsSync(w, LiveHedge(w.hedges).value, Paused, k); }
      case BrokerAdd(_) => QuietWrites(w, if k < |xs| then xs[..k] else xs);
      case _ => InterruptionBreaksSyncIff(w, c, k);
    }
  }

  /** So every command that runs to its end keeps them together. */
  lemma WholeCommandsKeepSync(w: World, c: Command)
    requires InSync(w) && AtMostOneLive(w.hedges)
    ensures InSync(RunWhole(w, c))
  {
    if CommandPlan(w, c).Ok? { CutKeepsSyncIff(w, c, |CommandPlan(w, c).value|); }
  }

  /** Where hedge and provision agree, so do the two fallback lists of a deletion. */
  lemma InSyncFallbackAgrees(w: World)
    requires InSync(w) && w.provision.Some?
    ensures FallbackAgrees(w)
  {
  }

  /** The new account is registered before the old one is removed, and stays. */
  lemma RegisteredBeforePair(w: World, p: nat)
    requires CommandPlan(w, PropRotation(p)).Ok?
    ensures var a, previous := Identity(w.props[p]), w.provision.value.epPropAccountId;
            var (create, epId) := Ensure(w.remote, a).value;
            var accounts := ApplyAll(w, create + ([PropEp(p, epId)] + DeleteOld(previous, epId))).remote.accounts;
            epId < |accounts| && accounts[epId] == Some(a)
  {
    var a, previous := Identity(w.props[p]), w.provision.value.epPropAccountId;
    var (create, epId) := Ensure(w.remote, a).value;
    var s1 := ApplyAll(w, create);
    EnsureIsIdempotent(w, a);
    ApplyAppend(w, create, [PropEp(p, epId)] + DeleteOld(previous, epId));
    ApplyAppend(s1, [PropEp(p, epId)], DeleteOld(previous, epId));
    ApplyOne(s1, PropEp(p, epId));
    DeleteOldEffect(Apply(s1, PropEp(p, epId)), previous, epId);
  }

  /** Between the two writes the provision names the new account and the hedge the old one. */
  lemma ApartRotationLeaves(w: World, p: nat, k: nat)
    requires Apart(w, PropRotation(p), k)
    ensures var s, epId := RunCut(w, PropRotation(p), k), NewEp(w, PropRotation(p));
            && s.hedges == w.hedges && w.provision.Some?
            && s.provision == Some(w.provision.value.(epPropAccountId := Some(epId)))
            && epId < |s.remote.accounts| && s.remote.accounts[epId] == Some(Identity(w.props[p]))
  {
    var (create, epId) := Ensure(w.remote, Identity(w.props[p])).value;
    var (y, z) := PairOf(w, PropRotation(p));
    var before := create + ([PropEp(p, epId)] + DeleteOld(w.provision.value.epPropAccountId, epId));
    assert CommandPlan(w, PropRotation(p)).value == before + ([y] + ([z] + [Report]));
    TwoWrites(w, before, y, z, k);
    RegisteredBeforePair(w, p);
  }

  /** A rotation that takes them apart leaves a registered account that only the provision
      names: a deletion that cannot list the accounts would then miss it. */
  lemma ApartRotationBreaksFallback(w: World, p: nat, k: nat)
    requires InSync(w) && Apart(w, PropRotation(p), k)
    requires NewEp(w, PropRotation(p)) != w.hedges[LiveHedge(w.hedges).value].epBrokerAccountId
    ensures var s := RunCut(w, PropRotation(p), k); s.provision.Some? && !InSync(s) && !FallbackAgrees(s)
  {
    InterruptionBreaksSyncIff(w, PropRotation(p), k);
    ApartRotationLeaves(w, p, k);
    var s := RunCut(w, PropRotation(p), k);
    var ids := OptionToIds(s.provision.value.epPropAccountId) + OptionToIds(s.provision.value.epBrokerAccountId);
    assert ids[0] == NewEp(w, PropRotation(p));
  }

  /** However a sync command was interrupted, running it to its end restores the agreement. */
  lemma SyncIsRestored(w: World, c: Command, cuts: seq<nat>)
    requires InSync(w) && AtMostOneLive(w.hedges) && Recoverable(c)
    ensures InSync(RunWhole(Interrupted(w, c, cuts), c))
  {
    InterruptionsLeaveNoTrace(w, c, cuts);
    WholeCommandsKeepSync(w, c);
  }

  // ------------------------------------------------------------------------ worker runs

  /** Until the last stage of a run the user has no live hedge. */
  lemma NoHedgeYet(w: World, p: Provision, stage: Stage, max: nat)
    requires Inv(w, max) && w.provision == Some(p) && StageOf(p.status) == Some(stage) && stage != Finalize
    ensures LiveHedge(w.hedges).None?
  {
  }

  lemma EarlyStageKeepsSync(w: World, p: Provision, stage: Stage, k: nat)
    requires w.provision == Some(p) && StagePlan(w, p, stage).Ok? && stage != Finalize && LiveHedge(w.hedges).None?
    ensures LiveHedge(CutShort(w, StagePlan(w, p, stage).value, k).hedges).None?
  {
    var xs := StageWork(w, p, stage).value.writes;
    StageCut(w, p, stage, k);
    WorkShape(w, p, stage);
    QuietWrites(w, if k < |xs| then xs[..k] else xs);
    QuietWrites(w, xs);
  }

  lemma StageKeepsSync(w: World, p: Provision, stage: Stage, k: nat, max: nat)
    requires max >= 1 && Inv(w, max) && InSync(w) && w.provision == Some(p) && StageOf(p.status) == Some(stage)
    requires StagePlan(w, p, stage).Ok?
    ensures InSync(CutShort(w, StagePlan(w, p, stage).value, k))
  {
    if stage == Finalize {
      StageCut(w, p, stage, k);
      FinalizeKeepsSync(w, p, k);
      FinalizeKeepsSync(w, p, 2);
    } else {
      NoHedgeYet(w, p, stage, max);
      EarlyStageKeepsSync(w, p, stage, k);
    }
  }

  lemma FinalizeKeepsSync(w: World, p: Provision, k: nat)
    requires w.provision == Some(p) && FinalWork(w, p).Ok? && InSync(w)
    ensures var s := CutShort(w, FinalWork(w, p).value.writes, k); InSync(s) && s.provision == Some(p)
  {
    var x := FinalWork(w, p).value.writes[1];
    assert FinalWork(w, p).value.writes == [ArchiveHedges] + [x];
    RegistrationCuts(w, [ArchiveHedges], x, k);
    ApplyOne(w, ArchiveHedges);
  }

  lemma FailureKeepsSync(s: World, p: Provision, stage: Stage, conflict: bool, now: int, max: nat)
    requires InSync(s)
    ensures InSync(HandleFailure(s, p, stage, conflict, now, max).world)
  {
  }

  lemma OneStageKeepsSync(w: World, left: nat, fault: Fault, now: int, max: nat)
    requires max >= 1 && Inv(w, max) && InSync(w) && !Terminal(w)
    ensures InSync(WorldOf(OneStage(w, left, fault, now, max)))
  {
    var p := w.provision.value;
    var stage := StageOf(p.status).value;
    match StagePlan(w, p, stage)
    case Err(f) => FailureKeepsSync(w, p, stage, f == Conflict, now, max);
    case Ok(xs) =>
      StageCut(w, p, stage, left);
      StageKeepsSync(w, p, stage, left, max);
      if |xs| > left && fault.Throws? { FailureKeepsSync(CutShort(w, xs, left), p, stage, fault.conflict, now, max); }
  }

  lemma {:induction false} RunKeepsSync(w: World, left: nat, fault: Fault, now: int, max: nat)
    requires max >= 1 && Inv(w, max) && InSync(w)
    ensures InSync(Process(w, left, fault, now, max).world)
    decreases StagesLeft(StatusOf(w))
  {
    if !Terminal(w) {
      OneStageKeepsInv(w, left, fault, now, max);
      OneStageKeepsSync(w, left, fault, now, max);
      match OneStage(w, left, fault, now, max)
      case Next(t, rest) => RunKeepsSync(t, rest, fault, now, max);
      case Ended(_) =>
    }
  }

  lemma ArchivedIsInSync(w: World, now: int)
    ensures InSync(Apply(w, ArchiveHedges)) && InSync(Apply(Apply(w, ArchiveHedges), ResetProvision(now)))
  {
    assert LiveHedge(Archive(w.hedges)).None?;
  }

  lemma ReprovisionKeepsSync(w: World, now: int, prop: bool, broker: bool, k: nat)
    requires InSync(w)
    ensures InSync(CutShort(w, ReprovisionPlan(w, now, prop, broker), k))
  {
    if w.provision.Some? {
      var p := w.provision.value;
      var clean := Cleanup(p, p.epPropAccountId, prop) + Cleanup(p, p.epBrokerAccountId, broker);
      assert ReprovisionPlan(w, now, prop, broker) == clean + ([ArchiveHedges] + ([ResetProvision(now)] + [Report]));
      TwoWrites(w, clean, ArchiveHedges, ResetProvision(now), k);
      ArchivedIsInSync(ApplyAll(w, clean), now);
    }
  }

  // -------------------------------------------------------------------------- histories

  ghost predicate ApartEvent(w: World, e: Event) {
    e.Commanded? && Apart(w, e.command, e.left)
  }

  lemma EventKeepsSyncIff(w: World, e: Event, max: nat)
    requires max >= 1 && Inv(w, max) && InSync(w)
    ensures InSync(StepEvent(w, e, max)) <==> !ApartEvent(w, e)
  {
    match e
    case Worked(left, fault, now) => RunKeepsSync(w, left, fault, now, max);
    case Commanded(c, left) => CutKeepsSyncIff(w, c, left);
    case Reprovisioned(now, prop, broker, left) => ReprovisionKeepsSync(w, now, prop, broker, left);
    case _ =>
  }

  /** No command stops, in its turn, between the two writes that point at a new account. */
  ghost predicate NeverApart(w: World, events: seq<Event>, max: nat)
    decreases |events|
  {
    events != [] ==> !ApartEvent(w, events[0]) && NeverApart(StepEvent(w, events[0], max), events[1..], max)
  }

  ghost predicate AlwaysInSync(w: World, events: seq<Event>, max: nat)
    decreases |events|
  {
    InSync(w) && (events != [] ==> AlwaysInSync(StepEvent(w, events[0], max), events[1..], max))
  }

  /** Over every history of worker, command, trigger and admin calls, each cut short wherever
      it may be, the live hedge points where the provision does after every event if and
      only if no event is of that one kind. */
  lemma {:induction false} HistoriesKeepSyncIff(w: World, events: seq<Event>, max: nat)
    requires max >= 1 && Inv(w, max) && InSync(w)
    ensures AlwaysInSync(w, events, max) <==> NeverApart(w, events, max)
    ensures NeverApart(w, events, max) ==> InSync(RunEvents(w, events, max))
    decreases |events|
  {
    if events != [] {
      EventKeepsSyncIff(w, events[0], max);
      EventKeepsInv(w, events[0], max);
      if !ApartEvent(w, events[0]) { HistoriesKeepSyncIff(StepEvent(w, events[0], max), events[1..], max); }
    }
  }

  /** A history in which a command that took them apart is repeated, interrupted or not, until
      one attempt finishes, before anything else happens to the user. */
  ghost predicate Tended(w: World, events: seq<Event>, max: nat)
    decreases |events|
  {
    events != [] ==>
      var t := StepEvent(w, events[0], max);
      if ApartEvent(w, events[0]) then Repeated(t, events[0].command, events[1..], max) else Tended(t, events[1..], max)
  }

  ghost predicate Repeated(w: World, c: Command, events: seq<Event>, max: nat)
    decreases |events|
  {
    && events != [] && events[0].Commanded? && events[0].command == c
    && var t := StepEvent(w, events[0], max);
       if CommandPlan(w, c).Ok? && events[0].left >= |CommandPlan(w, c).value| then Tended(t, events[1..], max)
       else Repeated(t, c, events[1..], max)
  }

  /** Such a history ends with hedge and provision together, however often they came apart. */
  lemma {:induction false} TendedHistoriesEndInSync(w: World, events: seq<Event>, max: nat)
    requires max >= 1 && Inv(w, max) && InSync(w) && Tended(w, events, max)
    ensures InSync(RunEvents(w, events, max))
    decreases |events|
  {
    if events != [] {
      var e := events[0];
      EventKeepsSyncIff(w, e, max);
      EventKeepsInv(w, e, max);
      if ApartEvent(w, e) {
        CommandRecovers(w, e.command, e.left);
        RepeatedEndsInSync(w, StepEvent(w, e, max), e.command, events[1..], max);
      } else {
        TendedHistoriesEndInSync(StepEvent(w, e, max), events[1..], max);
      }
    }
  }

  /** The same while the command is being repeated; it began in w0. */
  lemma {:induction false} RepeatedEndsInSync(w0: World, w: World, c: Command, events: seq<Event>, max: nat)
    requires max >= 1 && Inv(w, max) && Recoverable(c) && Repeated(w, c, events, max)
    requires InSync(w0) && AtMostOneLive(w0.hedges)
    requires CommandPlan(w, c).Ok? && RunWhole(w, c) == RunWhole(w0, c)
    ensures InSync(RunEvents(w, events, max))
    decreases |events|
  {
    var left, t := events[0].left, StepEvent(w, events[0], max);
    EventKeepsInv(w, events[0], max);
    if left >= |CommandPlan(w, c).value| {
      WholeCommandsKeepSync(w0, c);
      TendedHistoriesEndInSync(t, events[1..], max);
    } else {
      CommandRecovers(w, c, left);
      RepeatedEndsInSync(w0, t, c, events[1..], max);
    }
  }

  /** After a history of the first kind even a deletion that cannot list the accounts
      recovers from every interruption. */
  lemma DeletionRecoversAfterSync(w: World, events: seq<Event>, max: nat)
    requires max >= 1 && Inv(w, max) && InSync(w) && NeverApart(w, events, max)
    requires HasKey(RunEvents(w, events, max))
    ensures AlwaysRecovers(RunEvents(w, events, max), DeleteService(false))
  {
    var t := RunEvents(w, events, max);
    HistoriesKeepSyncIff(w, events, max);
    EventsKeepInv(w, events, max);
    InSyncFallbackAgrees(t);
    UnlistedDeletionRecoversIff(t);
  }
}
