/** The life of one queued service command: attempts that finish, throw or die with the
    worker, the retry bookkeeping, and the requeueing of commands left running. */
module ServiceCommands {
  import opened Common
  import opened ServiceWorld
  import opened ServiceControl
  import opened ServiceRecovery

  datatype RowStatus = Pending | Running | Completed | Failed

  datatype CommandRow = CommandRow(status: RowStatus, attemptCount: nat, nextRetryAt: Option<int>)

  /** How an attempt ends: `after` counts the writes made until then. */
  datatype Ending = Finishes | Throws(after: nat, conflict: bool) | Dies(after: nat)

  /** `listed` is whether the attempt can list the accounts on the platform; only a deletion
      does otherwise when it cannot. */
  datatype Event = Attempt(ending: Ending, listed: bool, now: int) | Requeue(now: int)

  function OnAttempt(c: Command, listed: bool): Command {
    if c.DeleteService? then DeleteService(listed) else c
  }

  datatype State = State(world: World, row: CommandRow)

  function AfterFailure(row: CommandRow, conflict: bool, now: int, max: nat): CommandRow {
    var attempts := row.attemptCount + 1;
    if conflict || attempts >= max then CommandRow(Failed, attempts, None)
    else CommandRow(Pending, attempts, Some(now + Backoff(attempts)))
  }

  function AttemptOnce(s: State, c: Command, ending: Ending, now: int, max: nat): State {
    if s.row.status != Pending then s
    else
      match CommandPlan(s.world, c)
      case Err(f) =>
        if ending.Dies? then s.(row := s.row.(status := Running))
        else s.(row := AfterFailure(s.row, f == Conflict, now, max))
      case Ok(xs) =>
        match ending
        case Finishes => State(ApplyAll(s.world, xs), s.row.(status := Completed))
        case Throws(k, conflict) => State(CutShort(s.world, xs, k), AfterFailure(s.row, conflict, now, max))
        case Dies(k) => State(CutShort(s.world, xs, k), s.row.(status := Running))
  }

  function Step(s: State, c: Command, e: Event, max: nat): State {
    match e
    case Attempt(ending, listed, now) => AttemptOnce(s, OnAttempt(c, listed), ending, now, max)
    case Requeue(now) =>
      if s.row.status == Running then s.(row := s.row.(status := Pending, nextRetryAt := Some(now))) else s
  }

  function Run(s: State, c: Command, events: seq<Event>, max: nat): State
    decreases |events|
  {
    if events == [] then s else Run(Step(s, c, events[0], max), c, events[1..], max)
  }

  /** The command's effect so far amounts to interrupted runs from w0, or to one whole run. */
  ghost predicate OnCourse(w0: World, s: State, c: Command) {
    && (s.row.status == Completed ==> s.world == RunWhole(w0, c))
    && (s.row.status != Completed ==>
          && RunWhole(s.world, c) == RunWhole(w0, c)
          && CommandPlan(s.world, c).Ok? == CommandPlan(w0, c).Ok?)
    && (NoAlias(w0.remote) ==> NoAlias(s.world.remote))
  }

  lemma StepStaysOnCourse(w0: World, s: State, c: Command, e: Event, max: nat)
    requires Recoverable(c) && OnCourse(w0, s, c)
    ensures OnCourse(w0, Step(s, c, e, max), c)
  {
    if e.Attempt? && s.row.status == Pending && CommandPlan(s.world, c).Ok? {
      assert OnAttempt(c, e.listed) == c;
      AttemptStaysOnCourse(w0, s, c, e.ending, e.now, max);
    }
  }

  lemma AttemptStaysOnCourse(w0: World, s: State, c: Command, ending: Ending, now: int, max: nat)
    requires Recoverable(c) && OnCourse(w0, s, c) && s.row.status == Pending && CommandPlan(s.world, c).Ok?
    ensures OnCourse(w0, AttemptOnce(s, c, ending, now, max), c)
  {
    match ending
    case Finishes => CommandRecovers(s.world, c, |CommandPlan(s.world, c).value|);
    case Throws(k, _) => CommandRecovers(s.world, c, k);
    case Dies(k) => CommandRecovers(s.world, c, k);
  }

  /** A sync command that ends COMPLETED has, however many attempts threw or died on the
      way, done exactly what one uninterrupted run would have done, and nothing was ever
      registered twice. */
  lemma {:induction false} CompletedIsOneRun(w0: World, s: State, c: Command, events: seq<Event>, max: nat)
    requires Recoverable(c) && OnCourse(w0, s, c)
    ensures var t := Run(s, c, events, max);
            && (t.row.status == Completed ==> t.world == RunWhole(w0, c))
            && (NoAlias(w0.remote) ==> NoAlias(t.world.remote))
            && OnCourse(w0, t, c)
    decreases |events|
  {
    if events != [] {
      StepStaysOnCourse(w0, s, c, events[0], max);
      CompletedIsOneRun(w0, Step(s, c, events[0], max), c, events[1..], max);
    }
  }

  /** A row that is COMPLETED or FAILED is never touched again. */
  lemma {:induction false} FinalRowsStay(s: State, c: Command, events: seq<Event>, max: nat)
    requires s.row.status == Completed || s.row.status == Failed
    ensures Run(s, c, events, max) == s
    decreases |events|
  {
    if events != [] { FinalRowsStay(Step(s, c, events[0], max), c, events[1..], max); }
  }

  /** A command left RUNNING by a crash is due again once it is requeued, and only such a one is. */
  lemma RequeuedAndFinished(s: State, c: Command, now: int, later: int, max: nat)
    requires Recoverable(c) && CommandPlan(s.world, c).Ok?
    requires s.row.status == Pending || s.row.status == Running
    ensures var queued, t := Run(s, c, [Requeue(now)], max),
                             Run(s, c, [Requeue(now), Attempt(Finishes, true, later)], max);
            && queued.world == s.world
            && queued.row == (if s.row.status == Running then CommandRow(Pending, s.row.attemptCount, Some(now))
                              else s.row)
            && t == State(RunWhole(s.world, c), queued.row.(status := Completed))
  {
    var e := Attempt(Finishes, true, later);
    assert [Requeue(now)][1..] == [] && [Requeue(now), e][1..] == [e] && [e][1..] == [];
    var queued := Step(s, c, Requeue(now), max);
    assert Run(queued, c, [e], max) == Run(Step(queued, c, e, max), c, [], max);
    assert OnAttempt(c, true) == c;
  }

  /** These events complete the row, with the effect of one uninterrupted run from w0. */
  ghost predicate Completes(w0: World, s: State, c: Command, events: seq<Event>, max: nat) {
    var t := Run(s, c, events, max);
    t.row.status == Completed && t.world == RunWhole(w0, c)
  }

  lemma UnfinishedCanFinish(w0: World, s: State, c: Command, max: nat) returns (events: seq<Event>)
    requires Recoverable(c) && OnCourse(w0, s, c) && CommandPlan(w0, c).Ok? && s.row.status != Failed
    ensures Completes(w0, s, c, events, max)
  {
    if s.row.status == Completed {
      events := [];
    } else {
      events := [Requeue(0), Attempt(Finishes, true, 0)];
      RequeuedAndFinished(s, c, 0, 0, max);
    }
  }

  /** Whatever attempts threw or died before: a sync command that could be carried out when it was
      queued can still be completed, as one uninterrupted run, if and only if it is not FAILED. */
  lemma CanStillCompleteIff(w0: World, s: State, c: Command, max: nat)
    requires Recoverable(c) && OnCourse(w0, s, c) && CommandPlan(w0, c).Ok?
    ensures (exists events :: Completes(w0, s, c, events, max)) <==> s.row.status != Failed
  {
    if s.row.status == Failed {
      forall events
        ensures !Completes(w0, s, c, events, max)
      {
        FinalRowsStay(s, c, events, max);
      }
    } else {
      var events := UnfinishedCanFinish(w0, s, c, max);
    }
  }

  // -------------------------------------------------------------------- deletion rows

  /** A deletion begun in w0: under way, and closed once the row is completed. */
  ghost predicate DeletionOnCourse(w0: World, s: State, gone: seq<nat>)
    requires w0.provision.Some?
  {
    if s.row.status == Completed then s.world == Deleted(w0, gone) else UnderWay(w0, s.world, gone)
  }

  /** Whether the attempt that completes the row could list the accounts. */
  predicate CompletedByListing(s: State, c: Command, events: seq<Event>, max: nat)
    decreases |events|
  {
    events != [] &&
      var t := Step(s, c, events[0], max);
      if s.row.status != Completed && t.row.status == Completed then events[0].Attempt? && events[0].listed
      else CompletedByListing(t, c, events[1..], max)
  }

  lemma DeletionStep(w0: World, s: State, gone: seq<nat>, listed: bool, e: Event, max: nat) returns (more: seq<nat>)
    requires HasKey(w0) && AtMostOneLive(w0.hedges) && DeletionOnCourse(w0, s, gone)
    ensures var t := Step(s, DeleteService(listed), e, max);
            && DeletionOnCourse(w0, t, more)
            && (s.row.status != Completed && t.row.status == Completed && e.Attempt? && e.listed ==>
                  t.world == RunWhole(w0, DeleteService(true)))
  {
    more := gone;
    if e.Attempt? && s.row.status == Pending {
      var k := match e.ending case Finishes => 0 case Throws(k, _) => k case Dies(k) => k;
      if e.ending.Finishes? {
        WholeAttemptCloses(w0, s.world, gone, e.listed);
        more := gone + DoomedIds(s.world, e.listed);
      } else {
        var next := AttemptStaysUnderWay(w0, s.world, gone, e.listed, k);
        more := gone + next;
      }
    }
  }

  /** A DELETE row that ends COMPLETED has closed the client's records for good, and if its last
      attempt could list the accounts it has done exactly what one uninterrupted deletion
      would have done, whatever the earlier attempts could list and wherever they stopped. */
  lemma {:induction false} CompletedDeletionIsOneRun(w0: World, s: State, gone: seq<nat>, listed: bool,
                                                     events: seq<Event>, max: nat)
    returns (more: seq<nat>)
    requires HasKey(w0) && AtMostOneLive(w0.hedges) && DeletionOnCourse(w0, s, gone)
    ensures var t := Run(s, DeleteService(listed), events, max);
            && DeletionOnCourse(w0, t, more)
            && (CompletedByListing(s, DeleteService(listed), events, max) ==>
                  t.world == RunWhole(w0, DeleteService(true)))
    decreases |events|
  {
    if events == [] {
      more := gone;
    } else {
      var t := Step(s, DeleteService(listed), events[0], max);
      var next := DeletionStep(w0, s, gone, listed, events[0], max);
      more := CompletedDeletionIsOneRun(w0, t, next, listed, events[1..], max);
      if t.row.status == Completed { FinalRowsStay(t, DeleteService(listed), events[1..], max); }
    }
  }

  // -------------------------------------------------------------------- the retry bound

  /** Whether this event is an attempt that reaches the failure handler. */
  predicate Fails(s: State, c: Command, e: Event) {
    e.Attempt? && s.row.status == Pending && !e.ending.Dies?
    && (CommandPlan(s.world, OnAttempt(c, e.listed)).Err? || e.ending.Throws?)
  }

  function Failures(s: State, c: Command, events: seq<Event>, max: nat): nat
    decreases |events|
  {
    if events == [] then 0
    else (if Fails(s, c, events[0]) then 1 else 0) + Failures(Step(s, c, events[0], max), c, events[1..], max)
  }

  lemma OneFailureIsCounted(s: State, c: Command, e: Event, max: nat)
    requires max >= 1
    requires s.row.status == Pending || s.row.status == Running ==> s.row.attemptCount < max
    requires s.row.attemptCount <= max
    ensures var row := Step(s, c, e, max).row;
            && row.attemptCount == s.row.attemptCount + (if Fails(s, c, e) then 1 else 0)
            && row.attemptCount <= max
            && (row.status == Pending || row.status == Running ==> row.attemptCount < max)
  {
  }

  /** A command fails at most `max` times, and every failure is counted; attempts that die
      with the worker are not counted, so they alone can go on for ever. */
  lemma {:induction false} FailuresAreCounted(s: State, c: Command, events: seq<Event>, max: nat)
    requires max >= 1
    requires s.row.status == Pending || s.row.status == Running ==> s.row.attemptCount < max
    requires s.row.attemptCount <= max
    ensures var t := Run(s, c, events, max);
            && t.row.attemptCount == s.row.attemptCount + Failures(s, c, events, max)
            && t.row.attemptCount <= max
            && (t.row.status == Pending || t.row.status == Running ==> t.row.attemptCount < max)
    decreases |events|
  {
    if events != [] {
      OneFailureIsCounted(s, c, events[0], max);
      FailuresAreCounted(Step(s, c, events[0], max), c, events[1..], max);
    }
  }

  // ------------------------------------------------------------------------ the worker

  /** The executors step by step, each proved to make exactly the writes of its plan, and the
      attempt that wraps them. */
  class CommandWorker {
    const store: Store
    var row: CommandRow

    constructor (store: Store, row: CommandRow)
      ensures this.store == store && this.row == row
    {
      this.store, this.row := store, row;
    }

    method ExecutePropRotation(newPropId: nat) returns (ended: Ended)
      modifies store
      ensures store.Executed(ended, old(store.world), RotationPlan(old(store.world), newPropId), old(store.left))
    {
      if !HasKey(store.world) || newPropId >= |store.world.props| { return Refused(OtherError); }
      var previous, hedge := store.world.provision.value.epPropAccountId, LiveHedge(store.world.hedges);
      ghost var plan := RotationPlan(store.world, newPropId);
      ghost var (goal, whole) := Aim(plan);
      ghost var epId0 := if plan.Ok? then Ensure(store.world.remote, Identity(store.world.props[newPropId])).value.1
                         else 0;
      var account := store.EnsureEpAccount(Identity(store.world.props[newPropId]),
                                           RotationTail(newPropId, epId0, previous, hedge), goal, whole);
      match account {
        case CutOff => return Cut;
        case NotRegistered(f) => return Refused(f);
        case RegisteredAs(epId) =>
          var ok := FinishRotation(newPropId, epId, previous, hedge, goal, whole);
          ended := if ok then Done else Cut;
      }
    }

    /** Where a plan will get with the writes that are left. */
    ghost function Aim(plan: Result<seq<Write>, Failure>): (World, bool)
      reads store
    {
      match plan
      case Err(_) => (store.world, false)
      case Ok(xs) => (CutShort(store.world, xs, store.left), |xs| <= store.left)
    }

    method FinishRotation(newPropId: nat, epId: nat, previous: Option<nat>, hedge: Option<nat>, ghost goal: World,
                          ghost whole: bool)
      returns (ok: bool)
      requires store.Heading(RotationTail(newPropId, epId, previous, hedge), goal, whole)
      modifies store
      ensures store.world == goal && ok == whole
      ensures store.left == if ok then old(store.left) - |RotationTail(newPropId, epId, previous, hedge)| else 0
    {
      ghost var r4 := WriteHedge(hedge, (h: nat) => HedgeProp(h, newPropId, epId)) + [Report];
      ghost var r3 := [ProvisionProp(epId)] + r4;
      ok := store.Do(PropEp(newPropId, epId), DeleteOld(previous, epId) + r3, goal, whole);
      if !ok { return; }
      ok := RemoveOld(previous, epId, r3, goal, whole);
      if !ok { return; }
      ok := store.Do(ProvisionProp(epId), r4, goal, whole);
      if !ok { return; }
      if hedge.Some? {
        ok := store.Do(HedgeProp(hedge.value, newPropId, epId), [Report], goal, whole);
        if !ok { return; }
      } else {
        assert r4 == [Report];
      }
      ok := ReportDone(goal, whole);
    }

    /** Removes a superseded account; one that is gone already is no error. */
    method RemoveOld(previous: Option<nat>, epId: nat, ghost more: seq<Write>, ghost goal: World, ghost whole: bool)
      returns (ok: bool)
      requires store.Heading(DeleteOld(previous, epId) + more, goal, whole)
      modifies store
      ensures ok ==> store.Heading(more, goal, whole)
      ensures ok ==> old(store.left) == store.left + |DeleteOld(previous, epId)|
      ensures !ok ==> store.world == goal && store.left == 0 && !whole
      ensures store.world == old(store.world).(remote := store.world.remote)
    {
      ok := true;
      if previous.Some? && previous.value != epId {
        ok := store.Do(EpDelete(previous.value), more, goal, whole);
      } else {
        assert [] + more == more;
      }
    }

    /** The audit event and the notifications at the end. */
    method ReportDone(ghost goal: World, ghost whole: bool) returns (ok: bool)
      requires store.Heading([Report], goal, whole)
      modifies store
      ensures store.world == goal && ok == whole
      ensures store.left == if ok then old(store.left) - 1 else 0
    {
      assert [Report] + [] == [Report];
      ok := store.Do(Report, [], goal, whole);
    }

    method ExecuteBrokerReplace(newBrokerId: nat, oldBrokerId: Option<nat>) returns (ended: Ended)
      modifies store
      ensures store.Executed(ended, old(store.world), ReplacePlan(old(store.world), newBrokerId, oldBrokerId),
                             old(store.left))
    {
      if !HasKey(store.world) || newBrokerId >= |store.world.brokers| { return Refused(OtherError); }
      var hedge := LiveHedge(store.world.hedges);
      ghost var plan := ReplacePlan(store.world, newBrokerId, oldBrokerId);
      ghost var (goal, whole) := Aim(plan);
      ghost var epId0 := if plan.Ok? then Ensure(store.world.remote, Identity(store.world.brokers[newBrokerId])).value.1
                         else 0;
      ghost var previous := ReplacedEp(store.world, newBrokerId, oldBrokerId, epId0);
      var account := store.EnsureEpAccount(Identity(store.world.brokers[newBrokerId]),
                                           ReplaceTail(newBrokerId, epId0, previous, hedge), goal, whole);
      match account {
        case CutOff => return Cut;
        case NotRegistered(f) => return Refused(f);
        case RegisteredAs(epId) =>
          var ok := FinishReplace(newBrokerId, oldBrokerId, epId, hedge, goal, whole);
          ended := if ok then Done else Cut;
      }
    }

    method FinishReplace(newBrokerId: nat, oldBrokerId: Option<nat>, epId: nat, hedge: Option<nat>, ghost goal: World,
                         ghost whole: bool)
      returns (ok: bool)
      requires hedge == LiveHedge(store.world.hedges)
      requires store.Heading(ReplaceTail(newBrokerId, epId, ReplacedEp(store.world, newBrokerId, oldBrokerId, epId),
                                         hedge), goal, whole)
      modifies store
      ensures store.world == goal && ok == whole
      ensures store.left == if ok then old(store.left)
                - |ReplaceTail(newBrokerId, epId, ReplacedEp(old(store.world), newBrokerId, oldBrokerId, epId), hedge)|
                else 0
    {
      ghost var r4 := WriteHedge(hedge, (h: nat) => HedgeBroker(h, newBrokerId, epId)) + [Report];
      ghost var r3 := [ProvisionBroker(epId)] + r4;
      ghost var previous0 := ReplacedEp(store.world, newBrokerId, oldBrokerId, epId);
      ok := store.Do(BrokerEp(newBrokerId, epId), DeleteOld(previous0, epId) + r3, goal, whole);
      if !ok { return; }
      var previous := FindReplaced(hedge, oldBrokerId, epId);
      assert previous == previous0;
      ok := RemoveOld(previous, epId, r3, goal, whole);
      if !ok { return; }
      ok := store.Do(ProvisionBroker(epId), r4, goal, whole);
      if !ok { return; }
      if hedge.Some? {
        ok := store.Do(HedgeBroker(hedge.value, newBrokerId, epId), [Report], goal, whole);
        if !ok { return; }
      } else {
        assert r4 == [Report];
      }
      ok := ReportDone(goal, whole);
    }

    /** The account of the replaced broker, or else the one the hedge points at. */
    method FindReplaced(hedge: Option<nat>, oldBrokerId: Option<nat>, epId: nat) returns (previous: Option<nat>)
      requires hedge == LiveHedge(store.world.hedges)
      ensures forall w: World, id: nat {:trigger ReplacedEp(w, id, oldBrokerId, epId)} ::
                SetEp(w.brokers, id, epId) == store.world.brokers && w.hedges == store.world.hedges ==>
                previous == ReplacedEp(w, id, oldBrokerId, epId)
    {
      previous := None;
      if oldBrokerId.Some? && oldBrokerId.value < |store.world.brokers| {
        previous := store.world.brokers[oldBrokerId.value].epAccountId;
      }
      if previous.None? && hedge.Some? && store.world.hedges[hedge.value].epBrokerAccountId != epId {
        previous := Some(store.world.hedges[hedge.value].epBrokerAccountId);
      }
    }

    method ExecuteBrokerAdd(brokerId: nat) returns (ended: Ended)
      modifies store
      ensures store.Executed(ended, old(store.world), AddPlan(old(store.world), brokerId), old(store.left))
    {
      if !HasKey(store.world) || brokerId >= |store.world.brokers| { return Refused(OtherError); }
      ghost var w0, total := store.world, store.left;
      ghost var registered := Ensure(w0.remote, Identity(w0.brokers[brokerId]));
      ghost var r1 := [BrokerEp(brokerId, if registered.Ok? then registered.value.1 else 0)] + [Report];
      ghost var xs := if registered.Ok? then registered.value.0 + r1 else [];
      ghost var goal, whole := CutShort(w0, xs, total), |xs| <= total;
      assert registered.Ok? ==> AddPlan(w0, brokerId).value == xs;
      var account := store.EnsureEpAccount(Identity(store.world.brokers[brokerId]), r1, goal, whole);
      match account {
        case CutOff => return Cut;
        case NotRegistered(f) => return Refused(f);
        case RegisteredAs(epId) =>
          var ok := store.Do(BrokerEp(brokerId, epId), [Report], goal, whole);
          if !ok { return Cut; }
          ok := ReportDone(goal, whole);
          ended := if ok then Done else Cut;
      }
    }

    method ExecuteSetHedgeBroker(brokerId: nat) returns (ended: Ended)
      modifies store
      ensures store.Executed(ended, old(store.world), SetHedgePlan(old(store.world), brokerId), old(store.left))
    {
      var hedge := LiveHedge(store.world.hedges);
      if !HasKey(store.world) || hedge.None? || brokerId >= |store.world.brokers|
         || !store.world.brokers[brokerId].active
         || store.world.brokers[brokerId].epAccountId.None? { return Refused(OtherError); }
      var epId := store.world.brokers[brokerId].epAccountId.value;
      ghost var r1 := [ProvisionBroker(epId)] + [Report];
      ghost var xs := [HedgeBroker(hedge.value, brokerId, epId)] + r1;
      ghost var goal, whole := CutShort(store.world, xs, store.left), |xs| <= store.left;
      assert SetHedgePlan(store.world, brokerId).value == xs;
      var ok := store.Do(HedgeBroker(hedge.value, brokerId, epId), r1, goal, whole);
      if !ok { return Cut; }
      ok := store.Do(ProvisionBroker(epId), [Report], goal, whole);
      if !ok { return Cut; }
      ok := ReportDone(goal, whole);
      ended := if ok then Done else Cut;
    }

    /** Removes the accounts one after the other. */
    method DeleteAccounts(ids: seq<nat>, ghost more: seq<Write>, ghost goal: World, ghost whole: bool)
      returns (ok: bool)
      requires store.Heading(Deletes(ids) + more, goal, whole)
      modifies store
      ensures ok ==> store.Heading(more, goal, whole) && old(store.left) == store.left + |ids|
      ensures !ok ==> store.world == goal && store.left == 0 && !whole
    {
      var i := 0;
      ok := true;
      while i < |ids|
        invariant 0 <= i <= |ids| && old(store.left) == store.left + i
        invariant store.Heading(Deletes(ids[i..]) + more, goal, whole)
      {
        assert Deletes(ids[i..]) + more == [EpDelete(ids[i])] + (Deletes(ids[i + 1..]) + more);
        ok := store.Do(EpDelete(ids[i]), Deletes(ids[i + 1..]) + more, goal, whole);
        if !ok { return; }
        i := i + 1;
      }
      assert Deletes(ids[i..]) + more == more;
    }

    method ExecuteDelete(listed: bool) returns (ended: Ended)
      modifies store
      ensures store.Executed(ended, old(store.world), DeletePlan(old(store.world), listed), old(store.left))
    {
      if !HasKey(store.world) { return Refused(OtherError); }
      var ids, hedge := DoomedIds(store.world, listed), LiveHedge(store.world.hedges);
      ghost var r4 := [Decommission] + [Report];
      ghost var r3 := WriteHedge(hedge, (h: nat) => SetHedgeStatus(h, Archived)) + r4;
      ghost var r2 := [ClearPropEps] + r3;
      ghost var r1 := [ClearBrokerEps] + r2;
      ghost var xs := Deletes(ids) + r1;
      ghost var goal, whole := CutShort(store.world, xs, store.left), |xs| <= store.left;
      assert r1 == DeleteTail(hedge);
      var ok := DeleteAccounts(ids, r1, goal, whole);
      if !ok { return Cut; }
      ok := store.Do(ClearBrokerEps, r2, goal, whole);
      if !ok { return Cut; }
      ok := store.Do(ClearPropEps, r3, goal, whole);
      if !ok { return Cut; }
      if hedge.Some? {
        ok := store.Do(SetHedgeStatus(hedge.value, Archived), r4, goal, whole);
        if !ok { return Cut; }
      } else {
        assert r3 == r4;
      }
      ok := store.Do(Decommission, [Report], goal, whole);
      if !ok { return Cut; }
      ok := ReportDone(goal, whole);
      ended := if ok then Done else Cut;
    }

    method ExecuteStart() returns (ended: Ended)
      modifies store
      ensures store.Executed(ended, old(store.world), CommandPlan(old(store.world), Start), old(store.left))
    {
      if !HasKey(store.world) || LiveHedge(store.world.hedges).None? { return Refused(OtherError); }
      ended := SetLiveHedge(Active);
    }

    method ExecuteStop(entitled: bool) returns (ended: Ended)
      modifies store
      ensures store.Executed(ended, old(store.world), CommandPlan(old(store.world), Stop(entitled)), old(store.left))
    {
      if entitled {
        var ok := ReportDone(CutShort(store.world, [Report], store.left), |[Report]| <= store.left);
        return if ok then Done else Cut;
      }
      if !HasKey(store.world) || LiveHedge(store.world.hedges).None? { return Refused(OtherError); }
      ended := SetLiveHedge(Paused);
    }

    method SetLiveHedge(to: HedgeStatus) returns (ended: Ended)
      requires LiveHedge(store.world.hedges).Some?
      modifies store
      ensures store.Executed(ended, old(store.world),
                             Ok([SetHedgeStatus(LiveHedge(old(store.world).hedges).value, to), Report]),
                             old(store.left))
    {
      var h := LiveHedge(store.world.hedges).value;
      ghost var xs := [SetHedgeStatus(h, to)] + [Report];
      ghost var goal, whole := CutShort(store.world, xs, store.left), |xs| <= store.left;
      assert xs == [SetHedgeStatus(h, to), Report];
      var ok := store.Do(SetHedgeStatus(h, to), [Report], goal, whole);
      if !ok { return Cut; }
      ok := ReportDone(goal, whole);
      ended := if ok then Done else Cut;
    }

    /** One attempt at the command. An interruption is a crash if `dies`, or else an error
        that reaches the failure handler. */
    method ProcessServiceCommand(c: Command, dies: bool, conflict: bool, now: int, max: nat)
      modifies this, store
      ensures var plan := CommandPlan(old(store.world), c);
              var k := old(store.left);
              var ending := if plan.Ok? && |plan.value| <= k then Finishes
                            else if plan.Ok? && dies then Dies(k) else Throws(k, conflict);
              State(store.world, row) ==
              AttemptOnce(State(old(store.world), old(row)), c, ending, now, max)
      ensures old(row).status != Pending ==> row == old(row) && store.world == old(store.world)
      ensures old(row).status == Pending ==>
                var plan, k := CommandPlan(old(store.world), c), old(store.left);
                && (row.status == Completed <==> plan.Ok? && |plan.value| <= k)
                && (row.status == Running <==> plan.Ok? && |plan.value| > k && dies)
                && (row.status == Failed || row.status == Pending ==>
                      && row.attemptCount == old(row).attemptCount + 1
                      && (row.status == Failed <==>
                            row.attemptCount >= max || (if plan.Err? then plan.error == Conflict else conflict)))
                && (row.status == Completed ==> store.world == RunWhole(old(store.world), c))
                && (plan.Err? ==> store.world == old(store.world))
    {
      if row.status != Pending { return; }
      row := row.(status := Running);
      var ended := Execute(c);
      match ended {
        case Done => row := row.(status := Completed);
        case Refused(f) => HandleCommandFailure(f == Conflict, now, max);
        case Cut => if !dies { HandleCommandFailure(conflict, now, max); }
      }
    }

    /** The switch over the command types. */
    method Execute(c: Command) returns (ended: Ended)
      modifies store
      ensures store.Executed(ended, old(store.world), CommandPlan(old(store.world), c), old(store.left))
    {
      match c {
        case Start => ended := ExecuteStart();
        case Stop(entitled) => ended := ExecuteStop(entitled);
        case DeleteService(listed) => ended := ExecuteDelete(listed);
        case PropRotation(p) => ended := ExecutePropRotation(p);
        case BrokerReplace(b, replaced) => ended := ExecuteBrokerReplace(b, replaced);
        case BrokerAdd(b) => ended := ExecuteBrokerAdd(b);
        case SetHedgeBroker(b) => ended := ExecuteSetHedgeBroker(b);
      }
    }

    method HandleCommandFailure(conflict: bool, now: int, max: nat)
      modifies this
      ensures row == AfterFailure(old(row), conflict, now, max)
      ensures var n := old(row).attemptCount + 1;
              row == if conflict || n >= max then CommandRow(Failed, n, None)
                     else CommandRow(Pending, n, Some(now + BACKOFF_SECONDS[if n <= 5 then n - 1 else 4]))
    {
      var attempts := row.attemptCount + 1;
      if conflict || attempts >= max {
        row := CommandRow(Failed, attempts, None);
      } else {
        row := CommandRow(Pending, attempts, Some(now + Backoff(attempts)));
      }
    }
  }
}
