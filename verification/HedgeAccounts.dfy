/** Whether the accounts the live hedge trades on are registered on the platform: what can
    take one away from under it, event by event, and nothing else does. */
module HedgeAccounts {
  import opened Common
  import opened ServiceWorld
  import opened ServiceControl
  import opened ServiceRecovery
  import opened Provisioning
  import opened ProvisioningInvariant
  import opened ProvisioningRecovery
  import opened HedgeSync

  predicate Listed(accounts: seq<Option<EpAccount>>, id: nat) {
    id < |accounts| && accounts[id].Some?
  }

  predicate BothListed(accounts: seq<Option<EpAccount>>, prop: nat, broker: nat) {
    Listed(accounts, prop) && Listed(accounts, broker)
  }

  /** The live hedge, if any, names two registered accounts. */
  predicate Anchored(w: World) {
    match LiveHedge(w.hedges)
    case None => true
    case Some(h) => BothListed(w.remote.accounts, w.hedges[h].epPropAccountId, w.hedges[h].epBrokerAccountId)
  }

  /** One of these accounts is one of the live hedge's. */
  predicate Hits(w: World, ids: seq<nat>)
    requires LiveHedge(w.hedges).Some?
  {
    var hedge := w.hedges[LiveHedge(w.hedges).value];
    hedge.epPropAccountId in ids || hedge.epBrokerAccountId in ids
  }

  lemma AnchoredIsRead(w: World, s: World)
    requires s.hedges == w.hedges && s.remote.accounts == w.remote.accounts
    ensures Anchored(s) == Anchored(w)
  {
  }

  /** Removing accounts unanchors the hedge exactly when one of them is its own. */
  lemma RemovalUnanchorsIff(w: World, s: World, ids: seq<nat>)
    requires Anchored(w) && LiveHedge(w.hedges).Some?
    requires s.hedges == w.hedges && s.remote.accounts == Removed(w.remote.accounts, ids)
    ensures Anchored(s) <==> !Hits(w, ids)
  {
  }

  // --------------------------------------------------- rotation, replacement, selection

  lemma {:induction false} NoDeletesKeepListed(w: World, xs: seq<Write>, id: nat)
    requires forall i :: 0 <= i < |xs| ==> !xs[i].EpDelete?
    ensures Listed(w.remote.accounts, id) ==> Listed(ApplyAll(w, xs).remote.accounts, id)
    decreases |xs|
  {
    if xs != [] { NoDeletesKeepListed(Apply(w, xs[0]), xs[1..], id); }
  }

  /** Registering, storing the id, and removing the previous account. */
  function Moving(create: seq<Write>, store: Write, previous: Option<nat>, epId: nat): seq<Write> {
    create + ([store] + DeleteOld(previous, epId))
  }

  predicate Removes(previous: Option<nat>, epId: nat, id: nat) {
    previous == Some(id) && id != epId
  }

  lemma RegisteringLists(w: World, a: EpAccount, id: nat)
    requires Ensure(w.remote, a).Ok?
    ensures var (create, epId) := Ensure(w.remote, a).value;
            Listed(ApplyAll(w, create).remote.accounts, id) <==> id == epId || Listed(w.remote.accounts, id)
  {
    if FindAccount(w.remote.accounts, a).None? { ApplyOne(w, EpCreate(a)); }
  }

  lemma RemovingUnlists(accounts: seq<Option<EpAccount>>, previous: Option<nat>, epId: nat, id: nat)
    ensures Listed(WithoutOld(accounts, previous, epId), id) <==> Listed(accounts, id) && !Removes(previous, epId, id)
  {
  }

  lemma MovingRuns(w: World, create: seq<Write>, store: Write, previous: Option<nat>, epId: nat)
    requires store.PropEp? || store.BrokerEp?
    ensures ApplyAll(w, Moving(create, store, previous, epId)).remote.accounts
            == WithoutOld(ApplyAll(w, create).remote.accounts, previous, epId)
  {
    var s1 := ApplyAll(w, create);
    ApplyAppend(w, create, [store] + DeleteOld(previous, epId));
    ApplyAppend(s1, [store], DeleteOld(previous, epId));
    ApplyOne(s1, store);
    StoringKeepsAccounts(s1, store);
    DeleteOldEffect(Apply(s1, store), previous, epId);
  }

  lemma StoringKeepsAccounts(w: World, store: Write)
    requires store.PropEp? || store.BrokerEp?
    ensures Apply(w, store).remote == w.remote
  {
  }

  /** The new account is registered, the previous one is not, and no other is touched. */
  lemma MovingEffect(w: World, a: EpAccount, store: Write, previous: Option<nat>, id: nat)
    requires Ensure(w.remote, a).Ok? && (store.PropEp? || store.BrokerEp?)
    ensures var (create, epId) := Ensure(w.remote, a).value;
            Listed(ApplyAll(w, Moving(create, store, previous, epId)).remote.accounts, id) <==>
            (id == epId || Listed(w.remote.accounts, id)) && !Removes(previous, epId, id)
  {
    var (create, epId) := Ensure(w.remote, a).value;
    MovingRuns(w, create, store, previous, epId);
    RegisteringLists(w, a, id);
    RemovingUnlists(ApplyAll(w, create).remote.accounts, previous, epId, id);
  }

  /** Cut before the removal it has removed nothing. */
  lemma MovingCut(w: World, a: EpAccount, store: Write, previous: Option<nat>, k: nat, id: nat)
    requires Ensure(w.remote, a).Ok? && (store.PropEp? || store.BrokerEp?)
    requires var (create, epId) := Ensure(w.remote, a).value; k < |Moving(create, store, previous, epId)|
    requires Listed(w.remote.accounts, id)
    ensures var (create, epId) := Ensure(w.remote, a).value;
            Listed(CutShort(w, Moving(create, store, previous, epId), k).remote.accounts, id)
  {
    var (create, epId) := Ensure(w.remote, a).value;
    var xs := Moving(create, store, previous, epId);
    NoDeletesKeepListed(w, xs[..k], id);
  }

  /** The account such a command removes, and which of the hedge's it replaces. */
  function PreviousEp(w: World, c: Command): Option<nat>
    requires (c.PropRotation? || c.BrokerReplace?) && CommandPlan(w, c).Ok?
  {
    match c
    case PropRotation(_) => w.provision.value.epPropAccountId
    case BrokerReplace(b, replaced) => ReplacedEp(w, b, replaced, NewEp(w, c))
  }

  function OtherEp(w: World, c: Command): nat
    requires LiveHedge(w.hedges).Some?
  {
    var hedge := w.hedges[LiveHedge(w.hedges).value];
    if c.PropRotation? then hedge.epBrokerAccountId else hedge.epPropAccountId
  }

  /** A rotation or replacement takes an account from under the hedge if it stops between
      removing the account the hedge points at and pointing it at the new one, or if it
      removes the account on the hedge's other side. */
  predicate MoveLoses(w: World, c: Command, k: nat)
    requires (c.PropRotation? || c.BrokerReplace?) && CommandPlan(w, c).Ok? && LiveHedge(w.hedges).Some?
  {
    var n := |CommandPlan(w, c).value|;
    && k >= n - 3
    && (|| Removes(PreviousEp(w, c), NewEp(w, c), OtherEp(w, c))
        || (k < n - 1 && Removes(PreviousEp(w, c), NewEp(w, c), CurrentEp(w, c))))
  }

  function IdentityOf(w: World, c: Command): EpAccount
    requires (c.PropRotation? || c.BrokerReplace?) && CommandPlan(w, c).Ok?
  {
    match c
    case PropRotation(p) => Identity(w.props[p])
    case BrokerReplace(b, _) => Identity(w.brokers[b])
  }

  function StoreOf(w: World, c: Command): Write
    requires (c.PropRotation? || c.BrokerReplace?) && CommandPlan(w, c).Ok?
  {
    match c
    case PropRotation(p) => PropEp(p, NewEp(w, c))
    case BrokerReplace(b, _) => BrokerEp(b, NewEp(w, c))
  }

  lemma MoveShape(w: World, c: Command) returns (a: seq<Write>)
    requires (c.PropRotation? || c.BrokerReplace?) && CommandPlan(w, c).Ok? && LiveHedge(w.hedges).Some?
    ensures Ensure(w.remote, IdentityOf(w, c)).Ok? && Ensure(w.remote, IdentityOf(w, c)).value.1 == NewEp(w, c)
    ensures a == Moving(Ensure(w.remote, IdentityOf(w, c)).value.0, StoreOf(w, c), PreviousEp(w, c), NewEp(w, c))
    ensures var (y, z) := PairOf(w, c);
            CommandPlan(w, c).value == a + ([y] + ([z] + [Report])) && |CommandPlan(w, c).value| == |a| + 3
    ensures forall i :: 0 <= i < |a| ==> Quiet(a[i])
  {
    var (y, z) := PairOf(w, c);
    a := Moving(Ensure(w.remote, IdentityOf(w, c)).value.0, StoreOf(w, c), PreviousEp(w, c), NewEp(w, c));
    assert CommandPlan(w, c).value == a + ([y] + ([z] + [Report]));
  }

  /** The two writes of the pair leave the accounts alone and move one side of the hedge. */
  lemma PairMovesHedge(w: World, c: Command, v: World)
    requires (c.PropRotation? || c.BrokerReplace?) && CommandPlan(w, c).Ok? && LiveHedge(w.hedges).Some?
    requires v.hedges == w.hedges
    ensures var (y, z) := PairOf(w, c);
            var t := Apply(Apply(v, y), z);
            && Apply(v, y).hedges == w.hedges && Apply(v, y).remote == v.remote == t.remote
            && (Anchored(t) <==> Listed(v.remote.accounts, NewEp(w, c)) && Listed(v.remote.accounts, OtherEp(w, c)))
  {
    var h := LiveHedge(w.hedges).value;
    var x := match c case PropRotation(p) => w.hedges[h].(propAccountId := p, epPropAccountId := NewEp(w, c))
                     case BrokerReplace(b, _) => w.hedges[h].(brokerAccountId := b, epBrokerAccountId := NewEp(w, c));
    HedgeUpdateKeepsLive(w.hedges, h, x);
  }

  lemma MoveKeepsAnchorIff(w: World, c: Command, k: nat)
    requires (c.PropRotation? || c.BrokerReplace?) && CommandPlan(w, c).Ok? && LiveHedge(w.hedges).Some? && Anchored(w)
    ensures Anchored(RunCut(w, c, k)) <==> !MoveLoses(w, c, k)
  {
    var a := MoveShape(w, c);
    var (y, z) := PairOf(w, c);
    var id, store, previous := IdentityOf(w, c), StoreOf(w, c), PreviousEp(w, c);
    var w1 := ApplyAll(w, a);
    TwoWrites(w, a, y, z, k);
    if k < |a| {
      CutSplit(w, a, [y] + ([z] + [Report]), k);
      MovingCut(w, id, store, previous, k, CurrentEp(w, c));
      MovingCut(w, id, store, previous, k, OtherEp(w, c));
    } else {
      MovingEffect(w, id, store, previous, NewEp(w, c));
      MovingEffect(w, id, store, previous, CurrentEp(w, c));
      MovingEffect(w, id, store, previous, OtherEp(w, c));
      PairMovesHedge(w, c, w1);
      CutSplit(w, a, [y] + ([z] + [Report]), k);
      PairCut(w1, y, z, k - |a|);
    }
  }

  /** A selection takes it away if the chosen broker's stored account is gone. */
  lemma SelectionKeepsAnchorIff(w: World, b: nat, k: nat)
    requires CommandPlan(w, SetHedgeBroker(b)).Ok? && Anchored(w)
    ensures Anchored(RunCut(w, SetHedgeBroker(b), k)) <==>
            !(k >= 1 && !Listed(w.remote.accounts, NewEp(w, SetHedgeBroker(b))))
  {
    var h, epId := LiveHedge(w.hedges).value, w.brokers[b].epAccountId.value;
    var y, z := HedgeBroker(h, b, epId), ProvisionBroker(epId);
    HedgeUpdateKeepsLive(w.hedges, h, w.hedges[h].(brokerAccountId := b, epBrokerAccountId := epId));
    PairCut(w, y, z, k);
  }

  // ------------------------------------------------------------ deletion, reprovisioning

  /** How many of its writes a deletion makes up to and with the archiving of the hedge. */
  function ArchivedAfter(w: World, listed: bool): nat
    requires w.provision.Some?
  {
    |DoomedIds(w, listed)| + 3
  }

  lemma DeleteTailCut(w: World, k: nat)
    requires LiveHedge(w.hedges).Some?
    ensures var s := CutShort(w, DeleteTail(LiveHedge(w.hedges)), k);
            && s.remote == w.remote
            && s.hedges == if k < 3 then w.hedges else ArchiveLive(w.hedges)
  {
    var h := LiveHedge(w.hedges).value;
    var a, b := [ClearBrokerEps] + [ClearPropEps], [Decommission] + [Report];
    var w2 := Apply(Apply(w, ClearBrokerEps), ClearPropEps);
    var xs := DeleteTail(LiveHedge(w.hedges));
    assert xs == a + ([SetHedgeStatus(h, Archived)] + b);
    CutSplit(w, a, [SetHedgeStatus(h, Archived)] + b, k);
    ApplyAppend(w, [ClearBrokerEps], [ClearPropEps]);
    ApplyOne(w, ClearBrokerEps);
    ApplyOne(Apply(w, ClearBrokerEps), ClearPropEps);
    if k < 2 {
      OffHedge(w, a[..k]);
    } else {
      CutSplit(w2, [SetHedgeStatus(h, Archived)], b, k - 2);
      ApplyOne(w2, SetHedgeStatus(h, Archived));
      if k > 2 {
        var w3 := Apply(w2, SetHedgeStatus(h, Archived));
        OffHedge(w3, if k - 3 < |b| then b[..k - 3] else b);
      }
    }
  }

  /** Writes to neither the hedges nor the platform. */
  lemma {:induction false} OffHedge(w: World, xs: seq<Write>)
    requires forall i :: 0 <= i < |xs| ==>
               xs[i].ClearBrokerEps? || xs[i].ClearPropEps? || xs[i].Decommission? || xs[i].Report?
    ensures ApplyAll(w, xs).hedges == w.hedges && ApplyAll(w, xs).remote == w.remote
    decreases |xs|
  {
    if xs != [] { OffHedge(Apply(w, xs[0]), xs[1..]); }
  }

  lemma DeletesCut(w: World, ids: seq<nat>, k: nat)
    ensures CutShort(w, Deletes(ids), k)
            == WithAccounts(w, Removed(w.remote.accounts, if k < |ids| then ids[..k] else ids))
  {
    if k < |ids| {
      assert Deletes(ids)[..k] == Deletes(ids[..k]);
      DeletesEffect(w, ids[..k]);
    } else {
      DeletesEffect(w, ids);
    }
  }

  predicate DeletionLoses(w: World, listed: bool, k: nat)
    requires HasKey(w) && LiveHedge(w.hedges).Some?
  {
    var ids := DoomedIds(w, listed);
    k < ArchivedAfter(w, listed) && Hits(w, if k < |ids| then ids[..k] else ids)
  }

  /** A deletion removes the accounts first and archives the hedge later. */
  lemma DeletionKeepsAnchorIff(w: World, listed: bool, k: nat)
    requires HasKey(w) && LiveHedge(w.hedges).Some? && AtMostOneLive(w.hedges) && Anchored(w)
    ensures Anchored(RunCut(w, DeleteService(listed), k)) <==> !DeletionLoses(w, listed, k)
  {
    var ids := DoomedIds(w, listed);
    var gone := if k < |ids| then ids[..k] else ids;
    var s := RunCut(w, DeleteService(listed), k);
    CutSplit(w, Deletes(ids), DeleteTail(LiveHedge(w.hedges)), k);
    DeletesCut(w, ids, k);
    DeletesCut(w, ids, |ids|);
    if k < |ids| {
      RemovalUnanchorsIff(w, s, gone);
    } else {
      var w1 := ApplyAll(w, Deletes(ids));
      DeleteTailCut(w1, k - |ids|);
      if k < ArchivedAfter(w, listed) { RemovalUnanchorsIff(w, s, gone); } else { ArchivedTheOnlyOne(w.hedges); }
    }
  }

  /** The accounts a reprovision removes, as far as its calls reach the platform. */
  function CleanedIds(p: Provision, prop: bool, broker: bool): seq<nat> {
    if p.epApiKey.None? then []
    else (if prop then OptionToIds(p.epPropAccountId) else [])
         + (if broker then OptionToIds(p.epBrokerAccountId) else [])
  }

  predicate ReprovisionLoses(w: World, prop: bool, broker: bool, k: nat)
    requires w.provision.Some? && LiveHedge(w.hedges).Some?
  {
    var ids := CleanedIds(w.provision.value, prop, broker);
    k <= |ids| && Hits(w, ids[..k])
  }

  lemma ReprovisionShape(w: World, now: int, prop: bool, broker: bool)
    requires w.provision.Some?
    ensures ReprovisionPlan(w, now, prop, broker)
            == Deletes(CleanedIds(w.provision.value, prop, broker))
            + ([ArchiveHedges] + ([ResetProvision(now)] + [Report]))
  {
    var p := w.provision.value;
    var tail := [ArchiveHedges] + ([ResetProvision(now)] + [Report]);
    assert tail == [ArchiveHedges, ResetProvision(now), Report];
    assert Cleanup(p, p.epPropAccountId, prop) + Cleanup(p, p.epBrokerAccountId, broker)
           == Deletes(CleanedIds(p, prop, broker));
  }

  lemma ArchivedIsDead(hedges: seq<Hedge>)
    ensures LiveHedge(Archive(hedges)).None?
  {
  }

  /** A reprovision has removed some accounts, or has archived the hedges. */
  lemma ReprovisionCut(w: World, now: int, prop: bool, broker: bool, k: nat)
    requires w.provision.Some?
    ensures var ids := CleanedIds(w.provision.value, prop, broker);
            var s := CutShort(w, ReprovisionPlan(w, now, prop, broker), k);
            if k <= |ids| then s == WithAccounts(w, Removed(w.remote.accounts, ids[..k])) else LiveHedge(s.hedges).None?
  {
    var ids := CleanedIds(w.provision.value, prop, broker);
    var w1 := ApplyAll(w, Deletes(ids));
    ReprovisionShape(w, now, prop, broker);
    CutSplit(w, Deletes(ids), [ArchiveHedges] + ([ResetProvision(now)] + [Report]), k);
    DeletesCut(w, ids, k);
    assert ids[..|ids|] == ids;
    if k >= |ids| { ArchivingCut(w1, now, k - |ids|); }
  }

  lemma ArchivingCut(w: World, now: int, k: nat)
    ensures var s := CutShort(w, [ArchiveHedges] + ([ResetProvision(now)] + [Report]), k);
            if k == 0 then s == w else LiveHedge(s.hedges).None?
  {
    PairCut(w, ArchiveHedges, ResetProvision(now), k);
    ArchivedIsDead(w.hedges);
  }

  lemma ReprovisionKeepsAnchorIff(w: World, now: int, prop: bool, broker: bool, k: nat)
    requires w.provision.Some? && LiveHedge(w.hedges).Some? && Anchored(w)
    ensures Anchored(CutShort(w, ReprovisionPlan(w, now, prop, broker), k)) <==> !ReprovisionLoses(w, prop, broker, k)
  {
    var ids := CleanedIds(w.provision.value, prop, broker);
    ReprovisionCut(w, now, prop, broker, k);
    if k <= |ids| { RemovalUnanchorsIff(w, CutShort(w, ReprovisionPlan(w, now, prop, broker), k), ids[..k]); }
  }

  // ------------------------------------------------------------------------- the worker

  /** A run makes a hedge over accounts that are gone: it gets as far as creating it, and an id
      it found in the record when it came to the last stage is not registered. */
  ghost predicate RunLoses(w: World, left: nat)
    decreases StagesLeft(StatusOf(w))
  {
    if Terminal(w) then false
    else
      var p := w.provision.value;
      var stage := StageOf(p.status).value;
      match StagePlan(w, p, stage)
      case Err(_) => false
      case Ok(xs) =>
        StageCut(w, p, stage, left);
        if stage == Finalize then
          left >= 2 && !BothListed(w.remote.accounts, p.epPropAccountId.value, p.epBrokerAccountId.value)
        else |xs| <= left && RunLoses(ApplyAll(w, xs), left - |xs|)
  }

  lemma FinalizeAnchorsIff(w: World, p: Provision, k: nat)
    requires w.provision == Some(p) && FinalWork(w, p).Ok? && Anchored(w)
    ensures Anchored(CutShort(w, FinalWork(w, p).value.writes, k)) <==>
            !(k >= 2 && !BothListed(w.remote.accounts, p.epPropAccountId.value, p.epBrokerAccountId.value))
  {
    var x := FinalWork(w, p).value.writes[1].hedge;
    assert FinalWork(w, p).value.writes == [ArchiveHedges] + [NewHedge(x)];
    var hedges := NewHedgeTakesOver(w, x, k);
    assert LiveHedge(Archive(w.hedges)).None?;
  }

  /** What the failure write and the transition leave alone. */
  lemma RecordOnly(s: World, p: Provision, stage: Stage, conflict: bool, now: int, max: nat)
    ensures Anchored(HandleFailure(s, p, stage, conflict, now, max).world) == Anchored(s)
  {
    AnchoredIsRead(s, HandleFailure(s, p, stage, conflict, now, max).world);
  }

  lemma TransitionKeepsAnchor(w: World, to: Status, grant: Grant)
    ensures Anchored(Apply(w, Transition(to, grant))) == Anchored(w)
  {
  }

  lemma FinalStageAnchorsIff(w: World, p: Provision, k: nat)
    requires w.provision == Some(p) && p.status == BROKER_ACCOUNT_CREATED && StagePlan(w, p, Finalize).Ok?
    requires Anchored(w)
    ensures Anchored(CutShort(w, StagePlan(w, p, Finalize).value, k)) <==>
            !(k >= 2 && !BothListed(w.remote.accounts, p.epPropAccountId.value, p.epBrokerAccountId.value))
  {
    var work := StageWork(w, p, Finalize).value;
    StageCut(w, p, Finalize, k);
    FinalizeAnchorsIff(w, p, k);
    FinalizeAnchorsIff(w, p, |work.writes|);
    TransitionKeepsAnchor(ApplyAll(w, work.writes), COMPLETED, work.grant);
  }

  lemma LastStageEnds(w: World, p: Provision, left: nat, fault: Fault, now: int, max: nat)
    requires w.provision == Some(p) && p.status == BROKER_ACCOUNT_CREATED
    ensures OneStage(w, left, fault, now, max).Next? ==> Terminal(WorldOf(OneStage(w, left, fault, now, max)))
  {
    if StagePlan(w, p, Finalize).Ok? { StageCut(w, p, Finalize, left); }
  }

  lemma LastStageAnchorsIff(w: World, p: Provision, left: nat, fault: Fault, now: int, max: nat)
    requires w.provision == Some(p) && p.status == BROKER_ACCOUNT_CREATED && Anchored(w)
    ensures Anchored(WorldOf(OneStage(w, left, fault, now, max))) <==> !RunLoses(w, left)
  {
    match StagePlan(w, p, Finalize)
    case Err(f) => RecordOnly(w, p, Finalize, f == Conflict, now, max);
    case Ok(xs) =>
      StageCut(w, p, Finalize, left);
      FinalStageAnchorsIff(w, p, left);
      RecordOnly(CutShort(w, xs, left), p, Finalize, fault.Throws? && fault.conflict, now, max);
  }

  /** Before the last stage a run neither has nor makes a hedge. */
  lemma EarlyStageAnchors(w: World, p: Provision, stage: Stage, left: nat, fault: Fault, now: int, max: nat)
    requires w.provision == Some(p) && StageOf(p.status) == Some(stage) && stage != Finalize
    requires LiveHedge(w.hedges).None?
    ensures LiveHedge(WorldOf(OneStage(w, left, fault, now, max)).hedges).None?
    ensures match OneStage(w, left, fault, now, max)
            case Next(t, rest) => RunLoses(w, left) == RunLoses(t, rest)
            case Ended(_) => !RunLoses(w, left)
  {
    if StagePlan(w, p, stage).Ok? {
      StageCut(w, p, stage, left);
      EarlyStageKeepsSync(w, p, stage, left);
    }
  }

  lemma {:induction false} RunAnchorsIff(w: World, left: nat, fault: Fault, now: int, max: nat)
    requires max >= 1 && Inv(w, max) && Anchored(w)
    ensures Anchored(Process(w, left, fault, now, max).world) <==> !RunLoses(w, left)
    decreases StagesLeft(StatusOf(w))
  {
    if !Terminal(w) {
      var p := w.provision.value;
      var stage := StageOf(p.status).value;
      if stage == Finalize {
        LastStageAnchorsIff(w, p, left, fault, now, max);
        LastStageEnds(w, p, left, fault, now, max);
      } else {
        NoHedgeYet(w, p, stage, max);
        EarlyStageAnchors(w, p, stage, left, fault, now, max);
        OneStageKeepsInv(w, left, fault, now, max);
        match OneStage(w, left, fault, now, max)
        case Next(t, rest) => RunAnchorsIff(t, rest, fault, now, max);
        case Ended(_) =>
      }
    }
  }

  /** The ids a record can hold when a run takes it up that this run does not renew. */
  predicate StaleRecord(w: World) {
    w.provision.Some? &&
      var p := w.provision.value;
      match p.status
      case PROP_ACCOUNT_CREATED => p.epPropAccountId.Some? && !Listed(w.remote.accounts, p.epPropAccountId.value)
      case BROKER_ACCOUNT_CREATED =>
        && p.epPropAccountId.Some? && p.epBrokerAccountId.Some?
        && !BothListed(w.remote.accounts, p.epPropAccountId.value, p.epBrokerAccountId.value)
      case _ => false
  }

  /** A stage that registers an account leaves it registered, and removes none. */
  lemma RegisteringStage(w: World, p: Provision, stage: Stage, id: nat)
    requires w.provision == Some(p) && StagePlan(w, p, stage).Ok? && stage != Finalize
    ensures var t := ApplyAll(w, StagePlan(w, p, stage).value);
            && (Listed(w.remote.accounts, id) ==> Listed(t.remote.accounts, id))
            && t.provision == Some(Moved(p, NextStatus(stage), StageWork(w, p, stage).value.grant))
  {
    StageCut(w, p, stage, 0);
    WorkShape(w, p, stage);
    NoDeletesKeepListed(w, StagePlan(w, p, stage).value, id);
  }

  lemma GrantedIsListed(w: World, p: Provision, stage: Stage)
    requires w.provision == Some(p) && StagePlan(w, p, stage).Ok?
    requires stage == CreatePropAccount || stage == CreateBrokerAccount
    ensures StageWork(w, p, stage).value.grant.epId < |ApplyAll(w, StagePlan(w, p, stage).value).remote.accounts|
    ensures Listed(ApplyAll(w, StagePlan(w, p, stage).value).remote.accounts, StageWork(w, p, stage).value.grant.epId)
  {
    var a := if stage == CreatePropAccount then Identity(w.props[NewestActive(w.props).value])
             else Identity(w.brokers[HedgeBrokerAccount(w).value]);
    var store := if stage == CreatePropAccount then PropEp(NewestActive(w.props).value, Ensure(w.remote, a).value.1)
                 else BrokerEp(HedgeBrokerAccount(w).value, Ensure(w.remote, a).value.1);
    var create, epId := Ensure(w.remote, a).value.0, Ensure(w.remote, a).value.1;
    MovingEffect(w, a, store, None, epId);
    assert Moving(create, store, None, epId) == create + [store];
    PlanEnds(w, p, stage);
  }

  /** So only a record that was stale already can come to a hedge over nothing: a run that
      registers its accounts itself never does. */
  lemma {:induction false} OnlyStaleRecordsLose(w: World, left: nat)
    requires RunLoses(w, left)
    ensures StaleRecord(w)
    decreases StagesLeft(StatusOf(w))
  {
    var p := w.provision.value;
    var stage := StageOf(p.status).value;
    var xs := StagePlan(w, p, stage).value;
    StageCut(w, p, stage, left);
    if stage != Finalize {
      var t := ApplyAll(w, xs);
      OnlyStaleRecordsLose(t, left - |xs|);
      RegisteringStage(w, p, stage, if p.epPropAccountId.Some? then p.epPropAccountId.value else 0);
      if stage != CreateKey { GrantedIsListed(w, p, stage); }
    }
  }

  // ---------------------------------------------------------------------------- histories

  predicate CommandLoses(w: World, c: Command, k: nat) {
    CommandPlan(w, c).Ok? && LiveHedge(w.hedges).Some? &&
      match c
      case PropRotation(_) => MoveLoses(w, c, k)
      case BrokerReplace(_, _) => MoveLoses(w, c, k)
      case SetHedgeBroker(_) => k >= 1 && !Listed(w.remote.accounts, NewEp(w, c))
      case DeleteService(listed) => DeletionLoses(w, listed, k)
      case _ => false
  }

  /** Plans that touch neither an account nor the hedge's ids. */
  lemma {:induction false} HarmlessWrites(w: World, xs: seq<Write>)
    requires forall i :: 0 <= i < |xs| ==> xs[i].EpCreate? || xs[i].BrokerEp? || xs[i].Report?
    requires Anchored(w)
    ensures Anchored(ApplyAll(w, xs))
    decreases |xs|
  {
    if xs != [] { HarmlessWrites(Apply(w, xs[0]), xs[1..]); }
  }

  lemma StatusKeepsAnchor(w: World, h: nat, to: HedgeStatus, k: nat)
    requires LiveHedge(w.hedges) == Some(h) && to != Archived && Anchored(w)
    ensures Anchored(CutShort(w, [SetHedgeStatus(h, to), Report], k))
  {
    HedgeUpdateKeepsLive(w.hedges, h, w.hedges[h].(status := to));
    assert [SetHedgeStatus(h, to), Report] == [SetHedgeStatus(h, to)] + [Report];
    ReportChangesNothing(w, [SetHedgeStatus(h, to)], k);
    ApplyOne(w, SetHedgeStatus(h, to));
  }

  /** Every command, cut short anywhere, leaves the hedge on registered accounts unless it is
      one of those cases. */
  lemma CommandKeepsAnchorIff(w: World, c: Command, k: nat)
    requires Anchored(w) && AtMostOneLive(w.hedges)
    ensures Anchored(RunCut(w, c, k)) <==> !CommandLoses(w, c, k)
  {
    if LiveHedge(w.hedges).None? {
      NoHedgeStaysSync(w, c, k);
    } else if CommandPlan(w, c).Ok? {
      var xs := CommandPlan(w, c).value;
      match c
      case DeleteService(listed) => DeletionKeepsAnchorIff(w, listed, k);
      case Start => StatusKeepsAnchor(w, LiveHedge(w.hedges).value, Active, k);
      case Stop(entitled) =>
        if entitled { HarmlessWrites(w, if k < |xs| then xs[..k] else xs); }
        else { StatusKeepsAnchor(w, LiveHedge(w.hedges).value, Paused, k); }
      case BrokerAdd(_) => HarmlessWrites(w, if k < |xs| then xs[..k] else xs);
      case SetHedgeBroker(b) => SelectionKeepsAnchorIff(w, b, k);
      case _ => MoveKeepsAnchorIff(w, c, k);
    }
  }

  /** A command that runs to its end does so only by selecting a broker whose account is gone,
      or by removing the account on the hedge's other side. */
  lemma WholeCommandKeepsAnchorIff(w: World, c: Command)
    requires Anchored(w) && AtMostOneLive(w.hedges) && CommandPlan(w, c).Ok? && LiveHedge(w.hedges).Some?
    ensures Anchored(RunWhole(w, c)) <==>
            match c
            case SetHedgeBroker(_) => Listed(w.remote.accounts, NewEp(w, c))
            case PropRotation(_) => !Removes(PreviousEp(w, c), NewEp(w, c), OtherEp(w, c))
            case BrokerReplace(_, _) => !Removes(PreviousEp(w, c), NewEp(w, c), OtherEp(w, c))
            case _ => true
  {
    CommandKeepsAnchorIff(w, c, |CommandPlan(w, c).value|);
  }

  /** An account lost to an interruption is back once the command has been run again: then
      only what a whole run loses is lost. */
  lemma AnchorIsRestored(w: World, c: Command, cuts: seq<nat>)
    requires Anchored(w) && AtMostOneLive(w.hedges) && CommandPlan(w, c).Ok? && Recoverable(c)
    ensures Anchored(RunWhole(Interrupted(w, c, cuts), c)) <==> !CommandLoses(w, c, |CommandPlan(w, c).value|)
  {
    InterruptionsLeaveNoTrace(w, c, cuts);
    CommandKeepsAnchorIff(w, c, |CommandPlan(w, c).value|);
  }

  lemma ReplacementRuns(w: World, b: nat, replaced: Option<nat>)
    returns (s1: World, s2: World, s3: World, s4: World, s5: World)
    requires CommandPlan(w, BrokerReplace(b, replaced)).Ok?
    ensures s1 == ApplyAll(w, Ensure(w.remote, Identity(w.brokers[b])).value.0) && s1 == w.(remote := s1.remote)
    ensures ReplaceStates(s1, b, replaced, NewEp(w, BrokerReplace(b, replaced)), s2, s3, s4, s5)
    ensures RunWhole(w, BrokerReplace(b, replaced)) == s5
  {
    var (create, epId) := Ensure(w.remote, Identity(w.brokers[b])).value;
    s1 := ApplyAll(w, create);
    EnsureIsIdempotent(w, Identity(w.brokers[b]));
    s2, s3, s4, s5 := ReplaceSteps(s1, b, replaced, epId);
    CutStates(w, create, [BrokerEp(b, epId)], DeleteOld(ReplacedEp(w, b, replaced, epId), epId),
              [ProvisionBroker(epId)],
              WriteHedge(LiveHedge(w.hedges), (h: nat) => HedgeBroker(h, b, epId)), 0, s1, s2, s3, s4, s5);
  }

  lemma WholeReplacement(w: World, b: nat, replaced: Option<nat>) returns (t: World)
    requires CommandPlan(w, BrokerReplace(b, replaced)).Ok?
    ensures t == RunWhole(w, BrokerReplace(b, replaced))
    ensures var create, epId := Ensure(w.remote, Identity(w.brokers[b])).value.0, NewEp(w, BrokerReplace(b, replaced));
            && t.brokers == SetEp(w.brokers, b, epId)
            && t.provision == Some(w.provision.value.(epBrokerAccountId := Some(epId)))
            && t.hedges == PointHedgeBroker(w.hedges, b, epId)
            && t.remote.accounts
               == WithoutOld(ApplyAll(w, create).remote.accounts, ReplacedEp(w, b, replaced, epId), epId)
  {
    var s1, s2, s3, s4, s5 := ReplacementRuns(w, b, replaced);
    t := s5;
  }

  /** A replacement of a broker that was never registered removes the hedge's own account
      instead, while the broker it belongs to stays selectable: selecting that one then
      moves hedge and provision, together, to an account that is gone. */
  lemma MisfiredReplacement(w: World, b: nat, o: nat, x: nat)
    requires CommandPlan(w, BrokerReplace(b, Some(o))).Ok? && LiveHedge(w.hedges).Some? && AtMostOneLive(w.hedges)
    requires Anchored(w) && InSync(w)
    requires o < |w.brokers| && o != b && w.brokers[o].epAccountId.None?
    requires var hedge := w.hedges[LiveHedge(w.hedges).value];
             && x < |w.brokers| && x != b && w.brokers[x].active
             && w.brokers[x].epAccountId == Some(hedge.epBrokerAccountId)
             && hedge.epBrokerAccountId != hedge.epPropAccountId
             && hedge.epBrokerAccountId != NewEp(w, BrokerReplace(b, Some(o)))
    ensures var t := RunWhole(w, BrokerReplace(b, Some(o)));
            var u := RunWhole(t, SetHedgeBroker(x));
            && Anchored(t) && InSync(t)
            && CommandPlan(t, SetHedgeBroker(x)).Ok? && InSync(u) && !Anchored(u)
  {
    var c := BrokerReplace(b, Some(o));
    var h, epId := LiveHedge(w.hedges).value, NewEp(w, c);
    var gone := w.hedges[h].epBrokerAccountId;
    assert ReplacedEp(w, b, Some(o), epId) == Some(gone);
    WholeCommandKeepsAnchorIff(w, c);
    WholeCommandsKeepSync(w, c);
    var t := WholeReplacement(w, b, Some(o));
    PointTwice(w.hedges, b, epId);
    assert HasKey(t) && t.brokers[x] == w.brokers[x] && !Listed(t.remote.accounts, gone);
    OneLiveStays(w.hedges, b, epId);
    WholeCommandKeepsAnchorIff(t, SetHedgeBroker(x));
    WholeCommandsKeepSync(t, SetHedgeBroker(x));
  }

  lemma OneLiveStays(hedges: seq<Hedge>, b: nat, epId: nat)
    requires AtMostOneLive(hedges)
    ensures AtMostOneLive(PointHedgeBroker(hedges, b, epId))
  {
  }

  /** The events after which the live hedge names an account that is gone. */
  ghost predicate LosesAccount(w: World, e: Event) {
    match e
    case Worked(left, _, _) => RunLoses(w, left)
    case Commanded(c, left) => CommandLoses(w, c, left)
    case Reprovisioned(_, prop, broker, left) =>
      w.provision.Some? && LiveHedge(w.hedges).Some? && ReprovisionLoses(w, prop, broker, left)
    case _ => false
  }

  lemma EventKeepsAnchorIff(w: World, e: Event, max: nat)
    requires max >= 1 && Inv(w, max) && Anchored(w)
    ensures Anchored(StepEvent(w, e, max)) <==> !LosesAccount(w, e)
  {
    match e
    case Worked(left, fault, now) => RunAnchorsIff(w, left, fault, now, max);
    case Commanded(c, left) => CommandKeepsAnchorIff(w, c, left);
    case Reprovisioned(now, prop, broker, left) =>
      if w.provision.Some? {
        ReprovisionCut(w, now, prop, broker, left);
        if LiveHedge(w.hedges).Some? { ReprovisionKeepsAnchorIff(w, now, prop, broker, left); }
      }
    case _ =>
  }

  ghost predicate NeverLoses(w: World, events: seq<Event>, max: nat)
    decreases |events|
  {
    events != [] ==> !LosesAccount(w, events[0]) && NeverLoses(StepEvent(w, events[0], max), events[1..], max)
  }

  ghost predicate AlwaysAnchored(w: World, events: seq<Event>, max: nat)
    decreases |events|
  {
    Anchored(w) && (events != [] ==> AlwaysAnchored(StepEvent(w, events[0], max), events[1..], max))
  }

  /** Over every history of worker, command, trigger and admin calls, each cut short wherever
      it may be, the live hedge trades on registered accounts after every event if and only if
      no event is one of those cases in its turn. */
  lemma {:induction false} HistoriesKeepAnchorIff(w: World, events: seq<Event>, max: nat)
    requires max >= 1 && Inv(w, max) && Anchored(w)
    ensures AlwaysAnchored(w, events, max) <==> NeverLoses(w, events, max)
    decreases |events|
  {
    if events != [] {
      EventKeepsAnchorIff(w, events[0], max);
      EventKeepsInv(w, events[0], max);
      if !LosesAccount(w, events[0]) { HistoriesKeepAnchorIff(StepEvent(w, events[0], max), events[1..], max); }
    }
  }
}
