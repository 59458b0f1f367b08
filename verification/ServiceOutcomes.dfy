/** What every service command, worker stage and admin action has done once it is through, and
    when it is refused, said about the records and the platform's accounts themselves. */
module ServiceOutcomes {
  import opened Common
  import opened ServiceWorld
  import opened ServiceControl
  import opened ServiceRecovery
  import opened ServiceCommands
  import opened Provisioning
  import opened ProvisioningRecovery
  import opened HedgeSync
  import opened HedgeAccounts

  // --------------------------------------------------------------- registering a row

  /** The account is listed under the row's login, on the row's server. */
  predicate Names(account: Option<EpAccount>, row: Account) {
    account.Some? && account.value.login == row.login && account.value.server == row.server
  }

  predicate ListedAs(accounts: seq<Option<EpAccount>>, e: nat, row: Account) {
    e < |accounts| && Names(accounts[e], row)
  }

  ghost predicate NoneNames(accounts: seq<Option<EpAccount>>, row: Account) {
    forall i :: 0 <= i < |accounts| ==> !Names(accounts[i], row)
  }

  /** From `before` to `after` the row was registered as e: the first account that has its login
      and server, or else one new account; and the account `gone` was removed. */
  ghost predicate Registers(before: seq<Option<EpAccount>>, after: seq<Option<EpAccount>>, row: Account, e: nat,
                            gone: Option<nat>)
  {
    && ListedAs(after, e, row)
    && (if NoneNames(before, row) then e == |before| && |after| == |before| + 1
        else |after| == |before| && e < |before| && forall i :: 0 <= i < e ==> !Names(before[i], row))
    && forall i :: 0 <= i < |before| ==> after[i] == if gone == Some(i) then None else before[i]
  }

  lemma EnsureRegisters(w: World, row: Account)
    requires Ensure(w.remote, Identity(row)).Ok?
    ensures var (create, e) := Ensure(w.remote, Identity(row)).value;
            var s := ApplyAll(w, create);
            && s == WithAccounts(w, s.remote.accounts)
            && Registers(w.remote.accounts, s.remote.accounts, row, e, None)
  {
    if FindAccount(w.remote.accounts, Identity(row)).None? {
      ApplyOne(w, EpCreate(Identity(row)));
      assert forall i :: 0 <= i < |w.remote.accounts| ==> w.remote.accounts[i] != Some(Identity(row));
    } else {
      assert Names(w.remote.accounts[FindAccount(w.remote.accounts, Identity(row)).value], row);
    }
  }

  /** Then the account of before is removed, unless it is the same one. */
  lemma RegistersThenRemoves(before: seq<Option<EpAccount>>, mid: seq<Option<EpAccount>>, row: Account, e: nat,
                             previous: Option<nat>)
    requires Registers(before, mid, row, e, None)
    ensures Registers(before, WithoutOld(mid, previous, e), row, e, if previous == Some(e) then None else previous)
  {
  }

  /** How many accounts are listed. */
  lemma {:induction false} LiveCountCounts(accounts: seq<Option<EpAccount>>)
    ensures LiveCount(accounts) == |set i | 0 <= i < |accounts| && accounts[i].Some?|
  {
    if accounts != [] {
      var n := |accounts| - 1;
      LiveCountCounts(accounts[..n]);
      var before := set i | 0 <= i < |accounts[..n]| && accounts[..n][i].Some?;
      var all := set i | 0 <= i < |accounts| && accounts[i].Some?;
      assert n !in before;
      assert all == if accounts[n].Some? then before + {n} else before;
    }
  }

  /** Registering fails in one case, with a conflict: the row is not listed and the cap is reached. */
  lemma RegistrationRefusedIff(w: World, row: Account)
    ensures Ensure(w.remote, Identity(row)) == Err(Conflict) <==>
            NoneNames(w.remote.accounts, row)
            && |set i | 0 <= i < |w.remote.accounts| && w.remote.accounts[i].Some?| >= w.remote.cap
    ensures Ensure(w.remote, Identity(row)) != Err(OtherError)
  {
    LiveCountCounts(w.remote.accounts);
    var found := FindAccount(w.remote.accounts, Identity(row));
    if found.Some? { assert Names(w.remote.accounts[found.value], row); }
    assert forall i :: 0 <= i < |w.remote.accounts| ==>
             (Names(w.remote.accounts[i], row) <==> w.remote.accounts[i] == Some(Identity(row)));
  }

  // ------------------------------------------------------------------------- commands

  predicate Holds(w: World) {
    w.provision.Some? && w.provision.value.epApiKey.Some?
  }

  /** The newest hedge that is not archived. */
  ghost predicate IsLive(hedges: seq<Hedge>, h: nat) {
    h < |hedges| && hedges[h].status != Archived && forall i :: h < i < |hedges| ==> hedges[i].status == Archived
  }

  lemma LiveIsLive(hedges: seq<Hedge>)
    ensures forall h: nat :: IsLive(hedges, h) <==> LiveHedge(hedges) == Some(h)
  {
    forall h: nat | IsLive(hedges, h)
      ensures LiveHedge(hedges) == Some(h)
    {
      var l := LiveHedge(hedges);
      assert l.Some? && !(l.value < h) && !(h < l.value);
    }
  }

  /** The live hedge becomes x, if there is one, and no other hedge changes. */
  ghost predicate OnlyLiveChanges(before: seq<Hedge>, after: seq<Hedge>, x: Hedge -> Hedge) {
    |after| == |before|
    && forall h: nat :: h < |before| ==> after[h] == if IsLive(before, h) then x(before[h]) else before[h]
  }

  /** A rotation: the new row is registered under its own login and server, the account the
      provision named is removed, provision and live hedge name the new row and its account,
      and nothing else changes. */
  lemma RotationOutcome(w: World, p: nat) returns (e: nat)
    requires CommandPlan(w, PropRotation(p)).Ok?
    ensures p < |w.props| && Holds(w)
    ensures var t, former := RunWhole(w, PropRotation(p)), w.provision.value.epPropAccountId;
            && Registers(w.remote.accounts, t.remote.accounts, w.props[p], e,
                         if former == Some(e) then None else former)
            && t.props == w.props[p := w.props[p].(epAccountId := Some(e))]
            && t.provision == Some(w.provision.value.(epPropAccountId := Some(e)))
            && OnlyLiveChanges(w.hedges, t.hedges, (x: Hedge) => x.(propAccountId := p, epPropAccountId := e))
            && t == w.(props := t.props, provision := t.provision, hedges := t.hedges,
                       remote := w.remote.(accounts := t.remote.accounts))
  {
    var create := Ensure(w.remote, Identity(w.props[p])).value.0;
    e := Ensure(w.remote, Identity(w.props[p])).value.1;
    EnsureRegisters(w, w.props[p]);
    var s1 := ApplyAll(w, create);
    var s2, s3, s4, s5 := RotationSteps(s1, p, e);
    CutStates(w, create, [PropEp(p, e)], DeleteOld(w.provision.value.epPropAccountId, e), [ProvisionProp(e)],
              WriteHedge(LiveHedge(w.hedges), (h: nat) => HedgeProp(h, p, e)), 0, s1, s2, s3, s4, s5);
    RegistersThenRemoves(w.remote.accounts, s1.remote.accounts, w.props[p], e, w.provision.value.epPropAccountId);
    LiveIsLive(w.hedges);
  }

  /** The account a replacement is to remove: the replaced row's, read after the new row's id was
      stored, or else the one the live hedge is on. */
  ghost predicate IsReplaced(w: World, b: nat, replaced: Option<nat>, e: nat, former: Option<nat>) {
    var stored := if replaced.None? || replaced.value >= |w.brokers| then None
                  else if replaced.value == b then Some(e) else w.brokers[replaced.value].epAccountId;
    if stored.Some? then former == stored
    else
      && (forall h: nat :: IsLive(w.hedges, h) ==> former == Some(w.hedges[h].epBrokerAccountId))
      && ((forall h: nat :: !IsLive(w.hedges, h)) ==> former.None?)
  }

  /** A broker replacement likewise. */
  lemma ReplacementOutcome(w: World, b: nat, replaced: Option<nat>) returns (e: nat, former: Option<nat>)
    requires CommandPlan(w, BrokerReplace(b, replaced)).Ok?
    ensures b < |w.brokers| && Holds(w) && IsReplaced(w, b, replaced, e, former)
    ensures var t := RunWhole(w, BrokerReplace(b, replaced));
            && Registers(w.remote.accounts, t.remote.accounts, w.brokers[b], e,
                         if former == Some(e) then None else former)
            && t.brokers == w.brokers[b := w.brokers[b].(epAccountId := Some(e))]
            && t.provision == Some(w.provision.value.(epBrokerAccountId := Some(e)))
            && OnlyLiveChanges(w.hedges, t.hedges, (x: Hedge) => x.(brokerAccountId := b, epBrokerAccountId := e))
            && t == w.(brokers := t.brokers, provision := t.provision, hedges := t.hedges,
                       remote := w.remote.(accounts := t.remote.accounts))
  {
    e := NewEp(w, BrokerReplace(b, replaced));
    former := ReplacedIs(w, b, replaced, e);
    EnsureRegisters(w, w.brokers[b]);
    var s1, s2, s3, s4, s5 := ReplacementRuns(w, b, replaced);
    RegistersThenRemoves(w.remote.accounts, s1.remote.accounts, w.brokers[b], e, former);
    LiveIsLive(w.hedges);
  }

  lemma ReplacedIs(w: World, b: nat, replaced: Option<nat>, e: nat) returns (former: Option<nat>)
    requires b < |w.brokers|
    ensures IsReplaced(w, b, replaced, e, former)
    ensures forall accounts :: WithoutOld(accounts, ReplacedEp(w, b, replaced, e), e) == WithoutOld(accounts, former, e)
  {
    var stored := if replaced.None? || replaced.value >= |w.brokers| then None
                  else if replaced.value == b then Some(e) else w.brokers[replaced.value].epAccountId;
    former := if stored.Some? then stored
              else match LiveHedge(w.hedges) case None => None case Some(h) => Some(w.hedges[h].epBrokerAccountId);
    LiveIsLive(w.hedges);
    assert ReplacedEp(w, b, replaced, e) == former || (ReplacedEp(w, b, replaced, e).None? && former == Some(e));
  }

  /** An addition registers the row and stores the id. */
  lemma AdditionOutcome(w: World, b: nat) returns (e: nat)
    requires CommandPlan(w, BrokerAdd(b)).Ok?
    ensures b < |w.brokers| && Holds(w)
    ensures var t := RunWhole(w, BrokerAdd(b));
            && Registers(w.remote.accounts, t.remote.accounts, w.brokers[b], e, None)
            && t == w.(brokers := w.brokers[b := w.brokers[b].(epAccountId := Some(e))],
                       remote := w.remote.(accounts := t.remote.accounts))
  {
    var create := Ensure(w.remote, Identity(w.brokers[b])).value.0;
    e := Ensure(w.remote, Identity(w.brokers[b])).value.1;
    EnsureRegisters(w, w.brokers[b]);
    var s1 := ApplyAll(w, create);
    ApplyAppend(w, create, [BrokerEp(b, e)] + [Report]);
    ReportChangesNothing(s1, [BrokerEp(b, e)], 0);
    ApplyOne(s1, BrokerEp(b, e));
  }

  /** A selection points live hedge and provision at the broker's stored account. */
  lemma SelectionOutcome(w: World, b: nat)
    requires CommandPlan(w, SetHedgeBroker(b)).Ok?
    ensures b < |w.brokers| && w.brokers[b].active && w.brokers[b].epAccountId.Some? && Holds(w)
    ensures var t, e := RunWhole(w, SetHedgeBroker(b)), w.brokers[b].epAccountId.value;
            && OnlyLiveChanges(w.hedges, t.hedges, (x: Hedge) => x.(brokerAccountId := b, epBrokerAccountId := e))
            && t == w.(hedges := t.hedges, provision := Some(w.provision.value.(epBrokerAccountId := Some(e))))
  {
    var h, e := LiveHedge(w.hedges).value, w.brokers[b].epAccountId.value;
    var s1, s2 := SelectionSteps(w, h, b, e, 0);
    LiveIsLive(w.hedges);
  }

  /** Starting makes the live hedge active; stopping pauses it unless the client is entitled. */
  lemma StatusOutcome(w: World, c: Command)
    requires (c.Start? || c.Stop?) && CommandPlan(w, c).Ok?
    ensures var t := RunWhole(w, c);
            && t == w.(hedges := t.hedges)
            && if c.Stop? && c.entitled then t == w
               else OnlyLiveChanges(w.hedges, t.hedges, (x: Hedge) => x.(status := if c.Start? then Active else Paused))
  {
    LiveIsLive(w.hedges);
    if c.Stop? && c.entitled {
      ApplyOne(w, Report);
    } else {
      var x := SetHedgeStatus(LiveHedge(w.hedges).value, if c.Start? then Active else Paused);
      assert CommandPlan(w, c).value == [x] + [Report];
      ReportChangesNothing(w, [x], 0);
      ApplyOne(w, x);
    }
  }

  /** The accounts a deletion is to remove. */
  ghost predicate Doomed(w: World, listed: bool, id: nat)
    requires w.provision.Some?
  {
    || listed
    || (exists h: nat :: IsLive(w.hedges, h)
                         && (id == w.hedges[h].epPropAccountId || id == w.hedges[h].epBrokerAccountId))
    || ((forall h: nat :: !IsLive(w.hedges, h))
        && (w.provision.value.epPropAccountId == Some(id) || w.provision.value.epBrokerAccountId == Some(id)))
  }

  /** A deletion: those accounts are gone and no others, no row names an account any more, the
      live hedge is archived, and the record is decommissioned and otherwise kept. */
  lemma DeletionOutcome(w: World, listed: bool)
    requires CommandPlan(w, DeleteService(listed)).Ok?
    ensures Holds(w)
    ensures var t := RunWhole(w, DeleteService(listed));
            && |t.remote.accounts| == |w.remote.accounts|
            && (forall i :: 0 <= i < |w.remote.accounts| ==>
                  t.remote.accounts[i] == if Doomed(w, listed, i) then None else w.remote.accounts[i])
            && (|t.props| == |w.props|
                && forall i :: 0 <= i < |w.props| ==> t.props[i] == w.props[i].(epAccountId := None))
            && (|t.brokers| == |w.brokers|
                && forall i :: 0 <= i < |w.brokers| ==> t.brokers[i] == w.brokers[i].(epAccountId := None))
            && OnlyLiveChanges(w.hedges, t.hedges, (x: Hedge) => x.(status := Archived))
            && t.provision == Some(w.provision.value.(status := DECOMMISSIONED))
            && t.remote == w.remote.(accounts := t.remote.accounts)
  {
    WholeDeletion(w, listed);
    LiveIsLive(w.hedges);
    var ids := DoomedIds(w, listed);
    forall i: nat | i < |w.remote.accounts| && w.remote.accounts[i].Some?
      ensures i in ids <==> Doomed(w, listed, i)
    {
    }
  }

  /** When a command is refused, and how: without a key, without the row or the hedge it is about,
      for a broker that is archived or not registered; and with a conflict, at the cap. */
  lemma CommandRefusedIff(w: World, c: Command)
    ensures CommandPlan(w, c) == Err(OtherError) <==>
            match c
            case PropRotation(p) => !Holds(w) || p >= |w.props|
            case BrokerReplace(b, _) => !Holds(w) || b >= |w.brokers|
            case BrokerAdd(b) => !Holds(w) || b >= |w.brokers|
            case SetHedgeBroker(b) =>
              !Holds(w) || (forall h: nat :: !IsLive(w.hedges, h)) || b >= |w.brokers| || !w.brokers[b].active
              || w.brokers[b].epAccountId.None?
            case DeleteService(_) => !Holds(w)
            case Start => !Holds(w) || forall h: nat :: !IsLive(w.hedges, h)
            case Stop(entitled) => !entitled && (!Holds(w) || forall h: nat :: !IsLive(w.hedges, h))
    ensures CommandPlan(w, c) == Err(Conflict) <==>
            && Holds(w)
            && match c
               case PropRotation(p) => p < |w.props| && AtCap(w, w.props[p])
               case BrokerReplace(b, _) => b < |w.brokers| && AtCap(w, w.brokers[b])
               case BrokerAdd(b) => b < |w.brokers| && AtCap(w, w.brokers[b])
               case _ => false
  {
    LiveIsLive(w.hedges);
    match c
    case PropRotation(p) => if p < |w.props| { RegistrationRefusedIff(w, w.props[p]); }
    case BrokerReplace(b, _) => if b < |w.brokers| { RegistrationRefusedIff(w, w.brokers[b]); }
    case BrokerAdd(b) => if b < |w.brokers| { RegistrationRefusedIff(w, w.brokers[b]); }
    case _ =>
  }

  /** The row would need a new account, and the platform takes no more. */
  ghost predicate AtCap(w: World, row: Account) {
    && NoneNames(w.remote.accounts, row)
    && |set i | 0 <= i < |w.remote.accounts| && w.remote.accounts[i].Some?| >= w.remote.cap
  }

  // -------------------------------------------------------------------- worker stages

  /** The record once it has moved on to a status: nothing is left of earlier failures. */
  function MovedTo(p: Provision, to: Status): Provision {
    p.(status := to, failedStep := None, attemptCount := 0, nextRetryAt := None)
  }

  function AfterStage(w: World, p: Provision, stage: Stage): World
    requires StagePlan(w, p, stage).Ok?
  {
    ApplyAll(w, StagePlan(w, p, stage).value)
  }

  /** The first stage keeps a stored key, and otherwise issues one and stores it at once. */
  lemma KeyStageOutcome(w: World, p: Provision)
    requires w.provision == Some(p)
    ensures StagePlan(w, p, CreateKey).Ok?
    ensures AfterStage(w, p, CreateKey) ==
            if p.epApiKey.Some? && p.epKeyId.Some? then w.(provision := Some(MovedTo(p, KEY_CREATED)))
            else w.(remote := w.remote.(keys := w.remote.keys + 1),
                    provision := Some(MovedTo(p, KEY_CREATED).(epApiKey := Some(w.remote.keys),
                                                               epKeyId := Some(w.remote.keys))))
  {
    PlanEnds(w, p, CreateKey);
    ApplyOne(w, EpNewKey);
  }

  /** Registering a row and storing its id: the accounts move as `Registers` says, and then the
      one write is made. */
  lemma StoredOnce(w: World, row: Account, store: Write)
    requires Ensure(w.remote, Identity(row)).Ok? && (store.PropEp? || store.BrokerEp?)
    ensures var (create, e) := Ensure(w.remote, Identity(row)).value;
            var t := ApplyAll(w, create + [store]);
            && Registers(w.remote.accounts, t.remote.accounts, row, e, None)
            && t == Apply(WithAccounts(w, t.remote.accounts), store)
  {
    var create := Ensure(w.remote, Identity(row)).value.0;
    EnsureRegisters(w, row);
    RegistrationCuts(w, create, store, 0);
  }

  /** The newest active row. */
  predicate IsNewestActive(rows: seq<Account>, id: nat) {
    id < |rows| && rows[id].active && forall i :: id < i < |rows| ==> !rows[i].active
  }

  /** The second stage registers the newest active prop row under its own login and server, and
      row and record hold the id. */
  lemma PropStageOutcome(w: World, p: Provision) returns (id: nat, e: nat)
    requires w.provision == Some(p) && StagePlan(w, p, CreatePropAccount).Ok?
    ensures IsNewestActive(w.props, id)
    ensures var t := AfterStage(w, p, CreatePropAccount);
            && Registers(w.remote.accounts, t.remote.accounts, w.props[id], e, None)
            && t == w.(props := w.props[id := w.props[id].(epAccountId := Some(e))],
                       remote := w.remote.(accounts := t.remote.accounts),
                       provision := Some(MovedTo(p, PROP_ACCOUNT_CREATED).(epPropAccountId := Some(e))))
  {
    id := NewestActive(w.props).value;
    e := Ensure(w.remote, Identity(w.props[id])).value.1;
    StoredOnce(w, w.props[id], PropEp(id, e));
    PlanEnds(w, p, CreatePropAccount);
  }

  /** The broker to hedge with: the live hedge's, unless it is archived, or the newest active. */
  ghost predicate IsHedgeBroker(w: World, id: nat) {
    && id < |w.brokers|
    && (forall h: nat :: IsLive(w.hedges, h) ==>
          if w.hedges[h].brokerAccountId < |w.brokers| && w.brokers[w.hedges[h].brokerAccountId].active
          then id == w.hedges[h].brokerAccountId
          else IsNewestActive(w.brokers, id))
    && ((forall h: nat :: !IsLive(w.hedges, h)) ==> IsNewestActive(w.brokers, id))
  }

  lemma NewestIsNewest(rows: seq<Account>)
    ensures forall id: nat :: IsNewestActive(rows, id) <==> NewestActive(rows) == Some(id)
  {
    forall id: nat | IsNewestActive(rows, id)
      ensures NewestActive(rows) == Some(id)
    {
      var l := NewestActive(rows);
      assert l.Some? && !(l.value < id) && !(id < l.value);
    }
  }

  lemma HedgeBrokerIs(w: World)
    ensures forall id: nat :: IsHedgeBroker(w, id) <==> HedgeBrokerAccount(w) == Some(id)
  {
    LiveIsLive(w.hedges);
    NewestIsNewest(w.brokers);
  }

  /** The third stage does the same for the broker to hedge with. */
  lemma BrokerStageOutcome(w: World, p: Provision) returns (id: nat, e: nat)
    requires w.provision == Some(p) && StagePlan(w, p, CreateBrokerAccount).Ok?
    ensures IsHedgeBroker(w, id)
    ensures var t := AfterStage(w, p, CreateBrokerAccount);
            && Registers(w.remote.accounts, t.remote.accounts, w.brokers[id], e, None)
            && t == w.(brokers := w.brokers[id := w.brokers[id].(epAccountId := Some(e))],
                       remote := w.remote.(accounts := t.remote.accounts),
                       provision := Some(MovedTo(p, BROKER_ACCOUNT_CREATED).(epBrokerAccountId := Some(e))))
  {
    id := HedgeBrokerAccount(w).value;
    e := Ensure(w.remote, Identity(w.brokers[id])).value.1;
    assert IsHedgeBroker(w, id) by { HedgeBrokerIs(w); }
    StoredOnce(w, w.brokers[id], BrokerEp(id, e));
    PlanEnds(w, p, CreateBrokerAccount);
  }

  predicate IsFirstWith(rows: seq<Account>, e: nat, id: nat) {
    id < |rows| && rows[id].epAccountId == Some(e) && forall i :: 0 <= i < id ==> rows[i].epAccountId != Some(e)
  }

  /** The last stage archives every hedge and makes one, active, over the rows that carry the
      record's two ids. */
  lemma FinalStageOutcome(w: World, p: Provision) returns (prop: nat, broker: nat)
    requires w.provision == Some(p) && StagePlan(w, p, Finalize).Ok?
    ensures p.epPropAccountId.Some? && IsFirstWith(w.props, p.epPropAccountId.value, prop)
    ensures p.epBrokerAccountId.Some? && IsFirstWith(w.brokers, p.epBrokerAccountId.value, broker)
    ensures var t := AfterStage(w, p, Finalize);
            && |t.hedges| == |w.hedges| + 1
            && (forall i :: 0 <= i < |w.hedges| ==> t.hedges[i] == w.hedges[i].(status := Archived))
            && t.hedges[|w.hedges|] == Hedge(prop, broker, p.epPropAccountId.value, p.epBrokerAccountId.value, Active)
            && t == w.(hedges := t.hedges, provision := Some(MovedTo(p, COMPLETED)))
  {
    prop := FindByEp(w.props, p.epPropAccountId.value).value;
    broker := FindByEp(w.brokers, p.epBrokerAccountId.value).value;
    var x := Hedge(prop, broker, p.epPropAccountId.value, p.epBrokerAccountId.value, Active);
    PlanEnds(w, p, Finalize);
    var hedges := NewHedgeTakesOver(w, x, 0);
  }

  /** A stage of a run that completes was carried out, and the rest of the run goes on from there. */
  lemma StageOfCompletedRun(w: World, p: Provision, stage: Stage, now: int, max: nat)
    requires w.provision == Some(p) && StageOf(p.status) == Some(stage)
    requires StatusOf(Unbroken(w, now, max)) == COMPLETED
    ensures StagePlan(w, p, stage).Ok?
    ensures Unbroken(w, now, max) == Unbroken(AfterStage(w, p, stage), now, max)
  {
    if StagePlan(w, p, stage).Ok? { UnbrokenUnfolds(w, p, stage, now, max); }
  }

  /** The hedge is over registered accounts of these two rows. */
  predicate Trades(t: World, x: Hedge, prop: Account, broker: Account) {
    && ListedAs(t.remote.accounts, x.epPropAccountId, prop)
    && ListedAs(t.remote.accounts, x.epBrokerAccountId, broker)
  }

  /** The end of a run: one hedge, over the two ids of the record. */
  lemma LastStageTrades(w: World, p: Provision, prop: Account, broker: Account, now: int, max: nat)
    requires w.provision == Some(p) && p.status == BROKER_ACCOUNT_CREATED
    requires StatusOf(Unbroken(w, now, max)) == COMPLETED
    requires p.epPropAccountId.Some? && ListedAs(w.remote.accounts, p.epPropAccountId.value, prop)
    requires p.epBrokerAccountId.Some? && ListedAs(w.remote.accounts, p.epBrokerAccountId.value, broker)
    ensures var t := Unbroken(w, now, max);
            && |t.hedges| == |w.hedges| + 1 && t.hedges[|w.hedges|].status == Active
            && (forall i :: 0 <= i < |w.hedges| ==> t.hedges[i].status == Archived)
            && Trades(t, t.hedges[|w.hedges|], prop, broker)
  {
    StageOfCompletedRun(w, p, Finalize, now, max);
    var id, other := FinalStageOutcome(w, p);
    assert Terminal(AfterStage(w, p, Finalize));
  }

  /** From the second stage on: the run registers the newest active prop row and the newest
      active broker. */
  lemma KeyedRunTrades(w: World, p: Provision, now: int, max: nat) returns (prop: nat, broker: nat)
    requires w.provision == Some(p) && p.status == KEY_CREATED && LiveHedge(w.hedges).None?
    requires StatusOf(Unbroken(w, now, max)) == COMPLETED
    ensures IsNewestActive(w.props, prop) && IsNewestActive(w.brokers, broker)
    ensures var t := Unbroken(w, now, max);
            && |t.hedges| == |w.hedges| + 1 && t.hedges[|w.hedges|].status == Active
            && (forall i :: 0 <= i < |w.hedges| ==> t.hedges[i].status == Archived)
            && Trades(t, t.hedges[|w.hedges|], w.props[prop], w.brokers[broker])
  {
    StageOfCompletedRun(w, p, CreatePropAccount, now, max);
    var e, f;
    prop, e := PropStageOutcome(w, p);
    var w1 := AfterStage(w, p, CreatePropAccount);
    var p1 := w1.provision.value;
    StageOfCompletedRun(w1, p1, CreateBrokerAccount, now, max);
    broker, f := BrokerStageOutcome(w1, p1);
    LiveIsLive(w.hedges);
    var w2 := AfterStage(w1, p1, CreateBrokerAccount);
    LastStageTrades(w2, w2.provision.value, w.props[prop], w.brokers[broker], now, max);
  }

  /** A whole run over a new record, if it completes: it makes one active hedge, archives all
      others, and the hedge trades on accounts that are registered under the login and server
      of the client's newest active prop row and newest active broker row. */
  lemma NewRecordTrades(w: World, now: int, max: nat) returns (prop: nat, broker: nat)
    requires w.provision.Some? && w.provision.value.status == PENDING && LiveHedge(w.hedges).None?
    requires StatusOf(Unbroken(w, now, max)) == COMPLETED
    ensures IsNewestActive(w.props, prop) && IsNewestActive(w.brokers, broker)
    ensures var t := Unbroken(w, now, max);
            && |t.hedges| == |w.hedges| + 1 && t.hedges[|w.hedges|].status == Active
            && (forall i :: 0 <= i < |w.hedges| ==> t.hedges[i].status == Archived)
            && Trades(t, t.hedges[|w.hedges|], w.props[prop], w.brokers[broker])
  {
    var p := w.provision.value;
    StageOfCompletedRun(w, p, CreateKey, now, max);
    KeyStageOutcome(w, p);
    var w1 := AfterStage(w, p, CreateKey);
    prop, broker := KeyedRunTrades(w1, w1.provision.value, now, max);
  }

  /** When a stage is refused, and how. */
  lemma StageRefusedIff(w: World, p: Provision, stage: Stage)
    ensures StagePlan(w, p, stage) == Err(OtherError) <==>
            match stage
            case CreateKey => false
            case CreatePropAccount => p.epApiKey.None? || forall i :: 0 <= i < |w.props| ==> !w.props[i].active
            case CreateBrokerAccount => p.epApiKey.None? || forall i :: 0 <= i < |w.brokers| ==> !w.brokers[i].active
            case Finalize =>
              || p.epPropAccountId.None? || p.epBrokerAccountId.None?
              || (forall i :: 0 <= i < |w.props| ==> w.props[i].epAccountId != p.epPropAccountId)
              || (forall i :: 0 <= i < |w.brokers| ==> w.brokers[i].epAccountId != p.epBrokerAccountId)
    ensures StagePlan(w, p, stage) == Err(Conflict) <==>
            match stage
            case CreatePropAccount =>
              p.epApiKey.Some? && exists id: nat :: IsNewestActive(w.props, id) && AtCap(w, w.props[id])
            case CreateBrokerAccount =>
              p.epApiKey.Some? && exists id: nat :: IsHedgeBroker(w, id) && AtCap(w, w.brokers[id])
            case _ => false
  {
    match stage
    case CreateKey =>
    case Finalize =>
    case CreatePropAccount =>
      NewestIsNewest(w.props);
      if NewestActive(w.props).Some? { RegistrationRefusedIff(w, w.props[NewestActive(w.props).value]); }
    case CreateBrokerAccount =>
      HedgeBrokerIs(w);
      if HedgeBrokerAccount(w).Some? { RegistrationRefusedIff(w, w.brokers[HedgeBrokerAccount(w).value]); }
  }

  // --------------------------------------------------------------------------- admin

  /** A reprovision: the record's accounts that could be reached are removed and no others, every
      hedge is archived, and the record starts again behind its key, due now. */
  lemma ReprovisionOutcome(w: World, now: int, propReached: bool, brokerReached: bool)
    requires w.provision.Some?
    ensures var t, p := ApplyAll(w, ReprovisionPlan(w, now, propReached, brokerReached)), w.provision.value;
            && |t.remote.accounts| == |w.remote.accounts|
            && (forall i :: 0 <= i < |w.remote.accounts| ==>
                  t.remote.accounts[i] ==
                  if p.epApiKey.Some? && ((propReached && p.epPropAccountId == Some(i))
                                          || (brokerReached && p.epBrokerAccountId == Some(i)))
                  then None else w.remote.accounts[i])
            && |t.hedges| == |w.hedges|
            && (forall i :: 0 <= i < |w.hedges| ==> t.hedges[i] == w.hedges[i].(status := Archived))
            && t.provision == Some(Provision(if p.epApiKey.Some? then KEY_CREATED else PENDING, p.epApiKey, p.epKeyId,
                                             None, None, None, 0, Some(now)))
            && t == w.(hedges := t.hedges, provision := t.provision,
                       remote := w.remote.(accounts := t.remote.accounts))
  {
    var ids := CleanedIds(w.provision.value, propReached, brokerReached);
    var s := ApplyAll(w, Deletes(ids));
    ReprovisionShape(w, now, propReached, brokerReached);
    ApplyAppend(w, Deletes(ids), [ArchiveHedges] + ([ResetProvision(now)] + [Report]));
    DeletesEffect(w, ids);
    PairCut(s, ArchiveHedges, ResetProvision(now), 3);
    assert CutShort(s, [ArchiveHedges] + ([ResetProvision(now)] + [Report]), 3)
           == ApplyAll(s, [ArchiveHedges] + ([ResetProvision(now)] + [Report]));
    forall i: nat
      ensures i in ids <==> w.provision.value.epApiKey.Some?
                            && ((propReached && w.provision.value.epPropAccountId == Some(i))
                                || (brokerReached && w.provision.value.epBrokerAccountId == Some(i)))
    {
    }
  }
}
