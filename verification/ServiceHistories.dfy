/** Histories the service can really have, each from a user without a record, that end where
    a promise fails: hedge and provision apart, a key lost, an admin's reset overwritten, a
    hedge over an account that is gone, an account that outlives a deletion. */
module ServiceHistories {
  import opened Common
  import opened ServiceWorld
  import opened ServiceControl
  import opened ServiceRecovery
  import opened Provisioning
  import opened ProvisioningRecovery
  import opened ProvisioningInvariant
  import opened HedgeSync
  import opened HedgeAccounts
  import opened ServiceOutcomes
  import opened AccountIdentity

  const PROP := Account("1001", "Firm", true, None)
  const NEXT_PROP := Account("1002", "Firm", false, None)
  const BROKER := Account("2001", "Broker", true, None)

  /** One prop and one broker account in the CRM, a platform that takes three accounts. */
  const START := World(None, [PROP], [BROKER], [], Remote([], 3, 0))

  const NEW_RECORD := Provision(PENDING, None, None, None, None, None, 0, Some(0))

  const TRIGGERED := START.(provision := Some(NEW_RECORD))

  /** The record once its key is stored, at each later status. */
  function Record(status: Status, prop: Option<nat>, broker: Option<nat>): Provision {
    Provision(status, Some(0), Some(0), prop, broker, None, 0, None)
  }

  const WITH_KEY := World(Some(Record(KEY_CREATED, None, None)), [PROP], [BROKER], [], Remote([], 3, 1))

  const LISTED_PROP := Some(Identity(PROP))
  const LISTED_BROKER := Some(Identity(BROKER))

  const WITH_PROP :=
    World(Some(Record(PROP_ACCOUNT_CREATED, Some(0), None)), [PROP.(epAccountId := Some(0))], [BROKER], [],
          Remote([LISTED_PROP], 3, 1))

  const WITH_BROKER :=
    World(Some(Record(BROKER_ACCOUNT_CREATED, Some(0), Some(1))), [PROP.(epAccountId := Some(0))],
          [BROKER.(epAccountId := Some(1))], [], Remote([LISTED_PROP, LISTED_BROKER], 3, 1))

  const PROVISIONED := WITH_BROKER.(provision := Some(Record(COMPLETED, Some(0), Some(1))),
                                    hedges := [Hedge(0, 0, 0, 1, Active)])

  lemma KeyStage(max: nat)
    ensures Unbroken(TRIGGERED, 0, max) == Unbroken(WITH_KEY, 0, max)
  {
    ApplyOne(TRIGGERED, EpNewKey);
    PlanEnds(TRIGGERED, NEW_RECORD, CreateKey);
    UnbrokenUnfolds(TRIGGERED, NEW_RECORD, CreateKey, 0, max);
  }

  lemma PropPlan()
    ensures PropWork(WITH_KEY, WITH_KEY.provision.value)
            == Ok(Work([EpCreate(Identity(PROP))] + [PropEp(0, 0)], GrantProp(0)))
  {
    assert FindAccount([], Identity(PROP)) == None && LiveCount([]) == 0;
    assert NewestActive([PROP]) == Some(0);
    assert Ensure(WITH_KEY.remote, Identity(PROP)) == Ok(([EpCreate(Identity(PROP))], 0));
  }

  const PROP_LISTED := WITH_KEY.(props := [PROP.(epAccountId := Some(0))], remote := Remote([LISTED_PROP], 3, 1))

  lemma PropWrites()
    ensures ApplyAll(WITH_KEY, [EpCreate(Identity(PROP))] + [PropEp(0, 0)]) == PROP_LISTED
  {
    var listed := WITH_KEY.(remote := Remote([LISTED_PROP], 3, 1));
    RegistrationCuts(WITH_KEY, [EpCreate(Identity(PROP))], PropEp(0, 0), 0);
    ApplyOne(WITH_KEY, EpCreate(Identity(PROP)));
    assert Apply(WITH_KEY, EpCreate(Identity(PROP))) == listed;
    assert Apply(listed, PropEp(0, 0)) == PROP_LISTED;
  }

  lemma PropStored()
    ensures Apply(PROP_LISTED, Transition(PROP_ACCOUNT_CREATED, GrantProp(0))) == WITH_PROP
  {
  }

  lemma PropStage(max: nat)
    ensures Unbroken(WITH_KEY, 0, max) == Unbroken(WITH_PROP, 0, max)
  {
    PropPlan();
    PropWrites();
    PropStored();
    PlanEnds(WITH_KEY, WITH_KEY.provision.value, CreatePropAccount);
    UnbrokenUnfolds(WITH_KEY, WITH_KEY.provision.value, CreatePropAccount, 0, max);
  }

  lemma BrokerPlan()
    ensures BrokerWork(WITH_PROP, WITH_PROP.provision.value)
            == Ok(Work([EpCreate(Identity(BROKER))] + [BrokerEp(0, 1)], GrantBroker(1)))
  {
    var accounts := [LISTED_PROP];
    assert accounts[..0] == [];
    assert FindAccount(accounts[..0], Identity(BROKER)) == None && LiveCount(accounts[..0]) == 0;
    assert LISTED_PROP.value.login == "1001" && Identity(BROKER).login == "2001" && "1001"[0] != "2001"[0];
    assert FindAccount(accounts, Identity(BROKER)) == None && LiveCount(accounts) == 1;
    assert NewestActive([BROKER]) == Some(0);
    assert HedgeBrokerAccount(WITH_PROP) == Some(0);
    assert Ensure(WITH_PROP.remote, Identity(BROKER)) == Ok(([EpCreate(Identity(BROKER))], 1));
  }

  const BROKER_LISTED :=
    WITH_PROP.(brokers := [BROKER.(epAccountId := Some(1))], remote := Remote([LISTED_PROP, LISTED_BROKER], 3, 1))

  lemma BrokerWrites()
    ensures ApplyAll(WITH_PROP, [EpCreate(Identity(BROKER))] + [BrokerEp(0, 1)]) == BROKER_LISTED
  {
    var listed := WITH_PROP.(remote := Remote([LISTED_PROP, LISTED_BROKER], 3, 1));
    RegistrationCuts(WITH_PROP, [EpCreate(Identity(BROKER))], BrokerEp(0, 1), 0);
    ApplyOne(WITH_PROP, EpCreate(Identity(BROKER)));
    assert [LISTED_PROP] + [LISTED_BROKER] == [LISTED_PROP, LISTED_BROKER];
    assert Apply(WITH_PROP, EpCreate(Identity(BROKER))) == listed;
    assert Apply(listed, BrokerEp(0, 1)) == BROKER_LISTED;
  }

  lemma BrokerStored()
    ensures Apply(BROKER_LISTED, Transition(BROKER_ACCOUNT_CREATED, GrantBroker(1))) == WITH_BROKER
  {
  }

  lemma BrokerStage(max: nat)
    ensures Unbroken(WITH_PROP, 0, max) == Unbroken(WITH_BROKER, 0, max)
  {
    BrokerPlan();
    BrokerWrites();
    BrokerStored();
    PlanEnds(WITH_PROP, WITH_PROP.provision.value, CreateBrokerAccount);
    UnbrokenUnfolds(WITH_PROP, WITH_PROP.provision.value, CreateBrokerAccount, 0, max);
  }

  lemma FinalStage(max: nat)
    ensures Unbroken(WITH_BROKER, 0, max) == PROVISIONED
  {
    var p, x := WITH_BROKER.provision.value, Hedge(0, 0, 0, 1, Active);
    assert FindByEp(WITH_BROKER.props[..0], 0) == None && FindByEp(WITH_BROKER.brokers[..0], 1) == None;
    var hedges := NewHedgeTakesOver(WITH_BROKER, x, 0);
    PlanEnds(WITH_BROKER, p, Finalize);
    UnbrokenUnfolds(WITH_BROKER, p, Finalize, 0, max);
  }

  lemma Provisioned(max: nat)
    ensures Unbroken(TRIGGERED, 0, max) == PROVISIONED
    ensures Process(TRIGGERED, 16, Dies, 0, max).world == PROVISIONED
  {
    KeyStage(max);
    PropStage(max);
    BrokerStage(max);
    FinalStage(max);
    EnoughWrites(TRIGGERED, 16, Dies, 0, max);
  }

  // ----------------------------------------------------------- hedge and provision apart

  /** The client adds a prop account. */
  const WITH_NEXT := PROVISIONED.(props := [PROP.(epAccountId := Some(0)), NEXT_PROP])

  lemma RotationPlanned()
    ensures Apart(WITH_NEXT, PropRotation(1), 4) && NewEp(WITH_NEXT, PropRotation(1)) == 2
    ensures InSync(WITH_NEXT) && HasKey(WITH_NEXT)
  {
    var accounts := [LISTED_PROP, LISTED_BROKER];
    assert accounts[..1] == [LISTED_PROP] && accounts[..1][..0] == [];
    assert LISTED_PROP.value.login[3] == '1' && LISTED_BROKER.value.login[0] == '2'
           && Identity(NEXT_PROP).login[3] == '2';
    assert Identity(NEXT_PROP).login[0] == '1';
    assert FindAccount(accounts, Identity(NEXT_PROP)) == None;
    assert LiveCount(accounts[..1][..0]) == 0 && LiveCount(accounts[..1]) == 1 && LiveCount(accounts) == 2;
    assert Ensure(WITH_NEXT.remote, Identity(NEXT_PROP)) == Ok(([EpCreate(Identity(NEXT_PROP))], 2));
    assert |RotationTail(1, 2, Some(0), Some(0))| == 5;
  }

  /** Trigger, provisioning, a new prop account, and a rotation that stops between its last
      two writes: hedge and provision are apart, and a deletion that cannot list the accounts
      does not recover from every interruption. */
  lemma SyncCanBreak(max: nat) returns (events: seq<Event>)
    requires max >= 1
    ensures var w := RunEvents(START, events, max);
            && HasKey(w) && !InSync(w) && !FallbackAgrees(w) && !AlwaysRecovers(w, DeleteService(false))
  {
    var e1, e2 := Triggered(true, 0), Worked(16, Dies, 0);
    var e3, e4 := Edited(WITH_NEXT.props, WITH_NEXT.brokers), Commanded(PropRotation(1), 4);
    events := [e1, e2, e3, e4];
    Provisioned(max);
    assert StepEvent(START, e1, max) == TRIGGERED && StepEvent(TRIGGERED, e2, max) == PROVISIONED;
    assert StepEvent(PROVISIONED, e3, max) == WITH_NEXT;
    FourEvents(START, e1, e2, e3, e4, max);
    RotationPlanned();
    ApartRotationBreaksFallback(WITH_NEXT, 1, 4);
    EveryHistoryKeepsInv([PROP], [BROKER], START.remote, events, max);
    var w := RunEvents(START, events, max);
    EventsKeepInv(WITH_NEXT, [], max);
    UnlistedDeletionRecoversIff(w);
  }

  lemma FourEvents(w: World, a: Event, b: Event, c: Event, d: Event, max: nat)
    ensures RunEvents(w, [a, b, c, d], max)
            == StepEvent(StepEvent(StepEvent(StepEvent(w, a, max), b, max), c, max), d, max)
  {
    var w1 := StepEvent(w, a, max);
    var w2 := StepEvent(w1, b, max);
    var w3 := StepEvent(w2, c, max);
    assert [a, b, c, d][1..] == [b, c, d] && [b, c, d][1..] == [c, d] && [c, d][1..] == [d];
    assert RunEvents(w, [a, b, c, d], max) == RunEvents(w1, [b, c, d], max);
    assert RunEvents(w1, [b, c, d], max) == RunEvents(w2, [c, d], max);
    assert RunEvents(w2, [c, d], max) == RunEvents(w3, [d], max);
    OneEvent(w3, d, max);
  }

  // ----------------------------------------------------- a lost key, an overwritten reset

  lemma OneEvent(w: World, e: Event, max: nat)
    ensures RunEvents(w, [e], max) == StepEvent(w, e, max)
  {
    assert [e][1..] == [];
  }

  /** A process that dies between issuing the first key and storing it: the record, new and
      able to complete, never comes to the state it would have come to. */
  lemma KeysCanBeLost(max: nat)
    requires max >= 1
    ensures var w := RunEvents(START, [Triggered(true, 0)], max);
            var s := RunEvents(START, [Triggered(true, 0), Worked(1, Dies, 0)], max);
            && KeyLost(w, 1)
            && StatusOf(Unbroken(w, 0, max)) == COMPLETED
            && CurrentView(Unbroken(s, 0, max)) != CurrentView(Unbroken(w, 0, max))
  {
    OneEvent(START, Triggered(true, 0), max);
    Provisioned(max);
    RunRecoversIff(TRIGGERED, 1, Dies, 0, 0, 0, max);
    StageCut(TRIGGERED, NEW_RECORD, CreateKey, 1);
    assert [Triggered(true, 0), Worked(1, Dies, 0)][1..] == [Worked(1, Dies, 0)];
    OneEvent(TRIGGERED, Worked(1, Dies, 0), max);
  }

  /** On a new record whose first step fails, a retry or a reprovision that lands in between
      is overwritten by the failure write. */
  lemma ResetsCanBeOverwritten(at: int, now: int, max: nat)
    ensures var w := RunEvents(START, [Triggered(true, 0)], max);
            var retried, reset := Retry(w, at), Apply(w, ResetProvision(at));
            && w.provision == Some(NEW_RECORD)
            && HandleFailure(retried, NEW_RECORD, CreateKey, false, now, max).world != retried
            && HandleFailure(reset, NEW_RECORD, CreateKey, false, now, max).world != reset
  {
    OneEvent(START, Triggered(true, 0), max);
    RetrySurvivesIff(TRIGGERED, NEW_RECORD, CreateKey, false, at, now, max);
    ReprovisionSurvivesIff(TRIGGERED, NEW_RECORD, CreateKey, false, at, now, max);
  }

  // --------------------------------------------- accounts that are gone, and that stay

  const NEVER_REGISTERED := Account("2002", "Broker", false, None)
  const NEXT_BROKER := Account("2003", "Broker", true, None)

  /** The client adds a broker that is never registered, and replaces it by another. */
  const WITH_REPLACED := PROVISIONED.(brokers := [BROKER.(epAccountId := Some(1)), NEVER_REGISTERED, NEXT_BROKER])

  lemma NextBrokerIsNew()
    ensures FindAccount(WITH_REPLACED.remote.accounts, Identity(NEXT_BROKER)).None?
    ensures LiveCount(WITH_REPLACED.remote.accounts) == 2
    ensures Ensure(WITH_REPLACED.remote, Identity(NEXT_BROKER)) == Ok(([EpCreate(Identity(NEXT_BROKER))], 2))
  {
    var accounts := [LISTED_PROP, LISTED_BROKER];
    assert accounts[..1] == [LISTED_PROP] && accounts[..1][..0] == [];
    assert LISTED_PROP.value.login[0] == '1' && Identity(NEXT_BROKER).login[0] == '2';
    assert LISTED_BROKER.value.login[3] == '1' && Identity(NEXT_BROKER).login[3] == '3';
    assert FindAccount(accounts, Identity(NEXT_BROKER)) == None;
    assert LiveCount(accounts[..1][..0]) == 0 && LiveCount(accounts[..1]) == 1 && LiveCount(accounts) == 2;
  }

  lemma AllWrites(w: World, c: Command, left: nat)
    requires CommandPlan(w, c).Ok? && |CommandPlan(w, c).value| <= left
    ensures RunCut(w, c, left) == RunWhole(w, c)
  {
  }

  lemma PlanLengths(w: World)
    requires CommandPlan(w, BrokerReplace(2, Some(1))).Ok? && CommandPlan(w, BrokerAdd(2)).Ok?
    ensures |CommandPlan(w, BrokerReplace(2, Some(1))).value| <= 6 && |CommandPlan(w, BrokerAdd(2)).value| <= 3
  {
  }

  lemma ToReplaced(c: Command, d: Command, left: nat, more: nat, max: nat)
    ensures var events := [Triggered(true, 0), Worked(16, Dies, 0), Edited(WITH_REPLACED.props, WITH_REPLACED.brokers),
                           Commanded(c, left), Commanded(d, more)];
            RunEvents(START, events, max) == RunCut(RunCut(WITH_REPLACED, c, left), d, more)
  {
    var a, b, e := Triggered(true, 0), Worked(16, Dies, 0), Edited(WITH_REPLACED.props, WITH_REPLACED.brokers);
    Provisioned(max);
    assert StepEvent(START, a, max) == TRIGGERED && StepEvent(TRIGGERED, b, max) == PROVISIONED;
    assert StepEvent(PROVISIONED, e, max) == WITH_REPLACED;
    assert [a, b, e, Commanded(c, left), Commanded(d, more)][1..] == [b, e, Commanded(c, left), Commanded(d, more)];
    FourEvents(TRIGGERED, b, e, Commanded(c, left), Commanded(d, more), max);
  }

  /** Trigger, provisioning, two more brokers, and two commands that run to their end: hedge
      and provision agree, and the account they name is gone. */
  lemma HedgesCanDangle(max: nat) returns (events: seq<Event>)
    ensures var w := RunEvents(START, events, max); InSync(w) && !Anchored(w)
  {
    var c, d := BrokerReplace(2, Some(1)), SetHedgeBroker(0);
    events := [Triggered(true, 0), Worked(16, Dies, 0), Edited(WITH_REPLACED.props, WITH_REPLACED.brokers),
               Commanded(c, 6), Commanded(d, 3)];
    ToReplaced(c, d, 6, 3, max);
    NextBrokerIsNew();
    PlanLengths(WITH_REPLACED);
    MisfiredReplacement(WITH_REPLACED, 2, 1, 0);
    AllWrites(WITH_REPLACED, c, 6);
    AllWrites(RunWhole(WITH_REPLACED, c), d, 3);
  }

  /** An addition leaves hedges and provision alone, so the deletion's pair is the same. */
  lemma AddWhenPlanned(w: World, b: nat)
    requires CommandPlan(w, BrokerAdd(b)).Ok?
    ensures var t := RunWhole(w, BrokerAdd(b)); t.provision == w.provision && t.hedges == w.hedges
  {
    QuietWrites(w, CommandPlan(w, BrokerAdd(b)).value);
  }

  lemma AddedAndDeleted()
    ensures RunCut(RunCut(WITH_REPLACED, BrokerAdd(2), 3), DeleteService(false), 7)
            == RunWhole(RunWhole(WITH_REPLACED, BrokerAdd(2)), DeleteService(false))
    ensures CommandPlan(WITH_REPLACED, BrokerAdd(2)).Ok?
  {
    NextBrokerIsNew();
    PlanLengths(WITH_REPLACED);
    AllWrites(WITH_REPLACED, BrokerAdd(2), 3);
    AddWhenPlanned(WITH_REPLACED, 2);
    AllWrites(RunWhole(WITH_REPLACED, BrokerAdd(2)), DeleteService(false), 7);
  }

  /** Trigger, provisioning, a broker added and registered, and a deletion that runs to its end
      without the listing: the added account is still registered, and no row names it. */
  lemma AccountsCanOutliveDeletion(max: nat) returns (events: seq<Event>)
    ensures var w := RunEvents(START, events, max);
            && w.provision.Some? && w.provision.value.status == DECOMMISSIONED && !NoneLeft(w)
            && forall i :: 0 <= i < |w.brokers| ==> w.brokers[i].epAccountId.None?
  {
    var c, d := BrokerAdd(2), DeleteService(false);
    events := [Triggered(true, 0), Worked(16, Dies, 0), Edited(WITH_REPLACED.props, WITH_REPLACED.brokers),
               Commanded(c, 3), Commanded(d, 7)];
    ToReplaced(c, d, 3, 7, max);
    AddedAndDeleted();
    NextBrokerIsNew();
    AddedBrokerOutlivesDeletion(WITH_REPLACED, 2);
  }

  // ------------------------------------------------------------- two rows, one account

  /** The client renames the registered broker and adds one under its old login. */
  const RENAMED := Account("2009", "Broker", true, Some(1))
  const WITH_RENAMED := PROVISIONED.(brokers := [RENAMED, BROKER])

  lemma OldLoginIsFound()
    ensures FindAccount(WITH_RENAMED.remote.accounts, Identity(BROKER)) == Some(1)
  {
    var accounts := [LISTED_PROP, LISTED_BROKER];
    assert LISTED_PROP.value.login[0] == '1' && Identity(BROKER).login[0] == '2';
    assert accounts[1] == Some(Identity(BROKER)) && accounts[0] != Some(Identity(BROKER));
  }

  /** Trigger, provisioning, that edit, and the addition of the new row, all of them through to
      their end: two broker rows of different logins share one registered account. */
  lemma RenamesCanAlias(max: nat) returns (events: seq<Event>)
    ensures var w := RunEvents(START, events, max);
            && Faithful(START) && Screened(START, events, max) && !Faithful(w)
            && |w.brokers| == 2 && w.brokers[0].epAccountId == w.brokers[1].epAccountId == Some(1)
            && Listed(w.remote.accounts, 1) && w.brokers[0].login != w.brokers[1].login
  {
    var e1, e2 := Triggered(true, 0), Worked(16, Dies, 0);
    var e3, e4 := Edited(WITH_RENAMED.props, WITH_RENAMED.brokers), Commanded(BrokerAdd(1), 2);
    events := [e1, e2, e3, e4];
    Provisioned(max);
    assert StepEvent(START, e1, max) == TRIGGERED && StepEvent(TRIGGERED, e2, max) == PROVISIONED;
    assert StepEvent(PROVISIONED, e3, max) == WITH_RENAMED;
    FourEvents(START, e1, e2, e3, e4, max);
    OldLoginIsFound();
    AddWhenRegistered(WITH_RENAMED, 1, 1);
    AllWrites(WITH_RENAMED, BrokerAdd(1), 2);
    assert RENAMED.login[3] == '9' && BROKER.login[3] == '1';
    EditsInTurn(e1, e2, e3, e4, max);
    var w := RunEvents(START, events, max);
    assert w.brokers[0] == RENAMED && !Fitting(w.remote.accounts, 1, w.brokers[0]);
  }

  lemma EditsInTurn(a: Event, b: Event, c: Event, d: Event, max: nat)
    requires !a.Edited? && !b.Edited? && !d.Edited?
    requires EditsOnScreen(StepEvent(StepEvent(START, a, max), b, max), c)
    ensures Screened(START, [a, b, c, d], max)
  {
    var w1 := StepEvent(START, a, max);
    var w2 := StepEvent(w1, b, max);
    var w3 := StepEvent(w2, c, max);
    assert [a, b, c, d][1..] == [b, c, d] && [b, c, d][1..] == [c, d] && [c, d][1..] == [d] && [d][1..] == [];
    assert Screened(w3, [d], max) && Screened(w2, [c, d], max) && Screened(w1, [b, c, d], max);
  }
}
