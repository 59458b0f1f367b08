/** Whose account an id is. Rows and the live hedge name platform accounts by id; over whole
    histories an id that is still registered carries the login and the server of every row
    that stores it, until a client renames such a row. */
module AccountIdentity {
  import opened Common
  import opened ServiceWorld
  import opened ServiceControl
  import opened ServiceRecovery
  import opened Provisioning
  import opened ProvisioningInvariant
  import opened ProvisioningRecovery
  import opened HedgeSync
  import opened HedgeAccounts
  import opened ServiceOutcomes

  // ---------------------------------------------------------------- what is to be kept

  /** An id that may be stored in this row: one that was given out, and if it is still
      registered, under the row's own login and server. */
  predicate Fitting(accounts: seq<Option<EpAccount>>, e: nat, row: Account) {
    e < |accounts| && (accounts[e].Some? ==> Names(accounts[e], row))
  }

  ghost predicate RowsFit(accounts: seq<Option<EpAccount>>, rows: seq<Account>) {
    forall i :: 0 <= i < |rows| && rows[i].epAccountId.Some? ==> Fitting(accounts, rows[i].epAccountId.value, rows[i])
  }

  predicate SideFits(accounts: seq<Option<EpAccount>>, e: nat, rows: seq<Account>, id: nat) {
    id < |rows| && Fitting(accounts, e, rows[id])
  }

  predicate HedgeFits(w: World, x: Hedge) {
    && SideFits(w.remote.accounts, x.epPropAccountId, w.props, x.propAccountId)
    && SideFits(w.remote.accounts, x.epBrokerAccountId, w.brokers, x.brokerAccountId)
  }

  /** Every stored id is fitting, and a hedge that is not archived names the rows whose accounts
      it trades on. */
  ghost predicate Faithful(w: World) {
    && RowsFit(w.remote.accounts, w.props) && RowsFit(w.remote.accounts, w.brokers)
    && forall h :: 0 <= h < |w.hedges| && w.hedges[h].status != Archived ==> HedgeFits(w, w.hedges[h])
  }

  /** What it comes to: rows that hold the same registered account have the same login and the
      same server, be they prop or broker rows. */
  lemma SharedAccountSharedName(w: World, i: nat, j: nat)
    requires Faithful(w) && i < |w.props + w.brokers| && j < |w.props + w.brokers|
    requires var rows := w.props + w.brokers;
             && rows[i].epAccountId.Some? && rows[i].epAccountId == rows[j].epAccountId
             && Listed(w.remote.accounts, rows[i].epAccountId.value)
    ensures var rows := w.props + w.brokers; rows[i].login == rows[j].login && rows[i].server == rows[j].server
  {
    RowsFitAppend(w.remote.accounts, w.props, w.brokers);
  }

  lemma RowsFitAppend(accounts: seq<Option<EpAccount>>, a: seq<Account>, b: seq<Account>)
    requires RowsFit(accounts, a) && RowsFit(accounts, b)
    ensures RowsFit(accounts, a + b)
  {
  }

  /** And a hedge over a prop row and a broker row that differ in login or server never trades one
      account against itself. */
  lemma HedgeTradesTwoAccounts(w: World, h: nat)
    requires Faithful(w) && h < |w.hedges| && w.hedges[h].status != Archived
    requires Listed(w.remote.accounts, w.hedges[h].epPropAccountId)
    ensures w.hedges[h].propAccountId < |w.props| && w.hedges[h].brokerAccountId < |w.brokers|
    ensures var prop, broker := w.props[w.hedges[h].propAccountId], w.brokers[w.hedges[h].brokerAccountId];
            prop.login != broker.login || prop.server != broker.server ==>
              w.hedges[h].epPropAccountId != w.hedges[h].epBrokerAccountId
  {
    assert HedgeFits(w, w.hedges[h]);
  }

  // -------------------------------------------------------------------- single writes

  predicate Fits(w: World, x: Write) {
    match x
    case PropEp(id, e) => id < |w.props| ==> Fitting(w.remote.accounts, e, w.props[id])
    case BrokerEp(id, e) => id < |w.brokers| ==> Fitting(w.remote.accounts, e, w.brokers[id])
    case HedgeProp(_, id, e) => SideFits(w.remote.accounts, e, w.props, id)
    case HedgeBroker(_, id, e) => SideFits(w.remote.accounts, e, w.brokers, id)
    case SetHedgeStatus(h, to) => to == Archived || (h < |w.hedges| ==> w.hedges[h].status != Archived)
    case NewHedge(x) => HedgeFits(w, x)
    case _ => true
  }

  /** Registering and removing accounts leaves what fits fitting. */
  predicate Follows(before: seq<Option<EpAccount>>, after: seq<Option<EpAccount>>) {
    |before| <= |after| && forall i :: 0 <= i < |before| ==> after[i] == before[i] || after[i].None?
  }

  lemma FaithfulFollows(w: World, s: World)
    requires Faithful(w) && s == w.(remote := s.remote) && Follows(w.remote.accounts, s.remote.accounts)
    ensures Faithful(s)
  {
    forall h | 0 <= h < |w.hedges| && w.hedges[h].status != Archived
      ensures HedgeFits(s, s.hedges[h])
    {
      assert HedgeFits(w, w.hedges[h]);
    }
  }

  /** Rows that differ in the stored ids only carry the same names. */
  predicate SameNames(a: seq<Account>, b: seq<Account>) {
    |a| == |b| && forall i :: 0 <= i < |a| ==> a[i].login == b[i].login && a[i].server == b[i].server
  }

  lemma FaithfulRows(w: World, s: World)
    requires Faithful(w) && s == w.(props := s.props, brokers := s.brokers)
    requires SameNames(w.props, s.props) && SameNames(w.brokers, s.brokers)
    requires RowsFit(w.remote.accounts, s.props) && RowsFit(w.remote.accounts, s.brokers)
    ensures Faithful(s)
  {
    forall h | 0 <= h < |w.hedges| && w.hedges[h].status != Archived
      ensures HedgeFits(s, s.hedges[h])
    {
      assert HedgeFits(w, w.hedges[h]);
    }
  }

  lemma WriteKeepsFaithful(w: World, x: Write)
    requires Faithful(w) && Fits(w, x)
    ensures Faithful(Apply(w, x))
  {
    var s := Apply(w, x);
    match x
    case EpCreate(_) => FaithfulFollows(w, s);
    case EpDelete(_) => FaithfulFollows(w, s);
    case EpNewKey => FaithfulFollows(w, s);
    case PropEp(_, _) => FaithfulRows(w, s);
    case BrokerEp(_, _) => FaithfulRows(w, s);
    case ClearPropEps => FaithfulRows(w, s);
    case ClearBrokerEps => FaithfulRows(w, s);
    case _ => HedgeWriteKeepsFaithful(w, x);
  }

  lemma HedgeWriteKeepsFaithful(w: World, x: Write)
    requires Faithful(w) && Fits(w, x)
    requires Apply(w, x).props == w.props && Apply(w, x).brokers == w.brokers && Apply(w, x).remote == w.remote
    ensures Faithful(Apply(w, x))
  {
    var s := Apply(w, x);
    forall h | 0 <= h < |s.hedges| && s.hedges[h].status != Archived
      ensures HedgeFits(s, s.hedges[h])
    {
      if h < |w.hedges| && w.hedges[h].status != Archived { assert HedgeFits(w, w.hedges[h]); }
    }
  }

  ghost predicate AllFit(w: World, xs: seq<Write>)
    decreases |xs|
  {
    xs != [] ==> Fits(w, xs[0]) && AllFit(Apply(w, xs[0]), xs[1..])
  }

  lemma {:induction false} CutKeepsFaithful(w: World, xs: seq<Write>, k: nat)
    requires Faithful(w) && AllFit(w, xs)
    ensures Faithful(CutShort(w, xs, k))
    decreases |xs|
  {
    if xs != [] && k > 0 {
      WriteKeepsFaithful(w, xs[0]);
      CutKeepsFaithful(Apply(w, xs[0]), xs[1..], k - 1);
      assert [xs[0]] + xs[1..] == xs;
      CutSplit(w, [xs[0]], xs[1..], k);
      ApplyOne(w, xs[0]);
    }
  }

  lemma {:induction false} FitAppend(w: World, a: seq<Write>, b: seq<Write>)
    requires AllFit(w, a) && AllFit(ApplyAll(w, a), b)
    ensures AllFit(w, a + b)
    decreases |a|
  {
    if a == [] {
      assert a + b == b;
    } else {
      FitAppend(Apply(w, a[0]), a[1..], b);
      assert (a + b)[1..] == a[1..] + b;
    }
  }

  lemma FitFirst(w: World, x: Write, rest: seq<Write>)
    requires Fits(w, x) && AllFit(Apply(w, x), rest)
    ensures AllFit(w, [x] + rest)
  {
    assert ([x] + rest)[1..] == rest;
  }

  /** Writes that fit anywhere. */
  predicate Plain(x: Write) {
    !x.PropEp? && !x.BrokerEp? && !x.HedgeProp? && !x.HedgeBroker? && !x.NewHedge?
    && (x.SetHedgeStatus? ==> x.status == Archived)
  }

  lemma {:induction false} PlainWritesFit(w: World, xs: seq<Write>)
    requires forall i :: 0 <= i < |xs| ==> Plain(xs[i])
    ensures AllFit(w, xs)
    decreases |xs|
  {
    if xs != [] { PlainWritesFit(Apply(w, xs[0]), xs[1..]); }
  }

  // ------------------------------------------------------------------------- commands

  /** Removing the account of before leaves the new one in place. */
  lemma RemovalFits(w: World, previous: Option<nat>, e: nat, row: Account, rest: seq<Write>)
    requires ListedAs(w.remote.accounts, e, row)
    requires forall accounts :: ListedAs(accounts, e, row) ==> AllFit(WithAccounts(w, accounts), rest)
    ensures AllFit(w, DeleteOld(previous, e) + rest)
  {
    DeleteOldEffect(w, previous, e);
    PlainWritesFit(w, DeleteOld(previous, e));
    assert WithAccounts(w, w.remote.accounts) == w;
    FitAppend(w, DeleteOld(previous, e), rest);
  }

  /** The last writes of a rotation, over accounts that list the new row as e. */
  lemma RotationEndFits(w: World, p: nat, e: nat)
    requires p < |w.props| && ListedAs(w.remote.accounts, e, w.props[p])
    ensures AllFit(w, [ProvisionProp(e)] + (WriteHedge(LiveHedge(w.hedges), (h: nat) => HedgeProp(h, p, e)) + [Report]))
  {
    var last := WriteHedge(LiveHedge(w.hedges), (h: nat) => HedgeProp(h, p, e)) + [Report];
    var s := Apply(w, ProvisionProp(e));
    match LiveHedge(w.hedges) {
      case None => PlainWritesFit(s, last);
      case Some(h) =>
        PlainWritesFit(Apply(s, HedgeProp(h, p, e)), [Report]);
        FitFirst(s, HedgeProp(h, p, e), [Report]);
    }
    FitFirst(w, ProvisionProp(e), last);
  }

  lemma RotationFits(w: World, p: nat)
    requires CommandPlan(w, PropRotation(p)).Ok?
    ensures AllFit(w, CommandPlan(w, PropRotation(p)).value)
  {
    var (create, e) := Ensure(w.remote, Identity(w.props[p])).value;
    var previous := w.provision.value.epPropAccountId;
    EnsureRegisters(w, w.props[p]);
    var s1 := ApplyAll(w, create);
    var s2 := Apply(s1, PropEp(p, e));
    var end := [ProvisionProp(e)] + (WriteHedge(LiveHedge(w.hedges), (h: nat) => HedgeProp(h, p, e)) + [Report]);
    forall accounts | ListedAs(accounts, e, w.props[p])
      ensures AllFit(WithAccounts(s2, accounts), end)
    {
      RotationEndFits(WithAccounts(s2, accounts), p, e);
    }
    RemovalFits(s2, previous, e, w.props[p], end);
    FitFirst(s1, PropEp(p, e), DeleteOld(previous, e) + end);
    PlainWritesFit(w, create);
    FitAppend(w, create, [PropEp(p, e)] + (DeleteOld(previous, e) + end));
  }

  lemma ReplaceEndFits(w: World, b: nat, e: nat)
    requires b < |w.brokers| && ListedAs(w.remote.accounts, e, w.brokers[b])
    ensures AllFit(w, [ProvisionBroker(e)]
                      + (WriteHedge(LiveHedge(w.hedges), (h: nat) => HedgeBroker(h, b, e)) + [Report]))
  {
    var last := WriteHedge(LiveHedge(w.hedges), (h: nat) => HedgeBroker(h, b, e)) + [Report];
    var s := Apply(w, ProvisionBroker(e));
    match LiveHedge(w.hedges) {
      case None => PlainWritesFit(s, last);
      case Some(h) =>
        PlainWritesFit(Apply(s, HedgeBroker(h, b, e)), [Report]);
        FitFirst(s, HedgeBroker(h, b, e), [Report]);
    }
    FitFirst(w, ProvisionBroker(e), last);
  }

  lemma ReplaceFits(w: World, b: nat, replaced: Option<nat>)
    requires CommandPlan(w, BrokerReplace(b, replaced)).Ok?
    ensures AllFit(w, CommandPlan(w, BrokerReplace(b, replaced)).value)
  {
    var (create, e) := Ensure(w.remote, Identity(w.brokers[b])).value;
    var previous := ReplacedEp(w, b, replaced, e);
    EnsureRegisters(w, w.brokers[b]);
    var s1 := ApplyAll(w, create);
    var s2 := Apply(s1, BrokerEp(b, e));
    var end := [ProvisionBroker(e)] + (WriteHedge(LiveHedge(w.hedges), (h: nat) => HedgeBroker(h, b, e)) + [Report]);
    forall accounts | ListedAs(accounts, e, w.brokers[b])
      ensures AllFit(WithAccounts(s2, accounts), end)
    {
      ReplaceEndFits(WithAccounts(s2, accounts), b, e);
    }
    RemovalFits(s2, previous, e, w.brokers[b], end);
    FitFirst(s1, BrokerEp(b, e), DeleteOld(previous, e) + end);
    PlainWritesFit(w, create);
    FitAppend(w, create, [BrokerEp(b, e)] + (DeleteOld(previous, e) + end));
  }

  /** Registering a row and storing its id, and then writes that fit anywhere. */
  lemma StoringFits(w: World, row: Account, store: Write, rest: seq<Write>)
    requires Ensure(w.remote, Identity(row)).Ok? && forall i :: 0 <= i < |rest| ==> Plain(rest[i])
    requires var e := Ensure(w.remote, Identity(row)).value.1;
             || (store.PropEp? && store.propId < |w.props| && w.props[store.propId] == row && store.epId == e)
             || (store.BrokerEp? && store.brokerId < |w.brokers| && w.brokers[store.brokerId] == row && store.epId == e)
    ensures AllFit(w, Ensure(w.remote, Identity(row)).value.0 + ([store] + rest))
  {
    var create := Ensure(w.remote, Identity(row)).value.0;
    var s := ApplyAll(w, create);
    EnsureRegisters(w, row);
    PlainWritesFit(Apply(s, store), rest);
    FitFirst(s, store, rest);
    PlainWritesFit(w, create);
    FitAppend(w, create, [store] + rest);
  }

  lemma SelectionFits(w: World, b: nat)
    requires Faithful(w) && CommandPlan(w, SetHedgeBroker(b)).Ok?
    ensures AllFit(w, CommandPlan(w, SetHedgeBroker(b)).value)
  {
    var h, e := LiveHedge(w.hedges).value, w.brokers[b].epAccountId.value;
    PlainWritesFit(Apply(w, HedgeBroker(h, b, e)), [ProvisionBroker(e)] + [Report]);
    FitFirst(w, HedgeBroker(h, b, e), [ProvisionBroker(e)] + [Report]);
  }

  lemma StatusFits(w: World, h: nat, to: HedgeStatus)
    requires LiveHedge(w.hedges) == Some(h)
    ensures AllFit(w, [SetHedgeStatus(h, to), Report])
  {
    PlainWritesFit(Apply(w, SetHedgeStatus(h, to)), [Report]);
    FitFirst(w, SetHedgeStatus(h, to), [Report]);
    assert [SetHedgeStatus(h, to)] + [Report] == [SetHedgeStatus(h, to), Report];
  }

  lemma CommandFits(w: World, c: Command)
    requires Faithful(w) && CommandPlan(w, c).Ok?
    ensures AllFit(w, CommandPlan(w, c).value)
  {
    match c
    case PropRotation(p) => RotationFits(w, p);
    case BrokerReplace(b, replaced) => ReplaceFits(w, b, replaced);
    case BrokerAdd(b) =>
      StoringFits(w, w.brokers[b], BrokerEp(b, Ensure(w.remote, Identity(w.brokers[b])).value.1), [Report]);
    case SetHedgeBroker(b) => SelectionFits(w, b);
    case DeleteService(_) => PlainWritesFit(w, CommandPlan(w, c).value);
    case Start => StatusFits(w, LiveHedge(w.hedges).value, Active);
    case Stop(entitled) =>
      if entitled { PlainWritesFit(w, [Report]); } else { StatusFits(w, LiveHedge(w.hedges).value, Paused); }
  }

  /** So after any command that runs to its end, rows that differ in login or server do not share
      a registered account, neither prop nor broker rows, if none did before. */
  lemma WholeCommandSharesNothing(w: World, c: Command, i: nat, j: nat)
    requires Faithful(w) && CommandPlan(w, c).Ok?
    requires var rows := RunWhole(w, c).props + RunWhole(w, c).brokers;
             && i < |rows| && j < |rows| && (rows[i].login != rows[j].login || rows[i].server != rows[j].server)
             && rows[i].epAccountId.Some? && Listed(RunWhole(w, c).remote.accounts, rows[i].epAccountId.value)
    ensures var rows := RunWhole(w, c).props + RunWhole(w, c).brokers; rows[i].epAccountId != rows[j].epAccountId
  {
    var t := RunWhole(w, c);
    CommandFits(w, c);
    CutKeepsFaithful(w, CommandPlan(w, c).value, |CommandPlan(w, c).value|);
    assert CutShort(w, CommandPlan(w, c).value, |CommandPlan(w, c).value|) == t;
    if (t.props + t.brokers)[i].epAccountId == (t.props + t.brokers)[j].epAccountId {
      SharedAccountSharedName(t, i, j);
    }
  }

  // ---------------------------------------------------------------------- worker runs

  lemma PropStageFits(w: World, p: Provision)
    requires StagePlan(w, p, CreatePropAccount).Ok?
    ensures AllFit(w, StagePlan(w, p, CreatePropAccount).value)
  {
    var id := NewestActive(w.props).value;
    var (create, e) := Ensure(w.remote, Identity(w.props[id])).value;
    var end := Finish(CreatePropAccount, GrantProp(e));
    StoringFits(w, w.props[id], PropEp(id, e), end);
    assert StagePlan(w, p, CreatePropAccount).value == create + ([PropEp(id, e)] + end);
  }

  lemma BrokerStageFits(w: World, p: Provision)
    requires StagePlan(w, p, CreateBrokerAccount).Ok?
    ensures AllFit(w, StagePlan(w, p, CreateBrokerAccount).value)
  {
    var id := HedgeBrokerAccount(w).value;
    var (create, e) := Ensure(w.remote, Identity(w.brokers[id])).value;
    var end := Finish(CreateBrokerAccount, GrantBroker(e));
    StoringFits(w, w.brokers[id], BrokerEp(id, e), end);
    assert StagePlan(w, p, CreateBrokerAccount).value == create + ([BrokerEp(id, e)] + end);
  }

  /** The new hedge is over rows that store the record's ids. */
  lemma FinalStageFits(w: World, p: Provision)
    requires Faithful(w) && StagePlan(w, p, Finalize).Ok?
    ensures AllFit(w, StagePlan(w, p, Finalize).value)
  {
    var x := FinalWork(w, p).value.writes[1];
    var s, end := Apply(w, ArchiveHedges), Finish(Finalize, NoGrant);
    assert HedgeFits(w, x.hedge);
    PlainWritesFit(Apply(s, x), end);
    FitFirst(s, x, end);
    FitFirst(w, ArchiveHedges, [x] + end);
    assert StagePlan(w, p, Finalize).value == [ArchiveHedges] + ([x] + end);
  }

  lemma StageFits(w: World, p: Provision, stage: Stage)
    requires Faithful(w) && StagePlan(w, p, stage).Ok?
    ensures AllFit(w, StagePlan(w, p, stage).value)
  {
    match stage
    case CreateKey => PlainWritesFit(w, StagePlan(w, p, stage).value);
    case CreatePropAccount => PropStageFits(w, p);
    case CreateBrokerAccount => BrokerStageFits(w, p);
    case Finalize => FinalStageFits(w, p);
  }

  lemma FaithfulRecord(w: World, s: World)
    requires Faithful(w) && s == w.(provision := s.provision)
    ensures Faithful(s)
  {
    forall h | 0 <= h < |w.hedges| && w.hedges[h].status != Archived
      ensures HedgeFits(s, s.hedges[h])
    {
      assert HedgeFits(w, w.hedges[h]);
    }
  }

  lemma OneStageKeepsFaithful(w: World, left: nat, fault: Fault, now: int, max: nat)
    requires Faithful(w) && !Terminal(w)
    ensures Faithful(WorldOf(OneStage(w, left, fault, now, max)))
  {
    var p := w.provision.value;
    var stage := StageOf(p.status).value;
    var t := WorldOf(OneStage(w, left, fault, now, max));
    match StagePlan(w, p, stage)
    case Err(_) => FaithfulRecord(w, t);
    case Ok(xs) =>
      StageFits(w, p, stage);
      CutKeepsFaithful(w, xs, left);
      FaithfulRecord(CutShort(w, xs, left), t);
  }

  lemma {:induction false} RunKeepsFaithful(w: World, left: nat, fault: Fault, now: int, max: nat)
    requires Faithful(w)
    ensures Faithful(Process(w, left, fault, now, max).world)
    decreases StagesLeft(StatusOf(w))
  {
    if !Terminal(w) {
      OneStageKeepsFaithful(w, left, fault, now, max);
      match OneStage(w, left, fault, now, max)
      case Next(t, rest) => RunKeepsFaithful(t, rest, fault, now, max);
      case Ended(_) =>
    }
  }

  // -------------------------------------------------------------------------- histories

  /** What the account screens do: they add rows, and they edit rows, but never a stored id. */
  predicate OnScreen(before: seq<Account>, after: seq<Account>) {
    && |before| <= |after|
    && (forall i :: 0 <= i < |before| ==> after[i].epAccountId == before[i].epAccountId)
    && (forall i :: |before| <= i < |after| ==> after[i].epAccountId.None?)
  }

  predicate Renamed(row: Account, edited: Account) {
    row.login != edited.login || row.server != edited.server
  }

  /** The row stores an account that is registered. */
  predicate InUse(accounts: seq<Option<EpAccount>>, row: Account) {
    row.epAccountId.Some? && Listed(accounts, row.epAccountId.value)
  }

  /** The edit renames a row whose account is registered, or one that the hedge trades for. */
  ghost predicate RenamesInUse(w: World, props: seq<Account>, brokers: seq<Account>) {
    || (exists i :: 0 <= i < |w.props| && i < |props| && Renamed(w.props[i], props[i])
                    && InUse(w.remote.accounts, w.props[i]))
    || (exists i :: 0 <= i < |w.brokers| && i < |brokers| && Renamed(w.brokers[i], brokers[i])
                    && InUse(w.remote.accounts, w.brokers[i]))
    || (exists h :: 0 <= h < |w.hedges| && w.hedges[h].status != Archived
                    && RenamesHedged(w, w.hedges[h], props, brokers))
  }

  predicate RenamesHedged(w: World, x: Hedge, props: seq<Account>, brokers: seq<Account>) {
    || (x.propAccountId < |w.props| && x.propAccountId < |props|
        && Renamed(w.props[x.propAccountId], props[x.propAccountId]) && Listed(w.remote.accounts, x.epPropAccountId))
    || (x.brokerAccountId < |w.brokers| && x.brokerAccountId < |brokers|
        && Renamed(w.brokers[x.brokerAccountId], brokers[x.brokerAccountId])
        && Listed(w.remote.accounts, x.epBrokerAccountId))
  }

  lemma RowsStayFitIff(accounts: seq<Option<EpAccount>>, before: seq<Account>, after: seq<Account>)
    requires RowsFit(accounts, before) && OnScreen(before, after)
    ensures RowsFit(accounts, after) <==>
            !exists i :: 0 <= i < |before| && i < |after| && Renamed(before[i], after[i]) && InUse(accounts, before[i])
  {
    if i :| 0 <= i < |before| && i < |after| && Renamed(before[i], after[i]) && InUse(accounts, before[i]) {
      assert Fitting(accounts, before[i].epAccountId.value, before[i]);
      assert !Fitting(accounts, after[i].epAccountId.value, after[i]);
    } else {
      forall i | 0 <= i < |after| && after[i].epAccountId.Some?
        ensures Fitting(accounts, after[i].epAccountId.value, after[i])
      {
        assert Fitting(accounts, before[i].epAccountId.value, before[i]);
      }
    }
  }

  lemma HedgesStayFitIff(w: World, s: World)
    requires Faithful(w) && s == w.(props := s.props, brokers := s.brokers)
    requires OnScreen(w.props, s.props) && OnScreen(w.brokers, s.brokers)
    ensures (forall h :: 0 <= h < |s.hedges| && s.hedges[h].status != Archived ==> HedgeFits(s, s.hedges[h])) <==>
            !exists h :: 0 <= h < |w.hedges| && w.hedges[h].status != Archived
                         && RenamesHedged(w, w.hedges[h], s.props, s.brokers)
  {
    forall h | 0 <= h < |w.hedges| && w.hedges[h].status != Archived
      ensures HedgeFits(s, w.hedges[h]) <==> !RenamesHedged(w, w.hedges[h], s.props, s.brokers)
    {
      assert HedgeFits(w, w.hedges[h]);
    }
  }

  lemma EditKeepsFaithfulIff(w: World, props: seq<Account>, brokers: seq<Account>)
    requires Faithful(w) && OnScreen(w.props, props) && OnScreen(w.brokers, brokers)
    ensures Faithful(w.(props := props, brokers := brokers)) <==> !RenamesInUse(w, props, brokers)
  {
    RowsStayFitIff(w.remote.accounts, w.props, props);
    RowsStayFitIff(w.remote.accounts, w.brokers, brokers);
    HedgesStayFitIff(w, w.(props := props, brokers := brokers));
  }

  predicate EditsOnScreen(w: World, e: Event) {
    e.Edited? ==> OnScreen(w.props, e.props) && OnScreen(w.brokers, e.brokers)
  }

  ghost predicate Misnames(w: World, e: Event) {
    e.Edited? && RenamesInUse(w, e.props, e.brokers)
  }

  lemma EventKeepsFaithfulIff(w: World, e: Event, max: nat)
    requires Faithful(w) && EditsOnScreen(w, e)
    ensures Faithful(StepEvent(w, e, max)) <==> !Misnames(w, e)
  {
    match e
    case Worked(left, fault, now) => RunKeepsFaithful(w, left, fault, now, max);
    case Commanded(c, left) =>
      if CommandPlan(w, c).Ok? {
        CommandFits(w, c);
        CutKeepsFaithful(w, CommandPlan(w, c).value, left);
      }
    case Reprovisioned(now, prop, broker, left) =>
      var xs := ReprovisionPlan(w, now, prop, broker);
      PlainWritesFit(w, xs);
      CutKeepsFaithful(w, xs, left);
    case Edited(props, brokers) => EditKeepsFaithfulIff(w, props, brokers);
    case Triggered(_, _) => FaithfulRecord(w, StepEvent(w, e, max));
    case Retried(_) => FaithfulRecord(w, StepEvent(w, e, max));
  }

  /** All edits, each in its turn, are made on the account screens. */
  ghost predicate Screened(w: World, events: seq<Event>, max: nat)
    decreases |events|
  {
    events != [] ==> EditsOnScreen(w, events[0]) && Screened(StepEvent(w, events[0], max), events[1..], max)
  }

  ghost predicate NeverMisnames(w: World, events: seq<Event>, max: nat)
    decreases |events|
  {
    events != [] ==> !Misnames(w, events[0]) && NeverMisnames(StepEvent(w, events[0], max), events[1..], max)
  }

  ghost predicate AlwaysFaithful(w: World, events: seq<Event>, max: nat)
    decreases |events|
  {
    Faithful(w) && (events != [] ==> AlwaysFaithful(StepEvent(w, events[0], max), events[1..], max))
  }

  /** Over every history of worker, command, trigger, admin and screen calls, each cut short
      wherever it may be, every id that is stored names an account of the row that stores it,
      after every event, if and only if no edit renames a row whose account is registered. */
  lemma {:induction false} HistoriesKeepFaithfulIff(w: World, events: seq<Event>, max: nat)
    requires Faithful(w) && Screened(w, events, max)
    ensures AlwaysFaithful(w, events, max) <==> NeverMisnames(w, events, max)
    ensures NeverMisnames(w, events, max) ==> Faithful(RunEvents(w, events, max))
    decreases |events|
  {
    if events != [] {
      EventKeepsFaithfulIff(w, events[0], max);
      if !Misnames(w, events[0]) { HistoriesKeepFaithfulIff(StepEvent(w, events[0], max), events[1..], max); }
    }
  }

  /** What a rename leads to: the old login is registered again for another row, which is given
      the renamed row's account, so that two rows that differ share one account. */
  lemma RenamedRowIsAliased(w: World, b: nat, renamed: Account, added: Account)
    requires HasKey(w) && b < |w.brokers| && w.brokers[b].epAccountId.Some? && renamed.epAccountId.None?
    requires FindAccount(w.remote.accounts, Identity(w.brokers[b])) == w.brokers[b].epAccountId
    requires Renamed(w.brokers[b], renamed) && added == w.brokers[b].(epAccountId := None)
    ensures var e := w.brokers[b].epAccountId;
            var edited := w.brokers[b := renamed.(epAccountId := e)] + [added];
            var t := RunWhole(w.(brokers := edited), BrokerAdd(|w.brokers|));
            && OnScreen(w.brokers, edited) && RenamesInUse(w, w.props, edited)
            && |t.brokers| == |w.brokers| + 1
            && t.brokers[b].epAccountId == t.brokers[|w.brokers|].epAccountId == e
            && Listed(t.remote.accounts, e.value)
            && Renamed(t.brokers[b], t.brokers[|w.brokers|])
  {
    var e := w.brokers[b].epAccountId;
    var edited := w.brokers[b := renamed.(epAccountId := e)] + [added];
    assert Renamed(w.brokers[b], edited[b]) && InUse(w.remote.accounts, w.brokers[b]);
    AddWhenRegistered(w.(brokers := edited), |w.brokers|, e.value);
  }
}
