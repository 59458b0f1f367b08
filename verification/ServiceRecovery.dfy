/** Crash recovery of the service commands: stop a run after any write, run it again, and it
    ends where an uninterrupted run ends. A deletion that can list the accounts does so too;
    one that cannot does so exactly when the hedge and the provision agree on what there is
    to delete. */
module ServiceRecovery {
  import opened Common
  import opened ServiceWorld
  import opened ServiceControl

  /** The states a plan passes through whose parts are one write at most. */
  ghost predicate Chain(w: World, a: seq<Write>, b: seq<Write>, c: seq<Write>, d: seq<Write>, e: seq<Write>,
                        s1: World, s2: World, s3: World, s4: World, s5: World) {
    && s1 == ApplyAll(w, a) && s2 == ApplyAll(s1, b) && s3 == ApplyAll(s2, c)
    && s4 == ApplyAll(s3, d) && s5 == ApplyAll(s4, e)
  }

  lemma ReportChangesNothing(w: World, xs: seq<Write>, k: nat)
    requires |xs| <= 1
    ensures ApplyAll(w, xs + [Report]) == ApplyAll(w, xs)
    ensures CutShort(w, xs + [Report], k) == w || CutShort(w, xs + [Report], k) == ApplyAll(w, xs)
  {
    var m := CutHead(w, xs, [Report], k);
    ApplyOne(ApplyAll(w, xs), Report);
  }

  /** Such a plan is cut in one of those states. */
  lemma CutStates(w: World, a: seq<Write>, b: seq<Write>, c: seq<Write>, d: seq<Write>, e: seq<Write>, k: nat,
                  s1: World, s2: World, s3: World, s4: World, s5: World)
    requires |a| <= 1 && |b| <= 1 && |c| <= 1 && |d| <= 1 && |e| <= 1
    requires Chain(w, a, b, c, d, e, s1, s2, s3, s4, s5)
    ensures ApplyAll(w, a + (b + (c + (d + (e + [Report]))))) == s5
    ensures var s := CutShort(w, a + (b + (c + (d + (e + [Report])))), k);
            s == w || s == s1 || s == s2 || s == s3 || s == s4 || s == s5
  {
    var r5 := e + [Report];
    var r4 := d + r5;
    var r3 := c + r4;
    var r2 := b + r3;
    var k2 := CutHead(w, a, r2, k);
    var k3 := CutHead(s1, b, r3, k2);
    var k4 := CutHead(s2, c, r4, k3);
    var k5 := CutHead(s3, d, r5, k4);
    ReportChangesNothing(s4, e, k5);
  }

  // ---------------------------------------------------------------- what a run leaves

  function WithAccounts(w: World, accounts: seq<Option<EpAccount>>): World {
    w.(remote := w.remote.(accounts := accounts))
  }

  function WithoutOld(accounts: seq<Option<EpAccount>>, previous: Option<nat>, epId: nat): seq<Option<EpAccount>> {
    if previous.Some? && previous.value != epId then Delete(accounts, previous.value) else accounts
  }

  function PointHedgeProp(hedges: seq<Hedge>, newPropId: nat, epId: nat): seq<Hedge> {
    match LiveHedge(hedges)
    case None => hedges
    case Some(h) => hedges[h := hedges[h].(propAccountId := newPropId, epPropAccountId := epId)]
  }

  function PointHedgeBroker(hedges: seq<Hedge>, newBrokerId: nat, epId: nat): seq<Hedge> {
    match LiveHedge(hedges)
    case None => hedges
    case Some(h) => hedges[h := hedges[h].(brokerAccountId := newBrokerId, epBrokerAccountId := epId)]
  }

  lemma DeleteOldEffect(w: World, previous: Option<nat>, epId: nat)
    ensures ApplyAll(w, DeleteOld(previous, epId)) == WithAccounts(w, WithoutOld(w.remote.accounts, previous, epId))
  {
    if previous.Some? { ApplyOne(w, EpDelete(previous.value)); }
  }

  /** A change to a hedge that neither archives nor revives it leaves the same one alive. */
  lemma {:induction false} HedgeUpdateKeepsLive(hedges: seq<Hedge>, h: nat, x: Hedge)
    requires h < |hedges| && (x.status == Archived <==> hedges[h].status == Archived)
    ensures LiveHedge(hedges[h := x]) == LiveHedge(hedges)
  {
    var n := |hedges| - 1;
    if h < n {
      assert hedges[h := x][..n] == hedges[..n][h := x];
      HedgeUpdateKeepsLive(hedges[..n], h, x);
    } else {
      assert hedges[h := x][..n] == hedges[..n];
    }
  }

  lemma PointTwice(hedges: seq<Hedge>, id: nat, epId: nat)
    ensures LiveHedge(PointHedgeProp(hedges, id, epId)) == LiveHedge(hedges)
    ensures LiveHedge(PointHedgeBroker(hedges, id, epId)) == LiveHedge(hedges)
    ensures PointHedgeProp(PointHedgeProp(hedges, id, epId), id, epId) == PointHedgeProp(hedges, id, epId)
    ensures PointHedgeBroker(PointHedgeBroker(hedges, id, epId), id, epId) == PointHedgeBroker(hedges, id, epId)
  {
    match LiveHedge(hedges)
    case None =>
    case Some(h) =>
      HedgeUpdateKeepsLive(hedges, h, hedges[h].(propAccountId := id, epPropAccountId := epId));
      HedgeUpdateKeepsLive(hedges, h, hedges[h].(brokerAccountId := id, epBrokerAccountId := epId));
  }

  /** Running the command from s succeeds and ends in `target`; nothing in s is registered twice
      unless it was in w. */
  ghost predicate ResumesTo(w: World, s: World, c: Command, target: World) {
    && CommandPlan(s, c).Ok?
    && RunWhole(s, c) == target
    && (NoAlias(w.remote) ==> NoAlias(s.remote))
  }

  // --------------------------------------------------------------------- prop rotation

  /** The states of a rotation whose account is registered as epId. */
  ghost predicate RotationStates(w: World, newPropId: nat, epId: nat, s2: World, s3: World, s4: World, s5: World)
    requires w.provision.Some?
  {
    && s2 == w.(props := SetEp(w.props, newPropId, epId))
    && s3 == WithAccounts(s2, WithoutOld(w.remote.accounts, w.provision.value.epPropAccountId, epId))
    && s4 == s3.(provision := Some(w.provision.value.(epPropAccountId := Some(epId))))
    && s5 == s4.(hedges := PointHedgeProp(w.hedges, newPropId, epId))
  }

  lemma RotationSteps(w: World, newPropId: nat, epId: nat) returns (s2: World, s3: World, s4: World, s5: World)
    requires w.provision.Some?
    ensures RotationStates(w, newPropId, epId, s2, s3, s4, s5)
    ensures Chain(w, [], [PropEp(newPropId, epId)], DeleteOld(w.provision.value.epPropAccountId, epId),
                  [ProvisionProp(epId)],
                  WriteHedge(LiveHedge(w.hedges), (h: nat) => HedgeProp(h, newPropId, epId)), w, s2, s3, s4, s5)
  {
    s2 := ApplyAll(w, [PropEp(newPropId, epId)]);
    ApplyOne(w, PropEp(newPropId, epId));
    s3 := ApplyAll(s2, DeleteOld(w.provision.value.epPropAccountId, epId));
    DeleteOldEffect(s2, w.provision.value.epPropAccountId, epId);
    s4 := ApplyAll(s3, [ProvisionProp(epId)]);
    ApplyOne(s3, ProvisionProp(epId));
    s5 := ApplyAll(s4, WriteHedge(LiveHedge(w.hedges), (h: nat) => HedgeProp(h, newPropId, epId)));
    match LiveHedge(w.hedges) {
      case None =>
      case Some(h) => ApplyOne(s4, HedgeProp(h, newPropId, epId));
    }
  }

  /** A run that finds its account registered. */
  lemma RotationWhenRegistered(w: World, newPropId: nat, epId: nat) returns (s2: World, s3: World, s4: World, s5: World)
    requires HasKey(w) && newPropId < |w.props|
    requires FindAccount(w.remote.accounts, Identity(w.props[newPropId])) == Some(epId)
    ensures RotationStates(w, newPropId, epId, s2, s3, s4, s5)
    ensures CommandPlan(w, PropRotation(newPropId)).Ok?
    ensures RunWhole(w, PropRotation(newPropId)) == s5
  {
    s2, s3, s4, s5 := RotationSteps(w, newPropId, epId);
    CutStates(w, [], [PropEp(newPropId, epId)], DeleteOld(w.provision.value.epPropAccountId, epId),
              [ProvisionProp(epId)],
              WriteHedge(LiveHedge(w.hedges), (h: nat) => HedgeProp(h, newPropId, epId)), 0, w, s2, s3, s4, s5);
  }

  lemma RotationResumes(w: World, newPropId: nat, epId: nat, s2: World, s3: World, s4: World, s5: World, s: World)
    requires HasKey(w) && newPropId < |w.props|
    requires FindAccount(w.remote.accounts, Identity(w.props[newPropId])) == Some(epId)
    requires RotationStates(w, newPropId, epId, s2, s3, s4, s5)
    requires s == w || s == s2 || s == s3 || s == s4 || s == s5
    ensures ResumesTo(w, s, PropRotation(newPropId), s5)
  {
    var previous := w.provision.value.epPropAccountId;
    if previous.Some? && previous.value != epId {
      DeleteKeepsFound(w.remote.accounts, Identity(w.props[newPropId]), epId, previous.value);
    }
    PointTwice(w.hedges, newPropId, epId);
    var _, _, _, end := RotationWhenRegistered(s, newPropId, epId);
  }

  /** Cut a prop rotation short after any write: run again, it ends where an
      uninterrupted run would have ended, and no account was ever registered twice. */
  lemma RotationRecovers(w: World, newPropId: nat, k: nat)
    requires CommandPlan(w, PropRotation(newPropId)).Ok?
    ensures ResumesTo(w, RunCut(w, PropRotation(newPropId), k), PropRotation(newPropId),
                      RunWhole(w, PropRotation(newPropId)))
  {
    var a := Identity(w.props[newPropId]);
    var (create, epId) := Ensure(w.remote, a).value;
    EnsureIsIdempotent(w, a);
    var s1 := ApplyAll(w, create);
    var s2, s3, s4, s5 := RotationSteps(s1, newPropId, epId);
    CutStates(w, create, [PropEp(newPropId, epId)], DeleteOld(w.provision.value.epPropAccountId, epId),
              [ProvisionProp(epId)],
              WriteHedge(LiveHedge(w.hedges), (h: nat) => HedgeProp(h, newPropId, epId)), k, s1, s2, s3, s4, s5);
    var s := RunCut(w, PropRotation(newPropId), k);
    if s != w {
      RotationResumes(s1, newPropId, epId, s2, s3, s4, s5, s);
    }
  }

  // ---------------------------------------------------------------- broker replacement

  /** The states of a replacement whose account is registered as epId. */
  ghost predicate ReplaceStates(w: World, id: nat, replaced: Option<nat>, epId: nat, s2: World, s3: World, s4: World,
                                s5: World)
    requires w.provision.Some?
  {
    && s2 == w.(brokers := SetEp(w.brokers, id, epId))
    && s3 == WithAccounts(s2, WithoutOld(w.remote.accounts, ReplacedEp(w, id, replaced, epId), epId))
    && s4 == s3.(provision := Some(w.provision.value.(epBrokerAccountId := Some(epId))))
    && s5 == s4.(hedges := PointHedgeBroker(w.hedges, id, epId))
  }

  lemma ReplaceSteps(w: World, id: nat, replaced: Option<nat>, epId: nat)
    returns (s2: World, s3: World, s4: World, s5: World)
    requires w.provision.Some?
    ensures ReplaceStates(w, id, replaced, epId, s2, s3, s4, s5)
    ensures Chain(w, [], [BrokerEp(id, epId)], DeleteOld(ReplacedEp(w, id, replaced, epId), epId),
                  [ProvisionBroker(epId)],
                  WriteHedge(LiveHedge(w.hedges), (h: nat) => HedgeBroker(h, id, epId)), w, s2, s3, s4, s5)
  {
    var previous := ReplacedEp(w, id, replaced, epId);
    s2 := ApplyAll(w, [BrokerEp(id, epId)]);
    ApplyOne(w, BrokerEp(id, epId));
    s3 := ApplyAll(s2, DeleteOld(previous, epId));
    DeleteOldEffect(s2, previous, epId);
    s4 := ApplyAll(s3, [ProvisionBroker(epId)]);
    ApplyOne(s3, ProvisionBroker(epId));
    s5 := ApplyAll(s4, WriteHedge(LiveHedge(w.hedges), (h: nat) => HedgeBroker(h, id, epId)));
    match LiveHedge(w.hedges) {
      case None =>
      case Some(h) => ApplyOne(s4, HedgeBroker(h, id, epId));
    }
  }

  lemma ReplaceWhenRegistered(w: World, id: nat, replaced: Option<nat>, epId: nat)
    returns (s2: World, s3: World, s4: World, s5: World)
    requires HasKey(w) && id < |w.brokers|
    requires FindAccount(w.remote.accounts, Identity(w.brokers[id])) == Some(epId)
    ensures ReplaceStates(w, id, replaced, epId, s2, s3, s4, s5)
    ensures CommandPlan(w, BrokerReplace(id, replaced)).Ok?
    ensures RunWhole(w, BrokerReplace(id, replaced)) == s5
  {
    s2, s3, s4, s5 := ReplaceSteps(w, id, replaced, epId);
    CutStates(w, [], [BrokerEp(id, epId)], DeleteOld(ReplacedEp(w, id, replaced, epId), epId), [ProvisionBroker(epId)],
              WriteHedge(LiveHedge(w.hedges), (h: nat) => HedgeBroker(h, id, epId)), 0, w, s2, s3, s4, s5);
  }

  /** Once the hedge points at the new account the re-run may find nothing left to remove;
      the account it removed the first time stays removed. */
  lemma ReplacedEpAgain(w: World, id: nat, replaced: Option<nat>, epId: nat, s: World)
    requires s.brokers == SetEp(w.brokers, id, epId)
    requires s.hedges == w.hedges || s.hedges == PointHedgeBroker(w.hedges, id, epId)
    ensures ReplacedEp(s, id, replaced, epId) == ReplacedEp(w, id, replaced, epId)
            || (s.hedges == PointHedgeBroker(w.hedges, id, epId) && ReplacedEp(s, id, replaced, epId) == None)
  {
    PointTwice(w.hedges, id, epId);
    assert SetEp(s.brokers, id, epId) == s.brokers;
  }

  /** In every state of the replacement the account is still found. */
  lemma ReplaceKeepsFound(w: World, id: nat, replaced: Option<nat>, epId: nat)
    requires id < |w.brokers| && FindAccount(w.remote.accounts, Identity(w.brokers[id])) == Some(epId)
    ensures var accounts := WithoutOld(w.remote.accounts, ReplacedEp(w, id, replaced, epId), epId);
            && FindAccount(accounts, Identity(w.brokers[id])) == Some(epId)
            && (forall previous :: previous == ReplacedEp(w, id, replaced, epId) ==>
                  WithoutOld(accounts, previous, epId) == accounts)
            && (NoAlias(w.remote) ==> NoAlias(w.remote.(accounts := accounts)))
  {
    var previous := ReplacedEp(w, id, replaced, epId);
    if previous.Some? && previous.value != epId {
      DeleteKeepsFound(w.remote.accounts, Identity(w.brokers[id]), epId, previous.value);
    }
  }

  lemma ReplaceResumes(w: World, id: nat, replaced: Option<nat>, epId: nat,
                       s2: World, s3: World, s4: World, s5: World, s: World)
    requires HasKey(w) && id < |w.brokers|
    requires FindAccount(w.remote.accounts, Identity(w.brokers[id])) == Some(epId)
    requires ReplaceStates(w, id, replaced, epId, s2, s3, s4, s5)
    requires s == w || s == s2 || s == s3 || s == s4 || s == s5
    ensures ResumesTo(w, s, BrokerReplace(id, replaced), s5)
  {
    ReplaceKeepsFound(w, id, replaced, epId);
    PointTwice(w.hedges, id, epId);
    if s != w { ReplacedEpAgain(w, id, replaced, epId, s); }
    var _, _, _, end := ReplaceWhenRegistered(s, id, replaced, epId);
  }

  lemma ReplaceRecovers(w: World, id: nat, replaced: Option<nat>, k: nat)
    requires CommandPlan(w, BrokerReplace(id, replaced)).Ok?
    ensures ResumesTo(w, RunCut(w, BrokerReplace(id, replaced), k), BrokerReplace(id, replaced),
                      RunWhole(w, BrokerReplace(id, replaced)))
  {
    var a := Identity(w.brokers[id]);
    var (create, epId) := Ensure(w.remote, a).value;
    EnsureIsIdempotent(w, a);
    var s1 := ApplyAll(w, create);
    var s2, s3, s4, s5 := ReplaceSteps(s1, id, replaced, epId);
    CutStates(w, create, [BrokerEp(id, epId)], DeleteOld(ReplacedEp(w, id, replaced, epId), epId),
              [ProvisionBroker(epId)],
              WriteHedge(LiveHedge(w.hedges), (h: nat) => HedgeBroker(h, id, epId)), k, s1, s2, s3, s4, s5);
    var s := RunCut(w, BrokerReplace(id, replaced), k);
    if s != w {
      ReplaceResumes(s1, id, replaced, epId, s2, s3, s4, s5, s);
    }
  }

  // ----------------------------------------------- broker addition and hedge selection

  lemma AddWhenRegistered(w: World, id: nat, epId: nat)
    requires HasKey(w) && id < |w.brokers|
    requires FindAccount(w.remote.accounts, Identity(w.brokers[id])) == Some(epId)
    ensures CommandPlan(w, BrokerAdd(id)).Ok?
    ensures RunWhole(w, BrokerAdd(id)) == w.(brokers := SetEp(w.brokers, id, epId))
  {
    assert [] + ([BrokerEp(id, epId)] + [Report]) == [BrokerEp(id, epId)] + [Report];
    ReportChangesNothing(w, [BrokerEp(id, epId)], 0);
    ApplyOne(w, BrokerEp(id, epId));
  }

  /** With the account registered, storing its id twice is storing it once. */
  lemma AddResumes(w: World, s: World, id: nat, epId: nat)
    requires HasKey(w) && id < |w.brokers| && FindAccount(w.remote.accounts, Identity(w.brokers[id])) == Some(epId)
    requires s == w || s == w.(brokers := SetEp(w.brokers, id, epId))
    ensures CommandPlan(s, BrokerAdd(id)).Ok? && RunWhole(s, BrokerAdd(id)) == w.(brokers := SetEp(w.brokers, id, epId))
  {
    AddWhenRegistered(s, id, epId);
  }

  lemma AddRecovers(w: World, id: nat, k: nat)
    requires CommandPlan(w, BrokerAdd(id)).Ok?
    ensures ResumesTo(w, RunCut(w, BrokerAdd(id), k), BrokerAdd(id), RunWhole(w, BrokerAdd(id)))
  {
    var a := Identity(w.brokers[id]);
    var (create, epId) := Ensure(w.remote, a).value;
    EnsureIsIdempotent(w, a);
    var s1 := ApplyAll(w, create);
    var m := CutHead(w, create, [BrokerEp(id, epId)] + [Report], k);
    ReportChangesNothing(s1, [BrokerEp(id, epId)], m);
    ApplyOne(s1, BrokerEp(id, epId));
    AddWhenRegistered(s1, id, epId);
    var s := RunCut(w, BrokerAdd(id), k);
    if s != w {
      assert s == s1 || s == s1.(brokers := SetEp(w.brokers, id, epId));
      AddResumes(s1, s, id, epId);
    }
  }

  /** The three states a hedge selection passes through. */
  ghost predicate SelectionStates(w: World, id: nat, epId: nat, s1: World, s2: World)
    requires w.provision.Some?
  {
    && s1 == w.(hedges := PointHedgeBroker(w.hedges, id, epId))
    && s2 == s1.(provision := Some(w.provision.value.(epBrokerAccountId := Some(epId))))
  }

  lemma SelectionSteps(w: World, h: nat, id: nat, epId: nat, k: nat) returns (s1: World, s2: World)
    requires w.provision.Some? && LiveHedge(w.hedges) == Some(h)
    ensures SelectionStates(w, id, epId, s1, s2)
    ensures ApplyAll(w, [HedgeBroker(h, id, epId)] + ([ProvisionBroker(epId)] + [Report])) == s2
    ensures var s := CutShort(w, [HedgeBroker(h, id, epId)] + ([ProvisionBroker(epId)] + [Report]), k);
            s == w || s == s1 || s == s2
  {
    var first, rest := [HedgeBroker(h, id, epId)], [ProvisionBroker(epId)] + [Report];
    s1, s2 := Apply(w, first[0]), Apply(Apply(w, first[0]), ProvisionBroker(epId));
    ApplyOne(w, first[0]);
    ApplyOne(s1, ProvisionBroker(epId));
    var m := CutHead(w, first, rest, k);
    ReportChangesNothing(s1, [ProvisionBroker(epId)], m);
  }

  lemma SetHedgeRecovers(w: World, id: nat, k: nat)
    requires CommandPlan(w, SetHedgeBroker(id)).Ok?
    ensures ResumesTo(w, RunCut(w, SetHedgeBroker(id), k), SetHedgeBroker(id), RunWhole(w, SetHedgeBroker(id)))
  {
    var h, epId := LiveHedge(w.hedges).value, w.brokers[id].epAccountId.value;
    var s1, s2 := SelectionSteps(w, h, id, epId, k);
    PointTwice(w.hedges, id, epId);
    var _, end := SelectionSteps(RunCut(w, SetHedgeBroker(id), k), h, id, epId, 0);
  }

  // -------------------------------------------------------------------- all of them

  /** Any interrupted sync command recovers by running again. */
  lemma CommandRecovers(w: World, c: Command, k: nat)
    requires Recoverable(c) && CommandPlan(w, c).Ok?
    ensures ResumesTo(w, RunCut(w, c, k), c, RunWhole(w, c))
  {
    match c
    case PropRotation(p) => RotationRecovers(w, p, k);
    case BrokerReplace(b, replaced) => ReplaceRecovers(w, b, replaced, k);
    case BrokerAdd(b) => AddRecovers(w, b, k);
    case SetHedgeBroker(b) => SetHedgeRecovers(w, b, k);
    case _ =>
  }

  /** Any number of interrupted runs, one after another. */
  function Interrupted(w: World, c: Command, cuts: seq<nat>): World
    decreases |cuts|
  {
    if cuts == [] then w else Interrupted(RunCut(w, c, cuts[0]), c, cuts[1..])
  }

  /** However often a sync command is cut short, and wherever, the first run that is not
      ends exactly where a single uninterrupted run would have ended. */
  lemma {:induction false} InterruptionsLeaveNoTrace(w: World, c: Command, cuts: seq<nat>)
    requires Recoverable(c)
    ensures RunWhole(Interrupted(w, c, cuts), c) == RunWhole(w, c)
    ensures CommandPlan(Interrupted(w, c, cuts), c).Ok? == CommandPlan(w, c).Ok?
    ensures NoAlias(w.remote) ==> NoAlias(Interrupted(w, c, cuts).remote) && NoAlias(RunWhole(w, c).remote)
    decreases |cuts|
  {
    if CommandPlan(w, c).Ok? {
      var xs := CommandPlan(w, c).value;
      CommandRecovers(w, c, |xs|);
      if cuts != [] { CommandRecovers(w, c, cuts[0]); }
    }
    if cuts != [] { InterruptionsLeaveNoTrace(RunCut(w, c, cuts[0]), c, cuts[1..]); }
  }

  // ------------------------------------------------------------------------- deletion

  ghost predicate AtMostOneLive(hedges: seq<Hedge>) {
    forall i, j :: 0 <= i < j < |hedges| ==> hedges[i].status == Archived || hedges[j].status == Archived
  }

  function Removed(accounts: seq<Option<EpAccount>>, ids: seq<nat>): seq<Option<EpAccount>> {
    seq(|accounts|, i requires 0 <= i < |accounts| => if i in ids then None else accounts[i])
  }

  function ArchiveLive(hedges: seq<Hedge>): seq<Hedge> {
    match LiveHedge(hedges)
    case None => hedges
    case Some(h) => hedges[h := hedges[h].(status := Archived)]
  }

  function Decommissioned(p: Provision): Provision {
    p.(status := DECOMMISSIONED)
  }

  /** A deletion that has removed `ids`, done to the end. */
  function Deleted(w: World, ids: seq<nat>): World
    requires w.provision.Some?
  {
    World(Some(Decommissioned(w.provision.value)), ClearEps(w.props), ClearEps(w.brokers), ArchiveLive(w.hedges),
          w.remote.(accounts := Removed(w.remote.accounts, ids)))
  }

  lemma {:induction false} DeletesEffect(w: World, ids: seq<nat>)
    ensures ApplyAll(w, Deletes(ids)) == WithAccounts(w, Removed(w.remote.accounts, ids))
    decreases |ids|
  {
    if ids == [] {
      assert Removed(w.remote.accounts, ids) == w.remote.accounts;
    } else {
      var w1 := Apply(w, EpDelete(ids[0]));
      assert Deletes(ids)[1..] == Deletes(ids[1..]);
      DeletesEffect(w1, ids[1..]);
      assert Removed(w1.remote.accounts, ids[1..]) == Removed(w.remote.accounts, ids) by {
        assert ids == [ids[0]] + ids[1..];
      }
    }
  }

  /** The states after the accounts are gone. */
  ghost predicate TailStates(w: World, s1: World, s2: World, s3: World, s4: World)
    requires w.provision.Some?
  {
    && s1 == w.(brokers := ClearEps(w.brokers))
    && s2 == s1.(props := ClearEps(w.props))
    && s3 == s2.(hedges := ArchiveLive(w.hedges))
    && s4 == s3.(provision := Some(Decommissioned(w.provision.value)))
  }

  lemma ArchiveEffect(w: World, hedges: seq<Hedge>)
    requires w.hedges == hedges
    ensures ApplyAll(w, WriteHedge(LiveHedge(hedges), (h: nat) => SetHedgeStatus(h, Archived)))
            == w.(hedges := ArchiveLive(hedges))
  {
    match LiveHedge(hedges)
    case None =>
    case Some(h) => ApplyOne(w, SetHedgeStatus(h, Archived));
  }

  lemma TailSteps(w: World, k: nat) returns (s1: World, s2: World, s3: World, s4: World)
    requires w.provision.Some?
    ensures TailStates(w, s1, s2, s3, s4)
    ensures ApplyAll(w, DeleteTail(LiveHedge(w.hedges))) == s4
    ensures var s := CutShort(w, DeleteTail(LiveHedge(w.hedges)), k); s == w || s == s1 || s == s2 || s == s3 || s == s4
    ensures k == |DeleteTail(LiveHedge(w.hedges))| - 2 ==> CutShort(w, DeleteTail(LiveHedge(w.hedges)), k) == s3
  {
    var archive := WriteHedge(LiveHedge(w.hedges), (h: nat) => SetHedgeStatus(h, Archived));
    ApplyOne(w, ClearBrokerEps);
    s1 := ApplyAll(w, [ClearBrokerEps]);
    ApplyOne(s1, ClearPropEps);
    s2 := ApplyAll(s1, [ClearPropEps]);
    s3 := ApplyAll(s2, archive);
    ArchiveEffect(s2, w.hedges);
    s4 := ApplyAll(s3, [Decommission]);
    ApplyOne(s3, Decommission);
    assert [] + DeleteTail(LiveHedge(w.hedges)) == DeleteTail(LiveHedge(w.hedges));
    CutStates(w, [], [ClearBrokerEps], [ClearPropEps], archive, [Decommission], k, w, s1, s2, s3, s4);
    BeforeDecommission(w, s1, s2, s3, archive);
  }

  lemma BeforeDecommission(w: World, s1: World, s2: World, s3: World, archive: seq<Write>)
    requires s1 == ApplyAll(w, [ClearBrokerEps]) && s2 == ApplyAll(s1, [ClearPropEps]) && s3 == ApplyAll(s2, archive)
    ensures var xs := [ClearBrokerEps] + ([ClearPropEps] + (archive + ([Decommission] + [Report])));
            CutShort(w, xs, |xs| - 2) == s3
  {
    var xs := [ClearBrokerEps] + ([ClearPropEps] + (archive + ([Decommission] + [Report])));
    assert xs[..|xs| - 2] == [ClearBrokerEps] + [ClearPropEps] + archive;
    ApplyAppend(w, [ClearBrokerEps] + [ClearPropEps], archive);
    ApplyAppend(w, [ClearBrokerEps], [ClearPropEps]);
  }

  lemma WholeDeletion(w: World, listed: bool)
    requires HasKey(w)
    ensures RunWhole(w, DeleteService(listed)) == Deleted(w, DoomedIds(w, listed))
  {
    var ids := DoomedIds(w, listed);
    DeletesEffect(w, ids);
    var w1 := ApplyAll(w, Deletes(ids));
    ApplyAppend(w, Deletes(ids), DeleteTail(LiveHedge(w.hedges)));
    assert DeleteTail(LiveHedge(w1.hedges)) == DeleteTail(LiveHedge(w.hedges));
    var _, _, _, end := TailSteps(w1, 0);
  }

  /** A deletion under way: the accounts `gone` are removed, and the hedge is archived only
      when all of `ids` are. */
  ghost predicate Halfway(w: World, s: World, ids: seq<nat>, gone: seq<nat>)
    requires w.provision.Some?
  {
    && (s.provision == w.provision || s.provision == Some(Decommissioned(w.provision.value)))
    && (s.props == w.props || s.props == ClearEps(w.props))
    && (s.brokers == w.brokers || s.brokers == ClearEps(w.brokers))
    && (s.hedges == w.hedges || (s.hedges == ArchiveLive(w.hedges) && gone == ids))
    && s.remote == w.remote.(accounts := Removed(w.remote.accounts, gone))
    && forall i :: 0 <= i < |gone| ==> gone[i] in ids
  }

  lemma CutIsHalfway(w: World, listed: bool, k: nat) returns (gone: seq<nat>)
    requires HasKey(w)
    ensures Halfway(w, RunCut(w, DeleteService(listed), k), DoomedIds(w, listed), gone)
  {
    var ids := DoomedIds(w, listed);
    CutSplit(w, Deletes(ids), DeleteTail(LiveHedge(w.hedges)), k);
    if k < |ids| {
      gone := ids[..k];
      assert Deletes(ids)[..k] == Deletes(gone);
      DeletesEffect(w, gone);
    } else {
      gone := ids;
      DeletesEffect(w, ids);
      var w1 := ApplyAll(w, Deletes(ids));
      assert DeleteTail(LiveHedge(w1.hedges)) == DeleteTail(LiveHedge(w.hedges));
      var s1, s2, s3, s4 := TailSteps(w1, k - |ids|);
    }
  }

  lemma ArchivedTheOnlyOne(hedges: seq<Hedge>)
    requires AtMostOneLive(hedges)
    ensures LiveHedge(hedges).Some? ==> LiveHedge(ArchiveLive(hedges)) == None
    ensures ArchiveLive(ArchiveLive(hedges)) == ArchiveLive(hedges)
  {
    var after := ArchiveLive(hedges);
    assert forall i :: 0 <= i < |after| ==> after[i].status == Archived || LiveHedge(hedges).None?;
  }

  lemma HalfwayMakesNoAlias(w: World, s: World, ids: seq<nat>, gone: seq<nat>)
    requires w.provision.Some? && Halfway(w, s, ids, gone)
    ensures NoAlias(w.remote) ==> NoAlias(s.remote)
  {
  }

  lemma ResumeIsDeleted(w: World, s: World, listed: bool, gone: seq<nat>)
    requires HasKey(w) && AtMostOneLive(w.hedges)
    requires Halfway(w, s, DoomedIds(w, listed), gone)
    ensures HasKey(s)
    ensures RunWhole(s, DeleteService(listed)) ==
            Deleted(w, []).(remote := w.remote.(accounts := Removed(s.remote.accounts, DoomedIds(s, listed))))
  {
    WholeDeletion(s, listed);
    ArchivedTwice(w.hedges);
    ClearedTwice(w.props);
    ClearedTwice(w.brokers);
  }

  lemma ClearedTwice(accounts: seq<Account>)
    ensures ClearEps(ClearEps(accounts)) == ClearEps(accounts)
  {
  }

  lemma ArchivedTwice(hedges: seq<Hedge>)
    requires AtMostOneLive(hedges)
    ensures ArchiveLive(ArchiveLive(hedges)) == ArchiveLive(hedges)
  {
    ArchivedTheOnlyOne(hedges);
  }

  /** A deletion that any number of attempts have worked on: the accounts `gone` are removed,
      and each record is as it was or as a deletion leaves it. */
  ghost predicate UnderWay(w: World, s: World, gone: seq<nat>)
    requires w.provision.Some?
  {
    && (s.provision == w.provision || s.provision == Some(Decommissioned(w.provision.value)))
    && (s.props == w.props || s.props == ClearEps(w.props))
    && (s.brokers == w.brokers || s.brokers == ClearEps(w.brokers))
    && (s.hedges == w.hedges || s.hedges == ArchiveLive(w.hedges))
    && s.remote == w.remote.(accounts := Removed(w.remote.accounts, gone))
  }

  lemma RemovedMore(accounts: seq<Option<EpAccount>>, gone: seq<nat>, more: seq<nat>)
    ensures Removed(Removed(accounts, gone), more) == Removed(accounts, gone + more)
  {
    assert forall i: nat :: i in gone + more <==> i in gone || i in more;
  }

  /** One more attempt, with the listing or without it, cut short anywhere. */
  lemma AttemptStaysUnderWay(w: World, s: World, gone: seq<nat>, listed: bool, k: nat) returns (more: seq<nat>)
    requires HasKey(w) && AtMostOneLive(w.hedges) && UnderWay(w, s, gone)
    ensures UnderWay(w, RunCut(s, DeleteService(listed), k), gone + more)
  {
    more := CutIsHalfway(s, listed, k);
    RemovedMore(w.remote.accounts, gone, more);
    ArchivedTheOnlyOne(w.hedges);
    ClearedTwice(w.props);
    ClearedTwice(w.brokers);
  }

  /** An attempt that is not cut short closes the records, whatever came before. */
  lemma WholeAttemptCloses(w: World, s: World, gone: seq<nat>, listed: bool)
    requires HasKey(w) && AtMostOneLive(w.hedges) && UnderWay(w, s, gone)
    ensures RunWhole(s, DeleteService(listed)) == Deleted(w, gone + DoomedIds(s, listed))
    ensures listed ==> RunWhole(s, DeleteService(true)) == RunWhole(w, DeleteService(true))
  {
    WholeDeletion(s, listed);
    RemovedMore(w.remote.accounts, gone, DoomedIds(s, listed));
    ArchivedTheOnlyOne(w.hedges);
    ClearedTwice(w.props);
    ClearedTwice(w.brokers);
    if listed {
      WholeDeletion(w, true);
      assert Removed(w.remote.accounts, gone + LiveIds(s.remote.accounts))
             == Removed(w.remote.accounts, LiveIds(w.remote.accounts));
    }
  }

  /** An attempt at a deletion: whether it could list the accounts, and after how many writes
      it was cut short. */
  datatype DeletionAttempt = DeletionAttempt(listed: bool, after: nat)

  function Attempted(w: World, attempts: seq<DeletionAttempt>): World
    decreases |attempts|
  {
    if attempts == [] then w
    else Attempted(RunCut(w, DeleteService(attempts[0].listed), attempts[0].after), attempts[1..])
  }

  lemma {:induction false} AttemptsStayUnderWay(w: World, s: World, gone: seq<nat>, attempts: seq<DeletionAttempt>)
    returns (more: seq<nat>)
    requires HasKey(w) && AtMostOneLive(w.hedges) && UnderWay(w, s, gone)
    ensures UnderWay(w, Attempted(s, attempts), more)
    decreases |attempts|
  {
    if attempts == [] {
      more := gone;
    } else {
      var next := AttemptStaysUnderWay(w, s, gone, attempts[0].listed, attempts[0].after);
      more := AttemptsStayUnderWay(w, RunCut(s, DeleteService(attempts[0].listed), attempts[0].after), gone + next,
                                   attempts[1..]);
    }
  }

  /** After any earlier attempts, each listing the accounts or not and cut short anywhere, a
      deletion that can list them ends where one uninterrupted deletion would have ended,
      with no account left. */
  lemma ListedDeletionRecovers(w: World, attempts: seq<DeletionAttempt>)
    requires HasKey(w) && AtMostOneLive(w.hedges)
    ensures ResumesTo(w, Attempted(w, attempts), DeleteService(true), RunWhole(w, DeleteService(true)))
    ensures var accounts := RunWhole(w, DeleteService(true)).remote.accounts;
            forall i :: 0 <= i < |accounts| ==> accounts[i].None?
  {
    assert Removed(w.remote.accounts, []) == w.remote.accounts;
    var gone := AttemptsStayUnderWay(w, w, [], attempts);
    WholeAttemptCloses(w, Attempted(w, attempts), gone, true);
    WholeDeletion(w, true);
  }

  /** The provision names no account that the hedge does not, unless it is gone already. */
  ghost predicate FallbackAgrees(w: World)
    requires w.provision.Some?
  {
    var p := w.provision.value;
    var ids := OptionToIds(p.epPropAccountId) + OptionToIds(p.epBrokerAccountId);
    match LiveHedge(w.hedges)
    case None => true
    case Some(h) =>
      forall i :: 0 <= i < |ids| ==>
        || ids[i] == w.hedges[h].epPropAccountId || ids[i] == w.hedges[h].epBrokerAccountId
        || ids[i] >= |w.remote.accounts| || w.remote.accounts[ids[i]].None?
  }

  lemma RemovedTwice(accounts: seq<Option<EpAccount>>, gone: seq<nat>, ids: seq<nat>, more: seq<nat>)
    requires forall i :: 0 <= i < |gone| ==> gone[i] in ids
    ensures Removed(Removed(accounts, gone), ids) == Removed(accounts, ids)
    ensures Removed(Removed(accounts, ids), more) == Removed(accounts, ids) <==>
            forall i :: 0 <= i < |more| ==> more[i] in ids || more[i] >= |accounts| || accounts[more[i]].None?
  {
    var twice := Removed(Removed(accounts, ids), more);
    if twice == Removed(accounts, ids) {
      forall i | 0 <= i < |more| ensures more[i] in ids || more[i] >= |accounts| || accounts[more[i]].None? {
        if more[i] < |accounts| { assert more[i] in more && twice[more[i]] == None; }
      }
    }
  }

  lemma UnlistedResume(w: World, k: nat)
    requires HasKey(w) && AtMostOneLive(w.hedges) && FallbackAgrees(w)
    ensures ResumesTo(w, RunCut(w, DeleteService(false), k), DeleteService(false), RunWhole(w, DeleteService(false)))
  {
    var ids := DoomedIds(w, false);
    var gone := CutIsHalfway(w, false, k);
    var s := RunCut(w, DeleteService(false), k);
    HalfwayMakesNoAlias(w, s, ids, gone);
    ResumeIsDeleted(w, s, false, gone);
    WholeDeletion(w, false);
    ArchivedTheOnlyOne(w.hedges);
    RemovedTwice(w.remote.accounts, gone, ids, DoomedIds(s, false));
  }

  /** What makes the fallback lists agree outlives an interruption. */
  lemma AgreementOutlivesCut(w: World, k: nat)
    requires HasKey(w) && AtMostOneLive(w.hedges) && FallbackAgrees(w)
    ensures var s := RunCut(w, DeleteService(false), k); HasKey(s) && AtMostOneLive(s.hedges) && FallbackAgrees(s)
  {
    var gone := CutIsHalfway(w, false, k);
    var s := RunCut(w, DeleteService(false), k);
    ArchivedTheOnlyOne(w.hedges);
    assert forall i :: 0 <= i < |s.hedges| ==>
             s.hedges[i].status == w.hedges[i].status || s.hedges[i].status == Archived;
  }

  /** However often the run is cut short, and wherever, the first that is not ends where one
      uninterrupted run does. */
  ghost predicate AlwaysRecovers(w: World, c: Command) {
    forall cuts: seq<nat> :: RunWhole(Interrupted(w, c, cuts), c) == RunWhole(w, c)
  }

  lemma {:induction false} AgreementRecovers(w: World, cuts: seq<nat>)
    requires HasKey(w) && AtMostOneLive(w.hedges) && FallbackAgrees(w)
    ensures RunWhole(Interrupted(w, DeleteService(false), cuts), DeleteService(false))
            == RunWhole(w, DeleteService(false))
    decreases |cuts|
  {
    if cuts != [] {
      UnlistedResume(w, cuts[0]);
      AgreementOutlivesCut(w, cuts[0]);
      AgreementRecovers(RunCut(w, DeleteService(false), cuts[0]), cuts[1..]);
    }
  }

  /** Cut after the hedge is archived, the re-run falls back on the provision's list. */
  lemma DisagreementShows(w: World) returns (k: nat)
    requires HasKey(w) && AtMostOneLive(w.hedges) && !FallbackAgrees(w)
    ensures RunWhole(RunCut(w, DeleteService(false), k), DeleteService(false)) != RunWhole(w, DeleteService(false))
  {
    var ids := DoomedIds(w, false);
    k := |Deletes(ids)| + |DeleteTail(LiveHedge(w.hedges))| - 2;
    CutSplit(w, Deletes(ids), DeleteTail(LiveHedge(w.hedges)), k);
    DeletesEffect(w, ids);
    var w1 := ApplyAll(w, Deletes(ids));
    assert DeleteTail(LiveHedge(w1.hedges)) == DeleteTail(LiveHedge(w.hedges));
    var s1, s2, s3, s4 := TailSteps(w1, k - |ids|);
    var s := RunCut(w, DeleteService(false), k);
    ArchivedTheOnlyOne(w.hedges);
    WholeDeletion(s, false);
    WholeDeletion(w, false);
    RemovedTwice(w.remote.accounts, ids, ids, DoomedIds(s, false));
  }

  /** While the accounts cannot be listed, re-running finishes every interrupted deletion in
      the same place if and only if the fallback lists agree. */
  lemma UnlistedDeletionRecoversIff(w: World)
    requires HasKey(w) && AtMostOneLive(w.hedges)
    ensures AlwaysRecovers(w, DeleteService(false)) <==> FallbackAgrees(w)
  {
    if FallbackAgrees(w) {
      forall cuts: seq<nat>
        ensures RunWhole(Interrupted(w, DeleteService(false), cuts), DeleteService(false))
                == RunWhole(w, DeleteService(false))
      {
        AgreementRecovers(w, cuts);
      }
    } else {
      var k := DisagreementShows(w);
      assert [k][1..] == [];
      assert Interrupted(w, DeleteService(false), [k]) == RunCut(w, DeleteService(false), k);
    }
  }

  // ------------------------------------------------------------- what a deletion leaves

  ghost predicate NoneLeft(w: World) {
    forall i :: 0 <= i < |w.remote.accounts| ==> w.remote.accounts[i].None?
  }

  /** A deletion is to remove every account. One that could not list them has done so if and
      only if the pair it fell back on was all there was. */
  lemma UnlistedDeletionLeavesNoneIff(w: World)
    requires HasKey(w)
    ensures NoneLeft(RunWhole(w, DeleteService(false))) <==>
            forall id :: id in LiveIds(w.remote.accounts) ==> id in DoomedIds(w, false)
  {
    WholeDeletion(w, false);
    var ids, accounts := DoomedIds(w, false), w.remote.accounts;
    var left := RunWhole(w, DeleteService(false)).remote.accounts;
    assert left == Removed(accounts, ids);
    if NoneLeft(RunWhole(w, DeleteService(false))) {
      forall id | id in LiveIds(accounts)
        ensures id in ids
      {
        assert left[id].None?;
      }
    }
  }

  /** Where the fallback lists agree no number of interruptions changes that. */
  lemma InterruptedDeletionLeavesNoneIff(w: World, cuts: seq<nat>)
    requires HasKey(w) && AtMostOneLive(w.hedges) && FallbackAgrees(w)
    ensures NoneLeft(RunWhole(Interrupted(w, DeleteService(false), cuts), DeleteService(false))) <==>
            forall id :: id in LiveIds(w.remote.accounts) ==> id in DoomedIds(w, false)
  {
    AgreementRecovers(w, cuts);
    UnlistedDeletionLeavesNoneIff(w);
  }

  /** A broker that was added besides the hedged one is not in that pair: its account outlives
      the deletion, and no row of the client names it any more. */
  lemma AddedBrokerOutlivesDeletion(w: World, b: nat)
    requires CommandPlan(w, BrokerAdd(b)).Ok? && FindAccount(w.remote.accounts, Identity(w.brokers[b])).None?
    requires |w.remote.accounts| !in DoomedIds(w, false)
    ensures var t := RunWhole(RunWhole(w, BrokerAdd(b)), DeleteService(false));
            var epId := |w.remote.accounts|;
            && t.provision == Some(Decommissioned(w.provision.value))
            && epId < |t.remote.accounts| && t.remote.accounts[epId] == Some(Identity(w.brokers[b]))
            && (forall i :: 0 <= i < |t.brokers| ==> t.brokers[i].epAccountId.None?)
            && (forall i :: 0 <= i < |t.props| ==> t.props[i].epAccountId.None?)
  {
    var a, epId := Identity(w.brokers[b]), |w.remote.accounts|;
    var listed := Apply(w, EpCreate(a));
    ApplyOne(w, EpCreate(a));
    ReportChangesNothing(listed, [BrokerEp(b, epId)], 0);
    ApplyAppend(w, [EpCreate(a)], [BrokerEp(b, epId)] + [Report]);
    ApplyOne(listed, BrokerEp(b, epId));
    var added := RunWhole(w, BrokerAdd(b));
    assert added == listed.(brokers := SetEp(w.brokers, b, epId));
    WholeDeletion(added, false);
  }
}
