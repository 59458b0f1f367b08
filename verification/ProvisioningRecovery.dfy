/** Crash recovery of provisioning: a worker run interrupted after any write, by a crash or
    an error, and then run again ends where an uninterrupted run ends, with two exceptions,
    a lost key and a hedge made twice, each stated and counted exactly. */
module ProvisioningRecovery {
  import opened Common
  import opened ServiceWorld
  import opened Provisioning

  /** A run that nothing interrupts; it still stops where a stage cannot be planned. */
  function Unbroken(w: World, now: int, max: nat): World
    decreases StagesLeft(StatusOf(w))
  {
    if Terminal(w) then w
    else
      var p := w.provision.value;
      var stage := StageOf(p.status).value;
      match StagePlan(w, p, stage)
      case Err(f) => HandleFailure(w, p, stage, f == Conflict, now, max).world
      case Ok(xs) =>
        StageCut(w, p, stage, 0);
        Unbroken(ApplyAll(w, xs), now, max)
  }

  lemma PlanIsShort(w: World, p: Provision, stage: Stage)
    requires w.provision == Some(p) && StagePlan(w, p, stage).Ok?
    ensures |StagePlan(w, p, stage).value| <= 4
    ensures StatusOf(ApplyAll(w, StagePlan(w, p, stage).value)) == NextStatus(stage)
  {
    WorkShape(w, p, stage);
    StageCut(w, p, stage, 0);
  }

  /** Four writes a stage are always enough for it. */
  lemma {:induction false} EnoughWrites(w: World, left: nat, fault: Fault, now: int, max: nat)
    requires left >= 4 * StagesLeft(StatusOf(w))
    ensures Process(w, left, fault, now, max).world == Unbroken(w, now, max)
    decreases StagesLeft(StatusOf(w))
  {
    if !Terminal(w) {
      var p := w.provision.value;
      var stage := StageOf(p.status).value;
      match StagePlan(w, p, stage)
      case Err(_) =>
      case Ok(xs) =>
        PlanIsShort(w, p, stage);
        EnoughWrites(ApplyAll(w, xs), left - |xs|, fault, now, max);
    }
  }

  /** What the rest of the system reads: archived hedges are history. */
  function CurrentView(w: World): World {
    w.(hedges := match LiveHedge(w.hedges) case None => [] case Some(h) => [w.hedges[h]])
  }

  /** The retry bookkeeping apart, the same record. */
  predicate SameRecord(p: Provision, q: Provision) {
    q == p.(failedStep := q.failedStep, attemptCount := q.attemptCount, nextRetryAt := q.nextRetryAt)
  }

  lemma {:induction false} SetEpKeepsNewest(accounts: seq<Account>, id: nat, epId: nat)
    ensures NewestActive(SetEp(accounts, id, epId)) == NewestActive(accounts)
  {
    if accounts != [] {
      var n := |accounts| - 1;
      SetEpKeepsNewest(accounts[..n], id, epId);
      assert SetEp(accounts, id, epId)[..n] == SetEp(accounts[..n], id, epId);
    }
  }

  /** The worlds in which registering an account can be cut short. */
  ghost predicate RegistrationCut(w: World, create: seq<Write>, x: Write, s: World) {
    s == w || s == ApplyAll(w, create) || s == Apply(ApplyAll(w, create), x)
  }

  lemma RegistrationCuts(w: World, create: seq<Write>, x: Write, k: nat)
    requires |create| <= 1
    ensures RegistrationCut(w, create, x, CutShort(w, create + [x], k))
    ensures ApplyAll(w, create + [x]) == Apply(ApplyAll(w, create), x)
  {
    var m := CutHead(w, create, [x], k);
    var w1 := ApplyAll(w, create);
    assert [x] + [] == [x];
    var n := CutHead(w1, [x], [], m);
    ApplyOne(w1, x);
  }

  /** Registering does not look at the provision record. */
  lemma RegistrationIgnoresRecord(w: World, q: Provision, a: EpAccount, x: Write)
    requires Ensure(w.remote, a).Ok? && (x.PropEp? || x.BrokerEp?)
    ensures var create := Ensure(w.remote, a).value.0;
            ApplyAll(w.(provision := Some(q)), create + [x]) == Apply(ApplyAll(w, create), x).(provision := Some(q))
  {
    var create := Ensure(w.remote, a).value.0;
    var s := w.(provision := Some(q));
    RegistrationCuts(s, create, x, 0);
    if create != [] {
      ApplyOne(w, EpCreate(a));
      ApplyOne(s, EpCreate(a));
    }
  }

  /** A stage that finds its account registered only stores the id, again. */
  lemma RegisteredAgain(w: World, q: Provision, a: EpAccount, x: Write, s: World)
    requires Ensure(w.remote, a).Ok? && (x.PropEp? || x.BrokerEp?)
    requires var w1 := ApplyAll(w, Ensure(w.remote, a).value.0);
             s == w1.(provision := Some(q)) || s == Apply(w1, x).(provision := Some(q))
    ensures Ensure(s.remote, a) == Ok(([], Ensure(w.remote, a).value.1))
    ensures ApplyAll(s, [] + [x]) == Apply(ApplyAll(w, Ensure(w.remote, a).value.0), x).(provision := Some(q))
  {
    EnsureIsIdempotent(w, a);
    RegistrationCuts(s, [], x, 0);
    assert ApplyAll(s, []) == s;
    StoringTwice(ApplyAll(w, Ensure(w.remote, a).value.0), q, x);
  }

  /** Storing an id a second time changes nothing. */
  lemma StoringTwice(w: World, q: Provision, x: Write)
    requires x.PropEp? || x.BrokerEp?
    ensures Apply(w.(provision := Some(q)), x) == Apply(w, x).(provision := Some(q))
    ensures Apply(Apply(w, x).(provision := Some(q)), x) == Apply(w, x).(provision := Some(q))
  {
  }

  lemma PropStageAgain(w: World, p: Provision, k: nat, q: Provision)
    requires w.provision == Some(p) && SameRecord(p, q) && PropWork(w, p).Ok?
    ensures var s := CutShort(w, PropWork(w, p).value.writes, k).(provision := Some(q));
            var work := PropWork(w, p).value;
            && PropWork(s, q).Ok?
            && PropWork(s, q).value.grant == work.grant
            && ApplyAll(s, PropWork(s, q).value.writes) == ApplyAll(w, work.writes).(provision := Some(q))
  {
    var id := NewestActive(w.props).value;
    var a := Identity(w.props[id]);
    var (create, epId) := Ensure(w.remote, a).value;
    EnsureIsIdempotent(w, a);
    SetEpKeepsNewest(w.props, id, epId);
    RegistrationCuts(w, create, PropEp(id, epId), k);
    var s := CutShort(w, create + [PropEp(id, epId)], k).(provision := Some(q));
    if s == w.(provision := Some(q)) {
      RegistrationIgnoresRecord(w, q, a, PropEp(id, epId));
    } else {
      RegisteredAgain(w, q, a, PropEp(id, epId), s);
    }
  }

  /** A stored id does not change which broker hedges. */
  lemma SameHedgeBroker(w: World, s: World, id: nat, epId: nat)
    requires s.hedges == w.hedges && (s.brokers == w.brokers || s.brokers == SetEp(w.brokers, id, epId))
    ensures HedgeBrokerAccount(s) == HedgeBrokerAccount(w)
  {
    SetEpKeepsNewest(w.brokers, id, epId);
  }

  lemma BrokerStageAgain(w: World, p: Provision, k: nat, q: Provision)
    requires w.provision == Some(p) && SameRecord(p, q) && BrokerWork(w, p).Ok?
    ensures var s := CutShort(w, BrokerWork(w, p).value.writes, k).(provision := Some(q));
            var work := BrokerWork(w, p).value;
            && BrokerWork(s, q).Ok?
            && BrokerWork(s, q).value.grant == work.grant
            && ApplyAll(s, BrokerWork(s, q).value.writes) == ApplyAll(w, work.writes).(provision := Some(q))
  {
    var id := HedgeBrokerAccount(w).value;
    var a := Identity(w.brokers[id]);
    var (create, epId) := Ensure(w.remote, a).value;
    EnsureIsIdempotent(w, a);
    RegistrationCuts(w, create, BrokerEp(id, epId), k);
    var s := CutShort(w, create + [BrokerEp(id, epId)], k).(provision := Some(q));
    SameHedgeBroker(w, s, id, epId);
    if s == w.(provision := Some(q)) {
      RegistrationIgnoresRecord(w, q, a, BrokerEp(id, epId));
    } else {
      RegisteredAgain(w, q, a, BrokerEp(id, epId), s);
    }
  }

  /** Archiving and then creating touches the hedges only. */
  lemma NewHedgeTakesOver(w: World, x: Hedge, k: nat) returns (hedges: seq<Hedge>)
    ensures hedges == if k == 0 then w.hedges else if k == 1 then Archive(w.hedges) else Archive(w.hedges) + [x]
    ensures CutShort(w, [ArchiveHedges] + [NewHedge(x)], k) == w.(hedges := hedges)
    ensures ApplyAll(w, [ArchiveHedges] + [NewHedge(x)]) == w.(hedges := Archive(w.hedges) + [x])
  {
    var w1 := w.(hedges := Archive(w.hedges));
    ApplyOne(w, ArchiveHedges);
    assert Apply(w, ArchiveHedges) == w1;
    assert Apply(w1, NewHedge(x)) == w.(hedges := Archive(w.hedges) + [x]);
    RegistrationCuts(w, [ArchiveHedges], NewHedge(x), k);
    CutSplit(w, [ArchiveHedges], [NewHedge(x)], k);
    ApplyOne(w1, NewHedge(x));
    hedges := if k == 0 then w.hedges else if k == 1 then Archive(w.hedges) else Archive(w.hedges) + [x];
  }

  lemma FinalStageAgain(w: World, p: Provision, k: nat, q: Provision)
    requires w.provision == Some(p) && SameRecord(p, q) && FinalWork(w, p).Ok?
    ensures var s := CutShort(w, FinalWork(w, p).value.writes, k).(provision := Some(q));
            var work := FinalWork(w, p).value;
            && FinalWork(s, q) == FinalWork(w, p)
            && CurrentView(ApplyAll(s, work.writes)) == CurrentView(ApplyAll(w, work.writes)).(provision := Some(q))
            && (k < 2 ==> ApplyAll(s, work.writes) == ApplyAll(w, work.writes).(provision := Some(q)))
            && (k >= 2 ==> |ApplyAll(s, work.writes).hedges| == |ApplyAll(w, work.writes).hedges| + 1)
  {
    var work := FinalWork(w, p).value;
    var x := work.writes[1].hedge;
    assert work.writes == [ArchiveHedges] + [NewHedge(x)];
    var s := CutShort(w, work.writes, k).(provision := Some(q));
    var hedges := NewHedgeTakesOver(w, x, k);
    var _ := NewHedgeTakesOver(s, x, 0);
    assert Archive(Archive(w.hedges)) == Archive(w.hedges);
  }

  /** The run is interrupted when the platform has issued the key and the CRM has not stored
      it: the key can never be read again. */
  predicate KeyLost(w: World, left: nat) {
    && w.provision.Some? && w.provision.value.status == PENDING
    && !(w.provision.value.epApiKey.Some? && w.provision.value.epKeyId.Some?)
    && left == 1
  }

  /** The run is interrupted when it has created the hedge and has not yet completed the
      record: the next run archives that hedge and creates another. */
  ghost predicate HedgeDoubled(w: World, left: nat)
    decreases StagesLeft(StatusOf(w))
  {
    if Terminal(w) then false
    else
      var p := w.provision.value;
      var stage := StageOf(p.status).value;
      match StagePlan(w, p, stage)
      case Err(_) => false
      case Ok(xs) =>
        StageCut(w, p, stage, left);
        if stage == Finalize then left == 2 else |xs| <= left && HedgeDoubled(ApplyAll(w, xs), left - |xs|)
  }

  /** An admin's retry, when the interrupted run failed the record. */
  function Resume(w: World, now: int): World {
    if StatusOf(w) == FAILED then Retry(w, now) else w
  }

  lemma PlanEnds(w: World, p: Provision, stage: Stage)
    requires w.provision == Some(p) && StageWork(w, p, stage).Ok?
    ensures var work := StageWork(w, p, stage).value;
            && ApplyAll(w, StagePlan(w, p, stage).value)
               == Apply(ApplyAll(w, work.writes), Transition(NextStatus(stage), work.grant))
            && ApplyAll(w, work.writes).provision == Some(p)
            && ApplyAll(w, StagePlan(w, p, stage).value).remote == ApplyAll(w, work.writes).remote
  {
    var work := StageWork(w, p, stage).value;
    StageCut(w, p, stage, |work.writes|);
    TransitionMovesRecord(ApplyAll(w, work.writes), NextStatus(stage), work.grant);
  }

  lemma TransitionMovesRecord(w: World, to: Status, grant: Grant)
    ensures Apply(w, Transition(to, grant)).remote == w.remote
  {
  }

  /** Work redone to the same effect ends, after the transition, in the same state. */
  lemma SameWorkSameEnd(w: World, p: Provision, stage: Stage, s: World, q: Provision)
    requires w.provision == Some(p) && s.provision == Some(q) && SameRecord(p, q)
    requires StageWork(w, p, stage).Ok? && StageWork(s, q, stage).Ok?
    requires StageWork(s, q, stage).value.grant == StageWork(w, p, stage).value.grant
    ensures var x := ApplyAll(w, StageWork(w, p, stage).value.writes);
            var y := ApplyAll(s, StageWork(s, q, stage).value.writes);
            var target, t := ApplyAll(w, StagePlan(w, p, stage).value), ApplyAll(s, StagePlan(s, q, stage).value);
            && (y == x.(provision := Some(q)) ==> t == target)
            && (CurrentView(y) == CurrentView(x).(provision := Some(q)) ==> CurrentView(t) == CurrentView(target))
            && |t.hedges| - |target.hedges| == |y.hedges| - |x.hedges|
  {
    PlanEnds(w, p, stage);
    PlanEnds(s, q, stage);
  }

  /** Redoing an interrupted stage comes to the same state, unless a key was lost. */
  lemma StageAgain(w: World, p: Provision, stage: Stage, k: nat, q: Provision)
    requires w.provision == Some(p) && StageOf(p.status) == Some(stage) && SameRecord(p, q)
    requires StageWork(w, p, stage).Ok?
    requires k <= |StageWork(w, p, stage).value.writes| && !KeyLost(w, k)
    ensures var s := CutShort(w, StageWork(w, p, stage).value.writes, k).(provision := Some(q));
            var target := ApplyAll(w, StagePlan(w, p, stage).value);
            && StagePlan(s, q, stage).Ok?
            && CurrentView(ApplyAll(s, StagePlan(s, q, stage).value)) == CurrentView(target)
            && (stage != Finalize || k < 2 ==> ApplyAll(s, StagePlan(s, q, stage).value) == target)
            && (stage == Finalize && k == 2 ==>
                  |ApplyAll(s, StagePlan(s, q, stage).value).hedges| == |target.hedges| + 1)
  {
    match stage {
      case CreateKey => KeyStageAgain(w, p, k, q);
      case CreatePropAccount => PropStageAgain(w, p, k, q);
      case CreateBrokerAccount => BrokerStageAgain(w, p, k, q);
      case Finalize => FinalStageAgain(w, p, k, q);
    }
    SameWorkSameEnd(w, p, stage, CutShort(w, StageWork(w, p, stage).value.writes, k).(provision := Some(q)), q);
  }

  /** A lost key is replaced by another one, and the platform has issued one too many. */
  lemma LostKeyStage(w: World, p: Provision, k: nat, q: Provision)
    requires w.provision == Some(p) && SameRecord(p, q) && KeyLost(w, k)
    ensures var s := CutShort(w, KeyWork(w, p).writes, k).(provision := Some(q));
            ApplyAll(s, StagePlan(s, q, CreateKey).value).remote.keys
            == ApplyAll(w, StagePlan(w, p, CreateKey).value).remote.keys + 1
  {
    var s := CutShort(w, KeyWork(w, p).writes, k).(provision := Some(q));
    KeyStageAgain(w, p, k, q);
    PlanEnds(w, p, CreateKey);
    PlanEnds(s, q, CreateKey);
  }

  lemma KeyStageAgain(w: World, p: Provision, k: nat, q: Provision)
    requires w.provision == Some(p) && p.status == PENDING && SameRecord(p, q) && k <= |KeyWork(w, p).writes|
    ensures var work := KeyWork(w, p);
            var s := CutShort(w, work.writes, k).(provision := Some(q));
            && (!KeyLost(w, k) ==> KeyWork(s, q) == work
                                   && ApplyAll(s, work.writes) == ApplyAll(w, work.writes).(provision := Some(q)))
            && (KeyLost(w, k) ==>
                  ApplyAll(s, KeyWork(s, q).writes).remote.keys == ApplyAll(w, work.writes).remote.keys + 1)
  {
    var work := KeyWork(w, p);
    var s := CutShort(w, work.writes, k).(provision := Some(q));
    if work.writes != [] {
      ApplyOne(w, EpNewKey);
      ApplyOne(s, EpNewKey);
      assert work.writes[..1] == [EpNewKey];
    }
  }

  /** Issuing keys is all that moves the key counter, and it moves up. */
  lemma {:induction false} UnbrokenKeepsKeys(w: World, now: int, max: nat)
    requires StatusOf(w) != PENDING
    ensures Unbroken(w, now, max).remote.keys == w.remote.keys
    decreases StagesLeft(StatusOf(w))
  {
    if !Terminal(w) {
      var p := w.provision.value;
      var stage := StageOf(p.status).value;
      if StagePlan(w, p, stage).Ok? {
        PlanIsShort(w, p, stage);
        NoKeyWrites(w, p, stage);
        UnbrokenKeepsKeys(ApplyAll(w, StagePlan(w, p, stage).value), now, max);
      }
    }
  }

  lemma NoKeyWrites(w: World, p: Provision, stage: Stage)
    requires StagePlan(w, p, stage).Ok? && stage != CreateKey
    ensures ApplyAll(w, StagePlan(w, p, stage).value).remote.keys == w.remote.keys
  {
    WorkShape(w, p, stage);
    KeysKept(w, StagePlan(w, p, stage).value);
  }

  lemma {:induction false} KeysKept(w: World, xs: seq<Write>)
    requires forall i :: 0 <= i < |xs| ==> !xs[i].EpNewKey?
    ensures ApplyAll(w, xs).remote.keys == w.remote.keys
    decreases |xs|
  {
    if xs != [] { KeysKept(Apply(w, xs[0]), xs[1..]); }
  }

  /** The record a failure and a retry leave is the one the stage started from. */
  lemma FailureThenRetry(s: World, p: Provision, stage: Stage, conflict: bool, now: int, later: int, max: nat)
    requires s.provision == Some(p) && StageOf(p.status) == Some(stage)
    ensures var t := Resume(HandleFailure(s, p, stage, conflict, now, max).world, later);
            && t.provision.Some? && SameRecord(p, t.provision.value)
            && t == s.(provision := t.provision)
  {
  }

  /** An admin's retry that lands while a step is failing survives the step's failure write
      if and only if the step had failed before: a first failure cannot tell the reset row
      from the one it started from. */
  lemma RetrySurvivesIff(s: World, p: Provision, stage: Stage, conflict: bool, at: int, now: int, max: nat)
    requires s.provision == Some(p) && StageOf(p.status) == Some(stage)
    ensures HandleFailure(Retry(s, at), p, stage, conflict, now, max).world == Retry(s, at) <==> p.attemptCount > 0
  {
    var q := Retry(s, at).provision.value;
    assert q.status == p.status && q.attemptCount == 0;
  }

  /** The same for a reprovision, which also moves the status back. */
  lemma ReprovisionSurvivesIff(s: World, p: Provision, stage: Stage, conflict: bool, at: int, now: int, max: nat)
    requires s.provision == Some(p) && StageOf(p.status) == Some(stage)
    ensures var reset := Apply(s, ResetProvision(at));
            HandleFailure(reset, p, stage, conflict, now, max).world == reset <==>
            p.attemptCount > 0 || p.status != (if p.epApiKey.Some? then KEY_CREATED else PENDING)
  {
    var q := Apply(s, ResetProvision(at)).provision.value;
    assert q.attemptCount == 0;
  }

  /** How an interrupted run ends when its first stage is cut, after a retry if it failed. */
  lemma RunStops(w: World, left: nat, fault: Fault, now: int, later: int, max: nat) returns (k: nat, s: World)
    requires !Terminal(w) && StagePlan(w, w.provision.value, StageOf(w.provision.value.status).value).Ok?
    requires left < |StagePlan(w, w.provision.value, StageOf(w.provision.value.status).value).value|
    ensures s == Resume(Process(w, left, fault, now, max).world, later)
    ensures var p := w.provision.value;
            var stage := StageOf(p.status).value;
            var work := StageWork(w, p, stage).value;
            if left <= |work.writes| then
              && k == left && s.provision.Some? && SameRecord(p, s.provision.value)
              && s == CutShort(w, work.writes, k).(provision := s.provision)
            else s == ApplyAll(w, StagePlan(w, p, stage).value)
  {
    var p := w.provision.value;
    var stage := StageOf(p.status).value;
    var xs := StagePlan(w, p, stage).value;
    StageCut(w, p, stage, left);
    k := left;
    s := Resume(Process(w, left, fault, now, max).world, later);
    if left <= |StageWork(w, p, stage).value.writes| && fault.Throws? {
      FailureThenRetry(CutShort(w, xs, left), p, stage, fault.conflict, now, later, max);
    }
  }

  lemma UnbrokenUnfolds(w: World, p: Provision, stage: Stage, now: int, max: nat)
    requires w.provision == Some(p) && StageOf(p.status) == Some(stage) && StagePlan(w, p, stage).Ok?
    ensures var moved := ApplyAll(w, StagePlan(w, p, stage).value);
            && Unbroken(w, now, max) == Unbroken(moved, now, max)
            && StatusOf(moved) == NextStatus(stage)
  {
    StageCut(w, p, stage, 0);
  }

  /** The claim for a stage redone after k of its writes. */
  lemma RedoneStageIff(w: World, p: Provision, stage: Stage, k: nat, s: World, now: int, max: nat)
    requires w.provision == Some(p) && StageOf(p.status) == Some(stage) && StageWork(w, p, stage).Ok?
    requires k <= |StageWork(w, p, stage).value.writes|
    requires s.provision.Some? && SameRecord(p, s.provision.value)
    requires s == CutShort(w, StageWork(w, p, stage).value.writes, k).(provision := s.provision)
    ensures CurrentView(Unbroken(s, now, max)) == CurrentView(Unbroken(w, now, max)) <==> !KeyLost(w, k)
    ensures Unbroken(s, now, max) == Unbroken(w, now, max) <==> !KeyLost(w, k) && !(stage == Finalize && k == 2)
  {
    var q := s.provision.value;
    if !KeyLost(w, k) { StageAgain(w, p, stage, k, q); }
    UnbrokenUnfolds(w, p, stage, now, max);
    UnbrokenUnfolds(s, q, stage, now, max);
    if KeyLost(w, k) {
      LostKeyStage(w, p, k, q);
      UnbrokenKeepsKeys(ApplyAll(w, StagePlan(w, p, stage).value), now, max);
      UnbrokenKeepsKeys(ApplyAll(s, StagePlan(s, q, stage).value), now, max);
    }
  }

  /** The plan of the stage a run starts with. */
  function FirstPlan(w: World): Result<seq<Write>, Failure>
    requires !Terminal(w)
  {
    StagePlan(w, w.provision.value, StageOf(w.provision.value.status).value)
  }

  /** The claim for a run that is interrupted in its first stage. */
  lemma FirstStageIff(w: World, left: nat, fault: Fault, at: int, later: int, now: int, max: nat)
    requires !Terminal(w) && FirstPlan(w).Ok? && left < |FirstPlan(w).value|
    ensures var s := Resume(Process(w, left, fault, at, max).world, later);
            && (CurrentView(Unbroken(s, now, max)) == CurrentView(Unbroken(w, now, max)) <==> !KeyLost(w, left))
            && (Unbroken(s, now, max) == Unbroken(w, now, max) <==> !KeyLost(w, left) && !HedgeDoubled(w, left))
  {
    var p := w.provision.value;
    var stage := StageOf(p.status).value;
    var k, s := RunStops(w, left, fault, at, later, max);
    if left <= |StageWork(w, p, stage).value.writes| {
      RedoneStageIff(w, p, stage, k, s, now, max);
    } else {
      UnbrokenUnfolds(w, p, stage, now, max);
    }
  }

  /** A run that gets through its first stage has lost no key there. */
  lemma BeyondFirstStage(w: World, left: nat)
    requires !Terminal(w) && FirstPlan(w).Ok? && |FirstPlan(w).value| <= left
    ensures !KeyLost(w, left)
    ensures HedgeDoubled(w, left) == HedgeDoubled(ApplyAll(w, FirstPlan(w).value), left - |FirstPlan(w).value|)
  {
    var p := w.provision.value;
    var stage := StageOf(p.status).value;
    StageCut(w, p, stage, left);
    if stage == Finalize {
      LastPlan(w, p);
    }
  }

  /** The last stage makes four writes and ends the run. */
  lemma LastPlan(w: World, p: Provision)
    requires w.provision == Some(p) && StageOf(p.status) == Some(Finalize) && StagePlan(w, p, Finalize).Ok?
    ensures |StagePlan(w, p, Finalize).value| == 4 && Terminal(ApplyAll(w, StagePlan(w, p, Finalize).value))
  {
    PlanIsShort(w, p, Finalize);
  }

  lemma CompletingRunsPlan(w: World, now: int, max: nat) returns (moved: World)
    requires !Terminal(w) && StatusOf(Unbroken(w, now, max)) == COMPLETED
    ensures FirstPlan(w).Ok? && moved == ApplyAll(w, FirstPlan(w).value)
    ensures Unbroken(w, now, max) == Unbroken(moved, now, max)
    ensures StagesLeft(StatusOf(moved)) < StagesLeft(StatusOf(w)) && StatusOf(moved) != PENDING
    ensures Terminal(moved) ==> StatusOf(moved) == COMPLETED
  {
    var p := w.provision.value;
    var stage := StageOf(p.status).value;
    StageCut(w, p, stage, 0);
    UnbrokenUnfolds(w, p, stage, now, max);
    moved := ApplyAll(w, FirstPlan(w).value);
  }

  /** The start of the stage in which the run is interrupted, or the completed end. */
  lemma {:induction false} InterruptedStage(w: World, left: nat, fault: Fault, at: int, now: int, max: nat)
    returns (v: World, rest: nat)
    requires !Terminal(w) && StatusOf(Unbroken(w, now, max)) == COMPLETED
    ensures Process(w, left, fault, at, max) == Process(v, rest, fault, at, max)
    ensures Unbroken(w, now, max) == Unbroken(v, now, max)
    ensures KeyLost(w, left) == KeyLost(v, rest) && HedgeDoubled(w, left) == HedgeDoubled(v, rest)
    ensures if Terminal(v) then StatusOf(v) == COMPLETED else FirstPlan(v).Ok? && rest < |FirstPlan(v).value|
    decreases StagesLeft(StatusOf(w))
  {
    var moved := CompletingRunsPlan(w, now, max);
    var n := |FirstPlan(w).value|;
    if left < n {
      v, rest := w, left;
    } else {
      BeyondFirstStage(w, left);
      if Terminal(moved) {
        v, rest := moved, left - n;
      } else {
        v, rest := InterruptedStage(moved, left - n, fault, at, now, max);
      }
    }
  }

  /** Interrupt a run that would have completed after any of its writes, let an admin retry
      it if it failed, and run it again: it completes in the same state, unless the
      interruption lost a key, and then it does not. The history is the same too, unless
      the hedge was made twice. */
  lemma RunRecoversIff(w: World, left: nat, fault: Fault, at: int, later: int, now: int, max: nat)
    requires !Terminal(w) && StatusOf(Unbroken(w, now, max)) == COMPLETED
    ensures var s := Resume(Process(w, left, fault, at, max).world, later);
            && (CurrentView(Unbroken(s, now, max)) == CurrentView(Unbroken(w, now, max)) <==> !KeyLost(w, left))
            && (Unbroken(s, now, max) == Unbroken(w, now, max) <==> !KeyLost(w, left) && !HedgeDoubled(w, left))
  {
    var v, rest := InterruptedStage(w, left, fault, at, now, max);
    if !Terminal(v) { FirstStageIff(v, rest, fault, at, later, now, max); }
  }

  // ---------------------------------------------------------------------- a lost key

  /** The same user with another key, of more that were issued. */
  function Rekeyed(w: World, key: nat, keys: nat): World {
    SetProvision(w.(remote := w.remote.(keys := keys)),
                 (p: Provision) => p.(epApiKey := Some(key), epKeyId := Some(key)))
  }

  /** Writes whose effect has nothing to do with the key. */
  predicate KeyBlind(x: Write) {
    (OffRecord(x) && !x.EpNewKey?) || x.Report? || (x.Transition? && !x.grant.GrantKey?)
  }

  lemma RekeyedWrite(w: World, x: Write, key: nat, keys: nat)
    requires KeyBlind(x)
    ensures Apply(Rekeyed(w, key, keys), x) == Rekeyed(Apply(w, x), key, keys)
  {
  }

  lemma {:induction false} RekeyedWrites(w: World, xs: seq<Write>, key: nat, keys: nat)
    requires forall i :: 0 <= i < |xs| ==> KeyBlind(xs[i])
    ensures ApplyAll(Rekeyed(w, key, keys), xs) == Rekeyed(ApplyAll(w, xs), key, keys)
    decreases |xs|
  {
    if xs != [] {
      RekeyedWrite(w, xs[0], key, keys);
      RekeyedWrites(Apply(w, xs[0]), xs[1..], key, keys);
    }
  }

  lemma StageIsKeyBlind(w: World, p: Provision, stage: Stage)
    requires StagePlan(w, p, stage).Ok? && stage != CreateKey
    ensures forall i :: 0 <= i < |StagePlan(w, p, stage).value| ==> KeyBlind(StagePlan(w, p, stage).value[i])
  {
    WorkShape(w, p, stage);
    assert !StageWork(w, p, stage).value.grant.GrantKey?;
  }

  /** From the second stage on a plan depends on there being a key, not on which it is. */
  lemma RekeyedPlan(w: World, p: Provision, stage: Stage, key: nat, keys: nat)
    requires w.provision == Some(p) && stage != CreateKey && StagePlan(w, p, stage).Ok?
    ensures StagePlan(Rekeyed(w, key, keys), p.(epApiKey := Some(key), epKeyId := Some(key)), stage)
            == StagePlan(w, p, stage)
  {
  }

  lemma {:induction false} RekeyedUnbroken(w: World, key: nat, keys: nat, now: int, max: nat)
    requires StatusOf(w) != PENDING && StatusOf(Unbroken(w, now, max)) == COMPLETED
    ensures Unbroken(Rekeyed(w, key, keys), now, max) == Rekeyed(Unbroken(w, now, max), key, keys)
    decreases StagesLeft(StatusOf(w))
  {
    if !Terminal(w) {
      var p := w.provision.value;
      var q := p.(epApiKey := Some(key), epKeyId := Some(key));
      var stage := StageOf(p.status).value;
      var moved := CompletingRunsPlan(w, now, max);
      RekeyedPlan(w, p, stage, key, keys);
      StageIsKeyBlind(w, p, stage);
      RekeyedWrites(w, FirstPlan(w).value, key, keys);
      UnbrokenUnfolds(Rekeyed(w, key, keys), q, stage, now, max);
      RekeyedUnbroken(moved, key, keys, now, max);
    }
  }

  /** The first stage of a record without a key, as a list of writes ... */
  lemma KeyPlan(w: World, p: Provision)
    requires !(p.epApiKey.Some? && p.epKeyId.Some?)
    ensures StagePlan(w, p, CreateKey) == Ok([EpNewKey] + Finish(CreateKey, GrantKey(w.remote.keys)))
  {
  }

  lemma KeyWritesRun(w: World, grant: Grant)
    ensures ApplyAll(w, [EpNewKey] + Finish(CreateKey, grant))
            == Apply(Apply(w, EpNewKey), Transition(KEY_CREATED, grant))
  {
    ApplyAppend(w, [EpNewKey], Finish(CreateKey, grant));
    ApplyOne(w, EpNewKey);
    FinishCut(Apply(w, EpNewKey), CreateKey, grant, 0);
  }

  /** The world once its first key has been issued. */
  function Issued(w: World): World {
    w.(remote := w.remote.(keys := w.remote.keys + 1))
  }

  /** ... and once the record holds it. */
  function KeyStored(w: World, p: Provision): World {
    Issued(w).(provision := Some(Moved(p, KEY_CREATED, GrantKey(w.remote.keys))))
  }

  lemma KeyStageEnds(w: World, p: Provision)
    requires w.provision == Some(p) && !(p.epApiKey.Some? && p.epKeyId.Some?)
    ensures StagePlan(w, p, CreateKey).Ok? && ApplyAll(w, StagePlan(w, p, CreateKey).value) == KeyStored(w, p)
  {
    KeyPlan(w, p);
    KeyWritesRun(w, GrantKey(w.remote.keys));
    StoringTheKey(w, p);
  }

  lemma StoringTheKey(w: World, p: Provision)
    requires w.provision == Some(p)
    ensures Apply(Apply(w, EpNewKey), Transition(KEY_CREATED, GrantKey(w.remote.keys))) == KeyStored(w, p)
  {
  }

  lemma KeyStageUnfolds(w: World, p: Provision, now: int, max: nat)
    requires w.provision == Some(p) && p.status == PENDING && !(p.epApiKey.Some? && p.epKeyId.Some?)
    ensures Unbroken(w, now, max) == Unbroken(KeyStored(w, p), now, max)
  {
    KeyStageEnds(w, p);
    UnbrokenUnfolds(w, p, CreateKey, now, max);
  }

  /** After a lost key the stage ends as it would have, with the next key instead. */
  lemma LostKeyIsReplaced(w: World, p: Provision, q: Provision)
    requires SameRecord(p, q)
    ensures KeyStored(Issued(w).(provision := Some(q)), q)
            == Rekeyed(KeyStored(w, p), w.remote.keys + 1, w.remote.keys + 2)
  {
  }

  // ------------------------------------------------------------------ one interruption

  /** What an interruption leaves in the completed state: one key more if it lost one, one
      archived hedge more if it made the hedge twice. */
  ghost predicate Leaves(once: World, end: World, keys: nat, hedges: nat) {
    && StatusOf(once) == StatusOf(end) == COMPLETED
    && end.remote.keys == once.remote.keys + keys
    && |end.hedges| == |once.hedges| + hedges
  }

  lemma LostKeyEnds(w: World, p: Provision, q: Provision, now: int, max: nat)
    requires StatusOf(Unbroken(w, now, max)) == COMPLETED && w.provision == Some(p) && SameRecord(p, q) && KeyLost(w, 1)
    ensures Leaves(Unbroken(w, now, max), Unbroken(Issued(w).(provision := Some(q)), now, max), 1, 0)
  {
    var moved, n := KeyStored(w, p), w.remote.keys;
    KeyStageUnfolds(w, p, now, max);
    KeyStageUnfolds(Issued(w).(provision := Some(q)), q, now, max);
    LostKeyIsReplaced(w, p, q);
    RekeyedUnbroken(moved, n + 1, n + 2, now, max);
    UnbrokenKeepsKeys(moved, now, max);
    RekeyedLeaves(Unbroken(moved, now, max), n + 1);
  }

  lemma RekeyedLeaves(once: World, n: nat)
    requires StatusOf(once) == COMPLETED && once.remote.keys == n
    ensures Leaves(once, Rekeyed(once, n, n + 1), 1, 0)
  {
  }

  lemma LostKeyLeaves(w: World, left: nat, fault: Fault, at: int, later: int, now: int, max: nat)
    requires StatusOf(Unbroken(w, now, max)) == COMPLETED && KeyLost(w, left)
    ensures Leaves(Unbroken(w, now, max),
                   Unbroken(Resume(Process(w, left, fault, at, max).world, later), now, max), 1, 0)
    ensures !HedgeDoubled(w, left)
  {
    var p := w.provision.value;
    KeyPlan(w, p);
    assert KeyWork(w, p).writes == [EpNewKey];
    var k, s := RunStops(w, left, fault, at, later, max);
    ApplyOne(w, EpNewKey);
    LostKeyEnds(w, p, s.provision.value, now, max);
  }

  lemma DoubledHedgeLeaves(w: World, left: nat, fault: Fault, at: int, later: int, now: int, max: nat)
    requires !Terminal(w) && StatusOf(Unbroken(w, now, max)) == COMPLETED && HedgeDoubled(w, left) && !KeyLost(w, left)
    ensures Leaves(Unbroken(w, now, max),
                   Unbroken(Resume(Process(w, left, fault, at, max).world, later), now, max), 0, 1)
  {
    var v, rest := InterruptedStage(w, left, fault, at, now, max);
    if !Terminal(v) { DoubledInLastStage(v, rest, fault, at, later, now, max); }
  }

  lemma DoubledInLastStage(w: World, left: nat, fault: Fault, at: int, later: int, now: int, max: nat)
    requires !Terminal(w) && FirstPlan(w).Ok? && left < |FirstPlan(w).value| && HedgeDoubled(w, left)
    ensures Leaves(Unbroken(w, now, max),
                   Unbroken(Resume(Process(w, left, fault, at, max).world, later), now, max), 0, 1)
  {
    var p := w.provision.value;
    var k, s := RunStops(w, left, fault, at, later, max);
    var q := s.provision.value;
    StageAgain(w, p, Finalize, 2, q);
    LastStageCompletes(w, p, now, max);
    LastStageCompletes(s, q, now, max);
  }

  lemma LastStageCompletes(w: World, p: Provision, now: int, max: nat)
    requires w.provision == Some(p) && StageOf(p.status) == Some(Finalize) && StagePlan(w, p, Finalize).Ok?
    ensures Unbroken(w, now, max) == ApplyAll(w, StagePlan(w, p, Finalize).value)
    ensures StatusOf(Unbroken(w, now, max)) == COMPLETED
  {
    UnbrokenUnfolds(w, p, Finalize, now, max);
  }

  lemma RunLeaves(w: World, left: nat, fault: Fault, at: int, later: int, now: int, max: nat)
    requires StatusOf(Unbroken(w, now, max)) == COMPLETED
    ensures Leaves(Unbroken(w, now, max), Unbroken(Resume(Process(w, left, fault, at, max).world, later), now, max),
                   if KeyLost(w, left) then 1 else 0, if HedgeDoubled(w, left) then 1 else 0)
  {
    if Terminal(w) {
    } else if KeyLost(w, left) {
      LostKeyLeaves(w, left, fault, at, later, now, max);
    } else if HedgeDoubled(w, left) {
      DoubledHedgeLeaves(w, left, fault, at, later, now, max);
    } else {
      RunRecoversIff(w, left, fault, at, later, now, max);
    }
  }

  // ----------------------------------------------------------------- any number of them

  /** An interrupted run, and a retry if it failed the record. */
  function AfterRun(w: World, run: WorkerRun, max: nat): World {
    Resume(Process(w, run.left, run.fault, run.now, max).world, run.now)
  }

  function InterruptedRuns(w: World, runs: seq<WorkerRun>, max: nat): World
    decreases |runs|
  {
    if runs == [] then w else InterruptedRuns(AfterRun(w, runs[0], max), runs[1..], max)
  }

  /** The runs that stop between issuing a key and storing it. */
  function KeysLost(w: World, runs: seq<WorkerRun>, max: nat): nat
    decreases |runs|
  {
    if runs == [] then 0
    else (if KeyLost(w, runs[0].left) then 1 else 0) + KeysLost(AfterRun(w, runs[0], max), runs[1..], max)
  }

  /** The runs that stop between creating the hedge and completing the record. */
  ghost function HedgesDoubled(w: World, runs: seq<WorkerRun>, max: nat): nat
    decreases |runs|
  {
    if runs == [] then 0
    else (if HedgeDoubled(w, runs[0].left) then 1 else 0) + HedgesDoubled(AfterRun(w, runs[0], max), runs[1..], max)
  }

  /** However often provisioning is interrupted, and wherever, it completes all the same;
      every key lost on the way is one key more on the platform, every hedge made twice one
      archived hedge more, and there is no other. */
  lemma {:induction false} InterruptedRunsLeave(w: World, runs: seq<WorkerRun>, now: int, max: nat)
    requires StatusOf(Unbroken(w, now, max)) == COMPLETED
    ensures Leaves(Unbroken(w, now, max), Unbroken(InterruptedRuns(w, runs, max), now, max),
                   KeysLost(w, runs, max), HedgesDoubled(w, runs, max))
    decreases |runs|
  {
    if runs != [] {
      RunLeaves(w, runs[0].left, runs[0].fault, runs[0].now, runs[0].now, now, max);
      InterruptedRunsLeave(AfterRun(w, runs[0], max), runs[1..], now, max);
    }
  }

  lemma {:induction false} HarmlessRunsLeaveNoTrace(w: World, runs: seq<WorkerRun>, now: int, max: nat)
    requires StatusOf(Unbroken(w, now, max)) == COMPLETED && KeysLost(w, runs, max) == 0
    ensures CurrentView(Unbroken(InterruptedRuns(w, runs, max), now, max)) == CurrentView(Unbroken(w, now, max))
    ensures HedgesDoubled(w, runs, max) == 0 ==>
              Unbroken(InterruptedRuns(w, runs, max), now, max) == Unbroken(w, now, max)
    decreases |runs|
  {
    if runs != [] {
      var run, s := runs[0], AfterRun(w, runs[0], max);
      if !Terminal(w) { RunRecoversIff(w, run.left, run.fault, run.now, run.now, now, max); }
      RunLeaves(w, run.left, run.fault, run.now, run.now, now, max);
      HarmlessRunsLeaveNoTrace(s, runs[1..], now, max);
    }
  }

  /** So any number of interruptions leave no trace in the completed state if and only if
      none of them lost a key, and none in its history either if and only if moreover none
      made the hedge twice. */
  lemma InterruptedRunsRecoverIff(w: World, runs: seq<WorkerRun>, now: int, max: nat)
    requires StatusOf(Unbroken(w, now, max)) == COMPLETED
    ensures var once, end := Unbroken(w, now, max), Unbroken(InterruptedRuns(w, runs, max), now, max);
            && (CurrentView(end) == CurrentView(once) <==> KeysLost(w, runs, max) == 0)
            && (end == once <==> KeysLost(w, runs, max) == 0 && HedgesDoubled(w, runs, max) == 0)
  {
    InterruptedRunsLeave(w, runs, now, max);
    if KeysLost(w, runs, max) == 0 { HarmlessRunsLeaveNoTrace(w, runs, now, max); }
  }
}
