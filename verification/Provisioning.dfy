/** The provisioning worker: four stages, each a list of writes ending in a status
    transition, run in order until one is interrupted. */
module Provisioning {
  import opened Common
  import opened ServiceWorld

  // ------------------------------------------------------------------------- stages

  function StageOf(status: Status): Option<Stage> {
    match status
    case PENDING => Some(CreateKey)
    case KEY_CREATED => Some(CreatePropAccount)
    case PROP_ACCOUNT_CREATED => Some(CreateBrokerAccount)
    case BROKER_ACCOUNT_CREATED => Some(Finalize)
    case _ => None
  }

  /** The status from which a retry resumes a stage. */
  function ResumeStatus(stage: Stage): (status: Status)
    ensures StageOf(status) == Some(stage)
  {
    match stage
    case CreateKey => PENDING
    case CreatePropAccount => KEY_CREATED
    case CreateBrokerAccount => PROP_ACCOUNT_CREATED
    case Finalize => BROKER_ACCOUNT_CREATED
  }

  function NextStatus(stage: Stage): Status {
    match stage
    case CreateKey => KEY_CREATED
    case CreatePropAccount => PROP_ACCOUNT_CREATED
    case CreateBrokerAccount => BROKER_ACCOUNT_CREATED
    case Finalize => COMPLETED
  }

  /** How many stages a record still has before it. */
  function StagesLeft(status: Status): nat {
    match StageOf(status)
    case None => 0
    case Some(CreateKey) => 4
    case Some(CreatePropAccount) => 3
    case Some(CreateBrokerAccount) => 2
    case Some(Finalize) => 1
  }

  // ---------------------------------------------------------------- what a stage reads

  /** The newest active account. */
  function NewestActive(accounts: seq<Account>): (r: Option<nat>)
    ensures r.Some? ==> r.value < |accounts| && accounts[r.value].active
    ensures r.Some? ==> forall i :: r.value < i < |accounts| ==> !accounts[i].active
    ensures r.None? ==> forall i :: 0 <= i < |accounts| ==> !accounts[i].active
  {
    if accounts == [] then None
    else
      var n := |accounts| - 1;
      if accounts[n].active then Some(n) else NewestActive(accounts[..n])
  }

  /** The broker of the live hedge unless it was archived, or else the newest active one. */
  function HedgeBrokerAccount(w: World): (r: Option<nat>)
    ensures r.Some? ==> r.value < |w.brokers|
  {
    var hedge := LiveHedge(w.hedges);
    if hedge.Some? && w.hedges[hedge.value].brokerAccountId < |w.brokers|
       && w.brokers[w.hedges[hedge.value].brokerAccountId].active
    then Some(w.hedges[hedge.value].brokerAccountId)
    else NewestActive(w.brokers)
  }

  /** The CRM account registered under this id. */
  function FindByEp(accounts: seq<Account>, epId: nat): (r: Option<nat>)
    ensures r.Some? ==> r.value < |accounts| && accounts[r.value].epAccountId == Some(epId)
    ensures r.Some? ==> forall i :: 0 <= i < r.value ==> accounts[i].epAccountId != Some(epId)
    ensures r.None? ==> forall i :: 0 <= i < |accounts| ==> accounts[i].epAccountId != Some(epId)
  {
    if accounts == [] then None
    else
      match FindByEp(accounts[..|accounts| - 1], epId)
      case Some(i) => Some(i)
      case None => if accounts[|accounts| - 1].epAccountId == Some(epId) then Some(|accounts| - 1) else None
  }

  // ------------------------------------------------------------------------ the plans

  /** What a stage does before its transition, and what the transition stores. */
  datatype Work = Work(writes: seq<Write>, grant: Grant)

  function KeyWork(w: World, p: Provision): Work {
    if p.epApiKey.Some? && p.epKeyId.Some? then Work([], NoGrant) else Work([EpNewKey], GrantKey(w.remote.keys))
  }

  function PropWork(w: World, p: Provision): Result<Work, Failure> {
    var prop := NewestActive(w.props);
    if p.epApiKey.None? || prop.None? then Err(OtherError)
    else
      match Ensure(w.remote, Identity(w.props[prop.value]))
      case Err(f) => Err(f)
      case Ok((create, epId)) => Ok(Work(create + [PropEp(prop.value, epId)], GrantProp(epId)))
  }

  function BrokerWork(w: World, p: Provision): Result<Work, Failure> {
    var broker := HedgeBrokerAccount(w);
    if p.epApiKey.None? || broker.None? then Err(OtherError)
    else
      match Ensure(w.remote, Identity(w.brokers[broker.value]))
      case Err(f) => Err(f)
      case Ok((create, epId)) => Ok(Work(create + [BrokerEp(broker.value, epId)], GrantBroker(epId)))
  }

  function FinalWork(w: World, p: Provision): Result<Work, Failure> {
    if p.epPropAccountId.None? || p.epBrokerAccountId.None? then Err(OtherError)
    else
      var prop, broker := FindByEp(w.props, p.epPropAccountId.value), FindByEp(w.brokers, p.epBrokerAccountId.value);
      if prop.None? || broker.None? then Err(OtherError)
      else
        var hedge := Hedge(prop.value, broker.value, p.epPropAccountId.value, p.epBrokerAccountId.value, Active);
        Ok(Work([ArchiveHedges] + [NewHedge(hedge)], NoGrant))
  }

  function StageWork(w: World, p: Provision, stage: Stage): Result<Work, Failure> {
    match stage
    case CreateKey => Ok(KeyWork(w, p))
    case CreatePropAccount => PropWork(w, p)
    case CreateBrokerAccount => BrokerWork(w, p)
    case Finalize => FinalWork(w, p)
  }

  function Finish(stage: Stage, grant: Grant): seq<Write> {
    [Transition(NextStatus(stage), grant)] + [Report]
  }

  function StagePlan(w: World, p: Provision, stage: Stage): Result<seq<Write>, Failure> {
    match StageWork(w, p, stage)
    case Err(f) => Err(f)
    case Ok(work) => Ok(work.writes + Finish(stage, work.grant))
  }

  /** A write that leaves the provision record alone. */
  predicate OffRecord(x: Write) {
    x.EpNewKey? || x.EpCreate? || x.PropEp? || x.BrokerEp? || x.ArchiveHedges? || x.NewHedge?
  }

  lemma {:induction false} OffRecordWrites(w: World, xs: seq<Write>)
    requires forall i :: 0 <= i < |xs| ==> OffRecord(xs[i])
    ensures ApplyAll(w, xs).provision == w.provision
    decreases |xs|
  {
    if xs != [] { OffRecordWrites(Apply(w, xs[0]), xs[1..]); }
  }

  /** What the work of a stage can consist of. */
  lemma WorkShape(w: World, p: Provision, stage: Stage)
    requires StageWork(w, p, stage).Ok?
    ensures var xs := StageWork(w, p, stage).value.writes;
            && |xs| <= 2
            && forall i :: 0 <= i < |xs| ==>
                 && OffRecord(xs[i])
                 && (stage != Finalize ==> !xs[i].ArchiveHedges? && !xs[i].NewHedge?)
                 && (stage != CreateKey ==> !xs[i].EpNewKey?)
  {
    match stage
    case CreateKey =>
    case CreatePropAccount =>
    case CreateBrokerAccount =>
    case Finalize =>
  }

  /** A stage that is cut short has either not moved the record at all, or made its whole
      work and its transition. */
  lemma StageCut(w: World, p: Provision, stage: Stage, k: nat)
    requires w.provision == Some(p) && StageWork(w, p, stage).Ok?
    ensures var work := StageWork(w, p, stage).value;
            var xs := StagePlan(w, p, stage).value;
            var moved := Apply(ApplyAll(w, work.writes), Transition(NextStatus(stage), work.grant));
            && |xs| == |work.writes| + 2
            && ApplyAll(w, xs) == moved
            && moved.provision == Some(Moved(p, NextStatus(stage), work.grant))
            && CutShort(w, work.writes, k).provision == Some(p)
            && CutShort(w, xs, k) == if k <= |work.writes| then CutShort(w, work.writes, k) else moved
  {
    var work := StageWork(w, p, stage).value;
    var ahead := ApplyAll(w, work.writes);
    WorkShape(w, p, stage);
    OffRecordWrites(w, if k < |work.writes| then work.writes[..k] else work.writes);
    OffRecordWrites(w, work.writes);
    ApplyAppend(w, work.writes, Finish(stage, work.grant));
    CutSplit(w, work.writes, Finish(stage, work.grant), k);
    FinishCut(ahead, stage, work.grant, if k < |work.writes| then 0 else k - |work.writes|);
  }

  lemma FinishCut(w: World, stage: Stage, grant: Grant, k: nat)
    ensures ApplyAll(w, Finish(stage, grant)) == Apply(w, Transition(NextStatus(stage), grant))
    ensures CutShort(w, Finish(stage, grant), k) == if k == 0 then w else Apply(w, Transition(NextStatus(stage), grant))
  {
    var x := Transition(NextStatus(stage), grant);
    ApplyOne(w, x);
    ApplyAppend(w, [x], [Report]);
    ApplyOne(Apply(w, x), Report);
    CutSplit(w, [x], [Report], k);
  }

  // ------------------------------------------------------------------------- one run

  /** What an interruption does: the process dies, or the error reaches the failure
      handler. A run whose writes suffice is not interrupted. */
  datatype Fault = Dies | Throws(conflict: bool)

  /** The state a run leaves and the retry delay it schedules. */
  datatype Outcome = Outcome(world: World, delay: nat)

  /** The failure write, guarded by the status and the attempt count the step started from. */
  function HandleFailure(w: World, stale: Provision, stage: Stage, conflict: bool, now: int, max: nat): Outcome {
    var attempts := stale.attemptCount + 1;
    if w.provision.None? || w.provision.value.status != stale.status
       || w.provision.value.attemptCount != stale.attemptCount then
      Outcome(w, 0)
    else if conflict || attempts >= max then
      Outcome(w.(provision := Some(w.provision.value.(status := FAILED, failedStep := Some(stage),
                                                      attemptCount := attempts, nextRetryAt := None))), 0)
    else
      Outcome(w.(provision := Some(w.provision.value.(failedStep := Some(stage), attemptCount := attempts,
                                                      nextRetryAt := Some(now + Backoff(attempts))))),
              Backoff(attempts))
  }

  datatype WorkerRun = WorkerRun(left: nat, fault: Fault, now: int)

  predicate Terminal(w: World) {
    w.provision.None? || StageOf(w.provision.value.status).None?
  }

  function StatusOf(w: World): Status {
    if w.provision.Some? then w.provision.value.status else DECOMMISSIONED
  }

  /** What one stage of a run comes to: on to the next with fewer writes left, or the end. */
  datatype Progress = Next(world: World, left: nat) | Ended(outcome: Outcome)

  function OneStage(w: World, left: nat, fault: Fault, now: int, max: nat): (r: Progress)
    requires !Terminal(w)
    ensures r.Next? ==> StagesLeft(StatusOf(r.world)) < StagesLeft(StatusOf(w))
  {
    var p := w.provision.value;
    var stage := StageOf(p.status).value;
    match StagePlan(w, p, stage)
    case Err(f) => Ended(HandleFailure(w, p, stage, f == Conflict, now, max))
    case Ok(xs) =>
      StageCut(w, p, stage, left);
      if |xs| <= left then Next(ApplyAll(w, xs), left - |xs|)
      else if fault.Dies? then Ended(Outcome(CutShort(w, xs, left), 0))
      else Ended(HandleFailure(CutShort(w, xs, left), p, stage, fault.conflict, now, max))
  }

  /** One run of the worker with `left` writes to spend. */
  function Process(w: World, left: nat, fault: Fault, now: int, max: nat): Outcome
    decreases StagesLeft(StatusOf(w))
  {
    if Terminal(w) then Outcome(w, 0)
    else
      match OneStage(w, left, fault, now, max)
      case Next(t, rest) => Process(t, rest, fault, now, max)
      case Ended(o) => o
  }

  // ------------------------------------------------------------------- admin and trigger

  /** `maybeTriggerProvisioning`: onboarding done, paid, and no record yet. */
  function Trigger(w: World, eligible: bool, now: int): World {
    if eligible && w.provision.None?
    then w.(provision := Some(Provision(PENDING, None, None, None, None, None, 0, Some(now))))
    else w
  }

  /** `retryProvision`: a failed record resumes at the step that failed. */
  function Retry(w: World, now: int): World {
    SetProvision(w, (p: Provision) =>
      p.(status := if p.status != FAILED then p.status
                   else if p.failedStep.None? then PENDING else ResumeStatus(p.failedStep.value),
         attemptCount := 0, nextRetryAt := Some(now), failedStep := None))
  }

  /** `reprovision`, each cleanup call reaching the platform or not. */
  function ReprovisionPlan(w: World, now: int, propReached: bool, brokerReached: bool): seq<Write> {
    if w.provision.None? then []
    else
      var p := w.provision.value;
      Cleanup(p, p.epPropAccountId, propReached) + Cleanup(p, p.epBrokerAccountId, brokerReached)
        + [ArchiveHedges, ResetProvision(now), Report]
  }

  function Cleanup(p: Provision, epId: Option<nat>, reached: bool): seq<Write> {
    if p.epApiKey.Some? && epId.Some? && reached then [EpDelete(epId.value)] else []
  }
}
