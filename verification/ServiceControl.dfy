/** The service-command executors: each one as the list of writes of an uninterrupted run,
    planned from what the run reads, and what happens when a run is cut short. */
module ServiceControl {
  import opened Common
  import opened ServiceWorld

  datatype Command =
    | Start
    | Stop(entitled: bool)
    | DeleteService(listed: bool)
    | PropRotation(newPropId: nat)
    | BrokerReplace(newBrokerId: nat, oldBrokerId: Option<nat>)
    | BrokerAdd(brokerId: nat)
    | SetHedgeBroker(brokerId: nat)

  /** Without a stored key no command does anything. */
  predicate HasKey(w: World) {
    w.provision.Some? && w.provision.value.epApiKey.Some?
  }

  function WriteHedge(hedge: Option<nat>, x: nat -> Write): seq<Write> {
    match hedge
    case None => []
    case Some(h) => [x(h)]
  }

  function DeleteOld(previous: Option<nat>, epId: nat): seq<Write> {
    if previous.Some? && previous.value != epId then [EpDelete(previous.value)] else []
  }

  /** A rotation once the new account is registered as epId. */
  function RotationTail(newPropId: nat, epId: nat, previous: Option<nat>, hedge: Option<nat>): seq<Write> {
    [PropEp(newPropId, epId)]
      + (DeleteOld(previous, epId)
         + ([ProvisionProp(epId)] + (WriteHedge(hedge, (h: nat) => HedgeProp(h, newPropId, epId)) + [Report])))
  }

  function RotationPlan(w: World, newPropId: nat): Result<seq<Write>, Failure> {
    if !HasKey(w) || newPropId >= |w.props| then Err(OtherError)
    else
      match Ensure(w.remote, Identity(w.props[newPropId]))
      case Err(f) => Err(f)
      case Ok((create, epId)) =>
        Ok(create + RotationTail(newPropId, epId, w.provision.value.epPropAccountId, LiveHedge(w.hedges)))
  }

  /** The account a replacement removes: the replaced broker's, or else the one the hedge
      still points at. The replaced broker is read after the new broker's id was stored. */
  function ReplacedEp(w: World, newBrokerId: nat, oldBrokerId: Option<nat>, epId: nat): Option<nat> {
    var brokers := SetEp(w.brokers, newBrokerId, epId);
    if oldBrokerId.Some? && oldBrokerId.value < |brokers| && brokers[oldBrokerId.value].epAccountId.Some? then
      brokers[oldBrokerId.value].epAccountId
    else
      match LiveHedge(w.hedges)
      case None => None
      case Some(h) => if w.hedges[h].epBrokerAccountId != epId then Some(w.hedges[h].epBrokerAccountId) else None
  }

  /** A replacement once the new account is registered as epId. */
  function ReplaceTail(newBrokerId: nat, epId: nat, previous: Option<nat>, hedge: Option<nat>): seq<Write> {
    [BrokerEp(newBrokerId, epId)]
      + (DeleteOld(previous, epId)
         + ([ProvisionBroker(epId)] + (WriteHedge(hedge, (h: nat) => HedgeBroker(h, newBrokerId, epId)) + [Report])))
  }

  function ReplacePlan(w: World, newBrokerId: nat, oldBrokerId: Option<nat>): Result<seq<Write>, Failure> {
    if !HasKey(w) || newBrokerId >= |w.brokers| then Err(OtherError)
    else
      match Ensure(w.remote, Identity(w.brokers[newBrokerId]))
      case Err(f) => Err(f)
      case Ok((create, epId)) =>
        Ok(create + ReplaceTail(newBrokerId, epId, ReplacedEp(w, newBrokerId, oldBrokerId, epId), LiveHedge(w.hedges)))
  }

  function AddPlan(w: World, brokerId: nat): Result<seq<Write>, Failure> {
    if !HasKey(w) || brokerId >= |w.brokers| then Err(OtherError)
    else
      match Ensure(w.remote, Identity(w.brokers[brokerId]))
      case Err(f) => Err(f)
      case Ok((create, epId)) => Ok(create + ([BrokerEp(brokerId, epId)] + [Report]))
  }

  function SetHedgePlan(w: World, brokerId: nat): Result<seq<Write>, Failure> {
    if !HasKey(w) || LiveHedge(w.hedges).None? || brokerId >= |w.brokers| || !w.brokers[brokerId].active
       || w.brokers[brokerId].epAccountId.None? then Err(OtherError)
    else
      var epId := w.brokers[brokerId].epAccountId.value;
      Ok([HedgeBroker(LiveHedge(w.hedges).value, brokerId, epId)] + ([ProvisionBroker(epId)] + [Report]))
  }

  function Deletes(ids: seq<nat>): (r: seq<Write>)
    ensures |r| == |ids| && forall i :: 0 <= i < |ids| ==> r[i] == EpDelete(ids[i])
  {
    seq(|ids|, i requires 0 <= i < |ids| => EpDelete(ids[i]))
  }

  function LiveIds(accounts: seq<Option<EpAccount>>): (r: seq<nat>)
    ensures forall i: nat :: i in r <==> i < |accounts| && accounts[i].Some?
  {
    if accounts == [] then []
    else
      var n := |accounts| - 1;
      if accounts[n].Some? then LiveIds(accounts[..n]) + [n] else LiveIds(accounts[..n])
  }

  function OptionToIds(o: Option<nat>): seq<nat> {
    match o case None => [] case Some(x) => [x]
  }

  /** The accounts a deletion removes: all of them, or, when the listing fails, those the
      hedge or else the provision points at. */
  function DoomedIds(w: World, listed: bool): seq<nat>
    requires w.provision.Some?
  {
    if listed then LiveIds(w.remote.accounts)
    else
      match LiveHedge(w.hedges)
      case Some(h) => [w.hedges[h].epPropAccountId, w.hedges[h].epBrokerAccountId]
      case None => OptionToIds(w.provision.value.epPropAccountId) + OptionToIds(w.provision.value.epBrokerAccountId)
  }

  function DeletePlan(w: World, listed: bool): Result<seq<Write>, Failure> {
    if !HasKey(w) then Err(OtherError)
    else
      Ok(Deletes(DoomedIds(w, listed)) + DeleteTail(LiveHedge(w.hedges)))
  }

  /** What a deletion writes once the accounts are gone. */
  function DeleteTail(hedge: Option<nat>): seq<Write> {
    [ClearBrokerEps] + ([ClearPropEps] + (WriteHedge(hedge, (h: nat) => SetHedgeStatus(h, Archived))
                                          + ([Decommission] + [Report])))
  }

  function CommandPlan(w: World, c: Command): Result<seq<Write>, Failure> {
    match c
    case PropRotation(p) => RotationPlan(w, p)
    case BrokerReplace(b, replaced) => ReplacePlan(w, b, replaced)
    case BrokerAdd(b) => AddPlan(w, b)
    case SetHedgeBroker(b) => SetHedgePlan(w, b)
    case DeleteService(listed) => DeletePlan(w, listed)
    case Start =>
      if !HasKey(w) || LiveHedge(w.hedges).None? then Err(OtherError)
      else Ok([SetHedgeStatus(LiveHedge(w.hedges).value, Active), Report])
    case Stop(entitled) =>
      if entitled then Ok([Report])
      else if !HasKey(w) || LiveHedge(w.hedges).None? then Err(OtherError)
      else Ok([SetHedgeStatus(LiveHedge(w.hedges).value, Paused), Report])
  }

  /** A run that is cut short after k writes, by a crash or by an error, whether or not
      the last call reported its success; a run that cannot be planned writes nothing. */
  function RunCut(w: World, c: Command, k: nat): World {
    match CommandPlan(w, c)
    case Err(_) => w
    case Ok(xs) => CutShort(w, xs, k)
  }

  /** An uninterrupted run. */
  function RunWhole(w: World, c: Command): World {
    match CommandPlan(w, c)
    case Err(_) => w
    case Ok(xs) => ApplyAll(w, xs)
  }

  predicate Recoverable(c: Command) {
    c.PropRotation? || c.BrokerReplace? || c.BrokerAdd? || c.SetHedgeBroker?
  }
}
