/** One user's side of the CRM, the user's accounts on the EasierProp platform, and the
    writes that provisioning and the service commands make, one at a time. */
module ServiceWorld {
  import opened Common

  // -------------------------------------------------------------------- EasierProp

  datatype EpAccount = EpAccount(login: string, server: string)

  /** The accounts under the user's key. An account's id is its position; ids are never
      reused, a deleted account leaves None. `cap` is the platform's max_accounts and
      `keys` counts the keys issued. */
  datatype Remote = Remote(accounts: seq<Option<EpAccount>>, cap: nat, keys: nat)

  function LiveCount(accounts: seq<Option<EpAccount>>): nat {
    if accounts == [] then 0
    else LiveCount(accounts[..|accounts| - 1]) + if accounts[|accounts| - 1].Some? then 1 else 0
  }

  /** The first listed account with this login on this server. */
  function FindAccount(accounts: seq<Option<EpAccount>>, a: EpAccount): (r: Option<nat>)
    ensures r.Some? ==> r.value < |accounts| && accounts[r.value] == Some(a)
    ensures r.Some? ==> forall i :: 0 <= i < r.value ==> accounts[i] != Some(a)
    ensures r.None? ==> forall i :: 0 <= i < |accounts| ==> accounts[i] != Some(a)
  {
    if accounts == [] then None
    else
      var n := |accounts| - 1;
      match FindAccount(accounts[..n], a)
      case Some(i) => Some(i)
      case None => if accounts[n] == Some(a) then Some(n) else None
  }

  /** No two accounts with the same login and server: nothing is ever registered twice. */
  ghost predicate NoAlias(r: Remote) {
    forall i, j :: 0 <= i < j < |r.accounts| && r.accounts[i].Some? ==> r.accounts[i] != r.accounts[j]
  }

  // ---------------------------------------------------------------------------- CRM

  datatype Status =
    | PENDING | KEY_CREATED | PROP_ACCOUNT_CREATED | BROKER_ACCOUNT_CREATED | COMPLETED | FAILED | DECOMMISSIONED

  datatype Stage = CreateKey | CreatePropAccount | CreateBrokerAccount | Finalize

  datatype Provision = Provision(
    status: Status,
    epApiKey: Option<nat>,
    epKeyId: Option<nat>,
    epPropAccountId: Option<nat>,
    epBrokerAccountId: Option<nat>,
    failedStep: Option<Stage>,
    attemptCount: nat,
    nextRetryAt: Option<int>)

  /** A prop or broker account of the user; `active` is `isActive` for a prop account and
      "not archived" for a broker account. Ids are positions, in order of creation. */
  datatype Account = Account(login: string, server: string, active: bool, epAccountId: Option<nat>)

  datatype HedgeStatus = Active | Paused | Archived

  datatype Hedge = Hedge(propAccountId: nat, brokerAccountId: nat, epPropAccountId: nat, epBrokerAccountId: nat,
                         status: HedgeStatus)

  datatype World = World(provision: Option<Provision>, props: seq<Account>, brokers: seq<Account>, hedges: seq<Hedge>,
                         remote: Remote)

  /** The newest hedge setup that is not archived. */
  function LiveHedge(hedges: seq<Hedge>): (r: Option<nat>)
    ensures r.Some? ==> r.value < |hedges| && hedges[r.value].status != Archived
    ensures r.Some? ==> forall i :: r.value < i < |hedges| ==> hedges[i].status == Archived
    ensures r.None? ==> forall i :: 0 <= i < |hedges| ==> hedges[i].status == Archived
  {
    if hedges == [] then None
    else
      var n := |hedges| - 1;
      if hedges[n].status != Archived then Some(n) else LiveHedge(hedges[..n])
  }

  function Identity(a: Account): EpAccount {
    EpAccount(a.login, a.server)
  }

  // ------------------------------------------------------------------------- writes

  /** What a stage transition stores besides the new status. */
  datatype Grant = NoGrant | GrantKey(key: nat) | GrantProp(epId: nat) | GrantBroker(epId: nat)

  /** Report stands for the audit event and the notifications a call ends with: they change
      nothing here, but they may fail. */
  datatype Write =
    | EpNewKey
    | EpCreate(account: EpAccount)
    | EpDelete(epId: nat)
    | PropEp(propId: nat, epId: nat)
    | BrokerEp(brokerId: nat, epId: nat)
    | ProvisionProp(epId: nat)
    | ProvisionBroker(epId: nat)
    | HedgeProp(hedgeId: nat, propId: nat, epId: nat)
    | HedgeBroker(hedgeId: nat, brokerId: nat, epId: nat)
    | SetHedgeStatus(hedgeId: nat, status: HedgeStatus)
    | ArchiveHedges
    | NewHedge(hedge: Hedge)
    | ClearBrokerEps
    | ClearPropEps
    | Decommission
    | Transition(to: Status, grant: Grant)
    | ResetProvision(now: int)
    | Report

  function SetEp(accounts: seq<Account>, id: nat, epId: nat): seq<Account> {
    if id < |accounts| then accounts[id := accounts[id].(epAccountId := Some(epId))] else accounts
  }

  function ClearEps(accounts: seq<Account>): seq<Account> {
    seq(|accounts|, i requires 0 <= i < |accounts| => accounts[i].(epAccountId := None))
  }

  function Archive(hedges: seq<Hedge>): (r: seq<Hedge>)
    ensures |r| == |hedges| && forall i :: 0 <= i < |hedges| ==> r[i] == hedges[i].(status := Archived)
  {
    seq(|hedges|, i requires 0 <= i < |hedges| => hedges[i].(status := Archived))
  }

  function SetProvision(w: World, f: Provision -> Provision): World {
    match w.provision
    case None => w
    case Some(p) => w.(provision := Some(f(p)))
  }

  function SetHedge(w: World, id: nat, f: Hedge -> Hedge): World {
    if id < |w.hedges| then w.(hedges := w.hedges[id := f(w.hedges[id])]) else w
  }

  /** Deleting an account that is gone already is not an error and changes nothing. */
  function Delete(accounts: seq<Option<EpAccount>>, epId: nat): seq<Option<EpAccount>> {
    if epId < |accounts| then accounts[epId := None] else accounts
  }

  function Moved(p: Provision, to: Status, grant: Grant): Provision {
    var q := p.(status := to, failedStep := None, attemptCount := 0, nextRetryAt := None);
    match grant
    case NoGrant => q
    case GrantKey(k) => q.(epApiKey := Some(k), epKeyId := Some(k))
    case GrantProp(e) => q.(epPropAccountId := Some(e))
    case GrantBroker(e) => q.(epBrokerAccountId := Some(e))
  }

  function Apply(w: World, x: Write): World {
    match x
    case EpNewKey => w.(remote := w.remote.(keys := w.remote.keys + 1))
    case EpCreate(a) => w.(remote := w.remote.(accounts := w.remote.accounts + [Some(a)]))
    case EpDelete(e) => w.(remote := w.remote.(accounts := Delete(w.remote.accounts, e)))
    case PropEp(id, e) => w.(props := SetEp(w.props, id, e))
    case BrokerEp(id, e) => w.(brokers := SetEp(w.brokers, id, e))
    case ProvisionProp(e) => SetProvision(w, (p: Provision) => p.(epPropAccountId := Some(e)))
    case ProvisionBroker(e) => SetProvision(w, (p: Provision) => p.(epBrokerAccountId := Some(e)))
    case HedgeProp(h, id, e) => SetHedge(w, h, (x: Hedge) => x.(propAccountId := id, epPropAccountId := e))
    case HedgeBroker(h, id, e) => SetHedge(w, h, (x: Hedge) => x.(brokerAccountId := id, epBrokerAccountId := e))
    case SetHedgeStatus(h, s) => SetHedge(w, h, (x: Hedge) => x.(status := s))
    case ArchiveHedges => w.(hedges := Archive(w.hedges))
    case NewHedge(h) => w.(hedges := w.hedges + [h])
    case ClearBrokerEps => w.(brokers := ClearEps(w.brokers))
    case ClearPropEps => w.(props := ClearEps(w.props))
    case Decommission => SetProvision(w, (p: Provision) => p.(status := DECOMMISSIONED))
    case Transition(to, grant) => SetProvision(w, (p: Provision) => Moved(p, to, grant))
    case ResetProvision(now) =>
      SetProvision(w, (p: Provision) =>
        p.(status := if p.epApiKey.Some? then KEY_CREATED else PENDING, epPropAccountId := None,
           epBrokerAccountId := None, attemptCount := 0, failedStep := None, nextRetryAt := Some(now)))
    case Report => w
  }

  function ApplyAll(w: World, xs: seq<Write>): World
    decreases |xs|
  {
    if xs == [] then w else ApplyAll(Apply(w, xs[0]), xs[1..])
  }

  lemma {:induction false} ApplyAppend(w: World, a: seq<Write>, b: seq<Write>)
    ensures ApplyAll(w, a + b) == ApplyAll(ApplyAll(w, a), b)
    decreases |a|
  {
    if a == [] {
      assert a + b == b;
    } else {
      assert (a + b)[1..] == a[1..] + b;
      ApplyAppend(Apply(w, a[0]), a[1..], b);
    }
  }

  lemma ApplyOne(w: World, x: Write)
    ensures ApplyAll(w, [x]) == Apply(w, x)
  {
    assert [x][1..] == [];
  }

  /** What the first k writes of a call leave behind when the call is cut short. */
  function CutShort(w: World, xs: seq<Write>, k: nat): World {
    ApplyAll(w, if k < |xs| then xs[..k] else xs)
  }

  lemma CutSplit(w: World, a: seq<Write>, b: seq<Write>, k: nat)
    ensures CutShort(w, a + b, k) == if k < |a| then CutShort(w, a, k) else CutShort(ApplyAll(w, a), b, k - |a|)
  {
    if k < |a| {
      assert (a + b)[..k] == a[..k];
    } else {
      var m := k - |a|;
      var tail := if m < |b| then b[..m] else b;
      assert (if k < |a + b| then (a + b)[..k] else a + b) == a + tail;
      ApplyAppend(w, a, tail);
    }
  }

  /** A cut falls before a first part of one write at most, or in the rest. */
  lemma CutHead(w: World, a: seq<Write>, b: seq<Write>, k: nat) returns (m: nat)
    requires |a| <= 1
    ensures CutShort(w, a + b, k) == w || CutShort(w, a + b, k) == CutShort(ApplyAll(w, a), b, m)
    ensures ApplyAll(w, a + b) == ApplyAll(ApplyAll(w, a), b)
  {
    ApplyAppend(w, a, b);
    CutSplit(w, a, b, k);
    m := if k < |a| then 0 else k - |a|;
  }

  // ------------------------------------------------------- registering an account once

  datatype Failure = Conflict | OtherError

  /** The delays in seconds: 1 min, 5 min, 15 min, 1 h, 6 h. */
  const BACKOFF_SECONDS: seq<nat> := [60, 300, 900, 3600, 21600]

  /** The delay after so many failed attempts; the last one is repeated. */
  function Backoff(attempt: nat): (seconds: nat)
    requires attempt >= 1
    ensures seconds == BACKOFF_SECONDS[if attempt <= 5 then attempt - 1 else 4]
  {
    if attempt == 1 then 60 else if attempt == 2 then 300 else if attempt == 3 then 900
    else if attempt == 4 then 3600 else 21600
  }

  /** `ensureEpAccount`: the id of the account, and the write that registers it if the
      listing does not show it yet; at the cap the platform answers 409. */
  function Ensure(remote: Remote, a: EpAccount): Result<(seq<Write>, nat), Failure> {
    match FindAccount(remote.accounts, a)
    case Some(id) => Ok(([], id))
    case None =>
      if LiveCount(remote.accounts) < remote.cap then Ok(([EpCreate(a)], |remote.accounts|)) else Err(Conflict)
  }

  /** Registering never makes an alias, and registering again finds the same account. */
  lemma EnsureIsIdempotent(w: World, a: EpAccount)
    requires Ensure(w.remote, a).Ok?
    ensures var (xs, id) := Ensure(w.remote, a).value;
            var after := ApplyAll(w, xs);
            && FindAccount(after.remote.accounts, a) == Some(id)
            && Ensure(after.remote, a) == Ok(([], id))
            && (NoAlias(w.remote) ==> NoAlias(after.remote))
            && after == w.(remote := after.remote)
  {
    var (xs, id) := Ensure(w.remote, a).value;
    if xs != [] {
      ApplyOne(w, EpCreate(a));
      var accounts := w.remote.accounts + [Some(a)];
      assert accounts[..|accounts| - 1] == w.remote.accounts;
    }
  }

  lemma {:induction false} DeleteKeepsFound(accounts: seq<Option<EpAccount>>, a: EpAccount, id: nat, gone: nat)
    requires FindAccount(accounts, a) == Some(id) && gone != id
    ensures FindAccount(Delete(accounts, gone), a) == Some(id)
  {
    var after := Delete(accounts, gone);
    var r := FindAccount(after, a);
    assert after[id] == Some(a);
    assert forall i :: 0 <= i < id ==> after[i] != Some(a);
  }

  // --------------------------------------------------- one run over records and platform

  datatype Ended = Done | Refused(failure: Failure) | Cut

  datatype Registered = RegisteredAs(epId: nat) | NotRegistered(failure: Failure) | CutOff

  /** `left` is how many more writes succeed before the run is interrupted. */
  class Store {
    var world: World
    var left: nat

    constructor (world: World, left: nat)
      ensures this.world == world && this.left == left
    {
      this.world, this.left := world, left;
    }

    /** Making the writes `rest` would end in `goal`, and all of them would succeed just
        when `whole`. */
    ghost predicate Heading(rest: seq<Write>, goal: World, whole: bool)
      reads this
    {
      CutShort(world, rest, left) == goal && whole == (|rest| <= left)
    }

    /** What an execution of a plan from w0, with `total` writes to spend, comes to. */
    ghost predicate Executed(ended: Ended, w0: World, plan: Result<seq<Write>, Failure>, total: nat)
      reads this
    {
      match plan
      case Err(f) => ended == Refused(f) && world == w0 && left == total
      case Ok(xs) =>
        && world == CutShort(w0, xs, total)
        && ended == (if |xs| <= total then Done else Cut)
        && left == (if |xs| <= total then total - |xs| else 0)
    }

    /** The next write, unless the run is interrupted before it. */
    method Do(x: Write, ghost more: seq<Write>, ghost goal: World, ghost whole: bool) returns (ok: bool)
      requires Heading([x] + more, goal, whole)
      modifies this
      ensures ok ==> old(left) > 0 && left == old(left) - 1 && world == Apply(old(world), x)
      ensures ok ==> Heading(more, goal, whole)
      ensures !ok ==> world == old(world) == goal && left == 0 && !whole
    {
      ok := left > 0;
      if ok {
        CutSplit(world, [x], more, left);
        ApplyOne(world, x);
        world, left := Apply(world, x), left - 1;
      }
    }

    /** Looks the account up in the listing. */
    method FindMatch(a: EpAccount) returns (id: Option<nat>)
      ensures id == FindAccount(world.remote.accounts, a)
    {
      var i, accounts := 0, world.remote.accounts;
      while i < |accounts|
        invariant 0 <= i <= |accounts|
        invariant forall j :: 0 <= j < i ==> accounts[j] != Some(a)
      {
        if accounts[i] == Some(a) { return Some(i); }
        i := i + 1;
      }
      id := None;
    }

    /** Registers the account unless the listing shows it. */
    method EnsureEpAccount(a: EpAccount, ghost more: seq<Write>, ghost goal: World, ghost whole: bool)
      returns (r: Registered)
      requires Ensure(world.remote, a).Ok? ==> Heading(Ensure(world.remote, a).value.0 + more, goal, whole)
      modifies this
      ensures match Ensure(old(world).remote, a)
              case Err(f) => r == NotRegistered(f) && world == old(world) && left == old(left)
              case Ok((create, epId)) =>
                && (r == CutOff || r == RegisteredAs(epId))
                && (r == CutOff ==> world == goal && left == 0 && !whole)
                && (r == RegisteredAs(epId) ==>
                      Heading(more, goal, whole) && |create| <= old(left) && left == old(left) - |create|)
      ensures world == old(world).(remote := world.remote)
    {
      var found := FindMatch(a);
      if found.Some? {
        assert [] + more == more;
        return RegisteredAs(found.value);
      }
      if LiveCount(world.remote.accounts) >= world.remote.cap { return NotRegistered(Conflict); }
      var epId := |world.remote.accounts|;
      var ok := Do(EpCreate(a), more, goal, whole);
      r := if ok then RegisteredAs(epId) else CutOff;
    }
  }
}
