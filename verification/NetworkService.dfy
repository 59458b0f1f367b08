/** Every write of a sponsorship link: registration with a referral code, and the two
    admin operations. All three go through the same anti-cycle check. */
module NetworkService {
  import opened Common
  import opened SponsorGraph

  datatype Source = Unset | Organic | Referral

  datatype User = User(sponsor: Option<UserId>, source: Source)

  /** The user table and its unique index on `referralCode`. */
  datatype Network = Network(users: map<UserId, User>, codes: map<string, UserId>)

  datatype CheckError = SelfSponsor | WouldCloseCycle

  datatype Failure = NotFound(what: string) | Rejected(error: CheckError)

  datatype Action =
    | Register(user: UserId, newCode: string, refCode: Option<string>)
    | AssignUpline(orphan: UserId, upline: UserId)
    | ChangeUpline(member: UserId, newUpline: UserId)

  function LinksOf(users: map<UserId, User>): Links {
    map u | u in users && users[u].sponsor.Some? :: users[u].sponsor.value
  }

  /** A user holds one code: storing a new one takes the earlier one out of the index. */
  function WithCode(codes: map<string, UserId>, newCode: string, u: UserId): map<string, UserId> {
    (map c | c in codes && codes[c] != u :: codes[c])[newCode := u]
  }

  /** The verdict the check must return, in terms of the graph after the write. */
  ghost function Verdict(links: Links, u: UserId, sponsor: UserId): Result<(), CheckError> {
    if u == sponsor then Err(SelfSponsor)
    else if OnCycle(links[u := sponsor], u) then Err(WouldCloseCycle)
    else Ok(())
  }

  /** The guarded upward walk. It terminates on every graph, loops included, and
      rejects exactly the links that would put `userId` on a cycle. */
  method AssertNoSponsorCycle(links: Links, userId: UserId, newSponsorId: UserId)
    returns (r: Result<(), CheckError>)
    ensures r == Verdict(links, userId, newSponsorId)
    ensures r.Ok? <==> !OnCycle(links[userId := newSponsorId], userId)
    ensures r == Err(SelfSponsor) <==> userId == newSponsorId
  {
    if userId == newSponsorId {
      SelfLinkIsCycle(links, userId);
      return Err(SelfSponsor);
    }
    var visited: set<UserId> := {};
    var current := Some(newSponsorId);
    ghost var height: nat := 0;
    while current.Some?
      invariant current == Ancestor(links, newSponsorId, height)
      invariant height == 0 ==> visited == {}
      invariant height > 0 ==> newSponsorId in visited
      invariant userId !in visited
      invariant forall i: nat :: i < height ==> Ancestor(links, newSponsorId, i) != Some(userId)
      invariant forall v :: v in visited && v in links ==> links[v] in visited || current == Some(links[v])
      decreases links.Keys - visited, current.Some?
    {
      var currentId := current.value;
      if currentId == userId {
        ReachingClosesCycle(links, userId, newSponsorId, height);
        return Err(WouldCloseCycle);
      }
      if currentId in visited {
        ClosedSetIsSafe(links, userId, newSponsorId, visited);
        return Ok(());
      }
      visited := visited + {currentId};
      current := if currentId in links then Some(links[currentId]) else None;
      height := height + 1;
    }
    ClosedSetIsSafe(links, userId, newSponsorId, visited);
    r := Ok(());
  }

  /** The checked write of one link; a rejected check leaves the tables as they are. */
  ghost function WriteLink(net: Network, u: UserId, sponsor: UserId, source: Source): (Network, Result<(), Failure>) {
    match Verdict(LinksOf(net.users), u, sponsor)
    case Err(e) => (net, Err(Rejected(e)))
    case Ok(_) => (net.(users := net.users[u := User(Some(sponsor), source)]), Ok(()))
  }

  /** One service call, as a function of the tables before it. */
  ghost function Step(net: Network, a: Action): (Network, Result<(), Failure>) {
    match a {
      case Register(u, newCode, refCode) =>
        if u !in net.users then (net, Err(NotFound("user")))
        else
          var coded := net.(codes := WithCode(net.codes, newCode, u));
          if refCode.Some? && refCode.value in coded.codes then
            WriteLink(coded, u, coded.codes[refCode.value], Referral)
          else
            (coded.(users := coded.users[u := coded.users[u].(source := Organic)]), Ok(()))
      case AssignUpline(u, s) =>
        if u !in net.users then (net, Err(NotFound("orphan")))
        else if s !in net.users then (net, Err(NotFound("upline")))
        else WriteLink(net, u, s, Referral)
      case ChangeUpline(u, s) =>
        if u !in net.users then (net, Err(NotFound("user")))
        else if s !in net.users then (net, Err(NotFound("upline")))
        else WriteLink(net, u, s, net.users[u].source)
    }
  }

  // ------------------------------------------------------------ whose sponsor becomes whom

  /** The tables hold the same users, and all but u are as they were. */
  ghost predicate OnlyUser(before: map<UserId, User>, after: map<UserId, User>, u: UserId) {
    after.Keys == before.Keys && forall v :: v in before && v != u ==> after[v] == before[v]
  }

  /** The owner of a referral code once the user's own code has been replaced by a new one. */
  function OwnerOf(codes: map<string, UserId>, newCode: string, refCode: Option<string>, u: UserId): Option<UserId> {
    if refCode.None? then None
    else if refCode.value == newCode then Some(u)
    else if refCode.value in codes && codes[refCode.value] != u then Some(codes[refCode.value])
    else None
  }

  /** An assignment or a change: who is unknown is told first, then the check decides, and it
      decides by the graph alone. An accepted call gives the user the proposed sponsor, a
      refused one changes nothing, and no call touches anybody else or a code. */
  lemma LinkIsWritten(net: Network, u: UserId, sponsor: UserId, assigns: bool)
    ensures var a := if assigns then AssignUpline(u, sponsor) else ChangeUpline(u, sponsor);
            var (after, r) := Step(net, a);
            && (r == Err(NotFound(if assigns then "orphan" else "user")) <==> u !in net.users)
            && (r == Err(NotFound("upline")) <==> u in net.users && sponsor !in net.users)
            && (u in net.users && sponsor in net.users ==>
                  (r.Ok? <==> !OnCycle(LinksOf(net.users)[u := sponsor], u)))
            && (r.Err? ==> after == net)
            && (r.Ok? ==>
                  && u in net.users && sponsor in net.users
                  && OnlyUser(net.users, after.users, u) && after.codes == net.codes
                  && after.users[u].sponsor == Some(sponsor)
                  && after.users[u].source == if assigns then Referral else net.users[u].source)
  {
    if u == sponsor { SelfLinkIsCycle(LinksOf(net.users), u); }
  }

  lemma SelfLinkIsCycle(links: Links, u: UserId)
    ensures OnCycle(links[u := u], u)
  {
    assert Ancestor(links[u := u], u, 0) == Some(u);
    assert Ancestor(links[u := u], u, 1) == Some(u);
  }

  /** A registration: the new code is the user's only one and nobody else's changes, whatever
      follows. With the code of somebody else the user gets that sponsor unless the link would
      close a cycle; with none, or one that nobody has, the user is organic and the sponsor
      stays as it was. */
  lemma RegistrationWrites(net: Network, u: UserId, newCode: string, refCode: Option<string>)
    requires newCode !in net.codes
    ensures var (after, r) := Step(net, Register(u, newCode, refCode));
            var owner := OwnerOf(net.codes, newCode, refCode, u);
            && (r == Err(NotFound("user")) <==> u !in net.users)
            && (u !in net.users ==> after == net)
            && (u in net.users ==>
                  && (forall c :: c in after.codes && after.codes[c] == u <==> c == newCode)
                  && (forall c :: c in net.codes && net.codes[c] != u ==>
                        c in after.codes && after.codes[c] == net.codes[c])
                  && (forall c :: c in after.codes && c != newCode ==>
                        c in net.codes && after.codes[c] == net.codes[c])
                  && (r.Ok? <==> owner.Some? ==> !OnCycle(LinksOf(net.users)[u := owner.value], u))
                  && (r.Err? ==> after.users == net.users)
                  && (r.Ok? ==> OnlyUser(net.users, after.users, u)
                                && after.users[u] == match owner
                                                     case Some(s) => User(Some(s), Referral)
                                                     case None => User(net.users[u].sponsor, Organic)))
  {
    SelfLinkIsCycle(LinksOf(net.users), u);
  }

  class NetworkTables {
    var users: map<UserId, User>
    var codes: map<string, UserId>

    ghost function View(): Network
      reads this
    {
      Network(users, codes)
    }

    constructor (users: map<UserId, User>, codes: map<string, UserId>)
      ensures View() == Network(users, codes)
    {
      this.users := users;
      this.codes := codes;
    }

    /** `newCode` is the code the generator drew: it loops until the code is unused. */
    method ProcessReferralOnRegistration(userId: UserId, newCode: string, refCode: Option<string>)
      returns (r: Result<(), Failure>)
      requires newCode !in codes
      modifies this
      ensures (View(), r) == Step(old(View()), Register(userId, newCode, refCode))
      ensures r.Err? ==> users == old(users)
      ensures r.Ok? ==> userId in old(users) && OnlyUser(old(users), users, userId) && codes[newCode] == userId
      ensures r.Ok? ==> users[userId] == match OwnerOf(old(codes), newCode, refCode, userId)
                                         case Some(owner) => User(Some(owner), Referral)
                                         case None => User(old(users)[userId].sponsor, Organic)
    {
      RegistrationWrites(View(), userId, newCode, refCode);
      if userId !in users {
        return Err(NotFound("user"));
      }
      codes := WithCode(codes, newCode, userId);
      if refCode.Some? {
        if refCode.value in codes {
          var referrer := codes[refCode.value];
          var check := AssertNoSponsorCycle(LinksOf(users), userId, referrer);
          if check.Err? {
            return Err(Rejected(check.error));
          }
          users := users[userId := User(Some(referrer), Referral)];
        } else {
          users := users[userId := users[userId].(source := Organic)];
        }
      } else {
        users := users[userId := users[userId].(source := Organic)];
      }
      r := Ok(());
    }

    method AssignUplineTo(orphanUserId: UserId, uplineUserId: UserId) returns (r: Result<(), Failure>)
      modifies this
      ensures (View(), r) == Step(old(View()), AssignUpline(orphanUserId, uplineUserId))
      ensures r.Err? ==> View() == old(View())
      ensures r.Ok? ==> orphanUserId in old(users) && OnlyUser(old(users), users, orphanUserId) && codes == old(codes)
      ensures r.Ok? ==> users[orphanUserId].sponsor == Some(uplineUserId) && users[orphanUserId].source == Referral
    {
      if orphanUserId !in users {
        return Err(NotFound("orphan"));
      }
      if uplineUserId !in users {
        return Err(NotFound("upline"));
      }
      var check := AssertNoSponsorCycle(LinksOf(users), orphanUserId, uplineUserId);
      if check.Err? {
        return Err(Rejected(check.error));
      }
      users := users[orphanUserId := User(Some(uplineUserId), Referral)];
      r := Ok(());
    }

    method ChangeUplineTo(userId: UserId, newUplineUserId: UserId) returns (r: Result<(), Failure>)
      modifies this
      ensures (View(), r) == Step(old(View()), ChangeUpline(userId, newUplineUserId))
      ensures r.Err? ==> View() == old(View())
      ensures r.Ok? ==> userId in old(users) && OnlyUser(old(users), users, userId) && codes == old(codes)
      ensures r.Ok? ==>
                users[userId].sponsor == Some(newUplineUserId) && users[userId].source == old(users)[userId].source
    {
      if userId !in users {
        return Err(NotFound("user"));
      }
      if newUplineUserId !in users {
        return Err(NotFound("upline"));
      }
      var check := AssertNoSponsorCycle(LinksOf(users), userId, newUplineUserId);
      if check.Err? {
        return Err(Rejected(check.error));
      }
      users := users[userId := users[userId].(sponsor := Some(newUplineUserId))];
      r := Ok(());
    }
  }

  /** The tables after a whole run of calls, in order. */
  ghost function Run(net: Network, actions: seq<Action>): Network
    decreases |actions|
  {
    if actions == [] then net
    else Run(Step(net, actions[0]).0, actions[1..])
  }

  /** A checked write puts nobody on a cycle who was not on one before. */
  lemma WriteLinkKeepsCyclesOut(net: Network, u: UserId, sponsor: UserId, source: Source, v: UserId)
    requires OnCycle(LinksOf(WriteLink(net, u, sponsor, source).0.users), v)
    ensures OnCycle(LinksOf(net.users), v)
  {
    var before := LinksOf(net.users);
    if Verdict(before, u, sponsor).Ok? {
      var written := net.users[u := User(Some(sponsor), source)];
      assert LinksOf(written) == before[u := sponsor];
      if u == sponsor {
        assert false;
      }
      NoNewCycle(before, u, sponsor, v);
    }
  }

  /** On any graph, even one that already contains loops, no service call puts a new
      user on a cycle. */
  lemma StepAddsNoCycle(net: Network, a: Action, v: UserId)
    requires OnCycle(LinksOf(Step(net, a).0.users), v)
    ensures OnCycle(LinksOf(net.users), v)
  {
    match a
    case Register(u, newCode, refCode) =>
      if u in net.users {
        var coded := net.(codes := WithCode(net.codes, newCode, u));
        if refCode.Some? && refCode.value in coded.codes {
          WriteLinkKeepsCyclesOut(coded, u, coded.codes[refCode.value], Referral, v);
        } else {
          assert LinksOf(coded.users[u := coded.users[u].(source := Organic)]) == LinksOf(net.users);
        }
      }
    case AssignUpline(u, s) =>
      if u in net.users && s in net.users {
        WriteLinkKeepsCyclesOut(net, u, s, Referral, v);
      }
    case ChangeUpline(u, s) =>
      if u in net.users && s in net.users {
        WriteLinkKeepsCyclesOut(net, u, s, net.users[u].source, v);
      }
  }

  /** Over whole runs: the users on cycles at the end were on cycles at the start, and a
      forest stays a forest. */
  lemma {:induction false} RunAddsNoCycle(net: Network, actions: seq<Action>)
    ensures forall v :: OnCycle(LinksOf(Run(net, actions).users), v) ==> OnCycle(LinksOf(net.users), v)
    ensures Acyclic(LinksOf(net.users)) ==> Acyclic(LinksOf(Run(net, actions).users))
    decreases |actions|
  {
    if actions != [] {
      var next := Step(net, actions[0]).0;
      RunAddsNoCycle(next, actions[1..]);
      forall v | OnCycle(LinksOf(next.users), v)
        ensures OnCycle(LinksOf(net.users), v)
      {
        StepAddsNoCycle(net, actions[0], v);
      }
    }
  }

  /** The check is not merely safe but exact: the link it refuses would have closed a
      cycle through the user, so no harmless link is ever refused. */
  lemma RefusedLinkWouldClose(net: Network, u: UserId, sponsor: UserId, source: Source)
    requires WriteLink(net, u, sponsor, source).1.Err?
    ensures OnCycle(LinksOf(net.users[u := User(Some(sponsor), source)]), u)
  {
    var written := LinksOf(net.users[u := User(Some(sponsor), source)]);
    assert written == LinksOf(net.users)[u := sponsor];
    if u == sponsor { SelfLinkIsCycle(LinksOf(net.users), u); }
  }
}
