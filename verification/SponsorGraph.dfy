/** The sponsor graph: each user has at most one sponsor (`referredByUserId`), so the
    links form a partial function. Everything that walks the network walks this map. */
module SponsorGraph {
  import opened Common

  type UserId = string

  /** u in links exactly when u's row exists and its `referredByUserId` is set. */
  type Links = map<UserId, UserId>

  /** The user reached after k steps up from u, if the chain is that long. */
  function Ancestor(links: Links, u: UserId, k: nat): Option<UserId> {
    if k == 0 then Some(u)
    else
      match Ancestor(links, u, k - 1)
      case None => None
      case Some(v) => if v in links then Some(links[v]) else None
  }

  ghost predicate OnCycle(links: Links, u: UserId) {
    exists k: nat :: k > 0 && Ancestor(links, u, k) == Some(u)
  }

  ghost predicate Acyclic(links: Links) {
    forall u :: !OnCycle(links, u)
  }

  /** Walking j steps and then k more is walking j + k steps. */
  lemma {:induction false} AncestorCompose(links: Links, u: UserId, j: nat, k: nat)
    requires Ancestor(links, u, j).Some?
    ensures Ancestor(links, u, j + k) == Ancestor(links, Ancestor(links, u, j).value, k)
  {
    if k > 0 {
      AncestorCompose(links, u, j, k - 1);
      assert j + k - 1 == j + (k - 1);
    }
  }

  /** A chain that has reached height n also has every lower height. */
  lemma {:induction false} AncestorPrefix(links: Links, u: UserId, k: nat, n: nat)
    requires k <= n && Ancestor(links, u, n).Some?
    ensures Ancestor(links, u, k).Some?
    decreases n
  {
    if k < n {
      AncestorPrefix(links, u, k, n - 1);
    }
  }

  /** Two graphs that agree off u agree along any chain that has not met u yet. */
  lemma {:induction false} AncestorAgree(links: Links, links': Links, u: UserId, v: UserId, k: nat)
    requires forall w :: w != u ==> (w in links <==> w in links') && (w in links ==> links[w] == links'[w])
    requires forall i: nat :: i < k ==> Ancestor(links, v, i) != Some(u)
    ensures Ancestor(links, v, k) == Ancestor(links', v, k)
  {
    if k > 0 {
      AncestorAgree(links, links', u, v, k - 1);
      assert Ancestor(links, v, k - 1) != Some(u);
    }
  }

  /** If the walk up from the proposed sponsor first meets u after n steps,
      writing the link would close a cycle through u. */
  lemma ReachingClosesCycle(links: Links, u: UserId, sponsor: UserId, n: nat)
    requires Ancestor(links, sponsor, n) == Some(u)
    requires forall i: nat :: i < n ==> Ancestor(links, sponsor, i) != Some(u)
    ensures OnCycle(links[u := sponsor], u)
  {
    var written := links[u := sponsor];
    AncestorAgree(links, written, u, sponsor, n);
    assert Ancestor(written, u, 1) == Some(sponsor) by { assert Ancestor(written, u, 0) == Some(u); }
    AncestorCompose(written, u, 1, n);
    assert Ancestor(written, u, 1 + n) == Some(u);
  }

  /** A set that contains the sponsor, is closed under "sponsor of" and misses u
      certifies that the link is safe. */
  lemma ClosedSetIsSafe(links: Links, u: UserId, sponsor: UserId, seen: set<UserId>)
    requires sponsor in seen && u !in seen
    requires forall v :: v in seen && v in links ==> links[v] in seen
    ensures !OnCycle(links[u := sponsor], u)
  {
    var written := links[u := sponsor];
    if k: nat :| k > 0 && Ancestor(written, u, k) == Some(u) {
      StaysInside(links, u, sponsor, seen, k);
    }
  }

  lemma {:induction false} StaysInside(links: Links, u: UserId, sponsor: UserId, seen: set<UserId>, k: nat)
    requires k > 0 && sponsor in seen && u !in seen
    requires forall v :: v in seen && v in links ==> links[v] in seen
    ensures Ancestor(links[u := sponsor], u, k).Some? ==> Ancestor(links[u := sponsor], u, k).value in seen
  {
    if k == 1 {
      assert Ancestor(links[u := sponsor], u, 0) == Some(u);
    } else {
      StaysInside(links, u, sponsor, seen, k - 1);
    }
  }

  /** Main safety lemma of one write, on any graph, even one that already has loops:
      a link that does not put u on a cycle puts nobody new on a cycle. */
  lemma NoNewCycle(links: Links, u: UserId, sponsor: UserId, v: UserId)
    requires !OnCycle(links[u := sponsor], u)
    requires OnCycle(links[u := sponsor], v)
    ensures OnCycle(links, v)
  {
    var written := links[u := sponsor];
    var k: nat :| k > 0 && Ancestor(written, v, k) == Some(v);
    if i: nat :| i < k && Ancestor(written, v, i) == Some(u) {
      // u lies on v's cycle, so rotating the cycle brings u back to itself
      AncestorCompose(written, v, k, i);
      AncestorCompose(written, v, i, k);
      assert false;
    } else {
      AncestorAgree(written, links, u, v, k);
    }
  }
}
