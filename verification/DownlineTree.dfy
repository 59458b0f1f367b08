/** The downline view: a level-by-level expansion of the sponsor graph below one user,
    then a two-pass link of the flat rows into a tree of nodes. */
module DownlineTree {
  import opened Common
  import opened SponsorGraph

  datatype Row = Row(id: UserId, sponsor: UserId, level: nat)

  datatype Tree = Tree(id: UserId, level: nat, children: seq<Tree>)

  class TreeNode {
    const id: UserId
    const level: nat
    var children: seq<TreeNode>

    constructor (id: UserId, level: nat)
      ensures this.id == id && this.level == level && children == []
    {
      this.id := id;
      this.level := level;
      children := [];
    }
  }

  /** The user table: one row per user, and every sponsor is itself a user. */
  ghost predicate UserTable(table: seq<UserId>, links: Links) {
    && NoDuplicates(table)
    && forall u :: u in links ==> u in table && links[u] in table
  }

  // ---------------------------------------------------------------- specification

  ghost predicate DistinctIds(children: seq<Tree>) {
    forall i, j :: 0 <= i < j < |children| ==> children[i].id != children[j].id
  }

  ghost predicate HasChild(children: seq<Tree>, v: UserId) {
    exists i :: 0 <= i < |children| && children[i].id == v
  }

  /** A node holds exactly its direct referrals, once each, one level further down. */
  ghost predicate HoldsItsReferrals(t: Tree, links: Links) {
    && DistinctIds(t.children)
    && (forall i :: 0 <= i < |t.children| ==>
          && t.children[i].level == t.level + 1
          && t.children[i].id in links && links[t.children[i].id] == t.id)
    && (forall v :: v in links && links[v] == t.id ==> HasChild(t.children, v))
  }

  ghost predicate IsDownlineTree(t: Tree, links: Links) {
    && HoldsItsReferrals(t, links)
    && (forall c :: c in t.children ==> IsDownlineTree(c, links))
  }

  /** The nodes of a tree in preorder, each with the level it shows. */
  function Preorder(t: Tree): seq<(UserId, nat)>
    decreases t, 0
  {
    [(t.id, t.level)] + PreorderAll(t.children)
  }

  function PreorderAll(ts: seq<Tree>): seq<(UserId, nat)>
    decreases ts, 1
  {
    if ts == [] then [] else Preorder(ts[0]) + PreorderAll(ts[1..])
  }

  ghost predicate EachUserOnce(nodes: seq<(UserId, nat)>) {
    forall i, j :: 0 <= i < j < |nodes| ==> nodes[i].0 != nodes[j].0
  }

  ghost predicate InSome(ts: seq<Tree>, p: (UserId, nat)) {
    exists i :: 0 <= i < |ts| && p in Preorder(ts[i])
  }

  lemma {:induction false} InPreorderAll(ts: seq<Tree>, p: (UserId, nat))
    ensures p in PreorderAll(ts) <==> InSome(ts, p)
  {
    if ts != [] {
      InPreorderAll(ts[1..], p);
      if InSome(ts, p) {
        var i :| 0 <= i < |ts| && p in Preorder(ts[i]);
        if i > 0 { assert ts[1..][i - 1] == ts[i]; }
      }
      if InSome(ts[1..], p) {
        var i :| 0 <= i < |ts[1..]| && p in Preorder(ts[1..][i]);
        assert ts[i + 1] == ts[1..][i];
      }
    }
  }

  /** v's place in the graph below the top of t: l levels down in t means that many steps up. */
  ghost predicate Below(t: Tree, links: Links, v: UserId, l: nat) {
    l >= t.level && Ancestor(links, v, l - t.level) == Some(t.id)
  }

  /** The tree shows v at level l exactly when v's l-th ancestor (counted from the
      level of the top) is the top: nobody missing, nobody extra, every level right. */
  lemma {:induction false} TreeIsComplete(t: Tree, links: Links, v: UserId, l: nat)
    requires IsDownlineTree(t, links)
    ensures (v, l) in Preorder(t) <==> Below(t, links, v, l)
    decreases t
  {
    InPreorderAll(t.children, (v, l));
    forall i | 0 <= i < |t.children|
      ensures (v, l) in Preorder(t.children[i]) <==> Below(t.children[i], links, v, l)
    {
      TreeIsComplete(t.children[i], links, v, l);
    }
  }

  /** A user below two different referrals of u would put u on a cycle. */
  lemma SiblingsShareNoDescendant(links: Links, u: UserId, c: UserId, d: UserId, v: UserId, i: nat, j: nat)
    requires c in links && links[c] == u && d in links && links[d] == u && c != d
    requires Ancestor(links, v, i) == Some(c) && Ancestor(links, v, j) == Some(d) && i <= j
    ensures OnCycle(links, u)
  {
    assert i < j;
    assert Ancestor(links, v, i + 1) == Some(u) && Ancestor(links, v, j + 1) == Some(u);
    AncestorCompose(links, v, i + 1, j - i);
    assert i + 1 + (j - i) == j + 1;
    assert Ancestor(links, u, j - i) == Some(u);
  }

  /** A referral of a user who is on no cycle is on no cycle. */
  lemma ReferralOffCycle(links: Links, c: UserId)
    requires c in links && !OnCycle(links, links[c])
    ensures !OnCycle(links, c)
  {
    if k: nat :| k > 0 && Ancestor(links, c, k) == Some(c) {
      assert Ancestor(links, c, 0) == Some(c);
      assert Ancestor(links, c, 1) == Some(links[c]);
      AncestorCompose(links, c, k, 1);
      AncestorCompose(links, c, 1, k);
      assert false;
    }
  }

  /** Nobody appears twice. */
  lemma {:induction false} TreeHasNoRepeats(t: Tree, links: Links)
    requires IsDownlineTree(t, links) && !OnCycle(links, t.id)
    ensures EachUserOnce(Preorder(t))
    decreases t, 1
  {
    ForestHasNoRepeats(t, links, 0);
    assert t.children[0..] == t.children;
    forall p | p in PreorderAll(t.children)
      ensures p.0 != t.id
    {
      TopIsNotBelowItself(t, links, p);
    }
  }

  lemma TopIsNotBelowItself(t: Tree, links: Links, p: (UserId, nat))
    requires IsDownlineTree(t, links) && !OnCycle(links, t.id) && p in PreorderAll(t.children)
    ensures p.0 != t.id
  {
    InPreorderAll(t.children, p);
    var i :| 0 <= i < |t.children| && p in Preorder(t.children[i]);
    var c := t.children[i];
    TreeIsComplete(c, links, p.0, p.1);
    var k: nat := p.1 - c.level;
    assert Ancestor(links, p.0, k + 1) == Some(t.id);
  }

  lemma {:induction false} ForestHasNoRepeats(t: Tree, links: Links, from: nat)
    requires IsDownlineTree(t, links) && !OnCycle(links, t.id) && from <= |t.children|
    ensures EachUserOnce(PreorderAll(t.children[from..]))
    decreases t, 0, |t.children| - from
  {
    var rest := t.children[from..];
    if rest != [] {
      var first := t.children[from];
      assert rest[0] == first && rest[1..] == t.children[from + 1..];
      ReferralOffCycle(links, first.id);
      TreeHasNoRepeats(first, links);
      ForestHasNoRepeats(t, links, from + 1);
      var a, b := Preorder(first), PreorderAll(t.children[from + 1..]);
      forall i, j | 0 <= i < |a| && 0 <= j < |b|
        ensures a[i].0 != b[j].0
      {
        SubtreesDisjoint(t, links, from, a[i], b[j]);
      }
    }
  }

  lemma SubtreesDisjoint(t: Tree, links: Links, from: nat, p: (UserId, nat), q: (UserId, nat))
    requires IsDownlineTree(t, links) && !OnCycle(links, t.id) && from < |t.children|
    requires p in Preorder(t.children[from]) && q in PreorderAll(t.children[from + 1..])
    ensures p.0 != q.0
  {
    var later := t.children[from + 1..];
    InPreorderAll(later, q);
    var i :| 0 <= i < |later| && q in Preorder(later[i]);
    assert t.children[from + 1 + i] == later[i];
    TwoSubtreesDisjoint(t, links, from, from + 1 + i, p, q);
  }

  lemma TwoSubtreesDisjoint(t: Tree, links: Links, i: nat, j: nat, p: (UserId, nat), q: (UserId, nat))
    requires IsDownlineTree(t, links) && !OnCycle(links, t.id) && i < j < |t.children|
    requires p in Preorder(t.children[i]) && q in Preorder(t.children[j])
    ensures p.0 != q.0
  {
    var c, d := t.children[i], t.children[j];
    TreeIsComplete(c, links, p.0, p.1);
    TreeIsComplete(d, links, q.0, q.1);
    if p.0 == q.0 {
      var m: nat, n: nat := p.1 - c.level, q.1 - d.level;
      if m <= n {
        SiblingsShareNoDescendant(links, t.id, c.id, d.id, p.0, m, n);
      } else {
        SiblingsShareNoDescendant(links, t.id, d.id, c.id, p.0, n, m);
      }
    }
  }

  /** The whole view is exact: user v is shown at level l precisely when root is v's l-th
      ancestor, and nobody is shown twice. */
  lemma DownlineTreeIsExact(t: Tree, links: Links)
    requires IsDownlineTree(t, links) && t.level == 0 && !OnCycle(links, t.id)
    ensures forall v, l: nat :: (v, l) in Preorder(t) <==> Ancestor(links, v, l) == Some(t.id)
    ensures EachUserOnce(Preorder(t))
  {
    forall v, l: nat
      ensures (v, l) in Preorder(t) <==> Ancestor(links, v, l) == Some(t.id)
    {
      TreeIsComplete(t, links, v, l);
    }
    TreeHasNoRepeats(t, links);
  }

  // ------------------------------------------------------- level-by-level expansion

  /** Rows below a given level: each user once, under its own sponsor, at its distance
      from root, in order of level. */
  ghost predicate SoundRows(rows: seq<Row>, links: Links, root: UserId, level: nat) {
    && (forall i, j :: 0 <= i < j < |rows| ==> rows[i].id != rows[j].id && rows[i].level <= rows[j].level)
    && (forall r :: r in rows ==>
          && r.id in links && r.sponsor == links[r.id]
          && 0 < r.level < level && Ancestor(links, r.id, r.level) == Some(root))
  }

  ghost predicate CoversLevels(rows: seq<Row>, links: Links, root: UserId, level: nat) {
    forall v, k: nat :: 0 < k < level && Ancestor(links, v, k) == Some(root) ==>
                          v in links && Row(v, links[v], k) in rows
  }

  /** What the recursive query returns: the users below root, each exactly once. */
  ghost predicate IsDownline(rows: seq<Row>, links: Links, root: UserId) {
    exists depth: nat ::
      SoundRows(rows, links, root, depth) && forall level: nat :: CoversLevels(rows, links, root, level)
  }

  ghost predicate IsLevel(ids: seq<UserId>, links: Links, root: UserId, level: nat) {
    && NoDuplicates(ids)
    && forall v :: v in ids <==> v in links && Ancestor(links, v, level) == Some(root)
  }

  /** Off a cycle, root is above a given user at one height only. */
  lemma DistanceIsUnique(links: Links, root: UserId, v: UserId, j: nat, k: nat)
    requires !OnCycle(links, root)
    requires Ancestor(links, v, j) == Some(root) && Ancestor(links, v, k) == Some(root) && j <= k
    ensures j == k
  {
    if j < k {
      AncestorCompose(links, v, j, k - j);
      assert false;
    }
  }

  /** If one level is empty, so is every later one. */
  lemma {:induction false} EmptyLevelEndsDownline(links: Links, root: UserId, v: UserId, k: nat, n: nat)
    requires k > 0 && n >= k && Ancestor(links, v, n) == Some(root)
    ensures exists w :: w in links && Ancestor(links, w, k) == Some(root)
    decreases n
  {
    if n == k {
      AncestorCompose(links, v, 0, n);
      AncestorPrefix(links, v, 1, n);
      assert v in links by { assert Ancestor(links, v, 0) == Some(v); assert Ancestor(links, v, 1).Some?; }
    } else {
      AncestorPrefix(links, v, 1, n);
      assert Ancestor(links, v, 0) == Some(v);
      AncestorCompose(links, v, 1, n - 1);
      EmptyLevelEndsDownline(links, root, links[v], k, n - 1);
    }
  }

  function RowsAt(ids: seq<UserId>, links: Links, level: nat): (rows: seq<Row>)
    requires forall v :: v in ids ==> v in links
    ensures |rows| == |ids|
    ensures forall i :: 0 <= i < |ids| ==> rows[i] == Row(ids[i], links[ids[i]], level)
  {
    seq(|ids|, i requires 0 <= i < |ids| => Row(ids[i], links[ids[i]], level))
  }

  /** One step of the recursive query: users whose sponsor is in the previous level. */
  method ReferralsOf(table: seq<UserId>, links: Links, frontier: seq<UserId>) returns (next: seq<UserId>)
    requires NoDuplicates(table)
    ensures NoDuplicates(next)
    ensures forall v :: v in next <==> v in table && v in links && links[v] in frontier
  {
    next := [];
    for i := 0 to |table|
      invariant NoDuplicates(next)
      invariant forall v :: v in next <==> v in table[..i] && v in links && links[v] in frontier
    {
      if table[i] in links && links[table[i]] in frontier {
        next := next + [table[i]];
      }
    }
  }

  /** Terminates whenever root is on no cycle, in particular on every forest. */
  method ExpandDownline(table: seq<UserId>, links: Links, root: UserId) returns (rows: seq<Row>)
    requires UserTable(table, links) && !OnCycle(links, root)
    ensures IsDownline(rows, links, root)
  {
    rows := [];
    var level: nat := 1;
    var frontier := ReferralsOf(table, links, [root]);
    while frontier != []
      invariant level > 0 && IsLevel(frontier, links, root, level)
      invariant SoundRows(rows, links, root, level) && CoversLevels(rows, links, root, level)
      decreases Unlisted(table, rows)
    {
      AddLevel(links, root, rows, frontier, level);
      NextFrontier(links, root, frontier, level);
      var added := RowsAt(frontier, links, level);
      ListingShrinks(table, rows, added, frontier[0]);
      rows := rows + added;
      frontier := ReferralsOf(table, links, frontier);
      level := level + 1;
    }
    DownlineEnds(links, root, rows, level);
  }

  ghost function Unlisted(table: seq<UserId>, rows: seq<Row>): set<UserId> {
    set v | v in table && forall r :: r in rows ==> r.id != v
  }

  lemma ListingShrinks(table: seq<UserId>, rows: seq<Row>, added: seq<Row>, v: UserId)
    requires v in table && (forall r :: r in rows ==> r.id != v)
    requires exists r :: r in added && r.id == v
    ensures Unlisted(table, rows + added) < Unlisted(table, rows)
  {
    assert v in Unlisted(table, rows);
    assert forall r :: r in added ==> r in rows + added;
    assert v !in Unlisted(table, rows + added);
  }

  /** One link further up from the sponsor. */
  lemma SponsorsDistance(links: Links, v: UserId, level: nat)
    requires v in links
    ensures Ancestor(links, v, level + 1) == Ancestor(links, links[v], level)
  {
    assert Ancestor(links, v, 0) == Some(v);
    assert Ancestor(links, v, 1) == Some(links[v]);
    AncestorCompose(links, v, 1, level);
  }

  lemma NextFrontier(links: Links, root: UserId, frontier: seq<UserId>, level: nat)
    requires level > 0 && IsLevel(frontier, links, root, level)
    ensures forall v :: v in links && links[v] in frontier <==>
              v in links && Ancestor(links, v, level + 1) == Some(root)
  {
    forall v | v in links
      ensures links[v] in frontier <==> Ancestor(links, v, level + 1) == Some(root)
    {
      SponsorsDistance(links, v, level);
      AtLevel(links, root, frontier, level, links[v]);
    }
  }

  lemma AtLevel(links: Links, root: UserId, frontier: seq<UserId>, level: nat, s: UserId)
    requires level > 0 && IsLevel(frontier, links, root, level)
    ensures s in frontier <==> Ancestor(links, s, level) == Some(root)
  {
    if Ancestor(links, s, level) == Some(root) {
      AncestorPrefix(links, s, 1, level);
      assert Ancestor(links, s, 0) == Some(s);
    }
  }

  /** No user of one level was already listed at an earlier one. */
  lemma AddLevel(links: Links, root: UserId, rows: seq<Row>, ids: seq<UserId>, level: nat)
    requires level > 0 && !OnCycle(links, root) && IsLevel(ids, links, root, level)
    requires SoundRows(rows, links, root, level) && CoversLevels(rows, links, root, level)
    ensures forall r, v :: r in rows && v in ids ==> r.id != v
    ensures SoundRows(rows + RowsAt(ids, links, level), links, root, level + 1)
    ensures CoversLevels(rows + RowsAt(ids, links, level), links, root, level + 1)
  {
    forall r, v | r in rows && v in ids
      ensures r.id != v
    {
      if r.id == v {
        DistanceIsUnique(links, root, v, r.level, level);
      }
    }
    LevelIsCovered(links, root, rows, ids, level);
  }

  lemma LevelIsCovered(links: Links, root: UserId, rows: seq<Row>, ids: seq<UserId>, level: nat)
    requires level > 0 && IsLevel(ids, links, root, level) && CoversLevels(rows, links, root, level)
    ensures CoversLevels(rows + RowsAt(ids, links, level), links, root, level + 1)
  {
    var all := rows + RowsAt(ids, links, level);
    forall v, k: nat | 0 < k < level + 1 && Ancestor(links, v, k) == Some(root)
      ensures v in links && Row(v, links[v], k) in all
    {
      AncestorPrefix(links, v, 1, k);
      assert Ancestor(links, v, 0) == Some(v);
      if k == level {
        var i :| 0 <= i < |ids| && ids[i] == v;
        assert all[|rows| + i] == Row(v, links[v], k);
      }
    }
  }

  lemma DownlineEnds(links: Links, root: UserId, rows: seq<Row>, level: nat)
    requires level > 0 && IsLevel([], links, root, level)
    requires SoundRows(rows, links, root, level) && CoversLevels(rows, links, root, level)
    ensures IsDownline(rows, links, root)
  {
    forall n: nat
      ensures CoversLevels(rows, links, root, n)
    {
      forall v, k: nat | 0 < k < n && Ancestor(links, v, k) == Some(root)
        ensures v in links && Row(v, links[v], k) in rows
      {
        if k >= level {
          EmptyLevelEndsDownline(links, root, v, level, k);
        }
      }
    }
  }

  /** Once round the loop from v is a longer chain to root; without its first n - 1
      steps, j + 1 steps of it are left. */
  lemma StepBack(links: Links, root: UserId, v: UserId, j: nat, n: nat) returns (w: UserId)
    requires Ancestor(links, v, j) == Some(root) && n > 0 && Ancestor(links, root, n) == Some(root)
    ensures Ancestor(links, w, j + 1) == Some(root)
  {
    AncestorCompose(links, v, j, n);
    var whole: nat, cut: nat := j + n, n - 1;
    assert Ancestor(links, v, whole) == Some(root);
    AncestorPrefix(links, v, cut, whole);
    AncestorCompose(links, v, cut, j + 1);
    w := Ancestor(links, v, cut).value;
  }

  lemma {:induction false} LoopFillsLevel(links: Links, root: UserId, k: nat) returns (v: UserId)
    requires OnCycle(links, root)
    ensures Ancestor(links, v, k) == Some(root)
  {
    if k == 0 {
      v := root;
    } else {
      var n: nat :| n > 0 && Ancestor(links, root, n) == Some(root);
      v := LoopFillsLevel(links, root, k - 1);
      v := StepBack(links, root, v, k - 1, n);
    }
  }

  /** The other side: with root on a cycle no level is ever empty, so the recursive
      query would never stop. */
  lemma LoopNeverEnds(links: Links, root: UserId, level: nat)
    requires OnCycle(links, root)
    ensures !IsLevel([], links, root, level + 1)
  {
    var v := LoopFillsLevel(links, root, level + 1);
    AncestorPrefix(links, v, 1, level + 1);
    assert Ancestor(links, v, 0) == Some(v);
  }

  // ------------------------------------------------------------- two-pass linking

  /** The nodes under `node`, followed through the heap, spell out the tree t. */
  ghost predicate Represents(node: TreeNode, t: Tree, nodes: set<TreeNode>)
    reads nodes
    decreases t
  {
    && node in nodes
    && node.id == t.id && node.level == t.level
    && |node.children| == |t.children|
    && forall i :: 0 <= i < |t.children| ==> Represents(node.children[i], t.children[i], nodes)
  }

  ghost predicate IsKid(rows: seq<Row>, n: nat, p: UserId, c: UserId)
    requires n <= |rows|
  {
    exists i :: 0 <= i < n && rows[i].id == c && rows[i].sponsor == p
  }

  /** Second pass, after n rows: `kids` names the children linked under each node so far. */
  ghost predicate Linked(kids: map<UserId, seq<UserId>>, rows: seq<Row>, n: nat)
    requires n <= |rows|
  {
    && (forall p :: p in kids ==> NoDuplicates(kids[p]))
    && (forall p, c :: p in kids ==> (c in kids[p] <==> IsKid(rows, n, p, c)))
  }

  ghost predicate HeapHolds(node: TreeNode, kids: seq<UserId>, nodeMap: map<UserId, TreeNode>)
    reads node
  {
    && |node.children| == |kids|
    && forall i :: 0 <= i < |kids| ==> kids[i] in nodeMap && node.children[i] == nodeMap[kids[i]]
  }

  method CreateNodes(rows: seq<Row>) returns (nodeMap: map<UserId, TreeNode>)
    requires forall i, j :: 0 <= i < j < |rows| ==> rows[i].id != rows[j].id
    ensures nodeMap.Keys == set r | r in rows :: r.id
    ensures forall r :: r in rows ==> nodeMap[r.id].level == r.level
    ensures forall id :: id in nodeMap ==> nodeMap[id].id == id && nodeMap[id].children == [] && fresh(nodeMap[id])
  {
    nodeMap := map[];
    for i := 0 to |rows|
      invariant nodeMap.Keys == set r | r in rows[..i] :: r.id
      invariant forall k :: 0 <= k < i ==> nodeMap[rows[k].id].level == rows[k].level
      invariant forall id :: id in nodeMap ==> nodeMap[id].id == id && nodeMap[id].children == [] && fresh(nodeMap[id])
    {
      assert rows[..i + 1] == rows[..i] + [rows[i]];
      var node := new TreeNode(rows[i].id, rows[i].level);
      nodeMap := nodeMap[rows[i].id := node];
    }
    assert rows[..|rows|] == rows;
  }

  /** Each row's parent is either a node of the map or, for level 1 only, the root node. */
  ghost predicate ParentsKnown(rows: seq<Row>, ids: set<UserId>, root: UserId) {
    && root !in ids
    && forall r :: r in rows ==>
         r.id in ids && (r.sponsor == root || r.sponsor in ids) && (r.sponsor == root <==> r.level == 1)
  }

  /** Every node, the root included, holds the nodes of its `kids` in order. */
  ghost predicate HeapLinked(kids: map<UserId, seq<UserId>>, nodeMap: map<UserId, TreeNode>, root: UserId,
                             rootNode: TreeNode)
    reads nodeMap.Values, rootNode
  {
    && kids.Keys == nodeMap.Keys + {root}
    && (forall p :: p in nodeMap ==> nodeMap[p].id == p && HeapHolds(nodeMap[p], kids[p], nodeMap))
    && rootNode.id == root && HeapHolds(rootNode, kids[root], nodeMap)
  }

  method LinkRow(row: Row, nodeMap: map<UserId, TreeNode>, root: UserId, rootNode: TreeNode,
                 ghost kids: map<UserId, seq<UserId>>)
    requires HeapLinked(kids, nodeMap, root, rootNode) && root !in nodeMap && row.id in nodeMap
    requires (row.sponsor == root || row.sponsor in nodeMap) && (row.sponsor == root <==> row.level == 1)
    modifies rootNode, nodeMap.Values
    ensures HeapLinked(kids[row.sponsor := kids[row.sponsor] + [row.id]], nodeMap, root, rootNode)
  {
    if row.sponsor in nodeMap {
      var parent := nodeMap[row.sponsor];
      parent.children := parent.children + [nodeMap[row.id]];
    } else if row.level == 1 {
      rootNode.children := rootNode.children + [nodeMap[row.id]];
    }
  }

  method LinkNodes(rows: seq<Row>, nodeMap: map<UserId, TreeNode>, root: UserId, rootNode: TreeNode)
    returns (ghost kids: map<UserId, seq<UserId>>)
    requires forall i, j :: 0 <= i < j < |rows| ==> rows[i].id != rows[j].id
    requires ParentsKnown(rows, nodeMap.Keys, root)
    requires forall id :: id in nodeMap ==> nodeMap[id].id == id && nodeMap[id].children == []
    requires rootNode.id == root && rootNode.children == []
    modifies rootNode, nodeMap.Values
    ensures Linked(kids, rows, |rows|) && HeapLinked(kids, nodeMap, root, rootNode)
  {
    kids := map p | p in nodeMap.Keys + {root} :: [];
    for i := 0 to |rows|
      invariant Linked(kids, rows, i) && HeapLinked(kids, nodeMap, root, rootNode)
    {
      assert rows[i] in rows;
      LinkOne(kids, rows, i);
      LinkRow(rows[i], nodeMap, root, rootNode, kids);
      kids := kids[rows[i].sponsor := kids[rows[i].sponsor] + [rows[i].id]];
    }
  }

  lemma LinkOne(kids: map<UserId, seq<UserId>>, rows: seq<Row>, n: nat)
    requires n < |rows| && Linked(kids, rows, n) && rows[n].sponsor in kids
    requires forall i, j :: 0 <= i < j < |rows| ==> rows[i].id != rows[j].id
    ensures Linked(kids[rows[n].sponsor := kids[rows[n].sponsor] + [rows[n].id]], rows, n + 1)
  {
    var q, d := rows[n].sponsor, rows[n].id;
    assert d !in kids[q];
    forall p, c | p in kids
      ensures IsKid(rows, n + 1, p, c) <==> IsKid(rows, n, p, c) || (p == q && c == d)
    {
      if IsKid(rows, n, p, c) {
        var i :| 0 <= i < n && rows[i].id == c && rows[i].sponsor == p;
        assert i < n + 1;
      }
    }
  }

  lemma DownlineParentsKnown(rows: seq<Row>, links: Links, root: UserId)
    requires IsDownline(rows, links, root) && !OnCycle(links, root)
    ensures ParentsKnown(rows, set r | r in rows :: r.id, root)
  {
    var depth: nat :|
      SoundRows(rows, links, root, depth) && forall level: nat :: CoversLevels(rows, links, root, level);
    var ids := set r | r in rows :: r.id;
    forall r | r in rows
      ensures r.id != root && (r.sponsor == root || r.sponsor in ids) && (r.sponsor == root <==> r.level == 1)
    {
      assert Ancestor(links, r.id, 0) == Some(r.id);
      assert Ancestor(links, r.id, 1) == Some(r.sponsor);
      AncestorCompose(links, r.id, 1, r.level - 1);
      if r.sponsor == root {
        DistanceIsUnique(links, root, r.id, 1, r.level);
      } else {
        assert CoversLevels(rows, links, root, r.level);
        assert r.level - 1 > 0;
        assert Row(r.sponsor, links[r.sponsor], r.level - 1) in rows;
      }
    }
  }

  /** The downline view: an unknown user is refused; for any other the nodes built in the
      heap spell out a tree that holds, under every node, exactly its direct referrals. */
  method GetMyTree(table: seq<UserId>, links: Links, root: UserId)
    returns (r: Result<TreeNode, string>, ghost tree: Tree, ghost nodes: set<TreeNode>)
    requires UserTable(table, links) && !OnCycle(links, root)
    ensures r.Err? <==> root !in table
    ensures r.Ok? ==> Represents(r.value, tree, nodes)
    ensures r.Ok? ==> tree.id == root && tree.level == 0 && IsDownlineTree(tree, links)
    ensures r.Ok? ==> forall v, l: nat :: (v, l) in Preorder(tree) <==> Ancestor(links, v, l) == Some(root)
    ensures r.Ok? ==> EachUserOnce(Preorder(tree))
  {
    tree, nodes := Tree(root, 0, []), {};
    if root !in table {
      return Err("User not found"), tree, nodes;
    }
    var rootNode;
    rootNode, tree, nodes := BuildTree(table, links, root);
    r := Ok(rootNode);
  }

  method BuildTree(table: seq<UserId>, links: Links, root: UserId)
    returns (rootNode: TreeNode, ghost tree: Tree, ghost nodes: set<TreeNode>)
    requires UserTable(table, links) && !OnCycle(links, root)
    ensures rootNode.id == root && rootNode.level == 0
    ensures forall i :: 0 <= i < |rootNode.children| ==>
              rootNode.children[i].level == 1 && rootNode.children[i].id in links
              && links[rootNode.children[i].id] == root
    ensures Represents(rootNode, tree, nodes)
    ensures tree.id == root && tree.level == 0 && IsDownlineTree(tree, links)
    ensures forall v, l: nat :: (v, l) in Preorder(tree) <==> Ancestor(links, v, l) == Some(root)
    ensures EachUserOnce(Preorder(tree))
  {
    var rows := ExpandDownline(table, links, root);
    rootNode := new TreeNode(root, 0);
    var nodeMap := CreateNodes(rows);
    DownlineParentsKnown(rows, links, root);
    ghost var kids := LinkNodes(rows, nodeMap, root, rootNode);

    nodes := {rootNode} + nodeMap.Values;
    tree := TreeOfHeap(rows, links, root, kids, nodeMap, rootNode, nodes);
    DownlineTreeIsExact(tree, links);
  }

  lemma TreeOfHeap(rows: seq<Row>, links: Links, root: UserId, kids: map<UserId, seq<UserId>>,
                   nodeMap: map<UserId, TreeNode>, rootNode: TreeNode, nodes: set<TreeNode>) returns (tree: Tree)
    requires IsDownline(rows, links, root) && !OnCycle(links, root)
    requires Linked(kids, rows, |rows|) && HeapLinked(kids, nodeMap, root, rootNode)
    requires nodeMap.Keys == (set r | r in rows :: r.id) && (forall r :: r in rows ==> nodeMap[r.id].level == r.level)
    requires rootNode.level == 0 && nodes == {rootNode} + nodeMap.Values
    ensures tree.id == root && tree.level == 0
    ensures IsDownlineTree(tree, links) && Represents(rootNode, tree, nodes)
  {
    var depth: nat :|
      SoundRows(rows, links, root, depth) && forall level: nat :: CoversLevels(rows, links, root, level);
    tree := Unfold(kids, root, 0, depth + 1);
    assert Ancestor(links, root, 0) == Some(root);
    assert CoversLevels(rows, links, root, depth + 2);
    KidsSpread(kids, rows, links, root, depth);
    NodesShowLevels(kids, rows, links, root, depth, nodeMap);
    UnfoldIsDownline(kids, links, root, root, 0, depth + 1);
    UnfoldMatchesHeap(kids, links, root, root, 0, depth + 1, rootNode, rootNode, nodeMap, nodes);
  }

  ghost function Unfold(kids: map<UserId, seq<UserId>>, u: UserId, level: nat, depth: nat): Tree
    decreases depth - level
  {
    Tree(u, level,
         if u !in kids || level >= depth then []
         else seq(|kids[u]|, i requires 0 <= i < |kids[u]| => Unfold(kids, kids[u][i], level + 1, depth)))
  }

  /** The state after both passes. */
  ghost predicate Placed(kids: map<UserId, seq<UserId>>, rows: seq<Row>, links: Links, root: UserId, depth: nat) {
    && !OnCycle(links, root)
    && SoundRows(rows, links, root, depth) && CoversLevels(rows, links, root, depth + 2)
    && Linked(kids, rows, |rows|)
    && kids.Keys == (set r | r in rows :: r.id) + {root}
  }

  /** How far below root a user of the downline is. */
  lemma PlaceOf(kids: map<UserId, seq<UserId>>, rows: seq<Row>, links: Links, root: UserId, depth: nat, u: UserId)
    returns (level: nat)
    requires Placed(kids, rows, links, root, depth) && u in kids
    ensures level < depth + 1 && Ancestor(links, u, level) == Some(root)
  {
    if u == root {
      level := 0;
      assert Ancestor(links, root, 0) == Some(root);
    } else {
      var r :| r in rows && r.id == u;
      level := r.level;
    }
  }

  lemma KidsAreReferrals(kids: map<UserId, seq<UserId>>, rows: seq<Row>, links: Links, root: UserId, depth: nat,
                         u: UserId, c: UserId)
    requires Placed(kids, rows, links, root, depth) && u in kids
    ensures c in kids[u] <==> c in links && links[c] == u
    ensures c in kids[u] ==> c in kids
  {
    if c in kids[u] {
      var i :| 0 <= i < |rows| && rows[i].id == c && rows[i].sponsor == u;
      assert rows[i] in rows;
    }
    if c in links && links[c] == u {
      var level := PlaceOf(kids, rows, links, root, depth, u);
      SponsorsDistance(links, c, level);
      assert Row(c, u, level + 1) in rows;
    }
  }

  /** Under every user of the downline are exactly that user's referrals. */
  ghost predicate Spread(kids: map<UserId, seq<UserId>>, links: Links) {
    && (forall u :: u in kids ==> NoDuplicates(kids[u]))
    && (forall u, c :: u in kids ==> (c in kids[u] <==> c in links && links[c] == u))
    && (forall u, c :: u in kids && c in kids[u] ==> c in kids)
  }

  ghost predicate Shallow(kids: map<UserId, seq<UserId>>, links: Links, root: UserId, depth: nat) {
    forall u, level: nat :: u in kids && Ancestor(links, u, level) == Some(root) ==> level < depth
  }

  lemma KidsSpread(kids: map<UserId, seq<UserId>>, rows: seq<Row>, links: Links, root: UserId, depth: nat)
    requires Placed(kids, rows, links, root, depth)
    ensures Spread(kids, links) && Shallow(kids, links, root, depth + 1)
  {
    forall u, c | u in kids
      ensures c in kids[u] <==> c in links && links[c] == u
      ensures c in kids[u] ==> c in kids
    {
      KidsAreReferrals(kids, rows, links, root, depth, u, c);
    }
    forall u, level: nat | u in kids && Ancestor(links, u, level) == Some(root)
      ensures level < depth + 1
    {
      var place := PlaceOf(kids, rows, links, root, depth, u);
      SameDistance(links, root, u, level, place);
    }
  }

  lemma SameDistance(links: Links, root: UserId, v: UserId, j: nat, k: nat)
    requires !OnCycle(links, root) && Ancestor(links, v, j) == Some(root) && Ancestor(links, v, k) == Some(root)
    ensures j == k
  {
    if j <= k { DistanceIsUnique(links, root, v, j, k); } else { DistanceIsUnique(links, root, v, k, j); }
  }

  /** One node of the unfolding has exactly the referrals of its user below it. */
  lemma UnfoldHoldsReferrals(kids: map<UserId, seq<UserId>>, links: Links, u: UserId, level: nat, depth: nat)
    requires u in kids && level < depth && NoDuplicates(kids[u])
    requires forall c :: c in kids[u] <==> c in links && links[c] == u
    ensures HoldsItsReferrals(Unfold(kids, u, level, depth), links)
  {
    var t := Unfold(kids, u, level, depth);
    forall i | 0 <= i < |t.children|
      ensures t.children[i].id == kids[u][i] && t.children[i].level == level + 1
    {
      assert t.children[i] == Unfold(kids, kids[u][i], level + 1, depth);
    }
    forall v | v in links && links[v] == u
      ensures HasChild(t.children, v)
    {
      var i :| 0 <= i < |kids[u]| && kids[u][i] == v;
      assert t.children[i].id == v;
    }
  }

  /** A node is a downline tree if it holds its referrals and its children are. */
  lemma ChildrenAreDownlines(kids: map<UserId, seq<UserId>>, links: Links, u: UserId, level: nat, depth: nat)
    requires u in kids && level < depth && HoldsItsReferrals(Unfold(kids, u, level, depth), links)
    requires forall i :: 0 <= i < |kids[u]| ==> IsDownlineTree(Unfold(kids, kids[u][i], level + 1, depth), links)
    ensures IsDownlineTree(Unfold(kids, u, level, depth), links)
  {
    var t := Unfold(kids, u, level, depth);
    forall c | c in t.children
      ensures IsDownlineTree(c, links)
    {
      var i :| 0 <= i < |t.children| && t.children[i] == c;
      assert c == Unfold(kids, kids[u][i], level + 1, depth);
    }
  }

  lemma {:induction false} UnfoldIsDownline(kids: map<UserId, seq<UserId>>, links: Links, root: UserId,
                                            u: UserId, level: nat, depth: nat)
    requires Spread(kids, links) && Shallow(kids, links, root, depth)
    requires u in kids && Ancestor(links, u, level) == Some(root)
    ensures IsDownlineTree(Unfold(kids, u, level, depth), links)
    decreases depth - level
  {
    assert level < depth;
    UnfoldHoldsReferrals(kids, links, u, level, depth);
    forall i | 0 <= i < |kids[u]|
      ensures IsDownlineTree(Unfold(kids, kids[u][i], level + 1, depth), links)
    {
      var c := kids[u][i];
      assert c in kids[u];
      SponsorsDistance(links, c, level);
      UnfoldIsDownline(kids, links, root, c, level + 1, depth);
    }
    ChildrenAreDownlines(kids, links, u, level, depth);
  }

  /** Every node shows its user's distance below root. */
  ghost predicate LevelsShown(nodeMap: map<UserId, TreeNode>, links: Links, root: UserId)
    reads nodeMap.Values
  {
    forall u, level: nat :: u in nodeMap && Ancestor(links, u, level) == Some(root) ==> nodeMap[u].level == level
  }

  lemma NodesShowLevels(kids: map<UserId, seq<UserId>>, rows: seq<Row>, links: Links, root: UserId, depth: nat,
                        nodeMap: map<UserId, TreeNode>)
    requires Placed(kids, rows, links, root, depth)
    requires nodeMap.Keys == (set r | r in rows :: r.id) && (forall r :: r in rows ==> nodeMap[r.id].level == r.level)
    ensures LevelsShown(nodeMap, links, root)
  {
    forall u, level: nat | u in nodeMap && Ancestor(links, u, level) == Some(root)
      ensures nodeMap[u].level == level
    {
      var r :| r in rows && r.id == u;
      SameDistance(links, root, u, level, r.level);
    }
  }

  /** The node of a child, one level down. */
  lemma ChildNode(kids: map<UserId, seq<UserId>>, links: Links, root: UserId, u: UserId, level: nat, c: UserId,
                  rootNode: TreeNode, nodeMap: map<UserId, TreeNode>)
    requires Spread(kids, links) && u in kids && c in kids[u] && c in nodeMap && Ancestor(links, u, level) == Some(root)
    requires HeapLinked(kids, nodeMap, root, rootNode) && LevelsShown(nodeMap, links, root)
    ensures c in kids && Ancestor(links, c, level + 1) == Some(root)
    ensures nodeMap[c].id == c && nodeMap[c].level == level + 1 && HeapHolds(nodeMap[c], kids[c], nodeMap)
  {
    SponsorsDistance(links, c, level);
  }

  lemma {:induction false} UnfoldMatchesHeap(kids: map<UserId, seq<UserId>>, links: Links, root: UserId,
                                             u: UserId, level: nat, depth: nat,
                                             node: TreeNode, rootNode: TreeNode, nodeMap: map<UserId, TreeNode>,
                                             nodes: set<TreeNode>)
    requires Spread(kids, links) && Shallow(kids, links, root, depth)
    requires u in kids && Ancestor(links, u, level) == Some(root)
    requires HeapLinked(kids, nodeMap, root, rootNode) && nodeMap.Values <= nodes && LevelsShown(nodeMap, links, root)
    requires node in nodes && node.id == u && node.level == level && HeapHolds(node, kids[u], nodeMap)
    ensures Represents(node, Unfold(kids, u, level, depth), nodes)
    decreases depth - level
  {
    assert level < depth;
    forall i | 0 <= i < |kids[u]|
      ensures Represents(nodeMap[kids[u][i]], Unfold(kids, kids[u][i], level + 1, depth), nodes)
    {
      var c := kids[u][i];
      ChildNode(kids, links, root, u, level, c, rootNode, nodeMap);
      UnfoldMatchesHeap(kids, links, root, c, level + 1, depth, nodeMap[c], rootNode, nodeMap, nodes);
    }
    ChildrenRepresent(kids, u, level, depth, node, nodeMap, nodes);
  }

  /** A node represents its unfolding if its children represent theirs. */
  lemma ChildrenRepresent(kids: map<UserId, seq<UserId>>, u: UserId, level: nat, depth: nat,
                          node: TreeNode, nodeMap: map<UserId, TreeNode>, nodes: set<TreeNode>)
    requires u in kids && level < depth
    requires node in nodes && node.id == u && node.level == level && HeapHolds(node, kids[u], nodeMap)
    requires forall i :: 0 <= i < |kids[u]| ==>
               Represents(nodeMap[kids[u][i]], Unfold(kids, kids[u][i], level + 1, depth), nodes)
    ensures Represents(node, Unfold(kids, u, level, depth), nodes)
  {
    var t := Unfold(kids, u, level, depth);
    forall i | 0 <= i < |t.children|
      ensures Represents(node.children[i], t.children[i], nodes)
    {
      assert node.children[i] == nodeMap[kids[u][i]];
      assert t.children[i] == Unfold(kids, kids[u][i], level + 1, depth);
    }
  }
}
