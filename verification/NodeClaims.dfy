/**
 Node exclusivity: which installation may use a node
 (internal/controller/yanet_reconciler.go, validateExclusiveNodes and yanetPrecedes).
 */
module NodeClaims {
  import opened Cluster
  import Strings

  /** What the check lists: all installations, all Deployments, and the selected nodes. */
  datatype Listing = Listing(
    yanets: map<Key, Yanet>, deployments: map<Key, Deployment>, nodes: map<string, Labels>)

  /** yanetPrecedes: the older installation first, then the smaller "namespace/name". */
  predicate Precedes(k1: Key, y1: Yanet, k2: Key, y2: Yanet) {
    if y1.created != y2.created then y1.created < y2.created
    else Strings.Less(k1.ns + "/" + k1.name, k2.ns + "/" + k2.name)
  }

  /** The installation controls a Deployment on the node. */
  ghost predicate HasWorkload(l: Listing, k: Key, y: Yanet, node: string) {
    exists d :: d in l.deployments && Controls(k, y, d, l.deployments[d].owner)
                && l.deployments[d].template.node == node
  }

  /** `k1` outranks `k2` on the node: an incumbent first, then precedence. */
  ghost predicate Outranks(l: Listing, k1: Key, y1: Yanet, k2: Key, y2: Yanet, node: string) {
    if HasWorkload(l, k1, y1, node) == HasWorkload(l, k2, y2, node) then Precedes(k1, y1, k2, y2)
    else HasWorkload(l, k1, y1, node)
  }

  /** The installation has a workload on the listed node or selects it. */
  ghost predicate Claims(l: Listing, k: Key, y: Yanet, node: string)
    requires node in l.nodes
  {
    HasWorkload(l, k, y, node) || Matches(y.selector, l.nodes[node])
  }

  /** `other` keeps `me` off the node. */
  ghost predicate Blocks(l: Listing, me: Key, y: Yanet, other: Key, node: string) {
    && other in l.yanets && other != me && node in l.nodes
    && Claims(l, other, l.yanets[other], node)
    && !(Outranks(l, me, y, other, l.yanets[other], node) && !l.yanets[other].deleting)
  }

  /** No other installation keeps `me` off any listed node. */
  ghost predicate Exclusive(l: Listing, me: Key, y: Yanet) {
    forall other, node :: !Blocks(l, me, y, other, node)
  }

  /** `other` makes `me` leave the node. */
  ghost predicate Evicts(l: Listing, me: Key, y: Yanet, other: Key, node: string) {
    && Blocks(l, me, y, other, node) && HasWorkload(l, me, y, node)
    && !Outranks(l, me, y, other, l.yanets[other], node)
  }

  /** Nodes `me` must leave although it still selects them. */
  ghost predicate Evicted(l: Listing, me: Key, y: Yanet, node: string) {
    exists other :: Evicts(l, me, y, other, node)
  }

  /** Nodes `me` has a workload on without selecting them any more. */
  ghost predicate Abandoned(l: Listing, me: Key, y: Yanet, node: string) {
    node !in l.nodes && HasWorkload(l, me, y, node)
  }

  /** A listing returns every object, in some order. */
  ghost predicate Lists<K(!new), V>(order: seq<K>, objects: map<K, V>) {
    forall k :: k in order <==> k in objects
  }

  method FindWorkload(l: Listing, deployments: seq<Key>, k: Key, y: Yanet, node: string) returns (found: bool)
    requires Lists(deployments, l.deployments)
    ensures found == HasWorkload(l, k, y, node)
  {
    for i := 0 to |deployments|
      invariant forall j :: 0 <= j < i ==>
        !(Controls(k, y, deployments[j], l.deployments[deployments[j]].owner)
          && l.deployments[deployments[j]].template.node == node)
    {
      var d := deployments[i];
      assert d in l.deployments;
      if Controls(k, y, d, l.deployments[d].owner) && l.deployments[d].template.node == node {
        return true;
      }
    }
    found := false;
  }

  /** One pair of the nested loops: does `other` keep `me` off `node`, and must `me` leave it? */
  method CheckPair(l: Listing, deployments: seq<Key>, me: Key, y: Yanet, other: Key, node: string)
    returns (blocked: bool, evict: bool)
    requires Lists(deployments, l.deployments)
    requires other in l.yanets && other != me && node in l.nodes
    ensures blocked == Blocks(l, me, y, other, node)
    ensures evict == Evicts(l, me, y, other, node)
  {
    var theirs := l.yanets[other];
    var otherHas := FindWorkload(l, deployments, other, theirs, node);
    if !otherHas && !Matches(theirs.selector, l.nodes[node]) {
      return false, false;
    }
    var currentHas := FindWorkload(l, deployments, me, y, node);
    var currentWins := currentHas && !otherHas;
    if currentHas == otherHas {
      currentWins := Precedes(me, y, other, theirs);
    }
    if currentWins && !theirs.deleting {
      return false, false;
    }
    return true, currentHas && !currentWins;
  }

  /** The inner loop: one other installation against all nodes. */
  method CheckInstallation(l: Listing, deployments: seq<Key>, nodes: seq<string>, me: Key, y: Yanet, other: Key)
    returns (conflicts: seq<(string, Key)>, cleanup: set<string>)
    requires Lists(deployments, l.deployments) && Lists(nodes, l.nodes) && other in l.yanets && other != me
    ensures forall n, o :: (n, o) in conflicts <==> o == other && Blocks(l, me, y, o, n)
    ensures forall n :: n in cleanup <==> Evicts(l, me, y, other, n)
  {
    conflicts, cleanup := [], {};
    for j := 0 to |nodes|
      invariant forall n, o :: (n, o) in conflicts <==> o == other && n in nodes[..j] && Blocks(l, me, y, o, n)
      invariant forall n :: n in cleanup <==> n in nodes[..j] && Evicts(l, me, y, other, n)
    {
      var node := nodes[j];
      assert node in l.nodes;
      var blocked, evict := CheckPair(l, deployments, me, y, other, node);
      assert nodes[..j + 1] == nodes[..j] + [node];
      if blocked {
        conflicts := conflicts + [(node, other)];
      }
      if evict {
        cleanup := cleanup + {node};
      }
    }
    assert nodes[..|nodes|] == nodes;
  }

  /** The outer loop over all other installations. */
  method CheckInstallations(l: Listing, yanets: seq<Key>, deployments: seq<Key>, nodes: seq<string>, me: Key, y: Yanet)
    returns (conflicts: seq<(string, Key)>, cleanup: set<string>)
    requires Lists(yanets, l.yanets) && Lists(deployments, l.deployments) && Lists(nodes, l.nodes)
    ensures forall n, o :: (n, o) in conflicts <==> Blocks(l, me, y, o, n)
    ensures forall n :: n in cleanup <==> Evicted(l, me, y, n)
  {
    conflicts, cleanup := [], {};
    for i := 0 to |yanets|
      invariant forall n, o :: (n, o) in conflicts <==> o in yanets[..i] && Blocks(l, me, y, o, n)
      invariant forall n :: n in cleanup <==> exists o :: o in yanets[..i] && Evicts(l, me, y, o, n)
    {
      var other := yanets[i];
      assert other in l.yanets;
      if other != me {
        var theirs, lost := CheckInstallation(l, deployments, nodes, me, y, other);
        conflicts, cleanup := conflicts + theirs, cleanup + lost;
      }
      assert yanets[..i + 1] == yanets[..i] + [other];
    }
    assert yanets[..|yanets|] == yanets;
  }

  /** The nodes of own Deployments that are not selected any more. */
  method AbandonedNodes(l: Listing, deployments: seq<Key>, me: Key, y: Yanet) returns (abandoned: set<string>)
    requires Lists(deployments, l.deployments)
    ensures forall n :: n in abandoned <==> Abandoned(l, me, y, n)
  {
    abandoned := {};
    for i := 0 to |deployments|
      invariant forall n :: n in abandoned <==>
        exists d :: d in deployments[..i] && Controls(me, y, d, l.deployments[d].owner)
                    && l.deployments[d].template.node == n && n !in l.nodes
    {
      var d := deployments[i];
      assert d in l.deployments;
      assert deployments[..i + 1] == deployments[..i] + [d];
      var node := l.deployments[d].template.node;
      if node !in l.nodes && Controls(me, y, d, l.deployments[d].owner) {
        abandoned := abandoned + {node};
      }
    }
    assert deployments[..|deployments|] == deployments;
  }

  /**
   validateExclusiveNodes. The conflicts are exactly the blocking pairs; on a conflict the
   cleanup set is exactly the nodes to leave, whether lost or no longer selected.
   */
  method ValidateExclusiveNodes(l: Listing, yanets: seq<Key>, deployments: seq<Key>, nodes: seq<string>,
                                me: Key, y: Yanet)
    returns (conflicts: seq<(string, Key)>, cleanup: set<string>)
    requires Lists(yanets, l.yanets) && Lists(deployments, l.deployments) && Lists(nodes, l.nodes)
    ensures conflicts == [] <==> Exclusive(l, me, y)
    ensures forall n, o :: (n, o) in conflicts <==> Blocks(l, me, y, o, n)
    ensures conflicts == [] ==> cleanup == {}
    ensures conflicts != [] ==>
              forall n :: n in cleanup <==> Evicted(l, me, y, n) || Abandoned(l, me, y, n)
  {
    conflicts, cleanup := CheckInstallations(l, yanets, deployments, nodes, me, y);
    if conflicts == [] {
      assert forall n, o :: (n, o) !in conflicts;
      return conflicts, {};
    }
    assert conflicts[0] in conflicts && Blocks(l, me, y, conflicts[0].1, conflicts[0].0);
    var abandoned := AbandonedNodes(l, deployments, me, y);
    cleanup := cleanup + abandoned;
  }

  // ---- The order behind the check ------------------------------------------------------------

  lemma OutranksIsAsymmetric(l: Listing, k1: Key, y1: Yanet, k2: Key, y2: Yanet, node: string)
    ensures !(Outranks(l, k1, y1, k2, y2, node) && Outranks(l, k2, y2, k1, y1, node))
  {
    Strings.LessIsStrict(k1.ns + "/" + k1.name, k2.ns + "/" + k2.name);
  }

  /** Distinct installations are comparable because "namespace/name" determines both parts. */
  lemma OutranksIsTotal(l: Listing, k1: Key, y1: Yanet, k2: Key, y2: Yanet, node: string)
    requires k1 != k2 && '/' !in k1.ns && '/' !in k2.ns
    ensures Outranks(l, k1, y1, k2, y2, node) || Outranks(l, k2, y2, k1, y1, node)
  {
    var left, right := k1.ns + "/" + k1.name, k2.ns + "/" + k2.name;
    Strings.LessIsTotal(left, right);
    if left == right {
      Strings.SeparatedIsInjective(k1.ns, k1.name, k2.ns, k2.name, '/');
    }
  }

  lemma OutranksIsTransitive(l: Listing, k1: Key, y1: Yanet, k2: Key, y2: Yanet, k3: Key, y3: Yanet, node: string)
    requires Outranks(l, k1, y1, k2, y2, node) && Outranks(l, k2, y2, k3, y3, node)
    ensures Outranks(l, k1, y1, k3, y3, node)
  {
    var a, b, c := k1.ns + "/" + k1.name, k2.ns + "/" + k2.name, k3.ns + "/" + k3.name;
    if Strings.Less(a, b) && Strings.Less(b, c) {
      Strings.LessIsTransitive(a, b, c);
    }
  }

  /** The installation selects the node and no other installation keeps it off. */
  ghost predicate Passes(l: Listing, k: Key, node: string) {
    && k in l.yanets && node in l.nodes && Matches(l.yanets[k].selector, l.nodes[node])
    && forall other :: !Blocks(l, k, l.yanets[k], other, node)
  }

  /** Two installations never pass for one node, deleting or not. */
  lemma AtMostOnePasses(l: Listing, k1: Key, k2: Key, node: string)
    requires Passes(l, k1, node) && Passes(l, k2, node)
    ensures k1 == k2
  {
    if k1 != k2 {
      assert !Blocks(l, k1, l.yanets[k1], k2, node) && !Blocks(l, k2, l.yanets[k2], k1, node);
      OutranksIsAsymmetric(l, k1, l.yanets[k1], k2, l.yanets[k2], node);
    }
  }

  ghost predicate IsTop(l: Listing, claimants: set<Key>, top: Key, node: string)
    requires claimants <= l.yanets.Keys
  {
    top in claimants && forall o :: o in claimants && o != top ==>
      Outranks(l, top, l.yanets[top], o, l.yanets[o], node)
  }

  lemma {:induction false} TopExists(l: Listing, claimants: set<Key>, node: string) returns (top: Key)
    requires claimants != {} && claimants <= l.yanets.Keys
    requires forall k :: k in l.yanets ==> '/' !in k.ns
    ensures IsTop(l, claimants, top, node)
  {
    var k :| k in claimants;
    var rest := claimants - {k};
    assert claimants == {k} + rest;
    if rest == {} {
      top := k;
    } else {
      top := TopExists(l, rest, node);
      OutranksIsTotal(l, k, l.yanets[k], top, l.yanets[top], node);
      if Outranks(l, k, l.yanets[k], top, l.yanets[top], node) {
        forall o | o in claimants && o != k ensures Outranks(l, k, l.yanets[k], o, l.yanets[o], node) {
          if o != top {
            OutranksIsTransitive(l, k, l.yanets[k], top, l.yanets[top], o, l.yanets[o], node);
          }
        }
        top := k;
      }
    }
  }

  ghost function Claimants(l: Listing, node: string): set<Key>
    requires node in l.nodes
  {
    set k | k in l.yanets && Claims(l, k, l.yanets[k], node)
  }

  /**
   When no claimant is being deleted, the node has one top claimant, and an installation
   passes if and only if it is that claimant and selects the node. So exactly one passes when
   the top claimant still selects the node, and none while it is a leaving incumbent. The top
   claimant holds the node if anybody does; among equals it is the oldest, then the first by name.
   */
  lemma OnlyTopClaimantPasses(l: Listing, node: string) returns (top: Key)
    requires node in l.nodes && Claimants(l, node) != {}
    requires forall k :: k in l.yanets ==> '/' !in k.ns
    requires forall k :: k in Claimants(l, node) ==> !l.yanets[k].deleting
    ensures IsTop(l, Claimants(l, node), top, node)
    ensures forall k :: Passes(l, k, node) <==> k == top && Matches(l.yanets[top].selector, l.nodes[node])
    ensures forall k :: k in Claimants(l, node) && k != top ==>
              Ahead(l, top, l.yanets[top], k, l.yanets[k], node)
  {
    top := TopExists(l, Claimants(l, node), node);
    var best := l.yanets[top];
    forall k | Passes(l, k, node) ensures k == top {
      if k != top {
        assert !Blocks(l, k, l.yanets[k], top, node);
        OutranksIsAsymmetric(l, k, l.yanets[k], top, best, node);
      }
    }
    forall k | k in Claimants(l, node) && k != top ensures Ahead(l, top, best, k, l.yanets[k], node) {
      OutranksMeansAhead(l, top, best, k, l.yanets[k], node);
    }
  }

  // ---- The same in terms of the objects ---------------------------------------------------------

  /** A Deployment of the installation stands on the node. */
  ghost predicate Holds(l: Listing, k: Key, y: Yanet, node: string) {
    exists d :: d in l.deployments && d.ns == k.ns && l.deployments[d].owner == OwnedBy(k.name, y.uid)
                && l.deployments[d].template.node == node
  }

  function FullName(k: Key): string {
    k.ns + "/" + k.name
  }

  /** A holder before one that only selects; then the older one; then the one whose full name comes first. */
  ghost predicate Ahead(l: Listing, j: Key, a: Yanet, k: Key, b: Yanet, node: string) {
    && (Holds(l, k, b, node) ==> Holds(l, j, a, node))
    && (Holds(l, k, b, node) || !Holds(l, j, a, node) ==>
          && a.created <= b.created
          && (a.created == b.created ==> exists n: nat :: Strings.SmallerAt(FullName(j), FullName(k), n)))
  }

  lemma OutranksMeansAhead(l: Listing, j: Key, a: Yanet, k: Key, b: Yanet, node: string)
    ensures Outranks(l, j, a, k, b, node) <==> Ahead(l, j, a, k, b, node)
  {
    Strings.LessMeans(FullName(j), FullName(k));
    assert Holds(l, j, a, node) <==> HasWorkload(l, j, a, node);
    assert Holds(l, k, b, node) <==> HasWorkload(l, k, b, node);
  }

  /**
   An installation keeps another off a node exactly when it holds or selects the node and is being deleted, or the
   other one is not ahead of it. Deleting installations give way to nobody.
   */
  lemma BlocksExactly(l: Listing, me: Key, y: Yanet, other: Key, node: string)
    requires other in l.yanets && node in l.nodes
    ensures var theirs := l.yanets[other];
            Blocks(l, me, y, other, node) <==>
              && other != me && (Holds(l, other, theirs, node) || Matches(theirs.selector, l.nodes[node]))
              && (theirs.deleting || !Ahead(l, me, y, other, theirs, node))
  {
    OutranksMeansAhead(l, me, y, other, l.yanets[other], node);
    assert Holds(l, other, l.yanets[other], node) <==> HasWorkload(l, other, l.yanets[other], node);
  }

  /** Both hold the node, and the other one is older, or as old and not behind by name. */
  ghost predicate Loses(l: Listing, me: Key, y: Yanet, other: Key, node: string) {
    && other in l.yanets && other != me && Holds(l, me, y, node) && Holds(l, other, l.yanets[other], node)
    && !Ahead(l, me, y, other, l.yanets[other], node)
  }

  lemma EvictedExactly(l: Listing, me: Key, y: Yanet, node: string)
    ensures Evicted(l, me, y, node) <==> node in l.nodes && exists other :: Loses(l, me, y, other, node)
  {
    assert Holds(l, me, y, node) <==> HasWorkload(l, me, y, node);
    forall other | other in l.yanets ensures Evicts(l, me, y, other, node) <==>
                                               node in l.nodes && Loses(l, me, y, other, node)
    {
      OutranksMeansAhead(l, me, y, other, l.yanets[other], node);
      assert Holds(l, other, l.yanets[other], node) <==> HasWorkload(l, other, l.yanets[other], node);
    }
  }
}
