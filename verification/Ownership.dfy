/**
 At most one installation has Deployments on a node, and no Deployment outlives its
 installation, in every run of the protocol.
 */
module Ownership {
  import opened Cluster
  import opened NodeClaims
  import opened Protocol

  /** An installation instance. */
  datatype Instance = Instance(k: Key, uid: nat)

  /** The Deployment is controlled by some installation. */
  ghost predicate Owned(w: World, d: Key) {
    d in w.deployments && w.deployments[d].owner.OwnedBy?
  }

  ghost function OwnerOf(w: World, d: Key): Instance
    requires Owned(w, d)
  {
    Instance(Key(d.ns, w.deployments[d].owner.name), w.deployments[d].owner.uid)
  }

  ghost function NodeOf(w: World, d: Key): string
    requires Owned(w, d)
  {
    w.deployments[d].template.node
  }

  /** Controlled Deployments on one node belong to one installation. */
  ghost predicate OneOwnerPerNode(w: World) {
    forall d, e :: Owned(w, d) && Owned(w, e) && NodeOf(w, d) == NodeOf(w, e) ==> OwnerOf(w, d) == OwnerOf(w, e)
  }

  /** The installation exists as this very instance and still carries the finalizer. */
  ghost predicate Enlisted(w: World, i: Instance) {
    i.k in w.yanets && w.yanets[i.k].uid == i.uid && w.yanets[i.k].finalizer
  }

  /** Every controlled Deployment's owner exists and is held back by the finalizer. */
  ghost predicate OwnersExist(w: World) {
    forall d :: Owned(w, d) ==> Enlisted(w, OwnerOf(w, d))
  }

  /** The nodes carry no controlled Deployment of anybody else. */
  ghost predicate Held(w: World, i: Instance, nodes: map<string, Labels>) {
    forall d :: Owned(w, d) && NodeOf(w, d) in nodes ==> OwnerOf(w, d) == i
  }

  /** The instance whose pass is running. */
  ghost function Current(p: Pass): Instance
    requires !p.Idle?
  {
    Instance(p.me, p.y.uid)
  }

  ghost predicate PlanInside(p: Pass)
    requires p.Applying? || p.Pruning?
  {
    forall d :: d in p.plan ==> d.ns == p.me.ns && p.plan[d].template.node in p.nodes
                                && p.plan[d].template.yanet == p.me.name
  }

  ghost predicate PassInvariant(w: World) {
    && (!w.pass.Idle? && !w.pass.Enlisting? ==> Enlisted(w, Current(w.pass)))
    && (w.pass.Cleared? || w.pass.Applying? ==> Held(w, Current(w.pass), w.pass.nodes))
    && (w.pass.Applying? || w.pass.Pruning? ==> PlanInside(w.pass))
    && (w.pass.Unlisting? ==> forall d :: Owned(w, d) ==> OwnerOf(w, d) != Current(w.pass))
  }

  ghost predicate Invariant(w: World) {
    OneOwnerPerNode(w) && OwnersExist(w) && PassInvariant(w)
  }

  /** Passing the exclusivity check means nobody else has a workload on the nodes. */
  lemma ExclusiveMeansHeld(w: World)
    requires Invariant(w) && w.pass.Claiming?
    requires Exclusive(ListingOf(w, w.pass.nodes), w.pass.me, w.pass.y)
    ensures Held(w, Current(w.pass), w.pass.nodes)
  {
    var l, me, y := ListingOf(w, w.pass.nodes), w.pass.me, w.pass.y;
    forall d | Owned(w, d) && NodeOf(w, d) in l.nodes
      ensures OwnerOf(w, d) == Current(w.pass)
    {
      var other, node := OwnerOf(w, d).k, NodeOf(w, d);
      if other != me {
        assert HasWorkload(l, other, w.yanets[other], node);
        if HasWorkload(l, me, y, node) {
          var e :| e in w.deployments && Controls(me, y, e, w.deployments[e].owner)
              && w.deployments[e].template.node == node;
          assert Owned(w, e);
        }
        assert Blocks(l, me, y, other, node);
      }
    }
  }

  /** Outside `changed` no Deployment becomes owned or changes hands or place. */
  ghost predicate Kept(w: World, v: World, changed: set<Key>) {
    forall d :: d !in changed && Owned(v, d) ==>
      Owned(w, d) && OwnerOf(v, d) == OwnerOf(w, d) && NodeOf(v, d) == NodeOf(w, d)
  }

  /** Nothing new is owned, nobody enlisted is lost, and the pass stands still. */
  ghost predicate Frame(w: World, v: World) {
    && v.pass == w.pass
    && Kept(w, v, {})
    && (forall i :: Enlisted(w, i) ==> Enlisted(v, i))
  }

  lemma FrameKeepsInvariant(w: World, v: World)
    requires Invariant(w) && Frame(w, v)
    ensures Invariant(v)
  {
  }

  /** The same, when no installation changes. */
  lemma SameYanetsKeepInvariant(w: World, v: World)
    requires Invariant(w) && v.pass == w.pass && v.yanets == w.yanets
    requires Kept(w, v, {})
    ensures Invariant(v)
  {
    assert Frame(w, v);
    FrameKeepsInvariant(w, v);
  }

  lemma EditsKeepInvariant(w: World, a: Outside, v: World)
    requires Invariant(w) && OutsideEnabled(w, a) && v == OutsideNext(w, a)
    requires a.CreateYanet? || a.EditYanet? || a.DeleteYanet?
    ensures Invariant(v)
  {
    assert v == w.(yanets := v.yanets, next := v.next);
    assert forall i :: Enlisted(w, i) ==> Enlisted(v, i);
    FrameKeepsInvariant(w, v);
  }

  lemma OutsideKeepsInvariant(w: World, a: Outside, v: World)
    requires Invariant(w) && OutsideEnabled(w, a) && v == OutsideNext(w, a)
    ensures Invariant(v)
  {
    if a.CreateYanet? || a.EditYanet? || a.DeleteYanet? {
      EditsKeepInvariant(w, a, v);
    } else {
      SameYanetsKeepInvariant(w, v);
    }
  }

  lemma WorkloadKeepsInvariant(w: World, a: Workload, v: World)
    requires Invariant(w) && WorkloadEnabled(w, a) && v == WorkloadNext(w, a)
    ensures Invariant(v)
  {
    SameYanetsKeepInvariant(w, v);
  }

  lemma DecisionKeepsInvariant(w: World, a: Decision)
    requires Invariant(w) && DecisionEnabled(w, a)
    ensures Invariant(DecisionNext(w, a))
  {
    var p := Decided(w, a);
    var v := DecisionNext(w, a);
    assert forall d :: Owned(v, d) <==> Owned(w, d);
    assert forall i :: Enlisted(v, i) <==> Enlisted(w, i);
    if p.Cleared? {
      ExclusiveMeansHeld(w);
    } else if p.Unlisting? {
      forall d | Owned(w, d) ensures OwnerOf(w, d) != Current(p) {
        assert !Mine(w, d);
      }
    }
  }

  /** Writes that own nothing new. */
  lemma ReleaseKeepsInvariant(w: World, a: Write, v: World)
    requires Invariant(w) && WriteEnabled(w, a) && v == WriteNext(w, a)
    requires a.WriteMap? || a.MarkOrphan? || a.MarkReleased? || a.Drain? || a.DeleteMap?
    ensures Invariant(v)
  {
    SameYanetsKeepInvariant(w, v);
  }

  lemma WriteKeepsInvariant(w: World, a: Write, v: World)
    requires Invariant(w) && WriteEnabled(w, a) && v == WriteNext(w, a) && a.WriteDeployment?
    ensures Invariant(v)
  {
    assert OwnerOf(v, a.d) == Current(w.pass);
    assert forall i :: Enlisted(v, i) <==> Enlisted(w, i);
    assert Kept(w, v, {a.d});
  }

  lemma FinalizerKeepsInvariant(w: World, a: Write, v: World)
    requires Invariant(w) && WriteEnabled(w, a) && v == WriteNext(w, a)
    requires a.AddFinalizer? || a.RemoveFinalizer?
    ensures Invariant(v)
  {
    assert forall d :: Owned(v, d) <==> Owned(w, d);
    assert forall i :: Enlisted(w, i) && (a.RemoveFinalizer? ==> i != Current(w.pass)) ==> Enlisted(v, i);
  }

  lemma StepKeepsInvariant(w: World, a: Action, v: World)
    requires Invariant(w) && Enabled(w, a) && v == Next(w, a)
    ensures Invariant(v)
  {
    match a
    case ByOthers(o) => OutsideKeepsInvariant(w, o, v);
    case ByControllers(c) => WorkloadKeepsInvariant(w, c, v);
    case Decide(d) => DecisionKeepsInvariant(w, d);
    case Perform(x) =>
      if x.WriteDeployment? {
        WriteKeepsInvariant(w, x, v);
      } else if x.AddFinalizer? || x.RemoveFinalizer? {
        FinalizerKeepsInvariant(w, x, v);
      } else {
        ReleaseKeepsInvariant(w, x, v);
      }
  }

  lemma {:induction false} RunKeepsInvariant(w: World, run: seq<Action>)
    requires Invariant(w) && Valid(w, run)
    ensures Invariant(After(w, run))
    decreases |run|
  {
    if run != [] {
      StepKeepsInvariant(w, run[0], Next(w, run[0]));
      RunKeepsInvariant(Next(w, run[0]), run[1..]);
    }
  }

  /**
   In every run from an empty cluster, at most one installation controls Deployments on any
   node, and every controlled Deployment's owner still exists.
   */
  lemma NodesHaveOneOwner(run: seq<Action>)
    requires Valid(Empty(), run)
    ensures OneOwnerPerNode(After(Empty(), run)) && OwnersExist(After(Empty(), run))
  {
    RunKeepsInvariant(Empty(), run);
  }

  /**
   An installation that selects a node and has a workload there is never told to leave it:
   in every reachable state the cleanup of a refused pass holds only abandoned nodes.
   */
  lemma IncumbentsStay(run: seq<Action>)
    requires Valid(Empty(), run) && After(Empty(), run).pass.Claiming?
    ensures var w := After(Empty(), run);
            forall n :: n in w.pass.nodes ==> !Evicted(ListingOf(w, w.pass.nodes), w.pass.me, w.pass.y, n)
  {
    RunKeepsInvariant(Empty(), run);
    var w := After(Empty(), run);
    var l, me, y := ListingOf(w, w.pass.nodes), w.pass.me, w.pass.y;
    forall n | n in w.pass.nodes && Evicted(l, me, y, n) ensures false {
      var other :| Evicts(l, me, y, other, n);
      var d :| d in w.deployments && Controls(me, y, d, w.deployments[d].owner) && w.deployments[d].template.node == n;
      assert HasWorkload(l, other, l.yanets[other], n);
      var e :| e in w.deployments && Controls(other, l.yanets[other], e, w.deployments[e].owner)
               && w.deployments[e].template.node == n;
      assert Owned(w, d);
      assert Owned(w, e);
    }
  }
}
