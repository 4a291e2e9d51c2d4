/**
 The gate between standalone and colocated placement of an operator role
 (internal/controller/operator_placement.go).
 */
module PlacementGate {
  import opened Cluster

  /** The live workloads of the cluster. */
  datatype Live = Live(
    deployments: map<Key, Deployment>, sets: map<nat, ReplicaSet>, pods: map<nat, Pod>)

  /** A rendered workload; `standalone` holds for the operator kind, whose component is a role. */
  datatype Rendered = Rendered(replicas: nat, template: Template, standalone: bool)

  predicate DeploymentProduces(d: Deployment) {
    d.replicas != 0 || d.status.replicas != 0 || d.status.observed < d.generation
  }

  predicate SetProduces(s: ReplicaSet) {
    s.replicas != 0 || s.settling
  }

  /** Some live object in the namespace may still create or keep Pods of this template. */
  ghost predicate Produces(live: Live, ns: string, t: Template) {
    || (exists d :: d in live.deployments && d.ns == ns
                    && DeploymentProduces(live.deployments[d]) && live.deployments[d].template == t)
    || (exists s :: s in live.sets && live.sets[s].ns == ns
                    && SetProduces(live.sets[s]) && live.sets[s].template == t)
    || (exists p :: p in live.pods && live.pods[p].ns == ns
                    && !live.pods[p].done && live.pods[p].template == t)
  }

  /** incompatibleOperatorPlacement: the template produces the role the other way. */
  predicate Incompatible(t: Template, role: string, colocated: bool) {
    if colocated then t.component == role else role in t.members
  }

  /** A role the pass wants to run on a node. */
  datatype Target = Target(role: string, colocated: bool, node: string)

  /** A template of the installation on the node that runs the role the other way. */
  predicate InTheWay(me: Key, target: Target, t: Template) {
    t.yanet == me.name && t.node == target.node && Incompatible(t, target.role, target.colocated)
  }

  /** The roles of rendered workloads with replicas; drained workloads are let through. */
  ghost predicate Wanted(workloads: seq<Rendered>, target: Target) {
    exists i :: 0 <= i < |workloads| && workloads[i].replicas != 0 && Wants(workloads[i], target)
  }

  predicate Wants(r: Rendered, target: Target) {
    && target.node == r.template.node
    && if target.colocated then target.role in r.template.members
       else r.standalone && target.role == r.template.component
  }

  /** No live producer of this installation on the node runs a wanted role the other way. */
  ghost predicate GateOpen(live: Live, me: Key, workloads: seq<Rendered>) {
    forall target, t :: Wanted(workloads, target) && Produces(live, me.ns, t) ==> !InTheWay(me, target, t)
  }

  // ---- The gate in terms of the objects ---------------------------------------------------------

  /** The template runs a role of the rendered workload the other way, for this installation on its node. */
  predicate Opposes(me: Key, r: Rendered, t: Template) {
    && t.yanet == me.name && t.node == r.template.node
    && ((r.standalone && r.template.component in t.members) || t.component in r.template.members)
  }

  /** Whatever opposes the workload is scaled to zero, seen to be so by its controller, and has no Pod left. */
  ghost predicate DrainedFor(live: Live, me: Key, r: Rendered) {
    && (forall d :: d in live.deployments && d.ns == me.ns && Opposes(me, r, live.deployments[d].template) ==>
          && live.deployments[d].replicas == 0 && live.deployments[d].status.replicas == 0
          && live.deployments[d].status.observed >= live.deployments[d].generation)
    && (forall s :: s in live.sets && live.sets[s].ns == me.ns && Opposes(me, r, live.sets[s].template) ==>
          live.sets[s].replicas == 0 && !live.sets[s].settling)
    && (forall p :: p in live.pods && live.pods[p].ns == me.ns && Opposes(me, r, live.pods[p].template) ==>
          live.pods[p].done)
  }

  /** A template stands in the way of the gate exactly when it opposes a workload with replicas. */
  lemma OpposingIsInTheWay(me: Key, workloads: seq<Rendered>, t: Template)
    ensures (exists target :: Wanted(workloads, target) && InTheWay(me, target, t))
       <==> (exists r :: r in workloads && r.replicas != 0 && Opposes(me, r, t))
  {
    if target :| Wanted(workloads, target) && InTheWay(me, target, t) {
      var i :| 0 <= i < |workloads| && workloads[i].replicas != 0 && Wants(workloads[i], target);
      assert workloads[i] in workloads && Opposes(me, workloads[i], t);
    }
    if r :| r in workloads && r.replicas != 0 && Opposes(me, r, t) {
      var i :| 0 <= i < |workloads| && workloads[i] == r;
      var target := if t.component in r.template.members then Target(t.component, true, t.node)
                    else Target(r.template.component, false, t.node);
      assert Wants(workloads[i], target);
      assert Wanted(workloads, target) && InTheWay(me, target, t);
    }
  }

  /** The gate is open exactly when everything that opposes a workload with replicas has drained. */
  lemma GateOpensWhenDrained(live: Live, me: Key, workloads: seq<Rendered>)
    ensures GateOpen(live, me, workloads) <==>
              forall r :: r in workloads && r.replicas != 0 ==> DrainedFor(live, me, r)
  {
    if GateOpen(live, me, workloads) {
      forall r | r in workloads && r.replicas != 0 ensures DrainedFor(live, me, r) {
        forall t | Opposes(me, r, t) ensures !Produces(live, me.ns, t) {
          OpposingIsInTheWay(me, workloads, t);
        }
      }
    } else {
      var target, t :| Wanted(workloads, target) && Produces(live, me.ns, t) && InTheWay(me, target, t);
      OpposingIsInTheWay(me, workloads, t);
      var r :| r in workloads && r.replicas != 0 && Opposes(me, r, t);
      assert !DrainedFor(live, me, r);
    }
  }

  method ListPlacementProducers(live: Live, deployments: seq<Key>, sets: seq<nat>, pods: seq<nat>, ns: string)
    returns (producers: seq<Template>)
    requires forall d :: d in deployments <==> d in live.deployments
    requires forall s :: s in sets <==> s in live.sets
    requires forall p :: p in pods <==> p in live.pods
    ensures forall t :: t in producers <==> Produces(live, ns, t)
  {
    producers := [];
    for i := 0 to |deployments|
      invariant forall t :: t in producers <==>
        exists d :: d in deployments[..i] && d.ns == ns
                    && DeploymentProduces(live.deployments[d]) && live.deployments[d].template == t
    {
      var d := deployments[i];
      assert d in live.deployments;
      assert deployments[..i + 1] == deployments[..i] + [d];
      if d.ns == ns && DeploymentProduces(live.deployments[d]) {
        producers := producers + [live.deployments[d].template];
      }
    }
    assert deployments[..|deployments|] == deployments;
    var fromDeployments := producers;
    for i := 0 to |sets|
      invariant forall t :: t in producers <==>
        (t in fromDeployments || exists s :: s in sets[..i] && live.sets[s].ns == ns
                                              && SetProduces(live.sets[s]) && live.sets[s].template == t)
    {
      var s := sets[i];
      assert s in live.sets;
      assert sets[..i + 1] == sets[..i] + [s];
      if live.sets[s].ns == ns && SetProduces(live.sets[s]) {
        producers := producers + [live.sets[s].template];
      }
    }
    assert sets[..|sets|] == sets;
    var fromSets := producers;
    for i := 0 to |pods|
      invariant forall t :: t in producers <==>
        (t in fromSets || exists p :: p in pods[..i] && live.pods[p].ns == ns
                                       && !live.pods[p].done && live.pods[p].template == t)
    {
      var p := pods[i];
      assert p in live.pods;
      assert pods[..i + 1] == pods[..i] + [p];
      if live.pods[p].ns == ns && !live.pods[p].done {
        producers := producers + [live.pods[p].template];
      }
    }
    assert pods[..|pods|] == pods;
  }

  /** The first loops of the gate: the roles of the workloads with replicas. */
  method DesiredRoles(workloads: seq<Rendered>) returns (desired: seq<Target>)
    ensures forall target :: target in desired <==> Wanted(workloads, target)
  {
    desired := [];
    for i := 0 to |workloads|
      invariant forall target :: target in desired <==> Wanted(workloads[..i], target)
    {
      var r := workloads[i];
      var before := desired;
      if r.replicas != 0 {
        if r.standalone {
          desired := desired + [Target(r.template.component, false, r.template.node)];
        }
        var remaining := r.template.members;
        while remaining != {}
          invariant remaining <= r.template.members
          invariant forall target :: target in desired <==>
            (target in before || (Wants(r, target) && !(target.colocated && target.role in remaining)))
        {
          var role :| role in remaining;
          desired := desired + [Target(role, true, r.template.node)];
          remaining := remaining - {role};
        }
      }
      forall target ensures target in desired <==> Wanted(workloads[..i + 1], target) {
        var shorter, longer := workloads[..i], workloads[..i + 1];
        if Wanted(shorter, target) {
          var j :| 0 <= j < i && shorter[j].replicas != 0 && Wants(shorter[j], target);
          assert longer[j] == shorter[j];
        }
        if Wanted(longer, target) {
          var j :| 0 <= j <= i && longer[j].replicas != 0 && Wants(longer[j], target);
          assert j < i ==> shorter[j] == longer[j];
        }
        assert longer[i] == r;
      }
    }
    assert workloads[..|workloads|] == workloads;
  }

  /** One wanted role against all producers. */
  method CheckTarget(producers: seq<Template>, me: Key, target: Target) returns (ok: bool)
    ensures ok <==> forall t :: t in producers ==> !InTheWay(me, target, t)
  {
    for j := 0 to |producers|
      invariant forall m :: 0 <= m < j ==> !InTheWay(me, target, producers[m])
    {
      var t := producers[j];
      if t.yanet == me.name && t.node == target.node && Incompatible(t, target.role, target.colocated) {
        assert t in producers && InTheWay(me, target, t);
        return false;
      }
    }
    ok := true;
  }

  method CheckTargets(producers: seq<Template>, me: Key, desired: seq<Target>) returns (ok: bool)
    ensures ok <==> forall target, t :: target in desired && t in producers ==> !InTheWay(me, target, t)
  {
    for i := 0 to |desired|
      invariant forall target, t :: target in desired[..i] && t in producers ==> !InTheWay(me, target, t)
    {
      ok := CheckTarget(producers, me, desired[i]);
      if !ok {
        assert desired[i] in desired;
        return;
      }
      assert desired[..i + 1] == desired[..i] + [desired[i]];
    }
    assert desired[..|desired|] == desired;
    ok := true;
  }

  /** validateOperatorPlacementTransition: accepts exactly when the gate is open. */
  method ValidateOperatorPlacementTransition(
      live: Live, deployments: seq<Key>, sets: seq<nat>, pods: seq<nat>, me: Key, workloads: seq<Rendered>)
    returns (ok: bool)
    requires forall d :: d in deployments <==> d in live.deployments
    requires forall s :: s in sets <==> s in live.sets
    requires forall p :: p in pods <==> p in live.pods
    ensures ok <==> GateOpen(live, me, workloads)
    ensures ok <==> forall r :: r in workloads && r.replicas != 0 ==> DrainedFor(live, me, r)
  {
    GateOpensWhenDrained(live, me, workloads);
    var desired := DesiredRoles(workloads);
    if desired == [] {
      assert forall target :: target !in desired;
      return true;
    }
    var producers := ListPlacementProducers(live, deployments, sets, pods, me.ns);
    ok := CheckTargets(producers, me, desired);
  }
}
