/**
 Pods of two installations never share a node. A Deployment that is being deleted stays until its ReplicaSets are gone,
 and these until their Pods are, so whatever still runs or can start Pods on a node belongs to the installation that
 controls Deployments there.
 */
module Tenancy {
  import opened Cluster
  import opened Protocol
  import opened Ownership
  import opened WorkloadNames
  import Retention
  import Handover

  /** A ReplicaSet or a Pod, finished or not, of this template. */
  ghost predicate Resident(w: World, ns: string, t: Template) {
    || (exists s :: s in w.sets && w.sets[s].ns == ns && w.sets[s].template == t)
    || (exists p :: p in w.pods && w.pods[p].ns == ns && w.pods[p].template == t)
  }

  /** Residents of one node that are labelled for installations belong to one installation. */
  ghost predicate OneTenantPerNode(w: World) {
    forall ns, t, os, u ::
      Resident(w, ns, t) && Resident(w, os, u) && t.yanet != "" && u.yanet != "" && t.node == u.node ==>
        ns == os && t.yanet == u.yanet
  }

  /** The installation controls a Deployment on the node and is held back by its finalizer. */
  ghost predicate Claimed(w: World, ns: string, t: Template) {
    exists d :: Owned(w, d) && NodeOf(w, d) == t.node && OwnerOf(w, d).k == Key(ns, t.yanet)
                && Enlisted(w, OwnerOf(w, d))
  }

  ghost predicate TenantsKeepTheirClaim(w: World) {
    forall ns, t :: Resident(w, ns, t) && t.yanet != "" ==> Claimed(w, ns, t)
  }

  // ---- The invariant ----------------------------------------------------------------------------

  /** All generations the controller may act on stand on one node. */
  ghost predicate StaysPut(d: Deployment) {
    forall g :: g in d.past ==> d.past[g].template.node == d.template.node
  }

  ghost predicate DeploymentsStayPut(w: World) {
    forall d :: d in w.deployments ==> StaysPut(w.deployments[d])
  }

  /** ReplicaSets stand where their Deployment does. */
  ghost predicate SetsStandWithOwners(w: World) {
    forall s, d :: s in w.sets && d in w.deployments && w.sets[s].owner == w.deployments[d].uid ==>
      w.sets[s].template.node == w.deployments[d].template.node
  }

  /** Every Pod has its ReplicaSet. */
  ghost predicate PodsHaveHomes(w: World) {
    forall p :: p in w.pods ==>
      && w.pods[p].home in w.sets
      && w.sets[w.pods[p].home].template == w.pods[p].template && w.sets[w.pods[p].home].ns == w.pods[p].ns
  }

  ghost predicate SetsNumbered(w: World) {
    forall s :: s in w.sets ==> s < w.next
  }

  ghost predicate Invariant(w: World) {
    DeploymentsStayPut(w) && SetsStandWithOwners(w) && PodsHaveHomes(w) && SetsNumbered(w)
  }

  // ---- One step ---------------------------------------------------------------------------------

  /** Deployments keep their node, and new ones own nothing yet. */
  ghost predicate Moored(w: World, v: World) {
    && v.sets == w.sets && v.pods == w.pods && w.next <= v.next
    && forall d :: d in v.deployments ==>
         && StaysPut(v.deployments[d])
         && if d in w.deployments
            then v.deployments[d].uid == w.deployments[d].uid
                 && v.deployments[d].template.node == w.deployments[d].template.node
            else v.deployments[d].uid == w.next
  }

  lemma MooredKeepsInvariant(w: World, v: World)
    requires Invariant(w) && Retention.Shape(w) && Moored(w, v)
    ensures Invariant(v)
  {
    Retention.NewSetsNone(w);
  }

  lemma OutsideMoors(w: World, a: Outside, v: World)
    requires DeploymentsStayPut(w) && OutsideEnabled(w, a) && v == OutsideNext(w, a)
    ensures Moored(w, v)
  {
  }

  lemma RollKeepsInvariant(w: World, a: Workload, v: World)
    requires Invariant(w) && Retention.UidsUnique(w) && WorkloadEnabled(w, a) && v == WorkloadNext(w, a) && a.Roll?
    ensures Invariant(v)
  {
    assert StaysPut(w.deployments[a.d]);
    assert v.sets[a.s].template.node == w.deployments[a.d].template.node;
  }

  lemma ReportKeepsInvariant(w: World, a: Workload, v: World)
    requires Invariant(w) && WorkloadEnabled(w, a) && v == WorkloadNext(w, a) && a.ReportStatus?
    ensures Invariant(v)
  {
    assert StaysPut(w.deployments[a.d]);
  }

  lemma PodsKeepInvariant(w: World, a: Workload, v: World)
    requires Invariant(w) && WorkloadEnabled(w, a) && v == WorkloadNext(w, a)
    requires a.StartPod? || a.FinishPod? || a.DropPod?
    ensures Invariant(v)
  {
  }

  lemma SetsKeepInvariant(w: World, a: Workload, v: World)
    requires Invariant(w) && WorkloadEnabled(w, a) && v == WorkloadNext(w, a)
    requires a.Shrink? || a.Settle? || a.DropSet?
    ensures Invariant(v)
  {
  }

  lemma WorkloadKeepsInvariant(w: World, a: Workload, v: World)
    requires Invariant(w) && Retention.UidsUnique(w) && WorkloadEnabled(w, a) && v == WorkloadNext(w, a)
    ensures Invariant(v)
  {
    match a
    case Roll(_, _, _, _) => RollKeepsInvariant(w, a, v);
    case ReportStatus(_, _) => ReportKeepsInvariant(w, a, v);
    case StartPod(_) => PodsKeepInvariant(w, a, v);
    case FinishPod(_) => PodsKeepInvariant(w, a, v);
    case DropPod(_) => PodsKeepInvariant(w, a, v);
    case _ => SetsKeepInvariant(w, a, v);
  }

  /** What is written over a stored Deployment stands on the same node, as the name tells it. */
  lemma {:induction false} WriteMoors(p: Handover.Period, w: World, a: Write, v: World)
    requires Distinct(p.hash, p.inPlay) && Handover.DeploymentsNamed(p, w) && Handover.PlanNamed(p, w)
    requires DeploymentsStayPut(w) && WriteEnabled(w, a) && v == WriteNext(w, a)
    ensures Moored(w, v)
  {
    if a.WriteDeployment? && a.d in w.deployments {
      Handover.NamedOnce(p, w.pass.me.name, a.d, NodeOf(w, a.d), w.pass.plan[a.d].template.node);
    }
  }

  lemma {:induction false} StepKeepsInvariant(p: Handover.Period, w: World, a: Action, v: World)
    requires Distinct(p.hash, p.inPlay) && Handover.DeploymentsNamed(p, w) && Handover.PlanNamed(p, w)
    requires Invariant(w) && Retention.Shape(w) && Leads(w, a, v)
    ensures Invariant(v)
  {
    match a
    case ByOthers(o) => OutsideMoors(w, o, v); MooredKeepsInvariant(w, v);
    case ByControllers(c) => WorkloadKeepsInvariant(w, c, v);
    case Decide(_) => MooredKeepsInvariant(w, v);
    case Perform(x) => WriteMoors(p, w, x, v); MooredKeepsInvariant(w, v);
  }

  lemma {:induction false} RunKeepsInvariant(p: Handover.Period, w: World, run: seq<Action>)
    requires Distinct(p.hash, p.inPlay) && Handover.DeploymentsNamed(p, w)
    requires Invariant(w) && Retention.Invariant(w) && Valid(w, run) && Handover.PlansNamed(p, w, run)
    ensures Invariant(After(w, run)) && Retention.Invariant(After(w, run))
    decreases |run|
  {
    if run != [] {
      var v := Next(w, run[0]);
      StepKeepsInvariant(p, w, run[0], v);
      Retention.StepKeepsInvariant(w, run[0], v);
      Handover.StepKeepsNamed(p, w, run[0], v);
      RunKeepsInvariant(p, v, run[1..]);
    }
  }

  // ---- Tenants ------------------------------------------------------------------------------------

  lemma ResidentIsClaimed(w: World, ns: string, t: Template)
    requires Invariant(w) && Retention.Shape(w) && OwnersExist(w) && Resident(w, ns, t) && t.yanet != ""
    ensures Claimed(w, ns, t)
  {
    var s := ResidentHasSet(w, ns, t);
    var d :| Retention.Home(w, s, d);
    assert Owned(w, d);
  }

  lemma ResidentHasSet(w: World, ns: string, t: Template) returns (s: nat)
    requires PodsHaveHomes(w) && Resident(w, ns, t)
    ensures s in w.sets && w.sets[s].ns == ns && w.sets[s].template == t
  {
    if q :| q in w.pods && w.pods[q].ns == ns && w.pods[q].template == t {
      s := w.pods[q].home;
    } else {
      s :| s in w.sets && w.sets[s].ns == ns && w.sets[s].template == t;
    }
  }

  /**
   In every run whose plans are named after their nodes, the ReplicaSets and Pods of a node belong to one installation,
   and that installation still exists and still claims the node.
   */
  lemma {:induction false} PodsHaveOneTenant(p: Handover.Period, run: seq<Action>)
    requires Distinct(p.hash, p.inPlay) && Valid(Empty(), run) && Handover.PlansNamed(p, Empty(), run)
    ensures OneTenantPerNode(After(Empty(), run)) && TenantsKeepTheirClaim(After(Empty(), run))
  {
    RunKeepsInvariant(p, Empty(), run);
    var w := After(Empty(), run);
    forall ns, t | Resident(w, ns, t) && t.yanet != "" ensures Claimed(w, ns, t) {
      ResidentIsClaimed(w, ns, t);
    }
  }
}
