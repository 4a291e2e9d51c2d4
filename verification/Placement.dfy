/**
 An installation never runs one role both ways on one node: no Pod-creating standalone producer and Pod-creating
 colocated producer of the same role. It holds in every run in which rendered plans keep operator and sidecar
 names apart and no plan passes the gate while a Deployment controller may still act on a replaced template that
 clashes with it; such a template is hidden from the gate, and then the roles can run both ways.
 */
module Placement {
  import opened Cluster
  import opened PlacementGate
  import opened Protocol
  import Retention

  /** The fixed components; no operator or sidecar may carry their names. */
  const BUILTIN: set<string> := {"controlplane", "dataplane", "birdAdapter", ""}

  /** A Deployment or ReplicaSet with replicas, or a nonterminal Pod, of this template. */
  ghost predicate Active(w: World, ns: string, t: Template) {
    || (exists d :: d in w.deployments && d.ns == ns && w.deployments[d].replicas != 0
          && w.deployments[d].template == t)
    || (exists s :: s in w.sets && w.sets[s].ns == ns && w.sets[s].replicas != 0 && w.sets[s].template == t)
    || (exists p :: p in w.pods && w.pods[p].ns == ns && !w.pods[p].done && w.pods[p].template == t)
  }

  /** The controller may still bring up this template of the Deployment. */
  ghost predicate MayStart(d: Deployment, t: Template) {
    exists g :: MayRoll(d, g) && SpecAt(d, g).replicas != 0 && SpecAt(d, g).template == t
  }

  /** Active, or brought up by a controller that lags behind. */
  ghost predicate Potential(w: World, ns: string, t: Template) {
    || (exists d :: d in w.deployments && d.ns == ns && MayStart(w.deployments[d], t))
    || (exists s :: s in w.sets && w.sets[s].ns == ns && Able(w.sets[s]) && w.sets[s].template == t)
    || (exists p :: p in w.pods && w.pods[p].ns == ns && !w.pods[p].done && w.pods[p].template == t)
  }

  lemma ActiveIsPotential(w: World, ns: string, t: Template)
    requires Active(w, ns, t)
    ensures Potential(w, ns, t)
  {
    if d :| d in w.deployments && d.ns == ns && w.deployments[d].replicas != 0 && w.deployments[d].template == t {
      var g := w.deployments[d].generation;
      assert MayRoll(w.deployments[d], g) && SpecAt(w.deployments[d], g) == Spec(w.deployments[d].replicas, t);
    }
  }

  /** The two templates run one role in both placements for one installation on one node. */
  predicate Clash(standalone: Template, colocated: Template) {
    && standalone.yanet == colocated.yanet && standalone.yanet != "" && standalone.node == colocated.node
    && standalone.component in colocated.members
  }

  predicate Clashes(t: Template, u: Template) {
    Clash(t, u) || Clash(u, t)
  }

  /** No role runs both ways. */
  ghost predicate NoDoubleRole(w: World) {
    forall ns, t, u :: Active(w, ns, t) && Active(w, ns, u) ==> !Clash(t, u)
  }

  /** Nor can it come to do so. */
  ghost predicate NoDoubleRoleAhead(w: World) {
    forall ns, t, u :: Potential(w, ns, t) && Potential(w, ns, u) ==> !Clash(t, u)
  }

  /** Sidecars do not carry the names of fixed components; operators are the standalone kind. */
  ghost predicate Named(r: Rendered) {
    && r.template.members !! BUILTIN
    && (!r.standalone ==> r.template.component in BUILTIN)
  }

  /** No name of the plan is both an operator and a sidecar. */
  ghost predicate Disjoint(plan: map<Key, Rendered>) {
    && (forall d :: d in plan ==> Named(plan[d]))
    && (forall d, e :: d in plan && e in plan ==> !Clash(plan[d].template, plan[e].template))
  }

  ghost predicate DisjointPlan(w: World) {
    w.pass.Applying? ==> Disjoint(w.pass.plan)
  }

  /** A generation of `e` before its current template, not yet observed, clashes with a planned workload. */
  ghost predicate Hidden(w: World, r: Rendered, e: Key, g: nat) {
    && e in w.deployments && g in w.deployments[e].past && w.deployments[e].past[g].replicas != 0 && r.replicas != 0
    && w.deployments[e].past[g].template != w.deployments[e].template
    && Clashes(w.deployments[e].past[g].template, r.template)
  }

  /** Nothing in the namespace hides a clash with the plan. */
  ghost predicate Overt(w: World, ns: string, plan: map<Key, Rendered>) {
    forall d, e: Key, g :: d in plan && e.ns == ns ==> !Hidden(w, plan[d], e, g)
  }

  /** Operator templates in the cluster come from plans, others carry no installation name. */
  ghost predicate WellNamed(w: World) {
    forall ns, t :: Potential(w, ns, t) && t.yanet != "" ==> t.members !! BUILTIN
  }

  /** What the gate established and the pass keeps while it writes. */
  ghost predicate Compatible(w: World) {
    w.pass.Applying? ==>
      forall d, t :: d in w.pass.plan && w.pass.plan[d].replicas != 0 && Potential(w, w.pass.me.ns, t)
                     ==> !Clashes(t, w.pass.plan[d].template)
  }

  /** Only unsettled ReplicaSets lag. */
  ghost predicate LaggingUnsettled(w: World) {
    forall s :: s in w.sets && w.sets[s].lagging ==> w.sets[s].settling
  }

  ghost predicate Invariant(w: World) {
    && NoDoubleRoleAhead(w) && WellNamed(w) && Compatible(w) && LaggingUnsettled(w)
    && (w.pass.Applying? ==> forall d :: d in w.pass.plan
                               ==> d.ns == w.pass.me.ns && w.pass.plan[d].template.yanet == w.pass.me.name)
  }

  /** Steps that start no new template keep everything. */
  lemma FewerPotentialKeepInvariant(w: World, v: World)
    requires Invariant(w) && (v.pass == w.pass || !v.pass.Applying?) && LaggingUnsettled(v)
    requires forall ns, t :: Potential(v, ns, t) && t.yanet != "" ==> Potential(w, ns, t)
    ensures Invariant(v)
  {
  }

  /** Nothing new comes from Deployments, ReplicaSets or Pods. */
  lemma NothingNewStarts(w: World, v: World)
    requires forall d, t :: d in v.deployments && MayStart(v.deployments[d], t) && t.yanet != ""
               ==> Potential(w, d.ns, t)
    requires forall s :: s in v.sets && Able(v.sets[s]) ==> Potential(w, v.sets[s].ns, v.sets[s].template)
    requires forall p :: p in v.pods && !v.pods[p].done ==> Potential(w, v.pods[p].ns, v.pods[p].template)
    ensures forall ns, t :: Potential(v, ns, t) && t.yanet != "" ==> Potential(w, ns, t)
  {
  }

  /** Scaling down and reporting start nothing. */
  lemma ScalingStartsNothing(d: Deployment, replicas: nat, t: Template)
    requires replicas <= d.replicas && MayStart(Respec(d, replicas, d.template), t)
    ensures MayStart(d, t)
  {
    var e := Respec(d, replicas, d.template);
    var g :| MayRoll(e, g) && SpecAt(e, g).replicas != 0 && SpecAt(e, g).template == t;
    assert MayRoll(d, d.generation) && SpecAt(d, d.generation) == Spec(d.replicas, d.template);
    assert g != d.generation && g != e.generation ==> MayRoll(d, g) && SpecAt(d, g) == SpecAt(e, g);
  }

  lemma ReportingStartsNothing(d: Deployment, status: Status, t: Template)
    requires MayStart(Reported(d, status), t)
    ensures MayStart(d, t)
  {
    var e := Reported(d, status);
    var g :| MayRoll(e, g) && SpecAt(e, g).replicas != 0 && SpecAt(e, g).template == t;
    assert MayRoll(d, g) && SpecAt(d, g) == SpecAt(e, g);
  }

  lemma MarkingStartsNothing(d: Deployment, t: Template)
    requires MayStart(d.(deleting := true), t)
    ensures MayStart(d, t)
  {
    var e := d.(deleting := true);
    var g :| MayRoll(e, g) && SpecAt(e, g).replicas != 0 && SpecAt(e, g).template == t;
    assert MayRoll(d, g) && SpecAt(d, g) == SpecAt(e, g);
  }

  /** A new spec is all that writing a Deployment adds. */
  lemma WritingStartsThePlan(d: Deployment, replicas: nat, template: Template, t: Template)
    requires MayStart(Respec(d, replicas, template), t)
    ensures MayStart(d, t) || (replicas != 0 && t == template)
  {
    var e := Respec(d, replicas, template);
    var g :| MayRoll(e, g) && SpecAt(e, g).replicas != 0 && SpecAt(e, g).template == t;
    assert MayRoll(d, d.generation) && SpecAt(d, d.generation) == Spec(d.replicas, d.template);
    assert g != d.generation && g != e.generation ==> MayRoll(d, g) && SpecAt(d, g) == SpecAt(e, g);
  }

  lemma OutsideStartsNothing(w: World, a: Outside, v: World)
    requires OutsideEnabled(w, a) && v == OutsideNext(w, a)
    ensures v.pass == w.pass && v.sets == w.sets
    ensures forall ns, t :: Potential(v, ns, t) && t.yanet != "" ==> Potential(w, ns, t)
  {
    forall d, t | d in v.deployments && MayStart(v.deployments[d], t) && t.yanet != "" ensures Potential(w, d.ns, t) {
      match a {
        case ScaleDown(e, replicas) =>
          if d == e {
            ScalingStartsNothing(w.deployments[d], replicas, t);
          }
        case RequestDelete(e) =>
          if d == e {
            MarkingStartsNothing(w.deployments[d], t);
          }
        case _ =>
      }
    }
    NothingNewStarts(w, v);
  }

  lemma WorkloadStartsNothing(w: World, a: Workload, v: World)
    requires WorkloadEnabled(w, a) && v == WorkloadNext(w, a) && LaggingUnsettled(w)
    ensures v.pass == w.pass && LaggingUnsettled(v)
    ensures forall ns, t :: Potential(v, ns, t) && t.yanet != "" ==> Potential(w, ns, t)
  {
    forall d, t | d in v.deployments && MayStart(v.deployments[d], t) && t.yanet != "" ensures Potential(w, d.ns, t) {
      if a.ReportStatus? && d == a.d {
        ReportingStartsNothing(w.deployments[d], a.status, t);
      }
    }
    if a.Roll? && a.replicas != 0 {
      assert MayStart(w.deployments[a.d], SpecAt(w.deployments[a.d], a.g).template);
    }
    NothingNewStarts(w, v);
  }

  /** The gate sees every potential template but the hidden ones. */
  lemma GateSeesPotential(w: World, ns: string, t: Template)
    requires Potential(w, ns, t) && LaggingUnsettled(w) && Retention.PastsUnobserved(w)
    ensures Produces(LiveOf(w), ns, t)
            || exists e, g :: e in w.deployments && e.ns == ns && g in w.deployments[e].past
                              && w.deployments[e].past[g].replicas != 0 && w.deployments[e].past[g].template == t
                              && w.deployments[e].template != t
  {
    if d :| d in w.deployments && d.ns == ns && MayStart(w.deployments[d], t) {
      var e := w.deployments[d];
      var g :| MayRoll(e, g) && SpecAt(e, g).replicas != 0 && SpecAt(e, g).template == t;
      assert Retention.PastIsUnobserved(e);
      if e.template == t {
        assert DeploymentProduces(e);
      }
    }
  }

  /** Passing the gate: no potential template runs a role of the plan the other way. */
  lemma GateMakesCompatible(w: World, a: Decision)
    requires Invariant(w) && Retention.PastsUnobserved(w) && DecisionEnabled(w, a) && a.Gate? && Disjoint(a.plan)
    requires Overt(w, w.pass.me.ns, a.plan)
    ensures Invariant(DecisionNext(w, a))
  {
    var v, ns := DecisionNext(w, a), w.pass.me.ns;
    assert forall m, t :: Potential(v, m, t) <==> Potential(w, m, t);
    forall d, t | d in a.plan && a.plan[d].replicas != 0 && Potential(w, ns, t)
      ensures !Clashes(t, a.plan[d].template)
    {
      GateSeesPotential(w, ns, t);
      if Produces(LiveOf(w), ns, t) {
        GateRefusesClash(LiveOf(w), w.pass.me, a.order, a.plan[d], t);
      } else {
        var e, g :| e in w.deployments && e.ns == ns && g in w.deployments[e].past
                    && w.deployments[e].past[g].replicas != 0 && w.deployments[e].past[g].template == t
                    && w.deployments[e].template != t;
        assert !Hidden(w, a.plan[d], e, g);
      }
    }
  }

  lemma GateRefusesClash(live: Live, me: Key, order: seq<Rendered>, r: Rendered, t: Template)
    requires GateOpen(live, me, order) && r in order && r.replicas != 0 && Named(r) && r.template.yanet == me.name
    requires Produces(live, me.ns, t) && (t.yanet != "" ==> t.members !! BUILTIN)
    ensures !Clashes(t, r.template)
  {
    var i :| 0 <= i < |order| && order[i] == r;
    var standalone := Target(r.template.component, false, r.template.node);
    var colocated := Target(t.component, true, r.template.node);
    if r.standalone {
      assert Wants(order[i], standalone) && !InTheWay(me, standalone, t);
    }
    if t.component in r.template.members {
      assert Wants(order[i], colocated) && !InTheWay(me, colocated, t);
    }
  }

  lemma WriteAddsThePlan(w: World, a: Write, v: World)
    requires WriteEnabled(w, a) && v == WriteNext(w, a) && a.WriteDeployment? && a.d.ns == w.pass.me.ns
    ensures v.pass == w.pass && v.sets == w.sets
    ensures var r := w.pass.plan[a.d];
            forall ns, t :: Potential(v, ns, t) ==>
              Potential(w, ns, t) || (r.replicas != 0 && ns == w.pass.me.ns && t == r.template)
  {
    var r := w.pass.plan[a.d];
    forall d, t | d in v.deployments && MayStart(v.deployments[d], t)
      ensures Potential(w, d.ns, t) || (r.replicas != 0 && d.ns == w.pass.me.ns && t == r.template)
    {
      if d == a.d && d in w.deployments {
        WritingStartsThePlan(w.deployments[d], r.replicas, r.template, t);
      }
    }
  }

  lemma WriteKeepsInvariant(w: World, a: Write, v: World)
    requires Invariant(w) && DisjointPlan(w) && WriteEnabled(w, a) && v == WriteNext(w, a) && a.WriteDeployment?
    ensures Invariant(v)
  {
    assert Named(w.pass.plan[a.d]);
    WriteAddsThePlan(w, a, v);
  }

  lemma OtherWritesStartNothing(w: World, a: Write, v: World)
    requires WriteEnabled(w, a) && v == WriteNext(w, a) && !a.WriteDeployment?
    ensures (v.pass == w.pass || v.pass.Idle?) && v.sets == w.sets
    ensures forall ns, t :: Potential(v, ns, t) && t.yanet != "" ==> Potential(w, ns, t)
  {
    forall d, t | d in v.deployments && MayStart(v.deployments[d], t) && t.yanet != "" ensures Potential(w, d.ns, t) {
      if a.Drain? && d == a.d {
        ScalingStartsNothing(w.deployments[d], 0, t);
      } else if (a.MarkOrphan? || a.MarkReleased?) && d == a.d {
        MarkingStartsNothing(w.deployments[d], t);
      }
    }
    NothingNewStarts(w, v);
  }

  lemma StepKeepsInvariant(w: World, a: Action, v: World)
    requires Invariant(w) && Retention.PastsUnobserved(w) && DisjointPlan(w) && Enabled(w, a) && v == Next(w, a)
    requires DisjointPlan(v) && (a.Decide? && a.d.Gate? ==> Overt(w, w.pass.me.ns, a.d.plan))
    ensures Invariant(v)
  {
    match a
    case ByOthers(o) =>
      OutsideStartsNothing(w, o, v);
      FewerPotentialKeepInvariant(w, v);
    case ByControllers(c) =>
      WorkloadStartsNothing(w, c, v);
      FewerPotentialKeepInvariant(w, v);
    case Decide(d) =>
      if d.Gate? {
        GateMakesCompatible(w, d);
      } else {
        assert forall ns, t :: Potential(v, ns, t) <==> Potential(w, ns, t);
        FewerPotentialKeepInvariant(w, v);
      }
    case Perform(x) =>
      if x.WriteDeployment? {
        WriteKeepsInvariant(w, x, v);
      } else {
        OtherWritesStartNothing(w, x, v);
        FewerPotentialKeepInvariant(w, v);
      }
  }

  /** Every plan of the run keeps operator and sidecar names apart, as admission of the configuration enforces. */
  ghost predicate NamesApart(w: World, run: seq<Action>)
    requires Valid(w, run)
    decreases |run|
  {
    DisjointPlan(w) && (run != [] ==> NamesApart(Next(w, run[0]), run[1..]))
  }

  /** No plan of the run passes the gate over a hidden clash. */
  ghost predicate NothingHidden(w: World, run: seq<Action>)
    requires Valid(w, run)
    decreases |run|
  {
    && (run != [] && run[0].Decide? && run[0].d.Gate? ==> Overt(w, w.pass.me.ns, run[0].d.plan))
    && (run != [] ==> NothingHidden(Next(w, run[0]), run[1..]))
  }

  lemma {:induction false} RunKeepsInvariant(w: World, run: seq<Action>)
    requires Invariant(w) && Retention.Invariant(w) && Valid(w, run)
    requires NamesApart(w, run) && NothingHidden(w, run)
    ensures Invariant(After(w, run))
    decreases |run|
  {
    if run != [] {
      Retention.StepKeepsInvariant(w, run[0], Next(w, run[0]));
      StepKeepsInvariant(w, run[0], Next(w, run[0]));
      RunKeepsInvariant(Next(w, run[0]), run[1..]);
    }
  }

  /** In every such run no installation runs a role both ways on a node, nor can a lagging controller bring it about. */
  lemma RolesRunOneWay(run: seq<Action>)
    requires Valid(Empty(), run) && NamesApart(Empty(), run) && NothingHidden(Empty(), run)
    ensures NoDoubleRole(After(Empty(), run)) && NoDoubleRoleAhead(After(Empty(), run))
  {
    RunKeepsInvariant(Empty(), run);
    var w := After(Empty(), run);
    forall ns, t, u | Active(w, ns, t) && Active(w, ns, u) ensures !Clash(t, u) {
      ActiveIsPotential(w, ns, t);
      ActiveIsPotential(w, ns, u);
    }
  }

  /**
   The condition on hidden templates is exact: wherever the gate lets a plan pass over a hidden clash, the write
   and a lagging controller run the role both ways.
   */
  lemma HiddenClashRunsBothWays(w: World, a: Decision, d: Key, e: Key, g: nat)
    requires DecisionEnabled(w, a) && a.Gate? && w.pass.y.autoSync && Retention.PastsUnobserved(w)
    requires d in a.plan && e.ns == w.pass.me.ns && Hidden(w, a.plan[d], e, g)
    requires d in w.deployments ==> Mine(w, d)
    ensures exists run :: Valid(w, run) && !NoDoubleRole(After(w, run))
  {
    var u := DecisionNext(w, a);
    RunOfOne(w, Decide(a), u);
    var run, x := WriteThenLateRoll(u, d, e, g);
    RunsJoin(w, [Decide(a)], u, run, x);
  }

  lemma WriteThenLateRoll(u: World, d: Key, e: Key, g: nat) returns (run: seq<Action>, x: World)
    requires u.pass.Applying? && u.pass.y.autoSync && d in u.pass.plan && d in u.loop.left && d.ns == e.ns
    requires (d in u.deployments ==> Mine(u, d)) && Hidden(u, u.pass.plan[d], e, g)
    requires Retention.PastIsUnobserved(u.deployments[e])
    ensures LeadsBy(u, run, x) && !NoDoubleRole(x)
  {
    var v := PlannedIsWritten(u, d);
    var roll := Roll(e, v.next, g, u.deployments[e].past[g].replicas);
    assert MayRoll(v.deployments[e], g) && SpecAt(v.deployments[e], g) == u.deployments[e].past[g];
    LateRollRunsBothWays(v, d, e, g, u.pass.plan[d].template);
    x := WorkloadNext(v, roll);
    RunOfOne(u, Perform(WriteDeployment(d)), v);
    RunGoesOn(u, [Perform(WriteDeployment(d))], v, ByControllers(roll), x);
    run := [Perform(WriteDeployment(d))] + [ByControllers(roll)];
  }

  lemma PlannedIsWritten(u: World, d: Key) returns (v: World)
    requires u.pass.Applying? && u.pass.y.autoSync && d in u.pass.plan && d in u.loop.left
    requires d in u.deployments ==> Mine(u, d)
    ensures Leads(u, Perform(WriteDeployment(d)), v)
    ensures var written := Written(u, u.pass.me, u.pass.y, d, u.pass.plan[d]);
            v == u.(deployments := u.deployments[d := written], next := u.next + 1, loop := Visited(u.loop, d))
  {
    v := WriteNext(u, WriteDeployment(d));
  }

  lemma LateRollRunsBothWays(w: World, d: Key, e: Key, g: nat, t: Template)
    requires d in w.deployments && w.deployments[d].replicas != 0 && w.deployments[d].template == t && d.ns == e.ns
    requires e in w.deployments && MayRoll(w.deployments[e], g) && SpecAt(w.deployments[e], g).replicas != 0
    requires Clashes(SpecAt(w.deployments[e], g).template, t)
    ensures var roll := Roll(e, w.next, g, SpecAt(w.deployments[e], g).replicas);
            WorkloadEnabled(w, roll) && Leads(w, ByControllers(roll), WorkloadNext(w, roll))
              && !NoDoubleRole(WorkloadNext(w, roll))
  {
    var late := SpecAt(w.deployments[e], g);
    var x := WorkloadNext(w, Roll(e, w.next, g, late.replicas));
    assert x.sets[w.next].template == late.template && x.sets[w.next].replicas != 0 && x.sets[w.next].ns == e.ns;
    assert Active(x, e.ns, late.template) && Active(x, d.ns, t);
  }

  /** The condition on names is needed: a plan that uses a name both ways can be written out. */
  lemma MixedPlanRunsBothWays(u: World, d: Key, e: Key) returns (run: seq<Action>, x: World)
    requires u.pass.Applying? && u.pass.y.autoSync && d in u.pass.plan && e in u.pass.plan && {d, e} <= u.loop.left
    requires d != e && d.ns == e.ns && u.pass.plan[d].replicas != 0 && u.pass.plan[e].replicas != 0
    requires (d in u.deployments ==> Mine(u, d)) && (e in u.deployments ==> Mine(u, e))
    requires Clash(u.pass.plan[d].template, u.pass.plan[e].template)
    ensures LeadsBy(u, run, x) && !NoDoubleRole(x)
  {
    var v := PlannedIsWritten(u, d);
    x := PlannedIsWritten(v, e);
    assert Active(x, d.ns, x.deployments[d].template) && Active(x, e.ns, x.deployments[e].template);
    RunOfOne(u, Perform(WriteDeployment(d)), v);
    RunGoesOn(u, [Perform(WriteDeployment(d))], v, Perform(WriteDeployment(e)), x);
    run := [Perform(WriteDeployment(d))] + [Perform(WriteDeployment(e))];
  }
}
