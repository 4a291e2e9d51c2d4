/**
 Runs from the empty cluster that reach the corner cases of the protocol.
 */
module Scenarios {
  import opened Cluster
  import opened ConfigMapRefs
  import opened NodeClaims
  import opened PlacementGate
  import opened Protocol
  import opened Placement
  import Handover
  import Ownership

  // ---- Building runs --------------------------------------------------------------------------------

  /** The run leads there, with operator and sidecar names apart in every plan. */
  ghost predicate Plays(w: World, run: seq<Action>, v: World) {
    LeadsBy(w, run, v) && NamesApart(w, run)
  }

  lemma PlaysOne(w: World, a: Action, v: World)
    requires Leads(w, a, v) && DisjointPlan(w) && DisjointPlan(v)
    ensures Plays(w, [a], v)
  {
    RunOfOne(w, a, v);
    assert [a][1..] == [];
  }

  lemma {:induction false} PlaysOn(w: World, run: seq<Action>, v: World, a: Action, u: World)
    requires Plays(w, run, v) && Leads(v, a, u) && DisjointPlan(u)
    ensures Plays(w, run + [a], u)
    decreases |run|
  {
    RunGoesOn(w, run, v, a, u);
    if run == [] {
      assert run + [a] == [a];
      PlaysOne(w, a, u);
    } else {
      PlaysOn(Next(w, run[0]), run[1..], v, a, u);
      assert (run + [a])[1..] == run[1..] + [a];
    }
  }

  lemma {:induction false} PlaysJoin(w: World, first: seq<Action>, v: World, second: seq<Action>, u: World)
    requires Plays(w, first, v) && Plays(v, second, u)
    ensures Plays(w, first + second, u)
    decreases |second|
  {
    if second == [] {
      assert first + second == first;
    } else {
      var a := second[0];
      assert NamesApart(Next(v, a), second[1..]);
      PlaysOn(w, first, v, a, Next(v, a));
      PlaysJoin(w, first + [a], Next(v, a), second[1..], u);
      assert first + [a] + second[1..] == first + second;
    }
  }

  // ---- An installation appears ------------------------------------------------------------------------

  /** A new installation. */
  predicate New(w: World, k: Key, y: Yanet) {
    && k !in w.yanets && k.name != "" && '/' !in k.ns
    && y.uid == w.next && !y.deleting && !y.finalizer && y.autoSync
  }

  lemma CreateStep(w: World, k: Key, y: Yanet) returns (v: World)
    requires w.pass.Idle? && New(w, k, y)
    ensures Leads(w, ByOthers(CreateYanet(k, y)), v) && v == w.(yanets := w.yanets[k := y], next := w.next + 1)
  {
    v := OutsideNext(w, CreateYanet(k, y));
  }

  lemma BeginStep(w: World, k: Key) returns (v: World)
    requires w.pass.Idle? && k in w.yanets
    ensures Leads(w, Decide(Begin(k)), v)
    ensures v == w.(pass := Start(w, k, w.yanets[k]), loop := Loop(w.deployments.Keys, {}, false))
  {
    v := DecisionNext(w, Begin(k));
  }

  lemma EnlistStep(w: World, k: Key, y: Yanet) returns (v: World)
    requires w.pass == Enlisting(k, y) && k in w.yanets && w.yanets[k] == y
    ensures Leads(w, Perform(AddFinalizer), v) && v == w.(yanets := w.yanets[k := y.(finalizer := true)], pass := Idle)
  {
    v := WriteNext(w, AddFinalizer);
  }

  /** It is created and gets its finalizer. */
  lemma Appear(w: World, k: Key, y: Yanet) returns (run: seq<Action>, v: World)
    requires w.pass.Idle? && New(w, k, y)
    ensures Plays(w, run, v)
    ensures v == w.(yanets := w.yanets[k := y.(finalizer := true)], next := w.next + 1,
                    loop := Loop(w.deployments.Keys, {}, false))
  {
    var w1 := CreateStep(w, k, y);
    PlaysOne(w, ByOthers(CreateYanet(k, y)), w1);
    run, v := Enlist(w1, k);
    PlaysJoin(w, [ByOthers(CreateYanet(k, y))], w1, run, v);
    run := [ByOthers(CreateYanet(k, y))] + run;
  }

  /** The first pass of an installation adds its finalizer. */
  lemma Enlist(w: World, k: Key) returns (run: seq<Action>, v: World)
    requires w.pass.Idle? && k in w.yanets && !w.yanets[k].finalizer && !w.yanets[k].deleting
    ensures Plays(w, run, v)
    ensures v == w.(yanets := w.yanets[k := w.yanets[k].(finalizer := true)],
                    loop := Loop(w.deployments.Keys, {}, false))
  {
    var w1 := BeginStep(w, k);
    v := EnlistStep(w1, k, w.yanets[k]);
    PlaysOne(w, Decide(Begin(k)), w1);
    PlaysOn(w, [Decide(Begin(k))], w1, Perform(AddFinalizer), v);
    run := [Decide(Begin(k))] + [Perform(AddFinalizer)];
  }

  lemma NodesStep(w: World, nodes: map<string, Labels>) returns (run: seq<Action>, v: World)
    requires w.pass.Idle?
    ensures Plays(w, run, v) && v == w.(nodes := nodes)
  {
    v := OutsideNext(w, SetNodes(nodes));
    PlaysOne(w, ByOthers(SetNodes(nodes)), v);
    run := [ByOthers(SetNodes(nodes))];
  }

  // ---- A pass writes ------------------------------------------------------------------------------------

  /** A pass of the installation reaches the gate and may pass it with the plan. */
  ghost predicate MayApply(w: World, k: Key, plan: map<Key, Rendered>, order: seq<Rendered>) {
    && w.pass.Idle? && k in w.yanets && w.yanets[k].finalizer && !w.yanets[k].deleting && w.yanets[k].autoSync
    && var nodes := Selected(w.nodes, w.yanets[k].selector);
       && Exclusive(ListingOf(w, nodes), k, w.yanets[k]) && PlanFor(k, nodes, plan, order)
       && GateOpen(LiveOf(w), k, order)
  }

  lemma ValidateStep(w: World, k: Key, y: Yanet, nodes: map<string, Labels>) returns (v: World)
    requires w.pass == Claiming(k, y, nodes) && Exclusive(ListingOf(w, nodes), k, y)
    ensures Leads(w, Decide(Validate), v) && v == w.(pass := Cleared(k, y, nodes), loop := v.loop)
  {
    v := DecisionNext(w, Validate);
  }

  lemma GateStep(w: World, k: Key, y: Yanet, nodes: map<string, Labels>, plan: map<Key, Rendered>, order: seq<Rendered>)
    returns (v: World)
    requires w.pass == Cleared(k, y, nodes) && PlanFor(k, nodes, plan, order) && GateOpen(LiveOf(w), k, order)
    ensures Leads(w, Decide(Gate(plan, order, {})), v)
    ensures v == w.(pass := Applying(k, y, nodes, plan, {}), loop := Loop(plan.Keys, {}, false))
  {
    v := DecisionNext(w, Gate(plan, order, {}));
  }

  lemma FailStep(w: World) returns (v: World)
    ensures Leads(w, Decide(Fail), v) && v == w.(pass := Idle, loop := v.loop)
  {
    v := DecisionNext(w, Fail);
  }

  /** From idle to the loop that writes the plan. */
  lemma ReachApply(w: World, k: Key, plan: map<Key, Rendered>, order: seq<Rendered>)
    returns (run: seq<Action>, v: World)
    requires MayApply(w, k, plan, order)
    ensures LeadsBy(w, run, v) && (Disjoint(plan) ==> Plays(w, run, v))
    ensures v == w.(pass := Applying(k, w.yanets[k], Selected(w.nodes, w.yanets[k].selector), plan, {}),
                    loop := Loop(plan.Keys, {}, false))
  {
    var y := w.yanets[k];
    var nodes := Selected(w.nodes, y.selector);
    var w1 := BeginStep(w, k);
    assert ListingOf(w1, nodes) == ListingOf(w, nodes);
    var w2 := ValidateStep(w1, k, y, nodes);
    assert LiveOf(w2) == LiveOf(w);
    v := GateStep(w2, k, y, nodes, plan, order);
    PlaysOne(w, Decide(Begin(k)), w1);
    run := [Decide(Begin(k))];
    PlaysOn(w, run, w1, Decide(Validate), w2);
    run := run + [Decide(Validate)];
    RunGoesOn(w, run, w2, Decide(Gate(plan, order, {})), v);
    if Disjoint(plan) {
      PlaysOn(w, run, w2, Decide(Gate(plan, order, {})), v);
    }
    run := run + [Decide(Gate(plan, order, {}))];
  }

  /** A pass writes one planned Deployment and then fails. */
  lemma WriteOne(w: World, k: Key, plan: map<Key, Rendered>, order: seq<Rendered>, d: Key)
    returns (run: seq<Action>, v: World)
    requires MayApply(w, k, plan, order) && Disjoint(plan) && d in plan
    requires d in w.deployments ==> Controls(k, w.yanets[k], d, w.deployments[d].owner)
    ensures Plays(w, run, v)
    ensures var written := Written(w, k, w.yanets[k], d, plan[d]);
            v == w.(deployments := w.deployments[d := written], next := w.next + 1, loop := v.loop)
  {
    var w1;
    run, w1 := ReachApply(w, k, plan, order);
    var w2 := PlannedIsWritten(w1, d);
    PlaysOn(w, run, w1, Perform(WriteDeployment(d)), w2);
    run := run + [Perform(WriteDeployment(d))];
    v := FailStep(w2);
    PlaysOn(w, run, w2, Decide(Fail), v);
    run := run + [Decide(Fail)];
  }

  // ---- The cast -------------------------------------------------------------------------------------------

  const A := Key("ns", "a")
  const B := Key("ns", "b")
  const ZONE_A: Labels := map["zone" := "a"]
  const ZONE_B: Labels := map["zone" := "b"]

  function Installation(uid: nat, zone: Labels): Yanet {
    Yanet(uid, uid, zone, false, false, false, true, true)
  }

  function Pinned(node: string, component: string, members: set<string>): Template {
    Template("a", node, component, members, PodSpec([], [], []))
  }

  function Dataplane(members: set<string>): Rendered {
    Rendered(1, Pinned("n1", "dataplane", members), false)
  }

  function Standalone(node: string): Rendered {
    Rendered(1, Pinned(node, "x", {}), true)
  }

  const DP := Key("ns", "a-dp")
  const X1 := Key("ns", "a-x1")
  const X2 := Key("ns", "a-x2")

  /** Installation A exists, enlisted, with its nodes and nothing else. */
  ghost predicate Ready(w: World, nodes: map<string, Labels>) {
    && w == Empty().(yanets := map[A := Installation(0, ZONE_A).(finalizer := true)], nodes := nodes, next := 1,
                     loop := w.loop)
  }

  lemma GetReady(nodes: map<string, Labels>) returns (run: seq<Action>, w: World)
    ensures Plays(Empty(), run, w) && Ready(w, nodes)
  {
    var w1;
    run, w1 := NodesStep(Empty(), nodes);
    var more;
    more, w := Appear(w1, A, Installation(0, ZONE_A));
    PlaysJoin(Empty(), run, w1, more, w);
    run := run + more;
    assert w.yanets == map[A := Installation(0, ZONE_A).(finalizer := true)];
  }

  /** With a single installation every claim is exclusive. */
  lemma AloneMayApply(w: World, plan: map<Key, Rendered>, order: seq<Rendered>)
    requires w.pass.Idle? && w.yanets == map[A := Installation(0, ZONE_A).(finalizer := true)]
    requires forall n :: n in w.nodes ==> w.nodes[n] == ZONE_A
    requires forall d :: d in plan ==> d.ns == "ns" && plan[d].template.yanet == "a" && plan[d].template.node in w.nodes
                                       && plan[d] in order
    requires forall r :: r in order ==> exists d :: d in plan && plan[d] == r
    requires GateOpen(LiveOf(w), A, order)
    ensures MayApply(w, A, plan, order)
  {
    assert forall n :: n in w.nodes ==> n in Selected(w.nodes, ZONE_A);
  }

  // ---- A lagging controller -----------------------------------------------------------------------------------

  const ONE_NODE: map<string, Labels> := map["n1" := ZONE_A]

  /** Installation A runs on one node with nothing rolled out yet. */
  ghost predicate Unrolled(w: World) {
    && w.pass.Idle? && w.nodes == ONE_NODE && w.yanets == map[A := Installation(0, ZONE_A).(finalizer := true)]
    && w.sets == map[] && w.pods == map[]
  }

  /** The dataplane carries sidecar x and its controller has not looked at it. */
  ghost predicate WithSidecar(w: World) {
    Unrolled(w) && w.deployments.Keys == {DP}
    && w.deployments[DP]
       == Deployment(1, OwnedBy("a", 0), false, 1, 1, Dataplane({"x"}).template, Status(0, 0, 0), map[])
  }

  /** It has lost the sidecar since, still unobserved. */
  ghost predicate WithoutSidecar(w: World) {
    Unrolled(w) && w.deployments.Keys == {DP}
    && w.deployments[DP] == Deployment(1, OwnedBy("a", 0), false, 2, 1, Dataplane({}).template, Status(0, 0, 0),
                                       map[1 := Spec(1, Dataplane({"x"}).template)])
  }

  lemma WriteSidecar(w: World) returns (run: seq<Action>, v: World)
    requires Ready(w, ONE_NODE)
    ensures Plays(w, run, v) && WithSidecar(v)
  {
    AloneMayApply(w, map[DP := Dataplane({"x"})], [Dataplane({"x"})]);
    run, v := WriteOne(w, A, map[DP := Dataplane({"x"})], [Dataplane({"x"})], DP);
  }

  lemma DropSidecar(w: World) returns (run: seq<Action>, v: World)
    requires WithSidecar(w)
    ensures Plays(w, run, v) && WithoutSidecar(v)
  {
    assert forall target :: !Wanted([Dataplane({})], target);
    AloneMayApply(w, map[DP := Dataplane({})], [Dataplane({})]);
    run, v := WriteOne(w, A, map[DP := Dataplane({})], [Dataplane({})], DP);
  }

  const PLAN_BOTH: map<Key, Rendered> := map[DP := Dataplane({}), X1 := Standalone("n1")]
  const ORDER_BOTH: seq<Rendered> := [Dataplane({}), Standalone("n1")]

  /** The gate sees the new template only and lets the operator in. */
  lemma GateMissesOldTemplate(w: World)
    requires WithoutSidecar(w)
    ensures GateOpen(LiveOf(w), A, ORDER_BOTH)
  {
    forall t | Produces(LiveOf(w), "ns", t) ensures t == Dataplane({}).template {
    }
  }

  lemma OperatorMayApply(w: World)
    requires WithoutSidecar(w)
    ensures MayApply(w, A, PLAN_BOTH, ORDER_BOTH)
  {
    GateMissesOldTemplate(w);
    assert PLAN_BOTH[DP] == Dataplane({}) && PLAN_BOTH[X1] == Standalone("n1");
    AloneMayApply(w, PLAN_BOTH, ORDER_BOTH);
  }

  lemma OperatorPassesGate(w: World) returns (run: seq<Action>, u: World)
    requires WithoutSidecar(w)
    ensures Plays(w, run, u) && u == w.(pass := u.pass, loop := u.loop) && u.pass.Applying? && u.pass.me == A
    ensures u.pass.plan == PLAN_BOTH && X1 in u.loop.left && u.pass.y == w.yanets[A] && DisjointPlan(u)
  {
    OperatorMayApply(w);
    BothAreDisjoint();
    run, u := ReachApply(w, A, PLAN_BOTH, ORDER_BOTH);
  }

  lemma BothAreDisjoint()
    ensures Disjoint(PLAN_BOTH)
  {
    assert PLAN_BOTH[DP] == Dataplane({}) && PLAN_BOTH[X1] == Standalone("n1");
  }

  lemma RollOldTemplate(u: World) returns (run: seq<Action>, x: World)
    requires u.pass.Applying? && u.pass.me == A && u.pass.y.autoSync && DisjointPlan(u)
    requires u.pass.plan == PLAN_BOTH && X1 in u.loop.left && WithoutSidecar(u.(pass := Idle))
    ensures Plays(u, run, x) && !NoDoubleRole(x)
  {
    var v := PlannedIsWritten(u, X1);
    assert v.deployments[DP] == u.deployments[DP];
    assert MayRoll(v.deployments[DP], 1) && SpecAt(v.deployments[DP], 1) == Spec(1, Dataplane({"x"}).template);
    LateRollRunsBothWays(v, X1, DP, 1, Standalone("n1").template);
    var roll := Roll(DP, v.next, 1, 1);
    x := WorkloadNext(v, roll);
    PlaysOne(u, Perform(WriteDeployment(X1)), v);
    PlaysOn(u, [Perform(WriteDeployment(X1))], v, ByControllers(roll), x);
    run := [Perform(WriteDeployment(X1))] + [ByControllers(roll)];
  }

  /** The dataplane is stored without its sidecar, and its controller has seen neither template. */
  lemma SidecarIsDropped() returns (run: seq<Action>, w: World)
    ensures Plays(Empty(), run, w) && WithoutSidecar(w)
  {
    var r0, w0 := GetReady(ONE_NODE);
    var r1, w1 := WriteSidecar(w0);
    var r2;
    r2, w := DropSidecar(w1);
    PlaysJoin(Empty(), r0, w0, r1, w1);
    PlaysJoin(Empty(), r0 + r1, w1, r2, w);
    run := r0 + r1 + r2;
  }

  lemma OperatorRaces(w: World) returns (run: seq<Action>, x: World)
    requires WithoutSidecar(w)
    ensures Plays(w, run, x) && !NoDoubleRole(x)
  {
    var first, u := OperatorPassesGate(w);
    var second;
    second, x := RollOldTemplate(u);
    PlaysJoin(w, first, u, second, x);
    run := first + second;
  }

  /**
   With all names apart, role x runs both ways: the gate sees only the dataplane's new template while its controller
   may still roll out the old one.
   */
  lemma LaggingControllerRace()
    ensures exists run :: Valid(Empty(), run) && NamesApart(Empty(), run) && !NoDoubleRole(After(Empty(), run))
  {
    var before, w := SidecarIsDropped();
    var run, x := OperatorRaces(w);
    PlaysJoin(Empty(), before, w, run, x);
  }

  const PLAN_MIXED: map<Key, Rendered> := map[DP := Dataplane({"x"}), X1 := Standalone("n1")]
  const ORDER_MIXED: seq<Rendered> := [Dataplane({"x"}), Standalone("n1")]

  lemma MixedMayApply(w: World)
    requires Ready(w, ONE_NODE)
    ensures MayApply(w, A, PLAN_MIXED, ORDER_MIXED)
  {
    assert PLAN_MIXED[DP] == Dataplane({"x"}) && PLAN_MIXED[X1] == Standalone("n1");
    AloneMayApply(w, PLAN_MIXED, ORDER_MIXED);
  }

  /** A plan with one name both ways, which admission refuses, is written out from the empty cluster. */
  lemma MixedPlanFromEmpty()
    ensures exists run :: Valid(Empty(), run) && !NoDoubleRole(After(Empty(), run))
  {
    var run, w := GetReady(ONE_NODE);
    MixedMayApply(w);
    var more, x := MixedPlanIsWritten(w);
    RunsJoin(Empty(), run, w, more, x);
  }

  lemma MixedPlanIsWritten(w: World) returns (run: seq<Action>, x: World)
    requires Ready(w, ONE_NODE) && MayApply(w, A, PLAN_MIXED, ORDER_MIXED)
    ensures LeadsBy(w, run, x) && !NoDoubleRole(x)
  {
    var more, u := ReachApply(w, A, PLAN_MIXED, ORDER_MIXED);
    var last;
    last, x := MixedPlanRunsBothWays(u, X1, DP);
    RunsJoin(w, more, u, last, x);
    run := more + last;
  }

  // ---- A closed gate keeps a node ------------------------------------------------------------------------------

  const TWO_NODES: map<string, Labels> := map["n1" := ZONE_A, "n2" := ZONE_A]
  const MOVED_NODES: map<string, Labels> := map["n1" := ZONE_A, "n2" := ZONE_B]

  /** The Deployment is A's and runs role x on the node. */
  predicate RunsX(w: World, d: Key, node: string) {
    && d in w.deployments && w.deployments[d].owner == OwnedBy("a", 0) && !w.deployments[d].deleting
    && w.deployments[d].replicas == 1 && w.deployments[d].template == Standalone(node).template
  }

  /** A is enlisted, B selects the node A has lost. */
  predicate BothInstalled(w: World) {
    && w.nodes == MOVED_NODES && w.yanets.Keys == {A, B}
    && w.yanets[A] == Installation(0, ZONE_A).(finalizer := true)
    && w.yanets[B] == Installation(w.yanets[B].uid, ZONE_B).(finalizer := w.yanets[B].finalizer)
  }

  /** Passes get no further than this. */
  ghost predicate StuckPass(w: World)
    requires BothInstalled(w)
  {
    && (!w.pass.Idle? ==> w.pass.me in {A, B} && w.pass.y.selector == w.yanets[w.pass.me].selector
                          && w.pass.y.autoSync && !w.pass.y.deleting && w.pass.y.uid == w.yanets[w.pass.me].uid)
    && (w.pass.Claiming? || w.pass.Cleared? ==> w.pass.nodes == Selected(w.nodes, w.pass.y.selector))
    && (w.pass.Idle? || w.pass.Claiming? || (w.pass.me == A && w.pass.Cleared?)
        || (w.pass.me == B && (w.pass.Enlisting? || w.pass.Releasing?)))
  }

  /**
   Role x runs standalone on n1, which A keeps, and on n2, which B now selects; A's configuration makes x a sidecar
   on n1, so the gate is closed for it.
   */
  ghost predicate Stuck(w: World) {
    Ownership.Invariant(w) && BothInstalled(w) && RunsX(w, X1, "n1") && RunsX(w, X2, "n2") && StuckPass(w)
  }

  /** A wants x as a sidecar. */
  predicate WantsSidecar(p: Handover.Period) {
    A in p.wanted && p.wanted[A] == Handover.Wanted(map[DP := Dataplane({"x"})], [Dataplane({"x"})], {})
  }

  /** No fault, no edit, and nobody drains A by hand. */
  predicate HandsOff(p: Handover.Period, w: World, a: Action) {
    && Handover.Quiet(p, a) && Handover.Faultless(p, w, a)
    && (a.ByOthers? && (a.o.ScaleDown? || a.o.RequestDelete?) ==> a.o.d !in {X1, X2})
  }

  ghost predicate Unattended(p: Handover.Period, w: World, run: seq<Action>)
    requires Valid(w, run)
    decreases |run|
  {
    run != [] ==> HandsOff(p, w, run[0]) && Unattended(p, Next(w, run[0]), run[1..])
  }

  lemma ZonesDiffer()
    ensures !Matches(ZONE_A, ZONE_B) && !Matches(ZONE_B, ZONE_A) && Matches(ZONE_A, ZONE_A) && Matches(ZONE_B, ZONE_B)
  {
    assert ZONE_A["zone"] == "a" && ZONE_B["zone"] == "b";
  }

  /** A node with a Deployment of A has none of B. */
  lemma NodeIsNotBs(w: World, y: Yanet, d: Key, node: string)
    requires Ownership.Invariant(w) && RunsX(w, d, node) && d.ns == "ns"
    ensures !HasWorkload(ListingOf(w, w.nodes), B, y, node)
    ensures forall nodes :: !HasWorkload(ListingOf(w, nodes), B, y, node)
  {
    forall e | e in w.deployments && Controls(B, y, e, w.deployments[e].owner)
      ensures w.deployments[e].template.node != node
    {
      assert Ownership.Owned(w, e) && Ownership.Owned(w, d);
    }
  }

  /** A's claim passes: nobody else has or selects n1. */
  lemma ClaimOfAPasses(w: World)
    requires Stuck(w) && w.pass.Claiming? && w.pass.me == A
    ensures Exclusive(ListingOf(w, w.pass.nodes), A, w.pass.y)
  {
    var l := ListingOf(w, w.pass.nodes);
    ZonesDiffer();
    assert l.nodes.Keys == {"n1"};
    NodeIsNotBs(w, w.yanets[B], X1, "n1");
    assert !Claims(l, B, w.yanets[B], "n1");
  }

  /** B's claim is refused: A still has a workload on n2. */
  lemma ClaimOfBIsRefused(w: World)
    requires Stuck(w) && w.pass.Claiming? && w.pass.me == B
    ensures !Exclusive(ListingOf(w, w.pass.nodes), B, w.pass.y)
  {
    var l := ListingOf(w, w.pass.nodes);
    ZonesDiffer();
    assert "n2" in l.nodes && Controls(A, w.yanets[A], X2, w.deployments[X2].owner);
    assert HasWorkload(l, A, w.yanets[A], "n2");
    NodeIsNotBs(w, w.pass.y, X2, "n2");
    assert Blocks(l, B, w.pass.y, A, "n2");
  }

  /** The gate is closed for A's plan: role x still runs standalone on n1. */
  lemma GateOfAIsClosed(w: World)
    requires RunsX(w, X1, "n1")
    ensures !GateOpen(LiveOf(w), A, [Dataplane({"x"})])
  {
    var t, target := Standalone("n1").template, Target("x", true, "n1");
    assert Wants([Dataplane({"x"})][0], target) && Wanted([Dataplane({"x"})], target);
    assert DeploymentProduces(w.deployments[X1]) && Produces(LiveOf(w), "ns", t);
    assert Incompatible(t, "x", true);
  }

  lemma {:induction false} DecisionStaysStuck(p: Handover.Period, w: World, a: Decision, v: World)
    requires Stuck(w) && WantsSidecar(p) && DecisionEnabled(w, a) && v == DecisionNext(w, a)
             && HandsOff(p, w, Decide(a))
    ensures Stuck(v)
  {
    Ownership.DecisionKeepsInvariant(w, a);
    if a.Validate? {
      if w.pass.me == A {
        ClaimOfAPasses(w);
      } else {
        ClaimOfBIsRefused(w);
      }
    } else if a.Gate? {
      GateOfAIsClosed(w);
    }
  }

  /** The pass of B owns neither Deployment. */
  lemma WriteStaysStuck(w: World, a: Write, v: World)
    requires Stuck(w) && WriteEnabled(w, a) && v == WriteNext(w, a) && Ownership.Invariant(v)
    ensures Stuck(v)
  {
    assert w.pass.me == B;
    assert !Mine(w, X1) && !Mine(w, X2);
  }

  lemma {:induction false} OthersStayStuck(p: Handover.Period, w: World, o: Outside, v: World)
    requires Stuck(w) && OutsideEnabled(w, o) && v == OutsideNext(w, o) && HandsOff(p, w, ByOthers(o))
             && Ownership.Invariant(v)
    ensures Stuck(v)
  {
    assert v.yanets == w.yanets && v.nodes == w.nodes;
  }

  lemma ControllersStayStuck(w: World, c: Workload, v: World)
    requires Stuck(w) && WorkloadEnabled(w, c) && v == WorkloadNext(w, c) && Ownership.Invariant(v)
    ensures Stuck(v)
  {
  }

  lemma {:induction false} StepStaysStuck(p: Handover.Period, w: World, a: Action, v: World)
    requires Stuck(w) && WantsSidecar(p) && Leads(w, a, v) && HandsOff(p, w, a)
    ensures Stuck(v)
  {
    Ownership.StepKeepsInvariant(w, a, v);
    match a
    case ByOthers(o) => OthersStayStuck(p, w, o, v);
    case ByControllers(c) => ControllersStayStuck(w, c, v);
    case Decide(d) => DecisionStaysStuck(p, w, d, v);
    case Perform(x) => WriteStaysStuck(w, x, v);
  }

  /** However many passes follow, n2 is never released and B never gets it, until somebody drains A by hand. */
  lemma {:induction false} StuckForever(p: Handover.Period, w: World, run: seq<Action>)
    requires Stuck(w) && WantsSidecar(p) && Valid(w, run) && Unattended(p, w, run)
    ensures Stuck(After(w, run))
    decreases |run|
  {
    if run != [] {
      StepStaysStuck(p, w, run[0], Next(w, run[0]));
      StuckForever(p, Next(w, run[0]), run[1..]);
    }
  }

  // ---- Reaching it ------------------------------------------------------------------------------------------------

  const PLAN_X: map<Key, Rendered> := map[X1 := Standalone("n1"), X2 := Standalone("n2")]
  const ORDER_X: seq<Rendered> := [Standalone("n1"), Standalone("n2")]

  /** A has its nodes and at most the planned operators. */
  ghost predicate Deploying(w: World) {
    && w.pass.Idle? && w.nodes == TWO_NODES && w.yanets == map[A := Installation(0, ZONE_A).(finalizer := true)]
    && w.sets == map[] && w.pods == map[] && w.deployments.Keys <= {X1, X2}
    && (X1 in w.deployments ==> RunsX(w, X1, "n1")) && (X2 in w.deployments ==> RunsX(w, X2, "n2"))
  }

  /** Operators standing alone are in nobody's way. */
  lemma GateLetsOperators(w: World)
    requires Deploying(w)
    ensures GateOpen(LiveOf(w), A, ORDER_X)
  {
    forall t | Produces(LiveOf(w), "ns", t) ensures t.members == {} {
    }
    forall target | Wanted(ORDER_X, target) ensures !target.colocated {
    }
  }

  lemma OperatorsMayApply(w: World)
    requires Deploying(w)
    ensures MayApply(w, A, PLAN_X, ORDER_X) && Disjoint(PLAN_X)
  {
    GateLetsOperators(w);
    assert PLAN_X[X1] == Standalone("n1") && PLAN_X[X2] == Standalone("n2");
    AloneMayApply(w, PLAN_X, ORDER_X);
  }

  lemma DeployOne(w: World, d: Key) returns (run: seq<Action>, v: World)
    requires Deploying(w) && d in PLAN_X && d !in w.deployments
    ensures Plays(w, run, v) && Deploying(v) && v.deployments.Keys == w.deployments.Keys + {d}
  {
    OperatorsMayApply(w);
    run, v := WriteOne(w, A, PLAN_X, ORDER_X, d);
  }

  /** The node moves over to B, which is then created. */
  lemma MoveNode(w: World) returns (run: seq<Action>, v: World)
    requires Deploying(w) && w.deployments.Keys == {X1, X2}
    ensures Plays(w, run, v) && v.pass.Idle? && BothInstalled(v) && RunsX(v, X1, "n1") && RunsX(v, X2, "n2")
  {
    var w1, more;
    run, w1 := NodesStep(w, MOVED_NODES);
    more, v := Appear(w1, B, Installation(w1.next, ZONE_B));
    PlaysJoin(w, run, w1, more, v);
    run := run + more;
  }

  lemma StuckIsReached() returns (history: seq<Action>, w: World)
    ensures Plays(Empty(), history, w) && w.pass.Idle? && Stuck(w)
  {
    var r0, w0 := GetReady(TWO_NODES);
    var r1, w1 := DeployOne(w0, X1);
    var r2, w2 := DeployOne(w1, X2);
    var r3;
    r3, w := MoveNode(w2);
    PlaysJoin(Empty(), r0, w0, r1, w1);
    PlaysJoin(Empty(), r0 + r1, w1, r2, w2);
    PlaysJoin(Empty(), r0 + r1 + r2, w2, r3, w);
    history := r0 + r1 + r2 + r3;
    Ownership.RunKeepsInvariant(Empty(), history);
  }

  /** Without faults, edits or a drain by hand, A never releases n2 and no claim of B passes. */
  ghost predicate KeepsNode(p: Handover.Period, w: World) {
    forall run :: Valid(w, run) && Unattended(p, w, run) ==>
      Handover.Lingers(After(w, run), X2) && !(After(w, run).pass.Cleared? && After(w, run).pass.me == B)
  }

  lemma {:induction false} StuckKeepsNode(p: Handover.Period, w: World)
    requires Stuck(w) && WantsSidecar(p)
    ensures KeepsNode(p, w)
  {
    forall run | Valid(w, run) && Unattended(p, w, run)
      ensures Handover.Lingers(After(w, run), X2) && !(After(w, run).pass.Cleared? && After(w, run).pass.me == B)
    {
      StuckForever(p, w, run);
      StuckLingers(After(w, run));
    }
  }

  /** Such a world, where a closed gate keeps a node, is reached from the empty cluster. */
  lemma {:induction false} ClosedGateKeepsNode(p: Handover.Period)
    requires WantsSidecar(p)
    ensures exists history ::
            Valid(Empty(), history) && NamesApart(Empty(), history) && KeepsNode(p, After(Empty(), history))
  {
    var history, w := StuckIsReached();
    StuckKeepsNode(p, w);
  }

  lemma StuckLingers(w: World)
    requires Stuck(w)
    ensures Handover.Lingers(w, X2)
  {
    ZonesDiffer();
    assert Ownership.Owned(w, X2) && Ownership.OwnerOf(w, X2).k == A;
  }
}
