/**
 The cluster as a state machine. The operator's passes are cut into their decisions and API writes,
 so people, the workload controllers and garbage collection act between any two of them; the list
 calls one decision is taken from count as one instant. Passes themselves do not overlap (leader
 election, one worker). A ReplicaSet is dropped only after its Pods. The workload controllers may
 lag behind and act on any generation they have not reported to be past. A pass may fail at
 any point (Fail, Miss): API errors, a stop, a render failure.
 */
module Protocol {
  import opened Cluster
  import opened NodeClaims
  import opened PlacementGate
  import opened ConfigMaps

  /** Where the current reconcileYanet pass stands; `y` is the object read at its start. */
  datatype Pass =
    | Idle
    | Enlisting(me: Key, y: Yanet)
    | Claiming(me: Key, y: Yanet, nodes: map<string, Labels>)
    | Releasing(me: Key, y: Yanet, cleanup: set<string>)
    | Cleared(me: Key, y: Yanet, nodes: map<string, Labels>)
    | Applying(me: Key, y: Yanet, nodes: map<string, Labels>, plan: map<Key, Rendered>, maps: set<Key>)
    | Pruning(me: Key, y: Yanet, nodes: map<string, Labels>, plan: map<Key, Rendered>, maps: set<Key>, final: bool)
    | Sweeping(me: Key, y: Yanet, doomed: set<Key>, final: bool)
    | Unlisting(me: Key, y: Yanet)

  /** What the running loop of the pass has still to visit, and whether an item failed. */
  datatype Loop = Loop(left: set<Key>, leftMaps: set<Key>, failed: bool)

  const NO_LOOP := Loop({}, {}, false)

  datatype World = World(
    yanets: map<Key, Yanet>, nodes: map<string, Labels>, deployments: map<Key, Deployment>,
    sets: map<nat, ReplicaSet>, pods: map<nat, Pod>, maps: map<Key, ConfigMap>,
    next: nat, pass: Pass, loop: Loop)

  /** People, other controllers and the API server's garbage collection. */
  datatype Outside =
    | CreateYanet(k: Key, y: Yanet)
    | EditYanet(k: Key, selector: Labels, foreignFinalizer: bool, autoSync: bool, enabled: bool)
    | DeleteYanet(k: Key)
    | SetNodes(nodes: map<string, Labels>)
    | CreateForeign(d: Key, template: Template, replicas: nat)
    | ScaleDown(d: Key, replicas: nat)
    | RequestDelete(d: Key)
    | FinishDelete(d: Key)

  /** The Deployment and ReplicaSet controllers and the kubelet. */
  datatype Workload =
    | Roll(d: Key, s: nat, g: nat, replicas: nat)
    | Shrink(s: nat, replicas: nat)
    | Settle(s: nat)
    | DropSet(s: nat)
    | ReportStatus(d: Key, status: Status)
    | StartPod(s: nat)
    | FinishPod(p: nat)
    | DropPod(p: nat)

  /**
   What a pass reads and decides; only its own position changes. `Visit` passes over an item of the loop that
   asks for no write, `Refuse` is a closed placement gate; `Miss` and `Fail` are faults.
   */
  datatype Decision =
    | Begin(k: Key)
    | Validate
    | Gate(plan: map<Key, Rendered>, order: seq<Rendered>, maps: set<Key>)
    | Refuse(plan: map<Key, Rendered>, order: seq<Rendered>)
    | Visit(d: Key)
    | VisitMap(c: Key)
    | EndApply
    | Sweep
    | FinishRelease
    | FinishSweep
    | Miss(d: Key)
    | Fail

  /** The API writes of a pass. */
  datatype Write =
    | AddFinalizer
    | WriteMap(c: Key)
    | WriteDeployment(d: Key)
    | MarkOrphan(d: Key)
    | MarkReleased(d: Key)
    | Drain(d: Key)
    | DeleteMap(c: Key)
    | RemoveFinalizer

  datatype Action = ByOthers(o: Outside) | ByControllers(c: Workload) | Decide(d: Decision) | Perform(x: Write)

  ghost function Empty(): World {
    World(map[], map[], map[], map[], map[], map[], 0, Idle, NO_LOOP)
  }

  function ListingOf(w: World, nodes: map<string, Labels>): Listing {
    Listing(w.yanets, w.deployments, nodes)
  }

  function LiveOf(w: World): Live {
    Live(w.deployments, w.sets, w.pods)
  }

  /** The builder stamps owner, node and namespace on everything it renders. */
  ghost predicate PlanFor(me: Key, nodes: map<string, Labels>, plan: map<Key, Rendered>, order: seq<Rendered>) {
    && (forall d :: d in plan ==> d.ns == me.ns && plan[d].template.yanet == me.name
                                  && plan[d].template.node in nodes && plan[d] in order)
    && (forall r :: r in order ==> exists d :: d in plan && plan[d] == r)
  }

  /** A status report that shows a finished rollout comes only after old ReplicaSets are empty. */
  ghost predicate Truthful(w: World, d: Deployment, status: Status) {
    && status.observed <= d.generation
    && (status.observed == d.generation && status.updated == status.replicas ==>
          forall s :: s in w.sets && w.sets[s].owner == d.uid && w.sets[s].template != d.template
                      ==> !Able(w.sets[s]))
  }

  /** The object is the pass's own: created by it or already controlled by its installation. */
  predicate Mine(w: World, d: Key) {
    && !w.pass.Idle? && d in w.deployments
    && Controls(w.pass.me, w.pass.y, d, w.deployments[d].owner)
  }

  /** The Deployment is the installation's and not planned. */
  predicate Orphan(w: World, d: Key)
    requires w.pass.Pruning?
  {
    Mine(w, d) && d !in w.pass.plan
  }

  /** pruneOrphans asks to delete it when the loop comes to it. */
  predicate OrphanDue(w: World, d: Key)
    requires w.pass.Pruning?
  {
    (w.pass.final || w.pass.y.autoSync) && Orphan(w, d) && !w.deployments[d].deleting
  }

  predicate ToRelease(w: World, d: Key)
    requires w.pass.Releasing?
  {
    Mine(w, d) && w.deployments[d].template.node in w.pass.cleanup
  }

  /** pruneConflictingDeployments asks to delete it when the loop comes to it. */
  predicate ReleaseDue(w: World, d: Key)
    requires w.pass.Releasing?
  {
    ToRelease(w, d) && !w.deployments[d].deleting
  }

  /** pruneConflictingDeployments scales it to zero when the loop comes to it. */
  predicate DrainDue(w: World, d: Key)
    requires w.pass.Releasing?
  {
    && !w.pass.y.enabled && Mine(w, d) && !ToRelease(w, d)
    && !w.deployments[d].deleting && w.deployments[d].replicas != 0
  }

  /** Somebody else holds the name of the Deployment. */
  predicate HeldByOther(w: World, me: Key, y: Yanet, d: Key) {
    d in w.deployments && !Controls(me, y, d, w.deployments[d].owner)
  }

  predicate MapHeldByOther(w: World, me: Key, y: Yanet, c: Key) {
    c in w.maps && !Controls(me, y, c, w.maps[c].owner)
  }

  /** The name of a planned Deployment is taken by an object of somebody else. */
  predicate Taken(w: World, d: Key)
    requires !w.pass.Idle?
  {
    HeldByOther(w, w.pass.me, w.pass.y, d)
  }

  predicate MapTaken(w: World, c: Key)
    requires !w.pass.Idle?
  {
    w.pass.y.autoSync && MapHeldByOther(w, w.pass.me, w.pass.y, c)
  }

  ghost predicate OutsideEnabled(w: World, a: Outside) {
    match a
    case CreateYanet(k, y) => k !in w.yanets && k.name != "" && '/' !in k.ns && y.uid == w.next && !y.deleting
    case EditYanet(k, _, _, _, _) => k in w.yanets
    case DeleteYanet(k) => k in w.yanets
    case SetNodes(_) => true
    case CreateForeign(d, template, _) => d !in w.deployments && template.yanet == ""
    case ScaleDown(d, replicas) => d in w.deployments && replicas < w.deployments[d].replicas
    case RequestDelete(d) => d in w.deployments
    case FinishDelete(d) =>
      && d in w.deployments && w.deployments[d].deleting
      && forall s :: s in w.sets ==> w.sets[s].owner != w.deployments[d].uid
  }

  ghost predicate WorkloadEnabled(w: World, a: Workload) {
    match a
    case Roll(d, s, g, replicas) =>
      && d in w.deployments && MayRoll(w.deployments[d], g) && replicas <= SpecAt(w.deployments[d], g).replicas
      && (s == w.next || (s in w.sets && w.sets[s].owner == w.deployments[d].uid && w.sets[s].ns == d.ns
                          && w.sets[s].template == SpecAt(w.deployments[d], g).template))
    case Shrink(s, replicas) => s in w.sets && replicas < w.sets[s].replicas
    case Settle(s) => s in w.sets
    case DropSet(s) => s in w.sets && forall p :: p in w.pods ==> w.pods[p].home != s
    case ReportStatus(d, status) =>
      d in w.deployments && w.deployments[d].status.observed <= status.observed && Truthful(w, w.deployments[d], status)
    case StartPod(s) => s in w.sets && Able(w.sets[s])
    case FinishPod(p) => p in w.pods
    case DropPod(p) => p in w.pods
  }

  ghost predicate DecisionEnabled(w: World, a: Decision) {
    match a
    case Begin(k) => w.pass.Idle? && k in w.yanets
    case Validate => w.pass.Claiming?
    case Gate(plan, order, _) =>
      && w.pass.Cleared? && PlanFor(w.pass.me, w.pass.nodes, plan, order)
      && GateOpen(LiveOf(w), w.pass.me, order)
    case Refuse(plan, order) =>
      && w.pass.Cleared? && PlanFor(w.pass.me, w.pass.nodes, plan, order)
      && !GateOpen(LiveOf(w), w.pass.me, order)
    case Visit(d) =>
      && d in w.loop.left
      && match w.pass {
           case Applying(_, y, _, _, _) => d in w.deployments || !y.autoSync
           case Pruning(_, _, _, _, _, _) => !OrphanDue(w, d)
           case Releasing(_, _, _) => !ReleaseDue(w, d) && !DrainDue(w, d)
           case _ => false
         }
    case VisitMap(c) => w.pass.Applying? && c in w.loop.leftMaps && (c in w.maps || !w.pass.y.autoSync)
    case EndApply => w.pass.Applying? && w.loop.left == {} && w.loop.leftMaps == {}
    case Sweep => w.pass.Pruning? && w.loop.left == {}
    case FinishRelease => w.pass.Releasing? && w.loop.left == {}
    case FinishSweep => w.pass.Sweeping?
    case Miss(d) => (w.pass.Applying? || w.pass.Pruning?) && (d in w.loop.left || d in w.loop.leftMaps)
    case Fail => true
  }

  ghost predicate WriteEnabled(w: World, a: Write) {
    match a
    case AddFinalizer =>
      w.pass.Enlisting? && w.pass.me in w.yanets && w.yanets[w.pass.me] == w.pass.y
    case WriteMap(c) =>
      && w.pass.Applying? && w.pass.y.autoSync && c in w.loop.leftMaps && c.ns == w.pass.me.ns
      && (c in w.maps ==> Controls(w.pass.me, w.pass.y, c, w.maps[c].owner))
    case WriteDeployment(d) =>
      && w.pass.Applying? && w.pass.y.autoSync && d in w.pass.plan && d in w.loop.left
      && (d in w.deployments ==> Mine(w, d))
    case MarkOrphan(d) => w.pass.Pruning? && d in w.loop.left && OrphanDue(w, d)
    case MarkReleased(d) => w.pass.Releasing? && d in w.loop.left && ReleaseDue(w, d)
    case Drain(d) => w.pass.Releasing? && d in w.loop.left && DrainDue(w, d)
    case DeleteMap(c) => w.pass.Sweeping? && c in w.pass.doomed
    case RemoveFinalizer =>
      w.pass.Unlisting? && w.pass.me in w.yanets && w.yanets[w.pass.me] == w.pass.y
  }

  /** The API server reaps a deleting object once no finalizer is left. */
  function Put(yanets: map<Key, Yanet>, k: Key, y: Yanet): map<Key, Yanet> {
    if y.deleting && !y.finalizer && !y.foreignFinalizer then yanets - {k} else yanets[k := y]
  }

  /** A spec change bumps the generation; an identical write changes nothing. */
  function Respec(d: Deployment, replicas: nat, template: Template): Deployment {
    if d.replicas == replicas && d.template == template then d
    else d.(replicas := replicas, template := template, generation := d.generation + 1,
            past := d.past[d.generation := Spec(d.replicas, d.template)])
  }

  function MarkDeleted(w: World, d: Key): World
    requires d in w.deployments
  {
    w.(deployments := w.deployments[d := w.deployments[d].(deleting := true)])
  }

  /** The loop goes on to the next item. */
  function Visited(loop: Loop, d: Key): Loop {
    loop.(left := loop.left - {d})
  }

  /** The next position after the finalizer checks of reconcileYanet. */
  function Start(w: World, k: Key, y: Yanet): Pass {
    if y.deleting then
      if y.finalizer then Pruning(k, y, map[], map[], {}, true) else Idle
    else if !y.finalizer then Enlisting(k, y)
    else Claiming(k, y, Selected(w.nodes, y.selector))
  }

  ghost function Cleanup(w: World): set<string>
    requires w.pass.Claiming?
  {
    var l := ListingOf(w, w.pass.nodes);
    set d | d in w.deployments && (Evicted(l, w.pass.me, w.pass.y, w.deployments[d].template.node)
                                   || Abandoned(l, w.pass.me, w.pass.y, w.deployments[d].template.node))
      :: w.deployments[d].template.node
  }

  /** The ConfigMaps this pass will delete. */
  ghost function Doomed(w: World): set<Key>
    requires w.pass.Pruning?
  {
    if w.pass.final || w.pass.y.autoSync
    then set c | c in w.maps && Disposable(LiveOf(w), w.maps, w.pass.me, w.pass.y, w.pass.maps, c)
    else {}
  }

  /** After the ConfigMaps: the last pass of a deleted installation looks for its Deployments. */
  ghost function AfterSweep(w: World): Pass
    requires w.pass.Sweeping?
  {
    if w.pass.final && forall d :: !Mine(w, d)
    then Unlisting(w.pass.me, w.pass.y) else Idle
  }

  ghost function OutsideNext(w: World, a: Outside): (v: World)
    requires OutsideEnabled(w, a)
    ensures v.pass == w.pass && v.loop == w.loop && v.pods == w.pods && v.sets == w.sets && v.maps == w.maps
  {
    match a
    case CreateYanet(k, y) => w.(yanets := w.yanets[k := y], next := w.next + 1)
    case EditYanet(k, selector, foreign, autoSync, enabled) =>
      w.(yanets := Put(w.yanets, k, w.yanets[k].(
                       selector := selector, foreignFinalizer := foreign, autoSync := autoSync, enabled := enabled)))
    case DeleteYanet(k) => w.(yanets := Put(w.yanets, k, w.yanets[k].(deleting := true)))
    case SetNodes(nodes) => w.(nodes := nodes)
    case CreateForeign(d, template, replicas) =>
      var dep := Deployment(w.next, Unowned, false, 1, replicas, template, Status(0, 0, 0), map[]);
      w.(deployments := w.deployments[d := dep],
         next := w.next + 1)
    case ScaleDown(d, replicas) =>
      w.(deployments := w.deployments[d := Respec(w.deployments[d], replicas, w.deployments[d].template)])
    case RequestDelete(d) => MarkDeleted(w, d)
    case FinishDelete(d) => w.(deployments := w.deployments - {d})
  }

  /** A status report: specs before the observed generation are past. */
  function Reported(d: Deployment, status: Status): Deployment {
    d.(status := status, past := map g | g in d.past && status.observed <= g :: d.past[g])
  }

  ghost function WorkloadNext(w: World, a: Workload): (v: World)
    requires WorkloadEnabled(w, a)
    ensures v.pass == w.pass && v.loop == w.loop && v.yanets == w.yanets && v.nodes == w.nodes && v.maps == w.maps
  {
    match a
    case Roll(d, s, g, replicas) =>
      var template := SpecAt(w.deployments[d], g).template;
      w.(sets := w.sets[s := ReplicaSet(d.ns, w.deployments[d].uid, template, replicas, true,
                                        s != w.next && Able(w.sets[s]))],
         next := if s == w.next then w.next + 1 else w.next)
    case Shrink(s, replicas) =>
      w.(sets := w.sets[s := w.sets[s].(replicas := replicas, settling := true, lagging := true)])
    case Settle(s) => w.(sets := w.sets[s := w.sets[s].(settling := false, lagging := false)])
    case DropSet(s) => w.(sets := w.sets - {s})
    case ReportStatus(d, status) =>
      w.(deployments := w.deployments[d := Reported(w.deployments[d], status)])
    case StartPod(s) =>
      w.(pods := w.pods[w.next := Pod(w.sets[s].ns, s, w.sets[s].template, false)], next := w.next + 1)
    case FinishPod(p) => w.(pods := w.pods[p := w.pods[p].(done := true)])
    case DropPod(p) => w.(pods := w.pods - {p})
  }

  ghost function Decided(w: World, a: Decision): Pass
    requires DecisionEnabled(w, a)
  {
    match a
    case Begin(k) => Start(w, k, w.yanets[k])
    case Validate =>
      if Exclusive(ListingOf(w, w.pass.nodes), w.pass.me, w.pass.y) then Cleared(w.pass.me, w.pass.y, w.pass.nodes)
      else if w.pass.y.autoSync then Releasing(w.pass.me, w.pass.y, Cleanup(w))
      else Idle
    case Gate(plan, _, maps) => Applying(w.pass.me, w.pass.y, w.pass.nodes, plan, maps)
    case Refuse(_, _) => Idle
    case Visit(_) => w.pass
    case VisitMap(_) => w.pass
    case EndApply =>
      if w.loop.failed then Idle
      else Pruning(w.pass.me, w.pass.y, w.pass.nodes, w.pass.plan, w.pass.maps, false)
    case Sweep => Sweeping(w.pass.me, w.pass.y, Doomed(w), w.pass.final && !w.loop.failed)
    case FinishRelease => Idle
    case FinishSweep => AfterSweep(w)
    case Miss(_) => w.pass
    case Fail => Idle
  }

  /** The loops start from a fresh listing; an item that fails is remembered. */
  ghost function Looped(w: World, a: Decision): Loop
    requires DecisionEnabled(w, a)
  {
    match a
    case Gate(plan, _, maps) => Loop(plan.Keys, maps, false)
    case Visit(d) => Visited(w.loop, d).(failed := w.loop.failed || (w.pass.Applying? && Taken(w, d)))
    case VisitMap(c) =>
      w.loop.(leftMaps := w.loop.leftMaps - {c}, failed := w.loop.failed || MapTaken(w, c))
    case Miss(d) => Loop(w.loop.left - {d}, w.loop.leftMaps - {d}, true)
    case _ => Loop(w.deployments.Keys, {}, false)
  }

  ghost function DecisionNext(w: World, a: Decision): (v: World)
    requires DecisionEnabled(w, a)
    ensures v.pass == Decided(w, a)
  {
    w.(pass := Decided(w, a), loop := Looped(w, a))
  }

  /** The written Deployment: a new object of the installation, or the stored one with the rendered spec. */
  function Written(w: World, me: Key, y: Yanet, d: Key, r: Rendered): Deployment {
    if d in w.deployments then Respec(w.deployments[d], r.replicas, r.template)
    else Deployment(w.next, OwnedBy(me.name, y.uid), false, 1, r.replicas, r.template, Status(0, 0, 0), map[])
  }

  ghost function WriteNext(w: World, a: Write): (v: World)
    requires WriteEnabled(w, a)
    ensures v.pass == w.pass || v.pass.Idle?
    ensures v.nodes == w.nodes && v.pods == w.pods && v.sets == w.sets
  {
    match a
    case AddFinalizer =>
      w.(yanets := w.yanets[w.pass.me := w.pass.y.(finalizer := true)], pass := Idle)
    case WriteMap(c) =>
      w.(maps := w.maps[c := ConfigMap(OwnedBy(w.pass.me.name, w.pass.y.uid), w.pass.me.name, false)],
         loop := w.loop.(leftMaps := w.loop.leftMaps - {c}))
    case WriteDeployment(d) =>
      w.(deployments := w.deployments[d := Written(w, w.pass.me, w.pass.y, d, w.pass.plan[d])],
         next := w.next + 1, loop := Visited(w.loop, d))
    case MarkOrphan(d) => MarkDeleted(w, d).(loop := Visited(w.loop, d))
    case MarkReleased(d) => MarkDeleted(w, d).(loop := Visited(w.loop, d))
    case Drain(d) =>
      w.(deployments := w.deployments[d := Respec(w.deployments[d], 0, w.deployments[d].template)],
         loop := Visited(w.loop, d))
    case DeleteMap(c) => w.(maps := w.maps - {c})
    case RemoveFinalizer =>
      w.(yanets := Put(w.yanets, w.pass.me, w.pass.y.(finalizer := false)), pass := Idle)
  }

  ghost predicate Enabled(w: World, a: Action) {
    match a
    case ByOthers(o) => OutsideEnabled(w, o)
    case ByControllers(c) => WorkloadEnabled(w, c)
    case Decide(d) => DecisionEnabled(w, d)
    case Perform(x) => WriteEnabled(w, x)
  }

  ghost function Next(w: World, a: Action): World
    requires Enabled(w, a)
  {
    match a
    case ByOthers(o) => OutsideNext(w, o)
    case ByControllers(c) => WorkloadNext(w, c)
    case Decide(d) => DecisionNext(w, d)
    case Perform(x) => WriteNext(w, x)
  }

  /** Every action of the run is enabled when it is taken. */
  ghost predicate Valid(w: World, run: seq<Action>)
    decreases |run|
  {
    run == [] || (Enabled(w, run[0]) && Valid(Next(w, run[0]), run[1..]))
  }

  ghost function After(w: World, run: seq<Action>): World
    requires Valid(w, run)
    decreases |run|
  {
    if run == [] then w else After(Next(w, run[0]), run[1..])
  }

  /** The action is enabled and leads there. */
  ghost predicate Leads(w: World, a: Action, v: World) {
    Enabled(w, a) && v == Next(w, a)
  }

  /** The run is valid and leads there. */
  ghost predicate LeadsBy(w: World, run: seq<Action>, v: World) {
    Valid(w, run) && v == After(w, run)
  }

  lemma RunOfOne(w: World, a: Action, v: World)
    requires Leads(w, a, v)
    ensures LeadsBy(w, [a], v)
  {
    assert [a][1..] == [];
  }

  lemma {:induction false} RunGoesOn(w: World, run: seq<Action>, v: World, a: Action, u: World)
    requires LeadsBy(w, run, v) && Leads(v, a, u)
    ensures LeadsBy(w, run + [a], u)
    decreases |run|
  {
    if run == [] {
      assert run + [a] == [a];
      RunOfOne(w, a, u);
    } else {
      RunGoesOn(Next(w, run[0]), run[1..], v, a, u);
      assert (run + [a])[1..] == run[1..] + [a];
    }
  }

  lemma {:induction false} RunsJoin(w: World, first: seq<Action>, v: World, second: seq<Action>, u: World)
    requires LeadsBy(w, first, v) && LeadsBy(v, second, u)
    ensures LeadsBy(w, first + second, u)
    decreases |second|
  {
    if second == [] {
      assert first + second == first;
    } else {
      var a := second[0];
      RunGoesOn(w, first, v, a, Next(v, a));
      RunsJoin(w, first + [a], Next(v, a), second[1..], u);
      assert first + [a] + second[1..] == first + second;
    }
  }
}
