/**
 A ConfigMap is pruned only when nothing can still need it: no controlled Deployment template, current or still
 to be observed, no labelled Pod and no ReplicaSet able to create Pods refers to it at that moment through a
 volume, a projected volume, env or envFrom, in every run. Deployment controllers report a finished rollout only
 when old ReplicaSets are empty.
 */
module Retention {
  import opened Cluster
  import opened ConfigMapRefs
  import opened ConfigMaps
  import opened Protocol
  import Ownership

  /** The template of a generation the Deployment's controller may still act on. */
  ghost predicate MayUse(d: Deployment, t: Template) {
    exists g :: MayRoll(d, g) && SpecAt(d, g).template == t
  }

  /** Scaling and reporting give a Deployment no template it did not have. */
  lemma ScalingUsesNothingNew(d: Deployment, replicas: nat, t: Template)
    ensures MayUse(Respec(d, replicas, d.template), t) ==> MayUse(d, t)
  {
    if g :| MayRoll(Respec(d, replicas, d.template), g) && SpecAt(Respec(d, replicas, d.template), g).template == t {
      assert MayRoll(d, d.generation) && SpecAt(d, d.generation).template == d.template;
      assert t != d.template ==> MayRoll(d, g) && SpecAt(d, g).template == t;
    }
  }

  lemma ReportingUsesNothingNew(d: Deployment, status: Status, t: Template)
    ensures MayUse(Reported(d, status), t) ==> MayUse(d, t)
  {
    if g :| MayRoll(Reported(d, status), g) && SpecAt(Reported(d, status), g).template == t {
      assert MayRoll(d, g) && SpecAt(d, g).template == t;
    }
  }

  /** Labelled for the installation whose pass is running. */
  predicate Labelled(w: World, ns: string, t: Template)
    requires !w.pass.Idle?
  {
    ns == w.pass.me.ns && t.yanet == w.pass.me.name
  }

  /**
   The template of a Deployment the pass's installation controls, in a generation its controller may still act on,
   of a Pod labelled for it, or of a ReplicaSet labelled for it that can still create Pods.
   */
  ghost predicate Uses(w: World, t: Template)
    requires !w.pass.Idle?
  {
    || (exists d :: Mine(w, d) && MayUse(w.deployments[d], t))
    || (exists p :: p in w.pods && Labelled(w, w.pods[p].ns, t) && w.pods[p].template == t)
    || (exists s :: s in w.sets && Labelled(w, w.sets[s].ns, t) && Able(w.sets[s]) && w.sets[s].template == t)
  }

  /** Nothing of the pass's installation that runs or can start Pods refers to the ConfigMap. */
  ghost predicate Unneeded(w: World, name: string)
    requires !w.pass.Idle?
  {
    forall t :: Uses(w, t) ==> !Mentions(t.pod, name)
  }

  /** The Deployment the ReplicaSet belongs to. */
  ghost predicate Home(w: World, s: nat, d: Key) {
    && s in w.sets && d in w.deployments
    && w.deployments[d].uid == w.sets[s].owner && d.ns == w.sets[s].ns
    && w.deployments[d].template.yanet == w.sets[s].template.yanet
  }

  ghost predicate SetsHaveHomes(w: World) {
    forall s :: s in w.sets ==> exists d :: Home(w, s, d)
  }

  ghost predicate UidsUnique(w: World) {
    && (forall d :: d in w.deployments ==> w.deployments[d].uid < w.next)
    && (forall d, e :: d in w.deployments && e in w.deployments && w.deployments[d].uid == w.deployments[e].uid
          ==> d == e)
  }

  /** A Deployment is labelled for its owner, and nothing else is labelled. */
  ghost predicate LabelsFollowOwners(w: World) {
    forall d :: d in w.deployments ==>
      w.deployments[d].template.yanet == (if w.deployments[d].owner.OwnedBy? then w.deployments[d].owner.name else "")
  }

  /** Earlier specs are those not reported to be past, and carry the same installation. */
  ghost predicate PastIsUnobserved(d: Deployment) {
    forall g :: g in d.past ==> d.status.observed <= g < d.generation && d.past[g].template.yanet == d.template.yanet
  }

  ghost predicate PastsUnobserved(w: World) {
    forall d :: d in w.deployments ==> PastIsUnobserved(w.deployments[d])
  }

  ghost predicate ReportsTruthful(w: World) {
    forall d :: d in w.deployments ==> Truthful(w, w.deployments[d], w.deployments[d].status)
  }

  ghost predicate DoomedUnneeded(w: World) {
    w.pass.Sweeping? ==> forall c :: c in w.pass.doomed ==> Unneeded(w, c.name)
  }

  ghost predicate Shape(w: World) {
    && SetsHaveHomes(w) && UidsUnique(w) && LabelsFollowOwners(w) && ReportsTruthful(w) && PastsUnobserved(w)
    && (forall k :: k in w.yanets ==> k.name != "")
  }

  ghost predicate Invariant(w: World) {
    Ownership.Invariant(w) && Shape(w) && DoomedUnneeded(w)
  }

  /** A Deployment labelled for the running installation is controlled by this very instance. */
  lemma LabelledIsMine(w: World, d: Key)
    requires Ownership.Invariant(w) && Shape(w) && w.pass.Sweeping?
    requires d in w.deployments && d.ns == w.pass.me.ns && w.deployments[d].template.yanet == w.pass.me.name
    ensures Mine(w, d)
  {
    assert Ownership.Enlisted(w, Ownership.Current(w.pass));
    assert Ownership.Owned(w, d);
  }

  /** Nothing the shape speaks of changes. */
  lemma SameObjectsKeepShape(w: World, v: World)
    requires Shape(w) && v.deployments == w.deployments && v.sets == w.sets && v.next >= w.next
    requires forall k :: k in v.yanets ==> k.name != ""
    ensures Shape(v)
  {
    forall s | s in v.sets ensures exists d :: Home(v, s, d) {
      var d :| Home(w, s, d);
      assert Home(v, s, d);
    }
  }

  /** One Deployment is added, or replaced by one of the same identity. */
  lemma PutDeploymentKeepsShape(w: World, d: Key, dep: Deployment, v: World)
    requires Shape(w) && v.yanets == w.yanets && v.sets == w.sets && v.next >= w.next
    requires v.deployments == w.deployments[d := dep]
    requires dep.template.yanet == (if dep.owner.OwnedBy? then dep.owner.name else "")
    requires Truthful(w, dep, dep.status) && PastIsUnobserved(dep)
    requires if d in w.deployments
             then dep.uid == w.deployments[d].uid && dep.template.yanet == w.deployments[d].template.yanet
             else dep.uid == w.next < v.next
    ensures Shape(v)
  {
    PutDeploymentKeepsHomes(w, d, dep, v);
    PutDeploymentKeepsReports(w, d, dep, v);
  }

  lemma PutDeploymentKeepsHomes(w: World, d: Key, dep: Deployment, v: World)
    requires SetsHaveHomes(w) && v.sets == w.sets && v.deployments == w.deployments[d := dep]
    requires d in w.deployments
             ==> dep.uid == w.deployments[d].uid && dep.template.yanet == w.deployments[d].template.yanet
    ensures SetsHaveHomes(v)
  {
    forall s | s in v.sets ensures exists e :: Home(v, s, e) {
      var e :| Home(w, s, e);
      assert Home(v, s, e);
    }
  }

  lemma PutDeploymentKeepsReports(w: World, d: Key, dep: Deployment, v: World)
    requires ReportsTruthful(w) && v.sets == w.sets && v.deployments == w.deployments[d := dep]
    requires Truthful(w, dep, dep.status)
    ensures ReportsTruthful(v)
  {
    forall e | e in v.deployments ensures Truthful(v, v.deployments[e], v.deployments[e].status) {
      assert e != d ==> Truthful(w, w.deployments[e], w.deployments[e].status);
    }
  }

  /** One ReplicaSet is added or replaced; old templates only shrink. */
  lemma PutSetKeepsShape(w: World, s: nat, x: ReplicaSet, home: Key, v: World)
    requires Shape(w) && v.yanets == w.yanets && v.deployments == w.deployments && v.next >= w.next
    requires v.sets == w.sets[s := x] && Home(v, s, home)
    requires (exists g :: MayRoll(w.deployments[home], g) && SpecAt(w.deployments[home], g).template == x.template)
             || (s in w.sets && x.template == w.sets[s].template && x.owner == w.sets[s].owner
                 && (Able(x) ==> Able(w.sets[s])))
    ensures Shape(v)
  {
    PutSetKeepsTruth(w, s, x, home, v);
    forall t | t in v.sets ensures exists e :: Home(v, t, e) {
      if t != s {
        var e :| Home(w, t, e);
        assert Home(v, t, e);
      }
    }
  }

  lemma PutSetKeepsTruth(w: World, s: nat, x: ReplicaSet, home: Key, v: World)
    requires ReportsTruthful(w) && UidsUnique(w) && PastsUnobserved(w)
    requires v.deployments == w.deployments && v.sets == w.sets[s := x] && Home(v, s, home)
    requires (exists g :: MayRoll(w.deployments[home], g) && SpecAt(w.deployments[home], g).template == x.template)
             || (s in w.sets && x.template == w.sets[s].template && x.owner == w.sets[s].owner
                 && (Able(x) ==> Able(w.sets[s])))
    ensures ReportsTruthful(v)
  {
    forall d | d in v.deployments ensures Truthful(v, v.deployments[d], v.deployments[d].status) {
      assert Truthful(w, w.deployments[d], w.deployments[d].status) && PastIsUnobserved(w.deployments[d]);
    }
  }

  lemma FewerSetsKeepShape(w: World, v: World)
    requires Shape(w) && v.yanets == w.yanets && v.next >= w.next
    requires forall s :: s in v.sets ==> s in w.sets && v.sets[s] == w.sets[s]
    requires forall d :: d in v.deployments ==> d in w.deployments && v.deployments[d] == w.deployments[d]
    requires forall d, s :: d in w.deployments && d !in v.deployments && s in v.sets
               ==> v.sets[s].owner != w.deployments[d].uid
    ensures Shape(v)
  {
    forall s | s in v.sets ensures exists d :: Home(v, s, d) {
      var d :| Home(w, s, d);
      assert Home(v, s, d);
    }
  }

  lemma OutsideKeepsShape(w: World, a: Outside, v: World)
    requires Shape(w) && OutsideEnabled(w, a) && v == OutsideNext(w, a)
    ensures Shape(v)
  {
    match a
    case CreateForeign(d, _, _) => NewSetsNone(w); PutDeploymentKeepsShape(w, d, v.deployments[d], v);
    case ScaleDown(d, _) => RespecKeepsShape(w, d, v.deployments[d], v);
    case RequestDelete(d) => RespecKeepsShape(w, d, v.deployments[d], v);
    case FinishDelete(d) => FewerSetsKeepShape(w, v);
    case _ => SameObjectsKeepShape(w, v);
  }

  /** A fresh UID owns no ReplicaSet yet. */
  lemma NewSetsNone(w: World)
    requires Shape(w)
    ensures forall s :: s in w.sets ==> w.sets[s].owner < w.next
  {
    forall s | s in w.sets ensures w.sets[s].owner < w.next {
      var d :| Home(w, s, d);
    }
  }

  lemma RollKeepsShape(w: World, a: Workload, v: World)
    requires Shape(w) && WorkloadEnabled(w, a) && v == WorkloadNext(w, a) && a.Roll?
    ensures Shape(v)
  {
    assert SpecAt(w.deployments[a.d], a.g).template == v.sets[a.s].template;
    PutSetKeepsShape(w, a.s, v.sets[a.s], a.d, v);
  }

  lemma TouchedSetKeepsShape(w: World, s: nat, x: ReplicaSet, v: World)
    requires Shape(w) && s in w.sets && v == w.(sets := w.sets[s := x])
    requires x == w.sets[s].(replicas := x.replicas, settling := x.settling, lagging := x.lagging)
    requires Able(x) ==> Able(w.sets[s])
    ensures Shape(v)
  {
    var d :| Home(w, s, d);
    assert Home(v, s, d);
    PutSetKeepsShape(w, s, x, d, v);
  }

  lemma ReportKeepsShape(w: World, d: Key, status: Status, v: World)
    requires Shape(w) && d in w.deployments
             && v == w.(deployments := w.deployments[d := Reported(w.deployments[d], status)])
    requires w.deployments[d].status.observed <= status.observed && Truthful(w, w.deployments[d], status)
    ensures Shape(v)
  {
    PutDeploymentKeepsShape(w, d, v.deployments[d], v);
  }

  lemma SetKeepsShape(w: World, a: Workload, v: World)
    requires Shape(w) && (a.Shrink? || a.Settle?) && WorkloadEnabled(w, a) && v == WorkloadNext(w, a)
    ensures Shape(v)
  {
    TouchedSetKeepsShape(w, a.s, v.sets[a.s], v);
  }

  lemma WorkloadKeepsShape(w: World, a: Workload, v: World)
    requires Shape(w) && WorkloadEnabled(w, a) && v == WorkloadNext(w, a)
    ensures Shape(v)
  {
    match a
    case Roll(_, _, _, _) => RollKeepsShape(w, a, v);
    case Shrink(_, _) => SetKeepsShape(w, a, v);
    case Settle(_) => SetKeepsShape(w, a, v);
    case DropSet(_) => FewerSetsKeepShape(w, v);
    case ReportStatus(d, status) => ReportKeepsShape(w, d, status, v);
    case _ => SameObjectsKeepShape(w, v);
  }

  /** A stored Deployment is scaled, or only marked. */
  lemma RespecKeepsShape(w: World, d: Key, dep: Deployment, v: World)
    requires Shape(w) && d in w.deployments && v.yanets == w.yanets && v.sets == w.sets && v.next >= w.next
    requires v.deployments == w.deployments[d := dep]
    requires dep == w.deployments[d].(deleting := dep.deleting)
             || (dep.template.yanet == w.deployments[d].template.yanet
                 && dep == Respec(w.deployments[d], dep.replicas, dep.template))
    ensures Shape(v)
  {
    assert Truthful(w, w.deployments[d], w.deployments[d].status) && PastIsUnobserved(w.deployments[d]);
    PutDeploymentKeepsShape(w, d, dep, v);
  }

  lemma WrittenKeepsShape(w: World, d: Key, v: World)
    requires Shape(w) && Ownership.Invariant(w) && WriteEnabled(w, WriteDeployment(d))
             && v == WriteNext(w, WriteDeployment(d))
    ensures Shape(v)
  {
    if d in w.deployments {
      RespecKeepsShape(w, d, v.deployments[d], v);
    } else {
      NewSetsNone(w);
      PutDeploymentKeepsShape(w, d, v.deployments[d], v);
    }
  }

  lemma WriteKeepsShape(w: World, a: Write, v: World)
    requires Shape(w) && Ownership.Invariant(w) && WriteEnabled(w, a) && v == WriteNext(w, a)
    ensures Shape(v)
  {
    match a
    case WriteDeployment(d) => WrittenKeepsShape(w, d, v);
    case MarkOrphan(d) => RespecKeepsShape(w, d, v.deployments[d], v);
    case MarkReleased(d) => RespecKeepsShape(w, d, v.deployments[d], v);
    case Drain(d) => RespecKeepsShape(w, d, v.deployments[d], v);
    case _ => SameObjectsKeepShape(w, v);
  }

  /** With every rollout finished, a ReplicaSet that can create Pods runs a current template. */
  lemma SetRunsCurrentTemplate(w: World, s: nat)
    requires Ownership.Invariant(w) && Shape(w) && w.pass.Sweeping?
    requires s in w.sets && w.sets[s].ns == w.pass.me.ns && w.sets[s].template.yanet == w.pass.me.name
             && Able(w.sets[s])
    requires forall d :: Mine(w, d) ==> Settled(w.deployments[d])
    ensures exists d :: Mine(w, d) && w.deployments[d].template == w.sets[s].template
  {
    var d :| Home(w, s, d);
    LabelledIsMine(w, d);
    assert Truthful(w, w.deployments[d], w.deployments[d].status);
  }

  /** A settled Deployment is past all its earlier templates. */
  lemma SettledUsesItsTemplate(d: Deployment, t: Template)
    requires Settled(d) && PastIsUnobserved(d) && MayUse(d, t)
    ensures t == d.template
  {
  }

  /** What no template or Pod uses while all rollouts are finished is needed by nothing. */
  lemma UnusedIsUnneeded(w: World, name: string)
    requires Ownership.Invariant(w) && Shape(w) && w.pass.Sweeping?
    requires !InUse(LiveOf(w), w.pass.me, w.pass.y, name) && !RolloutPending(LiveOf(w), w.pass.me, w.pass.y)
    ensures Unneeded(w, name)
  {
    forall d | Mine(w, d) ensures Settled(w.deployments[d]) && !Mentions(w.deployments[d].template.pod, name) {
    }
    forall t | Uses(w, t) ensures !Mentions(t.pod, name) {
      if d :| Mine(w, d) && MayUse(w.deployments[d], t) {
        SettledUsesItsTemplate(w.deployments[d], t);
      } else if s :| s in w.sets && Labelled(w, w.sets[s].ns, t) && Able(w.sets[s]) && w.sets[s].template == t {
        SetRunsCurrentTemplate(w, s);
      }
    }
  }

  lemma SweepDoomsUnneeded(w: World, a: Decision)
    requires Invariant(w) && DecisionEnabled(w, a) && a.Sweep?
    ensures DoomedUnneeded(DecisionNext(w, a))
  {
    var v := DecisionNext(w, a);
    Ownership.DecisionKeepsInvariant(w, a);
    SameObjectsKeepShape(w, v);
    forall c | c in v.pass.doomed ensures Unneeded(v, c.name) {
      assert LiveOf(v) == LiveOf(w) && Disposable(LiveOf(w), w.maps, w.pass.me, w.pass.y, w.pass.maps, c);
      UnusedIsUnneeded(v, c.name);
    }
  }

  /** The pass's own Deployments, Pods and able ReplicaSets bring no new template. */
  lemma NothingNewIsUsed(w: World, v: World)
    requires w.pass.Sweeping? && v.pass == w.pass
    requires forall d, t :: Mine(v, d) && MayUse(v.deployments[d], t) ==> Mine(w, d) && MayUse(w.deployments[d], t)
    requires forall p :: p in v.pods && Labelled(w, v.pods[p].ns, v.pods[p].template) ==> Uses(w, v.pods[p].template)
    requires forall s :: s in v.sets && Labelled(w, v.sets[s].ns, v.sets[s].template) && Able(v.sets[s])
               ==> Uses(w, v.sets[s].template)
    ensures forall t :: Uses(v, t) ==> Uses(w, t)
  {
  }

  /** While ConfigMaps are deleted nobody gives the installation a template it lacked. */
  lemma OthersUseNothingNew(w: World, a: Outside, v: World)
    requires OutsideEnabled(w, a) && v == OutsideNext(w, a) && w.pass.Sweeping?
    ensures v.pass == w.pass && forall t :: Uses(v, t) ==> Uses(w, t)
  {
    forall d, t | Mine(v, d) && MayUse(v.deployments[d], t) ensures Mine(w, d) && MayUse(w.deployments[d], t) {
      if a.ScaleDown? && d == a.d {
        ScalingUsesNothingNew(w.deployments[d], a.replicas, t);
      } else {
        SameUse(v.deployments[d], w.deployments[d], t);
      }
    }
    NothingNewIsUsed(w, v);
  }

  lemma SameUse(a: Deployment, b: Deployment, t: Template)
    requires a == b.(deleting := a.deleting) && MayUse(a, t)
    ensures MayUse(b, t)
  {
    var g :| MayRoll(a, g) && SpecAt(a, g).template == t;
    assert MayRoll(b, g) && SpecAt(b, g).template == t;
  }

  lemma WorkloadUsesNothingNew(w: World, a: Workload, v: World)
    requires WorkloadEnabled(w, a) && v == WorkloadNext(w, a) && w.pass.Sweeping?
    requires a.Roll? && Labelled(w, a.d.ns, SpecAt(w.deployments[a.d], a.g).template) ==> Mine(w, a.d)
    ensures v.pass == w.pass && forall t :: Uses(v, t) ==> Uses(w, t)
  {
    if a.Roll? {
      assert MayUse(w.deployments[a.d], SpecAt(w.deployments[a.d], a.g).template);
    }
    forall d, t | Mine(v, d) && MayUse(v.deployments[d], t) ensures Mine(w, d) && MayUse(w.deployments[d], t) {
      if a.ReportStatus? && d == a.d {
        ReportingUsesNothingNew(w.deployments[d], a.status, t);
      }
    }
    NothingNewIsUsed(w, v);
  }

  lemma DeletingUsesNothingNew(w: World, a: Write, v: World)
    requires WriteEnabled(w, a) && v == WriteNext(w, a) && w.pass.Sweeping?
    ensures v.pass == w.pass && forall t :: Uses(v, t) ==> Uses(w, t)
  {
    assert forall d :: Mine(v, d) <==> Mine(w, d);
    NothingNewIsUsed(w, v);
  }

  lemma NothingNewKeepsUnneeded(w: World, v: World)
    requires DoomedUnneeded(w) && w.pass.Sweeping? && v.pass == w.pass && forall t :: Uses(v, t) ==> Uses(w, t)
    ensures DoomedUnneeded(v)
  {
  }

  lemma SweepingKeepsDoomedUnneeded(w: World, a: Action, v: World)
    requires Invariant(w) && Enabled(w, a) && v == Next(w, a) && w.pass.Sweeping? && v.pass.Sweeping?
    ensures DoomedUnneeded(v)
  {
    match a
    case ByOthers(o) => OthersUseNothingNew(w, o, v); NothingNewKeepsUnneeded(w, v);
    case ByControllers(c) =>
      if c.Roll? && Labelled(w, c.d.ns, SpecAt(w.deployments[c.d], c.g).template) {
        assert PastIsUnobserved(w.deployments[c.d]);
        LabelledIsMine(w, c.d);
      }
      WorkloadUsesNothingNew(w, c, v); NothingNewKeepsUnneeded(w, v);
    case Decide(_) => assert false;
    case Perform(x) => DeletingUsesNothingNew(w, x, v); NothingNewKeepsUnneeded(w, v);
  }

  lemma OnlySweepStartsSweeping(w: World, a: Action, v: World)
    requires Enabled(w, a) && v == Next(w, a) && v.pass.Sweeping?
    ensures w.pass.Sweeping? || (a.Decide? && a.d.Sweep?)
  {
  }

  lemma StepKeepsDoomedUnneeded(w: World, a: Action, v: World)
    requires Invariant(w) && Enabled(w, a) && v == Next(w, a)
    ensures DoomedUnneeded(v)
  {
    if v.pass.Sweeping? {
      OnlySweepStartsSweeping(w, a, v);
    }
    if w.pass.Sweeping? && v.pass.Sweeping? {
      SweepingKeepsDoomedUnneeded(w, a, v);
    } else if v.pass.Sweeping? {
      SweepDoomsUnneeded(w, a.d);
    }
  }

  lemma StepKeepsShape(w: World, a: Action, v: World)
    requires Invariant(w) && Enabled(w, a) && v == Next(w, a)
    ensures Shape(v)
  {
    match a
    case ByOthers(o) => OutsideKeepsShape(w, o, v);
    case ByControllers(c) => WorkloadKeepsShape(w, c, v);
    case Decide(d) => SameObjectsKeepShape(w, v);
    case Perform(x) => WriteKeepsShape(w, x, v);
  }

  lemma StepKeepsInvariant(w: World, a: Action, v: World)
    requires Invariant(w) && Enabled(w, a) && v == Next(w, a)
    ensures Invariant(v)
  {
    Ownership.StepKeepsInvariant(w, a, v);
    StepKeepsShape(w, a, v);
    StepKeepsDoomedUnneeded(w, a, v);
  }

  lemma {:induction false} RunKeepsInvariant(w: World, run: seq<Action>)
    requires Invariant(w) && Valid(w, run)
    ensures Invariant(After(w, run))
    decreases |run|
  {
    if run != [] {
      StepKeepsInvariant(w, run[0], Next(w, run[0]));
      RunKeepsInvariant(Next(w, run[0]), run[1..]);
    }
  }

  /** In every run, a ConfigMap about to be pruned is needed by nothing. */
  lemma PrunedConfigMapsAreUnneeded(run: seq<Action>, c: Key)
    requires Valid(Empty(), run) && Enabled(After(Empty(), run), Perform(DeleteMap(c)))
    ensures Unneeded(After(Empty(), run), c.name)
  {
    EmptyIsInvariant();
    RunKeepsInvariant(Empty(), run);
    DoomedIsUnneeded(After(Empty(), run), c);
  }

  lemma EmptyIsInvariant()
    ensures Invariant(Empty())
  {
  }

  lemma DoomedIsUnneeded(w: World, c: Key)
    requires DoomedUnneeded(w) && WriteEnabled(w, DeleteMap(c))
    ensures Unneeded(w, c.name)
  {
  }
}
