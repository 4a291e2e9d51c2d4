/**
 Nodes change hands. A pass without faults asks for the deletion of every Deployment on nodes the installation no
 longer selects, unless it is turned away: its claim is exclusive but the placement gate is closed for its plan, or
 a planned name is taken. While nobody is turned away, any exchange of selectors among any number of installations
 comes to rest, with the misplaced Deployments as the decreasing measure.
 */
module Handover {
  import opened Cluster
  import opened NodeClaims
  import opened PlacementGate
  import opened Protocol
  import opened Ownership
  import opened WorkloadNames

  // ---- Quiet periods -------------------------------------------------------------------------

  /** What an installation's pass renders while nobody edits it: the plan, in rendering order, and its ConfigMaps. */
  datatype Wanted = Wanted(plan: map<Key, Rendered>, order: seq<Rendered>, maps: set<Key>)

  /** A quiet period: the short hash, the node names in play and what every installation wants. */
  datatype Period = Period(hash: string -> string, inPlay: set<string>, wanted: map<Key, Wanted>)

  ghost predicate Named(p: Period, yanet: string, d: Key, node: string) {
    node in p.inPlay && exists suffix :: d.name == NameFor(p.hash, yanet, node, suffix)
  }

  lemma {:induction false} NamedOnce(p: Period, yanet: string, d: Key, m: string, n: string)
    requires Distinct(p.hash, p.inPlay) && Named(p, yanet, d, m) && Named(p, yanet, d, n)
    ensures m == n
  {
    var s :| d.name == NameFor(p.hash, yanet, m, s);
    var t :| d.name == NameFor(p.hash, yanet, n, t);
    NameTellsNode(p.hash, p.inPlay, yanet, m, n, s, t);
  }

  /** Plans are named after their nodes, and hashes tell the nodes apart. */
  ghost predicate WellNamed(p: Period) {
    && Distinct(p.hash, p.inPlay)
    && forall k, d :: k in p.wanted && d in p.wanted[k].plan ==> Named(p, k.name, d, p.wanted[k].plan[d].template.node)
  }

  /** Nobody edits installations or nodes, or takes a planned name; everything else may happen. */
  predicate Quiet(p: Period, a: Action) {
    a.ByOthers? ==>
      || a.o.ScaleDown? || a.o.RequestDelete? || a.o.FinishDelete?
      || (a.o.CreateForeign? && forall k :: k in p.wanted ==> a.o.d !in p.wanted[k].plan)
  }

  /** No API error, stop or render failure: the step is no fault, and the rendered plan is the wanted one. */
  predicate Faultless(p: Period, w: World, a: Action) {
    a.Decide? ==>
      && !a.d.Fail? && !a.d.Miss?
      && (a.d.Gate? && !w.pass.Idle? ==>
            w.pass.me in p.wanted && p.wanted[w.pass.me] == Wanted(a.d.plan, a.d.order, a.d.maps))
      && (a.d.Refuse? && !w.pass.Idle? ==>
            && w.pass.me in p.wanted
            && p.wanted[w.pass.me].plan == a.d.plan && p.wanted[w.pass.me].order == a.d.order)
  }

  /** The installation selects the node now. */
  ghost predicate Selects(w: World, k: Key, node: string) {
    k in w.yanets && node in w.nodes && Matches(w.yanets[k].selector, w.nodes[node])
  }

  /** The Deployment stands on a node its installation does not select. */
  ghost predicate Misplaced(w: World, d: Key) {
    Owned(w, d) && !Selects(w, OwnerOf(w, d).k, NodeOf(w, d))
  }

  /** A misplaced Deployment whose deletion nobody has asked for. */
  ghost predicate Lingers(w: World, d: Key) {
    Misplaced(w, d) && !w.deployments[d].deleting
  }

  /** Misplaced Deployments of `k` are all being deleted. */
  ghost predicate Leaving(w: World, k: Key) {
    forall d :: Lingers(w, d) ==> OwnerOf(w, d).k != k
  }

  /** The running pass works with the current selector and nodes, and with the wanted plan. */
  ghost predicate PassCurrent(p: Period, w: World) {
    && (!w.pass.Idle? ==> w.pass.me in w.yanets && w.pass.y.selector == w.yanets[w.pass.me].selector
                          && w.pass.y.autoSync && !w.pass.y.deleting)
    && (w.pass.Claiming? || w.pass.Cleared? || w.pass.Applying? || w.pass.Pruning?
        ==> w.pass.nodes == Selected(w.nodes, w.pass.y.selector))
    && (w.pass.Applying? || w.pass.Pruning? ==> w.pass.me in p.wanted && w.pass.plan == p.wanted[w.pass.me].plan)
    && (w.pass.Pruning? || w.pass.Sweeping? ==> !w.pass.final)
    && !w.pass.Unlisting?
  }

  /** Every lingering Deployment of the installation is still ahead of the loop that deletes. */
  ghost predicate LoopCovers(w: World) {
    forall d :: Pending(w, d) ==> d in w.loop.left
  }

  /** A loop that deletes is under way, and the Deployment lingers for its installation. */
  ghost predicate Pending(w: World, d: Key) {
    (w.pass.Pruning? || w.pass.Releasing?) && Lingers(w, d) && OwnerOf(w, d).k == w.pass.me
  }

  ghost predicate DeploymentsNamed(p: Period, w: World) {
    forall d :: Owned(w, d) ==> Named(p, OwnerOf(w, d).k.name, d, NodeOf(w, d))
  }

  ghost predicate AllSynced(w: World) {
    forall k :: k in w.yanets ==> w.yanets[k].autoSync && !w.yanets[k].deleting
  }

  ghost predicate Calm(p: Period, w: World) {
    && WellNamed(p) && Ownership.Invariant(w) && PassCurrent(p, w) && LoopCovers(w) && AllSynced(w)
    && DeploymentsNamed(p, w)
    && (w.pass.Releasing? ==>
          forall d :: Misplaced(w, d) && OwnerOf(w, d).k == w.pass.me ==> NodeOf(w, d) in w.pass.cleanup)
  }

  /** What a quiet step may do to installations and Deployments. */
  ghost predicate Calmer(w: World, v: World) {
    && v.nodes == w.nodes && v.yanets.Keys == w.yanets.Keys
    && (forall k :: k in w.yanets ==> v.yanets[k] == w.yanets[k].(finalizer := v.yanets[k].finalizer))
    && (forall d :: Misplaced(v, d) ==> Misplaced(w, d) && OwnerOf(v, d) == OwnerOf(w, d)
                                        && NodeOf(v, d) == NodeOf(w, d)
                                        && (w.deployments[d].deleting ==> v.deployments[d].deleting))
  }

  /** Controlled Deployments only disappear or are marked. */
  ghost predicate Shrinks(w: World, v: World) {
    && v.nodes == w.nodes && v.yanets == w.yanets && v.pass == w.pass
    && Kept(w, v, {})
    && (forall d :: Owned(v, d) && w.deployments[d].deleting ==> v.deployments[d].deleting)
  }

  lemma {:induction false} ShrinkKeepsCalm(p: Period, w: World, v: World)
    requires Calm(p, w) && Shrinks(w, v) && Ownership.Invariant(v) && LoopCovers(v)
    ensures Calm(p, v) && Calmer(w, v)
  {
    assert forall d :: Misplaced(v, d) ==> Misplaced(w, d);
  }

  lemma {:induction false} OthersShrink(p: Period, w: World, a: Outside, v: World)
    requires OutsideEnabled(w, a) && v == OutsideNext(w, a) && Quiet(p, ByOthers(a))
    ensures Shrinks(w, v) && v.loop == w.loop
  {
  }

  lemma WorkloadShrinks(w: World, a: Workload, v: World)
    requires WorkloadEnabled(w, a) && v == WorkloadNext(w, a)
    ensures Shrinks(w, v) && v.loop == w.loop
  {
  }

  /** A loop turn marks what it passes, or passes what need not be marked. */
  lemma ReleaseShrinks(w: World, a: Write, v: World)
    requires WriteEnabled(w, a) && v == WriteNext(w, a)
    requires a.WriteMap? || a.MarkOrphan? || a.MarkReleased? || a.Drain? || a.DeleteMap?
    ensures Shrinks(w, v)
    ensures w.loop.left - v.loop.left <= (if a.MarkOrphan? || a.MarkReleased? || a.Drain? then {a.d} else {})
    ensures a.MarkOrphan? || a.MarkReleased? ==> v.deployments[a.d].deleting
    ensures a.Drain? ==> !ToRelease(w, a.d)
  {
  }

  lemma ShrinkKeepsLoop(w: World, v: World)
    requires LoopCovers(w) && Shrinks(w, v)
    requires forall d :: Pending(w, d) && Pending(v, d) && d in w.loop.left ==> d in v.loop.left
    ensures LoopCovers(v)
  {
    assert forall d :: Pending(v, d) ==> Pending(w, d);
  }

  lemma {:induction false} ReleaseKeepsCalm(p: Period, w: World, a: Write, v: World)
    requires Calm(p, w) && Ownership.Invariant(v) && WriteEnabled(w, a) && v == WriteNext(w, a)
    requires a.WriteMap? || a.MarkOrphan? || a.MarkReleased? || a.Drain? || a.DeleteMap?
    ensures Calm(p, v) && Calmer(w, v)
  {
    ReleaseShrinks(w, a, v);
    ShrinkKeepsLoop(w, v);
    ShrinkKeepsCalm(p, w, v);
  }

  /** Only finalizers and the pass's position change. */
  lemma {:induction false} SameDeploymentsKeepCalm(p: Period, w: World, v: World)
    requires Calm(p, w) && Ownership.Invariant(v) && PassCurrent(p, v) && LoopCovers(v)
    requires v.deployments == w.deployments && v.nodes == w.nodes && v.yanets.Keys == w.yanets.Keys
    requires forall k :: k in w.yanets ==> v.yanets[k] == w.yanets[k].(finalizer := v.yanets[k].finalizer)
    requires v.pass.Releasing? ==>
               forall d :: Misplaced(v, d) && OwnerOf(v, d).k == v.pass.me ==> NodeOf(v, d) in v.pass.cleanup
    ensures Calm(p, v) && Calmer(w, v)
  {
    assert forall d :: Owned(v, d) <==> Owned(w, d);
  }

  lemma {:induction false} AddFinalizerKeepsCalm(p: Period, w: World, v: World)
    requires Calm(p, w) && WriteEnabled(w, AddFinalizer) && v == WriteNext(w, AddFinalizer)
    requires Ownership.Invariant(v)
    ensures Calm(p, v) && Calmer(w, v)
  {
    assert v.yanets.Keys == w.yanets.Keys;
    SameDeploymentsKeepCalm(p, w, v);
  }

  /** A Deployment of the running installation is controlled by this very instance. */
  lemma OwnedByMeIsMine(w: World, d: Key)
    requires Ownership.Invariant(w) && !w.pass.Idle? && !w.pass.Enlisting? && Owned(w, d)
             && OwnerOf(w, d).k == w.pass.me
    ensures Mine(w, d)
  {
    assert Enlisted(w, OwnerOf(w, d)) && Enlisted(w, Current(w.pass));
  }

  /** A refused pass cleans up every node it abandoned. */
  lemma {:induction false} RefusedPassCleansUp(p: Period, w: World)
    requires Calm(p, w) && w.pass.Claiming? && DecisionNext(w, Validate).pass.Releasing?
    ensures forall d :: Misplaced(w, d) && OwnerOf(w, d).k == w.pass.me ==>
              NodeOf(w, d) in DecisionNext(w, Validate).pass.cleanup
  {
    var l := ListingOf(w, w.pass.nodes);
    forall d | Misplaced(w, d) && OwnerOf(w, d).k == w.pass.me
      ensures NodeOf(w, d) in DecisionNext(w, Validate).pass.cleanup
    {
      OwnedByMeIsMine(w, d);
      assert HasWorkload(l, w.pass.me, w.pass.y, NodeOf(w, d));
      assert Abandoned(l, w.pass.me, w.pass.y, NodeOf(w, d));
    }
  }

  /** A lingering Deployment is not planned: its name tells a node that is not selected. */
  lemma {:induction false} LingeringIsUnplanned(p: Period, w: World, d: Key)
    requires Calm(p, w) && (w.pass.Applying? || w.pass.Pruning?) && Misplaced(w, d) && OwnerOf(w, d).k == w.pass.me
    ensures d !in w.pass.plan
  {
    if d in w.pass.plan {
      NamedOnce(p, w.pass.me.name, d, NodeOf(w, d), w.pass.plan[d].template.node);
    }
  }

  /** What the loop passes over does not linger. */
  lemma {:induction false} VisitedDoesNotLinger(p: Period, w: World, d: Key)
    requires Calm(p, w) && DecisionEnabled(w, Visit(d)) && (w.pass.Pruning? || w.pass.Releasing?)
    requires Lingers(w, d)
    ensures OwnerOf(w, d).k != w.pass.me
  {
    if OwnerOf(w, d).k == w.pass.me {
      OwnedByMeIsMine(w, d);
      if w.pass.Pruning? {
        LingeringIsUnplanned(p, w, d);
        assert OrphanDue(w, d);
      } else {
        assert ReleaseDue(w, d);
      }
    }
  }

  lemma {:induction false} DecisionKeepsLoop(p: Period, w: World, a: Decision, v: World)
    requires Calm(p, w) && DecisionEnabled(w, a) && v == DecisionNext(w, a) && Faultless(p, w, Decide(a))
    ensures LoopCovers(v)
  {
    assert forall d :: Owned(v, d) <==> Owned(w, d);
    forall d | Pending(v, d) ensures d in v.loop.left {
      if a.Visit? {
        assert Pending(w, d);
        if d == a.d {
          VisitedDoesNotLinger(p, w, d);
        }
      }
    }
  }

  lemma {:induction false} DecisionKeepsCalm(p: Period, w: World, a: Decision, v: World)
    requires Calm(p, w) && DecisionEnabled(w, a) && v == DecisionNext(w, a) && Faultless(p, w, Decide(a))
    ensures Calm(p, v) && Calmer(w, v)
  {
    Ownership.DecisionKeepsInvariant(w, a);
    DecisionKeepsLoop(p, w, a, v);
    assert forall d :: Misplaced(v, d) <==> Misplaced(w, d);
    if a.Validate? && v.pass.Releasing? {
      RefusedPassCleansUp(p, w);
    }
    SameDeploymentsKeepCalm(p, w, v);
  }

  /** What the pass writes is its own and stands where the plan says. */
  lemma WrittenIsPlanned(w: World, a: Write, v: World)
    requires Ownership.Invariant(w) && WriteEnabled(w, a) && v == WriteNext(w, a) && a.WriteDeployment?
    ensures v.pass == w.pass && v.nodes == w.nodes && v.yanets == w.yanets
    ensures Owned(v, a.d) && OwnerOf(v, a.d) == Current(w.pass) && NodeOf(v, a.d) == w.pass.plan[a.d].template.node
    ensures NodeOf(v, a.d) in w.pass.nodes
    ensures forall d :: d != a.d && Owned(v, d) ==> Owned(w, d) && v.deployments[d] == w.deployments[d]
  {
  }

  lemma {:induction false} WriteKeepsCalm(p: Period, w: World, a: Write, v: World)
    requires Calm(p, w) && Ownership.Invariant(v)
    requires WriteEnabled(w, a) && v == WriteNext(w, a) && a.WriteDeployment?
    ensures Calm(p, v) && Calmer(w, v)
  {
    WrittenIsPlanned(w, a, v);
    assert !Misplaced(v, a.d);
  }

  lemma {:induction false} StepKeepsCalm(p: Period, w: World, a: Action, v: World)
    requires Calm(p, w) && Enabled(w, a) && v == Next(w, a) && Quiet(p, a) && Faultless(p, w, a)
    ensures Calm(p, v) && Calmer(w, v)
  {
    Ownership.StepKeepsInvariant(w, a, v);
    match a
    case ByOthers(o) => OthersShrink(p, w, o, v); ShrinkKeepsLoop(w, v); ShrinkKeepsCalm(p, w, v);
    case ByControllers(c) => WorkloadShrinks(w, c, v); ShrinkKeepsLoop(w, v); ShrinkKeepsCalm(p, w, v);
    case Decide(d) => DecisionKeepsCalm(p, w, d, v);
    case Perform(x) =>
      if x.WriteDeployment? {
        WriteKeepsCalm(p, w, x, v);
      } else if x.AddFinalizer? {
        AddFinalizerKeepsCalm(p, w, v);
      } else {
        ReleaseKeepsCalm(p, w, x, v);
      }
  }

  /** The loop of an applying pass runs over its plan. */
  ghost predicate Applicable(p: Period, w: World) {
    w.pass.Applying? ==>
      && w.loop.left <= w.pass.plan.Keys && w.loop.leftMaps <= w.pass.maps
      && w.pass.me in p.wanted && w.pass.maps == p.wanted[w.pass.me].maps
  }

  lemma {:induction false} DecisionStaysApplicable(p: Period, w: World, a: Decision, v: World)
    requires Applicable(p, w) && DecisionEnabled(w, a) && v == DecisionNext(w, a) && Faultless(p, w, Decide(a))
    ensures Applicable(p, v)
  {
  }

  lemma {:induction false} WriteStaysApplicable(p: Period, w: World, a: Write, v: World)
    requires Applicable(p, w) && WriteEnabled(w, a) && v == WriteNext(w, a)
    ensures Applicable(p, v) && (w.pass.Applying? ==> v.loop.failed == w.loop.failed)
  {
  }

  lemma {:induction false} StaysApplicable(p: Period, w: World, a: Action, v: World)
    requires Applicable(p, w) && Leads(w, a, v) && Faultless(p, w, a)
    ensures Applicable(p, v)
  {
    match a
    case Decide(d) => DecisionStaysApplicable(p, w, d, v);
    case Perform(x) => WriteStaysApplicable(p, w, x, v);
    case _ =>
  }

  // ---- Passes that are not turned away -----------------------------------------------------------

  /** The pass ends without having released anything: a closed gate, or a planned name that is taken. */
  predicate TurnedAway(w: World, a: Action) {
    (a.Decide? && a.d.Refuse?) || (a == Decide(EndApply) && w.loop.failed)
  }

  /** No planned Deployment or ConfigMap name is taken. */
  ghost predicate NamesFree(p: Period, w: World, k: Key)
    requires k in w.yanets && k in p.wanted
  {
    && (forall d :: d in p.wanted[k].plan ==> !HeldByOther(w, k, w.yanets[k], d))
    && (forall c :: c in p.wanted[k].maps ==> !MapHeldByOther(w, k, w.yanets[k], c))
  }

  /** The pass stands before a closed gate, or a name it still has to apply is taken. */
  ghost predicate Hindered(p: Period, w: World) {
    || (w.pass.Cleared? && w.pass.me in p.wanted && !GateOpen(LiveOf(w), w.pass.me, p.wanted[w.pass.me].order))
    || (w.pass.Applying? && (w.loop.failed || (exists d :: d in w.loop.left && Taken(w, d))
                             || (exists c :: c in w.loop.leftMaps && MapTaken(w, c))))
  }

  lemma {:induction false} UnhinderedGoesOn(p: Period, w: World, a: Action)
    requires Enabled(w, a) && Faultless(p, w, a) && !Hindered(p, w)
    ensures !TurnedAway(w, a)
  {
  }

  /** The pass of `k` is under way and has not come to the end of its loop. */
  predicate Owes(w: World, k: Key) {
    && (w.pass.Claiming? || w.pass.Cleared? || w.pass.Applying? || w.pass.Pruning? || w.pass.Releasing?)
    && w.pass.me == k
  }

  /** The loop that deletes has passed every item, so nothing of the installation lingers. */
  lemma {:induction false} CompletedPassLeaves(p: Period, w: World, a: Decision)
    requires Calm(p, w) && DecisionEnabled(w, a) && (a.Sweep? || a.FinishRelease?)
    ensures Leaving(w, w.pass.me)
  {
    forall d | Lingers(w, d) ensures OwnerOf(w, d).k != w.pass.me {
      assert !Pending(w, d);
    }
  }

  lemma LeavingStays(w: World, v: World, k: Key)
    requires Calmer(w, v) && Leaving(w, k)
    ensures Leaving(v, k)
  {
    forall d | Lingers(v, d) ensures OwnerOf(v, d).k != k {
      assert Lingers(w, d);
    }
  }

  /** A pass that begins owes the release, unless the installation has nothing yet. */
  lemma {:induction false} BeginningOwes(p: Period, w: World, k: Key, v: World)
    requires Calm(p, w) && Leads(w, Decide(Begin(k)), v)
    ensures Owes(v, k) || Leaving(w, k)
  {
    if !w.yanets[k].finalizer {
      forall d | Lingers(w, d) ensures OwnerOf(w, d).k != k {
        assert Enlisted(w, OwnerOf(w, d));
      }
    }
  }

  /** Until it is done, a pass that is not turned away keeps owing. */
  lemma {:induction false} OwingGoesOn(p: Period, w: World, a: Action, v: World, k: Key)
    requires Calm(p, w) && Leads(w, a, v) && Quiet(p, a) && Faultless(p, w, a) && !TurnedAway(w, a) && Owes(w, k)
    ensures Owes(v, k) || Leaving(w, k)
  {
    match a
    case Decide(d) => DecisionOwes(p, w, d, v, k);
    case Perform(x) => assert v == WriteNext(w, x);
    case _ =>
  }

  lemma {:induction false} DecisionOwes(p: Period, w: World, a: Decision, v: World, k: Key)
    requires Calm(p, w) && DecisionEnabled(w, a) && v == DecisionNext(w, a) && Faultless(p, w, Decide(a))
    requires !TurnedAway(w, Decide(a)) && Owes(w, k)
    ensures Owes(v, k) || Leaving(w, k)
  {
    if a.Sweep? || a.FinishRelease? {
      CompletedPassLeaves(p, w, a);
    }
  }

  lemma {:induction false} StepServes(p: Period, w: World, a: Action, v: World, k: Key)
    requires Calm(p, w) && Leads(w, a, v) && Quiet(p, a) && Faultless(p, w, a) && !TurnedAway(w, a)
    ensures Calm(p, v) && Calmer(w, v)
    ensures Leaving(w, k) || Owes(w, k) || a == Decide(Begin(k)) ==> Leaving(v, k) || Owes(v, k)
  {
    StepKeepsCalm(p, w, a, v);
    if Owes(w, k) {
      OwingGoesOn(p, w, a, v, k);
    } else if a == Decide(Begin(k)) {
      BeginningOwes(p, w, k, v);
    }
    if Leaving(w, k) {
      LeavingStays(w, v, k);
    }
  }

  // ---- Runs ------------------------------------------------------------------------------------------

  /** A quiet run without faults in which nobody is hindered. */
  ghost predicate SmoothRun(p: Period, w: World, run: seq<Action>)
    requires Valid(w, run)
    decreases |run|
  {
    && !Hindered(p, w)
    && (run != [] ==> Quiet(p, run[0]) && Faultless(p, w, run[0]) && SmoothRun(p, Next(w, run[0]), run[1..]))
  }

  lemma CalmerIsTransitive(u: World, v: World, w: World)
    requires Calmer(u, v) && Calmer(v, w)
    ensures Calmer(u, w)
  {
  }

  /** Misplaced Deployments never appear, and an installation whose pass has ended in the run is leaving. */
  lemma {:induction false} SmoothRunServes(p: Period, w: World, run: seq<Action>, k: Key)
    requires Calm(p, w) && Valid(w, run) && SmoothRun(p, w, run)
    ensures Calm(p, After(w, run)) && Calmer(w, After(w, run))
    ensures Leaving(w, k) || Owes(w, k) || Decide(Begin(k)) in run
            ==> Leaving(After(w, run), k) || Owes(After(w, run), k)
    decreases |run|
  {
    if run != [] {
      var a, v := run[0], Next(w, run[0]);
      UnhinderedGoesOn(p, w, a);
      StepServes(p, w, a, v, k);
      SmoothRunServes(p, v, run[1..], k);
      CalmerIsTransitive(w, v, After(v, run[1..]));
      assert Decide(Begin(k)) in run ==> a == Decide(Begin(k)) || Decide(Begin(k)) in run[1..];
    }
  }

  /** A run that ends idle and in which every installation had its turn. */
  ghost predicate Round(p: Period, w: World, run: seq<Action>) {
    && Valid(w, run) && SmoothRun(p, w, run) && After(w, run).pass.Idle?
    && forall k :: k in w.yanets ==> Decide(Begin(k)) in run
  }

  /** After a round nothing lingers: every misplaced Deployment is being deleted. */
  lemma {:induction false} RoundLeavesNothingLingering(p: Period, w: World, run: seq<Action>)
    requires Calm(p, w) && Round(p, w, run)
    ensures Calm(p, After(w, run)) && Calmer(w, After(w, run)) && forall d :: !Lingers(After(w, run), d)
  {
    var v := After(w, run);
    SmoothRunServes(p, w, run, Key("", ""));
    forall d | Lingers(v, d) ensures false {
      var k := OwnerOf(v, d).k;
      assert Enlisted(v, OwnerOf(v, d)) && k in w.yanets;
      SmoothRunServes(p, w, run, k);
    }
  }

  // ---- The measure -------------------------------------------------------------------------------------

  ghost function MisplacedOnes(w: World): set<Key> {
    set d | d in w.deployments && Misplaced(w, d)
  }

  lemma {:induction false} Smaller(a: set<Key>, b: set<Key>)
    requires a <= b
    ensures |a| <= |b|
  {
    assert b == a + (b - a);
  }

  lemma CalmerMisplacesLess(w: World, v: World)
    requires Calmer(w, v)
    ensures MisplacedOnes(v) <= MisplacedOnes(w)
  {
  }

  /** A quiet step never adds a misplaced Deployment; finishing a deletion removes it. */
  lemma {:induction false} MisplacedDecreases(p: Period, w: World, a: Action, v: World)
    requires Calm(p, w) && Leads(w, a, v) && Quiet(p, a) && Faultless(p, w, a)
    ensures MisplacedOnes(v) <= MisplacedOnes(w) && |MisplacedOnes(v)| <= |MisplacedOnes(w)|
    ensures a.ByOthers? && a.o.FinishDelete? && Misplaced(w, a.o.d) ==> |MisplacedOnes(v)| < |MisplacedOnes(w)|
  {
    StepKeepsCalm(p, w, a, v);
    CalmerMisplacesLess(w, v);
    Smaller(MisplacedOnes(v), MisplacedOnes(w));
    if a.ByOthers? && a.o.FinishDelete? && Misplaced(w, a.o.d) {
      FinishingRemoves(w, a.o, v);
      assert MisplacedOnes(v) <= MisplacedOnes(w) - {a.o.d};
      Smaller(MisplacedOnes(v), MisplacedOnes(w) - {a.o.d});
    }
  }

  lemma FinishingRemoves(w: World, o: Outside, v: World)
    requires o.FinishDelete? && OutsideEnabled(w, o) && v == OutsideNext(w, o)
    ensures o.d !in MisplacedOnes(v)
  {
  }

  /** The deletion of some misplaced Deployment finishes during the run. */
  ghost predicate FinishesOne(w: World, run: seq<Action>)
    requires Valid(w, run)
    decreases |run|
  {
    run != [] && ((run[0].ByOthers? && run[0].o.FinishDelete? && Misplaced(w, run[0].o.d))
                  || FinishesOne(Next(w, run[0]), run[1..]))
  }

  lemma {:induction false} RunDecreases(p: Period, w: World, run: seq<Action>)
    requires Calm(p, w) && Valid(w, run) && SmoothRun(p, w, run)
    ensures |MisplacedOnes(After(w, run))| <= |MisplacedOnes(w)|
    ensures FinishesOne(w, run) ==> |MisplacedOnes(After(w, run))| < |MisplacedOnes(w)|
    decreases |run|
  {
    if run != [] {
      var a, v := run[0], Next(w, run[0]);
      MisplacedDecreases(p, w, a, v);
      StepKeepsCalm(p, w, a, v);
      RunDecreases(p, v, run[1..]);
    }
  }

  /** If only deletions under way are left, one of them finishes during the round. */
  ghost predicate Fair(w: World, run: seq<Action>)
    requires Valid(w, run)
  {
    MisplacedOnes(w) != {} && (forall d :: !Lingers(w, d)) ==> FinishesOne(w, run)
  }

  /** Round after round. */
  ghost predicate Rounds(p: Period, w: World, rounds: seq<seq<Action>>)
    decreases |rounds|
  {
    rounds == [] || (Round(p, w, rounds[0]) && Fair(w, rounds[0]) && Rounds(p, After(w, rounds[0]), rounds[1..]))
  }

  ghost function AfterRounds(p: Period, w: World, rounds: seq<seq<Action>>): World
    requires Rounds(p, w, rounds)
    decreases |rounds|
  {
    if rounds == [] then w else AfterRounds(p, After(w, rounds[0]), rounds[1..])
  }

  /** Once nothing lingers, every round takes at least one misplaced Deployment away. */
  lemma {:induction false} RoundsEmptyTheMeasure(p: Period, w: World, rounds: seq<seq<Action>>)
    requires Calm(p, w) && Rounds(p, w, rounds) && (forall d :: !Lingers(w, d)) && |rounds| >= |MisplacedOnes(w)|
    ensures Calm(p, AfterRounds(p, w, rounds)) && Calmer(w, AfterRounds(p, w, rounds))
    ensures MisplacedOnes(AfterRounds(p, w, rounds)) == {}
    decreases |rounds|
  {
    if rounds != [] {
      var v := After(w, rounds[0]);
      RoundLeavesNothingLingering(p, w, rounds[0]);
      RunDecreases(p, w, rounds[0]);
      RoundsEmptyTheMeasure(p, v, rounds[1..]);
      CalmerIsTransitive(w, v, AfterRounds(p, v, rounds[1..]));
    }
  }

  // ---- At rest -----------------------------------------------------------------------------------------

  /** No node is selected twice. */
  ghost predicate SelectorsDisjoint(w: World) {
    forall j, k, n :: Selects(w, j, n) && Selects(w, k, n) ==> j == k
  }

  /** At rest with disjoint selectors, no pass is refused. */
  lemma {:induction false} NobodyIsRefused(p: Period, w: World)
    requires Calm(p, w) && SelectorsDisjoint(w) && w.pass.Claiming?
    requires forall d :: !Misplaced(w, d)
    ensures Exclusive(ListingOf(w, w.pass.nodes), w.pass.me, w.pass.y)
  {
    var l, me := ListingOf(w, w.pass.nodes), w.pass.me;
    forall other, n | Blocks(l, me, w.pass.y, other, n) ensures false {
      assert Selects(w, me, n);
      ClaimantSelects(p, w, other, n);
    }
  }

  lemma {:induction false} ClaimantSelects(p: Period, w: World, k: Key, n: string)
    requires w.pass.Claiming? && PassCurrent(p, w) && k in w.yanets && n in w.pass.nodes
    requires forall d :: !Misplaced(w, d)
    requires Claims(ListingOf(w, w.pass.nodes), k, w.yanets[k], n)
    ensures Selects(w, k, n)
  {
    if d :| d in w.deployments && Controls(k, w.yanets[k], d, w.deployments[d].owner)
            && w.deployments[d].template.node == n {
      assert Owned(w, d) && !Misplaced(w, d);
    }
  }

  // ---- Histories ---------------------------------------------------------------------------------------

  ghost predicate PlanNamed(p: Period, w: World) {
    w.pass.Applying? ==>
      forall d :: d in w.pass.plan ==> Named(p, w.pass.me.name, d, w.pass.plan[d].template.node)
  }

  /** Every plan of the run is named after its nodes. */
  ghost predicate PlansNamed(p: Period, w: World, run: seq<Action>)
    requires Valid(w, run)
    decreases |run|
  {
    && PlanNamed(p, w)
    && (run != [] ==> PlansNamed(p, Next(w, run[0]), run[1..]))
  }

  lemma EditsKeep(w: World, a: Outside, v: World)
    requires OutsideEnabled(w, a) && v == OutsideNext(w, a)
    ensures Kept(w, v, {})
  {
  }

  lemma WritesKeep(w: World, a: Write, v: World)
    requires WriteEnabled(w, a) && v == WriteNext(w, a) && !a.WriteDeployment?
    ensures Kept(w, v, {})
  {
    if a.AddFinalizer? || a.RemoveFinalizer? {
      assert v.deployments == w.deployments;
    } else {
      ReleaseShrinks(w, a, v);
    }
  }

  lemma {:induction false} StepKeepsNamed(p: Period, w: World, a: Action, v: World)
    requires Ownership.Invariant(w) && DeploymentsNamed(p, w) && Leads(w, a, v)
    requires PlanNamed(p, w)
    ensures DeploymentsNamed(p, v)
  {
    match a
    case ByOthers(o) => EditsKeep(w, o, v); KeptStaysNamed(p, w, v);
    case ByControllers(c) => WorkloadShrinks(w, c, v); KeptStaysNamed(p, w, v);
    case Decide(_) => KeptStaysNamed(p, w, v);
    case Perform(x) =>
      if x.WriteDeployment? {
        WrittenIsNamed(p, w, x, v);
      } else {
        WritesKeep(w, x, v);
        KeptStaysNamed(p, w, v);
      }
  }

  lemma {:induction false} KeptStaysNamed(p: Period, w: World, v: World)
    requires DeploymentsNamed(p, w) && Kept(w, v, {})
    ensures DeploymentsNamed(p, v)
  {
  }

  lemma {:induction false} WrittenIsNamed(p: Period, w: World, a: Write, v: World)
    requires Ownership.Invariant(w) && DeploymentsNamed(p, w) && PlanNamed(p, w)
    requires WriteEnabled(w, a) && v == WriteNext(w, a) && a.WriteDeployment?
    ensures DeploymentsNamed(p, v)
  {
    WrittenIsPlanned(w, a, v);
  }

  lemma {:induction false} RunKeepsNamed(p: Period, w: World, run: seq<Action>)
    requires Ownership.Invariant(w) && DeploymentsNamed(p, w) && Valid(w, run) && PlansNamed(p, w, run)
    ensures Ownership.Invariant(After(w, run)) && DeploymentsNamed(p, After(w, run))
    decreases |run|
  {
    if run != [] {
      Ownership.StepKeepsInvariant(w, run[0], Next(w, run[0]));
      StepKeepsNamed(p, w, run[0], Next(w, run[0]));
      RunKeepsNamed(p, Next(w, run[0]), run[1..]);
    }
  }

  /**
   Whatever happened before, in particular any cyclic exchange of selectors: when selectors are disjoint, nobody edits
   them, no pass fails, no gate is closed and no planned name taken, then after more rounds than there are misplaced
   Deployments nothing is misplaced ever after, and no pass is refused.
   */
  lemma {:induction false} ExchangesTerminate(p: Period, history: seq<Action>, rounds: seq<seq<Action>>,
                                              later: seq<Action>)
    requires WellNamed(p) && Valid(Empty(), history) && PlansNamed(p, Empty(), history)
    requires var w := After(Empty(), history);
             && w.pass.Idle? && AllSynced(w) && SelectorsDisjoint(w)
             && Rounds(p, w, rounds) && |rounds| > |MisplacedOnes(w)|
             && Valid(AfterRounds(p, w, rounds), later) && SmoothRun(p, AfterRounds(p, w, rounds), later)
    ensures var u := After(AfterRounds(p, After(Empty(), history), rounds), later);
            && (forall d :: !Misplaced(u, d))
            && (u.pass.Claiming? ==> Exclusive(ListingOf(u, u.pass.nodes), u.pass.me, u.pass.y))
  {
    var w := After(Empty(), history);
    RunKeepsNamed(p, Empty(), history);
    assert Calm(p, w);
    FirstRoundThenRest(p, w, rounds);
    var v := AfterRounds(p, w, rounds);
    SmoothRunServes(p, v, later, Key("", ""));
    RestStays(p, w, v, After(v, later));
  }

  lemma {:induction false} FirstRoundThenRest(p: Period, w: World, rounds: seq<seq<Action>>)
    requires Calm(p, w) && Rounds(p, w, rounds) && |rounds| > |MisplacedOnes(w)|
    ensures Calm(p, AfterRounds(p, w, rounds)) && Calmer(w, AfterRounds(p, w, rounds))
    ensures MisplacedOnes(AfterRounds(p, w, rounds)) == {}
  {
    var v := After(w, rounds[0]);
    RoundLeavesNothingLingering(p, w, rounds[0]);
    RunDecreases(p, w, rounds[0]);
    RoundsEmptyTheMeasure(p, v, rounds[1..]);
    CalmerIsTransitive(w, v, AfterRounds(p, v, rounds[1..]));
  }

  lemma {:induction false} RestStays(p: Period, w: World, v: World, u: World)
    requires SelectorsDisjoint(w) && Calmer(w, v) && Calm(p, u) && Calmer(v, u) && MisplacedOnes(v) == {}
    ensures forall d :: !Misplaced(u, d)
    ensures u.pass.Claiming? ==> Exclusive(ListingOf(u, u.pass.nodes), u.pass.me, u.pass.y)
  {
    forall d ensures !Misplaced(u, d) {
      assert Misplaced(v, d) ==> d in MisplacedOnes(v);
    }
    CalmerIsTransitive(w, v, u);
    assert forall k, n :: Selects(u, k, n) ==> Selects(w, k, n);
    if u.pass.Claiming? {
      NobodyIsRefused(p, u);
    }
  }
}
