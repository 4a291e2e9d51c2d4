/**
 When exactly a pass releases: one pass of an installation, without faults and with nothing happening in between,
 ends with every misplaced Deployment marked if and only if that was so before, its claim is refused, or the placement
 gate is open for its plan and no planned name is taken.
 */
module SoloPass {
  import opened Cluster
  import opened NodeClaims
  import opened PlacementGate
  import opened Protocol
  import opened Ownership
  import opened Handover

  /** A step the pass itself takes, without a fault, once it is under way. */
  predicate OwnStep(p: Period, w: World, a: Action) {
    (a.Decide? || a.Perform?) && !(a.Decide? && a.d.Begin?) && Faultless(p, w, a)
  }

  /** The pass on its own. */
  ghost predicate SoloRun(p: Period, w: World, run: seq<Action>)
    requires Valid(w, run)
    decreases |run|
  {
    run != [] ==> OwnStep(p, w, run[0]) && SoloRun(p, Next(w, run[0]), run[1..])
  }

  // ---- What the start decides ----------------------------------------------------------------------

  /** The claim of the installation passes. */
  ghost predicate ClaimPasses(w: World, k: Key)
    requires k in w.yanets
  {
    Exclusive(ListingOf(w, Selected(w.nodes, w.yanets[k].selector)), k, w.yanets[k])
  }

  ghost predicate GatePasses(p: Period, w: World, k: Key)
    requires k in p.wanted
  {
    GateOpen(LiveOf(w), k, p.wanted[k].order)
  }

  /** Deployments outside the plan are untouched. */
  ghost predicate Unmoved(p: Period, w: World, u: World, k: Key)
    requires k in p.wanted
  {
    forall d :: d !in p.wanted[k].plan ==>
      (d in u.deployments <==> d in w.deployments) && (d in w.deployments ==> u.deployments[d] == w.deployments[d])
  }

  /** Nobody's names have changed hands. */
  ghost predicate SameHolders(p: Period, w: World, u: World, k: Key)
    requires k in w.yanets && k in p.wanted
  {
    var y := w.yanets[k];
    && (forall d :: d in p.wanted[k].plan ==> (HeldByOther(u, k, y, d) <==> HeldByOther(w, k, y, d)))
    && (forall c :: c in p.wanted[k].maps ==> (MapHeldByOther(u, k, y, c) <==> MapHeldByOther(w, k, y, c)))
  }

  /** The names already applied tell whether the loop has failed. */
  ghost predicate FailedSoFar(p: Period, w: World, loop: Loop, k: Key)
    requires k in w.yanets && k in p.wanted
  {
    || (exists d :: d in p.wanted[k].plan && d !in loop.left && HeldByOther(w, k, w.yanets[k], d))
    || (exists c :: c in p.wanted[k].maps && c !in loop.leftMaps && MapHeldByOther(w, k, w.yanets[k], c))
  }

  // ---- Where the pass stands --------------------------------------------------------------------------

  /** Nothing has been written. */
  ghost predicate Untouched(w: World, u: World) {
    u == w.(pass := u.pass, loop := u.loop)
  }

  ghost predicate InApply(p: Period, w: World, u: World, k: Key)
    requires k in w.yanets && k in p.wanted
  {
    && u.pass.Applying? && u.pass.maps == p.wanted[k].maps && u.pass.plan == p.wanted[k].plan
    && u.yanets == w.yanets && ClaimPasses(w, k) && GatePasses(p, w, k)
    && u.loop.left <= u.pass.plan.Keys && u.loop.leftMaps <= u.pass.maps
    && Unmoved(p, w, u, k) && SameHolders(p, w, u, k)
    && (u.loop.failed <==> FailedSoFar(p, w, u.loop, k))
  }

  /** The pass ended early: it was turned away. */
  ghost predicate Barred(p: Period, w: World, u: World, k: Key)
    requires k in w.yanets && k in p.wanted
  {
    && u.pass.Idle? && ClaimPasses(w, k) && !(GatePasses(p, w, k) && NamesFree(p, w, k)) && Unmoved(p, w, u, k)
    && forall d :: d in p.wanted[k].plan ==> Selects(w, k, p.wanted[k].plan[d].template.node)
  }

  /** The way is open, or the claim is refused. */
  ghost predicate Due(p: Period, w: World, k: Key)
    requires k in w.yanets && k in p.wanted
  {
    !ClaimPasses(w, k) || (GatePasses(p, w, k) && NamesFree(p, w, k))
  }

  ghost predicate Stands(p: Period, w: World, u: World, k: Key)
    requires k in w.yanets && k in p.wanted
  {
    && (!u.pass.Idle? ==> u.pass.me == k && u.pass.y == w.yanets[k])
    && match u.pass {
         case Idle => Barred(p, w, u, k) || (Leaving(u, k) && (Due(p, w, k) || Leaving(w, k)))
         case Enlisting(_, _) => Leaving(u, k) && Leaving(w, k)
         case Claiming(_, _, nodes) => Untouched(w, u) && nodes == Selected(w.nodes, w.yanets[k].selector)
         case Cleared(_, _, nodes) =>
           Untouched(w, u) && nodes == Selected(w.nodes, w.yanets[k].selector) && ClaimPasses(w, k)
         case Releasing(_, _, _) => Due(p, w, k)
         case Applying(_, _, _, _, _) => InApply(p, w, u, k)
         case Pruning(_, _, _, _, _, _) => Due(p, w, k)
         case Sweeping(_, _, _, _) => Due(p, w, k) && Leaving(u, k)
         case Unlisting(_, _) => false
       }
  }

  // ---- One step ---------------------------------------------------------------------------------------

  lemma {:induction false} ClaimingStep(p: Period, w: World, u: World, a: Action, v: World, k: Key)
    requires k in w.yanets && k in p.wanted && w.yanets[k].autoSync && Stands(p, w, u, k) && u.pass.Claiming?
    requires OwnStep(p, u, a) && Leads(u, a, v)
    ensures Stands(p, w, v, k)
  {
    assert a == Decide(Validate);
    assert ListingOf(u, u.pass.nodes) == ListingOf(w, u.pass.nodes);
  }

  lemma {:induction false} GateStepStands(p: Period, w: World, u: World, a: Decision, v: World, k: Key)
    requires k in w.yanets && k in p.wanted && Stands(p, w, u, k) && u.pass.Cleared?
    requires OwnStep(p, u, Decide(a)) && DecisionEnabled(u, a) && v == DecisionNext(u, a) && a.Gate?
    ensures Stands(p, w, v, k)
  {
    assert LiveOf(u) == LiveOf(w);
  }

  lemma {:induction false} RefuseStepStands(p: Period, w: World, u: World, a: Decision, v: World, k: Key)
    requires k in w.yanets && k in p.wanted && Stands(p, w, u, k) && u.pass.Cleared?
    requires OwnStep(p, u, Decide(a)) && DecisionEnabled(u, a) && v == DecisionNext(u, a) && a.Refuse?
    ensures Stands(p, w, v, k)
  {
    assert LiveOf(u) == LiveOf(w);
    assert Barred(p, w, v, k);
  }

  /** A write of the pass's own changes no holder. */
  lemma {:induction false} WriteInApply(p: Period, w: World, u: World, d: Key, v: World, k: Key)
    requires k in w.yanets && k in p.wanted && InApply(p, w, u, k) && u.pass.me == k && u.pass.y == w.yanets[k]
    requires PlanInside(u.pass) && WriteEnabled(u, WriteDeployment(d)) && v == WriteNext(u, WriteDeployment(d))
    ensures InApply(p, w, v, k)
  {
    assert !HeldByOther(u, k, w.yanets[k], d) && !HeldByOther(v, k, w.yanets[k], d);
    forall e ensures HeldByOther(v, k, w.yanets[k], e) <==> HeldByOther(u, k, w.yanets[k], e) {
    }
    forall c ensures MapHeldByOther(v, k, w.yanets[k], c) <==> MapHeldByOther(u, k, w.yanets[k], c) {
    }
    PassedOver(p, w, u, v, k, d);
  }

  /** Passing an item nobody else holds changes nothing about failure. */
  lemma {:induction false} PassedOver(p: Period, w: World, u: World, v: World, k: Key, d: Key)
    requires k in w.yanets && k in p.wanted && (u.loop.failed <==> FailedSoFar(p, w, u.loop, k))
    requires (v.loop == Visited(u.loop, d) && !HeldByOther(w, k, w.yanets[k], d))
             || (v.loop == u.loop.(leftMaps := u.loop.leftMaps - {d}) && !MapHeldByOther(w, k, w.yanets[k], d))
    ensures v.loop.failed <==> FailedSoFar(p, w, v.loop, k)
  {
  }

  lemma {:induction false} WriteMapInApply(p: Period, w: World, u: World, c: Key, v: World, k: Key)
    requires k in w.yanets && k in p.wanted && InApply(p, w, u, k) && u.pass.me == k && u.pass.y == w.yanets[k]
    requires WriteEnabled(u, WriteMap(c)) && v == WriteNext(u, WriteMap(c))
    ensures InApply(p, w, v, k)
  {
    assert !MapHeldByOther(u, k, w.yanets[k], c) && !MapHeldByOther(v, k, w.yanets[k], c);
    forall e ensures MapHeldByOther(v, k, w.yanets[k], e) <==> MapHeldByOther(u, k, w.yanets[k], e) {
    }
    forall d ensures HeldByOther(v, k, w.yanets[k], d) <==> HeldByOther(u, k, w.yanets[k], d) {
    }
    PassedOver(p, w, u, v, k, c);
  }

  lemma {:induction false} VisitInApply(p: Period, w: World, u: World, d: Key, v: World, k: Key)
    requires k in w.yanets && k in p.wanted && InApply(p, w, u, k) && u.pass.me == k && u.pass.y == w.yanets[k]
    requires DecisionEnabled(u, Visit(d)) && v == DecisionNext(u, Visit(d))
    ensures InApply(p, w, v, k)
  {
    assert Taken(u, d) <==> HeldByOther(u, k, w.yanets[k], d);
    forall e
      ensures HeldByOther(v, k, w.yanets[k], e) <==> HeldByOther(u, k, w.yanets[k], e)
      ensures MapHeldByOther(v, k, w.yanets[k], e) <==> MapHeldByOther(u, k, w.yanets[k], e)
    {
    }
  }

  lemma {:induction false} VisitMapInApply(p: Period, w: World, u: World, c: Key, v: World, k: Key)
    requires k in w.yanets && k in p.wanted && InApply(p, w, u, k) && u.pass.me == k && u.pass.y == w.yanets[k]
    requires w.yanets[k].autoSync && DecisionEnabled(u, VisitMap(c)) && v == DecisionNext(u, VisitMap(c))
    ensures InApply(p, w, v, k)
  {
    assert MapTaken(u, c) <==> MapHeldByOther(u, k, w.yanets[k], c);
    forall e
      ensures HeldByOther(v, k, w.yanets[k], e) <==> HeldByOther(u, k, w.yanets[k], e)
      ensures MapHeldByOther(v, k, w.yanets[k], e) <==> MapHeldByOther(u, k, w.yanets[k], e)
    {
    }
  }

  lemma {:induction false} EndApplyStands(p: Period, w: World, u: World, v: World, k: Key)
    requires k in w.yanets && k in p.wanted && InApply(p, w, u, k) && u.pass.me == k && u.pass.y == w.yanets[k]
    requires w.nodes == u.nodes && u.pass.nodes == Selected(w.nodes, w.yanets[k].selector) && PlanInside(u.pass)
    requires DecisionEnabled(u, EndApply) && v == DecisionNext(u, EndApply)
    ensures Stands(p, w, v, k)
  {
    assert FailedSoFar(p, w, u.loop, k) <==> !NamesFree(p, w, k);
  }

  /** The loop that deletes is done. */
  lemma {:induction false} DoneStands(p: Period, w: World, u: World, a: Decision, v: World, k: Key)
    requires k in w.yanets && k in p.wanted && Calm(p, u) && Calmer(u, v) && Stands(p, w, u, k)
    requires (a.Sweep? || a.FinishRelease?) && DecisionEnabled(u, a) && v == DecisionNext(u, a)
    ensures Stands(p, w, v, k)
  {
    CompletedPassLeaves(p, u, a);
    LeavingStays(u, v, k);
  }

  /** The loops that delete go on. */
  lemma {:induction false} LoopStands(p: Period, w: World, u: World, a: Action, v: World, k: Key)
    requires k in w.yanets && k in p.wanted && Stands(p, w, u, k) && (u.pass.Pruning? || u.pass.Releasing?)
    requires OwnStep(p, u, a) && Leads(u, a, v) && !(a.Decide? && (a.d.Sweep? || a.d.FinishRelease?))
    ensures Stands(p, w, v, k)
  {
    LoopGoesOn(p, u, a, v);
  }

  lemma {:induction false} LoopGoesOn(p: Period, u: World, a: Action, v: World)
    requires (u.pass.Pruning? || u.pass.Releasing?) && OwnStep(p, u, a) && Leads(u, a, v)
    requires !(a.Decide? && (a.d.Sweep? || a.d.FinishRelease?))
    ensures v.pass == u.pass
  {
    if a.Perform? {
      assert v == WriteNext(u, a.x);
    } else {
      assert v == DecisionNext(u, a.d);
    }
  }

  /** The pass ends. */
  lemma {:induction false} EndStands(p: Period, w: World, u: World, a: Action, v: World, k: Key)
    requires k in w.yanets && k in p.wanted && PassCurrent(p, u) && Calmer(u, v) && Stands(p, w, u, k)
    requires (u.pass.Sweeping? || u.pass.Enlisting?) && OwnStep(p, u, a) && Leads(u, a, v)
    ensures Stands(p, w, v, k)
  {
    LeavingStays(u, v, k);
    assert v.pass == u.pass || v.pass.Idle?;
  }

  lemma {:induction false} ApplyStands(p: Period, w: World, u: World, a: Action, v: World, k: Key)
    requires k in w.yanets && k in p.wanted && Ownership.Invariant(u) && PassCurrent(p, u) && Stands(p, w, u, k)
    requires u.pass.Applying? && w.nodes == u.nodes && OwnStep(p, u, a) && Leads(u, a, v)
    ensures Stands(p, w, v, k)
  {
    match a
    case Perform(x) =>
      if x.WriteDeployment? {
        WriteInApply(p, w, u, x.d, v, k);
      } else {
        WriteMapInApply(p, w, u, x.c, v, k);
      }
    case Decide(d) =>
      match d {
        case EndApply => EndApplyStands(p, w, u, v, k);
        case Visit(e) => VisitInApply(p, w, u, e, v, k);
        case VisitMap(c) => VisitMapInApply(p, w, u, c, v, k);
      }
  }

  lemma {:induction false} StepStands(p: Period, w: World, u: World, a: Action, v: World, k: Key)
    requires k in w.yanets && k in p.wanted && Calm(p, u) && Stands(p, w, u, k) && w.nodes == u.nodes
    requires OwnStep(p, u, a) && Leads(u, a, v)
    ensures Calm(p, v) && v.nodes == w.nodes && Stands(p, w, v, k)
  {
    StepKeepsCalm(p, u, a, v);
    if u.pass.Claiming? {
      ClaimingStep(p, w, u, a, v, k);
    } else if u.pass.Cleared? {
      if a.d.Gate? {
        GateStepStands(p, w, u, a.d, v, k);
      } else {
        RefuseStepStands(p, w, u, a.d, v, k);
      }
    } else if u.pass.Applying? {
      ApplyStands(p, w, u, a, v, k);
    } else {
      LateStepStands(p, w, u, a, v, k);
    }
  }

  lemma {:induction false} LateStepStands(p: Period, w: World, u: World, a: Action, v: World, k: Key)
    requires k in w.yanets && k in p.wanted && Calm(p, u) && Calmer(u, v) && Stands(p, w, u, k)
    requires OwnStep(p, u, a) && Leads(u, a, v)
    requires !u.pass.Claiming? && !u.pass.Cleared? && !u.pass.Applying? && !u.pass.Idle?
    ensures Stands(p, w, v, k)
  {
    if a.Decide? && (a.d.Sweep? || a.d.FinishRelease?) {
      DoneStands(p, w, u, a.d, v, k);
    } else if u.pass.Pruning? || u.pass.Releasing? {
      LoopStands(p, w, u, a, v, k);
    } else {
      EndStands(p, w, u, a, v, k);
    }
  }

  lemma {:induction false} RunStands(p: Period, w: World, u: World, run: seq<Action>, k: Key)
    requires k in w.yanets && k in p.wanted && Calm(p, u) && Stands(p, w, u, k) && w.nodes == u.nodes
    requires Valid(u, run) && SoloRun(p, u, run)
    ensures Stands(p, w, After(u, run), k) && Calm(p, After(u, run))
    decreases |run|
  {
    if run != [] {
      StepStands(p, w, u, run[0], Next(u, run[0]), k);
      RunStands(p, w, Next(u, run[0]), run[1..], k);
    }
  }

  // ---- The whole pass -----------------------------------------------------------------------------------

  /** The pass of `k`, from idle to idle. */
  ghost predicate WholePass(p: Period, w: World, k: Key, run: seq<Action>) {
    && w.pass.Idle? && k in w.yanets && k in p.wanted
    && Valid(w, [Decide(Begin(k))] + run) && After(w, [Decide(Begin(k))] + run).pass.Idle?
    && var u := Next(w, ([Decide(Begin(k))] + run)[0]);
       var rest := ([Decide(Begin(k))] + run)[1..];
       SoloRun(p, u, rest)
  }

  /** What lingers and is not planned still lingers where the pass was turned away. */
  lemma {:induction false} BarredChangesNothing(p: Period, w: World, u: World, k: Key)
    requires k in w.yanets && k in p.wanted && Calm(p, w) && Barred(p, w, u, k) && u.nodes == w.nodes
    requires forall j, n :: Selects(w, j, n) ==> Selects(u, j, n)
    requires forall j, n :: Selects(u, j, n) ==> Selects(w, j, n)
    ensures Leaving(u, k) ==> Leaving(w, k)
  {
    forall d | Lingers(w, d) && OwnerOf(w, d).k == k ensures Lingers(u, d) && OwnerOf(u, d).k == k {
      if d in p.wanted[k].plan {
        NamedOnce(p, k.name, d, NodeOf(w, d), p.wanted[k].plan[d].template.node);
      }
    }
  }

  /** The begin of a pass of a synchronised installation. */
  lemma {:induction false} BeginStands(p: Period, w: World, k: Key)
    requires Calm(p, w) && w.pass.Idle? && k in w.yanets && k in p.wanted
    ensures Stands(p, w, DecisionNext(w, Begin(k)), k)
  {
    var u := DecisionNext(w, Begin(k));
    assert forall d :: Lingers(u, d) <==> Lingers(w, d);
    BeginningOwes(p, w, k, u);
  }

  /**
   A pass that nothing disturbs marks all misplaced Deployments of its installation if and only if they were marked
   before, its claim is refused, or the placement gate is open for its plan and no planned name is taken.
   */
  lemma {:induction false} ReleasesExactly(p: Period, w: World, k: Key, run: seq<Action>)
    requires Calm(p, w) && WholePass(p, w, k, run)
    ensures Leaving(After(w, [Decide(Begin(k))] + run), k)
       <==> Leaving(w, k) || !ClaimPasses(w, k) || (GatePasses(p, w, k) && NamesFree(p, w, k))
  {
    var whole := [Decide(Begin(k))] + run;
    var u, v := Next(w, whole[0]), After(w, whole);
    assert whole[0] == Decide(Begin(k)) && whole[1..] == run;
    StepKeepsCalm(p, w, whole[0], u);
    BeginStands(p, w, k);
    RunStands(p, w, u, run, k);
    SoloCalmer(p, u, run);
    CalmerIsTransitive(w, u, v);
    if Leaving(w, k) {
      LeavingStays(w, v, k);
    }
    if Barred(p, w, v, k) {
      BarredChangesNothing(p, w, v, k);
    }
  }

  lemma {:induction false} SoloCalmer(p: Period, w: World, run: seq<Action>)
    requires Calm(p, w) && Valid(w, run) && SoloRun(p, w, run)
    ensures Calmer(w, After(w, run))
    decreases |run|
  {
    if run != [] {
      StepKeepsCalm(p, w, run[0], Next(w, run[0]));
      SoloCalmer(p, Next(w, run[0]), run[1..]);
      CalmerIsTransitive(w, Next(w, run[0]), After(w, run));
    }
  }

  // ---- Such a pass exists -----------------------------------------------------------------------------------

  /** The wanted plan is what the builder renders for the selected nodes. */
  ghost predicate Renderable(p: Period, w: World, k: Key) {
    && k in w.yanets && k in p.wanted && (forall c :: c in p.wanted[k].maps ==> c.ns == k.ns)
    && PlanFor(k, Selected(w.nodes, w.yanets[k].selector), p.wanted[k].plan, p.wanted[k].order)
  }

  /** How far the pass is from its end. */
  function Phase(pass: Pass): nat {
    match pass
    case Idle => 0
    case Enlisting(_, _) => 1
    case Unlisting(_, _) => 1
    case Sweeping(_, _, _, _) => 2
    case Releasing(_, _, _) => 3
    case Pruning(_, _, _, _, _, _) => 4
    case Applying(_, _, _, _, _) => 5
    case Cleared(_, _, _) => 6
    case Claiming(_, _, _) => 7
  }

  function Left(w: World): nat {
    |w.loop.left| + |w.loop.leftMaps|
  }

  /** The step is the pass's own and brings it closer to its end. */
  ghost predicate Advances(p: Period, w: World, a: Action, v: World) {
    && OwnStep(p, w, a) && Leads(w, a, v)
    && (Phase(v.pass) < Phase(w.pass) || (v.pass == w.pass && Left(v) < Left(w)))
    && (v.pass.Idle? || v.pass.me == w.pass.me) && !v.pass.Enlisting?
  }

  /** One item less to visit. */
  lemma {:induction false} ItemAdvances(p: Period, w: World, a: Action, v: World, d: Key)
    requires OwnStep(p, w, a) && Leads(w, a, v) && v.pass == w.pass && Phase(w.pass) >= 3
    requires d in w.loop.left && v.loop.left == w.loop.left - {d} && v.loop.leftMaps == w.loop.leftMaps
    ensures Advances(p, w, a, v)
  {
  }

  lemma {:induction false} MapAdvances(p: Period, w: World, a: Action, v: World, c: Key)
    requires OwnStep(p, w, a) && Leads(w, a, v) && v.pass == w.pass && Phase(w.pass) >= 3
    requires c in w.loop.leftMaps && v.loop.leftMaps == w.loop.leftMaps - {c} && v.loop.left == w.loop.left
    ensures Advances(p, w, a, v)
  {
  }

  lemma {:induction false} VisitAdvances(p: Period, w: World, d: Key) returns (a: Action, v: World)
    requires DecisionEnabled(w, Visit(d))
    ensures Advances(p, w, a, v)
  {
    a, v := Decide(Visit(d)), DecisionNext(w, Visit(d));
    ItemAdvances(p, w, a, v, d);
  }

  /** The write of a loop item. */
  lemma {:induction false} WriteAdvances(p: Period, w: World, x: Write, d: Key) returns (a: Action, v: World)
    requires WriteEnabled(w, x) && x in {WriteDeployment(d), MarkOrphan(d), MarkReleased(d), Drain(d)}
    ensures Advances(p, w, a, v)
  {
    a, v := Perform(x), WriteNext(w, x);
    ItemAdvances(p, w, a, v, d);
  }

  lemma {:induction false} MapItemAdvances(p: Period, w: World, c: Key) returns (a: Action, v: World)
    requires w.pass.Applying? && w.pass.y.autoSync && c in w.loop.leftMaps && c.ns == w.pass.me.ns
    ensures Advances(p, w, a, v)
  {
    if c in w.maps {
      a, v := Decide(VisitMap(c)), DecisionNext(w, VisitMap(c));
    } else {
      a, v := Perform(WriteMap(c)), WriteNext(w, WriteMap(c));
    }
    MapAdvances(p, w, a, v, c);
  }

  lemma {:induction false} LoopEnds(p: Period, w: World, d: Decision) returns (a: Action, v: World)
    requires DecisionEnabled(w, d) && (d.EndApply? || d.Sweep? || d.FinishRelease?)
    ensures Advances(p, w, a, v)
  {
    a, v := Decide(d), DecisionNext(w, d);
  }

  lemma {:induction false} ApplyAdvances(p: Period, w: World) returns (a: Action, v: World)
    requires w.pass.Applying? && w.pass.y.autoSync && w.loop.left <= w.pass.plan.Keys && w.loop.leftMaps <= w.pass.maps
    requires forall c :: c in w.pass.maps ==> c.ns == w.pass.me.ns
    ensures Advances(p, w, a, v)
  {
    if d :| d in w.loop.left {
      if d in w.deployments {
        a, v := VisitAdvances(p, w, d);
      } else {
        a, v := WriteAdvances(p, w, WriteDeployment(d), d);
      }
    } else if c :| c in w.loop.leftMaps {
      a, v := MapItemAdvances(p, w, c);
    } else {
      a, v := LoopEnds(p, w, EndApply);
    }
  }

  lemma {:induction false} PruneAdvances(p: Period, w: World) returns (a: Action, v: World)
    requires w.pass.Pruning?
    ensures Advances(p, w, a, v)
  {
    if d :| d in w.loop.left {
      if OrphanDue(w, d) {
        a, v := WriteAdvances(p, w, MarkOrphan(d), d);
      } else {
        a, v := VisitAdvances(p, w, d);
      }
    } else {
      a, v := LoopEnds(p, w, Sweep);
    }
  }

  lemma {:induction false} ReleaseAdvances(p: Period, w: World) returns (a: Action, v: World)
    requires w.pass.Releasing?
    ensures Advances(p, w, a, v)
  {
    if d :| d in w.loop.left {
      if ReleaseDue(w, d) {
        a, v := WriteAdvances(p, w, MarkReleased(d), d);
      } else if DrainDue(w, d) {
        a, v := WriteAdvances(p, w, Drain(d), d);
      } else {
        a, v := VisitAdvances(p, w, d);
      }
    } else {
      a, v := LoopEnds(p, w, FinishRelease);
    }
  }

  lemma {:induction false} GateAdvances(p: Period, w: World) returns (a: Action, v: World)
    requires w.pass.Cleared? && Renderable(p, w, w.pass.me) && PassCurrent(p, w)
    ensures Advances(p, w, a, v)
  {
    var wanted := p.wanted[w.pass.me];
    a := if GateOpen(LiveOf(w), w.pass.me, wanted.order) then Decide(Gate(wanted.plan, wanted.order, wanted.maps))
         else Decide(Refuse(wanted.plan, wanted.order));
    v := Next(w, a);
  }

  lemma {:induction false} EndsAdvance(p: Period, w: World) returns (a: Action, v: World)
    requires PassCurrent(p, w)
    requires w.pass.Claiming? || w.pass.Sweeping? || (w.pass.Enlisting? && w.yanets[w.pass.me] == w.pass.y)
    ensures Advances(p, w, a, v)
  {
    a := if w.pass.Claiming? then Decide(Validate) else if w.pass.Sweeping? then Decide(FinishSweep)
      else Perform(AddFinalizer);
    v := Next(w, a);
  }

  lemma {:induction false} PassAdvances(p: Period, w: World) returns (a: Action, v: World)
    requires Calm(p, w) && !w.pass.Idle? && Renderable(p, w, w.pass.me) && Applicable(p, w)
    requires w.pass.Enlisting? ==> w.yanets[w.pass.me] == w.pass.y
    ensures Advances(p, w, a, v)
  {
    if w.pass.Applying? {
      a, v := ApplyAdvances(p, w);
    } else if w.pass.Pruning? {
      a, v := PruneAdvances(p, w);
    } else if w.pass.Releasing? {
      a, v := ReleaseAdvances(p, w);
    } else if w.pass.Cleared? {
      a, v := GateAdvances(p, w);
    } else {
      a, v := EndsAdvance(p, w);
    }
  }

  lemma {:induction false} PassEnds(p: Period, w: World) returns (run: seq<Action>)
    requires Calm(p, w) && (!w.pass.Idle? ==> Renderable(p, w, w.pass.me)) && Applicable(p, w)
    requires w.pass.Enlisting? ==> w.yanets[w.pass.me] == w.pass.y
    ensures Valid(w, run) && SoloRun(p, w, run) && After(w, run).pass.Idle?
    decreases Phase(w.pass), Left(w)
  {
    if w.pass.Idle? {
      run := [];
    } else {
      var a, v := PassAdvances(p, w);
      StepKeepsCalm(p, w, a, v);
      StaysApplicable(p, w, a, v);
      var rest := PassEnds(p, v);
      run := [a] + rest;
      assert run[1..] == rest;
    }
  }

  /** Every calm, idle cluster has such a pass of every installation whose plan renders. */
  lemma {:induction false} WholePassExists(p: Period, w: World, k: Key) returns (run: seq<Action>)
    requires Calm(p, w) && w.pass.Idle? && Renderable(p, w, k)
    ensures WholePass(p, w, k, run)
  {
    var u := DecisionNext(w, Begin(k));
    StepKeepsCalm(p, w, Decide(Begin(k)), u);
    run := PassEnds(p, u);
    assert ([Decide(Begin(k))] + run)[1..] == run;
  }
}
