/**
 Nobody will be hindered: a condition on the first state of a quiet period under which no gate closes and no planned
 name is taken in any run of it. Nothing stored or wanted runs a wanted role the other way, and planned names are free
 and unshared.
 */
module Clearance {
  import opened Cluster
  import opened NodeClaims
  import opened Protocol
  import opened Ownership
  import opened Handover
  import PlacementGate
  import Retention

  // ---- The condition ----------------------------------------------------------------------------

  /** No two installations plan the same name. */
  ghost predicate NamesUnshared(p: Period) {
    forall j, k :: j in p.wanted && k in p.wanted && j != k ==>
      p.wanted[j].plan.Keys !! p.wanted[k].plan.Keys && p.wanted[j].maps !! p.wanted[k].maps
  }

  ghost predicate AllNamesFree(p: Period, w: World) {
    forall k :: k in w.yanets && k in p.wanted ==> NamesFree(p, w, k)
  }

  /** The template of a stored generation, of a ReplicaSet that is not settled at zero, or of a running Pod. */
  ghost predicate Carries(w: World, ns: string, t: Template) {
    || (exists d :: d in w.deployments && d.ns == ns && Retention.MayUse(w.deployments[d], t))
    || (exists s :: s in w.sets && w.sets[s].ns == ns && w.sets[s].template == t
                    && (PlacementGate.SetProduces(w.sets[s]) || Able(w.sets[s])))
    || (exists q :: q in w.pods && w.pods[q].ns == ns && !w.pods[q].done && w.pods[q].template == t)
  }

  predicate Planned(plan: map<Key, PlacementGate.Rendered>, t: Template) {
    exists d :: d in plan && plan[d].template == t
  }

  /** The template runs no role the installation wants on that node the other way. */
  ghost predicate Suits(order: seq<PlacementGate.Rendered>, t: Template) {
    forall target :: PlacementGate.Wanted(order, target) && t.node == target.node ==>
      !PlacementGate.Incompatible(t, target.role, target.colocated)
  }

  /** Whatever of an installation is stored or wanted suits what it wants. */
  ghost predicate AllSuit(p: Period, w: World) {
    forall k, t: Template :: k in p.wanted && k.name != "" && t.yanet == k.name
                   && (Carries(w, k.ns, t) || Planned(p.wanted[k].plan, t))
      ==> Suits(p.wanted[k].order, t)
  }

  /** The pass applies what is wanted, and nothing has failed. */
  ghost predicate OnTrack(p: Period, w: World) {
    Applicable(p, w) && (w.pass.Applying? ==> !w.loop.failed)
  }

  ghost predicate Free(p: Period, w: World) {
    && NamesUnshared(p) && AllNamesFree(p, w) && AllSuit(p, w) && OnTrack(p, w)
    && (forall k :: k in w.yanets ==> k.name != "")
  }

  lemma GateSeesWhatIsCarried(w: World, ns: string, t: Template)
    requires PlacementGate.Produces(LiveOf(w), ns, t)
    ensures Carries(w, ns, t)
  {
    if d :| d in w.deployments && d.ns == ns && w.deployments[d].template == t {
      assert MayRoll(w.deployments[d], w.deployments[d].generation);
      assert Retention.MayUse(w.deployments[d], t);
    }
  }

  /** Nobody is hindered in such a state. */
  lemma {:induction false} FreeIsUnhindered(p: Period, w: World)
    requires Calm(p, w) && Free(p, w)
    ensures !Hindered(p, w)
  {
    if w.pass.Cleared? && w.pass.me in p.wanted {
      forall t | PlacementGate.Produces(LiveOf(w), w.pass.me.ns, t) && t.yanet == w.pass.me.name
        ensures Suits(p.wanted[w.pass.me].order, t)
      {
        GateSeesWhatIsCarried(w, w.pass.me.ns, t);
      }
    } else if w.pass.Applying? {
      assert Enlisted(w, Current(w.pass)) && NamesFree(p, w, w.pass.me);
    }
  }

  // ---- Templates --------------------------------------------------------------------------------

  /** All that is carried was carried before, or is not labelled, or is planned by the pass. */
  ghost predicate NothingNew(w: World, v: World) {
    forall ns, t :: Carries(v, ns, t) && t.yanet != "" ==>
      Carries(w, ns, t) || (w.pass.Applying? && ns == w.pass.me.ns && Planned(w.pass.plan, t))
  }

  /** It is enough to look at Deployments when the rest is as it was. */
  lemma DeploymentsDecide(w: World, v: World)
    requires v.sets == w.sets && v.pods == w.pods
    requires forall d, t :: d in v.deployments && Retention.MayUse(v.deployments[d], t) && t.yanet != "" ==>
               Carries(w, d.ns, t) || (w.pass.Applying? && d.ns == w.pass.me.ns && Planned(w.pass.plan, t))
    ensures NothingNew(w, v)
  {
  }

  lemma RespecUses(d: Deployment, replicas: nat, template: Template, t: Template)
    requires Retention.MayUse(Respec(d, replicas, template), t)
    ensures Retention.MayUse(d, t) || t == template
  {
    var e := Respec(d, replicas, template);
    var g :| MayRoll(e, g) && SpecAt(e, g).template == t;
    assert MayRoll(d, d.generation) && SpecAt(d, d.generation).template == d.template;
    assert g != d.generation && g != e.generation ==> MayRoll(d, g) && SpecAt(d, g) == SpecAt(e, g);
  }

  lemma MarkedUses(d: Deployment, t: Template)
    requires Retention.MayUse(d.(deleting := true), t)
    ensures Retention.MayUse(d, t)
  {
    var g :| MayRoll(d.(deleting := true), g) && SpecAt(d.(deleting := true), g).template == t;
    assert MayRoll(d, g) && SpecAt(d, g).template == t;
  }

  lemma OutsideBringsNothing(w: World, a: Outside, v: World)
    requires OutsideEnabled(w, a) && v == OutsideNext(w, a)
    ensures NothingNew(w, v)
  {
    forall d, t | d in v.deployments && Retention.MayUse(v.deployments[d], t) && t.yanet != ""
      ensures Carries(w, d.ns, t)
    {
      match a {
        case ScaleDown(e, replicas) =>
          if d == e {
            Retention.ScalingUsesNothingNew(w.deployments[d], replicas, t);
          }
        case RequestDelete(e) =>
          if d == e {
            MarkedUses(w.deployments[d], t);
          }
        case _ =>
      }
    }
    DeploymentsDecide(w, v);
  }

  lemma RollBringsNothing(w: World, a: Workload, v: World)
    requires WorkloadEnabled(w, a) && v == WorkloadNext(w, a) && a.Roll?
    ensures NothingNew(w, v)
  {
    assert Retention.MayUse(w.deployments[a.d], SpecAt(w.deployments[a.d], a.g).template);
    assert Carries(w, a.d.ns, v.sets[a.s].template);
  }

  lemma ReportBringsNothing(w: World, a: Workload, v: World)
    requires WorkloadEnabled(w, a) && v == WorkloadNext(w, a) && a.ReportStatus?
    ensures NothingNew(w, v)
  {
    forall d, t | d in v.deployments && Retention.MayUse(v.deployments[d], t) ensures Carries(w, d.ns, t) {
      if d == a.d {
        Retention.ReportingUsesNothingNew(w.deployments[d], a.status, t);
      }
    }
    DeploymentsDecide(w, v);
  }

  lemma WorkloadBringsNothing(w: World, a: Workload, v: World)
    requires WorkloadEnabled(w, a) && v == WorkloadNext(w, a)
    ensures NothingNew(w, v)
  {
    if a.Roll? {
      RollBringsNothing(w, a, v);
    } else if a.ReportStatus? {
      ReportBringsNothing(w, a, v);
    }
  }

  lemma WriteBringsThePlan(w: World, a: Write, v: World)
    requires WriteEnabled(w, a) && v == WriteNext(w, a) && (w.pass.Applying? ==> PlanInside(w.pass))
    ensures NothingNew(w, v)
  {
    forall d, t | d in v.deployments && Retention.MayUse(v.deployments[d], t) && t.yanet != ""
      ensures Carries(w, d.ns, t) || (w.pass.Applying? && d.ns == w.pass.me.ns && Planned(w.pass.plan, t))
    {
      match a {
        case WriteDeployment(e) =>
          if d == e {
            assert Planned(w.pass.plan, w.pass.plan[d].template);
            if d in w.deployments {
              RespecUses(w.deployments[d], w.pass.plan[d].replicas, w.pass.plan[d].template, t);
            }
          }
        case Drain(e) =>
          if d == e {
            Retention.ScalingUsesNothingNew(w.deployments[d], 0, t);
          }
        case MarkOrphan(e) =>
          if d == e {
            MarkedUses(w.deployments[d], t);
          }
        case MarkReleased(e) =>
          if d == e {
            MarkedUses(w.deployments[d], t);
          }
        case _ =>
      }
    }
    DeploymentsDecide(w, v);
  }

  lemma StepBringsNothing(w: World, a: Action, v: World)
    requires Leads(w, a, v) && (w.pass.Applying? ==> PlanInside(w.pass))
    ensures NothingNew(w, v)
  {
    match a
    case ByOthers(o) => OutsideBringsNothing(w, o, v);
    case ByControllers(c) => WorkloadBringsNothing(w, c, v);
    case Decide(_) => DeploymentsDecide(w, v);
    case Perform(x) => WriteBringsThePlan(w, x, v);
  }

  /** What the pass plans for its installation is wanted. */
  lemma {:induction false} StepKeepsSuiting(p: Period, w: World, v: World)
    requires AllSuit(p, w) && NothingNew(w, v) && PassCurrent(p, w) && (w.pass.Applying? ==> PlanInside(w.pass))
    ensures AllSuit(p, v)
  {
    forall k, t: Template | k in p.wanted && k.name != "" && t.yanet == k.name && Carries(v, k.ns, t)
      ensures Suits(p.wanted[k].order, t)
    {
      if !Carries(w, k.ns, t) {
        assert k == w.pass.me;
      }
    }
  }

  // ---- Names --------------------------------------------------------------------------------------

  /** Holders change only by writes of the pass to names it plans. */
  ghost predicate HoldersKept(p: Period, w: World, v: World) {
    && (forall k, d :: k in p.wanted && d in p.wanted[k].plan && d in v.deployments ==>
          || (d in w.deployments && v.deployments[d].owner == w.deployments[d].owner)
          || (w.pass.Applying? && d in w.pass.plan && Controls(w.pass.me, w.pass.y, d, v.deployments[d].owner)))
    && (forall k, c :: k in p.wanted && c in p.wanted[k].maps && c in v.maps ==>
          || (c in w.maps && v.maps[c].owner == w.maps[c].owner)
          || (w.pass.Applying? && c in w.loop.leftMaps && Controls(w.pass.me, w.pass.y, c, v.maps[c].owner)))
  }

  lemma {:induction false} OutsideKeepsHolders(p: Period, w: World, a: Outside, v: World)
    requires OutsideEnabled(w, a) && v == OutsideNext(w, a) && Quiet(p, ByOthers(a))
    ensures HoldersKept(p, w, v)
  {
  }

  lemma {:induction false} WorkloadKeepsHolders(p: Period, w: World, a: Workload, v: World)
    requires WorkloadEnabled(w, a) && v == WorkloadNext(w, a)
    ensures HoldersKept(p, w, v)
  {
  }

  lemma {:induction false} DecisionKeepsHolders(p: Period, w: World, a: Decision, v: World)
    requires DecisionEnabled(w, a) && v == DecisionNext(w, a)
    ensures HoldersKept(p, w, v)
  {
  }

  lemma {:induction false} WriteKeepsHolders(p: Period, w: World, a: Write, v: World)
    requires WriteEnabled(w, a) && v == WriteNext(w, a) && (w.pass.Applying? ==> PlanInside(w.pass))
    ensures HoldersKept(p, w, v)
  {
    match a
    case WriteDeployment(d) => assert Controls(w.pass.me, w.pass.y, d, v.deployments[d].owner) && v.maps == w.maps;
    case WriteMap(c) => assert Controls(w.pass.me, w.pass.y, c, v.maps[c].owner) && v.deployments == w.deployments;
    case _ =>
  }

  lemma {:induction false} StepKeepsHolders(p: Period, w: World, a: Action, v: World)
    requires Leads(w, a, v) && Quiet(p, a) && (w.pass.Applying? ==> PlanInside(w.pass))
    ensures HoldersKept(p, w, v)
  {
    match a
    case ByOthers(o) => OutsideKeepsHolders(p, w, o, v);
    case ByControllers(c) => WorkloadKeepsHolders(p, w, c, v);
    case Decide(d) => DecisionKeepsHolders(p, w, d, v);
    case Perform(x) => WriteKeepsHolders(p, w, x, v);
  }

  /** Who wants a name and finds it free still does. */
  lemma {:induction false} NamesStayFree(p: Period, w: World, v: World, k: Key)
    requires NamesUnshared(p) && OnTrack(p, w) && HoldersKept(p, w, v)
    requires w.pass.Applying? ==> w.pass.plan == p.wanted[w.pass.me].plan
    requires k in w.yanets && k in v.yanets && k in p.wanted && v.yanets[k].uid == w.yanets[k].uid
    requires w.pass.Applying? && w.pass.me == k ==> w.pass.y.uid == w.yanets[k].uid
    requires NamesFree(p, w, k)
    ensures NamesFree(p, v, k)
  {
  }

  lemma {:induction false} StepKeepsNamesFree(p: Period, w: World, v: World)
    requires Calm(p, w) && NamesUnshared(p) && AllNamesFree(p, w) && OnTrack(p, w)
    requires Calmer(w, v) && HoldersKept(p, w, v)
    ensures AllNamesFree(p, v)
  {
    if w.pass.Applying? {
      assert Enlisted(w, Current(w.pass));
    }
    forall k | k in v.yanets && k in p.wanted ensures NamesFree(p, v, k) {
      NamesStayFree(p, w, v, k);
    }
  }

  // ---- Runs ---------------------------------------------------------------------------------------

  lemma {:induction false} StepKeepsTrack(p: Period, w: World, a: Action, v: World)
    requires OnTrack(p, w) && !Hindered(p, w) && Leads(w, a, v) && Faultless(p, w, a)
    ensures OnTrack(p, v)
  {
    match a
    case Decide(d) => DecisionStaysApplicable(p, w, d, v);
    case Perform(x) => WriteStaysApplicable(p, w, x, v);
    case _ =>
  }

  lemma {:induction false} StepKeepsFree(p: Period, w: World, a: Action, v: World)
    requires Calm(p, w) && Free(p, w) && Leads(w, a, v) && Quiet(p, a) && Faultless(p, w, a)
    ensures Calm(p, v) && Free(p, v)
  {
    StepKeepsCalm(p, w, a, v);
    StepBringsNothing(w, a, v);
    StepKeepsSuiting(p, w, v);
    StepKeepsHolders(p, w, a, v);
    StepKeepsNamesFree(p, w, v);
    FreeIsUnhindered(p, w);
    StepKeepsTrack(p, w, a, v);
  }

  /** A run without edits and faults. */
  ghost predicate QuietRun(p: Period, w: World, run: seq<Action>)
    requires Valid(w, run)
    decreases |run|
  {
    run != [] ==> Quiet(p, run[0]) && Faultless(p, w, run[0]) && QuietRun(p, Next(w, run[0]), run[1..])
  }

  /** From a free state, nobody is ever hindered. */
  lemma {:induction false} FreeRunsAreSmooth(p: Period, w: World, run: seq<Action>)
    requires Calm(p, w) && Free(p, w) && Valid(w, run) && QuietRun(p, w, run)
    ensures SmoothRun(p, w, run) && Calm(p, After(w, run)) && Free(p, After(w, run))
    decreases |run|
  {
    FreeIsUnhindered(p, w);
    if run != [] {
      StepKeepsFree(p, w, run[0], Next(w, run[0]));
      FreeRunsAreSmooth(p, Next(w, run[0]), run[1..]);
    }
  }

  /** Rounds of quiet runs, each with a turn of every installation, in which deletions under way get on. */
  ghost predicate QuietRounds(p: Period, w: World, rounds: seq<seq<Action>>)
    decreases |rounds|
  {
    rounds == [] ||
      (&& Valid(w, rounds[0]) && QuietRun(p, w, rounds[0]) && After(w, rounds[0]).pass.Idle?
       && (forall k :: k in w.yanets ==> Decide(Begin(k)) in rounds[0])
       && Fair(w, rounds[0]) && QuietRounds(p, After(w, rounds[0]), rounds[1..]))
  }

  lemma {:induction false} FreeRoundsAreRounds(p: Period, w: World, rounds: seq<seq<Action>>)
    requires Calm(p, w) && Free(p, w) && QuietRounds(p, w, rounds)
    ensures Rounds(p, w, rounds) && Calm(p, AfterRounds(p, w, rounds)) && Free(p, AfterRounds(p, w, rounds))
    decreases |rounds|
  {
    if rounds != [] {
      FreeRunsAreSmooth(p, w, rounds[0]);
      FreeRoundsAreRounds(p, After(w, rounds[0]), rounds[1..]);
    }
  }

  /**
   Any exchange of selectors terminates when its last state is free: after any history, as many quiet rounds as there
   are misplaced Deployments and one more leave nothing misplaced and nobody refused ever after, and no pass among
   them or later is turned away.
   */
  lemma {:induction false} FreeExchangesTerminate(p: Period, history: seq<Action>, rounds: seq<seq<Action>>,
                                                  later: seq<Action>)
    requires WellNamed(p) && Valid(Empty(), history) && PlansNamed(p, Empty(), history)
    requires var w := After(Empty(), history);
             && w.pass.Idle? && AllSynced(w) && SelectorsDisjoint(w)
             && NamesUnshared(p) && AllNamesFree(p, w) && AllSuit(p, w)
             && QuietRounds(p, w, rounds) && |rounds| > |MisplacedOnes(w)|
    ensures Rounds(p, After(Empty(), history), rounds)
    ensures var v := AfterRounds(p, After(Empty(), history), rounds);
            Valid(v, later) && QuietRun(p, v, later) ==>
              && SmoothRun(p, v, later)
              && (forall d :: !Misplaced(After(v, later), d))
              && var u := After(v, later);
                 u.pass.Claiming? ==> Exclusive(ListingOf(u, u.pass.nodes), u.pass.me, u.pass.y)
  {
    var w := After(Empty(), history);
    RunKeepsNamed(p, Empty(), history);
    Retention.RunKeepsInvariant(Empty(), history);
    assert Calm(p, w) && Free(p, w);
    FreeRoundsAreRounds(p, w, rounds);
    var v := AfterRounds(p, w, rounds);
    if Valid(v, later) && QuietRun(p, v, later) {
      FreeRunsAreSmooth(p, v, later);
      ExchangesTerminate(p, history, rounds, later);
    }
  }
}
