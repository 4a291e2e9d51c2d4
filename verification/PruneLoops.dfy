/**
 The loops that ask for the deletion of Deployments (pruneConflictingDeployments and the first half of pruneOrphans in
 internal/controller/prune.go). Which deletions the API server refuses is left open.
 */
module PruneLoops {
  import opened Cluster
  import opened NodeClaims
  import opened Protocol

  /** The stored Deployments. */
  class Store {
    var deployments: map<Key, Deployment>

    constructor (initial: map<Key, Deployment>)
      ensures deployments == initial
    {
      deployments := initial;
    }

    /** A foreground deletion request: accepted, the object is marked. */
    method Delete(d: Key, refused: bool) returns (ok: bool)
      requires d in deployments
      modifies this
      ensures ok == !refused
      ensures deployments == if refused then old(deployments) else Marked(old(deployments), d)
    {
      if !refused {
        deployments := Marked(deployments, d);
      }
      ok := !refused;
    }
  }

  function Marked(deployments: map<Key, Deployment>, d: Key): map<Key, Deployment>
    requires d in deployments
  {
    deployments[d := deployments[d].(deleting := true)]
  }

  /** The items in `done` are as the loop leaves them, the others as they were. */
  ghost predicate Partly(before: map<Key, Deployment>, goal: map<Key, Deployment>, done: set<Key>,
                         after: map<Key, Deployment>) {
    && after.Keys == before.Keys == goal.Keys
    && forall d :: d in before ==> after[d] == if d in done then goal[d] else before[d]
  }

  // ---- pruneOrphans -----------------------------------------------------------------------------------

  /** Controlled and not to be kept. */
  predicate Unwanted(deployments: map<Key, Deployment>, me: Key, y: Yanet, keep: set<Key>, d: Key) {
    d in deployments && Controls(me, y, d, deployments[d].owner) && d !in keep
  }

  /** Unwanted and not yet deleted. */
  predicate OrphanIn(deployments: map<Key, Deployment>, me: Key, y: Yanet, keep: set<Key>, d: Key) {
    Unwanted(deployments, me, y, keep, d) && !deployments[d].deleting
  }

  /** Every orphan among `seen` is marked, except those whose deletion is refused; nothing else changes. */
  function PrunedIn(deployments: map<Key, Deployment>, me: Key, y: Yanet, keep: set<Key>, refused: Key -> bool,
                    seen: set<Key>): map<Key, Deployment> {
    map d | d in deployments ::
      if d in seen && OrphanIn(deployments, me, y, keep, d) && !refused(d) then deployments[d].(deleting := true)
      else deployments[d]
  }

  function Pruned(deployments: map<Key, Deployment>, me: Key, y: Yanet, keep: set<Key>, refused: Key -> bool)
    : map<Key, Deployment>
  {
    PrunedIn(deployments, me, y, keep, refused, deployments.Keys)
  }

  ghost predicate RefusedIn(deployments: map<Key, Deployment>, me: Key, y: Yanet, keep: set<Key>,
                            refused: Key -> bool, seen: set<Key>) {
    exists d :: d in seen && OrphanIn(deployments, me, y, keep, d) && refused(d)
  }

  lemma {:induction false} PrunedGrows(deployments: map<Key, Deployment>, me: Key, y: Yanet, keep: set<Key>,
                                       refused: Key -> bool, seen: set<Key>, d: Key)
    requires d in deployments
    ensures var now := PrunedIn(deployments, me, y, keep, refused, seen);
            && PrunedIn(deployments, me, y, keep, refused, seen + {d})
               == (if OrphanIn(now, me, y, keep, d) && !refused(d) then Marked(now, d) else now)
            && (RefusedIn(deployments, me, y, keep, refused, seen + {d})
                <==> RefusedIn(deployments, me, y, keep, refused, seen)
                     || (OrphanIn(now, me, y, keep, d) && refused(d)))
            && (Unwanted(now, me, y, keep, d) <==> Unwanted(deployments, me, y, keep, d))
  {
  }

  /** One turn of the loop. */
  method PruneDeployment(store: Store, d: Key, me: Key, y: Yanet, keep: set<Key>, autoSync: bool, refused: bool)
    returns (ok: bool, retain: bool)
    requires d in store.deployments
    modifies store
    ensures var due := autoSync && OrphanIn(old(store.deployments), me, y, keep, d);
            && (ok <==> !(due && refused))
            && store.deployments == (if due && !refused then Marked(old(store.deployments), d)
                                     else old(store.deployments))
    ensures retain <==> !autoSync && Unwanted(old(store.deployments), me, y, keep, d)
  {
    var stored := store.deployments[d];
    if !Controls(me, y, d, stored.owner) || d in keep {
      return true, false;
    }
    if !autoSync {
      return true, true;
    }
    if stored.deleting {
      return true, false;
    }
    ok := store.Delete(d, refused);
    retain := false;
  }

  /** A Deployment is marked exactly when it is the installation's, not kept and not refused; all else stays. */
  ghost predicate PruneTells(d: Key, before: Deployment, me: Key, y: Yanet, keep: set<Key>, autoSync: bool,
                             refused: bool, after: Deployment) {
    && after == before.(deleting := after.deleting)
    && (after.deleting <==>
          before.deleting || (autoSync && !refused && d.ns == me.ns && before.owner == OwnedBy(me.name, y.uid)
                              && d !in keep))
  }

  /** pruneOrphans goes on after a refused deletion and reports it; without autoSync it only reports orphans. */
  method PruneOrphanDeployments(store: Store, listed: seq<Key>, me: Key, y: Yanet, keep: set<Key>, autoSync: bool,
                                refused: Key -> bool)
    returns (failed: bool, retained: set<Key>)
    requires Lists(listed, store.deployments)
    modifies store
    ensures autoSync ==> store.deployments == Pruned(old(store.deployments), me, y, keep, refused) && retained == {}
    ensures failed <==> autoSync && exists d :: OrphanIn(old(store.deployments), me, y, keep, d) && refused(d)
    ensures !autoSync ==> store.deployments == old(store.deployments)
    ensures !autoSync ==> forall d :: d in retained <==> Unwanted(store.deployments, me, y, keep, d)
    ensures store.deployments.Keys == old(store.deployments).Keys
    ensures forall d :: d in store.deployments ==>
              PruneTells(d, old(store.deployments)[d], me, y, keep, autoSync, refused(d), store.deployments[d])
  {
    ghost var start, seen: set<Key> := store.deployments, {};
    failed, retained := false, {};
    for i := 0 to |listed|
      invariant forall j :: 0 <= j < i ==> listed[j] in seen
      invariant store.deployments == if autoSync then PrunedIn(start, me, y, keep, refused, seen) else start
      invariant failed <==> autoSync && RefusedIn(start, me, y, keep, refused, seen)
      invariant forall d :: d in retained <==> !autoSync && d in seen && Unwanted(start, me, y, keep, d)
    {
      var d := listed[i];
      assert d in listed;
      PrunedGrows(start, me, y, keep, refused, seen, d);
      seen := seen + {d};
      var ok, retain := PruneDeployment(store, d, me, y, keep, autoSync, refused(d));
      failed := failed || !ok;
      if retain {
        retained := retained + {d};
      }
    }
    assert forall d :: d in start ==> d in seen;
  }

  // ---- pruneConflictingDeployments ----------------------------------------------------------------------

  /** On a node to leave: marked; elsewhere, for a disabled installation: scaled to zero. */
  function ReleasedOne(d: Key, dep: Deployment, me: Key, y: Yanet, cleanup: set<string>): Deployment {
    if !Controls(me, y, d, dep.owner) || dep.deleting then dep
    else if dep.template.node in cleanup then dep.(deleting := true)
    else if y.enabled || dep.replicas == 0 then dep
    else Respec(dep, 0, dep.template)
  }

  /** A Deployment listed twice is left alone the second time. */
  lemma ReleasedTwice(d: Key, dep: Deployment, me: Key, y: Yanet, cleanup: set<string>)
    ensures ReleasedOne(d, ReleasedOne(d, dep, me, y, cleanup), me, y, cleanup) == ReleasedOne(d, dep, me, y, cleanup)
  {
  }

  function Released(deployments: map<Key, Deployment>, me: Key, y: Yanet, cleanup: set<string>): map<Key, Deployment> {
    map d | d in deployments :: ReleasedOne(d, deployments[d], me, y, cleanup)
  }

  /** One turn of the loop. */
  method ReleaseDeployment(store: Store, d: Key, me: Key, y: Yanet, cleanup: set<string>, refused: bool)
    returns (ok: bool)
    requires d in store.deployments
    modifies store
    ensures var dep := old(store.deployments)[d];
            && (ok <==> !refused || ReleasedOne(d, dep, me, y, cleanup) == dep)
            && store.deployments == old(store.deployments)[d := if ok then ReleasedOne(d, dep, me, y, cleanup) else dep]
  {
    var stored := store.deployments[d];
    if !Controls(me, y, d, stored.owner) || stored.deleting {
      return true;
    }
    if stored.template.node !in cleanup {
      if y.enabled || stored.replicas == 0 {
        return true;
      }
      if refused {
        return false;
      }
      store.deployments := store.deployments[d := Respec(stored, 0, stored.template)];
      return true;
    }
    ok := store.Delete(d, refused);
  }

  /**
   The loop fails exactly when a change it has to make is refused; it makes every change when it succeeds, and only
   changes that were not refused when it fails.
   */
  ghost predicate ReleaseEnds(before: map<Key, Deployment>, goal: map<Key, Deployment>, refused: Key -> bool,
                              failed: bool, after: map<Key, Deployment>) {
    && before.Keys == goal.Keys == after.Keys
    && (!failed ==> after == goal)
    && (failed <==> exists d :: d in before && refused(d) && goal[d] != before[d])
    && (forall d :: d in after ==> after[d] == before[d] || (!refused(d) && after[d] == goal[d]))
  }

  /** No change to the Deployments in `seen` was refused. */
  ghost predicate NoneRefused(before: map<Key, Deployment>, goal: map<Key, Deployment>, seen: set<Key>,
                              refused: Key -> bool)
    requires before.Keys == goal.Keys
  {
    forall d :: d in before && d in seen && goal[d] != before[d] ==> !refused(d)
  }

  lemma {:induction false} RefusedTurnEnds(before: map<Key, Deployment>, goal: map<Key, Deployment>, seen: set<Key>,
                                           refused: Key -> bool, d: Key, after: map<Key, Deployment>)
    requires before.Keys == goal.Keys && NoneRefused(before, goal, seen, refused) && Partly(before, goal, seen, after)
    requires d in before && refused(d) && goal[d] != before[d]
    ensures ReleaseEnds(before, goal, refused, true, after)
  {
  }

  lemma {:induction false} TurnIsNotRefused(before: map<Key, Deployment>, goal: map<Key, Deployment>, seen: set<Key>,
                                            refused: Key -> bool, d: Key, now: map<Key, Deployment>)
    requires before.Keys == goal.Keys && NoneRefused(before, goal, seen, refused) && Partly(before, goal, seen, now)
    requires d in before && (!refused(d) || goal[d] == now[d])
    ensures NoneRefused(before, goal, seen + {d}, refused)
  {
  }

  lemma {:induction false} AllTurnsEnd(before: map<Key, Deployment>, goal: map<Key, Deployment>, seen: set<Key>,
                                       refused: Key -> bool, after: map<Key, Deployment>)
    requires before.Keys == goal.Keys && NoneRefused(before, goal, seen, refused) && Partly(before, goal, seen, after)
    requires before.Keys <= seen
    ensures ReleaseEnds(before, goal, refused, false, after)
  {
    assert forall d :: d in after ==> after[d] == goal[d];
  }

  /** A turn of the loop takes its Deployment where the loop leaves it. */
  lemma TurnReleases(start: map<Key, Deployment>, seen: set<Key>, now: map<Key, Deployment>, d: Key,
                     me: Key, y: Yanet, cleanup: set<string>)
    requires d in start && Partly(start, Released(start, me, y, cleanup), seen, now)
    ensures var goal := Released(start, me, y, cleanup);
            && ReleasedOne(d, now[d], me, y, cleanup) == goal[d]
            && (goal[d] == now[d] || now[d] == start[d])
            && Partly(start, goal, seen + {d}, now[d := goal[d]])
  {
    ReleasedTwice(d, start[d], me, y, cleanup);
  }

  /**
   After the loop the installation's own Deployments on nodes to leave are marked, those elsewhere are at zero replicas
   if the installation is disabled, and nothing else has changed.
   */
  ghost predicate ReleaseTells(d: Key, before: Deployment, me: Key, y: Yanet, cleanup: set<string>, after: Deployment) {
    var mine := d.ns == me.ns && before.owner == OwnedBy(me.name, y.uid) && !before.deleting;
    var leaves := mine && before.template.node in cleanup;
    && (after.deleting <==> before.deleting || leaves)
    && after.template == before.template && after.owner == before.owner && after.uid == before.uid
    && after.replicas == (if mine && !leaves && !y.enabled then 0 else before.replicas)
    && (after.replicas == before.replicas ==> after == before.(deleting := after.deleting))
    && (after.replicas != before.replicas ==> after.generation == before.generation + 1)
  }

  /** pruneConflictingDeployments stops at the first write that is refused. */
  method PruneConflictingDeployments(store: Store, listed: seq<Key>, me: Key, y: Yanet, cleanup: set<string>,
                                     refused: Key -> bool)
    returns (failed: bool)
    requires Lists(listed, store.deployments)
    modifies store
    ensures ReleaseEnds(old(store.deployments), Released(old(store.deployments), me, y, cleanup), refused, failed,
                        store.deployments)
    ensures !failed ==> forall d :: d in store.deployments ==>
              ReleaseTells(d, old(store.deployments)[d], me, y, cleanup, store.deployments[d])
  {
    ghost var start, seen: set<Key> := store.deployments, {};
    ghost var goal := Released(start, me, y, cleanup);
    for i := 0 to |listed|
      invariant forall j :: 0 <= j < i ==> listed[j] in seen
      invariant Partly(start, goal, seen, store.deployments)
      invariant NoneRefused(start, goal, seen, refused)
    {
      var d := listed[i];
      assert d in listed;
      TurnReleases(start, seen, store.deployments, d, me, y, cleanup);
      ghost var before := store.deployments;
      var ok := ReleaseDeployment(store, d, me, y, cleanup, refused(d));
      if !ok {
        assert store.deployments == before;
        RefusedTurnEnds(start, goal, seen, refused, d, store.deployments);
        return true;
      }
      TurnIsNotRefused(start, goal, seen, refused, d, before);
      seen := seen + {d};
    }
    AllTurnsEnd(start, goal, seen, refused, store.deployments);
    failed := false;
  }

  // ---- The same loops in the protocol ---------------------------------------------------------------------

  /** Turns of the loop over orphans. */
  predicate OrphanTurn(a: Action) {
    (a.Decide? && a.d.Visit?) || (a.Perform? && a.x.MarkOrphan?)
  }

  ghost function OrphansOf(w: World): map<Key, Deployment>
    requires w.pass.Pruning?
  {
    Pruned(w.deployments, w.pass.me, w.pass.y, w.pass.plan.Keys, d => false)
  }

  /** One turn marks the orphan it comes to. */
  lemma OrphanTurnMarks(w: World, a: Action, v: World)
    requires w.pass.Pruning? && (w.pass.final || w.pass.y.autoSync) && Leads(w, a, v) && OrphanTurn(a)
    ensures v.pass == w.pass && v.loop.left <= w.loop.left
    ensures Partly(w.deployments, OrphansOf(w), w.loop.left - v.loop.left, v.deployments)
  {
  }

  /** Marking some orphans and then others marks them all. */
  lemma OrphansAddUp(w: World, v: World, done: set<Key>, more: set<Key>, after: map<Key, Deployment>)
    requires w.pass.Pruning? && v.pass == w.pass && done !! more
    requires Partly(w.deployments, OrphansOf(w), done, v.deployments)
    requires Partly(v.deployments, OrphansOf(v), more, after)
    ensures Partly(w.deployments, OrphansOf(w), done + more, after)
  {
  }

  /** The turns the protocol takes, in any order, do what pruneOrphans does when no deletion is refused. */
  lemma {:induction false} OrphanLoopPrunes(w: World, run: seq<Action>)
    requires w.pass.Pruning? && (w.pass.final || w.pass.y.autoSync) && Valid(w, run)
    requires forall a :: a in run ==> OrphanTurn(a)
    ensures After(w, run).pass == w.pass && After(w, run).loop.left <= w.loop.left
    ensures Partly(w.deployments, OrphansOf(w), w.loop.left - After(w, run).loop.left, After(w, run).deployments)
    decreases |run|
  {
    if run != [] {
      var v, u := Next(w, run[0]), After(w, run);
      OrphanTurnMarks(w, run[0], v);
      OrphanLoopPrunes(v, run[1..]);
      OrphansAddUp(w, v, w.loop.left - v.loop.left, v.loop.left - u.loop.left, u.deployments);
      assert (w.loop.left - v.loop.left) + (v.loop.left - u.loop.left) == w.loop.left - u.loop.left;
    }
  }

  /** A loop over the whole listing ends where the method ends. */
  lemma OrphanLoopIsTheMethod(w: World, run: seq<Action>)
    requires w.pass.Pruning? && (w.pass.final || w.pass.y.autoSync) && Valid(w, run)
    requires forall a :: a in run ==> OrphanTurn(a)
    requires w.loop.left == w.deployments.Keys && After(w, run).loop.left == {}
    ensures After(w, run).deployments == OrphansOf(w)
  {
    OrphanLoopPrunes(w, run);
  }

  /** Turns of the loop over Deployments to release. */
  predicate ReleaseTurn(a: Action) {
    (a.Decide? && a.d.Visit?) || (a.Perform? && (a.x.MarkReleased? || a.x.Drain?))
  }

  ghost function ReleasedOf(w: World): map<Key, Deployment>
    requires w.pass.Releasing?
  {
    Released(w.deployments, w.pass.me, w.pass.y, w.pass.cleanup)
  }

  /** Passing over an item leaves what releasing it would leave. */
  lemma VisitReleases(w: World, d: Key)
    requires w.pass.Releasing? && DecisionEnabled(w, Visit(d)) && d in w.deployments
    ensures ReleasedOne(d, w.deployments[d], w.pass.me, w.pass.y, w.pass.cleanup) == w.deployments[d]
  {
  }

  lemma WriteReleases(w: World, a: Write, v: World)
    requires w.pass.Releasing? && WriteEnabled(w, a) && v == WriteNext(w, a) && (a.MarkReleased? || a.Drain?)
    ensures v.pass == w.pass && v.loop == Visited(w.loop, a.d) && a.d in w.deployments
    ensures v.deployments
         == w.deployments[a.d := ReleasedOne(a.d, w.deployments[a.d], w.pass.me, w.pass.y, w.pass.cleanup)]
  {
  }

  lemma ReleaseTurnReleases(w: World, a: Action, v: World)
    requires w.pass.Releasing? && Leads(w, a, v) && ReleaseTurn(a)
    ensures v.pass == w.pass && v.loop.left <= w.loop.left
    ensures Partly(w.deployments, ReleasedOf(w), w.loop.left - v.loop.left, v.deployments)
  {
    if a.Perform? {
      WriteReleases(w, a.x, v);
    } else if a.d.d in w.deployments {
      VisitReleases(w, a.d.d);
    }
  }

  lemma ReleasesAddUp(w: World, v: World, done: set<Key>, more: set<Key>, after: map<Key, Deployment>)
    requires w.pass.Releasing? && v.pass == w.pass && done !! more
    requires Partly(w.deployments, ReleasedOf(w), done, v.deployments)
    requires Partly(v.deployments, ReleasedOf(v), more, after)
    ensures Partly(w.deployments, ReleasedOf(w), done + more, after)
  {
  }

  lemma {:induction false} ReleaseLoopReleases(w: World, run: seq<Action>)
    requires w.pass.Releasing? && Valid(w, run) && forall a :: a in run ==> ReleaseTurn(a)
    ensures After(w, run).pass == w.pass && After(w, run).loop.left <= w.loop.left
    ensures Partly(w.deployments, ReleasedOf(w), w.loop.left - After(w, run).loop.left, After(w, run).deployments)
    decreases |run|
  {
    if run != [] {
      var v, u := Next(w, run[0]), After(w, run);
      ReleaseTurnReleases(w, run[0], v);
      ReleaseLoopReleases(v, run[1..]);
      ReleasesAddUp(w, v, w.loop.left - v.loop.left, v.loop.left - u.loop.left, u.deployments);
      assert (w.loop.left - v.loop.left) + (v.loop.left - u.loop.left) == w.loop.left - u.loop.left;
    }
  }

  lemma ReleaseLoopIsTheMethod(w: World, run: seq<Action>)
    requires w.pass.Releasing? && Valid(w, run) && forall a :: a in run ==> ReleaseTurn(a)
    requires w.loop.left == w.deployments.Keys && After(w, run).loop.left == {}
    ensures After(w, run).deployments == ReleasedOf(w)
  {
    ReleaseLoopReleases(w, run);
  }
}
