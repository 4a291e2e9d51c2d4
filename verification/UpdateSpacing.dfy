/**
 Updates of Deployments on different nodes are spaced: applyDeployment and checkUpdateRequeue together
 (internal/controller/yanet_reconciler.go and yanet_controller.go). The applications share one throttle; what each of
 them finds stored is arbitrary.
 */
module UpdateSpacing {
  import opened Options
  import opened DeploymentSync
  import Throttle

  datatype Application<S> = Application(
    stored: Option<Object<S>>, desired: Object<S>, autoSync: bool, node: string, now: int)

  /** Applications one after the other, and the state of the throttle before each of them and after the last. */
  datatype Run<S> = Run(window: nat, apps: seq<Application<S>>, throttle: seq<Throttle.State>)

  ghost function ResultOf<S>(norm: S -> S, run: Run<S>, i: nat): Result<S>
    requires i < |run.apps| < |run.throttle|
  {
    var a := run.apps[i];
    Applied(norm, a.stored, run.throttle[i], a.desired, a.autoSync, run.window, a.node, a.now)
  }

  /**
   Every application hands its throttle to the next one. Time does not run backwards, and the operator starts
   long after the stored instant. Defaulting a defaulted spec changes nothing.
   */
  ghost predicate Valid<S(!new)>(norm: S -> S, run: Run<S>) {
    && Idempotent(norm) && run.window > 0 && |run.throttle| == |run.apps| + 1
    && (forall i :: 0 <= i < |run.apps| ==> run.throttle[i + 1] == ResultOf(norm, run, i).throttle)
    && (forall i :: 0 <= i < |run.apps| ==> run.throttle[0].ts + run.window < run.apps[i].now)
    && (forall i, j :: 0 <= i < j < |run.apps| ==> run.apps[i].now <= run.apps[j].now)
  }

  /** Application `i` changes a Deployment that was there. */
  ghost predicate Updates<S>(norm: S -> S, run: Run<S>, i: nat)
    requires i < |run.apps| < |run.throttle|
  {
    run.apps[i].stored.Some? && ResultOf(norm, run, i).stored != run.apps[i].stored
  }

  /** It does so at the very instant the window of another node's update ends. */
  ghost predicate OnBoundary<S>(norm: S -> S, run: Run<S>, i: nat)
    requires i < |run.apps| < |run.throttle|
  {
    var last := run.throttle[i];
    Updates(norm, run, i) && run.apps[i].node != last.host && run.apps[i].now == last.ts + run.window
  }

  /** The application takes the throttle over, and is within its rights. */
  ghost predicate Records<S>(run: Run<S>, i: nat)
    requires i < |run.apps| && i + 1 < |run.throttle|
  {
    var a, last := run.apps[i], run.throttle[i];
    && run.throttle[i + 1] == Throttle.State(a.now, a.node)
    && (a.node == last.host || last.ts + run.window < a.now)
  }

  lemma {:induction false} UpdateIsRecorded<S(!new)>(norm: S -> S, run: Run<S>, i: nat)
    requires Valid(norm, run) && i < |run.apps| && Updates(norm, run, i) && !OnBoundary(norm, run, i)
    ensures Records(run, i)
  {
    var a := run.apps[i];
    AppliedTells(norm, a.stored, run.throttle[i], a.desired, a.autoSync, run.window, a.node, a.now);
  }

  /** The throttle moves only with an update. */
  lemma {:induction false} OnlyUpdatesAreRecorded<S(!new)>(norm: S -> S, run: Run<S>, i: nat)
    requires Valid(norm, run) && i < |run.apps|
    ensures run.throttle[i + 1] == run.throttle[i]
            || (Updates(norm, run, i) && !OnBoundary(norm, run, i) && Records(run, i))
  {
    var a := run.apps[i];
    AppliedTells(norm, a.stored, run.throttle[i], a.desired, a.autoSync, run.window, a.node, a.now);
    if run.throttle[i + 1] != run.throttle[i] {
      assert run.throttle[i + 1] == ResultOf(norm, run, i).throttle;
      DriftMeansChange(norm, a.stored.value, a.desired);
    }
  }

  /** The throttle moves only where applications record themselves. */
  ghost predicate Kept<S(!new)>(run: Run<S>) {
    && |run.throttle| == |run.apps| + 1
    && (forall i :: 0 <= i < |run.apps| ==> run.throttle[i + 1] == run.throttle[i] || Records(run, i))
    && (forall i, j :: 0 <= i < j < |run.apps| ==> run.apps[i].now <= run.apps[j].now)
  }

  /** A recorded update leaves its trace until another node's window begins. */
  lemma {:induction false} TraceOfUpdate<S(!new)>(run: Run<S>, i: nat, j: nat)
    requires Kept(run) && i < j <= |run.apps| && Records(run, i)
    ensures var last := run.throttle[j];
            && run.apps[i].now <= last.ts <= run.apps[j - 1].now
            && (last.host == run.apps[i].node || run.apps[i].now + run.window < last.ts)
  {
    if j > i + 1 {
      TraceOfUpdate(run, i, j - 1);
      assert run.throttle[j] == run.throttle[j - 1] || Records(run, j - 1);
    }
  }

  lemma {:induction false} ValidIsKept<S(!new)>(norm: S -> S, run: Run<S>)
    requires Valid(norm, run)
    ensures Kept(run)
  {
    forall i | 0 <= i < |run.apps| ensures run.throttle[i + 1] == run.throttle[i] || Records(run, i) {
      OnlyUpdatesAreRecorded(norm, run, i);
    }
  }

  ghost predicate UpdatesSpaced<S>(norm: S -> S, run: Run<S>)
    requires |run.apps| < |run.throttle|
  {
    forall i, j :: 0 <= i < j < |run.apps| && Updates(norm, run, i) && Updates(norm, run, j)
                   && run.apps[i].node != run.apps[j].node ==>
      run.apps[i].now + run.window < run.apps[j].now
  }

  /** What the throttle holds is the stored instant or that of an update. */
  lemma {:induction false} StateComesFromUpdate<S(!new)>(norm: S -> S, run: Run<S>, j: nat) returns (i: nat)
    requires Valid(norm, run) && j <= |run.apps| && run.throttle[j] != run.throttle[0]
    ensures i < j && Updates(norm, run, i) && run.throttle[j] == Throttle.State(run.apps[i].now, run.apps[i].node)
  {
    OnlyUpdatesAreRecorded(norm, run, j - 1);
    if run.throttle[j] != run.throttle[j - 1] {
      i := j - 1;
    } else {
      i := StateComesFromUpdate(norm, run, j - 1);
    }
  }

  lemma {:induction false} PairIsSpaced<S(!new)>(norm: S -> S, run: Run<S>, i: nat, j: nat)
    requires Valid(norm, run) && i < j < |run.apps| && run.apps[i].node != run.apps[j].node
    requires Updates(norm, run, i) && !OnBoundary(norm, run, i) && Updates(norm, run, j) && !OnBoundary(norm, run, j)
    ensures run.apps[i].now + run.window < run.apps[j].now
  {
    UpdateIsRecorded(norm, run, i);
    UpdateIsRecorded(norm, run, j);
    ValidIsKept(norm, run);
    TraceOfUpdate(run, i, j);
  }

  /**
   In every run, two applications that change stored Deployments on different nodes lie more than the window
   apart, exactly when none of them falls on the very instant another node's window ends.
   */
  lemma {:induction false} UpdatesSpacedUnlessOnBoundary<S(!new)>(norm: S -> S, run: Run<S>)
    requires Valid(norm, run)
    ensures UpdatesSpaced(norm, run) <==> forall i :: 0 <= i < |run.apps| ==> !OnBoundary(norm, run, i)
  {
    if forall i :: 0 <= i < |run.apps| ==> !OnBoundary(norm, run, i) {
      forall i, j | 0 <= i < j < |run.apps| && Updates(norm, run, i) && Updates(norm, run, j)
                    && run.apps[i].node != run.apps[j].node
        ensures run.apps[i].now + run.window < run.apps[j].now
      {
        PairIsSpaced(norm, run, i, j);
      }
    } else {
      var j :| 0 <= j < |run.apps| && OnBoundary(norm, run, j);
      var i := StateComesFromUpdate(norm, run, j);
      assert Updates(norm, run, i) && Updates(norm, run, j);
    }
  }
}
