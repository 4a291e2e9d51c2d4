/**
 An installation that does not synchronise is only reported on: its passes write nothing but its finalizer, in every
 run, until it is deleted (internal/controller/yanet_reconciler.go, prune.go).
 */
module ReportOnly {
  import opened Protocol

  /** The positions in which a pass may write belong to installations that synchronise or are being deleted. */
  ghost predicate Invariant(w: World) {
    && (w.pass.Releasing? ==> w.pass.y.autoSync)
    && (w.pass.Pruning? && w.pass.final ==> w.pass.y.deleting)
    && (w.pass.Sweeping? && !w.pass.y.autoSync && !w.pass.y.deleting ==> w.pass.doomed == {})
    && (w.pass.Sweeping? && w.pass.final ==> w.pass.y.deleting)
    && (w.pass.Unlisting? ==> w.pass.y.deleting)
  }

  lemma DecisionKeepsInvariant(w: World, a: Decision, v: World)
    requires Invariant(w) && DecisionEnabled(w, a) && v == DecisionNext(w, a)
    ensures Invariant(v)
  {
  }

  lemma SamePassKeepsInvariant(w: World, v: World)
    requires Invariant(w) && (v.pass == w.pass || v.pass.Idle?)
    ensures Invariant(v)
  {
  }

  lemma StepKeepsInvariant(w: World, a: Action, v: World)
    requires Invariant(w) && Leads(w, a, v)
    ensures Invariant(v)
  {
    match a
    case ByOthers(o) => SamePassKeepsInvariant(w, OutsideNext(w, o));
    case ByControllers(c) => SamePassKeepsInvariant(w, WorkloadNext(w, c));
    case Decide(d) => DecisionKeepsInvariant(w, d, v);
    case Perform(x) => SamePassKeepsInvariant(w, WriteNext(w, x));
  }

  lemma {:induction false} RunKeepsInvariant(w: World, run: seq<Action>)
    requires Invariant(w) && Valid(w, run)
    ensures Invariant(After(w, run))
    decreases |run|
  {
    if run != [] {
      StepKeepsInvariant(w, run[0], Next(w, run[0]));
      RunKeepsInvariant(Next(w, run[0]), run[1..]);
    }
  }

  /** In every run, the only write for an installation without autoSync that is not being deleted is its finalizer. */
  lemma ReportingWritesNothing(run: seq<Action>, x: Write)
    requires Valid(Empty(), run) && Enabled(After(Empty(), run), Perform(x))
    requires var p := After(Empty(), run).pass; !p.Idle? && !p.y.autoSync && !p.y.deleting
    ensures x == AddFinalizer
  {
    RunKeepsInvariant(Empty(), run);
    assert WriteEnabled(After(Empty(), run), x);
  }
}
