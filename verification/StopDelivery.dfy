/**
 A persisted stop and the writes of a reconciler: the config snapshot of Snapshot feeds the switch of StopSwitch. At
 most one write follows a visible, persisted stop for as long as no refresh publishes an absent or broken answer; once
 one does, writes go on.
 */
module StopDelivery {
  import Snapshot
  import opened StopSwitch

  /** A step of the refreshers, or an event of the reconciler's own. */
  datatype Joint = Refresh(step: Snapshot.Step) | Own(event: Event)

  ghost predicate JointValid(s: Snapshot.State, run: seq<Joint>)
    decreases |run|
  {
    run == [] || match run[0] {
      case Refresh(step) => Snapshot.Enabled(s, step) && JointValid(Snapshot.Next(s, step), run[1..])
      case Own(event) => !event.Publish? && JointValid(s, run[1..])
    }
  }

  /** What the reconciler sees: every publication shows or hides the stop. */
  ghost function TraceOf(s: Snapshot.State, run: seq<Joint>): seq<Event>
    requires JointValid(s, run)
    decreases |run|
  {
    if run == [] then []
    else match run[0] {
      case Refresh(step) =>
        var t := Snapshot.Next(s, step);
        (if step.Publish? then [Publish(Snapshot.StopVisible(t))] else []) + TraceOf(t, run[1..])
      case Own(event) => [event] + TraceOf(s, run[1..])
    }
  }

  /** The stop stays in the stored config, and no refresh publishes an absent or broken answer. */
  ghost predicate Persists(s: Snapshot.State, run: seq<Joint>)
    requires JointValid(s, run)
    decreases |run|
  {
    run == [] || match run[0] {
      case Refresh(step) =>
        && (step.Edit? ==> step.stop) && (step.Publish? ==> s.refreshers[step.who].answer.Config?)
        && Persists(Snapshot.Next(s, step), run[1..])
      case Own(_) => Persists(s, run[1..])
    }
  }

  /** A stop is visible, and every version from the visible one on carries it. */
  ghost predicate StopPersisted(s: Snapshot.State) {
    Snapshot.StopVisible(s) && forall v :: s.shown.version <= v < |s.configs| ==> s.configs[v]
  }

  /** One step keeps a persisted stop visible. */
  lemma StepKeepsStop(s: Snapshot.State, step: Snapshot.Step)
    requires Snapshot.Invariant(s) && StopPersisted(s) && Snapshot.Enabled(s, step)
    requires (step.Edit? ==> step.stop) && (step.Publish? ==> s.refreshers[step.who].answer.Config?)
    ensures Snapshot.Invariant(Snapshot.Next(s, step)) && StopPersisted(Snapshot.Next(s, step))
  {
    Snapshot.StepKeepsInvariant(s, step);
    if step.Publish? {
      assert Snapshot.Holds(s, step.who);
    }
  }

  lemma {:induction false} PersistedStopIsNotTakenBack(s: Snapshot.State, run: seq<Joint>)
    requires Snapshot.Invariant(s) && StopPersisted(s) && JointValid(s, run) && Persists(s, run)
    ensures Publish(false) !in TraceOf(s, run)
    decreases |run|
  {
    if run != [] {
      match run[0]
      case Refresh(step) =>
        StepKeepsStop(s, step);
        PersistedStopIsNotTakenBack(Snapshot.Next(s, step), run[1..]);
      case Own(_) => PersistedStopIsNotTakenBack(s, run[1..]);
    }
  }

  /** While the stop persists, at most one write of a guarded reconciler follows its publication. */
  lemma PersistedStopStops(before: seq<Event>, s: Snapshot.State, run: seq<Joint>, i: nat, j: nat)
    requires Snapshot.Invariant(s) && StopPersisted(s) && JointValid(s, run) && Persists(s, run)
    requires var trace := before + [Publish(true)] + TraceOf(s, run);
             Honest(trace) && Guarded(trace) && |before| < i < j < |trace| && trace[i].Write?
    ensures !(before + [Publish(true)] + TraceOf(s, run))[j].Write?
  {
    var trace := before + [Publish(true)] + TraceOf(s, run);
    PersistedStopIsNotTakenBack(s, run);
    assert StoppedSince(trace, |before|) by {
      forall k | |before| < k < |trace| ensures trace[k] != Publish(false) {
        assert trace[k] == TraceOf(s, run)[k - |before| - 1];
      }
    }
    GuardedTracesStop(trace);
  }

  /** A refresh that fails to read, followed by two guarded writes. */
  function BrokenRefresh(who: nat): seq<Joint> {
    [Refresh(Snapshot.Lock(who)), Refresh(Snapshot.Read(who, Snapshot.Broken)), Refresh(Snapshot.Publish(who)),
     Own(Check(true)), Own(Write), Own(Check(true)), Own(Write)]
  }

  /** One refresh that fails to read is enough to lift a persisted stop: a guarded reconciler writes on. */
  lemma BrokenRefreshReleases(before: seq<Event>, s: Snapshot.State, who: nat)
    requires StopPersisted(s) && Snapshot.Enabled(s, Snapshot.Lock(who))
    requires Honest(before + [Publish(true)]) && Guarded(before + [Publish(true)])
    ensures JointValid(s, BrokenRefresh(who))
    ensures var trace := before + [Publish(true)] + TraceOf(s, BrokenRefresh(who));
            && Honest(trace) && Guarded(trace)
            && |trace| == |before| + 6 && trace[|before| + 3].Write? && trace[|before| + 5].Write?
  {
    BrokenRefreshTrace(s, who);
    var t0 := before + [Publish(true)] + [Publish(false)];
    AppendKeeps(before + [Publish(true)], Publish(false));
    WriteAgain(t0);
    WriteAgain(t0 + [Check(true), Write]);
    Spelled(before + [Publish(true)]);
  }

  lemma Spelled(trace: seq<Event>)
    ensures trace + [Publish(false)] + [Check(true), Write] + [Check(true), Write]
         == trace + [Publish(false), Check(true), Write, Check(true), Write]
  {
  }

  /** While no stop is shown, one more guarded write is possible. */
  lemma WriteAgain(trace: seq<Event>)
    requires Honest(trace) && Guarded(trace) && !StopAt(trace, |trace|)
    ensures var longer := trace + [Check(true), Write];
            Honest(longer) && Guarded(longer) && !StopAt(longer, |longer|)
  {
    AppendKeeps(trace, Check(true));
    AppendKeeps(trace + [Check(true)], Write);
    assert trace + [Check(true)] + [Write] == trace + [Check(true), Write];
  }

  lemma BrokenRefreshTrace(s: Snapshot.State, who: nat)
    requires Snapshot.Enabled(s, Snapshot.Lock(who))
    ensures JointValid(s, BrokenRefresh(who))
    ensures TraceOf(s, BrokenRefresh(who)) == [Publish(false), Check(true), Write, Check(true), Write]
  {
    var run := BrokenRefresh(who);
    var locked := Snapshot.Next(s, Snapshot.Lock(who));
    var read := Snapshot.Next(locked, Snapshot.Read(who, Snapshot.Broken));
    OwnTrace(Snapshot.Next(read, Snapshot.Publish(who)), [Check(true), Write, Check(true), Write], run[3..]);
    OneRefresh(read, Snapshot.Publish(who), run[2..], run[3..]);
    OneRefresh(locked, Snapshot.Read(who, Snapshot.Broken), run[1..], run[2..]);
    OneRefresh(s, Snapshot.Lock(who), run, run[1..]);
  }

  lemma OneRefresh(s: Snapshot.State, step: Snapshot.Step, run: seq<Joint>, rest: seq<Joint>)
    requires run == [Refresh(step)] + rest
    requires Snapshot.Enabled(s, step) && JointValid(Snapshot.Next(s, step), rest)
    ensures JointValid(s, run)
    ensures var t := Snapshot.Next(s, step);
            TraceOf(s, run) == (if step.Publish? then [Publish(Snapshot.StopVisible(t))] else []) + TraceOf(t, rest)
  {
    assert run[1..] == rest;
  }

  lemma {:induction false} OwnTrace(s: Snapshot.State, events: seq<Event>, run: seq<Joint>)
    requires |run| == |events| && forall i :: 0 <= i < |run| ==> run[i] == Own(events[i]) && !events[i].Publish?
    ensures JointValid(s, run) && TraceOf(s, run) == events
    decreases |run|
  {
    if run != [] {
      OwnTrace(s, events[1..], run[1..]);
      assert events == [events[0]] + events[1..];
    }
  }
}
