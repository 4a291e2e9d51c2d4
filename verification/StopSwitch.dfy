/**
 The kill switch: both reconcilers recheck spec.stop right before every API write, so at most
 one write (the one whose check had already passed) follows a published stop. The methods keep
 the order of checks, calls and retries of the source; which branch is taken and what a call
 returns is left open, and the switch may be turned by others before every one of them.
 */
module StopSwitch {

  /** What happens, in order: the switch is published, a check is made, a call is issued. */
  datatype Event =
    | Publish(stop: bool)
    | Check(passed: bool)
    | DryRun
    | Write

  datatype Outcome = Done | NotFound | Conflict | Failed

  /** The switch after the first `n` events. */
  ghost function StopAt(trace: seq<Event>, n: nat): bool
    requires n <= |trace|
  {
    if n == 0 then false
    else if trace[n - 1].Publish? then trace[n - 1].stop
    else StopAt(trace, n - 1)
  }

  /** The reconciler's own last event is a check that passed. */
  ghost predicate Armed(trace: seq<Event>) {
    trace != [] && (if trace[|trace| - 1].Publish? then Armed(trace[..|trace| - 1])
                    else trace[|trace| - 1] == Check(true))
  }

  /** Checks tell the truth. */
  ghost predicate Honest(trace: seq<Event>) {
    forall i :: 0 <= i < |trace| && trace[i].Check? ==> trace[i].passed == !StopAt(trace, i)
  }

  /** Every call that writes comes directly after a passed check of its own. */
  ghost predicate Guarded(trace: seq<Event>) {
    forall i :: 0 <= i < |trace| && (trace[i].Write? || trace[i].DryRun?) ==> Armed(trace[..i])
  }

  /** The switch is on from event `n` to the end. */
  ghost predicate StoppedSince(trace: seq<Event>, n: nat) {
    n < |trace| && trace[n] == Publish(true) && forall i :: n < i < |trace| ==> trace[i] != Publish(false)
  }

  /** Wherever the switch goes on for good, at most one write follows. */
  ghost predicate AtMostOneWriteAfterStop(trace: seq<Event>) {
    forall n: nat, i, j :: StoppedSince(trace, n) && n < i < j < |trace| && trace[i].Write? ==> !trace[j].Write?
  }

  lemma {:induction false} StopStaysOn(trace: seq<Event>, n: nat, i: nat)
    requires StoppedSince(trace, n) && n < i <= |trace|
    ensures StopAt(trace, i)
  {
    if i > n + 1 {
      StopStaysOn(trace, n, i - 1);
    }
  }

  /** The check that armed a trace comes after every other own event. */
  lemma {:induction false} ArmedByLaterCheck(trace: seq<Event>, i: nat) returns (c: nat)
    requires Armed(trace) && i < |trace| && !trace[i].Publish?
    ensures i <= c < |trace| && trace[c] == Check(true)
  {
    var last := |trace| - 1;
    if trace[last].Publish? {
      c := ArmedByLaterCheck(trace[..last], i);
    } else {
      c := last;
    }
  }

  lemma GuardedTracesStop(trace: seq<Event>)
    requires Honest(trace) && Guarded(trace)
    ensures AtMostOneWriteAfterStop(trace)
  {
    forall n: nat, i, j | StoppedSince(trace, n) && n < i < j < |trace| && trace[i].Write? && trace[j].Write?
      ensures false
    {
      var c := ArmedByLaterCheck(trace[..j], i);
      assert trace[c] == Check(true);
      StopStaysOn(trace, n, c);
    }
  }

  lemma {:induction false} StopAtPrefix(trace: seq<Event>, more: seq<Event>, n: nat)
    requires n <= |trace|
    ensures StopAt(trace + more, n) == StopAt(trace, n)
  {
    if n > 0 {
      StopAtPrefix(trace, more, n - 1);
    }
  }

  lemma HonestGrows(trace: seq<Event>, e: Event)
    requires Honest(trace) && (e.Check? ==> e.passed == !StopAt(trace, |trace|))
    ensures Honest(trace + [e])
  {
    forall i | 0 <= i < |trace + [e]| && (trace + [e])[i].Check?
      ensures (trace + [e])[i].passed == !StopAt(trace + [e], i)
    {
      StopAtPrefix(trace, [e], i);
    }
  }

  lemma GuardedGrows(trace: seq<Event>, e: Event)
    requires Guarded(trace) && (e.Write? || e.DryRun? ==> Armed(trace))
    ensures Guarded(trace + [e])
  {
    forall i | 0 <= i < |trace + [e]| && ((trace + [e])[i].Write? || (trace + [e])[i].DryRun?)
      ensures Armed((trace + [e])[..i])
    {
      if i < |trace| {
        assert (trace + [e])[..i] == trace[..i];
      } else {
        assert (trace + [e])[..i] == trace;
      }
    }
  }

  /** Appending an event that respects the discipline keeps it. */
  lemma AppendKeeps(trace: seq<Event>, e: Event)
    requires Honest(trace) && Guarded(trace)
    requires e.Check? ==> e.passed == !StopAt(trace, |trace|)
    requires e.Write? || e.DryRun? ==> Armed(trace)
    ensures Honest(trace + [e]) && Guarded(trace + [e])
    ensures StopAt(trace + [e], |trace| + 1) == (if e.Publish? then e.stop else StopAt(trace, |trace|))
    ensures e.Publish? ==> Armed(trace + [e]) == Armed(trace)
    ensures !e.Publish? ==> Armed(trace + [e]) == (e == Check(true))
  {
    HonestGrows(trace, e);
    GuardedGrows(trace, e);
    StopAtPrefix(trace, [e], |trace|);
    assert (trace + [e])[..|trace|] == trace;
  }

  /** One reconciler's view of the API server and of the shared switch. */
  class Api {
    var stop: bool
    ghost var trace: seq<Event>

    ghost predicate Valid()
      reads this
    {
      Honest(trace) && Guarded(trace) && stop == StopAt(trace, |trace|)
    }

    constructor ()
      ensures Valid() && trace == []
    {
      stop, trace := false, [];
    }

    /** The config watcher publishes the switch any number of times. */
    method Others()
      requires Valid()
      modifies this
      ensures Valid() && old(trace) <= trace && Armed(trace) == old(Armed(trace))
    {
      var turns: nat := *;
      while turns > 0
        invariant Valid() && old(trace) <= trace && Armed(trace) == old(Armed(trace))
      {
        var value: bool := *;
        AppendKeeps(trace, Publish(value));
        stop, trace, turns := value, trace + [Publish(value)], turns - 1;
      }
    }
  
    /** checkGlobalStop and sharedServicesStopped: reads the switch under its lock. */
    method Stopped() returns (stopped: bool)
      requires Valid()
      modifies this
      ensures Valid() && old(trace) <= trace && Armed(trace) == !stopped
    {
      Others();
      AppendKeeps(trace, Check(!stop));
      stopped, trace := stop, trace + [Check(!stop)];
    }

    /** A read returns whatever the server has by then. */
    method Read() returns (outcome: Outcome)
      requires Valid()
      modifies this
      ensures Valid() && old(trace) <= trace && Armed(trace) == old(Armed(trace))
    {
      Others();
      outcome := *;
    }

    /** An API write; it demands a check of its own that passed. */
    method Send() returns (outcome: Outcome)
      requires Valid() && Armed(trace)
      modifies this
      ensures Valid() && old(trace) <= trace
    {
      Others();
      AppendKeeps(trace, Write);
      trace := trace + [Write];
      outcome := *;
    }

    /** An update that the server only normalises. */
    method SendDryRun() returns (outcome: Outcome)
      requires Valid() && Armed(trace)
      modifies this
      ensures Valid() && old(trace) <= trace
    {
      Others();
      AppendKeeps(trace, DryRun);
      trace := trace + [DryRun];
      outcome := *;
    }
  }

  /** retry.DefaultRetry. */
  const ATTEMPTS := 5

  method UpdateStatus(api: Api) returns (failed: bool)
    requires api.Valid()
    modifies api
    ensures api.Valid() && old(api.trace) <= api.trace
  {
    for attempt := 0 to ATTEMPTS
      invariant api.Valid() && old(api.trace) <= api.trace
    {
      var got := api.Read();
      if got != Done { return true; }
      var same: bool := *;
      if same { return false; }
      var stopped := api.Stopped();
      if stopped { return true; }
      var sent := api.Send();
      if sent != Conflict { return sent != Done; }
    }
    failed := true;
  }

  method ApplyInlineConfigMaps(api: Api, count: nat, autoSync: bool) returns (failed: bool)
    requires api.Valid()
    modifies api
    ensures api.Valid() && old(api.trace) <= api.trace
  {
    for i := 0 to count
      invariant api.Valid() && old(api.trace) <= api.trace
    {
      var got := api.Read();
      if got == Failed { return true; }
      if autoSync {
        var foreign: bool := *;
        if got == Done && foreign { return true; }
        var stopped := api.Stopped();
        if stopped { return true; }
        var same: bool := *;
        if got == NotFound || !same {
          var sent := api.Send();
          if sent != Done { return true; }
        }
      }
    }
    failed := false;
  }

  /** desiredDeploymentUpdate: apparent drift is normalised by a dry run before it counts. */
  method DesiredDeploymentUpdate(api: Api) returns (changed: bool, stopped: bool, sent: Outcome)
    requires api.Valid()
    modifies api
    ensures api.Valid() && old(api.trace) <= api.trace
  {
    var drift: bool := *;
    if !drift { return false, false, Done; }
    stopped := api.Stopped();
    if stopped { return false, true, Done; }
    sent := api.SendDryRun();
    if sent != Done { return false, false, sent; }
    changed := *;
  }

  method ApplyDeployment(api: Api, autoSync: bool) returns (failed: bool)
    requires api.Valid()
    modifies api
    ensures api.Valid() && old(api.trace) <= api.trace
  {
    var got := api.Read();
    if got == NotFound {
      if !autoSync { return false; }
      var stopped := api.Stopped();
      if stopped { return true; }
      var sent := api.Send();
      return sent != Done;
    }
    var foreign: bool := *;
    if got != Done || foreign { return true; }
    for attempt := 0 to ATTEMPTS
      invariant api.Valid() && old(api.trace) <= api.trace
    {
      got := api.Read();
      foreign := *;
      if got != Done || foreign { return true; }
      var changed, stopped, sent := DesiredDeploymentUpdate(api);
      if sent == Conflict { continue; }
      if stopped || sent != Done { return true; }
      var throttled: bool := *;
      if !changed || !autoSync || throttled { return false; }
      stopped := api.Stopped();
      if stopped { return true; }
      sent := api.Send();
      if sent != Conflict { return sent != Done; }
    }
    failed := true;
  }

  method PruneConflictingDeployments(api: Api, count: nat, enabled: bool) returns (failed: bool)
    requires api.Valid()
    modifies api
    ensures api.Valid() && old(api.trace) <= api.trace
  {
    var got := api.Read();
    if got != Done { return true; }
    for i := 0 to count
      invariant api.Valid() && old(api.trace) <= api.trace
    {
      var skip: bool, conflicting: bool, drained: bool := *, *, *;
      if skip { continue; }
      if !conflicting && (enabled || drained) { continue; }
      var stopped := api.Stopped();
      if stopped { return true; }
      var sent := api.Send();
      if sent != Done && !(conflicting && sent == NotFound) { return true; }
    }
    failed := false;
  }

  method PruneOrphans(api: Api, deployments: nat, maps: nat, autoSync: bool) returns (failed: bool)
    requires api.Valid()
    modifies api
    ensures api.Valid() && old(api.trace) <= api.trace
  {
    failed := false;
    var got := api.Read();
    if got != Done { return true; }
    for i := 0 to deployments
      invariant api.Valid() && old(api.trace) <= api.trace
    {
      var keep: bool := *;
      if keep || !autoSync { continue; }
      var stopped := api.Stopped();
      if stopped { return true; }
      var sent := api.Send();
      failed := failed || (sent != Done && sent != NotFound);
    }
    got := api.Read();
    if got != Done { return true; }
    for i := 0 to maps
      invariant api.Valid() && old(api.trace) <= api.trace
    {
      var keep: bool := *;
      if keep || !autoSync { continue; }
      var stopped := api.Stopped();
      if stopped { return true; }
      var sent := api.Send();
      failed := failed || (sent != Done && sent != NotFound);
    }
  }

  method HandleYanetDeletion(api: Api, finalizer: bool, deployments: nat, maps: nat)
    requires api.Valid()
    modifies api
    ensures api.Valid() && old(api.trace) <= api.trace
  {
    if !finalizer { return; }
    var failed := PruneOrphans(api, deployments, maps, true);
    if failed { return; }
    var got := api.Read();
    var remaining: bool := *;
    if got != Done || remaining { return; }
    var stopped := api.Stopped();
    if stopped { return; }
    var sent := api.Send();
  }

  /**
   reconcileYanet: for any interleaving with the config watcher and any outcome of its calls,
   at most one write follows a stop that stays published.
   */
  method ReconcileYanet(api: Api, deleting: bool, finalizer: bool, autoSync: bool, enabled: bool,
                        nodes: nat, components: nat, deployments: nat, maps: nat)
    requires api.Valid()
    modifies api
    ensures api.Valid() && old(api.trace) <= api.trace
    ensures AtMostOneWriteAfterStop(api.trace)
  {
    var stopped := api.Stopped();
    if !stopped {
      ReconcileRunning(api, deleting, finalizer, autoSync, enabled, nodes, components, deployments, maps);
    }
    GuardedTracesStop(api.trace);
  }

  method ReconcileRunning(api: Api, deleting: bool, finalizer: bool, autoSync: bool, enabled: bool,
                          nodes: nat, components: nat, deployments: nat, maps: nat)
    requires api.Valid()
    modifies api
    ensures api.Valid() && old(api.trace) <= api.trace
  {
    if deleting {
      HandleYanetDeletion(api, finalizer, deployments, maps);
      return;
    }
    if !finalizer {
      var stopped := api.Stopped();
      if stopped { return; }
      var added := api.Send();
      return;
    }
    var degraded: bool, conflict: bool, refused: bool := *, *, *;
    if degraded {
      var ignored := UpdateStatus(api);
      return;
    }
    var listed := api.Read();
    if listed != Done { return; }
    if conflict {
      var status := UpdateStatus(api);
      if autoSync {
        var cleanup := PruneConflictingDeployments(api, deployments, enabled);
      }
      return;
    }
    listed := api.Read();
    if listed != Done || refused {
      var status := UpdateStatus(api);
      return;
    }
    var failed := ApplyAll(api, autoSync, nodes, components, deployments, maps);
    if !failed {
      failed := PruneOrphans(api, deployments, maps, autoSync);
    }
    var status := UpdateStatus(api);
  }

  /** The nested loops over nodes, components and rendered Deployments; errors are collected. */
  method ApplyAll(api: Api, autoSync: bool, nodes: nat, components: nat, deployments: nat, maps: nat)
    returns (failed: bool)
    requires api.Valid()
    modifies api
    ensures api.Valid() && old(api.trace) <= api.trace
  {
    failed := false;
    for n := 0 to nodes
      invariant api.Valid() && old(api.trace) <= api.trace
    {
      for c := 0 to components
        invariant api.Valid() && old(api.trace) <= api.trace
      {
        var mapsFailed := ApplyInlineConfigMaps(api, maps, autoSync);
        if mapsFailed {
          failed := true;
          continue;
        }
        for d := 0 to deployments
          invariant api.Valid() && old(api.trace) <= api.trace
        {
          var applyFailed := ApplyDeployment(api, autoSync);
          failed := failed || applyFailed;
        }
      }
    }
  }

  method ApplySharedService(api: Api) returns (failed: bool)
    requires api.Valid()
    modifies api
    ensures api.Valid() && old(api.trace) <= api.trace
  {
    var invalid: bool := *;
    if invalid { return true; }
    var got := api.Read();
    if got == NotFound {
      var stopped := api.Stopped();
      if stopped { return false; }
      var sent := api.Send();
      return sent != Done;
    }
    var foreign: bool := *;
    if got != Done || foreign { return true; }
    for attempt := 0 to ATTEMPTS
      invariant api.Valid() && old(api.trace) <= api.trace
    {
      got := api.Read();
      foreign := *;
      if got != Done || foreign { return true; }
      var changed: bool := *;
      if !changed { return false; }
      var stopped := api.Stopped();
      if stopped { return false; }
      var sent := api.Send();
      if sent != Conflict { return sent != Done; }
    }
    failed := true;
  }

  /** reconcileSharedServices: the same bound for the config reconciler. */
  method ReconcileSharedServices(api: Api, keys: nat, services: nat)
    requires api.Valid()
    modifies api
    ensures api.Valid() && old(api.trace) <= api.trace
    ensures AtMostOneWriteAfterStop(api.trace)
  {
    ApplyAndPruneServices(api, keys, services);
    GuardedTracesStop(api.trace);
  }

  method ApplyAndPruneServices(api: Api, keys: nat, services: nat)
    requires api.Valid()
    modifies api
    ensures api.Valid() && old(api.trace) <= api.trace
  {
    var got := api.Read();
    if got != Done { return; }
    for i := 0 to keys
      invariant api.Valid() && old(api.trace) <= api.trace
    {
      var blocked: bool := *;
      if blocked { continue; }
      var stopped := api.Stopped();
      if stopped { return; }
      var failed := ApplySharedService(api);
    }
    got := api.Read();
    if got != Done { return; }
    for i := 0 to services
      invariant api.Valid() && old(api.trace) <= api.trace
    {
      var keep: bool := *;
      if keep { continue; }
      var stopped := api.Stopped();
      if stopped { return; }
      var sent := api.Send();
    }
  }
}
