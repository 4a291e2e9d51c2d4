/**
 Bringing one stored Deployment to its rendered state
 (internal/controller/yanet_reconciler.go, applyDeployment). The API server's defaulting of a
 spec is an arbitrary function; the spec itself is opaque.
 */
module DeploymentSync {
  import opened Options
  import opened ManagedMeta
  import Throttle

  datatype OwnerRef = OwnerRef(apiVersion: string, kind: string, name: string, uid: string)

  /** `owner` is the controller owner reference. */
  datatype Object<S> = Object(meta: Meta, owner: Option<OwnerRef>, spec: S)

  datatype SyncState = Synced | Missing | OutOfSync | Waiting | Error

  /** validateDeploymentOwnership. */
  predicate SameOwner<S>(existing: Object<S>, desired: Object<S>) {
    && desired.owner.Some? && existing.owner.Some?
    && (desired.owner.value.uid != "" ==> existing.owner.value.uid == desired.owner.value.uid)
    && existing.owner.value.apiVersion == desired.owner.value.apiVersion
    && existing.owner.value.kind == desired.owner.value.kind
    && existing.owner.value.name == desired.owner.value.name
  }

  /** The stored object with the rendered spec, owner and managed metadata. */
  ghost function Candidate<S>(existing: Object<S>, desired: Object<S>): Object<S> {
    Object(MergedMeta(existing.meta, desired.meta), desired.owner, desired.spec)
  }

  /** desiredDeploymentUpdate: apparent drift is normalised by the server before it counts. */
  ghost function Normalized<S>(norm: S -> S, existing: Object<S>, desired: Object<S>): Object<S> {
    var c := Candidate(existing, desired);
    if c == existing then c else c.(spec := norm(c.spec))
  }

  datatype Result<S> = Result(stored: Option<Object<S>>, throttle: Throttle.State, state: SyncState, delay: int)

  /** What one application does to the store and the throttle. */
  ghost function Applied<S>(norm: S -> S, stored: Option<Object<S>>, throttle: Throttle.State, desired: Object<S>,
                            autoSync: bool, window: nat, node: string, now: int): Result<S>
  {
    match stored
    case None =>
      if !autoSync then Result(None, throttle, Missing, 0)
      else Result(Some(Object(MergedMeta(desired.meta, desired.meta), desired.owner, norm(desired.spec))), throttle,
                  Synced, 0)
    case Some(existing) =>
      if !SameOwner(existing, desired) then Result(stored, throttle, Error, 0)
      else
        var candidate := Normalized(norm, existing, desired);
        if candidate == existing then Result(stored, throttle, Synced, 0)
        else if !autoSync then Result(stored, throttle, OutOfSync, 0)
        else
          var answer := Throttle.Ask(throttle, window, Throttle.Request(now, node));
          if answer.delay > 0 then Result(stored, answer.state, Waiting, answer.delay)
          else Result(Some(candidate.(spec := norm(candidate.spec))), answer.state, Synced, answer.delay)
  }

  // ---- What an application does, branch by branch ---------------------------------------------------

  /** Both have a controller, of one API version, kind and name, and of the desired UID if that is known. */
  ghost predicate OwnersAgree<S>(existing: Object<S>, desired: Object<S>) {
    match (existing.owner, desired.owner)
    case (Some(theirs), Some(ours)) =>
      theirs.(uid := ours.uid) == ours && (ours.uid == theirs.uid || ours.uid == "")
    case _ => false
  }

  /** Metadata, owner or spec differ from the rendered ones, before and after defaulting. */
  ghost predicate Drifted<S>(norm: S -> S, existing: Object<S>, desired: Object<S>) {
    || MergedMeta(existing.meta, desired.meta) != existing.meta || existing.owner != desired.owner
    || (existing.spec != desired.spec && existing.spec != norm(desired.spec))
  }

  /** Another node was granted the last update, and its window has not ended. */
  predicate Throttled(throttle: Throttle.State, window: nat, node: string, now: int) {
    window != 0 && node != throttle.host && now < throttle.ts + window
  }

  /** The outcome of an application in terms of what was stored. */
  ghost predicate Tells<S>(norm: S -> S, stored: Option<Object<S>>, throttle: Throttle.State, desired: Object<S>,
                           autoSync: bool, window: nat, node: string, now: int, r: Result<S>) {
    var foreign := stored.Some? && !OwnersAgree(stored.value, desired);
    var drifted := stored.Some? && !foreign && Drifted(norm, stored.value, desired);
    var waits := drifted && autoSync && Throttled(throttle, window, node, now);
    && (r.state == Missing <==> stored.None? && !autoSync)
    && (r.state == Error <==> foreign)
    && (r.state == OutOfSync <==> drifted && !autoSync)
    && (r.state == Waiting <==> waits)
    && r.delay == (if waits then throttle.ts + window - now else 0)
    && (r.stored != stored ==> r.state == Synced && autoSync && (stored.None? || drifted))
    && (stored.None? && autoSync ==> r.stored.Some? && r.stored.value.spec == norm(desired.spec))
    && (drifted && r.state == Synced ==> r.stored.Some? && r.stored.value.spec == norm(norm(desired.spec)))
    && (r.throttle != throttle ==>
          drifted && r.state == Synced && window != 0 && r.throttle == Throttle.State(now, node))
    && (drifted && r.state == Synced && window != 0 && r.throttle == throttle ==>
          throttle == Throttle.State(now, node) || (node != throttle.host && now == throttle.ts + window))
  }

  lemma {:induction false} DriftMeansChange<S(!new)>(norm: S -> S, existing: Object<S>, desired: Object<S>)
    ensures Normalized(norm, existing, desired) != existing <==> Drifted(norm, existing, desired)
    ensures Drifted(norm, existing, desired) ==>
              Normalized(norm, existing, desired)
              == Object(MergedMeta(existing.meta, desired.meta), desired.owner, norm(desired.spec))
  {
  }

  /** Only what the states promise happens: all but "synced" leave the stored object alone. */
  lemma {:induction false} AppliedTells<S(!new)>(norm: S -> S, stored: Option<Object<S>>, throttle: Throttle.State,
                                                 desired: Object<S>, autoSync: bool, window: nat, node: string,
                                                 now: int)
    ensures Tells(norm, stored, throttle, desired, autoSync, window, node, now,
                  Applied(norm, stored, throttle, desired, autoSync, window, node, now))
  {
    if stored.Some? {
      DriftMeansChange(norm, stored.value, desired);
      assert SameOwner(stored.value, desired) <==> OwnersAgree(stored.value, desired);
    }
  }

  class Reconciler<S(==, !new)> {
    var stored: Option<Object<S>>
    const throttle: Throttle.UpdateThrottle

    constructor (stored: Option<Object<S>>, throttle: Throttle.UpdateThrottle)
      ensures this.stored == stored && this.throttle == throttle
    {
      this.stored, this.throttle := stored, throttle;
    }

    method DesiredDeploymentUpdate(norm: S -> S, existing: Object<S>, desired: Object<S>)
      returns (candidate: Object<S>, changed: bool)
      ensures candidate == Normalized(norm, existing, desired) && changed == (candidate != existing)
    {
      var meta := new ObjectMeta(existing.meta);
      meta.MergeManagedMeta(desired.meta);
      candidate := Object(meta.Value(), desired.owner, desired.spec);
      if candidate == existing {
        return candidate, false;
      }
      candidate := candidate.(spec := norm(candidate.spec));
      changed := candidate != existing;
    }

    method ApplyDeployment(norm: S -> S, desired: Object<S>, autoSync: bool, updateWindow: nat, nodeName: string,
                           now: int)
      returns (state: SyncState, requeue: int)
      modifies this`stored, throttle
      ensures Result(stored, throttle.Value(), state, requeue)
           == Applied(norm, old(stored), old(throttle.Value()), desired, autoSync, updateWindow, nodeName, now)
      ensures Tells(norm, old(stored), old(throttle.Value()), desired, autoSync, updateWindow, nodeName, now,
                    Result(stored, throttle.Value(), state, requeue))
    {
      AppliedTells(norm, stored, throttle.Value(), desired, autoSync, updateWindow, nodeName, now);
      if stored.None? {
        if !autoSync {
          return Missing, 0;
        }
        var meta := new ObjectMeta(desired.meta);
        meta.MergeManagedMeta(desired.meta);
        stored := Some(Object(meta.Value(), desired.owner, norm(desired.spec)));
        return Synced, 0;
      }
      var existing := stored.value;
      if !SameOwner(existing, desired) {
        return Error, 0;
      }
      var candidate, changed := DesiredDeploymentUpdate(norm, existing, desired);
      if !changed {
        return Synced, 0;
      }
      if !autoSync {
        return OutOfSync, 0;
      }
      requeue := throttle.CheckUpdateRequeue(updateWindow, nodeName, now);
      if requeue > 0 {
        return Waiting, requeue;
      }
      stored := Some(candidate.(spec := norm(candidate.spec)));
      state := Synced;
    }
  }

  /** Defaulting a defaulted spec changes nothing. */
  ghost predicate Idempotent<S(!new)>(norm: S -> S) {
    forall s :: norm(norm(s)) == norm(s)
  }

  /** A synced Deployment holds the defaulted rendered spec, the rendered owner and metadata. */
  lemma {:induction false} SyncedMeansRendered<S(!new)>(norm: S -> S, stored: Option<Object<S>>,
                                                        throttle: Throttle.State, desired: Object<S>, autoSync: bool,
                                                        window: nat, node: string, now: int)
    requires Idempotent(norm) && Admissible(Apply(desired.meta))
    requires stored.Some? ==> norm(stored.value.spec) == stored.value.spec
    requires Applied(norm, stored, throttle, desired, autoSync, window, node, now).state == Synced
    ensures var r := Applied(norm, stored, throttle, desired, autoSync, window, node, now);
            && r.stored.Some? && r.stored.value.spec == norm(desired.spec) && r.stored.value.owner == desired.owner
            && MergedMeta(r.stored.value.meta, desired.meta) == r.stored.value.meta
  {
    if stored.None? {
      MergeIsIdempotent(desired.meta, desired.meta);
    } else {
      MergeIsIdempotent(stored.value.meta, desired.meta);
    }
  }

  /**
   Applying the same desired Deployment again, whenever and in whichever mode, persists
   nothing, reports "synced", asks for no delay and leaves the throttle alone.
   */
  lemma {:induction false} SecondApplicationIsSilent<S(!new)>(norm: S -> S, stored: Option<Object<S>>,
                                                              throttle: Throttle.State, desired: Object<S>,
                                                              autoSync: bool, window: nat, node: string, now: int,
                                                              throttle': Throttle.State, autoSync': bool, window': nat,
                                                              node': string, now': int)
    requires Idempotent(norm) && Admissible(Apply(desired.meta)) && desired.owner.Some?
    requires stored.Some? ==> norm(stored.value.spec) == stored.value.spec
    requires Applied(norm, stored, throttle, desired, autoSync, window, node, now).state == Synced
    ensures var r := Applied(norm, stored, throttle, desired, autoSync, window, node, now);
            var again := Applied(norm, r.stored, throttle', desired, autoSync', window', node', now');
            again == Result(r.stored, throttle', Synced, 0)
  {
    SyncedMeansRendered(norm, stored, throttle, desired, autoSync, window, node, now);
  }

  /** Two workloads of one name overwrite each other: while both report "synced", each application is a write. */
  lemma {:induction false} SharedNameNeverSettles<S(!new)>(norm: S -> S, stored: Option<Object<S>>,
                                                           throttle: Throttle.State, a: Object<S>, b: Object<S>,
                                                           window: nat, node: string, now: int, later: int)
    requires Idempotent(norm) && Admissible(Apply(a.meta)) && Admissible(Apply(b.meta))
    requires stored.Some? ==> norm(stored.value.spec) == stored.value.spec
    requires norm(a.spec) != norm(b.spec)
    requires var first := Applied(norm, stored, throttle, a, true, window, node, now);
             && first.state == Synced
             && Applied(norm, first.stored, first.throttle, b, true, window, node, later).state == Synced
    ensures var first := Applied(norm, stored, throttle, a, true, window, node, now);
            Applied(norm, first.stored, first.throttle, b, true, window, node, later).stored != first.stored
  {
    var first := Applied(norm, stored, throttle, a, true, window, node, now);
    SyncedMeansRendered(norm, stored, throttle, a, true, window, node, now);
    SyncedMeansRendered(norm, first.stored, first.throttle, b, true, window, node, later);
  }
}
