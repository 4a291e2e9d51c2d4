/**
 Which inline ConfigMaps an installation may drop (internal/controller/prune.go).
 */
module ConfigMaps {
  import opened Cluster
  import opened ConfigMapRefs
  import opened PlacementGate

  /** Observed by its controller, and every replica is of the current template. */
  predicate Settled(d: Deployment) {
    && !d.deleting && d.status.observed >= d.generation
    && d.status.updated == d.replicas && d.status.replicas == d.replicas
  }

  /** A template of a controlled Deployment or a Pod labelled for the installation uses it. */
  ghost predicate InUse(live: Live, me: Key, y: Yanet, name: string) {
    || (exists d :: d in live.deployments && Controls(me, y, d, live.deployments[d].owner)
                    && Mentions(live.deployments[d].template.pod, name))
    || (exists p :: p in live.pods && live.pods[p].ns == me.ns
                    && live.pods[p].template.yanet == me.name && Mentions(live.pods[p].template.pod, name))
  }

  ghost predicate RolloutPending(live: Live, me: Key, y: Yanet) {
    exists d :: d in live.deployments && Controls(me, y, d, live.deployments[d].owner)
                && !Settled(live.deployments[d])
  }

  /** The ConfigMap is the installation's and not yet deleted, not wanted, and nothing may still need it. */
  ghost predicate Disposable(live: Live, maps: map<Key, ConfigMap>, me: Key, y: Yanet, keep: set<Key>, c: Key) {
    && c in maps && Controls(me, y, c, maps[c].owner) && maps[c].yanet == me.name && !maps[c].deleting
    && c !in keep && !InUse(live, me, y, c.name) && !RolloutPending(live, me, y)
  }

  /** A Deployment of the installation whose rollout is finished and whose template does not mention the name. */
  ghost predicate Past(d: Deployment, name: string) {
    && !d.deleting && d.status.observed >= d.generation
    && d.replicas == d.status.replicas == d.status.updated && !Mentions(d.template.pod, name)
  }

  /**
   When a ConfigMap goes, in terms of the objects: it is the installation's own and not kept, every Deployment of the
   installation has finished its rollout without it, and no Pod labelled for the installation mentions it.
   */
  lemma DisposableExactly(live: Live, maps: map<Key, ConfigMap>, me: Key, y: Yanet, keep: set<Key>, c: Key)
    ensures Disposable(live, maps, me, y, keep, c) <==>
              && c in maps && maps[c] == ConfigMap(OwnedBy(me.name, y.uid), me.name, false)
              && c.ns == me.ns && c !in keep
              && (forall d :: d in live.deployments && d.ns == me.ns
                              && live.deployments[d].owner == OwnedBy(me.name, y.uid) ==>
                    Past(live.deployments[d], c.name))
              && (forall p :: p in live.pods && live.pods[p].ns == me.ns && live.pods[p].template.yanet == me.name ==>
                    !Mentions(live.pods[p].template.pod, c.name))
  {
  }

  /** The ConfigMap half of pruneOrphans: selects exactly the disposable ConfigMaps. */
  method OrphanConfigMaps(live: Live, maps: map<Key, ConfigMap>, deployments: seq<Key>, pods: seq<nat>, names: seq<Key>,
                          me: Key, y: Yanet, keep: set<Key>)
    returns (doomed: set<Key>)
    requires forall d :: d in deployments <==> d in live.deployments
    requires forall p :: p in pods <==> p in live.pods
    requires forall c :: c in names <==> c in maps
    ensures forall c :: c in doomed <==> Disposable(live, maps, me, y, keep, c)
  {
    var referenced, pending := {}, false;
    for i := 0 to |deployments|
      invariant forall name :: name in referenced <==>
        exists d :: d in deployments[..i] && Controls(me, y, d, live.deployments[d].owner)
                    && Mentions(live.deployments[d].template.pod, name)
      invariant pending <==>
        exists d :: d in deployments[..i] && Controls(me, y, d, live.deployments[d].owner)
                    && !Settled(live.deployments[d])
    {
      var d := deployments[i];
      assert d in live.deployments;
      assert deployments[..i + 1] == deployments[..i] + [d];
      if Controls(me, y, d, live.deployments[d].owner) {
        referenced := CollectPodConfigMapRefs(live.deployments[d].template.pod, referenced);
        if !Settled(live.deployments[d]) {
          pending := true;
        }
      }
    }
    assert deployments[..|deployments|] == deployments;
    var fromTemplates := referenced;
    for i := 0 to |pods|
      invariant forall name :: name in referenced <==>
        (name in fromTemplates ||
         exists p :: p in pods[..i] && live.pods[p].ns == me.ns
                     && live.pods[p].template.yanet == me.name && Mentions(live.pods[p].template.pod, name))
    {
      var p := pods[i];
      assert p in live.pods;
      assert pods[..i + 1] == pods[..i] + [p];
      if live.pods[p].ns == me.ns && live.pods[p].template.yanet == me.name {
        referenced := CollectPodConfigMapRefs(live.pods[p].template.pod, referenced);
      }
    }
    assert pods[..|pods|] == pods;
    assert forall name :: name in referenced <==> InUse(live, me, y, name);
    assert pending <==> RolloutPending(live, me, y);
    doomed := {};
    for i := 0 to |names|
      invariant forall c :: c in doomed <==> c in names[..i] && Disposable(live, maps, me, y, keep, c)
    {
      var c := names[i];
      assert c in maps;
      assert names[..i + 1] == names[..i] + [c];
      if Controls(me, y, c, maps[c].owner) && maps[c].yanet == me.name && !maps[c].deleting
         && c !in keep && c.name !in referenced && !pending {
        doomed := doomed + {c};
      }
    }
    assert names[..|names|] == names;
  }
}
