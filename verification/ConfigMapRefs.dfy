/**
 The ConfigMaps a Pod refers to (collectPodConfigMapRefs in internal/controller/prune.go).
 */
module ConfigMapRefs {
  import opened Options

  datatype Volume = Volume(configMap: Option<string>, projected: seq<Option<string>>)
  datatype Container = Container(envFrom: seq<Option<string>>, env: seq<Option<string>>)
  datatype PodSpec = PodSpec(volumes: seq<Volume>, containers: seq<Container>, initContainers: seq<Container>)

  /** The container reads the ConfigMap through envFrom or an env key reference. */
  ghost predicate ContainerMentions(c: Container, name: string) {
    Some(name) in c.envFrom || Some(name) in c.env
  }

  ghost predicate VolumeMentions(v: Volume, name: string) {
    v.configMap == Some(name) || Some(name) in v.projected
  }

  /** The Pod uses the ConfigMap through a volume, a projected volume, env or envFrom. */
  ghost predicate Mentions(pod: PodSpec, name: string) {
    || (exists v :: v in pod.volumes && VolumeMentions(v, name))
    || (exists c :: c in pod.containers + pod.initContainers && ContainerMentions(c, name))
  }

  /** Adds the names held by a list of optional references. */
  method AddAll(refs: seq<Option<string>>, referenced: set<string>) returns (r: set<string>)
    ensures forall name :: name in r <==> name in referenced || Some(name) in refs
  {
    r := referenced;
    for i := 0 to |refs|
      invariant forall name :: name in r <==> name in referenced || Some(name) in refs[..i]
    {
      assert refs[..i + 1] == refs[..i] + [refs[i]];
      if refs[i].Some? {
        r := r + {refs[i].value};
      }
    }
    assert refs[..|refs|] == refs;
  }

  /** The set misses no name in any of the places a Pod can refer to a ConfigMap from. */
  ghost predicate MissesNone(pod: PodSpec, r: set<string>) {
    && (forall i, name :: 0 <= i < |pod.volumes| && pod.volumes[i].configMap == Some(name) ==> name in r)
    && (forall i, k :: 0 <= i < |pod.volumes| && 0 <= k < |pod.volumes[i].projected|
                       && pod.volumes[i].projected[k].Some? ==>
          pod.volumes[i].projected[k].value in r)
    && (forall i :: 0 <= i < |pod.containers| ==> ReadsOnly(pod.containers[i], r))
    && (forall i :: 0 <= i < |pod.initContainers| ==> ReadsOnly(pod.initContainers[i], r))
  }

  /** The container reads ConfigMaps of the set only. */
  ghost predicate ReadsOnly(c: Container, r: set<string>) {
    && (forall k :: 0 <= k < |c.envFrom| && c.envFrom[k].Some? ==> c.envFrom[k].value in r)
    && (forall k :: 0 <= k < |c.env| && c.env[k].Some? ==> c.env[k].value in r)
  }

  lemma MentionedMissesNone(pod: PodSpec, r: set<string>)
    requires forall name :: Mentions(pod, name) ==> name in r
    ensures MissesNone(pod, r)
  {
    forall i, k | 0 <= i < |pod.volumes| && 0 <= k < |pod.volumes[i].projected| && pod.volumes[i].projected[k].Some?
      ensures pod.volumes[i].projected[k].value in r
    {
      assert VolumeMentions(pod.volumes[i], pod.volumes[i].projected[k].value);
    }
    forall i, name | 0 <= i < |pod.volumes| && pod.volumes[i].configMap == Some(name) ensures name in r {
      assert VolumeMentions(pod.volumes[i], name);
    }
    forall c | c in pod.containers || c in pod.initContainers ensures ReadsOnly(c, r) {
      assert c in pod.containers + pod.initContainers;
      assert forall name :: ContainerMentions(c, name) ==> Mentions(pod, name);
    }
  }

  /** collectPodConfigMapRefs: adds exactly the ConfigMaps the Pod mentions. */
  method CollectPodConfigMapRefs(pod: PodSpec, referenced: set<string>) returns (r: set<string>)
    ensures forall name :: name in r <==> name in referenced || Mentions(pod, name)
    ensures MissesNone(pod, r)
  {
    r := referenced;
    for i := 0 to |pod.volumes|
      invariant forall name :: name in r <==>
        (name in referenced || exists v :: v in pod.volumes[..i] && VolumeMentions(v, name))
    {
      var volume := pod.volumes[i];
      assert pod.volumes[..i + 1] == pod.volumes[..i] + [volume];
      ghost var before := r;
      if volume.configMap.Some? {
        r := r + {volume.configMap.value};
      }
      r := AddAll(volume.projected, r);
      assert forall name :: name in r <==> name in before || VolumeMentions(volume, name);
    }
    assert pod.volumes[..|pod.volumes|] == pod.volumes;
    var fromVolumes := r;
    var containers := pod.containers + pod.initContainers;
    for i := 0 to |containers|
      invariant forall name :: name in r <==>
        (name in fromVolumes || exists c :: c in containers[..i] && ContainerMentions(c, name))
    {
      var container := containers[i];
      assert containers[..i + 1] == containers[..i] + [container];
      ghost var before := r;
      r := AddAll(container.envFrom, r);
      r := AddAll(container.env, r);
      assert forall name :: name in r <==> name in before || ContainerMentions(container, name);
    }
    assert containers[..|containers|] == containers;
    MentionedMissesNone(pod, r);
  }
}
