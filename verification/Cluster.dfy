/**
 The cluster objects the operator reads and writes. Label maps of rendered Pods are kept as
 the identity labels they carry: owning installation, node, component and the sidecar roles
 whose membership label holds the full role name.
 */
module Cluster {
  import opened ConfigMapRefs

  type Labels = map<string, string>

  /** Namespace and name of a namespaced object. */
  datatype Key = Key(ns: string, name: string)

  /** A Yanet installation; `finalizer` is the operator's own, `foreignFinalizer` any other. */
  datatype Yanet = Yanet(
    uid: nat, created: int, selector: Labels,
    finalizer: bool, foreignFinalizer: bool, deleting: bool,
    autoSync: bool, enabled: bool)

  /** The controller owner reference of an object. */
  datatype Owner = Unowned | OwnedBy(name: string, uid: nat)

  /** What a Pod template says: identity labels and the part of the Pod spec that refers to ConfigMaps. */
  datatype Template = Template(
    yanet: string, node: string, component: string, members: set<string>, pod: PodSpec)

  datatype Spec = Spec(replicas: nat, template: Template)

  datatype Status = Status(observed: nat, updated: nat, replicas: nat)

  /**
   The Deployment carries the identity labels of its template. `past` holds the specs of earlier generations
   that its controller has not reported to be past: a controller that lags behind may still act on them.
   */
  datatype Deployment = Deployment(
    uid: nat, owner: Owner, deleting: bool, generation: nat,
    replicas: nat, template: Template, status: Status, past: map<nat, Spec>)

  /** The spec of a generation the controller may still act on. */
  predicate MayRoll(d: Deployment, g: nat) {
    g == d.generation || g in d.past
  }

  function SpecAt(d: Deployment, g: nat): Spec
    requires MayRoll(d, g)
  {
    if g == d.generation then Spec(d.replicas, d.template) else d.past[g]
  }

  /**
   `settling` holds while status replicas are nonzero or the generation is unobserved; `lagging` while the
   controller may still act on an earlier, nonzero count.
   */
  datatype ReplicaSet = ReplicaSet(
    ns: string, owner: nat, template: Template, replicas: nat, settling: bool, lagging: bool)

  /** The ReplicaSet may still create Pods. */
  predicate Able(s: ReplicaSet) {
    s.replicas != 0 || s.lagging
  }

  /** `home` is the ReplicaSet the Pod belongs to; `done` means phase Succeeded or Failed. */
  datatype Pod = Pod(ns: string, home: nat, template: Template, done: bool)

  datatype ConfigMap = ConfigMap(owner: Owner, yanet: string, deleting: bool)

  /** labels.SelectorFromSet(selector).Matches(labels). */
  predicate Matches(selector: Labels, labels: Labels) {
    forall k | k in selector :: k in labels && labels[k] == selector[k]
  }

  /** controlledByYanet: same namespace, owner name and UID. */
  predicate Controls(k: Key, y: Yanet, o: Key, owner: Owner) {
    o.ns == k.ns && owner == OwnedBy(k.name, y.uid)
  }

  /** listNodesForYanet: the nodes whose labels match the selector. */
  function Selected(nodes: map<string, Labels>, selector: Labels): map<string, Labels> {
    map n | n in nodes && Matches(selector, nodes[n]) :: nodes[n]
  }
}
