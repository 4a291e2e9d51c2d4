/**
 The part of a Pod template that sidecar composition works on
 (internal/manifests/labels.go, operator_placement.go, listeners.go, pod_ports.go).
 */
module Pods {
  import opened Options

  datatype ContainerPort = ContainerPort(name: string, number: int, protocol: string)

  /** `rest` stands for the fields that composition only carries along: image, arguments, environment. */
  datatype Container = Container(name: string, rest: string, ports: seq<ContainerPort>, restartPolicy: Option<string>)

  datatype Pod = Pod(containers: seq<Container>, initContainers: seq<Container>)

  /** A native sidecar: it starts in init order and keeps running. */
  predicate Restartable(c: Container) {
    c.restartPolicy == Some("Always")
  }

  /** A container of the Pod by its place. */
  datatype Slot = App(i: nat) | Init(i: nat)

  predicate InPod(pod: Pod, s: Slot) {
    match s
    case App(i) => i < |pod.containers|
    case Init(i) => i < |pod.initContainers|
  }

  function At(pod: Pod, s: Slot): Container
    requires InPod(pod, s)
  {
    match s
    case App(i) => pod.containers[i]
    case Init(i) => pod.initContainers[i]
  }

  /** Application containers, then init containers. */
  function All(pod: Pod): seq<Container> {
    pod.containers + pod.initContainers
  }

  function Index(pod: Pod, s: Slot): (i: nat)
    requires InPod(pod, s)
    ensures i < |All(pod)| && All(pod)[i] == At(pod, s)
  {
    match s
    case App(i) => i
    case Init(i) => |pod.containers| + i
  }

  function SlotOf(pod: Pod, i: nat): (s: Slot)
    requires i < |All(pod)|
    ensures InPod(pod, s) && Index(pod, s) == i
  {
    if i < |pod.containers| then App(i) else Init(i - |pod.containers|)
  }

  ghost predicate NamesUnique(pod: Pod) {
    forall s, t :: InPod(pod, s) && InPod(pod, t) && At(pod, s).name == At(pod, t).name ==> s == t
  }

  predicate HasPrefix(s: string, prefix: string) {
    |prefix| <= |s| && s[..|prefix|] == prefix
  }
}
