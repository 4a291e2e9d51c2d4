/**
 Ports of containers that run at the same time in one Pod
 (internal/manifests/pod_ports.go and the name check of internal/manifests/labels.go).
 */
module PodPorts {

  import opened Pods

  /** What a listener occupies in the Pod's network namespace. */
  datatype Endpoint = Endpoint(number: int, protocol: string)

  /** An unset protocol means TCP. */
  function PortKey(p: ContainerPort): Endpoint {
    Endpoint(p.number, if p.protocol == "" then "TCP" else p.protocol)
  }

  predicate Listens(c: Container, key: Endpoint) {
    exists i :: 0 <= i < |c.ports| && PortKey(c.ports[i]) == key
  }

  // ---- The lifecycle of a Pod ----------------------------------------------------------------

  /** Init steps in order, then the running Pod. */
  datatype Phase = Initializing(step: nat) | Running

  predicate Reached(pod: Pod, phase: Phase) {
    phase.Initializing? ==> phase.step < |pod.initContainers|
  }

  /**
   During an init step its container runs beside the sidecars started earlier; afterwards all
   application containers run beside all sidecars.
   */
  predicate Runs(pod: Pod, phase: Phase, s: Slot) {
    && InPod(pod, s)
    && match phase
       case Initializing(step) => s.Init? && (s.i == step || (s.i < step && Restartable(At(pod, s))))
       case Running => s.App? || Restartable(At(pod, s))
  }

  /** The two containers share no port and protocol. */
  ghost predicate Apart(pod: Pod, s: Slot, t: Slot)
    requires InPod(pod, s) && InPod(pod, t)
  {
    forall key :: Listens(At(pod, s), key) ==> !Listens(At(pod, t), key)
  }

  /** In no phase do two running containers listen on one port and protocol. */
  ghost predicate PortsNeverClash(pod: Pod) {
    forall phase, s, t :: Reached(pod, phase) && Runs(pod, phase, s) && Runs(pod, phase, t) && s != t
        ==> Apart(pod, s, t)
  }

  /** The two protocols are one; an unset one is TCP. */
  predicate SameProtocol(p: string, q: string) {
    p == q || (p in {"", "TCP"} && q in {"", "TCP"})
  }

  /** Ports clash exactly when their numbers agree and their protocols do, an unset one being TCP. */
  lemma ClashesExactly(pod: Pod, s: Slot, t: Slot)
    requires InPod(pod, s) && InPod(pod, t)
    ensures Apart(pod, s, t) <==>
              forall i, j :: 0 <= i < |At(pod, s).ports| && 0 <= j < |At(pod, t).ports| ==>
                var p, q := At(pod, s).ports[i], At(pod, t).ports[j];
                !(p.number == q.number && SameProtocol(p.protocol, q.protocol))
  {
    var a, b := At(pod, s).ports, At(pod, t).ports;
    if i, j :| 0 <= i < |a| && 0 <= j < |b| && a[i].number == b[j].number
               && SameProtocol(a[i].protocol, b[j].protocol) {
      assert Listens(At(pod, s), PortKey(a[i])) && Listens(At(pod, t), PortKey(b[j]));
    }
  }

  // ---- The check -----------------------------------------------------------------------------

  /** Some slot of the set listens on the port. */
  ghost predicate Occupied(pod: Pod, slots: set<Slot>, key: Endpoint) {
    exists s :: s in slots && InPod(pod, s) && Listens(At(pod, s), key)
  }

  /** The map names, for every port in use by the slots, one container that uses it. */
  ghost predicate Tracks(occupied: map<Endpoint, string>, pod: Pod, slots: set<Slot>) {
    && (forall key :: key in occupied <==> Occupied(pod, slots, key))
    && (forall key :: key in occupied ==>
          exists s :: s in slots && InPod(pod, s) && Listens(At(pod, s), key) && At(pod, s).name == occupied[key])
  }

  method CheckPorts(occupied: map<Endpoint, string>, c: Container) returns (ok: bool)
    ensures ok <==> forall key :: key in occupied && Listens(c, key) ==> occupied[key] == c.name
  {
    for i := 0 to |c.ports|
      invariant forall j :: 0 <= j < i && PortKey(c.ports[j]) in occupied ==> occupied[PortKey(c.ports[j])] == c.name
    {
      var key := PortKey(c.ports[i]);
      if key in occupied && occupied[key] != c.name {
        assert Listens(c, key);
        return false;
      }
    }
    ok := true;
  }

  method ReservePorts(occupied: map<Endpoint, string>, c: Container) returns (r: map<Endpoint, string>)
    ensures forall key :: key in r <==> key in occupied || Listens(c, key)
    ensures forall key :: key in r ==> r[key] == if Listens(c, key) then c.name else occupied[key]
  {
    r := occupied;
    for i := 0 to |c.ports|
      invariant forall key :: key in r <==> key in occupied || exists j :: 0 <= j < i && PortKey(c.ports[j]) == key
      invariant forall key :: key in r ==>
        r[key] == if exists j :: 0 <= j < i && PortKey(c.ports[j]) == key then c.name else occupied[key]
    {
      r := r[PortKey(c.ports[i]) := c.name];
    }
  }

  ghost function Apps(n: nat): set<Slot> {
    set i: nat | i < n :: App(i)
  }

  ghost function Sidecars(pod: Pod, n: nat): set<Slot>
    requires n <= |pod.initContainers|
  {
    set i: nat | i < n && Restartable(pod.initContainers[i]) :: Init(i)
  }

  /** The slots a container is checked against when its turn comes. */
  ghost function Earlier(pod: Pod, t: Slot): set<Slot>
    requires InPod(pod, t)
  {
    match t
    case App(i) => Apps(i)
    case Init(i) =>
      if Restartable(pod.initContainers[i]) then Apps(|pod.containers|) + Sidecars(pod, i) else Sidecars(pod, i)
  }

  ghost predicate Checked(pod: Pod, t: Slot)
    requires InPod(pod, t)
  {
    forall s :: s in Earlier(pod, t) ==> InPod(pod, s) && Apart(pod, s, t)
  }

  ghost predicate AllChecked(pod: Pod) {
    forall t :: InPod(pod, t) ==> Checked(pod, t)
  }

  /** Checking every container against the earlier ones covers every phase, and no more. */
  lemma CheckedMeansNeverClash(pod: Pod)
    ensures AllChecked(pod) <==> PortsNeverClash(pod)
  {
    if AllChecked(pod) {
      forall phase, s, t | Reached(pod, phase) && Runs(pod, phase, s) && Runs(pod, phase, t) && s != t
        ensures Apart(pod, s, t)
      {
        assert Checked(pod, s) && Checked(pod, t);
        assert s in Earlier(pod, t) || t in Earlier(pod, s);
      }
    }
    if PortsNeverClash(pod) {
      forall s, t | InPod(pod, t) && s in Earlier(pod, t) ensures InPod(pod, s) && Apart(pod, s, t) {
        var phase := if t.App? || Restartable(At(pod, t)) then Running else Initializing(t.i);
        assert Reached(pod, phase) && Runs(pod, phase, s) && Runs(pod, phase, t);
      }
    }
  }

  /** With unique names, comparing owners in the map tells whether another container is met. */
  lemma OwnersTellContainersApart(pod: Pod, occupied: map<Endpoint, string>, t: Slot)
    requires NamesUnique(pod) && InPod(pod, t) && Tracks(occupied, pod, Earlier(pod, t))
    requires forall s :: s in Earlier(pod, t) ==> InPod(pod, s) && s != t
    ensures (forall key :: key in occupied && Listens(At(pod, t), key) ==> occupied[key] == At(pod, t).name)
       <==> Checked(pod, t)
  {
    if !Checked(pod, t) {
      var s :| s in Earlier(pod, t) && !Apart(pod, s, t);
      var key :| Listens(At(pod, s), key) && Listens(At(pod, t), key);
      assert Occupied(pod, Earlier(pod, t), key);
    }
  }

  lemma ReservedIsTracked(pod: Pod, occupied: map<Endpoint, string>, slots: set<Slot>, t: Slot,
                          r: map<Endpoint, string>)
    requires InPod(pod, t) && Tracks(occupied, pod, slots)
    requires forall key :: key in r <==> key in occupied || Listens(At(pod, t), key)
    requires forall key :: key in r ==> r[key] == if Listens(At(pod, t), key) then At(pod, t).name else occupied[key]
    ensures Tracks(r, pod, slots + {t})
  {
    forall key ensures key in r <==> Occupied(pod, slots + {t}, key) {
      if Occupied(pod, slots, key) {
        var s :| s in slots && InPod(pod, s) && Listens(At(pod, s), key);
        assert s in slots + {t};
      }
      assert t in slots + {t};
    }
    forall key | key in r
      ensures exists s :: s in slots + {t} && InPod(pod, s) && Listens(At(pod, s), key) && At(pod, s).name == r[key]
    {
      if Listens(At(pod, t), key) {
        assert t in slots + {t};
      } else {
        var s :| s in slots && InPod(pod, s) && Listens(At(pod, s), key) && At(pod, s).name == occupied[key];
        assert s in slots + {t};
      }
    }
  }

  /** Check a container of the Pod against the ones before it. */
  method CheckSlot(occupied: map<Endpoint, string>, pod: Pod, ghost t: Slot, container: Container) returns (ok: bool)
    requires NamesUnique(pod) && InPod(pod, t) && At(pod, t) == container && Tracks(occupied, pod, Earlier(pod, t))
    ensures ok <==> Checked(pod, t)
  {
    OwnersTellContainersApart(pod, occupied, t);
    ok := CheckPorts(occupied, container);
  }

  /** Reserve the ports of a container of the Pod. */
  method ReserveSlot(occupied: map<Endpoint, string>, pod: Pod, ghost slots: set<Slot>, ghost t: Slot,
                     container: Container)
    returns (r: map<Endpoint, string>)
    requires InPod(pod, t) && At(pod, t) == container && Tracks(occupied, pod, slots)
    ensures Tracks(r, pod, slots + {t})
  {
    r := ReservePorts(occupied, container);
    ReservedIsTracked(pod, occupied, slots, t, r);
  }

  lemma SidecarsGrow(pod: Pod, i: nat)
    requires i < |pod.initContainers|
    ensures Sidecars(pod, i + 1)
         == if Restartable(pod.initContainers[i]) then Sidecars(pod, i) + {Init(i)} else Sidecars(pod, i)
  {
  }

  /** The containers up to an init step passed their checks, and the maps tell who uses which port. */
  ghost predicate Progress(pod: Pod, i: nat, persistent: map<Endpoint, string>, sidecars: map<Endpoint, string>) {
    && i <= |pod.initContainers|
    && Tracks(persistent, pod, Apps(|pod.containers|) + Sidecars(pod, i))
    && Tracks(sidecars, pod, Sidecars(pod, i))
    && (forall j: nat :: j < |pod.containers| ==> Checked(pod, App(j)))
    && (forall j: nat :: j < i ==> Checked(pod, Init(j)))
  }

  lemma AppsGrow(i: nat)
    ensures Apps(i + 1) == Apps(i) + {App(i)}
  {
  }

  /** Before the init containers only the application containers count. */
  lemma AppsStart(pod: Pod, persistent: map<Endpoint, string>)
    requires Tracks(persistent, pod, Apps(|pod.containers|))
    requires forall j: nat :: j < |pod.containers| ==> Checked(pod, App(j))
    ensures Progress(pod, 0, persistent, map[])
  {
    assert Sidecars(pod, 0) == {};
    assert Apps(|pod.containers|) + {} == Apps(|pod.containers|);
  }

  method CheckApps(pod: Pod) returns (ok: bool, persistent: map<Endpoint, string>)
    requires NamesUnique(pod)
    ensures ok ==> Progress(pod, 0, persistent, map[])
    ensures !ok ==> !AllChecked(pod)
  {
    persistent := map[];
    for i := 0 to |pod.containers|
      invariant Tracks(persistent, pod, Apps(i))
      invariant forall j: nat :: j < i ==> Checked(pod, App(j))
    {
      ok := CheckSlot(persistent, pod, App(i), pod.containers[i]);
      if !ok {
        return;
      }
      persistent := ReserveSlot(persistent, pod, Apps(i), App(i), pod.containers[i]);
      AppsGrow(i);
    }
    AppsStart(pod, persistent);
    ok := true;
  }

  method CheckInit(pod: Pod, i: nat, persistent: map<Endpoint, string>, sidecars: map<Endpoint, string>)
    returns (ok: bool, persistent': map<Endpoint, string>, sidecars': map<Endpoint, string>)
    requires NamesUnique(pod) && i < |pod.initContainers| && Progress(pod, i, persistent, sidecars)
    ensures ok ==> Progress(pod, i + 1, persistent', sidecars')
    ensures !ok ==> !AllChecked(pod)
  {
    var container := pod.initContainers[i];
    ghost var apps := Apps(|pod.containers|);
    persistent', sidecars' := persistent, sidecars;
    SidecarsGrow(pod, i);
    if Restartable(container) {
      ok := CheckSlot(persistent, pod, Init(i), container);
      if !ok {
        return;
      }
      persistent' := ReserveSlot(persistent, pod, apps + Sidecars(pod, i), Init(i), container);
      sidecars' := ReserveSlot(sidecars, pod, Sidecars(pod, i), Init(i), container);
      assert apps + Sidecars(pod, i + 1) == (apps + Sidecars(pod, i)) + {Init(i)};
    } else {
      ok := CheckSlot(sidecars, pod, Init(i), container);
    }
  }

  /**
   validateConcurrentPodPorts: one pass over two occupancy maps accepts exactly the Pods whose
   containers never clash in any phase of their lifecycle.
   */
  method ValidateConcurrentPodPorts(pod: Pod) returns (ok: bool)
    requires NamesUnique(pod)
    ensures ok <==> PortsNeverClash(pod)
  {
    CheckedMeansNeverClash(pod);
    var persistent;
    ok, persistent := CheckApps(pod);
    if !ok {
      return;
    }
    var sidecars: map<Endpoint, string> := map[];
    for i := 0 to |pod.initContainers|
      invariant Progress(pod, i, persistent, sidecars)
    {
      ok, persistent, sidecars := CheckInit(pod, i, persistent, sidecars);
      if !ok {
        return;
      }
    }
    ok := true;
  }

  // ---- The composed Pod ----------------------------------------------------------------------

  const OPERATOR_CONTAINER_PREFIX := "op-"

  predicate IsManaged(name: string) {
    HasPrefix(name, OPERATOR_CONTAINER_PREFIX)
  }

  /** Managed sidecars of a dataplane Pod stay among its init containers. */
  predicate ManagedAreInits(pod: Pod) {
    forall i :: 0 <= i < |pod.containers| ==> !IsManaged(pod.containers[i].name)
  }

  lemma UniqueByIndex(pod: Pod)
    ensures NamesUnique(pod) <==> forall i, j :: 0 <= i < j < |All(pod)| ==> All(pod)[i].name != All(pod)[j].name
  {
    if NamesUnique(pod) {
      forall i, j | 0 <= i < j < |All(pod)| ensures All(pod)[i].name != All(pod)[j].name {
        assert SlotOf(pod, i) != SlotOf(pod, j);
      }
    }
    if !NamesUnique(pod) {
      var s, t :| InPod(pod, s) && InPod(pod, t) && At(pod, s).name == At(pod, t).name && s != t;
      assert Index(pod, s) != Index(pod, t);
    }
  }

  /** ValidatePodContainerNames: every name once, and no managed sidecar among a dataplane's application containers. */
  method ValidatePodContainerNames(pod: Pod, dataplane: bool) returns (ok: bool)
    ensures ok <==> NamesUnique(pod) && (dataplane ==> ManagedAreInits(pod))
  {
    UniqueByIndex(pod);
    var seen: set<string> := {};
    for i := 0 to |All(pod)|
      invariant forall n :: n in seen <==> exists j :: 0 <= j < i && All(pod)[j].name == n
      invariant forall j, k :: 0 <= j < k < i ==> All(pod)[j].name != All(pod)[k].name
      invariant dataplane ==> forall j :: 0 <= j < i && j < |pod.containers| ==> !IsManaged(pod.containers[j].name)
    {
      var name := All(pod)[i].name;
      if i < |pod.containers| && dataplane && IsManaged(name) {
        return false;
      }
      if name in seen {
        return false;
      }
      seen := seen + {name};
    }
    ok := true;
  }

  /** The restart policy and the port fields hold legal values. */
  predicate FieldsLegal(c: Container) {
    && (c.restartPolicy.Some? ==> c.restartPolicy.value == "Always")
    && forall k :: 0 <= k < |c.ports| ==> PortLegal(c.ports[k])
  }

  predicate PortLegal(p: ContainerPort) {
    && (p.protocol == "" || p.protocol == "TCP" || p.protocol == "UDP" || p.protocol == "SCTP")
    && 1 <= p.number <= 65535
  }

  /** The container has a port of that name. */
  predicate HasPortNamed(c: Container, name: string) {
    exists k :: 0 <= k < |c.ports| && c.ports[k].name == name
  }

  /** No two ports of the container share a name, unless it is empty. */
  predicate PortNamesDistinct(c: Container) {
    forall k, l :: 0 <= k < l < |c.ports| && c.ports[k].name != "" ==> c.ports[k].name != c.ports[l].name
  }

  /** A non-empty port name stands for one port of the whole Pod. */
  ghost predicate PortNamesUnique(pod: Pod) {
    && (forall i :: 0 <= i < |All(pod)| ==> PortNamesDistinct(All(pod)[i]))
    && (forall i, j, name :: 0 <= i < j < |All(pod)| && name != "" && HasPortNamed(All(pod)[i], name)
          ==> !HasPortNamed(All(pod)[j], name))
  }

  /** The checks on one container, with the port names of earlier ones. */
  method CheckContainer(c: Container, names: set<string>) returns (ok: bool, names': set<string>)
    ensures ok <==> FieldsLegal(c) && PortNamesDistinct(c) && forall n :: n in names && n != "" ==> !HasPortNamed(c, n)
    ensures ok ==> forall n :: n in names' <==> n in names || (n != "" && HasPortNamed(c, n))
  {
    names' := names;
    if c.restartPolicy.Some? && c.restartPolicy.value != "Always" {
      return false, names';
    }
    for k := 0 to |c.ports|
      invariant forall j :: 0 <= j < k ==> PortLegal(c.ports[j])
      invariant forall i, j :: 0 <= i < j < k && c.ports[i].name != "" ==> c.ports[i].name != c.ports[j].name
      invariant forall j :: 0 <= j < k && c.ports[j].name != "" ==> c.ports[j].name !in names
      invariant forall n :: n in names' <==> n in names || (n != "" && exists j :: 0 <= j < k && c.ports[j].name == n)
    {
      var port := c.ports[k];
      if !PortLegal(port) {
        return false, names';
      }
      if port.name != "" {
        if port.name in names' {
          assert HasPortNamed(c, port.name);
          return false, names';
        }
        names' := names' + {port.name};
      }
    }
    ok := true;
  }

  /** The facts the composed Pod must satisfy, on the fields this model keeps. */
  ghost predicate WellFormed(pod: Pod, dataplane: bool) {
    && NamesUnique(pod)
    && (dataplane ==> ManagedAreInits(pod))
    && pod.containers != []
    && (forall i :: 0 <= i < |All(pod)| ==> FieldsLegal(All(pod)[i]))
    && PortNamesUnique(pod)
    && PortsNeverClash(pod)
  }

  /** ValidateComposedPod accepts exactly the well-formed Pods. */
  method ValidateComposedPod(pod: Pod, dataplane: bool) returns (ok: bool)
    ensures ok <==> WellFormed(pod, dataplane)
    ensures ok ==> forall i, k :: 0 <= i < |All(pod)| && 0 <= k < |All(pod)[i].ports| ==>
              && 0 < All(pod)[i].ports[k].number < 65536
              && All(pod)[i].ports[k].protocol in {"", "TCP", "UDP", "SCTP"}
  {
    ok := ValidatePodContainerNames(pod, dataplane);
    if !ok {
      return;
    }
    if pod.containers == [] {
      return false;
    }
    var names: set<string> := {};
    for i := 0 to |All(pod)|
      invariant forall j :: 0 <= j < i ==> FieldsLegal(All(pod)[j]) && PortNamesDistinct(All(pod)[j])
      invariant forall n :: n in names <==> n != "" && exists j :: 0 <= j < i && HasPortNamed(All(pod)[j], n)
      invariant forall j, k, n :: 0 <= j < k < i && n != "" && HasPortNamed(All(pod)[j], n)
                  ==> !HasPortNamed(All(pod)[k], n)
    {
      ok, names := CheckContainer(All(pod)[i], names);
      if !ok {
        return;
      }
    }
    assert PortNamesUnique(pod);
    ok := ValidateConcurrentPodPorts(pod);
  }
}
