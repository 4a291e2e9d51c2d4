/**
 Named container ports behind the shared Services (internal/manifests/listeners.go).
 */
module Listeners {
  import opened Options
  import opened Pods
  import opened PodPorts
  import opened Roles
  import opened NativeSidecars
  import opened Filters

  /** The Pod with the ports of its i-th container replaced. */
  function SetPorts(pod: Pod, i: nat, ports: seq<ContainerPort>): (r: Pod)
    requires i < |All(pod)|
    ensures All(r) == All(pod)[i := All(pod)[i].(ports := ports)] && |r.containers| == |pod.containers|
  {
    var n := |pod.containers|;
    if i < n then pod.(containers := pod.containers[i := pod.containers[i].(ports := ports)])
    else pod.(initContainers := pod.initContainers[i - n := pod.initContainers[i - n].(ports := ports)])
  }

  /** Containers agree in everything but their ports. */
  ghost predicate SameButPorts(p: Pod, q: Pod) {
    && |p.containers| == |q.containers| && |All(p)| == |All(q)|
    && forall i :: 0 <= i < |All(p)| ==> All(p)[i].(ports := []) == All(q)[i].(ports := [])
  }

  /** The only container of that name. */
  predicate OnlyContainer(pod: Pod, name: string, i: nat) {
    && i < |All(pod)| && All(pod)[i].name == name
    && forall j :: 0 <= j < |All(pod)| && All(pod)[j].name == name ==> j == i
  }

  /** No container but the owner has a port of that name. */
  predicate Reserved(pod: Pod, owner: string, portName: string) {
    forall j :: 0 <= j < |All(pod)| && All(pod)[j].name != owner ==> !HasPortNamed(All(pod)[j], portName)
  }

  method FindContainer(pod: Pod, name: string) returns (r: Option<nat>)
    ensures r.Some? ==> OnlyContainer(pod, name, r.value)
    ensures r.None? ==> forall i :: !OnlyContainer(pod, name, i)
  {
    r := None;
    for i := 0 to |All(pod)|
      invariant r.None? ==> forall j :: 0 <= j < i ==> All(pod)[j].name != name
      invariant r.Some? ==> r.value < i && All(pod)[r.value].name == name
      invariant r.Some? ==> forall j :: 0 <= j < i && All(pod)[j].name == name ==> j == r.value
    {
      if All(pod)[i].name == name {
        if r.Some? {
          return None;
        }
        r := Some(i);
      }
    }
  }

  method ValidatePortNameOwner(pod: Pod, owner: string, portName: string) returns (ok: bool)
    ensures ok <==> Reserved(pod, owner, portName)
  {
    for i := 0 to |All(pod)|
      invariant forall j :: 0 <= j < i && All(pod)[j].name != owner ==> !HasPortNamed(All(pod)[j], portName)
    {
      var container := All(pod)[i];
      if container.name != owner {
        for k := 0 to |container.ports|
          invariant forall l :: 0 <= l < k ==> container.ports[l].name != portName
        {
          if container.ports[k].name == portName {
            return false;
          }
        }
      }
    }
    ok := true;
  }

  // ---- What configuring one role does ---------------------------------------------------------

  function OwnedPort(hash: string -> string, role: Role, l: Listener): ContainerPort {
    ContainerPort(TargetPort(hash, role, l), PortNumber(role, l), "TCP")
  }

  function OwnedPorts(hash: string -> string, role: Role, listeners: seq<Listener>): (r: seq<ContainerPort>)
    ensures |r| == |listeners| && forall k :: 0 <= k < |r| ==> r[k] == OwnedPort(hash, role, listeners[k])
  {
    seq(|listeners|, k requires 0 <= k < |listeners| => OwnedPort(hash, role, listeners[k]))
  }

  /** The ports with a name outside the set, in order. */
  function Kept(ports: seq<ContainerPort>, owned: set<string>): (r: seq<ContainerPort>)
    ensures forall k :: 0 <= k < |r| ==> r[k].name !in owned
  {
    if ports == [] then []
    else
      var last := ports[|ports| - 1];
      Kept(ports[..|ports| - 1], owned) + if last.name in owned then [] else [last]
  }

  function Targets(hash: string -> string, role: Role): set<string> {
    set l | l in ListenersOf(role) :: TargetPort(hash, role, l)
  }

  function OwnerOf(hash: string -> string, role: Role, composed: bool): string {
    if composed then ScopedName(hash, role.name, ListenerContainer(role)) else ListenerContainer(role)
  }

  /** The role can be configured with its container at that place. */
  ghost predicate Configurable(hash: string -> string, pod: Pod, role: Role, composed: bool, i: nat) {
    var owner := OwnerOf(hash, role, composed);
    && OnlyContainer(pod, owner, i) && SlotLegal(role)
    && forall l :: l in ListenersOf(role) ==> Reserved(pod, owner, TargetPort(hash, role, l))
  }

  function NewPorts(hash: string -> string, role: Role, ports: seq<ContainerPort>): seq<ContainerPort> {
    OwnedPorts(hash, role, ListenersOf(role)) + Kept(ports, Targets(hash, role))
  }

  /** The role's ports lead its container's list; everything else is as before. */
  ghost predicate Configured(hash: string -> string, pod: Pod, role: Role, composed: bool, after: Pod) {
    if ListenersOf(role) == [] then after == pod
    else exists i: nat ::
           && Configurable(hash, pod, role, composed, i)
           && after == SetPorts(pod, i, NewPorts(hash, role, All(pod)[i].ports))
  }

  /** configureComponentListeners changes the Pod only when it succeeds. */
  method ConfigureComponentListeners(hash: string -> string, spec: PodSpec, role: Role, composed: bool)
    returns (ok: bool)
    modifies spec
    ensures ok ==> Configured(hash, old(spec.Value()), role, composed, spec.Value())
    ensures ok <==> ListenersOf(role) == [] || exists i: nat :: Configurable(hash, old(spec.Value()), role, composed, i)
    ensures !ok ==> spec.Value() == old(spec.Value())
  {
    var listeners := ListenersOf(role);
    if |listeners| == 0 {
      return true;
    }
    var name, pod := OwnerOf(hash, role, composed), spec.Value();
    var found := FindContainer(pod, name);
    if found.None? || !SlotLegal(role) {
      return false;
    }
    var i := found.value;
    var ports: seq<ContainerPort>, owned: set<string> := [], {};
    for k := 0 to |listeners|
      invariant spec.Value() == pod
      invariant ports == OwnedPorts(hash, role, listeners)[..k]
      invariant owned == set l | l in listeners[..k] :: TargetPort(hash, role, l)
      invariant forall l :: l in listeners[..k] ==> Reserved(pod, name, TargetPort(hash, role, l))
    {
      var target := TargetPort(hash, role, listeners[k]);
      ok := ValidatePortNameOwner(pod, name, target);
      assert listeners[k] in listeners;
      if !ok {
        return;
      }
      assert listeners[..k + 1] == listeners[..k] + [listeners[k]];
      owned := owned + {target};
      ports := ports + [OwnedPort(hash, role, listeners[k])];
    }
    assert listeners[..|listeners|] == listeners;
    var current := All(pod)[i].ports;
    var kept := KeepPorts(current, owned);
    var after := SetPorts(pod, i, ports + kept);
    assert ports == OwnedPorts(hash, role, listeners) && owned == Targets(hash, role);
    assert Configurable(hash, pod, role, composed, i);
    spec.containers, spec.initContainers := after.containers, after.initContainers;
    ok := true;
  }

  method KeepPorts(ports: seq<ContainerPort>, owned: set<string>) returns (r: seq<ContainerPort>)
    ensures r == Kept(ports, owned)
  {
    r := [];
    for k := 0 to |ports|
      invariant r == Kept(ports[..k], owned)
    {
      assert ports[..k + 1][..k] == ports[..k];
      if ports[k].name !in owned {
        r := r + [ports[k]];
      }
    }
    assert ports[..|ports|] == ports;
  }

  // ---- Where a Service's target port leads ----------------------------------------------------

  /** The k-th port of the i-th container is the only port of that name in the Pod. */
  ghost predicate OnlyPort(pod: Pod, target: string, i: nat, k: nat) {
    && i < |All(pod)| && k < |All(pod)[i].ports| && All(pod)[i].ports[k].name == target
    && (forall l :: 0 <= l < |All(pod)[i].ports| && All(pod)[i].ports[l].name == target ==> l == k)
    && (forall j :: 0 <= j < |All(pod)| && HasPortNamed(All(pod)[j], target) ==> j == i)
  }

  /** The name leads to one port of the Pod, that number of the owner, over TCP. */
  ghost predicate LeadsTo(pod: Pod, target: string, owner: string, number: int) {
    exists i: nat, k: nat ::
      && OnlyPort(pod, target, i, k) && All(pod)[i].name == owner
      && All(pod)[i].ports[k] == ContainerPort(target, number, "TCP")
  }

  /** Every listener of the role leads to the role's own slot. */
  ghost predicate Wired(hash: string -> string, pod: Pod, role: Role, composed: bool) {
    forall l :: l in ListenersOf(role) ==>
      LeadsTo(pod, TargetPort(hash, role, l), OwnerOf(hash, role, composed), PortNumber(role, l))
  }

  lemma {:induction false} TargetsDiffer(hash: string -> string, role: Role, l: Listener, m: Listener)
    ensures TargetPort(hash, role, l) == TargetPort(hash, role, m) <==> l == m
  {
    var g, h := TargetPort(hash, role, Grpc), TargetPort(hash, role, Http);
    assert g[|g| - 1] != h[|h| - 1];
  }

  /** Configuring a role wires all its listeners. */
  lemma {:induction false} ConfiguringWires(hash: string -> string, pod: Pod, role: Role, composed: bool, after: Pod)
    requires Configured(hash, pod, role, composed, after) && ListenersDistinct(role)
    ensures Wired(hash, after, role, composed)
  {
    var listeners, owner := ListenersOf(role), OwnerOf(hash, role, composed);
    forall l | l in listeners ensures LeadsTo(after, TargetPort(hash, role, l), owner, PortNumber(role, l)) {
      var i: nat :| Configurable(hash, pod, role, composed, i)
          && after == SetPorts(pod, i, NewPorts(hash, role, All(pod)[i].ports));
      var k: nat :| k < |listeners| && listeners[k] == l;
      var target, ports := TargetPort(hash, role, l), All(after)[i].ports;
      assert target in Targets(hash, role);
      forall m | 0 <= m < |ports| && ports[m].name == target ensures m == k {
        if m < |listeners| {
          TargetsDiffer(hash, role, l, listeners[m]);
        }
      }
      assert Reserved(pod, owner, target);
      assert OnlyPort(after, target, i, k);
    }
  }

  lemma {:induction false} NewPortsAddTargetsOnly(hash: string -> string, role: Role, c: Container, name: string)
    requires forall l :: l in ListenersOf(role) ==> TargetPort(hash, role, l) != name
    ensures HasPortNamed(c.(ports := NewPorts(hash, role, c.ports)), name) ==> HasPortNamed(c, name)
  {
    var n, kept, ports := |ListenersOf(role)|, Kept(c.ports, Targets(hash, role)), NewPorts(hash, role, c.ports);
    KeptAreOld(c.ports, Targets(hash, role));
    if k :| 0 <= k < |ports| && ports[k].name == name {
      assert k >= n && ports[k] == kept[k - n] && kept[k - n] in c.ports;
    }
  }

  /** Configuring a role leaves the ports of other containers leading where they did. */
  lemma {:induction false} ConfiguringKeeps(hash: string -> string, pod: Pod, role: Role, composed: bool, after: Pod,
                                            target: string, owner: string, number: int)
    requires Configured(hash, pod, role, composed, after) && LeadsTo(pod, target, owner, number)
    requires owner != OwnerOf(hash, role, composed)
    ensures LeadsTo(after, target, owner, number)
  {
    var i: nat, k: nat :| OnlyPort(pod, target, i, k) && All(pod)[i].name == owner
        && All(pod)[i].ports[k] == ContainerPort(target, number, "TCP");
    if ListenersOf(role) != [] {
      var j: nat :| Configurable(hash, pod, role, composed, j)
          && after == SetPorts(pod, j, NewPorts(hash, role, All(pod)[j].ports));
      assert i != j && HasPortNamed(All(pod)[i], target);
      assert forall l :: l in ListenersOf(role) ==> TargetPort(hash, role, l) != target;
      NewPortsAddTargetsOnly(hash, role, All(pod)[j], target);
      assert OnlyPort(after, target, i, k);
    }
  }

  lemma {:induction false} KeptAreOld(ports: seq<ContainerPort>, owned: set<string>)
    ensures forall p :: p in Kept(ports, owned) ==> p in ports
    decreases |ports|
  {
    if ports != [] {
      KeptAreOld(ports[..|ports| - 1], owned);
    }
  }

  ghost function Others(owned: set<string>): ContainerPort -> bool {
    (p: ContainerPort) => p.name !in owned
  }

  lemma {:induction false} KeptIsFilter(ports: seq<ContainerPort>, owned: set<string>)
    ensures IsFilter(ports, Others(owned), Kept(ports, owned))
    decreases |ports|
  {
    if ports != [] {
      var n := |ports| - 1;
      KeptIsFilter(ports[..n], owned);
      FilterGrows(ports[..n], Others(owned), Kept(ports[..n], owned), ports[n]);
      assert ports == ports[..n] + [ports[n]];
    }
  }

  /**
   Configuring a role touches one container. Its list then starts with the role's ports and goes on with all ports of
   other names it had, in their order.
   */
  lemma {:induction false} ConfiguringKeepsOtherPorts(hash: string -> string, pod: Pod, role: Role, composed: bool,
                                                      after: Pod)
    requires Configured(hash, pod, role, composed, after)
    ensures SameButPorts(pod, after)
    ensures forall i :: 0 <= i < |All(pod)| ==>
              || All(after)[i] == All(pod)[i]
              || (var n := |ListenersOf(role)|;
                  && All(pod)[i].name == OwnerOf(hash, role, composed) && n <= |All(after)[i].ports|
                  && IsFilter(All(pod)[i].ports, Others(Targets(hash, role)), All(after)[i].ports[n..]))
  {
    if ListenersOf(role) != [] {
      var i: nat :| Configurable(hash, pod, role, composed, i)
          && after == SetPorts(pod, i, NewPorts(hash, role, All(pod)[i].ports));
      var kept := Kept(All(pod)[i].ports, Targets(hash, role));
      KeptIsFilter(All(pod)[i].ports, Targets(hash, role));
      assert All(after)[i].ports[|ListenersOf(role)|..] == kept;
    }
  }

  lemma {:induction false} KeptConcat(a: seq<ContainerPort>, b: seq<ContainerPort>, owned: set<string>)
    ensures Kept(a + b, owned) == Kept(a, owned) + Kept(b, owned)
    decreases |b|
  {
    if b == [] {
      assert a + b == a;
    } else {
      assert (a + b)[..|a + b| - 1] == a + b[..|b| - 1];
      KeptConcat(a, b[..|b| - 1], owned);
    }
  }

  lemma {:induction false} KeptNone(ports: seq<ContainerPort>, owned: set<string>)
    requires forall k :: 0 <= k < |ports| ==> ports[k].name in owned
    ensures Kept(ports, owned) == []
    decreases |ports|
  {
    if ports != [] {
      KeptNone(ports[..|ports| - 1], owned);
    }
  }

  lemma {:induction false} KeptAll(ports: seq<ContainerPort>, owned: set<string>)
    requires forall k :: 0 <= k < |ports| ==> ports[k].name !in owned
    ensures Kept(ports, owned) == ports
    decreases |ports|
  {
    if ports != [] {
      KeptAll(ports[..|ports| - 1], owned);
    }
  }

  /** Ports that were configured are left as they are. */
  lemma {:induction false} ConfiguredPortsStay(hash: string -> string, role: Role, ports: seq<ContainerPort>)
    ensures NewPorts(hash, role, NewPorts(hash, role, ports)) == NewPorts(hash, role, ports)
  {
    var owned, targets := OwnedPorts(hash, role, ListenersOf(role)), Targets(hash, role);
    var kept := Kept(ports, targets);
    forall k | 0 <= k < |owned| ensures owned[k].name in targets {
      assert ListenersOf(role)[k] in ListenersOf(role);
    }
    KeptConcat(owned, kept, targets);
    KeptNone(owned, targets);
    KeptAll(kept, targets);
  }

  // ---- All roles of a Pod ---------------------------------------------------------------------

  /** The first n sidecars: switched-on ones are wired, and all hold their port names for themselves. */
  ghost predicate SidecarsWired(hash: string -> string, pod: Pod, sidecars: seq<Role>, n: nat) {
    forall i :: 0 <= i < n && i < |sidecars| && sidecars[i].enabled ==> Wired(hash, pod, sidecars[i], true)
  }

  /** No container but its own uses the port names of any of the first n sidecars, switched on or not. */
  ghost predicate TargetsReserved(hash: string -> string, pod: Pod, sidecars: seq<Role>, n: nat) {
    forall i, l :: 0 <= i < n && i < |sidecars|
        ==> Reserved(pod, ScopedContainer(hash, sidecars[i]), TargetPort(hash, sidecars[i], l))
  }

  lemma {:induction false} SidecarTargetsDiffer(hash: string -> string, a: Role, l: Listener, b: Role, m: Listener)
    requires IsHash(hash) && a.kind.Sidecar? && b.kind.Sidecar? && hash(a.name) != hash(b.name)
    ensures TargetPort(hash, a, l) != TargetPort(hash, b, m)
  {
    assert TargetPort(hash, a, l)[3..11] == hash(a.name) && TargetPort(hash, b, m)[3..11] == hash(b.name);
  }

  lemma {:induction false} ConfiguringKeepsReserved(hash: string -> string, pod: Pod, sidecars: seq<Role>, n: nat,
                                                    after: Pod)
    requires IsHash(hash) && SidecarsLegal(hash, sidecars) && n < |sidecars|
    requires TargetsReserved(hash, pod, sidecars, n + 1) && Configured(hash, pod, sidecars[n], true, after)
    ensures TargetsReserved(hash, after, sidecars, n + 1)
  {
    forall i, l | 0 <= i < n + 1
      ensures Reserved(after, ScopedContainer(hash, sidecars[i]), TargetPort(hash, sidecars[i], l))
    {
      var a, b := sidecars[i], sidecars[n];
      assert a == b || hash(a.name) != hash(b.name);
      SidecarStaysReserved(hash, pod, a, l, b, after);
    }
  }

  lemma {:induction false} SidecarStaysReserved(hash: string -> string, pod: Pod, a: Role, l: Listener, b: Role,
                                                after: Pod)
    requires IsHash(hash) && a.kind.Sidecar? && b.kind.Sidecar? && (a == b || hash(a.name) != hash(b.name))
    requires Reserved(pod, ScopedContainer(hash, a), TargetPort(hash, a, l)) && Configured(hash, pod, b, true, after)
    ensures Reserved(after, ScopedContainer(hash, a), TargetPort(hash, a, l))
  {
    if a != b {
      forall m | m in ListenersOf(b) ensures TargetPort(hash, b, m) != TargetPort(hash, a, l) {
        SidecarTargetsDiffer(hash, a, l, b, m);
      }
    }
    ReservedStays(hash, pod, b, after, ScopedContainer(hash, a), TargetPort(hash, a, l));
  }

  lemma {:induction false} ReservedStays(hash: string -> string, pod: Pod, role: Role, after: Pod, owner: string,
                                         target: string)
    requires Configured(hash, pod, role, true, after) && Reserved(pod, owner, target)
    requires owner == OwnerOf(hash, role, true) || forall m :: m in ListenersOf(role) ==>
               TargetPort(hash, role, m) != target
    ensures Reserved(after, owner, target)
  {
    if ListenersOf(role) != [] {
      var j: nat :| Configurable(hash, pod, role, true, j)
          && after == SetPorts(pod, j, NewPorts(hash, role, All(pod)[j].ports));
      if owner != OwnerOf(hash, role, true) {
        NewPortsAddTargetsOnly(hash, role, All(pod)[j], target);
      }
    }
  }

  /** Only sidecars of a dataplane, whose own listeners are none, share a Pod. */
  ghost predicate Renderable(hash: string -> string, role: Role, sidecars: seq<Role>) {
    && IsHash(hash) && ListenersDistinct(role) && SidecarsLegal(hash, sidecars)
    && (sidecars != [] ==> role.kind.Dataplane?)
  }

  lemma {:induction false} ConfiguringKeepsWired(hash: string -> string, pod: Pod, sidecars: seq<Role>, n: nat,
                                                 after: Pod)
    requires IsHash(hash) && SidecarsLegal(hash, sidecars) && n < |sidecars|
    requires SidecarsWired(hash, pod, sidecars, n) && Configured(hash, pod, sidecars[n], true, after)
    ensures SidecarsWired(hash, after, sidecars, n)
  {
    forall i, l | 0 <= i < n && sidecars[i].enabled && l in ListenersOf(sidecars[i])
      ensures LeadsTo(after, TargetPort(hash, sidecars[i], l), OwnerOf(hash, sidecars[i], true),
                      PortNumber(sidecars[i], l))
    {
      SidecarStaysWired(hash, pod, sidecars[i], l, sidecars[n], after);
    }
  }

  lemma {:induction false} SidecarStaysWired(hash: string -> string, pod: Pod, a: Role, l: Listener, b: Role,
                                             after: Pod)
    requires IsHash(hash) && a.kind.Sidecar? && b.kind.Sidecar? && hash(a.name) != hash(b.name)
    requires Wired(hash, pod, a, true) && l in ListenersOf(a) && Configured(hash, pod, b, true, after)
    ensures LeadsTo(after, TargetPort(hash, a, l), OwnerOf(hash, a, true), PortNumber(a, l))
  {
    ScopedNamesDiffer(hash, a.name, a.name, b.name, b.name);
    ConfiguringKeeps(hash, pod, b, true, after, TargetPort(hash, a, l), OwnerOf(hash, a, true), PortNumber(a, l));
  }

  lemma {:induction false} ConfiguringTouchesPortsOnly(hash: string -> string, pod: Pod, role: Role, composed: bool,
                                                       after: Pod)
    requires Configured(hash, pod, role, composed, after)
    ensures SameButPorts(pod, after)
  {
    if ListenersOf(role) != [] {
      var i: nat :| Configurable(hash, pod, role, composed, i)
          && after == SetPorts(pod, i, NewPorts(hash, role, All(pod)[i].ports));
    }
  }

  lemma {:induction false} ConfiguredOnce(hash: string -> string, pod: Pod, role: Role, composed: bool, after: Pod)
    requires Configured(hash, pod, role, composed, after)
    ensures forall other :: Configured(hash, pod, role, composed, other) ==> other == after
  {
    forall other | Configured(hash, pod, role, composed, other) ensures other == after {
      if ListenersOf(role) != [] {
        var i: nat :| Configurable(hash, pod, role, composed, i)
            && other == SetPorts(pod, i, NewPorts(hash, role, All(pod)[i].ports));
        var j: nat :| Configurable(hash, pod, role, composed, j)
            && after == SetPorts(pod, j, NewPorts(hash, role, All(pod)[j].ports));
        assert i == j;
      }
    }
  }

  /** Configuring one role, if it can be. */
  ghost function Configure(hash: string -> string, pod: Pod, role: Role, composed: bool): (r: Option<Pod>)
    ensures r.Some? ==> Configured(hash, pod, role, composed, r.value)
  {
    if ListenersOf(role) == [] then Some(pod)
    else if i: nat :| Configurable(hash, pod, role, composed, i) then
      Some(SetPorts(pod, i, NewPorts(hash, role, All(pod)[i].ports)))
    else None
  }

  lemma {:induction false} ConfigureIsConfigured(hash: string -> string, pod: Pod, role: Role, composed: bool,
                                                 after: Pod)
    requires Configured(hash, pod, role, composed, after)
    ensures Configure(hash, pod, role, composed) == Some(after)
  {
    ConfiguredOnce(hash, pod, role, composed, after);
  }

  /** One sidecar: its port names must be free for it, and it is configured if it is switched on. */
  ghost function ConfigureOne(hash: string -> string, pod: Pod, sidecar: Role): Option<Pod> {
    if !forall l :: Reserved(pod, ScopedContainer(hash, sidecar), TargetPort(hash, sidecar, l)) then None
    else if sidecar.enabled then Configure(hash, pod, sidecar, true)
    else Some(pod)
  }

  /** The first n sidecars in palette order, if each can be. */
  ghost function ConfigureSidecars(hash: string -> string, pod: Pod, sidecars: seq<Role>, n: nat): Option<Pod>
    requires n <= |sidecars|
    decreases n
  {
    if n == 0 then Some(pod)
    else
      var before := ConfigureSidecars(hash, pod, sidecars, n - 1);
      if before.None? then None else ConfigureOne(hash, before.value, sidecars[n - 1])
  }

  /** The component, then its sidecars. */
  ghost function ConfigureAll(hash: string -> string, pod: Pod, role: Role, sidecars: seq<Role>): Option<Pod> {
    var first := Configure(hash, pod, role, false);
    if first.None? then None else ConfigureSidecars(hash, first.value, sidecars, |sidecars|)
  }

  lemma {:induction false} StuckStaysStuck(hash: string -> string, pod: Pod, sidecars: seq<Role>, n: nat, k: nat)
    requires n <= k <= |sidecars| && ConfigureSidecars(hash, pod, sidecars, n).None?
    ensures ConfigureSidecars(hash, pod, sidecars, k).None?
    decreases k
  {
    if n < k {
      StuckStaysStuck(hash, pod, sidecars, n, k - 1);
    }
  }

  /** The first n sidecars are dealt with. */
  ghost predicate SidecarsDone(hash: string -> string, pod: Pod, sidecars: seq<Role>, n: nat) {
    SidecarsWired(hash, pod, sidecars, n) && TargetsReserved(hash, pod, sidecars, n)
  }

  method ConfigureSidecar(hash: string -> string, spec: PodSpec, sidecars: seq<Role>, n: nat) returns (ok: bool)
    requires IsHash(hash) && SidecarsLegal(hash, sidecars) && n < |sidecars|
             && SidecarsDone(hash, spec.Value(), sidecars, n)
    modifies spec
    ensures ok ==> SidecarsDone(hash, spec.Value(), sidecars, n + 1)
    ensures (if ok then Some(spec.Value()) else None) == ConfigureOne(hash, old(spec.Value()), sidecars[n])
    ensures SameButPorts(old(spec.Value()), spec.Value())
  {
    var pod, sidecar := spec.Value(), sidecars[n];
    var owner := ScopedContainer(hash, sidecar);
    ok := ValidatePortNameOwner(pod, owner, TargetPort(hash, sidecar, Grpc));
    if !ok {
      return;
    }
    ok := ValidatePortNameOwner(pod, owner, TargetPort(hash, sidecar, Http));
    if !ok {
      return;
    }
    forall l ensures Reserved(pod, owner, TargetPort(hash, sidecar, l)) {
      assert l == Grpc || l == Http;
    }
    if sidecar.enabled {
      ok := ConfigureComponentListeners(hash, spec, sidecar, true);
      if !ok {
        return;
      }
      ConfigureIsConfigured(hash, pod, sidecar, true, spec.Value());
      ConfiguringWires(hash, pod, sidecar, true, spec.Value());
      ConfiguringKeepsWired(hash, pod, sidecars, n, spec.Value());
      ConfiguringKeepsReserved(hash, pod, sidecars, n, spec.Value());
      ConfiguringTouchesPortsOnly(hash, pod, sidecar, true, spec.Value());
    }
  }

  /**
   ConfigureListeners: once it succeeds, every listener of the component and of each switched-on sidecar
   leads to exactly one port of the Pod, in the role's own container and slot, and nobody else uses the port
   names of any declared sidecar.
   */
  method ConfigureListeners(hash: string -> string, spec: PodSpec, role: Role, sidecars: seq<Role>) returns (ok: bool)
    requires Renderable(hash, role, sidecars)
    modifies spec
    ensures ok ==> Wired(hash, spec.Value(), role, false) && SidecarsWired(hash, spec.Value(), sidecars, |sidecars|)
    ensures ok ==> TargetsReserved(hash, spec.Value(), sidecars, |sidecars|)
    ensures (if ok then Some(spec.Value()) else None) == ConfigureAll(hash, old(spec.Value()), role, sidecars)
    ensures SameButPorts(old(spec.Value()), spec.Value())
  {
    var start := spec.Value();
    ok := ConfigureComponentListeners(hash, spec, role, false);
    if !ok {
      return;
    }
    ghost var first := spec.Value();
    ConfigureIsConfigured(hash, start, role, false, first);
    ConfiguringWires(hash, start, role, false, spec.Value());
    ConfiguringTouchesPortsOnly(hash, start, role, false, spec.Value());
    for n := 0 to |sidecars|
      invariant n > 0 ==> ListenersOf(role) == []
      invariant Wired(hash, spec.Value(), role, false) && SidecarsDone(hash, spec.Value(), sidecars, n)
      invariant SameButPorts(start, spec.Value()) && ConfigureSidecars(hash, first, sidecars, n) == Some(spec.Value())
    {
      ok := ConfigureSidecar(hash, spec, sidecars, n);
      if !ok {
        StuckStaysStuck(hash, first, sidecars, n + 1, |sidecars|);
        return;
      }
    }
    ok := true;
  }
}
