/**
 A plain palette always renders: a dataplane of one container, and sidecars of one container each without ports of
 their own, are composed, wired and accepted, whatever the palette and its switches
 (RenderDeployments in internal/manifests/operator_placement.go).
 */
module PlainPalette {
  import opened Options
  import opened Pods
  import opened PodPorts
  import opened Roles
  import opened NativeSidecars
  import opened Listeners
  import opened Rendering
  import opened SidecarContents

  /** One container of that name, without ports. */
  predicate Plain(pod: Pod, name: string) {
    && |pod.containers| == 1 && pod.initContainers == []
    && pod.containers[0].name == name && pod.containers[0].ports == [] && pod.containers[0].restartPolicy.None?
  }

  /** What the palette makes of a plain sidecar. */
  function WithListeners(hash: string -> string, part: Part): Pod
    requires Plain(part.pod, part.role.name)
  {
    part.pod.(containers := [part.pod.containers[0].(ports := OwnedPorts(hash, part.role, ListenersOf(part.role)))])
  }

  lemma DataplaneIsNotManaged()
    ensures !IsManaged("dataplane")
  {
    assert "dataplane"[..3][0] == 'd';
  }

  // ---- A sidecar on its own -------------------------------------------------------------------------

  lemma {:induction false} OwnedPortsAreLegal(hash: string -> string, role: Role, c: Container)
    requires IsHash(hash) && role.kind.Sidecar? && SlotLegal(role) && ListenersDistinct(role)
    requires c.ports == OwnedPorts(hash, role, ListenersOf(role)) && (c.restartPolicy.Some? ==> Restartable(c))
    ensures FieldsLegal(c) && PortNamesDistinct(c)
  {
    forall k | 0 <= k < |c.ports| ensures PortLegal(c.ports[k]) {
      SlotsAreApart(role, ListenersOf(role)[k], role, ListenersOf(role)[k]);
    }
    forall k, l | 0 <= k < l < |c.ports| ensures c.ports[k].name != c.ports[l].name {
      TargetsDiffer(hash, role, ListenersOf(role)[k], ListenersOf(role)[l]);
    }
  }

  lemma AloneIsWellFormed(pod: Pod, dataplane: bool)
    requires |pod.containers| == 1 && pod.initContainers == []
    requires FieldsLegal(pod.containers[0]) && PortNamesDistinct(pod.containers[0])
    requires dataplane ==> !IsManaged(pod.containers[0].name)
    ensures WellFormed(pod, dataplane)
  {
    assert All(pod) == pod.containers;
    UniqueByIndex(pod);
    assert forall s :: InPod(pod, s) ==> s == App(0);
  }

  lemma {:induction false} PlainPartIsConfigured(hash: string -> string, part: Part)
    requires Plain(part.pod, part.role.name) && part.role.kind.Sidecar? && SlotLegal(part.role)
    ensures Configured(hash, part.pod, part.role, false, WithListeners(hash, part))
  {
    var pod, role := part.pod, part.role;
    assert All(pod) == pod.containers;
    if ListenersOf(role) != [] {
      assert Configurable(hash, pod, role, false, 0);
      assert NewPorts(hash, role, []) == OwnedPorts(hash, role, ListenersOf(role));
      assert WithListeners(hash, part) == SetPorts(pod, 0, NewPorts(hash, role, All(pod)[0].ports));
    } else {
      assert WithListeners(hash, part) == pod;
    }
  }

  lemma {:induction false} PlainPartIsAccepted(hash: string -> string, part: Part)
    requires IsHash(hash) && Plain(part.pod, part.role.name)
    requires part.role.kind.Sidecar? && SlotLegal(part.role) && ListenersDistinct(part.role)
    ensures AcceptedPod(hash, part) == Some(WithListeners(hash, part))
  {
    var op := WithListeners(hash, part);
    PlainPartIsConfigured(hash, part);
    OwnedPortsAreLegal(hash, part.role, op.containers[0]);
    DataplaneIsNotManaged();
    AloneIsWellFormed(op, part.role.name == "dataplane");
    AcceptedPodIs(hash, part, op);
  }

  // ---- The composed Pod --------------------------------------------------------------------------------

  /** The container is the sidecar's, with the sidecar's ports and nothing else. */
  ghost predicate Belongs(hash: string -> string, c: Container, role: Role) {
    && c.name == ScopedContainer(hash, role) && c.restartPolicy == Some("Always")
    && c.ports == OwnedPorts(hash, role, ListenersOf(role))
  }

  /** The i-th init container is that of the j-th sidecar. */
  ghost predicate Serves(hash: string -> string, pod: Pod, sidecars: seq<Role>, i: nat, j: nat) {
    i < |pod.initContainers| && j < |sidecars| && sidecars[j].enabled
    && Belongs(hash, pod.initContainers[i], sidecars[j])
  }

  /** A plain dataplane with one container for every switched-on sidecar. */
  ghost predicate Tidy(hash: string -> string, pod: Pod, sidecars: seq<Role>) {
    && |pod.containers| == 1 && pod.containers[0].name == "dataplane"
    && pod.containers[0].ports == [] && pod.containers[0].restartPolicy.None?
    && NamesDiffer(pod.initContainers)
    && (forall i: nat :: i < |pod.initContainers| ==> Employed(hash, pod, sidecars, i))
    && (forall j: nat :: j < |sidecars| && sidecars[j].enabled ==> Served(hash, pod, sidecars, j))
  }

  ghost predicate Employed(hash: string -> string, pod: Pod, sidecars: seq<Role>, i: nat) {
    exists j: nat :: Serves(hash, pod, sidecars, i, j)
  }

  ghost predicate Served(hash: string -> string, pod: Pod, sidecars: seq<Role>, j: nat) {
    exists i: nat :: Serves(hash, pod, sidecars, i, j)
  }

  /** Different init containers serve different sidecars. */
  lemma {:induction false} ServedApart(hash: string -> string, pod: Pod, sidecars: seq<Role>, i: nat, k: nat)
    returns (j: nat, l: nat)
    requires Tidy(hash, pod, sidecars) && i < |pod.initContainers| && k < |pod.initContainers| && i != k
    ensures Serves(hash, pod, sidecars, i, j) && Serves(hash, pod, sidecars, k, l) && j != l
  {
    assert Employed(hash, pod, sidecars, i) && Employed(hash, pod, sidecars, k);
    j :| Serves(hash, pod, sidecars, i, j);
    l :| Serves(hash, pod, sidecars, k, l);
  }

  lemma {:induction false} ServedDiffer(hash: string -> string, pod: Pod, sidecars: seq<Role>, i: nat, k: nat)
    requires IsHash(hash) && SidecarsLegal(hash, sidecars) && Tidy(hash, pod, sidecars)
    requires i < |pod.initContainers| && k < |pod.initContainers| && i != k
    ensures var a, b := pod.initContainers[i], pod.initContainers[k];
            && (forall x, y :: 0 <= x < |a.ports| && 0 <= y < |b.ports| ==>
                  a.ports[x].name != b.ports[y].name && PortKey(a.ports[x]) != PortKey(b.ports[y]))
  {
    var j, l := ServedApart(hash, pod, sidecars, i, k);
    var a, b := pod.initContainers[i], pod.initContainers[k];
    assert hash(sidecars[j].name) != hash(sidecars[l].name) && sidecars[j].portIndex != sidecars[l].portIndex;
    forall x, y | 0 <= x < |a.ports| && 0 <= y < |b.ports|
      ensures a.ports[x].name != b.ports[y].name && PortKey(a.ports[x]) != PortKey(b.ports[y])
    {
      var m, n := ListenersOf(sidecars[j])[x], ListenersOf(sidecars[l])[y];
      SidecarTargetsDiffer(hash, sidecars[j], m, sidecars[l], n);
      SlotsAreApart(sidecars[j], m, sidecars[l], n);
    }
  }

  lemma {:induction false} TidyNames(hash: string -> string, pod: Pod, sidecars: seq<Role>)
    requires IsHash(hash) && Tidy(hash, pod, sidecars)
    ensures NamesUnique(pod) && ManagedAreInits(pod)
    ensures forall i :: 0 <= i < |pod.initContainers| ==> IsManaged(pod.initContainers[i].name)
  {
    forall i | 0 <= i < |pod.initContainers| ensures IsManaged(pod.initContainers[i].name) {
      assert Employed(hash, pod, sidecars, i);
      var j: nat :| Serves(hash, pod, sidecars, i, j);
      ScopedNameStarts(hash, sidecars[j].name, sidecars[j].name);
    }
    UniqueByIndex(pod);
    DataplaneIsNotManaged();
    forall i, j | 0 <= i < j < |All(pod)| ensures All(pod)[i].name != All(pod)[j].name {
      assert All(pod)[j] == pod.initContainers[j - 1];
      if i > 0 {
        assert All(pod)[i] == pod.initContainers[i - 1];
      }
    }
  }

  lemma {:induction false} TidyFields(hash: string -> string, pod: Pod, sidecars: seq<Role>, i: nat)
    requires IsHash(hash) && SidecarsLegal(hash, sidecars) && Tidy(hash, pod, sidecars) && i < |All(pod)|
    ensures FieldsLegal(All(pod)[i]) && PortNamesDistinct(All(pod)[i])
  {
    if i > 0 {
      assert All(pod)[i] == pod.initContainers[i - 1];
      assert Employed(hash, pod, sidecars, i - 1);
      var k: nat := i - 1;
      var j: nat :| Serves(hash, pod, sidecars, k, j);
      OwnedPortsAreLegal(hash, sidecars[j], All(pod)[i]);
    }
  }

  lemma {:induction false} TidyPortNames(hash: string -> string, pod: Pod, sidecars: seq<Role>)
    requires IsHash(hash) && SidecarsLegal(hash, sidecars) && Tidy(hash, pod, sidecars)
    ensures PortNamesUnique(pod)
  {
    forall i | 0 <= i < |All(pod)| ensures PortNamesDistinct(All(pod)[i]) {
      TidyFields(hash, pod, sidecars, i);
    }
    forall i, j, name | 0 <= i < j < |All(pod)| && HasPortNamed(All(pod)[i], name)
      ensures !HasPortNamed(All(pod)[j], name)
    {
      assert i > 0 && All(pod)[i] == pod.initContainers[i - 1] && All(pod)[j] == pod.initContainers[j - 1];
      ServedDiffer(hash, pod, sidecars, i - 1, j - 1);
    }
  }

  lemma {:induction false} TidyPorts(hash: string -> string, pod: Pod, sidecars: seq<Role>)
    requires IsHash(hash) && SidecarsLegal(hash, sidecars) && Tidy(hash, pod, sidecars)
    ensures PortsNeverClash(pod)
  {
    forall s, t | InPod(pod, s) && InPod(pod, t) && s != t ensures Apart(pod, s, t) {
      if s.Init? && t.Init? {
        ServedDiffer(hash, pod, sidecars, s.i, t.i);
      } else {
        assert s == App(0) || t == App(0);
      }
    }
  }

  lemma {:induction false} TidyIsWellFormed(hash: string -> string, pod: Pod, sidecars: seq<Role>)
    requires IsHash(hash) && SidecarsLegal(hash, sidecars) && Tidy(hash, pod, sidecars)
    ensures WellFormed(pod, true)
  {
    TidyNames(hash, pod, sidecars);
    TidyPortNames(hash, pod, sidecars);
    TidyPorts(hash, pod, sidecars);
    forall i | 0 <= i < |All(pod)| ensures FieldsLegal(All(pod)[i]) {
      TidyFields(hash, pod, sidecars, i);
    }
  }

  /** An init container that uses a name or slot of a sidecar is that sidecar's. */
  lemma {:induction false} ServedOwns(hash: string -> string, pod: Pod, sidecars: seq<Role>, i: nat, x: nat, j: nat,
                                      l: Listener)
    requires IsHash(hash) && SidecarsLegal(hash, sidecars) && Tidy(hash, pod, sidecars)
    requires i < |pod.initContainers| && x < |pod.initContainers[i].ports| && j < |sidecars|
    requires pod.initContainers[i].ports[x].name == TargetPort(hash, sidecars[j], l)
             || pod.initContainers[i].ports[x].number == PortNumber(sidecars[j], l)
    ensures pod.initContainers[i].name == ScopedContainer(hash, sidecars[j])
  {
    assert Employed(hash, pod, sidecars, i);
    var k: nat :| Serves(hash, pod, sidecars, i, k);
    var m := ListenersOf(sidecars[k])[x];
    if k != j {
      assert hash(sidecars[k].name) != hash(sidecars[j].name) && sidecars[k].portIndex != sidecars[j].portIndex;
      SidecarTargetsDiffer(hash, sidecars[k], m, sidecars[j], l);
      SlotsAreApart(sidecars[k], m, sidecars[j], l);
    }
  }

  lemma {:induction false} TidyKeepsOff(hash: string -> string, pod: Pod, sidecars: seq<Role>, i: nat)
    requires IsHash(hash) && SidecarsLegal(hash, sidecars) && Tidy(hash, pod, sidecars) && i < |pod.initContainers|
    ensures KeepsOffSlots(hash, sidecars, pod.initContainers[i])
  {
    var c := pod.initContainers[i];
    forall x, j, l | 0 <= x < |c.ports| && 0 <= j < |sidecars|
                     && PortKey(c.ports[x]) == Endpoint(PortNumber(sidecars[j], l), "TCP")
      ensures c.name == ScopedContainer(hash, sidecars[j])
    {
      ServedOwns(hash, pod, sidecars, i, x, j, l);
    }
  }

  lemma {:induction false} TidySlots(hash: string -> string, pod: Pod, sidecars: seq<Role>)
    requires IsHash(hash) && SidecarsLegal(hash, sidecars) && Tidy(hash, pod, sidecars)
    ensures SlotsReserved(hash, pod, sidecars)
  {
    forall i | 0 <= i < |All(pod)| ensures KeepsOffSlots(hash, sidecars, All(pod)[i]) {
      if i > 0 {
        assert All(pod)[i] == pod.initContainers[i - 1];
        TidyKeepsOff(hash, pod, sidecars, i - 1);
      }
    }
  }

  lemma {:induction false} TidyTargets(hash: string -> string, pod: Pod, sidecars: seq<Role>, j: nat, l: Listener)
    requires IsHash(hash) && SidecarsLegal(hash, sidecars) && Tidy(hash, pod, sidecars) && j < |sidecars|
    ensures Reserved(pod, ScopedContainer(hash, sidecars[j]), TargetPort(hash, sidecars[j], l))
  {
    var target := TargetPort(hash, sidecars[j], l);
    forall i | 0 <= i < |All(pod)| && HasPortNamed(All(pod)[i], target)
      ensures All(pod)[i].name == ScopedContainer(hash, sidecars[j])
    {
      var x :| 0 <= x < |All(pod)[i].ports| && All(pod)[i].ports[x].name == target;
      assert i > 0 && All(pod)[i] == pod.initContainers[i - 1];
      ServedOwns(hash, pod, sidecars, i - 1, x, j, l);
    }
  }

  lemma {:induction false} TidyIsConfigurable(hash: string -> string, pod: Pod, sidecars: seq<Role>, j: nat)
    requires IsHash(hash) && SidecarsLegal(hash, sidecars) && Tidy(hash, pod, sidecars)
    requires j < |sidecars| && sidecars[j].enabled
    ensures Configure(hash, pod, sidecars[j], true).Some?
  {
    TidyNames(hash, pod, sidecars);
    forall l { TidyTargets(hash, pod, sidecars, j, l); }
    UniqueByIndex(pod);
    assert Served(hash, pod, sidecars, j);
    var i: nat :| Serves(hash, pod, sidecars, i, j);
    assert All(pod)[i + 1] == pod.initContainers[i];
    assert OnlyContainer(pod, ScopedContainer(hash, sidecars[j]), i + 1);
    assert Configurable(hash, pod, sidecars[j], true, i + 1);
  }

  lemma {:induction false} TidyConfiguresOne(hash: string -> string, pod: Pod, sidecars: seq<Role>, j: nat)
    requires IsHash(hash) && SidecarsLegal(hash, sidecars) && Tidy(hash, pod, sidecars)
    requires AllInPlace(hash, pod, sidecars) && j < |sidecars|
    ensures ConfigureOne(hash, pod, sidecars[j]) == Some(pod)
  {
    forall l { TidyTargets(hash, pod, sidecars, j, l); }
    if sidecars[j].enabled {
      TidyIsConfigurable(hash, pod, sidecars, j);
      ConfigureInPlace(hash, pod, sidecars[j]);
    }
  }

  ghost predicate Idle(hash: string -> string, pod: Pod, sidecars: seq<Role>) {
    forall j :: 0 <= j < |sidecars| ==> ConfigureOne(hash, pod, sidecars[j]) == Some(pod)
  }

  lemma {:induction false} NothingToConfigure(hash: string -> string, pod: Pod, sidecars: seq<Role>)
    requires Idle(hash, pod, sidecars)
    ensures ConfigureSidecars(hash, pod, sidecars, |sidecars|) == Some(pod)
  {
    for n := 0 to |sidecars|
      invariant ConfigureSidecars(hash, pod, sidecars, n) == Some(pod)
    {
      ConfigureStep(hash, pod, sidecars, n);
    }
  }

  lemma {:induction false} TidyConfigures(hash: string -> string, pod: Pod, sidecars: seq<Role>)
    requires IsHash(hash) && SidecarsLegal(hash, sidecars) && Tidy(hash, pod, sidecars)
    requires AllInPlace(hash, pod, sidecars)
    ensures ConfigureSidecars(hash, pod, sidecars, |sidecars|) == Some(pod)
  {
    forall j | 0 <= j < |sidecars| ensures ConfigureOne(hash, pod, sidecars[j]) == Some(pod) {
      TidyConfiguresOne(hash, pod, sidecars, j);
    }
    NothingToConfigure(hash, pod, sidecars);
  }

  // ---- The theorem ----------------------------------------------------------------------------------------

  ghost predicate AllPlain(parts: seq<Part>) {
    forall j :: 0 <= j < |parts| ==> Plain(parts[j].pod, parts[j].role.name)
  }

  lemma {:induction false} PlainPartsAreAccepted(hash: string -> string, parts: seq<Part>)
    requires IsHash(hash) && SidecarsLegal(hash, RolesOf(parts)) && AllPlain(parts)
    ensures AllAccepted(parts, AcceptedPods(hash, parts), |parts|)
    ensures forall j :: 0 <= j < |parts| ==> AcceptedPods(hash, parts)[j] == Some(WithListeners(hash, parts[j]))
  {
    forall j | 0 <= j < |parts| ensures AcceptedPods(hash, parts)[j] == Some(WithListeners(hash, parts[j])) {
      assert RolesOf(parts)[j] == parts[j].role;
      PlainPartIsAccepted(hash, parts[j]);
    }
  }

  /** Every part is plain and accepted as it is, with its listeners. */
  ghost predicate PlainlyAccepted(hash: string -> string, parts: seq<Part>, ops: seq<Option<Pod>>) {
    && AllPlain(parts) && AllAccepted(parts, ops, |parts|)
    && forall j :: 0 <= j < |parts| ==> ops[j] == Some(WithListeners(hash, parts[j]))
  }

  /** The place of a part's container. */
  lemma {:induction false} PartServes(hash: string -> string, parts: seq<Part>, ops: seq<Option<Pod>>, pod: Pod, j: nat)
    requires PlainlyAccepted(hash, parts, ops) && Built(hash, [], parts, ops, |parts|, pod.initContainers)
    requires j < |parts| && parts[j].role.enabled
    ensures Serves(hash, pod, RolesOf(parts), Added(parts, ops, j), j)
  {
    assert Holds(hash, pod.initContainers, Added(parts, ops, j), parts[j], WithListeners(hash, parts[j]));
  }

  /** Every container comes from a part. */
  lemma {:induction false} PlaceIsServed(parts: seq<Part>, ops: seq<Option<Pod>>, n: nat, i: nat) returns (j: nat)
    requires AllAccepted(parts, ops, n) && i < Added(parts, ops, n)
    requires forall j :: 0 <= j < n ==> ops[j].value.initContainers == []
    ensures j < n && parts[j].role.enabled && Added(parts, ops, j) == i
    decreases n
  {
    if i < Added(parts, ops, n - 1) {
      j := PlaceIsServed(parts, ops, n - 1, i);
    } else {
      j := n - 1;
    }
  }

  lemma {:induction false} PlaceEmployed(hash: string -> string, parts: seq<Part>, ops: seq<Option<Pod>>, pod: Pod,
                                         i: nat) returns (j: nat)
    requires PlainlyAccepted(hash, parts, ops) && Built(hash, [], parts, ops, |parts|, pod.initContainers)
    requires i < |pod.initContainers|
    ensures Serves(hash, pod, RolesOf(parts), i, j) && Added(parts, ops, j) == i
  {
    j := PlaceIsServed(parts, ops, |parts|, i);
    PartServes(hash, parts, ops, pod, j);
  }

  lemma {:induction false} PlacesDiffer(hash: string -> string, parts: seq<Part>, ops: seq<Option<Pod>>, pod: Pod)
    requires IsHash(hash) && SidecarsLegal(hash, RolesOf(parts))
    requires PlainlyAccepted(hash, parts, ops) && Built(hash, [], parts, ops, |parts|, pod.initContainers)
    ensures NamesDiffer(pod.initContainers)
  {
    var roles := RolesOf(parts);
    forall i, k | 0 <= i < k < |pod.initContainers| ensures pod.initContainers[i].name != pod.initContainers[k].name {
      var j := PlaceEmployed(hash, parts, ops, pod, i);
      var l := PlaceEmployed(hash, parts, ops, pod, k);
      DifferentNames(hash, pod, roles, i, j, k, l);
    }
  }

  lemma {:induction false} DifferentNames(hash: string -> string, pod: Pod, roles: seq<Role>, i: nat, j: nat, k: nat,
                                          l: nat)
    requires IsHash(hash) && SidecarsLegal(hash, roles) && j != l
    requires Serves(hash, pod, roles, i, j) && Serves(hash, pod, roles, k, l)
    ensures pod.initContainers[i].name != pod.initContainers[k].name
  {
    assert hash(roles[j].name) != hash(roles[l].name);
    ScopedNamesDiffer(hash, roles[j].name, roles[j].name, roles[l].name, roles[l].name);
  }

  lemma {:induction false} BuiltIsTidy(hash: string -> string, parts: seq<Part>, ops: seq<Option<Pod>>, pod: Pod)
    requires IsHash(hash) && SidecarsLegal(hash, RolesOf(parts)) && Plain(Pod(pod.containers, []), "dataplane")
    requires PlainlyAccepted(hash, parts, ops) && Built(hash, [], parts, ops, |parts|, pod.initContainers)
    ensures Tidy(hash, pod, RolesOf(parts))
  {
    var roles := RolesOf(parts);
    PlacesDiffer(hash, parts, ops, pod);
    forall j: nat | j < |roles| && roles[j].enabled ensures Served(hash, pod, roles, j) {
      PartServes(hash, parts, ops, pod, j);
    }
    forall i: nat | i < |pod.initContainers| ensures Employed(hash, pod, roles, i) {
      var j := PlaceEmployed(hash, parts, ops, pod, i);
    }
  }

  /**
   A plain palette renders: without patches, every plain dataplane with plain sidecars is accepted, and the result is
   the composed template.
   */
  lemma {:induction false} PlainPaletteRenders(hash: string -> string, base: Template, role: Role, parts: seq<Part>,
                                               patch: Template -> Option<Template>)
    requires IsHash(hash) && role.kind.Dataplane? && SidecarsLegal(hash, RolesOf(parts))
    requires IsDataplane(base.labels) && Plain(base.pod, "dataplane") && AllPlain(parts)
    requires var composed := ComposedFrom(hash, base, parts); composed.Some? ==> patch(composed.value) == composed
    ensures ComposedFrom(hash, base, parts).Some?
    ensures Rendered(hash, base, role, parts, patch) == ComposedFrom(hash, base, parts)
  {
    var ops := AcceptedPods(hash, parts);
    PlainPartsAreAccepted(hash, parts);
    JoinAllSucceeds(hash, base, parts, ops, |parts|);
    JoinAllBuilds(hash, base, parts, ops, |parts|);
    var composed := ComposedFrom(hash, base, parts).value;
    BuiltIsTidy(hash, parts, ops, composed.pod);
    PaletteIsComposed(hash, base, parts, ops);
    assert Prepared(hash, base, parts, patch) == Some(composed) by {
      TidyIsRestored(hash, composed, RolesOf(parts));
    }
    TidyFinishes(hash, composed.pod, role, parts);
  }

  lemma {:induction false} TidyIsRestored(hash: string -> string, composed: Template, sidecars: seq<Role>)
    requires IsHash(hash) && Tidy(hash, composed.pod, sidecars)
    ensures WithIdentity(composed, IdentityOf(composed)) == composed
  {
    var inits := composed.pod.initContainers;
    TidyNames(hash, composed.pod, sidecars);
    CapturedNames(inits);
    CapturedIsSelect(inits, Names(Captured(inits)));
    SelectAll(inits, Names(Captured(inits)), true);
    RestoringUnpatched(inits);
    IdentityOfItself(composed);
  }

  lemma {:induction false} TidyFinishes(hash: string -> string, pod: Pod, role: Role, parts: seq<Part>)
    requires IsHash(hash) && role.kind.Dataplane? && SidecarsLegal(hash, RolesOf(parts)) && AllPlain(parts)
    requires Tidy(hash, pod, RolesOf(parts)) && AllAccepted(parts, AcceptedPods(hash, parts), |parts|)
    requires Built(hash, [], parts, AcceptedPods(hash, parts), |parts|, pod.initContainers)
    ensures Finished(hash, pod, role, RolesOf(parts), true) == Some(pod)
  {
    forall j | 0 <= j < |parts| ensures parts[j].role.kind.Sidecar? {
      assert RolesOf(parts)[j] == parts[j].role;
    }
    AcceptedAreSettled(hash, parts);
    BuiltIsInPlace(hash, [], parts, AcceptedPods(hash, parts), pod);
    TidyConfigures(hash, pod, RolesOf(parts));
    TidyIsWellFormed(hash, pod, RolesOf(parts));
    TidySlots(hash, pod, RolesOf(parts));
  }
}
